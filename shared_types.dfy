/** Shapes shared by the extension, the native host and the debug client. */
module SharedTypes {
  import opened Wrappers

  /** The `provider` enumeration `"openai" | "anthropic"`. */
  datatype Provider = OpenAI | Anthropic

  function ProviderName(p: Provider): string
  {
    match p
    case OpenAI => "openai"
    case Anthropic => "anthropic"
  }

  /** Accepts exactly the two enumeration members, and recovers the member
      that `ProviderName` spells. */
  function ParseProvider(s: string): (r: Option<Provider>)
    ensures r.Some? <==> s == "openai" || s == "anthropic"
    ensures r.Some? ==> ProviderName(r.value) == s
  {
    if s == "openai" then Some(OpenAI)
    else if s == "anthropic" then Some(Anthropic)
    else None
  }
}
