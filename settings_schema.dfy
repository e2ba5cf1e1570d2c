/** The settings form's schema: the shared settings fields plus the selected
    JWT host and the auto-refresh switch, a cross-field check on the token,
    and a transform that drops the switch and nulls the token when
    auto-refresh is on. */
module SettingsSchema {
  import opened Wrappers
  import opened Json
  import opened SharedTypes

  /** The schema's output. `token` is `None` for `null`. */
  datatype OutputSettings = OutputSettings(
    apiBaseUrl: string, provider: Provider, model: string, currentHost: string, token: Option<string>)

  function GetString(input: Json, key: string): Option<string>
  {
    match Get(input, key)
    case Some(JString(s)) => Some(s)
    case _ => None
  }

  /** `provider: z.enum(["openai", "anthropic"])`. */
  function ReadProvider(input: Json): Option<Provider>
  {
    match GetString(input, "provider")
    case Some(name) => ParseProvider(name)
    case None => None
  }

  /** `token: z.string().nullable()`: a string or `null`, and required. The
      outer `Option` is success, the inner one the token. */
  function ReadToken(input: Json): Option<Option<string>>
  {
    match Get(input, "token")
    case Some(JString(s)) => Some(Some(s))
    case Some(JNull) => Some(None)
    case _ => None
  }

  /** `jwtAutoRefresh: z.boolean().default(true)`. */
  function ReadAutoRefresh(input: Json): Option<bool>
  {
    match Get(input, "jwtAutoRefresh")
    case None => Some(true)
    case Some(JBool(b)) => Some(b)
    case _ => None
  }

  /** `currentHost: z.enum(["", ...hosts]).refine((val) => val !== "")`. */
  function ReadHost(input: Json, hosts: seq<string>): Option<string>
  {
    match GetString(input, "currentHost")
    case Some(host) => if (host == "" || host in hosts) && host != "" then Some(host) else None
    case None => None
  }

  /** `FormSettingsSchema.safeParse(input)`, reduced to its outcome: the
      output on success, `None` on any issue. Keys the schema does not name
      are dropped. */
  function ValidateFormSettings(input: Json, hosts: seq<string>): (r: Option<OutputSettings>)
    ensures r.Some? ==> ReadToken(input).Some? && ReadAutoRefresh(input).Some?
    ensures r.Some? ==> r.value.currentHost in hosts && r.value.currentHost != ""
    ensures r.Some? ==>
      && GetString(input, "apiBaseUrl") == Some(r.value.apiBaseUrl)
      && GetString(input, "provider") == Some(ProviderName(r.value.provider))
      && GetString(input, "model") == Some(r.value.model)
      && GetString(input, "currentHost") == Some(r.value.currentHost)
    ensures r.Some? && Get(input, "jwtAutoRefresh") != Some(JBool(false)) ==> r.value.token == None
    ensures r.Some? && Get(input, "jwtAutoRefresh") == Some(JBool(false)) ==>
      && ReadToken(input) == Some(r.value.token)
      && r.value.token != Some("")
  {
    match (GetString(input, "apiBaseUrl"), ReadProvider(input), GetString(input, "model"),
           ReadToken(input), ReadHost(input, hosts), ReadAutoRefresh(input))
    case (Some(apiBaseUrl), Some(provider), Some(model), Some(token), Some(host), Some(autoRefresh)) =>
      if !autoRefresh && token == Some("") then None
      else if autoRefresh then Some(OutputSettings(apiBaseUrl, provider, model, host, None))
      else Some(OutputSettings(apiBaseUrl, provider, model, host, token))
    case _ => None
  }

  /** A `token` that is missing or neither a string nor `null`, and a
      `jwtAutoRefresh` that is present but not a boolean, are rejected. */
  lemma MistypedSettingsRejected(input: Json, hosts: seq<string>)
    requires || !(Get(input, "token").Some? && (Get(input, "token").value.JString? || Get(input, "token").value.JNull?))
             || (Get(input, "jwtAutoRefresh").Some? && !Get(input, "jwtAutoRefresh").value.JBool?)
    ensures ValidateFormSettings(input, hosts) == None
  {
  }

  /** A form input: the settings fields, with `jwtAutoRefresh` possibly
      absent. */
  datatype Settings = Settings(
    currentHost: string, apiBaseUrl: string, provider: Provider, model: string,
    token: Option<string>, jwtAutoRefresh: Option<bool>)

  /** A form input as the object handed to the schema, on top of any other
      keys (`extra`). */
  function SettingsJson(s: Settings, extra: map<string, Json>): Json
  {
    var fields := extra
      ["currentHost" := JString(s.currentHost)]
      ["apiBaseUrl" := JString(s.apiBaseUrl)]
      ["provider" := JString(ProviderName(s.provider))]
      ["model" := JString(s.model)]
      ["token" := match s.token case Some(t) => JString(t) case None => JNull];
    match s.jwtAutoRefresh
    case Some(b) => JObject(fields["jwtAutoRefresh" := JBool(b)])
    case None => JObject(fields)
  }

  /** Reading the form input object back: every schema field is what the
      form input holds, an absent switch reads as absent. */
  lemma ReadSettingsJson(s: Settings, extra: map<string, Json>)
    requires "jwtAutoRefresh" !in extra
    ensures var input := SettingsJson(s, extra);
      && GetString(input, "apiBaseUrl") == Some(s.apiBaseUrl)
      && GetString(input, "model") == Some(s.model)
      && GetString(input, "currentHost") == Some(s.currentHost)
      && GetString(input, "provider") == Some(ProviderName(s.provider))
      && ReadToken(input) == Some(s.token)
      && Get(input, "jwtAutoRefresh") == (match s.jwtAutoRefresh case Some(b) => Some(JBool(b)) case None => None)
  {
  }

  /** What the schema makes of a well-typed form input: the host must be a
      non-empty member of `hosts`; with auto-refresh off (it is on when
      absent) an empty token is refused, a `null` one is not; the output
      keeps the settings fields, drops the switch and every other key, and
      has a `null` token when auto-refresh is on. */
  lemma ValidateSettings(s: Settings, extra: map<string, Json>, hosts: seq<string>)
    requires "jwtAutoRefresh" !in extra
    ensures ValidateFormSettings(SettingsJson(s, extra), hosts) ==
      if s.currentHost !in hosts || s.currentHost == "" then None
      else if s.jwtAutoRefresh == Some(false) && s.token == Some("") then None
      else Some(OutputSettings(s.apiBaseUrl, s.provider, s.model, s.currentHost,
                               if s.jwtAutoRefresh == Some(false) then s.token else None))
  {
    var input := SettingsJson(s, extra);
    ReadSettingsJson(s, extra);
    assert ReadProvider(input) == Some(s.provider);
    assert ReadAutoRefresh(input) == Some(s.jwtAutoRefresh != Some(false));
  }

  /** `DEFAULT_SETTINGS`. */
  const DefaultSettings: Settings := Settings("", "", OpenAI, "", None, Some(true))

  /** The default settings never validate, whatever the host list: their
      host is empty. */
  lemma DefaultSettingsRejected(hosts: seq<string>)
    ensures ValidateFormSettings(SettingsJson(DefaultSettings, map[]), hosts) == None
  {
    ValidateSettings(DefaultSettings, map[], hosts);
  }
}
