/** The command-line debug client: drives a `NativeHostClient` talking to the
    native host, from interactive lines or from its argument vector. */
module DebugClient {
  import opened Wrappers
  import opened Json
  import opened Text
  import opened SharedTypes
  import Transport
  import NativeHost

  /** `isNonStreamingResponse`: an array, or an object not carrying both a
      `type` and a `messageId` key (those are chat stream events). On a
      primitive the source's `in` test throws; `ClientParse` drops such
      payloads before the classifier is consulted, so its value there is
      never used. */
  predicate IsNonStreamingResponse(response: Json)
    ensures response.JArray? ==> IsNonStreamingResponse(response)
    ensures response.JObject? && "messageId" !in response.fields ==> IsNonStreamingResponse(response)
  {
    !(response.JObject? && "type" in response.fields && "messageId" in response.fields)
  }

  /** Every frame the native host writes is a non-streaming response, so it
      resolves the oldest pending `sendAndWait` call. */
  lemma NativeHostAnswersAreResponses(response: Json)
    requires NativeHost.IsResponse(response)
    ensures IsNonStreamingResponse(response)
  {
    if "type" in response.fields && "messageId" in response.fields {
      OneKey(response.fields.Keys, "type", "messageId");
    }
  }

  /** A set of one element holds no two distinct values. */
  lemma OneKey<K>(keys: set<K>, a: K, b: K)
    requires |keys| == 1 && a in keys && b in keys
    ensures a == b
  {
    var rest := keys - {a};
    assert keys == rest + {a};
    assert rest == {};
  }

  /** The decoding the client's loop effectively applies: `JSON.parse`
      (`parseJson`), then the classifier's `in` test, which throws on
      anything but an object or an array; that throw is caught by the same
      `try` as a parse failure, so such a payload is dropped like one. */
  function ClientParse(parseJson: seq<Transport.Framing.byte> -> Option<Json>): (decode: seq<Transport.Framing.byte> -> Option<Json>)
    ensures forall p :: decode(p).Some? <==>
      parseJson(p).Some? && (parseJson(p).value.JObject? || parseJson(p).value.JArray?)
    ensures forall p :: decode(p).Some? ==> decode(p) == parseJson(p)
  {
    p => match parseJson(p)
         case Some(value) => if value.JObject? || value.JArray? then Some(value) else None
         case None => None
  }

  /** A payload that parses to `null`, a number, a string or a boolean makes
      the classifier throw, so it neither resolves a call nor reaches the
      handler: only objects and arrays are ever delivered. */
  lemma PrimitivesNeverDelivered(parseJson: seq<Transport.Framing.byte> -> Option<Json>,
                                 s: Transport.Inbound<Json>, data: seq<Transport.Framing.byte>)
    ensures var r := Transport.Feed(ClientParse(parseJson), IsNonStreamingResponse, s, data).routing;
      && |s.routing.resolved| <= |r.resolved|
      && |s.routing.handled| <= |r.handled|
      && (forall k :: |s.routing.resolved| <= k < |r.resolved| ==>
            r.resolved[k].response.JObject? || r.resolved[k].response.JArray?)
      && (forall k :: |s.routing.handled| <= k < |r.handled| ==>
            r.handled[k].JObject? || r.handled[k].JArray?)
  {
    var frames := Transport.Framing.Frames(s.buffer + data);
    Transport.RouteAllDeliversOnlyParsed(ClientParse(parseJson), IsNonStreamingResponse,
                                         (j: Json) => j.JObject? || j.JArray?, s.routing, frames.0);
  }

  /** How the constructor's `responseHandler` shows a message. */
  datatype Display = ChatEvent(event: Json) | Received(message: Json)

  function DisplayOf(response: Json): Display
  {
    if response.JObject? && "type" in response.fields && "messageId" in response.fields
    then ChatEvent(response)
    else Received(response)
  }

  /** The handler's two branches are the classifier's complement: it shows a
      message as a chat event exactly when the classifier calls it
      streaming. */
  lemma DisplayComplementsClassifier(response: Json)
    ensures DisplayOf(response).ChatEvent? <==> !IsNonStreamingResponse(response)
  {
  }

  /** Every message a `data` chunk hands to the handler is shown as a chat
      event: the "Received message" branch is never taken for a message the
      client's own loop routed there. */
  lemma HandlerShowsOnlyChatEvents(parseJson: seq<Transport.Framing.byte> -> Option<Json>,
                                   s: Transport.Inbound<Json>, data: seq<Transport.Framing.byte>)
    ensures var r := Transport.Feed(ClientParse(parseJson), IsNonStreamingResponse, s, data);
      && |s.routing.handled| <= |r.routing.handled|
      && forall k :: |s.routing.handled| <= k < |r.routing.handled| ==> DisplayOf(r.routing.handled[k]).ChatEvent?
  {
    var frames := Transport.Framing.Frames(s.buffer + data);
    Transport.RouteAllInvariant(ClientParse(parseJson), IsNonStreamingResponse, s.routing, frames.0);
  }

  /** The chat settings read from the environment. */
  datatype ChatEnv = ChatEnv(apiKey: string, apiBaseUrl: string, provider: Provider, model: string)

  /** `ChatEnv.safeParse(process.env)`: the four variables must be set and
      `PROVIDER` must name a provider. */
  function ParseChatEnv(env: map<string, string>): (r: Option<ChatEnv>)
    ensures r.Some? <==>
      && "API_KEY" in env && "API_BASE_URL" in env && "PROVIDER" in env && "MODEL" in env
      && (env["PROVIDER"] == "openai" || env["PROVIDER"] == "anthropic")
    ensures r.Some? ==>
      && r.value.apiKey == env["API_KEY"] && r.value.apiBaseUrl == env["API_BASE_URL"]
      && ProviderName(r.value.provider) == env["PROVIDER"] && r.value.model == env["MODEL"]
  {
    if "API_KEY" in env && "API_BASE_URL" in env && "PROVIDER" in env && "MODEL" in env then
      match ParseProvider(env["PROVIDER"])
      case Some(provider) => Some(ChatEnv(env["API_KEY"], env["API_BASE_URL"], provider, env["MODEL"]))
      case None => None
    else None
  }

  function ReverseRequest(text: string): Json
  {
    JObject(map["action" := JString("reverse"), "text" := JString(text)])
  }

  function ChatRequest(prompt: string, env: ChatEnv): Json
  {
    JObject(map[
      "action" := JString("chat"),
      "prompt" := JString(prompt),
      "jwt" := JString(env.apiKey),
      "apiBaseUrl" := JString(env.apiBaseUrl),
      "provider" := JString(ProviderName(env.provider)),
      "model" := JString(env.model)])
  }

  /** What the interactive prompt does with one line. */
  datatype LineAction =
    | Reprompt
    | Quit
    | AwaitReverse(request: Json)
    | SendChat(request: Json)
    | ChatEnvInvalid
    | SendRaw(message: Json)
    | InvalidJson
    | UnknownCommand

  /** The line callback's dispatch on the trimmed line: empty, `exit` or
      `quit`, then the prefixes `reverse `, `chat ` and `raw ` in that order.
      `parseJson` is `JSON.parse` on text. */
  function ParseLine(input: string, env: map<string, string>, parseJson: string -> Option<Json>): (r: LineAction)
    ensures r.Reprompt? <==> Trim(input) == ""
    ensures r.Quit? <==> Trim(input) == "exit" || Trim(input) == "quit"
  {
    Dispatch(Trim(input), env, parseJson)
  }

  /** No line starts with two of the command prefixes. */
  lemma CommandPrefixesExclusive(t: string)
    ensures StartsWith(t, "reverse ") ==> !StartsWith(t, "chat ") && !StartsWith(t, "raw ")
    ensures StartsWith(t, "chat ") ==> !StartsWith(t, "raw ")
  {
    if StartsWith(t, "reverse ") {
      assert t[0] == t[..8][0] && t[1] == t[..8][1];
    }
    if StartsWith(t, "chat ") {
      assert t[0] == t[..5][0];
    }
  }

  /** `exit` and `quit` are not raw lines. */
  lemma QuitWordsNotRaw(t: string)
    requires t == "exit" || t == "quit"
    ensures !StartsWith(t, "raw ")
  {
    assert t[..4] == t;
    assert t[0] != "raw "[0];
  }

  /** The dispatch on the trimmed line: the prefixes exclude each other, so
      each kind of action is chosen by exactly one test. */
  function Dispatch(trimmed: string, env: map<string, string>, parseJson: string -> Option<Json>): (r: LineAction)
    ensures r.Reprompt? <==> trimmed == ""
    ensures r.Quit? <==> trimmed == "exit" || trimmed == "quit"
    ensures r.AwaitReverse? <==> StartsWith(trimmed, "reverse ")
    ensures r.SendChat? || r.ChatEnvInvalid? <==> StartsWith(trimmed, "chat ")
    ensures r.SendRaw? || r.InvalidJson? <==> StartsWith(trimmed, "raw ")
  {
    CommandPrefixesExclusive(trimmed);
    if trimmed == "" then Reprompt
    else if trimmed == "exit" || trimmed == "quit" then QuitWordsNotRaw(trimmed); Quit
    else if StartsWith(trimmed, "reverse ") then AwaitReverse(ReverseRequest(trimmed[|"reverse "|..]))
    else if StartsWith(trimmed, "chat ") then
      match ParseChatEnv(env)
      case None => ChatEnvInvalid
      case Some(chatEnv) => SendChat(ChatRequest(trimmed[|"chat "|..], chatEnv))
    else if StartsWith(trimmed, "raw ") then
      match parseJson(trimmed[4..])
      case None => InvalidJson
      case Some(message) => SendRaw(message)
    else UnknownCommand
  }

  /** A line is ignored (the prompt is shown again, nothing is sent) exactly
      when it is all whitespace. */
  lemma BlankLineReprompts(input: string, env: map<string, string>, parseJson: string -> Option<Json>)
    ensures ParseLine(input, env, parseJson) == Reprompt
        <==> forall k :: 0 <= k < |input| ==> IsWhitespace(input[k])
  {
    TrimEmpty(input);
  }

  /** Trimming a command line `word + " " + t` keeps the word and the
      separator and cuts only the trailing whitespace of `t`; when `t` is all
      whitespace only the word is left. */
  lemma TrimCommand(word: string, t: string)
    requires |word| > 0 && !IsWhitespace(word[0]) && !IsWhitespace(word[|word| - 1])
    ensures Trim(word + " " + t) == if TrimEnd(t) == "" then word else word + " " + TrimEnd(t)
  {
    var line := word + " " + t;
    assert line[0] == word[0];
    TrimStartFixed(line);
    TrimEndAppend(word + " ", t);
    TrimEndAppend(word, " ");
    TrimEndFixed(word);
  }

  /** A line whose trimmed form is `reverse ` and a text sends a reverse
      request for that text (what `TrimCommand` says that text is: the
      typed text without its trailing whitespace). */
  lemma ReverseLine(input: string, rest: string, env: map<string, string>, parseJson: string -> Option<Json>)
    requires Trim(input) == "reverse " + rest
    ensures ParseLine(input, env, parseJson) == AwaitReverse(ReverseRequest(rest))
  {
    var line := "reverse " + rest;
    assert line[..8] == "reverse ";
    assert line[8..] == rest;
  }

  /** A line whose trimmed form is `chat ` and a text sends a chat request
      for that text when the environment is valid, and nothing otherwise. */
  lemma ChatLine(input: string, rest: string, env: map<string, string>, parseJson: string -> Option<Json>)
    requires Trim(input) == "chat " + rest
    ensures ParseLine(input, env, parseJson)
         == match ParseChatEnv(env)
            case None => ChatEnvInvalid
            case Some(chatEnv) => SendChat(ChatRequest(rest, chatEnv))
  {
    var line := "chat " + rest;
    assert line[..5] == "chat ";
    assert line[0] != "reverse "[0];
    assert line[5..] == rest;
  }

  /** A line whose trimmed form is `raw ` and a text sends the JSON value the
      text denotes, and nothing when it is not JSON. */
  lemma RawLine(input: string, rest: string, env: map<string, string>, parseJson: string -> Option<Json>)
    requires Trim(input) == "raw " + rest
    ensures ParseLine(input, env, parseJson)
         == match parseJson(rest)
            case None => InvalidJson
            case Some(message) => SendRaw(message)
  {
    var line := "raw " + rest;
    assert line[..4] == "raw ";
    assert line[1] != "reverse "[1] && line[0] != "chat "[0];
    assert line[4..] == rest;
  }

  /** A command word with nothing after it (`reverse `, typed with its space,
      trims to `reverse`) is an unknown command. */
  lemma BareWordLine(input: string, env: map<string, string>, parseJson: string -> Option<Json>)
    requires Trim(input) == "reverse" || Trim(input) == "chat" || Trim(input) == "raw"
    ensures ParseLine(input, env, parseJson) == UnknownCommand
  {
    var word := Trim(input);
    if word == "reverse" {
      assert word[..5] != "chat " by { assert word[0] != "chat "[0]; }
      assert word[..4] != "raw " by { assert word[1] != "raw "[1]; }
    }
  }

  /** The message a line action writes to the native host, if any. */
  function Outgoing(action: LineAction): Option<Json>
  {
    match action
    case AwaitReverse(request) => Some(request)
    case SendChat(request) => Some(request)
    case SendRaw(message) => Some(message)
    case _ => None
  }

  /** The line callback acting on the client: `exit`/`quit` stops it and ends
      the prompt loop; a reverse line queues the resolver `call` and sends;
      chat and raw lines send without waiting; every other line only prints.
      Returns whether the prompt is shown again. */
  method HandleLine(client: Transport.NativeHostClient<Json, Json>, input: string, env: map<string, string>,
                    parseJson: string -> Option<Json>, call: Transport.CallId) returns (again: bool)
    modifies client
    ensures var action := ParseLine(input, env, parseJson);
      && again == !action.Quit?
      && client.running == (old(client.running) && !action.Quit?)
      && client.messageQueue == old(client.messageQueue) + (if action.AwaitReverse? then [call] else [])
      && client.written == old(client.written)
           + (if old(client.running) && Outgoing(action).Some? then [Outgoing(action).value] else [])
      && client.buffer == old(client.buffer)
      && client.resolved == old(client.resolved)
      && client.handled == old(client.handled)
  {
    var action := ParseLine(input, env, parseJson);
    match action {
      case Quit =>
        client.Stop();
        return false;
      case AwaitReverse(request) =>
        var _ := client.SendAndWait(request, call);
      case SendChat(request) =>
        var _ := client.SendMessage(request);
      case SendRaw(message) =>
        var _ := client.SendMessage(message);
      case _ =>
    }
    again := true;
  }

  /** Why a run ends with exit status 1 before sending anything. */
  datatype FailReason =
    | StartFailed
    | MissingArgument(command: string)
    | InvalidEnv
    | UnknownCommandName(command: string)

  /** What `main` does with the arguments after the script name
      (`process.argv.slice(2)`). */
  datatype Plan =
    | Interactive
    | OneShotReverse(request: Json)
    | OneShotChat(request: Json)
    | ExitFailure(reason: FailReason)

  /** Whether `spawn` throws at once for this command: an empty command or
      one holding a NUL character is refused before any process exists. */
  predicate SpawnRefuses(command: string)
  {
    command == "" || '\0' in command
  }

  /** `main`'s argument handling: `args[0]` is the native host to start; with
      none, or one `spawn` refuses, `start` rejects and the run fails before
      sending anything. A single argument starts the interactive prompt;
      otherwise `args[1]` is the command and the rest, joined with single
      spaces, its argument. */
  function PlanRun(args: seq<string>, env: map<string, string>): (r: Plan)
    ensures r == ExitFailure(StartFailed) <==> |args| == 0 || SpawnRefuses(args[0])
    ensures r.Interactive? <==> |args| == 1 && !SpawnRefuses(args[0])
    ensures r.ExitFailure? && r.reason.UnknownCommandName? <==>
      |args| >= 2 && !SpawnRefuses(args[0]) && args[1] != "reverse" && args[1] != "chat"
    ensures r == ExitFailure(InvalidEnv) ==>
      |args| >= 2 && args[1] == "chat" && ParseChatEnv(env).None?
  {
    if |args| == 0 || SpawnRefuses(args[0]) then ExitFailure(StartFailed)
    else if |args| == 1 then Interactive
    else
      var command := args[1];
      var arg := Join(args[2..], " ");
      if command == "reverse" then
        if arg == "" then ExitFailure(MissingArgument(command)) else OneShotReverse(ReverseRequest(arg))
      else if command == "chat" then
        if arg == "" then ExitFailure(MissingArgument(command))
        else match ParseChatEnv(env)
          case None => ExitFailure(InvalidEnv)
          case Some(chatEnv) => OneShotChat(ChatRequest(arg, chatEnv))
      else ExitFailure(UnknownCommandName(command))
  }

  /** One-shot mode: a reverse or chat command fails for a missing argument
      exactly when nothing, or a single empty string, follows it; a request
      that is sent carries the remaining arguments joined with single
      spaces, which is never empty. */
  lemma OneShotArguments(args: seq<string>, env: map<string, string>)
    ensures PlanRun(args, env).ExitFailure? && PlanRun(args, env).reason.MissingArgument?
        <==> |args| >= 2 && !SpawnRefuses(args[0]) && (args[1] == "reverse" || args[1] == "chat")
             && (|args| == 2 || (|args| == 3 && args[2] == ""))
    ensures PlanRun(args, env).OneShotReverse? ==>
      |args| >= 2 && args[1] == "reverse" && Join(args[2..], " ") != ""
      && PlanRun(args, env).request == ReverseRequest(Join(args[2..], " "))
    ensures PlanRun(args, env).OneShotChat? ==>
      |args| >= 2 && args[1] == "chat" && Join(args[2..], " ") != "" && ParseChatEnv(env).Some?
      && PlanRun(args, env).request == ChatRequest(Join(args[2..], " "), ParseChatEnv(env).value)
  {
    if |args| >= 2 {
      JoinEmpty(args[2..], " ");
    }
  }
}
