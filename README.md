# browser-mcp-client core, modelled in Dafny

This project models the message path of browser-mcp-client. A browser
extension and a command-line debug client talk to a native host process over
its standard input and output. Each message is a frame: a 4-byte
little-endian length followed by that many bytes of JSON.

The model covers these parts of the system:

- **Transport** (`NativeHostClient`): it keeps a byte buffer across `data`
  chunks and cuts complete frames out of it. It decodes each payload and routes
  it. A message the caller's classifier calls a non-streaming response
  resolves the oldest pending `sendAndWait` call. Any other message goes to the
  streaming handler.
- **Native host**: it reads one request and writes at most one response
  frame. A `reverse` request with a string `text` gets the reversed text. A
  `reverse` request whose `text` is missing or not a string gets the message of
  the `TypeError` raised. Any other request gets a fixed error. When stdin
  holds no request nothing is written.
- **Debug client**: its classifier, its handler's display choice, the
  dispatch of an interactive line, and the argument handling of one-shot
  mode.
- **Side panel chat reducer** (`useChatStream`): it folds chat stream events
  into conversation turns and an `isStreaming` flag.
- **Settings and tools schemas**: each is validated, with its defaults,
  cross-field check and transform.
- **JWT storage and the JWT store**: the storage key and `getJwt`/`saveJwt`
  over the storage area. The `useJwt` store keeps the current token of one
  host and notifies subscribers.

Files and modules:

| file | module | models |
|---|---|---|
| wrappers.dfy | Wrappers | `Option` |
| json.dfy | Json | decoded JSON values and property reads |
| text.dfy | Text | ECMAScript `trim`, `startsWith`, `join` |
| shared_types.dfy | SharedTypes | the `provider` enumeration |
| framing.dfy | Framing | the frame format and the frame-cutting loop as a function |
| transport.dfy | Transport | `NativeHostClient` (class) and its routing specification |
| native_host.dfy | NativeHost | `handleMessage`, `reverseString`, `main` |
| debug_client.dfy | DebugClient | the debug client's classifier, handler, line dispatch and argument plan |
| chat_stream.dfy | ChatStream | the chat reducer (functions) and the hook state (class) |
| settings_schema.dfy | SettingsSchema | `FormSettingsSchema`, `DEFAULT_SETTINGS` |
| tools_schema.dfy | ToolsSchema | `ToolsSchema` |
| storage.dfy | Storage | `toJwtStorageKey`, `saveJwt`, `getJwt` over a storage-area class |
| jwt_store.dfy | JwtStore | `createJwtStore` as a class |

Effects are modelled as follows:

- The child process, stdin and the resolver and handler callbacks are
  recorded as logs in fields of `NativeHostClient`.
- `JSON.parse` is a function parameter.
- The engine's `TypeError` messages are a function parameter.
- The environment and the argument vector are plain values.

## Model

| member | source | states |
|---|---|---|
| Framing.ReadUInt32LE | native-messaging/src/node.ts:47 | the declared payload length is below 2^32 |
| Framing.UInt32LE | native-messaging/src/node.ts:47 | the four little-endian bytes of a length read back as that length |
| Framing.UInt32LEOfRead | native-messaging/src/node.ts:47 | reading a 4-byte prefix and writing the length back reproduces the prefix |
| Framing.Encode | native-messaging/src/node.ts:47-54 | a frame is 4 + \|p\| bytes, the payload follows the header, and the header reads \|p\| |
| Framing.Frames | native-messaging/src/node.ts:46-55 | nothing is cut from a buffer without a complete frame, and the kept bytes never hold a complete frame |
| Framing.FramesDecompose | native-messaging/src/node.ts:46-55 | the buffer is exactly the frames of the delivered payloads followed by the kept bytes |
| Framing.FrameAtFront | native-messaging/src/node.ts:47-55 | a buffer with a complete frame starts with the encoding of that frame's payload |
| Framing.FramesOfEncoded | native-messaging/src/node.ts:46-55 | round trip: a frame followed by any bytes yields its payload first, then whatever the rest yields |
| Framing.FramesOfOneFrame | native-messaging/src/node.ts:46-55 | a single frame yields exactly its payload, once, and keeps nothing |
| Framing.FramesAppend | native-messaging/src/node.ts:44-55 | cutting frames from `a` and then from the rest plus `b` gives the same payloads and kept bytes as cutting from `a + b` |
| Transport.Feed | native-messaging/src/node.ts:43-71 | after `handleData` the buffer holds no complete frame; a chunk that completes no frame is only appended |
| Transport.Route | native-messaging/src/node.ts:57-69 | one payload lands in at most one place (a resolution or the handler), and a resolution consumes exactly one pending call |
| Transport.RouteAll | native-messaging/src/node.ts:46-70 | routing n payloads adds at most n resolutions and handled messages together, and every resolution consumes one pending call |
| Transport.RouteAllAppend | native-messaging/src/node.ts:46-70 | routing two batches of payloads one after the other is routing their concatenation |
| Transport.RouteAllSnoc | native-messaging/src/node.ts:57-69 | routing one more payload is one more turn of the loop body |
| Transport.FeedChunking | native-messaging/src/node.ts:43-71 | two chunks fed one after the other deliver the same messages to the same places, and keep the same bytes, as their concatenation fed at once |
| Transport.FeedOneFrame | native-messaging/src/node.ts:43-71 | one frame on an empty buffer is routed exactly once and leaves the buffer empty. An unparsable payload changes nothing. A response resolves the oldest call, or is dropped when none is pending. Any other message reaches the handler |
| Transport.FeedSkipsUnparsable | native-messaging/src/node.ts:57-69 | a frame that does not parse is consumed, and the stream goes on as if it had never arrived |
| Transport.ResolveGrows | native-messaging/src/node.ts:59-63 | resolving the oldest call keeps the routing invariant |
| Transport.HandleGrows | native-messaging/src/node.ts:64-66 | handing a message to the streaming handler keeps the routing invariant |
| Transport.RouteGrows | native-messaging/src/node.ts:57-69 | one loop iteration keeps the routing invariant |
| Transport.RouteAllInvariant | native-messaging/src/node.ts:57-69 | routing any payloads only grows the logs. Resolved calls followed by the still-pending calls are exactly the calls pending before, in order. New resolutions are classifier-positive and new handled messages are classifier-negative |
| Transport.RouteAllDeliversOnlyParsed | native-messaging/src/node.ts:57-69 | whatever property every successfully parsed payload has, every new resolution and every newly handled message has it too: a payload whose parse throws reaches neither the pending call nor the handler |
| Transport.RouteAllResolvesInOrder | native-messaging/src/node.ts:59-63 | FIFO: when every payload is a response and enough calls are pending, the k-th response resolves the k-th pending call and nothing reaches the handler |
| Transport.DefaultClassifierNeverStreams | native-messaging/src/node.ts:12 | with the default classifier no message ever reaches the streaming handler |
| Transport.FramesOfTwo | native-messaging/src/node.ts:46-55 | two frames in one chunk deliver both payloads in order and keep nothing |
| Transport.FeedTwoResponses | native-messaging/src/node.ts:43-71 | with two calls pending, a chunk with two response frames resolves the older call with the first response and the newer call with the second |
| Transport.NativeHostClient.constructor | native-messaging/src/node.ts:5-13 | a new client has no process, an empty buffer, no pending calls and empty logs |
| Transport.NativeHostClient.Start | native-messaging/src/node.ts:15-41 | after `start` there is a process |
| Transport.NativeHostClient.ProcessClosed | native-messaging/src/node.ts:34-37 | the `close` event drops the process handle |
| Transport.NativeHostClient.HandleData | native-messaging/src/node.ts:43-71 | the loop leaves exactly the state `Feed` specifies |
| Transport.NativeHostClient.Deliver | native-messaging/src/node.ts:57-69 | one payload is routed exactly as `Route` specifies |
| Transport.NativeHostClient.SendMessage | native-messaging/src/node.ts:73-79 | one message is written when there is a process; otherwise nothing is written and "Native host not started" is the outcome |
| Transport.NativeHostClient.SendAndWait | native-messaging/src/node.ts:81-86 | the resolver is queued at the tail whether or not the write succeeds, then the message is sent |
| Transport.NativeHostClient.Stop | native-messaging/src/node.ts:88-94 | after `stop` there is no process; stopping twice changes nothing more |
| Transport.FifoScenario | native-messaging/src/node.ts:81-86 | `sendAndWait(A)`, `sendAndWait(B)`, then frames R1 and R2 in one chunk resolve A with R1 and B with R2 |
| NativeHost.Reverse | native-host/src/index.ts:21-23 | the reversal has the same length, and position i holds the input's position \|s\|-1-i |
| NativeHost.ReverseInvolution | native-host/src/index.ts:21-23 | reversing twice gives the input back |
| NativeHost.HandleMessage | native-host/src/index.ts:8-19 | a `TypeError` escapes exactly for a `null` request, or a `reverse` request whose `text` is missing or not a string; a returned response is the fixed error or the reversal of the request's string `text` |
| NativeHost.ReverseRequestAnswered | native-host/src/index.ts:11-14 | a reverse request with a string text is answered with a `reversed` string whose reversal is the text |
| NativeHost.OtherActionsRejected | native-host/src/index.ts:11-17 | a non-null request gets "Invalid action or missing text" exactly when its action is not "reverse" |
| NativeHost.ServeOnce | native-host/src/index.ts:25-44 | a `null` read writes nothing; anything else writes exactly one frame: the response, the `TypeError`'s message, the read error's message, or "Unknown error"; every frame written is a response object |
| DebugClient.DisplayComplementsClassifier | native-host-client/src/index.ts:144-155 | the handler shows a message as a chat event exactly when the classifier calls it streaming |
| DebugClient.IsNonStreamingResponse | native-host-client/src/index.ts:45-47 | an array, and any object without a `messageId`, is a non-streaming response |
| DebugClient.ClientParse | native-host-client/src/index.ts:45-47 | the client's decoder: a payload is kept exactly when it parses to an object or an array, unchanged; a primitive (including `null`) is dropped, as the `in` test throws on it and the catch in native-messaging/src/node.ts:67-69 discards the message |
| DebugClient.PrimitivesNeverDelivered | native-messaging/src/node.ts:57-69 | feeding any bytes to the client's reader only grows its logs, and every newly resolved response and every newly handled message is an object or an array |
| DebugClient.NativeHostAnswersAreResponses | native-host-client/src/index.ts:45-47 | every frame the native host writes is classified as a non-streaming response |
| DebugClient.HandlerShowsOnlyChatEvents | native-host-client/src/index.ts:143-155 | every message the client's loop hands to the handler is shown as a chat event, never as "Received message" |
| DebugClient.ParseChatEnv | native-host-client/src/index.ts:11-16 | the environment is accepted exactly when the four variables are set and `PROVIDER` names a provider, and the fields are those variables |
| DebugClient.ParseLine | native-host-client/src/index.ts:65-78 | a line is ignored exactly when it trims to nothing, and ends the session exactly when it trims to `exit` or `quit` |
| DebugClient.Dispatch | native-host-client/src/index.ts:67-129 | on the trimmed line, each action is chosen by exactly one test: empty, `exit`/`quit`, or a `reverse `, `chat ` or `raw ` prefix; the prefixes exclude each other |
| DebugClient.BlankLineReprompts | native-host-client/src/index.ts:67-72 | a line is ignored with a new prompt exactly when it is all whitespace |
| DebugClient.TrimCommand | native-host-client/src/index.ts:67 | a command word, a space and a text trim to the word alone when the text is blank, else to the word, a space and the text without trailing whitespace |
| DebugClient.ReverseLine | native-host-client/src/index.ts:81-87 | a line trimming to `reverse ` plus a text sends a reverse request for that text and waits |
| DebugClient.ChatLine | native-host-client/src/index.ts:88-117 | a line trimming to `chat ` plus a text sends a chat request with that prompt and the environment's settings; with an invalid environment nothing is sent |
| DebugClient.RawLine | native-host-client/src/index.ts:118-126 | a line trimming to `raw ` plus a text sends the JSON value the text denotes; invalid JSON sends nothing |
| DebugClient.BareWordLine | native-host-client/src/index.ts:127-129 | a command word with nothing after it is an unknown command |
| DebugClient.HandleLine | native-host-client/src/index.ts:65-135 | `exit`/`quit` stops the client and ends the prompt loop. A reverse line queues a call and writes. Chat and raw lines write without queueing. Every other line writes nothing. Buffer and logs are untouched |
| DebugClient.OneShotArguments | native-host-client/src/index.ts:163-221 | once the host has started, one-shot mode fails for a missing argument exactly when nothing, or one empty string, follows `reverse`/`chat`. A request that is sent carries the remaining arguments joined with spaces, which is never empty |
| DebugClient.PlanRun | native-host-client/src/index.ts:141-228 | the run fails at `start` exactly when no host path is given or `spawn` refuses it (empty, or holding a NUL). It is interactive exactly when the host path is the only argument. It fails with an unknown command exactly when the command is neither `reverse` nor `chat`. An invalid environment fails only a `chat` command |
| SharedTypes.ParseProvider | shared-types/src/index.ts:14 | exactly "openai" and "anthropic" are providers, and the name is recovered |
| Text.TrimIsInfix | native-host-client/src/index.ts:67 | `trim` returns the infix between the leading and trailing whitespace, all of which is removed |
| Text.Trim | native-host-client/src/index.ts:67 | the trimmed string is no longer than the input and neither starts nor ends with whitespace |
| Text.TrimEmpty | native-host-client/src/index.ts:69 | the trimmed line is empty exactly when the line is all whitespace |
| Text.TrimIdempotent | browser-extension/src/schemas/tools.ts:6-8 | trimming twice is trimming once |
| Text.JoinEmpty | native-host-client/src/index.ts:169 | joining with a space is empty exactly when there are no parts or a single empty one |
| ChatStream.LastToolIndex | browser-extension/entrypoints/sidepanel/hooks/useChatStream.ts:72-75 | the backward scan finds the highest-index tool turn with the name, and finds none exactly when there is no such turn |
| ChatStream.WithToolResult | browser-extension/entrypoints/sidepanel/hooks/useChatStream.ts:68-84 | the length is kept, and each turn is unchanged or is a tool turn with that name given the result |
| ChatStream.WithToken | browser-extension/entrypoints/sidepanel/hooks/useChatStream.ts:87-99 | the list grows by at most one turn and ends in an assistant turn |
| ChatStream.Apply | browser-extension/entrypoints/sidepanel/hooks/useChatStream.ts:45-115 | one message adds at most one turn, and only `thinking`, `final` and `error` change the streaming flag |
| ChatStream.IsThinking | browser-extension/entrypoints/sidepanel/hooks/useChatStream.ts:128-133 | a turn can be shown as thinking only when the conversation ends in an assistant turn |
| ChatStream.ToolResultAttached | browser-extension/entrypoints/sidepanel/hooks/useChatStream.ts:68-84 | the result goes to the latest tool turn with that name; length and every other turn are unchanged |
| ChatStream.ToolResultWithoutMatch | browser-extension/entrypoints/sidepanel/hooks/useChatStream.ts:68-84 | with no tool turn of that name the result is dropped and nothing changes |
| ChatStream.AttachToolResult | browser-extension/entrypoints/sidepanel/hooks/useChatStream.ts:69-83 | the copy-and-scan updater computes exactly `WithToolResult` |
| ChatStream.TokenMerges | browser-extension/entrypoints/sidepanel/hooks/useChatStream.ts:87-99 | a token extends a trailing assistant turn in place, or else appends one new assistant turn holding the token |
| ChatStream.ThinkingAfterToken | browser-extension/entrypoints/sidepanel/hooks/useChatStream.ts:128-133 | after a token the last turn is shown as thinking, and no other turn is |
| ChatStream.NothingThinkingAfterFinal | browser-extension/entrypoints/sidepanel/hooks/useChatStream.ts:128-133 | after `final` no turn is shown as thinking |
| ChatStream.ErrorTurnShownThinking | browser-extension/entrypoints/sidepanel/hooks/useChatStream.ts:107-113 | after `error` streaming is off, the last turn is "Error: " plus the message, and that turn is shown as thinking |
| ChatStream.TokensConcatenate | browser-extension/entrypoints/sidepanel/hooks/useChatStream.ts:87-99 | a run of tokens after a non-assistant turn builds one assistant turn holding their concatenation |
| ChatStream.HelloExample | browser-extension/entrypoints/sidepanel/hooks/useChatStream.ts:45-115 | `thinking`, "Hel", "lo", `final` from the empty state give start, "Hello", finish, with streaming off |
| ChatStream.CalcExample | browser-extension/entrypoints/sidepanel/hooks/useChatStream.ts:57-84 | two `calc` calls and a `calc` result attach the result to the second call; the first keeps none |
| ChatStream.ApplyAllAppend | browser-extension/entrypoints/sidepanel/hooks/useChatStream.ts:45-115 | delivering two runs of messages is delivering their concatenation |
| ChatStream.ExtendsOnce | browser-extension/entrypoints/sidepanel/hooks/useChatStream.ts:45-115 | one message only extends the turn list |
| ChatStream.ExtendsTransitive | browser-extension/entrypoints/sidepanel/hooks/useChatStream.ts:45-115 | extending twice is extending |
| ChatStream.HistoryOnlyExtends | browser-extension/entrypoints/sidepanel/hooks/useChatStream.ts:45-115 | any messages only extend the turns: none removed or reordered, tool turns keep name and arguments, only the trailing assistant text grows |
| ChatStream.StreamingFollowsLifecycle | browser-extension/entrypoints/sidepanel/hooks/useChatStream.ts:51-113 | `isStreaming` is set by the last `thinking` and cleared by the last `final` or `error`; other messages leave it alone |
| ChatStream.IgnoredMessages | browser-extension/entrypoints/sidepanel/hooks/useChatStream.ts:46-51 | messages that are not chat stream events, or carry another event type, change nothing |
| ChatStream.ChatStreamHook.constructor | browser-extension/entrypoints/sidepanel/hooks/useChatStream.ts:41-42 | the hook starts with no turns and not streaming |
| ChatStream.ChatStreamHook.HandleMessage | browser-extension/entrypoints/sidepanel/hooks/useChatStream.ts:45-115 | the listener leaves exactly the state `Apply` specifies |
| ChatStream.ChatStreamHook.AppendUserMessage | browser-extension/entrypoints/sidepanel/hooks/useChatStream.ts:124-126 | exactly one user turn is appended; the flag is unchanged |
| SettingsSchema.ValidateFormSettings | browser-extension/entrypoints/sidepanel/settings/schema.ts:5-24 | a result has a non-empty listed host and the input's fields, and the input's `token` is a string or null and its `jwtAutoRefresh` is absent or a boolean. With auto-refresh not false the token is null. With it false the token is the input's and not "" |
| SettingsSchema.MistypedSettingsRejected | browser-extension/src/schemas/settings.ts:7 | an input whose `token` is missing or neither a string nor null, or whose `jwtAutoRefresh` is present but not a boolean (schema.ts:9), is rejected |
| SettingsSchema.ReadSettingsJson | browser-extension/src/schemas/settings.ts:3-8 | every schema field of a form input object reads back as the form input holds it |
| SettingsSchema.ValidateSettings | browser-extension/entrypoints/sidepanel/settings/schema.ts:5-24 | a form input is rejected exactly for a missing or unlisted host, or for an empty token with auto-refresh off. Otherwise the output keeps the fields, drops the switch and extra keys, and nulls the token when auto-refresh is on or absent |
| SettingsSchema.DefaultSettingsRejected | browser-extension/entrypoints/sidepanel/settings/schema.ts:29-36 | `DEFAULT_SETTINGS` never validates, whatever the host list |
| ToolsSchema.ValidateTool | browser-extension/src/schemas/tools.ts:5-19 | an accepted tool's id is the element's `id` trimmed and not empty, its JSON text is the element's `json` trimmed and parses, and its `enabled` is the element's boolean |
| ToolsSchema.ValidateToolOf | browser-extension/src/schemas/tools.ts:5-19 | an element with a string `id`, a string `json` and a boolean `enabled` is accepted exactly when the trimmed id is not empty and the trimmed text parses; the tool holds the trimmed strings and the boolean, and other keys are dropped |
| ToolsSchema.MistypedToolRejected | browser-extension/src/schemas/tools.ts:6-18 | an element lacking a field, or with a non-string `id` or `json` or a non-boolean `enabled`, is rejected |
| ToolsSchema.ValidateTools | browser-extension/src/schemas/tools.ts:3-21 | the input is accepted exactly when `tools` is an array whose every element is accepted; the output holds one tool per element, in order |
| ToolsSchema.ValidateArray | browser-extension/src/schemas/tools.ts:4-20 | an array is accepted exactly when every element is; the output holds the elements' outputs in order |
| ToolsSchema.ValidatedToolNormalised | browser-extension/src/schemas/tools.ts:5-19 | an accepted tool's id and JSON text are trimmed |
| ToolsSchema.NormalisedToolRevalidates | browser-extension/src/schemas/tools.ts:5-19 | a normalised tool, written back, validates to itself |
| ToolsSchema.ValidationIdempotent | browser-extension/src/schemas/tools.ts:3-21 | validating the schema's own output succeeds and gives the same tools |
| Storage.ToJwtStorageKey | browser-extension/src/utils/storage.ts:5-7 | the key is "jwt_" followed by the host, 4 characters longer |
| Storage.HostOfJwtKey | browser-extension/src/utils/storage.ts:5-7 | a key names a host exactly when it starts with "jwt_" |
| Storage.JwtKeyRoundTrip | browser-extension/src/utils/storage.ts:5-7 | dropping the prefix of a host's key gives the host back |
| Storage.JwtKeyOfHost | browser-extension/src/utils/storage.ts:5-7 | every "jwt_" key is the key of the host it names |
| Storage.JwtKeyInjective | browser-extension/src/utils/storage.ts:5-7 | distinct hosts have distinct keys |
| Storage.StoredJwt | browser-extension/src/utils/storage.ts:13-18 | a token is read exactly when the key holds a string, and it is that string; otherwise null |
| Storage.SaveThenGet | browser-extension/src/utils/storage.ts:9-18 | a saved token reads back, and every other host's token is unchanged |
| Storage.LocalStorageArea.SaveJwt | browser-extension/src/utils/storage.ts:9-11 | only the host's key changes, to the token |
| Storage.LocalStorageArea.GetJwt | browser-extension/src/utils/storage.ts:13-18 | reads what `StoredJwt` specifies: the stored string under the host's key, or null when absent or not a string; the storage is not changed |
| JwtStore.AsJwt | browser-extension/entrypoints/sidepanel/hooks/useJwt.ts:22-23 | a changed value is kept exactly when it is a string; otherwise null |
| JwtStore.Without | browser-extension/entrypoints/sidepanel/hooks/useJwt.ts:34 | deleting a listener removes it and keeps every other listener, in insertion order |
| JwtStore.WithoutSet | browser-extension/entrypoints/sidepanel/hooks/useJwt.ts:34 | deleting keeps the listeners a set, one shorter when the listener was there |
| JwtStore.OncePerMember | browser-extension/entrypoints/sidepanel/hooks/useJwt.ts:13 | in a set every listener occurs once |
| JwtStore.JwtStore.constructor | browser-extension/entrypoints/sidepanel/hooks/useJwt.ts:10-28 | a new store has the host's key, a null value, no listeners, and the storage listener registered |
| JwtStore.JwtStore.Notify | browser-extension/entrypoints/sidepanel/hooks/useJwt.ts:17 | every current listener is called once, in insertion order |
| JwtStore.JwtStore.ResolveInitial | browser-extension/entrypoints/sidepanel/hooks/useJwt.ts:15-18 | the initial read sets the value from storage and notifies every listener |
| JwtStore.JwtStore.StorageChanged | browser-extension/entrypoints/sidepanel/hooks/useJwt.ts:20-26 | while registered, a `local` change holding the key sets the value (string or null) and notifies every listener; any other change does nothing |
| JwtStore.JwtStore.Subscribe | browser-extension/entrypoints/sidepanel/hooks/useJwt.ts:31-32 | the listener is added once; the storage listener is never re-registered |
| JwtStore.JwtStore.Unsubscribe | browser-extension/entrypoints/sidepanel/hooks/useJwt.ts:33-38 | the listener is removed; the storage listener is unregistered exactly when the set becomes empty |
| JwtStore.JwtStore.GetSnapshot | browser-extension/entrypoints/sidepanel/hooks/useJwt.ts:40-42 | the snapshot is the current value, and nothing changes |
| JwtStore.DetachedForGood | browser-extension/entrypoints/sidepanel/hooks/useJwt.ts:20-39 | after the only subscriber leaves, a later subscriber is not notified of a saved token and the snapshot stays null |
| JwtStore.SaveReachesSubscribers | browser-extension/entrypoints/sidepanel/hooks/useJwt.ts:20-32 | with subscribers 1 and 2 (1 subscribing twice), a saved token becomes the snapshot and the notifications are 1 then 2, once each |

## Behaviour worth noting

The model follows the code in these four points:

- A `tool_result` is attached to the latest tool turn with a matching name,
  even one that already holds a result. That result is replaced. The code does
  not look for the latest turn without a result.
- `isThinking` holds for any trailing assistant turn. This includes the
  "Error: ..." turn an `error` event appends after streaming has stopped
  (`ChatStream.ErrorTurnShownThinking`).
- The native host answers every request whose `action` is not "reverse" with
  "Invalid action or missing text", and a `chat` request gets that answer too.
  It has no streaming branch.
- `NativeHostClient` enforces no payload ceiling. It drops a response that
  arrives with no pending call without logging it.

## Left out

- Process spawning, pipes, stderr forwarding and the `error` event are not
  modelled. The process is a `running` flag. A `spawn` that throws at once
  (no host path, an empty one, or one holding a NUL) is the debug client's
  `StartFailed` plan. A host that cannot be run is reported by the
  asynchronous `error` event after `start` has resolved; it is not
  modelled.
- UTF-8 decoding, `JSON.parse` and `JSON.stringify` are not modelled. Decoding
  is a function parameter and written messages are logged as values, not bytes.
- The length-prefix writer `toBufferedMessage`/`writeMessage` is in
  native-messaging/src/index.ts, which is not part of this model. The native
  host imports `readMessage`, `toBufferedMessage` and `writeMessage` from
  `./native-messaging.mjs`, which is not part of this model either.
  `Framing.Encode` stands for the frame they produce.
- JSON numbers are kept as integers. Fractional and exponent numbers cannot
  be represented. Nothing in the modelled code does arithmetic on a decoded
  number.
- Strings are sequences of Dafny characters, not UTF-16 code units.
  `NativeHost.Reverse` therefore reverses characters; surrogate pairs are not
  modelled.
- NativeHost.HandleMessage: the texts of engine `TypeError`s (reading
  `action` of `null`, `split` of a non-string) are a parameter, not the
  engine's wording.
- Transport.NativeHostClient.SendMessage: an exception thrown by
  `writeMessage` itself is not modelled.
- NativeHost.ServeOnce: an exception thrown by `writeMessage` for the
  response is not modelled. The `catch` would then write a second, error,
  frame; the model writes at most one.
- A `data` property missing from a chat stream event is not modelled. The
  reducer would throw reading its `type`; the model only knows well-formed
  events and `OtherEvent`.
- The `messageId` of chat stream events is not read by the reducer and is not
  modelled.
- DebugClient.HandleLine: models one line. The `await` of `sendAndWait`
  before the next prompt, the recursion of `prompt`, `rl.close` and console
  output are not modelled.
- DebugClient.PlanRun: one-shot mode is reduced to the plan it chooses. The
  60-second wait, the response print and the `stop` that follow are not
  modelled.
- SettingsSchema.ValidateFormSettings: zod's issue list is reduced to
  failure. The keys zod would report are not modelled.
- ToolsSchema.ValidateTool: the same reduction applies to tool validation.
  `JSON.parse` succeeding is the parameter `isJson`.
- The React glue (`useEffect` registration, `useSyncExternalStore`, `useMemo`
  per host) is not modelled. The hook and the store are classes whose methods
  are the callbacks.
- The browser's delivery of storage change events is not modelled. It is
  reduced to `JwtStore.StorageChanged` being acted on only while the store's
  listener is registered.
- The timing of the initial `getJwt` promise is not modelled.
  `JwtStore.ResolveInitial` reads the storage as it is when the promise
  settles.
