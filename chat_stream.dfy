/** The side panel's chat reducer: stream events coming from the background
    script are folded into an ordered list of conversation turns and an
    `isStreaming` flag. */
module ChatStream {
  import opened Wrappers
  import opened Json
  import Text

  /** One turn of the conversation as the chat view shows it. A tool turn's
      result is absent until a `tool_result` event attaches one. */
  datatype ChatMessage =
    | SystemStart
    | SystemFinish
    | User(content: string)
    | Assistant(content: string)
    | Tool(toolName: string, toolArgs: string, toolResult: Option<Json>)

  /** The `data` of a chat stream event. `OtherEvent` stands for a `type`
      outside the six the reducer switches on. */
  datatype ChatStreamEvent =
    | Thinking
    | ToolCall(toolName: string, toolArgs: string)
    | ToolResult(toolName: string, result: Json)
    | Token(token: string)
    | Final
    | Error(error: string)
    | OtherEvent

  /** A runtime message reaching the listener: a chat stream event, or a
      message of any other `type`. */
  datatype RuntimeMessage =
    | StreamEvent(data: ChatStreamEvent)
    | OtherMessage

  /** The hook's state. */
  datatype ChatState = ChatState(messages: seq<ChatMessage>, isStreaming: bool)

  const Initial: ChatState := ChatState([], false)

  predicate IsToolNamed(m: ChatMessage, name: string)
  {
    m.Tool? && m.toolName == name
  }

  /** The index of the most recent tool turn called `name`, if any. */
  function LastToolIndex(ms: seq<ChatMessage>, name: string): (r: Option<nat>)
    ensures r.Some? ==> r.value < |ms| && IsToolNamed(ms[r.value], name)
    ensures r.Some? ==> forall j :: r.value < j < |ms| ==> !IsToolNamed(ms[j], name)
    ensures r.None? <==> forall j :: 0 <= j < |ms| ==> !IsToolNamed(ms[j], name)
    decreases |ms|
  {
    if ms == [] then None
    else if IsToolNamed(ms[|ms| - 1], name) then Some(|ms| - 1)
    else LastToolIndex(ms[..|ms| - 1], name)
  }

  /** The list after a `tool_result` event for `name`. */
  function WithToolResult(ms: seq<ChatMessage>, name: string, result: Json): (r: seq<ChatMessage>)
    ensures |r| == |ms|
    ensures forall j :: 0 <= j < |ms| ==>
      r[j] == ms[j] || (IsToolNamed(ms[j], name) && r[j] == ms[j].(toolResult := Some(result)))
  {
    match LastToolIndex(ms, name)
    case None => ms
    case Some(i) => ms[i := ms[i].(toolResult := Some(result))]
  }

  /** `tool_result` attaches its result to the highest-index tool turn with
      the same name (replacing a result already there) and leaves the length
      and every other turn as they were; with no such turn nothing changes. */
  lemma ToolResultAttached(ms: seq<ChatMessage>, name: string, result: Json, i: nat)
    requires i < |ms| && IsToolNamed(ms[i], name)
    requires forall j :: i < j < |ms| ==> !IsToolNamed(ms[j], name)
    ensures var r := WithToolResult(ms, name, result);
      && |r| == |ms|
      && r[i] == Tool(name, ms[i].toolArgs, Some(result))
      && forall j :: 0 <= j < |ms| && j != i ==> r[j] == ms[j]
  {
    var k := LastToolIndex(ms, name);
    assert k.Some? && k.value == i;
  }

  lemma ToolResultWithoutMatch(ms: seq<ChatMessage>, name: string, result: Json)
    requires forall j :: 0 <= j < |ms| ==> !IsToolNamed(ms[j], name)
    ensures WithToolResult(ms, name, result) == ms
  {
    assert LastToolIndex(ms, name).None?;
  }

  /** The `tool_result` updater: copies the list, scans the copy backwards
      for the first tool turn with the given name and writes the result into
      it. */
  method AttachToolResult(prev: seq<ChatMessage>, name: string, result: Json) returns (r: seq<ChatMessage>)
    ensures r == WithToolResult(prev, name, result)
  {
    var newMessages := new ChatMessage[|prev|](k requires 0 <= k < |prev| => prev[k]);
    var i := |prev| - 1;
    while i >= 0
      invariant -1 <= i < |prev|
      invariant newMessages[..] == prev
      invariant forall j :: i < j < |prev| ==> !IsToolNamed(prev[j], name)
    {
      var msg := newMessages[i];
      if !msg.Tool? {
        i := i - 1;
        continue;
      }
      if msg.toolName == name {
        newMessages[i] := msg.(toolResult := Some(result));
        break;
      }
      i := i - 1;
    }
    r := newMessages[..];
  }

  /** The list after a `token` event: the token extends a trailing assistant
      turn, or starts a new one. */
  function WithToken(ms: seq<ChatMessage>, token: string): (r: seq<ChatMessage>)
    ensures |ms| <= |r| <= |ms| + 1
    ensures |r| > 0 && r[|r| - 1].Assistant?
  {
    if |ms| > 0 && ms[|ms| - 1].Assistant? then
      ms[..|ms| - 1] + [Assistant(ms[|ms| - 1].content + token)]
    else
      ms + [Assistant(token)]
  }

  /** Token merging: after a trailing assistant turn the length is kept and
      only the last turn's content grows by the token; otherwise exactly one
      assistant turn holding the token is appended. */
  lemma TokenMerges(ms: seq<ChatMessage>, token: string)
    ensures var r := WithToken(ms, token);
      && r[..|r| - 1] == (if |ms| > 0 && ms[|ms| - 1].Assistant? then ms[..|ms| - 1] else ms)
      && r[|r| - 1].Assistant?
      && r[|r| - 1].content == (if |ms| > 0 && ms[|ms| - 1].Assistant? then ms[|ms| - 1].content else "") + token
  {
    var r := WithToken(ms, token);
    if |ms| > 0 && ms[|ms| - 1].Assistant? {
      assert r[..|r| - 1] == ms[..|ms| - 1];
    } else {
      assert r[..|r| - 1] == ms;
    }
  }

  /** `handleMessage`: the effect of one runtime message on the state. */
  function Apply(s: ChatState, m: RuntimeMessage): (r: ChatState)
    ensures |s.messages| <= |r.messages| <= |s.messages| + 1
    ensures r.isStreaming != s.isStreaming ==>
      m.StreamEvent? && (m.data.Thinking? || m.data.Final? || m.data.Error?)
  {
    match m
    case OtherMessage => s
    case StreamEvent(data) =>
      match data
      case Thinking => ChatState(s.messages + [SystemStart], true)
      case ToolCall(name, args) => s.(messages := s.messages + [Tool(name, args, None)])
      case ToolResult(name, result) => s.(messages := WithToolResult(s.messages, name, result))
      case Token(token) => s.(messages := WithToken(s.messages, token))
      case Final => ChatState(s.messages + [SystemFinish], false)
      case Error(error) => ChatState(s.messages + [Assistant("Error: " + error)], false)
      case OtherEvent => s
  }

  /** A sequence of runtime messages, delivered in order. */
  function ApplyAll(s: ChatState, ms: seq<RuntimeMessage>): ChatState
    decreases |ms|
  {
    if ms == [] then s else Apply(ApplyAll(s, ms[..|ms| - 1]), ms[|ms| - 1])
  }

  /** `isThinking`: the turn at index `i` is the last one and an assistant
      turn. Turns are identified by their position, which is what the
      reference comparison against the last element amounts to. */
  predicate IsThinking(ms: seq<ChatMessage>, i: nat)
    ensures IsThinking(ms, i) ==> i < |ms| && ms[|ms| - 1].Assistant?
  {
    i + 1 == |ms| && ms[i].Assistant?
  }

  /** After a token the reply being streamed is the last turn and is shown as
      thinking, and no other turn is. */
  lemma ThinkingAfterToken(s: ChatState, token: string)
    ensures var ms := Apply(s, StreamEvent(Token(token))).messages;
      && |ms| > 0
      && IsThinking(ms, |ms| - 1)
      && forall i :: 0 <= i < |ms| - 1 ==> !IsThinking(ms, i)
  {
  }

  /** After `final` no turn is shown as thinking. */
  lemma NothingThinkingAfterFinal(s: ChatState)
    ensures var ms := Apply(s, StreamEvent(Final)).messages;
      forall i :: 0 <= i < |ms| ==> !IsThinking(ms, i)
  {
  }

  /** An `error` event ends with an assistant turn holding the error text,
      so that turn is shown as thinking although streaming is off. */
  lemma ErrorTurnShownThinking(s: ChatState, error: string)
    ensures var r := Apply(s, StreamEvent(Error(error)));
      && !r.isStreaming
      && |r.messages| > 0
      && r.messages[|r.messages| - 1] == Assistant("Error: " + error)
      && IsThinking(r.messages, |r.messages| - 1)
  {
  }

  /** The last turn of `ms` is an assistant turn. */
  predicate EndsInAssistant(ms: seq<ChatMessage>)
  {
    |ms| > 0 && ms[|ms| - 1].Assistant?
  }

  function Concat(tokens: seq<string>): string
    decreases |tokens|
  {
    if tokens == [] then "" else Concat(tokens[..|tokens| - 1]) + tokens[|tokens| - 1]
  }

  function Tokens(tokens: seq<string>): (r: seq<RuntimeMessage>)
    ensures |r| == |tokens|
    ensures forall k :: 0 <= k < |tokens| ==> r[k] == StreamEvent(Token(tokens[k]))
    decreases |tokens|
  {
    if tokens == [] then [] else Tokens(tokens[..|tokens| - 1]) + [StreamEvent(Token(tokens[|tokens| - 1]))]
  }

  /** A run of tokens after a turn that is not an assistant turn builds one
      new assistant turn holding their concatenation; nothing else changes. */
  lemma {:induction false} TokensConcatenate(s: ChatState, tokens: seq<string>)
    requires |tokens| > 0 && !EndsInAssistant(s.messages)
    ensures ApplyAll(s, Tokens(tokens)) == s.(messages := s.messages + [Assistant(Concat(tokens))])
    decreases |tokens|
  {
    var last := |tokens| - 1;
    var front := tokens[..last];
    var t := tokens[last];
    var events := Tokens(tokens);
    assert events[..last] == Tokens(front);
    assert events[last] == StreamEvent(Token(t));
    assert Concat(tokens) == Concat(front) + t;
    var mid := ApplyAll(s, Tokens(front));
    assert ApplyAll(s, events) == Apply(mid, StreamEvent(Token(t)));
    if front == [] {
      assert mid == s;
      assert Concat(tokens) == t by {
        assert Concat(front) == "";
        assert "" + t == t;
      }
      assert WithToken(s.messages, t) == s.messages + [Assistant(t)];
    } else {
      TokensConcatenate(s, front);
      var ms := s.messages + [Assistant(Concat(front))];
      assert mid.messages == ms;
      assert ms[..|ms| - 1] == s.messages;
      assert WithToken(ms, t) == s.messages + [Assistant(Concat(front) + t)];
    }
  }

  /** `thinking`, the tokens "Hel" and "lo", then `final`, from the initial
      state, leave the start marker, the reply "Hello" and the finish marker,
      and streaming off. */
  lemma HelloExample()
    ensures ApplyAll(Initial, [StreamEvent(Thinking)] + Tokens(["Hel", "lo"]) + [StreamEvent(Final)])
         == ChatState([SystemStart, Assistant("Hello"), SystemFinish], false)
  {
    var streamed := [StreamEvent(Thinking)] + Tokens(["Hel", "lo"]);
    var events := streamed + [StreamEvent(Final)];
    assert events[..|events| - 1] == streamed;
    HelloStreamed();
  }

  /** The part of `HelloExample` before `final`. */
  lemma HelloStreamed()
    ensures ApplyAll(Initial, [StreamEvent(Thinking)] + Tokens(["Hel", "lo"]))
         == ChatState([SystemStart, Assistant("Hello")], true)
  {
    var started := ChatState([SystemStart], true);
    ApplyAllAppend(Initial, [StreamEvent(Thinking)], Tokens(["Hel", "lo"]));
    assert ApplyAll(Initial, [StreamEvent(Thinking)]) == started by {
      assert [StreamEvent(Thinking)][..0] == [];
    }
    TokensConcatenate(started, ["Hel", "lo"]);
    assert Concat(["Hel", "lo"]) == "Hello" by {
      assert ["Hel", "lo"][..1] == ["Hel"];
      assert ["Hel"][..0] == [];
    }
  }


  /** Two `calc` tool calls followed by a `calc` result: the result goes to
      the second call, and the first keeps no result. */
  lemma CalcExample(s: ChatState, args1: string, args2: string)
    ensures ApplyAll(s, [StreamEvent(ToolCall("calc", args1)), StreamEvent(ToolCall("calc", args2)),
                         StreamEvent(ToolResult("calc", JNumber(42)))]).messages
         == s.messages + [Tool("calc", args1, None), Tool("calc", args2, Some(JNumber(42)))]
  {
    var events := [StreamEvent(ToolCall("calc", args1)), StreamEvent(ToolCall("calc", args2)),
                   StreamEvent(ToolResult("calc", JNumber(42)))];
    var s1 := Apply(s, events[0]);
    var s2 := Apply(s1, events[1]);
    assert ApplyAll(s, events[..1]) == s1 by {
      assert events[..1][..0] == [];
    }
    assert ApplyAll(s, events[..2]) == s2 by {
      assert events[..2][..1] == events[..1];
    }
    assert ApplyAll(s, events) == Apply(s2, events[2]);
    var ms := s2.messages;
    assert ms == s.messages + [Tool("calc", args1, None), Tool("calc", args2, None)];
    assert LastToolIndex(ms, "calc") == Some(|ms| - 1);
    assert ms[|ms| - 1 := Tool("calc", args2, Some(JNumber(42)))]
        == s.messages + [Tool("calc", args1, None), Tool("calc", args2, Some(JNumber(42)))];
  }

  lemma {:induction false} ApplyAllAppend(s: ChatState, xs: seq<RuntimeMessage>, ys: seq<RuntimeMessage>)
    ensures ApplyAll(s, xs + ys) == ApplyAll(ApplyAll(s, xs), ys)
    decreases |ys|
  {
    if ys == [] {
      assert xs + ys == xs;
    } else {
      var last := |ys| - 1;
      assert (xs + ys)[..|xs + ys| - 1] == xs + ys[..last];
      ApplyAllAppend(s, xs, ys[..last]);
    }
  }

  /** The turn `b` is turn `a`, possibly with a tool result attached or
      replaced. */
  predicate SameTurn(a: ChatMessage, b: ChatMessage)
  {
    a == b || (a.Tool? && b.Tool? && a.toolName == b.toolName && a.toolArgs == b.toolArgs)
  }

  /** How the list may change: it only grows; every earlier turn stays the
      same turn, except that the last earlier turn, when it is an assistant
      turn, may have had text appended to it. */
  predicate Extends(before: seq<ChatMessage>, after: seq<ChatMessage>)
  {
    && |before| <= |after|
    && forall j :: 0 <= j < |before| ==>
         || SameTurn(before[j], after[j])
         || (j == |before| - 1 && before[j].Assistant? && after[j].Assistant?
             && Text.StartsWith(after[j].content, before[j].content))
  }

  lemma ExtendsOnce(s: ChatState, m: RuntimeMessage)
    ensures Extends(s.messages, Apply(s, m).messages)
  {
    var ms := s.messages;
    match m
    case OtherMessage =>
    case StreamEvent(data) =>
      match data {
        case ToolResult(name, result) =>
          var k := LastToolIndex(ms, name);
          if k.Some? {
            assert WithToolResult(ms, name, result)[k.value] == ms[k.value].(toolResult := Some(result));
          }
        case Token(token) =>
          if EndsInAssistant(ms) {
            var r := WithToken(ms, token);
            assert r[|ms| - 1].content[..|ms[|ms| - 1].content|] == ms[|ms| - 1].content;
          }
        case _ =>
      }
  }

  lemma ExtendsTransitive(a: seq<ChatMessage>, b: seq<ChatMessage>, c: seq<ChatMessage>)
    requires Extends(a, b) && Extends(b, c)
    ensures Extends(a, c)
  {
    forall j | 0 <= j < |a| && !SameTurn(a[j], c[j])
      ensures j == |a| - 1 && a[j].Assistant? && c[j].Assistant?
      ensures Text.StartsWith(c[j].content, a[j].content)
    {
      if !SameTurn(b[j], c[j]) {
        assert j == |b| - 1;
        assert c[j].content[..|b[j].content|] == b[j].content;
      }
    }
  }

  /** Whatever runtime messages arrive, the conversation is only extended:
      no turn is removed or reordered, a tool turn keeps its name and
      arguments, and only the trailing assistant turn's text can grow. */
  lemma {:induction false} HistoryOnlyExtends(s: ChatState, ms: seq<RuntimeMessage>)
    ensures Extends(s.messages, ApplyAll(s, ms).messages)
    decreases |ms|
  {
    if ms == [] {
      assert forall j :: 0 <= j < |s.messages| ==> SameTurn(s.messages[j], s.messages[j]);
    } else {
      var mid := ApplyAll(s, ms[..|ms| - 1]);
      HistoryOnlyExtends(s, ms[..|ms| - 1]);
      ExtendsOnce(mid, ms[|ms| - 1]);
      ExtendsTransitive(s.messages, mid.messages, ApplyAll(s, ms).messages);
    }
  }

  /** The streaming flag as a reference definition: the last `thinking`,
      `final` or `error` event decides it, and with none the flag is as it
      was. */
  function StreamingAfter(ms: seq<RuntimeMessage>, initially: bool): bool
    decreases |ms|
  {
    if ms == [] then initially
    else match ms[|ms| - 1]
      case StreamEvent(Thinking) => true
      case StreamEvent(Final) => false
      case StreamEvent(Error(_)) => false
      case _ => StreamingAfter(ms[..|ms| - 1], initially)
  }

  lemma {:induction false} StreamingFollowsLifecycle(s: ChatState, ms: seq<RuntimeMessage>)
    ensures ApplyAll(s, ms).isStreaming == StreamingAfter(ms, s.isStreaming)
    decreases |ms|
  {
    if ms != [] {
      StreamingFollowsLifecycle(s, ms[..|ms| - 1]);
    }
  }

  /** A message that is not a chat stream event, or an event of another
      type, changes neither the turns nor the flag. */
  lemma IgnoredMessages(s: ChatState, ms: seq<RuntimeMessage>)
    requires forall k :: 0 <= k < |ms| ==> ms[k] == OtherMessage || ms[k] == StreamEvent(OtherEvent)
    ensures ApplyAll(s, ms) == s
    decreases |ms|
  {
    if ms != [] {
      IgnoredMessages(s, ms[..|ms| - 1]);
    }
  }

  /** The hook: the turn list and the streaming flag as mutable state. */
  class ChatStreamHook {
    var messages: seq<ChatMessage>
    var isStreaming: bool

    constructor()
      ensures messages == [] && !isStreaming
    {
      messages := [];
      isStreaming := false;
    }

    function State(): ChatState
      reads this
    {
      ChatState(messages, isStreaming)
    }

    /** The runtime message listener. */
    method HandleMessage(message: RuntimeMessage)
      modifies this
      ensures State() == Apply(old(State()), message)
    {
      if !message.StreamEvent? {
        return;
      }
      var data := message.data;
      match data {
        case Thinking =>
          isStreaming := true;
          messages := messages + [SystemStart];
        case ToolCall(name, args) =>
          messages := messages + [Tool(name, args, None)];
        case ToolResult(name, result) =>
          messages := AttachToolResult(messages, name, result);
        case Token(token) =>
          messages := WithToken(messages, token);
        case Final =>
          messages := messages + [SystemFinish];
          isStreaming := false;
        case Error(error) =>
          messages := messages + [Assistant("Error: " + error)];
          isStreaming := false;
        case OtherEvent =>
      }
    }

    /** `appendUserMessage`: exactly one user turn is appended. */
    method AppendUserMessage(content: string)
      modifies this
      ensures messages == old(messages) + [User(content)]
      ensures isStreaming == old(isStreaming)
    {
      messages := messages + [User(content)];
    }
  }
}
