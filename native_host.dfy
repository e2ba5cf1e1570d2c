/** The native host: reads one request from the extension, answers it with
    one response frame (or with none when there was no request), and
    exits. */
module NativeHost {
  import opened Wrappers
  import opened Json

  /** `reverseString`: the string's characters in reverse order. */
  function Reverse(s: string): (r: string)
    ensures |r| == |s|
    ensures forall i :: 0 <= i < |s| ==> r[i] == s[|s| - 1 - i]
    decreases |s|
  {
    if s == [] then [] else Reverse(s[1..]) + [s[0]]
  }

  /** Reversing twice gives the input back. */
  lemma ReverseInvolution(s: string)
    ensures Reverse(Reverse(s)) == s
  {
    var r := Reverse(Reverse(s));
    assert forall i :: 0 <= i < |s| ==> r[i] == s[i];
  }

  /** What `handleMessage` does with a decoded request: it returns a response
      object, or a `TypeError` escapes it. */
  datatype HandleOutcome =
    | Returned(response: Json)
    | ThrewTypeError(message: string)

  const InvalidActionText: string := "Invalid action or missing text"

  function ErrorResponse(message: string): Json
  {
    JObject(map["error" := JString(message)])
  }

  function ReversedResponse(text: string): Json
  {
    JObject(map["reversed" := JString(text)])
  }

  /** Where a `TypeError` can escape `handleMessage`: reading `action` off
      `null`, or calling `split` on a `text` that is not a string (`None`
      standing for an absent `text`). */
  datatype TypeErrorSite = ActionOfNull | SplitOf(text: Option<Json>)

  /** `handleMessage`. A request whose `action` is `"reverse"` is answered
      with the reversed `text`; every other request gets the fixed error
      response. The text of a `TypeError` is the engine's choice, given by
      `typeErrorText` for the place it was raised. */
  function HandleMessage(message: Json, typeErrorText: TypeErrorSite -> string): (r: HandleOutcome)
    ensures r.ThrewTypeError? <==>
      || message == JNull
      || (Get(message, "action") == Some(JString("reverse"))
          && !(Get(message, "text").Some? && Get(message, "text").value.JString?))
    ensures r.Returned? ==>
      || r.response == ErrorResponse(InvalidActionText)
      || (Get(message, "text").Some? && Get(message, "text").value.JString?
          && r.response == ReversedResponse(Reverse(Get(message, "text").value.s)))
  {
    if message == JNull then ThrewTypeError(typeErrorText(ActionOfNull))
    else match Get(message, "action")
      case Some(JString("reverse")) =>
        (match Get(message, "text")
         case Some(JString(text)) => Returned(ReversedResponse(Reverse(text)))
         case other => ThrewTypeError(typeErrorText(SplitOf(other))))
      case _ => Returned(ErrorResponse(InvalidActionText))
  }

  /** A reverse request with a string `text` is answered with the text's
      reversal, and reversing that answer gives the original text back. */
  lemma ReverseRequestAnswered(text: string, extra: map<string, Json>, typeErrorText: TypeErrorSite -> string)
    ensures var request := JObject(extra["action" := JString("reverse")]["text" := JString(text)]);
      var outcome := HandleMessage(request, typeErrorText);
      && outcome.Returned?
      && Get(outcome.response, "reversed").Some?
      && Get(outcome.response, "reversed").value.JString?
      && Reverse(Get(outcome.response, "reversed").value.s) == text
  {
    var request := JObject(extra["action" := JString("reverse")]["text" := JString(text)]);
    assert Get(request, "action") == Some(JString("reverse"));
    assert Get(request, "text") == Some(JString(text));
    assert Get(ReversedResponse(Reverse(text)), "reversed") == Some(JString(Reverse(text)));
    ReverseInvolution(text);
  }

  /** Every request whose `action` is not `"reverse"` (a chat request
      included) gets the fixed error response, and only those do. */
  lemma OtherActionsRejected(message: Json, typeErrorText: TypeErrorSite -> string)
    requires message != JNull
    ensures HandleMessage(message, typeErrorText) == Returned(ErrorResponse(InvalidActionText))
        <==> Get(message, "action") != Some(JString("reverse"))
  {
    if Get(message, "action") == Some(JString("reverse")) {
      match Get(message, "text")
      case Some(JString(text)) =>
        assert "error" !in ReversedResponse(Reverse(text)).fields;
      case _ =>
    }
  }

  /** A value thrown inside `main`'s `try`: an `Error` instance carries a
      message; anything else is reported as an unknown error. */
  datatype Thrown = ErrorInstance(message: string) | NonError

  function ThrownText(e: Thrown): string
  {
    match e
    case ErrorInstance(message) => message
    case NonError => "Unknown error"
  }

  /** The result of `readMessage`: the decoded request (`null` when stdin
      held none), or the value it threw. */
  datatype ReadOutcome = Read(value: Json) | ReadFailed(error: Thrown)

  /** A response object: a single key, `reversed` or `error`, holding a
      string. */
  predicate IsResponse(j: Json)
  {
    && j.JObject?
    && |j.fields| == 1
    && (("reversed" in j.fields && j.fields["reversed"].JString?)
        || ("error" in j.fields && j.fields["error"].JString?))
  }

  /** `main`: one read, at most one handled request, and the frames written
      to stdout in order. */
  method ServeOnce(read: ReadOutcome, typeErrorText: TypeErrorSite -> string) returns (written: seq<Json>)
    ensures read == Read(JNull) ==> written == []
    ensures read != Read(JNull) ==> |written| == 1
    ensures read.ReadFailed? ==> written == [ErrorResponse(ThrownText(read.error))]
    ensures read.Read? && read.value != JNull ==>
      match HandleMessage(read.value, typeErrorText)
      case Returned(response) => written == [response]
      case ThrewTypeError(message) => written == [ErrorResponse(message)]
    ensures forall k :: 0 <= k < |written| ==> IsResponse(written[k])
  {
    written := [];
    var thrown: Option<Thrown> := None;
    if read.ReadFailed? {
      thrown := Some(read.error);
    } else {
      var message := read.value;
      if message == JNull {
        return;
      }
      var outcome := HandleMessage(message, typeErrorText);
      if outcome.Returned? {
        written := written + [outcome.response];
      } else {
        thrown := Some(ErrorInstance(outcome.message));
      }
    }
    if thrown.Some? {
      written := written + [ErrorResponse(ThrownText(thrown.value))];
    }
  }
}
