/** `NativeHostClient` of native-messaging/src/node.ts: the extension-side end
    of the pipe to the native host. It keeps a byte buffer across `data`
    chunks, cuts frames out of it, decodes each payload and routes the
    message: a message the classifier calls a non-streaming response resolves
    the oldest pending `sendAndWait` call (FIFO), any other message goes to the
    streaming `responseHandler`. The child process is reduced to a running
    flag; the resolver calls, the handler calls and the frames written to the
    child's stdin are recorded as logs. */
module Transport {
  import opened Wrappers
  import opened Framing

  /** Identity of the resolver a `sendAndWait` call queued. */
  type CallId = nat

  /** A resolver call: pending call `call` was resolved with `response`. */
  datatype Resolution<O> = Resolution(call: CallId, response: O)

  /** The routing state: the pending calls (oldest first), the resolutions
      made and the messages handed to the streaming handler, in order. */
  datatype Routing<O> = Routing(queue: seq<CallId>, resolved: seq<Resolution<O>>, handled: seq<O>)

  /** The inbound side of the client: the kept bytes and the routing state. */
  datatype Inbound<O> = Inbound(buffer: seq<byte>, routing: Routing<O>)

  /** The classifier used when the caller supplies none: every message
      is a non-streaming response. */
  function AlwaysResponse<O>(response: O): bool
  {
    true
  }

  /** The body of the loop for one payload. A payload that does not parse
      (or whose classification throws) is dropped, the routing unchanged.
      A response resolves the head of the queue, or is dropped when no call
      is pending. Any other message goes to the streaming handler. */
  function Route<O>(parse: seq<byte> -> Option<O>, isNonStreaming: O -> bool,
                    s: Routing<O>, payload: seq<byte>): (r: Routing<O>)
    ensures |s.resolved| <= |r.resolved| && |s.handled| <= |r.handled|
    ensures (|r.resolved| - |s.resolved|) + (|r.handled| - |s.handled|) <= 1
    ensures |r.queue| + |r.resolved| == |s.queue| + |s.resolved|
  {
    match parse(payload)
    case None => s
    case Some(m) =>
      if isNonStreaming(m) then
        if |s.queue| > 0 then
          Routing(s.queue[1..], s.resolved + [Resolution(s.queue[0], m)], s.handled)
        else
          s
      else
        s.(handled := s.handled + [m])
  }

  /** Routing a sequence of payloads, in order: each payload lands in at
      most one place, and every resolution consumes one pending call. */
  function RouteAll<O>(parse: seq<byte> -> Option<O>, isNonStreaming: O -> bool,
                       s: Routing<O>, payloads: seq<seq<byte>>): (r: Routing<O>)
    ensures |s.resolved| <= |r.resolved| && |s.handled| <= |r.handled|
    ensures (|r.resolved| - |s.resolved|) + (|r.handled| - |s.handled|) <= |payloads|
    ensures |r.queue| + |r.resolved| == |s.queue| + |s.resolved|
    decreases |payloads|
  {
    if payloads == [] then s
    else
      var last := |payloads| - 1;
      Route(parse, isNonStreaming, RouteAll(parse, isNonStreaming, s, payloads[..last]), payloads[last])
  }

  /** `handleData(data)` as a function of the inbound state: append the chunk,
      cut out every complete frame, route the payloads in order and keep the
      rest. The kept bytes never hold a complete frame, and when the extended
      buffer holds none, the chunk is only appended. */
  function Feed<O>(parse: seq<byte> -> Option<O>, isNonStreaming: O -> bool,
                   s: Inbound<O>, data: seq<byte>): (r: Inbound<O>)
    ensures !HasFrame(r.buffer)
    ensures !HasFrame(s.buffer + data) ==> r == Inbound(s.buffer + data, s.routing)
  {
    var frames := Frames(s.buffer + data);
    Inbound(frames.1, RouteAll(parse, isNonStreaming, s.routing, frames.0))
  }

  /** Routing two batches one after the other is routing their concatenation. */
  lemma {:induction false} RouteAllAppend<O>(parse: seq<byte> -> Option<O>, isNonStreaming: O -> bool,
                                             s: Routing<O>, ps: seq<seq<byte>>, qs: seq<seq<byte>>)
    ensures RouteAll(parse, isNonStreaming, s, ps + qs)
         == RouteAll(parse, isNonStreaming, RouteAll(parse, isNonStreaming, s, ps), qs)
    decreases |qs|
  {
    if qs == [] {
      assert ps + qs == ps;
    } else {
      var last := |qs| - 1;
      var all := ps + qs;
      assert all[..|all| - 1] == ps + qs[..last];
      assert all[|all| - 1] == qs[last];
      RouteAllAppend(parse, isNonStreaming, s, ps, qs[..last]);
    }
  }

  /** Routing one more payload after a batch. */
  lemma RouteAllSnoc<O>(parse: seq<byte> -> Option<O>, isNonStreaming: O -> bool,
                        s: Routing<O>, ps: seq<seq<byte>>, p: seq<byte>)
    ensures RouteAll(parse, isNonStreaming, s, ps + [p])
         == Route(parse, isNonStreaming, RouteAll(parse, isNonStreaming, s, ps), p)
  {
    assert (ps + [p])[..|ps|] == ps;
  }

  /** Chunking invariance: `handleData(a)` then `handleData(b)` delivers the
      same messages to the same places and keeps the same bytes as
      `handleData(a + b)`. */
  lemma FeedChunking<O>(parse: seq<byte> -> Option<O>, isNonStreaming: O -> bool,
                        s: Inbound<O>, a: seq<byte>, b: seq<byte>)
    ensures Feed(parse, isNonStreaming, Feed(parse, isNonStreaming, s, a), b)
         == Feed(parse, isNonStreaming, s, a + b)
  {
    var first := Frames(s.buffer + a);
    var second := Frames(first.1 + b);
    FeedTwice(parse, isNonStreaming, s, a, b);
    FeedWhole(parse, isNonStreaming, s, a, b);
    RouteAllAppend(parse, isNonStreaming, s.routing, first.0, second.0);
  }

  /** Two chunks fed one after the other, in terms of their frames. */
  lemma FeedTwice<O>(parse: seq<byte> -> Option<O>, isNonStreaming: O -> bool,
                     s: Inbound<O>, a: seq<byte>, b: seq<byte>)
    ensures var first := Frames(s.buffer + a);
      var second := Frames(first.1 + b);
      Feed(parse, isNonStreaming, Feed(parse, isNonStreaming, s, a), b)
        == Inbound(second.1, RouteAll(parse, isNonStreaming, RouteAll(parse, isNonStreaming, s.routing, first.0), second.0))
  {
    var first := Frames(s.buffer + a);
    var second := Frames(first.1 + b);
    var mid := Inbound(first.1, RouteAll(parse, isNonStreaming, s.routing, first.0));
    FeedOfFrames(parse, isNonStreaming, s, a, first.0, first.1);
    FeedOfFrames(parse, isNonStreaming, mid, b, second.0, second.1);
  }

  /** The two chunks fed at once, in terms of the same frames. */
  lemma FeedWhole<O>(parse: seq<byte> -> Option<O>, isNonStreaming: O -> bool,
                     s: Inbound<O>, a: seq<byte>, b: seq<byte>)
    ensures var first := Frames(s.buffer + a);
      var second := Frames(first.1 + b);
      Feed(parse, isNonStreaming, s, a + b)
        == Inbound(second.1, RouteAll(parse, isNonStreaming, s.routing, first.0 + second.0))
  {
    var first := Frames(s.buffer + a);
    var second := Frames(first.1 + b);
    FramesOfWhole(s.buffer, a, b);
    FeedOfFrames(parse, isNonStreaming, s, a + b, first.0 + second.0, second.1);
  }

  /** `FramesAppend` for a buffer extended by two chunks. */
  lemma FramesOfWhole(buffer: seq<byte>, a: seq<byte>, b: seq<byte>)
    ensures var first := Frames(buffer + a);
      var second := Frames(first.1 + b);
      Frames(buffer + (a + b)) == (first.0 + second.0, second.1)
  {
    assert (buffer + a) + b == buffer + (a + b);
    FramesAppend(buffer + a, b);
  }

  /** `Feed` in terms of the frames the extended buffer splits into. */
  lemma FeedOfFrames<O>(parse: seq<byte> -> Option<O>, isNonStreaming: O -> bool,
                        s: Inbound<O>, data: seq<byte>, payloads: seq<seq<byte>>, kept: seq<byte>)
    requires Frames(s.buffer + data) == (payloads, kept)
    ensures Feed(parse, isNonStreaming, s, data) == Inbound(kept, RouteAll(parse, isNonStreaming, s.routing, payloads))
  {
  }

  /** Round trip through the client: with an empty buffer, feeding the frame
      `LE32(|p|) ++ p` routes exactly `p`, once, and leaves the buffer empty.
      Spelled out: a payload that does not parse is consumed and changes
      nothing else; a response resolves the oldest pending call, or is dropped
      when none is pending; any other message reaches the streaming handler
      and leaves the queue as it was. */
  lemma FeedOneFrame<O>(parse: seq<byte> -> Option<O>, isNonStreaming: O -> bool,
                        s: Inbound<O>, p: seq<byte>)
    requires s.buffer == [] && |p| < LengthBound
    ensures var r := Feed(parse, isNonStreaming, s, Encode(p));
      && r.buffer == []
      && r.routing == Route(parse, isNonStreaming, s.routing, p)
      && (parse(p).None? ==> r.routing == s.routing)
      && (parse(p).Some? && isNonStreaming(parse(p).value) && |s.routing.queue| > 0 ==>
            r.routing.queue == s.routing.queue[1..]
            && r.routing.resolved == s.routing.resolved + [Resolution(s.routing.queue[0], parse(p).value)]
            && r.routing.handled == s.routing.handled)
      && (parse(p).Some? && isNonStreaming(parse(p).value) && |s.routing.queue| == 0 ==>
            r.routing == s.routing)
      && (parse(p).Some? && !isNonStreaming(parse(p).value) ==>
            r.routing.queue == s.routing.queue
            && r.routing.resolved == s.routing.resolved
            && r.routing.handled == s.routing.handled + [parse(p).value])
  {
    assert s.buffer + Encode(p) == Encode(p);
    FramesOfOneFrame(p);
    assert [p][..0] == [];
    assert RouteAll(parse, isNonStreaming, s.routing, [p]) == Route(parse, isNonStreaming, s.routing, p);
  }

  /** A frame whose payload does not parse is still consumed, and the loop
      goes on with the next frame as if the bad one had never arrived. */
  lemma FeedSkipsUnparsable<O>(parse: seq<byte> -> Option<O>, isNonStreaming: O -> bool,
                               s: Inbound<O>, p: seq<byte>, rest: seq<byte>)
    requires s.buffer == [] && |p| < LengthBound && parse(p).None?
    ensures Feed(parse, isNonStreaming, s, Encode(p) + rest) == Feed(parse, isNonStreaming, s, rest)
  {
    assert s.buffer + (Encode(p) + rest) == Encode(p) + rest;
    assert s.buffer + rest == rest;
    FramesOfEncoded(p, rest);
    RouteAllAppend(parse, isNonStreaming, s.routing, [p], Frames(rest).0);
    assert [p][..0] == [];
  }

  /** The calls of a run of resolutions, in order. */
  function Calls<O>(rs: seq<Resolution<O>>): (cs: seq<CallId>)
    ensures |cs| == |rs| && forall k :: 0 <= k < |rs| ==> cs[k] == rs[k].call
  {
    if rs == [] then [] else [rs[0].call] + Calls(rs[1..])
  }

  /** How the routing state `r` may have grown from `s`: the logs only grow;
      the calls resolved since `s`, followed by the calls still pending, are
      exactly the calls that were pending in `s` (each resolution consumed the
      oldest call, none was skipped or reordered); every new resolution
      carries a classifier-positive message and every newly handled message
      is classifier-negative. */
  ghost predicate GrownFrom<O>(isNonStreaming: O -> bool, s: Routing<O>, r: Routing<O>)
  {
    && s.resolved <= r.resolved
    && s.handled <= r.handled
    && s.queue == Calls(r.resolved[|s.resolved|..]) + r.queue
    && (forall k :: |s.resolved| <= k < |r.resolved| ==> isNonStreaming(r.resolved[k].response))
    && (forall k :: |s.handled| <= k < |r.handled| ==> !isNonStreaming(r.handled[k]))
  }

  /** Resolving the oldest pending call with a classifier-positive message
      keeps the relation. */
  lemma ResolveGrows<O>(isNonStreaming: O -> bool, s: Routing<O>, mid: Routing<O>, m: O)
    requires GrownFrom(isNonStreaming, s, mid)
    requires |mid.queue| > 0 && isNonStreaming(m)
    ensures GrownFrom(isNonStreaming, s, Routing(mid.queue[1..], mid.resolved + [Resolution(mid.queue[0], m)], mid.handled))
  {
    var added := Resolution(mid.queue[0], m);
    var r := Routing(mid.queue[1..], mid.resolved + [added], mid.handled);
    var before := mid.resolved[|s.resolved|..];
    assert s.resolved <= r.resolved by {
      assert mid.resolved <= r.resolved;
    }
    assert r.resolved[|s.resolved|..] == before + [added];
    assert s.queue == Calls(r.resolved[|s.resolved|..]) + r.queue by {
      CallsAppend(before, [added]);
      assert mid.queue == [mid.queue[0]] + r.queue;
      AppendAssociates(Calls(before), [mid.queue[0]], r.queue);
    }
    forall k | |s.resolved| <= k < |r.resolved|
      ensures isNonStreaming(r.resolved[k].response)
    {
      if k < |mid.resolved| {
        assert r.resolved[k] == mid.resolved[k];
      }
    }
  }

  /** Handing a classifier-negative message to the handler keeps the
      relation. */
  lemma HandleGrows<O>(isNonStreaming: O -> bool, s: Routing<O>, mid: Routing<O>, m: O)
    requires GrownFrom(isNonStreaming, s, mid)
    requires !isNonStreaming(m)
    ensures GrownFrom(isNonStreaming, s, mid.(handled := mid.handled + [m]))
  {
    assert (mid.handled + [m])[..|mid.handled|] == mid.handled;
  }

  /** Routing one payload keeps the relation. */
  lemma RouteGrows<O>(parse: seq<byte> -> Option<O>, isNonStreaming: O -> bool,
                      s: Routing<O>, mid: Routing<O>, p: seq<byte>)
    requires GrownFrom(isNonStreaming, s, mid)
    ensures GrownFrom(isNonStreaming, s, Route(parse, isNonStreaming, mid, p))
  {
    match parse(p)
    case None =>
    case Some(m) =>
      if isNonStreaming(m) {
        if |mid.queue| > 0 {
          ResolveGrows(isNonStreaming, s, mid, m);
        }
      } else {
        HandleGrows(isNonStreaming, s, mid, m);
      }
  }

  /** Routing only ever delivers parsed messages: from `s` to `r` the logs
      only grow, and every message that resolves a call or reaches the
      handler satisfies `ok`. */
  ghost predicate DeliversOnly<O>(ok: O -> bool, s: Routing<O>, r: Routing<O>)
  {
    && s.resolved <= r.resolved
    && s.handled <= r.handled
    && (forall k :: |s.resolved| <= k < |r.resolved| ==> ok(r.resolved[k].response))
    && (forall k :: |s.handled| <= k < |r.handled| ==> ok(r.handled[k]))
  }

  /** When every message `parse` produces satisfies `ok`, every message
      routing delivers does: a payload that does not parse reaches no one. */
  lemma {:induction false} RouteAllDeliversOnlyParsed<O>(parse: seq<byte> -> Option<O>, isNonStreaming: O -> bool,
                                                         ok: O -> bool, s: Routing<O>, ps: seq<seq<byte>>)
    requires forall p :: parse(p).Some? ==> ok(parse(p).value)
    ensures DeliversOnly(ok, s, RouteAll(parse, isNonStreaming, s, ps))
    decreases |ps|
  {
    if ps != [] {
      var last := |ps| - 1;
      var mid := RouteAll(parse, isNonStreaming, s, ps[..last]);
      RouteAllDeliversOnlyParsed(parse, isNonStreaming, ok, s, ps[..last]);
      var r := Route(parse, isNonStreaming, mid, ps[last]);
      assert mid.resolved <= r.resolved && mid.handled <= r.handled;
      assert forall k :: |mid.resolved| <= k < |r.resolved| ==> ok(r.resolved[k].response);
      assert forall k :: |mid.handled| <= k < |r.handled| ==> ok(r.handled[k]);
    }
  }

  /** Routing any payloads keeps the relation `GrownFrom`. */
  lemma {:induction false} RouteAllInvariant<O>(parse: seq<byte> -> Option<O>, isNonStreaming: O -> bool,
                                                s: Routing<O>, ps: seq<seq<byte>>)
    ensures GrownFrom(isNonStreaming, s, RouteAll(parse, isNonStreaming, s, ps))
    decreases |ps|
  {
    if ps != [] {
      var last := |ps| - 1;
      RouteAllInvariant(parse, isNonStreaming, s, ps[..last]);
      RouteGrows(parse, isNonStreaming, s, RouteAll(parse, isNonStreaming, s, ps[..last]), ps[last]);
    } else {
      assert s.resolved[|s.resolved|..] == [];
    }
  }

  lemma CallsAppend<O>(xs: seq<Resolution<O>>, ys: seq<Resolution<O>>)
    ensures Calls(xs + ys) == Calls(xs) + Calls(ys)
  {
  }

  /** FIFO correlation: when every payload parses to a response and there are
      at least as many pending calls, the k-th response resolves the k-th
      pending call, and the calls after them stay pending. */
  lemma {:induction false} RouteAllResolvesInOrder<O>(parse: seq<byte> -> Option<O>, isNonStreaming: O -> bool,
                                                      s: Routing<O>, ps: seq<seq<byte>>, ms: seq<O>)
    requires |ms| == |ps| <= |s.queue|
    requires forall k :: 0 <= k < |ps| ==> parse(ps[k]) == Some(ms[k]) && isNonStreaming(ms[k])
    ensures var r := RouteAll(parse, isNonStreaming, s, ps);
      && r.queue == s.queue[|ps|..]
      && r.resolved == s.resolved + seq(|ps|, k requires 0 <= k < |ps| => Resolution(s.queue[k], ms[k]))
      && r.handled == s.handled
    decreases |ps|
  {
    if ps != [] {
      var last := |ps| - 1;
      RouteAllResolvesInOrder(parse, isNonStreaming, s, ps[..last], ms[..last]);
      assert s.queue[last..][0] == s.queue[last];
      assert s.queue[last..][1..] == s.queue[|ps|..];
    }
  }

  /** With the default classifier nothing ever reaches the streaming handler. */
  lemma {:induction false} DefaultClassifierNeverStreams<O>(parse: seq<byte> -> Option<O>, s: Routing<O>,
                                                            ps: seq<seq<byte>>)
    ensures RouteAll(parse, AlwaysResponse, s, ps).handled == s.handled
    decreases |ps|
  {
    if ps != [] {
      DefaultClassifierNeverStreams(parse, s, ps[..|ps| - 1]);
    }
  }

  /** Two complete frames in one chunk deliver both payloads, in order. */
  lemma FramesOfTwo(p1: seq<byte>, p2: seq<byte>)
    requires |p1| < LengthBound && |p2| < LengthBound
    ensures Frames(Encode(p1) + Encode(p2)) == ([p1, p2], [])
  {
    FramesOfOneFrame(p2);
    FramesOfEncoded(p1, Encode(p2));
    assert [p1] + [p2] == [p1, p2];
  }

  /** FIFO correlation through the client: with two calls pending and an
      empty buffer, a chunk holding the frames of two responses resolves the
      older call with the first and the newer call with the second. */
  lemma FeedTwoResponses<O>(parse: seq<byte> -> Option<O>, isNonStreaming: O -> bool, s: Inbound<O>,
                            p1: seq<byte>, p2: seq<byte>, r1: O, r2: O)
    requires s.buffer == [] && |s.routing.queue| >= 2
    requires |p1| < LengthBound && |p2| < LengthBound
    requires parse(p1) == Some(r1) && isNonStreaming(r1)
    requires parse(p2) == Some(r2) && isNonStreaming(r2)
    ensures var r := Feed(parse, isNonStreaming, s, Encode(p1) + Encode(p2));
      && r.buffer == []
      && r.routing.queue == s.routing.queue[2..]
      && r.routing.resolved == s.routing.resolved
           + [Resolution(s.routing.queue[0], r1), Resolution(s.routing.queue[1], r2)]
      && r.routing.handled == s.routing.handled
  {
    var data := Encode(p1) + Encode(p2);
    assert Frames(s.buffer + data) == ([p1, p2], []) by {
      assert s.buffer + data == data;
      FramesOfTwo(p1, p2);
    }
    var q := s.routing.queue;
    var routed := RouteAll(parse, isNonStreaming, s.routing, [p1, p2]);
    assert Feed(parse, isNonStreaming, s, data) == Inbound([], routed);
    assert routed.queue == q[2..] && routed.handled == s.routing.handled
        && routed.resolved == s.routing.resolved + [Resolution(q[0], r1), Resolution(q[1], r2)] by {
      RouteAllResolvesInOrder(parse, isNonStreaming, s.routing, [p1, p2], [r1, r2]);
      assert seq(2, k requires 0 <= k < 2 => Resolution(q[k], [r1, r2][k]))
          == [Resolution(q[0], r1), Resolution(q[1], r2)];
    }
  }

  /** The outcome of a write: `sendMessage` throws "Native host not started"
      when there is no process. */
  datatype SendResult = Sent | NotStarted

  class NativeHostClient<I, O> {
    /** JSON decoding of a payload (UTF-8 decode and `JSON.parse`). */
    const parse: seq<byte> -> Option<O>
    /** The caller-supplied classifier `isNonStreamingResponse`. */
    const isNonStreamingResponse: O -> bool

    /** `process != null`. */
    var running: bool
    var buffer: seq<byte>
    /** The resolvers of the pending `sendAndWait` calls, oldest first. */
    var messageQueue: seq<CallId>
    /** Log of resolver calls. */
    var resolved: seq<Resolution<O>>
    /** Log of `responseHandler` calls. */
    var handled: seq<O>
    /** Log of the messages written as frames to the child's stdin. */
    var written: seq<I>

    constructor(parse: seq<byte> -> Option<O>, isNonStreamingResponse: O -> bool)
      ensures this.parse == parse && this.isNonStreamingResponse == isNonStreamingResponse
      ensures !running && buffer == [] && messageQueue == [] && resolved == [] && handled == [] && written == []
    {
      this.parse := parse;
      this.isNonStreamingResponse := isNonStreamingResponse;
      running := false;
      buffer := [];
      messageQueue := [];
      resolved := [];
      handled := [];
      written := [];
    }

    function State(): Inbound<O>
      reads this
    {
      Inbound(buffer, Routing(messageQueue, resolved, handled))
    }

    /** `start` once the child process has been spawned. */
    method Start()
      modifies this`running
      ensures running
    {
      running := true;
    }

    /** The child's `close` event: the process handle is dropped. Pending calls
        stay queued. */
    method ProcessClosed()
      modifies this`running
      ensures !running
    {
      running := false;
    }

    /** `handleData`: a `data` chunk from the child's stdout. */
    method HandleData(data: seq<byte>)
      modifies this`buffer, this`messageQueue, this`resolved, this`handled
      ensures State() == Feed(parse, isNonStreamingResponse, old(State()), data)
    {
      ghost var start := old(State());
      ghost var all := start.buffer + data;
      ghost var done: seq<seq<byte>> := [];
      buffer := buffer + data;
      assert buffer == all;
      assert done + Frames(buffer).0 == Frames(buffer).0;
      while |buffer| >= HeaderSize
        invariant Frames(all) == (done + Frames(buffer).0, Frames(buffer).1)
        invariant Routing(messageQueue, resolved, handled)
               == RouteAll(parse, isNonStreamingResponse, start.routing, done)
        decreases |buffer|
      {
        var messageLength := ReadUInt32LE(buffer);
        if |buffer| < HeaderSize + messageLength {
          break;
        }
        var messageData := buffer[HeaderSize..HeaderSize + messageLength];
        var rest := buffer[HeaderSize + messageLength..];
        assert Frames(all) == (done + [messageData] + Frames(rest).0, Frames(rest).1) by {
          FramesUnfold(buffer);
          AppendAssociates(done, [messageData], Frames(rest).0);
        }
        buffer := rest;
        Deliver(messageData);
        RouteAllSnoc(parse, isNonStreamingResponse, start.routing, done, messageData);
        done := done + [messageData];
      }
      assert !HasFrame(buffer);
      assert done + Frames(buffer).0 == done;
    }

    /** The `try` block of the loop: decode one payload and route the
        message; a parse failure is caught and only logged. */
    method Deliver(messageData: seq<byte>)
      modifies this`messageQueue, this`resolved, this`handled
      ensures Routing(messageQueue, resolved, handled)
           == Route(parse, isNonStreamingResponse, old(Routing(messageQueue, resolved, handled)), messageData)
    {
      var response := parse(messageData);
      if response.Some? {
        if isNonStreamingResponse(response.value) {
          if |messageQueue| > 0 {
            var resolver := messageQueue[0];
            messageQueue := messageQueue[1..];
            resolved := resolved + [Resolution(resolver, response.value)];
          }
        } else {
          handled := handled + [response.value];
        }
      }
    }

    /** `sendMessage`: one frame to the child's stdin, or "Native host not
        started" when there is no process. */
    method SendMessage(message: I) returns (result: SendResult)
      modifies this`written
      ensures result == (if running then Sent else NotStarted)
      ensures written == old(written) + (if running then [message] else [])
    {
      if !running {
        return NotStarted;
      }
      written := written + [message];
      result := Sent;
    }

    /** `sendAndWait`: the resolver `call` is queued at the tail first, then the
        message is sent; when there is no process the returned promise rejects
        but the resolver stays queued. */
    method SendAndWait(message: I, call: CallId) returns (result: SendResult)
      modifies this`messageQueue, this`written
      ensures messageQueue == old(messageQueue) + [call]
      ensures result == (if running then Sent else NotStarted)
      ensures written == old(written) + (if running then [message] else [])
    {
      messageQueue := messageQueue + [call];
      result := SendMessage(message);
    }

    /** `stop`: ends stdin and kills the process if there is one; on a stopped
        client it changes nothing. */
    method Stop()
      modifies this`running
      ensures !running
    {
      if running {
        running := false;
      }
    }
  }

  /** Two `sendAndWait` calls, A then B, followed by the frames of two
      responses R1 then R2: A is resolved with R1 and B with R2. */
  method FifoScenario<I, O>(client: NativeHostClient<I, O>, a: I, b: I, callA: CallId, callB: CallId,
                            p1: seq<byte>, p2: seq<byte>, r1: O, r2: O)
    requires client.running && client.buffer == [] && client.messageQueue == []
    requires |p1| < LengthBound && |p2| < LengthBound
    requires client.parse(p1) == Some(r1) && client.isNonStreamingResponse(r1)
    requires client.parse(p2) == Some(r2) && client.isNonStreamingResponse(r2)
    modifies client
    ensures client.resolved == old(client.resolved) + [Resolution(callA, r1), Resolution(callB, r2)]
    ensures client.messageQueue == [] && client.buffer == []
  {
    var sentA := client.SendAndWait(a, callA);
    var sentB := client.SendAndWait(b, callB);
    var before := client.State();
    client.HandleData(Encode(p1) + Encode(p2));
    FeedTwoResponses(client.parse, client.isNonStreamingResponse, before, p1, p2, r1, r2);
  }
}
