/** src/anycorn/app_wrappers.py: a WSGI application behind an ASGI stream. */
module WsgiWrappers {
  import opened Common
  import opened HttpStreams
  import opened HttpGrammar

  /** What the application does, step by step: `start_response` (no status for a status line that does not
      begin with a number and a space, no headers for some that are not latin-1), a chunk from its
      iterable, or an exception of its own. An exception that `start_response` raises into it is
      followed by whatever it does next. */
  datatype Action =
    | Start(status: Option<int>, headers: Option<seq<Header>>, excInfo: bool)
    | Yield(output: Bytes)
    | Raise

  type Head = Option<(int, seq<Header>)>

  /** `start_response` before the headers have been sent: without exc_info only the first counts, and the
      status is kept where the headers then turn out not to be latin-1. */
  function HeadWith(head: Head, a: Action): Head
    requires a.Start?
  {
    if (!a.excInfo && head.Some?) || a.status.None? then head
    else Some((a.status.value,
               if a.headers.Some? then a.headers.value else if head.Some? then head.value.1 else []))
  }

  /** Whether `start_response` raises into the application. */
  predicate StartRaises(head: Head, headersSent: bool, a: Action)
    requires a.Start?
  {
    (if a.excInfo then headersSent else head.Some?) || a.status.None? || a.headers.None?
  }

  /** The status and headers in force after some actions. */
  function HeadAfter(actions: seq<Action>): Head {
    if actions == [] then None
    else
      var before := HeadAfter(actions[..|actions| - 1]);
      var last := actions[|actions| - 1];
      if last.Start? then HeadWith(before, last) else before
  }

  predicate Accepted(actions: seq<Action>, i: nat)
    requires i < |actions|
  {
    && actions[i].Start? && actions[i].status.Some?
    && (actions[i].excInfo || forall k :: 0 <= k < i ==> !(actions[k].Start? && actions[k].status.Some?))
  }

  predicate LastAccepted(actions: seq<Action>, i: nat) {
    i < |actions| && Accepted(actions, i) && forall k :: i < k < |actions| ==> !Accepted(actions, k)
  }

  predicate LastEncoded(actions: seq<Action>, i: nat) {
    && i < |actions| && Accepted(actions, i) && actions[i].headers.Some?
    && forall k :: i < k < |actions| && Accepted(actions, k) ==> actions[k].headers.None?
  }

  lemma AcceptedEarlier(actions: seq<Action>, n: nat)
    requires n <= |actions|
    ensures forall k :: 0 <= k < n ==> actions[..n][k] == actions[k]
    ensures forall k :: 0 <= k < n ==> (Accepted(actions[..n], k) <==> Accepted(actions, k))
  {
    assert forall k :: 0 <= k < n ==> actions[..n][k] == actions[k];
  }

  lemma {:induction false} HeadSet(actions: seq<Action>)
    ensures HeadAfter(actions).None? <==>
      forall i :: 0 <= i < |actions| ==> !(actions[i].Start? && actions[i].status.Some?)
    decreases |actions|
  {
    if actions != [] {
      HeadSet(actions[..|actions| - 1]);
      AcceptedEarlier(actions, |actions| - 1);
    }
  }

  /** PEP 3333: a call is accepted if its status is well formed and it is the first such or gives exc_info;
      the status in force is that of the last accepted call. */
  lemma {:induction false} HeadIsTheLastAccepted(actions: seq<Action>) returns (i: nat)
    requires HeadAfter(actions).Some?
    ensures LastAccepted(actions, i) && HeadAfter(actions).value.0 == actions[i].status.value
    decreases |actions|
  {
    var n := |actions| - 1;
    AcceptedEarlier(actions, n);
    HeadSet(actions[..n]);
    if Accepted(actions, n) {
      i := n;
    } else {
      i := HeadIsTheLastAccepted(actions[..n]);
    }
  }

  /** And the headers are those of the last accepted call that could encode them, none if there was none. */
  lemma {:induction false} HeadersAreTheLastEncoded(actions: seq<Action>, i: nat)
    requires HeadAfter(actions).Some?
    ensures LastEncoded(actions, i) ==> HeadAfter(actions).value.1 == actions[i].headers.value
    ensures (forall k :: 0 <= k < |actions| ==> !LastEncoded(actions, k)) ==> HeadAfter(actions).value.1 == []
    decreases |actions|
  {
    var n := |actions| - 1;
    var before := actions[..n];
    AcceptedEarlier(actions, n);
    HeadSet(before);
    if Accepted(actions, n) && actions[n].headers.Some? {
      assert LastEncoded(actions, n);
    } else {
      assert forall k :: 0 <= k < n ==> (LastEncoded(before, k) <==> LastEncoded(actions, k));
      if HeadAfter(before).Some? {
        HeadersAreTheLastEncoded(before, i);
      }
    }
  }

  /** Over everything the application has done before: a call with exc_info raises into it once the headers
      are sent, one without as soon as a call had a well-formed status; and so does any call whose
      status or headers are not. */
  lemma StartRaisesExactly(before: seq<Action>, headersSent: bool, a: Action)
    requires a.Start?
    ensures StartRaises(HeadAfter(before), headersSent, a) <==>
      || a.status.None? || a.headers.None?
      || (a.excInfo && headersSent)
      || (!a.excInfo && exists i :: 0 <= i < |before| && before[i].Start? && before[i].status.Some?)
  {
    HeadSet(before);
  }

  /** Everything up to the first chunk that holds data. */
  function UntilData(actions: seq<Action>): (n: nat)
    ensures n <= |actions|
    ensures n < |actions| ==> actions[n].Yield? && actions[n].output != []
    ensures forall i :: 0 <= i < n ==> !(actions[i].Yield? && actions[i].output != [])
  {
    if actions == [] || (actions[0].Yield? && actions[0].output != []) then 0 else 1 + UntilData(actions[1..])
  }

  function Outputs(actions: seq<Action>): seq<Bytes> {
    if actions == [] then []
    else
      var last := actions[|actions| - 1];
      Outputs(actions[..|actions| - 1]) + if last.Yield? && last.output != [] then [last.output] else []
  }

  /** All that the iterable yields, empty chunks included. */
  function Yielded(actions: seq<Action>): Bytes {
    if actions == [] then []
    else Yielded(actions[..|actions| - 1]) + if actions[|actions| - 1].Yield? then actions[|actions| - 1].output else []
  }

  lemma {:induction false} OutputsAreWhatIsYielded(actions: seq<Action>)
    ensures Concat(Outputs(actions)) == Yielded(actions)
  {
    if actions != [] {
      var before, last := actions[..|actions| - 1], actions[|actions| - 1];
      OutputsAreWhatIsYielded(before);
      if last.Yield? && last.output != [] {
        ConcatAppend(Outputs(before), last.output);
      } else {
        assert Outputs(before) + [] == Outputs(before) && Yielded(before) + [] == Yielded(before);
      }
    }
  }

  function Bodies(chunks: seq<Bytes>): seq<Message> {
    seq(|chunks|, i requires 0 <= i < |chunks| => ResponseBody(chunks[i], true))
  }

  predicate Raises(actions: seq<Action>) { Raise in actions }

  /** The head that goes out, if the run comes to that. */
  function SentHead(call: seq<Action>, iter: seq<Action>): Head { HeadAfter(call + iter[..UntilData(iter)]) }

  /** What has gone out when n of the iterable's actions are done, and the headers are sent. */
  function SoFar(call: seq<Action>, iter: seq<Action>, n: nat): seq<Message>
    requires n <= |iter| && SentHead(call, iter).Some?
  {
    var h := SentHead(call, iter).value;
    [ResponseStart(h.0, h.1, false)] + Bodies(Outputs(iter[..n]))
  }

  lemma {:induction false} NoOutputs(iter: seq<Action>, n: nat)
    requires n <= UntilData(iter) && n <= |iter|
    ensures Outputs(iter[..n]) == []
    decreases n
  {
    if n > 0 {
      NoOutputs(iter, n - 1);
      assert iter[..n][..n - 1] == iter[..n - 1];
    }
  }

  lemma IterSnoc(call: seq<Action>, iter: seq<Action>, n: nat)
    requires n < |iter|
    ensures
      var before, a := HeadAfter(call + iter[..n]), iter[n];
      HeadAfter(call + iter[..n + 1]) == if a.Start? then HeadWith(before, a) else before
    ensures Raises(iter[..n + 1]) <==> Raises(iter[..n]) || iter[n].Raise?
    ensures iter[n].Raise? ==> Raises(iter)
    ensures n < UntilData(iter) ==> !(iter[n].Yield? && iter[n].output != [])
    ensures n == UntilData(iter) ==>
      SentHead(call, iter) == HeadAfter(call + iter[..n]) && iter[n].Yield? && iter[n].output != []
  {
    assert (call + iter[..n + 1])[..|call| + n] == call + iter[..n];
    assert iter[..n + 1] == iter[..n] + [iter[n]];
  }

  lemma SoFarSnoc(call: seq<Action>, iter: seq<Action>, n: nat)
    requires n < |iter| && SentHead(call, iter).Some?
    ensures
      var more := if iter[n].Yield? && iter[n].output != [] then [iter[n].output] else [];
      SoFar(call, iter, n + 1) == SoFar(call, iter, n) + Bodies(more)
  {
    var h := SentHead(call, iter).value;
    var more := if iter[n].Yield? && iter[n].output != [] then [iter[n].output] else [];
    OutputsSnoc(iter, n);
    JoinBodies([ResponseStart(h.0, h.1, false)], Outputs(iter[..n]), more);
  }

  lemma OutputsSnoc(iter: seq<Action>, n: nat)
    requires n < |iter|
    ensures Outputs(iter[..n + 1])
         == Outputs(iter[..n]) + if iter[n].Yield? && iter[n].output != [] then [iter[n].output] else []
  {
    assert iter[..n + 1][..n] == iter[..n];
  }

  lemma JoinBodies(head: seq<Message>, chunks: seq<Bytes>, more: seq<Bytes>)
    ensures head + Bodies(chunks + more) == head + Bodies(chunks) + Bodies(more)
  {
    assert Bodies(chunks + more) == Bodies(chunks) + Bodies(more);
  }

  lemma NothingSoFar(call: seq<Action>, iter: seq<Action>, n: nat)
    requires n <= UntilData(iter) && SentHead(call, iter).Some?
    ensures
      var h := SentHead(call, iter).value;
      SoFar(call, iter, n) == [ResponseStart(h.0, h.1, false)]
  {
    NoOutputs(iter, n);
  }

  class WSGIWrapper {
    const maxBodySize: nat
    var head: Head
    var headersSent: bool
    var sent: seq<Message>
    var closed: nat

    constructor (most: nat)
      ensures maxBodySize == most && sent == [] && closed == 0
    {
      maxBodySize := most;
      head, headersSent, sent, closed := None, false, [], 0;
    }

    /** The closure `start_response`. */
    method StartResponse(a: Action) returns (raised: bool)
      requires a.Start? && (headersSent ==> head.Some?)
      modifies this`head
      ensures raised == StartRaises(old(head), headersSent, a)
      ensures head == if headersSent then old(head) else HeadWith(old(head), a)
    {
      if a.excInfo {
        if headersSent {
          return true;
        }
      } else if head.Some? {
        return true;
      }
      if a.status.None? {
        return true;
      }
      var headers := if head.Some? then head.value.1 else [];
      head := Some((a.status.value, headers));
      if a.headers.None? {
        return true;
      }
      head := Some((a.status.value, a.headers.value));
      return false;
    }

    /** The closure `send_start`. */
    method SendStart() returns (raised: bool)
      modifies this`sent, this`headersSent
      ensures raised <==> !old(headersSent) && head.None?
      ensures !raised ==> headersSent
      ensures sent == old(sent) + if old(headersSent) || raised then []
                                  else [ResponseStart(head.value.0, head.value.1, false)]
      ensures raised ==> headersSent == old(headersSent)
    {
      if headersSent {
        return false;
      }
      if head.None? {
        return true;
      }
      sent := sent + [ResponseStart(head.value.0, head.value.1, false)];
      headersSent := true;
      return false;
    }

    /** The call of the application itself, which makes no output. */
    method Call(call: seq<Action>) returns (raised: bool)
      requires forall i :: 0 <= i < |call| ==> !call[i].Yield?
      requires !headersSent && head == None
      modifies this`head
      ensures raised <==> Raises(call)
      ensures !raised ==> head == HeadAfter(call)
    {
      var n := 0;
      while n < |call|
        invariant 0 <= n <= |call| && !headersSent && !Raises(call[..n]) && head == HeadAfter(call[..n])
      {
        assert call[..n + 1][..n] == call[..n] && call[..n + 1] == call[..n] + [call[n]];
        if call[n].Raise? {
          return true;
        }
        var refused := StartResponse(call[n]);
        n := n + 1;
      }
      assert call[..n] == call;
      return false;
    }

    /** The loop over the iterable, and the flush of the headers behind it. */
    method Iterate(ghost call: seq<Action>, iter: seq<Action>) returns (raised: bool)
      requires !headersSent && head == HeadAfter(call) && sent == []
      modifies this`head, this`headersSent, this`sent
      ensures raised <==> Raises(iter) || SentHead(call, iter).None?
      ensures !raised ==> SentHead(call, iter).Some? && sent == SoFar(call, iter, |iter|)
    {
      var n := 0;
      assert call + iter[..0] == call;
      while n < |iter|
        invariant 0 <= n <= |iter| && !Raises(iter[..n])
        invariant headersSent <==> n > UntilData(iter)
        invariant headersSent ==> head == SentHead(call, iter) && head.Some? && sent == SoFar(call, iter, n)
        invariant !headersSent ==> head == HeadAfter(call + iter[..n]) && sent == []
      {
        IterSnoc(call, iter, n);
        if SentHead(call, iter).Some? {
          SoFarSnoc(call, iter, n);
          if n <= UntilData(iter) {
            NothingSoFar(call, iter, n);
          }
        }
        if iter[n].Raise? {
          return true;
        } else if iter[n].Start? {
          var refused := StartResponse(iter[n]);
        } else if iter[n].output != [] {
          raised := SendStart();
          if raised {
            return;
          }
          sent := sent + [ResponseBody(iter[n].output, true)];
        }
        n := n + 1;
      }
      assert iter[..n] == iter;
      if !headersSent {
        NoOutputs(iter, |iter|);
      }
      raised := SendStart();
    }

    /** `run_app`. An iterable is closed once, whether the iteration fails or not. */
    method RunApp(call: seq<Action>, iter: seq<Action>, closes: bool) returns (raised: bool)
      requires forall i :: 0 <= i < |call| ==> !call[i].Yield?
      requires !headersSent && head == None && sent == [] && closed == 0
      modifies this
      ensures raised <==> Raises(call) || Raises(iter) || SentHead(call, iter).None?
      ensures !raised ==> SentHead(call, iter).Some? && sent == SoFar(call, iter, |iter|)
      ensures closed == if closes && !Raises(call) then 1 else 0
    {
      raised := Call(call);
      if raised {
        return;
      }
      raised := Iterate(call, iter);
      if closes {
        closed := closed + 1;
      }
    }

    /** `handle_http`: the request body first, then the application, or a refusal. */
    method HandleHttp(parts: seq<Bytes>, badPath: bool, call: seq<Action>, iter: seq<Action>, closes: bool)
      returns (raised: bool)
      requires forall i :: 0 <= i < |call| ==> !call[i].Yield?
      requires !headersSent && head == None && sent == [] && closed == 0
      modifies this
      ensures
        var refused := |Concat(parts)| > maxBodySize || badPath;
        && (raised <==> !refused && (Raises(call) || Raises(iter) || SentHead(call, iter).None?))
        && (|Concat(parts)| > maxBodySize ==> sent == Replied(400, [], []))
        && (|Concat(parts)| <= maxBodySize && badPath ==> sent == Replied(404, [], []))
        && (!refused && !raised ==>
              sent == Replied(SentHead(call, iter).value.0, SentHead(call, iter).value.1, Outputs(iter)))
        && closed == if !refused && closes && !Raises(call) then 1 else 0
    {
      var size, n := 0, 0;
      while n < |parts|
        invariant 0 <= n <= |parts| && size == |Concat(parts[..n])| <= maxBodySize
        invariant !headersSent && head == None && sent == [] && closed == 0
      {
        assert parts[..n + 1] == parts[..n] + [parts[n]];
        ConcatAppend(parts[..n], parts[n]);
        size := size + |parts[n]|;
        if size > maxBodySize {
          ConcatPrefix(parts, n + 1);
          sent := sent + [ResponseStart(400, [], false)];
          sent := sent + [ResponseBody([], false)];
          return false;
        }
        n := n + 1;
      }
      assert parts[..n] == parts && iter[..|iter|] == iter;
      raised := false;
      if badPath {
        sent := sent + [ResponseStart(404, [], false)];
      } else {
        raised := RunApp(call, iter, closes);
        if raised {
          return;
        }
      }
      sent := sent + [ResponseBody([], false)];
    }
  }

  lemma {:induction false} ConcatPrefix(parts: seq<Bytes>, n: nat)
    requires n <= |parts|
    ensures |Concat(parts[..n])| <= |Concat(parts)|
    decreases |parts|
  {
    if n > 0 {
      ConcatPrefix(parts[1..], n - 1);
      assert parts[..n][1..] == parts[1..][..n - 1];
    }
  }

  /** A whole reply: one start, the chunks, and the final empty body. */
  function Replied(status: int, headers: seq<Header>, chunks: seq<Bytes>): seq<Message> {
    [ResponseStart(status, headers, false)] + Bodies(chunks) + [ResponseBody([], false)]
  }

  // ---- what the stream makes of it ------------------------------------------------------------------

  /** Messages sent one after the other; None as soon as one raises. */
  function Feed(s: Stream, t: Trace, messages: seq<Message>): Option<Trace>
    decreases |messages|
  {
    if messages == [] then Some(t)
    else if !HasResponse(s) || Plan(s, messages[0]).None? then None
    else
      var t' := PerformAll(t, Plan(s, messages[0]).value);
      Feed(Noted(s, messages[0]).(state := t'.state), t', messages[1..])
  }

  function Fresh(scope: Scope): Stream { Stream(REQUEST, false, scope, None) }

  lemma FeedCons(s: Stream, t: Trace, m: Message, rest: seq<Message>)
    requires HasResponse(s)
    ensures Feed(s, t, [m] + rest) ==
      if Plan(s, m).None? then None
      else
        var t' := PerformAll(t, Plan(s, m).value);
        Feed(Noted(s, m).(state := t'.state), t', rest)
  {
    assert ([m] + rest)[1..] == rest;
  }

  /** The chunks reach the protocol as they are, unless HTTP has no body here. */
  function Emitted(scope: Scope, status: int, chunks: seq<Bytes>): seq<Event> {
    if SuppressBody(scope.verb, status) then [] else BodyEvents(chunks)
  }

  /** What a chunk, and the final empty body, make the stream do. */
  lemma FeedChunk(s: Stream, t: Trace, chunk: Bytes)
    requires s.state == RESPONSE == t.state && s.response.Some? && chunk != []
    ensures Plan(s, ResponseBody(chunk, true)).Some?
    ensures PerformAll(t, Plan(s, ResponseBody(chunk, true)).value)
         == t.(sent := t.sent + Emitted(s.scope, s.response.value.status, [chunk]))
  {
    if SuppressBody(s.scope.verb, s.response.value.status) {
      assert t.sent + [] == t.sent;
    } else {
      assert [Emit(Body(chunk))] + [] == [Emit(Body(chunk))];
      PerformOne(t, Emit(Body(chunk)), []);
      assert BodyEvents([chunk]) == [Body(chunk)];
    }
  }

  lemma FeedFinal(s: Stream, t: Trace)
    requires s.state == RESPONSE == t.state && s.response.Some? && !s.response.value.trailers
    ensures Feed(s, t, [ResponseBody([], false)])
         == Some(Trace(CLOSED, t.sent + [EndBody] + [StreamClosed], t.log + [FullRecord(s.response.value.status)]))
  {
    assert [] + ClosedOps(s.response.value.status) == ClosedOps(s.response.value.status);
    assert [ResponseBody([], false)] + [] == [ResponseBody([], false)];
    FeedCons(s, t, ResponseBody([], false), []);
    PerformClosed(t, s.response.value.status);
  }

  lemma {:induction false} FeedBodies(s: Stream, t: Trace, chunks: seq<Bytes>)
    requires s.state == RESPONSE == t.state && s.response.Some? && !s.response.value.trailers
    requires forall i :: 0 <= i < |chunks| ==> chunks[i] != []
    ensures
      var status := s.response.value.status;
      Feed(s, t, Bodies(chunks) + [ResponseBody([], false)])
      == Some(Trace(CLOSED, t.sent + Emitted(s.scope, status, chunks) + [EndBody] + [StreamClosed],
                    t.log + [FullRecord(status)]))
    decreases |chunks|
  {
    var status := s.response.value.status;
    var final := ResponseBody([], false);
    if chunks == [] {
      FeedFinal(s, t);
      assert Bodies(chunks) + [final] == [final];
      assert t.sent + Emitted(s.scope, status, chunks) == t.sent;
    } else {
      var m := ResponseBody(chunks[0], true);
      var t' := t.(sent := t.sent + Emitted(s.scope, status, [chunks[0]]));
      assert Bodies(chunks) + [final] == [m] + (Bodies(chunks[1..]) + [final]);
      FeedCons(s, t, m, Bodies(chunks[1..]) + [final]);
      FeedChunk(s, t, chunks[0]);
      FeedBodies(s, t', chunks[1..]);
      assert Emitted(s.scope, status, chunks)
          == Emitted(s.scope, status, [chunks[0]]) + Emitted(s.scope, status, chunks[1..]);
      assert t'.sent + Emitted(s.scope, status, chunks[1..]) == t.sent + Emitted(s.scope, status, chunks);
    }
  }

  /** Every reply is accepted by the stream from its first message to its last exactly if its headers
      are valid, and then it takes the stream to CLOSED, with one response and one record. */
  lemma ReplyDrivesTheStreamToClosed(scope: Scope, status: int, headers: seq<Header>, chunks: seq<Bytes>)
    requires forall i :: 0 <= i < |chunks| ==> chunks[i] != []
    ensures Feed(Fresh(scope), Trace(REQUEST, [], []), Replied(status, headers, chunks)) ==
      if !ValidHeaders(headers) then None
      else Some(Trace(CLOSED,
                      [Response(status, headers)] + Emitted(scope, status, chunks) + [EndBody] + [StreamClosed],
                      [FullRecord(status)]))
  {
    var start := ResponseStart(status, headers, false);
    var t := Trace(REQUEST, [], []);
    var rest := Bodies(chunks) + [ResponseBody([], false)];
    assert Replied(status, headers, chunks) == [start] + rest;
    FeedCons(Fresh(scope), t, start, rest);
    if ValidHeaders(headers) {
      var ops := [Emit(Response(status, headers)), Enter(RESPONSE)];
      assert ops == [ops[0]] + [ops[1]];
      PerformOne(t, ops[0], [ops[1]]);
      PerformOne(Perform(t, ops[0]), ops[1], []);
      var none: seq<Event>, blank: seq<Record> := [], [];
      assert none + [Response(status, headers)] == [Response(status, headers)];
      assert blank + [FullRecord(status)] == [FullRecord(status)];
      var s := Stream(RESPONSE, false, scope, Some(Started(status, false)));
      FeedBodies(s, Trace(RESPONSE, [Response(status, headers)], []), chunks);
    }
  }

  lemma {:induction false} OutputsHoldData(actions: seq<Action>)
    ensures forall i :: 0 <= i < |Outputs(actions)| ==> Outputs(actions)[i] != []
  {
    if actions != [] {
      OutputsHoldData(actions[..|actions| - 1]);
    }
  }

  /** So what a client gets from a WSGI application is what it yielded, under the head in force when
      the first data came. */
  lemma WsgiThroughTheStream(scope: Scope, call: seq<Action>, iter: seq<Action>)
    requires SentHead(call, iter).Some? && ValidHeaders(SentHead(call, iter).value.1)
    ensures
      var h := SentHead(call, iter).value;
      var done := Feed(Fresh(scope), Trace(REQUEST, [], []), Replied(h.0, h.1, Outputs(iter)));
      && done.Some? && done.value.state == CLOSED && done.value.log == [FullRecord(h.0)]
      && done.value.sent == [Response(h.0, h.1)] + Emitted(scope, h.0, Outputs(iter)) + [EndBody] + [StreamClosed]
      && Concat(Outputs(iter)) == Yielded(iter)
  {
    OutputsHoldData(iter);
    OutputsAreWhatIsYielded(iter);
    var h := SentHead(call, iter).value;
    ReplyDrivesTheStreamToClosed(scope, h.0, h.1, Outputs(iter));
  }
}
