/** What the runs of an HTTP/3 connection promise about resets and about Responses. */
module H3Theorems {
  import opened Common
  import opened HttpStreams
  import opened HttpGrammar
  import opened H3Protocols
  import opened H3Runs

  // ---- which messages speak ---------------------------------------------------------------------------

  /** The messages that make a stream speak: none in CLOSED, and while a response is open those that
      carry something or end it. */
  predicate Provokes(s: Stream, m: Message)
    requires HasResponse(s)
  {
    match s.state
    case REQUEST =>
      || (m.ResponseStart? && ValidHeaders(m.headers))
      || (m.EarlyHint? && Framed(s.scope.version))
      || (m.ResponseTrailers? && Framed(s.scope.version) && TakesTrailers(s.scope) && ValidHeaders(m.headers))
    case RESPONSE =>
      var r := s.response.value;
      var silent := SuppressBody(s.scope.verb, r.status);
      || (m.ResponseBody? && ((!silent && m.body != []) || (!m.more && !r.trailers)))
      || (m.PathSend? && ((!silent && (Framed(s.scope.version) ==> m.chunks != [])) || !r.trailers))
      || (m.ZeroCopy? && ((!silent && (Framed(s.scope.version) ==> m.chunks != [])) || (!m.more && !r.trailers)))
    case TRAILERS =>
      m.ResponseTrailers? && Framed(s.scope.version)
      && if TakesTrailers(s.scope) then ValidHeaders(m.headers) else !m.more
    case CLOSED => false
  }

  lemma SpeaksFirst(ops: seq<Op>)
    requires ops != [] && Hit(ops[0], Anything)
    ensures Speaks(ops, Anything)
  {
  }

  lemma SpeaksConcat(a: seq<Op>, b: seq<Op>)
    ensures Speaks(a + b, Anything) <==> Speaks(a, Anything) || Speaks(b, Anything)
  {
    if i :| 0 <= i < |b| && Hit(b[i], Anything) {
      assert (a + b)[|a| + i] == b[i];
    }
    if i :| 0 <= i < |a| && Hit(a[i], Anything) {
      assert (a + b)[i] == a[i];
    }
  }

  lemma ClosingSpeaks(status: int)
    ensures Speaks(ClosedOps(status), Anything)
  {
    assert Hit(ClosedOps(status)[1], Anything);
  }

  lemma FinishSpeaks(r: Started, more: bool)
    ensures Speaks(FinishOps(r, more), Anything) <==> !more && !r.trailers
  {
    ClosingSpeaks(r.status);
  }

  lemma WindowSpeaks(s: Stream, offset: int, count: int, chunks: seq<Bytes>, more: bool)
    requires s.response.Some?
    ensures
      var r := s.response.value;
      Speaks(WindowOps(s.scope, r, offset, count, chunks, more), Anything) <==>
        || (!SuppressBody(s.scope.verb, r.status) && (Framed(s.scope.version) ==> chunks != []))
        || (!more && !r.trailers)
  {
    var r := s.response.value;
    var first := if SuppressBody(s.scope.verb, r.status) then []
                 else if Framed(s.scope.version) then BodyOps(chunks) else [Emit(ZeroCopySend(offset, count))];
    FinishSpeaks(r, more);
    SpeaksConcat(first, FinishOps(r, more));
    if first != [] {
      SpeaksFirst(first);
    }
  }

  lemma TrailersSpeak(s: Stream, m: Message)
    requires HasResponse(s) && m.ResponseTrailers? && Plan(s, m).Some?
    ensures Speaks(Plan(s, m).value, Anything) <==> Provokes(s, m)
  {
    if s.state == REQUEST && TakesTrailers(s.scope) {
      SpeaksFirst(Plan(s, m).value);
    } else if s.state == TRAILERS {
      ClosingSpeaks(s.response.value.status);
      SpeaksConcat(if TakesTrailers(s.scope) then [Emit(Trailers(m.headers))] else [],
                   if m.more then [] else ClosedOps(s.response.value.status));
      if TakesTrailers(s.scope) {
        SpeaksFirst([Emit(Trailers(m.headers))]);
      }
    }
  }

  /** Which messages make a stream speak, late or not. */
  lemma LateMessagesMatter(a: Side, m: Message)
    requires MaySend(a, m) && !m.ServerPush?
    ensures Speaks(Sent(a, m).ops, Anything) <==> Provokes(a.stream, m)
  {
    var s := a.stream;
    if Plan(s, m).Some? {
      if m.ResponseBody? {
        var r := s.response.value;
        var first := if SuppressBody(s.scope.verb, r.status) || m.body == [] then [] else [Emit(Body(m.body))];
        FinishSpeaks(r, m.more);
        SpeaksConcat(first, FinishOps(r, m.more));
        if first != [] {
          SpeaksFirst(first);
        }
      } else if m.PathSend? {
        WindowSpeaks(s, 0, m.count, m.chunks, false);
      } else if m.ZeroCopy? {
        WindowSpeaks(s, m.offset, m.count, m.chunks, m.more);
      } else if m.ResponseTrailers? {
        TrailersSpeak(s, m);
      } else {
        SpeaksFirst(Plan(s, m).value);
      }
    }
  }

  /** A CLOSED stream does nothing about a message, other than a valid server push. */
  lemma ClosedStreamsAreDeaf(a: Side, m: Message)
    requires MaySend(a, m) && a.stream.state == CLOSED
    ensures Sent(a, m) == a <==> !(m.ServerPush? && Framed(a.stream.scope.version) && ValidHeaders(m.headers))
  {
  }

  // ---- the table --------------------------------------------------------------------------------------

  /** What a step says of an id: HEADERS came, one of its streams closed, or it is reset: by the peer, or
      because aioquic asserted on something that was not skipped. */
  datatype Mention = Requested | Closed | WasReset | Nothing

  function MentionOf(st: State, step: Step, s: StreamId): Mention {
    match step
    case Headers(t, _, _) => if t == s then Requested else Nothing
    case PeerReset(t) => if t == s then WasReset else Nothing
    case Advance(k, asserts) =>
      if !On(st, s, k) || st.sides[k].ops == [] || !st.sides[k].ops[0].Emit? then Nothing
      else if st.sides[k].ops[0].event.StreamClosed? then Closed
      else if asserts && !st.sides[k].ops[0].event.Push? && s !in st.table.resets then WasReset
      else Nothing
    case _ => Nothing
  }

  /** In every state and for every step and id: the id leads to a stream exactly if HEADERS were the last to
      be said of it, and it is in `_reset_streams` exactly if that was a reset, with or without HEADERS
      since. */
  lemma TableFollows(steps: seq<Step>, st: State, step: Step, s: StreamId)
    requires ReachedBy(steps, st) && Enabled(st, step)
    ensures
      var next, said := Apply(st, step), MentionOf(st, step, s);
      && (s in next.table.known <==> said.Requested? || (said.Nothing? && s in st.table.known))
      && (s in next.table.resets <==> said.WasReset? || (!said.Closed? && s in st.table.resets))
  {
    RunInv(ANY, Initial(), steps);
  }

  /** The stream an id leads to is told of its reset, and no other stream is told anything. */
  lemma OnlyTheNamedIsTold(steps: seq<Step>, st: State, step: Step, s: StreamId, k: nat)
    requires ReachedBy(steps, st) && Enabled(st, step) && On(st, s, k)
    ensures k < |Apply(st, step).sides|
    ensures Apply(st, step).sides[k].stream.closed <==>
      || st.sides[k].stream.closed
      || (MentionOf(st, step, s).WasReset? && s in st.table.known && s in st.latest && st.latest[s] == k)
  {
    RunInv(ANY, Initial(), steps);
    if step.Advance? && Attempts(st, step.k, Anything) && step.asserts {
      var rest := st.(sides := st.sides[step.k := Advanced(st.sides[step.k])]);
      assert Apply(st, step) == ResetStream(rest, st.ids[step.k]);
    }
  }

  // ---- resets -----------------------------------------------------------------------------------------

  /** A refused request that was answered can do nothing more. */
  predicate Spent(st: State, k: nat) { HasSide(st, k) && k in st.refused && st.sides[k].ops == [] }

  /** All sides of the id but one are spent. */
  ghost predicate OneStream(st: State, s: StreamId) {
    forall i, j :: i != j && On(st, s, i) && On(st, s, j) ==> Spent(st, i) || Spent(st, j)
  }

  lemma OneStreamIsCovered(st: State, s: StreamId)
    requires s in st.table.resets && OneStream(st, s)
    ensures !Exposed(st, s, false, Anything)
  {
  }

  /** As long as the connection remembers the reset of an id that has no more than one stream left, no
      app that is silent once it returned, and no HEADERS on it, nothing is attempted on it again. */
  lemma NothingAfterReset(steps: seq<Step>, st: State, s: StreamId, more: seq<Step>, last: State, k: nat)
    requires ReachedBy(steps, st) && s in st.table.resets && OneStream(st, s)
    requires Run(Rules({s}, false), st, more) == Some(last) && On(last, s, k)
    ensures !Attempts(last, k, Anything)
  {
    RunInv(ANY, Initial(), steps);
    OneStreamIsCovered(st, s);
    if Attempts(last, k, Anything) {
      OnlyTheExposed(Rules({s}, false), st, more, s, k, Anything);
    }
  }

  /** Every stream the id has had is finished. */
  ghost predicate Quieted(st: State, s: StreamId, late: bool) {
    forall k :: !CanSpeak(st, s, k, late, Anything) && !CanEnd(st, s, k, late)
  }

  /** Refused HEADERS, as the trailers of a request are, expose an id exactly unless it is reset and
      none of its streams has anything left to do. */
  lemma TrailersExpose(steps: seq<Step>, st: State, s: StreamId, trailers: Scope, status: int, late: bool)
    requires ReachedBy(steps, st) && trailers.version == H3
    ensures
      Exposed(Apply(st, Headers(s, trailers, Some(status))), s, late, Anything) <==>
        s !in st.table.resets || !Quieted(st, s, late)
  {
    RunInv(ANY, Initial(), steps);
    var n, st' := |st.sides|, Apply(st, Headers(s, trailers, Some(status)));
    var ops := ErrorOps(status);
    ErrorOrderly(trailers, status);
    assert st'.sides[n].ops == ops && Hit(ops[1], Anything);
    assert CanSpeak(st', s, n, late, Anything) && CanEnd(st', s, n, late);
    assert !CanEndFirst(st', s, n, late, Anything);
    forall k: nat | k != n
      ensures CanSpeak(st', s, k, late, Anything) <==> CanSpeak(st, s, k, late, Anything)
      ensures CanEnd(st', s, k, late) <==> CanEnd(st, s, k, late)
      ensures CanEndFirst(st', s, k, late, Anything) ==> CanSpeak(st, s, k, late, Anything)
    {
    }
    if k: nat :| CanSpeak(st, s, k, late, Anything) || CanEnd(st, s, k, late) {
      assert TwoOpen(st', s, n, k, late, Anything) || TwoOpen(st', s, k, n, late, Anything);
    }
  }

  /** And HEADERS that are not refused always do. */
  lemma HeadersExpose(steps: seq<Step>, st: State, s: StreamId, scope: Scope)
    requires ReachedBy(steps, st) && scope.version == H3
    ensures Exposed(Apply(st, Headers(s, scope, None)), s, true, Anything)
  {
    RunInv(ANY, Initial(), steps);
    var n, st' := |st.sides|, Apply(st, Headers(s, scope, None));
    assert st'.sides[n] == NewSide(scope) && n !in st'.refused;
    assert CanEndFirst(st', s, n, true, Anything) && CanSpeak(st', s, n, true, Anything);
  }

  /** A GET whose app has started its response. */
  lemma Responding(r: Rules, s: StreamId, scope: Scope, st: State, steps: seq<Step>)
    returns (longer: seq<Step>, next: State)
    requires Run(r, Initial(), steps) == Some(st) && s !in r.quiet && scope.version == H3
    requires st.sides == [] && st.ids == [] && st.refused == {}
    ensures Run(r, Initial(), longer) == Some(next) && steps <= longer && next.ids == [s]
    ensures next.latest == st.latest[s := 0] && next.table == Entered(st.table, s) && next.refused == st.refused
    ensures next.sides == [Side(Stream(RESPONSE, false, scope, Some(Started(200, false))), [], false,
                                Open(200), false)]
  {
    longer, next := Extend(r, Initial(), steps, st, Headers(s, scope, None));
    longer, next := Extend(r, Initial(), longer, next, Send(0, ResponseStart(200, [], false)));
    assert next.sides[0].ops == [Emit(Response(200, [])), Enter(RESPONSE)];
    longer, next := Extend(r, Initial(), longer, next, Advance(0, false));
    assert next.sides[0].ops == [Enter(RESPONSE)];
    longer, next := Extend(r, Initial(), longer, next, Advance(0, false));
    assert next.sides[0].ops == [];
  }

  /** The next piece of a response that is open. */
  lemma BodyIsAttempted(r: Rules, from: State, steps: seq<Step>, st: State)
    returns (longer: seq<Step>, last: State)
    requires Run(r, from, steps) == Some(st) && HasSide(st, 0) && 0 !in st.refused
    requires st.ids[0] !in st.table.resets && st.sides[0].ops == [] && Sends(st.sides[0], true, r.late)
    requires
      var s := st.sides[0].stream;
      s.state == RESPONSE && s.response == Some(Started(200, false)) && !SuppressBody(s.scope.verb, 200)
    ensures Run(r, from, longer) == Some(last) && longer == steps + [Send(0, ResponseBody([0], true))]
    ensures Attempts(last, 0, Anything) && last.ids == st.ids
  {
    longer, last := Extend(r, from, steps, st, Send(0, ResponseBody([0], true)));
    assert [Emit(Body([0]))] + [] == [Emit(Body([0]))];
  }

  /** A body sent after the return of an app that left its response open is handed to aioquic on an
      id that the peer reset before the request arrived. */
  lemma LateBodyIsAttempted(s: StreamId, scope: Scope) returns (steps: seq<Step>, st: State)
    requires !SuppressBody(scope.verb, 200) && scope.version == H3
    ensures ReachedBy(steps, st) && [PeerReset(s)] <= steps && Attempts(st, 0, Anything) && st.ids == [s]
  {
    steps, st := Extend(ANY, Initial(), [], Initial(), PeerReset(s));
    steps, st := Responding(ANY, s, scope, st, steps);
    steps, st := Extend(ANY, Initial(), steps, st, Return(0));
    steps, st := Extend(ANY, Initial(), steps, st, Advance(0, false));
    steps, st := BodyIsAttempted(ANY, Initial(), steps, st);
  }

  /** Refused HEADERS on a reset id, answered, make the connection forget the reset, and leave all
      other sides as they are. */
  lemma TrailersForgetTheReset(r: Rules, st: State, s: StreamId, scope: Scope, status: int)
    returns (steps: seq<Step>, last: State)
    requires |st.ids| == |st.sides| && s !in r.quiet && scope.version == H3
    ensures Run(r, st, steps) == Some(last) && s !in last.table.resets && last.ids == st.ids + [s]
    ensures |last.sides| == |st.sides| + 1 && last.sides[..|st.sides|] == st.sides
    ensures last.refused == st.refused + {|st.sides|}
  {
    var k := |st.sides|;
    var next := Apply(st, Headers(s, scope, Some(status)));
    ErrorOrderly(scope, status);
    assert Ends(next.sides[k].ops);
    steps, last := Drain(r, next, k);
    steps := [Headers(s, scope, Some(status))] + steps;
    assert steps[1..] + [] == steps[1..];
    assert last.sides[..k] == st.sides;
  }

  /** A client stops the response and then sends the trailers of its request: the next body of the app,
      which has not returned, is handed to aioquic. */
  lemma TrailersReopen(s: StreamId, scope: Scope, trailers: Scope) returns (steps: seq<Step>, st: State)
    requires !SuppressBody(scope.verb, 200) && scope.version == H3 == trailers.version
    ensures Run(Rules({}, false), Initial(), steps) == Some(st) && PeerReset(s) in steps
    ensures Attempts(st, 0, Anything) && st.ids == [s, s]
  {
    var r := Rules({}, false);
    steps, st := Responding(r, s, scope, Initial(), []);
    steps, st := Extend(r, Initial(), steps, st, PeerReset(s));
    var before := st;
    var more, last := TrailersForgetTheReset(r, st, s, trailers, 400);
    Join(r, Initial(), steps, st, more, last);
    steps, st := steps + more, last;
    assert st.sides[0] == before.sides[0];
    steps, st := BodyIsAttempted(r, Initial(), steps, st);
  }

  /** The reader has sent the Response to refused HEADERS, and is not through with the rest. */
  lemma Answering(r: Rules, st: State, s: StreamId, scope: Scope, status: int)
    returns (steps: seq<Step>, mid: State, last: State)
    requires |st.ids| == |st.sides| && s !in r.quiet && scope.version == H3
    ensures
      var n := |st.sides|;
      && steps == [Headers(s, scope, Some(status)), Advance(n, false), Advance(n, false)]
      && Run(r, st, steps[..2]) == Some(mid) && Run(r, st, steps) == Some(last)
      && Allowed(r, mid, steps[2]) && (Attempts(mid, n, AnyResponse) <==> s !in st.table.resets)
      && mid.ids == last.ids == st.ids + [s] && last.table == Entered(st.table, s)
      && |last.sides| == n + 1 && last.sides[..n] == st.sides && last.sides[n].ops == ErrorOps(status)[2..]
      && last.refused == st.refused + {n} && last.latest == st.latest[s := n]
    ensures Responses(st, steps[..2], s) == 0
  {
    var n, ops := |st.sides|, ErrorOps(status);
    steps, mid := Extend(r, st, [], st, Headers(s, scope, Some(status)));
    steps, mid := Extend(r, st, steps, mid, Advance(n, false));
    assert mid.sides[n].ops == ops[1..] && Hit(ops[1], AnyResponse);
    steps, last := Extend(r, st, steps, mid, Advance(n, false));
    assert last.sides[n].ops == ops[2..];
    var next := Apply(st, steps[0]);
    assert steps[..2] == [steps[0], steps[1]] && [steps[0], steps[1]][1..] == [steps[1]] && [steps[1]][1..] == [];
    assert Responses(next, [steps[1]], s) == 0;
  }

  /** The same where the reset comes while the trailers are being answered: no HEADERS follow it. */
  lemma TwoStreamsForgetTheReset(s: StreamId, scope: Scope, trailers: Scope)
    returns (steps: seq<Step>, st: State, more: seq<Step>, last: State)
    requires !SuppressBody(scope.verb, 200) && scope.version == H3 == trailers.version
    ensures Run(Rules({}, false), Initial(), steps) == Some(st) && PeerReset(s) in steps && s in st.table.resets
    ensures Run(Rules({s}, false), st, more) == Some(last) && Attempts(last, 0, Anything) && last.ids == [s, s]
  {
    var r, q := Rules({}, false), Rules({s}, false);
    var mid;
    steps, st := Responding(r, s, scope, Initial(), []);
    var app := st.sides[0];
    more, mid, last := Answering(r, st, s, trailers, 400);
    Join(r, Initial(), steps, st, more, last);
    steps, st := Extend(r, Initial(), steps + more, last, PeerReset(s));
    assert ErrorOps(400)[2..][2] == Emit(StreamClosed);
    assert Ends(st.sides[1].ops) && st.sides[0] == app;
    more, last := Drain(q, st, 1);
    more, last := BodyIsAttempted(q, st, more, last);
  }

  // ---- one Response for one request -------------------------------------------------------------------

  /** The step attempts a Response on the id. */
  predicate Answers(st: State, step: Step, s: StreamId) {
    step.Advance? && Attempts(st, step.k, AnyResponse) && st.ids[step.k] == s
  }

  function Responses(st: State, steps: seq<Step>, s: StreamId): nat
    decreases |steps|
  {
    if steps == [] || !Allowed(ANY, st, steps[0]) then 0
    else (if Answers(st, steps[0], s) then 1 else 0) + Responses(Apply(st, steps[0]), steps[1..], s)
  }

  function Requests(steps: seq<Step>, s: StreamId): nat {
    if steps == [] then 0
    else (if steps[0].Headers? && steps[0].s == s then 1 else 0) + Requests(steps[1..], s)
  }

  /** The sides that may still answer. */
  function Due(st: State, s: StreamId): set<nat> {
    set k: nat | k < |st.sides| && CanSpeak(st, s, k, true, AnyResponse)
  }

  lemma StepDue(st: State, step: Step, s: StreamId)
    requires Inv(st) && Allowed(ANY, st, step)
    ensures
      var next := Due(Apply(st, step), s);
      if step.Headers? && step.s == s then next <= Due(st, s) + {|st.sides|}
      else if Answers(st, step, s) then next <= Due(st, s) - {step.k} && step.k in Due(st, s)
      else next <= Due(st, s)
  {
    var st' := Apply(st, step);
    if step.Headers? {
      assert forall k: nat :: k < |st.sides| ==>
        (CanSpeak(st', s, k, true, AnyResponse) <==> CanSpeak(st, s, k, true, AnyResponse));
    } else {
      forall k: nat ensures CanSpeak(st', s, k, true, AnyResponse) ==> CanSpeak(st, s, k, true, AnyResponse) {
        StepTamer(Rules({s}, true), st, step, s, k, AnyResponse);
      }
    }
    if Answers(st, step, s) {
      assert Hit(st.sides[step.k].ops[0], AnyResponse);
      AnsweredOnce(st, step, s);
    }
  }

  lemma AnsweredOnce(st: State, step: Step, s: StreamId)
    requires Inv(st) && Allowed(ANY, st, step) && Answers(st, step, s)
    ensures !CanSpeak(Apply(st, step), s, step.k, true, AnyResponse)
  {
    AdvancedTamer(st.sides[step.k], true, true, AnyResponse);
  }

  lemma {:induction false} ResponsesAreDue(st: State, steps: seq<Step>, s: StreamId)
    requires Inv(st) && Run(ANY, st, steps).Some?
    ensures Responses(st, steps, s) <= |Due(st, s)| + Requests(steps, s)
    decreases |steps|
  {
    if steps != [] {
      var next := Apply(st, steps[0]);
      StepInv(st, steps[0]);
      ResponsesAreDue(next, steps[1..], s);
      StepDue(st, steps[0], s);
      var bound := if steps[0].Headers? && steps[0].s == s then Due(st, s) + {|st.sides|}
                   else if Answers(st, steps[0], s) then Due(st, s) - {steps[0].k}
                   else Due(st, s);
      Smaller(Due(next, s), bound);
    }
  }

  lemma {:induction false} Smaller(a: set<nat>, b: set<nat>)
    requires a <= b
    ensures |a| <= |b|
  {
    if a != {} {
      var x :| x in a;
      Smaller(a - {x}, b - {x});
    }
  }

  /** Over every run, no more Responses are attempted on an id than HEADERS came on it. */
  lemma OneResponsePerHeaders(steps: seq<Step>, st: State, s: StreamId)
    requires ReachedBy(steps, st)
    ensures Responses(Initial(), steps, s) <= Requests(steps, s)
  {
    ResponsesAreDue(Initial(), steps, s);
  }

  lemma {:induction false} ResponsesConcat(st: State, a: seq<Step>, mid: State, b: seq<Step>, s: StreamId)
    requires Run(ANY, st, a) == Some(mid)
    ensures Responses(st, a + b, s) == Responses(st, a, s) + Responses(mid, b, s)
    decreases |a|
  {
    if a == [] {
      assert a + b == b;
    } else {
      assert (a + b)[1..] == a[1..] + b;
      ResponsesConcat(Apply(st, a[0]), a[1..], mid, b, s);
    }
  }

  /** On an id that is not reset, refused HEADERS are answered whatever the id has had before. */
  lemma AnotherResponse(steps: seq<Step>, st: State, s: StreamId, trailers: Scope, status: int)
    returns (longer: seq<Step>, last: State)
    requires ReachedBy(steps, st) && s !in st.table.resets && trailers.version == H3
    ensures ReachedBy(longer, last) && Requests(longer, s) == Requests(steps, s) + 1 && last.ids == st.ids + [s]
    ensures forall t :: PeerReset(t) in longer ==> PeerReset(t) in steps
    ensures Responses(Initial(), longer, s) == Responses(Initial(), steps, s) + 1
    ensures |last.sides| == |st.sides| + 1 && last.sides[..|st.sides|] == st.sides
  {
    var more, mid;
    RunInv(ANY, Initial(), steps);
    more, mid, last := Answering(ANY, st, s, trailers, status);
    longer := steps + more;
    Join(ANY, Initial(), steps, st, more, last);
    ResponsesConcat(Initial(), steps, st, more, s);
    assert more[..2] + [more[2]] == more;
    ResponsesConcat(st, more[..2], mid, [more[2]], s);
    assert [more[2]][1..] == [];
    RequestsConcat(steps, more, s);
    assert more[1..] == [more[1], more[2]] && more[1..][1..] == [more[2]] && more[2..][1..] == [];
    assert Requests([more[2]], s) == 0;
    assert Requests(more[1..], s) == 0;
  }

  lemma {:induction false} RequestsConcat(a: seq<Step>, b: seq<Step>, s: StreamId)
    ensures Requests(a + b, s) == Requests(a, s) + Requests(b, s)
  {
    if a == [] {
      assert a + b == b;
    } else {
      assert (a + b)[1..] == a[1..] + b;
      RequestsConcat(a[1..], b, s);
    }
  }

  /** A run with two: the trailers of a request are answered by a 400 behind the response of its app. */
  lemma TrailersAreAnswered(s: StreamId, scope: Scope, trailers: Scope) returns (steps: seq<Step>, st: State)
    requires scope.version == H3 == trailers.version
    ensures ReachedBy(steps, st) && Responses(Initial(), steps, s) == 2 && PeerReset(s) !in steps
    ensures |st.sides| == 2 && st.sides[0].phase == Open(200) && st.ids == [s, s]
  {
    var start, request := Send(0, ResponseStart(200, [], false)), Headers(s, scope, None);
    steps, st := Extend(ANY, Initial(), [], Initial(), request);
    var asked := st;
    steps, st := Extend(ANY, Initial(), steps, st, start);
    var begun := st;
    assert st.sides[0].ops == [Emit(Response(200, [])), Enter(RESPONSE)];
    steps, st := Extend(ANY, Initial(), steps, st, Advance(0, false));
    assert steps == [request, start, Advance(0, false)];
    assert steps[1..] == [start, Advance(0, false)] && steps[1..][1..] == [Advance(0, false)];
    assert Hit(begun.sides[0].ops[0], AnyResponse) && Answers(begun, Advance(0, false), s);
    assert Responses(begun, [Advance(0, false)], s) == 1 && Responses(asked, steps[1..], s) == 1;
    var before := st;
    steps, st := AnotherResponse(steps, before, s, trailers, 400);
    assert st.sides[0] == before.sides[0];
  }
}
