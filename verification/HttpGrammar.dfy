/** The grammar of what an HTTP stream emits, and the side of a stream that its app drives: messages
    planned, operations left to do, the return of the app. */
module HttpGrammar {
  import opened Common
  import opened HttpStreams

  /** `read_file_chunks` never yields an empty chunk (SendFiles.ReadFileChunks). */
  predicate ReadChunks(m: Message) {
    m.PathSend? || m.ZeroCopy? ==> forall i :: 0 <= i < |m.chunks| ==> m.chunks[i] != []
  }

  predicate HasResponse(s: Stream) { s.state in {RESPONSE, TRAILERS} ==> s.response.Some? }

  // ---- the grammar of what a stream emits ---------------------------------------------------------

  datatype Phase = Before | Open(status: int) | Trailing | Ended | Over | Bad

  /** Info* Response (Body | ZeroCopySend)* Trailers* EndBody? StreamClosed*, pushes anywhere; no
      body where HTTP allows none (section 6.4.1 of RFC 9110), and never an empty one. */
  function Next(verb: string, p: Phase, e: Event): Phase {
    if e.Push? then p
    else if e.StreamClosed? && !p.Before? then (if p.Bad? then Bad else Over)
    else
      match p
      case Before => if e.Info? then Before else if e.Response? then Open(e.status) else Bad
      case Open(status) =>
        if e.Body? || e.ZeroCopySend? then
          if SuppressBody(verb, status) || (e.Body? && e.data == []) then Bad else p
        else if e.Trailers? then Trailing
        else if e.EndBody? then Ended
        else Bad
      case Trailing => if e.Trailers? then Trailing else if e.EndBody? then Ended else Bad
      case _ => Bad
  }

  function PhaseOf(verb: string, sent: seq<Event>): Phase {
    if sent == [] then Before else Next(verb, PhaseOf(verb, sent[..|sent| - 1]), sent[|sent| - 1])
  }

  lemma PhaseSnoc(verb: string, sent: seq<Event>, e: Event)
    ensures PhaseOf(verb, sent + [e]) == Next(verb, PhaseOf(verb, sent), e)
  {
    assert (sent + [e])[..|sent|] == sent;
  }

  /** Where a stream stands between two messages. */
  predicate AtRest(p: Phase, s: Stream, returned: bool, logged: bool) {
    && (logged ==> s.state == CLOSED)
    && (returned && !s.closed ==> p == Over)
    && (|| (returned && p == Over && s.state != REQUEST)
        || (match s.state
            case REQUEST => p == Before
            case RESPONSE => s.response.Some? && p == Open(s.response.value.status)
            case TRAILERS => s.response.Some? && (p == Open(s.response.value.status) || p == Trailing)
            case CLOSED => p == Over))
  }

  /** A record means CLOSED, and only the return of an app changes the state ahead of the response. */
  predicate Marked(p: Phase, s: Stream, returned: bool, logged: bool) {
    (logged ==> s.state == CLOSED) && (p.Before? && !returned ==> s.state == REQUEST)
  }

  /** What is left to do keeps to the grammar, ends the body only once CLOSED is marked, writes at
      most one full record, and that after the mark, emits StreamClosed last, and comes to rest.
      `logged`: the full record is written already. */
  predicate Fits(p: Phase, s: Stream, ops: seq<Op>, returned: bool, logged: bool)
    decreases |ops|
  {
    && Marked(p, s, returned, logged)
    && if ops == [] then AtRest(p, s, returned, logged)
       else
         var op := ops[0];
         if op.Emit? then
           var next := Next(s.scope.verb, p, op.event);
           && next != Bad && (next == Ended ==> s.state == CLOSED)
           && (op.event.StreamClosed? ==> ops[1..] == [])
           && Fits(next, s, ops[1..], returned, logged)
         else if op.Enter? then s.state != CLOSED && Fits(p, s.(state := op.state), ops[1..], returned, logged)
         else s.state == CLOSED && !logged && op.record.FullRecord? && Fits(p, s, ops[1..], returned, true)
  }

  lemma FitsCons(p: Phase, s: Stream, op: Op, ops: seq<Op>, returned: bool, logged: bool)
    ensures Fits(p, s, [op] + ops, returned, logged) == (Marked(p, s, returned, logged) &&
      if op.Emit? then
        var next := Next(s.scope.verb, p, op.event);
        && next != Bad && (next == Ended ==> s.state == CLOSED)
        && (op.event.StreamClosed? ==> ops == [])
        && Fits(next, s, ops, returned, logged)
      else if op.Enter? then s.state != CLOSED && Fits(p, s.(state := op.state), ops, returned, logged)
      else s.state == CLOSED && !logged && op.record.FullRecord? && Fits(p, s, ops, returned, true))
  {
    assert ([op] + ops)[1..] == ops;
  }

  lemma ClosedFits(p: Phase, s: Stream, status: int, logged: bool)
    requires (p.Open? || p.Trailing?) && s.state != CLOSED && !logged
    ensures Fits(p, s, ClosedOps(status), false, logged)
  {
    var ops := ClosedOps(status);
    var s' := s.(state := CLOSED);
    assert ops == [ops[0]] + ops[1..] && ops[1..] == [ops[1]] + ops[2..] && ops[2..] == [ops[2]] + ([ops[3]] + []);
    FitsCons(Ended, s', ops[3], [], false, true);
    FitsCons(Ended, s', ops[2], [ops[3]] + [], false, logged);
    FitsCons(p, s', ops[1], ops[2..], false, logged);
    FitsCons(p, s, ops[0], ops[1..], false, logged);
  }

  lemma FinishFits(s: Stream, more: bool, logged: bool)
    requires s.state == RESPONSE && s.response.Some? && !logged
    ensures Fits(Open(s.response.value.status), s, FinishOps(s.response.value, more), false, logged)
  {
    var r := s.response.value;
    if !more && !r.trailers {
      ClosedFits(Open(r.status), s, r.status, logged);
    } else if !more {
      FitsCons(Open(r.status), s, Enter(TRAILERS), [], false, logged);
      assert [Enter(TRAILERS)] + [] == [Enter(TRAILERS)];
    }
  }

  lemma {:induction false} BodiesFit(p: Phase, s: Stream, chunks: seq<Bytes>, rest: seq<Op>, logged: bool)
    requires p.Open? && !SuppressBody(s.scope.verb, p.status) && Fits(p, s, rest, false, logged)
    requires forall i :: 0 <= i < |chunks| ==> chunks[i] != []
    ensures Fits(p, s, BodyOps(chunks) + rest, false, logged)
    decreases |chunks|
  {
    if chunks == [] {
      assert BodyOps(chunks) + rest == rest;
    } else {
      BodiesFit(p, s, chunks[1..], rest, logged);
      assert BodyOps(chunks) + rest == [Emit(Body(chunks[0]))] + (BodyOps(chunks[1..]) + rest);
      FitsCons(p, s, Emit(Body(chunks[0])), BodyOps(chunks[1..]) + rest, false, logged);
    }
  }

  lemma WindowFits(s: Stream, offset: int, count: int, chunks: seq<Bytes>, more: bool, logged: bool)
    requires s.state == RESPONSE && s.response.Some? && !logged
    requires forall i :: 0 <= i < |chunks| ==> chunks[i] != []
    ensures Fits(Open(s.response.value.status), s,
                 WindowOps(s.scope, s.response.value, offset, count, chunks, more), false, logged)
  {
    var r := s.response.value;
    var rest := FinishOps(r, more);
    FinishFits(s, more, logged);
    if SuppressBody(s.scope.verb, r.status) {
      assert [] + rest == rest;
    } else if Framed(s.scope.version) {
      BodiesFit(Open(r.status), s, chunks, rest, logged);
    } else {
      FitsCons(Open(r.status), s, Emit(ZeroCopySend(offset, count)), rest, false, logged);
    }
  }

  lemma TrailersFit(p: Phase, s: Stream, m: Message, logged: bool)
    requires AtRest(p, s, false, logged) && HasResponse(s) && m.ResponseTrailers? && Plan(s, m).Some?
    ensures Fits(p, Noted(s, m), Plan(s, m).value, false, logged)
  {
    var s' := Noted(s, m);
    var ops := Plan(s, m).value;
    if s.state == REQUEST {
      if TakesTrailers(s.scope) {
        var rest := if m.more then [] else ClosedOps(200);
        if !m.more {
          ClosedFits(Open(200), s'.(state := TRAILERS), 200, logged);
        }
        assert ops == [Emit(Response(200, m.headers))] + ([Enter(TRAILERS)] + rest);
        FitsCons(Open(200), s', Enter(TRAILERS), rest, false, logged);
        FitsCons(p, s', Emit(Response(200, m.headers)), [Enter(TRAILERS)] + rest, false, logged);
      }
    } else {
      var rest := if m.more then [] else ClosedOps(s.response.value.status);
      var first := if TakesTrailers(s.scope) then Trailing else p;
      if !m.more {
        ClosedFits(first, s, s.response.value.status, logged);
      }
      if TakesTrailers(s.scope) {
        FitsCons(p, s, Emit(Trailers(m.headers)), rest, false, logged);
      } else {
        assert [] + rest == rest;
      }
    }
  }

  /** Whatever the app sends, what it makes the stream do fits. */
  lemma PlanFits(p: Phase, s: Stream, m: Message, logged: bool)
    requires AtRest(p, s, false, logged) && HasResponse(s) && ReadChunks(m)
    ensures Fits(p, Noted(s, m), if Plan(s, m).Some? then Plan(s, m).value else [], false, logged)
  {
    if Plan(s, m).Some? {
      var ops := Plan(s, m).value;
      match m
      case ResponseStart(status, headers, _) =>
        assert ops == [ops[0]] + ([ops[1]] + []);
        FitsCons(Open(status), Noted(s, m), ops[1], [], false, logged);
        FitsCons(p, Noted(s, m), ops[0], [ops[1]] + [], false, logged);
      case ResponseBody(body, more) =>
        FinishFits(s, more, logged);
        var rest := FinishOps(s.response.value, more);
        FitsCons(p, s, Emit(Body(body)), rest, false, logged);
        assert [] + rest == rest;
      case PathSend(count, chunks) => WindowFits(s, 0, count, chunks, false, logged);
      case ZeroCopy(offset, count, chunks, more) => WindowFits(s, offset, count, chunks, more, logged);
      case ResponseTrailers(_, _) => TrailersFit(p, s, m, logged);
      case EarlyHint(links) =>
        FitsCons(p, s, Emit(Info(links)), [], false, logged);
        assert ops == [Emit(Info(links))] + [];
      case ServerPush(path, headers) =>
        FitsCons(p, s, Emit(Push(path, headers)), [], false, logged);
        assert ops == [Emit(Push(path, headers))] + [];
      case Unknown =>
    }
  }

  lemma ReturnFits(p: Phase, s: Stream, returned: bool, logged: bool)
    requires AtRest(p, s, returned, logged)
    ensures Fits(p, s, PlanReturn(s), true, logged)
  {
    var ops := PlanReturn(s);
    if !s.closed && s.state == REQUEST {
      var s' := s.(state := CLOSED);
      assert ops == [ops[0]] + ops[1..] && ops[1..] == [ops[1]] + ops[2..] && ops[2..] == [ops[2]] + ops[3..];
      assert ops[3..] == [ops[3]] + ([ops[4]] + []);
      FitsCons(Ended, s', ops[4], [], true, true);
      FitsCons(Ended, s', ops[3], [ops[4]] + [], true, logged);
      FitsCons(Open(500), s', ops[2], ops[3..], true, logged);
      FitsCons(p, s', ops[1], ops[2..], true, logged);
      FitsCons(p, s, ops[0], ops[1..], true, logged);
    } else if !s.closed {
      FitsCons(p, s, Emit(StreamClosed), [], true, logged);
      assert [Emit(StreamClosed)] + [] == ops;
    }
  }

  lemma {:induction false} FitsClosed(p: Phase, s: Stream, ops: seq<Op>, returned: bool, logged: bool)
    requires Fits(p, s, ops, returned, logged)
    ensures Fits(p, s.(closed := true), ops, returned, logged) && p != Bad
    decreases |ops|
  {
    if ops != [] {
      var op := ops[0];
      if op.Emit? {
        FitsClosed(Next(s.scope.verb, p, op.event), s, ops[1..], returned, logged);
      } else if op.Enter? {
        FitsClosed(p, s.(state := op.state), ops[1..], returned, logged);
      } else {
        FitsClosed(p, s, ops[1..], returned, true);
      }
    }
  }

  // ---- the app's side of a stream -------------------------------------------------------------------

  /** `returned`: task_group.py has sent the None that follows the app. `phase` is where the events
      emitted so far stand in the grammar, `logged` whether the full record is written. */
  datatype Side = Side(stream: Stream, ops: seq<Op>, returned: bool, phase: Phase, logged: bool)

  function NewSide(scope: Scope): Side { Side(Stream(REQUEST, false, scope, None), [], false, Before, false) }

  /** A request that gets no app: the reader goes through the error response itself. */
  function RefusedSide(scope: Scope, status: int): Side {
    NewSide(scope).(ops := ErrorOps(status), returned := true)
  }

  predicate SideFits(a: Side) { Fits(a.phase, a.stream, a.ops, a.returned, a.logged) }

  predicate MaySend(a: Side, m: Message) { a.ops == [] && HasResponse(a.stream) && ReadChunks(m) }

  function Sent(a: Side, m: Message): Side
    requires MaySend(a, m)
  {
    var plan := Plan(a.stream, m);
    a.(stream := Noted(a.stream, m), ops := if plan.Some? then plan.value else [])
  }

  function Returned(a: Side): Side { a.(ops := PlanReturn(a.stream), returned := true) }

  function Advanced(a: Side): Side
    requires a.ops != []
  {
    var rest := a.(ops := a.ops[1..]);
    var op := a.ops[0];
    if op.Emit? then rest.(phase := Next(a.stream.scope.verb, a.phase, op.event))
    else if op.Enter? then rest.(stream := a.stream.(state := op.state))
    else rest.(logged := true)
  }

  function Told(a: Side): Side { a.(stream := a.stream.(closed := true)) }

  lemma RefusedFits(scope: Scope, status: int)
    ensures SideFits(RefusedSide(scope, status))
  {
    var s := NewSide(scope).stream;
    var s' := s.(state := CLOSED);
    var ops := ErrorOps(status);
    assert ops == [ops[0]] + ops[1..] && ops[1..] == [ops[1]] + ops[2..] && ops[2..] == [ops[2]] + ops[3..];
    assert ops[3..] == [ops[3]] + ([ops[4]] + []);
    FitsCons(Ended, s', ops[4], [], true, true);
    FitsCons(Ended, s', ops[3], [ops[4]] + [], true, false);
    FitsCons(Open(status), s', ops[2], ops[3..], true, false);
    FitsCons(Before, s', ops[1], ops[2..], true, false);
    FitsCons(Before, s, ops[0], ops[1..], true, false);
  }

  lemma SentFits(a: Side, m: Message)
    requires SideFits(a) && MaySend(a, m) && !a.returned
    ensures SideFits(Sent(a, m))
  {
    PlanFits(a.phase, a.stream, m, a.logged);
  }

  lemma ReturnedFits(a: Side)
    requires SideFits(a) && a.ops == []
    ensures SideFits(Returned(a))
  {
    ReturnFits(a.phase, a.stream, a.returned, a.logged);
  }

  lemma ToldFits(a: Side)
    requires SideFits(a)
    ensures SideFits(Told(a)) && a.phase != Bad
  {
    FitsClosed(a.phase, a.stream, a.ops, a.returned, a.logged);
  }
}
