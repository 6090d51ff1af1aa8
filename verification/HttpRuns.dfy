/** Runs of one HTTP stream: the app sends messages and returns, its operations are carried out
    one at a time, and the reader hands over body messages and the closing of the stream at any
    moment in between. */
module HttpRuns {
  import opened Common
  import opened HttpStreams
  import opened HttpGrammar

  /** The access log, with the moment the stream is marked CLOSED. */
  datatype Entry = Mark | Entry(record: Record)

  /** `telling`: the reader is about to put the disconnect. */
  datatype State = State(side: Side, sent: seq<Event>, history: seq<Entry>, telling: bool, puts: seq<Put>)

  datatype Step =
    | Send(m: Message)
    | Return
    | Advance
    | HandBody(data: Bytes, more: bool)
    | HandClosed
    | TellApp

  function Initial(scope: Scope): State { State(NewSide(scope), [], [], false, []) }

  /** The app sends one message at a time and none after it returned; `_handle` may report its
      return twice. */
  predicate Enabled(st: State, step: Step) {
    match step
    case Send(m) => !st.side.returned && MaySend(st.side, m)
    case Return => st.side.ops == []
    case Advance => st.side.ops != []
    case HandBody(_, _) => true
    case HandClosed => true
    case TellApp => st.telling
  }

  function Performed(st: State): State
    requires st.side.ops != []
  {
    var op := st.side.ops[0];
    st.(side := Advanced(st.side),
        sent := if op.Emit? then st.sent + [op.event] else st.sent,
        history := if op == Enter(CLOSED) then st.history + [Mark]
                   else if op.Log? then st.history + [Entry(op.record)]
                   else st.history)
  }

  function Apply(st: State, step: Step): State
    requires Enabled(st, step)
  {
    match step
    case Send(m) => st.(side := Sent(st.side, m))
    case Return => st.(side := Returned(st.side))
    case Advance => Performed(st)
    case HandBody(data, more) =>
      if st.side.stream.closed then st else st.(puts := st.puts + [HttpRequest(data, more)])
    case HandClosed =>
      if st.side.stream.closed then st
      else st.(side := Told(st.side), telling := true,
               history := if st.side.stream.state == CLOSED then st.history
                          else st.history + [Entry(AbortedRecord)])
    case TellApp => st.(telling := false, puts := st.puts + [HttpDisconnect])
  }

  function Run(st: State, steps: seq<Step>): Option<State>
    decreases |steps|
  {
    if steps == [] then Some(st)
    else if Enabled(st, steps[0]) then Run(Apply(st, steps[0]), steps[1..])
    else None
  }

  // ---- every run --------------------------------------------------------------------------------

  predicate IsFull(e: Entry) { e.Entry? && e.record.FullRecord? }

  predicate Logged(h: seq<Entry>) { exists i :: 0 <= i < |h| && IsFull(h[i]) }

  predicate Grammar(st: State) {
    && SideFits(st.side)
    && st.side.phase == PhaseOf(st.side.stream.scope.verb, st.sent)
    && st.side.logged == Logged(st.history)
  }

  predicate LogOrder(h: seq<Entry>) {
    && (forall i, j :: 0 <= i < j < |h| ==> !(IsFull(h[i]) && IsFull(h[j])))
    && (forall i, j :: 0 <= i < j < |h| ==> !(h[i] == Entry(AbortedRecord) && h[j] == Entry(AbortedRecord)))
    && (forall i, j :: 0 <= i < j < |h| ==> !(h[i] == Mark && h[j] == Entry(AbortedRecord)))
    && (forall i, j :: 0 <= i < j < |h| ==> !(h[i] == Mark && h[j] == Mark))
    && (forall i :: 0 <= i < |h| && IsFull(h[i]) ==> Mark in h[..i])
  }

  predicate Accounts(st: State) {
    && LogOrder(st.history)
    && (Mark in st.history <==> st.side.stream.state == CLOSED)
    && (Entry(AbortedRecord) in st.history ==> st.side.stream.closed)
    && (st.telling ==> st.side.stream.closed)
    && (st.telling || !st.side.stream.closed ==> HttpDisconnect !in st.puts)
    && (forall i :: 0 <= i < |st.puts| - 1 ==> st.puts[i] != HttpDisconnect)
  }

  predicate Inv(st: State) { Grammar(st) && Accounts(st) }

  lemma LoggedSnoc(h: seq<Entry>, e: Entry)
    ensures Logged(h + [e]) == (Logged(h) || IsFull(e))
  {
    if Logged(h) {
      var i :| 0 <= i < |h| && IsFull(h[i]);
      assert IsFull((h + [e])[i]);
    }
    if IsFull(e) {
      assert IsFull((h + [e])[|h|]);
    }
    if Logged(h + [e]) {
      var i :| 0 <= i < |h + [e]| && IsFull((h + [e])[i]);
      assert i < |h| ==> IsFull(h[i]);
    }
  }

  lemma EntrySnoc(h: seq<Entry>, e: Entry)
    requires LogOrder(h) && !(e == Mark && Mark in h)
    requires IsFull(e) ==> Mark in h && !Logged(h)
    requires e == Entry(AbortedRecord) ==> Mark !in h && Entry(AbortedRecord) !in h
    ensures LogOrder(h + [e])
  {
    var h' := h + [e];
    assert forall i :: 0 <= i < |h| ==> h'[i] == h[i] && h'[..i] == h[..i];
    assert h'[..|h|] == h;
  }

  lemma PerformedInv(st: State)
    requires Inv(st) && st.side.ops != []
    ensures Inv(Performed(st))
  {
    var op := st.side.ops[0];
    if op.Emit? {
      PhaseSnoc(st.side.stream.scope.verb, st.sent, op.event);
    } else if op == Enter(CLOSED) {
      LoggedSnoc(st.history, Mark);
      EntrySnoc(st.history, Mark);
    } else if op.Log? {
      LoggedSnoc(st.history, Entry(op.record));
      EntrySnoc(st.history, Entry(op.record));
    }
  }

  lemma HandClosedInv(st: State)
    requires Inv(st) && !st.side.stream.closed
    ensures Inv(Apply(st, HandClosed))
  {
    ToldFits(st.side);
    if st.side.stream.state != CLOSED {
      LoggedSnoc(st.history, Entry(AbortedRecord));
      EntrySnoc(st.history, Entry(AbortedRecord));
    }
  }

  lemma StepInv(st: State, step: Step)
    requires Inv(st) && Enabled(st, step)
    ensures Inv(Apply(st, step)) && Apply(st, step).side.stream.scope == st.side.stream.scope
  {
    match step
    case Send(m) => SentFits(st.side, m);
    case Return => ReturnedFits(st.side);
    case Advance => PerformedInv(st);
    case HandClosed =>
      if !st.side.stream.closed {
        HandClosedInv(st);
      }
    case _ =>
  }

  lemma {:induction false} RunInv(st: State, steps: seq<Step>)
    requires Inv(st) && Run(st, steps).Some?
    ensures Inv(Run(st, steps).value) && Run(st, steps).value.side.stream.scope == st.side.stream.scope
    decreases |steps|
  {
    if steps != [] {
      StepInv(st, steps[0]);
      RunInv(Apply(st, steps[0]), steps[1..]);
    }
  }

  /** `st` is the state after some run of a stream for `scope`. */
  predicate ReachedBy(scope: Scope, steps: seq<Step>, st: State) { Run(Initial(scope), steps) == Some(st) }

  /** On every run the events keep to the grammar, and once the app has returned and nothing is left
      to do, they end in StreamClosed, unless the reader closed an unfinished stream. */
  lemma OutputKeepsToGrammar(scope: Scope, steps: seq<Step>, st: State)
    requires ReachedBy(scope, steps, st)
    ensures PhaseOf(scope.verb, st.sent) != Bad
    ensures st.side.returned && st.side.ops == [] && !st.side.stream.closed ==> PhaseOf(scope.verb, st.sent) == Over
  {
    RunInv(Initial(scope), steps);
    ToldFits(st.side);
  }

  /** Nothing starts being put to the app after http.disconnect, which is put at most once; there is
      at most one full and at most one aborted record, and none is aborted after the CLOSED mark. */
  lemma LogAndDisconnectAccounting(scope: Scope, steps: seq<Step>, st: State, i: nat, j: nat)
    requires ReachedBy(scope, steps, st)
    ensures i < j < |st.puts| ==> st.puts[i] != HttpDisconnect
    ensures i < j < |st.history| ==>
      var a, b := st.history[i], st.history[j];
      && !(IsFull(a) && IsFull(b))
      && !(a == Entry(AbortedRecord) && b == Entry(AbortedRecord))
      && !(a == Mark && b == Entry(AbortedRecord))
  {
    RunInv(Initial(scope), steps);
  }

  // ---- the grammar spelled out --------------------------------------------------------------------

  function NonPush(sent: seq<Event>): seq<Event> {
    if sent == [] then []
    else
      var e := sent[|sent| - 1];
      NonPush(sent[..|sent| - 1]) + if e.Push? then [] else [e]
  }

  predicate IsBody(verb: string, status: int, e: Event) {
    (e.Body? || e.ZeroCopySend?) && !SuppressBody(verb, status) && (e.Body? ==> e.data != [])
  }

  /** sent[..a] are informational; sent[a] is the response if there is one; sent[a + 1..b] is the body,
      sent[b..c] the trailers, sent[c..d] the end of the body, and the rest closes the stream. */
  predicate Splits(verb: string, sent: seq<Event>, a: nat, b: nat, c: nat, d: nat) {
    && a <= b <= c <= d <= |sent|
    && (forall i :: 0 <= i < a ==> sent[i].Info?)
    && (if a == |sent| then a == b
        else
          && a < b && sent[a].Response?
          && (forall i :: a < i < b ==> IsBody(verb, sent[a].status, sent[i]))
          && (forall i :: b <= i < c ==> sent[i].Trailers?)
          && d - c <= 1 && (forall i :: c <= i < d ==> sent[i].EndBody?)
          && (forall i :: d <= i < |sent| ==> sent[i].StreamClosed?))
  }

  /** The bounds that go with each phase. */
  predicate SplitsIn(verb: string, p: Phase, sent: seq<Event>, a: nat, b: nat, c: nat, d: nat) {
    && Splits(verb, sent, a, b, c, d)
    && (match p
        case Before => a == |sent|
        case Open(status) => a < b == d == |sent| && sent[a] == Response(status, sent[a].headers)
        case Trailing => a < c == d == |sent|
        case Ended => a < c < d == |sent|
        case Over => a < |sent|
        case Bad => false)
  }

  lemma SplitNext(verb: string, p: Phase, before: seq<Event>, e: Event, a: nat, b: nat, c: nat, d: nat)
    returns (a': nat, b': nat, c': nat, d': nat)
    requires SplitsIn(verb, p, before, a, b, c, d) && Next(verb, p, e) != Bad && !e.Push?
    ensures SplitsIn(verb, Next(verb, p, e), before + [e], a', b', c', d')
  {
    var n := |before| + 1;
    a', b', c', d' := a, b, c, d;
    if e.Info? {
      a', b', c', d' := n, n, n, n;
    } else if e.Response? || e.Body? || e.ZeroCopySend? {
      b', c', d' := n, n, n;
    } else if e.Trailers? {
      c', d' := n, n;
    } else if e.EndBody? {
      d' := n;
    }
    assert forall i :: 0 <= i < |before| ==> (before + [e])[i] == before[i];
  }

  lemma {:induction false} Split(verb: string, sent: seq<Event>) returns (a: nat, b: nat, c: nat, d: nat)
    requires PhaseOf(verb, sent) != Bad && NonPush(sent) == sent
    ensures SplitsIn(verb, PhaseOf(verb, sent), sent, a, b, c, d)
  {
    if sent == [] {
      return 0, 0, 0, 0;
    }
    var before, e := sent[..|sent| - 1], sent[|sent| - 1];
    NonPushLength(before);
    a, b, c, d := Split(verb, before);
    a, b, c, d := SplitNext(verb, PhaseOf(verb, before), before, e, a, b, c, d);
    assert before + [e] == sent;
  }

  lemma {:induction false} NonPushLength(sent: seq<Event>)
    ensures |NonPush(sent)| <= |sent| && (|NonPush(sent)| == |sent| ==> NonPush(sent) == sent)
  {
    if sent != [] {
      NonPushLength(sent[..|sent| - 1]);
    }
  }

  lemma {:induction false} PushesDoNotMatter(verb: string, sent: seq<Event>)
    ensures PhaseOf(verb, NonPush(sent)) == PhaseOf(verb, sent) && NonPush(NonPush(sent)) == NonPush(sent)
  {
    if sent != [] {
      var before, e := sent[..|sent| - 1], sent[|sent| - 1];
      PushesDoNotMatter(verb, before);
      if e.Push? {
        assert NonPush(before) + [] == NonPush(before);
      } else {
        PhaseSnoc(verb, NonPush(before), e);
        assert (NonPush(before) + [e])[..|NonPush(before)|] == NonPush(before);
      }
    }
  }

  /** Without the pushes, every run emits Info* (Response Body* Trailers* EndBody? StreamClosed*)?. */
  lemma OutputDecomposes(scope: Scope, steps: seq<Step>, st: State)
    requires ReachedBy(scope, steps, st)
    ensures exists a: nat, b: nat, c: nat, d: nat :: Splits(scope.verb, NonPush(st.sent), a, b, c, d)
  {
    OutputKeepsToGrammar(scope, steps, st);
    PushesDoNotMatter(scope.verb, st.sent);
    var a, b, c, d := Split(scope.verb, NonPush(st.sent));
  }

  /** An app that returns without having started a response has sent nothing but informational
      events, and gets exactly one 500, after which the stream is CLOSED. */
  lemma NeverStartedGets500(scope: Scope, steps: seq<Step>, st: State)
    requires ReachedBy(scope, steps, st)
    requires st.side.ops == [] && st.side.stream.state == REQUEST && !st.side.stream.closed
    ensures forall i :: 0 <= i < |NonPush(st.sent)| ==> NonPush(st.sent)[i].Info?
    ensures PerformAll(Trace(REQUEST, st.sent, []), Apply(st, Return).side.ops)
            == Trace(CLOSED, st.sent + [Response(500, [("content-length", "0"), ("connection", "close")]), EndBody,
                                        StreamClosed], [FullRecord(500)])
  {
    RunInv(Initial(scope), steps);
    InformationalOnly(scope.verb, st.sent);
    PerformError(Trace(REQUEST, st.sent, []), 500);
  }

  lemma InformationalOnly(verb: string, sent: seq<Event>)
    requires PhaseOf(verb, sent) == Before
    ensures forall i :: 0 <= i < |NonPush(sent)| ==> NonPush(sent)[i].Info?
  {
    PushesDoNotMatter(verb, sent);
    var a, b, c, d := Split(verb, NonPush(sent));
  }
}
