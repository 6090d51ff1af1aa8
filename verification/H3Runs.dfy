/** Runs of one HTTP/3 connection: HEADERS, the apps, their streams, and resets at any moment, even
    before the request they concern. */
module H3Runs {
  import opened Common
  import opened HttpStreams
  import opened HttpGrammar
  import opened H3Protocols

  /** One side for each HEADERS, and the id it came on: aioquic reports the trailers of a request as
      HEADERS too. `latest` is the side an id led to last, which is the one in `streams` while the id
      is known, and `refused` are the sides without an app, which only the reader moves. */
  datatype State = State(
    sides: seq<Side>,
    ids: seq<StreamId>,
    latest: map<StreamId, nat>,
    refused: set<nat>,
    table: Table)

  datatype Step =
    | Headers(s: StreamId, scope: Scope, refused: Option<int>)
    | Send(k: nat, m: Message)
    | Return(k: nat)
    | Advance(k: nat, asserts: bool)
    | PeerReset(s: StreamId)

  function Initial(): State { State([], [], map[], {}, Table({}, {})) }

  predicate HasSide(st: State, k: nat) { k < |st.sides| && k < |st.ids| }

  /** One sender per stream, which may go on sending after it returned. */
  predicate Enabled(st: State, step: Step) {
    match step
    case Headers(_, scope, _) => scope.version == H3
    case Send(k, m) => HasSide(st, k) && k !in st.refused && MaySend(st.sides[k], m) && !m.ServerPush?
    case Return(k) => HasSide(st, k) && k !in st.refused && st.sides[k].ops == []
    case Advance(k, _) => HasSide(st, k) && st.sides[k].ops != []
    case PeerReset(_) => true
  }

  function ResetStream(st: State, s: StreamId): State {
    st.(table := Reset(st.table, s),
        sides := if s in st.table.known && s in st.latest && st.latest[s] < |st.sides|
                 then st.sides[st.latest[s] := Told(st.sides[st.latest[s]])] else st.sides)
  }

  /** What is looked for: any call into aioquic, or one that starts a response. */
  datatype Aim = Anything | AnyResponse

  /** The operation calls `send_headers` or `send_data`, unless the id is in `_reset_streams`. */
  predicate Hit(op: Op, aim: Aim) {
    op.Emit? && !op.event.StreamClosed? && !op.event.Push? && (aim.AnyResponse? ==> op.event.Response?)
  }

  /** Side k is about to make such a call. */
  predicate Attempts(st: State, k: nat, aim: Aim) {
    && HasSide(st, k) && st.sides[k].ops != [] && Hit(st.sides[k].ops[0], aim)
    && OutcomeOf(st.table, st.ids[k], st.sides[k].ops[0].event) == Attempted
  }

  function Performed(st: State, k: nat, asserts: bool): State
    requires Enabled(st, Advance(k, asserts))
  {
    var op := st.sides[k].ops[0];
    var rest := st.(sides := st.sides[k := Advanced(st.sides[k])]);
    if !op.Emit? then rest
    else if Attempts(st, k, Anything) && asserts
    then ResetStream(rest, st.ids[k]).(table := AfterSend(st.table, st.ids[k], op.event, asserts))
    else rest.(table := AfterSend(st.table, st.ids[k], op.event, asserts))
  }

  function Apply(st: State, step: Step): State
    requires Enabled(st, step)
  {
    match step
    case Headers(s, scope, refused) =>
      st.(sides := st.sides + [if refused.Some? then RefusedSide(scope, refused.value) else NewSide(scope)],
          ids := st.ids + [s], latest := st.latest[s := |st.sides|], table := Entered(st.table, s),
          refused := if refused.Some? then st.refused + {|st.sides|} else st.refused)
    case Send(k, m) => st.(sides := st.sides[k := Sent(st.sides[k], m)])
    case Return(k) => st.(sides := st.sides[k := Returned(st.sides[k])])
    case Advance(k, asserts) => Performed(st, k, asserts)
    case PeerReset(s) => ResetStream(st, s)
  }

  /** What a run may do: no HEADERS on the ids in `quiet`, and apps that send after they returned only
      if `late`. */
  datatype Rules = Rules(quiet: set<StreamId>, late: bool)

  const ANY := Rules({}, true)

  predicate Allowed(r: Rules, st: State, step: Step) {
    && Enabled(st, step)
    && (step.Headers? ==> step.s !in r.quiet)
    && (step.Send? ==> r.late || !st.sides[step.k].returned)
  }

  function Run(r: Rules, st: State, steps: seq<Step>): Option<State>
    decreases |steps|
  {
    if steps == [] then Some(st)
    else if Allowed(r, st, steps[0]) then Run(r, Apply(st, steps[0]), steps[1..])
    else None
  }

  predicate ReachedBy(steps: seq<Step>, st: State) { Run(ANY, Initial(), steps) == Some(st) }

  // ---- what a side may still do -----------------------------------------------------------------------

  function After(state: HState, op: Op): HState { if op.Enter? then op.state else state }

  /** The state behind the operations that are left. */
  function AtEnd(state: HState, ops: seq<Op>): HState
    decreases |ops|
  {
    if ops == [] then state else AtEnd(After(state, ops[0]), ops[1..])
  }

  predicate Speaks(ops: seq<Op>, aim: Aim) { exists i :: 0 <= i < |ops| && Hit(ops[i], aim) }

  predicate Ends(ops: seq<Op>) { Emit(StreamClosed) in ops }

  /** The states from which a message can make the stream speak. */
  predicate Ready(state: HState, aim: Aim) { if aim.Anything? then state != CLOSED else state == REQUEST }

  function LastState(a: Side): HState { AtEnd(a.stream.state, a.ops) }

  /** `app`: the side has one. */
  predicate Sends(a: Side, app: bool, late: bool) { app && (late || !a.returned) }

  predicate MaySpeak(a: Side, app: bool, late: bool, aim: Aim) {
    Speaks(a.ops, aim) || (Sends(a, app, late) && Ready(LastState(a), aim))
  }

  /** It may emit StreamClosed. */
  predicate MayEnd(a: Side, app: bool, late: bool) {
    Ends(a.ops) || (app && !a.stream.closed) || (Sends(a, app, late) && LastState(a) != CLOSED)
  }

  /** It may emit StreamClosed in mid-response, for the return of its app, and speak after that. */
  predicate MayEndFirst(a: Side, app: bool, late: bool, aim: Aim) {
    late && aim.Anything? && app && LastState(a) != CLOSED && (Ends(a.ops) || !a.stream.closed)
  }

  predicate On(st: State, s: StreamId, k: nat) { HasSide(st, k) && st.ids[k] == s }

  predicate CanSpeak(st: State, s: StreamId, k: nat, late: bool, aim: Aim) {
    On(st, s, k) && MaySpeak(st.sides[k], k !in st.refused, late, aim)
  }

  predicate CanEnd(st: State, s: StreamId, k: nat, late: bool) {
    On(st, s, k) && MayEnd(st.sides[k], k !in st.refused, late)
  }

  predicate CanEndFirst(st: State, s: StreamId, k: nat, late: bool, aim: Aim) {
    On(st, s, k) && MayEndFirst(st.sides[k], k !in st.refused, late, aim)
  }

  predicate TwoOpen(st: State, s: StreamId, j: nat, k: nat, late: bool, aim: Aim) {
    j != k && CanEnd(st, s, j, late) && CanSpeak(st, s, k, late, aim)
  }

  /** The id is in `_reset_streams` and one of its streams can make the connection forget that, while
      another, or itself, has something to say; or it is not, and one has. */
  ghost predicate Exposed(st: State, s: StreamId, late: bool, aim: Aim) {
    if s in st.table.resets then
      || (exists k :: CanEndFirst(st, s, k, late, aim))
      || (exists j, k :: TwoOpen(st, s, j, k, late, aim))
    else exists k :: CanSpeak(st, s, k, late, aim)
  }

  // ---- the invariant ----------------------------------------------------------------------------------

  /** StreamClosed comes last, and a Response only once and on the way out of REQUEST. */
  predicate Orderly(state: HState, ops: seq<Op>)
    decreases |ops|
  {
    ops != [] ==>
      var op, rest := ops[0], ops[1..];
      && (op == Emit(StreamClosed) ==> rest == [])
      && (Hit(op, AnyResponse) ==> !Speaks(rest, AnyResponse) && AtEnd(state, rest) != REQUEST)
      && Orderly(After(state, op), rest)
  }

  predicate Tidy(a: Side) {
    && a.stream.scope.version == H3 && HasResponse(a.stream.(state := LastState(a)))
    && Orderly(a.stream.state, a.ops)
    && (a.returned && !a.stream.closed ==> LastState(a) != REQUEST)
    && (Ends(a.ops) ==> LastState(a) != REQUEST && (a.returned || LastState(a) == CLOSED))
  }

  predicate Shape(st: State) {
    && |st.ids| == |st.sides|
    && (forall s :: s in st.latest ==> st.latest[s] < |st.ids| && st.ids[st.latest[s]] == s)
    && forall k :: k in st.refused ==> k < |st.ids|
  }

  predicate Inv(st: State) { Shape(st) && forall k :: 0 <= k < |st.sides| ==> Tidy(st.sides[k]) }

  lemma Cons(ops: seq<Op>, aim: Aim)
    requires ops != []
    ensures Speaks(ops, aim) <==> Hit(ops[0], aim) || Speaks(ops[1..], aim)
    ensures Ends(ops) <==> ops[0] == Emit(StreamClosed) || Ends(ops[1..])
  {
    assert forall i :: 0 <= i < |ops| - 1 ==> ops[1..][i] == ops[i + 1];
    assert forall i :: 0 < i < |ops| ==> ops[i] == ops[1..][i - 1];
  }

  /** The grammar of HttpGrammar, applied to operations alone. */
  lemma {:induction false} FitsOrderly(p: Phase, s: Stream, ops: seq<Op>, returned: bool, logged: bool)
    requires Fits(p, s, ops, returned, logged)
    ensures Orderly(s.state, ops)
    ensures p != Before ==> !Speaks(ops, AnyResponse) && AtEnd(s.state, ops) != REQUEST
    ensures !returned ==> HasResponse(s.(state := AtEnd(s.state, ops)))
    ensures !returned && Ends(ops) ==> AtEnd(s.state, ops) == CLOSED
    decreases |ops|
  {
    if ops != [] {
      var op := ops[0];
      Cons(ops, AnyResponse);
      if op.Emit? {
        FitsOrderly(Next(s.scope.verb, p, op.event), s, ops[1..], returned, logged);
      } else if op.Enter? {
        FitsOrderly(p, s.(state := op.state), ops[1..], returned, logged);
      } else {
        FitsOrderly(p, s, ops[1..], returned, true);
      }
    }
  }

  /** Where a stream would stand had it sent what its state stands for. */
  function RestPhase(s: Stream): Phase
    requires HasResponse(s)
  {
    match s.state
    case REQUEST => Before
    case CLOSED => Over
    case _ => Open(s.response.value.status)
  }

  /** Nothing a side may do later was out of its reach before. */
  predicate Tamer(a: Side, b: Side, app: bool, late: bool, aim: Aim) {
    && (MaySpeak(b, app, late, aim) ==> MaySpeak(a, app, late, aim))
    && (MayEnd(b, app, late) ==> MayEnd(a, app, late))
    && (MayEndFirst(b, app, late, aim) ==> MayEndFirst(a, app, late, aim))
  }

  lemma SentTamer(a: Side, m: Message, late: bool, aim: Aim)
    requires Tidy(a) && MaySend(a, m) && !m.ServerPush?
    ensures Tidy(Sent(a, m)) && (Sends(a, true, late) ==> Tamer(a, Sent(a, m), true, late, aim))
  {
    var s, b := a.stream, Sent(a, m);
    PlanFits(RestPhase(s), s, m, false);
    FitsOrderly(RestPhase(s), b.stream, b.ops, false, false);
    if s.state == CLOSED {
      assert b == a;
    }
  }

  lemma ErrorOrderly(scope: Scope, status: int)
    ensures
      var ops := ErrorOps(status);
      Orderly(REQUEST, ops) && Ends(ops) && AtEnd(REQUEST, ops) == CLOSED
  {
    var s, ops := NewSide(scope).stream, ErrorOps(status);
    RefusedFits(scope, status);
    FitsOrderly(Before, s, ops, true, false);
    assert ops[4] == Emit(StreamClosed);
    assert ops[1..][1..] == ops[2..] && ops[2..][1..] == ops[3..] && ops[3..][1..] == ops[4..] && ops[4..][1..] == [];
    assert AtEnd(CLOSED, ops[2..]) == AtEnd(CLOSED, ops[3..]) == AtEnd(CLOSED, ops[4..]) == CLOSED;
  }

  lemma ReturnedTamer(a: Side, late: bool, aim: Aim)
    requires Tidy(a) && a.ops == []
    ensures Tidy(Returned(a)) && Tamer(a, Returned(a), true, late, aim)
    ensures !a.stream.closed ==> Ends(Returned(a).ops)
    ensures a.stream.state != REQUEST ==> LastState(Returned(a)) == a.stream.state
  {
    if !a.stream.closed && a.stream.state == REQUEST {
      ErrorOrderly(a.stream.scope, 500);
    } else {
      assert [Emit(StreamClosed)][1..] == [];
    }
  }

  lemma AdvancedTamer(a: Side, app: bool, late: bool, aim: Aim)
    requires Tidy(a) && a.ops != []
    ensures Tidy(Advanced(a)) && Tamer(a, Advanced(a), app, late, aim) && LastState(Advanced(a)) == LastState(a)
  {
    Cons(a.ops, aim);
  }

  lemma HeadersInv(st: State, s: StreamId, scope: Scope, refused: Option<int>)
    requires Inv(st) && scope.version == H3
    ensures Inv(Apply(st, Headers(s, scope, refused)))
  {
    if refused.Some? {
      ErrorOrderly(scope, refused.value);
    }
  }

  lemma PerformedInv(st: State, k: nat, asserts: bool)
    requires Inv(st) && Enabled(st, Advance(k, asserts))
    ensures Inv(Performed(st, k, asserts))
  {
    AdvancedTamer(st.sides[k], true, true, Anything);
  }

  lemma StepInv(st: State, step: Step)
    requires Inv(st) && Enabled(st, step)
    ensures Inv(Apply(st, step))
  {
    match step
    case Headers(s, scope, refused) => HeadersInv(st, s, scope, refused);
    case Send(k, m) => SentTamer(st.sides[k], m, true, Anything);
    case Return(k) => ReturnedTamer(st.sides[k], true, Anything);
    case Advance(k, asserts) => PerformedInv(st, k, asserts);
    case PeerReset(s) =>
  }

  lemma {:induction false} RunInv(r: Rules, st: State, steps: seq<Step>)
    requires Inv(st) && Run(r, st, steps).Some?
    ensures Inv(Run(r, st, steps).value)
    decreases |steps|
  {
    if steps != [] {
      StepInv(st, steps[0]);
      RunInv(r, Apply(st, steps[0]), steps[1..]);
    }
  }

  // ---- what is not exposed stays so -------------------------------------------------------------------

  /** The same on the id: what side k can do in st' it could do in st. */
  predicate TamerAt(st: State, st': State, s: StreamId, k: nat, late: bool, aim: Aim) {
    && (CanSpeak(st', s, k, late, aim) ==> CanSpeak(st, s, k, late, aim))
    && (CanEnd(st', s, k, late) ==> CanEnd(st, s, k, late))
    && (CanEndFirst(st', s, k, late, aim) ==> CanEndFirst(st, s, k, late, aim))
  }

  lemma SideTamer(st: State, st': State, s: StreamId, k: nat, late: bool, aim: Aim)
    requires st'.ids == st.ids && st'.refused == st.refused && |st'.sides| == |st.sides|
    requires On(st, s, k) ==> Tamer(st.sides[k], st'.sides[k], k !in st.refused, late, aim)
    ensures TamerAt(st, st', s, k, late, aim)
  {
  }

  lemma ResetTamer(st: State, s: StreamId, t: StreamId, k: nat, late: bool, aim: Aim)
    requires Inv(st)
    ensures TamerAt(st, ResetStream(st, t), s, k, late, aim)
  {
    SideTamer(st, ResetStream(st, t), s, k, late, aim);
  }

  lemma PerformedTamer(st: State, i: nat, asserts: bool, s: StreamId, k: nat, late: bool, aim: Aim)
    requires Inv(st) && Enabled(st, Advance(i, asserts))
    ensures TamerAt(st, Performed(st, i, asserts), s, k, late, aim)
  {
    var rest := st.(sides := st.sides[i := Advanced(st.sides[i])]);
    AdvancedTamer(st.sides[i], i !in st.refused, late, aim);
    if Attempts(st, i, Anything) && asserts {
      assert Performed(st, i, asserts) == ResetStream(rest, st.ids[i]);
      SideTamer(st, rest, s, k, late, aim);
      ResetTamer(rest, s, st.ids[i], k, late, aim);
    } else {
      SideTamer(st, Performed(st, i, asserts), s, k, late, aim);
    }
  }

  lemma HeadersTamer(st: State, t: StreamId, scope: Scope, refused: Option<int>,
                     s: StreamId, k: nat, late: bool, aim: Aim)
    requires Inv(st) && scope.version == H3 && s != t
    ensures TamerAt(st, Apply(st, Headers(t, scope, refused)), s, k, late, aim)
  {
    var st' := Apply(st, Headers(t, scope, refused));
    assert On(st', s, k) ==> On(st, s, k) && st'.sides[k] == st.sides[k] && (k in st'.refused <==> k in st.refused);
  }

  /** A step that brings no HEADERS on the id makes none of its streams less tame. */
  lemma StepTamer(r: Rules, st: State, step: Step, s: StreamId, k: nat, aim: Aim)
    requires Inv(st) && Allowed(r, st, step) && s in r.quiet
    ensures TamerAt(st, Apply(st, step), s, k, r.late, aim)
  {
    match step
    case Headers(t, scope, refused) => HeadersTamer(st, t, scope, refused, s, k, r.late, aim);
    case Send(i, m) =>
      SentTamer(st.sides[i], m, r.late, aim);
      SideTamer(st, Apply(st, step), s, k, r.late, aim);
    case Return(i) =>
      ReturnedTamer(st.sides[i], r.late, aim);
      SideTamer(st, Apply(st, step), s, k, r.late, aim);
    case Advance(i, asserts) => PerformedTamer(st, i, asserts, s, k, r.late, aim);
    case PeerReset(t) => ResetTamer(st, s, t, k, r.late, aim);
  }

  /** Only StreamClosed takes an id out of `_reset_streams`, and it is the last word of its side. */
  lemma Forgetting(st: State, step: Step, s: StreamId)
    requires Inv(st) && Enabled(st, step) && s in st.table.resets && s !in Apply(st, step).table.resets
    ensures step.Advance? && On(st, s, step.k) && st.sides[step.k].ops == [Emit(StreamClosed)]
    ensures Apply(st, step).sides == st.sides[step.k := Advanced(st.sides[step.k])]
    ensures Apply(st, step).refused == st.refused
  {
  }

  /** The step that forgets the reset exposes nothing that was not exposed. */
  lemma ForgettingExposes(r: Rules, st: State, step: Step, s: StreamId, k: nat, aim: Aim)
    requires Inv(st) && Allowed(r, st, step) && s in r.quiet
    requires s in st.table.resets && s !in Apply(st, step).table.resets
    requires CanSpeak(Apply(st, step), s, k, r.late, aim)
    ensures Exposed(st, s, r.late, aim)
  {
    Forgetting(st, step, s);
    if k == step.k {
      AdvancedTamer(st.sides[k], true, true, aim);
      assert CanEndFirst(st, s, k, r.late, aim);
    } else {
      StepTamer(r, st, step, s, k, aim);
      assert TwoOpen(st, s, step.k, k, r.late, aim);
    }
  }

  lemma StaysCovered(r: Rules, st: State, step: Step, s: StreamId, aim: Aim)
    requires Inv(st) && Allowed(r, st, step) && s in r.quiet && Exposed(Apply(st, step), s, r.late, aim)
    ensures Exposed(st, s, r.late, aim)
  {
    var st' := Apply(st, step);
    forall k: nat ensures TamerAt(st, st', s, k, r.late, aim) {
      StepTamer(r, st, step, s, k, aim);
    }
    if s !in st'.table.resets {
      var k: nat :| CanSpeak(st', s, k, r.late, aim);
      if s in st.table.resets {
        ForgettingExposes(r, st, step, s, k, aim);
      } else {
        assert TamerAt(st, st', s, k, r.late, aim);
      }
    } else if j: nat, k: nat :| TwoOpen(st', s, j, k, r.late, aim) {
      assert TamerAt(st, st', s, j, r.late, aim) && TamerAt(st, st', s, k, r.late, aim);
      assert TwoOpen(st, s, j, k, r.late, aim) && CanSpeak(st, s, k, r.late, aim);
    } else {
      var k: nat :| CanEndFirst(st', s, k, r.late, aim);
      assert TamerAt(st, st', s, k, r.late, aim);
      assert CanEndFirst(st, s, k, r.late, aim) && CanSpeak(st, s, k, r.late, aim);
    }
  }

  lemma {:induction false} OnlyTheExposed(r: Rules, st: State, steps: seq<Step>, s: StreamId, k: nat, aim: Aim)
    requires Inv(st) && Run(r, st, steps).Some? && s in r.quiet
    requires Attempts(Run(r, st, steps).value, k, aim) && Run(r, st, steps).value.ids[k] == s
    ensures Exposed(st, s, r.late, aim)
    decreases |steps|
  {
    if steps == [] {
      assert Speaks(st.sides[k].ops, aim);
      assert CanSpeak(st, s, k, r.late, aim);
    } else {
      StepInv(st, steps[0]);
      OnlyTheExposed(r, Apply(st, steps[0]), steps[1..], s, k, aim);
      StaysCovered(r, st, steps[0], s, aim);
    }
  }

  // ---- what is exposed is attempted -------------------------------------------------------------------

  lemma {:induction false} RunConcat(r: Rules, st: State, a: seq<Step>, b: seq<Step>)
    requires Run(r, st, a).Some?
    ensures Run(r, st, a + b) == Run(r, Run(r, st, a).value, b)
    decreases |a|
  {
    if a == [] {
      assert a + b == b;
    } else {
      assert (a + b)[1..] == a[1..] + b;
      RunConcat(r, Apply(st, a[0]), a[1..], b);
    }
  }

  lemma Extend(r: Rules, from: State, steps: seq<Step>, st: State, step: Step) returns (longer: seq<Step>, next: State)
    requires Run(r, from, steps) == Some(st) && Allowed(r, st, step)
    ensures Run(r, from, longer) == Some(next) && next == Apply(st, step) && longer == steps + [step]
  {
    RunConcat(r, from, steps, [step]);
    assert [step][1..] == [];
    return steps + [step], Apply(st, step);
  }

  /** Only side k has moved, and it has come to rest. */
  predicate Moved(st: State, last: State, k: nat) {
    && HasSide(st, k) && |last.sides| == |st.sides| && last.ids == st.ids && last.refused == st.refused
    && (forall j :: 0 <= j < |st.sides| && j != k ==> last.sides[j] == st.sides[j])
    && last.sides[k].ops == [] && st.table.resets - {st.ids[k]} <= last.table.resets <= st.table.resets
    && last.sides[k].stream.closed == st.sides[k].stream.closed
  }

  /** A side goes through all its operations. */
  lemma {:induction false} Drain(r: Rules, st: State, k: nat) returns (steps: seq<Step>, last: State)
    requires HasSide(st, k)
    ensures Run(r, st, steps) == Some(last) && Moved(st, last, k)
    ensures last.sides[k].stream == st.sides[k].stream.(state := LastState(st.sides[k]))
    ensures last.sides[k].returned == st.sides[k].returned
    ensures Ends(st.sides[k].ops) ==> st.ids[k] !in last.table.resets
    decreases |st.sides[k].ops|
  {
    if st.sides[k].ops == [] {
      return [], st;
    }
    var next := Apply(st, Advance(k, false));
    Cons(st.sides[k].ops, Anything);
    var rest;
    rest, last := Drain(r, next, k);
    steps := [Advance(k, false)] + rest;
    assert steps[1..] == rest;
  }

  /** The app sends a message, and its stream does what it can about it. */
  lemma Say(r: Rules, st: State, k: nat, m: Message) returns (steps: seq<Step>, last: State)
    requires Inv(st) && Allowed(r, st, Send(k, m))
    ensures Run(r, st, steps) == Some(last) && Moved(st, last, k) && Inv(last)
    ensures
      var a := Sent(st.sides[k], m);
      && last.sides[k].stream == a.stream.(state := LastState(a)) && last.sides[k].returned == a.returned
      && (Ends(a.ops) ==> st.ids[k] !in last.table.resets)
  {
    var sent := Apply(st, Send(k, m));
    var rest;
    rest, last := Drain(r, sent, k);
    steps := [Send(k, m)] + rest;
    assert steps[1..] == rest;
    RunInv(r, st, steps);
  }

  /** What an app would send to finish its response. */
  function NextMessage(state: HState): Message {
    match state
    case REQUEST => ResponseStart(200, [], false)
    case RESPONSE => ResponseBody([], false)
    case _ => ResponseTrailers([], false)
  }

  lemma ClosingEnds(before: seq<Op>, status: int)
    ensures Ends(before + ClosedOps(status)) && Speaks(before + ClosedOps(status), Anything)
  {
    assert (before + ClosedOps(status))[|before| + 3] == Emit(StreamClosed);
    assert (before + ClosedOps(status))[|before| + 1] == Emit(EndBody);
  }

  /** A start speaks, and whatever does not go on to the next state finishes the response. */
  lemma NextMessageMoves(a: Side)
    requires Tidy(a) && a.ops == [] && a.stream.state != CLOSED
    ensures MaySend(a, NextMessage(a.stream.state))
    ensures
      var b := Sent(a, NextMessage(a.stream.state));
      match a.stream.state
      case REQUEST => Speaks(b.ops, AnyResponse) && LastState(b) == RESPONSE
      case RESPONSE =>
        || (Ends(b.ops) && Speaks(b.ops, Anything))
        || (b.ops == [Enter(TRAILERS)] && LastState(b) == TRAILERS)
      case TRAILERS => Ends(b.ops) && Speaks(b.ops, Anything)
  {
    var b := Sent(a, NextMessage(a.stream.state));
    match a.stream.state
    case REQUEST =>
      assert Hit(b.ops[0], AnyResponse);
      assert b.ops[1..] == [Enter(RESPONSE)] && [Enter(RESPONSE)][1..] == [];
      assert AtEnd(REQUEST, [Enter(RESPONSE)]) == AtEnd(RESPONSE, []);
      assert AtEnd(REQUEST, b.ops) == AtEnd(REQUEST, b.ops[1..]);
    case RESPONSE =>
      ClosingEnds([], a.stream.response.value.status);
      assert [] + FinishOps(a.stream.response.value, false) == FinishOps(a.stream.response.value, false);
      assert [] + ClosedOps(a.stream.response.value.status) == ClosedOps(a.stream.response.value.status);
      assert [Enter(TRAILERS)][1..] == [];
    case TRAILERS =>
      ClosingEnds(if TakesTrailers(a.stream.scope) then [Emit(Trailers([]))] else [],
                  a.stream.response.value.status);
  }

  /** What speaks is attempted, whatever was reset before, once the id has left `_reset_streams`. */
  lemma {:induction false} SpeakingIsAttempted(r: Rules, st: State, k: nat, aim: Aim)
    returns (steps: seq<Step>, last: State)
    requires HasSide(st, k) && st.ids[k] !in st.table.resets && Speaks(st.sides[k].ops, aim)
    ensures Run(r, st, steps) == Some(last) && Attempts(last, k, aim) && last.ids == st.ids
    decreases |st.sides[k].ops|
  {
    var ops := st.sides[k].ops;
    if Hit(ops[0], aim) {
      return [], st;
    }
    var next := Apply(st, Advance(k, false));
    Cons(ops, aim);
    var rest;
    rest, last := SpeakingIsAttempted(r, next, k, aim);
    steps := [Advance(k, false)] + rest;
    assert steps[1..] == rest;
  }

  lemma Join(r: Rules, st: State, a: seq<Step>, mid: State, b: seq<Step>, last: State)
    requires Run(r, st, a) == Some(mid) && Run(r, mid, b) == Some(last)
    ensures Run(r, st, a + b) == Some(last)
  {
    RunConcat(r, st, a, b);
  }

  /** An app at rest that still may send can make its stream speak. */
  lemma SpeakUp(r: Rules, st: State, k: nat, aim: Aim) returns (steps: seq<Step>, last: State)
    requires Inv(st) && HasSide(st, k) && st.ids[k] !in st.table.resets && st.sides[k].ops == []
    requires Sends(st.sides[k], k !in st.refused, r.late) && Ready(st.sides[k].stream.state, aim)
    ensures Run(r, st, steps) == Some(last) && Attempts(last, k, aim) && last.ids == st.ids
    decreases st.sides[k].stream.state == RESPONSE
  {
    var m := NextMessage(st.sides[k].stream.state);
    NextMessageMoves(st.sides[k]);
    var sent, more := Apply(st, Send(k, m)), [];
    if Speaks(sent.sides[k].ops, aim) {
      more, last := SpeakingIsAttempted(r, sent, k, aim);
      steps := [Send(k, m)] + more;
      assert steps[1..] == more;
    } else {
      var mid;
      steps, mid := Say(r, st, k, m);
      more, last := SpeakUp(r, mid, k, aim);
      Join(r, st, steps, mid, more, last);
      steps := steps + more;
    }
  }

  lemma SpeakerIsAttempted(r: Rules, st: State, k: nat, aim: Aim) returns (steps: seq<Step>, last: State)
    requires Inv(st) && HasSide(st, k) && st.ids[k] !in st.table.resets
    requires MaySpeak(st.sides[k], k !in st.refused, r.late, aim)
    ensures Run(r, st, steps) == Some(last) && Attempts(last, k, aim) && last.ids == st.ids
  {
    if Speaks(st.sides[k].ops, aim) {
      steps, last := SpeakingIsAttempted(r, st, k, aim);
    } else {
      var mid, more;
      steps, mid := Drain(r, st, k);
      RunInv(r, st, steps);
      more, last := SpeakUp(r, mid, k, aim);
      Join(r, st, steps, mid, more, last);
      steps := steps + more;
    }
  }

  /** An app that goes on to the end of its response closes its stream. */
  lemma FinishForgets(r: Rules, st: State, k: nat) returns (steps: seq<Step>, last: State)
    requires Inv(st) && HasSide(st, k) && st.sides[k].ops == []
    requires Sends(st.sides[k], k !in st.refused, r.late) && st.sides[k].stream.state != CLOSED
    ensures Run(r, st, steps) == Some(last) && Moved(st, last, k) && Inv(last) && st.ids[k] !in last.table.resets
    decreases match st.sides[k].stream.state case REQUEST => 2 case RESPONSE => 1 case _ => 0
  {
    NextMessageMoves(st.sides[k]);
    var m := NextMessage(st.sides[k].stream.state);
    steps, last := Say(r, st, k, m);
    if !Ends(Sent(st.sides[k], m).ops) {
      var mid, more := last, [];
      more, last := FinishForgets(r, mid, k);
      Join(r, st, steps, mid, more, last);
      steps := steps + more;
    }
  }

  /** A return closes a stream that nobody has told. */
  lemma ReturnForgets(r: Rules, st: State, k: nat) returns (steps: seq<Step>, last: State)
    requires Inv(st) && HasSide(st, k) && st.sides[k].ops == [] && k !in st.refused && !st.sides[k].stream.closed
    ensures Run(r, st, steps) == Some(last) && Moved(st, last, k) && Inv(last) && st.ids[k] !in last.table.resets
    ensures st.sides[k].stream.state != REQUEST ==> last.sides[k].stream == st.sides[k].stream
  {
    ReturnedTamer(st.sides[k], true, Anything);
    var next, more := Apply(st, Return(k)), [];
    more, last := Drain(r, next, k);
    steps := [Return(k)] + more;
    assert steps[1..] == more;
    RunInv(r, st, steps);
  }

  lemma EndForgets(r: Rules, st: State, k: nat) returns (steps: seq<Step>, last: State)
    requires Inv(st) && HasSide(st, k) && MayEnd(st.sides[k], k !in st.refused, r.late)
    ensures Run(r, st, steps) == Some(last) && Moved(st, last, k) && Inv(last) && st.ids[k] !in last.table.resets
  {
    steps, last := Drain(r, st, k);
    RunInv(r, st, steps);
    if !Ends(st.sides[k].ops) {
      var mid, more := last, [];
      if mid.sides[k].stream.closed {
        more, last := FinishForgets(r, mid, k);
      } else {
        more, last := ReturnForgets(r, mid, k);
      }
      Join(r, st, steps, mid, more, last);
      steps := steps + more;
    }
  }

  /** One side alone: it closes its stream and still has something to say. */
  lemma EndFirstForgets(r: Rules, st: State, k: nat, aim: Aim) returns (steps: seq<Step>, last: State)
    requires Inv(st) && HasSide(st, k) && MayEndFirst(st.sides[k], k !in st.refused, r.late, aim)
    ensures Run(r, st, steps) == Some(last) && Moved(st, last, k) && Inv(last) && st.ids[k] !in last.table.resets
    ensures MaySpeak(last.sides[k], k !in last.refused, r.late, aim)
  {
    steps, last := Drain(r, st, k);
    RunInv(r, st, steps);
    if !Ends(st.sides[k].ops) {
      var mid, more := last, [];
      if mid.sides[k].stream.state == REQUEST {
        NextMessageMoves(mid.sides[k]);
        more, last := Say(r, mid, k, NextMessage(REQUEST));
        Join(r, st, steps, mid, more, last);
        steps, mid := steps + more, last;
      }
      more, last := ReturnForgets(r, mid, k);
      Join(r, st, steps, mid, more, last);
      steps := steps + more;
    }
  }

  lemma ExposedIsAttempted(r: Rules, st: State, s: StreamId, aim: Aim)
    returns (steps: seq<Step>, last: State, k: nat)
    requires Inv(st) && Exposed(st, s, r.late, aim)
    ensures Run(r, st, steps) == Some(last) && Attempts(last, k, aim) && last.ids[k] == s
  {
    var mid, more;
    if s !in st.table.resets {
      k :| CanSpeak(st, s, k, r.late, aim);
      steps, mid := [], st;
    } else if j: nat, i: nat :| TwoOpen(st, s, j, i, r.late, aim) {
      k := i;
      steps, mid := EndForgets(r, st, j);
    } else {
      k :| CanEndFirst(st, s, k, r.late, aim);
      steps, mid := EndFirstForgets(r, st, k, aim);
    }
    more, last := SpeakerIsAttempted(r, mid, k, aim);
    Join(r, st, steps, mid, more, last);
    steps := steps + more;
  }

  predicate LeadsTo(r: Rules, st: State, s: StreamId, steps: seq<Step>, k: nat, aim: Aim) {
    var last := Run(r, st, steps);
    last.Some? && Attempts(last.value, k, aim) && last.value.ids[k] == s
  }

  /** In every state that a run reaches, and for every id: without more HEADERS on it, a call into
      aioquic is attempted on it in some continuation exactly if it is exposed now. */
  lemma AttemptedExactlyIfExposed(steps: seq<Step>, st: State, s: StreamId, late: bool, aim: Aim)
    requires ReachedBy(steps, st)
    ensures (exists more, k :: LeadsTo(Rules({s}, late), st, s, more, k, aim)) <==> Exposed(st, s, late, aim)
  {
    var r := Rules({s}, late);
    RunInv(ANY, Initial(), steps);
    if Exposed(st, s, late, aim) {
      var more, last, k := ExposedIsAttempted(r, st, s, aim);
      assert LeadsTo(r, st, s, more, k, aim);
    }
    forall more, k | LeadsTo(r, st, s, more, k, aim) ensures Exposed(st, s, late, aim) {
      OnlyTheExposed(r, st, more, s, k, aim);
    }
  }
}
