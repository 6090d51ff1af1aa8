/** Runs of one HTTP/1.1 connection: the reader, one app per request, and whatever closes the
    connection, in any interleaving. */
module H11Runs {
  import opened Common
  import opened EventObjects
  import opened HttpStreams
  import opened HttpGrammar
  import opened H11Protocols

  /** `Refusing`: the reader itself answers a request that gets no app. `Parked(e)`: it waits on
      event object e of `can_read`. `Handing`: it waits for room in the app's queue. `Quit`: the
      client sends no more, or was too slow, and `handle(Closed)` has been called. */
  datatype Reader = Resting | Looping | Refusing | Parked(event: nat) | Handing | Quit

  /** One side per request, in the order of the requests, what each has handed to h11 or seen ignored,
      and how many messages wait in its app's queue, which has room for `room`. A side counts as
      returned while what it does is done for `app_send(None)`. `wire` is what the transport took, in
      its order. `telling`: requests whose StreamClosed has told their stream; `waiting`: those of
      them that still wait to put the disconnect. */
  datatype State = State(
    core: Core,
    sides: seq<Side>,
    sent: seq<seq<Event>>,
    wire: seq<Event>,
    reader: Reader,
    terminated: bool,
    telling: set<nat>,
    waiting: set<nat>,
    unread: seq<nat>,
    room: nat)

  datatype Step =
    | Arrive
    | PullRequest(scope: Scope, asksClose: bool, refused: Option<int>, buffered: bool)
    | PullData(buffered: bool)
    | PullEnd(buffered: bool)
    | PullNothing
    | Hand
    | Wake
    | Resume
    | Send(i: nat, m: Message)
    | Return(i: nat)
    | Advance(i: nat, fault: Fault, closes: bool)
    | Receive(i: nat)
    | PutDisconnect(i: nat)
    | Hangup
    | Lose
    | Forget
    | Terminate

  function Initial(room: nat): State { State(NewCore(), [], [], [], Resting, false, {}, {}, [], room) }

  function Verb(a: Side): string { a.stream.scope.verb }

  /** A put to the app of request i does not wait: there is room, or the app has left its queue. */
  predicate Takes(st: State, i: nat)
    requires i < |st.sides|
  {
    st.sides[i].returned || (i < |st.unread| && st.unread[i] < st.room)
  }

  /** A put that waits is served by the next `Receive`, the reader's first, or given up when the app has
      left its queue (`Hand`, `PutDisconnect`). */
  function PutTo(st: State, i: nat): State {
    if i < |st.unread| && st.unread[i] < st.room then st.(unread := st.unread[i := st.unread[i] + 1]) else st
  }

  /** `PullNothing` also finds bytes that are no whole event yet.
      Well-formed input: no bytes follow a request that asks for the connection to be closed, so h11
      fails on the client's side only once the response has begun. */
  predicate Enabled(st: State, step: Step) {
    var l := st.core.link;
    match step
    case Arrive => st.reader == Resting
    case PullRequest(scope, _, refused, _) =>
      && st.reader == Looping && l.theirs == Idle && l.buffered && !Framed(scope.version)
      && (refused.Some? ==> refused.value in {400, 404})
    case PullData(_) => st.reader == Looping && l.theirs == Sending && l.buffered
    case PullEnd(_) => st.reader == Looping && l.theirs == Sending
    case PullNothing =>
      && st.reader == Looping
      && (l.buffered ==> l.theirs in {Idle, Sending, Done}
                         || (l.theirs in {MustClose, Failed} && l.ours !in {Idle, Responding}))
    case Hand => st.reader == Handing && |st.sides| > 0 && st.sides[|st.sides| - 1].returned
    case Wake => st.reader.Parked? && Released(st.core.marks, st.reader.event)
    case Resume => st.reader == Refusing && |st.sides| > 0 && st.sides[|st.sides| - 1].ops == []
    case Send(i, m) => i < |st.sides| && MaySend(st.sides[i], m)
    case Return(i) => i < |st.sides| && st.sides[i].ops == []
    case Advance(i, _, _) => i < |st.sides| && i < |st.sent| && st.sides[i].ops != [] && i !in st.waiting
    case Receive(i) =>
      i < |st.unread| && (st.unread[i] > 0 || i in st.waiting || (st.reader == Handing && i == |st.sides| - 1))
    case PutDisconnect(i) => i in st.waiting && i < |st.sides| && st.sides[i].returned
    case Hangup => st.reader == Resting
    case Lose => true
    case Forget => st.core.gone || st.reader == Quit
    case Terminate => true
  }

  /** The live stream, which is the last that was created, is told that it is closed. */
  function TellLive(st: State): State {
    var last := |st.sides| - 1;
    if st.core.live && last >= 0 && !st.sides[last].stream.closed
    then PutTo(st, last).(sides := st.sides[last := Told(st.sides[last])])
    else st
  }

  function Lost(st: State): State { TellLive(st.(core := st.core.(gone := true))) }

  /** `_maybe_recycle` up to the wait for room in the queue of the app. */
  function Telling(st: State, i: nat): State
    requires i < |st.sides|
  {
    var wait := st.core.live && i == |st.sides| - 1 && !st.sides[i].stream.closed && !Takes(st, i);
    TellLive(st).(telling := st.telling + {i}, waiting := if wait then st.waiting + {i} else st.waiting)
  }

  /** `_maybe_recycle` from there on. */
  function Completed(st: State, i: nat, most: nat): State
    requires i < |st.sides| && st.sides[i].ops != []
  {
    st.(sides := st.sides[i := Advanced(st.sides[i])], telling := st.telling - {i},
        core := Recycled(st.core, st.terminated, most))
  }

  /** Any other event. */
  function Written(st: State, i: nat, fault: Fault, closes: bool, most: nat): State
    requires i < |st.sides| && i < |st.sent| && st.sides[i].ops != [] && st.sides[i].ops[0].Emit?
  {
    var e := st.sides[i].ops[0].event;
    var next := st.(core := st.core.(link := LinkAfter(st.core, e, fault, closes, most)));
    match FateOf(st.core.link, e, fault)
    case OnTheWire =>
      next.(sides := st.sides[i := Advanced(st.sides[i])], sent := st.sent[i := st.sent[i] + [e]],
            wire := if st.core.gone then st.wire else st.wire + [e])
    case Ignored => next.(sides := st.sides[i := Advanced(st.sides[i])], sent := st.sent[i := st.sent[i] + [e]])
    case Dropped => next.(sides := st.sides[i := Advanced(st.sides[i])])
    case Rejected => Thrown(next, i)
    case Raised => Thrown(next, i)
  }

  /** An emission of request i, `StreamClosed` in two steps. */
  function Emitted(st: State, i: nat, fault: Fault, closes: bool, most: nat): State
    requires Enabled(st, Advance(i, fault, closes)) && st.sides[i].ops[0].Emit?
  {
    if !st.sides[i].ops[0].event.StreamClosed? then Written(st, i, fault, closes, most)
    else if i !in st.telling then Telling(st, i)
    else Completed(st, i, most)
  }

  /** An error ends what was being done; out of app_send(None) it takes the whole connection with it. */
  function Thrown(st: State, i: nat): State
    requires i < |st.sides|
  {
    st.(sides := st.sides[i := st.sides[i].(ops := [])], core := st.core.(gone := st.core.gone || st.sides[i].returned))
  }

  /** `handle` of Body and EndBody. */
  function HandedOver(st: State): State {
    var last := |st.sides| - 1;
    if !st.core.live || last < 0 then st.(reader := Resting)
    else if st.sides[last].stream.closed then st
    else if Takes(st, last) then PutTo(st, last)
    else st.(reader := Handing)
  }

  function Pulled(st: State, step: Step): State
    requires Enabled(st, step) && (step.PullRequest? || step.PullData? || step.PullEnd? || step.PullNothing?)
  {
    var core := st.core;
    if step.PullRequest? then
      var link := AfterRequest(core.link, step.asksClose, step.buffered);
      var created := st.(core := core.(link := link, live := true), sent := st.sent + [[]], unread := st.unread + [0]);
      if step.refused.Some?
      then created.(sides := st.sides + [RefusedSide(step.scope, step.refused.value)], reader := Refusing)
      else created.(sides := st.sides + [NewSide(step.scope)],
                    core := created.core.(requests := core.requests + 1))
    else if step.PullData? then
      HandedOver(st.(core := core.(link := core.link.(buffered := step.buffered))))
    else if step.PullEnd? then
      HandedOver(st.(core := core.(link := AfterEnd(core.link, step.buffered))))
    else if !core.link.buffered || core.link.theirs in {Idle, Sending} then st.(reader := Resting)
    else if core.link.theirs == Done then
      var marks := Clear(core.marks);
      st.(core := core.(marks := marks), reader := Parked(Current(marks)))
    else Lost(st.(core := core.(link := Settled(core.link.(theirs := Failed))), reader := Resting))
  }

  /** A message of the app, which is no longer, or not, doing anything for its return. */
  function Resent(a: Side, m: Message): Side
    requires MaySend(a, m)
  {
    var b := Sent(a, m);
    if b.ops == [] then b else b.(returned := false)
  }

  function Apply(st: State, step: Step, most: nat): State
    requires Enabled(st, step)
  {
    match step
    case Arrive => st.(reader := Looping, core := st.core.(link := st.core.link.(buffered := true)))
    case PullRequest(_, _, _, _) => Pulled(st, step)
    case PullData(_) => Pulled(st, step)
    case PullEnd(_) => Pulled(st, step)
    case PullNothing => Pulled(st, step)
    case Hand => st.(reader := Looping)
    case Wake => st.(reader := Looping)
    case Resume =>
      var last := |st.sides| - 1;
      st.(reader := Looping, core := st.core.(requests := st.core.requests + 1),
          sides := st.sides[last := Told(st.sides[last])])
    case Send(i, m) => st.(sides := st.sides[i := Resent(st.sides[i], m)])
    case Return(i) => st.(sides := st.sides[i := Returned(st.sides[i])])
    case Advance(i, fault, closes) =>
      if st.sides[i].ops[0].Emit? then Emitted(st, i, fault, closes, most)
      else st.(sides := st.sides[i := Advanced(st.sides[i])])
    case Receive(i) =>
      if st.reader == Handing && i == |st.sides| - 1 then st.(reader := Looping)
      else if i in st.waiting then st.(waiting := st.waiting - {i})
      else st.(unread := st.unread[i := st.unread[i] - 1])
    case PutDisconnect(i) => st.(waiting := st.waiting - {i})
    case Hangup => TellLive(st.(reader := Quit))
    case Lose => Lost(st)
    case Forget => st.(core := st.core.(live := false))
    case Terminate => st.(terminated := true)
  }

  function Run(st: State, steps: seq<Step>, most: nat): Option<State>
    decreases |steps|
  {
    if steps == [] then Some(st)
    else if Enabled(st, steps[0]) then Run(Apply(st, steps[0], most), steps[1..], most)
    else None
  }

  // ---- the invariant while the transport takes bytes -------------------------------------------------

  /** A stream that can do nothing any more, whatever its app does. */
  predicate Silent(a: Side) {
    a.ops == [] && a.stream.state == CLOSED && a.stream.closed && !Framed(a.stream.scope.version)
  }

  /** h11's state goes with how far the response has come. */
  predicate Agrees(p: Phase, ours: Peer) {
    match p
    case Before => ours == Responding
    case Open(status) => ours == if status >= 200 then Sending else Responding
    case Trailing => ours in {Sending, Responding}
    case Ended => ours in {Done, MustClose}
    case Over => false
    case Bad => false
  }

  /** An h11 failure leaves the app to go on alone; it still ends by closing its stream. */
  predicate Astray(a: Side) {
    a.returned ==> a.ops != [] && a.ops[|a.ops| - 1] == Emit(StreamClosed)
  }

  predicate Closers(ops: seq<Op>) {
    forall i :: 0 <= i < |ops| && ops[i].Emit? && ops[i].event.Response? ==> AsksClose(ops[i].event.headers)
  }

  /** A refused request is only answered with `connection: close`. */
  predicate RefusingOk(a: Side, l: Link) {
    a.returned && Closers(a.ops) && (l.ours in {Sending, Done} ==> !l.keepAlive)
  }

  predicate LinkOk(l: Link, requests: nat, most: nat) {
    && l.theirs in {Sending, Done, MustClose} && l.ours in {Responding, Sending, Done, MustClose, Failed}
    && Settled(l) == l
    && (l.ours in {Sending, Done} && l.keepAlive ==> requests < most)
  }

  /** The last request, until its response is complete and the connection recycled. `told`: by its own
      StreamClosed; `ended`: the reader has told it instead. */
  predicate LiveOk(a: Side, sent: seq<Event>, l: Link, told: bool, ended: bool) {
    && !Framed(a.stream.scope.version)
    && a.stream.closed == (told || ended)
    && (told ==> a.ops != [] && a.ops[0] == Emit(StreamClosed))
    && (if l.ours == Failed then ended || Astray(a)
        else
          && SideFits(a) && Agrees(a.phase, l.ours) && a.phase == PhaseOf(Verb(a), sent)
          && (a.phase == Ended ==> a.stream.state == CLOSED))
  }

  predicate Finished(a: Side, sent: seq<Event>) { Silent(a) && PhaseOf(Verb(a), sent) == Ended }

  /** HTTP/1.1 carries heads, bodies, windows of files and ends; no hints, trailers or pushes. */
  function Shown(e: Event): seq<Event> {
    match e
    case Response(_, _) => [e]
    case Body(_) => [e]
    case ZeroCopySend(_, _) => [e]
    case EndBody => [e]
    case Info(_) => []
    case Trailers(_) => []
    case Push(_, _) => []
    case StreamClosed => []
  }

  /** What the events come to on the wire. */
  function Visible(sent: seq<Event>): seq<Event> {
    if sent == [] then [] else Visible(sent[..|sent| - 1]) + Shown(sent[|sent| - 1])
  }

  /** The responses one after the other. */
  function Responses(sent: seq<seq<Event>>): seq<Event> {
    if sent == [] then [] else Responses(sent[..|sent| - 1]) + Visible(sent[|sent| - 1])
  }

  predicate Earlier(st: State, n: nat)
    requires n <= |st.sides| == |st.sent|
  {
    forall i :: 0 <= i < n ==> Finished(st.sides[i], st.sent[i])
  }

  predicate Waiting(st: State) { st.reader.Parked? && !Released(st.core.marks, st.reader.event) }

  /** A request is under way until the connection is recycled. */
  predicate Busy(st: State) { st.core.link.theirs != Idle }

  predicate OpenOk(st: State, most: nat) {
    var n := |st.sides|;
    && n == |st.sent| == |st.unread| && st.waiting <= st.telling
    && st.core.requests == (if st.reader == Refusing then n - 1 else n)
    && (if Busy(st) then
          && n > 0 && n <= Max(1, most) && Earlier(st, n - 1)
          && st.telling <= {n - 1}
          && LinkOk(st.core.link, n, most)
          && LiveOk(st.sides[n - 1], st.sent[n - 1], st.core.link, n - 1 in st.telling, st.reader == Quit)
          && (st.reader == Refusing ==> RefusingOk(st.sides[n - 1], st.core.link))
          && (st.reader != Quit ==> st.core.live)
        else
          && Earlier(st, n) && st.telling == {} && (n > 0 ==> n < most) && !st.core.live
          && st.core.link == NewLink().(buffered := st.core.link.buffered))
    && (st.reader == Refusing ==> Busy(st))
    && (Waiting(st) ==> st.core.link.theirs in {Done, MustClose} && st.core.link.buffered)
  }

  predicate ReaderOk(st: State) { st.reader.Parked? ==> Reachable(st.core.marks, st.reader.event) }

  /** The wire holds the responses in the order of the requests. */
  predicate WireOk(st: State) { st.wire == Responses(st.sent) }

  predicate Inv(st: State, most: nat) { ReaderOk(st) && (!st.core.gone ==> OpenOk(st, most) && WireOk(st)) }

  // ---- every step keeps it --------------------------------------------------------------------------

  lemma VisibleSnoc(sent: seq<Event>, e: Event)
    ensures Visible(sent + [e]) == Visible(sent) + Shown(e)
  {
    assert (sent + [e])[..|sent|] == sent;
  }

  lemma ResponsesSnoc(sent: seq<seq<Event>>, last: seq<Event>)
    ensures Responses(sent + [last]) == Responses(sent) + Visible(last)
  {
    assert (sent + [last])[..|sent|] == sent;
  }

  lemma ResponsesGrow(sent: seq<seq<Event>>, e: Event)
    requires sent != []
    ensures
      var last := |sent| - 1;
      Responses(sent[last := sent[last] + [e]]) == Responses(sent) + Shown(e)
  {
    var last := |sent| - 1;
    VisibleSnoc(sent[last], e);
    var before, shown := Responses(sent[..last]), Visible(sent[last]);
    assert sent[last := sent[last] + [e]][..last] == sent[..last];
    Associate(before, shown, Shown(e));
  }

  lemma AdvancedFits(a: Side)
    requires SideFits(a) && a.ops != []
    ensures SideFits(Advanced(a))
    ensures a.ops[0].Emit? ==> Advanced(a).phase != Bad && (Advanced(a).phase == Ended ==> a.stream.state == CLOSED)
    ensures a.ops[0].Enter? ==> a.stream.state != CLOSED
    ensures a.ops[0] == Emit(StreamClosed) ==> a.ops[1..] == []
  {
  }

  lemma AstrayTail(ops: seq<Op>)
    requires ops != [] && ops[|ops| - 1] == Emit(StreamClosed) && ops[0] != Emit(StreamClosed)
    ensures ops[1..] != [] && ops[1..][|ops| - 2] == Emit(StreamClosed)
  {
  }

  lemma TailClosers(ops: seq<Op>)
    requires ops != [] && Closers(ops)
    ensures Closers(ops[1..])
  {
    assert forall i :: 0 <= i < |ops| - 1 ==> ops[1..][i] == ops[i + 1];
  }

  lemma EarlierKeeps(st: State, st': State, n: nat)
    requires n <= |st.sides| == |st.sent| && Earlier(st, n)
    requires n <= |st'.sides| == |st'.sent|
    requires forall i :: 0 <= i < n ==> st'.sides[i] == st.sides[i] && st'.sent[i] == st.sent[i]
    ensures Earlier(st', n)
  {
  }

  /** Nothing is left to do for the requests that are done. */
  lemma OnlyTheLastAdvances(st: State, most: nat, i: nat)
    requires OpenOk(st, most) && i < |st.sides| && st.sides[i].ops != []
    ensures Busy(st) && i == |st.sides| - 1
  {
    assert i < |st.sides| - 1 || !Busy(st) ==> Finished(st.sides[i], st.sent[i]);
  }

  // ---- the last request ----

  lemma LiveSend(a: Side, sent: seq<Event>, l: Link, told: bool, ended: bool, m: Message)
    requires LiveOk(a, sent, l, told, ended) && MaySend(a, m)
    ensures LiveOk(Resent(a, m), sent, l, told, ended) && (!ended ==> !a.returned)
  {
    if l.ours != Failed {
      PlanFits(a.phase, a.stream, m, a.logged);
      assert a.phase != Ended;
    }
  }

  lemma LiveReturn(a: Side, sent: seq<Event>, l: Link, told: bool, ended: bool)
    requires LiveOk(a, sent, l, told, ended) && a.ops == []
    ensures LiveOk(Returned(a), sent, l, told, ended) && (!ended ==> !a.returned)
  {
    if l.ours != Failed {
      ReturnedFits(a);
    }
  }

  lemma LiveTold(a: Side, sent: seq<Event>, l: Link, ended: bool)
    requires LiveOk(a, sent, l, false, ended) && a.ops != [] && a.ops[0] == Emit(StreamClosed)
    ensures LiveOk(if a.stream.closed then a else Told(a), sent, l, true, ended)
  {
    if l.ours != Failed {
      ToldFits(a);
    }
  }

  lemma LiveEnded(a: Side, sent: seq<Event>, l: Link, told: bool)
    requires LiveOk(a, sent, l, told, false)
    ensures LiveOk(if a.stream.closed then a else Told(a), sent, l, told, true)
  {
    if l.ours != Failed {
      ToldFits(a);
    }
  }

  lemma LiveLocal(a: Side, sent: seq<Event>, l: Link, told: bool, ended: bool)
    requires LiveOk(a, sent, l, told, ended) && a.ops != [] && !a.ops[0].Emit?
    ensures LiveOk(Advanced(a), sent, l, told, ended)
  {
    if l.ours != Failed {
      AdvancedFits(a);
    } else if a.returned && !ended {
      AstrayTail(a.ops);
    }
  }

  /** h11 accepts an event exactly where the grammar has it. */
  lemma LinkAgrees(c: Core, a: Side, fault: Fault, closes: bool, most: nat)
    requires SideFits(a) && Agrees(a.phase, c.link.ours) && a.ops != [] && a.ops[0].Emit?
    requires FateOf(c.link, a.ops[0].event, fault) in {OnTheWire, Ignored} && !a.ops[0].event.StreamClosed?
    requires c.link.theirs in {Sending, Done, MustClose}
    ensures Agrees(Advanced(a).phase, LinkAfter(c, a.ops[0].event, fault, closes, most).ours)
  {
    AdvancedFits(a);
  }

  lemma LinkStays(c: Core, e: Event, fault: Fault, closes: bool, n: nat, most: nat)
    requires LinkOk(c.link, n, most) && !e.StreamClosed?
    requires c.requests == n || (e.Response? ==> AsksClose(e.headers))
    ensures
      var l := LinkAfter(c, e, fault, closes, most);
      LinkOk(l, n, most) && l.buffered == c.link.buffered
      && (c.link.theirs in {Done, MustClose} ==> l.theirs in {Done, MustClose})
    ensures !FateOf(c.link, e, fault).Dropped?
    ensures FateOf(c.link, e, fault).Raised? ==> LinkAfter(c, e, fault, closes, most).ours == Failed
    ensures c.link.ours == Failed ==> LinkAfter(c, e, fault, closes, most).ours == Failed
                                      && FateOf(c.link, e, fault) in {Ignored, Rejected, Raised}
  {
  }

  lemma LiveTaken(a: Side, sent: seq<Event>, c: Core, ended: bool, fault: Fault, closes: bool, most: nat)
    requires LiveOk(a, sent, c.link, false, ended) && a.ops != [] && a.ops[0].Emit?
    requires !a.ops[0].event.StreamClosed? && c.link.theirs in {Sending, Done, MustClose}
    requires FateOf(c.link, a.ops[0].event, fault) in {OnTheWire, Ignored}
    ensures
      var e := a.ops[0].event;
      LiveOk(Advanced(a), sent + [e], LinkAfter(c, e, fault, closes, most), false, ended)
  {
    if c.link.ours != Failed {
      LinkAgrees(c, a, fault, closes, most);
      AdvancedFits(a);
      PhaseSnoc(Verb(a), sent, a.ops[0].event);
    } else if a.returned && !ended {
      AstrayTail(a.ops);
    }
  }

  /** An error leaves the stream where it was before the event: for faulty headers, where a response may
      still start. */
  lemma LiveThrown(a: Side, sent: seq<Event>, c: Core, ended: bool, fault: Fault, closes: bool, most: nat)
    requires LiveOk(a, sent, c.link, false, ended) && a.ops != [] && a.ops[0].Emit? && !a.returned
    requires FateOf(c.link, a.ops[0].event, fault) in {Rejected, Raised}
    requires c.link.theirs in {Sending, Done, MustClose}
    ensures LiveOk(a.(ops := []), sent, LinkAfter(c, a.ops[0].event, fault, closes, most), false, ended)
  {
  }

  predicate IsWithLast(st': State, st: State, a: Side, sent: seq<Event>, l: Link, telling: set<nat>)
    requires |st.sides| == |st.sent| > 0
  {
    var last := |st.sides| - 1;
    && st'.sides == st.sides[last := a] && st'.sent == st.sent[last := sent] && |st'.unread| == |st.unread|
    && st'.telling == telling && st'.waiting <= telling && st'.core == st.core.(link := l) && st'.reader == st.reader
  }

  /** The last request and the link may become this. */
  predicate Fitting(st: State, a: Side, sent: seq<Event>, l: Link, telling: set<nat>, most: nat) {
    && LinkOk(l, |st.sides|, most) && telling <= {|st.sides| - 1}
    && LiveOk(a, sent, l, |st.sides| - 1 in telling, st.reader == Quit)
    && (st.reader == Refusing ==> RefusingOk(a, l))
    && l.buffered == st.core.link.buffered
    && (st.core.link.theirs in {Done, MustClose} ==> l.theirs in {Done, MustClose})
  }

  lemma LastUpdate(st: State, st': State, a: Side, sent: seq<Event>, l: Link, telling: set<nat>, most: nat)
    requires OpenOk(st, most) && Busy(st) && Fitting(st, a, sent, l, telling, most)
    requires IsWithLast(st', st, a, sent, l, telling)
    ensures OpenOk(st', most)
  {
    EarlierKeeps(st, st', |st.sides| - 1);
  }

  predicate LastEmits(st: State) {
    && |st.sides| == |st.sent| > 0
    && st.sides[|st.sides| - 1].ops != [] && st.sides[|st.sides| - 1].ops[0].Emit?
  }

  function LastEvent(st: State): Event
    requires LastEmits(st)
  {
    st.sides[|st.sides| - 1].ops[0].event
  }

  // ---- messages and returns ----

  lemma SilentSend(a: Side, m: Message)
    requires Silent(a) && MaySend(a, m)
    ensures Resent(a, m) == a
  {
  }

  lemma SilentStays(st: State, i: nat, m: Message, most: nat)
    requires i < |st.sides| && Silent(st.sides[i]) && Enabled(st, Send(i, m))
    ensures Apply(st, Send(i, m), most) == st
  {
    SilentSend(st.sides[i], m);
    assert st.sides[i := st.sides[i]] == st.sides;
  }

  lemma SendInv(st: State, i: nat, m: Message, most: nat)
    requires OpenOk(st, most) && Enabled(st, Send(i, m))
    ensures OpenOk(Apply(st, Send(i, m), most), most)
  {
    if Busy(st) && i == |st.sides| - 1 {
      LiveSend(st.sides[i], st.sent[i], st.core.link, i in st.telling, st.reader == Quit, m);
      assert st.sent[i := st.sent[i]] == st.sent;
      LastUpdate(st, Apply(st, Send(i, m), most), Resent(st.sides[i], m), st.sent[i], st.core.link, st.telling, most);
    } else {
      assert Finished(st.sides[i], st.sent[i]);
      SilentStays(st, i, m, most);
    }
  }

  lemma SilentReturn(st: State, i: nat, most: nat)
    requires OpenOk(st, most) && Enabled(st, Return(i)) && Finished(st.sides[i], st.sent[i])
    requires i < |st.sides| - 1 || !Busy(st)
    ensures OpenOk(Apply(st, Return(i), most), most)
  {
  }

  lemma ReturnInv(st: State, i: nat, most: nat)
    requires OpenOk(st, most) && Enabled(st, Return(i))
    ensures OpenOk(Apply(st, Return(i), most), most)
  {
    if Busy(st) && i == |st.sides| - 1 {
      LiveReturn(st.sides[i], st.sent[i], st.core.link, i in st.telling, st.reader == Quit);
      assert st.sent[i := st.sent[i]] == st.sent;
      LastUpdate(st, Apply(st, Return(i), most), Returned(st.sides[i]), st.sent[i], st.core.link, st.telling, most);
    } else {
      assert Finished(st.sides[i], st.sent[i]);
      SilentReturn(st, i, most);
    }
  }

  // ---- emissions ----

  lemma RefusingStays(c: Core, a: Side, fault: Fault, closes: bool, most: nat)
    requires RefusingOk(a, c.link) && a.ops != [] && a.ops[0].Emit? && !a.ops[0].event.StreamClosed?
    ensures RefusingOk(Advanced(a), LinkAfter(c, a.ops[0].event, fault, closes, most))
  {
    TailClosers(a.ops);
  }

  lemma ThrownInv(st: State, fault: Fault, closes: bool, most: nat)
    requires OpenOk(st, most) && Busy(st) && !st.core.gone && LastEmits(st) && !LastEvent(st).StreamClosed?
    requires FateOf(st.core.link, LastEvent(st), fault) in {Rejected, Raised} && !st.sides[|st.sides| - 1].returned
    requires |st.sides| - 1 !in st.waiting
    ensures OpenOk(Written(st, |st.sides| - 1, fault, closes, most), most)
  {
    var last := |st.sides| - 1;
    var a := st.sides[last];
    LinkStays(st.core, LastEvent(st), fault, closes, last + 1, most);
    LiveThrown(a, st.sent[last], st.core, st.reader == Quit, fault, closes, most);
    assert st.sent[last := st.sent[last]] == st.sent;
    LastUpdate(st, Written(st, last, fault, closes, most), a.(ops := []), st.sent[last],
               LinkAfter(st.core, LastEvent(st), fault, closes, most), st.telling, most);
  }

  lemma TakenParts(st: State, fault: Fault, closes: bool, most: nat)
    requires OpenOk(st, most) && Busy(st) && LastEmits(st) && !LastEvent(st).StreamClosed?
    requires FateOf(st.core.link, LastEvent(st), fault) !in {Rejected, Raised}
    ensures
      var last := |st.sides| - 1;
      Fitting(st, Advanced(st.sides[last]), st.sent[last] + [LastEvent(st)],
              LinkAfter(st.core, LastEvent(st), fault, closes, most), st.telling, most)
  {
    var last := |st.sides| - 1;
    if st.reader == Refusing {
      RefusingStays(st.core, st.sides[last], fault, closes, most);
    }
    LinkStays(st.core, LastEvent(st), fault, closes, last + 1, most);
    LiveTaken(st.sides[last], st.sent[last], st.core, st.reader == Quit, fault, closes, most);
  }

  lemma SendingInv(st: State, fault: Fault, closes: bool, most: nat)
    requires OpenOk(st, most) && Busy(st) && !st.core.gone && LastEmits(st) && !LastEvent(st).StreamClosed?
    requires FateOf(st.core.link, LastEvent(st), fault) !in {Rejected, Raised}
    requires |st.sides| - 1 !in st.waiting
    ensures OpenOk(Written(st, |st.sides| - 1, fault, closes, most), most)
  {
    var last := |st.sides| - 1;
    TakenParts(st, fault, closes, most);
    LinkStays(st.core, LastEvent(st), fault, closes, last + 1, most);
    LastUpdate(st, Written(st, last, fault, closes, most), Advanced(st.sides[last]), st.sent[last] + [LastEvent(st)],
               LinkAfter(st.core, LastEvent(st), fault, closes, most), st.telling, most);
  }

  lemma TellingInv(st: State, most: nat)
    requires OpenOk(st, most) && Busy(st) && !st.core.gone && LastEmits(st) && LastEvent(st).StreamClosed?
    requires |st.sides| - 1 !in st.telling
    ensures OpenOk(Telling(st, |st.sides| - 1), most)
  {
    var last := |st.sides| - 1;
    var a := st.sides[last];
    LiveTold(a, st.sent[last], st.core.link, st.reader == Quit);
    assert st.sent[last := st.sent[last]] == st.sent && st.sides[last := a] == st.sides;
    LastUpdate(st, Telling(st, last), if a.stream.closed then a else Told(a), st.sent[last], st.core.link,
               st.telling + {last}, most);
  }

  /** A connection is only kept after a complete response, and its stream is silent from then on. */
  lemma RecycleInv(st: State, most: nat)
    requires ReaderOk(st) && OpenOk(st, most) && Busy(st) && !st.core.gone && LastEmits(st)
    requires LastEvent(st).StreamClosed? && |st.sides| - 1 in st.telling && |st.sides| - 1 !in st.waiting
    ensures
      var st' := Completed(st, |st.sides| - 1, most);
      !st'.core.gone ==> OpenOk(st', most)
  {
    var last := |st.sides| - 1;
    var st' := Completed(st, last, most);
    if !st'.core.gone {
      AdvancedFits(st.sides[last]);
      assert Finished(st'.sides[last], st'.sent[last]);
      EarlierKeeps(st, st', last);
    }
  }

  lemma LocalInv(st: State, most: nat)
    requires OpenOk(st, most) && Busy(st)
    requires st.sides[|st.sides| - 1].ops != [] && !st.sides[|st.sides| - 1].ops[0].Emit?
    ensures OpenOk(st.(sides := st.sides[|st.sides| - 1 := Advanced(st.sides[|st.sides| - 1])]), most)
  {
    var last := |st.sides| - 1;
    var a := st.sides[last];
    if st.reader == Refusing {
      TailClosers(a.ops);
    }
    LiveLocal(a, st.sent[last], st.core.link, last in st.telling, st.reader == Quit);
    assert st.sent[last := st.sent[last]] == st.sent;
    LastUpdate(st, st.(sides := st.sides[last := Advanced(a)]), Advanced(a), st.sent[last], st.core.link,
               st.telling, most);
  }

  lemma AdvanceInv(st: State, i: nat, fault: Fault, closes: bool, most: nat)
    requires ReaderOk(st) && OpenOk(st, most) && !st.core.gone && Enabled(st, Advance(i, fault, closes))
    ensures
      var st' := Apply(st, Advance(i, fault, closes), most);
      !st'.core.gone ==> OpenOk(st', most)
  {
    OnlyTheLastAdvances(st, most, i);
    if st.sides[i].ops[0].Emit? {
      EmittedInv(st, fault, closes, most);
    } else {
      LocalInv(st, most);
    }
  }

  lemma ThrownFromReturn(st: State, fault: Fault, closes: bool, most: nat)
    requires LastEmits(st) && FateOf(st.core.link, LastEvent(st), fault) in {Rejected, Raised}
    requires st.sides[|st.sides| - 1].returned
    ensures Written(st, |st.sides| - 1, fault, closes, most).core.gone
  {
  }

  lemma WrittenInv(st: State, fault: Fault, closes: bool, most: nat)
    requires OpenOk(st, most) && Busy(st) && !st.core.gone && LastEmits(st) && !LastEvent(st).StreamClosed?
    requires |st.sides| - 1 !in st.waiting
    ensures
      var st' := Written(st, |st.sides| - 1, fault, closes, most);
      !st'.core.gone ==> OpenOk(st', most)
  {
    if FateOf(st.core.link, LastEvent(st), fault) !in {Rejected, Raised} {
      SendingInv(st, fault, closes, most);
    } else if st.sides[|st.sides| - 1].returned {
      ThrownFromReturn(st, fault, closes, most);
    } else {
      ThrownInv(st, fault, closes, most);
    }
  }

  lemma EmittedInv(st: State, fault: Fault, closes: bool, most: nat)
    requires ReaderOk(st) && OpenOk(st, most) && Busy(st) && !st.core.gone && LastEmits(st)
    requires |st.sides| - 1 !in st.waiting
    ensures
      var st' := Emitted(st, |st.sides| - 1, fault, closes, most);
      !st'.core.gone ==> OpenOk(st', most)
  {
    var last := |st.sides| - 1;
    var st' := Emitted(st, last, fault, closes, most);
    if !LastEvent(st).StreamClosed? {
      assert st' == Written(st, last, fault, closes, most);
      WrittenInv(st, fault, closes, most);
    } else if last !in st.telling {
      assert st' == Telling(st, last);
      TellingInv(st, most);
    } else {
      assert st' == Completed(st, last, most);
      RecycleInv(st, most);
    }
  }

  // ---- the reader ----

  /** A request that has just come in, with an app or refused. */
  lemma NewLive(l: Link, step: Step, n: nat, most: nat)
    requires l == NewLink().(buffered := l.buffered) && step.PullRequest? && !Framed(step.scope.version)
    ensures
      var l' := AfterRequest(l, step.asksClose, step.buffered);
      var a := if step.refused.Some? then RefusedSide(step.scope, step.refused.value) else NewSide(step.scope);
      LinkOk(l', n, most) && LiveOk(a, [], l', false, false) && (step.refused.Some? ==> RefusingOk(a, l'))
  {
    if step.refused.Some? {
      RefusedFits(step.scope, step.refused.value);
    }
  }

  lemma NowBusy(st: State, st': State, most: nat)
    requires OpenOk(st, most) && !Busy(st) && Busy(st') && st.reader == Looping
    requires |st'.sides| == |st.sides| + 1 && st'.sent == st.sent + [[]] && st'.unread == st.unread + [0]
    requires forall i :: 0 <= i < |st.sides| ==> st'.sides[i] == st.sides[i]
    requires st'.core.live && st'.telling == st'.waiting == {}
    requires LinkOk(st'.core.link, |st'.sides|, most)
    requires LiveOk(st'.sides[|st.sides|], [], st'.core.link, false, false)
    requires || (st'.reader == Refusing && st'.core.requests == st.core.requests
                 && RefusingOk(st'.sides[|st.sides|], st'.core.link))
             || (st'.reader == Looping && st'.core.requests == st.core.requests + 1)
    ensures OpenOk(st', most)
  {
    EarlierKeeps(st, st', |st.sides|);
  }

  lemma RequestInv(st: State, step: Step, most: nat)
    requires OpenOk(st, most) && step.PullRequest? && Enabled(st, step)
    ensures OpenOk(Pulled(st, step), most)
  {
    NewLive(st.core.link, step, |st.sides| + 1, most);
    NowBusy(st, Pulled(st, step), most);
  }

  lemma HandedOverInv(st: State, most: nat)
    requires OpenOk(st, most) && Busy(st) && st.reader == Looping
    ensures OpenOk(HandedOver(st), most)
  {
    EarlierKeeps(st, HandedOver(st), |st.sides| - 1);
  }

  /** The client's side of the link moves on, and the reader still looks. */
  lemma TheirsInv(st: State, l: Link, most: nat)
    requires OpenOk(st, most) && st.reader == Looping && st.core.link.theirs == Sending
    requires l == st.core.link.(buffered := l.buffered) || l == AfterEnd(st.core.link, l.buffered)
    ensures OpenOk(st.(core := st.core.(link := l)), most) && Busy(st.(core := st.core.(link := l)))
  {
    EarlierKeeps(st, st.(core := st.core.(link := l)), |st.sides| - 1);
  }

  lemma PulledInv(st: State, step: Step, most: nat)
    requires OpenOk(st, most) && Enabled(st, step)
    requires step.PullData? || step.PullEnd?
    ensures OpenOk(Apply(st, step, most), most)
  {
    var l := if step.PullData? then st.core.link.(buffered := step.buffered) else AfterEnd(st.core.link, step.buffered);
    TheirsInv(st, l, most);
    HandedOverInv(st.(core := st.core.(link := l)), most);
  }

  lemma ParkedInv(st: State, step: Step, most: nat)
    requires OpenOk(st, most) && Enabled(st, step)
    requires step.PullNothing? || step.Arrive?
    ensures !Apply(st, step, most).core.gone ==> OpenOk(Apply(st, step, most), most)
  {
    EarlierKeeps(st, Apply(st, step, most), if Busy(st) then |st.sides| - 1 else |st.sides|);
  }

  lemma HangupInv(st: State, most: nat)
    requires OpenOk(st, most) && Enabled(st, Hangup)
    ensures OpenOk(Apply(st, Hangup, most), most)
  {
    var last := |st.sides| - 1;
    if Busy(st) {
      LiveEnded(st.sides[last], st.sent[last], st.core.link, last in st.telling);
      EarlierKeeps(st, Apply(st, Hangup, most), last);
    }
  }

  lemma ResumeNever(st: State, most: nat)
    requires OpenOk(st, most)
    ensures !Enabled(st, Resume)
  {
  }

  /** Steps that touch neither the requests nor the link. */
  lemma AsideInv(st: State, step: Step, most: nat)
    requires OpenOk(st, most) && Enabled(st, step) && !st.core.gone
    requires step.Wake? || step.Forget? || step.Terminate?
    ensures OpenOk(Apply(st, step, most), most)
  {
    EarlierKeeps(st, Apply(st, step, most), if Busy(st) then |st.sides| - 1 else |st.sides|);
  }

  /** What a queue does concerns the invariant only through the reader. */
  lemma QueueKeeps(st: State, st': State, most: nat)
    requires OpenOk(st, most) && st'.sides == st.sides && st'.sent == st.sent && st'.core == st.core
    requires |st'.unread| == |st.unread| && st'.telling == st.telling && st'.waiting <= st.waiting
    requires st'.reader == st.reader || (st.reader == Handing && st'.reader == Looping)
    ensures OpenOk(st', most)
  {
    EarlierKeeps(st, st', if Busy(st) then |st.sides| - 1 else |st.sides|);
  }

  lemma QueueInv(st: State, step: Step, most: nat)
    requires OpenOk(st, most) && Enabled(st, step) && (step.Hand? || step.Receive? || step.PutDisconnect?)
    ensures OpenOk(Apply(st, step, most), most)
  {
    QueueKeeps(st, Apply(st, step, most), most);
  }

  lemma OpenInv(st: State, step: Step, most: nat)
    requires ReaderOk(st) && OpenOk(st, most) && !st.core.gone && Enabled(st, step)
    ensures !Apply(st, step, most).core.gone ==> OpenOk(Apply(st, step, most), most)
  {
    match step
    case Arrive => ParkedInv(st, step, most);
    case PullRequest(_, _, _, _) => RequestInv(st, step, most);
    case PullData(_) => PulledInv(st, step, most);
    case PullEnd(_) => PulledInv(st, step, most);
    case PullNothing => ParkedInv(st, step, most);
    case Hand => QueueInv(st, step, most);
    case Wake => AsideInv(st, step, most);
    case Resume => ResumeNever(st, most);
    case Send(i, m) => SendInv(st, i, m, most);
    case Return(i) => ReturnInv(st, i, most);
    case Advance(i, fault, closes) => AdvanceInv(st, i, fault, closes, most);
    case Receive(_) => QueueInv(st, step, most);
    case PutDisconnect(_) => QueueInv(st, step, most);
    case Hangup => HangupInv(st, most);
    case Lose =>
    case Forget => AsideInv(st, step, most);
    case Terminate => AsideInv(st, step, most);
  }

  lemma TellingKeeps(st: State, i: nat)
    requires i < |st.sides|
    ensures Telling(st, i).reader == st.reader && Telling(st, i).core == st.core
  {
  }

  lemma WritingKeeps(st: State, i: nat, fault: Fault, closes: bool, most: nat)
    requires i < |st.sides| && i < |st.sent| && st.sides[i].ops != [] && st.sides[i].ops[0].Emit?
    ensures
      var st' := Written(st, i, fault, closes, most);
      st'.reader == st.reader && st'.core.marks == st.core.marks && (st.core.gone ==> st'.core.gone)
  {
  }

  lemma EmittedReader(st: State, i: nat, fault: Fault, closes: bool, most: nat)
    requires ReaderOk(st) && Enabled(st, Advance(i, fault, closes))
    ensures ReaderOk(Apply(st, Advance(i, fault, closes), most))
  {
    if st.sides[i].ops[0].Emit? {
      if !st.sides[i].ops[0].event.StreamClosed? {
        WritingKeeps(st, i, fault, closes, most);
      } else if i !in st.telling {
        TellingKeeps(st, i);
      }
    }
  }

  /** Whatever happens, a parked reader waits on the event that the next `set` sets. */
  lemma ReaderInv(st: State, step: Step, most: nat)
    requires ReaderOk(st) && Enabled(st, step)
    ensures ReaderOk(Apply(st, step, most))
  {
    if step.Advance? {
      EmittedReader(st, step.i, step.fault, step.closes, most);
    }
  }

  /** What is taken from a stream is on the wire, if HTTP/1.1 carries it. */
  lemma WrittenShows(st: State, fault: Fault, closes: bool, most: nat)
    requires LastEmits(st) && !LastEvent(st).StreamClosed? && !st.core.gone
    ensures
      var last, e := |st.sides| - 1, LastEvent(st);
      var next := Written(st, last, fault, closes, most);
      if FateOf(st.core.link, e, fault) in {OnTheWire, Ignored}
      then next.sent == st.sent[last := st.sent[last] + [e]] && next.wire == st.wire + Shown(e)
      else next.sent == st.sent && next.wire == st.wire
  {
    assert st.wire + [] == st.wire;
  }

  lemma WireGrows(st: State, fault: Fault, closes: bool, most: nat)
    requires LastEmits(st) && !LastEvent(st).StreamClosed? && WireOk(st) && !st.core.gone
    ensures WireOk(Written(st, |st.sides| - 1, fault, closes, most))
  {
    ResponsesGrow(st.sent, LastEvent(st));
    WrittenShows(st, fault, closes, most);
  }

  lemma ResponsesBegin(sent: seq<seq<Event>>)
    ensures Responses(sent + [[]]) == Responses(sent)
  {
    ResponsesSnoc(sent, []);
    assert Visible([]) == [];
  }

  lemma TellingWritesNothing(st: State, i: nat)
    requires i < |st.sides|
    ensures Telling(st, i).wire == st.wire && Telling(st, i).sent == st.sent
  {
  }

  /** No other step writes. */
  lemma OthersDoNotWrite(st: State, step: Step, most: nat)
    requires Enabled(st, step) && !step.Advance? && !step.PullRequest?
    ensures Apply(st, step, most).wire == st.wire && Apply(st, step, most).sent == st.sent
  {
  }

  /** The wire grows with the last response, the only one that can. */
  lemma WireInv(st: State, step: Step, most: nat)
    requires OpenOk(st, most) && WireOk(st) && !st.core.gone && Enabled(st, step)
    ensures WireOk(Apply(st, step, most))
  {
    if step.Advance? {
      OnlyTheLastAdvances(st, most, step.i);
      if st.sides[step.i].ops[0].Emit? {
        if !LastEvent(st).StreamClosed? {
          WireGrows(st, step.fault, step.closes, most);
        }
        TellingWritesNothing(st, step.i);
      }
    } else if step.PullRequest? {
      ResponsesBegin(st.sent);
    } else {
      OthersDoNotWrite(st, step, most);
    }
  }

  lemma StepInv(st: State, step: Step, most: nat)
    requires Inv(st, most) && Enabled(st, step)
    ensures Inv(Apply(st, step, most), most)
  {
    ReaderInv(st, step, most);
    if !st.core.gone {
      OpenInv(st, step, most);
      WireInv(st, step, most);
    } else {
      GoneStays(st, step, most);
    }
  }

  lemma GoneStays(st: State, step: Step, most: nat)
    requires st.core.gone && Enabled(st, step)
    ensures Apply(st, step, most).core.gone
  {
    if step.Advance? && st.sides[step.i].ops[0].Emit? {
      WritingKeeps(st, step.i, step.fault, step.closes, most);
      TellingKeeps(st, step.i);
    }
  }

  lemma {:induction false} RunInv(st: State, steps: seq<Step>, most: nat)
    requires Inv(st, most) && Run(st, steps, most).Some?
    ensures Inv(Run(st, steps, most).value, most)
    decreases |steps|
  {
    if steps != [] {
      StepInv(st, steps[0], most);
      RunInv(Apply(st, steps[0], most), steps[1..], most);
    }
  }
}
