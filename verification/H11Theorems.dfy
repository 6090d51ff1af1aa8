/** What every run of an HTTP/1.1 connection keeps, and where its reader can be left behind. */
module H11Theorems {
  import opened Common
  import opened EventObjects
  import opened HttpStreams
  import opened HttpGrammar
  import opened H11Protocols
  import opened H11Runs

  /** `st` is the state after some run of a connection whose apps have queues for `room` messages. */
  predicate ReachedBy(room: nat, steps: seq<Step>, st: State, most: nat) { Run(Initial(room), steps, most) == Some(st) }

  lemma Reached(room: nat, steps: seq<Step>, st: State, most: nat)
    requires ReachedBy(room, steps, st, most)
    ensures Inv(st, most)
  {
    RunInv(Initial(room), steps, most);
  }

  /** As long as the transport takes bytes, also when the client has ended its side, the wire holds the
      responses one after the other in the order of the requests, each but the last complete:
      nothing of one ever lands in another. */
  lemma ResponsesInOrder(room: nat, steps: seq<Step>, st: State, most: nat, i: nat)
    requires ReachedBy(room, steps, st, most) && !st.core.gone
    ensures |st.sent| == |st.sides| && st.wire == Responses(st.sent)
    ensures i < |st.sides| - 1 ==> PhaseOf(Verb(st.sides[i]), st.sent[i]) == Ended
  {
    Reached(room, steps, st, most);
    assert i < |st.sides| - 1 ==> Finished(st.sides[i], st.sent[i]);
  }

  /** The response that is under way keeps to the grammar too, unless h11 has refused a part of it. */
  lemma LastResponseKeepsToGrammar(room: nat, steps: seq<Step>, st: State, most: nat)
    requires ReachedBy(room, steps, st, most) && !st.core.gone && st.sides != [] && st.core.link.ours != Failed
    ensures |st.sent| == |st.sides|
    ensures PhaseOf(Verb(st.sides[|st.sides| - 1]), st.sent[|st.sides| - 1]) != Bad
  {
    Reached(room, steps, st, most);
    assert !Busy(st) ==> Finished(st.sides[|st.sides| - 1], st.sent[|st.sides| - 1]);
  }

  /** Once the connection was recycled, a late message of a finished app changes nothing at all, and
      neither does its return. */
  lemma LateMessagesVanish(room: nat, steps: seq<Step>, st: State, most: nat, i: nat, m: Message)
    requires ReachedBy(room, steps, st, most) && !st.core.gone
    requires i < |st.sides| && (i < |st.sides| - 1 || !Busy(st))
    ensures Enabled(st, Send(i, m)) ==> Apply(st, Send(i, m), most) == st
    ensures Enabled(st, Return(i)) && Apply(st, Return(i), most).(sides := st.sides) == st
    ensures Apply(st, Return(i), most).sides == st.sides[i := st.sides[i].(returned := true)]
    ensures forall fault, closes :: !Enabled(st, Advance(i, fault, closes))
  {
    Reached(room, steps, st, most);
    assert Finished(st.sides[i], st.sent[i]);
    if Enabled(st, Send(i, m)) {
      SilentStays(st, i, m, most);
    }
  }

  /** keep_alive_max_requests bounds the requests that a connection takes, except that there is always
      a first. */
  lemma RequestsAreBounded(room: nat, steps: seq<Step>, st: State, most: nat)
    requires ReachedBy(room, steps, st, most) && !st.core.gone
    ensures |st.sides| <= Max(1, most)
  {
    Reached(room, steps, st, most);
  }

  // ---- what reaches the wire ---------------------------------------------------------------------------

  /** Request i is about to emit anything but StreamClosed. */
  predicate Emitting(st: State, i: nat) {
    && i < |st.sides| == |st.sent| && st.sides[i].ops != [] && st.sides[i].ops[0].Emit?
    && !st.sides[i].ops[0].event.StreamClosed?
  }

  /** As long as h11 has not failed and finds no fault, whatever a stream emits behind the head of a final
      response, or that head, is on the wire at once and last, and the stream goes on; what
      HTTP/1.1 does not carry is not, and does no harm. */
  lemma EmittedIsOnTheWire(room: nat, steps: seq<Step>, st: State, most: nat, i: nat, closes: bool)
    requires ReachedBy(room, steps, st, most) && !st.core.gone && Emitting(st, i) && st.core.link.ours != Failed
    requires st.sides[i].phase.Before? || (st.sides[i].phase.Open? && st.sides[i].phase.status >= 200)
    ensures Enabled(st, Advance(i, Fine, closes))
    ensures
      var e, next := st.sides[i].ops[0].event, Apply(st, Advance(i, Fine, closes), most);
      && next.wire == st.wire + Shown(e) && next.sent == st.sent[i := st.sent[i] + [e]]
      && next.sides == st.sides[i := Advanced(st.sides[i])] && !next.core.gone && next.core.link.ours != Failed
  {
    Reached(room, steps, st, most);
    OnlyTheLastAdvances(st, most, i);
    AllowedIsTaken(st, most, closes);
    WrittenShows(st, Fine, closes, most);
  }

  /** h11 takes what the grammar has next. */
  lemma AllowedIsTaken(st: State, most: nat, closes: bool)
    requires OpenOk(st, most) && !st.core.gone && Busy(st) && Emitting(st, |st.sides| - 1)
    requires st.core.link.ours != Failed
    requires
      var p := st.sides[|st.sides| - 1].phase;
      p.Before? || (p.Open? && p.status >= 200)
    ensures
      var last := |st.sides| - 1;
      var e := st.sides[last].ops[0].event;
      && FateOf(st.core.link, e, Fine) in {OnTheWire, Ignored} && last !in st.waiting
      && LinkAfter(st.core, e, Fine, closes, most).ours != Failed
  {
    AdvancedFits(st.sides[|st.sides| - 1]);
  }

  /** Behind an informational head, which h11 does not count as a response, it is not: h11 raises. */
  lemma NoBodyBehindAnInformationalHead(room: nat, steps: seq<Step>, st: State, most: nat, i: nat, closes: bool)
    requires ReachedBy(room, steps, st, most) && !st.core.gone && Emitting(st, i) && st.core.link.ours != Failed
    requires st.sides[i].phase.Open? && st.sides[i].phase.status < 200 && Shown(st.sides[i].ops[0].event) != []
    ensures Enabled(st, Advance(i, Fine, closes))
    ensures
      var next := Apply(st, Advance(i, Fine, closes), most);
      next.wire == st.wire && next.sent == st.sent && next.sides[i].ops == [] && next.core.link.ours == Failed
  {
    Reached(room, steps, st, most);
    OnlyTheLastAdvances(st, most, i);
    InformationalIsRefused(st, most, closes);
    WrittenShows(st, Fine, closes, most);
  }

  lemma InformationalIsRefused(st: State, most: nat, closes: bool)
    requires OpenOk(st, most) && !st.core.gone && Busy(st) && Emitting(st, |st.sides| - 1)
    requires st.core.link.ours != Failed
    requires
      var a := st.sides[|st.sides| - 1];
      a.phase.Open? && a.phase.status < 200 && Shown(a.ops[0].event) != []
    ensures
      var e := st.sides[|st.sides| - 1].ops[0].event;
      && FateOf(st.core.link, e, Fine) == Raised && |st.sides| - 1 !in st.waiting
      && LinkAfter(st.core, e, Fine, closes, most).ours == Failed
  {
    AdvancedFits(st.sides[|st.sides| - 1]);
  }

  /** An event that h11 finds a fault with is raised to the app, and nothing of it reaches the wire; headers
      that h11 cannot even represent leave its state alone, so the app may try again. */
  lemma FaultsStayOffTheWire(room: nat, steps: seq<Step>, st: State, most: nat, i: nat, fault: Fault, closes: bool)
    requires ReachedBy(room, steps, st, most) && !st.core.gone && Emitting(st, i)
    requires Shown(st.sides[i].ops[0].event) != []
    requires fault == InSending || (fault == InHeaders && st.sides[i].ops[0].event.Response?)
    ensures Enabled(st, Advance(i, fault, closes))
    ensures
      var next := Apply(st, Advance(i, fault, closes), most);
      && next.wire == st.wire && next.sent == st.sent && next.sides[i].ops == []
      && (if fault == InHeaders then next.core.link == st.core.link else next.core.link.ours == Failed)
  {
    Reached(room, steps, st, most);
    OnlyTheLastAdvances(st, most, i);
  }

  /** Once h11 has failed on the client's input, what it no longer takes is dropped without a word, and the app
      goes on. */
  lemma DroppedForAFailedClient(st: State, most: nat, i: nat, fault: Fault, closes: bool)
    requires Emitting(st, i) && Enabled(st, Advance(i, fault, closes)) && Shown(st.sides[i].ops[0].event) != []
    requires st.core.link.theirs == Failed && !(fault == InHeaders && st.sides[i].ops[0].event.Response?)
    requires fault == InSending || st.core.link.ours !in {Responding, Sending}
    ensures
      var next := Apply(st, Advance(i, fault, closes), most);
      && next.wire == st.wire && next.sent == st.sent && next.core.gone == st.core.gone
      && next.sides == st.sides[i := Advanced(st.sides[i])] && next.core.link.ours == Failed
  {
  }

  // ---- recycling ---------------------------------------------------------------------------------------

  /** Request i is about to finish the emission of StreamClosed. */
  predicate Completing(st: State, i: nat) {
    && i < |st.sides| == |st.sent| && st.sides[i].ops != [] && st.sides[i].ops[0] == Emit(StreamClosed)
    && i in st.telling && i !in st.waiting
  }

  /** Both sides are through with the request, the worker goes on, and the connection may take another. */
  predicate Keepable(st: State, most: nat) {
    && st.core.link.ours == Done && st.core.link.theirs == Done && !st.terminated && st.core.requests <= most
  }

  /** A StreamClosed that is through keeps the connection exactly then: the transport is still there, both
      sides are idle, the reader may go on, and what was received already can be the next request. */
  lemma ConnectionIsKept(room: nat, steps: seq<Step>, st: State, most: nat, i: nat, scope: Scope)
    requires ReachedBy(room, steps, st, most) && !st.core.gone && Completing(st, i)
    ensures Enabled(st, Advance(i, Fine, false))
    ensures
      var next := Apply(st, Advance(i, Fine, false), most);
      && (next.core.gone <==> !Keepable(st, most)) && !next.core.live
      && (st.reader.Parked? ==> Enabled(next, Wake))
      && (Keepable(st, most) ==> next.core.link == NewLink().(buffered := st.core.link.buffered))
      && (Keepable(st, most) && st.core.link.buffered && st.reader.Parked? && !Framed(scope.version) ==>
            forall asks, buffered ::
              Enabled(Apply(next, Wake, most), PullRequest(scope, asks, None, buffered)))
  {
    Reached(room, steps, st, most);
    OnlyTheLastAdvances(st, most, i);
  }

  // ---- the parked reader -----------------------------------------------------------------------------

  /** As long as the transport is there, a reader waits only for an app that is not finished. */
  lemma ReaderWaitsForAnApp(room: nat, steps: seq<Step>, st: State, most: nat)
    requires ReachedBy(room, steps, st, most) && !st.core.gone && Waiting(st)
    ensures st.core.live && |st.sides| > 0
    ensures !(st.sides[|st.sides| - 1].returned && st.sides[|st.sides| - 1].ops == [])
  {
    Reached(room, steps, st, most);
  }

  /** Every StreamClosed releases the waiting reader, whether the connection is kept or not; but the
      reader waits again exactly if the connection is not kept and the client's side is still DONE. */
  lemma ClosingReleasesReader(room: nat, steps: seq<Step>, st: State, most: nat, i: nat)
    requires ReachedBy(room, steps, st, most) && !st.core.gone && Waiting(st) && Completing(st, i)
    ensures
      var released := Apply(st, Advance(i, Fine, false), most);
      Enabled(released, Wake) &&
      var woken := Apply(released, Wake, most);
      (Enabled(woken, PullNothing) && Waiting(Apply(woken, PullNothing, most)))
      <==> (st.core.link.theirs == Done && !Keepable(st, most))
  {
    Reached(room, steps, st, most);
    OnlyTheLastAdvances(st, most, i);
  }

  /** Nothing is left that could set the event the reader waits on. */
  predicate Quiet(a: Side) { a.ops == [] && a.stream.closed }

  predicate Stranded(st: State) {
    && st.core.gone && Waiting(st) && st.reader.event == Current(st.core.marks)
    && |st.sides| == |st.sent|
    && forall i :: 0 <= i < |st.sides| ==> Quiet(st.sides[i])
  }

  lemma StrandedStep(st: State, step: Step, most: nat)
    requires Stranded(st) && Enabled(st, step)
    requires step.Send? ==> Silent(st.sides[step.i])
    ensures Stranded(Apply(st, step, most)) && Apply(st, step, most).reader == st.reader
    ensures |Apply(st, step, most).sides| == |st.sides|
    ensures forall i :: 0 <= i < |st.sides| && Silent(st.sides[i]) ==> Silent(Apply(st, step, most).sides[i])
  {
    if step.Send? {
      SilentSend(st.sides[step.i], step.m);
    }
  }

  /** A stranded reader waits for good: nothing but a message from an app whose response was never
      finished could still release it. */
  lemma {:induction false} StrandedForGood(st: State, steps: seq<Step>, most: nat)
    requires Stranded(st) && Run(st, steps, most).Some?
    requires forall k :: 0 <= k < |steps| && steps[k].Send? && steps[k].i < |st.sides| ==> Silent(st.sides[steps[k].i])
    ensures Stranded(Run(st, steps, most).value) && Run(st, steps, most).value.reader == st.reader
    decreases |steps|
  {
    if steps != [] {
      StrandedStep(st, steps[0], most);
      var next := Apply(st, steps[0], most);
      assert forall k :: 0 <= k < |steps| - 1 ==> steps[1..][k] == steps[k + 1];
      StrandedForGood(next, steps[1..], most);
    }
  }

  /** A stream closes while a pipelined request waits and the client's side is DONE: if the connection may
      not be kept, because the server is shutting down or the app returned in mid-response, its
      reader is stranded. */
  lemma UnkeptConnectionStrandsReader(room: nat, steps: seq<Step>, st: State, most: nat, i: nat)
    requires ReachedBy(room, steps, st, most) && !st.core.gone && Waiting(st) && Completing(st, i)
    requires st.core.link.theirs == Done && !Keepable(st, most)
    ensures
      var released := Apply(st, Advance(i, Fine, false), most);
      Enabled(released, Wake) &&
      var woken := Apply(released, Wake, most);
      Enabled(woken, PullNothing) && Stranded(Apply(woken, PullNothing, most))
  {
    Reached(room, steps, st, most);
    OnlyTheLastAdvances(st, most, i);
    AdvancedFits(st.sides[i]);
    assert forall j :: 0 <= j < i ==> Finished(st.sides[j], st.sent[j]);
  }

  lemma LosingTells(st: State, most: nat)
    requires Inv(st, most) && !st.core.gone && Waiting(st) && st.sides != []
    ensures
      var lost := Apply(st, Lose, most);
      && lost.core == st.core.(gone := true) && lost.reader == st.reader && |lost.sent| == |lost.sides| == |st.sides|
      && lost.sides[|st.sides| - 1].ops == st.sides[|st.sides| - 1].ops && lost.sides[|st.sides| - 1].stream.closed
      && forall j :: 0 <= j < |st.sides| - 1 ==> Silent(lost.sides[j])
  {
    assert Busy(st) && Earlier(st, |st.sides| - 1);
    forall j | 0 <= j < |st.sides| - 1 ensures Silent(st.sides[j]) {
      assert Finished(st.sides[j], st.sent[j]);
    }
  }

  /** So is it when the connection goes while a response is unfinished and the app then returns. */
  lemma LossStrandsReader(room: nat, steps: seq<Step>, st: State, most: nat)
    requires ReachedBy(room, steps, st, most) && !st.core.gone && Waiting(st)
    requires |st.sides| > 0 && st.sides[|st.sides| - 1].ops == []
    ensures
      var lost := Apply(st, Lose, most);
      Enabled(lost, Return(|st.sides| - 1)) && Stranded(Apply(lost, Return(|st.sides| - 1), most))
  {
    Reached(room, steps, st, most);
    LosingTells(st, most);
  }

  // ---- the queue of the app ----------------------------------------------------------------------------

  /** A StreamClosed goes through exactly if the disconnect finds room in the queue of the app, or the
      app has left it. */
  lemma ClosingNeedsRoom(room: nat, steps: seq<Step>, st: State, most: nat, i: nat)
    requires ReachedBy(room, steps, st, most) && !st.core.gone && Waiting(st)
    requires i < |st.sides| == |st.sent| && st.sides[i].ops != [] && st.sides[i].ops[0] == Emit(StreamClosed)
    requires i !in st.telling
    ensures |st.unread| == |st.sides| && Enabled(st, Advance(i, Fine, false))
    ensures
      var told := Apply(st, Advance(i, Fine, false), most);
      if st.unread[i] < st.room || st.sides[i].returned then Completing(told, i) && Waiting(told)
      else Blocked(told, i)
  {
    Reached(room, steps, st, most);
    OnlyTheLastAdvances(st, most, i);
    assert forall j :: 0 <= j < i ==> Finished(st.sides[j], st.sent[j]);
  }

  /** The app waits, in its own last message, for room in the queue that only it reads, and the reader for
      the recycling behind it. */
  predicate Blocked(st: State, i: nat) {
    && Waiting(st) && i < |st.sides| == |st.sent| && st.waiting == {i} && i == |st.sides| - 1
    && st.sides[i].ops != [] && !st.sides[i].returned && st.sides[i].stream.closed
    && forall j :: 0 <= j < i ==> Silent(st.sides[j])
  }

  lemma BlockedStep(st: State, i: nat, step: Step, most: nat)
    requires Blocked(st, i) && Enabled(st, step) && step != Receive(i)
    ensures Blocked(Apply(st, step, most), i)
  {
    if step.Send? {
      SilentStays(st, step.i, step.m, most);
    }
  }

  /** Unless the app reads a message elsewhere, it and the reader wait for good. */
  lemma {:induction false} BlockedForGood(st: State, i: nat, steps: seq<Step>, most: nat)
    requires Blocked(st, i) && Run(st, steps, most).Some? && Receive(i) !in steps
    ensures Blocked(Run(st, steps, most).value, i)
    decreases |steps|
  {
    if steps != [] {
      BlockedStep(st, i, steps[0], most);
      BlockedForGood(Apply(st, steps[0], most), i, steps[1..], most);
    }
  }

  // ---- such runs exist ---------------------------------------------------------------------------------

  lemma {:induction false} RunSnoc(from: State, steps: seq<Step>, step: Step, most: nat)
    requires Run(from, steps, most).Some? && Enabled(Run(from, steps, most).value, step)
    ensures Run(from, steps + [step], most) == Some(Apply(Run(from, steps, most).value, step, most))
    decreases |steps|
  {
    if steps == [] {
      assert [step][1..] == [];
    } else {
      assert (steps + [step])[1..] == steps[1..] + [step];
      RunSnoc(Apply(from, steps[0], most), steps[1..], step, most);
    }
  }

  lemma Extend(room: nat, steps: seq<Step>, st: State, step: Step, most: nat) returns (longer: seq<Step>, next: State)
    requires ReachedBy(room, steps, st, most) && Enabled(st, step)
    ensures ReachedBy(room, longer, next, most) && next == Apply(st, step, most)
  {
    RunSnoc(Initial(room), steps, step, most);
    return steps + [step], Apply(st, step, most);
  }

  /** One request under way, with bytes behind it, and k messages unread. */
  function Requested(scope: Scope, room: nat, theirs: Peer, marks: Marks, reader: Reader, k: nat): State {
    State(Core(Link(Responding, theirs, true, true), true, 1, marks, false),
          [NewSide(scope)], [[]], [], reader, false, {}, {}, [k], room)
  }

  lemma {:induction false} Upload(scope: Scope, room: nat, k: nat, most: nat) returns (steps: seq<Step>, st: State)
    requires !Framed(scope.version) && k <= room
    ensures ReachedBy(room, steps, st, most) && st == Requested(scope, room, Sending, [false], Looping, k)
  {
    if k == 0 {
      var request := PullRequest(scope, false, None, true);
      steps, st := Extend(room, [], Initial(room), Arrive, most);
      steps, st := Extend(room, steps, st, request, most);
    } else {
      steps, st := Upload(scope, room, k - 1, most);
      steps, st := Extend(room, steps, st, PullData(true), most);
    }
  }

  /** A request of k - 1 parts, and the bytes of another request behind it, at which the reader waits. */
  lemma Pipelined(scope: Scope, room: nat, k: nat, most: nat) returns (steps: seq<Step>, st: State)
    requires !Framed(scope.version) && 1 <= k <= room
    ensures ReachedBy(room, steps, st, most)
    ensures st == Requested(scope, room, Done, [false, false], Parked(1), k)
  {
    steps, st := Upload(scope, room, k - 1, most);
    steps, st := Extend(room, steps, st, PullEnd(true), most);
    steps, st := Extend(room, steps, st, PullNothing, most);
    assert Clear([false]) == [false, false];
  }

  function Answering(scope: Scope, ops: seq<Op>): Side {
    Side(Stream(RESPONSE, false, scope, Some(Started(200, false))), ops, false, Open(200), false)
  }

  function Answered(scope: Scope, room: nat, k: nat, side: Side): State {
    State(Core(Link(Sending, Done, true, true), true, 1, [false, false], false),
          [side], [[Response(200, [])]], [Response(200, [])], Parked(1), false, {}, {}, [k], room)
  }

  /** Its app has sent the head of a response, which is about to go out, or has gone out. */
  function Heading(scope: Scope, phase: Phase, ops: seq<Op>): Side {
    Side(Stream(REQUEST, false, scope, Some(Started(200, false))), ops, false, phase, false)
  }

  lemma HeadIsSent(scope: Scope, room: nat, k: nat, most: nat) returns (steps: seq<Step>, st: State)
    requires !Framed(scope.version) && most > 1 && 1 <= k <= room
    ensures ReachedBy(room, steps, st, most)
    ensures st == Answered(scope, room, k, Heading(scope, Open(200), [Enter(RESPONSE)]))
  {
    var none: seq<Event> := [];
    var response := Response(200, []);
    steps, st := Pipelined(scope, room, k, most);
    steps, st := Extend(room, steps, st, Send(0, ResponseStart(200, [], false)), most);
    assert st.sides[0] == Heading(scope, Before, [Emit(response), Enter(RESPONSE)]);
    steps, st := Extend(room, steps, st, Advance(0, Fine, false), most);
    assert [Emit(response), Enter(RESPONSE)][1..] == [Enter(RESPONSE)];
    assert st.sides[0] == Heading(scope, Open(200), [Enter(RESPONSE)]);
    assert none + [response] == [response];
    assert st.sent[0] == [response] && st.wire == [response];
  }

  lemma Started200(scope: Scope, room: nat, k: nat, most: nat) returns (steps: seq<Step>, st: State)
    requires !Framed(scope.version) && most > 1 && 1 <= k <= room
    ensures ReachedBy(room, steps, st, most) && st == Answered(scope, room, k, Answering(scope, ClosedOps(200)))
  {
    steps, st := HeadIsSent(scope, room, k, most);
    steps, st := Extend(room, steps, st, Advance(0, Fine, false), most);
    assert st.sides[0] == Answering(scope, []);
    steps, st := Extend(room, steps, st, Send(0, ResponseBody([], false)), most);
    assert [] + ClosedOps(200) == ClosedOps(200);
    assert st.sides[0] == Answering(scope, ClosedOps(200));
  }

  /** The response is complete, and the app about to emit StreamClosed. */
  lemma Finishing(scope: Scope, room: nat, k: nat, most: nat) returns (steps: seq<Step>, st: State)
    requires !Framed(scope.version) && most > 1 && 1 <= k <= room
    ensures ReachedBy(room, steps, st, most) && !st.core.gone && Waiting(st) && st.telling == {}
    ensures |st.sides| == |st.sent| == 1 && st.sides[0].ops == [Emit(StreamClosed)] && !st.sides[0].returned
    ensures st.unread == [k] && st.room == room && st.core.link.ours == Done && st.core.link.theirs == Done
  {
    var ops := ClosedOps(200);
    steps, st := Started200(scope, room, k, most);
    steps, st := Extend(room, steps, st, Advance(0, Fine, false), most);
    assert ops[1..] == [Emit(EndBody), Log(FullRecord(200)), Emit(StreamClosed)];
    steps, st := Extend(room, steps, st, Advance(0, Fine, false), most);
    assert st.sides[0].ops == [Log(FullRecord(200)), Emit(StreamClosed)];
    steps, st := Extend(room, steps, st, Advance(0, Fine, false), most);
    assert st.sides[0].ops == [Emit(StreamClosed)];
  }

  /** A request is answered while the server begins to shut down, and the reader is stranded. */
  lemma ReaderIsStranded(scope: Scope, room: nat, most: nat) returns (steps: seq<Step>, st: State)
    requires !Framed(scope.version) && most > 1 && room > 1
    ensures ReachedBy(room, steps, st, most) && Stranded(st)
  {
    steps, st := Finishing(scope, room, 1, most);
    steps, st := Extend(room, steps, st, Terminate, most);
    ClosingNeedsRoom(room, steps, st, most, 0);
    steps, st := Extend(room, steps, st, Advance(0, Fine, false), most);
    UnkeptConnectionStrandsReader(room, steps, st, most, 0);
    steps, st := Extend(room, steps, st, Advance(0, Fine, false), most);
    steps, st := Extend(room, steps, st, Wake, most);
    steps, st := Extend(room, steps, st, PullNothing, most);
  }

  /** An app that answers a request without having read what fills its queue blocks itself. */
  lemma AppIsBlocked(scope: Scope, room: nat, most: nat) returns (steps: seq<Step>, st: State)
    requires !Framed(scope.version) && most > 1 && room > 0
    ensures ReachedBy(room, steps, st, most) && Blocked(st, 0)
  {
    steps, st := Finishing(scope, room, room, most);
    ClosingNeedsRoom(room, steps, st, most, 0);
    steps, st := Extend(room, steps, st, Advance(0, Fine, false), most);
  }

  /** A client that has sent its request and ended its side. */
  function HungUp(scope: Scope, room: nat, side: Side): State {
    State(Core(Link(Responding, Done, true, false), true, 1, [false], false),
          [side], [[]], [], Quit, false, {}, {}, [Min(room, 2)], room)
  }

  lemma HangingUp(scope: Scope, room: nat, most: nat) returns (steps: seq<Step>, st: State)
    requires !Framed(scope.version) && room > 0
    ensures ReachedBy(room, steps, st, most) && st == HungUp(scope, room, Told(NewSide(scope)))
  {
    steps, st := Upload(scope, room, 0, most);
    steps, st := Extend(room, steps, st, PullEnd(false), most);
    assert st.unread == [1];
    steps, st := Extend(room, steps, st, PullNothing, most);
    steps, st := Extend(room, steps, st, Hangup, most);
    assert st.unread == [Min(room, 2)] && st.sides == [Told(NewSide(scope))];
  }

  /** It still gets its response: behind a hangup the wire grows. */
  lemma HangupDoesNotStopTheResponse(scope: Scope, room: nat, most: nat) returns (steps: seq<Step>, st: State)
    requires !Framed(scope.version) && room > 0
    ensures ReachedBy(room, steps, st, most) && st.reader == Quit && st.wire == [Response(200, [])]
  {
    steps, st := HangingUp(scope, room, most);
    steps, st := Extend(room, steps, st, Send(0, ResponseStart(200, [], false)), most);
    assert st.sides[0].ops == [Emit(Response(200, [])), Enter(RESPONSE)];
    steps, st := Extend(room, steps, st, Advance(0, Fine, false), most);
    var none: seq<Event> := [];
    assert none + [Response(200, [])] == [Response(200, [])];
  }
}
