/** Who can be left waiting for good on an HTTP/2 connection, and the runs that come to the edge
    of what H2Theorems promises. */
module H2Stranding {
  import opened Common
  import opened EventObjects
  import opened StreamBuffers
  import opened H2Core
  import opened H2Runs
  import opened H2Invariant
  import opened H2Theorems

  // ---- drainers and the empty chunk ---------------------------------------------------------

  /** The one push that undoes a drained buffer: an empty chunk for an empty buffer whose last
      bytes the send task is still flushing, on a stream that h2 still takes data for. */
  predicate EmptyPushMidFlush(st: State, step: Step) {
    && step.Write? && step.d == [] && CanSend(st.core.h2, step.s)
    && st.send == SentData(step.s)
    && PushAccepted(st.core, step.s) && st.core.buffers[step.s].data == []
  }

  /** No step of the run is such a push. */
  predicate NoEmptyPushMidFlush(st: State, steps: seq<Step>)
    decreases |steps|
  {
    steps != [] && Enabled(st, steps[0]) ==>
      !EmptyPushMidFlush(st, steps[0]) && NoEmptyPushMidFlush(Apply(st, steps[0]), steps[1..])
  }

  predicate Drained(st: State, s: StreamId)
    requires s in st.writers
  {
    var c := st.core;
    && (s in c.buffers && c.buffers[s].data == []
        && ((st.send == SentData(s) && CanSend(c.h2, s)) || st.send == SentEnd(s))
        ==> IsSet(c.buffers[s].empty))
    && (s in c.detached && s !in c.buffers && st.writers[s].Draining?
        ==> Released(c.detached[s].empty, st.writers[s].event))
  }

  /** Every writer whose buffer has left `stream_buffers` may go on. */
  predicate NobodyStranded(st: State) {
    forall s :: s in st.writers ==> Drained(st, s)
  }

  /** A writer that drains a live buffer waits on its current event. */
  predicate Attached(st: State, s: StreamId)
    requires s in st.writers
  {
    s in st.core.buffers && st.writers[s].Draining? ==>
      st.writers[s].event == Current(st.core.buffers[s].empty)
  }

  lemma EndKeepsDrained(st: State, s: StreamId, t: StreamId)
    requires t in st.writers && Attached(st, t) && Drained(st.(send := SentData(s)), t)
    ensures
      var (c, pc) := SendEnd(st.core, s);
      Drained(st.(core := c, send := pc), t)
  {
  }

  lemma NothingKeepsDrained(st: State, most: nat, s: StreamId, limit: nat, t: StreamId)
    requires Inv(st, most) && t in st.writers && Drained(st, t) && st.send == Looping && s in st.core.buffers
    requires Taken(st.core.buffers[s], limit) == []
    requires st.core.buffers[s].data == [] || !CanSend(st.core.h2, s) || Usable(st.core.h2, s) <= 0
    ensures
      var (c, pc) := SendEnd(Blocked(PoppedBy(st, s, limit), s).core, s);
      Drained(st.(core := c, send := pc), t)
  {
    var next := Blocked(PoppedBy(st, s, limit), s);
    assert StreamOk(st, most, t);
    assert Pop(st.core.buffers[s], limit).data == st.core.buffers[s].data;
    assert Attached(next, t) && Drained(next.(send := SentData(s)), t);
    EndKeepsDrained(next, s, t);
  }

  lemma DiscardKeepsDrained(st: State, most: nat, s: StreamId, t: StreamId)
    requires Inv(st, most) && t in st.writers && Drained(st, t)
    ensures Drained(st.(core := Discard(st.core, s)), t)
  {
    assert StreamOk(st, most, t);
  }

  lemma ChunkKeepsDrained(st: State, most: nat, s: StreamId, t: StreamId)
    requires Inv(st, most) && t in st.writers && Drained(st, t) && st.send == Looping && s in st.core.tree
    ensures
      var (c, pc) := SendChunk(st.core, s);
      Drained(st.(core := c, send := pc), t)
  {
    var c := st.core;
    var w := LocalWindow(c.h2, s);
    DiscardKeepsDrained(st, most, s, t);
    if w.Some? && s in c.buffers {
      var limit := ChunkSize(c.h2, w.value);
      ChunkFits(c.h2, c.buffers[s], s);
      RefusedChunk(c, s, limit);
      if Taken(c.buffers[s], limit) == [] {
        NothingKeepsDrained(st, most, s, limit, t);
      }
    }
  }

  lemma RetireKeepsDrained(st: State, most: nat, s: StreamId, t: StreamId)
    requires Inv(st, most) && t in st.writers && Drained(st, t) && st.send == SentEnd(s)
    ensures Drained(st.(core := Retire(st.core, s), send := Looping), t)
  {
    assert StreamOk(st, most, t);
  }

  lemma WriteKeepsDrained(st: State, most: nat, s: StreamId, d: Bytes, t: StreamId)
    requires Inv(st, most) && t in st.writers && Drained(st, t) && Enabled(st, Write(s, d))
    requires !EmptyPushMidFlush(st, Write(s, d))
    ensures Drained(Apply(st, Write(s, d)), t)
  {
    assert StreamOk(st, most, t);
  }

  lemma FinishKeepsDrained(st: State, most: nat, s: StreamId, t: StreamId)
    requires Inv(st, most) && t in st.writers && Drained(st, t) && Enabled(st, Finish(s))
    ensures Drained(Apply(st, Finish(s)), t)
  {
    assert StreamOk(st, most, t);
  }

  lemma TrailKeepsDrained(st: State, most: nat, s: StreamId, t: StreamId)
    requires Inv(st, most) && t in st.writers && Drained(st, t) && Enabled(st, Trail(s))
    ensures Drained(Apply(st, Trail(s)), t)
  {
    assert StreamOk(st, most, t);
  }

  /** The steps that touch neither windows nor buffers. */
  predicate Aside(step: Step) {
    !(step.Schedule? || step.ResumeSendTask? || step.Write? || step.Finish? || step.Trail? || step.ResumeWriter?
      || step.Receive? || step.Handle?)
  }

  lemma ReceiveKeepsDrained(st: State, most: nat, f: PeerFrame, t: StreamId)
    requires Inv(st, most) && t in st.writers && Drained(st, t) && Enabled(st, Receive(f))
    ensures t in Apply(st, Receive(f)).writers && Drained(Apply(st, Receive(f)), t)
  {
    assert StreamOk(st, most, t);
  }

  lemma AsideKeepsDrained(st: State, step: Step, t: StreamId)
    requires t in st.writers && Drained(st, t) && Enabled(st, step) && Aside(step)
    ensures t in Apply(st, step).writers && Drained(Apply(st, step), t)
  {
  }

  lemma ResumedWriterKeepsDrained(st: State, most: nat, s: StreamId, t: StreamId)
    requires Inv(st, most) && t in st.writers && Drained(st, t) && Enabled(st, ResumeWriter(s))
    ensures Drained(WriterResumed(st, s), t)
  {
    if st.writers[s].Pushing? {
      ResumedPushKeepsDrained(st, most, s, t);
    }
  }

  lemma ResumedPushKeepsDrained(st: State, most: nat, s: StreamId, t: StreamId)
    requires Inv(st, most) && t in st.writers && Drained(st, t) && s in st.writers && st.writers[s].Pushing?
    ensures Drained(WriterResumed(st, s), t)
  {
    assert StreamOk(st, most, t);
  }

  lemma ReaderKeepsDrained(st: State, most: nat, t: StreamId)
    requires Inv(st, most) && st.pending != [] && (t in st.writers ==> Drained(st, t)) && t in Handled(st).writers
    ensures Drained(Handled(st), t)
  {
    assert NoticeFits(st, st.pending[0]);
    if t in st.writers {
      assert StreamOk(st, most, t);
    }
  }

  lemma SendTaskKeepsDrained(st: State, most: nat, t: StreamId)
    requires Inv(st, most) && t in st.writers && Drained(st, t) && Enabled(st, ResumeSendTask)
    ensures Drained(Apply(st, ResumeSendTask), t)
  {
    assert StreamOk(st, most, t);
    if st.send.SentData? {
      EndKeepsDrained(st, st.send.s, t);
    } else if st.send.SentEnd? {
      RetireKeepsDrained(st, most, st.send.s, t);
    }
  }

  lemma StepKeepsDrained(st: State, most: nat, step: Step, t: StreamId)
    requires Inv(st, most) && NobodyStranded(st) && Enabled(st, step) && !EmptyPushMidFlush(st, step)
    requires t in Apply(st, step).writers
    ensures Drained(Apply(st, step), t)
  {
    match step
    case Schedule(s) => ChunkKeepsDrained(st, most, s, t);
    case ResumeSendTask => SendTaskKeepsDrained(st, most, t);
    case Write(s, d) => WriteKeepsDrained(st, most, s, d, t);
    case Finish(s) => FinishKeepsDrained(st, most, s, t);
    case Trail(s) => TrailKeepsDrained(st, most, s, t);
    case ResumeWriter(s) => ResumedWriterKeepsDrained(st, most, s, t);
    case Handle => ReaderKeepsDrained(st, most, t);
    case Receive(f) => ReceiveKeepsDrained(st, most, f, t);
    case _ => AsideKeepsDrained(st, step, t);
  }

  lemma {:induction false} RunKeepsDrained(st: State, most: nat, steps: seq<Step>)
    requires Inv(st, most) && NobodyStranded(st) && WritesBounded(steps, most) && Run(st, steps).Some?
    requires NoEmptyPushMidFlush(st, steps)
    ensures NobodyStranded(Run(st, steps).value)
    decreases |steps|
  {
    if steps != [] {
      var st1 := Apply(st, steps[0]);
      StepInv(st, most, steps[0]);
      forall t | t in st1.writers ensures Drained(st1, t) {
        StepKeepsDrained(st, most, steps[0], t);
      }
      BoundedTail(steps, most);
      RunKeepsDrained(st1, most, steps[1..]);
    }
  }

  /** Without an empty push in mid-flush, no writer is ever left waiting on the events of a buffer
      that nothing will touch again. */
  lemma NobodyIsStranded(init: State, steps: seq<Step>, most: nat, st: State)
    requires ReachedBy(init, steps, most, st) && NoEmptyPushMidFlush(init, steps)
    ensures NobodyStranded(st)
  {
    InitialInv(init, most);
    RunKeepsDrained(init, most, steps);
  }

  /** The writer of s waits for a buffer that left `stream_buffers` to be drained. */
  predicate Stranded(st: State, s: StreamId) {
    && s in st.writers && s !in st.core.buffers && s in st.core.detached
    && st.writers[s].Draining?
    && !Released(st.core.detached[s].empty, st.writers[s].event)
  }

  /** The send task leaves alone what it cannot find in `stream_buffers`. */
  lemma DiscardLeaves(c: Core, r: StreamId, s: StreamId)
    requires s !in c.buffers && s in c.detached
    ensures KeptAside(c, Discard(c, r), s) && KeptAside(c, Retire(c, r), s)
  {
  }

  lemma EndLeaves(c: Core, r: StreamId, s: StreamId)
    requires s !in c.buffers && s in c.detached
    ensures KeptAside(c, SendEnd(c, r).0, s)
  {
    DiscardLeaves(c, r, s);
  }

  lemma ChunkLeaves(c: Core, r: StreamId, s: StreamId)
    requires s !in c.buffers && s in c.detached
    ensures KeptAside(c, SendChunk(c, r).0, s)
  {
    DiscardLeaves(c, r, s);
    if r in c.buffers && s != r {
      var sent := SendChunk(c, r).0;
      assert s !in sent.buffers;
    }
  }

  predicate KeptAside(c: Core, c': Core, s: StreamId)
    requires s in c.detached
  {
    s !in c'.buffers && s in c'.detached && c'.detached[s] == c.detached[s]
  }

  lemma StrandedSend(st: State, s: StreamId, step: Step)
    requires Stranded(st, s) && Enabled(st, step) && (step.Schedule? || step.ResumeSendTask?)
    ensures Stranded(Apply(st, step), s)
  {
    if step.Schedule? {
      ChunkLeaves(st.core, step.s, s);
    } else if st.send.SentData? {
      EndLeaves(st.core, st.send.s, s);
    } else if st.send.SentEnd? {
      DiscardLeaves(st.core, st.send.s, s);
    }
  }

  lemma StrandedReader(st: State, s: StreamId)
    requires Pending(st) && Stranded(st, s) && st.pending != []
    ensures Stranded(Handled(st), s)
  {
    assert NoticeFits(st, st.pending[0]);
    if st.pending[0].WasReset? {
      DiscardLeaves(st.core, st.pending[0].s, s);
    }
  }

  lemma StrandedStep(st: State, most: nat, s: StreamId, step: Step)
    requires Inv(st, most) && Stranded(st, s) && Enabled(st, step)
    ensures Stranded(Apply(st, step), s)
  {
    match step
    case Schedule(_) => StrandedSend(st, s, step);
    case ResumeSendTask => StrandedSend(st, s, step);
    case Handle => StrandedReader(st, s);
    case _ =>
  }

  /** Such a writer never goes on. */
  lemma {:induction false} StrandedForGood(st: State, most: nat, s: StreamId, steps: seq<Step>)
    requires Inv(st, most) && Stranded(st, s) && WritesBounded(steps, most) && Run(st, steps).Some?
    ensures Stranded(Run(st, steps).value, s)
    decreases |steps|
  {
    if steps != [] {
      StepInv(st, most, steps[0]);
      StrandedStep(st, most, s, steps[0]);
      BoundedTail(steps, most);
      StrandedForGood(Apply(st, steps[0]), most, s, steps[1..]);
    }
  }

  /** The condition of NobodyIsStranded is exact: from any state where such a push is possible,
      the app that pushes it and then finishes its body is stranded once the send
      task has gone on. */
  lemma EmptyPushStrands(st: State, most: nat, s: StreamId)
    requires Inv(st, most) && Enabled(st, Write(s, [])) && EmptyPushMidFlush(st, Write(s, []))
    ensures
      var last := Run(st, [Write(s, []), Finish(s), ResumeSendTask, ResumeSendTask]);
      last.Some? && Stranded(last.value, s)
  {
    assert StreamOk(st, most, s);
    var st1 := Apply(st, Write(s, []));
    var st2 := Apply(st1, Finish(s));
    var st3 := Apply(st2, ResumeSendTask);
    EmptyPushed(st, most, s);
    FinishedMidFlush(st1, s);
    EndedUndrained(st2, s);
    UnfoldFour(st, Write(s, []), Finish(s), ResumeSendTask, ResumeSendTask);
  }

  /** The empty push leaves the writer free and the drained event of the buffer replaced. */
  lemma EmptyPushed(st: State, most: nat, s: StreamId)
    requires Inv(st, most) && Enabled(st, Write(s, [])) && EmptyPushMidFlush(st, Write(s, []))
    requires CanSend(st.core.h2, s)
    ensures Undrained(Apply(st, Write(s, [])), s) && Apply(st, Write(s, [])).writers[s] == Idle
  {
    assert StreamOk(st, most, s);
    assert Push(st.core.buffers[s], []).data == [];
  }

  predicate Undrained(st: State, s: StreamId) {
    && s in st.writers && s in st.core.buffers && s in st.core.tree && CanSend(st.core.h2, s)
    && st.core.buffers[s].data == [] && !IsSet(st.core.buffers[s].empty) && st.send == SentData(s)
  }

  lemma FinishedMidFlush(st: State, s: StreamId)
    requires Undrained(st, s) && st.writers[s] == Idle
    ensures Enabled(st, Finish(s))
    ensures
      var st' := Apply(st, Finish(s));
      && Undrained(st', s) && st'.core.buffers[s].complete
      && st'.writers[s] == Draining(Current(st'.core.buffers[s].empty), false)
  {
  }

  lemma EndedUndrained(st: State, s: StreamId)
    requires Undrained(st, s) && st.core.buffers[s].complete
    requires st.writers[s] == Draining(Current(st.core.buffers[s].empty), false)
    ensures Enabled(st, ResumeSendTask) && Enabled(Apply(st, ResumeSendTask), ResumeSendTask)
    ensures Stranded(Apply(Apply(st, ResumeSendTask), ResumeSendTask), s)
  {
  }

  lemma UnfoldFour(st: State, a: Step, b: Step, c: Step, d: Step)
    requires Enabled(st, a) && Enabled(Apply(st, a), b) && Enabled(Apply(Apply(st, a), b), c)
    requires Enabled(Apply(Apply(Apply(st, a), b), c), d)
    ensures Run(st, [a, b, c, d]) == Some(Apply(Apply(Apply(Apply(st, a), b), c), d))
  {
    var st1 := Apply(st, a);
    var st2 := Apply(st1, b);
    var st3 := Apply(st2, c);
    assert Run(Apply(st3, d), []) == Some(Apply(st3, d));
    assert [d][1..] == [];
    assert Run(st3, [d]) == Some(Apply(st3, d));
    assert [c, d][1..] == [d];
    assert Run(st2, [c, d]) == Run(st3, [d]);
    assert [b, c, d][1..] == [c, d];
    assert Run(st1, [b, c, d]) == Run(st2, [c, d]);
    assert [a, b, c, d][1..] == [b, c, d];
  }

  // ---- a lost connection ----------------------------------------------------------------------

  /** The writer of s waits, for its buffer to drop below the low water mark or to be drained. */
  predicate WriterWaits(st: State, s: StreamId) {
    s in st.writers && st.writers[s] != Idle && !WriterReleased(st, s)
  }

  predicate WaitsOnBuffer(st: State, s: StreamId) { s in st.core.buffers && WriterWaits(st, s) }

  /** The stream has lost its buffer, and nothing its writer does makes it wait again. */
  predicate Bufferless(st: State, s: StreamId) { s in st.writers && s !in st.core.buffers && !WriterWaits(st, s) }

  lemma ReaderKeepsWaiting(st: State, most: nat, s: StreamId)
    requires Inv(st, most) && WaitsOnBuffer(st, s) && st.pending != []
    ensures if st.pending[0] == WasReset(s) then Bufferless(Handled(st), s) else WaitsOnBuffer(Handled(st), s)
  {
    assert NoticeFits(st, st.pending[0]);
    assert StreamOk(st, most, s);
  }

  lemma OthersKeepWaiting(st: State, s: StreamId, step: Step)
    requires Globals(st) && st.send == Stopped && WaitsOnBuffer(st, s) && Enabled(st, step) && !step.Handle?
    ensures Apply(st, step).send == Stopped && WaitsOnBuffer(Apply(st, step), s)
  {
    var st' := Apply(st, step);
    if step.Write? || step.Finish? || step.Trail? || step.ResumeWriter? {
      assert step.s != s;
    }
    assert s in st'.core.buffers && st'.core.buffers[s] == st.core.buffers[s] && st'.writers[s] == st.writers[s];
  }

  /** `Closed` stops the send task and closes no buffer: a writer that waits by then, on backpressure or
      for the end of its bytes, waits through every step but the handling of a reset of its own
      stream. */
  lemma OnlyResetReleasesAfterClose(st: State, most: nat, s: StreamId, step: Step)
    requires Inv(st, most) && st.send == Stopped && WaitsOnBuffer(st, s) && Enabled(st, step)
    ensures Apply(st, step).send == Stopped
    ensures if step == Handle && st.pending[0] == WasReset(s) then Bufferless(Apply(st, step), s)
            else WaitsOnBuffer(Apply(st, step), s)
  {
    if step.Handle? {
      ReaderKeepsWaiting(st, most, s);
    } else {
      OthersKeepWaiting(st, s, step);
    }
  }

  /** No step of the run handles a reset of stream s. */
  predicate NoResetHandled(st: State, steps: seq<Step>, s: StreamId)
    decreases |steps|
  {
    steps != [] && Enabled(st, steps[0]) ==>
      !(steps[0] == Handle && st.pending[0] == WasReset(s)) && NoResetHandled(Apply(st, steps[0]), steps[1..], s)
  }

  lemma BufferlessReader(st: State, s: StreamId)
    requires Globals(st) && Bufferless(st, s) && st.pending != []
    ensures Bufferless(Handled(st), s)
  {
    assert NoticeFits(st, st.pending[0]);
  }

  lemma BufferlessStep(st: State, s: StreamId, step: Step)
    requires Globals(st) && Bufferless(st, s) && Enabled(st, step) && st.send == Stopped
    ensures Bufferless(Apply(st, step), s)
  {
    if step.Handle? {
      BufferlessReader(st, s);
    }
  }

  lemma {:induction false} BufferlessForGood(st: State, most: nat, s: StreamId, steps: seq<Step>)
    requires Inv(st, most) && st.send == Stopped && Bufferless(st, s)
    requires WritesBounded(steps, most) && Run(st, steps).Some?
    ensures Bufferless(Run(st, steps).value, s)
    decreases |steps|
  {
    if steps != [] {
      StepInv(st, most, steps[0]);
      BufferlessStep(st, s, steps[0]);
      StoppedStays(st, steps[0]);
      BoundedTail(steps, most);
      BufferlessForGood(Apply(st, steps[0]), most, s, steps[1..]);
    }
  }

  lemma StoppedStays(st: State, step: Step)
    requires st.send == Stopped && Enabled(st, step)
    ensures Apply(st, step).send == Stopped
  {
  }

  lemma BoundedTail(steps: seq<Step>, most: nat)
    requires steps != [] && WritesBounded(steps, most)
    ensures WritesBounded(steps[1..], most)
  {
    assert forall i :: 0 <= i < |steps| - 1 ==> steps[1..][i] == steps[i + 1];
  }

  /** After `Closed`, over any run: a waiting writer is waiting at its end exactly if no reset of its
      stream was handled on the way. */
  lemma {:induction false} WaitingUntilReset(st: State, most: nat, s: StreamId, steps: seq<Step>)
    requires Inv(st, most) && st.send == Stopped && WaitsOnBuffer(st, s)
    requires WritesBounded(steps, most) && Run(st, steps).Some?
    ensures WriterWaits(Run(st, steps).value, s) <==> NoResetHandled(st, steps, s)
    ensures NoResetHandled(st, steps, s) ==> WaitsOnBuffer(Run(st, steps).value, s)
    decreases |steps|
  {
    if steps != [] {
      StepInv(st, most, steps[0]);
      BoundedTail(steps, most);
      OnlyResetReleasesAfterClose(st, most, s, steps[0]);
      if steps[0] == Handle && st.pending[0] == WasReset(s) {
        BufferlessForGood(Apply(st, steps[0]), most, s, steps[1..]);
      } else {
        WaitingUntilReset(Apply(st, steps[0]), most, s, steps[1..]);
      }
    }
  }

  // ---- the bound of BufferBound is attained -----------------------------------------------------

  ghost predicate Leads(st: State, st': State, most: nat) {
    exists steps :: WritesBounded(steps, most) && Run(st, steps) == Some(st')
  }

  lemma {:induction false} RunConcat(st: State, a: seq<Step>, b: seq<Step>)
    requires Run(st, a).Some?
    ensures Run(st, a + b) == Run(Run(st, a).value, b)
    decreases |a|
  {
    if a == [] {
      assert a + b == b;
    } else {
      assert (a + b)[1..] == a[1..] + b;
      RunConcat(Apply(st, a[0]), a[1..], b);
    }
  }

  lemma LeadsOn(st: State, st1: State, most: nat, step: Step)
    requires Leads(st, st1, most) && Enabled(st1, step) && (step.Write? ==> |step.d| <= most)
    ensures Leads(st, Apply(st1, step), most)
  {
    var steps :| WritesBounded(steps, most) && Run(st, steps) == Some(st1);
    RunConcat(st, steps, [step]);
    assert Run(Apply(st1, step), []) == Some(Apply(st1, step));
    assert Run(st1, [step]) == Some(Apply(st1, step));
    assert WritesBounded(steps + [step], most);
  }

  /** Stream 1 holds n bytes below the high water mark; `token`: its `_paused` event is set. */
  predicate Filling(st: State, n: nat, token: bool) {
    && 1 in st.core.tree && 1 in st.core.buffers && WriterIdle(st, 1) && st.send == Looping
    && !st.core.buffers[1].complete && |st.core.buffers[1].data| == n < HIGH_WATER
    && IsSet(st.core.buffers[1].paused) == token
  }

  lemma {:induction false} Fill(init: State, st: State, n: nat, token: bool, most: nat) returns (full: State)
    requires Leads(init, st, most) && Filling(st, n, token) && most >= 1
    ensures Leads(init, full, most) && Filling(full, HIGH_WATER - 1, token) && full.core.closed == st.core.closed
    decreases HIGH_WATER - n
  {
    full := st;
    if n < HIGH_WATER - 1 {
      LeadsOn(init, st, most, Write(1, [0]));
      full := Fill(init, Apply(st, Write(1, [0])), n + 1, token, most);
    }
  }

  /** A connection on which a request can be answered. */
  predicate Serves(init: State) {
    IsInitial(init) && !init.core.h2.dead && init.core.h2.initialWindow > 0 && init.core.h2.window > 0
  }

  /** Stream 1 has been opened, and its buffer is empty. */
  lemma Opened(init: State, most: nat) returns (st: State)
    requires Serves(init)
    ensures Leads(init, st, most) && Filling(st, 0, false) && !st.core.closed && CanSend(st.core.h2, 1)
    ensures Usable(st.core.h2, 1) > 0 && st.core.h2.maxFrame > 0
  {
    assert Run(init, []) == Some(init);
    assert Leads(init, init, most);
    LeadsOn(init, init, most, Receive(Headers(1)));
    var st1 := Apply(init, Receive(Headers(1)));
    LeadsOn(init, st1, most, Handle);
    st := Apply(st1, Handle);
  }

  /** One byte of it was pushed and sent, and is being flushed. */
  lemma FirstByte(init: State, most: nat) returns (st: State)
    requires Serves(init) && most >= 1
    ensures Leads(init, st, most) && 1 in st.core.tree && 1 in st.core.buffers && WriterIdle(st, 1)
    ensures st.core.buffers[1].data == [] && !st.core.buffers[1].complete && IsSet(st.core.buffers[1].paused)
    ensures st.send == SentData(1) && CanSend(st.core.h2, 1)
  {
    var st2 := Opened(init, most);
    LeadsOn(init, st2, most, Write(1, [0]));
    var st3 := Apply(st2, Write(1, [0]));
    assert st3.core.buffers[1].data == [0];
    LeadsOn(init, st3, most, Schedule(1));
    st := Apply(st3, Schedule(1));
  }

  lemma LeftOverToken(init: State, most: nat) returns (st: State)
    requires Serves(init) && most >= 1
    ensures Leads(init, st, most) && Filling(st, 0, true)
  {
    var st1 := FirstByte(init, most);
    LeadsOn(init, st1, most, ResumeSendTask);
    st := Apply(st1, ResumeSendTask);
  }

  /** The left-over token lets one push through: for every push size a run reaches the bound of
      BufferBound exactly. */
  lemma BufferBoundIsAttained(init: State, most: nat)
    requires Serves(init) && most >= 1
    ensures exists st :: Leads(init, st, most) && 1 in st.core.buffers
                         && |st.core.buffers[1].data| == HIGH_WATER - 1 + 2 * most
  {
    var chunk := seq(most, i => 0 as byte);
    var st := LeftOverToken(init, most);
    st := Fill(init, st, 0, true, most);
    LeadsOn(init, st, most, Write(1, chunk));
    var st1 := Apply(st, Write(1, chunk));
    LeadsOn(init, st1, most, ResumeWriter(1));
    var st2 := Apply(st1, ResumeWriter(1));
    LeadsOn(init, st2, most, Write(1, chunk));
    var st3 := Apply(st2, Write(1, chunk));
    assert |st3.core.buffers[1].data| == HIGH_WATER - 1 + 2 * most;
  }

  // ---- runs to the two failures -----------------------------------------------------------------

  /** An app that pushes an empty chunk right behind its only byte, and then ends its body. */
  lemma EmptyPushIsReached(init: State, most: nat) returns (st: State)
    requires Serves(init) && most >= 1
    ensures Leads(init, st, most) && Stranded(st, 1)
  {
    var st1 := FirstByte(init, most);
    LeadsToInv(init, st1, most);
    EmptyPushStrands(st1, most, 1);
    st := LeadsFurther(init, st1, most, [Write(1, []), Finish(1), ResumeSendTask, ResumeSendTask]);
  }

  lemma LeadsToInv(init: State, st: State, most: nat)
    requires IsInitial(init) && Leads(init, st, most)
    ensures Inv(st, most)
  {
    var steps :| WritesBounded(steps, most) && Run(init, steps) == Some(st);
    InitialInv(init, most);
    RunInv(init, most, steps);
  }

  lemma LeadsFurther(init: State, st: State, most: nat, more: seq<Step>) returns (last: State)
    requires Leads(init, st, most) && WritesBounded(more, most) && Run(st, more).Some?
    ensures Leads(init, last, most) && Run(st, more) == Some(last)
  {
    var steps :| WritesBounded(steps, most) && Run(init, steps) == Some(st);
    RunConcat(init, steps, more);
    assert WritesBounded(steps + more, most);
    last := Run(st, more).value;
  }

  /** The connection is lost and the send task stops. */
  lemma Lost(init: State, st: State, most: nat) returns (last: State)
    requires Leads(init, st, most) && st.send == Looping
    ensures Leads(init, last, most) && last == st.(core := st.core.(closed := true), send := Stopped)
  {
    LeadsOn(init, st, most, ConnectionLost);
    var st1 := Apply(st, ConnectionLost);
    LeadsOn(init, st1, most, StopSendTask);
    last := Apply(st1, StopSendTask);
  }

  /** An app that has filled its buffer is left waiting on it. */
  lemma PushIsLeftWaiting(init: State, most: nat) returns (st: State)
    requires Serves(init) && most >= 1
    ensures Leads(init, st, most) && st.send == Stopped && WaitsOnBuffer(st, 1) && st.writers[1].Pushing?
  {
    var st1 := Opened(init, most);
    st1 := Fill(init, st1, 0, false, most);
    LeadsOn(init, st1, most, Write(1, [0]));
    var st2 := Apply(st1, Write(1, [0]));
    st := Lost(init, st2, most);
  }

  /** So is one that has pushed a byte and ended its body. */
  lemma DrainIsLeftWaiting(init: State, most: nat) returns (st: State)
    requires Serves(init) && most >= 1
    ensures Leads(init, st, most) && st.send == Stopped && WaitsOnBuffer(st, 1) && st.writers[1].Draining?
  {
    var st1 := Opened(init, most);
    LeadsOn(init, st1, most, Write(1, [0]));
    var st2 := Apply(st1, Write(1, [0]));
    LeadsOn(init, st2, most, Finish(1));
    var st3 := Apply(st2, Finish(1));
    st := Lost(init, st3, most);
  }
}
