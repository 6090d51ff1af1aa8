/** What an HTTP/2 connection does get done: the counterpart of H2Theorems, which says what it never
    does. Everything is said of the wire, the buffers and the tree. */
module H2Progress {
  import opened Common
  import opened EventObjects
  import opened StreamBuffers
  import opened H2Core
  import opened H2Runs
  import opened H2Invariant
  import opened H2Theorems

  lemma ReachedKeys(init: State, steps: seq<Step>, most: nat, st: State)
    requires ReachedBy(init, steps, most, st)
    ensures st.core.buffers.Keys <= st.core.tree.Keys && st.writers.Keys == st.pushed.Keys
    ensures st.core.buffers.Keys <= st.core.h2.channels.Keys && st.core.buffers.Keys <= st.writers.Keys
    ensures st.send.Parked? ==> st.send.event == Current(st.core.hasData)
    ensures st.core.h2.maxFrame >= 1
  {
    ReachedInv(init, steps, most, st);
  }

  // ---- the end of a stream ----------------------------------------------------------------------------

  /** Everything of the stream has been written and has left, and h2 takes its end. */
  predicate AwaitsEnd(st: State, s: StreamId) {
    && s in st.core.buffers && st.core.buffers[s].complete && st.core.buffers[s].data == []
    && CanSend(st.core.h2, s)
  }

  /** The end of the stream, and nothing else, has left, and its flush is all that is waited for. */
  predicate EndLeft(st: State, next: State, s: StreamId) {
    && next.core.h2.wire == st.core.h2.wire + [EndFrame(s)] && !CanSend(next.core.h2, s)
    && next.send == SentEnd(s) && next.core.buffers.Keys == st.core.buffers.Keys
    && next.core.tree.Keys == st.core.tree.Keys && next.pushed == st.pushed
  }

  /** A finished stream whose turn comes gets its END_STREAM. */
  lemma ScheduledEndLeaves(init: State, steps: seq<Step>, most: nat, st: State, s: StreamId)
    requires ReachedBy(init, steps, most, st) && Enabled(st, Schedule(s)) && AwaitsEnd(st, s)
    ensures EndLeft(st, Apply(st, Schedule(s)), s)
  {
    ReachedInv(init, steps, most, st);
  }

  /** So does one whose last bytes have just been flushed, before anything else is scheduled. */
  lemma FlushedEndLeaves(init: State, steps: seq<Step>, most: nat, st: State, s: StreamId)
    requires ReachedBy(init, steps, most, st) && st.send == SentData(s) && AwaitsEnd(st, s)
    ensures Enabled(st, ResumeSendTask) && EndLeft(st, Apply(st, ResumeSendTask), s)
  {
  }

  /** Behind the flush of its end, whatever happened meanwhile, a stream is gone from the table and
      from the tree, and no other is. */
  lemma EndedStreamIsRetired(init: State, steps: seq<Step>, most: nat, st: State, s: StreamId)
    requires ReachedBy(init, steps, most, st) && st.send == SentEnd(s)
    ensures Enabled(st, ResumeSendTask)
    ensures
      var next := Apply(st, ResumeSendTask);
      && next.core.buffers == st.core.buffers - {s} && next.core.tree == st.core.tree - {s}
      && next.core.h2 == st.core.h2 && next.send == Looping
  {
    ReachedKeys(init, steps, most, st);
  }

  // ---- the send task on its own -------------------------------------------------------------------------

  predicate OfSendTask(steps: seq<Step>) {
    forall i :: 0 <= i < |steps| ==> steps[i].Schedule? || steps[i].ResumeSendTask?
  }

  /** The task is not over, and may pick s once it comes round. */
  predicate MayPick(st: State, s: StreamId) {
    !st.core.closed && st.send != Stopped && s in st.core.buffers && s in st.core.tree && !st.core.tree[s]
    && CanSend(st.core.h2, s)
  }

  /** What the task does for other streams leaves stream s alone. */
  predicate Untouched(st: State, next: State, s: StreamId)
    requires CanSend(st.core.h2, s)
  {
    && MayPick(next, s) && Usable(next.core.h2, s) == Usable(st.core.h2, s)
    && s in st.core.buffers && next.core.buffers[s] == st.core.buffers[s]
    && DataOf(next.core.h2.wire, s) == DataOf(st.core.h2.wire, s)
  }

  lemma FlushLeaves(st: State, t: StreamId, s: StreamId)
    requires MayPick(st, s) && st.send == SentData(t) && t != s
    ensures
      var next := Apply(st, ResumeSendTask);
      Untouched(st, next, s) && (next.send == Looping || next.send == SentEnd(t))
  {
    if t in st.core.buffers && st.core.buffers[t].Finished() && CanSend(st.core.h2, t) {
      WireGrows(st.core.h2.wire, EndFrame(t));
    }
  }

  lemma RetireLeaves(st: State, t: StreamId, s: StreamId)
    requires MayPick(st, s) && st.send == SentEnd(t) && t != s
    ensures
      var next := Apply(st, ResumeSendTask);
      Untouched(st, next, s) && next.send == Looping
  {
  }

  lemma ResumeLeaves(st: State, most: nat, s: StreamId)
    requires Inv(st, most) && MayPick(st, s) && Enabled(st, ResumeSendTask)
    requires st.send != SentData(s)
    ensures
      var next := Apply(st, ResumeSendTask);
      Untouched(st, next, s) && (next.send == Looping || (next.send.SentEnd? && next.send.s != s))
  {
    if st.send.SentData? {
      FlushLeaves(st, st.send.s, s);
    } else if st.send.SentEnd? {
      RetireLeaves(st, st.send.s, s);
    }
  }

  lemma MayResume(st: State, most: nat, s: StreamId)
    requires Inv(st, most) && MayPick(st, s) && st.send != Looping
    ensures Enabled(st, ResumeSendTask)
  {
  }

  lemma NextRound(st: State, most: nat, s: StreamId) returns (next: State)
    requires Inv(st, most) && MayPick(st, s) && st.send != SentData(s) && st.send != Looping
    ensures Enabled(st, ResumeSendTask) && next == Apply(st, ResumeSendTask) && Inv(next, most)
    ensures Untouched(st, next, s) && (next.send == Looping || (next.send.SentEnd? && next.send.s != s))
    ensures st.send.SentEnd? ==> next.send == Looping
  {
    MayResume(st, most, s);
    ResumeLeaves(st, most, s);
    StepInv(st, most, ResumeSendTask);
    next := Apply(st, ResumeSendTask);
  }

  /** From wherever it is suspended, the task comes round to its loop. */
  lemma ComesRound(st: State, most: nat, s: StreamId) returns (steps: seq<Step>, last: State)
    requires Inv(st, most) && MayPick(st, s) && st.send != SentData(s)
    ensures Run(st, steps) == Some(last) && OfSendTask(steps) && Inv(last, most)
    ensures last.send == Looping && Untouched(st, last, s)
    decreases if st.send == Looping then 0 else if st.send.SentEnd? then 1 else 2
  {
    steps, last := [], st;
    if st.send != Looping {
      var rest;
      var next := NextRound(st, most, s);
      rest, last := ComesRound(next, most, s);
      steps := [ResumeSendTask] + rest;
      assert steps[1..] == rest;
      UntouchedTwice(st, next, last, s);
    }
  }

  lemma UntouchedTwice(st: State, mid: State, last: State, s: StreamId)
    requires CanSend(st.core.h2, s) && Untouched(st, mid, s) && Untouched(mid, last, s)
    ensures Untouched(st, last, s)
  {
  }

  /** Its turn, and the flush behind it. */
  lemma EndFromLoop(st: State, s: StreamId) returns (steps: seq<Step>, last: State)
    requires MayPick(st, s) && st.send == Looping && AwaitsEnd(st, s)
    ensures Run(st, steps) == Some(last) && OfSendTask(steps)
    ensures EndFrame(s) in last.core.h2.wire && s !in last.core.buffers && s !in last.core.tree
  {
    var next := Apply(st, Schedule(s));
    assert EndLeft(st, next, s);
    steps, last := [Schedule(s), ResumeSendTask], Apply(next, ResumeSendTask);
    assert steps[1..] == [ResumeSendTask] && [ResumeSendTask][1..] == [];
  }

  lemma EndFromFlush(st: State, s: StreamId) returns (steps: seq<Step>, last: State)
    requires st.send == SentData(s) && AwaitsEnd(st, s)
    ensures Run(st, steps) == Some(last) && OfSendTask(steps)
    ensures EndFrame(s) in last.core.h2.wire && s !in last.core.buffers && s !in last.core.tree
  {
    var next := Apply(st, ResumeSendTask);
    assert EndLeft(st, next, s);
    steps, last := [ResumeSendTask, ResumeSendTask], Apply(next, ResumeSendTask);
    assert steps[1..] == [ResumeSendTask] && [ResumeSendTask][1..] == [];
  }

  lemma AwaitsItsTurn(st: State, most: nat, s: StreamId)
    requires Inv(st, most) && AwaitsEnd(st, s)
    ensures s in st.core.tree && !st.core.tree[s]
  {
    assert StreamOk(st, most, s);
  }

  /** From every reached state in which a stream awaits its end, the send task alone sends it and
      retires the stream, as long as the connection is not closed. */
  lemma FinishedStreamIsEnded(init: State, steps: seq<Step>, most: nat, st: State, s: StreamId)
    returns (more: seq<Step>, last: State)
    requires ReachedBy(init, steps, most, st) && AwaitsEnd(st, s) && !st.core.closed && st.send != Stopped
    ensures Run(st, more) == Some(last) && OfSendTask(more)
    ensures EndFrame(s) in last.core.h2.wire && s !in last.core.buffers && s !in last.core.tree
  {
    ReachedInv(init, steps, most, st);
    AwaitsItsTurn(st, most, s);
    if st.send == SentData(s) {
      more, last := EndFromFlush(st, s);
    } else {
      var round, mid := ComesRound(st, most, s);
      more, last := EndFromLoop(mid, s);
      RunAppend(st, round, mid, more);
      more := round + more;
    }
  }

  /** And from every one in which bytes are waiting for nothing but their turn, some of them. */
  lemma WaitingBytesLeave(init: State, steps: seq<Step>, most: nat, st: State, s: StreamId)
    returns (more: seq<Step>, last: State)
    requires ReachedBy(init, steps, most, st) && MayPick(st, s)
    requires st.core.buffers[s].data != [] && Usable(st.core.h2, s) > 0
    ensures Run(st, more) == Some(last) && OfSendTask(more)
    ensures |DataOf(last.core.h2.wire, s)| > |DataOf(st.core.h2.wire, s)|
  {
    ReachedInv(init, steps, most, st);
    var mid;
    more, mid := [], st;
    if st.send == SentData(s) {
      more, mid := [ResumeSendTask], Apply(st, ResumeSendTask);
      assert more[1..] == [] && mid == st.(send := Looping);
    } else {
      more, mid := ComesRound(st, most, s);
    }
    last := Apply(mid, Schedule(s));
    ChunkLeaves(mid, s);
    assert [Schedule(s)][1..] == [];
    RunAppend(st, more, mid, [Schedule(s)]);
    more := more + [Schedule(s)];
  }

  lemma ChunkLeaves(st: State, s: StreamId)
    requires Flow(st.core.h2) && MayPick(st, s) && st.send == Looping
    requires st.core.buffers[s].data != [] && Usable(st.core.h2, s) > 0
    ensures |DataOf(Apply(st, Schedule(s)).core.h2.wire, s)| > |DataOf(st.core.h2.wire, s)|
  {
    var d := Taken(st.core.buffers[s], ChunkSize(st.core.h2, Usable(st.core.h2, s)));
    OwnFrame(st.core.h2.wire, DataFrame(s, d));
  }

  lemma {:induction false} RunAppend(st: State, a: seq<Step>, mid: State, b: seq<Step>)
    requires Run(st, a) == Some(mid)
    ensures Run(st, a + b) == Run(mid, b)
    decreases |a|
  {
    if a == [] {
      assert a + b == b;
    } else {
      assert (a + b)[1..] == a[1..] + b;
      RunAppend(Apply(st, a[0]), a[1..], mid, b);
    }
  }

  // ---- a turn that sends nothing ------------------------------------------------------------------------

  /** A stream that has nothing to send, or no window to send it in, is blocked, and only that: the send
      task does not come back to it before somebody unblocks it. */
  lemma IdleStreamIsBlocked(init: State, steps: seq<Step>, most: nat, st: State, s: StreamId)
    requires ReachedBy(init, steps, most, st) && Enabled(st, Schedule(s)) && s in st.core.buffers
    requires CanSend(st.core.h2, s) && !(st.core.buffers[s].complete && st.core.buffers[s].data == [])
    requires st.core.buffers[s].data == [] || Usable(st.core.h2, s) <= 0
    ensures
      var next := Apply(st, Schedule(s));
      && next.core.tree == st.core.tree[s := true] && next.core.h2 == st.core.h2 && next.send == Looping
      && next.core.buffers.Keys == st.core.buffers.Keys
      && next.core.buffers[s].data == st.core.buffers[s].data
      && next.core.buffers[s].complete == st.core.buffers[s].complete
  {
    ReachedKeys(init, steps, most, st);
  }

  /** h2 will take nothing of the stream: it has forgotten it, or refuses what is there to be sent. */
  predicate Refused(st: State, s: StreamId) {
    || s !in st.core.buffers || s !in st.core.h2.channels || st.core.h2.channels[s].status == Gone
    || (!CanSend(st.core.h2, s)
        && (if st.core.buffers[s].data == [] then st.core.buffers[s].complete else Usable(st.core.h2, s) > 0))
  }

  /** Such a stream leaves the table and the tree, and its writer may go on. */
  lemma RefusedStreamIsDropped(init: State, steps: seq<Step>, most: nat, st: State, s: StreamId)
    requires ReachedBy(init, steps, most, st) && Enabled(st, Schedule(s)) && Refused(st, s)
    ensures
      var next := Apply(st, Schedule(s));
      && next.core.buffers == st.core.buffers - {s} && next.core.tree == st.core.tree - {s}
      && next.core.h2 == st.core.h2 && next.send == Looping
      && (s in st.core.buffers ==> s in next.writers && (next.writers[s] == Idle || WriterReleased(next, s)))
  {
    ReachedKeys(init, steps, most, st);
    RefusedChunkIsClosed(st, s);
    if s in st.core.buffers {
      WriterWaitsHere(init, steps, most, st, s);
    }
  }

  lemma RefusedChunkIsClosed(st: State, s: StreamId)
    requires Refused(st, s) && st.core.h2.maxFrame >= 1 && s in st.core.tree
    ensures SendChunk(st.core, s) == (Discard(st.core, s), Looping)
  {
    var c := st.core;
    var w := LocalWindow(c.h2, s);
    if s in c.buffers && w.Some? {
      var limit := ChunkSize(c.h2, w.value);
      RefusedChunk(c, s, limit);
      var popped := c.(buffers := c.buffers[s := Pop(c.buffers[s], limit)]);
      if Taken(c.buffers[s], limit) == [] {
        var blocked := popped.(tree := popped.tree[s := true]);
        assert SendEnd(blocked, s) == (Discard(blocked, s), Looping);
        assert blocked.tree - {s} == popped.tree - {s};
        assert Discard(blocked, s) == Discard(popped, s);
      } else {
        assert SendData(c.h2, s, Taken(c.buffers[s], limit)).None?;
      }
    }
  }

  lemma WriterWaitsHere(init: State, steps: seq<Step>, most: nat, st: State, s: StreamId)
    requires ReachedBy(init, steps, most, st) && s in st.core.buffers
    ensures s in st.writers && (st.writers[s].Pushing? ==> st.writers[s].event == Current(st.core.buffers[s].paused))
    ensures st.writers[s].Draining? ==> st.writers[s].event == Current(st.core.buffers[s].empty)
  {
    ReachedInv(init, steps, most, st);
    assert StreamOk(st, most, s);
  }

  // ---- the writers --------------------------------------------------------------------------------------

  /** The stream may be picked, and the send task is not asleep. */
  predicate Nudged(st: State, s: StreamId) {
    s in st.core.tree && !st.core.tree[s] && (st.send.Parked? ==> Enabled(st, ResumeSendTask))
  }

  /** Every chunk written to a stream whose body has not been ended is taken whole, behind what is there;
      the writer waits exactly if that fills the buffer. */
  lemma WriteIsTaken(init: State, steps: seq<Step>, most: nat, st: State, s: StreamId, d: Bytes)
    requires ReachedBy(init, steps, most, st) && Enabled(st, Write(s, d))
    requires s in st.core.buffers && !st.core.buffers[s].complete
    ensures
      var next := Apply(st, Write(s, d));
      && s in st.pushed && next.pushed == st.pushed[s := st.pushed[s] + d]
      && next.core.buffers.Keys == st.core.buffers.Keys
      && next.core.buffers[s].data == st.core.buffers[s].data + d && !next.core.buffers[s].complete
      && next.core.h2 == st.core.h2 && Nudged(next, s)
      && (next.writers[s].Pushing? <==> |st.core.buffers[s].data + d| >= HIGH_WATER)
      && (!next.writers[s].Pushing? ==> next.writers[s] == Idle)
  {
    ReachedKeys(init, steps, most, st);
  }

  /** The end of a body completes the buffer as it is, and the writer waits for it to be drained. */
  lemma FinishIsTaken(init: State, steps: seq<Step>, most: nat, st: State, s: StreamId)
    requires ReachedBy(init, steps, most, st) && Enabled(st, Finish(s)) && s in st.core.buffers
    ensures
      var next := Apply(st, Finish(s));
      && next.pushed == st.pushed && next.core.buffers.Keys == st.core.buffers.Keys
      && next.core.buffers[s].data == st.core.buffers[s].data && next.core.buffers[s].complete
      && next.core.h2 == st.core.h2 && Nudged(next, s)
      && next.writers[s] == Draining(Current(next.core.buffers[s].empty), false)
  {
    ReachedKeys(init, steps, most, st);
  }

  /** Trailers wait for the buffer to be drained */
  lemma TrailersAreTaken(init: State, steps: seq<Step>, most: nat, st: State, s: StreamId)
    requires ReachedBy(init, steps, most, st) && Enabled(st, Trail(s)) && s in st.core.buffers
    ensures
      var next := Apply(st, Trail(s));
      && next.pushed == st.pushed && next.core.buffers == st.core.buffers && next.core.h2 == st.core.h2
      && Nudged(next, s) && next.writers[s] == Draining(Current(st.core.buffers[s].empty), true)
  {
    ReachedKeys(init, steps, most, st);
  }

  /** and then leave, exactly if h2 still takes them; the writer goes on. */
  lemma TrailersLeave(init: State, steps: seq<Step>, most: nat, st: State, s: StreamId)
    requires ReachedBy(init, steps, most, st) && Enabled(st, ResumeWriter(s))
    requires st.writers[s].Draining? && st.writers[s].trailers
    ensures
      var next := Apply(st, ResumeWriter(s));
      && next.core.h2.wire == st.core.h2.wire + (if CanSend(st.core.h2, s) then [TrailersFrame(s)] else [])
      && !CanSend(next.core.h2, s) && next.writers[s] == Idle
  {
  }

  /** Of all steps only a pop of the stream itself marks its pause as over, and only below the mark. */
  predicate PauseKept(st: State, c: Core, s: StreamId) {
    s in c.buffers ==>
      && s in st.core.buffers
      && (c.buffers[s].paused == st.core.buffers[s].paused || |c.buffers[s].data| < LOW_WATER)
  }

  lemma PopKeepsPause(st: State, t: StreamId, s: StreamId)
    ensures t in st.core.tree ==> PauseKept(st, SendChunk(st.core, t).0, s)
    ensures PauseKept(st, SendEnd(st.core, t).0, s) && PauseKept(st, Retire(st.core, t), s)
  {
  }

  lemma ReaderKeepsPause(st: State, s: StreamId)
    requires Pending(st) && st.pending != [] && s in st.writers
    ensures PauseKept(st, Handled(st).core, s) && s in Handled(st).writers
    ensures Handled(st).writers[s] == st.writers[s]
  {
    assert NoticeFits(st, st.pending[0]);
  }

  lemma OthersKeepPause(st: State, t: StreamId, d: Bytes, s: StreamId)
    requires t != s
    ensures PauseKept(st, WriteBody(st.core, t, d).0, s) && PauseKept(st, WriteEnd(st.core, t).0, s)
    ensures PauseKept(st, WriteTrailers(st.core, t).0, s)
    ensures PauseKept(st, ResumePush(st.core, t), s) && PauseKept(st, ResumeTrailers(st.core, t), s)
  {
  }

  lemma StepKeepsPause(st: State, step: Step, s: StreamId)
    requires Pending(st) && Enabled(st, step) && s in st.writers && st.writers[s] != Idle && !WriterReleased(st, s)
    ensures
      var next := Apply(st, step);
      s in next.writers && next.writers[s] == st.writers[s] && PauseKept(st, next.core, s)
  {
    match step
    case Schedule(t) => PopKeepsPause(st, t, s);
    case ResumeSendTask =>
      if !st.send.Parked? {
        PopKeepsPause(st, st.send.s, s);
      }
    case Handle => ReaderKeepsPause(st, s);
    case Write(t, d) => OthersKeepPause(st, t, d, s);
    case Finish(t) => OthersKeepPause(st, t, [], s);
    case Trail(t) => OthersKeepPause(st, t, [], s);
    case ResumeWriter(t) => OthersKeepPause(st, t, [], s);
    case _ =>
  }

  lemma PauseOf(st: State, most: nat, s: StreamId)
    requires Inv(st, most) && s in st.writers && st.writers[s].Pushing?
    ensures
      if s in st.core.buffers then
        && st.writers[s].event == Current(st.core.buffers[s].paused)
        && (!IsSet(st.core.buffers[s].paused) ==> |st.core.buffers[s].data| >= LOW_WATER)
      else WriterReleased(st, s)
  {
    assert StreamOk(st, most, s);
  }

  /** A writer that waits on backpressure is released by a step exactly if that leaves less than the low
      water mark before it, or takes its buffer away. */
  lemma LowWaterReleases(init: State, steps: seq<Step>, most: nat, st: State, step: Step, s: StreamId)
    requires ReachedBy(init, steps, most, st) && Enabled(st, step) && (step.Write? ==> |step.d| <= most)
    requires s in st.writers && st.writers[s].Pushing? && !WriterReleased(st, s)
    ensures
      var next := Apply(st, step);
      && s in st.core.buffers && s in next.writers && next.writers[s] == st.writers[s]
      && (WriterReleased(next, s) <==>
            s !in next.core.buffers || |next.core.buffers[s].data| < LOW_WATER)
  {
    var next := Apply(st, step);
    ReachedInv(init, steps, most, st);
    PauseOf(st, most, s);
    StepInv(st, most, step);
    StepKeepsPause(st, step, s);
    PauseOf(next, most, s);
  }

  // ---- the reader ---------------------------------------------------------------------------------------

  /** A request gets an empty buffer, a tree entry and an idle writer. */
  lemma RequestIsRegistered(init: State, steps: seq<Step>, most: nat, st: State, s: StreamId)
    requires ReachedBy(init, steps, most, st) && st.pending != [] && st.pending[0] == Requested(s)
    ensures
      var next := Apply(st, Handle);
      && s !in st.core.buffers && s in next.core.buffers && s in next.core.tree && WriterIdle(next, s)
      && next.core.buffers[s].data == [] && !next.core.buffers[s].complete && next.pushed[s] == []
      && next.core.buffers - {s} == st.core.buffers && next.pending == st.pending[1..]
      && next.core.tree == (if s in st.core.tree then st.core.tree else st.core.tree[s := true])
  {
    ReachedInv(init, steps, most, st);
    assert NoticeFits(st, st.pending[0]);
  }

  /** One that is declined gets none, and is reset. */
  lemma DeclinedRequestIsReset(init: State, steps: seq<Step>, most: nat, st: State)
    requires ReachedBy(init, steps, most, st) && Enabled(st, Refuse)
    ensures
      var s, next := st.pending[0].s, Apply(st, Refuse);
      && next.core.buffers == st.core.buffers && next.core.tree == st.core.tree && next.writers == st.writers
      && !CanSend(next.core.h2, s) && LocalWindow(next.core.h2, s) == None && next.pending == st.pending[1..]
  {
    ReachedInv(init, steps, most, st);
    assert NoticeFits(st, st.pending[0]);
  }

  /** PRIORITY unblocks nothing and removes nothing: it adds blocked entries for the streams it names. */
  lemma PriorityOnlyAdds(init: State, steps: seq<Step>, most: nat, st: State, s: StreamId, d: StreamId, t: StreamId)
    requires ReachedBy(init, steps, most, st) && st.pending != [] && st.pending[0] == Reprioritised(s, d)
    ensures
      var next := Apply(st, Handle);
      && next.core.buffers == st.core.buffers && next.core.h2 == st.core.h2
      && (t in next.core.tree <==> t in st.core.tree || t == s || (t == d && d != 0))
      && (t in next.core.tree ==> next.core.tree[t] == (t in st.core.tree ==> st.core.tree[t]))
      && (next.send.Parked? ==> Enabled(next, ResumeSendTask))
  {
    ReachedKeys(init, steps, most, st);
  }
}
