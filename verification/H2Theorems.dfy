/** What holds on every run of an HTTP/2 connection, whatever the interleaving. */
module H2Theorems {
  import opened Common
  import opened EventObjects
  import opened StreamBuffers
  import opened H2Core
  import opened H2Runs
  import opened H2Invariant

  /** `st` is the state after a run whose writes hand over at most `most` bytes each. */
  predicate ReachedBy(init: State, steps: seq<Step>, most: nat, st: State) {
    IsInitial(init) && WritesBounded(steps, most) && Run(init, steps) == Some(st)
  }

  lemma ReachedInv(init: State, steps: seq<Step>, most: nat, st: State)
    requires ReachedBy(init, steps, most, st)
    ensures Inv(st, most)
  {
    InitialInv(init, most);
    RunInv(init, most, steps);
  }

  // ---- bytes ------------------------------------------------------------------------------

  /** No byte of a live stream is lost, repeated or reordered, and the wire never carries
      anything but a prefix of what the app wrote. */
  lemma WireIsWhatWasWritten(init: State, steps: seq<Step>, most: nat, st: State, s: StreamId)
    requires ReachedBy(init, steps, most, st) && s in st.pushed
    ensures DataOf(st.core.h2.wire, s) <= st.pushed[s]
    ensures s in st.core.buffers ==>
      DataOf(st.core.h2.wire, s) + st.core.buffers[s].data == st.pushed[s]
  {
    ReachedInv(init, steps, most, st);
    assert StreamOk(st, most, s);
  }

  /** Section 8.1 of RFC 9113: the end of a stream leaves at most once and nothing follows it. An
      END_STREAM on an empty DATA frame comes after every byte the app ever pushed. */
  lemma EndOfStreamIsLast(init: State, steps: seq<Step>, most: nat, st: State, s: StreamId)
    requires ReachedBy(init, steps, most, st) && s in st.pushed
    ensures EndsAreLast(st.core.h2.wire)
    ensures EndFrame(s) in st.core.h2.wire ==> DataOf(st.core.h2.wire, s) == st.pushed[s]
  {
    ReachedInv(init, steps, most, st);
    assert StreamOk(st, most, s);
    if EndFrame(s) in st.core.h2.wire && s in st.core.buffers {
      assert st.core.buffers[s].data == [];
    }
  }

  /** What may leave in a state: a chunk from the head of its buffer that fits the windows and
      the frame size, or the end of a stream all of whose bytes have left. */
  predicate MayLeave(st: State, f: Frame) {
    var c := st.core;
    && CanSend(c.h2, f.s) && f.s in c.buffers && f.s in st.pushed
    && (match f
        case DataFrame(s, d) =>
          && 1 <= |d| <= Usable(c.h2, s) && |d| <= c.h2.maxFrame
          && d <= c.buffers[s].data
        case EndFrame(s) => c.buffers[s].complete && DataOf(c.h2.wire, s) == st.pushed[s]
        case TrailersFrame(s) => DataOf(c.h2.wire, s) == st.pushed[s])
  }

  ghost predicate Emits(st: State, c: Core) {
    || c.h2.wire == st.core.h2.wire
    || (exists f :: c.h2.wire == st.core.h2.wire + [f] && MayLeave(st, f))
  }

  lemma SendEndEmits(st: State, most: nat, s: StreamId)
    requires Inv(st, most)
    ensures Emits(st, SendEnd(st.core, s).0)
  {
    if s in st.core.buffers && st.core.buffers[s].Finished() && CanSend(st.core.h2, s) {
      assert StreamOk(st, most, s);
      assert MayLeave(st, EndFrame(s));
    }
  }

  lemma SendChunkEmits(st: State, most: nat, s: StreamId)
    requires Inv(st, most)
    ensures Emits(st, SendChunk(st.core, s).0)
  {
    var c := st.core;
    var w := LocalWindow(c.h2, s);
    if w.Some? && s in c.buffers {
      assert StreamOk(st, most, s);
      var d := Taken(c.buffers[s], ChunkSize(c.h2, w.value));
      ChunkFits(c.h2, c.buffers[s], s);
      if d != [] && CanSend(c.h2, s) {
        assert MayLeave(st, DataFrame(s, d));
      } else if c.buffers[s].Finished() && CanSend(c.h2, s) {
        assert MayLeave(st, EndFrame(s));
      }
    }
  }

  lemma TrailersEmit(st: State, most: nat, s: StreamId)
    requires Inv(st, most) && Enabled(st, ResumeWriter(s))
    ensures Emits(st, WriterResumed(st, s).core)
  {
    assert StreamOk(st, most, s);
    if CanSend(st.core.h2, s) && st.writers[s].Draining? && st.writers[s].trailers {
      assert MayLeave(st, TrailersFrame(s));
    }
  }

  lemma QuietStep(st: State, step: Step)
    requires Flow(st.core.h2) && 0 !in st.core.h2.channels && Enabled(st, step)
    requires !step.Schedule? && !step.ResumeSendTask? && !step.ResumeWriter?
    ensures Apply(st, step).core.h2.wire == st.core.h2.wire
  {
    if step.Receive? {
      ReceiveFacts(st.core.h2, step.f);
    }
  }

  lemma StepEmits(st: State, most: nat, step: Step)
    requires Inv(st, most) && Enabled(st, step)
    ensures Emits(st, Apply(st, step).core)
  {
    match step
    case Schedule(s) => SendChunkEmits(st, most, s);
    case ResumeSendTask =>
      if st.send.SentData? {
        SendEndEmits(st, most, st.send.s);
      }
    case ResumeWriter(s) => TrailersEmit(st, most, s);
    case _ => QuietStep(st, step);
  }

  /** Sections 6.9.2 and 8.1 of RFC 9113. A step puts at most one frame on the wire. A DATA frame
      is never empty, fits both windows and the frame size, so none leaves while a SETTINGS
      change holds the window of its stream at or below zero; trailers or the end of a stream
      leave only behind all of its bytes. */
  lemma EveryFrameIsAllowed(init: State, steps: seq<Step>, most: nat, st: State, step: Step)
    requires ReachedBy(init, steps, most, st) && Enabled(st, step)
    ensures Emits(st, Apply(st, step).core)
  {
    ReachedInv(init, steps, most, st);
    StepEmits(st, most, step);
  }

  /** A stream that is picked while it has bytes and a usable window sends as much as it may. */
  lemma ScheduledStreamSends(init: State, steps: seq<Step>, most: nat, st: State, s: StreamId)
    requires ReachedBy(init, steps, most, st) && Enabled(st, Schedule(s))
    requires s in st.core.buffers && st.core.buffers[s].data != []
    requires CanSend(st.core.h2, s) && Usable(st.core.h2, s) > 0
    ensures
      var h, data := st.core.h2, st.core.buffers[s].data;
      var n := Min(|data|, Min(Usable(h, s), h.maxFrame));
      Apply(st, Schedule(s)).core.h2.wire == h.wire + [DataFrame(s, data[..n])]
  {
    ReachedInv(init, steps, most, st);
    ChunkFits(st.core.h2, st.core.buffers[s], s);
  }

  // ---- flow control -------------------------------------------------------------------------

  /** Sections 6.9.1 and 6.9.2 of RFC 9113, over all streams together: what was sent never
      exceeds what was granted, and the connection window is the difference. */
  lemma NeverBeyondCredit(init: State, steps: seq<Step>, most: nat, st: State)
    requires ReachedBy(init, steps, most, st)
    ensures st.core.h2.window == st.core.h2.granted - TotalSent(st.core.h2.wire) >= 0
  {
    ReachedInv(init, steps, most, st);
  }

  /** The bytes sent on a stream and its window are the credit the peer has given it: the initial window
      of the stream, its window updates, and the changes of the initial window since. */
  predicate StreamCredit(h: Connection) {
    forall s :: s in h.channels ==> |DataOf(h.wire, s)| + h.channels[s].window == h.channels[s].granted
  }

  predicate SameCredit(h: Connection, h': Connection) {
    && h'.wire == h.wire && h'.channels.Keys == h.channels.Keys
    && forall s :: s in h.channels ==>
         h'.channels[s].window == h.channels[s].window && h'.channels[s].granted == h.channels[s].granted
  }

  lemma DataKeepsCredit(h: Connection, s: StreamId, d: Bytes, h': Connection)
    requires StreamCredit(h) && SendData(h, s, d) == Some(h')
    ensures StreamCredit(h')
  {
    WireGrows(h.wire, DataFrame(s, d));
  }

  lemma LastKeepsCredit(h: Connection, s: StreamId, trailers: bool, h': Connection)
    requires StreamCredit(h) && SendLast(h, s, trailers) == Some(h')
    ensures StreamCredit(h')
  {
    WireGrows(h.wire, if trailers then TrailersFrame(s) else EndFrame(s));
  }

  lemma EndKeepsCredit(c: Core, s: StreamId)
    requires StreamCredit(c.h2)
    ensures StreamCredit(SendEnd(c, s).0.h2)
  {
    if SendLast(c.h2, s, false).Some? {
      LastKeepsCredit(c.h2, s, false, SendLast(c.h2, s, false).value);
    }
  }

  lemma ChunkKeepsCredit(c: Core, s: StreamId)
    requires StreamCredit(c.h2)
    ensures StreamCredit(SendChunk(c, s).0.h2)
  {
    var w := LocalWindow(c.h2, s);
    if w.Some? && s in c.buffers {
      var limit := ChunkSize(c.h2, w.value);
      var d := Taken(c.buffers[s], limit);
      var popped := c.(buffers := c.buffers[s := Pop(c.buffers[s], limit)]);
      if d == [] {
        EndKeepsCredit(popped.(tree := popped.tree[s := true]), s);
      } else if SendData(c.h2, s, d).Some? {
        DataKeepsCredit(c.h2, s, d, SendData(c.h2, s, d).value);
      }
    }
  }

  /** A new stream starts with the window it is given, and no byte was sent on it before. */
  lemma ReceiveKeepsCredit(st: State, f: PeerFrame)
    requires Globals(st) && StreamCredit(st.core.h2)
    ensures StreamCredit(ReceiveFrame(st.core.h2, f).0)
  {
    var h := st.core.h2;
    if f.Headers? && f.s !in h.channels {
      NoFramesNoData(h.wire, f.s);
    }
  }

  lemma OthersKeepCredit(st: State, step: Step)
    requires Enabled(st, step)
    requires !step.Schedule? && !step.ResumeSendTask? && !step.ResumeWriter? && !step.Receive?
    ensures SameCredit(st.core.h2, Apply(st, step).core.h2)
  {
  }

  lemma StepKeepsCredit(st: State, step: Step)
    requires Globals(st) && StreamCredit(st.core.h2) && Enabled(st, step)
    ensures StreamCredit(Apply(st, step).core.h2)
  {
    if step.Schedule? {
      ChunkKeepsCredit(st.core, step.s);
    } else if step.ResumeSendTask? {
      if st.send.SentData? {
        EndKeepsCredit(st.core, st.send.s);
      }
    } else if step.ResumeWriter? {
      if SendLast(st.core.h2, step.s, true).Some? {
        LastKeepsCredit(st.core.h2, step.s, true, SendLast(st.core.h2, step.s, true).value);
      }
    } else if step.Receive? {
      ReceiveKeepsCredit(st, step.f);
    } else {
      OthersKeepCredit(st, step);
    }
  }

  lemma {:induction false} RunKeepsCredit(st: State, most: nat, steps: seq<Step>)
    requires Inv(st, most) && StreamCredit(st.core.h2) && WritesBounded(steps, most) && Run(st, steps).Some?
    ensures StreamCredit(Run(st, steps).value.core.h2)
    decreases |steps|
  {
    if steps != [] {
      StepInv(st, most, steps[0]);
      StepKeepsCredit(st, steps[0]);
      assert forall i :: 0 <= i < |steps| - 1 ==> steps[1..][i] == steps[i + 1];
      RunKeepsCredit(Apply(st, steps[0]), most, steps[1..]);
    }
  }

  lemma NeverBeyondStreamCredit(init: State, steps: seq<Step>, most: nat, st: State)
    requires ReachedBy(init, steps, most, st)
    ensures StreamCredit(st.core.h2)
  {
    InitialInv(init, most);
    RunKeepsCredit(init, most, steps);
  }

  // ---- no stalled stream -----------------------------------------------------------------------

  /** While the send task is parked and nobody has nudged it, every stream of the tree is
      blocked, a stream that still has bytes is held up by the peer alone: its window is used up, or
      the reader has the event that opens it in hand; and none that is finished is still open. */
  lemma NoStalledStream(init: State, steps: seq<Step>, most: nat, st: State, s: StreamId)
    requires ReachedBy(init, steps, most, st)
    requires st.send.Parked? && !Released(st.core.hasData, st.send.event)
    ensures AllBlocked(st.core) && st.core.buffers.Keys <= st.core.tree.Keys
    ensures s in st.core.buffers && st.core.buffers[s].data != [] && CanSend(st.core.h2, s) ==>
      Usable(st.core.h2, s) <= 0 || CreditPending(st.pending, s)
    ensures s in st.core.buffers && st.core.buffers[s].complete && st.core.buffers[s].data == [] ==>
      !CanSend(st.core.h2, s)
  {
    ReachedInv(init, steps, most, st);
    if s in st.core.buffers {
      assert StreamOk(st, most, s);
    }
  }

  lemma CreditWakes(st: State, s: StreamId)
    requires Globals(st) && st.pending != [] && Covers(st.pending[0], s) && s in st.core.buffers
    ensures
      var st' := Handled(st);
      && s in st'.core.tree && !st'.core.tree[s]
      && (st'.send.Parked? ==> Released(st'.core.hasData, st'.send.event))
  {
  }

  /** Handling that event unblocks the stream and lets the send task go on. */
  lemma CreditWakesSendTask(init: State, steps: seq<Step>, most: nat, st: State, s: StreamId)
    requires ReachedBy(init, steps, most, st)
    requires st.pending != [] && Covers(st.pending[0], s) && s in st.core.buffers
    ensures
      var st' := Apply(st, Handle);
      && s in st'.core.tree && !st'.core.tree[s]
      && (st'.send.Parked? ==> Enabled(st', ResumeSendTask))
  {
    ReachedInv(init, steps, most, st);
    CreditWakes(st, s);
  }

  // ---- backpressure ---------------------------------------------------------------------------

  /** However the pops fall, a buffer stays below HIGH_WATER + 2 * most; a writer that is still
      parked has LOW_WATER bytes to wait for. */
  lemma BufferBound(init: State, steps: seq<Step>, most: nat, st: State, s: StreamId)
    requires ReachedBy(init, steps, most, st) && s in st.core.buffers
    ensures s in st.writers && |st.core.buffers[s].data| <= HIGH_WATER - 1 + 2 * most
    ensures st.writers[s].Pushing? && !WriterReleased(st, s) ==> |st.core.buffers[s].data| >= LOW_WATER
  {
    ReachedInv(init, steps, most, st);
    assert StreamOk(st, most, s);
  }

  /** No lost wakeup: the send task and every writer of a live stream either may go on already or
      wait on the object that the next `set` of their wrapper fires. */
  lemma WaitersAreReachable(init: State, steps: seq<Step>, most: nat, st: State, s: StreamId)
    requires ReachedBy(init, steps, most, st) && s in st.core.buffers
    ensures s in st.writers && (st.send.Parked? ==> Reachable(st.core.hasData, st.send.event))
    ensures st.writers[s].Pushing? ==> Reachable(st.core.buffers[s].paused, st.writers[s].event)
    ensures st.writers[s].Draining? ==> Reachable(st.core.buffers[s].empty, st.writers[s].event)
  {
    ReachedInv(init, steps, most, st);
    assert StreamOk(st, most, s);
  }

  lemma ResetReleases(st: State, most: nat, s: StreamId)
    requires Globals(st) && s in st.core.buffers && StreamOk(st, most, s)
    requires st.pending != [] && st.pending[0] == WasReset(s)
    ensures
      var st' := Handled(st);
      && s !in st'.core.buffers && s !in st'.core.tree && s in st'.writers
      && (st'.writers[s] == Idle || WriterReleased(st', s))
      && (st'.send.Parked? ==> Enabled(st', ResumeSendTask))
  {
  }

  /** A reset by the peer drops the buffer and the tree entry and lets the writer of the stream
      go on, wherever it was parked, and the send task too. */
  lemma ResetReleasesWriter(init: State, steps: seq<Step>, most: nat, st: State, s: StreamId)
    requires ReachedBy(init, steps, most, st) && s in st.core.buffers
    requires st.pending != [] && st.pending[0] == WasReset(s)
    ensures
      var st' := Apply(st, Handle);
      && s !in st'.core.buffers && s !in st'.core.tree && s in st'.writers
      && (st'.writers[s] == Idle || Enabled(st', ResumeWriter(s)))
      && (st'.send.Parked? ==> Enabled(st', ResumeSendTask))
  {
    ReachedInv(init, steps, most, st);
    ResetReleases(st, most, s);
    assert Apply(st, Handle) == Handled(st);
  }
}
