/** The invariant of H2Runs and the proof that every step keeps it. */
module H2Invariant {
  import opened Common
  import opened EventObjects
  import opened StreamBuffers
  import opened H2Core
  import opened H2Runs

  /** Which streams are known where. */
  predicate Keys(st: State) {
    var c := st.core;
    && c.buffers.Keys <= c.tree.Keys
    && c.buffers.Keys !! c.detached.Keys
    && st.writers.Keys == c.buffers.Keys + c.detached.Keys
    && st.pushed.Keys == st.writers.Keys
    && st.writers.Keys <= c.h2.channels.Keys
    && 0 !in c.h2.channels
  }

  /** Notices fit what h2 knows, and a stream is announced once. */
  predicate Pending(st: State) {
    && (forall i :: 0 <= i < |st.pending| ==> NoticeFits(st, st.pending[i]))
    && (forall i, j :: 0 <= i < j < |st.pending| && st.pending[i].Requested? ==> st.pending[i] != st.pending[j])
  }

  predicate NoticeFits(st: State, n: Notice) {
    match n
    case Requested(s) => s in st.core.h2.channels && s !in st.writers
    case WasReset(s) => s in st.core.h2.channels && st.core.h2.channels[s].status == Gone
    case _ => true
  }

  /** Section 6.9.1 of RFC 9113: what was sent is what was granted, less what is left. */
  predicate Flow(h: Connection) {
    && h.maxFrame >= 1
    && h.window >= 0
    && TotalSent(h.wire) + h.window == h.granted
  }

  predicate Wire(st: State) {
    && EndsAreLast(st.core.h2.wire)
    && forall i :: 0 <= i < |st.core.h2.wire| ==> st.core.h2.wire[i].s in st.writers
  }

  /** A parked send task waits on the current object, and while that is unset nothing can be sent. */
  predicate SendTask(st: State) {
    match st.send
    case Parked(e) =>
      e == Current(st.core.hasData) && (!IsSet(st.core.hasData) ==> AllBlocked(st.core))
    case SentData(s) => s in st.writers
    case SentEnd(s) =>
      s in st.writers && !CanSend(st.core.h2, s) && (s in st.core.buffers ==> st.core.buffers[s].Finished())
    case _ => true
  }

  /** The marks of one live buffer, for a writer that pushes at most `most` bytes at a time. */
  predicate Backpressure(b: Buffer, w: WriterPc, most: nat) {
    match w
    case Pushing(e) =>
      && e == Current(b.paused)
      && !b.complete
      && |b.data| < HIGH_WATER + 2 * most
      && (IsSet(b.paused) ==> |b.data| < HIGH_WATER + most)
      && (!IsSet(b.paused) ==> |b.data| >= LOW_WATER)
    case _ =>
      && |b.data| < HIGH_WATER + most
      && (IsSet(b.paused) ==> |b.data| < HIGH_WATER)
      && (w.Draining? ==> w.event == Current(b.empty))
  }

  predicate Covers(n: Notice, s: StreamId) {
    n == WindowOpened(0) || n == WindowOpened(s) || n == InitialWindowChanged
  }

  /** The reader has yet to handle an event that opens the window of stream s. */
  predicate CreditPending(pending: seq<Notice>, s: StreamId) {
    exists i :: 0 <= i < |pending| && Covers(pending[i], s)
  }

  predicate Live(st: State, most: nat, s: StreamId)
    requires s in st.writers && s in st.pushed && s in st.core.h2.channels
    requires s in st.core.buffers && s in st.core.tree
  {
    var c, b := st.core, st.core.buffers[s];
    && DataOf(c.h2.wire, s) + b.data == st.pushed[s]
    && Backpressure(b, st.writers[s], most)
    && (IsSet(b.empty) ==> b.data == [])
    && (EndFrame(s) in c.h2.wire ==> b.Finished())
    && (c.tree[s] && b.data != [] && CanSend(c.h2, s) ==>
          Min(c.h2.window, c.h2.channels[s].window) <= 0 || CreditPending(st.pending, s))
    && (c.tree[s] && b.Finished() ==> !CanSend(c.h2, s))
  }

  predicate Detached(st: State, s: StreamId)
    requires s in st.writers && s in st.pushed && s in st.core.detached
  {
    && DataOf(st.core.h2.wire, s) <= st.pushed[s]
    && !CanSend(st.core.h2, s)
    && (EndFrame(s) in st.core.h2.wire ==> DataOf(st.core.h2.wire, s) == st.pushed[s])
    && (st.writers[s].Pushing? ==> Released(st.core.detached[s].paused, st.writers[s].event))
  }

  predicate StreamOk(st: State, most: nat, s: StreamId)
    requires Keys(st) && s in st.writers
  {
    && (CanSend(st.core.h2, s) ==> !HasEnded(st.core.h2.wire, s))
    && (if s in st.core.buffers then Live(st, most, s) else Detached(st, s))
  }

  predicate Globals(st: State) {
    && Keys(st)
    && Pending(st)
    && Flow(st.core.h2)
    && Wire(st)
    && SendTask(st)
  }

  predicate Inv(st: State, most: nat) {
    && Globals(st)
    && forall s :: s in st.writers ==> StreamOk(st, most, s)
  }

  lemma InitialInv(st: State, most: nat)
    requires IsInitial(st)
    ensures Inv(st, most)
  {
  }

  // ---- how the wire grows -----------------------------------------------------------------

  lemma WireGrows(wire: seq<Frame>, f: Frame)
    ensures TotalSent(wire + [f]) == TotalSent(wire) + if f.DataFrame? then |f.bytes| else 0
    ensures forall s :: DataOf(wire + [f], s) ==
              if f.DataFrame? && f.s == s then DataOf(wire, s) + f.bytes else DataOf(wire, s)
    ensures forall s :: HasEnded(wire + [f], s) <==> HasEnded(wire, s) || Ends(f, s)
    ensures EndsAreLast(wire) && !HasEnded(wire, f.s) ==> EndsAreLast(wire + [f])
  {
    var w := wire + [f];
    assert w[..|w| - 1] == wire && w[|w| - 1] == f;
    forall s ensures HasEnded(w, s) <==> HasEnded(wire, s) || Ends(f, s) {
      if HasEnded(wire, s) {
        var i :| 0 <= i < |wire| && Ends(wire[i], s);
        assert Ends(w[i], s);
      }
      if Ends(f, s) {
        assert Ends(w[|wire|], s);
      }
      if HasEnded(w, s) {
        var i :| 0 <= i < |w| && Ends(w[i], s);
        assert i < |wire| ==> Ends(wire[i], s);
      }
    }
    if EndsAreLast(wire) && !HasEnded(wire, f.s) {
      forall i, j | 0 <= i < j < |w| && !w[i].DataFrame? ensures w[j].s != w[i].s {
        if j == |wire| {
          assert !Ends(wire[i], f.s);
        }
      }
    }
  }

  lemma TotalGrows(wire: seq<Frame>, f: Frame)
    ensures TotalSent(wire + [f]) == TotalSent(wire) + if f.DataFrame? then |f.bytes| else 0
  {
    assert (wire + [f])[..|wire|] == wire;
  }

  /** What one more frame means to the stream it belongs to. */
  lemma OwnFrame(wire: seq<Frame>, f: Frame)
    ensures DataOf(wire + [f], f.s) == if f.DataFrame? then DataOf(wire, f.s) + f.bytes else DataOf(wire, f.s)
    ensures HasEnded(wire + [f], f.s) <==> HasEnded(wire, f.s) || !f.DataFrame?
    ensures EndFrame(f.s) in wire + [f] <==> EndFrame(f.s) in wire || f == EndFrame(f.s)
  {
    WireGrows(wire, f);
  }

  lemma {:induction false} NoFramesNoData(wire: seq<Frame>, s: StreamId)
    requires forall i :: 0 <= i < |wire| ==> wire[i].s != s
    ensures DataOf(wire, s) == []
  {
    if wire != [] {
      NoFramesNoData(wire[..|wire| - 1], s);
    }
  }

  // ---- what a step leaves alone -------------------------------------------------------------

  function Usable(h: Connection, s: StreamId): int
    requires s in h.channels
  {
    Min(h.window, h.channels[s].window)
  }

  predicate SameWire(st: State, st': State, s: StreamId) {
    var w, w' := st.core.h2.wire, st'.core.h2.wire;
    && DataOf(w', s) == DataOf(w, s)
    && (HasEnded(w', s) ==> HasEnded(w, s))
    && (EndFrame(s) in w' ==> EndFrame(s) in w)
  }

  lemma OtherFrame(st: State, st': State, f: Frame, s: StreamId)
    requires st'.core.h2.wire == st.core.h2.wire + [f] && f.s != s
    ensures SameWire(st, st', s)
  {
    WireGrows(st.core.h2.wire, f);
  }

  /** Nothing that StreamOk looks at got worse for stream s. */
  predicate Undisturbed(st: State, st': State, s: StreamId)
    requires Keys(st) && Keys(st') && s in st.writers && s in st'.writers
  {
    var c, c' := st.core, st'.core;
    && st'.writers[s] == st.writers[s] && st'.pushed[s] == st.pushed[s]
    && SameWire(st, st', s)
    && (CanSend(c'.h2, s) ==> CanSend(c.h2, s))
    && (s in c.buffers <==> s in c'.buffers)
    && (if s !in c.buffers then c'.detached[s] == c.detached[s]
        else
          && c'.buffers[s] == c.buffers[s]
          && (c'.tree[s] ==> c.tree[s])
          && (c'.tree[s] ==>
                || CreditPending(st'.pending, s)
                || (Usable(c'.h2, s) <= Usable(c.h2, s) && !CreditPending(st.pending, s))))
  }

  lemma Frame(st: State, st': State, most: nat, s: StreamId)
    requires Keys(st) && Keys(st') && s in st.writers && s in st'.writers
    requires StreamOk(st, most, s) && Undisturbed(st, st', s)
    ensures StreamOk(st', most, s)
  {
  }

  /** A step that concerns only stream s. */
  lemma OneStream(st: State, st': State, most: nat, s: StreamId)
    requires Inv(st, most) && Globals(st')
    requires forall t :: t in st'.writers && t != s ==> t in st.writers && Undisturbed(st, st', t)
    requires s in st'.writers ==> StreamOk(st', most, s) || (s in st.writers && Undisturbed(st, st', s))
    ensures Inv(st', most)
  {
    forall t | t in st'.writers ensures StreamOk(st', most, t) {
      if t != s || !StreamOk(st', most, s) {
        Frame(st, st', most, t);
      }
    }
  }

  /** A step that leaves every stream as it was. */
  lemma NoStream(st: State, st': State, most: nat)
    requires Inv(st, most) && Globals(st')
    requires forall t :: t in st'.writers ==> t in st.writers && Undisturbed(st, st', t)
    ensures Inv(st', most)
  {
    forall t | t in st'.writers ensures StreamOk(st', most, t) {
      Frame(st, st', most, t);
    }
  }

  /** A step that only touches the live buffer, the writer and the tree entry of stream s. */
  predicate LocalTo(st: State, st': State, s: StreamId) {
    var c, c' := st.core, st'.core;
    && s in c.buffers
    && c'.h2 == c.h2 && c'.detached == c.detached && st'.pending == st.pending && st'.send == st.send
    && c'.buffers.Keys == c.buffers.Keys && c'.tree.Keys == c.tree.Keys
    && st'.writers.Keys == st.writers.Keys && st'.pushed.Keys == st.pushed.Keys
    && c'.buffers - {s} == c.buffers - {s} && c'.tree - {s} == c.tree - {s}
    && st'.writers - {s} == st.writers - {s} && st'.pushed - {s} == st.pushed - {s}
    && (c'.hasData == Set(c.hasData) || (c'.hasData == c.hasData && c'.tree == c.tree))
    && (st.send == SentEnd(s) && c.buffers[s].Finished() ==> c'.buffers[s].Finished())
  }

  lemma LocalGlobals(st: State, st': State, s: StreamId)
    requires Globals(st) && LocalTo(st, st', s)
    ensures Globals(st')
  {
    if st.send.SentEnd? && st.send.s != s && st.send.s in st.core.buffers {
      assert st.send.s in st'.core.buffers - {s};
    }
  }

  lemma LocalOther(st: State, st': State, s: StreamId, t: StreamId)
    requires Globals(st) && Globals(st') && LocalTo(st, st', s) && t in st.writers && t != s
    ensures Undisturbed(st, st', t)
  {
    assert t in st'.writers - {s} && t in st'.pushed - {s};
    assert t in st.core.buffers ==> t in st'.core.buffers - {s} && t in st'.core.tree - {s};
  }

  lemma LocalInv(st: State, st': State, most: nat, s: StreamId)
    requires Inv(st, most) && LocalTo(st, st', s) && Globals(st') && StreamOk(st', most, s)
    ensures Inv(st', most)
  {
    forall t | t in st'.writers && t != s ensures Undisturbed(st, st', t) {
      LocalOther(st, st', s, t);
    }
    OneStream(st, st', most, s);
  }

  // ---- the send task ------------------------------------------------------------------------

  lemma LoopingInv(st: State, most: nat)
    requires Inv(st, most)
    ensures Inv(st.(send := Looping), most)
  {
    NoStream(st, st.(send := Looping), most);
  }

  lemma DiscardGlobals(st: State, s: StreamId)
    requires Globals(st)
    ensures Globals(st.(core := Discard(st.core, s)))
  {
  }

  lemma DiscardStream(st: State, most: nat, s: StreamId)
    requires Globals(st) && s in st.writers && StreamOk(st, most, s) && !CanSend(st.core.h2, s)
    requires Globals(st.(core := Discard(st.core, s)))
    ensures StreamOk(st.(core := Discard(st.core, s)), most, s)
  {
  }

  lemma DiscardOther(st: State, s: StreamId, t: StreamId)
    requires Globals(st) && Globals(st.(core := Discard(st.core, s)))
    requires t in st.writers && (t != s || s !in st.core.buffers)
    ensures Undisturbed(st, st.(core := Discard(st.core, s)), t)
  {
  }

  lemma DiscardInv(st: State, most: nat, s: StreamId)
    requires Inv(st, most) && (s in st.core.buffers ==> !CanSend(st.core.h2, s))
    ensures Inv(st.(core := Discard(st.core, s)), most)
  {
    var st' := st.(core := Discard(st.core, s));
    DiscardGlobals(st, s);
    if s in st.core.buffers {
      DiscardStream(st, most, s);
    }
    forall t | t in st'.writers && (t != s || s !in st.core.buffers) ensures Undisturbed(st, st', t) {
      DiscardOther(st, s, t);
    }
    OneStream(st, st', most, s);
  }

  function Blocked(st: State, s: StreamId): State {
    st.(core := st.core.(tree := st.core.tree[s := true]))
  }

  function PoppedBy(st: State, s: StreamId, limit: nat): State
    requires s in st.core.buffers
  {
    st.(core := st.core.(buffers := st.core.buffers[s := Pop(st.core.buffers[s], limit)]))
  }

  lemma BlockStream(st: State, most: nat, s: StreamId)
    requires Globals(st) && s in st.core.buffers && StreamOk(st, most, s) && st.send == Looping
    requires st.core.buffers[s].data == [] || !CanSend(st.core.h2, s) || Usable(st.core.h2, s) <= 0
    requires st.core.buffers[s].Finished() ==> !CanSend(st.core.h2, s)
    ensures Globals(Blocked(st, s)) && StreamOk(Blocked(st, s), most, s)
  {
  }

  /** Only a stream that has nothing left to send, or may not, is blocked. */
  lemma BlockInv(st: State, most: nat, s: StreamId)
    requires Inv(st, most) && s in st.core.buffers && st.send == Looping
    requires st.core.buffers[s].data == [] || !CanSend(st.core.h2, s) || Usable(st.core.h2, s) <= 0
    requires st.core.buffers[s].Finished() ==> !CanSend(st.core.h2, s)
    ensures Inv(Blocked(st, s), most)
  {
    var st' := Blocked(st, s);
    BlockStream(st, most, s);
    forall t | t in st'.writers && t != s ensures Undisturbed(st, st', t) {
    }
    OneStream(st, st', most, s);
  }

  lemma SetTwice(m: Marks)
    ensures Set(Set(m)) == Set(m)
  {
  }

  function EndSent(st: State, s: StreamId, trailers: bool): State
    requires CanSend(st.core.h2, s)
  {
    st.(core := st.core.(h2 := SendLast(st.core.h2, s, trailers).value))
  }

  lemma PendingKeeps(st: State, st': State)
    requires Pending(st) && st'.pending == st.pending && st'.writers.Keys == st.writers.Keys
    requires forall s :: s in st.core.h2.channels ==>
      s in st'.core.h2.channels
      && (st.core.h2.channels[s].status == Gone ==> st'.core.h2.channels[s].status == Gone)
    ensures Pending(st')
  {
    forall i | 0 <= i < |st'.pending| ensures NoticeFits(st', st'.pending[i]) {
      assert NoticeFits(st, st.pending[i]);
    }
  }

  lemma WireExtends(st: State, st': State, f: Frame)
    requires Wire(st) && st'.core.h2.wire == st.core.h2.wire + [f] && st'.writers.Keys == st.writers.Keys
    requires f.s in st.writers && !HasEnded(st.core.h2.wire, f.s)
    ensures Wire(st')
  {
    WireGrows(st.core.h2.wire, f);
  }

  lemma EndSentGlobals(st: State, most: nat, s: StreamId, trailers: bool)
    requires Globals(st) && s in st.writers && StreamOk(st, most, s) && CanSend(st.core.h2, s)
    ensures Globals(EndSent(st, s, trailers))
  {
    var f := if trailers then TrailersFrame(s) else EndFrame(s);
    TotalGrows(st.core.h2.wire, f);
    PendingKeeps(st, EndSent(st, s, trailers));
    WireExtends(st, EndSent(st, s, trailers), f);
  }

  lemma EndSentOther(st: State, s: StreamId, trailers: bool, t: StreamId)
    requires Globals(st) && CanSend(st.core.h2, s) && t in st.writers && t != s
    requires Globals(EndSent(st, s, trailers))
    ensures Undisturbed(st, EndSent(st, s, trailers), t)
  {
    OtherFrame(st, EndSent(st, s, trailers), if trailers then TrailersFrame(s) else EndFrame(s), t);
  }

  lemma EndSentStream(st: State, most: nat, s: StreamId, trailers: bool)
    requires Globals(st) && s in st.writers && StreamOk(st, most, s) && CanSend(st.core.h2, s)
    requires !trailers ==> s in st.core.buffers && st.core.buffers[s].Finished()
    requires Globals(EndSent(st, s, trailers))
    ensures StreamOk(EndSent(st, s, trailers), most, s)
  {
    OwnFrame(st.core.h2.wire, if trailers then TrailersFrame(s) else EndFrame(s));
  }

  /** Our half of stream s ends: with an empty DATA frame once its buffer is finished, or with trailers. */
  lemma EndSentInv(st: State, most: nat, s: StreamId, trailers: bool)
    requires Inv(st, most) && s in st.writers && CanSend(st.core.h2, s)
    requires !trailers ==> s in st.core.buffers && st.core.buffers[s].Finished()
    ensures Inv(EndSent(st, s, trailers), most)
  {
    EndSentGlobals(st, most, s, trailers);
    EndSentStream(st, most, s, trailers);
    forall t | t in st.writers && t != s ensures Undisturbed(st, EndSent(st, s, trailers), t) {
      EndSentOther(st, s, trailers, t);
    }
    OneStream(st, EndSent(st, s, trailers), most, s);
  }

  lemma SentEndInv(st: State, most: nat, s: StreamId)
    requires Inv(st, most) && s in st.writers && !CanSend(st.core.h2, s)
    requires s in st.core.buffers ==> st.core.buffers[s].Finished()
    ensures Inv(st.(send := SentEnd(s)), most)
  {
    NoStream(st, st.(send := SentEnd(s)), most);
  }

  /** `_send_data` from its completeness check on. */
  lemma SendEndInv(st: State, most: nat, s: StreamId)
    requires Inv(st, most)
    ensures
      var (c, pc) := SendEnd(st.core, s);
      Inv(st.(core := c, send := pc), most)
  {
    var st0 := st.(send := Looping);
    LoopingInv(st, most);
    if s !in st.core.buffers || (st.core.buffers[s].Finished() && !CanSend(st.core.h2, s)) {
      DiscardInv(st0, most, s);
    } else if st.core.buffers[s].Finished() {
      EndSentInv(st0, most, s, false);
      SentEndInv(EndSent(st0, s, false), most, s);
    }
  }

  lemma PopNothingStream(st: State, most: nat, s: StreamId, limit: nat)
    requires Globals(st) && s in st.core.buffers && StreamOk(st, most, s)
    requires Taken(st.core.buffers[s], limit) == []
    ensures LocalTo(st, PoppedBy(st, s, limit), s) && Globals(PoppedBy(st, s, limit))
    ensures StreamOk(PoppedBy(st, s, limit), most, s)
  {
    var b := st.core.buffers[s];
    assert Pop(b, limit).data == b.data;
    LocalGlobals(st, PoppedBy(st, s, limit), s);
  }

  /** A pop that takes nothing, because nothing is there or nothing may be sent. */
  lemma PopNothingInv(st: State, most: nat, s: StreamId, limit: nat)
    requires Inv(st, most) && st.send == Looping && s in st.core.buffers
    requires Taken(st.core.buffers[s], limit) == []
    ensures Inv(PoppedBy(st, s, limit), most)
  {
    PopNothingStream(st, most, s, limit);
    LocalInv(st, PoppedBy(st, s, limit), most, s);
  }

  /** What `_send_data` takes never exceeds the windows or the frame size, so h2 refuses it only
      when the stream or the connection is closed. */
  lemma ChunkFits(h: Connection, b: Buffer, s: StreamId)
    requires LocalWindow(h, s).Some?
    ensures
      var d := Taken(b, ChunkSize(h, LocalWindow(h, s).value));
      && (d != [] && CanSend(h, s) ==> SendData(h, s, d).Some?)
      && (d != [] ==> 1 <= |d| <= h.window && |d| <= h.channels[s].window && |d| <= h.maxFrame)
  {
  }

  function ChunkSent(st: State, s: StreamId, limit: nat, h: Connection): State
    requires s in st.core.buffers
  {
    st.(core := st.core.(buffers := st.core.buffers[s := Pop(st.core.buffers[s], limit)], h2 := h),
        send := SentData(s))
  }

  lemma ChunkSentGlobals(st: State, most: nat, s: StreamId, limit: nat, h: Connection)
    requires Globals(st) && s in st.core.buffers && StreamOk(st, most, s)
    requires SendData(st.core.h2, s, Taken(st.core.buffers[s], limit)) == Some(h)
    ensures Globals(ChunkSent(st, s, limit, h))
  {
    var f := DataFrame(s, Taken(st.core.buffers[s], limit));
    TotalGrows(st.core.h2.wire, f);
    PendingKeeps(st, ChunkSent(st, s, limit, h));
    WireExtends(st, ChunkSent(st, s, limit, h), f);
  }

  lemma ChunkSentOther(st: State, s: StreamId, limit: nat, h: Connection, t: StreamId)
    requires Globals(st) && s in st.core.buffers && t in st.writers && t != s
    requires SendData(st.core.h2, s, Taken(st.core.buffers[s], limit)) == Some(h)
    requires Globals(ChunkSent(st, s, limit, h))
    ensures Undisturbed(st, ChunkSent(st, s, limit, h), t)
  {
    OtherFrame(st, ChunkSent(st, s, limit, h), DataFrame(s, Taken(st.core.buffers[s], limit)), t);
  }

  lemma ChunkSentStream(st: State, most: nat, s: StreamId, limit: nat, h: Connection)
    requires Globals(st) && s in st.core.buffers && StreamOk(st, most, s)
    requires SendData(st.core.h2, s, Taken(st.core.buffers[s], limit)) == Some(h)
    requires Globals(ChunkSent(st, s, limit, h))
    requires Taken(st.core.buffers[s], limit) != [] && !st.core.tree[s]
    ensures StreamOk(ChunkSent(st, s, limit, h), most, s)
  {
    var b := st.core.buffers[s];
    var d := Taken(b, limit);
    OwnFrame(st.core.h2.wire, DataFrame(s, d));
    NotEnded(st.core.h2.wire, s);
    assert b.data == d + Pop(b, limit).data;
    Associate(DataOf(st.core.h2.wire, s), d, Pop(b, limit).data);
    assert CanSend(st.core.h2, s);
  }

  lemma NotEnded(wire: seq<Frame>, s: StreamId)
    ensures !HasEnded(wire, s) ==> EndFrame(s) !in wire
  {
    assert Ends(EndFrame(s), s);
  }

  lemma ChunkSentInv(st: State, most: nat, s: StreamId, limit: nat, h: Connection)
    requires Inv(st, most) && s in st.core.buffers
    requires SendData(st.core.h2, s, Taken(st.core.buffers[s], limit)) == Some(h)
    requires Taken(st.core.buffers[s], limit) != [] && !st.core.tree[s]
    ensures Inv(ChunkSent(st, s, limit, h), most)
  {
    ChunkSentGlobals(st, most, s, limit, h);
    ChunkSentStream(st, most, s, limit, h);
    forall t | t in st.writers && t != s ensures Undisturbed(st, ChunkSent(st, s, limit, h), t) {
      ChunkSentOther(st, s, limit, h, t);
    }
    OneStream(st, ChunkSent(st, s, limit, h), most, s);
  }

  lemma SendNothingInv(st: State, most: nat, s: StreamId, limit: nat)
    requires Inv(st, most) && st.send == Looping && s in st.core.buffers
    requires Taken(st.core.buffers[s], limit) == []
    requires st.core.buffers[s].data == [] || !CanSend(st.core.h2, s) || Usable(st.core.h2, s) <= 0
    ensures
      var (c, pc) := SendEnd(Blocked(PoppedBy(st, s, limit), s).core, s);
      Inv(st.(core := c, send := pc), most)
  {
    PopNothingInv(st, most, s, limit);
    BlockedEndInv(PoppedBy(st, s, limit), most, s);
  }

  /** A finished stream is blocked and ended at once. */
  lemma BlockedEndInv(st: State, most: nat, s: StreamId)
    requires Inv(st, most) && st.send == Looping && s in st.core.buffers
    requires st.core.buffers[s].data == [] || !CanSend(st.core.h2, s) || Usable(st.core.h2, s) <= 0
    ensures
      var (c, pc) := SendEnd(Blocked(st, s).core, s);
      Inv(st.(core := c, send := pc), most)
  {
    var (c, pc) := SendEnd(Blocked(st, s).core, s);
    var next := st.(core := c, send := pc);
    if st.core.buffers[s].Finished() && CanSend(st.core.h2, s) {
      var ended := Blocked(EndSent(st, s, false), s);
      assert next == ended.(send := SentEnd(s));
      EndSentInv(st, most, s, false);
      BlockInv(EndSent(st, s, false), most, s);
      SentEndInv(ended, most, s);
    } else {
      assert Blocked(st, s).(core := c, send := pc) == next;
      BlockInv(st, most, s);
      SendEndInv(Blocked(st, s), most, s);
    }
  }

  lemma RefusedChunk(c: Core, s: StreamId, limit: nat)
    requires s in c.buffers
    ensures Discard(c.(buffers := c.buffers[s := Pop(c.buffers[s], limit)]), s) == Discard(c, s)
  {
    SetTwice(c.buffers[s].empty);
    SetTwice(c.buffers[s].paused);
  }

  lemma SendChunkInv(st: State, most: nat, s: StreamId)
    requires Inv(st, most) && st.send == Looping && s in st.core.tree && !st.core.tree[s]
    ensures
      var (c, pc) := SendChunk(st.core, s);
      Inv(st.(core := c, send := pc), most)
  {
    var c := st.core;
    var w := LocalWindow(c.h2, s);
    if w.None? || s !in c.buffers {
      DiscardInv(st, most, s);
    } else {
      var limit := ChunkSize(c.h2, w.value);
      var d := Taken(c.buffers[s], limit);
      ChunkFits(c.h2, c.buffers[s], s);
      if d == [] {
        SendNothingInv(st, most, s, limit);
      } else if SendData(c.h2, s, d).Some? {
        ChunkSentInv(st, most, s, limit, SendData(c.h2, s, d).value);
      } else {
        RefusedChunk(c, s, limit);
        DiscardInv(st, most, s);
      }
    }
  }

  lemma RetireGlobals(st: State, s: StreamId)
    requires Globals(st)
    ensures Globals(st.(core := Retire(st.core, s), send := Looping))
  {
  }

  lemma RetireOther(st: State, s: StreamId, t: StreamId)
    requires Globals(st) && Globals(st.(core := Retire(st.core, s), send := Looping))
    requires t in st.writers && t != s
    ensures Undisturbed(st, st.(core := Retire(st.core, s), send := Looping), t)
  {
  }

  lemma RetireInv(st: State, most: nat, s: StreamId)
    requires Inv(st, most) && st.send == SentEnd(s)
    ensures Inv(st.(core := Retire(st.core, s), send := Looping), most)
  {
    var st' := st.(core := Retire(st.core, s), send := Looping);
    RetireGlobals(st, s);
    forall t | t in st'.writers && t != s ensures Undisturbed(st, st', t) {
      RetireOther(st, s, t);
    }
    assert StreamOk(st, most, s);
    OneStream(st, st', most, s);
  }

  lemma ResumeSendTaskInv(st: State, most: nat)
    requires Inv(st, most) && Enabled(st, ResumeSendTask)
    ensures Inv(Resumed(st), most)
  {
    match st.send
    case Parked(_) => NoStream(st, Resumed(st), most);
    case SentData(s) => SendEndInv(st, most, s);
    case SentEnd(s) => RetireInv(st, most, s);
  }

  lemma SendTaskInv(st: State, most: nat, pc: SendPc)
    requires Inv(st, most) && (pc == Stopped || (pc == Parked(Current(st.core.hasData)) && AllBlocked(st.core)))
    ensures Inv(st.(send := pc), most)
  {
    NoStream(st, st.(send := pc), most);
  }

  // ---- the writers -----------------------------------------------------------------------------

  /** A nudge of the send task that may also unblock a stream without a buffer. */
  lemma WakeInv(st: State, most: nat, tree: map<StreamId, bool>)
    requires Inv(st, most) && st.core.tree.Keys <= tree.Keys
    requires forall t :: t in st.core.buffers && tree[t] ==> st.core.tree[t]
    ensures Inv(st.(core := Wake(st.core.(tree := tree))), most)
  {
    NoStream(st, st.(core := Wake(st.core.(tree := tree))), most);
  }

  lemma WriteInv(st: State, most: nat, s: StreamId, d: Bytes)
    requires Inv(st, most) && WriterIdle(st, s) && |d| <= most
    ensures Inv(Apply(st, Write(s, d)), most)
  {
    if PushAccepted(st.core, s) {
      WriteStream(st, most, s, d);
      LocalInv(st, Apply(st, Write(s, d)), most, s);
    } else {
      UnheardWriterInv(st, most, s);
    }
  }

  /** A write that finds no buffer to go to, or a complete one, at most nudges the send task. */
  lemma UnheardWriterInv(st: State, most: nat, s: StreamId)
    requires Inv(st, most) && WriterIdle(st, s)
    ensures Inv(st.(writers := st.writers[s := Idle]), most)
    ensures s in st.core.tree ==>
      Inv(st.(writers := st.writers[s := Idle], core := Wake(st.core.(tree := Unblocked(st.core.tree, s)))), most)
  {
    assert st.writers[s := Idle] == st.writers;
    if s in st.core.tree {
      WakeInv(st, most, Unblocked(st.core.tree, s));
    }
  }

  lemma WriteStream(st: State, most: nat, s: StreamId, d: Bytes)
    requires Globals(st) && WriterIdle(st, s) && |d| <= most && StreamOk(st, most, s)
    requires PushAccepted(st.core, s)
    ensures
      var st' := Apply(st, Write(s, d));
      LocalTo(st, st', s) && Globals(st') && StreamOk(st', most, s)
  {
    var b := st.core.buffers[s];
    LocalGlobals(st, Apply(st, Write(s, d)), s);
    assert DataOf(st.core.h2.wire, s) + (b.data + d) == st.pushed[s] + d;
  }

  lemma FinishStream(st: State, most: nat, s: StreamId)
    requires Globals(st) && WriterIdle(st, s) && s in st.core.buffers && StreamOk(st, most, s)
    ensures
      var st' := Apply(st, Finish(s));
      LocalTo(st, st', s) && Globals(st') && StreamOk(st', most, s)
  {
    LocalGlobals(st, Apply(st, Finish(s)), s);
  }

  lemma FinishInv(st: State, most: nat, s: StreamId)
    requires Inv(st, most) && WriterIdle(st, s)
    ensures Inv(Apply(st, Finish(s)), most)
  {
    if s in st.core.buffers {
      FinishStream(st, most, s);
      LocalInv(st, Apply(st, Finish(s)), most, s);
    } else {
      UnheardWriterInv(st, most, s);
    }
  }

  lemma TrailStream(st: State, most: nat, s: StreamId)
    requires Globals(st) && WriterIdle(st, s) && s in st.core.buffers && StreamOk(st, most, s)
    ensures
      var st' := Apply(st, Trail(s));
      LocalTo(st, st', s) && Globals(st') && StreamOk(st', most, s)
  {
    LocalGlobals(st, Apply(st, Trail(s)), s);
  }

  lemma TrailInv(st: State, most: nat, s: StreamId)
    requires Inv(st, most) && WriterIdle(st, s)
    ensures Inv(Apply(st, Trail(s)), most)
  {
    if s in st.core.buffers {
      TrailStream(st, most, s);
      LocalInv(st, Apply(st, Trail(s)), most, s);
    } else {
      UnheardWriterInv(st, most, s);
    }
  }

  lemma OrphanedPushInv(st: State, most: nat, s: StreamId)
    requires Inv(st, most) && s in st.writers && s !in st.core.buffers
    ensures Inv(st.(writers := st.writers[s := Idle], core := ResumePush(st.core, s)), most)
  {
    var st' := st.(writers := st.writers[s := Idle], core := ResumePush(st.core, s));
    OrphanedPushOk(st, most, s);
    assert Globals(st');
    forall t | t in st.writers && t != s ensures Undisturbed(st, st', t) {
    }
    OneStream(st, st', most, s);
  }

  lemma OrphanedPushOk(st: State, most: nat, s: StreamId)
    requires Inv(st, most) && s in st.writers && s !in st.core.buffers
    ensures StreamOk(st.(writers := st.writers[s := Idle], core := ResumePush(st.core, s)), most, s)
  {
    assert StreamOk(st, most, s);
  }

  lemma WriterDoneInv(st: State, most: nat, s: StreamId)
    requires Inv(st, most) && s in st.writers && !st.writers[s].Pushing?
    ensures Inv(st.(writers := st.writers[s := Idle]), most)
  {
    var st' := st.(writers := st.writers[s := Idle]);
    assert StreamOk(st, most, s);
    forall t | t in st.writers && t != s ensures Undisturbed(st, st', t) {
    }
    OneStream(st, st', most, s);
  }

  lemma ResumePushStream(st: State, most: nat, s: StreamId)
    requires Globals(st) && s in st.core.buffers && StreamOk(st, most, s)
    requires st.writers[s].Pushing? && WriterReleased(st, s)
    ensures
      var st' := WriterResumed(st, s);
      LocalTo(st, st', s) && Globals(st') && StreamOk(st', most, s)
  {
    LocalGlobals(st, WriterResumed(st, s), s);
  }

  lemma ResumePushInv(st: State, most: nat, s: StreamId)
    requires Inv(st, most) && s in st.writers && st.writers[s].Pushing? && WriterReleased(st, s)
    ensures Inv(WriterResumed(st, s), most)
  {
    if s in st.core.buffers {
      ResumePushStream(st, most, s);
      LocalInv(st, WriterResumed(st, s), most, s);
    } else {
      OrphanedPushInv(st, most, s);
    }
  }

  lemma ResumeWriterInv(st: State, most: nat, s: StreamId)
    requires Inv(st, most) && Enabled(st, ResumeWriter(s))
    ensures Inv(WriterResumed(st, s), most)
  {
    if st.writers[s].Pushing? {
      ResumePushInv(st, most, s);
    } else {
      ResumeDrainInv(st, most, s);
    }
  }

  lemma ResumeDrainInv(st: State, most: nat, s: StreamId)
    requires Inv(st, most) && s in st.writers && st.writers[s].Draining?
    ensures Inv(WriterResumed(st, s), most)
  {
    var idle := st.(writers := st.writers[s := Idle]);
    WriterDoneInv(st, most, s);
    if st.writers[s].trailers && CanSend(st.core.h2, s) {
      EndSentInv(idle, most, s, true);
      assert WriterResumed(st, s) == EndSent(idle, s, true);
    } else {
      assert WriterResumed(st, s) == idle;
    }
  }

  // ---- the reader ------------------------------------------------------------------------------

  lemma CreditTail(pending: seq<Notice>, s: StreamId)
    requires pending != [] && CreditPending(pending, s) && !Covers(pending[0], s)
    ensures CreditPending(pending[1..], s)
  {
    var i :| 0 <= i < |pending| && Covers(pending[i], s);
    assert Covers(pending[1..][i - 1], s);
  }

  lemma CreditGrows(pending: seq<Notice>, more: seq<Notice>, s: StreamId)
    ensures CreditPending(pending, s) ==> CreditPending(pending + more, s)
    ensures CreditPending(more, s) ==> CreditPending(pending + more, s)
  {
    if CreditPending(pending, s) {
      var i :| 0 <= i < |pending| && Covers(pending[i], s);
      assert Covers((pending + more)[i], s);
    }
    if CreditPending(more, s) {
      var i :| 0 <= i < |more| && Covers(more[i], s);
      assert Covers((pending + more)[|pending| + i], s);
    }
  }

  function Popped(st: State): State
    requires st.pending != []
  {
    st.(pending := st.pending[1..])
  }

  lemma PendingTail(st: State)
    requires Pending(st) && st.pending != []
    ensures Pending(Popped(st))
  {
    var rest := st.pending[1..];
    forall i | 0 <= i < |rest| ensures NoticeFits(st, rest[i]) {
      assert rest[i] == st.pending[i + 1];
    }
  }

  /** Forgetting a notice, after the streams it covers were unblocked. */
  lemma PopInv(st: State, most: nat)
    requires Inv(st, most) && st.pending != []
    requires forall t :: t in st.core.buffers && Covers(st.pending[0], t) ==> !st.core.tree[t]
    ensures Inv(Popped(st), most)
  {
    PendingTail(st);
    forall t | t in st.writers ensures Undisturbed(st, Popped(st), t) {
      if CreditPending(st.pending, t) && !Covers(st.pending[0], t) {
        CreditTail(st.pending, t);
      }
    }
    NoStream(st, Popped(st), most);
  }

  lemma WindowUpdatedInv(st: State, most: nat, s: StreamId)
    requires Inv(st, most)
    ensures Inv(st.(core := WindowUpdated(st.core, s)), most)
  {
    WakeInv(st, most, if s == 0 then map t | t in st.core.tree :: st.core.tree[t] && t !in st.core.buffers
                      else if s in st.core.buffers then Unblocked(st.core.tree, s)
                      else st.core.tree);
  }

  function Created(st: State, s: StreamId): State {
    st.(core := CreateStream(st.core, s), writers := st.writers[s := Idle], pushed := st.pushed[s := []])
  }

  lemma CreateGlobals(st: State, s: StreamId)
    requires Globals(st) && st.pending != [] && st.pending[0] == Requested(s)
    ensures Globals(Popped(Created(st, s)))
  {
    PendingTail(st);
    var st' := Popped(Created(st, s));
    forall i | 0 <= i < |st'.pending| ensures NoticeFits(st', st'.pending[i]) {
      assert st'.pending[i] == st.pending[i + 1];
    }
  }

  lemma CreateOther(st: State, s: StreamId, t: StreamId)
    requires Globals(st) && s !in st.writers && t in st.writers
    requires Keys(Created(st, s))
    ensures Undisturbed(st, Created(st, s), t)
  {
  }

  lemma CreateInv(st: State, most: nat, s: StreamId)
    requires Inv(st, most) && st.pending != [] && st.pending[0] == Requested(s)
    ensures Inv(Popped(Created(st, s)), most)
  {
    var st' := Popped(Created(st, s));
    CreateGlobals(st, s);
    NoFramesNoData(st.core.h2.wire, s);
    assert StreamOk(st', most, s);
    forall t | t in st.writers && t != s ensures Undisturbed(st, st', t) {
      CreateOther(st, s, t);
      if CreditPending(st.pending, t) {
        CreditTail(st.pending, t);
      }
    }
    OneStream(st, st', most, s);
  }

  lemma WindowHandledInv(st: State, most: nat, s: StreamId)
    requires Inv(st, most) && st.pending != []
    requires st.pending[0] == WindowOpened(s) || (s == 0 && st.pending[0] == InitialWindowChanged)
    ensures Inv(Popped(st.(core := WindowUpdated(st.core, s))), most)
  {
    WindowUpdatedInv(st, most, s);
    PopInv(st.(core := WindowUpdated(st.core, s)), most);
  }

  lemma ResetHandledInv(st: State, most: nat, s: StreamId)
    requires Inv(st, most) && st.pending != [] && st.pending[0] == WasReset(s)
    ensures Inv(Popped(st.(core := StreamReset(st.core, s))), most)
  {
    assert NoticeFits(st, st.pending[0]);
    DiscardInv(st, most, s);
    WindowUpdatedInv(st.(core := Discard(st.core, s)), most, s);
    PopInv(st.(core := StreamReset(st.core, s)), most);
  }

  lemma HandleInv(st: State, most: nat)
    requires Inv(st, most) && st.pending != []
    ensures Inv(Handled(st), most)
  {
    match st.pending[0]
    case Requested(s) => CreateInv(st, most, s);
    case WasReset(s) => ResetHandledInv(st, most, s);
    case WindowOpened(s) => WindowHandledInv(st, most, s);
    case InitialWindowChanged => WindowHandledInv(st, most, 0);
    case Reprioritised(s, d) => PriorityHandledInv(st, most, s, d);
  }

  lemma PriorityHandledInv(st: State, most: nat, s: StreamId, d: StreamId)
    requires Inv(st, most) && st.pending != [] && st.pending[0] == Reprioritised(s, d)
    ensures Inv(Handled(st), most)
  {
    WakeInv(st, most, PriorityUpdated(st.core, s, d).tree);
    PopInv(st.(core := PriorityUpdated(st.core, s, d)), most);
  }

  lemma RefuseInv(st: State, most: nat)
    requires Inv(st, most) && Enabled(st, Refuse)
    ensures Inv(Declined(st), most)
  {
    var s := st.pending[0].s;
    PopInv(st, most);
    PendingTail(st);
    forall t | t in st.writers ensures Undisturbed(Popped(st), Declined(st), t) {
    }
    NoStream(Popped(st), Declined(st), most);
  }

  /** A received frame sends nothing, opens only the windows its notice covers, and reopens no stream. */
  lemma ReceiveFacts(h: Connection, f: PeerFrame)
    requires Flow(h) && 0 !in h.channels
    ensures
      var (h', notices) := ReceiveFrame(h, f);
      && Flow(h') && h'.wire == h.wire && h.channels.Keys <= h'.channels.Keys && 0 !in h'.channels
      && |notices| <= 1
      && (forall s :: s in h.channels ==>
            && (CanSend(h', s) ==> CanSend(h, s))
            && (h.channels[s].status == Gone ==> h'.channels[s].status == Gone)
            && (Usable(h', s) <= Usable(h, s) || (notices != [] && Covers(notices[0], s))))
      && (notices != [] && notices[0].Requested? ==>
            notices[0].s !in h.channels && notices[0].s in h'.channels)
      && (notices != [] && notices[0].WasReset? ==>
            notices[0].s in h'.channels && h'.channels[notices[0].s].status == Gone)
  {
  }

  lemma ReceiveGlobals(st: State, f: PeerFrame)
    requires Globals(st)
    ensures Globals(Apply(st, Receive(f)))
  {
    var st' := Apply(st, Receive(f));
    ReceiveFacts(st.core.h2, f);
    assert st'.writers == st.writers && st'.core.buffers == st.core.buffers && st'.core.tree == st.core.tree;
    forall i | 0 <= i < |st'.pending| ensures NoticeFits(st', st'.pending[i]) {
      if i < |st.pending| {
        assert NoticeFits(st, st.pending[i]);
      }
    }
    forall i, j | 0 <= i < j < |st'.pending| && st'.pending[i].Requested?
      ensures st'.pending[i] != st'.pending[j]
    {
      assert NoticeFits(st, st.pending[i]);
    }
  }

  lemma ReceiveOther(st: State, f: PeerFrame, t: StreamId)
    requires Globals(st) && Globals(Apply(st, Receive(f))) && t in st.writers
    ensures Undisturbed(st, Apply(st, Receive(f)), t)
  {
    var (h, notices) := ReceiveFrame(st.core.h2, f);
    ReceiveFacts(st.core.h2, f);
    CreditGrows(st.pending, notices, t);
    if notices != [] && Covers(notices[0], t) {
      assert CreditPending(notices, t);
    }
  }

  lemma ReceiveInv(st: State, most: nat, f: PeerFrame)
    requires Inv(st, most)
    ensures Inv(Apply(st, Receive(f)), most)
  {
    ReceiveGlobals(st, f);
    forall t | t in st.writers ensures Undisturbed(st, Apply(st, Receive(f)), t) {
      ReceiveOther(st, f, t);
    }
    NoStream(st, Apply(st, Receive(f)), most);
  }

  lemma CloseH2Inv(st: State, most: nat)
    requires Inv(st, most)
    ensures Inv(Apply(st, CloseH2), most)
  {
    NoStream(st, Apply(st, CloseH2), most);
  }

  lemma ConnectionLostInv(st: State, most: nat)
    requires Inv(st, most)
    ensures Inv(Apply(st, ConnectionLost), most)
  {
    NoStream(st, Apply(st, ConnectionLost), most);
  }

  /** Every step keeps the invariant. */
  lemma StepInv(st: State, most: nat, step: Step)
    requires Inv(st, most) && Enabled(st, step)
    requires step.Write? ==> |step.d| <= most
    ensures Inv(Apply(st, step), most)
  {
    match step
    case Schedule(s) => SendChunkInv(st, most, s);
    case ParkSendTask => SendTaskInv(st, most, Parked(Current(st.core.hasData)));
    case StopSendTask => SendTaskInv(st, most, Stopped);
    case ResumeSendTask => ResumeSendTaskInv(st, most);
    case Write(s, d) => WriteInv(st, most, s, d);
    case Finish(s) => FinishInv(st, most, s);
    case Trail(s) => TrailInv(st, most, s);
    case ResumeWriter(s) => ResumeWriterInv(st, most, s);
    case Receive(f) => ReceiveInv(st, most, f);
    case Handle => HandleInv(st, most);
    case Refuse => RefuseInv(st, most);
    case CloseH2 => CloseH2Inv(st, most);
    case ConnectionLost => ConnectionLostInv(st, most);
    case StreamClosedSignal => WakeInv(st, most, st.core.tree);
  }

  /** Every run keeps it. */
  lemma {:induction false} RunInv(st: State, most: nat, steps: seq<Step>)
    requires Inv(st, most) && WritesBounded(steps, most) && Run(st, steps).Some?
    ensures Inv(Run(st, steps).value, most)
    decreases |steps|
  {
    if steps != [] {
      StepInv(st, most, steps[0]);
      forall i | 0 <= i < |steps[1..]| && steps[1..][i].Write? ensures |steps[1..][i].d| <= most {
        assert steps[1..][i] == steps[i + 1];
      }
      RunInv(Apply(st, steps[0]), most, steps[1..]);
    }
  }
}
