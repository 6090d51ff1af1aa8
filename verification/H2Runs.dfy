/** Runs of one HTTP/2 connection: any interleaving of the writers, the send task, the reader
    and the peer, one step between two suspension points. */
module H2Runs {
  import opened Common
  import opened EventObjects
  import opened StreamBuffers
  import opened H2Core

  /** An h2 event that was raised by the received bytes and is not handled yet. */
  datatype Notice =
    | Requested(s: StreamId)
    | WasReset(s: StreamId)
    | WindowOpened(s: StreamId)
    | InitialWindowChanged
    | Reprioritised(s: StreamId, dependsOn: StreamId)

  datatype PeerFrame =
    | Headers(s: StreamId)
    | EndOfRequest(s: StreamId)
    | RstStream(s: StreamId)
    | WindowUpdate(s: StreamId, increment: nat)
    | SettingsWindow(size: nat)
    | SettingsFrame(size: nat)
    | PriorityFrame(s: StreamId, dependsOn: StreamId)

  /** `pushed` collects the bytes each buffer accepted, in order. */
  datatype State = State(
    core: Core,
    send: SendPc,
    writers: map<StreamId, WriterPc>,
    pending: seq<Notice>,
    pushed: map<StreamId, Bytes>)

  datatype Step =
    | Schedule(s: StreamId)
    | ParkSendTask
    | StopSendTask
    | ResumeSendTask
    | Write(s: StreamId, d: Bytes)
    | Finish(s: StreamId)
    | Trail(s: StreamId)
    | ResumeWriter(s: StreamId)
    | Receive(f: PeerFrame)
    | Handle
    | Refuse
    | CloseH2
    | ConnectionLost
    | StreamClosedSignal

  /** A connection whose preface was exchanged, with no stream yet. */
  predicate IsInitial(st: State) {
    var c := st.core;
    && !c.closed && c.buffers == map[] && c.detached == map[] && c.tree == map[] && c.hasData == [false]
    && c.h2.channels == map[] && c.h2.wire == [] && c.h2.window == c.h2.granted >= 0 && c.h2.maxFrame >= 16384
    && st.send == Looping && st.writers == map[] && st.pending == [] && st.pushed == map[]
  }

  function Credited(ch: Channel, n: int): Channel { ch.(window := ch.window + n, granted := ch.granted + n) }

  /** What h2's `receive_data` makes of a frame, with the event it raises. A frame that breaks
      the protocol closes the connection. */
  function ReceiveFrame(h: Connection, f: PeerFrame): (Connection, seq<Notice>) {
    if h.dead then (h, [])
    else
      match f
      case Headers(s) =>
        if s == 0 || s in h.channels then (h.(dead := true), [])
        else (h.(channels := h.channels[s := Channel(Open, h.initialWindow, h.initialWindow)]), [Requested(s)])
      case EndOfRequest(s) =>
        if s in h.channels && h.channels[s].status == Ended
        then (h.(channels := h.channels[s := h.channels[s].(status := Gone)]), [])
        else (h, [])
      case RstStream(s) =>
        if s in h.channels && h.channels[s].status != Gone
        then (h.(channels := h.channels[s := h.channels[s].(status := Gone)]), [WasReset(s)])
        else (h, [])
      case WindowUpdate(s, n) =>
        if s == 0 then
          if n == 0 || h.window + n >= 0x8000_0000 then (h.(dead := true), [])
          else (h.(window := h.window + n, granted := h.granted + n), [WindowOpened(0)])
        else if s !in h.channels || h.channels[s].status == Gone then (h, [])
        else if n == 0 || h.channels[s].window + n >= 0x8000_0000 then (h.(dead := true), [])
        else (h.(channels := h.channels[s := Credited(h.channels[s], n)]), [WindowOpened(s)])
      case SettingsWindow(size) =>
        if size >= 0x8000_0000 then (h.(dead := true), [])
        else
          var delta := size - h.initialWindow;
          (h.(initialWindow := size,
              channels := map s | s in h.channels :: Credited(h.channels[s], delta)),
           [InitialWindowChanged])
      case SettingsFrame(size) =>
        if size < 16384 then (h.(dead := true), []) else (h.(maxFrame := size), [])
      case PriorityFrame(s, dependsOn) =>
        if s == 0 || s == dependsOn then (h.(dead := true), []) else (h, [Reprioritised(s, dependsOn)])
  }

  /** A writer waits on an event of the buffer object it was given, wherever that is now. */
  predicate WriterReleased(st: State, s: StreamId)
    requires s in st.writers
  {
    var c := st.core;
    var b := if s in c.buffers then c.buffers[s] else if s in c.detached then c.detached[s] else NewBuffer();
    match st.writers[s]
    case Idle => false
    case Pushing(e) => Released(b.paused, e)
    case Draining(e, _) => Released(b.empty, e)
  }

  predicate WriterIdle(st: State, s: StreamId) { s in st.writers && st.writers[s] == Idle }

  predicate Enabled(st: State, step: Step) {
    var c := st.core;
    match step
    case Schedule(s) => st.send == Looping && !c.closed && s in c.tree && !c.tree[s]
    case ParkSendTask => st.send == Looping && !c.closed && AllBlocked(c)
    case StopSendTask => st.send == Looping && c.closed
    case ResumeSendTask =>
      (match st.send
       case Parked(e) => Released(c.hasData, e)
       case SentData(_) => true
       case SentEnd(_) => true
       case _ => false)
    case Write(s, _) => WriterIdle(st, s)
    case Finish(s) => WriterIdle(st, s)
    case Trail(s) => WriterIdle(st, s)
    case ResumeWriter(s) => s in st.writers && WriterReleased(st, s)
    case Handle => st.pending != []
    case Refuse => st.pending != [] && st.pending[0].Requested?
    case _ => true
  }

  predicate AllBlocked(c: Core) { forall s :: s in c.tree ==> c.tree[s] }

  function Resumed(st: State): State
    requires st.send.Parked? || st.send.SentData? || st.send.SentEnd?
  {
    match st.send
    case Parked(_) => st.(core := Unpark(st.core), send := Looping)
    case SentData(s) => var (c, pc) := SendEnd(st.core, s); st.(core := c, send := pc)
    case SentEnd(s) => st.(core := Retire(st.core, s), send := Looping)
  }

  function WriterResumed(st: State, s: StreamId): State
    requires s in st.writers
  {
    st.(writers := st.writers[s := Idle],
        core := match st.writers[s]
                case Pushing(_) => ResumePush(st.core, s)
                case Draining(_, true) => ResumeTrailers(st.core, s)
                case _ => st.core)
  }

  function Handled(st: State): State
    requires st.pending != []
  {
    var rest := st.(pending := st.pending[1..]);
    match st.pending[0]
    case Requested(s) =>
      rest.(core := CreateStream(st.core, s), writers := st.writers[s := Idle], pushed := st.pushed[s := []])
    case WasReset(s) => rest.(core := StreamReset(st.core, s))
    case WindowOpened(s) => rest.(core := WindowUpdated(st.core, s))
    case InitialWindowChanged => rest.(core := WindowUpdated(st.core, 0))
    case Reprioritised(s, d) => rest.(core := PriorityUpdated(st.core, s, d))
  }

  /** A request that arrives while the worker is terminating is reset by us instead. */
  function Declined(st: State): State
    requires Enabled(st, Refuse)
  {
    var s := st.pending[0].s;
    var h := st.core.h2;
    st.(pending := st.pending[1..],
        core := if s in h.channels
                then st.core.(h2 := h.(channels := h.channels[s := h.channels[s].(status := Gone)]))
                else st.core)
  }

  function Apply(st: State, step: Step): State
    requires Enabled(st, step)
  {
    match step
    case Schedule(s) => var (c, pc) := SendChunk(st.core, s); st.(core := c, send := pc)
    case ParkSendTask => st.(send := Parked(Current(st.core.hasData)))
    case StopSendTask => st.(send := Stopped)
    case ResumeSendTask => Resumed(st)
    case Write(s, d) =>
      var (c, pc) := WriteBody(st.core, s, d);
      st.(core := c, writers := st.writers[s := pc],
          pushed := if PushAccepted(st.core, s) && s in st.pushed
                    then st.pushed[s := st.pushed[s] + d] else st.pushed)
    case Finish(s) => var (c, pc) := WriteEnd(st.core, s); st.(core := c, writers := st.writers[s := pc])
    case Trail(s) => var (c, pc) := WriteTrailers(st.core, s); st.(core := c, writers := st.writers[s := pc])
    case ResumeWriter(s) => WriterResumed(st, s)
    case Receive(f) =>
      var (h, notices) := ReceiveFrame(st.core.h2, f);
      st.(core := st.core.(h2 := h), pending := st.pending + notices)
    case Handle => Handled(st)
    case Refuse => Declined(st)
    case CloseH2 => st.(core := st.core.(h2 := st.core.h2.(dead := true)))
    case ConnectionLost => st.(core := st.core.(closed := true))
    case StreamClosedSignal => st.(core := Wake(st.core))
  }

  /** The state after a run, None when some step was not possible. */
  function Run(st: State, steps: seq<Step>): Option<State>
    decreases |steps|
  {
    if steps == [] then Some(st)
    else if Enabled(st, steps[0]) then Run(Apply(st, steps[0]), steps[1..])
    else None
  }

  /** No write of the run hands over more than `most` bytes at once. */
  predicate WritesBounded(steps: seq<Step>, most: nat) {
    forall i :: 0 <= i < |steps| && steps[i].Write? ==> |steps[i].d| <= most
  }

  // ---- what the wire carried ----------------------------------------------------------------

  /** The DATA bytes of stream s. */
  function DataOf(wire: seq<Frame>, s: StreamId): Bytes {
    if wire == [] then []
    else
      var f := wire[|wire| - 1];
      var before := DataOf(wire[..|wire| - 1], s);
      if f.DataFrame? && f.s == s then before + f.bytes else before
  }

  /** The DATA bytes of all streams. */
  function TotalSent(wire: seq<Frame>): nat {
    if wire == [] then 0
    else
      var f := wire[|wire| - 1];
      TotalSent(wire[..|wire| - 1]) + if f.DataFrame? then |f.bytes| else 0
  }

  predicate Ends(f: Frame, s: StreamId) { !f.DataFrame? && f.s == s }

  predicate HasEnded(wire: seq<Frame>, s: StreamId) {
    exists i :: 0 <= i < |wire| && Ends(wire[i], s)
  }

  /** An end of a stream is the last thing sent on it. */
  predicate EndsAreLast(wire: seq<Frame>) {
    forall i, j :: 0 <= i < j < |wire| && !wire[i].DataFrame? ==> wire[j].s != wire[i].s
  }
}
