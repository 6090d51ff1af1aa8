/** src/anycorn/protocol/h2.py: the state that the app writers, the send task and the reader
    of one HTTP/2 connection share, and what each coroutine does to it between two real
    suspension points.

    The h2 library is reduced to what the send path relies on: flow-control windows, the
    state of our half of each stream, and a refusal (an exception) of anything sent on a
    stream or a connection that is no longer open. The priority tree is reduced to which
    streams it holds and which of them are blocked. */
module H2Core {
  import opened Common
  import opened EventObjects
  import opened StreamBuffers

  type StreamId = nat

  /** What leaves the connection, in order. */
  datatype Frame =
    | DataFrame(s: StreamId, bytes: Bytes)
    | EndFrame(s: StreamId)
    | TrailersFrame(s: StreamId)

  /** Our half of a stream: sending is allowed, was ended by us, or the stream is gone. */
  datatype Status = Open | Ended | Gone

  /** `granted`: the credit the peer has given the stream so far, as `granted` of the connection is. */
  datatype Channel = Channel(status: Status, window: int, granted: int)

  /** `dead`: the connection state is closed (GOAWAY, protocol error, close_connection). */
  datatype Connection = Connection(
    dead: bool,
    window: int,
    maxFrame: nat,
    initialWindow: int,
    channels: map<StreamId, Channel>,
    granted: int,
    wire: seq<Frame>)

  predicate CanSend(h: Connection, s: StreamId) {
    !h.dead && s in h.channels && h.channels[s].status == Open
  }

  /** `local_flow_control_window`; None when h2 no longer knows the stream. */
  function LocalWindow(h: Connection, s: StreamId): Option<int> {
    if s in h.channels && h.channels[s].status != Gone
    then Some(Min(h.window, h.channels[s].window))
    else None
  }

  /** `send_data`; None when h2 raises, be it for the state, the window or the frame size. */
  function SendData(h: Connection, s: StreamId, d: Bytes): Option<Connection> {
    if !CanSend(h, s) || |d| > h.window || |d| > h.channels[s].window || |d| > h.maxFrame then None
    else
      var ch := h.channels[s];
      Some(h.(window := h.window - |d|,
              channels := h.channels[s := ch.(window := ch.window - |d|)],
              wire := h.wire + [DataFrame(s, d)]))
  }

  /** `end_stream`, and `send_headers(..., end_stream=True)` for trailers. */
  function SendLast(h: Connection, s: StreamId, trailers: bool): Option<Connection> {
    if !CanSend(h, s) then None
    else Some(h.(channels := h.channels[s := h.channels[s].(status := Ended)],
                 wire := h.wire + [if trailers then TrailersFrame(s) else EndFrame(s)]))
  }

  /** `tree[s]` is true when stream s is blocked. `detached` keeps the buffer objects that
      left `stream_buffers`: a coroutine may still be waiting on one of their events. */
  datatype Core = Core(
    closed: bool,
    buffers: map<StreamId, Buffer>,
    detached: map<StreamId, Buffer>,
    tree: map<StreamId, bool>,
    hasData: Marks,
    h2: Connection)

  /** Where the send task is suspended. */
  datatype SendPc = Looping | Parked(event: nat) | SentData(s: StreamId) | SentEnd(s: StreamId) | Stopped

  /** Where the one writer of a stream is suspended. */
  datatype WriterPc = Idle | Pushing(event: nat) | Draining(event: nat, trailers: bool)

  function Wake(c: Core): Core { c.(hasData := Set(c.hasData)) }

  function Unblocked(tree: map<StreamId, bool>, s: StreamId): map<StreamId, bool> {
    if s in tree then tree[s := false] else tree
  }

  function Detach(c: Core, s: StreamId, b: Buffer): Core {
    c.(buffers := c.buffers - {s}, detached := c.detached[s := b], tree := c.tree - {s})
  }

  /** `_discard_send_state`. */
  function Discard(c: Core, s: StreamId): Core {
    if s in c.buffers then Detach(c, s, Close(c.buffers[s])) else c.(tree := c.tree - {s})
  }

  // ---- the send task -------------------------------------------------------------------

  /** How much of stream s `_send_data` asks its buffer for. */
  function ChunkSize(h: Connection, window: int): nat { Max(0, Min(window, h.maxFrame)) }

  /** `_send_data` up to its first flush. */
  function SendChunk(c: Core, s: StreamId): (Core, SendPc) {
    var w := LocalWindow(c.h2, s);
    if w.None? || s !in c.buffers then (Discard(c, s), Looping)
    else
      var limit := ChunkSize(c.h2, w.value);
      var d := Taken(c.buffers[s], limit);
      var popped := c.(buffers := c.buffers[s := Pop(c.buffers[s], limit)]);
      if d == [] then SendEnd(popped.(tree := popped.tree[s := true]), s)
      else
        match SendData(c.h2, s, d)
        case None => (Discard(popped, s), Looping)
        case Some(h) => (popped.(h2 := h), SentData(s))
  }

  /** `_send_data` from the completeness check to the flush of the end of the stream. */
  function SendEnd(c: Core, s: StreamId): (Core, SendPc) {
    if s !in c.buffers then (Discard(c, s), Looping)
    else if !c.buffers[s].Finished() then (c, Looping)
    else
      match SendLast(c.h2, s, false)
      case None => (Discard(c, s), Looping)
      case Some(h) => (c.(h2 := h), SentEnd(s))
  }

  /** `_send_data` after that flush. */
  function Retire(c: Core, s: StreamId): Core {
    if s in c.buffers then Detach(c, s, c.buffers[s]) else Discard(c, s)
  }

  /** `send_task` once its wait on `has_data` is over. */
  function Unpark(c: Core): Core { c.(hasData := Clear(c.hasData)) }

  // ---- the writers: stream_send ----------------------------------------------------------

  predicate PushAccepted(c: Core, s: StreamId) {
    s in c.tree && s in c.buffers && !c.buffers[s].complete
  }

  function WriteBody(c: Core, s: StreamId, d: Bytes): (Core, WriterPc) {
    if s !in c.tree then (c, Idle)
    else
      var woken := Wake(c.(tree := Unblocked(c.tree, s)));
      if !PushAccepted(c, s) then (woken, Idle)
      else
        var b := Push(c.buffers[s], d);
        (woken.(buffers := c.buffers[s := b]),
         if MustPause(b) then Pushing(Current(b.paused)) else Idle)
  }

  function WriteEnd(c: Core, s: StreamId): (Core, WriterPc) {
    if s !in c.buffers then (c, Idle)
    else
      var completed := c.(buffers := c.buffers[s := SetComplete(c.buffers[s])]);
      if s !in c.tree then (completed, Idle)
      else (Wake(completed.(tree := Unblocked(c.tree, s))), Draining(Current(c.buffers[s].empty), false))
  }

  function WriteTrailers(c: Core, s: StreamId): (Core, WriterPc) {
    if s !in c.tree then (c, Idle)
    else
      var woken := Wake(c.(tree := Unblocked(c.tree, s)));
      if s !in c.buffers then (woken, Idle)
      else (woken, Draining(Current(c.buffers[s].empty), true))
  }

  /** `push` after its wait: the buffer object it holds may have left `stream_buffers`. */
  function ResumePush(c: Core, s: StreamId): Core {
    if s in c.buffers then c.(buffers := c.buffers[s := EndPush(c.buffers[s])])
    else if s in c.detached then c.(detached := c.detached[s := EndPush(c.detached[s])])
    else c
  }

  /** `stream_send` of Trailers after the drain. */
  function ResumeTrailers(c: Core, s: StreamId): Core {
    match SendLast(c.h2, s, true)
    case None => c
    case Some(h) => c.(h2 := h)
  }

  // ---- the reader -------------------------------------------------------------------------

  /** `_window_updated`; stream 0 stands for the whole connection. */
  function WindowUpdated(c: Core, s: StreamId): Core {
    Wake(c.(tree := if s == 0 then map t | t in c.tree :: c.tree[t] && t !in c.buffers
                    else if s in c.buffers then Unblocked(c.tree, s)
                    else c.tree))
  }

  function Inserted(tree: map<StreamId, bool>, s: StreamId): map<StreamId, bool> {
    if s in tree then tree else tree[s := true]
  }

  /** `_priority_updated`: the tree also makes up a blocked parent it does not know. */
  function PriorityUpdated(c: Core, s: StreamId, dependsOn: StreamId): Core {
    var tree := Inserted(c.tree, s);
    Wake(c.(tree := if dependsOn == 0 then tree else Inserted(tree, dependsOn)))
  }

  /** The part of `_create_stream` that concerns the send side. */
  function CreateStream(c: Core, s: StreamId): Core {
    c.(buffers := c.buffers[s := NewBuffer()], tree := Inserted(c.tree, s))
  }

  /** `_handle_events` for a stream the peer reset. */
  function StreamReset(c: Core, s: StreamId): Core { WindowUpdated(Discard(c, s), s) }
}
