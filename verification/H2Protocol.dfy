/** src/anycorn/protocol/h2.py, `H2Protocol`: the send side with the source's own fields.

    The methods are the segments of the coroutines, from one suspension point to the next, with
    the source's branches; what each leaves behind is proved to be what H2Core says, so the
    runs of H2Runs are runs of this class. The h2 connection and the priority tree are library
    values, and `streamBuffers` holds the value of each StreamBuffer. */
module H2Protocols {
  import opened Common
  import opened EventObjects
  import opened StreamBuffers
  import opened H2Core

  class H2Protocol {
    var closed: bool
    var connection: Connection
    var priority: map<StreamId, bool>
    var streamBuffers: map<StreamId, Buffer>
    const hasData: EventWrapper
    ghost var detached: map<StreamId, Buffer>

    ghost predicate Valid()
      reads hasData, hasData.event
    {
      hasData.Valid()
    }

    ghost function View(): Core
      reads this, hasData
    {
      Core(closed, streamBuffers, detached, priority, hasData.marks, connection)
    }

    constructor (h: Connection)
      ensures Valid() && fresh(hasData) && fresh(hasData.event)
      ensures View() == Core(false, map[], map[], map[], [false], h)
    {
      closed := false;
      connection := h;
      priority := map[];
      streamBuffers := map[];
      detached := map[];
      hasData := new EventWrapper();
    }

    method DiscardSendState(s: StreamId)
      requires Valid()
      modifies this
      ensures Valid() && View() == Discard(old(View()), s)
    {
      if s in streamBuffers {
        var buffer := Close(streamBuffers[s]);
        streamBuffers := streamBuffers - {s};
        detached := detached[s := buffer];
      }
      priority := priority - {s};
    }

    /** `_send_data` up to its first suspension. */
    method SendData(s: StreamId) returns (pc: SendPc)
      requires Valid() && s in priority
      modifies this
      ensures Valid() && View() == SendChunk(old(View()), s).0 && pc == SendChunk(old(View()), s).1
    {
      var window := LocalWindow(connection, s);
      if window.None? {
        DiscardSendState(s);
        return Looping;
      }
      var chunkSize := Max(0, Min(window.value, connection.maxFrame));
      if s !in streamBuffers {
        DiscardSendState(s);
        return Looping;
      }
      var data := Taken(streamBuffers[s], chunkSize);
      streamBuffers := streamBuffers[s := Pop(streamBuffers[s], chunkSize)];
      if data != [] {
        var reply := H2Core.SendData(connection, s, data);
        if reply.None? {
          DiscardSendState(s);
          return Looping;
        }
        connection := reply.value;
        return SentData(s);
      }
      priority := priority[s := true];
      pc := EndIfComplete(s);
    }

    /** `_send_data` from its completeness check on. */
    method EndIfComplete(s: StreamId) returns (pc: SendPc)
      requires Valid()
      modifies this
      ensures Valid() && View() == SendEnd(old(View()), s).0 && pc == SendEnd(old(View()), s).1
    {
      if s !in streamBuffers {
        DiscardSendState(s);
        return Looping;
      }
      if !streamBuffers[s].Finished() {
        return Looping;
      }
      var reply := SendLast(connection, s, false);
      if reply.None? {
        DiscardSendState(s);
        return Looping;
      }
      connection := reply.value;
      return SentEnd(s);
    }

    /** `_send_data` after the flush of the end of the stream. */
    method RetireStream(s: StreamId)
      requires Valid()
      modifies this
      ensures Valid() && View() == Retire(old(View()), s)
    {
      if s in streamBuffers {
        detached := detached[s := streamBuffers[s]];
        streamBuffers := streamBuffers - {s};
        priority := priority - {s};
      } else {
        DiscardSendState(s);
      }
    }

    /** `send_task` after its wait. */
    method ResumeSendTask()
      requires Valid()
      modifies hasData
      ensures Valid() && View() == Unpark(old(View())) && fresh(hasData.event)
    {
      hasData.ClearEvent();
    }

    /** `stream_send` of Body or Data, up to the wait of `push`. */
    method SendBody(s: StreamId, d: Bytes) returns (pc: WriterPc)
      requires Valid()
      modifies this, hasData, hasData.event
      ensures Valid() && View() == WriteBody(old(View()), s, d).0 && pc == WriteBody(old(View()), s, d).1
    {
      if s !in priority {
        return Idle;
      }
      priority := priority[s := false];
      hasData.SetEvent();
      if s !in streamBuffers || streamBuffers[s].complete {
        return Idle;
      }
      streamBuffers := streamBuffers[s := Push(streamBuffers[s], d)];
      return if MustPause(streamBuffers[s]) then Pushing(Current(streamBuffers[s].paused)) else Idle;
    }

    /** `stream_send` of EndBody or EndData, up to the drain. */
    method SendEndBody(s: StreamId) returns (pc: WriterPc)
      requires Valid()
      modifies this, hasData, hasData.event
      ensures Valid() && View() == WriteEnd(old(View()), s).0 && pc == WriteEnd(old(View()), s).1
    {
      if s !in streamBuffers {
        return Idle;
      }
      streamBuffers := streamBuffers[s := SetComplete(streamBuffers[s])];
      if s !in priority {
        return Idle;
      }
      priority := priority[s := false];
      hasData.SetEvent();
      return Draining(Current(streamBuffers[s].empty), false);
    }

    /** `stream_send` of Trailers, up to the drain. */
    method SendTrailers(s: StreamId) returns (pc: WriterPc)
      requires Valid()
      modifies this, hasData, hasData.event
      ensures Valid() && View() == WriteTrailers(old(View()), s).0 && pc == WriteTrailers(old(View()), s).1
    {
      if s !in priority {
        return Idle;
      }
      priority := priority[s := false];
      hasData.SetEvent();
      if s !in streamBuffers {
        return Idle;
      }
      return Draining(Current(streamBuffers[s].empty), true);
    }

    /** `_window_updated`, with its loop over the live streams. */
    method UpdateWindow(s: StreamId)
      requires Valid() && streamBuffers.Keys <= priority.Keys
      modifies this, hasData, hasData.event
      ensures Valid() && View() == WindowUpdated(old(View()), s)
    {
      if s == 0 {
        var left := streamBuffers.Keys;
        while left != {}
          modifies this
          invariant left <= streamBuffers.Keys <= priority.Keys
          invariant closed == old(closed) && connection == old(connection) && detached == old(detached)
          invariant streamBuffers == old(streamBuffers) && hasData.Valid() && hasData.marks == old(hasData.marks)
          invariant priority == map t | t in old(priority) :: old(priority)[t] && (t !in streamBuffers || t in left)
        {
          var t :| t in left;
          priority := priority[t := false];
          left := left - {t};
        }
      } else if s in streamBuffers {
        priority := priority[s := false];
      }
      hasData.SetEvent();
    }

    /** `_priority_updated`. */
    method UpdatePriority(s: StreamId, dependsOn: StreamId)
      requires Valid()
      modifies this, hasData, hasData.event
      ensures Valid() && View() == PriorityUpdated(old(View()), s, dependsOn)
    {
      if s !in priority {
        priority := priority[s := true];
      }
      if dependsOn != 0 && dependsOn !in priority {
        priority := priority[dependsOn := true];
      }
      hasData.SetEvent();
    }

    /** `_create_stream`, its send side. */
    method RegisterStream(s: StreamId)
      requires Valid()
      modifies this
      ensures Valid() && View() == CreateStream(old(View()), s)
    {
      streamBuffers := streamBuffers[s := NewBuffer()];
      if s !in priority {
        priority := priority[s := true];
      }
    }

    /** `_handle_events` of a StreamReset. */
    method HandleReset(s: StreamId)
      requires Valid() && streamBuffers.Keys <= priority.Keys && 0 !in streamBuffers && s != 0
      modifies this, hasData, hasData.event
      ensures Valid() && View() == StreamReset(old(View()), s)
    {
      DiscardSendState(s);
      UpdateWindow(s);
    }
  }
}
