/** src/anycorn/protocol/h3.py: which streams the connection knows, and which the peer has reset.

    aioquic asserts when anything is sent on a stream whose sender it has reset. The stream that a
    server push makes is outside this model. */
module H3Protocols {
  import opened Common
  import opened HttpStreams

  type StreamId = nat

  /** The keys of `streams`, and `_reset_streams`. */
  datatype Table = Table(known: set<StreamId>, resets: set<StreamId>)

  /** `stream_send` dropped the stream, went on to the push, skipped the event, or called into aioquic. */
  datatype Outcome = Dropped | Promised | Skipped | Attempted

  function Entered(t: Table, s: StreamId): Table { t.(known := t.known + {s}) }

  function Reset(t: Table, s: StreamId): Table { Table(t.known - {s}, t.resets + {s}) }

  function OutcomeOf(t: Table, s: StreamId, event: Event): Outcome {
    if event.StreamClosed? then Dropped
    else if event.Push? then Promised
    else if s in t.resets then Skipped
    else Attempted
  }

  /** `asserts`: aioquic has reset the sender already. */
  function AfterSend(t: Table, s: StreamId, event: Event, asserts: bool): Table {
    match OutcomeOf(t, s, event)
    case Dropped => Table(t.known - {s}, t.resets - {s})
    case Promised => t
    case Skipped => t
    case Attempted => if asserts then Reset(t, s) else t
  }

  class H3Protocol {
    var streams: map<StreamId, HTTPStream>
    var resetStreams: set<StreamId>

    ghost function View(): Table
      reads this
    {
      Table(streams.Keys, resetStreams)
    }

    constructor ()
      ensures View() == Table({}, {})
    {
      streams := map[];
      resetStreams := {};
    }

    /** `_create_stream`, as it runs for every HEADERS: whatever stream had the id is overwritten and not
        told. A refused request leaves the events with which the reader answers it. */
    method CreateStream(s: StreamId, request: Scope, verdict: Verdict) returns (events: seq<Event>)
      modifies this
      ensures View() == Entered(old(View()), s)
      ensures fresh(streams[s]) && streams == old(streams)[s := streams[s]]
      ensures streams[s].Valid() && streams[s].hasApp == verdict.Good?
      ensures verdict.Good? ==> streams[s].scope == Some(request) && !streams[s].closed
      ensures events == if verdict.Good? then []
                        else [ErrorResponse(if verdict.BadName? then 404 else 400), EndBody, StreamClosed]
    {
      var created := new HTTPStream();
      streams := streams[s := created];
      created.HandleRequest(request, verdict);
      events := created.sent;
    }

    /** `_reset_stream`: the stream is forgotten and told, once. */
    method ResetStream(s: StreamId)
      requires s in streams ==> streams[s].Valid()
      modifies this, if s in streams then {streams[s]} else {}
      ensures View() == Reset(old(View()), s) && streams == old(streams) - {s}
      ensures s in old(streams) ==> old(streams)[s].Valid() && old(streams)[s].closed
    {
      resetStreams := resetStreams + {s};
      if s in streams {
        var stream := streams[s];
        streams := streams - {s};
        stream.HandleClosed();
      }
    }

    /** `stream_send`, without the promise of a push and its stream. */
    method StreamSend(s: StreamId, event: Event, asserts: bool) returns (r: Outcome)
      requires s in streams ==> streams[s].Valid()
      modifies this, if s in streams then {streams[s]} else {}
      ensures r == OutcomeOf(old(View()), s, event) && View() == AfterSend(old(View()), s, event, asserts)
      ensures streams == if s in View().known then old(streams) else old(streams) - {s}
      ensures r.Attempted? && asserts && s in old(streams) ==> old(streams)[s].closed
    {
      if event.StreamClosed? {
        streams := streams - {s};
        resetStreams := resetStreams - {s};
        return Dropped;
      }
      if event.Push? {
        return Promised;
      }
      if s in resetStreams {
        return Skipped;
      }
      if asserts {
        ResetStream(s);
      }
      return Attempted;
    }
  }
}
