/** src/anycorn/protocol/h11.py: one HTTP/1.1 connection, the stream that is live on it, and the
    recycling that lets the next request in.

    h11 itself is an abstraction here: the states of both sides, whether the connection may be
    kept, and whether received bytes are left. */
module H11Protocols {
  import opened Common
  import opened EventObjects
  import opened HttpStreams

  /** h11's IDLE, SEND_RESPONSE, SEND_BODY, DONE, MUST_CLOSE and ERROR. */
  datatype Peer = Idle | Responding | Sending | Done | MustClose | Failed

  datatype Link = Link(ours: Peer, theirs: Peer, keepAlive: bool, buffered: bool)

  function NewLink(): Link { Link(Idle, Idle, true, false) }

  /** The transitions h11 makes on its own: nothing follows a message on a connection that is not
      kept, or whose other side failed. */
  function Settled(l: Link): Link {
    var ours := if l.ours == Done && (!l.keepAlive || l.theirs == Failed) then MustClose else l.ours;
    var theirs := if l.theirs == Done && (!l.keepAlive || l.ours == Failed) then MustClose else l.theirs;
    l.(ours := ours, theirs := theirs)
  }

  /** Events that become h11 events; `stream_send` ignores the others. */
  predicate OnWire(e: Event) { e.Response? || e.Body? || e.ZeroCopySend? || e.EndBody? }

  predicate CanSend(l: Link, e: Event)
    requires OnWire(e)
  {
    if e.Response? then l.ours == Responding else l.ours == Sending
  }

  /** A final response opens the body; below 200 it is informational. */
  function AfterSend(l: Link, e: Event, close: bool): Link
    requires OnWire(e) && CanSend(l, e)
  {
    if e.Response? && e.status >= 200 then Settled(l.(ours := Sending, keepAlive := l.keepAlive && !close))
    else if e.EndBody? then Settled(l.(ours := Done))
    else l
  }

  function AfterError(l: Link): Link { Settled(l.(ours := Failed)) }

  function AfterRequest(l: Link, asksClose: bool, buffered: bool): Link {
    Link(Responding, Sending, l.keepAlive && !asksClose, buffered)
  }

  function AfterEnd(l: Link, buffered: bool): Link { Settled(l.(theirs := Done, buffered := buffered)) }

  predicate AsksClose(headers: seq<Header>) { ("connection", "close") in headers }

  /** `live`: there is a stream; `requests`: `keep_alive_requests`; `gone`: the transport takes no more
      bytes, because `send(Closed())` closed it or it was lost. */
  datatype Core = Core(link: Link, live: bool, requests: nat, marks: Marks, gone: bool)

  function NewCore(): Core { Core(NewLink(), false, 0, [false], false) }

  predicate MayRecycle(c: Core, terminated: bool, most: nat) {
    !terminated && c.link.ours == Done && c.link.theirs == Done && c.requests <= most
  }

  /** `_maybe_recycle` once the stream has been told. */
  function Recycled(c: Core, terminated: bool, most: nat): Core {
    var kept := MayRecycle(c, terminated, most);
    c.(live := false, marks := Set(c.marks), gone := c.gone || !kept,
       link := if kept then c.link.(ours := Idle, theirs := Idle) else c.link)
  }

  predicate ResponseCloses(c: Core, e: Event, closes: bool, most: nat) {
    e.Response? && (closes || AsksClose(e.headers) || c.requests >= most)
  }

  /** A fault h11 finds with an event: with the headers when the event is made, or with the event, such
      as its length, when it is sent. */
  datatype Fault = Fine | InHeaders | InSending

  /** What became of an event: put on the wire, ignored, raised to the app before or after h11 heard of
      it, or dropped because the client's side has failed. */
  datatype Fate = OnTheWire | Ignored | Rejected | Raised | Dropped

  function FateOf(l: Link, e: Event, fault: Fault): Fate {
    if !OnWire(e) then Ignored
    else if e.Response? && fault == InHeaders then Rejected
    else if CanSend(l, e) && fault != InSending then OnTheWire
    else if AfterError(l).theirs == Failed then Dropped
    else Raised
  }

  function LinkAfter(c: Core, e: Event, fault: Fault, closes: bool, most: nat): Link {
    match FateOf(c.link, e, fault)
    case OnTheWire => AfterSend(c.link, e, ResponseCloses(c, e, closes, most))
    case Ignored => c.link
    case Rejected => c.link
    case Raised => AfterError(c.link)
    case Dropped => AfterError(c.link)
  }

  class H11Protocol {
    const most: nat
    var link: Link
    var stream: HTTPStream?
    var requests: nat
    var canRead: EventWrapper
    /** Whether `send(Closed())` was called. */
    var gone: bool

    ghost predicate Valid()
      reads this, canRead, canRead.event
    {
      canRead.Valid()
    }

    ghost function View(): Core
      reads this, canRead
    {
      Core(link, stream != null, requests, canRead.marks, gone)
    }

    constructor (max: nat)
      ensures Valid() && View() == NewCore() && most == max && fresh(canRead) && fresh(canRead.event)
    {
      most := max;
      link := NewLink();
      stream := null;
      requests := 0;
      canRead := new EventWrapper();
      gone := false;
    }

    /** `stream_send` of anything but StreamClosed. */
    method StreamSend(event: Event, fault: Fault, closes: bool) returns (fate: Fate)
      requires Valid() && !event.StreamClosed?
      modifies this`link
      ensures Valid() && fate == FateOf(old(link), event, fault)
      ensures View() == old(View()).(link := LinkAfter(old(View()), event, fault, closes, most))
    {
      if event.Response? {
        if fault == InHeaders {
          return Rejected;
        }
        var close := closes || AsksClose(event.headers);
        if requests >= most {
          close := true;
        }
        fate := SendH11Event(event, fault == InSending, close);
      } else if event.Body? || event.ZeroCopySend? || event.EndBody? {
        fate := SendH11Event(event, fault == InSending, false);
      } else {
        fate := Ignored;
      }
    }

    /** `_send_h11_event`, and `_send_zerocopy`, which handles the error alike. */
    method SendH11Event(event: Event, refuses: bool, close: bool) returns (fate: Fate)
      requires Valid() && OnWire(event)
      modifies this`link
      ensures Valid() && fate == FateOf(old(link), event, if refuses then InSending else Fine)
      ensures link == if fate.OnTheWire? then AfterSend(old(link), event, close) else AfterError(old(link))
    {
      if CanSend(link, event) && !refuses {
        link := AfterSend(link, event, close);
        return OnTheWire;
      }
      link := AfterError(link);
      return if link.theirs == Failed then Dropped else Raised;
    }

    /** `_close_stream`. */
    method CloseStream()
      requires Valid() && (stream != null ==> stream.Valid())
      modifies this`stream, stream
      ensures Valid() && View() == old(View()).(live := false)
      ensures old(stream) != null ==> old(stream).Valid() && old(stream).closed
    {
      if stream != null {
        stream.HandleClosed();
        stream := null;
      }
    }

    /** `_maybe_recycle`: whatever it decides, a parked reader is released. */
    method MaybeRecycle(terminated: bool)
      requires Valid() && (stream != null ==> stream.Valid())
      modifies this, stream, canRead, canRead.event
      ensures Valid() && View() == Recycled(old(View()), terminated, most)
      ensures old(stream) != null ==> old(stream).Valid() && old(stream).closed
    {
      CloseStream();
      if !terminated && link.ours == Done && link.theirs == Done && requests <= most {
        link := link.(ours := Idle, theirs := Idle);
        canRead.SetEvent();
      } else {
        canRead.SetEvent();
        gone := true;
      }
    }

    /** `handle(Closed)`: the stream is told and dropped, and nothing else; the server calls it at the end
        of what it reads, while the transport still takes what is written. */
    method HandleClosed()
      requires Valid() && (stream != null ==> stream.Valid())
      modifies this`stream, stream
      ensures Valid() && View() == old(View()).(live := false)
      ensures old(stream) != null ==> old(stream).Valid() && old(stream).closed
    {
      if stream != null {
        CloseStream();
      }
    }

    /** `_handle_events` on a request: its stream is live. One that gets an app counts at once; a refused
        one leaves the events with which the reader answers it first, and then counts it. */
    method CreateStream(request: Scope, verdict: Verdict, asksClose: bool, buffered: bool)
      returns (events: seq<Event>)
      requires Valid() && link.theirs == Idle
      modifies this`link, this`stream, this`requests
      ensures Valid() && stream != null && fresh(stream) && stream.Valid() && stream.hasApp == verdict.Good?
      ensures verdict.Good? ==> stream.scope == Some(request) && !stream.closed
      ensures events == if verdict.Good? then []
                        else [ErrorResponse(if verdict.BadName? then 404 else 400), EndBody, StreamClosed]
      ensures View() == old(View()).(link := AfterRequest(old(link), asksClose, buffered), live := true,
                                     requests := old(requests) + if verdict.Good? then 1 else 0)
    {
      link := AfterRequest(link, asksClose, buffered);
      var created := new HTTPStream();
      stream := created;
      created.HandleRequest(request, verdict);
      events := created.sent;
      if verdict.Good? {
        CountRequest();
      }
    }

    method CountRequest()
      requires Valid()
      modifies this`requests
      ensures Valid() && View() == old(View()).(requests := old(requests) + 1)
    {
      requests := requests + 1;
    }

    /** `_handle_events` on PAUSED: the event to wait for is the new one. */
    method Park()
      requires Valid() && link.theirs == Done && link.buffered
      modifies canRead
      ensures Valid() && View() == old(View()).(marks := Clear(old(View()).marks)) && fresh(canRead.event)
    {
      canRead.ClearEvent();
    }
  }
}
