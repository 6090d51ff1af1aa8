/** What a stream emits is what its app asked for: which messages it accepts, which bytes and which
    windows of files go out, with which headers, and when the response ends. Everything is said by
    message and by event. */
module HttpContents {
  import opened Common
  import opened HttpStreams
  import opened HttpGrammar
  import opened HttpRuns

  /** HTTP/2 and HTTP/3 carry trailers, pushes and hints, and frame the body. */
  predicate Multiplexed(s: Stream) { s.scope.version == H2 || s.scope.version == H3 }

  predicate ClientTakesTrailers(s: Stream) { ("te", "trailers") in s.scope.headers }

  /** Sections 6.4.1 and 9.3.2 of RFC 9110. */
  predicate BodyAllowed(s: Stream)
    requires s.response.Some?
  {
    s.scope.verb != "HEAD" && s.response.value.status !in {204, 304}
    && !(100 <= s.response.value.status < 200)
  }

  /** The name of each header is there and does not begin with a colon. */
  predicate Sendable(headers: seq<Header>) { forall h :: h in headers ==> |h.0| > 0 && h.0[0] != ':' }

  /** Exactly these messages are accepted, by the state of the stream; any other raises. */
  lemma AcceptedExactly(s: Stream, m: Message)
    requires HasResponse(s)
    ensures Plan(s, m).Some? <==>
      match m
      case ResponseStart(_, headers, _) => s.state == REQUEST && Sendable(headers)
      case ResponseBody(_, _) => s.state == RESPONSE
      case PathSend(_, _) => s.state == RESPONSE
      case ZeroCopy(_, _, _, _) => s.state == RESPONSE
      case ResponseTrailers(headers, _) =>
        && Multiplexed(s) && (s.state == REQUEST || s.state == TRAILERS)
        && (ClientTakesTrailers(s) ==> Sendable(headers))
      case EarlyHint(_) => Multiplexed(s) && s.state == REQUEST
      case ServerPush(_, headers) => Multiplexed(s) && Sendable(headers)
      case Unknown => false
  {
    if m.ResponseStart? || m.ResponseTrailers? || m.ServerPush? {
      assert ValidHeaders(m.headers) <==> Sendable(m.headers) by {
        assert forall i :: 0 <= i < |m.headers| ==> m.headers[i] in m.headers;
      }
    }
  }

  // ---- the body ---------------------------------------------------------------------------------------

  /** A body is bytes and windows of files. */
  datatype Piece = Octet(value: byte) | Window(offset: int, count: int)

  function Octets(d: Bytes): seq<Piece> { seq(|d|, i requires 0 <= i < |d| => Octet(d[i])) }

  function PiecesOf(e: Event): seq<Piece> {
    match e
    case Body(d) => Octets(d)
    case ZeroCopySend(offset, count) => [Window(offset, count)]
    case _ => []
  }

  /** What the events hand over, in order. */
  function Content(sent: seq<Event>): seq<Piece> {
    if sent == [] then [] else Content(sent[..|sent| - 1]) + PiecesOf(sent[|sent| - 1])
  }

  /** What the message asks for: its bytes; a file read in chunks on HTTP/2 and HTTP/3, and one window
      of it on HTTP/1, from its start for a path; nothing where no body is allowed. */
  function Asked(s: Stream, m: Message): seq<Piece>
    requires HasResponse(s)
  {
    if s.state != RESPONSE || !BodyAllowed(s) then []
    else
      match m
      case ResponseBody(d, _) => Octets(d)
      case PathSend(count, chunks) => if Multiplexed(s) then Octets(Concat(chunks)) else [Window(0, count)]
      case ZeroCopy(offset, count, chunks, _) =>
        if Multiplexed(s) then Octets(Concat(chunks)) else [Window(offset, count)]
      case _ => []
  }

  lemma ContentSnoc(sent: seq<Event>, e: Event)
    ensures Content(sent + [e]) == Content(sent) + PiecesOf(e)
  {
    assert (sent + [e])[..|sent|] == sent;
  }

  lemma {:induction false} ContentConcat(a: seq<Event>, b: seq<Event>)
    ensures Content(a + b) == Content(a) + Content(b)
    decreases |b|
  {
    if b == [] {
      assert a + b == a;
    } else {
      var last := |b| - 1;
      assert (a + b)[..|a + b| - 1] == a + b[..last];
      ContentConcat(a, b[..last]);
      Associate(Content(a), Content(b[..last]), PiecesOf(b[last]));
    }
  }

  lemma OctetsConcat(a: Bytes, b: Bytes)
    ensures Octets(a + b) == Octets(a) + Octets(b)
  {
  }

  lemma {:induction false} ChunksContent(chunks: seq<Bytes>)
    ensures Content(BodyEvents(chunks)) == Octets(Concat(chunks))
  {
    if chunks != [] {
      ChunksContent(chunks[1..]);
      assert BodyEvents(chunks) == [Body(chunks[0])] + BodyEvents(chunks[1..]);
      ContentConcat([Body(chunks[0])], BodyEvents(chunks[1..]));
      ContentSnoc([], Body(chunks[0]));
      assert [] + [Body(chunks[0])] == [Body(chunks[0])];
      OctetsConcat(chunks[0], Concat(chunks[1..]));
    }
  }

  // ---- one message ------------------------------------------------------------------------------------

  /** The message is the last of its response. */
  predicate Completes(s: Stream, m: Message)
    requires HasResponse(s)
  {
    match m
    case ResponseBody(_, more) => s.state == RESPONSE && !more && !s.response.value.trailers
    case PathSend(_, _) => s.state == RESPONSE && !s.response.value.trailers
    case ZeroCopy(_, _, _, more) => s.state == RESPONSE && !more && !s.response.value.trailers
    case ResponseTrailers(_, more) => !more && (s.state == TRAILERS || ClientTakesTrailers(s))
    case _ => false
  }

  function StatusOf(s: Stream): int { if s.response.Some? && s.state != REQUEST then s.response.value.status else 200 }

  /** What follows the last message. */
  function Closed(t: Trace, status: int): Trace {
    Trace(CLOSED, t.sent + [EndBody, StreamClosed], t.log + [FullRecord(status)])
  }

  lemma ClosingTrace(t: Trace, status: int)
    ensures PerformAll(t, ClosedOps(status)) == Closed(t, status)
  {
    PerformClosed(t, status);
    assert t.sent + [EndBody] + [StreamClosed] == t.sent + [EndBody, StreamClosed];
  }

  lemma FinishTrace(t: Trace, r: Started, more: bool)
    ensures PerformAll(t, FinishOps(r, more)) ==
      if more then t else if r.trailers then t.(state := TRAILERS) else Closed(t, r.status)
  {
    if !more && r.trailers {
      PerformOne(t, Enter(TRAILERS), []);
    } else if !more {
      ClosingTrace(t, r.status);
    }
  }

  /** Where a message of the body leaves the stream. */
  function Behind(s: Stream, m: Message, t: Trace): Trace
    requires s.state == RESPONSE && s.response.Some?
  {
    if Completes(s, m) then Closed(t, s.response.value.status)
    else if m.PathSend? || (m.ResponseBody? && !m.more) || (m.ZeroCopy? && !m.more) then t.(state := TRAILERS)
    else t
  }

  /** The operations that carry the content, and the events they emit. */
  lemma BytesEmitted(s: Stream, d: Bytes, t: Trace) returns (first: seq<Op>, events: seq<Event>)
    requires HasResponse(s) && s.state == RESPONSE
    ensures first == if !BodyAllowed(s) || d == [] then [] else [Emit(Body(d))]
    ensures forall e :: e in events ==> e.Body?
    ensures Content(events) == if BodyAllowed(s) then Octets(d) else []
    ensures PerformAll(t, first) == t.(sent := t.sent + events)
  {
    if !BodyAllowed(s) || d == [] {
      first, events := [], [];
      assert t.sent + [] == t.sent;
    } else {
      first, events := [Emit(Body(d))], [Body(d)];
      PerformOne(t, Emit(Body(d)), []);
      assert [] + events == events;
      ContentSnoc([], Body(d));
    }
  }

  lemma WindowEmitted(s: Stream, offset: int, count: int, chunks: seq<Bytes>, t: Trace)
    returns (first: seq<Op>, events: seq<Event>)
    requires HasResponse(s) && s.state == RESPONSE
    ensures first == if !BodyAllowed(s) then [] else if Multiplexed(s) then BodyOps(chunks)
                     else [Emit(ZeroCopySend(offset, count))]
    ensures forall e :: e in events ==> e.Body? || e.ZeroCopySend?
    ensures Content(events) == if !BodyAllowed(s) then [] else if Multiplexed(s) then Octets(Concat(chunks))
                               else [Window(offset, count)]
    ensures PerformAll(t, first) == t.(sent := t.sent + events)
  {
    if !BodyAllowed(s) {
      first, events := [], [];
      assert t.sent + [] == t.sent;
    } else if Multiplexed(s) {
      first, events := BodyOps(chunks), BodyEvents(chunks);
      PerformBodies(t, chunks);
      ChunksContent(chunks);
    } else {
      var e := ZeroCopySend(offset, count);
      first, events := [Emit(e)], [e];
      PerformOne(t, Emit(e), []);
      assert [] + events == events;
      ContentSnoc([], e);
    }
  }

  /** An accepted part of a body goes out whole and in order, as body events only, and what follows it is
      the end of the response exactly if it is the last part and no trailers are to come. */
  lemma BodyIsEmitted(s: Stream, m: Message, t: Trace) returns (events: seq<Event>)
    requires HasResponse(s) && Plan(s, m).Some? && t.state == s.state
    requires m.ResponseBody? || m.PathSend? || m.ZeroCopy?
    ensures forall e :: e in events ==> e.Body? || e.ZeroCopySend?
    ensures Content(events) == Asked(s, m)
    ensures PerformAll(t, Plan(s, m).value) == Behind(s, m, t.(sent := t.sent + events))
  {
    var r := s.response.value;
    var more := if m.PathSend? then false else m.more;
    var first;
    if m.ResponseBody? {
      first, events := BytesEmitted(s, m.body, t);
    } else {
      first, events := WindowEmitted(s, if m.PathSend? then 0 else m.offset, m.count, m.chunks, t);
    }
    assert Plan(s, m).value == first + FinishOps(r, more);
    PerformConcat(t, first, FinishOps(r, more));
    FinishTrace(t.(sent := t.sent + events), r, more);
  }

  /** Every other accepted message: its own event with its own status, headers or links, the state it
      leads to, and the end of the response behind the last trailers. */
  lemma HeadIsEmitted(s: Stream, m: Message, t: Trace)
    requires HasResponse(s) && Plan(s, m).Some? && t.state == s.state
    requires !(m.ResponseBody? || m.PathSend? || m.ZeroCopy?)
    ensures
      var done := PerformAll(t, Plan(s, m).value);
      match m
      case ResponseStart(status, headers, _) =>
        done == t.(state := RESPONSE, sent := t.sent + [Response(status, headers)])
      case EarlyHint(links) => done == t.(sent := t.sent + [Info(links)])
      case ServerPush(path, headers) => done == t.(sent := t.sent + [Push(path, headers)])
      case ResponseTrailers(headers, more) =>
        var e := if s.state == REQUEST then Response(200, headers) else Trailers(headers);
        var next := if ClientTakesTrailers(s) then Trace(TRAILERS, t.sent + [e], t.log) else t;
        done == if Completes(s, m) then Closed(next, StatusOf(s)) else next
      case _ => true
  {
    var ops := Plan(s, m).value;
    match m
    case ResponseStart(status, headers, _) =>
      PerformOne(t, ops[0], [ops[1]]);
      PerformOne(Perform(t, ops[0]), ops[1], []);
      assert ops == [ops[0]] + [ops[1]];
    case EarlyHint(links) => PerformOne(t, ops[0], []);
    case ServerPush(path, headers) => PerformOne(t, ops[0], []);
    case ResponseTrailers(headers, more) => TrailersTrace(s, m, t);
    case _ =>
  }

  /** A start is remembered with its status and with the trailers it announces, trailers in its place
      with status 200, and nothing else is. */
  lemma OnlyStartsAreRemembered(s: Stream, m: Message)
    requires HasResponse(s) && Plan(s, m).Some?
    ensures
      var kept := Noted(s, m);
      && kept.state == s.state && kept.closed == s.closed && kept.scope == s.scope
      && kept.response ==
           if m.ResponseStart? then Some(Started(m.status, m.trailers))
           else if m.ResponseTrailers? && s.state == REQUEST && ClientTakesTrailers(s) then Some(Started(200, false))
           else s.response
  {
  }

  lemma TrailersTrace(s: Stream, m: Message, t: Trace)
    requires HasResponse(s) && Plan(s, m).Some? && t.state == s.state && m.ResponseTrailers?
    ensures
      var e := if s.state == REQUEST then Response(200, m.headers) else Trailers(m.headers);
      var next := if ClientTakesTrailers(s) then Trace(TRAILERS, t.sent + [e], t.log) else t;
      PerformAll(t, Plan(s, m).value) == if Completes(s, m) then Closed(next, StatusOf(s)) else next
  {
    var status := StatusOf(s);
    var rest := if m.more then [] else ClosedOps(status);
    if s.state == REQUEST {
      if ClientTakesTrailers(s) {
        var first := [Emit(Response(200, m.headers)), Enter(TRAILERS)];
        PerformConcat(t, first, rest);
        PerformOne(t, first[0], [first[1]]);
        PerformOne(Perform(t, first[0]), first[1], []);
        assert first == [first[0]] + [first[1]];
        ClosingTrace(Trace(TRAILERS, t.sent + [Response(200, m.headers)], t.log), 200);
      }
    } else {
      var first := if ClientTakesTrailers(s) then [Emit(Trailers(m.headers))] else [];
      PerformConcat(t, first, rest);
      if ClientTakesTrailers(s) {
        PerformOne(t, first[0], []);
      }
      ClosingTrace(PerformAll(t, first), status);
    }
  }

  // ---- every run --------------------------------------------------------------------------------------

  /** What a step asks for: a message that raises, nothing. */
  function AskedNow(st: State, step: Step): seq<Piece>
    requires Enabled(st, step)
  {
    if step.Send? && Plan(st.side.stream, step.m).Some? then Asked(st.side.stream, step.m) else []
  }

  /** What the messages of a run ask for, in order. */
  function AskedBy(st: State, steps: seq<Step>): seq<Piece>
    requires Run(st, steps).Some?
    decreases |steps|
  {
    if steps == [] then [] else AskedNow(st, steps[0]) + AskedBy(Apply(st, steps[0]), steps[1..])
  }

  function EventsOf(ops: seq<Op>): seq<Event>
    decreases |ops|
  {
    if ops == [] then [] else (if ops[0].Emit? then [ops[0].event] else []) + EventsOf(ops[1..])
  }

  /** Handed over already, and still to come of the message at hand. */
  function Promised(st: State): seq<Piece> { Content(st.sent) + Content(EventsOf(st.side.ops)) }

  lemma {:induction false} PerformedEvents(t: Trace, ops: seq<Op>)
    ensures PerformAll(t, ops).sent == t.sent + EventsOf(ops)
    decreases |ops|
  {
    if ops != [] {
      PerformedEvents(Perform(t, ops[0]), ops[1..]);
    }
  }

  predicate Bodiless(events: seq<Event>) {
    forall i :: 0 <= i < |events| ==> !events[i].Body? && !events[i].ZeroCopySend?
  }

  lemma {:induction false} BodilessContent(events: seq<Event>)
    requires Bodiless(events)
    ensures Content(events) == []
    decreases |events|
  {
    if events != [] {
      BodilessContent(events[..|events| - 1]);
    }
  }

  /** What a message makes the stream do hands over what it asks for. */
  lemma PlanContent(s: Stream, m: Message)
    requires HasResponse(s) && Plan(s, m).Some?
    ensures Content(EventsOf(Plan(s, m).value)) == Asked(s, m)
  {
    PerformedEvents(Trace(s.state, [], []), Plan(s, m).value);
    assert [] + EventsOf(Plan(s, m).value) == EventsOf(Plan(s, m).value);
    if m.ResponseBody? || m.PathSend? || m.ZeroCopy? {
      BodyContent(s, m);
    } else {
      HeadContent(s, m);
    }
  }

  lemma BodyContent(s: Stream, m: Message)
    requires HasResponse(s) && Plan(s, m).Some? && (m.ResponseBody? || m.PathSend? || m.ZeroCopy?)
    ensures Content(PerformAll(Trace(s.state, [], []), Plan(s, m).value).sent) == Asked(s, m)
  {
    var t := Trace(s.state, [], []);
    var events := BodyIsEmitted(s, m, t);
    var tail := if Completes(s, m) then [EndBody, StreamClosed] else [];
    assert PerformAll(t, Plan(s, m).value).sent == events + tail by {
      assert [] + events == events && events + [] == events;
    }
    ContentConcat(events, tail);
    BodilessContent(tail);
    assert Asked(s, m) + [] == Asked(s, m);
  }

  lemma HeadIsBodiless(s: Stream, m: Message)
    requires HasResponse(s) && Plan(s, m).Some? && !(m.ResponseBody? || m.PathSend? || m.ZeroCopy?)
    ensures Bodiless(PerformAll(Trace(s.state, [], []), Plan(s, m).value).sent)
  {
    var t := Trace(s.state, [], []);
    HeadIsEmitted(s, m, t);
    match m
    case ResponseTrailers(headers, _) =>
      var e := if s.state == REQUEST then Response(200, headers) else Trailers(headers);
      assert Bodiless([] + [e] + [EndBody, StreamClosed]) && Bodiless([] + [EndBody, StreamClosed]);
    case _ =>
  }

  lemma HeadContent(s: Stream, m: Message)
    requires HasResponse(s) && Plan(s, m).Some? && !(m.ResponseBody? || m.PathSend? || m.ZeroCopy?)
    ensures Content(PerformAll(Trace(s.state, [], []), Plan(s, m).value).sent) == [] == Asked(s, m)
  {
    HeadIsBodiless(s, m);
    BodilessContent(PerformAll(Trace(s.state, [], []), Plan(s, m).value).sent);
  }

  lemma ReturnContent(s: Stream)
    ensures Content(EventsOf(PlanReturn(s))) == []
  {
    var t := Trace(s.state, [], []);
    PerformedEvents(t, PlanReturn(s));
    assert [] + EventsOf(PlanReturn(s)) == EventsOf(PlanReturn(s));
    if !s.closed && s.state == REQUEST {
      PerformError(t, 500);
    } else if !s.closed {
      PerformOne(t, Emit(StreamClosed), []);
    }
    BodilessContent(EventsOf(PlanReturn(s)));
  }

  lemma PerformedContent(st: State)
    requires st.side.ops != []
    ensures Promised(Performed(st)) == Promised(st)
  {
    var op, rest := st.side.ops[0], st.side.ops[1..];
    assert Performed(st).side.ops == rest;
    if op.Emit? {
      ContentSnoc(st.sent, op.event);
      ContentConcat([op.event], EventsOf(rest));
      ContentSnoc([], op.event);
      assert [] + [op.event] == [op.event] && [] + PiecesOf(op.event) == PiecesOf(op.event);
      Associate(Content(st.sent), PiecesOf(op.event), Content(EventsOf(rest)));
    } else {
      assert [] + EventsOf(rest) == EventsOf(rest);
    }
  }

  lemma StepContent(st: State, step: Step)
    requires Enabled(st, step)
    ensures Promised(Apply(st, step)) == Promised(st) + AskedNow(st, step)
  {
    assert Promised(st) + [] == Promised(st);
    match step
    case Send(m) =>
      assert Promised(st) == Content(st.sent);
      if Plan(st.side.stream, m).Some? {
        PlanContent(st.side.stream, m);
      }
    case Return => ReturnContent(st.side.stream);
    case Advance => PerformedContent(st);
    case _ =>
  }

  lemma {:induction false} RunContent(st: State, steps: seq<Step>)
    requires Run(st, steps).Some?
    ensures Promised(Run(st, steps).value) == Promised(st) + AskedBy(st, steps)
    decreases |steps|
  {
    if steps == [] {
      assert Promised(st) + [] == Promised(st);
    } else {
      var next := Apply(st, steps[0]);
      StepContent(st, steps[0]);
      RunContent(next, steps[1..]);
      Associate(Promised(st), AskedNow(st, steps[0]), AskedBy(next, steps[1..]));
    }
  }

  /** On every run, the bytes and windows emitted are the first of those the app has asked for, none
      lost, repeated or reordered, and all of them once the stream is through with its last message. */
  lemma BodyIsWhatWasAsked(scope: Scope, steps: seq<Step>, st: State)
    requires ReachedBy(scope, steps, st)
    ensures Content(st.sent) <= AskedBy(Initial(scope), steps)
    ensures st.side.ops == [] ==> Content(st.sent) == AskedBy(Initial(scope), steps)
  {
    RunContent(Initial(scope), steps);
    assert [] + AskedBy(Initial(scope), steps) == AskedBy(Initial(scope), steps);
  }

  // ---- the request ------------------------------------------------------------------------------------

  /** What the reader hands over before it closes the stream, in order. */
  function HandedOver(steps: seq<Step>): seq<Put>
    decreases |steps|
  {
    if steps == [] || steps[0].HandClosed? then []
    else
      (if steps[0].HandBody? then [HttpRequest(steps[0].data, steps[0].more)] else []) + HandedOver(steps[1..])
  }

  /** The messages other than the disconnect. */
  function Parts(puts: seq<Put>): seq<Put> {
    if puts == [] then []
    else Parts(puts[..|puts| - 1]) + if puts[|puts| - 1].HttpRequest? then [puts[|puts| - 1]] else []
  }

  lemma PartsSnoc(puts: seq<Put>, p: Put)
    ensures Parts(puts + [p]) == Parts(puts) + if p.HttpRequest? then [p] else []
  {
    assert (puts + [p])[..|puts|] == puts;
  }

  function HandedNow(st: State, step: Step): seq<Put> {
    if step.HandBody? && !st.side.stream.closed then [HttpRequest(step.data, step.more)] else []
  }

  /** The disconnect has been put, or is about to be. */
  predicate Disconnects(st: State) { st.telling || HttpDisconnect in st.puts }

  lemma StepParts(st: State, step: Step)
    requires Enabled(st, step)
    ensures Parts(Apply(st, step).puts) == Parts(st.puts) + HandedNow(st, step)
    ensures Apply(st, step).side.stream.closed <==> st.side.stream.closed || step.HandClosed?
    ensures Disconnects(Apply(st, step)) <==> Disconnects(st) || (!st.side.stream.closed && step.HandClosed?)
  {
    assert Parts(st.puts) + [] == Parts(st.puts);
    if step.HandBody? {
      PartsSnoc(st.puts, HttpRequest(step.data, step.more));
    } else if step.TellApp? {
      PartsSnoc(st.puts, HttpDisconnect);
    }
  }

  lemma {:induction false} RunParts(st: State, steps: seq<Step>)
    requires Run(st, steps).Some?
    ensures
      var last := Run(st, steps).value;
      && Parts(last.puts) == Parts(st.puts) + (if st.side.stream.closed then [] else HandedOver(steps))
      && (last.side.stream.closed <==> st.side.stream.closed || HandClosed in steps)
      && (Disconnects(last) <==> Disconnects(st) || (!st.side.stream.closed && HandClosed in steps))
    decreases |steps|
  {
    assert Parts(st.puts) + [] == Parts(st.puts);
    if steps != [] {
      var rest := HandedOver(steps[1..]);
      StepParts(st, steps[0]);
      RunParts(Apply(st, steps[0]), steps[1..]);
      assert steps == [steps[0]] + steps[1..];
      Associate(Parts(st.puts), HandedNow(st, steps[0]), rest);
      assert [] + rest == rest;
    }
  }

  /** The app is given every part of its request that comes before the stream is closed, as it is and in
      order, and behind that the disconnect, if the stream is closed, and nothing else. */
  lemma RequestReachesTheApp(scope: Scope, steps: seq<Step>, st: State)
    requires ReachedBy(scope, steps, st)
    ensures Parts(st.puts) == HandedOver(steps)
    ensures HandClosed in steps <==> st.telling || HttpDisconnect in st.puts
  {
    RunParts(Initial(scope), steps);
    assert [] + HandedOver(steps) == HandedOver(steps);
  }
}
