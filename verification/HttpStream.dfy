/** src/anycorn/protocol/http_stream.py: the state machine between one ASGI application and the
    protocol that carries its response.

    `Plan` says what `app_send` does with a message in a given state: it raises (None), or it
    goes through a list of operations, each an emission to the protocol, a change of state or
    an access record. Every emission may suspend, so HttpRuns interleaves these operations with
    the reader; the class below runs them one after the other, as the coroutine does. */
module HttpStreams {
  import opened Common

  datatype Version = H10 | H11 | H2 | H3

  type Header = (string, string)

  datatype Event =
    | Info(links: seq<string>)
    | Response(status: int, headers: seq<Header>)
    | Body(data: Bytes)
    | ZeroCopySend(offset: int, count: int)
    | Trailers(headers: seq<Header>)
    | EndBody
    | StreamClosed
    | Push(path: string, headers: seq<Header>)

  datatype Message =
    | ResponseStart(status: int, headers: seq<Header>, trailers: bool)
    | ResponseBody(body: Bytes, more: bool)
    | PathSend(count: int, chunks: seq<Bytes>)
    | ZeroCopy(offset: int, count: int, chunks: seq<Bytes>, more: bool)
    | ResponseTrailers(headers: seq<Header>, more: bool)
    | EarlyHint(links: seq<string>)
    | ServerPush(path: string, headers: seq<Header>)
    | Unknown

  datatype HState = REQUEST | RESPONSE | TRAILERS | CLOSED

  datatype Scope = Scope(version: Version, verb: string, headers: seq<Header>)

  /** The response as the app started it: its status, and whether trailers are to follow. */
  datatype Started = Started(status: int, trailers: bool)

  datatype Stream = Stream(state: HState, closed: bool, scope: Scope, response: Option<Started>)

  datatype Record = FullRecord(status: int) | AbortedRecord

  datatype Op = Emit(event: Event) | Enter(state: HState) | Log(record: Record)

  /** utils.py, `suppress_body`. */
  predicate SuppressBody(verb: string, status: int) {
    verb == "HEAD" || 100 <= status < 200 || status in {204, 304}
  }

  /** utils.py, `build_and_validate_headers` raises on an empty name and on a pseudo header. */
  predicate ValidHeaders(headers: seq<Header>) {
    forall i :: 0 <= i < |headers| ==> headers[i].0 != "" && headers[i].0[0] != ':'
  }

  predicate TakesTrailers(scope: Scope) { ("te", "trailers") in scope.headers }

  predicate Framed(v: Version) { v == H2 || v == H3 }

  // ---- app_send -----------------------------------------------------------------------------

  function ClosedOps(status: int): seq<Op> {
    [Enter(CLOSED), Emit(EndBody), Log(FullRecord(status)), Emit(StreamClosed)]
  }

  function ErrorResponse(status: int): Event {
    Response(status, [("content-length", "0"), ("connection", "close")])
  }

  /** `_send_error_response` once the scope is built. */
  function ErrorOps(status: int): seq<Op> {
    [Enter(CLOSED), Emit(ErrorResponse(status)), Emit(EndBody), Log(FullRecord(status)), Emit(StreamClosed)]
  }

  /** After the last body message. */
  function FinishOps(r: Started, more: bool): seq<Op> {
    if more then [] else if r.trailers then [Enter(TRAILERS)] else ClosedOps(r.status)
  }

  function BodyOps(chunks: seq<Bytes>): seq<Op> {
    seq(|chunks|, i requires 0 <= i < |chunks| => Emit(Body(chunks[i])))
  }

  /** `_send_zerocopy_body`: HTTP/1 hands the window to sendfile, the others read it. */
  function WindowOps(s: Scope, r: Started, offset: int, count: int, chunks: seq<Bytes>, more: bool): seq<Op> {
    (if SuppressBody(s.verb, r.status) then []
     else if Framed(s.version) then BodyOps(chunks)
     else [Emit(ZeroCopySend(offset, count))])
    + FinishOps(r, more)
  }

  function TrailerOps(s: Scope, headers: seq<Header>, status: int, more: bool): seq<Op> {
    (if TakesTrailers(s) then [Emit(Trailers(headers))] else []) + if more then [] else ClosedOps(status)
  }

  /** What `app_send` does with a message, None when it raises. */
  function Plan(st: Stream, m: Message): Option<seq<Op>>
    requires st.state in {RESPONSE, TRAILERS} ==> st.response.Some?
  {
    var s := st.scope;
    match m
    case ResponseStart(status, headers, _) =>
      if st.state == REQUEST && ValidHeaders(headers)
      then Some([Emit(Response(status, headers)), Enter(RESPONSE)]) else None
    case ServerPush(path, headers) =>
      if Framed(s.version) && ValidHeaders(headers) then Some([Emit(Push(path, headers))]) else None
    case EarlyHint(links) =>
      if Framed(s.version) && st.state == REQUEST then Some([Emit(Info(links))]) else None
    case ResponseBody(body, more) =>
      if st.state == RESPONSE then
        Some((if SuppressBody(s.verb, st.response.value.status) || body == [] then [] else [Emit(Body(body))])
             + FinishOps(st.response.value, more))
      else None
    case PathSend(count, chunks) =>
      if st.state == RESPONSE then Some(WindowOps(s, st.response.value, 0, count, chunks, false)) else None
    case ZeroCopy(offset, count, chunks, more) =>
      if st.state == RESPONSE then Some(WindowOps(s, st.response.value, offset, count, chunks, more)) else None
    case ResponseTrailers(headers, more) =>
      if !Framed(s.version) then None
      else if st.state == REQUEST then
        if !TakesTrailers(s) then Some([])
        else if !ValidHeaders(headers) then None
        else Some([Emit(Response(200, headers)), Enter(TRAILERS)] + if more then [] else ClosedOps(200))
      else if st.state == TRAILERS && (TakesTrailers(s) ==> ValidHeaders(headers)) then
        Some(TrailerOps(s, headers, st.response.value.status, more))
      else None
    case Unknown => None
  }

  /** `app_send(None)`: the application has returned. */
  function PlanReturn(st: Stream): seq<Op> {
    if st.closed then []
    else if st.state == REQUEST then ErrorOps(500)
    else [Emit(StreamClosed)]
  }

  /** `self.response` is assigned before anything is validated or sent. */
  function Noted(st: Stream, m: Message): Stream {
    match m
    case ResponseStart(status, _, trailers) =>
      if st.state == REQUEST then st.(response := Some(Started(status, trailers))) else st
    case ResponseTrailers(headers, _) =>
      if Framed(st.scope.version) && st.state == REQUEST && TakesTrailers(st.scope) && ValidHeaders(headers)
      then st.(response := Some(Started(200, false))) else st
    case _ => st
  }

  // ---- a list of operations, run to its end ---------------------------------------------------

  /** What operations change: the state, what was sent to the protocol, and the access log. */
  datatype Trace = Trace(state: HState, sent: seq<Event>, log: seq<Record>)

  function Perform(t: Trace, op: Op): Trace {
    match op
    case Emit(e) => t.(sent := t.sent + [e])
    case Enter(s) => t.(state := s)
    case Log(r) => t.(log := t.log + [r])
  }

  function PerformAll(t: Trace, ops: seq<Op>): Trace
    decreases |ops|
  {
    if ops == [] then t else PerformAll(Perform(t, ops[0]), ops[1..])
  }

  lemma {:induction false} PerformConcat(t: Trace, a: seq<Op>, b: seq<Op>)
    ensures PerformAll(t, a + b) == PerformAll(PerformAll(t, a), b)
    decreases |a|
  {
    if a == [] {
      assert a + b == b;
    } else {
      assert (a + b)[1..] == a[1..] + b;
      PerformConcat(Perform(t, a[0]), a[1..], b);
    }
  }

  lemma PerformOne(t: Trace, op: Op, rest: seq<Op>)
    ensures PerformAll(t, [op]) == Perform(t, op)
    ensures PerformAll(t, [op] + rest) == PerformAll(Perform(t, op), rest)
  {
    PerformConcat(t, [op], rest);
    assert [op][1..] == [];
  }

  lemma PerformClosed(t: Trace, status: int)
    ensures PerformAll(t, ClosedOps(status)) ==
            Trace(CLOSED, t.sent + [EndBody] + [StreamClosed], t.log + [FullRecord(status)])
  {
    var ops := ClosedOps(status);
    PerformOne(t, ops[0], ops[1..]);
    PerformOne(Perform(t, ops[0]), ops[1], ops[2..]);
    assert ops == [ops[0]] + ops[1..] && ops[1..] == [ops[1]] + ops[2..] && ops[2..] == [ops[2]] + [ops[3]];
    PerformOne(Perform(Perform(t, ops[0]), ops[1]), ops[2], [ops[3]]);
    PerformOne(Perform(Perform(Perform(t, ops[0]), ops[1]), ops[2]), ops[3], []);
  }

  lemma PerformError(t: Trace, status: int)
    ensures PerformAll(t, ErrorOps(status)) ==
            Trace(CLOSED, t.sent + [ErrorResponse(status)] + [EndBody] + [StreamClosed], t.log + [FullRecord(status)])
  {
    var ops := ErrorOps(status);
    var t2 := Perform(Perform(t, ops[0]), ops[1]);
    assert ops == [ops[0]] + ops[1..] && ops[1..] == [ops[1]] + ops[2..] && ops[2..] == [ops[2]] + ops[3..];
    assert ops[3..] == [ops[3]] + [ops[4]];
    PerformOne(t, ops[0], ops[1..]);
    PerformOne(Perform(t, ops[0]), ops[1], ops[2..]);
    PerformOne(t2, ops[2], ops[3..]);
    PerformOne(Perform(t2, ops[2]), ops[3], [ops[4]]);
    PerformOne(Perform(Perform(t2, ops[2]), ops[3]), ops[4], []);
  }

  function BodyEvents(chunks: seq<Bytes>): seq<Event> {
    seq(|chunks|, i requires 0 <= i < |chunks| => Body(chunks[i]))
  }

  lemma {:induction false} PerformBodies(t: Trace, chunks: seq<Bytes>)
    ensures PerformAll(t, BodyOps(chunks)) == t.(sent := t.sent + BodyEvents(chunks))
    decreases |chunks|
  {
    if chunks != [] {
      PerformBodies(Perform(t, BodyOps(chunks)[0]), chunks[1..]);
      assert BodyOps(chunks)[1..] == BodyOps(chunks[1..]);
      assert [Body(chunks[0])] + BodyEvents(chunks[1..]) == BodyEvents(chunks);
    }
  }

  // ---- the stream object ------------------------------------------------------------------------

  datatype Put = HttpRequest(body: Bytes, more: bool) | HttpDisconnect

  /** How `handle(Request)` finds the request: its path does not decode, h11 would not have
      accepted its target, its server name is not served, or it is fine. */
  datatype Verdict = BadPath | BadTarget | BadName | Good

  class HTTPStream {
    var state: HState
    var closed: bool
    var scope: Option<Scope>
    var response: Option<Started>
    /** Whether the app was spawned, and what was put to it, sent to the protocol and recorded. */
    var hasApp: bool
    var puts: seq<Put>
    var sent: seq<Event>
    var log: seq<Record>

    ghost predicate Valid()
      reads this
    {
      && (hasApp ==> scope.Some?)
      && (state in {RESPONSE, TRAILERS} ==> response.Some?)
    }

    ghost function View(): Stream
      requires scope.Some?
      reads this
    {
      Stream(state, closed, scope.value, response)
    }

    ghost function Shown(): Trace
      reads this
    {
      Trace(state, sent, log)
    }

    /** The fields that sending does not touch. */
    twostate predicate Kept()
      reads this
    {
      closed == old(closed) && scope == old(scope) && hasApp == old(hasApp) && puts == old(puts)
    }

    constructor ()
      ensures Valid() && Shown() == Trace(REQUEST, [], []) && !closed && !hasApp && scope.None? && puts == []
    {
      state, closed, hasApp := REQUEST, false, false;
      scope, response := None, None;
      puts, sent, log := [], [], [];
    }

    method SendClosed()
      requires Valid() && response.Some?
      modifies this
      ensures Valid() && Kept() && response == old(response)
      ensures Shown() == PerformAll(old(Shown()), ClosedOps(response.value.status))
    {
      PerformClosed(Shown(), response.value.status);
      state := CLOSED;
      sent := sent + [EndBody];
      log := log + [FullRecord(response.value.status)];
      sent := sent + [StreamClosed];
    }

    method SendErrorResponse(status: int)
      requires Valid()
      modifies this
      ensures Valid() && Kept() && response == old(response)
      ensures
        var done := PerformAll(old(Shown()), ErrorOps(status));
        Shown() == if scope.Some? then done else done.(log := old(log))
    {
      PerformError(Shown(), status);
      state := CLOSED;
      sent := sent + [ErrorResponse(status)];
      sent := sent + [EndBody];
      if scope.Some? {
        log := log + [FullRecord(status)];
      }
      sent := sent + [StreamClosed];
    }

    /** The loop over the request headers that looks for `te: trailers`. */
    method FindTrailers() returns (found: bool)
      requires scope.Some?
      ensures found == TakesTrailers(scope.value)
    {
      found := false;
      var i := 0;
      while i < |scope.value.headers|
        invariant 0 <= i <= |scope.value.headers|
        invariant ("te", "trailers") !in scope.value.headers[..i]
      {
        if scope.value.headers[i] == ("te", "trailers") {
          return true;
        }
        i := i + 1;
      }
    }

    /** The end of every body message. */
    method FinishBody(more: bool)
      requires Valid() && response.Some?
      modifies this
      ensures Valid() && Kept() && response == old(response)
      ensures Shown() == PerformAll(old(Shown()), FinishOps(response.value, more))
    {
      if !more {
        if response.value.trailers {
          PerformOne(Shown(), Enter(TRAILERS), []);
          state := TRAILERS;
        } else {
          SendClosed();
        }
      }
    }

    /** `_send_zerocopy_body`, with the chunks that `read_file_chunks` yields for the window. */
    method SendZeroCopyBody(offset: int, count: int, chunks: seq<Bytes>, more: bool)
      requires Valid() && scope.Some? && response.Some?
      modifies this
      ensures Valid() && Kept() && response == old(response)
      ensures Shown() == PerformAll(old(Shown()), WindowOps(scope.value, response.value, offset, count, chunks, more))
    {
      ghost var start := Shown();
      if !SuppressBody(scope.value.verb, response.value.status) {
        if !Framed(scope.value.version) {
          sent := sent + [ZeroCopySend(offset, count)];
          PerformOne(start, Emit(ZeroCopySend(offset, count)), FinishOps(response.value, more));
        } else {
          var i := 0;
          while i < |chunks|
            invariant 0 <= i <= |chunks| && Valid() && Kept() && response == old(response)
            invariant Shown() == start.(sent := start.sent + BodyEvents(chunks[..i]))
          {
            sent := sent + [Body(chunks[i])];
            i := i + 1;
            assert BodyEvents(chunks[..i - 1]) + [Body(chunks[i - 1])] == BodyEvents(chunks[..i]);
          }
          assert chunks[..i] == chunks;
          PerformBodies(start, chunks);
          PerformConcat(start, BodyOps(chunks), FinishOps(response.value, more));
        }
      } else {
        PerformConcat(start, [], FinishOps(response.value, more));
      }
      FinishBody(more);
    }

    /** `app_send` of a message; `raised` tells that it raised instead. */
    method AppSend(m: Message) returns (raised: bool)
      requires Valid() && scope.Some?
      modifies this
      ensures Valid() && Kept()
      ensures raised == Plan(old(View()), m).None? && response == Noted(old(View()), m).response
      ensures Shown() == if raised then old(Shown()) else PerformAll(old(Shown()), Plan(old(View()), m).value)
    {
      raised := false;
      ghost var start := Shown();
      if m.ResponseStart? && state == REQUEST {
        response := Some(Started(m.status, m.trailers));
        if !ValidHeaders(m.headers) {
          return true;
        }
        sent := sent + [Response(m.status, m.headers)];
        state := RESPONSE;
        PerformOne(start, Emit(Response(m.status, m.headers)), [Enter(RESPONSE)]);
        PerformOne(start.(sent := sent), Enter(RESPONSE), []);
      } else if m.ServerPush? && Framed(scope.value.version) {
        if !ValidHeaders(m.headers) {
          return true;
        }
        sent := sent + [Push(m.path, m.headers)];
        PerformOne(start, Emit(Push(m.path, m.headers)), []);
      } else if m.EarlyHint? && Framed(scope.value.version) && state == REQUEST {
        sent := sent + [Info(m.links)];
        PerformOne(start, Emit(Info(m.links)), []);
      } else if m.ResponseBody? && state == RESPONSE {
        if !SuppressBody(scope.value.verb, response.value.status) && m.body != [] {
          sent := sent + [Body(m.body)];
          PerformOne(start, Emit(Body(m.body)), FinishOps(response.value, m.more));
        } else {
          PerformConcat(start, [], FinishOps(response.value, m.more));
        }
        FinishBody(m.more);
      } else if m.PathSend? && state == RESPONSE {
        SendZeroCopyBody(0, m.count, m.chunks, false);
      } else if m.ZeroCopy? && state == RESPONSE {
        SendZeroCopyBody(m.offset, m.count, m.chunks, m.more);
      } else if m.ResponseTrailers? && Framed(scope.value.version) && state in {REQUEST, TRAILERS} {
        raised := SendTrailers(m);
      } else {
        return true;
      }
    }

    /** The two branches of `app_send` for a trailers message. */
    method SendTrailers(m: Message) returns (raised: bool)
      requires Valid() && scope.Some? && m.ResponseTrailers? && Framed(scope.value.version)
      requires state in {REQUEST, TRAILERS}
      modifies this
      ensures Valid() && Kept()
      ensures raised == Plan(old(View()), m).None? && response == Noted(old(View()), m).response
      ensures Shown() == if raised then old(Shown()) else PerformAll(old(Shown()), Plan(old(View()), m).value)
    {
      ghost var start := Shown();
      var te := FindTrailers();
      if te && !ValidHeaders(m.headers) {
        return true;
      }
      if state == REQUEST {
        if te {
          ghost var first := [Emit(Response(200, m.headers)), Enter(TRAILERS)];
          PerformConcat(start, first, if m.more then [] else ClosedOps(200));
          PerformOne(start, first[0], [first[1]]);
          PerformOne(Perform(start, first[0]), first[1], []);
          assert first == [first[0]] + [first[1]];
          response := Some(Started(200, false));
          sent := sent + [Response(200, m.headers)];
          state := TRAILERS;
        }
        if state == TRAILERS && !m.more {
          SendClosed();
        }
      } else {
        PerformConcat(start, if te then [Emit(Trailers(m.headers))] else [],
                      if m.more then [] else ClosedOps(response.value.status));
        if te {
          PerformOne(start, Emit(Trailers(m.headers)), []);
          sent := sent + [Trailers(m.headers)];
        }
        if !m.more {
          SendClosed();
        }
      }
      return false;
    }

    /** `app_send(None)`. */
    method AppReturn()
      requires Valid() && scope.Some?
      modifies this
      ensures Valid() && Kept() && response == old(response)
      ensures Shown() == PerformAll(old(Shown()), PlanReturn(old(View())))
    {
      if !closed {
        if state == REQUEST {
          SendErrorResponse(500);
        } else {
          PerformOne(Shown(), Emit(StreamClosed), []);
          sent := sent + [StreamClosed];
        }
      }
    }

    /** `handle(Request)`. A refused request is answered and closed here and never gets an app. */
    method HandleRequest(request: Scope, verdict: Verdict)
      requires Valid() && Shown() == Trace(REQUEST, [], []) && !closed && !hasApp && scope.None?
      modifies this
      ensures Valid() && puts == old(puts) && hasApp == verdict.Good? && closed == !verdict.Good?
      ensures verdict.Good? ==> Shown() == old(Shown()) && scope == Some(request)
      ensures !verdict.Good? ==>
        var status := if verdict.BadName? then 404 else 400;
        Shown() == Trace(CLOSED, [ErrorResponse(status), EndBody, StreamClosed],
                         if verdict.BadPath? then [] else [FullRecord(status)])
    {
      PerformError(Shown(), 400);
      PerformError(Shown(), 404);
      if verdict.BadPath? {
        SendErrorResponse(400);
        closed := true;
        return;
      }
      scope := Some(request);
      if verdict.BadTarget? {
        SendErrorResponse(400);
        closed := true;
      } else if verdict.Good? {
        hasApp := true;
      } else {
        SendErrorResponse(404);
        closed := true;
      }
    }

    /** `handle` of Body and of EndBody. */
    method HandleBody(data: Bytes, more: bool)
      requires Valid() && (closed || hasApp)
      modifies this
      ensures Valid() && Shown() == old(Shown()) && closed == old(closed) && scope == old(scope)
      ensures puts == old(puts) + if closed then [] else [HttpRequest(data, more)]
    {
      if closed {
        return;
      }
      puts := puts + [HttpRequest(data, more)];
    }

    /** `handle(StreamClosed)`. */
    method HandleClosed()
      requires Valid()
      modifies this
      ensures Valid() && closed && state == old(state) && sent == old(sent) && scope == old(scope)
      ensures old(closed) ==> puts == old(puts) && log == old(log)
      ensures !old(closed) ==>
        && puts == old(puts) + (if hasApp then [HttpDisconnect] else [])
        && log == old(log) + (if state == CLOSED then [] else [AbortedRecord])
    {
      if closed {
        return;
      }
      closed := true;
      if state != CLOSED {
        log := log + [AbortedRecord];
      }
      if hasApp {
        puts := puts + [HttpDisconnect];
      }
    }
  }
}
