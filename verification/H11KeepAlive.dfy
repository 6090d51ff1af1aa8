/** A connection does serve as many requests as keep_alive_max_requests allows. */
module H11KeepAlive {
  import opened Common
  import opened EventObjects
  import opened HttpStreams
  import opened HttpGrammar
  import opened H11Protocols
  import opened H11Runs
  import opened H11Theorems

  /** n requests are answered, and the connection waits for the next one. */
  predicate Ready(st: State, n: nat) {
    && |st.sides| == |st.sent| == |st.unread| == n && st.core == Core(NewLink(), false, n, st.core.marks, false)
    && st.reader == Resting && !st.terminated && st.telling == {} && st.waiting == {}
  }

  /** One more request is under way: what its side, its events and the link have come to. */
  function Under(st: State, a: Side, events: seq<Event>, l: Link): State {
    st.(sides := st.sides + [a], sent := st.sent + [events], unread := st.unread + [0], wire := st.wire + events,
        core := Core(l, true, st.core.requests + 1, st.core.marks, false))
  }

  lemma UpdateLast<T>(s: seq<T>, a: T, b: T)
    ensures (s + [a])[|s| := b] == s + [b]
  {
  }

  lemma Go(from: State, steps: seq<Step>, st: State, step: Step, most: nat)
    returns (longer: seq<Step>, next: State)
    requires Run(from, steps, most) == Some(st) && Enabled(st, step)
    ensures Run(from, longer, most) == Some(next) && next == Apply(st, step, most)
  {
    RunSnoc(from, steps, step, most);
    return steps + [step], Apply(st, step, most);
  }

  const GET := Scope(H11, "GET", [])

  lemma HeadArrives(st: State, n: nat, most: nat) returns (steps: seq<Step>, next: State)
    requires Ready(st, n)
    ensures Run(st, steps, most) == Some(next)
    ensures next == Under(st, NewSide(GET), [], Link(Responding, Sending, true, false)).(reader := Looping)
  {
    assert st.wire + [] == st.wire;
    steps, next := Go(st, [], st, Arrive, most);
    steps, next := Go(st, steps, next, PullRequest(GET, false, None, false), most);
  }

  /** The end of the request is put to the app, or waits to be. */
  lemma EndArrives(st: State, n: nat, most: nat)
    requires Ready(st, n)
    ensures
      var head := Under(st, NewSide(GET), [], Link(Responding, Sending, true, false)).(reader := Looping);
      var now := Under(st, NewSide(GET), [], Link(Responding, Done, true, false)).(reader := Looping);
      && Enabled(head, PullEnd(false))
      && Apply(head, PullEnd(false), most) ==
           if st.room > 0 then now.(unread := st.unread + [1]) else now.(reader := Handing)
  {
    UpdateLast(st.unread, 0, 1);
  }

  /** A request without a body arrives, and its app reads it. */
  lemma Arriving(st: State, n: nat, most: nat) returns (steps: seq<Step>, next: State)
    requires Ready(st, n)
    ensures Run(st, steps, most) == Some(next)
    ensures next == Under(st, NewSide(GET), [], Link(Responding, Done, true, false))
  {
    steps, next := HeadArrives(st, n, most);
    EndArrives(st, n, most);
    steps, next := Go(st, steps, next, PullEnd(false), most);
    UpdateLast(st.unread, 1, 0);
    steps, next := Go(st, steps, next, Receive(n), most);
    assert next == Under(st, NewSide(GET), [], Link(Responding, Done, true, false)).(reader := Looping);
    steps, next := Go(st, steps, next, PullNothing, most);
  }

  /** The app goes on with operations that reach neither h11 nor the reader. */
  lemma Locally(st: State, n: nat, a: Side, events: seq<Event>, l: Link, most: nat)
    requires Ready(st, n) && a.ops != [] && !a.ops[0].Emit?
    ensures
      var step := Advance(n, Fine, false);
      Enabled(Under(st, a, events, l), step)
      && Apply(Under(st, a, events, l), step, most) == Under(st, Advanced(a), events, l)
  {
    UpdateLast(st.sides, a, Advanced(a));
  }

  lemma Emits(st: State, n: nat, a: Side, events: seq<Event>, l: Link, most: nat)
    requires Ready(st, n) && a.ops != [] && a.ops[0].Emit? && !a.ops[0].event.StreamClosed?
    requires FateOf(l, a.ops[0].event, Fine) == OnTheWire
    ensures
      var step, e, now := Advance(n, Fine, false), a.ops[0].event, Under(st, a, events, l);
      Enabled(now, step)
      && Apply(now, step, most) == Under(st, Advanced(a), events + [e], LinkAfter(now.core, e, Fine, false, most))
  {
    var e := a.ops[0].event;
    UpdateLast(st.sides, a, Advanced(a));
    UpdateLast(st.sent, events, events + [e]);
    Associate(st.wire, events, [e]);
  }

  lemma Says(st: State, n: nat, a: Side, events: seq<Event>, l: Link, m: Message, most: nat)
    requires Ready(st, n) && MaySend(a, m) && !a.returned
    ensures
      var now := Under(st, a, events, l);
      Enabled(now, Send(n, m)) && Apply(now, Send(n, m), most) == Under(st, Sent(a, m), events, l)
  {
    UpdateLast(st.sides, a, Sent(a, m));
  }

  function Head(phase: Phase, ops: seq<Op>): Side {
    Side(Stream(REQUEST, false, GET, Some(Started(200, false))), ops, false, phase, false)
  }

  function Tail(state: HState, phase: Phase, ops: seq<Op>, logged: bool): Side {
    Side(Stream(state, false, GET, Some(Started(200, false))), ops, false, phase, logged)
  }

  /** What the link comes to: the response closes the connection if this was the last request allowed. */
  function Halfway(last: bool): Link { Link(Sending, if last then MustClose else Done, !last, false) }

  function Through(last: bool): Link {
    Link(if last then MustClose else Done, if last then MustClose else Done, !last, false)
  }

  lemma Heading(st: State, n: nat, most: nat) returns (steps: seq<Step>, next: State)
    requires Ready(st, n)
    ensures Run(st, steps, most) == Some(next)
    ensures next == Under(st, Tail(RESPONSE, Open(200), [], false), [Response(200, [])], Halfway(n + 1 >= most))
  {
    var start, ops := ResponseStart(200, [], false), [Emit(Response(200, [])), Enter(RESPONSE)];
    var l := Link(Responding, Done, true, false);
    steps, next := Arriving(st, n, most);
    Says(st, n, NewSide(GET), [], l, start, most);
    assert Sent(NewSide(GET), start) == Head(Before, ops);
    steps, next := Go(st, steps, next, Send(n, start), most);
    Emits(st, n, Head(Before, ops), [], l, most);
    assert ops[1..] == [Enter(RESPONSE)] && [] + [Response(200, [])] == [Response(200, [])];
    steps, next := Go(st, steps, next, Advance(n, Fine, false), most);
    assert Advanced(Head(Before, ops)) == Head(Open(200), [Enter(RESPONSE)]);
    Locally(st, n, Head(Open(200), [Enter(RESPONSE)]), [Response(200, [])], Halfway(n + 1 >= most), most);
    steps, next := Go(st, steps, next, Advance(n, Fine, false), most);
    assert Advanced(Head(Open(200), [Enter(RESPONSE)])) == Tail(RESPONSE, Open(200), [], false);
  }

  const REPLY: seq<Event> := [Response(200, []), EndBody]

  /** The app ends its body. */
  lemma Marking(st: State, n: nat, most: nat) returns (steps: seq<Step>, next: State)
    requires Ready(st, n)
    ensures Run(st, steps, most) == Some(next)
    ensures next == Under(st, Tail(CLOSED, Open(200), ClosedOps(200)[1..], false), [Response(200, [])],
                          Halfway(n + 1 >= most))
  {
    var l, ops, head := Halfway(n + 1 >= most), ClosedOps(200), [Response(200, [])];
    steps, next := Heading(st, n, most);
    var open := Tail(RESPONSE, Open(200), [], false);
    Says(st, n, open, head, l, ResponseBody([], false), most);
    assert [] + ops == ops;
    assert Sent(open, ResponseBody([], false)) == Tail(RESPONSE, Open(200), ops, false);
    steps, next := Go(st, steps, next, Send(n, ResponseBody([], false)), most);
    Locally(st, n, Tail(RESPONSE, Open(200), ops, false), head, l, most);
    steps, next := Go(st, steps, next, Advance(n, Fine, false), most);
    assert Advanced(Tail(RESPONSE, Open(200), ops, false)) == Tail(CLOSED, Open(200), ops[1..], false);
  }

  lemma Ending(st: State, n: nat, most: nat) returns (steps: seq<Step>, next: State)
    requires Ready(st, n)
    ensures Run(st, steps, most) == Some(next)
    ensures next == Under(st, Tail(CLOSED, Ended, [Emit(StreamClosed)], true), REPLY, Through(n + 1 >= most))
  {
    var last, ops, head := n + 1 >= most, ClosedOps(200), [Response(200, [])];
    steps, next := Marking(st, n, most);
    Emits(st, n, Tail(CLOSED, Open(200), ops[1..], false), head, Halfway(last), most);
    steps, next := Go(st, steps, next, Advance(n, Fine, false), most);
    assert ops[1..][1..] == ops[2..] && head + [EndBody] == REPLY;
    assert Advanced(Tail(CLOSED, Open(200), ops[1..], false)) == Tail(CLOSED, Ended, ops[2..], false);
    Locally(st, n, Tail(CLOSED, Ended, ops[2..], false), REPLY, Through(last), most);
    steps, next := Go(st, steps, next, Advance(n, Fine, false), most);
    assert ops[2..][1..] == [Emit(StreamClosed)];
  }

  /** The app has read what was put to it, so the disconnect finds its way, if need be by one more read. */
  lemma Closing(st: State, n: nat, most: nat) returns (steps: seq<Step>, next: State)
    requires Ready(st, n)
    ensures Run(st, steps, most) == Some(next) && next.wire == st.wire + REPLY && next.room == st.room
    ensures |next.sides| == n + 1 && (n + 1 < most ==> Ready(next, n + 1))
  {
    var a := Tail(CLOSED, Ended, [Emit(StreamClosed)], true);
    steps, next := Ending(st, n, most);
    steps, next := Go(st, steps, next, Advance(n, Fine, false), most);
    UpdateLast(st.sides, a, Told(a));
    UpdateLast(st.unread, 0, 1);
    assert next.sides == st.sides + [Told(a)] && next.telling == {n};
    if st.room == 0 {
      steps, next := Go(st, steps, next, Receive(n), most);
    }
    assert next.waiting == {} && next.sides == st.sides + [Told(a)] && next.telling == {n};
    steps, next := Go(st, steps, next, Advance(n, Fine, false), most);
    UpdateLast(st.sides, Told(a), Advanced(Told(a)));
  }

  lemma {:induction false} RunAppend(st: State, a: seq<Step>, mid: State, b: seq<Step>, most: nat)
    requires Run(st, a, most) == Some(mid)
    ensures Run(st, a + b, most) == Run(mid, b, most)
    decreases |a|
  {
    if a == [] {
      assert a + b == b;
    } else {
      assert (a + b)[1..] == a[1..] + b;
      RunAppend(Apply(st, a[0], most), a[1..], mid, b, most);
    }
  }

  /** n replies one after the other. */
  function Replies(n: nat): seq<Event> { if n == 0 then [] else Replies(n - 1) + REPLY }

  lemma {:induction false} Serving(room: nat, n: nat, most: nat) returns (steps: seq<Step>, st: State)
    requires n == 0 || n < most
    ensures ReachedBy(room, steps, st, most) && Ready(st, n) && st.wire == Replies(n)
  {
    if n == 0 {
      return [], Initial(room);
    }
    var before, mid, more;
    before, mid := Serving(room, n - 1, most);
    more, st := Closing(mid, n - 1, most);
    RunAppend(Initial(room), before, mid, more, most);
    steps := before + more;
  }

  /** The bound of RequestsAreBounded is attained: for every keep_alive_max_requests, every size of the
      queues and every number of requests up to the bound, a run in which all of them are answered
      on one connection. */
  lemma EveryRequestIsServed(room: nat, k: nat, most: nat) returns (steps: seq<Step>, st: State)
    requires 1 <= k <= Max(1, most)
    ensures ReachedBy(room, steps, st, most) && |st.sides| == k && st.wire == Replies(k)
  {
    var before, mid, more;
    before, mid := Serving(room, k - 1, most);
    more, st := Closing(mid, k - 1, most);
    RunAppend(Initial(room), before, mid, more, most);
    steps := before + more;
  }
}
