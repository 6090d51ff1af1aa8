/** Two loops over one WebSocket connection: the replay of what was held, inside `_accept`, and the
    reader. Both go through src/anycorn/protocol/ws_stream.py, lines 402-416, over the same events and
    the same buffer, and either may be suspended in a put to the app. */
module WebSocketRuns {
  import opened Common
  import opened WebSockets

  // ---- what is due ----------------------------------------------------------------------------------

  /** What the events so far come to, taken one by one: what is delivered, the message that is open,
      and whether a fragment was too much. */
  datatype Due = Due(delivered: seq<Receive>, open: Value, stopped: bool)

  const NOTHING := Due([], None, false)

  function Next(d: Due, f: Fragment, most: nat): Due {
    var data := if d.open.None? then f.data else d.open.value.1 + f.data;
    if d.stopped then d
    else if |data| > most then d.(stopped := true)
    else if f.finished then Due(d.delivered + [Receive(f.text, data)], None, false)
    else d.(open := Some((f.text, data)))
  }

  function AllOf(d: Due, p: seq<Fragment>, most: nat): Due
    decreases |p|
  {
    if p == [] then d else AllOf(Next(d, p[0], most), p[1..], most)
  }

  lemma {:induction false} AllOfSnoc(d: Due, p: seq<Fragment>, f: Fragment, most: nat)
    ensures AllOf(d, p + [f], most) == Next(AllOf(d, p, most), f, most)
    decreases |p|
  {
    if p == [] {
      assert p + [f] == [f] && [f][1..] == [];
    } else {
      assert (p + [f])[1..] == p[1..] + [f];
      AllOfSnoc(Next(d, p[0], most), p[1..], f, most);
    }
  }

  predicate InMessage(p: seq<Fragment>) { p != [] && !p[|p| - 1].finished }

  /** It is what WebSockets.Delivered says. */
  lemma {:induction false} AllOfIsDelivered(p: seq<Fragment>, most: nat)
    requires Consistent(p)
    ensures
      var d := AllOf(NOTHING, p, most);
      && d.delivered == Delivered(p, most) && (d.stopped <==> Allowed(p, most) != p)
      && (!d.stopped ==> d.open == if InMessage(p) then Some((p[|p| - 1].text, Open(p))) else None)
    decreases |p|
  {
    if p != [] {
      var before, f := p[..|p| - 1], p[|p| - 1];
      assert before + [f] == p;
      ConsistentPrefix(before, [f]);
      AllOfIsDelivered(before, most);
      AllOfSnoc(NOTHING, before, f, most);
      DeliveredSnoc(before, f, most);
      assert !InMessage(before) ==> Open(before) == [] && [] + f.data == f.data;
    }
  }

  lemma {:induction false} AllOfGrows(d: Due, p: seq<Fragment>, most: nat)
    ensures d.delivered <= AllOf(d, p, most).delivered && (d.stopped ==> AllOf(d, p, most) == d)
    decreases |p|
  {
    if p != [] {
      AllOfGrows(Next(d, p[0], most), p[1..], most);
    }
  }

  // ---- the two loops --------------------------------------------------------------------------------

  /** `Blocked`: in `app_put`, whose queue is full. `Served`: the put is through, and `clear()` is next. */
  datatype Loop = Resting | Looping | Blocked | Served

  const REPLAY := 0
  const READER := 1

  /** `pending`: what wsproto has made of the bytes and not handed out, `consumed` what it has, `due`
      what that comes to; `unread` messages wait in the queue of the app, which has room for `room`. */
  datatype State = State(
    pending: seq<Fragment>,
    consumed: seq<Fragment>,
    due: Due,
    value: Value,
    loops: seq<Loop>,
    puts: seq<Receive>,
    unread: nat,
    room: nat)

  datatype Move =
    | Arrive(i: nat, parsed: seq<Fragment>)
    | Take(i: nat)
    | Rest(i: nat)
    | Serve(i: nat)
    | Resume(i: nat)
    | Read

  function Initial(unread: nat, room: nat): State {
    State([], [], NOTHING, None, [Resting, Resting], [], unread, room)
  }

  predicate Is(st: State, i: nat, l: Loop) { i < |st.loops| && st.loops[i] == l }

  /** Between `to_message()` and `clear()`. */
  predicate Putting(st: State, i: nat) { Is(st, i, Blocked) || Is(st, i, Served) }

  predicate May(st: State, m: Move) {
    match m
    case Arrive(i, parsed) => Is(st, i, Resting) && Consistent(st.consumed + st.pending + parsed)
    case Take(i) => Is(st, i, Looping) && st.pending != []
    case Rest(i) => Is(st, i, Looping) && st.pending == []
    case Serve(i) => Is(st, i, Blocked)
    case Resume(i) => Is(st, i, Served)
    case Read => st.unread > 0 && !Is(st, REPLAY, Blocked) && !Is(st, READER, Blocked)
  }

  /** One turn of a loop, up to the put. Too large a fragment and a TypeError end it. */
  function Taken(st: State, i: nat, most: nat): State
    requires May(st, Take(i))
  {
    var f := st.pending[0];
    var next := WebSockets.After(st.value, f);
    var got := st.(pending := st.pending[1..], consumed := st.consumed + [f], due := Next(st.due, f, most),
                   value := Some(next));
    if OutcomeOf(st.value, f, most) != Fits then got.(loops := st.loops[i := Resting])
    else if !f.finished then got
    else
      var put := got.(puts := st.puts + [Receive(next.0, next.1)]);
      if st.unread < st.room then put.(unread := st.unread + 1, value := None)
      else put.(loops := st.loops[i := Blocked])
  }

  function Moved(st: State, m: Move, most: nat): State
    requires May(st, m)
  {
    match m
    case Arrive(i, parsed) => st.(pending := st.pending + parsed, loops := st.loops[i := Looping])
    case Take(i) => Taken(st, i, most)
    case Rest(i) => st.(loops := st.loops[i := Resting])
    case Serve(i) => st.(loops := st.loops[i := Served])
    case Resume(i) => st.(value := None, loops := st.loops[i := Looping])
    case Read => st.(unread := st.unread - 1)
  }

  function Moves(st: State, moves: seq<Move>, most: nat): Option<State>
    decreases |moves|
  {
    if moves == [] then Some(st)
    else if May(st, moves[0]) then Moves(Moved(st, moves[0], most), moves[1..], most)
    else None
  }

  predicate ReachedBy(unread: nat, room: nat, moves: seq<Move>, most: nat, st: State) {
    unread <= room && Moves(Initial(unread, room), moves, most) == Some(st)
  }

  /** A loop takes a fragment while the other one is in its put, which will clear the buffer: no harm is
      done only by an empty part of a message, and by a whole message that the buffer takes as it is. */
  predicate Harms(st: State, m: Move, most: nat) {
    && m.Take? && st.pending != [] && (Putting(st, REPLAY) || Putting(st, READER))
    && var f := st.pending[0];
       if !f.finished then f.data != []
       else |f.data| > most || !(st.value.None? || st.value == Some((f.text, [])))
  }

  predicate NoHarm(st: State, moves: seq<Move>, most: nat)
    decreases |moves|
  {
    moves != [] && May(st, moves[0]) ==>
      !Harms(st, moves[0], most) && NoHarm(Moved(st, moves[0], most), moves[1..], most)
  }

  // ---- the invariants -------------------------------------------------------------------------------

  /** What holds on every run. */
  predicate Sound(st: State, most: nat) {
    && |st.loops| == 2 && st.unread <= st.room && Consistent(st.consumed + st.pending)
    && st.due == AllOf(NOTHING, st.consumed, most)
    && (!st.due.stopped ==> (st.due.open.Some? <==> InMessage(st.consumed)))
    && (!st.due.stopped && InMessage(st.consumed) ==> st.due.open.value.0 == st.consumed[|st.consumed| - 1].text)
  }

  predicate Empty(v: Value) { v.None? || v.value.1 == [] }

  /** The app has been given what is due, and the buffer holds what is open; during a put nothing is. */
  predicate InStep(st: State, most: nat) {
    && st.puts == st.due.delivered
    && (if Putting(st, REPLAY) || Putting(st, READER) then !st.due.stopped && Empty(st.due.open)
        else if st.due.stopped then st.value.Some? && |st.value.value.1| > most
        else st.value == st.due.open || (st.value.None? && Empty(st.due.open)))
  }

  lemma TakeSound(st: State, i: nat, most: nat)
    requires Sound(st, most) && May(st, Take(i))
    ensures Sound(Taken(st, i, most), most)
    ensures !st.due.stopped && st.due.open.Some? ==> st.due.open.value.0 == st.pending[0].text
  {
    var p, f := st.consumed, st.pending[0];
    AllOfSnoc(NOTHING, p, f, most);
    assert (p + [f]) + st.pending[1..] == p + st.pending;
    assert (p + st.pending)[|p|] == f && (p != [] ==> (p + st.pending)[|p| - 1] == p[|p| - 1]);
    assert (p + [f])[|p + [f]| - 1] == f;
  }

  lemma MoveSound(st: State, m: Move, most: nat)
    requires Sound(st, most) && May(st, m)
    ensures Sound(Moved(st, m, most), most)
  {
    match m
    case Arrive(i, parsed) => Associate(st.consumed, st.pending, parsed);
    case Take(i) => TakeSound(st, i, most);
    case _ =>
  }

  lemma {:induction false} RunSound(st: State, moves: seq<Move>, most: nat)
    requires Sound(st, most) && Moves(st, moves, most).Some?
    ensures Sound(Moves(st, moves, most).value, most)
    decreases |moves|
  {
    if moves != [] {
      MoveSound(st, moves[0], most);
      RunSound(Moved(st, moves[0], most), moves[1..], most);
    }
  }

  /** On every run `due` is what one loop on its own would have delivered. */
  lemma DueIsDelivered(unread: nat, room: nat, moves: seq<Move>, most: nat, st: State)
    requires ReachedBy(unread, room, moves, most, st)
    ensures Sound(st, most) && st.due.delivered == Delivered(st.consumed, most)
  {
    RunSound(Initial(unread, room), moves, most);
    ConsistentPrefix(st.consumed, st.pending);
    AllOfIsDelivered(st.consumed, most);
  }

  /** A fragment taken without harm adds to the puts what it makes due. */
  lemma TakeInStep(st: State, i: nat, most: nat)
    requires Sound(st, most) && InStep(st, most) && May(st, Take(i)) && !Harms(st, Take(i), most)
    ensures InStep(Taken(st, i, most), most)
  {
    var f := st.pending[0];
    TakeSound(st, i, most);
    assert [] + f.data == f.data;
  }

  lemma MoveInStep(st: State, m: Move, most: nat)
    requires Sound(st, most) && InStep(st, most) && May(st, m) && !Harms(st, m, most)
    ensures InStep(Moved(st, m, most), most)
  {
    match m
    case Take(i) => TakeInStep(st, i, most);
    case _ =>
  }

  lemma {:induction false} RunInStep(st: State, moves: seq<Move>, most: nat)
    requires Sound(st, most) && InStep(st, most) && Moves(st, moves, most).Some? && NoHarm(st, moves, most)
    ensures InStep(Moves(st, moves, most).value, most)
    decreases |moves|
  {
    if moves != [] {
      MoveSound(st, moves[0], most);
      MoveInStep(st, moves[0], most);
      RunInStep(Moved(st, moves[0], most), moves[1..], most);
    }
  }

  /** If no loop takes a fragment to its harm while the other is in its put, the app gets the messages,
      each on its own, in order. */
  lemma OneMessageEach(unread: nat, room: nat, moves: seq<Move>, most: nat, st: State)
    requires ReachedBy(unread, room, moves, most, st) && NoHarm(Initial(unread, room), moves, most)
    ensures InStep(st, most) && st.puts == Delivered(st.consumed, most)
  {
    RunInStep(Initial(unread, room), moves, most);
    DueIsDelivered(unread, room, moves, most, st);
  }

  // ---- what the harm is ------------------------------------------------------------------------------

  lemma {:induction false} MovesConcat(st: State, a: seq<Move>, b: seq<Move>, most: nat)
    requires Moves(st, a, most).Some?
    ensures Moves(st, a + b, most) == Moves(Moves(st, a, most).value, b, most)
    decreases |a|
  {
    if a == [] {
      assert a + b == b;
    } else {
      assert (a + b)[1..] == a[1..] + b;
      MovesConcat(Moved(st, a[0], most), a[1..], b, most);
    }
  }

  lemma Then(from: State, moves: seq<Move>, st: State, m: Move, most: nat) returns (longer: seq<Move>, next: State)
    requires Moves(from, moves, most) == Some(st) && May(st, m)
    ensures Moves(from, longer, most) == Some(next) && next == Moved(st, m, most) && longer == moves + [m]
  {
    MovesConcat(from, moves, [m], most);
    assert [m][1..] == [];
    return moves + [m], Moved(st, m, most);
  }

  lemma ConsistentSnoc(p: seq<Fragment>, f: Fragment)
    requires Consistent(p) && (InMessage(p) ==> f.text == p[|p| - 1].text)
    ensures Consistent(p + [f])
  {
  }

  /** The other loop finishes its put, and one more message comes in for it: an empty end. */
  lemma PutGoesOn(st: State, j: nat, text: bool, most: nat) returns (moves: seq<Move>, last: State)
    requires Putting(st, j) && st.pending == [] && Consistent(st.consumed + [Fragment(text, [], true)])
    ensures Moves(st, moves, most) == Some(last) && last.due == Next(st.due, Fragment(text, [], true), most)
    ensures last.puts == st.puts + [Receive(text, [])]
  {
    var g := Fragment(text, [], true);
    moves, last := [], st;
    if Is(st, j, Blocked) {
      moves, last := Then(st, moves, last, Serve(j), most);
    }
    moves, last := Then(st, moves, last, Resume(j), most);
    moves, last := Then(st, moves, last, Rest(j), most);
    assert st.consumed + [] + [g] == st.consumed + [g];
    moves, last := Then(st, moves, last, Arrive(j, [g]), most);
    assert last.pending == [g];
    moves, last := Then(st, moves, last, Take(j), most);
  }

  /** From every state in step in which a loop may take a fragment to its harm: the app gets something
      else than the messages. */
  lemma HarmIsSeen(st: State, i: nat, f: Fragment, most: nat) returns (moves: seq<Move>, last: State)
    requires Sound(st, most) && InStep(st, most) && May(st, Take(i)) && Harms(st, Take(i), most)
    requires st.pending == [f]
    ensures Moves(st, moves, most) == Some(last) && [Take(i)] <= moves && last.puts != last.due.delivered
  {
    var g, taken := Fragment(f.text, [], true), Taken(st, i, most);
    assert [] + f.data == f.data && f.data + [] == f.data;
    if f.finished && |f.data| <= most {
      HarmAtOnce(st, i, f, most);
      moves, last := Then(st, [], st, Take(i), most);
    } else {
      var j := if Putting(st, REPLAY) then REPLAY else READER;
      assert st.consumed + [f] == st.consumed + st.pending;
      ConsistentSnoc(st.consumed + [f], g);
      moves, last := PutGoesOn(taken, j, f.text, most);
      moves := [Take(i)] + moves;
      assert moves[1..] + [] == moves[1..];
      assert last.puts == st.puts + [Receive(f.text, [])];
      assert |last.due.delivered| == |last.puts| ==> last.due.delivered[|st.puts|] == Receive(f.text, f.data);
    }
  }

  /** A whole message that is added to what the buffer still holds. */
  lemma HarmAtOnce(st: State, i: nat, f: Fragment, most: nat)
    requires InStep(st, most) && May(st, Take(i)) && Harms(st, Take(i), most)
    requires st.pending == [f] && f.finished && |f.data| <= most
    ensures Taken(st, i, most).puts != Taken(st, i, most).due.delivered
  {
    assert [] + f.data == f.data;
    var held := st.value.value.1;
    assert |held + f.data| == |f.data| ==> held == [];
    if held != [] {
      assert Taken(st, i, most).due.delivered[|st.puts|] == Receive(f.text, f.data);
    }
  }

  // ---- the queue of the app -------------------------------------------------------------------------

  predicate AtRest(st: State, most: nat) {
    && Sound(st, most) && InStep(st, most)
    && st.loops == [Resting, Resting] && st.pending == [] && st.value == st.due.open == None
  }

  lemma ArriveSound(st: State, i: nat, f: Fragment, most: nat) returns (next: State)
    requires AtRest(st, most) && i < 2
    ensures May(st, Arrive(i, [f])) && next == Moved(st, Arrive(i, [f]), most)
    ensures Sound(next, most) && InStep(next, most)
    ensures next == st.(pending := [f], loops := st.loops[i := Looping])
  {
    assert st.consumed + st.pending == st.consumed && st.pending + [f] == [f];
    ConsistentSnoc(st.consumed, f);
    next := Moved(st, Arrive(i, [f]), most);
    MoveSound(st, Arrive(i, [f]), most);
  }

  /** The reader delivers one message. */
  lemma DeliverOne(st: State, most: nat) returns (moves: seq<Move>, last: State)
    requires AtRest(st, most) && st.unread < st.room
    ensures Moves(st, moves, most) == Some(last) && AtRest(last, most)
    ensures last.unread == st.unread + 1 && last.room == st.room
  {
    var x := Fragment(true, [], true);
    var asked := ArriveSound(st, READER, x, most);
    moves, last := Then(st, [], st, Arrive(READER, [x]), most);
    MoveSound(asked, Take(READER), most);
    TakeInStep(asked, READER, most);
    moves, last := Then(st, moves, last, Take(READER), most);
    assert last.loops == [Resting, Looping] && last.pending == [] && last.value == None;
    moves, last := Then(st, moves, last, Rest(READER), most);
  }

  /** The reader delivers until the queue of the app is full. */
  lemma {:induction false} Fill(st: State, most: nat) returns (moves: seq<Move>, last: State)
    requires AtRest(st, most)
    ensures Moves(st, moves, most) == Some(last) && AtRest(last, most) && last.unread == last.room == st.room
    decreases st.room - st.unread
  {
    moves, last := [], st;
    if st.unread < st.room {
      var mid, rest;
      moves, mid := DeliverOne(st, most);
      rest, last := Fill(mid, most);
      MovesConcat(st, moves, rest, most);
      moves := moves + rest;
    }
  }

  /** With a full queue, the replay of one message stops in its put. */
  lemma ReplayStops(full: State, data: Bytes, most: nat) returns (moves: seq<Move>, last: State)
    requires AtRest(full, most) && full.unread == full.room && |data| <= most
    ensures Moves(full, moves, most) == Some(last) && Sound(last, most)
    ensures last.loops == [Blocked, Resting] && last.value == Some((true, data)) && last.pending == []
    ensures last.consumed == full.consumed + [Fragment(true, data, true)] && last.unread == last.room
  {
    var x := Fragment(true, data, true);
    var asked := ArriveSound(full, REPLAY, x, most);
    moves, last := Then(full, [], full, Arrive(REPLAY, [x]), most);
    moves, last := Then(full, moves, last, Take(REPLAY), most);
    MoveSound(asked, Take(REPLAY), most);
  }

  /** And the reader adds to it. */
  lemma ReaderAdds(put: State, a: Bytes, b: Bytes, most: nat) returns (moves: seq<Move>, last: State)
    requires Sound(put, most) && put.loops == [Blocked, Resting] && put.pending == [] && |a| + |b| <= most
    requires put.value == Some((true, a)) && !InMessage(put.consumed)
    ensures Moves(put, moves, most) == Some(last) && last.consumed == put.consumed + [Fragment(true, b, true)]
    ensures last.puts == put.puts + [Receive(true, a + b)]
  {
    var y := Fragment(true, b, true);
    assert put.consumed + put.pending == put.consumed && put.pending + [y] == [y];
    ConsistentSnoc(put.consumed, y);
    moves, last := Then(put, [], put, Arrive(READER, [y]), most);
    assert last == put.(pending := [y], loops := [Blocked, Looping]);
    moves, last := Then(put, moves, last, Take(READER), most);
  }

  /** A run, for every size of the queue, in which the app gets two messages as one. */
  lemma TwoMessagesAsOne(unread: nat, room: nat, a: Bytes, b: Bytes, most: nat)
    returns (moves: seq<Move>, last: State)
    requires unread <= room && |a| + |b| <= most
    ensures ReachedBy(unread, room, moves, most, last)
    ensures
      var p, n := last.consumed, |last.consumed|;
      && n >= 2 && p[n - 2..] == [Fragment(true, a, true), Fragment(true, b, true)]
      && last.puts != [] && last.puts[|last.puts| - 1] == Receive(true, a + b)
  {
    var st := Initial(unread, room);
    var full, put, more;
    moves, full := Fill(st, most);
    more, put := ReplayStops(full, a, most);
    MovesConcat(st, moves, more, most);
    moves := moves + more;
    more, last := ReaderAdds(put, a, b, most);
    MovesConcat(st, moves, more, most);
    moves := moves + more;
  }

  /** The replay, as long as neither the reader nor the app moves. */
  function Alone(st: State, most: nat): State
    decreases |st.pending|
  {
    if !Is(st, REPLAY, Looping) then st
    else if st.pending == [] then Moved(st, Rest(REPLAY), most)
    else Alone(Taken(st, REPLAY, most), most)
  }

  lemma {:induction false} AloneMoves(st: State, most: nat) returns (moves: seq<Move>)
    ensures Moves(st, moves, most) == Some(Alone(st, most))
    ensures forall m :: m in moves ==> m == Take(REPLAY) || m == Rest(REPLAY)
    decreases |st.pending|
  {
    moves := [];
    if Is(st, REPLAY, Looping) && st.pending == [] {
      moves := [Rest(REPLAY)];
      assert moves[1..] == [];
    } else if Is(st, REPLAY, Looping) {
      var rest := AloneMoves(Taken(st, REPLAY, most), most);
      moves := [Take(REPLAY)] + rest;
      assert moves[1..] == rest;
    }
  }

  /** One turn of the replay, undisturbed: the queue grows by what is put, unless it is full. */
  lemma TurnAddsUp(st: State, most: nat)
    requires Sound(st, most) && InStep(st, most) && May(st, Take(REPLAY)) && !Putting(st, READER)
    ensures
      var st' := Taken(st, REPLAY, most);
      && Sound(st', most) && InStep(st', most) && !Putting(st', READER) && !Is(st', REPLAY, Served)
      && st'.room == st.room
      && (if Is(st', REPLAY, Blocked) then st'.unread == st.room && |st'.puts| == |st.puts| + 1
          else st'.unread - st.unread == |st'.puts| - |st.puts|)
      && (Is(st', REPLAY, Resting) ==> st'.due.stopped)
  {
    TakeSound(st, REPLAY, most);
    TakeInStep(st, REPLAY, most);
  }

  /** The accept gets through, while its app reads nothing, exactly if the messages it replays find room
      in the queue of the app. */
  lemma {:induction false} AcceptNeedsRoom(st: State, most: nat)
    requires Sound(st, most) && InStep(st, most) && Is(st, REPLAY, Looping) && !Putting(st, READER)
    ensures
      var last, all := Alone(st, most), AllOf(st.due, st.pending, most).delivered;
      if st.unread + |all| - |st.puts| <= st.room then Is(last, REPLAY, Resting) && last.puts == all
      else Is(last, REPLAY, Blocked)
    decreases |st.pending|
  {
    if st.pending != [] {
      var st' := Taken(st, REPLAY, most);
      TurnAddsUp(st, most);
      AllOfGrows(st'.due, st'.pending, most);
      if Is(st', REPLAY, Looping) {
        AcceptNeedsRoom(st', most);
      }
    }
  }

  /** It then waits until the app reads, or is gone: whatever the reader does. */
  lemma {:induction false} BlockedUntilServed(st: State, moves: seq<Move>, most: nat)
    requires Is(st, REPLAY, Blocked) && Moves(st, moves, most).Some? && Serve(REPLAY) !in moves
    ensures Is(Moves(st, moves, most).value, REPLAY, Blocked)
    decreases |moves|
  {
    if moves != [] {
      assert moves[0] != Serve(REPLAY) && forall m :: m in moves[1..] ==> m in moves;
      BlockedUntilServed(Moved(st, moves[0], most), moves[1..], most);
    }
  }

  lemma {:induction false} WholeMessages(d: Due, p: seq<Fragment>, most: nat)
    requires d.open == None && !d.stopped && forall f :: f in p ==> f == Fragment(true, [], true)
    ensures |AllOf(d, p, most).delivered| == |d.delivered| + |p|
    decreases |p|
  {
    if p != [] {
      assert p[0] in p && forall f :: f in p[1..] ==> f in p;
      WholeMessages(Next(d, p[0], most), p[1..], most);
    }
  }

  /** For every size of the queue, one message more than it has room for, held until the accept, and
      the accept waits for its own app. */
  lemma AcceptIsBlocked(unread: nat, room: nat, most: nat)
    returns (held: seq<Fragment>, moves: seq<Move>, last: State)
    requires unread <= room
    ensures |held| == room - unread + 1 && [Arrive(REPLAY, held)] <= moves && Serve(REPLAY) !in moves
    ensures ReachedBy(unread, room, moves, most, last) && Is(last, REPLAY, Blocked)
  {
    held := seq(room - unread + 1, _ => Fragment(true, [], true));
    var st := Initial(unread, room);
    assert [] + [] + held == held && [] + held == held;
    var asked := st.(pending := held, loops := [Looping, Resting]);
    assert Moved(st, Arrive(REPLAY, held), most) == asked;
    MoveSound(st, Arrive(REPLAY, held), most);
    WholeMessages(NOTHING, held, most);
    AcceptNeedsRoom(asked, most);
    moves := AloneMoves(asked, most);
    last := Alone(asked, most);
    moves := [Arrive(REPLAY, held)] + moves;
    assert moves[1..] + [] == moves[1..];
  }
}
