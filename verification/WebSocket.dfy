/** src/anycorn/protocol/ws_stream.py: putting fragments together into messages, and the bytes that
    arrive before the app has accepted. */
module WebSockets {
  import opened Common

  /** wsproto's Message event: a part of a message, the last one if `finished`. Python counts the
      characters of text and the bytes of the rest; both are `data` here. */
  datatype Fragment = Fragment(text: bool, data: Bytes, finished: bool)

  datatype Receive = Receive(text: bool, data: Bytes)

  /** wsproto never mixes the kinds within a message. */
  predicate Consistent(p: seq<Fragment>) {
    forall i :: 0 < i < |p| && !p[i - 1].finished ==> p[i].text == p[i - 1].text
  }

  // ---- messages -------------------------------------------------------------------------------------

  /** The data of the message that is still open after p. */
  function Open(p: seq<Fragment>): Bytes {
    if p == [] || p[|p| - 1].finished then [] else Open(p[..|p| - 1]) + p[|p| - 1].data
  }

  /** The data that the message of the last fragment comes to with it. */
  function WithLast(p: seq<Fragment>): Bytes
    requires p != []
  {
    Open(p[..|p| - 1]) + p[|p| - 1].data
  }

  /** The messages that p completes. */
  function Complete(p: seq<Fragment>): seq<Receive> {
    if p == [] then []
    else
      Complete(p[..|p| - 1])
      + if p[|p| - 1].finished then [Receive(p[|p| - 1].text, WithLast(p))] else []
  }

  /** p up to the first fragment that makes its message longer than allowed, without it. */
  function Allowed(p: seq<Fragment>, most: nat): (k: seq<Fragment>)
    ensures k <= p
  {
    if p == [] then []
    else
      var before := p[..|p| - 1];
      var k := Allowed(before, most);
      if k != before then k else if |WithLast(p)| > most then before else p
  }

  /** What the app gets to see of p. */
  function Delivered(p: seq<Fragment>, most: nat): seq<Receive> { Complete(Allowed(p, most)) }

  function Datas(p: seq<Fragment>): seq<Bytes> { seq(|p|, i requires 0 <= i < |p| => p[i].data) }

  /** Fragments i..j of p are one whole message. */
  predicate IsMessage(p: seq<Fragment>, i: nat, j: nat) {
    && i < j <= |p|
    && (i > 0 ==> p[i - 1].finished)
    && p[j - 1].finished
    && forall k :: i <= k < j - 1 ==> !p[k].finished
  }

  lemma {:induction false} OpenIsASlice(p: seq<Fragment>) returns (i: nat)
    ensures i <= |p| && (i > 0 ==> p[i - 1].finished)
    ensures forall k :: i <= k < |p| ==> !p[k].finished
    ensures Open(p) == Concat(Datas(p[i..]))
    decreases |p|
  {
    i := |p|;
    if p != [] && !p[|p| - 1].finished {
      var n := |p| - 1;
      i := OpenIsASlice(p[..n]);
      assert forall k :: 0 <= k < n ==> p[..n][k] == p[k];
      assert Datas(p[i..]) == Datas(p[..n][i..]) + [p[n].data];
      ConcatAppend(Datas(p[..n][i..]), p[n].data);
    }
  }

  /** How many messages p completes. */
  function Ends(p: seq<Fragment>): nat {
    if p == [] then 0 else Ends(p[..|p| - 1]) + if p[|p| - 1].finished then 1 else 0
  }

  lemma {:induction false} CompleteCounts(p: seq<Fragment>)
    ensures |Complete(p)| == Ends(p)
  {
    if p != [] {
      CompleteCounts(p[..|p| - 1]);
    }
  }

  lemma {:induction false} NoEndsIn(p: seq<Fragment>, i: nat)
    requires i <= |p| && forall k :: i <= k < |p| ==> !p[k].finished
    ensures Ends(p) == Ends(p[..i])
    decreases |p|
  {
    if i == |p| {
      assert p[..i] == p;
    } else {
      NoEndsIn(p[..|p| - 1], i);
      assert p[..|p| - 1][..i] == p[..i];
    }
  }

  /** The message that the last fragment of p finishes. */
  lemma LastMessage(p: seq<Fragment>) returns (i: nat)
    requires p != [] && p[|p| - 1].finished
    ensures IsMessage(p, i, |p|) && WithLast(p) == Concat(Datas(p[i..])) && Ends(p[..i]) == Ends(p[..|p| - 1])
  {
    var before, f := p[..|p| - 1], p[|p| - 1];
    i := OpenIsASlice(before);
    NoEndsIn(before, i);
    assert before[..i] == p[..i];
    assert p[i..] == before[i..] + [f];
    assert Datas(p[i..]) == Datas(before[i..]) + [f.data];
    ConcatAppend(Datas(before[i..]), f.data);
    assert forall k :: 0 <= k < |before| ==> p[k] == before[k];
  }

  lemma DeliveredGrows(p: seq<Fragment>, most: nat)
    requires p != []
    ensures Delivered(p[..|p| - 1], most) <= Delivered(p, most)
  {
  }

  lemma MessageStays(p: seq<Fragment>, n: nat, i: nat, j: nat)
    requires n <= |p| && IsMessage(p[..n], i, j)
    ensures IsMessage(p, i, j) && p[i..j] == p[..n][i..j] && p[..i] == p[..n][..i] && p[j - 1] == p[..n][j - 1]
  {
    assert forall k :: 0 <= k < n ==> p[..n][k] == p[k];
  }

  /** The n-th delivered message is, in order, the concatenation of the fragments of the n-th message,
      and its length is allowed. */
  lemma {:induction false} DeliveredIsOneMessage(p: seq<Fragment>, most: nat, n: nat) returns (i: nat, j: nat)
    requires n < |Delivered(p, most)|
    ensures IsMessage(p, i, j) && Ends(p[..i]) == n
    ensures Delivered(p, most)[n] == Receive(p[j - 1].text, Concat(Datas(p[i..j])))
    ensures |Delivered(p, most)[n].data| <= most
    decreases |p|
  {
    var last := |p| - 1;
    DeliveredGrows(p, most);
    if n < |Delivered(p[..last], most)| {
      i, j := DeliveredIsOneMessage(p[..last], most, n);
      MessageStays(p, last, i, j);
    } else {
      DeliveredLast(p, most);
      i := LastMessage(p);
      j := |p|;
      CompleteCounts(p[..last]);
      assert p[i..j] == p[i..];
    }
  }

  lemma DeliveredLast(p: seq<Fragment>, most: nat)
    requires p != [] && |Delivered(p, most)| > |Delivered(p[..|p| - 1], most)|
    ensures p[|p| - 1].finished && |WithLast(p)| <= most
    ensures Delivered(p[..|p| - 1], most) == Complete(p[..|p| - 1])
    ensures Delivered(p, most) == Complete(p[..|p| - 1]) + [Receive(p[|p| - 1].text, WithLast(p))]
  {
  }

  /** Once a fragment was too much, whatever follows delivers nothing. */
  lemma {:induction false} NothingAfterTooLarge(p: seq<Fragment>, more: seq<Fragment>, most: nat)
    requires Allowed(p, most) != p
    ensures Allowed(p + more, most) == Allowed(p, most) && Delivered(p + more, most) == Delivered(p, most)
    decreases |more|
  {
    if more == [] {
      assert p + more == p;
    } else {
      var last := |more| - 1;
      assert (p + more)[..|p + more| - 1] == p + more[..last];
      NothingAfterTooLarge(p, more[..last], most);
    }
  }

  /** And if none is, everything that is complete is delivered. */
  lemma {:induction false} EverythingWithinTheLimit(p: seq<Fragment>, most: nat)
    requires forall n :: 0 < n <= |p| ==> |WithLast(p[..n])| <= most
    ensures Allowed(p, most) == p && Delivered(p, most) == Complete(p)
    decreases |p|
  {
    if p != [] {
      var last := |p| - 1;
      assert forall n :: 0 < n <= last ==> p[..last][..n] == p[..n];
      EverythingWithinTheLimit(p[..last], most);
      assert p[..last + 1] == p;
    }
  }

  // ---- the buffer -----------------------------------------------------------------------------------

  /** `WrongKind`: bytes written to a StringIO, or the other way round, is a TypeError. */
  datatype Extended = Fits | TooLarge | WrongKind

  type Value = Option<(bool, Bytes)>

  function After(value: Value, f: Fragment): (bool, Bytes) {
    if value.None? then (f.text, f.data)
    else if value.value.0 == f.text then (f.text, value.value.1 + f.data)
    else value.value
  }

  function OutcomeOf(value: Value, f: Fragment, most: nat): Extended {
    if value.Some? && value.value.0 != f.text then WrongKind
    else if |After(value, f).1| > most then TooLarge
    else Fits
  }

  class WebsocketBuffer {
    var value: Value
    var length: nat
    const most: nat

    ghost predicate Valid()
      reads this
    {
      length == if value.Some? then |value.value.1| else 0
    }

    constructor (max: nat)
      ensures Valid() && value == None && most == max
    {
      value := None;
      length := 0;
      most := max;
    }

    /** `extend`: the fragment is kept even where FrameTooLargeError is raised. */
    method Extend(f: Fragment) returns (r: Extended)
      requires Valid()
      modifies this
      ensures Valid() && value == Some(After(old(value), f)) && r == OutcomeOf(old(value), f, most)
    {
      if value.None? {
        value := Some((f.text, []));
      }
      if value.value.0 != f.text {
        return WrongKind;
      }
      var was := value.value.1;
      value := Some((f.text, was + f.data));
      length := length + |f.data|;
      assert was == [] ==> was + f.data == f.data;
      return if length > most then TooLarge else Fits;
    }

    method Clear()
      modifies this
      ensures Valid() && value == None
    {
      value := None;
      length := 0;
    }

    method ToMessage() returns (m: Receive)
      requires value.Some?
      ensures m == Receive(value.value.0, value.value.1)
    {
      return Receive(value.value.0, value.value.1);
    }
  }

  /** What the buffer holds after p. */
  predicate Holds(value: Value, p: seq<Fragment>, most: nat) {
    if Allowed(p, most) != p then value.Some? && |value.value.1| > most
    else if p == [] || p[|p| - 1].finished then value.None?
    else value == Some((p[|p| - 1].text, Open(p)))
  }

  lemma DeliveredSnoc(p: seq<Fragment>, f: Fragment, most: nat)
    requires Consistent(p + [f])
    ensures
      var q := p + [f];
      if Allowed(p, most) != p
      then Allowed(q, most) == Allowed(p, most) != q && Delivered(q, most) == Delivered(p, most)
      else if |Open(p)| + |f.data| > most then Allowed(q, most) == p && Delivered(q, most) == Delivered(p, most)
      else Allowed(q, most) == q
           && Delivered(q, most) == Delivered(p, most) + if f.finished then [Receive(f.text, Open(p) + f.data)] else []
    ensures p != [] && !p[|p| - 1].finished ==> f.text == p[|p| - 1].text
    ensures Open(p + [f]) == if f.finished then [] else Open(p) + f.data
  {
    var q := p + [f];
    assert q[..|q| - 1] == p && q[|q| - 1] == f;
    assert p != [] ==> q[|q| - 2] == p[|p| - 1];
  }

  lemma NextValue(value: Value, p: seq<Fragment>, f: Fragment, most: nat)
    requires Holds(value, p, most) && Consistent(p + [f]) && Allowed(p, most) == p
    ensures After(value, f) == (f.text, Open(p) + f.data) && (value.Some? ==> value.value.0 == f.text)
  {
    DeliveredSnoc(p, f, most);
    assert [] + f.data == f.data;
  }

  lemma OneTooMuch(value: Value, p: seq<Fragment>, f: Fragment, most: nat)
    requires Holds(value, p, most) && Consistent(p + [f])
    requires Allowed(p, most) != p || |Open(p)| + |f.data| > most
    ensures OutcomeOf(value, f, most) != Fits && Holds(Some(After(value, f)), p + [f], most)
    ensures Delivered(p + [f], most) == Delivered(p, most) && Allowed(p + [f], most) != p + [f]
  {
    DeliveredSnoc(p, f, most);
    if Allowed(p, most) == p {
      NextValue(value, p, f, most);
      assert |p| != |p + [f]|;
    }
  }

  lemma OneWithin(value: Value, p: seq<Fragment>, f: Fragment, most: nat)
    requires Holds(value, p, most) && Consistent(p + [f])
    requires Allowed(p, most) == p && |Open(p)| + |f.data| <= most
    ensures
      var next := After(value, f);
      && OutcomeOf(value, f, most) == Fits && Holds(if f.finished then None else Some(next), p + [f], most)
      && Delivered(p + [f], most) == Delivered(p, most) + if f.finished then [Receive(next.0, next.1)] else []
  {
    var q := p + [f];
    DeliveredSnoc(p, f, most);
    NextValue(value, p, f, most);
    assert q[|q| - 1] == f;
  }

  /** One more fragment, as the buffer and as the specification see it. */
  lemma OneMore(value: Value, p: seq<Fragment>, f: Fragment, most: nat)
    requires Holds(value, p, most) && Consistent(p + [f])
    ensures
      var next := After(value, f);
      if OutcomeOf(value, f, most) == Fits
      then
        && Holds(if f.finished then None else Some(next), p + [f], most)
        && Delivered(p + [f], most) == Delivered(p, most) + if f.finished then [Receive(next.0, next.1)] else []
      else Holds(Some(next), p + [f], most) && Delivered(p + [f], most) == Delivered(p, most)
           && Allowed(p + [f], most) != p + [f]
  {
    if Allowed(p, most) != p || |Open(p)| + |f.data| > most {
      OneTooMuch(value, p, f, most);
    } else {
      OneWithin(value, p, f, most);
    }
  }

  // ---- bytes ahead of the handshake -----------------------------------------------------------------

  /** `accepting`: `_accept` has marked the handshake accepted and not yet replayed what was held. */
  datatype Early = Early(closed: bool, accepted: bool, accepting: bool, held: Bytes, decoder: Bytes)

  function NewEarly(): Early { Early(false, false, false, [], []) }

  /** `handle` of Data: held until the handshake is accepted, too much of it is refused. */
  function Took(e: Early, data: Bytes, most: nat): Early {
    if e.closed then e
    else if e.accepted then e.(decoder := e.decoder + data)
    else if |e.held| + |data| > most then e.(closed := true)
    else e.(held := e.held + data)
  }

  function BeganAccept(e: Early): Early { e.(accepted := true, accepting := true) }

  function Replayed(e: Early): Early { e.(accepting := false, decoder := e.decoder + e.held, held := []) }

  class WSStream {
    const most: nat
    const buffer: WebsocketBuffer
    var closed: bool
    var accepted: bool
    var accepting: bool
    var held: Bytes
    /** Every byte given to wsproto, and the events it has made of them and not handed out yet. */
    ghost var decoder: Bytes
    var pending: seq<Fragment>
    var puts: seq<Receive>
    /** Every event it has handed out. */
    ghost var consumed: seq<Fragment>

    ghost function View(): Early
      reads this
    {
      Early(closed, accepted, accepting, held, decoder)
    }

    /** The app has been given exactly what all events so far deliver; wsproto keeps events to itself
        only once one was too large. */
    ghost predicate Valid()
      reads this, buffer
    {
      && buffer.Valid() && buffer.most == most
      && Consistent(consumed + pending)
      && puts == Delivered(consumed, most)
      && Holds(buffer.value, consumed, most)
      && (pending != [] ==> Allowed(consumed, most) != consumed)
    }

    constructor (max: nat)
      ensures Valid() && View() == NewEarly() && puts == [] && consumed + pending == [] && most == max && fresh(buffer)
    {
      most := max;
      buffer := new WebsocketBuffer(max);
      closed, accepted, accepting := false, false, false;
      held, decoder, pending, puts, consumed := [], [], [], [], [];
    }

    /** `_handle_events`: the loop over the events, left where one is too large. */
    method HandleEvents() returns (raised: bool)
      requires buffer.Valid() && buffer.most == most && Consistent(consumed + pending)
      requires puts == Delivered(consumed, most) && Holds(buffer.value, consumed, most)
      modifies this`pending, this`puts, this`consumed, buffer
      ensures Valid() && consumed + pending == old(consumed + pending)
      ensures raised ==> Allowed(consumed, most) != consumed
    {
      ghost var all := consumed + pending;
      while pending != []
        invariant buffer.Valid() && consumed + pending == all
        invariant puts == Delivered(consumed, most) && Holds(buffer.value, consumed, most)
        decreases |pending|
      {
        var f := pending[0];
        ghost var before := consumed;
        pending := pending[1..];
        consumed := consumed + [f];
        assert consumed + pending == all;
        ConsistentPrefix(consumed, pending);
        OneMore(buffer.value, before, f, most);
        var r := buffer.Extend(f);
        if r.WrongKind? {
          return true;
        } else if r.TooLarge? {
          break;
        }
        if f.finished {
          var m := buffer.ToMessage();
          puts := puts + [m];
          buffer.Clear();
        }
      }
      return false;
    }

    /** `handle` of Data; `parsed` is what wsproto makes of the bytes. */
    method HandleData(data: Bytes, parsed: seq<Fragment>) returns (raised: bool)
      requires Valid() && Consistent(consumed + pending + parsed)
      modifies this, buffer
      ensures Valid() && View() == Took(old(View()), data, most)
      ensures consumed + pending == old(consumed + pending) + if !old(closed) && old(accepted) then parsed else []
    {
      if closed {
        return false;
      }
      if !accepted {
        if |held| + |data| > most {
          closed := true;
        } else {
          held := held + data;
        }
        return false;
      }
      decoder := decoder + data;
      ghost var was := consumed + pending;
      pending := pending + parsed;
      assert consumed + pending == was + parsed;
      raised := HandleEvents();
    }

    /** `_accept` up to its first suspension. */
    method BeginAccept()
      requires Valid() && !accepted
      modifies this`accepted, this`accepting
      ensures Valid() && View() == BeganAccept(old(View()))
    {
      accepted := true;
      accepting := true;
    }

    /** `_accept` from there: what was held is replayed. */
    method FinishAccept(parsed: seq<Fragment>) returns (raised: bool)
      requires Valid() && accepting && Consistent(consumed + pending + parsed) && (held == [] ==> parsed == [])
      modifies this, buffer
      ensures Valid() && View() == Replayed(old(View())) && consumed + pending == old(consumed + pending) + parsed
    {
      accepting := false;
      raised := false;
      if held != [] {
        decoder := decoder + held;
        held := [];
        ghost var was := consumed + pending;
        pending := pending + parsed;
        assert consumed + pending == was + parsed;
        raised := HandleEvents();
      }
    }
  }

  lemma ConsistentPrefix(p: seq<Fragment>, q: seq<Fragment>)
    requires Consistent(p + q)
    ensures Consistent(p)
  {
    assert forall i :: 0 <= i < |p| ==> (p + q)[i] == p[i];
  }

  /** What the app has been given does not depend on how the events were batched: it is what all of
      them together deliver. */
  lemma BatchesDoNotMatter(ws: WSStream)
    requires ws.Valid()
    ensures ws.puts == Delivered(ws.consumed + ws.pending, ws.most)
  {
    if ws.pending == [] {
      assert ws.consumed + [] == ws.consumed;
    } else {
      NothingAfterTooLarge(ws.consumed, ws.pending, ws.most);
    }
  }

  // ---- every run of the handshake -------------------------------------------------------------------

  datatype Step = Data(data: Bytes) | BeginAccept | FinishAccept | Close

  predicate Enabled(e: Early, step: Step) {
    match step
    case Data(_) => true
    case BeginAccept => !e.accepted && !e.closed
    case FinishAccept => e.accepting
    case Close => true
  }

  function Apply(e: Early, step: Step, most: nat): Early
    requires Enabled(e, step)
  {
    match step
    case Data(data) => Took(e, data, most)
    case BeginAccept => BeganAccept(e)
    case FinishAccept => Replayed(e)
    case Close => e.(closed := true)
  }

  function Run(steps: seq<Step>, most: nat): Option<Early> {
    if steps == [] then Some(NewEarly())
    else
      var before := Run(steps[..|steps| - 1], most);
      var step := steps[|steps| - 1];
      if before.Some? && Enabled(before.value, step) then Some(Apply(before.value, step, most)) else None
  }

  datatype Era = Ahead | During | Afterwards

  /** The bytes that a step takes, if this is the era it falls in. */
  function TakenNow(e: Early, step: Step, most: nat, era: Era): Bytes {
    var now := if !e.accepted then Ahead else if e.accepting then During else Afterwards;
    if step.Data? && !e.closed && now == era && !Took(e, step.data, most).closed then step.data else []
  }

  /** The bytes taken while the stream was open: ahead of the accept, while it is suspended, and
      afterwards. */
  function Taken(steps: seq<Step>, most: nat, era: Era): Bytes
    requires Run(steps, most).Some?
  {
    if steps == [] then []
    else
      var earlier := steps[..|steps| - 1];
      Taken(earlier, most, era) + TakenNow(Run(earlier, most).value, steps[|steps| - 1], most, era)
  }

  /** The bytes taken in the order in which they arrived. */
  function Received(steps: seq<Step>, most: nat): Bytes
    requires Run(steps, most).Some?
  {
    Taken(steps, most, Ahead) + Taken(steps, most, During) + Taken(steps, most, Afterwards)
  }

  predicate EarlyOk(e: Early, ahead: Bytes, during: Bytes, after: Bytes, most: nat) {
    && |ahead| <= most
    && (if !e.accepted then e.held == ahead && e.decoder == [] && during == [] && after == [] && !e.accepting
        else if e.accepting then e.held == ahead && e.decoder == during && after == []
        else e.held == [] && e.decoder == during + ahead + after)
  }

  lemma EarlyStep(e: Early, step: Step, ahead: Bytes, during: Bytes, after: Bytes, most: nat)
    requires EarlyOk(e, ahead, during, after, most) && Enabled(e, step)
    ensures
      var taken := if step.Data? && !e.closed && !Took(e, step.data, most).closed then step.data else [];
      if !e.accepted then EarlyOk(Apply(e, step, most), ahead + taken, during, after, most)
      else if e.accepting then EarlyOk(Apply(e, step, most), ahead, during + taken, after, most)
      else EarlyOk(Apply(e, step, most), ahead, during, after + taken, most)
  {
    assert ahead + [] == ahead && during + [] == during && after + [] == after;
    if step.Data? && e.accepted && !e.accepting {
      assert during + ahead + after + step.data == during + ahead + (after + step.data);
    }
    assert during + ahead + [] == during + ahead;
  }

  lemma {:induction false} EarlyInv(steps: seq<Step>, most: nat)
    requires Run(steps, most).Some?
    ensures EarlyOk(Run(steps, most).value,
                    Taken(steps, most, Ahead), Taken(steps, most, During), Taken(steps, most, Afterwards), most)
    decreases |steps|
  {
    if steps != [] {
      var before := steps[..|steps| - 1];
      var ahead, during := Taken(before, most, Ahead), Taken(before, most, During);
      var after := Taken(before, most, Afterwards);
      EarlyInv(before, most);
      EarlyStep(Run(before, most).value, steps[|steps| - 1], ahead, during, after, most);
      assert ahead + [] == ahead && during + [] == during && after + [] == after;
    }
  }

  /** No more is held than one message may have. */
  lemma HeldIsBounded(steps: seq<Step>, most: nat)
    requires Run(steps, most).Some?
    ensures |Run(steps, most).value.held| <= most
  {
    EarlyInv(steps, most);
  }

  /** Once the accept is through, wsproto has been given every byte in the order of arrival exactly if
      what arrived while the accept was suspended commutes with what was held, which it does
      where nothing did, or nothing was held. */
  lemma ReplayKeepsTheOrder(steps: seq<Step>, most: nat)
    requires Run(steps, most).Some? && Run(steps, most).value.accepted && !Run(steps, most).value.accepting
    ensures
      var ahead, during := Taken(steps, most, Ahead), Taken(steps, most, During);
      && (Run(steps, most).value.decoder == Received(steps, most) <==> during + ahead == ahead + during)
      && (during == [] || ahead == [] ==> during + ahead == ahead + during)
  {
    EarlyInv(steps, most);
    var ahead, during, after := Taken(steps, most, Ahead), Taken(steps, most, During), Taken(steps, most, Afterwards);
    if during + ahead + after == ahead + during + after {
      assert (during + ahead + after)[..|during + ahead|] == during + ahead;
      assert (ahead + during + after)[..|during + ahead|] == ahead + during;
    }
    assert ahead + [] == ahead && [] + ahead == ahead && during + [] == during && [] + during == during;
  }

  // ---- what is refused --------------------------------------------------------------------------------

  /** Ahead of the accept an open stream refuses data, and closes, exactly if it cannot be held together
      with what is; otherwise the data is held behind that. Once the handshake is accepted no data
      is refused. */
  lemma DataIsHeldOrRefused(e: Early, data: Bytes, most: nat)
    requires Enabled(e, Data(data)) && !e.closed
    ensures
      var next := Apply(e, Data(data), most);
      && (next.closed <==> !e.accepted && |e.held| + |data| > most)
      && next.held == (if e.accepted || next.closed then e.held else e.held + data)
      && next.decoder == (if e.accepted then e.decoder + data else e.decoder)
      && next.accepted == e.accepted && next.accepting == e.accepting
  {
  }

  /** When the accept began and was through. */
  function EraAfter(steps: seq<Step>): Era {
    if FinishAccept in steps then Afterwards else if BeginAccept in steps then During else Ahead
  }

  /** All data that arrives in an era, refused or not. */
  function DataIn(steps: seq<Step>, era: Era): Bytes {
    if steps == [] then []
    else
      var before, step := steps[..|steps| - 1], steps[|steps| - 1];
      DataIn(before, era) + if step.Data? && EraAfter(before) == era then step.data else []
  }

  predicate Eras(e: Early, era: Era) {
    match era
    case Ahead => !e.accepted && !e.accepting
    case During => e.accepted && e.accepting
    case Afterwards => e.accepted && !e.accepting
  }

  lemma EraSnoc(steps: seq<Step>, e: Early, step: Step, most: nat)
    requires Eras(e, EraAfter(steps)) && Enabled(e, step)
    ensures Eras(Apply(e, step, most), EraAfter(steps + [step]))
    ensures step.Data? ==> EraAfter(steps + [step]) == EraAfter(steps)
    ensures step.BeginAccept? ==> EraAfter(steps) == Ahead
  {
    assert forall x :: x in steps + [step] <==> x in steps || x == step;
  }

  predicate AllTaken(steps: seq<Step>, e: Early, most: nat)
    requires Run(steps, most).Some?
  {
    && Eras(e, EraAfter(steps)) && (e.closed <==> |DataIn(steps, Ahead)| > most)
    && (!e.closed ==> forall era :: Taken(steps, most, era) == DataIn(steps, era))
  }

  lemma DataInSnoc(steps: seq<Step>, step: Step, era: Era)
    ensures DataIn(steps + [step], era)
         == DataIn(steps, era) + if step.Data? && EraAfter(steps) == era then step.data else []
  {
    assert (steps + [step])[..|steps|] == steps;
  }

  lemma AllTakenSnoc(before: seq<Step>, e: Early, step: Step, most: nat)
    requires Run(before, most) == Some(e) && AllTaken(before, e, most) && Enabled(e, step) && !step.Close?
    ensures Run(before + [step], most) == Some(Apply(e, step, most))
    ensures AllTaken(before + [step], Apply(e, step, most), most)
  {
    var next := Apply(e, step, most);
    EraSnoc(before, e, step, most);
    EarlyInv(before, most);
    forall era: Era
      ensures Taken(before + [step], most, era) == Taken(before, most, era) + TakenNow(e, step, most, era)
    {
      RunSnoc(before, step, most, era);
    }
    RunSnoc(before, step, most, Ahead);
    forall era: Era
      ensures DataIn(before + [step], era)
           == DataIn(before, era) + if step.Data? && EraAfter(before) == era then step.data else []
    {
      DataInSnoc(before, step, era);
    }
    assert DataIn(before, Ahead) + [] == DataIn(before, Ahead);
  }

  lemma {:induction false} RunTakesAll(steps: seq<Step>, most: nat)
    requires Run(steps, most).Some? && Close !in steps
    ensures AllTaken(steps, Run(steps, most).value, most)
    decreases |steps|
  {
    if steps != [] {
      var before, step := steps[..|steps| - 1], steps[|steps| - 1];
      assert before + [step] == steps && forall x :: x in before ==> x in steps;
      assert step in steps;
      RunTakesAll(before, most);
      AllTakenSnoc(before, Run(before, most).value, step, most);
    }
  }

  /** A stream that nobody closes refuses its client exactly if more data than one message may have came
      ahead of the accept. Otherwise nothing at all is lost: what came ahead of the accept is held,
      in the order of arrival, and everything has been received. */
  lemma NothingEarlyIsLost(steps: seq<Step>, most: nat)
    requires Run(steps, most).Some? && Close !in steps
    ensures
      var e, ahead := Run(steps, most).value, DataIn(steps, Ahead);
      && (e.closed <==> |ahead| > most)
      && (!e.closed && !e.accepted ==> e.held == ahead && e.decoder == [])
      && (!e.closed ==> Received(steps, most) == ahead + DataIn(steps, During) + DataIn(steps, Afterwards))
  {
    var e := Run(steps, most).value;
    RunTakesAll(steps, most);
    EarlyInv(steps, most);
    assert AllTaken(steps, e, most);
    assert EarlyOk(e, Taken(steps, most, Ahead), Taken(steps, most, During), Taken(steps, most, Afterwards), most);
  }

  lemma RunSnoc(steps: seq<Step>, step: Step, most: nat, era: Era)
    requires Run(steps, most).Some? && Enabled(Run(steps, most).value, step)
    ensures Run(steps + [step], most) == Some(Apply(Run(steps, most).value, step, most))
    ensures Taken(steps + [step], most, era)
         == Taken(steps, most, era) + TakenNow(Run(steps, most).value, step, most, era)
  {
    assert (steps + [step])[..|steps|] == steps;
  }

  lemma Snoc(steps: seq<Step>, step: Step, most: nat, e: Early, ahead: Bytes, during: Bytes)
    requires Run(steps, most) == Some(e) && Enabled(e, step) && Taken(steps, most, Afterwards) == []
    requires Taken(steps, most, Ahead) == ahead && Taken(steps, most, During) == during
    ensures Run(steps + [step], most) == Some(Apply(e, step, most))
    ensures Taken(steps + [step], most, Ahead) == ahead + TakenNow(e, step, most, Ahead)
    ensures Taken(steps + [step], most, During) == during + TakenNow(e, step, most, During)
    ensures Taken(steps + [step], most, Afterwards) == TakenNow(e, step, most, Afterwards)
  {
    RunSnoc(steps, step, most, Ahead);
    RunSnoc(steps, step, most, During);
    RunSnoc(steps, step, most, Afterwards);
  }

  /** Any two bytes, one ahead of the accept and one while it is suspended, reach wsproto the wrong way
      round. */
  lemma BytesAreReordered(a: Bytes, b: Bytes, most: nat) returns (steps: seq<Step>)
    requires |a| == |b| == 1 <= most
    ensures Run(steps, most).Some? && Received(steps, most) == a + b && Run(steps, most).value.decoder == b + a
  {
    var none: Bytes := [];
    assert none + a == a && none + b == b && a + none == a && b + none == b;
    var e0 := NewEarly();
    Snoc([], Data(a), most, e0, [], []);
    steps := [] + [Data(a)];
    var e1 := Early(false, false, false, a, []);
    assert Took(e0, a, most) == e1;
    Snoc(steps, BeginAccept, most, e1, a, []);
    steps := steps + [BeginAccept];
    var e2 := Early(false, true, true, a, []);
    Snoc(steps, Data(b), most, e2, a, []);
    steps := steps + [Data(b)];
    var e3 := Early(false, true, true, a, b);
    assert Took(e2, b, most) == e3;
    Snoc(steps, FinishAccept, most, e3, a, b);
    steps := steps + [FinishAccept];
    assert a + b + none == a + b;
  }
}
