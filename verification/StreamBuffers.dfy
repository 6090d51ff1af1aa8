/** src/anycorn/protocol/h2.py, `StreamBuffer`: what one writer and the send task share.

    `Buffer` is the value of a buffer object and the functions below specify the segments of
    its coroutines between two suspension points; the class has the source's fields and its
    methods are proved against those functions. `push` is two segments: up to the wait on
    `_paused`, and from there on. */
module StreamBuffers {
  import opened Common
  import opened EventObjects

  const HIGH_WATER := 32768
  const LOW_WATER := 16384

  datatype Buffer = Buffer(data: Bytes, complete: bool, empty: Marks, paused: Marks) {
    predicate Finished() { complete && data == [] }
  }

  function NewBuffer(): Buffer { Buffer([], false, [false], [false]) }

  function Push(b: Buffer, d: Bytes): Buffer
    requires !b.complete
  {
    b.(data := b.data + d, empty := Clear(b.empty))
  }

  predicate MustPause(b: Buffer) { |b.data| >= HIGH_WATER }

  function EndPush(b: Buffer): Buffer { b.(paused := Clear(b.paused)) }

  function SetComplete(b: Buffer): Buffer { b.(complete := true) }

  function Taken(b: Buffer, limit: nat): Bytes { b.data[..Min(|b.data|, limit)] }

  function Pop(b: Buffer, limit: nat): Buffer {
    var left := b.data[Min(|b.data|, limit)..];
    Buffer(left, b.complete,
           if left == [] then Set(b.empty) else b.empty,
           if |left| < LOW_WATER then Set(b.paused) else b.paused)
  }

  function Close(b: Buffer): Buffer { Buffer([], true, Set(b.empty), Set(b.paused)) }

  datatype PushOutcome = Refused | Accepted | Paused(event: AsyncEvent)

  class StreamBuffer {
    var buffer: Bytes
    var completed: bool
    const isEmpty: EventWrapper
    const paused: EventWrapper
    ghost predicate Valid()
      reads this, isEmpty, isEmpty.event, paused, paused.event
    {
      && isEmpty.Valid() && paused.Valid()
      && isEmpty != paused && isEmpty.event != paused.event
    }

    ghost function View(): Buffer
      reads this, isEmpty, paused
    {
      Buffer(buffer, completed, isEmpty.marks, paused.marks)
    }

    constructor ()
      ensures Valid() && View() == NewBuffer()
      ensures fresh(isEmpty) && fresh(isEmpty.event) && fresh(paused) && fresh(paused.event)
    {
      buffer := [];
      completed := false;
      isEmpty := new EventWrapper();
      paused := new EventWrapper();
    }

    method MarkComplete()
      requires Valid()
      modifies this
      ensures Valid() && View() == SetComplete(old(View()))
    {
      completed := true;
    }

    method ForceClose()
      requires Valid()
      modifies this, isEmpty, isEmpty.event, paused, paused.event
      ensures Valid() && isEmpty.event == old(isEmpty.event) && paused.event == old(paused.event)
      ensures View() == Close(old(View()))
    {
      completed := true;
      buffer := [];
      isEmpty.SetEvent();
      paused.SetEvent();
    }

    method CheckFinished() returns (finished: bool)
      requires Valid()
      ensures finished == View().Finished()
    {
      finished := completed && |buffer| == 0;
    }

    /** `push` up to its wait. A writer told to pause waits on the object that is current now. */
    method BeginPush(d: Bytes) returns (r: PushOutcome)
      requires Valid()
      modifies this, isEmpty
      ensures Valid() && (isEmpty.event == old(isEmpty.event) || fresh(isEmpty.event))
      ensures r.Refused? <==> old(View()).complete
      ensures r.Refused? ==> View() == old(View())
      ensures !r.Refused? ==> View() == Push(old(View()), d) && (r.Paused? <==> MustPause(View()))
      ensures r.Paused? ==> r.event == paused.event
    {
      if completed {
        return Refused;
      }
      buffer := buffer + d;
      isEmpty.ClearEvent();
      if |buffer| >= HIGH_WATER {
        return Paused(paused.event);
      }
      return Accepted;
    }

    /** `push` after its wait. */
    method FinishPush()
      requires Valid()
      modifies paused
      ensures Valid() && fresh(paused.event)
      ensures View() == EndPush(old(View()))
    {
      paused.ClearEvent();
    }

    method Take(limit: nat) returns (d: Bytes)
      requires Valid()
      modifies this, isEmpty, isEmpty.event, paused, paused.event
      ensures Valid() && isEmpty.event == old(isEmpty.event) && paused.event == old(paused.event)
      ensures d == Taken(old(View()), limit) && View() == Pop(old(View()), limit)
    {
      var length := Min(|buffer|, limit);
      d := buffer[..length];
      buffer := buffer[length..];
      if |buffer| < LOW_WATER {
        paused.SetEvent();
      }
      if |buffer| == 0 {
        isEmpty.SetEvent();
      }
    }
  }
}
