/** src/anycorn/worker_context.py, `EventWrapper`.

    A wrapper does not clear its event: it replaces it. Who waits keeps waiting on the
    object that was current at that moment, so the identity of the objects matters. `Marks`
    lists the objects a wrapper has made, oldest first: the last one is current, and each
    mark says whether that object has been set. A waiter is described by the index of the
    object it waits on. */
module EventObjects {
  type Marks = m: seq<bool> | |m| > 0 witness [false]

  function Current(m: Marks): nat { |m| - 1 }

  predicate IsSet(m: Marks) { m[Current(m)] }

  function Set(m: Marks): Marks { m[Current(m) := true] }

  function Clear(m: Marks): Marks { m + [false] }

  /** A task waiting on object `e` may go on. */
  predicate Released(m: Marks, e: nat) { e < |m| && m[e] }

  /** A task waiting on object `e` either may go on, or the next `Set` will let it. */
  predicate Reachable(m: Marks, e: nat) { Released(m, e) || e == Current(m) }

  /** anyio.Event: set once, never unset. */
  class AsyncEvent {
    var fired: bool

    constructor ()
      ensures !fired
    {
      fired := false;
    }
  }

  /** The wrapper only ever touches the event it holds: an event it replaced stays as it was. */
  class EventWrapper {
    var event: AsyncEvent
    ghost var marks: Marks

    ghost predicate Valid()
      reads this, event
    {
      event.fired == IsSet(marks)
    }

    constructor ()
      ensures Valid() && fresh(event) && marks == [false]
    {
      event := new AsyncEvent();
      marks := [false];
    }

    method SetEvent()
      requires Valid()
      modifies this, event
      ensures Valid() && event == old(event) && marks == Set(old(marks))
    {
      event.fired := true;
      marks := Set(marks);
    }

    method ClearEvent()
      requires Valid()
      modifies this
      ensures Valid() && fresh(event) && marks == Clear(old(marks))
    {
      event := new AsyncEvent();
      marks := Clear(marks);
    }

    method CheckSet() returns (fired: bool)
      requires Valid()
      ensures fired == IsSet(marks)
    {
      fired := event.fired;
    }
  }
}
