/** src/anycorn/worker_context.py, `AnyioSingleTask`: at most one task that counts, which may be
    replaced from outside or by itself. */
module Timers {
  class CancelScope {
    var cancelled: bool

    constructor ()
      ensures !cancelled
    {
      cancelled := false;
    }
  }

  /** `restart` holds the lock while the task group starts the new task, so it is two segments;
      `stop` does not suspend once it has the lock. */
  class AnyioSingleTask {
    var handle: CancelScope?
    var locked: bool

    constructor ()
      ensures handle == null && !locked
    {
      handle := null;
      locked := false;
    }

    method BeginRestart() returns (previous: CancelScope?)
      requires !locked
      modifies this`locked
      ensures locked && previous == handle
    {
      locked := true;
      previous := handle;
    }

    /** The replacement runs already when its predecessor, and nothing else, is cancelled. */
    method FinishRestart(previous: CancelScope?, started: CancelScope)
      requires locked && handle == previous && started != previous && !started.cancelled
      modifies this, previous
      ensures !locked && handle == started && !started.cancelled
      ensures previous != null ==> previous.cancelled
    {
      handle := started;
      if previous != null {
        previous.cancelled := true;
      }
      locked := false;
    }

    method Stop()
      requires !locked
      modifies this`handle, handle
      ensures !locked && handle == null
      ensures old(handle) != null ==> old(handle).cancelled
    {
      if handle != null {
        handle.cancelled := true;
      }
      handle := null;
    }
  }
}

/** Runs of one `AnyioSingleTask`: restarts and stops from outside and from the tasks themselves, and
    tasks that end, in any interleaving. */
module TimerRuns {
  import opened Common

  type Id = nat

  datatype Caller = Outside | Inside(task: Id)

  /** Who holds the lock: a restart, with the handle it saw and, once it has been started, the
      replacement. */
  datatype Lock = Free | Restarting(caller: Caller, previous: Option<Id>, started: Option<Id>)

  /** Tasks 0..made have been started; `ended` have run to their end or been torn down. */
  datatype State = State(made: nat, ended: set<Id>, cancelled: set<Id>, handle: Option<Id>, lock: Lock)

  datatype Step =
    | Begin(caller: Caller)
    | Spawn
    | Finish
    | Stop(caller: Caller)
    | End(task: Id)

  function Initial(): State { State(0, {}, {}, None, Free) }

  /** Still running, or asleep, and not cancelled. */
  predicate Armed(st: State, t: Id) { t < st.made && t !in st.ended && t !in st.cancelled }

  /** Acquiring the lock is a point where a cancelled task is torn down, so it never gets it. */
  predicate MayCall(st: State, c: Caller) { c.Inside? ==> Armed(st, c.task) }

  predicate Enabled(st: State, step: Step) {
    match step
    case Begin(caller) => st.lock.Free? && MayCall(st, caller)
    case Spawn => st.lock.Restarting? && st.lock.started.None?
    case Finish => st.lock.Restarting? && st.lock.started.Some?
    case Stop(caller) => st.lock.Free? && MayCall(st, caller)
    case End(t) => t < st.made && t !in st.ended && !(st.lock.Restarting? && st.lock.caller == Inside(t))
  }

  function Cancelled(st: State, t: Option<Id>): set<Id> {
    if t.Some? then st.cancelled + {t.value} else st.cancelled
  }

  function Apply(st: State, step: Step): State
    requires Enabled(st, step)
  {
    match step
    case Begin(caller) => st.(lock := Restarting(caller, st.handle, None))
    case Spawn => st.(made := st.made + 1, lock := st.lock.(started := Some(st.made)))
    case Finish => st.(handle := st.lock.started, cancelled := Cancelled(st, st.lock.previous), lock := Free)
    case Stop(_) => st.(handle := None, cancelled := Cancelled(st, st.handle))
    case End(t) => st.(ended := st.ended + {t})
  }

  function Run(st: State, steps: seq<Step>): Option<State>
    decreases |steps|
  {
    if steps == [] then Some(st)
    else if Enabled(st, steps[0]) then Run(Apply(st, steps[0]), steps[1..])
    else None
  }

  // ---- the invariant --------------------------------------------------------------------------------

  ghost predicate Inv(st: State) {
    && (forall t: Id :: t in st.cancelled || t in st.ended ==> t < st.made)
    && (st.handle.Some? ==> st.handle.value < st.made && st.handle.value !in st.cancelled)
    && (forall t: Id :: Armed(st, t) ==> Some(t) == st.handle || (st.lock.Restarting? && Some(t) == st.lock.started))
    && (st.lock.Restarting? ==>
        && st.lock.previous == st.handle
        && (st.lock.caller.Inside? ==> Armed(st, st.lock.caller.task) && Some(st.lock.caller.task) == st.handle)
        && (st.lock.started.Some? ==>
            st.lock.started.value < st.made && st.lock.started.value !in st.cancelled && st.lock.started != st.handle))
  }

  lemma StepInv(st: State, step: Step)
    requires Inv(st) && Enabled(st, step)
    ensures Inv(Apply(st, step))
  {
    var st' := Apply(st, step);
    assert forall t: Id :: Armed(st', t) && !(step.Spawn? && t == st.made) ==> Armed(st, t);
  }

  lemma {:induction false} RunInv(st: State, steps: seq<Step>)
    requires Inv(st) && Run(st, steps).Some?
    ensures Inv(Run(st, steps).value)
    decreases |steps|
  {
    if steps != [] {
      StepInv(st, steps[0]);
      RunInv(Apply(st, steps[0]), steps[1..]);
    }
  }

  predicate ReachedBy(steps: seq<Step>, st: State) { Run(Initial(), steps) == Some(st) }

  // ---- what every run keeps -------------------------------------------------------------------------

  /** At any time at most one task is armed, or two while a restart is under way: the one it
      replaces and the one it has started. */
  lemma AtMostOneArmed(steps: seq<Step>, st: State, t: Id, u: Id)
    requires ReachedBy(steps, st) && Armed(st, t) && Armed(st, u) && t != u
    ensures st.lock.Restarting? && {Some(t), Some(u)} == {st.lock.previous, st.lock.started}
  {
    RunInv(Initial(), steps);
  }

  /** Whether a task is due: some restart has finished and no stop has come since. */
  function Due(steps: seq<Step>): bool {
    if steps == [] then false
    else
      var last := steps[|steps| - 1];
      if last.Finish? then true else if last.Stop? then false else Due(steps[..|steps| - 1])
  }

  lemma {:induction false} HandleWhenDue(steps: seq<Step>, st: State)
    requires ReachedBy(steps, st)
    ensures Due(steps) == st.handle.Some?
    decreases |steps|
  {
    if steps != [] {
      var n := |steps| - 1;
      assert steps[..n] + [steps[n]] == steps;
      RunSplit(Initial(), steps[..n], steps[n]);
      var before := Run(Initial(), steps[..n]).value;
      HandleWhenDue(steps[..n], before);
      RunInv(Initial(), steps[..n]);
    }
  }

  lemma {:induction false} RunSplit(st: State, steps: seq<Step>, last: Step)
    requires Run(st, steps + [last]).Some?
    ensures Run(st, steps).Some? && Enabled(Run(st, steps).value, last)
    ensures Run(st, steps + [last]) == Some(Apply(Run(st, steps).value, last))
    decreases |steps|
  {
    if steps == [] {
      assert [] + [last] == [last] && [last][1..] == [];
    } else {
      assert (steps + [last])[1..] == steps[1..] + [last];
      RunSplit(Apply(st, steps[0]), steps[1..], last);
    }
  }

  /** Between a restart and a stop there is always a task that nobody has cancelled: the one the
      handle names, which is armed unless it has run to its own end. And no task is armed
      outside that time, but for the one a restart has just started. */
  lemma ATaskIsAlwaysDue(steps: seq<Step>, st: State)
    requires ReachedBy(steps, st)
    ensures Due(steps) ==> st.handle.Some? && st.handle.value !in st.cancelled
                           && (st.handle.value !in st.ended ==> Armed(st, st.handle.value))
    ensures !Due(steps) && st.lock.Free? ==> forall t: Id :: !Armed(st, t)
  {
    HandleWhenDue(steps, st);
    RunInv(Initial(), steps);
  }

  /** A task that restarts itself has its replacement started, and not cancelled, before its own
      cancellation, which is the only one. */
  lemma SelfRestartArmsItsReplacementFirst(steps: seq<Step>, st: State, t: Id)
    requires ReachedBy(steps, st) && Enabled(st, Finish) && st.lock.caller == Inside(t)
    ensures Armed(st, t) && st.lock.started.value < st.made && st.lock.started.value !in st.cancelled
    ensures Apply(st, Finish).cancelled == st.cancelled + {t} && Apply(st, Finish).handle == st.lock.started
    ensures st.lock.started.value !in Apply(st, Finish).cancelled
  {
    RunInv(Initial(), steps);
  }

  /** Tasks are cancelled by whoever holds the lock, and no task is cancelled while it holds it, other
      than by its own restart. */
  lemma CancelsUnderTheLock(steps: seq<Step>, st: State, step: Step, t: Id)
    requires ReachedBy(steps, st) && Enabled(st, step) && t !in st.cancelled && t in Apply(st, step).cancelled
    ensures (step.Finish? || step.Stop?) && Some(t) == st.handle
    ensures st.lock.Restarting? && st.lock.caller == Inside(t) ==> step.Finish?
  {
    RunInv(Initial(), steps);
  }
}
