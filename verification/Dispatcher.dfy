/** src/anycorn/middleware/dispatcher.py: one lifespan on behalf of any number of mounted apps. */
module Dispatchers {
  import opened Common

  datatype Message = StartupComplete | ShutdownComplete | StartupFailed | ShutdownFailed

  /** The three dictionaries, mount by mount, and what went upstream. */
  datatype Board = Board(startup: seq<bool>, shutdown: seq<bool>, failed: seq<bool>, upstream: seq<Message>)

  function NewBoard(n: nat): Board {
    var none := seq(n, i => false);
    Board(none, none, none, [])
  }

  predicate Sized(b: Board, n: nat) { |b.startup| == |b.shutdown| == |b.failed| == n }

  predicate All(flags: seq<bool>) { forall i :: 0 <= i < |flags| ==> flags[i] }

  /** `send`. */
  function Forward(b: Board, i: nat, m: Message): Board
    requires Sized(b, |b.startup|) && i < |b.startup|
  {
    match m
    case StartupComplete =>
      var startup := b.startup[i := true];
      b.(startup := startup, upstream := if All(startup) then b.upstream + [m] else b.upstream)
    case ShutdownComplete =>
      var shutdown := b.shutdown[i := true];
      b.(shutdown := shutdown, upstream := if All(shutdown) then b.upstream + [m] else b.upstream)
    case StartupFailed => b.(failed := b.failed[i := true], upstream := b.upstream + [m])
    case ShutdownFailed => b.(failed := b.failed[i := true], upstream := b.upstream + [m])
  }

  class DispatcherMiddleware {
    var startupComplete: array<bool>
    var shutdownComplete: array<bool>
    var failed: array<bool>
    var upstream: seq<Message>

    ghost predicate Valid()
      reads this, startupComplete, shutdownComplete, failed
    {
      && startupComplete.Length == shutdownComplete.Length == failed.Length
      && startupComplete != shutdownComplete && startupComplete != failed && shutdownComplete != failed
    }

    ghost function View(): Board
      reads this, startupComplete, shutdownComplete, failed
    {
      Board(startupComplete[..], shutdownComplete[..], failed[..], upstream)
    }

    constructor (mounts: nat)
      ensures Valid() && View() == NewBoard(mounts)
      ensures fresh(startupComplete) && fresh(shutdownComplete) && fresh(failed)
    {
      startupComplete := new bool[mounts](i => false);
      shutdownComplete := new bool[mounts](i => false);
      failed := new bool[mounts](i => false);
      upstream := [];
    }

    /** `all(....values())`. */
    method AllSet(flags: array<bool>) returns (all: bool)
      ensures all == All(flags[..])
    {
      for i := 0 to flags.Length
        invariant All(flags[..i])
      {
        if !flags[i] {
          return false;
        }
      }
      assert flags[..flags.Length] == flags[..];
      return true;
    }

    method Send(path: nat, m: Message)
      requires Valid() && path < failed.Length
      modifies this`upstream, startupComplete, shutdownComplete, failed
      ensures Valid() && View() == Forward(old(View()), path, m)
    {
      match m {
        case StartupComplete =>
          startupComplete[path] := true;
          var all := AllSet(startupComplete);
          if all {
            upstream := upstream + [m];
          }
        case ShutdownComplete =>
          shutdownComplete[path] := true;
          var all := AllSet(shutdownComplete);
          if all {
            upstream := upstream + [m];
          }
        case StartupFailed =>
          failed[path] := true;
          upstream := upstream + [m];
        case ShutdownFailed =>
          failed[path] := true;
          upstream := upstream + [m];
      }
    }

    /** `_run_mount` from the end of the app on: nothing else may happen in between here. */
    method FinishMount(path: nat, raised: bool) returns (raises: bool)
      requires Valid() && path < failed.Length
      modifies this`upstream, startupComplete, shutdownComplete, failed
      ensures Valid()
      ensures raises <==> raised && (old(startupComplete[path]) || old(failed[path]))
      ensures View() == if raises || old(failed[path]) then old(View())
                        else Closing(Opening(old(View()), path), path)
    {
      if raised && (startupComplete[path] || failed[path]) {
        return true;
      }
      if failed[path] {
        return false;
      }
      if !startupComplete[path] {
        Send(path, StartupComplete);
      }
      if !shutdownComplete[path] {
        Send(path, ShutdownComplete);
      }
      return false;
    }
  }

  /** The two completions that `_run_mount` makes up for. */
  function Opening(b: Board, i: nat): (r: Board)
    requires Sized(b, |b.startup|) && i < |b.startup|
    ensures Sized(r, |b.startup|)
  {
    if b.startup[i] then b else Forward(b, i, StartupComplete)
  }

  function Closing(b: Board, i: nat): (r: Board)
    requires Sized(b, |b.startup|) && i < |b.startup|
    ensures Sized(r, |b.startup|)
  {
    if b.shutdown[i] then b else Forward(b, i, ShutdownComplete)
  }

  // ---- runs -----------------------------------------------------------------------------------------

  /** A mount runs, has ended with one or both completions still to be looked at, or is done. */
  datatype Mount = Running | Ended | Opened | Done

  /** `crashed`: an error got out of `_run_mount`, and with it the task group ends. */
  datatype State = State(board: Board, mounts: seq<Mount>, crashed: bool)

  datatype Step = Send(i: nat, m: Message) | End(i: nat, raised: bool) | Settle(i: nat)

  function Initial(n: nat): State { State(NewBoard(n), seq(n, i => Running), false) }

  /** An app completes each phase at most once, in order, and not after failing. */
  predicate Proper(b: Board, i: nat, m: Message)
    requires Sized(b, |b.startup|) && i < |b.startup|
  {
    && !b.failed[i]
    && (if m.StartupComplete? || m.StartupFailed? then !b.startup[i] else b.startup[i] && !b.shutdown[i])
  }

  predicate Enabled(st: State, step: Step) {
    && !st.crashed && Sized(st.board, |st.mounts|) && step.i < |st.mounts|
    && match step
       case Send(i, m) => st.mounts[i] == Running && Proper(st.board, i, m)
       case End(i, _) => st.mounts[i] == Running
       case Settle(i) => st.mounts[i] in {Ended, Opened}
  }

  function Apply(st: State, step: Step): State
    requires Enabled(st, step)
  {
    match step
    case Send(i, m) => st.(board := Forward(st.board, i, m))
    case End(i, raised) =>
      if raised && (st.board.startup[i] || st.board.failed[i]) then st.(crashed := true, mounts := st.mounts[i := Done])
      else st.(mounts := st.mounts[i := if st.board.failed[i] then Done else Ended])
    case Settle(i) =>
      if st.mounts[i] == Ended
      then st.(board := Opening(st.board, i), mounts := st.mounts[i := Opened])
      else st.(board := Closing(st.board, i), mounts := st.mounts[i := Done])
  }

  function Run(st: State, steps: seq<Step>): Option<State>
    decreases |steps|
  {
    if steps == [] then Some(st)
    else if Enabled(st, steps[0]) then Run(Apply(st, steps[0]), steps[1..])
    else None
  }

  /** The completions among what went upstream. */
  function Completions(upstream: seq<Message>): seq<Message> {
    if upstream == [] then []
    else
      var last := upstream[|upstream| - 1];
      Completions(upstream[..|upstream| - 1]) + if last.StartupComplete? || last.ShutdownComplete? then [last] else []
  }

  predicate MountOk(b: Board, m: Mount, i: nat, crashed: bool)
    requires Sized(b, |b.startup|) && i < |b.startup|
  {
    && (b.shutdown[i] ==> b.startup[i])
    && (b.failed[i] ==> !b.shutdown[i] && m in {Running, Done})
    && (m == Opened ==> b.startup[i])
    && (m == Done && !crashed ==> b.failed[i] || b.shutdown[i])
  }

  predicate Inv(st: State, n: nat) {
    var b := st.board;
    && n > 0 && Sized(b, n) && |st.mounts| == n
    && (forall i :: 0 <= i < n ==> MountOk(b, st.mounts[i], i, st.crashed))
    && Completions(b.upstream) == (if All(b.startup) then [StartupComplete] else [])
                                + (if All(b.shutdown) then [ShutdownComplete] else [])
    && ((exists i :: 0 <= i < n && b.failed[i]) <==> StartupFailed in b.upstream || ShutdownFailed in b.upstream)
  }

  lemma CompletionsSnoc(upstream: seq<Message>, m: Message)
    ensures Completions(upstream + [m])
         == Completions(upstream) + if m.StartupComplete? || m.ShutdownComplete? then [m] else []
  {
    assert (upstream + [m])[..|upstream|] == upstream;
  }

  lemma AllAfter(flags: seq<bool>, i: nat)
    requires i < |flags| && !flags[i]
    ensures !All(flags)
    ensures All(flags[i := true]) <==> forall j :: 0 <= j < |flags| && j != i ==> flags[j]
  {
    assert forall j :: 0 <= j < |flags| && j != i ==> flags[i := true][j] == flags[j];
  }

  lemma DownMeansUp(st: State, n: nat)
    requires Inv(st, n) && All(st.board.shutdown)
    ensures All(st.board.startup)
  {
    forall i | 0 <= i < n ensures st.board.startup[i] {
      assert MountOk(st.board, st.mounts[i], i, st.crashed);
    }
  }

  lemma OthersStay(st: State, b: Board, i: nat, n: nat)
    requires Inv(st, n) && Sized(b, n) && i < n && MountOk(b, st.mounts[i], i, st.crashed)
    requires forall j :: 0 <= j < n && j != i ==>
      b.startup[j] == st.board.startup[j] && b.shutdown[j] == st.board.shutdown[j] && b.failed[j] == st.board.failed[j]
    ensures forall j :: 0 <= j < n ==> MountOk(b, st.mounts[j], j, st.crashed)
  {
    forall j | 0 <= j < n ensures MountOk(b, st.mounts[j], j, st.crashed) {
      assert MountOk(st.board, st.mounts[j], j, st.crashed);
    }
  }

  lemma CompletedInv(st: State, i: nat, m: Message, n: nat)
    requires Inv(st, n) && i < n && Proper(st.board, i, m) && st.mounts[i] != Done
    requires m.StartupComplete? || m.ShutdownComplete?
    ensures Inv(st.(board := Forward(st.board, i, m)), n)
  {
    var b, b' := st.board, Forward(st.board, i, m);
    CompletionsSnoc(b.upstream, m);
    assert MountOk(b, st.mounts[i], i, st.crashed);
    OthersStay(st, b', i, n);
    assert b'.failed == b.failed;
    if m.StartupComplete? {
      AllAfter(b.startup, i);
      assert !b.shutdown[i];
    } else {
      AllAfter(b.shutdown, i);
      if All(b'.shutdown) {
        forall j | 0 <= j < n ensures b.startup[j] {
          assert MountOk(b', st.mounts[j], j, st.crashed);
        }
      }
    }
  }

  lemma FailedInv(st: State, i: nat, m: Message, n: nat)
    requires Inv(st, n) && i < n && Proper(st.board, i, m) && st.mounts[i] == Running
    requires m.StartupFailed? || m.ShutdownFailed?
    ensures Inv(st.(board := Forward(st.board, i, m)), n)
  {
    var b, b' := st.board, Forward(st.board, i, m);
    CompletionsSnoc(b.upstream, m);
    assert MountOk(b, st.mounts[i], i, st.crashed);
    OthersStay(st, b', i, n);
    assert b'.failed[i] && m in b'.upstream;
  }

  lemma ForwardInv(st: State, i: nat, m: Message, n: nat)
    requires Inv(st, n) && i < n && Proper(st.board, i, m) && st.mounts[i] != Done
    requires (m.StartupFailed? || m.ShutdownFailed?) ==> st.mounts[i] == Running
    ensures Inv(st.(board := Forward(st.board, i, m)), n)
  {
    if m.StartupComplete? || m.ShutdownComplete? {
      CompletedInv(st, i, m, n);
    } else {
      FailedInv(st, i, m, n);
    }
  }

  lemma EndInv(st: State, i: nat, raised: bool, n: nat)
    requires Inv(st, n) && Enabled(st, End(i, raised))
    ensures Inv(Apply(st, End(i, raised)), n)
  {
  }

  lemma StepInv(st: State, step: Step, n: nat)
    requires Inv(st, n) && Enabled(st, step)
    ensures Inv(Apply(st, step), n)
  {
    var i := step.i;
    match step
    case Send(_, m) => ForwardInv(st, i, m, n);
    case End(_, raised) => EndInv(st, i, raised, n);
    case Settle(_) =>
      assert MountOk(st.board, st.mounts[i], i, st.crashed);
      if st.mounts[i] == Ended && !st.board.startup[i] {
        ForwardInv(st, i, StartupComplete, n);
      } else if st.mounts[i] == Opened && !st.board.shutdown[i] {
        ForwardInv(st, i, ShutdownComplete, n);
      }
  }

  lemma {:induction false} RunInv(st: State, steps: seq<Step>, n: nat)
    requires Inv(st, n) && Run(st, steps).Some?
    ensures Inv(Run(st, steps).value, n)
    decreases |steps|
  {
    if steps != [] {
      StepInv(st, steps[0], n);
      RunInv(Apply(st, steps[0]), steps[1..], n);
    }
  }

  predicate ReachedBy(n: nat, steps: seq<Step>, st: State) { Run(Initial(n), steps) == Some(st) }

  lemma Reached(n: nat, steps: seq<Step>, st: State)
    requires n > 0 && ReachedBy(n, steps, st)
    ensures Inv(st, n)
  {
    var none := seq(n, i => false);
    assert !none[0];
    RunInv(Initial(n), steps, n);
  }

  /** Upstream hears of the startup exactly once every mount has completed or declined it, then of the
      shutdown exactly once every mount has, each at most once and in that order. */
  lemma CompletionsInOrder(n: nat, steps: seq<Step>, st: State)
    requires n > 0 && ReachedBy(n, steps, st)
    ensures Completions(st.board.upstream) == (if All(st.board.startup) then [StartupComplete] else [])
                                            + (if All(st.board.shutdown) then [ShutdownComplete] else [])
    ensures All(st.board.shutdown) ==> All(st.board.startup)
  {
    Reached(n, steps, st);
    if All(st.board.shutdown) {
      DownMeansUp(st, n);
    }
  }

  /** A mount that failed its startup keeps the dispatcher from ever starting up, and one that failed
      at all from ever having shut down; the failure itself is passed on. */
  lemma FailureIsNotTakenBack(n: nat, steps: seq<Step>, st: State, i: nat)
    requires n > 0 && ReachedBy(n, steps, st) && Sized(st.board, n) && i < n && st.board.failed[i]
    ensures StartupFailed in st.board.upstream || ShutdownFailed in st.board.upstream
    ensures ShutdownComplete !in Completions(st.board.upstream)
    ensures !st.board.startup[i] ==> Completions(st.board.upstream) == []
  {
    Reached(n, steps, st);
    assert MountOk(st.board, st.mounts[i], i, st.crashed);
    assert !All(st.board.shutdown);
  }

  /** A mount that failed its startup never counts as started. */
  lemma {:induction false} FailedStaysFailed(st: State, steps: seq<Step>, n: nat, i: nat)
    requires Inv(st, n) && Run(st, steps).Some? && i < n && st.board.failed[i]
    ensures
      var end := Run(st, steps).value;
      Sized(end.board, n) && end.board.failed[i] && end.board.startup[i] == st.board.startup[i]
    decreases |steps|
  {
    if steps != [] {
      StepInv(st, steps[0], n);
      assert MountOk(st.board, st.mounts[i], i, st.crashed);
      FailedStaysFailed(Apply(st, steps[0]), steps[1..], n, i);
    }
  }

  /** A mount that ends takes the dispatcher with it exactly if it raised after it had started up or failed. One
      that failed is done; any other, whether it raised before it started or returned, counts as
      started and as shut down as soon as that is settled. */
  lemma EndsAreSettled(n: nat, steps: seq<Step>, st: State, i: nat, raised: bool)
    requires n > 0 && ReachedBy(n, steps, st) && Enabled(st, End(i, raised))
    ensures
      var ended := Apply(st, End(i, raised));
      && ended.board == st.board
      && (ended.crashed <==> raised && (st.board.startup[i] || st.board.failed[i]))
      && (!ended.crashed && st.board.failed[i] ==> ended.mounts[i] == Done)
      && (!ended.crashed && !st.board.failed[i] ==>
            && Enabled(ended, Settle(i)) && Enabled(Apply(ended, Settle(i)), Settle(i))
            && var settled := Apply(Apply(ended, Settle(i)), Settle(i));
               && settled.board.startup[i] && settled.board.shutdown[i] && settled.mounts[i] == Done)
  {
    Reached(n, steps, st);
  }

  predicate IsFailure(m: Message) { m == StartupFailed || m == ShutdownFailed }

  /** The failures among what went upstream, and those the mounts have reported. */
  function Failures(upstream: seq<Message>): seq<Message> {
    if upstream == [] then []
    else
      var last := upstream[|upstream| - 1];
      Failures(upstream[..|upstream| - 1]) + if IsFailure(last) then [last] else []
  }

  function Reported(steps: seq<Step>): seq<Message> {
    if steps == [] then []
    else (if steps[0].Send? && IsFailure(steps[0].m) then [steps[0].m] else []) + Reported(steps[1..])
  }

  lemma FailuresSnoc(upstream: seq<Message>, m: Message)
    ensures Failures(upstream + [m]) == Failures(upstream) + if IsFailure(m) then [m] else []
  {
    assert (upstream + [m])[..|upstream|] == upstream;
  }

  lemma ForwardedFailures(b: Board, i: nat, m: Message)
    requires Sized(b, |b.startup|) && i < |b.startup|
    ensures Failures(Forward(b, i, m).upstream) == Failures(b.upstream) + if IsFailure(m) then [m] else []
  {
    FailuresSnoc(b.upstream, m);
    assert Failures(b.upstream) + [] == Failures(b.upstream);
  }

  lemma {:induction false} FailuresGrow(st: State, steps: seq<Step>)
    requires Run(st, steps).Some?
    ensures Failures(Run(st, steps).value.board.upstream) == Failures(st.board.upstream) + Reported(steps)
    decreases |steps|
  {
    if steps == [] {
      assert Failures(st.board.upstream) + [] == Failures(st.board.upstream);
    } else {
      var step, next := steps[0], Apply(st, steps[0]);
      ForwardedFailures(st.board, step.i, if step.Send? then step.m else StartupComplete);
      ForwardedFailures(st.board, step.i, ShutdownComplete);
      FailuresGrow(next, steps[1..]);
      var now := if step.Send? && IsFailure(step.m) then [step.m] else [];
      assert Failures(st.board.upstream) + [] == Failures(st.board.upstream);
      Associate(Failures(st.board.upstream), now, Reported(steps[1..]));
    }
  }

  /** Every failure that a mount reports is passed on as it is, once and in order, and no other is. */
  lemma FailuresArePassedOn(n: nat, steps: seq<Step>, st: State)
    requires ReachedBy(n, steps, st)
    ensures Failures(st.board.upstream) == Reported(steps)
  {
    FailuresGrow(Initial(n), steps);
    assert [] + Reported(steps) == Reported(steps);
  }

  lemma {:induction false} OnlyCompletions(upstream: seq<Message>)
    requires StartupFailed !in upstream && ShutdownFailed !in upstream
    ensures Completions(upstream) == upstream
  {
    if upstream != [] {
      var n := |upstream| - 1;
      assert upstream == upstream[..n] + [upstream[n]];
      assert upstream[n] in upstream;
      OnlyCompletions(upstream[..n]);
    }
  }

  /** When every mount has come to its end and none has failed, nor raised once it was up, upstream has
      got exactly the two completions. */
  lemma AllEndWell(n: nat, steps: seq<Step>, st: State)
    requires n > 0 && ReachedBy(n, steps, st) && !st.crashed
    requires forall i :: 0 <= i < n ==> i < |st.mounts| && st.mounts[i] == Done
    requires Sized(st.board, n) && forall i :: 0 <= i < n ==> !st.board.failed[i]
    ensures st.board.upstream == [StartupComplete, ShutdownComplete]
  {
    Reached(n, steps, st);
    forall i | 0 <= i < n ensures st.board.startup[i] && st.board.shutdown[i] {
      assert MountOk(st.board, st.mounts[i], i, st.crashed);
    }
    OnlyCompletions(st.board.upstream);
  }

  /** The promise of the apps is needed: one that completes its startup twice makes upstream hear of
      it twice, if it is the last. */
  lemma CompletingTwiceShowsUpstream(b: Board, i: nat)
    requires Sized(b, |b.startup|) && i < |b.startup| && !b.startup[i]
    requires forall j :: 0 <= j < |b.startup| && j != i ==> b.startup[j]
    ensures
      var once := Forward(b, i, StartupComplete);
      Forward(once, i, StartupComplete).upstream == b.upstream + [StartupComplete, StartupComplete]
  {
    var startup := b.startup[i := true];
    assert All(startup) && startup[i := true] == startup;
    assert b.upstream + [StartupComplete] + [StartupComplete] == b.upstream + [StartupComplete, StartupComplete];
  }
}
