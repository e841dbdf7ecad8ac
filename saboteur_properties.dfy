/** What the Saboteur's bookkeeping guarantees, stated over the value model
    of module `SaboteurModel`. */
module SaboteurProperties {
  import opened Results
  import opened SaboteurStates
  import opened SaboteurModel

  /** The callbacks that `setStateTo` can make; OnResume is the one made for
      RESUMING. */
  predicate Announced(s: State) {
    s == RESUMING || Callback(s).Some?
  }

  /** Storing the state already held changes nothing and notifies no one. */
  lemma SetStateToSameIsNoOp(c: Context)
    ensures SetStateTo(c, c.state) == c
  {
  }

  /** RESUMING is folded into STARTED and announced with one OnResume. */
  lemma SetStateToResumingStoresStarted(c: Context)
    requires c.state != RESUMING
    ensures SetStateTo(c, RESUMING).state == STARTED
    ensures SetStateTo(c, RESUMING).log == Notify(c, OnResume)
    ensures SetStateTo(c, RESUMING).executionAddress == c.executionAddress
  {
  }

  /** Any other new state word is stored as given and announced by exactly
      its own callback, or by none (TERMINATE, SWAPPING, ...). */
  lemma SetStateToStoresAndNotifies(c: Context, s: State)
    requires c.state != s && s != RESUMING
    ensures SetStateTo(c, s).state == s
    ensures SetStateTo(c, s).executionAddress == c.executionAddress
    ensures SetStateTo(c, s).threadID == c.threadID && SetStateTo(c, s).observer == c.observer
    ensures Callback(s).None? ==> SetStateTo(c, s).log == c.log
    ensures Callback(s).Some? ==> SetStateTo(c, s).log == Notify(c, Callback(s).value)
  {
  }

  /** With an observer, a change of state word yields exactly one callback
      when the word is announced and none otherwise; without an observer,
      none ever. */
  lemma SetStateToCallbackCount(c: Context, s: State)
    ensures |SetStateTo(c, s).log| ==
      if c.observer != 0 && c.state != s && Announced(s) then |c.log| + 1 else |c.log|
    ensures SetStateTo(c, s).log[..|c.log|] == c.log
  {
  }

  /** The four query predicates are mutually exclusive. */
  lemma QueriesExclusive(c: Context)
    ensures IsWaiting(c) ==> !IsSuspended(c) && !IsTerminated(c) && !WillTerminate(c)
    ensures IsSuspended(c) ==> !IsTerminated(c) && !WillTerminate(c)
    ensures IsTerminated(c) ==> !WillTerminate(c)
  {
  }

  /** `Suspend` is idempotent, and otherwise stores SUSPENDED with one
      OnSuspended. */
  lemma SuspendIdempotent(c: Context)
    ensures Suspend(Suspend(c)) == Suspend(c)
    ensures IsSuspended(c) ==> Suspend(c) == c
    ensures !IsSuspended(c) ==>
      Suspend(c) == c.(state := SUSPENDED, log := Notify(c, OnSuspended))
  {
  }

  /** `Resume` stores STARTED and announces OnResume whether or not the
      context was suspended. */
  lemma ResumeAlwaysStarts(c: Context)
    requires c.state != RESUMING
    ensures Resume(c) == c.(state := STARTED, log := Notify(c, OnResume))
  {
  }

  /** Suspending then resuming does not restore the state held before:
      a WAITING context comes back STARTED. */
  lemma SuspendResumeDoesNotRestore(c: Context)
    requires IsWaiting(c)
    ensures Resume(Suspend(c)).state == STARTED != c.state
  {
  }

  /** A TERMINATED context can still be suspended, and then resumed into
      STARTED: TERMINATED is not final in the code as written. */
  lemma TerminatedIsNotFinal(c: Context)
    requires IsTerminated(c)
    ensures Suspend(c).state == SUSPENDED
    ensures Resume(c).state == STARTED
  {
  }

  /** `push(a, r)` always installs `a`; the context ends SUSPENDED, or
      STARTED when asked to resume, after one OnSuspended (unless it was
      already suspended) and one OnResume (when resumed). */
  lemma PushOutcome(c: Context, address: Address, resume: bool)
    ensures Push(c, address, resume).executionAddress == address
    ensures Push(c, address, resume).state == if resume then STARTED else SUSPENDED
    ensures Push(c, address, resume).threadID == c.threadID
    ensures Push(c, address, resume).log ==
      var c1 := Suspend(c);
      if resume then Notify(c1, OnResume) else c1.log
  {
  }

  /** Any mask built from named state words makes `checkErrorState` fail
      with SaboteurIsSwapping, because every such word shares bits with
      SWAPPING. */
  lemma CheckErrorStateAlwaysSwapping(mask: State, threadID: ThreadId, caller: ThreadId)
    requires mask & COMMON_BITS == COMMON_BITS
    ensures CheckErrorState(mask, threadID, caller) == Some(SaboteurIsSwapping)
  {
    assert mask & SWAPPING & COMMON_BITS == COMMON_BITS;
  }

  /** Hence `swap` always fails with SaboteurIsSwapping and changes nothing. */
  lemma SwapAlwaysFails(c: Context, address: Address, resume: bool, caller: ThreadId)
    ensures Swap(c, address, resume, caller) == (c, Err(SaboteurIsSwapping))
  {
    CheckErrorStateAlwaysSwapping(SWAP_CHECKS, c.threadID, caller);
  }

  /** Past the check, `swap` would not install the new address either (the
      setter is empty): it returns the unchanged current address as the
      previous one. */
  lemma SwapPastCheckKeepsAddress(c: Context, address: Address, resume: bool)
    ensures SwapPastCheck(c, address, resume).1 == c.executionAddress
    ensures SwapPastCheck(c, address, resume).0.executionAddress == c.executionAddress
    ensures SwapPastCheck(c, address, resume).0.state == if resume then STARTED else SUSPENDED
  {
  }

  /** Construction by the template constructors ends, after `Create`, in
      CREATED, with OnResume announced before OnCreated. */
  lemma CreateFromFreshContext(c: Context)
    requires c.state == CLEAR
    ensures Create(c).state == CREATED
    ensures Create(c).executionAddress == c.executionAddress
    ensures Create(c).log == if c.observer != 0 then c.log + [OnResume, OnCreated] else c.log
  {
  }

  /** One step of a Saboteur's life: a controller operation, or a piece of
      `Create` and `Execution`. */
  datatype Step =
    | Controller(op: ControllerOp, caller: ThreadId)
    | CreateStep
    | SetupStep(self: ThreadId)
    | PollStep
    | JumpStep
    | ReturnStep

  function StepOf(c: Context, st: Step): Context {
    match st
    case Controller(op, caller) => Apply(c, op, caller)
    case CreateStep => Create(c)
    case SetupStep(self) => ExecutionSetup(c, self)
    case PollStep => Poll(c).0
    case JumpStep => SetStateTo(c, STARTED)
    case ReturnStep => SetStateTo(c, TERMINATED)
  }

  function Run(c: Context, steps: seq<Step>): Context
    decreases |steps|
  {
    if steps == [] then c else Run(StepOf(c, steps[0]), steps[1..])
  }

  lemma StepStaysReachable(c: Context, st: Step)
    requires Reachable(c.state)
    ensures Reachable(StepOf(c, st).state)
  {
    match st
    case Controller(op, caller) =>
      if op.SwapOp? { SwapAlwaysFails(c, op.address, op.resume, caller); }
    case _ =>
  }

  /** Whatever the interleaving of controller operations and routine steps,
      the state word only ever holds CLEAR, CREATED, WAITING, STARTED,
      SUSPENDED or TERMINATED: never RESUMING, SWAPPING or TERMINATE. */
  lemma {:induction false} RunStaysReachable(c: Context, steps: seq<Step>)
    requires Reachable(c.state)
    ensures Reachable(Run(c, steps).state)
    decreases |steps|
  {
    if steps != [] {
      StepStaysReachable(c, steps[0]);
      RunStaysReachable(StepOf(c, steps[0]), steps[1..]);
    }
  }

  /** So `willTerminate` is false in every reachable context: no operation
      of the class ever stores TERMINATE. */
  lemma {:induction false} NeverWillTerminate(c: Context, steps: seq<Step>)
    requires Reachable(c.state)
    ensures !WillTerminate(Run(c, steps))
  {
    RunStaysReachable(c, steps);
  }

  /** Steps only append to the observer's log, and never when there is no
      observer. */
  lemma {:induction false} RunOnlyAppends(c: Context, steps: seq<Step>)
    ensures |c.log| <= |Run(c, steps).log| && Run(c, steps).log[..|c.log|] == c.log
    ensures Run(c, steps).observer == c.observer
    ensures c.observer == 0 ==> Run(c, steps).log == c.log
    decreases |steps|
  {
    if steps != [] {
      var c1 := StepOf(c, steps[0]);
      assert |c.log| <= |c1.log| && c1.log[..|c.log|] == c.log && c1.observer == c.observer by {
        match steps[0]
        case Controller(op, caller) =>
          if op.SwapOp? { SwapAlwaysFails(c, op.address, op.resume, caller); }
        case _ =>
      }
      RunOnlyAppends(c1, steps[1..]);
    }
  }

  /** The wait loop is only ever left with a non-null execution address:
      right after `setStateTo(WAITING)` the state cannot be TERMINATE. */
  lemma {:induction false} WaitLoopLeavesWithAddress(c: Context, ops: seq<ControllerOp>, caller: ThreadId)
    ensures WaitLoop(c, ops, caller).Left? ==>
      WaitLoop(c, ops, caller).after.executionAddress != 0 &&
      WaitLoop(c, ops, caller).after.state == WAITING
    decreases |ops|
  {
    var (c1, keepWaiting) := Poll(c);
    if keepWaiting && ops != [] {
      WaitLoopLeavesWithAddress(Apply(c1, ops[0], caller), ops[1..], caller);
    }
  }

  /** Only `push` changes the execution address: `swap` always fails and
      its setter is empty anyway. */
  lemma ApplyAddress(c: Context, op: ControllerOp, caller: ThreadId)
    ensures Apply(c, op, caller).executionAddress ==
      if op.PushOp? then op.address else c.executionAddress
  {
    if op.SwapOp? { SwapAlwaysFails(c, op.address, op.resume, caller); }
  }

  /** After a run of controller operations the execution address is the
      one before them or the one some `push` among them installed. */
  lemma {:induction false} ApplyAllAddress(c: Context, ops: seq<ControllerOp>, caller: ThreadId)
    ensures var a := ApplyAll(c, ops, caller).executionAddress;
      a == c.executionAddress || exists i :: 0 <= i < |ops| && ops[i].PushOp? && ops[i].address == a
    decreases |ops|
  {
    if ops != [] {
      var c1 := Apply(c, ops[0], caller);
      ApplyAddress(c, ops[0], caller);
      ApplyAllAddress(c1, ops[1..], caller);
      var a := ApplyAll(c, ops, caller).executionAddress;
      if a != c1.executionAddress {
        var i :| 0 <= i < |ops[1..]| && ops[1..][i].PushOp? && ops[1..][i].address == a;
        assert ops[i + 1] == ops[1..][i];
      }
    }
  }

  /** `Execution` reaches `setStateTo(TERMINATED)` only when a controller
      pushed a null address after the wait loop was left (the loop itself
      is only left with an address), so never when nothing runs between
      the loop and the routine's next read. When it jumps, the state is
      STARTED and the address is non-null unless a null address was pushed
      just before the jump. */
  lemma ExecutionTerminatesOnlyAfterNullPush(c: Context, self: ThreadId, ops: seq<ControllerOp>, caller: ThreadId,
                                             afterLoop: seq<ControllerOp>, beforeJump: seq<ControllerOp>)
    ensures var exit := Execution(c, self, ops, caller, afterLoop, beforeJump).1;
      exit == Returned ==> exists i :: 0 <= i < |afterLoop| && afterLoop[i].PushOp? && afterLoop[i].address == 0
    ensures afterLoop == [] ==> Execution(c, self, ops, caller, afterLoop, beforeJump).1 != Returned
    ensures var (s, exit) := Execution(c, self, ops, caller, afterLoop, beforeJump);
      exit.JumpedTo? ==>
        (s.state == STARTED &&
         (exit.address != 0 || exists i :: 0 <= i < |beforeJump| && beforeJump[i].PushOp? && beforeJump[i].address == 0))
  {
    var w := WaitLoop(ExecutionSetup(c, self), ops, caller);
    WaitLoopLeavesWithAddress(ExecutionSetup(c, self), ops, caller);
    if w.Left? {
      ApplyAllAddress(w.after, afterLoop, caller);
      var c0 := ApplyAll(w.after, afterLoop, caller);
      ApplyAllAddress(c0, beforeJump, caller);
    }
  }

  /** Conversely, a null address pushed right after the loop was left
      sends the routine to TERMINATED. */
  lemma NullPushAfterLoopTerminates(c: Context, self: ThreadId, ops: seq<ControllerOp>, caller: ThreadId,
                                    resume: bool, beforeJump: seq<ControllerOp>)
    requires WaitLoop(ExecutionSetup(c, self), ops, caller).Left?
    ensures Execution(c, self, ops, caller, [PushOp(0, resume)], beforeJump).1 == Returned
    ensures Execution(c, self, ops, caller, [PushOp(0, resume)], beforeJump).0.state == TERMINATED
  {
    var c1 := WaitLoop(ExecutionSetup(c, self), ops, caller).after;
    assert ApplyAll(c1, [PushOp(0, resume)], caller) == Push(c1, 0, resume);
  }

  /** The execution address is never consumed: after a job the loop is left
      again at once with the same address. */
  lemma PollAfterJobLeavesAtOnce(c: Context)
    requires c.executionAddress != 0
    ensures !Poll(c).1 && Poll(c).0.executionAddress == c.executionAddress
  {
  }

  /** The destructor leaves every field it clears at zero. */
  lemma ClearedIsZero(c: Context)
    ensures Cleared(c).state == CLEAR && Cleared(c).executionAddress == 0
    ensures Cleared(c).observer == 0 && Cleared(c).threadID == 0
  {
  }
}
