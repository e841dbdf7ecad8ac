/** `Opal::Saboteur` as a class whose methods update its fields in place.
    Each method is atomic (the state mutex only serialises) and is proved to
    leave the fields as the `SaboteurModel` function its `ensures` names
    says. */
module Opal {
  import opened Results
  import opened SaboteurStates
  import opened SaboteurModel

  class Saboteur {
    var threadID: ThreadId
    var state: State
    var observer: Address
    var executionAddress: Address
    /** The callbacks the observer has received, in order. */
    var log: seq<Event>

    function Snapshot(): Context
      reads this
    {
      Context(threadID, state, observer, executionAddress, log)
    }

    /** `Saboteur()` and `Saboteur(observer)` (0 for none); the external
        `Lifecycle` routine they then call is not modelled. */
    constructor (observer: Address)
      ensures Snapshot() == Context(0, CLEAR, observer, 0, [])
    {
      this.threadID := 0;
      this.state := 0;
      this.observer := observer;
      this.executionAddress := 0;
      this.log := [];
    }

    /** The template constructors `Saboteur(address)` and
        `Saboteur(address, observer)`: the fields start at the given address
        and observer with a zero state word, then `Create` runs. */
    constructor WithAddress(address: Address, observer: Address := 0)
      ensures Snapshot() == SaboteurModel.Create(Context(0, CLEAR, observer, address, []))
    {
      this.executionAddress := address;
      this.observer := observer;
      this.threadID := 0;
      this.state := 0;
      this.log := [];
      new;
      Create();
    }

    /** `Create` without the OS calls (clone, PTRACE_SEIZE, wait). */
    method Create()
      modifies this
      ensures Snapshot() == SaboteurModel.Create(old(Snapshot()))
    {
      Resume();
      SetStateTo(CREATED);
    }

    method SetStateTo(s: State)
      modifies this
      ensures Snapshot() == SaboteurModel.SetStateTo(old(Snapshot()), s)
    {
      if state == s { return; }
      if s ^ RESUMING == 0 {
        state := STARTED;
        if observer != 0 { log := log + [OnResume]; }
        return;
      }
      state := s;
      if observer != 0 {
        var e := Callback(s);
        if e.Some? { log := log + [e.value]; }
      }
    }

    method IsIn(s: State) returns (b: bool)
      ensures b <==> state == s
    {
      b := state ^ s == 0;
    }

    method CheckErrorState(mask: State, caller: ThreadId) returns (err: Option<SaboteurError>)
      ensures mask & SWAPPING != 0 ==> err == Some(SaboteurIsSwapping)
      ensures mask & SWAPPING == 0 && mask & TERMINATED != 0 ==> err == Some(SaboteurFinished)
      ensures mask & SWAPPING == 0 && mask & TERMINATED == 0 ==>
        err == (if threadID == caller then Some(SaboteurSwapSelf) else None)
      ensures err == SaboteurModel.CheckErrorState(mask, threadID, caller)
    {
      if mask & SWAPPING != 0 { return Some(SaboteurIsSwapping); }
      if mask & TERMINATED != 0 { return Some(SaboteurFinished); }
      if threadID == caller { return Some(SaboteurSwapSelf); }
      if threadID == caller { return Some(SaboteurSuspendSelf); }
      return None;
    }

    /** The static `Suspend` and the public `suspend`. */
    method Suspend()
      modifies this
      ensures Snapshot() == SaboteurModel.Suspend(old(Snapshot()))
    {
      var suspended := IsIn(SUSPENDED);
      if suspended { return; }
      SetStateTo(SUSPENDED);
    }

    /** The static `Resume` and the public `resume`. */
    method Resume()
      modifies this
      ensures Snapshot() == SaboteurModel.Resume(old(Snapshot()))
    {
      SetStateTo(RESUMING);
    }

    method GetExecutionAddress() returns (a: Address)
      ensures a == executionAddress
    {
      a := executionAddress;
    }

    /** The setter's body is empty. */
    method SetExecutionAddress(address: Address)
      ensures Snapshot() == old(Snapshot())
    {
    }

    method Swap(address: Address, caller: ThreadId, resume: bool := false)
      returns (r: Result<Address, SaboteurError>)
      ensures (Snapshot(), r) == SaboteurModel.Swap(old(Snapshot()), address, resume, caller)
      ensures r == Err(SaboteurIsSwapping)
    {
      var err := CheckErrorState(SWAP_CHECKS, caller);
      if err.Some? {
        return Err(err.value);
      }
      // checkErrorState inspects its own argument, whose bits always meet
      // SWAPPING: the rest of swap (SwapPastCheck) is never reached.
      assert false;
    }

    /** The part of `swap` after `checkErrorState`, as it would run were
        the check passed. */
    method SwapPastCheck(address: Address, resume: bool) returns (previous: Address)
      modifies this
      ensures (Snapshot(), previous) == SaboteurModel.SwapPastCheck(old(Snapshot()), address, resume)
    {
      var suspended := IsIn(SUSPENDED);
      if !suspended { Suspend(); }
      previous := GetExecutionAddress();
      SetExecutionAddress(address);
      if resume { Resume(); }
    }

    method Push(address: Address, resume: bool := false)
      modifies this
      ensures Snapshot() == SaboteurModel.Push(old(Snapshot()), address, resume)
    {
      // RegistersOf(this): suspend, then read the register set.
      Suspend();
      var waiting := IsIn(WAITING);
      if waiting || true {
        executionAddress := address;
      }
      if resume { Resume(); }
    }

    method WillTerminate() returns (b: bool)
      ensures b <==> state == TERMINATE
    {
      b := IsIn(TERMINATE);
    }

    method IsTerminated() returns (b: bool)
      ensures b <==> state == TERMINATED
    {
      b := IsIn(TERMINATED);
    }

    method IsSuspended() returns (b: bool)
      ensures b <==> state == SUSPENDED
    {
      b := IsIn(SUSPENDED);
    }

    method IsWaiting() returns (b: bool)
      ensures b <==> state == WAITING
    {
      b := IsIn(WAITING);
    }

    method Apply(op: ControllerOp, caller: ThreadId)
      modifies this
      ensures Snapshot() == SaboteurModel.Apply(old(Snapshot()), op, caller)
    {
      match op
      case Idle =>
      case SuspendOp => Suspend();
      case ResumeOp => Resume();
      case PushOp(a, r) => Push(a, r);
      case SwapOp(a, r) => var _ := Swap(a, caller, r);
    }

    /** Controller operations made one after another. */
    method ApplyAll(ops: seq<ControllerOp>, caller: ThreadId)
      modifies this
      ensures Snapshot() == SaboteurModel.ApplyAll(old(Snapshot()), ops, caller)
    {
      for i := 0 to |ops|
        invariant SaboteurModel.ApplyAll(Snapshot(), ops[i..], caller) == SaboteurModel.ApplyAll(old(Snapshot()), ops, caller)
      {
        assert ops[i..][1..] == ops[i + 1..];
        Apply(ops[i], caller);
      }
    }

    /** `Execution` run by the context's own thread `self`, up to the jump
        into the job or the return; `ops[i]` is what a controller `caller`
        does while the routine yields after its (i+1)-th poll, `afterLoop`
        what controllers do between the loop and the routine's next read of
        the address, and `beforeJump` what they do before it stores STARTED
        and reads the address again. */
    method Execution(self: ThreadId, ops: seq<ControllerOp>, caller: ThreadId,
                     afterLoop: seq<ControllerOp>, beforeJump: seq<ControllerOp>) returns (exit: ExecutionExit)
      modifies this
      ensures (Snapshot(), exit) == SaboteurModel.Execution(old(Snapshot()), self, ops, caller, afterLoop, beforeJump)
    {
      if state == 0 {
        threadID := self;
        Suspend();
      }
      ghost var goal := WaitLoop(Snapshot(), ops, caller);
      var i := 0;
      var keepWaiting := true;
      while keepWaiting
        invariant 0 <= i <= |ops|
        invariant keepWaiting ==> WaitLoop(Snapshot(), ops[i..], caller) == goal
        invariant !keepWaiting ==> goal == Left(Snapshot())
        decreases |ops| - i, keepWaiting
      {
        SetStateTo(WAITING);
        var address := GetExecutionAddress();
        var terminate := IsIn(TERMINATE);
        keepWaiting := address == 0 && !terminate;
        if keepWaiting {
          if i == |ops| {
            assert goal == StillWaiting(Snapshot());
            return StillPolling;
          }
          assert ops[i..][1..] == ops[i + 1..];
          Apply(ops[i], caller);
          i := i + 1;
        }
      }
      ApplyAll(afterLoop, caller);
      var address := GetExecutionAddress();
      if address != 0 {
        ApplyAll(beforeJump, caller);
        SetStateTo(STARTED);
        address := GetExecutionAddress();
        return JumpedTo(address);
      }
      SetStateTo(TERMINATED);
      return Returned;
    }

    /** The destructor's final clearing, once its wait for TERMINATED is
        over. */
    method Destroy()
      modifies this
      ensures Snapshot() == Cleared(old(Snapshot()))
    {
      executionAddress := 0;
      observer := 0;
      threadID := 0;
      state := 0;
    }
  }
}
