/** `ProcessJ::Thread` as a class whose methods update its fields in place.
    Each method is atomic (the two mutexes only serialise) and is proved to
    leave the fields as the `ThreadModel` function its `ensures` names says;
    a thrown exception is an `Err` result. */
module ProcessJ {
  import opened Results
  import opened ThreadModel

  class Thread {
    var resumeAddress: Address
    var returnAddress: Address
    var exitAddress: Address
    var observer: Address
    var threadID: ThreadId
    var terminate: bool
    var swapping: bool
    var waiting: bool
    var started: bool
    var finished: bool
    var suspended: bool
    /** The callbacks the observer has received, in order. */
    var log: seq<Event>

    function Model(): ThreadState
      reads this
    {
      ThreadState(resumeAddress, returnAddress, exitAddress, observer, threadID,
                  terminate, swapping, waiting, started, finished, suspended, log)
    }

    /** `Thread()` and `Thread(observer)` (0 for none): every field at its
        initial value, then `create` records the OS thread handle `osHandle`
        as the thread id. */
    constructor (observer: Address, osHandle: ThreadId)
      ensures Model() == Fresh(observer, osHandle)
    {
      resumeAddress, returnAddress, exitAddress := 0, 0, 0;
      this.observer := observer;
      threadID := 0;
      terminate, swapping, waiting, started, finished, suspended := false, false, false, false, false, false;
      log := [];
      new;
      threadID := osHandle;
    }

    /** The template constructors `Thread(address)` and
        `Thread(address, observer)`: the resume address is the location
        `slot` of a one-element local array holding the given address. */
    constructor WithAddress(slot: Address, osHandle: ThreadId, observer: Address := 0)
      ensures Model() == Fresh(observer, osHandle).(resumeAddress := slot)
    {
      resumeAddress, returnAddress, exitAddress := 0, 0, 0;
      this.observer := observer;
      threadID := 0;
      terminate, swapping, waiting, started, finished, suspended := false, false, false, false, false, false;
      log := [];
      new;
      resumeAddress := slot;
      threadID := osHandle;
    }

    /** `suspend`, called from the OS thread `caller`. */
    method Suspend(caller: ThreadId) returns (r: Result<(), ThreadError>)
      modifies this
      ensures Reply(Model(), r) == ThreadModel.Suspend(old(Model()), caller)
    {
      if suspended { return Ok(()); }
      if threadID == caller { return Err(ThreadSuspendSelf); }
      suspended := true;
      if observer != 0 { log := log + [OnSuspended]; }
      return Ok(());
    }

    method Restart()
      modifies this
      ensures Model() == ThreadModel.Restart(old(Model()))
    {
      if !suspended { return; }
      suspended := false;
      if observer != 0 { log := log + [OnRestart]; }
    }

    method GetResumeAddress() returns (r: Result<Address, ThreadError>)
      modifies this
      ensures Reply(Model(), r) == ThreadModel.GetResumeAddress(old(Model()))
    {
      if swapping { return Err(ThreadIsSwapping); }
      r := Ok(resumeAddress);
      resumeAddress := 0;
    }

    method GetReturnAddress() returns (r: Result<Address, ThreadError>)
      ensures swapping ==> r == Err(ThreadIsSwapping)
      ensures !swapping ==> r == Ok(returnAddress)
    {
      if swapping { return Err(ThreadIsSwapping); }
      return Ok(returnAddress);
    }

    method ShouldTerminate() returns (r: Result<bool, ThreadError>)
      ensures swapping ==> r == Err(ThreadIsSwapping)
      ensures !swapping ==> r == Ok(terminate)
    {
      if swapping { return Err(ThreadIsSwapping); }
      return Ok(terminate);
    }

    method SetShouldTerminate(flag: bool, caller: ThreadId) returns (r: Result<(), ThreadError>)
      modifies this
      ensures Reply(Model(), r) == ThreadModel.SetShouldTerminate(old(Model()), flag, caller)
    {
      if swapping { return Err(ThreadIsSwapping); }
      if finished { return Err(ThreadFinished); }
      r := Suspend(caller);
      if r.Err? { return; }
      terminate := flag;
      Restart();
    }

    method SetResumeAddress(address: Address, caller: ThreadId) returns (r: Result<(), ThreadError>)
      modifies this
      ensures Reply(Model(), r) == ThreadModel.SetResumeAddress(old(Model()), address, caller)
    {
      if swapping { return Err(ThreadIsSwapping); }
      if finished { return Err(ThreadFinished); }
      r := Suspend(caller);
      if r.Err? { return; }
      if waiting { resumeAddress := address; }
      Restart();
    }

    method SetReturnAddress(address: Address, caller: ThreadId) returns (r: Result<(), ThreadError>)
      modifies this
      ensures Reply(Model(), r) == ThreadModel.SetReturnAddress(old(Model()), address, caller)
    {
      if swapping { return Err(ThreadIsSwapping); }
      if finished { return Err(ThreadFinished); }
      r := Suspend(caller);
      if r.Err? { return; }
      returnAddress := address;
      Restart();
    }

    method Swap(link: Link, caller: ThreadId) returns (r: Result<Link, ThreadError>)
      modifies this
      ensures Reply(Model(), r) == ThreadModel.Swap(old(Model()), link, caller)
    {
      if finished { return Err(ThreadFinished); }
      if threadID == caller { return Err(ThreadSwapSelf); }
      swapping := true;
      var _ := Suspend(caller);
      var previous := Link(resumeAddress, returnAddress, terminate);
      if !started {
        resumeAddress := link.resumeAddress;
      } else {
        resumeAddress := 0;
      }
      returnAddress := link.returnAddress;
      terminate := link.terminate;
      Restart();
      swapping := false;
      return Ok(previous);
    }

    method Apply(op: ControllerOp, caller: ThreadId)
      modifies this
      ensures Model() == ThreadModel.Apply(old(Model()), op, caller)
    {
      match op
      case Idle =>
      case SuspendOp => var _ := Suspend(caller);
      case RestartOp => Restart();
      case SetResumeOp(a) => var _ := SetResumeAddress(a, caller);
      case SetReturnOp(a) => var _ := SetReturnAddress(a, caller);
      case SetTerminateOp(b) => var _ := SetShouldTerminate(b, caller);
      case SwapOp(link) => var _ := Swap(link, caller);
    }

    /** One pass of the do/while body of `Execution` over its locals `job`
        (the resume address) and `stop` (the terminate flag). */
    method PollOnce(job: Address, stop: bool) returns (job': Address, stop': bool, shouldWait: bool)
      modifies this
      ensures Poll(Model(), job', stop', shouldWait) == ThreadModel.PollOnce(old(Model()), job, stop)
    {
      job', stop' := job, stop;
      var g := GetResumeAddress();
      if g.Err? { return job', stop', true; }
      job' := g.value;
      if job' != 0 { return job', stop', false; }
      var s := ShouldTerminate();
      if s.Err? { return job', stop', true; }
      stop' := s.value;
      shouldWait := !stop';
    }

    /** The wait loop of `Execution`; `ops[i]` is what a controller
        `caller` does while the routine yields after its (i+1)-th poll.
        `left` says whether the loop was left within those operations. */
    method WaitLoop(job: Address, stop: bool, ops: seq<ControllerOp>, caller: ThreadId)
      returns (left: bool, job': Address, stop': bool)
      modifies this
      ensures left ==> ThreadModel.WaitLoop(old(Model()), job, stop, ops, caller) == Left(Model(), job', stop')
      ensures !left ==> ThreadModel.WaitLoop(old(Model()), job, stop, ops, caller) == StillWaiting(Model())
    {
      ghost var goal := ThreadModel.WaitLoop(Model(), job, stop, ops, caller);
      job', stop' := job, stop;
      var i := 0;
      var shouldWait := true;
      while shouldWait
        invariant 0 <= i <= |ops|
        invariant shouldWait ==> ThreadModel.WaitLoop(Model(), job', stop', ops[i..], caller) == goal
        invariant !shouldWait ==> goal == Left(Model(), job', stop')
        decreases |ops| - i, shouldWait
      {
        job', stop', shouldWait := PollOnce(job', stop');
        if shouldWait {
          if i == |ops| {
            return false, job', stop';
          }
          assert ops[i..][1..] == ops[i + 1..];
          Apply(ops[i], caller);
          i := i + 1;
        }
      }
      return true, job', stop';
    }

    /** Controller operations run one after another while the routine is
        between two of its own steps. */
    method ApplyAll(ops: seq<ControllerOp>, caller: ThreadId)
      modifies this
      ensures Model() == ThreadModel.ApplyAll(old(Model()), ops, caller)
    {
      for i := 0 to |ops|
        invariant ThreadModel.ApplyAll(Model(), ops[i..], caller) == ThreadModel.ApplyAll(old(Model()), ops, caller)
      {
        assert ops[i..][1..] == ops[i + 1..];
        Apply(ops[i], caller);
      }
    }

    /** The STARTED label: the started state, then the return address set
        by the thread `self` itself to the EXIT or WAIT label, then
        OnStarted. */
    method Start(stop: bool, self: ThreadId, waitLabel: Address, exitLabel: Address)
      returns (err: Option<ThreadError>)
      modifies this
      ensures (Model(), err) == ThreadModel.Start(old(Model()), stop, self, waitLabel, exitLabel)
    {
      waiting, started := false, true;
      var r := SetReturnAddress(if stop then exitLabel else waitLabel, self);
      if r.Err? { return Some(r.error); }
      if observer != 0 { log := log + [OnStarted]; }
      return None;
    }

    /** What follows the wait loop, with the controller operations
        `afterLoop` landing between the loop's exit and the routine's next
        step and `beforeJump` between OnStarted and the jump, which reads
        the return address afresh. */
    method AfterWait(job: Address, stop: bool, self: ThreadId, waitLabel: Address, exitLabel: Address,
                     afterLoop: seq<ControllerOp>, beforeJump: seq<ControllerOp>, caller: ThreadId)
      returns (exit: ExecutionExit)
      modifies this
      ensures (Model(), exit) ==
        ThreadModel.AfterWait(old(Model()), job, stop, self, waitLabel, exitLabel, afterLoop, beforeJump, caller)
    {
      ApplyAll(afterLoop, caller);
      if job == 0 {
        // EXIT:
        waiting, started, finished := false, false, true;
        if observer != 0 { log := log + [OnFinished]; }
        return Finished;
      }
      var err := Start(stop, self, waitLabel, exitLabel);
      if err.Some? { return Threw(err.value); }
      ApplyAll(beforeJump, caller);
      return JumpedTo(job, returnAddress);
    }

    /** `Execution` run by the thread's own OS thread `self`, from the
        announcement of its creation up to the jump into the job or the
        return from EXIT. `waitLabel` and `exitLabel` are the addresses of
        the labels WAIT and EXIT; `ops`, `afterLoop` and `beforeJump` are the
        controller operations that land in the loop and after it. */
    method Execution(ops: seq<ControllerOp>, caller: ThreadId, self: ThreadId,
                     waitLabel: Address, exitLabel: Address,
                     afterLoop: seq<ControllerOp>, beforeJump: seq<ControllerOp>) returns (exit: ExecutionExit)
      modifies this
      ensures (Model(), exit) ==
        ThreadModel.Execution(old(Model()), ops, caller, self, waitLabel, exitLabel, afterLoop, beforeJump)
    {
      if observer != 0 { log := log + [OnCreated]; }
      // WAIT:
      waiting, started := true, false;
      if observer != 0 { log := log + [OnWaiting]; }
      var left, job, stop := WaitLoop(0, false, ops, caller);
      if !left { return StillPolling; }
      exit := AfterWait(job, stop, self, waitLabel, exitLabel, afterLoop, beforeJump, caller);
    }

    /** One pass of the destructor's termination loop; `again` says whether
        it goes round once more. */
    method DestroyAttempt(caller: ThreadId) returns (again: bool)
      modifies this
      ensures (Model(), again) == ThreadModel.DestroyAttempt(old(Model()), caller)
    {
      if exitAddress != 0 {
        var s := Suspend(caller);
        if s.Ok? { Restart(); }
        return false;
      }
      var b := ShouldTerminate();
      if b.Err? { return true; }
      var tryTerminate := !b.value;
      if !tryTerminate {
        var r := SetShouldTerminate(true, caller);
        return r.Err?;
      }
      return tryTerminate;
    }

    /** The destructor's final clearing, once it has seen `finished`. */
    method Destroy()
      modifies this
      ensures Model() == Cleared(old(Model()))
    {
      resumeAddress, returnAddress, exitAddress := 0, 0, 0;
      observer := 0;
      threadID := 0;
      terminate, swapping, waiting, started, finished, suspended := false, false, false, false, false, false;
    }
  }
}
