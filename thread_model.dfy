/** A value model of the flag bookkeeping of `ProcessJ::Thread`
    (src/thread/Thread.cpp and include/thread/Thread.hpp): separate boolean
    flags, a resume/return address pair, and the callbacks its observer
    receives. Tracing (`ptrace`), `kill`, `pthread_create` and the inline
    jump are not modelled; the calling OS thread's id (`GetProcessId`) is a
    parameter. Each method of the class in module `ProcessJ` is proved
    against the function it names in its `ensures`. */
module ThreadModel {
  import opened Results

  /** A code address; 0 is the null pointer. */
  type Address = nat

  type ThreadId = nat

  datatype ThreadError =
    | ThreadIsSwapping
    | ThreadFinished
    | ThreadSwapSelf
    | ThreadSuspendSelf

  /** The six callbacks of `ProcessJ::ThreadObserver`. */
  datatype Event = OnCreated | OnWaiting | OnStarted | OnSuspended | OnRestart | OnFinished

  /** `ProcessJ::Thread::Link`, with its member initialisers as defaults. */
  datatype Link = Link(resumeAddress: Address := 0, returnAddress: Address := 0, terminate: bool := false)

  /** The fields of a Thread the core reads or writes; `observer` is the
      observer pointer (0 for none) and `log` the callbacks it received. */
  datatype ThreadState = ThreadState(
    resumeAddress: Address,
    returnAddress: Address,
    exitAddress: Address,
    observer: Address,
    threadID: ThreadId,
    terminate: bool,
    swapping: bool,
    waiting: bool,
    started: bool,
    finished: bool,
    suspended: bool,
    log: seq<Event>)

  /** What a member leaves behind: the fields afterwards and its value or
      the exception it threw. */
  datatype Reply<T> = Reply(after: ThreadState, result: Result<T, ThreadError>)

  /** Every field at its initial value, as the constructors' initialiser
      lists set them; `create` then records the OS thread handle. */
  function Fresh(observer: Address, threadID: ThreadId): ThreadState {
    ThreadState(0, 0, 0, observer, threadID, false, false, false, false, false, false, [])
  }

  function Notify(t: ThreadState, e: Event): seq<Event> {
    if t.observer != 0 then t.log + [e] else t.log
  }

  /** `suspend`: a no-op when already suspended; refuses the thread itself;
      otherwise stops it (not modelled), sets the flag and notifies. */
  function Suspend(t: ThreadState, caller: ThreadId): (r: Reply<()>)
    ensures r.result.Err? ==> r.after == t
  {
    if t.suspended then Reply(t, Ok(()))
    else if t.threadID == caller then Reply(t, Err(ThreadSuspendSelf))
    else Reply(t.(suspended := true, log := Notify(t, OnSuspended)), Ok(()))
  }

  /** `restart`: a no-op when not suspended; PTRACE_CONT's result is
      ignored. */
  function Restart(t: ThreadState): ThreadState {
    if !t.suspended then t
    else t.(suspended := false, log := Notify(t, OnRestart))
  }

  /** `getResumeAddress`: returns the address and clears the field. */
  function GetResumeAddress(t: ThreadState): (r: Reply<Address>)
    ensures r.result.Err? ==> r.after == t
  {
    if t.swapping then Reply(t, Err(ThreadIsSwapping))
    else Reply(t.(resumeAddress := 0), Ok(t.resumeAddress))
  }

  function GetReturnAddress(t: ThreadState): Result<Address, ThreadError> {
    if t.swapping then Err(ThreadIsSwapping) else Ok(t.returnAddress)
  }

  function ShouldTerminate(t: ThreadState): Result<bool, ThreadError> {
    if t.swapping then Err(ThreadIsSwapping) else Ok(t.terminate)
  }

  /** The checks the setters make before they touch anything: swapping,
      then finished. */
  function SetterGuard(t: ThreadState): Option<ThreadError> {
    if t.swapping then Some(ThreadIsSwapping)
    else if t.finished then Some(ThreadFinished)
    else None
  }

  /** The shape the three setters share: guard, suspend, write, restart. */
  function Bracketed(t: ThreadState, caller: ThreadId, write: ThreadState -> ThreadState): (r: Reply<()>)
    ensures r.result.Err? ==> r.after == t
  {
    match SetterGuard(t)
    case Some(e) => Reply(t, Err(e))
    case None =>
      var s := Suspend(t, caller);
      if s.result.Err? then Reply(t, Err(s.result.error))
      else Reply(Restart(write(s.after)), Ok(()))
  }

  /** `setShouldTerminate`. */
  function SetShouldTerminate(t: ThreadState, flag: bool, caller: ThreadId): (r: Reply<()>)
    ensures r.result.Err? ==> r.after == t
  {
    Bracketed(t, caller, (s: ThreadState) => s.(terminate := flag))
  }

  /** `setResumeAddress`: the address is installed only while waiting; in
      the started state the register write is an empty branch. */
  function SetResumeAddress(t: ThreadState, address: Address, caller: ThreadId): (r: Reply<()>)
    ensures r.result.Err? ==> r.after == t
  {
    Bracketed(t, caller, (s: ThreadState) => if s.waiting then s.(resumeAddress := address) else s)
  }

  /** `setReturnAddress`: the address is installed unconditionally. */
  function SetReturnAddress(t: ThreadState, address: Address, caller: ThreadId): (r: Reply<()>)
    ensures r.result.Err? ==> r.after == t
  {
    Bracketed(t, caller, (s: ThreadState) => s.(returnAddress := address))
  }

  /** `swap(link)`: refuse a finished thread, then the thread itself; raise
      `swapping`, suspend, keep the old link, install the new one (the
      resume address only when not started, else clear it), restart and
      lower `swapping`. */
  function Swap(t: ThreadState, link: Link, caller: ThreadId): (r: Reply<Link>)
    ensures r.result.Err? ==> r.after == t
  {
    if t.finished then Reply(t, Err(ThreadFinished))
    else if t.threadID == caller then Reply(t, Err(ThreadSwapSelf))
    else
      var s := Suspend(t.(swapping := true), caller).after;
      var previous := Link(s.resumeAddress, s.returnAddress, s.terminate);
      var s1 := s.(resumeAddress := if !s.started then link.resumeAddress else 0);
      var s2 := s1.(returnAddress := link.returnAddress, terminate := link.terminate);
      Reply(Restart(s2).(swapping := false), Ok(previous))
  }

  /** The entry of `Execution`, after the trace request: announce creation. */
  function Enter(t: ThreadState): ThreadState {
    t.(log := Notify(t, OnCreated))
  }

  /** The WAIT label: mark waiting, clear started, announce. */
  function EnterWait(t: ThreadState): ThreadState {
    t.(waiting := true, started := false, log := Notify(t, OnWaiting))
  }

  /** The routine's two locals as the wait loop leaves them, with the flag
      `shouldWait`. */
  datatype Poll = Poll(after: ThreadState, resumeAddress: Address, shouldTerminate: bool, shouldWait: bool)

  /** One pass of the do/while body: `shouldTerminate` is only asked for
      when the consumed resume address is null (`&&` short-circuits), and a
      thrown exception keeps the loop waiting with the locals unchanged. */
  function PollOnce(t: ThreadState, resumeAddress: Address, shouldTerminate: bool): Poll {
    var g := GetResumeAddress(t);
    match g.result
    case Err(_) => Poll(t, resumeAddress, shouldTerminate, true)
    case Ok(a) =>
      if a != 0 then Poll(g.after, a, shouldTerminate, false)
      else
        match ShouldTerminate(g.after)
        case Err(_) => Poll(g.after, 0, shouldTerminate, true)
        case Ok(b) => Poll(g.after, 0, b, !b)
  }

  /** A controller operation made by another thread while the routine
      yields. */
  datatype ControllerOp =
    | Idle
    | SuspendOp
    | RestartOp
    | SetResumeOp(address: Address)
    | SetReturnOp(address: Address)
    | SetTerminateOp(flag: bool)
    | SwapOp(link: Link)

  function Apply(t: ThreadState, op: ControllerOp, caller: ThreadId): ThreadState {
    match op
    case Idle => t
    case SuspendOp => Suspend(t, caller).after
    case RestartOp => Restart(t)
    case SetResumeOp(a) => SetResumeAddress(t, a, caller).after
    case SetReturnOp(a) => SetReturnAddress(t, a, caller).after
    case SetTerminateOp(b) => SetShouldTerminate(t, b, caller).after
    case SwapOp(link) => Swap(t, link, caller).after
  }

  datatype WaitOutcome =
    | Left(after: ThreadState, resumeAddress: Address, shouldTerminate: bool)
    | StillWaiting(after: ThreadState)

  /** The do/while wait loop; `ops[i]` is made by a controller after the
      (i+1)-th pass. It is left only with a consumed non-null address (the
      terminate local untouched) or with a null one and terminate set, and
      the field it consumed is null afterwards. */
  function WaitLoop(t: ThreadState, resumeAddress: Address, shouldTerminate: bool,
                    ops: seq<ControllerOp>, caller: ThreadId): (w: WaitOutcome)
    ensures !shouldTerminate && w.Left? ==>
      (w.resumeAddress != 0 && !w.shouldTerminate) || (w.resumeAddress == 0 && w.shouldTerminate)
    ensures w.Left? ==> w.after.resumeAddress == 0
    decreases |ops|
  {
    var p := PollOnce(t, resumeAddress, shouldTerminate);
    if !p.shouldWait then Left(p.after, p.resumeAddress, p.shouldTerminate)
    else if ops == [] then StillWaiting(p.after)
    else WaitLoop(Apply(p.after, ops[0], caller), p.resumeAddress, p.shouldTerminate, ops[1..], caller)
  }

  /** Where `Execution` ends up: jumped into a job that will return to
      `returnTo`, finished at EXIT, still waiting, or thrown out. */
  datatype ExecutionExit =
    | JumpedTo(target: Address, returnTo: Address)
    | Finished
    | StillPolling
    | Threw(error: ThreadError)

  /** The EXIT label: clear waiting and started, set finished, announce. */
  function Exit(t: ThreadState): ThreadState {
    t.(waiting := false, started := false, finished := true, log := Notify(t, OnFinished))
  }

  /** Controller operations made one after another while the routine runs
      between two of its own calls. */
  function ApplyAll(t: ThreadState, ops: seq<ControllerOp>, caller: ThreadId): ThreadState
    decreases |ops|
  {
    if ops == [] then t else ApplyAll(Apply(t, ops[0], caller), ops[1..], caller)
  }

  /** The start of a job: mark started, set the return address to the EXIT
      or WAIT label (by `self`, the routine's own thread) and announce
      OnStarted. An exception from `setReturnAddress` escapes the routine. */
  function Start(t: ThreadState, shouldTerminate: bool, self: ThreadId,
                 waitLabel: Address, exitLabel: Address): (ThreadState, Option<ThreadError>) {
    var s := t.(waiting := false, started := true);
    var r := SetReturnAddress(s, if shouldTerminate then exitLabel else waitLabel, self);
    match r.result
    case Err(e) => (r.after, Some(e))
    case Ok(_) => (r.after.(log := Notify(r.after, OnStarted)), None)
  }

  /** The code after the wait loop, whose calls are separate from the
      loop's: `afterLoop` is made by controllers before the routine goes on,
      `beforeJump` after OnStarted and before the jump reads the return
      address. Without an address go to EXIT; otherwise start the job and
      jump, returning to whatever return address is set by then. */
  function AfterWait(t: ThreadState, resumeAddress: Address, shouldTerminate: bool,
                     self: ThreadId, waitLabel: Address, exitLabel: Address,
                     afterLoop: seq<ControllerOp>, beforeJump: seq<ControllerOp>,
                     caller: ThreadId): (ThreadState, ExecutionExit) {
    var t0 := ApplyAll(t, afterLoop, caller);
    if resumeAddress == 0 then (Exit(t0), Finished)
    else
      match Start(t0, shouldTerminate, self, waitLabel, exitLabel)
      case (s, Some(e)) => (s, Threw(e))
      case (s, None) =>
        var s1 := ApplyAll(s, beforeJump, caller);
        (s1, JumpedTo(resumeAddress, s1.returnAddress))
  }

  /** `Execution` from the WAIT label with its locals as they stand there
      (on first arrival: null address, no termination). */
  function FromWait(t: ThreadState, resumeAddress: Address, shouldTerminate: bool,
                    ops: seq<ControllerOp>, caller: ThreadId,
                    self: ThreadId, waitLabel: Address, exitLabel: Address,
                    afterLoop: seq<ControllerOp>, beforeJump: seq<ControllerOp>): (ThreadState, ExecutionExit) {
    match WaitLoop(EnterWait(t), resumeAddress, shouldTerminate, ops, caller)
    case StillWaiting(s) => (s, StillPolling)
    case Left(s, a, b) => AfterWait(s, a, b, self, waitLabel, exitLabel, afterLoop, beforeJump, caller)
  }

  /** `Execution` from its entry. */
  function Execution(t: ThreadState, ops: seq<ControllerOp>, caller: ThreadId,
                     self: ThreadId, waitLabel: Address, exitLabel: Address,
                     afterLoop: seq<ControllerOp>, beforeJump: seq<ControllerOp>): (ThreadState, ExecutionExit) {
    FromWait(Enter(t), 0, false, ops, caller, self, waitLabel, exitLabel, afterLoop, beforeJump)
  }

  /** One pass of the destructor's termination request: with an exit
      address, suspend and restart (no member ever sets an exit address, so
      this branch is unreachable; were `suspend` to throw there, the
      `noexcept` destructor would abort the program, which the model, keeping
      the fields and leaving the loop, does not capture); otherwise ask
      `shouldTerminate` and call `setShouldTerminate(true)` only when it
      already answered true. Returns whether the loop goes round again;
      exceptions are caught and mean "again". */
  function DestroyAttempt(t: ThreadState, caller: ThreadId): (ThreadState, bool) {
    if t.exitAddress != 0 then
      var s := Suspend(t, caller);
      (if s.result.Ok? then Restart(s.after) else t, false)
    else
      match ShouldTerminate(t)
      case Err(_) => (t, true)
      case Ok(b) =>
        var tryTerminate := !b;
        if !tryTerminate then
          var r := SetShouldTerminate(t, true, caller);
          (r.after, r.result.Err?)
        else (t, tryTerminate)
  }

  /** The destructor's final clearing of every field. */
  function Cleared(t: ThreadState): ThreadState {
    ThreadState(0, 0, 0, 0, 0, false, false, false, false, false, false, t.log)
  }
}
