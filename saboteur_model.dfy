/** A value model of the bookkeeping of `Opal::Saboteur`
    (src/saboteur/Saboteur.cpp): one state word, one execution address and
    the callbacks its observer receives. Tracing, signals, registers and the
    inline-assembly jumps are not modelled; the calling OS thread's id
    (`GetProcessId`) is a parameter. Each method of the class in module `Opal`
    is proved against the function it names in its `ensures`. */
module SaboteurModel {
  import opened Results
  import opened SaboteurStates

  /** A code address; 0 is the null pointer. */
  type Address = nat

  /** An OS thread id as returned by the `gettid` system call. */
  type ThreadId = nat

  datatype SaboteurError =
    | SaboteurIsSwapping
    | SaboteurFinished
    | SaboteurSwapSelf
    | SaboteurSuspendSelf

  /** The fields of a Saboteur that the core reads or writes. `observer` is
      the observer pointer (0 when there is none); `log` is the sequence of
      callbacks that observer has received. */
  datatype Context = Context(
    threadID: ThreadId,
    state: State,
    observer: Address,
    executionAddress: Address,
    log: seq<Event>)

  /** The state words `setStateTo` can leave behind when it is only ever
      asked for the states the source passes it. */
  predicate Reachable(s: State) {
    s in {CLEAR, CREATED, WAITING, STARTED, SUSPENDED, TERMINATED}
  }

  /** The observer's log after `observer->e(this)` guarded by `if(observer)`. */
  function Notify(c: Context, e: Event): seq<Event> {
    if c.observer != 0 then c.log + [e] else c.log
  }

  /** `isIn`: `!(this->state ^ state)`. */
  function IsIn(c: Context, s: State): (b: bool)
    ensures b <==> c.state == s
  {
    c.state ^ s == 0
  }

  /** `setStateTo`: the single state transition. */
  function SetStateTo(c: Context, s: State): Context {
    if c.state == s then c
    else if s ^ RESUMING == 0 then c.(state := STARTED, log := Notify(c, OnResume))
    else
      match Callback(s)
      case Some(e) => c.(state := s, log := Notify(c, e))
      case None => c.(state := s)
  }

  /** `checkErrorState(state)`: the tests are made on the PARAMETER, which
      shadows the member `state`; the second thread-id test repeats the first
      and can never fire. */
  function CheckErrorState(mask: State, threadID: ThreadId, caller: ThreadId): Option<SaboteurError> {
    if mask & SWAPPING != 0 then Some(SaboteurIsSwapping)
    else if mask & TERMINATED != 0 then Some(SaboteurFinished)
    else if threadID == caller then Some(SaboteurSwapSelf)
    else if threadID == caller then Some(SaboteurSuspendSelf)
    else None
  }

  /** `Suspend`: the self-suspend check and the SIGSTOP are commented out. */
  function Suspend(c: Context): Context {
    if IsIn(c, SUSPENDED) then c else SetStateTo(c, SUSPENDED)
  }

  /** `Resume`: the suspended check is commented out and the result of
      PTRACE_CONT is ignored. */
  function Resume(c: Context): Context {
    SetStateTo(c, RESUMING)
  }

  /** The mask `swap` hands to `checkErrorState`:
      TERMINATED | SELF_SWAP | SELF_SUSPEND | SUICIDE. */
  const SWAP_CHECKS: State := TERMINATED | SELF_SWAP | SELF_SUSPEND | SUICIDE

  /** What `swap` does once `checkErrorState` has returned: suspend unless
      suspended, read the previous address, call the empty
      `setExecutionAddress`, resume when asked. The previous address is
      returned with the new context. */
  function SwapPastCheck(c: Context, address: Address, resume: bool): (Context, Address) {
    var c1 := if !IsIn(c, SUSPENDED) then Suspend(c) else c;
    var previous := c1.executionAddress;
    var c2 := SetExecutionAddress(c1, address);
    (if resume then Resume(c2) else c2, previous)
  }

  /** `setExecutionAddress`: its body is empty. */
  function SetExecutionAddress(c: Context, address: Address): Context {
    c
  }

  /** `swap(executionAddress, resume = false)`. */
  function Swap(c: Context, address: Address, resume: bool, caller: ThreadId): (Context, Result<Address, SaboteurError>) {
    match CheckErrorState(SWAP_CHECKS, c.threadID, caller)
    case Some(e) => (c, Err(e))
    case None =>
      var (c1, previous) := SwapPastCheck(c, address, resume);
      (c1, Ok(previous))
  }

  /** `push(executionAddress, resume = false)`. `RegistersOf(this)` suspends
      the context (the register read itself is not modelled); the branch
      guarded by `isIn(WAITING) || true` is always taken, so the register
      patch of the `else` branch never happens. */
  function Push(c: Context, address: Address, resume: bool): Context {
    var c1 := Suspend(c);
    var c2 := if IsIn(c1, WAITING) || true then c1.(executionAddress := address) else c1;
    if resume then Resume(c2) else c2
  }

  function IsWaiting(c: Context): bool { IsIn(c, WAITING) }
  function IsSuspended(c: Context): bool { IsIn(c, SUSPENDED) }
  function IsTerminated(c: Context): bool { IsIn(c, TERMINATED) }
  function WillTerminate(c: Context): bool { IsIn(c, TERMINATE) }

  /** `Create`, after `clone`, the trace seizure and `wait`: `Resume` and
      then `setStateTo(CREATED)`. */
  function Create(c: Context): Context {
    SetStateTo(Resume(c), CREATED)
  }

  /** The one-time set-up at the top of `Execution`, taken when the state
      word is still zero: record the thread's own id, then `Suspend`. */
  function ExecutionSetup(c: Context, self: ThreadId): Context {
    if c.state == 0 then Suspend(c.(threadID := self)) else c
  }

  /** One evaluation of the wait-loop condition
      `!(setStateTo(WAITING).getExecutionAddress()) && !isIn(TERMINATE)`;
      the flag says whether to keep waiting. */
  function Poll(c: Context): (Context, bool) {
    var c1 := SetStateTo(c, WAITING);
    (c1, c1.executionAddress == 0 && !IsIn(c1, TERMINATE))
  }

  /** A controller operation made by another thread between two polls. */
  datatype ControllerOp =
    | Idle
    | SuspendOp
    | ResumeOp
    | PushOp(address: Address, resume: bool)
    | SwapOp(address: Address, resume: bool)

  function Apply(c: Context, op: ControllerOp, caller: ThreadId): Context {
    match op
    case Idle => c
    case SuspendOp => Suspend(c)
    case ResumeOp => Resume(c)
    case PushOp(a, r) => Push(c, a, r)
    case SwapOp(a, r) => Swap(c, a, r, caller).0
  }

  /** How the wait loop ended: it left the loop, or the interleaved
      operations ran out while it was still polling. */
  datatype WaitOutcome = Left(after: Context) | StillWaiting(after: Context)

  /** The wait loop of `Execution`, with `ops[i]` made by a controller after
      the (i+1)-th poll; each `Yield` lets one operation in. */
  function WaitLoop(c: Context, ops: seq<ControllerOp>, caller: ThreadId): (w: WaitOutcome)
    decreases |ops|
  {
    var (c1, keepWaiting) := Poll(c);
    if !keepWaiting then Left(c1)
    else if ops == [] then StillWaiting(c1)
    else WaitLoop(Apply(c1, ops[0], caller), ops[1..], caller)
  }

  /** Controller operations made one after another while the routine
      runs between two of its own calls. */
  function ApplyAll(c: Context, ops: seq<ControllerOp>, caller: ThreadId): Context
    decreases |ops|
  {
    if ops == [] then c else ApplyAll(Apply(c, ops[0], caller), ops[1..], caller)
  }

  /** Where `Execution` goes once the loop is left. */
  datatype ExecutionExit =
    | JumpedTo(address: Address)
    | Returned
    | StillPolling

  /** The code after the wait loop, whose calls are separate from the
      loop's: `afterLoop` is made by controllers before the routine reads
      the execution address again, and `beforeJump` before the routine
      stores STARTED and reads the address it jumps to. With an address it
      stores STARTED and jumps there; otherwise it stores TERMINATED and
      returns. */
  function AfterWait(c: Context, afterLoop: seq<ControllerOp>, beforeJump: seq<ControllerOp>,
                     caller: ThreadId): (Context, ExecutionExit) {
    var c0 := ApplyAll(c, afterLoop, caller);
    if c0.executionAddress != 0 then
      var c1 := SetStateTo(ApplyAll(c0, beforeJump, caller), STARTED);
      (c1, JumpedTo(c1.executionAddress))
    else (SetStateTo(c0, TERMINATED), Returned)
  }

  /** One run of `Execution` from its entry up to the jump or the return. */
  function Execution(c: Context, self: ThreadId, ops: seq<ControllerOp>, caller: ThreadId,
                     afterLoop: seq<ControllerOp>, beforeJump: seq<ControllerOp>): (Context, ExecutionExit) {
    match WaitLoop(ExecutionSetup(c, self), ops, caller)
    case StillWaiting(c1) => (c1, StillPolling)
    case Left(c1) => AfterWait(c1, afterLoop, beforeJump, caller)
  }

  /** The destructor's final clearing (after its wait for TERMINATED). */
  function Cleared(c: Context): Context {
    c.(executionAddress := 0, observer := 0, threadID := 0, state := 0)
  }
}
