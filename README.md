# saboteur-cpp: execution-context bookkeeping in Dafny

The repository defines two near-duplicate execution contexts. Each one runs
code at an address on a separate OS thread and reports its life cycle to an
observer:

- `Opal::Saboteur` keeps one 64-bit `state` word, drawn from the constants
  CLEAR … ATTACHED, and an `executionAddress`.
- `ProcessJ::Thread` keeps the boolean flags `terminate`, `swapping`,
  `waiting`, `started`, `finished` and `suspended`, plus a resume/return
  address pair.

This project models the sequential state and flag bookkeeping of both
classes. It does not model the OS plumbing underneath.

Each class is modelled twice, as a value model and as an imperative class:

- `Opal::Saboteur`: the value model is `SaboteurStates` (the constants and
  the callback for each state) plus `SaboteurModel`; the properties are in
  `SaboteurProperties`; the class is `Opal.Saboteur`.
- `ProcessJ::Thread`: the value model is `ThreadModel`; the properties are in
  `ThreadProperties`; the class is `ProcessJ.Thread`.

Each class method is proved to leave its fields as the function of the same
name in the value model prescribes. The properties modules prove what those
functions guarantee. `Results` holds the `Option` and `Result` types.

How the source is represented:

- Exceptions become `Err` results.
- The observer is an address (0 for none) plus `log`, the sequence of
  callbacks it has received.
- The calling OS thread's id (`GetProcessId`) is a parameter `caller`.
- Each method is atomic: the mutexes only serialise.
- The polling loops of the two `Execution` routines (each `Yield` lets other
  threads act) take a finite sequence of controller operations, one per
  yield. `StillPolling` means the sequence ran out before the loop was left.
- After the loop, two more sequences of controller operations land between
  the routine's own steps: `afterLoop` between the loop's exit and the
  routine's next read, and `beforeJump` just before the jump reads its
  addresses again.

The code is modelled as written, quirks included. The prose comments in the
source promise more than the code does:

- Saboteur `checkErrorState` tests the mask it is given, not the member
  `state`. Every named state word shares a bit with SWAPPING (and with
  TERMINATED), so `swap`
  always fails with SaboteurIsSwapping. Past that check, `setExecutionAddress`
  is empty anyway.
- Saboteur `Resume` has its suspended-check commented out. It therefore
  always stores STARTED and announces OnResume. In particular, suspending and
  then resuming a WAITING context does not give WAITING back.
- Saboteur `push` takes its `isIn(WAITING) || true` branch, so it always
  overwrites the address.
- No Saboteur operation ever stores TERMINATE. Hence `willTerminate` is always
  false, and `Execution` only leaves its wait loop with an address. It
  reaches TERMINATED only when a controller pushes a null address after the
  loop has been left and before the routine reads the address again.
  TERMINATED is also not final: `Suspend` leaves it.
- The Saboteur execution address is never consumed. After a job, the wait
  loop is left again at once.
- The Thread destructor's termination loop is inverted. It calls
  `setShouldTerminate(true)` only when the flag is already set, and it goes
  round unchanged while the flag is unset.
- In Thread `Execution`, `&&` short-circuits, so the terminate local is false
  whenever an address was taken. The routine therefore always sets the WAIT
  label as its return address. A controller's `setReturnAddress` or `swap`
  between OnStarted and the jump can still change the address the jump
  returns to.
- Thread `Execution` sets its own return address through `setReturnAddress`,
  which runs `suspend`'s self-check on the routine's own thread. When the
  recorded thread id is that thread's and no controller has suspended it,
  starting a job throws ThreadSuspendSelf out of the routine.

## Model

| member | source | states |
|---|---|---|
| SaboteurStates.Callback | src/saboteur/Saboteur.cpp:459-473 | the switch makes OnCreated, OnWaiting, OnStarted, OnSuspended, OnSuicide or OnTerminated exactly for CREATED, WAITING, STARTED, SUSPENDED, SUICIDE or TERMINATED, and nothing for any other word |
| SaboteurStates.StatesDistinct | include/saboteur/Saboteur.hpp:50-134 | the named states are pairwise distinct except ATTACHED, which equals CREATED; CLEAR is 0 and differs from all of them |
| SaboteurStates.StatesShareBits | include/saboteur/Saboteur.hpp:57-134 | every named state word contains the bits 0x801, so the bitwise AND of any two of them is nonzero |
| SaboteurStates.SharedBitsSurviveAnd | include/saboteur/Saboteur.hpp:57-134 | two words that both contain 0x801 have a nonzero AND |
| SaboteurModel.IsIn | src/saboteur/Saboteur.cpp:487-495 | `isIn(s)` (the XOR of the word and `s` is zero) holds iff the state word equals `s` |
| SaboteurProperties.SetStateToSameIsNoOp | src/saboteur/Saboteur.cpp:437 | storing the state already held changes nothing and makes no callback |
| SaboteurProperties.SetStateToResumingStoresStarted | src/saboteur/Saboteur.cpp:441-450 | RESUMING is stored as STARTED, with exactly one OnResume and the address untouched |
| SaboteurProperties.SetStateToStoresAndNotifies | src/saboteur/Saboteur.cpp:454-473 | any other new word is stored as given and announced by its own callback, or by none (TERMINATE, SWAPPING, …); id, observer and address are untouched |
| SaboteurProperties.SetStateToCallbackCount | src/saboteur/Saboteur.cpp:432-477 | the log keeps its prefix and grows by exactly one callback iff there is an observer, the word changes and the word is announced |
| SaboteurProperties.QueriesExclusive | src/saboteur/Saboteur.cpp:701-726 | `isWaiting`, `isSuspended`, `isTerminated` and `willTerminate` are mutually exclusive |
| SaboteurProperties.SuspendIdempotent | src/saboteur/Saboteur.cpp:193-206 | `Suspend` is idempotent; when already SUSPENDED it changes nothing, otherwise it stores SUSPENDED with one OnSuspended |
| SaboteurProperties.ResumeAlwaysStarts | src/saboteur/Saboteur.cpp:171-183 | `Resume` stores STARTED and announces OnResume whether or not the context was suspended |
| SaboteurProperties.SuspendResumeDoesNotRestore | src/saboteur/Saboteur.cpp:171-206 | suspending and then resuming a WAITING context leaves it STARTED, not WAITING |
| SaboteurProperties.TerminatedIsNotFinal | src/saboteur/Saboteur.cpp:171-206 | a TERMINATED context can still be suspended (SUSPENDED) or resumed (STARTED) |
| SaboteurProperties.PushOutcome | src/saboteur/Saboteur.cpp:579-645 | `push(a, r)` always installs `a`; it ends SUSPENDED, or STARTED when `r`, after the suspend's callback and one OnResume when resumed; the id is kept |
| SaboteurProperties.CheckErrorStateAlwaysSwapping | src/saboteur/Saboteur.cpp:401-423 | any mask containing the bits 0x801 makes `checkErrorState` fail with SaboteurIsSwapping |
| SaboteurProperties.SwapAlwaysFails | src/saboteur/Saboteur.cpp:546-549 | `swap` fails with SaboteurIsSwapping for every context, address and caller, changing nothing |
| SaboteurProperties.SwapPastCheckKeepsAddress | src/saboteur/Saboteur.cpp:546-566 | past its check, `swap` would keep the address (the setter is empty), return it as the previous one, and end SUSPENDED or STARTED as `resume` says |
| SaboteurProperties.CreateFromFreshContext | src/saboteur/Saboteur.cpp:268-310 | from CLEAR, `Create` ends in CREATED with the address kept, announcing OnResume before OnCreated |
| SaboteurProperties.RunStaysReachable | src/saboteur/Saboteur.cpp:432-477 | under any interleaving of controller operations and routine steps, the state word only holds CLEAR, CREATED, WAITING, STARTED, SUSPENDED or TERMINATED |
| SaboteurProperties.NeverWillTerminate | src/saboteur/Saboteur.cpp:701 | hence `willTerminate` is false in every reachable context |
| SaboteurProperties.RunOnlyAppends | src/saboteur/Saboteur.cpp:432-477 | every interleaving only appends to the observer log, never changes the observer, and logs nothing without one |
| SaboteurProperties.WaitLoopLeavesWithAddress | src/saboteur/Saboteur.cpp:360-361 | the wait loop is left only in WAITING with a non-null execution address |
| SaboteurProperties.ApplyAddress | src/saboteur/Saboteur.cpp:546-645 | of the controller operations only `push` changes the execution address, to the one it is given; `swap` fails first |
| SaboteurProperties.ApplyAllAddress | src/saboteur/Saboteur.cpp:546-645 | after a run of controller operations the execution address is the one before them or one that a `push` among them installed |
| SaboteurProperties.ExecutionTerminatesOnlyAfterNullPush | src/saboteur/Saboteur.cpp:325-390 | `Execution` returns through TERMINATED only when a null address was pushed after the wait loop was left, so never when nothing came between; when it jumps, the state is STARTED and the address is non-null unless a null address was pushed just before the jump |
| SaboteurProperties.NullPushAfterLoopTerminates | src/saboteur/Saboteur.cpp:360-385 | conversely, a null address pushed after the loop was left makes `Execution` return through TERMINATED |
| SaboteurProperties.PollAfterJobLeavesAtOnce | src/saboteur/Saboteur.cpp:360-361 | with an address set, a poll leaves the loop at once and keeps the address: it is never consumed |
| SaboteurProperties.ClearedIsZero | src/saboteur/Saboteur.cpp:150-156 | the destructor's clearing zeroes the state word, the address, the observer and the id |
| Opal.Saboteur.constructor | src/saboteur/Saboteur.cpp:124-132 | the observer constructor starts with a zero state word, a null address, id 0 and the given observer |
| Opal.Saboteur.WithAddress | include/saboteur/Saboteur.hpp:667-683 | the template constructors start from the given address, the given observer or null and a zero word, then run `Create` |
| Opal.Saboteur.Create | src/saboteur/Saboteur.cpp:268-310 | `Create` without its OS calls: `Resume`, then `setStateTo(CREATED)` |
| Opal.Saboteur.SetStateTo | src/saboteur/Saboteur.cpp:432-477 | the fields afterwards are those `SaboteurModel.SetStateTo` prescribes |
| Opal.Saboteur.IsIn | src/saboteur/Saboteur.cpp:487-495 | returns true iff the state word equals the argument |
| Opal.Saboteur.CheckErrorState | src/saboteur/Saboteur.cpp:401-423 | IsSwapping when the mask has SWAPPING's bits; otherwise Finished when it has TERMINATED's; otherwise SwapSelf when the caller is the thread and no error when not, so the duplicate SuspendSelf test is never reached; the result is `SaboteurModel.CheckErrorState`'s |
| Opal.Saboteur.Suspend | src/saboteur/Saboteur.cpp:193-206 | the fields afterwards are those `SaboteurModel.Suspend` prescribes |
| Opal.Saboteur.Resume | src/saboteur/Saboteur.cpp:171-183 | the fields afterwards are those `SaboteurModel.Resume` prescribes |
| Opal.Saboteur.GetExecutionAddress | src/saboteur/Saboteur.cpp:509-514 | returns the execution address |
| Opal.Saboteur.SetExecutionAddress | src/saboteur/Saboteur.cpp:524 | changes nothing |
| Opal.Saboteur.Swap | src/saboteur/Saboteur.cpp:546-566 | follows `SaboteurModel.Swap`, with `resume` defaulting to false; its result is always SaboteurIsSwapping |
| Opal.Saboteur.SwapPastCheck | src/saboteur/Saboteur.cpp:551-564 | the part of `swap` after the check, as `SaboteurModel.SwapPastCheck` prescribes |
| Opal.Saboteur.Push | src/saboteur/Saboteur.cpp:579-645 | follows `SaboteurModel.Push`, with `resume` defaulting to false |
| Opal.Saboteur.WillTerminate | src/saboteur/Saboteur.cpp:701 | true iff the word is TERMINATE |
| Opal.Saboteur.IsTerminated | src/saboteur/Saboteur.cpp:708 | true iff the word is TERMINATED |
| Opal.Saboteur.IsSuspended | src/saboteur/Saboteur.cpp:717 | true iff the word is SUSPENDED |
| Opal.Saboteur.IsWaiting | src/saboteur/Saboteur.cpp:726 | true iff the word is WAITING |
| Opal.Saboteur.ApplyAll | src/saboteur/Saboteur.cpp:171-645 | the controller operations `Suspend`, `Resume`, `push` and `swap`, run one after another, leave the fields as `SaboteurModel.ApplyAll` prescribes |
| Opal.Saboteur.Execution | src/saboteur/Saboteur.cpp:325-390 | the routine ends where `SaboteurModel.Execution` says: setup when the word is zero, then `setStateTo(WAITING)` and a poll per yield; after the loop, the address read afresh (after the `afterLoop` operations) decides between STARTED with the jump, which reads the address once more, and TERMINATED |
| Opal.Saboteur.Destroy | src/saboteur/Saboteur.cpp:150-156 | the fields afterwards are those `SaboteurModel.Cleared` prescribes, with the log kept |
| ThreadModel.WaitLoop | src/thread/Thread.cpp:556-583 | entered with the terminate local false, as `Execution` always does, the loop is left only with a non-null address and the terminate local false, or with a null address and it true; the consumed field is null afterwards |
| ThreadProperties.FreshIsZero | src/thread/Thread.cpp:103-126 | a new Thread has every flag false, every address null, the given observer and an empty log |
| ThreadProperties.ClearedIsFresh | src/thread/Thread.cpp:203-213 | the destructor's clearing gives the same fields as a new Thread without observer or id |
| ThreadProperties.DefaultLink | include/thread/Thread.hpp:115-121 | the default `Link` is a null resume address, a null return address and terminate false |
| ThreadProperties.GetResumeAddressConsumes | src/thread/Thread.cpp:226-251 | when not swapping, `getResumeAddress` returns the field and clears it, so a second call returns null |
| ThreadProperties.GettersFailOnlyWhileSwapping | src/thread/Thread.cpp:226-315 | the three getters throw ThreadIsSwapping exactly while swapping; `getReturnAddress` and `shouldTerminate` otherwise return their field |
| ThreadProperties.SuspendSpec | src/thread/Thread.cpp:449-468 | `suspend` is a no-op when suspended, throws SuspendSelf unchanged for the thread itself, and otherwise sets the flag with one OnSuspended; it is idempotent |
| ThreadProperties.RestartSpec | src/thread/Thread.cpp:478-492 | `restart` is a no-op unless suspended, otherwise clears the flag with one OnRestart; it is idempotent |
| ThreadProperties.SuspendRestartRoundTrip | src/thread/Thread.cpp:449-492 | suspending from another thread and then restarting an unsuspended thread restores every field, logging OnSuspended then OnRestart |
| ThreadProperties.SettersErrors | include/thread/Thread.hpp:429-504 | the setters throw, with no change, IsSwapping while swapping, then Finished when finished, then SuspendSelf for the unsuspended thread itself; otherwise they succeed |
| ThreadProperties.SettersEffect | include/thread/Thread.hpp:446-502 | on success the setters end unsuspended with their field written and nothing else changed; the resume address only when waiting, the return address and terminate flag always |
| ThreadProperties.SwapSpec | src/thread/Thread.cpp:370-439 | `swap` throws Finished, then SwapSelf, unchanged; otherwise it returns the old link, installs the new return address and flag, the new resume address only when not started (else null), and ends neither swapping nor suspended |
| ThreadProperties.SwapRoundTrip | src/thread/Thread.cpp:370-439 | on a thread that has not started, swapping the returned link back restores the old link and returns the new one |
| ThreadProperties.ApplyKeepsPhase | src/thread/Thread.cpp:328-492 | no controller operation changes `waiting`, `started` or `finished`, nor installs a resume address once the thread has started and stopped waiting |
| ThreadProperties.ApplyAllKeepsPhase | src/thread/Thread.cpp:328-492 | the same holds for any run of controller operations |
| ThreadProperties.ApplyAllReturnAddress | src/thread/Thread.cpp:370-504 | after a run of controller operations the return address is the one before them unless one of them was `setReturnAddress` or `swap` |
| ThreadProperties.FromWaitOutcome | src/thread/Thread.cpp:538-661 | from WAIT, a jump has a non-null target, leaves `waiting` false and `started` true, and returns to the WAIT label the routine sets unless a controller's `setReturnAddress` or `swap` came before the jump; with nothing between the loop and the start, no resume address is left; EXIT sets `finished` and clears `waiting` and `started`, and terminate is still set when nothing came between |
| ThreadProperties.StartThrowsOnOwnThread | src/thread/Thread.cpp:596-619 | starting a job throws exactly when the thread is swapping, finished, or unsuspended with the routine's own thread as its id; in that last case it throws ThreadSuspendSelf, with `waiting` false and `started` true |
| ThreadProperties.TerminateSeenIsStored | src/thread/Thread.cpp:564-565 | when the loop is left with a null address, the thread's `terminate` field is set |
| ThreadProperties.ExecutionAnnouncesCreatedThenWaiting | src/thread/Thread.cpp:532-553 | with an observer, `Execution` announces OnCreated then OnWaiting before anything else |
| ThreadProperties.ApplyOnlyAppends | src/thread/Thread.cpp:328-492 | every controller operation only appends to the log and keeps the observer |
| ThreadProperties.ApplyAllOnlyAppends | src/thread/Thread.cpp:328-492 | so does any run of them |
| ThreadProperties.WaitLoopOnlyAppends | src/thread/Thread.cpp:558-583 | so does the whole wait loop |
| ThreadProperties.RunKeepsSettled | src/thread/Thread.cpp:370-492 | under any interleaving, `swapping` is never left raised, `finished` stays set, and with an observer the last OnSuspended/OnRestart logged agrees with `suspended` |
| ThreadProperties.FinishedRefusesChanges | src/thread/Thread.cpp:370-376 | a finished thread refuses `swap` and the three setters with ThreadFinished, changing nothing |
| ThreadProperties.DestroyAttemptWaitsForTerminate | src/thread/Thread.cpp:149-178 | with no exit address and terminate unset, a destructor pass changes nothing and goes round again; with terminate set it stops and keeps the flag |
| ProcessJ.Thread.constructor | src/thread/Thread.cpp:103-126 | every field at its initial value, with the given observer and the OS thread handle as id |
| ProcessJ.Thread.WithAddress | include/thread/Thread.hpp:376-416 | as above, but the resume address is the slot holding the given address |
| ProcessJ.Thread.Suspend | src/thread/Thread.cpp:449-468 | fields and result as `ThreadModel.Suspend` prescribes |
| ProcessJ.Thread.Restart | src/thread/Thread.cpp:478-492 | fields as `ThreadModel.Restart` prescribes |
| ProcessJ.Thread.GetResumeAddress | src/thread/Thread.cpp:226-251 | fields and result as `ThreadModel.GetResumeAddress` prescribes |
| ProcessJ.Thread.GetReturnAddress | src/thread/Thread.cpp:261-282 | throws IsSwapping while swapping; otherwise returns the return address |
| ProcessJ.Thread.ShouldTerminate | src/thread/Thread.cpp:294-315 | throws IsSwapping while swapping; otherwise returns the terminate flag |
| ProcessJ.Thread.SetShouldTerminate | src/thread/Thread.cpp:328-352 | fields and result as `ThreadModel.SetShouldTerminate` prescribes |
| ProcessJ.Thread.SetResumeAddress | include/thread/Thread.hpp:428-461 | fields and result as `ThreadModel.SetResumeAddress` prescribes |
| ProcessJ.Thread.SetReturnAddress | include/thread/Thread.hpp:473-504 | fields and result as `ThreadModel.SetReturnAddress` prescribes |
| ProcessJ.Thread.Swap | src/thread/Thread.cpp:370-439 | fields and result as `ThreadModel.Swap` prescribes |
| ProcessJ.Thread.PollOnce | src/thread/Thread.cpp:558-583 | one pass of the do/while, as `ThreadModel.PollOnce` prescribes |
| ProcessJ.Thread.WaitLoop | src/thread/Thread.cpp:556-583 | the do/while loop ends as `ThreadModel.WaitLoop` says |
| ProcessJ.Thread.ApplyAll | src/thread/Thread.cpp:328-492 | the controller operations run one after another leave the fields as `ThreadModel.ApplyAll` prescribes |
| ProcessJ.Thread.Start | src/thread/Thread.cpp:596-619 | the STARTED label: the started state, the routine's own `setReturnAddress` and OnStarted, as `ThreadModel.Start` prescribes |
| ProcessJ.Thread.AfterWait | src/thread/Thread.cpp:592-661 | after the `afterLoop` operations, the EXIT label, or the start and, after the `beforeJump` operations, the jump to the job with the return address read afresh, as `ThreadModel.AfterWait` prescribes |
| ProcessJ.Thread.Execution | src/thread/Thread.cpp:503-666 | the routine ends as `ThreadModel.Execution` says |
| ProcessJ.Thread.DestroyAttempt | src/thread/Thread.cpp:136-178 | one pass of the destructor's first part, as `ThreadModel.DestroyAttempt` prescribes |
| ProcessJ.Thread.Destroy | src/thread/Thread.cpp:201-213 | every field cleared, as `ThreadModel.Cleared` prescribes |

## Left out

- OS calls: `clone`, `pthread_create`, `wait`, every `ptrace` request, `kill` and `StopProcess`. They are no-ops here, and their results (ignored by the code) are not modelled.
- The registers: `RegistersOf`/`SetRegistersOf`, the rip patch in `push`'s dead `else` branch, the `Push`/`Pop`/`Traverse`/`GetLastStack` macros and the final jump in Thread `Execution`. A jump ends the modelled run, as `JumpedTo`.
- The external `Lifecycle` routine that the Saboteur constructors call, and the Saboteur stack allocation in `Create`.
- `GetProcessId` becomes a parameter. The Thread's id is whatever OS handle `create` records (`osHandle`).
- Concurrency: the mutexes and `Yield`. Each method is atomic, and each wait-loop iteration is one step.
- Opal.Saboteur.Execution: the unbounded wait loop is bounded by the given sequence of controller operations. A run that outlives it ends as `StillPolling`. Controller operations land after the loop and before the jump, not between `setStateTo(STARTED)` and the address it then reads.
- ProcessJ.Thread.Execution: bounded in the same way. Controller operations land only after the loop and after OnStarted; the steps between the flag update and `setReturnAddress`, and the `getReturnAddress` that only feeds a log line, are merged with their neighbours. The trace request and its ProcessAttachFailure path, the ThreadHandleNull check and the LostSaboteur check on the Saboteur side are left out, because the handle is always the object itself.
- The destructors' wait-until-TERMINATED (Saboteur) and wait-until-finished (Thread) loops. They only yield; `Destroy` models the clearing that follows them. The Thread's termination loop is modelled one pass at a time (`DestroyAttempt`).
- `pop` and `place`: their bodies are empty in non-void functions, so they have no defined result.
- The observer internals, that is the hand-built vtable of `SaboteurObserver` and the pure-virtual `ThreadObserver`. They become the append-only `log`.
- ProcessJ.Thread.WithAddress: the template constructors store the location of a local array, which dangles once the constructor returns. The model only records that location as `slot`, not what it points to.
- Logging through `std::cout` and `perror`, the demos, the clone-flag constants and the configuration structs.
