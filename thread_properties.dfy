/** What the Thread's flag bookkeeping guarantees, stated over the value
    model of module `ThreadModel`. */
module ThreadProperties {
  import opened Results
  import opened ThreadModel

  /** A freshly constructed Thread has every flag false and every address
      null; the destructor puts every field back to that state. */
  lemma FreshIsZero(observer: Address, threadID: ThreadId)
    ensures var t := Fresh(observer, threadID);
      !t.terminate && !t.swapping && !t.waiting && !t.started && !t.finished && !t.suspended &&
      t.resumeAddress == 0 && t.returnAddress == 0 && t.exitAddress == 0 &&
      t.observer == observer && t.log == []
  {
  }

  lemma ClearedIsFresh(t: ThreadState)
    ensures Cleared(t) == Fresh(0, 0).(log := t.log)
  {
  }

  /** The default `Link`. */
  lemma DefaultLink()
    ensures Link() == Link(0, 0, false)
  {
  }

  /** `getResumeAddress` consumes the address: it is handed out once and
      a second call returns null. */
  lemma GetResumeAddressConsumes(t: ThreadState)
    requires !t.swapping
    ensures GetResumeAddress(t).result == Ok(t.resumeAddress)
    ensures GetResumeAddress(t).after == t.(resumeAddress := 0)
    ensures GetResumeAddress(GetResumeAddress(t).after).result == Ok(0)
  {
  }

  /** `getResumeAddress`, `getReturnAddress` and `shouldTerminate` throw
      ThreadIsSwapping exactly while swapping; the latter two never change
      anything. */
  lemma GettersFailOnlyWhileSwapping(t: ThreadState)
    ensures GetResumeAddress(t).result.Err? <==> t.swapping
    ensures GetReturnAddress(t) == if t.swapping then Err(ThreadIsSwapping) else Ok(t.returnAddress)
    ensures ShouldTerminate(t) == if t.swapping then Err(ThreadIsSwapping) else Ok(t.terminate)
  {
  }

  /** `suspend`: a no-op when suspended; refuses the thread itself without
      change; otherwise sets the flag with one OnSuspended. */
  lemma SuspendSpec(t: ThreadState, caller: ThreadId)
    ensures t.suspended ==> Suspend(t, caller) == Reply(t, Ok(()))
    ensures !t.suspended && t.threadID == caller ==> Suspend(t, caller) == Reply(t, Err(ThreadSuspendSelf))
    ensures !t.suspended && t.threadID != caller ==>
      Suspend(t, caller) == Reply(t.(suspended := true, log := Notify(t, OnSuspended)), Ok(()))
    ensures Suspend(Suspend(t, caller).after, caller).after == Suspend(t, caller).after
  {
  }

  /** `restart`: a no-op unless suspended; then clears the flag with one
      OnRestart. Idempotent. */
  lemma RestartSpec(t: ThreadState)
    ensures !t.suspended ==> Restart(t) == t
    ensures t.suspended ==> Restart(t) == t.(suspended := false, log := Notify(t, OnRestart))
    ensures Restart(Restart(t)) == Restart(t)
  {
  }

  /** For a thread that is not suspended, `suspend` by another thread
      followed by `restart` restores every field; only the two callbacks
      remain in the log. */
  lemma SuspendRestartRoundTrip(t: ThreadState, caller: ThreadId)
    requires !t.suspended && t.threadID != caller
    ensures Restart(Suspend(t, caller).after).(log := t.log) == t
    ensures t.observer != 0 ==> Restart(Suspend(t, caller).after).log == t.log + [OnSuspended, OnRestart]
  {
  }

  /** The three setters fail, without change, with ThreadIsSwapping while
      swapping, then with ThreadFinished once finished, then with
      ThreadSuspendSelf when the thread calls them on itself unsuspended. */
  lemma SettersErrors(t: ThreadState, address: Address, flag: bool, caller: ThreadId)
    ensures var e := if t.swapping then Some(ThreadIsSwapping)
                     else if t.finished then Some(ThreadFinished)
                     else if !t.suspended && t.threadID == caller then Some(ThreadSuspendSelf)
                     else None;
      && (e.Some? ==> SetResumeAddress(t, address, caller) == Reply(t, Err(e.value)))
      && (e.Some? ==> SetReturnAddress(t, address, caller) == Reply(t, Err(e.value)))
      && (e.Some? ==> SetShouldTerminate(t, flag, caller) == Reply(t, Err(e.value)))
      && (e.None? ==> SetResumeAddress(t, address, caller).result.Ok?)
      && (e.None? ==> SetReturnAddress(t, address, caller).result.Ok?)
      && (e.None? ==> SetShouldTerminate(t, flag, caller).result.Ok?)
  {
  }

  /** On success the setters write their field and end unsuspended, with
      every other field as before: `setResumeAddress` only writes while
      waiting, `setReturnAddress` and `setShouldTerminate` always do. */
  lemma SettersEffect(t: ThreadState, address: Address, flag: bool, caller: ThreadId)
    ensures var r := SetResumeAddress(t, address, caller);
      r.result.Ok? ==>
        r.after.(log := t.log) == t.(suspended := false, resumeAddress := if t.waiting then address else t.resumeAddress)
    ensures var r := SetReturnAddress(t, address, caller);
      r.result.Ok? ==> r.after.(log := t.log) == t.(suspended := false, returnAddress := address)
    ensures var r := SetShouldTerminate(t, flag, caller);
      r.result.Ok? ==> r.after.(log := t.log) == t.(suspended := false, terminate := flag)
  {
  }

  /** `swap` fails with ThreadFinished, then ThreadSwapSelf, before any
      change; otherwise it returns the old link, installs the new return
      address and terminate flag, the new resume address only when not
      started (else null), and ends neither swapping nor suspended. */
  lemma SwapSpec(t: ThreadState, link: Link, caller: ThreadId)
    ensures t.finished ==> Swap(t, link, caller) == Reply(t, Err(ThreadFinished))
    ensures !t.finished && t.threadID == caller ==> Swap(t, link, caller) == Reply(t, Err(ThreadSwapSelf))
    ensures !t.finished && t.threadID != caller ==>
      var r := Swap(t, link, caller);
      && r.result == Ok(Link(t.resumeAddress, t.returnAddress, t.terminate))
      && r.after.(log := t.log) ==
           t.(resumeAddress := if t.started then 0 else link.resumeAddress,
              returnAddress := link.returnAddress, terminate := link.terminate,
              swapping := false, suspended := false)
  {
  }

  /** Swapping the old link back in after a swap restores the link of a
      thread that is not started. */
  lemma SwapRoundTrip(t: ThreadState, link: Link, caller: ThreadId)
    requires !t.finished && t.threadID != caller && !t.started
    ensures var r := Swap(t, link, caller);
      var r2 := Swap(r.after, r.result.value, caller);
      r2.result == Ok(link) &&
      r2.after.resumeAddress == t.resumeAddress && r2.after.returnAddress == t.returnAddress &&
      r2.after.terminate == t.terminate
  {
    SwapSpec(t, link, caller);
    var r := Swap(t, link, caller);
    SwapSpec(r.after, r.result.value, caller);
  }

  // ---------------------------------------------------------------------
  // The routine's state machine

  /** Controller operations never change the routine's phase flags, and
      once the routine has started they cannot install a resume address
      (`setResumeAddress` writes only while waiting, `swap` clears it). */
  lemma ApplyKeepsPhase(t: ThreadState, op: ControllerOp, caller: ThreadId)
    ensures var s := Apply(t, op, caller);
      s.waiting == t.waiting && s.started == t.started && s.finished == t.finished
    ensures t.started && !t.waiting && t.resumeAddress == 0 ==> Apply(t, op, caller).resumeAddress == 0
  {
    match op
    case SetTerminateOp(b) =>
      var g := (s: ThreadState) => s.(terminate := b);
      assert Apply(t, op, caller) == Bracketed(t, caller, g).after;
    case SetResumeOp(a) =>
      var g := (s: ThreadState) => if s.waiting then s.(resumeAddress := a) else s;
      assert Apply(t, op, caller) == Bracketed(t, caller, g).after;
    case SetReturnOp(a) =>
      var g := (s: ThreadState) => s.(returnAddress := a);
      assert Apply(t, op, caller) == Bracketed(t, caller, g).after;
    case _ =>
  }

  lemma {:induction false} ApplyAllKeepsPhase(t: ThreadState, ops: seq<ControllerOp>, caller: ThreadId)
    ensures var s := ApplyAll(t, ops, caller);
      s.waiting == t.waiting && s.started == t.started && s.finished == t.finished
    ensures t.started && !t.waiting && t.resumeAddress == 0 ==> ApplyAll(t, ops, caller).resumeAddress == 0
    decreases |ops|
  {
    if ops != [] {
      ApplyKeepsPhase(t, ops[0], caller);
      ApplyAllKeepsPhase(Apply(t, ops[0], caller), ops[1..], caller);
    }
  }

  /** After a run of controller operations the return address is the one
      before them unless one of them was `setReturnAddress` or `swap`. */
  lemma {:induction false} ApplyAllReturnAddress(t: ThreadState, ops: seq<ControllerOp>, caller: ThreadId)
    ensures ApplyAll(t, ops, caller).returnAddress == t.returnAddress ||
      exists i :: 0 <= i < |ops| && (ops[i].SetReturnOp? || ops[i].SwapOp?)
    decreases |ops|
  {
    if ops != [] {
      var t1 := Apply(t, ops[0], caller);
      ApplyAllReturnAddress(t1, ops[1..], caller);
      if ApplyAll(t, ops, caller).returnAddress != t.returnAddress {
        if t1.returnAddress == t.returnAddress {
          var i :| 0 <= i < |ops[1..]| && (ops[1..][i].SetReturnOp? || ops[1..][i].SwapOp?);
          assert ops[i + 1] == ops[1..][i];
        } else {
          assert ops[0].SetReturnOp? || ops[0].SwapOp?;
        }
      }
    }
  }

  /** The routine itself sets the return address to the WAIT label (on
      arrival at WAIT the terminate local is false, and it only becomes true
      together with a null address); the jump returns there unless a
      controller's `setReturnAddress` or `swap` came between OnStarted and
      the jump. A jump has a non-null target and leaves the thread started
      and not waiting, with no resume address left when nothing came
      between the loop and the start. EXIT sets `finished` and clears
      `waiting` and `started`; it is reached only with termination
      requested, which still stands when nothing came in between. */
  lemma FromWaitOutcome(t: ThreadState, resumeAddress: Address, ops: seq<ControllerOp>, caller: ThreadId,
                        self: ThreadId, waitLabel: Address, exitLabel: Address,
                        afterLoop: seq<ControllerOp>, beforeJump: seq<ControllerOp>)
    ensures var (s, exit) := FromWait(t, resumeAddress, false, ops, caller, self, waitLabel, exitLabel, afterLoop, beforeJump);
      && (exit.JumpedTo? ==>
            exit.target != 0 && exit.returnTo == s.returnAddress && !s.waiting && s.started &&
            (exit.returnTo == waitLabel ||
             exists i :: 0 <= i < |beforeJump| && (beforeJump[i].SetReturnOp? || beforeJump[i].SwapOp?)))
      && (exit.JumpedTo? && beforeJump == [] ==> exit.returnTo == waitLabel)
      && (exit.JumpedTo? && afterLoop == [] ==> s.resumeAddress == 0)
      && (exit.Finished? ==> s.finished && !s.waiting && !s.started)
      && (exit.Finished? && afterLoop == [] ==> s.terminate)
  {
    var w := WaitLoop(EnterWait(t), resumeAddress, false, ops, caller);
    if w.Left? {
      if w.resumeAddress == 0 {
        TerminateSeenIsStored(EnterWait(t), resumeAddress, ops, caller);
      } else {
        var t0 := ApplyAll(w.after, afterLoop, caller);
        var (s, e) := Start(t0, w.shouldTerminate, self, waitLabel, exitLabel);
        if e.None? {
          ApplyAllKeepsPhase(s, beforeJump, caller);
          ApplyAllReturnAddress(s, beforeJump, caller);
        }
      }
    }
  }

  /** The routine's own `setReturnAddress` runs `suspend`'s self-check on
      the routine's own OS thread `self`. Starting a job throws exactly when
      the thread is swapping, finished, or unsuspended with `self` as its
      recorded id; in that last case, which needs the handle `create`
      recorded to equal the id `GetProcessId` reports for the routine's
      thread, the exception is ThreadSuspendSelf. */
  lemma StartThrowsOnOwnThread(t: ThreadState, shouldTerminate: bool,
                               self: ThreadId, waitLabel: Address, exitLabel: Address)
    ensures Start(t, shouldTerminate, self, waitLabel, exitLabel).1.Some? <==>
      t.swapping || t.finished || (!t.suspended && t.threadID == self)
    ensures !t.swapping && !t.finished && !t.suspended && t.threadID == self ==>
      Start(t, shouldTerminate, self, waitLabel, exitLabel) ==
        (t.(waiting := false, started := true), Some(ThreadSuspendSelf))
  {
  }

  /** When the loop is left on termination, the flag it read is still the
      thread's `terminate` field. */
  lemma {:induction false} TerminateSeenIsStored(t: ThreadState, resumeAddress: Address,
                                                 ops: seq<ControllerOp>, caller: ThreadId)
    ensures var w := WaitLoop(t, resumeAddress, false, ops, caller);
      w.Left? && w.resumeAddress == 0 ==> w.after.terminate
    decreases |ops|
  {
    var p := PollOnce(t, resumeAddress, false);
    if p.shouldWait && ops != [] {
      TerminateSeenIsStored(Apply(p.after, ops[0], caller), p.resumeAddress, ops[1..], caller);
    }
  }

  /** The whole routine from its entry: OnCreated, then OnWaiting, come
      before anything else it announces. */
  lemma ExecutionAnnouncesCreatedThenWaiting(t: ThreadState, ops: seq<ControllerOp>, caller: ThreadId,
                                             self: ThreadId, waitLabel: Address, exitLabel: Address,
                                             afterLoop: seq<ControllerOp>, beforeJump: seq<ControllerOp>)
    requires t.observer != 0
    ensures var s := Execution(t, ops, caller, self, waitLabel, exitLabel, afterLoop, beforeJump).0;
      |s.log| >= |t.log| + 2 && s.log[|t.log|] == OnCreated && s.log[|t.log| + 1] == OnWaiting
  {
    var t1 := EnterWait(Enter(t));
    WaitLoopOnlyAppends(t1, 0, false, ops, caller);
    var w := WaitLoop(t1, 0, false, ops, caller);
    var s := w.after;
    if w.Left? {
      AfterWaitOnlyAppends(w.after, w.resumeAddress, w.shouldTerminate, self, waitLabel, exitLabel,
                           afterLoop, beforeJump, caller);
      s := AfterWait(w.after, w.resumeAddress, w.shouldTerminate, self, waitLabel, exitLabel,
                     afterLoop, beforeJump, caller).0;
      ExtendsTransitive(t1.log, w.after.log, s.log);
    }
    assert s.log[|t.log|] == t1.log[|t.log|];
    assert s.log[|t.log| + 1] == t1.log[|t.log| + 1];
  }

  // ---------------------------------------------------------------------
  // Invariants of every interleaving

  /** `b` starts with `a`. */
  ghost predicate Extends(a: seq<Event>, b: seq<Event>) {
    |a| <= |b| && b[..|a|] == a
  }

  lemma ExtendsTransitive(a: seq<Event>, b: seq<Event>, c: seq<Event>)
    requires Extends(a, b) && Extends(b, c)
    ensures Extends(a, c)
  {
    assert c[..|a|] == c[..|b|][..|a|];
  }

  lemma {:induction false} ApplyAllOnlyAppends(t: ThreadState, ops: seq<ControllerOp>, caller: ThreadId)
    ensures Extends(t.log, ApplyAll(t, ops, caller).log)
    decreases |ops|
  {
    if ops != [] {
      var t1 := Apply(t, ops[0], caller);
      ApplyOnlyAppends(t, ops[0], caller);
      ApplyAllOnlyAppends(t1, ops[1..], caller);
      ExtendsTransitive(t.log, t1.log, ApplyAll(t, ops, caller).log);
    }
  }

  lemma AfterWaitOnlyAppends(t: ThreadState, resumeAddress: Address, shouldTerminate: bool,
                             self: ThreadId, waitLabel: Address, exitLabel: Address,
                             afterLoop: seq<ControllerOp>, beforeJump: seq<ControllerOp>, caller: ThreadId)
    ensures Extends(t.log, AfterWait(t, resumeAddress, shouldTerminate, self, waitLabel, exitLabel,
                                     afterLoop, beforeJump, caller).0.log)
  {
    var t0 := ApplyAll(t, afterLoop, caller);
    ApplyAllOnlyAppends(t, afterLoop, caller);
    var (s, e) := Start(t0, shouldTerminate, self, waitLabel, exitLabel);
    assert Extends(t0.log, Exit(t0).log) && Extends(t0.log, s.log);
    ExtendsTransitive(t.log, t0.log, Exit(t0).log);
    ExtendsTransitive(t.log, t0.log, s.log);
    ApplyAllOnlyAppends(s, beforeJump, caller);
    ExtendsTransitive(t.log, s.log, ApplyAll(s, beforeJump, caller).log);
  }

  /** The observer log only grows, and the observer pointer is fixed. */
  lemma ApplyOnlyAppends(t: ThreadState, op: ControllerOp, caller: ThreadId)
    ensures var s := Apply(t, op, caller);
      Extends(t.log, s.log) && s.observer == t.observer
  {
  }

  lemma {:induction false} WaitLoopOnlyAppends(t: ThreadState, resumeAddress: Address, shouldTerminate: bool,
                                               ops: seq<ControllerOp>, caller: ThreadId)
    ensures var s := WaitLoop(t, resumeAddress, shouldTerminate, ops, caller).after;
      Extends(t.log, s.log) && s.observer == t.observer
    decreases |ops|
  {
    var p := PollOnce(t, resumeAddress, shouldTerminate);
    if p.shouldWait && ops != [] {
      var t1 := Apply(p.after, ops[0], caller);
      ApplyOnlyAppends(p.after, ops[0], caller);
      WaitLoopOnlyAppends(t1, p.resumeAddress, p.shouldTerminate, ops[1..], caller);
      ExtendsTransitive(t.log, t1.log, WaitLoop(t, resumeAddress, shouldTerminate, ops, caller).after.log);
    }
  }

  /** The last suspend or restart notification in a log, if any. */
  function LastToggle(log: seq<Event>): Option<Event>
    decreases |log|
  {
    if log == [] then None
    else if log[|log| - 1] == OnSuspended || log[|log| - 1] == OnRestart then Some(log[|log| - 1])
    else LastToggle(log[..|log| - 1])
  }

  /** With an observer, the `suspended` flag agrees with the last
      suspend/restart notification: the observer sees them alternate. */
  ghost predicate ObserverAgrees(t: ThreadState) {
    t.observer != 0 ==> (t.suspended <==> LastToggle(t.log) == Some(OnSuspended))
  }

  /** The two flags no controller operation leaves raised, and the one it
      never lowers. */
  ghost predicate Settled(t: ThreadState) {
    !t.swapping && ObserverAgrees(t)
  }

  lemma LastToggleAppend(log: seq<Event>, e: Event)
    ensures LastToggle(log + [e]) ==
      if e == OnSuspended || e == OnRestart then Some(e) else LastToggle(log)
  {
    assert (log + [e])[..|log + [e]| - 1] == log;
  }

  lemma NotifyKeepsAgreement(t: ThreadState, e: Event)
    requires ObserverAgrees(t) && e != OnSuspended && e != OnRestart
    ensures ObserverAgrees(t.(log := Notify(t, e)))
  {
    if t.observer != 0 { LastToggleAppend(t.log, e); }
  }

  lemma SuspendKeepsSettled(t: ThreadState, caller: ThreadId)
    requires ObserverAgrees(t)
    ensures ObserverAgrees(Suspend(t, caller).after)
  {
    if !t.suspended && t.threadID != caller && t.observer != 0 {
      LastToggleAppend(t.log, OnSuspended);
    }
  }

  lemma RestartKeepsSettled(t: ThreadState)
    requires ObserverAgrees(t)
    ensures ObserverAgrees(Restart(t))
  {
    if t.suspended && t.observer != 0 {
      LastToggleAppend(t.log, OnRestart);
    }
  }

  lemma BracketedKeepsSettled(t: ThreadState, caller: ThreadId, write: ThreadState -> ThreadState)
    requires Settled(t)
    requires forall s :: (write(s).suspended == s.suspended && write(s).log == s.log &&
                          write(s).observer == s.observer && write(s).swapping == s.swapping)
    ensures Settled(Bracketed(t, caller, write).after)
  {
    if SetterGuard(t).None? {
      var s := Suspend(t, caller);
      SuspendKeepsSettled(t, caller);
      if s.result.Ok? {
        RestartKeepsSettled(write(s.after));
      }
    }
  }

  lemma ApplyKeepsSettled(t: ThreadState, op: ControllerOp, caller: ThreadId)
    requires Settled(t)
    ensures Settled(Apply(t, op, caller))
  {
    match op
    case Idle =>
    case SuspendOp => SuspendKeepsSettled(t, caller);
    case RestartOp => RestartKeepsSettled(t);
    case SetResumeOp(a) =>
      BracketedKeepsSettled(t, caller, (s: ThreadState) => if s.waiting then s.(resumeAddress := a) else s);
    case SetReturnOp(a) =>
      BracketedKeepsSettled(t, caller, (s: ThreadState) => s.(returnAddress := a));
    case SetTerminateOp(b) =>
      BracketedKeepsSettled(t, caller, (s: ThreadState) => s.(terminate := b));
    case SwapOp(link) =>
      if !t.finished && t.threadID != caller {
        var s := t.(swapping := true);
        SuspendKeepsSettled(s, caller);
        var s2 := Suspend(s, caller).after;
        var s3 := s2.(resumeAddress := if !s2.started then link.resumeAddress else 0,
                      returnAddress := link.returnAddress, terminate := link.terminate);
        RestartKeepsSettled(s3);
      }
  }

  /** One step of a Thread's life: a controller operation, or a piece of
      `Execution`. */
  datatype Step =
    | Controller(op: ControllerOp, caller: ThreadId)
    | EnterStep
    | WaitStep
    | PollStep(resumeAddress: Address, shouldTerminate: bool)
    | ExitStep
    | StartStep(shouldTerminate: bool, self: ThreadId, waitLabel: Address, exitLabel: Address)

  function StepOf(t: ThreadState, st: Step): ThreadState {
    match st
    case Controller(op, caller) => Apply(t, op, caller)
    case EnterStep => Enter(t)
    case WaitStep => EnterWait(t)
    case PollStep(a, b) => PollOnce(t, a, b).after
    case ExitStep => Exit(t)
    case StartStep(b, self, w, x) => Start(t, b, self, w, x).0
  }

  function Run(t: ThreadState, steps: seq<Step>): ThreadState
    decreases |steps|
  {
    if steps == [] then t else Run(StepOf(t, steps[0]), steps[1..])
  }

  lemma StepKeepsSettled(t: ThreadState, st: Step)
    requires Settled(t)
    ensures Settled(StepOf(t, st))
    ensures t.finished ==> StepOf(t, st).finished
  {
    match st
    case Controller(op, caller) => ApplyKeepsSettled(t, op, caller);
    case EnterStep => NotifyKeepsAgreement(t, OnCreated);
    case WaitStep => NotifyKeepsAgreement(t.(waiting := true, started := false), OnWaiting);
    case PollStep(a, b) =>
    case ExitStep =>
      NotifyKeepsAgreement(t.(waiting := false, started := false, finished := true), OnFinished);
    case StartStep(b, self, w, x) =>
      var s := t.(waiting := false, started := true);
      var r := SetReturnAddress(s, if b then x else w, self);
      BracketedKeepsSettled(s, self, (u: ThreadState) => u.(returnAddress := if b then x else w));
      if r.result.Ok? { NotifyKeepsAgreement(r.after, OnStarted); }
  }

  /** Whatever the interleaving of controller operations and routine steps,
      with each method atomic: `swapping` is never left raised, so the
      getters never throw
      ThreadIsSwapping; the observer sees OnSuspended and OnRestart in
      agreement with the `suspended` flag; and `finished` once set stays
      set, so every later setter and `swap` fail with ThreadFinished. */
  lemma {:induction false} RunKeepsSettled(t: ThreadState, steps: seq<Step>)
    requires Settled(t)
    ensures Settled(Run(t, steps))
    ensures t.finished ==> Run(t, steps).finished
    decreases |steps|
  {
    if steps != [] {
      StepKeepsSettled(t, steps[0]);
      RunKeepsSettled(StepOf(t, steps[0]), steps[1..]);
    }
  }

  lemma FinishedRefusesChanges(t: ThreadState, link: Link, address: Address, flag: bool, caller: ThreadId)
    requires t.finished && !t.swapping
    ensures SetResumeAddress(t, address, caller) == Reply(t, Err(ThreadFinished))
    ensures SetReturnAddress(t, address, caller) == Reply(t, Err(ThreadFinished))
    ensures SetShouldTerminate(t, flag, caller) == Reply(t, Err(ThreadFinished))
    ensures Swap(t, link, caller) == Reply(t, Err(ThreadFinished))
  {
  }

  /** The destructor's termination loop is inverted: while `terminate` is
      unset it changes nothing and goes round again, so it only ends once
      someone else has requested termination. */
  lemma DestroyAttemptWaitsForTerminate(t: ThreadState, caller: ThreadId)
    requires t.exitAddress == 0 && !t.swapping
    ensures !t.terminate ==> DestroyAttempt(t, caller) == (t, true)
    ensures t.terminate && !t.finished && (t.suspended || t.threadID != caller) ==>
      !DestroyAttempt(t, caller).1 && DestroyAttempt(t, caller).0.terminate
  {
  }
}
