/** The invariants of the event and of the result handed over through it. */
module EventProofs {
  import opened Counting
  import opened Events

  // ---------------------------------------------------------------- the mutex and the count

  ghost predicate LockOk(s: State) {
    forall t :: 0 <= t < |s.threads| ==> (HoldsLock(s.threads[t]) <==> s.lock == t)
  }

  predicate CountOk(s: State) { s.waiting == InsideCount(s.threads) && -1 <= s.lock < |s.threads| }

  /** Waiting calls wait and signalling calls signal. */
  predicate CallOk(pc: PC) {
    match pc
    case Idle | Reading | Working | Storing(_) | Draining | Freed => true
    case Locking(call) => !call.Reset?
    case Unlocking(call, _) => !call.Reset?
    case Telling(call) => !call.Reset?
    case Loading(call) => !Waiter(call) && !call.Reset?
    case Raising(call) => !Waiter(call) && !call.Reset?
    case _ => Waiter(pc.call)
  }

  predicate CallsOk(s: State) { forall t :: 0 <= t < |s.threads| ==> CallOk(s.threads[t]) }

  ghost predicate Inv(s: State) { LockOk(s) && CountOk(s) && CallsOk(s) }

  /** Apart from the broadcast, a move changes one thread. */
  lemma OneThread(s: State, m: Move)
    requires m.thread < |s.threads|
    ensures var act, s' := StepThread(s, m.thread, m.choice), Next(s, m);
            && |act.shared.threads| == |s.threads| && act.shared.flags == s.flags
            && s' == act.shared.(threads := act.shared.threads[m.thread := act.pc])
            && OthersFollow(s, m.thread, act)
  {
  }

  /** A step takes the mutex only if it is free, and gives up only its own. */
  predicate LockFollows(s: State, t: nat, act: Act) {
    && (act.shared.lock == s.lock || (s.lock == -1 && act.shared.lock == t) || (s.lock == t && act.shared.lock == -1))
    && (HoldsLock(act.pc) <==> act.shared.lock == t)
  }

  lemma LockStepWaiting(s: State, t: nat, c: Choice)
    requires t < |s.threads| && (HoldsLock(s.threads[t]) <==> s.lock == t) && Waiting(s.threads[t])
    ensures LockFollows(s, t, StepWaiting(s, t, c))
  {
  }

  lemma LockStepOther(s: State, t: nat, c: Choice)
    requires t < |s.threads| && (HoldsLock(s.threads[t]) <==> s.lock == t) && !Waiting(s.threads[t])
    ensures LockFollows(s, t, StepOther(s, t, c))
  {
  }

  /** A step counts its thread in or out as it enters or leaves. */
  predicate CountFollows(s: State, pc: PC, act: Act) {
    CallOk(act.pc) && act.shared.waiting - s.waiting == One(Inside(act.pc)) - One(Inside(pc))
  }

  lemma CountStepWaiting(s: State, t: nat, c: Choice)
    requires t < |s.threads| && CallOk(s.threads[t]) && Waiting(s.threads[t])
    ensures CountFollows(s, s.threads[t], StepWaiting(s, t, c))
  {
  }

  lemma CountStepOther(s: State, t: nat, c: Choice)
    requires t < |s.threads| && CallOk(s.threads[t]) && !Waiting(s.threads[t])
    ensures CountFollows(s, s.threads[t], StepOther(s, t, c))
  {
  }

  lemma StepFollows(s: State, t: nat, c: Choice)
    requires t < |s.threads| && CallOk(s.threads[t]) && (HoldsLock(s.threads[t]) <==> s.lock == t)
    ensures LockFollows(s, t, StepThread(s, t, c)) && CountFollows(s, s.threads[t], StepThread(s, t, c))
  {
    if Waiting(s.threads[t]) {
      LockStepWaiting(s, t, c);
      CountStepWaiting(s, t, c);
    } else {
      LockStepOther(s, t, c);
      CountStepOther(s, t, c);
    }
  }

  /** The other threads stay where they are, or are woken. */
  predicate OthersFollow(s: State, t: nat, act: Act)
    requires t < |s.threads|
  {
    act.shared.threads == if s.threads[t].Telling? then Broadcast(s).threads else s.threads
  }

  lemma CountSettle(s: State, t: nat, act: Act)
    requires t < |s.threads| && OthersFollow(s, t, act) && CountFollows(s, s.threads[t], act)
    requires s.waiting == InsideCount(s.threads)
    ensures act.shared.waiting == InsideCount(act.shared.threads[t := act.pc])
  {
    var ts := act.shared.threads;
    if s.threads[t].Telling? { CountSame(s.threads, ts, Inside); }
    CountUpdate(ts, Inside, t, act.pc);
  }

  lemma CallsSettle(s: State, t: nat, act: Act)
    requires t < |s.threads| && OthersFollow(s, t, act) && CallOk(act.pc) && CallsOk(s)
    ensures CallsOk(act.shared.(threads := act.shared.threads[t := act.pc]))
  {
    var ts := act.shared.threads;
    forall u | 0 <= u < |ts|
      ensures CallOk(ts[u])
    {
      assert CallOk(s.threads[u]);
      assert ts[u] == s.threads[u] || ts[u] == Wake(s.threads[u]);
    }
  }

  lemma LockSettle(s: State, t: nat, act: Act)
    requires t < |s.threads| && OthersFollow(s, t, act) && LockFollows(s, t, act) && LockOk(s)
    ensures LockOk(act.shared.(threads := act.shared.threads[t := act.pc]))
  {
    var s' := act.shared.(threads := act.shared.threads[t := act.pc]);
    forall u | 0 <= u < |s'.threads|
      ensures HoldsLock(s'.threads[u]) <==> s'.lock == u
    {
      assert HoldsLock(s.threads[u]) <==> s.lock == u;
    }
  }

  lemma MoveKeeps(s: State, m: Move)
    requires Inv(s)
    ensures Inv(Next(s, m)) && Next(s, m).flags == s.flags && |Next(s, m).threads| == |s.threads|
  {
    if m.thread < |s.threads| {
      OneThread(s, m);
      StepFollows(s, m.thread, m.choice);
      var act := StepThread(s, m.thread, m.choice);
      CountSettle(s, m.thread, act);
      CallsSettle(s, m.thread, act);
      LockSettle(s, m.thread, act);
    }
  }

  // ---------------------------------------------------------------- wakeups

  predicate Resets(m: Move) { m.choice == Begin(Reset) }

  /** Holding the mutex, this thread tells everyone or lowers the flag before it gives the mutex up. */
  predicate WillTell(flags: Flags, pc: PC) {
    || pc.Telling? || pc.Raising? || (pc.Expired? && flags.signalOnTimeout) || (pc.Clearing? && pc.locked)
    || (flags.autoReset && !flags.autoResetOnLast && (pc.Testing? || (pc.Leaving? && pc.locked)))
  }

  /** Nobody falls asleep on a signaled event, and a sleeper on one is about to be told, or the flag lowered. */
  predicate AwakeOk(s: State, pc: PC) {
    && (pc.ToSleep? ==> !s.signaled)
    && (pc.Asleep? && s.signaled ==> 0 <= s.lock < |s.threads| && WillTell(s.flags, s.threads[s.lock]))
  }

  predicate WakeupOk(s: State) { forall t :: 0 <= t < |s.threads| ==> AwakeOk(s, s.threads[t]) }

  /** A step raises the flag only with the mutex, to tell everyone next; it falls asleep only on a lowered flag. */
  predicate RaiseFollows(s: State, pc: PC, act: Act) {
    && act.shared.flags == s.flags
    && (act.shared.signaled && !s.signaled ==> HoldsLock(pc) && act.pc.Telling?)
    && (act.pc.ToSleep? ==> !act.shared.signaled)
    && (act.pc.Asleep? ==> pc.Asleep? || !act.shared.signaled)
    && (pc.Telling? ==> act.shared.lock == s.lock && !act.pc.Asleep?)
    && (s.signaled && WillTell(s.flags, pc) && !pc.Telling? ==>
          !act.shared.signaled || (WillTell(s.flags, act.pc) && act.shared.lock == s.lock))
  }

  lemma RaiseWaiting(s: State, t: nat, c: Choice)
    requires t < |s.threads| && AwakeOk(s, s.threads[t]) && Waiting(s.threads[t])
    ensures RaiseFollows(s, s.threads[t], StepWaiting(s, t, c))
  {
  }

  lemma RaiseOther(s: State, t: nat, c: Choice)
    requires t < |s.threads| && c != Begin(Reset) && !Waiting(s.threads[t])
    ensures RaiseFollows(s, s.threads[t], StepOther(s, t, c))
  {
  }

  lemma WakeupKeeps(s: State, m: Move)
    requires Inv(s) && WakeupOk(s) && !Resets(m)
    ensures WakeupOk(Next(s, m))
  {
    if m.thread < |s.threads| {
      OneThread(s, m);
      StepFollows(s, m.thread, m.choice);
      if Waiting(s.threads[m.thread]) {
        RaiseWaiting(s, m.thread, m.choice);
      } else {
        RaiseOther(s, m.thread, m.choice);
      }
      WakeupSettle(s, m.thread, StepThread(s, m.thread, m.choice));
    }
  }

  lemma WakeupSettle(s: State, t: nat, act: Act)
    requires LockOk(s) && WakeupOk(s) && t < |s.threads| && -1 <= s.lock < |s.threads|
    requires OthersFollow(s, t, act) && LockFollows(s, t, act) && RaiseFollows(s, s.threads[t], act)
    ensures WakeupOk(act.shared.(threads := act.shared.threads[t := act.pc]))
  {
    var s' := act.shared.(threads := act.shared.threads[t := act.pc]);
    forall u | 0 <= u < |s'.threads|
      ensures AwakeOk(s', s'.threads[u])
    {
      assert AwakeOk(s, s.threads[u]);
    }
  }

  // ---------------------------------------------------------------- results

  /** Running the task: from taking it out of the queue to the end of the signal. */
  predicate Processing(pc: PC) {
    || pc.Working? || pc.Storing?
    || ((pc.Loading? || pc.Locking? || pc.Raising? || pc.Telling? || pc.Unlocking?) && pc.call.Process?)
  }

  predicate Destroying(pc: PC) {
    || pc.Draining? || pc.Freed?
    || ((pc.Loading? || pc.Locking? || pc.Raising? || pc.Telling? || pc.Unlocking?) && pc.call.Destroy?)
  }

  /** A waiter that has found the event signaled. */
  predicate Succeeds(pc: PC) {
    || pc.Leaving? || pc.Clearing? || pc.Reading?
    || ((pc.Unlocking? || pc.Exiting?) && pc.ok && Waiter(pc.call))
  }

  /** A result's event is private: nothing but result waits, the task and the destruction use it. */
  predicate Private(call: Call) { call.Get? || call.Process? || call.Destroy? }

  predicate PrivateMove(m: Move) { m.choice.Begin? ==> Private(m.choice.call) }

  predicate TaskOk(s: State) {
    && |s.produced| <= s.begun <= 1
    && (s.retval.Some? ==> s.produced == [s.retval.value])
    && (!s.destroying ==> (s.signaled ==> s.retval.Some?))
    && (!s.destroying ==> GottenOk(s.gotten, s.retval))
  }

  predicate GottenOk(gotten: seq<Slot>, retval: Slot) {
    forall i :: 0 <= i < |gotten| ==> gotten[i] == retval && retval.Some?
  }

  /** What a thread knows about the task. */
  predicate KnowsOk(s: State, pc: PC) {
    && (Processing(pc) ==> s.begun > 0)
    && (pc.Working? ==> s.produced == [])
    && (pc.Storing? ==> s.produced == [pc.value])
    && (Processing(pc) && !pc.Working? && !pc.Storing? ==> s.retval.Some?)
    && (Processing(pc) && (pc.Telling? || pc.Unlocking?) ==> s.signaled)
    && (!s.destroying ==> !Destroying(pc) && (Succeeds(pc) ==> s.retval.Some?))
    && (pc.Loading? || pc.Locking? || pc.Raising? || pc.Telling? || pc.Unlocking? ==> !pc.call.Signal?)
    && (pc.Telling? ==> !Waiter(pc.call)) && !pc.Clearing?
  }

  predicate OneWorker(s: State) {
    forall t, u :: 0 <= t < u < |s.threads| ==> !(Processing(s.threads[t]) && Processing(s.threads[u]))
  }

  /** A task that has been taken and is no longer run by anyone has signaled its result. */
  predicate FinishedOk(s: State) {
    s.begun == 0 || s.signaled || exists t :: 0 <= t < |s.threads| && Processing(s.threads[t])
  }

  predicate ResultOk(s: State) {
    && s.flags == PLAIN && TaskOk(s) && OneWorker(s) && FinishedOk(s)
    && forall t :: 0 <= t < |s.threads| ==> KnowsOk(s, s.threads[t])
  }

  predicate TaskUntouched(s: State, s': State) {
    s'.begun == s.begun && s'.produced == s.produced && s'.retval == s.retval
  }

  /** What one step does to the task and to what its thread knows. */
  predicate ResultFollows(s: State, pc: PC, act: Act) {
    var s' := act.shared;
    && s'.flags == s.flags && TaskOk(s') && KnowsOk(s', act.pc)
    && (s.signaled ==> s'.signaled)
    && (s.retval.Some? ==> s'.retval == s.retval)
    && (s.destroying ==> s'.destroying)
    && (!Processing(pc) && s.begun > 0 ==> TaskUntouched(s, s') && !Processing(act.pc))
    && s.begun <= s'.begun
    && (s'.begun > 0 && s.begun == 0 ==> Processing(act.pc))
    && (Processing(pc) ==> Processing(act.pc) || s'.signaled)
  }

  predicate SameTask(s: State, s': State) {
    && TaskUntouched(s, s') && s'.flags == s.flags && s'.gotten == s.gotten && s'.destroying == s.destroying
    && (s.signaled ==> s'.signaled)
  }

  /** Most steps leave the task alone. */
  lemma SameTaskFollows(s: State, pc: PC, act: Act)
    requires SameTask(s, act.shared) && TaskOk(s) && KnowsOk(s, pc)
    requires act.shared.signaled ==> s.signaled || s.destroying || s.retval.Some?
    requires KnowsOk(act.shared, act.pc) && (Processing(act.pc) ==> Processing(pc))
    requires Processing(pc) ==> Processing(act.pc) || act.shared.signaled
    ensures ResultFollows(s, pc, act)
  {
  }

  lemma WaitingSameTask(s: State, t: nat, c: Choice)
    requires t < |s.threads| && Waiting(s.threads[t]) && s.flags == PLAIN && !s.threads[t].Clearing?
    ensures var s' := StepWaiting(s, t, c).shared; SameTask(s, s') && s'.signaled == s.signaled
  {
  }

  /** Where a waiting thread goes, if the event is a plain one. */
  lemma WaitingGoes(s: State, t: nat, c: Choice)
    requires t < |s.threads| && Waiting(s.threads[t]) && s.flags == PLAIN && CallOk(s.threads[t])
    ensures var pc, pc' := s.threads[t], StepWaiting(s, t, c).pc;
            && (Succeeds(pc') ==> Succeeds(pc) || s.signaled)
            && (Waiting(pc') || pc'.Idle? || pc'.Reading? || ((pc'.Locking? || pc'.Unlocking?) && Waiter(pc'.call)))
            && !pc'.Clearing?
  {
  }

  lemma ResultWaiting(s: State, t: nat, c: Choice)
    requires t < |s.threads| && Waiting(s.threads[t]) && CallOk(s.threads[t])
    requires s.flags == PLAIN && TaskOk(s) && KnowsOk(s, s.threads[t])
    ensures ResultFollows(s, s.threads[t], StepWaiting(s, t, c))
  {
    WaitingSameTask(s, t, c);
    WaitingGoes(s, t, c);
    SameTaskFollows(s, s.threads[t], StepWaiting(s, t, c));
  }

  predicate Signalling(pc: PC) { pc.Loading? || pc.Locking? || pc.Raising? || pc.Telling? || pc.Unlocking? }

  lemma SignallingSameTask(s: State, t: nat, c: Choice)
    requires t < |s.threads| && Signalling(s.threads[t])
    ensures var s' := StepOther(s, t, c).shared;
            SameTask(s, s') && (s'.signaled ==> s.signaled || s.threads[t].Raising?)
  {
  }

  predicate WaiterGoes(pc: PC, pc': PC)
    requires Signalling(pc)
  {
    || pc' == pc || pc' == Testing(pc.call)
    || (pc.Telling? && pc' == Unlocking(pc.call, true))
    || (pc.Unlocking? && pc' == Exiting(pc.call, pc.ok))
  }

  predicate SignallerGoes(pc: PC, act: Act)
    requires Signalling(pc)
  {
    && (|| (Signalling(act.pc) && act.pc.call == pc.call)
        || (act.pc == AfterSignal(pc.call) && (pc.Unlocking? || act.shared.signaled)))
    && (act.pc.Telling? ==> act.shared.signaled)
    && (act.pc.Unlocking? ==> pc.Telling?)
  }

  /** Where a signalling thread goes. */
  lemma SignallingGoes(s: State, t: nat, c: Choice)
    requires t < |s.threads| && Signalling(s.threads[t]) && CallOk(s.threads[t])
    ensures var pc, act := s.threads[t], StepOther(s, t, c);
            && (Waiter(pc.call) ==> pc.Telling? || pc.Locking? || pc.Unlocking?)
            && (if Waiter(pc.call) then WaiterGoes(pc, act.pc) else SignallerGoes(pc, act))
  {
  }

  lemma ResultSignalling(s: State, t: nat, c: Choice)
    requires t < |s.threads| && Signalling(s.threads[t]) && CallOk(s.threads[t])
    requires TaskOk(s) && KnowsOk(s, s.threads[t])
    ensures ResultFollows(s, s.threads[t], StepOther(s, t, c))
  {
    SignallingSameTask(s, t, c);
    SignallingGoes(s, t, c);
    SameTaskFollows(s, s.threads[t], StepOther(s, t, c));
  }

  lemma ResultStart(s: State, t: nat, c: Choice)
    requires t < |s.threads| && s.threads[t].Idle?
    requires TaskOk(s) && (c.Begin? ==> Private(c.call)) && StepOther(s, t, c).shared.begun <= 1
    ensures ResultFollows(s, Idle, StepOther(s, t, c))
  {
  }

  /** The callback returns one value, which is stored. */
  lemma ResultTask(s: State, t: nat, c: Choice)
    requires t < |s.threads| && (s.threads[t].Working? || s.threads[t].Storing?)
    requires TaskOk(s) && KnowsOk(s, s.threads[t])
    ensures ResultFollows(s, s.threads[t], StepOther(s, t, c))
  {
  }

  lemma ResultRest(s: State, t: nat, c: Choice)
    requires t < |s.threads| && (s.threads[t].Reading? || s.threads[t].Draining? || s.threads[t].Freed?)
    requires TaskOk(s) && KnowsOk(s, s.threads[t])
    ensures ResultFollows(s, s.threads[t], StepOther(s, t, c))
  {
  }

  lemma ResultStep(s: State, t: nat, c: Choice)
    requires t < |s.threads| && CallOk(s.threads[t]) && s.flags == PLAIN
    requires TaskOk(s) && KnowsOk(s, s.threads[t]) && (c.Begin? ==> Private(c.call))
    requires StepThread(s, t, c).shared.begun <= 1
    ensures ResultFollows(s, s.threads[t], StepThread(s, t, c))
  {
    var pc := s.threads[t];
    if Waiting(pc) { ResultWaiting(s, t, c); }
    else if Signalling(pc) { ResultSignalling(s, t, c); }
    else if pc.Idle? { ResultStart(s, t, c); }
    else if pc.Working? || pc.Storing? { ResultTask(s, t, c); }
    else { ResultRest(s, t, c); }
  }

  /** Another thread goes on knowing what it knew. */
  lemma OthersKnow(s: State, pc: PC, act: Act, other: PC)
    requires ResultFollows(s, pc, act) && KnowsOk(s, other)
    requires !(Processing(pc) && Processing(other))
    ensures KnowsOk(act.shared, other) && KnowsOk(act.shared, Wake(other))
    ensures Processing(Wake(other)) == Processing(other)
    ensures Processing(other) ==> !Processing(act.pc)
  {
  }

  lemma ResultSettle(s: State, t: nat, act: Act)
    requires t < |s.threads| && ResultOk(s) && OthersFollow(s, t, act) && ResultFollows(s, s.threads[t], act)
    ensures ResultOk(act.shared.(threads := act.shared.threads[t := act.pc]))
  {
    var s' := act.shared.(threads := act.shared.threads[t := act.pc]);
    forall u | 0 <= u < |s.threads| && u != t
      ensures KnowsOk(s', s'.threads[u])
      ensures Processing(s'.threads[u]) == Processing(s.threads[u])
      ensures Processing(s.threads[u]) ==> !Processing(act.pc)
    {
      assert KnowsOk(s, s.threads[u]);
      OthersKnow(s, s.threads[t], act, s.threads[u]);
      assert KnowsOk(act.shared, s'.threads[u]);
    }
    assert KnowsOk(s', act.pc);
    FinishedSettle(s, t, s');
  }

  lemma FinishedSettle(s: State, t: nat, s': State)
    requires t < |s.threads| == |s'.threads| && FinishedOk(s)
    requires forall u :: 0 <= u < |s.threads| && u != t ==> Processing(s'.threads[u]) == Processing(s.threads[u])
    requires s.signaled ==> s'.signaled
    requires s'.begun > 0 && s.begun == 0 ==> Processing(s'.threads[t])
    requires Processing(s.threads[t]) ==> Processing(s'.threads[t]) || s'.signaled
    ensures FinishedOk(s')
  {
    if !s.signaled && s.begun > 0 {
      var u :| 0 <= u < |s.threads| && Processing(s.threads[u]);
      assert u != t ==> Processing(s'.threads[u]);
    }
  }

  lemma ResultKeeps(s: State, m: Move)
    requires Inv(s) && ResultOk(s) && PrivateMove(m) && Next(s, m).begun <= 1
    ensures ResultOk(Next(s, m))
  {
    if m.thread < |s.threads| {
      OneThread(s, m);
      assert CallOk(s.threads[m.thread]) && KnowsOk(s, s.threads[m.thread]);
      ResultStep(s, m.thread, m.choice);
      ResultSettle(s, m.thread, StepThread(s, m.thread, m.choice));
    }
  }
}
