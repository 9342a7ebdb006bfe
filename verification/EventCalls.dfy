/** What the calls on an event and on a result do for their callers. */
module EventCalls {
  import opened Counting
  import opened Events
  import opened EventProofs

  // ---------------------------------------------------------------- every success is answered

  /** The move by which a result wait leaves the event with success. */
  predicate Wins(s: State, m: Move) {
    m.thread < |s.threads| && s.threads[m.thread].Exiting? && s.threads[m.thread].call.Get? && s.threads[m.thread].ok
  }

  /** The result waits of a run that have succeeded, told by its moves. */
  function WinsOf(s: State, ms: seq<Move>): nat {
    if ms == [] then 0 else WinsOf(s, ms[..|ms| - 1]) + One(Wins(Exec(s, ms[..|ms| - 1]), ms[|ms| - 1]))
  }

  predicate IsReading(pc: PC) { pc.Reading? }

  lemma ReadingStep(s: State, t: nat, c: Choice)
    requires t < |s.threads|
    ensures var act := StepThread(s, t, c);
            |act.shared.gotten| + One(IsReading(act.pc))
            == |s.gotten| + One(IsReading(s.threads[t])) + One(Wins(s, Move(t, c)))
  {
  }

  lemma WinsKeep(s: State, m: Move)
    ensures |Next(s, m).gotten| + Count(Next(s, m).threads, IsReading)
            == |s.gotten| + Count(s.threads, IsReading) + One(Wins(s, m))
  {
    if m.thread < |s.threads| {
      OneThread(s, m);
      ReadingStep(s, m.thread, m.choice);
      var act := StepThread(s, m.thread, m.choice);
      if s.threads[m.thread].Telling? { CountSame(s.threads, act.shared.threads, IsReading); }
      CountUpdate(act.shared.threads, IsReading, m.thread, act.pc);
    }
  }

  /**
   In every run, each result wait that leaves the event with success adds exactly one answer: it
   has done so, or is about to with its next move.
   */
  lemma {:induction false} SuccessIsAnswered(flags: Flags, n: nat, ms: seq<Move>)
    ensures var s := Exec(Init(flags, n), ms);
            |s.gotten| + Count(s.threads, IsReading) == WinsOf(Init(flags, n), ms)
    decreases |ms|
  {
    if ms == [] {
      CountZero(Init(flags, n).threads, IsReading);
    } else {
      SuccessIsAnswered(flags, n, ms[..|ms| - 1]);
      WinsKeep(Exec(Init(flags, n), ms[..|ms| - 1]), ms[|ms| - 1]);
    }
  }

  // ---------------------------------------------------------------- a call that is not disturbed

  ghost predicate Leads(s0: State, t: nat, pre: seq<Choice>, ms: seq<Move>, s: State) {
    && s == Exec(s0, ms)
    && forall i :: 0 <= i < |ms| ==> ms[i] == Move(t, if i < |pre| then pre[i] else Go)
  }

  /** k moves of thread t alone lead from s0 to s: it begins as `pre` says, and then just goes on. */
  ghost predicate Alone(s0: State, t: nat, pre: seq<Choice>, s: State, k: nat) {
    exists ms: seq<Move> :: Leads(s0, t, pre, ms, s) && |ms| == k
  }

  lemma Here(s: State, t: nat, pre: seq<Choice>)
    ensures Alone(s, t, pre, s, 0)
  {
    var ms: seq<Move> := [];
    assert Leads(s, t, pre, ms, s) && |ms| == 0;
  }

  lemma OneMore(s0: State, t: nat, pre: seq<Choice>, s: State, k: nat, c: Choice) returns (s': State)
    requires Alone(s0, t, pre, s, k) && t < |s.threads| && c == if k < |pre| then pre[k] else Go
    ensures Alone(s0, t, pre, s', k + 1)
    ensures var act := StepThread(s, t, c);
            |act.shared.threads| == |s.threads| && s' == act.shared.(threads := act.shared.threads[t := act.pc])
    ensures !s.threads[t].Telling? ==> StepThread(s, t, c).shared.threads == s.threads
  {
    var ms: seq<Move> :| Leads(s0, t, pre, ms, s) && |ms| == k;
    s' := Next(s, Move(t, c));
    OneThread(s, Move(t, c));
    var more := ms + [Move(t, c)];
    assert more[..k] == ms;
    assert s' == Exec(s0, more);
    assert Leads(s0, t, pre, more, s') && |more| == k + 1;
  }

  /** s is s0 but for the flag, the mutex, the count and the threads. */
  ghost predicate Alike(s0: State, s: State) {
    && s.flags == s0.flags && s.begun == s0.begun && s.produced == s0.produced && s.retval == s0.retval
    && s.gotten == s0.gotten && s.destroying == s0.destroying
  }

  function Put(s: State, t: nat, pc: PC): State
    requires t < |s.threads|
  {
    s.(threads := s.threads[t := pc])
  }

  /** One step of a thread on its own: what is shared becomes `shared`, and the thread goes to pc. */
  lemma Steps(s0: State, t: nat, pre: seq<Choice>, s: State, k: nat, c: Choice, shared: State, pc: PC)
    returns (s': State)
    requires (c == if k < |pre| then pre[k] else Go) && Alone(s0, t, pre, s, k) && t < |s.threads|
    requires !s.threads[t].Telling? && StepThread(s, t, c) == Act(shared, pc)
    ensures shared.threads == s.threads && Alone(s0, t, pre, s', k + 1) && s' == Put(shared, t, pc)
  {
    s' := OneMore(s0, t, pre, s, k, c);
  }

  // the steps of a wait

  lemma Enters(s0: State, t: nat, pre: seq<Choice>, s: State, k: nat, call: Call) returns (s': State)
    requires k < |pre| && pre[k] == Begin(call) && Alone(s0, t, pre, s, k) && t < |s.threads|
    requires s.threads[t].Idle? && Waiter(call)
    ensures Alone(s0, t, pre, s', k + 1) && s' == Put(s.(waiting := s.waiting + 1), t, Entered(call))
  {
    s' := Steps(s0, t, pre, s, k, Begin(call), s.(waiting := s.waiting + 1), Entered(call));
  }

  lemma Looks(s0: State, t: nat, pre: seq<Choice>, s: State, k: nat, call: Call) returns (s': State)
    requires |pre| <= k && Alone(s0, t, pre, s, k) && t < |s.threads| && s.threads[t] == Entered(call)
    ensures Alone(s0, t, pre, s', k + 1) && s' == Put(s, t, if s.signaled then Leaving(call, false) else Locking(call))
  {
    s' := Steps(s0, t, pre, s, k, Go, s, if s.signaled then Leaving(call, false) else Locking(call));
  }

  lemma Locks(s0: State, t: nat, pre: seq<Choice>, s: State, k: nat, pc: PC) returns (s': State)
    requires |pre| <= k && Alone(s0, t, pre, s, k) && t < |s.threads| && s.lock == -1
    requires var from := s.threads[t];
             || (from.Locking? && pc == if Waiter(from.call) then Testing(from.call) else Raising(from.call))
             || (from.Notified? && pc == Testing(from.call)) || (from.TimedOut? && pc == Expired(from.call))
    ensures Alone(s0, t, pre, s', k + 1) && s' == Put(s.(lock := t), t, pc)
  {
    s' := Steps(s0, t, pre, s, k, Go, s.(lock := t), pc);
  }

  lemma Tests(s0: State, t: nat, pre: seq<Choice>, s: State, k: nat, call: Call) returns (s': State)
    requires |pre| <= k && Alone(s0, t, pre, s, k) && t < |s.threads| && s.threads[t] == Testing(call)
    ensures Alone(s0, t, pre, s', k + 1) && s' == Put(s, t, if s.signaled then Leaving(call, true) else ToSleep(call))
  {
    s' := Steps(s0, t, pre, s, k, Go, s, if s.signaled then Leaving(call, true) else ToSleep(call));
  }

  lemma Sleeps(s0: State, t: nat, pre: seq<Choice>, s: State, k: nat, call: Call) returns (s': State)
    requires |pre| <= k && Alone(s0, t, pre, s, k) && t < |s.threads| && s.threads[t] == ToSleep(call)
    ensures Alone(s0, t, pre, s', k + 1) && s' == Put(s.(lock := -1), t, Asleep(call))
  {
    s' := Steps(s0, t, pre, s, k, Go, s.(lock := -1), Asleep(call));
  }

  /** The state of the flag after a waiter has left. */
  function FlagAfter(flags: Flags, waiting: int): bool {
    if flags.autoResetOnLast then waiting != 1 else !flags.autoReset
  }

  /** auto_reset_handler */
  lemma Resets(s0: State, t: nat, pre: seq<Choice>, s: State, k: nat, call: Call, locked: bool)
    returns (s': State, k': nat)
    requires |pre| <= k && Alone(s0, t, pre, s, k) && t < |s.threads|
    requires s.threads[t] == Leaving(call, locked) && s.signaled
    ensures k <= k' <= k + 2 && Alone(s0, t, pre, s', k')
    ensures s' == Put(s.(signaled := FlagAfter(s.flags, s.waiting)), t,
                      if locked then Unlocking(call, true) else Exiting(call, true))
  {
    if s.flags.autoResetOnLast && s.waiting == 1 {
      s' := Clears(s0, t, pre, s, k, call, locked);
      k' := k + 2;
    } else {
      s' := Steps(s0, t, pre, s, k, Go, s.(signaled := FlagAfter(s.flags, s.waiting)),
                  if locked then Unlocking(call, true) else Exiting(call, true));
      k' := k + 1;
    }
  }

  lemma Clears(s0: State, t: nat, pre: seq<Choice>, s: State, k: nat, call: Call, locked: bool) returns (s': State)
    requires |pre| <= k && Alone(s0, t, pre, s, k) && t < |s.threads| && s.threads[t] == Leaving(call, locked)
    requires s.flags.autoResetOnLast && s.waiting == 1
    ensures Alone(s0, t, pre, s', k + 2)
    ensures s' == Put(s.(signaled := false), t, if locked then Unlocking(call, true) else Exiting(call, true))
  {
    s' := Steps(s0, t, pre, s, k, Go, s, Clearing(call, locked));
    s' := Steps(s0, t, pre, s', k + 1, Go, s'.(signaled := false),
                if locked then Unlocking(call, true) else Exiting(call, true));
  }

  lemma Unlocks(s0: State, t: nat, pre: seq<Choice>, s: State, k: nat, call: Call, ok: bool) returns (s': State)
    requires |pre| <= k && Alone(s0, t, pre, s, k) && t < |s.threads| && s.threads[t] == Unlocking(call, ok)
    ensures Alone(s0, t, pre, s', k + 1)
    ensures s' == Put(s.(lock := -1), t, if Waiter(call) then Exiting(call, ok) else AfterSignal(call))
  {
    s' := Steps(s0, t, pre, s, k, Go, s.(lock := -1), if Waiter(call) then Exiting(call, ok) else AfterSignal(call));
  }

  lemma Exits(s0: State, t: nat, pre: seq<Choice>, s: State, k: nat, call: Call, ok: bool) returns (s': State)
    requires |pre| <= k && Alone(s0, t, pre, s, k) && t < |s.threads| && s.threads[t] == Exiting(call, ok)
    ensures Alone(s0, t, pre, s', k + 1)
    ensures s' == Put(s.(waiting := s.waiting - 1), t, if call.Get? && ok then Reading else Idle)
  {
    s' := Steps(s0, t, pre, s, k, Go, s.(waiting := s.waiting - 1), if call.Get? && ok then Reading else Idle);
  }

  // ---------------------------------------------------------------- waits

  /** A wait on a signaled event succeeds at once, and lowers the flag as the event's flags say. */
  lemma WaitSucceeds(s0: State, t: nat, call: Call) returns (s: State, k: nat)
    requires t < |s0.threads| && s0.threads[t].Idle? && s0.signaled && Waiter(call)
    ensures 1 <= k <= 5 && Alone(s0, t, [Begin(call)], s, k)
    ensures s == Put(s0.(signaled := FlagAfter(s0.flags, s0.waiting + 1)), t, if call.Get? then Reading else Idle)
  {
    s := LooksIn(s0, t, call);
    s, k := LeavesFast(s0, t, [Begin(call)], s, 2, call);
  }

  lemma LooksIn(s0: State, t: nat, call: Call) returns (s: State)
    requires t < |s0.threads| && s0.threads[t].Idle? && Waiter(call)
    ensures Alone(s0, t, [Begin(call)], s, 2)
    ensures s == Put(s0.(waiting := s0.waiting + 1), t, if s0.signaled then Leaving(call, false) else Locking(call))
  {
    Here(s0, t, [Begin(call)]);
    s := Enters(s0, t, [Begin(call)], s0, 0, call);
    s := Looks(s0, t, [Begin(call)], s, 1, call);
  }

  lemma LeavesFast(s0: State, t: nat, pre: seq<Choice>, s1: State, k1: nat, call: Call) returns (s: State, k: nat)
    requires |pre| <= k1 && Alone(s0, t, pre, s1, k1) && t < |s1.threads|
    requires s1.threads[t] == Leaving(call, false) && s1.signaled
    ensures k1 <= k <= k1 + 3 && Alone(s0, t, pre, s, k)
    ensures s == Put(s1.(signaled := FlagAfter(s1.flags, s1.waiting), waiting := s1.waiting - 1), t,
                     if call.Get? then Reading else Idle)
  {
    s, k := Resets(s0, t, pre, s1, k1, call, false);
    s := Exits(s0, t, pre, s, k, call, true);
    k := k + 1;
  }

  /** A wait on an event that is not signaled sleeps. */
  lemma WaitSleeps(s0: State, t: nat, call: Call) returns (s: State)
    requires t < |s0.threads| && s0.threads[t].Idle? && !s0.signaled && s0.lock == -1 && Waiter(call)
    ensures Alone(s0, t, [Begin(call)], s, 5) && s == Put(s0.(waiting := s0.waiting + 1), t, Asleep(call))
  {
    s := LooksIn(s0, t, call);
    s := FallsAsleep(s0, t, [Begin(call)], s, 2, call);
  }

  lemma FallsAsleep(s0: State, t: nat, pre: seq<Choice>, s1: State, k: nat, call: Call) returns (s: State)
    requires |pre| <= k && Alone(s0, t, pre, s1, k) && t < |s1.threads|
    requires s1.threads[t] == Locking(call) && Waiter(call)
    requires !s1.signaled && s1.lock == -1
    ensures Alone(s0, t, pre, s, k + 3) && s == Put(s1, t, Asleep(call))
  {
    s := Locks(s0, t, pre, s1, k, Testing(call));
    s := Tests(s0, t, pre, s, k + 1, call);
    s := Sleeps(s0, t, pre, s, k + 2, call);
  }

  /** A thread that is told, and finds the flag up, leaves with success. */
  lemma NotifiedSucceeds(s0: State, t: nat, call: Call) returns (s: State, k: nat)
    requires t < |s0.threads| && s0.threads[t] == Notified(call) && s0.signaled && s0.lock == -1 && Waiter(call)
    ensures k <= 6 && Alone(s0, t, [], s, k)
    ensures s == Put(s0.(signaled := FlagAfter(s0.flags, s0.waiting), waiting := s0.waiting - 1), t,
                     if call.Get? then Reading else Idle)
  {
    s := TestsAgain(s0, t, call);
    s, k := Resets(s0, t, [], s, 2, call, true);
    s := GoesOut(s0, t, [], s, k, call, true);
    k := k + 2;
  }

  lemma TestsAgain(s0: State, t: nat, call: Call) returns (s: State)
    requires t < |s0.threads| && s0.threads[t] == Notified(call) && s0.signaled && s0.lock == -1
    ensures Alone(s0, t, [], s, 2) && s == Put(s0.(lock := t), t, Leaving(call, true))
  {
    Here(s0, t, []);
    s := Locks(s0, t, [], s0, 0, Testing(call));
    s := Tests(s0, t, [], s, 1, call);
  }

  lemma GoesOut(s0: State, t: nat, pre: seq<Choice>, s1: State, k: nat, call: Call, ok: bool) returns (s: State)
    requires |pre| <= k && Alone(s0, t, pre, s1, k) && t < |s1.threads|
    requires s1.threads[t] == Unlocking(call, ok) && Waiter(call)
    ensures Alone(s0, t, pre, s, k + 2)
    ensures s == Put(s1.(lock := -1, waiting := s1.waiting - 1), t, if call.Get? && ok then Reading else Idle)
  {
    s := Unlocks(s0, t, pre, s1, k, call, ok);
    s := Exits(s0, t, pre, s, k + 1, call, ok);
  }

  lemma Expires(s0: State, t: nat, call: Call) returns (s: State)
    requires t < |s0.threads| && s0.threads[t] == Asleep(call) && Waiter(call) && call.timed && s0.lock == -1
    ensures Alone(s0, t, [Expire], s, 2) && s == Put(s0.(lock := t), t, Expired(call))
  {
    Here(s0, t, [Expire]);
    s := Steps(s0, t, [Expire], s0, 0, Expire, s0, TimedOut(call));
    s := Locks(s0, t, [Expire], s, 1, Expired(call));
  }

  /** A timed wait whose time is up fails and changes nothing, unless the event is to be signaled then. */
  lemma TimeoutFails(s0: State, t: nat, call: Call) returns (s: State)
    requires t < |s0.threads| && s0.threads[t] == Asleep(call) && Waiter(call) && call.timed && s0.lock == -1
    requires !s0.flags.signalOnTimeout
    ensures Alone(s0, t, [Expire], s, 5) && s == Put(s0.(waiting := s0.waiting - 1), t, Idle)
  {
    s := Expires(s0, t, call);
    s := Steps(s0, t, [Expire], s, 2, Go, s, Unlocking(call, false));
    s := GoesOut(s0, t, [Expire], s, 3, call, false);
  }

  // ---------------------------------------------------------------- broadcasts

  /** The broadcast: nobody is left asleep. */
  lemma Tells(s0: State, t: nat, pre: seq<Choice>, s: State, k: nat, call: Call) returns (s': State)
    requires |pre| <= k && Alone(s0, t, pre, s, k) && t < |s.threads| && s.threads[t] == Telling(call)
    ensures Alone(s0, t, pre, s', k + 1) && s' == s.(threads := s'.threads) && |s'.threads| == |s.threads|
    ensures s'.threads[t] == Unlocking(call, true) && !SomeoneAsleep(s')
  {
    s' := OneMore(s0, t, pre, s, k, Go);
  }

  lemma StillAwake(s: State, s': State, t: nat, pc: PC)
    requires t < |s.threads| && s'.threads == s.threads[t := pc] && !pc.Asleep? && !SomeoneAsleep(s)
    ensures !SomeoneAsleep(s')
  {
    forall u | 0 <= u < |s'.threads|
      ensures !s'.threads[u].Asleep?
    {
      assert !s.threads[u].Asleep?;
    }
  }

  /** With SIGNAL_ON_TIMEOUT it succeeds, raises the flag and wakes everybody. */
  lemma TimeoutSignals(s0: State, t: nat, call: Call) returns (s: State)
    requires t < |s0.threads| && s0.threads[t] == Asleep(call) && Waiter(call) && call.timed && s0.lock == -1
    requires s0.flags.signalOnTimeout
    ensures Alone(s0, t, [Expire], s, 6) && Alike(s0, s) && s.lock == -1 && s.waiting == s0.waiting - 1
    ensures s.signaled && !SomeoneAsleep(s) && t < |s.threads| && s.threads[t] == (if call.Get? then Reading else Idle)
  {
    s := Expires(s0, t, call);
    s := Steps(s0, t, [Expire], s, 2, Go, s.(signaled := true), Telling(call));
    s := Tells(s0, t, [Expire], s, 3, call);
    var s4 := s;
    s := GoesOut(s0, t, [Expire], s, 4, call, true);
    StillAwake(s4, s, t, if call.Get? then Reading else Idle);
  }

  /** Raising a lowered flag wakes everybody. */
  lemma Raises(s0: State, t: nat, pre: seq<Choice>, s1: State, k: nat, call: Call) returns (s: State)
    requires |pre| <= k && Alone(s0, t, pre, s1, k) && t < |s1.threads| && s1.threads[t] == Locking(call)
    requires s1.lock == -1 && !Waiter(call)
    ensures Alone(s0, t, pre, s, k + 4) && Alike(s1, s) && s.lock == -1 && s.waiting == s1.waiting && s.signaled
    ensures |s.threads| == |s1.threads| && s.threads[t] == AfterSignal(call) && !SomeoneAsleep(s)
  {
    s := Locks(s0, t, pre, s1, k, Raising(call));
    s := Steps(s0, t, pre, s, k + 1, Go, s.(signaled := true), Telling(call));
    s := Tells(s0, t, pre, s, k + 2, call);
    var s3 := s;
    s := Unlocks(s0, t, pre, s, k + 3, call, true);
    StillAwake(s3, s, t, AfterSignal(call));
  }

  /** The signalling part of signal, process_task and destroy: it raises a lowered flag and wakes everybody. */
  lemma Signals(s0: State, t: nat, pre: seq<Choice>, s1: State, k1: nat, call: Call) returns (s: State, k: nat)
    requires |pre| <= k1 && Alone(s0, t, pre, s1, k1) && t < |s1.threads| && s1.threads[t] == Loading(call)
    requires s1.lock == -1 && !Waiter(call)
    ensures k1 <= k <= k1 + 5 && Alone(s0, t, pre, s, k) && Alike(s1, s) && s.lock == -1 && s.waiting == s1.waiting
    ensures s.signaled && |s.threads| == |s1.threads| && s.threads[t] == AfterSignal(call)
    ensures !s1.signaled ==> !SomeoneAsleep(s)
  {
    if s1.signaled {
      s := Steps(s0, t, pre, s1, k1, Go, s1, AfterSignal(call));
      k := k1 + 1;
    } else {
      s := Steps(s0, t, pre, s1, k1, Go, s1, Locking(call));
      s := Raises(s0, t, pre, s, k1 + 1, call);
      k := k1 + 5;
    }
  }

  // ---------------------------------------------------------------- signals, tasks, results, destruction

  /** A signal raises the flag; if it was down, nobody is left asleep. */
  lemma SignalAlone(s0: State, t: nat) returns (s: State, k: nat)
    requires t < |s0.threads| && s0.threads[t].Idle? && s0.lock == -1
    ensures k <= 6 && Alone(s0, t, [Begin(Signal)], s, k) && s.signaled && (!s0.signaled ==> !SomeoneAsleep(s))
    ensures t < |s.threads| && s.threads[t].Idle? && s.lock == -1
  {
    Here(s0, t, [Begin(Signal)]);
    s := Steps(s0, t, [Begin(Signal)], s0, 0, Begin(Signal), s0, Loading(Signal));
    s, k := Signals(s0, t, [Begin(Signal)], s, 1, Signal);
  }

  lemma Produces(s0: State, t: nat, value: Val) returns (s: State)
    requires t < |s0.threads| && s0.threads[t].Idle?
    ensures Alone(s0, t, [Begin(Process), Return(value)], s, 3)
    ensures s == Put(s0.(begun := s0.begun + 1, produced := s0.produced + [value], retval := Some(value)), t,
                     Loading(Process))
  {
    s := RunsCallback(s0, t, value);
    s := Steps(s0, t, [Begin(Process), Return(value)], s, 2, Go, s.(retval := Some(value)), Loading(Process));
  }

  lemma RunsCallback(s0: State, t: nat, value: Val) returns (s: State)
    requires t < |s0.threads| && s0.threads[t].Idle?
    ensures Alone(s0, t, [Begin(Process), Return(value)], s, 2)
    ensures s == Put(s0.(begun := s0.begun + 1, produced := s0.produced + [value]), t, Storing(value))
  {
    Here(s0, t, [Begin(Process), Return(value)]);
    s := Steps(s0, t, [Begin(Process), Return(value)], s0, 0, Begin(Process), s0.(begun := s0.begun + 1), Working);
    s := Steps(s0, t, [Begin(Process), Return(value)], s, 1, Return(value),
               s.(produced := s.produced + [value]), Storing(value));
  }

  /** A task hands over exactly what its callback returned, and then signals. */
  lemma ProcessAlone(s0: State, t: nat, value: Val) returns (s: State, k: nat)
    requires t < |s0.threads| && s0.threads[t].Idle? && s0.lock == -1
    ensures k <= 8 && Alone(s0, t, [Begin(Process), Return(value)], s, k) && s.signaled
    ensures (!s0.signaled ==> !SomeoneAsleep(s))
    ensures s.retval == Some(value) && s.produced == s0.produced + [value] && s.gotten == s0.gotten
    ensures t < |s.threads| && s.threads[t].Idle?
  {
    s := Produces(s0, t, value);
    s, k := Signals(s0, t, [Begin(Process), Return(value)], s, 3, Process);
  }

  /** A result wait on a signaled event returns what was stored. */
  lemma GetAlone(s0: State, t: nat, timed: bool) returns (s: State, k: nat)
    requires t < |s0.threads| && s0.threads[t].Idle? && s0.signaled
    ensures k <= 6 && Alone(s0, t, [Begin(Get(timed))], s, k) && s.gotten == s0.gotten + [s0.retval]
    ensures s.threads == s0.threads
  {
    s, k := WaitSucceeds(s0, t, Get(timed));
    s := Steps(s0, t, [Begin(Get(timed))], s, k, Go, s.(gotten := s.gotten + [s.retval]), Idle);
    k := k + 1;
  }

  /** A destroyer that finds nobody waiting frees the event. */
  lemma DestroyAlone(s0: State, t: nat) returns (s: State, k: nat)
    requires Inv(s0) && t < |s0.threads| && s0.threads[t].Idle? && s0.lock == -1
    requires forall u :: 0 <= u < |s0.threads| ==> !Inside(s0.threads[u])
    ensures k <= 7 && Alone(s0, t, [Begin(Destroy)], s, k) && s.signaled && t < |s.threads| && s.threads[t].Freed?
  {
    CountZero(s0.threads, Inside);
    s, k := SignalsLast(s0, t);
    s := Steps(s0, t, [Begin(Destroy)], s, k, Go, s, Freed);
    k := k + 1;
  }

  lemma SignalsLast(s0: State, t: nat) returns (s: State, k: nat)
    requires t < |s0.threads| && s0.threads[t].Idle? && s0.lock == -1
    ensures 1 <= k <= 6 && Alone(s0, t, [Begin(Destroy)], s, k) && s.signaled && s.waiting == s0.waiting
    ensures t < |s.threads| && s.threads[t].Draining?
  {
    Here(s0, t, [Begin(Destroy)]);
    s := Steps(s0, t, [Begin(Destroy)], s0, 0, Begin(Destroy), s0.(destroying := true), Loading(Destroy));
    s, k := Signals(s0, t, [Begin(Destroy)], s, 1, Destroy);
  }
}
