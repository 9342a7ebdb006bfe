/**
 An event (threading/events.c) and the result of a pool task that is handed over through one
 (threading/thread_pool.c), one shared access per step.

 Condition variables follow POSIX.1: waiting releases the mutex and falls asleep in one step,
 and a sleeper may wake for no reason.
 */
module Events {
  import opened Counting

  type Val = nat

  /** What a task left behind; a result that has not been written holds the null pointer. */
  type Slot = Option<Val>

  /** The flags of the event. */
  datatype Flags = Flags(signalOnTimeout: bool, signaledByDefault: bool, autoReset: bool, autoResetOnLast: bool)

  const PLAIN := Flags(false, false, false, false)

  /** `Get` is c_utils_result_get and `Process` is process_task on the task of the result. */
  datatype Call = Wait(timed: bool) | Get(timed: bool) | Signal | Process | Destroy | Reset

  datatype PC =
    | Idle
    | Entered(call: Call)
    | Locking(call: Call)
    | Testing(call: Call)
    | ToSleep(call: Call)
    | Asleep(call: Call)
    | Notified(call: Call)
    | TimedOut(call: Call)
    | Expired(call: Call)
    | Leaving(call: Call, locked: bool)
    | Clearing(call: Call, locked: bool)
    | Unlocking(call: Call, ok: bool)
    | Exiting(call: Call, ok: bool)
    | Reading
    | Working
    | Storing(value: Val)
    | Loading(call: Call)
    | Raising(call: Call)
    | Telling(call: Call)
    | Draining
    | Freed

  /**
   `begun` counts the calls of process_task on the result's task; `produced` lists what its
   callback returned, `gotten` what successful result waits returned.
   */
  datatype State = State(
    flags: Flags, signaled: bool, waiting: int, lock: int, threads: seq<PC>,
    begun: nat, produced: seq<Val>, retval: Slot, gotten: seq<Slot>, destroying: bool)

  datatype Choice = Begin(call: Call) | Spurious | Expire | Return(value: Val) | Go

  datatype Move = Move(thread: nat, choice: Choice)

  // ---------------------------------------------------------------- reading the state

  predicate Waiter(call: Call) { call.Wait? || call.Get? }

  /** Between the increment and the decrement of `waiting_threads`. */
  predicate Inside(pc: PC) {
    match pc
    case Idle | Reading | Working | Storing(_) | Loading(_) | Raising(_) | Draining | Freed => false
    case Entered(_) | Testing(_) | ToSleep(_) | Asleep(_) | Notified(_) | TimedOut(_) | Expired(_) => true
    case Leaving(_, _) | Clearing(_, _) | Exiting(_, _) => true
    case Locking(call) => Waiter(call)
    case Unlocking(call, _) => Waiter(call)
    case Telling(call) => Waiter(call)
  }

  function InsideCount(ts: seq<PC>): nat { Count(ts, Inside) }

  predicate HoldsLock(pc: PC) {
    || pc.Testing? || pc.ToSleep? || pc.Expired? || pc.Raising? || pc.Telling? || pc.Unlocking?
    || (pc.Leaving? && pc.locked) || (pc.Clearing? && pc.locked)
  }

  predicate SomeoneAsleep(s: State) { exists t :: 0 <= t < |s.threads| && s.threads[t].Asleep? }

  // ---------------------------------------------------------------- steps

  /** What a step does to what is shared, and where its thread goes. */
  datatype Act = Act(shared: State, pc: PC)

  /** pthread_mutex_lock, or the end of a wait: go on at pc once the mutex is free. */
  function Acquire(s: State, t: nat, pc: PC): Act
    requires t < |s.threads|
  {
    if s.lock == -1 then Act(s.(lock := t), pc) else Act(s, s.threads[t])
  }

  function Wake(pc: PC): PC { if pc.Asleep? then Notified(pc.call) else pc }

  /** pthread_cond_broadcast */
  function Broadcast(s: State): State {
    s.(threads := seq(|s.threads|, t requires 0 <= t < |s.threads| => Wake(s.threads[t])))
  }

  function Start(s: State, call: Call): Act {
    match call
    case Wait(_) => Act(s.(waiting := s.waiting + 1), Entered(call))
    case Get(_) => Act(s.(waiting := s.waiting + 1), Entered(call))
    case Signal => Act(s, Loading(call))
    case Process => Act(s.(begun := s.begun + 1), Working)
    case Destroy => Act(s.(destroying := true), Loading(call))
    case Reset => Act(s.(signaled := true), Idle)
  }

  /** After c_utils_event_signal the destroyer goes on to wait for the waiting threads. */
  function AfterSignal(call: Call): PC { if call.Destroy? then Draining else Idle }

  /** auto_reset_handler, its test of `waiting_threads` apart from its store. */
  function StepLeaving(s: State, call: Call, locked: bool): Act {
    var out := if locked then Unlocking(call, true) else Exiting(call, true);
    if s.flags.autoResetOnLast then Act(s, if s.waiting == 1 then Clearing(call, locked) else out)
    else if s.flags.autoReset then Act(s.(signaled := false), out)
    else Act(s, out)
  }

  function StepAsleep(s: State, call: Call, c: Choice): Act {
    if c.Spurious? then Act(s, Notified(call))
    else if c.Expire? && Waiter(call) && call.timed then Act(s, TimedOut(call))
    else Act(s, Asleep(call))
  }

  function StepNotified(s: State, t: nat, call: Call, c: Choice): Act
    requires t < |s.threads|
  {
    if c.Expire? && Waiter(call) && call.timed then Act(s, TimedOut(call)) else Acquire(s, t, Testing(call))
  }

  predicate Waiting(pc: PC) {
    || pc.Entered? || pc.Testing? || pc.ToSleep? || pc.Asleep? || pc.Notified? || pc.TimedOut? || pc.Expired?
    || pc.Leaving? || pc.Clearing? || pc.Exiting?
  }

  /** c_utils_event_wait_until */
  function StepWaiting(s: State, t: nat, c: Choice): Act
    requires t < |s.threads| && Waiting(s.threads[t])
  {
    match s.threads[t]
    case Entered(call) => Act(s, if s.signaled then Leaving(call, false) else Locking(call))
    case Testing(call) => Act(s, if s.signaled then Leaving(call, true) else ToSleep(call))
    case ToSleep(call) => Act(s.(lock := -1), Asleep(call))
    case Asleep(call) => StepAsleep(s, call, c)
    case Notified(call) => StepNotified(s, t, call, c)
    case TimedOut(call) => Acquire(s, t, Expired(call))
    case Expired(call) =>
      if s.flags.signalOnTimeout then Act(s.(signaled := true), Telling(call)) else Act(s, Unlocking(call, false))
    case Leaving(call, locked) => StepLeaving(s, call, locked)
    case Clearing(call, locked) =>
      Act(s.(signaled := false), if locked then Unlocking(call, true) else Exiting(call, true))
    case Exiting(call, ok) => Act(s.(waiting := s.waiting - 1), if call.Get? && ok then Reading else Idle)
  }

  /** c_utils_event_signal, process_task, destroy_event, and what they share with waiting. */
  function StepOther(s: State, t: nat, c: Choice): Act
    requires t < |s.threads| && !Waiting(s.threads[t])
  {
    match s.threads[t]
    case Idle => if c.Begin? then Start(s, c.call) else Act(s, Idle)
    case Locking(call) => Acquire(s, t, if Waiter(call) then Testing(call) else Raising(call))
    case Unlocking(call, ok) => Act(s.(lock := -1), if Waiter(call) then Exiting(call, ok) else AfterSignal(call))
    case Reading => Act(s.(gotten := s.gotten + [s.retval]), Idle)
    case Working =>
      if c.Return? then Act(s.(produced := s.produced + [c.value]), Storing(c.value)) else Act(s, Working)
    case Storing(value) => Act(s.(retval := Some(value)), Loading(Process))
    case Loading(call) => Act(s, if s.signaled then AfterSignal(call) else Locking(call))
    case Raising(call) => Act(s.(signaled := true), Telling(call))
    case Telling(call) => Act(Broadcast(s), Unlocking(call, true))
    case Draining => Act(s, if s.waiting > 0 then Draining else Freed)
    case Freed => Act(s, Freed)
  }

  function StepThread(s: State, t: nat, c: Choice): Act
    requires t < |s.threads|
  {
    if Waiting(s.threads[t]) then StepWaiting(s, t, c) else StepOther(s, t, c)
  }

  function Next(s: State, m: Move): State {
    if m.thread >= |s.threads| then s
    else
      var act := StepThread(s, m.thread, m.choice);
      if m.thread < |act.shared.threads| then act.shared.(threads := act.shared.threads[m.thread := act.pc])
      else act.shared
  }

  function Init(flags: Flags, n: nat): State {
    State(flags, flags.signaledByDefault, 0, -1, seq(n, _ => Idle), 0, [], None, [], false)
  }

  function Exec(s: State, ms: seq<Move>): State {
    if ms == [] then s else Next(Exec(s, ms[..|ms| - 1]), ms[|ms| - 1])
  }
}
