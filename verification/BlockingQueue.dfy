/**
 The blocking queue (data_structures/blocking_queue.c) as a monitor: one mutex, two condition
 variables, and any number of threads that enqueue, dequeue, clear, shut down, activate and
 destroy it.

 Condition variables follow POSIX.1: waiting releases the mutex and falls asleep in one step,
 a signal unblocks at least one sleeper if there is one, and a sleeper may also wake for no
 reason.  Because of the latter it is enough to let a signal unblock exactly one.
 */
module BlockingQueue {
  import opened Counting
  import Heap

  /** Items are pointers; 0 is the null pointer, which both containers refuse. */
  type Item = nat

  const NULL: Item := 0

  /** No wait at all, wait for ever, or wait until a deadline. */
  datatype Timeout = Zero | Forever | Timed

  datatype Call =
    | Enqueue(item: Item, timeout: Timeout)
    | Dequeue(timeout: Timeout)
    | RemoveAll
    | Shutdown
    | Destroy

  datatype PC =
    | Idle
    | WantLock(call: Call)
    | Testing(call: Call)
    | Asleep(call: Call)
    | Notified(call: Call)
    | Woken(call: Call)
    | TimedOut(call: Call)
    | GivingUp(call: Call)
    | Signalling(call: Call)
    | ToldProducers(call: Call)
    | Unlocking(call: Call)
    | Exiting(call: Call)
    | Draining
    | Freed

  /**
   `max` is 0 for an unbounded queue.  With a comparator the container is a heap, without one
   it is a list.  `strict` says that a waiter that has been signalled reports success and not
   a timeout, which POSIX.1 leaves open.
   */
  datatype Conf = Conf(max: nat, prioritized: bool, cmp: (Item, Item) -> int, strict: bool)

  /**
   `contents` is the list, or the heap's array from its first item on.  `added`, `taken`,
   `cleared` and `departed` (both ways out) record what went in and out, in order.
   */
  datatype State = State(
    conf: Conf, contents: seq<Item>, shutdown: bool, blocked: int, lock: int, threads: seq<PC>,
    added: seq<Item>, taken: seq<Item>, cleared: seq<Item>, departed: seq<Item>)

  datatype Choice =
    | Begin(call: Call)
    | Activate
    | Pick(which: nat)
    | Spurious
    | Expire
    | Go

  datatype Move = Move(thread: nat, choice: Choice)

  // ---------------------------------------------------------------- reading the state

  predicate Waits(pc: PC, consumer: bool) {
    pc.Asleep? && (if consumer then pc.call.Dequeue? else pc.call.Enqueue?)
  }

  predicate Runnable(pc: PC, consumer: bool) {
    pc.Notified? && (if consumer then pc.call.Dequeue? else pc.call.Enqueue?)
  }

  predicate SomeoneWaits(s: State, consumer: bool) {
    exists t :: 0 <= t < |s.threads| && Waits(s.threads[t], consumer)
  }

  /** Inside enqueue or dequeue, from the first fetch_add of `blocked` to the last fetch_sub. */
  predicate Inside(pc: PC) {
    !pc.Idle? && !pc.Draining? && !pc.Freed? && (pc.call.Enqueue? || pc.call.Dequeue?)
  }

  function RunnableOn(consumer: bool): PC -> bool { pc => Runnable(pc, consumer) }

  /** Notified consumers (or producers) that have not run yet. */
  function RunnableCount(ts: seq<PC>, consumer: bool): nat { Count(ts, RunnableOn(consumer)) }

  function InsideCount(ts: seq<PC>): nat { Count(ts, Inside) }

  predicate Full(s: State) { s.conf.max != 0 && s.conf.max == |s.contents| }

  // ---------------------------------------------------------------- steps

  function Goto(s: State, t: nat, pc: PC): State
    requires t < |s.threads|
  {
    s.(threads := s.threads[t := pc])
  }

  predicate IsTimed(call: Call) { (call.Enqueue? || call.Dequeue?) && call.timeout.Timed? }

  /** pthread_mutex_lock, or the end of a wait: go on at pc once the mutex is free. */
  function Acquire(s: State, t: nat, pc: PC): State
    requires t < |s.threads|
  {
    if s.lock == -1 then Goto(s.(lock := t), t, pc) else s
  }

  /** pthread_cond_signal: the sleeper picked is notified; with none asleep nothing happens. */
  function Signal(s: State, t: nat, consumer: bool, which: nat, pc: PC): State
    requires t < |s.threads|
  {
    if which < |s.threads| && Waits(s.threads[which], consumer) then
      Goto(Goto(s, which, Notified(s.threads[which].call)), t, pc)
    else if SomeoneWaits(s, consumer) then s
    else Goto(s, t, pc)
  }

  function Wake(pc: PC, consumer: bool): PC {
    if Waits(pc, consumer) then Notified(pc.call) else pc
  }

  /** pthread_cond_broadcast */
  function Broadcast(s: State, consumer: bool): State {
    s.(threads := seq(|s.threads|, t requires 0 <= t < |s.threads| => Wake(s.threads[t], consumer)))
  }

  /** add_item, once there is room for it. */
  function AddItem(conf: Conf, contents: seq<Item>, item: Item): seq<Item> {
    if conf.prioritized then Heap.Added(conf.cmp, contents, item) else contents + [item]
  }

  /** take_item: both containers hand out their first item. */
  function TakeItem(conf: Conf, contents: seq<Item>): seq<Item>
    requires contents != []
  {
    if conf.prioritized then Heap.Extracted(conf.cmp, contents) else contents[1..]
  }

  /** One turn of enqueue's loop: leave on shutdown, add, leave on a zero timeout, or sleep. */
  function TestEnqueue(s: State, t: nat, call: Call): State
    requires t < |s.threads| && call.Enqueue?
  {
    if s.shutdown then Goto(s, t, Signalling(call))
    else if call.item != NULL && !Full(s) then
      Goto(s.(contents := AddItem(s.conf, s.contents, call.item), added := s.added + [call.item]), t, Signalling(call))
    else if call.timeout.Zero? then Goto(s, t, Signalling(call))
    else Goto(s.(lock := -1), t, Asleep(call))
  }

  function Take(s: State): State
    requires s.contents != []
  {
    s.(contents := TakeItem(s.conf, s.contents),
       taken := s.taken + [s.contents[0]], departed := s.departed + [s.contents[0]])
  }

  /** One turn of dequeue's loop. */
  function TestDequeue(s: State, t: nat, call: Call): State
    requires t < |s.threads| && call.Dequeue?
  {
    if s.shutdown then Goto(s, t, Signalling(call))
    else if s.contents != [] then Goto(Take(s), t, Signalling(call))
    else if call.timeout.Zero? then Goto(s, t, Signalling(call))
    else Goto(s.(lock := -1), t, Asleep(call))
  }

  function StepTesting(s: State, t: nat, call: Call): State
    requires t < |s.threads|
  {
    match call
    case Enqueue(_, _) => TestEnqueue(s, t, call)
    case Dequeue(_) => TestDequeue(s, t, call)
    case RemoveAll =>
      Goto(s.(contents := [], cleared := s.cleared + s.contents, departed := s.departed + s.contents),
           t, Unlocking(call))
    case _ => Goto(Broadcast(s.(shutdown := true), false), t, ToldProducers(call))
  }

  function StepSignalling(s: State, t: nat, call: Call, which: nat): State
    requires t < |s.threads|
  {
    Signal(s, t, call.Enqueue?, which, Unlocking(call))
  }

  function Next(s: State, m: Move): State {
    if m.thread >= |s.threads| then s
    else
      var t := m.thread;
      match s.threads[t]
      case Idle =>
        if m.choice.Begin? then
          var call := m.choice.call;
          Goto(if call.Enqueue? || call.Dequeue? then s.(blocked := s.blocked + 1) else s, t, WantLock(call))
        else if m.choice.Activate? then s.(shutdown := false)
        else s
      case WantLock(call) => Acquire(s, t, Testing(call))
      case Testing(call) => StepTesting(s, t, call)
      case Asleep(call) =>
        if m.choice.Spurious? then Goto(s, t, Woken(call))
        else if m.choice.Expire? && IsTimed(call) then Goto(s, t, TimedOut(call))
        else s
      case Notified(call) =>
        if m.choice.Expire? && !s.conf.strict && IsTimed(call) then Goto(s, t, TimedOut(call))
        else Acquire(s, t, Testing(call))
      case Woken(call) => Acquire(s, t, Testing(call))
      case TimedOut(call) => Acquire(s, t, GivingUp(call))
      case GivingUp(call) => Goto(s.(lock := -1), t, Exiting(call))
      case Signalling(call) => StepSignalling(s, t, call, if m.choice.Pick? then m.choice.which else |s.threads|)
      case ToldProducers(call) => Goto(Broadcast(s, true), t, Unlocking(call))
      case Unlocking(call) =>
        Goto(s.(lock := -1), t,
             if call.Enqueue? || call.Dequeue? then Exiting(call) else if call.Destroy? then Draining else Idle)
      case Exiting(call) => Goto(s.(blocked := s.blocked - 1), t, Idle)
      case Draining => if s.blocked > 0 then s else Goto(s, t, Freed)
      case Freed => s
  }

  function Init(conf: Conf, n: nat): State {
    State(conf, [], false, 0, -1, seq(n, _ => Idle), [], [], [], [])
  }

  function Exec(s: State, ms: seq<Move>): State {
    if ms == [] then s else Next(Exec(s, ms[..|ms| - 1]), ms[|ms| - 1])
  }
}
