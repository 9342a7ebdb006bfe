/** The blocking queue loses no wakeup, no item and no thread. */
module BlockingQueueProofs {
  import opened Counting
  import opened BlockingQueue

  // ---------------------------------------------------------------- the invariant

  predicate HoldsLock(pc: PC) {
    pc.Testing? || pc.GivingUp? || pc.Signalling? || pc.ToldProducers? || pc.Unlocking?
  }

  predicate CallOk(pc: PC) {
    && (pc.Asleep? || pc.Notified? || pc.Woken? || pc.TimedOut? || pc.GivingUp? || pc.Signalling? || pc.Exiting?
        ==> pc.call.Enqueue? || pc.call.Dequeue?)
    && (pc.ToldProducers? ==> pc.call.Shutdown? || pc.call.Destroy?)
  }

  /** The mutex is held by exactly the thread the program says. */
  predicate LockOk(s: State) {
    && (s.lock == -1 || 0 <= s.lock < |s.threads|)
    && (forall t :: 0 <= t < |s.threads| ==> (HoldsLock(s.threads[t]) <==> s.lock == t) && CallOk(s.threads[t]))
  }

  /** Once shutdown is set nobody sleeps un-notified, except while the second broadcast is due. */
  predicate ShutdownOk(s: State) {
    s.shutdown ==>
      && !SomeoneWaits(s, false)
      && (SomeoneWaits(s, true) ==> 0 <= s.lock < |s.threads| && s.threads[s.lock].ToldProducers?)
  }

  /** What sleepers could use: items for consumers, free slots for producers. */
  function Surplus(s: State, consumer: bool): int {
    if consumer then |s.contents| else s.conf.max - |s.contents|
  }

  /** The thread in the monitor still owes a signal, or is about to use up what a notified thread was woken for. */
  predicate Owing(s: State, consumer: bool) {
    0 <= s.lock < |s.threads| &&
    var pc := s.threads[s.lock];
    if consumer then (pc.Testing? && pc.call.Dequeue?) || (pc.Signalling? && pc.call.Enqueue?)
    else (pc.Testing? && pc.call.Enqueue?) || (pc.Signalling? && pc.call.Dequeue?)
  }

  predicate WakeupOk(s: State, consumer: bool) {
    SomeoneWaits(s, consumer) ==>
      Surplus(s, consumer) <= RunnableCount(s.threads, consumer) + One(Owing(s, consumer))
  }

  predicate ContentsOk(s: State) {
    && (s.conf.max != 0 ==> |s.contents| <= s.conf.max)
    && NULL !in s.contents
    && multiset(s.added) == multiset(s.departed) + multiset(s.contents)
    && multiset(s.departed) == multiset(s.taken) + multiset(s.cleared)
    && (!s.conf.prioritized ==> s.added == s.departed + s.contents)
  }

  /** A heap with a legal order stays one. */
  ghost predicate HeapOk(s: State) {
    s.conf.prioritized && Heap.StrictWeak(s.conf.cmp) ==> Heap.Ordered(s.conf.cmp, s.contents)
  }

  ghost predicate Inv(s: State) {
    && LockOk(s) && ShutdownOk(s) && ContentsOk(s) && HeapOk(s)
    && s.blocked == InsideCount(s.threads)
  }

  // ---------------------------------------------------------------- what callers may do

  /** Which calls are made: timed waits on either side, enqueues of a null item, clearing. */
  datatype Rule = Rule(timedDequeue: bool, timedEnqueue: bool, nullItems: bool, clears: bool)

  predicate Allows(rule: Rule, call: Call) {
    && (call.Dequeue? && call.timeout.Timed? ==> rule.timedDequeue)
    && (call.Enqueue? && call.timeout.Timed? ==> rule.timedEnqueue)
    && (call.Enqueue? && call.item == NULL ==> rule.nullItems)
    && (call.RemoveAll? ==> rule.clears)
  }

  predicate Obeys(rule: Rule, m: Move) { m.choice.Begin? ==> Allows(rule, m.choice.call) }

  predicate InCall(pc: PC) { !pc.Idle? && !pc.Draining? && !pc.Freed? }

  /** Every call under way is an allowed one. */
  predicate Obedient(rule: Rule, s: State) {
    forall t :: 0 <= t < |s.threads| && InCall(s.threads[t]) ==> Allows(rule, s.threads[t].call)
  }

  /** Under these rules nobody is stranded on the side asked about. */
  predicate Sound(conf: Conf, rule: Rule, consumer: bool) {
    if consumer then conf.strict || !rule.timedDequeue
    else !rule.nullItems && (conf.max == 0 || (!rule.clears && (conf.strict || !rule.timedEnqueue)))
  }

  // ---------------------------------------------------------------- wakeups

  /** One thread changes its place; the others stay. */
  lemma WakeupStep(s: State, s': State, t: nat, pc: PC, consumer: bool)
    requires t < |s.threads| && s'.threads == s.threads[t := pc] && s'.conf == s.conf
    requires WakeupOk(s, consumer)
    requires Waits(pc, consumer) && !Waits(s.threads[t], consumer) ==> Surplus(s', consumer) <= 0
    requires SomeoneWaits(s, consumer) && Surplus(s', consumer) > 0 ==>
               Surplus(s', consumer) + One(Runnable(s.threads[t], consumer)) + One(Owing(s, consumer))
               <= Surplus(s, consumer) + One(Runnable(pc, consumer)) + One(Owing(s', consumer))
    ensures WakeupOk(s', consumer)
  {
    CountUpdate(s.threads, RunnableOn(consumer), t, pc);
    if SomeoneWaits(s', consumer) && !SomeoneWaits(s, consumer) {
      var u :| 0 <= u < |s'.threads| && Waits(s'.threads[u], consumer);
      assert u == t;
    }
  }

  /** Several threads change places, none of them to or from waiting or runnable on this side. */
  lemma WakeupElsewhere(s: State, s': State, consumer: bool)
    requires |s'.threads| == |s.threads| && s'.conf == s.conf && WakeupOk(s, consumer)
    requires forall t :: 0 <= t < |s.threads| ==>
               && Waits(s'.threads[t], consumer) == Waits(s.threads[t], consumer)
               && Runnable(s'.threads[t], consumer) == Runnable(s.threads[t], consumer)
    requires Surplus(s', consumer) + One(Owing(s, consumer)) <= Surplus(s, consumer) + One(Owing(s', consumer))
    ensures WakeupOk(s', consumer)
  {
    CountSame(s.threads, s'.threads, RunnableOn(consumer));
  }

  /** The signal pays the debt: one sleeper becomes runnable. */
  lemma SignalPays(s: State, t: nat, which: nat, pc: PC, consumer: bool)
    requires t < |s.threads| && which < |s.threads| && s.lock == t && WakeupOk(s, consumer)
    requires Waits(s.threads[which], consumer) && s.threads[t].Signalling? && pc.Unlocking?
    ensures WakeupOk(Signal(s, t, consumer, which, pc), consumer)
  {
    var ts1 := s.threads[which := Notified(s.threads[which].call)];
    CountUpdate(s.threads, RunnableOn(consumer), which, Notified(s.threads[which].call));
    CountUpdate(ts1, RunnableOn(consumer), t, pc);
    assert SomeoneWaits(s, consumer);
  }

  lemma SignalKeeps(s: State, t: nat, which: nat, consumer: bool)
    requires t < |s.threads| && LockOk(s) && s.threads[t].Signalling? && WakeupOk(s, consumer)
    ensures WakeupOk(StepSignalling(s, t, s.threads[t].call, which), consumer)
  {
    var call := s.threads[t].call;
    var s' := StepSignalling(s, t, call, which);
    assert HoldsLock(s.threads[t]) && s.lock == t;
    if which < |s.threads| && Waits(s.threads[which], call.Enqueue?) {
      if consumer == call.Enqueue? {
        SignalPays(s, t, which, Unlocking(call), consumer);
      } else {
        WakeupElsewhere(s, s', consumer);
      }
    } else if !SomeoneWaits(s, call.Enqueue?) {
      WakeupStep(s, s', t, Unlocking(call), consumer);
    }
  }

  lemma BroadcastKeeps(s: State, t: nat, side: bool, pc: PC, down: bool, consumer: bool)
    requires t < |s.threads| && LockOk(s) && (s.threads[t].Testing? || s.threads[t].ToldProducers?)
    requires s.threads[t].call.Shutdown? || s.threads[t].call.Destroy?
    requires (pc.ToldProducers? || pc.Unlocking?) && WakeupOk(s, consumer)
    ensures WakeupOk(Goto(Broadcast(s.(shutdown := down), side), t, pc), consumer)
    ensures !SomeoneWaits(Goto(Broadcast(s.(shutdown := down), side), t, pc), side)
  {
    assert HoldsLock(s.threads[t]) && s.lock == t;
    var s' := Goto(Broadcast(s.(shutdown := down), side), t, pc);
    if consumer != side {
      WakeupElsewhere(s, s', consumer);
    }
  }

  lemma TestKeeps(s: State, t: nat, consumer: bool)
    requires t < |s.threads| && LockOk(s) && ShutdownOk(s) && ContentsOk(s) && WakeupOk(s, consumer)
    requires s.threads[t].Testing?
    requires var call := s.threads[t].call;
             !consumer ==> s.conf.max != 0 && !call.RemoveAll? && (call.Enqueue? ==> call.item != NULL)
    ensures WakeupOk(StepTesting(s, t, s.threads[t].call), consumer)
  {
    var call := s.threads[t].call;
    var s' := StepTesting(s, t, call);
    assert HoldsLock(s.threads[t]) && s.lock == t;
    if call.Shutdown? || call.Destroy? {
      BroadcastKeeps(s, t, false, ToldProducers(call), true, consumer);
    } else if call.Enqueue? {
      TestEnqueueKeeps(s, t, call, consumer);
    } else if call.Dequeue? {
      TestDequeueKeeps(s, t, call, consumer);
    } else {
      WakeupStep(s, s', t, s'.threads[t], consumer);
    }
  }

  /** A test of enqueue uses up a free slot and owes a consumer a signal, or finds nothing to use. */
  lemma TestEnqueueKeeps(s: State, t: nat, call: Call, consumer: bool)
    requires t < |s.threads| && s.lock == t && s.threads[t] == Testing(call) && call.Enqueue?
    requires ShutdownOk(s) && WakeupOk(s, consumer)
    requires !consumer ==> s.conf.max != 0 && call.item != NULL
    ensures WakeupOk(TestEnqueue(s, t, call), consumer)
  {
    var s' := TestEnqueue(s, t, call);
    AddItemOk(s.conf, s.contents, call.item);
    WakeupStep(s, s', t, s'.threads[t], consumer);
  }

  lemma TestDequeueKeeps(s: State, t: nat, call: Call, consumer: bool)
    requires t < |s.threads| && s.lock == t && s.threads[t] == Testing(call) && call.Dequeue?
    requires ShutdownOk(s) && ContentsOk(s) && WakeupOk(s, consumer) && (!consumer ==> s.conf.max != 0)
    ensures WakeupOk(TestDequeue(s, t, call), consumer)
  {
    var s' := TestDequeue(s, t, call);
    if s.contents != [] { TakeItemOk(s.conf, s.contents); }
    WakeupStep(s, s', t, s'.threads[t], consumer);
  }

  lemma AcquireKeeps(s: State, t: nat, pc: PC, consumer: bool)
    requires t < |s.threads| && LockOk(s) && WakeupOk(s, consumer)
    requires s.threads[t].WantLock? || s.threads[t].Notified? || s.threads[t].Woken? || s.threads[t].TimedOut?
    requires if s.threads[t].TimedOut? then pc == GivingUp(s.threads[t].call) else pc == Testing(s.threads[t].call)
    ensures WakeupOk(Acquire(s, t, pc), consumer)
  {
    if s.lock == -1 { WakeupStep(s, Acquire(s, t, pc), t, pc, consumer); }
  }

  /** Places whose moves touch neither sleepers nor contents. */
  predicate Plain(pc: PC) {
    pc.Idle? || pc.Asleep? || pc.GivingUp? || pc.Unlocking? || pc.Exiting? || pc.Draining? || pc.Freed?
  }

  lemma PlainKeeps(s: State, m: Move, consumer: bool)
    requires m.thread < |s.threads| && Plain(s.threads[m.thread]) && LockOk(s) && WakeupOk(s, consumer)
    ensures WakeupOk(Next(s, m), consumer)
  {
    var s', t := Next(s, m), m.thread;
    assert HoldsLock(s.threads[t]) <==> s.lock == t;
    if s'.threads != s.threads {
      WakeupStep(s, s', t, s'.threads[t], consumer);
    }
  }

  /** A signalled waiter that times out after all: only a timed wait can, and not on this side. */
  lemma ExpireKeeps(s: State, t: nat, consumer: bool)
    requires t < |s.threads| && LockOk(s) && WakeupOk(s, consumer)
    requires s.threads[t].Notified? && !Runnable(s.threads[t], consumer)
    ensures WakeupOk(Goto(s, t, TimedOut(s.threads[t].call)), consumer)
  {
    assert HoldsLock(s.threads[t]) <==> s.lock == t;
    WakeupStep(s, Goto(s, t, TimedOut(s.threads[t].call)), t, TimedOut(s.threads[t].call), consumer);
  }

  /** No wakeup is lost on the side asked about, whatever the move. */
  lemma WakeupKeeps(s: State, m: Move, rule: Rule, consumer: bool)
    requires LockOk(s) && ShutdownOk(s) && ContentsOk(s) && WakeupOk(s, consumer)
    requires Obedient(rule, s) && Sound(s.conf, rule, consumer) && (!consumer ==> s.conf.max != 0)
    ensures WakeupOk(Next(s, m), consumer)
  {
    if m.thread < |s.threads| {
      var t := m.thread;
      var pc := s.threads[t];
      if pc.Testing? {
        assert InCall(pc);
        TestKeeps(s, t, consumer);
      } else if pc.Signalling? {
        SignalKeeps(s, t, if m.choice.Pick? then m.choice.which else |s.threads|, consumer);
      } else if pc.ToldProducers? {
        assert CallOk(pc);
        BroadcastKeeps(s, t, true, Unlocking(pc.call), s.shutdown, consumer);
        assert s.(shutdown := s.shutdown) == s;
      } else if Plain(pc) {
        PlainKeeps(s, m, consumer);
      } else if pc.Notified? && m.choice.Expire? && !s.conf.strict && IsTimed(pc.call) {
        assert InCall(pc);
        ExpireKeeps(s, t, consumer);
      } else {
        AcquireKeeps(s, t, if pc.TimedOut? then GivingUp(pc.call) else Testing(pc.call), consumer);
      }
    }
  }

  // ---------------------------------------------------------------- lock, shutdown, contents, blocked

  /** What a move may do to the lock and to the place of the thread that moves. */
  predicate MoverOk(s: State, s': State, t: nat)
    requires t < |s.threads|
  {
    && |s'.threads| == |s.threads|
    && (s'.lock == s.lock || (s.lock == -1 && s'.lock == t) || (s.lock == t && s'.lock == -1))
    && (HoldsLock(s'.threads[t]) <==> s'.lock == t) && CallOk(s'.threads[t])
  }

  /** What a move may do to the others: nothing, or notify a sleeper. */
  predicate OthersOk(s: State, s': State, t: nat)
    requires t < |s.threads|
  {
    && |s'.threads| == |s.threads|
    && (forall u :: 0 <= u < |s.threads| && u != t ==>
          s'.threads[u] == s.threads[u] || (s.threads[u].Asleep? && s'.threads[u] == Notified(s.threads[u].call)))
  }

  lemma TestShape(s: State, t: nat)
    requires t < |s.threads| && s.threads[t].Testing? && s.lock == t
    ensures var s' := StepTesting(s, t, s.threads[t].call); MoverOk(s, s', t) && OthersOk(s, s', t)
  {
  }

  lemma SignalShape(s: State, t: nat, which: nat)
    requires t < |s.threads| && s.threads[t].Signalling? && s.lock == t && CallOk(s.threads[t])
    ensures var s' := StepSignalling(s, t, s.threads[t].call, which); MoverOk(s, s', t) && OthersOk(s, s', t)
  {
  }

  lemma PlainShape(s: State, m: Move)
    requires m.thread < |s.threads| && LockOk(s) && !s.threads[m.thread].Testing? && !s.threads[m.thread].Signalling?
    ensures MoverOk(s, Next(s, m), m.thread) && OthersOk(s, Next(s, m), m.thread)
  {
    assert HoldsLock(s.threads[m.thread]) <==> s.lock == m.thread;
    assert CallOk(s.threads[m.thread]);
  }

  lemma Shape(s: State, m: Move)
    requires m.thread < |s.threads| && LockOk(s)
    ensures MoverOk(s, Next(s, m), m.thread) && OthersOk(s, Next(s, m), m.thread)
  {
    var t := m.thread;
    if s.threads[t].Testing? {
      TestShape(s, t);
    } else if s.threads[t].Signalling? {
      SignalShape(s, t, if m.choice.Pick? then m.choice.which else |s.threads|);
    } else {
      PlainShape(s, m);
    }
  }

  lemma LockKeeps(s: State, s': State, t: nat)
    requires LockOk(s) && t < |s.threads| && MoverOk(s, s', t) && OthersOk(s, s', t)
    ensures LockOk(s')
  {
    forall u | 0 <= u < |s'.threads|
      ensures (HoldsLock(s'.threads[u]) <==> s'.lock == u) && CallOk(s'.threads[u])
    {
      assert HoldsLock(s.threads[u]) <==> s.lock == u;
      assert CallOk(s.threads[u]);
    }
  }

  /** Sleepers appear only where the mover falls asleep itself. */
  lemma NoNewSleeper(s: State, s': State, t: nat, consumer: bool)
    requires t < |s.threads| && OthersOk(s, s', t) && (Waits(s'.threads[t], consumer) ==> Waits(s.threads[t], consumer))
    ensures SomeoneWaits(s', consumer) ==> SomeoneWaits(s, consumer)
  {
    if SomeoneWaits(s', consumer) {
      var u :| 0 <= u < |s'.threads| && Waits(s'.threads[u], consumer);
      assert Waits(s.threads[u], consumer);
    }
  }

  lemma ShutdownStep(s: State, t: nat)
    requires LockOk(s) && t < |s.threads| && s.threads[t].Testing?
    requires s.threads[t].call.Shutdown? || s.threads[t].call.Destroy?
    ensures ShutdownOk(StepTesting(s, t, s.threads[t].call))
  {
    assert HoldsLock(s.threads[t]) && s.lock == t;
  }

  lemma ShutdownKeeps(s: State, m: Move)
    requires LockOk(s) && ShutdownOk(s) && m.thread < |s.threads|
    ensures ShutdownOk(Next(s, m))
  {
    var s', t := Next(s, m), m.thread;
    var pc := s.threads[t];
    Shape(s, m);
    assert HoldsLock(pc) <==> s.lock == t;
    if pc.Testing? && (pc.call.Shutdown? || pc.call.Destroy?) {
      ShutdownStep(s, t);
    } else if s'.shutdown {
      ShutdownFlag(s, m);
      NoNewSleeper(s, s', t, false);
      NoNewSleeper(s, s', t, true);
      if pc.ToldProducers? { ToldAllWait(s, m); }
    }
  }

  lemma ToldAllWait(s: State, m: Move)
    requires m.thread < |s.threads| && s.threads[m.thread].ToldProducers?
    ensures !SomeoneWaits(Next(s, m), true)
  {
  }

  lemma ShutdownFlag(s: State, m: Move)
    requires m.thread < |s.threads| && Next(s, m).shutdown
    requires var pc := s.threads[m.thread]; !(pc.Testing? && (pc.call.Shutdown? || pc.call.Destroy?))
    ensures s.shutdown && (Next(s, m).threads[m.thread].Asleep? ==> s.threads[m.thread].Asleep?)
    ensures Next(s, m).threads[m.thread].Asleep? ==> Next(s, m).threads[m.thread] == s.threads[m.thread]
  {
  }

  /** What the containers do to their items; only a list promises an order. */
  lemma AddItemOk(conf: Conf, c: seq<Item>, x: Item)
    ensures var r := AddItem(conf, c, x); |r| == |c| + 1 && multiset(r) == multiset(c) + multiset{x}
  {
  }

  lemma TakeItemOk(conf: Conf, c: seq<Item>)
    requires c != []
    ensures var r := TakeItem(conf, c); |r| == |c| - 1 && multiset(c) == multiset(r) + multiset{c[0]}
  {
    assert c == [c[0]] + c[1..];
  }

  lemma Appended(a: seq<Item>, x: Item)
    ensures multiset(a + [x]) == multiset(a) + multiset{x}
  {
  }

  lemma Moved(total: multiset<Item>, out: multiset<Item>, c: multiset<Item>, c': multiset<Item>, x: Item)
    requires total == out + c && c == c' + multiset{x}
    ensures total == out + multiset{x} + c'
  {
  }

  lemma NoNull(c: seq<Item>, r: seq<Item>, x: Item)
    requires multiset(c) == multiset(r) + multiset{x} && NULL !in c
    ensures NULL !in r
  {
    assert multiset(c)[NULL] == 0;
  }

  lemma TakeKeeps(s: State)
    requires ContentsOk(s) && s.contents != []
    ensures ContentsOk(Take(s))
  {
    TakeItemOk(s.conf, s.contents);
    TakenKeeps(s, Take(s), s.contents[0]);
  }

  lemma TakenKeeps(s: State, s': State, x: Item)
    requires ContentsOk(s) && s'.conf == s.conf && s'.added == s.added && s'.cleared == s.cleared
    requires s'.taken == s.taken + [x] && s'.departed == s.departed + [x] && |s'.contents| < |s.contents|
    requires multiset(s.contents) == multiset(s'.contents) + multiset{x}
    requires !s.conf.prioritized ==> s.contents == [x] + s'.contents
    ensures ContentsOk(s')
  {
    NoNull(s.contents, s'.contents, x);
    Appended(s.taken, x);
    Appended(s.departed, x);
    Moved(multiset(s.added), multiset(s.departed), multiset(s.contents), multiset(s'.contents), x);
    if !s.conf.prioritized { assert s.departed + s.contents == (s.departed + [x]) + s'.contents; }
  }

  ghost predicate SameContents(s: State, s': State) {
    && s'.contents == s.contents && s'.added == s.added && s'.taken == s.taken
    && s'.cleared == s.cleared && s'.departed == s.departed && s'.conf == s.conf
  }

  lemma AddKeeps(s: State, t: nat, call: Call)
    requires ContentsOk(s) && t < |s.threads| && call.Enqueue?
    ensures ContentsOk(TestEnqueue(s, t, call))
  {
    var s' := TestEnqueue(s, t, call);
    if !s.shutdown && call.item != NULL && !Full(s) {
      AddedKeeps(s, s', call.item);
    } else {
      assert SameContents(s, s');
    }
  }

  lemma AddedKeeps(s: State, s': State, item: Item)
    requires ContentsOk(s) && item != NULL && !Full(s) && s'.conf == s.conf
    requires s'.contents == AddItem(s.conf, s.contents, item) && s'.added == s.added + [item]
    requires s'.taken == s.taken && s'.cleared == s.cleared && s'.departed == s.departed
    ensures ContentsOk(s')
  {
    AddItemOk(s.conf, s.contents, item);
    Appended(s.added, item);
    assert multiset(s'.contents)[NULL] == multiset(s.contents)[NULL];
    assert s.departed + (s.contents + [item]) == (s.departed + s.contents) + [item];
  }

  lemma DequeueKeeps(s: State, t: nat, call: Call)
    requires ContentsOk(s) && t < |s.threads| && call.Dequeue?
    ensures ContentsOk(TestDequeue(s, t, call))
  {
    if s.contents != [] { TakeKeeps(s); }
  }

  lemma ClearKeeps(s: State, s': State)
    requires ContentsOk(s) && s'.conf == s.conf && s'.contents == [] && s'.added == s.added && s'.taken == s.taken
    requires s'.cleared == s.cleared + s.contents && s'.departed == s.departed + s.contents
    ensures ContentsOk(s')
  {
  }

  lemma ElsewhereContents(s: State, m: Move)
    requires m.thread < |s.threads| ==> !s.threads[m.thread].Testing?
    ensures SameContents(s, Next(s, m))
  {
  }

  /** Nothing is lost or duplicated, and a list gives items back in the order they came. */
  lemma ContentsKeeps(s: State, m: Move)
    requires ContentsOk(s)
    ensures ContentsOk(Next(s, m))
  {
    if m.thread < |s.threads| && s.threads[m.thread].Testing? {
      var t, call := m.thread, s.threads[m.thread].call;
      match call
      case Enqueue(_, _) => AddKeeps(s, t, call);
      case Dequeue(_) => DequeueKeeps(s, t, call);
      case RemoveAll => ClearKeeps(s, Next(s, m));
      case Shutdown => assert SameContents(s, Next(s, m));
      case Destroy => assert SameContents(s, Next(s, m));
    } else {
      ElsewhereContents(s, m);
    }
  }

  lemma HeapKeeps(s: State, m: Move)
    requires HeapOk(s)
    ensures HeapOk(Next(s, m))
  {
    if m.thread < |s.threads| && s.threads[m.thread].Testing? {
      var call := s.threads[m.thread].call;
      if s.conf.prioritized && Heap.StrictWeak(s.conf.cmp) {
        if call.Enqueue? { Heap.AddedOrdered(s.conf.cmp, s.contents, call.item); }
        if call.Dequeue? && s.contents != [] { Heap.ExtractedOrdered(s.conf.cmp, s.contents); }
      }
    } else {
      ElsewhereContents(s, m);
    }
  }

  /** `blocked` counts the threads inside enqueue and dequeue. */
  lemma BlockedKeeps(s: State, m: Move)
    requires LockOk(s) && m.thread < |s.threads| && s.blocked == InsideCount(s.threads)
    ensures Next(s, m).blocked == InsideCount(Next(s, m).threads)
  {
    var s', t := Next(s, m), m.thread;
    Shape(s, m);
    assert CallOk(s.threads[t]);
    var ts1 := s.threads[t := s'.threads[t]];
    CountUpdate(s.threads, Inside, t, s'.threads[t]);
    CountSame(ts1, s'.threads, Inside);
    BlockedShape(s, m);
  }

  predicate BlockedFollows(s: State, s': State, t: nat)
    requires t < |s.threads|
  {
    |s'.threads| == |s.threads| && s'.blocked == s.blocked + One(Inside(s'.threads[t])) - One(Inside(s.threads[t]))
  }

  lemma BlockedShape(s: State, m: Move)
    requires m.thread < |s.threads| && CallOk(s.threads[m.thread])
    ensures BlockedFollows(s, Next(s, m), m.thread)
  {
    var pc := s.threads[m.thread];
    if pc.Testing? {
      BlockedTesting(s, m);
    } else if pc.Signalling? {
      BlockedSignalling(s, m.thread, pc.call, if m.choice.Pick? then m.choice.which else |s.threads|);
    } else if pc.Idle? || pc.WantLock? || pc.Asleep? || pc.Notified? || pc.Woken? || pc.TimedOut? {
      BlockedEntering(s, m);
    }
  }

  lemma BlockedTesting(s: State, m: Move)
    requires m.thread < |s.threads| && s.threads[m.thread].Testing?
    ensures BlockedFollows(s, Next(s, m), m.thread)
  {
  }

  lemma BlockedSignalling(s: State, t: nat, call: Call, which: nat)
    requires t < |s.threads| && s.threads[t] == Signalling(call)
    ensures BlockedFollows(s, StepSignalling(s, t, call, which), t)
  {
  }

  lemma BlockedEntering(s: State, m: Move)
    requires m.thread < |s.threads| && CallOk(s.threads[m.thread])
    requires var pc := s.threads[m.thread];
             pc.Idle? || pc.WantLock? || pc.Asleep? || pc.Notified? || pc.Woken? || pc.TimedOut?
    ensures BlockedFollows(s, Next(s, m), m.thread)
  {
  }

  lemma MoveKeeps(s: State, m: Move)
    requires Inv(s)
    ensures Inv(Next(s, m)) && |Next(s, m).threads| == |s.threads| && Next(s, m).conf == s.conf
  {
    ContentsKeeps(s, m);
    HeapKeeps(s, m);
    ConfStays(s, m);
    if m.thread < |s.threads| {
      Shape(s, m);
      LockKeeps(s, Next(s, m), m.thread);
      ShutdownKeeps(s, m);
      BlockedKeeps(s, m);
    }
  }

  lemma ConfStays(s: State, m: Move)
    ensures Next(s, m).conf == s.conf
  {
  }

  lemma ObedienceKeeps(s: State, m: Move, rule: Rule)
    requires LockOk(s) && Obedient(rule, s) && Obeys(rule, m)
    ensures Obedient(rule, Next(s, m))
  {
    if m.thread < |s.threads| {
      Shape(s, m);
      CallStays(s, m);
      var s' := Next(s, m);
      forall u | 0 <= u < |s'.threads| && InCall(s'.threads[u])
        ensures Allows(rule, s'.threads[u].call)
      {
        if u != m.thread { assert InCall(s.threads[u]); }
      }
    }
  }

  lemma CallStays(s: State, m: Move)
    requires m.thread < |s.threads| && |Next(s, m).threads| == |s.threads|
    ensures var pc, pc' := s.threads[m.thread], Next(s, m).threads[m.thread];
            || !InCall(pc') || (InCall(pc) && pc'.call == pc.call)
            || (pc.Idle? && m.choice.Begin? && pc' == WantLock(m.choice.call))
  {
  }

  /** In an unbounded queue no producer of a real item ever sleeps. */
  lemma UnboundedKeeps(s: State, m: Move, rule: Rule)
    requires LockOk(s) && Obedient(rule, s) && !rule.nullItems && s.conf.max == 0 && !SomeoneWaits(s, false)
    ensures !SomeoneWaits(Next(s, m), false)
  {
    if m.thread < |s.threads| {
      Shape(s, m);
      UnboundedMover(s, m, rule);
      NoNewSleeper(s, Next(s, m), m.thread, false);
    }
  }

  lemma UnboundedMover(s: State, m: Move, rule: Rule)
    requires m.thread < |s.threads| && |Next(s, m).threads| == |s.threads|
    requires Obedient(rule, s) && !rule.nullItems && s.conf.max == 0
    ensures Waits(Next(s, m).threads[m.thread], false) ==> Waits(s.threads[m.thread], false)
  {
    assert InCall(s.threads[m.thread]) ==> Allows(rule, s.threads[m.thread].call);
  }
}
