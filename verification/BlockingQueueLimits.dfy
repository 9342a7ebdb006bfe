/** Exactly when the wakeup guarantees of the blocking queue hold, and the runs that break them. */
module BlockingQueueLimits {
  import opened Counting
  import opened BlockingQueue
  import opened BlockingQueueProofs
  import opened BlockingQueueTheorems

  /** There is more to use on that side than threads on their way to use it. */
  predicate Unused(s: State, consumer: bool) {
    || (!consumer && s.conf.max == 0)
    || RunnableCount(s.threads, consumer) < Surplus(s, consumer)
  }

  /** A sleeper is stranded: the mutex is free, there is something for it, and nobody runnable. */
  predicate Stranded(s: State, consumer: bool) {
    s.lock == -1 && SomeoneWaits(s, consumer) && Unused(s, consumer)
  }

  /** No run under the rule strands anybody on that side. */
  ghost predicate Safe(conf: Conf, rule: Rule, consumer: bool) {
    forall s :: ReachableUnder(rule, s) && s.conf == conf ==> !Stranded(s, consumer)
  }

  /**
   Consumers are safe in all runs under a rule if and only if the rule has no timed dequeue, or
   a signalled waiter never reports a timeout.
   */
  lemma ConsumersSafeIff(conf: Conf, rule: Rule)
    ensures Safe(conf, rule, true) <==> conf.strict || !rule.timedDequeue
  {
    if conf.strict || !rule.timedDequeue {
      forall s | ReachableUnder(rule, s) && s.conf == conf
        ensures !Stranded(s, true)
      {
        UnderRule(rule, s);
      }
    } else {
      ExpiredSignalStrandsConsumer(conf, rule);
    }
  }

  /**
   Producers are safe in all runs under a rule if and only if the rule has no null items and,
   for a bounded queue, no clearing and no timed enqueue unless a signalled waiter never
   reports a timeout.  An unbounded queue has room for any number of items.
   */
  lemma ProducersSafeIff(conf: Conf, rule: Rule)
    ensures Safe(conf, rule, false) <==>
              !rule.nullItems && (conf.max == 0 || (!rule.clears && (conf.strict || !rule.timedEnqueue)))
  {
    if Sound(conf, rule, false) {
      forall s | ReachableUnder(rule, s) && s.conf == conf
        ensures !Stranded(s, false)
      {
        UnderRule(rule, s);
      }
    } else if rule.nullItems {
      NullItemStrandsProducer(conf, rule);
    } else if rule.clears {
      ClearingStrandsProducer(conf, rule);
    } else {
      ExpiredSignalStrandsProducer(conf, rule);
    }
  }

  // ---------------------------------------------------------------- pieces of runs

  lemma Started(conf: Conf, rule: Rule) returns (s: State)
    ensures ReachableUnder(rule, s) && Calm(s, conf, 0) && s.threads == [Idle, Idle, Idle]
  {
    s := Init(conf, 3);
    assert Reaches(rule, conf, 3, [], s);
  }

  lemma Move1(rule: Rule, s: State, m: Move) returns (s': State)
    requires ReachableUnder(rule, s) && Obeys(rule, m)
    ensures ReachableUnder(rule, s') && s' == Next(s, m)
  {
    ReachableNext(rule, s, m);
    s' := Next(s, m);
  }

  ghost predicate Calm(s: State, conf: Conf, items: nat) {
    s.conf == conf && s.lock == -1 && !s.shutdown && |s.contents| == items
  }

  /** s is s0 but for the mutex, the threads and the counter. */
  ghost predicate Alike(s0: State, s: State) {
    s.conf == s0.conf && s.contents == s0.contents && s.shutdown == s0.shutdown
  }

  lemma Locks(rule: Rule, s0: State, t: nat, call: Call) returns (s: State)
    requires ReachableUnder(rule, s0) && t < |s0.threads| && s0.threads[t].Idle? && s0.lock == -1 && Allows(rule, call)
    ensures ReachableUnder(rule, s) && Alike(s0, s) && s.lock == t && s.threads == s0.threads[t := Testing(call)]
  {
    s := Move1(rule, s0, Move(t, Begin(call)));
    assert s.threads == s0.threads[t := WantLock(call)];
    s := Move1(rule, s, Move(t, Go));
  }

  lemma Unlocks(rule: Rule, s0: State, t: nat, call: Call) returns (s: State)
    requires ReachableUnder(rule, s0) && t < |s0.threads| && (call.Enqueue? || call.Dequeue?)
    requires s0.threads[t] == Unlocking(call) || s0.threads[t] == GivingUp(call)
    ensures ReachableUnder(rule, s) && Alike(s0, s) && s.lock == -1 && s.threads == s0.threads[t := Idle]
  {
    s := Move1(rule, s0, Move(t, Go));
    assert s.threads == s0.threads[t := Exiting(call)];
    s := Move1(rule, s, Move(t, Go));
  }

  /** A call that finds nothing to do falls asleep. */
  lemma Sleeps(rule: Rule, s0: State, t: nat, call: Call) returns (s: State)
    requires ReachableUnder(rule, s0) && t < |s0.threads| && s0.threads[t].Idle? && s0.lock == -1 && Allows(rule, call)
    requires (call.Enqueue? || call.Dequeue?) && !call.timeout.Zero? && !s0.shutdown
    requires if call.Enqueue? then Full(s0) || call.item == NULL else s0.contents == []
    ensures ReachableUnder(rule, s) && Alike(s0, s) && s.lock == -1 && s.threads == s0.threads[t := Asleep(call)]
  {
    s := Locks(rule, s0, t, call);
    s := Move1(rule, s, Move(t, Go));
  }

  /** A call that succeeds, up to its signal. */
  lemma Succeeds(rule: Rule, s0: State, t: nat, call: Call) returns (s: State)
    requires ReachableUnder(rule, s0) && t < |s0.threads| && s0.threads[t].Idle? && s0.lock == -1 && Allows(rule, call)
    requires !s0.shutdown
    requires if call.Enqueue? then !Full(s0) && call.item != NULL else call.Dequeue? && s0.contents != []
    ensures ReachableUnder(rule, s) && s.conf == s0.conf && !s.shutdown && s.lock == t
    ensures |s.contents| == |s0.contents| + (if call.Enqueue? then 1 else -1)
    ensures s.threads == s0.threads[t := Signalling(call)]
  {
    s := Locks(rule, s0, t, call);
    if call.Enqueue? { AddItemOk(s.conf, s.contents, call.item); } else { TakeItemOk(s.conf, s.contents); }
    s := Move1(rule, s, Move(t, Go));
  }

  /** Thread 2 signals thread 0, if it sleeps there, and leaves. */
  lemma Signals(rule: Rule, s0: State, call: Call) returns (s: State)
    requires ReachableUnder(rule, s0) && |s0.threads| == 3 && s0.threads[2] == Signalling(call)
    requires call.Enqueue? || call.Dequeue?
    requires Waits(s0.threads[0], call.Enqueue?) || !SomeoneWaits(s0, call.Enqueue?)
    ensures ReachableUnder(rule, s) && Alike(s0, s) && s.lock == -1
    ensures s.threads == [if Waits(s0.threads[0], call.Enqueue?) then Notified(s0.threads[0].call) else s0.threads[0],
                          s0.threads[1], Idle]
  {
    s := Move1(rule, s0, Move(2, Pick(0)));
    SignalsShape(s0, call);
    s := Unlocks(rule, s, 2, call);
  }

  lemma SignalsShape(s: State, call: Call)
    requires |s.threads| == 3 && s.threads[2] == Signalling(call)
    requires Waits(s.threads[0], call.Enqueue?) || !SomeoneWaits(s, call.Enqueue?)
    ensures var s' := Next(s, Move(2, Pick(0)));
            && Alike(s, s')
            && s'.threads == [if Waits(s.threads[0], call.Enqueue?) then Notified(s.threads[0].call) else s.threads[0],
                              s.threads[1], Unlocking(call)]
  {
  }

  /** The thread signalled reports a timeout. */
  lemma GivesUp(rule: Rule, s0: State, call: Call) returns (s: State)
    requires ReachableUnder(rule, s0) && !s0.conf.strict && s0.lock == -1 && |s0.threads| == 3
    requires s0.threads[0] == Notified(call) && IsTimed(call)
    ensures ReachableUnder(rule, s) && Alike(s0, s) && s.lock == -1 && s.threads == s0.threads[0 := Idle]
  {
    s := Move1(rule, s0, Move(0, Expire));
    assert s.threads == s0.threads[0 := TimedOut(call)];
    s := Move1(rule, s, Move(0, Go));
    assert s.threads == s0.threads[0 := GivingUp(call)];
    s := Unlocks(rule, s, 0, call);
  }

  /** One sleeper, nobody on the way, something to use. */
  lemma IsStranded(s: State, a: PC, b: PC, consumer: bool)
    requires s.threads == [a, b, Idle] && s.lock == -1
    requires Surplus(s, consumer) > 0 || (!consumer && s.conf.max == 0)
    requires Waits(a, consumer) || Waits(b, consumer)
    requires !Runnable(a, consumer) && !Runnable(b, consumer)
    ensures Stranded(s, consumer)
  {
    CountZero(s.threads, RunnableOn(consumer));
    assert Waits(s.threads[0], consumer) || Waits(s.threads[1], consumer);
  }

  // ---------------------------------------------------------------- producers

  /** Thread 2 fills the queue up to any number of items that fits. */
  lemma {:induction false} FillsTo(conf: Conf, rule: Rule, k: nat) returns (s: State)
    requires k <= conf.max
    ensures ReachableUnder(rule, s) && Calm(s, conf, k) && s.threads == [Idle, Idle, Idle]
    decreases k
  {
    if k == 0 {
      s := Started(conf, rule);
    } else {
      s := FillsTo(conf, rule, k - 1);
      s := Succeeds(rule, s, 2, Enqueue(7, Forever));
      assert !SomeoneWaits(s, true);
      s := Signals(rule, s, Enqueue(7, Forever));
    }
  }

  /** A full queue, a producer asleep, and a call that clears the queue. */
  lemma ClearingStrandsProducer(conf: Conf, rule: Rule)
    requires conf.max != 0 && rule.clears
    ensures exists s :: ReachableUnder(rule, s) && s.conf == conf && Stranded(s, false)
  {
    var s := FillsTo(conf, rule, conf.max);
    s := Sleeps(rule, s, 0, Enqueue(8, Forever));
    s := Clears(rule, s);
    IsStranded(s, Asleep(Enqueue(8, Forever)), Idle, false);
  }

  lemma Clears(rule: Rule, s0: State) returns (s: State)
    requires ReachableUnder(rule, s0) && rule.clears && s0.lock == -1 && |s0.threads| == 3 && s0.threads[2].Idle?
    ensures ReachableUnder(rule, s) && s.conf == s0.conf && s.contents == [] && s.lock == -1 && s.threads == s0.threads
  {
    s := Locks(rule, s0, 2, RemoveAll);
    s := Move1(rule, s, Move(2, Go));
    assert s.threads == s0.threads[2 := Unlocking(RemoveAll)];
    s := Move1(rule, s, Move(2, Go));
  }

  /** A null item is refused like an item that does not fit: its producer sleeps beside room for it. */
  lemma NullItemStrandsProducer(conf: Conf, rule: Rule)
    requires rule.nullItems
    ensures exists s :: ReachableUnder(rule, s) && s.conf == conf && Stranded(s, false)
  {
    var s := Started(conf, rule);
    s := Sleeps(rule, s, 0, Enqueue(NULL, Forever));
    IsStranded(s, Asleep(Enqueue(NULL, Forever)), Idle, false);
  }

  /**
   POSIX.1 lets a wait that times out use up a signal sent at the same moment.  Enqueue then
   returns without looking at the queue again, and another producer sleeps beside a free slot.
   */
  lemma ExpiredSignalStrandsProducer(conf: Conf, rule: Rule)
    requires conf.max != 0 && !conf.strict && rule.timedEnqueue
    ensures exists s :: ReachableUnder(rule, s) && s.conf == conf && Stranded(s, false)
  {
    var timed, other := Enqueue(8, Timed), Enqueue(9, Forever);
    var s := FillsTo(conf, rule, conf.max);
    s := Sleeps(rule, s, 0, timed);
    s := Sleeps(rule, s, 1, other);
    s := Succeeds(rule, s, 2, Dequeue(Forever));
    assert s.threads == [Asleep(timed), Asleep(other), Signalling(Dequeue(Forever))];
    s := Signals(rule, s, Dequeue(Forever));
    s := GivesUp(rule, s, timed);
    IsStranded(s, Idle, Asleep(other), false);
  }

  // ---------------------------------------------------------------- consumers

  /** The same for consumers: one sleeps beside an item. */
  lemma ExpiredSignalStrandsConsumer(conf: Conf, rule: Rule)
    requires !conf.strict && rule.timedDequeue
    ensures exists s :: ReachableUnder(rule, s) && s.conf == conf && Stranded(s, true)
  {
    var timed, other := Dequeue(Timed), Dequeue(Forever);
    var s := Started(conf, rule);
    s := Sleeps(rule, s, 0, timed);
    s := Sleeps(rule, s, 1, other);
    s := Succeeds(rule, s, 2, Enqueue(7, Forever));
    assert s.threads == [Asleep(timed), Asleep(other), Signalling(Enqueue(7, Forever))];
    s := Signals(rule, s, Enqueue(7, Forever));
    s := GivesUp(rule, s, timed);
    IsStranded(s, Idle, Asleep(other), true);
  }
}
