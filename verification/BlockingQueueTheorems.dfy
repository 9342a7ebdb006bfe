/** What holds in every run of the blocking queue, and exactly where it stops to hold. */
module BlockingQueueTheorems {
  import opened Counting
  import opened BlockingQueue
  import opened BlockingQueueProofs

  lemma {:induction false} RunOk(conf: Conf, n: nat, ms: seq<Move>)
    ensures var s := Exec(Init(conf, n), ms); Inv(s) && s.conf == conf && |s.threads| == n
    decreases |ms|
  {
    if ms == [] {
      CountZero(Init(conf, n).threads, Inside);
    } else {
      RunOk(conf, n, ms[..|ms| - 1]);
      MoveKeeps(Exec(Init(conf, n), ms[..|ms| - 1]), ms[|ms| - 1]);
    }
  }

  /** s is reached by some run whose calls all obey the rule. */
  ghost predicate ReachableUnder(rule: Rule, s: State) {
    exists conf: Conf, n: nat, ms: seq<Move> :: Reaches(rule, conf, n, ms, s)
  }

  ghost predicate Reaches(rule: Rule, conf: Conf, n: nat, ms: seq<Move>, s: State) {
    s == Exec(Init(conf, n), ms) && forall i :: 0 <= i < |ms| ==> Obeys(rule, ms[i])
  }

  const ANY := Rule(true, true, true, true)

  ghost predicate Reachable(s: State) { ReachableUnder(ANY, s) }

  lemma ReachableOk(rule: Rule, s: State)
    requires ReachableUnder(rule, s)
    ensures Inv(s)
  {
    var conf: Conf, n: nat, ms: seq<Move> :| Reaches(rule, conf, n, ms, s);
    RunOk(conf, n, ms);
  }

  lemma ReachableNext(rule: Rule, s: State, m: Move)
    requires ReachableUnder(rule, s) && Obeys(rule, m)
    ensures ReachableUnder(rule, Next(s, m))
  {
    var conf: Conf, n: nat, ms: seq<Move> :| Reaches(rule, conf, n, ms, s);
    assert (ms + [m])[..|ms + [m]| - 1] == ms;
    assert Reaches(rule, conf, n, ms + [m], Next(s, m));
  }

  // ---------------------------------------------------------------- wakeups

  /** What runs under a rule keep beyond the invariant. */
  ghost predicate RuleOk(rule: Rule, s: State) {
    && Obedient(rule, s)
    && (Sound(s.conf, rule, true) ==> WakeupOk(s, true))
    && (Sound(s.conf, rule, false) && s.conf.max != 0 ==> WakeupOk(s, false))
    && (!rule.nullItems && s.conf.max == 0 ==> !SomeoneWaits(s, false))
  }

  lemma RuleKeeps(rule: Rule, s: State, m: Move)
    requires Inv(s) && RuleOk(rule, s) && Obeys(rule, m)
    ensures RuleOk(rule, Next(s, m))
  {
    ObedienceKeeps(s, m, rule);
    ConfStays(s, m);
    if Sound(s.conf, rule, true) { WakeupKeeps(s, m, rule, true); }
    if Sound(s.conf, rule, false) && s.conf.max != 0 { WakeupKeeps(s, m, rule, false); }
    if !rule.nullItems && s.conf.max == 0 { UnboundedKeeps(s, m, rule); }
  }

  lemma {:induction false} RuleRunOk(rule: Rule, conf: Conf, n: nat, ms: seq<Move>)
    requires forall i :: 0 <= i < |ms| ==> Obeys(rule, ms[i])
    ensures RuleOk(rule, Exec(Init(conf, n), ms))
    decreases |ms|
  {
    if ms != [] {
      RunOk(conf, n, ms[..|ms| - 1]);
      RuleRunOk(rule, conf, n, ms[..|ms| - 1]);
      RuleKeeps(rule, Exec(Init(conf, n), ms[..|ms| - 1]), ms[|ms| - 1]);
    }
  }

  lemma UnderRule(rule: Rule, s: State)
    requires ReachableUnder(rule, s)
    ensures Inv(s) && RuleOk(rule, s)
  {
    var conf: Conf, n: nat, ms: seq<Move> :| Reaches(rule, conf, n, ms, s);
    RunOk(conf, n, ms);
    RuleRunOk(rule, conf, n, ms);
  }

  /**
   No lost wakeup: with the mutex free, if a consumer sleeps un-notified then every item
   already has a notified consumer on its way.  It takes either that no dequeue is timed, or
   that a signalled waiter never reports a timeout.
   */
  lemma ConsumersNotStranded(rule: Rule, s: State)
    requires ReachableUnder(rule, s) && (s.conf.strict || !rule.timedDequeue)
    requires s.lock == -1 && SomeoneWaits(s, true)
    ensures |s.contents| <= RunnableCount(s.threads, true)
  {
    UnderRule(rule, s);
  }

  /**
   The same for producers and the free slots of a bounded queue, in runs that enqueue no null
   item and never clear the queue.
   */
  lemma ProducersNotStranded(rule: Rule, s: State)
    requires ReachableUnder(rule, s) && !rule.nullItems && !rule.clears && (s.conf.strict || !rule.timedEnqueue)
    requires s.lock == -1 && SomeoneWaits(s, false)
    ensures s.conf.max != 0 && s.conf.max - |s.contents| <= RunnableCount(s.threads, false)
  {
    UnderRule(rule, s);
  }

  /** Clearing wakes nobody: it keeps the producers' guarantee exactly when it frees no slot that matters. */
  lemma ClearingKeepsProducersIff(s: State, t: nat, c: Choice)
    requires Reachable(s) && t < |s.threads| && s.threads[t] == Testing(RemoveAll) && s.conf.max != 0
    ensures var s' := Next(s, Move(t, c));
            WakeupOk(s', false) <==> !SomeoneWaits(s, false) || s.conf.max <= RunnableCount(s.threads, false)
  {
    ReachableOk(ANY, s);
    assert HoldsLock(s.threads[t]) && s.lock == t;
    var s' := Next(s, Move(t, c));
    CountUpdate(s.threads, RunnableOn(false), t, Unlocking(RemoveAll));
    if SomeoneWaits(s, false) {
      var u :| 0 <= u < |s.threads| && Waits(s.threads[u], false);
      assert Waits(s'.threads[u], false);
    }
    if SomeoneWaits(s', false) {
      var u :| 0 <= u < |s'.threads| && Waits(s'.threads[u], false);
      assert Waits(s.threads[u], false);
    }
  }

  // ---------------------------------------------------------------- shutdown and destruction

  /** With the mutex free, a queue that is shut down has no un-notified sleeper. */
  lemma ShutdownWakesAll(s: State, consumer: bool)
    requires Reachable(s) && s.lock == -1 && s.shutdown
    ensures !SomeoneWaits(s, consumer)
  {
    ReachableOk(ANY, s);
  }

  /** `blocked` is the number of threads inside, so the destroyer leaves its loop only when there is none. */
  lemma DestroyedWhenEmpty(s: State, t: nat, c: Choice)
    requires Reachable(s) && t < |s.threads| && s.threads[t].Draining?
    ensures s.blocked == InsideCount(s.threads)
    ensures Next(s, Move(t, c)).threads[t].Freed? <==> forall u :: 0 <= u < |s.threads| ==> !Inside(s.threads[u])
  {
    ReachableOk(ANY, s);
    CountZero(s.threads, Inside);
    DrainingShape(s, t, c);
  }

  lemma DrainingShape(s: State, t: nat, c: Choice)
    requires t < |s.threads| && s.threads[t].Draining?
    ensures Next(s, Move(t, c)).threads == if s.blocked > 0 then s.threads else s.threads[t := Freed]
  {
  }

  // ---------------------------------------------------------------- items

  /** Every item added was taken, was cleared, or is still there; the bound is respected. */
  lemma ItemsConserved(s: State)
    requires Reachable(s)
    ensures multiset(s.added) == multiset(s.taken) + multiset(s.cleared) + multiset(s.contents)
    ensures s.conf.max != 0 ==> |s.contents| <= s.conf.max
    ensures !s.conf.prioritized ==> s.added == s.departed + s.contents
  {
    ReachableOk(ANY, s);
  }

  /**
   A move takes out at most one item, and in every reachable state that is a maximum of the
   contents of a heap with a legal order, and the oldest item of a list.
   */
  lemma TakenIsFirst(s: State, m: Move)
    requires Reachable(s) && Next(s, m).taken != s.taken
    ensures TakesFirst(s, m)
  {
    ReachableOk(ANY, s);
    TakenIsFirstIf(s, m);
  }

  ghost predicate TakesFirst(s: State, m: Move) {
    && s.contents != [] && Next(s, m).taken == s.taken + [s.contents[0]]
    && multiset(Next(s, m).contents) == multiset(s.contents) - multiset{s.contents[0]}
    && (s.conf.prioritized && Heap.StrictWeak(s.conf.cmp) ==>
          Heap.IsMax(s.conf.cmp, multiset(s.contents), s.contents[0]))
    && (!s.conf.prioritized ==> |s.departed| < |s.added| && s.contents[0] == s.added[|s.departed|])
  }

  lemma TakenIsFirstIf(s: State, m: Move)
    requires Inv(s) && Next(s, m).taken != s.taken
    ensures TakesFirst(s, m)
  {
    TakingShape(s, m);
    TakeItemOk(s.conf, s.contents);
    if s.conf.prioritized && Heap.StrictWeak(s.conf.cmp) { Heap.RootIsMax(s.conf.cmp, s.contents); }
  }

  lemma TakingShape(s: State, m: Move)
    requires Next(s, m).taken != s.taken
    ensures s.contents != [] && Next(s, m).taken == s.taken + [s.contents[0]]
    ensures Next(s, m).contents == TakeItem(s.conf, s.contents)
  {
  }

  /** An item added once is taken out at most once, and not at all once it has been cleared. */
  lemma TakenAtMostOnce(s: State, item: Item)
    requires Reachable(s) && multiset(s.added)[item] == 1
    ensures multiset(s.taken)[item] + multiset(s.cleared)[item] + multiset(s.contents)[item] == 1
  {
    ItemsConserved(s);
    var all := multiset(s.taken) + multiset(s.cleared) + multiset(s.contents);
    assert all[item] == multiset(s.taken)[item] + multiset(s.cleared)[item] + multiset(s.contents)[item];
  }
}
