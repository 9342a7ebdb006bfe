/** A live pool runs its tasks. */
module ThreadPoolProgress {
  import opened Counting
  import opened BlockingQueue
  import Calls = BlockingQueueCalls
  import opened ThreadPool

  // ---------------------------------------------------------------- nothing is given up

  /** As long as KEEP_ALIVE is up no worker has stopped or given up a task. */
  predicate Steady(p: Pool) {
    p.keepAlive ==> p.dropped == [] && forall t :: 0 <= t < |p.workers| ==> !p.workers[t].Gone?
  }

  lemma SteadyStep(p: Pool, m: PoolMove)
    requires Steady(p)
    ensures Steady(Step(p, m))
  {
  }

  lemma {:induction false} NothingDropped(conf: Conf, workers: nat, callers: nat, ms: seq<PoolMove>)
    ensures Steady(Run(Start(conf, workers, callers), ms))
    decreases |ms|
  {
    if ms != [] {
      NothingDropped(conf, workers, callers, ms[..|ms| - 1]);
      SteadyStep(Run(Start(conf, workers, callers), ms[..|ms| - 1]), ms[|ms| - 1]);
    }
  }

  // ---------------------------------------------------------------- a fetched task is run

  function Own(ms: seq<PoolMove>, t: nat): nat {
    if ms == [] then 0
    else Own(ms[..|ms| - 1], t) + One(ms[|ms| - 1].Work? && ms[|ms| - 1].thread == t)
  }

  /** Where a worker with a fetched task is after so many moves of its own. */
  ghost predicate OnItsWay(p0: Pool, p: Pool, t: nat, item: Item, own: nat) {
    && p.keepAlive && t < |p.workers| && multiset(p0.ran)[item] <= multiset(p.ran)[item]
    && (own == 0 ==> p.workers[t] == Fetched(item, true))
    && (own == 1 ==> p.workers[t] == Pausing(item, true))
    && (own >= 2 ==> multiset(p.ran)[item] > multiset(p0.ran)[item])
  }

  lemma OnItsWayStep(p0: Pool, p: Pool, t: nat, item: Item, own: nat, m: PoolMove)
    requires OnItsWay(p0, p, t, item, own) && !m.Stop?
    ensures OnItsWay(p0, Step(p, m), t, item, own + One(m.Work? && m.thread == t))
  {
    RanGrows(p, m, item);
    if m.Work? && m.thread == t && own == 1 {
      assert multiset(p.ran + [item])[item] == multiset(p.ran)[item] + 1;
    }
  }

  lemma RanGrows(p: Pool, m: PoolMove, item: Item)
    ensures multiset(p.ran)[item] <= multiset(Step(p, m).ran)[item]
  {
    if Step(p, m).ran != p.ran {
      var x := p.workers[m.thread].item;
      assert multiset(p.ran + [x])[item] >= multiset(p.ran)[item];
    }
  }

  /**
   A task that a worker has fetched is run by that worker's second move at the latest, whatever
   the others do, as long as the pool is not stopped.
   */
  lemma {:induction false} FetchedIsRun(p: Pool, t: nat, item: Item, ms: seq<PoolMove>)
    requires p.keepAlive && t < |p.workers| && p.workers[t] == Fetched(item, true)
    requires forall i :: 0 <= i < |ms| ==> !ms[i].Stop?
    ensures OnItsWay(p, Run(p, ms), t, item, Own(ms, t))
    decreases |ms|
  {
    if ms != [] {
      FetchedIsRun(p, t, item, ms[..|ms| - 1]);
      OnItsWayStep(p, Run(p, ms[..|ms| - 1]), t, item, Own(ms[..|ms| - 1], t), ms[|ms| - 1]);
    }
  }

  // ---------------------------------------------------------------- a worker that is not disturbed

  ghost predicate Leads(p0: Pool, t: nat, ms: seq<PoolMove>, p: Pool) {
    p == Run(p0, ms) && forall i :: 0 <= i < |ms| ==> ms[i].Work? && ms[i].thread == t
  }

  /** k moves of worker t alone lead from p0 to p. */
  ghost predicate Alone(p0: Pool, t: nat, p: Pool, k: nat) {
    exists ms: seq<PoolMove> :: Leads(p0, t, ms, p) && |ms| == k
  }

  lemma Here(p: Pool, t: nat)
    ensures Alone(p, t, p, 0)
  {
    var ms: seq<PoolMove> := [];
    assert Leads(p, t, ms, p) && |ms| == 0;
  }

  lemma OneMore(p0: Pool, t: nat, p: Pool, k: nat, c: Choice) returns (p': Pool)
    requires Alone(p0, t, p, k)
    ensures p' == Step(p, Work(t, c, NULL)) && Alone(p0, t, p', k + 1)
  {
    var ms: seq<PoolMove> :| Leads(p0, t, ms, p) && |ms| == k;
    p' := Step(p, Work(t, c, NULL));
    var more := ms + [Work(t, c, NULL)];
    assert more[..k] == ms;
    assert Leads(p0, t, more, p') && |more| == k + 1;
  }

  const DEQUEUE := Dequeue(Forever)

  /** The worker is inside dequeue, at pc, with what it has taken so far; the queue is q otherwise. */
  ghost predicate At(p: Pool, t: nat, got: Option<Item>, pc: PC) {
    && t < |p.workers| && p.workers[t] == Fetching(got)
    && t < |p.q.threads| && p.q.threads[t] == pc
  }

  /** What a worker leaves alone while it fetches. */
  ghost predicate Untouched(p: Pool, p': Pool) {
    p'.keepAlive == p.keepAlive && p'.ran == p.ran && p'.q.shutdown == p.q.shutdown && p'.q.conf == p.q.conf
  }

  lemma Begins(p0: Pool, t: nat) returns (p: Pool)
    requires t < |p0.workers| && p0.workers[t].AtLoop? && p0.keepAlive
    requires t < |p0.q.threads| && p0.q.threads[t].Idle? && p0.q.lock == -1
    ensures Alone(p0, t, p, 2) && At(p, t, None, Testing(DEQUEUE)) && Untouched(p0, p) && p.q.contents == p0.q.contents
  {
    Here(p0, t);
    var p1 := OneMore(p0, t, p0, 0, Go);
    BeginsShape(p0, t);
    p := OneMore(p0, t, p1, 1, Go);
    LocksShape(p1, t);
  }

  lemma BeginsShape(p: Pool, t: nat)
    requires t < |p.workers| && p.workers[t].AtLoop? && p.keepAlive
    requires t < |p.q.threads| && p.q.threads[t].Idle?
    ensures var p' := Step(p, Work(t, Go, NULL));
            && At(p', t, None, WantLock(DEQUEUE)) && Untouched(p, p')
            && p'.q.contents == p.q.contents && p'.q.lock == p.q.lock
  {
  }

  lemma LocksShape(p: Pool, t: nat)
    requires At(p, t, None, WantLock(DEQUEUE)) && p.q.lock == -1
    ensures var p' := Step(p, Work(t, Go, NULL));
            && At(p', t, None, Testing(DEQUEUE)) && Untouched(p, p') && p'.q.contents == p.q.contents
  {
    assert Next(p.q, Move(t, Go)).taken == p.q.taken;
  }

  lemma Takes(p0: Pool, t: nat, p: Pool, k: nat) returns (p': Pool)
    requires Alone(p0, t, p, k) && At(p, t, None, Testing(DEQUEUE)) && !p.q.shutdown && p.q.contents != []
    ensures Alone(p0, t, p', k + 1) && At(p', t, Some(p.q.contents[0]), Signalling(DEQUEUE)) && Untouched(p, p')
  {
    p' := OneMore(p0, t, p, k, Go);
    TakingStep(p.q, t, Go);
    TakesShape(p, t);
  }

  lemma TakesShape(p: Pool, t: nat)
    requires At(p, t, None, Testing(DEQUEUE)) && !p.q.shutdown && p.q.contents != []
    ensures Untouched(p, Step(p, Work(t, Go, NULL)))
  {
  }

  /** From the signal out of dequeue: the item is fetched. */
  lemma Returns(p0: Pool, t: nat, p: Pool, k: nat, item: Item) returns (p': Pool)
    requires Alone(p0, t, p, k) && At(p, t, Some(item), Signalling(DEQUEUE))
    ensures Alone(p0, t, p', k + 3) && Untouched(p, p') && t < |p'.workers| && p'.workers[t] == Fetched(item, true)
  {
    var w := if SomeoneWaits(p.q, false) then FirstWaiter(p.q) else |p.q.threads|;
    var p1 := OneMore(p0, t, p, k, Pick(w));
    SignalsShape(p, t, item, w);
    var p2 := OneMore(p0, t, p1, k + 1, Go);
    UnlocksShape(p1, t, item);
    p' := OneMore(p0, t, p2, k + 2, Go);
    ExitsShape(p2, t, item);
  }

  ghost function FirstWaiter(q: State): nat
    requires SomeoneWaits(q, false)
  {
    var w: nat :| w < |q.threads| && Waits(q.threads[w], false);
    w
  }

  lemma SignalsShape(p: Pool, t: nat, item: Item, w: nat)
    requires At(p, t, Some(item), Signalling(DEQUEUE))
    requires (w < |p.q.threads| && Waits(p.q.threads[w], false)) || (!SomeoneWaits(p.q, false) && w == |p.q.threads|)
    ensures var p' := Step(p, Work(t, Pick(w), NULL)); At(p', t, Some(item), Unlocking(DEQUEUE)) && Untouched(p, p')
  {
    assert Next(p.q, Move(t, Pick(w))).taken == p.q.taken;
  }

  lemma UnlocksShape(p: Pool, t: nat, item: Item)
    requires At(p, t, Some(item), Unlocking(DEQUEUE))
    ensures var p' := Step(p, Work(t, Go, NULL)); At(p', t, Some(item), Exiting(DEQUEUE)) && Untouched(p, p')
  {
    assert Next(p.q, Move(t, Go)).taken == p.q.taken;
  }

  lemma ExitsShape(p: Pool, t: nat, item: Item)
    requires At(p, t, Some(item), Exiting(DEQUEUE))
    ensures var p' := Step(p, Work(t, Go, NULL)); Untouched(p, p') && p'.workers == p.workers[t := Fetched(item, true)]
  {
    assert Next(p.q, Move(t, Go)).taken == p.q.taken;
  }

  /**
   In a pool that is not being stopped, a worker at the top of its loop that finds the mutex free
   and a task in the queue, and is not disturbed, runs that task, the best one queued, within
   eight moves, and is back at the top of its loop with the ninth.
   */
  lemma {:induction false} WorkerRunsTask(conf: Conf, workers: nat, callers: nat, ms: seq<PoolMove>, t: nat)
    returns (p': Pool)
    requires var p := Run(Start(conf, workers, callers), ms);
             && p.keepAlive && t < |p.workers| && p.workers[t].AtLoop? && p.q.lock == -1 && p.q.contents != []
    ensures var p := Run(Start(conf, workers, callers), ms);
            && Alone(p, t, p', 9) && p'.ran == p.ran + [p.q.contents[0]]
            && t < |p'.workers| && p'.workers[t].AtLoop? && p'.keepAlive
  {
    RunOk(conf, workers, callers, ms);
    p' := RunsFirst(Run(Start(conf, workers, callers), ms), t);
  }

  lemma RunsFirst(p: Pool, t: nat) returns (p': Pool)
    requires PoolInv(p) && p.keepAlive && t < |p.workers| && p.workers[t].AtLoop?
    requires p.q.lock == -1 && p.q.contents != []
    ensures Alone(p, t, p', 9) && p'.ran == p.ran + [p.q.contents[0]]
    ensures t < |p'.workers| && p'.workers[t].AtLoop? && p'.keepAlive
  {
    assert WorkerOk(p.keepAlive, p.workers[t], p.q.threads[t]);
    var item := p.q.contents[0];
    p' := Begins(p, t);
    p' := Takes(p, t, p', 2);
    p' := Returns(p, t, p', 3, item);
    p' := RunsIt(p, t, p', 6, item);
  }

  lemma RunsIt(p0: Pool, t: nat, p: Pool, k: nat, item: Item) returns (p': Pool)
    requires Alone(p0, t, p, k) && t < |p.workers| && p.workers[t] == Fetched(item, true) && p.keepAlive
    ensures Alone(p0, t, p', k + 3) && p'.ran == p.ran + [item] && p'.keepAlive
    ensures t < |p'.workers| && p'.workers[t].AtLoop?
  {
    var p1 := OneMore(p0, t, p, k, Go);
    assert p1.workers == p.workers[t := Pausing(item, true)] && p1.keepAlive && p1.ran == p.ran;
    var p2 := OneMore(p0, t, p1, k + 1, Go);
    assert p2.workers == p.workers[t := Running(item)] && p2.keepAlive && p2.ran == p.ran + [item];
    p' := OneMore(p0, t, p2, k + 2, Go);
  }

  // ---------------------------------------------------------------- a task that is passed to the pool

  /** The moves of one caller. */
  function CallsOf(t: nat, cs: seq<Choice>): seq<PoolMove> {
    if cs == [] then [] else CallsOf(t, cs[..|cs| - 1]) + [Call(t, cs[|cs| - 1])]
  }

  /** The calls of a caller are calls on the queue, and change nothing else. */
  lemma {:induction false} CallerDrives(p: Pool, t: nat, cs: seq<Choice>)
    requires t >= |p.workers| && forall i :: 0 <= i < |cs| ==> CallerMay(p, cs[i])
    ensures Run(p, CallsOf(t, cs)) == p.(q := Exec(p.q, Calls.By(t, cs)))
    decreases |cs|
  {
    if cs != [] {
      var n := |cs| - 1;
      CallerDrives(p, t, cs[..n]);
      assert CallsOf(t, cs)[..|CallsOf(t, cs)| - 1] == CallsOf(t, cs[..n]);
      assert Calls.By(t, cs)[..|Calls.By(t, cs)| - 1] == Calls.By(t, cs[..n]);
      assert CallerMay(p, cs[n]);
    }
  }

  /** A caller passes the item to the pool, and then just goes on until the call is over. */
  ghost predicate Submits(item: Item, cs: seq<Choice>) {
    && |cs| <= 6
    && forall i :: 0 <= i < |cs| ==> if i == 0 then cs[i] == Begin(Enqueue(item, Forever)) else cs[i].Go? || cs[i].Pick?
  }

  lemma CallerAdds(p: Pool, t: nat, item: Item) returns (cs: seq<Choice>)
    requires |p.workers| <= t < |p.q.threads| && p.q.threads[t].Idle? && p.q.lock == -1
    requires !p.q.shutdown && item != NULL && !Full(p.q)
    ensures Submits(item, cs)
    ensures var p' := Run(p, CallsOf(t, cs));
            && p' == p.(q := p'.q) && p'.q.lock == -1 && p'.q.added == p.q.added + [item]
            && multiset(p'.q.contents) == multiset(p.q.contents) + multiset{item}
  {
    var s, k := Calls.EnqueueAlone(p.q, t, item, Forever);
    var pre := [Begin(Enqueue(item, Forever))];
    cs :| Calls.Leads(p.q, t, pre, cs, s) && |cs| == k;
    CallerDrives(p, t, cs);
  }

  lemma {:induction false} CallsKeep(p: Pool, t: nat, cs: seq<Choice>)
    requires PoolInv(p)
    ensures PoolInv(Run(p, CallsOf(t, cs)))
    decreases |cs|
  {
    if cs != [] {
      CallsKeep(p, t, cs[..|cs| - 1]);
      assert CallsOf(t, cs)[..|CallsOf(t, cs)| - 1] == CallsOf(t, cs[..|cs| - 1]);
      StepKeeps(Run(p, CallsOf(t, cs[..|cs| - 1])), Call(t, cs[|cs| - 1]));
    }
  }

  /**
   From the caller to the callback: in every reachable live pool with an empty queue, a task that
   a caller passes in is run, and nothing else is, by a worker at the top of its loop.
   */
  lemma {:induction false} SubmittedIsRun(conf: Conf, workers: nat, callers: nat, ms: seq<PoolMove>,
                                          caller: nat, t: nat, item: Item)
    returns (cs: seq<Choice>, p': Pool)
    requires var p := Run(Start(conf, workers, callers), ms);
             && p.keepAlive && p.q.lock == -1 && p.q.contents == [] && !Full(p.q) && item != NULL
             && t < |p.workers| && p.workers[t].AtLoop?
             && |p.workers| <= caller < |p.q.threads| && p.q.threads[caller].Idle?
    ensures var p := Run(Start(conf, workers, callers), ms);
            && Submits(item, cs) && Alone(Run(p, CallsOf(caller, cs)), t, p', 9) && p'.ran == p.ran + [item]
  {
    var p := Run(Start(conf, workers, callers), ms);
    RunOk(conf, workers, callers, ms);
    cs := CallerAdds(p, caller, item);
    CallsKeep(p, caller, cs);
    var p1 := Run(p, CallsOf(caller, cs));
    OnlyItem(p1.q.contents, item);
    p' := RunsFirst(p1, t);
  }

  lemma OnlyItem(items: seq<Item>, item: Item)
    requires multiset(items) == multiset{item}
    ensures items == [item]
  {
    assert |multiset(items)| == |items| && items[0] in multiset(items);
  }
}
