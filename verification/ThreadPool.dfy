/**
 The workers of a thread pool (get_tasks and process_task in threading/thread_pool.c) as the
 consumers of its blocking queue.

 Threads below |workers| are workers; the others are callers, who add and clear tasks and, once
 KEEP_ALIVE is down, destroy the queue.  An item is one incarnation of a task: a task made at
 an address that an earlier one has left is another item.
 */
module ThreadPool {
  import opened Counting
  import opened BlockingQueue
  import opened BlockingQueueProofs
  import opened BlockingQueueTheorems
  import opened BlockingQueueCalls
  import opened TaskOrder
  import EventTheorems
  import EventProofs
  import Events

  /**
   `mine` says that the item was taken out of the queue by this call of dequeue: the local
   variable of a dequeue that is shut down before it took one is not initialised.
   */
  datatype Worker =
    | AtLoop
    | Fetching(got: Option<Item>)
    | Fetched(item: Item, mine: bool)
    | Pausing(item: Item, mine: bool)
    | Running(item: Item)
    | Gone

  /** `ran` lists the items process_task was called on, `dropped` those a stopping worker gave up. */
  datatype Pool = Pool(q: State, keepAlive: bool, workers: seq<Worker>, ran: seq<Item>, dropped: seq<Item>)

  /** `junk` is what an uninitialised variable holds. */
  datatype PoolMove =
    | Work(thread: nat, choice: Choice, junk: Item)
    | Call(thread: nat, choice: Choice)
    | Stop

  // ---------------------------------------------------------------- steps

  function SetWorker(p: Pool, t: nat, w: Worker): Pool
    requires t < |p.workers|
  {
    p.(workers := p.workers[t := w])
  }

  /** Inside dequeue: one step of the queue; the call is over when its thread is idle again. */
  function Fetch(p: Pool, t: nat, c: Choice, junk: Item): Pool
    requires t < |p.workers| && p.workers[t].Fetching?
  {
    var q := Next(p.q, Move(t, c));
    var got := if |q.taken| > |p.q.taken| then Some(q.taken[|q.taken| - 1]) else p.workers[t].got;
    if t < |q.threads| && q.threads[t].Idle? then
      SetWorker(p.(q := q), t, if got.Some? then Fetched(got.value, true) else Fetched(junk, false))
    else SetWorker(p.(q := q), t, Fetching(got))
  }

  /** A worker that stops leaves its task behind, or frees it. */
  function Drop(p: Pool, t: nat, item: Item, mine: bool): Pool
    requires t < |p.workers|
  {
    SetWorker(if mine then p.(dropped := p.dropped + [item]) else p, t, Gone)
  }

  function StepWorker(p: Pool, t: nat, c: Choice, junk: Item): Pool
    requires t < |p.workers|
  {
    match p.workers[t]
    case AtLoop =>
      if !p.keepAlive then SetWorker(p, t, Gone)
      else SetWorker(p.(q := Next(p.q, Move(t, Begin(Dequeue(Forever))))), t, Fetching(None))
    case Fetching(_) => if c.Begin? || c.Activate? then p else Fetch(p, t, c, junk)
    case Fetched(item, mine) => if p.keepAlive then SetWorker(p, t, Pausing(item, mine)) else Drop(p, t, item, mine)
    case Pausing(item, mine) =>
      if p.keepAlive then SetWorker(p.(ran := p.ran + [item]), t, Running(item)) else Drop(p, t, item, mine)
    case Running(_) => SetWorker(p, t, AtLoop)
    case Gone => p
  }

  /** Callers add and clear; the queue is destroyed only after KEEP_ALIVE has been taken down. */
  predicate CallerMay(p: Pool, c: Choice) {
    && !c.Activate?
    && (c.Begin? ==> c.call.Enqueue? || c.call.RemoveAll? || (c.call.Destroy? && !p.keepAlive))
  }

  function Step(p: Pool, m: PoolMove): Pool {
    match m
    case Work(t, c, junk) => if t < |p.workers| then StepWorker(p, t, c, junk) else p
    case Call(t, c) => if t >= |p.workers| && CallerMay(p, c) then p.(q := Next(p.q, Move(t, c))) else p
    case Stop => p.(keepAlive := false)
  }

  function Start(conf: Conf, workers: nat, callers: nat): Pool {
    Pool(Init(conf, workers + callers), true, seq(workers, _ => AtLoop), [], [])
  }

  function Run(p: Pool, ms: seq<PoolMove>): Pool {
    if ms == [] then p else Step(Run(p, ms[..|ms| - 1]), ms[|ms| - 1])
  }

  // ---------------------------------------------------------------- the invariant

  /** The worker has the item in its hands and has not run it yet. */
  predicate Holds(w: Worker, item: Item) {
    match w
    case Fetching(got) => got == Some(item)
    case Fetched(x, mine) => mine && x == item
    case Pausing(x, mine) => mine && x == item
    case _ => false
  }

  function Holding(item: Item): Worker -> bool { w => Holds(w, item) }

  predicate Leaving(pc: PC) { pc.Signalling? || pc.Unlocking? || pc.Exiting? }

  /** Where the queue's thread of a worker is. */
  predicate WorkerOk(keepAlive: bool, w: Worker, pc: PC) {
    match w
    case Fetching(got) =>
      && InCall(pc) && pc.call == Dequeue(Forever) && !pc.TimedOut? && !pc.GivingUp?
      && (got.Some? ==> Leaving(pc))
      && (got.None? && Leaving(pc) ==> !keepAlive)
    case Fetched(_, mine) => pc.Idle? && (!mine ==> !keepAlive)
    case Pausing(_, mine) => pc.Idle? && (!mine ==> !keepAlive)
    case _ => pc.Idle?
  }

  /** Callers do not dequeue, and shut the queue down only when the pool is stopping. */
  predicate CallerOk(keepAlive: bool, pc: PC) {
    && (InCall(pc) ==> !pc.call.Dequeue? && !pc.call.Shutdown? && (pc.call.Destroy? ==> !keepAlive))
    && (pc.Draining? || pc.Freed? ==> !keepAlive)
  }

  predicate ThreadsOk(p: Pool) {
    && |p.workers| <= |p.q.threads|
    && (forall t :: 0 <= t < |p.workers| ==> WorkerOk(p.keepAlive, p.workers[t], p.q.threads[t]))
    && (forall t :: |p.workers| <= t < |p.q.threads| ==> CallerOk(p.keepAlive, p.q.threads[t]))
    && (p.q.shutdown ==> !p.keepAlive)
  }

  /** Every time the item was taken out it was run, given up, or is in some worker's hands. */
  ghost predicate Balanced(p: Pool, item: Item) {
    multiset(p.q.taken)[item] == multiset(p.ran)[item] + multiset(p.dropped)[item] + Count(p.workers, Holding(item))
  }

  ghost predicate PoolInv(p: Pool) {
    && Inv(p.q) && ThreadsOk(p)
    && forall item :: Balanced(p, item)
  }

  // ---------------------------------------------------------------- one step of the queue

  predicate Downs(pc: PC) { InCall(pc) && (pc.call.Shutdown? || pc.call.Destroy?) }

  /** What one step of the queue means to the pool. */
  lemma QueueStep(q: State, t: nat, c: Choice)
    requires Inv(q) && t < |q.threads|
    ensures var q' := Next(q, Move(t, c));
            && Inv(q') && |q'.threads| == |q.threads|
            && (forall u :: 0 <= u < |q.threads| && u != t ==>
                  || q'.threads[u] == q.threads[u]
                  || (q.threads[u].Asleep? && q'.threads[u] == Notified(q.threads[u].call)))
            && (q'.shutdown ==> q.shutdown || Downs(q.threads[t]))
  {
    MoveKeeps(q, Move(t, c));
    Shape(q, Move(t, c));
  }

  /** Only a dequeue at its test takes, and it takes one item. */
  lemma TakingStep(q: State, t: nat, c: Choice)
    requires t < |q.threads|
    ensures var q' := Next(q, Move(t, c));
            if q.threads[t].Testing? && q.threads[t].call.Dequeue? && !q.shutdown && q.contents != []
            then q'.taken == q.taken + [q.contents[0]] && q'.threads == q.threads[t := Signalling(q.threads[t].call)]
            else q'.taken == q.taken
  {
  }

  /** Where a dequeue without a deadline goes. */
  lemma DequeueGoes(q: State, t: nat, c: Choice)
    requires t < |q.threads| && !c.Begin? && !c.Activate? && |Next(q, Move(t, c)).threads| == |q.threads|
    requires InCall(q.threads[t]) && q.threads[t].call == Dequeue(Forever)
    requires !q.threads[t].TimedOut? && !q.threads[t].GivingUp? && CallOk(q.threads[t])
    ensures var pc, pc' := q.threads[t], Next(q, Move(t, c)).threads[t];
            if pc'.Idle? then Leaving(pc)
            else
              && InCall(pc') && pc'.call == pc.call && !pc'.TimedOut? && !pc'.GivingUp?
              && (Leaving(pc) ==> Leaving(pc'))
              && (Leaving(pc') ==> Leaving(pc) || (pc.Testing? && (q.shutdown || q.contents != [])))
  {
  }

  /** Where a caller goes. */
  lemma CallerGoes(p: Pool, t: nat, c: Choice)
    requires t < |p.q.threads| && CallerMay(p, c) && CallerOk(p.keepAlive, p.q.threads[t])
    requires |Next(p.q, Move(t, c)).threads| == |p.q.threads|
    ensures CallerOk(p.keepAlive, Next(p.q, Move(t, c)).threads[t])
  {
    CallStays(p.q, Move(t, c));
    CallerEnds(p, t, c);
  }

  lemma CallerEnds(p: Pool, t: nat, c: Choice)
    requires t < |p.q.threads| && CallerMay(p, c) && CallerOk(p.keepAlive, p.q.threads[t])
    requires |Next(p.q, Move(t, c)).threads| == |p.q.threads|
    ensures var pc' := Next(p.q, Move(t, c)).threads[t]; pc'.Draining? || pc'.Freed? ==> !p.keepAlive
  {
  }

  // ---------------------------------------------------------------- every step keeps it

  /** The other threads, woken or not, are where they should be. */
  lemma OthersStay(p: Pool, q': State, t: nat)
    requires ThreadsOk(p) && |q'.threads| == |p.q.threads|
    requires forall u :: 0 <= u < |p.q.threads| && u != t ==>
               || q'.threads[u] == p.q.threads[u]
               || (p.q.threads[u].Asleep? && q'.threads[u] == Notified(p.q.threads[u].call))
    ensures forall u :: 0 <= u < |p.workers| && u != t ==> WorkerOk(p.keepAlive, p.workers[u], q'.threads[u])
    ensures forall u :: |p.workers| <= u < |q'.threads| && u != t ==> CallerOk(p.keepAlive, q'.threads[u])
  {
    forall u | 0 <= u < |p.workers| && u != t
      ensures WorkerOk(p.keepAlive, p.workers[u], q'.threads[u])
    {
      assert WorkerOk(p.keepAlive, p.workers[u], p.q.threads[u]);
    }
    forall u | |p.workers| <= u < |q'.threads| && u != t
      ensures CallerOk(p.keepAlive, q'.threads[u])
    {
      assert CallerOk(p.keepAlive, p.q.threads[u]);
    }
  }

  lemma CallKeeps(p: Pool, t: nat, c: Choice)
    requires PoolInv(p) && t >= |p.workers| && CallerMay(p, c)
    ensures PoolInv(p.(q := Next(p.q, Move(t, c))))
  {
    var p' := p.(q := Next(p.q, Move(t, c)));
    if t < |p.q.threads| {
      assert CallerOk(p.keepAlive, p.q.threads[t]);
      QueueStep(p.q, t, c);
      TakingStep(p.q, t, c);
      CallerGoes(p, t, c);
      OthersStay(p, p'.q, t);
      forall item
        ensures Balanced(p', item)
      {
        assert Balanced(p, item);
      }
    }
  }

  /** A worker changes its place outside the queue. */
  lemma PlaceKeeps(p: Pool, p': Pool, t: nat, w: Worker)
    requires PoolInv(p) && t < |p.workers|
    requires p'.q == p.q && p'.workers == p.workers[t := w] && p'.keepAlive == p.keepAlive
    requires WorkerOk(p.keepAlive, w, p.q.threads[t])
    requires forall item :: multiset(p'.ran)[item] + multiset(p'.dropped)[item] + One(Holds(w, item))
                            == multiset(p.ran)[item] + multiset(p.dropped)[item] + One(Holds(p.workers[t], item))
    ensures PoolInv(p')
  {
    forall item
      ensures Balanced(p', item)
    {
      assert Balanced(p, item);
      CountUpdate(p.workers, Holding(item), t, w);
    }
  }

  lemma Appended1(s: seq<Item>, x: Item, item: Item)
    ensures multiset(s + [x])[item] == multiset(s)[item] + One(item == x)
  {
  }

  lemma DropKeeps(p: Pool, t: nat, item: Item, mine: bool)
    requires PoolInv(p) && t < |p.workers|
    requires p.workers[t] == Fetched(item, mine) || p.workers[t] == Pausing(item, mine)
    ensures PoolInv(Drop(p, t, item, mine))
  {
    assert WorkerOk(p.keepAlive, p.workers[t], p.q.threads[t]);
    forall x
      ensures multiset(p.dropped + [item])[x] == multiset(p.dropped)[x] + One(x == item)
    {
      Appended1(p.dropped, item, x);
    }
    PlaceKeeps(p, Drop(p, t, item, mine), t, Gone);
  }

  lemma RunKeeps(p: Pool, t: nat, item: Item, mine: bool)
    requires PoolInv(p) && t < |p.workers| && p.workers[t] == Pausing(item, mine) && p.keepAlive
    ensures mine && PoolInv(SetWorker(p.(ran := p.ran + [item]), t, Running(item)))
  {
    assert WorkerOk(p.keepAlive, p.workers[t], p.q.threads[t]);
    forall x
      ensures multiset(p.ran + [item])[x] == multiset(p.ran)[x] + One(x == item)
    {
      Appended1(p.ran, item, x);
    }
    PlaceKeeps(p, SetWorker(p.(ran := p.ran + [item]), t, Running(item)), t, Running(item));
  }

  /** A worker moves inside the queue, and is at w afterwards. */
  lemma InsideKeeps(p: Pool, p': Pool, t: nat, c: Choice, w: Worker)
    requires PoolInv(p) && t < |p.workers| && p' == SetWorker(p.(q := Next(p.q, Move(t, c))), t, w)
    requires WorkerOk(p.keepAlive, w, Next(p.q, Move(t, c)).threads[t])
    requires Next(p.q, Move(t, c)).shutdown ==> p.q.shutdown
    requires forall item :: multiset(p'.q.taken)[item] - multiset(p.q.taken)[item]
                            == One(Holds(w, item)) - One(Holds(p.workers[t], item))
    ensures PoolInv(p')
  {
    QueueStep(p.q, t, c);
    OthersStay(p, p'.q, t);
    forall item
      ensures Balanced(p', item)
    {
      assert Balanced(p, item);
      CountUpdate(p.workers, Holding(item), t, w);
    }
  }

  lemma BeginKeeps(p: Pool, t: nat)
    requires PoolInv(p) && t < |p.workers| && p.workers[t].AtLoop?
    ensures PoolInv(SetWorker(p.(q := Next(p.q, Move(t, Begin(Dequeue(Forever))))), t, Fetching(None)))
  {
    assert WorkerOk(p.keepAlive, p.workers[t], p.q.threads[t]);
    var c := Begin(Dequeue(Forever));
    TakingStep(p.q, t, c);
    BeginShape(p.q, t);
    InsideKeeps(p, SetWorker(p.(q := Next(p.q, Move(t, c))), t, Fetching(None)), t, c, Fetching(None));
  }

  lemma BeginShape(q: State, t: nat)
    requires t < |q.threads| && q.threads[t].Idle?
    ensures var q' := Next(q, Move(t, Begin(Dequeue(Forever))));
            q'.threads == q.threads[t := WantLock(Dequeue(Forever))] && q'.shutdown == q.shutdown
  {
  }

  /** Where a fetching worker is afterwards, and what it then holds. */
  lemma FetchGoes(p: Pool, t: nat, c: Choice, junk: Item)
    requires ThreadsOk(p) && t < |p.workers| && p.workers[t].Fetching? && !c.Begin? && !c.Activate?
    requires CallOk(p.q.threads[t]) && |Next(p.q, Move(t, c)).threads| == |p.q.threads|
    ensures var p' := Fetch(p, t, c, junk);
            && p' == SetWorker(p.(q := Next(p.q, Move(t, c))), t, p'.workers[t])
            && WorkerOk(p.keepAlive, p'.workers[t], p'.q.threads[t])
            && (if p'.q.taken == p.q.taken then forall x :: Holds(p'.workers[t], x) == Holds(p.workers[t], x)
                else
                  && p.q.contents != [] && p'.q.taken == p.q.taken + [p.q.contents[0]]
                  && forall x :: !Holds(p.workers[t], x) && (Holds(p'.workers[t], x) <==> x == p.q.contents[0]))
  {
    assert WorkerOk(p.keepAlive, p.workers[t], p.q.threads[t]);
    TakingStep(p.q, t, c);
    DequeueGoes(p.q, t, c);
  }

  lemma FetchKeeps(p: Pool, t: nat, c: Choice, junk: Item)
    requires PoolInv(p) && t < |p.workers| && p.workers[t].Fetching? && !c.Begin? && !c.Activate?
    ensures PoolInv(Fetch(p, t, c, junk))
  {
    assert WorkerOk(p.keepAlive, p.workers[t], p.q.threads[t]) && CallOk(p.q.threads[t]);
    QueueStep(p.q, t, c);
    FetchGoes(p, t, c, junk);
    var p' := Fetch(p, t, c, junk);
    forall item
      ensures multiset(p'.q.taken)[item] - multiset(p.q.taken)[item]
              == One(Holds(p'.workers[t], item)) - One(Holds(p.workers[t], item))
    {
      if p'.q.taken != p.q.taken { Appended1(p.q.taken, p.q.contents[0], item); }
    }
    InsideKeeps(p, p', t, c, p'.workers[t]);
  }

  lemma StepKeeps(p: Pool, m: PoolMove)
    requires PoolInv(p)
    ensures PoolInv(Step(p, m)) && |Step(p, m).workers| == |p.workers|
  {
    match m
    case Stop =>
      forall item
        ensures Balanced(p.(keepAlive := false), item)
      {
        assert Balanced(p, item);
      }
      StopKeeps(p);
    case Call(t, c) => if t >= |p.workers| && CallerMay(p, c) { CallKeeps(p, t, c); }
    case Work(t, c, junk) => if t < |p.workers| { WorkKeeps(p, t, c, junk); }
  }

  lemma StopKeeps(p: Pool)
    requires ThreadsOk(p)
    ensures ThreadsOk(p.(keepAlive := false))
  {
    forall t | 0 <= t < |p.workers|
      ensures WorkerOk(false, p.workers[t], p.q.threads[t])
    {
      assert WorkerOk(p.keepAlive, p.workers[t], p.q.threads[t]);
    }
    forall t | |p.workers| <= t < |p.q.threads|
      ensures CallerOk(false, p.q.threads[t])
    {
      assert CallerOk(p.keepAlive, p.q.threads[t]);
    }
  }

  lemma WorkKeeps(p: Pool, t: nat, c: Choice, junk: Item)
    requires PoolInv(p) && t < |p.workers|
    ensures PoolInv(StepWorker(p, t, c, junk)) && |StepWorker(p, t, c, junk).workers| == |p.workers|
  {
    assert WorkerOk(p.keepAlive, p.workers[t], p.q.threads[t]);
    match p.workers[t]
    case AtLoop => if p.keepAlive { BeginKeeps(p, t); } else { PlaceKeeps(p, SetWorker(p, t, Gone), t, Gone); }
    case Fetching(_) => if !c.Begin? && !c.Activate? { FetchKeeps(p, t, c, junk); }
    case Fetched(item, mine) =>
      if p.keepAlive { PlaceKeeps(p, SetWorker(p, t, Pausing(item, mine)), t, Pausing(item, mine)); }
      else { DropKeeps(p, t, item, mine); }
    case Pausing(item, mine) => if p.keepAlive { RunKeeps(p, t, item, mine); } else { DropKeeps(p, t, item, mine); }
    case Running(_) => PlaceKeeps(p, SetWorker(p, t, AtLoop), t, AtLoop);
    case Gone =>
  }

  lemma {:induction false} RunOk(conf: Conf, workers: nat, callers: nat, ms: seq<PoolMove>)
    ensures PoolInv(Run(Start(conf, workers, callers), ms))
    decreases |ms|
  {
    var p0 := Start(conf, workers, callers);
    if ms == [] {
      CountZero(p0.q.threads, Inside);
      forall item
        ensures Balanced(p0, item)
      {
        CountZero(p0.workers, Holding(item));
      }
    } else {
      RunOk(conf, workers, callers, ms[..|ms| - 1]);
      StepKeeps(Run(p0, ms[..|ms| - 1]), ms[|ms| - 1]);
    }
  }

  // ---------------------------------------------------------------- for every run

  /**
   Every task added to the pool has been run, has been given up by a stopping worker, has been
   cleared, is still queued, or is in the hands of exactly that many workers; so a task that
   was added once is run at most once, whatever the workers' dequeues return.
   */
  lemma {:induction false} TasksAccounted(conf: Conf, workers: nat, callers: nat, ms: seq<PoolMove>, item: Item)
    ensures var p := Run(Start(conf, workers, callers), ms);
            && multiset(p.q.added)[item] == multiset(p.ran)[item] + multiset(p.dropped)[item]
                 + Count(p.workers, Holding(item)) + multiset(p.q.cleared)[item] + multiset(p.q.contents)[item]
            && multiset(p.ran)[item] <= multiset(p.q.added)[item]
  {
    RunOk(conf, workers, callers, ms);
    var p := Run(Start(conf, workers, callers), ms);
    assert Balanced(p, item);
    assert multiset(p.q.added)[item] == (multiset(p.q.taken) + multiset(p.q.cleared) + multiset(p.q.contents))[item];
  }

  /** The task that a move begins to add. */
  function TaskOffer(p: Pool, m: PoolMove): seq<Item> {
    if m.Call? && m.thread >= |p.workers| && CallerMay(p, m.choice) then Offer(p.q, Move(m.thread, m.choice)) else []
  }

  /** The tasks callers passed to the pool in a run, told by its moves. */
  function TaskOffers(p: Pool, ms: seq<PoolMove>): seq<Item> {
    if ms == [] then []
    else TaskOffers(p, ms[..|ms| - 1]) + TaskOffer(Run(p, ms[..|ms| - 1]), ms[|ms| - 1])
  }

  /** A step of the pool is a step of its queue, or leaves the queue alone; only callers offer tasks. */
  lemma StepsQueue(p: Pool, m: PoolMove) returns (c: Move)
    ensures Step(p, m).q == p.q || (Step(p, m).q == Next(p.q, c) && Offer(p.q, c) == TaskOffer(p, m))
  {
    c := if m.Stop? then Move(0, Go)
         else if m.Work? && m.thread < |p.workers| && p.workers[m.thread].AtLoop? then
           Move(m.thread, Begin(Dequeue(Forever)))
         else Move(m.thread, m.choice);
  }

  ghost predicate Covered(p: Pool, offers: seq<Item>, item: Item) {
    multiset(p.q.added)[item] + Count(p.q.threads, PendingOf(item)) <= multiset(offers)[item]
  }

  lemma CoveredStep(p: Pool, m: PoolMove, offers: seq<Item>, item: Item)
    requires PoolInv(p) && Covered(p, offers, item)
    ensures Covered(Step(p, m), offers + TaskOffer(p, m), item)
  {
    var c := StepsQueue(p, m);
    MultisetAppend(offers, TaskOffer(p, m), item);
    if Step(p, m).q != p.q { OfferKeeps(p.q, c, item); }
  }

  lemma {:induction false} CoveredRun(conf: Conf, workers: nat, callers: nat, ms: seq<PoolMove>, item: Item)
    ensures var p0 := Start(conf, workers, callers); Covered(Run(p0, ms), TaskOffers(p0, ms), item)
    decreases |ms|
  {
    var p0 := Start(conf, workers, callers);
    if ms == [] {
      CountZero(p0.q.threads, PendingOf(item));
    } else {
      var rest := ms[..|ms| - 1];
      CoveredRun(conf, workers, callers, rest, item);
      RunOk(conf, workers, callers, rest);
      CoveredStep(Run(p0, rest), ms[|ms| - 1], TaskOffers(p0, rest), item);
    }
  }

  /**
   No worker runs a pointer more often than callers passed it to the pool: not an uninitialised
   one, and not one that nobody gave it.
   */
  lemma {:induction false} RunsOnlyTasks(conf: Conf, workers: nat, callers: nat, ms: seq<PoolMove>, item: Item)
    ensures var p0 := Start(conf, workers, callers);
            multiset(Run(p0, ms).ran)[item] <= multiset(TaskOffers(p0, ms))[item]
  {
    TasksAccounted(conf, workers, callers, ms, item);
    CoveredRun(conf, workers, callers, ms, item);
  }

  /**
   A result handed out by the pool: its task was passed to it once, and process_task was called
   on it as often as the pool's run says.  Then the callback runs at most once, and until the result
   is being destroyed every wait that succeeds returns exactly what the callback returned.
   */
  lemma {:induction false} ResultOfTask(
    conf: Conf, workers: nat, callers: nat, pool: seq<PoolMove>, item: Item, n: nat, ms: seq<Events.Move>)
    requires multiset(TaskOffers(Start(conf, workers, callers), pool))[item] <= 1
    requires forall i :: 0 <= i < |ms| ==> EventProofs.PrivateMove(ms[i])
    requires Events.Exec(Events.Init(Events.PLAIN, n), ms).begun
               <= multiset(Run(Start(conf, workers, callers), pool).ran)[item]
    ensures var s := Events.Exec(Events.Init(Events.PLAIN, n), ms);
            && |s.produced| <= 1
            && (!s.destroying ==> forall i :: 0 <= i < |s.gotten| ==>
                  s.gotten[i].Some? && s.produced == [s.gotten[i].value])
  {
    RunsOnlyTasks(conf, workers, callers, pool, item);
    EventTheorems.ResultIsCallbacks(n, ms);
  }

  // ---------------------------------------------------------------- overtaking

  lemma {:induction false} ConfLasts(conf: Conf, workers: nat, callers: nat, ms: seq<PoolMove>)
    ensures Run(Start(conf, workers, callers), ms).q.conf == conf
    decreases |ms|
  {
    if ms != [] {
      var p := Run(Start(conf, workers, callers), ms[..|ms| - 1]);
      ConfLasts(conf, workers, callers, ms[..|ms| - 1]);
      var c := StepsQueue(p, ms[|ms| - 1]);
      ConfStays(p.q, c);
    }
  }

  /** The queue compares items as the pool compares their tasks. */
  ghost predicate ByPriority(conf: Conf, task: Item -> Task) {
    conf.prioritized && forall a, b :: conf.cmp(a, b) == Compare(task(a), task(b))
  }

  lemma ByPriorityIsLegal(conf: Conf, task: Item -> Task)
    requires ByPriority(conf, task)
    ensures Heap.StrictWeak(conf.cmp)
  {
    forall x, y | conf.cmp(x, y) > 0
      ensures conf.cmp(y, x) <= 0
    {
      CompareIsStrictWeak();
      assert Compare(task(x), task(y)) > 0;
    }
    forall x, y, z | conf.cmp(x, y) <= 0 && conf.cmp(y, z) <= 0
      ensures conf.cmp(x, z) <= 0
    {
      NegativelyTransitive(task(x), task(y), task(z));
    }
  }

  /** What a step of the pool takes is not below anything queued. */
  lemma {:induction false} TakesBest(
    conf: Conf, workers: nat, callers: nat, ms: seq<PoolMove>, m: PoolMove, task: Item -> Task, x: Item)
    requires ByPriority(conf, task)
    requires var p := Run(Start(conf, workers, callers), ms);
             Step(p, m).q.taken != p.q.taken && x in p.q.contents
    ensures var p := Run(Start(conf, workers, callers), ms);
            && p.q.contents != [] && Step(p, m).q.taken == p.q.taken + [p.q.contents[0]]
            && Compare(task(x), task(p.q.contents[0])) <= 0
  {
    var p := Run(Start(conf, workers, callers), ms);
    RunOk(conf, workers, callers, ms);
    ConfLasts(conf, workers, callers, ms);
    ByPriorityIsLegal(conf, task);
    var c := StepsQueue(p, m);
    TakenIsFirstIf(p.q, c);
    assert x in multiset(p.q.contents);
    assert conf.cmp(x, p.q.contents[0]) <= 0;
  }

  /**
   In every run of workers and callers, a step that takes a task while an immediate one is queued
   takes an immediate one, and of those one that was added no later.
   */
  lemma {:induction false} ImmediatesTakenFirst(
    conf: Conf, workers: nat, callers: nat, ms: seq<PoolMove>, m: PoolMove, task: Item -> Task, x: Item)
    requires ByPriority(conf, task)
    requires var p := Run(Start(conf, workers, callers), ms);
             Step(p, m).q.taken != p.q.taken && x in p.q.contents && task(x).priority == IMMEDIATE
    ensures var p := Run(Start(conf, workers, callers), ms);
            && p.q.contents != [] && Step(p, m).q.taken == p.q.taken + [p.q.contents[0]]
            && var y := task(p.q.contents[0]);
               && y.priority == IMMEDIATE
               && (y.sec < task(x).sec || (y.sec == task(x).sec && y.msec <= task(x).msec))
  {
    TakesBest(conf, workers, callers, ms, m, task, x);
    NotBeforeImmediate(task(x), task(Run(Start(conf, workers, callers), ms).q.contents[0]));
  }

  /**
   Bounded overtaking in the pool itself: in every run of workers and callers, a step that takes
   an ordinary task out of the queue passes no ordinary task in it that is at least two seconds
   older, nor, with real stamps, one more than 1000 ms older.
   */
  lemma {:induction false} NeverPassed(
    conf: Conf, workers: nat, callers: nat, ms: seq<PoolMove>, m: PoolMove, task: Item -> Task, x: Item)
    requires ByPriority(conf, task)
    requires var p := Run(Start(conf, workers, callers), ms);
             Step(p, m).q.taken != p.q.taken && x in p.q.contents && Ordinary(task(x))
    ensures var p := Run(Start(conf, workers, callers), ms);
            && p.q.contents != [] && Step(p, m).q.taken == p.q.taken + [p.q.contents[0]]
            && var y := task(p.q.contents[0]);
               Ordinary(y) ==> y.sec < task(x).sec + 2
                               && (Stamped(task(x)) && Stamped(y) ==> Millis(y) <= Millis(task(x)) + 1000)
  {
    TakesBest(conf, workers, callers, ms, m, task, x);
    var y := task(Run(Start(conf, workers, callers), ms).q.contents[0]);
    if Ordinary(y) { NotPassed(task(x), y); }
  }
}
