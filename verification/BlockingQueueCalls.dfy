/** What the calls of the blocking queue do for their callers. */
module BlockingQueueCalls {
  import opened Counting
  import opened BlockingQueue
  import opened BlockingQueueProofs
  import opened BlockingQueueTheorems

  // ---------------------------------------------------------------- what callers offer

  /** The item that a move begins to enqueue. */
  function Offer(s: State, m: Move): seq<Item> {
    if m.thread < |s.threads| && s.threads[m.thread].Idle? && m.choice.Begin? && m.choice.call.Enqueue? then
      [m.choice.call.item]
    else []
  }

  /** The items passed to enqueue in a run, told by its moves. */
  function Offers(s: State, ms: seq<Move>): seq<Item> {
    if ms == [] then []
    else Offers(s, ms[..|ms| - 1]) + Offer(Exec(s, ms[..|ms| - 1]), ms[|ms| - 1])
  }

  /** In an enqueue of the item that has neither added it nor left its loop. */
  predicate Pending(pc: PC, item: Item) {
    && InCall(pc) && pc.call.Enqueue? && pc.call.item == item
    && !pc.Signalling? && !pc.Unlocking? && !pc.Exiting?
  }

  function PendingOf(item: Item): PC -> bool { pc => Pending(pc, item) }

  /** A move adds the item of an enqueue under way, once, or nothing. */
  lemma AddingShape(s: State, m: Move)
    requires Next(s, m).added != s.added
    ensures m.thread < |s.threads| && s.threads[m.thread].Testing? && s.threads[m.thread].call.Enqueue?
    ensures var call := s.threads[m.thread].call;
            && Next(s, m).added == s.added + [call.item]
            && multiset(Next(s, m).contents) == multiset(s.contents) + multiset{call.item}
            && Next(s, m).threads == s.threads[m.thread := Signalling(call)]
  {
    AddItemOk(s.conf, s.contents, s.threads[m.thread].call.item);
  }

  lemma PendingMover(s: State, m: Move, item: Item)
    requires m.thread < |s.threads| && |Next(s, m).threads| == |s.threads| && CallOk(s.threads[m.thread])
    ensures var pc, pc' := s.threads[m.thread], Next(s, m).threads[m.thread];
            Pending(pc', item) ==> Pending(pc, item) || Offer(s, m) == [item]
  {
    CallStays(s, m);
    Leaves(s, m);
  }

  lemma Leaves(s: State, m: Move)
    requires m.thread < |s.threads| && |Next(s, m).threads| == |s.threads|
    ensures var pc, pc' := s.threads[m.thread], Next(s, m).threads[m.thread];
            pc.Signalling? || pc.Unlocking? || pc.Exiting? ==>
              pc'.Signalling? || pc'.Unlocking? || pc'.Exiting? || !InCall(pc')
  {
  }

  /** What is added or still to be added grows only by what is offered. */
  lemma OfferKeeps(s: State, m: Move, item: Item)
    requires Inv(s)
    ensures multiset(Next(s, m).added)[item] + Count(Next(s, m).threads, PendingOf(item))
            <= multiset(s.added)[item] + Count(s.threads, PendingOf(item)) + multiset(Offer(s, m))[item]
  {
    if m.thread < |s.threads| {
      Shape(s, m);
      assert CallOk(s.threads[m.thread]);
      PendingCount(s, Next(s, m), m.thread, item);
      if Next(s, m).added != s.added {
        AddingShape(s, m);
        MultisetAppend(s.added, [s.threads[m.thread].call.item], item);
      } else {
        PendingMover(s, m, item);
      }
    }
  }

  lemma PendingCount(s: State, s': State, t: nat, item: Item)
    requires t < |s.threads| && OthersOk(s, s', t)
    ensures Count(s'.threads, PendingOf(item)) + One(Pending(s.threads[t], item))
            == Count(s.threads, PendingOf(item)) + One(Pending(s'.threads[t], item))
  {
    CountUpdate(s.threads, PendingOf(item), t, s'.threads[t]);
    CountSame(s.threads[t := s'.threads[t]], s'.threads, PendingOf(item));
  }

  lemma {:induction false} OfferRunOk(conf: Conf, n: nat, ms: seq<Move>, item: Item)
    ensures multiset(Exec(Init(conf, n), ms).added)[item] + Count(Exec(Init(conf, n), ms).threads, PendingOf(item))
            <= multiset(Offers(Init(conf, n), ms))[item]
    decreases |ms|
  {
    var s0 := Init(conf, n);
    if ms == [] {
      CountZero(s0.threads, PendingOf(item));
    } else {
      var rest, m := ms[..|ms| - 1], ms[|ms| - 1];
      OfferRunOk(conf, n, rest, item);
      RunOk(conf, n, rest);
      OfferKeeps(Exec(s0, rest), m, item);
      MultisetAppend(Offers(s0, rest), Offer(Exec(s0, rest), m), item);
    }
  }

  lemma MultisetAppend(a: seq<Item>, b: seq<Item>, item: Item)
    ensures multiset(a + b)[item] == multiset(a)[item] + multiset(b)[item]
  {
  }

  /**
   No item is added more often than it was passed to an enqueue call, in any run: what comes out
   of the queue is what callers put in.
   */
  lemma {:induction false} AddedWasOffered(conf: Conf, n: nat, ms: seq<Move>, item: Item)
    ensures var s := Exec(Init(conf, n), ms);
            && multiset(s.added)[item] <= multiset(Offers(Init(conf, n), ms))[item]
            && multiset(s.taken)[item] + multiset(s.cleared)[item] + multiset(s.contents)[item]
                 <= multiset(Offers(Init(conf, n), ms))[item]
  {
    OfferRunOk(conf, n, ms, item);
    RunOk(conf, n, ms);
    var s := Exec(Init(conf, n), ms);
    var all := multiset(s.taken) + multiset(s.cleared) + multiset(s.contents);
    assert all[item] == multiset(s.taken)[item] + multiset(s.cleared)[item] + multiset(s.contents)[item];
  }

  // ---------------------------------------------------------------- a call that is not disturbed

  /** The moves of one thread. */
  function By(t: nat, cs: seq<Choice>): seq<Move> {
    if cs == [] then [] else By(t, cs[..|cs| - 1]) + [Move(t, cs[|cs| - 1])]
  }

  /**
   k moves of thread t alone lead from s0 to s: it begins as `pre` says, and from then on leaves to
   the outside world nothing but the choice of whom a signal wakes.
   */
  ghost predicate Alone(s0: State, t: nat, pre: seq<Choice>, s: State, k: nat) {
    exists cs: seq<Choice> :: Leads(s0, t, pre, cs, s) && |cs| == k
  }

  ghost predicate Leads(s0: State, t: nat, pre: seq<Choice>, cs: seq<Choice>, s: State) {
    s == Exec(s0, By(t, cs)) && Fits(pre, cs)
  }

  ghost predicate Fits(pre: seq<Choice>, cs: seq<Choice>) {
    forall i :: 0 <= i < |cs| ==> if i < |pre| then cs[i] == pre[i] else cs[i].Go? || cs[i].Pick?
  }

  lemma ByMore(s0: State, t: nat, cs: seq<Choice>, c: Choice)
    ensures Exec(s0, By(t, cs + [c])) == Next(Exec(s0, By(t, cs)), Move(t, c))
  {
    var more := cs + [c];
    assert more[..|cs|] == cs;
    var ms := By(t, cs) + [Move(t, c)];
    assert By(t, more) == ms && ms[..|ms| - 1] == By(t, cs);
  }

  lemma Here(s: State, t: nat, pre: seq<Choice>)
    ensures Alone(s, t, pre, s, 0)
  {
    var cs: seq<Choice> := [];
    assert Leads(s, t, pre, cs, s) && |cs| == 0;
  }

  lemma OneMore(s0: State, t: nat, pre: seq<Choice>, s: State, k: nat, c: Choice) returns (s': State)
    requires Alone(s0, t, pre, s, k) && if k < |pre| then c == pre[k] else c.Go? || c.Pick?
    ensures s' == Next(s, Move(t, c)) && Alone(s0, t, pre, s', k + 1)
  {
    var cs: seq<Choice> :| Leads(s0, t, pre, cs, s) && |cs| == k;
    s' := Next(s, Move(t, c));
    ByMore(s0, t, cs, c);
    assert Leads(s0, t, pre, cs + [c], s') && |cs + [c]| == k + 1;
  }

  /** s is s0 but for the mutex, the threads and the counter. */
  ghost predicate Alike(s0: State, s: State) {
    && s.conf == s0.conf && s.contents == s0.contents && s.shutdown == s0.shutdown
    && s.added == s0.added && s.taken == s0.taken && s.cleared == s0.cleared
  }

  /** From idle to the first test. */
  lemma Enters(s0: State, t: nat, call: Call) returns (s: State)
    requires t < |s0.threads| && s0.threads[t].Idle? && s0.lock == -1
    ensures Alone(s0, t, [Begin(call)], s, 2) && Alike(s0, s) && s.lock == t
    ensures s.threads == s0.threads[t := Testing(call)]
    ensures s.blocked == s0.blocked + One(call.Enqueue? || call.Dequeue?)
  {
    Here(s0, t, [Begin(call)]);
    s := OneMore(s0, t, [Begin(call)], s0, 0, Begin(call));
    assert s.threads == s0.threads[t := WantLock(call)] && Alike(s0, s) && s.lock == -1;
    s := OneMore(s0, t, [Begin(call)], s, 1, Go);
  }

  /** From the signal to idle; whoever is signalled, nobody is left asleep who was not. */
  lemma Exits(s0: State, t: nat, pre: seq<Choice>, s1: State, k: nat, call: Call) returns (s: State)
    requires |pre| <= k && Alone(s0, t, pre, s1, k) && t < |s1.threads| && s1.threads[t] == Signalling(call)
    requires call.Enqueue? || call.Dequeue?
    ensures Alone(s0, t, pre, s, k + 3) && Alike(s1, s) && s.lock == -1
    ensures |s.threads| == |s1.threads| && s.threads[t].Idle?
  {
    s := Signals(s0, t, pre, s1, k, call);
    s := Unlocks(s0, t, pre, s, k + 1, call);
    s := Goes(s0, t, pre, s, k + 2, Exiting(call), Idle);
  }

  lemma Unlocks(s0: State, t: nat, pre: seq<Choice>, s: State, k: nat, call: Call) returns (s': State)
    requires |pre| <= k && Alone(s0, t, pre, s, k) && t < |s.threads| && s.threads[t] == Unlocking(call)
    requires call.Enqueue? || call.Dequeue?
    ensures Alone(s0, t, pre, s', k + 1) && Alike(s, s') && s'.lock == -1
    ensures s'.threads == s.threads[t := Exiting(call)]
  {
    s' := OneMore(s0, t, pre, s, k, Go);
  }

  lemma Signals(s0: State, t: nat, pre: seq<Choice>, s1: State, k: nat, call: Call) returns (s: State)
    requires |pre| <= k && Alone(s0, t, pre, s1, k) && t < |s1.threads| && s1.threads[t] == Signalling(call)
    ensures Alone(s0, t, pre, s, k + 1) && Alike(s1, s)
    ensures |s.threads| == |s1.threads| && s.threads[t] == Unlocking(call)
  {
    if SomeoneWaits(s1, call.Enqueue?) {
      var w: nat :| w < |s1.threads| && Waits(s1.threads[w], call.Enqueue?);
      s := OneMore(s0, t, pre, s1, k, Pick(w));
    } else {
      s := OneMore(s0, t, pre, s1, k, Go);
    }
  }

  // ---------------------------------------------------------------- enqueue and dequeue

  /** What an enqueue on its own comes to. */
  ghost predicate EnqueueDone(s0: State, t: nat, item: Item, timeout: Timeout, s: State) {
    && t < |s.threads| && s.lock == -1 && s.taken == s0.taken && s.cleared == s0.cleared
    && s.shutdown == s0.shutdown
    && (if !s0.shutdown && item != NULL && !Full(s0) then
          && s.threads[t].Idle? && s.added == s0.added + [item]
          && multiset(s.contents) == multiset(s0.contents) + multiset{item}
        else
          && s.added == s0.added && s.contents == s0.contents
          && s.threads[t] == if s0.shutdown || timeout.Zero? then Idle else Asleep(Enqueue(item, timeout)))
  }

  /**
   An enqueue that finds the mutex free and is not disturbed adds exactly its item if the queue
   is open, the item is not null and there is room; otherwise it adds nothing, and returns at
   once if the queue is shut down or it may not wait, and sleeps if not.
   */
  lemma EnqueueAlone(s0: State, t: nat, item: Item, timeout: Timeout) returns (s: State, k: nat)
    requires t < |s0.threads| && s0.threads[t].Idle? && s0.lock == -1
    ensures k <= 6 && Alone(s0, t, [Begin(Enqueue(item, timeout))], s, k) && EnqueueDone(s0, t, item, timeout, s)
  {
    var call := Enqueue(item, timeout);
    var s1 := Enters(s0, t, call);
    s := TestsEnqueue(s0, t, [Begin(Enqueue(item, timeout))], s1, 2, call);
    k := 3;
    if s.threads[t] == Signalling(call) {
      s := Exits(s0, t, [Begin(Enqueue(item, timeout))], s, 3, call);
      k := 6;
    }
  }

  /** What one test of enqueue's loop comes to. */
  ghost predicate EnqueueTested(s: State, t: nat, call: Call, s': State)
    requires t < |s.threads| && call.Enqueue?
  {
    && s'.taken == s.taken && s'.cleared == s.cleared && s'.shutdown == s.shutdown && s'.conf == s.conf
    && (if !s.shutdown && call.item != NULL && !Full(s) then
          && multiset(s'.contents) == multiset(s.contents) + multiset{call.item} && s'.added == s.added + [call.item]
          && s'.threads == s.threads[t := Signalling(call)]
        else
          && s'.contents == s.contents && s'.added == s.added
          && (if s.shutdown || call.timeout.Zero? then s'.threads == s.threads[t := Signalling(call)]
              else s'.threads == s.threads[t := Asleep(call)] && s'.lock == -1))
  }

  lemma TestsEnqueue(s0: State, t: nat, pre: seq<Choice>, s: State, k: nat, call: Call) returns (s': State)
    requires |pre| <= k && Alone(s0, t, pre, s, k) && t < |s.threads| && s.threads[t] == Testing(call) && call.Enqueue?
    ensures Alone(s0, t, pre, s', k + 1) && EnqueueTested(s, t, call, s')
  {
    AddItemOk(s.conf, s.contents, call.item);
    s' := OneMore(s0, t, pre, s, k, Go);
  }

  /** What a dequeue on its own comes to. */
  ghost predicate DequeueDone(s0: State, t: nat, timeout: Timeout, s: State) {
    && t < |s.threads| && s.lock == -1 && s.added == s0.added && s.cleared == s0.cleared
    && s.shutdown == s0.shutdown && |s.threads| == |s0.threads|
    && (if !s0.shutdown && s0.contents != [] then
          && s.threads[t].Idle? && s.taken == s0.taken + [s0.contents[0]]
          && multiset(s0.contents) == multiset(s.contents) + multiset{s0.contents[0]}
        else
          && s.taken == s0.taken && s.contents == s0.contents
          && s.threads[t] == if s0.shutdown || timeout.Zero? then Idle else Asleep(Dequeue(timeout)))
  }

  /**
   A dequeue that finds the mutex free and is not disturbed takes exactly the first item if the
   queue is open and not empty; otherwise it takes nothing, and returns at once if the queue is
   shut down or it may not wait, and sleeps if not.
   */
  lemma DequeueAlone(s0: State, t: nat, timeout: Timeout) returns (s: State, k: nat)
    requires t < |s0.threads| && s0.threads[t].Idle? && s0.lock == -1
    ensures k <= 6 && Alone(s0, t, [Begin(Dequeue(timeout))], s, k) && DequeueDone(s0, t, timeout, s)
  {
    var call := Dequeue(timeout);
    var s1 := Enters(s0, t, call);
    s := TestsDequeue(s0, t, [Begin(Dequeue(timeout))], s1, 2, call);
    k := 3;
    if s.threads[t] == Signalling(call) {
      s := Exits(s0, t, [Begin(Dequeue(timeout))], s, 3, call);
      k := 6;
    }
  }

  /** What one test of dequeue's loop comes to. */
  ghost predicate DequeueTested(s: State, t: nat, call: Call, s': State)
    requires t < |s.threads| && call.Dequeue?
  {
    && s'.added == s.added && s'.cleared == s.cleared && s'.shutdown == s.shutdown && s'.conf == s.conf
    && (if !s.shutdown && s.contents != [] then
          && multiset(s.contents) == multiset(s'.contents) + multiset{s.contents[0]}
          && s'.taken == s.taken + [s.contents[0]] && s'.threads == s.threads[t := Signalling(call)]
        else
          && s'.contents == s.contents && s'.taken == s.taken
          && (if s.shutdown || call.timeout.Zero? then s'.threads == s.threads[t := Signalling(call)]
              else s'.threads == s.threads[t := Asleep(call)] && s'.lock == -1))
  }

  lemma TestsDequeue(s0: State, t: nat, pre: seq<Choice>, s: State, k: nat, call: Call) returns (s': State)
    requires |pre| <= k && Alone(s0, t, pre, s, k) && t < |s.threads| && s.threads[t] == Testing(call) && call.Dequeue?
    ensures Alone(s0, t, pre, s', k + 1) && DequeueTested(s, t, call, s')
  {
    if s.contents != [] { TakeItemOk(s.conf, s.contents); }
    s' := OneMore(s0, t, pre, s, k, Go);
  }

  // ---------------------------------------------------------------- clearing, shutting down, destroying

  /** Clearing empties the queue and records what was in it. */
  lemma RemoveAllAlone(s0: State, t: nat) returns (s: State)
    requires t < |s0.threads| && s0.threads[t].Idle? && s0.lock == -1
    ensures Alone(s0, t, [Begin(RemoveAll)], s, 4) && s.lock == -1 && s.threads == s0.threads && s.contents == []
    ensures s.cleared == s0.cleared + s0.contents && s.added == s0.added && s.taken == s0.taken
  {
    s := Enters(s0, t, RemoveAll);
    s := OneMore(s0, t, [Begin(RemoveAll)], s, 2, Go);
    assert s.threads == s0.threads[t := Unlocking(RemoveAll)];
    s := OneMore(s0, t, [Begin(RemoveAll)], s, 3, Go);
  }

  /** Shutting down closes the queue and leaves nobody asleep; destroying goes on to wait. */
  lemma ShutdownAlone(s0: State, t: nat, call: Call) returns (s: State)
    requires t < |s0.threads| && s0.threads[t].Idle? && s0.lock == -1 && (call.Shutdown? || call.Destroy?)
    ensures Alone(s0, t, [Begin(call)], s, 5) && s.lock == -1 && s.shutdown
    ensures !SomeoneWaits(s, true) && !SomeoneWaits(s, false)
    ensures |s.threads| == |s0.threads| && s.threads[t] == (if call.Destroy? then Draining else Idle)
    ensures s.contents == s0.contents && s.added == s0.added && s.taken == s0.taken && s.blocked == s0.blocked
  {
    s := Enters(s0, t, call);
    s := Tells(s0, t, [Begin(call)], s, 2, call);
    s := LetsGo(s0, t, [Begin(call)], s, 4, call);
  }

  /** Both broadcasts. */
  lemma Tells(s0: State, t: nat, pre: seq<Choice>, s: State, k: nat, call: Call) returns (s': State)
    requires |pre| <= k && Alone(s0, t, pre, s, k) && t < |s.threads| && s.threads[t] == Testing(call)
    requires (call.Shutdown? || call.Destroy?)
    ensures Alone(s0, t, pre, s', k + 2) && s'.shutdown && !SomeoneWaits(s', true) && !SomeoneWaits(s', false)
    ensures |s'.threads| == |s.threads| && s'.threads[t] == Unlocking(call) && s'.blocked == s.blocked
    ensures s'.contents == s.contents && s'.added == s.added && s'.taken == s.taken
  {
    var s1 := OneMore(s0, t, pre, s, k, Go);
    TellsProducers(s, t, call);
    s' := OneMore(s0, t, pre, s1, k + 1, Go);
    TellsConsumers(s1, t, call);
  }

  lemma LetsGo(s0: State, t: nat, pre: seq<Choice>, s: State, k: nat, call: Call) returns (s': State)
    requires |pre| <= k && Alone(s0, t, pre, s, k) && t < |s.threads| && s.threads[t] == Unlocking(call)
    requires call.Shutdown? || call.Destroy?
    requires !SomeoneWaits(s, true) && !SomeoneWaits(s, false)
    ensures Alone(s0, t, pre, s', k + 1) && s'.lock == -1 && s'.shutdown == s.shutdown && s'.blocked == s.blocked
    ensures s'.threads == s.threads[t := if call.Destroy? then Draining else Idle]
    ensures !SomeoneWaits(s', true) && !SomeoneWaits(s', false)
    ensures s'.contents == s.contents && s'.added == s.added && s'.taken == s.taken
  {
    s' := OneMore(s0, t, pre, s, k, Go);
    forall u | 0 <= u < |s'.threads|
      ensures !Waits(s'.threads[u], true) && !Waits(s'.threads[u], false)
    {
      assert !Waits(s.threads[u], true) && !Waits(s.threads[u], false);
    }
  }

  lemma TellsProducers(s: State, t: nat, call: Call)
    requires t < |s.threads| && s.threads[t] == Testing(call) && (call.Shutdown? || call.Destroy?)
    ensures var s' := Next(s, Move(t, Go));
            && s'.shutdown && !SomeoneWaits(s', false)
            && |s'.threads| == |s.threads| && s'.threads[t] == ToldProducers(call)
            && s'.contents == s.contents && s'.added == s.added && s'.taken == s.taken && s'.blocked == s.blocked
  {
  }

  lemma TellsConsumers(s: State, t: nat, call: Call)
    requires t < |s.threads| && s.threads[t] == ToldProducers(call) && !SomeoneWaits(s, false)
    ensures var s' := Next(s, Move(t, Go));
            && s'.shutdown == s.shutdown && !SomeoneWaits(s', false) && !SomeoneWaits(s', true)
            && |s'.threads| == |s.threads| && s'.threads[t] == Unlocking(call)
            && s'.contents == s.contents && s'.added == s.added && s'.taken == s.taken && s'.blocked == s.blocked
  {
    var s' := Next(s, Move(t, Go));
    forall u | 0 <= u < |s'.threads|
      ensures !Waits(s'.threads[u], false) && !Waits(s'.threads[u], true)
    {
      assert !Waits(s.threads[u], false);
    }
  }

  /** Activating opens the queue again, whatever was before. */
  lemma ActivateOpens(s: State, t: nat)
    requires t < |s.threads| && s.threads[t].Idle?
    ensures Next(s, Move(t, Activate)) == s.(shutdown := false)
  {
  }

  predicate Activates(m: Move) { m.choice.Activate? }

  /**
   From the moment a shutdown or destroy call has the mutex and acts, and until somebody activates
   the queue, it stays shut down and nothing is added or taken, whatever anybody does.
   */
  lemma {:induction false} ShutdownLasts(s: State, t: nat, ms: seq<Move>)
    requires t < |s.threads| && s.threads[t].Testing? && (s.threads[t].call.Shutdown? || s.threads[t].call.Destroy?)
    requires forall i :: 0 <= i < |ms| ==> !Activates(ms[i])
    ensures var s' := Exec(Next(s, Move(t, Go)), ms);
            s'.shutdown && s'.added == s.added && s'.taken == s.taken
    decreases |ms|
  {
    if ms == [] {
      TellsProducers(s, t, s.threads[t].call);
    } else {
      ShutdownLasts(s, t, ms[..|ms| - 1]);
      ClosedStep(Exec(Next(s, Move(t, Go)), ms[..|ms| - 1]), ms[|ms| - 1]);
    }
  }

  lemma ClosedStep(s: State, m: Move)
    requires s.shutdown && !Activates(m)
    ensures Next(s, m).shutdown && Next(s, m).added == s.added && Next(s, m).taken == s.taken
  {
  }

  /** Once the queue is shut down, whoever is inside a call is out after at most five moves of its own. */
  lemma ShutdownReleases(s0: State, t: nat) returns (s: State, k: nat)
    requires Reachable(s0) && s0.shutdown && s0.lock == -1 && t < |s0.threads| && Inside(s0.threads[t])
    ensures k <= 5 && Alone(s0, t, [], s, k) && s.lock == -1 && t < |s.threads| && s.threads[t].Idle?
    ensures s.added == s0.added && s.taken == s0.taken
  {
    ShutdownPlaces(s0, t);
    if s0.threads[t].Exiting? || s0.threads[t].TimedOut? {
      s, k := LeavesEmpty(s0, t, s0.threads[t].call);
    } else {
      s := LeavesClosed(s0, t, s0.threads[t].call);
      k := 5;
    }
  }

  lemma LeavesEmpty(s0: State, t: nat, call: Call) returns (s: State, k: nat)
    requires t < |s0.threads| && s0.lock == -1 && (call.Enqueue? || call.Dequeue?)
    requires s0.threads[t] == Exiting(call) || s0.threads[t] == TimedOut(call)
    ensures k <= 3 && Alone(s0, t, [], s, k) && s.lock == -1 && Alike(s0, s) && s.threads == s0.threads[t := Idle]
  {
    Here(s0, t, []);
    if s0.threads[t].TimedOut? {
      s := GivesUp(s0, t, call);
      s := Goes(s0, t, [], s, 2, Exiting(call), Idle);
      k := 3;
    } else {
      s := Goes(s0, t, [], s0, 0, Exiting(call), Idle);
      k := 1;
    }
  }

  lemma GivesUp(s0: State, t: nat, call: Call) returns (s: State)
    requires t < |s0.threads| && s0.lock == -1 && (call.Enqueue? || call.Dequeue?) && s0.threads[t] == TimedOut(call)
    ensures Alone(s0, t, [], s, 2) && s.lock == -1 && Alike(s0, s) && s.threads == s0.threads[t := Exiting(call)]
  {
    Here(s0, t, []);
    s := Goes(s0, t, [], s0, 0, TimedOut(call), GivingUp(call));
    s := Goes(s0, t, [], s, 1, GivingUp(call), Exiting(call));
  }

  lemma LeavesClosed(s0: State, t: nat, call: Call) returns (s: State)
    requires t < |s0.threads| && s0.lock == -1 && s0.shutdown && (call.Enqueue? || call.Dequeue?)
    requires s0.threads[t] == WantLock(call) || s0.threads[t] == Notified(call) || s0.threads[t] == Woken(call)
    ensures Alone(s0, t, [], s, 5) && s.lock == -1 && Alike(s0, s) && t < |s.threads| && s.threads[t].Idle?
  {
    Here(s0, t, []);
    s := Goes(s0, t, [], s0, 0, s0.threads[t], Testing(call));
    s := TestsClosed(s0, t, [], s, 1, call);
    s := Exits(s0, t, [], s, 2, call);
  }

  lemma ShutdownPlaces(s: State, t: nat)
    requires Reachable(s) && s.shutdown && s.lock == -1 && t < |s.threads| && Inside(s.threads[t])
    ensures var pc := s.threads[t];
            && (pc.call.Enqueue? || pc.call.Dequeue?)
            && (pc.Exiting? || pc.TimedOut? || pc.WantLock? || pc.Notified? || pc.Woken?)
  {
    ReachableOk(ANY, s);
    assert CallOk(s.threads[t]) && !HoldsLock(s.threads[t]);
    assert !Waits(s.threads[t], true) && !Waits(s.threads[t], false);
  }

  /** One step of a thread on its way to its test, or out. */
  lemma Goes(s0: State, t: nat, pre: seq<Choice>, s: State, k: nat, pc: PC, pc': PC) returns (s': State)
    requires |pre| <= k && Alone(s0, t, pre, s, k) && t < |s.threads| && s.threads[t] == pc && InCall(pc)
    requires pc.call.Enqueue? || pc.call.Dequeue?
    requires pc' == if pc.Exiting? then Idle else if pc.GivingUp? then Exiting(pc.call)
                    else if pc.TimedOut? then GivingUp(pc.call) else Testing(pc.call)
    requires || pc.Exiting? || pc.GivingUp?
             || (s.lock == -1 && (pc.TimedOut? || pc.WantLock? || pc.Notified? || pc.Woken?))
    ensures Alone(s0, t, pre, s', k + 1) && Alike(s, s') && s'.threads == s.threads[t := pc']
    ensures s'.lock == if pc.GivingUp? then -1 else if pc.Exiting? then s.lock else t
  {
    s' := OneMore(s0, t, pre, s, k, Go);
  }

  lemma TestsClosed(s0: State, t: nat, pre: seq<Choice>, s: State, k: nat, call: Call) returns (s': State)
    requires |pre| <= k && Alone(s0, t, pre, s, k) && t < |s.threads| && s.threads[t] == Testing(call) && s.shutdown
    requires call.Enqueue? || call.Dequeue?
    ensures Alone(s0, t, pre, s', k + 1) && Alike(s, s') && s'.threads == s.threads[t := Signalling(call)]
  {
    s' := OneMore(s0, t, pre, s, k, Go);
  }

  /** A destroyer that finds nobody inside frees the queue. */
  lemma DestroyAlone(s0: State, t: nat) returns (s: State)
    requires Reachable(s0) && t < |s0.threads| && s0.threads[t].Idle? && s0.lock == -1
    requires forall u :: 0 <= u < |s0.threads| ==> !Inside(s0.threads[u])
    ensures Alone(s0, t, [Begin(Destroy)], s, 6) && t < |s.threads| && s.threads[t].Freed?
  {
    ReachableOk(ANY, s0);
    CountZero(s0.threads, Inside);
    var s1 := ShutdownAlone(s0, t, Destroy);
    s := OneMore(s0, t, [Begin(Destroy)], s1, 5, Go);
  }

  // ---------------------------------------------------------------- a call that may not wait

  /** A call with a zero timeout never sleeps, in any run. */
  lemma {:induction false} ZeroNeverSleeps(conf: Conf, n: nat, ms: seq<Move>)
    ensures NoZeroSleeper(Exec(Init(conf, n), ms))
    decreases |ms|
  {
    if ms != [] {
      ZeroNeverSleeps(conf, n, ms[..|ms| - 1]);
      RunOk(conf, n, ms[..|ms| - 1]);
      ZeroStep(Exec(Init(conf, n), ms[..|ms| - 1]), ms[|ms| - 1]);
    }
  }

  predicate ZeroAsleep(pc: PC) { pc.Asleep? && (pc.call.Enqueue? || pc.call.Dequeue?) && pc.call.timeout.Zero? }

  predicate NoZeroSleeper(s: State) { forall t :: 0 <= t < |s.threads| ==> !ZeroAsleep(s.threads[t]) }

  lemma ZeroStep(s: State, m: Move)
    requires Inv(s) && NoZeroSleeper(s)
    ensures NoZeroSleeper(Next(s, m))
  {
    if m.thread < |s.threads| {
      Shape(s, m);
      ZeroMover(s, m);
    }
  }

  lemma ZeroMover(s: State, m: Move)
    requires m.thread < |s.threads| && |Next(s, m).threads| == |s.threads| && !ZeroAsleep(s.threads[m.thread])
    ensures !ZeroAsleep(Next(s, m).threads[m.thread])
  {
  }
}
