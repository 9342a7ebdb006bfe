/** What the invariant means for every run of the lock-free queue. */
module QueueTheorems {
  import opened QueueModel
  import opened QueueInvariant
  import opened QueueStability
  import opened QueueSteps
  import opened QueueSafety

  /** s is reached by some schedule of some number of threads on a new queue. */
  ghost predicate Reachable(s: State) {
    exists n: nat, dummy: Addr, ms: seq<Move> :: dummy != NO_ADDR && s == Exec(Init(n, dummy), ms)
  }

  lemma ReachableOk(s: State)
    requires Reachable(s)
    ensures Inv(s)
  {
    var n: nat, dummy: Addr, ms: seq<Move> :| dummy != NO_ADDR && s == Exec(Init(n, dummy), ms);
    RunOk(n, dummy, ms);
  }

  /**
   Reclamation safety and no ABA: no run dereferences a node that was freed since it was
   validated, swaps head, tail or next of another incarnation than the one read, frees a
   node that is not the one retired, or finds a hazard record to take over.
   */
  lemma NeverFaults(s: State)
    requires Reachable(s)
    ensures s.fault == NoFault
  {
    ReachableOk(s);
  }

  /**
   What a thread has validated is published in its slot and allocated, it lies at or behind
   the current tail, and at or behind the current head when it was read from there.
   */
  lemma HeldIsLive(s: State, t: nat, k: nat)
    requires Reachable(s) && t < |s.threads| && k < 2 && HasHold(s.threads[t].pc, k)
    ensures var r := Hold(s.threads[t].pc, k);
            && Live(s, r) && HasRecord(s, t) && RecordOf(s, t).slots[k] == r.addr
            && r.pos <= TailPos(s)
            && (k == 0 && InDequeue(s.threads[t].pc) && !s.threads[t].pc.DeqHelp? ==> r.pos <= HeadPos(s))
  {
    ReachableOk(s);
    Held(s, t, k);
    assert ThreadOk(s, t);
  }

  lemma {:induction false} RunAdvances(s: State, ms: seq<Move>)
    requires Inv(s)
    ensures Keeps(s, Exec(s, ms))
    decreases |ms|
  {
    if ms != [] {
      RunAdvances(s, ms[..|ms| - 1]);
      MoveKeeps(Exec(s, ms[..|ms| - 1]), ms[|ms| - 1]);
    }
  }

  /**
   From any reachable state on, nodes are only added behind the last one, head and tail only
   move forward, head never passes tail, and tail is the last node or the one before it.
   */
  lemma ChainOnlyGrows(s: State, ms: seq<Move>)
    requires Reachable(s)
    ensures var s' := Exec(s, ms);
            && s.chain <= s'.chain
            && HeadPos(s) <= HeadPos(s') && TailPos(s) <= TailPos(s')
            && 0 <= HeadPos(s') <= TailPos(s') < |s'.chain| <= TailPos(s') + 2
  {
    ReachableOk(s);
    RunAdvances(s, ms);
  }

  // ---------------------------------------------------------------- retired once, freed once

  /** The node at position p has been freed. */
  predicate Gone(s: State, p: nat) {
    p < |s.chain| && !Live(s, Ref(s.chain[p].addr, p))
  }

  /** A move makes no linked node appear except at the end of the chain. */
  predicate NoRevival(s: State, s': State) {
    forall a :: a in s'.heap && s'.heap[a].pos >= 0 ==>
      (a in s.heap && s.heap[a].pos == s'.heap[a].pos) || s'.heap[a].pos == |s.chain|
  }

  lemma MoveRevivesNothing(s: State, m: Move)
    ensures NoRevival(s, Next(s, m))
  {
    if s.fault == NoFault && m.thread < |s.threads| {
      var pc := s.threads[m.thread].pc;
      if InEnqueue(pc) {
        assert NoRevival(s, StepEnqueue(s, m.thread));
      } else if InDequeue(pc) {
        assert NoRevival(s, StepDequeue(s, m.thread));
      } else if !pc.Idle? {
        assert NoRevival(s, StepScan(s, m.thread));
      }
    }
  }

  lemma MoveKeepsGone(s: State, m: Move, p: nat)
    requires Inv(s) && Gone(s, p)
    ensures Gone(Next(s, m), p)
  {
    MoveKeeps(s, m);
    MoveRevivesNothing(s, m);
  }

  /** A node is freed at most once: once freed, its position is never live again in any run. */
  lemma {:induction false} GoneForGood(s: State, ms: seq<Move>, p: nat)
    requires Reachable(s) && Gone(s, p)
    ensures Gone(Exec(s, ms), p)
    decreases |ms|
  {
    if ms != [] {
      GoneForGood(s, ms[..|ms| - 1], p);
      ReachableOk(s);
      RunAdvances(s, ms[..|ms| - 1]);
      MoveKeepsGone(Exec(s, ms[..|ms| - 1]), ms[|ms| - 1], p);
    }
  }

  /**
   A dequeued node that is not freed yet is in exactly one place: the locals, the retired
   list or the scan of one thread.  Nothing is retired twice and nothing leaks.
   */
  lemma RetiredExactlyOnce(s: State, p: nat)
    requires Reachable(s) && p < HeadPos(s) && !Gone(s, p)
    ensures p < |s.chain|
    ensures exists t, i :: 0 <= t < |s.threads| && 0 <= i < |Owned(s, t)| && Owned(s, t)[i].pos == p
    ensures forall t, i, u, j ::
              && 0 <= t < |s.threads| && 0 <= i < |Owned(s, t)| && Owned(s, t)[i].pos == p
              && 0 <= u < |s.threads| && 0 <= j < |Owned(s, u)| && Owned(s, u)[j].pos == p
              ==> t == u && i == j
  {
    ReachableOk(s);
    var a := s.chain[p].addr;
    assert NodeOk(s, a);
    var t: nat := s.heap[a].keeper;
    assert ThreadOk(s, t);
    var i :| 0 <= i < |Owned(s, t)| && Owned(s, t)[i] == Ref(a, p);
    forall u, j | 0 <= u < |s.threads| && 0 <= j < |Owned(s, u)| && Owned(s, u)[j].pos == p
      ensures u == t && j == i
    {
      assert ThreadOk(s, u);
      var x := Owned(s, u)[j];
      assert x in Owned(s, u) && Disposable(s, u, x);
      assert NodeOk(s, x.addr);
    }
  }

  /** What a thread is to dispose of is dequeued and allocated; what is queued is nobody's. */
  lemma OwnedIsDequeued(s: State, t: nat, i: nat)
    requires Reachable(s) && t < |s.threads| && i < |Owned(s, t)|
    ensures var x := Owned(s, t)[i];
            0 <= x.pos < HeadPos(s) && x.pos < |s.chain| && s.chain[x.pos].addr == x.addr && !Gone(s, x.pos)
  {
    ReachableOk(s);
    assert ThreadOk(s, t);
    var x := Owned(s, t)[i];
    assert x in Owned(s, t) && Disposable(s, t, x);
    assert NodeOk(s, x.addr);
  }

  /**
   Bounded backlog: a thread's retired nodes never outnumber the hazard slots of the table,
   but for the one node whose retirement starts a scan.
   */
  lemma BacklogBounded(s: State, t: nat)
    requires Reachable(s) && t < |s.threads| && HasRecord(s, t)
    ensures var pc := s.threads[t].pc;
            |Retired(s, t)| + |Todo(pc)| <= SLOTS * |s.recs| + (if pc.ScanBegin? || Scanning(pc) then 1 else 0)
  {
    ReachableOk(s);
    assert ThreadOk(s, t);
  }

  /** Every record in the table is in use and belongs to exactly one thread. */
  lemma RecordsAreOwned(s: State, r: nat)
    requires Reachable(s) && r < |s.recs|
    ensures s.recs[r].inUse && s.recs[r].owner < |s.threads| && s.threads[s.recs[r].owner].rec == r
    ensures forall t :: 0 <= t < |s.threads| && s.threads[t].rec == r ==> t == s.recs[r].owner
  {
    ReachableOk(s);
    forall t | 0 <= t < |s.threads| && s.threads[t].rec == r
      ensures t == s.recs[r].owner
    {
      assert ThreadOk(s, t);
    }
  }
}
