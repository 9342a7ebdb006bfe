/** The moves that change memory or the lists of retired nodes. */
module QueueUpdates {
  import opened QueueModel
  import opened QueueInvariant
  import opened QueueStability
  import opened QueueSteps

  /** No linked node disappears or changes its position. */
  predicate KeepsLinked(s: State, s': State) {
    forall a :: a in s.heap && s.heap[a].pos >= 0 ==> a in s'.heap && s'.heap[a].pos == s.heap[a].pos
  }

  lemma LinkedHolds(s: State, s': State, t: nat)
    requires Inv(s) && KeepsLinked(s, s')
    ensures KeepsHolds(s, s', t)
  {
    forall u, k | 0 <= u < |s.threads| && u != t && 0 <= k < 2 && HasHold(s.threads[u].pc, k)
      ensures Live(s', Hold(s.threads[u].pc, k))
    {
      Held(s, u, k);
    }
  }

  // ---------------------------------------------------------------- calls

  lemma StepCallEnqueue(s: State, t: nat, data: Val, chunk: Addr)
    requires Inv(s) && t < |s.threads| && s.threads[t].pc.Idle?
    requires chunk != NO_ADDR && chunk !in s.heap
    ensures Keeps(s, StepCall(s, t, CallEnqueue(data, chunk)))
  {
    var s' := StepCall(s, t, CallEnqueue(data, chunk));
    assert ThreadOk(s, t);
    LinkedHolds(s, s', t);
    CallMemory(s, s', t, data, chunk);
    assert NO_ADDR in s.heap ==> NodeOk(s, NO_ADDR);
    CallMover(s, s', t, data, chunk);
    Settle(s, s', t);
  }

  lemma CallMemory(s: State, s': State, t: nat, data: Val, chunk: Addr)
    requires MemoryOk(s) && t < |s.threads| && chunk != NO_ADDR && chunk !in s.heap
    requires s'.heap == s.heap[chunk := Node(NO_ADDR, data, -1, t)]
    requires s'.chain == s.chain && s'.head == s.head && s'.tail == s.tail && |s'.threads| == |s.threads|
    ensures MemoryOk(s') && Advances(s, s') && KeepsOthersNodes(s, s', t)
  {
    forall a | a in s'.heap
      ensures NodeOk(s', a)
    {
      if a != chunk { assert NodeOk(s, a); }
    }
  }

  lemma CallMover(s: State, s': State, t: nat, data: Val, chunk: Addr)
    requires t < |s.threads| && s.threads[t].pc.Idle? && ThreadOk(s, t)
    requires chunk != NO_ADDR && chunk !in s.heap && NO_ADDR !in s.heap
    requires s' == StepCall(s, t, CallEnqueue(data, chunk))
    requires HeadPos(s') == HeadPos(s)
    ensures ThreadOk(s', t)
  {
    assert Owned(s', t) == Owned(s, t);
  }

  lemma StepCallDequeue(s: State, t: nat)
    requires Inv(s) && t < |s.threads| && s.threads[t].pc.Idle?
    ensures Keeps(s, StepCall(s, t, CallDequeue))
  {
    var s' := StepCall(s, t, CallDequeue);
    assert ThreadOk(s, t);
    LinkedHolds(s, s', t);
    forall a | a in s'.heap
      ensures NodeOk(s', a)
    {
      assert NodeOk(s, a);
    }
    assert Owned(s', t) == Owned(s, t);
    Settle(s, s', t);
  }

  // ---------------------------------------------------------------- linking a node

  /** A linked node whose next is null is the last of the chain, so a new one fits behind it. */
  lemma LinkMemory(s: State, s': State, tail: Ref, node: Addr)
    requires MemoryOk(s) && Live(s, tail) && s.heap[tail.addr].next == NO_ADDR
    requires node in s.heap && s.heap[node].pos == -1 && s.heap[node].next == NO_ADDR
    requires s'.heap == LinkHeap(s, node, tail) && s'.chain == s.chain + [Cell(node, s.heap[node].item)]
    requires s'.head == s.head && s'.tail == s.tail && |s'.threads| == |s.threads|
    requires tail.pos <= TailPos(s)
    ensures tail.pos == |s.chain| - 1 == TailPos(s)
    ensures MemoryOk(s') && Advances(s, s') && KeepsLinked(s, s')
  {
    assert NodeOk(s, tail.addr);
    assert tail.pos == |s.chain| - 1;
    assert NodeOk(s, node);
    assert HeadPos(s') == HeadPos(s) && TailPos(s') == TailPos(s);
    forall a | a in s'.heap
      ensures NodeOk(s', a)
    {
      assert NodeOk(s, a);
      LinkNodeOk(s, s', tail, node, a);
    }
  }

  lemma LinkNodeOk(s: State, s': State, tail: Ref, node: Addr, a: Addr)
    requires Live(s, tail) && tail.pos == |s.chain| - 1 && node in s.heap && s.heap[node].pos == -1
    requires s.heap[node].next == NO_ADDR && HeadPos(s') == HeadPos(s) <= tail.pos
    requires a in s.heap && NodeOk(s, a) && NodeOk(s, node) && NodeOk(s, tail.addr)
    requires s'.heap == LinkHeap(s, node, tail) && s'.chain == s.chain + [Cell(node, s.heap[node].item)]
    requires |s'.threads| == |s.threads|
    ensures NodeOk(s', a)
  {
  }

  lemma LinkNode(s: State, t: nat)
    requires Inv(s) && t < |s.threads| && s.threads[t].pc.EnqLink?
    requires s.threads[t].pc.tail.addr in s.heap && s.heap[s.threads[t].pc.tail.addr].next == NO_ADDR
    ensures Keeps(s, StepEnqueue(s, t))
  {
    Held(s, t, 0);
    assert ThreadOk(s, t);
    LinkShape(s, t);
    LinkKeeps(s, StepEnqueue(s, t), t);
  }

  predicate LinkedBy(s: State, s': State, t: nat)
    requires t < |s.threads| && s.threads[t].pc.EnqLink?
  {
    var pc := s.threads[t].pc;
    && Live(s, pc.tail) && pc.node in s.heap && s.heap[pc.tail.addr].next == NO_ADDR
    && s' == s.(heap := LinkHeap(s, pc.node, pc.tail), chain := s.chain + [Cell(pc.node, s.heap[pc.node].item)],
                threads := s.threads[t := s.threads[t].(pc := EnqSwing(pc.node, pc.tail))])
  }

  lemma LinkShape(s: State, t: nat)
    requires t < |s.threads| && s.threads[t].pc.EnqLink? && Live(s, s.threads[t].pc.tail)
    requires s.threads[t].pc.node in s.heap && s.heap[s.threads[t].pc.tail.addr].next == NO_ADDR
    ensures LinkedBy(s, StepEnqueue(s, t), t)
  {
  }

  lemma LinkKeeps(s: State, s': State, t: nat)
    requires Inv(s) && t < |s.threads| && s.threads[t].pc.EnqLink? && LinkedBy(s, s', t)
    ensures Keeps(s, s')
  {
    assert ThreadOk(s, t);
    var pc := s.threads[t].pc;
    LinkMemory(s, s', pc.tail, pc.node);
    LinkedHolds(s, s', t);
    assert NodeOk(s, pc.tail.addr);
    LinkOthers(s, s', t, pc.tail, pc.node);
    LinkMover(s, s', t);
    Settle(s, s', t);
  }

  lemma LinkOthers(s: State, s': State, t: nat, tail: Ref, node: Addr)
    requires Live(s, tail) && node in s.heap && s.heap[node].keeper == t && s.heap[tail.addr].keeper == -1
    requires s'.heap == LinkHeap(s, node, tail)
    ensures KeepsOthersNodes(s, s', t)
  {
  }

  lemma LinkMover(s: State, s': State, t: nat)
    requires t < |s.threads| && s.threads[t].pc.EnqLink? && ThreadOk(s, t)
    requires var pc := s.threads[t].pc;
             && s'.threads == s.threads[t := s.threads[t].(pc := EnqSwing(pc.node, pc.tail))]
             && s'.recs == s.recs
             && Live(s, pc.tail) && s'.heap == LinkHeap(s, pc.node, pc.tail)
             && s'.chain == s.chain + [Cell(pc.node, s.heap[pc.node].item)]
             && s'.head == s.head && s'.tail == s.tail && pc.tail.pos == |s.chain| - 1 == TailPos(s)
    requires HeadPos(s') == HeadPos(s) && TailPos(s') == TailPos(s)
    requires s.heap[s.threads[t].pc.tail.addr].keeper == -1
    ensures ThreadOk(s', t)
  {
    assert HeldAt(s, t, 0);
    assert HeldAt(s', t, 0);
    assert Owned(s', t) == Owned(s, t);
  }

  lemma StepEnqLink(s: State, t: nat)
    requires Inv(s) && t < |s.threads| && s.threads[t].pc.EnqLink?
    ensures Keeps(s, StepEnqueue(s, t))
  {
    Held(s, t, 0);
    assert ThreadOk(s, t);
    var pc := s.threads[t].pc;
    if s.heap[pc.tail.addr].next != NO_ADDR {
      GotoMove(s, t, EnqReadTail(pc.node));
    } else {
      LinkNode(s, t);
    }
  }

  // ---------------------------------------------------------------- unlinking a node

  /** Head moves to the node behind it, and the old dummy becomes thread t's to dispose of. */
  lemma SwingMemory(s: State, s': State, t: nat, succ: Ref)
    requires MemoryOk(s) && t < |s.threads| && Live(s, succ) && succ.pos == HeadPos(s) + 1 <= TailPos(s)
    requires s'.head == succ.addr && s'.heap == s.heap[s.head := s.heap[s.head].(keeper := t)]
    requires s'.chain == s.chain && s'.tail == s.tail && |s'.threads| == |s.threads|
    ensures HeadPos(s') == HeadPos(s) + 1
    ensures MemoryOk(s') && Advances(s, s') && KeepsLinked(s, s') && KeepsOthersNodes(s, s', t)
  {
    assert NodeOk(s, s.head);
    forall a | a in s'.heap
      ensures NodeOk(s', a)
    {
      assert NodeOk(s, a);
    }
  }

  lemma SwingMover(s: State, s': State, t: nat)
    requires t < |s.threads| && s.threads[t].pc.DeqSwing? && ThreadOk(s, t) && MemoryOk(s) && MemoryOk(s')
    requires var pc := s.threads[t].pc;
             && s'.threads == s.threads[t := s.threads[t].(pc := DeqRetire(Exit(pc.head, pc.succ.addr, pc.item), 0))]
             && s'.recs == s.recs && s'.chain == s.chain && s'.tail == s.tail
             && pc.head.addr == s.head && pc.head.pos == HeadPos(s) && HeadPos(s') == HeadPos(s) + 1
             && s'.head == pc.succ.addr && s'.heap == s.heap[s.head := s.heap[s.head].(keeper := t)]
    ensures ThreadOk(s', t)
  {
    var pc := s.threads[t].pc;
    assert HeldAt(s, t, 0) && HeldAt(s, t, 1);
    assert NodeOk(s, pc.head.addr) && NodeOk(s, pc.succ.addr);
    assert Retired(s', t) == Retired(s, t) == Owned(s, t);
    assert Owned(s', t) == [pc.head] + Owned(s, t);
    SwingOwned(s, s', t, pc.head);
    SwingLocals(s, s', t);
  }

  lemma SwingLocals(s: State, s': State, t: nat)
    requires t < |s.threads| && s.threads[t].pc.DeqSwing? && ThreadOk(s, t) && s'.recs == s.recs
    requires HeldAt(s, t, 0) && HeldAt(s, t, 1) && Hold(s.threads[t].pc, 0).addr != NO_ADDR
    requires Hold(s.threads[t].pc, 1).addr != NO_ADDR
    requires var pc := s.threads[t].pc;
             s'.threads == s.threads[t := s.threads[t].(pc := DeqRetire(Exit(pc.head, pc.succ.addr, pc.item), 0))]
    ensures RecordOk(s', t) && SlotsOk(s'.threads[t].pc, RecordOf(s', t).slots)
    ensures LocalsOk(s', s'.threads[t].pc) && PrivateOk(s', t) && HoldOk(s', t) && BacklogOk(s', t)
  {
    var pc := s.threads[t].pc;
    assert pc.head.pos != pc.succ.pos;
  }

  lemma SwingOwned(s: State, s': State, t: nat, x: Ref)
    requires t < |s.threads| == |s'.threads| && OwnedOk(s, t) && Accounted(s, t)
    requires s.head in s.heap && x == Ref(s.head, HeadPos(s)) && x.pos >= 0 && HeadPos(s') == HeadPos(s) + 1
    requires s'.heap == s.heap[s.head := s.heap[s.head].(keeper := t)] && Owned(s', t) == [x] + Owned(s, t)
    requires PrivateOf(s'.threads[t].pc) == PrivateOf(s.threads[t].pc)
    ensures OwnedOk(s', t) && Accounted(s', t)
  {
    Prepended(x, Owned(s, t));
    forall y | y in Owned(s', t)
      ensures Disposable(s', t, y)
    {
      assert y == x || Disposable(s, t, y);
    }
  }

  lemma Prepended(x: Ref, o: seq<Ref>)
    requires Distinct(o) && forall y :: y in o ==> y.pos < x.pos
    ensures Distinct([x] + o)
  {
  }

  lemma UnlinkHead(s: State, t: nat)
    requires Inv(s) && t < |s.threads| && s.threads[t].pc.DeqSwing? && s.head == s.threads[t].pc.head.addr
    ensures Keeps(s, StepDequeue(s, t))
  {
    Held(s, t, 0);
    Held(s, t, 1);
    assert ThreadOk(s, t);
    var s' := StepDequeue(s, t);
    SwingMemory(s, s', t, s.threads[t].pc.succ);
    LinkedHolds(s, s', t);
    SwingMover(s, s', t);
    Settle(s, s', t);
  }

  lemma StepDeqSwing(s: State, t: nat)
    requires Inv(s) && t < |s.threads| && s.threads[t].pc.DeqSwing?
    ensures Keeps(s, StepDequeue(s, t))
  {
    Held(s, t, 0);
    assert ThreadOk(s, t);
    var pc := s.threads[t].pc;
    if s.head != pc.head.addr {
      GotoMove(s, t, DeqReadHead);
    } else {
      UnlinkHead(s, t);
    }
  }

  // ---------------------------------------------------------------- retiring a node

  lemma RecordEvolves(s: State, t: nat, rc: Record, pc': PC)
    requires Inv(s) && t < |s.threads| && HasRecord(s, t)
    requires rc.inUse && |rc.slots| == SLOTS && rc.owner == t
    ensures var s' := Goto(SetRecord(s, t, rc), t, pc');
            Evolves(s, s', t) && MemoryOk(s') && RecordsOk(s')
  {
    assert ThreadOk(s, t);
    var s' := Goto(SetRecord(s, t, rc), t, pc');
    LinkedHolds(s, s', t);
    forall r | 0 <= r < |s.recs| && s.recs[r].owner != t
      ensures r != s.threads[t].rec
    {
    }
    forall a | a in s'.heap
      ensures NodeOk(s', a)
    {
      assert NodeOk(s, a);
    }
  }

  lemma Rotated(x: Ref, o: seq<Ref>)
    requires Distinct([x] + o)
    ensures Distinct(o + [x]) && (forall y :: y in o + [x] <==> y in [x] + o)
  {
    var p, q := [x] + o, o + [x];
    forall i, j | 0 <= i < j < |q|
      ensures q[i].pos != q[j].pos
    {
      assert q[i] == p[i + 1];
      assert q[j] == if j == |o| then p[0] else p[j + 1];
    }
  }

  function RetiredInto(rc: Record, x: Ref): Record
    requires |rc.slots| == SLOTS
  {
    rc.(slots := rc.slots[0 := NO_ADDR], retired := rc.retired + [x])
  }

  function AfterRetire(exit: Exit, rc: Record): PC {
    if |rc.retired| >= SLOTS then ScanBegin(exit, 0) else DeqRetire(exit, 1)
  }

  /** The dequeued dummy moves from the thread's locals to its retired list. */
  lemma RetireMover(s: State, s': State, t: nat, rc: Record)
    requires t < |s.threads| && s.threads[t].pc.DeqRetire? && s.threads[t].pc.i == 0
    requires ThreadOk(s, t) && RecordsOk(s) && HasRecord(s, t)
    requires rc == RetiredInto(RecordOf(s, t), s.threads[t].pc.exit.head)
    requires s' == Goto(SetRecord(s, t, rc), t, AfterRetire(s.threads[t].pc.exit, rc))
    ensures ThreadOk(s', t)
  {
    var x := s.threads[t].pc.exit.head;
    assert Owned(s, t) == [x] + Retired(s, t);
    assert Owned(s', t) == Retired(s, t) + [x];
    Rotated(x, Retired(s, t));
  }

  lemma RetireKeeps(s: State, t: nat, rc: Record)
    requires Inv(s) && t < |s.threads| && s.threads[t].pc.DeqRetire? && s.threads[t].pc.i == 0 && HasRecord(s, t)
    requires rc == RetiredInto(RecordOf(s, t), s.threads[t].pc.exit.head)
    ensures var exit := s.threads[t].pc.exit;
            Keeps(s, Goto(SetRecord(s, t, rc), t, AfterRetire(exit, rc)))
  {
    assert ThreadOk(s, t);
    var exit := s.threads[t].pc.exit;
    var pc' := AfterRetire(exit, rc);
    var s' := Goto(SetRecord(s, t, rc), t, pc');
    RecordEvolves(s, t, rc, pc');
    RetireMover(s, s', t, rc);
    Settle(s, s', t);
  }

  lemma RetireHead(s: State, t: nat)
    requires Inv(s) && t < |s.threads| && s.threads[t].pc.DeqRetire? && s.threads[t].pc.i == 0
    ensures Keeps(s, StepDequeue(s, t))
  {
    assert ThreadOk(s, t);
    var rc := RetiredInto(RecordOf(s, t), s.threads[t].pc.exit.head);
    RetireKeeps(s, t, rc);
    RetireShape(s, t, rc);
  }

  lemma RetireShape(s: State, t: nat, rc: Record)
    requires t < |s.threads| && s.threads[t].pc.DeqRetire? && s.threads[t].pc.i == 0 && HasRecord(s, t)
    requires RecordOf(s, t).slots[0] == s.threads[t].pc.exit.head.addr
    requires rc == RetiredInto(RecordOf(s, t), s.threads[t].pc.exit.head)
    ensures var exit := s.threads[t].pc.exit;
            StepDequeue(s, t) == Goto(SetRecord(s, t, rc), t, AfterRetire(exit, rc))
  {
  }

  lemma StepDeqRetire(s: State, t: nat)
    requires Inv(s) && t < |s.threads| && s.threads[t].pc.DeqRetire?
    ensures Keeps(s, StepDequeue(s, t))
  {
    if s.threads[t].pc.i == 0 { RetireHead(s, t); } else { RetireNothing(s, t); }
  }

  /** Only slot 0 held the dummy. */
  lemma RetireNothing(s: State, t: nat)
    requires Inv(s) && t < |s.threads| && s.threads[t].pc.DeqRetire? && s.threads[t].pc.i != 0
    ensures Keeps(s, StepDequeue(s, t))
  {
    assert ThreadOk(s, t);
    var pc := s.threads[t].pc;
    RetireNothingShape(s, t);
    GotoMove(s, t, if pc.i >= SLOTS then DeqReleaseNext(pc.exit, 0) else DeqRetire(pc.exit, pc.i + 1));
  }

  lemma RetireNothingShape(s: State, t: nat)
    requires t < |s.threads| && s.threads[t].pc.DeqRetire? && s.threads[t].pc.i != 0 && HasRecord(s, t)
    requires SlotsOk(s.threads[t].pc, RecordOf(s, t).slots) && ExitOk(s.threads[t].pc.exit)
    ensures var pc := s.threads[t].pc;
            var pc' := if pc.i >= SLOTS then DeqReleaseNext(pc.exit, 0) else DeqRetire(pc.exit, pc.i + 1);
            StepDequeue(s, t) == Goto(s, t, pc')
  {
  }
}
