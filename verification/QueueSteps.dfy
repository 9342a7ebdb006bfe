/** Every move of an enqueue or a dequeue keeps the invariant. */
module QueueSteps {
  import opened QueueModel
  import opened QueueInvariant
  import opened QueueStability

  /** What t holds after the move it held before, or it lies at or behind no dequeued node. */
  predicate HoldsCarry(s: State, s': State, t: nat)
    requires t < |s.threads| && t < |s'.threads|
  {
    forall k :: 0 <= k < 2 && HasHold(s'.threads[t].pc, k) ==>
      || (HasHold(s.threads[t].pc, k) && Hold(s'.threads[t].pc, k) == Hold(s.threads[t].pc, k))
      || Hold(s'.threads[t].pc, k).pos >= HeadPos(s)
  }

  /** No scan of another thread has a candidate that t newly holds. */
  lemma GuardCarries(s: State, s': State, t: nat, u: nat)
    requires Inv(s) && t < |s.threads| && u < |s.threads| && u != t && Evolves(s, s', t)
    requires s'.threads[t].rec == s.threads[t].rec && HoldsCarry(s, s', t)
    ensures GuardOk(s', u, t)
  {
    assert ThreadOk(s, u);
    assert GuardOk(s, u, t);
    assert Candidates(s', u) == Candidates(s, u);
    forall x | x in Candidates(s, u)
      ensures x.pos < HeadPos(s)
    {
      assert x in Owned(s, u);
    }
  }

  lemma Settle(s: State, s': State, t: nat)
    requires Inv(s) && t < |s.threads| && Evolves(s, s', t)
    requires s'.fault == NoFault && MemoryOk(s') && RecordsOk(s') && ThreadOk(s', t)
    requires !Scanning(s'.threads[t].pc) && s'.threads[t].rec == s.threads[t].rec
    requires HoldsCarry(s, s', t)
    ensures Keeps(s, s')
  {
    forall u | 0 <= u < |s'.threads|
      ensures GuardOk(s', u, t)
    {
      if u != t { GuardCarries(s, s', t, u); }
    }
    Assemble(s, s', t);
  }

  /** Apart from t's place, t's slots and queue->tail, nothing changes. */
  predicate Quiet(s: State, s': State, t: nat)
    requires t < |s.threads|
  {
    && s'.heap == s.heap && s'.head == s.head && s'.chain == s.chain && s'.fault == s.fault
    && |s'.threads| == |s.threads|
    && (forall u :: 0 <= u < |s.threads| && u != t ==> s'.threads[u] == s.threads[u])
    && s'.threads[t].rec == s.threads[t].rec && s'.threads[t].op == s.threads[t].op
    && |s'.recs| == |s.recs|
    && (forall r :: 0 <= r < |s.recs| && r != s.threads[t].rec ==> s'.recs[r] == s.recs[r])
    && (0 <= s.threads[t].rec < |s.recs| ==>
          s'.recs[s.threads[t].rec] == s.recs[s.threads[t].rec].(slots := s'.recs[s.threads[t].rec].slots))
  }

  lemma QuietMove(s: State, s': State, t: nat)
    requires Inv(s) && t < |s.threads| && Quiet(s, s', t)
    requires EndsOk(s') && TailPos(s) <= TailPos(s')
    requires RecordOk(s', t) && LocalsOk(s', s'.threads[t].pc)
    requires s'.threads[t].rec >= 0 ==> SlotsOk(s'.threads[t].pc, s'.recs[s'.threads[t].rec].slots)
    requires PrivateOf(s'.threads[t].pc) == PrivateOf(s.threads[t].pc)
    requires var pc' := s'.threads[t].pc;
             InEnqueue(Base(pc')) && !pc'.EnqSwing? && !pc'.EnqRelease? <==> PrivateOf(s.threads[t].pc) != NO_ADDR
    requires Pending(s'.threads[t].pc) == Pending(s.threads[t].pc)
    requires !s.threads[t].pc.ScanBegin? && !Scanning(s.threads[t].pc)
    requires !s'.threads[t].pc.ScanBegin? && !Scanning(s'.threads[t].pc)
    requires HoldOk(s', t) && HoldsCarry(s, s', t)
    ensures Keeps(s, s')
  {
    assert ThreadOk(s, t);
    QuietEvolves(s, s', t);
    QuietOwned(s, s', t);
    assert RecordsOk(s');
    Settle(s, s', t);
  }

  lemma QuietEvolves(s: State, s': State, t: nat)
    requires Inv(s) && t < |s.threads| && Quiet(s, s', t)
    requires EndsOk(s') && TailPos(s) <= TailPos(s')
    ensures Evolves(s, s', t) && MemoryOk(s')
  {
    forall r | 0 <= r < |s.recs| && s.recs[r].owner != t
      ensures r != s.threads[t].rec
    {
      assert ThreadOk(s, t);
    }
    forall u, k | 0 <= u < |s.threads| && u != t && 0 <= k < 2 && HasHold(s.threads[u].pc, k)
      ensures Live(s', Hold(s.threads[u].pc, k))
    {
      assert ThreadOk(s, u);
      assert HeldAt(s, u, k);
    }
    forall a | a in s'.heap
      ensures NodeOk(s', a)
    {
      assert NodeOk(s, a);
    }
  }

  lemma QuietOwned(s: State, s': State, t: nat)
    requires Inv(s) && t < |s.threads| && Quiet(s, s', t)
    requires PrivateOf(s'.threads[t].pc) == PrivateOf(s.threads[t].pc)
    requires Pending(s'.threads[t].pc) == Pending(s.threads[t].pc)
    requires !s.threads[t].pc.ScanBegin? && !Scanning(s.threads[t].pc)
    requires !s'.threads[t].pc.ScanBegin? && !Scanning(s'.threads[t].pc)
    ensures OwnedOk(s', t) && Accounted(s', t) && BacklogOk(s', t)
  {
    assert ThreadOk(s, t);
    assert Retired(s', t) == Retired(s, t);
    assert Owned(s', t) == Owned(s, t);
  }

  // ---------------------------------------------------------------- quiet moves

  /** The call a thread is in goes on, with the same private node and the same duties. */
  predicate SameCall(pc: PC, pc': PC) {
    && PrivateOf(pc') == PrivateOf(pc)
    && (InEnqueue(Base(pc')) && !pc'.EnqSwing? && !pc'.EnqRelease? <==> PrivateOf(pc) != NO_ADDR)
    && Pending(pc') == Pending(pc)
    && !pc.ScanBegin? && !Scanning(pc) && !pc'.ScanBegin? && !Scanning(pc')
  }

  /** Slot k may be held at pc': it was held before, or its node is now seen in the queue. */
  predicate MayHold(s: State, pc: PC, pc': PC, sl: seq<Addr>, k: nat) {
    HasHold(pc', k) ==>
      && Live(s, Hold(pc', k)) && k < |sl| && sl[k] == Hold(pc', k).addr
      && ((HasHold(pc, k) && Hold(pc', k) == Hold(pc, k)) || Hold(pc', k).pos >= HeadPos(s))
  }

  /** Going to pc' with slots sl keeps the invariant. */
  lemma SlotMove(s: State, t: nat, pc': PC, sl: seq<Addr>)
    requires Inv(s) && t < |s.threads| && HasRecord(s, t) && |sl| == SLOTS
    requires !(pc'.RegWalk? || pc'.RegRead? || pc'.RegLink?)
    requires SameCall(s.threads[t].pc, pc')
    requires LocalsOk(s, pc') && SlotsOk(pc', sl)
    requires MayHold(s, s.threads[t].pc, pc', sl, 0) && MayHold(s, s.threads[t].pc, pc', sl, 1)
    ensures Keeps(s, Goto(SetRecord(s, t, RecordOf(s, t).(slots := sl)), t, pc'))
  {
    assert ThreadOk(s, t);
    var s' := Goto(SetRecord(s, t, RecordOf(s, t).(slots := sl)), t, pc');
    LocalsStable(s, s', pc');
    forall k | 0 <= k < 2 && HasHold(s'.threads[t].pc, k)
      ensures HeldAt(s', t, k)
    {
    }
    QuietMove(s, s', t);
  }

  lemma GotoMove(s: State, t: nat, pc': PC)
    requires Inv(s) && t < |s.threads| && HasRecord(s, t)
    requires !(pc'.RegWalk? || pc'.RegRead? || pc'.RegLink?)
    requires SameCall(s.threads[t].pc, pc')
    requires LocalsOk(s, pc') && SlotsOk(pc', RecordOf(s, t).slots)
    requires MayHold(s, s.threads[t].pc, pc', RecordOf(s, t).slots, 0)
    requires MayHold(s, s.threads[t].pc, pc', RecordOf(s, t).slots, 1)
    ensures Keeps(s, Goto(s, t, pc'))
  {
    SlotMove(s, t, pc', RecordOf(s, t).slots);
    assert SetRecord(s, t, RecordOf(s, t).(slots := RecordOf(s, t).slots)) == s;
  }

  /** The same for a thread that may not have a record yet. */
  lemma EarlyMove(s: State, t: nat, pc': PC)
    requires Inv(s) && t < |s.threads|
    requires !NeedsRecord(pc') && SameCall(s.threads[t].pc, pc') && LocalsOk(s, pc')
    requires pc'.RegWalk? || pc'.RegRead? || pc'.RegLink? ==>
               s.threads[t].rec == -1 && (pc'.resume.EnqProtect? || pc'.resume.DeqProtect?)
    requires s.threads[t].rec >= 0 ==> HasRecord(s, t) && SlotsOk(pc', RecordOf(s, t).slots)
    ensures Keeps(s, Goto(s, t, pc'))
  {
    assert ThreadOk(s, t);
    var s' := Goto(s, t, pc');
    LocalsStable(s, s', pc');
    assert !HasHold(pc', 0) && !HasHold(pc', 1);
    QuietMove(s, s', t);
  }

  lemma StepEnqReadTail(s: State, t: nat)
    requires Inv(s) && t < |s.threads| && s.threads[t].pc.EnqReadTail?
    ensures Keeps(s, StepEnqueue(s, t))
  {
    assert ThreadOk(s, t);
    EarlyMove(s, t, EnqProtect(s.threads[t].pc.node, s.tail));
  }

  lemma StepEnqProtect(s: State, t: nat)
    requires Inv(s) && t < |s.threads| && s.threads[t].pc.EnqProtect?
    ensures Keeps(s, StepEnqueue(s, t))
  {
    assert ThreadOk(s, t);
    var pc := s.threads[t].pc;
    if s.threads[t].rec < 0 {
      EarlyMove(s, t, RegWalk(|s.recs|, pc));
    } else {
      SlotMove(s, t, EnqValidate(pc.node, pc.seen), RecordOf(s, t).slots[0 := pc.seen]);
    }
  }

  lemma StepEnqValidate(s: State, t: nat)
    requires Inv(s) && t < |s.threads| && s.threads[t].pc.EnqValidate?
    ensures Keeps(s, StepEnqueue(s, t))
  {
    assert ThreadOk(s, t);
    var pc := s.threads[t].pc;
    if pc.seen != s.tail {
      EarlyMove(s, t, EnqReadTail(pc.node));
    } else {
      GotoMove(s, t, EnqReadNext(pc.node, Ref(pc.seen, TailPos(s))));
    }
  }

  /** The node thread t holds in slot k, and what memory says about it. */
  lemma Held(s: State, t: nat, k: nat)
    requires Inv(s) && t < |s.threads| && k < 2 && HasHold(s.threads[t].pc, k)
    ensures HeldAt(s, t, k)
    ensures var r := Hold(s.threads[t].pc, k);
            && r.addr != NO_ADDR && 0 <= r.pos < |s.chain| && s.chain[r.pos].addr == r.addr
            && s.heap[r.addr].next == NextAddr(s.chain, r.pos)
            && s.heap[r.addr].item == s.chain[r.pos].item
    ensures HasRecord(s, t)
  {
    assert ThreadOk(s, t);
    assert HeldAt(s, t, k);
    assert NodeOk(s, Hold(s.threads[t].pc, k).addr);
  }

  /** The next of a held node is null exactly if the node is the last one. */
  lemma NextIsNull(s: State, r: Ref)
    requires MemoryOk(s) && Live(s, r)
    ensures s.heap[r.addr].next == NO_ADDR <==> r.pos == |s.chain| - 1
  {
    assert NodeOk(s, r.addr);
  }

  lemma StepEnqReadNext(s: State, t: nat)
    requires Inv(s) && t < |s.threads| && s.threads[t].pc.EnqReadNext?
    ensures Keeps(s, StepEnqueue(s, t))
  {
    Held(s, t, 0);
    EnqReadNextShape(s, t);
    EnqReadNextKeeps(s, StepEnqueue(s, t), t, s.threads[t].pc.node, s.threads[t].pc.tail);
  }

  lemma EnqReadNextShape(s: State, t: nat)
    requires t < |s.threads| && s.threads[t].pc.EnqReadNext? && Live(s, s.threads[t].pc.tail)
    ensures var pc := s.threads[t].pc;
            StepEnqueue(s, t) == Goto(s, t, EnqRevalidate(pc.node, pc.tail, s.heap[pc.tail.addr].next))
  {
  }

  lemma EnqReadNextKeeps(s: State, s': State, t: nat, node: Addr, tail: Ref)
    requires Inv(s) && t < |s.threads| && s.threads[t].pc == EnqReadNext(node, tail) && Live(s, tail)
    requires s' == Goto(s, t, EnqRevalidate(node, tail, s.heap[tail.addr].next))
    ensures Keeps(s, s')
  {
    Held(s, t, 0);
    assert ThreadOk(s, t);
    var next := s.heap[tail.addr].next;
    assert NextFact(s, tail.pos, next);
    GotoMove(s, t, EnqRevalidate(node, tail, next));
  }

  lemma StepEnqRevalidate(s: State, t: nat)
    requires Inv(s) && t < |s.threads| && s.threads[t].pc.EnqRevalidate?
    ensures Keeps(s, StepEnqueue(s, t))
  {
    Held(s, t, 0);
    assert ThreadOk(s, t);
    var pc := s.threads[t].pc;
    if pc.tail.addr != s.tail {
      GotoMove(s, t, EnqReadTail(pc.node));
    } else if pc.next != NO_ADDR {
      GotoMove(s, t, EnqHelp(pc.node, pc.tail, pc.next));
    } else {
      GotoMove(s, t, EnqLink(pc.node, pc.tail));
    }
  }

  /** A compare-and-swap of queue->tail from a held node to the node behind it. */
  lemma SwingTail(s: State, t: nat, expected: Ref, desired: Addr, pc': PC)
    requires Inv(s) && t < |s.threads| && HasRecord(s, t)
    requires Live(s, expected) && NextFact(s, expected.pos, desired) && desired != NO_ADDR
    requires SameCall(s.threads[t].pc, pc') && !HasHold(pc', 0) && !HasHold(pc', 1)
    requires !(pc'.RegWalk? || pc'.RegRead? || pc'.RegLink?)
    requires LocalsOk(s, pc') && SlotsOk(pc', RecordOf(s, t).slots)
    ensures Keeps(s, CasTail(s, t, expected, desired, pc'))
  {
    if s.tail != expected.addr {
      GotoMove(s, t, pc');
    } else {
      assert ThreadOk(s, t);
      var s' := Goto(s.(tail := desired), t, pc');
      assert s.chain[expected.pos + 1].addr == desired;
      assert TailPos(s') == expected.pos + 1;
      LocalsStable(s, s', pc');
      QuietMove(s, s', t);
    }
  }

  lemma StepEnqHelp(s: State, t: nat)
    requires Inv(s) && t < |s.threads| && s.threads[t].pc.EnqHelp?
    ensures Keeps(s, StepEnqueue(s, t))
  {
    Held(s, t, 0);
    assert ThreadOk(s, t);
    var pc := s.threads[t].pc;
    SwingTail(s, t, pc.tail, pc.next, EnqReadTail(pc.node));
  }

  lemma StepEnqSwing(s: State, t: nat)
    requires Inv(s) && t < |s.threads| && s.threads[t].pc.EnqSwing?
    ensures Keeps(s, StepEnqueue(s, t))
  {
    Held(s, t, 0);
    assert ThreadOk(s, t);
    var pc := s.threads[t].pc;
    SwingTail(s, t, pc.tail, pc.node, EnqRelease(pc.tail, 0));
  }

  lemma StepDeqHelp(s: State, t: nat)
    requires Inv(s) && t < |s.threads| && s.threads[t].pc.DeqHelp?
    ensures Keeps(s, StepDequeue(s, t))
  {
    Held(s, t, 0);
    assert ThreadOk(s, t);
    var pc := s.threads[t].pc;
    SwingTail(s, t, pc.tail, pc.next, DeqReadHead);
  }

  // ---------------------------------------------------------------- releasing slots

  lemma StepEnqRelease(s: State, t: nat)
    requires Inv(s) && t < |s.threads| && s.threads[t].pc.EnqRelease?
    ensures Keeps(s, StepEnqueue(s, t))
  {
    assert ThreadOk(s, t);
    EnqReleaseShape(s, t);
    EnqReleaseKeeps(s, StepEnqueue(s, t), t, s.threads[t].pc.tail, s.threads[t].pc.i);
  }

  lemma EnqReleaseKeeps(s: State, s': State, t: nat, tail: Ref, i: nat)
    requires Inv(s) && t < |s.threads| && s.threads[t].pc == EnqRelease(tail, i) && i < SLOTS
    requires s' == Goto(ReleaseSlot(s, t, i, tail.addr), t, if i + 1 < SLOTS then EnqRelease(tail, i + 1) else Idle)
    ensures Keeps(s, s')
  {
    assert ThreadOk(s, t);
    EnqReleaseFits(s, tail, i, RecordOf(s, t).slots);
    ReleaseMove(s, t, if i + 1 < SLOTS then EnqRelease(tail, i + 1) else Idle, i, tail.addr);
  }

  lemma EnqReleaseShape(s: State, t: nat)
    requires t < |s.threads| && s.threads[t].pc.EnqRelease? && s.threads[t].pc.i < SLOTS
    ensures var pc := s.threads[t].pc;
            StepEnqueue(s, t) == Goto(ReleaseSlot(s, t, pc.i, pc.tail.addr), t,
                                      if pc.i + 1 < SLOTS then EnqRelease(pc.tail, pc.i + 1) else Idle)
  {
  }

  /** Releasing the tail slot by slot clears the one slot that holds it. */
  lemma EnqReleaseFits(s: State, tail: Ref, i: nat, sl: seq<Addr>)
    requires LocalsOk(s, EnqRelease(tail, i)) && |sl| == SLOTS && SlotsOk(EnqRelease(tail, i), sl)
    ensures i < SLOTS
    ensures var pc' := if i + 1 < SLOTS then EnqRelease(tail, i + 1) else Idle;
            && SlotsOk(pc', if sl[i] == tail.addr then sl[i := NO_ADDR] else sl)
            && LocalsOk(s, pc') && SameCall(EnqRelease(tail, i), pc') && !HasHold(pc', 0) && !HasHold(pc', 1)
  {
  }

  lemma ReleaseMove(s: State, t: nat, pc': PC, k: nat, a: Addr)
    requires Inv(s) && t < |s.threads| && HasRecord(s, t) && k < SLOTS
    requires !(pc'.RegWalk? || pc'.RegRead? || pc'.RegLink?) && !HasHold(pc', 0) && !HasHold(pc', 1)
    requires SameCall(s.threads[t].pc, pc') && LocalsOk(s, pc')
    requires var sl := RecordOf(s, t).slots; SlotsOk(pc', if sl[k] == a then sl[k := NO_ADDR] else sl)
    ensures Keeps(s, Goto(ReleaseSlot(s, t, k, a), t, pc'))
  {
    if RecordOf(s, t).slots[k] == a {
      SlotMove(s, t, pc', RecordOf(s, t).slots[k := NO_ADDR]);
    } else {
      GotoMove(s, t, pc');
    }
  }

  lemma StepDeqReleaseAll(s: State, t: nat)
    requires Inv(s) && t < |s.threads| && s.threads[t].pc.DeqReleaseAll?
    ensures Keeps(s, StepDequeue(s, t))
  {
    assert ThreadOk(s, t);
    var pc := s.threads[t].pc;
    var pc' := if pc.i + 1 < SLOTS then DeqReleaseAll(pc.i + 1) else Idle;
    SlotMove(s, t, pc', RecordOf(s, t).slots[pc.i := NO_ADDR]);
  }

  lemma ReleaseNextKeeps(s: State, s': State, t: nat, x: Exit, i: nat)
    requires Inv(s) && t < |s.threads| && s.threads[t].pc == DeqReleaseNext(x, i) && i < SLOTS
    requires s' == Goto(ReleaseSlot(s, t, i, x.next), t, if i + 1 < SLOTS then DeqReleaseNext(x, i + 1) else Idle)
    ensures Keeps(s, s')
  {
    assert ThreadOk(s, t);
    ReleaseNextSlots(x, i, RecordOf(s, t).slots);
    ReleaseNextFits(s, x, i);
    ReleaseMove(s, t, if i + 1 < SLOTS then DeqReleaseNext(x, i + 1) else Idle, i, x.next);
  }

  lemma StepDeqReleaseNext(s: State, t: nat)
    requires Inv(s) && t < |s.threads| && s.threads[t].pc.DeqReleaseNext?
    ensures Keeps(s, StepDequeue(s, t))
  {
    assert ThreadOk(s, t);
    ReleaseNextShape(s, t);
    ReleaseNextKeeps(s, StepDequeue(s, t), t, s.threads[t].pc.exit, s.threads[t].pc.i);
  }

  lemma ReleaseNextFits(s: State, x: Exit, i: nat)
    requires LocalsOk(s, DeqReleaseNext(x, i))
    ensures var pc' := if i + 1 < SLOTS then DeqReleaseNext(x, i + 1) else Idle;
            LocalsOk(s, pc') && SameCall(DeqReleaseNext(x, i), pc') && !HasHold(pc', 0) && !HasHold(pc', 1)
  {
  }

  lemma ReleaseNextShape(s: State, t: nat)
    requires t < |s.threads| && s.threads[t].pc.DeqReleaseNext? && s.threads[t].pc.i < SLOTS
    ensures var pc := s.threads[t].pc;
            StepDequeue(s, t) == Goto(ReleaseSlot(s, t, pc.i, pc.exit.next), t,
                                      if pc.i + 1 < SLOTS then DeqReleaseNext(pc.exit, pc.i + 1) else Idle)
  {
  }

  /** Releasing x.next slot by slot clears the one slot that holds it. */
  lemma ReleaseNextSlots(x: Exit, i: nat, sl: seq<Addr>)
    requires |sl| == SLOTS && i < SLOTS && ExitOk(x) && SlotsOk(DeqReleaseNext(x, i), sl)
    ensures var pc' := if i + 1 < SLOTS then DeqReleaseNext(x, i + 1) else Idle;
            SlotsOk(pc', if sl[i] == x.next then sl[i := NO_ADDR] else sl)
  {
  }

  // ---------------------------------------------------------------- dequeue up to its swap

  lemma StepDeqReadHead(s: State, t: nat)
    requires Inv(s) && t < |s.threads| && s.threads[t].pc.DeqReadHead?
    ensures Keeps(s, StepDequeue(s, t))
  {
    assert ThreadOk(s, t);
    EarlyMove(s, t, DeqProtect(s.head));
  }

  lemma StepDeqProtect(s: State, t: nat)
    requires Inv(s) && t < |s.threads| && s.threads[t].pc.DeqProtect?
    ensures Keeps(s, StepDequeue(s, t))
  {
    assert ThreadOk(s, t);
    var pc := s.threads[t].pc;
    if s.threads[t].rec < 0 {
      EarlyMove(s, t, RegWalk(|s.recs|, pc));
    } else {
      SlotMove(s, t, DeqValidate(pc.seen), RecordOf(s, t).slots[0 := pc.seen]);
    }
  }

  lemma StepDeqValidate(s: State, t: nat)
    requires Inv(s) && t < |s.threads| && s.threads[t].pc.DeqValidate?
    ensures Keeps(s, StepDequeue(s, t))
  {
    assert ThreadOk(s, t);
    var pc := s.threads[t].pc;
    if pc.seen != s.head {
      EarlyMove(s, t, DeqReadHead);
    } else {
      GotoMove(s, t, DeqReadTail(Ref(pc.seen, HeadPos(s))));
    }
  }

  lemma StepDeqReadTail(s: State, t: nat)
    requires Inv(s) && t < |s.threads| && s.threads[t].pc.DeqReadTail?
    ensures Keeps(s, StepDequeue(s, t))
  {
    Held(s, t, 0);
    assert ThreadOk(s, t);
    assert NodeOk(s, s.tail);
    GotoMove(s, t, DeqReadNext(s.threads[t].pc.head, Ref(s.tail, TailPos(s))));
  }

  lemma ReadNextKeeps(s: State, t: nat, head: Ref, tail: Ref)
    requires Inv(s) && t < |s.threads| && s.threads[t].pc == DeqReadNext(head, tail)
    ensures Live(s, head) && Keeps(s, Goto(s, t, DeqProtectNext(head, tail, s.heap[head.addr].next)))
  {
    Held(s, t, 0);
    assert ThreadOk(s, t);
    var next := s.heap[head.addr].next;
    assert NextFact(s, head.pos, next);
    ReadNextFits(s, head, tail, next, RecordOf(s, t).slots);
    GotoMove(s, t, DeqProtectNext(head, tail, next));
  }

  lemma StepDeqReadNext(s: State, t: nat)
    requires Inv(s) && t < |s.threads| && s.threads[t].pc.DeqReadNext?
    ensures Keeps(s, StepDequeue(s, t))
  {
    ReadNextKeeps(s, t, s.threads[t].pc.head, s.threads[t].pc.tail);
    ReadNextShape(s, t);
  }

  lemma ReadNextShape(s: State, t: nat)
    requires t < |s.threads| && s.threads[t].pc.DeqReadNext? && Live(s, s.threads[t].pc.head)
    ensures var pc := s.threads[t].pc;
            StepDequeue(s, t) == Goto(s, t, DeqProtectNext(pc.head, pc.tail, s.heap[pc.head.addr].next))
  {
  }

  lemma ReadNextFits(s: State, head: Ref, tail: Ref, next: Addr, sl: seq<Addr>)
    requires LocalsOk(s, DeqReadNext(head, tail)) && NextFact(s, head.pos, next)
    requires |sl| == SLOTS && SlotsOk(DeqReadNext(head, tail), sl)
    ensures var pc' := DeqProtectNext(head, tail, next);
            LocalsOk(s, pc') && SlotsOk(pc', sl) && SameCall(DeqReadNext(head, tail), pc')
  {
  }

  lemma StepDeqProtectNext(s: State, t: nat)
    requires Inv(s) && t < |s.threads| && s.threads[t].pc.DeqProtectNext?
    ensures Keeps(s, StepDequeue(s, t))
  {
    Held(s, t, 0);
    assert ThreadOk(s, t);
    var pc := s.threads[t].pc;
    var pc' := DeqRevalidate(pc.head, pc.tail, pc.next);
    if pc.next == NO_ADDR {
      GotoMove(s, t, pc');
    } else {
      SlotMove(s, t, pc', RecordOf(s, t).slots[1 := pc.next]);
    }
  }

  /** Head is still the head: the node behind it is in the queue, so slot 1 protects it too. */
  lemma SuccessorLive(s: State, head: Ref, tail: Ref, next: Addr)
    requires MemoryOk(s) && Live(s, head) && head.addr == s.head
    requires TailFact(s, head, tail) && NextFact(s, head.pos, next) && next != NO_ADDR && head.addr != tail.addr
    ensures Live(s, Ref(next, PosOf(s, next))) && PosOf(s, next) == head.pos + 1 <= TailPos(s)
  {
    assert NodeOk(s, s.head);
    assert s.chain[head.pos + 1].addr == next;
  }

  lemma ProtectSuccessor(s: State, t: nat)
    requires Inv(s) && t < |s.threads| && s.threads[t].pc.DeqRevalidate?
    requires var pc := s.threads[t].pc; pc.head.addr == s.head && pc.next != NO_ADDR && pc.head.addr != pc.tail.addr
    ensures Keeps(s, StepDequeue(s, t))
  {
    Held(s, t, 0);
    assert ThreadOk(s, t);
    var pc := s.threads[t].pc;
    SuccessorLive(s, pc.head, pc.tail, pc.next);
    GotoMove(s, t, DeqReadItem(pc.head, Ref(pc.next, PosOf(s, pc.next))));
  }

  lemma StepDeqRevalidate(s: State, t: nat)
    requires Inv(s) && t < |s.threads| && s.threads[t].pc.DeqRevalidate?
    ensures Keeps(s, StepDequeue(s, t))
  {
    var pc := s.threads[t].pc;
    if pc.head.addr == s.head && pc.next != NO_ADDR && pc.head.addr != pc.tail.addr {
      ProtectSuccessor(s, t);
    } else if pc.head.addr == s.head && pc.next != NO_ADDR {
      HelpTail(s, t);
    } else {
      Held(s, t, 0);
      assert ThreadOk(s, t);
      GotoMove(s, t, if pc.head.addr != s.head then DeqReadHead else DeqReleaseAll(0));
    }
  }

  lemma HelpTail(s: State, t: nat)
    requires Inv(s) && t < |s.threads| && s.threads[t].pc.DeqRevalidate?
    requires var pc := s.threads[t].pc; pc.head.addr == s.head && pc.next != NO_ADDR && pc.head.addr == pc.tail.addr
    ensures Keeps(s, StepDequeue(s, t))
  {
    Held(s, t, 0);
    assert ThreadOk(s, t);
    var pc := s.threads[t].pc;
    GotoMove(s, t, DeqHelp(pc.head, pc.tail, pc.next));
  }

  lemma StepDeqReadItem(s: State, t: nat)
    requires Inv(s) && t < |s.threads| && s.threads[t].pc.DeqReadItem?
    ensures Keeps(s, StepDequeue(s, t))
  {
    Held(s, t, 0);
    Held(s, t, 1);
    assert ThreadOk(s, t);
    var pc := s.threads[t].pc;
    GotoMove(s, t, DeqSwing(pc.head, pc.succ, s.heap[pc.succ.addr].item));
  }
}
