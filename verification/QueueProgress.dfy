/**
 A call of the lock-free queue that is left alone returns: after a bounded number of its own
 moves, with the answer the queue holds.
 */
module QueueProgress {
  import opened QueueModel
  import opened QueueInvariant
  import opened QueueSteps
  import opened QueueUpdates
  import opened QueueSafety

  // ---------------------------------------------------------------- what is left to do

  /** How far queue->tail is behind the last node. */
  function Lag(s: State): int { |s.chain| - 1 - TailPos(s) }

  /** Registering a hazard record: the walk, the read and the swap of the table. */
  function RegisterCost(s: State, t: nat): int
    requires t < |s.threads|
  {
    if s.threads[t].rec >= 0 then 0 else |s.recs| + 4
  }

  /** From a dequeue's successful swap of head to its return: retire, scan, help, release. */
  function ExitCost(s: State, t: nat): int
    requires t < |s.threads|
  {
    if s.threads[t].rec >= 0 then 9 * |s.recs| + |Retired(s, t)| + 14 else 9 * |s.recs| + 23
  }

  /** A call from the top of its loop: one more turn if tail lags behind. */
  function EnqueueCost(s: State): int { 11 + 6 * Lag(s) }

  function DequeueCost(s: State, t: nat): int
    requires t < |s.threads|
  {
    9 + ExitCost(s, t) + 8 * Lag(s)
  }

  /** In the middle of a turn: less if what the thread has read still holds, and a whole turn more if not. */
  function EnqueueLeft(s: State, pc: PC): int {
    match pc
    case EnqReadTail(_) => EnqueueCost(s)
    case EnqProtect(_, seen) => if seen == s.tail then 10 + 6 * Lag(s) else 2 + EnqueueCost(s)
    case EnqValidate(_, seen) => if seen == s.tail then 9 + 6 * Lag(s) else 1 + EnqueueCost(s)
    case EnqReadNext(_, tail) => if tail.addr == s.tail then 8 + 6 * Lag(s) else 3 + EnqueueCost(s)
    case EnqRevalidate(_, tail, next) =>
      if tail.addr == s.tail && (next == NO_ADDR <==> Lag(s) == 0) then 7 + 6 * Lag(s) else 2 + EnqueueCost(s)
    case EnqHelp(_, tail, _) => if tail.addr == s.tail then 6 + 6 * Lag(s) else 1 + EnqueueCost(s)
    case EnqLink(_, tail) =>
      if tail.addr in s.heap && s.heap[tail.addr].next == NO_ADDR then 6 else 1 + EnqueueCost(s)
    case EnqSwing(_, _) => 5
    case EnqRelease(_, i) => 4 - i
    case _ => 0
  }

  function DequeueLeft(s: State, t: nat, pc: PC): int
    requires t < |s.threads|
  {
    var x, again := ExitCost(s, t), DequeueCost(s, t);
    match pc
    case DeqReadHead => again
    case DeqProtect(seen) => if seen == s.head then 8 + x + 8 * Lag(s) else 2 + again
    case DeqValidate(seen) => if seen == s.head then 7 + x + 8 * Lag(s) else 1 + again
    case DeqReadTail(head) => if head.addr == s.head then 6 + x + 8 * Lag(s) else 5 + again
    case DeqReadNext(head, tail) => if Fresh(s, head, tail) then 5 + x + 8 * Lag(s) else 4 + again
    case DeqProtectNext(head, tail, _) => if Fresh(s, head, tail) then 4 + x + 8 * Lag(s) else 3 + again
    case DeqRevalidate(head, tail, _) => if Fresh(s, head, tail) then 3 + x + 8 * Lag(s) else 2 + again
    case DeqReleaseAll(i) => 4 - i
    case DeqHelp(_, tail, _) => if tail.addr == s.tail then 10 + x else 1 + again
    case DeqReadItem(head, _) => if head.addr == s.head then 2 + x else 2 + again
    case DeqSwing(head, _, _) => if head.addr == s.head then 1 + x else 1 + again
    case DeqRetire(_, i) => if i == 0 then x else 5 + (if i < SLOTS then SLOTS - i else 0)
    case DeqReleaseNext(_, i) => 4 - i
    case _ => 0
  }

  predicate Fresh(s: State, head: Ref, tail: Ref) { head.addr == s.head && tail.addr == s.tail }

  function ScanLeft(s: State, t: nat, pc: PC): int
    requires t < |s.threads|
  {
    var n := |s.recs|;
    match pc
    case ScanBegin(_, _) => 2 * SLOTS * n + |Retired(s, t)| + n + 12
    case ScanTest(_, _, _, r, k, _) => 2 * (SLOTS * r - k) + |Retired(s, t)| + n + 11
    case ScanTake(_, _, _, r, k, _) => 2 * (SLOTS * r - k) - 1 + |Retired(s, t)| + n + 11
    case ScanFree(_, _, _, _, todo) => |todo| + n + 10
    case HelpScan(_, _, r) => r + 9
    case RegWalk(r, resume) => r + 3 + CallLeft(s, t, resume)
    case RegRead(resume) => 2 + CallLeft(s, t, resume)
    case RegLink(top, resume) => (if top == n then 1 else 3) + CallLeft(s, t, resume)
    case _ => 0
  }

  function CallLeft(s: State, t: nat, pc: PC): int
    requires t < |s.threads|
  {
    if InEnqueue(pc) then EnqueueLeft(s, pc) else DequeueLeft(s, t, pc)
  }

  /** A bound on the moves thread t needs to return if nobody else moves. */
  function Left(s: State, t: nat): int
    requires t < |s.threads|
  {
    var pc := s.threads[t].pc;
    if InEnqueue(pc) || InDequeue(pc) then
      CallLeft(s, t, pc) + (if NeedsRecord(pc) then 0 else RegisterCost(s, t))
    else ScanLeft(s, t, pc)
  }

  // ---------------------------------------------------------------- what it will return

  /** The first item of the queue; null if it is empty. */
  function Front(s: State): Val {
    if 0 <= HeadPos(s) && HeadPos(s) + 1 < |s.chain| then s.chain[HeadPos(s) + 1].item else NO_ADDR
  }

  predicate Exits(pc: PC) {
    || pc.DeqRetire? || pc.DeqReleaseNext? || pc.ScanBegin? || pc.ScanTest? || pc.ScanTake? || pc.ScanFree?
    || pc.HelpScan?
  }

  /** What thread t will return if nobody else moves. */
  function Answer(s: State, pc: PC): Val {
    if InEnqueue(pc) then TRUE
    else if pc.DeqReleaseAll? then NO_ADDR
    else if Exits(pc) then pc.exit.item
    else if (pc.DeqProtectNext? || pc.DeqRevalidate?) && pc.next == NO_ADDR && pc.head.addr == s.head then NO_ADDR
    else Front(s)
  }

  /** One move brought thread t closer to returning the same answer. */
  predicate Closer(s: State, s': State, t: nat)
    requires t < |s.threads|
  {
    && t < |s'.threads| && !s'.threads[t].pc.Idle? && 0 < Left(s', t) < Left(s, t)
    && Answer(s', Base(s'.threads[t].pc)) == Answer(s, Base(s.threads[t].pc))
  }

  /** The last move of a call. */
  predicate Last(s: State, s': State, t: nat, answer: Val)
    requires t < |s.threads|
  {
    t < |s'.threads| && s'.threads[t].pc.Idle? && Left(s, t) > 0 && Answer(s, Base(s.threads[t].pc)) == answer
  }

  // ---------------------------------------------------------------- enqueue

  lemma LagIs(s: State)
    requires MemoryOk(s)
    ensures 0 <= Lag(s) <= 1
  {
  }

  /** Moves that only change the thread's place. */
  lemma PlaceCloser(s: State, t: nat, pc': PC)
    requires t < |s.threads| && (InEnqueue(s.threads[t].pc) || InDequeue(s.threads[t].pc))
    requires InEnqueue(pc') || InDequeue(pc')
    requires 0 < CallLeft(s, t, pc') < CallLeft(s, t, s.threads[t].pc)
    requires NeedsRecord(s.threads[t].pc) ==> s.threads[t].rec >= 0
    requires NeedsRecord(pc') ==> s.threads[t].rec >= 0
    requires Answer(s, pc') == Answer(s, s.threads[t].pc)
    ensures Closer(s, Goto(s, t, pc'), t)
  {
    var s' := Goto(s, t, pc');
    assert Lag(s') == Lag(s) && ExitCost(s', t) == ExitCost(s, t) && RegisterCost(s', t) == RegisterCost(s, t);
    SameLeft(s, s', t, pc');
  }

  /** What is left depends on no more than this. */
  lemma SameLeft(s: State, s': State, t: nat, pc: PC)
    requires t < |s.threads| && t < |s'.threads| && s'.heap == s.heap && s'.head == s.head && s'.tail == s.tail
    requires s'.chain == s.chain && ExitCost(s', t) == ExitCost(s, t)
    ensures CallLeft(s', t, pc) == CallLeft(s, t, pc) && Answer(s', pc) == Answer(s, pc)
  {
  }

  /** Moves that also change one of the thread's own slots. */
  lemma SlotCloser(s: State, t: nat, k: nat, a: Addr, pc': PC)
    requires t < |s.threads| && HasRecord(s, t) && k < SLOTS
    requires InEnqueue(s.threads[t].pc) || InDequeue(s.threads[t].pc)
    requires InEnqueue(pc') || InDequeue(pc')
    requires 0 < CallLeft(s, t, pc') < CallLeft(s, t, s.threads[t].pc)
    requires Answer(s, pc') == Answer(s, s.threads[t].pc)
    ensures Closer(s, Goto(SetSlot(s, t, k, a), t, pc'), t)
  {
    var s' := Goto(SetSlot(s, t, k, a), t, pc');
    assert Retired(s', t) == Retired(s, t) && s'.threads[t].rec == s.threads[t].rec && |s'.recs| == |s.recs|;
    SameLeft(s, s', t, pc');
  }

  lemma EnqReadTailCloser(s: State, t: nat)
    requires Inv(s) && t < |s.threads| && s.threads[t].pc.EnqReadTail?
    ensures Closer(s, StepEnqueue(s, t), t)
  {
    LagIs(s);
    PlaceCloser(s, t, EnqProtect(s.threads[t].pc.node, s.tail));
  }

  lemma EnqProtectCloser(s: State, t: nat)
    requires Inv(s) && t < |s.threads| && s.threads[t].pc.EnqProtect?
    ensures Closer(s, StepEnqueue(s, t), t)
  {
    LagIs(s);
    assert ThreadOk(s, t);
    var pc := s.threads[t].pc;
    if s.threads[t].rec < 0 {
      RegisterCloser(s, t);
    } else {
      SlotCloser(s, t, 0, pc.seen, EnqValidate(pc.node, pc.seen));
    }
  }

  /** Starting to register. */
  lemma RegisterCloser(s: State, t: nat)
    requires t < |s.threads| && s.threads[t].rec < 0 && (s.threads[t].pc.EnqProtect? || s.threads[t].pc.DeqProtect?)
    requires 0 <= Lag(s)
    ensures Closer(s, Goto(s, t, RegWalk(|s.recs|, s.threads[t].pc)), t)
  {
    var pc := s.threads[t].pc;
    var s' := Goto(s, t, RegWalk(|s.recs|, pc));
    assert ExitCost(s', t) == ExitCost(s, t);
    SameLeft(s, s', t, pc);
  }

  lemma EnqValidateCloser(s: State, t: nat)
    requires Inv(s) && t < |s.threads| && s.threads[t].pc.EnqValidate?
    ensures Closer(s, StepEnqueue(s, t), t)
  {
    LagIs(s);
    assert ThreadOk(s, t);
    var pc := s.threads[t].pc;
    PlaceCloser(s, t, if pc.seen != s.tail then EnqReadTail(pc.node)
                      else EnqReadNext(pc.node, Ref(pc.seen, TailPos(s))));
  }

  lemma EnqReadNextCloser(s: State, t: nat)
    requires Inv(s) && t < |s.threads| && s.threads[t].pc.EnqReadNext?
    ensures Closer(s, StepEnqueue(s, t), t)
  {
    LagIs(s);
    assert ThreadOk(s, t);
    Held(s, t, 0);
    var pc, next := s.threads[t].pc, s.heap[s.threads[t].pc.tail.addr].next;
    NextIsNull(s, pc.tail);
    EnqReadNextShape(s, t);
    PlaceCloser(s, t, EnqRevalidate(pc.node, pc.tail, next));
  }

  lemma EnqRevalidateCloser(s: State, t: nat)
    requires Inv(s) && t < |s.threads| && s.threads[t].pc.EnqRevalidate?
    ensures Closer(s, StepEnqueue(s, t), t)
  {
    LagIs(s);
    assert ThreadOk(s, t);
    Held(s, t, 0);
    var pc := s.threads[t].pc;
    NextIsNull(s, pc.tail);
    PlaceCloser(s, t, if pc.tail.addr != s.tail then EnqReadTail(pc.node)
                      else if pc.next != NO_ADDR then EnqHelp(pc.node, pc.tail, pc.next)
                      else EnqLink(pc.node, pc.tail));
  }

  /** Helping tail on: either it was on already, or it is no longer behind. */
  lemma HelpCloser(s: State, t: nat, tail: Ref, next: Addr, pc': PC)
    requires MemoryOk(s) && t < |s.threads| && s.threads[t].rec >= 0
    requires Live(s, tail) && NextFact(s, tail.pos, next) && next != NO_ADDR
    requires s.threads[t].pc.EnqHelp? || s.threads[t].pc.DeqHelp?
    requires s.threads[t].pc.tail == tail
    requires pc' == if s.threads[t].pc.EnqHelp? then EnqReadTail(s.threads[t].pc.node) else DeqReadHead
    ensures Closer(s, CasTail(s, t, tail, next, pc'), t)
  {
    LagIs(s);
    if s.tail != tail.addr {
      PlaceCloser(s, t, pc');
    } else {
      TailCatchesUp(s, tail, next);
      CaughtUpCloser(s, t, next, pc');
    }
  }

  lemma TailCatchesUp(s: State, tail: Ref, next: Addr)
    requires MemoryOk(s) && Live(s, tail) && s.tail == tail.addr && NextFact(s, tail.pos, next) && next != NO_ADDR
    ensures Lag(s) == 1 && Lag(s.(tail := next)) == 0
  {
    assert s.chain[tail.pos + 1].addr == next;
  }

  lemma CaughtUpCloser(s: State, t: nat, next: Addr, pc': PC)
    requires t < |s.threads| && s.threads[t].rec >= 0 && Lag(s) == 1 && Lag(s.(tail := next)) == 0
    requires s.threads[t].pc.EnqHelp? || s.threads[t].pc.DeqHelp?
    requires s.threads[t].pc.tail.addr == s.tail
    requires pc' == if s.threads[t].pc.EnqHelp? then EnqReadTail(s.threads[t].pc.node) else DeqReadHead
    ensures Closer(s, Goto(s.(tail := next), t, pc'), t)
  {
    var s' := Goto(s.(tail := next), t, pc');
    assert ExitCost(s', t) == ExitCost(s, t) && HeadPos(s') == HeadPos(s) && Lag(s') == 0;
  }

  lemma EnqHelpCloser(s: State, t: nat)
    requires Inv(s) && t < |s.threads| && s.threads[t].pc.EnqHelp?
    ensures Closer(s, StepEnqueue(s, t), t)
  {
    assert ThreadOk(s, t);
    Held(s, t, 0);
    var pc := s.threads[t].pc;
    HelpCloser(s, t, pc.tail, pc.next, EnqReadTail(pc.node));
  }

  lemma EnqLinkCloser(s: State, t: nat)
    requires Inv(s) && t < |s.threads| && s.threads[t].pc.EnqLink?
    ensures Closer(s, StepEnqueue(s, t), t)
  {
    LagIs(s);
    assert ThreadOk(s, t);
    Held(s, t, 0);
    var pc := s.threads[t].pc;
    if s.heap[pc.tail.addr].next != NO_ADDR {
      PlaceCloser(s, t, EnqReadTail(pc.node));
    } else {
      LinkShape(s, t);
    }
  }

  lemma EnqSwingCloser(s: State, t: nat)
    requires Inv(s) && t < |s.threads| && s.threads[t].pc.EnqSwing?
    ensures Closer(s, StepEnqueue(s, t), t)
  {
    assert ThreadOk(s, t);
    Held(s, t, 0);
    EnqSwingShape(s, t);
  }

  lemma EnqSwingShape(s: State, t: nat)
    requires t < |s.threads| && s.threads[t].pc.EnqSwing? && Live(s, s.threads[t].pc.tail)
    ensures var th := s.threads[t]; StepEnqueue(s, t).threads == s.threads[t := th.(pc := EnqRelease(th.pc.tail, 0))]
  {
  }

  lemma EnqReleaseCloser(s: State, t: nat)
    requires Inv(s) && t < |s.threads| && s.threads[t].pc.EnqRelease?
    ensures if s.threads[t].pc.i + 1 < SLOTS then Closer(s, StepEnqueue(s, t), t)
            else Last(s, StepEnqueue(s, t), t, TRUE)
  {
    assert ThreadOk(s, t);
    EnqReleaseShape(s, t);
  }

  // ---------------------------------------------------------------- dequeue

  lemma DeqReadHeadCloser(s: State, t: nat)
    requires Inv(s) && t < |s.threads| && s.threads[t].pc.DeqReadHead?
    ensures Closer(s, StepDequeue(s, t), t)
  {
    LagIs(s);
    PlaceCloser(s, t, DeqProtect(s.head));
  }

  lemma DeqProtectCloser(s: State, t: nat)
    requires Inv(s) && t < |s.threads| && s.threads[t].pc.DeqProtect?
    ensures Closer(s, StepDequeue(s, t), t)
  {
    LagIs(s);
    assert ThreadOk(s, t);
    var pc := s.threads[t].pc;
    if s.threads[t].rec < 0 {
      RegisterCloser(s, t);
    } else {
      SlotCloser(s, t, 0, pc.seen, DeqValidate(pc.seen));
    }
  }

  lemma DeqValidateCloser(s: State, t: nat)
    requires Inv(s) && t < |s.threads| && s.threads[t].pc.DeqValidate?
    ensures Closer(s, StepDequeue(s, t), t)
  {
    LagIs(s);
    assert ThreadOk(s, t);
    ValidateGoes(s, t);
  }

  lemma ValidateGoes(s: State, t: nat)
    requires t < |s.threads| && s.threads[t].pc.DeqValidate? && s.threads[t].rec >= 0 && 0 <= Lag(s) <= 1
    ensures Closer(s, StepDequeue(s, t), t)
  {
    var pc := s.threads[t].pc;
    PlaceCloser(s, t, if pc.seen != s.head then DeqReadHead else DeqReadTail(Ref(pc.seen, HeadPos(s))));
  }

  lemma DeqReadTailCloser(s: State, t: nat)
    requires Inv(s) && t < |s.threads| && s.threads[t].pc.DeqReadTail?
    ensures Closer(s, StepDequeue(s, t), t)
  {
    LagIs(s);
    assert ThreadOk(s, t);
    PlaceCloser(s, t, DeqReadNext(s.threads[t].pc.head, Ref(s.tail, TailPos(s))));
  }

  lemma DeqReadNextCloser(s: State, t: nat)
    requires Inv(s) && t < |s.threads| && s.threads[t].pc.DeqReadNext?
    ensures Closer(s, StepDequeue(s, t), t)
  {
    LagIs(s);
    assert ThreadOk(s, t);
    Held(s, t, 0);
    var pc, next := s.threads[t].pc, s.heap[s.threads[t].pc.head.addr].next;
    NextIsNull(s, pc.head);
    ReadNextShape(s, t);
    PlaceCloser(s, t, DeqProtectNext(pc.head, pc.tail, next));
  }

  lemma DeqProtectNextCloser(s: State, t: nat)
    requires Inv(s) && t < |s.threads| && s.threads[t].pc.DeqProtectNext?
    ensures Closer(s, StepDequeue(s, t), t)
  {
    LagIs(s);
    assert ThreadOk(s, t);
    ProtectNextGoes(s, t);
  }

  lemma ProtectNextGoes(s: State, t: nat)
    requires t < |s.threads| && s.threads[t].pc.DeqProtectNext? && HasRecord(s, t) && 0 <= Lag(s) <= 1
    ensures Closer(s, StepDequeue(s, t), t)
  {
    var pc := s.threads[t].pc;
    var pc' := DeqRevalidate(pc.head, pc.tail, pc.next);
    if pc.next == NO_ADDR {
      PlaceCloser(s, t, pc');
    } else {
      SlotCloser(s, t, 1, pc.next, pc');
    }
  }

  lemma DeqRevalidateCloser(s: State, t: nat)
    requires Inv(s) && t < |s.threads| && s.threads[t].pc.DeqRevalidate?
    ensures Closer(s, StepDequeue(s, t), t)
  {
    LagIs(s);
    assert ThreadOk(s, t);
    Held(s, t, 0);
    var pc := s.threads[t].pc;
    HeadIsTail(s, pc.head, pc.tail, pc.next);
    RevalidateGoes(s, t);
    RevalidateLeft(s, t, pc);
    PlaceCloser(s, t, AfterRevalidate(s, pc));
  }

  lemma RevalidateLeft(s: State, t: nat, pc: PC)
    requires t < |s.threads| && pc.DeqRevalidate? && 0 <= Lag(s) <= 1
    requires Fresh(s, pc.head, pc.tail) && pc.head.addr == pc.tail.addr && pc.next != NO_ADDR ==> Lag(s) == 1
    ensures 0 < DequeueLeft(s, t, AfterRevalidate(s, pc)) < DequeueLeft(s, t, pc)
    ensures Answer(s, AfterRevalidate(s, pc)) == Answer(s, pc)
  {
    assert ExitCost(s, t) >= 14;
  }

  function AfterRevalidate(s: State, pc: PC): PC
    requires pc.DeqRevalidate?
  {
    if pc.head.addr != s.head then DeqReadHead
    else if pc.next == NO_ADDR then DeqReleaseAll(0)
    else if pc.head.addr == pc.tail.addr then DeqHelp(pc.head, pc.tail, pc.next)
    else DeqReadItem(pc.head, Ref(pc.next, PosOf(s, pc.next)))
  }

  lemma RevalidateGoes(s: State, t: nat)
    requires t < |s.threads| && s.threads[t].pc.DeqRevalidate?
    ensures StepDequeue(s, t) == Goto(s, t, AfterRevalidate(s, s.threads[t].pc))
  {
  }

  lemma HeadIsTail(s: State, head: Ref, tail: Ref, next: Addr)
    requires MemoryOk(s) && Live(s, head) && NextFact(s, head.pos, next)
    ensures Fresh(s, head, tail) && head.addr == tail.addr && next != NO_ADDR ==> Lag(s) == 1
  {
  }

  lemma DeqHelpCloser(s: State, t: nat)
    requires Inv(s) && t < |s.threads| && s.threads[t].pc.DeqHelp?
    ensures Closer(s, StepDequeue(s, t), t)
  {
    assert ThreadOk(s, t);
    Held(s, t, 0);
    var pc := s.threads[t].pc;
    HelpCloser(s, t, pc.tail, pc.next, DeqReadHead);
  }

  lemma DeqReadItemCloser(s: State, t: nat)
    requires Inv(s) && t < |s.threads| && s.threads[t].pc.DeqReadItem?
    ensures Closer(s, StepDequeue(s, t), t)
  {
    LagIs(s);
    assert ThreadOk(s, t);
    Held(s, t, 1);
    var pc := s.threads[t].pc;
    PlaceCloser(s, t, DeqSwing(pc.head, pc.succ, s.heap[pc.succ.addr].item));
  }

  lemma DeqSwingCloser(s: State, t: nat)
    requires Inv(s) && t < |s.threads| && s.threads[t].pc.DeqSwing?
    ensures Closer(s, StepDequeue(s, t), t)
  {
    LagIs(s);
    assert ThreadOk(s, t);
    Held(s, t, 0);
    var pc := s.threads[t].pc;
    if s.head != pc.head.addr {
      PlaceCloser(s, t, DeqReadHead);
    } else {
      SwungCloser(s, t);
    }
  }

  lemma SwungCloser(s: State, t: nat)
    requires t < |s.threads| && s.threads[t].pc.DeqSwing? && s.threads[t].rec >= 0 && s.head in s.heap
    requires var pc := s.threads[t].pc;
             s.head == pc.head.addr && HeadPos(s) == pc.head.pos && Front(s) == pc.item
    ensures Closer(s, StepDequeue(s, t), t)
  {
    var pc := s.threads[t].pc;
    var pc' := DeqRetire(Exit(pc.head, pc.succ.addr, pc.item), 0);
    var s' := Goto(s.(head := pc.succ.addr, heap := s.heap[s.head := s.heap[s.head].(keeper := t)]), t, pc');
    assert StepDequeue(s, t) == s' && ExitCost(s', t) == ExitCost(s, t);
  }

  lemma DeqReleaseAllCloser(s: State, t: nat)
    requires Inv(s) && t < |s.threads| && s.threads[t].pc.DeqReleaseAll?
    ensures if s.threads[t].pc.i + 1 < SLOTS then Closer(s, StepDequeue(s, t), t)
            else Last(s, StepDequeue(s, t), t, NO_ADDR)
  {
    assert ThreadOk(s, t);
    var pc := s.threads[t].pc;
    if pc.i + 1 < SLOTS { SlotCloser(s, t, pc.i, NO_ADDR, DeqReleaseAll(pc.i + 1)); }
  }

  lemma DeqReleaseNextCloser(s: State, t: nat)
    requires Inv(s) && t < |s.threads| && s.threads[t].pc.DeqReleaseNext?
    ensures if s.threads[t].pc.i + 1 < SLOTS then Closer(s, StepDequeue(s, t), t)
            else Last(s, StepDequeue(s, t), t, s.threads[t].pc.exit.item)
  {
    assert ThreadOk(s, t);
    ReleaseNextShape(s, t);
  }

  lemma DeqRetireCloser(s: State, t: nat)
    requires Inv(s) && t < |s.threads| && s.threads[t].pc.DeqRetire?
    ensures Closer(s, StepDequeue(s, t), t)
  {
    assert ThreadOk(s, t);
    var pc := s.threads[t].pc;
    if pc.i != 0 {
      RetireNothingShape(s, t);
    } else {
      var rc := RetiredInto(RecordOf(s, t), pc.exit.head);
      RetireShape(s, t, rc);
      RetiredCloser(s, t, rc);
    }
  }

  lemma RetiredCloser(s: State, t: nat, rc: Record)
    requires t < |s.threads| && s.threads[t].pc.DeqRetire? && s.threads[t].pc.i == 0 && HasRecord(s, t)
    requires rc == RetiredInto(RecordOf(s, t), s.threads[t].pc.exit.head)
    ensures Closer(s, Goto(SetRecord(s, t, rc), t, AfterRetire(s.threads[t].pc.exit, rc)), t)
  {
    var s' := Goto(SetRecord(s, t, rc), t, AfterRetire(s.threads[t].pc.exit, rc));
    assert |s'.recs| == |s.recs| && |Retired(s', t)| == |Retired(s, t)| + 1;
  }

  // ---------------------------------------------------------------- scanning and registering

  lemma ScanBeginCloser(s: State, t: nat)
    requires Inv(s) && t < |s.threads| && s.threads[t].pc.ScanBegin?
    ensures Closer(s, StepScan(s, t), t)
  {
    assert Retired(StepScan(s, t), t) == Retired(s, t);
  }

  lemma ScanTestCloser(s: State, t: nat)
    requires Inv(s) && t < |s.threads| && s.threads[t].pc.ScanTest? && s.threads[t].pc.r > 0
    ensures Closer(s, StepScan(s, t), t)
  {
    assert ThreadOk(s, t);
    var pc := s.threads[t].pc;
    if SlotAt(s, pc.r, pc.k) == NO_ADDR {
      OnCloser(s, t, pc.priv);
    } else {
      assert Retired(StepScan(s, t), t) == Retired(s, t);
    }
  }

  lemma ScanTakeCloser(s: State, t: nat)
    requires Inv(s) && t < |s.threads| && s.threads[t].pc.ScanTake?
    ensures Closer(s, StepScan(s, t), t)
  {
    assert ThreadOk(s, t);
    var pc, a := s.threads[t].pc, SlotAt(s, s.threads[t].pc.r, s.threads[t].pc.k);
    OnCloser(s, t, if a == NO_ADDR then pc.priv else pc.priv + [a]);
  }

  lemma OnCloser(s: State, t: nat, priv: seq<Addr>)
    requires t < |s.threads| && (s.threads[t].pc.ScanTest? || s.threads[t].pc.ScanTake?)
    requires s.threads[t].pc.r > 0 && s.threads[t].pc.k < SLOTS
    ensures var pc := s.threads[t].pc; Closer(s, Goto(s, t, ScanOn(pc.exit, pc.i, pc.start, pc.r, pc.k, priv)), t)
  {
    var pc := s.threads[t].pc;
    assert Retired(Goto(s, t, ScanOn(pc.exit, pc.i, pc.start, pc.r, pc.k, priv)), t) == Retired(s, t);
  }

  lemma ScanEndCloser(s: State, t: nat)
    requires Inv(s) && t < |s.threads| && s.threads[t].pc.ScanTest? && s.threads[t].pc.r == 0
    ensures Closer(s, StepScan(s, t), t)
  {
    assert ThreadOk(s, t);
  }

  lemma ScanFreeCloser(s: State, t: nat)
    requires Inv(s) && t < |s.threads| && s.threads[t].pc.ScanFree?
    ensures Closer(s, StepScan(s, t), t)
  {
    assert ThreadOk(s, t);
    var todo := s.threads[t].pc.todo;
    if todo != [] {
      assert todo[0] in Owned(s, t);
      assert Disposable(s, t, todo[0]);
    }
    ScanFreeGoes(s, t);
  }

  lemma ScanFreeGoes(s: State, t: nat)
    requires t < |s.threads| && s.threads[t].pc.ScanFree? && HasRecord(s, t)
    requires s.threads[t].pc.todo != [] ==> Live(s, s.threads[t].pc.todo[0])
    ensures Closer(s, StepScan(s, t), t)
  {
  }

  lemma HelpScanCloser(s: State, t: nat)
    requires Inv(s) && t < |s.threads| && s.threads[t].pc.HelpScan?
    ensures Closer(s, StepScan(s, t), t)
  {
    assert ThreadOk(s, t);
    HelpScanGoes(s, t);
  }

  lemma HelpScanGoes(s: State, t: nat)
    requires t < |s.threads| && s.threads[t].pc.HelpScan? && s.threads[t].pc.r <= |s.recs| && s.threads[t].pc.i == 0
    requires RecordsOk(s) && s.threads[t].rec >= 0
    ensures Closer(s, StepScan(s, t), t)
  {
  }

  /** What is left of the call that a registration interrupts stays the same. */
  lemma RegKeepsLeft(s: State, s': State, t: nat, resume: PC)
    requires t < |s.threads| && |s'.threads| == |s.threads| && s.threads[t].rec == -1
    requires s'.heap == s.heap && s'.head == s.head && s'.tail == s.tail && s'.chain == s.chain
    requires || (s'.threads[t].rec == -1 && |s'.recs| == |s.recs|)
             || (s'.threads[t].rec == |s.recs| && |s'.recs| == |s.recs| + 1 && s'.recs[|s.recs|].retired == [])
    ensures CallLeft(s', t, resume) == CallLeft(s, t, resume) && Answer(s', resume) == Answer(s, resume)
  {
    assert ExitCost(s', t) == ExitCost(s, t);
    SameLeft(s, s', t, resume);
  }

  lemma CallLeftPositive(s: State, t: nat, pc: PC)
    requires t < |s.threads| && 0 <= Lag(s) && (pc.EnqProtect? || pc.DeqProtect?)
    ensures CallLeft(s, t, pc) > 0
  {
  }

  lemma RegCloser(s: State, t: nat)
    requires Inv(s) && t < |s.threads|
    requires var pc := s.threads[t].pc; pc.RegWalk? || pc.RegRead? || pc.RegLink?
    ensures Closer(s, StepScan(s, t), t)
  {
    LagIs(s);
    assert ThreadOk(s, t);
    CallLeftPositive(s, t, s.threads[t].pc.resume);
    if s.threads[t].pc.RegLink? && s.threads[t].pc.top == |s.recs| {
      RegLinkCloser(s, t);
    } else {
      RegWalkCloser(s, t);
    }
  }

  lemma RegLinkCloser(s: State, t: nat)
    requires t < |s.threads| && s.threads[t].rec == -1 && s.threads[t].pc.RegLink? && s.threads[t].pc.top == |s.recs|
    requires var resume := s.threads[t].pc.resume;
             (resume.EnqProtect? || resume.DeqProtect?) && CallLeft(s, t, resume) > 0
    ensures Closer(s, StepScan(s, t), t)
  {
    RegKeepsLeft(s, StepScan(s, t), t, s.threads[t].pc.resume);
  }

  lemma RegWalkCloser(s: State, t: nat)
    requires t < |s.threads| && s.threads[t].rec == -1 && RecordsOk(s)
    requires var pc := s.threads[t].pc;
             (pc.RegWalk? && pc.r <= |s.recs|) || pc.RegRead? || (pc.RegLink? && pc.top != |s.recs|)
    requires var resume := s.threads[t].pc.resume;
             (resume.EnqProtect? || resume.DeqProtect?) && CallLeft(s, t, resume) > 0
    ensures Closer(s, StepScan(s, t), t)
  {
    RegKeepsLeft(s, StepScan(s, t), t, s.threads[t].pc.resume);
  }

  // ---------------------------------------------------------------- one move

  lemma EnqueueCloser(s: State, t: nat)
    requires Inv(s) && t < |s.threads| && InEnqueue(s.threads[t].pc)
    ensures var pc := s.threads[t].pc;
            if pc.EnqRelease? && pc.i + 1 >= SLOTS then Last(s, StepEnqueue(s, t), t, TRUE)
            else Closer(s, StepEnqueue(s, t), t)
  {
    match s.threads[t].pc
    case EnqReadTail(_) => EnqReadTailCloser(s, t);
    case EnqProtect(_, _) => EnqProtectCloser(s, t);
    case EnqValidate(_, _) => EnqValidateCloser(s, t);
    case EnqReadNext(_, _) => EnqReadNextCloser(s, t);
    case EnqRevalidate(_, _, _) => EnqRevalidateCloser(s, t);
    case EnqHelp(_, _, _) => EnqHelpCloser(s, t);
    case EnqLink(_, _) => EnqLinkCloser(s, t);
    case EnqSwing(_, _) => EnqSwingCloser(s, t);
    case EnqRelease(_, _) => EnqReleaseCloser(s, t);
  }

  predicate Returns(pc: PC) { (pc.DeqReleaseAll? || pc.DeqReleaseNext?) && pc.i + 1 >= SLOTS }

  lemma DequeueCloser(s: State, t: nat)
    requires Inv(s) && t < |s.threads| && InDequeue(s.threads[t].pc)
    ensures var pc := s.threads[t].pc;
            if Returns(pc) then Last(s, StepDequeue(s, t), t, if pc.DeqReleaseAll? then NO_ADDR else pc.exit.item)
            else Closer(s, StepDequeue(s, t), t)
  {
    match s.threads[t].pc
    case DeqReadHead => DeqReadHeadCloser(s, t);
    case DeqProtect(_) => DeqProtectCloser(s, t);
    case DeqValidate(_) => DeqValidateCloser(s, t);
    case DeqReadTail(_) => DeqReadTailCloser(s, t);
    case DeqReadNext(_, _) => DeqReadNextCloser(s, t);
    case DeqProtectNext(_, _, _) => DeqProtectNextCloser(s, t);
    case DeqRevalidate(_, _, _) => DeqRevalidateCloser(s, t);
    case DeqReleaseAll(_) => DeqReleaseAllCloser(s, t);
    case DeqHelp(_, _, _) => DeqHelpCloser(s, t);
    case DeqReadItem(_, _) => DeqReadItemCloser(s, t);
    case DeqSwing(_, _, _) => DeqSwingCloser(s, t);
    case DeqRetire(_, _) => DeqRetireCloser(s, t);
    case DeqReleaseNext(_, _) => DeqReleaseNextCloser(s, t);
  }

  lemma ScanCloser(s: State, t: nat)
    requires Inv(s) && t < |s.threads|
    requires var pc := s.threads[t].pc; !pc.Idle? && !InEnqueue(pc) && !InDequeue(pc)
    ensures Closer(s, StepScan(s, t), t)
  {
    match s.threads[t].pc
    case ScanBegin(_, _) => ScanBeginCloser(s, t);
    case ScanTest(_, _, _, r, _, _) => if r == 0 { ScanEndCloser(s, t); } else { ScanTestCloser(s, t); }
    case ScanTake(_, _, _, _, _, _) => ScanTakeCloser(s, t);
    case ScanFree(_, _, _, _, _) => ScanFreeCloser(s, t);
    case HelpScan(_, _, _) => HelpScanCloser(s, t);
    case RegWalk(_, _) => RegCloser(s, t);
    case RegRead(_) => RegCloser(s, t);
    case RegLink(_, _) => RegCloser(s, t);
  }

  /** A move of thread t shows its return exactly if it is the last of its call, and is progress otherwise. */
  predicate Progress(s: State, t: nat)
    requires t < |s.threads|
  {
    var s', l, answer := Next(s, Move(t, Go)), Label(s, Move(t, Go)), Answer(s, Base(s.threads[t].pc));
    (Closer(s, s', t) && l == []) || (Last(s, s', t, answer) && l == [Respond(t, answer)])
  }

  lemma Progresses(s: State, t: nat)
    requires Inv(s) && t < |s.threads| && !s.threads[t].pc.Idle?
    ensures Progress(s, t)
  {
    var pc := s.threads[t].pc;
    if InEnqueue(pc) {
      EnqueueCloser(s, t);
    } else if InDequeue(pc) {
      DequeueCloser(s, t);
    } else {
      ScanCloser(s, t);
    }
  }

  // ---------------------------------------------------------------- alone

  /** k moves of thread t. */
  function Solo(t: nat, k: nat): seq<Move> { seq(k, _ => Move(t, Go)) }

  /** One more move at the end of a run. */
  lemma OneMore(s: State, ms: seq<Move>, m: Move)
    ensures Exec(s, ms + [m]) == Next(Exec(s, ms), m)
    ensures History(s, ms + [m]) == History(s, ms) + Label(Exec(s, ms), m)
  {
    assert (ms + [m])[..|ms|] == ms;
  }

  /** After a run and j moves of t alone: still on its way to the same answer. */
  ghost predicate OnItsWay(s0: State, ms: seq<Move>, t: nat, j: nat) {
    var s, s' := Exec(s0, ms), Exec(s0, ms + Solo(t, j));
    && Inv(s') && t < |s.threads| && t < |s'.threads| && !s'.threads[t].pc.Idle?
    && History(s0, ms + Solo(t, j)) == History(s0, ms)
    && 0 < Left(s', t) <= Left(s, t) - j
    && Answer(s', Base(s'.threads[t].pc)) == Answer(s, Base(s.threads[t].pc))
  }

  /** After a run and k moves of t alone: t has just returned that answer. */
  ghost predicate Returned(s0: State, ms: seq<Move>, t: nat, k: nat) {
    var s, s' := Exec(s0, ms), Exec(s0, ms + Solo(t, k));
    && t < |s.threads| && 0 < k <= Left(s, t) && t < |s'.threads| && s'.threads[t].pc.Idle?
    && History(s0, ms + Solo(t, k)) == History(s0, ms) + [Respond(t, Answer(s, Base(s.threads[t].pc)))]
  }

  lemma SoloOneMore(ms: seq<Move>, t: nat, j: nat)
    ensures ms + Solo(t, j + 1) == (ms + Solo(t, j)) + [Move(t, Go)]
  {
  }

  lemma OneStepOn(s0: State, ms: seq<Move>, t: nat, j: nat) returns (going: bool)
    requires OnItsWay(s0, ms, t, j)
    ensures if going then OnItsWay(s0, ms, t, j + 1) else Returned(s0, ms, t, j + 1)
  {
    var run, m := ms + Solo(t, j), Move(t, Go);
    var s' := Exec(s0, run);
    SoloOneMore(ms, t, j);
    OneMore(s0, run, m);
    Progresses(s', t);
    MoveKeeps(s', m);
    going := !Next(s', m).threads[t].pc.Idle?;
  }

  lemma {:induction false} SoloAfter(s0: State, ms: seq<Move>, t: nat, j: nat) returns (going: bool, k: nat)
    requires OnItsWay(s0, ms, t, 0)
    ensures if going then OnItsWay(s0, ms, t, j) else k <= j && Returned(s0, ms, t, k)
    decreases j
  {
    if j == 0 {
      going, k := true, 0;
    } else {
      going, k := SoloAfter(s0, ms, t, j - 1);
      if going {
        going := OneStepOn(s0, ms, t, j - 1);
        k := j;
      }
    }
  }

  lemma OnItsWayLeft(s0: State, ms: seq<Move>, t: nat, j: nat)
    requires OnItsWay(s0, ms, t, j)
    ensures t < |Exec(s0, ms).threads| && j < Left(Exec(s0, ms), t)
  {
  }

  lemma SetsOut(s0: State, ms: seq<Move>, t: nat)
    requires Inv(Exec(s0, ms)) && t < |Exec(s0, ms).threads| && !Exec(s0, ms).threads[t].pc.Idle?
    ensures OnItsWay(s0, ms, t, 0)
  {
    assert ms + Solo(t, 0) == ms;
    Progresses(Exec(s0, ms), t);
  }

  lemma {:induction false} SoloReturns(s0: State, ms: seq<Move>, t: nat) returns (k: nat)
    requires Inv(Exec(s0, ms)) && t < |Exec(s0, ms).threads| && !Exec(s0, ms).threads[t].pc.Idle?
    ensures Returned(s0, ms, t, k)
  {
    SetsOut(s0, ms, t);
    OnItsWayLeft(s0, ms, t, 0);
    var bound: nat := Left(Exec(s0, ms), t);
    var going;
    going, k := SoloAfter(s0, ms, t, bound);
    if going { OnItsWayLeft(s0, ms, t, bound); }
  }

  lemma CallBounded(s: State, t: nat, pc: PC)
    requires t < |s.threads| && 0 <= Lag(s) <= 1 && (s.threads[t].rec >= 0 ==> |Retired(s, t)| <= 4 * |s.recs| + 1)
    ensures CallLeft(s, t, pc) <= 13 * |s.recs| + 50
  {
    assert ExitCost(s, t) <= 13 * |s.recs| + 23;
  }

  lemma ScanBounded(s: State, t: nat, pc: PC)
    requires t < |s.threads| && |Retired(s, t)| <= 4 * |s.recs| + 1
    requires pc.ScanBegin? || pc.ScanTest? || pc.ScanTake? || pc.ScanFree? || pc.HelpScan?
    requires pc.ScanTest? || pc.ScanTake? ==> pc.r <= |s.recs|
    requires pc.ScanFree? ==> |pc.todo| <= 4 * |s.recs| + 1
    requires pc.HelpScan? ==> pc.r <= |s.recs|
    ensures ScanLeft(s, t, pc) <= 14 * |s.recs| + 60
  {
  }

  /** What is left is bounded by the size of the table of hazard records. */
  lemma LeftBounded(s: State, t: nat)
    requires Inv(s) && t < |s.threads|
    ensures Left(s, t) <= 14 * |s.recs| + 60
  {
    LagIs(s);
    assert ThreadOk(s, t);
    var pc := s.threads[t].pc;
    if Exits(pc) && !InDequeue(pc) {
      ScanBounded(s, t, pc);
    } else {
      CallBounded(s, t, Base(pc));
    }
  }

  /**
   From every reachable state a call that is left alone returns within a number of its own moves
   that is bounded by the size of the hazard table: true from an enqueue, and from a dequeue
   what it has already taken, or else the front of the queue, or null if the queue is empty or
   was when it found its head without a next.
   */
  lemma {:induction false} ReturnsAlone(n: nat, dummy: Addr, ms: seq<Move>, t: nat) returns (k: nat)
    requires dummy != NO_ADDR
    requires var s := Exec(Init(n, dummy), ms); t < |s.threads| && !s.threads[t].pc.Idle?
    ensures var s0, s := Init(n, dummy), Exec(Init(n, dummy), ms);
            && 0 < k <= 14 * |s.recs| + 60
            && History(s0, ms + Solo(t, k)) == History(s0, ms) + [Respond(t, Answer(s, Base(s.threads[t].pc)))]
  {
    RunOk(n, dummy, ms);
    LeftBounded(Exec(Init(n, dummy), ms), t);
    k := SoloReturns(Init(n, dummy), ms, t);
  }

  /**
   In particular a dequeue that is called now and left alone returns the first item of the queue,
   and null if it is empty.
   */
  lemma {:induction false} DequeueAlone(n: nat, dummy: Addr, ms: seq<Move>, t: nat) returns (k: nat)
    requires dummy != NO_ADDR
    requires var s := Exec(Init(n, dummy), ms); t < |s.threads| && s.threads[t].pc.Idle?
    ensures var s0, s := Init(n, dummy), Exec(Init(n, dummy), ms);
            History(s0, ms + [Move(t, CallDequeue)] + Solo(t, k)) ==
            History(s0, ms) + [Invoke(t, Dequeue)] + [Respond(t, Front(s))]
  {
    var s0, s, m := Init(n, dummy), Exec(Init(n, dummy), ms), Move(t, CallDequeue);
    RunOk(n, dummy, ms);
    RunOk(n, dummy, ms + [m]);
    OneMore(s0, ms, m);
    CallShape(s, t);
    k := SoloReturns(s0, ms + [m], t);
  }

  lemma CallShape(s: State, t: nat)
    requires t < |s.threads| && s.threads[t].pc.Idle? && s.fault == NoFault
    ensures var s', m := Next(s, Move(t, CallDequeue)), Move(t, CallDequeue);
            && Label(s, m) == [Invoke(t, Dequeue)] && |s'.threads| == |s.threads|
            && s'.threads[t].pc == DeqReadHead && Answer(s', DeqReadHead) == Front(s)
  {
  }
}
