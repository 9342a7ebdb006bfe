/**
 The queue is lock-free: whenever a thread has to begin its loop again, somebody's
 compare-and-swap has succeeded since it began the turn before.
 */
module QueueLockFree {
  import opened Counting
  import opened QueueModel
  import opened QueueInvariant
  import opened QueueStability
  import opened QueueSteps
  import opened QueueUpdates
  import opened QueueSafety

  /** Grows by one with every successful swap of tail->next, queue->tail and queue->head. */
  function Work(s: State): int { |s.chain| + HeadPos(s) + TailPos(s) }

  /** At the top of its loop. */
  predicate AtTop(pc: PC) { pc.EnqReadTail? || pc.DeqReadHead? }

  /** Inside a turn of its loop, or past it. */
  predicate InTurn(pc: PC) { !pc.Idle? && !AtTop(pc) }

  /** The address was queue->tail (or head) at some moment between s1 and s. */
  ghost predicate Was(s: State, low: int, high: int, a: Addr) {
    exists q :: low <= q <= high && 0 <= q < |s.chain| && s.chain[q].addr == a
  }

  /** What a thread in a turn that began in s1 has read since then. */
  ghost predicate TurnOk(s1: State, s: State, pc: PC) {
    match pc
    case EnqProtect(_, seen) => Was(s, TailPos(s1), TailPos(s), seen)
    case EnqValidate(_, seen) => Was(s, TailPos(s1), TailPos(s), seen)
    case EnqReadNext(_, tail) => TailPos(s1) <= tail.pos
    case EnqRevalidate(_, tail, next) => TailPos(s1) <= tail.pos && (next == NO_ADDR ==> |s1.chain| <= tail.pos + 1)
    case EnqHelp(_, tail, _) => TailPos(s1) <= tail.pos
    case EnqLink(_, tail) => |s1.chain| <= tail.pos + 1
    case DeqProtect(seen) => Was(s, HeadPos(s1), HeadPos(s), seen)
    case DeqValidate(seen) => Was(s, HeadPos(s1), HeadPos(s), seen)
    case DeqReadTail(head) => HeadPos(s1) <= head.pos
    case DeqReadNext(head, tail) => HeadPos(s1) <= head.pos && TailPos(s1) <= tail.pos
    case DeqProtectNext(head, tail, _) => HeadPos(s1) <= head.pos && TailPos(s1) <= tail.pos
    case DeqRevalidate(head, tail, _) => HeadPos(s1) <= head.pos && TailPos(s1) <= tail.pos
    case DeqHelp(_, tail, _) => TailPos(s1) <= tail.pos
    case DeqReadItem(head, _) => HeadPos(s1) <= head.pos
    case DeqSwing(head, _, _) => HeadPos(s1) <= head.pos
    case _ => true
  }

  /** A turn of thread t that began in s1 goes on in s. */
  ghost predicate Turn(s1: State, s: State, t: nat) {
    && t < |s.threads| && Advances(s1, s) && InTurn(s.threads[t].pc) && TurnOk(s1, s, Base(s.threads[t].pc))
  }

  lemma WorkGrows(s1: State, s: State)
    requires Advances(s1, s)
    ensures Work(s1) <= Work(s)
  {
  }

  lemma AdvancesOn(s1: State, s: State, s': State)
    requires Advances(s1, s) && Advances(s, s')
    ensures Advances(s1, s')
  {
  }

  lemma WasStays(s: State, s': State, low: int, high: int, high': int, a: Addr)
    requires Was(s, low, high, a) && Advances(s, s') && high <= high'
    ensures Was(s', low, high', a)
  {
    var q :| low <= q <= high && 0 <= q < |s.chain| && s.chain[q].addr == a;
    assert s'.chain[q].addr == a;
  }

  /** What was read stays read. */
  lemma TurnStays(s1: State, s: State, s': State, pc: PC)
    requires TurnOk(s1, s, pc) && Advances(s, s')
    ensures TurnOk(s1, s', pc)
  {
    if pc.EnqProtect? || pc.EnqValidate? {
      WasStays(s, s', TailPos(s1), TailPos(s), TailPos(s'), pc.seen);
    } else if pc.DeqProtect? || pc.DeqValidate? {
      WasStays(s, s', HeadPos(s1), HeadPos(s), HeadPos(s'), pc.seen);
    }
  }

  /** After a move of t in its turn: the turn goes on, is over, or begins again with work done. */
  ghost predicate TurnsOn(s1: State, s': State, t: nat) {
    && t < |s'.threads|
    && (InTurn(s'.threads[t].pc) ==> TurnOk(s1, s', Base(s'.threads[t].pc)))
    && (AtTop(s'.threads[t].pc) ==> Work(s1) < Work(s'))
  }

  /** Moves that only change the thread's place. */
  lemma GotoTurns(s1: State, s: State, t: nat, pc': PC)
    requires t < |s.threads|
    requires InTurn(pc') ==> TurnOk(s1, s, Base(pc'))
    requires AtTop(pc') ==> Work(s1) < Work(s)
    ensures TurnsOn(s1, Goto(s, t, pc'), t)
  {
    var s' := Goto(s, t, pc');
    assert Work(s') == Work(s);
    if InTurn(pc') { TurnStays(s1, s, s', Base(pc')); }
  }

  // ---------------------------------------------------------------- beginning a turn

  lemma BeginsTurn(s: State, t: nat)
    requires Inv(s) && t < |s.threads| && AtTop(s.threads[t].pc)
    ensures var s' := Next(s, Move(t, Go)); Turn(s, s', t)
  {
    MoveKeeps(s, Move(t, Go));
    assert NodeOk(s, s.tail) && NodeOk(s, s.head);
    BeginsShape(s, t);
    var s' := Next(s, Move(t, Go));
    if s.threads[t].pc.EnqReadTail? {
      assert s'.chain[TailPos(s)].addr == s.tail;
    } else {
      assert s'.chain[HeadPos(s)].addr == s.head;
    }
  }

  lemma BeginsShape(s: State, t: nat)
    requires t < |s.threads| && AtTop(s.threads[t].pc) && s.fault == NoFault
    ensures var pc := s.threads[t].pc;
            var pc' := if pc.EnqReadTail? then EnqProtect(pc.node, s.tail) else DeqProtect(s.head);
            Next(s, Move(t, Go)) == Goto(s, t, pc')
  {
  }

  // ---------------------------------------------------------------- enqueue

  lemma EnqProtectTurns(s1: State, s: State, t: nat)
    requires Inv(s) && Turn(s1, s, t) && s.threads[t].pc.EnqProtect?
    ensures TurnsOn(s1, StepEnqueue(s, t), t)
  {
    var s' := StepEnqueue(s, t);
    EnqProtectShape(s, t);
    TurnStays(s1, s, s', EnqProtect(s.threads[t].pc.node, s.threads[t].pc.seen));
  }

  lemma EnqProtectShape(s: State, t: nat)
    requires t < |s.threads| && s.threads[t].pc.EnqProtect?
    ensures var s', pc := StepEnqueue(s, t), s.threads[t].pc;
            && |s'.threads| == |s.threads| && s'.chain == s.chain && TailPos(s') == TailPos(s) && Advances(s, s')
            && (Base(s'.threads[t].pc) == pc || s'.threads[t].pc == EnqValidate(pc.node, pc.seen))
            && !AtTop(s'.threads[t].pc)
  {
  }

  lemma SeenBefore(s: State, low: int, high: int, seen: Addr, now: Addr)
    requires Was(s, low, high, seen) && 0 <= high < |s.chain| && s.chain[high].addr == now != seen
    ensures low < high
  {
  }

  lemma EnqValidateTurns(s1: State, s: State, t: nat)
    requires Inv(s) && Turn(s1, s, t) && s.threads[t].pc.EnqValidate?
    ensures TurnsOn(s1, StepEnqueue(s, t), t)
  {
    var pc := s.threads[t].pc;
    assert NodeOk(s, s.tail);
    if pc.seen != s.tail { SeenBefore(s, TailPos(s1), TailPos(s), pc.seen, s.tail); }
    GotoTurns(s1, s, t, if pc.seen != s.tail then EnqReadTail(pc.node)
                        else EnqReadNext(pc.node, Ref(pc.seen, TailPos(s))));
  }

  lemma EnqReadNextTurns(s1: State, s: State, t: nat)
    requires Inv(s) && Turn(s1, s, t) && s.threads[t].pc.EnqReadNext?
    ensures TurnsOn(s1, StepEnqueue(s, t), t)
  {
    Held(s, t, 0);
    EnqReadNextShape(s, t);
    NextIsNull(s, s.threads[t].pc.tail);
  }

  lemma EnqRevalidateTurns(s1: State, s: State, t: nat)
    requires Inv(s) && Turn(s1, s, t) && s.threads[t].pc.EnqRevalidate?
    ensures TurnsOn(s1, StepEnqueue(s, t), t)
  {
    Held(s, t, 0);
    assert ThreadOk(s, t);
    var pc := s.threads[t].pc;
    if pc.tail.addr != s.tail { TailBeyond(s, pc.tail); }
    GotoTurns(s1, s, t, if pc.tail.addr != s.tail then EnqReadTail(pc.node)
                        else if pc.next != NO_ADDR then EnqHelp(pc.node, pc.tail, pc.next)
                        else EnqLink(pc.node, pc.tail));
  }

  /** A swap of queue->tail that fails or succeeds leaves it beyond the node it was to replace. */
  lemma HelpPays(s1: State, s: State, t: nat, tail: Ref, next: Addr, pc': PC)
    requires MemoryOk(s) && t < |s.threads| && Advances(s1, s) && TailPos(s1) <= tail.pos <= TailPos(s) && Live(s, tail)
    requires NextFact(s, tail.pos, next) && next != NO_ADDR
    ensures Work(s1) < Work(CasTail(s, t, tail, next, pc'))
  {
    WorkGrows(s1, s);
    if s.tail == tail.addr {
      assert s.chain[tail.pos + 1].addr == next;
      assert TailPos(s.(tail := next)) == tail.pos + 1;
    } else {
      TailBeyond(s, tail);
    }
  }

  /** A held node that is not the tail any more is behind it. */
  lemma TailBeyond(s: State, tail: Ref)
    requires MemoryOk(s) && Live(s, tail) && tail.addr != s.tail && tail.pos <= TailPos(s)
    ensures tail.pos < TailPos(s)
  {
    assert NodeOk(s, s.tail) && NodeOk(s, tail.addr);
  }

  lemma EnqHelpTurns(s1: State, s: State, t: nat)
    requires Inv(s) && Turn(s1, s, t) && s.threads[t].pc.EnqHelp?
    ensures TurnsOn(s1, StepEnqueue(s, t), t)
  {
    Held(s, t, 0);
    assert ThreadOk(s, t);
    var pc := s.threads[t].pc;
    HelpPays(s1, s, t, pc.tail, pc.next, EnqReadTail(pc.node));
  }

  lemma EnqLinkTurns(s1: State, s: State, t: nat)
    requires Inv(s) && Turn(s1, s, t) && s.threads[t].pc.EnqLink?
    ensures TurnsOn(s1, StepEnqueue(s, t), t)
  {
    Held(s, t, 0);
    assert ThreadOk(s, t);
    var pc := s.threads[t].pc;
    NextIsNull(s, pc.tail);
    if s.heap[pc.tail.addr].next != NO_ADDR {
      assert |s.chain| > |s1.chain|;
      assert Work(StepEnqueue(s, t)) == Work(s);
    } else {
      LinkShape(s, t);
    }
  }

  // ---------------------------------------------------------------- dequeue

  lemma DeqProtectTurns(s1: State, s: State, t: nat)
    requires Inv(s) && Turn(s1, s, t) && s.threads[t].pc.DeqProtect?
    ensures TurnsOn(s1, StepDequeue(s, t), t)
  {
    var s' := StepDequeue(s, t);
    DeqProtectShape(s, t);
    TurnStays(s1, s, s', DeqProtect(s.threads[t].pc.seen));
  }

  lemma DeqProtectShape(s: State, t: nat)
    requires t < |s.threads| && s.threads[t].pc.DeqProtect?
    ensures var s', pc := StepDequeue(s, t), s.threads[t].pc;
            && |s'.threads| == |s.threads| && s'.chain == s.chain && HeadPos(s') == HeadPos(s) && Advances(s, s')
            && (Base(s'.threads[t].pc) == pc || s'.threads[t].pc == DeqValidate(pc.seen))
            && !AtTop(s'.threads[t].pc)
  {
  }

  lemma DeqValidateTurns(s1: State, s: State, t: nat)
    requires Inv(s) && Turn(s1, s, t) && s.threads[t].pc.DeqValidate?
    ensures TurnsOn(s1, StepDequeue(s, t), t)
  {
    var pc := s.threads[t].pc;
    assert NodeOk(s, s.head);
    if pc.seen != s.head { SeenBefore(s, HeadPos(s1), HeadPos(s), pc.seen, s.head); }
    GotoTurns(s1, s, t, if pc.seen != s.head then DeqReadHead else DeqReadTail(Ref(pc.seen, HeadPos(s))));
  }

  lemma DeqReadsTurn(s1: State, s: State, t: nat)
    requires Inv(s) && Turn(s1, s, t) && (s.threads[t].pc.DeqReadTail? || s.threads[t].pc.DeqReadItem?)
    ensures TurnsOn(s1, StepDequeue(s, t), t)
  {
    var pc := s.threads[t].pc;
    if pc.DeqReadItem? {
      Held(s, t, 1);
      GotoTurns(s1, s, t, DeqSwing(pc.head, pc.succ, s.heap[pc.succ.addr].item));
    } else {
      GotoTurns(s1, s, t, DeqReadNext(pc.head, Ref(s.tail, TailPos(s))));
    }
  }

  lemma DeqProtectNextTurns(s1: State, s: State, t: nat)
    requires Turn(s1, s, t) && s.threads[t].pc.DeqProtectNext?
    ensures TurnsOn(s1, StepDequeue(s, t), t)
  {
  }

  lemma DeqReadNextTurns(s1: State, s: State, t: nat)
    requires Inv(s) && Turn(s1, s, t) && s.threads[t].pc.DeqReadNext?
    ensures TurnsOn(s1, StepDequeue(s, t), t)
  {
    Held(s, t, 0);
    ReadNextShape(s, t);
  }

  /** A held node that is not the head any more is behind it. */
  lemma HeadBeyond(s: State, head: Ref)
    requires MemoryOk(s) && Live(s, head) && head.addr != s.head && head.pos <= HeadPos(s)
    ensures head.pos < HeadPos(s)
  {
    assert NodeOk(s, s.head) && NodeOk(s, head.addr);
  }

  lemma DeqRevalidateTurns(s1: State, s: State, t: nat)
    requires Inv(s) && Turn(s1, s, t) && s.threads[t].pc.DeqRevalidate?
    ensures TurnsOn(s1, StepDequeue(s, t), t)
  {
    Held(s, t, 0);
    assert ThreadOk(s, t);
    var pc := s.threads[t].pc;
    if pc.head.addr != s.head { HeadBeyond(s, pc.head); }
    GotoTurns(s1, s, t, if pc.head.addr != s.head then DeqReadHead
                        else if pc.next == NO_ADDR then DeqReleaseAll(0)
                        else if pc.head.addr == pc.tail.addr then DeqHelp(pc.head, pc.tail, pc.next)
                        else DeqReadItem(pc.head, Ref(pc.next, PosOf(s, pc.next))));
  }

  lemma DeqHelpTurns(s1: State, s: State, t: nat)
    requires Inv(s) && Turn(s1, s, t) && s.threads[t].pc.DeqHelp?
    ensures TurnsOn(s1, StepDequeue(s, t), t)
  {
    Held(s, t, 0);
    assert ThreadOk(s, t);
    var pc := s.threads[t].pc;
    HelpPays(s1, s, t, pc.tail, pc.next, DeqReadHead);
  }

  lemma DeqSwingTurns(s1: State, s: State, t: nat)
    requires Inv(s) && Turn(s1, s, t) && s.threads[t].pc.DeqSwing?
    ensures TurnsOn(s1, StepDequeue(s, t), t)
  {
    Held(s, t, 0);
    assert ThreadOk(s, t);
    var pc := s.threads[t].pc;
    if pc.head.addr != s.head {
      HeadBeyond(s, pc.head);
      assert Work(StepDequeue(s, t)) == Work(s);
    }
  }

  // ---------------------------------------------------------------- the rest of a call

  /** Past the loop nothing leads back to its top. */
  predicate PastLoop(pc: PC) {
    || pc.EnqSwing? || pc.EnqRelease? || pc.DeqReleaseAll? || pc.DeqRetire? || pc.DeqReleaseNext?
    || pc.ScanBegin? || pc.ScanTest? || pc.ScanTake? || pc.ScanFree? || pc.HelpScan?
  }

  lemma EnqueueEnds(s: State, t: nat)
    requires t < |s.threads| && (s.threads[t].pc.EnqSwing? || s.threads[t].pc.EnqRelease?)
    ensures var s' := StepEnqueue(s, t);
            |s'.threads| == |s.threads| && (s'.threads[t].pc.Idle? || PastLoop(s'.threads[t].pc))
  {
  }

  lemma DequeueEnds(s: State, t: nat)
    requires t < |s.threads|
    requires s.threads[t].pc.DeqReleaseAll? || s.threads[t].pc.DeqRetire? || s.threads[t].pc.DeqReleaseNext?
    ensures var s' := StepDequeue(s, t);
            |s'.threads| == |s.threads| && (s'.threads[t].pc.Idle? || PastLoop(s'.threads[t].pc))
  {
  }

  lemma ScanEnds(s: State, t: nat)
    requires t < |s.threads|
    requires var pc := s.threads[t].pc; PastLoop(pc) && !InEnqueue(pc) && !InDequeue(pc)
    ensures var s' := StepScan(s, t);
            |s'.threads| == |s.threads| && (s'.threads[t].pc.Idle? || PastLoop(s'.threads[t].pc))
  {
  }

  lemma RegTurns(s1: State, s: State, t: nat)
    requires Inv(s) && Turn(s1, s, t)
    requires var pc := s.threads[t].pc; pc.RegWalk? || pc.RegRead? || pc.RegLink?
    ensures TurnsOn(s1, StepScan(s, t), t)
  {
    assert ThreadOk(s, t);
    var s' := StepScan(s, t);
    RegShape(s, t);
    TurnStays(s1, s, s', Base(s.threads[t].pc));
  }

  lemma RegShape(s: State, t: nat)
    requires t < |s.threads| && RecordOk(s, t)
    requires var pc := s.threads[t].pc; pc.RegWalk? || pc.RegRead? || pc.RegLink?
    ensures var s' := StepScan(s, t);
            && |s'.threads| == |s.threads| && Base(s'.threads[t].pc) == Base(s.threads[t].pc)
            && !AtTop(s'.threads[t].pc) && Advances(s, s')
  {
  }

  // ---------------------------------------------------------------- one move

  lemma EnqueueTurns(s1: State, s: State, t: nat)
    requires Inv(s) && Turn(s1, s, t) && InEnqueue(s.threads[t].pc)
    ensures TurnsOn(s1, StepEnqueue(s, t), t)
  {
    match s.threads[t].pc
    case EnqProtect(_, _) => EnqProtectTurns(s1, s, t);
    case EnqValidate(_, _) => EnqValidateTurns(s1, s, t);
    case EnqReadNext(_, _) => EnqReadNextTurns(s1, s, t);
    case EnqRevalidate(_, _, _) => EnqRevalidateTurns(s1, s, t);
    case EnqHelp(_, _, _) => EnqHelpTurns(s1, s, t);
    case EnqLink(_, _) => EnqLinkTurns(s1, s, t);
    case EnqSwing(_, _) => EnqueueEnds(s, t);
    case EnqRelease(_, _) => EnqueueEnds(s, t);
  }

  lemma DequeueTurns(s1: State, s: State, t: nat)
    requires Inv(s) && Turn(s1, s, t) && InDequeue(s.threads[t].pc)
    ensures TurnsOn(s1, StepDequeue(s, t), t)
  {
    match s.threads[t].pc
    case DeqProtect(_) => DeqProtectTurns(s1, s, t);
    case DeqValidate(_) => DeqValidateTurns(s1, s, t);
    case DeqReadTail(_) => DeqReadsTurn(s1, s, t);
    case DeqReadNext(_, _) => DeqReadNextTurns(s1, s, t);
    case DeqProtectNext(_, _, _) => DeqProtectNextTurns(s1, s, t);
    case DeqRevalidate(_, _, _) => DeqRevalidateTurns(s1, s, t);
    case DeqHelp(_, _, _) => DeqHelpTurns(s1, s, t);
    case DeqReadItem(_, _) => DeqReadsTurn(s1, s, t);
    case DeqSwing(_, _, _) => DeqSwingTurns(s1, s, t);
    case DeqReleaseAll(_) => DequeueEnds(s, t);
    case DeqRetire(_, _) => DequeueEnds(s, t);
    case DeqReleaseNext(_, _) => DequeueEnds(s, t);
  }

  lemma ScanTurns(s1: State, s: State, t: nat)
    requires Inv(s) && Turn(s1, s, t) && !InEnqueue(s.threads[t].pc) && !InDequeue(s.threads[t].pc)
    ensures TurnsOn(s1, StepScan(s, t), t)
  {
    var pc := s.threads[t].pc;
    if pc.RegWalk? || pc.RegRead? || pc.RegLink? { RegTurns(s1, s, t); } else { ScanEnds(s, t); }
  }

  lemma MoverTurns(s1: State, s: State, t: nat)
    requires Inv(s) && Turn(s1, s, t)
    ensures TurnsOn(s1, Next(s, Move(t, Go)), t)
  {
    if InEnqueue(s.threads[t].pc) {
      EnqueueTurns(s1, s, t);
    } else if InDequeue(s.threads[t].pc) {
      DequeueTurns(s1, s, t);
    } else {
      ScanTurns(s1, s, t);
    }
  }

  predicate Same(s: State, s': State, t: nat)
    requires t < |s.threads|
  {
    t < |s'.threads| && s'.threads[t] == s.threads[t]
  }

  lemma EnqueueLeaves(s: State, u: nat, t: nat)
    requires t < |s.threads| && u < |s.threads| && u != t
    ensures Same(s, StepEnqueue(s, u), t)
  {
  }

  lemma DequeueLeaves(s: State, u: nat, t: nat)
    requires t < |s.threads| && u < |s.threads| && u != t
    ensures Same(s, StepDequeue(s, u), t)
  {
  }

  lemma ScanLeaves(s: State, u: nat, t: nat)
    requires t < |s.threads| && u < |s.threads| && u != t
    ensures Same(s, StepScan(s, u), t)
  {
  }

  /** A thread that does not move stays where it is. */
  lemma OthersStay(s: State, m: Move, t: nat)
    requires t < |s.threads| && m.thread != t
    ensures Same(s, Next(s, m), t)
  {
    if m.thread < |s.threads| {
      EnqueueLeaves(s, m.thread, t);
      DequeueLeaves(s, m.thread, t);
      ScanLeaves(s, m.thread, t);
    }
  }

  /** In a call, a move does not depend on what the outside world offers. */
  lemma ChoiceIgnored(s: State, m: Move)
    requires m.thread < |s.threads| && !s.threads[m.thread].pc.Idle?
    ensures Next(s, m) == Next(s, Move(m.thread, Go))
  {
  }

  // ---------------------------------------------------------------- every run

  /** The move sends thread t back to the top of its loop. */
  predicate Retries(s: State, m: Move, t: nat) {
    && m.thread == t < |s.threads| && InTurn(s.threads[t].pc)
    && t < |Next(s, m).threads| && AtTop(Next(s, m).threads[t].pc)
  }

  /** How often thread t begins its loop again in a run. */
  function RetriesOf(s: State, ms: seq<Move>, t: nat): nat {
    if ms == [] then 0
    else RetriesOf(s, ms[..|ms| - 1], t) + One(Retries(Exec(s, ms[..|ms| - 1]), ms[|ms| - 1], t))
  }

  /** Where thread t's account stands: paid up to now, or up to the beginning of the turn it is in. */
  ghost predicate Paid(s0: State, s: State, t: nat, retries: nat, s1: State) {
    && t < |s.threads|
    && (if InTurn(s.threads[t].pc) then Turn(s1, s, t) && retries <= Work(s1) - Work(s0)
        else retries <= Work(s) - Work(s0))
  }

  lemma PaidStep(s0: State, s: State, m: Move, t: nat, retries: nat, s1: State) returns (s1': State)
    requires Inv(s) && Paid(s0, s, t, retries, s1)
    ensures Paid(s0, Next(s, m), t, retries + One(Retries(s, m, t)), s1')
  {
    var s', pc := Next(s, m), s.threads[t].pc;
    MoveKeeps(s, m);
    WorkGrows(s, s');
    s1' := s1;
    if m.thread != t {
      OthersStay(s, m, t);
      if InTurn(pc) {
        TurnStays(s1, s, s', Base(pc));
        AdvancesOn(s1, s, s');
      }
    } else if InTurn(pc) {
      ChoiceIgnored(s, m);
      MoverTurns(s1, s, t);
      AdvancesOn(s1, s, s');
      WorkGrows(s1, s');
    } else if AtTop(pc) {
      ChoiceIgnored(s, m);
      BeginsTurn(s, t);
      s1' := s;
    } else {
      CallsTop(s, m);
    }
  }

  lemma CallsTop(s: State, m: Move)
    requires m.thread < |s.threads| && s.threads[m.thread].pc.Idle?
    ensures var s' := Next(s, m);
            |s'.threads| == |s.threads| && (s'.threads[m.thread].pc.Idle? || AtTop(s'.threads[m.thread].pc))
  {
  }

  lemma {:induction false} RunPaid(n: nat, dummy: Addr, ms: seq<Move>, t: nat) returns (s1: State)
    requires dummy != NO_ADDR && t < n
    ensures var s0 := Init(n, dummy); Paid(s0, Exec(s0, ms), t, RetriesOf(s0, ms, t), s1)
    decreases |ms|
  {
    var s0 := Init(n, dummy);
    if ms == [] {
      s1 := s0;
    } else {
      var rest := ms[..|ms| - 1];
      s1 := RunPaid(n, dummy, rest, t);
      RunOk(n, dummy, rest);
      s1 := PaidStep(s0, Exec(s0, rest), ms[|ms| - 1], t, RetriesOf(s0, rest, t), s1);
    }
  }

  /**
   In every run no thread has begun its loop again more often than compare-and-swaps on
   tail->next, queue->tail and queue->head have succeeded, of which there are less than three for
   every node linked: if one call does not get through, others do.
   */
  lemma {:induction false} RetriesArePaid(n: nat, dummy: Addr, ms: seq<Move>, t: nat)
    requires dummy != NO_ADDR && t < n
    ensures var s0, s := Init(n, dummy), Exec(Init(n, dummy), ms);
            RetriesOf(s0, ms, t) <= Work(s) - Work(s0) <= 3 * (|s.chain| - 1)
  {
    var s0, s := Init(n, dummy), Exec(Init(n, dummy), ms);
    var s1 := RunPaid(n, dummy, ms, t);
    RunOk(n, dummy, ms);
    if InTurn(s.threads[t].pc) { WorkGrows(s1, s); }
  }
}
