/**
 The lock-free queue (data_structures/queue.c) and its hazard pointers (memory/hazard.c)
 as one transition system.

 A move names a thread and lets it do one shared read, one shared write or one
 compare-and-swap, under sequential consistency.  Freed addresses go back to the
 allocator, which may hand out any address that is not allocated now.

 Some fields are bookkeeping that no branch of the program looks at: the position a node
 takes in the chain when it is linked (which tells two incarnations of one address
 apart), the thread that has to dispose of a node, the chain itself and `fault`.
 */
module QueueModel {

  /** Addresses and items; 0 is the null pointer of both. */
  type Addr = nat
  type Val = nat

  /** C_UTILS_HAZARD_PER_THREAD */
  const SLOTS: nat := 4

  const NO_ADDR: Addr := 0

  /** What `true` looks like as the result of an enqueue. */
  const TRUE: Val := 1

  /** One incarnation of an address: the node linked at position `pos` of the chain. */
  datatype Ref = Ref(addr: Addr, pos: int)

  /** The reference that stands for "nothing is held". */
  const NO_REF := Ref(NO_ADDR, -1)

  /**
   An allocated node.  `pos` is -1 until the node is linked.  `keeper` is the thread that
   allocated it (before it is linked) or dequeued it (afterwards), and -1 while the node
   belongs to the queue.
   */
  datatype Node = Node(next: Addr, item: Val, pos: int, keeper: int)

  /** What was linked at one position of the chain, for ever. */
  datatype Cell = Cell(addr: Addr, item: Val)

  /** A hazard record: the slots other threads scan and the owner's retired nodes. */
  datatype Record = Record(inUse: bool, slots: seq<Addr>, retired: seq<Ref>, owner: nat)

  datatype Op = Enqueue(data: Val) | Dequeue

  /** What a dequeue still has to do after its compare-and-swap: retire, release, return. */
  datatype Exit = Exit(head: Ref, next: Addr, item: Val)

  /** Where a thread is, with the locals that are live there. */
  datatype PC =
    | Idle
    // c_utils_queue_enqueue
    | EnqReadTail(node: Addr)
    | EnqProtect(node: Addr, seen: Addr)
    | EnqValidate(node: Addr, seen: Addr)
    | EnqReadNext(node: Addr, tail: Ref)
    | EnqRevalidate(node: Addr, tail: Ref, next: Addr)
    | EnqHelp(node: Addr, tail: Ref, next: Addr)
    | EnqLink(node: Addr, tail: Ref)
    | EnqSwing(node: Addr, tail: Ref)
    | EnqRelease(tail: Ref, i: nat)
    // c_utils_queue_dequeue
    | DeqReadHead
    | DeqProtect(seen: Addr)
    | DeqValidate(seen: Addr)
    | DeqReadTail(head: Ref)
    | DeqReadNext(head: Ref, tail: Ref)
    | DeqProtectNext(head: Ref, tail: Ref, next: Addr)
    | DeqRevalidate(head: Ref, tail: Ref, next: Addr)
    | DeqReleaseAll(i: nat)
    | DeqHelp(head: Ref, tail: Ref, next: Addr)
    | DeqReadItem(head: Ref, succ: Ref)
    | DeqSwing(head: Ref, succ: Ref, item: Val)
    | DeqRetire(exit: Exit, i: nat)
    | DeqReleaseNext(exit: Exit, i: nat)
    // scan and help_scan, entered from slot i of c_utils_hazard_release
    | ScanBegin(exit: Exit, i: nat)
    | ScanTest(exit: Exit, i: nat, start: nat, r: nat, k: nat, priv: seq<Addr>)
    | ScanTake(exit: Exit, i: nat, start: nat, r: nat, k: nat, priv: seq<Addr>)
    | ScanFree(exit: Exit, i: nat, start: nat, priv: seq<Addr>, todo: seq<Ref>)
    | HelpScan(exit: Exit, i: nat, r: nat)
    // init_tls_hp, entered from the first c_utils_hazard_acquire of a thread
    | RegWalk(r: nat, resume: PC)
    | RegRead(resume: PC)
    | RegLink(top: nat, resume: PC)

  /** `rec` is the thread-local record, -1 while the thread has none. */
  datatype Thread = Thread(op: Op, pc: PC, rec: int)

  /** What must never happen.  A fault stops the system. */
  datatype Fault = NoFault | UseAfterFree | ChangedIncarnation | BadFree | RecordTaken

  datatype State = State(
    heap: map<Addr, Node>, head: Addr, tail: Addr, chain: seq<Cell>,
    recs: seq<Record>, threads: seq<Thread>, fault: Fault)

  datatype Event = Invoke(thread: nat, op: Op) | Respond(thread: nat, result: Val)

  /** The outside world's part of a move: the next call, and the address calloc returns. */
  datatype Choice = CallEnqueue(data: Val, chunk: Addr) | CallDequeue | Go

  datatype Move = Move(thread: nat, choice: Choice)

  // ---------------------------------------------------------------- reading the state

  function PosOf(s: State, a: Addr): int {
    if a in s.heap then s.heap[a].pos else -1
  }

  function HeadPos(s: State): int { PosOf(s, s.head) }

  function TailPos(s: State): int { PosOf(s, s.tail) }

  /** The incarnation `r` is allocated right now. */
  predicate Live(s: State, r: Ref) {
    r.addr in s.heap && r.pos >= 0 && s.heap[r.addr].pos == r.pos
  }

  predicate HasRecord(s: State, t: nat)
    requires t < |s.threads|
  {
    && 0 <= s.threads[t].rec < |s.recs|
    && |s.recs[s.threads[t].rec].slots| == SLOTS
  }

  function RecordOf(s: State, t: nat): Record
    requires t < |s.threads| && HasRecord(s, t)
  {
    s.recs[s.threads[t].rec]
  }

  // ---------------------------------------------------------------- changing the state

  function Goto(s: State, t: nat, pc: PC): State
    requires t < |s.threads|
  {
    s.(threads := s.threads[t := s.threads[t].(pc := pc)])
  }

  function SetRecord(s: State, t: nat, rc: Record): State
    requires t < |s.threads| && HasRecord(s, t)
  {
    s.(recs := s.recs[s.threads[t].rec := rc])
  }

  function SetSlot(s: State, t: nat, k: nat, a: Addr): State
    requires t < |s.threads| && k < SLOTS
  {
    if HasRecord(s, t) then
      SetRecord(s, t, RecordOf(s, t).(slots := RecordOf(s, t).slots[k := a]))
    else s
  }

  /** c_utils_hazard_release, one slot: forget `a` if slot k holds it. */
  function ReleaseSlot(s: State, t: nat, k: nat, a: Addr): State
    requires t < |s.threads| && k < SLOTS
  {
    if HasRecord(s, t) && RecordOf(s, t).slots[k] == a then SetSlot(s, t, k, NO_ADDR) else s
  }

  function Halt(s: State, f: Fault): State { s.(fault := f) }

  /** Compare-and-swap of queue->tail; the swapped word must be the incarnation expected. */
  function CasTail(s: State, t: nat, expected: Ref, desired: Addr, pc: PC): State
    requires t < |s.threads|
  {
    if s.tail != expected.addr then Goto(s, t, pc)
    else if TailPos(s) != expected.pos then Halt(s, ChangedIncarnation)
    else Goto(s.(tail := desired), t, pc)
  }

  /** Linking `node` behind `tail` gives it the next position of the chain. */
  function LinkHeap(s: State, node: Addr, tail: Ref): map<Addr, Node>
    requires Live(s, tail) && node in s.heap
  {
    s.heap[tail.addr := s.heap[tail.addr].(next := node)]
          [node := s.heap[node].(pos := |s.chain|, keeper := -1)]
  }

  // ---------------------------------------------------------------- enqueue, lines 42-87

  function StepEnqueue(s: State, t: nat): State
    requires t < |s.threads|
  {
    match s.threads[t].pc
    case EnqReadTail(node) =>
      Goto(s, t, EnqProtect(node, s.tail))
    case EnqProtect(node, seen) =>
      if s.threads[t].rec < 0 then Goto(s, t, RegWalk(|s.recs|, s.threads[t].pc))
      else Goto(SetSlot(s, t, 0, seen), t, EnqValidate(node, seen))
    case EnqValidate(node, seen) =>
      if seen != s.tail then Goto(s, t, EnqReadTail(node))
      else Goto(s, t, EnqReadNext(node, Ref(seen, TailPos(s))))
    case EnqReadNext(node, tail) =>
      if !Live(s, tail) then Halt(s, UseAfterFree)
      else Goto(s, t, EnqRevalidate(node, tail, s.heap[tail.addr].next))
    case EnqRevalidate(node, tail, next) =>
      if tail.addr != s.tail then Goto(s, t, EnqReadTail(node))
      else if next != NO_ADDR then Goto(s, t, EnqHelp(node, tail, next))
      else Goto(s, t, EnqLink(node, tail))
    case EnqHelp(node, tail, next) =>
      CasTail(s, t, tail, next, EnqReadTail(node))
    case EnqLink(node, tail) =>
      if !Live(s, tail) || node !in s.heap then Halt(s, UseAfterFree)
      else if s.heap[tail.addr].next != NO_ADDR then Goto(s, t, EnqReadTail(node))
      else
        Goto(s.(heap := LinkHeap(s, node, tail),
                chain := s.chain + [Cell(node, s.heap[node].item)]), t, EnqSwing(node, tail))
    case EnqSwing(node, tail) =>
      CasTail(s, t, tail, node, EnqRelease(tail, 0))
    case EnqRelease(tail, i) =>
      if i >= SLOTS then Goto(s, t, Idle)
      else
        Goto(ReleaseSlot(s, t, i, tail.addr), t,
             if i + 1 < SLOTS then EnqRelease(tail, i + 1) else Idle)
    case _ => s
  }

  // ---------------------------------------------------------------- dequeue, lines 89-138

  function StepDequeue(s: State, t: nat): State
    requires t < |s.threads|
  {
    match s.threads[t].pc
    case DeqReadHead =>
      Goto(s, t, DeqProtect(s.head))
    case DeqProtect(seen) =>
      if s.threads[t].rec < 0 then Goto(s, t, RegWalk(|s.recs|, s.threads[t].pc))
      else Goto(SetSlot(s, t, 0, seen), t, DeqValidate(seen))
    case DeqValidate(seen) =>
      if seen != s.head then Goto(s, t, DeqReadHead)
      else Goto(s, t, DeqReadTail(Ref(seen, HeadPos(s))))
    case DeqReadTail(head) =>
      Goto(s, t, DeqReadNext(head, Ref(s.tail, TailPos(s))))
    case DeqReadNext(head, tail) =>
      if !Live(s, head) then Halt(s, UseAfterFree)
      else Goto(s, t, DeqProtectNext(head, tail, s.heap[head.addr].next))
    case DeqProtectNext(head, tail, next) =>
      // acquire refuses a null pointer and leaves the slot as it was
      Goto(if next == NO_ADDR then s else SetSlot(s, t, 1, next), t, DeqRevalidate(head, tail, next))
    case DeqRevalidate(head, tail, next) =>
      if head.addr != s.head then Goto(s, t, DeqReadHead)
      else if next == NO_ADDR then Goto(s, t, DeqReleaseAll(0))
      else if head.addr == tail.addr then Goto(s, t, DeqHelp(head, tail, next))
      else Goto(s, t, DeqReadItem(head, Ref(next, PosOf(s, next))))
    case DeqReleaseAll(i) =>
      if i >= SLOTS then Goto(s, t, Idle)
      else Goto(SetSlot(s, t, i, NO_ADDR), t, if i + 1 < SLOTS then DeqReleaseAll(i + 1) else Idle)
    case DeqHelp(head, tail, next) =>
      CasTail(s, t, tail, next, DeqReadHead)
    case DeqReadItem(head, succ) =>
      if !Live(s, succ) then Halt(s, UseAfterFree)
      else Goto(s, t, DeqSwing(head, succ, s.heap[succ.addr].item))
    case DeqSwing(head, succ, item) =>
      if s.head != head.addr then Goto(s, t, DeqReadHead)
      else if HeadPos(s) != head.pos || s.head !in s.heap then Halt(s, ChangedIncarnation)
      else
        Goto(s.(head := succ.addr, heap := s.heap[s.head := s.heap[s.head].(keeper := t)]),
             t, DeqRetire(Exit(head, succ.addr, item), 0))
    case DeqRetire(exit, i) =>
      if i >= SLOTS then Goto(s, t, DeqReleaseNext(exit, 0))
      else if !HasRecord(s, t) || RecordOf(s, t).slots[i] != exit.head.addr then
        Goto(s, t, DeqRetire(exit, i + 1))
      else
        var rc := RecordOf(s, t);
        var rc' := rc.(slots := rc.slots[i := NO_ADDR], retired := rc.retired + [exit.head]);
        Goto(SetRecord(s, t, rc'), t,
             if |rc'.retired| >= SLOTS then ScanBegin(exit, i) else DeqRetire(exit, i + 1))
    case DeqReleaseNext(exit, i) =>
      if i >= SLOTS then Goto(s, t, Idle)
      else
        Goto(ReleaseSlot(s, t, i, exit.next), t,
             if i + 1 < SLOTS then DeqReleaseNext(exit, i + 1) else Idle)
    case _ => s
  }

  // ---------------------------------------------------------------- hazard.c, lines 77-178

  /** The record and slot a scan looks at after slot k of record r - 1. */
  function ScanOn(exit: Exit, i: nat, start: nat, r: nat, k: nat, priv: seq<Addr>): PC
    requires r > 0
  {
    if k + 1 < SLOTS then ScanTest(exit, i, start, r, k + 1, priv)
    else ScanTest(exit, i, start, r - 1, 0, priv)
  }

  function SlotAt(s: State, r: nat, k: nat): Addr {
    if 0 < r <= |s.recs| && k < |s.recs[r - 1].slots| then s.recs[r - 1].slots[k] else NO_ADDR
  }

  function StepScan(s: State, t: nat): State
    requires t < |s.threads|
  {
    match s.threads[t].pc
    case ScanBegin(exit, i) =>
      Goto(s, t, ScanTest(exit, i, |s.recs|, |s.recs|, 0, []))
    case ScanTest(exit, i, start, r, k, priv) =>
      if r == 0 then
        if !HasRecord(s, t) then s
        else
          var rc := RecordOf(s, t);
          Goto(SetRecord(s, t, rc.(retired := [])), t, ScanFree(exit, i, start, priv, rc.retired))
      else if SlotAt(s, r, k) == NO_ADDR then Goto(s, t, ScanOn(exit, i, start, r, k, priv))
      else Goto(s, t, ScanTake(exit, i, start, r, k, priv))
    case ScanTake(exit, i, start, r, k, priv) =>
      // the slot is read a second time; a list refuses a null pointer
      var a := SlotAt(s, r, k);
      if r == 0 then s
      else Goto(s, t, ScanOn(exit, i, start, r, k, if a == NO_ADDR then priv else priv + [a]))
    case ScanFree(exit, i, start, priv, todo) =>
      if todo == [] then Goto(s, t, HelpScan(exit, i, |s.recs|))
      else if todo[0].addr in priv then
        if !HasRecord(s, t) then s
        else
          var rc := RecordOf(s, t);
          Goto(SetRecord(s, t, rc.(retired := rc.retired + [todo[0]])), t,
               ScanFree(exit, i, start, priv, todo[1..]))
      else if !Live(s, todo[0]) then Halt(s, BadFree)
      else
        Goto(s.(heap := s.heap - {todo[0].addr}), t, ScanFree(exit, i, start, priv, todo[1..]))
    case HelpScan(exit, i, r) =>
      if r == 0 then Goto(s, t, DeqRetire(exit, i + 1))
      else if r <= |s.recs| && s.recs[r - 1].inUse then Goto(s, t, HelpScan(exit, i, r - 1))
      else Halt(s, RecordTaken)
    case RegWalk(r, resume) =>
      if r == 0 then Goto(s, t, RegRead(resume))
      else if r <= |s.recs| && s.recs[r - 1].inUse then Goto(s, t, RegWalk(r - 1, resume))
      else Halt(s, RecordTaken)
    case RegRead(resume) =>
      Goto(s, t, RegLink(|s.recs|, resume))
    case RegLink(top, resume) =>
      // records are never unlinked, so the table head is told apart by the table's length
      if top != |s.recs| then Goto(s, t, RegRead(resume))
      else
        s.(recs := s.recs + [Record(true, seq(SLOTS, _ => NO_ADDR), [], t)],
           threads := s.threads[t := s.threads[t].(pc := resume, rec := top)])
    case _ => s
  }

  // ---------------------------------------------------------------- moves and runs

  function StepCall(s: State, t: nat, c: Choice): State
    requires t < |s.threads|
  {
    match c
    case CallEnqueue(data, chunk) =>
      if chunk == NO_ADDR || chunk in s.heap then s
      else
        s.(heap := s.heap[chunk := Node(NO_ADDR, data, -1, t)],
           threads := s.threads[t := s.threads[t].(op := Enqueue(data), pc := EnqReadTail(chunk))])
    case CallDequeue =>
      s.(threads := s.threads[t := s.threads[t].(op := Dequeue, pc := DeqReadHead)])
    case Go => s
  }

  predicate InEnqueue(pc: PC) {
    pc.EnqReadTail? || pc.EnqProtect? || pc.EnqValidate? || pc.EnqReadNext? || pc.EnqRevalidate?
    || pc.EnqHelp? || pc.EnqLink? || pc.EnqSwing? || pc.EnqRelease?
  }

  predicate InDequeue(pc: PC) {
    pc.DeqReadHead? || pc.DeqProtect? || pc.DeqValidate? || pc.DeqReadTail? || pc.DeqReadNext?
    || pc.DeqProtectNext? || pc.DeqRevalidate? || pc.DeqReleaseAll? || pc.DeqHelp?
    || pc.DeqReadItem? || pc.DeqSwing? || pc.DeqRetire? || pc.DeqReleaseNext?
  }

  /** One move.  A faulted system, an unknown thread and a refused call all stand still. */
  function Next(s: State, m: Move): State {
    if s.fault != NoFault || m.thread >= |s.threads| then s
    else
      var pc := s.threads[m.thread].pc;
      if pc.Idle? then StepCall(s, m.thread, m.choice)
      else if InEnqueue(pc) then StepEnqueue(s, m.thread)
      else if InDequeue(pc) then StepDequeue(s, m.thread)
      else StepScan(s, m.thread)
  }

  /** What a client sees of a move: a call, a return, or nothing. */
  function Label(s: State, m: Move): seq<Event> {
    if s.fault != NoFault || m.thread >= |s.threads| then []
    else
      var th := s.threads[m.thread];
      match th.pc
      case Idle =>
        (match m.choice
         case CallEnqueue(data, chunk) =>
           if chunk == NO_ADDR || chunk in s.heap then [] else [Invoke(m.thread, Enqueue(data))]
         case CallDequeue => [Invoke(m.thread, Dequeue)]
         case Go => [])
      case EnqRelease(_, i) => if i + 1 >= SLOTS then [Respond(m.thread, TRUE)] else []
      case DeqReleaseAll(i) => if i + 1 >= SLOTS then [Respond(m.thread, NO_ADDR)] else []
      case DeqReleaseNext(exit, i) => if i + 1 >= SLOTS then [Respond(m.thread, exit.item)] else []
      case _ => []
  }

  /** c_utils_queue_create with `n` threads about: one dummy node, no hazard record yet. */
  function Init(n: nat, dummy: Addr): State {
    State(map[dummy := Node(NO_ADDR, NO_ADDR, 0, -1)], dummy, dummy, [Cell(dummy, NO_ADDR)], [],
          seq(n, _ => Thread(Dequeue, Idle, -1)), NoFault)
  }

  /** The state after a schedule, and the history of calls and returns it produced. */
  function Exec(s: State, ms: seq<Move>): State {
    if ms == [] then s else Next(Exec(s, ms[..|ms| - 1]), ms[|ms| - 1])
  }

  function History(s: State, ms: seq<Move>): seq<Event> {
    if ms == [] then []
    else History(s, ms[..|ms| - 1]) + Label(Exec(s, ms[..|ms| - 1]), ms[|ms| - 1])
  }
}
