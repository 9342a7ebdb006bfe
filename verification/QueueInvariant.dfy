/**
 The invariant of every reachable state of the lock-free queue, cut into one part about
 memory, one part per thread, and one part per pair of a scanning and a holding thread.
 */
module QueueInvariant {
  import opened QueueModel

  // ---------------------------------------------------------------- reading a thread

  /** The call a thread is in, seen through a registration that interrupts it. */
  function Base(pc: PC): PC {
    if pc.RegWalk? || pc.RegRead? || pc.RegLink? then pc.resume else pc
  }

  /** The node an enqueue has allocated but not linked yet. */
  function PrivateOf(pc: PC): Addr {
    match Base(pc)
    case EnqReadTail(node) => node
    case EnqProtect(node, _) => node
    case EnqValidate(node, _) => node
    case EnqReadNext(node, _) => node
    case EnqRevalidate(node, _, _) => node
    case EnqHelp(node, _, _) => node
    case EnqLink(node, _) => node
    case _ => NO_ADDR
  }

  /** The incarnation a thread has published in slot k and validated since. */
  function Hold(pc: PC, k: nat): Ref {
    if k == 0 then
      match pc
      case EnqReadNext(_, tail) => tail
      case EnqRevalidate(_, tail, _) => tail
      case EnqHelp(_, tail, _) => tail
      case EnqLink(_, tail) => tail
      case EnqSwing(_, tail) => tail
      case DeqReadTail(head) => head
      case DeqReadNext(head, _) => head
      case DeqProtectNext(head, _, _) => head
      case DeqRevalidate(head, _, _) => head
      case DeqHelp(head, _, _) => head
      case DeqReadItem(head, _) => head
      case DeqSwing(head, _, _) => head
      case _ => NO_REF
    else if k == 1 then
      match pc
      case DeqReadItem(_, succ) => succ
      case DeqSwing(_, succ, _) => succ
      case _ => NO_REF
    else NO_REF
  }

  function Retired(s: State, t: nat): seq<Ref>
    requires t < |s.threads|
  {
    if 0 <= s.threads[t].rec < |s.recs| then s.recs[s.threads[t].rec].retired else []
  }

  function Pending(pc: PC): seq<Ref> {
    if pc.DeqRetire? && pc.i == 0 then [pc.exit.head] else []
  }

  function Todo(pc: PC): seq<Ref> {
    if pc.ScanFree? then pc.todo else []
  }

  /** The dequeued nodes thread t has to dispose of. */
  function Owned(s: State, t: nat): seq<Ref>
    requires t < |s.threads|
  {
    Pending(s.threads[t].pc) + Retired(s, t) + Todo(s.threads[t].pc)
  }

  predicate Scanning(pc: PC) { pc.ScanTest? || pc.ScanTake? || pc.ScanFree? }

  /** Slot k of record r has been looked at by the scan at pc. */
  predicate Visited(pc: PC, r: int, k: nat)
    requires Scanning(pc)
  {
    pc.ScanFree? || pc.r <= r || (pc.r == r + 1 && k < pc.k)
  }

  /** The retired nodes a scan has not judged yet. */
  function Candidates(s: State, t: nat): seq<Ref>
    requires t < |s.threads|
  {
    if s.threads[t].pc.ScanFree? then s.threads[t].pc.todo else Retired(s, t)
  }

  // ---------------------------------------------------------------- memory

  function NextAddr(chain: seq<Cell>, p: int): Addr {
    if 0 <= p && p + 1 < |chain| then chain[p + 1].addr else NO_ADDR
  }

  /** A linked node, still queued or already dequeued, is what its cell says. */
  predicate NodeOk(s: State, a: Addr)
    requires a in s.heap
  {
    var n := s.heap[a];
    && a != NO_ADDR
    && (n.pos < 0 ==> n.pos == -1 && 0 <= n.keeper < |s.threads|)
    && (n.pos >= 0 ==>
          && n.pos < |s.chain| && s.chain[n.pos] == Cell(a, n.item)
          && n.next == NextAddr(s.chain, n.pos)
          && (if n.pos >= HeadPos(s) then n.keeper == -1 else 0 <= n.keeper < |s.threads|))
  }

  /**
   Head and tail point into the chain, head is not past tail, tail is the last node or the
   one before it, and everything from head on is allocated.
   */
  predicate EndsOk(s: State) {
    && s.head in s.heap && s.tail in s.heap
    && 0 <= HeadPos(s) <= TailPos(s) < |s.chain| <= TailPos(s) + 2
  }

  predicate QueueOk(s: State) {
    forall i :: HeadPos(s) <= i < |s.chain| && 0 <= i ==> s.chain[i].addr in s.heap && s.heap[s.chain[i].addr].pos == i
  }

  predicate MemoryOk(s: State) {
    && EndsOk(s)
    && QueueOk(s)
    && (forall a :: a in s.heap ==> NodeOk(s, a))
    && (forall i :: 0 <= i < |s.chain| ==> s.chain[i].addr != NO_ADDR)
  }

  predicate RecordsOk(s: State) {
    forall r :: 0 <= r < |s.recs| ==>
      && s.recs[r].inUse && |s.recs[r].slots| == SLOTS
      && s.recs[r].owner < |s.threads| && s.threads[s.recs[r].owner].rec == r
  }

  // ---------------------------------------------------------------- one thread

  predicate NeedsRecord(pc: PC) {
    !(pc.Idle? || pc.EnqReadTail? || pc.EnqProtect? || pc.DeqReadHead? || pc.DeqProtect?
      || pc.RegWalk? || pc.RegRead? || pc.RegLink?)
  }

  predicate RecordOk(s: State, t: nat)
    requires t < |s.threads|
  {
    var th := s.threads[t];
    && (th.rec == -1 || (0 <= th.rec < |s.recs| && s.recs[th.rec].owner == t && |s.recs[th.rec].slots| == SLOTS))
    && (NeedsRecord(th.pc) ==> th.rec >= 0)
    && (th.pc.RegWalk? || th.pc.RegRead? || th.pc.RegLink? ==>
          th.rec == -1 && (th.pc.resume.EnqProtect? || th.pc.resume.DeqProtect?))
  }

  /** What the slots hold at each place, apart from what Hold already says. */
  predicate SlotsOk(pc: PC, sl: seq<Addr>)
    requires |sl| == SLOTS
  {
    && sl[2] == NO_ADDR && sl[3] == NO_ADDR
    && match pc
       case Idle => sl[0] == NO_ADDR && sl[1] == NO_ADDR
       case EnqValidate(_, seen) => sl[0] == seen && sl[1] == NO_ADDR
       case EnqRelease(tail, i) => sl[0] == (if i == 0 then tail.addr else NO_ADDR) && sl[1] == NO_ADDR
       case DeqValidate(seen) => sl[0] == seen
       case DeqRevalidate(_, _, next) => next != NO_ADDR ==> sl[1] == next
       case DeqReleaseAll(i) => (i > 0 ==> sl[0] == NO_ADDR) && (i > 1 ==> sl[1] == NO_ADDR)
       case DeqRetire(x, i) => sl[0] == (if i == 0 then x.head.addr else NO_ADDR) && sl[1] == x.next
       case ScanBegin(x, _) => sl[0] == NO_ADDR && sl[1] == x.next
       case ScanTest(x, _, _, _, _, _) => sl[0] == NO_ADDR && sl[1] == x.next
       case ScanTake(x, _, _, _, _, _) => sl[0] == NO_ADDR && sl[1] == x.next
       case ScanFree(x, _, _, _, _) => sl[0] == NO_ADDR && sl[1] == x.next
       case HelpScan(x, _, _) => sl[0] == NO_ADDR && sl[1] == x.next
       case DeqReleaseNext(x, i) => sl[0] == NO_ADDR && sl[1] == (if i <= 1 then x.next else NO_ADDR)
       case _ => InEnqueue(pc) ==> sl[1] == NO_ADDR
  }

  /** `next` was read from the node at position p: it is null or the node at p + 1. */
  predicate NextFact(s: State, p: int, next: Addr) {
    next == NO_ADDR || (0 <= p && p + 1 < |s.chain| && s.chain[p + 1].addr == next)
  }

  /** `tail` was queue->tail at a moment when `head` was held. */
  predicate TailFact(s: State, head: Ref, tail: Ref) {
    && 0 <= head.pos <= tail.pos <= TailPos(s) && tail.pos < |s.chain|
    && s.chain[tail.pos].addr == tail.addr
    && (head.addr == tail.addr ==> head.pos == tail.pos)
  }

  predicate ExitOk(x: Exit) { x.head.addr != NO_ADDR && x.next != NO_ADDR && x.head.addr != x.next }

  predicate ScanOk(s: State, start: nat, r: nat, k: nat, priv: seq<Addr>) {
    r <= start <= |s.recs| && k < SLOTS && (r == 0 ==> k == 0)
    && |priv| <= SLOTS * (start - r) + k
  }

  /** The facts about a thread's locals at each place. */
  predicate LocalsOk(s: State, pc: PC) {
    if InEnqueue(pc) then EnqLocalsOk(s, pc)
    else if InDequeue(pc) then DeqLocalsOk(s, pc)
    else ScanLocalsOk(s, pc)
  }

  predicate EnqLocalsOk(s: State, pc: PC) {
    match pc
    case EnqReadNext(_, tail) => tail.pos <= TailPos(s)
    case EnqRevalidate(_, tail, next) => tail.pos <= TailPos(s) && NextFact(s, tail.pos, next)
    case EnqHelp(_, tail, next) => tail.pos <= TailPos(s) && NextFact(s, tail.pos, next) && next != NO_ADDR
    case EnqLink(_, tail) => tail.pos <= TailPos(s)
    case EnqSwing(node, tail) => tail.pos <= TailPos(s) && NextFact(s, tail.pos, node) && node != NO_ADDR
    case EnqRelease(tail, i) => tail.addr != NO_ADDR && i < SLOTS
    case _ => true
  }

  predicate DeqLocalsOk(s: State, pc: PC) {
    match pc
    case DeqReadTail(head) => head.pos <= HeadPos(s)
    case DeqReadNext(head, tail) => head.pos <= HeadPos(s) && TailFact(s, head, tail)
    case DeqProtectNext(head, tail, next) =>
      head.pos <= HeadPos(s) && TailFact(s, head, tail) && NextFact(s, head.pos, next)
    case DeqRevalidate(head, tail, next) =>
      head.pos <= HeadPos(s) && TailFact(s, head, tail) && NextFact(s, head.pos, next)
    case DeqReleaseAll(i) => i < SLOTS
    case DeqHelp(head, tail, next) =>
      head == tail && head.pos <= TailPos(s) && NextFact(s, head.pos, next) && next != NO_ADDR
    case DeqReadItem(head, succ) => head.pos <= HeadPos(s) && succ.pos == head.pos + 1 <= TailPos(s)
    case DeqSwing(head, succ, item) =>
      && head.pos <= HeadPos(s) && succ.pos == head.pos + 1 <= TailPos(s)
      && 0 < succ.pos < |s.chain| && s.chain[succ.pos].item == item
    case DeqRetire(x, _) => ExitOk(x)
    case DeqReleaseNext(x, i) => ExitOk(x) && i < SLOTS
    case _ => true
  }

  predicate ScanLocalsOk(s: State, pc: PC) {
    match pc
    case ScanBegin(x, i) => ExitOk(x) && i == 0
    case ScanTest(x, i, start, r, k, priv) => ExitOk(x) && i == 0 && ScanOk(s, start, r, k, priv)
    case ScanTake(x, i, start, r, k, priv) => ExitOk(x) && i == 0 && r > 0 && ScanOk(s, start, r, k, priv)
    case ScanFree(x, i, start, priv, _) => ExitOk(x) && i == 0 && start <= |s.recs| && |priv| <= SLOTS * start
    case HelpScan(x, i, r) => ExitOk(x) && i == 0 && r <= |s.recs|
    case RegWalk(r, _) => r <= |s.recs|
    case RegLink(top, _) => top <= |s.recs|
    case _ => true
  }

  /** The node being enqueued is the thread's own, and carries the caller's data. */
  predicate PrivateOk(s: State, t: nat)
    requires t < |s.threads|
  {
    var th := s.threads[t];
    var a := PrivateOf(th.pc);
    && ((InEnqueue(Base(th.pc)) && !th.pc.EnqSwing? && !th.pc.EnqRelease?) <==> a != NO_ADDR)
    && (a != NO_ADDR ==> th.op.Enqueue? && a in s.heap && s.heap[a] == Node(NO_ADDR, th.op.data, -1, t))
  }

  /** Reclamation safety: what is held is published in its slot and still allocated. */
  predicate HoldOk(s: State, t: nat)
    requires t < |s.threads|
  {
    forall k :: 0 <= k < 2 && HasHold(s.threads[t].pc, k) ==> HeldAt(s, t, k)
  }

  predicate HeldAt(s: State, t: nat, k: nat)
    requires t < |s.threads| && k < SLOTS
  {
    && Live(s, Hold(s.threads[t].pc, k))
    && HasRecord(s, t) && RecordOf(s, t).slots[k] == Hold(s.threads[t].pc, k).addr
  }

  /** Places at which slot k is held. */
  predicate HasHold(pc: PC, k: nat) {
    if k == 0 then
      pc.EnqReadNext? || pc.EnqRevalidate? || pc.EnqHelp? || pc.EnqLink? || pc.EnqSwing?
      || pc.DeqReadTail? || pc.DeqReadNext? || pc.DeqProtectNext? || pc.DeqRevalidate?
      || pc.DeqHelp? || pc.DeqReadItem? || pc.DeqSwing?
    else k == 1 && (pc.DeqReadItem? || pc.DeqSwing?)
  }

  /** `x` is dequeued, allocated, and nobody but t will dispose of it. */
  predicate Disposable(s: State, t: nat, x: Ref) {
    Live(s, x) && x.pos < HeadPos(s) && s.heap[x.addr].keeper == t
  }

  predicate Distinct(o: seq<Ref>) {
    forall i, j :: 0 <= i < j < |o| ==> o[i].pos != o[j].pos
  }

  predicate OwnedOk(s: State, t: nat)
    requires t < |s.threads|
  {
    && (forall x :: x in Owned(s, t) ==> Disposable(s, t, x))
    && Distinct(Owned(s, t))
  }

  /** No leak: what t has to take care of is in t's hands. */
  predicate Accounted(s: State, t: nat)
    requires t < |s.threads|
  {
    forall a :: a in s.heap && s.heap[a].keeper == t ==>
      if s.heap[a].pos < 0 then a == PrivateOf(s.threads[t].pc)
      else Ref(a, s.heap[a].pos) in Owned(s, t)
  }

  /** The backlog of retired nodes never exceeds the number of hazard slots, plus the one being retired. */
  predicate BacklogOk(s: State, t: nat)
    requires t < |s.threads|
  {
    var pc := s.threads[t].pc;
    && (s.threads[t].rec >= 0 ==>
          |Retired(s, t)| + |Todo(pc)| <= SLOTS * |s.recs|
            + (if pc.ScanBegin? || pc.ScanTest? || pc.ScanTake? || pc.ScanFree? then 1 else 0))
    && (pc.ScanFree? ==> forall x :: x in Retired(s, t) ==> x.addr in pc.priv)
  }

  predicate ThreadOk(s: State, t: nat)
    requires t < |s.threads|
  {
    && RecordOk(s, t)
    && (s.threads[t].rec >= 0 ==> SlotsOk(s.threads[t].pc, s.recs[s.threads[t].rec].slots))
    && LocalsOk(s, s.threads[t].pc)
    && PrivateOk(s, t)
    && HoldOk(s, t)
    && OwnedOk(s, t)
    && Accounted(s, t)
    && BacklogOk(s, t)
  }

  // ---------------------------------------------------------------- two threads

  /**
   A scan of thread u and a thread v that may hold one of its candidates: v's record is
   one the scan visits, and once it has visited the slot the candidate is on its list.
   */
  predicate GuardOk(s: State, u: nat, v: nat)
    requires u < |s.threads| && v < |s.threads|
  {
    Scanning(s.threads[u].pc) ==>
      var pc := s.threads[v].pc;
      forall x, k :: x in Candidates(s, u) && 0 <= k < 2 && HasHold(pc, k) && Hold(pc, k).pos == x.pos ==>
        && s.threads[v].rec < s.threads[u].pc.start
        && (Visited(s.threads[u].pc, s.threads[v].rec, k) ==> x.addr in s.threads[u].pc.priv)
  }

  predicate Inv(s: State) {
    && s.fault == NoFault
    && MemoryOk(s)
    && RecordsOk(s)
    && (forall t :: 0 <= t < |s.threads| ==> ThreadOk(s, t))
    && (forall u, v :: 0 <= u < |s.threads| && 0 <= v < |s.threads| ==> GuardOk(s, u, v))
  }
}
