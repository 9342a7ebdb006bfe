/**
 Every run of the lock-free queue is a run of an atomic FIFO queue.

 The atomic queue is the usual canonical object: a call is announced, later takes effect in
 one indivisible action, later returns the result of that action.  A client sees calls and
 returns only.
 */
module QueueLinearizable {
  import opened QueueModel
  import opened QueueInvariant
  import opened QueueSteps
  import opened QueueUpdates
  import opened QueueSafety

  // ---------------------------------------------------------------- the atomic queue

  datatype Status = Ready | Called(op: Op) | Done(result: Val)

  datatype Fifo = Fifo(items: seq<Val>, status: seq<Status>)

  datatype Act = Call(thread: nat, op: Op) | Apply(thread: nat) | Return(thread: nat)

  predicate Enabled(a: Fifo, act: Act) {
    act.thread < |a.status| &&
    match act
    case Call(t, _) => a.status[t].Ready?
    case Apply(t) => a.status[t].Called?
    case Return(t) => a.status[t].Done?
  }

  function Perform(a: Fifo, act: Act): Fifo
    requires Enabled(a, act)
  {
    match act
    case Call(t, op) => a.(status := a.status[t := Called(op)])
    case Return(t) => a.(status := a.status[t := Ready])
    case Apply(t) =>
      match a.status[t].op
      case Enqueue(data) => Fifo(a.items + [data], a.status[t := Done(TRUE)])
      case Dequeue =>
        if a.items == [] then Fifo([], a.status[t := Done(NO_ADDR)])
        else Fifo(a.items[1..], a.status[t := Done(a.items[0])])
  }

  function Shown(a: Fifo, act: Act): seq<Event>
    requires Enabled(a, act)
  {
    match act
    case Call(t, op) => [Invoke(t, op)]
    case Apply(_) => []
    case Return(t) => [Respond(t, a.status[t].result)]
  }

  /** `acts` leads the atomic queue from a to b, showing `h` to its clients. */
  predicate Atomic(a: Fifo, acts: seq<Act>, h: seq<Event>, b: Fifo)
    decreases |acts|
  {
    if acts == [] then h == [] && b == a
    else
      && Enabled(a, acts[0])
      && Shown(a, acts[0]) <= h
      && Atomic(Perform(a, acts[0]), acts[1..], h[|Shown(a, acts[0])|..], b)
  }

  function EmptyFifo(n: nat): Fifo { Fifo([], seq(n, _ => Ready)) }

  lemma {:induction false} AtomicThen(a: Fifo, acts: seq<Act>, h: seq<Event>, b: Fifo, act: Act)
    requires Atomic(a, acts, h, b) && Enabled(b, act)
    ensures Atomic(a, acts + [act], h + Shown(b, act), Perform(b, act))
    decreases |acts|
  {
    if acts == [] {
      assert acts + [act] == [act];
      assert h + Shown(b, act) == Shown(a, act);
    } else {
      var e := Shown(a, acts[0]);
      AtomicThen(Perform(a, acts[0]), acts[1..], h[|e|..], b, act);
      assert (acts + [act])[1..] == acts[1..] + [act];
      assert (h + Shown(b, act))[|e|..] == h[|e|..] + Shown(b, act);
    }
  }

  // ---------------------------------------------------------------- what a state stands for

  /** The items behind the dummy node. */
  function Contents(s: State): seq<Val>
    requires 0 <= HeadPos(s) < |s.chain|
  {
    var p := HeadPos(s) + 1;
    seq<Val>(|s.chain| - p, i requires 0 <= i < |s.chain| - p => s.chain[p + i].item)
  }

  /** A dequeue that has read a null next, and may or may not end up returning "empty". */
  predicate MaybeEmpty(pc: PC) {
    (pc.DeqProtectNext? || pc.DeqRevalidate?) && pc.next == NO_ADDR
  }

  function StatusOf(th: Thread, empty: bool): Status {
    var pc := Base(th.pc);
    if pc.Idle? then Ready
    else if pc.EnqSwing? || pc.EnqRelease? then Done(TRUE)
    else if InEnqueue(pc) then Called(th.op)
    else if pc.DeqReleaseAll? then Done(NO_ADDR)
    else if MaybeEmpty(pc) then (if empty then Done(NO_ADDR) else Called(Dequeue))
    else if pc.DeqRetire? || pc.DeqReleaseNext? || pc.ScanBegin? || pc.ScanTest? || pc.ScanTake? || pc.ScanFree?
            || pc.HelpScan? then Done(pc.exit.item)
    else Called(Dequeue)
  }

  /**
   The atomic queue a state stands for, given the set of threads whose null read is taken
   as the moment their dequeue found the queue empty.
   */
  function Meaning(s: State, empties: set<nat>): Fifo
    requires 0 <= HeadPos(s) < |s.chain|
  {
    Fifo(Contents(s), seq(|s.threads|, t requires 0 <= t < |s.threads| => StatusOf(s.threads[t], t in empties)))
  }

  /** The queue as it lies in memory: the items met when following next from node a. */
  predicate Spells(heap: map<Addr, Node>, a: Addr, items: seq<Val>)
    decreases |items|
  {
    a in heap &&
    if items == [] then heap[a].next == NO_ADDR
    else
      var b := heap[a].next;
      b != NO_ADDR && b in heap && heap[b].item == items[0] && Spells(heap, b, items[1..])
  }

  /** From position p on, memory is linked as the chain says. */
  predicate LinkedFrom(heap: map<Addr, Node>, chain: seq<Cell>, p: nat) {
    forall i :: p <= i < |chain| ==> CellLinked(heap, chain, i)
  }

  predicate CellLinked(heap: map<Addr, Node>, chain: seq<Cell>, i: nat)
    requires i < |chain|
  {
    var a := chain[i].addr;
    a != NO_ADDR && a in heap && heap[a].item == chain[i].item && heap[a].next == NextAddr(chain, i)
  }

  lemma {:induction false} SpellsFrom(heap: map<Addr, Node>, chain: seq<Cell>, p: nat, items: seq<Val>)
    requires p < |chain| && LinkedFrom(heap, chain, p)
    requires |items| == |chain| - p - 1 && forall i :: 0 <= i < |items| ==> items[i] == chain[p + 1 + i].item
    ensures Spells(heap, chain[p].addr, items)
    decreases |chain| - p
  {
    assert CellLinked(heap, chain, p);
    if items != [] {
      assert CellLinked(heap, chain, p + 1);
      SpellsFrom(heap, chain, p + 1, items[1..]);
    }
  }

  lemma MemoryLinked(s: State)
    requires MemoryOk(s)
    ensures LinkedFrom(s.heap, s.chain, HeadPos(s)) && s.chain[HeadPos(s)].addr == s.head
  {
    assert NodeOk(s, s.head);
    forall i | HeadPos(s) <= i < |s.chain|
      ensures CellLinked(s.heap, s.chain, i)
    {
      assert NodeOk(s, s.chain[i].addr);
    }
  }

  lemma StateSpells(s: State)
    requires MemoryOk(s)
    ensures Spells(s.heap, s.head, Contents(s))
  {
    MemoryLinked(s);
    var p, items := HeadPos(s), Contents(s);
    assert forall i :: 0 <= i < |items| ==> items[i] == s.chain[p + 1 + i].item;
    SpellsFrom(s.heap, s.chain, p, items);
  }

  /** In every reachable state the list in memory spells exactly the abstract contents. */
  lemma MemorySpellsContents(n: nat, dummy: Addr, ms: seq<Move>)
    requires dummy != NO_ADDR
    ensures var s := Exec(Init(n, dummy), ms);
            0 <= HeadPos(s) < |s.chain| && Spells(s.heap, s.head, Contents(s))
  {
    RunOk(n, dummy, ms);
    StateSpells(Exec(Init(n, dummy), ms));
  }

  // ---------------------------------------------------------------- one move

  /** How one concrete move is matched: by nothing, or by one act of the atomic queue. */
  datatype Match = Match(empties: set<nat>, acts: seq<Act>)

  predicate Matches(s: State, w: Match, h: seq<Event>, s': State, empties: set<nat>)
    requires 0 <= HeadPos(s) < |s.chain| && 0 <= HeadPos(s') < |s'.chain|
  {
    var a := Meaning(s, w.empties);
    if w.acts == [] then h == [] && Meaning(s', empties) == a
    else
      && |w.acts| == 1 && Enabled(a, w.acts[0])
      && Shown(a, w.acts[0]) == h && Meaning(s', empties) == Perform(a, w.acts[0])
  }

  /** Apart from thread t nothing a client could see has changed. */
  predicate OnlyThread(s: State, s': State, t: nat) {
    && t < |s.threads| == |s'.threads|
    && (forall u :: 0 <= u < |s.threads| && u != t ==> s'.threads[u] == s.threads[u])
    && 0 <= HeadPos(s) < |s.chain| && 0 <= HeadPos(s') < |s'.chain|
  }

  lemma SilentMove(s: State, s': State, t: nat, w: Match, empties: set<nat>)
    requires OnlyThread(s, s', t) && s'.chain == s.chain && HeadPos(s') == HeadPos(s) && w.acts == []
    requires w.empties - {t} == empties - {t}
    requires StatusOf(s'.threads[t], t in empties) == StatusOf(s.threads[t], t in w.empties)
    ensures Matches(s, w, [], s', empties)
  {
    assert forall u :: u != t ==> (u in w.empties <==> u in w.empties - {t}) && (u in empties <==> u in empties - {t});
    assert Contents(s') == Contents(s);
    assert Meaning(s', empties).status == Meaning(s, w.empties).status;
  }

  lemma StatusMove(s: State, s': State, t: nat, empties: set<nat>, act: Act, h: seq<Event>)
    requires OnlyThread(s, s', t) && act.thread == t
    requires Enabled(Meaning(s, empties), act) && Shown(Meaning(s, empties), act) == h
    requires var b := Perform(Meaning(s, empties), act);
             Contents(s') == b.items && StatusOf(s'.threads[t], t in empties) == b.status[t]
    ensures Matches(s, Match(empties, [act]), h, s', empties)
  {
    assert Meaning(s', empties).status == Perform(Meaning(s, empties), act).status;
  }

  lemma CallMove(s: State, s': State, t: nat, empties: set<nat>, op: Op)
    requires OnlyThread(s, s', t) && s'.chain == s.chain && HeadPos(s') == HeadPos(s)
    requires StatusOf(s.threads[t], t in empties) == Ready && StatusOf(s'.threads[t], t in empties) == Called(op)
    ensures Matches(s, Match(empties, [Call(t, op)]), [Invoke(t, op)], s', empties)
  {
    assert Contents(s') == Contents(s);
    StatusMove(s, s', t, empties, Call(t, op), [Invoke(t, op)]);
  }

  lemma ReturnMove(s: State, s': State, t: nat, empties: set<nat>, r: Val)
    requires OnlyThread(s, s', t) && s'.chain == s.chain && HeadPos(s') == HeadPos(s)
    requires StatusOf(s.threads[t], t in empties) == Done(r) && StatusOf(s'.threads[t], t in empties) == Ready
    ensures Matches(s, Match(empties, [Return(t)]), [Respond(t, r)], s', empties)
  {
    assert Contents(s') == Contents(s);
    StatusMove(s, s', t, empties, Return(t), [Respond(t, r)]);
  }

  lemma EnqueueMove(s: State, s': State, t: nat, empties: set<nat>, data: Val, a: Addr)
    requires OnlyThread(s, s', t) && s'.chain == s.chain + [Cell(a, data)] && HeadPos(s') == HeadPos(s)
    requires StatusOf(s.threads[t], t in empties) == Called(Enqueue(data))
    requires StatusOf(s'.threads[t], t in empties) == Done(TRUE)
    ensures Matches(s, Match(empties, [Apply(t)]), [], s', empties)
  {
    assert Contents(s') == Contents(s) + [data];
    StatusMove(s, s', t, empties, Apply(t), []);
  }

  lemma DequeueMove(s: State, s': State, t: nat, empties: set<nat>, item: Val)
    requires OnlyThread(s, s', t) && s'.chain == s.chain && HeadPos(s') == HeadPos(s) + 1
    requires s.chain[HeadPos(s) + 1].item == item
    requires StatusOf(s.threads[t], t in empties) == Called(Dequeue)
    requires StatusOf(s'.threads[t], t in empties) == Done(item)
    ensures Matches(s, Match(empties, [Apply(t)]), [], s', empties)
  {
    assert Contents(s) == [item] + Contents(s');
    assert Contents(s') == Contents(s)[1..];
    StatusMove(s, s', t, empties, Apply(t), []);
  }

  /** A move that shows nothing and takes no effect: memory and status are as before. */
  predicate Silent(s: State, s': State, t: nat)
    requires t < |s.threads|
  {
    && s'.chain == s.chain && s'.head == s.head
    && |s'.threads| == |s.threads|
    && (forall u :: 0 <= u < |s.threads| && u != t ==> s'.threads[u] == s.threads[u])
    && (s.head in s'.heap ==> PosOf(s', s.head) == PosOf(s, s.head))
    && (forall empty :: StatusOf(s'.threads[t], empty) == StatusOf(s.threads[t], empty))
  }

  lemma SilentMatches(s: State, s': State, t: nat, empties: set<nat>)
    requires MemoryOk(s) && EndsOk(s') && t < |s.threads| && Silent(s, s', t)
    ensures Matches(s, Match(empties, []), [], s', empties)
  {
    SilentMove(s, s', t, Match(empties, []), empties);
  }

  // ---------------------------------------------------------------- enqueue

  predicate EnqueueStaysSilent(s: State, t: nat)
    requires t < |s.threads|
  {
    var pc := s.threads[t].pc;
    && InEnqueue(pc) && StepEnqueue(s, t).fault == NoFault == s.fault
    && !(pc.EnqLink? && pc.tail.addr in s.heap && s.heap[pc.tail.addr].next == NO_ADDR)
    && !(pc.EnqRelease? && pc.i + 1 >= SLOTS)
  }

  lemma EnqueueSilent(s: State, t: nat)
    requires t < |s.threads| && EnqueueStaysSilent(s, t)
    ensures Silent(s, StepEnqueue(s, t), t)
  {
  }

  /** Linking the node is the moment an enqueue takes effect. */
  lemma LinkMatches(s: State, t: nat, empties: set<nat>)
    requires Inv(s) && t < |s.threads| && s.threads[t].pc.EnqLink?
    requires s.threads[t].pc.tail.addr in s.heap && s.heap[s.threads[t].pc.tail.addr].next == NO_ADDR
    requires EndsOk(StepEnqueue(s, t))
    ensures Matches(s, Match(empties, [Apply(t)]), [], StepEnqueue(s, t), empties)
  {
    var s' := StepEnqueue(s, t);
    assert ThreadOk(s, t);
    Held(s, t, 0);
    var pc := s.threads[t].pc;
    LinkMemory(s, s', pc.tail, pc.node);
    EnqueueMove(s, s', t, empties, s.threads[t].op.data, pc.node);
  }

  lemma EnqueueReturnShape(s: State, t: nat)
    requires t < |s.threads| && s.threads[t].pc.EnqRelease? && s.threads[t].pc.i + 1 >= SLOTS
    ensures var s' := StepEnqueue(s, t);
            && s'.chain == s.chain && s'.heap == s.heap && s'.head == s.head
            && s'.threads == s.threads[t := s.threads[t].(pc := Idle)]
  {
  }

  lemma EnqueueReturns(s: State, t: nat, empties: set<nat>)
    requires MemoryOk(s) && t < |s.threads| && s.threads[t].pc.EnqRelease? && s.threads[t].pc.i + 1 >= SLOTS
    requires EndsOk(StepEnqueue(s, t))
    ensures Matches(s, Match(empties, [Return(t)]), [Respond(t, TRUE)], StepEnqueue(s, t), empties)
  {
    EnqueueReturnShape(s, t);
    ReturnMove(s, StepEnqueue(s, t), t, empties, TRUE);
  }

  lemma MatchEnqueue(s: State, m: Move, empties: set<nat>) returns (w: Match)
    requires Inv(s) && m.thread < |s.threads| && InEnqueue(s.threads[m.thread].pc)
    requires EndsOk(StepEnqueue(s, m.thread)) && StepEnqueue(s, m.thread).fault == NoFault
    ensures Matches(s, w, Label(s, m), StepEnqueue(s, m.thread), empties)
  {
    var t := m.thread;
    var pc := s.threads[t].pc;
    if pc.EnqLink? && pc.tail.addr in s.heap && s.heap[pc.tail.addr].next == NO_ADDR {
      w := Match(empties, [Apply(t)]);
      LinkMatches(s, t, empties);
    } else if pc.EnqRelease? && pc.i + 1 >= SLOTS {
      w := Match(empties, [Return(t)]);
      EnqueueReturns(s, t, empties);
    } else {
      w := Match(empties, []);
      EnqueueSilent(s, t);
      SilentMatches(s, StepEnqueue(s, t), t, empties);
    }
  }

  // ---------------------------------------------------------------- dequeue

  predicate DequeueStaysSilent(s: State, t: nat)
    requires t < |s.threads|
  {
    var pc := s.threads[t].pc;
    && InDequeue(pc) && StepDequeue(s, t).fault == NoFault == s.fault
    && !(pc.DeqReadNext? && pc.head.addr in s.heap && s.heap[pc.head.addr].next == NO_ADDR)
    && !pc.DeqRevalidate?
    && !(pc.DeqSwing? && s.head == pc.head.addr)
    && !((pc.DeqReleaseAll? || pc.DeqReleaseNext?) && pc.i + 1 >= SLOTS)
  }

  lemma DequeueSilent(s: State, t: nat)
    requires t < |s.threads| && DequeueStaysSilent(s, t)
    ensures Silent(s, StepDequeue(s, t), t)
  {
    if Disposing(s.threads[t].pc) { DisposalSilent(s, t); }
  }

  predicate Disposing(pc: PC) { pc.DeqRetire? || pc.DeqReleaseNext? || pc.DeqReleaseAll? }

  lemma DisposalSilent(s: State, t: nat)
    requires t < |s.threads| && DequeueStaysSilent(s, t) && Disposing(s.threads[t].pc)
    ensures Silent(s, StepDequeue(s, t), t)
  {
  }

  lemma LastHasNoNext(s: State, p: int)
    requires MemoryOk(s) && 0 <= p < |s.chain|
    ensures NextAddr(s.chain, p) == NO_ADDR <==> p == |s.chain| - 1
  {
  }

  /** A validated head with a null next: the queue is empty at this very moment. */
  lemma NullNextMeansEmpty(s: State, t: nat)
    requires Inv(s) && t < |s.threads| && s.threads[t].pc.DeqReadNext?
    requires s.threads[t].pc.head.addr in s.heap && s.heap[s.threads[t].pc.head.addr].next == NO_ADDR
    ensures Contents(s) == []
  {
    assert ThreadOk(s, t);
    Held(s, t, 0);
    LastHasNoNext(s, s.threads[t].pc.head.pos);
  }

  /** So a dequeue that will return "empty" may take effect there. */
  lemma NullNextMatches(s: State, t: nat, empties: set<nat>)
    requires Inv(s) && t < |s.threads| && s.threads[t].pc.DeqReadNext?
    requires s.threads[t].pc.head.addr in s.heap && s.heap[s.threads[t].pc.head.addr].next == NO_ADDR
    requires StepDequeue(s, t).fault == NoFault
    ensures Matches(s, Match(empties, if t in empties then [Apply(t)] else []), [], StepDequeue(s, t), empties)
  {
    var s' := StepDequeue(s, t);
    NullNextMeansEmpty(s, t);
    NullNextShape(s, t);
    EmptyMove(s, s', t, empties);
  }

  lemma NullNextShape(s: State, t: nat)
    requires t < |s.threads| && s.threads[t].pc.DeqReadNext?
    requires s.threads[t].pc.head.addr in s.heap && s.heap[s.threads[t].pc.head.addr].next == NO_ADDR
    requires StepDequeue(s, t).fault == NoFault
    ensures var pc := s.threads[t].pc; StepDequeue(s, t) == Goto(s, t, DeqProtectNext(pc.head, pc.tail, NO_ADDR))
  {
  }

  lemma EmptyMove(s: State, s': State, t: nat, empties: set<nat>)
    requires t < |s.threads| && s.threads[t].pc.DeqReadNext? && 0 <= HeadPos(s) < |s.chain| && Contents(s) == []
    requires var pc := s.threads[t].pc; s' == Goto(s, t, DeqProtectNext(pc.head, pc.tail, NO_ADDR))
    ensures Matches(s, Match(empties, if t in empties then [Apply(t)] else []), [], s', empties)
  {
    assert Contents(s') == Contents(s);
    if t in empties {
      StatusMove(s, s', t, empties, Apply(t), []);
    } else {
      SilentMove(s, s', t, Match(empties, []), empties);
    }
  }

  lemma SwingTakesFront(s: State, t: nat)
    requires Inv(s) && t < |s.threads| && s.threads[t].pc.DeqSwing? && s.head == s.threads[t].pc.head.addr
    ensures var s', pc := StepDequeue(s, t), s.threads[t].pc;
            && HeadPos(s') == HeadPos(s) + 1 < |s.chain| && s'.chain == s.chain
            && s.chain[HeadPos(s) + 1].item == pc.item
            && s'.threads == s.threads[t := s.threads[t].(pc := DeqRetire(Exit(pc.head, pc.succ.addr, pc.item), 0))]
  {
    assert ThreadOk(s, t);
    Held(s, t, 0);
    Held(s, t, 1);
    SwingShape(s, t);
    SwingMemory(s, StepDequeue(s, t), t, s.threads[t].pc.succ);
  }

  lemma SwingShape(s: State, t: nat)
    requires t < |s.threads| && s.threads[t].pc.DeqSwing? && s.head == s.threads[t].pc.head.addr
    requires s.head in s.heap && HeadPos(s) == s.threads[t].pc.head.pos
    ensures var s', pc := StepDequeue(s, t), s.threads[t].pc;
            && s'.head == pc.succ.addr && s'.heap == s.heap[s.head := s.heap[s.head].(keeper := t)]
            && s'.chain == s.chain && s'.tail == s.tail
            && s'.threads == s.threads[t := s.threads[t].(pc := DeqRetire(Exit(pc.head, pc.succ.addr, pc.item), 0))]
  {
  }

  /** A successful swap of queue->head takes the front item off and is what will be returned. */
  lemma SwingMatches(s: State, t: nat, empties: set<nat>)
    requires Inv(s) && t < |s.threads| && s.threads[t].pc.DeqSwing? && s.head == s.threads[t].pc.head.addr
    requires EndsOk(StepDequeue(s, t))
    ensures Matches(s, Match(empties, [Apply(t)]), [], StepDequeue(s, t), empties)
  {
    SwingTakesFront(s, t);
    DequeueMove(s, StepDequeue(s, t), t, empties, s.threads[t].pc.item);
  }

  lemma RevalidateShape(s: State, t: nat, empties: set<nat>) returns (w: Match)
    requires t < |s.threads| && s.threads[t].pc.DeqRevalidate?
    ensures var s' := StepDequeue(s, t);
            && s'.chain == s.chain && s'.heap == s.heap && s'.head == s.head
            && s'.threads == s.threads[t := s'.threads[t]]
            && StatusOf(s'.threads[t], t in empties) == StatusOf(s.threads[t], t in w.empties)
    ensures w.acts == [] && w.empties - {t} == empties - {t}
  {
    var pc := s.threads[t].pc;
    if pc.next == NO_ADDR && pc.head.addr == s.head {
      w := Match(empties + {t}, []);
    } else {
      w := Match(empties - {t}, []);
    }
  }

  /** Only now is it settled whether the null read counts. */
  lemma RevalidateMatches(s: State, t: nat, empties: set<nat>) returns (w: Match)
    requires MemoryOk(s) && t < |s.threads| && s.threads[t].pc.DeqRevalidate?
    requires EndsOk(StepDequeue(s, t))
    ensures Matches(s, w, [], StepDequeue(s, t), empties)
  {
    w := RevalidateShape(s, t, empties);
    SilentMove(s, StepDequeue(s, t), t, w, empties);
  }

  lemma DequeueReturnShape(s: State, t: nat)
    requires t < |s.threads| && (s.threads[t].pc.DeqReleaseAll? || s.threads[t].pc.DeqReleaseNext?)
    requires s.threads[t].pc.i + 1 >= SLOTS
    ensures var s' := StepDequeue(s, t);
            && s'.chain == s.chain && s'.heap == s.heap && s'.head == s.head
            && s'.threads == s.threads[t := s.threads[t].(pc := Idle)]
  {
  }

  lemma DequeueReturns(s: State, t: nat, empties: set<nat>)
    requires MemoryOk(s) && t < |s.threads| && (s.threads[t].pc.DeqReleaseAll? || s.threads[t].pc.DeqReleaseNext?)
    requires s.threads[t].pc.i + 1 >= SLOTS
    requires EndsOk(StepDequeue(s, t))
    ensures var pc := s.threads[t].pc;
            var result := if pc.DeqReleaseAll? then NO_ADDR else pc.exit.item;
            Matches(s, Match(empties, [Return(t)]), [Respond(t, result)], StepDequeue(s, t), empties)
  {
    var pc := s.threads[t].pc;
    DequeueReturnShape(s, t);
    ReturnMove(s, StepDequeue(s, t), t, empties, if pc.DeqReleaseAll? then NO_ADDR else pc.exit.item);
  }

  lemma MatchDequeue(s: State, m: Move, empties: set<nat>) returns (w: Match)
    requires Inv(s) && m.thread < |s.threads| && InDequeue(s.threads[m.thread].pc)
    requires EndsOk(StepDequeue(s, m.thread)) && StepDequeue(s, m.thread).fault == NoFault
    ensures Matches(s, w, Label(s, m), StepDequeue(s, m.thread), empties)
  {
    var t := m.thread;
    var pc := s.threads[t].pc;
    if pc.DeqReadNext? && pc.head.addr in s.heap && s.heap[pc.head.addr].next == NO_ADDR {
      w := Match(empties, if t in empties then [Apply(t)] else []);
      NullNextMatches(s, t, empties);
    } else if pc.DeqRevalidate? {
      w := RevalidateMatches(s, t, empties);
    } else if pc.DeqSwing? && s.head == pc.head.addr {
      w := Match(empties, [Apply(t)]);
      SwingMatches(s, t, empties);
    } else if (pc.DeqReleaseAll? || pc.DeqReleaseNext?) && pc.i + 1 >= SLOTS {
      w := Match(empties, [Return(t)]);
      DequeueReturns(s, t, empties);
    } else {
      w := Match(empties, []);
      DequeueSilentMatches(s, m, empties);
    }
  }

  lemma DequeueSilentMatches(s: State, m: Move, empties: set<nat>)
    requires MemoryOk(s) && m.thread < |s.threads|
    requires DequeueStaysSilent(s, m.thread) && EndsOk(StepDequeue(s, m.thread))
    ensures Matches(s, Match(empties, []), Label(s, m), StepDequeue(s, m.thread), empties)
  {
    DequeueSilent(s, m.thread);
    SilentMatches(s, StepDequeue(s, m.thread), m.thread, empties);
  }

  // ---------------------------------------------------------------- hazard pointers

  predicate Registering(pc: PC) { pc.RegWalk? || pc.RegRead? || pc.RegLink? }

  lemma RegisterSilent(s: State, t: nat)
    requires t < |s.threads| && RecordOk(s, t) && Registering(s.threads[t].pc)
    ensures Silent(s, StepScan(s, t), t)
  {
  }

  lemma ScanSilent(s: State, t: nat)
    requires t < |s.threads|
    requires var pc := s.threads[t].pc; !pc.Idle? && !InEnqueue(pc) && !InDequeue(pc) && !Registering(pc)
    ensures Silent(s, StepScan(s, t), t)
  {
  }

  lemma MatchScan(s: State, m: Move, empties: set<nat>)
    requires Inv(s) && m.thread < |s.threads|
    requires var pc := s.threads[m.thread].pc; !pc.Idle? && !InEnqueue(pc) && !InDequeue(pc)
    requires EndsOk(StepScan(s, m.thread))
    ensures Matches(s, Match(empties, []), Label(s, m), StepScan(s, m.thread), empties)
  {
    assert ThreadOk(s, m.thread);
    if Registering(s.threads[m.thread].pc) { RegisterSilent(s, m.thread); } else { ScanSilent(s, m.thread); }
    SilentMatches(s, StepScan(s, m.thread), m.thread, empties);
  }

  lemma MatchCall(s: State, m: Move, empties: set<nat>) returns (w: Match)
    requires MemoryOk(s) && m.thread < |s.threads| && s.threads[m.thread].pc.Idle? && s.fault == NoFault
    requires EndsOk(StepCall(s, m.thread, m.choice))
    ensures Matches(s, w, Label(s, m), StepCall(s, m.thread, m.choice), empties)
  {
    var s' := StepCall(s, m.thread, m.choice);
    CallShape(s, m);
    if Label(s, m) == [] {
      w := Match(empties, []);
      SilentMove(s, s', m.thread, w, empties);
    } else {
      var op := s'.threads[m.thread].op;
      w := Match(empties, [Call(m.thread, op)]);
      CallMove(s, s', m.thread, empties, op);
    }
  }

  lemma CallShape(s: State, m: Move)
    requires m.thread < |s.threads| && s.threads[m.thread].pc.Idle? && s.fault == NoFault && s.head in s.heap
    ensures var s', t := StepCall(s, m.thread, m.choice), m.thread;
            && s'.chain == s.chain && HeadPos(s') == HeadPos(s) && |s'.threads| == |s.threads|
            && (forall u :: 0 <= u < |s.threads| && u != t ==> s'.threads[u] == s.threads[u])
            && (if Label(s, m) == [] then s'.threads[t] == s.threads[t]
                else Label(s, m) == [Invoke(t, s'.threads[t].op)] &&
                     forall empty :: StatusOf(s'.threads[t], empty) == Called(s'.threads[t].op))
  {
  }

  lemma MatchMove(s: State, m: Move, empties: set<nat>) returns (w: Match)
    requires Inv(s)
    ensures EndsOk(Next(s, m)) && Matches(s, w, Label(s, m), Next(s, m), empties)
  {
    MoveKeeps(s, m);
    w := Match(empties, []);
    if m.thread < |s.threads| {
      var pc := s.threads[m.thread].pc;
      if pc.Idle? {
        w := MatchCall(s, m, empties);
      } else if InEnqueue(pc) {
        w := MatchEnqueue(s, m, empties);
      } else if InDequeue(pc) {
        w := MatchDequeue(s, m, empties);
      } else {
        MatchScan(s, m, empties);
      }
    }
  }

  // ---------------------------------------------------------------- all runs

  lemma ExtendAtomic(
    a: Fifo, acts: seq<Act>, h: seq<Event>, s: State, w: Match, l: seq<Event>, s': State, empties: set<nat>)
    requires EndsOk(s) && EndsOk(s') && Atomic(a, acts, h, Meaning(s, w.empties)) && Matches(s, w, l, s', empties)
    ensures Atomic(a, acts + w.acts, h + l, Meaning(s', empties))
  {
    if w.acts == [] {
      assert acts + w.acts == acts && h + l == h;
    } else {
      AtomicThen(a, acts, h, Meaning(s, w.empties), w.acts[0]);
      assert w.acts == [w.acts[0]];
    }
  }

  lemma RunEnds(n: nat, dummy: Addr, ms: seq<Move>)
    requires dummy != NO_ADDR
    ensures EndsOk(Exec(Init(n, dummy), ms))
  {
    RunOk(n, dummy, ms);
  }

  lemma MatchRun(n: nat, dummy: Addr, ms: seq<Move>, m: Move, empties: set<nat>) returns (w: Match)
    requires dummy != NO_ADDR
    ensures var s := Exec(Init(n, dummy), ms);
            EndsOk(s) && EndsOk(Next(s, m)) && Matches(s, w, Label(s, m), Next(s, m), empties)
  {
    RunOk(n, dummy, ms);
    w := MatchMove(Exec(Init(n, dummy), ms), m, empties);
  }

  /** The atomic run behind a concrete run, for any choice of threads found empty so far. */
  lemma {:induction false} Simulate(n: nat, dummy: Addr, ms: seq<Move>, empties: set<nat>) returns (acts: seq<Act>)
    requires dummy != NO_ADDR
    ensures var s := Exec(Init(n, dummy), ms);
            EndsOk(s) && Atomic(EmptyFifo(n), acts, History(Init(n, dummy), ms), Meaning(s, empties))
    decreases |ms|
  {
    RunEnds(n, dummy, ms);
    if ms == [] {
      acts := [];
      assert Meaning(Init(n, dummy), empties) == EmptyFifo(n);
    } else {
      var ms0, m := ms[..|ms| - 1], ms[|ms| - 1];
      var s := Exec(Init(n, dummy), ms0);
      var w := MatchRun(n, dummy, ms0, m, empties);
      var acts0 := Simulate(n, dummy, ms0, w.empties);
      acts := acts0 + w.acts;
      ExtendAtomic(EmptyFifo(n), acts0, History(Init(n, dummy), ms0), s, w, Label(s, m), Next(s, m), empties);
    }
  }

  /**
   Linearizability: whatever the number of threads, their calls, their interleaving and the
   addresses the allocator hands out again, the calls and returns are those of some run of
   the atomic FIFO queue.
   */
  lemma Linearizable(n: nat, dummy: Addr, ms: seq<Move>)
    requires dummy != NO_ADDR
    ensures exists acts, b :: Atomic(EmptyFifo(n), acts, History(Init(n, dummy), ms), b)
  {
    var acts := Simulate(n, dummy, ms, {});
  }
}
