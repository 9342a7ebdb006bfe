/**
 Iterator moves of data_structures/list.c one reference count at a time.

 Moves hold the list's read lock, which they share, so the atomic increments and decrements of
 several update_pos interleave; the release of an iterator's nodes when it is destroyed takes
 no lock at all.  Adding and removing hold the write lock, and are one step.
 */
module ListMoves {
  import opened Counting
  import opened ListIterators

  /** An update_pos to `node`, of whose six reference changes `made` have been made. */
  datatype Phase = Rest | Moving(node: Id, made: nat, locked: bool)

  /** `s.iters[k]` is what iterator k holds references to right now. */
  datatype Fine = Fine(s: State, phases: seq<Phase>)

  datatype FineOp = Write(op: Op) | Begin(op: Op) | Advance(k: nat)

  // ---------------------------------------------------------------- steps

  predicate IsWrite(op: Op) { op.AddAt? || op.RemoveAt? || op.RemoveAll? || op.RemoveCurrent? || op.NewIterator? }

  /** Nobody holds the read lock. */
  predicate Unlocked(f: Fine) { forall k :: 0 <= k < |f.phases| && f.phases[k].Moving? ==> !f.phases[k].locked }

  predicate AtRest(f: Fine, k: nat) { k < |f.phases| && k < |f.s.iters| && f.phases[k].Rest? }

  function DoWrite(f: Fine, op: Op): Fine {
    if op.NewIterator? then Fine(Step(f.s, op), f.phases + [Rest])
    else if !Unlocked(f) || (op.RemoveCurrent? && !AtRest(f, op.k)) then f
    else f.(s := Step(f.s, op))
  }

  /** Where a move of an iterator at position p leads. */
  function Target(s: State, p: Position, op: Op): Id {
    match op
    case MoveHead(_) => AtIndex(s.order, 0)
    case MoveTail(_) => AtIndex(s.order, |s.order| - 1)
    case MoveNext(_) => NextTarget(s, p)
    case MovePrev(_) => PrevTarget(s, p)
    case _ => NONE
  }

  predicate ReadsAlive(s: State, p: Position, op: Op) {
    && (op.MoveNext? ==> Readable(s, p, p.next))
    && (op.MovePrev? ==> Readable(s, p, p.prev))
  }

  function DoBegin(f: Fine, op: Op): Fine {
    if IsWrite(op) || !AtRest(f, op.k) then f
    else if !ReadsAlive(f.s, f.s.iters[op.k], op) then f.(s := f.s.(fault := true))
    else f.(phases := f.phases[op.k := Moving(Target(f.s, f.s.iters[op.k], op), 0, !op.Finalize?)])
  }

  /** The position with one more field released, or one more taken. */
  function Changed(order: seq<Id>, p: Position, node: Id, made: nat): Position {
    if made == 0 then p.(curr := NONE)
    else if made == 1 then p.(next := NONE)
    else if made == 2 then p.(prev := NONE)
    else if made == 3 then p.(curr := node)
    else if made == 4 then p.(next := Around(order, node).next)
    else p.(prev := Around(order, node).prev)
  }

  /** The reference count that changes with it. */
  function Counted1(s: State, p: Position, node: Id, made: nat): State {
    if made == 0 then Dec(s, p.curr)
    else if made == 1 then Dec(s, p.next)
    else if made == 2 then Dec(s, p.prev)
    else if node == NONE then s
    else if node !in s.order then s.(fault := true)
    else
      var pos := Around(s.order, node);
      Inc(s, if made == 3 then node else if made == 4 then pos.next else pos.prev)
  }

  function DoAdvance(f: Fine, k: nat): Fine {
    if k >= |f.phases| || k >= |f.s.iters| || f.phases[k].Rest? then f
    else
      var p, m := f.s.iters[k], f.phases[k];
      Fine(Counted1(f.s, p, m.node, m.made).(iters := f.s.iters[k := Changed(f.s.order, p, m.node, m.made)]),
           f.phases[k := if m.made >= 5 then Rest else m.(made := m.made + 1)])
  }

  function FineStep(f: Fine, op: FineOp): Fine {
    if f.s.fault then f
    else
      match op
      case Write(o) => if IsWrite(o) then DoWrite(f, o) else f
      case Begin(o) => DoBegin(f, o)
      case Advance(k) => DoAdvance(f, k)
  }

  const QUIET := Fine(EMPTY, [])

  function FineExec(ops: seq<FineOp>): Fine {
    if ops == [] then QUIET else FineStep(FineExec(ops[..|ops| - 1]), ops[|ops| - 1])
  }

  // ---------------------------------------------------------------- the invariant

  /** What iterator k holds in the middle of a move. */
  predicate PhaseOk(order: seq<Id>, p: Position, m: Phase) {
    m.Moving? ==>
      && (m.node != NONE ==> m.locked && m.node in order)
      && (1 <= m.made <= 3 ==> p.curr == NONE)
      && (2 <= m.made <= 4 ==> p.next == NONE)
      && (3 <= m.made ==> p.prev == NONE)
      && (4 <= m.made ==> p.curr == m.node)
      && (5 <= m.made ==> m.made == 5 && p.next == Around(order, m.node).next)
  }

  ghost predicate FineInv(f: Fine) {
    && Inv(f.s) && |f.phases| == |f.s.iters|
    && forall k :: 0 <= k < |f.phases| ==> PhaseOk(f.s.order, f.s.iters[k], f.phases[k])
  }

  lemma CountShape(s: State, p: Position, node: Id, made: nat)
    requires node != NONE ==> node in s.order
    ensures var s' := Counted1(s, p, node, made); s'.order == s.order && s'.iters == s.iters && s'.created == s.created
  {
    DecShape(s, p.curr, s.iters);
    DecShape(s, p.next, s.iters);
    DecShape(s, p.prev, s.iters);
    if node != NONE {
      var pos := Around(s.order, node);
      IncShape(s, node, s.iters);
      IncShape(s, pos.next, s.iters);
      IncShape(s, pos.prev, s.iters);
    }
  }

  /** One reference change and the field that goes with it keep every count exact. */
  lemma CountOk(s: State, k: nat, m: Phase)
    requires Inv(s) && k < |s.iters| && m.Moving? && PhaseOk(s.order, s.iters[k], m)
    ensures var p := s.iters[k];
            Inv(Counted1(s, p, m.node, m.made).(iters := s.iters[k := Changed(s.order, p, m.node, m.made)]))
  {
    var p := s.iters[k];
    var p' := Changed(s.order, p, m.node, m.made);
    if m.made <= 2 {
      DropOk(s, k, p', if m.made == 0 then p.curr else if m.made == 1 then p.next else p.prev);
    } else if m.node == NONE {
      assert p' == p && s.iters[k := p] == s.iters;
    } else {
      NeighboursLinked(s.order, m.node);
      var pos := Around(s.order, m.node);
      TakeOk(s, k, p', if m.made == 3 then m.node else if m.made == 4 then pos.next else pos.prev);
    }
  }

  lemma AdvanceKeeps(f: Fine, k: nat)
    requires FineInv(f) && k < |f.phases| && f.phases[k].Moving?
    ensures FineInv(DoAdvance(f, k)) && DoAdvance(f, k).s.order == f.s.order
  {
    CountShape(f.s, f.s.iters[k], f.phases[k].node, f.phases[k].made);
    CountOk(f.s, k, f.phases[k]);
    var f' := DoAdvance(f, k);
    forall j | 0 <= j < |f'.phases|
      ensures PhaseOk(f'.s.order, f'.s.iters[j], f'.phases[j])
    {
      assert PhaseOk(f.s.order, f.s.iters[j], f.phases[j]);
    }
  }

  lemma BeginKeeps(f: Fine, op: Op)
    requires FineInv(f) && !IsWrite(op) && AtRest(f, op.k)
    ensures FineInv(DoBegin(f, op)) && ReadsAlive(f.s, f.s.iters[op.k], op)
  {
    TargetsOk(f.s, op.k);
    var f' := DoBegin(f, op);
    forall j | 0 <= j < |f'.phases|
      ensures PhaseOk(f'.s.order, f'.s.iters[j], f'.phases[j])
    {
      assert PhaseOk(f.s.order, f.s.iters[j], f.phases[j]);
    }
  }

  /** What writing does to the list and to the iterators: nothing to the latter. */
  lemma WriteShape(s: State, op: Op)
    requires Inv(s) && IsWrite(op) && !op.NewIterator?
    ensures Step(s, op).iters == s.iters
  {
    match op
    case AddAt(at) =>
    case RemoveAt(at) => if at < |s.order| { RemoveOk(s, at); }
    case RemoveAll => RemoveEachOk(s);
    case RemoveCurrent(k) =>
      if k < |s.iters| {
        TargetsOk(s, k);
        if s.iters[k].curr in s.order { RemoveOk(s, IndexOf(s.order, s.iters[k].curr)); }
      }
  }

  lemma WriteKeeps(f: Fine, op: Op)
    requires FineInv(f) && IsWrite(op)
    ensures FineInv(DoWrite(f, op))
  {
    StepOk(f.s, op);
    if op.NewIterator? {
    } else if Unlocked(f) {
      WriteShape(f.s, op);
    }
    var f' := DoWrite(f, op);
    forall j | 0 <= j < |f'.phases|
      ensures PhaseOk(f'.s.order, f'.s.iters[j], f'.phases[j])
    {
      if j < |f.phases| { assert PhaseOk(f.s.order, f.s.iters[j], f.phases[j]); }
    }
  }

  lemma FineKeeps(f: Fine, op: FineOp)
    requires FineInv(f)
    ensures FineInv(FineStep(f, op))
  {
    match op
    case Write(o) => if IsWrite(o) { WriteKeeps(f, o); }
    case Begin(o) => if !IsWrite(o) && AtRest(f, o.k) { BeginKeeps(f, o); }
    case Advance(k) => if k < |f.phases| && f.phases[k].Moving? { AdvanceKeeps(f, k); }
  }

  lemma {:induction false} FineRunOk(ops: seq<FineOp>)
    ensures FineInv(FineExec(ops))
    decreases |ops|
  {
    if ops != [] {
      FineRunOk(ops[..|ops| - 1]);
      FineKeeps(FineExec(ops[..|ops| - 1]), ops[|ops| - 1]);
    }
  }

  // ---------------------------------------------------------------- for every interleaving

  /**
   In every interleaving a node's reference count plus one is one for the list if it is linked
   plus one for each reference an iterator holds at that moment; nothing linked or held is
   destroyed, and no destroyed node or stale link is touched.
   */
  lemma {:induction false} OwnershipExact(ops: seq<FineOp>, id: Id)
    ensures var s := FineExec(ops).s;
            && !s.fault
            && (id in s.nodes ==> s.nodes[id].refs + 1 == One(id in s.order) + HeldBy(s.iters, id))
            && (id in s.order || (id != NONE && HeldBy(s.iters, id) > 0) ==> id in s.nodes && id !in s.destroyed)
  {
    FineRunOk(ops);
    var s := FineExec(ops).s;
    if id != NONE { assert CountedAt(s, id); }
  }

  /** Each node ever created is either alive or has been destroyed exactly once. */
  lemma {:induction false} DestroyedExactlyOnce(ops: seq<FineOp>, id: Id)
    ensures var s := FineExec(ops).s;
            multiset(s.destroyed)[id] == if 0 <= id < s.created && id !in s.nodes then 1 else 0
  {
    FineRunOk(ops);
    DistinctCount(FineExec(ops).s.destroyed, id);
  }

  // ---------------------------------------------------------------- moves look atomic

  /** Where iterator k is, or will be once its move is over. */
  function Goal(order: seq<Id>, p: Position, m: Phase): Position {
    if m.Rest? then p else Around(order, m.node)
  }

  /** The atomic list that an interleaved one stands for: every move that has begun is over. */
  ghost predicate Stands(f: Fine, a: State) {
    && FineInv(f) && Inv(a)
    && a.order == f.s.order && a.created == f.s.created && |a.iters| == |f.s.iters|
    && forall k :: 0 <= k < |a.iters| ==> a.iters[k] == Goal(f.s.order, f.s.iters[k], f.phases[k])
  }

  /** An iterator at rest sees the same nodes in both, and so goes to the same one. */
  lemma SameTarget(s: State, a: State, k: nat, op: Op)
    requires Inv(s) && Inv(a) && a.order == s.order && k < |s.iters| && k < |a.iters| && a.iters[k] == s.iters[k]
    requires !IsWrite(op)
    ensures Target(a, a.iters[k], op) == Target(s, s.iters[k], op)
    ensures Target(a, a.iters[k], op) != NONE ==> Target(a, a.iters[k], op) in a.order
  {
    TargetsOk(s, k);
    TargetsOk(a, k);
    HeldValid(s, k);
    HeldValid(a, k);
  }

  /** A held node is valid exactly if it is linked. */
  lemma HeldValid(s: State, k: nat)
    requires Inv(s) && k < |s.iters|
    ensures forall id :: id != NONE && InPosition(s.iters[k], id) > 0 ==> (IsValid(s, id) <==> id in s.order)
  {
    forall id | id != NONE && InPosition(s.iters[k], id) > 0
      ensures IsValid(s, id) <==> id in s.order
    {
      HeldMember(s.iters, k, id);
      assert CountedAt(s, id);
    }
  }

  lemma AtomicMove(a: State, op: Op)
    requires Inv(a) && !IsWrite(op) && op.k < |a.iters|
    ensures var node := Target(a, a.iters[op.k], op);
            && Inv(Step(a, op)) && Step(a, op).order == a.order && Step(a, op).created == a.created
            && Step(a, op).iters == a.iters[op.k := Around(a.order, node)]
  {
    TargetsOk(a, op.k);
    StepOk(a, op);
    UpdatePosOk(a, op.k, Target(a, a.iters[op.k], op));
  }

  lemma BeginStands(f: Fine, a: State, op: Op)
    requires Stands(f, a) && !IsWrite(op) && AtRest(f, op.k)
    ensures Stands(DoBegin(f, op), Step(a, op))
  {
    BeginKeeps(f, op);
    SameTarget(f.s, a, op.k, op);
    AtomicMove(a, op);
  }

  lemma AdvanceStands(f: Fine, a: State, k: nat)
    requires Stands(f, a) && k < |f.phases| && f.phases[k].Moving?
    ensures Stands(DoAdvance(f, k), a)
  {
    AdvanceKeeps(f, k);
    CountShape(f.s, f.s.iters[k], f.phases[k].node, f.phases[k].made);
  }

  /** Writing does the same to two lists that agree. */
  lemma SameWrite(s: State, a: State, op: Op)
    requires Inv(s) && Inv(a) && a.order == s.order && a.created == s.created && IsWrite(op)
    requires op.RemoveCurrent? ==> op.k < |s.iters| && op.k < |a.iters| && a.iters[op.k] == s.iters[op.k]
    ensures Step(a, op).order == Step(s, op).order && Step(a, op).created == Step(s, op).created
  {
    match op
    case AddAt(at) =>
    case NewIterator =>
    case RemoveAt(at) => if at < |s.order| { RemoveOk(s, at); RemoveOk(a, at); }
    case RemoveAll =>
      RemoveEachOk(s);
      RemoveEachOk(a);
    case RemoveCurrent(k) =>
      TargetsOk(s, k);
      TargetsOk(a, k);
      HeldValid(s, k);
      HeldValid(a, k);
      if s.iters[k].curr in s.order {
        RemoveOk(s, IndexOf(s.order, s.iters[k].curr));
        RemoveOk(a, IndexOf(a.order, a.iters[k].curr));
      }
  }

  lemma WriteStands(f: Fine, a: State, op: Op)
    requires Stands(f, a) && IsWrite(op) && !op.NewIterator? && Unlocked(f) && (op.RemoveCurrent? ==> AtRest(f, op.k))
    ensures Stands(DoWrite(f, op), Step(a, op))
  {
    WriteKeeps(f, op);
    StepOk(a, op);
    SameWrite(f.s, a, op);
    WriteShape(f.s, op);
    WriteShape(a, op);
    forall k | 0 <= k < |a.iters|
      ensures a.iters[k] == Goal(Step(f.s, op).order, f.s.iters[k], f.phases[k])
    {
      assert PhaseOk(f.s.order, f.s.iters[k], f.phases[k]);
    }
  }

  /** The operation takes place: the lock it needs is free, and its iterator is not in a move. */
  predicate Accepts(f: Fine, op: FineOp) {
    match op
    case Write(o) => IsWrite(o) && (o.NewIterator? || (Unlocked(f) && (o.RemoveCurrent? ==> AtRest(f, o.k))))
    case Begin(o) => !IsWrite(o) && AtRest(f, o.k)
    case Advance(_) => false
  }

  /** The operations of an interleaving that take place, in the order they begin. */
  function Accepted(ops: seq<FineOp>): seq<Op> {
    if ops == [] then []
    else
      var n := |ops| - 1;
      Accepted(ops[..n]) + (if Accepts(FineExec(ops[..n]), ops[n]) then [ops[n].op] else [])
  }

  lemma FineStands(f: Fine, a: State, op: FineOp)
    requires Stands(f, a)
    ensures Stands(FineStep(f, op), if Accepts(f, op) then Step(a, op.op) else a)
  {
    match op
    case Write(o) =>
      if o.NewIterator? {
        WriteKeeps(f, o);
        StepOk(a, o);
      } else if Accepts(f, op) {
        WriteStands(f, a, o);
      }
    case Begin(o) => if Accepts(f, op) { BeginStands(f, a, o); }
    case Advance(k) => if k < |f.phases| && f.phases[k].Moving? { AdvanceStands(f, a, k); }
  }

  /**
   Every interleaving stands for the run in which exactly its operations that take place are
   done, each in one step when it begins: same list, and every iterator at rest in the same
   position.
   */
  lemma {:induction false} MovesAreAtomic(ops: seq<FineOp>)
    ensures Stands(FineExec(ops), Exec(EMPTY, Accepted(ops)))
    decreases |ops|
  {
    if ops != [] {
      var n := |ops| - 1;
      MovesAreAtomic(ops[..n]);
      FineStands(FineExec(ops[..n]), Exec(EMPTY, Accepted(ops[..n])), ops[n]);
      AcceptedOneMore(ops);
    }
  }

  lemma AcceptedOneMore(ops: seq<FineOp>)
    requires ops != []
    ensures var n := |ops| - 1;
            var f, a := FineExec(ops[..n]), Exec(EMPTY, Accepted(ops[..n]));
            && FineExec(ops) == FineStep(f, ops[n])
            && Exec(EMPTY, Accepted(ops)) == if Accepts(f, ops[n]) then Step(a, ops[n].op) else a
  {
    var n := |ops| - 1;
    var before := Accepted(ops[..n]);
    if Accepts(FineExec(ops[..n]), ops[n]) {
      assert (before + [ops[n].op])[..|before|] == before;
    } else {
      assert before + [] == before;
    }
  }

  /**
   And every move returns the same node in both.  So what is proved of what atomic moves visit
   holds of real ones.
   */
  lemma {:induction false} MovesReturnSame(ops: seq<FineOp>, op: Op)
    requires Accepts(FineExec(ops), Begin(op))
    ensures Accepted(ops + [Begin(op)]) == Accepted(ops) + [op]
    ensures var f, a := FineExec(ops), Exec(EMPTY, Accepted(ops) + [op]);
            op.k < |a.iters| && a.iters[op.k].curr == Target(f.s, f.s.iters[op.k], op)
  {
    MovesAreAtomic(ops);
    var f, a := FineExec(ops), Exec(EMPTY, Accepted(ops));
    assert (ops + [Begin(op)])[..|ops|] == ops;
    assert (Accepted(ops) + [op])[..|Accepted(ops)|] == Accepted(ops);
    SameTarget(f.s, a, op.k, op);
    AtomicMove(a, op);
  }
}
