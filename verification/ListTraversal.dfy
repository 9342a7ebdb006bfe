/**
 One pass of an iterator over a list from which elements are removed meanwhile
 (data_structures/list.c), by `next` or by `prev`.
 */
module ListTraversal {
  import opened ListIterators

  /** The direction of the pass. */
  datatype Way = Forth | Back

  function Reversed(s: seq<Id>): (r: seq<Id>)
    ensures |r| == |s| && forall i :: 0 <= i < |s| ==> r[i] == s[|s| - 1 - i]
  {
    seq(|s|, i requires 0 <= i < |s| => s[|s| - 1 - i])
  }

  /** The list as the pass meets it, and a position as the pass faces it. */
  function Along(w: Way, s: seq<Id>): seq<Id> { if w.Forth? then s else Reversed(s) }

  function Facing(w: Way, p: Position): Position { if w.Forth? then p else Position(p.next, p.curr, p.prev) }

  function MoveOf(w: Way, k: nat): Op { if w.Forth? then MoveNext(k) else MovePrev(k) }

  /** The pass so far: the nodes the moves returned, in order, and whether one has returned NULL. */
  datatype Pass = Pass(s: State, visited: seq<Id>, over: bool)

  /** Anything may happen between two moves of iterator k but an insertion or another move of k. */
  predicate Allowed(w: Way, op: Op, k: nat) {
    match op
    case AddAt(_) => false
    case MoveHead(j) => j != k
    case MoveTail(j) => j != k
    case MoveNext(j) => j != k || w.Forth?
    case MovePrev(j) => j != k || w.Back?
    case Finalize(j) => j != k
    case _ => true
  }

  function Advance(w: Way, p: Pass, k: nat, op: Op): Pass
    requires k < |p.s.iters|
  {
    if p.over then p
    else
      var s := Step(p.s, op);
      if op != MoveOf(w, k) || k >= |s.iters| then p.(s := s)
      else if s.iters[k].curr == NONE then Pass(s, p.visited, true)
      else Pass(s, p.visited + [s.iters[k].curr], false)
  }

  function Traverse(w: Way, s: State, k: nat, ops: seq<Op>): Pass
    requires k < |s.iters|
  {
    if ops == [] then Pass(s, [], false)
    else
      var p := Traverse(w, s, k, ops[..|ops| - 1]);
      if k < |p.s.iters| then Advance(w, p, k, ops[|ops| - 1]) else p
  }

  // ---------------------------------------------------------------- original order

  /** A node's place on the way, as it was when the pass began. */
  function Rank(o: seq<Id>, id: Id): int { IndexOf(o, id) }

  predicate Increasing(o: seq<Id>, ids: seq<Id>) {
    && (forall i :: 0 <= i < |ids| ==> ids[i] in o)
    && (forall i, j :: 0 <= i < j < |ids| ==> Rank(o, ids[i]) < Rank(o, ids[j]))
  }

  /** Nothing on the way stands between `from` and `to`; with no `to`, nothing beyond `from`. */
  predicate Adjacent(o: seq<Id>, path: seq<Id>, from: Id, to: Id) {
    if to == NONE then forall x :: x in path ==> Rank(o, x) <= Rank(o, from)
    else
      && to in o && Rank(o, from) < Rank(o, to)
      && forall x :: x in path ==> Rank(o, x) <= Rank(o, from) || Rank(o, to) <= Rank(o, x)
  }

  /** Survivors up to and including `id` have been visited. */
  predicate CaughtUp(o: seq<Id>, path: seq<Id>, visited: seq<Id>, id: Id) {
    forall x :: x in path && Rank(o, x) <= Rank(o, id) ==> x in visited
  }

  ghost predicate Tracking(o: seq<Id>, path: seq<Id>, visited: seq<Id>, pos: Position) {
    && Increasing(o, path) && Increasing(o, visited)
    && (visited == [] ==> pos.curr == NONE)
    && (visited != [] ==>
          && pos.curr == visited[|visited| - 1] && pos.curr != NONE
          && Adjacent(o, path, pos.curr, pos.next)
          && CaughtUp(o, path, visited, pos.curr))
  }

  ghost predicate PassInv(w: Way, o: seq<Id>, k: nat, p: Pass) {
    && Inv(p.s) && k < |p.s.iters|
    && Increasing(o, Along(w, p.s.order)) && Increasing(o, p.visited)
    && (!p.over ==> Tracking(o, Along(w, p.s.order), p.visited, Facing(w, p.s.iters[k])))
  }

  lemma IndexIs(o: seq<Id>, i: nat)
    requires Distinct(o) && i < |o|
    ensures IndexOf(o, o[i]) == i
  {
  }

  lemma SelfIncreasing(o: seq<Id>)
    requires Distinct(o)
    ensures Increasing(o, o)
  {
    forall i | 0 <= i < |o|
      ensures Rank(o, o[i]) == i
    {
      IndexIs(o, i);
    }
  }

  /** Both ways meet the same nodes, each once. */
  lemma AlongOk(w: Way, s: seq<Id>)
    ensures |Along(w, s)| == |s| && (Distinct(s) ==> Distinct(Along(w, s)))
    ensures forall x :: x in Along(w, s) <==> x in s
  {
    forall x | x in s
      ensures x in Along(w, s)
    {
      var i :| 0 <= i < |s| && s[i] == x;
      assert w.Back? ==> Along(w, s)[|s| - 1 - i] == x;
    }
  }

  lemma ReversedIndex(s: seq<Id>, id: Id)
    requires Distinct(s) && id in s
    ensures IndexOf(Reversed(s), id) == |s| - 1 - IndexOf(s, id)
  {
    var i := IndexOf(s, id);
    AlongOk(Back, s);
    IndexIs(Reversed(s), |s| - 1 - i);
  }

  /** Removing elements from the list keeps everything the pass relies on. */
  lemma FewerTracked(o: seq<Id>, path: seq<Id>, path': seq<Id>, visited: seq<Id>, pos: Position)
    requires Tracking(o, path, visited, pos)
    requires Increasing(o, path') && forall x :: x in path' ==> x in path
    ensures Tracking(o, path', visited, pos)
  {
  }

  lemma WithoutIncreasing(w: Way, o: seq<Id>, s: seq<Id>, at: nat)
    requires Increasing(o, Along(w, s)) && at < |s|
    ensures var rest := Along(w, s[..at] + s[at + 1..]);
            Increasing(o, rest) && forall x :: x in rest ==> x in Along(w, s)
  {
    var path, rest := Along(w, s), Along(w, s[..at] + s[at + 1..]);
    var gap := if w.Forth? then at else |s| - 1 - at;
    forall i | 0 <= i < |rest|
      ensures rest[i] == path[if i < gap then i else i + 1]
    {
    }
  }

  /** A node's successor on the way is adjacent to it. */
  lemma SuccessorAdjacent(o: seq<Id>, path: seq<Id>, i: nat)
    requires Increasing(o, path) && Distinct(path) && i < |path| && NONE !in path
    ensures Adjacent(o, path, path[i], NextOf(path, path[i]))
  {
    IndexIs(path, i);
    forall x | x in path
      ensures Rank(o, x) <= Rank(o, path[i]) || (i + 1 < |path| && Rank(o, path[i + 1]) <= Rank(o, x))
    {
      var j :| 0 <= j < |path| && path[j] == x;
    }
    if i + 1 < |path| { assert path[i + 1] in path; }
  }

  // ---------------------------------------------------------------- where a move goes

  /** Where a move from a position goes, told by the way alone. */
  function Goes(path: seq<Id>, pos: Position): Id {
    if path == [] then NONE
    else if pos.curr == NONE then path[0]
    else if pos.curr in path then NextOf(path, pos.curr)
    else if pos.next in path then pos.next
    else NONE
  }

  lemma PrevIsNext(order: seq<Id>, id: Id)
    requires Distinct(order) && id in order
    ensures PrevOf(order, id) == NextOf(Reversed(order), id)
  {
    ReversedIndex(order, id);
  }

  lemma NextIsPrev(order: seq<Id>, id: Id)
    requires Distinct(order) && id in order
    ensures NextOf(order, id) == PrevOf(Reversed(order), id)
  {
    ReversedIndex(order, id);
  }

  lemma AroundFacing(w: Way, order: seq<Id>, node: Id)
    requires Distinct(order) && (node != NONE ==> node in order)
    ensures Facing(w, Around(order, node)) == Around(Along(w, order), node)
  {
    if w.Back? && node != NONE {
      PrevIsNext(order, node);
      NextIsPrev(order, node);
    }
  }

  /** What a position holds is valid exactly if it is linked. */
  lemma HeldLinked(s: State, k: nat, id: Id)
    requires Inv(s) && k < |s.iters| && id != NONE && InPosition(s.iters[k], id) > 0
    ensures id in s.nodes && (IsValid(s, id) <==> id in s.order)
  {
    HeldMember(s.iters, k, id);
    assert CountedAt(s, id);
  }

  /** A move of the source goes there: the iterator then stands on that node, between its neighbours. */
  lemma MoveGoes(w: Way, s: State, k: nat)
    requires Inv(s) && k < |s.iters|
    ensures var s', t := Step(s, MoveOf(w, k)), Goes(Along(w, s.order), Facing(w, s.iters[k]));
            && Inv(s') && s'.order == s.order && |s'.iters| == |s.iters| && (t != NONE ==> t in s.order)
            && s'.iters[k].curr == t && Facing(w, s'.iters[k]) == Around(Along(w, s.order), t)
  {
    var t := Goes(Along(w, s.order), Facing(w, s.iters[k]));
    TargetsOk(s, k);
    AlongOk(w, s.order);
    GoesTo(w, s, k);
    UpdatePosOk(s, k, t);
    AroundFacing(w, s.order, t);
  }

  lemma GoesTo(w: Way, s: State, k: nat)
    requires Inv(s) && k < |s.iters|
    ensures var t := Goes(Along(w, s.order), Facing(w, s.iters[k]));
            t == if w.Forth? then NextTarget(s, s.iters[k]) else PrevTarget(s, s.iters[k])
  {
    var p := s.iters[k];
    AlongOk(w, s.order);
    assert NONE !in s.order;
    if p.curr != NONE {
      HeldLinked(s, k, p.curr);
      if p.curr in s.order && w.Back? { PrevIsNext(s.order, p.curr); }
    }
    if p.next != NONE { HeldLinked(s, k, p.next); }
    if p.prev != NONE { HeldLinked(s, k, p.prev); }
  }

  // ---------------------------------------------------------------- what a move returns

  /** A survivor the pass has not reached yet. */
  predicate Pending(p: Pass, x: Id) { x in p.s.order && x !in p.visited }

  /** Both the node the iterator stands on and the neighbour ahead it recorded have been removed. */
  predicate Cut(w: Way, p: Pass, k: nat)
    requires k < |p.s.iters|
  {
    var pos := p.s.iters[k];
    pos.curr != NONE && pos.curr !in p.s.order && (if w.Forth? then pos.next else pos.prev) !in p.s.order
  }

  /** Where a move goes: the first survivor on the way not visited yet, or nowhere. */
  lemma GoesFirstPending(o: seq<Id>, path: seq<Id>, visited: seq<Id>, pos: Position)
    requires Tracking(o, path, visited, pos) && Distinct(path) && NONE !in path
    ensures var t := Goes(path, pos);
            && (t == NONE <==> (forall x :: x in path ==> x in visited)
                               || (pos.curr != NONE && pos.curr !in path && pos.next !in path))
            && (t != NONE ==> t in path && t !in visited)
            && (t != NONE ==> forall x :: x in path && x !in visited ==> Rank(o, t) <= Rank(o, x))
            && (t != NONE && visited != [] ==> Rank(o, visited[|visited| - 1]) < Rank(o, t))
  {
    if path != [] {
      assert path[0] in path;
      if pos.curr == NONE {
        forall x | x in path
          ensures Rank(o, path[0]) <= Rank(o, x)
        {
          var j :| 0 <= j < |path| && path[j] == x;
        }
      } else {
        var to := if pos.curr in path then NextOf(path, pos.curr) else pos.next;
        if pos.curr in path { SuccessorAdjacent(o, path, IndexOf(path, pos.curr)); }
        assert Adjacent(o, path, pos.curr, to);
        UnvisitedBeyond(o, visited);
      }
    }
  }

  /** A node ranked beyond the last visited one has not been visited. */
  lemma UnvisitedBeyond(o: seq<Id>, visited: seq<Id>)
    requires Increasing(o, visited) && visited != []
    ensures forall x :: x in visited ==> Rank(o, x) <= Rank(o, visited[|visited| - 1])
  {
    forall x | x in visited
      ensures Rank(o, x) <= Rank(o, visited[|visited| - 1])
    {
      var i :| 0 <= i < |visited| && visited[i] == x;
    }
  }

  // ---------------------------------------------------------------- one step of a pass

  /** Visiting the first survivor ahead keeps everything the pass relies on. */
  lemma VisitTracked(o: seq<Id>, path: seq<Id>, visited: seq<Id>, pos: Position, t: Id)
    requires Tracking(o, path, visited, pos) && Distinct(path) && NONE !in path && t in path
    requires visited != [] ==> Rank(o, visited[|visited| - 1]) < Rank(o, t)
    requires forall x :: x in path && x !in visited ==> Rank(o, t) <= Rank(o, x)
    ensures Tracking(o, path, visited + [t], Around(path, t))
  {
    SuccessorAdjacent(o, path, IndexOf(path, t));
    if visited != [] { UnvisitedBeyond(o, visited); }
    SameRank(o);
  }

  lemma SameRank(o: seq<Id>)
    ensures forall x, y :: x in o && y in o && Rank(o, x) == Rank(o, y) ==> x == y
  {
  }

  /** What a move does to a pass. */
  lemma MoveResult(w: Way, k: nat, p: Pass)
    requires Inv(p.s) && k < |p.s.iters| && !p.over
    ensures var path, t := Along(w, p.s.order), Goes(Along(w, p.s.order), Facing(w, p.s.iters[k]));
            var p' := Advance(w, p, k, MoveOf(w, k));
            && Inv(p'.s) && k < |p'.s.iters| && p'.s.order == p.s.order && p'.over == (t == NONE)
            && p'.visited == p.visited + (if t == NONE then [] else [t])
            && Facing(w, p'.s.iters[k]) == Around(path, t) && (t != NONE ==> t in p.s.order)
  {
    MoveGoes(w, p.s, k);
  }

  lemma MoveTracked(w: Way, o: seq<Id>, k: nat, p: Pass)
    requires PassInv(w, o, k, p) && !p.over
    ensures PassInv(w, o, k, Advance(w, p, k, MoveOf(w, k)))
    ensures var t := Goes(Along(w, p.s.order), Facing(w, p.s.iters[k]));
            var p' := Advance(w, p, k, MoveOf(w, k));
            && p'.s.order == p.s.order && p'.over == (t == NONE)
            && p'.visited == p.visited + (if t == NONE then [] else [t])
  {
    MoveResult(w, k, p);
    MoveSettles(w, o, k, p, Advance(w, p, k, MoveOf(w, k)));
  }

  lemma MoveSettles(w: Way, o: seq<Id>, k: nat, p: Pass, p': Pass)
    requires PassInv(w, o, k, p) && !p.over && Inv(p'.s) && k < |p'.s.iters| && p'.s.order == p.s.order
    requires var path, t := Along(w, p.s.order), Goes(Along(w, p.s.order), Facing(w, p.s.iters[k]));
             && p'.over == (t == NONE) && p'.visited == p.visited + (if t == NONE then [] else [t])
             && Facing(w, p'.s.iters[k]) == Around(path, t)
    ensures PassInv(w, o, k, p')
  {
    var path, pos := Along(w, p.s.order), Facing(w, p.s.iters[k]);
    AlongOk(w, p.s.order);
    assert NONE !in p.s.order;
    GoesFirstPending(o, path, p.visited, pos);
    if Goes(path, pos) != NONE {
      VisitTracked(o, path, p.visited, pos, Goes(path, pos));
    } else {
      assert p'.visited == p.visited;
    }
  }

  predicate Removes(op: Op) { op.RemoveAt? || op.RemoveAll? || op.RemoveCurrent? }

  /** Other iterators' moves leave the list and this iterator's position alone. */
  lemma OthersEffect(w: Way, s: State, k: nat, op: Op)
    requires Inv(s) && k < |s.iters| && Allowed(w, op, k) && op != MoveOf(w, k) && !Removes(op)
    ensures var s' := Step(s, op); s'.order == s.order && k < |s'.iters| && s'.iters[k] == s.iters[k]
  {
    match op
    case NewIterator =>
    case MoveHead(j) => if j < |s.iters| { UpdatePosOk(s, j, AtIndex(s.order, 0)); }
    case MoveTail(j) => if j < |s.iters| { UpdatePosOk(s, j, AtIndex(s.order, |s.order| - 1)); }
    case MoveNext(j) => if j < |s.iters| { TargetsOk(s, j); UpdatePosOk(s, j, NextTarget(s, s.iters[j])); }
    case MovePrev(j) => if j < |s.iters| { TargetsOk(s, j); UpdatePosOk(s, j, PrevTarget(s, s.iters[j])); }
    case Finalize(j) => if j < |s.iters| { UpdatePosOk(s, j, NONE); }
  }

  /** Removals leave a subsequence of the list, and every iterator where it is. */
  lemma RemovalEffect(w: Way, o: seq<Id>, s: State, op: Op)
    requires Inv(s) && Removes(op) && Increasing(o, Along(w, s.order))
    ensures var s' := Step(s, op);
            && s'.iters == s.iters
            && Increasing(o, Along(w, s'.order)) && forall x :: x in Along(w, s'.order) ==> x in Along(w, s.order)
  {
    match op
    case RemoveAt(at) => if at < |s.order| { RemoveOk(s, at); WithoutIncreasing(w, o, s.order, at); }
    case RemoveAll =>
      RemoveEachOk(s);
      AlongOk(w, []);
    case RemoveCurrent(j) =>
      RemoveCurrentShape(s, j);
      if j < |s.iters| && s.iters[j].curr in s.order {
        var at := IndexOf(s.order, s.iters[j].curr);
        RemoveOk(s, at);
        WithoutIncreasing(w, o, s.order, at);
      }
  }

  lemma RemoveCurrentShape(s: State, j: nat)
    requires Inv(s)
    ensures Step(s, RemoveCurrent(j)) ==
            if j < |s.iters| && s.iters[j].curr in s.order then Remove(s, IndexOf(s.order, s.iters[j].curr)) else s
  {
    if j < |s.iters| { TargetsOk(s, j); }
  }

  lemma AdvanceTracked(w: Way, o: seq<Id>, k: nat, p: Pass, op: Op)
    requires PassInv(w, o, k, p) && Allowed(w, op, k)
    ensures PassInv(w, o, k, Advance(w, p, k, op))
  {
    if p.over {
    } else if op == MoveOf(w, k) {
      MoveTracked(w, o, k, p);
    } else {
      StepOk(p.s, op);
      if Removes(op) { RemovalEffect(w, o, p.s, op); } else { OthersEffect(w, p.s, k, op); }
      FewerTracked(o, Along(w, p.s.order), Along(w, Step(p.s, op).order), p.visited, Facing(w, p.s.iters[k]));
    }
  }

  /** The pass begins in any state a run can reach, with an iterator that stands nowhere. */
  ghost predicate Begins(s: State, k: nat) {
    Inv(s) && k < |s.iters| && s.iters[k] == Position(NONE, NONE, NONE)
  }

  lemma {:induction false} TraverseTracked(w: Way, s: State, k: nat, ops: seq<Op>)
    requires Begins(s, k) && forall i :: 0 <= i < |ops| ==> Allowed(w, ops[i], k)
    ensures PassInv(w, Along(w, s.order), k, Traverse(w, s, k, ops))
    decreases |ops|
  {
    if ops == [] {
      AlongOk(w, s.order);
      SelfIncreasing(Along(w, s.order));
    } else {
      TraverseTracked(w, s, k, ops[..|ops| - 1]);
      AdvanceTracked(w, Along(w, s.order), k, Traverse(w, s, k, ops[..|ops| - 1]), ops[|ops| - 1]);
    }
  }

  // ---------------------------------------------------------------- for every pass

  /** a comes before b in the list for a pass forth, and after it for a pass back. */
  predicate Ahead(w: Way, order: seq<Id>, a: Id, b: Id) {
    if w.Forth? then IndexOf(order, a) < IndexOf(order, b) else IndexOf(order, b) < IndexOf(order, a)
  }

  lemma AheadIsRank(w: Way, order: seq<Id>, a: Id, b: Id)
    requires Distinct(order) && a in order && b in order
    ensures Ahead(w, order, a, b) <==> Rank(Along(w, order), a) < Rank(Along(w, order), b)
    ensures Rank(Along(w, order), a) == Rank(Along(w, order), b) <==> a == b
  {
    if w.Back? {
      ReversedIndex(order, a);
      ReversedIndex(order, b);
    }
  }

  /**
   Whatever is removed meanwhile, a pass forth visits nodes in the order the list had when it
   began, a pass back in the opposite order, so none twice; and until it ends it has passed over
   no survivor.
   */
  lemma {:induction false} VisitsInOriginalOrder(w: Way, s: State, k: nat, ops: seq<Op>)
    requires Begins(s, k) && forall i :: 0 <= i < |ops| ==> Allowed(w, ops[i], k)
    ensures var p := Traverse(w, s, k, ops);
            && (forall i :: 0 <= i < |p.visited| ==> p.visited[i] in s.order)
            && (forall i, j :: 0 <= i < j < |p.visited| ==> Ahead(w, s.order, p.visited[i], p.visited[j]))
            && (!p.over && p.visited != [] ==> forall x :: x in p.s.order ==>
                  x in s.order && (x in p.visited <==> !Ahead(w, s.order, p.visited[|p.visited| - 1], x)))
  {
    TraverseTracked(w, s, k, ops);
    var p := Traverse(w, s, k, ops);
    AlongOk(w, s.order);
    VisitedAhead(w, s.order, p.visited);
    if !p.over && p.visited != [] {
      SurvivorsReached(w, s.order, p.s.order, p.visited, Facing(w, p.s.iters[k]));
    }
  }

  lemma VisitedAhead(w: Way, order: seq<Id>, visited: seq<Id>)
    requires Distinct(order) && Increasing(Along(w, order), visited)
    ensures forall i :: 0 <= i < |visited| ==> visited[i] in order
    ensures forall i, j :: 0 <= i < j < |visited| ==> Ahead(w, order, visited[i], visited[j])
  {
    AlongOk(w, order);
    forall i, j | 0 <= i < j < |visited|
      ensures Ahead(w, order, visited[i], visited[j])
    {
      AheadIsRank(w, order, visited[i], visited[j]);
    }
  }

  lemma SurvivorsReached(w: Way, order: seq<Id>, now: seq<Id>, visited: seq<Id>, pos: Position)
    requires Distinct(order) && visited != [] && Tracking(Along(w, order), Along(w, now), visited, pos)
    ensures forall x :: x in now ==>
              x in order && (x in visited <==> !Ahead(w, order, visited[|visited| - 1], x))
  {
    var last := visited[|visited| - 1];
    AlongOk(w, order);
    AlongOk(w, now);
    VisitedIffReached(Along(w, order), Along(w, now), visited, pos);
    forall x | x in now
      ensures x in order && (x in visited <==> !Ahead(w, order, last, x))
    {
      assert x in Along(w, now);
      AheadIsRank(w, order, last, x);
    }
  }

  lemma VisitedIffReached(o: seq<Id>, path: seq<Id>, visited: seq<Id>, pos: Position)
    requires Tracking(o, path, visited, pos) && visited != []
    ensures forall x :: x in path ==> x in o && (x in visited <==> Rank(o, x) <= Rank(o, visited[|visited| - 1]))
  {
    UnvisitedBeyond(o, visited);
    forall x | x in path
      ensures x in o
    {
      var i :| 0 <= i < |path| && path[i] == x;
    }
  }

  /**
   At any point of a pass, a move returns the first survivor on its way that has not been
   visited; it ends the pass exactly if there is none, or if both the node the iterator stands on
   and the neighbour ahead that it recorded have been removed.
   */
  lemma {:induction false} MoveReturnsFirstPending(w: Way, s: State, k: nat, ops: seq<Op>)
    requires Begins(s, k) && (forall i :: 0 <= i < |ops| ==> Allowed(w, ops[i], k))
    requires !Traverse(w, s, k, ops).over
    ensures var p, p' := Traverse(w, s, k, ops), Traverse(w, s, k, ops + [MoveOf(w, k)]);
            && k < |p.s.iters|
            && (p'.over <==> (forall x :: x in p.s.order ==> x in p.visited) || Cut(w, p, k))
            && (p'.over ==> p'.visited == p.visited)
            && (!p'.over ==>
                  exists t :: Pending(p, t) && p'.visited == p.visited + [t] &&
                    forall x :: Pending(p, x) && x != t ==> Ahead(w, s.order, t, x))
  {
    TraverseTracked(w, s, k, ops);
    var p, o := Traverse(w, s, k, ops), Along(w, s.order);
    var path, pos := Along(w, p.s.order), Facing(w, p.s.iters[k]);
    AlongOk(w, s.order);
    AlongOk(w, p.s.order);
    assert NONE !in p.s.order;
    GoesFirstPending(o, path, p.visited, pos);
    MoveTracked(w, o, k, p);
    assert (ops + [MoveOf(w, k)])[..|ops|] == ops;
    var t := Goes(path, pos);
    if t != NONE {
      assert Pending(p, t);
      forall x | Pending(p, x) && x != t
        ensures Ahead(w, s.order, t, x)
      {
        assert x in path && t in path;
        AheadIsRank(w, s.order, t, x);
      }
    }
  }

  // ---------------------------------------------------------------- removing only the current node

  /** The list is changed by removing the node iterator k stands on, and not otherwise. */
  predicate RemovesCurrentOnly(w: Way, op: Op, k: nat) {
    Allowed(w, op, k) && !op.RemoveAt? && !op.RemoveAll? && (op.RemoveCurrent? ==> op.k == k)
  }

  /** The pass has visited the first so many nodes on its way, and everything beyond them is still linked. */
  ghost predicate Prefix(o: seq<Id>, p: Pass) {
    && |p.visited| <= |o| && p.visited == o[..|p.visited|]
    && (forall i :: |p.visited| <= i < |o| ==> o[i] in p.s.order)
    && (p.over ==> p.visited == o)
  }

  /** With everything beyond still linked, the first survivor not visited is the next node. */
  lemma FirstPendingIsNext(o: seq<Id>, path: seq<Id>, visited: seq<Id>, t: Id)
    requires Distinct(o) && |visited| <= |o| && visited == o[..|visited|]
    requires forall i :: |visited| <= i < |o| ==> o[i] in path
    requires t in o && t !in visited
    requires forall x :: x in path && x !in visited ==> Rank(o, t) <= Rank(o, x)
    ensures |visited| < |o| && visited + [t] == o[..|visited| + 1]
  {
    var n, i := |visited|, Rank(o, t);
    assert o[i] == t;
    assert forall j :: 0 <= j < n ==> visited[j] == o[j];
    IndexIs(o, n);
    assert o[n] in path && o[n] !in visited;
  }

  lemma MovePrefix(w: Way, o: seq<Id>, k: nat, p: Pass)
    requires PassInv(w, o, k, p) && Prefix(o, p) && Distinct(o) && !p.over
    ensures Prefix(o, Advance(w, p, k, MoveOf(w, k)))
  {
    var n, path, pos := |p.visited|, Along(w, p.s.order), Facing(w, p.s.iters[k]);
    var t := Goes(path, pos);
    AlongOk(w, p.s.order);
    assert NONE !in p.s.order;
    GoesFirstPending(o, path, p.visited, pos);
    MoveTracked(w, o, k, p);
    if t == NONE {
      if n < |o| {
        assert o[n] in path && o[n] !in p.visited;
        NotCut(o, path, p.visited, pos);
      }
      assert p.visited == o;
    } else {
      FirstPendingIsNext(o, path, p.visited, t);
    }
  }

  lemma NotCut(o: seq<Id>, path: seq<Id>, visited: seq<Id>, pos: Position)
    requires Tracking(o, path, visited, pos) && Distinct(o) && |visited| < |o| && visited == o[..|visited|]
    requires forall i :: |visited| <= i < |o| ==> o[i] in path
    ensures !(pos.curr != NONE && pos.curr !in path && pos.next !in path)
  {
    var n := |visited|;
    if n > 0 {
      IndexIs(o, n);
      IndexIs(o, n - 1);
      assert pos.curr == o[n - 1];
      assert o[n] in path && Rank(o, o[n]) > Rank(o, pos.curr);
      assert pos.next != NONE;
      assert o[Rank(o, pos.next)] == pos.next;
    }
  }

  lemma RemovePrefix(w: Way, o: seq<Id>, k: nat, p: Pass)
    requires PassInv(w, o, k, p) && Prefix(o, p) && Distinct(o) && !p.over && p.s.iters[k].curr in p.s.order
    ensures Prefix(o, p.(s := Remove(p.s, IndexOf(p.s.order, p.s.iters[k].curr))))
  {
    var at := IndexOf(p.s.order, p.s.iters[k].curr);
    RemoveOk(p.s, at);
    OrderWithout(p.s.order, at);
    assert NONE !in p.s.order;
    assert p.s.iters[k].curr == o[|p.visited| - 1];
  }

  lemma AdvancePrefix(w: Way, o: seq<Id>, k: nat, p: Pass, op: Op)
    requires PassInv(w, o, k, p) && Prefix(o, p) && Distinct(o) && RemovesCurrentOnly(w, op, k)
    ensures Prefix(o, Advance(w, p, k, op))
  {
    if p.over {
    } else if op == MoveOf(w, k) {
      MovePrefix(w, o, k, p);
    } else if op.RemoveCurrent? {
      RemoveCurrentShape(p.s, k);
      if p.s.iters[k].curr in p.s.order { RemovePrefix(w, o, k, p); }
    } else {
      OthersEffect(w, p.s, k, op);
    }
  }

  /**
   If nothing but current nodes is removed, the pass visits the original list from its start, or
   back from its end, node by node, and ends only when it has visited all of it.
   */
  lemma {:induction false} RemovingCurrentVisitsAll(w: Way, s: State, k: nat, ops: seq<Op>)
    requires Begins(s, k) && forall i :: 0 <= i < |ops| ==> RemovesCurrentOnly(w, ops[i], k)
    ensures var p, o := Traverse(w, s, k, ops), Along(w, s.order);
            && |p.visited| <= |o| && p.visited == o[..|p.visited|]
            && (p.over ==> p.visited == o)
            && Prefix(o, p)
    decreases |ops|
  {
    AlongOk(w, s.order);
    if ops != [] {
      var rest := ops[..|ops| - 1];
      RemovingCurrentVisitsAll(w, s, k, rest);
      TraverseTracked(w, s, k, rest);
      AdvancePrefix(w, Along(w, s.order), k, Traverse(w, s, k, rest), ops[|ops| - 1]);
    }
  }

  // ---------------------------------------------------------------- single operations

  /** The first and the last node, and nowhere: where head, tail and finalize put an iterator. */
  lemma EndsOfList(s: State, k: nat)
    requires Inv(s) && k < |s.iters|
    ensures var h, t, f := Step(s, MoveHead(k)), Step(s, MoveTail(k)), Step(s, Finalize(k));
            && |h.iters| == |t.iters| == |f.iters| == |s.iters| && h.order == t.order == f.order == s.order
            && (if s.order == [] then h.iters[k].curr == NONE && t.iters[k].curr == NONE
                else h.iters[k].curr == s.order[0] && t.iters[k].curr == s.order[|s.order| - 1])
            && f.iters[k] == Position(NONE, NONE, NONE)
  {
    UpdatePosOk(s, k, AtIndex(s.order, 0));
    UpdatePosOk(s, k, AtIndex(s.order, |s.order| - 1));
    UpdatePosOk(s, k, NONE);
  }

  /** On an unchanged list a move one way is undone by a move the other way, unless it ran off the end. */
  lemma MovesUndo(w: Way, s: State, k: nat)
    requires Inv(s) && k < |s.iters| && s.iters[k].curr in s.order
    requires k < |Step(s, MoveOf(w, k)).iters| && Step(s, MoveOf(w, k)).iters[k].curr != NONE
    ensures var s2 := Step(Step(s, MoveOf(w, k)), MoveOf(Opposite(w), k));
            k < |s2.iters| && s2.iters[k].curr == s.iters[k].curr
  {
    var back, s1 := Opposite(w), Step(s, MoveOf(w, k));
    AlongOk(w, s.order);
    AlongOk(back, s.order);
    MoveGoes(w, s, k);
    MoveGoes(back, s1, k);
    NeighbourOfNeighbour(w, s.order, s.iters[k].curr);
  }

  function Opposite(w: Way): Way { if w.Forth? then Back else Forth }

  lemma NeighbourOfNeighbour(w: Way, order: seq<Id>, id: Id)
    requires Distinct(order) && id in order && NONE !in order && NextOf(Along(w, order), id) != NONE
    ensures NextOf(Along(Opposite(w), order), NextOf(Along(w, order), id)) == id
  {
    if w.Forth? { PredecessorOfNext(order, id); } else { SuccessorOfPrevious(order, id); }
  }

  lemma PredecessorOfNext(order: seq<Id>, id: Id)
    requires Distinct(order) && id in order && NextOf(order, id) != NONE
    ensures NextOf(Reversed(order), NextOf(order, id)) == id
  {
    var i := IndexOf(order, id);
    IndexIs(order, i + 1);
    PrevIsNext(order, order[i + 1]);
  }

  lemma SuccessorOfPrevious(order: seq<Id>, id: Id)
    requires Distinct(order) && id in order && NextOf(Reversed(order), id) != NONE
    ensures NextOf(order, NextOf(Reversed(order), id)) == id
  {
    var i := IndexOf(order, id);
    PrevIsNext(order, id);
    IndexIs(order, i - 1);
  }

  /** Removing through an iterator takes out exactly the node it stands on; the others keep their order. */
  lemma RemoveCurrentRemoves(s: State, k: nat)
    requires Inv(s) && k < |s.iters| && s.iters[k].curr in s.order
    ensures var s', i := Step(s, RemoveCurrent(k)), IndexOf(s.order, s.iters[k].curr);
            s'.order == s.order[..i] + s.order[i + 1..] && s'.iters == s.iters && s.iters[k].curr !in s'.order
  {
    RemoveCurrentShape(s, k);
    RemoveOk(s, IndexOf(s.order, s.iters[k].curr));
    OrderWithout(s.order, IndexOf(s.order, s.iters[k].curr));
  }

  /** An added node is at its place, and taking it out again gives back the list. */
  lemma AddIsUndone(s: State, at: nat)
    requires Inv(s) && at <= |s.order|
    ensures var s1 := Step(s, AddAt(at));
            && |s1.order| == |s.order| + 1 && s1.order[at] !in s.order && s1.iters == s.iters
            && Step(s1, RemoveAt(at)).order == s.order
  {
    var s1 := Step(s, AddAt(at));
    AddOk(s, at);
    RemoveOk(s1, at);
    assert s.created !in s.order;
    assert s1.order[..at] + s1.order[at + 1..] == s.order;
  }

  // ---------------------------------------------------------------- the pass can be cut short

  /** Three nodes and an iterator. */
  lemma ThreeNodes() returns (s: State)
    ensures s == Exec(EMPTY, [AddAt(0), AddAt(1), AddAt(2), NewIterator])
    ensures Begins(s, 0) && s.order == [0, 1, 2]
  {
    var build := [AddAt(0), AddAt(1), AddAt(2), NewIterator];
    RunOk(build);
    assert build[..3] == [AddAt(0), AddAt(1), AddAt(2)];
    assert build[..3][..2] == [AddAt(0), AddAt(1)];
    assert build[..3][..2][..1] == [AddAt(0)];
    s := Exec(EMPTY, build);
    var s1 := Step(EMPTY, AddAt(0));
    assert s1 == Exec(EMPTY, [AddAt(0)]) && s1.order == [0];
    var s2 := Step(s1, AddAt(1));
    assert s2 == Exec(EMPTY, [AddAt(0), AddAt(1)]) && s2.order == [0, 1];
    var s3 := Step(s2, AddAt(2));
    assert s3 == Exec(EMPTY, build[..3]) && s3.order == [0, 1, 2];
    assert s == Step(s3, NewIterator);
  }

  lemma FirstOfThree(s: State) returns (p: Pass)
    requires Begins(s, 0) && s.order == [0, 1, 2]
    ensures p == Traverse(Forth, s, 0, [MoveNext(0)]) && Inv(p.s)
    ensures !p.over && p.visited == [0] && p.s.order == [0, 1, 2]
    ensures |p.s.iters| > 0 && p.s.iters[0] == Position(NONE, 0, 1)
  {
    var p0 := Pass(s, [], false);
    MoveResult(Forth, 0, p0);
    p := Advance(Forth, p0, 0, MoveNext(0));
    AroundFirst(s.order);
    assert Traverse(Forth, s, 0, []) == p0;
    assert [MoveNext(0)][..0] == [];
  }

  lemma AroundFirst(order: seq<Id>)
    requires order == [0, 1, 2]
    ensures Around(order, 0) == Position(NONE, 0, 1)
  {
    IndexIs(order, 0);
  }

  lemma FirstGone(p: Pass) returns (p': Pass)
    requires Inv(p.s) && |p.s.iters| > 0 && !p.over && |p.s.order| > 0
    ensures p' == Advance(Forth, p, 0, RemoveAt(0)) && Inv(p'.s)
    ensures p'.s.order == p.s.order[1..] && p'.s.iters == p.s.iters && p'.visited == p.visited && !p'.over
  {
    RemoveOk(p.s, 0);
    p' := Advance(Forth, p, 0, RemoveAt(0));
    assert p.s.order[..0] + p.s.order[1..] == p.s.order[1..];
  }

  lemma FirstTwoGone(s: State) returns (p: Pass)
    requires Begins(s, 0) && s.order == [0, 1, 2]
    ensures p == Traverse(Forth, s, 0, [MoveNext(0), RemoveAt(0), RemoveAt(0)])
    ensures !p.over && p.visited == [0] && p.s.order == [2] && |p.s.iters| > 0 && Cut(Forth, p, 0)
  {
    var ops := [MoveNext(0), RemoveAt(0), RemoveAt(0)];
    assert ops[..2][..1] == [MoveNext(0)];
    var p1 := FirstOfThree(s);
    var p2 := FirstGone(p1);
    assert Traverse(Forth, s, 0, ops[..2]) == p2;
    p := FirstGone(p2);
  }

  /** The iterator stands on the first of three nodes, the first two are removed: `next` ends the pass. */
  lemma SurvivorMissed()
    ensures var s := Exec(EMPTY, [AddAt(0), AddAt(1), AddAt(2), NewIterator]);
            && Begins(s, 0) && s.order == [0, 1, 2]
            && var p := Traverse(Forth, s, 0, [MoveNext(0), RemoveAt(0), RemoveAt(0), MoveNext(0)]);
               p.over && p.visited == [0] && p.s.order == [2]
  {
    var s := ThreeNodes();
    var p := FirstTwoGone(s);
    var ops := [MoveNext(0), RemoveAt(0), RemoveAt(0)];
    TraverseTracked(Forth, s, 0, ops);
    AlongOk(Forth, p.s.order);
    GoesFirstPending(s.order, p.s.order, p.visited, p.s.iters[0]);
    MoveTracked(Forth, s.order, 0, p);
    assert [MoveNext(0), RemoveAt(0), RemoveAt(0), MoveNext(0)][..3] == ops;
  }
}
