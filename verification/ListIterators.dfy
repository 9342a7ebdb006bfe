/**
 Who owns the nodes of a list: the list itself and the positions of its iterators
 (data_structures/list.c, memory/ref_count.c).

 Every operation below is one step; ListMoves shows that this loses nothing.  A node's links
 are those of its neighbours in `order` as long as it is linked (see LinkedList); the links
 of a node that has been removed are stale, and following them is a fault, like touching a
 node that has been destroyed.
 */
module ListIterators {
  import opened Counting

  /** Nodes by identity; NONE is the null pointer. */
  type Id = int
  const NONE: Id := -1

  /** `refs` is the number of owners minus one. */
  datatype Node = Node(valid: bool, refs: int)

  /** struct c_utils_list_iterator_position */
  datatype Position = Position(prev: Id, curr: Id, next: Id)

  datatype State = State(
    nodes: map<Id, Node>, order: seq<Id>, iters: seq<Position>,
    created: nat, destroyed: seq<Id>, fault: bool)

  datatype Op =
    | AddAt(at: nat)
    | RemoveAt(at: nat)
    | RemoveAll
    | NewIterator
    | MoveHead(k: nat)
    | MoveTail(k: nat)
    | MoveNext(k: nat)
    | MovePrev(k: nat)
    | RemoveCurrent(k: nat)
    | Finalize(k: nat)

  // ---------------------------------------------------------------- reading the list

  function IndexOf(order: seq<Id>, id: Id): (i: int)
    ensures i == -1 <==> id !in order
    ensures id in order ==> 0 <= i < |order| && order[i] == id
  {
    if order == [] then -1
    else if order[|order| - 1] == id then |order| - 1
    else IndexOf(order[..|order| - 1], id)
  }

  function AtIndex(order: seq<Id>, i: int): Id {
    if 0 <= i < |order| then order[i] else NONE
  }

  /** node->next and node->prev of a linked node. */
  function NextOf(order: seq<Id>, id: Id): Id { AtIndex(order, IndexOf(order, id) + 1) }
  function PrevOf(order: seq<Id>, id: Id): Id { AtIndex(order, IndexOf(order, id) - 1) }

  // ---------------------------------------------------------------- ref_count.c

  /** C_UTILS_REF_INC, if the pointer is not null. */
  function Inc(s: State, id: Id): State {
    if id == NONE then s
    else if id !in s.nodes then s.(fault := true)
    else s.(nodes := s.nodes[id := s.nodes[id].(refs := s.nodes[id].refs + 1)])
  }

  /** C_UTILS_REF_DEC, if the pointer is not null: the last owner destroys the node. */
  function Dec(s: State, id: Id): State {
    if id == NONE then s
    else if id !in s.nodes then s.(fault := true)
    else if s.nodes[id].refs == 0 then s.(nodes := s.nodes - {id}, destroyed := s.destroyed + [id])
    else s.(nodes := s.nodes[id := s.nodes[id].(refs := s.nodes[id].refs - 1)])
  }

  // ---------------------------------------------------------------- list.c

  /** create_node and one of the add functions. */
  function Add(s: State, at: nat): State {
    if at > |s.order| then s
    else
      s.(nodes := s.nodes[s.created := Node(true, 0)], created := s.created + 1,
         order := s.order[..at] + [s.created] + s.order[at..])
  }

  /** remove_node: unlink, invalidate, give up the list's reference. */
  function Remove(s: State, at: nat): State
    requires at < |s.order|
  {
    var id := s.order[at];
    if id !in s.nodes then s.(fault := true)
    else
      Dec(s.(order := s.order[..at] + s.order[at + 1..], nodes := s.nodes[id := s.nodes[id].(valid := false)]), id)
  }

  function RemoveEach(s: State): State
    decreases |s.order|
  {
    if s.order == [] then s
    else
      var s' := Remove(s, 0);
      if |s'.order| < |s.order| then RemoveEach(s') else s'
  }

  /** update_pos: give up the old nodes, then take the new one and its neighbours. */
  function UpdatePos(s: State, k: nat, node: Id): State
    requires k < |s.iters|
  {
    var p := s.iters[k];
    var s1 := Dec(Dec(Dec(s, p.curr), p.next), p.prev);
    if node == NONE then s1.(iters := s1.iters[k := Position(NONE, NONE, NONE)])
    else if node !in s1.order then s1.(fault := true)
    else
      var next, prev := NextOf(s1.order, node), PrevOf(s1.order, node);
      var s2 := Inc(Inc(Inc(s1, node), next), prev);
      s2.(iters := s2.iters[k := Position(prev, node, next)])
  }

  predicate IsValid(s: State, id: Id) { id in s.nodes && s.nodes[id].valid }

  /** The node the iterator's `next` goes to. */
  function NextTarget(s: State, p: Position): Id {
    if s.order == [] then NONE
    else if p.curr == NONE then s.order[0]
    else if IsValid(s, p.curr) then NextOf(s.order, p.curr)
    else if p.next != NONE && IsValid(s, p.next) then p.next
    else NONE
  }

  function PrevTarget(s: State, p: Position): Id {
    if s.order == [] then NONE
    else if p.curr == NONE then s.order[|s.order| - 1]
    else if IsValid(s, p.curr) then PrevOf(s.order, p.curr)
    else if p.prev != NONE && IsValid(s, p.prev) then p.prev
    else NONE
  }

  /** Deciding where to go reads the current node, and the neighbour if the current one is gone. */
  predicate Readable(s: State, p: Position, other: Id) {
    s.order != [] && p.curr != NONE ==>
      p.curr in s.nodes && (!s.nodes[p.curr].valid && other != NONE ==> other in s.nodes)
  }

  function Step(s: State, op: Op): State {
    if s.fault then s
    else
      match op
      case AddAt(at) => Add(s, at)
      case RemoveAt(at) => if at < |s.order| then Remove(s, at) else s
      case RemoveAll => RemoveEach(s)
      case NewIterator => s.(iters := s.iters + [Position(NONE, NONE, NONE)])
      case MoveHead(k) => if k < |s.iters| then UpdatePos(s, k, AtIndex(s.order, 0)) else s
      case MoveTail(k) => if k < |s.iters| then UpdatePos(s, k, AtIndex(s.order, |s.order| - 1)) else s
      case MoveNext(k) =>
        if k >= |s.iters| then s
        else if !Readable(s, s.iters[k], s.iters[k].next) then s.(fault := true)
        else UpdatePos(s, k, NextTarget(s, s.iters[k]))
      case MovePrev(k) =>
        if k >= |s.iters| then s
        else if !Readable(s, s.iters[k], s.iters[k].prev) then s.(fault := true)
        else UpdatePos(s, k, PrevTarget(s, s.iters[k]))
      case RemoveCurrent(k) =>
        if k >= |s.iters| || s.order == [] || s.iters[k].curr == NONE then s
        else if s.iters[k].curr !in s.nodes then s.(fault := true)
        else if IsValid(s, s.iters[k].curr) && s.iters[k].curr in s.order then
          Remove(s, IndexOf(s.order, s.iters[k].curr))
        else s
      case Finalize(k) => if k < |s.iters| then UpdatePos(s, k, NONE) else s
  }

  const EMPTY := State(map[], [], [], 0, [], false)

  function Exec(s: State, ops: seq<Op>): State {
    if ops == [] then s else Step(Exec(s, ops[..|ops| - 1]), ops[|ops| - 1])
  }

  // ---------------------------------------------------------------- owners

  /** How many fields of a position hold a node. */
  function InPosition(p: Position, id: Id): nat {
    One(p.prev == id) + One(p.curr == id) + One(p.next == id)
  }

  function HeldBy(iters: seq<Position>, id: Id): nat {
    if iters == [] then 0 else HeldBy(iters[..|iters| - 1], id) + InPosition(iters[|iters| - 1], id)
  }

  /** The owners of a node: the list if it is linked, and every iterator field that holds it. */
  function Owners(s: State, id: Id): nat { One(id in s.order) + HeldBy(s.iters, id) }

  /** The reference count says how many owners there are, and exactly the nodes with owners exist. */
  predicate CountedAt(s: State, id: Id) {
    && (id in s.nodes <==> Owners(s, id) > 0)
    && (id in s.nodes ==> s.nodes[id].refs + 1 == Owners(s, id))
  }

  ghost predicate Counted(s: State) { forall id :: id != NONE ==> CountedAt(s, id) }

  predicate Distinct(s: seq<Id>) { forall i, j :: 0 <= i < j < |s| ==> s[i] != s[j] }

  /** What does not depend on who owns what. */
  ghost predicate Shape(s: State) {
    && !s.fault
    && Distinct(s.order)
    && (forall id :: id in s.nodes ==> 0 <= id < s.created && (s.nodes[id].valid <==> id in s.order))
    && (forall id :: id in s.order ==> id in s.nodes)
    && Distinct(s.destroyed)
    && (forall id :: id in s.destroyed <==> 0 <= id < s.created && id !in s.nodes)
  }

  ghost predicate Inv(s: State) { Shape(s) && Counted(s) }

  lemma {:induction false} HeldUpdate(iters: seq<Position>, k: nat, p: Position, id: Id)
    requires k < |iters|
    ensures HeldBy(iters[k := p], id) + InPosition(iters[k], id) == HeldBy(iters, id) + InPosition(p, id)
    decreases |iters|
  {
    var n := |iters| - 1;
    if k == n {
      assert iters[k := p][..n] == iters[..n];
    } else {
      HeldUpdate(iters[..n], k, p, id);
      assert iters[k := p][..n] == iters[..n][k := p];
    }
  }

  lemma {:induction false} HeldMember(iters: seq<Position>, k: nat, id: Id)
    requires k < |iters| && InPosition(iters[k], id) > 0
    ensures HeldBy(iters, id) > 0
    decreases |iters|
  {
    if k < |iters| - 1 { HeldMember(iters[..|iters| - 1], k, id); }
  }

  // ---------------------------------------------------------------- one reference

  /** Position p without one of its fields, which held id. */
  predicate Drops(p: Position, p': Position, id: Id) {
    || (p.curr == id && p' == p.(curr := NONE))
    || (p.next == id && p' == p.(next := NONE))
    || (p.prev == id && p' == p.(prev := NONE))
  }

  /** The node given up loses one owner and one reference; with its last owner it goes. */
  lemma DropCountedSame(s: State, k: nat, p': Position, id: Id)
    requires k < |s.iters| && Drops(s.iters[k], p', id) && id != NONE && CountedAt(s, id)
    ensures CountedAt(Dec(s, id).(iters := s.iters[k := p']), id)
  {
    HeldMember(s.iters, k, id);
    HeldUpdate(s.iters, k, p', id);
  }

  lemma DropCountedOther(s: State, k: nat, p': Position, id: Id, j: Id)
    requires k < |s.iters| && Drops(s.iters[k], p', id) && id != NONE && j != NONE && j != id && CountedAt(s, j)
    ensures CountedAt(Dec(s, id).(iters := s.iters[k := p']), j)
  {
    HeldUpdate(s.iters, k, p', j);
  }

  lemma DropShape(s: State, id: Id)
    requires Shape(s) && id != NONE && CountedAt(s, id) && Owners(s, id) > One(id in s.order)
    ensures Shape(Dec(s, id))
  {
    assert id in s.nodes;
    if s.nodes[id].refs == 0 { assert id !in s.destroyed; }
  }

  lemma DropOk(s: State, k: nat, p': Position, id: Id)
    requires Inv(s) && k < |s.iters| && Drops(s.iters[k], p', id)
    ensures Inv(Dec(s, id).(iters := s.iters[k := p']))
  {
    if id != NONE {
      assert CountedAt(s, id);
      HeldMember(s.iters, k, id);
      DropShape(s, id);
      var s' := Dec(s, id).(iters := s.iters[k := p']);
      forall j | j != NONE
        ensures CountedAt(s', j)
      {
        assert CountedAt(s, j);
        if j == id { DropCountedSame(s, k, p', id); } else { DropCountedOther(s, k, p', id, j); }
      }
    } else {
      assert s.iters[k := p'] == s.iters;
    }
  }

  lemma TakeCounted(s: State, k: nat, p': Position, id: Id, j: Id)
    requires k < |s.iters| && Drops(p', s.iters[k], id) && j != NONE && CountedAt(s, j)
    requires id in s.nodes && id != NONE
    ensures CountedAt(Inc(s, id).(iters := s.iters[k := p']), j)
  {
    HeldUpdate(s.iters, k, p', j);
  }

  lemma TakeOk(s: State, k: nat, p': Position, id: Id)
    requires Inv(s) && k < |s.iters| && Drops(p', s.iters[k], id) && (id != NONE ==> id in s.order)
    ensures Inv(Inc(s, id).(iters := s.iters[k := p']))
  {
    if id != NONE {
      var s' := Inc(s, id).(iters := s.iters[k := p']);
      forall j | j != NONE
        ensures CountedAt(s', j)
      {
        assert CountedAt(s, j);
        TakeCounted(s, k, p', id, j);
      }
    } else {
      assert s.iters[k := p'] == s.iters;
    }
  }

  // ---------------------------------------------------------------- operations

  lemma OrderWithout(order: seq<Id>, at: nat)
    requires Distinct(order) && at < |order|
    ensures var rest := order[..at] + order[at + 1..];
            Distinct(rest) && (forall id :: id in rest <==> id in order && id != order[at])
  {
    var rest := order[..at] + order[at + 1..];
    forall id | id in order && id != order[at]
      ensures id in rest
    {
      var i :| 0 <= i < |order| && order[i] == id;
      assert rest[if i < at then i else i - 1] == id;
    }
  }

  lemma RemoveOk(s: State, at: nat)
    requires Inv(s) && at < |s.order|
    ensures Inv(Remove(s, at)) && Remove(s, at).order == s.order[..at] + s.order[at + 1..]
    ensures Remove(s, at).iters == s.iters && Remove(s, at).created == s.created
  {
    var id := s.order[at];
    OrderWithout(s.order, at);
    assert id in s.nodes;
    var s' := Remove(s, at);
    assert CountedAt(s, id);
    forall j | j != NONE
      ensures CountedAt(s', j)
    {
      assert CountedAt(s, j);
    }
  }

  lemma {:induction false} RemoveEachOk(s: State)
    requires Inv(s)
    ensures Inv(RemoveEach(s)) && RemoveEach(s).order == []
    ensures RemoveEach(s).iters == s.iters && RemoveEach(s).created == s.created
    decreases |s.order|
  {
    if s.order != [] {
      RemoveOk(s, 0);
      RemoveEachOk(Remove(s, 0));
    }
  }

  lemma AddOrder(order: seq<Id>, at: nat, id: Id)
    requires Distinct(order) && at <= |order| && id !in order
    ensures var more := order[..at] + [id] + order[at..];
            Distinct(more) && (forall x :: x in more <==> x == id || x in order)
  {
    var more := order[..at] + [id] + order[at..];
    assert more[at] == id;
    forall x | x in order
      ensures x in more
    {
      var i :| 0 <= i < |order| && order[i] == x;
      assert more[if i < at then i else i + 1] == x;
    }
  }

  lemma AddOk(s: State, at: nat)
    requires Inv(s)
    ensures Inv(Add(s, at))
  {
    if at <= |s.order| {
      var s', id := Add(s, at), s.created;
      assert id !in s.nodes;
      AddOrder(s.order, at, id);
      forall j | j != NONE
        ensures CountedAt(s', j)
      {
        assert CountedAt(s, j);
      }
    }
  }

  lemma NewIteratorOk(s: State)
    requires Inv(s)
    ensures Inv(s.(iters := s.iters + [Position(NONE, NONE, NONE)]))
  {
    var s' := s.(iters := s.iters + [Position(NONE, NONE, NONE)]);
    assert s'.iters[..|s.iters|] == s.iters;
    forall j | j != NONE
      ensures CountedAt(s', j)
    {
      assert CountedAt(s, j);
    }
  }

  lemma NeighboursLinked(order: seq<Id>, id: Id)
    requires id in order
    ensures NextOf(order, id) != NONE ==> NextOf(order, id) in order
    ensures PrevOf(order, id) != NONE ==> PrevOf(order, id) in order
  {
  }

  /** Neither counting function looks at the positions, nor changes them. */
  lemma DecShape(s: State, id: Id, iters: seq<Position>)
    ensures Dec(s, id).order == s.order && Dec(s, id).iters == s.iters && Dec(s, id).created == s.created
    ensures Dec(s.(iters := iters), id) == Dec(s, id).(iters := iters)
  {
  }

  lemma IncShape(s: State, id: Id, iters: seq<Position>)
    ensures Inc(s, id).order == s.order && Inc(s, id).iters == s.iters && Inc(s, id).created == s.created
    ensures Inc(s.(iters := iters), id) == Inc(s, id).(iters := iters)
  {
  }

  function Release(s: State, p: Position): State { Dec(Dec(Dec(s, p.curr), p.next), p.prev) }
  function Acquire(s: State, p: Position): State { Inc(Inc(Inc(s, p.curr), p.next), p.prev) }

  lemma ReleaseShape(s: State, p: Position, iters: seq<Position>)
    ensures Release(s, p).order == s.order && Release(s, p).iters == s.iters && Release(s, p).created == s.created
    ensures Release(s.(iters := iters), p) == Release(s, p).(iters := iters)
  {
    DecShape(s, p.curr, iters);
    DecShape(Dec(s, p.curr), p.next, iters);
    DecShape(Dec(Dec(s, p.curr), p.next), p.prev, iters);
  }

  lemma AcquireShape(s: State, p: Position, iters: seq<Position>)
    ensures Acquire(s, p).order == s.order && Acquire(s, p).iters == s.iters && Acquire(s, p).created == s.created
    ensures Acquire(s.(iters := iters), p) == Acquire(s, p).(iters := iters)
  {
    IncShape(s, p.curr, iters);
    IncShape(Inc(s, p.curr), p.next, iters);
    IncShape(Inc(Inc(s, p.curr), p.next), p.prev, iters);
  }

  /** Where update_pos leaves the iterator. */
  function Around(order: seq<Id>, node: Id): Position {
    if node == NONE then Position(NONE, NONE, NONE)
    else Position(PrevOf(order, node), node, NextOf(order, node))
  }

  /** update_pos is six exchanges of one field against one reference, whatever the order of its writes. */
  lemma UpdatePosOk(s: State, k: nat, node: Id)
    requires Inv(s) && k < |s.iters| && (node != NONE ==> node in s.order)
    ensures Inv(UpdatePos(s, k, node))
    ensures UpdatePos(s, k, node).order == s.order && UpdatePos(s, k, node).created == s.created
    ensures UpdatePos(s, k, node).iters == s.iters[k := Around(s.order, node)]
  {
    UpdatePosShape(s, k, node);
    var s1 := ReleaseOk(s, k);
    if node != NONE {
      AcquireOk(s1, k, node);
      var pos := Around(s.order, node);
      assert s1.iters[k := pos] == s.iters[k := pos];
    }
  }

  lemma UpdatePosShape(s: State, k: nat, node: Id)
    requires k < |s.iters| && (node != NONE ==> node in s.order)
    ensures var s1 := Release(s, s.iters[k]).(iters := s.iters[k := Position(NONE, NONE, NONE)]);
            var pos := Around(s.order, node);
            && s1.order == s.order
            && UpdatePos(s, k, node) == Acquire(s1, pos).(iters := s.iters[k := pos])
            && Acquire(s1, pos).order == s.order && Acquire(s1, pos).created == s.created
  {
    var none := s.iters[k := Position(NONE, NONE, NONE)];
    var pos := Around(s.order, node);
    var r := Release(s, s.iters[k]);
    ReleaseShape(s, s.iters[k], none);
    AcquireShape(r, pos, none);
    if node != NONE {
      assert UpdatePos(s, k, node) == Acquire(r, pos).(iters := Acquire(r, pos).iters[k := pos]);
    }
  }

  lemma ReleaseOk(s: State, k: nat) returns (s3: State)
    requires Inv(s) && k < |s.iters|
    ensures s3 == Release(s, s.iters[k]).(iters := s.iters[k := Position(NONE, NONE, NONE)])
    ensures Inv(s3)
  {
    var p := s.iters[k];
    var p1 := p.(curr := NONE);
    var p2 := p1.(next := NONE);
    var p3 := p2.(prev := NONE);
    DropOk(s, k, p1, p.curr);
    var s1 := Dec(s, p.curr).(iters := s.iters[k := p1]);
    DropOk(s1, k, p2, p.next);
    var s2 := Dec(s1, p.next).(iters := s1.iters[k := p2]);
    DropOk(s2, k, p3, p.prev);
    s3 := Dec(s2, p.prev).(iters := s2.iters[k := p3]);
    assert s2.iters[k := p3] == s.iters[k := p3];
    DecShape(Dec(s, p.curr), p.next, s1.iters);
    DecShape(Dec(Dec(s, p.curr), p.next), p.prev, s2.iters);
  }

  lemma AcquireOk(s: State, k: nat, node: Id)
    requires Inv(s) && k < |s.iters| && s.iters[k] == Position(NONE, NONE, NONE) && node in s.order
    ensures var pos := Around(s.order, node);
            Inv(Acquire(s, pos).(iters := s.iters[k := pos]))
  {
    var pos := Around(s.order, node);
    NeighboursLinked(s.order, node);
    var p1 := Position(NONE, node, NONE);
    var p2 := Position(NONE, node, pos.next);
    TakeOk(s, k, p1, node);
    var s1 := Inc(s, node).(iters := s.iters[k := p1]);
    TakeOk(s1, k, p2, pos.next);
    var s2 := Inc(s1, pos.next).(iters := s1.iters[k := p2]);
    TakeOk(s2, k, pos, pos.prev);
    assert s2.iters[k := pos] == s.iters[k := pos];
    IncShape(Inc(s, node), pos.next, s1.iters);
    IncShape(Inc(Inc(s, node), pos.next), pos.prev, s2.iters);
  }

  /** A position's nodes are alive, and the node it moves to is linked. */
  lemma TargetsOk(s: State, k: nat)
    requires Inv(s) && k < |s.iters|
    ensures Readable(s, s.iters[k], s.iters[k].next) && Readable(s, s.iters[k], s.iters[k].prev)
    ensures NextTarget(s, s.iters[k]) != NONE ==> NextTarget(s, s.iters[k]) in s.order
    ensures PrevTarget(s, s.iters[k]) != NONE ==> PrevTarget(s, s.iters[k]) in s.order
    ensures s.iters[k].curr != NONE ==> s.iters[k].curr in s.nodes
  {
    var p := s.iters[k];
    if p.curr != NONE { HeldMember(s.iters, k, p.curr); assert CountedAt(s, p.curr); }
    if p.next != NONE { HeldMember(s.iters, k, p.next); assert CountedAt(s, p.next); }
    if p.prev != NONE { HeldMember(s.iters, k, p.prev); assert CountedAt(s, p.prev); }
  }

  lemma StepOk(s: State, op: Op)
    requires Inv(s)
    ensures Inv(Step(s, op))
  {
    match op
    case AddAt(at) => AddOk(s, at);
    case RemoveAt(at) => if at < |s.order| { RemoveOk(s, at); }
    case RemoveAll => RemoveEachOk(s);
    case NewIterator => NewIteratorOk(s);
    case MoveHead(k) => if k < |s.iters| { UpdatePosOk(s, k, AtIndex(s.order, 0)); }
    case MoveTail(k) => if k < |s.iters| { UpdatePosOk(s, k, AtIndex(s.order, |s.order| - 1)); }
    case MoveNext(k) => if k < |s.iters| { TargetsOk(s, k); UpdatePosOk(s, k, NextTarget(s, s.iters[k])); }
    case MovePrev(k) => if k < |s.iters| { TargetsOk(s, k); UpdatePosOk(s, k, PrevTarget(s, s.iters[k])); }
    case RemoveCurrent(k) =>
      if k < |s.iters| {
        TargetsOk(s, k);
        if s.iters[k].curr in s.order { RemoveOk(s, IndexOf(s.order, s.iters[k].curr)); }
      }
    case Finalize(k) => if k < |s.iters| { UpdatePosOk(s, k, NONE); }
  }

  lemma {:induction false} RunOk(ops: seq<Op>)
    ensures Inv(Exec(EMPTY, ops))
    decreases |ops|
  {
    if ops != [] {
      RunOk(ops[..|ops| - 1]);
      StepOk(Exec(EMPTY, ops[..|ops| - 1]), ops[|ops| - 1]);
    }
  }

  lemma {:induction false} DistinctCount(s: seq<Id>, id: Id)
    requires Distinct(s)
    ensures multiset(s)[id] == if id in s then 1 else 0
    decreases |s|
  {
    if s != [] {
      DistinctCount(s[..|s| - 1], id);
      assert s == s[..|s| - 1] + [s[|s| - 1]];
    }
  }
}
