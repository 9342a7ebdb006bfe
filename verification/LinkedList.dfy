/** The doubly linked list of data_structures/list.c, with its reference-counted nodes. */
module LinkedList {
  import opened Counting

  /** Items are pointers; 0 is the null pointer, which a list refuses. */
  type Item = nat

  const NULL: Item := 0

  /** `refs` is the number of owners minus one (memory/ref_count.c); a new node is owned by its list. */
  class Node {
    const item: Item
    var next: Node?
    var prev: Node?
    var isValid: bool
    var refs: int

    constructor (item: Item)
      ensures this.item == item && isValid && refs == 0 && next == null && prev == null
    {
      this.item := item;
      next, prev, isValid, refs := null, null, true, 0;
    }
  }

  // ---------------------------------------------------------------- sequences

  /** A comparator is legal if swapping its arguments swaps its sign and "not greater" is transitive. */
  ghost predicate Legal(cmp: (Item, Item) -> int) {
    && (forall x, y :: cmp(x, y) < 0 <==> cmp(y, x) > 0)
    && (forall x, y, z :: cmp(x, y) <= 0 && cmp(y, z) <= 0 ==> cmp(x, z) <= 0)
  }

  ghost predicate Sorted(cmp: (Item, Item) -> int, s: seq<Item>) {
    forall i, j :: 0 <= i < j < |s| ==> cmp(s[i], s[j]) <= 0
  }

  function Inserted<T>(s: seq<T>, i: nat, x: T): seq<T>
    requires i <= |s|
  {
    s[..i] + [x] + s[i..]
  }

  function Without<T>(s: seq<T>, i: nat): seq<T>
    requires i < |s|
  {
    s[..i] + s[i + 1..]
  }

  ghost predicate Distinct(s: seq<Node>) {
    forall i, j :: 0 <= i < j < |s| ==> s[i] != s[j]
  }

  lemma InsertedDistinct(s: seq<Node>, i: nat, n: Node)
    requires Distinct(s) && n !in s && i <= |s|
    ensures Distinct(Inserted(s, i, n))
  {
  }

  lemma WithoutDistinct(s: seq<Node>, i: nat)
    requires Distinct(s) && i < |s|
    ensures Distinct(Without(s, i)) && s[i] !in Without(s, i)
  {
  }

  function ItemsOf(s: seq<Node>): (r: seq<Item>)
    ensures |r| == |s| && forall i :: 0 <= i < |s| ==> r[i] == s[i].item
  {
    if s == [] then [] else ItemsOf(s[..|s| - 1]) + [s[|s| - 1].item]
  }

  lemma {:induction false} ItemsInserted(s: seq<Node>, i: nat, n: Node)
    requires i <= |s|
    ensures ItemsOf(Inserted(s, i, n)) == Inserted(ItemsOf(s), i, n.item)
  {
    var a, b := ItemsOf(Inserted(s, i, n)), Inserted(ItemsOf(s), i, n.item);
    assert |a| == |b|;
    forall k | 0 <= k < |a| ensures a[k] == b[k] {}
  }

  lemma {:induction false} ItemsWithout(s: seq<Node>, i: nat)
    requires i < |s|
    ensures ItemsOf(Without(s, i)) == Without(ItemsOf(s), i)
  {
    var a, b := ItemsOf(Without(s, i)), Without(ItemsOf(s), i);
    assert |a| == |b|;
    forall k | 0 <= k < |a| ensures a[k] == b[k] {}
  }

  lemma InsertedMultiset(s: seq<Item>, i: nat, x: Item)
    requires i <= |s|
    ensures multiset(Inserted(s, i, x)) == multiset(s) + multiset{x}
  {
    assert s == s[..i] + s[i..];
  }

  lemma InsertedBounds(cmp: (Item, Item) -> int, s: seq<Item>, i: nat, x: Item)
    requires Legal(cmp) && Sorted(cmp, s) && i <= |s|
    requires i > 0 ==> cmp(s[i - 1], x) <= 0
    requires i < |s| ==> cmp(x, s[i]) <= 0
    ensures forall j :: 0 <= j < i ==> cmp(s[j], x) <= 0
    ensures forall j :: i <= j < |s| ==> cmp(x, s[j]) <= 0
  {
    forall j | 0 <= j < i
      ensures cmp(s[j], x) <= 0
    {
      if j < i - 1 { assert cmp(s[j], s[i - 1]) <= 0; }
    }
    forall j | i <= j < |s|
      ensures cmp(x, s[j]) <= 0
    {
      if i < j { assert cmp(s[i], s[j]) <= 0; }
    }
  }

  /** An item goes where its neighbours before and behind it agree. */
  lemma InsertedSorted(cmp: (Item, Item) -> int, s: seq<Item>, i: nat, x: Item)
    requires Legal(cmp) && Sorted(cmp, s) && i <= |s|
    requires i > 0 ==> cmp(s[i - 1], x) <= 0
    requires i < |s| ==> cmp(x, s[i]) <= 0
    ensures Sorted(cmp, Inserted(s, i, x))
  {
    InsertedBounds(cmp, s, i, x);
    BoundedSorted(cmp, s, i, x);
  }

  lemma BoundedSorted(cmp: (Item, Item) -> int, s: seq<Item>, i: nat, x: Item)
    requires Sorted(cmp, s) && i <= |s|
    requires forall j :: 0 <= j < i ==> cmp(s[j], x) <= 0
    requires forall j :: i <= j < |s| ==> cmp(x, s[j]) <= 0
    ensures Sorted(cmp, Inserted(s, i, x))
  {
    var r := Inserted(s, i, x);
    forall j, k | 0 <= j < k < |r|
      ensures cmp(r[j], r[k]) <= 0
    {
      assert r[j] == if j < i then s[j] else if j == i then x else s[j - 1];
      assert r[k] == if k < i then s[k] else if k == i then x else s[k - 1];
    }
  }

  /** Taking an item out of a sorted list leaves it sorted. */
  lemma WithoutSorted(cmp: (Item, Item) -> int, s: seq<Item>, i: nat)
    requires i < |s|
    ensures Sorted(cmp, s) ==> Sorted(cmp, Without(s, i))
  {
    var r := Without(s, i);
    assert forall j :: 0 <= j < |r| ==> r[j] == s[if j < i then j else j + 1];
  }

  // ---------------------------------------------------------------- links

  /** Neighbours in s point to each other, and the ends point nowhere. */
  ghost predicate Linked(s: seq<Node>)
    reads s
  {
    && (forall i :: 0 <= i < |s| - 1 ==> s[i].next == s[i + 1] && s[i + 1].prev == s[i])
    && (s != [] ==> s[0].prev == null && s[|s| - 1].next == null)
  }

  ghost predicate Alive(s: seq<Node>)
    reads s
  {
    forall n :: n in s ==> n.isValid && n.refs >= 0
  }

  class List {
    var head: Node?
    var tail: Node?
    var size: nat
    const max: nat
    const cmp: Option<(Item, Item) -> int>
    ghost var nodes: seq<Node>

    ghost predicate Valid()
      reads this, nodes
    {
      && size == |nodes|
      && (if nodes == [] then head == tail == null else head == nodes[0] && tail == nodes[|nodes| - 1])
      && Distinct(nodes) && Linked(nodes) && Alive(nodes)
    }

    /** c_utils_list_create_conf */
    constructor (max: nat, cmp: Option<(Item, Item) -> int>)
      ensures Valid() && nodes == [] && this.max == max && this.cmp == cmp
    {
      head, tail, size := null, null, 0;
      this.max := max;
      this.cmp := cmp;
      nodes := [];
    }

    // -------------------------------------------------------------- adding

    method AddAsOnly(node: Node)
      requires Valid() && nodes == [] && node.isValid && node.refs >= 0
      modifies this, node`next, node`prev
      ensures Valid() && nodes == [node]
    {
      head, tail := node, node;
      node.next, node.prev := null, null;
      size := size + 1;
      nodes := [node];
    }

    method AddAsHead(node: Node)
      requires Valid() && nodes != [] && Addable(node)
      modifies this, nodes`prev, node`next, node`prev
      ensures Valid() && nodes == Inserted(old(nodes), 0, node)
    {
      InsertedDistinct(nodes, 0, node);
      node.next := head;
      head.prev := node;
      head := node;
      node.prev := null;
      size := size + 1;
      nodes := Inserted(nodes, 0, node);
    }

    method AddAsTail(node: Node)
      requires Valid() && nodes != [] && Addable(node)
      modifies this, nodes`next, node`next, node`prev
      ensures Valid() && nodes == Inserted(old(nodes), |old(nodes)|, node)
    {
      InsertedDistinct(nodes, |nodes|, node);
      tail.next := node;
      node.prev := tail;
      tail := node;
      node.next := null;
      size := size + 1;
      nodes := Inserted(nodes, |nodes|, node);
    }

    method AddBefore(current: Node, node: Node, ghost i: nat)
      requires Valid() && 0 < i < |nodes| && nodes[i] == current && Addable(node)
      modifies this, nodes`next, nodes`prev, node`next, node`prev
      ensures Valid() && nodes == Inserted(old(nodes), i, node)
    {
      InsertedDistinct(nodes, i, node);
      ghost var s := nodes;
      assert s[i - 1].next == s[i] && s[i].prev == s[i - 1];
      current.prev.next := node;
      node.next := current;
      node.prev := current.prev;
      current.prev := node;
      size := size + 1;
      nodes := Inserted(nodes, i, node);
    }
  
    /** A node that may be added: of this list's making, and not in it yet. */
    ghost predicate Addable(node: Node)
      reads this, node
    {
      node !in nodes && node.isValid && node.refs >= 0
    }

    /** add_unsorted */
    method AddUnsorted(node: Node)
      requires Valid() && nodes != [] && Addable(node)
      modifies this, nodes`next, node`next, node`prev
      ensures Valid() && nodes == Inserted(old(nodes), |old(nodes)|, node)
    {
      InsertedDistinct(nodes, |nodes|, node);
      node.next := null;
      node.prev := tail;
      tail.next := node;
      tail := node;
      size := size + 1;
      nodes := Inserted(nodes, |nodes|, node);
    }

    /** Where add_sorted's walk stops: at the first node the new item is not greater than. */
    method FindPlace(item: Item, compare: (Item, Item) -> int) returns (current: Node, ghost i: nat)
      requires Valid() && Legal(compare) && |nodes| >= 2
      requires compare(item, nodes[0].item) > 0 && compare(item, nodes[|nodes| - 1].item) < 0
      ensures 0 < i < |nodes| && nodes[i] == current
      ensures compare(item, current.item) <= 0 && compare(item, nodes[i - 1].item) > 0
    {
      current, i := head, 0;
      while compare(item, current.item) > 0
        invariant 0 <= i < |nodes| && nodes[i] == current
        invariant i > 0 ==> compare(item, nodes[i - 1].item) > 0
        decreases |nodes| - i
      {
        assert i < |nodes| - 1 && nodes[i].next == nodes[i + 1];
        current, i := current.next, i + 1;
      }
    }

    /** add_sorted */
    method AddSorted(node: Node, compare: (Item, Item) -> int) returns (ghost i: nat)
      requires Valid() && nodes != [] && Addable(node) && Legal(compare) && Sorted(compare, ItemsOf(nodes))
      modifies this, nodes`next, nodes`prev, node`next, node`prev
      ensures Valid() && i <= |old(nodes)| && nodes == Inserted(old(nodes), i, node)
      ensures i > 0 ==> compare(old(nodes)[i - 1].item, node.item) <= 0
      ensures i < |old(nodes)| ==> compare(node.item, old(nodes)[i].item) <= 0
    {
      if size == 1 {
        if compare(node.item, head.item) < 0 {
          i := 0;
          AddAsHead(node);
        } else {
          i := 1;
          AddAsTail(node);
        }
      } else if compare(node.item, head.item) <= 0 {
        i := 0;
        AddAsHead(node);
      } else if compare(node.item, tail.item) >= 0 {
        i := |nodes|;
        AddAsTail(node);
      } else {
        var current;
        current, i := FindPlace(node.item, compare);
        AddBefore(current, node, i);
      }
    }

    /** The list is ordered by its comparator, if it has one. */
    ghost predicate InOrder()
      reads this
    {
      cmp.Some? ==> Legal(cmp.value) && Sorted(cmp.value, ItemsOf(nodes))
    }

    /** The cases of c_utils_list_add once there is a node. */
    method Place(node: Node) returns (ghost i: nat)
      requires Valid() && InOrder() && Addable(node)
      modifies this, nodes`next, nodes`prev, node`next, node`prev
      ensures Valid() && i <= |old(nodes)| && nodes == Inserted(old(nodes), i, node)
      ensures cmp.None? ==> i == |old(nodes)|
      ensures cmp.Some? && i > 0 ==> cmp.value(old(nodes)[i - 1].item, node.item) <= 0
      ensures cmp.Some? && i < |old(nodes)| ==> cmp.value(node.item, old(nodes)[i].item) <= 0
    {
      i := |nodes|;
      if size == 0 {
        AddAsOnly(node);
      } else if cmp.Some? {
        i := AddSorted(node, cmp.value);
      } else {
        AddUnsorted(node);
      }
    }

    method PlaceInOrder(node: Node) returns (ghost i: nat)
      requires Valid() && InOrder() && Addable(node)
      modifies this, nodes`next, nodes`prev, node`next, node`prev
      ensures Valid() && i <= |old(nodes)| && nodes == Inserted(old(nodes), i, node)
      ensures cmp.None? ==> i == |old(nodes)|
      ensures InOrder() && ItemsOf(nodes) == Inserted(old(ItemsOf(nodes)), i, node.item)
    {
      ghost var s := nodes;
      i := Place(node);
      ItemsInserted(s, i, node);
      if cmp.Some? {
        InsertedSorted(cmp.value, ItemsOf(s), i, node.item);
      }
    }

    /** c_utils_list_add: at the end of a plain list, in its place in an ordered one. */
    method Add(item: Item) returns (ok: bool, ghost i: nat)
      requires Valid() && InOrder()
      modifies this, nodes`next, nodes`prev
      ensures Valid() && InOrder()
      ensures ok <==> item != NULL && !(max != 0 && max == |old(nodes)|)
      ensures if !ok then nodes == old(nodes)
              else i < |nodes| == |old(nodes)| + 1 && fresh(nodes[i]) && nodes == Inserted(old(nodes), i, nodes[i])
      ensures ok ==> ItemsOf(nodes) == Inserted(old(ItemsOf(nodes)), i, item) && (cmp.None? ==> i == |old(nodes)|)
    {
      i := 0;
      if item == NULL || (max != 0 && max == size) {
        return false, 0;
      }
      var node := new Node(item);
      i := PlaceInOrder(node);
      assert nodes[i] == node;
      ok := true;
    }

    // -------------------------------------------------------------- finding

    /** index_to_node: from the nearer end, counting nodes on the way. */
    method IndexToNode(index: nat) returns (node: Node?)
      requires Valid()
      ensures if index < |nodes| then node == nodes[index] else node == null
    {
      if index >= size {
        return null;
      }
      if index == size - 1 {
        return tail;
      }
      if index == 0 {
        return head;
      }
      if index > size / 2 {
        node := WalkBack(index);
      } else {
        node := WalkForth(index);
      }
    }

    method WalkBack(index: nat) returns (node: Node?)
      requires Valid() && 0 < index < |nodes| - 1
      ensures node == nodes[index]
    {
      var i := size - 1;
      node := tail.prev;
      i := i - 1;
      while i != index
        invariant index <= i < |nodes| && node == nodes[i]
        decreases i
      {
        node := node.prev;
        i := i - 1;
      }
    }

    method WalkForth(index: nat) returns (node: Node?)
      requires Valid() && 0 < index < |nodes| - 1
      ensures node == nodes[index]
    {
      var i := 1;
      node := head.next;
      while i != index
        invariant 1 <= i <= index && node == nodes[i]
        decreases index - i
      {
        node := node.next;
        i := i + 1;
      }
    }

    /** item_to_node: the head, else the tail, else the first node that holds the item. */
    method ItemToNode(item: Item) returns (node: Node?, ghost i: nat)
      requires Valid()
      ensures node == null <==> item !in ItemsOf(nodes)
      ensures node != null ==> i < |nodes| && nodes[i] == node && node.item == item
      ensures node != null && i != 0 && i != |nodes| - 1 ==> forall j :: 0 <= j < i ==> nodes[j].item != item
    {
      i := 0;
      ghost var items := ItemsOf(nodes);
      if head != null && head.item == item {
        assert items[0] == item;
        return head, 0;
      }
      if tail != null && tail.item == item {
        assert items[|nodes| - 1] == item;
        return tail, |nodes| - 1;
      }
      node := head;
      while node != null
        invariant i <= |nodes| && node == (if i < |nodes| then nodes[i] else null)
        invariant forall j :: 0 <= j < i ==> nodes[j].item != item
        decreases |nodes| - i
      {
        if item == node.item {
          assert items[i] == item;
          return;
        }
        node, i := node.next, i + 1;
      }
    }

    // -------------------------------------------------------------- removing

    /** invalidate_node: the list gives up its reference. */
    method Invalidate(node: Node)
      modifies node`isValid, node`refs
      ensures !node.isValid && node.refs == old(node.refs) - 1
    {
      node.isValid := false;
      node.refs := node.refs - 1;
    }

    method RemoveOnly(node: Node)
      requires Valid() && nodes == [node]
      modifies this, node`isValid, node`refs
      ensures Valid() && nodes == [] && !node.isValid && node.refs == old(node.refs) - 1
    {
      head, tail := null, null;
      Invalidate(node);
      size := size - 1;
      nodes := [];
    }

    method RemoveHead(node: Node)
      requires Valid() && |nodes| >= 2 && nodes[0] == node
      modifies this, nodes`prev, node`isValid, node`refs
      ensures Valid() && nodes == Without(old(nodes), 0) && !node.isValid && node.refs == old(node.refs) - 1
    {
      WithoutDistinct(nodes, 0);
      assert nodes[0].next == nodes[1];
      head.next.prev := null;
      head := head.next;
      Invalidate(node);
      size := size - 1;
      nodes := Without(nodes, 0);
    }

    method RemoveTail(node: Node)
      requires Valid() && |nodes| >= 2 && nodes[|nodes| - 1] == node
      modifies this, nodes`next, node`isValid, node`refs
      ensures Valid() && nodes == Without(old(nodes), |old(nodes)| - 1)
      ensures !node.isValid && node.refs == old(node.refs) - 1
    {
      WithoutDistinct(nodes, |nodes| - 1);
      assert nodes[|nodes| - 2].next == nodes[|nodes| - 1];
      tail := tail.prev;
      tail.next := null;
      Invalidate(node);
      size := size - 1;
      nodes := Without(nodes, |nodes| - 1);
    }

    method RemoveNormal(node: Node, ghost i: nat)
      requires Valid() && 0 < i < |nodes| - 1 && nodes[i] == node
      modifies this, nodes`next, nodes`prev, node`isValid, node`refs
      ensures Valid() && nodes == Without(old(nodes), i) && !node.isValid && node.refs == old(node.refs) - 1
    {
      WithoutDistinct(nodes, i);
      ghost var s := nodes;
      assert s[i - 1].next == s[i] && s[i].prev == s[i - 1] && s[i].next == s[i + 1];
      node.next.prev := node.prev;
      node.prev.next := node.next;
      Invalidate(node);
      size := size - 1;
      nodes := Without(nodes, i);
    }

    /** The four cases of remove_node. */
    method Unlink(node: Node, ghost i: nat)
      requires Valid() && i < |nodes| && nodes[i] == node
      modifies this, nodes`next, nodes`prev, node`isValid, node`refs
      ensures Valid() && nodes == Without(old(nodes), i) && !node.isValid && node.refs == old(node.refs) - 1
    {
      if size == 1 {
        RemoveOnly(node);
      } else if tail == node {
        RemoveTail(node);
      } else if head == node {
        RemoveHead(node);
      } else {
        RemoveNormal(node, i);
      }
    }

    /** remove_node: the other items stay in their order. */
    method RemoveNode(node: Node, ghost i: nat)
      requires Valid() && i < |nodes| && nodes[i] == node
      modifies this, nodes`next, nodes`prev, node`isValid, node`refs
      ensures Valid() && nodes == Without(old(nodes), i) && !node.isValid && node.refs == old(node.refs) - 1
      ensures ItemsOf(nodes) == Without(old(ItemsOf(nodes)), i)
      ensures old(InOrder()) ==> InOrder()
    {
      ghost var s := nodes;
      Unlink(node, i);
      ItemsWithout(s, i);
      if cmp.Some? {
        WithoutSorted(cmp.value, ItemsOf(s), i);
      }
    }

    /** c_utils_list_remove_at; NULL stands for "no such index". */
    method RemoveAt(index: nat) returns (item: Item)
      requires Valid()
      modifies this, nodes`next, nodes`prev, nodes`isValid, nodes`refs
      ensures Valid() && (old(InOrder()) ==> InOrder())
      ensures if index < |old(nodes)| then
                && item == old(nodes)[index].item && nodes == Without(old(nodes), index)
                && ItemsOf(nodes) == Without(old(ItemsOf(nodes)), index)
                && !old(nodes)[index].isValid && old(nodes)[index].refs == old(nodes[index].refs) - 1
              else item == NULL && nodes == old(nodes)
      ensures forall n :: n in nodes ==> n.refs == old(n.refs)
    {
      var node := IndexToNode(index);
      if node == null {
        return NULL;
      }
      item := node.item;
      WithoutDistinct(nodes, index);
      RemoveNode(node, index);
    }

    method RemoveFirst(first: Node)
      requires Valid() && nodes != [] && nodes[0] == first
      modifies this, nodes`next, nodes`prev, first`isValid, first`refs
      ensures Valid() && |nodes| == |old(nodes)| - 1 && first !in nodes
      ensures forall n :: n in old(nodes) <==> n == first || n in nodes
      ensures !first.isValid && first.refs == old(first.refs) - 1
    {
      ghost var s := nodes;
      WithoutDistinct(s, 0);
      Unlink(first, 0);
      assert s == [first] + Without(s, 0);
    }

    /** delete_all_nodes: each node is given up exactly once. */
    method RemoveAll()
      requires Valid()
      modifies this, nodes`next, nodes`prev, nodes`isValid, nodes`refs
      ensures Valid() && nodes == [] && (old(InOrder()) ==> InOrder())
      ensures forall n :: n in old(nodes) ==> !n.isValid && n.refs == old(n.refs) - 1
    {
      ghost var given: set<Node>, all: seq<Node> := {}, nodes;
      while head != null
        invariant Valid() && (forall n :: n in all <==> n in given || n in nodes)
        invariant forall n :: n in given ==> n !in nodes && !n.isValid && n.refs == old(n.refs) - 1
        invariant forall n :: n in nodes ==> n.refs == old(n.refs)
        decreases |nodes|
      {
        assert head in nodes && head in all;
        assert forall i :: 0 <= i < |nodes| ==> nodes[i] in all;
        given := given + {head};
        RemoveFirst(head);
      }
    }
  }
}
