/** The binary heap of data_structures/heap.c: a 1-based array, largest item first. */
module Heap {
  import opened Counting
  import HeapCapacity

  // ---------------------------------------------------------------- orders

  /** "compare > 0" is a legal heap order: a strict order whose incomparability is transitive. */
  ghost predicate StrictWeak<T(!new)>(cmp: (T, T) -> int) {
    && (forall x, y :: cmp(x, y) > 0 ==> cmp(y, x) <= 0)
    && (forall x, y, z :: cmp(x, y) <= 0 && cmp(y, z) <= 0 ==> cmp(x, z) <= 0)
  }

  /** x is in s and nothing in s compares above it. */
  ghost predicate IsMax<T>(cmp: (T, T) -> int, s: multiset<T>, x: T) {
    x in s && forall y :: y in s ==> cmp(y, x) <= 0
  }

  ghost predicate NonIncreasing<T>(cmp: (T, T) -> int, s: seq<T>) {
    forall i, j :: 0 <= i < j < |s| ==> cmp(s[j], s[i]) <= 0
  }

  // ---------------------------------------------------------------- heaps as sequences

  function Parent(i: nat): nat { i / 2 }
  function Left(i: nat): nat { i * 2 }
  function Right(i: nat): nat { i * 2 + 1 }

  /** Item i of the heap; the items of the array, from the first to the last one used. */
  function At<T>(s: seq<T>, i: nat): T
    requires 1 <= i <= |s|
  {
    s[i - 1]
  }

  /** No item compares above its parent. */
  ghost predicate Ordered<T>(cmp: (T, T) -> int, s: seq<T>) {
    forall i :: 2 <= i <= |s| ==> cmp(At(s, i), At(s, Parent(i))) <= 0
  }

  /** Ordered, except that the item at `hole` may compare above its parent. */
  ghost predicate OrderedUp<T>(cmp: (T, T) -> int, s: seq<T>, hole: nat) {
    && (forall i :: 2 <= i <= |s| && i != hole ==> cmp(At(s, i), At(s, Parent(i))) <= 0)
    && (forall i :: 2 <= i <= |s| && Parent(i) == hole && hole >= 2 ==> cmp(At(s, i), At(s, Parent(hole))) <= 0)
  }

  /** Ordered, except that the item at `hole` may compare below its children. */
  ghost predicate OrderedDown<T>(cmp: (T, T) -> int, s: seq<T>, hole: nat) {
    && (forall i :: 2 <= i <= |s| && Parent(i) != hole ==> cmp(At(s, i), At(s, Parent(i))) <= 0)
    && (forall i :: 2 <= i <= |s| && Parent(i) == hole && hole >= 2 ==> cmp(At(s, i), At(s, Parent(hole))) <= 0)
  }

  function Swapped<T>(s: seq<T>, i: nat, j: nat): (r: seq<T>)
    requires 1 <= i <= |s| && 1 <= j <= |s|
    ensures |r| == |s| && multiset(r) == multiset(s)
  {
    s[i - 1 := s[j - 1]][j - 1 := s[i - 1]]
  }

  /** heapify_up from item i. */
  function SiftUp<T>(cmp: (T, T) -> int, s: seq<T>, i: nat): (r: seq<T>)
    requires 1 <= i <= |s|
    ensures |r| == |s| && multiset(r) == multiset(s)
    decreases i
  {
    if i > 1 && cmp(At(s, i), At(s, Parent(i))) > 0 then SiftUp(cmp, Swapped(s, i, Parent(i)), Parent(i)) else s
  }

  /** The item heapify_down exchanges item i with; i itself if it stays. */
  function Largest<T>(cmp: (T, T) -> int, s: seq<T>, i: nat): (r: nat)
    requires 1 <= i <= |s|
    ensures r == i || (r <= |s| && (r == Left(i) || r == Right(i)))
  {
    var l := if Left(i) <= |s| && cmp(At(s, Left(i)), At(s, i)) > 0 then Left(i) else i;
    if Right(i) <= |s| && cmp(At(s, Right(i)), At(s, l)) > 0 then Right(i) else l
  }

  /** heapify_down from item i. */
  function SiftDown<T>(cmp: (T, T) -> int, s: seq<T>, i: nat): (r: seq<T>)
    requires 1 <= i
    ensures |r| == |s| && multiset(r) == multiset(s)
    decreases if i <= |s| then |s| - i + 1 else 0
  {
    if i > |s| || Largest(cmp, s, i) == i then s
    else SiftDown(cmp, Swapped(s, Largest(cmp, s, i), i), Largest(cmp, s, i))
  }

  /** c_utils_heap_insert: the new item goes behind the last one and moves up to its place. */
  function Added<T>(cmp: (T, T) -> int, s: seq<T>, x: T): (r: seq<T>)
    ensures |r| == |s| + 1 && multiset(r) == multiset(s) + multiset{x}
  {
    SiftUp(cmp, s + [x], |s| + 1)
  }

  /** The last item in the place of the first one. */
  function LastFirst<T>(s: seq<T>): (r: seq<T>)
    requires s != []
    ensures |r| == |s| - 1 && multiset(s) == multiset(r) + multiset{s[0]}
  {
    var n := |s| - 1;
    assert s == s[..n] + [s[n]];
    assert n > 0 ==> s[..n] == [s[0]] + s[1..n];
    if n == 0 then [] else [s[n]] + s[1..n]
  }

  /** extract_max: the last item takes the first one's place and moves down to its own. */
  function Extracted<T>(cmp: (T, T) -> int, s: seq<T>): (r: seq<T>)
    requires s != []
    ensures |r| == |s| - 1 && multiset(s) == multiset(r) + multiset{s[0]}
  {
    SiftDown(cmp, LastFirst(s), 1)
  }

  // ---------------------------------------------------------------- sifting restores the order

  /** Moving a large item one level up. */
  lemma SiftUpStep<T(!new)>(cmp: (T, T) -> int, s: seq<T>, hole: nat)
    requires StrictWeak(cmp) && 2 <= hole <= |s|
    requires OrderedUp(cmp, s, hole) && cmp(At(s, hole), At(s, Parent(hole))) > 0
    ensures OrderedUp(cmp, Swapped(s, hole, Parent(hole)), Parent(hole))
  {
    var p := Parent(hole);
    var e := Swapped(s, hole, p);
    assert cmp(At(s, p), At(s, hole)) <= 0;
    forall i | 2 <= i <= |s| && i != p
      ensures cmp(At(e, i), At(e, Parent(i))) <= 0
    {
      if i != hole && Parent(i) == p { assert cmp(At(s, i), At(s, p)) <= 0; }
    }
    forall i | 2 <= i <= |s| && Parent(i) == p && p >= 2
      ensures cmp(At(e, i), At(e, Parent(p))) <= 0
    {
      assert cmp(At(s, p), At(s, Parent(p))) <= 0;
    }
  }

  lemma {:induction false} SiftUpOrdered<T(!new)>(cmp: (T, T) -> int, s: seq<T>, i: nat)
    requires StrictWeak(cmp) && 1 <= i <= |s| && OrderedUp(cmp, s, i)
    ensures Ordered(cmp, SiftUp(cmp, s, i))
    decreases i
  {
    if i > 1 && cmp(At(s, i), At(s, Parent(i))) > 0 {
      SiftUpStep(cmp, s, i);
      SiftUpOrdered(cmp, Swapped(s, i, Parent(i)), Parent(i));
    }
  }

  /** Inserting keeps the heap order. */
  lemma AddedOrdered<T(!new)>(cmp: (T, T) -> int, s: seq<T>, x: T)
    requires StrictWeak(cmp) && Ordered(cmp, s)
    ensures Ordered(cmp, Added(cmp, s, x))
  {
    var e := s + [x];
    forall i | 2 <= i <= |e| && i != |e|
      ensures cmp(At(e, i), At(e, Parent(i))) <= 0
    {
      assert At(e, i) == At(s, i) && At(e, Parent(i)) == At(s, Parent(i));
    }
    SiftUpOrdered(cmp, e, |e|);
  }

  /** The child picked by heapify_down is not below any other child, nor is the parent if none is picked. */
  lemma LargestOfThree<T(!new)>(cmp: (T, T) -> int, s: seq<T>, i: nat)
    requires StrictWeak(cmp) && 1 <= i <= |s|
    ensures var l := Largest(cmp, s, i);
            && (forall j :: 2 <= j <= |s| && Parent(j) == i ==> cmp(At(s, j), At(s, l)) <= 0)
            && (l != i ==> 2 <= l <= |s| && Parent(l) == i && cmp(At(s, l), At(s, i)) > 0)
  {
    forall j | 2 <= j <= |s| && Parent(j) == i
      ensures j == Left(i) || j == Right(i)
    {
    }
    assert forall x :: cmp(x, x) <= 0;
  }

  /** Moving a small item one level down, to where the larger child was. */
  lemma SiftDownStep<T(!new)>(cmp: (T, T) -> int, s: seq<T>, hole: nat, big: nat)
    requires StrictWeak(cmp) && 1 <= hole && 2 <= big <= |s| && Parent(big) == hole
    requires OrderedDown(cmp, s, hole) && cmp(At(s, big), At(s, hole)) > 0
    requires forall i :: 2 <= i <= |s| && Parent(i) == hole ==> cmp(At(s, i), At(s, big)) <= 0
    ensures OrderedDown(cmp, Swapped(s, big, hole), big)
  {
    var e := Swapped(s, big, hole);
    assert cmp(At(s, hole), At(s, big)) <= 0;
    assert At(e, hole) == At(s, big) && At(e, big) == At(s, hole);
    assert forall i :: 1 <= i <= |s| && i != hole && i != big ==> At(e, i) == At(s, i);
    forall i | 2 <= i <= |s| && Parent(i) != big
      ensures cmp(At(e, i), At(e, Parent(i))) <= 0
    {
      if i == hole {
        assert cmp(At(s, big), At(s, Parent(hole))) <= 0;
      } else if Parent(i) == hole {
        assert i == big || cmp(At(s, i), At(s, big)) <= 0;
      } else {
        assert cmp(At(s, i), At(s, Parent(i))) <= 0;
      }
    }
    forall i | 2 <= i <= |s| && Parent(i) == big
      ensures cmp(At(e, i), At(e, Parent(big))) <= 0
    {
      assert cmp(At(s, i), At(s, big)) <= 0;
    }
  }

  lemma {:induction false} SiftDownOrdered<T(!new)>(cmp: (T, T) -> int, s: seq<T>, i: nat)
    requires StrictWeak(cmp) && 1 <= i && OrderedDown(cmp, s, i)
    ensures Ordered(cmp, SiftDown(cmp, s, i))
    decreases if i <= |s| then |s| - i + 1 else 0
  {
    if i <= |s| {
      LargestOfThree(cmp, s, i);
      var l := Largest(cmp, s, i);
      if l != i {
        SiftDownStep(cmp, s, i, l);
        SiftDownOrdered(cmp, Swapped(s, l, i), l);
      }
    }
  }

  /** Extracting keeps the heap order. */
  lemma ExtractedOrdered<T(!new)>(cmp: (T, T) -> int, s: seq<T>)
    requires StrictWeak(cmp) && Ordered(cmp, s) && s != []
    ensures Ordered(cmp, Extracted(cmp, s))
  {
    var e := LastFirst(s);
    forall i | 2 <= i <= |e| && Parent(i) != 1
      ensures cmp(At(e, i), At(e, Parent(i))) <= 0
    {
      assert At(e, i) == At(s, i) && At(e, Parent(i)) == At(s, Parent(i));
    }
    SiftDownOrdered(cmp, e, 1);
  }

  lemma {:induction false} RootAbove<T(!new)>(cmp: (T, T) -> int, s: seq<T>, i: nat)
    requires StrictWeak(cmp) && Ordered(cmp, s) && 1 <= i <= |s|
    ensures cmp(At(s, i), At(s, 1)) <= 0
    decreases i
  {
    if i == 1 {
      assert forall x :: cmp(x, x) <= 0;
    } else {
      RootAbove(cmp, s, Parent(i));
      assert cmp(At(s, i), At(s, Parent(i))) <= 0;
    }
  }

  /** The first item of a heap is a maximum of all of them. */
  lemma RootIsMax<T(!new)>(cmp: (T, T) -> int, s: seq<T>)
    requires StrictWeak(cmp) && Ordered(cmp, s) && s != []
    ensures IsMax(cmp, multiset(s), s[0])
  {
    forall y | y in multiset(s)
      ensures cmp(y, s[0]) <= 0
    {
      var i :| 0 <= i < |s| && s[i] == y;
      RootAbove(cmp, s, i + 1);
    }
  }

  // ---------------------------------------------------------------- the heap

  class Heap<T(0, !new)> {
    var data: array<T>
    var used: nat
    const cmp: (T, T) -> int
    const conf: HeapCapacity.Conf

    ghost predicate Valid()
      reads this, data
    {
      used < data.Length && Ordered(cmp, Slots()) && StrictWeak(cmp)
    }

    /** The items in the order of the array. */
    ghost function Slots(): (s: seq<T>)
      reads this, data
      requires used < data.Length
      ensures |s| == used
    {
      data[1..used + 1]
    }

    ghost function Contents(): multiset<T>
      reads this, data
      requires used < data.Length
    {
      multiset(Slots())
    }

    /** How full the array is. */
    function Extent(): HeapCapacity.Extent
      reads this, data
    {
      HeapCapacity.Extent(used, data.Length)
    }

    /** c_utils_heap_create_conf */
    constructor (cmp: (T, T) -> int, conf: HeapCapacity.Conf)
      requires StrictWeak(cmp)
      ensures Valid() && fresh(data) && Slots() == []
      ensures this.cmp == cmp && this.conf == conf && Extent() == HeapCapacity.Run(conf, [])
    {
      this.cmp := cmp;
      this.conf := conf;
      data := new T[HeapCapacity.InitialSize(conf)];
      used := 0;
    }

    method Swap(i: nat, j: nat)
      requires 1 <= i <= used < data.Length && 1 <= j <= used
      modifies data
      ensures Slots() == Swapped(old(Slots()), i, j)
    {
      data[i], data[j] := data[j], data[i];
    }

    method HeapifyUp()
      requires 1 <= used < data.Length
      modifies data
      ensures Slots() == SiftUp(cmp, old(Slots()), used)
    {
      var i := used;
      while i > 1
        invariant 1 <= i <= used
        invariant SiftUp(cmp, Slots(), i) == SiftUp(cmp, old(Slots()), used)
      {
        assert data[i] == At(Slots(), i) && data[Parent(i)] == At(Slots(), Parent(i));
        if cmp(data[i], data[Parent(i)]) > 0 {
          Swap(i, Parent(i));
          i := Parent(i);
        } else {
          break;
        }
      }
    }

    method HeapifyDown()
      requires used < data.Length
      modifies data
      ensures Slots() == SiftDown(cmp, old(Slots()), 1)
    {
      var i := 1;
      while i <= used
        invariant 1 <= i
        invariant SiftDown(cmp, Slots(), i) == SiftDown(cmp, old(Slots()), 1)
        decreases data.Length - i
      {
        var largest := PickLargest(i);
        if largest == i {
          break;
        }
        Swap(largest, i);
        i := largest;
      }
    }

    /** The comparisons of one turn of heapify_down. */
    method PickLargest(i: nat) returns (largest: nat)
      requires 1 <= i <= used < data.Length
      ensures largest == Largest(cmp, Slots(), i)
    {
      largest := i;
      if Left(i) <= used && cmp(data[Left(i)], data[largest]) > 0 {
        largest := Left(i);
      }
      if Right(i) <= used && cmp(data[Right(i)], data[largest]) > 0 {
        largest := Right(i);
      }
    }

    /** realloc: another array with the same items. */
    method Resize(size: nat)
      requires used < data.Length && used < size
      modifies this`data
      ensures fresh(data) && data.Length == size && Slots() == old(Slots())
    {
      var bigger := new T[size];
      forall i | 0 <= i < data.Length && i < size {
        bigger[i] := data[i];
      }
      data := bigger;
    }

    /** Writing the new item, and the items after growing, stay inside the array. */
    predicate HasRoom()
      reads this, data
    {
      HeapCapacity.HasRoom(conf, Extent())
    }

    /** c_utils_heap_insert; None stands for a null item. */
    method Insert(item: Option<T>) returns (ok: bool)
      requires Valid() && HasRoom()
      modifies this`data, this`used, data
      ensures Valid() && (data == old(data) || fresh(data))
      ensures ok <==> item.Some? && !(conf.max != 0 && conf.max == old(used))
      ensures Slots() == if ok then Added(cmp, old(Slots()), item.value) else old(Slots())
      ensures Extent() == if item.None? then old(Extent())
                          else HeapCapacity.Step(conf, old(Extent()), HeapCapacity.Insert)
    {
      if item.None? || (conf.max != 0 && conf.max == used) {
        return false;
      }
      AddedOrdered(cmp, Slots(), item.value);
      Place(item.value);
      if used as real / data.Length as real > HeapCapacity.GROWTH_TRIGGER {
        Resize(HeapCapacity.Resized(conf.max, data.Length, data.Length * HeapCapacity.GROWTH_RATE));
      }
      return true;
    }

    method Place(item: T)
      requires used + 1 < data.Length
      modifies this`used, data
      ensures used == old(used) + 1 && data == old(data)
      ensures Slots() == Added(cmp, old(Slots()), item)
    {
      ghost var s := Slots();
      used := used + 1;
      data[used] := item;
      assert Slots() == s + [item];
      HeapifyUp();
    }

    /** c_utils_heap_get */
    method Get() returns (item: Option<T>)
      requires Valid()
      ensures if Contents() == multiset{} then item.None? else item.Some? && IsMax(cmp, Contents(), item.value)
    {
      if used == 0 {
        return None;
      }
      RootIsMax(cmp, Slots());
      return Some(data[1]);
    }

    /** extract_max */
    method ExtractMax() returns (top: T)
      requires 1 <= used < data.Length
      modifies this`used, data
      ensures data == old(data) && used == old(used) - 1
      ensures top == old(Slots())[0] && Slots() == Extracted(cmp, old(Slots()))
    {
      ghost var s := Slots();
      top := data[1];
      data[1] := data[used];
      used := used - 1;
      assert Slots() == LastFirst(s);
      HeapifyDown();
    }

    /** c_utils_heap_remove */
    method Remove() returns (item: Option<T>)
      requires Valid()
      modifies this`used, data
      ensures Valid() && data == old(data)
      ensures item.None? <==> old(Slots()) == []
      ensures if old(Slots()) == [] then Slots() == []
              else item.value == old(Slots())[0] && Slots() == Extracted(cmp, old(Slots()))
      ensures item.Some? ==> IsMax(cmp, old(Contents()), item.value)
                             && Contents() == old(Contents()) - multiset{item.value}
      ensures Extent() == HeapCapacity.Step(conf, old(Extent()), HeapCapacity.Remove)
    {
      if used == 0 {
        return None;
      }
      RootIsMax(cmp, Slots());
      ExtractedOrdered(cmp, Slots());
      var top := ExtractMax();
      return Some(top);
    }

    /** c_utils_heap_remove_all */
    method RemoveAll()
      requires Valid()
      modifies this`used
      ensures Valid() && Slots() == []
      ensures Extent() == HeapCapacity.Step(conf, old(Extent()), HeapCapacity.RemoveAll)
    {
      used := 0;
    }

    /** Removing until the heap is empty hands out a permutation of it, largest first. */
    method Drain() returns (out: seq<T>)
      requires Valid()
      modifies this`used, data
      ensures Valid() && Slots() == []
      ensures multiset(out) == old(Contents()) && NonIncreasing(cmp, out)
    {
      out := [];
      while used > 0
        invariant Valid() && data == old(data)
        invariant multiset(out) + Contents() == old(Contents())
        invariant NonIncreasing(cmp, out)
        invariant forall x, y :: x in out && y in Contents() ==> cmp(y, x) <= 0
        decreases used
      {
        ghost var before, had := Contents(), out;
        var item := Remove();
        DrainStep(cmp, had, before, item.value);
        out := out + [item.value];
      }
    }
  }

  /** Handing out a maximum after items none of which is below the rest. */
  lemma DrainStep<T(!new)>(cmp: (T, T) -> int, out: seq<T>, rest: multiset<T>, x: T)
    requires StrictWeak(cmp) && NonIncreasing(cmp, out) && IsMax(cmp, rest, x)
    requires forall a, b :: a in out && b in rest ==> cmp(b, a) <= 0
    ensures multiset(out + [x]) + (rest - multiset{x}) == multiset(out) + rest
    ensures NonIncreasing(cmp, out + [x])
    ensures forall a, b :: a in out + [x] && b in rest - multiset{x} ==> cmp(b, a) <= 0
  {
    assert multiset(out + [x]) == multiset(out) + multiset{x};
    forall a, b | a in out + [x] && b in rest - multiset{x}
      ensures cmp(b, a) <= 0
    {
      assert b in rest;
      assert a in out || a == x;
    }
  }
}
