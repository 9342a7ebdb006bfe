/**
 How the array of a heap (data_structures/heap.c) grows, apart from what is in it.  The heap
 is 1-based, so an array of `size` slots has room for the items 1 .. size - 1.
 */
module HeapCapacity {

  const DEFAULT_INITIAL: nat := 64
  const GROWTH_RATE: nat := 2
  const GROWTH_TRIGGER: real := 0.75

  /** `max` is 0 for an unbounded heap. */
  datatype Conf = Conf(initial: nat, max: nat)

  datatype Extent = Extent(used: nat, size: nat)

  datatype Op = Insert | Remove | RemoveAll

  /** configure: an initial size of 0 means the default. */
  function InitialSize(conf: Conf): (size: nat)
    ensures size >= 1
  {
    if conf.initial == 0 then DEFAULT_INITIAL else conf.initial
  }

  /** resize: never beyond max, and not at all once max is reached. */
  function Resized(max: nat, size: nat, wanted: nat): nat {
    if max != 0 && size == max then size
    else if max != 0 && max < wanted then max
    else wanted
  }

  /** The size after an insert has raised `used`. */
  function Grown(max: nat, used: nat, size: nat): nat
    requires size >= 1
  {
    if used as real / size as real > GROWTH_TRIGGER then Resized(max, size, size * GROWTH_RATE) else size
  }

  function Step(conf: Conf, e: Extent, op: Op): Extent
    requires e.size >= 1
  {
    match op
    case Insert =>
      if conf.max != 0 && conf.max == e.used then e
      else Extent(e.used + 1, Grown(conf.max, e.used + 1, e.size))
    case Remove => if e.used == 0 then e else e.(used := e.used - 1)
    case RemoveAll => e.(used := 0)
  }

  lemma GrownPositive(max: nat, used: nat, size: nat)
    requires size >= 1
    ensures Grown(max, used, size) >= 1
    ensures Grown(max, used, size) == (if 4 * used > 3 * size then Resized(max, size, 2 * size) else size)
  {
    TriggerIsThreeQuarters(used, size);
  }

  lemma TriggerIsThreeQuarters(used: nat, size: nat)
    requires size >= 1
    ensures used as real / size as real > GROWTH_TRIGGER <==> 4 * used > 3 * size
  {
    var q, n := used as real / size as real, size as real;
    assert q * n == used as real;
    assert (q > 0.75) == (q * n > 0.75 * n);
  }

  function Run(conf: Conf, ops: seq<Op>): (e: Extent)
    ensures e.size >= 1
  {
    if ops == [] then Extent(0, InitialSize(conf))
    else
      var e := Run(conf, ops[..|ops| - 1]);
      GrownPositive(conf.max, e.used + 1, e.size);
      Step(conf, e, ops[|ops| - 1])
  }

  /** An insert writes inside the array, and the array after growing holds every item. */
  predicate HasRoom(conf: Conf, e: Extent) {
    e.size >= 1 && ((conf.max != 0 && conf.max == e.used) ||
                    (e.used + 1 < e.size && e.used + 1 < Grown(conf.max, e.used + 1, e.size)))
  }

  ghost predicate AlwaysInBounds(conf: Conf) {
    forall ops: seq<Op> :: HasRoom(conf, Run(conf, ops))
  }

  /** What a caller can check before creating the heap. */
  predicate Roomy(conf: Conf) {
    if conf.max == 0 then InitialSize(conf) >= 5 else 4 * conf.max <= 3 * InitialSize(conf)
  }

  /** At most three quarters full, and no smaller than at first; a bounded array keeps its size. */
  predicate Spacious(conf: Conf, e: Extent) {
    && 4 * e.used <= 3 * e.size && e.size >= InitialSize(conf)
    && (conf.max != 0 ==> e.used <= conf.max && e.size == InitialSize(conf))
  }

  lemma RoomyStep(conf: Conf, e: Extent, op: Op)
    requires Roomy(conf) && Spacious(conf, e)
    ensures HasRoom(conf, e) && Spacious(conf, Step(conf, e, op))
  {
    GrownPositive(conf.max, e.used + 1, e.size);
  }

  lemma {:induction false} RoomyRun(conf: Conf, ops: seq<Op>)
    requires Roomy(conf)
    ensures Spacious(conf, Run(conf, ops))
    decreases |ops|
  {
    if ops != [] {
      RoomyRun(conf, ops[..|ops| - 1]);
      RoomyStep(conf, Run(conf, ops[..|ops| - 1]), ops[|ops| - 1]);
    }
  }

  function Inserts(n: nat): seq<Op> { seq(n, _ => Insert) }

  lemma InsertsSplit(n: nat)
    requires n > 0
    ensures Inserts(n)[..n - 1] == Inserts(n - 1) && Inserts(n)[n - 1] == Insert
  {
  }

  /** An unbounded heap of at most four slots has not grown when it is full. */
  lemma {:induction false} SmallRun(conf: Conf, n: nat)
    requires conf.max == 0 && n < InitialSize(conf) <= 4
    ensures Run(conf, Inserts(n)) == Extent(n, InitialSize(conf))
    decreases n
  {
    if n > 0 {
      InsertsSplit(n);
      SmallRun(conf, n - 1);
      GrownPositive(conf.max, n, InitialSize(conf));
    }
  }

  /** A bounded heap either still has its initial array or one of at most max slots. */
  lemma {:induction false} BoundedRun(conf: Conf, n: nat)
    requires n <= conf.max && conf.max != 0
    ensures var e := Run(conf, Inserts(n));
            e.used == n && (e.size == InitialSize(conf) || e.size <= conf.max)
            && (n > 0 && 4 * n > 3 * InitialSize(conf) && e.size == InitialSize(conf) ==> e.size <= conf.max)
    decreases n
  {
    if n > 0 {
      InsertsSplit(n);
      BoundedRun(conf, n - 1);
      GrownPositive(conf.max, n, Run(conf, Inserts(n - 1)).size);
    }
  }

  /**
   Every write of every run is inside the array if and only if an unbounded heap starts with
   at least five slots, and a bounded one with at least four thirds of its maximum.
   */
  lemma InBoundsIffRoomy(conf: Conf)
    ensures AlwaysInBounds(conf) <==> Roomy(conf)
  {
    if Roomy(conf) {
      forall ops: seq<Op>
        ensures HasRoom(conf, Run(conf, ops))
      {
        RoomyRun(conf, ops);
        RoomyStep(conf, Run(conf, ops), Insert);
      }
    } else if conf.max == 0 {
      SmallRun(conf, InitialSize(conf) - 1);
      assert !HasRoom(conf, Run(conf, Inserts(InitialSize(conf) - 1)));
    } else {
      var e := Run(conf, Inserts(conf.max - 1));
      BoundedRun(conf, conf.max - 1);
      GrownPositive(conf.max, conf.max, e.size);
      assert !HasRoom(conf, e);
    }
  }

  /** With the default configuration the array is at most three quarters full after every operation. */
  lemma DefaultHeapHasRoom(ops: seq<Op>)
    ensures var e := Run(Conf(0, 0), ops); 4 * e.used <= 3 * e.size && e.used < e.size
  {
    RoomyRun(Conf(0, 0), ops);
  }
}
