/** The order in which a thread pool serves its tasks (threading/thread_pool.c). */
module TaskOrder {
  import opened Counting
  import opened Heap

  const IMMEDIATE: int := -1
  const LOWEST: int := 0
  const HIGHEST: int := 1000

  /** The fields of a task that the comparator looks at. */
  datatype Task = Task(priority: int, sec: int, msec: int)

  /** C division and remainder by 1000: toward zero, remainder with the dividend's sign. */
  function Quotient(a: int): int { if a >= 0 then a / 1000 else -((-a) / 1000) }
  function Remainder(a: int): int { a - Quotient(a) * 1000 }

  function AgedSec(t: Task): int { t.sec - Quotient(t.priority) }
  function AgedMsec(t: Task): int { t.msec - Remainder(t.priority) * 1000000 }

  /** compare_task_priority: it never returns 0, and -1 both ways on a tie. */
  function Compare(first: Task, second: Task): int {
    if first.priority == IMMEDIATE && second.priority != IMMEDIATE then 1
    else if second.priority == IMMEDIATE && first.priority != IMMEDIATE then -1
    else if AgedSec(first) < AgedSec(second)
         || (AgedSec(first) == AgedSec(second) && AgedMsec(first) < AgedMsec(second)) then 1
    else -1
  }

  /** "compare > 0" is a strict weak order on all tasks, so it is a legal order for the heap. */
  lemma CompareIsStrictWeak()
    ensures StrictWeak(Compare)
  {
    forall x, y, z | Compare(x, y) <= 0 && Compare(y, z) <= 0
      ensures Compare(x, z) <= 0
    {
      NegativelyTransitive(x, y, z);
    }
  }

  lemma NegativelyTransitive(x: Task, y: Task, z: Task)
    requires Compare(x, y) <= 0 && Compare(y, z) <= 0
    ensures Compare(x, z) <= 0
  {
  }

  /** Two tasks tie exactly when they are of one kind and have the same aged stamp. */
  lemma TieIff(x: Task, y: Task)
    ensures Compare(x, y) <= 0 && Compare(y, x) <= 0 <==>
              && (x.priority == IMMEDIATE <==> y.priority == IMMEDIATE)
              && AgedSec(x) == AgedSec(y) && AgedMsec(x) == AgedMsec(y)
  {
  }

  // ---------------------------------------------------------------- immediate tasks

  /** An immediate task goes before every other, whatever their stamps. */
  lemma ImmediateFirst(x: Task, y: Task)
    requires x.priority == IMMEDIATE && y.priority != IMMEDIATE
    ensures Compare(x, y) > 0 && Compare(y, x) < 0
  {
  }

  /** Of two immediate tasks the one added first goes first. */
  lemma ImmediatesByStamp(x: Task, y: Task)
    requires x.priority == IMMEDIATE && y.priority == IMMEDIATE
    ensures Compare(x, y) > 0 <==> x.sec < y.sec || (x.sec == y.sec && x.msec < y.msec)
  {
    assert Quotient(IMMEDIATE) == 0;
  }

  // ---------------------------------------------------------------- how far a task can be overtaken

  /** Neither immediate nor outside the documented range. */
  predicate Ordinary(t: Task) { LOWEST <= t.priority <= HIGHEST }

  /** The sub-second stamp is one. */
  predicate Stamped(t: Task) { 0 <= t.msec < 1000 }

  function Millis(t: Task): int { t.sec * 1000 + t.msec }

  /** Which of two ordinary tasks goes first whatever their sub-second stamps is decided by whole seconds. */
  lemma AheadWhateverMsecIff(x: Task, y: Task)
    requires Ordinary(x) && Ordinary(y)
    ensures (forall a, b :: Compare(x.(msec := a), y.(msec := b)) > 0) <==>
              x.sec - (if x.priority == HIGHEST then 1 else 0) < y.sec - (if y.priority == HIGHEST then 1 else 0)
  {
    if !(AgedSec(x) < AgedSec(y)) {
      var a := AgedMsec(y) - y.msec + Remainder(x.priority) * 1000000;
      assert Compare(x.(msec := a), y.(msec := 0)) <= 0;
    }
  }

  /** So two seconds are enough against any ordinary task. */
  lemma TwoSecondsAhead(x: Task, y: Task)
    requires Ordinary(x) && Ordinary(y) && x.sec + 2 <= y.sec
    ensures Compare(x, y) > 0
  {
  }

  /** With real sub-second stamps one second is, by the first millisecond beyond it: no task starves for longer. */
  lemma OneSecondAhead(x: Task, y: Task)
    requires Ordinary(x) && Ordinary(y) && Stamped(x) && Stamped(y) && Millis(x) + 1000 < Millis(y)
    ensures Compare(x, y) > 0
  {
  }

  /** A task of highest priority jumps one of lowest priority added less than 1000 ms before it, and no other. */
  lemma HighestJumpsLowestIff(x: Task, y: Task)
    requires x.priority == LOWEST && y.priority == HIGHEST && Stamped(x) && Stamped(y)
    ensures Compare(y, x) > 0 <==> Millis(y) < Millis(x) + 1000
  {
  }

  /** As documented: each step of priority is worth one millisecond. */
  predicate DocumentedAhead(y: Task, x: Task) { Millis(y) - y.priority < Millis(x) - x.priority }

  /**
   Between the extremes it is not: the stamp is in milliseconds and the bonus in nanoseconds,
   without carry.  A high task does not jump one 200 ms older across a second's end ...
   */
  lemma BonusLostAcrossSeconds(x: Task, y: Task)
    requires x == Task(LOWEST, 0, 900) && y == Task(750, 1, 100)
    ensures Stamped(x) && Stamped(y) && DocumentedAhead(y, x) && Compare(y, x) <= 0
  {
    OvertakesIff(x, y);
  }

  /** ... and one step of priority jumps 999 ms within a second. */
  lemma BonusInflatedWithinSecond(x: Task, y: Task)
    requires x.priority == LOWEST && y.priority == LOWEST + 1 && x.sec == y.sec && x.msec == 0 && y.msec == 999
    ensures !DocumentedAhead(y, x) && Compare(y, x) > 0
  {
    OvertakesIff(x, y);
  }

  /** The highest priority does not save a jump across a second's end either. */
  lemma HighestLosesToo(x: Task, y: Task)
    requires x == Task(1, 0, 995) && y == Task(HIGHEST, 1, 5)
    ensures Stamped(x) && Stamped(y) && DocumentedAhead(y, x) && Compare(y, x) <= 0
  {
    assert Bonus(x) == 1 && Bonus(y) == 0 && WholeSec(x) == 0 && WholeSec(y) == 0;
    OvertakesIff(x, y);
  }

  /** The highest priority is worth a whole second, and nothing within it. */
  function WholeSec(t: Task): int { t.sec - (if t.priority == HIGHEST then 1 else 0) }
  function Bonus(t: Task): int { if t.priority == HIGHEST then 0 else t.priority }

  /**
   What the code does for all ordinary tasks: whole seconds decide first, then the bonus, and
   the stamp within the second only between equals.
   */
  lemma OvertakesIff(x: Task, y: Task)
    requires Ordinary(x) && Ordinary(y) && Stamped(x) && Stamped(y)
    ensures Compare(y, x) > 0 <==>
              || WholeSec(y) < WholeSec(x)
              || (WholeSec(y) == WholeSec(x)
                  && (Bonus(y) > Bonus(x) || (Bonus(y) == Bonus(x) && y.msec < x.msec)))
  {
    AgedIs(x);
    AgedIs(y);
    BonusDominates(Bonus(x), Bonus(y), x.msec, y.msec);
  }

  lemma AgedIs(t: Task)
    requires Ordinary(t)
    ensures AgedSec(t) == WholeSec(t) && AgedMsec(t) == t.msec - Bonus(t) * 1000000
  {
    assert t.priority == HIGHEST || Quotient(t.priority) == 0;
  }

  lemma BonusDominates(p: int, q: int, a: int, b: int)
    requires 0 <= p < 1000 && 0 <= q < 1000 && 0 <= a < 1000 && 0 <= b < 1000
    ensures b - q * 1000000 < a - p * 1000000 <==> q > p || (q == p && b < a)
  {
    if q > p { assert q * 1000000 >= p * 1000000 + 1000000; }
    if q < p { assert p * 1000000 >= q * 1000000 + 1000000; }
  }

  /**
   The bonus cannot show: within one whole second the stamps differ by less than the bonuses
   do, or the bonuses are equal; one whole second apart, stamps and bonuses together make no
   difference of a second; further apart always.
   */
  predicate BonusAgrees(x: Task, y: Task) {
    var gap := WholeSec(x) - WholeSec(y);
    var stamps, bonuses := y.msec - x.msec, Bonus(y) - Bonus(x);
    if gap == 0 then bonuses == 0 || (if bonuses > 0 then stamps < bonuses else stamps >= bonuses)
    else if gap == 1 then stamps - bonuses < 1000
    else if gap == -1 then stamps - bonuses >= -1000
    else true
  }

  /** The code puts y before x as documented if and only if the bonus cannot show. */
  lemma AsDocumentedIff(x: Task, y: Task)
    requires Ordinary(x) && Ordinary(y) && Stamped(x) && Stamped(y)
    ensures (Compare(y, x) > 0 <==> DocumentedAhead(y, x)) <==> BonusAgrees(x, y)
  {
    OvertakesIff(x, y);
    DocumentedIs(x, y);
  }

  lemma DocumentedIs(x: Task, y: Task)
    requires Ordinary(x) && Ordinary(y)
    ensures DocumentedAhead(y, x) <==>
              (y.msec - x.msec) - (Bonus(y) - Bonus(x)) < 1000 * (WholeSec(x) - WholeSec(y))
  {
  }

  // ---------------------------------------------------------------- runs of the pool's queue

  /** What one insert or one remove did; `Idled` is a remove that found nothing. */
  datatype Event = Added(task: Task) | Served(task: Task) | Idled

  /** The tasks queued after a run, and whether every task served was a maximum when it was. */
  function Queued(run: seq<Event>): multiset<Task> {
    if run == [] then multiset{}
    else
      var q := Queued(run[..|run| - 1]);
      match run[|run| - 1]
      case Added(t) => q + multiset{t}
      case Served(t) => q - multiset{t}
      case Idled => q
  }

  ghost predicate HeapRun(run: seq<Event>) {
    forall i :: 0 <= i < |run| && run[i].Served? ==> IsMax(Compare, Queued(run[..i]), run[i].task)
  }

  /**
   Bounded overtaking: in any run of inserts and removes, a task still queued when another is
   served was not passed by one at least two seconds younger, nor, with real stamps, by one more
   than 1000 ms younger.
   */
  lemma NeverPassed(run: seq<Event>, i: nat, x: Task)
    requires HeapRun(run) && i < |run| && run[i].Served? && x in Queued(run[..i])
    requires Ordinary(x) && Ordinary(run[i].task)
    ensures run[i].task.sec < x.sec + 2
    ensures Stamped(x) && Stamped(run[i].task) ==> Millis(run[i].task) <= Millis(x) + 1000
  {
    NotPassed(x, run[i].task);
  }

  /** In any such run, a task that is not immediate is served only when no immediate one is queued. */
  lemma ImmediatesServedFirst(run: seq<Event>, i: nat, x: Task)
    requires HeapRun(run) && i < |run| && run[i].Served? && x in Queued(run[..i])
    requires x.priority == IMMEDIATE
    ensures run[i].task.priority == IMMEDIATE
    ensures run[i].task.sec < x.sec || (run[i].task.sec == x.sec && run[i].task.msec <= x.msec)
  {
    NotBeforeImmediate(x, run[i].task);
  }

  lemma NotBeforeImmediate(x: Task, y: Task)
    requires x.priority == IMMEDIATE && Compare(x, y) <= 0
    ensures y.priority == IMMEDIATE && (y.sec < x.sec || (y.sec == x.sec && y.msec <= x.msec))
  {
    if y.priority != IMMEDIATE {
      ImmediateFirst(x, y);
      assert false;
    }
    ImmediatesByStamp(x, y);
  }

  lemma NotPassed(x: Task, y: Task)
    requires Compare(x, y) <= 0 && Ordinary(x) && Ordinary(y)
    ensures y.sec < x.sec + 2
    ensures Stamped(x) && Stamped(y) ==> Millis(y) <= Millis(x) + 1000
  {
    if x.sec + 2 <= y.sec { TwoSecondsAhead(x, y); }
    if Stamped(x) && Stamped(y) && Millis(x) + 1000 < Millis(y) { OneSecondAhead(x, y); }
  }

  /** An add (Some) adds that task; a remove (None) serves one task, or idles exactly if none is queued. */
  predicate Answers(command: Option<Task>, queued: multiset<Task>, e: Event) {
    if command.Some? then e == Added(command.value)
    else if queued == multiset{} then e.Idled?
    else e.Served?
  }

  predicate Answered(commands: seq<Option<Task>>, run: seq<Event>) {
    |run| <= |commands| && forall i :: 0 <= i < |run| ==> Answers(commands[i], Queued(run[..i]), run[i])
  }

  lemma AnswersOneMore(commands: seq<Option<Task>>, run: seq<Event>, e: Event)
    requires Answered(commands, run) && |run| < |commands| && Answers(commands[|run|], Queued(run), e)
    ensures Answered(commands, run + [e])
  {
    var run' := run + [e];
    assert run'[..|run|] == run;
    assert forall i :: 0 <= i < |run| ==> run'[..i] == run[..i];
  }

  /** The heap of a pool after a run: its contents are what is queued. */
  ghost predicate Tracks(heap: Heap<Task>, run: seq<Event>)
    reads heap, heap.data
  {
    && heap.Valid() && heap.conf == HeapCapacity.Conf(0, 0) && heap.cmp == Compare
    && HeapCapacity.Spacious(heap.conf, heap.Extent())
    && HeapRun(run) && heap.Contents() == Queued(run)
  }

  method ServeOne(heap: Heap<Task>, ghost run: seq<Event>, command: Option<Task>) returns (e: Event)
    requires Tracks(heap, run)
    modifies heap`data, heap`used, heap.data
    ensures Tracks(heap, run + [e]) && (heap.data == old(heap.data) || fresh(heap.data))
    ensures Answers(command, Queued(run), e)
  {
    if command.Some? {
      HeapCapacity.RoomyStep(heap.conf, heap.Extent(), HeapCapacity.Insert);
      var ok := heap.Insert(command);
      e := Added(command.value);
    } else {
      HeapCapacity.RoomyStep(heap.conf, heap.Extent(), HeapCapacity.Remove);
      var served := heap.Remove();
      e := if served.Some? then Served(served.value) else Idled;
    }
    Extend(run, e);
  }

  method NewPoolHeap() returns (heap: Heap<Task>)
    ensures Tracks(heap, []) && fresh(heap) && fresh(heap.data)
  {
    CompareIsStrictWeak();
    heap := new Heap<Task>(Compare, HeapCapacity.Conf(0, 0));
  }

  /**
   The pool's heap, driven by any list of adds and removes, answers each command in turn and
   serves a maximum each time.
   */
  method ServeTasks(commands: seq<Option<Task>>) returns (run: seq<Event>)
    ensures HeapRun(run) && |run| == |commands| && Answered(commands, run)
  {
    var heap := NewPoolHeap();
    run := [];
    for n := 0 to |commands|
      invariant Tracks(heap, run) && fresh(heap) && fresh(heap.data) && |run| == n
      invariant Answered(commands, run)
    {
      var e := ServeOne(heap, run, commands[n]);
      AnswersOneMore(commands, run, e);
      run := run + [e];
    }
  }

  lemma Extend(run: seq<Event>, e: Event)
    requires HeapRun(run) && (e.Served? ==> IsMax(Compare, Queued(run), e.task))
    ensures HeapRun(run + [e])
    ensures Queued(run + [e]) == if e.Added? then Queued(run) + multiset{e.task}
                                 else if e.Served? then Queued(run) - multiset{e.task} else Queued(run)
  {
    var run' := run + [e];
    assert run'[..|run|] == run;
    assert forall i :: 0 <= i < |run| ==> run'[..i] == run[..i];
  }
}
