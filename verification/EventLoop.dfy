/**
 The polling event loop and its timed sources (threading/event_loop.c).

 The clock, the callbacks' results and the moment the loop is stopped come from outside:
 every visit of a source gets a clock reading and what its callbacks would return.
 */
module EventLoop {

  /** struct timeval */
  datatype Time = Time(sec: int, usec: int)

  const MILLION := 1_000_000
  const UINT_RANGE := 0x1_0000_0000

  predicate Normal(t: Time) { 0 <= t.usec < MILLION }

  function Micros(t: Time): int { t.sec * MILLION + t.usec }

  /** timercmp with `<` */
  predicate Before(a: Time, b: Time) {
    if a.sec == b.sec then a.usec < b.usec else a.sec < b.sec
  }

  /** timeradd: one carry. */
  function Plus(a: Time, b: Time): Time {
    var sec, usec := a.sec + b.sec, a.usec + b.usec;
    if usec >= MILLION then Time(sec + 1, usec - MILLION) else Time(sec, usec)
  }

  const CLEAR := Time(0, 0)

  /** The timeout of so many milliseconds as the loop computes it. */
  function Period(timeout: nat): Time { Time(timeout / 1000, timeout % 1000 * 1000) }

  /** What the callbacks were called for, in order; 0 is the null pointer. */
  datatype Event =
    | Prepared(data: nat)
    | Checked(data: nat)
    | Dispatched(data: nat, at: Time)
    | Finalized(data: nat)

  /** Which callbacks a source has (`dispatch` is never missing), and its timeout in milliseconds. */
  datatype Kind = Kind(prepares: bool, checks: bool, finalizes: bool, timeout: nat)

  /** The fields the loop changes. */
  datatype Status = Status(finished: bool, prepared: bool, data: nat, next: Time, log: seq<Event>)

  const FRESH := Status(false, false, 0, CLEAR, [])

  /** One visit: the clock, and what prepare, check and dispatch return if they are called. */
  datatype Input = Input(now: Time, data: nat, ready: bool, last: bool)

  // ---------------------------------------------------------------- one visit as a function

  function Prepare(k: Kind, s: Status, i: Input): Status {
    if k.prepares && !s.prepared then s.(data := i.data, prepared := true, log := s.log + [Prepared(i.data)]) else s
  }

  /** The timer lets the event through: it is untimed, or armed and expired. */
  predicate Due(k: Kind, s: Status, i: Input) {
    k.timeout == 0 || (Before(s.next, i.now) && s.next != CLEAR)
  }

  function Rearm(k: Kind, s: Status, i: Input): Status {
    if k.timeout != 0 && Before(s.next, i.now) then s.(next := Plus(i.now, Period(k.timeout))) else s
  }

  function Trigger(k: Kind, s: Status, i: Input): Status {
    var checked := if k.checks then s.log + [Checked(s.data)] else s.log;
    if k.checks && !i.ready then s.(log := checked)
    else
      var dispatched := checked + [Dispatched(s.data, i.now)];
      if !i.last then s.(log := dispatched)
      else s.(log := if k.finalizes then dispatched + [Finalized(s.data)] else dispatched, finished := true)
  }

  function Visited(k: Kind, s: Status, i: Input): Status {
    if s.finished then s
    else
      var s1 := Prepare(k, s, i);
      var s2 := Rearm(k, s1, i);
      if Due(k, s1, i) then Trigger(k, s2, i) else s2
  }

  function Run(k: Kind, s: Status, ins: seq<Input>): Status {
    if ins == [] then s else Visited(k, Run(k, s, ins[..|ins| - 1]), ins[|ins| - 1])
  }

  // ---------------------------------------------------------------- the objects

  class Source {
    const kind: Kind
    var finished: bool
    var prepared: bool
    var data: nat
    var next: Time
    var log: seq<Event>

    /** c_utils_event_source_create: the timeout is cut down to an unsigned int. */
    constructor (prepares: bool, checks: bool, finalizes: bool, timeout: nat)
      ensures Now() == FRESH && kind == Kind(prepares, checks, finalizes, timeout % UINT_RANGE)
    {
      kind := Kind(prepares, checks, finalizes, timeout % UINT_RANGE);
      finished, prepared, data, next, log := false, false, 0, CLEAR, [];
    }

    function Now(): Status reads this { Status(finished, prepared, data, next, log) }

    /** The body of the loop over the sources. */
    method Visit(i: Input)
      modifies this
      ensures Now() == Visited(kind, old(Now()), i)
    {
      if finished { return; }
      if kind.prepares && !prepared {
        data := i.data;
        prepared := true;
        log := log + [Prepared(data)];
      }
      var event := true;
      if kind.timeout != 0 {
        if Before(next, i.now) {
          if next == CLEAR { event := false; }
          next := Plus(i.now, Period(kind.timeout));
        } else {
          event := false;
        }
      }
      if event {
        var ready := true;
        if kind.checks {
          log := log + [Checked(data)];
          ready := i.ready;
        }
        if ready {
          log := log + [Dispatched(data, i.now)];
          if i.last {
            if kind.finalizes { log := log + [Finalized(data)]; }
            finished := true;
          }
        }
      }
    }
  }

  /** A pass visits sources[i] with ins[i]: what comes to one source, which may have been added twice. */
  function Share(sources: seq<Source>, ins: seq<Input>, src: Source): seq<Input>
    requires |ins| == |sources|
  {
    if ins == [] then []
    else
      var n := |ins| - 1;
      Share(sources[..n], ins[..n], src) + (if sources[n] == src then [ins[n]] else [])
  }

  function Shares(sources: seq<Source>, passes: seq<seq<Input>>, src: Source): seq<Input>
    requires forall p :: 0 <= p < |passes| ==> |passes[p]| == |sources|
  {
    if passes == [] then []
    else
      var n := |passes| - 1;
      Shares(sources, passes[..n], src) + Share(sources, passes[n], src)
  }

  lemma {:induction false} RunAppend(k: Kind, s: Status, a: seq<Input>, b: seq<Input>)
    ensures Run(k, s, a + b) == Run(k, Run(k, s, a), b)
    decreases |b|
  {
    if b == [] {
      assert a + b == a;
    } else {
      var n := |b| - 1;
      RunAppend(k, s, a, b[..n]);
      assert (a + b)[..|a + b| - 1] == a + b[..n];
    }
  }

  lemma RunOneMore(k: Kind, s: Status, a: seq<Input>, i: Input)
    ensures Run(k, s, a + [i]) == Visited(k, Run(k, s, a), i) && a + [] == a
  {
    assert (a + [i])[..|a|] == a;
  }

  lemma ShareGrows(sources: seq<Source>, ins: seq<Input>, i: nat, src: Source)
    requires |ins| == |sources| && i < |ins|
    ensures Share(sources[..i + 1], ins[..i + 1], src) ==
            Share(sources[..i], ins[..i], src) + (if sources[i] == src then [ins[i]] else [])
  {
    assert sources[..i + 1][..i] == sources[..i] && ins[..i + 1][..i] == ins[..i];
  }

  /** One pass over the sources; they do not disturb each other. */
  method Pass(sources: seq<Source>, ins: seq<Input>)
    requires |ins| == |sources|
    modifies sources
    ensures forall src :: src in sources ==> src.Now() == Run(src.kind, old(src.Now()), Share(sources, ins, src))
  {
    var i := 0;
    while i < |sources|
      invariant 0 <= i <= |sources|
      invariant forall src :: src in sources ==>
                  src.Now() == Run(src.kind, old(src.Now()), Share(sources[..i], ins[..i], src))
    {
      label Before:
      assert sources[i] in sources;
      sources[i].Visit(ins[i]);
      forall src | src in sources
        ensures src.Now() == Run(src.kind, old(src.Now()), Share(sources[..i + 1], ins[..i + 1], src))
      {
        ShareGrows(sources, ins, i, src);
        RunOneMore(src.kind, old(src.Now()), Share(sources[..i], ins[..i], src), ins[i]);
        assert src != sources[i] ==> src.Now() == old@Before(src.Now());
      }
      i := i + 1;
    }
    assert sources[..i] == sources && ins[..i] == ins;
  }

  /** c_utils_event_loop_run, stopped after so many passes. */
  method RunLoop(sources: seq<Source>, passes: seq<seq<Input>>)
    requires forall p :: 0 <= p < |passes| ==> |passes[p]| == |sources|
    modifies sources
    ensures forall src :: src in sources ==> src.Now() == Run(src.kind, old(src.Now()), Shares(sources, passes, src))
  {
    var p := 0;
    while p < |passes|
      invariant 0 <= p <= |passes|
      invariant forall src :: src in sources ==>
                  src.Now() == Run(src.kind, old(src.Now()), Shares(sources, passes[..p], src))
    {
      Pass(sources, passes[p]);
      forall src | src in sources
        ensures src.Now() == Run(src.kind, old(src.Now()), Shares(sources, passes[..p + 1], src))
      {
        assert passes[..p + 1][..p] == passes[..p];
        RunAppend(src.kind, old(src.Now()), Shares(sources, passes[..p], src), Share(sources, passes[p], src));
      }
      p := p + 1;
    }
    assert passes[..p] == passes;
  }

  // ---------------------------------------------------------------- clock arithmetic

  lemma BeforeIsLess(a: Time, b: Time)
    requires Normal(a) && Normal(b)
    ensures Before(a, b) <==> Micros(a) < Micros(b)
  {
  }

  /** One carry is enough, and the sum is exact to the microsecond. */
  lemma PlusIsExact(a: Time, timeout: nat)
    requires Normal(a)
    ensures Normal(Plus(a, Period(timeout)))
    ensures Micros(Plus(a, Period(timeout))) == Micros(a) + 1000 * timeout
  {
  }

  // ---------------------------------------------------------------- the timer of one source

  predicate Ticking(ins: seq<Input>) { forall i :: 0 <= i < |ins| ==> Normal(ins[i].now) }

  datatype Beat = Never | At(micros: int)

  /**
   The readings that restart the timer, told without timers: the first one past zero, and from
   then on each one more than the timeout after the previous.
   */
  function LastBeat(timeout: nat, ins: seq<Input>): Beat {
    if ins == [] then Never
    else
      var beat, now := LastBeat(timeout, ins[..|ins| - 1]), Micros(ins[|ins| - 1].now);
      if (if beat.Never? then now > 0 else now > beat.micros + 1000 * timeout) then At(now) else beat
  }

  /** The timer is clear until the first beat, and set a whole timeout after the last one. */
  predicate Armed(k: Kind, next: Time, beat: Beat) {
    && Normal(next)
    && (if beat.Never? then next == CLEAR
        else beat.micros > 0 && Micros(next) == beat.micros + 1000 * k.timeout)
  }

  lemma VisitArms(k: Kind, s: Status, beat: Beat, i: Input)
    requires k.timeout != 0 && Normal(i.now) && !s.finished && Armed(k, s.next, beat)
    ensures var now := Micros(i.now);
            && Due(k, s, i) == (beat.At? && now > beat.micros + 1000 * k.timeout)
            && Armed(k, Visited(k, s, i).next,
                 if (if beat.Never? then now > 0 else now > beat.micros + 1000 * k.timeout) then At(now) else beat)
  {
    BeforeIsLess(s.next, i.now);
    PlusIsExact(i.now, k.timeout);
  }

  lemma {:induction false} RunArms(k: Kind, ins: seq<Input>)
    requires Ticking(ins) && k.timeout != 0 && !Run(k, FRESH, ins).finished
    ensures Armed(k, Run(k, FRESH, ins).next, LastBeat(k.timeout, ins))
    decreases |ins|
  {
    if ins != [] {
      RunArms(k, ins[..|ins| - 1]);
      VisitArms(k, Run(k, FRESH, ins[..|ins| - 1]), LastBeat(k.timeout, ins[..|ins| - 1]), ins[|ins| - 1]);
    }
  }

  /**
   A timed source that is not finished lets its event through exactly if it has been armed
   and more than its timeout has passed since the last reading that restarted the timer.
   */
  lemma DueIff(k: Kind, ins: seq<Input>, i: Input)
    requires Ticking(ins) && Normal(i.now) && k.timeout != 0 && !Run(k, FRESH, ins).finished
    ensures var beat := LastBeat(k.timeout, ins);
            Due(k, Run(k, FRESH, ins), i) <==> beat.At? && Micros(i.now) > beat.micros + 1000 * k.timeout
  {
    RunArms(k, ins);
    VisitArms(k, Run(k, FRESH, ins), LastBeat(k.timeout, ins), i);
  }

  // ---------------------------------------------------------------- dispatches

  /** When the source was dispatched. */
  function Dispatches(log: seq<Event>): seq<int> {
    if log == [] then []
    else
      var rest, e := Dispatches(log[..|log| - 1]), log[|log| - 1];
      if e.Dispatched? then rest + [Micros(e.at)] else rest
  }

  lemma DispatchesAppend(log: seq<Event>, e: Event)
    ensures Dispatches(log + [e]) == Dispatches(log) + (if e.Dispatched? then [Micros(e.at)] else [])
  {
    assert (log + [e])[..|log|] == log;
  }

  lemma TriggerDispatches(k: Kind, s: Status, i: Input)
    ensures var d := Dispatches(Trigger(k, s, i).log);
            d == Dispatches(s.log) || d == Dispatches(s.log) + [Micros(i.now)]
  {
    var checked := if k.checks then s.log + [Checked(s.data)] else s.log;
    DispatchesAppend(s.log, Checked(s.data));
    assert Dispatches(checked) == Dispatches(s.log);
    var dispatched := checked + [Dispatched(s.data, i.now)];
    DispatchesAppend(checked, Dispatched(s.data, i.now));
    DispatchesAppend(dispatched, Finalized(s.data));
    assert Trigger(k, s, i).log in [checked, dispatched, dispatched + [Finalized(s.data)]];
  }

  /** A visit dispatches at most once, and only if the timer lets it. */
  lemma VisitDispatches(k: Kind, s: Status, i: Input)
    ensures var d := Dispatches(Visited(k, s, i).log);
            || d == Dispatches(s.log)
            || (!s.finished && Due(k, s, i) && d == Dispatches(s.log) + [Micros(i.now)])
  {
    if !s.finished {
      DispatchesAppend(s.log, Prepared(i.data));
      TriggerDispatches(k, Rearm(k, Prepare(k, s, i), i), i);
    }
  }

  predicate Spaced(gap: int, d: seq<int>) { forall i, j :: 0 <= i < j < |d| ==> d[j] - d[i] > gap }

  /** Every dispatch happened at the last beat or before it. */
  predicate Until(d: seq<int>, beat: Beat) { forall i :: 0 <= i < |d| ==> beat.At? && d[i] <= beat.micros }

  lemma SpacedGrows(gap: nat, d: seq<int>, beat: Beat, now: int)
    requires Spaced(gap, d) && Until(d, beat) && beat.At? && now > beat.micros + gap
    ensures Spaced(gap, d + [now]) && Until(d + [now], At(now))
  {
  }

  lemma {:induction false} RunSpaced(k: Kind, ins: seq<Input>)
    requires Ticking(ins) && k.timeout != 0
    ensures var d := Dispatches(Run(k, FRESH, ins).log);
            Spaced(1000 * k.timeout, d) && Until(d, LastBeat(k.timeout, ins))
    decreases |ins|
  {
    if ins != [] {
      var rest, i := ins[..|ins| - 1], ins[|ins| - 1];
      var s, beat := Run(k, FRESH, rest), LastBeat(k.timeout, rest);
      RunSpaced(k, rest);
      VisitDispatches(k, s, i);
      if !s.finished && Due(k, s, i) {
        DueIff(k, rest, i);
        SpacedGrows(1000 * k.timeout, Dispatches(s.log), beat, Micros(i.now));
        assert LastBeat(k.timeout, ins) == At(Micros(i.now));
      } else {
        assert Until(Dispatches(s.log), LastBeat(k.timeout, ins));
      }
    }
  }

  /** Whatever the clock says, two dispatches of a timed source are more than its timeout apart. */
  lemma DispatchesSpaced(k: Kind, ins: seq<Input>, i: nat, j: nat)
    requires Ticking(ins) && k.timeout != 0
    requires i < j < |Dispatches(Run(k, FRESH, ins).log)|
    ensures var d := Dispatches(Run(k, FRESH, ins).log); d[j] - d[i] > 1000 * k.timeout
  {
    RunSpaced(k, ins);
  }

  // ---------------------------------------------------------------- what one visit does

  /** The timer is due, told by the readings alone. */
  predicate TimerDue(k: Kind, ins: seq<Input>, i: Input) {
    var beat := LastBeat(k.timeout, ins);
    k.timeout == 0 || (beat.At? && Micros(i.now) > beat.micros + 1000 * k.timeout)
  }

  /** The source is dispatched: its timer is due, and its check callback, if it has one, says yes. */
  predicate Fires(k: Kind, ins: seq<Input>, i: Input) { TimerDue(k, ins, i) && (k.checks ==> i.ready) }

  function Finals(log: seq<Event>): nat {
    if log == [] then 0
    else Finals(log[..|log| - 1]) + (if log[|log| - 1].Finalized? then 1 else 0)
  }

  lemma FinalsAppend(log: seq<Event>, e: Event)
    ensures Finals(log + [e]) == Finals(log) + (if e.Finalized? then 1 else 0)
  {
    assert (log + [e])[..|log|] == log;
  }

  lemma TriggerOutcome(k: Kind, s: Status, i: Input)
    requires !s.finished
    ensures var s', fires := Trigger(k, s, i), k.checks ==> i.ready;
            && Dispatches(s'.log) == Dispatches(s.log) + (if fires then [Micros(i.now)] else [])
            && (s'.finished <==> fires && i.last)
            && Finals(s'.log) == Finals(s.log) + (if s'.finished && k.finalizes then 1 else 0)
            && s'.data == s.data
  {
    var checked := if k.checks then s.log + [Checked(s.data)] else s.log;
    DispatchesAppend(s.log, Checked(s.data));
    FinalsAppend(s.log, Checked(s.data));
    assert Dispatches(checked) == Dispatches(s.log) && Finals(checked) == Finals(s.log);
    var dispatched := checked + [Dispatched(s.data, i.now)];
    DispatchesAppend(checked, Dispatched(s.data, i.now));
    FinalsAppend(checked, Dispatched(s.data, i.now));
    DispatchesAppend(dispatched, Finalized(s.data));
    FinalsAppend(dispatched, Finalized(s.data));
  }

  lemma VisitedOutcome(k: Kind, s: Status, i: Input)
    requires !s.finished
    ensures var s', fires := Visited(k, s, i), Due(k, s, i) && (k.checks ==> i.ready);
            && Dispatches(s'.log) == Dispatches(s.log) + (if fires then [Micros(i.now)] else [])
            && (s'.finished <==> fires && i.last)
            && Finals(s'.log) == Finals(s.log) + (if s'.finished && k.finalizes then 1 else 0)
  {
    var s1 := Prepare(k, s, i);
    DispatchesAppend(s.log, Prepared(i.data));
    FinalsAppend(s.log, Prepared(i.data));
    TriggerOutcome(k, Rearm(k, s1, i), i);
  }

  /** What a run of visits has done to a source that is not finished. */
  lemma {:induction false} DataIsFirst(k: Kind, ins: seq<Input>)
    ensures var s := Run(k, FRESH, ins);
            && (ins != [] && k.prepares ==> s.prepared && s.data == ins[0].data)
            && (ins == [] ==> !s.prepared && !s.finished)
    decreases |ins|
  {
    if ins != [] { DataIsFirst(k, ins[..|ins| - 1]); }
  }

  /**
   At any point of any run of a source that is not finished, one more visit dispatches it once
   if and only if its timer is due and its check says yes; finishes it if and only if it was
   dispatched and that was the last time; and finalizes it once if and only if it finished and
   can be.  What it works on is what its first visit prepared.
   */
  lemma VisitOutcome(k: Kind, ins: seq<Input>, i: Input)
    requires Ticking(ins + [i]) && !Run(k, FRESH, ins).finished
    ensures var s, s' := Run(k, FRESH, ins), Run(k, FRESH, ins + [i]);
            && Dispatches(s'.log) == Dispatches(s.log) + (if Fires(k, ins, i) then [Micros(i.now)] else [])
            && (s'.finished <==> Fires(k, ins, i) && i.last)
            && Finals(s'.log) == Finals(s.log) + (if s'.finished && k.finalizes then 1 else 0)
            && (k.prepares ==> s'.prepared && s'.data == (ins + [i])[0].data)
  {
    var s := Run(k, FRESH, ins);
    assert (ins + [i])[..|ins|] == ins && (ins + [i])[|ins|] == i;
    assert Ticking(ins) by {
      assert forall j :: 0 <= j < |ins| ==> (ins + [i])[j] == ins[j];
    }
    DataIsFirst(k, ins + [i]);
    if k.timeout != 0 { DueIff(k, ins, i); }
    VisitedOutcome(k, s, i);
  }

  // ---------------------------------------------------------------- the timeout asked for

  /** Every run of every source created with that timeout keeps its dispatches that far apart. */
  ghost predicate KeepsRequest(requested: nat) {
    forall k: Kind, ins: seq<Input> :: k.timeout == requested % UINT_RANGE && Ticking(ins) ==>
      Spaced(1000 * requested, Dispatches(Run(k, FRESH, ins).log))
  }

  function Moment(micros: int): (t: Time)
    ensures Normal(t) && Micros(t) == micros
  {
    Time(micros / MILLION, micros % MILLION)
  }

  /** A visit whose callbacks do nothing remarkable. */
  function Poll(micros: int): Input { Input(Moment(micros), 0, true, false) }

  function Bare(timeout: nat): Kind { Kind(false, false, false, timeout) }

  /** A source with nothing but a dispatch callback is dispatched whenever its timer lets it. */
  lemma PollDispatches(timeout: nat, s: Status, micros: int)
    requires !s.finished
    ensures var s' := Visited(Bare(timeout), s, Poll(micros));
            && !s'.finished
            && Dispatches(s'.log) == Dispatches(s.log) + (if Due(Bare(timeout), s, Poll(micros)) then [micros] else [])
  {
    DispatchesAppend(s.log, Dispatched(s.data, Moment(micros)));
  }

  /** Where a run of polls of a bare source has come to. */
  ghost predicate Came(timeout: nat, ins: seq<Input>, beat: Beat, d: seq<int>) {
    && Ticking(ins) && !Run(Bare(timeout), FRESH, ins).finished
    && LastBeat(timeout, ins) == beat && Dispatches(Run(Bare(timeout), FRESH, ins).log) == d
  }

  lemma NoPoll(timeout: nat) returns (ins: seq<Input>)
    ensures Came(timeout, ins, Never, [])
  {
    ins := [];
  }

  lemma OnePoll(timeout: nat, ins: seq<Input>, beat: Beat, d: seq<int>, micros: int) returns (more: seq<Input>)
    requires Came(timeout, ins, beat, d) && micros > 0 && (beat.At? ==> micros > beat.micros + 1000 * timeout)
    ensures Came(timeout, more, At(micros), if timeout == 0 || beat.At? then d + [micros] else d)
  {
    more := ins + [Poll(micros)];
    assert more[..|ins|] == ins;
    PollDispatches(timeout, Run(Bare(timeout), FRESH, ins), micros);
    if timeout != 0 { DueIff(Bare(timeout), ins, Poll(micros)); }
  }

  /** Three polls: one arms the timer, and the others come a microsecond more than its timeout apart. */
  lemma ThreePolls(timeout: nat, gap: int) returns (ins: seq<Input>, d: seq<int>)
    requires gap == 1000 * timeout + 1
    ensures Came(timeout, ins, At(1 + 2 * gap), d)
    ensures |d| >= 2 && d[|d| - 1] == 1 + 2 * gap && d[|d| - 2] == 1 + gap
  {
    var first := if timeout == 0 then [1] else [];
    ins := NoPoll(timeout);
    ins := OnePoll(timeout, ins, Never, [], 1);
    assert [] + [1] == [1];
    ins := OnePoll(timeout, ins, At(1), first, 1 + gap);
    ins := OnePoll(timeout, ins, At(1 + gap), first + [1 + gap], 1 + 2 * gap);
    d := first + [1 + gap] + [1 + 2 * gap];
  }

  /** The timeout asked for is kept in every run if and only if it fits an unsigned int. */
  lemma RequestKeptIff(requested: nat)
    requires requested > 0
    ensures KeepsRequest(requested) <==> requested < UINT_RANGE
  {
    if requested < UINT_RANGE {
      RequestKept(requested);
    } else {
      RequestLost(requested);
    }
  }

  lemma RequestKept(requested: nat)
    requires 0 < requested < UINT_RANGE
    ensures KeepsRequest(requested)
  {
    forall k: Kind, ins: seq<Input> | k.timeout == requested % UINT_RANGE && Ticking(ins)
      ensures Spaced(1000 * requested, Dispatches(Run(k, FRESH, ins).log))
    {
      RunSpaced(k, ins);
    }
  }

  lemma RequestLost(requested: nat)
    requires requested >= UINT_RANGE
    ensures !KeepsRequest(requested)
  {
    var timeout := requested % UINT_RANGE;
    var ins, d := ThreePolls(timeout, 1000 * timeout + 1);
    TooSoon(requested, Bare(timeout), ins, d, |d| - 2, |d| - 1);
  }

  lemma TooSoon(requested: nat, k: Kind, ins: seq<Input>, d: seq<int>, i: nat, j: nat)
    requires k.timeout == requested % UINT_RANGE && Ticking(ins) && d == Dispatches(Run(k, FRESH, ins).log)
    requires i < j < |d| && d[j] - d[i] <= 1000 * requested
    ensures !KeepsRequest(requested)
  {
    assert !Spaced(1000 * requested, d);
  }

  // ---------------------------------------------------------------- life cycle

  /**
   The log of a source: prepared first if it can be, then checks and dispatches, each on the
   data prepared, and finalized last if it can be.
   */
  predicate LifeCycle(k: Kind, s: Status) {
    var n := |s.log|;
    && (s.prepared <==> k.prepares && n > 0)
    && (n > 0 && k.prepares ==> s.log[0] == Prepared(s.data))
    && (!k.prepares ==> s.data == 0)
    && (s.finished ==> n > 0 && (if k.finalizes then s.log[n - 1] == Finalized(s.data) else s.log[n - 1].Dispatched?))
    && (forall i :: 0 <= i < n ==> EntryOk(k, s, i))
  }

  predicate EntryOk(k: Kind, s: Status, i: nat)
    requires i < |s.log|
  {
    && s.log[i].data == s.data
    && (s.log[i].Prepared? ==> i == 0)
    && (s.log[i].Finalized? ==> i == |s.log| - 1 && s.finished)
    && (s.log[i].Dispatched? && k.checks ==> i > 0 && s.log[i - 1].Checked?)
  }

  lemma VisitLifeCycle(k: Kind, s: Status, i: Input)
    requires LifeCycle(k, s)
    ensures LifeCycle(k, Visited(k, s, i))
  {
    if !s.finished {
      var s1 := Rearm(k, Prepare(k, s, i), i);
      assert k.prepares && !s.prepared ==> s.log == [];
      forall j | 0 <= j < |s1.log|
        ensures EntryOk(k, s1, j)
      {
        if j < |s.log| { assert EntryOk(k, s, j); }
      }
      TriggerLifeCycle(k, s1, i);
    }
  }

  lemma TriggerLifeCycle(k: Kind, s: Status, i: Input)
    requires LifeCycle(k, s) && !s.finished && s.prepared == k.prepares
    ensures LifeCycle(k, Trigger(k, s, i))
  {
    var n, s' := |s.log|, Trigger(k, s, i);
    forall j | 0 <= j < |s'.log|
      ensures EntryOk(k, s', j)
    {
      if j < n {
        assert s'.log[j] == s.log[j] && EntryOk(k, s, j);
        if j > 0 { assert s'.log[j - 1] == s.log[j - 1]; }
      } else if k.checks {
        assert s'.log[n] == Checked(s.data);
      }
    }
  }

  /**
   In every run: prepare is called at most once and before anything else, finalize at most once
   and after everything else, every callback gets the data prepared, and a finished source is
   never called again.
   */
  lemma {:induction false} LivesOnce(k: Kind, ins: seq<Input>, more: seq<Input>)
    ensures LifeCycle(k, Run(k, FRESH, ins))
    ensures Run(k, FRESH, ins).finished ==> Run(k, FRESH, ins + more) == Run(k, FRESH, ins)
    decreases |ins| + |more|
  {
    if more != [] {
      LivesOnce(k, ins, more[..|more| - 1]);
      assert (ins + more)[..|ins + more| - 1] == ins + more[..|more| - 1];
    } else {
      assert ins + more == ins;
      if ins != [] {
        LivesOnce(k, ins[..|ins| - 1], []);
        VisitLifeCycle(k, Run(k, FRESH, ins[..|ins| - 1]), ins[|ins| - 1]);
      }
    }
  }
}
