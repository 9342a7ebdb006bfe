/** What holds in every run of an event, of a result handed over through one, and after a reset. */
module EventTheorems {
  import opened Counting
  import opened Events
  import opened EventProofs

  lemma {:induction false} RunOk(flags: Flags, n: nat, ms: seq<Move>)
    ensures var s := Exec(Init(flags, n), ms); Inv(s) && s.flags == flags && |s.threads| == n
    decreases |ms|
  {
    if ms == [] {
      CountZero(Init(flags, n).threads, Inside);
    } else {
      RunOk(flags, n, ms[..|ms| - 1]);
      MoveKeeps(Exec(Init(flags, n), ms[..|ms| - 1]), ms[|ms| - 1]);
    }
  }

  // ---------------------------------------------------------------- wakeups and resets

  /** With the mutex free, nobody sleeps un-notified on a signaled event. */
  predicate Awake(s: State) { s.signaled && s.lock == -1 ==> !SomeoneAsleep(s) }

  /**
   A reset, which raises the flag and tells nobody, does no harm: the flag is up already, or
   nobody is on the way to sleep and whoever sleeps is about to be told or the flag lowered.
   */
  predicate Harmless(s: State) {
    || s.signaled
    || (&& (forall t :: 0 <= t < |s.threads| ==> !s.threads[t].ToSleep?)
        && (SomeoneAsleep(s) ==> 0 <= s.lock < |s.threads| && WillTell(s.flags, s.threads[s.lock])))
  }

  /** The move is a reset that takes place. */
  predicate ResetsAt(s: State, m: Move) { Resets(m) && m.thread < |s.threads| && s.threads[m.thread].Idle? }

  /** All resets of the run are harmless when they happen; a run without resets is such a run. */
  predicate ResetsHarmless(s: State, ms: seq<Move>) {
    forall i :: 0 <= i < |ms| && ResetsAt(Exec(s, ms[..i]), ms[i]) ==> Harmless(Exec(s, ms[..i]))
  }

  lemma ResetShape(s: State, m: Move)
    requires Resets(m)
    ensures Next(s, m) == if ResetsAt(s, m) then s.(signaled := true) else Next(s, m)
    ensures !ResetsAt(s, m) ==> Next(s, m) == Next(s, Move(m.thread, Go))
  {
  }

  lemma ResetKeeps(s: State, m: Move)
    requires Inv(s) && WakeupOk(s) && (ResetsAt(s, m) ==> Harmless(s))
    ensures WakeupOk(Next(s, m))
  {
    if Resets(m) {
      ResetShape(s, m);
      if ResetsAt(s, m) {
        forall t | 0 <= t < |s.threads|
          ensures AwakeOk(s.(signaled := true), s.threads[t])
        {
          assert AwakeOk(s, s.threads[t]);
        }
      } else {
        WakeupKeeps(s, Move(m.thread, Go));
      }
    } else {
      WakeupKeeps(s, m);
    }
  }

  lemma {:induction false} WakeupRunOk(s: State, ms: seq<Move>)
    requires Inv(s) && WakeupOk(s) && ResetsHarmless(s, ms)
    ensures Inv(Exec(s, ms)) && WakeupOk(Exec(s, ms))
    decreases |ms|
  {
    if ms != [] {
      var rest := ms[..|ms| - 1];
      assert forall i :: 0 <= i < |rest| ==> rest[..i] == ms[..i];
      WakeupRunOk(s, rest);
      ResetKeeps(Exec(s, rest), ms[|ms| - 1]);
      MoveKeeps(Exec(s, rest), ms[|ms| - 1]);
    }
  }

  lemma AwakeIf(s: State)
    requires WakeupOk(s)
    ensures Awake(s)
  {
    if s.signaled && s.lock == -1 {
      forall t | 0 <= t < |s.threads|
        ensures !s.threads[t].Asleep?
      {
        assert AwakeOk(s, s.threads[t]);
      }
    }
  }

  /**
   In every run all of whose resets are harmless, whatever the flags: with the mutex free,
   nobody sleeps un-notified on a signaled event.
   */
  lemma {:induction false} SignaledWakesAll(flags: Flags, n: nat, ms: seq<Move>)
    requires ResetsHarmless(Init(flags, n), ms)
    ensures Awake(Exec(Init(flags, n), ms))
  {
    RunOk(flags, n, []);
    WakeupRunOk(Init(flags, n), ms);
    AwakeIf(Exec(Init(flags, n), ms));
  }

  predicate NoResets(ms: seq<Move>) { forall i :: 0 <= i < |ms| ==> !Resets(ms[i]) }

  /**
   After such a run, one more reset keeps the guarantee in all continuations without resets if
   and only if it is harmless.
   */
  lemma {:induction false} ResetSafeIff(flags: Flags, n: nat, ms0: seq<Move>, t: nat)
    requires ResetsHarmless(Init(flags, n), ms0)
    requires ResetsAt(Exec(Init(flags, n), ms0), Move(t, Begin(Reset)))
    ensures var s := Exec(Init(flags, n), ms0);
            var s' := Next(s, Move(t, Begin(Reset)));
            (forall ms :: NoResets(ms) ==> Awake(Exec(s', ms))) <==> Harmless(s)
  {
    RunOk(flags, n, []);
    WakeupRunOk(Init(flags, n), ms0);
    var s := Exec(Init(flags, n), ms0);
    var m := Move(t, Begin(Reset));
    var s' := Next(s, m);
    MoveKeeps(s, m);
    if Harmless(s) {
      ResetKeeps(s, m);
      forall ms | NoResets(ms)
        ensures Awake(Exec(s', ms))
      {
        WakeupRunOk(s', ms);
        AwakeIf(Exec(s', ms));
      }
    } else {
      ResetShape(s, m);
      var ms := Harms(s');
      assert NoResets(ms) && !Awake(Exec(s', ms));
    }
  }

  // ---------------------------------------------------------------- a harmful reset does harm

  lemma {:induction false} ExecOneMore(s: State, m: Move, ms: seq<Move>)
    ensures Exec(s, [m] + ms) == Exec(Next(s, m), ms)
    decreases |ms|
  {
    if ms == [] {
      assert [m] + ms == [m] && [m][..0] == [];
    } else {
      var n := |ms| - 1;
      ExecOneMore(s, m, ms[..n]);
      assert ([m] + ms)[..|[m] + ms| - 1] == [m] + ms[..n];
    }
  }

  /** From a harmful reset on, a few steps of one thread leave a sleeper behind. */
  lemma Harms(s: State) returns (ms: seq<Move>)
    requires Inv(s) && s.signaled && !Harmless(s.(signaled := false))
    ensures NoResets(ms) && !Awake(Exec(s, ms))
  {
    if u :| 0 <= u < |s.threads| && s.threads[u].ToSleep? {
      ms := [Move(u, Go)];
      assert HoldsLock(s.threads[u]) && s.lock == u;
      ExecOneMore(s, Move(u, Go), []);
      assert Next(s, Move(u, Go)).threads[u].Asleep?;
    } else {
      var v: nat :| v < |s.threads| && s.threads[v].Asleep?;
      if s.lock == -1 {
        ms := [];
      } else {
        ms := Releases(s, s.lock, v);
      }
    }
  }

  predicate Stage(pc: PC) { pc.Testing? || pc.Expired? || (pc.Leaving? && pc.locked) || pc.Unlocking? }

  function Distance(pc: PC): nat { if pc.Testing? then 2 else if pc.Unlocking? then 0 else 1 }

  /** One step of a lock holder that tells nobody, towards giving the mutex up. */
  lemma ReleaseStep(s: State, h: nat)
    requires h < |s.threads| && s.signaled && !WillTell(s.flags, s.threads[h]) && Stage(s.threads[h])
    requires Inside(s.threads[h]) ==> s.waiting >= 2
    ensures var act := StepThread(s, h, Go);
            && act.shared.signaled && act.shared.threads == s.threads
            && (if s.threads[h].Unlocking? then act.shared.lock == -1
                else act.shared.lock == s.lock && Stage(act.pc) && !WillTell(s.flags, act.pc)
                     && Distance(act.pc) < Distance(s.threads[h]))
  {
  }

  /** The lock holder gives the mutex up, and v sleeps on. */
  lemma Releases(s: State, h: nat, v: nat) returns (ms: seq<Move>)
    requires Inv(s) && s.signaled && s.lock == h && v < |s.threads| && s.threads[v].Asleep?
    requires h < |s.threads| && !WillTell(s.flags, s.threads[h]) && !s.threads[h].ToSleep?
    ensures NoResets(ms) && !Awake(Exec(s, ms))
    decreases Distance(s.threads[h])
  {
    assert HoldsLock(s.threads[h]) && !HoldsLock(s.threads[v]);
    TwoWait(s, h, v);
    ReleaseStep(s, h);
    var m := Move(h, Go);
    var s' := Next(s, m);
    OneThread(s, m);
    MoveKeeps(s, m);
    if s.threads[h].Unlocking? {
      ms := [];
      assert s'.threads[v].Asleep?;
    } else {
      assert HoldsLock(s'.threads[h]);
      ms := Releases(s', h, v);
    }
    ExecOneMore(s, m, ms);
    ms := [m] + ms;
  }

  lemma TwoWait(s: State, h: nat, v: nat)
    requires Inv(s) && h < |s.threads| && v < |s.threads| && h != v && s.threads[v].Asleep?
    requires HoldsLock(s.threads[h]) && !WillTell(s.flags, s.threads[h])
    ensures Stage(s.threads[h]) || s.threads[h].ToSleep?
    ensures Inside(s.threads[h]) ==> s.waiting >= 2
  {
    assert CallOk(s.threads[h]);
    if Inside(s.threads[h]) {
      if h < v { CountTwo(s.threads, Inside, h, v); } else { CountTwo(s.threads, Inside, v, h); }
    }
  }

  // ---------------------------------------------------------------- destruction

  /** The destroyer leaves its loop exactly when no thread is inside a wait. */
  lemma {:induction false} DestroyedWhenNobodyWaits(flags: Flags, n: nat, ms: seq<Move>, t: nat, c: Choice)
    requires t < |Exec(Init(flags, n), ms).threads| && Exec(Init(flags, n), ms).threads[t].Draining?
    ensures var s := Exec(Init(flags, n), ms);
            && s.waiting == InsideCount(s.threads)
            && t < |Next(s, Move(t, c)).threads|
            && (Next(s, Move(t, c)).threads[t].Freed? <==> forall u :: 0 <= u < |s.threads| ==> !Inside(s.threads[u]))
  {
    RunOk(flags, n, ms);
    CountZero(Exec(Init(flags, n), ms).threads, Inside);
  }

  // ---------------------------------------------------------------- results

  lemma BegunGrows(s: State, m: Move)
    ensures s.begun <= Next(s, m).begun
  {
  }

  lemma {:induction false} ResultRunOk(n: nat, ms: seq<Move>)
    requires forall i :: 0 <= i < |ms| ==> PrivateMove(ms[i])
    requires Exec(Init(PLAIN, n), ms).begun <= 1
    ensures ResultOk(Exec(Init(PLAIN, n), ms))
    decreases |ms|
  {
    if ms != [] {
      var s := Exec(Init(PLAIN, n), ms[..|ms| - 1]);
      RunOk(PLAIN, n, ms[..|ms| - 1]);
      BegunGrows(s, ms[|ms| - 1]);
      ResultRunOk(n, ms[..|ms| - 1]);
      ResultKeeps(s, ms[|ms| - 1]);
    }
  }

  /**
   If process_task is called at most once on the task, its callback runs at most once, and
   until the result is being destroyed every wait that succeeded has returned exactly what the
   callback returned.
   */
  lemma {:induction false} ResultIsCallbacks(n: nat, ms: seq<Move>)
    requires forall i :: 0 <= i < |ms| ==> PrivateMove(ms[i])
    requires Exec(Init(PLAIN, n), ms).begun <= 1
    ensures var s := Exec(Init(PLAIN, n), ms);
            && |s.produced| <= 1
            && (!s.destroying ==> forall i :: 0 <= i < |s.gotten| ==>
                  s.gotten[i].Some? && s.produced == [s.gotten[i].value])
  {
    ResultRunOk(n, ms);
    var s := Exec(Init(PLAIN, n), ms);
    if !s.destroying {
      forall i | 0 <= i < |s.gotten|
        ensures s.gotten[i].Some? && s.produced == [s.gotten[i].value]
      {
        assert s.gotten[i] == s.retval;
      }
    }
  }

  /** Once the task has been taken and is no longer run by anyone, nobody sleeps on its result un-notified. */
  lemma {:induction false} FinishedTaskWakesAll(n: nat, ms: seq<Move>)
    requires forall i :: 0 <= i < |ms| ==> PrivateMove(ms[i])
    requires Exec(Init(PLAIN, n), ms).begun == 1
    ensures var s := Exec(Init(PLAIN, n), ms);
            s.lock == -1 && (forall t :: 0 <= t < |s.threads| ==> !Processing(s.threads[t])) ==>
              s.signaled && !SomeoneAsleep(s)
  {
    ResultRunOk(n, ms);
    SignaledWakesAll(PLAIN, n, ms);
  }

  // ---------------------------------------------------------------- a reset beside a sleeper

  /** Signaled, with nobody on the way to tell the sleepers. */
  predicate Silent(s: State) {
    s.signaled && forall t :: 0 <= t < |s.threads| ==> SilentAt(s.threads[t])
  }

  predicate SilentAt(pc: PC) {
    && !pc.Raising? && !pc.Telling? && !pc.Clearing? && (pc.Locking? ==> Waiter(pc.call))
  }

  predicate Lasting(flags: Flags) { !flags.signalOnTimeout && !flags.autoReset && !flags.autoResetOnLast }

  lemma SilentStep(s: State, t: nat, c: Choice)
    requires t < |s.threads| && Lasting(s.flags) && s.signaled && SilentAt(s.threads[t]) && CallOk(s.threads[t])
    ensures var act := StepThread(s, t, c);
            act.shared.signaled && act.shared.flags == s.flags && SilentAt(act.pc)
  {
  }

  lemma {:induction false} SilentForever(s: State, ms: seq<Move>, u: nat)
    requires Inv(s) && Silent(s) && Lasting(s.flags) && u < |s.threads| && s.threads[u].Asleep?
    requires forall i :: 0 <= i < |ms| ==> ms[i].thread != u
    ensures var s' := Exec(s, ms);
            && Inv(s') && Silent(s') && s'.flags == s.flags && |s'.threads| == |s.threads|
            && s'.threads[u] == s.threads[u]
    decreases |ms|
  {
    if ms != [] {
      var rest, m := ms[..|ms| - 1], ms[|ms| - 1];
      SilentForever(s, rest, u);
      var r := Exec(s, rest);
      MoveKeeps(r, m);
      if m.thread < |r.threads| {
        OneThread(r, m);
        assert SilentAt(r.threads[m.thread]) && CallOk(r.threads[m.thread]);
        SilentStep(r, m.thread, m.choice);
      }
    }
  }

  /**
   A reset with a sleeper and nobody on the way to tell it strands it: no signal and no
   destruction ever wakes it, and the destroyer never leaves its loop, unless the sleeper
   wakes by itself.
   */
  lemma {:induction false} ResetStrandsForever(s: State, t: nat, u: nat, ms: seq<Move>)
    requires Inv(s) && Lasting(s.flags) && t < |s.threads| && s.threads[t].Idle?
    requires forall v :: 0 <= v < |s.threads| ==> SilentAt(s.threads[v])
    requires u < |s.threads| && s.threads[u].Asleep?
    requires forall i :: 0 <= i < |ms| ==> ms[i].thread != u
    ensures Deserted(Exec(Next(s, Move(t, Begin(Reset))), ms), u)
  {
    var r := Next(s, Move(t, Begin(Reset)));
    ResetShape(s, Move(t, Begin(Reset)));
    MoveKeeps(s, Move(t, Begin(Reset)));
    SilentForever(r, ms, u);
    var s' := Exec(r, ms);
    assert Inside(s'.threads[u]);
    CountZero(s'.threads, Inside);
  }

  /** u sleeps on a signaled event, and a destroyer of it is stuck. */
  ghost predicate Deserted(s: State, u: nat) {
    && u < |s.threads| && s.threads[u].Asleep? && s.signaled
    && forall d, c :: 0 <= d < |s.threads| && s.threads[d].Draining? ==> Next(s, Move(d, c)) == s
  }

  const FALLS_ASLEEP := [Move(0, Begin(Wait(false))), Move(0, Go), Move(0, Go), Move(0, Go), Move(0, Go)]

  /** Such states are reached: thread 0 waits, thread 1 resets, and thread 0 sleeps through whatever follows. */
  lemma {:induction false} SleeperDeserted(flags: Flags, n: nat, ms: seq<Move>)
    requires Lasting(flags) && !flags.signaledByDefault && n >= 2
    requires forall i :: 0 <= i < |ms| ==> ms[i].thread != 0
    ensures Deserted(Exec(Init(flags, n), FALLS_ASLEEP + [Move(1, Begin(Reset))] + ms), 0)
  {
    var s := FallsAsleep(flags, n);
    RunOk(flags, n, FALLS_ASLEEP);
    ResetStrandsForever(s, 1, 0, ms);
    ExecAppend(Init(flags, n), FALLS_ASLEEP, [Move(1, Begin(Reset))] + ms);
    ExecOneMore(s, Move(1, Begin(Reset)), ms);
    assert FALLS_ASLEEP + [Move(1, Begin(Reset))] + ms == FALLS_ASLEEP + ([Move(1, Begin(Reset))] + ms);
  }

  lemma {:induction false} ExecAppend(s: State, a: seq<Move>, b: seq<Move>)
    ensures Exec(s, a + b) == Exec(Exec(s, a), b)
    decreases |b|
  {
    if b == [] {
      assert a + b == a;
    } else {
      ExecAppend(s, a, b[..|b| - 1]);
      assert (a + b)[..|a + b| - 1] == a + b[..|b| - 1];
    }
  }

  lemma FallsAsleep(flags: Flags, n: nat) returns (s: State)
    requires !flags.signaledByDefault && n >= 2
    ensures s == Exec(Init(flags, n), FALLS_ASLEEP)
    ensures s.flags == flags && s.threads == Init(flags, n).threads[0 := Asleep(Wait(false))]
  {
    var call, ms := Wait(false), FALLS_ASLEEP;
    var s0 := Init(flags, n);
    var s1 := Next(s0, Move(0, Begin(call)));
    assert s1 == s0.(waiting := 1, threads := s0.threads[0 := Entered(call)]);
    var s2 := Next(s1, Move(0, Go));
    assert s2 == s1.(threads := s0.threads[0 := Locking(call)]);
    var s3 := Next(s2, Move(0, Go));
    assert s3 == s2.(lock := 0, threads := s0.threads[0 := Testing(call)]);
    var s4 := Next(s3, Move(0, Go));
    assert s4 == s3.(threads := s0.threads[0 := ToSleep(call)]);
    s := Next(s4, Move(0, Go));
    assert s == s4.(lock := -1, threads := s0.threads[0 := Asleep(call)]);
    ExecFive(s0, ms);
  }

  lemma ExecFive(s: State, ms: seq<Move>)
    requires |ms| == 5
    ensures Exec(s, ms) == Next(Next(Next(Next(Next(s, ms[0]), ms[1]), ms[2]), ms[3]), ms[4])
  {
    assert ms[..4][..3] == ms[..3] && ms[..3][..2] == ms[..2] && ms[..2][..1] == ms[..1] && ms[..1][..0] == [];
    assert Exec(s, ms[..1]) == Next(s, ms[0]);
    assert Exec(s, ms[..2]) == Next(Exec(s, ms[..1]), ms[1]);
    assert Exec(s, ms[..3]) == Next(Exec(s, ms[..2]), ms[2]);
    assert Exec(s, ms[..4]) == Next(Exec(s, ms[..3]), ms[3]);
  }
}
