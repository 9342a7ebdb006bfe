/** The moves of scan, help_scan and init_tls_hp keep the invariant. */
module QueueScan {
  import opened QueueModel
  import opened QueueInvariant
  import opened QueueStability
  import opened QueueSteps
  import opened QueueUpdates

  /** Like Settle, for a move that ends inside a scan. */
  lemma SettleScan(s: State, s': State, t: nat)
    requires Inv(s) && t < |s.threads| && Evolves(s, s', t)
    requires s'.fault == NoFault && MemoryOk(s') && RecordsOk(s') && ThreadOk(s', t)
    requires Scanning(s'.threads[t].pc) && s'.threads[t].rec == s.threads[t].rec
    requires forall v :: 0 <= v < |s'.threads| ==> GuardOk(s', t, v)
    ensures Keeps(s, s')
  {
    forall u | 0 <= u < |s'.threads|
      ensures GuardOk(s', u, t)
    {
      if u != t { GuardCarries(s, s', t, u); }
    }
    Assemble(s, s', t);
  }

  // ---------------------------------------------------------------- gathering the slots

  predicate Gathering(pc: PC) { pc.ScanBegin? || pc.ScanTest? || pc.ScanTake? }

  /** A step of the gathering loop: only the place changes, and the bargain with v is kept. */
  lemma GatherMove(s: State, t: nat, pc': PC)
    requires Inv(s) && t < |s.threads| && HasRecord(s, t)
    requires Gathering(s.threads[t].pc) && (pc'.ScanTest? || pc'.ScanTake?)
    requires pc'.exit == s.threads[t].pc.exit && LocalsOk(s, pc')
    requires forall v :: 0 <= v < |s.threads| ==> GuardOk(Goto(s, t, pc'), t, v)
    ensures Keeps(s, Goto(s, t, pc'))
  {
    assert ThreadOk(s, t);
    var s' := Goto(s, t, pc');
    QuietEvolves(s, s', t);
    GatherThread(s, t, pc');
    SettleScan(s, s', t);
  }

  lemma GatherThread(s: State, t: nat, pc': PC)
    requires t < |s.threads| && ThreadOk(s, t) && HasRecord(s, t)
    requires Gathering(s.threads[t].pc) && (pc'.ScanTest? || pc'.ScanTake?)
    requires pc'.exit == s.threads[t].pc.exit && LocalsOk(s, pc')
    ensures ThreadOk(Goto(s, t, pc'), t)
  {
    var s' := Goto(s, t, pc');
    LocalsStable(s, s', pc');
    assert Owned(s', t) == Owned(s, t);
  }

  lemma StepScanBegin(s: State, t: nat)
    requires Inv(s) && t < |s.threads| && s.threads[t].pc.ScanBegin?
    ensures Keeps(s, StepScan(s, t))
  {
    assert ThreadOk(s, t);
    var pc' := ScanTest(s.threads[t].pc.exit, s.threads[t].pc.i, |s.recs|, |s.recs|, 0, []);
    forall v | 0 <= v < |s.threads|
      ensures GuardOk(Goto(s, t, pc'), t, v)
    {
      assert ThreadOk(s, v);
    }
    GatherMove(s, t, pc');
  }

  /** Whoever holds a candidate in the slot being read has its address there. */
  lemma SlotShows(s: State, t: nat, v: nat, x: Ref, r: nat, k: nat)
    requires Inv(s) && t < |s.threads| && v < |s.threads| && x in Candidates(s, t)
    requires k < 2 && HasHold(s.threads[v].pc, k) && Hold(s.threads[v].pc, k).pos == x.pos
    requires s.threads[v].rec == r - 1
    ensures SlotAt(s, r, k) == x.addr != NO_ADDR
  {
    Held(s, v, k);
    assert ThreadOk(s, t);
    assert x in Owned(s, t);
    assert Disposable(s, t, x);
    assert NodeOk(s, x.addr);
  }

  /** Passing a slot after having recorded what it holds keeps the bargain with every thread. */
  lemma ScanPasses(s: State, t: nat, v: nat, priv: seq<Addr>)
    requires Inv(s) && t < |s.threads| && v < |s.threads|
    requires var pc := s.threads[t].pc; (pc.ScanTest? || pc.ScanTake?) && pc.r > 0 && pc.priv <= priv
    requires var pc := s.threads[t].pc; SlotAt(s, pc.r, pc.k) != NO_ADDR ==> SlotAt(s, pc.r, pc.k) in priv
    ensures var pc := s.threads[t].pc;
            GuardOk(Goto(s, t, ScanOn(pc.exit, pc.i, pc.start, pc.r, pc.k, priv)), t, v)
  {
    var pc := s.threads[t].pc;
    var s' := Goto(s, t, ScanOn(pc.exit, pc.i, pc.start, pc.r, pc.k, priv));
    assert ThreadOk(s, t);
    assert GuardOk(s, t, v);
    if v != t {
      assert forall x :: x in Candidates(s', t) ==> x in Candidates(s, t);
      var pv := s.threads[v].pc;
      forall x, k | x in Candidates(s, t) && 0 <= k < 2 && HasHold(pv, k) && Hold(pv, k).pos == x.pos
        ensures s.threads[v].rec == pc.r - 1 && k == pc.k ==> x.addr in priv
      {
        if s.threads[v].rec == pc.r - 1 && k == pc.k {
          SlotShows(s, t, v, x, pc.r, k);
        }
      }
      GuardPasses(s, s', t, v, priv);
    }
  }

  lemma GuardPasses(s: State, s': State, t: nat, v: nat, priv: seq<Addr>)
    requires t < |s.threads| && v < |s.threads| && v != t && GuardOk(s, t, v)
    requires var pc := s.threads[t].pc; (pc.ScanTest? || pc.ScanTake?) && pc.r > 0 && pc.k < SLOTS && pc.priv <= priv
    requires var pc := s.threads[t].pc; s' == Goto(s, t, ScanOn(pc.exit, pc.i, pc.start, pc.r, pc.k, priv))
    requires forall x :: x in Candidates(s', t) ==> x in Candidates(s, t)
    requires var pc := s.threads[t].pc;
             var pv := s.threads[v].pc;
             forall x, k :: x in Candidates(s, t) && 0 <= k < 2 && HasHold(pv, k) && Hold(pv, k).pos == x.pos ==>
               s.threads[v].rec == pc.r - 1 && k == pc.k ==> x.addr in priv
    ensures GuardOk(s', t, v)
  {
  }

  lemma StepScanTake(s: State, t: nat)
    requires Inv(s) && t < |s.threads| && s.threads[t].pc.ScanTake?
    ensures Keeps(s, StepScan(s, t))
  {
    assert ThreadOk(s, t);
    var pc := s.threads[t].pc;
    var a := SlotAt(s, pc.r, pc.k);
    var priv := if a == NO_ADDR then pc.priv else pc.priv + [a];
    forall v | 0 <= v < |s.threads|
      ensures GuardOk(Goto(s, t, ScanOn(pc.exit, pc.i, pc.start, pc.r, pc.k, priv)), t, v)
    {
      ScanPasses(s, t, v, priv);
    }
    GatherMove(s, t, ScanOn(pc.exit, pc.i, pc.start, pc.r, pc.k, priv));
  }

  lemma ScanTestEmpty(s: State, t: nat)
    requires Inv(s) && t < |s.threads| && s.threads[t].pc.ScanTest? && s.threads[t].pc.r > 0
    requires SlotAt(s, s.threads[t].pc.r, s.threads[t].pc.k) == NO_ADDR
    ensures Keeps(s, StepScan(s, t))
  {
    assert ThreadOk(s, t);
    var pc := s.threads[t].pc;
    forall v | 0 <= v < |s.threads|
      ensures GuardOk(Goto(s, t, ScanOn(pc.exit, pc.i, pc.start, pc.r, pc.k, pc.priv)), t, v)
    {
      ScanPasses(s, t, v, pc.priv);
    }
    GatherMove(s, t, ScanOn(pc.exit, pc.i, pc.start, pc.r, pc.k, pc.priv));
  }

  lemma StepScanTest(s: State, t: nat)
    requires Inv(s) && t < |s.threads| && s.threads[t].pc.ScanTest? && s.threads[t].pc.r > 0
    ensures Keeps(s, StepScan(s, t))
  {
    assert ThreadOk(s, t);
    var pc := s.threads[t].pc;
    if SlotAt(s, pc.r, pc.k) == NO_ADDR {
      ScanTestEmpty(s, t);
    } else {
      var pc' := ScanTake(pc.exit, pc.i, pc.start, pc.r, pc.k, pc.priv);
      GuardsShrink(s, Goto(s, t, pc'), t);
      GatherMove(s, t, pc');
    }
  }

  /** The scan of t goes on with the same list, and with no more candidates than before. */
  predicate ScanGoesOn(s: State, s': State, t: nat)
    requires t < |s.threads| && t < |s'.threads|
  {
    var pc, pc' := s.threads[t].pc, s'.threads[t].pc;
    && Scanning(pc) && Scanning(pc') && pc'.start == pc.start && pc'.priv == pc.priv
    && (pc'.ScanFree? ==> pc.ScanFree? || pc.r == 0)
    && (!pc'.ScanFree? ==> !pc.ScanFree? && pc'.r == pc.r && pc'.k == pc.k)
    && (forall x :: x in Candidates(s', t) ==> x in Candidates(s, t))
  }

  lemma GuardShrinks(s: State, s': State, t: nat, v: nat)
    requires t < |s.threads| && v < |s.threads| && v != t && KeepsOthers(s, s', t) && ScanGoesOn(s, s', t)
    requires GuardOk(s, t, v)
    requires HasHold(s.threads[v].pc, 0) || HasHold(s.threads[v].pc, 1) ==> s.threads[v].rec >= 0
    ensures GuardOk(s', t, v)
  {
    var pc, pc' := s.threads[t].pc, s'.threads[t].pc;
    var pv := s'.threads[v].pc;
    forall x, k | x in Candidates(s', t) && 0 <= k < 2 && HasHold(pv, k) && Hold(pv, k).pos == x.pos
      ensures s'.threads[v].rec < pc'.start && (Visited(pc', s'.threads[v].rec, k) ==> x.addr in pc'.priv)
    {
      assert x in Candidates(s, t);
      assert Visited(pc', s'.threads[v].rec, k) ==> Visited(pc, s.threads[v].rec, k);
    }
  }

  lemma GuardsShrink(s: State, s': State, t: nat)
    requires Inv(s) && t < |s.threads| && KeepsOthers(s, s', t) && ScanGoesOn(s, s', t)
    ensures forall v :: 0 <= v < |s'.threads| ==> GuardOk(s', t, v)
  {
    forall v | 0 <= v < |s'.threads|
      ensures GuardOk(s', t, v)
    {
      if v != t {
        assert ThreadOk(s, v);
        GuardShrinks(s, s', t, v);
      }
    }
  }

  // ---------------------------------------------------------------- judging the retired nodes

  lemma StepScanEnd(s: State, t: nat)
    requires Inv(s) && t < |s.threads| && s.threads[t].pc.ScanTest? && s.threads[t].pc.r == 0
    ensures Keeps(s, StepScan(s, t))
  {
    assert ThreadOk(s, t);
    var pc, rc := s.threads[t].pc, RecordOf(s, t);
    var pc' := ScanFree(pc.exit, pc.i, pc.start, pc.priv, rc.retired);
    var s' := Goto(SetRecord(s, t, rc.(retired := [])), t, pc');
    RecordEvolves(s, t, rc.(retired := []), pc');
    ScanEndThread(s, s', t);
    GuardsShrink(s, s', t);
    SettleScan(s, s', t);
  }

  lemma ScanEndThread(s: State, s': State, t: nat)
    requires t < |s.threads| && ThreadOk(s, t) && HasRecord(s, t) && s.threads[t].pc.ScanTest? && s.threads[t].pc.r == 0
    requires var pc, rc := s.threads[t].pc, RecordOf(s, t);
             s' == Goto(SetRecord(s, t, rc.(retired := [])), t, ScanFree(pc.exit, pc.i, pc.start, pc.priv, rc.retired))
    ensures ThreadOk(s', t)
  {
    assert Owned(s', t) == Retired(s, t) == Owned(s, t);
    LocalsStable(s, s', s'.threads[t].pc);
  }

  lemma Reordered(kept: seq<Ref>, todo: seq<Ref>)
    requires todo != []
    ensures kept + [todo[0]] + todo[1..] == kept + todo
  {
  }

  lemma KeepMover(s: State, s': State, t: nat, rc: Record)
    requires t < |s.threads| && ThreadOk(s, t) && s.threads[t].pc.ScanFree? && s.threads[t].pc.todo != []
    requires s.threads[t].pc.todo[0].addr in s.threads[t].pc.priv
    requires HasRecord(s, t) && rc == RecordOf(s, t).(retired := RecordOf(s, t).retired + [s.threads[t].pc.todo[0]])
    requires var pc := s.threads[t].pc;
             s' == Goto(SetRecord(s, t, rc), t, ScanFree(pc.exit, pc.i, pc.start, pc.priv, pc.todo[1..]))
    ensures ThreadOk(s', t)
  {
    var pc := s.threads[t].pc;
    Reordered(Retired(s, t), pc.todo);
    assert Owned(s', t) == Owned(s, t);
  }

  lemma KeepNode(s: State, t: nat)
    requires Inv(s) && t < |s.threads| && s.threads[t].pc.ScanFree? && s.threads[t].pc.todo != []
    requires s.threads[t].pc.todo[0].addr in s.threads[t].pc.priv
    ensures Keeps(s, StepScan(s, t))
  {
    assert ThreadOk(s, t);
    var s' := StepScan(s, t);
    RecordEvolves(s, t, RecordOf(s', t), s'.threads[t].pc);
    KeepMover(s, s', t, RecordOf(s', t));
    GuardsShrink(s, s', t);
    SettleScan(s, s', t);
  }

  /** A candidate that is on no slot the scan saw is held by nobody. */
  lemma Unheld(s: State, t: nat, v: nat, k: nat)
    requires Inv(s) && t < |s.threads| && v < |s.threads| && k < 2
    requires s.threads[t].pc.ScanFree? && s.threads[t].pc.todo != []
    requires s.threads[t].pc.todo[0].addr !in s.threads[t].pc.priv
    requires HasHold(s.threads[v].pc, k)
    ensures Hold(s.threads[v].pc, k).pos != s.threads[t].pc.todo[0].pos
  {
    assert GuardOk(s, t, v);
    assert s.threads[t].pc.todo[0] in Candidates(s, t);
  }

  lemma FreeMemory(s: State, s': State, y: Ref, t: nat)
    requires MemoryOk(s) && Live(s, y) && y.pos < HeadPos(s) && s.heap[y.addr].keeper == t
    requires s'.heap == s.heap - {y.addr}
    requires s'.chain == s.chain && s'.head == s.head && s'.tail == s.tail && |s'.threads| == |s.threads|
    ensures MemoryOk(s') && Advances(s, s') && KeepsOthersNodes(s, s', t)
  {
    forall a | a in s'.heap
      ensures NodeOk(s', a)
    {
      assert NodeOk(s, a);
    }
  }

  /** Dropping one element of a list of distinct nodes drops exactly that node. */
  lemma Dropped(kept: seq<Ref>, todo: seq<Ref>)
    requires todo != [] && Distinct(kept + todo)
    ensures Distinct(kept + todo[1..])
    ensures forall x :: x in kept + todo[1..] ==> x in kept + todo && x.pos != todo[0].pos
    ensures forall x :: x in kept + todo && x != todo[0] ==> x in kept + todo[1..]
  {
    var o, o' := kept + todo, kept + todo[1..];
    assert forall i :: 0 <= i < |o'| ==> o'[i] == o[if i < |kept| then i else i + 1];
    assert o[|kept|] == todo[0];
    forall x | x in o && x != todo[0]
      ensures x in o'
    {
      var i :| 0 <= i < |o| && o[i] == x;
      assert o'[if i < |kept| then i else i - 1] == x;
    }
  }

  lemma FreeMover(s: State, s': State, t: nat)
    requires t < |s.threads| && ThreadOk(s, t) && s.threads[t].pc.ScanFree? && s.threads[t].pc.todo != []
    requires var pc := s.threads[t].pc;
             var pc' := ScanFree(pc.exit, pc.i, pc.start, pc.priv, pc.todo[1..]);
             s' == Goto(s.(heap := s.heap - {pc.todo[0].addr}), t, pc')
    requires HeadPos(s') == HeadPos(s)
    ensures ThreadOk(s', t)
  {
    var pc := s.threads[t].pc;
    assert Owned(s, t) == Retired(s, t) + pc.todo;
    assert Owned(s', t) == Retired(s, t) + pc.todo[1..];
    Dropped(Retired(s, t), pc.todo);
    FreeOwned(s, s', t);
  }

  lemma FreeOwned(s: State, s': State, t: nat)
    requires t < |s.threads| && OwnedOk(s, t) && Accounted(s, t)
    requires s.threads[t].pc.ScanFree? && s.threads[t].pc.todo != []
    requires s'.heap == s.heap - {s.threads[t].pc.todo[0].addr} && HeadPos(s') == HeadPos(s)
    requires |s'.threads| == |s.threads| && PrivateOf(s'.threads[t].pc) == PrivateOf(s.threads[t].pc)
    requires Owned(s, t) == Retired(s, t) + s.threads[t].pc.todo
    requires Owned(s', t) == Retired(s, t) + s.threads[t].pc.todo[1..]
    requires forall x :: x in Owned(s', t) ==> x in Owned(s, t) && x.pos != s.threads[t].pc.todo[0].pos
    requires forall x :: x in Owned(s, t) && x != s.threads[t].pc.todo[0] ==> x in Owned(s', t)
    requires Distinct(Owned(s', t))
    ensures OwnedOk(s', t) && Accounted(s', t)
  {
    var y := s.threads[t].pc.todo[0];
    assert Owned(s, t)[|Retired(s, t)|] == y;
    assert Disposable(s, t, y);
    forall x | x in Owned(s', t)
      ensures Disposable(s', t, x)
    {
      assert Disposable(s, t, x);
    }
  }

  lemma FreeNode(s: State, t: nat)
    requires Inv(s) && t < |s.threads| && s.threads[t].pc.ScanFree? && s.threads[t].pc.todo != []
    requires s.threads[t].pc.todo[0].addr !in s.threads[t].pc.priv
    ensures Keeps(s, StepScan(s, t))
  {
    assert ThreadOk(s, t);
    var y := s.threads[t].pc.todo[0];
    assert y in Owned(s, t) && Disposable(s, t, y);
    var s' := StepScan(s, t);
    FreeMemory(s, s', y, t);
    FreeHolds(s, s', t);
    FreeMover(s, s', t);
    GuardsShrink(s, s', t);
    SettleScan(s, s', t);
  }

  lemma FreeHolds(s: State, s': State, t: nat)
    requires Inv(s) && t < |s.threads| && s.threads[t].pc.ScanFree? && s.threads[t].pc.todo != []
    requires s.threads[t].pc.todo[0].addr !in s.threads[t].pc.priv
    requires s'.heap == s.heap - {s.threads[t].pc.todo[0].addr}
    ensures KeepsHolds(s, s', t)
  {
    var y := s.threads[t].pc.todo[0];
    assert ThreadOk(s, t);
    assert y in Owned(s, t) && Disposable(s, t, y);
    forall u, k | 0 <= u < |s.threads| && u != t && 0 <= k < 2 && HasHold(s.threads[u].pc, k)
      ensures Live(s', Hold(s.threads[u].pc, k))
    {
      Held(s, u, k);
      Unheld(s, t, u, k);
    }
  }

  /** Distinct nodes whose addresses all stand on a list are no more than the list is long. */
  lemma {:induction false} Pigeonhole(kept: seq<Ref>, priv: seq<Addr>)
    requires forall i, j :: 0 <= i < j < |kept| ==> kept[i].addr != kept[j].addr
    requires forall x :: x in kept ==> x.addr in priv
    ensures |kept| <= |priv|
    decreases |kept|
  {
    if kept != [] {
      var last := kept[|kept| - 1];
      var i :| 0 <= i < |priv| && priv[i] == last.addr;
      var rest := priv[..i] + priv[i + 1..];
      forall x | x in kept[..|kept| - 1]
        ensures x.addr in rest
      {
        var j :| 0 <= j < |kept| - 1 && kept[j] == x;
        assert x in kept;
        var m :| 0 <= m < |priv| && priv[m] == x.addr;
        assert m != i;
        assert rest[if m < i then m else m - 1] == x.addr;
      }
      Pigeonhole(kept[..|kept| - 1], rest);
    }
  }

  /** After a scan the backlog fits the hazard slots of the table. */
  lemma BacklogFits(s: State, t: nat)
    requires Inv(s) && t < |s.threads| && s.threads[t].pc.ScanFree?
    ensures |Retired(s, t)| <= |s.threads[t].pc.priv| <= SLOTS * |s.recs|
  {
    assert ThreadOk(s, t);
    var kept := Retired(s, t);
    var o := Owned(s, t);
    forall i, j | 0 <= i < j < |kept|
      ensures kept[i].addr != kept[j].addr
    {
      assert o[i] == kept[i] && o[j] == kept[j];
      assert Disposable(s, t, o[i]) && Disposable(s, t, o[j]);
    }
    Pigeonhole(kept, s.threads[t].pc.priv);
  }

  lemma StepScanFree(s: State, t: nat)
    requires Inv(s) && t < |s.threads| && s.threads[t].pc.ScanFree?
    ensures Keeps(s, StepScan(s, t))
  {
    var pc := s.threads[t].pc;
    if pc.todo == [] {
      LeaveScan(s, t);
    } else if pc.todo[0].addr in pc.priv {
      KeepNode(s, t);
    } else {
      FreeNode(s, t);
    }
  }

  lemma LeaveScan(s: State, t: nat)
    requires Inv(s) && t < |s.threads| && s.threads[t].pc.ScanFree? && s.threads[t].pc.todo == []
    ensures Keeps(s, StepScan(s, t))
  {
    assert ThreadOk(s, t);
    var pc' := HelpScan(s.threads[t].pc.exit, s.threads[t].pc.i, |s.recs|);
    var s' := Goto(s, t, pc');
    BacklogFits(s, t);
    QuietEvolves(s, s', t);
    LeaveThread(s, t, pc');
    Settle(s, s', t);
  }

  lemma LeaveThread(s: State, t: nat, pc': PC)
    requires t < |s.threads| && ThreadOk(s, t) && s.threads[t].pc.ScanFree? && s.threads[t].pc.todo == []
    requires pc' == HelpScan(s.threads[t].pc.exit, s.threads[t].pc.i, |s.recs|) && |Retired(s, t)| <= SLOTS * |s.recs|
    ensures ThreadOk(Goto(s, t, pc'), t)
  {
    var s' := Goto(s, t, pc');
    LocalsStable(s, s', pc');
    assert Owned(s', t) == Owned(s, t);
  }

  // ---------------------------------------------------------------- help_scan and registration

  /** No record is ever out of use, so there is never one to help or to take over. */
  lemma HelpScanEnd(s: State, t: nat)
    requires Inv(s) && t < |s.threads| && s.threads[t].pc.HelpScan? && s.threads[t].pc.r == 0
    ensures Keeps(s, StepScan(s, t))
  {
    assert ThreadOk(s, t);
    GotoMove(s, t, DeqRetire(s.threads[t].pc.exit, s.threads[t].pc.i + 1));
  }

  lemma StepHelpScan(s: State, t: nat)
    requires Inv(s) && t < |s.threads| && s.threads[t].pc.HelpScan?
    ensures Keeps(s, StepScan(s, t))
  {
    if s.threads[t].pc.r == 0 { HelpScanEnd(s, t); } else { HelpScanGoesOn(s, t); }
  }

  lemma HelpScanGoesOn(s: State, t: nat)
    requires Inv(s) && t < |s.threads| && s.threads[t].pc.HelpScan? && s.threads[t].pc.r > 0
    ensures Keeps(s, StepScan(s, t))
  {
    assert ThreadOk(s, t);
    var pc := s.threads[t].pc;
    GotoMove(s, t, HelpScan(pc.exit, pc.i, pc.r - 1));
  }

  lemma RegisterKeeps(s: State, s': State, t: nat, pc': PC)
    requires Inv(s) && t < |s.threads| && s' == Goto(s, t, pc')
    requires var pc := s.threads[t].pc;
             && (pc.RegWalk? || pc.RegRead? || pc.RegLink?)
             && ((pc'.RegWalk? && pc'.r <= |s.recs|) || pc'.RegRead? || (pc'.RegLink? && pc'.top <= |s.recs|))
             && pc'.resume == pc.resume
    ensures Keeps(s, s')
  {
    assert ThreadOk(s, t);
    EarlyMove(s, t, pc');
  }

  lemma StepRegister(s: State, t: nat)
    requires Inv(s) && t < |s.threads|
    requires var pc := s.threads[t].pc; pc.RegWalk? || pc.RegRead? || (pc.RegLink? && pc.top != |s.recs|)
    ensures Keeps(s, StepScan(s, t))
  {
    assert ThreadOk(s, t);
    var pc := s.threads[t].pc;
    var pc' := if pc.RegWalk? && pc.r > 0 then RegWalk(pc.r - 1, pc.resume)
               else if pc.RegRead? then RegLink(|s.recs|, pc.resume) else RegRead(pc.resume);
    RegisterShape(s, t, pc');
    RegisterKeeps(s, StepScan(s, t), t, pc');
  }

  lemma RegisterShape(s: State, t: nat, pc': PC)
    requires t < |s.threads| && RecordsOk(s)
    requires var pc := s.threads[t].pc;
             (pc.RegWalk? && pc.r <= |s.recs|) || pc.RegRead? || (pc.RegLink? && pc.top != |s.recs|)
    requires var pc := s.threads[t].pc;
             pc' == if pc.RegWalk? && pc.r > 0 then RegWalk(pc.r - 1, pc.resume)
                    else if pc.RegRead? then RegLink(|s.recs|, pc.resume) else RegRead(pc.resume)
    ensures StepScan(s, t) == Goto(s, t, pc')
  {
  }

  lemma RegLinkMover(s: State, s': State, t: nat)
    requires Inv(s) && t < |s.threads| && s.threads[t].pc.RegLink? && s.threads[t].pc.top == |s.recs|
    requires s' == StepScan(s, t)
    ensures ThreadOk(s', t)
  {
    assert ThreadOk(s, t);
    assert Owned(s', t) == Owned(s, t) == [];
    assert s'.recs[|s.recs|].slots == seq(SLOTS, _ => NO_ADDR);
  }

  lemma RegLinkRecords(s: State, s': State, t: nat)
    requires Inv(s) && t < |s.threads| && s.threads[t].pc.RegLink? && s.threads[t].pc.top == |s.recs|
    requires s' == StepScan(s, t)
    ensures RecordsOk(s') && MemoryOk(s')
  {
    assert ThreadOk(s, t);
    forall a | a in s'.heap
      ensures NodeOk(s', a)
    {
      assert NodeOk(s, a);
    }
    forall r | 0 <= r < |s'.recs|
      ensures s'.recs[r].inUse && |s'.recs[r].slots| == SLOTS
      ensures s'.recs[r].owner < |s'.threads| && s'.threads[s'.recs[r].owner].rec == r
    {
    }
  }

  lemma RegLinkEvolves(s: State, s': State, t: nat)
    requires Inv(s) && t < |s.threads| && s.threads[t].pc.RegLink? && s.threads[t].pc.top == |s.recs|
    requires s' == StepScan(s, t)
    ensures Evolves(s, s', t) && s'.fault == NoFault && !HasHold(s'.threads[t].pc, 0) && !HasHold(s'.threads[t].pc, 1)
    ensures !Scanning(s'.threads[t].pc)
  {
    assert ThreadOk(s, t);
    LinkedHolds(s, s', t);
  }

  lemma StepRegLink(s: State, t: nat)
    requires Inv(s) && t < |s.threads| && s.threads[t].pc.RegLink? && s.threads[t].pc.top == |s.recs|
    ensures Keeps(s, StepScan(s, t))
  {
    var s' := StepScan(s, t);
    RegLinkEvolves(s, s', t);
    RegLinkRecords(s, s', t);
    RegLinkMover(s, s', t);
    NoGuards(s', t);
    Assemble(s, s', t);
  }

  /** A thread that neither scans nor holds anything owes nobody anything. */
  lemma NoGuards(s: State, t: nat)
    requires t < |s.threads| && !Scanning(s.threads[t].pc)
    requires !HasHold(s.threads[t].pc, 0) && !HasHold(s.threads[t].pc, 1)
    ensures forall v :: 0 <= v < |s.threads| ==> GuardOk(s, t, v) && GuardOk(s, v, t)
  {
  }
}
