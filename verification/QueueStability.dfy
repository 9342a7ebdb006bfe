/**
 What every move of one thread leaves intact for the others, and how the invariant follows
 from that plus the moving thread's own part.
 */
module QueueStability {
  import opened QueueModel
  import opened QueueInvariant

  /** The nodes other threads take care of are exactly as they were. */
  predicate KeepsOthersNodes(s: State, s': State, t: nat) {
    && (forall a :: a in s.heap && s.heap[a].keeper >= 0 && s.heap[a].keeper != t ==>
          a in s'.heap && s'.heap[a] == s.heap[a])
    && (forall a :: a in s'.heap && s'.heap[a].keeper >= 0 && s'.heap[a].keeper != t ==>
          a in s.heap && s'.heap[a] == s.heap[a])
  }

  predicate KeepsOthersRecords(s: State, s': State, t: nat) {
    && |s.recs| <= |s'.recs|
    && (forall r :: 0 <= r < |s.recs| ==> s'.recs[r].owner == s.recs[r].owner)
    && (forall r :: 0 <= r < |s.recs| && s.recs[r].owner != t ==> s'.recs[r] == s.recs[r])
  }

  predicate KeepsOthers(s: State, s': State, t: nat) {
    && |s'.threads| == |s.threads|
    && (forall u :: 0 <= u < |s.threads| && u != t ==> s'.threads[u] == s.threads[u])
  }

  /** The chain only grows, and head and tail only move forward on it. */
  predicate Advances(s: State, s': State) {
    && |s.chain| <= |s'.chain| && (forall i :: 0 <= i < |s.chain| ==> s'.chain[i] == s.chain[i])
    && HeadPos(s) <= HeadPos(s') && TailPos(s) <= TailPos(s')
  }

  /** What another thread holds stays allocated. */
  predicate KeepsHolds(s: State, s': State, t: nat) {
    forall u, k :: 0 <= u < |s.threads| && u != t && 0 <= k < 2 && HasHold(s.threads[u].pc, k) ==>
      Live(s', Hold(s.threads[u].pc, k))
  }

  predicate Evolves(s: State, s': State, t: nat) {
    && KeepsOthers(s, s', t)
    && Advances(s, s')
    && KeepsOthersRecords(s, s', t)
    && KeepsOthersNodes(s, s', t)
    && KeepsHolds(s, s', t)
  }

  /** What one move owes to the system: the invariant, and progress along the chain only. */
  predicate Keeps(s: State, s': State) { Inv(s') && Advances(s, s') }

  /** A thread that does not move keeps its part of the invariant. */
  lemma OtherThread(s: State, s': State, t: nat, u: nat)
    requires Inv(s) && Evolves(s, s', t)
    requires u < |s.threads| && u != t
    ensures ThreadOk(s', u)
  {
    assert ThreadOk(s, u);
    assert s'.threads[u] == s.threads[u];
    OtherOwned(s, s', t, u);
    OtherHolds(s, s', t, u);
    LocalsStable(s, s', s.threads[u].pc);
  }

  lemma OtherHolds(s: State, s': State, t: nat, u: nat)
    requires Inv(s) && Evolves(s, s', t)
    requires u < |s.threads| && u != t
    ensures HoldOk(s', u)
  {
    assert ThreadOk(s, u);
    forall k | 0 <= k < 2 && HasHold(s'.threads[u].pc, k)
      ensures HeldAt(s', u, k)
    {
      assert HeldAt(s, u, k);
    }
  }

  lemma LocalsStable(s: State, s': State, pc: PC)
    requires Advances(s, s') && |s.recs| <= |s'.recs|
    requires LocalsOk(s, pc)
    ensures LocalsOk(s', pc)
  {
  }

  lemma OtherOwned(s: State, s': State, t: nat, u: nat)
    requires Inv(s) && Evolves(s, s', t)
    requires u < |s.threads| && u != t
    ensures Owned(s', u) == Owned(s, u)
    ensures OwnedOk(s', u) && Accounted(s', u) && BacklogOk(s', u)
  {
    assert ThreadOk(s, u);
    assert Retired(s', u) == Retired(s, u);
  }

  /** A scan and a holder that both stand still keep their bargain. */
  lemma OtherGuard(s: State, s': State, t: nat, u: nat, v: nat)
    requires Inv(s) && Evolves(s, s', t)
    requires u < |s.threads| && v < |s.threads| && u != t && v != t
    ensures GuardOk(s', u, v)
  {
    assert ThreadOk(s, u);
    assert GuardOk(s, u, v);
    assert Candidates(s', u) == Candidates(s, u);
  }

  /** The moving thread's own duties. */
  predicate MoverOk(s': State, t: nat)
    requires t < |s'.threads|
  {
    && ThreadOk(s', t)
    && (forall v :: 0 <= v < |s'.threads| ==> GuardOk(s', t, v))
    && (forall u :: 0 <= u < |s'.threads| ==> GuardOk(s', u, t))
  }

  lemma Assemble(s: State, s': State, t: nat)
    requires Inv(s) && t < |s.threads| && Evolves(s, s', t)
    requires s'.fault == NoFault && MemoryOk(s') && RecordsOk(s') && MoverOk(s', t)
    ensures Keeps(s, s')
  {
    forall u | 0 <= u < |s'.threads|
      ensures ThreadOk(s', u)
    {
      if u != t { OtherThread(s, s', t, u); }
    }
    forall u, v | 0 <= u < |s'.threads| && 0 <= v < |s'.threads|
      ensures GuardOk(s', u, v)
    {
      if u != t && v != t { OtherGuard(s, s', t, u, v); }
    }
  }
}
