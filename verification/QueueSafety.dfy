/** The invariant holds in every reachable state, and what it says to a user of the queue. */
module QueueSafety {
  import opened QueueModel
  import opened QueueInvariant
  import opened QueueStability
  import opened QueueSteps
  import opened QueueUpdates
  import opened QueueScan

  lemma InitOk(n: nat, dummy: Addr)
    requires dummy != NO_ADDR
    ensures Inv(Init(n, dummy))
  {
    var s := Init(n, dummy);
    assert NodeOk(s, dummy);
  }

  lemma EnqueueKeeps(s: State, t: nat)
    requires Inv(s) && t < |s.threads| && InEnqueue(s.threads[t].pc)
    ensures Keeps(s, StepEnqueue(s, t))
  {
    match s.threads[t].pc
    case EnqReadTail(_) => StepEnqReadTail(s, t);
    case EnqProtect(_, _) => StepEnqProtect(s, t);
    case EnqValidate(_, _) => StepEnqValidate(s, t);
    case EnqReadNext(_, _) => StepEnqReadNext(s, t);
    case EnqRevalidate(_, _, _) => StepEnqRevalidate(s, t);
    case EnqHelp(_, _, _) => StepEnqHelp(s, t);
    case EnqLink(_, _) => StepEnqLink(s, t);
    case EnqSwing(_, _) => StepEnqSwing(s, t);
    case EnqRelease(_, _) => StepEnqRelease(s, t);
  }

  lemma DequeueKeeps(s: State, t: nat)
    requires Inv(s) && t < |s.threads| && InDequeue(s.threads[t].pc)
    ensures Keeps(s, StepDequeue(s, t))
  {
    match s.threads[t].pc
    case DeqReadHead => StepDeqReadHead(s, t);
    case DeqProtect(_) => StepDeqProtect(s, t);
    case DeqValidate(_) => StepDeqValidate(s, t);
    case DeqReadTail(_) => StepDeqReadTail(s, t);
    case DeqReadNext(_, _) => StepDeqReadNext(s, t);
    case DeqProtectNext(_, _, _) => StepDeqProtectNext(s, t);
    case DeqRevalidate(_, _, _) => StepDeqRevalidate(s, t);
    case DeqReleaseAll(_) => StepDeqReleaseAll(s, t);
    case DeqHelp(_, _, _) => StepDeqHelp(s, t);
    case DeqReadItem(_, _) => StepDeqReadItem(s, t);
    case DeqSwing(_, _, _) => StepDeqSwing(s, t);
    case DeqRetire(_, _) => StepDeqRetire(s, t);
    case DeqReleaseNext(_, _) => StepDeqReleaseNext(s, t);
  }

  lemma ScanKeeps(s: State, t: nat)
    requires Inv(s) && t < |s.threads|
    requires var pc := s.threads[t].pc; !pc.Idle? && !InEnqueue(pc) && !InDequeue(pc)
    ensures Keeps(s, StepScan(s, t))
  {
    match s.threads[t].pc
    case ScanBegin(_, _) => StepScanBegin(s, t);
    case ScanTest(_, _, _, r, _, _) => if r == 0 { StepScanEnd(s, t); } else { StepScanTest(s, t); }
    case ScanTake(_, _, _, _, _, _) => StepScanTake(s, t);
    case ScanFree(_, _, _, _, _) => StepScanFree(s, t);
    case HelpScan(_, _, _) => StepHelpScan(s, t);
    case RegWalk(_, _) => StepRegister(s, t);
    case RegRead(_) => StepRegister(s, t);
    case RegLink(top, _) => if top == |s.recs| { StepRegLink(s, t); } else { StepRegister(s, t); }
  }

  /** Every move of every thread keeps the invariant. */
  lemma MoveKeeps(s: State, m: Move)
    requires Inv(s)
    ensures Keeps(s, Next(s, m))
  {
    if m.thread < |s.threads| {
      var pc := s.threads[m.thread].pc;
      if pc.Idle? {
        match m.choice
        case CallEnqueue(data, chunk) =>
          if chunk != NO_ADDR && chunk !in s.heap { StepCallEnqueue(s, m.thread, data, chunk); }
        case CallDequeue => StepCallDequeue(s, m.thread);
        case Go =>
      } else if InEnqueue(pc) {
        EnqueueKeeps(s, m.thread);
      } else if InDequeue(pc) {
        DequeueKeeps(s, m.thread);
      } else {
        ScanKeeps(s, m.thread);
      }
    }
  }

  lemma {:induction false} RunOk(n: nat, dummy: Addr, ms: seq<Move>)
    requires dummy != NO_ADDR
    ensures Inv(Exec(Init(n, dummy), ms))
    decreases |ms|
  {
    if ms == [] {
      InitOk(n, dummy);
    } else {
      RunOk(n, dummy, ms[..|ms| - 1]);
      MoveKeeps(Exec(Init(n, dummy), ms[..|ms| - 1]), ms[|ms| - 1]);
    }
  }
}
