/** What a step leaves alone: other processes, the tables, what is paid or executed; and how it can
    move its own process on. */
module LifecycleFrames {
  import opened Wrappers
  import opened Sums
  import opened Merkle
  import opened Ledger
  import opened Lifecycle
  import opened LifecycleInv

  /** The process an event belongs to. */
  function Actor(e: Event): Option<nat> {
    match e
    case DoCommitSnapshot(p) => Some(p)
    case DoTakeLease(p, _, _) => Some(p)
    case DoReadRow(p) => Some(p)
    case DoCheckBalance(p) => Some(p)
    case DoPayBatch(p) => Some(p)
    case DoRenew(p, _) => Some(p)
    case DoFund(p) => Some(p)
    case DoMarkExecuted(p) => Some(p)
    case DoFail(p) => Some(p)
    case DoReleaseLease(p) => Some(p)
    case DoCrash(p) => Some(p)
    case DoTakeLock(p, _) => Some(p)
    case DoCheckEscrow(p) => Some(p)
    case DoReleasePayout(p) => Some(p)
    case DoReleaseLock(p) => Some(p)
    case _ => None
  }

  /** Same wallets, same payouts, same total, and whatever was paid stays recorded. */
  ghost predicate Kept(r: Row, r': Row) {
    && r'.id == r.id && SameTable(r.allocations, r'.allocations) && r'.totalAllocated == r.totalAllocated
    && r'.generation == r.generation
    && (Funded(r) ==> Funded(r')) && (r.status == Executed ==> r'.status == Executed)
    && forall k :: 0 <= k < |r.allocations| && r.allocations[k].txSignature.Some? ==>
         r'.allocations[k].txSignature.Some?
  }

  /** The lock is open at that time. */
  predicate LockFree(a: Alloc, now: int) {
    a.claimingUntil.None? || a.claimingUntil.value < now
  }

  /** The allocation can be locked now. */
  predicate Lockable(s: State, d: nat, generation: nat, k: nat) {
    && d < |s.rows| && s.rows[d].generation == generation && k < |s.rows[d].allocations|
    && s.rows[d].allocations[k].txSignature.None? && LockFree(s.rows[d].allocations[k], s.clock)
  }

  /** What a lease holder does next. */
  ghost predicate PhaseMoves(s: State, e: Event, r: Row, phase: Phase, phase': Phase) {
    match phase
    case Fresh(mode) =>
      && e.DoReadRow?
      && if mode == Direct then phase' == ToPay(r.generation, Unpaid(r), false) else phase'.ToFund? || phase'.ToMark?
    case ToPay(g, unpaid, checked) =>
      if checked then e.DoPayBatch? && phase' == Batched(g, unpaid[|NextBatch(unpaid)|..])
      else e.DoCheckBalance? && phase' == ToPay(g, unpaid, true) && Sum(unpaid, DueAmount) <= s.chain.issuerUsdc
    case Batched(g, unpaid) => e.DoRenew? && phase' == ToPay(g, unpaid, true)
    case ToFund(_, _, _) => (e.DoCheckBalance? && phase'.ToFund?) || (e.DoFund? && phase'.ToMark?)
    case ToMark(_, _) => false
  }

  predicate StageMoves(s: State, e: Event, p: Proc, stage': Stage)
    requires p.pc.Claiming?
  {
    match p.pc.stage
    case Found => e.DoTakeLock? && stage'.Locked? && Lockable(s, p.d, p.pc.generation, p.pc.k)
    case Locked(_, _) => stage'.Locked? || stage'.Unlocking?
    case Unlocking(_) => false
  }

  /** What a process can have become by its own step. */
  ghost predicate PcMoves(s: State, e: Event, p: nat, pc': Pc)
    requires p < |s.procs|
  {
    var x := s.procs[p];
    || pc' == x.pc || pc' == Finished || pc'.Leaving?
    || (Runs(s, p) && match x.pc
          case Executing(typed, mode) =>
            pc'.Holding? && pc'.phase == Fresh(mode) && s.rows[x.d].totalAllocated == Some(typed)
          case Holding(_, _, phase) => pc'.Holding? && PhaseMoves(s, e, s.rows[x.d], phase, pc'.phase)
          case Claiming(g, k, w, a, _) =>
            pc'.Claiming? && pc' == Claiming(g, k, w, a, pc'.stage) && StageMoves(s, e, x, pc'.stage)
          case _ => false)
  }

  /** The steps that pay, and those that write allocations. */
  predicate MovesMoney(e: Event) {
    e.DoPayBatch? || e.DoFund? || e.DoReleasePayout?
  }

  predicate WritesAllocations(e: Event) {
    e.DoPayBatch? || e.DoTakeLock? || e.DoReleasePayout? || e.DoReleaseLock? || e.DoCommitSnapshot?
  }

  /** Only `p` moved, as it can, and no table changed but one a snapshot may replace. */
  ghost predicate Framed(s: State, e: Event, p: nat, s': State) {
    && s'.clock == s.clock && |s'.rows| == |s.rows| && |s'.procs| == |s.procs|
    && (forall q :: 0 <= q < |s.procs| && q != p ==> s'.procs[q] == s.procs[q])
    && (p < |s.procs| ==> s'.procs[p] == s.procs[p].(pc := s'.procs[p].pc) && PcMoves(s, e, p, s'.procs[p].pc))
    && (forall d :: 0 <= d < |s.rows| ==>
          && (Kept(s.rows[d], s'.rows[d]) || Replaces(s, e, p, d))
          && (!WritesAllocations(e) ==> s'.rows[d].allocations == s.rows[d].allocations))
    && (!MovesMoney(e) ==> s'.log == s.log && s'.chain == s.chain)
  }

  predicate Replaces(s: State, e: Event, p: nat, d: int) {
    e.DoCommitSnapshot? && Runs(s, p) && d == s.procs[p].d && Commits(s.rows[d], s.clock) && s.procs[p].pc.Snapshotting?
  }

  /** A process started, or nothing but time and new rows. */
  ghost predicate Started(s: State, s': State) {
    && s'.clock >= s.clock && s.rows <= s'.rows && s.procs <= s'.procs && s'.log == s.log && s'.chain == s.chain
    && forall q :: |s.procs| <= q < |s'.procs| ==>
         var pc := s'.procs[q].pc;
         && !pc.Holding? && !pc.Leaving? && !Locking(s'.procs[q])
         && (pc.Executing? && pc.mode == Direct ==> s'.procs[q].d < |s.rows| && !Funded(s.rows[s'.procs[q].d]))
  }

  lemma {:induction false} SignAllKeeps(allocs: seq<Alloc>, batch: seq<Due>, sig: Signature)
    ensures var after := SignAll(allocs, batch, sig);
      && SameTable(allocs, after)
      && forall k :: 0 <= k < |allocs| && allocs[k].txSignature.Some? ==> after[k].txSignature.Some?
  {
    if batch != [] { SignAllKeeps(allocs, batch[..|batch| - 1], sig); }
  }

  lemma LeaseFrames(s: State, p: nat, aim: nat, now: nat)
    ensures Framed(s, DoTakeLease(p, aim, now), p, TakeLease(s, p, aim, now))
    ensures Framed(s, DoRenew(p, aim), p, Renew(s, p, aim))
    ensures Framed(s, DoReleaseLease(p), p, ReleaseLease(s, p))
  {
    hide Unpaid, Sum;
  }

  lemma CommitFrame(s: State, p: nat)
    ensures Framed(s, DoCommitSnapshot(p), p, CommitSnapshot(s, p))
  {
    hide Unpaid, Sum, PhaseMoves;
  }

  /** The steps that only move their process on. */
  lemma ReadFrames(sha: Hasher, s: State, p: nat)
    ensures Framed(s, DoReadRow(p), p, ReadRow(sha, s, p))
    ensures Framed(s, DoCheckBalance(p), p, CheckBalance(s, p))
    ensures Framed(s, DoCheckEscrow(p), p, CheckEscrow(s, p))
    ensures Framed(s, DoFail(p), p, Fail(s, p))
    ensures Framed(s, DoCrash(p), p, Crash(s, p))
  {
    hide Unpaid, Sum, ClaimRoot;
  }

  lemma BatchFrame(s: State, p: nat)
    ensures Framed(s, DoPayBatch(p), p, PayBatch(s, p))
  {
    hide Unpaid, Sum, TransferBatch, SignAll;
    if PayBatch(s, p) != s {
      SignAllKeeps(s.rows[s.procs[p].d].allocations, NextBatch(s.procs[p].pc.phase.unpaid), Tx(|s.log|));
    }
  }

  lemma FundFrames(s: State, p: nat)
    ensures Framed(s, DoFund(p), p, Fund(s, p))
    ensures Framed(s, DoMarkExecuted(p), p, MarkExecuted(s, p))
  {
    hide Unpaid, Sum, TransferBatch;
  }

  lemma LockFrames(s: State, p: nat, now: nat)
    ensures Framed(s, DoTakeLock(p, now), p, TakeLock(s, p, now))
    ensures Framed(s, DoReleaseLock(p), p, ReleaseLock(s, p))
  {
    hide Unpaid, Sum, PhaseMoves;
  }

  lemma ReleaseFrame(s: State, p: nat)
    ensures Framed(s, DoReleasePayout(p), p, ReleasePayout(s, p))
  {
    hide Unpaid, Sum, Release, PhaseMoves;
  }

  lemma StartFrames(sha: Hasher, s: State, e: Event)
    requires Actor(e).None?
    ensures Started(s, Step(sha, s, e)) && (!e.DoReport? ==> |Step(sha, s, e).rows| == |s.rows|)
  {
    hide ClaimRoot, FindPayable, LoadsFunded, SnapshotAllowed, Alive;
  }

  /** Every step does one or the other. */
  lemma StepFrames(sha: Hasher, s: State, e: Event)
    ensures Actor(e).Some? ==> Framed(s, e, Actor(e).value, Step(sha, s, e))
    ensures Actor(e).None? ==> Started(s, Step(sha, s, e)) && (!e.DoReport? ==> |Step(sha, s, e).rows| == |s.rows|)
  {
    hide Framed, Started, Report, BeginSnapshot, CommitSnapshot, BeginExecute, TakeLease, ReadRow, CheckBalance;
    hide PayBatch, Renew, Fund, MarkExecuted, Fail, ReleaseLease, Crash, BeginClaim, TakeLock;
    hide CheckEscrow, ReleasePayout, ReleaseLock;
    match e
    case DoTakeLease(p, aim, now) => LeaseFrames(s, p, aim, now);
    case DoRenew(p, aim) => LeaseFrames(s, p, aim, aim);
    case DoReleaseLease(p) => LeaseFrames(s, p, 0, 0);
    case DoReadRow(p) => ReadFrames(sha, s, p);
    case DoCheckBalance(p) => ReadFrames(sha, s, p);
    case DoFail(p) => ReadFrames(sha, s, p);
    case DoCrash(p) => ReadFrames(sha, s, p);
    case DoPayBatch(p) => BatchFrame(s, p);
    case DoFund(p) => FundFrames(s, p);
    case DoMarkExecuted(p) => FundFrames(s, p);
    case DoTakeLock(p, now) => LockFrames(s, p, now);
    case DoReleaseLock(p) => LockFrames(s, p, 0);
    case DoCheckEscrow(p) => ReadFrames(sha, s, p);
    case DoReleasePayout(p) => ReleaseFrame(s, p);
    case DoCommitSnapshot(p) => CommitFrame(s, p);
    case _ => StartFrames(sha, s, e);
  }
}
