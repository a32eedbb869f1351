/** What a single step can change about one allocation: who may pay it directly, who lists it, who
    holds its lock, what its wallet was sent and what is written down about it. */
module LifecycleSteps {
  import opened Wrappers
  import opened Sums
  import opened Merkle
  import opened Ledger
  import opened Lifecycle
  import opened LifecycleInv
  import opened LifecycleProof
  import opened LifecycleFrames
  import opened LifecycleTheorems

  // ------------------------------------------------------------------ who does what

  /** A live process holds the lock of the allocation. */
  predicate Locker(s: State, d: nat, k: nat, q: int) {
    && 0 <= q < |s.procs| && Alive(s.clock, s.procs[q]) && s.procs[q].d == d
    && Locking(s.procs[q]) && s.procs[q].pc.k == k
  }

  predicate DirectHolder(p: Proc) {
    p.pc.Holding? && (p.pc.phase.ToPay? || p.pc.phase.Batched? || p.pc.phase == Fresh(Direct))
  }

  /** A live direct execution of the row that can still get at its lease, or has it. */
  predicate PaysDirectly(s: State, d: nat, q: int) {
    && 0 <= q < |s.procs| && Alive(s.clock, s.procs[q]) && s.procs[q].d == d && d < |s.rows|
    && (DirectHolder(s.procs[q])
        || (s.procs[q].pc.Executing? && s.procs[q].pc.mode == Direct
            && s.rows[d].totalAllocated == Some(s.procs[q].pc.typed)))
  }

  function ListOf(phase: Phase): seq<Due> {
    match phase
    case ToPay(_, unpaid, _) => unpaid
    case Batched(_, unpaid) => unpaid
    case _ => []
  }

  /** A live execution still has the allocation on its list. */
  ghost predicate HasListed(s: State, d: nat, k: nat, q: int) {
    && 0 <= q < |s.procs| && Alive(s.clock, s.procs[q]) && s.procs[q].d == d
    && s.procs[q].pc.Holding? && Lists(ListOf(s.procs[q].pc.phase), k)
  }

  /** And is past its balance check. */
  ghost predicate WillPay(s: State, d: nat, k: nat, q: int) {
    HasListed(s, d, k, q) && (s.procs[q].pc.phase.ToPay? ==> s.procs[q].pc.phase.checked)
  }

  /** A live process is about to release the allocation. */
  predicate Releaser(s: State, d: nat, k: nat, q: int) {
    Locker(s, d, k, q) && s.procs[q].pc.stage.Locked?
  }

  /** A lock is only taken on an unsigned allocation whose lock is free. */
  predicate LocksAnew(s: State, e: Event, d: nat, k: nat) {
    && e.DoTakeLock? && d < |s.rows| && k < |s.rows[d].allocations|
    && s.rows[d].allocations[k].txSignature.None? && LockFree(s.rows[d].allocations[k], s.clock)
  }

  /** How an execution comes to have an allocation listed: it had, or it has just read the row, or its
      balance check passed; or it is past that. */
  ghost predicate ListsOn(s: State, e: Event, s': State, d: nat, k: nat, q: int)
    requires d < |s.rows| && 0 <= q < |s'.procs|
  {
    || (HasListed(s, d, k, q) && s'.procs[q].pc == s.procs[q].pc)
    || (PaysDirectly(s, d, q) && s'.procs[q].pc.Holding?
        && s'.procs[q].pc.phase == ToPay(s.rows[d].generation, Unpaid(s.rows[d]), false))
    || (HasListed(s, d, k, q) && s.procs[q].pc.phase.ToPay?
        && Sum(s.procs[q].pc.phase.unpaid, DueAmount) <= s.chain.issuerUsdc)
    || WillPay(s, d, k, q)
  }

  // ------------------------------------------------------------------ what one step can change

  lemma {:induction false} OutNonNegative(more: seq<Transfer>)
    ensures Sum(more, FromIssuer) >= 0
  {
    if more != [] { OutNonNegative(more[..|more| - 1]); }
  }

  lemma IssuerOnlyPays(sha: Hasher, s: State, e: Event)
    ensures Step(sha, s, e).chain.issuerUsdc <= s.chain.issuerUsdc
  {
    hide Step, Sum;
    StepLogs(sha, s, e);
    OutNonNegative(Step(sha, s, e).log[|s.log|..]);
  }

  /** The processes after a step: on a funded row no direct execution starts, and a lock is only taken
      if it is free. */
  lemma ProcStep(sha: Hasher, s: State, e: Event, d: nat, k: nat, q: int)
    requires d < |s.rows|
    ensures var s' := Step(sha, s, e);
      && s'.clock >= s.clock
      && (Funded(s.rows[d]) && PaysDirectly(s', d, q) && s'.rows[d].totalAllocated == s.rows[d].totalAllocated ==>
            PaysDirectly(s, d, q) && q < |s'.procs| && s'.procs[q].born == s.procs[q].born)
      && (Locker(s', d, k, q) ==> Locker(s, d, k, q) || LocksAnew(s, e, d, k))
      && (Releaser(s', d, k, q) ==> Releaser(s, d, k, q) || LocksAnew(s, e, d, k))
  {
    hide Step, Unpaid, Sum, Kept, Replaces, MovesMoney, WritesAllocations, NextBatch;
    StepFrames(sha, s, e);
  }

  /** An allocation is listed only because it was, or was just read as due. */
  lemma ListStep(sha: Hasher, s: State, e: Event, d: nat, k: nat, q: int)
    requires d < |s.rows| && HasListed(Step(sha, s, e), d, k, q)
    ensures ListsOn(s, e, Step(sha, s, e), d, k, q)
  {
    hide Step, Lists, Unpaid, Sum, Kept, Replaces, MovesMoney, WritesAllocations, StageMoves;
    StepFrames(sha, s, e);
    RestListed(k);
  }

  lemma RestListed(k: nat)
    ensures !Lists([], k)
    ensures forall unpaid: seq<Due>, n: nat :: n <= |unpaid| && Lists(unpaid[n..], k) ==> Lists(unpaid, k)
  {
    forall unpaid: seq<Due>, n: nat | n <= |unpaid| && Lists(unpaid[n..], k) ensures Lists(unpaid, k) {
      var i :| 0 <= i < |unpaid[n..]| && unpaid[n..][i].k == k;
      assert unpaid[n + i].k == k;
    }
  }

  /** What is written down about an allocation. */
  function AllocAt(s: State, d: nat, k: nat): Option<Alloc> {
    if d < |s.rows| && k < |s.rows[d].allocations| then Some(s.rows[d].allocations[k]) else None
  }

  /** Only a batch that lists an allocation sends its wallet something from the issuer, and only a
      claim that holds its lock something from the escrow. */
  lemma SentStep(g: Rules, sha: Hasher, s: State, e: Event, d: nat, k: nat, mode: PayoutMode)
    requires Inv(g, sha, s) && d < |s.rows| && k < |s.rows[d].allocations| && g(d).commit
    ensures var w := s.rows[d].allocations[k].wallet;
      || Sent(Step(sha, s, e).log, d, w, mode) == Sent(s.log, d, w, mode)
      || (mode == Direct && e.DoPayBatch? && WillPay(s, d, k, e.p))
      || (mode == Escrow && e.DoReleasePayout? && Releaser(s, d, k, e.p))
  {
    hide Inv, Sent, PayBatch, Fund, ReleasePayout, WillPay, Releaser, PcMoves, Kept, Replaces;
    match e
    case DoPayBatch(p) => BatchSent(g, sha, s, p, d, k, mode);
    case DoFund(p) => FundSent(s, p, d, s.rows[d].allocations[k].wallet, mode);
    case DoReleasePayout(p) => ReleaseSent(g, sha, s, p, d, k, mode);
    case _ => StepFrames(sha, s, e);
  }

  lemma BatchSent(g: Rules, sha: Hasher, s: State, p: nat, d: nat, k: nat, mode: PayoutMode)
    requires Inv(g, sha, s) && d < |s.rows| && k < |s.rows[d].allocations|
    ensures var w := s.rows[d].allocations[k].wallet;
      Sent(PayBatch(s, p).log, d, w, mode) == Sent(s.log, d, w, mode) || (mode == Direct && WillPay(s, d, k, p))
  {
    hide Sent, TransferBatch, SignAll, Sum, ClaimRoot, RowBooks, Reserved, Complete;
    var w := s.rows[d].allocations[k].wallet;
    if PayBatch(s, p).log != s.log {
      var unpaid := s.procs[p].pc.phase.unpaid;
      var batch := NextBatch(unpaid);
      var notes := PaidNotes(s.procs[p].d, batch, s.procs[p].pc.typed);
      if s.procs[p].d != d || mode == Escrow {
        SentSame(s.log, notes, d, w, mode);
      } else if !Lists(unpaid, k) {
        assert ProcOk(g(d), sha, s.log, s.rows[d], s.procs[p]) && RowOk(g(d), sha, s.rows[d]);
        forall i | 0 <= i < |unpaid| ensures unpaid[i].wallet != w {
          DifferentPlaces(s.rows[d].allocations, unpaid[i].k, k);
        }
        SentSame(s.log, notes, d, w, mode);
      }
    }
  }

  lemma FundSent(s: State, p: nat, d: nat, wallet: string, mode: PayoutMode)
    ensures Sent(Fund(s, p).log, d, wallet, mode) == Sent(s.log, d, wallet, mode)
  {
    hide Sent, TransferBatch;
    if Fund(s, p).log != s.log {
      SentAppend(s.log, Fundings(s.procs[p].d, s.procs[p].pc.phase.remaining, s.procs[p].pc.typed), d, wallet, mode);
    }
  }

  lemma ReleaseSent(g: Rules, sha: Hasher, s: State, p: nat, d: nat, k: nat, mode: PayoutMode)
    requires Inv(g, sha, s) && d < |s.rows| && k < |s.rows[d].allocations| && g(d).commit
    ensures var w := s.rows[d].allocations[k].wallet;
      || Sent(ReleasePayout(s, p).log, d, w, mode) == Sent(s.log, d, w, mode)
      || (mode == Escrow && Releaser(s, d, k, p))
  {
    hide Sent, Release, Sum, ClaimRoot, RowBooks, Reserved, StageOk;
    var w := s.rows[d].allocations[k].wallet;
    if ReleasePayout(s, p).log != s.log {
      var pc := s.procs[p].pc;
      SentAppend(s.log, Released(s.procs[p].d, pc.wallet, pc.payout), d, w, mode);
      if s.procs[p].d == d && pc.wallet == w {
        assert ProcOk(g(d), sha, s.log, s.rows[d], s.procs[p]) && RowOk(g(d), sha, s.rows[d]);
        if pc.k != k { DifferentPlaces(s.rows[d].allocations, pc.k, k); }
      }
    }
  }

  lemma DifferentPlaces(allocs: seq<Alloc>, j: nat, k: nat)
    requires OneRowPerWallet(allocs) && j < |allocs| && k < |allocs| && j != k
    ensures allocs[j].wallet != allocs[k].wallet
  {
  }

  /** How an allocation of a funded row can change. */
  lemma AllocStep(g: Rules, sha: Hasher, s: State, e: Event, d: nat, k: nat)
    requires Inv(g, sha, s) && Obeys(g, s, e) && d < |s.rows| && g(d).commit
    requires Funded(s.rows[d]) && k < |s.rows[d].allocations|
    ensures AllocAt(Step(sha, s, e), d, k).Some?
    ensures var a, a' := s.rows[d].allocations[k], AllocAt(Step(sha, s, e), d, k).value;
      || a' == a
      || LocksAnew(s, e, d, k)
      || ((e.DoReleasePayout? || e.DoReleaseLock?) && Locker(s, d, k, e.p))
      || (e.DoPayBatch? && WillPay(s, d, k, e.p) && a'.txSignature.Some?)
  {
    hide Inv, Locker, WillPay, LocksAnew, PayBatch, TakeLock, ReleasePayout, ReleaseLock, PcMoves, Kept, AnySigned;
    match e
    case DoPayBatch(p) => BatchAlloc(g, sha, s, p, d, k);
    case DoTakeLock(p, now) => ClaimAlloc(s, p, now, d, k);
    case DoReleasePayout(p) => ClaimAlloc(s, p, 0, d, k);
    case DoReleaseLock(p) => ClaimAlloc(s, p, 0, d, k);
    case DoCommitSnapshot(p) =>
    case _ => StepFrames(sha, s, e);
  }

  lemma BatchAlloc(g: Rules, sha: Hasher, s: State, p: nat, d: nat, k: nat)
    requires Inv(g, sha, s) && d < |s.rows| && k < |s.rows[d].allocations|
    ensures AllocAt(PayBatch(s, p), d, k).Some?
    ensures var a, a' := s.rows[d].allocations[k], AllocAt(PayBatch(s, p), d, k).value;
      a' == a || (WillPay(s, d, k, p) && a'.txSignature.Some?)
  {
    hide Sent, TransferBatch, SignAll, Sum, ClaimRoot, RowsOk, Reserved, Complete;
    if PayBatch(s, p).rows != s.rows && s.procs[p].d == d {
      var unpaid := s.procs[p].pc.phase.unpaid;
      var batch := NextBatch(unpaid);
      assert ProcOk(g(d), sha, s.log, s.rows[d], s.procs[p]);
      ListingPrefix(s.rows[d].allocations, unpaid, |batch|);
      SignAllAt(s.rows[d].allocations, batch, Tx(|s.log|));
      if i :| 0 <= i < |batch| && batch[i].k == k { assert unpaid[i].k == k; }
    }
  }

  lemma ClaimAlloc(s: State, p: nat, now: nat, d: nat, k: nat)
    requires d < |s.rows| && k < |s.rows[d].allocations|
    ensures var a, a' := s.rows[d].allocations[k], AllocAt(TakeLock(s, p, now), d, k);
      a' == Some(a) || (a'.Some? && LocksAnew(s, DoTakeLock(p, now), d, k))
    ensures var a, a' := s.rows[d].allocations[k], AllocAt(ReleasePayout(s, p), d, k);
      a' == Some(a) || (a'.Some? && Locker(s, d, k, p))
    ensures var a, a' := s.rows[d].allocations[k], AllocAt(ReleaseLock(s, p), d, k);
      a' == Some(a) || (a'.Some? && Locker(s, d, k, p))
  {
    hide Release;
  }
}
