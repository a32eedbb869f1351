/** Nothing gets stuck: whatever crashed or failed, a snapshotted distribution can still be executed
    and a funded payout claimed. */
module LifecycleRecovery {
  import opened Wrappers
  import opened Sums
  import opened Merkle
  import opened Ledger
  import opened Lifecycle
  import opened LifecycleInv
  import opened LifecycleProof
  import opened LifecycleFrames
  import opened LifecycleTheorems
  import ClaimTree
  import Sorting

  /** Events that no guard is about. */
  predicate Harmless(es: seq<Event>) {
    forall i :: 0 <= i < |es| ==> !es[i].DoTakeLease? && !es[i].DoCommitSnapshot?
  }

  lemma HarmlessIsGuarded(g: Rules, sha: Hasher, s: State, es: seq<Event>)
    requires Harmless(es)
    ensures Guarded(g, sha, s, es)
  {
    hide Run;
  }

  lemma RunOne(sha: Hasher, s: State, e: Event)
    ensures Run(sha, s, [e]) == Step(sha, s, e)
  {
    hide Step;
    assert [e][..0] == [] && Run(sha, s, []) == s;
  }

  // ------------------------------------------------------------------ executing

  /** Process `p` holds the lease of row `d` and is at `phase`. */
  ghost predicate Holds(s: State, p: nat, d: nat, typed: nat, phase: Phase) {
    && Runs(s, p) && s.procs[p].d == d && s.procs[p].born <= s.clock && s.procs[p].pc.Holding?
    && s.procs[p].pc.typed == typed && s.procs[p].pc.phase == phase
    && s.rows[d].executingUntil == Some(s.procs[p].pc.lease)
  }

  /** A moment at which no lease and no lock on the row is live. */
  function Later(s: State, d: nat): nat
    requires d < |s.rows|
  {
    if s.rows[d].executingUntil.Some? && s.rows[d].executingUntil.value >= 0
    then s.rows[d].executingUntil.value + 1
    else 0
  }

  /** Waiting out the lease, confirming the total and claiming the row. */
  lemma CanTakeLease(sha: Hasher, s: State, d: nat) returns (es: seq<Event>, p: nat)
    requires d < |s.rows| && s.rows[d].status == Snapshotted && s.rows[d].totalAllocated.Some?
    ensures Guarded(Everywhere(BOTH_GUARDS), sha, s, es) && d < |Run(sha, s, es).rows|
    ensures var s' := Run(sha, s, es); var r := s.rows[d];
      && Holds(s', p, d, r.totalAllocated.value, Fresh(ResolveMode(r, Direct)))
      && s'.chain == s.chain && s'.rows[d] == r.(executingUntil := s'.rows[d].executingUntil)
  {
    hide Run;
    var ms, typed := Later(s, d), s.rows[d].totalAllocated.value;
    var s1 := s.(clock := s.clock + ms);
    p := |s.procs|;
    var s2 := BeginExecute(s1, d, typed, Direct);
    var begin, take := DoBeginExecute(d, typed, Direct), DoTakeLease(p, s1.clock, s1.clock);
    assert s2.procs[p] == Proc(d, s1.clock, Executing(typed, ResolveMode(s.rows[d], Direct)));
    assert Runs(s2, p) && LeaseFree(s2.rows[d], s1.clock);
    RunOne(sha, s, Tick(ms));
    RunConcat(sha, s, [Tick(ms)], [begin]);
    RunOne(sha, s1, begin);
    RunConcat(sha, s, [Tick(ms)] + [begin], [take]);
    RunOne(sha, s2, take);
    assert Obeys(Everywhere(BOTH_GUARDS), s2, take);
    es := [Tick(ms)] + [begin] + [take];
    ThreeGuarded(Everywhere(BOTH_GUARDS), sha, s, Tick(ms), begin, take);
  }

  lemma ThreeGuarded(g: Rules, sha: Hasher, s: State, a: Event, b: Event, c: Event)
    requires Obeys(g, s, a) && Obeys(g, Step(sha, s, a), b) && Obeys(g, Step(sha, Step(sha, s, a), b), c)
    ensures Guarded(g, sha, s, [a] + [b] + [c])
  {
    hide Obeys, Step, Run, Guarded;
    RunOne(sha, s, a);
    RunOne(sha, Step(sha, s, a), b);
    RunConcat(sha, s, [a], [b]);
    GuardedOne(g, sha, s, a);
    GuardedOne(g, sha, Step(sha, s, a), b);
    GuardedOne(g, sha, Step(sha, Step(sha, s, a), b), c);
    GuardedConcat(g, sha, s, [a], [b]);
    GuardedConcat(g, sha, s, [a] + [b], [c]);
  }

  lemma {:induction false} DuesSum(allocs: seq<Alloc>)
    ensures Sum(Dues(allocs), DueAmount) == Sum(allocs, OpenPayout)
  {
    if allocs != [] {
      var k := |allocs| - 1;
      DuesSum(allocs[..k]);
      var due := Due(k, allocs[k].wallet, allocs[k].payout);
      SumConcat(Dues(allocs[..k]), [due], DueAmount);
      SumOne(due, DueAmount);
      assert Dues(allocs[..k]) + [] == Dues(allocs[..k]);
    }
  }

  /** What the list of unpaid allocations adds up to. */
  lemma UnpaidSum(r: Row)
    ensures Sum(Unpaid(r), DueAmount) == Sum(r.allocations, OpenPayout)
  {
    DuesSum(r.allocations);
    DueLeqIsOrder();
    Sorting.SortSorts(Dues(r.allocations), DueLeq);
    SumPermutation(Unpaid(r), Dues(r.allocations), DueAmount);
  }

  lemma {:induction false} DuesNonNegative(batch: seq<Due>)
    ensures Sum(batch, DueAmount) >= 0 && Sum(PaymentsFor(batch), Amount) == Sum(batch, DueAmount)
  {
    if batch != [] {
      DuesNonNegative(batch[..|batch| - 1]);
      assert PaymentsFor(batch)[..|batch| - 1] == PaymentsFor(batch[..|batch| - 1]);
    }
  }

  /** A covered batch goes through and leaves the rest covered. */
  lemma PaysOne(s: State, p: nat, d: nat, typed: nat, g: nat, unpaid: seq<Due>)
    requires Holds(s, p, d, typed, ToPay(g, unpaid, true))
    requires unpaid != [] && s.chain.issuerUsdc >= Sum(unpaid, DueAmount)
    ensures |NextBatch(unpaid)| <= |unpaid|
    ensures var s' := PayBatch(s, p); var rest := unpaid[|NextBatch(unpaid)|..];
      && Holds(s', p, d, typed, Batched(g, rest)) && s'.chain.issuerUsdc >= Sum(rest, DueAmount)
      && |rest| < |unpaid| && s'.rows[d].status == s.rows[d].status
      && s'.log == s.log + PaidNotes(d, NextBatch(unpaid), typed)
  {
    hide SignAll;
    var batch := NextBatch(unpaid);
    var rest := unpaid[|batch|..];
    assert unpaid == batch + rest;
    SumConcat(batch, rest, DueAmount);
    DuesNonNegative(batch);
    DuesNonNegative(rest);
    assert TransferBatch(s.chain, PaymentsFor(batch)).Some?;
  }

  lemma FirstOf(unpaid: seq<Due>)
    ensures |NextBatch(unpaid)| <= |unpaid| && NextBatch(unpaid) == unpaid[..|NextBatch(unpaid)|]
  {
  }

  lemma RenewsOne(s: State, p: nat, d: nat, typed: nat, g: nat, unpaid: seq<Due>)
    requires Holds(s, p, d, typed, Batched(g, unpaid))
    ensures var s' := Renew(s, p, s.clock);
      Holds(s', p, d, typed, ToPay(g, unpaid, true)) && s'.chain == s.chain && s'.log == s.log
  {
  }

  /** A covered list can be paid to the end. */
  lemma {:induction false} CanPayAll(sha: Hasher, s: State, p: nat, d: nat, typed: nat, g: nat, unpaid: seq<Due>)
    returns (es: seq<Event>)
    requires Holds(s, p, d, typed, ToPay(g, unpaid, true)) && s.chain.issuerUsdc >= Sum(unpaid, DueAmount)
    ensures Harmless(es) && Holds(Run(sha, s, es), p, d, typed, ToPay(g, [], true))
    ensures Run(sha, s, es).log == s.log + PaidNotes(d, unpaid, typed)
    decreases |unpaid|
  {
    hide Run, Step, Holds, PayBatch, Renew, NextBatch, Sum, PaidNotes;
    if unpaid == [] {
      es := [];
      RunNone(sha, s);
      NoNotes(s.log, d, typed);
    } else {
      PaysOne(s, p, d, typed, g, unpaid);
      FirstOf(unpaid);
      var s1, rest := PayBatch(s, p), unpaid[|NextBatch(unpaid)|..];
      RenewsOne(s1, p, d, typed, g, rest);
      var s2 := Renew(s1, p, s1.clock);
      var more := CanPayAll(sha, s2, p, d, typed, g, rest);
      RunPayRenew(sha, s, p, more);
      es := [DoPayBatch(p)] + [DoRenew(p, s1.clock)] + more;
      NotesSplit(d, unpaid, |NextBatch(unpaid)|, typed);
    }
  }

  lemma RunPayRenew(sha: Hasher, s: State, p: nat, more: seq<Event>)
    ensures var s1 := PayBatch(s, p);
      Run(sha, s, [DoPayBatch(p)] + [DoRenew(p, s1.clock)] + more) == Run(sha, Renew(s1, p, s1.clock), more)
  {
    hide Run, PayBatch, Renew;
    var s1 := PayBatch(s, p);
    var pay, renew := DoPayBatch(p), DoRenew(p, s1.clock);
    RunOne(sha, s, pay);
    RunOne(sha, s1, renew);
    RunConcat(sha, s, [pay], [renew]);
    RunConcat(sha, s, [pay] + [renew], more);
  }

  lemma NoNotes(log: seq<Transfer>, d: nat, typed: nat)
    ensures log + PaidNotes(d, [], typed) == log
  {
  }

  lemma NotesSplit(d: nat, unpaid: seq<Due>, n: nat, typed: nat)
    requires n <= |unpaid|
    ensures PaidNotes(d, unpaid, typed) == PaidNotes(d, unpaid[..n], typed) + PaidNotes(d, unpaid[n..], typed)
  {
  }

  lemma RunNone(sha: Hasher, s: State)
    ensures Run(sha, s, []) == s
  {
  }

  /** The lease in hand, the row can be executed. */
  lemma CanFinish(sha: Hasher, s: State, p: nat, d: nat, typed: nat, mode: PayoutMode) returns (es: seq<Event>)
    requires Holds(s, p, d, typed, Fresh(mode)) && mode == ResolveMode(s.rows[d], Direct)
    requires !Funded(s.rows[d]) ==> s.chain.issuerUsdc >= Sum(s.rows[d].allocations, OpenPayout)
    ensures Harmless(es) && d < |Run(sha, s, es).rows| && Run(sha, s, es).rows[d].status == Executed
  {
    hide Run, Sum, Unpaid, ClaimRoot;
    var s1 := ReadRow(sha, s, p);
    RunOne(sha, s, DoReadRow(p));
    es := [DoReadRow(p)];
    if Funded(s.rows[d]) {
      RunOne(sha, s1, DoMarkExecuted(p));
      RunConcat(sha, s, es, [DoMarkExecuted(p)]);
      es := es + [DoMarkExecuted(p)];
    } else {
      var r := s.rows[d];
      UnpaidSum(r);
      var s2 := CheckBalance(s1, p);
      RunOne(sha, s1, DoCheckBalance(p));
      RunConcat(sha, s, es, [DoCheckBalance(p)]);
      es := es + [DoCheckBalance(p)];
      assert Holds(s2, p, d, typed, ToPay(r.generation, Unpaid(r), true));
      var more := CanPayAll(sha, s2, p, d, typed, r.generation, Unpaid(r));
      RunConcat(sha, s, es, more);
      es := es + more;
      RunOne(sha, Run(sha, s, es), DoMarkExecuted(p));
      RunConcat(sha, s, es, [DoMarkExecuted(p)]);
      es := es + [DoMarkExecuted(p)];
    }
  }

  /** From every state of every run in which a distribution is snapshotted, it can still be executed,
      if its escrow is funded or the issuer can cover what is unpaid: leases of the dead run out,
      recorded payouts are skipped, a funded escrow is not funded again. */
  lemma ExecutionCanFinish(sha: Hasher, s0: State, es: seq<Event>, d: nat) returns (more: seq<Event>)
    requires Init(s0) && d < |Run(sha, s0, es).rows| && Run(sha, s0, es).rows[d].status == Snapshotted
    requires var s := Run(sha, s0, es);
      !Funded(s.rows[d]) ==> s.chain.issuerUsdc >= Sum(s.rows[d].allocations, OpenPayout)
    ensures Guarded(Everywhere(BOTH_GUARDS), sha, Run(sha, s0, es), more)
    ensures d < |Run(sha, s0, es + more).rows| && Run(sha, s0, es + more).rows[d].status == Executed
  {
    hide Run, ProcsOk, Exclusive, Solvent, RowBooks, Guarded, Holds, Harmless, Sum, ClaimRoot;
    EveryRunKeeps(sha, s0, es);
    var s := Run(sha, s0, es);
    BooksAt(Everywhere(UNGUARDED), sha, s, d, "");
    var p;
    more, p := CanTakeLease(sha, s, d);
    var s' := Run(sha, s, more);
    assert s'.rows[d].allocations == s.rows[d].allocations && Funded(s'.rows[d]) == Funded(s.rows[d]);
    var rest := CanFinish(sha, s', p, d, s.rows[d].totalAllocated.value, ResolveMode(s.rows[d], Direct));
    RunConcat(sha, s, more, rest);
    RunConcat(sha, s0, es, more + rest);
    HarmlessIsGuarded(Everywhere(BOTH_GUARDS), sha, s', rest);
    GuardedConcat(Everywhere(BOTH_GUARDS), sha, s, more, rest);
    more := more + rest;
  }

  lemma HarmlessTogether(xs: seq<Event>, ys: seq<Event>)
    requires Harmless(xs) && Harmless(ys)
    ensures Harmless(xs + ys)
  {
  }

  // ------------------------------------------------------------------ claiming

  function LaterThanLock(a: Alloc): nat {
    if a.claimingUntil.Some? && a.claimingUntil.value >= 0 then a.claimingUntil.value + 1 else 0
  }

  /** As long as no snapshot commits over a funded row, a payout of a funded distribution that is not
      yet claimed can be claimed with the proof served for it, whatever earlier claims crashed. */
  lemma ClaimCanFinish(sha: Hasher, s0: State, es: seq<Event>, d: nat, k: nat) returns (more: seq<Event>)
    requires Init(s0) && Guarded(Everywhere(COMMIT_GUARD), sha, s0, es)
    requires var s := Run(sha, s0, es);
      d < |s.rows| && Funded(s.rows[d]) && k < |s.rows[d].allocations|
      && s.rows[d].allocations[k].payout > 0 && s.rows[d].allocations[k].txSignature.None?
    ensures Guarded(Everywhere(BOTH_GUARDS), sha, Run(sha, s0, es), more)
    ensures var s := Run(sha, s0, es); var s' := Run(sha, s0, es + more); var a := s.rows[d].allocations[k];
      && d < |s'.rows| && Kept(s.rows[d], s'.rows[d]) && s'.rows[d].allocations[k].txSignature.Some?
      && Payments(s'.log, d, a.wallet) == Payments(s.log, d, a.wallet) + [a.payout]
  {
    hide Run, ProcsOk, Exclusive, Guarded, ClaimRoot, LoadsFunded, FindPayable, ClaimTree.Verifies;
    hide ServedProof, Payments, Sum, RowBooks, Reserved;
    RunKeeps(Everywhere(COMMIT_GUARD), sha, s0, es);
    GuardedWeakens(Everywhere(COMMIT_GUARD), Only(d, COMMIT_GUARD), sha, s0, es);
    var s := Run(sha, s0, es);
    FundedRowLoads(sha, s0, es, d);
    if !LoadsFunded(sha, s.rows[d]) { ExecutedDirectIsRecorded(sha, s0, es, d, k); }
    ServedProofsVerify(sha, s0, es, d, k);
    OneOfManyReserves(s.rows, d, k);
    more := ClaimSteps(sha, s, d, k);
    RunConcat(sha, s0, es, more);
    HarmlessIsGuarded(Everywhere(BOTH_GUARDS), sha, s, more);
  }

  lemma ClaimSteps(sha: Hasher, s: State, d: nat, k: nat) returns (es: seq<Event>)
    requires d < |s.rows| && LoadsFunded(sha, s.rows[d]) && k < |s.rows[d].allocations|
    requires var r, a := s.rows[d], s.rows[d].allocations[k];
      && a.payout > 0 && a.txSignature.None? && FindPayable(r.allocations, a.wallet, 0) == Some(k)
      && ClaimTree.Verifies(sha, ClaimRow(r.id, a.wallet, a.payout), ServedProof(sha, r, a.wallet), r.merkleRoot.value)
      && a.payout <= Balance(s.chain.usdc, ESCROW)
    ensures Harmless(es)
    ensures var s' := Run(sha, s, es); var a := s.rows[d].allocations[k];
      && d < |s'.rows| && Kept(s.rows[d], s'.rows[d]) && s'.rows[d].allocations[k].txSignature.Some?
      && Payments(s'.log, d, a.wallet) == Payments(s.log, d, a.wallet) + [a.payout]
  {
    hide Run, ClaimRoot, FindPayable, ClaimTree.Verifies, ServedProof, Payments, LoadsFunded, Kept, Locks, Harmless;
    var begin, p := CanLock(sha, s, d, k);
    var s' := Run(sha, s, begin);
    var finish := CanRelease(sha, s', d, k, p, s.rows[d], s.rows[d].allocations[k]);
    RunConcat(sha, s, begin, finish);
    HarmlessTogether(begin, finish);
    es := begin + finish;
  }

  /** Process `p` holds the lock of allocation `k`, and nothing else differs from the row `r`. */
  ghost predicate Locks(s: State, d: nat, k: nat, p: nat, r: Row) {
    && k < |r.allocations| && Runs(s, p) && s.procs[p].d == d
    && s.procs[p].pc.Claiming? && s.procs[p].pc.generation == r.generation && s.procs[p].pc.k == k
    && s.procs[p].pc.wallet == r.allocations[k].wallet && s.procs[p].pc.payout == r.allocations[k].payout
    && s.procs[p].pc.stage.Locked? && !s.procs[p].pc.stage.checked
    && exists until :: s.rows[d] == r.(allocations := r.allocations[k := r.allocations[k].(claimingUntil := until)])
  }

  /** Waiting out the lock, presenting the proof and taking the lock. */
  lemma CanLock(sha: Hasher, s: State, d: nat, k: nat) returns (es: seq<Event>, p: nat)
    requires d < |s.rows| && LoadsFunded(sha, s.rows[d]) && k < |s.rows[d].allocations|
    requires var r, a := s.rows[d], s.rows[d].allocations[k];
      && a.payout > 0 && a.txSignature.None? && FindPayable(r.allocations, a.wallet, 0) == Some(k)
      && ClaimTree.Verifies(sha, ClaimRow(r.id, a.wallet, a.payout), ServedProof(sha, r, a.wallet), r.merkleRoot.value)
    ensures Harmless(es)
    ensures var s' := Run(sha, s, es); Locks(s', d, k, p, s.rows[d]) && s'.chain == s.chain && s'.log == s.log
  {
    hide Run, ClaimRoot, FindPayable, ClaimTree.Verifies, ServedProof, LoadsFunded;
    var r, a := s.rows[d], s.rows[d].allocations[k];
    p := |s.procs|;
    var ms := LaterThanLock(a);
    var s1 := s.(clock := s.clock + ms);
    var begin := DoBeginClaim(d, a.wallet, Some(ServedProof(sha, r, a.wallet)));
    var s2 := BeginClaim(sha, s1, d, a.wallet, Some(ServedProof(sha, r, a.wallet)));
    assert s2 == Spawn(s1, d, Claiming(r.generation, k, a.wallet, a.payout, Found));
    var take := DoTakeLock(p, s2.clock);
    assert Runs(s2, p);
    RunOne(sha, s, Tick(ms));
    RunConcat(sha, s, [Tick(ms)], [begin]);
    RunOne(sha, s1, begin);
    RunConcat(sha, s, [Tick(ms)] + [begin], [take]);
    RunOne(sha, s2, take);
    es := [Tick(ms)] + [begin] + [take];
  }

  /** Under the lock, a covered payout is released and recorded. */
  lemma ReleaseRecords(s: State, d: nat, k: nat, p: nat, r: Row, a: Alloc)
    requires Locks(s, d, k, p, r) && a == r.allocations[k] && a.payout <= Balance(s.chain.usdc, ESCROW)
    ensures var s' := ReleasePayout(CheckEscrow(s, p), p);
      && d < |s'.rows| && Kept(r, s'.rows[d]) && s'.rows[d].allocations[k].txSignature.Some?
      && s'.log == s.log + [Released(d, a.wallet, a.payout)]
  {
    hide Release;
    var s1 := CheckEscrow(s, p);
    assert s1.procs[p].pc.stage.Locked? && s1.procs[p].pc.stage.checked && Runs(s1, p);
    OneReleased(s.chain, Payment(a.wallet, a.payout));
  }

  lemma CanRelease(sha: Hasher, s: State, d: nat, k: nat, p: nat, r: Row, a: Alloc) returns (es: seq<Event>)
    requires Locks(s, d, k, p, r) && a == r.allocations[k] && a.payout <= Balance(s.chain.usdc, ESCROW)
    ensures Harmless(es)
    ensures var s' := Run(sha, s, es);
      && d < |s'.rows| && Kept(r, s'.rows[d]) && s'.rows[d].allocations[k].txSignature.Some?
      && Payments(s'.log, d, a.wallet) == Payments(s.log, d, a.wallet) + [a.payout]
  {
    hide Run, Payments, Locks, CheckEscrow, ReleasePayout;
    ReleaseRecords(s, d, k, p, r, a);
    PaymentsAppend(s.log, Released(d, a.wallet, a.payout), d, a.wallet);
    RunOne(sha, s, DoCheckEscrow(p));
    RunConcat(sha, s, [DoCheckEscrow(p)], [DoReleasePayout(p)]);
    RunOne(sha, CheckEscrow(s, p), DoReleasePayout(p));
    es := [DoCheckEscrow(p)] + [DoReleasePayout(p)];
  }

  lemma OneReleased(c: Chain, x: Payment)
    requires x.amount <= Balance(c.usdc, ESCROW)
    ensures Release(c, [x]).Some?
  {
    SumOne(x, Amount);
  }
}
