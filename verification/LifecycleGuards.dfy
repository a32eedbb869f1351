/** The two guards the handlers do not have, made exact: what happens, from any state the invariant
    allows, when a direct execution takes the lease of a funded row, and when a snapshot commits
    over one. Which wallets can then be paid twice is in `LifecycleSchedule`. */
module LifecycleGuards {
  import opened Wrappers
  import opened Sums
  import opened Merkle
  import opened Ledger
  import opened Lifecycle
  import opened LifecycleInv
  import opened LifecycleProof
  import opened LifecycleFrames
  import opened LifecycleTheorems
  import opened LifecycleRecovery
  import ClaimTree
  import Sorting
  import Text

  // ------------------------------------------------------------------ a direct execution on a funded row

  lemma {:induction false} PositiveSum(batch: seq<Due>)
    requires batch != [] && forall i :: 0 <= i < |batch| ==> batch[i].payout > 0
    ensures Sum(batch, DueAmount) > 0
  {
    var n := |batch| - 1;
    DuesNonNegative(batch[..n]);
  }

  /** What a direct execution does after its lease: re-read, check the balance, pay a batch. */
  function PayDirectly(sha: Hasher, s: State, p: nat): State {
    PayBatch(CheckBalance(ReadRow(sha, s, p), p), p)
  }

  /** It pays exactly when something is open and the issuer can cover it. */
  lemma DirectPays(sha: Hasher, s: State, p: nat, d: nat, typed: nat)
    requires Holds(s, p, d, typed, Fresh(Direct))
    ensures var s', open := PayDirectly(sha, s, p), Sum(s.rows[d].allocations, OpenPayout);
      && d < |s'.rows| && s'.rows[d].totalAllocated == s.rows[d].totalAllocated
      && (0 < open <= s.chain.issuerUsdc ==> IssuerOut(s'.log, d) > IssuerOut(s.log, d))
      && (!(0 < open <= s.chain.issuerUsdc) ==> s'.log == s.log)
  {
    hide Sum, Unpaid, ClaimRoot, SignAll, NextBatch;
    var r := s.rows[d];
    UnpaidSum(r);
    UnpaidIsOwing(r);
    SumOpenNonNegative(r.allocations);
    var unpaid := Unpaid(r);
    var s1 := ReadRow(sha, s, p);
    assert s1.procs[p].pc.phase == ToPay(r.generation, unpaid, false);
    var s2 := CheckBalance(s1, p);
    if Sum(unpaid, DueAmount) > s.chain.issuerUsdc {
      assert s2.procs[p].pc.Leaving?;
    } else {
      assert Holds(s2, p, d, typed, ToPay(r.generation, unpaid, true));
      if unpaid == [] {
        assert Sum(unpaid, DueAmount) == 0 by { NothingSums(); }
      } else {
        forall i | 0 <= i < |unpaid| ensures unpaid[i].payout > 0 { assert IsDue(r.allocations[unpaid[i].k]); }
        PositiveSum(unpaid);
        BatchLeaves(s2, p, d, typed, r.generation, unpaid);
      }
    }
  }

  lemma NothingSums()
    ensures Sum<Due>([], DueAmount) == 0
  {
  }

  lemma BatchLeaves(s: State, p: nat, d: nat, typed: nat, g: nat, unpaid: seq<Due>)
    requires Holds(s, p, d, typed, ToPay(g, unpaid, true)) && unpaid != []
    requires s.chain.issuerUsdc >= Sum(unpaid, DueAmount) && forall i :: 0 <= i < |unpaid| ==> unpaid[i].payout > 0
    ensures var s' := PayBatch(s, p);
      && d < |s'.rows| && s'.rows[d].totalAllocated == s.rows[d].totalAllocated
      && IssuerOut(s'.log, d) > IssuerOut(s.log, d)
  {
    hide SignAll, Sum;
    var batch := NextBatch(unpaid);
    var rest := unpaid[|batch|..];
    assert unpaid == batch + rest;
    SumConcat(batch, rest, DueAmount);
    DuesNonNegative(batch);
    DuesNonNegative(rest);
    PositiveSum(batch);
    BatchOut(s.log, d, batch, typed);
    assert TransferBatch(s.chain, PaymentsFor(batch)).Some?;
  }

  /** From any state of the invariant, letting a direct execution take the lease of a funded row
      makes the issuer pay more than the confirmed total exactly when something is still unclaimed
      and the issuer can cover it. With the guard it never happens (`ConfirmedTotal`). */
  lemma FundedDirectOverpaysIff(sha: Hasher, s: State, p: nat, aim: nat, now: nat)
    requires TakesFundedDirectly(s, p, now) && s.procs[p].born <= aim <= now <= s.clock
    requires Inv(Only(s.procs[p].d, BOTH_GUARDS), sha, s)
    ensures var d := s.procs[p].d;
      var s' := Run(sha, s, [DoTakeLease(p, aim, now)] + [DoReadRow(p)] + [DoCheckBalance(p)] + [DoPayBatch(p)]);
      && d < |s'.rows| && s'.rows[d].totalAllocated.Some?
      && (IssuerOut(s'.log, d) > s'.rows[d].totalAllocated.value
          <==> 0 < Sum(s.rows[d].allocations, OpenPayout) <= s.chain.issuerUsdc)
  {
    hide Run, Inv, Sum, Accounts, TypedTotals, ReadRow, CheckBalance, PayBatch, ClaimRoot, Sent, FundingCount;
    var d := s.procs[p].d;
    BooksAt(Only(d, BOTH_GUARDS), sha, s, d, "");
    var s1 := TakeLease(s, p, aim, now);
    assert Holds(s1, p, d, s.procs[p].pc.typed, Fresh(Direct));
    DirectPays(sha, s1, p, d, s.procs[p].pc.typed);
    var take, read, check, pay := DoTakeLease(p, aim, now), DoReadRow(p), DoCheckBalance(p), DoPayBatch(p);
    RunFour(sha, s, take, read, check, pay);
  }

  lemma RunFour(sha: Hasher, s: State, a: Event, b: Event, c: Event, e: Event)
    ensures Run(sha, s, [a] + [b] + [c] + [e]) == Step(sha, Step(sha, Step(sha, Step(sha, s, a), b), c), e)
  {
    hide Step, Run;
    RunOne(sha, s, a);
    RunConcat(sha, s, [a], [b]);
    RunOne(sha, Step(sha, s, a), b);
    RunConcat(sha, s, [a] + [b], [c]);
    RunOne(sha, Step(sha, Step(sha, s, a), b), c);
    RunConcat(sha, s, [a] + [b] + [c], [e]);
    RunOne(sha, Step(sha, Step(sha, Step(sha, s, a), b), c), e);
  }

  // ------------------------------------------------------------------ a snapshot over a funded row

  /** The same payable allocations, in whatever order. */
  ghost predicate SamePayables(id: string, a: seq<Alloc>, b: seq<Alloc>) {
    multiset(ClaimRows(id, a)) == multiset(ClaimRows(id, b))
  }

  ghost predicate PipeFreeWallets(allocs: seq<Alloc>) {
    forall k :: 0 <= k < |allocs| ==> PipeFree(allocs[k].wallet)
  }

  /** No separator in a wallet, and no collision among what the two trees hash. */
  ghost predicate Hashable(sha: Hasher, id: string, a: seq<Alloc>, b: seq<Alloc>) {
    && PipeFreeWallets(a) && PipeFreeWallets(b)
    && CollisionFree(sha, BuildPreimages(sha, ClaimRows(id, a)) + BuildPreimages(sha, ClaimRows(id, b)))
  }

  lemma ClaimRowsPipeFree(id: string, allocs: seq<Alloc>)
    requires OneRowPerWallet(allocs) && PipeFreeWallets(allocs)
    ensures forall q :: q in ClaimRows(id, allocs) ==> PipeFree(q.wallet)
  {
    hide PipeFree, ClaimRows;
    ClaimRowsAre(id, allocs);
  }

  /** What the integrity check of `loadFunded` means: the roots agree exactly when the payable
      allocations do. */
  lemma RootsAgreeIff(sha: Hasher, id: string, a: seq<Alloc>, b: seq<Alloc>)
    requires OneRowPerWallet(a) && OneRowPerWallet(b) && Hashable(sha, id, a, b)
    ensures Text.Hex(Root(sha, ClaimRows(id, a))) == Text.Hex(Root(sha, ClaimRows(id, b))) <==> SamePayables(id, a, b)
  {
    hide Root, PipeFree, CollisionFree, ClaimRows, BuildPreimages;
    ClaimRowsAre(id, a);
    ClaimRowsAre(id, b);
    ClaimRowsPipeFree(id, a);
    ClaimRowsPipeFree(id, b);
    RootCommits(sha, ClaimRows(id, a), ClaimRows(id, b));
    Text.UnhexHex(Root(sha, ClaimRows(id, a)));
    Text.UnhexHex(Root(sha, ClaimRows(id, b)));
  }

  /** A commit over a funded row leaves it claimable at all exactly when the new payable table is
      the old one. */
  lemma FundedCommitLoadsIff(sha: Hasher, s: State, p: nat)
    requires CommitsFunded(s, p) && Inv(Only(s.procs[p].d, COMMIT_GUARD), sha, s)
    requires var r := s.rows[s.procs[p].d]; Hashable(sha, r.id, r.allocations, s.procs[p].pc.allocs)
    ensures var d := s.procs[p].d; var r := s.rows[d];
      LoadsFunded(sha, CommitSnapshot(s, p).rows[d]) <==> SamePayables(r.id, r.allocations, s.procs[p].pc.allocs)
  {
    hide Hashable, SamePayables, Exclusive, Solvent, RowBooks, Root, ClaimRows, Sum;
    var d, pc := s.procs[p].d, s.procs[p].pc;
    assert RowOk(COMMIT_GUARD, sha, s.rows[d]) && ProcOk(COMMIT_GUARD, sha, s.log, s.rows[d], s.procs[p]);
    RootsAgreeIff(sha, s.rows[d].id, s.rows[d].allocations, pc.allocs);
  }

  /** And the escrow then owes the new total instead of the old one, whatever it holds. */
  lemma FundedCommitDebt(sha: Hasher, s: State, p: nat)
    requires Inv(Everywhere(UNGUARDED), sha, s) && CommitsFunded(s, p)
    ensures var r := s.rows[s.procs[p].d];
      && r.totalAllocated.Some?
      && Liability(CommitSnapshot(s, p).rows) == Liability(s.rows) - r.totalAllocated.value + s.procs[p].pc.total
      && CommitSnapshot(s, p).chain == s.chain
  {
    hide Sum, Exclusive, Solvent, RowBooks, ClaimRoot;
    var d, pc := s.procs[p].d, s.procs[p].pc;
    var r := s.rows[d];
    assert RowOk(UNGUARDED, sha, r) && ProcOk(UNGUARDED, sha, s.log, r, s.procs[p]);
    OpenIsAll(r.allocations);
    UntouchedUnsigned(pc.allocs);
    OpenIsAll(pc.allocs);
    SumUpdate(s.rows, d, CommitSnapshot(s, p).rows[d], Owed);
  }

  lemma OpenIsAll(allocs: seq<Alloc>)
    requires !AnySigned(allocs)
    ensures Sum(allocs, OpenPayout) == Sum(allocs, PayoutOf)
  {
    hide Sum;
    SumOpenNonNegative(allocs);
    UnsignedSums(allocs);
  }

  /** Nobody alive is claiming from the row of `p`. */
  ghost predicate NoLiveClaims(s: State, p: int) {
    forall q :: Neighbour(s, p, q) ==> !s.procs[q].pc.Claiming?
  }

  function RowPayout(x: ClaimRow): int { x.payout }

  lemma {:induction false} ClaimRowsSum(id: string, allocs: seq<Alloc>)
    ensures Sum(ClaimRows(id, allocs), RowPayout) == Sum(allocs, PayoutOf)
  {
    if allocs != [] {
      var k := |allocs| - 1;
      var x := ClaimRow(id, allocs[k].wallet, allocs[k].payout);
      ClaimRowsSum(id, allocs[..k]);
      SumConcat(ClaimRows(id, allocs[..k]), [x], RowPayout);
      SumOne(x, RowPayout);
      assert ClaimRows(id, allocs[..k]) + [] == ClaimRows(id, allocs[..k]);
    }
  }

  lemma SamePayablesSameTotal(id: string, a: seq<Alloc>, b: seq<Alloc>)
    requires SamePayables(id, a, b)
    ensures Sum(a, PayoutOf) == Sum(b, PayoutOf)
  {
    ClaimRowsSum(id, a);
    ClaimRowsSum(id, b);
    SumPermutation(ClaimRows(id, a), ClaimRows(id, b), RowPayout);
  }

  /** Where nothing is signed, everything is reserved, and nothing was paid. */
  lemma {:induction false} AllIsReserved(allocs: seq<Alloc>)
    requires !AnySigned(allocs)
    ensures Sum(allocs, Reserve) == Sum(allocs, PayoutOf)
  {
    if allocs != [] {
      assert !AnySigned(allocs[..|allocs| - 1]);
      AllIsReserved(allocs[..|allocs| - 1]);
    }
  }

  lemma RecommittedRow(g: Guards, sha: Hasher, log: seq<Transfer>, d: nat, r: Row, allocs: seq<Alloc>, total: nat)
    requires g.commit && RowOk(g, sha, r) && RowBooks(g, log, d, r)
    requires Funded(r) && !AnySigned(r.allocations) && r.status == Snapshotted
    requires OneRowPerWallet(allocs) && Untouched(allocs) && total == Sum(allocs, PayoutOf)
    requires SamePayables(r.id, r.allocations, allocs)
    ensures var r' := Recommitted(r, allocs, total);
      RowOk(g, sha, r') && RowBooks(g, log, d, r') && RowReserve(r') == RowReserve(r)
  {
    hide Sum, Sent, Root, ClaimRows, Accounts, FundingCount;
    SamePayablesSameTotal(r.id, r.allocations, allocs);
    forall w ensures Sent(log, d, w, Direct) == [] && Sent(log, d, w, Escrow) == [] {
      UnsignedNotSent(true, Once(g, r), log, d, r.allocations, w);
    }
    UntouchedUnsigned(allocs);
    FreshAccounts(true, Once(g, r), log, d, allocs);
    AllIsReserved(allocs);
    AllIsReserved(r.allocations);
    ClaimRowsAre(r.id, r.allocations);
    TreeForgetsOrder(sha, ClaimRows(r.id, r.allocations), ClaimRows(r.id, allocs));
  }

  lemma RecommitKeeps(g: Rules, sha: Hasher, s: State, p: nat)
    requires CommitsFunded(s, p) && g(s.procs[p].d).commit && Inv(g, sha, s) && NoLiveClaims(s, p)
    requires var r := s.rows[s.procs[p].d]; SamePayables(r.id, r.allocations, s.procs[p].pc.allocs)
    ensures Inv(g, sha, CommitSnapshot(s, p))
  {
    hide ClaimRoot, Sum, Sent, RowOk, RowBooks, Reserved, RowReserve, SamePayables, PhaseOk, ClaimOk;
    var d, pc := s.procs[p].d, s.procs[p].pc;
    var r := s.rows[d];
    assert ProcOk(g(d), sha, s.log, r, s.procs[p]) && RowOk(g(d), sha, r) && RowBooks(g(d), s.log, d, r);
    assert s.log + [] == s.log;
    var r' := Recommitted(r, pc.allocs, pc.total);
    StatusOf(g(d), sha, r);
    RecommittedRow(g(d), sha, s.log, d, r, pc.allocs, pc.total);
    forall q | Neighbour(s, p, q) ensures ProcOk(g(d), sha, s.log, r', s.procs[q]) && !Leasing(s.procs[q]) {
      LeaseIsFree(g, sha, s, p, q, s.clock);
    }
    UpdateKeeps(g, sha, s, p, r', Finished, s.chain, []);
    assert CommitSnapshot(s, p) == Next(s, p, r', Finished, s.chain, []);
  }

  lemma StatusOf(g: Guards, sha: Hasher, r: Row)
    requires RowOk(g, sha, r) && Funded(r) && r.status != Executed
    ensures r.status == Snapshotted && r.payoutMode == Escrow
  {
  }

  lemma RecommitNeedsNoClaims(g: Rules, sha: Hasher, s: State, p: nat)
    requires CommitsFunded(s, p) && g(s.procs[p].d).commit && Inv(g, sha, s) && Inv(g, sha, CommitSnapshot(s, p))
    ensures NoLiveClaims(s, p)
  {
    hide RowOk, RowBooks, Exclusive, Solvent, Sent, PhaseOk, StageOk, Sum;
    var d, s' := s.procs[p].d, CommitSnapshot(s, p);
    forall q | Neighbour(s, p, q) ensures !s.procs[q].pc.Claiming? {
      assert ProcOk(g(d), sha, s.log, s.rows[d], s.procs[q]);
      assert s'.procs[q] == s.procs[q] && Alive(s'.clock, s'.procs[q]);
      assert ProcOk(g(d), sha, s'.log, s'.rows[d], s'.procs[q]);
    }
  }

  /** Without the guard, a commit over a funded row keeps the invariant exactly when the payable
      table stays the same and nobody alive is claiming from it. */
  lemma FundedCommitKeepsInvIff(g: Rules, sha: Hasher, s: State, p: nat)
    requires CommitsFunded(s, p) && g(s.procs[p].d).commit && Inv(g, sha, s)
    requires var r := s.rows[s.procs[p].d]; Hashable(sha, r.id, r.allocations, s.procs[p].pc.allocs)
    ensures var r := s.rows[s.procs[p].d];
      Inv(g, sha, CommitSnapshot(s, p)) <==>
        SamePayables(r.id, r.allocations, s.procs[p].pc.allocs) && NoLiveClaims(s, p)
  {
    hide Hashable, SamePayables, NoLiveClaims, Inv, ClaimRoot;
    var d, s' := s.procs[p].d, CommitSnapshot(s, p);
    InvWeakens(g, Only(d, COMMIT_GUARD), sha, s);
    FundedCommitLoadsIff(sha, s, p);
    if Inv(g, sha, s') {
      RowLoads(g, sha, s', d);
      RecommitNeedsNoClaims(g, sha, s, p);
    }
    if SamePayables(s.rows[d].id, s.rows[d].allocations, s.procs[p].pc.allocs) && NoLiveClaims(s, p) {
      RecommitKeeps(g, sha, s, p);
    }
  }

  lemma RowLoads(g: Rules, sha: Hasher, s: State, d: nat)
    requires d < |s.rows| && g(d).commit && Inv(g, sha, s) && Funded(s.rows[d]) && s.rows[d].status == Snapshotted
    ensures LoadsFunded(sha, s.rows[d])
  {
    hide ProcsOk, Exclusive, Solvent, RowBooks, ClaimRoot, Sum;
    assert RowOk(g(d), sha, s.rows[d]);
  }

  // ------------------------------------------------------------------ an identical snapshot under a claim

  /** The release of a claim whose allocation has been replaced: paid, and recorded nowhere. */
  lemma ReleaseUnrecorded(sha: Hasher, s: State, p: nat, q: nat)
    requires Inv(Everywhere(COMMIT_GUARD), sha, s) && CommitsFunded(s, p)
    requires Neighbour(s, p, q) && s.procs[q].pc.Claiming?
    requires s.procs[q].pc.stage.Locked? && s.procs[q].pc.stage.checked
    ensures var d, pc := s.procs[p].d, s.procs[q].pc;
      var s' := ReleasePayout(CommitSnapshot(s, p), q);
      && d < |s'.rows| && s'.rows[d] == CommitSnapshot(s, p).rows[d]
      && s'.rows[d].allocations == s.procs[p].pc.allocs && Untouched(s'.rows[d].allocations)
      && Payments(s'.log, d, pc.wallet) == [pc.payout]
      && Balance(s'.chain.usdc, ESCROW) >= Balance(s.chain.usdc, ESCROW) - pc.payout
  {
    hide Sum, Release, ClaimRoot, Payments, Exclusive, Sent, Accounts, Reserved;
    var d, pc := s.procs[p].d, s.procs[q].pc;
    var r := s.rows[d];
    assert RowOk(COMMIT_GUARD, sha, r) && RowBooks(COMMIT_GUARD, s.log, d, r);
    assert ProcOk(COMMIT_GUARD, sha, s.log, r, s.procs[p]) && ProcOk(COMMIT_GUARD, sha, s.log, r, s.procs[q]);
    OneOfManyReserves(s.rows, d, pc.k);
    UnsignedNotSent(true, false, s.log, d, r.allocations, pc.wallet);
    PaymentsSplit(s.log, d, pc.wallet);
    var x := Payment(pc.wallet, pc.payout);
    OneReleased(s.chain, x);
    EscrowPays(s.chain, x);
    PaymentsAppend(s.log, Released(d, pc.wallet, pc.payout), d, pc.wallet);
    var s1 := CommitSnapshot(s, p);
    assert s1.procs[q] == s.procs[q] && s1.rows[d].generation == r.generation + 1;
  }

  /** So even a snapshot that changes nothing is unsafe there: it gives every allocation a new id, a
      claim under way is paid without record, and, if the escrow holds as much again, the wallet's
      next claim is paid a second time. */
  lemma IdenticalSnapshotPaysTwice(sha: Hasher, s: State, p: nat, q: nat) returns (es: seq<Event>)
    requires Inv(Everywhere(COMMIT_GUARD), sha, s) && CommitsFunded(s, p)
    requires Neighbour(s, p, q) && s.procs[q].pc.Claiming?
    requires s.procs[q].pc.stage.Locked? && s.procs[q].pc.stage.checked
    requires SameTable(s.rows[s.procs[p].d].allocations, s.procs[p].pc.allocs)
    requires 2 * s.procs[q].pc.payout <= Balance(s.chain.usdc, ESCROW)
    ensures var d, pc := s.procs[p].d, s.procs[q].pc;
      Payments(Run(sha, s, es).log, d, pc.wallet) == [pc.payout, pc.payout]
  {
    hide Run, Sum, Payments, ClaimRoot, CommitSnapshot, ReleasePayout, Exclusive, LoadsFunded, ServedProof, RowsOk;
    hide ClaimTree.Verifies, FindPayable, Sent, PhaseOk, Solvent;
    var d, pc := s.procs[p].d, s.procs[q].pc;
    ReleaseUnrecorded(sha, s, p, q);
    var s1 := CommitSnapshot(s, p);
    var s2 := ReleasePayout(s1, q);
    RecommitLoads(sha, s, p, pc.k);
    assert ProcOk(COMMIT_GUARD, sha, s.log, s.rows[d], s.procs[q]);
    var more := ClaimSteps(sha, s2, d, pc.k);
    var commit, release := DoCommitSnapshot(p), DoReleasePayout(q);
    RunOne(sha, s, commit);
    RunConcat(sha, s, [commit], [release]);
    RunOne(sha, s1, release);
    RunConcat(sha, s, [commit] + [release], more);
    es := [commit] + [release] + more;
  }

  /** After an identical snapshot the row still serves the proof of each of its payouts. */
  lemma RecommitLoads(sha: Hasher, s: State, p: nat, k: nat)
    requires Inv(Everywhere(COMMIT_GUARD), sha, s) && CommitsFunded(s, p)
    requires k < |s.rows[s.procs[p].d].allocations|
    requires SameTable(s.rows[s.procs[p].d].allocations, s.procs[p].pc.allocs)
    requires s.rows[s.procs[p].d].allocations[k].payout > 0
    ensures var r := CommitSnapshot(s, p).rows[s.procs[p].d];
      && k < |r.allocations| && LoadsFunded(sha, r) && FindPayable(r.allocations, r.allocations[k].wallet, 0) == Some(k)
      && var x := ClaimRow(r.id, r.allocations[k].wallet, r.allocations[k].payout);
         ClaimTree.Verifies(sha, x, ServedProof(sha, r, x.wallet), r.merkleRoot.value)
  {
    hide Sum, RowBooks, Exclusive, Solvent, ClaimTree.Verifies, Path, TreeOf, Root;
    var d := s.procs[p].d;
    assert RowOk(COMMIT_GUARD, sha, s.rows[d]) && ProcOk(COMMIT_GUARD, sha, s.log, s.rows[d], s.procs[p]);
    var r := CommitSnapshot(s, p).rows[d];
    SameTableSameClaims(r.id, s.rows[d].allocations, r.allocations);
    FundedRowServes(sha, r, k);
  }
}
