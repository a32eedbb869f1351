/** The schedule under which a payable allocation of a funded row is paid by the escrow and by a
    direct execution as well, and with it the exact condition for being paid twice. */
module LifecycleSchedule {
  import opened Wrappers
  import opened Sums
  import opened Merkle
  import opened Ledger
  import opened Lifecycle
  import opened LifecycleInv
  import opened LifecycleProof
  import opened LifecycleFrames
  import opened LifecycleTheorems
  import opened LifecycleRecovery
  import opened LifecycleSteps
  import opened LifecycleDouble

  // ------------------------------------------------------------------ runs without commits

  predicate NoCommits(es: seq<Event>) {
    forall i :: 0 <= i < |es| ==> !es[i].DoCommitSnapshot?
  }

  /** `es` leads from `s` to `s'` and commits no snapshot; the invariant comes along. */
  ghost predicate Leads(sha: Hasher, s: State, es: seq<Event>, s': State) {
    && NoCommits(es) && Run(sha, s, es) == s'
    && Inv(Everywhere(COMMIT_GUARD), sha, s) && Inv(Everywhere(COMMIT_GUARD), sha, s')
  }

  lemma NoCommitsGuarded(g: Guards, sha: Hasher, s: State, es: seq<Event>, d: nat)
    requires NoCommits(es) && !g.lease
    ensures Guarded(Everywhere(g), sha, s, es) && GuardedAt(g, sha, s, es, d)
  {
    hide Run;
  }

  lemma LeadsNowhere(sha: Hasher, s: State)
    requires Inv(Everywhere(COMMIT_GUARD), sha, s)
    ensures Leads(sha, s, [], s)
  {
    hide Inv;
  }

  lemma LeadsOne(sha: Hasher, s: State, e: Event)
    requires Inv(Everywhere(COMMIT_GUARD), sha, s) && !e.DoCommitSnapshot?
    ensures Leads(sha, s, [e], Step(sha, s, e))
  {
    hide Inv, Step, Run, Guarded;
    RunOne(sha, s, e);
    NoCommitsGuarded(COMMIT_GUARD, sha, s, [e], 0);
    RunKeepsFrom(Everywhere(COMMIT_GUARD), sha, s, [e]);
  }

  lemma LeadsOn(sha: Hasher, s: State, xs: seq<Event>, mid: State, ys: seq<Event>, s': State)
    requires Leads(sha, s, xs, mid) && Leads(sha, mid, ys, s')
    ensures Leads(sha, s, xs + ys, s')
  {
    hide Inv, Run;
    RunConcat(sha, s, xs, ys);
  }

  lemma LeadsStep(sha: Hasher, s: State, xs: seq<Event>, mid: State, e: Event)
    requires Leads(sha, s, xs, mid) && !e.DoCommitSnapshot?
    ensures Leads(sha, s, xs + [e], Step(sha, mid, e))
  {
    hide Inv, Step, Run;
    LeadsOne(sha, mid, e);
    LeadsOn(sha, s, xs, mid, [e], Step(sha, mid, e));
  }

  // ------------------------------------------------------------------ live claims give up their locks

  /** The row with one lock cleared. */
  function Unlock(r: Row, k: nat): Row
    requires k < |r.allocations|
  {
    r.(allocations := r.allocations[k := r.allocations[k].(claimingUntil := None)])
  }

  /** A live claim fails and gives its lock back. */
  lemma GivesUp(sha: Hasher, s: State, d: nat, k: nat, q: nat) returns (es: seq<Event>)
    requires Inv(Everywhere(COMMIT_GUARD), sha, s) && Locker(s, d, k, q)
    ensures d < |s.rows| && k < |s.rows[d].allocations|
    ensures Leads(sha, s, es, Goto(SetRow(s, d, Unlock(s.rows[d], k)), q, Finished))
  {
    hide Inv, Run, Leads, Fail, ReleaseLock;
    LockIsOurs(sha, s, d, k, q);
    LeadsOne(sha, s, DoFail(q));
    LeadsStep(sha, s, [DoFail(q)], Fail(s, q), DoReleaseLock(q));
    es := [DoFail(q)] + [DoReleaseLock(q)];
    LockCleared(s, d, k, q);
  }

  /** A lock that its live holder finds is its own. */
  ghost predicate Ours(s: State, d: nat, k: nat, q: nat) {
    && Locker(s, d, k, q) && d < |s.rows| && k < |s.rows[d].allocations|
    && s.procs[q].pc.generation == s.rows[d].generation
    && s.rows[d].allocations[k].wallet == s.procs[q].pc.wallet
    && StageOk(COMMIT_GUARD, s.rows[d].allocations[k], s.procs[q].born, s.procs[q].pc.stage)
  }

  lemma LockIsOurs(sha: Hasher, s: State, d: nat, k: nat, q: nat)
    requires Inv(Everywhere(COMMIT_GUARD), sha, s) && Locker(s, d, k, q)
    ensures Ours(s, d, k, q)
  {
    hide RowsOk, Exclusive, Solvent, StageOk, Sent;
    assert ProcOk(COMMIT_GUARD, sha, s.log, s.rows[d], s.procs[q]);
  }

  lemma LockCleared(s: State, d: nat, k: nat, q: nat)
    requires Ours(s, d, k, q)
    ensures ReleaseLock(Fail(s, q), q) == Goto(SetRow(s, d, Unlock(s.rows[d], k)), q, Finished)
  {
    var r, a := s.rows[d], s.rows[d].allocations[k];
    if a.claimingUntil.None? { assert a.(claimingUntil := None) == a && r.allocations[k := a] == r.allocations; }
    var s1 := Fail(s, q);
    assert Runs(s1, q) && s1.procs[q].pc.stage.Unlocking? && s1.rows == s.rows;
    var s' := ReleaseLock(s1, q);
    assert s'.procs == s.procs[q := s.procs[q].(pc := Finished)];
    assert s'.rows == s.rows[d := Unlock(r, k)];
  }

  /** What giving up the locks of the first `n` processes leaves. */
  ghost predicate Cleared(s: State, d: nat, n: nat, s': State) {
    && s'.clock == s.clock && s'.chain == s.chain && s'.log == s.log
    && |s'.procs| == |s.procs| && |s'.rows| == |s.rows| && d < |s.rows|
    && s'.rows[d] == s.rows[d].(allocations := s'.rows[d].allocations)
    && |s'.rows[d].allocations| == |s.rows[d].allocations|
    && (forall j :: 0 <= j < |s.rows[d].allocations| ==> MayUnlock(s.rows[d].allocations[j], s'.rows[d].allocations[j]))
    && (forall q :: 0 <= q < |s.procs| && (q >= n || !Locking(s.procs[q])) ==> s'.procs[q] == s.procs[q])
    && (forall j: nat, q :: q < n && Locker(s, d, j, q) ==> Freed(s', d, j))
  }

  ghost predicate Freed(s: State, d: nat, j: nat) {
    d < |s.rows| && j < |s.rows[d].allocations| && s.rows[d].allocations[j].claimingUntil.None?
  }

  predicate MayUnlock(a: Alloc, a': Alloc) {
    a' == a || a' == a.(claimingUntil := None)
  }

  lemma {:induction false} ClearLocks(sha: Hasher, s: State, d: nat, n: nat) returns (es: seq<Event>, s': State)
    requires Inv(Everywhere(COMMIT_GUARD), sha, s) && d < |s.rows| && n <= |s.procs|
    ensures Leads(sha, s, es, s') && Cleared(s, d, n, s')
  {
    hide Inv, Run, Leads, Cleared, Locker;
    if n == 0 {
      es, s' := [], s;
      LeadsNowhere(sha, s);
      NothingCleared(s, d);
    } else {
      var before, mid := ClearLocks(sha, s, d, n - 1);
      LeadsKeeps(sha, s, before, mid);
      SameProc(s, d, mid, n - 1);
      var p := s.procs[n - 1];
      if p.pc.Claiming? && Locker(s, d, p.pc.k, n - 1) {
        StillLocker(s, d, mid, n - 1);
        var more := GivesUp(sha, mid, d, p.pc.k, n - 1);
        s' := Goto(SetRow(mid, d, Unlock(mid.rows[d], p.pc.k)), n - 1, Finished);
        es := before + more;
        LeadsOn(sha, s, before, mid, more, s');
        OneMoreCleared(s, d, n, mid, s', p.pc.k);
      } else {
        es, s' := before, mid;
        NoneToClear(s, d, n, mid);
      }
    }
  }

  lemma LeadsKeeps(sha: Hasher, s: State, es: seq<Event>, s': State)
    requires Leads(sha, s, es, s')
    ensures Inv(Everywhere(COMMIT_GUARD), sha, s')
  {
  }

  lemma NothingCleared(s: State, d: nat)
    requires d < |s.rows|
    ensures Cleared(s, d, 0, s)
  {
  }

  lemma SameProc(s: State, d: nat, mid: State, n: nat)
    requires Cleared(s, d, n, mid) && n < |s.procs|
    ensures n < |mid.procs| && mid.procs[n] == s.procs[n] && mid.clock == s.clock && d < |mid.rows|
  {
  }

  lemma StillLocker(s: State, d: nat, mid: State, n: nat)
    requires n < |s.procs| && n < |mid.procs| && mid.procs[n] == s.procs[n] && mid.clock == s.clock
    ensures forall k :: Locker(s, d, k, n) ==> Locker(mid, d, k, n)
  {
  }

  lemma OneMoreCleared(s: State, d: nat, n: nat, mid: State, s': State, k: nat)
    requires 0 < n <= |s.procs| && Cleared(s, d, n - 1, mid) && Locker(s, d, k, n - 1)
    requires k < |mid.rows[d].allocations| && s' == Goto(SetRow(mid, d, Unlock(mid.rows[d], k)), n - 1, Finished)
    ensures Cleared(s, d, n, s')
  {
    forall j: nat, q | q < n && Locker(s, d, j, q) ensures Freed(s', d, j) {
      if q < n - 1 { assert Freed(mid, d, j); }
    }
  }

  lemma NoneToClear(s: State, d: nat, n: nat, mid: State)
    requires 0 < n <= |s.procs| && Cleared(s, d, n - 1, mid)
    requires s.procs[n - 1].pc.Claiming? ==> !Locker(s, d, s.procs[n - 1].pc.k, n - 1)
    ensures Cleared(s, d, n, mid)
  {
  }

  // ------------------------------------------------------------------ claiming at once

  /** An open allocation of a funded, unexecuted row whose lock is free now. */
  ghost predicate Claimable(s: State, d: nat, j: nat) {
    && d < |s.rows| && Funded(s.rows[d]) && s.rows[d].status == Snapshotted && j < |s.rows[d].allocations|
    && IsDue(s.rows[d].allocations[j]) && LockFree(s.rows[d].allocations[j], s.clock)
  }

  /** The row with one allocation claimed. */
  function ClaimedRow(r: Row, j: nat, sig: Signature): Row
    requires j < |r.allocations|
  {
    r.(allocations := r.allocations[j := r.allocations[j].(txSignature := Some(sig), claimingUntil := None)])
  }

  /** What one claim from start to release leaves. */
  ghost predicate Claimed(s: State, d: nat, j: nat, s': State)
    requires d < |s.rows| && j < |s.rows[d].allocations|
  {
    && s'.clock == s.clock && s'.chain.issuerUsdc == s.chain.issuerUsdc && |s'.rows| == |s.rows|
    && s'.rows[d] == ClaimedRow(s.rows[d], j, Tx(|s.log|))
    && |s'.procs| == |s.procs| + 1 && s'.procs[..|s.procs|] == s.procs
    && s'.log == s.log + [Released(d, s.rows[d].allocations[j].wallet, s.rows[d].allocations[j].payout)]
  }

  /** The claim that has just taken its lock. */
  function LockedNow(s: State, d: nat, j: nat, checked: bool): State
    requires d < |s.rows| && j < |s.rows[d].allocations|
  {
    var r, a, until := s.rows[d], s.rows[d].allocations[j], s.clock + CLAIM_LOCK_MS;
    var claim := Proc(d, s.clock, Claiming(r.generation, j, a.wallet, a.payout, Locked(until, checked)));
    SetRow(s, d, r.(allocations := r.allocations[j := a.(claimingUntil := Some(until))])).(procs := s.procs + [claim])
  }

  lemma LocksNow(sha: Hasher, s: State, d: nat, j: nat)
    requires Claimable(s, d, j) && LoadsFunded(sha, s.rows[d]) && OneRowPerWallet(s.rows[d].allocations)
    ensures TakeLock(BeginClaim(sha, s, d, s.rows[d].allocations[j].wallet, None), |s.procs|, s.clock)
         == LockedNow(s, d, j, false)
  {
    hide ClaimRoot, LoadsFunded, FindPayable, OneRowPerWallet;
    var a := s.rows[d].allocations[j];
    OnlyPayable(s.rows[d].allocations, j, 0);
    var s1 := BeginClaim(sha, s, d, a.wallet, None);
    assert s1 == Spawn(s, d, Claiming(s.rows[d].generation, j, a.wallet, a.payout, Found));
    assert Runs(s1, |s.procs|);
    var s2 := TakeLock(s1, |s.procs|, s.clock);
    assert s2.procs == LockedNow(s, d, j, false).procs;
    assert s2.rows == LockedNow(s, d, j, false).rows;
  }

  lemma ChecksNow(s: State, d: nat, j: nat)
    requires Claimable(s, d, j) && s.rows[d].allocations[j].payout <= Balance(s.chain.usdc, ESCROW)
    ensures CheckEscrow(LockedNow(s, d, j, false), |s.procs|) == LockedNow(s, d, j, true)
  {
    var s1 := LockedNow(s, d, j, false);
    assert Runs(s1, |s.procs|) && s1.procs[|s.procs|].pc.payout == s.rows[d].allocations[j].payout;
    assert CheckEscrow(s1, |s.procs|).procs == LockedNow(s, d, j, true).procs;
  }

  lemma ReleasesNow(s: State, d: nat, j: nat)
    requires Claimable(s, d, j) && s.rows[d].allocations[j].payout <= Balance(s.chain.usdc, ESCROW)
    ensures Claimed(s, d, j, ReleasePayout(LockedNow(s, d, j, true), |s.procs|))
  {
    hide Release;
    var a, s1 := s.rows[d].allocations[j], LockedNow(s, d, j, true);
    assert Runs(s1, |s.procs|);
    OneReleased(s.chain, Payment(a.wallet, a.payout));
    ReleaseConserves(s.chain, [Payment(a.wallet, a.payout)], ESCROW);
    var s' := ReleasePayout(s1, |s.procs|);
    assert s'.rows[d].allocations == ClaimedRow(s.rows[d], j, Tx(|s.log|)).allocations;
  }

  /** What the invariant says of the row of a claim. */
  lemma ClaimIsCovered(sha: Hasher, s: State, d: nat, j: nat)
    requires Inv(Everywhere(COMMIT_GUARD), sha, s) && Claimable(s, d, j)
    ensures LoadsFunded(sha, s.rows[d]) && OneRowPerWallet(s.rows[d].allocations)
    ensures s.rows[d].allocations[j].payout <= Balance(s.chain.usdc, ESCROW)
  {
    hide ProcsOk, Exclusive, RowBooks, ClaimRoot, Sum, Reserved;
    assert RowOk(COMMIT_GUARD, sha, s.rows[d]);
    OneOfManyReserves(s.rows, d, j);
  }

  lemma ClaimNow(sha: Hasher, s: State, d: nat, j: nat) returns (es: seq<Event>, s': State)
    requires Inv(Everywhere(COMMIT_GUARD), sha, s) && Claimable(s, d, j) && d < |s.rows| && j < |s.rows[d].allocations|
    ensures Leads(sha, s, es, s') && Claimed(s, d, j, s')
  {
    hide Inv, Run, Leads, BeginClaim, TakeLock, CheckEscrow, ReleasePayout, Claimed, LockedNow, LoadsFunded, Claimable;
    ClaimIsCovered(sha, s, d, j);
    var w, p := s.rows[d].allocations[j].wallet, |s.procs|;
    var begin, take := DoBeginClaim(d, w, None), DoTakeLock(p, s.clock);
    var s1 := BeginClaim(sha, s, d, w, None);
    LeadsOne(sha, s, begin);
    LeadsStep(sha, s, [begin], s1, take);
    LocksNow(sha, s, d, j);
    LeadsStep(sha, s, [begin] + [take], LockedNow(s, d, j, false), DoCheckEscrow(p));
    ChecksNow(s, d, j);
    LeadsStep(sha, s, [begin] + [take] + [DoCheckEscrow(p)], LockedNow(s, d, j, true), DoReleasePayout(p));
    ReleasesNow(s, d, j);
    es := [begin] + [take] + [DoCheckEscrow(p)] + [DoReleasePayout(p)];
    s' := ReleasePayout(LockedNow(s, d, j, true), p);
  }

  /** What claiming whatever can be claimed among the first `n` but for `k` leaves. */
  ghost predicate OthersClaimed(s: State, d: nat, k: nat, n: nat, s': State) {
    && s'.clock == s.clock && s'.chain.issuerUsdc == s.chain.issuerUsdc && |s'.rows| == |s.rows| && d < |s.rows|
    && s'.rows[d] == s.rows[d].(allocations := s'.rows[d].allocations)
    && |s'.rows[d].allocations| == |s.rows[d].allocations|
    && (forall j: nat :: j < |s.rows[d].allocations| ==>
          AfterClaims(s, d, k, n, j, s'.rows[d].allocations[j]))
    && |s'.procs| >= |s.procs| && s'.procs[..|s.procs|] == s.procs
  }

  ghost predicate AfterClaims(s: State, d: nat, k: nat, n: nat, j: nat, a: Alloc)
    requires d < |s.rows| && j < |s.rows[d].allocations|
  {
    var b := s.rows[d].allocations[j];
    if j < n && j != k && Claimable(s, d, j) then a.txSignature.Some? && a.payout == b.payout && a.wallet == b.wallet
    else a == b
  }

  lemma {:induction false} ClaimOthers(sha: Hasher, s: State, d: nat, k: nat, n: nat)
    returns (es: seq<Event>, s': State)
    requires Inv(Everywhere(COMMIT_GUARD), sha, s) && d < |s.rows| && n <= |s.rows[d].allocations|
    ensures Leads(sha, s, es, s') && OthersClaimed(s, d, k, n, s')
  {
    hide Inv, Run, Leads, OthersClaimed, Claimable, Claimed;
    if n == 0 {
      es, s' := [], s;
      LeadsNowhere(sha, s);
      NoneClaimed(s, d, k);
    } else {
      var before, mid := ClaimOthers(sha, s, d, k, n - 1);
      LeadsKeeps(sha, s, before, mid);
      if n - 1 != k && Claimable(s, d, n - 1) {
        StillClaimable(s, d, k, n, mid);
        var more;
        more, s' := ClaimNow(sha, mid, d, n - 1);
        es := before + more;
        LeadsOn(sha, s, before, mid, more, s');
        OneMoreClaimed(s, d, k, n, mid, s');
      } else {
        es, s' := before, mid;
        NotClaimed(s, d, k, n, mid);
      }
    }
  }

  lemma NoneClaimed(s: State, d: nat, k: nat)
    requires d < |s.rows|
    ensures OthersClaimed(s, d, k, 0, s)
  {
  }

  lemma StillClaimable(s: State, d: nat, k: nat, n: nat, mid: State)
    requires 0 < n && OthersClaimed(s, d, k, n - 1, mid) && Claimable(s, d, n - 1)
    ensures Claimable(mid, d, n - 1)
  {
    assert AfterClaims(s, d, k, n - 1, n - 1, mid.rows[d].allocations[n - 1]);
  }

  lemma OneMoreClaimed(s: State, d: nat, k: nat, n: nat, mid: State, s': State)
    requires 0 < n && OthersClaimed(s, d, k, n - 1, mid) && n - 1 != k && Claimable(s, d, n - 1)
    requires d < |mid.rows| && n - 1 < |mid.rows[d].allocations| && Claimed(mid, d, n - 1, s')
    ensures OthersClaimed(s, d, k, n, s')
  {
    hide Claimable;
    forall j: nat | j < |s.rows[d].allocations| ensures AfterClaims(s, d, k, n, j, s'.rows[d].allocations[j]) {
      assert AfterClaims(s, d, k, n - 1, j, mid.rows[d].allocations[j]);
    }
    assert s'.procs[..|s.procs|] == s'.procs[..|mid.procs|][..|s.procs|];
  }

  lemma NotClaimed(s: State, d: nat, k: nat, n: nat, mid: State)
    requires 0 < n && OthersClaimed(s, d, k, n - 1, mid) && !(n - 1 != k && Claimable(s, d, n - 1))
    ensures OthersClaimed(s, d, k, n, mid)
  {
    hide Claimable;
    forall j: nat | j < |s.rows[d].allocations| ensures AfterClaims(s, d, k, n, j, mid.rows[d].allocations[j]) {
      assert AfterClaims(s, d, k, n - 1, j, mid.rows[d].allocations[j]);
    }
  }

  // ------------------------------------------------------------------ paid by both

  /** The direct execution that lives longest. */
  lemma {:induction false} Longest(s: State, d: nat, n: nat) returns (p: nat)
    requires n <= |s.procs| && exists q: nat :: q < n && Stale(s, d, q)
    ensures p < n && Stale(s, d, p)
    ensures forall q: nat :: q < n && Stale(s, d, q) ==> s.procs[q].born <= s.procs[p].born
  {
    hide Stale;
    if exists q: nat :: q < n - 1 && Stale(s, d, q) {
      p := Longest(s, d, n - 1);
      if Stale(s, d, n - 1) && s.procs[n - 1].born > s.procs[p].born { p := n - 1; }
    } else {
      p := n - 1;
    }
  }

  /** The last moment at which it is alive. */
  function LastMoment(s: State, p: nat): int
    requires p < |s.procs|
  {
    s.procs[p].born + MAX_DURATION_MS - 1
  }

  lemma InTimeIff(s: State, d: nat, p: nat, time: int)
    requires Stale(s, d, p)
    requires forall q: nat :: q < |s.procs| && Stale(s, d, q) ==> s.procs[q].born <= s.procs[p].born
    ensures InTime(s, d, time) <==> time <= LastMoment(s, p)
    ensures s.clock <= LastMoment(s, p)
  {
  }

  /** Where the locks of the living are cleared and time has moved on to `now`, a due allocation that
      was not stuck has its lock free. */
  lemma FreeUnlessStuck(s: State, d: nat, p: nat, mid: State, j: nat)
    requires Stale(s, d, p) && Cleared(s, d, |s.procs|, mid) && j < |s.rows[d].allocations|
    requires forall q: nat :: q < |s.procs| && Stale(s, d, q) ==> s.procs[q].born <= s.procs[p].born
    requires IsDue(s.rows[d].allocations[j])
    ensures Stuck(s, d, j) || LockFree(mid.rows[d].allocations[j], LastMoment(s, p))
  {
    hide InTime;
    var a := s.rows[d].allocations[j];
    assert MayUnlock(a, mid.rows[d].allocations[j]);
    if a.claimingUntil.Some? { InTimeIff(s, d, p, a.claimingUntil.value + 1); }
    if q :| Locker(s, d, j, q) { assert Freed(mid, d, j); }
  }

  /** After those claims only the allocation itself and the stuck ones are open. */
  lemma OnlyStuckLeft(s: State, d: nat, p: nat, mid: State, k: nat, after: State)
    requires Stale(s, d, p) && Cleared(s, d, |s.procs|, mid) && k < |s.rows[d].allocations|
    requires forall q: nat :: q < |s.procs| && Stale(s, d, q) ==> s.procs[q].born <= s.procs[p].born
    requires OthersClaimed(mid.(clock := LastMoment(s, p)), d, k, |s.rows[d].allocations|, after)
    ensures SameTable(s.rows[d].allocations, after.rows[d].allocations)
    ensures forall j: nat :: j < |s.rows[d].allocations| && IsDue(after.rows[d].allocations[j]) ==>
      j == k || Stuck(s, d, j)
  {
    hide Stale, Stuck, Cleared, LockFree;
    TableCleared(s, d, mid);
    StaleRow(s, d, p);
    var late := mid.(clock := LastMoment(s, p));
    forall j: nat | j < |s.rows[d].allocations|
      ensures s.rows[d].allocations[j].wallet == after.rows[d].allocations[j].wallet
           && s.rows[d].allocations[j].payout == after.rows[d].allocations[j].payout
      ensures IsDue(after.rows[d].allocations[j]) ==> j == k || Stuck(s, d, j)
    {
      assert AfterClaims(late, d, k, |s.rows[d].allocations|, j, after.rows[d].allocations[j]);
      if IsDue(s.rows[d].allocations[j]) { FreeUnlessStuck(s, d, p, mid, j); }
    }
  }

  lemma StaleRow(s: State, d: nat, p: nat)
    requires Stale(s, d, p)
    ensures d < |s.rows| && Funded(s.rows[d]) && s.rows[d].status == Snapshotted
    ensures p < |s.procs| && s.procs[p].pc.Executing? && s.procs[p].pc.mode == Direct && s.procs[p].d == d
    ensures !Locking(s.procs[p])
  {
  }

  lemma TableCleared(s: State, d: nat, mid: State)
    requires Cleared(s, d, |s.procs|, mid)
    ensures d < |mid.rows| && |mid.rows| == |s.rows| && |mid.rows[d].allocations| == |s.rows[d].allocations|
    ensures Funded(mid.rows[d]) == Funded(s.rows[d]) && mid.rows[d].status == s.rows[d].status
    ensures forall j: nat :: j < |s.rows[d].allocations| ==>
      mid.rows[d].allocations[j].(claimingUntil := None) == s.rows[d].allocations[j].(claimingUntil := None)
  {
    forall j: nat | j < |s.rows[d].allocations|
      ensures mid.rows[d].allocations[j].(claimingUntil := None) == s.rows[d].allocations[j].(claimingUntil := None)
    {
      assert MayUnlock(s.rows[d].allocations[j], mid.rows[d].allocations[j]);
    }
  }

  /** The direct execution takes the lease, reads the row and passes its balance check. */
  lemma ReadyToPay(sha: Hasher, s: State, d: nat, p: nat, typed: nat) returns (es: seq<Event>, s': State)
    requires Inv(Everywhere(COMMIT_GUARD), sha, s)
    requires Runs(s, p) && s.procs[p].d == d && s.procs[p].pc == Executing(typed, Direct)
    requires LeaseOpen(s.rows[d], typed, s.clock)
    requires s.procs[p].born <= s.clock && Sum(s.rows[d].allocations, OpenPayout) <= s.chain.issuerUsdc
    ensures Leads(sha, s, es, s')
    ensures Holds(s', p, d, typed, ToPay(s.rows[d].generation, Unpaid(s.rows[d]), true))
    ensures s'.chain == s.chain && s'.log == s.log && s'.clock == s.clock && |s'.rows| == |s.rows|
    ensures s'.rows[d] == s.rows[d].(executingUntil := s'.rows[d].executingUntil)
  {
    hide Inv, Run, Leads, Sum, Unpaid, ClaimRoot;
    var r := s.rows[d];
    UnpaidSum(r);
    var s1 := TakeLease(s, p, s.clock, s.clock);
    LeadsOne(sha, s, DoTakeLease(p, s.clock, s.clock));
    var s2 := ReadRow(sha, s1, p);
    UnpaidOfTable(r, s1.rows[d]);
    LeadsStep(sha, s, [DoTakeLease(p, s.clock, s.clock)], s1, DoReadRow(p));
    s' := CheckBalance(s2, p);
    LeadsStep(sha, s, [DoTakeLease(p, s.clock, s.clock)] + [DoReadRow(p)], s2, DoCheckBalance(p));
    es := [DoTakeLease(p, s.clock, s.clock)] + [DoReadRow(p)] + [DoCheckBalance(p)];
  }

  lemma UnpaidOfTable(r: Row, r': Row)
    requires r.allocations == r'.allocations
    ensures Unpaid(r) == Unpaid(r')
  {
  }

  lemma {:induction false} PaymentsGrow(log: seq<Transfer>, more: seq<Transfer>, d: nat, wallet: string)
    ensures |Payments(log + more, d, wallet)| == |Payments(log, d, wallet)| + |Payments(more, d, wallet)|
  {
    if more == [] {
      assert log + more == log;
    } else {
      var n := |more| - 1;
      PaymentsGrow(log, more[..n], d, wallet);
      assert log + more == (log + more[..n]) + [more[n]];
      PaymentsAppend(log + more[..n], more[n], d, wallet);
    }
  }

  lemma {:induction false} ListedGetsPaid(d: nat, unpaid: seq<Due>, typed: nat, i: nat)
    requires i < |unpaid|
    ensures |Payments(PaidNotes(d, unpaid, typed), d, unpaid[i].wallet)| >= 1
  {
    var notes, n := PaidNotes(d, unpaid, typed), |unpaid| - 1;
    assert notes[..n] == PaidNotes(d, unpaid[..n], typed);
    if i < n { ListedGetsPaid(d, unpaid[..n], typed, i); }
  }

  /** With the list in hand, the escrow pays the allocation and then the direct execution does. */
  lemma PayBoth(sha: Hasher, s: State, d: nat, k: nat, p: nat, typed: nat, r: Row) returns (es: seq<Event>)
    requires Inv(Everywhere(COMMIT_GUARD), sha, s) && Claimable(s, d, k) && d < |s.rows| && k < |s.rows[d].allocations|
    requires r.allocations == s.rows[d].allocations && r.generation == s.rows[d].generation
    requires Holds(s, p, d, typed, ToPay(r.generation, Unpaid(r), true))
    requires Sum(Unpaid(r), DueAmount) <= s.chain.issuerUsdc
    ensures NoCommits(es) && |Payments(Run(sha, s, es).log, d, s.rows[d].allocations[k].wallet)| >= 2
  {
    hide Inv, Run, Unpaid, Sum, Payments, NoCommits, Holds, Claimed;
    var w, unpaid := s.rows[d].allocations[k].wallet, Unpaid(r);
    var i := DuePlace(r, k);
    var claim, mid := ClaimNow(sha, s, d, k);
    StillHolds(s, d, k, mid, p, typed, ToPay(r.generation, unpaid, true));
    ClaimedPays(s, d, k, mid);
    var pay := CanPayAll(sha, mid, p, d, typed, r.generation, unpaid);
    RunConcat(sha, s, claim, pay);
    es := claim + pay;
    PaymentsGrow(mid.log, PaidNotes(d, unpaid, typed), d, w);
    ListedGetsPaid(d, unpaid, typed, i);
    NoCommitsTogether(claim, pay);
  }

  lemma DuePlace(r: Row, k: nat) returns (i: nat)
    requires k < |r.allocations| && IsDue(r.allocations[k])
    ensures i < |Unpaid(r)| && Unpaid(r)[i].wallet == r.allocations[k].wallet
  {
    hide Unpaid;
    UnpaidIsOwing(r);
    assert Lists(Unpaid(r), k);
    i :| 0 <= i < |Unpaid(r)| && Unpaid(r)[i].k == k;
  }

  lemma StillHolds(s: State, d: nat, k: nat, s': State, p: nat, typed: nat, phase: Phase)
    requires d < |s.rows| && k < |s.rows[d].allocations| && Claimed(s, d, k, s') && Holds(s, p, d, typed, phase)
    ensures Holds(s', p, d, typed, phase) && s'.chain.issuerUsdc == s.chain.issuerUsdc
  {
    assert s'.procs[p] == s'.procs[..|s.procs|][p];
  }

  lemma ClaimedPays(s: State, d: nat, k: nat, s': State)
    requires d < |s.rows| && k < |s.rows[d].allocations| && Claimed(s, d, k, s')
    ensures |Payments(s'.log, d, s.rows[d].allocations[k].wallet)| >= 1
  {
    var a := s.rows[d].allocations[k];
    PaymentsAppend(s.log, Released(d, a.wallet, a.payout), d, a.wallet);
  }

  lemma NoCommitsTogether(xs: seq<Event>, ys: seq<Event>)
    requires NoCommits(xs) && (NoCommits(ys) || Harmless(ys))
    ensures NoCommits(xs + ys)
  {
  }

  /** Where everything that can be claimed but the allocation has been claimed in time, the direct
      execution can still take the lease and afford its list. */
  lemma ReachesLease(sha: Hasher, s: State, d: nat, k: nat) returns (p: nat, es: seq<Event>, s': State)
    requires Inv(Everywhere(COMMIT_GUARD), sha, s) && Exposed(s, d) && d < |s.rows| && k < |s.rows[d].allocations|
    requires Payable(s, d, k)
    ensures Leads(sha, s, es, s') && Claimable(s', d, k)
    ensures s'.rows[d].allocations[k] ==
      s.rows[d].allocations[k].(claimingUntil := s'.rows[d].allocations[k].claimingUntil)
    ensures Runs(s', p) && s'.procs[p].d == d && s'.procs[p].born <= s'.clock
    ensures s'.procs[p].pc.Executing? && s'.procs[p].pc.mode == Direct
    ensures LeaseOpen(s'.rows[d], s'.procs[p].pc.typed, s'.clock)
    ensures Sum(s'.rows[d].allocations, OpenPayout) <= s'.chain.issuerUsdc
  {
    hide Inv, Run, Leads, Cleared, OthersClaimed, Stale, Stuck, Claimable, Sum, StuckSum;
    SomeStale(sha, s, d);
    p := Longest(s, d, |s.procs|);
    StaleRow(s, d, p);
    InTimeIff(s, d, p, s.clock);
    var clear, mid := ClearLocks(sha, s, d, |s.procs|);
    LeadsKeeps(sha, s, clear, mid);
    SameClock(s, d, mid);
    var ms := LastMoment(s, p) - s.clock;
    var late := mid.(clock := mid.clock + ms);
    LeadsStep(sha, s, clear, mid, Tick(ms));
    LeadsKeeps(sha, s, clear + [Tick(ms)], late);
    TableCleared(s, d, mid);
    var claims;
    claims, s' := ClaimOthers(sha, late, d, k, |s.rows[d].allocations|);
    LeadsOn(sha, s, clear + [Tick(ms)], late, claims, s');
    es := clear + [Tick(ms)] + claims;
    StillStale(s, d, p, mid, s', k);
    OnlyStuckLeft(s, d, p, mid, k, s');
    LeftIsAffordable(s, d, k, s');
    KStaysClaimable(s, d, p, mid, k, s');
  }

  lemma SomeStale(sha: Hasher, s: State, d: nat)
    requires Inv(Everywhere(COMMIT_GUARD), sha, s) && Exposed(s, d)
    ensures exists q: nat :: q < |s.procs| && Stale(s, d, q)
    ensures forall q :: 0 <= q < |s.procs| ==> s.procs[q].born <= s.clock
  {
    hide RowsOk, Exclusive, Solvent, ProcOk;
    var q: nat :| Stale(s, d, q);
    assert q < |s.procs|;
  }

  lemma SameClock(s: State, d: nat, mid: State)
    requires Cleared(s, d, |s.procs|, mid)
    ensures mid.clock == s.clock
  {
  }

  lemma StillStale(s: State, d: nat, p: nat, mid: State, s': State, k: nat)
    requires Stale(s, d, p) && Cleared(s, d, |s.procs|, mid) && s.clock <= LastMoment(s, p)
    requires d < |s.rows| && OthersClaimed(mid.(clock := LastMoment(s, p)), d, k, |s.rows[d].allocations|, s')
    requires s.procs[p].born <= s.clock
    ensures |s'.rows| == |s.rows| && Runs(s', p) && s'.procs[p] == s.procs[p] && s'.clock == LastMoment(s, p)
    ensures LeaseOpen(s'.rows[d], s'.procs[p].pc.typed, s'.clock) && s'.chain.issuerUsdc == s.chain.issuerUsdc
  {
    assert s'.procs[p] == s'.procs[..|mid.procs|][p];
  }

  lemma LeftIsAffordable(s: State, d: nat, k: nat, s': State)
    requires d < |s.rows| && k < |s.rows[d].allocations| && Payable(s, d, k)
    requires d < |s'.rows| && SameTable(s.rows[d].allocations, s'.rows[d].allocations)
    requires forall j: nat :: j < |s.rows[d].allocations| && IsDue(s'.rows[d].allocations[j]) ==>
      j == k || Stuck(s, d, j)
    ensures Sum(s'.rows[d].allocations, OpenPayout) <= s.chain.issuerUsdc
  {
    hide Stuck, Sum;
    var a, b, n := s.rows[d].allocations, s'.rows[d].allocations, |s.rows[d].allocations|;
    var mark := AlsoMark(StuckIn(s, d), k);
    OpenIsMarked(mark, b, n);
    assert b[..n] == b;
    MarkedSame(mark, a, b, n);
    MarkedWith(StuckIn(s, d), a, k, n);
  }

  lemma KStaysClaimable(s: State, d: nat, p: nat, mid: State, k: nat, s': State)
    requires Stale(s, d, p) && Cleared(s, d, |s.procs|, mid) && d < |s.rows| && k < |s.rows[d].allocations|
    requires forall q: nat :: q < |s.procs| && Stale(s, d, q) ==> s.procs[q].born <= s.procs[p].born
    requires OthersClaimed(mid.(clock := LastMoment(s, p)), d, k, |s.rows[d].allocations|, s')
    requires Payable(s, d, k)
    ensures Claimable(s', d, k)
    ensures s'.rows[d].allocations[k] ==
      s.rows[d].allocations[k].(claimingUntil := s'.rows[d].allocations[k].claimingUntil)
  {
    hide Stuck, Cleared, StuckSum, Stale;
    StaleRow(s, d, p);
    TableCleared(s, d, mid);
    FreeUnlessStuck(s, d, p, mid, k);
    assert AfterClaims(mid.(clock := LastMoment(s, p)), d, k, |s.rows[d].allocations|, k, s'.rows[d].allocations[k]);
  }

  /** Who meets the condition can be paid twice. */
  lemma PayableIsPaidTwice(sha: Hasher, s: State, d: nat, k: nat) returns (es: seq<Event>)
    requires Inv(Everywhere(COMMIT_GUARD), sha, s) && Exposed(s, d) && d < |s.rows| && k < |s.rows[d].allocations|
    requires Payable(s, d, k)
    ensures PaysTwice(sha, s, d, s.rows[d].allocations[k].wallet, es)
  {
    hide Inv, Run, Claimable, Stuck, Exposed, Payments, Sum, Unpaid, NoCommits, Payable, Guarded, Holds;
    var w := s.rows[d].allocations[k].wallet;
    var p, reach, t := ReachesLease(sha, s, d, k);
    var typed, r := t.procs[p].pc.typed, t.rows[d];
    var ready, t' := ReadyToPay(sha, t, d, p, typed);
    UnpaidSum(r);
    ClaimableOn(t, t', d, k);
    var both := PayBoth(sha, t', d, k, p, typed, r);
    RunConcat(sha, s, reach, ready);
    RunConcat(sha, s, reach + ready, both);
    NoCommitsTogether(reach, ready);
    NoCommitsTogether(reach + ready, both);
    es := reach + ready + both;
    NoCommitsGuarded(COMMIT_GUARD, sha, s, es, d);
  }

  lemma ClaimableOn(t: State, t': State, d: nat, k: nat)
    requires Claimable(t, d, k) && d < |t'.rows| && t'.clock == t.clock
    requires t'.rows[d] == t.rows[d].(executingUntil := t'.rows[d].executingUntil)
    ensures Claimable(t', d, k) && k < |t'.rows[d].allocations|
  {
  }

  /** From any state of the invariant in which a direct execution may take the lease of a funded row:
      a wallet of the table can be paid twice if and only if its payout is open, its lock is not one
      left by the dead that outlasts every such execution, and the issuer can pay it on top of all
      payouts behind such locks. */
  lemma PaidTwiceIff(g: Rules, sha: Hasher, s: State, d: nat, k: nat)
    requires AllCommit(g) && g(d).lease && Inv(g, sha, s)
    requires Exposed(s, d) && d < |s.rows| && k < |s.rows[d].allocations|
    ensures CanBePaidTwice(sha, s, d, s.rows[d].allocations[k].wallet) <==> Payable(s, d, k)
  {
    hide Inv, Run, Exposed, Payable, Payments, Guarded;
    var w := s.rows[d].allocations[k].wallet;
    InvWeakens(g, Everywhere(COMMIT_GUARD), sha, s);
    InvWeakens(g, Only(d, BOTH_GUARDS), sha, s);
    if Payable(s, d, k) {
      var es := PayableIsPaidTwice(sha, s, d, k);
    } else {
      forall es ensures !PaysTwice(sha, s, d, w, es) {
        if GuardedAt(COMMIT_GUARD, sha, s, es, d) { OthersPaidOnce(sha, s, d, k, es); }
      }
    }
  }
}
