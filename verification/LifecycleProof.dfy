/** Every step keeps the invariant, whatever the other processes are doing and whichever guards the
    run respects. */
module LifecycleProof {
  import opened Wrappers
  import opened Sums
  import opened Merkle
  import opened Ledger
  import opened Lifecycle
  import opened LifecycleInv
  import Allocation
  import AllocationLaws

  /** The claims root depends on the distribution's id and table only. */
  lemma RootOfTable(sha: Hasher, r: Row, r': Row)
    requires r.id == r'.id && SameTable(r.allocations, r'.allocations)
    ensures ClaimRoot(sha, r) == ClaimRoot(sha, r')
  {
    SameTableSameClaims(r.id, r.allocations, r'.allocations);
  }

  // ------------------------------------------------------------------ one row, one process

  /** Another live process on the row of `p`. */
  predicate Neighbour(s: State, p: int, q: int) {
    && 0 <= p < |s.procs| && 0 <= q < |s.procs| && p != q
    && s.procs[q].d == s.procs[p].d && Alive(s.clock, s.procs[q])
  }

  /** The new row and log suit everyone else on it, and the new process gets along with them. */
  ghost predicate Fits(g: Rules, sha: Hasher, s: State, p: int, log: seq<Transfer>, r': Row, p': Proc) {
    forall q :: Neighbour(s, p, q) ==>
      ProcOk(g(s.procs[p].d), sha, log, r', s.procs[q]) && (Alive(s.clock, p') ==> PairOk(r', p', s.procs[q]))
  }

  function Next(s: State, p: nat, r': Row, pc': Pc, chain': Chain, more: seq<Transfer>): State
    requires p < |s.procs| && s.procs[p].d < |s.rows|
  {
    Goto(SetRow(s, s.procs[p].d, r').(chain := chain', log := s.log + more), p, pc')
  }

  /** A step that rewrites the row of its process, moves money and logs it. */
  lemma UpdateKeeps(g: Rules, sha: Hasher, s: State, p: nat, r': Row, pc': Pc, chain': Chain, more: seq<Transfer>)
    requires Inv(g, sha, s) && p < |s.procs|
    requires forall i :: 0 <= i < |more| ==> more[i].d == s.procs[p].d
    requires RowOk(g(s.procs[p].d), sha, r') && RowBooks(g(s.procs[p].d), s.log + more, s.procs[p].d, r')
    requires s.rows[s.procs[p].d].status == Executed ==> r'.status == Executed
    requires AllCommit(g) ==>
      Balance(chain'.usdc, ESCROW) - Balance(s.chain.usdc, ESCROW) >= RowReserve(r') - RowReserve(s.rows[s.procs[p].d])
    requires Alive(s.clock, s.procs[p].(pc := pc')) ==>
      ProcOk(g(s.procs[p].d), sha, s.log + more, r', s.procs[p].(pc := pc'))
    requires Fits(g, sha, s, p, s.log + more, r', s.procs[p].(pc := pc'))
    ensures Inv(g, sha, Next(s, p, r', pc', chain', more))
  {
    hide RowOk, RowBooks, ProcOk, RowReserve, Sum, Leasing, SameClaim;
    var d := s.procs[p].d;
    var s' := Next(s, p, r', pc', chain', more);
    forall e | 0 <= e < |s'.rows| ensures RowOk(g(e), sha, s'.rows[e]) && RowBooks(g(e), s'.log, e, s'.rows[e]) {
      if e != d { OthersUnaffected(g(e), s.log, more, e, s.rows[e]); }
    }
    SumUpdate(s.rows, d, r', RowReserve);
    forall q | 0 <= q < |s'.procs| && Alive(s'.clock, s'.procs[q])
      ensures ProcOk(g(s'.procs[q].d), sha, s'.log, s'.rows[s'.procs[q].d], s'.procs[q])
    {
      if q != p {
        if s.procs[q].d == d {
          assert Neighbour(s, p, q);
        } else {
          ProcUnaffected(g(s.procs[q].d), sha, s.log, more, s.rows[s.procs[q].d], s.procs[q]);
        }
      }
    }
    forall q, o | Rivals(s', q, o) ensures PairOk(s'.rows[s'.procs[q].d], s'.procs[q], s'.procs[o]) {
      if q != p && o != p {
        assert Rivals(s, q, o);
      } else if q == p {
        assert Neighbour(s, p, o);
      } else {
        assert Neighbour(s, p, q);
        PairIsSymmetric(r', s'.procs[p], s.procs[q]);
      }
    }
  }

  lemma PairIsSymmetric(r: Row, p: Proc, q: Proc)
    requires PairOk(r, p, q)
    ensures PairOk(r, q, p)
  {
  }

  /** A step that only moves its process on. */
  lemma GotoKeeps(g: Rules, sha: Hasher, s: State, p: nat, pc': Pc)
    requires Inv(g, sha, s) && Runs(s, p)
    requires pc' != Finished ==> ProcOk(g(s.procs[p].d), sha, s.log, s.rows[s.procs[p].d], s.procs[p].(pc := pc'))
    requires Leasing(s.procs[p].(pc := pc')) ==> Leasing(s.procs[p])
    requires Locking(s.procs[p].(pc := pc')) ==>
      Locking(s.procs[p]) && pc'.k == s.procs[p].pc.k && pc'.generation == s.procs[p].pc.generation
    ensures Inv(g, sha, Goto(s, p, pc'))
  {
    hide RowOk, RowBooks, ProcOk, Reserved;
    var s' := Goto(s, p, pc');
    forall q, o | Rivals(s', q, o) ensures PairOk(s'.rows[s'.procs[q].d], s'.procs[q], s'.procs[o]) {
      assert Rivals(s, q, o);
    }
  }

  lemma SpawnKeeps(g: Rules, sha: Hasher, s: State, d: nat, pc: Pc)
    requires Inv(g, sha, s) && d < |s.rows| && ProcOk(g(d), sha, s.log, s.rows[d], Proc(d, s.clock, pc))
    requires !Leasing(Proc(d, s.clock, pc)) && !Locking(Proc(d, s.clock, pc))
    ensures Inv(g, sha, Spawn(s, d, pc))
  {
    hide RowOk, RowBooks, ProcOk, Reserved;
    var s' := Spawn(s, d, pc);
    forall q, o | Rivals(s', q, o) ensures PairOk(s'.rows[s'.procs[q].d], s'.procs[q], s'.procs[o]) {
      if q < |s.procs| && o < |s.procs| { assert Rivals(s, q, o); }
    }
  }

  // ------------------------------------------------------------------ neighbours

  /** While a live process holds the lease of an unexecuted row, nobody else is leasing it. */
  lemma SoleLease(g: Rules, sha: Hasher, s: State, p: nat, q: int)
    requires Inv(g, sha, s) && Runs(s, p) && Leasing(s.procs[p]) && s.rows[s.procs[p].d].status != Executed
    requires Neighbour(s, p, q)
    ensures !Leasing(s.procs[q]) && ProcOk(g(s.procs[p].d), sha, s.log, s.rows[s.procs[p].d], s.procs[q])
  {
    hide RowsOk, ProcOk, Solvent;
    assert Rivals(s, p, q);
  }

  /** A live holder's lease has not expired, so a free lease has no live holder. */
  lemma LeaseIsFree(g: Rules, sha: Hasher, s: State, p: nat, q: int, now: nat)
    requires Inv(g, sha, s) && Runs(s, p) && Neighbour(s, p, q) && now <= s.clock
    requires s.rows[s.procs[p].d].status != Executed && LeaseFree(s.rows[s.procs[p].d], now)
    ensures !Leasing(s.procs[q]) && ProcOk(g(s.procs[p].d), sha, s.log, s.rows[s.procs[p].d], s.procs[q])
  {
    hide RowsOk, PhaseOk, ClaimOk, Solvent;
    assert ProcOk(g(s.procs[q].d), sha, s.log, s.rows[s.procs[q].d], s.procs[q]);
  }

  /** A step that leaves the table, the funding and the status alone, and logs nothing for the
      claims of the row, suits whoever is not leasing it. */
  lemma LeaseFits(g: Rules, sha: Hasher, s: State, p: nat, q: int, log: seq<Transfer>, r': Row)
    requires Inv(g, sha, s) && Neighbour(s, p, q) && !Leasing(s.procs[q])
    requires var r := s.rows[s.procs[p].d];
      && ProcOk(g(s.procs[p].d), sha, s.log, r, s.procs[q])
      && r'.allocations == r.allocations && r'.generation == r.generation && (Funded(r) ==> Funded(r'))
    requires forall w :: Sent(log, s.procs[p].d, w, Escrow) == Sent(s.log, s.procs[p].d, w, Escrow)
    ensures ProcOk(g(s.procs[p].d), sha, log, r', s.procs[q])
  {
    hide Inv, Sent, Sum, ClaimRoot;
  }

  // ------------------------------------------------------------------ snapshots

  lemma AllocatedTable(holders: seq<Allocation.HolderBalance>, supply: int, pool: nat)
    requires Allocation.Allocate(holders, supply, pool).Ok?
    ensures var r := Allocation.Allocate(holders, supply, pool).value;
      && r.totalAllocated >= 0 && (forall i :: 0 <= i < |r.rows| ==> r.rows[i].payout >= 0)
      && OneRowPerWallet(AllocsFrom(r.rows)) && Untouched(AllocsFrom(r.rows))
      && r.totalAllocated == Sum(AllocsFrom(r.rows), PayoutOf)
  {
    AllocatesNats(holders, supply, pool);
    AllocationLaws.RowsAreExact(holders, supply, pool);
    var r := Allocation.Allocate(holders, supply, pool).value;
    SumOfTable(r.rows);
  }

  lemma {:induction false} SumOfTable(rows: seq<Allocation.AllocationRow>)
    requires forall i :: 0 <= i < |rows| ==> rows[i].payout >= 0
    ensures Sum(AllocsFrom(rows), PayoutOf) == Sum(rows, Allocation.Payout)
  {
    if rows != [] {
      var n := |rows| - 1;
      SumOfTable(rows[..n]);
      assert AllocsFrom(rows)[..n] == AllocsFrom(rows[..n]);
    }
  }

  lemma BeginSnapshotKeeps(g: Rules, sha: Hasher, s: State, d: nat, holders: seq<Allocation.HolderBalance>,
                           supply: int)
    requires Inv(g, sha, s)
    ensures Inv(g, sha, BeginSnapshot(s, d, holders, supply))
  {
    hide Inv, Sum;
    if d < |s.rows| && SnapshotAllowed(s.rows[d], s.clock)
       && Allocation.Allocate(holders, supply, s.rows[d].rightsPool).Ok? {
      AllocatedTable(holders, supply, s.rows[d].rightsPool);
      var r := Allocation.Allocate(holders, supply, s.rows[d].rightsPool).value;
      SpawnKeeps(g, sha, s, d, Snapshotting(AllocsFrom(r.rows), r.totalAllocated));
    }
  }

  lemma {:induction false} UnsignedSums(allocs: seq<Alloc>)
    requires !AnySigned(allocs)
    ensures Sum(allocs, SignedPayout) == 0
  {
    if allocs != [] {
      assert !AnySigned(allocs[..|allocs| - 1]);
      UnsignedSums(allocs[..|allocs| - 1]);
    }
  }

  lemma UntouchedUnsigned(allocs: seq<Alloc>)
    requires Untouched(allocs)
    ensures !AnySigned(allocs) && Unlocked(allocs)
  {
  }

  /** Where nothing was paid, an untouched table has its accounts in order. */
  lemma FreshAccounts(each: bool, once: bool, log: seq<Transfer>, d: nat, allocs: seq<Alloc>)
    requires !AnySigned(allocs) && forall w :: Sent(log, d, w, Direct) == [] && (each ==> Sent(log, d, w, Escrow) == [])
    ensures Accounts(each, once, log, d, allocs)
  {
    hide Sent;
  }

  /** Where nothing is signed, the issuer paid nobody. */
  lemma UnsignedNotSent(each: bool, once: bool, log: seq<Transfer>, d: nat, allocs: seq<Alloc>, w: string)
    requires Accounts(each, once, log, d, allocs) && !AnySigned(allocs)
    ensures Sent(log, d, w, Direct) == [] && (each ==> Sent(log, d, w, Escrow) == [])
  {
    hide Sent;
    if k :| 0 <= k < |allocs| && allocs[k].wallet == w {
      assert AccountOk(each, once, log, d, allocs[k]);
    } else {
      assert Absent(allocs, w);
    }
  }

  /** The row a commit leaves. */
  function Recommitted(r: Row, allocs: seq<Alloc>, total: nat): Row {
    r.(status := Snapshotted, totalAllocated := Some(total), generation := r.generation + 1, allocations := allocs)
  }

  lemma CommittedRow(g: Guards, sha: Hasher, log: seq<Transfer>, d: nat, r: Row, now: int, allocs: seq<Alloc>,
                     total: nat)
    requires RowOk(g, sha, r) && RowBooks(g, log, d, r) && Commits(r, now) && (g.commit ==> !Funded(r))
    requires OneRowPerWallet(allocs) && Untouched(allocs) && total == Sum(allocs, PayoutOf)
    ensures RowOk(g, sha, Recommitted(r, allocs, total)) && RowBooks(g, log, d, Recommitted(r, allocs, total))
  {
    hide Sum, Sent, ClaimRoot, Accounts, FundingCount;
    UntouchedUnsigned(allocs);
    forall w
      ensures Sent(log, d, w, Direct) == [] && (Each(g, r) ==> Sent(log, d, w, Escrow) == [])
    {
      UnsignedNotSent(Each(g, r), Once(g, r), log, d, r.allocations, w);
    }
    FreshAccounts(Each(g, r), Once(g, r), log, d, allocs);
    UnsignedSums(allocs);
    if !Funded(r) { SilentSums(log, d, ""); }
  }

  /** The transaction on a row that is free and unsigned. */
  lemma CommitKeeps(g: Rules, sha: Hasher, s: State, p: nat)
    requires Inv(g, sha, s) && Runs(s, p) && s.procs[p].pc.Snapshotting?
    requires Commits(s.rows[s.procs[p].d], s.clock) && (g(s.procs[p].d).commit ==> !Funded(s.rows[s.procs[p].d]))
    ensures Inv(g, sha, CommitSnapshot(s, p))
  {
    hide ClaimRoot, Sum, Sent, RowBooks, Reserved, StageOk;
    var d, pc := s.procs[p].d, s.procs[p].pc;
    var r := s.rows[d];
    var r' := Recommitted(r, pc.allocs, pc.total);
    assert s.log + [] == s.log;
    assert ProcOk(g(d), sha, s.log, r, s.procs[p]) && RowOk(g(d), sha, r) && RowBooks(g(d), s.log, d, r);
    CommittedRow(g(d), sha, s.log, d, r, s.clock, pc.allocs, pc.total);
    forall q | Neighbour(s, p, q) ensures ProcOk(g(d), sha, s.log, r', s.procs[q]) {
      LeaseIsFree(g, sha, s, p, q, s.clock);
    }
    UpdateKeeps(g, sha, s, p, r', Finished, s.chain, []);
    assert CommitSnapshot(s, p) == Next(s, p, r', Finished, s.chain, []);
  }

  lemma CommitSnapshotKeeps(g: Rules, sha: Hasher, s: State, p: nat)
    requires Inv(g, sha, s) && Obeys(g, s, DoCommitSnapshot(p))
    ensures Inv(g, sha, CommitSnapshot(s, p))
  {
    hide Inv;
    if Runs(s, p) && s.procs[p].pc.Snapshotting? {
      if Commits(s.rows[s.procs[p].d], s.clock) {
        CommitKeeps(g, sha, s, p);
      } else {
        GotoKeeps(g, sha, s, p, Finished);
      }
    }
  }

  // ------------------------------------------------------------------ executing

  lemma BeginExecuteKeeps(g: Rules, sha: Hasher, s: State, d: nat, typed: nat, mode: PayoutMode)
    requires Inv(g, sha, s)
    ensures Inv(g, sha, BeginExecute(s, d, typed, mode))
  {
    hide Inv, Sum;
    if d < |s.rows| && Executable(s.rows[d], typed) && s.rows[d].status != Executed {
      SpawnKeeps(g, sha, s, d, Executing(typed, ResolveMode(s.rows[d], mode)));
    }
  }

  /** Only the lease of a row changes. */
  lemma LeasedRow(g: Guards, sha: Hasher, log: seq<Transfer>, d: nat, r: Row, until: Option<int>)
    requires RowOk(g, sha, r) && RowBooks(g, log, d, r) && r.status == Snapshotted
    ensures var r' := r.(executingUntil := until);
      && RowOk(g, sha, r') && RowBooks(g, log, d, r') && RowReserve(r') == RowReserve(r)
      && ClaimRoot(sha, r') == ClaimRoot(sha, r)
  {
    hide Sum, Accounts, Sent, FundingCount;
    RootOfTable(sha, r, r.(executingUntil := until));
  }

  lemma TakeLeaseKeeps(g: Rules, sha: Hasher, s: State, p: nat, aim: nat, now: nat)
    requires Inv(g, sha, s) && Obeys(g, s, DoTakeLease(p, aim, now))
    ensures Inv(g, sha, TakeLease(s, p, aim, now))
  {
    hide ClaimRoot, Sum, Sent, RowOk, RowBooks, RowReserve, Reserved, ClaimOk;
    if Runs(s, p) && s.procs[p].pc.Executing? && s.procs[p].born <= aim <= now <= s.clock {
      var d, pc := s.procs[p].d, s.procs[p].pc;
      var r, lease := s.rows[d], aim + EXECUTION_LEASE_MS;
      if LeaseOpen(r, pc.typed, now) {
        var r', pc' := r.(executingUntil := Some(lease)), Holding(pc.typed, lease, Fresh(pc.mode));
        assert s.log + [] == s.log;
        forall q | Neighbour(s, p, q) ensures ProcOk(g(d), sha, s.log, r', s.procs[q]) && !Leasing(s.procs[q]) {
          LeaseIsFree(g, sha, s, p, q, now);
          LeaseFits(g, sha, s, p, q, s.log, r');
        }
        LeasedRow(g(d), sha, s.log, d, r, Some(lease));
        UpdateKeeps(g, sha, s, p, r', pc', s.chain, []);
        assert TakeLease(s, p, aim, now) == Next(s, p, r', pc', s.chain, []);
      } else {
        GotoKeeps(g, sha, s, p, Finished);
      }
    }
  }

  /** What is due was not paid by the issuer. */
  lemma DueNotSent(each: bool, once: bool, log: seq<Transfer>, d: nat, allocs: seq<Alloc>, unpaid: seq<Due>)
    requires Accounts(each, once, log, d, allocs) && Owing(allocs, unpaid)
    ensures NotYetSent(log, d, unpaid)
  {
    hide Sent, Absent;
    forall i | 0 <= i < |unpaid| ensures Sent(log, d, unpaid[i].wallet, Direct) == [] {
      assert AccountOk(each, once, log, d, allocs[unpaid[i].k]);
    }
  }

  lemma ReadRowKeeps(g: Rules, sha: Hasher, s: State, p: nat)
    requires Inv(g, sha, s)
    ensures Inv(g, sha, ReadRow(sha, s, p))
  {
    hide ClaimRoot, Sum, Sent, RowOk, Reserved, ClaimOk, Accounts, Owing, Unpaid, Listing, Complete;
    if Runs(s, p) && s.procs[p].pc.Holding? && s.procs[p].pc.phase.Fresh? {
      var d, r := s.procs[p].d, s.rows[s.procs[p].d];
      UnpaidIsOwing(r);
      assert RowBooks(g(d), s.log, d, r);
      DueNotSent(Each(g(d), r), Once(g(d), r), s.log, d, r.allocations, Unpaid(r));
      GotoKeeps(g, sha, s, p, ReadRow(sha, s, p).procs[p].pc);
    }
  }

  lemma CheckBalanceKeeps(g: Rules, sha: Hasher, s: State, p: nat)
    requires Inv(g, sha, s)
    ensures Inv(g, sha, CheckBalance(s, p))
  {
    hide ClaimRoot, Sum, ListOk, RowsOk, Exclusive, Solvent;
    if CheckBalance(s, p) != s {
      GotoKeeps(g, sha, s, p, CheckBalance(s, p).procs[p].pc);
    }
  }

  lemma PayBatchKeeps(g: Rules, sha: Hasher, s: State, p: nat)
    requires Inv(g, sha, s)
    ensures Inv(g, sha, PayBatch(s, p))
  {
    hide ClaimRoot, Sum, ListOk, RowsOk, Exclusive, Solvent, TransferBatch;
    if Runs(s, p) && s.procs[p].pc.Holding? && s.procs[p].pc.phase.ToPay? && s.procs[p].pc.phase.checked
       && s.procs[p].pc.phase.unpaid != [] {
      var pc := s.procs[p].pc;
      var batch := NextBatch(pc.phase.unpaid);
      if TransferBatch(s.chain, PaymentsFor(batch)).None? {
        GotoKeeps(g, sha, s, p, Leaving(pc.lease));
      } else {
        PaidBatchKeeps(g, sha, s, p, batch, TransferBatch(s.chain, PaymentsFor(batch)).value);
      }
    }
  }

  /** On a row that is not funded, what a list holds is still due. */
  lemma StillOwing(g: Guards, log: seq<Transfer>, d: nat, r: Row, generation: nat, unpaid: seq<Due>)
    requires !Funded(r) && RowBooks(g, log, d, r) && ListOk(g, log, d, r, generation, unpaid)
    ensures Owing(r.allocations, unpaid)
  {
    hide Sent, Absent, Complete, IssuerOut, Sum, FundingCount;
    forall i | 0 <= i < |unpaid| ensures IsDue(r.allocations[unpaid[i].k]) {
      assert AccountOk(true, true, log, d, r.allocations[unpaid[i].k]);
    }
  }

  /** The rest of the list after a batch. */
  lemma RestOk(g: Guards, log: seq<Transfer>, d: nat, r: Row, generation: nat, unpaid: seq<Due>, n: nat, typed: nat,
               sig: Signature)
    requires ListOk(g, log, d, r, generation, unpaid) && n <= |unpaid| && OneRowPerWallet(r.allocations)
    ensures var r' := r.(allocations := SignAll(r.allocations, unpaid[..n], sig));
      ListOk(g, log + PaidNotes(d, unpaid[..n], typed), d, r', generation, unpaid[n..])
  {
    hide Sent, OneRowPerWallet, Listing, Complete;
    RestIsListed(r.allocations, unpaid, n, sig);
    var rest := unpaid[n..];
    forall i | 0 <= i < |rest|
      ensures Sent(log + PaidNotes(d, unpaid[..n], typed), d, rest[i].wallet, Direct) == []
    {
      OthersInBatch(r.allocations, unpaid, n, n + i);
      BatchSends(log, d, unpaid[..n], typed, unpaid[n + i].wallet);
    }
  }

  /** The row after a batch: same table, accounts kept, nothing else changed. */
  lemma BatchRow(g: Guards, sha: Hasher, log: seq<Transfer>, d: nat, r: Row, unpaid: seq<Due>, n: nat, typed: nat,
                 sig: Signature)
    requires RowOk(g, sha, r) && RowBooks(g, log, d, r) && r.status == Snapshotted && 0 < n <= |unpaid|
    requires ListOk(g, log, d, r, r.generation, unpaid) && r.totalAllocated == Some(typed)
    ensures var r' := r.(allocations := SignAll(r.allocations, unpaid[..n], sig));
      && RowOk(g, sha, r') && RowBooks(g, log + PaidNotes(d, unpaid[..n], typed), d, r')
      && RowReserve(r') <= RowReserve(r)
  {
    hide ClaimRoot, Sum, Sent, Listing, OneRowPerWallet, Accounts, IssuerOut, Owing, AnySigned, Silent;
    var batch := unpaid[..n];
    var after := SignAll(r.allocations, batch, sig);
    ListingPrefix(r.allocations, unpaid, n);
    SignAllAt(r.allocations, batch, sig);
    SignAllReserve(r.allocations, batch, sig);
    OneRowKept(r.allocations, after);
    RootOfTable(sha, r, r.(allocations := after));
    SameTableSameClaims(r.id, r.allocations, after);
    BatchBooks(g, log, d, r, unpaid, n, typed, sig);
  }

  lemma BatchBooks(g: Guards, log: seq<Transfer>, d: nat, r: Row, unpaid: seq<Due>, n: nat, typed: nat, sig: Signature)
    requires RowBooks(g, log, d, r) && OneRowPerWallet(r.allocations) && 0 < n <= |unpaid|
    requires ListOk(g, log, d, r, r.generation, unpaid) && r.totalAllocated == Some(typed)
    ensures var r' := r.(allocations := SignAll(r.allocations, unpaid[..n], sig));
      RowBooks(g, log + PaidNotes(d, unpaid[..n], typed), d, r')
  {
    hide Sum, Sent, OneRowPerWallet, Accounts, IssuerOut, Silent, FundingCount, Complete;
    var batch := unpaid[..n];
    var after := SignAll(r.allocations, batch, sig);
    ListingPrefix(r.allocations, unpaid, n);
    if !Funded(r) {
      StillOwing(g, log, d, r, r.generation, unpaid);
      SignAllSums(r.allocations, batch, sig);
    }
    BatchKeepsAccounts(Each(g, r), Once(g, r), log, d, r.allocations, batch, typed, sig);
    BatchOut(log, d, batch, typed);
    forall w { BatchSends(log, d, batch, typed, w); }
    BatchSigns(r, batch, sig);
  }

  lemma BatchSigns(r: Row, batch: seq<Due>, sig: Signature)
    requires Listing(r.allocations, batch) && batch != []
    ensures AnySigned(SignAll(r.allocations, batch, sig))
  {
    SignAllAt(r.allocations, batch, sig);
    assert Lists(batch, batch[0].k);
    assert SignAll(r.allocations, batch, sig)[batch[0].k].txSignature.Some?;
  }

  /** A claim on a row whose allocations get signed. */
  lemma SignedFits(g: Guards, sha: Hasher, log: seq<Transfer>, log': seq<Transfer>, r: Row, allocs: seq<Alloc>, q: Proc)
    requires ProcOk(g, sha, log, r, q) && !Leasing(q) && (g.lease ==> !Funded(r))
    requires SameTable(r.allocations, allocs)
    requires forall k :: 0 <= k < |allocs| ==>
      allocs[k].claimingUntil == r.allocations[k].claimingUntil
      && (r.allocations[k].txSignature.Some? ==> allocs[k].txSignature.Some?)
    requires forall w :: Sent(log', q.d, w, Escrow) == Sent(log, q.d, w, Escrow)
    ensures ProcOk(g, sha, log', r.(allocations := allocs), q)
  {
    hide Sum, Sent, ClaimRoot;
  }

  lemma PaidBatchKeeps(g: Rules, sha: Hasher, s: State, p: nat, batch: seq<Due>, chain: Chain)
    requires Inv(g, sha, s) && Runs(s, p) && s.procs[p].pc.Holding? && s.procs[p].pc.phase.ToPay?
    requires s.procs[p].pc.phase.checked && s.procs[p].pc.phase.unpaid != []
    requires batch == NextBatch(s.procs[p].pc.phase.unpaid) && TransferBatch(s.chain, PaymentsFor(batch)) == Some(chain)
    ensures Inv(g, sha, PayBatch(s, p))
  {
    hide ClaimRoot, Sum, Sent, RowOk, RowBooks, ListOk, Listing, RowReserve, Reserved, ClaimOk, TransferBatch, SignAll;
    var d, pc := s.procs[p].d, s.procs[p].pc;
    var r, unpaid, n := s.rows[d], pc.phase.unpaid, |batch|;
    var sig, notes := Tx(|s.log|), PaidNotes(d, batch, pc.typed);
    assert batch == unpaid[..n] && ProcOk(g(d), sha, s.log, r, s.procs[p]);
    assert RowOk(g(d), sha, r) && RowBooks(g(d), s.log, d, r);
    var after := SignAll(r.allocations, batch, sig);
    var r' := r.(allocations := after);
    var pc' := pc.(phase := Batched(pc.phase.generation, unpaid[n..]));
    ListedTable(g(d), sha, s.log, d, r, pc.phase.generation, unpaid);
    RestOk(g(d), s.log, d, r, pc.phase.generation, unpaid, n, pc.typed, sig);
    BatchRow(g(d), sha, s.log, d, r, unpaid, n, pc.typed, sig);
    TransferConserves(s.chain, PaymentsFor(batch), ESCROW);
    forall q | Neighbour(s, p, q) ensures ProcOk(g(d), sha, s.log + notes, r', s.procs[q]) && !Leasing(s.procs[q]) {
      SoleLease(g, sha, s, p, q);
      BatchFits(g(d), sha, s.log, d, r, unpaid, n, pc.typed, sig, s.procs[q]);
    }
    UpdateKeeps(g, sha, s, p, r', pc', chain, notes);
    assert PayBatch(s, p) == Next(s, p, r', pc', chain, notes);
  }

  lemma ListedTable(g: Guards, sha: Hasher, log: seq<Transfer>, d: nat, r: Row, generation: nat, unpaid: seq<Due>)
    requires RowOk(g, sha, r) && ListOk(g, log, d, r, generation, unpaid)
    ensures generation == r.generation && OneRowPerWallet(r.allocations)
  {
  }

  lemma BatchFits(g: Guards, sha: Hasher, log: seq<Transfer>, d: nat, r: Row, unpaid: seq<Due>, n: nat, typed: nat,
                  sig: Signature, q: Proc)
    requires ListOk(g, log, d, r, r.generation, unpaid) && n <= |unpaid|
    requires ProcOk(g, sha, log, r, q) && !Leasing(q) && q.d == d
    ensures var after := SignAll(r.allocations, unpaid[..n], sig);
      ProcOk(g, sha, log + PaidNotes(d, unpaid[..n], typed), r.(allocations := after), q)
  {
    hide Sent, ProcOk;
    ListingPrefix(r.allocations, unpaid, n);
    SignAllAt(r.allocations, unpaid[..n], sig);
    forall w { BatchSends(log, d, unpaid[..n], typed, w); }
    SignedFits(g, sha, log, log + PaidNotes(d, unpaid[..n], typed), r, SignAll(r.allocations, unpaid[..n], sig), q);
  }

  lemma RenewKeeps(g: Rules, sha: Hasher, s: State, p: nat, aim: nat)
    requires Inv(g, sha, s)
    ensures Inv(g, sha, Renew(s, p, aim))
  {
    hide ClaimRoot, Sum, Sent, RowOk, RowBooks, RowReserve, Reserved, ClaimOk, Listing, Complete;
    if Runs(s, p) && s.procs[p].pc.Holding? && s.procs[p].pc.phase.Batched? && s.procs[p].born <= aim <= s.clock {
      var d, pc, next := s.procs[p].d, s.procs[p].pc, aim + EXECUTION_LEASE_MS;
      var r := s.rows[d];
      var r' := r.(executingUntil := Some(next));
      var pc' := Holding(pc.typed, next, ToPay(pc.phase.generation, pc.phase.unpaid, true));
      assert ProcOk(g(d), sha, s.log, r, s.procs[p]) && s.log + [] == s.log;
      forall q | Neighbour(s, p, q) ensures ProcOk(g(d), sha, s.log, r', s.procs[q]) && !Leasing(s.procs[q]) {
        SoleLease(g, sha, s, p, q);
        LeaseFits(g, sha, s, p, q, s.log, r');
      }
      LeasedRow(g(d), sha, s.log, d, r, Some(next));
      UpdateKeeps(g, sha, s, p, r', pc', s.chain, []);
      assert Renew(s, p, aim) == Next(s, p, r', pc', s.chain, []);
    }
  }

  lemma FundKeeps(g: Rules, sha: Hasher, s: State, p: nat)
    requires Inv(g, sha, s)
    ensures Inv(g, sha, Fund(s, p))
  {
    hide ClaimRoot, Sum, RowsOk, Exclusive, Solvent, TransferBatch;
    if Runs(s, p) && s.procs[p].pc.Holding? && s.procs[p].pc.phase.ToFund? && s.procs[p].pc.phase.balanceRead {
      var pc := s.procs[p].pc;
      var moved := if pc.phase.remaining == 0 then Some(s.chain)
                   else TransferBatch(s.chain, [Payment(ESCROW, pc.phase.remaining)]);
      if moved.None? {
        GotoKeeps(g, sha, s, p, Leaving(pc.lease));
      } else {
        FundedKeeps(g, sha, s, p, moved.value);
      }
    }
  }

  lemma EscrowReceives(c: Chain, amount: nat)
    requires TransferBatch(c, [Payment(ESCROW, amount)]).Some?
    ensures Balance(TransferBatch(c, [Payment(ESCROW, amount)]).value.usdc, ESCROW) == Balance(c.usdc, ESCROW) + amount
  {
    TransferConserves(c, [Payment(ESCROW, amount)], ESCROW);
    SumOne(Payment(ESCROW, amount), ReceivedBy(ESCROW));
  }

  lemma {:induction false} UnlockedReserve(allocs: seq<Alloc>)
    requires Unlocked(allocs)
    ensures Sum(allocs, Reserve) == Sum(allocs, OpenPayout)
  {
    if allocs != [] { UnlockedReserve(allocs[..|allocs| - 1]); }
  }

  /** The row once its escrow is funded with everything still open. */
  lemma FundedRow(g: Guards, sha: Hasher, log: seq<Transfer>, d: nat, r: Row, remaining: nat, typed: nat,
                  sig: Signature, more: seq<Transfer>)
    requires RowOk(g, sha, r) && RowBooks(g, log, d, r)
    requires !Funded(r) && r.status == Snapshotted && r.totalAllocated == Some(typed)
    requires remaining == Sum(r.allocations, OpenPayout)
    requires more == if remaining == 0 then [] else [Fundings(d, remaining, typed)]
    ensures var r' := r.(payoutMode := Escrow, escrowFundSignature := Some(sig), merkleRoot := Some(ClaimRoot(sha, r)));
      && RowOk(g, sha, r') && RowBooks(g, log + more, d, r') && RowReserve(r') == remaining
      && (forall w, mode :: Sent(log + more, d, w, mode) == Sent(log, d, w, mode))
  {
    hide ClaimRoot, Sum, Sent, Accounts, AnySigned, FundingCount, IssuerOut, Silent;
    SumOpenNonNegative(r.allocations);
    UnlockedReserve(r.allocations);
    var root := Some(ClaimRoot(sha, r));
    RootOfTable(sha, r, r.(payoutMode := Escrow, escrowFundSignature := Some(sig), merkleRoot := root));
    forall w, mode ensures Sent(log + more, d, w, mode) == Sent(log, d, w, mode) { SentSame(log, more, d, w, mode); }
    AccountsCarry(true, true, g.commit, g.commit && g.lease, log, log + more, d, r.allocations);
    if more == [] {
      assert log + more == log;
    } else {
      PaymentsAppend(log, more[0], d, "");
    }
  }

  lemma FundedKeeps(g: Rules, sha: Hasher, s: State, p: nat, chain: Chain)
    requires Inv(g, sha, s) && Runs(s, p)
    requires s.procs[p].pc.Holding? && s.procs[p].pc.phase.ToFund? && s.procs[p].pc.phase.balanceRead
    requires var remaining := s.procs[p].pc.phase.remaining;
      Some(chain) == if remaining == 0 then Some(s.chain) else TransferBatch(s.chain, [Payment(ESCROW, remaining)])
    ensures Inv(g, sha, Fund(s, p))
  {
    hide ClaimRoot, Sum, Sent, RowOk, RowBooks, Reserved, ClaimOk, TransferBatch;
    var d, pc := s.procs[p].d, s.procs[p].pc;
    var r, ph := s.rows[d], pc.phase;
    assert ProcOk(g(d), sha, s.log, r, s.procs[p]) && RowOk(g(d), sha, r) && RowBooks(g(d), s.log, d, r);
    var sig := if ph.remaining == 0 then NoTransferNeeded else Tx(|s.log|);
    var more := if ph.remaining == 0 then [] else [Fundings(d, ph.remaining, pc.typed)];
    var r' := r.(payoutMode := Escrow, escrowFundSignature := Some(sig), merkleRoot := Some(ph.root));
    var pc' := pc.(phase := ToMark(ph.root, sig));
    FundedRow(g(d), sha, s.log, d, r, ph.remaining, pc.typed, sig, more);
    RootOfTable(sha, r, r');
    if ph.remaining > 0 { EscrowReceives(s.chain, ph.remaining); }
    forall q | Neighbour(s, p, q) ensures ProcOk(g(d), sha, s.log + more, r', s.procs[q]) && !Leasing(s.procs[q]) {
      SoleLease(g, sha, s, p, q);
      LeaseFits(g, sha, s, p, q, s.log + more, r');
    }
    UpdateKeeps(g, sha, s, p, r', pc', chain, more);
    assert s.log + [] == s.log;
    assert Fund(s, p) == Next(s, p, r', pc', chain, more);
  }

  /** The row `markExecuted` writes. */
  function Marked(r: Row, phase: Phase): Row {
    if phase.ToMark? then
      r.(status := Executed, executingUntil := None, payoutMode := Escrow, merkleRoot := Some(phase.fundedRoot),
         escrowFundSignature := Some(phase.signature))
    else r.(status := Executed, executingUntil := None, payoutMode := Direct)
  }

  lemma MarkedRow(g: Guards, sha: Hasher, log: seq<Transfer>, d: nat, r: Row, phase: Phase)
    requires RowOk(g, sha, r) && RowBooks(g, log, d, r) && r.status == Snapshotted && PhaseOk(g, sha, log, d, r, phase)
    requires phase.ToMark? || (phase.ToPay? && phase.unpaid == [])
    ensures var r' := Marked(r, phase);
      RowOk(g, sha, r') && RowBooks(g, log, d, r') && RowReserve(r') == RowReserve(r) && (Funded(r) ==> Funded(r'))
  {
    hide ClaimRoot, Sum, Sent, Accounts, Listing, AnySigned, Silent, FundingCount;
    RootOfTable(sha, r, Marked(r, phase));
    if phase.ToPay? { AllPaidOut(r.allocations, phase.unpaid); }
  }

  lemma AllPaidOut(allocs: seq<Alloc>, unpaid: seq<Due>)
    requires Complete(allocs, unpaid) && unpaid == []
    ensures NothingDue(allocs)
  {
    forall k | 0 <= k < |allocs| ensures !IsDue(allocs[k]) { assert !Lists(unpaid, k); }
  }

  lemma MarkExecutedKeeps(g: Rules, sha: Hasher, s: State, p: nat)
    requires Inv(g, sha, s)
    ensures Inv(g, sha, MarkExecuted(s, p))
  {
    hide ClaimRoot, Sum, Sent, RowOk, RowBooks, RowReserve, Reserved, ClaimOk, PhaseOk;
    if MarkExecuted(s, p) != s {
      var d, pc := s.procs[p].d, s.procs[p].pc;
      var r := s.rows[d];
      assert ProcOk(g(d), sha, s.log, r, s.procs[p]) && s.log + [] == s.log && RowOk(g(d), sha, r);
      var r' := Marked(r, pc.phase);
      MarkedRow(g(d), sha, s.log, d, r, pc.phase);
      forall q | Neighbour(s, p, q) ensures ProcOk(g(d), sha, s.log, r', s.procs[q]) && !Leasing(s.procs[q]) {
        SoleLease(g, sha, s, p, q);
        LeaseFits(g, sha, s, p, q, s.log, r');
      }
      UpdateKeeps(g, sha, s, p, r', Leaving(pc.lease), s.chain, []);
      assert MarkExecuted(s, p) == Next(s, p, r', Leaving(pc.lease), s.chain, []);
    }
  }

  lemma FailKeeps(g: Rules, sha: Hasher, s: State, p: nat)
    requires Inv(g, sha, s)
    ensures Inv(g, sha, Fail(s, p))
  {
    hide ClaimRoot, Sum, PhaseOk, RowsOk, Exclusive, Solvent, Sent;
    if Fail(s, p) != s { GotoKeeps(g, sha, s, p, Fail(s, p).procs[p].pc); }
  }

  lemma ReleaseLeaseKeeps(g: Rules, sha: Hasher, s: State, p: nat)
    requires Inv(g, sha, s)
    ensures Inv(g, sha, ReleaseLease(s, p))
  {
    hide ClaimRoot, Sum, Sent, RowBooks, RowReserve, Reserved, ClaimOk, PhaseOk;
    if Runs(s, p) && s.procs[p].pc.Leaving? {
      var d, lease := s.procs[p].d, s.procs[p].pc.lease;
      var r := s.rows[d];
      assert ProcOk(g(d), sha, s.log, r, s.procs[p]) && s.log + [] == s.log && RowOk(g(d), sha, r);
      if r.executingUntil == Some(lease) {
        var r' := r.(executingUntil := None);
        LeasedRow(g(d), sha, s.log, d, r, None);
        forall q | Neighbour(s, p, q) ensures ProcOk(g(d), sha, s.log, r', s.procs[q]) && !Leasing(s.procs[q]) {
          SoleLease(g, sha, s, p, q);
          LeaseFits(g, sha, s, p, q, s.log, r');
        }
        UpdateKeeps(g, sha, s, p, r', Finished, s.chain, []);
        assert ReleaseLease(s, p) == Next(s, p, r', Finished, s.chain, []);
      } else {
        GotoKeeps(g, sha, s, p, Finished);
        assert ReleaseLease(s, p) == Goto(s, p, Finished);
      }
    }
  }

  lemma CrashKeeps(g: Rules, sha: Hasher, s: State, p: nat)
    requires Inv(g, sha, s)
    ensures Inv(g, sha, Crash(s, p))
  {
    hide RowOk, RowBooks, ProcOk, Reserved;
    if p < |s.procs| {
      var s' := Crash(s, p);
      forall q, o | Rivals(s', q, o) ensures PairOk(s'.rows[s'.procs[q].d], s'.procs[q], s'.procs[o]) {
        assert Rivals(s, q, o);
      }
    }
  }

  // ------------------------------------------------------------------ claiming

  lemma BeginClaimKeeps(g: Rules, sha: Hasher, s: State, d: nat, wallet: string, proof: Option<seq<string>>)
    requires Inv(g, sha, s)
    ensures Inv(g, sha, BeginClaim(sha, s, d, wallet, proof))
  {
    hide Inv, ClaimRoot, Sum, Sent;
    if BeginClaim(sha, s, d, wallet, proof) != s {
      var r, k := s.rows[d], FindPayable(s.rows[d].allocations, wallet, 0).value;
      SpawnKeeps(g, sha, s, d, Claiming(r.generation, k, wallet, r.allocations[k].payout, Found));
    }
  }

  /** Allocation `k` changes its lock or gets signed; its wallet and payout stay. */
  ghost predicate Moves(b: Alloc, a: Alloc) {
    a.wallet == b.wallet && a.payout == b.payout && (b.txSignature.Some? ==> a.txSignature.Some?)
  }

  /** That suits every process that does not hold the allocation's lock. */
  lemma ClaimFits(g: Rules, sha: Hasher, s: State, p: nat, q: int, k: nat, a: Alloc, log: seq<Transfer>)
    requires Inv(g, sha, s) && Neighbour(s, p, q) && Funded(s.rows[s.procs[p].d])
    requires k < |s.rows[s.procs[p].d].allocations| && Moves(s.rows[s.procs[p].d].allocations[k], a)
    requires var r, x := s.rows[s.procs[p].d], s.procs[q];
      !(Locking(x) && x.pc.generation == r.generation && x.pc.k == k)
    requires forall w, mode ::
      w != a.wallet || mode == Direct ==> Sent(log, s.procs[p].d, w, mode) == Sent(s.log, s.procs[p].d, w, mode)
    ensures var r := s.rows[s.procs[p].d];
      ProcOk(g(s.procs[p].d), sha, log, r.(allocations := r.allocations[k := a]), s.procs[q])
  {
    hide ClaimRoot, Sum, Sent, Reserved, RowBooks;
    var d := s.procs[p].d;
    var r := s.rows[d];
    RootOfTable(sha, r, r.(allocations := r.allocations[k := a]));
    assert ProcOk(g(d), sha, s.log, r, s.procs[q]) && RowOk(g(d), sha, r);
    if s.procs[q].pc.Holding? { HolderFits(g(d), sha, s.log, log, d, r, k, a, s.procs[q].pc.phase); }
  }

  lemma HolderFits(g: Guards, sha: Hasher, log: seq<Transfer>, log': seq<Transfer>, d: nat, r: Row, k: nat, a: Alloc,
                   phase: Phase)
    requires PhaseOk(g, sha, log, d, r, phase) && Funded(r) && k < |r.allocations| && Moves(r.allocations[k], a)
    requires forall w :: Sent(log', d, w, Direct) == Sent(log, d, w, Direct)
    ensures PhaseOk(g, sha, log', d, r.(allocations := r.allocations[k := a]), phase)
  {
    hide ClaimRoot, Sum, Sent;
    RootOfTable(sha, r, r.(allocations := r.allocations[k := a]));
  }

  lemma ClaimedRowOk(g: Guards, sha: Hasher, r: Row, k: nat, a: Alloc)
    requires RowOk(g, sha, r) && Funded(r) && k < |r.allocations| && Moves(r.allocations[k], a)
    ensures RowOk(g, sha, r.(allocations := r.allocations[k := a]))
    ensures Sum(r.allocations[k := a], PayoutOf) == Sum(r.allocations, PayoutOf)
    ensures RowReserve(r.(allocations := r.allocations[k := a])) ==
      RowReserve(r) - Reserve(r.allocations[k]) + Reserve(a)
  {
    hide ClaimRoot, Sum;
    OneRowKept(r.allocations, r.allocations[k := a]);
    SameTableSameClaims(r.id, r.allocations, r.allocations[k := a]);
    RootOfTable(sha, r, r.(allocations := r.allocations[k := a]));
    SumUpdate(r.allocations, k, a, Reserve);
  }

  /** Changing only the lock of an allocation changes no book. */
  lemma LockKeepsBooks(g: Guards, log: seq<Transfer>, d: nat, r: Row, k: nat, a: Alloc)
    requires RowBooks(g, log, d, r) && Funded(r) && k < |r.allocations|
    requires a == r.allocations[k].(claimingUntil := a.claimingUntil)
    ensures RowBooks(g, log, d, r.(allocations := r.allocations[k := a]))
  {
    hide Sent, Sum, Absent, FundingCount;
    var after := r.allocations[k := a];
    SumUpdate(r.allocations, k, a, PayoutOf);
    forall j | 0 <= j < |after| ensures AccountOk(Each(g, r), Once(g, r), log, d, after[j]) {
      assert AccountOk(Each(g, r), Once(g, r), log, d, r.allocations[j]);
    }
    forall w | Absent(after, w)
      ensures Sent(log, d, w, Direct) == [] && (Each(g, r) ==> Sent(log, d, w, Escrow) == [])
    {
      SameTableSameAbsent(r.allocations, after, w);
    }
  }

  /** A live claim about to lock a free allocation has no rival for it. */
  lemma LockIsFree(g: Rules, sha: Hasher, s: State, p: nat, q: int, k: nat, now: nat)
    requires Inv(g, sha, s) && Neighbour(s, p, q) && p < |s.procs| && now <= s.clock
    requires k < |s.rows[s.procs[p].d].allocations|
    requires var b := s.rows[s.procs[p].d].allocations[k];
      b.txSignature.None? && (b.claimingUntil.None? || b.claimingUntil.value < now)
    ensures var x := s.procs[q];
      !(Locking(x) && x.pc.generation == s.rows[s.procs[p].d].generation && x.pc.k == k)
  {
    hide RowsOk, Exclusive, Solvent, Sent, PhaseOk;
    assert ProcOk(g(s.procs[q].d), sha, s.log, s.rows[s.procs[q].d], s.procs[q]);
  }

  /** While a live process holds an allocation's lock, nobody else does. */
  lemma SoleLock(g: Rules, sha: Hasher, s: State, p: nat, q: int)
    requires Inv(g, sha, s) && Runs(s, p) && Locking(s.procs[p]) && Neighbour(s, p, q)
    ensures !SameClaim(s.procs[p], s.procs[q])
  {
    hide RowsOk, ProcsOk, Solvent;
    assert Rivals(s, p, q);
  }

  /** What is not signed was not paid. */
  lemma OpenNotSent(g: Guards, log: seq<Transfer>, d: nat, r: Row, k: nat)
    requires g.commit && RowBooks(g, log, d, r) && k < |r.allocations| && r.allocations[k].txSignature.None?
    ensures NothingSent(log, d, r.allocations[k].wallet)
  {
    hide Sent, Sum, FundingCount;
    assert AccountOk(true, Once(g, r), log, d, r.allocations[k]);
  }

  lemma TakeLockKeeps(g: Rules, sha: Hasher, s: State, p: nat, now: nat)
    requires Inv(g, sha, s)
    ensures Inv(g, sha, TakeLock(s, p, now))
  {
    hide ClaimRoot, Sum, Sent, RowOk, RowBooks, Reserved, RowReserve, PhaseOk;
    if Runs(s, p) && s.procs[p].pc.Claiming? && s.procs[p].pc.stage.Found? && s.procs[p].born <= now <= s.clock {
      var d, pc := s.procs[p].d, s.procs[p].pc;
      var r, until := s.rows[d], now + CLAIM_LOCK_MS;
      assert ProcOk(g(d), sha, s.log, r, s.procs[p]) && RowOk(g(d), sha, r) && RowBooks(g(d), s.log, d, r);
      assert s.log + [] == s.log;
      if r.generation == pc.generation && r.allocations[pc.k].txSignature.None?
         && (r.allocations[pc.k].claimingUntil.None? || r.allocations[pc.k].claimingUntil.value < now) {
        var a := r.allocations[pc.k].(claimingUntil := Some(until));
        var r', pc' := r.(allocations := r.allocations[pc.k := a]), pc.(stage := Locked(until, false));
        ClaimedRowOk(g(d), sha, r, pc.k, a);
        LockKeepsBooks(g(d), s.log, d, r, pc.k, a);
        if g(d).commit { OpenNotSent(g(d), s.log, d, r, pc.k); }
        forall q | Neighbour(s, p, q)
          ensures ProcOk(g(d), sha, s.log, r', s.procs[q]) && !SameClaim(s.procs[p].(pc := pc'), s.procs[q])
        {
          LockIsFree(g, sha, s, p, q, pc.k, now);
          ClaimFits(g, sha, s, p, q, pc.k, a, s.log);
        }
        UpdateKeeps(g, sha, s, p, r', pc', s.chain, []);
        assert TakeLock(s, p, now) == Next(s, p, r', pc', s.chain, []);
      } else {
        GotoKeeps(g, sha, s, p, Finished);
      }
    }
  }

  lemma CheckEscrowKeeps(g: Rules, sha: Hasher, s: State, p: nat)
    requires Inv(g, sha, s)
    ensures Inv(g, sha, CheckEscrow(s, p))
  {
    hide ClaimRoot, Sum, RowsOk, Exclusive, Solvent, Sent, PhaseOk;
    if CheckEscrow(s, p) != s { GotoKeeps(g, sha, s, p, CheckEscrow(s, p).procs[p].pc); }
  }

  lemma ReleasePayoutKeeps(g: Rules, sha: Hasher, s: State, p: nat)
    requires Inv(g, sha, s)
    ensures Inv(g, sha, ReleasePayout(s, p))
  {
    hide ClaimRoot, Sum, RowsOk, Exclusive, Solvent, Sent, PhaseOk, Release;
    if Runs(s, p) && s.procs[p].pc.Claiming? && s.procs[p].pc.stage.Locked? && s.procs[p].pc.stage.checked {
      var pc := s.procs[p].pc;
      if Release(s.chain, [Payment(pc.wallet, pc.payout)]).None? {
        GotoKeeps(g, sha, s, p, pc.(stage := Unlocking(pc.stage.until)));
      } else if s.rows[s.procs[p].d].generation == pc.generation {
        ReleasedKeeps(g, sha, s, p, Release(s.chain, [Payment(pc.wallet, pc.payout)]).value);
      } else {
        OldReleaseKeeps(g, sha, s, p, Release(s.chain, [Payment(pc.wallet, pc.payout)]).value);
      }
    }
  }

  lemma EscrowPays(c: Chain, x: Payment)
    requires Release(c, [x]).Some?
    ensures Balance(Release(c, [x]).value.usdc, ESCROW) >= Balance(c.usdc, ESCROW) - x.amount
  {
    ReleaseConserves(c, [x], ESCROW);
    SumOne(x, Amount);
  }

  /** A release whose allocation has been replaced is recorded nowhere. It takes a commit over a
      funded row. */
  lemma OldReleaseKeeps(g: Rules, sha: Hasher, s: State, p: nat, chain: Chain)
    requires Inv(g, sha, s) && Runs(s, p)
    requires s.procs[p].pc.Claiming? && s.procs[p].pc.stage.Locked? && s.procs[p].pc.stage.checked
    requires s.procs[p].pc.generation != s.rows[s.procs[p].d].generation
    requires Release(s.chain, [Payment(s.procs[p].pc.wallet, s.procs[p].pc.payout)]) == Some(chain)
    ensures Inv(g, sha, ReleasePayout(s, p))
  {
    hide ClaimRoot, Sum, Sent, RowOk, RowBooks, PhaseOk, StageOk, Release, Reserved, RowReserve;
    var d, pc := s.procs[p].d, s.procs[p].pc;
    var r := s.rows[d];
    assert ProcOk(g(d), sha, s.log, r, s.procs[p]) && !g(d).commit;
    assert RowBooks(g(d), s.log, d, r) && RowOk(g(d), sha, r);
    var t := Released(d, pc.wallet, pc.payout);
    OldReleaseBooks(g(d), s.log, d, r, t);
    var more := [t];
    var pc' := pc.(stage := Unlocking(pc.stage.until));
    forall q | Neighbour(s, p, q)
      ensures ProcOk(g(d), sha, s.log + more, r, s.procs[q]) && !SameClaim(s.procs[p].(pc := pc'), s.procs[q])
    {
      SoleLock(g, sha, s, p, q);
      assert ProcOk(g(d), sha, s.log, r, s.procs[q]);
      LogUnread(g(d), sha, s.log, t, r, s.procs[q]);
    }
    UpdateKeeps(g, sha, s, p, r, pc', chain, more);
    assert r.(allocations := r.allocations) == r;
    assert ReleasePayout(s, p) == Next(s, p, r, pc', chain, more);
  }

  lemma LogUnread(g: Guards, sha: Hasher, log: seq<Transfer>, t: Transfer, r: Row, p: Proc)
    requires !g.commit && ProcOk(g, sha, log, r, p) && t.Released?
    ensures ProcOk(g, sha, log + [t], r, p)
  {
    hide ClaimRoot, Sum, Sent, Listing, Complete, StageOk;
    forall w ensures Sent(log + [t], p.d, w, Direct) == Sent(log, p.d, w, Direct) {
      SentAppend(log, t, p.d, w, Direct);
    }
  }

  lemma OldReleaseBooks(g: Guards, log: seq<Transfer>, d: nat, r: Row, t: Transfer)
    requires !g.commit && Funded(r) && RowBooks(g, log, d, r) && t.Released?
    ensures RowBooks(g, log + [t], d, r)
  {
    hide Sent, Sum, Absent, IssuerOut, FundingCount;
    forall w ensures Sent(log + [t], d, w, Direct) == Sent(log, d, w, Direct) { SentAppend(log, t, d, w, Direct); }
    FundingsSame(log, [t], d);
    forall k | 0 <= k < |r.allocations| ensures AccountOk(false, false, log + [t], d, r.allocations[k]) {
      assert AccountOk(false, false, log, d, r.allocations[k]);
    }
  }

  lemma ReleaseBooks(g: Guards, log: seq<Transfer>, d: nat, r: Row, k: nat, a: Alloc)
    requires RowBooks(g, log, d, r) && Funded(r) && OneRowPerWallet(r.allocations) && k < |r.allocations|
    requires g.commit ==> Sent(log, d, a.wallet, Escrow) == [] && (g.lease ==> r.allocations[k].txSignature.None?)
    requires Moves(r.allocations[k], a) && a.txSignature.Some?
    ensures var r' := r.(allocations := r.allocations[k := a]);
      RowBooks(g, log + [Released(d, a.wallet, a.payout)], d, r')
  {
    hide Sent, Sum, Accounts, FundingCount;
    var t := Released(d, a.wallet, a.payout);
    OnePaymentKeeps(g.commit, g.commit && g.lease, log, d, r.allocations, k, t, a);
    FundingsSame(log, [t], d);
    PaymentsAppend(log, t, d, "");
    SumUpdate(r.allocations, k, a, PayoutOf);
  }

  lemma ReleasedKeeps(g: Rules, sha: Hasher, s: State, p: nat, chain: Chain)
    requires Inv(g, sha, s) && Runs(s, p)
    requires s.procs[p].pc.Claiming? && s.procs[p].pc.stage.Locked? && s.procs[p].pc.stage.checked
    requires s.procs[p].pc.generation == s.rows[s.procs[p].d].generation
    requires Release(s.chain, [Payment(s.procs[p].pc.wallet, s.procs[p].pc.payout)]) == Some(chain)
    ensures Inv(g, sha, ReleasePayout(s, p))
  {
    hide ClaimRoot, Sum, Sent, RowBooks, PhaseOk, Release, Reserved, RowReserve;
    var d, pc := s.procs[p].d, s.procs[p].pc;
    var r := s.rows[d];
    assert ProcOk(g(d), sha, s.log, r, s.procs[p]) && RowOk(g(d), sha, r) && RowBooks(g(d), s.log, d, r);
    var a := r.allocations[pc.k].(txSignature := Some(Tx(|s.log|)), claimingUntil := None);
    var r', pc' := r.(allocations := r.allocations[pc.k := a]), pc.(stage := Unlocking(pc.stage.until));
    var t := Released(d, pc.wallet, pc.payout);
    ClaimedRowOk(g(d), sha, r, pc.k, a);
    ReleaseBooks(g(d), s.log, d, r, pc.k, a);
    EscrowPays(s.chain, Payment(pc.wallet, pc.payout));
    forall w, mode | w != a.wallet || mode == Direct
      ensures Sent(s.log + [t], d, w, mode) == Sent(s.log, d, w, mode)
    {
      SentAppend(s.log, t, d, w, mode);
    }
    forall q | Neighbour(s, p, q)
      ensures ProcOk(g(d), sha, s.log + [t], r', s.procs[q]) && !SameClaim(s.procs[p].(pc := pc'), s.procs[q])
    {
      SoleLock(g, sha, s, p, q);
      ClaimFits(g, sha, s, p, q, pc.k, a, s.log + [t]);
    }
    UpdateKeeps(g, sha, s, p, r', pc', chain, [t]);
    assert ReleasePayout(s, p) == Next(s, p, r', pc', chain, [t]);
  }

  lemma ReleaseLockKeeps(g: Rules, sha: Hasher, s: State, p: nat)
    requires Inv(g, sha, s)
    ensures Inv(g, sha, ReleaseLock(s, p))
  {
    hide ClaimRoot, Sum, Sent, RowOk, RowBooks, PhaseOk, Reserved, RowReserve;
    if Runs(s, p) && s.procs[p].pc.Claiming? && s.procs[p].pc.stage.Unlocking? {
      var d, pc := s.procs[p].d, s.procs[p].pc;
      var r := s.rows[d];
      assert ProcOk(g(d), sha, s.log, r, s.procs[p]) && RowOk(g(d), sha, r) && RowBooks(g(d), s.log, d, r);
      assert s.log + [] == s.log;
      if r.generation == pc.generation && r.allocations[pc.k].claimingUntil == Some(pc.stage.until) {
        var a := r.allocations[pc.k].(claimingUntil := None);
        var r' := r.(allocations := r.allocations[pc.k := a]);
        ClaimedRowOk(g(d), sha, r, pc.k, a);
        LockKeepsBooks(g(d), s.log, d, r, pc.k, a);
        forall q | Neighbour(s, p, q) ensures ProcOk(g(d), sha, s.log, r', s.procs[q]) {
          SoleLock(g, sha, s, p, q);
          ClaimFits(g, sha, s, p, q, pc.k, a, s.log);
        }
        UpdateKeeps(g, sha, s, p, r', Finished, s.chain, []);
        assert ReleaseLock(s, p) == Next(s, p, r', Finished, s.chain, []);
      } else {
        GotoKeeps(g, sha, s, p, Finished);
        assert ReleaseLock(s, p) == Goto(s, p, Finished);
      }
    }
  }

  // ------------------------------------------------------------------ every step, every run

  lemma EmptyRow(g: Guards, sha: Hasher, log: seq<Transfer>, d: nat, r: Row)
    requires r.status == Draft && r.allocations == [] && r.totalAllocated.None? && r.executingUntil.None?
    requires !Funded(r) && r.payoutMode == Direct && r.merkleRoot.None? && Silent(log, d)
    ensures RowOk(g, sha, r) && RowBooks(g, log, d, r) && RowReserve(r) == 0
  {
    hide Sent;
    forall w ensures Sent(log, d, w, Direct) == [] && Sent(log, d, w, Escrow) == [] { SilentSums(log, d, w); }
    SilentSums(log, d, "");
  }

  lemma ReportKeeps(g: Rules, sha: Hasher, s: State, id: string, rightsPool: nat)
    requires Inv(g, sha, s)
    ensures Inv(g, sha, Report(s, id, rightsPool))
  {
    hide RowOk, RowBooks, ProcOk, PairOk, RowReserve, Sum;
    var s' := Report(s, id, rightsPool);
    var d := |s.rows|;
    EmptyRow(g(d), sha, s.log, d, s'.rows[d]);
    SumConcat(s.rows, [s'.rows[d]], RowReserve);
    SumOne(s'.rows[d], RowReserve);
    forall q, o | Rivals(s', q, o) ensures PairOk(s'.rows[s'.procs[q].d], s'.procs[q], s'.procs[o]) {
      assert Rivals(s, q, o);
    }
  }

  lemma TickKeeps(g: Rules, sha: Hasher, s: State, ms: nat)
    requires Inv(g, sha, s)
    ensures Inv(g, sha, s.(clock := s.clock + ms))
  {
    hide RowOk, RowBooks, ProcOk, Reserved;
    var s' := s.(clock := s.clock + ms);
    forall q, o | Rivals(s', q, o) ensures PairOk(s'.rows[s'.procs[q].d], s'.procs[q], s'.procs[o]) {
      assert Rivals(s, q, o);
    }
  }

  lemma StepKeeps(g: Rules, sha: Hasher, s: State, e: Event)
    requires Inv(g, sha, s) && Obeys(g, s, e)
    ensures Inv(g, sha, Step(sha, s, e))
  {
    hide Inv, Obeys, Report, BeginSnapshot, CommitSnapshot, BeginExecute, TakeLease, ReadRow, CheckBalance;
    hide PayBatch, Renew, Fund, MarkExecuted, Fail, ReleaseLease, Crash, BeginClaim, TakeLock;
    hide CheckEscrow, ReleasePayout, ReleaseLock;
    match e
    case Tick(ms) => TickKeeps(g, sha, s, ms);
    case DoReport(id, rightsPool) => ReportKeeps(g, sha, s, id, rightsPool);
    case DoBeginSnapshot(d, holders, supply) => BeginSnapshotKeeps(g, sha, s, d, holders, supply);
    case DoCommitSnapshot(p) => CommitSnapshotKeeps(g, sha, s, p);
    case DoBeginExecute(d, typed, mode) => BeginExecuteKeeps(g, sha, s, d, typed, mode);
    case DoTakeLease(p, aim, now) => TakeLeaseKeeps(g, sha, s, p, aim, now);
    case DoReadRow(p) => ReadRowKeeps(g, sha, s, p);
    case DoCheckBalance(p) => CheckBalanceKeeps(g, sha, s, p);
    case DoPayBatch(p) => PayBatchKeeps(g, sha, s, p);
    case DoRenew(p, aim) => RenewKeeps(g, sha, s, p, aim);
    case DoFund(p) => FundKeeps(g, sha, s, p);
    case DoMarkExecuted(p) => MarkExecutedKeeps(g, sha, s, p);
    case DoFail(p) => FailKeeps(g, sha, s, p);
    case DoReleaseLease(p) => ReleaseLeaseKeeps(g, sha, s, p);
    case DoCrash(p) => CrashKeeps(g, sha, s, p);
    case DoBeginClaim(d, wallet, proof) => BeginClaimKeeps(g, sha, s, d, wallet, proof);
    case DoTakeLock(p, now) => TakeLockKeeps(g, sha, s, p, now);
    case DoCheckEscrow(p) => CheckEscrowKeeps(g, sha, s, p);
    case DoReleasePayout(p) => ReleasePayoutKeeps(g, sha, s, p);
    case DoReleaseLock(p) => ReleaseLockKeeps(g, sha, s, p);
  }

  lemma {:induction false} RunConcat(sha: Hasher, s: State, xs: seq<Event>, ys: seq<Event>)
    ensures Run(sha, s, xs + ys) == Run(sha, Run(sha, s, xs), ys)
  {
    hide Step;
    if ys == [] {
      assert xs + ys == xs;
    } else {
      RunConcat(sha, s, xs, ys[..|ys| - 1]);
      assert (xs + ys)[..|xs + ys| - 1] == xs + ys[..|ys| - 1];
    }
  }

  lemma RunSnoc(sha: Hasher, s: State, es: seq<Event>, e: Event)
    ensures Run(sha, s, es + [e]) == Step(sha, Run(sha, s, es), e)
  {
    hide Step;
    assert (es + [e])[..|es|] == es;
  }

  lemma {:induction false} GuardedConcat(g: Rules, sha: Hasher, s: State, xs: seq<Event>, ys: seq<Event>)
    requires Guarded(g, sha, s, xs) && Guarded(g, sha, Run(sha, s, xs), ys)
    ensures Guarded(g, sha, s, xs + ys)
  {
    hide Run, Obeys;
    var es := xs + ys;
    forall i | 0 <= i < |es| ensures Obeys(g, Run(sha, s, es[..i]), es[i]) {
      if i < |xs| {
        assert es[..i] == xs[..i];
      } else {
        assert es[..i] == xs + ys[..i - |xs|];
        RunConcat(sha, s, xs, ys[..i - |xs|]);
      }
    }
  }

  lemma GuardedOne(g: Rules, sha: Hasher, s: State, e: Event)
    requires Obeys(g, s, e)
    ensures Guarded(g, sha, s, [e])
  {
    hide Obeys;
    assert [e][..0] == [] && Run(sha, s, []) == s;
  }

  lemma GuardedPrefix(g: Rules, sha: Hasher, s: State, es: seq<Event>)
    requires es != [] && Guarded(g, sha, s, es)
    ensures Guarded(g, sha, s, es[..|es| - 1]) && Obeys(g, Run(sha, s, es[..|es| - 1]), es[|es| - 1])
  {
    hide Obeys, Run;
    var n := |es| - 1;
    forall i | 0 <= i < n ensures Obeys(g, Run(sha, s, es[..n][..i]), es[..n][i]) {
      assert es[..n][..i] == es[..i];
    }
  }

  lemma GuardedWeakens(g: Rules, h: Rules, sha: Hasher, s: State, es: seq<Event>)
    requires Guarded(g, sha, s, es) && Milder(h, g)
    ensures Guarded(h, sha, s, es)
  {
    hide Run, LeaseOpen, Commits, Alive;
  }

  /** Every run respects no guards. */
  lemma AnyRun(sha: Hasher, s: State, es: seq<Event>)
    ensures Guarded(Everywhere(UNGUARDED), sha, s, es)
  {
    hide Run;
  }

  lemma InitOk(g: Rules, sha: Hasher, s: State)
    requires Init(s)
    ensures Inv(g, sha, s)
  {
  }

  /** What holds with more guards holds with fewer. */
  lemma InvWeakens(g: Rules, h: Rules, sha: Hasher, s: State)
    requires Inv(g, sha, s) && Milder(h, g)
    ensures Inv(h, sha, s)
  {
    hide RowOk, RowBooks, ProcOk, PairOk, Reserved;
    forall d | 0 <= d < |s.rows| ensures RowOk(h(d), sha, s.rows[d]) && RowBooks(h(d), s.log, d, s.rows[d]) {
      RowWeakens(g(d), h(d), sha, s.log, d, s.rows[d]);
    }
    forall p | 0 <= p < |s.procs| && Alive(s.clock, s.procs[p])
      ensures ProcOk(h(s.procs[p].d), sha, s.log, s.rows[s.procs[p].d], s.procs[p])
    {
      ProcWeakens(g(s.procs[p].d), h(s.procs[p].d), sha, s.log, s.rows[s.procs[p].d], s.procs[p]);
    }
  }

  lemma RowWeakens(g: Guards, h: Guards, sha: Hasher, log: seq<Transfer>, d: nat, r: Row)
    requires RowOk(g, sha, r) && RowBooks(g, log, d, r) && (h.commit ==> g.commit) && (h.lease ==> g.lease)
    ensures RowOk(h, sha, r) && RowBooks(h, log, d, r)
  {
    hide Sent, Sum, ClaimRoot, Accounts, FundingCount;
    forall w, mode ensures Sent(log, d, w, mode) == Sent(log, d, w, mode) {}
    AccountsCarry(Each(g, r), Once(g, r), Each(h, r), Once(h, r), log, log, d, r.allocations);
  }

  lemma ProcWeakens(g: Guards, h: Guards, sha: Hasher, log: seq<Transfer>, r: Row, p: Proc)
    requires ProcOk(g, sha, log, r, p) && (h.commit ==> g.commit) && (h.lease ==> g.lease)
    ensures ProcOk(h, sha, log, r, p)
  {
    hide Sent, Sum, ClaimRoot, Listing, Complete;
  }

  /** The invariant holds on along every run from a state that satisfies it. */
  lemma {:induction false} RunKeepsFrom(g: Rules, sha: Hasher, s: State, es: seq<Event>)
    requires Inv(g, sha, s) && Guarded(g, sha, s, es)
    ensures Inv(g, sha, Run(sha, s, es))
  {
    hide Inv, Step, Obeys, Guarded;
    if es != [] {
      GuardedPrefix(g, sha, s, es);
      RunKeepsFrom(g, sha, s, es[..|es| - 1]);
      StepKeeps(g, sha, Run(sha, s, es[..|es| - 1]), es[|es| - 1]);
    }
  }

  lemma RunKeeps(g: Rules, sha: Hasher, s: State, es: seq<Event>)
    requires Init(s) && Guarded(g, sha, s, es)
    ensures Inv(g, sha, Run(sha, s, es))
  {
    hide Inv, Run, Guarded;
    InitOk(g, sha, s);
    RunKeepsFrom(g, sha, s, es);
  }

  /** With no guard: over every run. */
  lemma EveryRunKeeps(sha: Hasher, s: State, es: seq<Event>)
    requires Init(s)
    ensures Inv(Everywhere(UNGUARDED), sha, Run(sha, s, es))
  {
    hide Inv, Run, Guarded;
    AnyRun(sha, s, es);
    RunKeeps(Everywhere(UNGUARDED), sha, s, es);
  }
}
