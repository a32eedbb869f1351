/** Which wallets can be paid twice once a direct execution may take the lease of a row whose escrow is
    funded: those of the open allocations that can still be claimed in time, as long as the issuer can
    cover them on top of what nobody can claim in time. Here: the condition, and that nobody else is.
    `LifecycleSchedule` shows that they are. */
module LifecycleDouble {
  import opened Wrappers
  import opened Sums
  import opened Merkle
  import opened Ledger
  import opened Lifecycle
  import opened LifecycleInv
  import opened LifecycleProof
  import opened LifecycleFrames
  import opened LifecycleTheorems
  import opened LifecycleRecovery
  import opened LifecycleSteps

  // ------------------------------------------------------------------ the condition

  /** A direct execution that may take the lease of the funded row now. */
  predicate Stale(s: State, d: nat, p: nat) {
    TakesFundedDirectly(s, p, s.clock) && s.procs[p].d == d
  }

  ghost predicate Exposed(s: State, d: nat) {
    exists p: nat :: Stale(s, d, p)
  }

  /** One of them is still alive at that time. */
  ghost predicate InTime(s: State, d: nat, time: int) {
    exists p: nat :: Stale(s, d, p) && time < s.procs[p].born + MAX_DURATION_MS
  }

  ghost predicate NoLocker(s: State, d: nat, k: nat) {
    forall q :: !Locker(s, d, k, q)
  }

  /** An open allocation whose lock was left by the dead and outlasts every such execution. */
  ghost predicate Stuck(s: State, d: nat, k: nat) {
    && d < |s.rows| && k < |s.rows[d].allocations| && IsDue(s.rows[d].allocations[k])
    && s.rows[d].allocations[k].claimingUntil.Some?
    && !InTime(s, d, s.rows[d].allocations[k].claimingUntil.value + 1)
    && NoLocker(s, d, k)
  }

  ghost function StuckIn(s: State, d: nat): nat -> bool {
    (k: nat) => Stuck(s, d, k)
  }

  /** The payouts of the marked places among the first `n`. */
  ghost function MarkedSum(mark: nat -> bool, allocs: seq<Alloc>, n: nat): int
    requires n <= |allocs|
  {
    if n == 0 then 0 else MarkedSum(mark, allocs, n - 1) + if mark(n - 1) then allocs[n - 1].payout else 0
  }

  ghost function StuckSum(s: State, d: nat): int
    requires d < |s.rows|
  {
    MarkedSum(StuckIn(s, d), s.rows[d].allocations, |s.rows[d].allocations|)
  }

  ghost predicate PaysTwice(sha: Hasher, s: State, d: nat, wallet: string, es: seq<Event>) {
    GuardedAt(COMMIT_GUARD, sha, s, es, d) && |Payments(Run(sha, s, es).log, d, wallet)| >= 2
  }

  /** Some run from here on that does not commit over the funded row pays the wallet twice. */
  ghost predicate CanBePaidTwice(sha: Hasher, s: State, d: nat, wallet: string) {
    exists es :: PaysTwice(sha, s, d, wallet, es)
  }

  // ------------------------------------------------------------------ sums over lists and tables

  function AlsoMark(mark: nat -> bool, k: nat): nat -> bool {
    (j: nat) => j == k || mark(j)
  }

  lemma {:induction false} MarkedWith(mark: nat -> bool, allocs: seq<Alloc>, k: nat, n: nat)
    requires n <= |allocs| && k < |allocs| && !mark(k)
    ensures MarkedSum(AlsoMark(mark, k), allocs, n) ==
      MarkedSum(mark, allocs, n) + if k < n then allocs[k].payout else 0
  {
    if n > 0 { MarkedWith(mark, allocs, k, n - 1); }
  }

  /** A list of different places that has all the marked ones adds up to at least their payouts. */
  lemma {:induction false} ListCovers(mark: nat -> bool, allocs: seq<Alloc>, unpaid: seq<Due>, n: nat)
    requires n <= |allocs| && Listing(allocs, unpaid)
    requires forall j: nat :: j < n && mark(j) ==> Lists(unpaid, j)
    ensures MarkedSum(mark, allocs, n) <= Sum(unpaid, DueAmount)
  {
    hide Lists, Listing, Sum;
    if n == 0 {
      DuesNonNegative(unpaid);
    } else if mark(n - 1) {
      var i := PlaceOf(allocs, unpaid, n - 1);
      SumWithout(unpaid, i, DueAmount);
      ListWithout(allocs, unpaid, i);
      ListCovers(mark, allocs, unpaid[..i] + unpaid[i + 1..], n - 1);
    } else {
      ListCovers(mark, allocs, unpaid, n - 1);
    }
  }

  lemma PlaceOf(allocs: seq<Alloc>, unpaid: seq<Due>, k: nat) returns (i: nat)
    requires Listing(allocs, unpaid) && Lists(unpaid, k)
    ensures i < |unpaid| && unpaid[i].k == k < |allocs| && unpaid[i].payout == allocs[k].payout
  {
    i :| 0 <= i < |unpaid| && unpaid[i].k == k;
  }

  lemma ListWithout(allocs: seq<Alloc>, unpaid: seq<Due>, i: nat)
    requires Listing(allocs, unpaid) && i < |unpaid|
    ensures Listing(allocs, unpaid[..i] + unpaid[i + 1..])
    ensures forall j :: j != unpaid[i].k && Lists(unpaid, j) ==> Lists(unpaid[..i] + unpaid[i + 1..], j)
  {
    var rest := unpaid[..i] + unpaid[i + 1..];
    forall j | 0 <= j < |rest| ensures rest[j] == unpaid[if j < i then j else j + 1] {
    }
    forall j | j != unpaid[i].k && Lists(unpaid, j) ensures Lists(rest, j) {
      var m :| 0 <= m < |unpaid| && unpaid[m].k == j;
      assert rest[if m < i then m else m - 1].k == j;
    }
  }

  /** A table in which only marked places are open owes at most their payouts. */
  lemma {:induction false} OpenIsMarked(mark: nat -> bool, allocs: seq<Alloc>, n: nat)
    requires n <= |allocs| && forall j: nat :: j < n && IsDue(allocs[j]) ==> mark(j)
    ensures Sum(allocs[..n], OpenPayout) <= MarkedSum(mark, allocs, n)
  {
    if n > 0 {
      OpenIsMarked(mark, allocs, n - 1);
      assert allocs[..n][..n - 1] == allocs[..n - 1];
    }
  }

  lemma {:induction false} MarkedSame(mark: nat -> bool, a: seq<Alloc>, b: seq<Alloc>, n: nat)
    requires n <= |a| && SameTable(a, b)
    ensures MarkedSum(mark, a, n) == MarkedSum(mark, b, n)
  {
    if n > 0 { MarkedSame(mark, a, b, n - 1); }
  }

  // ------------------------------------------------------------------ nobody else is paid twice

  /** What stays true from the moment `s0` on as long as no snapshot commits over a funded row: the
      table is the same, and whoever may still pay directly could do so at `s0`. */
  ghost predicate Since(sha: Hasher, s0: State, d: nat, s: State) {
    && Inv(Only(d, COMMIT_GUARD), sha, s) && d < |s0.rows| && d < |s.rows| && Funded(s.rows[d])
    && Kept(s0.rows[d], s.rows[d]) && s.chain.issuerUsdc <= s0.chain.issuerUsdc
    && forall q :: PaysDirectly(s, d, q) ==> WasThere(s0, d, s, q)
  }

  /** The direct execution could take the lease at `s0`. */
  predicate WasThere(s0: State, d: nat, s: State, q: int) {
    0 <= q < |s0.procs| && q < |s.procs| && Stale(s0, d, q) && s.procs[q].born == s0.procs[q].born
  }

  lemma KeptChains(a: Row, b: Row, c: Row)
    requires Kept(a, b) && Kept(b, c)
    ensures Kept(a, c)
  {
  }

  lemma SinceStep(sha: Hasher, s0: State, d: nat, s: State, e: Event)
    requires Since(sha, s0, d, s) && Obeys(Only(d, COMMIT_GUARD), s, e)
    ensures Since(sha, s0, d, Step(sha, s, e))
  {
    hide Inv, Step, Obeys, Kept, PaysDirectly, Stale;
    var s' := Step(sha, s, e);
    StepKeeps(Only(d, COMMIT_GUARD), sha, s, e);
    StepKeepsTable(Only(d, COMMIT_GUARD), sha, s, e, d);
    KeptChains(s0.rows[d], s.rows[d], s'.rows[d]);
    KeptFunded(s.rows[d], s'.rows[d]);
    IssuerOnlyPays(sha, s, e);
    forall q | PaysDirectly(s', d, q) ensures WasThere(s0, d, s', q) {
      ProcStep(sha, s, e, d, 0, q);
    }
  }

  lemma KeptFunded(r: Row, r': Row)
    requires Kept(r, r') && Funded(r)
    ensures Funded(r') && r'.totalAllocated == r.totalAllocated
  {
  }

  lemma SinceNow(sha: Hasher, s: State, d: nat)
    requires Inv(Only(d, BOTH_GUARDS), sha, s) && Exposed(s, d)
    ensures Since(sha, s, d, s)
    ensures forall q :: 0 <= q < |s.procs| && Alive(s.clock, s.procs[q]) && s.procs[q].d == d ==>
      !s.procs[q].pc.Holding?
  {
    hide RowOk, RowBooks, PhaseOk, ClaimOk, Exclusive, Solvent;
    InvWeakens(Only(d, BOTH_GUARDS), Only(d, COMMIT_GUARD), sha, s);
    var p: nat :| Stale(s, d, p);
    forall q | 0 <= q < |s.procs| && Alive(s.clock, s.procs[q]) && s.procs[q].d == d
      ensures !s.procs[q].pc.Holding?
    {
      assert ProcOk(BOTH_GUARDS, sha, s.log, s.rows[d], s.procs[q]);
    }
  }

  /** Whoever may pay directly is in time. */
  lemma PayerInTime(sha: Hasher, s0: State, d: nat, s: State, q: int)
    requires Since(sha, s0, d, s) && PaysDirectly(s, d, q)
    ensures InTime(s0, d, s.clock)
  {
    hide Inv, Stale, Kept;
    assert Stale(s0, d, q);
  }

  lemma ListedInTime(sha: Hasher, s0: State, d: nat, s: State, k: nat, q: int)
    requires Since(sha, s0, d, s) && HasListed(s, d, k, q)
    ensures InTime(s0, d, s.clock)
  {
    hide Inv, Stale, Kept, InTime;
    RestListed(k);
    PayerInTime(sha, s0, d, s, q);
  }

  /** The wallet's payments so far. */
  ghost predicate AtMostOne(s: State, d: nat, wallet: string) {
    Sent(s.log, d, wallet, Direct) == [] || Sent(s.log, d, wallet, Escrow) == []
  }

  /** The allocation is paid or empty, and nobody is about to pay it again. */
  ghost predicate Over(s: State, d: nat, k: nat) {
    && d < |s.rows| && k < |s.rows[d].allocations| && !IsDue(s.rows[d].allocations[k])
    && (forall q :: !Releaser(s, d, k, q)) && (forall q :: !HasListed(s, d, k, q))
    && AtMostOne(s, d, s.rows[d].allocations[k].wallet)
  }

  /** An empty allocation is neither listed nor claimed. */
  lemma EmptyIsIdle(sha: Hasher, s: State, d: nat, k: nat, q: int)
    requires Inv(Only(d, COMMIT_GUARD), sha, s) && d < |s.rows| && k < |s.rows[d].allocations|
    requires s.rows[d].allocations[k].payout == 0
    ensures !Locker(s, d, k, q) && !HasListed(s, d, k, q)
  {
    hide Inv, Locker, HasListed;
    if Locker(s, d, k, q) { LockerIsPaid(sha, s, d, k, q); }
    if HasListed(s, d, k, q) { ListedIsPaid(sha, s, d, k, q); }
  }

  lemma LockerIsPaid(sha: Hasher, s: State, d: nat, k: nat, q: int)
    requires Inv(Only(d, COMMIT_GUARD), sha, s) && d < |s.rows| && k < |s.rows[d].allocations| && Locker(s, d, k, q)
    ensures s.rows[d].allocations[k].payout > 0
  {
    hide RowsOk, Exclusive, Solvent, Sent, StageOk;
    assert ProcOk(COMMIT_GUARD, sha, s.log, s.rows[d], s.procs[q]);
  }

  lemma ListedIsPaid(sha: Hasher, s: State, d: nat, k: nat, q: int)
    requires Inv(Only(d, COMMIT_GUARD), sha, s) && d < |s.rows| && k < |s.rows[d].allocations| && HasListed(s, d, k, q)
    ensures s.rows[d].allocations[k].payout > 0
  {
    hide RowsOk, Exclusive, Solvent, Sent, Sum, ClaimRoot, Complete;
    assert ProcOk(COMMIT_GUARD, sha, s.log, s.rows[d], s.procs[q]);
    RestListed(k);
  }

  lemma OverStep(sha: Hasher, s0: State, d: nat, s: State, e: Event, k: nat)
    requires Since(sha, s0, d, s) && Obeys(Only(d, COMMIT_GUARD), s, e) && Over(s, d, k)
    ensures Over(Step(sha, s, e), d, k)
  {
    hide Inv, Step, Obeys, Sent, Releaser, HasListed, LocksAnew, Stale, PaysDirectly, Since;
    var s' := Step(sha, s, e);
    SinceStep(sha, s0, d, s, e);
    SinceKept(sha, s0, d, s);
    StepKeepsTable(Only(d, COMMIT_GUARD), sha, s, e, d);
    SentStep(Only(d, COMMIT_GUARD), sha, s, e, d, k, Direct);
    SentStep(Only(d, COMMIT_GUARD), sha, s, e, d, k, Escrow);
    SinceKept(sha, s0, d, s');
    forall q ensures !Releaser(s', d, k, q) && !HasListed(s', d, k, q) {
      if s.rows[d].allocations[k].payout == 0 {
        EmptyIsIdle(sha, s', d, k, q);
        ReleaserLocks(s', d, k, q);
      } else {
        OverProc(sha, s, e, d, k, q);
      }
    }
    WillPayLists(s, d, k);
  }

  lemma WillPayLists(s: State, d: nat, k: nat)
    ensures forall q :: WillPay(s, d, k, q) ==> HasListed(s, d, k, q)
  {
  }

  lemma ReleaserLocks(s: State, d: nat, k: nat, q: int)
    ensures Releaser(s, d, k, q) ==> Locker(s, d, k, q)
  {
  }

  lemma SinceKept(sha: Hasher, s0: State, d: nat, s: State)
    requires Since(sha, s0, d, s)
    ensures Inv(Only(d, COMMIT_GUARD), sha, s) && d < |s0.rows| && d < |s.rows| && Funded(s.rows[d])
    ensures SameTable(s0.rows[d].allocations, s.rows[d].allocations) && s.chain.issuerUsdc <= s0.chain.issuerUsdc
  {
    hide Inv;
  }

  lemma OverProc(sha: Hasher, s: State, e: Event, d: nat, k: nat, q: int)
    requires Over(s, d, k) && s.rows[d].allocations[k].payout > 0
    ensures !Releaser(Step(sha, s, e), d, k, q) && !HasListed(Step(sha, s, e), d, k, q)
  {
    hide Step, Releaser, HasListed, Unpaid, Lists, AtMostOne;
    ProcStep(sha, s, e, d, k, q);
    if HasListed(Step(sha, s, e), d, k, q) {
      ListStep(sha, s, e, d, k, q);
      WillPayLists(s, d, k);
      ListedPhase(Step(sha, s, e), d, k, q);
      DueIsListed(s.rows[d], k);
    }
  }

  lemma ListedPhase(s: State, d: nat, k: nat, q: int)
    requires HasListed(s, d, k, q)
    ensures 0 <= q < |s.procs| && s.procs[q].pc.Holding? && Lists(ListOf(s.procs[q].pc.phase), k)
  {
  }

  /** The list read from a row has exactly what is due. */
  lemma DueIsListed(r: Row, k: nat)
    requires k < |r.allocations|
    ensures Lists(Unpaid(r), k) <==> IsDue(r.allocations[k])
  {
    UnpaidIsOwing(r);
  }

  /** The allocation is as it was at `s0`, and nobody holds its lock. */
  ghost predicate Pristine(s0: State, d: nat, s: State, j: nat) {
    AllocAt(s, d, j).Some? && AllocAt(s, d, j) == AllocAt(s0, d, j) && NoLocker(s, d, j)
  }

  lemma StuckIsPristine(s0: State, d: nat, j: nat)
    requires Stuck(s0, d, j)
    ensures Pristine(s0, d, s0, j)
  {
  }

  lemma InTimeBefore(s0: State, d: nat, early: int, late: int)
    requires early <= late && InTime(s0, d, late)
    ensures InTime(s0, d, early)
  {
    hide Stale;
  }

  /** As long as a direct execution may live, the lock of a stuck allocation is not free. */
  lemma StuckNotFree(s0: State, d: nat, s: State, e: Event, j: nat)
    requires Stuck(s0, d, j) && AllocAt(s, d, j) == AllocAt(s0, d, j) && InTime(s0, d, s.clock)
    ensures !LocksAnew(s, e, d, j)
  {
    hide InTime, NoLocker;
    var u := s0.rows[d].allocations[j].claimingUntil.value;
    if u + 1 <= s.clock { InTimeBefore(s0, d, u + 1, s.clock); }
  }

  /** So only a direct payment can touch it. */
  lemma PristineStep(sha: Hasher, s0: State, d: nat, s: State, e: Event, j: nat)
    requires Inv(Only(d, COMMIT_GUARD), sha, s) && Obeys(Only(d, COMMIT_GUARD), s, e)
    requires d < |s.rows| && Funded(s.rows[d])
    requires Stuck(s0, d, j) && Pristine(s0, d, s, j) && InTime(s0, d, s.clock)
    ensures Pristine(s0, d, Step(sha, s, e), j) || (e.DoPayBatch? && WillPay(s, d, j, e.p))
  {
    hide Inv, Obeys, Step, InTime, Stuck, LocksAnew, WillPay, Locker;
    AllocStep(Only(d, COMMIT_GUARD), sha, s, e, d, j);
    StuckNotFree(s0, d, s, e, j);
    forall q ensures !Locker(Step(sha, s, e), d, j, q) || (e.DoPayBatch? && WillPay(s, d, j, e.p)) {
      ProcStep(sha, s, e, d, j, q);
    }
  }

  /** The list has the allocation and everything stuck, and no balance check has passed on it. */
  ghost predicate TooMuch(s0: State, d: nat, s: State, q: int) {
    && 0 <= q < |s.procs| && s.procs[q].pc.Holding?
    && s.procs[q].pc.phase.ToPay? && !s.procs[q].pc.phase.checked
    && forall j: nat :: Stuck(s0, d, j) ==> Lists(s.procs[q].pc.phase.unpaid, j)
  }

  /** While the allocation is open nothing stuck has been paid, and whoever lists it cannot pay. */
  ghost predicate TooDear(s0: State, d: nat, s: State, k: nat) {
    && d < |s.rows| && k < |s.rows[d].allocations|
    && Sent(s.log, d, s.rows[d].allocations[k].wallet, Direct) == []
    && (IsDue(s.rows[d].allocations[k]) && InTime(s0, d, s.clock) ==>
          forall j: nat :: Stuck(s0, d, j) ==> Pristine(s0, d, s, j))
    && (forall q :: HasListed(s, d, k, q) ==> TooMuch(s0, d, s, q))
  }

  /** What the issuer would need. */
  ghost predicate Unaffordable(s0: State, d: nat, k: nat) {
    && d < |s0.rows| && k < |s0.rows[d].allocations| && !Stuck(s0, d, k)
    && s0.rows[d].allocations[k].payout + StuckSum(s0, d) > s0.chain.issuerUsdc
  }

  lemma TooMuchForIssuer(sha: Hasher, s0: State, d: nat, s: State, k: nat, q: int)
    requires Since(sha, s0, d, s) && Unaffordable(s0, d, k)
    requires HasListed(s, d, k, q) && TooMuch(s0, d, s, q)
    ensures Sum(s.procs[q].pc.phase.unpaid, DueAmount) > s.chain.issuerUsdc
  {
    hide Stuck, Stale, PaysDirectly, RowsOk, Exclusive, Solvent, Sent, ClaimRoot, Complete, Sum, Lists;
    var allocs, unpaid := s0.rows[d].allocations, s.procs[q].pc.phase.unpaid;
    assert ProcOk(COMMIT_GUARD, sha, s.log, s.rows[d], s.procs[q]);
    ListingSame(s.rows[d].allocations, allocs, unpaid);
    var mark := AlsoMark(StuckIn(s0, d), k);
    MarkedWith(StuckIn(s0, d), allocs, k, |allocs|);
    ListCovers(mark, allocs, unpaid, |allocs|);
  }

  lemma ListingSame(a: seq<Alloc>, b: seq<Alloc>, unpaid: seq<Due>)
    requires Listing(a, unpaid) && SameTable(b, a)
    ensures Listing(b, unpaid)
  {
  }

  /** Whoever pays a stuck allocation, with the open one not on the list, finds that one paid. */
  lemma OpenIsListed(sha: Hasher, s: State, d: nat, k: nat, j: nat, q: int)
    requires Inv(Only(d, COMMIT_GUARD), sha, s) && d < |s.rows| && k < |s.rows[d].allocations|
    requires HasListed(s, d, j, q) && IsDue(s.rows[d].allocations[k])
    ensures HasListed(s, d, k, q)
  {
    hide RowsOk, Exclusive, Solvent, Sent, ClaimRoot, Sum, Listing, Lists;
    assert ProcOk(COMMIT_GUARD, sha, s.log, s.rows[d], s.procs[q]);
    RestListed(j);
  }

  lemma TooDearStep(sha: Hasher, s0: State, d: nat, s: State, e: Event, k: nat)
    requires Since(sha, s0, d, s) && Obeys(Only(d, COMMIT_GUARD), s, e)
    requires Unaffordable(s0, d, k) && TooDear(s0, d, s, k)
    ensures TooDear(s0, d, Step(sha, s, e), k)
  {
    hide Inv, Obeys, Step, Since, Sent, InTime, Stuck, Unaffordable, Pristine, HasListed, WillPay, TooMuch, IsDue;
    var s' := Step(sha, s, e);
    SinceStep(sha, s0, d, s, e);
    SinceKept(sha, s0, d, s);
    SinceKept(sha, s0, d, s');
    StepKeepsTable(Only(d, COMMIT_GUARD), sha, s, e, d);
    WillPayLists(s, d, k);
    TooMuchWaits(s0, s, d, k);
    SentStep(Only(d, COMMIT_GUARD), sha, s, e, d, k, Direct);
    ProcStep(sha, s, e, d, k, 0);
    DueBefore(s.rows[d], s'.rows[d], k);
    if IsDue(s'.rows[d].allocations[k]) && InTime(s0, d, s'.clock) {
      InTimeBefore(s0, d, s.clock, s'.clock);
      forall j: nat | Stuck(s0, d, j) ensures Pristine(s0, d, s', j) {
        PristineStep(sha, s0, d, s, e, j);
        WillPayLists(s, d, j);
        if e.DoPayBatch? && WillPay(s, d, j, e.p) {
          OpenIsListed(sha, s, d, k, j, e.p);
          BothPaid(s, d, j, k, e.p);
        }
      }
    }
    forall q | HasListed(s', d, k, q) ensures TooMuch(s0, d, s', q) {
      TooDearList(sha, s0, d, s, e, k, q);
    }
  }

  lemma BothPaid(s: State, d: nat, j: nat, k: nat, q: int)
    requires WillPay(s, d, j, q) && HasListed(s, d, k, q)
    ensures WillPay(s, d, k, q)
  {
  }

  lemma DueBefore(r: Row, r': Row, k: nat)
    requires Kept(r, r') && k < |r.allocations|
    ensures IsDue(r'.allocations[k]) ==> IsDue(r.allocations[k])
  {
  }

  lemma TooMuchWaits(s0: State, s: State, d: nat, k: nat)
    ensures forall q :: HasListed(s, d, k, q) && TooMuch(s0, d, s, q) ==> !WillPay(s, d, k, q)
  {
  }

  lemma TooDearList(sha: Hasher, s0: State, d: nat, s: State, e: Event, k: nat, q: int)
    requires Since(sha, s0, d, s) && Unaffordable(s0, d, k) && TooDear(s0, d, s, k)
    requires HasListed(Step(sha, s, e), d, k, q)
    ensures TooMuch(s0, d, Step(sha, s, e), q)
  {
    hide Inv, Step, Since, Sent, InTime, Stuck, Unaffordable, Pristine, HasListed, WillPay, Unpaid, Lists, Sum, IsDue;
    SinceKept(sha, s0, d, s);
    ListStep(sha, s, e, d, k, q);
    WillPayLists(s, d, k);
    TooMuchWaits(s0, s, d, k);
    ListedPhase(Step(sha, s, e), d, k, q);
    if PaysDirectly(s, d, q)
       && Step(sha, s, e).procs[q].pc.phase == ToPay(s.rows[d].generation, Unpaid(s.rows[d]), false) {
      DueIsListed(s.rows[d], k);
      PayerInTime(sha, s0, d, s, q);
      forall j: nat | Stuck(s0, d, j) ensures Lists(Unpaid(s.rows[d]), j) {
        PristineIsDue(s0, d, s, j);
        DueIsListed(s.rows[d], j);
      }
    } else if HasListed(s, d, k, q) {
      TooMuchForIssuer(sha, s0, d, s, k, q);
    }
  }

  lemma PristineIsDue(s0: State, d: nat, s: State, j: nat)
    requires Stuck(s0, d, j) && Pristine(s0, d, s, j)
    ensures d < |s.rows| && j < |s.rows[d].allocations| && IsDue(s.rows[d].allocations[j])
  {
  }

  /** A stuck allocation is paid directly in time, or claimed afterwards. */
  ghost predicate StuckSafe(s0: State, d: nat, s: State, k: nat) {
    && d < |s.rows| && k < |s.rows[d].allocations|
    && var a := s.rows[d].allocations[k];
    && (InTime(s0, d, s.clock) ==>
          && NoLocker(s, d, k) && Sent(s.log, d, a.wallet, Escrow) == []
          && (a.txSignature.None? ==> AllocAt(s, d, k) == AllocAt(s0, d, k)))
    && (Sent(s.log, d, a.wallet, Direct) != [] ==> NoLocker(s, d, k))
    && AtMostOne(s, d, a.wallet)
  }

  lemma PaidIsSigned(sha: Hasher, s: State, d: nat, k: nat)
    requires Inv(Only(d, COMMIT_GUARD), sha, s) && d < |s.rows| && k < |s.rows[d].allocations|
    ensures var a := s.rows[d].allocations[k];
      a.txSignature.Some? <==> Sent(s.log, d, a.wallet, Direct) != [] || Sent(s.log, d, a.wallet, Escrow) != []
  {
    hide ProcsOk, Exclusive, Solvent, Sent, RowOk;
    assert RowBooks(COMMIT_GUARD, s.log, d, s.rows[d]);
    assert AccountOk(true, false, s.log, d, s.rows[d].allocations[k]);
  }

  lemma StuckSafeStep(sha: Hasher, s0: State, d: nat, s: State, e: Event, k: nat)
    requires Since(sha, s0, d, s) && Obeys(Only(d, COMMIT_GUARD), s, e) && Stuck(s0, d, k) && StuckSafe(s0, d, s, k)
    ensures StuckSafe(s0, d, Step(sha, s, e), k)
  {
    hide Inv, Obeys, Step, Since, Sent, InTime, Stuck, HasListed, WillPay, Locker, LocksAnew;
    var s' := Step(sha, s, e);
    SinceStep(sha, s0, d, s, e);
    SinceKept(sha, s0, d, s);
    SinceKept(sha, s0, d, s');
    StepKeepsTable(Only(d, COMMIT_GUARD), sha, s, e, d);
    ProcStep(sha, s, e, d, k, 0);
    PaidIsSigned(sha, s, d, k);
    SentStep(Only(d, COMMIT_GUARD), sha, s, e, d, k, Direct);
    SentStep(Only(d, COMMIT_GUARD), sha, s, e, d, k, Escrow);
    AllocStep(Only(d, COMMIT_GUARD), sha, s, e, d, k);
    forall q { ProcStep(sha, s, e, d, k, q); }
    LocksUnsigned(s, e, d, k);
    WillPayLists(s, d, k);
    forall q | HasListed(s, d, k, q) ensures InTime(s0, d, s.clock) { ListedInTime(sha, s0, d, s, k, q); }
    if InTime(s0, d, s'.clock) { InTimeBefore(s0, d, s.clock, s'.clock); }
    if InTime(s0, d, s.clock) && s.rows[d].allocations[k].txSignature.None? { StuckNotFree(s0, d, s, e, k); }
  }

  lemma LocksUnsigned(s: State, e: Event, d: nat, k: nat)
    requires d < |s.rows| && k < |s.rows[d].allocations|
    ensures LocksAnew(s, e, d, k) ==> e.DoTakeLock? && s.rows[d].allocations[k].txSignature.None?
  {
  }

  /** The condition: the allocation is open and not stuck, and the issuer can pay it on top of
      everything that is. */
  ghost predicate Payable(s: State, d: nat, k: nat)
    requires d < |s.rows| && k < |s.rows[d].allocations|
  {
    && IsDue(s.rows[d].allocations[k]) && !Stuck(s, d, k)
    && s.rows[d].allocations[k].payout + StuckSum(s, d) <= s.chain.issuerUsdc
  }

  /** Why the others are not paid twice. */
  ghost predicate Spared(s0: State, d: nat, s: State, k: nat)
    requires d < |s0.rows| && k < |s0.rows[d].allocations|
  {
    if !IsDue(s0.rows[d].allocations[k]) then Over(s, d, k)
    else if Stuck(s0, d, k) then StuckSafe(s0, d, s, k)
    else TooDear(s0, d, s, k)
  }

  lemma ClosedIsOver(sha: Hasher, s: State, d: nat, k: nat)
    requires Inv(Only(d, BOTH_GUARDS), sha, s) && Exposed(s, d) && d < |s.rows| && k < |s.rows[d].allocations|
    requires !IsDue(s.rows[d].allocations[k])
    ensures Over(s, d, k)
  {
    hide Sent, Sum, ClaimRoot, Exclusive, Solvent, RowOk, PhaseOk, Exposed, Stale, Since;
    SinceNow(sha, s, d);
    InvWeakens(Only(d, BOTH_GUARDS), Only(d, COMMIT_GUARD), sha, s);
    assert RowBooks(BOTH_GUARDS, s.log, d, s.rows[d]);
    assert AccountOk(true, true, s.log, d, s.rows[d].allocations[k]);
    forall q ensures !Releaser(s, d, k, q) && !HasListed(s, d, k, q) {
      if s.rows[d].allocations[k].payout == 0 {
        EmptyIsIdle(sha, s, d, k, q);
      } else {
        SignedIsNotReleased(sha, s, d, k, q);
      }
    }
  }

  lemma SignedIsNotReleased(sha: Hasher, s: State, d: nat, k: nat, q: int)
    requires Inv(Only(d, BOTH_GUARDS), sha, s) && d < |s.rows| && k < |s.rows[d].allocations|
    ensures Releaser(s, d, k, q) ==> s.rows[d].allocations[k].txSignature.None?
  {
    hide RowsOk, Exclusive, Solvent, Sent, PhaseOk;
    if Releaser(s, d, k, q) { assert ProcOk(BOTH_GUARDS, sha, s.log, s.rows[d], s.procs[q]); }
  }

  lemma SparedAtFirst(sha: Hasher, s: State, d: nat, k: nat)
    requires Inv(Only(d, BOTH_GUARDS), sha, s) && Exposed(s, d) && d < |s.rows| && k < |s.rows[d].allocations|
    requires !Payable(s, d, k)
    ensures Since(sha, s, d, s) && Spared(s, d, s, k)
  {
    hide Inv, Sent, Exposed, Stale, Since, Over, InTime, StuckSum;
    SinceNow(sha, s, d);
    InvWeakens(Only(d, BOTH_GUARDS), Only(d, COMMIT_GUARD), sha, s);
    PaidIsSigned(sha, s, d, k);
    if !IsDue(s.rows[d].allocations[k]) {
      ClosedIsOver(sha, s, d, k);
    } else if !Stuck(s, d, k) {
      forall j: nat | Stuck(s, d, j) ensures Pristine(s, d, s, j) { StuckIsPristine(s, d, j); }
    }
  }

  lemma {:induction false} SparedRun(sha: Hasher, s0: State, d: nat, k: nat, es: seq<Event>)
    requires Since(sha, s0, d, s0) && k < |s0.rows[d].allocations| && Spared(s0, d, s0, k)
    requires !Payable(s0, d, k) && GuardedAt(COMMIT_GUARD, sha, s0, es, d)
    ensures Since(sha, s0, d, Run(sha, s0, es)) && Spared(s0, d, Run(sha, s0, es), k)
  {
    hide Inv, Step, Guarded, Obeys, Over, StuckSafe, TooDear, Stuck, StuckSum, IsDue, PaysDirectly, Kept;
    if es != [] {
      var n := |es| - 1;
      GuardedPrefix(Only(d, COMMIT_GUARD), sha, s0, es);
      SparedRun(sha, s0, d, k, es[..n]);
      var s := Run(sha, s0, es[..n]);
      SinceStep(sha, s0, d, s, es[n]);
      if !IsDue(s0.rows[d].allocations[k]) {
        OverStep(sha, s0, d, s, es[n], k);
      } else if Stuck(s0, d, k) {
        StuckSafeStep(sha, s0, d, s, es[n], k);
      } else {
        TooDearStep(sha, s0, d, s, es[n], k);
      }
    }
  }

  /** Neither the issuer nor the escrow pays a wallet more than once. */
  lemma OnceEach(sha: Hasher, s: State, d: nat, k: nat, mode: PayoutMode)
    requires Inv(Only(d, COMMIT_GUARD), sha, s) && d < |s.rows| && k < |s.rows[d].allocations|
    ensures |Sent(s.log, d, s.rows[d].allocations[k].wallet, mode)| <= 1
  {
    hide ProcsOk, Exclusive, Solvent, Sent, RowOk;
    assert RowBooks(COMMIT_GUARD, s.log, d, s.rows[d]);
    assert AccountOk(true, false, s.log, d, s.rows[d].allocations[k]);
  }

  lemma SparedOnce(sha: Hasher, s0: State, d: nat, s: State, k: nat)
    requires Since(sha, s0, d, s) && k < |s0.rows[d].allocations| && Spared(s0, d, s, k)
    ensures |Payments(s.log, d, s0.rows[d].allocations[k].wallet)| <= 1
  {
    hide Inv, Sent, Payments, Stuck, PaysDirectly, InTime, NoLocker, IsDue, HasListed, Releaser;
    OnceEach(sha, s, d, k, Direct);
    OnceEach(sha, s, d, k, Escrow);
    PaymentsSplit(s.log, d, s0.rows[d].allocations[k].wallet);
  }

  /** Who does not meet the condition is paid once at most, whatever happens. */
  lemma OthersPaidOnce(sha: Hasher, s: State, d: nat, k: nat, es: seq<Event>)
    requires Inv(Only(d, BOTH_GUARDS), sha, s) && Exposed(s, d) && d < |s.rows| && k < |s.rows[d].allocations|
    requires !Payable(s, d, k) && GuardedAt(COMMIT_GUARD, sha, s, es, d)
    ensures |Payments(Run(sha, s, es).log, d, s.rows[d].allocations[k].wallet)| <= 1
  {
    hide Inv, Run, Since, Spared, Guarded, Payable, Exposed, Payments;
    SparedAtFirst(sha, s, d, k);
    SparedRun(sha, s, d, k, es);
    SparedOnce(sha, s, d, Run(sha, s, es), k);
  }
}
