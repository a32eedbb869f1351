/** What the runs of the lifecycle guarantee, over all interleavings of snapshots, executions, claims,
    failures, crashes and lease expiries: in every run, or where the guards named are respected, on
    the distribution in question unless the whole escrow is. */
module LifecycleTheorems {
  import opened Wrappers
  import opened Sums
  import opened Merkle
  import opened Ledger
  import opened Lifecycle
  import opened LifecycleInv
  import opened LifecycleProof
  import opened LifecycleFrames
  import ClaimTree
  import Money

  // ------------------------------------------------------------------ exclusion

  /** A live process between taking a row's lease and giving it back. */
  predicate Executes(s: State, p: int, d: nat) {
    0 <= p < |s.procs| && Alive(s.clock, s.procs[p]) && s.procs[p].pc.Holding? && s.procs[p].d == d
  }

  /** A live process between locking an allocation and releasing its payout. An allocation is the
      one of its generation at its place. */
  predicate Releases(s: State, p: int, d: nat, generation: nat, k: nat) {
    && 0 <= p < |s.procs| && Alive(s.clock, s.procs[p]) && s.procs[p].d == d
    && s.procs[p].pc.Claiming? && s.procs[p].pc.stage.Locked?
    && s.procs[p].pc.generation == generation && s.procs[p].pc.k == k
  }

  /** In every run, at no time do two live processes pay out one distribution, nor release one
      allocation; and the row says whose lease it is. */
  lemma MutualExclusion(sha: Hasher, s0: State, es: seq<Event>, d: nat, p: int, q: int)
    requires Init(s0)
    ensures var s := Run(sha, s0, es);
      && (Executes(s, p, d) && Executes(s, q, d) ==> p == q)
      && (Executes(s, p, d) ==>
            && d < |s.rows| && s.rows[d].executingUntil == Some(s.procs[p].pc.lease)
            && LeaseHeld(s.rows[d], s.clock))
      && forall generation: nat, k: nat ::
           Releases(s, p, d, generation, k) && Releases(s, q, d, generation, k) ==> p == q
  {
    hide RowsOk, Run, PhaseOk, ClaimOk;
    EveryRunKeeps(sha, s0, es);
    var s := Run(sha, s0, es);
    if Rivals(s, p, q) && s.procs[p].d == d { assert PairOk(s.rows[d], s.procs[p], s.procs[q]); }
  }

  // ------------------------------------------------------------------ at most once, exactly once

  /** A signed allocation of the wallet, paid by exactly the payments `paid`. */
  ghost predicate RecordedPaid(allocs: seq<Alloc>, wallet: string, paid: seq<nat>) {
    exists k ::
      && 0 <= k < |allocs| && allocs[k].wallet == wallet
      && allocs[k].txSignature.Some? && paid == [allocs[k].payout]
  }

  /** What the accounts say of one wallet. */
  lemma SentIsRecorded(each: bool, once: bool, log: seq<Transfer>, d: nat, allocs: seq<Alloc>, wallet: string)
    requires Accounts(each, once, log, d, allocs)
    ensures Sent(log, d, wallet, Direct) == [] || RecordedPaid(allocs, wallet, Sent(log, d, wallet, Direct))
    ensures each ==> Sent(log, d, wallet, Escrow) == [] || RecordedPaid(allocs, wallet, Sent(log, d, wallet, Escrow))
    ensures once ==> Sent(log, d, wallet, Direct) == [] || Sent(log, d, wallet, Escrow) == []
  {
    hide Sent;
    if k :| 0 <= k < |allocs| && allocs[k].wallet == wallet {
      assert AccountOk(each, once, log, d, allocs[k]);
    } else {
      assert Absent(allocs, wallet);
      if once { assert Sent(log, d, wallet, Direct) == []; }
    }
  }

  /** What the invariant says of one distribution, reached or not. */
  lemma BooksAt(g: Rules, sha: Hasher, s: State, d: nat, wallet: string)
    requires Inv(g, sha, s)
    ensures d < |s.rows| ==> RowOk(g(d), sha, s.rows[d]) && RowBooks(g(d), s.log, d, s.rows[d])
    ensures d >= |s.rows| ==> NothingSent(s.log, d, wallet) && FundingCount(s.log, d) == 0
  {
    hide ProcsOk, Exclusive, Solvent, RowOk, RowBooks, Sent;
    if d >= |s.rows| { SilentSums(s.log, d, wallet); }
  }

  /** The payments `paid` are none, or the one recorded. */
  ghost predicate PaidOnce(s: State, d: nat, wallet: string, paid: seq<nat>) {
    paid == [] || (d < |s.rows| && RecordedPaid(s.rows[d].allocations, wallet, paid))
  }

  /** In every run the issuer pays a wallet at most once for a distribution, and then exactly its
      payout, which is recorded as paid. */
  lemma IssuerPaysOnce(sha: Hasher, s0: State, es: seq<Event>, d: nat, wallet: string)
    requires Init(s0)
    ensures var s := Run(sha, s0, es); PaidOnce(s, d, wallet, Sent(s.log, d, wallet, Direct))
  {
    hide Run, Inv, RowOk, Sent, Accounts;
    var g, s := Everywhere(UNGUARDED), Run(sha, s0, es);
    EveryRunKeeps(sha, s0, es);
    BooksAt(g, sha, s, d, wallet);
    if d < |s.rows| {
      SentIsRecorded(Each(g(d), s.rows[d]), Once(g(d), s.rows[d]), s.log, d, s.rows[d].allocations, wallet);
    }
  }

  /** As long as no snapshot commits over the funded row, so does the escrow. */
  lemma EscrowPaysOnce(sha: Hasher, s0: State, es: seq<Event>, d: nat, wallet: string)
    requires Init(s0) && GuardedAt(COMMIT_GUARD, sha, s0, es, d)
    ensures var s := Run(sha, s0, es); PaidOnce(s, d, wallet, Sent(s.log, d, wallet, Escrow))
  {
    hide Run, Inv, RowOk, Sent, Accounts, Guarded;
    var g, s := Only(d, COMMIT_GUARD), Run(sha, s0, es);
    RunKeeps(g, sha, s0, es);
    BooksAt(g, sha, s, d, wallet);
    if d < |s.rows| {
      SentIsRecorded(true, Once(g(d), s.rows[d]), s.log, d, s.rows[d].allocations, wallet);
    }
  }

  /** The escrow of the distribution is not funded. */
  predicate NotFunded(s: State, d: nat) {
    d < |s.rows| ==> !Funded(s.rows[d])
  }

  /** Then, or with both guards, its books are in order in every respect. */
  lemma BooksInOrder(sha: Hasher, s0: State, es: seq<Event>, d: nat, wallet: string)
    requires Init(s0) && (NotFunded(Run(sha, s0, es), d) || GuardedAt(BOTH_GUARDS, sha, s0, es, d))
    ensures var s := Run(sha, s0, es);
      d < |s.rows| ==> RowOk(UNGUARDED, sha, s.rows[d]) && RowBooks(BOTH_GUARDS, s.log, d, s.rows[d])
    ensures var s := Run(sha, s0, es); d >= |s.rows| ==> NothingSent(s.log, d, wallet)
  {
    hide Run, Inv, Sent, Accounts, Guarded, RowOk, FundingCount, TypedTotals, Silent, Sum;
    var s := Run(sha, s0, es);
    EveryRunKeeps(sha, s0, es);
    BooksAt(Everywhere(UNGUARDED), sha, s, d, wallet);
    if GuardedAt(BOTH_GUARDS, sha, s0, es, d) {
      RunKeeps(Only(d, BOTH_GUARDS), sha, s0, es);
      BooksAt(Only(d, BOTH_GUARDS), sha, s, d, wallet);
    }
  }

  /** In every run, a wallet is paid at most once by issuer and escrow together, if the escrow is not
      funded or both guards are respected on the distribution. */
  lemma PaidAtMostOnce(sha: Hasher, s0: State, es: seq<Event>, d: nat, wallet: string)
    requires Init(s0) && (NotFunded(Run(sha, s0, es), d) || GuardedAt(BOTH_GUARDS, sha, s0, es, d))
    ensures var s := Run(sha, s0, es); PaidOnce(s, d, wallet, Payments(s.log, d, wallet))
  {
    hide Run, RowOk, Payments, Sent, Accounts, Guarded;
    var s := Run(sha, s0, es);
    BooksInOrder(sha, s0, es, d, wallet);
    PaymentsSplit(s.log, d, wallet);
    if d < |s.rows| { SentIsRecorded(true, true, s.log, d, s.rows[d].allocations, wallet); }
  }

  /** In every run the escrow of a distribution is funded at most once. */
  lemma FundedAtMostOnce(sha: Hasher, s0: State, es: seq<Event>, d: nat)
    requires Init(s0)
    ensures var s := Run(sha, s0, es);
      FundingCount(s.log, d) <= if d < |s.rows| && Funded(s.rows[d]) then 1 else 0
  {
    hide Run, Inv, RowOk, Accounts, Sent;
    EveryRunKeeps(sha, s0, es);
    BooksAt(Everywhere(UNGUARDED), sha, Run(sha, s0, es), d, "");
  }

  /** In every run, a distribution EXECUTED in direct mode has every positive payout recorded as paid. */
  lemma ExecutedDirectIsRecorded(sha: Hasher, s0: State, es: seq<Event>, d: nat, k: nat)
    requires Init(s0) && d < |Run(sha, s0, es).rows|
    requires var r := Run(sha, s0, es).rows[d]; r.status == Executed && r.payoutMode == Direct && k < |r.allocations|
    ensures var a := Run(sha, s0, es).rows[d].allocations[k]; a.payout > 0 ==> a.txSignature.Some?
  {
    hide Run, Inv, RowBooks, ClaimRoot, Sum;
    EveryRunKeeps(sha, s0, es);
    BooksAt(Everywhere(UNGUARDED), sha, Run(sha, s0, es), d, "");
    assert !IsDue(Run(sha, s0, es).rows[d].allocations[k]);
  }

  /** It was paid, once, in full, and nothing else left the issuer, if the escrow is not funded, or no
      direct execution took the lease of the funded row. */
  lemma ExecutedDirectIsPaid(sha: Hasher, s0: State, es: seq<Event>, d: nat, k: nat)
    requires Init(s0) && (NotFunded(Run(sha, s0, es), d) || GuardedAt(LEASE_GUARD, sha, s0, es, d))
    requires d < |Run(sha, s0, es).rows|
    requires var r := Run(sha, s0, es).rows[d]; r.status == Executed && r.payoutMode == Direct && k < |r.allocations|
    ensures var s := Run(sha, s0, es);
      var a := s.rows[d].allocations[k];
      && (a.payout > 0 ==> Payments(s.log, d, a.wallet) == [a.payout])
      && Some(IssuerOut(s.log, d)) == TotalOf(s.rows[d])
  {
    hide Run, Inv, Payments, Sent, ClaimRoot, Sum, Absent, Guarded, FundingCount;
    var s := Run(sha, s0, es);
    var r := s.rows[d];
    if GuardedAt(LEASE_GUARD, sha, s0, es, d) {
      RunKeeps(Only(d, LEASE_GUARD), sha, s0, es);
      BooksAt(Only(d, LEASE_GUARD), sha, s, d, "");
    }
    BooksInOrder(sha, s0, es, d, "");
    PaidUp(r.allocations);
    PaymentsSplit(s.log, d, r.allocations[k].wallet);
    assert AccountOk(true, true, s.log, d, r.allocations[k]) && !IsDue(r.allocations[k]);
  }

  function TotalOf(r: Row): Option<int> {
    match r.totalAllocated
    case None => None
    case Some(t) => Some(t)
  }

  lemma {:induction false} PaidUp(allocs: seq<Alloc>)
    requires NothingDue(allocs)
    ensures Sum(allocs, SignedPayout) == Sum(allocs, PayoutOf)
  {
    if allocs != [] {
      var n := |allocs| - 1;
      forall k | 0 <= k < n ensures !IsDue(allocs[..n][k]) { assert !IsDue(allocs[k]); }
      PaidUp(allocs[..n]);
      assert !IsDue(allocs[n]);
    }
  }

  // ------------------------------------------------------------------ the confirmed total

  /** In every run: once snapshotted, the total is the sum of the payouts. */
  lemma TotalIsTheSum(sha: Hasher, s0: State, es: seq<Event>, d: nat)
    requires Init(s0) && d < |Run(sha, s0, es).rows| && Run(sha, s0, es).rows[d].status != Draft
    ensures var r := Run(sha, s0, es).rows[d];
      r.totalAllocated.Some? && r.totalAllocated.value == Sum(r.allocations, PayoutOf)
  {
    hide Run, Inv, RowBooks, ClaimRoot, Sum;
    EveryRunKeeps(sha, s0, es);
    BooksAt(Everywhere(UNGUARDED), sha, Run(sha, s0, es), d, "");
  }

  /** The row was SNAPSHOTTED and showed exactly the total typed for the transfer. */
  ghost predicate ShowsTyped(s: State, t: Transfer) {
    !t.Released? ==> t.d < |s.rows| && s.rows[t.d].status == Snapshotted && s.rows[t.d].totalAllocated == Some(t.typed)
  }

  lemma StepShowsTyped(sha: Hasher, s: State, e: Event, i: nat)
    requires Inv(Everywhere(UNGUARDED), sha, s) && |s.log| <= i < |Step(sha, s, e).log|
    ensures ShowsTyped(s, Step(sha, s, e).log[i])
  {
    hide Sum, Sent, RowOk, RowBooks, ClaimOk, PhaseOk, ClaimRoot, SignAll, TransferBatch, Release;
    if e.DoPayBatch? || e.DoFund? {
      assert ProcOk(UNGUARDED, sha, s.log, s.rows[s.procs[e.p].d], s.procs[e.p]);
    }
  }

  /** The step at which the `i`-th transfer was logged. */
  ghost predicate LoggedAt(sha: Hasher, s0: State, es: seq<Event>, n: nat, i: nat) {
    n < |es| && |Run(sha, s0, es[..n]).log| <= i < |Run(sha, s0, es[..n + 1]).log|
  }

  /** In every run, every transfer by the issuer was made while its distribution was SNAPSHOTTED and
      showed exactly the total typed for that execution. */
  lemma {:induction false} PaidAtShownTotal(sha: Hasher, s0: State, es: seq<Event>, i: nat)
    requires Init(s0) && i < |Run(sha, s0, es).log|
    ensures exists n: nat :: LoggedAt(sha, s0, es, n, i) && ShowsTyped(Run(sha, s0, es[..n]), Run(sha, s0, es).log[i])
  {
    hide Step, Inv, ShowsTyped, Moved;
    var m := |es| - 1;
    if i < |Run(sha, s0, es[..m]).log| {
      PaidAtShownTotal(sha, s0, es[..m], i);
      var n: nat :| LoggedAt(sha, s0, es[..m], n, i)
                    && ShowsTyped(Run(sha, s0, es[..m][..n]), Run(sha, s0, es[..m]).log[i]);
      assert es[..m][..n] == es[..n] && es[..m][..n + 1] == es[..n + 1];
      StepLogs(sha, Run(sha, s0, es[..m]), es[m]);
      assert LoggedAt(sha, s0, es, n, i);
    } else {
      EveryRunKeeps(sha, s0, es[..m]);
      StepShowsTyped(sha, Run(sha, s0, es[..m]), es[m], i);
      assert es[..m + 1] == es && LoggedAt(sha, s0, es, m, i);
    }
  }

  /** The transfers by the issuer never exceed the total together, all of them were made under it as
      typed, and at EXECUTED they are it, if the escrow is not funded or both guards are respected on
      the distribution. */
  lemma ConfirmedTotal(sha: Hasher, s0: State, es: seq<Event>, d: nat)
    requires Init(s0) && (NotFunded(Run(sha, s0, es), d) || GuardedAt(BOTH_GUARDS, sha, s0, es, d))
    requires d < |Run(sha, s0, es).rows| && Run(sha, s0, es).rows[d].status != Draft
    ensures var s := Run(sha, s0, es);
      var r := s.rows[d];
      && r.totalAllocated.Some?
      && (forall i :: 0 <= i < |s.log| && s.log[i].d == d && !s.log[i].Released? ==>
            s.log[i].typed == r.totalAllocated.value)
      && 0 <= IssuerOut(s.log, d) <= r.totalAllocated.value
      && (r.status == Executed ==> IssuerOut(s.log, d) == r.totalAllocated.value)
  {
    hide Run, Accounts, ClaimRoot, Sent, Guarded, FundingCount;
    BooksInOrder(sha, s0, es, d, "");
    var r := Run(sha, s0, es).rows[d];
    SumOpenNonNegative(r.allocations);
    if r.status == Executed && !Funded(r) { PaidUp(r.allocations); }
  }

  /** Typing either form the total is shown in passes the confirm gate, and whatever text passes it
      reads as exactly the total. */
  lemma ShownTotalPassesGate(r: Row, text: string)
    requires r.status == Snapshotted && r.totalAllocated.Some?
    ensures var t := r.totalAllocated.value;
      && Money.ParseUsdc(Money.Typed(Money.UsdDisplay(t))) == Ok(t)
      && Money.ParseUsdc(Money.Typed(Money.FormatUnits(t, Money.USDC_DECIMALS))) == Ok(t)
      && Executable(r, t)
    ensures var typed := Money.ParseUsdc(Money.Typed(text));
      typed.Ok? && Executable(r, typed.value) ==>
        typed == Money.ParseUsdc(Money.Typed(Money.UsdDisplay(r.totalAllocated.value)))
  {
    hide Money.ParseUsdc, Money.UsdDisplay, Money.FormatUnits;
    Money.DisplayRoundTrip(r.totalAllocated.value);
    Money.FormatRoundTrip(r.totalAllocated.value);
  }

  // ------------------------------------------------------------------ escrow solvency

  function Owed(r: Row): int { if Funded(r) then Sum(r.allocations, OpenPayout) else 0 }

  /** What the escrow owes over all distributions together. */
  function Liability(rows: seq<Row>): int {
    Sum(rows, Owed)
  }

  lemma {:induction false} OpenIsReserved(allocs: seq<Alloc>)
    ensures Sum(allocs, OpenPayout) <= Sum(allocs, Reserve)
  {
    if allocs != [] { OpenIsReserved(allocs[..|allocs| - 1]); }
  }

  lemma {:induction false} DebtIsReserved(rows: seq<Row>)
    ensures 0 <= Liability(rows) <= Reserved(rows)
  {
    if rows != [] {
      var allocs := rows[|rows| - 1].allocations;
      DebtIsReserved(rows[..|rows| - 1]);
      OpenIsReserved(allocs);
      SumOpenNonNegative(allocs);
    }
  }

  /** As long as no snapshot commits over a funded row, the escrow covers what every funded
      distribution still owes, all of them together. */
  lemma EscrowSolvent(sha: Hasher, s0: State, es: seq<Event>)
    requires Init(s0) && Guarded(Everywhere(COMMIT_GUARD), sha, s0, es)
    ensures var s := Run(sha, s0, es); 0 <= Liability(s.rows) <= Balance(s.chain.usdc, ESCROW)
  {
    hide Run, RowsOk, ProcsOk, Exclusive;
    RunKeeps(Everywhere(COMMIT_GUARD), sha, s0, es);
    DebtIsReserved(Run(sha, s0, es).rows);
  }

  /** And a live claim that has taken its lock is never turned away for lack of money. */
  lemma LockedClaimIsCovered(sha: Hasher, s0: State, es: seq<Event>, p: nat, generation: nat, k: nat)
    requires Init(s0) && Guarded(Everywhere(COMMIT_GUARD), sha, s0, es)
    requires var s := Run(sha, s0, es); p < |s.procs| && Releases(s, p, s.procs[p].d, generation, k)
    ensures var s := Run(sha, s0, es); s.procs[p].pc.payout <= Balance(s.chain.usdc, ESCROW)
  {
    hide Run, Exclusive, RowsOk, Sent, Reserved;
    RunKeeps(Everywhere(COMMIT_GUARD), sha, s0, es);
    var s := Run(sha, s0, es);
    var d := s.procs[p].d;
    assert ProcOk(COMMIT_GUARD, sha, s.log, s.rows[d], s.procs[p]);
    OneOfManyReserves(s.rows, d, k);
  }

  lemma OneOfManyReserves(rows: seq<Row>, d: nat, k: nat)
    requires d < |rows| && Funded(rows[d]) && k < |rows[d].allocations|
    ensures Reserve(rows[d].allocations[k]) <= Reserved(rows)
  {
    var allocs := rows[d].allocations;
    SumWithout(allocs, k, Reserve);
    SumNonNegative(allocs[..k] + allocs[k + 1..], Reserve);
    SumWithout(rows, d, RowReserve);
    forall r | r in rows[..d] + rows[d + 1..] ensures RowReserve(r) >= 0 { SumNonNegative(r.allocations, Reserve); }
    SumNonNegative(rows[..d] + rows[d + 1..], RowReserve);
  }

  // ------------------------------------------------------------------ conservation

  /** What a logged transfer does to a wallet's balance. */
  function Into(wallet: string): Transfer -> int {
    (t: Transfer) =>
      match t
      case Paid(_, w, amount, _) => if w == wallet then amount else 0
      case Fundings(_, amount, _) => if wallet == ESCROW then amount else 0
      case Released(_, w, amount) => (if w == wallet then amount else 0) - (if wallet == ESCROW then amount else 0)
  }

  /** What it takes from the issuer. */
  function FromIssuer(t: Transfer): int {
    if t.Released? then 0 else t.amount
  }

  /** The ledger changed by exactly the transfers `more`, and no unit was created or lost. */
  ghost predicate Moved(before: Chain, after: Chain, more: seq<Transfer>) {
    && Total(after) == Total(before)
    && after.issuerUsdc == before.issuerUsdc - Sum(more, FromIssuer)
    && forall w :: Balance(after.usdc, w) == Balance(before.usdc, w) + Sum(more, Into(w))
  }

  lemma {:induction false} NotesMatch(d: nat, batch: seq<Due>, typed: nat, wallet: string)
    ensures Sum(PaidNotes(d, batch, typed), FromIssuer) == Sum(PaymentsFor(batch), Amount)
    ensures Sum(PaidNotes(d, batch, typed), Into(wallet)) == Sum(PaymentsFor(batch), ReceivedBy(wallet))
  {
    if batch != [] {
      var n := |batch| - 1;
      NotesMatch(d, batch[..n], typed, wallet);
      assert PaidNotes(d, batch, typed)[..n] == PaidNotes(d, batch[..n], typed);
      assert PaymentsFor(batch)[..n] == PaymentsFor(batch[..n]);
    }
  }

  lemma BatchMoves(c: Chain, d: nat, batch: seq<Due>, typed: nat)
    requires TransferBatch(c, PaymentsFor(batch)).Some?
    ensures Moved(c, TransferBatch(c, PaymentsFor(batch)).value, PaidNotes(d, batch, typed))
  {
    hide TransferBatch, Total, Sum;
    TransferConserves(c, PaymentsFor(batch), "");
    NotesMatch(d, batch, typed, "");
    var after := TransferBatch(c, PaymentsFor(batch)).value;
    forall w ensures Balance(after.usdc, w) == Balance(c.usdc, w) + Sum(PaidNotes(d, batch, typed), Into(w)) {
      TransferConserves(c, PaymentsFor(batch), w);
      NotesMatch(d, batch, typed, w);
    }
  }

  lemma FundingMoves(c: Chain, d: nat, amount: nat, typed: nat)
    requires TransferBatch(c, [Payment(ESCROW, amount)]).Some?
    ensures Moved(c, TransferBatch(c, [Payment(ESCROW, amount)]).value, [Fundings(d, amount, typed)])
  {
    hide TransferBatch, Total, Sum;
    var x, t := Payment(ESCROW, amount), Fundings(d, amount, typed);
    SumOne(x, Amount);
    SumOne(t, FromIssuer);
    TransferConserves(c, [x], "");
    var after := TransferBatch(c, [x]).value;
    forall w ensures Balance(after.usdc, w) == Balance(c.usdc, w) + Sum([t], Into(w)) {
      TransferConserves(c, [x], w);
      SumOne(x, ReceivedBy(w));
      SumOne(t, Into(w));
    }
  }

  lemma ReleaseMoves(c: Chain, d: nat, wallet: string, amount: nat)
    requires Release(c, [Payment(wallet, amount)]).Some?
    ensures Moved(c, Release(c, [Payment(wallet, amount)]).value, [Released(d, wallet, amount)])
  {
    hide Release, Total, Sum;
    var x, t := Payment(wallet, amount), Released(d, wallet, amount);
    SumOne(x, Amount);
    SumOne(t, FromIssuer);
    ReleaseConserves(c, [x], "");
    var after := Release(c, [x]).value;
    forall w ensures Balance(after.usdc, w) == Balance(c.usdc, w) + Sum([t], Into(w)) {
      ReleaseConserves(c, [x], w);
      SumOne(x, ReceivedBy(w));
      SumOne(t, Into(w));
    }
  }

  /** The step from `s` to `s'` only adds to the log, and moves exactly what it adds. */
  ghost predicate Logged(s: State, s': State) {
    s.log <= s'.log && Moved(s.chain, s'.chain, s'.log[|s.log|..])
  }

  lemma NothingLogged(s: State, s': State)
    requires s'.log == s.log && s'.chain == s.chain
    ensures Logged(s, s')
  {
    assert s'.log[|s.log|..] == [];
  }

  lemma MoreLogged(s: State, s': State, more: seq<Transfer>)
    requires s'.log == s.log + more && Moved(s.chain, s'.chain, more)
    ensures Logged(s, s')
  {
    assert s'.log[|s.log|..] == more;
  }

  lemma PayBatchLogs(s: State, p: nat)
    ensures Logged(s, PayBatch(s, p))
  {
    hide Logged, Moved, TransferBatch, SignAll;
    var s' := PayBatch(s, p);
    if s'.log == s.log && s'.chain == s.chain {
      NothingLogged(s, s');
    } else {
      var batch := NextBatch(s.procs[p].pc.phase.unpaid);
      BatchMoves(s.chain, s.procs[p].d, batch, s.procs[p].pc.typed);
      MoreLogged(s, s', PaidNotes(s.procs[p].d, batch, s.procs[p].pc.typed));
    }
  }

  lemma FundLogs(s: State, p: nat)
    ensures Logged(s, Fund(s, p))
  {
    hide Logged, Moved, TransferBatch;
    var s' := Fund(s, p);
    if s'.log == s.log && s'.chain == s.chain {
      NothingLogged(s, s');
    } else {
      var d, pc := s.procs[p].d, s.procs[p].pc;
      FundingMoves(s.chain, d, pc.phase.remaining, pc.typed);
      MoreLogged(s, s', [Fundings(d, pc.phase.remaining, pc.typed)]);
    }
  }

  lemma ReleasePayoutLogs(s: State, p: nat)
    ensures Logged(s, ReleasePayout(s, p))
  {
    hide Logged, Moved, Release;
    var s' := ReleasePayout(s, p);
    if s'.log == s.log && s'.chain == s.chain {
      NothingLogged(s, s');
    } else {
      var d, pc := s.procs[p].d, s.procs[p].pc;
      ReleaseMoves(s.chain, d, pc.wallet, pc.payout);
      MoreLogged(s, s', [Released(d, pc.wallet, pc.payout)]);
    }
  }

  lemma StepLogs(sha: Hasher, s: State, e: Event)
    ensures Logged(s, Step(sha, s, e))
  {
    hide Logged, PayBatch, Fund, ReleasePayout;
    match e
    case DoPayBatch(p) => PayBatchLogs(s, p);
    case DoFund(p) => FundLogs(s, p);
    case DoReleasePayout(p) => ReleasePayoutLogs(s, p);
    case _ => NothingLogged(s, Step(sha, s, e));
  }

  lemma MovesCompose(a: Chain, b: Chain, c: Chain, xs: seq<Transfer>, ys: seq<Transfer>)
    requires Moved(a, b, xs) && Moved(b, c, ys)
    ensures Moved(a, c, xs + ys)
  {
    SumConcat(xs, ys, FromIssuer);
    forall w { SumConcat(xs, ys, Into(w)); }
  }

  /** Over every run: issuer, escrow and holders together hold what they held,
      and every balance is its first value changed by the logged transfers. */
  lemma {:induction false} MoneyIsConserved(sha: Hasher, s0: State, es: seq<Event>)
    ensures Logged(s0, Run(sha, s0, es))
  {
    hide Moved, Step;
    if es == [] {
      NothingLogged(s0, s0);
    } else {
      var n := |es| - 1;
      MoneyIsConserved(sha, s0, es[..n]);
      var mid, last := Run(sha, s0, es[..n]), Run(sha, s0, es);
      StepLogs(sha, mid, es[n]);
      MovesCompose(s0.chain, mid.chain, last.chain, mid.log[|s0.log|..], last.log[|mid.log|..]);
      assert mid.log[|s0.log|..] + last.log[|mid.log|..] == last.log[|s0.log|..];
    }
  }

  // ------------------------------------------------------------------ what a holder has

  function Itself(n: nat): int { n }

  /** Everything paid to a wallet for the first `n` distributions. */
  function PaidOver(log: seq<Transfer>, n: nat, wallet: string): int {
    if n == 0 then 0 else PaidOver(log, n - 1, wallet) + Sum(Payments(log, n - 1, wallet), Itself)
  }

  lemma {:induction false} PaidOverAppends(log: seq<Transfer>, t: Transfer, n: nat, wallet: string)
    ensures PaidOver(log + [t], n, wallet) ==
      PaidOver(log, n, wallet) + if !t.Fundings? && t.wallet == wallet && t.d < n then t.amount else 0
  {
    hide Payments, Sum;
    if n > 0 {
      var before := Payments(log, n - 1, wallet);
      PaidOverAppends(log, t, n - 1, wallet);
      PaymentsAppend(log, t, n - 1, wallet);
      SumConcat(before, [t.amount], Itself);
      SumOne(t.amount, Itself);
      assert before + [] == before;
    }
  }

  lemma {:induction false} NothingPaid(n: nat, wallet: string)
    ensures PaidOver([], n, wallet) == 0
  {
    if n > 0 { NothingPaid(n - 1, wallet); }
  }

  lemma {:induction false} IntoIsPaid(log: seq<Transfer>, n: nat, wallet: string)
    requires wallet != ESCROW && forall i :: 0 <= i < |log| ==> log[i].d < n
    ensures Sum(log, Into(wallet)) == PaidOver(log, n, wallet)
  {
    hide PaidOver;
    if log == [] {
      NothingPaid(n, wallet);
    } else {
      var k := |log| - 1;
      IntoIsPaid(log[..k], n, wallet);
      PaidOverAppends(log[..k], log[k], n, wallet);
      assert log == log[..k] + [log[k]];
    }
  }

  function RecordedTo(wallet: string): Alloc -> int {
    (a: Alloc) => if a.wallet == wallet && a.txSignature.Some? then a.payout else 0
  }

  /** The payouts recorded as made to a wallet in a row. */
  function RecordedIn(wallet: string): Row -> int {
    (r: Row) => Sum(r.allocations, RecordedTo(wallet))
  }

  lemma {:induction false} NotListed(allocs: seq<Alloc>, wallet: string)
    requires forall k :: 0 <= k < |allocs| ==> allocs[k].wallet != wallet
    ensures Sum(allocs, RecordedTo(wallet)) == 0
  {
    if allocs != [] { NotListed(allocs[..|allocs| - 1], wallet); }
  }

  lemma PaidIsRecorded(log: seq<Transfer>, d: nat, allocs: seq<Alloc>, wallet: string)
    requires Accounts(true, true, log, d, allocs) && OneRowPerWallet(allocs)
    ensures Sum(Payments(log, d, wallet), Itself) == Sum(allocs, RecordedTo(wallet))
  {
    hide Payments, Sent;
    PaymentsSplit(log, d, wallet);
    if k :| 0 <= k < |allocs| && allocs[k].wallet == wallet {
      assert AccountOk(true, true, log, d, allocs[k]);
      SumWithout(allocs, k, RecordedTo(wallet));
      var others := allocs[..k] + allocs[k + 1..];
      forall j | 0 <= j < |others| ensures others[j].wallet != wallet {
        assert others[j] == if j < k then allocs[j] else allocs[j + 1];
      }
      NotListed(others, wallet);
      SumOne(allocs[k].payout, Itself);
    } else {
      assert Absent(allocs, wallet) && Sent(log, d, wallet, Direct) == [];
      NotListed(allocs, wallet);
    }
  }

  lemma {:induction false} AllPaidIsRecorded(log: seq<Transfer>, rows: seq<Row>, n: nat, wallet: string)
    requires n <= |rows|
    requires forall d :: 0 <= d < |rows| ==>
      Accounts(true, true, log, d, rows[d].allocations) && OneRowPerWallet(rows[d].allocations)
    ensures PaidOver(log, n, wallet) == Sum(rows[..n], RecordedIn(wallet))
  {
    hide Accounts, OneRowPerWallet;
    if n > 0 {
      AllPaidIsRecorded(log, rows, n - 1, wallet);
      assert rows[..n][..n - 1] == rows[..n - 1];
      PaidIsRecorded(log, n - 1, rows[n - 1].allocations, wallet);
    }
  }

  lemma AccountsAt(g: Rules, sha: Hasher, s: State, d: nat, once: bool)
    requires Inv(g, sha, s) && d < |s.rows| && g(d).commit && (once ==> g(d).lease)
    ensures Accounts(true, once, s.log, d, s.rows[d].allocations) && OneRowPerWallet(s.rows[d].allocations)
  {
    hide ProcsOk, Exclusive, Solvent, Accounts, Sent, FundingCount, Sum, ClaimRoot;
    assert RowOk(g(d), sha, s.rows[d]) && RowBooks(g(d), s.log, d, s.rows[d]);
    AccountsCarry(true, Once(g(d), s.rows[d]), true, once, s.log, s.log, d, s.rows[d].allocations);
  }

  /** With both guards, a holder has what they started with and exactly the payouts recorded as made
      to them, over all distributions and both payout modes. */
  lemma HolderHasRecordedPayouts(sha: Hasher, s0: State, es: seq<Event>, wallet: string)
    requires Init(s0) && Guarded(Everywhere(BOTH_GUARDS), sha, s0, es) && wallet != ESCROW
    ensures var s := Run(sha, s0, es);
      Balance(s.chain.usdc, wallet) == Balance(s0.chain.usdc, wallet) + Sum(s.rows, RecordedIn(wallet))
  {
    hide Run, ProcsOk, RowOk, RowBooks, Exclusive, Solvent, Accounts, OneRowPerWallet;
    RunKeeps(Everywhere(BOTH_GUARDS), sha, s0, es);
    MoneyIsConserved(sha, s0, es);
    var s := Run(sha, s0, es);
    assert s.log[|s0.log|..] == s.log && s.rows[..|s.rows|] == s.rows;
    IntoIsPaid(s.log, |s.rows|, wallet);
    forall d | 0 <= d < |s.rows|
      ensures Accounts(true, true, s.log, d, s.rows[d].allocations) && OneRowPerWallet(s.rows[d].allocations)
    {
      AccountsAt(Everywhere(BOTH_GUARDS), sha, s, d, true);
    }
    AllPaidIsRecorded(s.log, s.rows, |s.rows|, wallet);
  }

  /** Paid once or twice what is recorded. */
  predicate OnceOrTwice(paid: int, recorded: int) {
    recorded <= paid <= 2 * recorded
  }

  lemma PaidOnceOrTwice(log: seq<Transfer>, d: nat, allocs: seq<Alloc>, wallet: string)
    requires Accounts(true, false, log, d, allocs) && OneRowPerWallet(allocs)
    ensures OnceOrTwice(Sum(Payments(log, d, wallet), Itself), Sum(allocs, RecordedTo(wallet)))
  {
    hide Payments, Sent, Sum;
    PaymentsSplit(log, d, wallet);
    if k :| 0 <= k < |allocs| && allocs[k].wallet == wallet {
      assert AccountOk(true, false, log, d, allocs[k]);
      RecordedOnce(allocs, k);
      SplitSums(Payments(log, d, wallet), Sent(log, d, wallet, Direct), Sent(log, d, wallet, Escrow), allocs[k].payout);
    } else {
      assert Absent(allocs, wallet) && Sent(log, d, wallet, Direct) == [];
      NotListed(allocs, wallet);
      SplitSums(Payments(log, d, wallet), [], [], 0);
    }
  }

  lemma RecordedOnce(allocs: seq<Alloc>, k: nat)
    requires OneRowPerWallet(allocs) && k < |allocs|
    ensures Sum(allocs, RecordedTo(allocs[k].wallet)) == SignedPayout(allocs[k])
  {
    var others := allocs[..k] + allocs[k + 1..];
    SumWithout(allocs, k, RecordedTo(allocs[k].wallet));
    forall j | 0 <= j < |others| ensures others[j].wallet != allocs[k].wallet {
      assert others[j] == if j < k then allocs[j] else allocs[j + 1];
    }
    NotListed(others, allocs[k].wallet);
  }

  lemma SplitSums(all: seq<nat>, direct: seq<nat>, escrow: seq<nat>, payout: nat)
    requires Splits(all, direct, escrow)
    requires (direct == [] || direct == [payout]) && (escrow == [] || escrow == [payout])
    ensures Sum(all, Itself) == |all| * payout && |all| <= 2 && (|all| == 0 <==> direct == [] && escrow == [])
  {
    if |all| == 2 {
      assert all[0] in all && all[1] in all;
      assert all == [payout] + [payout];
      SumConcat([payout], [payout], Itself);
    }
    SumOne(payout, Itself);
  }

  lemma {:induction false} AllPaidOnceOrTwice(log: seq<Transfer>, rows: seq<Row>, n: nat, wallet: string)
    requires n <= |rows|
    requires forall d :: 0 <= d < |rows| ==>
      Accounts(true, false, log, d, rows[d].allocations) && OneRowPerWallet(rows[d].allocations)
    ensures OnceOrTwice(PaidOver(log, n, wallet), Sum(rows[..n], RecordedIn(wallet)))
  {
    hide Accounts, OneRowPerWallet;
    if n > 0 {
      AllPaidOnceOrTwice(log, rows, n - 1, wallet);
      assert rows[..n][..n - 1] == rows[..n - 1];
      PaidOnceOrTwice(log, n - 1, rows[n - 1].allocations, wallet);
    }
  }

  /** As long as no snapshot commits over a funded row, a holder has at least that, and at most the
      recorded payouts once more. */
  lemma HolderHasAtLeastRecorded(sha: Hasher, s0: State, es: seq<Event>, wallet: string)
    requires Init(s0) && Guarded(Everywhere(COMMIT_GUARD), sha, s0, es) && wallet != ESCROW
    ensures var s := Run(sha, s0, es);
      OnceOrTwice(Balance(s.chain.usdc, wallet) - Balance(s0.chain.usdc, wallet), Sum(s.rows, RecordedIn(wallet)))
  {
    hide Run, ProcsOk, RowOk, RowBooks, Exclusive, Solvent, Accounts, OneRowPerWallet;
    RunKeeps(Everywhere(COMMIT_GUARD), sha, s0, es);
    MoneyIsConserved(sha, s0, es);
    var s := Run(sha, s0, es);
    assert s.log[|s0.log|..] == s.log && s.rows[..|s.rows|] == s.rows;
    IntoIsPaid(s.log, |s.rows|, wallet);
    forall d | 0 <= d < |s.rows|
      ensures Accounts(true, false, s.log, d, s.rows[d].allocations) && OneRowPerWallet(s.rows[d].allocations)
    {
      AccountsAt(Everywhere(COMMIT_GUARD), sha, s, d, false);
    }
    AllPaidOnceOrTwice(s.log, s.rows, |s.rows|, wallet);
  }

  // ------------------------------------------------------------------ the table is frozen

  /** A payout is recorded or the distribution is executed; with the commit guard, or the escrow is
      funded. */
  predicate Fixed(g: Guards, r: Row) {
    AnySigned(r.allocations) || r.status == Executed || (g.commit && Funded(r))
  }

  lemma KeptStaysFixed(g: Guards, r: Row, r': Row)
    requires Kept(r, r') && Fixed(g, r)
    ensures Fixed(g, r')
  {
    if AnySigned(r.allocations) {
      var k :| 0 <= k < |r.allocations| && r.allocations[k].txSignature.Some?;
      assert r'.allocations[k].txSignature.Some?;
    }
  }

  /** No step touches a fixed table. */
  lemma StepKeepsTable(g: Rules, sha: Hasher, s: State, e: Event, d: nat)
    requires d < |s.rows| && Fixed(g(d), s.rows[d]) && Obeys(g, s, e)
    ensures d < |Step(sha, s, e).rows| && Kept(s.rows[d], Step(sha, s, e).rows[d])
  {
    hide Step, PcMoves;
    StepFrames(sha, s, e);
  }

  lemma {:induction false} RunKeepsTable(g: Rules, sha: Hasher, s: State, es: seq<Event>, d: nat)
    requires d < |s.rows| && Fixed(g(d), s.rows[d]) && Guarded(g, sha, s, es)
    ensures d < |Run(sha, s, es).rows| && Kept(s.rows[d], Run(sha, s, es).rows[d])
  {
    hide Step, Obeys, Fixed, Guarded;
    if es != [] {
      var n := |es| - 1;
      GuardedPrefix(g, sha, s, es);
      RunKeepsTable(g, sha, s, es[..n], d);
      KeptStaysFixed(g(d), s.rows[d], Run(sha, s, es[..n]).rows[d]);
      StepKeepsTable(g, sha, Run(sha, s, es[..n]), es[n], d);
    }
  }

  /** Once a payout is recorded or the distribution executed, the allocation table and its total stay
      as they are, whatever happens next, in every run. */
  lemma TableIsFrozen(sha: Hasher, s: State, es: seq<Event>, d: nat)
    requires d < |s.rows| && (AnySigned(s.rows[d].allocations) || s.rows[d].status == Executed)
    ensures d < |Run(sha, s, es).rows| && Kept(s.rows[d], Run(sha, s, es).rows[d])
  {
    hide Run, Guarded, Kept;
    AnyRun(sha, s, es);
    RunKeepsTable(Everywhere(UNGUARDED), sha, s, es, d);
  }

  /** Once the escrow is funded they do as long as no snapshot commits over the funded row. */
  lemma FundedTableIsFrozen(sha: Hasher, s: State, es: seq<Event>, d: nat)
    requires d < |s.rows| && Funded(s.rows[d]) && GuardedAt(COMMIT_GUARD, sha, s, es, d)
    ensures d < |Run(sha, s, es).rows| && Kept(s.rows[d], Run(sha, s, es).rows[d])
  {
    hide Run, Guarded, Kept;
    RunKeepsTable(Only(d, COMMIT_GUARD), sha, s, es, d);
  }

  // ------------------------------------------------------------------ claims

  lemma {:induction false} ClaimRowsAre(id: string, allocs: seq<Alloc>)
    requires OneRowPerWallet(allocs)
    ensures DistinctWallets(ClaimRows(id, allocs))
    ensures forall x :: x in ClaimRows(id, allocs) <==>
      exists k :: 0 <= k < |allocs| && allocs[k].payout > 0 && x == ClaimRow(id, allocs[k].wallet, allocs[k].payout)
  {
    if allocs != [] {
      var n := |allocs| - 1;
      ClaimRowsAre(id, allocs[..n]);
      var a, rows := allocs[n], ClaimRows(id, allocs[..n]);
      forall x | x in rows ensures x.wallet != a.wallet {
        var k :| 0 <= k < n && allocs[..n][k].payout > 0
                 && x == ClaimRow(id, allocs[..n][k].wallet, allocs[..n][k].payout);
      }
      forall x ensures x in ClaimRows(id, allocs) <==>
        exists k :: 0 <= k < |allocs| && allocs[k].payout > 0 && x == ClaimRow(id, allocs[k].wallet, allocs[k].payout)
      {
        if x in rows {
          var k :| 0 <= k < n && allocs[..n][k].payout > 0
                   && x == ClaimRow(id, allocs[..n][k].wallet, allocs[..n][k].payout);
          assert allocs[k] == allocs[..n][k];
        }
        if k :| 0 <= k < n && allocs[k].payout > 0 && x == ClaimRow(id, allocs[k].wallet, allocs[k].payout) {
          assert allocs[k] == allocs[..n][k];
        }
      }
    }
  }

  /** The proof `getClaimProof` serves for a wallet. */
  function ServedProof(sha: Hasher, r: Row, wallet: string): seq<string> {
    var rows := ClaimRows(r.id, r.allocations);
    if rows == [] then [] else ClaimTree.HexAll(Path(sha, TreeOf(rows), wallet))
  }

  /** As long as no snapshot commits over the funded row, the integrity check passes on it, unless it
      was executed directly. */
  lemma FundedRowLoads(sha: Hasher, s0: State, es: seq<Event>, d: nat)
    requires Init(s0) && GuardedAt(COMMIT_GUARD, sha, s0, es, d)
    requires d < |Run(sha, s0, es).rows| && Funded(Run(sha, s0, es).rows[d])
    ensures var r := Run(sha, s0, es).rows[d];
      && r.merkleRoot == Some(ClaimRoot(sha, r))
      && (LoadsFunded(sha, r) || (r.status == Executed && r.payoutMode == Direct))
  {
    hide Run, Inv, RowBooks, ClaimRoot, Sum, Guarded;
    RunKeeps(Only(d, COMMIT_GUARD), sha, s0, es);
    BooksAt(Only(d, COMMIT_GUARD), sha, Run(sha, s0, es), d, "");
  }

  /** In every run, where the integrity check passes, the proof served for any wallet with a payout
      verifies against the stored root. */
  lemma ServedProofsVerify(sha: Hasher, s0: State, es: seq<Event>, d: nat, k: nat)
    requires Init(s0) && d < |Run(sha, s0, es).rows| && LoadsFunded(sha, Run(sha, s0, es).rows[d])
    ensures var r := Run(sha, s0, es).rows[d];
      k < |r.allocations| && r.allocations[k].payout > 0 ==>
        && FindPayable(r.allocations, r.allocations[k].wallet, 0) == Some(k)
        && var x := ClaimRow(r.id, r.allocations[k].wallet, r.allocations[k].payout);
           ClaimTree.Verifies(sha, x, ServedProof(sha, r, x.wallet), r.merkleRoot.value)
  {
    hide Run, ProcsOk, Exclusive, Solvent, RowBooks, ClaimTree.Verifies, Path, TreeOf, Root, Sum;
    EveryRunKeeps(sha, s0, es);
    var r := Run(sha, s0, es).rows[d];
    assert RowOk(UNGUARDED, sha, r);
    if k < |r.allocations| && r.allocations[k].payout > 0 { FundedRowServes(sha, r, k); }
  }

  lemma FundedRowServes(sha: Hasher, r: Row, k: nat)
    requires OneRowPerWallet(r.allocations) && LoadsFunded(sha, r)
    requires k < |r.allocations| && r.allocations[k].payout > 0
    ensures FindPayable(r.allocations, r.allocations[k].wallet, 0) == Some(k)
    ensures var x := ClaimRow(r.id, r.allocations[k].wallet, r.allocations[k].payout);
      ClaimTree.Verifies(sha, x, ServedProof(sha, r, x.wallet), r.merkleRoot.value)
  {
    hide ClaimTree.Verifies, Path, TreeOf, Root;
    var x := ClaimRow(r.id, r.allocations[k].wallet, r.allocations[k].payout);
    ClaimRowsAre(r.id, r.allocations);
    ClaimTree.StoredProofVerifies(sha, ClaimRows(r.id, r.allocations), x);
    OnlyPayable(r.allocations, k, 0);
  }

  lemma OnlyPayable(allocs: seq<Alloc>, k: nat, from: nat)
    requires OneRowPerWallet(allocs) && from <= k < |allocs| && allocs[k].payout > 0
    ensures FindPayable(allocs, allocs[k].wallet, from) == Some(k)
    decreases k - from
  {
    if from < k { OnlyPayable(allocs, k, from + 1); }
  }

  /** And no other proof does: in every run, where the integrity check passes, whatever verifies
      against the stored root is a payout of the table. */
  lemma VerifiedIsAnAllocation(sha: Hasher, s0: State, es: seq<Event>, d: nat, x: ClaimRow, proof: seq<string>)
    requires Init(s0) && d < |Run(sha, s0, es).rows| && LoadsFunded(sha, Run(sha, s0, es).rows[d])
    requires var r := Run(sha, s0, es).rows[d];
      && ClaimTree.Verifies(sha, x, proof, r.merkleRoot.value)
      && PipeFree(x.wallet) && (forall k :: 0 <= k < |r.allocations| ==> PipeFree(r.allocations[k].wallet))
      && CollisionFree(sha, BuildPreimages(sha, ClaimRows(r.id, r.allocations))
                            + CheckPreimages(sha, x, ClaimTree.UnhexAll(proof)))
    ensures var r := Run(sha, s0, es).rows[d];
      && x.distributionId == r.id
      && exists k ::
           0 <= k < |r.allocations| && r.allocations[k].wallet == x.wallet && r.allocations[k].payout == x.payout
  {
    hide Run, ProcsOk, Exclusive, Solvent, RowBooks, Path, TreeOf, Root, CollisionFree, PipeFree, Sum;
    EveryRunKeeps(sha, s0, es);
    var r := Run(sha, s0, es).rows[d];
    assert RowOk(UNGUARDED, sha, r);
    var rows := ClaimRows(r.id, r.allocations);
    ClaimRowsAre(r.id, r.allocations);
    ClaimTree.VerifiedIsARow(sha, rows, x, proof);
  }
}
