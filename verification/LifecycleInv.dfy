/** What the reachable states of the lifecycle satisfy, row by row and process by process: in every
    run, and of those distributions on which one or both of two guards are respected that the
    handlers do not have. */
module LifecycleInv {
  import opened Wrappers
  import opened Sums
  import opened Merkle
  import opened Ledger
  import opened Lifecycle
  import Text
  import Sorting

  // ------------------------------------------------------------------ the two guards

  /** `commit`: no snapshot commits over a row whose escrow is funded.
      `lease`: no direct execution takes the lease of such a row. */
  datatype Guards = Guards(commit: bool, lease: bool)

  const UNGUARDED: Guards := Guards(false, false)
  const COMMIT_GUARD: Guards := Guards(true, false)
  const LEASE_GUARD: Guards := Guards(false, true)
  const BOTH_GUARDS: Guards := Guards(true, true)

  /** The guards asked of the steps on each distribution. */
  type Rules = nat -> Guards

  function Everywhere(g: Guards): Rules { (d: nat) => g }

  function Only(d: nat, g: Guards): Rules { (e: nat) => if e == d then g else UNGUARDED }

  ghost predicate AllCommit(g: Rules) {
    forall d: nat :: g(d).commit
  }

  /** Nothing is asked that is not asked by the others. */
  ghost predicate Milder(h: Rules, g: Rules) {
    forall d: nat :: (h(d).commit ==> g(d).commit) && (h(d).lease ==> g(d).lease)
  }

  /** A direct execution is about to take the lease of a row whose escrow is funded. */
  predicate TakesFundedDirectly(s: State, p: nat, now: int) {
    && Runs(s, p) && s.procs[p].pc.Executing? && s.procs[p].pc.mode == Direct
    && LeaseOpen(s.rows[s.procs[p].d], s.procs[p].pc.typed, now) && Funded(s.rows[s.procs[p].d])
  }

  /** A snapshot is about to replace the table of a row whose escrow is funded. */
  predicate CommitsFunded(s: State, p: nat) {
    && Runs(s, p) && s.procs[p].pc.Snapshotting?
    && Commits(s.rows[s.procs[p].d], s.clock) && Funded(s.rows[s.procs[p].d])
  }

  predicate Obeys(g: Rules, s: State, e: Event) {
    match e
    case DoTakeLease(p, _, now) => TakesFundedDirectly(s, p, now) ==> !g(s.procs[p].d).lease
    case DoCommitSnapshot(p) => CommitsFunded(s, p) ==> !g(s.procs[p].d).commit
    case _ => true
  }

  /** Every event of the run respects the guards where it happens. */
  ghost predicate Guarded(g: Rules, sha: Hasher, s: State, es: seq<Event>) {
    forall i :: 0 <= i < |es| ==> Obeys(g, Run(sha, s, es[..i]), es[i])
  }

  /** The steps on one distribution do. */
  ghost predicate GuardedAt(g: Guards, sha: Hasher, s: State, es: seq<Event>, d: nat) {
    Guarded(Only(d, g), sha, s, es)
  }

  // ------------------------------------------------------------------ reading the log

  /** The amounts sent to a wallet for a distribution, in order, by the issuer or the escrow. */
  function Payments(log: seq<Transfer>, d: nat, wallet: string): seq<nat> {
    if log == [] then []
    else
      var t := log[|log| - 1];
      Payments(log[..|log| - 1], d, wallet)
        + if !t.Fundings? && t.d == d && t.wallet == wallet then [t.amount] else []
  }

  predicate SentBy(t: Transfer, d: nat, wallet: string, mode: PayoutMode) {
    t.d == d && !t.Fundings? && t.wallet == wallet && (t.Paid? <==> mode == Direct)
  }

  /** Those sent by the issuer directly, or those released by the escrow. */
  function Sent(log: seq<Transfer>, d: nat, wallet: string, mode: PayoutMode): seq<nat> {
    if log == [] then []
    else
      var t := log[|log| - 1];
      Sent(log[..|log| - 1], d, wallet, mode) + if SentBy(t, d, wallet, mode) then [t.amount] else []
  }

  /** How many times the escrow was funded for a distribution. */
  function FundingCount(log: seq<Transfer>, d: nat): nat {
    if log == [] then 0
    else
      var t := log[|log| - 1];
      FundingCount(log[..|log| - 1], d) + if t.Fundings? && t.d == d then 1 else 0
  }

  function OutFor(d: nat): Transfer -> int {
    (t: Transfer) => if t.d == d && !t.Released? then t.amount else 0
  }

  /** What left the issuer for a distribution. */
  function IssuerOut(log: seq<Transfer>, d: nat): int {
    Sum(log, OutFor(d))
  }

  ghost predicate NothingSent(log: seq<Transfer>, d: nat, wallet: string) {
    Sent(log, d, wallet, Direct) == [] && Sent(log, d, wallet, Escrow) == []
  }

  /** The log does not mention the distribution. */
  ghost predicate Silent(log: seq<Transfer>, d: nat) {
    forall i :: 0 <= i < |log| ==> log[i].d != d
  }

  // ------------------------------------------------------------------ tables

  ghost predicate OneRowPerWallet(allocs: seq<Alloc>) {
    forall i, j :: 0 <= i < j < |allocs| ==> allocs[i].wallet != allocs[j].wallet
  }

  /** The same wallets and payouts in the same places. */
  ghost predicate SameTable(a: seq<Alloc>, b: seq<Alloc>) {
    && |a| == |b|
    && forall k :: 0 <= k < |a| ==> a[k].wallet == b[k].wallet && a[k].payout == b[k].payout
  }

  ghost predicate Untouched(allocs: seq<Alloc>) {
    forall k :: 0 <= k < |allocs| ==> allocs[k].txSignature.None? && allocs[k].claimingUntil.None?
  }

  ghost predicate Unlocked(allocs: seq<Alloc>) {
    forall k :: 0 <= k < |allocs| ==> allocs[k].claimingUntil.None?
  }

  ghost predicate NothingDue(allocs: seq<Alloc>) {
    forall k :: 0 <= k < |allocs| ==> !IsDue(allocs[k])
  }

  ghost predicate Absent(allocs: seq<Alloc>, wallet: string) {
    forall k :: 0 <= k < |allocs| ==> allocs[k].wallet != wallet
  }

  /** The issuer paid the allocation at most once, in full, and then it is signed. `each`: so did the
      escrow, and nothing else is signed. `once`: not both paid. */
  ghost predicate AccountOk(each: bool, once: bool, log: seq<Transfer>, d: nat, a: Alloc) {
    var direct, escrow := Sent(log, d, a.wallet, Direct), Sent(log, d, a.wallet, Escrow);
    && (direct == [] || (direct == [a.payout] && a.txSignature.Some?))
    && (each ==>
          (escrow == [] || escrow == [a.payout]) && (a.txSignature.Some? <==> direct != [] || escrow != []))
    && (once ==> direct == [] || escrow == [])
  }

  /** So it is for every allocation, and nobody else was paid anything. */
  ghost predicate Accounts(each: bool, once: bool, log: seq<Transfer>, d: nat, allocs: seq<Alloc>) {
    && (forall k :: 0 <= k < |allocs| ==> AccountOk(each, once, log, d, allocs[k]))
    && (forall w :: Absent(allocs, w) ==>
          Sent(log, d, w, Direct) == [] && (each ==> Sent(log, d, w, Escrow) == []))
  }

  /** The commit guard is kept, or the escrow is not funded. */
  predicate Each(g: Guards, r: Row) {
    g.commit || !Funded(r)
  }

  /** Both guards are kept, or the escrow is not funded. */
  predicate Once(g: Guards, r: Row) {
    (g.commit && g.lease) || !Funded(r)
  }

  ghost predicate TypedTotals(log: seq<Transfer>, d: nat, total: Option<nat>) {
    forall i :: 0 <= i < |log| && log[i].d == d && !log[i].Released? ==> total == Some(log[i].typed)
  }

  ghost predicate RowBooks(g: Guards, log: seq<Transfer>, d: nat, r: Row) {
    && Accounts(Each(g, r), Once(g, r), log, d, r.allocations)
    && FundingCount(log, d) <= (if Funded(r) then 1 else 0)
    && (!Funded(r) ==> forall w :: Sent(log, d, w, Escrow) == [])
    && (!Funded(r) && !AnySigned(r.allocations) ==> Silent(log, d))
    && (Each(g, r) ==> TypedTotals(log, d, r.totalAllocated))
    && (Once(g, r) ==>
          IssuerOut(log, d) == if Funded(r) then Sum(r.allocations, PayoutOf) else Sum(r.allocations, SignedPayout))
  }

  ghost predicate RowOk(g: Guards, sha: Hasher, r: Row) {
    && OneRowPerWallet(r.allocations)
    && (r.status == Draft ==> r.allocations == [] && r.totalAllocated.None? && r.executingUntil.None? && !Funded(r))
    && (r.status != Draft ==> r.totalAllocated.Some? && r.totalAllocated.value == Sum(r.allocations, PayoutOf))
    && (!Funded(r) ==> r.payoutMode == Direct && r.merkleRoot.None? && Unlocked(r.allocations))
    && (Funded(r) ==> r.payoutMode == Escrow || (r.status == Executed && !g.lease))
    && (Funded(r) && g.commit ==> r.merkleRoot == Some(ClaimRoot(sha, r)))
    && (r.status == Executed ==> r.executingUntil.None?)
    && (r.status == Executed && r.payoutMode == Direct ==> NothingDue(r.allocations))
  }

  // ------------------------------------------------------------------ processes

  /** The entries of a list are allocations of the table, each once. */
  ghost predicate Listing(allocs: seq<Alloc>, unpaid: seq<Due>) {
    && (forall i :: 0 <= i < |unpaid| ==>
          var x := unpaid[i];
          && x.k < |allocs| && allocs[x.k].wallet == x.wallet && allocs[x.k].payout == x.payout
          && x.payout > 0)
    && (forall i, j :: 0 <= i < j < |unpaid| ==> unpaid[i].k != unpaid[j].k)
  }

  /** Besides, all of them are due. */
  ghost predicate Owing(allocs: seq<Alloc>, unpaid: seq<Due>) {
    && Listing(allocs, unpaid)
    && forall i :: 0 <= i < |unpaid| ==> IsDue(allocs[unpaid[i].k])
  }

  ghost predicate Lists(unpaid: seq<Due>, k: int) {
    exists i :: 0 <= i < |unpaid| && unpaid[i].k == k
  }

  ghost predicate Complete(allocs: seq<Alloc>, unpaid: seq<Due>) {
    forall k :: 0 <= k < |allocs| && IsDue(allocs[k]) ==> Lists(unpaid, k)
  }

  /** The issuer has paid none of the list. */
  ghost predicate NotYetSent(log: seq<Transfer>, d: nat, unpaid: seq<Due>) {
    forall i :: 0 <= i < |unpaid| ==> Sent(log, d, unpaid[i].wallet, Direct) == []
  }

  ghost predicate ListOk(g: Guards, log: seq<Transfer>, d: nat, r: Row, generation: nat, unpaid: seq<Due>) {
    && generation == r.generation && Listing(r.allocations, unpaid) && Complete(r.allocations, unpaid)
    && (g.lease ==> !Funded(r)) && NotYetSent(log, d, unpaid)
  }

  ghost predicate PhaseOk(g: Guards, sha: Hasher, log: seq<Transfer>, d: nat, r: Row, phase: Phase) {
    match phase
    case Fresh(mode) => g.lease && mode == Direct ==> !Funded(r)
    case ToPay(generation, unpaid, _) => ListOk(g, log, d, r, generation, unpaid)
    case Batched(generation, unpaid) => ListOk(g, log, d, r, generation, unpaid)
    case ToFund(root, remaining, _) =>
      !Funded(r) && root == ClaimRoot(sha, r) && remaining == Sum(r.allocations, OpenPayout)
    case ToMark(root, sig) => r.escrowFundSignature == Some(sig) && root == ClaimRoot(sha, r)
  }

  ghost predicate StageOk(g: Guards, a: Alloc, born: nat, stage: Stage) {
    match stage
    case Found => true
    case Locked(until, _) =>
      a.claimingUntil == Some(until) && until >= born + CLAIM_LOCK_MS && (g.lease ==> a.txSignature.None?)
    case Unlocking(until) =>
      || (a.claimingUntil == Some(until) && until >= born + CLAIM_LOCK_MS)
      || (a.claimingUntil.None? && a.txSignature.Some?)
  }

  ghost predicate ClaimOk(g: Guards, log: seq<Transfer>, r: Row, p: Proc)
    requires p.pc.Claiming?
  {
    var pc := p.pc;
    && Funded(r) && pc.generation <= r.generation && (g.commit ==> pc.generation == r.generation)
    && (pc.generation == r.generation ==>
          && pc.k < |r.allocations| && pc.payout > 0
          && r.allocations[pc.k].wallet == pc.wallet && r.allocations[pc.k].payout == pc.payout
          && StageOk(g, r.allocations[pc.k], p.born, pc.stage))
    && (g.commit && pc.stage.Locked? ==> Sent(log, p.d, pc.wallet, Escrow) == [])
  }

  ghost predicate ProcOk(g: Guards, sha: Hasher, log: seq<Transfer>, r: Row, p: Proc) {
    match p.pc
    case Snapshotting(allocs, total) => OneRowPerWallet(allocs) && Untouched(allocs) && total == Sum(allocs, PayoutOf)
    case Executing(_, _) => true
    case Holding(typed, lease, phase) =>
      && r.status == Snapshotted && r.executingUntil == Some(lease) && lease >= p.born + EXECUTION_LEASE_MS
      && r.totalAllocated == Some(typed) && PhaseOk(g, sha, log, p.d, r, phase)
    case Leaving(lease) =>
      || r.status == Executed
      || (r.status == Snapshotted && r.executingUntil == Some(lease) && lease >= p.born + EXECUTION_LEASE_MS)
    case Claiming(_, _, _, _, _) => ClaimOk(g, log, r, p)
    case Finished => true
  }

  predicate Leasing(p: Proc) {
    p.pc.Holding? || p.pc.Leaving?
  }

  predicate Locking(p: Proc) {
    p.pc.Claiming? && !p.pc.stage.Found?
  }

  /** Claims of the same allocation: its id is its generation and its place. */
  predicate SameClaim(p: Proc, q: Proc) {
    Locking(p) && Locking(q) && p.pc.generation == q.pc.generation && p.pc.k == q.pc.k
  }

  /** Two processes on one row never both hold its lease, nor one allocation's lock. */
  ghost predicate PairOk(r: Row, p: Proc, q: Proc) {
    (Leasing(p) && Leasing(q) ==> r.status == Executed) && !SameClaim(p, q)
  }

  // ------------------------------------------------------------------ the whole state

  /** What the escrow must keep for an allocation: it is open, or a claim of it is not over. */
  function Reserve(a: Alloc): int { if a.txSignature.None? || a.claimingUntil.Some? then a.payout else 0 }

  function RowReserve(r: Row): int { if Funded(r) then Sum(r.allocations, Reserve) else 0 }

  function Reserved(rows: seq<Row>): int { Sum(rows, RowReserve) }

  ghost predicate RowsOk(g: Rules, sha: Hasher, s: State) {
    && (forall d :: 0 <= d < |s.rows| ==> RowOk(g(d), sha, s.rows[d]) && RowBooks(g(d), s.log, d, s.rows[d]))
    && (forall i :: 0 <= i < |s.log| ==> s.log[i].d < |s.rows|)
  }

  ghost predicate ProcsOk(g: Rules, sha: Hasher, s: State) {
    && (forall p :: 0 <= p < |s.procs| ==> s.procs[p].d < |s.rows| && s.procs[p].born <= s.clock)
    && (forall p :: 0 <= p < |s.procs| && Alive(s.clock, s.procs[p]) ==>
          ProcOk(g(s.procs[p].d), sha, s.log, s.rows[s.procs[p].d], s.procs[p]))
  }

  /** Two live processes on one row. */
  predicate Rivals(s: State, p: int, q: int) {
    && 0 <= p < |s.procs| && 0 <= q < |s.procs| && p != q && s.procs[p].d == s.procs[q].d
    && Alive(s.clock, s.procs[p]) && Alive(s.clock, s.procs[q])
  }

  ghost predicate Exclusive(s: State)
    requires forall p :: 0 <= p < |s.procs| ==> s.procs[p].d < |s.rows|
  {
    forall p, q :: Rivals(s, p, q) ==> PairOk(s.rows[s.procs[p].d], s.procs[p], s.procs[q])
  }

  ghost predicate Solvent(g: Rules, s: State) {
    AllCommit(g) ==> Balance(s.chain.usdc, ESCROW) >= Reserved(s.rows)
  }

  ghost predicate Inv(g: Rules, sha: Hasher, s: State) {
    RowsOk(g, sha, s) && ProcsOk(g, sha, s) && Exclusive(s) && Solvent(g, s)
  }

  ghost predicate Init(s: State) {
    s.rows == [] && s.procs == [] && s.log == []
  }

  // ------------------------------------------------------------------ the log grows

  lemma PaymentsAppend(log: seq<Transfer>, t: Transfer, d: nat, wallet: string)
    ensures Payments(log + [t], d, wallet) ==
      Payments(log, d, wallet) + if !t.Fundings? && t.d == d && t.wallet == wallet then [t.amount] else []
    ensures IssuerOut(log + [t], d) == IssuerOut(log, d) + OutFor(d)(t)
    ensures FundingCount(log + [t], d) == FundingCount(log, d) + if t.Fundings? && t.d == d then 1 else 0
  {
    assert (log + [t])[..|log|] == log;
  }

  lemma SentAppend(log: seq<Transfer>, t: Transfer, d: nat, wallet: string, mode: PayoutMode)
    ensures Sent(log + [t], d, wallet, mode) ==
      Sent(log, d, wallet, mode) + if SentBy(t, d, wallet, mode) then [t.amount] else []
  {
    assert (log + [t])[..|log|] == log;
  }

  /** Entries that are no such payments add none. */
  lemma {:induction false} SentSame(log: seq<Transfer>, more: seq<Transfer>, d: nat, wallet: string, mode: PayoutMode)
    requires forall i :: 0 <= i < |more| ==> !SentBy(more[i], d, wallet, mode)
    ensures Sent(log + more, d, wallet, mode) == Sent(log, d, wallet, mode)
  {
    if more == [] {
      assert log + more == log;
    } else {
      var k := |more| - 1;
      SentSame(log, more[..k], d, wallet, mode);
      assert log + more == (log + more[..k]) + [more[k]];
      SentAppend(log + more[..k], more[k], d, wallet, mode);
    }
  }

  lemma {:induction false} IssuerOutSame(log: seq<Transfer>, more: seq<Transfer>, d: nat)
    requires forall i :: 0 <= i < |more| ==> more[i].d != d || more[i].Released?
    ensures IssuerOut(log + more, d) == IssuerOut(log, d)
  {
    if more == [] {
      assert log + more == log;
    } else {
      var k := |more| - 1;
      IssuerOutSame(log, more[..k], d);
      assert log + more == (log + more[..k]) + [more[k]];
      PaymentsAppend(log + more[..k], more[k], d, "");
    }
  }

  lemma {:induction false} FundingsSame(log: seq<Transfer>, more: seq<Transfer>, d: nat)
    requires forall i :: 0 <= i < |more| ==> more[i].d != d || !more[i].Fundings?
    ensures FundingCount(log + more, d) == FundingCount(log, d)
  {
    if more == [] {
      assert log + more == log;
    } else {
      var k := |more| - 1;
      FundingsSame(log, more[..k], d);
      assert (log + more)[..|log + more| - 1] == log + more[..k];
    }
  }

  lemma {:induction false} SilentSums(log: seq<Transfer>, d: nat, wallet: string)
    requires Silent(log, d)
    ensures NothingSent(log, d, wallet) && IssuerOut(log, d) == 0 && FundingCount(log, d) == 0
  {
    if log != [] { SilentSums(log[..|log| - 1], d, wallet); }
  }

  /** All payments are the issuer's or the escrow's. */
  ghost predicate Splits(all: seq<nat>, direct: seq<nat>, escrow: seq<nat>) {
    && |all| == |direct| + |escrow| && (forall x :: x in all ==> x in direct || x in escrow)
    && (escrow == [] ==> all == direct) && (direct == [] ==> all == escrow)
  }

  lemma {:induction false} PaymentsSplit(log: seq<Transfer>, d: nat, wallet: string)
    ensures Splits(Payments(log, d, wallet), Sent(log, d, wallet, Direct), Sent(log, d, wallet, Escrow))
  {
    hide Splits, Sent, Payments, IssuerOut;
    if log == [] {
      NothingSplits(d, wallet);
    } else {
      var before, t := log[..|log| - 1], log[|log| - 1];
      PaymentsSplit(before, d, wallet);
      assert log == before + [t];
      PaymentsAppend(before, t, d, wallet);
      SentAppend(before, t, d, wallet, Direct);
      SentAppend(before, t, d, wallet, Escrow);
      var all, direct, escrow :=
        Payments(before, d, wallet), Sent(before, d, wallet, Direct), Sent(before, d, wallet, Escrow);
      SplitsGrow(all, direct, escrow, t.amount);
      assert all + [] == all && direct + [] == direct && escrow + [] == escrow;
    }
  }

  lemma NothingSplits(d: nat, wallet: string)
    ensures Splits(Payments([], d, wallet), Sent([], d, wallet, Direct), Sent([], d, wallet, Escrow))
  {
  }

  lemma SplitsGrow(all: seq<nat>, direct: seq<nat>, escrow: seq<nat>, x: nat)
    requires Splits(all, direct, escrow)
    ensures Splits(all + [x], direct + [x], escrow) && Splits(all + [x], direct, escrow + [x])
  {
  }

  /** Entries about other distributions change nothing for this one. */
  lemma OthersUnaffected(g: Guards, log: seq<Transfer>, more: seq<Transfer>, d: nat, r: Row)
    requires RowBooks(g, log, d, r) && forall i :: 0 <= i < |more| ==> more[i].d != d
    ensures RowBooks(g, log + more, d, r)
  {
    hide Sent, IssuerOut, AnySigned, FundingCount;
    IssuerOutSame(log, more, d);
    FundingsSame(log, more, d);
    forall w, mode ensures Sent(log + more, d, w, mode) == Sent(log, d, w, mode) { SentSame(log, more, d, w, mode); }
    AccountsCarry(Each(g, r), Once(g, r), Each(g, r), Once(g, r), log, log + more, d, r.allocations);
  }

  /** The accounts of the same payments, with no more asked of them. */
  lemma AccountsCarry(each: bool, once: bool, each': bool, once': bool, log: seq<Transfer>, log': seq<Transfer>, d: nat,
                      allocs: seq<Alloc>)
    requires Accounts(each, once, log, d, allocs) && (each' ==> each) && (once' ==> once)
    requires forall w, mode :: Sent(log', d, w, mode) == Sent(log, d, w, mode)
    ensures Accounts(each', once', log', d, allocs)
  {
    hide Sent, Absent;
    forall k | 0 <= k < |allocs| ensures AccountOk(each', once', log', d, allocs[k]) {
      assert AccountOk(each, once, log, d, allocs[k]);
    }
  }

  lemma ProcUnaffected(g: Guards, sha: Hasher, log: seq<Transfer>, more: seq<Transfer>, r: Row, p: Proc)
    requires ProcOk(g, sha, log, r, p) && forall i :: 0 <= i < |more| ==> more[i].d != p.d
    ensures ProcOk(g, sha, log + more, r, p)
  {
    hide Sent, Sum, ClaimRoot, Listing, Complete, StageOk;
    forall w, mode ensures Sent(log + more, p.d, w, mode) == Sent(log, p.d, w, mode) {
      SentSame(log, more, p.d, w, mode);
    }
  }

  // ------------------------------------------------------------------ the table stays

  lemma {:induction false} SameTableSameClaims(id: string, a: seq<Alloc>, b: seq<Alloc>)
    requires SameTable(a, b)
    ensures ClaimRows(id, a) == ClaimRows(id, b) && Sum(a, PayoutOf) == Sum(b, PayoutOf)
  {
    if a != [] { SameTableSameClaims(id, a[..|a| - 1], b[..|b| - 1]); }
  }

  lemma OneRowKept(a: seq<Alloc>, b: seq<Alloc>)
    requires SameTable(a, b) && OneRowPerWallet(a)
    ensures OneRowPerWallet(b)
  {
    forall i, j | 0 <= i < j < |b| ensures b[i].wallet != b[j].wallet {
      assert a[i].wallet == b[i].wallet && a[j].wallet == b[j].wallet;
    }
  }

  lemma SameTableSameAbsent(a: seq<Alloc>, b: seq<Alloc>, w: string)
    requires SameTable(a, b)
    ensures Absent(a, w) <==> Absent(b, w)
  {
    if Absent(a, w) {
      forall k | 0 <= k < |b| ensures b[k].wallet != w { assert a[k].wallet == b[k].wallet; }
    }
    if Absent(b, w) {
      forall k | 0 <= k < |a| ensures a[k].wallet != w { assert a[k].wallet == b[k].wallet; }
    }
  }

  // ------------------------------------------------------------------ signing a batch

  lemma ListsLast(batch: seq<Due>, k: int)
    requires batch != []
    ensures Lists(batch, k) <==> Lists(batch[..|batch| - 1], k) || batch[|batch| - 1].k == k
  {
    var n := |batch| - 1;
    if i :| 0 <= i < n && batch[..n][i].k == k { assert batch[i].k == k; }
    if i :| 0 <= i < |batch| && batch[i].k == k && i < n { assert batch[..n][i].k == k; }
  }

  lemma ListingPrefix(allocs: seq<Alloc>, batch: seq<Due>, n: nat)
    requires Listing(allocs, batch) && n <= |batch|
    ensures Listing(allocs, batch[..n])
    ensures n < |batch| ==> !Lists(batch[..n], batch[n].k)
  {
  }

  /** Signing the batch signs exactly its places that are not signed yet. */
  lemma {:induction false} SignAllAt(allocs: seq<Alloc>, batch: seq<Due>, sig: Signature)
    requires Listing(allocs, batch)
    ensures SameTable(allocs, SignAll(allocs, batch, sig))
    ensures forall k :: 0 <= k < |allocs| ==>
      SignAll(allocs, batch, sig)[k] ==
        if Lists(batch, k) && allocs[k].txSignature.None? then allocs[k].(txSignature := Some(sig)) else allocs[k]
  {
    if batch != [] {
      var n := |batch| - 1;
      ListingPrefix(allocs, batch, n);
      SignAllAt(allocs, batch[..n], sig);
      forall k { ListsLast(batch, k); }
    }
  }

  lemma {:induction false} SignAllSums(allocs: seq<Alloc>, batch: seq<Due>, sig: Signature)
    requires Owing(allocs, batch)
    ensures var after := SignAll(allocs, batch, sig);
      && Sum(after, SignedPayout) == Sum(allocs, SignedPayout) + Sum(batch, DueAmount)
      && Sum(after, OpenPayout) == Sum(allocs, OpenPayout) - Sum(batch, DueAmount)
  {
    if batch != [] {
      var n := |batch| - 1;
      var mid, x := SignAll(allocs, batch[..n], sig), batch[n];
      ListingPrefix(allocs, batch, n);
      SignAllAt(allocs, batch[..n], sig);
      SignAllSums(allocs, batch[..n], sig);
      assert mid[x.k] == allocs[x.k];
      SumUpdate(mid, x.k, mid[x.k].(txSignature := Some(sig)), SignedPayout);
      SumUpdate(mid, x.k, mid[x.k].(txSignature := Some(sig)), OpenPayout);
    }
  }

  /** It never raises what the escrow must keep. */
  lemma {:induction false} SignAllReserve(allocs: seq<Alloc>, batch: seq<Due>, sig: Signature)
    ensures Sum(SignAll(allocs, batch, sig), Reserve) <= Sum(allocs, Reserve)
  {
    if batch != [] {
      var n := |batch| - 1;
      var mid, x := SignAll(allocs, batch[..n], sig), batch[n];
      SignAllReserve(allocs, batch[..n], sig);
      if x.k < |mid| { SumUpdate(mid, x.k, mid[x.k].(txSignature := Some(sig)), Reserve); }
    }
  }

  // ------------------------------------------------------------------ paying

  /** One payment and its record, by whoever had not paid the allocation yet, keep the accounts. */
  lemma OnePaymentKeeps(each: bool, once: bool, log: seq<Transfer>, d: nat, allocs: seq<Alloc>, k: nat, t: Transfer,
                        a: Alloc)
    requires Accounts(each, once, log, d, allocs) && OneRowPerWallet(allocs) && k < |allocs|
    requires !t.Fundings? && t.d == d && t.wallet == allocs[k].wallet && t.amount == allocs[k].payout
    requires t.Paid? || each ==> Sent(log, d, t.wallet, if t.Paid? then Direct else Escrow) == []
    requires once ==> each && allocs[k].txSignature.None?
    requires a.wallet == allocs[k].wallet && a.payout == allocs[k].payout && a.txSignature.Some?
    ensures Accounts(each, once, log + [t], d, allocs[k := a])
  {
    hide Sent;
    var after := allocs[k := a];
    forall w, mode
      ensures Sent(log + [t], d, w, mode) == Sent(log, d, w, mode) + if SentBy(t, d, w, mode) then [t.amount] else []
    {
      SentAppend(log, t, d, w, mode);
    }
    forall j | 0 <= j < |after| ensures AccountOk(each, once, log + [t], d, after[j]) {
      assert AccountOk(each, once, log, d, allocs[j]);
      if j < k { assert allocs[j].wallet != allocs[k].wallet; }
      if k < j { assert allocs[k].wallet != allocs[j].wallet; }
    }
    forall w | Absent(after, w)
      ensures Sent(log + [t], d, w, Direct) == [] && (each ==> Sent(log + [t], d, w, Escrow) == [])
    {
      SameTableSameAbsent(allocs, after, w);
      assert after[k].wallet != w;
    }
  }

  /** A batch pays no wallet from the escrow, and none that it does not list. */
  lemma BatchSends(log: seq<Transfer>, d: nat, batch: seq<Due>, typed: nat, wallet: string)
    ensures Sent(log + PaidNotes(d, batch, typed), d, wallet, Escrow) == Sent(log, d, wallet, Escrow)
    ensures (forall i :: 0 <= i < |batch| ==> batch[i].wallet != wallet) ==>
      Sent(log + PaidNotes(d, batch, typed), d, wallet, Direct) == Sent(log, d, wallet, Direct)
  {
    SentSame(log, PaidNotes(d, batch, typed), d, wallet, Escrow);
    if forall i :: 0 <= i < |batch| ==> batch[i].wallet != wallet {
      SentSame(log, PaidNotes(d, batch, typed), d, wallet, Direct);
    }
  }

  lemma {:induction false} BatchOut(log: seq<Transfer>, d: nat, batch: seq<Due>, typed: nat)
    ensures IssuerOut(log + PaidNotes(d, batch, typed), d) == IssuerOut(log, d) + Sum(batch, DueAmount)
    ensures FundingCount(log + PaidNotes(d, batch, typed), d) == FundingCount(log, d)
  {
    var notes := PaidNotes(d, batch, typed);
    FundingsSame(log, notes, d);
    if batch == [] {
      assert log + notes == log;
    } else {
      var n := |batch| - 1;
      BatchOut(log, d, batch[..n], typed);
      assert notes[..n] == PaidNotes(d, batch[..n], typed);
      assert log + notes == (log + notes[..n]) + [notes[n]];
      PaymentsAppend(log + notes[..n], notes[n], d, "");
    }
  }

  /** Different places are different wallets. */
  lemma OthersInBatch(allocs: seq<Alloc>, batch: seq<Due>, n: nat, i: nat)
    requires Listing(allocs, batch) && OneRowPerWallet(allocs) && n <= i < |batch|
    ensures forall j :: 0 <= j < n ==> batch[..n][j].wallet != batch[i].wallet
  {
    forall j | 0 <= j < n ensures batch[..n][j].wallet != batch[i].wallet {
      var x, y := batch[j].k, batch[i].k;
      assert allocs[x].wallet == batch[j].wallet && allocs[y].wallet == batch[i].wallet;
      if x < y { assert allocs[x].wallet != allocs[y].wallet; } else { assert allocs[y].wallet != allocs[x].wallet; }
    }
  }

  /** A batch of payments and its record keep the accounts. */
  lemma {:induction false} BatchKeepsAccounts(each: bool, once: bool, log: seq<Transfer>, d: nat, allocs: seq<Alloc>,
                                               batch: seq<Due>, typed: nat, sig: Signature)
    requires Accounts(each, once, log, d, allocs) && OneRowPerWallet(allocs) && Listing(allocs, batch)
    requires NotYetSent(log, d, batch) && (once ==> each && Owing(allocs, batch))
    ensures Accounts(each, once, log + PaidNotes(d, batch, typed), d, SignAll(allocs, batch, sig))
  {
    hide Accounts, Sent, OneRowPerWallet;
    var notes := PaidNotes(d, batch, typed);
    if batch == [] {
      assert log + notes == log;
    } else {
      var n := |batch| - 1;
      var mid, x := SignAll(allocs, batch[..n], sig), batch[n];
      ListingPrefix(allocs, batch, n);
      BatchKeepsAccounts(each, once, log, d, allocs, batch[..n], typed, sig);
      assert notes[..n] == PaidNotes(d, batch[..n], typed);
      assert log + notes == (log + notes[..n]) + [notes[n]];
      SignAllAt(allocs, batch[..n], sig);
      OneRowKept(allocs, mid);
      OthersInBatch(allocs, batch, n, n);
      BatchSends(log, d, batch[..n], typed, x.wallet);
      var signed := if mid[x.k].txSignature.None? then mid[x.k].(txSignature := Some(sig)) else mid[x.k];
      OnePaymentKeeps(each, once, log + notes[..n], d, mid, x.k, notes[n], signed);
      assert SignAll(allocs, batch, sig) == mid[x.k := signed];
    }
  }

  // ------------------------------------------------------------------ what is due

  lemma {:induction false} DuesAre(allocs: seq<Alloc>)
    ensures forall x :: x in Dues(allocs) <==>
      x.k < |allocs| && IsDue(allocs[x.k]) && x == Due(x.k, allocs[x.k].wallet, allocs[x.k].payout)
    ensures Sorting.NoDup(Dues(allocs))
  {
    if allocs != [] {
      var k := |allocs| - 1;
      DuesAre(allocs[..k]);
      var last := Due(k, allocs[k].wallet, allocs[k].payout);
      assert last !in Dues(allocs[..k]);
      forall x ensures x in Dues(allocs) <==>
        x.k < |allocs| && IsDue(allocs[x.k]) && x == Due(x.k, allocs[x.k].wallet, allocs[x.k].payout)
      {
        if x.k < k { assert allocs[..k][x.k] == allocs[x.k]; }
      }
    }
  }

  lemma DueLeqIsOrder()
    ensures Sorting.TotalPreorder(DueLeq)
  {
    forall x: Due, y: Due ensures DueLeq(x, y) || DueLeq(y, x) {
      Text.LexTotal(Text.Codes(x.wallet), Text.Codes(y.wallet));
    }
    forall x: Due, y: Due, z: Due | DueLeq(x, y) && DueLeq(y, z) ensures DueLeq(x, z) {
      if x.payout == z.payout { Text.LexTransitive(Text.Codes(x.wallet), Text.Codes(y.wallet), Text.Codes(z.wallet)); }
    }
  }

  /** The list an executor starts from is exactly what is due. */
  lemma UnpaidIsOwing(r: Row)
    ensures Owing(r.allocations, Unpaid(r)) && Complete(r.allocations, Unpaid(r))
  {
    var dues, u := Dues(r.allocations), Unpaid(r);
    DuesAre(r.allocations);
    DueLeqIsOrder();
    Sorting.SortSorts(dues, DueLeq);
    Sorting.NoDupPermutation(dues, u);
    forall i | 0 <= i < |u| ensures u[i] in dues { assert u[i] in u; }
    forall k | 0 <= k < |r.allocations| && IsDue(r.allocations[k]) ensures Lists(u, k) {
      var x := Due(k, r.allocations[k].wallet, r.allocations[k].payout);
      assert x in dues && x in u;
    }
  }

  lemma ListsSplit(unpaid: seq<Due>, n: nat, k: int)
    requires n <= |unpaid|
    ensures Lists(unpaid, k) ==> Lists(unpaid[..n], k) || Lists(unpaid[n..], k)
  {
    if Lists(unpaid, k) {
      var i :| 0 <= i < |unpaid| && unpaid[i].k == k;
      if i < n { assert unpaid[..n][i].k == k; } else { assert unpaid[n..][i - n].k == k; }
    }
  }

  /** Paying a prefix of the list leaves the rest of it. */
  lemma RestIsListed(allocs: seq<Alloc>, unpaid: seq<Due>, n: nat, sig: Signature)
    requires Listing(allocs, unpaid) && Complete(allocs, unpaid) && n <= |unpaid|
    ensures Listing(SignAll(allocs, unpaid[..n], sig), unpaid[n..])
    ensures Complete(SignAll(allocs, unpaid[..n], sig), unpaid[n..])
  {
    var batch, rest := unpaid[..n], unpaid[n..];
    ListingPrefix(allocs, unpaid, n);
    SignAllAt(allocs, batch, sig);
    var after := SignAll(allocs, batch, sig);
    forall i, j | 0 <= i < j < |rest| ensures rest[i].k != rest[j].k { assert unpaid[n + i].k != unpaid[n + j].k; }
    forall k | 0 <= k < |after| && IsDue(after[k]) ensures Lists(rest, k) {
      ListsSplit(unpaid, n, k);
    }
  }
}
