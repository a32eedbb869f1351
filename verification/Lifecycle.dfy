/** The distribution lifecycle and the escrow claims (apps/web/lib/server/distribution.ts and
    escrow.ts) as a protocol: many processes, one database, one ledger, one clock.
    Every database statement or transaction is one step; every read is a step of its own, so what
    a process goes on with may be stale. */
module Lifecycle {
  import opened Wrappers
  import opened Text
  import opened Sums
  import opened Merkle
  import opened Ledger
  import Sorting
  import ClaimTree
  import Allocation
  import AllocationLaws

  const EXECUTION_LEASE_MS: nat := 120_000
  const CLAIM_LOCK_MS: nat := 120_000
  /** maxDuration of the execute and claim routes, in milliseconds. */
  const MAX_DURATION_MS: nat := 60_000
  const MAX_TRANSFERS_PER_TX: nat := 10

  // ------------------------------------------------------------------ the database

  datatype Status = Draft | Snapshotted | Executed

  datatype PayoutMode = Direct | Escrow

  datatype Signature = Tx(n: nat) | NoTransferNeeded

  datatype Alloc = Alloc(wallet: string, payout: nat, txSignature: Option<Signature>, claimingUntil: Option<int>)

  /** `generation` counts the snapshots: an allocation's id is its generation and its place, so
      ids of replaced allocations match nothing. */
  datatype Row = Row(
    id: string, rightsPool: nat, status: Status, executingUntil: Option<int>, totalAllocated: Option<nat>,
    payoutMode: PayoutMode, merkleRoot: Option<string>, escrowFundSignature: Option<Signature>,
    generation: nat, allocations: seq<Alloc>)

  function PayoutOf(a: Alloc): int { a.payout }
  function SignedPayout(a: Alloc): int { if a.txSignature.Some? then a.payout else 0 }
  function OpenPayout(a: Alloc): int { if a.txSignature.None? then a.payout else 0 }

  predicate Funded(r: Row) {
    r.escrowFundSignature.Some?
  }

  /** Prisma filter: no live execution lease on the row. */
  predicate LeaseFree(r: Row, now: int) {
    r.executingUntil.None? || r.executingUntil.value < now
  }

  predicate LeaseHeld(r: Row, now: int) {
    r.executingUntil.Some? && r.executingUntil.value > now
  }

  predicate AnySigned(allocs: seq<Alloc>) {
    exists k :: 0 <= k < |allocs| && allocs[k].txSignature.Some?
  }

  predicate SnapshotAllowed(r: Row, now: int) {
    r.status != Executed && !LeaseHeld(r, now) && !AnySigned(r.allocations)
  }

  /** `assertExecutable`. */
  predicate Executable(r: Row, typed: nat) {
    r.status != Draft && r.totalAllocated == Some(typed)
  }

  /** The payable allocations as claim rows. */
  function ClaimRows(id: string, allocs: seq<Alloc>): seq<ClaimRow> {
    if allocs == [] then []
    else
      var a := allocs[|allocs| - 1];
      ClaimRows(id, allocs[..|allocs| - 1]) + if a.payout > 0 then [ClaimRow(id, a.wallet, a.payout)] else []
  }

  /** `claimTreeOf(d).root`. */
  function ClaimRoot(sha: Hasher, r: Row): string {
    Hex(Root(sha, ClaimRows(r.id, r.allocations)))
  }

  // ------------------------------------------------------------------ processes

  /** One allocation still to pay, as read. */
  datatype Due = Due(k: nat, wallet: string, payout: nat)

  /** What a lease holder is doing. `checked`: the balance has been compared. */
  datatype Phase =
    | Fresh(mode: PayoutMode)
    | ToPay(generation: nat, unpaid: seq<Due>, checked: bool)
    | Batched(generation: nat, unpaid: seq<Due>)
    | ToFund(root: string, remaining: nat, balanceRead: bool)
    | ToMark(fundedRoot: string, signature: Signature)

  datatype Stage = Found | Locked(until: int, checked: bool) | Unlocking(until: int)

  datatype Pc =
    | Snapshotting(allocs: seq<Alloc>, total: nat)
    | Executing(typed: nat, mode: PayoutMode)
    | Holding(typed: nat, lease: int, phase: Phase)
    | Leaving(lease: int)
    | Claiming(generation: nat, k: nat, wallet: string, payout: nat, stage: Stage)
    | Finished

  datatype Proc = Proc(d: nat, born: nat, pc: Pc)

  /** What moved, in order. `typed`: the total the founder had typed for that execution. */
  datatype Transfer =
    | Paid(d: nat, wallet: string, amount: nat, typed: nat)
    | Fundings(d: nat, amount: nat, typed: nat)
    | Released(d: nat, wallet: string, amount: nat)

  datatype State = State(clock: nat, rows: seq<Row>, procs: seq<Proc>, chain: Chain, log: seq<Transfer>)

  /** A process past its time limit has been killed. */
  predicate Alive(clock: nat, p: Proc) {
    p.pc != Finished && clock < p.born + MAX_DURATION_MS
  }

  predicate Runs(s: State, p: nat) {
    p < |s.procs| && Alive(s.clock, s.procs[p]) && s.procs[p].d < |s.rows|
  }

  function Goto(s: State, p: nat, pc: Pc): State
    requires p < |s.procs|
  {
    s.(procs := s.procs[p := s.procs[p].(pc := pc)])
  }

  function SetRow(s: State, d: nat, r: Row): State
    requires d < |s.rows|
  {
    s.(rows := s.rows[d := r])
  }

  function Spawn(s: State, d: nat, pc: Pc): State {
    s.(procs := s.procs + [Proc(d, s.clock, pc)])
  }

  // ------------------------------------------------------------------ reporting and snapshots

  function Report(s: State, id: string, rightsPool: nat): State {
    s.(rows := s.rows + [Row(id, rightsPool, Draft, None, None, Direct, None, None, 0, [])])
  }

  function AllocsFrom(rows: seq<Allocation.AllocationRow>): (allocs: seq<Alloc>)
    requires forall i :: 0 <= i < |rows| ==> rows[i].payout >= 0
    ensures |allocs| == |rows|
    ensures forall i :: 0 <= i < |rows| ==> allocs[i] == Alloc(rows[i].owner, rows[i].payout, None, None)
  {
    seq(|rows|, i requires 0 <= i < |rows| => Alloc(rows[i].owner, rows[i].payout, None, None))
  }

  lemma AllocatesNats(holders: seq<Allocation.HolderBalance>, supply: int, pool: nat)
    requires Allocation.Allocate(holders, supply, pool).Ok?
    ensures var r := Allocation.Allocate(holders, supply, pool).value;
      r.totalAllocated >= 0 && forall i :: 0 <= i < |r.rows| ==> r.rows[i].payout >= 0
  {
    AllocationLaws.RowsAreExact(holders, supply, pool);
    AllocationLaws.Conservation(holders, supply, pool);
    var r := Allocation.Allocate(holders, supply, pool).value;
    forall i | 0 <= i < |r.rows| ensures r.rows[i].payout >= 0 {
      assert r.rows[i] in r.rows;
    }
  }

  /** `snapshotDistribution` up to its transaction: the row is read and the holders allocated. */
  function BeginSnapshot(s: State, d: nat, holders: seq<Allocation.HolderBalance>, supply: int): State {
    if d >= |s.rows| || !SnapshotAllowed(s.rows[d], s.clock) then s
    else
      match Allocation.Allocate(holders, supply, s.rows[d].rightsPool)
      case Err(_) => s
      case Ok(r) =>
        AllocatesNats(holders, supply, s.rows[d].rightsPool);
        Spawn(s, d, Snapshotting(AllocsFrom(r.rows), r.totalAllocated))
  }

  /** The snapshot transaction commits unless a check inside it throws. */
  predicate Commits(r: Row, now: int) {
    r.status != Executed && LeaseFree(r, now) && SnapshotAllowed(r, now)
  }

  function CommitSnapshot(s: State, p: nat): State {
    if !Runs(s, p) || !s.procs[p].pc.Snapshotting? then s
    else
      var d, pc := s.procs[p].d, s.procs[p].pc;
      var r := s.rows[d];
      var s' := if Commits(r, s.clock)
                then SetRow(s, d, r.(status := Snapshotted, totalAllocated := Some(pc.total),
                                     generation := r.generation + 1, allocations := pc.allocs))
                else s;
      Goto(s', p, Finished)
  }

  // ------------------------------------------------------------------ executing

  /** A funded escrow fixes the mode; recorded payouts fix it the other way. */
  function ResolveMode(r: Row, mode: PayoutMode): PayoutMode {
    if Funded(r) then Escrow else if mode == Escrow && AnySigned(r.allocations) then Direct else mode
  }

  function BeginExecute(s: State, d: nat, typed: nat, mode: PayoutMode): State {
    if d >= |s.rows| || !Executable(s.rows[d], typed) || s.rows[d].status == Executed then s
    else Spawn(s, d, Executing(typed, ResolveMode(s.rows[d], mode)))
  }

  /** What the claim's filter asks of the row. */
  predicate LeaseOpen(r: Row, typed: nat, now: int) {
    r.status == Snapshotted && r.totalAllocated == Some(typed) && LeaseFree(r, now)
  }

  /** The claim on the row: `aim` and `now` are when the lease end and the filter read the clock. */
  function TakeLease(s: State, p: nat, aim: nat, now: nat): State {
    if !Runs(s, p) || !s.procs[p].pc.Executing? || !(s.procs[p].born <= aim <= now <= s.clock) then s
    else
      var d, pc := s.procs[p].d, s.procs[p].pc;
      var r, lease := s.rows[d], aim + EXECUTION_LEASE_MS;
      if LeaseOpen(r, pc.typed, now) then
        Goto(SetRow(s, d, r.(executingUntil := Some(lease))), p, Holding(pc.typed, lease, Fresh(pc.mode)))
      else
        Goto(s, p, Finished)
  }

  predicate IsDue(a: Alloc) {
    a.payout > 0 && a.txSignature.None?
  }

  function Dues(allocs: seq<Alloc>): seq<Due> {
    if allocs == [] then []
    else
      var k := |allocs| - 1;
      Dues(allocs[..k]) + if IsDue(allocs[k]) then [Due(k, allocs[k].wallet, allocs[k].payout)] else []
  }

  /** Payout descending, then wallet ascending. */
  predicate DueLeq(a: Due, b: Due) {
    a.payout > b.payout || (a.payout == b.payout && StrLeq(a.wallet, b.wallet))
  }

  function Unpaid(r: Row): seq<Due> {
    Sorting.Sort(Dues(r.allocations), DueLeq)
  }

  lemma {:induction false} SumOpenNonNegative(allocs: seq<Alloc>)
    ensures Sum(allocs, OpenPayout) >= 0 && Sum(allocs, SignedPayout) >= 0
    ensures Sum(allocs, OpenPayout) + Sum(allocs, SignedPayout) == Sum(allocs, PayoutOf)
  {
    if allocs != [] { SumOpenNonNegative(allocs[..|allocs| - 1]); }
  }

  /** The re-read under the lease. */
  function ReadRow(sha: Hasher, s: State, p: nat): State {
    if !Runs(s, p) || !s.procs[p].pc.Holding? || !s.procs[p].pc.phase.Fresh? then s
    else
      var r, pc := s.rows[s.procs[p].d], s.procs[p].pc;
      SumOpenNonNegative(r.allocations);
      var phase :=
        if pc.phase.mode == Direct then ToPay(r.generation, Unpaid(r), false)
        else if Funded(r) then ToMark(ClaimRoot(sha, r), r.escrowFundSignature.value)
        else ToFund(ClaimRoot(sha, r), Sum(r.allocations, OpenPayout), false);
      Goto(s, p, pc.(phase := phase))
  }

  function DueAmount(x: Due): int { x.payout }

  /** The issuer's balance must cover what is left. */
  function CheckBalance(s: State, p: nat): State {
    if !Runs(s, p) || !s.procs[p].pc.Holding? then s
    else
      var pc := s.procs[p].pc;
      match pc.phase
      case ToPay(g, unpaid, false) =>
        if s.chain.issuerUsdc < Sum(unpaid, DueAmount) then Goto(s, p, Leaving(pc.lease))
        else Goto(s, p, pc.(phase := ToPay(g, unpaid, true)))
      case ToFund(root, remaining, false) =>
        if s.chain.issuerUsdc < remaining then Goto(s, p, Leaving(pc.lease))
        else Goto(s, p, pc.(phase := ToFund(root, remaining, true)))
      case _ => s
  }

  function PaymentsFor(batch: seq<Due>): (ps: seq<Payment>)
    ensures |ps| == |batch| && forall i :: 0 <= i < |batch| ==> ps[i] == Payment(batch[i].wallet, batch[i].payout)
  {
    seq(|batch|, i requires 0 <= i < |batch| => Payment(batch[i].wallet, batch[i].payout))
  }

  function PaidNotes(d: nat, batch: seq<Due>, typed: nat): (ts: seq<Transfer>)
    ensures |ts| == |batch|
    ensures forall i :: 0 <= i < |batch| ==> ts[i] == Paid(d, batch[i].wallet, batch[i].payout, typed)
  {
    seq(|batch|, i requires 0 <= i < |batch| => Paid(d, batch[i].wallet, batch[i].payout, typed))
  }

  /** `where txSignature is null` then set it. */
  function Sign(allocs: seq<Alloc>, k: nat, sig: Signature): seq<Alloc> {
    if k < |allocs| && allocs[k].txSignature.None? then allocs[k := allocs[k].(txSignature := Some(sig))] else allocs
  }

  function SignAll(allocs: seq<Alloc>, batch: seq<Due>, sig: Signature): seq<Alloc> {
    if batch == [] then allocs else Sign(SignAll(allocs, batch[..|batch| - 1], sig), batch[|batch| - 1].k, sig)
  }

  function NextBatch(unpaid: seq<Due>): seq<Due> {
    if |unpaid| <= MAX_TRANSFERS_PER_TX then unpaid else unpaid[..MAX_TRANSFERS_PER_TX]
  }

  /** One batch: the transfer and, right after it, its record. */
  function PayBatch(s: State, p: nat): State {
    if !Runs(s, p) || !s.procs[p].pc.Holding? || !s.procs[p].pc.phase.ToPay? then s
    else
      var d, pc := s.procs[p].d, s.procs[p].pc;
      var r, unpaid := s.rows[d], pc.phase.unpaid;
      if !pc.phase.checked || unpaid == [] then s
      else
        var batch := NextBatch(unpaid);
        match TransferBatch(s.chain, PaymentsFor(batch))
        case None => Goto(s, p, Leaving(pc.lease))
        case Some(chain) =>
          var signed :=
            if r.generation == pc.phase.generation then SignAll(r.allocations, batch, Tx(|s.log|))
            else r.allocations;
          var s' :=
            SetRow(s, d, r.(allocations := signed)).(chain := chain, log := s.log + PaidNotes(d, batch, pc.typed));
          Goto(s', p, pc.(phase := Batched(pc.phase.generation, unpaid[|batch|..])))
  }

  /** The lease moves forward, if it is still ours. */
  function Renew(s: State, p: nat, aim: nat): State {
    if !Runs(s, p) || !s.procs[p].pc.Holding? || !s.procs[p].pc.phase.Batched? then s
    else
      var d, pc := s.procs[p].d, s.procs[p].pc;
      var r, next := s.rows[d], aim + EXECUTION_LEASE_MS;
      if !(s.procs[p].born <= aim <= s.clock) then s
      else if r.executingUntil == Some(pc.lease) then
        Goto(SetRow(s, d, r.(executingUntil := Some(next))), p,
             Holding(pc.typed, next, ToPay(pc.phase.generation, pc.phase.unpaid, true)))
      else
        Goto(s, p, Leaving(pc.lease))
  }

  /** One issuer -> escrow transfer of everything still unpaid, and its record. */
  function Fund(s: State, p: nat): State {
    if !Runs(s, p) || !s.procs[p].pc.Holding? || !s.procs[p].pc.phase.ToFund? || !s.procs[p].pc.phase.balanceRead then s
    else
      var d, pc := s.procs[p].d, s.procs[p].pc;
      var r, ph := s.rows[d], pc.phase;
      var moved := if ph.remaining == 0 then Some(s.chain) else TransferBatch(s.chain, [Payment(ESCROW, ph.remaining)]);
      match moved
      case None => Goto(s, p, Leaving(pc.lease))
      case Some(chain) =>
        var sig := if ph.remaining == 0 then NoTransferNeeded else Tx(|s.log|);
        var log := if ph.remaining == 0 then s.log else s.log + [Fundings(d, ph.remaining, pc.typed)];
        var r' := if r.executingUntil == Some(pc.lease)
                  then r.(payoutMode := Escrow, escrowFundSignature := Some(sig), merkleRoot := Some(ph.root))
                  else r;
        Goto(SetRow(s, d, r').(chain := chain, log := log), p, pc.(phase := ToMark(ph.root, sig)))
  }

  /** `markExecuted`: unconditional, and it clears the lease. */
  function MarkExecuted(s: State, p: nat): State {
    if !Runs(s, p) || !s.procs[p].pc.Holding? then s
    else
      var d, pc := s.procs[p].d, s.procs[p].pc;
      var r := s.rows[d];
      match pc.phase
      case ToPay(_, unpaid, true) =>
        if unpaid != [] then s
        else
          Goto(SetRow(s, d, r.(status := Executed, executingUntil := None, payoutMode := Direct)), p,
               Leaving(pc.lease))
      case ToMark(root, sig) =>
        Goto(SetRow(s, d, r.(status := Executed, executingUntil := None, payoutMode := Escrow,
                             merkleRoot := Some(root), escrowFundSignature := Some(sig))), p, Leaving(pc.lease))
      case _ => s
  }

  /** An ordinary error: a lease holder goes on to its `finally`, anyone else is done. */
  function Fail(s: State, p: nat): State {
    if !Runs(s, p) then s
    else
      match s.procs[p].pc
      case Holding(_, lease, _) => Goto(s, p, Leaving(lease))
      case Claiming(g, k, w, a, Locked(until, _)) => Goto(s, p, Claiming(g, k, w, a, Unlocking(until)))
      case Snapshotting(_, _) => Goto(s, p, Finished)
      case Executing(_, _) => Goto(s, p, Finished)
      case Claiming(_, _, _, _, Found) => Goto(s, p, Finished)
      case _ => s
  }

  /** The `finally` of an execution: give the lease back unless someone else holds it. */
  function ReleaseLease(s: State, p: nat): State {
    if !Runs(s, p) || !s.procs[p].pc.Leaving? then s
    else
      var d := s.procs[p].d;
      var r := s.rows[d];
      var r' := if r.executingUntil == Some(s.procs[p].pc.lease) then r.(executingUntil := None) else r;
      Goto(SetRow(s, d, r'), p, Finished)
  }

  /** A crash runs no `finally`. */
  function Crash(s: State, p: nat): State {
    if p >= |s.procs| then s else Goto(s, p, Finished)
  }

  // ------------------------------------------------------------------ claiming

  /** The first payable allocation of a wallet. */
  function FindPayable(allocs: seq<Alloc>, wallet: string, from: nat): (k: Option<nat>)
    ensures k.Some? ==> k.value < |allocs| && allocs[k.value].wallet == wallet && allocs[k.value].payout > 0
    ensures k.None? ==> forall j :: from <= j < |allocs| ==> !(allocs[j].wallet == wallet && allocs[j].payout > 0)
    decreases |allocs| - from
  {
    if from >= |allocs| then None
    else if allocs[from].wallet == wallet && allocs[from].payout > 0 then Some(from)
    else FindPayable(allocs, wallet, from + 1)
  }

  /** `loadFunded` lets the row through: it is funded, and its root still matches the allocations. */
  predicate LoadsFunded(sha: Hasher, r: Row) {
    r.payoutMode == Escrow && Funded(r) && r.merkleRoot == Some(ClaimRoot(sha, r))
  }

  /** `claimDistribution` up to its lock. */
  function BeginClaim(sha: Hasher, s: State, d: nat, wallet: string, proof: Option<seq<string>>): State {
    if d >= |s.rows| || !LoadsFunded(sha, s.rows[d]) then s
    else
      var r := s.rows[d];
      match FindPayable(r.allocations, wallet, 0)
      case None => s
      case Some(k) =>
        var a := r.allocations[k];
        if proof.Some?
           && !ClaimTree.Verifies(sha, ClaimRow(r.id, wallet, a.payout), proof.value, r.merkleRoot.value)
        then s
        else if a.txSignature.Some? then s
        else Spawn(s, d, Claiming(r.generation, k, wallet, a.payout, Found))
  }

  function TakeLock(s: State, p: nat, now: nat): State {
    if !Runs(s, p) || !s.procs[p].pc.Claiming? || !s.procs[p].pc.stage.Found?
       || !(s.procs[p].born <= now <= s.clock)
    then s
    else
      var d, pc := s.procs[p].d, s.procs[p].pc;
      var r, until := s.rows[d], now + CLAIM_LOCK_MS;
      if r.generation == pc.generation && pc.k < |r.allocations| && r.allocations[pc.k].txSignature.None?
         && (r.allocations[pc.k].claimingUntil.None? || r.allocations[pc.k].claimingUntil.value < now) then
        var a := r.allocations[pc.k].(claimingUntil := Some(until));
        Goto(SetRow(s, d, r.(allocations := r.allocations[pc.k := a])), p, pc.(stage := Locked(until, false)))
      else
        Goto(s, p, Finished)
  }

  function CheckEscrow(s: State, p: nat): State {
    if !Runs(s, p) || !s.procs[p].pc.Claiming? || !s.procs[p].pc.stage.Locked? then s
    else
      var pc := s.procs[p].pc;
      if Balance(s.chain.usdc, ESCROW) < pc.payout then Goto(s, p, pc.(stage := Unlocking(pc.stage.until)))
      else Goto(s, p, pc.(stage := Locked(pc.stage.until, true)))
  }

  /** The release and, right after it, its record. */
  function ReleasePayout(s: State, p: nat): State {
    if !Runs(s, p) || !s.procs[p].pc.Claiming? || !s.procs[p].pc.stage.Locked? || !s.procs[p].pc.stage.checked then s
    else
      var d, pc := s.procs[p].d, s.procs[p].pc;
      var r := s.rows[d];
      match Release(s.chain, [Payment(pc.wallet, pc.payout)])
      case None => Goto(s, p, pc.(stage := Unlocking(pc.stage.until)))
      case Some(chain) =>
        var allocs :=
          if r.generation == pc.generation && pc.k < |r.allocations|
          then r.allocations[pc.k := r.allocations[pc.k].(txSignature := Some(Tx(|s.log|)), claimingUntil := None)]
          else r.allocations;
        var log := s.log + [Released(d, pc.wallet, pc.payout)];
        var s' := SetRow(s, d, r.(allocations := allocs)).(chain := chain, log := log);
        Goto(s', p, pc.(stage := Unlocking(pc.stage.until)))
  }

  function ReleaseLock(s: State, p: nat): State {
    if !Runs(s, p) || !s.procs[p].pc.Claiming? || !s.procs[p].pc.stage.Unlocking? then s
    else
      var d, pc := s.procs[p].d, s.procs[p].pc;
      var r := s.rows[d];
      var allocs :=
        if r.generation == pc.generation && pc.k < |r.allocations|
           && r.allocations[pc.k].claimingUntil == Some(pc.stage.until)
        then r.allocations[pc.k := r.allocations[pc.k].(claimingUntil := None)]
        else r.allocations;
      Goto(SetRow(s, d, r.(allocations := allocs)), p, Finished)
  }

  // ------------------------------------------------------------------ runs

  datatype Event =
    | Tick(ms: nat)
    | DoReport(id: string, rightsPool: nat)
    | DoBeginSnapshot(d: nat, holders: seq<Allocation.HolderBalance>, supply: int)
    | DoCommitSnapshot(p: nat)
    | DoBeginExecute(d: nat, typed: nat, mode: PayoutMode)
    | DoTakeLease(p: nat, aim: nat, now: nat)
    | DoReadRow(p: nat)
    | DoCheckBalance(p: nat)
    | DoPayBatch(p: nat)
    | DoRenew(p: nat, aim: nat)
    | DoFund(p: nat)
    | DoMarkExecuted(p: nat)
    | DoFail(p: nat)
    | DoReleaseLease(p: nat)
    | DoCrash(p: nat)
    | DoBeginClaim(d: nat, wallet: string, proof: Option<seq<string>>)
    | DoTakeLock(p: nat, now: nat)
    | DoCheckEscrow(p: nat)
    | DoReleasePayout(p: nat)
    | DoReleaseLock(p: nat)

  /** A step that is not possible leaves the state as it is. */
  function Step(sha: Hasher, s: State, e: Event): State {
    match e
    case Tick(ms) => s.(clock := s.clock + ms)
    case DoReport(id, rightsPool) => Report(s, id, rightsPool)
    case DoBeginSnapshot(d, holders, supply) => BeginSnapshot(s, d, holders, supply)
    case DoCommitSnapshot(p) => CommitSnapshot(s, p)
    case DoBeginExecute(d, typed, mode) => BeginExecute(s, d, typed, mode)
    case DoTakeLease(p, aim, now) => TakeLease(s, p, aim, now)
    case DoReadRow(p) => ReadRow(sha, s, p)
    case DoCheckBalance(p) => CheckBalance(s, p)
    case DoPayBatch(p) => PayBatch(s, p)
    case DoRenew(p, aim) => Renew(s, p, aim)
    case DoFund(p) => Fund(s, p)
    case DoMarkExecuted(p) => MarkExecuted(s, p)
    case DoFail(p) => Fail(s, p)
    case DoReleaseLease(p) => ReleaseLease(s, p)
    case DoCrash(p) => Crash(s, p)
    case DoBeginClaim(d, wallet, proof) => BeginClaim(sha, s, d, wallet, proof)
    case DoTakeLock(p, now) => TakeLock(s, p, now)
    case DoCheckEscrow(p) => CheckEscrow(s, p)
    case DoReleasePayout(p) => ReleasePayout(s, p)
    case DoReleaseLock(p) => ReleaseLock(s, p)
  }

  function Run(sha: Hasher, s: State, es: seq<Event>): State {
    if es == [] then s else Step(sha, Run(sha, s, es[..|es| - 1]), es[|es| - 1])
  }
}
