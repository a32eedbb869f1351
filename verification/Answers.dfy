/** What the handlers answer (apps/web/lib/server/distribution.ts and escrow.ts), and what each answer
    says of the database, the ledger and the process at the moment it was decided. */
module Answers {
  import opened Wrappers
  import opened Sums
  import opened Merkle
  import opened Ledger
  import opened Lifecycle
  import opened LifecycleModes
  import Allocation
  import ClaimTree

  datatype Outcome =
    | NotFound | NotSnapshotted | ConfirmTotalMismatch | AlreadyExecuted | ExecutionInProgress
    | InsufficientBalance | TransferFailed | ServerError | PaidOut | Killed

  datatype ClaimOutcome =
    | NoDistribution | NotEscrowed | RootMismatch | NoAllocation | InvalidProof | AlreadyClaimed(signature: Signature)
    | ClaimInProgress | EscrowInsufficient | ClaimFailed | ClaimError | Claimed(signature: Signature) | ClaimKilled

  datatype SnapshotOutcome =
    | Taken | Missing | AlreadyFinal | SnapshotInProgress | PayoutsRecorded
    | NotAllocated(error: Allocation.AllocationError) | SnapshotError | SnapshotKilled

  // ------------------------------------------------------------------ moments of a run

  /** The server was in that state at some moment after the first `from` steps of its trace. */
  ghost predicate Passed(sha: Hasher, start: State, trace: seq<Event>, from: nat, s: State) {
    exists n: nat :: from <= n <= |trace| && s == Run(sha, start, trace[..n])
  }

  lemma PassesNow(sha: Hasher, start: State, trace: seq<Event>, from: nat)
    requires from <= |trace|
    ensures Passed(sha, start, trace, from, Run(sha, start, trace))
  {
    assert trace[..|trace|] == trace;
  }

  lemma PassedEarlier(sha: Hasher, start: State, trace: seq<Event>, trace': seq<Event>, from: nat, from': nat, s: State)
    requires Passed(sha, start, trace, from, s) && trace <= trace' && from' <= from
    ensures Passed(sha, start, trace', from', s)
  {
    var n: nat :| from <= n <= |trace| && s == Run(sha, start, trace[..n]);
    assert trace'[..n] == trace[..n];
  }

  // ------------------------------------------------------------------ executing

  /** The claim tree of the row cannot be built. */
  ghost predicate Treeless(r: Row) {
    exists i, j ::
      && 0 <= i < j < |r.allocations| && r.allocations[i].wallet == r.allocations[j].wallet
      && r.allocations[i].payout > 0 && r.allocations[j].payout > 0
  }

  /** What `assertExecutable` and the early answer report. */
  ghost predicate GateStops(s: State, d: nat, typed: nat, out: Outcome) {
    match out
    case NotFound => d >= |s.rows|
    case NotSnapshotted => d < |s.rows| && (s.rows[d].status == Draft || s.rows[d].totalAllocated.None?)
    case ConfirmTotalMismatch =>
      && d < |s.rows| && s.rows[d].status != Draft
      && s.rows[d].totalAllocated.Some? && s.rows[d].totalAllocated.value != typed
    case AlreadyExecuted =>
      d < |s.rows| && s.rows[d].status == Executed && s.rows[d].totalAllocated == Some(typed)
    case _ => false
  }

  /** Another execution's lease, not run out when the request began. */
  ghost predicate LeaseTaken(s: State, d: nat, began: nat) {
    d < |s.rows| && s.rows[d].executingUntil.Some? && s.rows[d].executingUntil.value >= began
  }

  /** The row no longer named the lease the process had paid its last batch under. */
  ghost predicate LostLease(s: State, me: nat, d: nat) {
    && d < |s.rows| && me < |s.procs| && s.procs[me].pc.Holding? && s.procs[me].pc.phase.Batched?
    && s.rows[d].executingUntil != Some(s.procs[me].pc.lease)
  }

  /** The issuer held less than all that was left to pay or to fund. */
  ghost predicate Short(s: State, me: nat) {
    && me < |s.procs| && s.procs[me].pc.Holding?
    && match s.procs[me].pc.phase
       case ToPay(_, unpaid, false) => s.chain.issuerUsdc < Sum(unpaid, DueAmount)
       case ToFund(_, remaining, false) => s.chain.issuerUsdc < remaining
       case _ => false
  }

  /** The issuer held less than the transfer under way. */
  ghost predicate Refused(s: State, me: nat) {
    && me < |s.procs| && s.procs[me].pc.Holding?
    && match s.procs[me].pc.phase
       case ToPay(_, unpaid, true) => s.chain.issuerUsdc < Sum(NextBatch(unpaid), DueAmount)
       case ToFund(_, remaining, true) => s.chain.issuerUsdc < remaining
       case _ => false
  }

  predicate Dead(s: State, me: nat) {
    me < |s.procs| && !Alive(s.clock, s.procs[me])
  }

  /** Why a payment under a lease ends so. `threw`: a call it waited for has thrown. */
  ghost predicate EndsBecause(s: State, me: nat, d: nat, threw: bool, out: Outcome) {
    match out
    case ExecutionInProgress => LostLease(s, me, d)
    case InsufficientBalance => Short(s, me)
    case TransferFailed => Refused(s, me)
    case ServerError => threw || (d < |s.rows| && Treeless(s.rows[d]))
    case Killed => Dead(s, me)
    case PaidOut => d < |s.rows| && s.rows[d].status == Executed
    case _ => false
  }

  /** Why an execution of the request that began at that time is answered so. */
  ghost predicate Because(s: State, me: nat, d: nat, typed: nat, began: nat, threw: bool, out: Outcome) {
    match out
    case NotFound => GateStops(s, d, typed, out)
    case NotSnapshotted => GateStops(s, d, typed, out)
    case ConfirmTotalMismatch => GateStops(s, d, typed, out)
    case AlreadyExecuted => GateStops(s, d, typed, out)
    case ExecutionInProgress => LeaseTaken(s, d, began) || LostLease(s, me, d)
    case _ => EndsBecause(s, me, d, threw, out)
  }

  // ------------------------------------------------------------------ snapshots

  /** What `assertSnapshotAllowed` reports at that time. */
  ghost predicate SnapshotStops(r: Row, now: int, out: SnapshotOutcome) {
    match out
    case AlreadyFinal => r.status == Executed
    case SnapshotInProgress => r.status != Executed && r.executingUntil.Some? && r.executingUntil.value >= now
    case PayoutsRecorded => r.status != Executed && PartlyPaid(r)
    case _ => false
  }

  /** Nothing speaks against a snapshot at that time. */
  ghost predicate SnapshotFits(r: Row, now: int) {
    && r.status != Executed && (r.executingUntil.None? || r.executingUntil.value < now)
    && !PartlyPaid(r)
  }

  /** Why a snapshot is answered so. */
  ghost predicate SnapshotBecause(s: State, me: nat, d: nat, holders: seq<Allocation.HolderBalance>, supply: int,
                                  threw: bool, out: SnapshotOutcome)
  {
    match out
    case Taken => d < |s.rows| && SnapshotFits(s.rows[d], s.clock)
    case Missing => d >= |s.rows|
    case NotAllocated(e) => d < |s.rows| && Allocation.Allocate(holders, supply, s.rows[d].rightsPool) == Err(e)
    case SnapshotError => threw
    case SnapshotKilled => Dead(s, me)
    case _ => d < |s.rows| && SnapshotStops(s.rows[d], s.clock, out)
  }

  // ------------------------------------------------------------------ claims

  /** Allocation `k` is the wallet's first payable one. */
  ghost predicate FirstPayable(r: Row, wallet: string, k: nat) {
    && k < |r.allocations| && r.allocations[k].wallet == wallet && r.allocations[k].payout > 0
    && forall j :: 0 <= j < k ==> !(r.allocations[j].wallet == wallet && r.allocations[j].payout > 0)
  }

  /** The escrow of the row is funded and its root is the one of its allocations. */
  ghost predicate Intact(sha: Hasher, r: Row) {
    r.payoutMode == Escrow && r.escrowFundSignature.Some? && r.merkleRoot == Some(ClaimRoot(sha, r))
  }

  /** What a claim is told before it takes its lock. */
  ghost predicate ClaimStops(sha: Hasher, s: State, d: nat, wallet: string, proof: Option<seq<string>>,
                             out: ClaimOutcome)
  {
    if d >= |s.rows| then out == NoDistribution
    else
      var r := s.rows[d];
      match out
      case NotEscrowed => r.payoutMode != Escrow || r.escrowFundSignature.None? || r.merkleRoot.None?
      case RootMismatch => r.merkleRoot.Some? && (r.merkleRoot.value != ClaimRoot(sha, r) || Treeless(r))
      case NoAllocation => forall k :: 0 <= k < |r.allocations| && r.allocations[k].wallet == wallet ==>
        r.allocations[k].payout == 0
      case InvalidProof =>
        && proof.Some? && r.merkleRoot.Some?
        && exists k: nat :: FirstPayable(r, wallet, k)
             && !ClaimTree.Verifies(sha, ClaimRow(r.id, wallet, r.allocations[k].payout), proof.value,
                                    r.merkleRoot.value)
      case AlreadyClaimed(signature) =>
        Intact(sha, r) && exists k: nat :: FirstPayable(r, wallet, k) && r.allocations[k].txSignature == Some(signature)
      case _ => false
  }

  /** Why a claim that got past its checks on allocation `k` is answered so. */
  ghost predicate ClaimBecause(s: State, me: nat, d: nat, generation: nat, k: nat, wallet: string, payout: nat,
                               began: nat, threw: bool, out: ClaimOutcome)
  {
    match out
    case ClaimKilled => Dead(s, me)
    case ClaimError =>
      threw
      || (d < |s.rows| && (s.rows[d].generation != generation || k >= |s.rows[d].allocations|
                           || s.rows[d].allocations[k].wallet != wallet))
    case EscrowInsufficient => Balance(s.chain.usdc, ESCROW) < payout
    case ClaimFailed => Balance(s.chain.usdc, ESCROW) < payout
    case ClaimInProgress =>
      && d < |s.rows| && s.rows[d].generation == generation && k < |s.rows[d].allocations|
      && s.rows[d].allocations[k].txSignature.None?
      && s.rows[d].allocations[k].claimingUntil.Some? && s.rows[d].allocations[k].claimingUntil.value >= began
    case AlreadyClaimed(signature) =>
      && d < |s.rows| && s.rows[d].generation == generation && k < |s.rows[d].allocations|
      && s.rows[d].allocations[k].txSignature == Some(signature)
    case Claimed(signature) => signature == Tx(|s.log|)
    case _ => false
  }
}
