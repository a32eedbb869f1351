/** Both guards the handlers lack can be missed in a run that starts from nothing: each of these runs
    breaks a theorem. What happens in general is in `LifecycleGuards` and `LifecycleSchedule`. */
module LifecycleLimits {
  import opened Wrappers
  import opened Text
  import opened Sums
  import opened Merkle
  import opened Ledger
  import opened Lifecycle
  import opened LifecycleInv
  import opened LifecycleProof
  import Allocation
  import Sorting

  const HOLDER: Allocation.HolderBalance :=
    Allocation.HolderBalance("w", "account", 1, Allocation.Participant, Some("p"))
  const START: State := State(0, [], [], Chain(10, map[]), [])
  const PAYABLE: Alloc := Alloc("w", 2, None, None)
  const LEASE: int := 120_000

  /** `HOLDER` owns the whole supply, so the whole pool of 2 is theirs. */
  lemma OneHolder()
    ensures var r := Allocation.Allocate([HOLDER], 1, 2);
      && r.Ok? && r.value.totalAllocated == 2 && |r.value.rows| == 1
      && r.value.rows[0].owner == "w" && r.value.rows[0].payout == 2
  {
    var m := Allocation.MergedHolder("w", Allocation.Participant, Some("p"), 1);
    HolderMerges();
    SumOne(m, Allocation.Tokens);
    HolderAllots(m);
  }

  lemma HolderMerges()
    ensures Allocation.MergeError([HOLDER]) == None
    ensures Allocation.Merged([HOLDER]) == [Allocation.MergedHolder("w", Allocation.Participant, Some("p"), 1)]
  {
    assert [HOLDER][..0] == [];
    assert Allocation.Owners([]) == [] && Allocation.FirstId([], "w") == None && Allocation.MergeError([]) == None;
    assert Allocation.Owners([HOLDER]) == ["w"] && Allocation.FirstId([HOLDER], "w") == Some("p");
    assert Allocation.FirstKind([HOLDER], "w") == Allocation.Participant;
    SumOne(HOLDER, Allocation.AmountFor("w"));
  }

  lemma HolderAllots(m: Allocation.MergedHolder)
    requires m == Allocation.MergedHolder("w", Allocation.Participant, Some("p"), 1)
    ensures var r := Allocation.Allot([m], 1, 2);
      r.totalAllocated == 2 && |r.rows| == 1 && r.rows[0].owner == "w" && r.rows[0].payout == 2
  {
    var row := Allocation.AllocationRow("w", Some("p"), 1, 2);
    assert [m][..0] == [] && Allocation.RowsOf([], 2, 1) == [];
    assert Allocation.RowFor(m, 2, 1) == row && Allocation.RowsOf([m], 2, 1) == [row];
    assert [row][1..] == [] && Sorting.Sort([row], Allocation.RowLeq) == [row];
    SumOne(row, Allocation.Payout);
  }

  lemma RunThree(sha: Hasher, s: State, a: Event, b: Event, c: Event)
    ensures Run(sha, s, [a, b, c]) == Step(sha, Step(sha, Step(sha, s, a), b), c)
  {
    hide Step;
    assert [a, b, c][..2] == [a, b] && [a, b][..1] == [a] && [a][..0] == [];
    assert Run(sha, s, [a]) == Step(sha, s, a);
    assert Run(sha, s, [a, b]) == Step(sha, Run(sha, s, [a]), b);
  }

  // ------------------------------------------------------------------ a direct execution on a funded row

  function TakeSnapshot(): seq<Event> {
    [DoReport("d", 2), DoBeginSnapshot(0, [HOLDER], 1), DoCommitSnapshot(0)]
  }

  /** Two executions start, the second in escrow mode takes the lease. */
  function StartBoth(): seq<Event> {
    [DoBeginExecute(0, 2, Direct), DoBeginExecute(0, 2, Escrow), DoTakeLease(2, 0, 0)]
  }

  function FundEscrow(): seq<Event> {
    [DoReadRow(2), DoCheckBalance(2), DoFund(2)]
  }

  /** It fails before EXECUTED and gives the lease back, and the first one takes it. */
  function HandOver(): seq<Event> {
    [DoFail(2), DoReleaseLease(2), DoTakeLease(1, 0, 0)]
  }

  function PayDirectly(): seq<Event> {
    [DoReadRow(1), DoCheckBalance(1), DoPayBatch(1)]
  }

  function Snapped(): Row {
    Row("d", 2, Snapshotted, None, Some(2), Direct, None, None, 1, [PAYABLE])
  }

  function AfterSnapshot(): State {
    State(0, [Snapped()], [Proc(0, 0, Finished)], Chain(10, map[]), [])
  }

  lemma SnapshotTaken(sha: Hasher)
    ensures Run(sha, START, TakeSnapshot()) == AfterSnapshot()
  {
    hide Allocation.Allocate;
    OneHolder();
    RunThree(sha, START, DoReport("d", 2), DoBeginSnapshot(0, [HOLDER], 1), DoCommitSnapshot(0));
    var s1 := Report(START, "d", 2);
    assert s1.rows == [Row("d", 2, Draft, None, None, Direct, None, None, 0, [])];
    assert SnapshotAllowed(s1.rows[0], 0);
    var s2 := BeginSnapshot(s1, 0, [HOLDER], 1);
    AllocsOfOne(Allocation.Allocate([HOLDER], 1, 2).value.rows);
    assert s2.procs == [Proc(0, 0, Snapshotting([PAYABLE], 2))];
    assert Runs(s2, 0) && Commits(s2.rows[0], 0);
  }

  lemma AllocsOfOne(rows: seq<Allocation.AllocationRow>)
    requires |rows| == 1 && rows[0].owner == "w" && rows[0].payout == 2
    ensures AllocsFrom(rows) == [PAYABLE]
  {
  }

  function Root0(sha: Hasher): string {
    ClaimRoot(sha, Snapped())
  }

  function FundedRow0(sha: Hasher, until: Option<int>): Row {
    Row("d", 2, Snapshotted, until, Some(2), Escrow, Some(Root0(sha)), Some(Tx(0)), 1, [PAYABLE])
  }

  function FundedState(sha: Hasher): State {
    State(0, [FundedRow0(sha, Some(LEASE))],
          [Proc(0, 0, Finished), Proc(0, 0, Executing(2, Direct)),
           Proc(0, 0, Holding(2, LEASE, ToMark(Root0(sha), Tx(0))))],
          Chain(8, map[ESCROW := 2]), [Fundings(0, 2, 2)])
  }

  /** Both executions are under way and the escrow one holds the lease. */
  function Started(): State {
    State(0, [Snapped().(executingUntil := Some(LEASE))],
          [Proc(0, 0, Finished), Proc(0, 0, Executing(2, Direct)), Proc(0, 0, Holding(2, LEASE, Fresh(Escrow)))],
          Chain(10, map[]), [])
  }

  lemma BothStarted(sha: Hasher)
    ensures Run(sha, AfterSnapshot(), StartBoth()) == Started()
  {
    hide ClaimRoot;
    RunThree(sha, AfterSnapshot(), DoBeginExecute(0, 2, Direct), DoBeginExecute(0, 2, Escrow), DoTakeLease(2, 0, 0));
    var s1 := BeginExecute(AfterSnapshot(), 0, 2, Direct);
    assert s1.procs == [Proc(0, 0, Finished), Proc(0, 0, Executing(2, Direct))];
    var s2 := BeginExecute(s1, 0, 2, Escrow);
    assert s2.procs == [Proc(0, 0, Finished), Proc(0, 0, Executing(2, Direct)), Proc(0, 0, Executing(2, Escrow))];
    assert Runs(s2, 2);
  }

  lemma EscrowFunded(sha: Hasher)
    ensures Run(sha, Started(), FundEscrow()) == FundedState(sha)
  {
    hide ClaimRoot;
    RunThree(sha, Started(), DoReadRow(2), DoCheckBalance(2), DoFund(2));
    SumOne(PAYABLE, OpenPayout);
    SameRoot(sha);
    var s4 := ReadRow(sha, Started(), 2);
    assert s4.procs[2].pc == Holding(2, LEASE, ToFund(Root0(sha), 2, false));
    var s5 := CheckBalance(s4, 2);
    assert s5.procs[2].pc == Holding(2, LEASE, ToFund(Root0(sha), 2, true));
    OnePaid(Chain(10, map[]), Payment(ESCROW, 2));
  }

  lemma SameRoot(sha: Hasher)
    ensures ClaimRoot(sha, Snapped().(executingUntil := Some(LEASE))) == Root0(sha)
  {
  }

  lemma OnePaid(c: Chain, x: Payment)
    requires c.issuerUsdc >= x.amount
    ensures TransferBatch(c, [x]) == Some(Chain(c.issuerUsdc - x.amount, Credit(c.usdc, x)))
  {
    SumOne(x, Amount);
    assert [x][..0] == [] && CreditAll(c.usdc, []) == c.usdc;
    assert CreditAll(c.usdc, [x]) == Credit(c.usdc, x);
  }

  /** The stale direct execution holds the lease of the funded row. */
  function HandedOver(sha: Hasher): State {
    State(0, [FundedRow0(sha, Some(LEASE))],
          [Proc(0, 0, Finished), Proc(0, 0, Holding(2, LEASE, Fresh(Direct))), Proc(0, 0, Finished)],
          Chain(8, map[ESCROW := 2]), [Fundings(0, 2, 2)])
  }

  lemma LeaseHandedOver(sha: Hasher)
    ensures Run(sha, FundedState(sha), HandOver()) == HandedOver(sha)
  {
    hide ClaimRoot;
    RunThree(sha, FundedState(sha), DoFail(2), DoReleaseLease(2), DoTakeLease(1, 0, 0));
    var s1 := Fail(FundedState(sha), 2);
    assert s1.procs[2].pc == Leaving(LEASE);
    var s2 := ReleaseLease(s1, 2);
    assert s2.rows == [FundedRow0(sha, None)];
    assert Runs(s2, 1) && LeaseFree(s2.rows[0], 0);
  }

  lemma OneDue(r: Row)
    requires r.allocations == [PAYABLE]
    ensures Unpaid(r) == [Due(0, "w", 2)]
  {
    assert [PAYABLE][..0] == [] && Dues([PAYABLE]) == [Due(0, "w", 2)];
    assert [Due(0, "w", 2)][1..] == [];
  }

  lemma StaleDirectPays(sha: Hasher)
    ensures var s := Run(sha, HandedOver(sha), PayDirectly());
      |s.rows| == 1 && s.rows[0].totalAllocated == Some(2) && s.log == [Fundings(0, 2, 2), Paid(0, "w", 2, 2)]
  {
    hide ClaimRoot;
    RunThree(sha, HandedOver(sha), DoReadRow(1), DoCheckBalance(1), DoPayBatch(1));
    var s3 := HandedOver(sha);
    OneDue(s3.rows[0]);
    var due := Due(0, "w", 2);
    var s4 := ReadRow(sha, s3, 1);
    assert s4.procs[1].pc == Holding(2, LEASE, ToPay(1, [due], false));
    SumOne(due, DueAmount);
    var s5 := CheckBalance(s4, 1);
    assert s5.procs[1].pc == Holding(2, LEASE, ToPay(1, [due], true));
    assert PaymentsFor([due]) == [Payment("w", 2)] && PaidNotes(0, [due], 2) == [Paid(0, "w", 2, 2)];
    OnePaid(s5.chain, Payment("w", 2));
  }

  /** Then the issuer has paid twice what the founder confirmed. */
  lemma StaleDirectExecutionPaysTwice(sha: Hasher)
    ensures Init(START)
    ensures var s := Run(sha, START, TakeSnapshot() + StartBoth() + FundEscrow() + HandOver() + PayDirectly());
      |s.rows| == 1 && s.rows[0].totalAllocated == Some(2) && IssuerOut(s.log, 0) == 4
  {
    hide Run;
    RunConcat(sha, START, TakeSnapshot(), StartBoth());
    RunConcat(sha, START, TakeSnapshot() + StartBoth(), FundEscrow());
    RunConcat(sha, START, TakeSnapshot() + StartBoth() + FundEscrow(), HandOver());
    RunConcat(sha, START, TakeSnapshot() + StartBoth() + FundEscrow() + HandOver(), PayDirectly());
    SnapshotTaken(sha);
    BothStarted(sha);
    EscrowFunded(sha);
    LeaseHandedOver(sha);
    StaleDirectPays(sha);
    var funding, paid := Fundings(0, 2, 2), Paid(0, "w", 2, 2);
    assert [funding, paid] == [funding] + [paid];
    SumConcat([funding], [paid], OutFor(0));
    SumOne(funding, OutFor(0));
    SumOne(paid, OutFor(0));
  }

  lemma RunTwo(sha: Hasher, s: State, a: Event, b: Event)
    ensures Run(sha, s, [a, b]) == Step(sha, Step(sha, s, a), b)
  {
    hide Step;
    assert [a, b][..1] == [a] && [a][..0] == [];
    assert Run(sha, s, [a]) == Step(sha, s, a);
  }

  /** The stale direct execution reads the row and stops short of paying. */
  function ReadDirectly(): seq<Event> {
    [DoReadRow(1), DoCheckBalance(1)]
  }

  /** The holder claims, up to the release. */
  function StartClaim(): seq<Event> {
    [DoBeginClaim(0, "w", None), DoTakeLock(3, 0), DoCheckEscrow(3)]
  }

  function PayBoth(): seq<Event> {
    [DoReleasePayout(3), DoPayBatch(1)]
  }

  function Checked(sha: Hasher): State {
    HandedOver(sha).(procs := [Proc(0, 0, Finished),
                               Proc(0, 0, Holding(2, LEASE, ToPay(1, [Due(0, "w", 2)], true))),
                               Proc(0, 0, Finished)])
  }

  function ClaimLocked(sha: Hasher): State {
    Checked(sha).(rows := [FundedRow0(sha, Some(LEASE)).(allocations := [Alloc("w", 2, None, Some(120_000))])],
                  procs := Checked(sha).procs + [Claim(Locked(120_000, true))])
  }

  lemma DirectChecked(sha: Hasher)
    ensures Run(sha, HandedOver(sha), ReadDirectly()) == Checked(sha)
  {
    hide ClaimRoot;
    RunTwo(sha, HandedOver(sha), DoReadRow(1), DoCheckBalance(1));
    OneDue(HandedOver(sha).rows[0]);
    SumOne(Due(0, "w", 2), DueAmount);
    var s1 := ReadRow(sha, HandedOver(sha), 1);
    assert s1.procs[1].pc == Holding(2, LEASE, ToPay(1, [Due(0, "w", 2)], false));
    assert CheckBalance(s1, 1).procs == Checked(sha).procs;
  }

  /** The holder's claim at the given stage. */
  function Claim(stage: Stage): Proc {
    Proc(0, 0, Claiming(1, 0, "w", 2, stage))
  }

  lemma HolderBegins(sha: Hasher)
    ensures BeginClaim(sha, Checked(sha), 0, "w", None) ==
      Checked(sha).(procs := Checked(sha).procs + [Claim(Found)])
  {
    hide ClaimRoot;
    FundedRootIs(sha);
  }

  lemma HolderTakesLock(sha: Hasher)
    ensures TakeLock(Checked(sha).(procs := Checked(sha).procs + [Claim(Found)]), 3, 0) ==
      ClaimLocked(sha).(procs := Checked(sha).procs + [Claim(Locked(120_000, false))])
  {
    hide ClaimRoot;
    var s := Checked(sha).(procs := Checked(sha).procs + [Claim(Found)]);
    assert Runs(s, 3) && s.procs[3] == Claim(Found) && s.rows[0].allocations == [PAYABLE];
    var s' := TakeLock(s, 3, 0);
    assert s'.procs == Checked(sha).procs + [Claim(Locked(120_000, false))];
    assert s'.rows[0].allocations == [Alloc("w", 2, None, Some(120_000))];
    assert s'.rows == ClaimLocked(sha).rows;
  }

  lemma HolderChecks(sha: Hasher)
    ensures CheckEscrow(ClaimLocked(sha).(procs := Checked(sha).procs + [Claim(Locked(120_000, false))]), 3) ==
      ClaimLocked(sha)
  {
    hide ClaimRoot;
    var s := ClaimLocked(sha).(procs := Checked(sha).procs + [Claim(Locked(120_000, false))]);
    assert Runs(s, 3) && s.procs[3] == Claim(Locked(120_000, false)) && Balance(s.chain.usdc, ESCROW) == 2;
    assert CheckEscrow(s, 3).procs == ClaimLocked(sha).procs;
  }

  lemma HolderLocks(sha: Hasher)
    ensures Run(sha, Checked(sha), StartClaim()) == ClaimLocked(sha)
  {
    hide Run, BeginClaim, TakeLock, CheckEscrow, Checked, ClaimLocked;
    RunThree(sha, Checked(sha), DoBeginClaim(0, "w", None), DoTakeLock(3, 0), DoCheckEscrow(3));
    HolderBegins(sha);
    HolderTakesLock(sha);
    HolderChecks(sha);
  }

  lemma FundedRootIs(sha: Hasher)
    ensures ClaimRoot(sha, FundedRow0(sha, Some(LEASE))) == Root0(sha)
  {
  }

  lemma HolderIsPaid(sha: Hasher)
    ensures var s := ReleasePayout(ClaimLocked(sha), 3);
      && s.log == [Fundings(0, 2, 2), Released(0, "w", 2)] && s.chain.issuerUsdc == 8 && s.clock == 0
      && |s.rows| == 1 && |s.procs| == 4 && s.procs[1] == ClaimLocked(sha).procs[1]
  {
    hide ClaimRoot;
    var s := ClaimLocked(sha);
    SumOne(Payment("w", 2), Amount);
    assert Runs(s, 3) && Release(s.chain, [Payment("w", 2)]).Some?;
  }

  lemma DirectPaysToo(sha: Hasher, s: State)
    requires s.log == [Fundings(0, 2, 2), Released(0, "w", 2)] && s.chain.issuerUsdc == 8 && s.clock == 0
    requires |s.rows| == 1 && |s.procs| == 4 && s.procs[1] == ClaimLocked(sha).procs[1]
    ensures PayBatch(s, 1).log == [Fundings(0, 2, 2), Released(0, "w", 2), Paid(0, "w", 2, 2)]
  {
    hide ClaimRoot, SignAll;
    assert Runs(s, 1) && s.procs[1].pc == Holding(2, LEASE, ToPay(1, [Due(0, "w", 2)], true));
    var due := Due(0, "w", 2);
    assert PaymentsFor([due]) == [Payment("w", 2)] && PaidNotes(0, [due], 2) == [Paid(0, "w", 2, 2)];
    OnePaid(s.chain, Payment("w", 2));
  }

  lemma BothPay(sha: Hasher)
    ensures Run(sha, ClaimLocked(sha), PayBoth()).log == [Fundings(0, 2, 2), Released(0, "w", 2), Paid(0, "w", 2, 2)]
  {
    hide Run, ReleasePayout, PayBatch, ClaimLocked;
    RunTwo(sha, ClaimLocked(sha), DoReleasePayout(3), DoPayBatch(1));
    HolderIsPaid(sha);
    DirectPaysToo(sha, ReleasePayout(ClaimLocked(sha), 3));
  }

  /** And a holder who claims in time is paid twice. */
  lemma WalletPaidTwice(sha: Hasher)
    ensures Init(START)
    ensures var es :=
        TakeSnapshot() + StartBoth() + FundEscrow() + HandOver() + ReadDirectly() + StartClaim() + PayBoth();
      Payments(Run(sha, START, es).log, 0, "w") == [2, 2]
  {
    hide Run;
    var es := TakeSnapshot() + StartBoth() + FundEscrow();
    RunConcat(sha, START, TakeSnapshot(), StartBoth());
    RunConcat(sha, START, TakeSnapshot() + StartBoth(), FundEscrow());
    RunConcat(sha, START, es, HandOver());
    RunConcat(sha, START, es + HandOver(), ReadDirectly());
    RunConcat(sha, START, es + HandOver() + ReadDirectly(), StartClaim());
    RunConcat(sha, START, es + HandOver() + ReadDirectly() + StartClaim(), PayBoth());
    SnapshotTaken(sha);
    BothStarted(sha);
    EscrowFunded(sha);
    LeaseHandedOver(sha);
    DirectChecked(sha);
    HolderLocks(sha);
    BothPay(sha);
    TwoPayments();
  }

  lemma TwoPayments()
    ensures Payments([Fundings(0, 2, 2), Released(0, "w", 2), Paid(0, "w", 2, 2)], 0, "w") == [2, 2]
  {
    var a, b, c := Fundings(0, 2, 2), Released(0, "w", 2), Paid(0, "w", 2, 2);
    assert [a, b, c] == [a, b] + [c] && [a, b] == [a] + [b] && [a] == [] + [a];
    PaymentsAppend([], a, 0, "w");
    PaymentsAppend([a], b, 0, "w");
    PaymentsAppend([a, b], c, 0, "w");
  }

  // ------------------------------------------------------------------ a snapshot over a funded row

  /** The escrow execution dies, its lease runs out, and a new snapshot finds the token sold. */
  function Resnapshot(): seq<Event> {
    [DoCrash(2), Tick(130_000), DoBeginSnapshot(0, [], 1)]
  }

  function Expired(sha: Hasher): State {
    State(130_000, [FundedRow0(sha, Some(LEASE))],
          [Proc(0, 0, Finished), Proc(0, 0, Executing(2, Direct)), Proc(0, 0, Finished),
           Proc(0, 130_000, Snapshotting([], 0))],
          Chain(8, map[ESCROW := 2]), [Fundings(0, 2, 2)])
  }

  lemma NobodyHolds()
    ensures Allocation.Allocate([], 1, 2).Ok?
    ensures var r := Allocation.Allocate([], 1, 2).value; r.rows == [] && r.totalAllocated == 0
  {
    assert Allocation.Owners([]) == [] && Allocation.Merged([]) == [] && Allocation.MergeError([]) == None;
    assert Allocation.RowsOf([], 2, 1) == [] && Sum<Allocation.MergedHolder>([], Allocation.Tokens) == 0;
    assert Sum<Allocation.AllocationRow>([], Allocation.Payout) == 0;
  }

  lemma SnapshotPending(sha: Hasher)
    ensures Run(sha, FundedState(sha), Resnapshot()) == Expired(sha)
  {
    hide ClaimRoot, Allocation.Allocate;
    RunThree(sha, FundedState(sha), DoCrash(2), Tick(130_000), DoBeginSnapshot(0, [], 1));
    NobodyHolds();
    var s2 := Crash(FundedState(sha), 2).(clock := 130_000);
    assert !AnySigned(s2.rows[0].allocations) && SnapshotAllowed(s2.rows[0], 130_000);
  }

  /** Then the escrow is funded for a table that is gone: nobody can claim the 2 units in it, and
      the recorded total is not what left the issuer. */
  lemma SnapshotAfterFundingLosesTheTable(sha: Hasher)
    ensures Init(START)
    ensures var es := TakeSnapshot() + StartBoth() + FundEscrow() + Resnapshot() + [DoCommitSnapshot(3)];
      var s := Run(sha, START, es);
      && |s.rows| == 1 && Funded(s.rows[0]) && Balance(s.chain.usdc, ESCROW) == 2
      && s.rows[0].allocations == [] && s.rows[0].totalAllocated == Some(0) && IssuerOut(s.log, 0) == 2
  {
    hide ClaimRoot;
    var es := TakeSnapshot() + StartBoth() + FundEscrow();
    RunConcat(sha, START, TakeSnapshot(), StartBoth());
    RunConcat(sha, START, TakeSnapshot() + StartBoth(), FundEscrow());
    RunConcat(sha, START, es, Resnapshot());
    SnapshotTaken(sha);
    BothStarted(sha);
    EscrowFunded(sha);
    SnapshotPending(sha);
    RunConcat(sha, START, es + Resnapshot(), [DoCommitSnapshot(3)]);
    LastCommit(sha);
  }

  lemma LastCommit(sha: Hasher)
    ensures var s := Run(sha, Expired(sha), [DoCommitSnapshot(3)]);
      && |s.rows| == 1 && Funded(s.rows[0]) && Balance(s.chain.usdc, ESCROW) == 2
      && s.rows[0].allocations == [] && s.rows[0].totalAllocated == Some(0) && IssuerOut(s.log, 0) == 2
  {
    hide ClaimRoot;
    var s := Expired(sha);
    assert [DoCommitSnapshot(3)][..0] == [] && Run(sha, s, []) == s;
    assert Runs(s, 3) && !AnySigned(s.rows[0].allocations) && Commits(s.rows[0], 130_000);
    SumOne(Fundings(0, 2, 2), OutFor(0));
  }
}
