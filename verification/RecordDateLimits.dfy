/** Two distributions of one issuance open at once: the record date moves back. */
module RecordDateLimits {
  import opened Wrappers
  import opened Text
  import opened Sums
  import opened Merkle
  import opened Ledger
  import opened Lifecycle
  import opened LifecycleInv
  import opened Civil
  import opened Calendar
  import opened RecordDates
  import Allocation
  import LifecycleLimits
  import Sorting

  const DRAFT: Row := Row("d", 2, Draft, None, None, Direct, None, None, 0, [])

  function SnappedRow(until: Option<int>): Row {
    Row("d", 2, Snapshotted, until, Some(0), Direct, None, None, 1, [])
  }

  /** The third and the first quarter of 2026, filed for the same issuance. */
  function Quarter(i: nat): Filed {
    Filed(0, Quarterly, Label(Quarterly, 2026, i))
  }

  const EMPTY: Dated := Dated(State(0, [], [], Chain(0, map[]), []), [], map[], map[])

  lemma RunTwo(sha: Hasher, x: Dated, a: DatedEvent, b: DatedEvent)
    ensures DatedRun(sha, x, [a, b]) == DatedStep(sha, DatedStep(sha, x, a), b)
  {
    hide DatedStep;
    assert [a, b][..1] == [a] && [a][..0] == [];
    assert DatedRun(sha, x, [a]) == DatedStep(sha, x, a);
  }

  lemma {:induction false} DatedConcat(sha: Hasher, x: Dated, xs: seq<DatedEvent>, ys: seq<DatedEvent>)
    ensures DatedRun(sha, x, xs + ys) == DatedRun(sha, DatedRun(sha, x, xs), ys)
  {
    hide DatedStep;
    if ys == [] {
      assert xs + ys == xs;
    } else {
      DatedConcat(sha, x, xs, ys[..|ys| - 1]);
      assert (xs + ys)[..|xs + ys| - 1] == xs + ys[..|ys| - 1];
    }
  }

  // ------------------------------------------------------------------ the pieces of the run

  function SnapshotEvents(d: nat, p: nat): seq<DatedEvent> {
    [Does(DoBeginSnapshot(d, [], 1)), Does(DoCommitSnapshot(p))]
  }

  function AfterSnapshot(x: Dated, d: nat): Dated
    requires d < |x.s.rows|
  {
    x.(s := x.s.(rows := x.s.rows[d := SnappedRow(None)], procs := x.s.procs + [Proc(d, 0, Finished)]))
  }

  lemma SnapshotBegins(s: State, d: nat)
    requires d < |s.rows| && s.rows[d] == DRAFT && s.clock == 0
    ensures BeginSnapshot(s, d, [], 1) == s.(procs := s.procs + [Proc(d, 0, Snapshotting([], 0))])
  {
    hide Allocation.Allocate;
    LifecycleLimits.NobodyHolds();
  }

  lemma SnapshotCommits(s: State, d: nat)
    requires d < |s.rows| && s.rows[d] == DRAFT && s.clock == 0
    ensures CommitSnapshot(s.(procs := s.procs + [Proc(d, 0, Snapshotting([], 0))]), |s.procs|) ==
      s.(rows := s.rows[d := SnappedRow(None)], procs := s.procs + [Proc(d, 0, Finished)])
  {
    var p, s1 := |s.procs|, s.(procs := s.procs + [Proc(d, 0, Snapshotting([], 0))]);
    assert Runs(s1, p) && s1.procs[p] == Proc(d, 0, Snapshotting([], 0)) && Commits(s1.rows[d], 0);
    assert CommitSnapshot(s1, p).procs == s.procs + [Proc(d, 0, Finished)];
  }

  /** A snapshot without holders. */
  lemma Snapshots(sha: Hasher, x: Dated, d: nat)
    requires d < |x.s.rows| && x.s.rows[d] == DRAFT && x.s.clock == 0
    ensures DatedRun(sha, x, SnapshotEvents(d, |x.s.procs|)) == AfterSnapshot(x, d)
  {
    hide DatedRun, BeginSnapshot, CommitSnapshot;
    RunTwo(sha, x, Does(DoBeginSnapshot(d, [], 1)), Does(DoCommitSnapshot(|x.s.procs|)));
    SnapshotBegins(x.s, d);
    SnapshotCommits(x.s, d);
  }

  function ExecuteEvents(d: nat, p: nat): seq<DatedEvent> {
    [Does(DoBeginExecute(d, 0, Direct)), Does(DoTakeLease(p, 0, 0))]
  }

  function AfterLease(x: Dated, d: nat): Dated
    requires d < |x.s.rows|
  {
    x.(s := x.s.(rows := x.s.rows[d := SnappedRow(Some(120_000))],
                 procs := x.s.procs + [Proc(d, 0, Holding(0, 120_000, Fresh(Direct)))]))
  }

  lemma TakesTheLease(sha: Hasher, x: Dated, d: nat)
    requires d < |x.s.rows| && x.s.rows[d] == SnappedRow(None) && x.s.clock == 0
    ensures DatedRun(sha, x, ExecuteEvents(d, |x.s.procs|)) == AfterLease(x, d)
  {
    hide DatedRun, ClaimRoot;
    var p := |x.s.procs|;
    RunTwo(sha, x, Does(DoBeginExecute(d, 0, Direct)), Does(DoTakeLease(p, 0, 0)));
    var s1 := BeginExecute(x.s, d, 0, Direct);
    assert s1.procs == x.s.procs + [Proc(d, 0, Executing(0, Direct))];
    assert Runs(s1, p);
    assert TakeLease(s1, p, 0, 0).procs == AfterLease(x, d).s.procs;
  }

  function ReadEvents(p: nat): seq<DatedEvent> {
    [Does(DoReadRow(p)), Does(DoCheckBalance(p))]
  }

  function AfterRead(x: Dated, p: nat): Dated
    requires p < |x.s.procs| && x.s.procs[p].d < |x.filed|
  {
    x.(s := x.s.(procs := x.s.procs[p := Proc(x.s.procs[p].d, 0, Holding(0, 120_000, ToPay(1, [], true)))]),
       seen := x.seen[p := DateFor(x, p)])
  }

  lemma ReadsTheRow(sha: Hasher, x: Dated, p: nat)
    requires Pays(x, p) && x.s.clock == 0 && x.s.procs[p] == Proc(x.s.procs[p].d, 0, Holding(0, 120_000, Fresh(Direct)))
    requires x.s.rows[x.s.procs[p].d] == SnappedRow(Some(120_000))
    ensures DatedRun(sha, x, ReadEvents(p)) == AfterRead(x, p)
  {
    hide DatedRun, ClaimRoot;
    RunTwo(sha, x, Does(DoReadRow(p)), Does(DoCheckBalance(p)));
    NothingUnpaid(x.s.rows[x.s.procs[p].d]);
    var s1 := ReadRow(sha, x.s, p);
    assert s1.procs[p].pc == Holding(0, 120_000, ToPay(1, [], false));
    assert CheckBalance(s1, p).procs == AfterRead(x, p).s.procs;
  }

  lemma NothingUnpaid(r: Row)
    requires r.allocations == []
    ensures Unpaid(r) == []
  {
  }

  // ------------------------------------------------------------------ the run

  function Preparing(): seq<DatedEvent> {
    [Files(Quarter(0), "d", 2), Files(Quarter(2), "d", 2)] + SnapshotEvents(0, 0) + SnapshotEvents(1, 1)
      + ExecuteEvents(0, 2) + ExecuteEvents(1, 3) + ReadEvents(2) + ReadEvents(3)
  }

  /** Both executions have read the row and are about to mark it. */
  function Prepared(): Dated {
    Dated(State(0, [SnappedRow(Some(120_000)), SnappedRow(Some(120_000))],
                [Proc(0, 0, Finished), Proc(1, 0, Finished),
                 Proc(0, 0, Holding(0, 120_000, ToPay(1, [], true))),
                 Proc(1, 0, Holding(0, 120_000, ToPay(1, [], true)))], Chain(0, map[]), []),
          [Quarter(0), Quarter(2)], map[], map[2 := None, 3 := None])
  }

  lemma BothFiled(sha: Hasher)
    ensures DatedRun(sha, EMPTY, [Files(Quarter(0), "d", 2), Files(Quarter(2), "d", 2)]) ==
      EMPTY.(s := EMPTY.s.(rows := [DRAFT, DRAFT]), filed := [Quarter(0), Quarter(2)])
  {
    hide DatedRun, Quarter;
    RunTwo(sha, EMPTY, Files(Quarter(0), "d", 2), Files(Quarter(2), "d", 2));
  }

  lemma BothPrepared(sha: Hasher)
    ensures DatedRun(sha, EMPTY, Preparing()) == Prepared()
  {
    hide DatedRun, DatedStep, Quarter, SnapshotEvents, ExecuteEvents, ReadEvents;
    var f := [Files(Quarter(0), "d", 2), Files(Quarter(2), "d", 2)];
    var es1 := f + SnapshotEvents(0, 0);
    var es2 := es1 + SnapshotEvents(1, 1);
    var es3 := es2 + ExecuteEvents(0, 2);
    var es4 := es3 + ExecuteEvents(1, 3);
    DatedConcat(sha, EMPTY, f, SnapshotEvents(0, 0));
    DatedConcat(sha, EMPTY, es1, SnapshotEvents(1, 1));
    DatedConcat(sha, EMPTY, es2, ExecuteEvents(0, 2));
    DatedConcat(sha, EMPTY, es3, ExecuteEvents(1, 3));
    DatedConcat(sha, EMPTY, es4, ReadEvents(2));
    DatedConcat(sha, EMPTY, es4 + ReadEvents(2), ReadEvents(3));
    BothFiled(sha);
    var x0 := EMPTY.(s := EMPTY.s.(rows := [DRAFT, DRAFT]), filed := [Quarter(0), Quarter(2)]);
    Snapshots(sha, x0, 0);
    var x1 := AfterSnapshot(x0, 0);
    Snapshots(sha, x1, 1);
    var x2 := AfterSnapshot(x1, 1);
    TakesTheLease(sha, x2, 0);
    var x3 := AfterLease(x2, 0);
    TakesTheLease(sha, x3, 1);
    var x4 := AfterLease(x3, 1);
    BothRead(sha, x4);
  }

  lemma BothRead(sha: Hasher, x: Dated)
    requires x.s == Prepared().s.(procs := x.s.procs) && x.filed == Prepared().filed
    requires x.dates == map[] && x.seen == map[]
    requires x.s.procs == [Proc(0, 0, Finished), Proc(1, 0, Finished),
                           Proc(0, 0, Holding(0, 120_000, Fresh(Direct))),
                           Proc(1, 0, Holding(0, 120_000, Fresh(Direct)))]
    ensures DatedRun(sha, DatedRun(sha, x, ReadEvents(2)), ReadEvents(3)) == Prepared()
  {
    hide DatedRun, DatedStep, Label, ReadEvents;
    ReadsTheRow(sha, x, 2);
    var x1 := AfterRead(x, 2);
    ReadsTheRow(sha, x1, 3);
  }

  /** What the first to mark leaves. */
  lemma Marked(sha: Hasher)
    ensures var x := DatedRun(sha, Prepared(), [Marks(3, 0)]);
      && DateOf(x, 0) == Some(NextPeriod(PeriodAt(Quarterly, 2026, 2)).recordDate)
      && Marking(x, 2, 0) && x.seen[2] == None && x.filed[x.s.procs[2].d] == Quarter(0)
  {
    hide NextPeriod, PeriodAt, ParsePeriodLabel, Label;
    LabelsRoundTrip(Quarterly, 2026, 2);
    assert [Marks(3, 0)][..0] == [] && DatedRun(sha, Prepared(), []) == Prepared();
    assert Marking(Prepared(), 3, 0);
  }

  /** The quarter after. */
  lemma NextQuarter(i: nat)
    requires i < 3
    ensures NextPeriod(PeriodAt(Quarterly, 2026, i)) == PeriodAt(Quarterly, 2026, i + 1)
  {
    hide UtcDate, DayNumber, Label;
    var x := DayAfter(Quarterly, 2026, i);
    DayAfterStarts(Quarterly, 2026, i);
    RecordDateIs(Quarterly, 2026, i);
    StartOfDay(x);
    assert x == Date(2026, 3 * i + 4, 1);
  }

  lemma LaterQuarter()
    ensures PeriodAt(Quarterly, 2026, 1).recordDate < PeriodAt(Quarterly, 2026, 3).recordDate
  {
    hide DayNumber, PeriodAt, DayAfter;
    HalfYears();
    RecordDateIs(Quarterly, 2026, 1);
    RecordDateIs(Quarterly, 2026, 3);
    SummerBeforeNewYear();
  }

  lemma HalfYears()
    ensures DayAfter(Quarterly, 2026, 1) == Date(2026, 7, 1) && DayAfter(Quarterly, 2026, 3) == Date(2027, 1, 1)
  {
  }

  lemma SummerBeforeNewYear()
    ensures DayNumber(Date(2026, 7, 1)) < DayNumber(Date(2027, 1, 1))
  {
    hide DayNumber;
    DayNumberOrders(Date(2027, 1, 1), Date(2026, 7, 1));
  }

  /** Two distributions of an issuance filed before either is executed: the third quarter is marked
      first and moves the date to the end of the year, and the first quarter, whose execution had
      read the row before, moves it back to the end of June. */
  lemma StaleMarkMovesBack(sha: Hasher)
    ensures Start(EMPTY)
    ensures var x := DatedRun(sha, EMPTY, Preparing() + [Marks(3, 0)]);
      var x' := DatedRun(sha, EMPTY, Preparing() + [Marks(3, 0)] + [Marks(2, 0)]);
      && DateOf(x, 0) == Some(PeriodAt(Quarterly, 2026, 3).recordDate)
      && DateOf(x', 0) == Some(PeriodAt(Quarterly, 2026, 1).recordDate)
      && !NoEarlier(DateOf(x, 0), DateOf(x', 0))
  {
    hide DatedRun, PeriodAt, NextPeriod, ParsePeriodLabel, Label, Preparing, Prepared;
    BothPrepared(sha);
    DatedConcat(sha, EMPTY, Preparing(), [Marks(3, 0)]);
    DatedConcat(sha, EMPTY, Preparing() + [Marks(3, 0)], [Marks(2, 0)]);
    Marked(sha);
    NextQuarter(2);
    NextQuarter(0);
    LaterQuarter();
    LabelsRoundTrip(Quarterly, 2026, 0);
    var x := DatedRun(sha, Prepared(), [Marks(3, 0)]);
    LastMark(sha, x);
  }

  lemma LastMark(sha: Hasher, x: Dated)
    requires Marking(x, 2, 0) && x.seen[2] == None && x.filed[x.s.procs[2].d] == Quarter(0)
    requires ParsePeriodLabel(Label(Quarterly, 2026, 0), Quarterly) == Some(PeriodAt(Quarterly, 2026, 0))
    ensures DateOf(DatedRun(sha, x, [Marks(2, 0)]), 0) == Some(NextPeriod(PeriodAt(Quarterly, 2026, 0)).recordDate)
  {
    hide NextPeriod, PeriodAt, ParsePeriodLabel, Label, MarkExecuted, Marking;
    assert [Marks(2, 0)][..0] == [] && DatedRun(sha, x, []) == x;
  }
}
