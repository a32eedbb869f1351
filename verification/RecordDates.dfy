/** The next record date of an issuance, which executing a distribution moves on
    (apps/web/lib/server/distribution.ts, `markExecuted`), over the runs of the lifecycle. The date
    written is computed from the one that was read with the row, and that may be out of date. */
module RecordDates {
  import opened Wrappers
  import opened Sums
  import opened Merkle
  import opened Ledger
  import opened Lifecycle
  import opened LifecycleInv
  import opened LifecycleProof
  import opened LifecycleFrames
  import opened Calendar

  // ------------------------------------------------------------------ the lifecycle with record dates

  /** What a distribution is filed under. */
  datatype Filed = Filed(issuance: nat, frequency: Frequency, periodLabel: string)

  /** `dates`: the record dates of the issuances that have one. `seen`: the one each execution read
      with its row. */
  datatype Dated = Dated(s: State, filed: seq<Filed>, dates: map<nat, int>, seen: map<nat, Option<int>>)

  datatype DatedEvent =
    | Files(filed: Filed, id: string, rightsPool: nat)
    | Rereads(p: nat)
    | Marks(p: nat, at: nat)
    | Does(e: Event)

  function DateOf(x: Dated, issuance: nat): Option<int> {
    if issuance in x.dates then Some(x.dates[issuance]) else None
  }

  /** The date of the issuance that process `p` is paying for. */
  function DateFor(x: Dated, p: nat): Option<int>
    requires p < |x.s.procs| && x.s.procs[p].d < |x.filed|
  {
    DateOf(x, x.filed[x.s.procs[p].d].issuance)
  }

  predicate Pays(x: Dated, p: nat) {
    Runs(x.s, p) && x.s.procs[p].d < |x.filed| && x.s.procs[p].pc.Holding?
  }

  /** The period a distribution pays for: its label's, or for an old label the one being reported. */
  ghost function PaidPeriod(f: Filed, seen: Option<int>, at: int): Period {
    match ParsePeriodLabel(f.periodLabel, f.frequency)
    case Some(period) => period
    case None => PeriodContaining(if seen.Some? then seen.value else at, f.frequency)
  }

  /** So it is the label's period whenever the label is one, and otherwise the one that holds the record
      date as read, or the time of the payment if there is none yet. */
  lemma PaidPeriodIs(f: Filed, seen: Option<int>, at: int)
    ensures var named, paid := ParsePeriodLabel(f.periodLabel, f.frequency), PaidPeriod(f, seen, at);
      && (named.Some? ==> paid == named.value)
      && (named.None? ==>
            var u := if seen.Some? then seen.value else at;
            !TwoDigitYear(UtcDate(u).y) ==> Within(paid, u) && paid.frequency == f.frequency)
  {
    hide ParsePeriodLabel, UtcDate, Within;
    PeriodsTile(f.frequency, 0, 0, if seen.Some? then seen.value else at);
  }

  /** Everything is paid or funded, and the row has been read. */
  predicate Marking(x: Dated, p: nat, at: nat) {
    && Pays(x, p) && p in x.seen && at <= x.s.clock
    && match x.s.procs[p].pc.phase
       case ToPay(_, unpaid, checked) => checked && unpaid == []
       case ToMark(_, _) => true
       case _ => false
  }

  /** The record date the period calls for. */
  ghost function NextDue(x: Dated, p: nat, at: nat): int
    requires Marking(x, p, at)
  {
    NextPeriod(PaidPeriod(x.filed[x.s.procs[p].d], x.seen[p], at)).recordDate
  }

  ghost function NewDate(x: Dated, p: nat, at: nat): int
    requires Marking(x, p, at)
  {
    RecordDateAfter(PaidPeriod(x.filed[x.s.procs[p].d], x.seen[p], at), x.seen[p])
  }

  /** The row is read under the lease; after funding it is read again. */
  function SeenAfter(x: Dated, e: Event): map<nat, Option<int>> {
    match e
    case DoReadRow(p) => if Pays(x, p) && x.s.procs[p].pc.phase.Fresh? then x.seen[p := DateFor(x, p)] else x.seen
    case DoFund(p) => if Pays(x, p) && x.s.procs[p].pc.phase.ToFund? then x.seen - {p} else x.seen
    case _ => x.seen
  }

  ghost function DatedStep(sha: Hasher, x: Dated, e: DatedEvent): Dated {
    match e
    case Files(filed, id, rightsPool) => x.(s := Report(x.s, id, rightsPool), filed := x.filed + [filed])
    case Rereads(p) =>
      if Pays(x, p) && x.s.procs[p].pc.phase.ToMark? then x.(seen := x.seen[p := DateFor(x, p)]) else x
    case Marks(p, at) =>
      if !Marking(x, p, at) then x
      else
        x.(s := MarkExecuted(x.s, p), dates := x.dates[x.filed[x.s.procs[p].d].issuance := NewDate(x, p, at)])
    case Does(e) =>
      if e.DoReport? || e.DoMarkExecuted? then x else x.(s := Step(sha, x.s, e), seen := SeenAfter(x, e))
  }

  ghost function DatedRun(sha: Hasher, x: Dated, es: seq<DatedEvent>): Dated {
    if es == [] then x else DatedStep(sha, DatedRun(sha, x, es[..|es| - 1]), es[|es| - 1])
  }

  // ------------------------------------------------------------------ one mark

  /** The date did not move back. */
  predicate NoEarlier(before: Option<int>, after: Option<int>) {
    before.None? || (after.Some? && after.value >= before.value)
  }

  /** Executing a distribution moves the date back exactly when the date is later than the one that
      was read and than the one the period calls for. */
  lemma MarkMovesBackIff(sha: Hasher, x: Dated, p: nat, at: nat)
    requires Marking(x, p, at)
    ensures var i := x.filed[x.s.procs[p].d].issuance;
      var now, seen := DateOf(x, i), x.seen[p];
      !NoEarlier(now, DateOf(DatedStep(sha, x, Marks(p, at)), i)) <==>
        now.Some? && NextDue(x, p, at) < now.value && (seen.None? || seen.value < now.value)
    ensures var i := x.filed[x.s.procs[p].d].issuance;
      NoEarlier(Some(NextDue(x, p, at)), DateOf(DatedStep(sha, x, Marks(p, at)), i))
  {
    hide PaidPeriod, NextPeriod, MarkExecuted;
  }

  /** Two executions of one issuance, each past its read of the date that stands: marking one and then
      the other moves the date back exactly when the first calls for a later date than the second, and
      than the one that stood. */
  lemma SecondMarkMovesBackIff(sha: Hasher, x: Dated, p: nat, at: nat, q: nat, at': nat)
    requires Marking(x, p, at) && Marking(x, q, at') && x.s.procs[p].d != x.s.procs[q].d
    requires var i := x.filed[x.s.procs[p].d].issuance;
      x.filed[x.s.procs[q].d].issuance == i && x.seen[p] == x.seen[q] == DateOf(x, i)
    ensures var i := x.filed[x.s.procs[p].d].issuance;
      var mid := DatedStep(sha, x, Marks(p, at));
      var end := DatedStep(sha, mid, Marks(q, at'));
      && Marking(mid, q, at')
      && (!NoEarlier(DateOf(mid, i), DateOf(end, i)) <==>
            NextDue(x, p, at) > NextDue(x, q, at') && (DateOf(x, i).None? || NextDue(x, p, at) > DateOf(x, i).value))
  {
    hide PaidPeriod, NextPeriod, MarkExecuted, Step;
    MarkedState(sha, x, p, at);
  }

  // ------------------------------------------------------------------ one open distribution at a time

  /** Of the distributions of one issuance at most one is not EXECUTED. */
  ghost predicate OneOpen(x: Dated) {
    && |x.filed| == |x.s.rows|
    && forall i, j :: 0 <= i < j < |x.filed| && x.filed[i].issuance == x.filed[j].issuance ==>
         x.s.rows[i].status == Executed || x.s.rows[j].status == Executed
  }

  /** Whoever has read its row read the date that still stands. */
  ghost predicate UpToDate(x: Dated) {
    forall p :: p in x.seen && Pays(x, p) && !x.s.procs[p].pc.phase.Fresh? ==> x.seen[p] == DateFor(x, p)
  }

  /** `reportPeriod`'s check: the issuance has no open distribution when one is filed. */
  ghost predicate FiledAlone(x: Dated, e: DatedEvent) {
    e.Files? ==>
      forall i :: 0 <= i < |x.filed| && i < |x.s.rows| && x.filed[i].issuance == e.filed.issuance ==>
        x.s.rows[i].status == Executed
  }

  ghost predicate Sound(sha: Hasher, x: Dated) {
    Inv(Everywhere(UNGUARDED), sha, x.s) && OneOpen(x) && UpToDate(x)
  }

  lemma HolderIsOpen(sha: Hasher, s: State, p: nat)
    requires Inv(Everywhere(UNGUARDED), sha, s) && Runs(s, p) && s.procs[p].pc.Holding?
    ensures s.rows[s.procs[p].d].status != Executed
  {
    hide RowsOk, PhaseOk, Solvent, Exclusive;
    assert ProcOk(UNGUARDED, sha, s.log, s.rows[s.procs[p].d], s.procs[p]);
  }

  lemma NoRivalHolders(sha: Hasher, s: State, p: nat, q: nat)
    requires Inv(Everywhere(UNGUARDED), sha, s)
    ensures !(Rivals(s, p, q) && s.procs[p].pc.Holding? && s.procs[q].pc.Holding?)
  {
    hide RowsOk, ProcOk, Solvent;
    if Rivals(s, p, q) && s.procs[p].pc.Holding? {
      HolderIsOpen(sha, s, p);
      assert PairOk(s.rows[s.procs[p].d], s.procs[p], s.procs[q]);
    }
  }

  /** Two live holders whose distributions belong to one issuance are one. */
  lemma OneHolder(sha: Hasher, x: Dated, p: nat, q: nat)
    requires Sound(sha, x) && Pays(x, p) && Pays(x, q)
    requires x.filed[x.s.procs[p].d].issuance == x.filed[x.s.procs[q].d].issuance
    ensures p == q
  {
    hide Inv, UpToDate;
    HolderIsOpen(sha, x.s, p);
    HolderIsOpen(sha, x.s, q);
    NoRivalHolders(sha, x.s, p, q);
  }

  /** What is EXECUTED stays so; and who is past its read after a step was so before, or has just read. */
  lemma DoesFrames(sha: Hasher, s: State, e: Event, q: nat)
    requires !e.DoReport?
    ensures var s' := Step(sha, s, e);
      && |s'.rows| == |s.rows|
      && (forall d :: 0 <= d < |s.rows| && s.rows[d].status == Executed ==> s'.rows[d].status == Executed)
      && (Runs(s', q) && s'.procs[q].pc.Holding? && !s'.procs[q].pc.phase.Fresh? ==>
            && q < |s.procs| && s'.procs[q].d == s.procs[q].d && Runs(s, q) && s.procs[q].pc.Holding?
            && (!s.procs[q].pc.phase.Fresh? || e == DoReadRow(q))
            && (e == DoFund(q) ==> s.procs[q].pc.phase.ToFund? || s.procs[q].pc == s'.procs[q].pc))
  {
    hide Step, Sum, Unpaid, SameTable, AnySigned;
    StepFrames(sha, s, e);
  }

  lemma FilesKeeps(sha: Hasher, x: Dated, e: DatedEvent)
    requires e.Files? && Sound(sha, x) && FiledAlone(x, e)
    ensures Sound(sha, DatedStep(sha, x, e))
  {
    hide Inv;
    StepKeeps(Everywhere(UNGUARDED), sha, x.s, DoReport(e.id, e.rightsPool));
    RowsOfProcs(sha, x.s);
  }

  lemma RowsOfProcs(sha: Hasher, s: State)
    requires Inv(Everywhere(UNGUARDED), sha, s)
    ensures forall p :: 0 <= p < |s.procs| ==> s.procs[p].d < |s.rows|
  {
    hide RowsOk, Exclusive, Solvent, ProcOk;
  }

  lemma RereadKeeps(sha: Hasher, x: Dated, e: DatedEvent)
    requires e.Rereads? && Sound(sha, x)
    ensures Sound(sha, DatedStep(sha, x, e))
  {
    hide Inv;
  }

  lemma DoesKeeps(sha: Hasher, x: Dated, e: Event)
    requires Sound(sha, x) && !e.DoReport? && !e.DoMarkExecuted?
    ensures Sound(sha, DatedStep(sha, x, Does(e)))
  {
    hide Inv, Step, Obeys;
    StepKeeps(Everywhere(UNGUARDED), sha, x.s, e) by { NoGuards(x.s, e); }
    DoesFrames(sha, x.s, e, 0);
    var x' := DatedStep(sha, x, Does(e));
    forall q | q in x'.seen && Pays(x', q) && !x'.s.procs[q].pc.phase.Fresh?
      ensures x'.seen[q] == DateFor(x', q)
    {
      DoesFrames(sha, x.s, e, q);
    }
  }

  lemma NoGuards(s: State, e: Event)
    ensures Obeys(Everywhere(UNGUARDED), s, e)
  {
  }

  /** What marking does to the lifecycle: one holder leaves, its row is EXECUTED. */
  lemma MarkedState(sha: Hasher, x: Dated, p: nat, at: nat)
    requires Marking(x, p, at)
    ensures var s' := MarkExecuted(x.s, p);
      && Step(sha, x.s, DoMarkExecuted(p)) == s' && |s'.rows| == |x.s.rows| && s'.clock == x.s.clock
      && s'.rows[x.s.procs[p].d].status == Executed
      && (forall d :: 0 <= d < |s'.rows| && d != x.s.procs[p].d ==> s'.rows[d] == x.s.rows[d])
      && s'.procs == x.s.procs[p := x.s.procs[p].(pc := Leaving(x.s.procs[p].pc.lease))]
  {
  }

  lemma MarksKeeps(sha: Hasher, x: Dated, p: nat, at: nat)
    requires Sound(sha, x) && Marking(x, p, at)
    ensures var x' := DatedStep(sha, x, Marks(p, at));
      Sound(sha, x') && forall i :: NoEarlier(DateOf(x, i), DateOf(x', i))
  {
    hide Inv, Step, MarkExecuted, PaidPeriod, NextPeriod, Obeys;
    NoGuards(x.s, DoMarkExecuted(p));
    StepKeeps(Everywhere(UNGUARDED), sha, x.s, DoMarkExecuted(p));
    MarkedState(sha, x, p, at);
    var x' := DatedStep(sha, x, Marks(p, at));
    forall q | q in x'.seen && Pays(x', q) && !x'.s.procs[q].pc.phase.Fresh?
      ensures x'.seen[q] == DateFor(x', q)
    {
      if x.filed[x.s.procs[q].d].issuance == x.filed[x.s.procs[p].d].issuance { OneHolder(sha, x, p, q); }
    }
  }

  /** Every event of the run finds its issuance without an open distribution when it files one. */
  ghost predicate FiledApart(sha: Hasher, x: Dated, es: seq<DatedEvent>) {
    forall i :: 0 <= i < |es| ==> FiledAlone(DatedRun(sha, x, es[..i]), es[i])
  }

  lemma DatedStepKeeps(sha: Hasher, x: Dated, e: DatedEvent)
    requires Sound(sha, x) && FiledAlone(x, e)
    ensures Sound(sha, DatedStep(sha, x, e)) && forall i :: NoEarlier(DateOf(x, i), DateOf(DatedStep(sha, x, e), i))
  {
    hide Sound, Step, MarkExecuted, Report, NewDate, Marking;
    match e
    case Files(_, _, _) => FilesKeeps(sha, x, e);
    case Rereads(_) => RereadKeeps(sha, x, e);
    case Marks(p, at) => if Marking(x, p, at) { MarksKeeps(sha, x, p, at); }
    case Does(f) => if !f.DoReport? && !f.DoMarkExecuted? { DoesKeeps(sha, x, f); }
  }

  ghost predicate Start(x: Dated) {
    Init(x.s) && x.filed == [] && x.seen == map[]
  }

  /** As long as a distribution is filed only while its issuance has no open one, no interleaving of
      executions, failures, crashes and expiries moves a record date back. */
  lemma {:induction false} RecordDatesNeverMoveBack(sha: Hasher, x: Dated, es: seq<DatedEvent>, issuance: nat)
    requires Start(x) && FiledApart(sha, x, es)
    ensures Sound(sha, DatedRun(sha, x, es))
    ensures forall n :: 0 <= n <= |es| ==>
      NoEarlier(DateOf(DatedRun(sha, x, es[..n]), issuance), DateOf(DatedRun(sha, x, es), issuance))
  {
    hide DatedStep, Inv, FiledAlone, DateOf, UpToDate;
    if es == [] {
      StartIsSound(sha, x);
    } else {
      var m := |es| - 1;
      forall i | 0 <= i < m ensures FiledAlone(DatedRun(sha, x, es[..m][..i]), es[..m][i]) {
        assert es[..m][..i] == es[..i];
      }
      RecordDatesNeverMoveBack(sha, x, es[..m], issuance);
      DatedStepKeeps(sha, DatedRun(sha, x, es[..m]), es[m]);
      forall n | 0 <= n <= |es|
        ensures NoEarlier(DateOf(DatedRun(sha, x, es[..n]), issuance), DateOf(DatedRun(sha, x, es), issuance))
      {
        if n <= m { assert es[..m][..n] == es[..n]; } else { assert es[..n] == es; }
      }
    }
  }

  lemma StartIsSound(sha: Hasher, x: Dated)
    requires Start(x)
    ensures Sound(sha, x)
  {
    hide Inv;
    InitOk(Everywhere(UNGUARDED), sha, x.s);
  }
}
