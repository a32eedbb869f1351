/** Which way a distribution is paid, and in which order: what the executions that begin are allowed
    to do, from the row's own fields, and what that means for every run from there. */
module LifecycleModes {
  import opened Wrappers
  import opened Sums
  import opened Merkle
  import opened Ledger
  import opened Lifecycle
  import opened LifecycleInv
  import opened LifecycleFrames
  import Sorting
  import Text

  // ------------------------------------------------------------------ the mode

  /** A payout of the row is on record. */
  ghost predicate PartlyPaid(r: Row) {
    exists k :: 0 <= k < |r.allocations| && r.allocations[k].txSignature.Some?
  }

  /** The mode an execution goes ahead in: a funded escrow fixes it, recorded payouts fix it the other
      way, and only otherwise it is the mode asked for. */
  ghost predicate GoesAheadAs(r: Row, asked: PayoutMode, mode: PayoutMode) {
    && (r.escrowFundSignature.Some? ==> mode == Escrow)
    && (r.escrowFundSignature.None? && PartlyPaid(r) ==> mode == Direct)
    && (r.escrowFundSignature.None? && !PartlyPaid(r) ==> mode == asked)
  }

  lemma ModeIs(r: Row, asked: PayoutMode, mode: PayoutMode)
    ensures ResolveMode(r, asked) == mode <==> GoesAheadAs(r, asked, mode)
  {
  }

  /** An execution begins exactly on a snapshotted row whose total was typed, in that mode, and changes
      nothing yet. */
  lemma BeginsAs(s: State, d: nat, typed: nat, asked: PayoutMode)
    ensures var s' := BeginExecute(s, d, typed, asked);
      if d < |s.rows| && s.rows[d].status == Snapshotted && s.rows[d].totalAllocated == Some(typed) then
        exists mode :: GoesAheadAs(s.rows[d], asked, mode)
          && s' == s.(procs := s.procs + [Proc(d, s.clock, Executing(typed, mode))])
      else s' == s
  {
    if d < |s.rows| { ModeIs(s.rows[d], asked, ResolveMode(s.rows[d], asked)); }
  }

  // ------------------------------------------------------------------ runs from a partly paid row

  /** It is to fund the escrow, or is about to. */
  predicate ForEscrow(pc: Pc) {
    match pc
    case Executing(_, mode) => mode == Escrow
    case Holding(_, _, phase) => phase == Fresh(Escrow) || phase.ToFund? || phase.ToMark?
    case _ => false
  }

  /** The row is partly paid, its escrow is not funded, and nobody alive is about to fund it. */
  ghost predicate StaysDirect(s: State, d: nat) {
    && d < |s.rows| && s.rows[d].escrowFundSignature.None? && PartlyPaid(s.rows[d])
    && forall p: nat :: Runs(s, p) && s.procs[p].d == d ==> !ForEscrow(s.procs[p].pc)
  }

  /** The step does not fund row `d`, and has not replaced its table. */
  ghost predicate NotFundedHere(s: State, s': State, d: nat) {
    && d < |s.rows| <= |s'.rows| && FundingCount(s'.log, d) == FundingCount(s.log, d)
    && (s.rows[d].escrowFundSignature.None? ==> s'.rows[d].escrowFundSignature.None?)
  }

  lemma FundsForItsRow(s: State, p: nat, d: nat)
    requires StaysDirect(s, d)
    ensures NotFundedHere(s, Fund(s, p), d) && NotFundedHere(s, MarkExecuted(s, p), d)
  {
    hide TransferBatch, PartlyPaid;
    if Fund(s, p) != s {
      var pc := s.procs[p].pc;
      assert s.procs[p].d != d;
      if Fund(s, p).log != s.log {
        FundingsSame(s.log, [Fundings(s.procs[p].d, pc.phase.remaining, pc.typed)], d);
      }
    }
  }

  lemma PaysOtherwise(s: State, p: nat, d: nat)
    requires StaysDirect(s, d)
    ensures NotFundedHere(s, PayBatch(s, p), d) && NotFundedHere(s, ReleasePayout(s, p), d)
  {
    hide TransferBatch, Release, SignAll, NextBatch, PartlyPaid;
    if PayBatch(s, p).log != s.log {
      FundingsSame(s.log, PaidNotes(s.procs[p].d, NextBatch(s.procs[p].pc.phase.unpaid), s.procs[p].pc.typed), d);
    }
    if ReleasePayout(s, p).log != s.log {
      var pc := s.procs[p].pc;
      FundingsSame(s.log, [Released(s.procs[p].d, pc.wallet, pc.payout)], d);
    }
  }

  lemma OtherwiseUnfunded(sha: Hasher, s: State, e: Event, d: nat)
    requires StaysDirect(s, d) && !MovesMoney(e) && !e.DoMarkExecuted?
    ensures NotFundedHere(s, Step(sha, s, e), d)
  {
    hide ClaimRoot, FindPayable, LoadsFunded, PartlyPaid, Sum, Unpaid;
  }

  lemma StepFundsNot(sha: Hasher, s: State, e: Event, d: nat)
    requires StaysDirect(s, d)
    ensures NotFundedHere(s, Step(sha, s, e), d)
  {
    hide NotFundedHere, StaysDirect, Fund, MarkExecuted, PayBatch, ReleasePayout;
    match e
    case DoFund(p) => FundsForItsRow(s, p, d);
    case DoMarkExecuted(p) => FundsForItsRow(s, p, d);
    case DoPayBatch(p) => PaysOtherwise(s, p, d);
    case DoReleasePayout(p) => PaysOtherwise(s, p, d);
    case _ => OtherwiseUnfunded(sha, s, e, d);
  }

  lemma BeginsDirect(sha: Hasher, s: State, e: Event, d: nat)
    requires StaysDirect(s, d) && Actor(e).None?
    ensures var s' := Step(sha, s, e);
      forall p: nat :: |s.procs| <= p < |s'.procs| && s'.procs[p].d == d ==> !ForEscrow(s'.procs[p].pc)
  {
    hide ClaimRoot, FindPayable, LoadsFunded, SnapshotAllowed, ResolveMode, FundingCount;
    if e.DoBeginExecute? { BeginsAs(s, e.d, e.typed, e.mode); }
  }

  /** No snapshot replaces a partly paid table, and nothing takes a record back. */
  lemma StaysPartlyPaid(sha: Hasher, s: State, e: Event, d: nat)
    requires d < |s.rows| && PartlyPaid(s.rows[d])
    ensures d < |Step(sha, s, e).rows| && PartlyPaid(Step(sha, s, e).rows[d])
  {
    hide Step, PcMoves;
    StepFrames(sha, s, e);
    var k :| 0 <= k < |s.rows[d].allocations| && s.rows[d].allocations[k].txSignature.Some?;
    assert AnySigned(s.rows[d].allocations);
    if Actor(e).Some? { assert Step(sha, s, e).rows[d].allocations[k].txSignature.Some?; }
  }

  /** Nobody turns to the escrow half way. */
  lemma KeepsItsWay(s: State, e: Event, p: nat, pc': Pc)
    requires p < |s.procs| && PcMoves(s, e, p, pc') && ForEscrow(pc')
    ensures ForEscrow(s.procs[p].pc) && (pc' == s.procs[p].pc || Runs(s, p))
  {
    hide Unpaid, NextBatch, Sum;
  }

  lemma NobodyTurns(sha: Hasher, s: State, e: Event, d: nat, p: nat)
    requires StaysDirect(s, d)
    ensures var s' := Step(sha, s, e); Runs(s', p) && s'.procs[p].d == d ==> !ForEscrow(s'.procs[p].pc)
  {
    hide Step, PcMoves, PartlyPaid, ForEscrow, Kept;
    StepFrames(sha, s, e);
    var s' := Step(sha, s, e);
    if Runs(s', p) && s'.procs[p].d == d {
      if Actor(e).None? {
        BeginsDirect(sha, s, e, d);
      } else if ForEscrow(s'.procs[p].pc) && p < |s.procs| && Actor(e) == Some(p) {
        KeepsItsWay(s, e, p, s'.procs[p].pc);
      }
    }
  }

  lemma StepStaysDirect(sha: Hasher, s: State, e: Event, d: nat)
    requires StaysDirect(s, d)
    ensures StaysDirect(Step(sha, s, e), d) && FundingCount(Step(sha, s, e).log, d) == FundingCount(s.log, d)
  {
    hide Step, FundingCount, PartlyPaid, ForEscrow, Alive;
    StepFundsNot(sha, s, e, d);
    StaysPartlyPaid(sha, s, e, d);
    var s' := Step(sha, s, e);
    forall p: nat | Runs(s', p) && s'.procs[p].d == d ensures !ForEscrow(s'.procs[p].pc) {
      NobodyTurns(sha, s, e, d, p);
    }
  }

  /** Once a payout of a row whose escrow is not funded is on record, and nobody is about to fund it,
      no run from there funds it, in whatever mode executions are asked for: every retry goes on paying
      directly. */
  lemma {:induction false} PartlyPaidStaysDirect(sha: Hasher, s: State, es: seq<Event>, d: nat)
    requires StaysDirect(s, d)
    ensures StaysDirect(Run(sha, s, es), d) && FundingCount(Run(sha, s, es).log, d) == FundingCount(s.log, d)
  {
    hide Step, StaysDirect, FundingCount;
    if es != [] {
      PartlyPaidStaysDirect(sha, s, es[..|es| - 1], d);
      StepStaysDirect(sha, Run(sha, s, es[..|es| - 1]), es[|es| - 1], d);
    }
  }

  // ------------------------------------------------------------------ the order of payment

  /** What an execution pays: every payable allocation that has no signature yet, once, larger payouts
      first and equal ones by wallet. */
  lemma PaysInOrder(r: Row)
    ensures var unpaid := Unpaid(r);
      && (forall k: nat, w: string, a: nat :: Due(k, w, a) in unpaid <==>
            k < |r.allocations| && r.allocations[k].wallet == w && r.allocations[k].payout == a > 0
            && r.allocations[k].txSignature.None?)
      && (forall i, j :: 0 <= i < j < |unpaid| ==>
            && unpaid[i].k != unpaid[j].k
            && (unpaid[i].payout > unpaid[j].payout
                || (unpaid[i].payout == unpaid[j].payout && Text.StrLeq(unpaid[i].wallet, unpaid[j].wallet))))
  {
    var unpaid := Unpaid(r);
    UnpaidIsOwing(r);
    DueLeqIsOrder();
    Sorting.SortSorts(Dues(r.allocations), DueLeq);
    assert Sorting.Sorted(unpaid, DueLeq);
    forall k: nat, w, a | k < |r.allocations| && r.allocations[k].wallet == w && r.allocations[k].payout == a > 0
      && r.allocations[k].txSignature.None?
      ensures Due(k, w, a) in unpaid
    {
      assert IsDue(r.allocations[k]) && Lists(unpaid, k);
    }
  }
}
