/** The server's handlers in their own form (apps/web/lib/server/distribution.ts and escrow.ts): they
    read the database, go on with what they read, and assign row fields statement by statement,
    while other requests run in between. Whatever they do is a run of the protocol in `Lifecycle`. */
module ServerHandlers {
  import opened Wrappers
  import opened Sums
  import opened Merkle
  import opened Ledger
  import opened Lifecycle
  import opened LifecycleInv
  import opened LifecycleProof
  import opened LifecycleFrames
  import opened LifecycleTheorems
  import opened LifecycleModes
  import opened FakeChainPorts
  import opened Answers
  import Allocation
  import ClaimTree

  // ------------------------------------------------------------------ other requests

  /** The events that are not `me`'s. */
  function Foreign(es: seq<Event>, me: nat): (fs: seq<Event>)
    ensures forall i :: 0 <= i < |fs| ==> Actor(fs[i]) != Some(me)
  {
    if es == [] then []
    else Foreign(es[..|es| - 1], me) + if Actor(es[|es| - 1]) == Some(me) then [] else [es[|es| - 1]]
  }

  /** A process is as it was, no distribution went away, and time did not run backwards. */
  ghost predicate Undisturbed(s: State, s': State, me: nat)
    requires me < |s.procs|
  {
    me < |s'.procs| && s'.procs[me] == s.procs[me] && |s'.rows| >= |s.rows| && s'.clock >= s.clock
  }

  lemma {:induction false} RunFrame(sha: Hasher, s: State, es: seq<Event>, me: nat)
    requires me < |s.procs| && forall i :: 0 <= i < |es| ==> Actor(es[i]) != Some(me)
    ensures Undisturbed(s, Run(sha, s, es), me)
  {
    hide Step, Actor, Kept, PcMoves;
    if es != [] {
      var before, e := Run(sha, s, es[..|es| - 1]), es[|es| - 1];
      RunFrame(sha, s, es[..|es| - 1], me);
      StepFrames(sha, before, e);
    }
  }

  // ------------------------------------------------------------------ batches

  lemma {:induction false} AllPositive(unpaid: seq<Due>)
    requires forall i :: 0 <= i < |unpaid| ==> unpaid[i].payout > 0
    ensures Allocation.Positive(unpaid, DueAmount) == unpaid
  {
    if unpaid != [] {
      assert forall i :: 0 <= i < |unpaid[1..]| ==> unpaid[1..][i] == unpaid[i + 1];
      AllPositive(unpaid[1..]);
    }
  }

  lemma UnpaidPositive(r: Row)
    ensures Allocation.Positive(Unpaid(r), DueAmount) == Unpaid(r)
  {
    hide Unpaid;
    UnpaidIsOwing(r);
    forall i | 0 <= i < |Unpaid(r)| ensures Unpaid(r)[i].payout > 0 { assert IsDue(r.allocations[Unpaid(r)[i].k]); }
    AllPositive(Unpaid(r));
  }

  /** The batches are what the protocol pays next, one after the other. */
  lemma FirstBatch(batches: seq<seq<Due>>)
    requires batches != [] && Allocation.Packed(batches, MAX_TRANSFERS_PER_TX)
    ensures var all := Allocation.Flatten(batches);
      && all != [] && NextBatch(all) == batches[0] && all[|batches[0]|..] == Allocation.Flatten(batches[1..])
      && Allocation.Packed(batches[1..], MAX_TRANSFERS_PER_TX)
  {
    var rest := Allocation.Flatten(batches[1..]);
    assert Allocation.Flatten(batches) == batches[0] + rest;
    if |batches| == 1 { assert rest == []; }
  }

  lemma NoBatch()
    ensures Allocation.Flatten<Due>([]) == []
  {
  }

  /** The places of the batch that were not signed are signed now, and nothing else has changed. */
  ghost predicate SignedExactly(before: seq<Alloc>, after: seq<Alloc>, batch: seq<Due>, sig: Signature) {
    && |after| == |before|
    && forall k :: 0 <= k < |before| ==>
         after[k] == if before[k].txSignature.None? && exists i :: 0 <= i < |batch| && batch[i].k == k
                     then before[k].(txSignature := Some(sig)) else before[k]
  }

  lemma SignsExactly(allocs: seq<Alloc>, batch: seq<Due>, sig: Signature)
    requires Listing(allocs, batch)
    ensures SignedExactly(allocs, SignAll(allocs, batch, sig), batch, sig)
  {
    SignAllAt(allocs, batch, sig);
    forall k | 0 <= k < |allocs| ensures Lists(batch, k) <==> exists i :: 0 <= i < |batch| && batch[i].k == k {
    }
  }

  lemma {:induction false} BatchSum(batch: seq<Due>)
    ensures Sum(PaymentsFor(batch), Amount) == Sum(batch, DueAmount) >= 0
  {
    if batch != [] {
      var n := |batch| - 1;
      BatchSum(batch[..n]);
      assert PaymentsFor(batch)[..n] == PaymentsFor(batch[..n]);
    }
  }

  lemma FundingRefused(c: Chain, amount: nat)
    ensures Ledger.TransferBatch(c, [Payment(ESCROW, amount)]).None? <==> c.issuerUsdc < amount
  {
    SumOne(Payment(ESCROW, amount), Amount);
  }

  lemma ReleaseRefused(c: Chain, wallet: string, amount: nat)
    ensures Ledger.Release(c, [Payment(wallet, amount)]).None? <==> Balance(c.usdc, ESCROW) < amount
  {
    SumOne(Payment(wallet, amount), Amount);
  }

  lemma BatchRefused(c: Chain, batch: seq<Due>)
    ensures Ledger.TransferBatch(c, PaymentsFor(batch)).None? <==> c.issuerUsdc < Sum(batch, DueAmount)
  {
    BatchSum(batch);
  }

  // ------------------------------------------------------------------ claim trees

  lemma {:induction false} FoundFirst(r: Row, wallet: string, from: nat)
    ensures var found := FindPayable(r.allocations, wallet, from);
      found.Some? ==>
        && from <= found.value < |r.allocations|
        && forall j :: from <= j < found.value ==> !(r.allocations[j].wallet == wallet && r.allocations[j].payout > 0)
    decreases |r.allocations| - from
  {
    if from < |r.allocations| { FoundFirst(r, wallet, from + 1); }
  }

  /** `find`: the first payable allocation of the wallet, or none. */
  lemma FoundIsFirst(r: Row, wallet: string)
    ensures match FindPayable(r.allocations, wallet, 0)
      case Some(k) => FirstPayable(r, wallet, k)
      case None => forall k :: 0 <= k < |r.allocations| && r.allocations[k].wallet == wallet ==>
        r.allocations[k].payout == 0
  {
    FoundFirst(r, wallet, 0);
  }

  function TreeInputs(id: string, allocs: seq<Alloc>): (ins: seq<ClaimTree.ClaimLeafInput>)
    ensures |ins| == |ClaimRows(id, allocs)|
    ensures ClaimTree.NonNegative(ins) && ClaimTree.Typed(ins) == ClaimRows(id, allocs)
  {
    var rows := ClaimRows(id, allocs);
    seq(|rows|, i requires 0 <= i < |rows| =>
      ClaimTree.ClaimLeafInput(rows[i].distributionId, rows[i].wallet, rows[i].payout))
  }

  lemma {:induction false} PayableRows(id: string, allocs: seq<Alloc>, wallet: string)
    ensures RowFor(ClaimRows(id, allocs), wallet) <==> PayableTo(allocs, wallet)
  {
    if allocs != [] {
      var n := |allocs| - 1;
      var init, all := ClaimRows(id, allocs[..n]), ClaimRows(id, allocs);
      PayableRows(id, allocs[..n], wallet);
      if i :| 0 <= i < |init| && init[i].wallet == wallet { assert all[i] == init[i]; }
      if allocs[n].payout > 0 { assert all[|init|].wallet == allocs[n].wallet; }
      if k :| 0 <= k < n && allocs[k].wallet == wallet && allocs[k].payout > 0 { assert allocs[..n][k] == allocs[k]; }
    }
  }

  /** Two payable allocations of one wallet. */
  ghost predicate PaysTwice(allocs: seq<Alloc>) {
    exists i, j ::
      0 <= i < j < |allocs| && allocs[i].wallet == allocs[j].wallet && allocs[i].payout > 0 && allocs[j].payout > 0
  }

  ghost predicate SharesWallet(rows: seq<ClaimRow>) {
    exists i, j :: 0 <= i < j < |rows| && rows[i].wallet == rows[j].wallet
  }

  lemma {:induction false} SharedWallets(id: string, allocs: seq<Alloc>)
    ensures SharesWallet(ClaimRows(id, allocs)) <==> PaysTwice(allocs)
  {
    if allocs != [] {
      var n := |allocs| - 1;
      SharedWallets(id, allocs[..n]);
      PayableRows(id, allocs[..n], allocs[n].wallet);
      OneMoreRow(ClaimRows(id, allocs[..n]), ClaimRow(id, allocs[n].wallet, allocs[n].payout));
      OneMorePayable(allocs);
    }
  }

  ghost predicate RowFor(rows: seq<ClaimRow>, wallet: string) {
    exists i :: 0 <= i < |rows| && rows[i].wallet == wallet
  }

  ghost predicate PayableTo(allocs: seq<Alloc>, wallet: string) {
    exists k :: 0 <= k < |allocs| && allocs[k].wallet == wallet && allocs[k].payout > 0
  }

  lemma OneMoreRow(rows: seq<ClaimRow>, r: ClaimRow)
    ensures SharesWallet(rows + [r]) <==> SharesWallet(rows) || RowFor(rows, r.wallet)
    ensures rows + [] == rows
  {
    var all := rows + [r];
    if SharesWallet(rows) {
      var i, j :| 0 <= i < j < |rows| && rows[i].wallet == rows[j].wallet;
      assert all[i].wallet == all[j].wallet;
    }
    if i :| 0 <= i < |rows| && rows[i].wallet == r.wallet { assert all[i].wallet == all[|rows|].wallet; }
    if SharesWallet(all) {
      var i, j :| 0 <= i < j < |all| && all[i].wallet == all[j].wallet;
      assert rows[i] == all[i] && (j < |rows| ==> rows[j] == all[j]);
    }
  }

  lemma OneMorePayable(allocs: seq<Alloc>)
    requires allocs != []
    ensures var n := |allocs| - 1;
      PaysTwice(allocs) <==>
        PaysTwice(allocs[..n]) || (allocs[n].payout > 0 && PayableTo(allocs[..n], allocs[n].wallet))
  {
    var n := |allocs| - 1;
    var init := allocs[..n];
    assert forall k :: 0 <= k < n ==> init[k] == allocs[k];
    if PaysTwice(allocs) {
      var i, j :| 0 <= i < j < |allocs| && allocs[i].wallet == allocs[j].wallet
        && allocs[i].payout > 0 && allocs[j].payout > 0;
      assert init[i].wallet == allocs[j].wallet;
    }
    if PaysTwice(init) {
      var i, j :| 0 <= i < j < n && init[i].wallet == init[j].wallet && init[i].payout > 0 && init[j].payout > 0;
      assert allocs[i].wallet == allocs[j].wallet;
    }
    if allocs[n].payout > 0 && PayableTo(init, allocs[n].wallet) {
      var k :| 0 <= k < n && init[k].wallet == allocs[n].wallet && init[k].payout > 0;
      assert allocs[k].wallet == allocs[n].wallet;
    }
  }

  lemma TreelessIff(r: Row)
    ensures ClaimTree.UniqueWallets(TreeInputs(r.id, r.allocations)) <==> !Treeless(r)
  {
    SharedWallets(r.id, r.allocations);
    var ins, rows := TreeInputs(r.id, r.allocations), ClaimRows(r.id, r.allocations);
    assert forall i :: 0 <= i < |rows| ==> ClaimTree.Typed(ins)[i].wallet == ins[i].wallet;
  }

  /** `claimTreeOf`. */
  method ClaimTreeOf(sha: Hasher, r: Row) returns (tree: Result<ClaimTree.BuiltTree, ClaimTree.ClaimError>)
    ensures tree.Ok? ==> tree.value.root == ClaimRoot(sha, r)
    ensures tree.Err? <==> Treeless(r)
  {
    hide Root, Path, TreeOf;
    TreelessIff(r);
    tree := ClaimTree.BuildClaimTree(sha, TreeInputs(r.id, r.allocations));
  }

  /** `getClaimProof`: the proof it serves verifies against the stored root. */
  method GetClaimProof(sha: Hasher, r: Row, wallet: string) returns (served: Option<(nat, seq<string>)>)
    ensures served.Some? <==> Intact(sha, r) && !Treeless(r) && exists k: nat :: FirstPayable(r, wallet, k)
    ensures served.Some? ==>
      ClaimTree.Verifies(sha, ClaimRow(r.id, wallet, served.value.0), served.value.1, r.merkleRoot.value)
    ensures served.Some? ==>
      exists k: nat :: FirstPayable(r, wallet, k) && r.allocations[k].payout == served.value.0
  {
    hide Root, Path, TreeOf, ClaimTree.Verifies, Treeless;
    TreelessIff(r);
    FoundIsFirst(r, wallet);
    if r.payoutMode != Escrow || r.escrowFundSignature.None? || r.merkleRoot.None? { return None; }
    var rows := ClaimRows(r.id, r.allocations);
    var tree := ClaimTree.BuildClaimTree(sha, TreeInputs(r.id, r.allocations));
    if tree.Err? || tree.value.root != r.merkleRoot.value { return None; }
    var found := FindPayable(r.allocations, wallet, 0);
    if found.None? { return None; }
    var a := r.allocations[found.value];
    PayableIsClaimRow(r.id, r.allocations, found.value);
    ClaimTree.StoredProofVerifies(sha, rows, ClaimRow(r.id, wallet, a.payout));
    RowsHaveWallets(rows, ClaimRow(r.id, wallet, a.payout));
    served := Some((a.payout, tree.value.proofs[wallet]));
  }

  lemma {:induction false} PayableIsClaimRow(id: string, allocs: seq<Alloc>, k: nat)
    requires k < |allocs| && allocs[k].payout > 0
    ensures ClaimRow(id, allocs[k].wallet, allocs[k].payout) in ClaimRows(id, allocs)
  {
    if k < |allocs| - 1 { PayableIsClaimRow(id, allocs[..|allocs| - 1], k); }
  }

  // ------------------------------------------------------------------ outcomes

  /** How the payment under a lease can end. */
  const PAYMENT_ENDS: set<Outcome> :=
    {Killed, InsufficientBalance, TransferFailed, ExecutionInProgress, ServerError, PaidOut}

  /** How an awaited call comes back, if the process is still there. */
  datatype Reply = Answered | Threw | Gone

  /** Where an exception leaves a process: in its `finally`, if it has one. */
  function AfterThrow(pc: Pc): Pc {
    match pc
    case Holding(_, lease, _) => Leaving(lease)
    case Claiming(g, k, w, a, Locked(until, _)) => Claiming(g, k, w, a, Unlocking(until))
    case Claiming(_, _, _, _, Found) => Finished
    case Snapshotting(_, _) => Finished
    case Executing(_, _) => Finished
    case _ => pc
  }

  class Server {
    const sha: Hasher
    const chain: FakeChain
    ghost const start: State
    var clock: nat
    var rows: seq<Row>
    var procs: seq<Proc>
    var log: seq<Transfer>
    /** Everything that happened so far, in this request and in others. */
    ghost var trace: seq<Event>
    /** How many calls that a request waited for have thrown. */
    ghost var faults: nat

    function Now(): State
      reads this, chain
    {
      State(clock, rows, procs, chain.State(), log)
    }

    /** The server is where its trace leads. */
    ghost predicate Valid()
      reads this, chain
    {
      Now() == Run(sha, start, trace)
    }

    constructor (sha: Hasher, chain: FakeChain, clock: nat)
      ensures Valid() && Init(start) && trace == [] && this.sha == sha && this.chain == chain
      ensures Now() == State(clock, [], [], chain.State(), [])
    {
      this.sha, this.chain, this.clock := sha, chain, clock;
      rows, procs, log, trace := [], [], [], [];
      start := State(clock, [], [], chain.State(), []);
    }

    /** The statement just made was the step `e`. */
    ghost method Record(before: State, e: Event)
      requires before == Run(sha, start, trace) && Now() == Step(sha, before, e)
      modifies this`trace
      ensures Valid() && trace == old(trace) + [e]
    {
      hide Run, Step;
      RunSnoc(sha, start, trace, e);
      trace := trace + [e];
    }

    method SetPc(me: nat, pc: Pc)
      requires me < |procs|
      modifies this`procs
      ensures procs == old(procs)[me := old(procs)[me].(pc := pc)]
    {
      procs := procs[me := procs[me].(pc := pc)];
    }

    /** `await`: any number of other requests get to run. */
    method Await(me: nat) returns (alive: bool)
      requires Valid() && me < |procs|
      modifies this, chain
      ensures Valid() && old(trace) <= trace && Undisturbed(old(Now()), Now(), me) && faults == old(faults)
      ensures alive == Alive(clock, procs[me]) && old(log) <= log && ExecutedStay()
    {
      hide Run, Step;
      var es: seq<Event> := *;
      var others := Foreign(es, me);
      forall d: nat | d < |rows| && rows[d].status == Lifecycle.Executed
        ensures d < |Run(sha, Now(), others).rows| && Run(sha, Now(), others).rows[d].status == Lifecycle.Executed
      {
        TableIsFrozen(sha, Now(), others, d);
      }
      RunFrame(sha, Now(), others, me);
      MoneyIsConserved(sha, Now(), others);
      RunConcat(sha, start, trace, others);
      var after := Run(sha, Now(), others);
      clock, rows, procs, log := after.clock, after.rows, after.procs, after.log;
      chain.issuerUsdc, chain.usdc := after.chain.issuerUsdc, after.chain.usdc;
      trace := trace + others;
      alive := Alive(clock, procs[me]);
    }

    twostate predicate ExecutedStay()
      reads this
    {
      forall d :: 0 <= d < |old(rows)| && old(rows)[d].status == Lifecycle.Executed ==>
        d < |rows| && rows[d].status == Lifecycle.Executed
    }

    /** A live process at `pc` on an existing row. */
    ghost predicate At(me: nat, d: nat, pc: Pc)
      reads this
    {
      && me < |procs| && Alive(clock, procs[me]) && procs[me].born <= clock && procs[me].pc == pc
      && procs[me].d == d && d < |rows|
    }

    /** One statement of `me`: the step `e`, which leaves it at `pc`. */
    twostate predicate Did(e: Event, me: nat, pc: Pc)
      reads this, chain
    {
      && Valid() && trace == old(trace) + [e] && Now() == Step(sha, old(Now()), e)
      && me < |old(procs)| && procs == old(procs)[me := old(procs)[me].(pc := pc)]
      && clock == old(clock) && |rows| == |old(rows)| && faults == old(faults)
    }

    /** The payment under the lease has ended so: the process is in its `finally`, unless it is gone, and
        `seen` is the server when that was decided. */
    twostate predicate Ends(new out: Outcome, new me: nat, new d: nat, new lease: int, new seen: State)
      reads this, chain
    {
      && (out != Killed ==> At(me, d, Leaving(lease)))
      && |old(trace)| <= |trace| && Passed(sha, start, trace, |old(trace)|, seen)
      && EndsBecause(seen, me, d, faults > old(faults), out)
    }

    /** This moment is one of the trace's. */
    lemma Here(from: nat)
      requires Valid() && from <= |trace|
      ensures Passed(sha, start, trace, from, Now())
    {
      PassesNow(sha, start, trace, from);
    }

    /** What a part of a call ended with is what the call ended with. */
    lemma EndsEarlier(before: seq<Event>, threw: nat, from: nat, threwFrom: nat, me: nat, d: nat, out: Outcome,
                      seen: State)
      requires from <= |before| && threwFrom <= threw && Passed(sha, start, trace, |before|, seen)
      requires EndsBecause(seen, me, d, faults > threw, out)
      ensures Passed(sha, start, trace, from, seen) && EndsBecause(seen, me, d, faults > threwFrom, out)
    {
      hide Passed, Run;
      PassedEarlier(sha, start, trace, trace, |before|, from, seen);
    }

    /** What a statement has decided stays true of the moment before it. */
    lemma Decided(before: seq<Event>, from: nat, threwFrom: nat, me: nat, d: nat, out: Outcome, seen: State)
      requires Passed(sha, start, before, from, seen) && before <= trace && EndsBecause(seen, me, d, false, out)
      ensures Passed(sha, start, trace, from, seen) && EndsBecause(seen, me, d, faults > threwFrom, out)
    {
      hide Passed, Run;
      PassedEarlier(sha, start, before, trace, from, from, seen);
    }

    /** `reportPeriod` once its checks have passed. */
    method ReportPeriod(id: string, rightsPool: nat)
      requires Valid()
      modifies this
      ensures Valid() && trace == old(trace) + [DoReport(id, rightsPool)]
      ensures |rows| == |old(rows)| + 1 && rows[..|old(rows)|] == old(rows)
      ensures var r := rows[|old(rows)|];
        && r.id == id && r.rightsPool == rightsPool && r.status == Draft && r.totalAllocated.None?
        && r.executingUntil.None? && r.escrowFundSignature.None? && r.allocations == []
    {
      ghost var before := Now();
      rows := rows + [Row(id, rightsPool, Draft, None, None, Direct, None, None, 0, [])];
      Record(before, DoReport(id, rightsPool));
    }

    // ---------------------------------------------------------------- exceptions

    /** An exception in the request: on to its `finally`, or out. */
    method Throw(me: nat, d: nat, pc: Pc)
      requires Valid() && At(me, d, pc)
      modifies this
      ensures Did(DoFail(me), me, AfterThrow(pc)) && rows == old(rows) && log == old(log)
    {
      ghost var before := Now();
      SetPc(me, AfterThrow(pc));
      Record(before, DoFail(me));
    }

    /** An exception in the `finally` itself: nothing more is released. */
    method Abandon(me: nat, d: nat, pc: Pc)
      requires Valid() && At(me, d, pc)
      modifies this
      ensures Did(DoCrash(me), me, Finished) && rows == old(rows) && log == old(log)
    {
      ghost var before := Now();
      SetPc(me, Finished);
      Record(before, DoCrash(me));
    }

    /** `await` of a call that may throw: others run, then the process goes on at `pc`, throws, or
        has been killed. */
    method Pause(me: nat, d: nat, pc: Pc) returns (reply: Reply)
      requires Valid() && At(me, d, pc)
      modifies this, chain
      ensures Valid() && old(trace) <= trace && old(log) <= log && |old(rows)| <= |rows| && ExecutedStay()
      ensures match reply
        case Answered => At(me, d, pc) && procs[me] == old(procs)[me] && old(clock) <= clock && faults == old(faults)
        case Threw => (AfterThrow(pc) != Finished ==> At(me, d, AfterThrow(pc))) && faults == old(faults) + 1
        case Gone => Dead(Now(), me) && faults == old(faults)
    {
      hide Run, Step;
      var alive := Await(me);
      if !alive { return Gone; }
      var throws: bool := *;
      if throws {
        Throw(me, d, pc);
        faults := faults + 1;
        return Threw;
      }
      reply := Answered;
    }

    /** The same while the lease is held: if the process does not go on, the payment has ended. */
    method Hold(me: nat, d: nat, pc: Pc, lease: int) returns (stop: Option<Outcome>, ghost seen: State)
      requires Valid() && At(me, d, pc) && AfterThrow(pc) == Leaving(lease)
      modifies this, chain
      ensures Valid() && old(trace) <= trace && old(log) <= log && |old(rows)| <= |rows| && ExecutedStay()
      ensures faults >= old(faults) && seen == Now() && Passed(sha, start, trace, |old(trace)|, seen)
      ensures match stop
        case None => At(me, d, pc) && procs[me] == old(procs)[me] && old(clock) <= clock && faults == old(faults)
        case Some(out) => Ends(out, me, d, lease, seen) && out in {Killed, ServerError}
    {
      hide Run, Step, Passed, Treeless, Valid;
      var reply := Pause(me, d, pc);
      Here(|old(trace)|);
      stop, seen := if reply == Answered then None else Stopped(reply), Now();
    }

    function Stopped(reply: Reply): Option<Outcome> {
      Some(if reply == Gone then Killed else ServerError)
    }

    // ---------------------------------------------------------------- statements of an execution

    method TakeLease(me: nat, d: nat, typed: nat, mode: PayoutMode, aim: nat, now: nat) returns (count: nat)
      requires Valid() && At(me, d, Executing(typed, mode)) && procs[me].born <= aim <= now <= clock
      modifies this
      ensures Did(DoTakeLease(me, aim, now), me,
                  if count > 0 then Holding(typed, aim + EXECUTION_LEASE_MS, Fresh(mode)) else Finished)
      ensures var r := old(rows)[d];
        count > 0 <==>
          && r.status == Snapshotted && r.totalAllocated == Some(typed)
          && (r.executingUntil.None? || r.executingUntil.value < now)
      ensures rows == if count > 0 then old(rows)[d := old(rows)[d].(executingUntil := Some(aim + EXECUTION_LEASE_MS))]
                      else old(rows)
    {
      ghost var before := Now();
      var r, until := rows[d], aim + EXECUTION_LEASE_MS;
      count := 0;
      if LeaseOpen(r, typed, now) {
        rows := rows[d := r.(executingUntil := Some(until))];
        count := 1;
      }
      SetPc(me, if count > 0 then Holding(typed, until, Fresh(mode)) else Finished);
      Record(before, DoTakeLease(me, aim, now));
    }

    /** The re-read of `payClaimed`, filtered and sorted. */
    method ReadUnpaid(me: nat, d: nat, typed: nat, lease: int) returns (generation: nat, unpaid: seq<Due>)
      requires Valid() && At(me, d, Holding(typed, lease, Fresh(Direct)))
      modifies this
      ensures Did(DoReadRow(me), me, Holding(typed, lease, ToPay(generation, unpaid, false)))
      ensures unpaid == Unpaid(old(rows)[d])
    {
      ghost var before := Now();
      generation, unpaid := rows[d].generation, Unpaid(rows[d]);
      SetPc(me, Holding(typed, lease, ToPay(generation, unpaid, false)));
      Record(before, DoReadRow(me));
    }

    method CheckDirectBalance(me: nat, d: nat, typed: nat, lease: int, generation: nat, unpaid: seq<Due>)
      returns (enough: bool)
      requires Valid() && At(me, d, Holding(typed, lease, ToPay(generation, unpaid, false)))
      modifies this
      ensures Did(DoCheckBalance(me), me,
                  if enough then Holding(typed, lease, ToPay(generation, unpaid, true)) else Leaving(lease))
      ensures enough <==> Sum(unpaid, DueAmount) <= chain.issuerUsdc
      ensures !enough ==> EndsBecause(old(Now()), me, d, false, InsufficientBalance)
    {
      ghost var before := Now();
      var remaining := Allocation.Reduce(unpaid, DueAmount);
      enough := chain.issuerUsdc >= remaining;
      SetPc(me, if enough then Holding(typed, lease, ToPay(generation, unpaid, true)) else Leaving(lease));
      Record(before, DoCheckBalance(me));
    }

    /** `allocation.updateMany where id in batch, txSignature null`: ids of replaced allocations match
        nothing. */
    method SignRows(d: nat, generation: nat, batch: seq<Due>, sig: Signature)
      requires d < |rows|
      modifies this`rows
      ensures var r := old(rows)[d];
        rows == old(rows)[d := r.(allocations := if r.generation == generation then SignAll(r.allocations, batch, sig)
                                                 else r.allocations)]
      ensures old(rows)[d].generation == generation && Listing(old(rows)[d].allocations, batch) ==>
        SignedExactly(old(rows)[d].allocations, rows[d].allocations, batch, sig)
    {
      hide Listing, SignedExactly;
      if rows[d].generation != generation { return; }
      var allocs := rows[d].allocations;
      for i := 0 to |batch|
        invariant allocs == SignAll(rows[d].allocations, batch[..i], sig)
      {
        assert batch[..i + 1][..i] == batch[..i];
        var k := batch[i].k;
        if k < |allocs| && allocs[k].txSignature.None? {
          allocs := allocs[k := allocs[k].(txSignature := Some(sig))];
        }
      }
      assert batch[..|batch|] == batch;
      if Listing(rows[d].allocations, batch) { SignsExactly(rows[d].allocations, batch, sig); }
      rows := rows[d := rows[d].(allocations := allocs)];
    }

    /** One batch of transfers and its record. */
    method PayOne(me: nat, d: nat, typed: nat, lease: int, generation: nat, unpaid: seq<Due>, batch: seq<Due>)
      returns (ok: bool)
      requires Valid() && At(me, d, Holding(typed, lease, ToPay(generation, unpaid, true)))
      requires unpaid != [] && batch == NextBatch(unpaid)
      modifies this, chain
      ensures Did(DoPayBatch(me), me,
                  if ok then Holding(typed, lease, Batched(generation, unpaid[|batch|..])) else Leaving(lease))
      ensures ok <==> Sum(batch, DueAmount) <= old(chain.issuerUsdc)
      ensures !ok ==> EndsBecause(old(Now()), me, d, false, TransferFailed)
      ensures log == old(log) + if ok then PaidNotes(d, batch, typed) else []
      ensures ok && old(rows)[d].generation == generation && Listing(old(rows)[d].allocations, batch) ==>
        SignedExactly(old(rows)[d].allocations, rows[d].allocations, batch, Tx(|old(log)|))
      ensures rows == old(rows)[d := old(rows)[d].(allocations := rows[d].allocations)]
      ensures !ok || old(rows)[d].generation != generation ==> rows == old(rows)
    {
      hide Run, Ledger.TransferBatch, SignAll, Listing, SignedExactly, EndsBecause, Sum;
      NotCovered(Now(), me, d, typed, lease, generation, unpaid);
      ghost var before := Now();
      BatchRefused(chain.State(), batch);
      ok := chain.TransferBatch(PaymentsFor(batch));
      if !ok {
        SetPc(me, Leaving(lease));
      } else {
        var signature := Tx(|log|);
        log := log + PaidNotes(d, batch, typed);
        SignRows(d, generation, batch, signature);
        SetPc(me, Holding(typed, lease, Batched(generation, unpaid[|batch|..])));
      }
      Record(before, DoPayBatch(me));
    }

    method RenewLease(me: nat, d: nat, typed: nat, lease: int, generation: nat, unpaid: seq<Due>)
      returns (next: int, renewed: bool)
      requires Valid() && At(me, d, Holding(typed, lease, Batched(generation, unpaid)))
      modifies this
      ensures Did(DoRenew(me, clock), me,
                  if renewed then Holding(typed, next, ToPay(generation, unpaid, true)) else Leaving(lease))
      ensures renewed <==> old(rows)[d].executingUntil == Some(lease)
      ensures !renewed ==> EndsBecause(old(Now()), me, d, false, ExecutionInProgress)
      ensures next == clock + EXECUTION_LEASE_MS
      ensures rows == if renewed then old(rows)[d := old(rows)[d].(executingUntil := Some(next))] else old(rows)
    {
      ghost var before := Now();
      var r := rows[d];
      next, renewed := clock + EXECUTION_LEASE_MS, false;
      if r.executingUntil == Some(lease) {
        rows := rows[d := r.(executingUntil := Some(next))];
        renewed := true;
      }
      SetPc(me, if renewed then Holding(typed, next, ToPay(generation, unpaid, true)) else Leaving(lease));
      Record(before, DoRenew(me, clock));
    }

    /** `markExecuted` of a direct execution. */
    method MarkPaid(me: nat, d: nat, typed: nat, lease: int, generation: nat)
      requires Valid() && At(me, d, Holding(typed, lease, ToPay(generation, [], true)))
      modifies this
      ensures Did(DoMarkExecuted(me), me, Leaving(lease))
      ensures rows == old(rows)[d := old(rows)[d].(status := Lifecycle.Executed, executingUntil := None,
                                                   payoutMode := Direct)]
    {
      ghost var before := Now();
      rows := rows[d := rows[d].(status := Lifecycle.Executed, executingUntil := None, payoutMode := Direct)];
      SetPc(me, Leaving(lease));
      Record(before, DoMarkExecuted(me));
    }

    /** The first half of `payClaimed`: what is due, and whether the issuer can cover it. */
    method OpenPayment(me: nat, d: nat, typed: nat, lease: int)
      returns (stop: Option<Outcome>, generation: nat, unpaid: seq<Due>, ghost seen: State)
      requires Valid() && At(me, d, Holding(typed, lease, Fresh(Direct)))
      modifies this, chain
      ensures Valid() && old(trace) <= trace && faults >= old(faults)
      ensures match stop
        case None =>
          At(me, d, Holding(typed, lease, ToPay(generation, unpaid, true)))
          && Allocation.Positive(unpaid, DueAmount) == unpaid
        case Some(out) => Ends(out, me, d, lease, seen) && out in {Killed, InsufficientBalance, ServerError}
    {
      hide Run, Step, Valid, Unpaid, Allocation.Positive, Passed, Sum, EndsBecause;
      generation, unpaid := 0, [];
      stop, seen := Hold(me, d, Holding(typed, lease, Fresh(Direct)), lease);
      if stop.Some? { return; }
      UnpaidPositive(rows[d]);
      generation, unpaid := ReadUnpaid(me, d, typed, lease);
      ghost var before, threw := trace, faults;
      stop, seen := Cover(me, d, typed, lease, generation, unpaid);
      if stop.Some? { EndsEarlier(before, threw, |old(trace)|, old(faults), me, d, stop.value, seen); }
    }

    /** The issuer's balance is read and compared. */
    method Cover(me: nat, d: nat, typed: nat, lease: int, generation: nat, unpaid: seq<Due>)
      returns (stop: Option<Outcome>, ghost seen: State)
      requires Valid() && At(me, d, Holding(typed, lease, ToPay(generation, unpaid, false)))
      modifies this, chain
      ensures Valid() && old(trace) <= trace && faults >= old(faults)
      ensures match stop
        case None => At(me, d, Holding(typed, lease, ToPay(generation, unpaid, true)))
        case Some(out) => Ends(out, me, d, lease, seen) && out in {Killed, InsufficientBalance, ServerError}
    {
      hide Run, Step, Valid, Passed, Sum, EndsBecause;
      stop, seen := Hold(me, d, Holding(typed, lease, ToPay(generation, unpaid, false)), lease);
      if stop.Some? { return; }
      ghost var before := trace;
      var enough := CheckDirectBalance(me, d, typed, lease, generation, unpaid);
      if !enough {
        Decided(before, |old(trace)|, old(faults), me, d, InsufficientBalance, seen);
        stop := Some(InsufficientBalance);
      }
    }

    /** One turn of the batch loop: pay, record, renew. */
    method PayNext(me: nat, d: nat, typed: nat, held: int, generation: nat, unpaid: seq<Due>, batch: seq<Due>)
      returns (stop: Option<Outcome>, lease: int, ghost seen: State)
      requires Valid() && At(me, d, Holding(typed, held, ToPay(generation, unpaid, true)))
      requires unpaid != [] && batch == NextBatch(unpaid)
      modifies this, chain
      ensures Valid() && old(trace) <= trace && faults >= old(faults)
      ensures match stop
        case None => At(me, d, Holding(typed, lease, ToPay(generation, unpaid[|batch|..], true)))
        case Some(out) =>
          Ends(out, me, d, lease, seen) && out in {Killed, TransferFailed, ExecutionInProgress, ServerError}
    {
      hide Run, Step, Valid, Passed, Sum, NextBatch, EndsBecause;
      lease := held;
      stop, seen := Hold(me, d, Holding(typed, lease, ToPay(generation, unpaid, true)), lease);
      if stop.Some? { return; }
      ghost var before := trace;
      NotCovered(Now(), me, d, typed, lease, generation, unpaid);
      var ok := PayOne(me, d, typed, lease, generation, unpaid, batch);
      if !ok {
        Decided(before, |old(trace)|, old(faults), me, d, TransferFailed, seen);
        return Some(TransferFailed), lease, seen;
      }
      before := trace;
      ghost var threw := faults;
      stop, lease, seen := KeepLease(me, d, typed, lease, generation, unpaid[|batch|..]);
      if stop.Some? { EndsEarlier(before, threw, |old(trace)|, old(faults), me, d, stop.value, seen); }
    }

    lemma NotCovered(s: State, me: nat, d: nat, typed: nat, lease: int, generation: nat, unpaid: seq<Due>)
      requires me < |s.procs| && s.procs[me].pc == Holding(typed, lease, ToPay(generation, unpaid, true))
      ensures s.chain.issuerUsdc < Sum(NextBatch(unpaid), DueAmount) ==> EndsBecause(s, me, d, false, TransferFailed)
      ensures |NextBatch(unpaid)| <= |unpaid|
    {
    }

    /** The lease is moved forward after a batch, if it is still ours. */
    method KeepLease(me: nat, d: nat, typed: nat, held: int, generation: nat, unpaid: seq<Due>)
      returns (stop: Option<Outcome>, lease: int, ghost seen: State)
      requires Valid() && At(me, d, Holding(typed, held, Batched(generation, unpaid)))
      modifies this, chain
      ensures Valid() && old(trace) <= trace && faults >= old(faults)
      ensures match stop
        case None => At(me, d, Holding(typed, lease, ToPay(generation, unpaid, true)))
        case Some(out) => Ends(out, me, d, lease, seen) && out in {Killed, ExecutionInProgress, ServerError}
    {
      hide Run, Step, Valid, Passed, Sum, EndsBecause;
      lease := held;
      stop, seen := Hold(me, d, Holding(typed, lease, Batched(generation, unpaid)), lease);
      if stop.Some? { return; }
      ghost var before := trace;
      var next, renewed := RenewLease(me, d, typed, lease, generation, unpaid);
      if !renewed {
        Decided(before, |old(trace)|, old(faults), me, d, ExecutionInProgress, seen);
        return Some(ExecutionInProgress), lease, seen;
      }
      lease := next;
    }

    /** `payClaimed`: pays what is due in batches, renewing the lease after each. `lease` ends up as
        the lease the process last held. */
    method PayClaimed(me: nat, d: nat, typed: nat, held: int) returns (out: Outcome, lease: int, ghost seen: State)
      requires Valid() && At(me, d, Holding(typed, held, Fresh(Direct)))
      modifies this, chain
      ensures Valid() && old(trace) <= trace && faults >= old(faults)
      ensures out in PAYMENT_ENDS && Ends(out, me, d, lease, seen)
      ensures out == PaidOut ==> rows[d].status == Lifecycle.Executed
    {
      hide Run, Step, Valid, NextBatch, Allocation.Flatten, Allocation.Packed, Allocation.Positive;
      hide Passed, EndsBecause;
      lease := held;
      var stop, generation, unpaid;
      stop, generation, unpaid, seen := OpenPayment(me, d, typed, lease);
      if stop.Some? { return stop.value, lease, seen; }
      var cut := Allocation.BatchTransfers(unpaid, DueAmount, MAX_TRANSFERS_PER_TX);
      var batches := cut.value;
      var i := 0;
      assert batches[0..] == batches;
      while i < |batches|
        invariant 0 <= i <= |batches| && Valid() && old(trace) <= trace && faults >= old(faults)
        invariant Allocation.Packed(batches[i..], MAX_TRANSFERS_PER_TX)
        invariant At(me, d, Holding(typed, lease, ToPay(generation, Allocation.Flatten(batches[i..]), true)))
      {
        FirstBatch(batches[i..]);
        assert batches[i..][1..] == batches[i + 1..];
        ghost var before, threw := trace, faults;
        stop, lease, seen := PayNext(me, d, typed, lease, generation, Allocation.Flatten(batches[i..]), batches[i]);
        if stop.Some? {
          EndsEarlier(before, threw, |old(trace)|, old(faults), me, d, stop.value, seen);
          return stop.value, lease, seen;
        }
        i := i + 1;
      }
      assert batches[i..] == [];
      NoBatch();
      ghost var before, threw := trace, faults;
      out, seen := FinishPaid(me, d, typed, lease, generation);
      EndsEarlier(before, threw, |old(trace)|, old(faults), me, d, out, seen);
    }

    /** `markExecuted` at the end of `payClaimed`, with the reads after it. */
    method FinishPaid(me: nat, d: nat, typed: nat, lease: int, generation: nat)
      returns (out: Outcome, ghost seen: State)
      requires Valid() && At(me, d, Holding(typed, lease, ToPay(generation, [], true)))
      modifies this, chain
      ensures Valid() && old(trace) <= trace && faults >= old(faults)
      ensures out in {Killed, ServerError, PaidOut} && Ends(out, me, d, lease, seen)
      ensures out == PaidOut ==> rows[d].status == Lifecycle.Executed
    {
      hide Run, Step, Valid, Passed, EndsBecause;
      var stop;
      stop, seen := Hold(me, d, Holding(typed, lease, ToPay(generation, [], true)), lease);
      if stop.Some? { return stop.value, seen; }
      MarkPaid(me, d, typed, lease, generation);
      ghost var before, threw := trace, faults;
      out, seen := Finish(me, d, lease);
      EndsEarlier(before, threw, |old(trace)|, old(faults), me, d, out, seen);
    }

    /** The reads after `markExecuted`. */
    method Finish(me: nat, d: nat, lease: int) returns (out: Outcome, ghost seen: State)
      requires Valid() && At(me, d, Leaving(lease)) && rows[d].status == Lifecycle.Executed
      modifies this, chain
      ensures Valid() && old(trace) <= trace && faults >= old(faults)
      ensures out in {Killed, ServerError, PaidOut} && Ends(out, me, d, lease, seen)
      ensures out == PaidOut ==> rows[d].status == Lifecycle.Executed
    {
      hide Run, Step, Valid, Passed, Treeless;
      var stop;
      stop, seen := Hold(me, d, Leaving(lease), lease);
      out := if stop.Some? then stop.value else PaidOut;
    }

    // ---------------------------------------------------------------- funding the escrow

    /** The re-read of `fundEscrowClaimed`: the tree, and what is still to be funded. */
    method ReadFunding(me: nat, d: nat, typed: nat, lease: int) returns (phase: Option<Phase>)
      requires Valid() && At(me, d, Holding(typed, lease, Fresh(Escrow)))
      modifies this
      ensures phase.None? <==> Treeless(old(rows)[d])
      ensures phase.None? ==> EndsBecause(old(Now()), me, d, false, ServerError)
      ensures var r := old(rows)[d];
        match phase
        case Some(ToMark(root, signature)) => root == ClaimRoot(sha, r) && r.escrowFundSignature == Some(signature)
        case Some(ToFund(root, remaining, checked)) =>
          && root == ClaimRoot(sha, r) && r.escrowFundSignature.None? && !checked
          && remaining == Sum(r.allocations, OpenPayout)
        case Some(_) => false
        case None => true
      ensures match phase
        case Some(ph) => Did(DoReadRow(me), me, Holding(typed, lease, ph))
        case None => Did(DoFail(me), me, Leaving(lease))
    {
      hide Run, Root, ClaimRows, Treeless;
      ghost var before := Now();
      var r := rows[d];
      var tree := ClaimTreeOf(sha, r);
      if tree.Err? {
        Throw(me, d, Holding(typed, lease, Fresh(Escrow)));
        return None;
      }
      SumOpenNonNegative(r.allocations);
      if r.escrowFundSignature.Some? {
        phase := Some(ToMark(tree.value.root, r.escrowFundSignature.value));
      } else {
        var remaining := Allocation.Reduce(r.allocations, OpenPayout);
        phase := Some(ToFund(tree.value.root, remaining, false));
      }
      SetPc(me, Holding(typed, lease, phase.value));
      Record(before, DoReadRow(me));
    }

    method CheckFundingBalance(me: nat, d: nat, typed: nat, lease: int, root: string, remaining: nat)
      returns (enough: bool)
      requires Valid() && At(me, d, Holding(typed, lease, ToFund(root, remaining, false)))
      modifies this
      ensures Did(DoCheckBalance(me), me,
                  if enough then Holding(typed, lease, ToFund(root, remaining, true)) else Leaving(lease))
      ensures enough <==> remaining <= chain.issuerUsdc
      ensures !enough ==> EndsBecause(old(Now()), me, d, false, InsufficientBalance)
    {
      ghost var before := Now();
      enough := chain.issuerUsdc >= remaining;
      SetPc(me, if enough then Holding(typed, lease, ToFund(root, remaining, true)) else Leaving(lease));
      Record(before, DoCheckBalance(me));
    }

    lemma NotFundable(s: State, me: nat, d: nat, typed: nat, lease: int, root: string, remaining: nat)
      requires me < |s.procs| && s.procs[me].pc == Holding(typed, lease, ToFund(root, remaining, true))
      ensures s.chain.issuerUsdc < remaining ==> EndsBecause(s, me, d, false, TransferFailed)
    {
    }

    /** The issuer -> escrow transfer and its record under our lease. */
    method FundOnce(me: nat, d: nat, typed: nat, lease: int, root: string, remaining: nat)
      returns (signature: Option<Signature>)
      requires Valid() && At(me, d, Holding(typed, lease, ToFund(root, remaining, true)))
      modifies this, chain
      ensures Did(DoFund(me), me,
                  if signature.Some? then Holding(typed, lease, ToMark(root, signature.value)) else Leaving(lease))
      ensures signature.Some? <==> remaining <= old(chain.issuerUsdc)
      ensures signature.None? ==> EndsBecause(old(Now()), me, d, false, TransferFailed)
      ensures signature.Some? ==> signature.value == if remaining == 0 then NoTransferNeeded else Tx(|old(log)|)
      ensures log == old(log) + if signature.Some? && remaining > 0 then [Fundings(d, remaining, typed)] else []
      ensures rows == if signature.Some? && old(rows)[d].executingUntil == Some(lease)
                      then old(rows)[d := old(rows)[d].(payoutMode := Escrow, escrowFundSignature := signature,
                                                        merkleRoot := Some(root))]
                      else old(rows)
    {
      hide Run, Ledger.TransferBatch, EndsBecause, Sum;
      FundingRefused(chain.State(), remaining);
      NotFundable(Now(), me, d, typed, lease, root, remaining);
      ghost var before := Now();
      var ok, sig := true, NoTransferNeeded;
      if remaining > 0 {
        ok := chain.TransferBatch([Payment(ESCROW, remaining)]);
        sig := Tx(|log|);
      }
      if !ok {
        signature := None;
        SetPc(me, Leaving(lease));
      } else {
        if remaining > 0 {
          log := log + [Fundings(d, remaining, typed)];
        }
        if rows[d].executingUntil == Some(lease) {
          rows := rows[d := rows[d].(payoutMode := Escrow, escrowFundSignature := Some(sig), merkleRoot := Some(root))];
        }
        signature := Some(sig);
        SetPc(me, Holding(typed, lease, ToMark(root, sig)));
      }
      Record(before, DoFund(me));
    }

    /** `markExecuted` of an escrow execution. */
    method MarkFunded(me: nat, d: nat, typed: nat, lease: int, root: string, signature: Signature)
      requires Valid() && At(me, d, Holding(typed, lease, ToMark(root, signature)))
      modifies this
      ensures Did(DoMarkExecuted(me), me, Leaving(lease))
      ensures rows == old(rows)[d := old(rows)[d].(status := Lifecycle.Executed, executingUntil := None,
        payoutMode := Escrow, merkleRoot := Some(root), escrowFundSignature := Some(signature))]
    {
      ghost var before := Now();
      rows := rows[d := rows[d].(status := Lifecycle.Executed, executingUntil := None, payoutMode := Escrow,
                                 merkleRoot := Some(root), escrowFundSignature := Some(signature))];
      SetPc(me, Leaving(lease));
      Record(before, DoMarkExecuted(me));
    }

    /** From the re-read to the funded escrow, or to the one funded before. */
    method ReachFunded(me: nat, d: nat, typed: nat, lease: int)
      returns (stop: Option<Outcome>, root: string, signature: Signature, ghost seen: State)
      requires Valid() && At(me, d, Holding(typed, lease, Fresh(Escrow)))
      modifies this, chain
      ensures Valid() && old(trace) <= trace && faults >= old(faults)
      ensures match stop
        case None => At(me, d, Holding(typed, lease, ToMark(root, signature)))
        case Some(out) =>
          Ends(out, me, d, lease, seen) && out in {Killed, InsufficientBalance, TransferFailed, ServerError}
    {
      hide Run, Step, Valid, ClaimRoot, Passed, Treeless, Sum, EndsBecause;
      root, signature := "", NoTransferNeeded;
      stop, seen := Hold(me, d, Holding(typed, lease, Fresh(Escrow)), lease);
      if stop.Some? { return; }
      ghost var before, threw := trace, faults;
      var read := ReadFunding(me, d, typed, lease);
      if read.None? {
        Decided(before, |old(trace)|, old(faults), me, d, ServerError, seen);
        return Some(ServerError), root, signature, seen;
      }
      if read.value.ToMark? { return None, read.value.fundedRoot, read.value.signature, seen; }
      root := read.value.root;
      before, threw := trace, faults;
      stop, signature, seen := FundRemaining(me, d, typed, lease, root, read.value.remaining);
      if stop.Some? { EndsEarlier(before, threw, |old(trace)|, old(faults), me, d, stop.value, seen); }
    }

    /** The balance check, then the transfer and its record. */
    method FundRemaining(me: nat, d: nat, typed: nat, lease: int, root: string, remaining: nat)
      returns (stop: Option<Outcome>, signature: Signature, ghost seen: State)
      requires Valid() && At(me, d, Holding(typed, lease, ToFund(root, remaining, false)))
      modifies this, chain
      ensures Valid() && old(trace) <= trace && faults >= old(faults)
      ensures match stop
        case None => At(me, d, Holding(typed, lease, ToMark(root, signature)))
        case Some(out) =>
          Ends(out, me, d, lease, seen) && out in {Killed, InsufficientBalance, TransferFailed, ServerError}
    {
      hide Run, Step, Valid, Passed, EndsBecause;
      signature := NoTransferNeeded;
      stop, seen := Hold(me, d, Holding(typed, lease, ToFund(root, remaining, false)), lease);
      if stop.Some? { return; }
      ghost var before, threw := trace, faults;
      var enough := CheckFundingBalance(me, d, typed, lease, root, remaining);
      if !enough {
        Decided(before, |old(trace)|, old(faults), me, d, InsufficientBalance, seen);
        return Some(InsufficientBalance), signature, seen;
      }
      before, threw := trace, faults;
      stop, signature, seen := FundCovered(me, d, typed, lease, root, remaining);
      if stop.Some? { EndsEarlier(before, threw, |old(trace)|, old(faults), me, d, stop.value, seen); }
    }

    method FundCovered(me: nat, d: nat, typed: nat, lease: int, root: string, remaining: nat)
      returns (stop: Option<Outcome>, signature: Signature, ghost seen: State)
      requires Valid() && At(me, d, Holding(typed, lease, ToFund(root, remaining, true)))
      modifies this, chain
      ensures Valid() && old(trace) <= trace && faults >= old(faults)
      ensures match stop
        case None => At(me, d, Holding(typed, lease, ToMark(root, signature)))
        case Some(out) => Ends(out, me, d, lease, seen) && out in {Killed, TransferFailed, ServerError}
    {
      hide Run, Step, Valid, Passed, EndsBecause;
      signature := NoTransferNeeded;
      stop, seen := Hold(me, d, Holding(typed, lease, ToFund(root, remaining, true)), lease);
      if stop.Some? { return; }
      ghost var before := trace;
      var funded := FundOnce(me, d, typed, lease, root, remaining);
      if funded.None? {
        Decided(before, |old(trace)|, old(faults), me, d, TransferFailed, seen);
        return Some(TransferFailed), signature, seen;
      }
      signature := funded.value;
    }

    /** `fundEscrowClaimed`. Between the funding and EXECUTED, too, a call may throw: then the
        `finally` frees the lease, and a retry finds the escrow funded. */
    method FundEscrowClaimed(me: nat, d: nat, typed: nat, lease: int) returns (out: Outcome, ghost seen: State)
      requires Valid() && At(me, d, Holding(typed, lease, Fresh(Escrow)))
      modifies this, chain
      ensures Valid() && old(trace) <= trace && faults >= old(faults)
      ensures out in PAYMENT_ENDS && Ends(out, me, d, lease, seen)
      ensures out == PaidOut ==> rows[d].status == Lifecycle.Executed
    {
      hide Run, Step, Valid, Passed, EndsBecause;
      var stop, root, signature;
      stop, root, signature, seen := ReachFunded(me, d, typed, lease);
      if stop.Some? { return stop.value, seen; }
      ghost var before, threw := trace, faults;
      out, seen := FinishFunded(me, d, typed, lease, root, signature);
      EndsEarlier(before, threw, |old(trace)|, old(faults), me, d, out, seen);
    }

    /** `markExecuted` of a funded escrow, with the reads around it. */
    method FinishFunded(me: nat, d: nat, typed: nat, lease: int, root: string, signature: Signature)
      returns (out: Outcome, ghost seen: State)
      requires Valid() && At(me, d, Holding(typed, lease, ToMark(root, signature)))
      modifies this, chain
      ensures Valid() && old(trace) <= trace && faults >= old(faults)
      ensures out in {Killed, ServerError, PaidOut} && Ends(out, me, d, lease, seen)
      ensures out == PaidOut ==> rows[d].status == Lifecycle.Executed
    {
      hide Run, Step, Valid, Passed, EndsBecause;
      var stop;
      stop, seen := Hold(me, d, Holding(typed, lease, ToMark(root, signature)), lease);
      if stop.Some? { return stop.value, seen; }
      MarkFunded(me, d, typed, lease, root, signature);
      ghost var before, threw := trace, faults;
      out, seen := Finish(me, d, lease);
      EndsEarlier(before, threw, |old(trace)|, old(faults), me, d, out, seen);
    }

    // ---------------------------------------------------------------- the execute handler

    /** The `finally`: `updateMany where executingUntil = our lease`. */
    method ReleaseOurLease(me: nat, d: nat, lease: int)
      requires Valid() && At(me, d, Leaving(lease))
      modifies this
      ensures Did(DoReleaseLease(me), me, Finished)
      ensures rows == if old(rows)[d].executingUntil == Some(lease)
                      then old(rows)[d := old(rows)[d].(executingUntil := None)] else old(rows)
    {
      ghost var before := Now();
      if rows[d].executingUntil == Some(lease) {
        rows := rows[d := rows[d].(executingUntil := None)];
      }
      SetPc(me, Finished);
      Record(before, DoReleaseLease(me));
    }

    /** The request has passed its gate and becomes a process. A funded escrow fixes the mode; recorded
        payouts fix it the other way. */
    method StartExecution(d: nat, typed: nat, mode: PayoutMode) returns (me: nat, payout: PayoutMode)
      requires Valid() && d < |rows| && Executable(rows[d], typed) && rows[d].status != Lifecycle.Executed
      modifies this
      ensures Valid() && trace == old(trace) + [DoBeginExecute(d, typed, mode)] && faults == old(faults)
      ensures At(me, d, Executing(typed, payout)) && me == |old(procs)| && procs[me].born == clock == old(clock)
      ensures GoesAheadAs(rows[d], mode, payout) && rows == old(rows) && log == old(log)
    {
      ghost var before := Now();
      var r := rows[d];
      payout := mode;
      if r.escrowFundSignature.Some? {
        payout := Escrow;
      } else if payout == Escrow && AnySigned(r.allocations) {
        payout := Direct;
      }
      me := |procs|;
      procs := procs + [Proc(d, clock, Executing(typed, payout))];
      Record(before, DoBeginExecute(d, typed, mode));
    }

    /** `assertExecutable` and the early answer for an executed distribution. */
    method GateExecution(d: nat, typed: nat) returns (stop: Option<Outcome>)
      ensures stop.None? <==> d < |rows| && rows[d].status == Snapshotted && rows[d].totalAllocated == Some(typed)
      ensures stop.Some? ==> GateStops(Now(), d, typed, stop.value)
    {
      if d >= |rows| { return Some(NotFound); }
      if rows[d].status == Draft || rows[d].totalAllocated.None? { return Some(NotSnapshotted); }
      if typed != rows[d].totalAllocated.value { return Some(ConfirmTotalMismatch); }
      stop := if rows[d].status == Lifecycle.Executed then Some(AlreadyExecuted) else None;
    }

    /** The `try` and the `finally` around the payment. */
    method PayUnderLease(me: nat, d: nat, typed: nat, until: int, payout: PayoutMode)
      returns (out: Outcome, ghost seen: State)
      requires Valid() && At(me, d, Holding(typed, until, Fresh(payout)))
      modifies this, chain
      ensures Valid() && old(trace) <= trace && faults >= old(faults)
      ensures out in PAYMENT_ENDS && Passed(sha, start, trace, |old(trace)|, seen)
      ensures EndsBecause(seen, me, d, faults > old(faults), out)
      ensures out == PaidOut ==> d < |rows| && rows[d].status == Lifecycle.Executed
    {
      hide Run, Step, Valid, Passed, EndsBecause;
      var lease := until;
      if payout == Escrow {
        out, seen := FundEscrowClaimed(me, d, typed, lease);
      } else {
        out, lease, seen := PayClaimed(me, d, typed, lease);
      }
      if out == Killed { return; }
      ghost var before, threw := trace, faults;
      var stop, now := GiveBack(me, d, lease);
      if stop.Some? {
        EndsEarlier(before, threw, |old(trace)|, old(faults), me, d, stop.value, now);
        return stop.value, now;
      }
      PassedEarlier(sha, start, before, trace, |old(trace)|, |old(trace)|, seen);
      StillBecause(seen, me, d, threw > old(faults), faults > old(faults), out);
    }

    lemma StillBecause(seen: State, me: nat, d: nat, threw: bool, threw': bool, out: Outcome)
      requires EndsBecause(seen, me, d, threw, out) && (threw ==> threw')
      ensures EndsBecause(seen, me, d, threw', out)
    {
    }

    /** The `finally`, unless its own call throws or the process dies on the way. */
    method GiveBack(me: nat, d: nat, lease: int) returns (stop: Option<Outcome>, ghost seen: State)
      requires Valid() && At(me, d, Leaving(lease))
      modifies this, chain
      ensures Valid() && old(trace) <= trace && faults >= old(faults) && ExecutedStay()
      ensures match stop
        case None => true
        case Some(out) =>
          && out in {Killed, ServerError} && Passed(sha, start, trace, |old(trace)|, seen)
          && EndsBecause(seen, me, d, faults > old(faults), out)
    {
      hide Run, Step, Valid, Passed, Treeless;
      stop, seen := Hold(me, d, Leaving(lease), lease);
      ghost var before := trace;
      if stop == Some(ServerError) {
        Abandon(me, d, Leaving(lease));
      } else if stop.None? {
        ReleaseOurLease(me, d, lease);
      }
      PassedEarlier(sha, start, before, trace, |old(trace)|, |old(trace)|, seen);
    }

    /** `executeDistribution` in custody mode. Every answer has its reason: `seen` is the server when it
        was decided. */
    method ExecuteDistribution(d: nat, typed: nat, mode: PayoutMode) returns (out: Outcome, ghost seen: State)
      requires Valid()
      modifies this, chain
      ensures Valid() && old(trace) <= trace
      ensures out in {PaidOut, AlreadyExecuted} ==> d < |rows| && rows[d].status == Lifecycle.Executed
      ensures Passed(sha, start, trace, |old(trace)|, seen)
      ensures Because(seen, |old(procs)|, d, typed, old(clock), faults > old(faults), out)
    {
      hide Run, Step, Valid, Passed, EndsBecause, GoesAheadAs;
      var stop := GateExecution(d, typed);
      Here(|old(trace)|);
      if stop.Some? { return stop.value, Now(); }
      var me, payout := StartExecution(d, typed, mode);
      ghost var before, threw := trace, faults;
      out, seen := ExecuteStarted(me, d, typed, payout);
      PassedEarlier(sha, start, trace, trace, |before|, |old(trace)|, seen);
    }

    /** From the claim on the row to the `finally`. */
    method ExecuteStarted(me: nat, d: nat, typed: nat, payout: PayoutMode) returns (out: Outcome, ghost seen: State)
      requires Valid() && At(me, d, Executing(typed, payout)) && procs[me].born == clock
      modifies this, chain
      ensures Valid() && old(trace) <= trace && faults >= old(faults)
      ensures out in {PaidOut, AlreadyExecuted} ==> d < |rows| && rows[d].status == Lifecycle.Executed
      ensures Passed(sha, start, trace, |old(trace)|, seen)
      ensures Because(seen, me, d, typed, old(clock), faults > old(faults), out)
    {
      hide Run, Step, Valid, Passed, Treeless, Short, Refused, LostLease;
      var aim, now := clock, clock;
      var reply := Pause(me, d, Executing(typed, payout));
      Here(|old(trace)|);
      if reply != Answered { return Stopped(reply).value, Now(); }
      seen := Now();
      ghost var before := trace;
      var count := TakeLease(me, d, typed, payout, aim, now);
      PassedEarlier(sha, start, before, trace, |old(trace)|, |old(trace)|, seen);
      if count == 0 {
        var stop := GateExecution(d, typed);
        Here(|old(trace)|);
        if stop.Some? { return stop.value, Now(); }
        return ExecutionInProgress, seen;
      }
      before := trace;
      ghost var threw := faults;
      out, seen := PayUnderLease(me, d, typed, aim + EXECUTION_LEASE_MS, payout);
      EndsEarlier(before, threw, |old(trace)|, old(faults), me, d, out, seen);
    }

    // ---------------------------------------------------------------- the snapshot handler

    /** `assertSnapshotAllowed`. */
    method AssertSnapshotAllowed(r: Row, now: nat) returns (stop: Option<SnapshotOutcome>)
      ensures stop.None? <==> SnapshotAllowed(r, now)
      ensures stop.None? <==>
        r.status != Lifecycle.Executed && (r.executingUntil.None? || r.executingUntil.value <= now) && !PartlyPaid(r)
      ensures stop.Some? ==> SnapshotStops(r, now, stop.value)
    {
      if r.status == Lifecycle.Executed { return Some(AlreadyFinal); }
      if LeaseHeld(r, now) { return Some(SnapshotInProgress); }
      stop := if AnySigned(r.allocations) then Some(PayoutsRecorded) else None;
    }

    /** The transaction: written first, checked after the write, rolled back when a check throws. */
    method CommitTable(me: nat, d: nat, allocs: seq<Alloc>, total: nat) returns (out: SnapshotOutcome)
      requires Valid() && At(me, d, Snapshotting(allocs, total))
      modifies this
      ensures Did(DoCommitSnapshot(me), me, Finished)
      ensures out == Taken <==> SnapshotFits(old(rows)[d], clock)
      ensures out != Taken ==> SnapshotStops(old(rows)[d], clock, out)
      ensures rows == if out == Taken
                      then old(rows)[d := old(rows)[d].(status := Snapshotted, totalAllocated := Some(total),
                                                        generation := old(rows)[d].generation + 1,
                                                        allocations := allocs)]
                      else old(rows)
    {
      hide Run;
      ghost var before := Now();
      var r, now := rows[d], clock;
      var claimed := r.status != Lifecycle.Executed && LeaseFree(r, now);
      if claimed {
        r := r.(status := Snapshotted, totalAllocated := Some(total));
      }
      var stop := AssertSnapshotAllowed(r, now);
      out := if stop.Some? then stop.value else if !claimed then SnapshotInProgress else Taken;
      if out == Taken {
        rows := rows[d := r.(generation := r.generation + 1, allocations := allocs)];
      }
      SetPc(me, Finished);
      Record(before, DoCommitSnapshot(me));
    }

    /** One unpaid allocation for each row of the result. */
    ghost predicate TableOf(allocs: seq<Alloc>, rows: seq<Allocation.AllocationRow>) {
      && |allocs| == |rows|
      && forall i :: 0 <= i < |rows| ==>
           allocs[i].wallet == rows[i].owner && allocs[i].payout == rows[i].payout && allocs[i].txSignature.None?
    }

    /** `snapshotDistribution`, given the holders it reads from the chain. */
    method SnapshotDistribution(d: nat, holders: seq<Allocation.HolderBalance>, supply: int)
      returns (out: SnapshotOutcome, ghost seen: State)
      requires Valid()
      modifies this, chain
      ensures Valid() && old(trace) <= trace
      ensures out == Taken ==> d < |old(rows)| <= |rows| && rows[d].status == Snapshotted
      ensures out == Taken ==> var result := Allocation.Allocate(holders, supply, old(rows)[d].rightsPool);
        && result.Ok? && TotalOf(rows[d]) == Some(result.value.totalAllocated)
        && TableOf(rows[d].allocations, result.value.rows)
      ensures Passed(sha, start, trace, |old(trace)|, seen)
      ensures SnapshotBecause(seen, |old(procs)|, d, holders, supply, faults > old(faults), out)
    {
      hide Run, Step, Valid, Passed, Allocation.Allocate, PartlyPaid, SnapshotAllowed;
      seen := Now();
      Here(|old(trace)|);
      if d >= |rows| { return Missing, seen; }
      var stop := AssertSnapshotAllowed(rows[d], clock);
      if stop.Some? { return stop.value, seen; }
      var result := Allocation.AllocateHolders(holders, supply, rows[d].rightsPool);
      if result.Err? { return NotAllocated(result.error), seen; }
      AllocatesNats(holders, supply, rows[d].rightsPool);
      var me := |procs|;
      var allocs, total := AllocsFrom(result.value.rows), result.value.totalAllocated;
      StartSnapshot(me, d, holders, supply, allocs, total);
      var reply := Pause(me, d, Snapshotting(allocs, total));
      Here(|old(trace)|);
      if reply != Answered { return if reply == Gone then SnapshotKilled else SnapshotError, Now(); }
      seen := Now();
      ghost var before := trace;
      out := CommitTable(me, d, allocs, total);
      PassedEarlier(sha, start, before, trace, |old(trace)|, |old(trace)|, seen);
    }

    /** The holders have been read and allocated. */
    method StartSnapshot(me: nat, d: nat, holders: seq<Allocation.HolderBalance>, supply: int, allocs: seq<Alloc>,
                         total: nat)
      requires Valid() && me == |procs| && d < |rows| && SnapshotAllowed(rows[d], clock)
      requires var result := Allocation.Allocate(holders, supply, rows[d].rightsPool);
        && result.Ok? && total == result.value.totalAllocated && TableOf(allocs, result.value.rows)
        && forall i :: 0 <= i < |allocs| ==> allocs[i].claimingUntil.None?
      modifies this
      ensures Valid() && trace == old(trace) + [DoBeginSnapshot(d, holders, supply)] && faults == old(faults)
      ensures At(me, d, Snapshotting(allocs, total)) && rows == old(rows)
    {
      hide Run, Allocation.Allocate, SnapshotAllowed;
      ghost var before := Now();
      AllocatesNats(holders, supply, rows[d].rightsPool);
      assert allocs == AllocsFrom(Allocation.Allocate(holders, supply, rows[d].rightsPool).value.rows);
      procs := procs + [Proc(d, clock, Snapshotting(allocs, total))];
      Record(before, DoBeginSnapshot(d, holders, supply));
    }

    // ---------------------------------------------------------------- the claim handler

    /** The checks of `claimDistribution` before its lock, all against one read of the row. A claim goes on
        with the wallet's first payable allocation, which no transfer has paid, of an intact row, and with
        a proof that leads from its leaf to the stored root if one came. */
    method CheckClaim(d: nat, wallet: string, proof: Option<seq<string>>) returns (stop: Option<ClaimOutcome>, k: nat)
      ensures match stop
        case None => d < |rows| && MayClaim(rows[d], wallet, proof, k)
        case Some(out) => ClaimStops(sha, Now(), d, wallet, proof, out)
    {
      hide ClaimRoot, ClaimTree.Verifies, FindPayable, Treeless;
      stop, k := None, 0;
      if d >= |rows| { return Some(NoDistribution), k; }
      var r := rows[d];
      if r.payoutMode != Escrow || r.escrowFundSignature.None? || r.merkleRoot.None? { return Some(NotEscrowed), k; }
      var tree := ClaimTreeOf(sha, r);
      if tree.Err? || tree.value.root != r.merkleRoot.value { return Some(RootMismatch), k; }
      var found := FindPayable(r.allocations, wallet, 0);
      FoundIsFirst(r, wallet);
      if found.None? { return Some(NoAllocation), k; }
      k := found.value;
      var a := r.allocations[k];
      if proof.Some? {
        var leaf := ClaimTree.ClaimLeafInput(r.id, wallet, a.payout);
        var verdict := ClaimTree.VerifyClaimProof(sha, leaf, proof.value, r.merkleRoot.value);
        if !verdict.value { return Some(InvalidProof), k; }
      }
      if a.txSignature.Some? { return Some(AlreadyClaimed(a.txSignature.value)), k; }
    }

    ghost predicate MayClaim(r: Row, wallet: string, proof: Option<seq<string>>, k: nat) {
      && Intact(sha, r) && FirstPayable(r, wallet, k) && r.allocations[k].txSignature.None?
      && (proof.Some? ==>
            ClaimTree.Verifies(sha, ClaimRow(r.id, wallet, r.allocations[k].payout), proof.value, r.merkleRoot.value))
    }

    lemma BeginsClaim(s: State, d: nat, wallet: string, proof: Option<seq<string>>, k: nat)
      requires d < |s.rows| && MayClaim(s.rows[d], wallet, proof, k)
      ensures BeginClaim(sha, s, d, wallet, proof) ==
        Spawn(s, d, Claiming(s.rows[d].generation, k, wallet, s.rows[d].allocations[k].payout, Found))
    {
      hide ClaimRoot, ClaimTree.Verifies, FindPayable;
      FoundIsFirst(s.rows[d], wallet);
    }

    /** `claimDistribution` up to its lock. */
    method StartClaim(d: nat, wallet: string, proof: Option<seq<string>>)
      returns (stop: Option<ClaimOutcome>, me: nat, generation: nat, k: nat, payout: nat)
      requires Valid()
      modifies this
      ensures Valid() && old(trace) <= trace && log == old(log) && rows == old(rows)
      ensures faults == old(faults) && clock == old(clock)
      ensures match stop
        case None =>
          && At(me, d, Claiming(generation, k, wallet, payout, Found)) && me == |old(procs)| && procs[me].born == clock
          && MayClaim(rows[d], wallet, proof, k)
          && rows[d].generation == generation && rows[d].allocations[k].payout == payout
        case Some(out) => trace == old(trace) && ClaimStops(sha, old(Now()), d, wallet, proof, out)
    {
      hide Run, BeginClaim, ClaimStops, MayClaim;
      me, generation, payout := 0, 0, 0;
      stop, k := CheckClaim(d, wallet, proof);
      if stop.Some? { return; }
      PayableAt(rows[d], wallet, proof, k);
      ghost var before := Now();
      BeginsClaim(before, d, wallet, proof, k);
      me, generation, payout := |procs|, rows[d].generation, rows[d].allocations[k].payout;
      procs := procs + [Proc(d, clock, Claiming(generation, k, wallet, payout, Found))];
      Record(before, DoBeginClaim(d, wallet, proof));
    }

    lemma PayableAt(r: Row, wallet: string, proof: Option<seq<string>>, k: nat)
      requires MayClaim(r, wallet, proof, k)
      ensures k < |r.allocations|
    {
    }

    function WithAlloc(r: Row, k: nat, a: Alloc): Row
      requires k < |r.allocations|
    {
      r.(allocations := r.allocations[k := a])
    }

    method TakeLock(me: nat, d: nat, generation: nat, k: nat, wallet: string, payout: nat, now: nat)
      returns (count: nat)
      requires Valid() && At(me, d, Claiming(generation, k, wallet, payout, Found)) && procs[me].born <= now <= clock
      modifies this
      ensures Did(DoTakeLock(me, now), me,
                  if count > 0 then Claiming(generation, k, wallet, payout, Locked(now + CLAIM_LOCK_MS, false))
                  else Finished)
      ensures log == old(log)
      ensures var r := old(rows)[d];
        count > 0 <==>
          && r.generation == generation && k < |r.allocations| && r.allocations[k].txSignature.None?
          && (r.allocations[k].claimingUntil.None? || r.allocations[k].claimingUntil.value < now)
      ensures rows == if count > 0 then old(rows)[d := WithAlloc(old(rows)[d], k,
                        old(rows)[d].allocations[k].(claimingUntil := Some(now + CLAIM_LOCK_MS)))]
                      else old(rows)
    {
      ghost var before := Now();
      var r, until := rows[d], now + CLAIM_LOCK_MS;
      count := 0;
      if r.generation == generation && k < |r.allocations| && r.allocations[k].txSignature.None?
         && (r.allocations[k].claimingUntil.None? || r.allocations[k].claimingUntil.value < now) {
        rows := rows[d := r.(allocations := r.allocations[k := r.allocations[k].(claimingUntil := Some(until))])];
        count := 1;
      }
      SetPc(me, if count > 0 then Claiming(generation, k, wallet, payout, Locked(until, false)) else Finished);
      Record(before, DoTakeLock(me, now));
    }

    method CheckEscrow(me: nat, d: nat, generation: nat, k: nat, wallet: string, payout: nat, until: int)
      returns (enough: bool)
      requires Valid() && At(me, d, Claiming(generation, k, wallet, payout, Locked(until, false)))
      modifies this
      ensures Did(DoCheckEscrow(me), me,
                  Claiming(generation, k, wallet, payout, if enough then Locked(until, true) else Unlocking(until)))
      ensures enough <==> payout <= Balance(chain.usdc, ESCROW)
    {
      ghost var before := Now();
      enough := Balance(chain.usdc, ESCROW) >= payout;
      SetPc(me, Claiming(generation, k, wallet, payout, if enough then Locked(until, true) else Unlocking(until)));
      Record(before, DoCheckEscrow(me));
    }

    /** The release and its record. */
    method ReleaseOnce(me: nat, d: nat, generation: nat, k: nat, wallet: string, payout: nat, until: int)
      returns (signature: Option<Signature>)
      requires Valid() && At(me, d, Claiming(generation, k, wallet, payout, Locked(until, true)))
      modifies this, chain
      ensures Did(DoReleasePayout(me), me, Claiming(generation, k, wallet, payout, Unlocking(until)))
      ensures signature.Some? <==> payout <= Balance(old(chain.usdc), ESCROW)
      ensures signature.Some? ==> signature.value == Tx(|old(log)|) && log == old(log) + [Released(d, wallet, payout)]
      ensures rows == if signature.Some? && old(rows)[d].generation == generation && k < |old(rows)[d].allocations|
                      then old(rows)[d := WithAlloc(old(rows)[d], k, old(rows)[d].allocations[k].(
                                                      txSignature := signature, claimingUntil := None))]
                      else old(rows)
    {
      hide Run, Ledger.Release;
      ReleaseRefused(chain.State(), wallet, payout);
      ghost var before := Now();
      var ok := chain.Release([Payment(wallet, payout)]);
      signature := None;
      if ok {
        signature := Some(Tx(|log|));
        log := log + [Released(d, wallet, payout)];
        var r := rows[d];
        if r.generation == generation && k < |r.allocations| {
          var claimed := r.allocations[k].(txSignature := signature, claimingUntil := None);
          rows := rows[d := r.(allocations := r.allocations[k := claimed])];
        }
      }
      SetPc(me, Claiming(generation, k, wallet, payout, Unlocking(until)));
      Record(before, DoReleasePayout(me));
    }

    /** The `finally`: `updateMany where claimingUntil = our lock`. */
    method ReleaseOurLock(me: nat, d: nat, generation: nat, k: nat, wallet: string, payout: nat, until: int)
      requires Valid() && At(me, d, Claiming(generation, k, wallet, payout, Unlocking(until)))
      modifies this
      ensures Did(DoReleaseLock(me), me, Finished) && log == old(log)
      ensures var r := old(rows)[d];
        rows == if r.generation == generation && k < |r.allocations| && r.allocations[k].claimingUntil == Some(until)
                then old(rows)[d := WithAlloc(r, k, r.allocations[k].(claimingUntil := None))] else old(rows)
    {
      ghost var before := Now();
      var r := rows[d];
      if r.generation == generation && k < |r.allocations| && r.allocations[k].claimingUntil == Some(until) {
        rows := rows[d := r.(allocations := r.allocations[k := r.allocations[k].(claimingUntil := None)])];
      }
      SetPc(me, Finished);
      Record(before, DoReleaseLock(me));
    }

    /** A claim past its lock has ended so. */
    twostate predicate ClaimEnds(new out: ClaimOutcome, new me: nat, new d: nat, new generation: nat, new k: nat,
                                 new wallet: string, new payout: nat, new began: nat, new seen: State)
      reads this, chain
    {
      && |old(trace)| <= |trace| && Passed(sha, start, trace, |old(trace)|, seen)
      && ClaimBecause(seen, me, d, generation, k, wallet, payout, began, faults > old(faults), out)
    }

    /** The `try` and the `finally` around the release. */
    method ReleaseUnderLock(me: nat, d: nat, generation: nat, k: nat, wallet: string, payout: nat, until: int,
                            ghost began: nat)
      returns (out: ClaimOutcome, ghost seen: State)
      requires Valid() && At(me, d, Claiming(generation, k, wallet, payout, Locked(until, false)))
      modifies this, chain
      ensures Valid() && old(trace) <= trace && faults >= old(faults) && !out.AlreadyClaimed?
      ensures out.Claimed? ==> Shows(log, out.signature, Released(d, wallet, payout))
      ensures ClaimEnds(out, me, d, generation, k, wallet, payout, began, seen)
    {
      hide Run, Step, Valid, Passed, ClaimBecause;
      out, seen := TryRelease(me, d, generation, k, wallet, payout, until, began);
      if out == ClaimKilled { return; }
      ghost var before, threw := trace, faults;
      var stop, now := Unlock(me, d, generation, k, wallet, payout, until, began);
      ClaimStays(out, seen, me, d, generation, k, wallet, payout, began, threw > old(faults), faults > old(faults));
      PassedEarlier(sha, start, before, trace, |old(trace)|, |old(trace)|, seen);
      if stop.Some? {
        PassedEarlier(sha, start, trace, trace, |before|, |old(trace)|, now);
        ClaimStays(stop.value, now, me, d, generation, k, wallet, payout, began, faults > threw, faults > old(faults));
        return stop.value, now;
      }
    }

    lemma ClaimStays(out: ClaimOutcome, seen: State, me: nat, d: nat, generation: nat, k: nat, wallet: string,
                     payout: nat, began: nat, threw: bool, threw': bool)
      requires ClaimBecause(seen, me, d, generation, k, wallet, payout, began, threw, out) && (threw ==> threw')
      ensures ClaimBecause(seen, me, d, generation, k, wallet, payout, began, threw', out)
    {
    }

    /** The `finally`, unless its own call throws or the process dies on the way. */
    method Unlock(me: nat, d: nat, generation: nat, k: nat, wallet: string, payout: nat, until: int, ghost began: nat)
      returns (stop: Option<ClaimOutcome>, ghost seen: State)
      requires Valid() && At(me, d, Claiming(generation, k, wallet, payout, Unlocking(until)))
      modifies this, chain
      ensures Valid() && old(trace) <= trace && old(log) <= log && faults >= old(faults)
      ensures match stop
        case None => true
        case Some(out) =>
          out in {ClaimKilled, ClaimError} && ClaimEnds(out, me, d, generation, k, wallet, payout, began, seen)
    {
      hide Run, Step, Valid, Passed;
      var unlocking := Claiming(generation, k, wallet, payout, Unlocking(until));
      var reply := Pause(me, d, unlocking);
      Here(|old(trace)|);
      seen, stop := Now(), None;
      if reply == Gone { return Some(ClaimKilled), seen; }
      ghost var before := trace;
      if reply == Threw {
        Abandon(me, d, unlocking);
        stop := Some(ClaimError);
      } else {
        ReleaseOurLock(me, d, generation, k, wallet, payout, until);
      }
      PassedEarlier(sha, start, before, trace, |old(trace)|, |old(trace)|, seen);
    }

    /** The `try`: the escrow's balance, the release and its record. */
    method TryRelease(me: nat, d: nat, generation: nat, k: nat, wallet: string, payout: nat, until: int,
                      ghost began: nat)
      returns (out: ClaimOutcome, ghost seen: State)
      requires Valid() && At(me, d, Claiming(generation, k, wallet, payout, Locked(until, false)))
      modifies this, chain
      ensures Valid() && old(trace) <= trace && faults >= old(faults) && !out.AlreadyClaimed?
      ensures out == ClaimKilled
        || (At(me, d, Claiming(generation, k, wallet, payout, Unlocking(until))))
      ensures out.Claimed? ==> Shows(log, out.signature, Released(d, wallet, payout))
      ensures ClaimEnds(out, me, d, generation, k, wallet, payout, began, seen)
    {
      hide Run, Step, Valid, Passed;
      var reply := Pause(me, d, Claiming(generation, k, wallet, payout, Locked(until, false)));
      Here(|old(trace)|);
      if reply != Answered { return if reply == Gone then ClaimKilled else ClaimError, Now(); }
      seen := Now();
      ghost var before := trace;
      var enough := CheckEscrow(me, d, generation, k, wallet, payout, until);
      PassedEarlier(sha, start, before, trace, |old(trace)|, |old(trace)|, seen);
      if !enough { return EscrowInsufficient, seen; }
      before := trace;
      out, seen := ReleaseChecked(me, d, generation, k, wallet, payout, until, began);
      PassedEarlier(sha, start, trace, trace, |before|, |old(trace)|, seen);
    }

    /** The release, once the escrow's balance has been compared. */
    method ReleaseChecked(me: nat, d: nat, generation: nat, k: nat, wallet: string, payout: nat, until: int,
                          ghost began: nat)
      returns (out: ClaimOutcome, ghost seen: State)
      requires Valid() && At(me, d, Claiming(generation, k, wallet, payout, Locked(until, true)))
      modifies this, chain
      ensures Valid() && old(trace) <= trace && faults >= old(faults) && !out.AlreadyClaimed?
      ensures out == ClaimKilled
        || (At(me, d, Claiming(generation, k, wallet, payout, Unlocking(until))))
      ensures out.Claimed? ==> Shows(log, out.signature, Released(d, wallet, payout))
      ensures ClaimEnds(out, me, d, generation, k, wallet, payout, began, seen)
    {
      hide Run, Step, Valid, Passed;
      var reply := Pause(me, d, Claiming(generation, k, wallet, payout, Locked(until, true)));
      Here(|old(trace)|);
      if reply != Answered { return if reply == Gone then ClaimKilled else ClaimError, Now(); }
      seen := Now();
      ghost var before := trace;
      var signature := ReleaseOnce(me, d, generation, k, wallet, payout, until);
      PassedEarlier(sha, start, before, trace, |old(trace)|, |old(trace)|, seen);
      out := if signature.Some? then Claimed(signature.value) else ClaimFailed;
    }

    /** `claimDistribution`, for a wallet whose ownership has been checked. Every answer has its reason:
        `seen` is the server when it was decided, and a claim past its checks is for the wallet's first
        payable allocation of the row as it was first read. */
    method ClaimDistribution(d: nat, wallet: string, proof: Option<seq<string>>)
      returns (out: ClaimOutcome, ghost seen: State)
      requires Valid()
      modifies this, chain
      ensures Valid() && old(trace) <= trace && Passed(sha, start, trace, |old(trace)|, seen)
      ensures ClaimStops(sha, old(Now()), d, wallet, proof, out)
        || exists k: nat ::
             && d < |old(rows)| && MayClaim(old(rows)[d], wallet, proof, k)
             && var r, payout := old(rows)[d], old(rows)[d].allocations[k].payout;
                && ClaimBecause(seen, |old(procs)|, d, r.generation, k, wallet, payout, old(clock),
                                faults > old(faults), out)
                && (out.Claimed? ==> Shows(log, out.signature, Released(d, wallet, payout)))
    {
      hide Run, Step, Valid, Passed, Intact, FirstPayable, ClaimStops, ClaimTree.Verifies, ClaimBecause;
      Here(|old(trace)|);
      var stop, me, generation, k, payout := StartClaim(d, wallet, proof);
      if stop.Some? { return stop.value, old(Now()); }
      ghost var before := trace;
      out, seen := ClaimFound(me, d, generation, k, wallet, payout);
      PassedEarlier(sha, start, trace, trace, |before|, |old(trace)|, seen);
    }

    /** From the lock on the allocation to the `finally`. */
    method ClaimFound(me: nat, d: nat, generation: nat, k: nat, wallet: string, payout: nat)
      returns (out: ClaimOutcome, ghost seen: State)
      requires Valid() && At(me, d, Claiming(generation, k, wallet, payout, Found)) && procs[me].born == clock
      modifies this, chain
      ensures Valid() && old(trace) <= trace && faults >= old(faults)
      ensures ClaimEnds(out, me, d, generation, k, wallet, payout, old(clock), seen)
      ensures out.Claimed? ==> Shows(log, out.signature, Released(d, wallet, payout))
    {
      hide Run, Step, Valid, Passed;
      var now := clock;
      var reply := Pause(me, d, Claiming(generation, k, wallet, payout, Found));
      Here(|old(trace)|);
      if reply != Answered { return if reply == Gone then ClaimKilled else ClaimError, Now(); }
      var count := TakeLock(me, d, generation, k, wallet, payout, now);
      Here(|old(trace)|);
      if count == 0 {
        seen := Now();
        var r := rows[d];
        if r.generation != generation || k >= |r.allocations| || r.allocations[k].wallet != wallet {
          return ClaimError, seen;
        }
        var signed := r.allocations[k].txSignature;
        return if signed.Some? then AlreadyClaimed(signed.value) else ClaimInProgress, seen;
      }
      ghost var before, threw := trace, faults;
      out, seen := ReleaseUnderLock(me, d, generation, k, wallet, payout, now + CLAIM_LOCK_MS, now);
      PassedEarlier(sha, start, trace, trace, |before|, |old(trace)|, seen);
      ClaimStays(out, seen, me, d, generation, k, wallet, payout, now, faults > threw, faults > old(faults));
    }
  }

  /** The signature names that entry of the log. */
  ghost predicate Shows(log: seq<Transfer>, signature: Signature, t: Transfer) {
    signature.Tx? && signature.n < |log| && log[signature.n] == t
  }

  /** So whatever the handlers do, in any order and however interleaved, every guarantee of
      `LifecycleTheorems` holds of the server, under the guards that it needs. */
  lemma ServerIsSafe(server: Server)
    requires server.Valid() && Init(server.start)
    ensures Inv(Everywhere(UNGUARDED), server.sha, server.Now())
    ensures forall d, p, q :: Executes(server.Now(), p, d) && Executes(server.Now(), q, d) ==> p == q
    ensures forall d, w :: |Sent(server.log, d, w, Direct)| <= 1
    ensures forall d :: FundingCount(server.log, d) <= 1
    ensures forall d, w :: GuardedAt(COMMIT_GUARD, server.sha, server.start, server.trace, d) ==>
      |Sent(server.log, d, w, Escrow)| <= 1
    ensures forall d, w :: GuardedAt(BOTH_GUARDS, server.sha, server.start, server.trace, d) ==>
      |Payments(server.log, d, w)| <= 1
    ensures forall d, w :: NotFunded(server.Now(), d) ==> |Payments(server.log, d, w)| <= 1
    ensures Guarded(Everywhere(COMMIT_GUARD), server.sha, server.start, server.trace) ==>
      0 <= Liability(server.rows) <= Balance(server.chain.usdc, ESCROW)
  {
    hide Run, Inv, Payments, Sent, Guarded, Executes, Liability, NotFunded, FundingCount;
    var sha, start, trace := server.sha, server.start, server.trace;
    EveryRunKeeps(sha, start, trace);
    forall d, p, q | Executes(server.Now(), p, d) && Executes(server.Now(), q, d) ensures p == q {
      MutualExclusion(sha, start, trace, d, p, q);
    }
    forall d: nat, w: string ensures |Sent(server.log, d, w, Direct)| <= 1 { IssuerPaysOnce(sha, start, trace, d, w); }
    forall d: nat ensures FundingCount(server.log, d) <= 1 { FundedAtMostOnce(sha, start, trace, d); }
    forall d: nat, w: string | GuardedAt(COMMIT_GUARD, sha, start, trace, d)
      ensures |Sent(server.log, d, w, Escrow)| <= 1
    {
      EscrowPaysOnce(sha, start, trace, d, w);
    }
    forall d: nat, w: string | NotFunded(server.Now(), d) || GuardedAt(BOTH_GUARDS, sha, start, trace, d)
      ensures |Payments(server.log, d, w)| <= 1
    {
      PaidAtMostOnce(sha, start, trace, d, w);
    }
    if Guarded(Everywhere(COMMIT_GUARD), sha, start, trace) { EscrowSolvent(sha, start, trace); }
  }
}
