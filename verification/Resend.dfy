/** Resend-safe transaction sending (apps/web/lib/chain/devnet/env.ts, `sendTx`, `sendSignedTx` and
    `pollUntilFinal`) against a cluster that goes its own way between any two requests. */
module Resend {
  import opened Wrappers

  const POLL_BUDGET_MS: nat := 240_000

  // ------------------------------------------------------------------ the cluster

  /** `ok`: the transaction executed without a program error. */
  datatype Landing = Landing(ok: bool, confirmed: bool)

  /** A signed transaction: the last height its blockhash is valid at, whether any node may have
      passed it on, and how it landed, if it did. */
  datatype Signed = Signed(lastValid: nat, forwarded: bool, landed: Option<Landing>)

  datatype Net = Net(height: nat, txs: seq<Signed>)

  /** What can become of a transaction while the cluster moves on from `height`. */
  predicate Continues(a: Signed, b: Signed, height: nat) {
    && b.lastValid == a.lastValid && b.forwarded == a.forwarded
    && (a.landed.Some? ==>
          && b.landed.Some? && b.landed.value.ok == a.landed.value.ok
          && (a.landed.value.confirmed ==> b.landed.value.confirmed))
    && (a.landed.None? && b.landed.Some? ==> a.forwarded && height <= a.lastValid)
  }

  /** The cluster moves on by itself. */
  predicate Progress(n: Net, n': Net) {
    && n'.height >= n.height && |n'.txs| == |n.txs|
    && forall i :: 0 <= i < |n.txs| ==> Continues(n.txs[i], n'.txs[i], n.height)
  }

  /** Whatever has become of it so far, it cannot land any more. */
  predicate Closed(n: Net, i: nat) {
    i < |n.txs| && (!n.txs[i].forwarded || n.height > n.txs[i].lastValid)
  }

  /** It has not landed and never can. */
  predicate Dead(n: Net, i: nat) {
    Closed(n, i) && n.txs[i].landed.None?
  }

  predicate Landed(n: Net, i: nat, ok: bool) {
    i < |n.txs| && n.txs[i].landed.Some? && n.txs[i].landed.value.ok == ok
  }

  /** At most one of the transactions from `first` on has landed or still can. */
  ghost predicate AtMostOneLives(n: Net, first: nat) {
    forall i, j :: first <= i < j < |n.txs| ==> Dead(n, i) || Dead(n, j)
  }

  ghost predicate AllDead(n: Net, first: nat, end: nat) {
    forall i :: first <= i < end ==> Dead(n, i)
  }

  ghost predicate AllClosed(n: Net, first: nat, end: nat) {
    forall i :: first <= i < end ==> Closed(n, i)
  }

  predicate Unlanded(n: Net, i: nat) {
    i < |n.txs| && n.txs[i].landed.None?
  }

  ghost predicate NoneLanded(n: Net, first: nat, end: nat) {
    forall i :: first <= i < end ==> Unlanded(n, i)
  }

  /** No earlier one of two has landed while the later one still lives. */
  ghost predicate NoneLandedBeforeLive(n: Net, first: nat) {
    forall i, j :: first <= i < j < |n.txs| ==> Unlanded(n, i) || Dead(n, j)
  }

  /** What is dead stays dead, and what has landed stays landed, however the cluster moves on. */
  lemma FateIsFinal(n: Net, n': Net, i: nat, ok: bool)
    requires Progress(n, n')
    ensures Dead(n, i) ==> Dead(n', i)
    ensures Closed(n, i) ==> Closed(n', i)
    ensures Landed(n, i, ok) ==> Landed(n', i, ok)
  {
    if i < |n.txs| { assert Continues(n.txs[i], n'.txs[i], n.height); }
  }

  /** So a guarantee about the transactions of one call holds from its return on. */
  lemma GuaranteeLasts(n: Net, n': Net, first: nat)
    requires Progress(n, n') && AtMostOneLives(n, first)
    ensures AtMostOneLives(n', first)
    ensures forall i, j :: first <= i < j < |n'.txs| ==> n'.txs[i].landed.None? || n'.txs[j].landed.None?
  {
    forall i, j | first <= i < j < |n'.txs|
      ensures (Dead(n', i) || Dead(n', j)) && (n'.txs[i].landed.None? || n'.txs[j].landed.None?)
    {
      assert Dead(n, i) || Dead(n, j);
      FateIsFinal(n, n', i, true);
      FateIsFinal(n, n', j, true);
    }
  }

  // ------------------------------------------------------------------ requests

  /** A transaction is signed under a blockhash good up to `lastValid`. */
  predicate Signs(n: Net, n': Net, lastValid: nat) {
    n' == n.(txs := n.txs + [Signed(lastValid, false, None)])
  }

  /** A node has it and passes it on. */
  predicate Delivers(n: Net, n': Net, tx: nat) {
    tx < |n.txs| && n' == n.(txs := n.txs[tx := n.txs[tx].(forwarded := true)])
  }

  /** A status read tells the truth, or fails and is taken for null. */
  predicate LookReturns(n: Net, tx: nat, st: Option<Landing>, answered: bool) {
    tx < |n.txs| && st == if answered then n.txs[tx].landed else None
  }

  // ------------------------------------------------------------------ sending

  /** `NotLanded` and `LandedFailed` are a `TxError` with `landed` false and true. */
  datatype SendOutcome = Sent(tx: nat) | NotLanded | LandedFailed(tx: nat) | OtherError

  datatype AttemptOutcome = Succeeded | ProgramError | Rejected | BlockhashExpired | Unknown | NoBlockhash

  datatype PollOutcome = Confirmed | Failed | Expired | DeadlinePassed

  datatype Delivery = Delivered | PreflightRejected | NetworkError

  // ------------------------------------------------------------------ what a call went through

  /** What the caller has been told or has found out so far, in order. */
  datatype Happened =
    | NoBlockhashHad
    | SentOut(tx: nat)
    | Refused(tx: nat)
    | Looked(tx: nat, st: Option<Landing>)
    | RanOut(tx: nat)
    | GaveUp(tx: nat)

  /** A status that ends the polling. */
  predicate Final(st: Option<Landing>) {
    st.Some? && (!st.value.ok || st.value.confirmed)
  }

  /** No look among them was final. */
  predicate Undecided(hs: seq<Happened>) {
    forall i :: 0 <= i < |hs| && hs[i].Looked? ==> !Final(hs[i].st)
  }

  predicate AllUnknown(hs: seq<Happened>) {
    forall i :: 0 <= i < |hs| && hs[i].Looked? ==> hs[i].st.None?
  }

  function Looks(hs: seq<Happened>): nat {
    if hs == [] then 0 else Looks(hs[..|hs| - 1]) + if hs[|hs| - 1].Looked? then 1 else 0
  }

  function Sends(hs: seq<Happened>): nat {
    if hs == [] then 0 else Sends(hs[..|hs| - 1]) + if hs[|hs| - 1].SentOut? then 1 else 0
  }

  lemma OneMore(hs: seq<Happened>, h: Happened)
    ensures Looks(hs + [h]) == Looks(hs) + if h.Looked? then 1 else 0
    ensures Sends(hs + [h]) == Sends(hs) + if h.SentOut? then 1 else 0
    ensures Undecided(hs + [h]) <==> Undecided(hs) && (h.Looked? ==> !Final(h.st))
    ensures AllUnknown(hs + [h]) <==> AllUnknown(hs) && (h.Looked? ==> h.st.None?)
  {
    var more := hs + [h];
    assert more[..|hs|] == hs && more[|hs|] == h;
    assert forall i :: 0 <= i < |hs| ==> more[i] == hs[i];
  }

  /** A turn that goes on: a look that was not final and, when it found nothing, every fourth time
      another broadcast. */
  ghost predicate Turned(more: seq<Happened>, tx: nat, i: nat) {
    && more != [] && more[0].Looked? && !Final(more[0].st)
    && more[1..] == if more[0].st.None? && i % 4 == 0 then [SentOut(tx)] else []
  }

  /** What a turn adds to what the call has gone through. */
  lemma TurnEnds(before: seq<Happened>, hs: seq<Happened>, more: seq<Happened>, tx: nat, i: nat)
    requires Undecided(hs) && more != [] && i > 0
    ensures var h := before + hs + more;
      Undecided(more[..|more| - 1]) ==> Undecided(h[|before|..|h| - 1])
    ensures Turned(more, tx, i) && Looks(hs) == i - 1 && (AllUnknown(hs) ==> Sends(hs) == (i - 1) / 4) ==>
      Undecided(hs + more) && Looks(hs + more) == i && (AllUnknown(hs + more) ==> Sends(hs + more) == i / 4)
  {
    var h := before + hs + more;
    assert h[|before|..|h| - 1] == hs + more[..|more| - 1];
    OneMore(hs, more[0]);
    if |more| == 1 {
      assert more == [more[0]];
    } else if |more| == 2 {
      assert hs + more == hs + [more[0]] + [more[1]] && more[1..] == [more[1]];
      OneMore(hs + [more[0]], more[1]);
    }
  }

  lemma NothingYet()
    ensures Looks([]) == 0 && Sends([]) == 0 && Undecided([]) && AllUnknown([])
  {
  }

  lemma CallSoFar(before: seq<Happened>, hs: seq<Happened>, last: Happened)
    ensures (before + hs + [last])[|before|..] == hs + [last]
    ensures (before + hs + [last])[|before|..|before| + |hs|] == hs
  {
  }

  /** The last thing that happened. */
  predicate Ended(hs: seq<Happened>, h: Happened) {
    hs != [] && hs[|hs| - 1] == h
  }

  /** It ended with a final look at `tx`, or, its blockhash having run out, with a last one that
      found it landed. */
  predicate EndedWithLook(hs: seq<Happened>, n: Net, tx: nat, ok: bool) {
    && tx < |n.txs| && hs != [] && hs[|hs| - 1].Looked? && hs[|hs| - 1].tx == tx
    && hs[|hs| - 1].st.Some? && hs[|hs| - 1].st.value.ok == ok
    && (Final(hs[|hs| - 1].st) || n.height > n.txs[tx].lastValid)
  }

  class Connection {
    var net: Net
    var now: nat
    /** Whether a last look at an expired signature went unanswered and was taken for "unknown". */
    ghost var swallowed: bool
    /** Everything that has happened on this connection. */
    ghost var history: seq<Happened>

    /** What has happened during this call. */
    twostate function Since(): seq<Happened>
      reads this
    {
      if |old(history)| <= |history| then history[|old(history)|..] else []
    }

    /** The cluster and the clock move on. */
    method Wait(ms: nat)
      modifies this`net, this`now
      ensures Progress(old(net), net) && now >= old(now) + ms
    {
      var next: Net, extra: nat := *, *;
      now := now + ms + extra;
      if Progress(net, next) {
        net := next;
      } else {
        assert Progress(net, net);
      }
    }

    /** `getLatestBlockhash` and signing under it; None when every retry failed. */
    method SignFresh() returns (tx: Option<nat>)
      modifies this`net, this`now, this`history
      ensures now >= old(now) && history == old(history) + if tx.None? then [NoBlockhashHad] else []
      ensures tx.None? ==> Progress(old(net), net)
      ensures tx.Some? ==> tx.value == |old(net).txs| && |net.txs| == tx.value + 1 && Dead(net, tx.value)
      ensures tx.Some? ==> var mid := net.(txs := net.txs[..tx.value]);
        Progress(old(net), mid) && Signs(mid, net, net.txs[tx.value].lastValid)
    {
      Wait(0);
      var answered: bool, lastValid: nat := *, *;
      if !answered {
        history := history + [NoBlockhashHad];
        return None;
      }
      tx := Some(|net.txs|);
      net := net.(txs := net.txs + [Signed(lastValid, false, None)]);
      assert net.txs == net.txs[..tx.value] + [net.txs[tx.value]];
    }

    /** `sendRawTransaction`: a preflight rejection is never passed on, a network error may have been. */
    method SendRaw(tx: nat, skipPreflight: bool) returns (d: Delivery)
      requires tx < |net.txs|
      modifies this`net, this`now, this`history
      ensures now >= old(now) && Touches(old(net), net, tx)
      ensures history == old(history) + if d == PreflightRejected then [Refused(tx)] else [SentOut(tx)]
      ensures skipPreflight ==> d != PreflightRejected
      ensures exists mid :: Progress(old(net), mid) && (net == mid || Delivers(mid, net, tx))
      ensures d == PreflightRejected ==> net.txs[tx].forwarded == old(net).txs[tx].forwarded && Progress(old(net), net)
    {
      Wait(0);
      ghost var mid := net;
      var delivery: Delivery, passedOn: bool := *, *;
      d := if skipPreflight && delivery == PreflightRejected then NetworkError else delivery;
      history := history + if d == PreflightRejected then [Refused(tx)] else [SentOut(tx)];
      if d == Delivered || (d == NetworkError && passedOn) {
        net := net.(txs := net.txs[tx := net.txs[tx].(forwarded := true)]);
      }
      assert Progress(old(net), mid) && (net == mid || Delivers(mid, net, tx));
    }

    /** Truthful; None when the signature is unknown to the cluster. */
    method SignatureStatus(tx: nat) returns (st: Option<Landing>)
      requires tx < |net.txs|
      modifies this`net, this`now
      ensures Progress(old(net), net) && now >= old(now) && st == net.txs[tx].landed
    {
      Wait(0);
      st := net.txs[tx].landed;
    }

    /** A status read whose failure is taken for null. */
    method StatusOrNull(tx: nat) returns (st: Option<Landing>, answered: bool)
      requires tx < |net.txs|
      modifies this`net, this`now, this`history
      ensures Progress(old(net), net) && now >= old(now) && history == old(history) + [Looked(tx, st)]
      ensures LookReturns(net, tx, st, answered)
    {
      st := SignatureStatus(tx);
      answered := *;
      if !answered { st := None; }
      history := history + [Looked(tx, st)];
    }

    /** A height read whose failure is taken for 0. */
    method HeightOrZero() returns (h: nat)
      modifies this`net, this`now
      ensures Progress(old(net), net) && now >= old(now) && h <= net.height
    {
      Wait(0);
      var answered: bool := *;
      h := if answered then net.height else 0;
    }

    /** `pollUntilFinal`: it ends with the first final look, with an expired blockhash, or when its
        time has run out; of the looks that find nothing, every fourth is followed by another broadcast. */
    method PollUntilFinal(tx: nat, lastValid: nat) returns (out: PollOutcome)
      requires tx < |net.txs| && net.txs[tx].lastValid == lastValid
      modifies this
      ensures Touches(old(net), net, tx) && old(history) < history && now >= old(now)
      ensures old(swallowed) ==> swallowed
      ensures out == Confirmed ==> Landed(net, tx, true) && EndedWithLook(history, net, tx, true)
      ensures out == Failed ==> Landed(net, tx, false) && EndedWithLook(history, net, tx, false)
      ensures out == Expired ==> Closed(net, tx) && (!swallowed ==> Dead(net, tx))
      ensures out == Expired ==> Ended(history, RanOut(tx)) && net.height > lastValid
      ensures out == DeadlinePassed ==> Ended(history, GaveUp(tx)) && now > old(now) + POLL_BUDGET_MS
      ensures out == DeadlinePassed && AllUnknown(Since()) ==> Sends(Since()) == Looks(Since()) / 4
      ensures Undecided(history[|old(history)|..|history| - 1])
    {
      hide Touches, Continues, Looks, Sends, Undecided, AllUnknown, Progress, EndedWithLook, Landed, Closed, Dead;
      ghost var n0, hs: seq<Happened> := net, [];
      NothingYet();
      TouchesNothing(net, tx);
      var i := 0;
      var deadline := now + POLL_BUDGET_MS;
      while true
        invariant tx < |net.txs| && net.txs[tx].lastValid == lastValid
        invariant Touches(old(net), net, tx) && swallowed == old(swallowed)
        invariant history == old(history) + hs && Undecided(hs)
        invariant now >= old(now) && Looks(hs) == i && (AllUnknown(hs) ==> Sends(hs) == i / 4)
        decreases deadline + 3_001 - now
      {
        if now > deadline {
          OneMore(hs, GaveUp(tx));
          CallSoFar(old(history), hs, GaveUp(tx));
          history := history + [GaveUp(tx)];
          return DeadlinePassed;
        }
        ghost var n1 := net;
        i := i + 1;
        var final, more := PollOnce(tx, lastValid, i);
        TouchesThen(n0, n1, net, tx);
        TurnEnds(old(history), hs, more, tx, i);
        hs := hs + more;
        if final.Some? { return final.value; }
      }
    }

    /** One turn of the polling; `more` is what happened in it. */
    method PollOnce(tx: nat, lastValid: nat, i: nat) returns (out: Option<PollOutcome>, ghost more: seq<Happened>)
      requires tx < |net.txs| && net.txs[tx].lastValid == lastValid
      modifies this
      ensures Touches(old(net), net, tx) && (old(swallowed) ==> swallowed) && now >= old(now) + 1_500
      ensures history == old(history) + more && more != []
      ensures match out
        case None => swallowed == old(swallowed) && Turned(more, tx, i)
        case Some(Confirmed) => Landed(net, tx, true) && EndedWithLook(history, net, tx, true)
        case Some(Failed) => Landed(net, tx, false) && EndedWithLook(history, net, tx, false)
        case Some(Expired) =>
          && Closed(net, tx) && (!swallowed ==> Dead(net, tx))
          && Ended(history, RanOut(tx)) && net.height > lastValid
        case Some(DeadlinePassed) => false
      ensures out.Some? ==> Undecided(more[..|more| - 1])
    {
      hide Touches, Continues;
      ghost var n0 := net;
      Wait(if i <= 5 then 1_500 else 3_000);
      TouchesNothing(n0, tx);
      TouchesThen(n0, n0, net, tx);
      ghost var n1 := net;
      var st, answered := StatusOrNull(tx);
      more := [Looked(tx, st)];
      TouchesThen(n0, n1, net, tx);
      if st.Some? {
        if !st.value.ok { return Some(Failed), more; }
        if st.value.confirmed { return Some(Confirmed), more; }
        return None, more;
      }
      n1 := net;
      var height := HeightOrZero();
      TouchesThen(n0, n1, net, tx);
      n1 := net;
      if height > lastValid {
        var last := LastLook(tx, lastValid);
        TouchesThen(n0, n1, net, tx);
        more := more + if last == Expired then [Looked(tx, None), RanOut(tx)] else [history[|history| - 1]];
        return Some(last), more;
      }
      if i % 4 == 0 {
        var d := SendRaw(tx, true);
        more := more + [SentOut(tx)];
        TouchesThen(n0, n1, net, tx);
      }
      out := None;
    }

    /** One last look, once the blockhash has expired. */
    method LastLook(tx: nat, lastValid: nat) returns (out: PollOutcome)
      requires tx < |net.txs| && net.txs[tx].lastValid == lastValid < net.height
      modifies this
      ensures Progress(old(net), net) && (old(swallowed) ==> swallowed) && now >= old(now)
      ensures out in {Confirmed, Failed, Expired}
      ensures out == Confirmed ==> Landed(net, tx, true) && EndedWithLook(history, net, tx, true)
      ensures out == Failed ==> Landed(net, tx, false) && EndedWithLook(history, net, tx, false)
      ensures out == Expired ==> Closed(net, tx) && (!swallowed ==> Dead(net, tx))
      ensures history == old(history)
        + if out == Expired then [Looked(tx, None), RanOut(tx)] else [history[|history| - 1]]
    {
      Wait(2_000);
      var last, answered := StatusOrNull(tx);
      if last.Some? {
        return if last.value.ok then Confirmed else Failed;
      }
      swallowed := swallowed || !answered;
      history := history + [RanOut(tx)];
      out := Expired;
    }

    /** One attempt: sign under one blockhash, send, poll until its fate is certain. */
    method Attempt(ghost first: nat) returns (out: AttemptOutcome)
      requires first <= |net.txs| && AllClosed(net, first, |net.txs|)
      requires !swallowed ==> AllDead(net, first, |net.txs|)
      modifies this
      ensures old(swallowed) ==> swallowed
      ensures |net.txs| == |old(net).txs| + if out == NoBlockhash then 0 else 1
      ensures AllClosed(net, first, |old(net).txs|) && (!swallowed ==> AllDead(net, first, |old(net).txs|))
      ensures out == Succeeded ==> Landed(net, |net.txs| - 1, true)
      ensures out == ProgramError ==> Landed(net, |net.txs| - 1, false)
      ensures out in {Rejected, BlockhashExpired} ==>
        AllClosed(net, first, |net.txs|) && (!swallowed ==> AllDead(net, first, |net.txs|))
      ensures old(history) < history && now >= old(now)
      ensures match out
        case Succeeded => EndedWithLook(history, net, |net.txs| - 1, true)
        case ProgramError => EndedWithLook(history, net, |net.txs| - 1, false)
        case Rejected => Ended(history, Refused(|net.txs| - 1))
        case BlockhashExpired => Ended(history, RanOut(|net.txs| - 1))
        case Unknown => Ended(history, GaveUp(|net.txs| - 1)) && now > old(now) + POLL_BUDGET_MS
        case NoBlockhash => Ended(history, NoBlockhashHad)
    {
      hide Continues, Signs, Delivers;
      ghost var n0, end := net, |net.txs|;
      var signed := SignFresh();
      if signed.None? {
        DeadStay(n0, net, first, end);
        return NoBlockhash;
      }
      DeadStay(n0, net.(txs := net.txs[..end]), first, end);
      var tx := signed.value;
      ghost var n1 := net;
      SameDead(net, first, end);
      var d := SendRaw(tx, false);
      OthersStayDead(n1, net, tx, first);
      if d == PreflightRejected {
        FateIsFinal(n1, net, tx, true);
        return Rejected;
      }
      ghost var n2 := net;
      var outcome := PollUntilFinal(tx, net.txs[tx].lastValid);
      OthersStayDead(n2, net, tx, first);
      match outcome {
        case Confirmed => out := Succeeded;
        case Failed => out := ProgramError;
        case Expired => out := BlockhashExpired;
        case DeadlinePassed => out := Unknown;
      }
    }

    /** `sendTx`: at most three signed transactions, one after the other. */
    method SendTx(retryOnExpiry: bool) returns (out: SendOutcome)
      modifies this
      ensures old(swallowed) ==> swallowed
      ensures |old(net).txs| <= |net.txs| <= |old(net).txs| + if retryOnExpiry then 3 else 1
      ensures !swallowed ==> AtMostOneLives(net, |old(net).txs|)
      ensures match out
        case Sent(tx) =>
          |old(net).txs| <= tx == |net.txs| - 1 && Landed(net, tx, true) && EndedWithLook(history, net, tx, true)
        case LandedFailed(tx) =>
          |old(net).txs| <= tx == |net.txs| - 1 && Landed(net, tx, false) && EndedWithLook(history, net, tx, false)
        case NotLanded =>
          && (!swallowed ==> AllDead(net, |old(net).txs|, |net.txs|))
          && |net.txs| > |old(net).txs|
          && (|| Ended(history, Refused(|net.txs| - 1))
              || (|net.txs| == |old(net).txs| + (if retryOnExpiry then 3 else 1)
                  && Ended(history, RanOut(|net.txs| - 1))))
        case OtherError =>
          || Ended(history, NoBlockhashHad)
          || (|net.txs| > 0 && Ended(history, GaveUp(|net.txs| - 1)) && now > old(now) + POLL_BUDGET_MS)
      ensures forall i :: |old(net).txs| <= i < |net.txs| - 1 ==> RanOut(i) in Since()
      ensures AtMostOneLives(net, |old(net).txs|) <==> NoneLandedBeforeLive(net, |old(net).txs|)
      ensures out == NotLanded ==>
        (AllDead(net, |old(net).txs|, |net.txs|) <==> NoneLanded(net, |old(net).txs|, |net.txs|))
    {
      hide Continues, Progress, EndedWithLook, Final, Closed, Dead, Landed, Unlanded;
      ghost var first := |net.txs|;
      var maxAttempts := if retryOnExpiry then 3 else 1;
      var attempt := 0;
      while attempt < maxAttempts
        invariant 0 <= attempt <= maxAttempts && first + attempt == |net.txs|
        invariant old(swallowed) ==> swallowed
        invariant AllClosed(net, first, |net.txs|) && (!swallowed ==> AllDead(net, first, |net.txs|))
        invariant old(history) <= history && old(now) <= now
        invariant forall i :: first <= i < |net.txs| ==> RanOut(i) in Since()
        invariant attempt > 0 ==> Ended(history, RanOut(|net.txs| - 1))
      {
        ghost var end, before := |net.txs|, history;
        var result := Attempt(first);
        assert before[|old(history)|..] <= Since();
        LivesIff(net, first, end);
        if result in {Rejected, BlockhashExpired} { DeadIffNotLanded(net, first, |net.txs|); }
        match result {
          case Succeeded => return Sent(|net.txs| - 1);
          case ProgramError => return LandedFailed(|net.txs| - 1);
          case Rejected => return NotLanded;
          case Unknown => return OtherError;
          case NoBlockhash => return OtherError;
          case BlockhashExpired =>
        }
        attempt := attempt + 1;
      }
      LivesIff(net, first, |net.txs|);
      DeadIffNotLanded(net, first, |net.txs|);
      out := NotLanded;
    }

    /** `sendSignedTx`: the same for a transaction a wallet has signed; never signs another. "Not
        landed" is certain if nobody had passed it on before. */
    method SendSignedTx(tx: nat) returns (out: SendOutcome)
      requires tx < |net.txs|
      modifies this
      ensures Touches(old(net), net, tx) && (old(swallowed) ==> swallowed)
      ensures match out
        case Sent(i) => i == tx && Landed(net, tx, true)
        case LandedFailed(i) => i == tx && Landed(net, tx, false)
        case NotLanded =>
          && (Dead(old(net), tx) && !old(net).txs[tx].forwarded ==>
                Closed(net, tx) && (!swallowed ==> Dead(net, tx)))
          && (Ended(history, Refused(tx)) || (Ended(history, RanOut(tx)) && net.height > net.txs[tx].lastValid))
        case OtherError => Ended(history, GaveUp(tx)) && now > old(now) + POLL_BUDGET_MS
      ensures out.Sent? || out.LandedFailed? ==> EndedWithLook(history, net, tx, out.Sent?)
    {
      ghost var n0 := net;
      var d := SendRaw(tx, false);
      ghost var n1 := net;
      if d == PreflightRejected {
        FateIsFinal(n0, net, tx, true);
        return NotLanded;
      }
      var outcome := PollUntilFinal(tx, net.txs[tx].lastValid);
      TouchesThen(n0, n1, net, tx);
      match outcome {
        case Confirmed => out := Sent(tx);
        case Failed => out := LandedFailed(tx);
        case Expired => out := NotLanded;
        case DeadlinePassed => out := OtherError;
      }
    }
  }

  /** Without an answered last look two can land. From every state of the cluster there is such an
      execution of `SendTx`: the first transaction is signed, delivered and lands, its blockhash
      runs out, every look at it fails and is taken for null, so it counts as expired; the second
      is signed, delivered and lands. */
  lemma SwallowedLookSendsTwice(n: Net, lastValid: nat, nextValid: nat) returns (ns: seq<Net>)
    requires n.height <= lastValid < nextValid
    ensures var tx := |n.txs|;
      && |ns| == 8 && ns[0] == n
      && Signs(ns[0], ns[1], lastValid) && Delivers(ns[1], ns[2], tx) && Progress(ns[2], ns[3])
      && Progress(ns[3], ns[4]) && ns[4].height > lastValid && LookReturns(ns[4], tx, None, false)
      && Signs(ns[4], ns[5], nextValid) && Delivers(ns[5], ns[6], tx + 1) && Progress(ns[6], ns[7])
      && Landed(ns[7], tx, true) && Landed(ns[7], tx + 1, true) && !AtMostOneLives(ns[7], tx)
  {
    var tx, landing := |n.txs|, Landing(true, true);
    var n1 := n.(txs := n.txs + [Signed(lastValid, false, None)]);
    var n2 := n1.(txs := n1.txs[tx := Signed(lastValid, true, None)]);
    var n3 := n2.(txs := n2.txs[tx := Signed(lastValid, true, Some(landing))]);
    var n4 := n3.(height := lastValid + 1);
    var n5 := n4.(txs := n4.txs + [Signed(nextValid, false, None)]);
    var n6 := n5.(txs := n5.txs[tx + 1 := Signed(nextValid, true, None)]);
    var n7 := n6.(txs := n6.txs[tx + 1 := Signed(nextValid, true, Some(landing))]);
    ns := [n, n1, n2, n3, n4, n5, n6, n7];
    assert Landed(n7, tx, true) && Landed(n7, tx + 1, true);
    assert !Dead(n7, tx) && !Dead(n7, tx + 1);
  }

  /** The cluster moved on while one transaction was sent. */
  ghost predicate Touches(n: Net, n': Net, tx: nat) {
    && n'.height >= n.height && |n'.txs| == |n.txs| && tx < |n.txs|
    && n'.txs[tx].lastValid == n.txs[tx].lastValid
    && forall i :: 0 <= i < |n.txs| && i != tx ==> Continues(n.txs[i], n'.txs[i], n.height)
  }

  lemma TouchesNothing(n: Net, tx: nat)
    requires tx < |n.txs|
    ensures Touches(n, n, tx)
  {
  }

  lemma TouchesThen(n0: Net, n1: Net, n2: Net, tx: nat)
    requires Touches(n0, n1, tx) && (Progress(n1, n2) || Touches(n1, n2, tx))
    ensures Touches(n0, n2, tx) && tx < |n0.txs| == |n2.txs| && n2.txs[tx].lastValid == n0.txs[tx].lastValid
  {
    if Progress(n1, n2) { assert Continues(n1.txs[tx], n2.txs[tx], n1.height); }
    forall i | 0 <= i < |n0.txs| && i != tx ensures Continues(n0.txs[i], n2.txs[i], n0.height) {
      assert Continues(n0.txs[i], n1.txs[i], n0.height) && Continues(n1.txs[i], n2.txs[i], n1.height);
    }
  }

  lemma DeadIffNotLanded(n: Net, first: nat, end: nat)
    requires AllClosed(n, first, end)
    ensures AllDead(n, first, end) <==> NoneLanded(n, first, end)
  {
    forall i | first <= i < end ensures Dead(n, i) <==> Unlanded(n, i) { assert Closed(n, i); }
  }

  lemma LivesIff(n: Net, first: nat, end: nat)
    requires AllClosed(n, first, end) && |n.txs| <= end + 1
    ensures AtMostOneLives(n, first) <==> NoneLandedBeforeLive(n, first)
  {
    forall i, j | first <= i < j < |n.txs|
      ensures Dead(n, i) || Dead(n, j) <==> Unlanded(n, i) || Dead(n, j)
    {
      assert Closed(n, i);
    }
  }

  lemma DeadStay(n: Net, n': Net, first: nat, end: nat)
    requires Progress(n, n')
    ensures AllDead(n, first, end) ==> AllDead(n', first, end)
    ensures AllClosed(n, first, end) ==> AllClosed(n', first, end)
  {
    forall i | first <= i < end ensures (Dead(n, i) ==> Dead(n', i)) && (Closed(n, i) ==> Closed(n', i)) {
      FateIsFinal(n, n', i, true);
    }
  }

  /** Signing another transaction changes nothing for the ones before. */
  lemma SameDead(n: Net, first: nat, end: nat)
    requires end <= |n.txs|
    ensures AllDead(n.(txs := n.txs[..end]), first, end) <==> AllDead(n, first, end)
    ensures AllClosed(n.(txs := n.txs[..end]), first, end) <==> AllClosed(n, first, end)
  {
    var before := n.(txs := n.txs[..end]);
    forall i | first <= i < end ensures (Dead(before, i) <==> Dead(n, i)) && (Closed(before, i) <==> Closed(n, i)) {
    }
  }

  lemma OthersStayDead(n: Net, n': Net, tx: nat, first: nat)
    requires Touches(n, n', tx)
    ensures AllDead(n, first, tx) ==> AllDead(n', first, tx)
    ensures AllClosed(n, first, tx) ==> AllClosed(n', first, tx)
  {
    forall i | first <= i < tx ensures (Dead(n, i) ==> Dead(n', i)) && (Closed(n, i) ==> Closed(n', i)) {
      assert Continues(n.txs[i], n'.txs[i], n.height);
    }
  }
}
