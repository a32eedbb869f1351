/** The distribution engine (packages/core/src/distribution): merging token accounts by owner,
    floor-dividing the rights pool, and batching transfers. */
module Allocation {
  import opened Wrappers
  import opened Text
  import opened Sorting
  import opened Sums

  const BPS_DENOMINATOR: nat := 10_000

  datatype HolderKind = Participant | Pool | Unregistered

  datatype HolderBalance = HolderBalance(
    owner: string, tokenAccount: string, amount: int, kind: HolderKind, participantId: Option<string>)

  datatype MergedHolder = MergedHolder(owner: string, kind: HolderKind, participantId: Option<string>, tokens: int)

  datatype AllocationRow = AllocationRow(owner: string, participantId: Option<string>, tokens: int, payout: int)

  datatype ExcludedHolder = ExcludedHolder(owner: string, kind: HolderKind, tokens: int, retainedShare: int)

  datatype Breakdown = Breakdown(pool: int, unregistered: int, unsold: int, dust: int)

  datatype AllocationResult = AllocationResult(
    rows: seq<AllocationRow>, excluded: seq<ExcludedHolder>,
    totalAllocated: int, unallocated: int, breakdown: Breakdown)

  datatype AllocationError =
    | BadBps | NegativeDcf | NegativePool | SupplyNotPositive
    | NegativeBalance(tokenAccount: string) | ConflictingKinds(owner: string) | ConflictingIds(owner: string)
    | BalancesExceedSupply

  // ------------------------------------------------------------------ rights pool

  function ComputeRightsPool(dcf: int, poolPercentageBps: int): (r: Result<nat, AllocationError>)
    ensures r.Ok? <==> 0 < poolPercentageBps <= BPS_DENOMINATOR && dcf >= 0
    ensures r == Err(BadBps) <==> !(0 < poolPercentageBps <= BPS_DENOMINATOR)
    ensures r == Err(NegativeDcf) <==> 0 < poolPercentageBps <= BPS_DENOMINATOR && dcf < 0
    ensures r.Ok? ==> r.value <= dcf
    ensures r.Ok? ==> BPS_DENOMINATOR * r.value <= dcf * poolPercentageBps < BPS_DENOMINATOR * (r.value + 1)
  {
    if !(0 < poolPercentageBps <= BPS_DENOMINATOR) then Err(BadBps)
    else if dcf < 0 then Err(NegativeDcf)
    else
      assert dcf * poolPercentageBps <= dcf * BPS_DENOMINATOR;
      Ok(dcf * poolPercentageBps / BPS_DENOMINATOR)
  }

  // ------------------------------------------------------------------ merging by owner

  /** JavaScript truthiness of an optional id: missing and empty are both false. */
  predicate Truthy(id: Option<string>) {
    id.Some? && id.value != ""
  }

  /** The owners in the order they are first seen. */
  function Owners(hs: seq<HolderBalance>): seq<string> {
    if hs == [] then []
    else
      var os := Owners(hs[..|hs| - 1]);
      var o := hs[|hs| - 1].owner;
      if o in os then os else os + [o]
  }

  function AmountFor(owner: string): HolderBalance -> int {
    (h: HolderBalance) => if h.owner == owner then h.amount else 0
  }

  function TokensOf(hs: seq<HolderBalance>, owner: string): int {
    Sum(hs, AmountFor(owner))
  }

  function FirstKind(hs: seq<HolderBalance>, owner: string): HolderKind
    requires owner in Owners(hs)
  {
    var init := hs[..|hs| - 1];
    if owner in Owners(init) then FirstKind(init, owner) else hs[|hs| - 1].kind
  }

  /** The first id any account of the owner carries. */
  function FirstId(hs: seq<HolderBalance>, owner: string): Option<string> {
    if hs == [] then None
    else
      var h := hs[|hs| - 1];
      var prior := FirstId(hs[..|hs| - 1], owner);
      if prior.Some? then prior else if h.owner == owner then h.participantId else None
  }

  /** Why account `h` cannot join the accounts before it, if it cannot. */
  function ErrorAt(prior: seq<HolderBalance>, h: HolderBalance): Option<AllocationError> {
    if h.amount < 0 then Some(NegativeBalance(h.tokenAccount))
    else if h.owner !in Owners(prior) then None
    else if FirstKind(prior, h.owner) != h.kind then Some(ConflictingKinds(h.owner))
    else
      var id := FirstId(prior, h.owner);
      if Truthy(id) && Truthy(h.participantId) && id != h.participantId then Some(ConflictingIds(h.owner)) else None
  }

  /** The first account that stops the merge. */
  function MergeError(hs: seq<HolderBalance>): Option<AllocationError> {
    if hs == [] then None
    else
      var init := hs[..|hs| - 1];
      var e := MergeError(init);
      if e.Some? then e else ErrorAt(init, hs[|hs| - 1])
  }

  /** All an owner's accounts taken together. */
  function Summary(hs: seq<HolderBalance>, owner: string): MergedHolder
    requires owner in Owners(hs)
  {
    MergedHolder(owner, FirstKind(hs, owner), FirstId(hs, owner), TokensOf(hs, owner))
  }

  function Merged(hs: seq<HolderBalance>): (ms: seq<MergedHolder>)
    ensures |ms| == |Owners(hs)|
    ensures forall i :: 0 <= i < |ms| ==> ms[i] == Summary(hs, Owners(hs)[i])
  {
    seq(|Owners(hs)|, i requires 0 <= i < |Owners(hs)| => Summary(hs, Owners(hs)[i]))
  }

  lemma {:induction false} OwnersAre(hs: seq<HolderBalance>)
    ensures NoDup(Owners(hs))
    ensures forall o :: o in Owners(hs) <==> exists h :: h in hs && h.owner == o
  {
    if hs != [] {
      var k := |hs| - 1;
      OwnersAre(hs[..k]);
      assert hs == hs[..k] + [hs[k]];
      forall o ensures o in Owners(hs) <==> exists h :: h in hs && h.owner == o {
        if o == hs[k].owner { assert hs[k] in hs; }
        if h :| h in hs[..k] && h.owner == o { assert h in hs; }
      }
    }
  }

  lemma OwnerNotSeen(hs: seq<HolderBalance>, owner: string)
    requires owner !in Owners(hs)
    ensures TokensOf(hs, owner) == 0 && FirstId(hs, owner) == None
  {
    OwnersAre(hs);
    NoAccounts(hs, owner);
  }

  lemma {:induction false} NoAccounts(hs: seq<HolderBalance>, owner: string)
    requires forall h :: h in hs ==> h.owner != owner
    ensures TokensOf(hs, owner) == 0 && FirstId(hs, owner) == None
  {
    if hs != [] { NoAccounts(hs[..|hs| - 1], owner); }
  }

  /** An owner's first account. */
  lemma OwnerStarts(prior: seq<HolderBalance>, h: HolderBalance)
    requires h.owner !in Owners(prior)
    ensures Owners(prior + [h]) == Owners(prior) + [h.owner]
    ensures Summary(prior + [h], h.owner) == MergedHolder(h.owner, h.kind, h.participantId, h.amount)
  {
    assert (prior + [h])[..|prior|] == prior;
    OwnerNotSeen(prior, h.owner);
  }

  /** A further account of an owner already seen. */
  lemma OwnerJoins(prior: seq<HolderBalance>, h: HolderBalance)
    requires h.owner in Owners(prior)
    ensures Owners(prior + [h]) == Owners(prior)
    ensures var m := Summary(prior, h.owner);
      Summary(prior + [h], h.owner) ==
        m.(participantId := if m.participantId.None? then h.participantId else m.participantId,
           tokens := m.tokens + h.amount)
  {
    assert (prior + [h])[..|prior|] == prior;
  }

  lemma OthersStay(prior: seq<HolderBalance>, h: HolderBalance, o: string)
    requires o in Owners(prior) && o != h.owner
    ensures o in Owners(prior + [h]) && Summary(prior + [h], o) == Summary(prior, o)
  {
    assert (prior + [h])[..|prior|] == prior;
  }

  lemma ErrorAppends(prior: seq<HolderBalance>, h: HolderBalance)
    requires MergeError(prior) == None
    ensures MergeError(prior + [h]) == ErrorAt(prior, h)
  {
    assert (prior + [h])[..|prior|] == prior;
  }

  /** `mergeHolders`: one entry per owner, in first-seen order. */
  method MergeHolders(holders: seq<HolderBalance>) returns (r: Result<seq<MergedHolder>, AllocationError>)
    ensures r == if MergeError(holders).Some? then Err(MergeError(holders).value) else Ok(Merged(holders))
  {
    hide MergeError, Owners, FirstKind, FirstId, TokensOf;
    var order: seq<string> := [];
    var byOwner: map<string, MergedHolder> := map[];
    NothingMerged();
    for i := 0 to |holders|
      invariant MergeError(holders[..i]) == None
      invariant order == Owners(holders[..i])
      invariant forall o :: o in byOwner <==> o in order
      invariant forall o :: o in order ==> byOwner[o] == Summary(holders[..i], o)
    {
      var h := holders[i];
      ghost var prior := holders[..i];
      assert holders[..i + 1] == prior + [h];
      PrefixError(holders, i + 1);
      ErrorAppends(prior, h);
      forall o | o in Owners(prior) && o != h.owner { OthersStay(prior, h, o); }
      if h.amount < 0 {
        return Err(NegativeBalance(h.tokenAccount));
      }
      if h.owner !in byOwner {
        OwnerStarts(prior, h);
        byOwner := byOwner[h.owner := MergedHolder(h.owner, h.kind, h.participantId, h.amount)];
        order := order + [h.owner];
      } else {
        OwnerJoins(prior, h);
        var existing := byOwner[h.owner];
        if existing.kind != h.kind {
          return Err(ConflictingKinds(h.owner));
        }
        if Truthy(existing.participantId) && Truthy(h.participantId) && existing.participantId != h.participantId {
          return Err(ConflictingIds(h.owner));
        }
        var id := if existing.participantId.None? then h.participantId else existing.participantId;
        byOwner := byOwner[h.owner := existing.(participantId := id, tokens := existing.tokens + h.amount)];
      }
    }
    assert holders[..|holders|] == holders;
    var merged := seq(|order|, i requires 0 <= i < |order| && order[i] in byOwner => byOwner[order[i]]);
    assert merged == Merged(holders);
    r := Ok(merged);
  }

  lemma NothingMerged()
    ensures MergeError([]) == None && Owners([]) == []
  {
  }

  /** The first error of a prefix is the first error of the whole list. */
  lemma {:induction false} PrefixError(hs: seq<HolderBalance>, n: nat)
    requires n <= |hs|
    ensures MergeError(hs[..n]).Some? ==> MergeError(hs) == MergeError(hs[..n])
    decreases |hs| - n
  {
    if n == |hs| {
      assert hs[..n] == hs;
    } else {
      PrefixError(hs, n + 1);
      assert hs[..n + 1][..n] == hs[..n];
    }
  }

  // ------------------------------------------------------------------ allocating

  /** floor(tokens * rightsPool / tokenSupply) */
  function Share(tokens: int, rightsPool: nat, tokenSupply: int): int
    requires tokenSupply > 0
  {
    tokens * rightsPool / tokenSupply
  }

  function RowFor(m: MergedHolder, rightsPool: nat, tokenSupply: int): AllocationRow
    requires tokenSupply > 0
  {
    AllocationRow(m.owner, m.participantId, m.tokens, Share(m.tokens, rightsPool, tokenSupply))
  }

  function ExcludedFor(m: MergedHolder, rightsPool: nat, tokenSupply: int): ExcludedHolder
    requires tokenSupply > 0
  {
    ExcludedHolder(m.owner, m.kind, m.tokens, Share(m.tokens, rightsPool, tokenSupply))
  }

  function RowsOf(ms: seq<MergedHolder>, rightsPool: nat, tokenSupply: int): seq<AllocationRow>
    requires tokenSupply > 0
  {
    if ms == [] then []
    else
      var m := ms[|ms| - 1];
      RowsOf(ms[..|ms| - 1], rightsPool, tokenSupply)
      + if m.kind == Participant then [RowFor(m, rightsPool, tokenSupply)] else []
  }

  function ExcludedOf(ms: seq<MergedHolder>, rightsPool: nat, tokenSupply: int): seq<ExcludedHolder>
    requires tokenSupply > 0
  {
    if ms == [] then []
    else
      var m := ms[|ms| - 1];
      ExcludedOf(ms[..|ms| - 1], rightsPool, tokenSupply)
      + if m.kind == Participant then [] else [ExcludedFor(m, rightsPool, tokenSupply)]
  }

  function Tokens(m: MergedHolder): int { m.tokens }
  function PoolTokens(m: MergedHolder): int { if m.kind == Pool then m.tokens else 0 }
  function UnregisteredTokens(m: MergedHolder): int { if m.kind == Unregistered then m.tokens else 0 }
  function Payout(r: AllocationRow): int { r.payout }

  /** Payout descending, then owner ascending. */
  predicate RowLeq(a: AllocationRow, b: AllocationRow) {
    a.payout > b.payout || (a.payout == b.payout && StrLeq(a.owner, b.owner))
  }

  /** Tokens descending, then owner ascending. */
  predicate ExcludedLeq(a: ExcludedHolder, b: ExcludedHolder) {
    a.tokens > b.tokens || (a.tokens == b.tokens && StrLeq(a.owner, b.owner))
  }

  /** What `allocate` returns once the holders are merged. */
  function Allot(merged: seq<MergedHolder>, tokenSupply: int, rightsPool: nat): AllocationResult
    requires tokenSupply > 0
  {
    var rows := Sort(RowsOf(merged, rightsPool, tokenSupply), RowLeq);
    var excluded := Sort(ExcludedOf(merged, rightsPool, tokenSupply), ExcludedLeq);
    var totalAllocated := Sum(rows, Payout);
    var unallocated := rightsPool - totalAllocated;
    var pool := Share(Sum(merged, PoolTokens), rightsPool, tokenSupply);
    var unregistered := Share(Sum(merged, UnregisteredTokens), rightsPool, tokenSupply);
    var unsold := Share(tokenSupply - Sum(merged, Tokens), rightsPool, tokenSupply);
    AllocationResult(rows, excluded, totalAllocated, unallocated,
                     Breakdown(pool, unregistered, unsold, unallocated - pool - unregistered - unsold))
  }

  /** `allocate`, errors included. */
  function Allocate(holders: seq<HolderBalance>, tokenSupply: int, rightsPool: int)
    : Result<AllocationResult, AllocationError>
  {
    if tokenSupply <= 0 then Err(SupplyNotPositive)
    else if rightsPool < 0 then Err(NegativePool)
    else if MergeError(holders).Some? then Err(MergeError(holders).value)
    else if Sum(Merged(holders), Tokens) > tokenSupply then Err(BalancesExceedSupply)
    else Ok(Allot(Merged(holders), tokenSupply, rightsPool))
  }

  /** `xs.reduce((s, x) => s + f(x), 0n)` as the loop it is. */
  method Reduce<T>(xs: seq<T>, f: T -> int) returns (total: int)
    ensures total == Sum(xs, f)
  {
    total := 0;
    for i := 0 to |xs|
      invariant total == Sum(xs[..i], f)
    {
      assert xs[..i + 1][..i] == xs[..i];
      total := total + f(xs[i]);
    }
    assert xs[..|xs|] == xs;
  }

  /** The loop of `allocate`: participants are paid, everyone else is kept for display. */
  method SplitByKind(merged: seq<MergedHolder>, tokenSupply: int, rightsPool: nat)
    returns (rows: seq<AllocationRow>, excluded: seq<ExcludedHolder>, poolTokens: int, unregisteredTokens: int)
    requires tokenSupply > 0
    ensures rows == RowsOf(merged, rightsPool, tokenSupply)
    ensures excluded == ExcludedOf(merged, rightsPool, tokenSupply)
    ensures poolTokens == Sum(merged, PoolTokens)
    ensures unregisteredTokens == Sum(merged, UnregisteredTokens)
  {
    rows, excluded, poolTokens, unregisteredTokens := [], [], 0, 0;
    for i := 0 to |merged|
      invariant rows == RowsOf(merged[..i], rightsPool, tokenSupply)
      invariant excluded == ExcludedOf(merged[..i], rightsPool, tokenSupply)
      invariant poolTokens == Sum(merged[..i], PoolTokens)
      invariant unregisteredTokens == Sum(merged[..i], UnregisteredTokens)
    {
      var h := merged[i];
      assert merged[..i + 1][..i] == merged[..i];
      var share := Share(h.tokens, rightsPool, tokenSupply);
      if h.kind == Participant {
        rows := rows + [AllocationRow(h.owner, h.participantId, h.tokens, share)];
      } else {
        if h.kind == Pool {
          poolTokens := poolTokens + h.tokens;
        } else {
          unregisteredTokens := unregisteredTokens + h.tokens;
        }
        excluded := excluded + [ExcludedHolder(h.owner, h.kind, h.tokens, share)];
      }
    }
    assert merged[..|merged|] == merged;
  }

  /** From the merged holders to the result: one pass over the owners, two sorts, the sums. */
  method AllotMerged(merged: seq<MergedHolder>, held: int, tokenSupply: int, rightsPool: nat)
    returns (r: AllocationResult)
    requires tokenSupply > 0 && held == Sum(merged, Tokens)
    ensures r == Allot(merged, tokenSupply, rightsPool)
  {
    var rows, excluded, poolTokens, unregisteredTokens := SplitByKind(merged, tokenSupply, rightsPool);
    rows := Sort(rows, RowLeq);
    excluded := Sort(excluded, ExcludedLeq);
    var totalAllocated := Reduce(rows, Payout);
    var unallocated := rightsPool - totalAllocated;
    var pool := Share(poolTokens, rightsPool, tokenSupply);
    var unregistered := Share(unregisteredTokens, rightsPool, tokenSupply);
    var unsold := Share(tokenSupply - held, rightsPool, tokenSupply);
    r := AllocationResult(rows, excluded, totalAllocated, unallocated,
                          Breakdown(pool, unregistered, unsold, unallocated - pool - unregistered - unsold));
  }

  /** `allocate` in the program's own form. */
  method AllocateHolders(holders: seq<HolderBalance>, tokenSupply: int, rightsPool: int)
    returns (r: Result<AllocationResult, AllocationError>)
    ensures r == Allocate(holders, tokenSupply, rightsPool)
  {
    if tokenSupply <= 0 { return Err(SupplyNotPositive); }
    if rightsPool < 0 { return Err(NegativePool); }
    var m := MergeHolders(holders);
    if m.Err? { return Err(m.error); }
    var held := Reduce(m.value, Tokens);
    if held > tokenSupply { return Err(BalancesExceedSupply); }
    var result := AllotMerged(m.value, held, tokenSupply, rightsPool);
    r := Ok(result);
  }

  // ------------------------------------------------------------------ batching

  function Positive<T(!new)>(rows: seq<T>, payout: T -> int): (ps: seq<T>)
    ensures |ps| <= |rows|
    ensures forall r :: r in ps <==> r in rows && payout(r) > 0
  {
    if rows == [] then []
    else if payout(rows[0]) > 0 then [rows[0]] + Positive(rows[1..], payout)
    else Positive(rows[1..], payout)
  }

  function Flatten<T>(batches: seq<seq<T>>): seq<T> {
    if batches == [] then [] else batches[0] + Flatten(batches[1..])
  }

  /** Full batches, the last one perhaps shorter. */
  ghost predicate Packed<T>(batches: seq<seq<T>>, maxPerTx: nat) {
    && (forall i :: 0 <= i < |batches| ==> 0 < |batches[i]| <= maxPerTx)
    && (forall i :: 0 <= i < |batches| - 1 ==> |batches[i]| == maxPerTx)
  }

  /** `batchTransfers`: the payable rows in their order, cut into as few batches as possible. */
  method BatchTransfers<T(!new)>(rows: seq<T>, payout: T -> int, maxPerTx: int) returns (r: Result<seq<seq<T>>, ()>)
    ensures r.Ok? <==> maxPerTx > 0
    ensures r.Ok? ==> Flatten(r.value) == Positive(rows, payout) && Packed(r.value, maxPerTx)
  {
    if maxPerTx <= 0 { return Err(()); }
    var payable := Positive(rows, payout);
    var batches: seq<seq<T>> := [];
    var i := 0;
    while i < |payable|
      invariant 0 <= i
      invariant Flatten(batches) == payable[..if i <= |payable| then i else |payable|]
      invariant forall k :: 0 <= k < |batches| ==> 0 < |batches[k]| <= maxPerTx
      invariant i <= |payable| ==> forall k :: 0 <= k < |batches| ==> |batches[k]| == maxPerTx
      invariant forall k :: 0 <= k < |batches| - 1 ==> |batches[k]| == maxPerTx
      decreases |payable| - i
    {
      var next := if i + maxPerTx <= |payable| then i + maxPerTx else |payable|;
      FlattenAppend(batches, payable[i..next]);
      assert payable[..next] == payable[..i] + payable[i..next];
      batches := batches + [payable[i..next]];
      i := i + maxPerTx;
    }
    assert payable[..|payable|] == payable;
    r := Ok(batches);
  }

  lemma {:induction false} FlattenAppend<T>(batches: seq<seq<T>>, b: seq<T>)
    ensures Flatten(batches + [b]) == Flatten(batches) + b
  {
    if batches == [] {
      assert batches + [b] == [b] && Flatten([b]) == b + Flatten([b][1..]);
    } else {
      FlattenAppend(batches[1..], b);
      assert (batches + [b])[1..] == batches[1..] + [b];
    }
  }

  // ------------------------------------------------------------------ display

  /** USDC base units per whole token, floored. */
  function PerTokenBaseUnits(rightsPool: nat, tokenSupply: nat, tokenDecimals: nat): Result<nat, AllocationError> {
    if tokenSupply == 0 then Err(SupplyNotPositive)
    else Ok(rightsPool * Pow10(tokenDecimals) / tokenSupply)
  }

  // ------------------------------------------------------------------ classification

  datatype TokenBalance = TokenBalance(owner: string, tokenAccount: string, amount: int)

  datatype ParticipantStatus = ParticipantStatus(id: string, wallet: string, agreementAccepted: bool, allowlisted: bool)

  /** The id the eligibility map holds for a wallet: the last eligible registration wins. */
  function EligibleId(participants: seq<ParticipantStatus>, wallet: string): Option<string> {
    if participants == [] then None
    else
      var p := participants[|participants| - 1];
      if p.agreementAccepted && p.allowlisted && p.wallet == wallet then Some(p.id)
      else EligibleId(participants[..|participants| - 1], wallet)
  }

  function ClassifyOne(b: TokenBalance, poolOwners: set<string>, participants: seq<ParticipantStatus>): HolderBalance {
    if b.owner in poolOwners then HolderBalance(b.owner, b.tokenAccount, b.amount, Pool, None)
    else
      var id := EligibleId(participants, b.owner);
      if Truthy(id) then HolderBalance(b.owner, b.tokenAccount, b.amount, Participant, id)
      else HolderBalance(b.owner, b.tokenAccount, b.amount, Unregistered, None)
  }

  /** `classifyHolders`. */
  function ClassifyHolders(balances: seq<TokenBalance>, poolOwners: set<string>, participants: seq<ParticipantStatus>)
    : (hs: seq<HolderBalance>)
    ensures |hs| == |balances|
    ensures forall i :: 0 <= i < |balances| ==> hs[i] == ClassifyOne(balances[i], poolOwners, participants)
  {
    seq(|balances|, i requires 0 <= i < |balances| => ClassifyOne(balances[i], poolOwners, participants))
  }
}
