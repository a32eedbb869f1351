/** What an allocation guarantees: nothing is created or lost, rounding stays below one unit a
    term, and only what each owner holds matters. */
module AllocationLaws {
  import opened Wrappers
  import opened Text
  import opened Sorting
  import opened Sums
  import opened Allocation

  // ------------------------------------------------------------------ rounding

  /** Floor division splits `tokens * rightsPool` into a share and a remainder below the supply. */
  lemma ShareBounds(tokens: int, rightsPool: nat, tokenSupply: int)
    requires tokenSupply > 0
    ensures Share(tokens, rightsPool, tokenSupply) * tokenSupply <= tokens * rightsPool
    ensures tokens * rightsPool < (Share(tokens, rightsPool, tokenSupply) + 1) * tokenSupply
    ensures tokens >= 0 ==> Share(tokens, rightsPool, tokenSupply) >= 0
  {
    var x := tokens * rightsPool;
    assert x == x / tokenSupply * tokenSupply + x % tokenSupply;
    if tokens >= 0 { assert x >= 0; }
  }

  function KindTokens(kind: HolderKind): MergedHolder -> int {
    (m: MergedHolder) => if m.kind == kind then m.tokens else 0
  }

  lemma {:induction false} KindSums(ms: seq<MergedHolder>)
    ensures Sum(ms, PoolTokens) == Sum(ms, KindTokens(Pool))
    ensures Sum(ms, UnregisteredTokens) == Sum(ms, KindTokens(Unregistered))
    ensures Sum(ms, Tokens)
         == Sum(ms, KindTokens(Participant)) + Sum(ms, KindTokens(Pool)) + Sum(ms, KindTokens(Unregistered))
  {
    if ms != [] { KindSums(ms[..|ms| - 1]); }
  }

  /** The payouts together miss the exact share by less than one unit a row. */
  lemma {:induction false} RowsBounds(ms: seq<MergedHolder>, rightsPool: nat, tokenSupply: int)
    requires tokenSupply > 0
    ensures var rows := RowsOf(ms, rightsPool, tokenSupply);
            tokenSupply * Sum(rows, Payout) <= Sum(ms, KindTokens(Participant)) * rightsPool
              <= tokenSupply * Sum(rows, Payout) + |rows| * (tokenSupply - 1)
  {
    if ms != [] {
      var k := |ms| - 1;
      var m, init := ms[k], RowsOf(ms[..k], rightsPool, tokenSupply);
      RowsBounds(ms[..k], rightsPool, tokenSupply);
      if m.kind == Participant {
        var s := Share(m.tokens, rightsPool, tokenSupply);
        ShareBounds(m.tokens, rightsPool, tokenSupply);
        SumConcat(init, [RowFor(m, rightsPool, tokenSupply)], Payout);
        SumOne(RowFor(m, rightsPool, tokenSupply), Payout);
        RowStep(tokenSupply, rightsPool, Sum(init, Payout), |init|, Sum(ms[..k], KindTokens(Participant)), m.tokens, s);
      } else {
        assert RowsOf(ms, rightsPool, tokenSupply) == init;
      }
    }
  }

  lemma RowStep(supply: int, pool: nat, paid: int, n: nat, held: int, tokens: int, share: int)
    requires supply * paid <= held * pool <= supply * paid + n * (supply - 1)
    requires share * supply <= tokens * pool < (share + 1) * supply
    ensures supply * (paid + share) <= (held + tokens) * pool <= supply * (paid + share) + (n + 1) * (supply - 1)
  {
    assert supply * (paid + share) == supply * paid + share * supply;
    assert (held + tokens) * pool == held * pool + tokens * pool;
    assert (share + 1) * supply == share * supply + supply;
    assert (n + 1) * (supply - 1) == n * (supply - 1) + (supply - 1);
  }

  lemma RowLeqIsOrder()
    ensures TotalPreorder(RowLeq)
  {
    forall x: AllocationRow, y: AllocationRow ensures RowLeq(x, y) || RowLeq(y, x) {
      LexTotal(Codes(x.owner), Codes(y.owner));
    }
    forall x: AllocationRow, y: AllocationRow, z: AllocationRow | RowLeq(x, y) && RowLeq(y, z) ensures RowLeq(x, z) {
      if x.payout == z.payout { LexTransitive(Codes(x.owner), Codes(y.owner), Codes(z.owner)); }
    }
  }

  lemma ExcludedLeqIsOrder()
    ensures TotalPreorder(ExcludedLeq)
  {
    forall x: ExcludedHolder, y: ExcludedHolder ensures ExcludedLeq(x, y) || ExcludedLeq(y, x) {
      LexTotal(Codes(x.owner), Codes(y.owner));
    }
    forall x: ExcludedHolder, y: ExcludedHolder, z: ExcludedHolder | ExcludedLeq(x, y) && ExcludedLeq(y, z)
      ensures ExcludedLeq(x, z)
    {
      if x.tokens == z.tokens { LexTransitive(Codes(x.owner), Codes(y.owner), Codes(z.owner)); }
    }
  }

  /** From the four bounds on the shares to the bound on what rounding loses. */
  lemma DustBound(supply: int, pool: nat, paid: int, n: nat, a: int, b: int, p: int, c: int, u: int, d: int, v: int)
    requires supply > 0 && a + b + c + d == supply
    requires supply * paid <= a * pool <= supply * paid + n * (supply - 1)
    requires p * supply <= b * pool < (p + 1) * supply
    requires u * supply <= c * pool < (u + 1) * supply
    requires v * supply <= d * pool < (v + 1) * supply
    ensures 0 <= pool - paid - p - u - v < n + 3
  {
    var dust := pool - paid - p - u - v;
    assert supply * pool == a * pool + b * pool + c * pool + d * pool by {
      assert (a + b + c + d) * pool == a * pool + b * pool + c * pool + d * pool;
    }
    assert supply * dust == supply * pool - supply * paid - p * supply - u * supply - v * supply;
    assert (p + 1) * supply == p * supply + supply;
    assert (u + 1) * supply == u * supply + supply;
    assert (v + 1) * supply == v * supply + supply;
    assert n * (supply - 1) == n * supply - n;
    assert supply * dust >= 0;
    assert supply * dust < supply * (n + 3) by { assert supply * (n + 3) == n * supply + 3 * supply; }
    if dust < 0 { MulMono(supply, dust, -1); }
    if dust >= n + 3 { MulMono(supply, n + 3, dust); }
  }

  lemma {:induction false} MergedNonNegative(hs: seq<HolderBalance>)
    requires MergeError(hs) == None
    ensures forall h :: h in hs ==> h.amount >= 0
  {
    if hs != [] {
      MergedNonNegative(hs[..|hs| - 1]);
      assert hs == hs[..|hs| - 1] + [hs[|hs| - 1]];
    }
  }

  lemma {:induction false} RowsAreRows(ms: seq<MergedHolder>, rightsPool: nat, tokenSupply: int)
    requires tokenSupply > 0
    ensures forall r :: r in RowsOf(ms, rightsPool, tokenSupply) <==>
              exists m :: m in ms && m.kind == Participant && r == RowFor(m, rightsPool, tokenSupply)
  {
    if ms != [] {
      var k := |ms| - 1;
      RowsAreRows(ms[..k], rightsPool, tokenSupply);
      forall r ensures r in RowsOf(ms, rightsPool, tokenSupply) <==>
              exists m :: m in ms && m.kind == Participant && r == RowFor(m, rightsPool, tokenSupply) {
        assert forall m :: m in ms <==> m in ms[..k] || m == ms[k];
      }
    }
  }

  lemma {:induction false} ExcludedAreExcluded(ms: seq<MergedHolder>, rightsPool: nat, tokenSupply: int)
    requires tokenSupply > 0
    ensures forall r :: r in ExcludedOf(ms, rightsPool, tokenSupply) <==>
              exists m :: m in ms && m.kind != Participant && r == ExcludedFor(m, rightsPool, tokenSupply)
  {
    if ms != [] {
      var k := |ms| - 1;
      ExcludedAreExcluded(ms[..k], rightsPool, tokenSupply);
      forall r ensures r in ExcludedOf(ms, rightsPool, tokenSupply) <==>
              exists m :: m in ms && m.kind != Participant && r == ExcludedFor(m, rightsPool, tokenSupply) {
        assert forall m :: m in ms <==> m in ms[..k] || m == ms[k];
      }
    }
  }

  ghost predicate DistinctOwners(ms: seq<MergedHolder>) {
    forall i, j :: 0 <= i < j < |ms| ==> ms[i].owner != ms[j].owner
  }

  ghost predicate OneRowPerOwner(rows: seq<AllocationRow>) {
    forall i, j :: 0 <= i < j < |rows| ==> rows[i].owner != rows[j].owner
  }

  ghost predicate OneEntryPerOwner(es: seq<ExcludedHolder>) {
    forall i, j :: 0 <= i < j < |es| ==> es[i].owner != es[j].owner
  }

  lemma MergedDistinct(hs: seq<HolderBalance>)
    ensures DistinctOwners(Merged(hs))
  {
    OwnersAre(hs);
  }

  lemma {:induction false} RowsDistinct(ms: seq<MergedHolder>, rightsPool: nat, tokenSupply: int)
    requires tokenSupply > 0 && DistinctOwners(ms)
    ensures OneRowPerOwner(RowsOf(ms, rightsPool, tokenSupply))
    ensures OneEntryPerOwner(ExcludedOf(ms, rightsPool, tokenSupply))
  {
    if ms != [] {
      var k := |ms| - 1;
      RowsDistinct(ms[..k], rightsPool, tokenSupply);
      RowsAreRows(ms[..k], rightsPool, tokenSupply);
      ExcludedAreExcluded(ms[..k], rightsPool, tokenSupply);
      forall r | r in RowsOf(ms[..k], rightsPool, tokenSupply) ensures r.owner != ms[k].owner {
        var m :| m in ms[..k] && r == RowFor(m, rightsPool, tokenSupply);
      }
      forall r | r in ExcludedOf(ms[..k], rightsPool, tokenSupply) ensures r.owner != ms[k].owner {
        var m :| m in ms[..k] && r == ExcludedFor(m, rightsPool, tokenSupply);
      }
    }
  }

  lemma SortedRows(rows: seq<AllocationRow>)
    requires OneRowPerOwner(rows)
    ensures OneRowPerOwner(Sort(rows, RowLeq)) && Sorted(Sort(rows, RowLeq), RowLeq)
    ensures |Sort(rows, RowLeq)| == |rows| && forall r :: r in Sort(rows, RowLeq) <==> r in rows
    ensures Sum(Sort(rows, RowLeq), Payout) == Sum(rows, Payout)
  {
    RowLeqIsOrder();
    SortSorts(rows, RowLeq);
    var s := Sort(rows, RowLeq);
    SumPermutation(s, rows, Payout);
    NoDupPermutation(rows, s);
    forall i, j | 0 <= i < j < |s| ensures s[i].owner != s[j].owner {
      assert s[i] in rows && s[j] in rows;
      var m :| 0 <= m < |rows| && rows[m] == s[i];
      var n :| 0 <= n < |rows| && rows[n] == s[j];
      assert m < n || n < m;
    }
  }

  lemma {:induction false} TokensNonNegative(hs: seq<HolderBalance>, owner: string)
    requires forall h :: h in hs ==> h.amount >= 0
    ensures TokensOf(hs, owner) >= 0
  {
    SumNonNegative(hs, AmountFor(owner));
  }

  // ------------------------------------------------------------------ conservation

  /** Everything the pool holds is accounted for, exactly, and rounding loses less than one
      base unit for each row and each line of the breakdown. */
  lemma Conservation(hs: seq<HolderBalance>, supply: int, pool: int)
    requires Allocate(hs, supply, pool).Ok?
    ensures var r := Allocate(hs, supply, pool).value;
      && r.totalAllocated + r.unallocated == pool
      && r.breakdown.pool + r.breakdown.unregistered + r.breakdown.unsold + r.breakdown.dust == r.unallocated
      && 0 <= r.breakdown.dust < |r.rows| + 3
      && r.breakdown.pool >= 0 && r.breakdown.unregistered >= 0 && r.breakdown.unsold >= 0
      && 0 <= r.totalAllocated <= pool
  {
    var ms := Merged(hs);
    MergedDistinct(hs);
    MergedNonNegative(hs);
    forall m | m in ms ensures m.tokens >= 0 { TokensNonNegative(hs, m.owner); }
    AllotConserves(ms, supply, pool);
  }

  lemma AllotConserves(ms: seq<MergedHolder>, supply: int, pool: nat)
    requires supply > 0 && DistinctOwners(ms) && Sum(ms, Tokens) <= supply
    requires forall m :: m in ms ==> m.tokens >= 0
    ensures var r := Allot(ms, supply, pool);
      && 0 <= r.breakdown.dust < |r.rows| + 3
      && r.breakdown.pool >= 0 && r.breakdown.unregistered >= 0 && r.breakdown.unsold >= 0
      && r.totalAllocated >= 0
  {
    hide RowsOf, ExcludedOf, Sort, Sum, Share;
    var raw := RowsOf(ms, pool, supply);
    RowsDistinct(ms, pool, supply);
    SortedRows(raw);
    RowsBounds(ms, pool, supply);
    KindSums(ms);
    SumNonNegative(ms, PoolTokens);
    SumNonNegative(ms, UnregisteredTokens);
    var b, c, d := Sum(ms, PoolTokens), Sum(ms, UnregisteredTokens), supply - Sum(ms, Tokens);
    ShareBounds(b, pool, supply);
    ShareBounds(c, pool, supply);
    ShareBounds(d, pool, supply);
    DustBound(supply, pool, Sum(raw, Payout), |raw|, Sum(ms, KindTokens(Participant)),
              b, Share(b, pool, supply), c, Share(c, pool, supply), d, Share(d, pool, supply));
    PayoutsNonNegative(ms, pool, supply);
  }

  lemma PayoutsNonNegative(ms: seq<MergedHolder>, pool: nat, supply: int)
    requires supply > 0 && forall m :: m in ms ==> m.tokens >= 0
    ensures Sum(RowsOf(ms, pool, supply), Payout) >= 0
  {
    RowsAreRows(ms, pool, supply);
    forall x | x in RowsOf(ms, pool, supply) ensures Payout(x) >= 0 {
      var m :| m in ms && x == RowFor(m, pool, supply);
      ShareBounds(m.tokens, pool, supply);
    }
    SumNonNegative(RowsOf(ms, pool, supply), Payout);
  }

  lemma SumThree<T>(x: T, y: T, z: T, f: T -> int)
    ensures Sum([x, y, z], f) == f(x) + f(y) + f(z)
  {
    assert [x, y, z][..2] == [x, y] && [x, y][..1] == [x];
    assert Sum([x, y, z], f) == Sum([x, y], f) + f(z);
    assert Sum([x, y], f) == Sum([x], f) + f(y);
    SumOne(x, f);
  }

  /** The bound is reached: with one row, a dust of rows + 2. */
  lemma DustIsTight()
    ensures var r := Allot([MergedHolder("a", Participant, Some("p"), 1), MergedHolder("b", Pool, None, 1),
                            MergedHolder("c", Unregistered, None, 1)], 4, 3);
            |r.rows| == 1 && r.breakdown.dust == |r.rows| + 2
  {
    var x, y := MergedHolder("a", Participant, Some("p"), 1), MergedHolder("b", Pool, None, 1);
    var z := MergedHolder("c", Unregistered, None, 1);
    var row := AllocationRow("a", Some("p"), 1, 0);
    assert [x, y, z][..2] == [x, y] && [x, y][..1] == [x] && [x][..0] == [];
    assert RowsOf([x, y, z], 3, 4) == RowsOf([x, y], 3, 4) == RowsOf([x], 3, 4) == [row];
    assert [row][1..] == [] && Sort([row], RowLeq) == [row];
    SumOne(row, Payout);
    SumThree(x, y, z, Tokens);
    SumThree(x, y, z, PoolTokens);
    SumThree(x, y, z, UnregisteredTokens);
  }

  /** A row pays a participant of the snapshot the floor of its exact share. */
  /** Larger payouts first, equal ones by wallet. */
  ghost predicate LargestFirst(rows: seq<AllocationRow>) {
    forall i, j :: 0 <= i < j < |rows| ==>
      rows[i].payout > rows[j].payout
      || (rows[i].payout == rows[j].payout && StrLeq(rows[i].owner, rows[j].owner))
  }

  /** Larger holdings first, equal ones by wallet. */
  ghost predicate LargestHeldFirst(es: seq<ExcludedHolder>) {
    forall i, j :: 0 <= i < j < |es| ==>
      es[i].tokens > es[j].tokens || (es[i].tokens == es[j].tokens && StrLeq(es[i].owner, es[j].owner))
  }

  ghost predicate ExactRow(hs: seq<HolderBalance>, supply: int, pool: nat, x: AllocationRow) {
    && x.owner in Owners(hs) && FirstKind(hs, x.owner) == Participant
    && x.participantId == FirstId(hs, x.owner)
    && x.tokens == TokensOf(hs, x.owner) && x.tokens >= 0 && x.payout >= 0
    && x.payout * supply <= x.tokens * pool < (x.payout + 1) * supply
  }

  /** One row per participant, each within one base unit of its exact share, largest first. */
  lemma RowsAreExact(hs: seq<HolderBalance>, supply: int, pool: int)
    requires Allocate(hs, supply, pool).Ok?
    ensures var r := Allocate(hs, supply, pool).value;
      && OneRowPerOwner(r.rows) && LargestFirst(r.rows)
      && (forall x :: x in r.rows ==> ExactRow(hs, supply, pool, x))
      && (forall o :: o in Owners(hs) && FirstKind(hs, o) == Participant ==> exists x :: x in r.rows && x.owner == o)
  {
    var ms := Merged(hs);
    var raw := RowsOf(ms, pool, supply);
    MergedDistinct(hs);
    RowsDistinct(ms, pool, supply);
    SortedRows(raw);
    MergedNonNegative(hs);
    forall x | x in raw ensures ExactRow(hs, supply, pool, x) { RawRowExact(hs, supply, pool, x); }
    forall o | o in Owners(hs) && FirstKind(hs, o) == Participant ensures exists x :: x in raw && x.owner == o {
      ParticipantHasRow(hs, supply, pool, o);
    }
  }

  lemma RawRowExact(hs: seq<HolderBalance>, supply: int, pool: nat, x: AllocationRow)
    requires supply > 0 && (forall h :: h in hs ==> h.amount >= 0) && x in RowsOf(Merged(hs), pool, supply)
    ensures ExactRow(hs, supply, pool, x)
  {
    RowsAreRows(Merged(hs), pool, supply);
    var m :| m in Merged(hs) && m.kind == Participant && x == RowFor(m, pool, supply);
    TokensNonNegative(hs, m.owner);
    ShareBounds(m.tokens, pool, supply);
  }

  lemma ParticipantHasRow(hs: seq<HolderBalance>, supply: int, pool: nat, o: string)
    requires supply > 0 && o in Owners(hs) && FirstKind(hs, o) == Participant
    ensures exists x :: x in RowsOf(Merged(hs), pool, supply) && x.owner == o
  {
    RowsAreRows(Merged(hs), pool, supply);
    var i :| 0 <= i < |Owners(hs)| && Owners(hs)[i] == o;
    var m := Merged(hs)[i];
    assert m == Summary(hs, o) && m in Merged(hs);
    assert RowFor(m, pool, supply) in RowsOf(Merged(hs), pool, supply);
  }

  /** An excluded entry shows what a non-participant holds and the share the issuer keeps for it. */
  ghost predicate ExactExclusion(hs: seq<HolderBalance>, supply: int, pool: nat, x: ExcludedHolder) {
    && x.owner in Owners(hs) && x.kind == FirstKind(hs, x.owner) != Participant
    && x.tokens == TokensOf(hs, x.owner)
    && x.retainedShare * supply <= x.tokens * pool < (x.retainedShare + 1) * supply
  }

  /** One entry per non-participant, largest holding first. */
  lemma ExcludedAreExact(hs: seq<HolderBalance>, supply: int, pool: int)
    requires Allocate(hs, supply, pool).Ok?
    ensures var r := Allocate(hs, supply, pool).value;
      && OneEntryPerOwner(r.excluded) && LargestHeldFirst(r.excluded)
      && (forall x :: x in r.excluded ==> ExactExclusion(hs, supply, pool, x))
      && (forall o :: o in Owners(hs) && FirstKind(hs, o) != Participant ==>
            exists x :: x in r.excluded && x.owner == o)
  {
    hide Owners, FirstKind, TokensOf, ExcludedOf, RowsOf, MergeError, Sort;
    var ms := Merged(hs);
    var raw := ExcludedOf(ms, pool, supply);
    MergedDistinct(hs);
    RowsDistinct(ms, pool, supply);
    SortedExclusions(raw);
    forall x | x in raw ensures ExactExclusion(hs, supply, pool, x) { RawExclusionExact(hs, supply, pool, x); }
    forall o | o in Owners(hs) && FirstKind(hs, o) != Participant ensures exists x :: x in raw && x.owner == o {
      NonParticipantHasEntry(hs, supply, pool, o);
    }
  }

  lemma SortedExclusions(es: seq<ExcludedHolder>)
    requires OneEntryPerOwner(es)
    ensures OneEntryPerOwner(Sort(es, ExcludedLeq)) && Sorted(Sort(es, ExcludedLeq), ExcludedLeq)
    ensures forall e :: e in Sort(es, ExcludedLeq) <==> e in es
  {
    ExcludedLeqIsOrder();
    SortSorts(es, ExcludedLeq);
    var s := Sort(es, ExcludedLeq);
    NoDupPermutation(es, s);
    forall i, j | 0 <= i < j < |s| ensures s[i].owner != s[j].owner {
      assert s[i] in es && s[j] in es;
      var m :| 0 <= m < |es| && es[m] == s[i];
      var n :| 0 <= n < |es| && es[n] == s[j];
      assert m < n || n < m;
    }
  }

  lemma RawExclusionExact(hs: seq<HolderBalance>, supply: int, pool: nat, x: ExcludedHolder)
    requires supply > 0 && x in ExcludedOf(Merged(hs), pool, supply)
    ensures ExactExclusion(hs, supply, pool, x)
  {
    ExcludedAreExcluded(Merged(hs), pool, supply);
    var m :| m in Merged(hs) && m.kind != Participant && x == ExcludedFor(m, pool, supply);
    ShareBounds(m.tokens, pool, supply);
  }

  lemma NonParticipantHasEntry(hs: seq<HolderBalance>, supply: int, pool: nat, o: string)
    requires supply > 0 && o in Owners(hs) && FirstKind(hs, o) != Participant
    ensures exists x :: x in ExcludedOf(Merged(hs), pool, supply) && x.owner == o
  {
    ExcludedAreExcluded(Merged(hs), pool, supply);
    var i :| 0 <= i < |Owners(hs)| && Owners(hs)[i] == o;
    var m := Merged(hs)[i];
    assert m == Summary(hs, o) && m in Merged(hs);
    assert ExcludedFor(m, pool, supply) in ExcludedOf(Merged(hs), pool, supply);
  }

  // ------------------------------------------------------------------ the breakdown

  /** What all accounts of a kind hold. */
  function KindAmount(kind: HolderKind): HolderBalance -> int {
    (h: HolderBalance) => if h.kind == kind then h.amount else 0
  }

  function Held(hs: seq<HolderBalance>, kind: HolderKind): int {
    Sum(hs, KindAmount(kind))
  }

  /** Merging moves no token from one kind to another. */
  lemma {:induction false} MergeKeepsKinds(hs: seq<HolderBalance>, kind: HolderKind)
    requires MergeError(hs) == None
    ensures Sum(Merged(hs), KindTokens(kind)) == Held(hs, kind)
  {
    hide Owners, FirstKind, FirstId, TokensOf, Merged;
    if hs == [] {
      NoneMerged();
    } else {
      var prior, h := hs[..|hs| - 1], hs[|hs| - 1];
      assert hs == prior + [h];
      MergeKeepsKinds(prior, kind);
      OneMoreMerged(prior, h, kind);
    }
  }

  lemma NoneMerged()
    ensures Merged([]) == []
  {
  }

  lemma OneMoreMerged(prior: seq<HolderBalance>, h: HolderBalance, kind: HolderKind)
    requires ErrorAt(prior, h) == None
    ensures Sum(Merged(prior + [h]), KindTokens(kind)) == Sum(Merged(prior), KindTokens(kind)) + KindAmount(kind)(h)
  {
    hide Owners, FirstKind, FirstId, TokensOf, Sum;
    var ms, after := Merged(prior), Merged(prior + [h]);
    OwnersAre(prior);
    if h.owner in Owners(prior) {
      OwnerJoins(prior, h);
      var i :| 0 <= i < |Owners(prior)| && Owners(prior)[i] == h.owner;
      forall j | 0 <= j < |ms| && j != i ensures after[j] == ms[j] { OthersStay(prior, h, Owners(prior)[j]); }
      assert after == ms[i := after[i]];
      SumUpdate(ms, i, after[i], KindTokens(kind));
    } else {
      OwnerStarts(prior, h);
      forall j | 0 <= j < |ms| ensures after[j] == ms[j] { OthersStay(prior, h, Owners(prior)[j]); }
      var m := after[|ms|];
      assert after == ms + [m];
      SumConcat(ms, [m], KindTokens(kind));
      SumOne(m, KindTokens(kind));
    }
  }

  predicate FloorOf(q: int, x: int, n: int) {
    q * n <= x < (q + 1) * n
  }

  /** Each line of the breakdown is the floor of its exact share: of the pool accounts, of the
      unregistered accounts, of the supply in no account. */
  lemma BreakdownIsExact(hs: seq<HolderBalance>, supply: int, pool: int)
    requires Allocate(hs, supply, pool).Ok?
    ensures var b := Allocate(hs, supply, pool).value.breakdown;
      && FloorOf(b.pool, Held(hs, Pool) * pool, supply)
      && FloorOf(b.unregistered, Held(hs, Unregistered) * pool, supply)
      && FloorOf(b.unsold, (supply - Held(hs, Participant) - Held(hs, Pool) - Held(hs, Unregistered)) * pool, supply)
  {
    hide MergeError, Merged, RowsOf, ExcludedOf, Sort, Sum, Share;
    var ms := Merged(hs);
    KindSums(ms);
    MergeKeepsKinds(hs, Participant);
    MergeKeepsKinds(hs, Pool);
    MergeKeepsKinds(hs, Unregistered);
    ShareBounds(Held(hs, Pool), pool, supply);
    ShareBounds(Held(hs, Unregistered), pool, supply);
    ShareBounds(supply - Sum(ms, Tokens), pool, supply);
  }

  /** The displayed per-token amount is the floor of a whole token's exact share, and every row with at
      least k whole tokens is paid at least k times that. */
  lemma PerTokenIsHonoured(hs: seq<HolderBalance>, supply: nat, pool: nat, decimals: nat, x: AllocationRow, k: nat)
    requires Allocate(hs, supply, pool).Ok? && x in Allocate(hs, supply, pool).value.rows
    ensures PerTokenBaseUnits(pool, supply, decimals).Ok?
    ensures FloorOf(PerTokenBaseUnits(pool, supply, decimals).value, pool * Pow10(decimals), supply)
    ensures x.tokens >= k * Pow10(decimals) ==> x.payout >= k * PerTokenBaseUnits(pool, supply, decimals).value
  {
    hide Owners, FirstKind, FirstId, TokensOf, RowsOf, ExcludedOf, Sort, MergeError, OneRowPerOwner, Sorted, Pow10;
    RowsAreExact(hs, supply, pool);
    FloorIs(pool * Pow10(decimals), supply);
    if x.tokens >= k * Pow10(decimals) { ShareCovers(supply, pool, Pow10(decimals), x.tokens, x.payout, k); }
  }

  lemma FloorIs(x: nat, n: nat)
    requires n > 0
    ensures FloorOf(x / n, x, n)
  {
    assert x == x / n * n + x % n;
  }

  lemma ShareCovers(supply: nat, pool: nat, unit: nat, tokens: nat, payout: nat, k: nat)
    requires supply > 0 && tokens >= k * unit && tokens * pool < (payout + 1) * supply
    ensures payout >= k * (pool * unit / supply)
  {
    var per := pool * unit / supply;
    assert per * supply <= pool * unit;
    MulMono(k, per * supply, pool * unit);
    ThreeFactors(k, per, supply);
    ThreeFactors(k, unit, pool);
    MulMono(pool, k * unit, tokens);
    ScaledDown(supply, k * per, payout + 1);
  }

  lemma ThreeFactors(x: nat, y: nat, z: nat)
    ensures x * (y * z) == (x * y) * z && x * (z * y) == (x * y) * z
  {
  }

  lemma ScaledDown(k: nat, x: int, y: int)
    requires x * k < y * k
    ensures x < y
  {
    if y <= x { MulMono(k, y, x); }
  }

  lemma MulMono(k: nat, x: int, y: int)
    requires x <= y
    ensures k * x <= k * y
  {
  }

  // ------------------------------------------------------------------ only holdings matter

  /** The same owners, each with the same kind, id and total. */
  ghost predicate SameHoldings(hs: seq<HolderBalance>, hs': seq<HolderBalance>) {
    && (forall o :: o in Owners(hs) <==> o in Owners(hs'))
    && (forall o :: o in Owners(hs) && o in Owners(hs') ==> Summary(hs, o) == Summary(hs', o))
  }

  lemma SameMerged(hs: seq<HolderBalance>, hs': seq<HolderBalance>)
    requires SameHoldings(hs, hs')
    ensures multiset(Merged(hs)) == multiset(Merged(hs'))
  {
    MergedDistinct(hs);
    MergedDistinct(hs');
    forall m ensures m in Merged(hs) <==> m in Merged(hs') {
      if m in Merged(hs) { InMerged(hs, hs', m); }
      if m in Merged(hs') { InMerged(hs', hs, m); }
    }
    NoDupSameMembers(Merged(hs), Merged(hs'));
  }

  lemma InMerged(hs: seq<HolderBalance>, hs': seq<HolderBalance>, m: MergedHolder)
    requires SameHoldings(hs, hs') && m in Merged(hs)
    ensures m in Merged(hs')
  {
    var i :| 0 <= i < |Merged(hs)| && Merged(hs)[i] == m;
    var o := Owners(hs)[i];
    assert m == Summary(hs, o) && o in Owners(hs');
    var j :| 0 <= j < |Owners(hs')| && Owners(hs')[j] == o;
    assert Merged(hs')[j] == m;
  }

  lemma AllotForgetsOrder(ms: seq<MergedHolder>, ms': seq<MergedHolder>, supply: int, pool: nat)
    requires supply > 0 && DistinctOwners(ms) && DistinctOwners(ms') && multiset(ms) == multiset(ms')
    ensures Allot(ms, supply, pool) == Allot(ms', supply, pool)
  {
    SumPermutation(ms, ms', Tokens);
    SumPermutation(ms, ms', PoolTokens);
    SumPermutation(ms, ms', UnregisteredTokens);
    SameRows(ms, ms', pool, supply);
    SameExcluded(ms, ms', pool, supply);
  }

  /** The result does not depend on account order or on how tokens are split over accounts. */
  lemma OnlyHoldingsMatter(hs: seq<HolderBalance>, hs': seq<HolderBalance>, supply: int, pool: int)
    requires MergeError(hs) == None && MergeError(hs') == None && SameHoldings(hs, hs')
    ensures Allocate(hs, supply, pool) == Allocate(hs', supply, pool)
  {
    SameMerged(hs, hs');
    SumPermutation(Merged(hs), Merged(hs'), Tokens);
    MergedDistinct(hs);
    MergedDistinct(hs');
    if supply > 0 && pool >= 0 { AllotForgetsOrder(Merged(hs), Merged(hs'), supply, pool); }
  }

  lemma SameRows(ms: seq<MergedHolder>, ms': seq<MergedHolder>, pool: nat, supply: int)
    requires supply > 0 && DistinctOwners(ms) && DistinctOwners(ms') && multiset(ms) == multiset(ms')
    ensures Sort(RowsOf(ms, pool, supply), RowLeq) == Sort(RowsOf(ms', pool, supply), RowLeq)
  {
    var a, b := RowsOf(ms, pool, supply), RowsOf(ms', pool, supply);
    RowsAreRows(ms, pool, supply);
    RowsAreRows(ms', pool, supply);
    SamePermuted(ms, ms');
    RowsDistinct(ms, pool, supply);
    RowsDistinct(ms', pool, supply);
    NoDupSameMembers(a, b);
    RowLeqIsOrder();
    forall x, y | x in a && y in a && RowLeq(x, y) && RowLeq(y, x) ensures x == y {
      StrAntisymmetric(x.owner, y.owner);
      var i :| 0 <= i < |a| && a[i] == x;
      var j :| 0 <= j < |a| && a[j] == y;
      assert !(i < j) && !(j < i);
    }
    SortPermutation(a, b, RowLeq);
  }

  lemma SameExcluded(ms: seq<MergedHolder>, ms': seq<MergedHolder>, pool: nat, supply: int)
    requires supply > 0 && DistinctOwners(ms) && DistinctOwners(ms') && multiset(ms) == multiset(ms')
    ensures Sort(ExcludedOf(ms, pool, supply), ExcludedLeq) == Sort(ExcludedOf(ms', pool, supply), ExcludedLeq)
  {
    var a, b := ExcludedOf(ms, pool, supply), ExcludedOf(ms', pool, supply);
    ExcludedAreExcluded(ms, pool, supply);
    ExcludedAreExcluded(ms', pool, supply);
    SamePermuted(ms, ms');
    RowsDistinct(ms, pool, supply);
    RowsDistinct(ms', pool, supply);
    NoDupSameMembers(a, b);
    ExcludedLeqIsOrder();
    forall x, y | x in a && y in a && ExcludedLeq(x, y) && ExcludedLeq(y, x) ensures x == y {
      StrAntisymmetric(x.owner, y.owner);
      var i :| 0 <= i < |a| && a[i] == x;
      var j :| 0 <= j < |a| && a[j] == y;
      assert !(i < j) && !(j < i);
    }
    SortPermutation(a, b, ExcludedLeq);
  }

  // ------------------------------------------------------------------ account order

  /** No owner mixes an empty id with a non-empty one. */
  ghost predicate Unmixed(hs: seq<HolderBalance>) {
    forall g, h :: g in hs && h in hs && g.owner == h.owner && g.participantId.Some? && h.participantId.Some? ==>
      (g.participantId.value == "" <==> h.participantId.value == "")
  }

  /** What every account order agrees on. */
  ghost predicate Consistent(hs: seq<HolderBalance>) {
    && (forall h :: h in hs ==> h.amount >= 0)
    && (forall g, h :: g in hs && h in hs && g.owner == h.owner ==> g.kind == h.kind)
    && (forall g, h :: g in hs && h in hs && g.owner == h.owner && g.participantId.Some? && h.participantId.Some? ==>
          g.participantId == h.participantId)
  }

  lemma {:induction false} FirstKindSeen(hs: seq<HolderBalance>, owner: string)
    requires owner in Owners(hs)
    ensures exists h :: h in hs && h.owner == owner && h.kind == FirstKind(hs, owner)
  {
    var k := |hs| - 1;
    if owner in Owners(hs[..k]) {
      FirstKindSeen(hs[..k], owner);
      var h :| h in hs[..k] && h.owner == owner && h.kind == FirstKind(hs[..k], owner);
      assert h in hs;
    } else {
      assert hs[k] in hs && hs[k].owner == owner;
    }
  }

  lemma {:induction false} FirstIdSeen(hs: seq<HolderBalance>, owner: string)
    ensures FirstId(hs, owner).Some? ==>
      exists h :: h in hs && h.owner == owner && h.participantId == FirstId(hs, owner)
    ensures FirstId(hs, owner).None? ==> forall h :: h in hs && h.owner == owner ==> h.participantId.None?
  {
    if hs != [] {
      var k := |hs| - 1;
      assert hs == hs[..k] + [hs[k]];
      FirstIdSeen(hs[..k], owner);
      if FirstId(hs[..k], owner).Some? {
        var h :| h in hs[..k] && h.owner == owner && h.participantId == FirstId(hs[..k], owner);
        assert h in hs;
      } else if FirstId(hs, owner).Some? {
        assert hs[k] in hs;
      }
    }
  }

  /** Without mixed ids the merge succeeds exactly on consistent accounts, whatever their order. */
  lemma {:induction false} MergesIffConsistent(hs: seq<HolderBalance>)
    requires Unmixed(hs)
    ensures MergeError(hs) == None <==> Consistent(hs)
  {
    if hs != [] {
      var k := |hs| - 1;
      var init, h := hs[..k], hs[k];
      assert hs == init + [h];
      assert forall x :: x in hs <==> x in init || x == h;
      MergesIffConsistent(init);
      OwnersAre(init);
      if h.owner in Owners(init) {
        FirstKindSeen(init, h.owner);
        FirstIdSeen(init, h.owner);
        if MergeError(hs) == None { LastJoins(init, h); }
        if Consistent(hs) { assert ErrorAt(init, h) == None; }
      } else {
        assert forall g :: g in init ==> g.owner != h.owner;
      }
    }
  }

  lemma LastJoins(init: seq<HolderBalance>, h: HolderBalance)
    requires Consistent(init) && ErrorAt(init, h) == None && h.owner in Owners(init)
    requires forall g :: g in init && g.owner == h.owner && g.participantId.Some? && h.participantId.Some? ==>
               (g.participantId.value == "" <==> h.participantId.value == "")
    ensures Consistent(init + [h])
  {
    FirstKindSeen(init, h.owner);
    FirstIdSeen(init, h.owner);
    assert forall x :: x in init + [h] <==> x in init || x == h;
  }

  lemma ConsistentOwner(hs: seq<HolderBalance>, hs': seq<HolderBalance>, owner: string)
    requires Consistent(hs) && multiset(hs) == multiset(hs')
    requires owner in Owners(hs) && owner in Owners(hs')
    ensures Summary(hs, owner) == Summary(hs', owner)
  {
    SamePermuted(hs, hs');
    SumPermutation(hs, hs', AmountFor(owner));
    FirstKindSeen(hs, owner);
    FirstKindSeen(hs', owner);
    FirstIdSeen(hs, owner);
    FirstIdSeen(hs', owner);
  }

  lemma SameOwners(hs: seq<HolderBalance>, hs': seq<HolderBalance>)
    requires multiset(hs) == multiset(hs')
    ensures forall o :: o in Owners(hs) <==> o in Owners(hs')
  {
    SamePermuted(hs, hs');
    OwnersAre(hs);
    OwnersAre(hs');
  }

  /** Accounts can be read in any order: the merge fails for all orders or for none, and a
      successful allocation is the same one. */
  lemma OrderIndependent(hs: seq<HolderBalance>, hs': seq<HolderBalance>, supply: int, pool: int)
    requires Unmixed(hs) && multiset(hs) == multiset(hs')
    ensures MergeError(hs) == None <==> MergeError(hs') == None
    ensures MergeError(hs) == None ==>
      SameHoldings(hs, hs') && Allocate(hs, supply, pool) == Allocate(hs', supply, pool)
    ensures Allocate(hs, supply, pool).Ok? <==> Allocate(hs', supply, pool).Ok?
  {
    SamePermuted(hs, hs');
    MergesIffConsistent(hs);
    MergesIffConsistent(hs');
    if Consistent(hs) {
      SameOwners(hs, hs');
      forall o | o in Owners(hs) && o in Owners(hs') ensures Summary(hs, o) == Summary(hs', o) {
        ConsistentOwner(hs, hs', o);
      }
      OnlyHoldingsMatter(hs, hs', supply, pool);
    }
  }

  lemma {:induction false} FirstIdOfHead(h: HolderBalance, rest: seq<HolderBalance>)
    requires h.participantId.Some?
    ensures FirstId([h] + rest, h.owner) == h.participantId
  {
    if rest == [] {
      assert [h] + rest == [h] && [h][..0] == [];
      assert FirstId([h], h.owner) == h.participantId;
    } else {
      FirstIdOfHead(h, rest[..|rest| - 1]);
      assert ([h] + rest)[..|[h] + rest| - 1] == [h] + rest[..|rest| - 1];
    }
  }

  lemma BringToFront(hs: seq<HolderBalance>, i: nat) returns (p: seq<HolderBalance>)
    requires i < |hs|
    ensures multiset(p) == multiset(hs) && p != [] && p[0] == hs[i] && p == [hs[i]] + p[1..]
  {
    p := [hs[i]] + (hs[..i] + hs[i + 1..]);
    assert hs == hs[..i] + [hs[i]] + hs[i + 1..];
  }

  /** All orders of the accounts merge, and to the same holdings. */
  ghost predicate EveryOrderAgrees(hs: seq<HolderBalance>) {
    forall p :: multiset(p) == multiset(hs) ==> MergeError(p) == None && SameHoldings(hs, p)
  }

  /** For accounts that merge at all, the order is irrelevant exactly when no owner mixes an
      empty id with a non-empty one: an empty id that comes first hides the others. */
  lemma OrderMattersIffMixed(hs: seq<HolderBalance>)
    requires MergeError(hs) == None
    ensures EveryOrderAgrees(hs) <==> Unmixed(hs)
  {
    if Unmixed(hs) {
      forall p | multiset(p) == multiset(hs) ensures MergeError(p) == None && SameHoldings(hs, p) {
        OrderIndependent(hs, p, 1, 0);
      }
    }
    if EveryOrderAgrees(hs) {
      forall g, h | g in hs && h in hs && g.owner == h.owner && g.participantId.Some? && h.participantId.Some?
        ensures g.participantId == h.participantId
      {
        AgreedId(hs, g);
        AgreedId(hs, h);
      }
    }
  }

  /** If every order agrees, the owner's id is the one any of its accounts would bring first. */
  lemma AgreedId(hs: seq<HolderBalance>, g: HolderBalance)
    requires EveryOrderAgrees(hs) && g in hs && g.participantId.Some?
    ensures FirstId(hs, g.owner) == g.participantId
  {
    var i :| 0 <= i < |hs| && hs[i] == g;
    var p := BringToFront(hs, i);
    FirstIdOfHead(g, p[1..]);
    OwnersAre(hs);
    OwnersAre(p);
    assert g in p;
    assert MergeError(p) == None && SameHoldings(hs, p);
    assert Summary(hs, g.owner) == Summary(p, g.owner);
  }

  // ------------------------------------------------------------------ classified balances

  lemma {:induction false} ClassifiedConsistent(bs: seq<TokenBalance>, pools: set<string>, ps: seq<ParticipantStatus>)
    requires forall b :: b in bs ==> b.amount >= 0
    ensures Unmixed(ClassifyHolders(bs, pools, ps)) && Consistent(ClassifyHolders(bs, pools, ps))
  {
    hide ClassifyOne;
    var hs := ClassifyHolders(bs, pools, ps);
    forall h | h in hs ensures h.amount >= 0 {
      var i :| 0 <= i < |hs| && hs[i] == h;
      assert bs[i] in bs;
      ClassifiedByOwner(bs[i], bs[i], pools, ps);
    }
    forall g, h | g in hs && h in hs && g.owner == h.owner ensures SameRegistration(g, h) {
      var i :| 0 <= i < |hs| && hs[i] == g;
      var j :| 0 <= j < |hs| && hs[j] == h;
      ClassifiedByOwner(bs[i], bs[j], pools, ps);
    }
    RegisteredConsistent(hs);
  }

  /** Classification looks at the owner only. */
  lemma ClassifiedByOwner(b: TokenBalance, c: TokenBalance, pools: set<string>, ps: seq<ParticipantStatus>)
    ensures var g, h := ClassifyOne(b, pools, ps), ClassifyOne(c, pools, ps);
      && g.amount == b.amount && (g.owner == h.owner ==> SameRegistration(g, h))
  {
  }

  lemma RegisteredConsistent(hs: seq<HolderBalance>)
    requires forall h :: h in hs ==> h.amount >= 0
    requires forall g, h :: g in hs && h in hs && g.owner == h.owner ==> SameRegistration(g, h)
    ensures Unmixed(hs) && Consistent(hs)
  {
    forall g, h | g in hs && h in hs && g.owner == h.owner
      ensures g.kind == h.kind && g.participantId == h.participantId
    {
      assert SameRegistration(g, h);
    }
  }

  predicate SameRegistration(g: HolderBalance, h: HolderBalance) {
    g.kind == h.kind && g.participantId == h.participantId
  }

  /** Balances classified by the registry never trip the conflict checks of the merge, so their
      allocation is the same for every account order. */
  lemma ClassifiedNeverConflict(bs: seq<TokenBalance>, pools: set<string>, ps: seq<ParticipantStatus>)
    requires forall b :: b in bs ==> b.amount >= 0
    ensures MergeError(ClassifyHolders(bs, pools, ps)) == None
    ensures EveryOrderAgrees(ClassifyHolders(bs, pools, ps))
  {
    ClassifiedConsistent(bs, pools, ps);
    MergesIffConsistent(ClassifyHolders(bs, pools, ps));
    OrderMattersIffMixed(ClassifyHolders(bs, pools, ps));
  }

  /** With a negative balance among them the merge reports just that. */
  lemma ClassifiedErrorIsNegative(bs: seq<TokenBalance>, pools: set<string>, ps: seq<ParticipantStatus>)
    ensures var e := MergeError(ClassifyHolders(bs, pools, ps));
            e.Some? ==> e.value.NegativeBalance? && exists b :: b in bs && b.amount < 0
  {
    var hs := ClassifyHolders(bs, pools, ps);
    if forall b :: b in bs ==> b.amount >= 0 {
      ClassifiedNeverConflict(bs, pools, ps);
    } else {
      FirstErrorNegative(bs, pools, ps);
    }
  }

  /** An owner's next account carries the kind and id of the first. */
  lemma RegisteredJoins(bs: seq<TokenBalance>, pools: set<string>, ps: seq<ParticipantStatus>)
    requires bs != []
    ensures var hs, k := ClassifyHolders(bs, pools, ps), |bs| - 1;
      var e := ErrorAt(hs[..k], hs[k]); e.Some? ==> e.value.NegativeBalance?
  {
    hide ClassifyOne, Owners, FirstKind, FirstId;
    var hs, k := ClassifyHolders(bs, pools, ps), |bs| - 1;
    if hs[k].owner in Owners(hs[..k]) { FirstKindSeen(hs[..k], hs[k].owner); }
    FirstIdSeen(hs[..k], hs[k].owner);
    forall g | g in hs[..k] && g.owner == hs[k].owner ensures SameRegistration(g, hs[k]) {
      var i :| 0 <= i < k && hs[i] == g;
      ClassifiedByOwner(bs[i], bs[k], pools, ps);
    }
  }

  lemma {:induction false} FirstErrorNegative(bs: seq<TokenBalance>, pools: set<string>, ps: seq<ParticipantStatus>)
    ensures var e := MergeError(ClassifyHolders(bs, pools, ps)); e.Some? ==> e.value.NegativeBalance?
  {
    if bs != [] {
      hide ErrorAt, ClassifyOne, Owners;
      var k := |bs| - 1;
      var hs := ClassifyHolders(bs, pools, ps);
      FirstErrorNegative(bs[..k], pools, ps);
      assert hs[..k] == ClassifyHolders(bs[..k], pools, ps);
      RegisteredJoins(bs, pools, ps);
    }
  }

  // ------------------------------------------------------------------ what is refused

  function AmountOf(h: HolderBalance): int { h.amount }

  lemma {:induction false} HeldSums(hs: seq<HolderBalance>)
    ensures Sum(hs, AmountOf) == Held(hs, Participant) + Held(hs, Pool) + Held(hs, Unregistered)
  {
    if hs != [] { HeldSums(hs[..|hs| - 1]); }
  }

  /** When a snapshot is allocated and what is reported when it is not: the first of these that fails. */
  lemma AllocatesIff(hs: seq<HolderBalance>, supply: int, pool: int)
    ensures var r := Allocate(hs, supply, pool);
      && (r.Ok? <==> supply > 0 && pool >= 0 && MergeError(hs) == None && Sum(hs, AmountOf) <= supply)
      && (r == Err(SupplyNotPositive) <==> supply <= 0)
      && (r == Err(NegativePool) <==> supply > 0 && pool < 0)
      && (r == Err(BalancesExceedSupply) <==>
            supply > 0 && pool >= 0 && MergeError(hs) == None && Sum(hs, AmountOf) > supply)
      && (forall e :: supply > 0 && pool >= 0 && MergeError(hs) == Some(e) ==> r == Err(e))
  {
    hide Merged, ErrorAt;
    MergeErrorKinds(hs);
    if MergeError(hs) == None {
      KindSums(Merged(hs));
      MergeKeepsKinds(hs, Participant);
      MergeKeepsKinds(hs, Pool);
      MergeKeepsKinds(hs, Unregistered);
      HeldSums(hs);
    }
  }

  lemma {:induction false} MergeErrorKinds(hs: seq<HolderBalance>)
    ensures MergeError(hs).Some? ==>
      MergeError(hs).value.NegativeBalance? || MergeError(hs).value.ConflictingKinds?
      || MergeError(hs).value.ConflictingIds?
  {
    if hs != [] { MergeErrorKinds(hs[..|hs| - 1]); }
  }

  /** Account `j` is the first of its owner to carry an id. */
  ghost predicate FirstCarrier(hs: seq<HolderBalance>, owner: string, j: nat) {
    && j < |hs| && hs[j].owner == owner && hs[j].participantId.Some?
    && forall k :: 0 <= k < j && hs[k].owner == owner ==> hs[k].participantId.None?
  }

  /** Account `i` cannot join those before it: its balance is negative; or one of its owner's is of
      another kind; or it carries a non-empty id other than the non-empty one its owner got first. */
  ghost predicate Stops(hs: seq<HolderBalance>, i: nat, e: AllocationError) {
    && i < |hs|
    && var h := hs[i];
       var otherKind := exists j :: 0 <= j < i && hs[j].owner == h.owner && hs[j].kind != h.kind;
       if h.amount < 0 then e == NegativeBalance(h.tokenAccount)
       else if otherKind then e == ConflictingKinds(h.owner)
       else
         && e == ConflictingIds(h.owner) && Truthy(h.participantId)
         && exists j: nat :: j < i && FirstCarrier(hs, h.owner, j) && Truthy(hs[j].participantId)
              && hs[j].participantId != h.participantId
  }

  lemma {:induction false} FirstIdCarried(hs: seq<HolderBalance>, owner: string)
    ensures FirstId(hs, owner).Some? <==> exists j: nat :: FirstCarrier(hs, owner, j)
    ensures forall j: nat :: FirstCarrier(hs, owner, j) ==> FirstId(hs, owner) == hs[j].participantId
  {
    if hs != [] {
      var n := |hs| - 1;
      var init := hs[..n];
      FirstIdCarried(init, owner);
      forall j: nat | j < n ensures FirstCarrier(hs, owner, j) <==> FirstCarrier(init, owner, j) {
        assert hs[j] == init[j];
      }
      if FirstId(init, owner).Some? {
        var j: nat :| FirstCarrier(init, owner, j);
        assert FirstCarrier(hs, owner, j);
      } else if FirstId(hs, owner).Some? {
        forall k | 0 <= k < n && hs[k].owner == owner ensures hs[k].participantId.None? {
          FirstIdSeen(init, owner);
          assert init[k] in init;
        }
        assert FirstCarrier(hs, owner, n);
      }
    }
  }

  lemma {:induction false} MergedKinds(hs: seq<HolderBalance>, owner: string)
    requires MergeError(hs) == None && owner in Owners(hs)
    ensures forall j :: 0 <= j < |hs| && hs[j].owner == owner ==> hs[j].kind == FirstKind(hs, owner)
  {
    var n := |hs| - 1;
    if owner in Owners(hs[..n]) { MergedKinds(hs[..n], owner); }
    forall j | 0 <= j < n && hs[j].owner == owner ensures owner in Owners(hs[..n]) && hs[j] == hs[..n][j] {
      OwnersAre(hs[..n]);
      assert hs[..n][j] in hs[..n];
    }
  }

  lemma LastStops(hs: seq<HolderBalance>, e: AllocationError)
    requires hs != [] && MergeError(hs[..|hs| - 1]) == None
    ensures ErrorAt(hs[..|hs| - 1], hs[|hs| - 1]) == Some(e) <==> Stops(hs, |hs| - 1, e)
  {
    hide FirstCarrier, Owners, FirstKind, FirstId;
    var n := |hs| - 1;
    var init, h := hs[..n], hs[n];
    LastKind(hs);
    LastCarrier(hs);
  }

  /** Whether the last account is of another kind than one before it. */
  lemma LastKind(hs: seq<HolderBalance>)
    requires hs != [] && MergeError(hs[..|hs| - 1]) == None
    ensures var n := |hs| - 1; var init, h := hs[..n], hs[n];
      (exists j :: 0 <= j < n && hs[j].owner == h.owner && hs[j].kind != h.kind) <==>
        h.owner in Owners(init) && FirstKind(init, h.owner) != h.kind
  {
    var n := |hs| - 1;
    var init, h := hs[..n], hs[n];
    OwnersAre(init);
    assert forall j: nat :: j < n ==> init[j] == hs[j];
    if h.owner in Owners(init) {
      MergedKinds(init, h.owner);
      FirstKindSeen(init, h.owner);
      var g :| g in init && g.owner == h.owner && g.kind == FirstKind(init, h.owner);
      var i :| 0 <= i < n && init[i] == g;
      assert hs[i].owner == h.owner;
    } else {
      forall j | 0 <= j < n ensures hs[j].owner != h.owner { assert init[j] in init; }
    }
  }

  /** Whose id its owner got first. */
  lemma LastCarrier(hs: seq<HolderBalance>)
    requires hs != []
    ensures var n := |hs| - 1; var init, h := hs[..n], hs[n];
      && (FirstId(init, h.owner).Some? <==> exists j: nat :: j < n && FirstCarrier(hs, h.owner, j))
      && (forall j: nat :: j < n && FirstCarrier(hs, h.owner, j) ==> FirstId(init, h.owner) == hs[j].participantId)
      && (h.owner !in Owners(init) ==> FirstId(init, h.owner).None?)
  {
    hide Owners, FirstId;
    var n := |hs| - 1;
    var init, h := hs[..n], hs[n];
    FirstIdCarried(init, h.owner);
    if h.owner !in Owners(init) { OwnerNotSeen(init, h.owner); }
    forall j: nat | j < n ensures FirstCarrier(init, h.owner, j) <==> FirstCarrier(hs, h.owner, j) {
      assert init[j] == hs[j];
    }
  }

  /** The merge fails with `e` exactly when `e` is why the first account that cannot join cannot. */
  lemma {:induction false} MergeErrorIs(hs: seq<HolderBalance>, e: AllocationError)
    ensures MergeError(hs) == Some(e) <==>
      exists i: nat :: Stops(hs, i, e) && forall j: nat, e' :: j < i ==> !Stops(hs, j, e')
    ensures MergeError(hs) == None ==> forall j: nat, e' :: !Stops(hs, j, e')
  {
    if hs != [] {
      var n := |hs| - 1;
      var init := hs[..n];
      MergeErrorIs(init, e);
      forall j: nat, e' | j < n ensures Stops(hs, j, e') <==> Stops(init, j, e') { SameStop(hs, j, e'); }
      if MergeError(init) == None {
        forall e' ensures ErrorAt(init, hs[n]) == Some(e') <==> Stops(hs, n, e') { LastStops(hs, e'); }
      } else {
        var first := MergeError(init).value;
        MergeErrorIs(init, first);
      }
    }
  }

  lemma SameStop(hs: seq<HolderBalance>, j: nat, e: AllocationError)
    requires j < |hs| - 1
    ensures Stops(hs, j, e) <==> Stops(hs[..|hs| - 1], j, e)
  {
    var init := hs[..|hs| - 1];
    assert forall k: nat :: k < |init| ==> init[k] == hs[k];
    assert forall k: nat :: k < j ==> (FirstCarrier(hs, hs[j].owner, k) <==> FirstCarrier(init, hs[j].owner, k));
  }

  // ------------------------------------------------------------------ who is paid

  /** Registration `k` is the last of that wallet to have accepted the agreement and to be on the
      allowlist. */
  ghost predicate LastEligible(ps: seq<ParticipantStatus>, wallet: string, k: nat) {
    && k < |ps| && ps[k].wallet == wallet && ps[k].agreementAccepted && ps[k].allowlisted
    && forall j :: k < j < |ps| && ps[j].wallet == wallet ==> !(ps[j].agreementAccepted && ps[j].allowlisted)
  }

  /** The wallet is no pool's, and that registration of it carries the non-empty id. */
  ghost predicate EligibleAs(pools: set<string>, ps: seq<ParticipantStatus>, wallet: string, id: string) {
    wallet !in pools && id != "" && exists k: nat :: LastEligible(ps, wallet, k) && ps[k].id == id
  }

  lemma {:induction false} EligibleIdIs(ps: seq<ParticipantStatus>, wallet: string, id: string)
    ensures EligibleId(ps, wallet) == Some(id) <==> exists k: nat :: LastEligible(ps, wallet, k) && ps[k].id == id
  {
    if ps != [] {
      var n := |ps| - 1;
      var p, init := ps[n], ps[..n];
      EligibleIdIs(init, wallet, id);
      if p.agreementAccepted && p.allowlisted && p.wallet == wallet {
        assert LastEligible(ps, wallet, n);
      } else {
        forall k: nat ensures LastEligible(ps, wallet, k) <==> LastEligible(init, wallet, k) {
          if k < n { assert ps[k] == init[k]; }
        }
      }
    }
  }

  /** What a balance is taken for: a pool's if its owner is one; a participant's if its owner's last
      eligible registration has an id; nobody's otherwise. */
  lemma ClassifiedIff(bs: seq<TokenBalance>, pools: set<string>, ps: seq<ParticipantStatus>, i: nat)
    requires i < |bs|
    ensures var b, h := bs[i], ClassifyHolders(bs, pools, ps)[i];
      && h.owner == b.owner && h.tokenAccount == b.tokenAccount && h.amount == b.amount
      && (h.kind == Pool <==> b.owner in pools)
      && (h.kind == Participant <==> exists id :: EligibleAs(pools, ps, b.owner, id))
      && (forall id :: h.participantId == Some(id) <==> EligibleAs(pools, ps, b.owner, id))
  {
    hide EligibleId, LastEligible;
    forall id { EligibleIdIs(ps, bs[i].owner, id); }
    var h := ClassifyHolders(bs, pools, ps)[i];
    assert h == ClassifyOne(bs[i], pools, ps);
    if h.kind == Participant { assert EligibleAs(pools, ps, bs[i].owner, h.participantId.value); }
    if id :| EligibleAs(pools, ps, bs[i].owner, id) { EligibleIdIs(ps, bs[i].owner, id); }
  }

  function BalanceFor(owner: string): TokenBalance -> int {
    (b: TokenBalance) => if b.owner == owner then b.amount else 0
  }

  lemma {:induction false} ClassifiedTokens(bs: seq<TokenBalance>, pools: set<string>, ps: seq<ParticipantStatus>,
                                            owner: string)
    ensures TokensOf(ClassifyHolders(bs, pools, ps), owner) == Sum(bs, BalanceFor(owner))
  {
    if bs != [] {
      var k, hs := |bs| - 1, ClassifyHolders(bs, pools, ps);
      ClassifiedTokens(bs[..k], pools, ps, owner);
      assert hs[..k] == ClassifyHolders(bs[..k], pools, ps);
      ClassifiedIff(bs, pools, ps, k);
    }
  }

  /** From the registry to the table: paid are exactly the eligible holders, each under the id of its
      registration, the floor of the share of all it holds. */
  lemma PaidAreEligible(bs: seq<TokenBalance>, pools: set<string>, ps: seq<ParticipantStatus>, supply: int, pool: int)
    requires Allocate(ClassifyHolders(bs, pools, ps), supply, pool).Ok?
    ensures var rows := Allocate(ClassifyHolders(bs, pools, ps), supply, pool).value.rows;
      && (forall x :: x in rows ==>
            && x.participantId.Some? && EligibleAs(pools, ps, x.owner, x.participantId.value)
            && x.tokens == Sum(bs, BalanceFor(x.owner)) && FloorOf(x.payout, x.tokens * pool, supply))
      && (forall b, id :: b in bs && EligibleAs(pools, ps, b.owner, id) ==> exists x :: x in rows && x.owner == b.owner)
  {
    hide Allocate, Owners, FirstKind, FirstId, EligibleAs, ClassifyOne, TokensOf;
    var hs := ClassifyHolders(bs, pools, ps);
    var rows := Allocate(hs, supply, pool).value.rows;
    RowsAreExact(hs, supply, pool);
    AllocatesIff(hs, supply, pool);
    OwnersAre(hs);
    forall x | x in rows
      ensures x.participantId.Some? && EligibleAs(pools, ps, x.owner, x.participantId.value)
      ensures x.tokens == Sum(bs, BalanceFor(x.owner)) && FloorOf(x.payout, x.tokens * pool, supply)
    {
      assert ExactRow(hs, supply, pool, x);
      ClassifiedTokens(bs, pools, ps, x.owner);
      OwnerRegistered(bs, pools, ps, x.owner);
    }
    forall b, id | b in bs && EligibleAs(pools, ps, b.owner, id) ensures exists x :: x in rows && x.owner == b.owner {
      var i :| 0 <= i < |bs| && bs[i] == b;
      ClassifiedIff(bs, pools, ps, i);
      assert hs[i] in hs && hs[i].owner == b.owner;
      OwnerRegistered(bs, pools, ps, b.owner);
    }
  }

  /** An owner's kind and id over all its accounts are those of each. */
  lemma OwnerRegistered(bs: seq<TokenBalance>, pools: set<string>, ps: seq<ParticipantStatus>, owner: string)
    requires owner in Owners(ClassifyHolders(bs, pools, ps))
    ensures var hs := ClassifyHolders(bs, pools, ps);
      && (FirstKind(hs, owner) == Participant <==> exists id :: EligibleAs(pools, ps, owner, id))
      && (FirstKind(hs, owner) == Participant ==>
            FirstId(hs, owner).Some? && EligibleAs(pools, ps, owner, FirstId(hs, owner).value))
  {
    hide EligibleAs, ClassifyOne;
    var hs := ClassifyHolders(bs, pools, ps);
    FirstKindSeen(hs, owner);
    FirstIdSeen(hs, owner);
    var h :| h in hs && h.owner == owner && h.kind == FirstKind(hs, owner);
    var i :| 0 <= i < |hs| && hs[i] == h;
    ClassifiedIff(bs, pools, ps, i);
    if FirstId(hs, owner).Some? {
      var g :| g in hs && g.owner == owner && g.participantId == FirstId(hs, owner);
      var j :| 0 <= j < |hs| && hs[j] == g;
      ClassifiedIff(bs, pools, ps, j);
    }
  }
}
