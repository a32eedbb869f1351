/** `buildClaimTree` and `verifyClaimProof` in the program's own form: loops that push siblings
    onto per-wallet proof lists, hex strings at the interface. */
module ClaimTree {
  import opened Wrappers
  import opened Text
  import opened Sorting
  import opened Merkle

  /** A row as the caller hands it over; the payout is any bigint. */
  datatype ClaimLeafInput = ClaimLeafInput(distributionId: string, wallet: string, payout: int)

  datatype ClaimError = DuplicateWallet(wallet: string) | NegativePayout

  datatype BuiltTree = BuiltTree(root: string, proofs: map<string, seq<string>>)

  datatype LevelNode = LevelNode(hash: Digest, wallets: seq<string>)

  function HexAll(ds: seq<Digest>): (hs: seq<string>)
    ensures |hs| == |ds| && forall i :: 0 <= i < |ds| ==> hs[i] == Hex(ds[i])
  {
    seq(|ds|, i requires 0 <= i < |ds| => Hex(ds[i]))
  }

  ghost predicate NonNegative(rows: seq<ClaimLeafInput>) {
    forall i :: 0 <= i < |rows| ==> rows[i].payout >= 0
  }

  function Typed(rows: seq<ClaimLeafInput>): (rs: seq<ClaimRow>)
    requires forall i :: 0 <= i < |rows| ==> rows[i].payout >= 0
    ensures |rs| == |rows|
    ensures forall i :: 0 <= i < |rows| ==> rs[i] == ClaimRow(rows[i].distributionId, rows[i].wallet, rows[i].payout)
  {
    seq(|rows|, i requires 0 <= i < |rows| => ClaimRow(rows[i].distributionId, rows[i].wallet, rows[i].payout))
  }

  ghost predicate UniqueWallets(rows: seq<ClaimLeafInput>) {
    forall i, j :: 0 <= i < j < |rows| ==> rows[i].wallet != rows[j].wallet
  }

  // ------------------------------------------------------------------ what the loops keep

  /** A working node stands for a tree. */
  ghost predicate Mirrors(sha: Hasher, node: LevelNode, t: Tree) {
    node.hash == Hash(sha, t) && node.wallets == WalletsOf(t)
  }

  ghost predicate AllMirror(sha: Hasher, nodes: seq<LevelNode>, level: seq<Tree>) {
    && |nodes| == |level|
    && forall i :: 0 <= i < |level| ==> Mirrors(sha, nodes[i], level[i])
  }

  /** The wallets under a level, left to right. */
  ghost function Under(level: seq<Tree>): seq<string> {
    if level == [] then [] else WalletsOf(level[0]) + Under(level[1..])
  }

  /** Every wallet of `t` holds the path inside `t`. */
  ghost predicate Proven(sha: Hasher, proofs: map<string, seq<string>>, t: Tree) {
    forall w :: w in WalletsOf(t) ==> w in proofs && proofs[w] == HexAll(Path(sha, t, w))
  }

  ghost predicate AllProven(sha: Hasher, proofs: map<string, seq<string>>, level: seq<Tree>) {
    forall t :: t in level ==> Proven(sha, proofs, t)
  }

  lemma {:induction false} UnderConcat(x: seq<Tree>, y: seq<Tree>)
    ensures Under(x + y) == Under(x) + Under(y)
  {
    hide WalletsOf;
    if x == [] {
      assert x + y == y;
    } else {
      UnderConcat(x[1..], y);
      assert (x + y)[1..] == x[1..] + y;
      Regroup(WalletsOf(x[0]), Under(x[1..]), Under(y));
    }
  }

  lemma {:induction false} UnderIsForest(level: seq<Tree>)
    ensures Under(level) == Wallets(ForestRows(level))
  {
    if level != [] {
      UnderIsForest(level[1..]);
      WalletsOfRows(level[0]);
    }
  }

  lemma {:induction false} InUnder(level: seq<Tree>, t: Tree, w: string)
    requires t in level && w in WalletsOf(t)
    ensures w in Under(level)
  {
    if t != level[0] { InUnder(level[1..], t, w); }
  }

  lemma NoDupParts(p: seq<string>, q: seq<string>, w: string)
    requires NoDup(p + q)
    ensures NoDup(p) && NoDup(q)
    ensures w in p ==> w !in q
  {
    var s := p + q;
    forall i, j | 0 <= i < j < |p| ensures p[i] != p[j] { assert s[i] == p[i] && s[j] == p[j]; }
    forall i, j | 0 <= i < j < |q| ensures q[i] != q[j] { assert s[|p| + i] == q[i] && s[|p| + j] == q[j]; }
    if w in p {
      var i :| 0 <= i < |p| && p[i] == w;
      forall j | 0 <= j < |q| ensures q[j] != w { assert s[i] == w && s[|p| + j] == q[j]; }
    }
  }

  // ------------------------------------------------------------------ building

  /** `for (const w of wallets) proofs.get(w)!.push(h)`. */
  method PushAll(proofs: map<string, seq<string>>, wallets: seq<string>, h: string)
    returns (pushed: map<string, seq<string>>)
    requires NoDup(wallets) && forall w :: w in wallets ==> w in proofs
    ensures pushed.Keys == proofs.Keys
    ensures forall w :: w in proofs ==> pushed[w] == if w in wallets then proofs[w] + [h] else proofs[w]
  {
    pushed := proofs;
    for i := 0 to |wallets|
      invariant pushed.Keys == proofs.Keys
      invariant forall w :: w in proofs ==> pushed[w] == if w in wallets[..i] then proofs[w] + [h] else proofs[w]
    {
      var w := wallets[i];
      assert w !in wallets[..i];
      assert wallets[..i + 1] == wallets[..i] + [w];
      pushed := pushed[w := pushed[w] + [h]];
    }
    assert wallets[..|wallets|] == wallets;
  }

  /** The proof of `w` after the trees `a` and `b` were joined. */
  ghost function Joined(sha: Hasher, proof: seq<string>, a: Tree, b: Tree, w: string): seq<string> {
    if w in WalletsOf(a) then proof + [Hex(Hash(sha, b))]
    else if w in WalletsOf(b) then proof + [Hex(Hash(sha, a))]
    else proof
  }

  lemma HexAllAppend(ds: seq<Digest>, d: Digest)
    ensures HexAll(ds + [d]) == HexAll(ds) + [Hex(d)]
  {
  }

  /** Joining two neighbours extends their own paths and leaves every other wallet alone. */
  lemma JoinKeeps(sha: Hasher, before: map<string, seq<string>>, after: map<string, seq<string>>,
                  x: seq<Tree>, a: Tree, b: Tree, y: seq<Tree>)
    requires NoDup(Under(x) + (WalletsOf(a) + WalletsOf(b) + Under(y)))
    requires AllProven(sha, before, x) && Proven(sha, before, a) && Proven(sha, before, b) && AllProven(sha, before, y)
    requires after.Keys == before.Keys
    requires forall w :: w in before ==> after[w] == Joined(sha, before[w], a, b, w)
    ensures AllProven(sha, after, x) && Proven(sha, after, Node(a, b)) && AllProven(sha, after, y)
  {
    var wa, wb := WalletsOf(a), WalletsOf(b);
    forall w
      ensures w in Under(x) ==> w !in wa && w !in wb
      ensures w in Under(y) ==> w !in wa && w !in wb
      ensures w in wa ==> w !in wb
    {
      NoDupParts(Under(x), wa + wb + Under(y), w);
      NoDupParts(wa + wb, Under(y), w);
      NoDupParts(wa, wb, w);
    }
    forall t, w | (t in x || t in y) && w in WalletsOf(t)
      ensures w in after && after[w] == HexAll(Path(sha, t, w))
    {
      if t in x { InUnder(x, t, w); } else { InUnder(y, t, w); }
    }
    forall w | w in WalletsOf(Node(a, b))
      ensures w in after && after[w] == HexAll(Path(sha, Node(a, b), w))
    {
      if w in wa {
        HexAllAppend(Path(sha, a, w), Hash(sha, b));
      } else {
        HexAllAppend(Path(sha, b, w), Hash(sha, a));
      }
    }
  }

  /** Joins two neighbours: their wallets learn the other's digest. */
  method JoinTwo(sha: Hasher, a: LevelNode, b: LevelNode, proofs: map<string, seq<string>>,
                 ghost up: seq<Tree>, ghost ta: Tree, ghost tb: Tree, ghost later: seq<Tree>)
    returns (node: LevelNode, grown: map<string, seq<string>>)
    requires Mirrors(sha, a, ta) && Mirrors(sha, b, tb)
    requires NoDup(Under(up) + (WalletsOf(ta) + WalletsOf(tb) + Under(later)))
    requires AllProven(sha, proofs, up) && AllProven(sha, proofs, later)
    requires Proven(sha, proofs, ta) && Proven(sha, proofs, tb)
    ensures Mirrors(sha, node, Node(ta, tb)) && grown.Keys == proofs.Keys
    ensures AllProven(sha, grown, up) && Proven(sha, grown, Node(ta, tb)) && AllProven(sha, grown, later)
  {
    NoDupAround(Under(up), a.wallets, b.wallets, Under(later));
    grown := PushAll(proofs, a.wallets, Hex(b.hash));
    grown := PushAll(grown, b.wallets, Hex(a.hash));
    assert forall w :: w in proofs ==> grown[w] == Joined(sha, proofs[w], ta, tb, w);
    JoinKeeps(sha, proofs, grown, up, ta, tb, later);
    node := LevelNode(HashPair(sha, a.hash, b.hash), a.wallets + b.wallets);
  }

  /** Half way through a pass: `up` is finished, `rest` is still to be paired. */
  ghost predicate Passing(sha: Hasher, next: seq<LevelNode>, nodes: seq<LevelNode>, proofs: map<string, seq<string>>,
                          level: seq<Tree>, up: seq<Tree>, rest: seq<Tree>)
  {
    && up + Pair(rest) == Pair(level)
    && Under(up) + Under(rest) == Under(level)
    && AllMirror(sha, next, up) && AllMirror(sha, nodes, rest)
    && AllProven(sha, proofs, up) && AllProven(sha, proofs, rest)
  }

  /** One pass of the outer loop: from one level to the next. */
  method NextLevel(sha: Hasher, nodes: seq<LevelNode>, proofs: map<string, seq<string>>, ghost level: seq<Tree>)
    returns (next: seq<LevelNode>, grown: map<string, seq<string>>)
    requires NoDup(Under(level))
    requires AllMirror(sha, nodes, level) && AllProven(sha, proofs, level)
    ensures AllMirror(sha, next, Pair(level)) && AllProven(sha, grown, Pair(level))
    ensures grown.Keys == proofs.Keys
  {
    hide WalletsOf, Under, Pair, Hash, HashPair, Path, NoDup, ForestRows, Mirrors;
    next, grown := [], proofs;
    ghost var up, rest := [], level;
    assert nodes[0..] == nodes;
    PassStart(sha, nodes, proofs, level);
    var i := 0;
    while i < |nodes|
      invariant 0 <= i <= |nodes| && |rest| == |nodes| - i
      invariant Passing(sha, next, nodes[i..], grown, level, up, rest)
      invariant grown.Keys == proofs.Keys
    {
      var a := nodes[i];
      assert nodes[i..][0] == a;
      if i + 1 >= |nodes| {
        PromoteOdd(up, rest);
        assert nodes[|nodes|..] == [];
        next := next + [a];
        up, rest := up + rest, [];
        i := |nodes|;
      } else {
        var b := nodes[i + 1];
        assert nodes[i..][1] == b && nodes[i..][2..] == nodes[i + 2..];
        JoinNext(up, rest);
        assert Mirrors(sha, a, rest[0]) && Mirrors(sha, b, rest[1]);
        var node;
        node, grown := JoinTwo(sha, a, b, grown, up, rest[0], rest[1], rest[2..]);
        PassOn(sha, next, node, nodes[i..], grown, level, up, rest);
        next := next + [node];
        up, rest := up + [Node(rest[0], rest[1])], rest[2..];
        i := i + 2;
      }
    }
  }

  lemma PassStart(sha: Hasher, nodes: seq<LevelNode>, proofs: map<string, seq<string>>, level: seq<Tree>)
    requires AllMirror(sha, nodes, level) && AllProven(sha, proofs, level)
    ensures Passing(sha, [], nodes, proofs, level, [], level)
  {
    assert [] + Pair(level) == Pair(level) && Under([]) + Under(level) == Under(level);
  }

  lemma PassOn(sha: Hasher, next: seq<LevelNode>, node: LevelNode, nodes: seq<LevelNode>,
               proofs: map<string, seq<string>>, level: seq<Tree>, up: seq<Tree>, rest: seq<Tree>)
    requires |rest| > 1 && |nodes| > 1
    requires up + Pair(rest) == Pair(level) && Under(up) + Under(rest) == Under(level)
    requires AllMirror(sha, next, up) && AllMirror(sha, nodes, rest)
    requires Mirrors(sha, node, Node(rest[0], rest[1]))
    requires AllProven(sha, proofs, up) && AllProven(sha, proofs, rest[2..])
    requires Proven(sha, proofs, Node(rest[0], rest[1]))
    ensures Passing(sha, next + [node], nodes[2..], proofs, level, up + [Node(rest[0], rest[1])], rest[2..])
  {
    hide Under, WalletsOf, Pair, Mirrors, Proven;
    JoinNext(up, rest);
  }

  lemma PromoteOdd(up: seq<Tree>, rest: seq<Tree>)
    requires |rest| == 1
    ensures Under(up + rest) + Under([]) == Under(up) + Under(rest)
    ensures up + rest + Pair([]) == up + Pair(rest)
  {
    UnderConcat(up, rest);
  }

  lemma JoinNext(up: seq<Tree>, rest: seq<Tree>)
    requires |rest| > 1
    ensures up + [Node(rest[0], rest[1])] + Pair(rest[2..]) == up + Pair(rest)
    ensures Under(up) + Under(rest) == Under(up) + (WalletsOf(rest[0]) + WalletsOf(rest[1]) + Under(rest[2..]))
    ensures Under(up + [Node(rest[0], rest[1])]) + Under(rest[2..]) == Under(up) + Under(rest)
  {
    hide Under, WalletsOf, Pair;
    var n := Node(rest[0], rest[1]);
    UnderPair(rest);
    PairHead(rest);
    UnderConcat(up, [n]);
    UnderOne(n);
    Regroup(Under(up), WalletsOf(n), Under(rest[2..]));
    assert up + [n] + Pair(rest[2..]) == up + ([n] + Pair(rest[2..]));
  }

  lemma PairHead(rest: seq<Tree>)
    requires |rest| > 1
    ensures Pair(rest) == [Node(rest[0], rest[1])] + Pair(rest[2..])
    ensures WalletsOf(Node(rest[0], rest[1])) == WalletsOf(rest[0]) + WalletsOf(rest[1])
  {
  }

  lemma UnderOne(t: Tree)
    ensures Under([t]) == WalletsOf(t)
  {
    assert Under([t]) == WalletsOf(t) + Under([]);
  }

  lemma UnderPair(rest: seq<Tree>)
    requires |rest| > 1
    ensures Under(rest) == WalletsOf(Node(rest[0], rest[1])) + Under(rest[2..])
  {
    assert rest[1..][1..] == rest[2..];
    Regroup(WalletsOf(rest[0]), WalletsOf(rest[1]), Under(rest[2..]));
  }

  lemma NoDupAround(x: seq<string>, a: seq<string>, b: seq<string>, y: seq<string>)
    requires NoDup(x + (a + b + y))
    ensures NoDup(a) && NoDup(b) && forall w :: w in a ==> w !in b
  {
    NoDupParts(x, a + b + y, "");
    NoDupParts(a + b, y, "");
    NoDupParts(a, b, "");
    forall w | w in a ensures w !in b { NoDupParts(a, b, w); }
  }

  /** `buildClaimTree`: refused on a repeated wallet or a negative payout, otherwise the root and
      the per-wallet proofs of the tree over the rows in wallet order. */
  method BuildClaimTree(sha: Hasher, rows: seq<ClaimLeafInput>) returns (r: Result<BuiltTree, ClaimError>)
    ensures r.Ok? <==> UniqueWallets(rows) && NonNegative(rows)
    ensures r.Err? && r.error.DuplicateWallet? <==> !UniqueWallets(rows)
    ensures r.Ok? ==> r.value.root == Hex(Root(sha, Typed(rows)))
    ensures r.Ok? ==> forall w :: w in r.value.proofs <==> w in Wallets(Typed(rows))
    ensures r.Ok? ==> forall w :: w in r.value.proofs ==> r.value.proofs[w] == HexAll(Path(sha, TreeOf(Typed(rows)), w))
  {
    var seen: set<string> := {};
    for i := 0 to |rows|
      invariant forall w :: w in seen <==> exists k :: 0 <= k < i && rows[k].wallet == w
      invariant UniqueWallets(rows[..i])
    {
      if rows[i].wallet in seen {
        return Err(DuplicateWallet(rows[i].wallet));
      }
      seen := seen + {rows[i].wallet};
    }
    assert rows[..|rows|] == rows;
    for i := 0 to |rows|
      invariant forall k :: 0 <= k < i ==> rows[k].payout >= 0
    {
      if rows[i].payout < 0 {
        return Err(NegativePayout);
      }
    }
    var typed := Typed(rows);
    if |typed| == 0 {
      return Ok(BuiltTree(Hex(sha([])), map[]));
    }
    var sorted := Order(typed);
    var nodes, proofs := StartLevel(sha, typed);
    ghost var level := Leaves(sorted);
    while |nodes| > 1
      invariant level != [] && AllMirror(sha, nodes, level) && AllProven(sha, proofs, level)
      invariant NoDup(Under(level)) && Rows(Collapse(level)) == sorted && Collapse(level) == TreeOf(typed)
      invariant proofs.Keys == set w | w in Wallets(typed)
      decreases |nodes|
    {
      PairKeepsUnder(level);
      nodes, proofs := NextLevel(sha, nodes, proofs, level);
      level := Pair(level);
    }
    assert level == [TreeOf(typed)] && Proven(sha, proofs, level[0]);
    TreeWallets(typed);
    return Ok(BuiltTree(Hex(nodes[0].hash), proofs));
  }

  /** The leaves in wallet order, each with an empty proof. */
  method StartLevel(sha: Hasher, rows: seq<ClaimRow>) returns (nodes: seq<LevelNode>, proofs: map<string, seq<string>>)
    requires rows != [] && DistinctWallets(rows)
    ensures AllMirror(sha, nodes, Leaves(Order(rows))) && AllProven(sha, proofs, Leaves(Order(rows)))
    ensures NoDup(Under(Leaves(Order(rows)))) && Leaves(Order(rows)) != []
    ensures Rows(Collapse(Leaves(Order(rows)))) == Order(rows)
    ensures proofs.Keys == set w | w in Wallets(rows)
  {
    var sorted := Order(rows);
    SortedStart(rows);
    nodes := seq(|sorted|, i requires 0 <= i < |sorted| => LevelNode(ClaimLeaf(sha, sorted[i]), [sorted[i].wallet]));
    proofs := map w | w in Wallets(sorted) :: [];
    EmptyProofs(sha, sorted, nodes, proofs);
  }

  lemma SortedStart(rows: seq<ClaimRow>)
    requires rows != [] && DistinctWallets(rows)
    ensures var sorted := Order(rows);
      && sorted != [] && NoDup(Under(Leaves(sorted))) && Rows(Collapse(Leaves(sorted))) == sorted
      && forall w :: w in Wallets(sorted) <==> w in Wallets(rows)
  {
    var sorted := Order(rows);
    OrderKeeps(rows);
    DistinctOrder(rows);
    hide Order, Sorted, Collapse, Rows;
    SameWallets(sorted, rows);
    LeavesRows(sorted);
    UnderIsForest(Leaves(sorted));
    CollapseKeepsRows(Leaves(sorted));
  }

  /** A leaf needs no sibling. */
  lemma EmptyProofs(sha: Hasher, sorted: seq<ClaimRow>, nodes: seq<LevelNode>, proofs: map<string, seq<string>>)
    requires |nodes| == |sorted|
    requires forall i :: 0 <= i < |sorted| ==> nodes[i] == LevelNode(ClaimLeaf(sha, sorted[i]), [sorted[i].wallet])
    requires forall w :: w in Wallets(sorted) ==> w in proofs && proofs[w] == []
    ensures AllMirror(sha, nodes, Leaves(sorted)) && AllProven(sha, proofs, Leaves(sorted))
  {
    forall t | t in Leaves(sorted) ensures Proven(sha, proofs, t) {
      var i :| 0 <= i < |sorted| && Leaves(sorted)[i] == t;
      assert Wallets(sorted)[i] == sorted[i].wallet;
    }
  }

  lemma PairKeepsUnder(level: seq<Tree>)
    ensures Under(Pair(level)) == Under(level)
  {
    UnderIsForest(level);
    UnderIsForest(Pair(level));
    PairKeepsRows(level);
  }

  lemma TreeWallets(rows: seq<ClaimRow>)
    requires rows != []
    ensures forall w :: w in WalletsOf(TreeOf(rows)) <==> w in Wallets(rows)
  {
    TreeOfRows(rows);
    WalletsOfRows(TreeOf(rows));
    OrderKeeps(rows);
    SameWallets(Order(rows), rows);
  }

  lemma SameWallets(s: seq<ClaimRow>, t: seq<ClaimRow>)
    requires forall r :: r in s <==> r in t
    ensures forall w :: w in Wallets(s) <==> w in Wallets(t)
  {
    forall w ensures w in Wallets(s) <==> w in Wallets(t) {
      if w in Wallets(s) {
        var i :| 0 <= i < |s| && Wallets(s)[i] == w;
        RowsHaveWallets(t, s[i]);
      }
      if w in Wallets(t) {
        var i :| 0 <= i < |t| && Wallets(t)[i] == w;
        RowsHaveWallets(s, t[i]);
      }
    }
  }

  // ------------------------------------------------------------------ verifying

  /** `/^[0-9a-f]{64}$/`. */
  predicate IsDigestHex(s: string) {
    |s| == 64 && forall i :: 0 <= i < |s| ==> IsHexChar(s[i])
  }

  function DigestOf(s: string): Digest
    requires IsDigestHex(s)
  {
    Unhex(s)
  }

  function UnhexAll(proof: seq<string>): (ds: seq<Digest>)
    requires forall i :: 0 <= i < |proof| ==> IsDigestHex(proof[i])
    ensures |ds| == |proof| && forall i :: 0 <= i < |proof| ==> ds[i] == DigestOf(proof[i])
  {
    seq(|proof|, i requires 0 <= i < |proof| && IsDigestHex(proof[i]) => DigestOf(proof[i]))
  }

  /** What `verifyClaimProof` decides. */
  predicate Verifies(sha: Hasher, r: ClaimRow, proof: seq<string>, root: string) {
    && IsDigestHex(root)
    && (forall i :: 0 <= i < |proof| ==> IsDigestHex(proof[i]))
    && Hex(Fold(sha, ClaimLeaf(sha, r), UnhexAll(proof))) == root
  }

  /** `verifyClaimProof`: malformed hex is refused before the leaf is hashed, a negative payout throws. */
  method VerifyClaimProof(sha: Hasher, leaf: ClaimLeafInput, proof: seq<string>, root: string)
    returns (r: Result<bool, ClaimError>)
    ensures r.Err? <==> leaf.payout < 0 && IsDigestHex(root) && forall i :: 0 <= i < |proof| ==> IsDigestHex(proof[i])
    ensures leaf.payout >= 0 ==>
      r == Ok(Verifies(sha, ClaimRow(leaf.distributionId, leaf.wallet, leaf.payout), proof, root))
  {
    if !IsDigestHex(root) || exists i :: 0 <= i < |proof| && !IsDigestHex(proof[i]) {
      return Ok(false);
    }
    if leaf.payout < 0 {
      return Err(NegativePayout);
    }
    var row := ClaimRow(leaf.distributionId, leaf.wallet, leaf.payout);
    var h := ClaimLeaf(sha, row);
    ghost var ds := UnhexAll(proof);
    for i := 0 to |proof|
      invariant h == Fold(sha, ClaimLeaf(sha, row), ds[..i])
    {
      h := HashPair(sha, h, DigestOf(proof[i]));
      assert ds[..i + 1][..i] == ds[..i];
    }
    assert ds[..|proof|] == ds;
    r := Ok(Hex(h) == root);
  }

  lemma DigestHexRoundTrip(ds: seq<Digest>)
    ensures forall i :: 0 <= i < |ds| ==> IsDigestHex(HexAll(ds)[i])
    ensures UnhexAll(HexAll(ds)) == ds
  {
    forall i | 0 <= i < |ds| ensures IsDigestHex(Hex(ds[i])) && DigestOf(Hex(ds[i])) == ds[i] {
      UnhexHex(ds[i]);
    }
    forall i | 0 <= i < |ds| ensures IsDigestHex(HexAll(ds)[i]) && DigestOf(HexAll(ds)[i]) == ds[i] {
      UnhexHex(ds[i]);
    }
  }

  /** Completeness: the proof stored for a row verifies against the root. */
  lemma StoredProofVerifies(sha: Hasher, rows: seq<ClaimRow>, r: ClaimRow)
    requires DistinctWallets(rows) && r in rows
    ensures Verifies(sha, r, HexAll(Path(sha, TreeOf(rows), r.wallet)), Hex(Root(sha, rows)))
  {
    ProofLeadsToRoot(sha, rows, r);
    DigestHexRoundTrip(Path(sha, TreeOf(rows), r.wallet));
  }

  /** Soundness: whatever verifies against the root of a built tree is one of its rows. */
  lemma VerifiedIsARow(sha: Hasher, rows: seq<ClaimRow>, r: ClaimRow, proof: seq<string>)
    requires PipeFree(r.wallet) && forall q :: q in rows ==> PipeFree(q.wallet)
    requires Verifies(sha, r, proof, Hex(Root(sha, rows)))
    requires CollisionFree(sha, BuildPreimages(sha, rows) + CheckPreimages(sha, r, UnhexAll(proof)))
    ensures r in rows
  {
    var h := Fold(sha, ClaimLeaf(sha, r), UnhexAll(proof));
    UnhexHex(h);
    UnhexHex(Root(sha, rows));
    FoldToRootIsARow(sha, rows, r, UnhexAll(proof));
  }
}
