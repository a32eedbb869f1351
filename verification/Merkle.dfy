/** The Merkle claim tree (packages/core/src/distribution/merkle.ts), as a tree value: which root
    a list of rows has, which proof each wallet gets, and what a verifying proof proves.
    The hash is any function from byte strings to 32-byte digests. */
module Merkle {
  import opened Wrappers
  import opened Text
  import opened Sorting

  type Digest = d: seq<byte> | |d| == 32 witness seq(32, _ => 0)
  type Hasher = seq<byte> -> Digest

  datatype ClaimRow = ClaimRow(distributionId: string, wallet: string, payout: nat)

  // ------------------------------------------------------------------ hashing

  function LeafText(r: ClaimRow): string {
    "fstack-claim-v1|" + r.distributionId + "|" + r.wallet + "|" + Numeral(r.payout)
  }

  function LeafPreimage(r: ClaimRow): seq<byte> {
    [0] + Utf8(LeafText(r))
  }

  /** Sorted pair: which of the two came first is forgotten. */
  function NodePreimage(a: Digest, b: Digest): seq<byte> {
    if LexLeq(a, b) then [1] + a + b else [1] + b + a
  }

  function ClaimLeaf(sha: Hasher, r: ClaimRow): Digest {
    sha(LeafPreimage(r))
  }

  function HashPair(sha: Hasher, a: Digest, b: Digest): Digest {
    sha(NodePreimage(a, b))
  }

  // ------------------------------------------------------------------ the tree

  datatype Tree = Leaf(row: ClaimRow) | Node(left: Tree, right: Tree)

  function Rows(t: Tree): (rs: seq<ClaimRow>)
    ensures rs != []
  {
    match t
    case Leaf(r) => [r]
    case Node(a, b) => Rows(a) + Rows(b)
  }

  function Hash(sha: Hasher, t: Tree): Digest {
    match t
    case Leaf(r) => ClaimLeaf(sha, r)
    case Node(a, b) => HashPair(sha, Hash(sha, a), Hash(sha, b))
  }

  function Wallets(rows: seq<ClaimRow>): (ws: seq<string>)
    ensures |ws| == |rows| && forall i :: 0 <= i < |rows| ==> ws[i] == rows[i].wallet
  {
    seq(|rows|, i requires 0 <= i < |rows| => rows[i].wallet)
  }

  lemma RowsHaveWallets(rows: seq<ClaimRow>, r: ClaimRow)
    ensures r in rows ==> r.wallet in Wallets(rows)
  {
    if r in rows {
      var i :| 0 <= i < |rows| && rows[i] == r;
      assert Wallets(rows)[i] == r.wallet;
    }
  }

  /** The wallets of a tree's leaves, left to right. */
  function WalletsOf(t: Tree): (ws: seq<string>) {
    match t
    case Leaf(r) => [r.wallet]
    case Node(a, b) => WalletsOf(a) + WalletsOf(b)
  }

  lemma {:induction false} WalletsOfRows(t: Tree)
    ensures WalletsOf(t) == Wallets(Rows(t))
  {
    match t
    case Leaf(_) =>
    case Node(a, b) =>
      WalletsOfRows(a);
      WalletsOfRows(b);
      assert Wallets(Rows(a) + Rows(b)) == Wallets(Rows(a)) + Wallets(Rows(b));
  }

  /** The sibling digests met from the leaf of `wallet` up to the root. */
  function Path(sha: Hasher, t: Tree, wallet: string): seq<Digest> {
    match t
    case Leaf(_) => []
    case Node(a, b) =>
      if wallet in WalletsOf(a) then Path(sha, a, wallet) + [Hash(sha, b)]
      else Path(sha, b, wallet) + [Hash(sha, a)]
  }

  /** One level up: neighbours are joined, an odd last node is promoted unchanged. */
  function Pair(level: seq<Tree>): (up: seq<Tree>)
    ensures |up| == (|level| + 1) / 2
  {
    if |level| <= 1 then level else [Node(level[0], level[1])] + Pair(level[2..])
  }

  function Collapse(level: seq<Tree>): Tree
    requires level != []
    decreases |level|
  {
    if |level| == 1 then level[0] else Collapse(Pair(level))
  }

  predicate WalletLeq(a: ClaimRow, b: ClaimRow) {
    StrLeq(a.wallet, b.wallet)
  }

  function Order(rows: seq<ClaimRow>): seq<ClaimRow> {
    Sort(rows, WalletLeq)
  }

  function Leaves(rows: seq<ClaimRow>): (ts: seq<Tree>)
    ensures |ts| == |rows| && forall i :: 0 <= i < |rows| ==> ts[i] == Leaf(rows[i])
  {
    seq(|rows|, i requires 0 <= i < |rows| => Leaf(rows[i]))
  }

  lemma OrderKeeps(rows: seq<ClaimRow>)
    ensures multiset(Order(rows)) == multiset(rows) && |Order(rows)| == |rows|
    ensures Sorted(Order(rows), WalletLeq)
    ensures forall i, j :: 0 <= i < j < |Order(rows)| ==> StrLeq(Order(rows)[i].wallet, Order(rows)[j].wallet)
    ensures forall r :: r in Order(rows) <==> r in rows
  {
    WalletLeqIsOrder();
    SortSorts(rows, WalletLeq);
  }

  lemma WalletLeqIsOrder()
    ensures TotalPreorder(WalletLeq)
  {
    forall x: ClaimRow, y: ClaimRow ensures WalletLeq(x, y) || WalletLeq(y, x) {
      LexTotal(Codes(x.wallet), Codes(y.wallet));
    }
    forall x: ClaimRow, y: ClaimRow, z: ClaimRow | WalletLeq(x, y) && WalletLeq(y, z) ensures WalletLeq(x, z) {
      LexTransitive(Codes(x.wallet), Codes(y.wallet), Codes(z.wallet));
    }
  }

  /** The tree over a non-empty list of rows. */
  function TreeOf(rows: seq<ClaimRow>): Tree
    requires rows != []
  {
    OrderKeeps(rows);
    Collapse(Leaves(Order(rows)))
  }

  function Root(sha: Hasher, rows: seq<ClaimRow>): Digest {
    if rows == [] then sha([]) else Hash(sha, TreeOf(rows))
  }

  // ------------------------------------------------------------------ the tree holds the rows

  function ForestRows(level: seq<Tree>): seq<ClaimRow> {
    if level == [] then [] else Rows(level[0]) + ForestRows(level[1..])
  }

  lemma {:induction false} PairKeepsRows(level: seq<Tree>)
    ensures ForestRows(Pair(level)) == ForestRows(level)
  {
    if |level| > 1 {
      PairKeepsRows(level[2..]);
      assert Pair(level)[1..] == Pair(level[2..]);
      assert level[1..][1..] == level[2..];
      assert (Rows(level[0]) + Rows(level[1])) + ForestRows(level[2..])
          == Rows(level[0]) + (Rows(level[1]) + ForestRows(level[2..]));
    }
  }

  lemma {:induction false} CollapseKeepsRows(level: seq<Tree>)
    requires level != []
    ensures Rows(Collapse(level)) == ForestRows(level)
    decreases |level|
  {
    if |level| > 1 {
      PairKeepsRows(level);
      CollapseKeepsRows(Pair(level));
    }
  }

  lemma {:induction false} LeavesRows(rows: seq<ClaimRow>)
    ensures ForestRows(Leaves(rows)) == rows
  {
    if rows != [] {
      LeavesRows(rows[1..]);
      assert Leaves(rows)[1..] == Leaves(rows[1..]);
    }
  }

  lemma TreeOfRows(rows: seq<ClaimRow>)
    requires rows != []
    ensures Rows(TreeOf(rows)) == Order(rows)
  {
    OrderKeeps(rows);
    CollapseKeepsRows(Leaves(Order(rows)));
    LeavesRows(Order(rows));
  }

  ghost predicate DistinctWallets(rows: seq<ClaimRow>) {
    forall i, j :: 0 <= i < j < |rows| ==> rows[i].wallet != rows[j].wallet
  }

  lemma DistinctNoTies(rows: seq<ClaimRow>)
    requires DistinctWallets(rows)
    ensures NoTies(rows, WalletLeq)
  {
    forall x, y | x in rows && y in rows && WalletLeq(x, y) && WalletLeq(y, x) ensures x == y {
      StrAntisymmetric(x.wallet, y.wallet);
      var i :| 0 <= i < |rows| && rows[i] == x;
      var j :| 0 <= j < |rows| && rows[j] == y;
      assert !(i < j) && !(j < i);
    }
  }

  /** The tree, hence the root and every proof, is the same for every order of the rows. */
  lemma TreeForgetsOrder(sha: Hasher, rows: seq<ClaimRow>, rows': seq<ClaimRow>)
    requires multiset(rows) == multiset(rows') && DistinctWallets(rows)
    ensures Root(sha, rows) == Root(sha, rows')
    ensures rows != [] ==> rows' != [] && TreeOf(rows) == TreeOf(rows')
  {
    assert |multiset(rows)| == |multiset(rows')|;
    DistinctNoTies(rows);
    WalletLeqIsOrder();
    SortPermutation(rows, rows', WalletLeq);
  }

  // ------------------------------------------------------------------ completeness

  /** `for (const p of proof) h = hashPair(h, p)`. */
  function Fold(sha: Hasher, h: Digest, proof: seq<Digest>): Digest {
    if proof == [] then h
    else HashPair(sha, Fold(sha, h, proof[..|proof| - 1]), proof[|proof| - 1])
  }

  lemma NodePreimageSymmetric(a: Digest, b: Digest)
    ensures NodePreimage(a, b) == NodePreimage(b, a)
  {
    LexTotal(a, b);
    if LexLeq(a, b) && LexLeq(b, a) { LexAntisymmetric(a, b); }
  }

  /** An inner node is hashed from the smaller digest followed by the larger one. */
  lemma SmallerFirst(a: Digest, b: Digest)
    ensures var bytes := NodePreimage(a, b);
      && |bytes| == 65 && bytes[0] == 1 && LexLeq(bytes[1..33], bytes[33..])
      && multiset{bytes[1..33], bytes[33..]} == multiset{a, b}
  {
    LexTotal(a, b);
    var bytes := NodePreimage(a, b);
    assert if LexLeq(a, b) then bytes[1..33] == a && bytes[33..] == b else bytes[1..33] == b && bytes[33..] == a;
  }

  lemma HashPairSymmetric(sha: Hasher, a: Digest, b: Digest)
    ensures HashPair(sha, a, b) == HashPair(sha, b, a)
  {
    NodePreimageSymmetric(a, b);
  }

  /** Every row's path folds its leaf to the root of the tree. */
  lemma {:induction false} PathFolds(sha: Hasher, t: Tree, r: ClaimRow)
    requires r in Rows(t) && DistinctWallets(Rows(t))
    ensures Fold(sha, ClaimLeaf(sha, r), Path(sha, t, r.wallet)) == Hash(sha, t)
  {
    match t
    case Leaf(_) =>
    case Node(a, b) =>
      WalletsOfRows(a);
      WhichSide(Rows(a), Rows(b), r);
      var path := Path(sha, t, r.wallet);
      if r.wallet in WalletsOf(a) {
        PathFolds(sha, a, r);
        assert path[..|path| - 1] == Path(sha, a, r.wallet);
      } else {
        PathFolds(sha, b, r);
        assert path[..|path| - 1] == Path(sha, b, r.wallet);
        HashPairSymmetric(sha, Hash(sha, a), Hash(sha, b));
      }
  }

  /** A row's wallet tells which side it is on. */
  lemma WhichSide(xs: seq<ClaimRow>, ys: seq<ClaimRow>, r: ClaimRow)
    requires DistinctWallets(xs + ys) && r in xs + ys
    ensures DistinctWallets(xs) && DistinctWallets(ys)
    ensures if r.wallet in Wallets(xs) then r in xs else r in ys
  {
    var all := xs + ys;
    assert all[..|xs|] == xs && all[|xs|..] == ys;
    if r.wallet in Wallets(xs) {
      var i :| 0 <= i < |xs| && Wallets(xs)[i] == r.wallet;
      var k :| 0 <= k < |all| && all[k] == r;
      assert all[i].wallet == r.wallet && k == i;
    } else {
      RowsHaveWallets(xs, r);
    }
  }

  function Height(t: Tree): nat {
    match t
    case Leaf(_) => 0
    case Node(a, b) => 1 + if Height(a) >= Height(b) then Height(a) else Height(b)
  }

  lemma {:induction false} PathLength(sha: Hasher, t: Tree, wallet: string)
    ensures |Path(sha, t, wallet)| <= Height(t)
  {
    match t
    case Leaf(_) =>
    case Node(a, b) =>
      PathLength(sha, a, wallet);
      PathLength(sha, b, wallet);
  }

  function Pow2(k: nat): (p: nat)
    ensures p > 0
  {
    if k == 0 then 1 else 2 * Pow2(k - 1)
  }

  lemma {:induction false} PairHeight(level: seq<Tree>, h: nat)
    requires forall i :: 0 <= i < |level| ==> Height(level[i]) <= h
    ensures forall i :: 0 <= i < |Pair(level)| ==> Height(Pair(level)[i]) <= h + 1
  {
    if |level| > 1 {
      PairHeight(level[2..], h);
      forall i | 0 <= i < |Pair(level)| ensures Height(Pair(level)[i]) <= h + 1 {
        if i > 0 { assert Pair(level)[i] == Pair(level[2..])[i - 1]; }
      }
    }
  }

  lemma {:induction false} CollapseHeight(level: seq<Tree>, h: nat, k: nat)
    requires 0 < |level| <= Pow2(k)
    requires forall i :: 0 <= i < |level| ==> Height(level[i]) <= h
    ensures Height(Collapse(level)) <= h + k
    decreases |level|
  {
    if |level| > 1 {
      PairHeight(level, h);
      CollapseHeight(Pair(level), h + 1, k - 1);
    }
  }

  /** No proof is longer than ceil(log2 n): 2^k rows need at most k siblings. */
  lemma ProofLength(sha: Hasher, rows: seq<ClaimRow>, wallet: string, k: nat)
    requires 0 < |rows| <= Pow2(k)
    ensures |Path(sha, TreeOf(rows), wallet)| <= k
  {
    OrderKeeps(rows);
    CollapseHeight(Leaves(Order(rows)), 0, k);
    PathLength(sha, TreeOf(rows), wallet);
  }

  lemma DistinctOrder(rows: seq<ClaimRow>)
    requires DistinctWallets(rows)
    ensures DistinctWallets(Order(rows))
  {
    OrderKeeps(rows);
    NoDupPermutation(rows, Order(rows));
    var s := Order(rows);
    forall i, j | 0 <= i < j < |s| ensures s[i].wallet != s[j].wallet {
      assert s[i] in rows && s[j] in rows;
      var m :| 0 <= m < |rows| && rows[m] == s[i];
      var n :| 0 <= n < |rows| && rows[n] == s[j];
      assert m < n || n < m;
    }
  }

  /** Completeness at the level of rows: the stored proof of every row leads to the root. */
  lemma ProofLeadsToRoot(sha: Hasher, rows: seq<ClaimRow>, r: ClaimRow)
    requires DistinctWallets(rows) && r in rows
    ensures Fold(sha, ClaimLeaf(sha, r), Path(sha, TreeOf(rows), r.wallet)) == Root(sha, rows)
  {
    OrderKeeps(rows);
    DistinctOrder(rows);
    TreeOfRows(rows);
    PathFolds(sha, TreeOf(rows), r);
  }

  // ------------------------------------------------------------------ soundness

  /** Wallets are base58, so they never hold the separator of the leaf text. */
  predicate PipeFree(s: string) {
    forall i :: 0 <= i < |s| ==> s[i] != '|'
  }

  lemma EarlierPipe(a: string, x: string, b: string, y: string)
    requires a + "|" + x == b + "|" + y && |a| < |b|
    ensures !PipeFree(x)
  {
    assert (a + "|" + x)[|b|] == (b + "|" + y)[|b|] == '|';
    assert x[|b| - |a| - 1] == '|';
  }

  /** What follows the last separator of a text. */
  lemma LastPipe(a: string, x: string, b: string, y: string)
    requires a + "|" + x == b + "|" + y && PipeFree(x) && PipeFree(y)
    ensures a == b && x == y
  {
    if |a| < |b| { EarlierPipe(a, x, b, y); }
    if |b| < |a| { EarlierPipe(b, y, a, x); }
    var u, v := a + "|" + x, b + "|" + y;
    assert a == u[..|a|] == v[..|b|] == b;
    assert x == u[|a| + 1..] == v[|b| + 1..] == y;
  }

  lemma DigitsPipeFree(s: string)
    requires AllDigits(s)
    ensures PipeFree(s)
  {
    forall i | 0 <= i < |s| ensures s[i] != '|' { assert IsDigit(s[i]); }
  }

  /** Different rows are hashed from different bytes, whatever the distribution ids are. */
  lemma LeafPreimageInjective(r: ClaimRow, q: ClaimRow)
    requires LeafPreimage(r) == LeafPreimage(q) && PipeFree(r.wallet) && PipeFree(q.wallet)
    ensures r == q
  {
    assert Utf8(LeafText(r)) == LeafPreimage(r)[1..] == LeafPreimage(q)[1..] == Utf8(LeafText(q));
    Utf8Injective(LeafText(r), LeafText(q));
    DigitsPipeFree(Numeral(r.payout));
    DigitsPipeFree(Numeral(q.payout));
    var tag := "fstack-claim-v1|";
    LastPipe(tag + r.distributionId + "|" + r.wallet, Numeral(r.payout),
             tag + q.distributionId + "|" + q.wallet, Numeral(q.payout));
    NumeralInjective(r.payout, q.payout);
    LastPipe(tag + r.distributionId, r.wallet, tag + q.distributionId, q.wallet);
    assert r.distributionId == (tag + r.distributionId)[|tag|..];
    assert q.distributionId == (tag + q.distributionId)[|tag|..];
  }

  /** Without that, two different rows can share their leaf. */
  lemma PipeInWalletConfuses(sha: Hasher)
    ensures ClaimRow("d", "x|y", 1) != ClaimRow("d|x", "y", 1)
    ensures ClaimLeaf(sha, ClaimRow("d", "x|y", 1)) == ClaimLeaf(sha, ClaimRow("d|x", "y", 1))
  {
    assert LeafText(ClaimRow("d", "x|y", 1)) == LeafText(ClaimRow("d|x", "y", 1));
  }

  lemma NodePreimageInjective(a: Digest, b: Digest, c: Digest, d: Digest)
    requires NodePreimage(a, b) == NodePreimage(c, d)
    ensures (a == c && b == d) || (a == d && b == c)
  {
    var u, v := NodePreimage(a, b), NodePreimage(c, d);
    assert u[1..33] == v[1..33] && u[33..] == v[33..];
    assert if LexLeq(a, b) then u[1..33] == a && u[33..] == b else u[1..33] == b && u[33..] == a;
    assert if LexLeq(c, d) then v[1..33] == c && v[33..] == d else v[1..33] == d && v[33..] == c;
  }

  /** The first byte keeps leaves and inner nodes apart. */
  lemma LeafIsNoNode(r: ClaimRow, a: Digest, b: Digest)
    ensures LeafPreimage(r) != NodePreimage(a, b)
  {
    assert LeafPreimage(r)[0] == 0 && NodePreimage(a, b)[0] == 1;
  }

  /** Every byte string hashed while a tree is built. */
  ghost function TreePreimages(sha: Hasher, t: Tree): set<seq<byte>> {
    match t
    case Leaf(r) => {LeafPreimage(r)}
    case Node(a, b) =>
      TreePreimages(sha, a) + TreePreimages(sha, b) + {NodePreimage(Hash(sha, a), Hash(sha, b))}
  }

  ghost function BuildPreimages(sha: Hasher, rows: seq<ClaimRow>): set<seq<byte>> {
    if rows == [] then {[]} else TreePreimages(sha, TreeOf(rows))
  }

  /** Every byte string hashed while a proof is checked. */
  ghost function CheckPreimages(sha: Hasher, r: ClaimRow, proof: seq<Digest>): set<seq<byte>> {
    if proof == [] then {LeafPreimage(r)}
    else
      var init := proof[..|proof| - 1];
      CheckPreimages(sha, r, init) + {NodePreimage(Fold(sha, ClaimLeaf(sha, r), init), proof[|proof| - 1])}
  }

  ghost predicate CollisionFree(sha: Hasher, xs: set<seq<byte>>) {
    forall x, y :: x in xs && y in xs && sha(x) == sha(y) ==> x == y
  }

  /** Whatever folds to a tree's root is one of its rows: sorted pairs carry no left/right bits,
      and neither an inner node passed off as a leaf nor a proof of another length gets by. */
  lemma {:induction false} FoldIsARow(sha: Hasher, t: Tree, r: ClaimRow, proof: seq<Digest>)
    requires PipeFree(r.wallet) && forall q :: q in Rows(t) ==> PipeFree(q.wallet)
    requires Fold(sha, ClaimLeaf(sha, r), proof) == Hash(sha, t)
    requires CollisionFree(sha, TreePreimages(sha, t) + CheckPreimages(sha, r, proof))
    ensures r in Rows(t)
    decreases proof
  {
    var seen := TreePreimages(sha, t) + CheckPreimages(sha, r, proof);
    if proof == [] {
      assert LeafPreimage(r) in seen;
      match t {
        case Leaf(q) =>
          assert LeafPreimage(q) in seen;
          LeafPreimageInjective(r, q);
        case Node(a, b) =>
          LeafIsNoNode(r, Hash(sha, a), Hash(sha, b));
          assert false;
      }
    } else {
      var k := |proof| - 1;
      var h := Fold(sha, ClaimLeaf(sha, r), proof[..k]);
      assert NodePreimage(h, proof[k]) in seen;
      match t {
        case Leaf(q) =>
          LeafIsNoNode(q, h, proof[k]);
          assert false;
        case Node(a, b) =>
          assert NodePreimage(Hash(sha, a), Hash(sha, b)) in seen;
          NodePreimageInjective(h, proof[k], Hash(sha, a), Hash(sha, b));
          if h == Hash(sha, a) {
            FoldIsARow(sha, a, r, proof[..k]);
          } else {
            FoldIsARow(sha, b, r, proof[..k]);
          }
      }
    }
  }

  lemma {:induction false} FoldIsHashed(sha: Hasher, r: ClaimRow, proof: seq<Digest>)
    ensures exists x :: x in CheckPreimages(sha, r, proof) && x != [] && sha(x) == Fold(sha, ClaimLeaf(sha, r), proof)
  {
    if proof == [] {
      assert LeafPreimage(r) in CheckPreimages(sha, r, proof);
    } else {
      var k := |proof| - 1;
      assert NodePreimage(Fold(sha, ClaimLeaf(sha, r), proof[..k]), proof[k]) in CheckPreimages(sha, r, proof);
    }
  }

  /** Soundness at the level of rows, the empty tree included: its root matches no proof. */
  lemma FoldToRootIsARow(sha: Hasher, rows: seq<ClaimRow>, r: ClaimRow, proof: seq<Digest>)
    requires PipeFree(r.wallet) && forall q :: q in rows ==> PipeFree(q.wallet)
    requires Fold(sha, ClaimLeaf(sha, r), proof) == Root(sha, rows)
    requires CollisionFree(sha, BuildPreimages(sha, rows) + CheckPreimages(sha, r, proof))
    ensures r in rows
  {
    if rows == [] {
      FoldIsHashed(sha, r, proof);
      assert false;
    } else {
      OrderKeeps(rows);
      TreeOfRows(rows);
      FoldIsARow(sha, TreeOf(rows), r, proof);
    }
  }

  // ------------------------------------------------------------------ the root commits to the rows

  /** Checking a stored proof hashes nothing that building the tree did not. */
  lemma {:induction false} PathChecksWithin(sha: Hasher, t: Tree, r: ClaimRow)
    requires r in Rows(t) && DistinctWallets(Rows(t))
    ensures CheckPreimages(sha, r, Path(sha, t, r.wallet)) <= TreePreimages(sha, t)
  {
    match t
    case Leaf(_) =>
    case Node(a, b) =>
      WalletsOfRows(a);
      WhichSide(Rows(a), Rows(b), r);
      var path := Path(sha, t, r.wallet);
      NodePreimageSymmetric(Hash(sha, a), Hash(sha, b));
      if r.wallet in WalletsOf(a) {
        PathChecksWithin(sha, a, r);
        PathFolds(sha, a, r);
        assert path[..|path| - 1] == Path(sha, a, r.wallet);
      } else {
        PathChecksWithin(sha, b, r);
        PathFolds(sha, b, r);
        assert path[..|path| - 1] == Path(sha, b, r.wallet);
      }
  }

  lemma SameRootSameRow(sha: Hasher, rows: seq<ClaimRow>, others: seq<ClaimRow>, r: ClaimRow)
    requires DistinctWallets(rows) && Root(sha, rows) == Root(sha, others) && r in rows
    requires (forall q :: q in rows ==> PipeFree(q.wallet)) && forall q :: q in others ==> PipeFree(q.wallet)
    requires CollisionFree(sha, BuildPreimages(sha, rows) + BuildPreimages(sha, others))
    ensures r in others
  {
    hide Root, Path, Fold, CheckPreimages, TreePreimages, PipeFree;
    var proof := Path(sha, TreeOf(rows), r.wallet);
    ProofLeadsToRoot(sha, rows, r);
    DistinctOrder(rows);
    OrderKeeps(rows);
    TreeOfRows(rows);
    PathChecksWithin(sha, TreeOf(rows), r);
    FoldToRootIsARow(sha, others, r, proof);
  }

  /** Equal roots mean the same rows, in whatever order: the root commits to the table. */
  lemma RootCommits(sha: Hasher, rows: seq<ClaimRow>, others: seq<ClaimRow>)
    requires DistinctWallets(rows) && DistinctWallets(others)
    requires (forall q :: q in rows ==> PipeFree(q.wallet)) && forall q :: q in others ==> PipeFree(q.wallet)
    requires CollisionFree(sha, BuildPreimages(sha, rows) + BuildPreimages(sha, others))
    ensures Root(sha, rows) == Root(sha, others) <==> multiset(rows) == multiset(others)
  {
    hide Root, BuildPreimages, PipeFree, CollisionFree;
    if multiset(rows) == multiset(others) { TreeForgetsOrder(sha, rows, others); }
    if Root(sha, rows) == Root(sha, others) {
      assert BuildPreimages(sha, rows) + BuildPreimages(sha, others)
          == BuildPreimages(sha, others) + BuildPreimages(sha, rows);
      forall r ensures r in rows <==> r in others {
        if r in rows { SameRootSameRow(sha, rows, others, r); }
        if r in others { SameRootSameRow(sha, others, rows, r); }
      }
      NoDupSameMembers(rows, others);
    }
  }
}
