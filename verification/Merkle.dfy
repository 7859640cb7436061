/** The transaction merkle tree (packages/codec/src/header.ts:149-208) over an uninterpreted 32-byte hash. A row pairs
    its odd last node with itself. Uniqueness is stated as: equal, or two different members of a given finite set of
    hashed strings have one hash. */
module Merkle {
  import opened Bytes

  type Hasher = seq<byte> -> Hash32

  predicate Distinct<T(==)>(s: seq<T>) { forall i, j :: 0 <= i < j < |s| ==> s[i] != s[j] }

  /** Two different strings of `S` with the same hash. */
  ghost predicate Collision(H: Hasher, S: set<seq<byte>>) { exists x, y :: x in S && y in S && x != y && H(x) == H(y) }

  function Node(left: seq<byte>, right: seq<byte>): seq<byte> { left + right }

  /** The node at `i`'s right child: an odd last node is paired with itself. */
  function Right(layer: seq<Hash32>, i: nat): Hash32
    requires 2 * i < |layer|
  {
    if 2 * i + 1 < |layer| then layer[2 * i + 1] else layer[2 * i]
  }

  /** The 64-byte strings hashed to make the row above. */
  function Pairs(layer: seq<Hash32>): (r: seq<seq<byte>>)
    ensures |r| == (|layer| + 1) / 2
    ensures forall i :: 0 <= i < |r| ==> r[i] == Node(layer[2 * i], Right(layer, i))
  {
    seq((|layer| + 1) / 2, i requires 0 <= i < (|layer| + 1) / 2 => Node(layer[2 * i], Right(layer, i)))
  }

  function Hashes(ps: seq<seq<byte>>, H: Hasher): (r: seq<Hash32>)
    ensures |r| == |ps| && forall i :: 0 <= i < |r| ==> r[i] == H(ps[i])
  {
    seq(|ps|, i requires 0 <= i < |ps| => H(ps[i]))
  }

  function Up(layer: seq<Hash32>, H: Hasher): seq<Hash32> { Hashes(Pairs(layer), H) }

  function Root(layer: seq<Hash32>, H: Hasher): Hash32
    requires layer != []
    decreases |layer|
  {
    if |layer| == 1 then layer[0] else Root(Up(layer, H), H)
  }

  const NO_TXS_ROOT: Hash32 := Zeros(32)

  function MerkleRoot(txids: seq<Hash32>, H: Hasher): Hash32 { if txids == [] then NO_TXS_ROOT else Root(txids, H) }

  /** How many rows lie above a row of `n` nodes. */
  function Depth(n: nat): nat { if n <= 1 then 0 else 1 + Depth((n + 1) / 2) }

  /** Every string hashed to fold a row up to its root. */
  ghost function Inner(layer: seq<Hash32>, H: Hasher): set<seq<byte>>
    decreases |layer|
  {
    if |layer| <= 1 then {} else (set p | p in Pairs(layer)) + Inner(Up(layer, H), H)
  }

  lemma WiderCollision(H: Hasher, S: set<seq<byte>>, T: set<seq<byte>>)
    requires Collision(H, S) && S <= T
    ensures Collision(H, T)
  {
  }

  // ----- one row up -----

  lemma PairSplits(a: Hash32, b: Hash32, c: Hash32, d: Hash32)
    requires Node(a, b) == Node(c, d)
    ensures a == c && b == d
  {
    assert a == Node(a, b)[..32] && b == Node(a, b)[32..] && c == Node(c, d)[..32] && d == Node(c, d)[32..];
  }

  /** Distinct nodes have distinct parents. */
  lemma UpDistinct(layer: seq<Hash32>, H: Hasher)
    requires Distinct(layer)
    ensures Distinct(Up(layer, H)) || Collision(H, set p | p in Pairs(layer))
  {
    var ps := Pairs(layer);
    if !Collision(H, set p | p in ps) {
      forall i, j | 0 <= i < j < |ps| ensures H(ps[i]) != H(ps[j]) {
        assert ps[i] in ps && ps[j] in ps;
        if ps[i] == ps[j] {
          PairSplits(layer[2 * i], Right(layer, i), layer[2 * j], Right(layer, j));
        }
      }
    }
  }

  /** A row of distinct nodes is fixed by the row above it: the node that stands alone at the end cannot pose as two. */
  lemma UpInjective(a: seq<Hash32>, b: seq<Hash32>, H: Hasher)
    requires Distinct(a) && Distinct(b) && Up(a, H) == Up(b, H)
    ensures a == b || Collision(H, (set p | p in Pairs(a)) + (set p | p in Pairs(b)))
  {
    var pa, pb := Pairs(a), Pairs(b);
    var S := (set p | p in pa) + (set p | p in pb);
    if !Collision(H, S) {
      forall i | 0 <= i < |pa| ensures pa[i] == pb[i] {
        assert Up(a, H)[i] == Up(b, H)[i];
        assert pa[i] in S && pb[i] in S;
      }
      PairsInjective(a, b);
    }
  }

  lemma PairsInjective(a: seq<Hash32>, b: seq<Hash32>)
    requires Distinct(a) && Distinct(b) && Pairs(a) == Pairs(b)
    ensures a == b
  {
    var m := |Pairs(a)|;
    forall i | 0 <= i < m
      ensures a[2 * i] == b[2 * i] && Right(a, i) == Right(b, i)
    {
      assert Pairs(a)[i] == Pairs(b)[i];
      PairSplits(a[2 * i], Right(a, i), b[2 * i], Right(b, i));
    }
    if m > 0 { assert Right(a, m - 1) == Right(b, m - 1); }
    assert |a| == |b|;
    forall k | 0 <= k < |a| ensures a[k] == b[k] {
      assert Right(a, k / 2) == Right(b, k / 2);
      assert k == 2 * (k / 2) || k == 2 * (k / 2) + 1;
    }
  }

  /** The left child comes first, and a node without a right neighbour stands in for it. */
  lemma ParentsOf(layer: seq<Hash32>, i: nat, H: Hasher)
    requires 2 * i < |layer|
    ensures |Up(layer, H)| == (|layer| + 1) / 2
    ensures var left: seq<byte>, right: seq<byte> := layer[2 * i], layer[if 2 * i + 1 < |layer| then 2 * i + 1 else 2 * i];
      Up(layer, H)[i] == H(left + right)
  {
  }

  /** The root of one is itself, of two the hash of the first and then the second, of three that of the row above. */
  lemma RootOfFew(a: Hash32, b: Hash32, c: Hash32, H: Hasher)
    ensures MerkleRoot([a], H) == a
    ensures var x: seq<byte>, y: seq<byte> := a, b; MerkleRoot([a, b], H) == H(x + y)
    ensures var x: seq<byte>, y: seq<byte>, z: seq<byte> := a, b, c;
      var l: seq<byte>, r: seq<byte> := H(x + y), H(z + z); MerkleRoot([a, b, c], H) == H(l + r)
  {
    hide Pairs, Hashes;
    ParentsOf([a, b], 0, H);
    ParentsOf([a, b, c], 0, H);
    ParentsOf([a, b, c], 1, H);
    ParentsOf(Up([a, b, c], H), 0, H);
    var two, up := Up([a, b], H), Up([a, b, c], H);
    assert Root(two, H) == two[0];
    assert Root(Up(up, H), H) == Up(up, H)[0] && Root(up, H) == Root(Up(up, H), H);
  }

  // ----- trees of one depth -----

  lemma DepthOne(n: nat)
    requires n >= 1
    ensures Depth(n) == 0 <==> n == 1
  {
  }

  lemma {:induction false} SameDepth(a: seq<Hash32>, b: seq<Hash32>, H: Hasher)
    requires a != [] && b != [] && Distinct(a) && Distinct(b) && Depth(|a|) == Depth(|b|) && Root(a, H) == Root(b, H)
    ensures a == b || Collision(H, Inner(a, H) + Inner(b, H))
    decreases |a|
  {
    DepthOne(|a|);
    DepthOne(|b|);
    if |a| > 1 && !Collision(H, Inner(a, H) + Inner(b, H)) {
      var S := Inner(a, H) + Inner(b, H);
      var pa, pb := set p | p in Pairs(a), set p | p in Pairs(b);
      var ua, ub := Up(a, H), Up(b, H);
      UpDistinct(a, H);
      UpDistinct(b, H);
      if Collision(H, pa) { WiderCollision(H, pa, S); }
      if Collision(H, pb) { WiderCollision(H, pb, S); }
      SameDepth(ua, ub, H);
      if Collision(H, Inner(ua, H) + Inner(ub, H)) { WiderCollision(H, Inner(ua, H) + Inner(ub, H), S); }
      UpInjective(a, b, H);
      if Collision(H, pa + pb) { WiderCollision(H, pa + pb, S); }
    }
  }

  /** The row `k` above this one. */
  function Row(layer: seq<Hash32>, k: nat, H: Hasher): seq<Hash32>
    decreases k
  {
    if k == 0 then layer else Row(Up(layer, H), k - 1, H)
  }

  lemma {:induction false} RowAbove(layer: seq<Hash32>, k: nat, H: Hasher)
    requires layer != [] && 0 < k <= Depth(|layer|)
    ensures var r := Row(layer, k, H);
      && r != [] && Depth(|r|) == Depth(|layer|) - k && Root(r, H) == Root(layer, H) && Inner(r, H) <= Inner(layer, H)
      && exists x :: x in Inner(layer, H) && |x| == 64 && H(x) == r[0]
    decreases k
  {
    var up := Up(layer, H);
    assert Pairs(layer)[0] in Inner(layer, H) && up[0] == H(Pairs(layer)[0]);
    assert Row(layer, k, H) == Row(up, k - 1, H);
    if k > 1 { RowAbove(up, k - 1, H); }
  }

  lemma UpShape(layer: seq<Hash32>, H: Hasher)
    requires |layer| > 1
    ensures |Up(layer, H)| == (|layer| + 1) / 2 && Depth(|Up(layer, H)|) + 1 == Depth(|layer|)
    ensures Inner(layer, H) == (set p | p in Pairs(layer)) + Inner(Up(layer, H), H)
  {
  }

  lemma {:induction false} RowDistinct(layer: seq<Hash32>, k: nat, H: Hasher)
    requires layer != [] && Distinct(layer) && k <= Depth(|layer|)
    ensures Collision(H, Inner(layer, H)) || Distinct(Row(layer, k, H))
    decreases k
  {
    hide Collision, Distinct, Up;
    if k > 0 {
      var up, ps := Up(layer, H), set p | p in Pairs(layer);
      UpShape(layer, H);
      UpDistinct(layer, H);
      if Collision(H, ps) {
        WiderCollision(H, ps, Inner(layer, H));
      } else {
        RowDistinct(up, k - 1, H);
        if Collision(H, Inner(up, H)) { WiderCollision(H, Inner(up, H), Inner(layer, H)); }
      }
    }
  }

  // ----- trees over hashed strings -----

  /** Every string hashed to get from the leaves' preimages to the root. */
  ghost function Hashed(P: seq<seq<byte>>, H: Hasher): set<seq<byte>> { (set p | p in P) + Inner(Hashes(P, H), H) }

  /** No leaf preimage has the length of a pair of hashes. */
  ghost predicate LeafSized(P: seq<seq<byte>>) { forall p :: p in P ==> |p| != 64 }

  /** A shallower tree over leaf-sized strings cannot have a deeper tree's root. */
  lemma ShallowerCollides(P: seq<seq<byte>>, b: seq<Hash32>, H: Hasher)
    requires P != [] && LeafSized(P) && Distinct(Hashes(P, H)) && b != [] && Distinct(b)
    requires Depth(|P|) < Depth(|b|) && Root(Hashes(P, H), H) == Root(b, H)
    ensures Collision(H, Hashed(P, H) + Inner(b, H))
  {
    var a, k := Hashes(P, H), Depth(|b|) - Depth(|P|);
    var S := Hashed(P, H) + Inner(b, H);
    RowAbove(b, k, H);
    RowDistinct(b, k, H);
    var r := Row(b, k, H);
    if Collision(H, Inner(b, H)) {
      WiderCollision(H, Inner(b, H), S);
    } else {
      SameDepth(a, r, H);
      if Collision(H, Inner(a, H) + Inner(r, H)) {
        WiderCollision(H, Inner(a, H) + Inner(r, H), S);
      } else {
        var x :| x in Inner(b, H) && |x| == 64 && H(x) == r[0];
        assert P[0] in P && P[0] in S && x in S && H(P[0]) == a[0] == r[0];
      }
    }
  }

  /** Two lists of strings, none as long as a pair of hashes and with no id repeated, that fold to one root are the
      same list in the same order - across different lengths and odd rows too - or a collision is in hand. */
  lemma RootFixesLeaves(P: seq<seq<byte>>, Q: seq<seq<byte>>, H: Hasher)
    requires P != [] && Q != [] && LeafSized(P) && LeafSized(Q)
    requires Distinct(Hashes(P, H)) && Distinct(Hashes(Q, H)) && Root(Hashes(P, H), H) == Root(Hashes(Q, H), H)
    ensures P == Q || Collision(H, Hashed(P, H) + Hashed(Q, H))
  {
    var a, b, S := Hashes(P, H), Hashes(Q, H), Hashed(P, H) + Hashed(Q, H);
    if Depth(|P|) < Depth(|Q|) {
      ShallowerCollides(P, b, H);
      WiderCollision(H, Hashed(P, H) + Inner(b, H), S);
    } else if Depth(|Q|) < Depth(|P|) {
      ShallowerCollides(Q, a, H);
      WiderCollision(H, Hashed(Q, H) + Inner(a, H), S);
    } else {
      SameDepth(a, b, H);
      if Collision(H, Inner(a, H) + Inner(b, H)) {
        WiderCollision(H, Inner(a, H) + Inner(b, H), S);
      } else if P != Q {
        var i :| 0 <= i < |P| && P[i] != Q[i];
        assert P[i] in S && Q[i] in S && a[i] == b[i];
      }
    }
  }

  // ----- inclusion proofs -----

  function Join(cur: Hash32, sibling: Hash32, idx: nat): seq<byte> {
    if idx % 2 == 1 then Node(sibling, cur) else Node(cur, sibling)
  }

  /** Fold a leaf up a branch. */
  function Fold(cur: Hash32, idx: nat, branch: seq<Hash32>, H: Hasher): Hash32
    decreases |branch|
  {
    if branch == [] then cur else Fold(H(Join(cur, branch[0], idx)), idx / 2, branch[1..], H)
  }

  function SiblingOf(layer: seq<Hash32>, idx: nat): Hash32
    requires idx < |layer|
  {
    if idx % 2 == 1 then layer[idx - 1] else if idx + 1 < |layer| then layer[idx + 1] else layer[idx]
  }

  function Branch(layer: seq<Hash32>, idx: nat, H: Hasher): seq<Hash32>
    requires idx < |layer|
    decreases |layer|
  {
    if |layer| == 1 then [] else [SiblingOf(layer, idx)] + Branch(Up(layer, H), idx / 2, H)
  }

  lemma JoinIsPair(layer: seq<Hash32>, idx: nat)
    requires idx < |layer|
    ensures Join(layer[idx], SiblingOf(layer, idx), idx) == Pairs(layer)[idx / 2]
  {
    assert idx == 2 * (idx / 2) + idx % 2;
  }

  /** The branch built for a leaf proves it. */
  lemma {:induction false} BranchProves(layer: seq<Hash32>, idx: nat, H: Hasher)
    requires idx < |layer|
    ensures |Branch(layer, idx, H)| == Depth(|layer|) && Fold(layer[idx], idx, Branch(layer, idx, H), H) == Root(layer, H)
    decreases |layer|
  {
    if |layer| > 1 {
      JoinIsPair(layer, idx);
      var rest := Branch(Up(layer, H), idx / 2, H);
      BranchProves(Up(layer, H), idx / 2, H);
      assert Branch(layer, idx, H)[1..] == rest;
    }
  }

  /** The strings hashed on the way up a branch. */
  ghost function OnTheWay(cur: Hash32, idx: nat, branch: seq<Hash32>, H: Hasher): set<seq<byte>>
    decreases |branch|
  {
    if branch == [] then {}
    else {Join(cur, branch[0], idx)} + OnTheWay(H(Join(cur, branch[0], idx)), idx / 2, branch[1..], H)
  }

  /** And only that leaf: what folds to the root at a position of the tree is the leaf at that position, or a collision
      is in hand. */
  lemma {:induction false} ProofIsSound(layer: seq<Hash32>, idx: nat, leaf: Hash32, branch: seq<Hash32>, H: Hasher)
    requires idx < |layer| && |branch| == Depth(|layer|) && Fold(leaf, idx, branch, H) == Root(layer, H)
    ensures leaf == layer[idx] || Collision(H, Inner(layer, H) + OnTheWay(leaf, idx, branch, H))
    decreases |layer|
  {
    if |layer| > 1 {
      var S := Inner(layer, H) + OnTheWay(leaf, idx, branch, H);
      var up, j := Up(layer, H), Join(leaf, branch[0], idx);
      ProofIsSound(up, idx / 2, H(j), branch[1..], H);
      var T := Inner(up, H) + OnTheWay(H(j), idx / 2, branch[1..], H);
      if Collision(H, T) {
        WiderCollision(H, T, S);
      } else {
        var p := Pairs(layer)[idx / 2];
        assert H(j) == up[idx / 2] == H(p) && p in S && j in S;
        if j == p {
          JoinIsPair(layer, idx);
          if idx % 2 == 1 { PairSplits(branch[0], leaf, SiblingOf(layer, idx), layer[idx]); }
          else { PairSplits(leaf, branch[0], layer[idx], SiblingOf(layer, idx)); }
        }
      }
    }
  }

  // ----- the loops -----

  method NextLayer(layer: seq<Hash32>, H: Hasher) returns (next: seq<Hash32>)
    ensures next == Up(layer, H)
  {
    next := [];
    var i := 0;
    while i < |layer|
      invariant i == 2 * |next| && i <= |layer| + 1
      invariant |next| <= |Up(layer, H)| && next == Up(layer, H)[..|next|]
    {
      var right := if i + 1 < |layer| then layer[i + 1] else layer[i];
      assert Pairs(layer)[i / 2] == Node(layer[i], right);
      next := next + [H(Node(layer[i], right))];
      i := i + 2;
    }
  }

  method ComputeRoot(txids: seq<Hash32>, H: Hasher) returns (root: Hash32)
    ensures root == MerkleRoot(txids, H)
  {
    if txids == [] { return NO_TXS_ROOT; }
    var layer := txids;
    while |layer| > 1
      invariant layer != [] && Root(layer, H) == Root(txids, H)
      decreases |layer|
    {
      layer := NextLayer(layer, H);
    }
    root := layer[0];
  }

  method BuildBranch(txids: seq<Hash32>, pos: nat, H: Hasher) returns (branch: seq<Hash32>)
    requires pos < |txids|
    ensures branch == Branch(txids, pos, H)
  {
    var layer := txids;
    var idx: nat := pos;
    branch := [];
    while |layer| > 1
      invariant idx < |layer| && branch + Branch(layer, idx, H) == Branch(txids, pos, H)
      decreases |layer|
    {
      var sib := SiblingOf(layer, idx);
      var next := NextLayer(layer, H);
      assert branch + [sib] + Branch(next, idx / 2, H) == branch + ([sib] + Branch(next, idx / 2, H));
      branch := branch + [sib];
      layer, idx := next, idx / 2;
    }
  }

  method VerifyProof(txid: Hash32, pos: nat, branch: seq<Hash32>, root: Hash32, H: Hasher) returns (ok: bool)
    ensures ok == (Fold(txid, pos, branch, H) == root)
  {
    var cur := txid;
    var idx: nat := pos;
    for k := 0 to |branch|
      invariant Fold(cur, idx, branch[k..], H) == Fold(txid, pos, branch, H)
    {
      cur, idx := H(Join(cur, branch[k], idx)), idx / 2;
      assert branch[k..][1..] == branch[k + 1..];
    }
    ok := cur == root;
  }
}
