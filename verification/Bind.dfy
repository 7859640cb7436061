/** The block bind (packages/light/src/bind.ts): a served body is the block only when every transaction, rebuilt from
    its body, hashes into the merkle root of a verified header. */
module Bind {
  import opened Rules
  import opened Bytes
  import opened TxCodec
  import opened Merkle

  datatype BoundTx = BoundTx(pos: nat, txid: Hash32, tx: Tx)
  datatype BlockBind = Bound(txs: seq<BoundTx>) | Malformed(pos: nat) | DuplicateTxid | BodyMismatch

  /** The id of a transaction: the hash of its stripped bytes. */
  function TxId(tx: Tx, H: Hasher): Hash32 { H(Encode(Stripped(tx))) }

  /** A served transaction that decodes and whose id can be computed; None is a body the JSON reader refuses. */
  predicate Decodes(t: Option<Tx>) { t.Some? && InRange(t.value) }

  const BLANK: Tx := Tx(0, [], [], 0, NoApp)

  function Entry(pos: nat, t: Option<Tx>, H: Hasher): BoundTx {
    var tx := if t.Some? then t.value else BLANK;
    BoundTx(pos, TxId(tx, H), tx)
  }

  function Rebuilt(txs: seq<Option<Tx>>, H: Hasher): (r: seq<BoundTx>)
    ensures |r| == |txs| && forall k :: 0 <= k < |txs| ==> r[k] == Entry(k, txs[k], H)
  {
    seq(|txs|, k requires 0 <= k < |txs| => Entry(k, txs[k], H))
  }

  function IdsOf(out: seq<BoundTx>): (r: seq<Hash32>)
    ensures |r| == |out| && forall k :: 0 <= k < |r| ==> r[k] == out[k].txid
  {
    seq(|out|, k requires 0 <= k < |out| => out[k].txid)
  }

  /** Was this body bound to `root`, and as what? */
  ghost predicate Binds(txs: seq<Option<Tx>>, root: Hash32, H: Hasher, r: BlockBind) {
    match r
    case Malformed(pos) => pos < |txs| && !Decodes(txs[pos]) && forall k :: 0 <= k < pos ==> Decodes(txs[k])
    case _ =>
      (forall k :: 0 <= k < |txs| ==> Decodes(txs[k]))
      && var out := Rebuilt(txs, H);
      match r
      case DuplicateTxid => !Distinct(IdsOf(out))
      case BodyMismatch => Distinct(IdsOf(out)) && MerkleRoot(IdsOf(out), H) != root
      case Bound(bound) => Distinct(IdsOf(out)) && MerkleRoot(IdsOf(out), H) == root && bound == out
  }

  method BindBlockTxs(txs: seq<Option<Tx>>, root: Hash32, H: Hasher) returns (r: BlockBind)
    ensures Binds(txs, root, H, r)
  {
    hide Decodes, Entry, MerkleRoot, Distinct;
    var out: seq<BoundTx> := [];
    for pos := 0 to |txs|
      invariant forall k :: 0 <= k < pos ==> Decodes(txs[k])
      invariant |out| == pos && forall k :: 0 <= k < pos ==> out[k] == Entry(k, txs[k], H)
    {
      if !Decodes(txs[pos]) { return Malformed(pos); }
      out := out + [Entry(pos, txs[pos], H)];
    }
    assert out == Rebuilt(txs, H);
    var ids := IdsOf(out);
    var distinct := AllDistinct(ids);
    if !distinct { return DuplicateTxid; }
    var computed := ComputeRoot(ids, H);
    if computed != root { return BodyMismatch; }
    r := Bound(out);
  }

  /** new Set(ids).size === ids.length */
  method AllDistinct(ids: seq<Hash32>) returns (ok: bool)
    ensures ok == Distinct(ids)
  {
    var seen: set<Hash32> := {};
    for k := 0 to |ids|
      invariant Distinct(ids[..k]) && forall x :: x in seen <==> x in ids[..k]
    {
      if ids[k] in seen {
        var j :| 0 <= j < k && ids[..k][j] == ids[k];
        assert ids[j] == ids[k];
        return false;
      }
      seen := seen + {ids[k]};
      assert ids[..k + 1] == ids[..k] + [ids[k]];
    }
    assert ids[..|ids|] == ids;
    return true;
  }

  /** The hashes of the stripped bytes, in order. */
  ghost predicate StrippedIds(txs: seq<Option<Tx>>, H: Hasher, ids: seq<Hash32>) {
    |ids| == |txs| && forall k :: 0 <= k < |txs| ==> txs[k].Some? && ids[k] == H(Encode(Stripped(txs[k].value)))
  }

  /** A served body is bound if and only if every transaction decodes, the hashes of their stripped bytes are pairwise
      different, and those have the header's root; each is then given its own position, hash and record. */
  lemma BindsExactly(txs: seq<Option<Tx>>, root: Hash32, H: Hasher, r: BlockBind)
    requires Binds(txs, root, H, r)
    ensures r.Bound? <==>
      (forall k :: 0 <= k < |txs| ==> txs[k].Some? && InRange(txs[k].value))
      && exists ids :: StrippedIds(txs, H, ids) && MerkleRoot(ids, H) == root && forall i, j :: 0 <= i < j < |ids| ==> ids[i] != ids[j]
    ensures r.Bound? ==> |r.txs| == |txs| && forall k :: 0 <= k < |txs| ==>
      r.txs[k].pos == k && txs[k] == Some(r.txs[k].tx) && r.txs[k].txid == H(Encode(Stripped(r.txs[k].tx)))
  {
    hide Encode, InRange, Stripped, MerkleRoot;
    if forall k :: 0 <= k < |txs| ==> Decodes(txs[k]) {
      var out := Rebuilt(txs, H);
      var ids := IdsOf(out);
      forall k | 0 <= k < |txs| ensures ids[k] == H(Encode(Stripped(txs[k].value))) { assert out[k] == Entry(k, txs[k], H); }
      assert StrippedIds(txs, H, ids);
      forall other | StrippedIds(txs, H, other) ensures other == ids { }
    }
  }

  // ----- one root, one body -----

  function Bodies(txs: seq<Tx>): (r: seq<seq<byte>>)
    ensures |r| == |txs| && forall k :: 0 <= k < |txs| ==> r[k] == Encode(Stripped(txs[k]))
  {
    seq(|txs|, k requires 0 <= k < |txs| => Encode(Stripped(txs[k])))
  }

  function TxsOf(out: seq<BoundTx>): (r: seq<Tx>)
    ensures |r| == |out| && forall k :: 0 <= k < |r| ==> r[k] == out[k].tx
  {
    seq(|out|, k requires 0 <= k < |out| => out[k].tx)
  }

  lemma BoundEntry(txs: seq<Option<Tx>>, root: Hash32, H: Hasher, out: seq<BoundTx>, k: nat)
    requires Binds(txs, root, H, Bound(out)) && k < |out|
    ensures out[k].txid == H(Encode(Stripped(out[k].tx))) && InRange(out[k].tx) && |Encode(Stripped(out[k].tx))| != 64
  {
    hide Encode, InRange, Stripped, MerkleRoot, Distinct;
    assert out[k] == Entry(k, txs[k], H) && Decodes(txs[k]);
    StrippedInRange(out[k].tx);
    NeverSixtyFour(Stripped(out[k].tx));
  }

  lemma BoundBodies(txs: seq<Option<Tx>>, root: Hash32, H: Hasher, out: seq<BoundTx>)
    requires Binds(txs, root, H, Bound(out)) && out != []
    ensures var P := Bodies(TxsOf(out));
      Distinct(Hashes(P, H)) && Root(Hashes(P, H), H) == root && LeafSized(P)
      && forall k :: 0 <= k < |out| ==> InRange(out[k].tx)
  {
    hide Encode, InRange, Stripped, Decodes, Entry;
    var P := Bodies(TxsOf(out));
    forall k | 0 <= k < |out| ensures Hashes(P, H)[k] == out[k].txid && |P[k]| != 64 && InRange(out[k].tx) {
      BoundEntry(txs, root, H, out, k);
    }
    assert Hashes(P, H) == IdsOf(out);
  }

  /** Two non-empty bodies bound to the same root carry the same transactions in the same order, up to the scriptSigs
      that no id commits to - or two different strings with one hash are among those the two binds hashed. */
  lemma OneRootOneBody(a: seq<Option<Tx>>, b: seq<Option<Tx>>, root: Hash32, H: Hasher, x: seq<BoundTx>, y: seq<BoundTx>)
    requires Binds(a, root, H, Bound(x)) && Binds(b, root, H, Bound(y)) && x != [] && y != []
    ensures (|x| == |y| && forall k :: 0 <= k < |x| ==> SameBesidesScripts(x[k].tx, y[k].tx))
            || Collision(H, Hashed(Bodies(TxsOf(x)), H) + Hashed(Bodies(TxsOf(y)), H))
  {
    hide Binds, Encode, InRange, Stripped, SameBesidesScripts;
    var P, Q := Bodies(TxsOf(x)), Bodies(TxsOf(y));
    BoundBodies(a, root, H, x);
    BoundBodies(b, root, H, y);
    RootFixesLeaves(P, Q, H);
    if P == Q {
      forall k | 0 <= k < |x| ensures SameBesidesScripts(x[k].tx, y[k].tx) {
        assert P[k] == Q[k];
        StrippedFixes(x[k].tx, y[k].tx);
      }
    }
  }
}
