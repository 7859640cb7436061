/** Where each field of a transaction lies in its bytes, which bytes are a transaction, and what its id leaves out
    (packages/codec/src/tx.ts:36-56, 97-138). */
module TxLayouts {
  import opened Rules
  import opened Bytes
  import opened TxCodec
  import opened Headers

  /** The eight bytes from `i` on as a number, lowest first. */
  function Long(s: seq<byte>, i: nat): nat
    requires i + 8 <= |s|
  {
    Word(s, i) + 0x1_0000_0000 * Word(s, i + 4)
  }

  lemma WordIs(s: seq<byte>, i: nat, n: nat)
    requires i + 4 <= |s| && s[i..i + 4] == LE(n, 4) && n <= U32_MAX
    ensures Word(s, i) == n
  {
    hide LE, FromLE, Pow256;
    Widths();
    WordAt(s, i, s[i..i + 4]);
    FromToLE(n, 4);
  }

  lemma LongIs(s: seq<byte>, i: nat, n: nat)
    requires i + 8 <= |s| && s[i..i + 8] == LE(n, 8) && n <= U64_MAX
    ensures Long(s, i) == n
  {
    hide LE, FromLE, Pow256;
    Widths();
    LongAt(s, i);
    FromToLE(n, 8);
  }

  /** The input lies at `p`: the id it spends, the index, and its script behind its length. */
  predicate InputAt(s: seq<byte>, p: nat, i: TxInput) {
    && p + 44 + |i.scriptSig| <= |s|
    && s[p..p + 32] == i.prevTxid && Word(s, p + 32) == i.vout
    && Long(s, p + 36) == |i.scriptSig| && s[p + 44..p + 44 + |i.scriptSig|] == i.scriptSig
  }

  /** The inputs lie one behind the other from `p` on. */
  predicate InputsAt(s: seq<byte>, p: nat, ins: seq<TxInput>)
    decreases |ins|
  {
    ins == [] || (InputAt(s, p, ins[0]) && InputsAt(s, p + 44 + |ins[0].scriptSig|, ins[1..]))
  }

  /** Where the inputs end that begin at `p`. */
  function InputsEnd(p: nat, ins: seq<TxInput>): nat
    decreases |ins|
  {
    if ins == [] then p else InputsEnd(p + 44 + |ins[0].scriptSig|, ins[1..])
  }

  predicate OutputAt(s: seq<byte>, p: nat, o: TxOutput) {
    p + 28 <= |s| && Long(s, p) == o.value && s[p + 8..p + 28] == o.scriptPubkey
  }

  /** The app payload is the rest of the bytes: its kind, then its fields. */
  predicate AppAt(s: seq<byte>, p: nat, a: App) {
    p + 4 <= |s|
    && match a
       case NoApp => |s| == p + 4 && Word(s, p) == 0
       case Attest(id, score, confidence) =>
         |s| == p + 44 && Word(s, p) == 2 && s[p + 4..p + 36] == id && Word(s, p + 36) == score && Word(s, p + 40) == confidence
       case Propose(domain, hash, uri, end) =>
         var q, n := p + 12 + |domain|, p + 52 + |domain| + |uri|;
         |s| == n + 8 && Word(s, p) == 1 && Long(s, p + 4) == |domain| && s[p + 12..q] == domain
         && s[q..q + 32] == hash && Long(s, q + 32) == |uri| && s[q + 40..n] == uri && Long(s, n) == end
  }

  lemma Part(s: seq<byte>, p: nat, b: seq<byte>, i: nat, n: nat)
    requires p + |b| <= |s| && s[p..p + |b|] == b && i + n <= |b|
    ensures s[p + i..p + i + n] == b[i..i + n]
  {
    var u, v, w := s[p + i..p + i + n], b[i..i + n], s[p..p + |b|];
    assert |u| == |v|;
    forall x | 0 <= x < |u| ensures u[x] == v[x] { assert w[i + x] == b[i + x]; }
  }

  lemma InputLies(s: seq<byte>, p: nat, i: TxInput)
    requires InputInRange(i) && p + |EncodeInput(i)| <= |s| && s[p..p + |EncodeInput(i)|] == EncodeInput(i)
    ensures InputAt(s, p, i)
  {
    hide LE, Word;
    var b, n := EncodeInput(i), |i.scriptSig|;
    assert b[0..32] == i.prevTxid && b[32..36] == LE(i.vout, 4) && b[36..44] == LE(n, 8) && b[44..44 + n] == i.scriptSig;
    Part(s, p, b, 0, 32);
    Part(s, p, b, 32, 4);
    Part(s, p, b, 36, 8);
    Part(s, p, b, 44, n);
    WordIs(s, p + 32, i.vout);
    LongIs(s, p + 36, n);
  }

  lemma {:induction false} InputsLie(s: seq<byte>, p: nat, ins: seq<TxInput>)
    requires forall k :: 0 <= k < |ins| ==> InputInRange(ins[k])
    requires p + |EncodeInputs(ins)| <= |s| && s[p..p + |EncodeInputs(ins)|] == EncodeInputs(ins)
    ensures InputsAt(s, p, ins) && InputsEnd(p, ins) == p + |EncodeInputs(ins)|
    decreases |ins|
  {
    hide InputAt, InputInRange, Word, EncodeInput;
    if ins != [] {
      var a, b := EncodeInput(ins[0]), EncodeInputs(ins[1..]);
      InputWidth(ins[0]);
      Halves(s, p, a, b);
      InputLies(s, p, ins[0]);
      InputsLie(s, p + |a|, ins[1..]);
    }
  }

  lemma InputWidth(i: TxInput)
    requires InputInRange(i)
    ensures |EncodeInput(i)| == 44 + |i.scriptSig|
  {
  }

  lemma Halves(s: seq<byte>, p: nat, a: seq<byte>, b: seq<byte>)
    requires p + |a + b| <= |s| && s[p..p + |a + b|] == a + b
    ensures s[p..p + |a|] == a && s[p + |a|..p + |a| + |b|] == b
  {
    Part(s, p, a + b, 0, |a|);
    Part(s, p, a + b, |a|, |b|);
    assert (a + b)[0..|a|] == a && (a + b)[|a|..|a| + |b|] == b;
  }

  lemma {:induction false} OutputsLie(s: seq<byte>, p: nat, outs: seq<TxOutput>)
    requires forall k :: 0 <= k < |outs| ==> OutputInRange(outs[k])
    requires p + |EncodeOutputs(outs)| <= |s| && s[p..p + |EncodeOutputs(outs)|] == EncodeOutputs(outs)
    ensures |EncodeOutputs(outs)| == 28 * |outs| && forall k :: 0 <= k < |outs| ==> OutputAt(s, p + 28 * k, outs[k])
    decreases |outs|
  {
    hide OutputAt, OutputInRange, Word, EncodeOutput;
    if outs != [] {
      var a, b := EncodeOutput(outs[0]), EncodeOutputs(outs[1..]);
      Halves(s, p, a, b);
      OutputLies(s, p, outs[0]);
      OutputsLie(s, p + 28, outs[1..]);
      forall k | 0 <= k < |outs| ensures OutputAt(s, p + 28 * k, outs[k]) {
        if k > 0 {
          var o := outs[1..][k - 1];
          assert o == outs[k] && OutputAt(s, p + 28 + 28 * (k - 1), o);
          assert p + 28 + 28 * (k - 1) == p + 28 * k;
        }
      }
    }
  }

  lemma OutputLies(s: seq<byte>, p: nat, o: TxOutput)
    requires OutputInRange(o) && p + |EncodeOutput(o)| <= |s| && s[p..p + |EncodeOutput(o)|] == EncodeOutput(o)
    ensures |EncodeOutput(o)| == 28 && OutputAt(s, p, o)
  {
    hide LE, Word;
    Halves(s, p, LE(o.value, 8), o.scriptPubkey);
    LongIs(s, p, o.value);
  }

  lemma AppLies(s: seq<byte>, p: nat, a: App)
    requires AppInRange(a) && p <= |s| && s[p..] == EncodeApp(a)
    ensures AppAt(s, p, a)
  {
    hide LE, Word, ValidUtf8;
    match a
    case NoApp => WordIs(s, p, 0);
    case Attest(id, score, confidence) =>
      Halves(s, p, LE(2, 4) + id + LE(score, 4), LE(confidence, 4));
      Halves(s, p, LE(2, 4) + id, LE(score, 4));
      Halves(s, p, LE(2, 4), id);
      WordIs(s, p, 2);
      WordIs(s, p + 36, score);
      WordIs(s, p + 40, confidence);
    case Propose(_, _, _, _) => ProposeLies(s, p, a);
  }

  lemma ProposeLies(s: seq<byte>, p: nat, a: App)
    requires AppInRange(a) && a.Propose? && p <= |s| && s[p..] == EncodeApp(a)
    ensures AppAt(s, p, a)
  {
    hide LE, Word, ValidUtf8;
    var e5 := LE(1, 4) + Len(a.domain) + a.payloadHash + Len(a.uri);
    var e4 := LE(1, 4) + Len(a.domain) + a.payloadHash;
    var e3 := LE(1, 4) + Len(a.domain);
    Halves(s, p, e5, LE(a.expiresEpoch, 8));
    Halves(s, p, e4, Len(a.uri));
    Halves(s, p, e3, a.payloadHash);
    Halves(s, p, LE(1, 4), Len(a.domain));
    Halves(s, p + 4, LE(|a.domain|, 8), a.domain);
    Halves(s, p + |e4|, LE(|a.uri|, 8), a.uri);
    WordIs(s, p, 1);
    LongIs(s, p + 4, |a.domain|);
    LongIs(s, p + |e4|, |a.uri|);
    LongIs(s, p + |e5|, a.expiresEpoch);
  }

  /** The bytes are those of the transaction: every field at its place, and nothing else. */
  predicate Laid(s: seq<byte>, tx: Tx) {
    && 12 <= |s| && Word(s, 0) == tx.version && Long(s, 4) == |tx.inputs| && InputsAt(s, 12, tx.inputs)
    && var q := InputsEnd(12, tx.inputs);
       var r := q + 8 + 28 * |tx.outputs|;
       && r + 4 <= |s| && Long(s, q) == |tx.outputs|
       && (forall k :: 0 <= k < |tx.outputs| ==> OutputAt(s, q + 8 + 28 * k, tx.outputs[k]))
       && Word(s, r) == tx.locktime && AppAt(s, r + 4, tx.app)
  }

  /** The bytes of a transaction hold each of its fields at its place, lowest byte first, and nothing else. */
  lemma TxLayout(tx: Tx)
    requires InRange(tx)
    ensures Laid(Encode(tx), tx)
  {
    hide LE, Word, EncodeInputs, EncodeOutputs, EncodeApp, AppInRange, OutputAt, AppAt, InputsAt, InputsEnd;
    var s, ins, outs := Encode(tx), EncodeInputs(tx.inputs), EncodeOutputs(tx.outputs);
    var q := 12 + |ins|;
    var r := q + 8 + |outs|;
    assert s[0..4] == LE(tx.version, 4) && s[4..12] == LE(|tx.inputs|, 8) && s[12..q] == ins;
    assert s[q..q + 8] == LE(|tx.outputs|, 8) && s[q + 8..r] == outs;
    assert s[r..r + 4] == LE(tx.locktime, 4) && s[r + 4..] == EncodeApp(tx.app);
    WordIs(s, 0, tx.version);
    LongIs(s, 4, |tx.inputs|);
    InputsLie(s, 12, tx.inputs);
    LongIs(s, q, |tx.outputs|);
    OutputsLie(s, q + 8, tx.outputs);
    WordIs(s, r, tx.locktime);
    AppLies(s, r + 4, tx.app);
  }

  /** Every field fits: 32-bit numbers, 64-bit amounts and ends, 32-byte ids, 20-byte scripts, texts in UTF-8. */
  predicate Fits(tx: Tx) {
    && tx.version < 0x1_0000_0000 && tx.locktime < 0x1_0000_0000
    && (forall k :: 0 <= k < |tx.inputs| ==> |tx.inputs[k].prevTxid| == 32 && tx.inputs[k].vout < 0x1_0000_0000)
    && (forall k :: 0 <= k < |tx.outputs| ==> |tx.outputs[k].scriptPubkey| == 20 && tx.outputs[k].value < 0x1_0000_0000_0000_0000)
    && match tx.app
       case NoApp => true
       case Propose(d, h, u, e) => ValidUtf8(d) && |h| == 32 && ValidUtf8(u) && e < 0x1_0000_0000_0000_0000
       case Attest(p, s, c) => |p| == 32 && s < 0x1_0000_0000 && c < 0x1_0000_0000
  }

  /** What the reader makes of untrusted bytes is `tx` if and only if they are the bytes of `tx`, at most 100_000, with at
      most 512 inputs and 512 outputs, and every field fits. */
  lemma DecodesExactly(bytes: seq<byte>, tx: Tx)
    ensures Decode(bytes) == Some(tx)
            <==> bytes == Encode(tx) && |bytes| <= 100_000 && |tx.inputs| <= 512 && |tx.outputs| <= 512 && Fits(tx)
  {
    hide Decode, LE, EncodeInputs, EncodeOutputs, EncodeApp, ValidUtf8;
    if Decode(bytes) == Some(tx) {
      EncodeDecode(bytes);
    }
    if bytes == Encode(tx) && |bytes| <= 100_000 && |tx.inputs| <= 512 && |tx.outputs| <= 512 && Fits(tx) {
      ShortFits(tx);
      DecodeEncode(tx);
    }
  }

  lemma ShortFits(tx: Tx)
    requires |Encode(tx)| <= 100_000 && |tx.inputs| <= 512 && |tx.outputs| <= 512 && Fits(tx)
    ensures InRange(tx)
  {
    hide LE, ValidUtf8;
    forall k | 0 <= k < |tx.inputs| ensures |tx.inputs[k].scriptSig| <= |EncodeInputs(tx.inputs)| { ScriptShort(tx.inputs, k); }
    assert |Encode(tx)| == 24 + |EncodeInputs(tx.inputs)| + |EncodeOutputs(tx.outputs)| + |EncodeApp(tx.app)|;
  }

  lemma {:induction false} ScriptShort(ins: seq<TxInput>, k: nat)
    requires k < |ins|
    ensures |ins[k].scriptSig| <= |EncodeInputs(ins)|
    decreases |ins|
  {
    hide LE;
    if k > 0 { ScriptShort(ins[1..], k - 1); }
  }

  /** What an id commits to leaves out exactly the script of each input that is not a coinbase's: thirty-two zeros and the
      largest index. */
  lemma StripsScripts(tx: Tx)
    requires forall k :: 0 <= k < |tx.inputs| ==> |tx.inputs[k].prevTxid| == 32
    ensures var s := Stripped(tx);
      && s == tx.(inputs := s.inputs) && |s.inputs| == |tx.inputs|
      && forall k :: 0 <= k < |tx.inputs| ==>
           var i := tx.inputs[k];
           s.inputs[k] == if i.vout == 4_294_967_295 && (forall j :: 0 <= j < 32 ==> i.prevTxid[j] == 0) then i
                          else TxInput(i.prevTxid, i.vout, [])
  {
    forall k | 0 <= k < |tx.inputs|
      ensures tx.inputs[k].prevTxid == COINBASE_TXID <==> forall j :: 0 <= j < 32 ==> tx.inputs[k].prevTxid[j] == 0
    {
      assert forall j :: 0 <= j < 32 ==> COINBASE_TXID[j] == 0;
    }
  }
}
