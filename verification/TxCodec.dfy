/** The consensus transaction codec (packages/codec/src/tx.ts): a printer, the parser that reads untrusted bytes, and
    the proof that each is the other's inverse. */
module TxCodec {
  import opened Rules
  import opened Bytes

  const MAX_TX_BYTES: nat := 100_000
  const MAX_TX_INPUTS: nat := 512
  const MAX_TX_OUTPUTS: nat := 512

  datatype App =
    | NoApp
    | Propose(domain: seq<byte>, payloadHash: seq<byte>, uri: seq<byte>, expiresEpoch: nat)
    | Attest(proposalId: seq<byte>, score: nat, confidence: nat)
  datatype TxInput = TxInput(prevTxid: seq<byte>, vout: nat, scriptSig: seq<byte>)
  datatype TxOutput = TxOutput(value: nat, scriptPubkey: seq<byte>)
  datatype Tx = Tx(version: nat, inputs: seq<TxInput>, outputs: seq<TxOutput>, locktime: nat, app: App)

  const COINBASE_TXID: seq<byte> := Zeros(32)

  predicate IsCoinbaseInput(i: TxInput) { i.prevTxid == COINBASE_TXID && i.vout == U32_MAX }

  function StripInput(i: TxInput): TxInput { if IsCoinbaseInput(i) then i else i.(scriptSig := []) }

  /** The transaction without the scriptSig of every non-coinbase input: what its id commits to. */
  function Stripped(tx: Tx): Tx { tx.(inputs := seq(|tx.inputs|, k requires 0 <= k < |tx.inputs| => StripInput(tx.inputs[k]))) }

  // ----- the writer -----

  function Len(b: seq<byte>): seq<byte> { LE(|b|, 8) + b }

  predicate AppInRange(a: App) {
    match a
    case NoApp => true
    case Propose(d, h, u, e) => ValidUtf8(d) && |d| <= U64_MAX && |h| == 32 && ValidUtf8(u) && |u| <= U64_MAX && e <= U64_MAX
    case Attest(p, s, c) => |p| == 32 && s <= U32_MAX && c <= U32_MAX
  }

  predicate InputInRange(i: TxInput) { |i.prevTxid| == 32 && i.vout <= U32_MAX && |i.scriptSig| <= U64_MAX }

  predicate OutputInRange(o: TxOutput) { o.value <= U64_MAX && |o.scriptPubkey| == 20 }

  /** Every field fits its wire width and every text is UTF-8: outside this the writer throws. */
  predicate InRange(tx: Tx) {
    && tx.version <= U32_MAX && tx.locktime <= U32_MAX && |tx.inputs| <= U64_MAX && |tx.outputs| <= U64_MAX
    && (forall k :: 0 <= k < |tx.inputs| ==> InputInRange(tx.inputs[k]))
    && (forall k :: 0 <= k < |tx.outputs| ==> OutputInRange(tx.outputs[k]))
    && AppInRange(tx.app)
  }

  function EncodeApp(a: App): seq<byte> {
    match a
    case NoApp => LE(0, 4)
    case Propose(d, h, u, e) => LE(1, 4) + Len(d) + h + Len(u) + LE(e, 8)
    case Attest(p, s, c) => LE(2, 4) + p + LE(s, 4) + LE(c, 4)
  }

  function EncodeInput(i: TxInput): seq<byte> { i.prevTxid + LE(i.vout, 4) + Len(i.scriptSig) }

  function EncodeInputs(ins: seq<TxInput>): seq<byte> {
    if ins == [] then [] else EncodeInput(ins[0]) + EncodeInputs(ins[1..])
  }

  function EncodeOutput(o: TxOutput): seq<byte> { LE(o.value, 8) + o.scriptPubkey }

  function EncodeOutputs(outs: seq<TxOutput>): seq<byte> {
    if outs == [] then [] else EncodeOutput(outs[0]) + EncodeOutputs(outs[1..])
  }

  /** The wire form: fixed-width little-endian fields, length-prefixed lists, in declaration order. */
  function Encode(tx: Tx): seq<byte> {
    LE(tx.version, 4) + (LE(|tx.inputs|, 8) + (EncodeInputs(tx.inputs) + (LE(|tx.outputs|, 8) + (EncodeOutputs(tx.outputs)
    + (LE(tx.locktime, 4) + EncodeApp(tx.app))))))
  }

  // ----- the reader, as a function of the bytes left -----

  datatype Read<T> = Stop | Got(value: T, rest: seq<byte>)

  function ReadTake(s: seq<byte>, n: nat): Read<seq<byte>> { if n <= |s| then Got(s[..n], s[n..]) else Stop }

  function ReadLE(s: seq<byte>, k: nat): Read<nat> { if k <= |s| then Got(FromLE(s[..k]), s[k..]) else Stop }

  function ReadVec(s: seq<byte>): Read<seq<byte>> {
    var n := ReadLE(s, 8);
    if n.Stop? then Stop else ReadTake(n.rest, n.value)
  }

  function ReadStr(s: seq<byte>): Read<seq<byte>> {
    var v := ReadVec(s);
    if v.Got? && ValidUtf8(v.value) then v else Stop
  }

  function ReadInput(s: seq<byte>): Read<TxInput> {
    var p := ReadTake(s, 32);
    if p.Stop? then Stop
    else
      var v := ReadLE(p.rest, 4);
      if v.Stop? then Stop
      else
        var g := ReadVec(v.rest);
        if g.Stop? then Stop else Got(TxInput(p.value, v.value, g.value), g.rest)
  }

  function ReadInputs(s: seq<byte>, n: nat): Read<seq<TxInput>>
    decreases n
  {
    if n == 0 then Got([], s)
    else
      var i := ReadInput(s);
      if i.Stop? then Stop
      else
        var more := ReadInputs(i.rest, n - 1);
        if more.Stop? then Stop else Got([i.value] + more.value, more.rest)
  }

  function ReadOutput(s: seq<byte>): Read<TxOutput> {
    var v := ReadLE(s, 8);
    if v.Stop? then Stop
    else
      var k := ReadTake(v.rest, 20);
      if k.Stop? then Stop else Got(TxOutput(v.value, k.value), k.rest)
  }

  function ReadOutputs(s: seq<byte>, n: nat): Read<seq<TxOutput>>
    decreases n
  {
    if n == 0 then Got([], s)
    else
      var o := ReadOutput(s);
      if o.Stop? then Stop
      else
        var more := ReadOutputs(o.rest, n - 1);
        if more.Stop? then Stop else Got([o.value] + more.value, more.rest)
  }

  function ReadPropose(s: seq<byte>): Read<App> {
    var d := ReadStr(s);
    if d.Stop? then Stop
    else
      var h := ReadTake(d.rest, 32);
      if h.Stop? then Stop
      else
        var u := ReadStr(h.rest);
        if u.Stop? then Stop
        else
          var e := ReadLE(u.rest, 8);
          if e.Stop? then Stop else Got(Propose(d.value, h.value, u.value, e.value), e.rest)
  }

  function ReadAttest(s: seq<byte>): Read<App> {
    var p := ReadTake(s, 32);
    if p.Stop? then Stop
    else
      var v := ReadLE(p.rest, 4);
      if v.Stop? then Stop
      else
        var c := ReadLE(v.rest, 4);
        if c.Stop? then Stop else Got(Attest(p.value, v.value, c.value), c.rest)
  }

  function ReadApp(s: seq<byte>): Read<App> {
    var tag := ReadLE(s, 4);
    if tag.Stop? then Stop
    else if tag.value == 0 then Got(NoApp, tag.rest)
    else if tag.value == 1 then ReadPropose(tag.rest)
    else if tag.value == 2 then ReadAttest(tag.rest)
    else Stop
  }

  /** What follows the outputs. */
  function ReadTail(s: seq<byte>, version: nat, ins: seq<TxInput>, outs: seq<TxOutput>): Read<Tx> {
    var lock := ReadLE(s, 4);
    if lock.Stop? then Stop
    else
      var app := ReadApp(lock.rest);
      if app.Stop? then Stop else Got(Tx(version, ins, outs, lock.value, app.value), app.rest)
  }

  function ReadTx(s: seq<byte>): Read<Tx> {
    var version := ReadLE(s, 4);
    if version.Stop? then Stop
    else
      var nIn := ReadLE(version.rest, 8);
      if nIn.Stop? || nIn.value > MAX_TX_INPUTS then Stop
      else
        var ins := ReadInputs(nIn.rest, nIn.value);
        if ins.Stop? then Stop
        else
          var nOut := ReadLE(ins.rest, 8);
          if nOut.Stop? || nOut.value > MAX_TX_OUTPUTS then Stop
          else
            var outs := ReadOutputs(nOut.rest, nOut.value);
            if outs.Stop? then Stop else ReadTail(outs.rest, version.value, ins.value, outs.value)
  }

  /** What deserialize accepts, and what it makes of it; None where it throws. */
  function Decode(bytes: seq<byte>): Option<Tx> {
    if |bytes| > MAX_TX_BYTES then None
    else
      var tx := ReadTx(bytes);
      if tx.Got? && tx.rest == [] then Some(tx.value) else None
  }

  // ----- reading back what was written -----

  lemma LEReads(n: nat, k: nat, rest: seq<byte>)
    requires n < Pow256(k)
    ensures ReadLE(LE(n, k) + rest, k) == Got(n, rest)
  {
    FromToLE(n, k);
    assert (LE(n, k) + rest)[..k] == LE(n, k);
  }

  lemma TakeReads(b: seq<byte>, rest: seq<byte>)
    ensures ReadTake(b + rest, |b|) == Got(b, rest)
  {
    assert (b + rest)[..|b|] == b;
  }

  lemma VecReads(b: seq<byte>, rest: seq<byte>)
    requires |b| <= U64_MAX
    ensures ReadVec(Len(b) + rest) == Got(b, rest)
  {
    hide LE, FromLE, ReadLE, ReadTake, Pow256;
    Widths();
    LEReads(|b|, 8, b + rest);
    TakeReads(b, rest);
    assert Len(b) + rest == LE(|b|, 8) + (b + rest);
  }

  lemma InputReads(i: TxInput, rest: seq<byte>)
    requires InputInRange(i)
    ensures ReadInput(EncodeInput(i) + rest) == Got(i, rest)
  {
    hide LE, FromLE, ReadLE, ReadTake, ReadVec, Len, Pow256;
    Widths();
    var tail := Len(i.scriptSig) + rest;
    TakeReads(i.prevTxid, LE(i.vout, 4) + tail);
    LEReads(i.vout, 4, tail);
    VecReads(i.scriptSig, rest);
    assert EncodeInput(i) + rest == i.prevTxid + (LE(i.vout, 4) + tail);
  }

  lemma {:induction false} InputsRead(ins: seq<TxInput>, rest: seq<byte>)
    requires forall k :: 0 <= k < |ins| ==> InputInRange(ins[k])
    ensures ReadInputs(EncodeInputs(ins) + rest, |ins|) == Got(ins, rest)
  {
    hide ReadInput, EncodeInput, InputInRange;
    if ins == [] {
      assert EncodeInputs(ins) + rest == rest;
    } else {
      assert ins == [ins[0]] + ins[1..];
      InputReads(ins[0], EncodeInputs(ins[1..]) + rest);
      InputsRead(ins[1..], rest);
      assert EncodeInputs(ins) + rest == EncodeInput(ins[0]) + (EncodeInputs(ins[1..]) + rest);
    }
  }

  lemma OutputReads(o: TxOutput, rest: seq<byte>)
    requires OutputInRange(o)
    ensures ReadOutput(EncodeOutput(o) + rest) == Got(o, rest)
  {
    hide LE, FromLE, ReadLE, ReadTake, Pow256;
    Widths();
    LEReads(o.value, 8, o.scriptPubkey + rest);
    TakeReads(o.scriptPubkey, rest);
    assert EncodeOutput(o) + rest == LE(o.value, 8) + (o.scriptPubkey + rest);
  }

  lemma {:induction false} OutputsRead(outs: seq<TxOutput>, rest: seq<byte>)
    requires forall k :: 0 <= k < |outs| ==> OutputInRange(outs[k])
    ensures ReadOutputs(EncodeOutputs(outs) + rest, |outs|) == Got(outs, rest)
  {
    hide ReadOutput, EncodeOutput, OutputInRange;
    if outs == [] {
      assert EncodeOutputs(outs) + rest == rest;
    } else {
      assert outs == [outs[0]] + outs[1..];
      OutputReads(outs[0], EncodeOutputs(outs[1..]) + rest);
      OutputsRead(outs[1..], rest);
      assert EncodeOutputs(outs) + rest == EncodeOutput(outs[0]) + (EncodeOutputs(outs[1..]) + rest);
    }
  }

  lemma ProposeReads(d: seq<byte>, h: seq<byte>, u: seq<byte>, e: nat, rest: seq<byte>)
    requires AppInRange(Propose(d, h, u, e))
    ensures ReadPropose(Len(d) + (h + (Len(u) + (LE(e, 8) + rest)))) == Got(Propose(d, h, u, e), rest)
  {
    hide LE, FromLE, ReadLE, ReadTake, ReadVec, ValidUtf8, Len, Pow256;
    Widths();
    var t3 := LE(e, 8) + rest;
    var t2 := Len(u) + t3;
    VecReads(d, h + t2);
    TakeReads(h, t2);
    VecReads(u, t3);
    LEReads(e, 8, rest);
  }

  lemma AttestReads(p: seq<byte>, s: nat, c: nat, rest: seq<byte>)
    requires AppInRange(Attest(p, s, c))
    ensures ReadAttest(p + (LE(s, 4) + (LE(c, 4) + rest))) == Got(Attest(p, s, c), rest)
  {
    hide LE, FromLE, ReadLE, ReadTake, Pow256;
    Widths();
    var t := LE(c, 4) + rest;
    TakeReads(p, LE(s, 4) + t);
    LEReads(s, 4, t);
    LEReads(c, 4, rest);
  }

  lemma AppReads(a: App, rest: seq<byte>)
    requires AppInRange(a)
    ensures ReadApp(EncodeApp(a) + rest) == Got(a, rest)
  {
    hide LE, FromLE, ReadLE, ReadPropose, ReadAttest, Len, Pow256, ValidUtf8;
    Widths();
    match a
    case NoApp => LEReads(0, 4, rest);
    case Propose(d, h, u, e) =>
      var t := Len(d) + (h + (Len(u) + (LE(e, 8) + rest)));
      ProposeReads(d, h, u, e, rest);
      LEReads(1, 4, t);
      assert EncodeApp(a) + rest == LE(1, 4) + t;
    case Attest(p, s, c) =>
      var t := p + (LE(s, 4) + (LE(c, 4) + rest));
      AttestReads(p, s, c, rest);
      LEReads(2, 4, t);
      assert EncodeApp(a) + rest == LE(2, 4) + t;
  }

  lemma TailReads(tx: Tx)
    requires InRange(tx)
    ensures ReadTail(LE(tx.locktime, 4) + EncodeApp(tx.app), tx.version, tx.inputs, tx.outputs) == Got(tx, [])
  {
    hide LE, FromLE, ReadLE, ReadApp, EncodeApp, Pow256;
    Widths();
    LEReads(tx.locktime, 4, EncodeApp(tx.app));
    AppReads(tx.app, []);
    assert EncodeApp(tx.app) + [] == EncodeApp(tx.app);
  }

  /** The node's limits on a transaction. */
  predicate WithinLimits(tx: Tx) {
    InRange(tx) && |tx.inputs| <= MAX_TX_INPUTS && |tx.outputs| <= MAX_TX_OUTPUTS && |Encode(tx)| <= MAX_TX_BYTES
  }

  lemma TxReads(tx: Tx)
    requires InRange(tx) && |tx.inputs| <= MAX_TX_INPUTS && |tx.outputs| <= MAX_TX_OUTPUTS
    ensures ReadTx(Encode(tx)) == Got(tx, [])
  {
    hide LE, FromLE, ReadLE, ReadInputs, ReadOutputs, EncodeInputs, EncodeOutputs, ReadTail, EncodeApp, Pow256;
    Widths();
    var t5 := LE(tx.locktime, 4) + EncodeApp(tx.app);
    var t4 := EncodeOutputs(tx.outputs) + t5;
    var t3 := LE(|tx.outputs|, 8) + t4;
    var t2 := EncodeInputs(tx.inputs) + t3;
    LEReads(tx.version, 4, LE(|tx.inputs|, 8) + t2);
    LEReads(|tx.inputs|, 8, t2);
    InputsRead(tx.inputs, t3);
    LEReads(|tx.outputs|, 8, t4);
    OutputsRead(tx.outputs, t5);
    TailReads(tx);
  }

  /** Every transaction within the limits is read back as it was written. */
  lemma DecodeEncode(tx: Tx)
    requires WithinLimits(tx)
    ensures Decode(Encode(tx)) == Some(tx)
  {
    TxReads(tx);
  }

  // ----- writing again what was read -----

  lemma LEWrites(s: seq<byte>, k: nat)
    requires ReadLE(s, k).Got?
    ensures var r := ReadLE(s, k); r.value < Pow256(k) && s == LE(r.value, k) + r.rest
  {
    ToFromLE(s[..k]);
    assert s == s[..k] + s[k..];
  }

  lemma TakeWrites(s: seq<byte>, n: nat)
    requires ReadTake(s, n).Got?
    ensures var r := ReadTake(s, n); |r.value| == n && s == r.value + r.rest
  {
  }

  lemma VecWrites(s: seq<byte>)
    requires ReadVec(s).Got?
    ensures var r := ReadVec(s); |r.value| <= U64_MAX && s == Len(r.value) + r.rest
  {
    hide LE, FromLE, ReadLE, ReadTake, Pow256;
    Widths();
    var n := ReadLE(s, 8);
    LEWrites(s, 8);
    TakeWrites(n.rest, n.value);
    var r := ReadVec(s);
    assert LE(|r.value|, 8) + (r.value + r.rest) == Len(r.value) + r.rest;
  }

  lemma InputWrites(s: seq<byte>)
    requires ReadInput(s).Got?
    ensures var r := ReadInput(s); InputInRange(r.value) && s == EncodeInput(r.value) + r.rest
  {
    hide LE, FromLE, ReadLE, ReadTake, ReadVec, Len, Pow256;
    Widths();
    var p := ReadTake(s, 32);
    var v := ReadLE(p.rest, 4);
    var g := ReadVec(v.rest);
    TakeWrites(s, 32);
    LEWrites(p.rest, 4);
    VecWrites(v.rest);
    assert p.value + (LE(v.value, 4) + (Len(g.value) + g.rest)) == EncodeInput(ReadInput(s).value) + g.rest;
  }

  lemma {:induction false} InputsWrite(s: seq<byte>, n: nat)
    requires ReadInputs(s, n).Got?
    ensures var r := ReadInputs(s, n);
      |r.value| == n && s == EncodeInputs(r.value) + r.rest && forall k :: 0 <= k < n ==> InputInRange(r.value[k])
    decreases n
  {
    hide ReadInput, EncodeInput, InputInRange;
    if n == 0 {
      assert EncodeInputs([]) + s == s;
    } else {
      var i := ReadInput(s);
      InputWrites(s);
      InputsWrite(i.rest, n - 1);
      var more := ReadInputs(i.rest, n - 1);
      var all := [i.value] + more.value;
      assert all[1..] == more.value;
      assert EncodeInput(i.value) + (EncodeInputs(more.value) + more.rest) == EncodeInputs(all) + more.rest;
    }
  }

  lemma OutputWrites(s: seq<byte>)
    requires ReadOutput(s).Got?
    ensures var r := ReadOutput(s); OutputInRange(r.value) && s == EncodeOutput(r.value) + r.rest
  {
    hide LE, FromLE, ReadLE, ReadTake, Pow256;
    Widths();
    var v := ReadLE(s, 8);
    LEWrites(s, 8);
    TakeWrites(v.rest, 20);
    var r := ReadOutput(s);
    assert LE(v.value, 8) + (r.value.scriptPubkey + r.rest) == EncodeOutput(r.value) + r.rest;
  }

  lemma {:induction false} OutputsWrite(s: seq<byte>, n: nat)
    requires ReadOutputs(s, n).Got?
    ensures var r := ReadOutputs(s, n);
      |r.value| == n && s == EncodeOutputs(r.value) + r.rest && forall k :: 0 <= k < n ==> OutputInRange(r.value[k])
    decreases n
  {
    hide ReadOutput, EncodeOutput, OutputInRange;
    if n == 0 {
      assert EncodeOutputs([]) + s == s;
    } else {
      var o := ReadOutput(s);
      OutputWrites(s);
      OutputsWrite(o.rest, n - 1);
      var more := ReadOutputs(o.rest, n - 1);
      var all := [o.value] + more.value;
      assert all[1..] == more.value;
      assert EncodeOutput(o.value) + (EncodeOutputs(more.value) + more.rest) == EncodeOutputs(all) + more.rest;
    }
  }

  lemma ProposeWrites(s: seq<byte>)
    requires ReadPropose(s).Got?
    ensures var r := ReadPropose(s);
      r.value.Propose? && AppInRange(r.value) && LE(1, 4) + s == EncodeApp(r.value) + r.rest
  {
    hide LE, FromLE, ReadLE, ReadTake, ReadVec, ValidUtf8, Len, Pow256;
    Widths();
    var d := ReadStr(s);
    var h := ReadTake(d.rest, 32);
    var u := ReadStr(h.rest);
    var e := ReadLE(u.rest, 8);
    VecWrites(s);
    TakeWrites(d.rest, 32);
    VecWrites(h.rest);
    LEWrites(u.rest, 8);
    assert LE(1, 4) + (Len(d.value) + (h.value + (Len(u.value) + (LE(e.value, 8) + e.rest))))
        == EncodeApp(Propose(d.value, h.value, u.value, e.value)) + e.rest;
  }

  lemma AttestWrites(s: seq<byte>)
    requires ReadAttest(s).Got?
    ensures var r := ReadAttest(s);
      r.value.Attest? && AppInRange(r.value) && LE(2, 4) + s == EncodeApp(r.value) + r.rest
  {
    hide LE, FromLE, ReadLE, ReadTake, ValidUtf8, Pow256;
    Widths();
    var p := ReadTake(s, 32);
    var v := ReadLE(p.rest, 4);
    var c := ReadLE(v.rest, 4);
    TakeWrites(s, 32);
    LEWrites(p.rest, 4);
    LEWrites(v.rest, 4);
    assert LE(2, 4) + (p.value + (LE(v.value, 4) + (LE(c.value, 4) + c.rest)))
        == EncodeApp(Attest(p.value, v.value, c.value)) + c.rest;
  }

  lemma AppWrites(s: seq<byte>)
    requires ReadApp(s).Got?
    ensures var r := ReadApp(s); AppInRange(r.value) && s == EncodeApp(r.value) + r.rest
  {
    var tag := ReadLE(s, 4);
    LEWrites(s, 4);
    if tag.value == 1 { ProposeWrites(tag.rest); }
    if tag.value == 2 { AttestWrites(tag.rest); }
  }

  lemma TailWrites(s: seq<byte>, version: nat, ins: seq<TxInput>, outs: seq<TxOutput>)
    requires ReadTail(s, version, ins, outs).Got? && ReadTail(s, version, ins, outs).rest == []
    ensures var tx := ReadTail(s, version, ins, outs).value;
      tx.version == version && tx.inputs == ins && tx.outputs == outs && tx.locktime <= U32_MAX && AppInRange(tx.app)
      && s == LE(tx.locktime, 4) + EncodeApp(tx.app)
  {
    hide LE, FromLE, ReadLE, ReadApp, EncodeApp, Pow256;
    Widths();
    var lock := ReadLE(s, 4);
    LEWrites(s, 4);
    AppWrites(lock.rest);
    var tx := ReadTail(s, version, ins, outs).value;
    assert EncodeApp(tx.app) + [] == EncodeApp(tx.app);
  }

  /** Whatever the parser accepts is exactly what the writer makes of the result: nothing trails, and there is no
      second encoding of a transaction. */
  lemma EncodeDecode(bytes: seq<byte>)
    requires Decode(bytes).Some?
    ensures Encode(Decode(bytes).value) == bytes && WithinLimits(Decode(bytes).value)
  {
    hide LE, FromLE, ReadLE, ReadInputs, ReadOutputs, EncodeInputs, EncodeOutputs, ReadTail, EncodeApp, Pow256;
    Widths();
    var version := ReadLE(bytes, 4);
    var nIn := ReadLE(version.rest, 8);
    var ins := ReadInputs(nIn.rest, nIn.value);
    var nOut := ReadLE(ins.rest, 8);
    var outs := ReadOutputs(nOut.rest, nOut.value);
    LEWrites(bytes, 4);
    LEWrites(version.rest, 8);
    InputsWrite(nIn.rest, nIn.value);
    LEWrites(ins.rest, 8);
    OutputsWrite(nOut.rest, nOut.value);
    TailWrites(outs.rest, version.value, ins.value, outs.value);
  }

  // ----- injectivity, with no limit on the lists -----

  lemma {:induction false} InputsInjective(a: seq<TxInput>, b: seq<TxInput>, x: seq<byte>, y: seq<byte>)
    requires forall k :: 0 <= k < |a| ==> InputInRange(a[k])
    requires forall k :: 0 <= k < |b| ==> InputInRange(b[k])
    requires |a| == |b| && EncodeInputs(a) + x == EncodeInputs(b) + y
    ensures a == b && x == y
  {
    InputsRead(a, x);
    InputsRead(b, y);
  }

  lemma {:induction false} OutputsInjective(a: seq<TxOutput>, b: seq<TxOutput>, x: seq<byte>, y: seq<byte>)
    requires forall k :: 0 <= k < |a| ==> OutputInRange(a[k])
    requires forall k :: 0 <= k < |b| ==> OutputInRange(b[k])
    requires |a| == |b| && EncodeOutputs(a) + x == EncodeOutputs(b) + y
    ensures a == b && x == y
  {
    OutputsRead(a, x);
    OutputsRead(b, y);
  }

  lemma LEInjective(m: nat, n: nat, k: nat, x: seq<byte>, y: seq<byte>)
    requires m < Pow256(k) && n < Pow256(k) && LE(m, k) + x == LE(n, k) + y
    ensures m == n && x == y
  {
    LEReads(m, k, x);
    LEReads(n, k, y);
  }

  /** No two transactions have the same bytes. */
  lemma EncodeInjective(a: Tx, b: Tx)
    requires InRange(a) && InRange(b) && Encode(a) == Encode(b)
    ensures a == b
  {
    Widths();
    var a5, b5 := LE(a.locktime, 4) + EncodeApp(a.app), LE(b.locktime, 4) + EncodeApp(b.app);
    var a3, b3 := LE(|a.outputs|, 8) + (EncodeOutputs(a.outputs) + a5), LE(|b.outputs|, 8) + (EncodeOutputs(b.outputs) + b5);
    var a2, b2 := EncodeInputs(a.inputs) + a3, EncodeInputs(b.inputs) + b3;
    LEInjective(a.version, b.version, 4, LE(|a.inputs|, 8) + a2, LE(|b.inputs|, 8) + b2);
    LEInjective(|a.inputs|, |b.inputs|, 8, a2, b2);
    InputsInjective(a.inputs, b.inputs, a3, b3);
    LEInjective(|a.outputs|, |b.outputs|, 8, EncodeOutputs(a.outputs) + a5, EncodeOutputs(b.outputs) + b5);
    OutputsInjective(a.outputs, b.outputs, a5, b5);
    LEInjective(a.locktime, b.locktime, 4, EncodeApp(a.app), EncodeApp(b.app));
    AppReads(a.app, []);
    AppReads(b.app, []);
    assert EncodeApp(a.app) + [] == EncodeApp(b.app) + [];
  }

  /** The two transactions agree on everything but the scriptSigs of non-coinbase inputs. */
  predicate SameBesidesScripts(a: Tx, b: Tx) {
    && a.version == b.version && a.outputs == b.outputs && a.locktime == b.locktime && a.app == b.app
    && |a.inputs| == |b.inputs|
    && forall k :: 0 <= k < |a.inputs| ==>
         a.inputs[k].prevTxid == b.inputs[k].prevTxid && a.inputs[k].vout == b.inputs[k].vout
         && (IsCoinbaseInput(a.inputs[k]) ==> a.inputs[k] == b.inputs[k])
  }

  lemma StrippedInRange(tx: Tx)
    requires InRange(tx)
    ensures InRange(Stripped(tx))
  {
  }

  /** The bytes an id commits to fix the transaction up to the scriptSigs, and only those. */
  lemma StrippedFixes(a: Tx, b: Tx)
    requires InRange(a) && InRange(b)
    ensures Encode(Stripped(a)) == Encode(Stripped(b)) <==> SameBesidesScripts(a, b)
  {
    hide Encode, InRange;
    StrippedInRange(a);
    StrippedInRange(b);
    if Encode(Stripped(a)) == Encode(Stripped(b)) {
      EncodeInjective(Stripped(a), Stripped(b));
      forall k | 0 <= k < |a.inputs|
        ensures a.inputs[k].prevTxid == b.inputs[k].prevTxid && a.inputs[k].vout == b.inputs[k].vout
                && (IsCoinbaseInput(a.inputs[k]) ==> a.inputs[k] == b.inputs[k])
      {
        assert Stripped(a).inputs[k] == Stripped(b).inputs[k];
      }
    }
    if SameBesidesScripts(a, b) {
      assert Stripped(a).inputs == Stripped(b).inputs;
    }
  }

  // ----- a transaction is never an inner node -----

  lemma {:induction false} InputsLength(ins: seq<TxInput>)
    requires forall k :: 0 <= k < |ins| ==> InputInRange(ins[k])
    ensures |EncodeInputs(ins)| >= 44 * |ins|
  {
    if ins != [] { InputsLength(ins[1..]); }
  }

  lemma {:induction false} OutputsLength(outs: seq<TxOutput>)
    requires forall k :: 0 <= k < |outs| ==> OutputInRange(outs[k])
    ensures |EncodeOutputs(outs)| == 28 * |outs|
  {
    if outs != [] { OutputsLength(outs[1..]); }
  }

  /** No transaction serializes to exactly 64 bytes, so no leaf can pose as a pair of hashes. */
  lemma NeverSixtyFour(tx: Tx)
    requires InRange(tx)
    ensures |Encode(tx)| != 64
  {
    InputsLength(tx.inputs);
    OutputsLength(tx.outputs);
    var body := |EncodeInputs(tx.inputs)| + |EncodeOutputs(tx.outputs)|;
    assert |Encode(tx)| == 24 + body + |EncodeApp(tx.app)|;
    if tx.inputs != [] {
      assert body >= 44;
    } else {
      assert body == 28 * |tx.outputs|;
      assert tx.app.NoApp? ==> |EncodeApp(tx.app)| == 4;
      assert !tx.app.NoApp? ==> |EncodeApp(tx.app)| >= 44;
    }
  }
}
