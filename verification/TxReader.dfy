/** The codec as it runs: the Reader whose offset advances over untrusted bytes, and the loops of serialize and
    deserialize (packages/codec/src/tx.ts), proved against the codec's functions. A thrown error is None. */
module TxReader {
  import opened Rules
  import opened Bytes
  import opened TxCodec

  class Reader {
    const b: seq<byte>
    var o: nat

    ghost predicate Valid() reads this { o <= |b| }

    /** The bytes not read yet. */
    ghost function Left(): seq<byte>
      reads this
      requires Valid()
    {
      b[o..]
    }

    /** The outcome `r` of a read is what the reading function says of the bytes that were left. */
    ghost predicate Follows<T>(r: Option<T>, spec: Read<T>)
      reads this
    {
      Valid() && match spec case Stop => r.None? case Got(v, rest) => r == Some(v) && Left() == rest
    }

    constructor (bytes: seq<byte>)
      ensures Valid() && Left() == bytes && b == bytes
    {
      b, o := bytes, 0;
    }

    method U32() returns (r: Option<nat>)
      requires Valid()
      modifies this`o
      ensures Follows(r, ReadLE(old(Left()), 4))
    {
      if o + 4 > |b| { return None; }
      r := Some(FromLE(b[o..o + 4]));
      assert b[o..][..4] == b[o..o + 4];
      o := o + 4;
    }

    method U64() returns (r: Option<nat>)
      requires Valid()
      modifies this`o
      ensures Follows(r, ReadLE(old(Left()), 8))
    {
      if o + 8 > |b| { return None; }
      r := Some(FromLE(b[o..o + 8]));
      assert b[o..][..8] == b[o..o + 8];
      o := o + 8;
    }

    method Take(n: nat) returns (r: Option<seq<byte>>)
      requires Valid()
      modifies this`o
      ensures Follows(r, ReadTake(old(Left()), n))
    {
      if o + n > |b| { return None; }
      r := Some(b[o..o + n]);
      assert b[o..][..n] == b[o..o + n];
      o := o + n;
    }

    method Vec() returns (r: Option<seq<byte>>)
      requires Valid()
      modifies this`o
      ensures Follows(r, ReadVec(old(Left())))
    {
      hide ReadLE, ReadTake;
      var n := U64();
      if n.None? { return None; }
      r := Take(n.value);
    }

    method Str() returns (r: Option<seq<byte>>)
      requires Valid()
      modifies this`o
      ensures Follows(r, ReadStr(old(Left())))
    {
      hide ReadVec, ValidUtf8;
      r := Vec();
      if r.Some? && !ValidUtf8(r.value) { return None; }
    }

    method Input() returns (r: Option<TxInput>)
      requires Valid()
      modifies this`o
      ensures Follows(r, ReadInput(old(Left())))
    {
      hide ReadLE, ReadTake, ReadVec;
      var prevTxid := Take(32);
      if prevTxid.None? { return None; }
      var vout := U32();
      if vout.None? { return None; }
      var scriptSig := Vec();
      if scriptSig.None? { return None; }
      r := Some(TxInput(prevTxid.value, vout.value, scriptSig.value));
    }

    method Output() returns (r: Option<TxOutput>)
      requires Valid()
      modifies this`o
      ensures Follows(r, ReadOutput(old(Left())))
    {
      hide ReadLE, ReadTake;
      var value := U64();
      if value.None? { return None; }
      var scriptPubkey := Take(20);
      if scriptPubkey.None? { return None; }
      r := Some(TxOutput(value.value, scriptPubkey.value));
    }

    method Inputs(n: nat) returns (r: Option<seq<TxInput>>)
      requires Valid()
      modifies this`o
      ensures Follows(r, ReadInputs(old(Left()), n))
    {
      hide ReadInput;
      var inputs: seq<TxInput> := [];
      PrependNone(ReadInputs(Left(), n));
      for i := 0 to n
        invariant Valid() && ReadInputs(old(Left()), n) == Prepend(inputs, ReadInputs(Left(), n - i))
      {
        var left := Left();
        var x := Input();
        if x.None? { return None; }
        assert ReadInputs(left, n - i) == Prepend([x.value], ReadInputs(Left(), n - i - 1));
        PrependTwice(inputs, x.value, ReadInputs(Left(), n - i - 1));
        inputs := inputs + [x.value];
      }
      assert inputs + [] == inputs;
      r := Some(inputs);
    }

    method Outputs(n: nat) returns (r: Option<seq<TxOutput>>)
      requires Valid()
      modifies this`o
      ensures Follows(r, ReadOutputs(old(Left()), n))
    {
      hide ReadOutput;
      var outputs: seq<TxOutput> := [];
      PrependNone(ReadOutputs(Left(), n));
      for i := 0 to n
        invariant Valid() && ReadOutputs(old(Left()), n) == Prepend(outputs, ReadOutputs(Left(), n - i))
      {
        var left := Left();
        var x := Output();
        if x.None? { return None; }
        assert ReadOutputs(left, n - i) == Prepend([x.value], ReadOutputs(Left(), n - i - 1));
        PrependTwice(outputs, x.value, ReadOutputs(Left(), n - i - 1));
        outputs := outputs + [x.value];
      }
      assert outputs + [] == outputs;
      r := Some(outputs);
    }

    method AppPayload() returns (r: Option<App>)
      requires Valid()
      modifies this`o
      ensures Follows(r, ReadApp(old(Left())))
    {
      hide ReadLE, ReadTake, ReadStr;
      var tag := U32();
      if tag.None? { return None; }
      if tag.value == 0 { return Some(NoApp); }
      if tag.value == 1 {
        var domain := Str();
        if domain.None? { return None; }
        var payloadHash := Take(32);
        if payloadHash.None? { return None; }
        var uri := Str();
        if uri.None? { return None; }
        var expiresEpoch := U64();
        if expiresEpoch.None? { return None; }
        return Some(Propose(domain.value, payloadHash.value, uri.value, expiresEpoch.value));
      }
      if tag.value == 2 {
        var proposalId := Take(32);
        if proposalId.None? { return None; }
        var score := U32();
        if score.None? { return None; }
        var confidence := U32();
        if confidence.None? { return None; }
        return Some(Attest(proposalId.value, score.value, confidence.value));
      }
      return None;
    }

    /** A whole transaction: the limits on the lists are checked before their loops. */
    method Transaction() returns (r: Option<Tx>)
      requires Valid()
      modifies this`o
      ensures Follows(r, ReadTx(old(Left())))
    {
      hide ReadLE, ReadInputs, ReadOutputs, ReadApp;
      var version := U32();
      if version.None? { return None; }
      var nIn := U64();
      if nIn.None? || nIn.value > MAX_TX_INPUTS { return None; }
      var inputs := Inputs(nIn.value);
      if inputs.None? { return None; }
      var nOut := U64();
      if nOut.None? || nOut.value > MAX_TX_OUTPUTS { return None; }
      var outputs := Outputs(nOut.value);
      if outputs.None? { return None; }
      var locktime := U32();
      if locktime.None? { return None; }
      var app := AppPayload();
      if app.None? { return None; }
      r := Some(Tx(version.value, inputs.value, outputs.value, locktime.value, app.value));
    }
  }

  ghost function Prepend<T>(xs: seq<T>, r: Read<seq<T>>): Read<seq<T>> { if r.Stop? then Stop else Got(xs + r.value, r.rest) }

  lemma PrependNone<T>(r: Read<seq<T>>)
    ensures Prepend([], r) == r
  {
    if r.Got? { assert [] + r.value == r.value; }
  }

  lemma PrependTwice<T>(xs: seq<T>, x: T, r: Read<seq<T>>)
    ensures Prepend(xs, Prepend([x], r)) == Prepend(xs + [x], r)
  {
    if r.Got? { assert xs + ([x] + r.value) == xs + [x] + r.value; }
  }

  /** Parse untrusted bytes: trailing bytes are refused. */
  method Deserialize(bytes: seq<byte>) returns (r: Option<Tx>)
    ensures r == Decode(bytes)
  {
    hide ReadTx;
    if |bytes| > MAX_TX_BYTES { return None; }
    var reader := new Reader(bytes);
    r := reader.Transaction();
    if reader.o != |bytes| { return None; }
  }

  lemma {:induction false} EncodeInputsPush(ins: seq<TxInput>, x: TxInput)
    ensures EncodeInputs(ins + [x]) == EncodeInputs(ins) + EncodeInput(x)
  {
    hide EncodeInput;
    if ins == [] {
      assert [x][1..] == [] && EncodeInputs([x]) == EncodeInput(x) + [];
    } else {
      assert (ins + [x])[1..] == ins[1..] + [x];
      EncodeInputsPush(ins[1..], x);
    }
  }

  lemma {:induction false} EncodeOutputsPush(outs: seq<TxOutput>, x: TxOutput)
    ensures EncodeOutputs(outs + [x]) == EncodeOutputs(outs) + EncodeOutput(x)
  {
    hide EncodeOutput;
    if outs == [] {
      assert [x][1..] == [] && EncodeOutputs([x]) == EncodeOutput(x) + [];
    } else {
      assert (outs + [x])[1..] == outs[1..] + [x];
      EncodeOutputsPush(outs[1..], x);
    }
  }

  method WriteInputs(inputs: seq<TxInput>) returns (r: Option<seq<byte>>)
    ensures r == if forall k :: 0 <= k < |inputs| ==> InputInRange(inputs[k]) then Some(EncodeInputs(inputs)) else None
  {
    hide EncodeInput, InputInRange;
    var parts: seq<byte> := [];
    for k := 0 to |inputs|
      invariant forall i :: 0 <= i < k ==> InputInRange(inputs[i])
      invariant parts == EncodeInputs(inputs[..k])
    {
      if !InputInRange(inputs[k]) { return None; }
      EncodeInputsPush(inputs[..k], inputs[k]);
      assert inputs[..k + 1] == inputs[..k] + [inputs[k]];
      parts := parts + EncodeInput(inputs[k]);
    }
    assert inputs[..|inputs|] == inputs;
    r := Some(parts);
  }

  method WriteOutputs(outputs: seq<TxOutput>) returns (r: Option<seq<byte>>)
    ensures r == if forall k :: 0 <= k < |outputs| ==> OutputInRange(outputs[k]) then Some(EncodeOutputs(outputs)) else None
  {
    hide EncodeOutput, OutputInRange;
    var parts: seq<byte> := [];
    for k := 0 to |outputs|
      invariant forall i :: 0 <= i < k ==> OutputInRange(outputs[i])
      invariant parts == EncodeOutputs(outputs[..k])
    {
      if !OutputInRange(outputs[k]) { return None; }
      EncodeOutputsPush(outputs[..k], outputs[k]);
      assert outputs[..k + 1] == outputs[..k] + [outputs[k]];
      parts := parts + EncodeOutput(outputs[k]);
    }
    assert outputs[..|outputs|] == outputs;
    r := Some(parts);
  }

  /** Write a transaction as it is; a field that does not fit its width throws. */
  method Serialize(tx: Tx) returns (r: Option<seq<byte>>)
    ensures r == if InRange(tx) then Some(Encode(tx)) else None
  {
    hide InputInRange, OutputInRange, AppInRange, EncodeInputs, EncodeOutputs, EncodeApp, LE;
    if tx.version > U32_MAX || |tx.inputs| > U64_MAX { return None; }
    var inputs := WriteInputs(tx.inputs);
    if inputs.None? || |tx.outputs| > U64_MAX { return None; }
    var outputs := WriteOutputs(tx.outputs);
    if outputs.None? || tx.locktime > U32_MAX || !AppInRange(tx.app) { return None; }
    r := Some(LE(tx.version, 4) + LE(|tx.inputs|, 8) + inputs.value + LE(|tx.outputs|, 8) + outputs.value
              + LE(tx.locktime, 4) + EncodeApp(tx.app));
    assert r.value == Encode(tx);
  }
}
