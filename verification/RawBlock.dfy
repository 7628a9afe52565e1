/**
 Splitting a raw block into its transactions ("Serialization" in BIP 144, CompactSize
 integers), as the block feed does it: sizes are walked, scripts are not interpreted.
 None stands for a read past the end of the buffer, which throws. Sizes are exact
 integers; lib/zmq.ts reads 64-bit ones, exact below 2^53.
 */
module RawBlock {
  import opened Options
  import opened Bytes

  datatype VarInt = VarInt(value: nat, size: nat)

  function ReadVarInt(data: seq<byte>, offset: nat): (r: Option<VarInt>)
    ensures r.Some? ==> r.value.size > 0
  {
    if offset >= |data| then None
    else if data[offset] < 0xfd then Some(VarInt(data[offset], 1))
    else
      var width := if data[offset] == 0xfd then 2 else if data[offset] == 0xfe then 4 else 8;
      if offset + 1 + width > |data| then None
      else Some(VarInt(FromLittle(data[offset + 1..offset + 1 + width]), 1 + width))
  }

  // ---- What the walk computes -----------------------------------------------

  /** The offset behind a CompactSize-prefixed string. */
  function SkipString(buf: seq<byte>, o: nat): (r: Option<nat>)
    ensures r.Some? ==> r.value > o
  {
    match ReadVarInt(buf, o)
    case None => None
    case Some(len) => Some(o + len.size + len.value)
  }

  function SkipInputs(buf: seq<byte>, o: nat, n: nat): (r: Option<nat>)
    ensures r.Some? ==> r.value >= o
    decreases n
  {
    if n == 0 then Some(o)
    else match SkipString(buf, o + 36)
      case None => None
      case Some(end) => SkipInputs(buf, end + 4, n - 1)
  }

  function SkipOutputs(buf: seq<byte>, o: nat, n: nat): (r: Option<nat>)
    ensures r.Some? ==> r.value >= o
    decreases n
  {
    if n == 0 then Some(o)
    else match SkipString(buf, o + 8)
      case None => None
      case Some(end) => SkipOutputs(buf, end, n - 1)
  }

  function SkipStrings(buf: seq<byte>, o: nat, n: nat): (r: Option<nat>)
    ensures r.Some? ==> r.value >= o
    decreases n
  {
    if n == 0 then Some(o)
    else match SkipString(buf, o)
      case None => None
      case Some(end) => SkipStrings(buf, end, n - 1)
  }

  function SkipWitnesses(buf: seq<byte>, o: nat, n: nat): (r: Option<nat>)
    ensures r.Some? ==> r.value >= o
    decreases n
  {
    if n == 0 then Some(o)
    else match ReadVarInt(buf, o)
      case None => None
      case Some(items) =>
        match SkipStrings(buf, o + items.size, items.value)
        case None => None
        case Some(end) => SkipWitnesses(buf, end, n - 1)
  }

  /** The marker byte is zero and the flag byte is not; an absent byte is not zero. */
  predicate Segwit(buf: seq<byte>, o: nat) {
    o < |buf| && buf[o] == 0 && !(o + 1 < |buf| && buf[o + 1] == 0)
  }

  /** The input count and the offset behind the inputs. */
  function SkipVin(buf: seq<byte>, o: nat): (r: Option<VarInt>)
    ensures r.Some? ==> r.value.size >= o
  {
    match ReadVarInt(buf, o)
    case None => None
    case Some(vin) =>
      match SkipInputs(buf, o + vin.size, vin.value)
      case None => None
      case Some(end) => Some(VarInt(vin.value, end))
  }

  function SkipVout(buf: seq<byte>, o: nat): (r: Option<nat>)
    ensures r.Some? ==> r.value >= o
  {
    match ReadVarInt(buf, o)
    case None => None
    case Some(vout) => SkipOutputs(buf, o + vout.size, vout.value)
  }

  function TxSize(buf: seq<byte>, start: nat): Option<nat> {
    var segwit := Segwit(buf, start + 4);
    match SkipVin(buf, start + 4 + if segwit then 2 else 0)
    case None => None
    case Some(vin) =>
      match SkipVout(buf, vin.size)
      case None => None
      case Some(outs) =>
        match if segwit then SkipWitnesses(buf, outs, vin.value) else Some(outs)
        case None => None
        case Some(end) => Some(end + 4 - start)
  }

  // ---- The walk: rawTxSize's three loops, rawTxSize, and the block handler ---

  method InputsEnd(buf: seq<byte>, start: nat) returns (r: Option<VarInt>)
    ensures r == SkipVin(buf, start)
  {
    var vin := ReadVarInt(buf, start);
    if vin.None? { return None; }
    var n := vin.value.value;
    var offset: nat := start + vin.value.size;
    ghost var first := offset;
    for i := 0 to n
      invariant SkipInputs(buf, offset, n - i) == SkipInputs(buf, first, n)
    {
      offset := offset + 36;
      var script := ReadVarInt(buf, offset);
      if script.None? { return None; }
      offset := offset + script.value.size + script.value.value + 4;
    }
    return Some(VarInt(n, offset));
  }

  method OutputsEnd(buf: seq<byte>, start: nat) returns (r: Option<nat>)
    ensures r == SkipVout(buf, start)
  {
    var vout := ReadVarInt(buf, start);
    if vout.None? { return None; }
    var n := vout.value.value;
    var offset: nat := start + vout.value.size;
    ghost var first := offset;
    for i := 0 to n
      invariant SkipOutputs(buf, offset, n - i) == SkipOutputs(buf, first, n)
    {
      offset := offset + 8;
      var script := ReadVarInt(buf, offset);
      if script.None? { return None; }
      offset := offset + script.value.size + script.value.value;
    }
    return Some(offset);
  }

  method StringsEnd(buf: seq<byte>, start: nat, n: nat) returns (r: Option<nat>)
    ensures r == SkipStrings(buf, start, n)
  {
    var offset: nat := start;
    for j := 0 to n
      invariant SkipStrings(buf, offset, n - j) == SkipStrings(buf, start, n)
    {
      var item := ReadVarInt(buf, offset);
      if item.None? { return None; }
      offset := offset + item.value.size + item.value.value;
    }
    return Some(offset);
  }

  method WitnessesEnd(buf: seq<byte>, start: nat, n: nat) returns (r: Option<nat>)
    ensures r == SkipWitnesses(buf, start, n)
  {
    var offset: nat := start;
    for i := 0 to n
      invariant SkipWitnesses(buf, offset, n - i) == SkipWitnesses(buf, start, n)
    {
      var items := ReadVarInt(buf, offset);
      if items.None? { return None; }
      var end := StringsEnd(buf, offset + items.value.size, items.value.value);
      if end.None? { return None; }
      offset := end.value;
    }
    return Some(offset);
  }

  method RawTxSize(buf: seq<byte>, start: nat) returns (r: Option<nat>)
    ensures r == TxSize(buf, start)
  {
    var offset: nat := start + 4;
    var segwit := Segwit(buf, offset);
    if segwit { offset := offset + 2; }
    var vin := InputsEnd(buf, offset);
    if vin.None? { return None; }
    var end := OutputsEnd(buf, vin.value.size);
    if end.None? { return None; }
    if segwit {
      end := WitnessesEnd(buf, end.value, vin.value.value);
      if end.None? { return None; }
    }
    return Some(end.value + 4 - start);
  }

  /** raw.subarray(from, to), which clamps. */
  function Subarray(raw: seq<byte>, from: nat, to: nat): seq<byte>
    requires from <= to
  {
    raw[if from < |raw| then from else |raw|..if to < |raw| then to else |raw|]
  }

  /** The transactions from offset o on: n of them, or as many as the walk gets through. */
  function Split(raw: seq<byte>, o: nat, n: nat): seq<seq<byte>>
    decreases n
  {
    if n == 0 then []
    else match TxSize(raw, o)
      case None => []
      case Some(size) => [Subarray(raw, o, o + size)] + Split(raw, o + size, n - 1)
  }

  /** The block's transactions, and whether the walk got through all of them. */
  function Transactions(raw: seq<byte>): (seq<seq<byte>>, bool) {
    match ReadVarInt(raw, 80)
    case None => ([], false)
    case Some(count) =>
      var txs := Split(raw, 80 + count.size, count.value);
      (txs, |txs| == count.value)
  }

  lemma SplitStep(raw: seq<byte>, o: nat, n: nat, done: seq<seq<byte>>, size: nat)
    requires n > 0 && TxSize(raw, o) == Some(size)
    ensures done + Split(raw, o, n) == done + [Subarray(raw, o, o + size)] + Split(raw, o + size, n - 1)
  {
    hide TxSize;
    var tx, rest := Subarray(raw, o, o + size), Split(raw, o + size, n - 1);
    assert done + ([tx] + rest) == done + [tx] + rest;
  }

  /** What is handed to processWatchedTx, and whether the handler returned. */
  method HandleRawBlock(raw: seq<byte>) returns (handed: seq<seq<byte>>, ok: bool)
    ensures var (txs, all) := Transactions(raw);
            ok == all && handed == if txs == [] then [] else txs[1..]
  {
    hide TxSize;
    handed := [];
    var count := ReadVarInt(raw, 80);
    if count.None? { return [], false; }
    var n := count.value.value;
    var offset: nat := 80 + count.value.size;
    ghost var first, done: seq<seq<byte>> := offset, [];
    for i := 0 to n
      invariant |done| == i && handed == if i == 0 then [] else done[1..]
      invariant Split(raw, first, n) == done + Split(raw, offset, n - i)
    {
      var size := RawTxSize(raw, offset);
      if size.None? {
        assert Split(raw, first, n) == done;
        return handed, false;
      }
      SplitStep(raw, offset, n - i, done, size.value);
      var tx := Subarray(raw, offset, offset + size.value);
      offset := offset + size.value;
      done := done + [tx];
      if i == 0 { continue; }
      handed := handed + [tx];
    }
    assert Split(raw, first, n) == done;
    return handed, true;
  }

  // ---- Serialization --------------------------------------------------------

  function CompactSize(n: nat): seq<byte> {
    if n < 0xfd then [n]
    else if n < Pow256(2) then [0xfd] + ToLittle(n, 2)
    else if n < Pow256(4) then [0xfe] + ToLittle(n, 4)
    else [0xff] + ToLittle(n, 8)
  }

  datatype Input = Input(outpoint: seq<byte>, script: seq<byte>, sequence: seq<byte>)

  datatype Output = Output(value: seq<byte>, script: seq<byte>)

  /** An input's witness items. */
  type Stack = seq<seq<byte>>

  /** stacks, when present, has one stack per input. */
  datatype Tx = Tx(version: seq<byte>, ins: seq<Input>, outs: seq<Output>,
                   stacks: Option<seq<Stack>>, locktime: seq<byte>)

  predicate Fits(n: nat) { n < Pow256(8) }

  predicate InputsFit(ins: seq<Input>) {
    forall i :: 0 <= i < |ins| ==>
      |ins[i].outpoint| == 36 && Fits(|ins[i].script|) && |ins[i].sequence| == 4
  }

  predicate OutputsFit(outs: seq<Output>) {
    forall i :: 0 <= i < |outs| ==> |outs[i].value| == 8 && Fits(|outs[i].script|)
  }

  predicate StackFits(items: Stack) {
    Fits(|items|) && forall i :: 0 <= i < |items| ==> Fits(|items[i]|)
  }

  predicate StacksFit(stacks: seq<Stack>) {
    forall i :: 0 <= i < |stacks| ==> StackFits(stacks[i])
  }

  predicate Sized(tx: Tx) {
    && |tx.version| == 4 && |tx.locktime| == 4 && Fits(|tx.ins|) && Fits(|tx.outs|)
    && InputsFit(tx.ins) && OutputsFit(tx.outs)
    && (tx.stacks.Some? ==> |tx.stacks.value| == |tx.ins| && StacksFit(tx.stacks.value))
  }

  function SerString(x: seq<byte>): seq<byte> { CompactSize(|x|) + x }

  function SerInputs(ins: seq<Input>): seq<byte> {
    if ins == [] then []
    else ins[0].outpoint + (SerString(ins[0].script) + (ins[0].sequence + SerInputs(ins[1..])))
  }

  function SerOutputs(outs: seq<Output>): seq<byte> {
    if outs == [] then []
    else outs[0].value + (SerString(outs[0].script) + SerOutputs(outs[1..]))
  }

  function SerStrings(items: seq<seq<byte>>): seq<byte> {
    if items == [] then [] else SerString(items[0]) + SerStrings(items[1..])
  }

  function SerWitness(stacks: seq<Stack>): seq<byte> {
    if stacks == [] then []
    else CompactSize(|stacks[0]|) + (SerStrings(stacks[0]) + SerWitness(stacks[1..]))
  }

  /** The part behind the witness marker. */
  function SerBody(tx: Tx): seq<byte> {
    CompactSize(|tx.ins|) +
    (SerInputs(tx.ins) +
     (CompactSize(|tx.outs|) +
      (SerOutputs(tx.outs) +
       ((if tx.stacks.Some? then SerWitness(tx.stacks.value) else []) + tx.locktime))))
  }

  /** The witness form with marker 0x00 and flag 0x01, or the legacy form. */
  function Serialize(tx: Tx): seq<byte> {
    tx.version + ((if tx.stacks.Some? then [0x00, 0x01] else []) + SerBody(tx))
  }

  lemma ReadCompactSize(buf: seq<byte>, o: nat, n: nat)
    requires Fits(n) && Holds(buf, o, CompactSize(n))
    ensures ReadVarInt(buf, o) == Some(VarInt(n, |CompactSize(n)|))
  {
    var x := CompactSize(n);
    assert buf[o] == x[0];
    if n >= 0xfd {
      var width := |x| - 1;
      assert buf[o + 1..o + 1 + width] == x[1..];
      LittleRoundTrip(n, width);
    }
  }

  lemma ReadString(buf: seq<byte>, o: nat, x: seq<byte>)
    requires Fits(|x|) && Holds(buf, o, SerString(x))
    ensures SkipString(buf, o) == Some(o + |SerString(x)|)
  {
    HoldsSplit(buf, o, CompactSize(|x|), x);
    ReadCompactSize(buf, o, |x|);
  }

  lemma ReadInput(buf: seq<byte>, o: nat, x: Input, rest: seq<byte>)
    requires |x.outpoint| == 36 && Fits(|x.script|) && |x.sequence| == 4
    requires Holds(buf, o, x.outpoint + (SerString(x.script) + (x.sequence + rest)))
    ensures SkipString(buf, o + 36) == Some(o + 36 + |SerString(x.script)|)
    ensures Holds(buf, o + 36 + |SerString(x.script)| + 4, rest)
  {
    var script := SerString(x.script);
    HoldsSplit(buf, o, x.outpoint, script + (x.sequence + rest));
    HoldsSplit(buf, o + 36, script, x.sequence + rest);
    HoldsSplit(buf, o + 36 + |script|, x.sequence, rest);
    ReadString(buf, o + 36, x.script);
  }

  lemma {:induction false} ReadInputs(buf: seq<byte>, o: nat, ins: seq<Input>)
    requires Holds(buf, o, SerInputs(ins)) && InputsFit(ins)
    ensures SkipInputs(buf, o, |ins|) == Some(o + |SerInputs(ins)|)
    decreases ins
  {
    hide ReadVarInt, CompactSize, SerString, SkipString, Holds;
    if ins != [] {
      ReadInput(buf, o, ins[0], SerInputs(ins[1..]));
      ReadInputs(buf, o + 36 + |SerString(ins[0].script)| + 4, ins[1..]);
    }
  }

  lemma ReadOutput(buf: seq<byte>, o: nat, x: Output, rest: seq<byte>)
    requires |x.value| == 8 && Fits(|x.script|)
    requires Holds(buf, o, x.value + (SerString(x.script) + rest))
    ensures SkipString(buf, o + 8) == Some(o + 8 + |SerString(x.script)|)
    ensures Holds(buf, o + 8 + |SerString(x.script)|, rest)
  {
    HoldsSplit(buf, o, x.value, SerString(x.script) + rest);
    HoldsSplit(buf, o + 8, SerString(x.script), rest);
    ReadString(buf, o + 8, x.script);
  }

  lemma {:induction false} ReadOutputs(buf: seq<byte>, o: nat, outs: seq<Output>)
    requires Holds(buf, o, SerOutputs(outs)) && OutputsFit(outs)
    ensures SkipOutputs(buf, o, |outs|) == Some(o + |SerOutputs(outs)|)
    decreases outs
  {
    hide ReadVarInt, CompactSize, SerString, SkipString, Holds;
    if outs != [] {
      ReadOutput(buf, o, outs[0], SerOutputs(outs[1..]));
      ReadOutputs(buf, o + 8 + |SerString(outs[0].script)|, outs[1..]);
    }
  }

  lemma {:induction false} ReadStrings(buf: seq<byte>, o: nat, items: Stack)
    requires Holds(buf, o, SerStrings(items))
    requires forall i :: 0 <= i < |items| ==> Fits(|items[i]|)
    ensures SkipStrings(buf, o, |items|) == Some(o + |SerStrings(items)|)
    decreases items
  {
    hide ReadVarInt, CompactSize, SerString, SkipString, Holds;
    if items != [] {
      HoldsSplit(buf, o, SerString(items[0]), SerStrings(items[1..]));
      ReadString(buf, o, items[0]);
      ReadStrings(buf, o + |SerString(items[0])|, items[1..]);
    }
  }

  lemma ReadStack(buf: seq<byte>, o: nat, x: Stack, rest: seq<byte>)
    requires StackFits(x) && Holds(buf, o, CompactSize(|x|) + (SerStrings(x) + rest))
    ensures ReadVarInt(buf, o) == Some(VarInt(|x|, |CompactSize(|x|)|))
    ensures SkipStrings(buf, o + |CompactSize(|x|)|, |x|) == Some(o + |CompactSize(|x|)| + |SerStrings(x)|)
    ensures Holds(buf, o + |CompactSize(|x|)| + |SerStrings(x)|, rest)
  {
    hide ReadVarInt, CompactSize, SkipStrings, SerStrings, Holds;
    HoldsSplit(buf, o, CompactSize(|x|), SerStrings(x) + rest);
    HoldsSplit(buf, o + |CompactSize(|x|)|, SerStrings(x), rest);
    ReadCompactSize(buf, o, |x|);
    ReadStrings(buf, o + |CompactSize(|x|)|, x);
  }

  lemma {:induction false} ReadWitness(buf: seq<byte>, o: nat, stacks: seq<Stack>)
    requires Holds(buf, o, SerWitness(stacks)) && StacksFit(stacks)
    ensures SkipWitnesses(buf, o, |stacks|) == Some(o + |SerWitness(stacks)|)
    decreases stacks
  {
    hide ReadVarInt, CompactSize, Holds, StackFits, SkipStrings, SerStrings;
    if stacks != [] {
      var x := stacks[0];
      ReadStack(buf, o, x, SerWitness(stacks[1..]));
      ReadWitness(buf, o + |CompactSize(|x|)| + |SerStrings(x)|, stacks[1..]);
    }
  }

  lemma ReadBody(buf: seq<byte>, o: nat, tx: Tx)
    requires Sized(tx) && Holds(buf, o, SerBody(tx))
    ensures SkipVin(buf, o).Some? && SkipVin(buf, o).value.value == |tx.ins|
    ensures SkipVout(buf, SkipVin(buf, o).value.size).Some?
    ensures var outs := SkipVout(buf, SkipVin(buf, o).value.size).value;
            if tx.stacks.None? then outs + 4 == o + |SerBody(tx)|
            else SkipWitnesses(buf, outs, |tx.ins|) == Some(o + |SerBody(tx)| - 4)
  {
    hide ReadVarInt, CompactSize, Holds, Fits, InputsFit, OutputsFit, StacksFit, SkipInputs, SkipOutputs,
         SkipWitnesses, SerInputs, SerOutputs, SerWitness;
    var n, m := CompactSize(|tx.ins|), CompactSize(|tx.outs|);
    var ins, outs := SerInputs(tx.ins), SerOutputs(tx.outs);
    var wit := if tx.stacks.Some? then SerWitness(tx.stacks.value) else [];
    HoldsSplit(buf, o, n, ins + (m + (outs + (wit + tx.locktime))));
    ReadCompactSize(buf, o, |tx.ins|);
    var a := o + |n|;
    HoldsSplit(buf, a, ins, m + (outs + (wit + tx.locktime)));
    ReadInputs(buf, a, tx.ins);
    var b := a + |ins|;
    HoldsSplit(buf, b, m, outs + (wit + tx.locktime));
    ReadCompactSize(buf, b, |tx.outs|);
    HoldsSplit(buf, b + |m|, outs, wit + tx.locktime);
    ReadOutputs(buf, b + |m|, tx.outs);
    HoldsSplit(buf, b + |m| + |outs|, wit, tx.locktime);
    if tx.stacks.Some? {
      ReadWitness(buf, b + |m| + |outs|, tx.stacks.value);
    }
  }

  /** The walk tells the two forms apart: a legacy transaction's input count is not zero. */
  predicate Readable(tx: Tx) {
    Sized(tx) && (tx.stacks.None? ==> tx.ins != [] || tx.outs == [])
  }

  lemma MarkerSeen(buf: seq<byte>, o: nat, tx: Tx)
    requires Readable(tx) && Holds(buf, o, Serialize(tx))
    ensures Segwit(buf, o + 4) == tx.stacks.Some?
    ensures Holds(buf, o + 4 + if tx.stacks.Some? then 2 else 0, SerBody(tx))
  {
    hide SerBody, Fits, InputsFit, OutputsFit, StacksFit;
    BodyStarts(tx);
    var marker: seq<byte> := if tx.stacks.Some? then [0x00, 0x01] else [];
    HoldsSplit(buf, o, tx.version, marker + SerBody(tx));
    HoldsSplit(buf, o + 4, marker, SerBody(tx));
    if tx.stacks.Some? {
      assert buf[o + 4] == marker[0];
      assert buf[o + 5] == marker[1];
    } else {
      assert buf[o + 4] == SerBody(tx)[0];
      assert buf[o + 5] == SerBody(tx)[1];
    }
  }

  lemma BodyStarts(tx: Tx)
    ensures |SerBody(tx)| >= 2
    ensures tx.ins != [] ==> SerBody(tx)[0] != 0
    ensures tx.ins == [] && tx.outs == [] ==> SerBody(tx)[0] == 0 && SerBody(tx)[1] == 0
  {
    hide SerOutputs, SerWitness, ToLittle;
    assert |CompactSize(|tx.ins|)| >= 1 && |CompactSize(|tx.outs|)| >= 1;
    if tx.ins == [] {
      assert SerInputs(tx.ins) == [];
    }
  }

  /** rawTxSize inverts serialization: it returns the exact length, whatever follows. */
  lemma TxSizeInverts(buf: seq<byte>, o: nat, tx: Tx)
    requires Readable(tx) && Holds(buf, o, Serialize(tx))
    ensures TxSize(buf, o) == Some(|Serialize(tx)|)
  {
    hide CompactSize, SkipVin, SkipVout, SkipWitnesses, Segwit, SerBody, Holds, Fits, InputsFit, OutputsFit, StacksFit;
    MarkerSeen(buf, o, tx);
    ReadBody(buf, o + 4 + if tx.stacks.Some? then 2 else 0, tx);
    assert |Serialize(tx)| == 4 + (if tx.stacks.Some? then 2 else 0) + |SerBody(tx)|;
  }

  const INPUTLESS := Tx([1, 0, 0, 0], [], [Output([0, 0, 0, 0, 0, 0, 0, 0], [])], None, [0, 0, 0, 0])

  lemma SerializeInputless()
    ensures Sized(INPUTLESS)
    ensures Serialize(INPUTLESS) == [1, 0, 0, 0, 0, 1, 0, 0, 0, 0, 0, 0, 0, 0, 0, 0, 0, 0, 0]
  {
    assert SerOutputs(INPUTLESS.outs) == [0, 0, 0, 0, 0, 0, 0, 0] + ([0] + []);
  }

  /** A legacy transaction without inputs but with an output is taken for the witness form. */
  lemma InputlessMisread()
    ensures Sized(INPUTLESS) && |Serialize(INPUTLESS)| == 19 && TxSize(Serialize(INPUTLESS), 0) == Some(12)
  {
    hide Serialize, Sized;
    SerializeInputless();
    var b := Serialize(INPUTLESS);
    assert SkipVin(b, 6) == Some(VarInt(0, 7));
    assert SkipVout(b, 7) == Some(8);
  }

  /** The form of a transaction: witness or legacy, with or without inputs and outputs. */
  datatype Form = Form(segwit: bool, inputs: bool, outputs: bool)

  function FormOf(tx: Tx): Form { Form(tx.stacks.Some?, tx.ins != [], tx.outs != []) }

  /**
   Every transaction of a form is measured right exactly when the form is the witness form,
   has inputs, or has no outputs.
   */
  lemma MeasuredExactly(form: Form)
    ensures (forall tx | Sized(tx) && FormOf(tx) == form ::
               TxSize(Serialize(tx), 0) == Some(|Serialize(tx)|))
            <==> form.segwit || form.inputs || !form.outputs
  {
    hide TxSize, Serialize, Sized;
    if form.segwit || form.inputs || !form.outputs {
      forall tx | Sized(tx) && FormOf(tx) == form
        ensures TxSize(Serialize(tx), 0) == Some(|Serialize(tx)|)
      {
        TxSizeInverts(Serialize(tx), 0, tx);
      }
    } else {
      InputlessMisread();
      assert FormOf(INPUTLESS) == form;
    }
  }

  function SerAll(txs: seq<Tx>): seq<byte> {
    if txs == [] then [] else Serialize(txs[0]) + SerAll(txs[1..])
  }

  lemma {:induction false} SplitInverts(raw: seq<byte>, o: nat, txs: seq<Tx>)
    requires Holds(raw, o, SerAll(txs)) && forall i :: 0 <= i < |txs| ==> Readable(txs[i])
    ensures |Split(raw, o, |txs|)| == |txs|
    ensures forall i :: 0 <= i < |txs| ==> Split(raw, o, |txs|)[i] == Serialize(txs[i])
    decreases txs
  {
    hide Serialize, TxSize;
    if txs != [] {
      HoldsSplit(raw, o, Serialize(txs[0]), SerAll(txs[1..]));
      TxSizeInverts(raw, o, txs[0]);
      SplitInverts(raw, o + |Serialize(txs[0])|, txs[1..]);
    }
  }

  /**
   A block of readable transactions is split exactly: with HandleRawBlock's contract, each
   transaction but the coinbase is handed on, in order, and the handler returns.
   */
  lemma BlockSplitsExactly(header: seq<byte>, txs: seq<Tx>, after: seq<byte>)
    requires |header| == 80 && Fits(|txs|) && forall i :: 0 <= i < |txs| ==> Readable(txs[i])
    ensures var (found, all) := Transactions(header + CompactSize(|txs|) + SerAll(txs) + after);
            && all && |found| == |txs|
            && forall i :: 0 <= i < |txs| ==> found[i] == Serialize(txs[i])
  {
    hide CompactSize, ReadVarInt, Serialize, TxSize, SerAll, Split, Fits;
    var n := CompactSize(|txs|);
    var raw := header + n + SerAll(txs) + after;
    assert raw[80..80 + |n|] == n;
    assert raw[80 + |n|..80 + |n| + |SerAll(txs)|] == SerAll(txs);
    ReadCompactSize(raw, 80, |txs|);
    SplitInverts(raw, 80 + |n|, txs);
  }
}
