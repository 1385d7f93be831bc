/** Transactions, blocks, their serialized records and the shared configuration
    (include/transaction.h, include/blockchain.h, include/config.h). */
module Records {
  import opened Options
  import opened Digests
  import opened Difficulty

  // size_t of the 64-bit platforms the program builds for.
  const SIZE_T_RANGE: nat := 0x1_0000_0000_0000_0000
  type SizeT = n: nat | n < SIZE_T_RANGE

  /** What identifies an output: the hash of its transaction and its position there.
      Inputs and unspent outputs are compared by key alone. */
  datatype Key = Key(hash: Digest, index: nat)
  datatype TxI = TxI(key: Key, signature: Digest)
  datatype TxO = TxO(amount: SizeT, address: string)
  datatype UTxO = UTxO(key: Key, output: TxO)

  datatype Kind = Standard | Reward

  /** A transaction, together with the copy of the unspent outputs it was last linked with. */
  datatype Tx = Tx(kind: Kind, index: nat, hash: Digest, inputs: seq<TxI>, outputs: seq<TxO>,
                   snapshot: seq<UTxO>)

  /** Block payload: free text, or a list of transactions. */
  datatype Data = Text(text: string) | Transactions(list: seq<Tx>)

  datatype Block = Block(data: Data, timestamp: nat, nonce: nat, index: nat,
                         hashPrev: Option<Digest>, hash: Digest)

  // ---------- serialized records ----------

  datatype InputJson = InputJson(outputHash: string, outputIndex: nat, signature: string)
  datatype TxJson = TxJson(kind: string, index: nat, hash: string, inputs: seq<InputJson>, outputs: seq<TxO>)
  datatype DataJson = TextJson(text: string) | ListJson(list: seq<TxJson>)
  datatype BlockJson = BlockJson(data: DataJson, timestamp: nat, nonce: nat, index: nat,
                                 hashPrev: Option<string>, hash: string)

  // ---------- configuration and abstracted primitives ----------

  /** `hash` is SHA-256 on strings, `verify(address, hash, signature)` is true when the address
      parses as a public key that verifies the signature, `dump` prints a JSON payload, and `pow`
      says whether the program was built with proof of work. */
  datatype Config = Config(
    hash: string -> Digest,
    verify: (string, Digest, Digest) -> bool,
    dump: DataJson -> string,
    timeMaxDelta: nat,
    difficulty: Params,
    numPerBlock: nat,
    rewardAmount: SizeT,
    pow: bool)

  predicate ValidConfig(cfg: Config) {
    cfg.timeMaxDelta > 0 && ValidParams(cfg.difficulty)
  }

  // ---------- hash pre-images ----------

  function Digits(n: nat): string {
    if n < 10 then ["0123456789"[n]] else Digits(n / 10) + ["0123456789"[n % 10]]
  }

  function InputsText(inputs: seq<TxI>): string {
    if inputs == [] then ""
    else ToString(inputs[0].key.hash) + Digits(inputs[0].key.index) + InputsText(inputs[1..])
  }

  function OutputsText(outputs: seq<TxO>): string {
    if outputs == [] then ""
    else Digits(outputs[0].amount) + outputs[0].address + OutputsText(outputs[1..])
  }

  function TxPreimage(index: nat, inputs: seq<TxI>, outputs: seq<TxO>): string {
    Digits(index) + InputsText(inputs) + OutputsText(outputs)
  }

  function TxHash(cfg: Config, t: Tx): Digest {
    cfg.hash(TxPreimage(t.index, t.inputs, t.outputs))
  }

  function PrevText(hashPrev: Option<Digest>): string {
    match hashPrev
    case None => ""
    case Some(h) => ToString(h)
  }

  /** The part of the block pre-image behind the payload. */
  function Trailer(b: Block): string {
    Digits(b.timestamp) + Digits(b.nonce) + Digits(b.index) + PrevText(b.hashPrev)
  }

  function BlockPreimage(cfg: Config, b: Block): string {
    cfg.dump(DataToJson(b.data)) + Trailer(b)
  }

  function BlockHash(cfg: Config, b: Block): Digest {
    cfg.hash(BlockPreimage(cfg, b))
  }

  // ---------- to_json and from_json ----------

  function InputsToJson(inputs: seq<TxI>): (js: seq<InputJson>)
    ensures |js| == |inputs|
  {
    if inputs == [] then []
    else [InputJson(ToString(inputs[0].key.hash), inputs[0].key.index, ToString(inputs[0].signature))]
         + InputsToJson(inputs[1..])
  }

  function KindText(k: Kind): string {
    match k
    case Standard => "standard"
    case Reward => "reward"
  }

  function TxToJson(t: Tx): TxJson {
    TxJson(KindText(t.kind), t.index, ToString(t.hash), InputsToJson(t.inputs), t.outputs)
  }

  function ListToJson(ts: seq<Tx>): seq<TxJson> {
    seq(|ts|, i requires 0 <= i < |ts| => TxToJson(ts[i]))
  }

  function DataToJson(d: Data): DataJson {
    match d
    case Text(s) => TextJson(s)
    case Transactions(ts) => ListJson(ListToJson(ts))
  }

  function BlockToJson(b: Block): BlockJson {
    BlockJson(DataToJson(b.data), b.timestamp, b.nonce, b.index,
              if b.hashPrev.Some? then Some(ToString(b.hashPrev.value)) else None, ToString(b.hash))
  }

  function BlocksToJson(bs: seq<Block>): seq<BlockJson> {
    seq(|bs|, i requires 0 <= i < |bs| => BlockToJson(bs[i]))
  }

  /** The parsed inputs, or None where the parser throws. */
  function InputsFromJson(js: seq<InputJson>): Option<seq<TxI>> {
    if js == [] then Some([])
    else
      var h, s, rest := FromString(js[0].outputHash), FromString(js[0].signature), InputsFromJson(js[1..]);
      if h.Some? && s.Some? && rest.Some? then
        Some([TxI(Key(h.value, js[0].outputIndex), s.value)] + rest.value)
      else None
  }

  function KindFromText(s: string): Option<Kind> {
    if s == "standard" then Some(Standard) else if s == "reward" then Some(Reward) else None
  }

  function TxFromJson(j: TxJson): Option<Tx> {
    var kind, hash, inputs := KindFromText(j.kind), FromString(j.hash), InputsFromJson(j.inputs);
    if kind.Some? && hash.Some? && inputs.Some? then
      Some(Tx(kind.value, j.index, hash.value, inputs.value, j.outputs, []))
    else None
  }

  function ListFromJson(js: seq<TxJson>): Option<seq<Tx>> {
    if js == [] then Some([])
    else
      var t, rest := TxFromJson(js[0]), ListFromJson(js[1..]);
      if t.Some? && rest.Some? then Some([t.value] + rest.value) else None
  }

  function DataFromJson(j: DataJson): Option<Data> {
    match j
    case TextJson(s) => Some(Text(s))
    case ListJson(js) =>
      var ts := ListFromJson(js);
      if ts.Some? then Some(Transactions(ts.value)) else None
  }

  function BlockFromJson(j: BlockJson): Option<Block> {
    var data, hash := DataFromJson(j.data), FromString(j.hash);
    var prev := if j.hashPrev.Some? then FromString(j.hashPrev.value) else None;
    if data.Some? && hash.Some? && (j.hashPrev.Some? ==> prev.Some?) then
      Some(Block(data.value, j.timestamp, j.nonce, j.index, prev, hash.value))
    else None
  }

  // ---------- snapshots ----------

  function TxsOf(d: Data): seq<Tx> {
    match d
    case Text(_) => []
    case Transactions(ts) => ts
  }

  /** Every transaction linked with the unspent outputs `u`. */
  function Relink(ts: seq<Tx>, u: seq<UTxO>): seq<Tx> {
    seq(|ts|, i requires 0 <= i < |ts| => ts[i].(snapshot := u))
  }

  function RelinkData(d: Data, u: seq<UTxO>): Data {
    match d
    case Text(_) => d
    case Transactions(ts) => Transactions(Relink(ts, u))
  }

  function RelinkBlock(b: Block, u: seq<UTxO>): Block {
    b.(data := RelinkData(b.data, u))
  }

  // ---------- round trips ----------

  lemma {:induction false} InputsRoundTrip(inputs: seq<TxI>)
    ensures InputsFromJson(InputsToJson(inputs)) == Some(inputs)
  {
    if inputs != [] {
      PrintParse(inputs[0].key.hash);
      PrintParse(inputs[0].signature);
      InputsRoundTrip(inputs[1..]);
      assert InputsToJson(inputs)[1..] == InputsToJson(inputs[1..]);
      assert [inputs[0]] + inputs[1..] == inputs;
    }
  }

  lemma KindRoundTrip(k: Kind)
    ensures KindFromText(KindText(k)) == Some(k)
  {
    assert |"standard"| == 8 && |"reward"| == 6;
  }

  lemma TxRoundTrip(t: Tx)
    ensures TxFromJson(TxToJson(t)) == Some(t.(snapshot := []))
  {
    KindRoundTrip(t.kind);
    InputsRoundTrip(t.inputs);
    PrintParse(t.hash);
  }

  lemma {:induction false} ListRoundTrip(ts: seq<Tx>)
    ensures ListFromJson(ListToJson(ts)) == Some(Relink(ts, []))
  {
    hide TxFromJson, TxToJson;
    if ts == [] {
      assert Relink(ts, []) == [];
    } else {
      var js := ListToJson(ts);
      ListRoundTrip(ts[1..]);
      assert js[1..] == ListToJson(ts[1..]);
      assert TxFromJson(js[0]) == Some(ts[0].(snapshot := [])) by { TxRoundTrip(ts[0]); }
      assert [ts[0].(snapshot := [])] + Relink(ts[1..], []) == Relink(ts, []);
    }
  }

  /** Serializing and parsing a block gives it back, except that its transactions lose
      their linked unspent outputs. */
  lemma BlockRoundTrip(b: Block)
    ensures BlockFromJson(BlockToJson(b)) == Some(RelinkBlock(b, []))
  {
    PrintParse(b.hash);
    if b.hashPrev.Some? { PrintParse(b.hashPrev.value); }
    if b.data.Transactions? { ListRoundTrip(b.data.list); }
  }

  /** Which field of a transaction goes where in its record. */
  lemma TxFields(t: Tx, i: nat)
    requires i < |t.inputs|
    ensures var j := TxToJson(t);
            && j.kind == (if t.kind.Reward? then "reward" else "standard") && j.index == t.index
            && HexNumber(j.hash) == BigEndian(t.hash) && |j.hash| == 2 * |t.hash| && j.outputs == t.outputs
            && |j.inputs| == |t.inputs| && j.inputs[i].outputIndex == t.inputs[i].key.index
            && FromString(j.inputs[i].outputHash) == Some(t.inputs[i].key.hash)
            && FromString(j.inputs[i].signature) == Some(t.inputs[i].signature)
  {
    PrintIsNumber(t.hash);
    InputFields(t.inputs, i);
  }

  lemma {:induction false} InputFields(inputs: seq<TxI>, i: nat)
    requires i < |inputs|
    ensures InputsToJson(inputs)[i].outputIndex == inputs[i].key.index
    ensures FromString(InputsToJson(inputs)[i].outputHash) == Some(inputs[i].key.hash)
    ensures FromString(InputsToJson(inputs)[i].signature) == Some(inputs[i].signature)
  {
    PrintParse(inputs[i].key.hash);
    PrintParse(inputs[i].signature);
    if i > 0 { InputFields(inputs[1..], i - 1); }
  }

  /** Parsing a transaction throws on any type but the two. */
  lemma UnknownTypeFails(j: TxJson)
    requires j.kind != "standard" && j.kind != "reward"
    ensures TxFromJson(j).None?
  {
  }

  /** Which field of a block goes where in its record. */
  lemma BlockFields(b: Block)
    ensures var j := BlockToJson(b);
            && j.timestamp == b.timestamp && j.nonce == b.nonce && j.index == b.index
            && FromString(j.hash) == Some(b.hash)
            && (b.hashPrev.None? <==> j.hashPrev.None?)
            && (b.hashPrev.Some? ==> FromString(j.hashPrev.value) == b.hashPrev)
  {
    PrintParse(b.hash);
    if b.hashPrev.Some? { PrintParse(b.hashPrev.value); }
  }

  /** Linked unspent outputs are neither serialized nor hashed. */
  lemma RelinkInvisible(cfg: Config, b: Block, u: seq<UTxO>)
    ensures BlockToJson(RelinkBlock(b, u)) == BlockToJson(b)
    ensures BlockHash(cfg, RelinkBlock(b, u)) == BlockHash(cfg, b)
  {
    if b.data.Transactions? {
      assert ListToJson(Relink(b.data.list, u)) == ListToJson(b.data.list);
    }
  }

  /** A block is determined by its serialized record, up to linked unspent outputs. */
  lemma BlockToJsonInjective(a: Block, b: Block)
    requires BlockToJson(a) == BlockToJson(b)
    ensures RelinkBlock(a, []) == RelinkBlock(b, [])
  {
    BlockRoundTrip(a);
    BlockRoundTrip(b);
  }

  /** The transaction pre-image is not injective: two reward transactions of different blocks
      can print the same text, because the index, the amount and the address are not separated.
      Claims about hashes therefore speak of the transactions at hand. */
  lemma TxPreimageAmbiguous()
    ensures TxPreimage(1, [], [TxO(50, "50a")]) == TxPreimage(150, [], [TxO(50, "a")]) == "15050a"
  {
    DigitsExamples();
    OutputsTextOne(TxO(50, "50a"));
    OutputsTextOne(TxO(50, "a"));
  }

  // ---------- what the hashed texts cover ----------

  /** The value of a text in base 10. */
  function Decimal(s: string): int {
    if s == "" then 0 else 10 * Decimal(s[..|s| - 1]) + (s[|s| - 1] as int - '0' as int)
  }

  /** Numbers are printed in base 10, without leading zeros. */
  lemma {:induction false} DigitsRead(n: nat)
    ensures Decimal(Digits(n)) == n && |Digits(n)| > 0 && (n > 0 ==> Digits(n)[0] != '0')
    ensures forall c :: c in Digits(n) ==> '0' <= c <= '9'
  {
    var s := Digits(n);
    if n < 10 {
      assert s[..0] == "";
    } else {
      DigitsRead(n / 10);
      assert s[..|s| - 1] == Digits(n / 10);
    }
  }

  lemma DigitsDiffer(m: nat, n: nat)
    requires m != n
    ensures Digits(m) != Digits(n)
  {
    DigitsRead(m);
    DigitsRead(n);
  }

  lemma Joined(a: string, b: string, c: string)
    ensures a + (b + c) == (a + b) + c
  {
  }

  /** The pieces of the inputs and outputs, in order. */
  lemma {:induction false} InputsTextAppend(a: seq<TxI>, b: seq<TxI>)
    ensures InputsText(a + b) == InputsText(a) + InputsText(b)
  {
    hide ToString, Digits;
    if a == [] {
      assert a + b == b;
    } else {
      InputsTextAppend(a[1..], b);
      assert (a + b)[0] == a[0] && (a + b)[1..] == a[1..] + b;
      Joined(ToString(a[0].key.hash) + Digits(a[0].key.index), InputsText(a[1..]), InputsText(b));
    }
  }

  lemma InputsTextOne(x: TxI)
    ensures InputsText([x]) == ToString(x.key.hash) + Digits(x.key.index)
  {
    assert [x][1..] == [];
    assert InputsText([x]) == ToString(x.key.hash) + Digits(x.key.index) + InputsText([x][1..]);
  }

  lemma {:induction false} OutputsTextAppend(a: seq<TxO>, b: seq<TxO>)
    ensures OutputsText(a + b) == OutputsText(a) + OutputsText(b)
  {
    hide Digits;
    if a == [] {
      assert a + b == b;
    } else {
      OutputsTextAppend(a[1..], b);
      assert (a + b)[0] == a[0] && (a + b)[1..] == a[1..] + b;
      Joined(Digits(a[0].amount) + a[0].address, OutputsText(a[1..]), OutputsText(b));
    }
  }

  /** A text in the middle decides. */
  lemma MiddleDecides(a: string, x: string, y: string, b: string)
    requires x != y
    ensures a + x + b != a + y + b
  {
    if a + x + b == a + y + b { MiddleDecided(a, x, y, b); }
  }

  lemma MiddleDecided(a: string, x: string, y: string, b: string)
    requires a + x + b == a + y + b
    ensures x == y
  {
    var s, t := a + x + b, a + y + b;
    assert |x| == |s| - |a| - |b| && |y| == |t| - |a| - |b|;
    assert x == s[|a|..|a| + |x|] && y == t[|a|..|a| + |y|];
  }

  /** The transaction hash covers every output: changing the amount or the address of any one of them
      changes the hashed text. */
  lemma OutputCovered(index: nat, inputs: seq<TxI>, before: seq<TxO>, x: TxO, y: TxO, after: seq<TxO>)
    requires x != y && (x.amount == y.amount || x.address == y.address)
    ensures TxPreimage(index, inputs, before + [x] + after) != TxPreimage(index, inputs, before + [y] + after)
  {
    hide Digits, InputsText, OutputsText;
    OutputsTextOne(x);
    OutputsTextOne(y);
    OutputsTextAppend(before + [x], after);
    OutputsTextAppend(before + [y], after);
    OutputsTextAppend(before, [x]);
    OutputsTextAppend(before, [y]);
    if x.amount == y.amount {
      MiddleDecides(Digits(x.amount), x.address, y.address, "");
    } else {
      DigitsDiffer(x.amount, y.amount);
      MiddleDecides("", Digits(x.amount), Digits(y.amount), x.address);
    }
    assert OutputsText([x]) == "" + Digits(x.amount) + x.address == Digits(x.amount) + x.address + "";
    assert OutputsText([y]) == "" + Digits(y.amount) + y.address == Digits(y.amount) + y.address + "";
    var head := Digits(index) + InputsText(inputs) + OutputsText(before);
    MiddleDecides(head, OutputsText([x]), OutputsText([y]), OutputsText(after));
    assert TxPreimage(index, inputs, before + [x] + after) == head + OutputsText([x]) + OutputsText(after);
    assert TxPreimage(index, inputs, before + [y] + after) == head + OutputsText([y]) + OutputsText(after);
  }

  /** It covers every input: the hash and the position of the output it spends. */
  lemma InputCovered(index: nat, before: seq<TxI>, x: TxI, y: TxI, after: seq<TxI>, outputs: seq<TxO>)
    requires x.key != y.key && (x.key.hash == y.key.hash || x.key.index == y.key.index)
    ensures TxPreimage(index, before + [x] + after, outputs) != TxPreimage(index, before + [y] + after, outputs)
  {
    hide Digits, InputsText, OutputsText;
    InputsTextOne(x);
    InputsTextOne(y);
    InputsTextAppend(before + [x], after);
    InputsTextAppend(before + [y], after);
    InputsTextAppend(before, [x]);
    InputsTextAppend(before, [y]);
    if x.key.hash == y.key.hash {
      DigitsDiffer(x.key.index, y.key.index);
      MiddleDecides(ToString(x.key.hash), Digits(x.key.index), Digits(y.key.index), "");
    } else {
      if ToString(x.key.hash) == ToString(y.key.hash) { PrintInjective(x.key.hash, y.key.hash); }
      MiddleDecides("", ToString(x.key.hash), ToString(y.key.hash), Digits(x.key.index));
    }
    assert InputsText([x]) == "" + ToString(x.key.hash) + Digits(x.key.index)
                           == ToString(x.key.hash) + Digits(x.key.index) + "";
    assert InputsText([y]) == "" + ToString(y.key.hash) + Digits(y.key.index)
                           == ToString(y.key.hash) + Digits(y.key.index) + "";
    var head, tail := Digits(index) + InputsText(before), InputsText(after) + OutputsText(outputs);
    MiddleDecides(head, InputsText([x]), InputsText([y]), tail);
    assert TxPreimage(index, before + [x] + after, outputs) == head + InputsText([x]) + tail;
    assert TxPreimage(index, before + [y] + after, outputs) == head + InputsText([y]) + tail;
  }

  lemma IndexCovered(m: nat, n: nat, inputs: seq<TxI>, outputs: seq<TxO>)
    requires m != n
    ensures TxPreimage(m, inputs, outputs) != TxPreimage(n, inputs, outputs)
  {
    hide Digits, InputsText, OutputsText;
    DigitsDiffer(m, n);
    MiddleDecides("", Digits(m), Digits(n), InputsText(inputs) + OutputsText(outputs));
    assert TxPreimage(m, inputs, outputs) == "" + Digits(m) + (InputsText(inputs) + OutputsText(outputs));
    assert TxPreimage(n, inputs, outputs) == "" + Digits(n) + (InputsText(inputs) + OutputsText(outputs));
  }

  /** The block hash covers each part of the block: changing one of them changes the hashed text. */
  lemma BlockCovered(cfg: Config, b: Block, timestamp: nat, nonce: nat, index: nat, prev: Digest)
    ensures timestamp != b.timestamp ==> BlockPreimage(cfg, b.(timestamp := timestamp)) != BlockPreimage(cfg, b)
    ensures nonce != b.nonce ==> BlockPreimage(cfg, b.(nonce := nonce)) != BlockPreimage(cfg, b)
    ensures index != b.index ==> BlockPreimage(cfg, b.(index := index)) != BlockPreimage(cfg, b)
    ensures b.hashPrev.Some? && b.hashPrev.value != prev ==>
              BlockPreimage(cfg, b.(hashPrev := Some(prev))) != BlockPreimage(cfg, b)
  {
    hide Digits;
    var data, t, o, i := cfg.dump(DataToJson(b.data)), Digits(b.timestamp), Digits(b.nonce), Digits(b.index);
    var p := PrevText(b.hashPrev);
    assert BlockPreimage(cfg, b) == data + t + (o + i + p) == (data + t) + o + (i + p) == (data + t + o) + i + p;
    if timestamp != b.timestamp {
      DigitsDiffer(timestamp, b.timestamp);
      MiddleDecides(data, Digits(timestamp), t, o + i + p);
      assert BlockPreimage(cfg, b.(timestamp := timestamp)) == data + Digits(timestamp) + (o + i + p);
    }
    if nonce != b.nonce {
      DigitsDiffer(nonce, b.nonce);
      MiddleDecides(data + t, Digits(nonce), o, i + p);
      assert BlockPreimage(cfg, b.(nonce := nonce)) == (data + t) + Digits(nonce) + (i + p);
    }
    if index != b.index {
      DigitsDiffer(index, b.index);
      MiddleDecides(data + t + o, Digits(index), i, p);
      assert BlockPreimage(cfg, b.(index := index)) == (data + t + o) + Digits(index) + p;
    }
    if b.hashPrev.Some? && b.hashPrev.value != prev {
      if ToString(prev) == p { PrintInjective(prev, b.hashPrev.value); }
      MiddleDecides(data + t + o + i, ToString(prev), p, "");
      assert BlockPreimage(cfg, b.(hashPrev := Some(prev))) == (data + t + o + i) + ToString(prev) + "";
      assert BlockPreimage(cfg, b) == (data + t + o + i) + p + "";
    }
  }

  lemma DigitsExamples()
    ensures Digits(1) == "1" && Digits(11) == "11" && Digits(50) == "50" && Digits(150) == "150"
  {
    assert Digits(15) == Digits(1) + "5";
    assert Digits(150) == Digits(15) + "0";
    assert Digits(50) == Digits(5) + "0";
    assert Digits(11) == Digits(1) + "1";
  }

  lemma OutputsTextOne(o: TxO)
    ensures OutputsText([o]) == Digits(o.amount) + o.address
  {
    assert [o][1..] == [];
    assert OutputsText([o]) == Digits(o.amount) + o.address + OutputsText([o][1..]);
  }
}
