/** Validation of transactions and of transaction lists against a snapshot of the unspent
    outputs (src/transaction.cc). */
module Validity {
  import opened Records

  // ---------- unspent outputs looked up by key ----------

  /** The entries of `u` with key `k`, in order. */
  function Matches(u: seq<UTxO>, k: Key): seq<UTxO> {
    if u == [] then []
    else (if u[0].key == k then [u[0]] else []) + Matches(u[1..], k)
  }

  lemma {:induction false} MatchesAppend(u: seq<UTxO>, v: seq<UTxO>, k: Key)
    ensures Matches(u + v, k) == Matches(u, k) + Matches(v, k)
  {
    if u == [] {
      assert u + v == v;
    } else {
      MatchesAppend(u[1..], v, k);
      assert (u + v)[1..] == u[1..] + v;
    }
  }

  function Total(u: seq<UTxO>): nat {
    if u == [] then 0 else u[0].output.amount + Total(u[1..])
  }

  lemma {:induction false} TotalAppend(u: seq<UTxO>, v: seq<UTxO>)
    ensures Total(u + v) == Total(u) + Total(v)
  {
    if u == [] {
      assert u + v == v;
    } else {
      TotalAppend(u[1..], v);
      assert (u + v)[1..] == u[1..] + v;
    }
  }

  /** The address found by the lookup loop: that of the last match, empty without a match. */
  function AddressOf(matches: seq<UTxO>): string {
    if matches == [] then "" else matches[|matches| - 1].output.address
  }

  function InSum(u: seq<UTxO>, inputs: seq<TxI>): nat {
    if inputs == [] then 0
    else InSum(u, inputs[..|inputs| - 1]) + Total(Matches(u, inputs[|inputs| - 1].key))
  }

  function OutSum(outputs: seq<TxO>): nat {
    if outputs == [] then 0
    else OutSum(outputs[..|outputs| - 1]) + outputs[|outputs| - 1].amount
  }

  // ---------- what validity means ----------

  predicate InputOk(cfg: Config, t: Tx, u: seq<UTxO>, i: nat)
    requires i < |t.inputs|
  {
    var address := AddressOf(Matches(u, t.inputs[i].key));
    address != "" && cfg.verify(address, t.hash, t.inputs[i].signature)
  }

  /** Every input names an unspent output whose owner signed the transaction, and the sums,
      taken in size_t arithmetic, agree. */
  predicate StandardOk(cfg: Config, t: Tx, u: seq<UTxO>) {
    && t.hash == TxHash(cfg, t)
    && (forall i :: 0 <= i < |t.inputs| ==> InputOk(cfg, t, u, i))
    && InSum(u, t.inputs) % SIZE_T_RANGE == OutSum(t.outputs) % SIZE_T_RANGE
  }

  /** Position `a` holds the last entry with key `k`; with unique keys, the only one. */
  predicate LastEntry(u: seq<UTxO>, k: Key, a: int) {
    0 <= a < |u| && u[a].key == k && forall b :: a < b < |u| ==> u[b].key != k
  }

  lemma {:induction false} NoMatches(u: seq<UTxO>, k: Key)
    requires forall b :: 0 <= b < |u| ==> u[b].key != k
    ensures Matches(u, k) == []
  {
    if u != [] { NoMatches(u[1..], k); }
  }

  lemma {:induction false} LastEntryAddress(u: seq<UTxO>, k: Key, a: int)
    requires LastEntry(u, k, a)
    ensures Matches(u, k) != [] && AddressOf(Matches(u, k)) == u[a].output.address
  {
    if a == 0 {
      NoMatches(u[1..], k);
    } else {
      LastEntryAddress(u[1..], k, a - 1);
    }
  }

  lemma {:induction false} LastEntryExists(u: seq<UTxO>, k: Key) returns (a: int)
    requires Matches(u, k) != []
    ensures LastEntry(u, k, a)
    decreases u
  {
    if Matches(u[1..], k) != [] {
      a := LastEntryExists(u[1..], k);
      a := a + 1;
    } else {
      a := 0;
      forall b | 0 < b < |u|
        ensures u[b].key != k
      {
        if u[b].key == k { EntryMatches(u[1..], b - 1); }
      }
    }
  }

  lemma {:induction false} EntryMatches(u: seq<UTxO>, i: nat)
    requires i < |u|
    ensures Matches(u, u[i].key) != []
  {
    if i > 0 { EntryMatches(u[1..], i - 1); }
  }

  /** No output is spent without its owner's signature: a valid standard transaction finds, for every
      input, an entry of the unspent outputs whose address verifies the input's signature of the
      transaction's hash, which is the hash of its content. */
  lemma StandardSigned(cfg: Config, t: Tx, u: seq<UTxO>, i: nat)
    requires StandardOk(cfg, t, u) && i < |t.inputs|
    ensures t.hash == cfg.hash(TxPreimage(t.index, t.inputs, t.outputs))
    ensures exists a :: LastEntry(u, t.inputs[i].key, a)
    ensures forall a :: LastEntry(u, t.inputs[i].key, a) ==>
              u[a].output.address != "" && cfg.verify(u[a].output.address, t.hash, t.inputs[i].signature)
  {
    var k := t.inputs[i].key;
    assert InputOk(cfg, t, u, i);
    var b := LastEntryExists(u, k);
    forall a | LastEntry(u, k, a)
      ensures u[a].output.address != "" && cfg.verify(u[a].output.address, t.hash, t.inputs[i].signature)
    {
      LastEntryAddress(u, k, a);
    }
  }

  /** And the other way round: right hash, signed inputs and agreeing sums are enough. */
  lemma SignedIsStandard(cfg: Config, t: Tx, u: seq<UTxO>)
    requires t.hash == cfg.hash(TxPreimage(t.index, t.inputs, t.outputs))
    requires forall i :: 0 <= i < |t.inputs| ==>
               exists a :: LastEntry(u, t.inputs[i].key, a) && u[a].output.address != ""
                           && cfg.verify(u[a].output.address, t.hash, t.inputs[i].signature)
    requires InSum(u, t.inputs) % SIZE_T_RANGE == OutSum(t.outputs) % SIZE_T_RANGE
    ensures StandardOk(cfg, t, u)
  {
    forall i | 0 <= i < |t.inputs|
      ensures InputOk(cfg, t, u, i)
    {
      var a :| LastEntry(u, t.inputs[i].key, a) && u[a].output.address != ""
               && cfg.verify(u[a].output.address, t.hash, t.inputs[i].signature);
      LastEntryAddress(u, t.inputs[i].key, a);
    }
  }

  predicate RewardOk(cfg: Config, t: Tx) {
    t.hash == TxHash(cfg, t) && t.inputs == [] && |t.outputs| == 1 && t.outputs[0].amount == cfg.rewardAmount
  }

  predicate TxOk(cfg: Config, t: Tx) {
    match t.kind
    case Reward => RewardOk(cfg, t)
    case Standard => StandardOk(cfg, t, t.snapshot)
  }

  predicate ListedOk(cfg: Config, ts: seq<Tx>, index: nat, i: nat)
    requires i < |ts|
  {
    ts[i].kind == (if i == 0 then Reward else Standard) && ts[i].index == index && TxOk(cfg, ts[i])
  }

  predicate ListOk(cfg: Config, ts: seq<Tx>, index: nat) {
    |ts| <= cfg.numPerBlock + 1 && forall i :: 0 <= i < |ts| ==> ListedOk(cfg, ts, index, i)
  }

  predicate DataOk(cfg: Config, d: Data, index: nat) {
    match d
    case Text(_) => true
    case Transactions(ts) => ListOk(cfg, ts, index)
  }

  // ---------- the loops ----------

  datatype Verdict =
    | Valid
    | InvalidHash
    | NoUnspentOutput(input: nat)
    | InvalidSignature(input: nat)
    | MismatchedSums
    | InputsNotEmpty
    | NotOneOutput
    | NotRewardAmount

  function SizeAdd(a: SizeT, b: SizeT): SizeT {
    (a + b) % SIZE_T_RANGE
  }

  lemma SizeAddCongruent(a: SizeT, b: SizeT, x: nat)
    requires a == x % SIZE_T_RANGE
    ensures SizeAdd(a, b) == (x + b) % SIZE_T_RANGE
  {
  }

  /** The inner loop: find the address of an input and add its amount to the running sum. */
  method Lookup(u: seq<UTxO>, key: Key, start: SizeT, ghost before: nat) returns (address: string, sum: SizeT)
    requires start == before % SIZE_T_RANGE
    ensures address == AddressOf(Matches(u, key))
    ensures sum == (before + Total(Matches(u, key))) % SIZE_T_RANGE
  {
    address, sum := "", start;
    for j := 0 to |u|
      invariant address == AddressOf(Matches(u[..j], key))
      invariant sum == (before + Total(Matches(u[..j], key))) % SIZE_T_RANGE
    {
      MatchesSnoc(u, j, key);
      if u[j].key == key {
        address := u[j].output.address;
        SizeAddCongruent(sum, u[j].output.amount, before + Total(Matches(u[..j], key)));
        sum := SizeAdd(sum, u[j].output.amount);
      }
    }
    assert u[..|u|] == u;
  }

  predicate InputsOk(cfg: Config, t: Tx, n: nat)
    requires n <= |t.inputs|
  {
    forall i :: 0 <= i < n ==> InputOk(cfg, t, t.snapshot, i)
  }

  /** The outer loop: the first input that fails, or the sum of all inputs. */
  method CheckInputs(cfg: Config, t: Tx) returns (v: Verdict, txiSum: SizeT)
    ensures v.Valid? || v.NoUnspentOutput? || v.InvalidSignature?
    ensures v.Valid? ==> InputsOk(cfg, t, |t.inputs|)
                         && txiSum == InSum(t.snapshot, t.inputs) % SIZE_T_RANGE
    ensures !v.Valid? ==> v.input < |t.inputs| && InputsOk(cfg, t, v.input)
                          && !InputOk(cfg, t, t.snapshot, v.input)
                          && (v.NoUnspentOutput? <==> AddressOf(Matches(t.snapshot, t.inputs[v.input].key)) == "")
  {
    txiSum := 0;
    for i := 0 to |t.inputs|
      invariant InputsOk(cfg, t, i)
      invariant txiSum == InSum(t.snapshot, t.inputs[..i]) % SIZE_T_RANGE
    {
      assert t.inputs[..i + 1][..i] == t.inputs[..i];
      var address, sum := Lookup(t.snapshot, t.inputs[i].key, txiSum, InSum(t.snapshot, t.inputs[..i]));
      txiSum := sum;
      if address == "" {
        return NoUnspentOutput(i), txiSum;
      }
      if !cfg.verify(address, t.hash, t.inputs[i].signature) {
        return InvalidSignature(i), txiSum;
      }
    }
    assert t.inputs[..|t.inputs|] == t.inputs;
    v := Valid;
  }

  method ValidStandard(cfg: Config, t: Tx) returns (v: Verdict)
    ensures v.Valid? <==> StandardOk(cfg, t, t.snapshot)
    ensures v.InvalidHash? <==> t.hash != TxHash(cfg, t)
    ensures v.NoUnspentOutput? || v.InvalidSignature? ==>
              && v.input < |t.inputs| && InputsOk(cfg, t, v.input) && !InputOk(cfg, t, t.snapshot, v.input)
              && (v.NoUnspentOutput? <==> AddressOf(Matches(t.snapshot, t.inputs[v.input].key)) == "")
    ensures v.MismatchedSums? ==> InputsOk(cfg, t, |t.inputs|)
    ensures v.Valid? ==>
              forall i, a :: 0 <= i < |t.inputs| && LastEntry(t.snapshot, t.inputs[i].key, a) ==>
                cfg.verify(t.snapshot[a].output.address, t.hash, t.inputs[i].signature)
    ensures !v.InputsNotEmpty? && !v.NotOneOutput? && !v.NotRewardAmount?
  {
    if t.hash != TxHash(cfg, t) {
      return InvalidHash;
    }
    var txiSum;
    v, txiSum := CheckInputs(cfg, t);
    if v.Valid? {
      var txoSum := SumOutputs(t.outputs);
      if txiSum != txoSum {
        v := MismatchedSums;
      }
    }
    if v.Valid? {
      forall i | 0 <= i < |t.inputs|
        ensures forall a :: LastEntry(t.snapshot, t.inputs[i].key, a) ==>
                  cfg.verify(t.snapshot[a].output.address, t.hash, t.inputs[i].signature)
      {
        StandardSigned(cfg, t, t.snapshot, i);
      }
    }
  }

  method SumOutputs(outputs: seq<TxO>) returns (sum: SizeT)
    ensures sum == OutSum(outputs) % SIZE_T_RANGE
  {
    sum := 0;
    for i := 0 to |outputs|
      invariant sum == OutSum(outputs[..i]) % SIZE_T_RANGE
    {
      assert outputs[..i + 1][..i] == outputs[..i];
      SizeAddCongruent(sum, outputs[i].amount, OutSum(outputs[..i]));
      sum := SizeAdd(sum, outputs[i].amount);
    }
    assert outputs[..|outputs|] == outputs;
  }

  lemma MatchesSnoc(u: seq<UTxO>, j: nat, k: Key)
    requires j < |u|
    ensures Matches(u[..j + 1], k) == Matches(u[..j], k) + (if u[j].key == k then [u[j]] else [])
    ensures Total(Matches(u[..j + 1], k)) ==
            Total(Matches(u[..j], k)) + (if u[j].key == k then u[j].output.amount else 0)
  {
    assert u[..j + 1] == u[..j] + [u[j]];
    MatchesAppend(u[..j], [u[j]], k);
    assert [u[j]][1..] == [];
    assert Matches([u[j]], k) == if u[j].key == k then [u[j]] else [];
    TotalAppend(Matches(u[..j], k), Matches([u[j]], k));
  }

  method ValidReward(cfg: Config, t: Tx) returns (v: Verdict)
    ensures v.Valid? <==> RewardOk(cfg, t)
    ensures v.InvalidHash? <==> t.hash != TxHash(cfg, t)
  {
    if t.hash != TxHash(cfg, t) { return InvalidHash; }
    if t.inputs != [] { return InputsNotEmpty; }
    if |t.outputs| != 1 { return NotOneOutput; }
    if t.outputs[0].amount != cfg.rewardAmount { return NotRewardAmount; }
    return Valid;
  }

  method ValidTx(cfg: Config, t: Tx) returns (v: Verdict)
    ensures v.Valid? <==> TxOk(cfg, t)
  {
    match t.kind {
      case Reward => v := ValidReward(cfg, t);
      case Standard => v := ValidStandard(cfg, t);
    }
  }

  /** `bad` is the first entry that makes the list invalid, or the length of the list. */
  method ValidList(cfg: Config, ts: seq<Tx>, index: nat) returns (valid: bool, bad: nat)
    ensures valid <==> ListOk(cfg, ts, index)
    ensures bad <= |ts|
    ensures forall i :: 0 <= i < bad && |ts| <= cfg.numPerBlock + 1 ==> ListedOk(cfg, ts, index, i)
    ensures bad < |ts| && |ts| <= cfg.numPerBlock + 1 ==> !ListedOk(cfg, ts, index, bad)
  {
    if |ts| > cfg.numPerBlock + 1 {
      return false, 0;
    }
    for i := 0 to |ts|
      invariant forall j :: 0 <= j < i ==> ListedOk(cfg, ts, index, j)
    {
      assert ListOk(cfg, ts, index) ==> ListedOk(cfg, ts, index, i);
      if ts[i].kind != (if i == 0 then Reward else Standard) || ts[i].index != index {
        return false, i;
      }
      var v := ValidTx(cfg, ts[i]);
      if !v.Valid? {
        return false, i;
      }
    }
    return true, |ts|;
  }

  method ValidData(cfg: Config, d: Data, index: nat) returns (valid: bool)
    ensures valid <==> DataOk(cfg, d, index)
  {
    match d {
      case Text(_) => valid := true;
      case Transactions(ts) => var ok, _ := ValidList(cfg, ts, index); valid := ok;
    }
  }

  // ---------- validity depends on the snapshot only through the keys it spends ----------

  lemma {:induction false} InSumSameMatches(u: seq<UTxO>, v: seq<UTxO>, inputs: seq<TxI>)
    requires forall i :: 0 <= i < |inputs| ==> Matches(u, inputs[i].key) == Matches(v, inputs[i].key)
    ensures InSum(u, inputs) == InSum(v, inputs)
  {
    if inputs != [] {
      var before := inputs[..|inputs| - 1];
      assert forall i :: 0 <= i < |before| ==> before[i] == inputs[i];
      InSumSameMatches(u, v, before);
    }
  }

  lemma StandardOkSameMatches(cfg: Config, t: Tx, u: seq<UTxO>, v: seq<UTxO>)
    requires forall i :: 0 <= i < |t.inputs| ==> Matches(u, t.inputs[i].key) == Matches(v, t.inputs[i].key)
    ensures StandardOk(cfg, t, u) <==> StandardOk(cfg, t, v)
  {
    InSumSameMatches(u, v, t.inputs);
    assert forall i :: 0 <= i < |t.inputs| ==> (InputOk(cfg, t, u, i) <==> InputOk(cfg, t, v, i));
  }
}
