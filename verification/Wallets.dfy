/** Wallet coin selection and the node's view of the transaction it builds (bwallet/bwallet.go). */
module Wallets {
  import opened Options
  import opened Records
  import opened Digests
  import opened Validity
  import opened Unspent
  import opened Ledger
  import opened Pools
  import opened Nodes

  /** The unspent outputs that belong to an address, in order. */
  function Owned(u: seq<UTxO>, address: string): seq<UTxO> {
    if u == [] then []
    else (if u[0].output.address == address then [u[0]] else []) + Owned(u[1..], address)
  }

  lemma {:induction false} OwnedExactly(u: seq<UTxO>, address: string, x: UTxO)
    ensures x in Owned(u, address) <==> x in u && x.output.address == address
  {
    if u != [] { OwnedExactly(u[1..], address, x); }
  }

  method WalletUnspentOutputs(u: seq<UTxO>, address: string) returns (matching: seq<UTxO>)
    ensures matching == Owned(u, address)
  {
    matching := [];
    for i := 0 to |u|
      invariant matching + Owned(u[i..], address) == Owned(u, address)
    {
      assert u[i..][1..] == u[i + 1..];
      if u[i].output.address == address {
        matching := matching + [u[i]];
      }
    }
  }

  method WalletBalance(u: seq<UTxO>, address: string) returns (balance: nat)
    ensures balance == Total(Owned(u, address))
  {
    var mine := WalletUnspentOutputs(u, address);
    balance := 0;
    for i := 0 to |mine|
      invariant balance == Total(mine[..i])
    {
      TotalSnoc(mine, i);
      balance := balance + mine[i].output.amount;
    }
    assert mine[..|mine|] == mine;
  }

  lemma TotalSnoc(u: seq<UTxO>, i: nat)
    requires i < |u|
    ensures Total(u[..i + 1]) == Total(u[..i]) + u[i].output.amount
  {
    assert u[..i + 1] == u[..i] + [u[i]];
    TotalAppend(u[..i], [u[i]]);
    assert [u[i]][1..] == [];
  }

  // ---------- building a transfer ----------

  /** `n` is the length of the shortest prefix that covers the amount. */
  predicate ShortestCover(mine: seq<UTxO>, amount: nat, n: nat) {
    0 < n <= |mine| && Total(mine[..n]) >= amount && Total(mine[..n - 1]) < amount
  }

  /** The inputs that spend the given outputs, all with one signature. */
  function InputsFor(spent: seq<UTxO>, signature: Digest): seq<TxI> {
    seq(|spent|, i requires 0 <= i < |spent| => TxI(spent[i].key, signature))
  }

  function ChangeOf(mine: seq<UTxO>, amount: nat, n: nat): (c: SizeT)
    requires ShortestCover(mine, amount, n)
  {
    TotalSnoc(mine, n - 1);
    Total(mine[..n]) - amount
  }

  /** Pay the amount and send what is left over back. */
  function OutputsFor(mine: seq<UTxO>, owner: string, to: string, amount: SizeT, n: nat): seq<TxO>
    requires ShortestCover(mine, amount, n)
  {
    var change := ChangeOf(mine, amount, n);
    [TxO(amount, to)] + (if change > 0 then [TxO(change, owner)] else [])
  }

  /** What a transfer is: the shortest sufficient prefix of the owner's outputs, paid out with change, hashed as the
      node hashes it, and signed. */
  predicate IsTransfer(cfg: Config, u: seq<UTxO>, owner: string, to: string, amount: SizeT, sign: Digest -> Digest,
                       t: Tx, n: nat)
  {
    && ShortestCover(Owned(u, owner), amount, n)
    && t.kind.Standard? && t.hash == TxHash(cfg, t)
    && t.inputs == InputsFor(Owned(u, owner)[..n], sign(t.hash))
    && t.outputs == OutputsFor(Owned(u, owner), owner, to, amount, n)
  }

  /** Select coins, pay, take change, hash and sign. `sign` is the wallet's private key and
      `latest` the transactions of the latest block, whose first one gives the index. */
  method WalletTransfer(cfg: Config, u: seq<UTxO>, owner: string, to: string, amount: SizeT,
                        latest: seq<Tx>, sign: Digest -> Digest)
    returns (r: Option<Tx>)
    requires amount > 0 && latest != []
    ensures r.Some? <==> Total(Owned(u, owner)) >= amount
    ensures r.Some? ==> r.value.index == latest[0].index + 1 && r.value.snapshot == []
    ensures r.Some? ==> exists n: nat :: IsTransfer(cfg, u, owner, to, amount, sign, r.value, n)
  {
    var mine := WalletUnspentOutputs(u, owner);
    var n, total := SelectCoins(mine, amount);
    if total < amount {
      return None;
    }
    var outputs := [TxO(amount, to)];
    if total > amount {
      TotalSnoc(mine, n - 1);
      outputs := outputs + [TxO(total - amount, owner)];
    }
    var index := latest[0].index + 1;
    var unsigned := InputsFor(mine[..n], []);
    var ss := HashText(index, unsigned, outputs);
    var hash := cfg.hash(ss);
    var inputs := InputsFor(mine[..n], sign(hash));
    SignatureNotHashed(mine[..n], [], sign(hash));
    r := Some(Tx(Standard, index, hash, inputs, outputs, []));
    assert IsTransfer(cfg, u, owner, to, amount, sign, r.value, n);
  }

  /** The selection loop. */
  method SelectCoins(mine: seq<UTxO>, amount: nat) returns (n: nat, total: nat)
    requires amount > 0
    ensures n <= |mine| && total == Total(mine[..n])
    ensures total >= amount <==> Total(mine) >= amount
    ensures total >= amount ==> ShortestCover(mine, amount, n)
  {
    n, total := 0, 0;
    while n < |mine|
      invariant n <= |mine| && total == Total(mine[..n]) < amount
    {
      TotalSnoc(mine, n);
      n, total := n + 1, total + mine[n].output.amount;
      if total >= amount {
        assert mine == mine[..n] + mine[n..];
        TotalAppend(mine[..n], mine[n..]);
        return;
      }
    }
    assert mine[..|mine|] == mine;
  }

  /** The text the wallet hashes, appended piece by piece. */
  method HashText(index: nat, inputs: seq<TxI>, outputs: seq<TxO>) returns (ss: string)
    ensures ss == TxPreimage(index, inputs, outputs)
  {
    ss := Digits(index);
    ss := AppendInputs(ss, inputs);
    ss := AppendOutputs(ss, outputs);
  }

  lemma InputsTextFrom(ss: string, inputs: seq<TxI>, i: nat)
    requires i < |inputs|
    ensures ss + InputsText(inputs[i..])
         == ss + ToString(inputs[i].key.hash) + Digits(inputs[i].key.index) + InputsText(inputs[i + 1..])
  {
    hide Digits, ToString;
    assert inputs[i..][1..] == inputs[i + 1..];
    var h, n, rest := ToString(inputs[i].key.hash), Digits(inputs[i].key.index), InputsText(inputs[i + 1..]);
    assert ss + (h + n + rest) == ss + h + n + rest;
  }

  lemma OutputsTextFrom(ss: string, outputs: seq<TxO>, i: nat)
    requires i < |outputs|
    ensures ss + OutputsText(outputs[i..])
         == ss + Digits(outputs[i].amount) + outputs[i].address + OutputsText(outputs[i + 1..])
  {
    hide Digits;
    assert outputs[i..][1..] == outputs[i + 1..];
    var n, a, rest := Digits(outputs[i].amount), outputs[i].address, OutputsText(outputs[i + 1..]);
    assert ss + (n + a + rest) == ss + n + a + rest;
  }

  method AppendInputs(start: string, inputs: seq<TxI>) returns (ss: string)
    ensures ss == start + InputsText(inputs)
  {
    hide Digits, ToString;
    ss := start;
    for i := 0 to |inputs|
      invariant ss + InputsText(inputs[i..]) == start + InputsText(inputs)
    {
      InputsTextFrom(ss, inputs, i);
      ss := ss + ToString(inputs[i].key.hash) + Digits(inputs[i].key.index);
    }
  }

  method AppendOutputs(start: string, outputs: seq<TxO>) returns (ss: string)
    ensures ss == start + OutputsText(outputs)
  {
    hide Digits;
    ss := start;
    for i := 0 to |outputs|
      invariant ss + OutputsText(outputs[i..]) == start + OutputsText(outputs)
    {
      OutputsTextFrom(ss, outputs, i);
      ss := ss + Digits(outputs[i].amount) + outputs[i].address;
    }
  }

  lemma {:induction false} SignatureNotHashed(spent: seq<UTxO>, a: Digest, b: Digest)
    ensures InputsText(InputsFor(spent, a)) == InputsText(InputsFor(spent, b))
  {
    if spent != [] {
      SignatureNotHashed(spent[1..], a, b);
      assert InputsFor(spent, a)[1..] == InputsFor(spent[1..], a);
      assert InputsFor(spent, b)[1..] == InputsFor(spent[1..], b);
    }
  }

  // ---------- the node accepts it ----------

  lemma {:induction false} OwnedMatches(u: seq<UTxO>, address: string, k: Key)
    ensures |Matches(Owned(u, address), k)| <= |Matches(u, k)|
  {
    if u != [] {
      OwnedMatches(u[1..], address, k);
      var head := if u[0].output.address == address then [u[0]] else [];
      MatchesAppend(head, Owned(u[1..], address), k);
      if head != [] { assert head[1..] == []; }
    }
  }

  lemma {:induction false} OwnedFrom(u: seq<UTxO>, address: string, i: nat)
    requires i < |Owned(u, address)|
    ensures Owned(u, address)[i] in u && Owned(u, address)[i].output.address == address
  {
    if u[0].output.address == address {
      if i > 0 { OwnedFrom(u[1..], address, i - 1); }
    } else {
      OwnedFrom(u[1..], address, i);
    }
  }

  lemma {:induction false} MatchesContains(u: seq<UTxO>, x: UTxO)
    requires x in u
    ensures x in Matches(u, x.key)
  {
    if u[0] != x {
      assert x in u[1..];
      MatchesContains(u[1..], x);
    }
  }

  lemma OwnedLookup(u: seq<UTxO>, address: string, i: nat)
    requires UniqueKeys(u) && i < |Owned(u, address)|
    ensures var x := Owned(u, address)[i]; Matches(u, x.key) == [x] && x.output.address == address
  {
    var x := Owned(u, address)[i];
    OwnedFrom(u, address, i);
    MatchesContains(u, x);
    assert |Matches(u, x.key)| <= 1;
  }

  lemma OwnedUnique(u: seq<UTxO>, address: string)
    requires UniqueKeys(u)
    ensures UniqueKeys(Owned(u, address))
  {
    forall k
      ensures |Matches(Owned(u, address), k)| <= 1
    {
      OwnedMatches(u, address, k);
      assert |Matches(u, k)| <= 1;
    }
  }

  lemma CoverStep(w: seq<UTxO>, mine: seq<UTxO>, signature: Digest, n: nat)
    requires 0 < n <= |mine|
    ensures InSum(w, InputsFor(mine[..n], signature))
         == InSum(w, InputsFor(mine[..n - 1], signature)) + Total(Matches(w, mine[n - 1].key))
  {
    var inputs := InputsFor(mine[..n], signature);
    assert inputs[..|inputs| - 1] == InputsFor(mine[..n - 1], signature);
    assert inputs[|inputs| - 1].key == mine[n - 1].key;
  }

  lemma {:induction false} CoverSum(u: seq<UTxO>, owner: string, signature: Digest, n: nat)
    requires UniqueKeys(u) && n <= |Owned(u, owner)|
    ensures InSum(u, InputsFor(Owned(u, owner)[..n], signature)) == Total(Owned(u, owner)[..n])
  {
    if n > 0 {
      var mine := Owned(u, owner);
      CoverSum(u, owner, signature, n - 1);
      CoverStep(u, mine, signature, n);
      OwnedLookup(u, owner, n - 1);
      TotalSnoc(mine, n - 1);
      assert [mine[n - 1]][1..] == [];
      assert Total([mine[n - 1]]) == mine[n - 1].output.amount;
    }
  }

  lemma OutputsSum(mine: seq<UTxO>, owner: string, to: string, amount: SizeT, n: nat)
    requires ShortestCover(mine, amount, n)
    ensures OutSum(OutputsFor(mine, owner, to, amount, n)) == Total(mine[..n])
  {
    var outs := OutputsFor(mine, owner, to, amount, n);
    if |outs| == 2 {
      assert outs[..1] == [TxO(amount, to)];
      assert outs[..1][..0] == [];
      assert OutSum(outs[..1]) == amount;
    } else {
      assert outs[..0] == [];
    }
  }

  /** Wallet and node agree: a transfer built from the node's unspent outputs passes the node's
      validation, with distinct inputs. */
  lemma TransferIsValid(cfg: Config, u: seq<UTxO>, owner: string, to: string, amount: SizeT, sign: Digest -> Digest,
                        t: Tx, n: nat)
    requires UniqueKeys(u) && owner != "" && IsTransfer(cfg, u, owner, to, amount, sign, t, n)
    requires cfg.verify(owner, t.hash, sign(t.hash))
    ensures StandardOk(cfg, t, u) && CleanTx(t)
    ensures OutSum(t.outputs) == InSum(u, t.inputs)
  {
    var mine := Owned(u, owner);
    CoverSum(u, owner, sign(t.hash), n);
    OutputsSum(mine, owner, to, amount, n);
    forall i | 0 <= i < |t.inputs|
      ensures InputOk(cfg, t, u, i)
    {
      OwnedLookup(u, owner, i);
    }
    OwnedUnique(u, owner);
    UniqueKeysMeaning(mine);
    assert forall i :: 0 <= i < |t.inputs| ==> t.inputs[i].key == mine[i].key;
  }

  /** Posting the transfer succeeds exactly when the pool has room and holds no transaction
      spending the same outputs. */
  lemma NodeTakesTransfer(cfg: Config, s: NodeState, owner: string, to: string, amount: SizeT,
                          sign: Digest -> Digest, t: Tx, n: nat)
    requires UniqueKeys(s.utxo) && owner != "" && IsTransfer(cfg, s.utxo, owner, to, amount, sign, t, n)
    requires cfg.verify(owner, t.hash, sign(t.hash))
    ensures TransactionTaken(cfg, s, TxToJson(t)).Done? <==> |s.pool| != cfg.numPerBlock && !SharesInput(s.pool, t)
  {
    TxRoundTrip(t);
    TransferIsValid(cfg, s.utxo, owner, to, amount, sign, t, n);
    var linked := t.(snapshot := s.utxo);
    assert forall i :: 0 <= i < |t.inputs| ==> (InputOk(cfg, t, s.utxo, i) <==> InputOk(cfg, linked, s.utxo, i));
    assert TxOk(cfg, linked);
    assert SharesInput(s.pool, linked) <==> SharesInput(s.pool, t);
  }
}
