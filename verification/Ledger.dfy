/** The unspent outputs as the replay of a chain: unique keys, no double spending and the
    money supply of every chain whose blocks are valid against the replay before them. */
module Ledger {
  import opened Records
  import opened Digests
  import opened Validity
  import opened Unspent

  // ---------- hypotheses that validation does not check ----------

  /** A standard transaction names at least one output to spend, none twice, and creates one. */
  predicate CleanTx(t: Tx) {
    t.kind.Standard? ==> t.inputs != [] && DistinctInputs(t.inputs) && t.outputs != []
  }

  predicate CleanList(ts: seq<Tx>) {
    && (forall i :: 0 <= i < |ts| ==> CleanTx(ts[i]))
    && (forall i, j :: 0 <= i < j < |ts| ==> KeySet(ts[i].inputs) !! KeySet(ts[j].inputs))
  }

  predicate CleanChain(bs: seq<Block>) {
    forall i :: 0 <= i < |bs| ==> CleanList(TxsOf(bs[i].data))
  }

  function InputKeys(inputs: seq<TxI>): seq<Key> {
    seq(|inputs|, i requires 0 <= i < |inputs| => inputs[i].key)
  }

  predicate SameContent(t: Tx, s: Tx) {
    t.index == s.index && InputKeys(t.inputs) == InputKeys(s.inputs) && t.outputs == s.outputs
  }

  function TxSet(ts: seq<Tx>): set<Tx> {
    set t | t in ts
  }

  function ChainTxs(bs: seq<Block>): set<Tx> {
    if bs == [] then {}
    else ChainTxs(bs[..|bs| - 1]) + TxSet(TxsOf(bs[|bs| - 1].data))
  }

  /** Transactions with the same hash have the same index, input keys and outputs. */
  predicate CollisionFree(txs: set<Tx>) {
    forall t, s :: t in txs && s in txs && t.hash == s.hash ==> SameContent(t, s)
  }

  // ---------- applying one block ----------

  ghost predicate Spendable(u: seq<UTxO>, ts: seq<Tx>) {
    forall i, k :: 0 <= i < |ts| && k in KeySet(ts[i].inputs) ==> Matches(u, k) != []
  }

  ghost predicate FreshList(u: seq<UTxO>, ts: seq<Tx>) {
    && (forall i :: 0 <= i < |ts| ==> Fresh(u, ts[i].hash))
    && (forall i, j :: 0 <= i < j < |ts| ==> ts[i].hash != ts[j].hash)
  }

  predicate SpentBy(ts: seq<Tx>, k: Key) {
    exists i :: 0 <= i < |ts| && k in KeySet(ts[i].inputs)
  }

  predicate CreatedBy(ts: seq<Tx>, h: Digest) {
    exists i :: 0 <= i < |ts| && ts[i].hash == h
  }

  function InSumAll(u: seq<UTxO>, ts: seq<Tx>): nat {
    if ts == [] then 0 else InSumAll(u, ts[..|ts| - 1]) + InSum(u, ts[|ts| - 1].inputs)
  }

  function OutSumAll(ts: seq<Tx>): nat {
    if ts == [] then 0 else OutSumAll(ts[..|ts| - 1]) + OutSum(ts[|ts| - 1].outputs)
  }

  /** No transaction spends what a transaction of the same list creates. */
  predicate Separate(ts: seq<Tx>) {
    forall i, j :: 0 <= i < |ts| && 0 <= j < |ts| ==> SpendsElsewhere(ts[i], ts[j].hash)
  }

  predicate SpendsElsewhere(t: Tx, h: Digest) {
    forall k :: k in KeySet(t.inputs) ==> k.hash != h
  }

  /** Everything a block may ask of the list it is applied to. Its inputs need not be unspent. */
  ghost predicate Applicable(u: seq<UTxO>, ts: seq<Tx>) {
    UniqueKeys(u) && CleanList(ts) && Separate(ts) && FreshList(u, ts)
    && (forall i :: 0 <= i < |ts| ==> DistinctInputs(ts[i].inputs))
  }

  lemma SpendableSeparate(u: seq<UTxO>, ts: seq<Tx>)
    requires Spendable(u, ts) && FreshList(u, ts)
    ensures Separate(ts)
  {
    forall i, j | 0 <= i < |ts| && 0 <= j < |ts|
      ensures SpendsElsewhere(ts[i], ts[j].hash)
    {
      assert Fresh(u, ts[j].hash);
    }
  }

  /** What a block does to the keys it does not create, for any unique keys and new hashes: they are
      gone or unchanged. */
  lemma {:induction false} BlockKeys(u: seq<UTxO>, ts: seq<Tx>)
    requires UniqueKeys(u) && FreshList(u, ts)
    ensures UniqueKeys(UpdatedAll(u, ts))
    ensures forall k: Key :: !CreatedBy(ts, k.hash) ==>
              Matches(UpdatedAll(u, ts), k) == if SpentBy(ts, k) then [] else Matches(u, k)
    ensures forall k: Key :: CreatedBy(ts, k.hash) ==>
              Matches(UpdatedAll(u, ts), k) == [] || Made(TxSet(ts), k, Matches(UpdatedAll(u, ts), k))
  {
    if ts != [] {
      var n := |ts| - 1;
      var before, t := ts[..n], ts[n];
      var v := UpdatedAll(u, before);
      assert forall i :: 0 <= i < n ==> before[i] == ts[i];
      BlockKeys(u, before);
      assert Fresh(v, t.hash) by {
        assert Fresh(u, t.hash) && !CreatedBy(before, t.hash);
      }
      UpdateRefines(v, t);
      forall k: Key | !CreatedBy(ts, k.hash)
        ensures Matches(UpdatedAll(u, ts), k) == if SpentBy(ts, k) then [] else Matches(u, k)
      {
        SpentBySnoc(ts, k);
        CreatedBySnoc(ts, k.hash);
        UpdateMatches(v, t, k);
      }
      forall k: Key | CreatedBy(ts, k.hash)
        ensures Matches(UpdatedAll(u, ts), k) == [] || Made(TxSet(ts), k, Matches(UpdatedAll(u, ts), k))
      {
        CreatedLast(u, ts, k);
      }
    }
  }

  /** One of the transactions created this entry for the key. */
  predicate Made(txs: set<Tx>, k: Key, found: seq<UTxO>) {
    exists c :: c in txs && c.hash == k.hash && k.index < |c.outputs| && found == [UTxO(k, c.outputs[k.index])]
  }

  lemma CreatedLast(u: seq<UTxO>, ts: seq<Tx>, k: Key)
    requires ts != [] && CreatedBy(ts, k.hash)
    requires var v := UpdatedAll(u, ts[..|ts| - 1]);
             && UniqueKeys(v) && Fresh(v, ts[|ts| - 1].hash)
             && (CreatedBy(ts[..|ts| - 1], k.hash) ==>
                   Matches(v, k) == [] || Made(TxSet(ts[..|ts| - 1]), k, Matches(v, k)))
    ensures Matches(UpdatedAll(u, ts), k) == [] || Made(TxSet(ts), k, Matches(UpdatedAll(u, ts), k))
  {
    var before, t := ts[..|ts| - 1], ts[|ts| - 1];
    var v := UpdatedAll(u, before);
    CreatedBySnoc(ts, k.hash);
    UpdateMatches(v, t, k);
    assert t in TxSet(ts) && forall c :: c in TxSet(before) ==> c in TxSet(ts);
  }

  lemma ApplicablePrefix(u: seq<UTxO>, ts: seq<Tx>, n: nat)
    requires Applicable(u, ts) && n <= |ts|
    ensures Applicable(u, ts[..n])
  {
    var p := ts[..n];
    assert forall i :: 0 <= i < n ==> p[i] == ts[i];
  }

  /** Applying the transactions of a block one after the other: keys stay unique, spent keys
      are gone, untouched keys are as before, and money is conserved. */
  lemma {:induction false} BlockApplies(u: seq<UTxO>, ts: seq<Tx>)
    requires Applicable(u, ts)
    ensures UniqueKeys(UpdatedAll(u, ts))
    ensures forall k :: SpentBy(ts, k) ==> Matches(UpdatedAll(u, ts), k) == []
    ensures forall k :: !SpentBy(ts, k) && !CreatedBy(ts, k.hash) ==> Matches(UpdatedAll(u, ts), k) == Matches(u, k)
    ensures Total(UpdatedAll(u, ts)) + InSumAll(u, ts) == Total(u) + OutSumAll(ts)
  {
    if ts != [] {
      var n := |ts| - 1;
      var before, t := ts[..n], ts[n];
      var v := UpdatedAll(u, before);
      ApplicablePrefix(u, ts, n);
      BlockApplies(u, before);
      NextApplies(u, ts, n);
      UpdateRefines(v, t);
      UpdateTotal(v, t);
      forall k
        ensures SpentBy(ts, k) <==> SpentBy(before, k) || k in KeySet(t.inputs)
        ensures CreatedBy(ts, k.hash) <==> CreatedBy(before, k.hash) || t.hash == k.hash
      {
        SpentBySnoc(ts, k);
        CreatedBySnoc(ts, k.hash);
      }
      forall k
        ensures SpentBy(ts, k) ==> Matches(UpdatedAll(u, ts), k) == []
        ensures !SpentBy(ts, k) && !CreatedBy(ts, k.hash) ==> Matches(UpdatedAll(u, ts), k) == Matches(u, k)
      {
        UpdateMatches(v, t, k);
        if SpentBy(before, k) { SpentNotOwn(u, ts, n, k); }
      }
    }
  }

  lemma SpentBySnoc(ts: seq<Tx>, k: Key)
    requires ts != []
    ensures SpentBy(ts, k) <==> SpentBy(ts[..|ts| - 1], k) || k in KeySet(ts[|ts| - 1].inputs)
  {
    var before := ts[..|ts| - 1];
    if i :| 0 <= i < |ts| && k in KeySet(ts[i].inputs) {
      if i < |before| { assert before[i] == ts[i]; }
    }
    if i :| 0 <= i < |before| && k in KeySet(before[i].inputs) { assert before[i] == ts[i]; }
  }

  lemma CreatedBySnoc(ts: seq<Tx>, h: Digest)
    requires ts != []
    ensures CreatedBy(ts, h) <==> CreatedBy(ts[..|ts| - 1], h) || ts[|ts| - 1].hash == h
  {
    var before := ts[..|ts| - 1];
    if i :| 0 <= i < |ts| && ts[i].hash == h {
      if i < |before| { assert before[i] == ts[i]; }
    }
    if i :| 0 <= i < |before| && before[i].hash == h { assert before[i] == ts[i]; }
  }

  /** A key spent in a block is not created by any transaction of that block. */
  lemma SpentNotOwn(u: seq<UTxO>, ts: seq<Tx>, n: nat, k: Key)
    requires Applicable(u, ts) && n < |ts| && SpentBy(ts, k)
    ensures k.hash != ts[n].hash
  {
    var i :| 0 <= i < |ts| && k in KeySet(ts[i].inputs);
    assert SpendsElsewhere(ts[i], ts[n].hash);
  }

  /** Transaction `n` finds in the list left by its predecessors what it found in the list
      the block was validated against. */
  lemma NextApplies(u: seq<UTxO>, ts: seq<Tx>, n: nat)
    requires Applicable(u, ts) && n < |ts|
    requires var v := UpdatedAll(u, ts[..n]);
             && UniqueKeys(v)
             && (forall k :: SpentBy(ts[..n], k) ==> Matches(v, k) == [])
             && (forall k :: !SpentBy(ts[..n], k) && !CreatedBy(ts[..n], k.hash) ==> Matches(v, k) == Matches(u, k))
    ensures var v, t := UpdatedAll(u, ts[..n]), ts[n];
            && Fresh(v, t.hash)
            && (forall k :: k in KeySet(t.inputs) ==> k.hash != t.hash)
            && (forall k :: k in KeySet(t.inputs) ==> Matches(v, k) == Matches(u, k))
            && InSum(v, t.inputs) == InSum(u, t.inputs)
  {
    var before, t := ts[..n], ts[n];
    var v := UpdatedAll(u, before);
    assert forall i :: 0 <= i < n ==> before[i] == ts[i];
    forall k: Key | k.hash == t.hash
      ensures Matches(v, k) == []
    {
      assert Fresh(u, t.hash);
      assert !CreatedBy(before, k.hash);
    }
    forall k | k in KeySet(t.inputs)
      ensures k.hash != t.hash && Matches(v, k) == Matches(u, k)
    {
      assert SpendsElsewhere(ts[n], ts[n].hash);
      forall i | 0 <= i < n
        ensures k !in KeySet(before[i].inputs) && before[i].hash != k.hash
      {
        assert KeySet(ts[i].inputs) !! KeySet(ts[n].inputs);
        assert SpendsElsewhere(ts[n], ts[i].hash);
      }
    }
    forall i | 0 <= i < |t.inputs|
      ensures Matches(v, t.inputs[i].key) == Matches(u, t.inputs[i].key)
    {
      assert t.inputs[i].key in KeySet(t.inputs);
    }
    InSumSameMatches(v, u, t.inputs);
  }

  /** Every output a block creates is unspent after it. */
  lemma {:induction false} BlockCreates(u: seq<UTxO>, ts: seq<Tx>, i: nat, j: nat)
    requires Applicable(u, ts) && i < |ts| && j < |ts[i].outputs|
    ensures Matches(UpdatedAll(u, ts), Key(ts[i].hash, j)) == [UTxO(Key(ts[i].hash, j), ts[i].outputs[j])]
  {
    var n := |ts| - 1;
    LastCreates(u, ts, Key(ts[i].hash, j));
    CreatedNotSpent(u, ts, i, j);
    if i < n {
      assert ts[i].hash != ts[n].hash;
      ApplicablePrefix(u, ts, n);
      BlockCreates(u, ts[..n], i, j);
    }
  }

  /** Lookup after the last transaction of a block. */
  lemma LastCreates(u: seq<UTxO>, ts: seq<Tx>, k: Key)
    requires Applicable(u, ts) && ts != []
    ensures var n := |ts| - 1;
            Matches(UpdatedAll(u, ts), k) ==
            if k in KeySet(ts[n].inputs) then []
            else if k.hash == ts[n].hash && k.index < |ts[n].outputs| then [UTxO(k, ts[n].outputs[k.index])]
            else Matches(UpdatedAll(u, ts[..n]), k)
  {
    var n := |ts| - 1;
    ApplicablePrefix(u, ts, n);
    BlockApplies(u, ts[..n]);
    NextApplies(u, ts, n);
    UpdateMatches(UpdatedAll(u, ts[..n]), ts[n], k);
  }

  lemma CreatedNotSpent(u: seq<UTxO>, ts: seq<Tx>, i: nat, j: nat)
    requires Applicable(u, ts) && i < |ts|
    ensures forall m :: 0 <= m < |ts| ==> Key(ts[i].hash, j) !in KeySet(ts[m].inputs)
  {
    forall m | 0 <= m < |ts|
      ensures Key(ts[i].hash, j) !in KeySet(ts[m].inputs)
    {
      assert SpendsElsewhere(ts[m], ts[i].hash);
    }
  }

  /** No erasing loop of a block's updates leaves the list. */
  lemma BlockStaysInside(u: seq<UTxO>, ts: seq<Tx>, n: nat)
    requires Applicable(u, ts) && n < |ts| && ts[n].outputs != []
    ensures !UpdateOverruns(UpdatedAll(u, ts[..n]), ts[n])
  {
    ApplicablePrefix(u, ts, n);
    BlockApplies(u, ts[..n]);
    NextApplies(u, ts, n);
    UpdateStaysInside(UpdatedAll(u, ts[..n]), ts[n]);
  }

  // ---------- replay of a chain ----------

  /** The unspent outputs rebuilt from a chain: update folded over all its transactions. */
  function Replay(bs: seq<Block>): seq<UTxO> {
    if bs == [] then [] else UpdatedAll(Replay(bs[..|bs| - 1]), TxsOf(bs[|bs| - 1].data))
  }

  /** Every block is valid for its position against the replay of the blocks before it. */
  predicate Linked(cfg: Config, bs: seq<Block>) {
    bs == [] ||
    var n := |bs| - 1;
    Linked(cfg, bs[..n]) && DataOk(cfg, RelinkData(bs[n].data, Replay(bs[..n])), n)
  }

  /** The hypotheses of the ledger theorems, all about the chain at hand. */
  predicate SoundChain(cfg: Config, bs: seq<Block>) {
    Linked(cfg, bs) && CleanChain(bs) && CollisionFree(ChainTxs(bs))
  }

  /** Position, kind and reward as every valid block has them, whatever it spends. */
  predicate PlacedList(ts: seq<Tx>, index: nat) {
    forall i :: 0 <= i < |ts| ==>
      ts[i].index == index && ts[i].kind == (if i == 0 then Reward else Standard) && (i == 0 ==> ts[i].inputs == [])
  }

  predicate Placed(bs: seq<Block>) {
    forall n :: 0 <= n < |bs| ==> PlacedList(TxsOf(bs[n].data), n)
  }

  /** Less than sound: nothing is asked about what the transactions spend. */
  predicate OrderlyChain(bs: seq<Block>) {
    Placed(bs) && CleanChain(bs) && CollisionFree(ChainTxs(bs))
  }

  lemma OrderlyBefore(bs: seq<Block>)
    requires OrderlyChain(bs) && bs != []
    ensures OrderlyChain(bs[..|bs| - 1])
  {
    var before := bs[..|bs| - 1];
    assert forall n :: 0 <= n < |before| ==> before[n] == bs[n];
  }

  lemma {:induction false} OrderlyPrefix(bs: seq<Block>, n: nat)
    requires OrderlyChain(bs) && n <= |bs|
    ensures OrderlyChain(bs[..n])
  {
    if n == |bs| {
      assert bs[..n] == bs;
    } else {
      OrderlyBefore(bs);
      OrderlyPrefix(bs[..|bs| - 1], n);
      assert bs[..|bs| - 1][..n] == bs[..n];
    }
  }

  lemma SoundBefore(cfg: Config, bs: seq<Block>)
    requires SoundChain(cfg, bs) && bs != []
    ensures SoundChain(cfg, bs[..|bs| - 1])
  {
  }

  lemma {:induction false} SoundPrefix(cfg: Config, bs: seq<Block>, n: nat)
    requires SoundChain(cfg, bs) && n <= |bs|
    ensures SoundChain(cfg, bs[..n])
  {
    if n == |bs| {
      assert bs[..n] == bs;
    } else {
      SoundBefore(cfg, bs);
      SoundPrefix(cfg, bs[..|bs| - 1], n);
      assert bs[..|bs| - 1][..n] == bs[..n];
    }
  }

  ghost predicate Originates(bs: seq<Block>, h: Digest) {
    exists t :: t in ChainTxs(bs) && t.hash == h
  }

  /** The invariant carried along a chain. */
  ghost predicate LedgerInv(bs: seq<Block>) {
    && UniqueKeys(Replay(bs))
    && (forall k :: Matches(Replay(bs), k) != [] ==> Originates(bs, k.hash))
    && (forall k :: Matches(Replay(bs), k) != [] ==> Made(ChainTxs(bs), k, Matches(Replay(bs), k)))
    && (forall t :: t in ChainTxs(bs) ==> t.index < |bs|)
  }

  /** Each transaction of a block, read off the block's validity. */
  predicate ListedParts(cfg: Config, ts: seq<Tx>, u: seq<UTxO>, index: nat) {
    forall i :: 0 <= i < |ts| ==>
      && ts[i].index == index
      && ts[i].kind == (if i == 0 then Reward else Standard)
      && (if i == 0 then RewardOk(cfg, ts[i]) else StandardOk(cfg, ts[i], u))
  }

  lemma LastListed(cfg: Config, d: Data, u: seq<UTxO>, index: nat)
    requires DataOk(cfg, RelinkData(d, u), index)
    ensures ListedParts(cfg, TxsOf(d), u, index)
  {
    var ts := TxsOf(d);
    forall i | 0 <= i < |ts|
      ensures ts[i].index == index
      ensures ts[i].kind == (if i == 0 then Reward else Standard)
      ensures if i == 0 then RewardOk(cfg, ts[i]) else StandardOk(cfg, ts[i], u)
    {
      assert ListedOk(cfg, Relink(ts, u), index, i);
      ListedMeans(cfg, ts, u, index, i);
    }
  }

  lemma ListedSpendable(cfg: Config, ts: seq<Tx>, u: seq<UTxO>, index: nat)
    requires ListedParts(cfg, ts, u, index)
    ensures Spendable(u, ts)
  {
    forall i, k | 0 <= i < |ts| && k in KeySet(ts[i].inputs)
      ensures Matches(u, k) != []
    {
      var j :| 0 <= j < |ts[i].inputs| && ts[i].inputs[j].key == k;
      if i != 0 { assert InputOk(cfg, ts[i], u, j); }
    }
  }

  lemma ListedPlaced(cfg: Config, ts: seq<Tx>, u: seq<UTxO>, index: nat)
    requires ListedParts(cfg, ts, u, index)
    ensures PlacedList(ts, index)
  {
  }

  lemma PlacedDistinct(ts: seq<Tx>, index: nat)
    requires PlacedList(ts, index) && CleanList(ts) && CollisionFree(TxSet(ts))
    ensures forall i :: 0 <= i < |ts| ==> DistinctInputs(ts[i].inputs)
    ensures forall i, j :: 0 <= i < j < |ts| ==> ts[i].hash != ts[j].hash
  {
    forall i | 0 <= i < |ts|
      ensures DistinctInputs(ts[i].inputs)
    {
      assert CleanTx(ts[i]);
    }
    forall i, j | 0 <= i < j < |ts|
      ensures ts[i].hash != ts[j].hash
    {
      assert CleanTx(ts[i]) && CleanTx(ts[j]);
      assert KeySet(ts[i].inputs) !! KeySet(ts[j].inputs);
      if InputKeys(ts[i].inputs) == InputKeys(ts[j].inputs) {
        SameKeys(ts[i].inputs, ts[j].inputs);
      }
      assert !SameContent(ts[i], ts[j]);
      assert ts[i] in TxSet(ts) && ts[j] in TxSet(ts);
    }
  }

  /** A block that is placed above everything in the chain brings new hashes. */
  lemma PlacedFresh(bs: seq<Block>, ts: seq<Tx>, index: nat)
    requires LedgerInv(bs) && PlacedList(ts, index) && index >= |bs| && CleanList(ts)
    requires CollisionFree(ChainTxs(bs) + TxSet(ts))
    ensures FreshList(Replay(bs), ts) && forall i :: 0 <= i < |ts| ==> DistinctInputs(ts[i].inputs)
    ensures forall i :: 0 <= i < |ts| ==> !Originates(bs, ts[i].hash)
  {
    assert CollisionFree(TxSet(ts));
    PlacedDistinct(ts, index);
    forall i | 0 <= i < |ts|
      ensures Fresh(Replay(bs), ts[i].hash) && !Originates(bs, ts[i].hash)
    {
      NewHash(bs, ts, ts[i]);
    }
  }

  lemma LastPlaced(bs: seq<Block>)
    requires OrderlyChain(bs) && bs != [] && LedgerInv(bs[..|bs| - 1])
    ensures var before, ts := bs[..|bs| - 1], TxsOf(bs[|bs| - 1].data);
            && FreshList(Replay(before), ts) && (forall i :: 0 <= i < |ts| ==> DistinctInputs(ts[i].inputs))
            && (forall i :: 0 <= i < |ts| ==> !Originates(before, ts[i].hash)) && PlacedList(ts, |bs| - 1)
            && CleanList(ts)
  {
    var n := |bs| - 1;
    assert PlacedList(TxsOf(bs[n].data), n) && CleanList(TxsOf(bs[n].data));
    PlacedFresh(bs[..n], TxsOf(bs[n].data), n);
  }

  lemma PlacedSnoc(bs: seq<Block>)
    requires bs != [] && Placed(bs[..|bs| - 1]) && PlacedList(TxsOf(bs[|bs| - 1].data), |bs| - 1)
    ensures Placed(bs)
  {
    hide PlacedList, TxsOf;
    var before := bs[..|bs| - 1];
    forall m | 0 <= m < |bs|
      ensures PlacedList(TxsOf(bs[m].data), m)
    {
      if m < |before| { assert before[m] == bs[m] && PlacedList(TxsOf(before[m].data), m); }
    }
  }

  lemma {:induction false} LinkedPlaced(cfg: Config, bs: seq<Block>)
    requires Linked(cfg, bs)
    ensures Placed(bs)
  {
    hide Placed, DataOk, ListedParts, PlacedList, TxsOf;
    if bs == [] {
      NothingPlaced();
    } else {
      var n := |bs| - 1;
      LinkedPlaced(cfg, bs[..n]);
      LastListed(cfg, bs[n].data, Replay(bs[..n]), n);
      ListedPlaced(cfg, TxsOf(bs[n].data), Replay(bs[..n]), n);
      PlacedSnoc(bs);
    }
  }

  lemma NothingPlaced()
    ensures Placed([])
  {
  }

  lemma SoundIsOrderly(cfg: Config, bs: seq<Block>)
    requires SoundChain(cfg, bs)
    ensures OrderlyChain(bs)
  {
    LinkedPlaced(cfg, bs);
  }

  /** The last block of a sound chain can be applied to the replay of the others, and spends only what
      is unspent there. */
  lemma LastApplicable(cfg: Config, bs: seq<Block>)
    requires SoundChain(cfg, bs) && bs != []
    ensures var u, ts := Replay(bs[..|bs| - 1]), TxsOf(bs[|bs| - 1].data);
            Applicable(u, ts) && Spendable(u, ts) && LedgerInv(bs[..|bs| - 1])
  {
    var n := |bs| - 1;
    var ts, u := TxsOf(bs[n].data), Replay(bs[..n]);
    SoundIsOrderly(cfg, bs);
    OrderlyBefore(bs);
    LedgerInvHolds(bs[..n]);
    LastPlaced(bs);
    LastListed(cfg, bs[n].data, u, n);
    ListedSpendable(cfg, ts, u, n);
    SpendableSeparate(u, ts);
  }

  lemma ListedMeans(cfg: Config, ts: seq<Tx>, u: seq<UTxO>, index: nat, i: nat)
    requires i < |ts| && ListedOk(cfg, Relink(ts, u), index, i)
    ensures ts[i].index == index && ts[i].kind == (if i == 0 then Reward else Standard)
    ensures if i == 0 then RewardOk(cfg, ts[i]) else StandardOk(cfg, ts[i], u)
  {
    var t := Relink(ts, u)[i];
    assert t == ts[i].(snapshot := u);
    if i != 0 {
      assert forall j :: 0 <= j < |t.inputs| ==> (InputOk(cfg, t, u, j) <==> InputOk(cfg, ts[i], u, j));
    }
  }

  /** Equal key sequences of standard transactions share a key. */
  lemma SameKeys(a: seq<TxI>, b: seq<TxI>)
    requires InputKeys(a) == InputKeys(b)
    ensures |a| == |b| && (a != [] ==> !(KeySet(a) !! KeySet(b)))
  {
    assert |a| == |InputKeys(a)| == |b|;
    if a != [] {
      assert InputKeys(a)[0] == a[0].key == b[0].key;
      assert a[0].key in KeySet(a) && b[0].key in KeySet(b);
    }
  }

  /** A transaction placed above the chain has a hash no earlier output carries: the index is part of
      the hashed content. */
  lemma NewHash(bs: seq<Block>, ts: seq<Tx>, t: Tx)
    requires LedgerInv(bs) && CollisionFree(ChainTxs(bs) + TxSet(ts)) && t in ts && t.index >= |bs|
    ensures Fresh(Replay(bs), t.hash) && !Originates(bs, t.hash)
  {
    assert t in TxSet(ts);
    forall s | s in ChainTxs(bs)
      ensures s.hash != t.hash
    {
      assert s.index != t.index;
      assert s.hash == t.hash ==> SameContent(s, t);
    }
  }

  /** Every orderly chain keeps keys unique, and unspent outputs come from its transactions. */
  lemma {:induction false} LedgerInvHolds(bs: seq<Block>)
    requires OrderlyChain(bs)
    ensures LedgerInv(bs)
  {
    if bs != [] {
      OrderlyBefore(bs);
      LedgerInvHolds(bs[..|bs| - 1]);
      LedgerInvStep(bs);
    } else {
      assert forall k :: Matches([], k) == [];
    }
  }

  lemma LedgerInvStep(bs: seq<Block>)
    requires OrderlyChain(bs) && bs != [] && LedgerInv(bs[..|bs| - 1])
    ensures LedgerInv(bs)
  {
    var n := |bs| - 1;
    var before, ts := bs[..n], TxsOf(bs[n].data);
    LastPlaced(bs);
    BlockKeys(Replay(before), ts);
    forall k | Matches(Replay(bs), k) != []
      ensures Originates(bs, k.hash) && Made(ChainTxs(bs), k, Matches(Replay(bs), k))
    {
      if CreatedBy(ts, k.hash) {
        MadeWithin(TxSet(ts), ChainTxs(bs), k, Matches(Replay(bs), k));
      } else {
        assert Originates(before, k.hash);
        MadeWithin(ChainTxs(before), ChainTxs(bs), k, Matches(Replay(bs), k));
      }
    }
    forall t | t in ChainTxs(bs)
      ensures t.index < |bs|
    {
      if t !in ChainTxs(before) { assert t in ts; }
    }
  }

  lemma MadeWithin(a: set<Tx>, b: set<Tx>, k: Key, found: seq<UTxO>)
    requires Made(a, k, found) && a <= b
    ensures Made(b, k, found) && exists c :: c in b && c.hash == k.hash
  {
  }

  /** What the last block spends was created before it. */
  ghost predicate LastRooted(bs: seq<Block>)
    requires bs != []
  {
    var before, ts := bs[..|bs| - 1], TxsOf(bs[|bs| - 1].data);
    forall i, k :: 0 <= i < |ts| && k in KeySet(ts[i].inputs) ==> Originates(before, k.hash)
  }

  /** Such a block can be applied, whether or not its inputs are still unspent. */
  lemma RootedApplicable(bs: seq<Block>)
    requires OrderlyChain(bs) && bs != [] && LastRooted(bs)
    ensures Applicable(Replay(bs[..|bs| - 1]), TxsOf(bs[|bs| - 1].data)) && LedgerInv(bs[..|bs| - 1])
  {
    var before, ts := bs[..|bs| - 1], TxsOf(bs[|bs| - 1].data);
    OrderlyBefore(bs);
    LedgerInvHolds(before);
    LastPlaced(bs);
    forall i, j | 0 <= i < |ts| && 0 <= j < |ts|
      ensures SpendsElsewhere(ts[i], ts[j].hash)
    {
      assert !Originates(before, ts[j].hash);
    }
  }

  /** A block for this or a later position, valid against the replay of a chain with unique keys and
      known origins, can be applied to it. */
  lemma OfferedApplicable(cfg: Config, bs: seq<Block>, d: Data, index: nat)
    requires LedgerInv(bs) && CleanList(TxsOf(d)) && index >= |bs|
    requires DataOk(cfg, RelinkData(d, Replay(bs)), index)
    requires CollisionFree(ChainTxs(bs) + TxSet(TxsOf(d)))
    ensures Applicable(Replay(bs), TxsOf(d)) && Spendable(Replay(bs), TxsOf(d))
  {
    var u, ts := Replay(bs), TxsOf(d);
    LastListed(cfg, d, u, index);
    ListedPlaced(cfg, ts, u, index);
    ListedSpendable(cfg, ts, u, index);
    PlacedFresh(bs, ts, index);
    SpendableSeparate(u, ts);
  }

  // ---------- chains without spending ----------

  predicate RewardOnly(ts: seq<Tx>) {
    |ts| <= 1 && (|ts| == 1 ==> ts[0].inputs == [] && |ts[0].outputs| == 1)
  }

  /** Some block of the chain carries the reward that `k` names. */
  predicate CarriesReward(bs: seq<Block>, k: Key) {
    k.index == 0 && exists i :: 0 <= i < |bs| && PaysReward(bs[i], k.hash)
  }

  predicate PaysReward(b: Block, h: Digest) {
    TxsOf(b.data) != [] && TxsOf(b.data)[0].hash == h
  }

  lemma UpdatedByReward(u: seq<UTxO>, ts: seq<Tx>, k: Key)
    requires RewardOnly(ts)
    ensures Matches(UpdatedAll(u, ts), k) != [] <==>
            Matches(u, k) != [] || (ts != [] && k.index == 0 && ts[0].hash == k.hash)
  {
    if ts != [] {
      var t := ts[0];
      var created := NewOutputs(t.hash, t.outputs);
      assert ts[..0] == [];
      assert UpdatedAll(u, ts) == Updated(u, t) == u + created;
      MatchesAppend(u, created, k);
      NewOutputsMatches(t.hash, t.outputs, k);
    }
  }

  /** On a chain that only pays rewards, a key is unspent exactly when the chain carries the
      reward it names. */
  lemma {:induction false} ReplayOfRewards(bs: seq<Block>, k: Key)
    requires forall i :: 0 <= i < |bs| ==> RewardOnly(TxsOf(bs[i].data))
    ensures Matches(Replay(bs), k) != [] <==> CarriesReward(bs, k)
  {
    hide Matches, RewardOnly, PaysReward, UpdatedAll;
    if bs == [] {
      NothingUnspent(k);
    } else {
      var n := |bs| - 1;
      var before := bs[..n];
      assert forall i :: 0 <= i < n ==> before[i] == bs[i];
      ReplayOfRewards(before, k);
      UpdatedByReward(Replay(before), TxsOf(bs[n].data), k);
      CarriesSnoc(bs, k);
    }
  }

  lemma NothingUnspent(k: Key)
    ensures Matches([], k) == []
  {
  }

  lemma CarriesSnoc(bs: seq<Block>, k: Key)
    requires bs != []
    ensures CarriesReward(bs, k) <==>
            CarriesReward(bs[..|bs| - 1], k)
            || (k.index == 0 && TxsOf(bs[|bs| - 1].data) != [] && TxsOf(bs[|bs| - 1].data)[0].hash == k.hash)
  {
    var n := |bs| - 1;
    var before := bs[..n];
    assert forall i :: 0 <= i < n ==> before[i] == bs[i];
    if i :| 0 <= i < |bs| && PaysReward(bs[i], k.hash) {
      if i < n { assert PaysReward(before[i], k.hash); }
    }
    if i :| 0 <= i < |before| && PaysReward(before[i], k.hash) {
      assert PaysReward(bs[i], k.hash);
    }
    if TxsOf(bs[n].data) != [] && TxsOf(bs[n].data)[0].hash == k.hash { assert PaysReward(bs[n], k.hash); }
  }

  // ---------- no output returns ----------

  /** What a further block leaves of an output the chain has created. */
  lemma CreatedStep(bs: seq<Block>, k: Key)
    requires OrderlyChain(bs) && bs != [] && Originates(bs[..|bs| - 1], k.hash)
    ensures Originates(bs, k.hash)
    ensures Matches(Replay(bs), k) == [] || Matches(Replay(bs), k) == Matches(Replay(bs[..|bs| - 1]), k)
  {
    var before, ts := bs[..|bs| - 1], TxsOf(bs[|bs| - 1].data);
    OrderlyBefore(bs);
    LedgerInvHolds(before);
    LastPlaced(bs);
    BlockKeys(Replay(before), ts);
    assert !CreatedBy(ts, k.hash);
  }

  /** An output that existed and is spent stays spent for the rest of the chain, sound or not. */
  lemma {:induction false} SpentStaysSpent(bs: seq<Block>, n: nat, k: Key)
    requires OrderlyChain(bs) && n <= |bs|
    requires Originates(bs[..n], k.hash) && Matches(Replay(bs[..n]), k) == []
    ensures Originates(bs, k.hash) && Matches(Replay(bs), k) == []
  {
    if n == |bs| {
      assert bs[..n] == bs;
    } else {
      var before := bs[..|bs| - 1];
      assert before[..n] == bs[..n];
      OrderlyBefore(bs);
      SpentStaysSpent(before, n, k);
      CreatedStep(bs, k);
    }
  }

  lemma SpendingStep(cfg: Config, bs: seq<Block>, a: nat, k: Key)
    requires SoundChain(cfg, bs) && bs != []
    requires a < |TxsOf(bs[|bs| - 1].data)| && k in KeySet(TxsOf(bs[|bs| - 1].data)[a].inputs)
    ensures |Matches(Replay(bs[..|bs| - 1]), k)| == 1
    ensures Originates(bs, k.hash) && Matches(Replay(bs), k) == []
  {
    var before, ts := bs[..|bs| - 1], TxsOf(bs[|bs| - 1].data);
    LastApplicable(cfg, bs);
    BlockApplies(Replay(before), ts);
    assert SpentBy(ts, k);
    assert Matches(Replay(before), k) != [];
    var t :| t in ChainTxs(before) && t.hash == k.hash;
    assert t in ChainTxs(bs);
  }

  lemma SpendingAt(cfg: Config, bs: seq<Block>, i: nat, a: nat, k: Key)
    requires SoundChain(cfg, bs) && i < |bs|
    requires a < |TxsOf(bs[i].data)| && k in KeySet(TxsOf(bs[i].data)[a].inputs)
    ensures |Matches(Replay(bs[..i]), k)| == 1
    ensures Originates(bs[..i + 1], k.hash) && Matches(Replay(bs[..i + 1]), k) == []
  {
    var upto := bs[..i + 1];
    SoundPrefix(cfg, bs, i + 1);
    assert upto[..|upto| - 1] == bs[..i] && upto[|upto| - 1] == bs[i];
    SpendingStep(cfg, upto, a, k);
  }

  /** What a block spends was unspent before it and is spent after it, to the end of the chain. */
  lemma SpendingIsFinal(cfg: Config, bs: seq<Block>, i: nat, a: nat, k: Key)
    requires SoundChain(cfg, bs) && i < |bs|
    requires a < |TxsOf(bs[i].data)| && k in KeySet(TxsOf(bs[i].data)[a].inputs)
    ensures |Matches(Replay(bs[..i]), k)| == 1
    ensures Matches(Replay(bs), k) == []
  {
    SpendingAt(cfg, bs, i, a, k);
    SoundIsOrderly(cfg, bs);
    SpentStaysSpent(bs, i + 1, k);
  }

  lemma LaterSpendsElse(cfg: Config, bs: seq<Block>, i: nat, a: nat, j: nat, b: nat, k: Key)
    requires SoundChain(cfg, bs) && i < j < |bs|
    requires a < |TxsOf(bs[i].data)| && b < |TxsOf(bs[j].data)|
    requires k in KeySet(TxsOf(bs[i].data)[a].inputs)
    ensures k !in KeySet(TxsOf(bs[j].data)[b].inputs)
  {
    var upto := bs[..j];
    assert upto[i] == bs[i];
    assert SoundChain(cfg, upto) by { SoundPrefix(cfg, bs, j); }
    SpendingIsFinal(cfg, upto, i, a, k);
    if k in KeySet(TxsOf(bs[j].data)[b].inputs) {
      SpendingIsFinal(cfg, bs, j, b, k);
    }
  }

  /** No double spending: two different transactions of a sound chain spend different outputs. */
  lemma NoDoubleSpending(cfg: Config, bs: seq<Block>, i: nat, a: nat, j: nat, b: nat)
    requires SoundChain(cfg, bs) && i < |bs| && j < |bs|
    requires a < |TxsOf(bs[i].data)| && b < |TxsOf(bs[j].data)| && (i != j || a != b)
    ensures KeySet(TxsOf(bs[i].data)[a].inputs) !! KeySet(TxsOf(bs[j].data)[b].inputs)
  {
    if i == j {
      assert CleanList(TxsOf(bs[i].data));
      if a < b {} else {}
    } else {
      forall k
        ensures !(k in KeySet(TxsOf(bs[i].data)[a].inputs) && k in KeySet(TxsOf(bs[j].data)[b].inputs))
      {
        if i < j {
          if k in KeySet(TxsOf(bs[i].data)[a].inputs) { LaterSpendsElse(cfg, bs, i, a, j, b, k); }
        } else {
          if k in KeySet(TxsOf(bs[j].data)[b].inputs) { LaterSpendsElse(cfg, bs, j, b, i, a, k); }
        }
      }
    }
  }

  // ---------- supply ----------

  /** Blocks that carry a reward, that is, blocks with a non-empty transaction list. */
  function Rewarded(bs: seq<Block>): nat {
    if bs == [] then 0
    else Rewarded(bs[..|bs| - 1]) + (if TxsOf(bs[|bs| - 1].data) != [] then 1 else 0)
  }

  /** What the inputs that are no longer unspent were worth when the transaction was validated. */
  function StaleSum(u: seq<UTxO>, snapshot: seq<UTxO>, inputs: seq<TxI>): nat {
    if inputs == [] then 0
    else
      var k := inputs[|inputs| - 1].key;
      StaleSum(u, snapshot, inputs[..|inputs| - 1]) + (if Matches(u, k) == [] then Total(Matches(snapshot, k)) else 0)
  }

  /** The input sum validation saw, as far as the unspent outputs still tell. */
  function Claimed(u: seq<UTxO>, t: Tx): nat {
    InSum(u, t.inputs) + StaleSum(u, t.snapshot, t.inputs)
  }

  lemma {:induction false} NothingStale(u: seq<UTxO>, snapshot: seq<UTxO>, inputs: seq<TxI>)
    requires forall k :: k in KeySet(inputs) ==> Matches(u, k) != []
    ensures StaleSum(u, snapshot, inputs) == 0
  {
    if inputs != [] {
      var before := inputs[..|inputs| - 1];
      KeySetSnoc(inputs);
      NothingStale(u, snapshot, before);
    }
  }

  /** How often the size_t sums of a block's standard transactions wrapped around, outputs
      minus inputs. */
  function BlockWraps(u: seq<UTxO>, ts: seq<Tx>): int {
    if ts == [] then 0
    else
      var t := ts[|ts| - 1];
      BlockWraps(u, ts[..|ts| - 1])
      + (if t.kind.Standard? then OutSum(t.outputs) / SIZE_T_RANGE - Claimed(u, t) / SIZE_T_RANGE else 0)
  }

  /** What a block spends that is spent already. */
  function BlockAgain(u: seq<UTxO>, ts: seq<Tx>): nat {
    if ts == [] then 0
    else BlockAgain(u, ts[..|ts| - 1]) + StaleSum(u, ts[|ts| - 1].snapshot, ts[|ts| - 1].inputs)
  }

  function SpentAgain(bs: seq<Block>): nat {
    if bs == [] then 0
    else SpentAgain(bs[..|bs| - 1]) + BlockAgain(Replay(bs[..|bs| - 1]), TxsOf(bs[|bs| - 1].data))
  }

  function Wraps(bs: seq<Block>): int {
    if bs == [] then 0
    else Wraps(bs[..|bs| - 1]) + BlockWraps(Replay(bs[..|bs| - 1]), TxsOf(bs[|bs| - 1].data))
  }

  lemma CongruentDifference(a: nat, b: nat)
    requires a % SIZE_T_RANGE == b % SIZE_T_RANGE
    ensures a - b == SIZE_T_RANGE * (a / SIZE_T_RANGE - b / SIZE_T_RANGE)
  {
  }

  /** What supply asks of a block: it can be applied, the reward is right, and the sums agree with what
      was claimed. */
  ghost predicate Payable(cfg: Config, u: seq<UTxO>, ts: seq<Tx>) {
    Applicable(u, ts) && forall i :: 0 <= i < |ts| ==> Pays(cfg, u, ts[i], i)
  }

  predicate Pays(cfg: Config, u: seq<UTxO>, t: Tx, i: nat) {
    if i == 0 then t.kind.Reward? && t.inputs == [] && OutSum(t.outputs) == cfg.rewardAmount
    else t.kind.Standard? && OutSum(t.outputs) % SIZE_T_RANGE == Claimed(u, t) % SIZE_T_RANGE
  }

  ghost predicate PayableChain(cfg: Config, bs: seq<Block>) {
    bs == [] ||
    var n := |bs| - 1;
    PayableChain(cfg, bs[..n]) && Payable(cfg, Replay(bs[..n]), TxsOf(bs[n].data))
  }

  lemma {:induction false} BlockSupply(cfg: Config, u: seq<UTxO>, ts: seq<Tx>, n: nat)
    requires n <= |ts| && forall i :: 0 <= i < |ts| ==> Pays(cfg, u, ts[i], i)
    ensures OutSumAll(ts[..n]) - InSumAll(u, ts[..n]) ==
            (if n > 0 then cfg.rewardAmount else 0) + SIZE_T_RANGE * BlockWraps(u, ts[..n]) + BlockAgain(u, ts[..n])
  {
    hide OutSum, InSum, StaleSum;
    if n > 0 {
      var p, t := ts[..n], ts[n - 1];
      assert p[..n - 1] == ts[..n - 1];
      BlockSupply(cfg, u, ts, n - 1);
      assert Pays(cfg, u, ts[n - 1], n - 1);
      if n == 1 { NoInputs(u, t.snapshot); } else { CongruentDifference(OutSum(t.outputs), Claimed(u, t)); }
    }
  }

  lemma NoInputs(u: seq<UTxO>, snapshot: seq<UTxO>)
    ensures InSum(u, []) == 0 && StaleSum(u, snapshot, []) == 0
  {
  }

  /** What the last block adds. */
  lemma BlockTotal(cfg: Config, bs: seq<Block>)
    requires bs != [] && Payable(cfg, Replay(bs[..|bs| - 1]), TxsOf(bs[|bs| - 1].data))
    ensures var before, ts := bs[..|bs| - 1], TxsOf(bs[|bs| - 1].data);
            Total(Replay(bs)) == Total(Replay(before)) + (if ts != [] then cfg.rewardAmount else 0)
                                 + SIZE_T_RANGE * BlockWraps(Replay(before), ts) + BlockAgain(Replay(before), ts)
  {
    hide BlockWraps, BlockAgain, Pays;
    var n := |bs| - 1;
    var ts, u := TxsOf(bs[n].data), Replay(bs[..n]);
    BlockApplies(u, ts);
    assert ts[..|ts|] == ts;
    BlockSupply(cfg, u, ts, |ts|);
  }

  /** Money supply: the unspent amounts add up to one reward per rewarded block, plus 2^64 for each
      wrap-around of a size_t sum, plus what was spent again. */
  lemma {:induction false} SupplyIdentity(cfg: Config, bs: seq<Block>)
    requires PayableChain(cfg, bs)
    ensures Total(Replay(bs)) == cfg.rewardAmount * Rewarded(bs) + SIZE_T_RANGE * Wraps(bs) + SpentAgain(bs)
  {
    if bs != [] {
      SupplyIdentity(cfg, bs[..|bs| - 1]);
      SupplyStep(cfg, bs);
    }
  }

  lemma SupplyStep(cfg: Config, bs: seq<Block>)
    requires bs != [] && Payable(cfg, Replay(bs[..|bs| - 1]), TxsOf(bs[|bs| - 1].data))
    requires var p := bs[..|bs| - 1];
             Total(Replay(p)) == cfg.rewardAmount * Rewarded(p) + SIZE_T_RANGE * Wraps(p) + SpentAgain(p)
    ensures Total(Replay(bs)) == cfg.rewardAmount * Rewarded(bs) + SIZE_T_RANGE * Wraps(bs) + SpentAgain(bs)
  {
    hide Replay, Total, BlockWraps, BlockAgain, Payable, Rewarded, Wraps, SpentAgain;
    BlockTotal(cfg, bs);
    LastCounts(bs);
    var before, ts := bs[..|bs| - 1], TxsOf(bs[|bs| - 1].data);
    OneMoreBlock(cfg.rewardAmount, Rewarded(before), ts != [], Wraps(before), BlockWraps(Replay(before), ts));
  }

  lemma LastCounts(bs: seq<Block>)
    requires bs != []
    ensures var before, ts := bs[..|bs| - 1], TxsOf(bs[|bs| - 1].data);
            && Rewarded(bs) == Rewarded(before) + (if ts != [] then 1 else 0)
            && Wraps(bs) == Wraps(before) + BlockWraps(Replay(before), ts)
            && SpentAgain(bs) == SpentAgain(before) + BlockAgain(Replay(before), ts)
  {
  }

  lemma OneMoreBlock(a: nat, n: nat, more: bool, w: int, x: int)
    ensures a * (n + if more then 1 else 0) + SIZE_T_RANGE * (w + x)
         == a * n + SIZE_T_RANGE * w + (if more then a else 0) + SIZE_T_RANGE * x
  {
    OneMore(a, n);
  }

  lemma {:induction false} NothingAgain(u: seq<UTxO>, ts: seq<Tx>)
    requires Spendable(u, ts)
    ensures BlockAgain(u, ts) == 0
  {
    if ts != [] {
      var n := |ts| - 1;
      assert forall i :: 0 <= i < n ==> ts[..n][i] == ts[i];
      NothingAgain(u, ts[..n]);
      NothingStale(u, ts[n].snapshot, ts[n].inputs);
    }
  }

  lemma ListedPays(cfg: Config, ts: seq<Tx>, u: seq<UTxO>, index: nat, i: nat)
    requires ListedParts(cfg, ts, u, index) && Spendable(u, ts) && i < |ts|
    ensures Pays(cfg, u, ts[i], i)
  {
    NothingStale(u, ts[i].snapshot, ts[i].inputs);
    if i == 0 { assert ts[0].outputs[..0] == []; }
  }

  lemma LastPayable(cfg: Config, bs: seq<Block>)
    requires SoundChain(cfg, bs) && bs != []
    ensures var u, ts := Replay(bs[..|bs| - 1]), TxsOf(bs[|bs| - 1].data);
            Payable(cfg, u, ts) && BlockAgain(u, ts) == 0
  {
    hide Pays, Applicable;
    var n := |bs| - 1;
    var u, ts := Replay(bs[..n]), TxsOf(bs[n].data);
    LastApplicable(cfg, bs);
    LastListed(cfg, bs[n].data, u, n);
    NothingAgain(u, ts);
    forall i | 0 <= i < |ts|
      ensures Pays(cfg, u, ts[i], i)
    {
      ListedPays(cfg, ts, u, n, i);
    }
  }

  lemma {:induction false} SoundPayable(cfg: Config, bs: seq<Block>)
    requires SoundChain(cfg, bs)
    ensures PayableChain(cfg, bs) && SpentAgain(bs) == 0
  {
    hide Payable;
    if bs != [] {
      SoundBefore(cfg, bs);
      SoundPayable(cfg, bs[..|bs| - 1]);
      LastPayable(cfg, bs);
    }
  }

  /** On sound chains nothing is spent again. */
  lemma Supply(cfg: Config, bs: seq<Block>)
    requires SoundChain(cfg, bs)
    ensures Total(Replay(bs)) == cfg.rewardAmount * Rewarded(bs) + SIZE_T_RANGE * Wraps(bs)
  {
    SoundPayable(cfg, bs);
    SupplyIdentity(cfg, bs);
  }

  lemma OneMore(a: nat, n: nat)
    ensures a * (n + 1) == a * n + a
  {
  }

  /** No output sum reaches 2^64. */
  predicate SmallOutputs(bs: seq<Block>) {
    forall i, j :: 0 <= i < |bs| && 0 <= j < |TxsOf(bs[i].data)| ==>
      OutSum(TxsOf(bs[i].data)[j].outputs) < SIZE_T_RANGE
  }

  lemma {:induction false} RewardedMonotone(cfg: Config, bs: seq<Block>)
    requires bs != []
    ensures cfg.rewardAmount * Rewarded(bs[..|bs| - 1]) <= cfg.rewardAmount * Rewarded(bs)
  {
  }

  /** Conservation: as long as no output sum and no total of rewards reaches 2^64, the unspent
      amounts add up to exactly one reward per rewarded block. */
  lemma SupplyConserved(cfg: Config, bs: seq<Block>)
    requires SoundChain(cfg, bs) && SmallOutputs(bs)
    requires cfg.rewardAmount * Rewarded(bs) < SIZE_T_RANGE
    ensures Total(Replay(bs)) == cfg.rewardAmount * Rewarded(bs)
  {
    Supply(cfg, bs);
    NoWraps(cfg, bs);
  }

  lemma {:induction false} NoWraps(cfg: Config, bs: seq<Block>)
    requires SoundChain(cfg, bs) && SmallOutputs(bs)
    requires cfg.rewardAmount * Rewarded(bs) < SIZE_T_RANGE
    ensures Wraps(bs) == 0
  {
    if bs != [] {
      var n := |bs| - 1;
      var before, ts := bs[..n], TxsOf(bs[n].data);
      SoundBefore(cfg, bs);
      RewardedMonotone(cfg, bs);
      assert forall i :: 0 <= i < n ==> before[i] == bs[i];
      NoWraps(cfg, before);
      Supply(cfg, before);
      LastApplicable(cfg, bs);
      assert forall j :: 0 <= j < |ts| ==> OutSum(TxsOf(bs[n].data)[j].outputs) < SIZE_T_RANGE;
      NoBlockWraps(Replay(before), ts);
    }
  }

  lemma {:induction false} NoBlockWraps(u: seq<UTxO>, ts: seq<Tx>)
    requires Total(u) < SIZE_T_RANGE && Spendable(u, ts)
    requires forall j :: 0 <= j < |ts| ==> OutSum(ts[j].outputs) < SIZE_T_RANGE && DistinctInputs(ts[j].inputs)
    ensures BlockWraps(u, ts) == 0
  {
    if ts != [] {
      var n := |ts| - 1;
      assert forall j :: 0 <= j < n ==> ts[..n][j] == ts[j];
      NoBlockWraps(u, ts[..n]);
      NothingStale(u, ts[n].snapshot, ts[n].inputs);
      SpentTotal(u, ts[n].inputs);
      NoQuotient(OutSum(ts[n].outputs));
      NoQuotient(InSum(u, ts[n].inputs));
    }
  }

  lemma NoQuotient(a: nat)
    requires a < SIZE_T_RANGE
    ensures a / SIZE_T_RANGE == 0
  {
  }

  /** The supply of a chain is exactly its rewards. */
  predicate Conserved(cfg: Config, bs: seq<Block>) {
    Total(Replay(bs)) == cfg.rewardAmount * Rewarded(bs)
  }

  lemma {:induction false} RewardedPrefix(cfg: Config, bs: seq<Block>, n: nat)
    requires n <= |bs|
    ensures cfg.rewardAmount * Rewarded(bs[..n]) <= cfg.rewardAmount * Rewarded(bs)
    decreases |bs|
  {
    if n == |bs| {
      assert bs[..n] == bs;
    } else {
      RewardedPrefix(cfg, bs[..|bs| - 1], n);
      assert bs[..|bs| - 1][..n] == bs[..n];
      RewardedMonotone(cfg, bs);
    }
  }

  /** No wrap-around of an input sum hides one of an output sum. */
  lemma {:induction false} WrapsCount(u: seq<UTxO>, ts: seq<Tx>, j: nat)
    requires Total(u) < SIZE_T_RANGE && Spendable(u, ts) && forall i :: 0 <= i < |ts| ==> DistinctInputs(ts[i].inputs)
    ensures 0 <= BlockWraps(u, ts)
    ensures j < |ts| && ts[j].kind.Standard? ==> OutSum(ts[j].outputs) / SIZE_T_RANGE <= BlockWraps(u, ts)
  {
    hide OutSum, InSum, StaleSum, Total, Matches, KeySet, Remaining;
    if ts != [] {
      var n := |ts| - 1;
      assert forall i :: 0 <= i < n ==> ts[..n][i] == ts[i];
      WrapsCount(u, ts[..n], j);
      NothingStale(u, ts[n].snapshot, ts[n].inputs);
      SpentTotal(u, ts[n].inputs);
      NoQuotient(InSum(u, ts[n].inputs));
    }
  }

  lemma ConservedNoWraps(cfg: Config, bs: seq<Block>)
    requires SoundChain(cfg, bs) && bs != [] && Conserved(cfg, bs) && Conserved(cfg, bs[..|bs| - 1])
    ensures BlockWraps(Replay(bs[..|bs| - 1]), TxsOf(bs[|bs| - 1].data)) == 0
  {
    hide Replay, Total, BlockWraps, BlockAgain, SoundChain, Payable;
    LastPayable(cfg, bs);
    BlockTotal(cfg, bs);
    var before, ts := bs[..|bs| - 1], TxsOf(bs[|bs| - 1].data);
    NothingLeft(cfg.rewardAmount, Rewarded(before), ts != [], BlockWraps(Replay(before), ts));
  }

  lemma NothingLeft(a: nat, n: nat, more: bool, w: int)
    requires a * (n + if more then 1 else 0) == a * n + (if more then a else 0) + SIZE_T_RANGE * w
    ensures w == 0
  {
    OneMore(a, n);
  }

  lemma ListedSmall(cfg: Config, ts: seq<Tx>, u: seq<UTxO>, index: nat, j: nat)
    requires ListedParts(cfg, ts, u, index) && j < |ts| && Total(u) < SIZE_T_RANGE && BlockWraps(u, ts) == 0
    requires forall i :: 0 <= i < |ts| ==> DistinctInputs(ts[i].inputs)
    ensures OutSum(ts[j].outputs) < SIZE_T_RANGE
  {
    ListedSpendable(cfg, ts, u, index);
    WrapsCount(u, ts, j);
    if j == 0 { assert ts[0].outputs[..0] == []; }
  }

  lemma ConservedBlockSmall(cfg: Config, bs: seq<Block>, j: nat)
    requires SoundChain(cfg, bs) && bs != [] && j < |TxsOf(bs[|bs| - 1].data)|
    requires Conserved(cfg, bs) && Conserved(cfg, bs[..|bs| - 1])
    requires cfg.rewardAmount * Rewarded(bs) < SIZE_T_RANGE
    ensures OutSum(TxsOf(bs[|bs| - 1].data)[j].outputs) < SIZE_T_RANGE
  {
    var n := |bs| - 1;
    var before, ts := bs[..n], TxsOf(bs[n].data);
    var u := Replay(before);
    ConservedNoWraps(cfg, bs);
    assert Total(u) < SIZE_T_RANGE by { RewardedMonotone(cfg, bs); }
    assert Applicable(u, ts) by { LastApplicable(cfg, bs); }
    LastListed(cfg, bs[n].data, u, n);
    ListedSmall(cfg, ts, u, n, j);
  }

  lemma SmallPrefixConserved(cfg: Config, bs: seq<Block>, n: nat)
    requires SoundChain(cfg, bs) && cfg.rewardAmount * Rewarded(bs) < SIZE_T_RANGE && SmallOutputs(bs) && n <= |bs|
    ensures Conserved(cfg, bs[..n])
  {
    var p := bs[..n];
    assert SoundChain(cfg, p) by { SoundPrefix(cfg, bs, n); }
    assert SmallOutputs(p) by { assert forall i :: 0 <= i < n ==> p[i] == bs[i]; }
    RewardedPrefix(cfg, bs, n);
    SupplyConserved(cfg, p);
  }

  lemma ConservedSmallAt(cfg: Config, bs: seq<Block>, i: nat, j: nat)
    requires SoundChain(cfg, bs) && cfg.rewardAmount * Rewarded(bs) < SIZE_T_RANGE
    requires i < |bs| && j < |TxsOf(bs[i].data)| && Conserved(cfg, bs[..i]) && Conserved(cfg, bs[..i + 1])
    ensures OutSum(TxsOf(bs[i].data)[j].outputs) < SIZE_T_RANGE
  {
    var upto := bs[..i + 1];
    assert upto[..|upto| - 1] == bs[..i] && upto[|upto| - 1] == bs[i];
    assert SoundChain(cfg, upto) by { SoundPrefix(cfg, bs, i + 1); }
    RewardedPrefix(cfg, bs, i + 1);
    ConservedBlockSmall(cfg, upto, j);
  }

  /** Conservation exactly: as long as the rewards themselves fit into a size_t, every prefix of a
      sound chain has exactly its rewards as supply if and only if no output sum reaches 2^64. */
  lemma SupplyExactlyWhen(cfg: Config, bs: seq<Block>)
    requires SoundChain(cfg, bs) && cfg.rewardAmount * Rewarded(bs) < SIZE_T_RANGE
    ensures (forall n :: 0 <= n <= |bs| ==> Conserved(cfg, bs[..n])) <==> SmallOutputs(bs)
  {
    if SmallOutputs(bs) {
      forall n | 0 <= n <= |bs|
        ensures Conserved(cfg, bs[..n])
      {
        SmallPrefixConserved(cfg, bs, n);
      }
    } else {
      var i, j :| 0 <= i < |bs| && 0 <= j < |TxsOf(bs[i].data)|
                  && OutSum(TxsOf(bs[i].data)[j].outputs) >= SIZE_T_RANGE;
      if Conserved(cfg, bs[..i]) && Conserved(cfg, bs[..i + 1]) {
        ConservedSmallAt(cfg, bs, i, j);
      }
    }
  }

  /** Without the bound on output sums conservation fails: spending 50 coins on outputs of
      2^64 - 1 and 51 coins passes validation, because the sums are compared in size_t. */
  lemma WrapAroundAccepted(cfg: Config, key: Key, owner: string, signature: Digest, t: Tx)
    requires owner != "" && cfg.verify(owner, t.hash, signature)
    requires t.kind.Standard? && t.hash == TxHash(cfg, t)
    requires t.snapshot == [UTxO(key, TxO(50, owner))]
    requires t.inputs == [TxI(key, signature)]
    requires t.outputs == [TxO(SIZE_T_RANGE - 1, owner), TxO(51, owner)]
    ensures TxOk(cfg, t)
    ensures OutSum(t.outputs) == InSum(t.snapshot, t.inputs) + SIZE_T_RANGE
  {
    var u := t.snapshot;
    assert u[1..] == [];
    assert Matches(u, key) == u;
    assert Total(u) == 50;
    assert t.inputs[..0] == [];
    assert InSum(u, t.inputs) == 50;
    assert t.outputs[..1] == [t.outputs[0]] && t.outputs[..1][..0] == [];
    assert OutSum(t.outputs) == OutSum(t.outputs[..1]) + 51;
    assert OutSum(t.outputs[..1]) == SIZE_T_RANGE - 1;
    assert InputOk(cfg, t, u, 0);
  }
}
