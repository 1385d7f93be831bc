/** What clean messages and a guarded miner keep: soundness of the chain, supply, unique keys and the
    pool, over every run and with exact conditions (src/node.cc). */
module Soundness {
  import opened Options
  import opened Records
  import opened Difficulty
  import opened Validity
  import opened Unspent
  import opened Ledger
  import opened Pools
  import opened Blocks
  import opened Nodes
  import opened Runs

  // ---------- the conditions ----------

  predicate CleanJson(j: BlockJson) {
    var b := BlockFromJson(j);
    b.Some? ==> CleanList(TxsOf(b.value.data))
  }

  /** What validation does not check about messages: received standard transactions have
      inputs, all different, and outputs, and the transactions of a received block share none. */
  predicate CleanStep(step: Step) {
    match step
    case MineBlock(_, _, _) => true
    case MineText(_, _, _) => true
    case TakeTransaction(j) => var t := TxFromJson(j); t.Some? ==> CleanTx(t.value)
    case TakeBlock(j, _, _) => CleanJson(j)
    case TakeChain(js, _) => forall i :: 0 <= i < |js| ==> CleanJson(js[i])
  }

  /** The step puts what it received into the chain or the pool. */
  predicate Admits(cfg: Config, s: NodeState, step: Step)
    requires ValidConfig(cfg)
  {
    match step
    case MineBlock(_, _, _) => false
    case MineText(_, _, _) => false
    case TakeTransaction(_) => Next(cfg, s, step).pool != s.pool
    case TakeBlock(_, _, _) => Next(cfg, s, step).chain.blocks != s.chain.blocks
    case TakeChain(_, _) => Replaces(cfg, s, step)
  }

  /** Every pooled input is unspent. */
  predicate PoolUnspent(s: NodeState) {
    forall t :: t in s.pool ==> AllUnspent(s.utxo, t)
  }

  /** The step mines a pool in which some input is spent: the test that mining lacks. */
  predicate MinesSpent(cfg: Config, s: NodeState, step: Step)
    requires ValidConfig(cfg)
  {
    step.MineBlock? && Handled(cfg, s, step).Done? && !PoolUnspent(s)
  }

  /** Applying these transactions leaves no two neighbouring pooled transactions with a spent
      input, of which pruning would skip the second. */
  predicate PrunesAll(s: NodeState, ts: seq<Tx>) {
    NoNeighbours(RemovedAll(s.pool, ts), Stale(UpdatedAll(s.utxo, ts)))
  }

  /** The step appends a received block while the cache belongs to the chain. */
  predicate AppendsSynced(cfg: Config, s: NodeState, step: Step)
    requires ValidConfig(cfg)
  {
    step.TakeBlock? && s.synced && Next(cfg, s, step).chain.blocks != s.chain.blocks
  }

  /** The condition on appended blocks under which pruning is the filter it is meant to be. */
  predicate PrunesStep(cfg: Config, s: NodeState, step: Step)
    requires ValidConfig(cfg)
  {
    AppendsSynced(cfg, s, step) ==>
      var b := BlockFromJson(step.block);
      b.Some? ==> PrunesAll(s, TxsOf(RelinkBlock(b.value, s.utxo).data))
  }

  /** Every message that is admitted is clean. */
  predicate CleanRun(cfg: Config, states: seq<NodeState>, steps: seq<Step>)
    requires ValidConfig(cfg)
  {
    Run(cfg, states, steps) &&
    forall i :: 0 <= i < |steps| ==> CleanAt(cfg, states[i], steps[i])
  }

  predicate CleanAt(cfg: Config, s: NodeState, step: Step)
    requires ValidConfig(cfg)
  {
    Admits(cfg, s, step) ==> CleanStep(step)
  }

  // ---------- what clean runs keep ----------

  /** What clean messages keep: pool and chain stay clean. */
  ghost predicate CleanInv(cfg: Config, s: NodeState) {
    BaseInv(cfg, s) && PoolInv(cfg, s.pool) && CleanChain(s.chain.blocks)
  }

  /** The cache belongs to the chain, and no two transactions of the chain collide. */
  ghost predicate Clear(s: NodeState) {
    s.synced && CollisionFree(ChainTxs(s.chain.blocks))
  }

  /** What a transaction spends was created by the chain as its snapshot holds it, and is spent, which
      no later block can undo, or is still that. */
  ghost predicate Traced(bs: seq<Block>, t: Tx) {
    forall k :: k in KeySet(t.inputs) ==> TracedKey(bs, t.snapshot, k)
  }

  ghost predicate TracedKey(bs: seq<Block>, snapshot: seq<UTxO>, k: Key) {
    && Originates(bs, k.hash) && Made(ChainTxs(bs), k, Matches(snapshot, k))
    && (Matches(Replay(bs), k) == [] || Matches(Replay(bs), k) == Matches(snapshot, k))
  }

  ghost predicate AllTraced(bs: seq<Block>, ts: seq<Tx>) {
    forall t :: t in ts ==> Traced(bs, t)
  }

  /** Every transaction of the chain was traced when its block was added. */
  ghost predicate ChainTraced(bs: seq<Block>) {
    bs == [] || (ChainTraced(bs[..|bs| - 1]) && AllTraced(bs[..|bs| - 1], TxsOf(bs[|bs| - 1].data)))
  }

  ghost predicate HasTraces(s: NodeState) {
    ChainTraced(s.chain.blocks) && AllTraced(s.chain.blocks, s.pool)
  }

  ghost predicate LedgerRunInv(cfg: Config, s: NodeState) {
    CleanInv(cfg, s) && (Clear(s) ==> HasTraces(s))
  }

  // ---------- clear chains are orderly ----------

  lemma ValidPlaced(cfg: Config, bs: seq<Block>, now: int)
    requires ValidOrEmpty(cfg, bs, now)
    ensures Placed(bs)
  {
    forall n | 0 <= n < |bs|
      ensures PlacedList(TxsOf(bs[n].data), n)
    {
      assert BlockOk(cfg, bs[n], now);
      IndexIsPosition(cfg, bs, now, n);
      ValidListPlaced(cfg, bs[n].data, n);
    }
  }

  lemma ValidListPlaced(cfg: Config, d: Data, index: nat)
    requires DataOk(cfg, d, index)
    ensures PlacedList(TxsOf(d), index)
  {
    var ts := TxsOf(d);
    forall i | 0 <= i < |ts|
      ensures ts[i].index == index && ts[i].kind == (if i == 0 then Reward else Standard)
      ensures i == 0 ==> ts[i].inputs == []
    {
      assert ListedOk(cfg, ts, index, i);
    }
  }

  /** The chain of a clear state is orderly, so its replay has unique keys of known origin. */
  lemma ClearIsOrderly(cfg: Config, s: NodeState)
    requires CleanInv(cfg, s) && Clear(s)
    ensures OrderlyChain(s.chain.blocks) && LedgerInv(s.chain.blocks) && s.utxo == Replay(s.chain.blocks)
  {
    hide ValidOrEmpty, PoolInv, PoolValid, Placed, CleanChain, CollisionFree, ChainTxs, LedgerInv, Replay;
    ValidPlaced(cfg, s.chain.blocks, s.clock);
    LedgerInvHolds(s.chain.blocks);
  }

  // ---------- tracing ----------

  lemma TracedUnspent(bs: seq<Block>, t: Tx)
    requires Traced(bs, t)
    ensures TxLinked(Replay(bs), t) <==> AllUnspent(Replay(bs), t)
  {
    if AllUnspent(Replay(bs), t) {
      forall k | k in KeySet(t.inputs)
        ensures Matches(Replay(bs), k) != [] && Matches(Replay(bs), k) == Matches(t.snapshot, k)
      {
        KeyUnspent(Replay(bs), t, k);
        assert TracedKey(bs, t.snapshot, k);
      }
    } else {
      StaleNotLinked(Replay(bs), t);
    }
  }

  lemma UnspentLinked(bs: seq<Block>, pool: seq<Tx>)
    requires AllTraced(bs, pool)
    ensures PoolLinked(Replay(bs), pool) <==> forall t :: t in pool ==> AllUnspent(Replay(bs), t)
  {
    hide Traced, TxLinked, AllUnspent;
    forall t | t in pool
      ensures TxLinked(Replay(bs), t) <==> AllUnspent(Replay(bs), t)
    {
      TracedUnspent(bs, t);
    }
  }

  lemma LinkedIsTraced(bs: seq<Block>, t: Tx)
    requires LedgerInv(bs) && TxLinked(Replay(bs), t)
    ensures Traced(bs, t)
  {
    forall k | k in KeySet(t.inputs)
      ensures TracedKey(bs, t.snapshot, k)
    {
      assert Matches(Replay(bs), k) != [];
    }
  }

  /** Whatever a further block of an orderly chain does, a traced transaction stays traced. */
  lemma TracedSnoc(bs: seq<Block>, b: Block, t: Tx)
    requires OrderlyChain(bs + [b]) && Traced(bs, t)
    ensures Traced(bs + [b], t)
  {
    hide OrderlyChain, Replay, Matches, Originates;
    var r := bs + [b];
    assert r[..|r| - 1] == bs;
    forall k | k in KeySet(t.inputs)
      ensures TracedKey(r, t.snapshot, k)
    {
      assert TracedKey(bs, t.snapshot, k);
      CreatedStep(r, k);
      ChainTxsPrefix(r, |bs|);
      MadeWithin(ChainTxs(bs), ChainTxs(r), k, Matches(t.snapshot, k));
    }
  }

  lemma AllTracedSnoc(bs: seq<Block>, b: Block, pool: seq<Tx>, rest: seq<Tx>)
    requires OrderlyChain(bs + [b]) && AllTraced(bs, pool) && forall t :: t in rest ==> t in pool
    ensures AllTraced(bs + [b], rest)
  {
    hide OrderlyChain, Traced;
    forall t | t in rest
      ensures Traced(bs + [b], t)
    {
      TracedSnoc(bs, b, t);
    }
  }

  lemma ChainTracedSnoc(bs: seq<Block>, b: Block)
    requires ChainTraced(bs) && AllTraced(bs, TxsOf(b.data))
    ensures ChainTraced(bs + [b])
  {
    assert (bs + [b])[..|bs + [b]| - 1] == bs;
  }

  lemma SpentKey(u: seq<UTxO>, t: Tx) returns (k: Key)
    requires !AllUnspent(u, t)
    ensures k in KeySet(t.inputs) && Matches(u, k) == []
  {
    var i :| 0 <= i < |t.inputs| && Matches(u, t.inputs[i].key) == [];
    k := t.inputs[i].key;
  }

  /** The blocks of a traced orderly chain can be applied, and pay what they claim. */
  lemma TracedApplicable(bs: seq<Block>)
    requires OrderlyChain(bs) && bs != [] && ChainTraced(bs)
    ensures Applicable(Replay(bs[..|bs| - 1]), TxsOf(bs[|bs| - 1].data)) && LedgerInv(bs[..|bs| - 1])
  {
    hide OrderlyChain, Applicable, LedgerInv, Replay, KeySet, Originates;
    var before, ts := bs[..|bs| - 1], TxsOf(bs[|bs| - 1].data);
    forall i, k | 0 <= i < |ts| && k in KeySet(ts[i].inputs)
      ensures Originates(before, k.hash)
    {
      assert Traced(before, ts[i]);
      assert TracedKey(before, ts[i].snapshot, k);
    }
    RootedApplicable(bs);
  }

  lemma {:induction false} ChainTracedPrefix(bs: seq<Block>, n: nat)
    requires ChainTraced(bs) && n <= |bs|
    ensures ChainTraced(bs[..n])
  {
    if n == |bs| {
      assert bs[..n] == bs;
    } else {
      ChainTracedPrefix(bs[..|bs| - 1], n);
      assert bs[..|bs| - 1][..n] == bs[..n];
    }
  }

  /** What a traced transaction claimed is what its snapshot held. */
  lemma {:induction false} TracedClaim(bs: seq<Block>, snapshot: seq<UTxO>, inputs: seq<TxI>)
    requires forall k :: k in KeySet(inputs) ==> TracedKey(bs, snapshot, k)
    ensures InSum(Replay(bs), inputs) + StaleSum(Replay(bs), snapshot, inputs) == InSum(snapshot, inputs)
  {
    hide Replay, Matches, Originates, KeySet;
    if inputs != [] {
      var k := inputs[|inputs| - 1].key;
      KeySetSnoc(inputs);
      TracedClaim(bs, snapshot, inputs[..|inputs| - 1]);
      assert TracedKey(bs, snapshot, k);
      NoTotal();
    }
  }

  lemma NoTotal()
    ensures Total([]) == 0
  {
  }

  lemma TracedPays(cfg: Config, bs: seq<Block>, ts: seq<Tx>, index: nat, i: nat)
    requires i < |ts| && ListedOk(cfg, ts, index, i) && Traced(bs, ts[i])
    ensures Pays(cfg, Replay(bs), ts[i], i)
  {
    hide Replay, Matches, KeySet;
    TracedClaim(bs, ts[i].snapshot, ts[i].inputs);
    if i == 0 {
      assert ts[i].outputs[..0] == [];
      assert OutSum(ts[i].outputs) == OutSum(ts[i].outputs[..0]) + ts[i].outputs[0].amount;
    }
  }

  lemma {:induction false} TracedPayable(cfg: Config, bs: seq<Block>, now: int)
    requires ValidOrEmpty(cfg, bs, now) && OrderlyChain(bs) && ChainTraced(bs)
    ensures PayableChain(cfg, bs)
  {
    hide Payable, OrderlyChain, ChainOk;
    if bs != [] {
      var n := |bs| - 1;
      OrderlyBefore(bs);
      ValidBefore(cfg, bs, now);
      TracedPayable(cfg, bs[..n], now);
      LastPays(cfg, bs, now);
    }
  }

  lemma ValidBefore(cfg: Config, bs: seq<Block>, now: int)
    requires ValidOrEmpty(cfg, bs, now) && bs != []
    ensures ValidOrEmpty(cfg, bs[..|bs| - 1], now)
  {
    if |bs| > 1 { ChainOkPrefix(cfg, bs, |bs| - 1, now); }
  }

  lemma LastPays(cfg: Config, bs: seq<Block>, now: int)
    requires bs != [] && ChainOk(cfg, bs, now) && OrderlyChain(bs) && ChainTraced(bs)
    ensures Payable(cfg, Replay(bs[..|bs| - 1]), TxsOf(bs[|bs| - 1].data))
  {
    hide OrderlyChain, Applicable, Replay, Traced, Pays;
    var n := |bs| - 1;
    var ts := TxsOf(bs[n].data);
    TracedApplicable(bs);
    assert BlockOk(cfg, bs[n], now);
    forall i | 0 <= i < |ts|
      ensures Pays(cfg, Replay(bs[..n]), ts[i], i)
    {
      assert ListedOk(cfg, ts, bs[n].index, i) && Traced(bs[..n], ts[i]);
      TracedPays(cfg, bs[..n], ts, bs[n].index, i);
    }
  }

  /** Stale-snapshot soundness: a transaction validated against an older snapshot is valid
      against the current unspent outputs if these still agree on the keys it spends. */
  lemma StaleSnapshotSound(cfg: Config, u: seq<UTxO>, t: Tx)
    requires TxOk(cfg, t) && TxLinked(u, t)
    ensures TxOk(cfg, t.(snapshot := u))
  {
    var s := t.(snapshot := u);
    if t.kind.Standard? {
      forall i | 0 <= i < |t.inputs|
        ensures Matches(u, t.inputs[i].key) == Matches(t.snapshot, t.inputs[i].key)
      {
        assert t.inputs[i].key in KeySet(t.inputs);
      }
      StandardOkSameMatches(cfg, t, u, t.snapshot);
      assert forall i :: 0 <= i < |t.inputs| ==> (InputOk(cfg, t, u, i) <==> InputOk(cfg, s, u, i));
    }
  }

  lemma LinkedSnoc(cfg: Config, bs: seq<Block>, b: Block)
    requires Linked(cfg, bs) && DataOk(cfg, RelinkData(b.data, Replay(bs)), |bs|)
    ensures Linked(cfg, bs + [b])
  {
    assert (bs + [b])[..|bs + [b]| - 1] == bs;
  }

  lemma CleanSnoc(bs: seq<Block>, b: Block)
    requires CleanChain(bs) && CleanList(TxsOf(b.data))
    ensures CleanChain(bs + [b])
  {
  }

  lemma RewardTxClean(cfg: Config, address: string, index: nat)
    ensures CleanTx(RewardTx(cfg, address, index)) && KeySet(RewardTx(cfg, address, index).inputs) == {}
  {
  }

  lemma AssembledIs(cfg: Config, s: NodeState, address: string)
    requires |s.pool| <= cfg.numPerBlock
    ensures Assembled(cfg, s, address) == [RewardTx(cfg, address, |s.chain.blocks|)] + s.pool
    ensures s.pool[Min(cfg.numPerBlock, |s.pool|)..] == []
  {
  }

  lemma RewardAndPoolClean(r: Tx, pool: seq<Tx>)
    requires CleanTx(r) && KeySet(r.inputs) == {} && Disjoint(pool) && forall t :: t in pool ==> CleanTx(t)
    ensures CleanList([r] + pool)
  {
    var ts := [r] + pool;
    forall i, j | 0 <= i < j < |ts|
      ensures KeySet(ts[i].inputs) !! KeySet(ts[j].inputs)
    {
      if i > 0 { DisjointPairs(pool, i - 1, j - 1); }
    }
  }

  /** A list assembled from the pool is clean: `add` keeps pooled inputs disjoint. */
  lemma AssembledClean(cfg: Config, s: NodeState, address: string)
    requires PoolInv(cfg, s.pool)
    ensures CleanList(Assembled(cfg, s, address))
    ensures s.pool[Min(cfg.numPerBlock, |s.pool|)..] == []
  {
    AssembledIs(cfg, s, address);
    RewardTxClean(cfg, address, |s.chain.blocks|);
    RewardAndPoolClean(RewardTx(cfg, address, |s.chain.blocks|), s.pool);
  }

  /** An assembled list that passes validation with the old snapshots passes it with the cache. */
  lemma AssembledCurrent(cfg: Config, s: NodeState, address: string, index: nat)
    requires PoolInv(cfg, s.pool) && PoolLinked(s.utxo, s.pool)
    requires ListOk(cfg, Assembled(cfg, s, address), index)
    ensures ListOk(cfg, Relink(Assembled(cfg, s, address), s.utxo), index)
  {
    var ts := Assembled(cfg, s, address);
    AssembledIs(cfg, s, address);
    forall i | 0 <= i < |ts|
      ensures ListedOk(cfg, Relink(ts, s.utxo), index, i)
    {
      assert ListedOk(cfg, ts, index, i);
      if i > 0 {
        assert ts[i] == s.pool[i - 1];
        StaleSnapshotSound(cfg, s.utxo, ts[i]);
      }
    }
  }

  lemma MineKeepsClean(cfg: Config, s: NodeState, address: string, now: nat, readings: seq<nat>)
    requires ValidConfig(cfg) && CleanInv(cfg, s) && Timed(s, MineBlock(address, now, readings))
    ensures CleanInv(cfg, Mined(cfg, s, address, now, readings).state)
    ensures Mined(cfg, s, address, now, readings).state.pool == []
  {
    var ts := Assembled(cfg, s, address);
    var r := Constructed(cfg, s.chain, Transactions(ts), now, readings);
    MineKeepsBase(cfg, s, address, now, readings);
    AssembledClean(cfg, s, address);
    ConstructedExtends(cfg, s.chain, Transactions(ts), s.clock, now, readings);
    if r.Done? { CleanSnoc(s.chain.blocks, Last(r.state.blocks)); }
  }

  /** Mining keeps the traces, whatever the pool is worth. */
  lemma MineKeepsTraces(cfg: Config, s: NodeState, address: string, now: nat, readings: seq<nat>)
    requires ValidConfig(cfg) && CleanInv(cfg, s) && HasTraces(s) && Timed(s, MineBlock(address, now, readings))
    ensures HasTraces(Mined(cfg, s, address, now, readings).state)
  {
    hide Traced, PoolInv, CleanChain, ValidOrEmpty, TxOk, DataOk, Constructed, UpdatedAll;
    var ts, bs := Assembled(cfg, s, address), s.chain.blocks;
    var r := Constructed(cfg, s.chain, Transactions(ts), now, readings);
    MinedPool(cfg, s, address, now, readings);
    AssembledIs(cfg, s, address);
    ConstructedExtends(cfg, s.chain, Transactions(ts), s.clock, now, readings);
    if r.Done? {
      RewardTraced(cfg, bs, address, |bs|);
      ChainTracedSnoc(bs, Last(r.state.blocks));
    }
  }

  lemma RewardTraced(cfg: Config, bs: seq<Block>, address: string, index: nat)
    ensures Traced(bs, RewardTx(cfg, address, index))
  {
    RewardTxClean(cfg, address, index);
  }

  /** Mining keeps the chain linked if every pooled input is unspent. */
  lemma MineKeepsLinked(cfg: Config, s: NodeState, address: string, now: nat, readings: seq<nat>)
    requires ValidConfig(cfg) && CleanInv(cfg, s) && s.synced && HasTraces(s) && Linked(cfg, s.chain.blocks)
    requires Timed(s, MineBlock(address, now, readings)) && !MinesSpent(cfg, s, MineBlock(address, now, readings))
    ensures Linked(cfg, Mined(cfg, s, address, now, readings).state.chain.blocks)
  {
    var ts, bs := Assembled(cfg, s, address), s.chain.blocks;
    var r := Constructed(cfg, s.chain, Transactions(ts), now, readings);
    ConstructedExtends(cfg, s.chain, Transactions(ts), s.clock, now, readings);
    if r.Done? {
      UnspentLinked(bs, s.pool);
      AssembledCurrent(cfg, s, address, |bs|);
      LinkedSnoc(cfg, bs, Last(r.state.blocks));
    }
  }

  lemma MineTextKeepsClean(cfg: Config, s: NodeState, text: string, now: nat, readings: seq<nat>)
    requires ValidConfig(cfg) && CleanInv(cfg, s) && Timed(s, MineText(text, now, readings))
    ensures CleanInv(cfg, MinedText(cfg, s, text, now, readings).state)
  {
    var r := Constructed(cfg, s.chain, Text(text), now, readings);
    MineTextKeepsBase(cfg, s, text, now, readings);
    ConstructedExtends(cfg, s.chain, Text(text), s.clock, now, readings);
    if r.Done? { CleanSnoc(s.chain.blocks, Last(r.state.blocks)); }
  }

  lemma MineTextKeepsTraces(cfg: Config, s: NodeState, text: string, now: nat, readings: seq<nat>)
    requires ValidConfig(cfg) && CleanInv(cfg, s) && HasTraces(s) && Timed(s, MineText(text, now, readings))
    requires Clear(MinedText(cfg, s, text, now, readings).state)
    ensures HasTraces(MinedText(cfg, s, text, now, readings).state)
  {
    hide Traced, PoolInv, CleanChain, ValidOrEmpty, TxOk, Constructed, OrderlyChain, CollisionFree, ChainTxs;
    var bs := s.chain.blocks;
    var r := Constructed(cfg, s.chain, Text(text), now, readings);
    MineTextKeepsClean(cfg, s, text, now, readings);
    ClearIsOrderly(cfg, MinedText(cfg, s, text, now, readings).state);
    ConstructedExtends(cfg, s.chain, Text(text), s.clock, now, readings);
    if r.Done? {
      var b := Last(r.state.blocks);
      ChainTracedSnoc(bs, b);
      AllTracedSnoc(bs, b, s.pool, s.pool);
    }
  }

  lemma MineTextKeepsLinked(cfg: Config, s: NodeState, text: string, now: nat, readings: seq<nat>)
    requires ValidConfig(cfg) && BaseInv(cfg, s) && Timed(s, MineText(text, now, readings))
    requires Linked(cfg, s.chain.blocks)
    ensures Linked(cfg, MinedText(cfg, s, text, now, readings).state.chain.blocks)
  {
    var r := Constructed(cfg, s.chain, Text(text), now, readings);
    ConstructedExtends(cfg, s.chain, Text(text), s.clock, now, readings);
    if r.Done? { LinkedSnoc(cfg, s.chain.blocks, Last(r.state.blocks)); }
  }

  lemma TransactionKeepsClean(cfg: Config, s: NodeState, j: TxJson)
    requires ValidConfig(cfg) && CleanInv(cfg, s)
    requires TransactionTaken(cfg, s, j).state.pool != s.pool ==> CleanStep(TakeTransaction(j))
    ensures CleanInv(cfg, TransactionTaken(cfg, s, j).state)
  {
    var t := TxFromJson(j);
    if t.Some? && CleanTx(t.value) { AddedKeeps(cfg, s.pool, t.value.(snapshot := s.utxo)); }
  }

  lemma TransactionKeepsTraces(cfg: Config, s: NodeState, j: TxJson)
    requires s.utxo == Replay(s.chain.blocks) && LedgerInv(s.chain.blocks) && HasTraces(s)
    ensures HasTraces(TransactionTaken(cfg, s, j).state)
  {
    hide ChainTraced, LedgerInv, Replay, KeySet, SharesInput, TxFromJson, Traced;
    if TransactionTaken(cfg, s, j).Done? {
      var t := TxFromJson(j).value.(snapshot := s.utxo);
      AddedIsLinked(cfg, s.utxo, t);
      LinkedIsTraced(s.chain.blocks, t);
    }
  }

  lemma LinkedUnspent(u: seq<UTxO>, t: Tx)
    requires TxLinked(u, t)
    ensures AllUnspent(u, t)
  {
    if !AllUnspent(u, t) { StaleNotLinked(u, t); }
  }

  lemma RelinkClean(ts: seq<Tx>, u: seq<UTxO>)
    ensures CleanList(Relink(ts, u)) <==> CleanList(ts)
  {
    var us := Relink(ts, u);
    assert forall i :: 0 <= i < |ts| ==> us[i].inputs == ts[i].inputs && (CleanTx(us[i]) <==> CleanTx(ts[i]));
  }

  lemma RelinkTwice(d: Data, u: seq<UTxO>, v: seq<UTxO>)
    ensures RelinkData(RelinkData(d, u), v) == RelinkData(d, v)
  {
    if d.Transactions? { assert Relink(Relink(d.list, u), v) == Relink(d.list, v); }
  }

  lemma JudgedKeepsPool(cfg: Config, s: NodeState, b: Block, originKnown: bool)
    requires ValidConfig(cfg) && PoolInv(cfg, s.pool)
    ensures PoolInv(cfg, Judged(cfg, s, b, originKnown, s.clock).state.pool)
  {
    hide RemovedAll, Pruned, UpdatedAll, TxOk, Extends, BlockOk, LinksTo, Adjusted, Disjoint;
    var ts := TxsOf(b.data);
    RemovedShrinks(s.pool, ts);
    PrunedKeeps(cfg, RemovedAll(s.pool, ts), UpdatedAll(s.utxo, ts));
  }

  lemma BlockKeepsClean(cfg: Config, s: NodeState, j: BlockJson, originKnown: bool, now: nat)
    requires ValidConfig(cfg) && CleanInv(cfg, s) && s.clock <= now
    requires BlockTaken(cfg, s, j, originKnown, now).state.chain.blocks != s.chain.blocks ==> CleanJson(j)
    ensures CleanInv(cfg, BlockTaken(cfg, s, j, originKnown, now).state)
  {
    hide BaseInv, PoolInv, Judged, BlockFromJson, CleanList, UpdatedAll, RemovedAll, Pruned, DataOk;
    BlockKeepsBase(cfg, s, j, originKnown, now);
    if BlockFromJson(j).Some? {
      JudgedKeepsPool(cfg, s.(clock := now), RelinkBlock(BlockFromJson(j).value, s.utxo), originKnown);
    }
    if BlockTaken(cfg, s, j, originKnown, now).state.chain.blocks != s.chain.blocks {
      BlockAppended(cfg, s, j, originKnown, now);
      RelinkClean(TxsOf(BlockFromJson(j).value.data), s.utxo);
      CleanSnoc(s.chain.blocks, RelinkBlock(BlockFromJson(j).value, s.utxo));
    }
  }

  /** What it means that a parsed and linked block has been appended. */
  lemma BlockAppended(cfg: Config, s: NodeState, j: BlockJson, originKnown: bool, now: nat)
    requires ValidConfig(cfg)
    requires BlockTaken(cfg, s, j, originKnown, now).state.chain.blocks != s.chain.blocks
    ensures BlockFromJson(j).Some?
    ensures var b, r := RelinkBlock(BlockFromJson(j).value, s.utxo), BlockTaken(cfg, s, j, originKnown, now).state;
            && b == RelinkBlock(b, s.utxo) && b.index == |s.chain.blocks| && DataOk(cfg, b.data, b.index)
            && r.chain.blocks == s.chain.blocks + [b]
            && r.utxo == UpdatedAll(s.utxo, TxsOf(b.data))
            && r.pool == Pruned(RemovedAll(s.pool, TxsOf(b.data)), r.utxo)
            && r.synced == s.synced
  {
    hide BlockFromJson, Extends, UpdatedAll, Pruned, RemovedAll, LinksTo, Adjusted, ReceiverAccepts, DataOk;
    if BlockFromJson(j).Some? { RelinkTwice(BlockFromJson(j).value.data, s.utxo, s.utxo); }
  }

  /** A received block that is not appended leaves a node that stays synced as it was. */
  lemma BlockIgnored(cfg: Config, s: NodeState, j: BlockJson, originKnown: bool, now: nat)
    requires ValidConfig(cfg)
    requires var r := BlockTaken(cfg, s, j, originKnown, now).state; r.synced && r.chain.blocks == s.chain.blocks
    ensures var r := BlockTaken(cfg, s, j, originKnown, now).state;
            r.utxo == s.utxo && r.pool == s.pool && s.synced
  {
    hide BlockFromJson, BlockOk, Extends, UpdatedAll, Pruned, RemovedAll, LinksTo, Adjusted, ReceiverAccepts;
  }

  /** Appending a received block keeps the traces, whatever pruning leaves of the pool. */
  lemma AppendKeepsTraces(cfg: Config, s: NodeState, j: BlockJson, originKnown: bool, now: nat)
    requires ValidConfig(cfg) && CleanInv(cfg, s) && Clear(s) && HasTraces(s) && CleanJson(j) && s.clock <= now
    requires var r := BlockTaken(cfg, s, j, originKnown, now).state;
             r.chain.blocks != s.chain.blocks && Clear(r)
    ensures HasTraces(BlockTaken(cfg, s, j, originKnown, now).state)
  {
    hide BlockFromJson, BlockTaken, ChainTraced, CollisionFree, ChainTxs, Pruned, RemovedAll, UpdatedAll, DataOk,
         CleanInv, OrderlyChain, LedgerInv, Traced, Replay;
    BlockAppended(cfg, s, j, originKnown, now);
    BlockKeepsClean(cfg, s, j, originKnown, now);
    var b := RelinkBlock(BlockFromJson(j).value, s.utxo);
    var bs, ts := s.chain.blocks, TxsOf(b.data);
    ClearIsOrderly(cfg, s);
    ClearIsOrderly(cfg, BlockTaken(cfg, s, j, originKnown, now).state);
    ValidTraced(cfg, bs, b.data, b.index);
    ChainTracedSnoc(bs, b);
    RemovedShrinks(s.pool, ts);
    PrunedShrinks(RemovedAll(s.pool, ts), UpdatedAll(s.utxo, ts));
    AllTracedSnoc(bs, b, s.pool, Pruned(RemovedAll(s.pool, ts), UpdatedAll(s.utxo, ts)));
  }

  /** A list that is valid against the replay of a chain is traced by it. */
  lemma ValidTraced(cfg: Config, bs: seq<Block>, d: Data, index: nat)
    requires LedgerInv(bs) && DataOk(cfg, d, index) && d == RelinkData(d, Replay(bs))
    ensures AllTraced(bs, TxsOf(d))
  {
    hide LedgerInv, Replay, Traced, TxOk;
    var ts := TxsOf(d);
    forall t | t in ts
      ensures Traced(bs, t)
    {
      var i :| 0 <= i < |ts| && ts[i] == t;
      assert ListedOk(cfg, ts, index, i) && t == Relink(ts, Replay(bs))[i];
      AddedIsLinked(cfg, Replay(bs), t);
      LinkedIsTraced(bs, t);
    }
  }

  /** Appending a received block keeps a linked chain linked. */
  lemma AppendKeepsLinks(cfg: Config, s: NodeState, j: BlockJson, originKnown: bool, now: nat)
    requires ValidConfig(cfg) && s.utxo == Replay(s.chain.blocks) && Linked(cfg, s.chain.blocks)
    ensures Linked(cfg, BlockTaken(cfg, s, j, originKnown, now).state.chain.blocks)
  {
    hide BlockFromJson, BlockTaken, Linked, Pruned, RemovedAll, UpdatedAll, DataOk, Replay;
    if BlockTaken(cfg, s, j, originKnown, now).state.chain.blocks != s.chain.blocks {
      BlockAppended(cfg, s, j, originKnown, now);
      LinkedSnoc(cfg, s.chain.blocks, RelinkBlock(BlockFromJson(j).value, s.utxo));
    }
  }

  // ---------- replaced chains ----------

  lemma {:induction false} ParsedUnlinked(js: seq<TxJson>, i: nat)
    requires ListFromJson(js).Some?
    ensures |ListFromJson(js).value| == |js|
    ensures i < |js| ==> ListFromJson(js).value[i].snapshot == []
  {
    if js != [] { ParsedUnlinked(js[1..], if i > 0 then i - 1 else 0); }
  }

  lemma {:induction false} ParsedBlocks(cfg: Config, js: seq<BlockJson>, now: int, i: nat)
    requires ValidConfig(cfg) && ChainFromJson(cfg, js, now).Some?
    ensures |ChainFromJson(cfg, js, now).value.blocks| == |js|
    ensures i < |js| ==> BlockFromJson(js[i]) == Some(ChainFromJson(cfg, js, now).value.blocks[i])
  {
    if js != [] { ParsedBlocks(cfg, js[..|js| - 1], now, if i < |js| - 1 then i else 0); }
  }

  lemma UnlinkedFails(cfg: Config, ts: seq<Tx>, index: nat)
    requires |ts| > 1 && CleanTx(ts[1]) && ts[1].snapshot == []
    ensures !ListOk(cfg, ts, index)
  {
    if ts[1].kind.Standard? {
      assert !InputOk(cfg, ts[1], [], 0);
      assert !StandardOk(cfg, ts[1], []);
    }
    assert !ListedOk(cfg, ts, index, 1);
  }

  /** Without snapshots, a valid clean list holds at most the reward, so it is valid against any
      unspent outputs. */
  lemma UnlinkedIsReward(cfg: Config, ts: seq<Tx>, u: seq<UTxO>, index: nat)
    requires ListOk(cfg, ts, index) && CleanList(ts) && forall i :: 0 <= i < |ts| ==> ts[i].snapshot == []
    ensures |ts| <= 1 && ListOk(cfg, Relink(ts, u), index)
  {
    if |ts| > 1 {
      UnlinkedFails(cfg, ts, index);
    } else if |ts| == 1 {
      assert ListedOk(cfg, ts, index, 0);
      assert ListedOk(cfg, Relink(ts, u), index, 0);
    }
  }

  lemma ParsedBlockLinked(cfg: Config, j: BlockJson, u: seq<UTxO>, index: nat)
    requires BlockFromJson(j).Some? && CleanJson(j) && DataOk(cfg, BlockFromJson(j).value.data, index)
    ensures DataOk(cfg, RelinkData(BlockFromJson(j).value.data, u), index)
  {
    var b := BlockFromJson(j).value;
    if b.data.Transactions? {
      forall i | 0 <= i < |b.data.list|
        ensures b.data.list[i].snapshot == []
      {
        ParsedUnlinked(j.data.list, i);
      }
      UnlinkedIsReward(cfg, b.data.list, u, index);
    }
  }

  predicate ParsedFrom(js: seq<BlockJson>, bs: seq<Block>) {
    |bs| == |js| && forall i :: 0 <= i < |js| ==> BlockFromJson(js[i]) == Some(bs[i]) && CleanJson(js[i])
  }

  lemma ParsedClean(js: seq<BlockJson>, bs: seq<Block>)
    requires ParsedFrom(js, bs)
    ensures CleanChain(bs)
  {
    forall i | 0 <= i < |bs|
      ensures CleanList(TxsOf(bs[i].data))
    {
      assert BlockFromJson(js[i]) == Some(bs[i]) && CleanJson(js[i]);
    }
  }

  predicate NextLinked(cfg: Config, bs: seq<Block>, i: nat)
    requires i < |bs|
  {
    DataOk(cfg, RelinkData(bs[i].data, Replay(bs[..i])), i)
  }

  lemma {:induction false} LinkedByBlocks(cfg: Config, bs: seq<Block>, n: nat)
    requires n <= |bs| && forall i :: 0 <= i < n ==> NextLinked(cfg, bs, i)
    ensures Linked(cfg, bs[..n])
  {
    hide NextLinked;
    if n > 0 {
      LinkedByBlocks(cfg, bs, n - 1);
      LinkedNext(cfg, bs, n - 1);
    }
  }

  lemma LinkedNext(cfg: Config, bs: seq<Block>, n: nat)
    requires n < |bs| && Linked(cfg, bs[..n]) && NextLinked(cfg, bs, n)
    ensures Linked(cfg, bs[..n + 1])
  {
    hide Linked, Replay;
    LinkedSnoc(cfg, bs[..n], bs[n]);
    assert bs[..n + 1] == bs[..n] + [bs[n]];
  }

  lemma ParsedNextLinked(cfg: Config, js: seq<BlockJson>, bs: seq<Block>, now: int, i: nat)
    requires ParsedFrom(js, bs) && ChainOk(cfg, bs, now) && i < |bs|
    ensures NextLinked(cfg, bs, i)
  {
    assert BlockFromJson(js[i]) == Some(bs[i]) && CleanJson(js[i]);
    assert BlockOk(cfg, bs[i], now);
    IndexIsPosition(cfg, bs, now, i);
    ParsedBlockLinked(cfg, js[i], Replay(bs[..i]), i);
  }

  lemma ParsedFromHolds(cfg: Config, js: seq<BlockJson>, now: int)
    requires ValidConfig(cfg) && ChainFromJson(cfg, js, now).Some?
    requires forall i :: 0 <= i < |js| ==> CleanJson(js[i])
    ensures ParsedFrom(js, ChainFromJson(cfg, js, now).value.blocks)
  {
    ParsedBlocks(cfg, js, now, 0);
    forall i | 0 <= i < |js|
      ensures BlockFromJson(js[i]) == Some(ChainFromJson(cfg, js, now).value.blocks[i])
    {
      ParsedBlocks(cfg, js, now, i);
    }
  }

  /** A chain accepted for replacement is linked: it holds no transaction that spends. */
  lemma ParsedChainLinked(cfg: Config, js: seq<BlockJson>, now: int)
    requires ValidConfig(cfg) && ChainFromJson(cfg, js, now).Some?
    requires forall i :: 0 <= i < |js| ==> CleanJson(js[i])
    requires ChainOk(cfg, ChainFromJson(cfg, js, now).value.blocks, now)
    ensures Linked(cfg, ChainFromJson(cfg, js, now).value.blocks)
    ensures CleanChain(ChainFromJson(cfg, js, now).value.blocks)
  {
    var bs := ChainFromJson(cfg, js, now).value.blocks;
    ParsedFromHolds(cfg, js, now);
    ParsedClean(js, bs);
    forall i | 0 <= i < |bs|
      ensures NextLinked(cfg, bs, i)
    {
      ParsedNextLinked(cfg, js, bs, now, i);
    }
    LinkedByBlocks(cfg, bs, |bs|);
    assert bs[..|bs|] == bs;
  }

  lemma {:induction false} RewardsTraced(bs: seq<Block>)
    requires forall i :: 0 <= i < |bs| ==> RewardOnly(TxsOf(bs[i].data))
    ensures ChainTraced(bs)
  {
    if bs != [] {
      var n := |bs| - 1;
      assert forall i :: 0 <= i < n ==> bs[..n][i] == bs[i];
      RewardsTraced(bs[..n]);
      assert RewardOnly(TxsOf(bs[n].data));
    }
  }

  lemma ParsedTraced(cfg: Config, js: seq<BlockJson>, now: int)
    requires ValidConfig(cfg) && ChainFromJson(cfg, js, now).Some?
    requires forall i :: 0 <= i < |js| ==> CleanJson(js[i])
    requires ChainOk(cfg, ChainFromJson(cfg, js, now).value.blocks, now)
    ensures ChainTraced(ChainFromJson(cfg, js, now).value.blocks)
  {
    hide ChainTraced, CleanJson, RewardOnly, ChainOk, ChainFromJson;
    var bs := ChainFromJson(cfg, js, now).value.blocks;
    ParsedFromHolds(cfg, js, now);
    forall i | 0 <= i < |bs|
      ensures RewardOnly(TxsOf(bs[i].data))
    {
      ParsedRewardOnly(cfg, js, bs, now, i);
    }
    RewardsTraced(bs);
  }

  /** Replacement restores everything a clean run keeps, from any state at all, including the
      states left by blocks that were ahead and by mined spent inputs. */
  lemma ReplacementRestores(cfg: Config, s: NodeState, step: Step)
    requires ValidConfig(cfg) && Replaces(cfg, s, step) && CleanAt(cfg, s, step)
    ensures LedgerRunInv(cfg, Next(cfg, s, step)) && Next(cfg, s, step).synced
    ensures HasTraces(Next(cfg, s, step)) && Linked(cfg, Next(cfg, s, step).chain.blocks)
  {
    hide Next, Linked, ChainTraced, CleanJson, ChainOk, ChainFromJson, Better, Replay, CleanChain;
    ReplacedState(cfg, s, step);
    ParsedAdjuster(cfg, step.blocks, step.now);
    ParsedChainLinked(cfg, step.blocks, step.now);
    ParsedTraced(cfg, step.blocks, step.now);
  }

  /** Accepted clean chains pay rewards and nothing else. */
  lemma ParsedRewardOnly(cfg: Config, js: seq<BlockJson>, bs: seq<Block>, now: int, i: nat)
    requires ParsedFrom(js, bs) && ChainOk(cfg, bs, now) && i < |bs|
    ensures RewardOnly(TxsOf(bs[i].data))
  {
    assert BlockFromJson(js[i]) == Some(bs[i]) && CleanJson(js[i]) && BlockOk(cfg, bs[i], now);
    if bs[i].data.Transactions? {
      var ts := bs[i].data.list;
      forall n | 0 <= n < |ts|
        ensures ts[n].snapshot == []
      {
        ParsedUnlinked(js[i].data.list, n);
      }
      UnlinkedIsReward(cfg, ts, [], bs[i].index);
      if ts != [] { assert ListedOk(cfg, ts, bs[i].index, 0); }
    }
  }

  /** What replacement brings back: whatever was spent before, a key is unspent after a
      replacement exactly when the received chain carries the reward it names. */
  lemma ReplacementReturnsExactly(cfg: Config, s: NodeState, step: Step, k: Key)
    requires ValidConfig(cfg) && Replaces(cfg, s, step) && CleanAt(cfg, s, step)
    ensures Matches(Next(cfg, s, step).utxo, k) != [] <==> CarriesReward(Next(cfg, s, step).chain.blocks, k)
  {
    var bs := ChainFromJson(cfg, step.blocks, step.now).value.blocks;
    ReplacedState(cfg, s, step);
    ParsedFromHolds(cfg, step.blocks, step.now);
    forall i | 0 <= i < |bs|
      ensures RewardOnly(TxsOf(bs[i].data))
    {
      ParsedRewardOnly(cfg, step.blocks, bs, step.now, i);
    }
    ReplayOfRewards(bs, k);
  }

  // ---------- one step of a clean run ----------

  lemma NextKeepsClean(cfg: Config, s: NodeState, step: Step)
    requires ValidConfig(cfg) && CleanInv(cfg, s) && Timed(s, step) && CleanAt(cfg, s, step)
    ensures CleanInv(cfg, Next(cfg, s, step))
  {
    hide CleanInv, Mined, MinedText, TransactionTaken, BlockTaken, ChainTaken, Replaces;
    match step
    case MineBlock(address, now, readings) => MineKeepsClean(cfg, s, address, now, readings);
    case MineText(text, now, readings) => MineTextKeepsClean(cfg, s, text, now, readings);
    case TakeTransaction(j) => TransactionKeepsClean(cfg, s, j);
    case TakeBlock(j, originKnown, now) => BlockKeepsClean(cfg, s, j, originKnown, now);
    case TakeChain(js, now) => ChainKeepsClean(cfg, s, js, now);
  }

  lemma ChainKeepsClean(cfg: Config, s: NodeState, js: seq<BlockJson>, now: nat)
    requires ValidConfig(cfg) && CleanInv(cfg, s) && s.clock <= now
    requires Replaces(cfg, s, TakeChain(js, now)) ==> CleanStep(TakeChain(js, now))
    ensures CleanInv(cfg, ChainTaken(cfg, s, js, now).state)
  {
    if Replaces(cfg, s, TakeChain(js, now)) {
      ReplacementRestores(cfg, s, TakeChain(js, now));
    } else {
      ValidOrEmptyLater(cfg, s.chain.blocks, s.clock, now);
    }
  }

  lemma {:induction false} ChainTxsPrefix(bs: seq<Block>, n: nat)
    requires n <= |bs|
    ensures ChainTxs(bs[..n]) <= ChainTxs(bs)
    decreases |bs|
  {
    if n == |bs| {
      assert bs[..n] == bs;
    } else {
      ChainTxsPrefix(bs[..|bs| - 1], n);
      assert bs[..|bs| - 1][..n] == bs[..n];
    }
  }

  lemma ClearPrefix(s: NodeState, r: NodeState)
    requires Clear(r) && s.synced && s.chain.blocks <= r.chain.blocks
    ensures Clear(s)
  {
    hide ChainTxs;
    assert r.chain.blocks[..|s.chain.blocks|] == s.chain.blocks;
    ChainTxsPrefix(r.chain.blocks, |s.chain.blocks|);
  }

  /** Only replacement brings a node back into agreement with its chain. */
  lemma SyncedBefore(cfg: Config, s: NodeState, step: Step)
    requires ValidConfig(cfg) && !Replaces(cfg, s, step) && Next(cfg, s, step).synced
    ensures s.synced
  {
    hide Constructed, Appended, BlockFromJson, BlockOk, Extends, ChainFromJson, ChainOk, Better, Added, Assembled,
         UpdatedAll, Pruned, RemovedAll;
  }

  lemma ClearBefore(cfg: Config, s: NodeState, step: Step)
    requires ValidConfig(cfg) && !Replaces(cfg, s, step) && Clear(Next(cfg, s, step))
    ensures Clear(s)
  {
    hide Next, Replaces, CollisionFree, ChainTxs;
    SyncedBefore(cfg, s, step);
    StepExtends(cfg, s, step);
    ClearPrefix(s, Next(cfg, s, step));
  }

  /** Every handler keeps the traces of a clear node. */
  lemma StepKeepsTraces(cfg: Config, s: NodeState, step: Step)
    requires ValidConfig(cfg) && CleanInv(cfg, s) && Timed(s, step) && CleanAt(cfg, s, step)
    requires !Replaces(cfg, s, step) && Clear(s) && Clear(Next(cfg, s, step)) && HasTraces(s)
    ensures HasTraces(Next(cfg, s, step))
  {
    hide Mined, MinedText, TransactionTaken, BlockTaken, ChainTaken, HasTraces, Replaces, CleanJson, CollisionFree,
         CleanInv, OrderlyChain, LedgerInv, ChainTxs;
    ClearIsOrderly(cfg, s);
    match step
    case MineBlock(address, now, readings) => MineKeepsTraces(cfg, s, address, now, readings);
    case MineText(text, now, readings) => MineTextKeepsTraces(cfg, s, text, now, readings);
    case TakeTransaction(j) => TransactionKeepsTraces(cfg, s, j);
    case TakeBlock(j, originKnown, now) => BlockKeepsTraces(cfg, s, j, originKnown, now);
    case TakeChain(js, now) => IgnoredChain(cfg, s, js, now); SameTraces(s, Next(cfg, s, step));
  }

  lemma SameTraces(s: NodeState, r: NodeState)
    requires HasTraces(s) && r.chain.blocks == s.chain.blocks && r.pool == s.pool
    ensures HasTraces(r)
  {
    hide ChainTraced, Traced;
  }

  lemma IgnoredChain(cfg: Config, s: NodeState, js: seq<BlockJson>, now: nat)
    requires ValidConfig(cfg) && !Replaces(cfg, s, TakeChain(js, now))
    ensures ChainTaken(cfg, s, js, now).state == s.(clock := now)
  {
    hide ChainFromJson, ChainOk, Better;
  }

  lemma BlockKeepsTraces(cfg: Config, s: NodeState, j: BlockJson, originKnown: bool, now: nat)
    requires ValidConfig(cfg) && CleanInv(cfg, s) && Clear(s) && HasTraces(s) && s.clock <= now
    requires CleanAt(cfg, s, TakeBlock(j, originKnown, now)) && Clear(BlockTaken(cfg, s, j, originKnown, now).state)
    ensures HasTraces(BlockTaken(cfg, s, j, originKnown, now).state)
  {
    hide CleanInv, BlockTaken, HasTraces, CleanJson, Replaces, CollisionFree, ChainTxs;
    var r := BlockTaken(cfg, s, j, originKnown, now).state;
    if r.chain.blocks != s.chain.blocks {
      AppendKeepsTraces(cfg, s, j, originKnown, now);
    } else {
      BlockIgnored(cfg, s, j, originKnown, now);
      SameTraces(s, r);
    }
  }

  /** One step of a clean run, whatever it mines, keeps chain and pool clean and, in clear states,
      traced. */
  lemma NextKeepsLedger(cfg: Config, s: NodeState, step: Step)
    requires ValidConfig(cfg) && LedgerRunInv(cfg, s) && Timed(s, step) && CleanAt(cfg, s, step)
    ensures LedgerRunInv(cfg, Next(cfg, s, step))
  {
    hide Next, CleanInv, Clear, HasTraces, Replaces, CleanStep, Linked;
    NextKeepsClean(cfg, s, step);
    if Clear(Next(cfg, s, step)) {
      if Replaces(cfg, s, step) {
        ReplacementRestores(cfg, s, step);
      } else {
        ClearBefore(cfg, s, step);
        StepKeepsTraces(cfg, s, step);
      }
    }
  }

  /** Every handler keeps a linked chain linked, unless it mines a spent input. */
  lemma StepKeepsLinked(cfg: Config, s: NodeState, step: Step)
    requires ValidConfig(cfg) && CleanInv(cfg, s) && Timed(s, step) && s.synced && HasTraces(s)
    requires !Replaces(cfg, s, step) && Linked(cfg, s.chain.blocks) && !MinesSpent(cfg, s, step)
    ensures Linked(cfg, Next(cfg, s, step).chain.blocks)
  {
    hide Mined, MinedText, BlockTaken, ChainTaken, HasTraces, Replaces, Linked, PoolInv, CleanChain, BaseInv,
         PoolUnspent;
    match step
    case MineBlock(address, now, readings) => MineKeepsLinked(cfg, s, address, now, readings);
    case MineText(text, now, readings) => MineTextKeepsLinked(cfg, s, text, now, readings);
    case TakeTransaction(j) =>
    case TakeBlock(j, originKnown, now) => SyncedReplay(cfg, s); AppendKeepsLinks(cfg, s, j, originKnown, now);
    case TakeChain(js, now) => IgnoredChain(cfg, s, js, now);
  }

  lemma SyncedReplay(cfg: Config, s: NodeState)
    requires BaseInv(cfg, s) && s.synced
    ensures s.utxo == Replay(s.chain.blocks)
  {
  }

  /** Mining a spent input breaks the chain. */
  lemma MiningSpentUnlinks(cfg: Config, s: NodeState, step: Step)
    requires ValidConfig(cfg) && BaseInv(cfg, s) && s.synced && Timed(s, step) && MinesSpent(cfg, s, step)
    ensures !Linked(cfg, Next(cfg, s, step).chain.blocks)
  {
    hide Constructed, ValidOrEmpty, TxOk, DataOk, UpdatedAll, Pruned, KeySet, Matches, RewardTx, Replay;
    var ts, bs := Assembled(cfg, s, step.address), s.chain.blocks;
    ConstructedExtends(cfg, s.chain, Transactions(ts), s.clock, step.now, step.readings);
    AssembledIs(cfg, s, step.address);
    var i, k := SpentInPool(s);
    assert ts[i + 1] == s.pool[i];
    var b := Last(Next(cfg, s, step).chain.blocks);
    SpentNotOk(cfg, b.data, Replay(bs), |bs|, i + 1, k);
    assert (bs + [b])[..|bs + [b]| - 1] == bs;
  }

  lemma SpentInPool(s: NodeState) returns (i: nat, k: Key)
    requires !PoolUnspent(s)
    ensures i < |s.pool| && k in KeySet(s.pool[i].inputs) && Matches(s.utxo, k) == []
  {
    var t :| t in s.pool && !AllUnspent(s.utxo, t);
    i :| 0 <= i < |s.pool| && s.pool[i] == t;
    k := SpentKey(s.utxo, t);
  }

  /** A block that spends what is already spent is not valid against those unspent outputs. */
  lemma SpentNotOk(cfg: Config, d: Data, u: seq<UTxO>, index: nat, i: nat, k: Key)
    requires i < |TxsOf(d)| && k in KeySet(TxsOf(d)[i].inputs) && Matches(u, k) == []
    ensures !DataOk(cfg, RelinkData(d, u), index)
  {
    var ts := TxsOf(d);
    var j :| 0 <= j < |ts[i].inputs| && ts[i].inputs[j].key == k;
    var t := ts[i].(snapshot := u);
    assert Relink(ts, u)[i] == t && !InputOk(cfg, t, u, j);
    assert !TxOk(cfg, t);
    assert !ListedOk(cfg, Relink(ts, u), index, i);
  }

  // ---------- clean runs ----------

  /** What every state of a run with clean messages satisfies, whatever was mined. */
  lemma {:induction false} RunKeepsLedger(cfg: Config, states: seq<NodeState>, steps: seq<Step>, i: nat)
    requires ValidConfig(cfg) && CleanRun(cfg, states, steps) && i < |states|
    ensures LedgerRunInv(cfg, states[i])
  {
    hide LedgerRunInv, Next, Timed;
    if i == 0 {
      StartIsClean(cfg);
    } else {
      RunKeepsLedger(cfg, states, steps, i - 1);
      assert StepAt(cfg, states, steps, i - 1) && CleanAt(cfg, states[i - 1], steps[i - 1]);
      NextKeepsLedger(cfg, states[i - 1], steps[i - 1]);
    }
  }

  lemma StartIsClean(cfg: Config)
    requires ValidConfig(cfg)
    ensures LedgerRunInv(cfg, Start(cfg)) && Linked(cfg, Start(cfg).chain.blocks)
  {
  }

  predicate ReplacedBetween(cfg: Config, states: seq<NodeState>, steps: seq<Step>, i: nat, j: nat)
    requires ValidConfig(cfg) && |states| == |steps| + 1 && j <= |steps|
  {
    exists r :: i <= r < j && Replaces(cfg, states[r], steps[r])
  }

  /** Whenever a spent input was mined on the way to state `i`, the chain has been replaced since. */
  predicate Guarded(cfg: Config, states: seq<NodeState>, steps: seq<Step>, i: nat)
    requires ValidConfig(cfg) && |states| == |steps| + 1 && i <= |steps|
  {
    forall r :: 0 <= r < i && MinesSpent(cfg, states[r], steps[r]) ==> ReplacedBetween(cfg, states, steps, r + 1, i)
  }

  /** A clear state of a clean run. */
  ghost predicate ClearState(cfg: Config, states: seq<NodeState>, steps: seq<Step>, i: nat)
    requires ValidConfig(cfg)
  {
    CleanRun(cfg, states, steps) && i < |states| && Clear(states[i])
  }

  /** In addition, nothing spent has been mined into its chain. */
  ghost predicate SoundState(cfg: Config, states: seq<NodeState>, steps: seq<Step>, i: nat)
    requires ValidConfig(cfg)
  {
    ClearState(cfg, states, steps, i) && Guarded(cfg, states, steps, i)
  }

  lemma {:induction false} RunClearBefore(cfg: Config, states: seq<NodeState>, steps: seq<Step>, i: nat, j: nat)
    requires ValidConfig(cfg) && Run(cfg, states, steps) && i <= j < |states| && Clear(states[j])
    requires !ReplacedBetween(cfg, states, steps, i, j)
    ensures Clear(states[i])
    decreases j
  {
    hide Clear, Next, Replaces, Timed;
    if i < j {
      assert StepAt(cfg, states, steps, j - 1);
      ClearBefore(cfg, states[j - 1], steps[j - 1]);
      RunClearBefore(cfg, states, steps, i, j - 1);
    }
  }

  lemma GuardedBefore(cfg: Config, states: seq<NodeState>, steps: seq<Step>, i: nat)
    requires ValidConfig(cfg) && |states| == |steps| + 1 && i < |steps|
    requires Guarded(cfg, states, steps, i + 1) && !Replaces(cfg, states[i], steps[i])
    ensures Guarded(cfg, states, steps, i) && !MinesSpent(cfg, states[i], steps[i])
  {
    hide Replaces, MinesSpent;
    forall r | 0 <= r < i && MinesSpent(cfg, states[r], steps[r])
      ensures ReplacedBetween(cfg, states, steps, r + 1, i)
    {
      var q :| r + 1 <= q < i + 1 && Replaces(cfg, states[q], steps[q]);
      assert q != i;
    }
    assert !ReplacedBetween(cfg, states, steps, i + 1, i + 1);
  }

  lemma {:induction false} RunKeepsLinked(cfg: Config, states: seq<NodeState>, steps: seq<Step>, i: nat)
    requires ValidConfig(cfg) && SoundState(cfg, states, steps, i)
    ensures Linked(cfg, states[i].chain.blocks)
  {
    hide CleanInv, HasTraces, Next, Timed, Replaces, MinesSpent, Guarded, CleanStep, Linked, CollisionFree,
         ChainTxs;
    if i == 0 {
      StartIsClean(cfg);
    } else {
      var s, step := states[i - 1], steps[i - 1];
      assert StepAt(cfg, states, steps, i - 1) && CleanAt(cfg, s, step);
      if Replaces(cfg, s, step) {
        ReplacementRestores(cfg, s, step);
      } else {
        ClearBefore(cfg, s, step);
        GuardedBefore(cfg, states, steps, i - 1);
        RunKeepsLinked(cfg, states, steps, i - 1);
        RunKeepsLedger(cfg, states, steps, i - 1);
        StepKeepsLinked(cfg, s, step);
      }
    }
  }

  /** The chain of a clear state of a clean run: orderly, with unique keys of known origin, and traced. */
  lemma ClearLedger(cfg: Config, states: seq<NodeState>, steps: seq<Step>, i: nat)
    requires ValidConfig(cfg) && ClearState(cfg, states, steps, i)
    ensures var s := states[i];
            && CleanInv(cfg, s) && HasTraces(s) && OrderlyChain(s.chain.blocks) && LedgerInv(s.chain.blocks)
            && s.utxo == Replay(s.chain.blocks)
  {
    hide CleanInv, HasTraces, OrderlyChain, LedgerInv, CollisionFree, ChainTxs, Replay;
    RunKeepsLedger(cfg, states, steps, i);
    ClearIsOrderly(cfg, states[i]);
  }

  lemma {:induction false} LinkedPrefix(cfg: Config, bs: seq<Block>, n: nat)
    requires Linked(cfg, bs) && n <= |bs|
    ensures Linked(cfg, bs[..n])
  {
    if n == |bs| {
      assert bs[..n] == bs;
    } else {
      LinkedPrefix(cfg, bs[..|bs| - 1], n);
      assert bs[..|bs| - 1][..n] == bs[..n];
    }
  }

  lemma UnguardedUnlinks(cfg: Config, states: seq<NodeState>, steps: seq<Step>, r: nat, i: nat)
    requires ValidConfig(cfg) && ClearState(cfg, states, steps, i) && r < i
    requires MinesSpent(cfg, states[r], steps[r]) && !ReplacedBetween(cfg, states, steps, r + 1, i)
    ensures !Linked(cfg, states[i].chain.blocks)
  {
    hide BaseInv, Next, Timed, MinesSpent, Linked;
    var a, b := states[r + 1].chain.blocks, states[i].chain.blocks;
    assert StepAt(cfg, states, steps, r);
    RunClearBefore(cfg, states, steps, r + 1, i);
    RunExtends(cfg, states, steps, r + 1, i);
    RunKeepsBase(cfg, states, steps, r);
    assert !Replaces(cfg, states[r], steps[r]) by { MiningReplacesNothing(cfg, states[r], steps[r]); }
    SyncedBefore(cfg, states[r], steps[r]);
    MiningSpentUnlinks(cfg, states[r], steps[r]);
    assert b[..|a|] == a;
    if Linked(cfg, b) { LinkedPrefix(cfg, b, |a|); }
  }

  lemma MiningReplacesNothing(cfg: Config, s: NodeState, step: Step)
    requires ValidConfig(cfg) && MinesSpent(cfg, s, step)
    ensures !Replaces(cfg, s, step)
  {
  }

  // ---------- no output is spent without its owner's signature ----------

  lemma TracedSigned(cfg: Config, bs: seq<Block>, t: Tx, i: nat, c: Tx)
    requires StandardOk(cfg, t, t.snapshot) && Traced(bs, t) && i < |t.inputs|
    requires c in ChainTxs(bs) && c.hash == t.inputs[i].key.hash && CollisionFree(ChainTxs(bs))
    ensures t.inputs[i].key.index < |c.outputs|
    ensures cfg.verify(c.outputs[t.inputs[i].key.index].address, t.hash, t.inputs[i].signature)
  {
    var k := t.inputs[i].key;
    assert k in KeySet(t.inputs);
    assert TracedKey(bs, t.snapshot, k);
    var d :| d in ChainTxs(bs) && d.hash == k.hash && k.index < |d.outputs|
             && Matches(t.snapshot, k) == [UTxO(k, d.outputs[k.index])];
    assert SameContent(c, d);
    StandardSigned(cfg, t, t.snapshot, i);
    var a := LastEntryExists(t.snapshot, k);
    LastEntryAddress(t.snapshot, k, a);
  }

  /** In every clear state of a clean run, whatever was mined: every transaction of the chain that
      spends carries the hash of its content, and each of its inputs spends an output of an earlier
      transaction, with a signature of that hash which the address of that output verifies. */
  lemma RunSigned(cfg: Config, states: seq<NodeState>, steps: seq<Step>, i: nat, m: nat, n: nat, j: nat)
    requires ValidConfig(cfg) && ClearState(cfg, states, steps, i)
    requires m < |states[i].chain.blocks| && n < |TxsOf(states[i].chain.blocks[m].data)|
    requires j < |TxsOf(states[i].chain.blocks[m].data)[n].inputs|
    ensures var bs := states[i].chain.blocks;
            var t := TxsOf(bs[m].data)[n];
            && t.hash == cfg.hash(TxPreimage(t.index, t.inputs, t.outputs))
            && (exists c :: c in ChainTxs(bs[..m]) && c.hash == t.inputs[j].key.hash)
            && forall c :: c in ChainTxs(bs) && c.hash == t.inputs[j].key.hash ==>
                 && t.inputs[j].key.index < |c.outputs|
                 && cfg.verify(c.outputs[t.inputs[j].key.index].address, t.hash, t.inputs[j].signature)
  {
    hide OrderlyChain, CleanInv, LedgerInv, Replay, Linked, StandardOk, CollisionFree, ChainTxs;
    var bs := states[i].chain.blocks;
    var t := TxsOf(bs[m].data)[n];
    ClearLedger(cfg, states, steps, i);
    BlockTraced(cfg, states[i], m, n);
    assert CollisionFree(ChainTxs(bs));
    ChainTxsPrefix(bs, m);
    assert CollisionFree(ChainTxs(bs[..m])) by { FewerCollide(ChainTxs(bs[..m]), ChainTxs(bs)); }
    var k := t.inputs[j].key;
    assert k in KeySet(t.inputs);
    assert TracedKey(bs[..m], t.snapshot, k);
    var d :| d in ChainTxs(bs[..m]) && d.hash == k.hash;
    StandardHash(cfg, t);
    TracedSigned(cfg, bs[..m], t, j, d);
    forall c | c in ChainTxs(bs) && c.hash == k.hash
      ensures k.index < |c.outputs| && cfg.verify(c.outputs[k.index].address, t.hash, t.inputs[j].signature)
    {
      SameHashSame(ChainTxs(bs), c, d);
    }
  }

  lemma FewerCollide(a: set<Tx>, b: set<Tx>)
    requires a <= b && CollisionFree(b)
    ensures CollisionFree(a)
  {
  }

  lemma SameHashSame(txs: set<Tx>, c: Tx, d: Tx)
    requires CollisionFree(txs) && c in txs && d in txs && c.hash == d.hash
    ensures c.outputs == d.outputs
  {
    assert SameContent(c, d);
  }

  lemma StandardHash(cfg: Config, t: Tx)
    requires StandardOk(cfg, t, t.snapshot)
    ensures t.hash == cfg.hash(TxPreimage(t.index, t.inputs, t.outputs))
  {
  }

  /** A transaction that spends, in a block of a clear chain. */
  lemma BlockTraced(cfg: Config, s: NodeState, m: nat, n: nat)
    requires CleanInv(cfg, s) && HasTraces(s) && m < |s.chain.blocks| && n < |TxsOf(s.chain.blocks[m].data)|
    ensures var t := TxsOf(s.chain.blocks[m].data)[n];
            Traced(s.chain.blocks[..m], t) && (t.inputs != [] ==> StandardOk(cfg, t, t.snapshot))
  {
    hide Traced, Replay, PoolInv, PoolValid;
    var bs := s.chain.blocks;
    var upto := bs[..m + 1];
    ChainTracedPrefix(bs, m + 1);
    assert upto[..|upto| - 1] == bs[..m] && upto[|upto| - 1] == bs[m];
    assert TxsOf(bs[m].data)[n] in TxsOf(bs[m].data);
    assert BlockOk(cfg, bs[m], s.clock);
    assert ListedOk(cfg, TxsOf(bs[m].data), bs[m].index, n);
  }

  /** Posting a standard transaction with an input that names no unspent output, or whose signature its
      owner's address does not verify, throws and changes nothing. */
  lemma ForgeryRefused(cfg: Config, s: NodeState, j: TxJson, i: nat)
    requires TxFromJson(j).Some? && TxFromJson(j).value.kind.Standard? && i < |TxFromJson(j).value.inputs|
    requires var t := TxFromJson(j).value;
             forall x :: x in s.utxo && x.key == t.inputs[i].key ==>
               !cfg.verify(x.output.address, t.hash, t.inputs[i].signature)
    ensures TransactionTaken(cfg, s, j) == Thrown(s)
  {
    hide StandardOk, TxFromJson;
    var t := TxFromJson(j).value.(snapshot := s.utxo);
    if StandardOk(cfg, t, s.utxo) {
      StandardSigned(cfg, t, s.utxo, i);
    }
  }

  // ---------- the main theorems on runs ----------

  /** Soundness of runs, exactly: in a clear state of a run with clean messages, every block is valid
      against the replay of the blocks before it if and only if, since the chain was last replaced,
      no mining attempt succeeded with a spent input in the pool. */
  lemma RunSoundExactly(cfg: Config, states: seq<NodeState>, steps: seq<Step>, i: nat)
    requires ValidConfig(cfg) && ClearState(cfg, states, steps, i)
    ensures SoundChain(cfg, states[i].chain.blocks) <==> Guarded(cfg, states, steps, i)
  {
    hide MinesSpent, StepAt, CleanAt;
    if Guarded(cfg, states, steps, i) {
      RunSound(cfg, states, steps, i);
    } else {
      var r :| 0 <= r < i && MinesSpent(cfg, states[r], steps[r]) && !ReplacedBetween(cfg, states, steps, r + 1, i);
      UnguardedUnlinks(cfg, states, steps, r, i);
    }
  }

  /** Every block of the chain is valid against the replay of the blocks before it. */
  lemma RunSound(cfg: Config, states: seq<NodeState>, steps: seq<Step>, i: nat)
    requires ValidConfig(cfg) && SoundState(cfg, states, steps, i)
    ensures SoundChain(cfg, states[i].chain.blocks)
    ensures states[i].utxo == Replay(states[i].chain.blocks)
  {
    RunKeepsLedger(cfg, states, steps, i);
    RunKeepsLinked(cfg, states, steps, i);
  }

  /** Supply over every run: the unspent amounts are one reward per rewarded block, plus 2^64 per
      wrap-around of a size_t sum, plus what was spent again, which is nothing in sound states. There,
      while the rewards fit into a size_t, they are exactly the rewards, now and after every block so
      far, if and only if no output sum reaches 2^64. */
  lemma RunSupply(cfg: Config, states: seq<NodeState>, steps: seq<Step>, i: nat)
    requires ValidConfig(cfg) && ClearState(cfg, states, steps, i)
    ensures var bs := states[i].chain.blocks;
            && Total(states[i].utxo) == cfg.rewardAmount * Rewarded(bs) + SIZE_T_RANGE * Wraps(bs) + SpentAgain(bs)
            && (Guarded(cfg, states, steps, i) ==> SpentAgain(bs) == 0)
    ensures var bs := states[i].chain.blocks;
            Guarded(cfg, states, steps, i) && cfg.rewardAmount * Rewarded(bs) < SIZE_T_RANGE ==>
              && ((forall n :: 0 <= n <= |bs| ==> Conserved(cfg, bs[..n])) <==> SmallOutputs(bs))
              && (SmallOutputs(bs) ==> Total(states[i].utxo) == cfg.rewardAmount * Rewarded(bs))
  {
    hide StepAt, CleanAt, Guarded, CollisionFree, ChainTxs, Conserved, SmallOutputs, SoundChain, OrderlyChain,
         HasTraces, PayableChain, Rewarded, Wraps, SpentAgain, Total, Replay;
    var bs := states[i].chain.blocks;
    ClearLedger(cfg, states, steps, i);
    ClearPayable(cfg, states[i]);
    SupplyIdentity(cfg, bs);
    if Guarded(cfg, states, steps, i) {
      RunSound(cfg, states, steps, i);
      SoundPayable(cfg, bs);
      if cfg.rewardAmount * Rewarded(bs) < SIZE_T_RANGE {
        SupplyExactlyWhen(cfg, bs);
        if SmallOutputs(bs) { SupplyConserved(cfg, bs); }
      }
    }
  }

  lemma ClearPayable(cfg: Config, s: NodeState)
    requires CleanInv(cfg, s) && HasTraces(s) && OrderlyChain(s.chain.blocks)
    ensures PayableChain(cfg, s.chain.blocks)
  {
    TracedPayable(cfg, s.chain.blocks, s.clock);
  }

  /** Each key is unspent at most once, in every clear state. */
  lemma RunUniqueKeys(cfg: Config, states: seq<NodeState>, steps: seq<Step>, i: nat)
    requires ValidConfig(cfg) && ClearState(cfg, states, steps, i)
    ensures forall a, b :: 0 <= a < b < |states[i].utxo| ==> states[i].utxo[a].key != states[i].utxo[b].key
  {
    ClearLedger(cfg, states, steps, i);
    UniqueKeysMeaning(states[i].utxo);
  }

  /** No output returns: what the chain of any earlier state created and spent is spent in every later
      clear state, unless some step in between replaces the chain. */
  lemma RunNoReturn(cfg: Config, states: seq<NodeState>, steps: seq<Step>, i: nat, j: nat, k: Key)
    requires ValidConfig(cfg) && ClearState(cfg, states, steps, j) && i <= j
    requires Originates(states[i].chain.blocks, k.hash) && Matches(Replay(states[i].chain.blocks), k) == []
    ensures Matches(states[j].utxo, k) == [] || ReplacedBetween(cfg, states, steps, i, j)
  {
    hide StepAt, CleanAt, Replaces, CleanInv, HasTraces, OrderlyChain, LedgerInv, Replay, Originates, CollisionFree,
         ChainTxs;
    if !ReplacedBetween(cfg, states, steps, i, j) {
      var a, b := states[i].chain.blocks, states[j].chain.blocks;
      RunExtends(cfg, states, steps, i, j);
      ClearLedger(cfg, states, steps, j);
      assert b[..|a|] == a;
      SpentStaysSpent(b, |a|, k);
    }
  }

  /** Pool invariant: bounded size and disjoint inputs in every state; in clear states a pooled
      transaction is valid against the current unspent outputs exactly when its inputs are unspent. */
  lemma RunPool(cfg: Config, states: seq<NodeState>, steps: seq<Step>, i: nat)
    requires ValidConfig(cfg) && CleanRun(cfg, states, steps) && i < |states|
    ensures var s := states[i];
            && |s.pool| <= cfg.numPerBlock
            && (forall a, b :: 0 <= a < b < |s.pool| ==> KeySet(s.pool[a].inputs) !! KeySet(s.pool[b].inputs))
            && (Clear(s) ==>
                  forall t :: t in s.pool ==> (TxOk(cfg, t.(snapshot := s.utxo)) <==> AllUnspent(s.utxo, t)))
  {
    var s := states[i];
    RunKeepsLedger(cfg, states, steps, i);
    forall a, b | 0 <= a < b < |s.pool|
      ensures KeySet(s.pool[a].inputs) !! KeySet(s.pool[b].inputs)
    {
      DisjointPairs(s.pool, a, b);
    }
    if Clear(s) {
      forall t | t in s.pool
        ensures TxOk(cfg, t.(snapshot := s.utxo)) <==> AllUnspent(s.utxo, t)
      {
        CurrentExactly(cfg, s.chain.blocks, t);
      }
    }
  }

  lemma CurrentExactly(cfg: Config, bs: seq<Block>, t: Tx)
    requires TxOk(cfg, t) && Traced(bs, t)
    ensures TxOk(cfg, t.(snapshot := Replay(bs))) <==> AllUnspent(Replay(bs), t)
  {
    var s := t.(snapshot := Replay(bs));
    if AllUnspent(Replay(bs), t) {
      TracedUnspent(bs, t);
      StaleSnapshotSound(cfg, Replay(bs), t);
    } else if TxOk(cfg, s) {
      AddedIsLinked(cfg, Replay(bs), s);
      LinkedUnspent(Replay(bs), s);
    }
  }

  /** What an appended block does to the pool, when pooled hashes differ: its transactions are taken out,
      the others stay in order, and pruning goes over those. */
  lemma AppendedPool(cfg: Config, s: NodeState, j: BlockJson, originKnown: bool, now: nat)
    requires ValidConfig(cfg) && HashesDiffer(s.pool)
    requires BlockTaken(cfg, s, j, originKnown, now).state.chain.blocks != s.chain.blocks
    ensures BlockFromJson(j).Some?
    ensures var r, ts := BlockTaken(cfg, s, j, originKnown, now).state, TxsOf(BlockFromJson(j).value.data);
            && r.utxo == UpdatedAll(s.utxo, ts) && r.pool == Pruned(Without(s.pool, HashIn(ts)), r.utxo)
            && (forall t, x :: t in r.pool && x in ts ==> t.hash != x.hash)
  {
    hide BlockFromJson, BlockTaken, Pruned, RemovedAll, UpdatedAll, DataOk, Without, HashesDiffer;
    BlockAppended(cfg, s, j, originKnown, now);
    var d, r := BlockFromJson(j).value.data, BlockTaken(cfg, s, j, originKnown, now).state;
    var us := TxsOf(RelinkData(d, s.utxo));
    RemovedExactly(s.pool, us);
    RelinkedHashes(d, s.utxo);
    RelinkedUpdate(s.utxo, d);
    SameFilter(s.pool, HashIn(us), HashIn(TxsOf(d)));
    WithoutDiffers(s.pool, HashIn(us));
    PrunedShrinks(Without(s.pool, HashIn(us)), r.utxo);
    forall t, x | t in r.pool && x in TxsOf(d)
      ensures t.hash != x.hash
    {
      assert !HashIn(TxsOf(d))(t);
    }
  }

  lemma RelinkedHashes(d: Data, u: seq<UTxO>)
    ensures forall t :: HashIn(TxsOf(RelinkData(d, u)))(t) <==> HashIn(TxsOf(d))(t)
  {
    var ts, us := TxsOf(d), TxsOf(RelinkData(d, u));
    assert |us| == |ts| && forall i :: 0 <= i < |ts| ==> us[i].hash == ts[i].hash;
  }

  lemma RelinkedUpdate(u: seq<UTxO>, d: Data)
    ensures UpdatedAll(u, TxsOf(RelinkData(d, u))) == UpdatedAll(u, TxsOf(d))
  {
    if d.Transactions? { UpdateIgnoresLinks(u, d.list, u); }
  }

  lemma {:induction false} UpdateIgnoresLinks(u: seq<UTxO>, ts: seq<Tx>, v: seq<UTxO>)
    ensures UpdatedAll(u, Relink(ts, v)) == UpdatedAll(u, ts)
  {
    if ts != [] {
      UpdateIgnoresLinks(u, ts[..|ts| - 1], v);
      assert Relink(ts, v)[..|ts| - 1] == Relink(ts[..|ts| - 1], v);
    } else {
      assert Relink(ts, v) == [];
    }
  }

  lemma {:induction false} SameFilter(s: seq<Tx>, a: Tx -> bool, b: Tx -> bool)
    requires forall t :: a(t) <==> b(t)
    ensures Without(s, a) == Without(s, b)
  {
    if s != [] { SameFilter(s[1..], a, b); }
  }

  /** At one appended block: no pooled input is spent afterwards if and only if no two neighbours
      were stale. */
  lemma AppendPrunesExactly(cfg: Config, s: NodeState, step: Step)
    requires ValidConfig(cfg) && AppendsSynced(cfg, s, step)
    ensures PoolUnspent(Next(cfg, s, step)) <==> PrunesStep(cfg, s, step)
  {
    hide BlockFromJson, BlockTaken, Pruned, RemovedAll, UpdatedAll, AllUnspent, NoNeighbours, DataOk;
    BlockAppended(cfg, s, step.block, step.originKnown, step.now);
    var ts := TxsOf(RelinkBlock(BlockFromJson(step.block).value, s.utxo).data);
    PrunedUnspentExactly(RemovedAll(s.pool, ts), UpdatedAll(s.utxo, ts));
  }

  /** Every other step of a node that stays synced brings no spent input into the pool. */
  lemma StepKeepsUnspent(cfg: Config, s: NodeState, step: Step)
    requires ValidConfig(cfg) && |s.pool| <= cfg.numPerBlock && PoolUnspent(s)
    requires Next(cfg, s, step).synced && !AppendsSynced(cfg, s, step)
    ensures PoolUnspent(Next(cfg, s, step))
  {
    hide BlockTaken, ChainTaken, AllUnspent, Constructed, TransactionTaken, Mined;
    match step
    case MineBlock(address, now, readings) => MinedPool(cfg, s, address, now, readings);
    case MineText(text, now, readings) =>
    case TakeTransaction(j) => TransactionKeepsUnspent(cfg, s, j);
    case TakeBlock(j, originKnown, now) =>
      SyncedBefore(cfg, s, step);
      BlockIgnored(cfg, s, j, originKnown, now);
    case TakeChain(js, now) => ChainKeepsUnspent(cfg, s, js, now);
  }

  lemma MinedPool(cfg: Config, s: NodeState, address: string, now: nat, readings: seq<nat>)
    requires ValidConfig(cfg) && |s.pool| <= cfg.numPerBlock
    ensures Mined(cfg, s, address, now, readings).state.pool == []
  {
    hide Constructed, UpdatedAll;
    AssembledIs(cfg, s, address);
  }

  lemma TransactionKeepsUnspent(cfg: Config, s: NodeState, j: TxJson)
    requires PoolUnspent(s)
    ensures PoolUnspent(TransactionTaken(cfg, s, j).state)
  {
    hide SharesInput, TxFromJson, AllUnspent, TxOk;
    if TransactionTaken(cfg, s, j).Done? {
      var t := TxFromJson(j).value.(snapshot := s.utxo);
      AddedIsLinked(cfg, s.utxo, t);
      LinkedUnspent(s.utxo, t);
    }
  }

  lemma ChainKeepsUnspent(cfg: Config, s: NodeState, js: seq<BlockJson>, now: nat)
    requires ValidConfig(cfg) && PoolUnspent(s)
    ensures PoolUnspent(ChainTaken(cfg, s, js, now).state)
  {
    hide ChainFromJson, ChainOk, Better, Replay, AllUnspent;
  }

  lemma ReplacedUnspent(cfg: Config, s: NodeState, step: Step)
    requires ValidConfig(cfg) && Replaces(cfg, s, step)
    ensures PoolUnspent(Next(cfg, s, step)) && PrunesStep(cfg, s, step)
  {
    hide Next, Replay, ChainFromJson;
    ReplacedState(cfg, s, step);
  }

  predicate UnspentAt(s: NodeState) {
    s.synced ==> PoolUnspent(s)
  }

  /** One step of any run: from a pool without spent inputs, the next pool is one exactly when
      pruning skips no stale neighbour. */
  lemma UnspentStep(cfg: Config, states: seq<NodeState>, steps: seq<Step>, i: nat)
    requires ValidConfig(cfg) && Run(cfg, states, steps) && i < |steps| && UnspentAt(states[i])
    ensures UnspentAt(states[i + 1]) <==> PrunesStep(cfg, states[i], steps[i])
  {
    hide PoolUnspent, Replaces, Timed, Next, PrunesAll, BlockFromJson;
    var s, step := states[i], steps[i];
    assert StepAt(cfg, states, steps, i);
    RunKeepsBase(cfg, states, steps, i);
    if AppendsSynced(cfg, s, step) {
      AppendPrunesExactly(cfg, s, step);
      AppendedSynced(cfg, s, step);
    } else if states[i + 1].synced {
      if Replaces(cfg, s, step) {
        ReplacedUnspent(cfg, s, step);
      } else {
        SyncedBefore(cfg, s, step);
        StepKeepsUnspent(cfg, s, step);
      }
    }
  }

  lemma AppendedSynced(cfg: Config, s: NodeState, step: Step)
    requires ValidConfig(cfg) && AppendsSynced(cfg, s, step)
    ensures Next(cfg, s, step).synced
  {
    hide BlockFromJson, BlockTaken, Pruned, RemovedAll, UpdatedAll, DataOk;
    BlockAppended(cfg, s, step.block, step.originKnown, step.now);
  }

  /** The pool over runs, exactly: whatever the messages, no synced state has a spent input in its
      pool if and only if no block appended while synced left two stale neighbours. */
  lemma RunPoolExactly(cfg: Config, states: seq<NodeState>, steps: seq<Step>)
    requires ValidConfig(cfg) && Run(cfg, states, steps)
    ensures (forall i :: 0 <= i < |states| ==> UnspentAt(states[i]))
       <==> (forall i :: 0 <= i < |steps| ==> PrunesStep(cfg, states[i], steps[i]))
  {
    hide UnspentAt, PrunesStep, StepAt;
    if forall i :: 0 <= i < |states| ==> UnspentAt(states[i]) {
      forall i | 0 <= i < |steps|
        ensures PrunesStep(cfg, states[i], steps[i])
      {
        UnspentStep(cfg, states, steps, i);
      }
    }
    if forall i :: 0 <= i < |steps| ==> PrunesStep(cfg, states[i], steps[i]) {
      forall i | 0 <= i < |states|
        ensures UnspentAt(states[i])
      {
        RunUnspent(cfg, states, steps, i);
      }
    }
  }

  lemma {:induction false} RunUnspent(cfg: Config, states: seq<NodeState>, steps: seq<Step>, n: nat)
    requires ValidConfig(cfg) && Run(cfg, states, steps) && n < |states|
    requires forall i :: 0 <= i < n ==> PrunesStep(cfg, states[i], steps[i])
    ensures UnspentAt(states[n])
  {
    if n > 0 {
      RunUnspent(cfg, states, steps, n - 1);
      UnspentStep(cfg, states, steps, n - 1);
    }
  }

  /** So where pruning never skips a stale neighbour, the clear states of clean runs are sound. */
  lemma PrunedIsSound(cfg: Config, states: seq<NodeState>, steps: seq<Step>, i: nat)
    requires ValidConfig(cfg) && ClearState(cfg, states, steps, i)
    requires forall r :: 0 <= r < i ==> PrunesStep(cfg, states[r], steps[r])
    ensures SoundState(cfg, states, steps, i) && PoolUnspent(states[i])
  {
    hide CollisionFree, ChainTxs, StepAt, CleanAt, Replaces, PoolUnspent, PrunesStep;
    RunUnspent(cfg, states, steps, i);
    forall r | 0 <= r < i && MinesSpent(cfg, states[r], steps[r])
      ensures ReplacedBetween(cfg, states, steps, r + 1, i)
    {
      RunUnspent(cfg, states, steps, r);
      if !ReplacedBetween(cfg, states, steps, r + 1, i) {
        NotReplacedFrom(cfg, states, steps, r, i);
        RunClearBefore(cfg, states, steps, r, i);
      }
    }
  }

  lemma NotReplacedFrom(cfg: Config, states: seq<NodeState>, steps: seq<Step>, r: nat, i: nat)
    requires ValidConfig(cfg) && |states| == |steps| + 1 && r < i <= |steps|
    requires MinesSpent(cfg, states[r], steps[r]) && !ReplacedBetween(cfg, states, steps, r + 1, i)
    ensures !ReplacedBetween(cfg, states, steps, r, i)
  {
    hide Replaces, MinesSpent;
    MiningReplacesNothing(cfg, states[r], steps[r]);
  }

  lemma RewardTxOk(cfg: Config, address: string, index: nat)
    ensures var t := RewardTx(cfg, address, index);
            t.kind.Reward? && t.index == index && t.snapshot == [] && TxOk(cfg, t)
  {
  }

  predicate ForNextBlock(s: NodeState, t: Tx) {
    t.kind.Standard? && t.index == |s.chain.blocks|
  }

  lemma AssembledListed(cfg: Config, s: NodeState, address: string)
    requires PoolValid(cfg, s.pool)
    ensures ListOk(cfg, Assembled(cfg, s, address), |s.chain.blocks|) <==>
            forall t :: t in s.pool ==> ForNextBlock(s, t)
  {
    var ts, index := Assembled(cfg, s, address), |s.chain.blocks|;
    AssembledIs(cfg, s, address);
    RewardTxOk(cfg, address, index);
    assert ListedOk(cfg, ts, index, 0);
    forall i | 0 < i < |ts|
      ensures ListedOk(cfg, ts, index, i) <==> ForNextBlock(s, s.pool[i - 1])
    {
      assert ts[i] == s.pool[i - 1] && ts[i] in s.pool;
    }
    if t :| t in s.pool && !ForNextBlock(s, t) {
      var i :| 0 <= i < |s.pool| && s.pool[i] == t;
      assert !ListedOk(cfg, ts, index, i + 1);
    }
  }

  /** The nonce search, if there is one, ends within the given clock readings. */
  predicate SearchEnds(cfg: Config, s: NodeState, address: string, now: nat, readings: seq<nat>)
    requires ValidConfig(cfg)
  {
    cfg.pow ==>
      var b := NewBlock(cfg, s.chain.blocks, Transactions(Assembled(cfg, s, address)), now);
      var d := Adjusted(cfg.difficulty, s.chain.adjuster, now).difficulty;
      Search(cfg, b, Target(d), readings).Some?
  }

  /** Mining succeeds exactly when every pooled transaction is a standard transaction for the next
      block and, with proof of work, the nonce search ends. */
  lemma MiningSucceedsExactly(cfg: Config, s: NodeState, address: string, now: nat, readings: seq<nat>)
    requires ValidConfig(cfg) && BaseInv(cfg, s) && s.clock <= now
    ensures Mined(cfg, s, address, now, readings).Done? <==>
            (forall t :: t in s.pool ==> ForNextBlock(s, t)) && SearchEnds(cfg, s, address, now, readings)
  {
    AssembledListed(cfg, s, address);
    NewBlockSucceeds(cfg, s.chain.blocks, Transactions(Assembled(cfg, s, address)), s.clock, now);
  }

  /** The same in every state of every run, whatever the messages. */
  lemma RunMiningSucceedsExactly(cfg: Config, states: seq<NodeState>, steps: seq<Step>, i: nat,
                                 address: string, now: nat, readings: seq<nat>)
    requires ValidConfig(cfg) && Run(cfg, states, steps) && i < |states| && states[i].clock <= now
    ensures Mined(cfg, states[i], address, now, readings).Done? <==>
            (forall t :: t in states[i].pool ==> ForNextBlock(states[i], t))
            && SearchEnds(cfg, states[i], address, now, readings)
  {
    RunKeepsBase(cfg, states, steps, i);
    MiningSucceedsExactly(cfg, states[i], address, now, readings);
  }

  /** Each mining attempt of every run, with or without success, empties the pool and never
      assembles too long a list. */
  lemma RunMiningDrains(cfg: Config, states: seq<NodeState>, steps: seq<Step>, i: nat)
    requires ValidConfig(cfg) && Run(cfg, states, steps) && i < |steps| && steps[i].MineBlock?
    ensures states[i + 1].pool == []
    ensures |Assembled(cfg, states[i], steps[i].address)| == |states[i].pool| + 1 <= cfg.numPerBlock + 1
  {
    RunKeepsBase(cfg, states, steps, i);
    assert StepAt(cfg, states, steps, i);
    AssembledIs(cfg, states[i], steps[i].address);
  }

  /** A received block, linked with the cache of a synced state, that passes validation for a
      position not yet taken, and whose transactions do not collide with those of the chain. */
  ghost predicate Offered(cfg: Config, s: NodeState, j: BlockJson, now: nat) {
    && BlockFromJson(j).Some? && CleanJson(j)
    && var b := RelinkBlock(BlockFromJson(j).value, s.utxo);
       && BlockOk(cfg, b, now) && b.index >= |s.chain.blocks|
       && CollisionFree(ChainTxs(s.chain.blocks) + TxSet(TxsOf(b.data)))
  }

  lemma OfferedToRun(cfg: Config, states: seq<NodeState>, steps: seq<Step>, i: nat, j: BlockJson, now: nat)
    requires ValidConfig(cfg) && ClearState(cfg, states, steps, i) && Offered(cfg, states[i], j, now)
    ensures Applicable(states[i].utxo, TxsOf(RelinkBlock(BlockFromJson(j).value, states[i].utxo).data))
    ensures CleanList(TxsOf(RelinkBlock(BlockFromJson(j).value, states[i].utxo).data))
  {
    var s, b := states[i], RelinkBlock(BlockFromJson(j).value, states[i].utxo);
    ClearLedger(cfg, states, steps, i);
    RelinkClean(TxsOf(BlockFromJson(j).value.data), s.utxo);
    RelinkTwice(BlockFromJson(j).value.data, s.utxo, s.utxo);
    OfferedApplicable(cfg, s.chain.blocks, b.data, b.index);
  }

  /** The branch for blocks that are ahead breaks the agreement of cache and chain exactly when
      the block carries transactions. */
  lemma AheadBlockAgreesExactly(cfg: Config, states: seq<NodeState>, steps: seq<Step>, i: nat, j: BlockJson, now: nat)
    requires ValidConfig(cfg) && ClearState(cfg, states, steps, i) && Offered(cfg, states[i], j, now)
    requires j.index > |states[i].chain.blocks|
    ensures var r := BlockTaken(cfg, states[i], j, true, now);
            && r.Done? && r.state.chain == states[i].chain && !r.state.synced
            && (r.state.utxo == Replay(r.state.chain.blocks) <==> TxsOf(BlockFromJson(j).value.data) == [])
  {
    var s, b := states[i], RelinkBlock(BlockFromJson(j).value, states[i].utxo);
    var ts := TxsOf(b.data);
    ClearLedger(cfg, states, steps, i);
    OfferedToRun(cfg, states, steps, i, j, now);
    assert b.index == j.index;
    if ts != [] {
      assert ListedOk(cfg, ts, b.index, 0);
      BlockCreates(s.utxo, ts, 0, 0);
      assert Fresh(s.utxo, ts[0].hash);
    }
  }

  /** No erasing loop leaves the list while a synced node applies a received block, whether it
      appends the block or the block is ahead. */
  lemma RunBlockStaysInside(cfg: Config, states: seq<NodeState>, steps: seq<Step>, i: nat,
                            j: BlockJson, now: nat, n: nat)
    requires ValidConfig(cfg) && ClearState(cfg, states, steps, i) && Offered(cfg, states[i], j, now)
    requires n < |TxsOf(RelinkBlock(BlockFromJson(j).value, states[i].utxo).data)|
    ensures var u, ts := states[i].utxo, TxsOf(RelinkBlock(BlockFromJson(j).value, states[i].utxo).data);
            !UpdateOverruns(UpdatedAll(u, ts[..n]), ts[n])
  {
    var b := RelinkBlock(BlockFromJson(j).value, states[i].utxo);
    var ts := TxsOf(b.data);
    OfferedToRun(cfg, states, steps, i, j, now);
    assert ListedOk(cfg, ts, b.index, n) && CleanTx(ts[n]);
    BlockStaysInside(states[i].utxo, ts, n);
  }

  /** No erasing loop over the unspent outputs leaves the list while the chain of a clear state is
      replayed, even where it spends what is spent. */
  lemma RunStaysInside(cfg: Config, states: seq<NodeState>, steps: seq<Step>, i: nat, m: nat, n: nat)
    requires ValidConfig(cfg) && ClearState(cfg, states, steps, i)
    requires m < |states[i].chain.blocks| && n < |TxsOf(states[i].chain.blocks[m].data)|
    ensures var bs := states[i].chain.blocks;
            var ts := TxsOf(bs[m].data);
            !UpdateOverruns(UpdatedAll(Replay(bs[..m]), ts[..n]), ts[n])
  {
    hide OrderlyChain, ChainTraced, CleanInv, UpdateOverruns, UpdatedAll, Replay, Applicable, LedgerInv;
    var bs := states[i].chain.blocks;
    ClearLedger(cfg, states, steps, i);
    var upto := bs[..m + 1];
    assert upto[..|upto| - 1] == bs[..m] && upto[|upto| - 1] == bs[m];
    OrderlyPrefix(bs, m + 1);
    ChainTracedPrefix(bs, m + 1);
    TracedApplicable(upto);
    HasOutput(cfg, states[i], m, n);
    BlockStaysInside(Replay(bs[..m]), TxsOf(bs[m].data), n);
  }

  lemma HasOutput(cfg: Config, s: NodeState, m: nat, n: nat)
    requires CleanInv(cfg, s) && m < |s.chain.blocks| && n < |TxsOf(s.chain.blocks[m].data)|
    ensures TxsOf(s.chain.blocks[m].data)[n].outputs != []
  {
    hide PoolInv, PoolValid, Replay;
    var b := s.chain.blocks[m];
    assert BlockOk(cfg, b, s.clock) && CleanList(TxsOf(b.data));
    assert ListedOk(cfg, TxsOf(b.data), b.index, n) && CleanTx(TxsOf(b.data)[n]);
  }
}
