/** Building blocks for concrete runs: steps that succeed, chains of rewards, and a run that spends
    the first reward. */
module Scenarios {
  import opened Options
  import opened Records
  import opened Digests
  import opened Validity
  import opened Unspent
  import opened Ledger
  import opened Pools
  import opened Blocks
  import opened Nodes
  import opened Runs
  import opened Soundness

  // ---------- the setting ----------

  /** A configuration and a wallet: an address and the function that signs for it. */
  datatype Scene = Scene(cfg: Config, owner: string, sign: Digest -> Digest)

  /** Any build without proof of work that pools two transactions, and a key pair that works. */
  ghost predicate ValidScene(w: Scene) {
    && ValidConfig(w.cfg) && !w.cfg.pow && w.cfg.numPerBlock >= 2 && w.cfg.rewardAmount + 1 < SIZE_T_RANGE
    && w.owner != "" && forall h :: w.cfg.verify(w.owner, h, w.sign(h))
  }

  /** The only thing asked of the hash function: these transactions have different hashes. */
  predicate Distinct(ts: seq<Tx>) {
    forall i, j :: 0 <= i < j < |ts| ==> ts[i].hash != ts[j].hash
  }

  /** Transactions from such a list do not collide. */
  lemma OneOf(txs: set<Tx>, list: seq<Tx>)
    requires Distinct(list) && forall t :: t in txs ==> exists i :: 0 <= i < |list| && SameUpToLinks(t, list[i])
    ensures CollisionFree(txs)
  {
    forall t, s | t in txs && s in txs && t.hash == s.hash
      ensures SameContent(t, s)
    {
      var i :| 0 <= i < |list| && SameUpToLinks(t, list[i]);
      var j :| 0 <= j < |list| && SameUpToLinks(s, list[j]);
      assert i == j;
    }
  }

  predicate SameUpToLinks(t: Tx, s: Tx) {
    t.(snapshot := []) == s.(snapshot := [])
  }

  // ---------- transactions ----------

  /** The reward in block `i`, and its key. */
  function OwnReward(w: Scene, i: nat): Tx {
    RewardTx(w.cfg, w.owner, i)
  }

  function Coin(w: Scene, i: nat): Key {
    Key(OwnReward(w, i).hash, 0)
  }

  function CoinOutput(w: Scene): TxO {
    TxO(w.cfg.rewardAmount, w.owner)
  }

  /** A transaction of the owner that spends one output. */
  function Spend(w: Scene, index: nat, key: Key, outputs: seq<TxO>): Tx {
    var hash := w.cfg.hash(TxPreimage(index, [TxI(key, [])], outputs));
    Tx(Standard, index, hash, [TxI(key, w.sign(hash))], outputs, [])
  }

  /** Signatures are not hashed. */
  lemma SpendHash(w: Scene, index: nat, key: Key, outputs: seq<TxO>)
    ensures Spend(w, index, key, outputs).hash == TxHash(w.cfg, Spend(w, index, key, outputs))
  {
    var a, b := [TxI(key, [])], Spend(w, index, key, outputs).inputs;
    assert a[1..] == [] && b[1..] == [];
    assert InputsText(a) == InputsText(b);
  }

  lemma SpendInputs(w: Scene, index: nat, key: Key, outputs: seq<TxO>)
    ensures KeySet(Spend(w, index, key, outputs).inputs) == {key}
    ensures outputs != [] ==> CleanTx(Spend(w, index, key, outputs))
  {
    var t := Spend(w, index, key, outputs);
    assert t.inputs[0].key in KeySet(t.inputs);
  }

  /** It validates against any unspent outputs that hold the key once, with a fitting amount. */
  lemma SpendOk(w: Scene, index: nat, key: Key, outputs: seq<TxO>, u: seq<UTxO>)
    requires ValidScene(w) && Matches(u, key) == [UTxO(key, CoinOutput(w))]
    requires OutSum(outputs) % SIZE_T_RANGE == w.cfg.rewardAmount
    ensures TxOk(w.cfg, Spend(w, index, key, outputs).(snapshot := u))
    ensures InSum(u, Spend(w, index, key, outputs).inputs) == w.cfg.rewardAmount
  {
    hide OutSum, TxPreimage;
    var t := Spend(w, index, key, outputs).(snapshot := u);
    SpendHash(w, index, key, outputs);
    assert [UTxO(key, CoinOutput(w))][1..] == [];
    assert t.inputs[..0] == [];
    assert InSum(u, t.inputs) == InSum(u, t.inputs[..0]) + Total(Matches(u, key));
    assert InputOk(w.cfg, t, u, 0);
  }

  /** A payment of one reward. */
  function Pay(w: Scene, to: string): seq<TxO> {
    [TxO(w.cfg.rewardAmount, to)]
  }

  lemma PaySum(w: Scene, to: string)
    ensures OutSum(Pay(w, to)) == w.cfg.rewardAmount == OutSum(Pay(w, to)) % SIZE_T_RANGE
  {
    assert Pay(w, to)[..0] == [];
  }

  lemma MatchesPlus(u: seq<UTxO>, x: UTxO, k: Key)
    ensures Matches(u + [x], k) == Matches(u, k) + (if x.key == k then [x] else [])
  {
    MatchesAppend(u, [x], k);
    MatchesOne(x, k);
  }

  // ---------- steps ----------

  /** What every state on the way satisfies. */
  ghost predicate Good(cfg: Config, s: NodeState) {
    LedgerRunInv(cfg, s) && s.synced
  }

  /** One step of a clean run that mines nothing spent. */
  ghost predicate Goes(cfg: Config, s: NodeState, step: Step, r: NodeState)
    requires ValidConfig(cfg)
  {
    Timed(s, step) && CleanStep(step) && !MinesSpent(cfg, s, step) && r == Next(cfg, s, step)
  }

  lemma GoesKeeps(cfg: Config, s: NodeState, step: Step, r: NodeState)
    requires ValidConfig(cfg) && Goes(cfg, s, step, r) && LedgerRunInv(cfg, s)
    ensures LedgerRunInv(cfg, r)
  {
    hide LedgerRunInv, MinesSpent, Clear, Next, Timed, CleanStep, Admits;
    NextKeepsLedger(cfg, s, step);
  }

  /** `r` is `s` with one more block, made of a reward and the pool. */
  ghost predicate Grew(cfg: Config, s: NodeState, address: string, now: nat, r: NodeState) {
    var ts := [RewardTx(cfg, address, |s.chain.blocks|)] + s.pool;
    && r.pool == [] && r.clock == now && r.synced == s.synced
    && r.chain.blocks != [] && r.chain.blocks == s.chain.blocks + [Last(r.chain.blocks)]
    && TxsOf(Last(r.chain.blocks).data) == ts && r.utxo == UpdatedAll(s.utxo, ts)
  }

  /** Mining succeeds with a pool made for the next block, whatever its snapshots are worth. */
  lemma MineDone(cfg: Config, s: NodeState, address: string, now: nat)
    requires ValidConfig(cfg) && !cfg.pow && BaseInv(cfg, s) && s.clock <= now
    requires forall t :: t in s.pool ==> ForNextBlock(s, t)
    ensures Mined(cfg, s, address, now, []).Done?
  {
    hide BaseInv, Mined;
    MiningSucceedsExactly(cfg, s, address, now, []);
  }

  lemma AfterMiningIs(s: NodeState, ts: seq<Tx>, rest: seq<Tx>, r: Outcome<Chain>)
    requires rest == [] && AfterMining(s, ts, rest, r).Done?
    ensures r.Done?
    ensures AfterMining(s, ts, rest, r).state == s.(chain := r.state, utxo := UpdatedAll(s.utxo, ts), pool := [])
  {
    hide UpdatedAll;
  }

  lemma MinedIs(cfg: Config, s: NodeState, address: string, now: nat)
    requires ValidConfig(cfg) && |s.pool| <= cfg.numPerBlock && Mined(cfg, s, address, now, []).Done?
    ensures var ts := Assembled(cfg, s, address);
            var r := Constructed(cfg, s.chain, Transactions(ts), now, []);
            r.Done? && Mined(cfg, s, address, now, []).state
                    == s.(clock := now, chain := r.state, utxo := UpdatedAll(s.utxo, ts), pool := [])
  {
    hide Constructed, UpdatedAll, Assembled, AfterMining, RewardTx;
    AssembledIs(cfg, s, address);
    var ts := Assembled(cfg, s, address);
    AfterMiningIs(s.(clock := now), ts, s.pool[Min(cfg.numPerBlock, |s.pool|)..],
                  Constructed(cfg, s.chain, Transactions(ts), now, []));
  }

  lemma MineGrows(cfg: Config, s: NodeState, address: string, now: nat)
    requires ValidConfig(cfg) && BaseInv(cfg, s) && s.clock <= now && Mined(cfg, s, address, now, []).Done?
    ensures Grew(cfg, s, address, now, Mined(cfg, s, address, now, []).state)
  {
    hide Mined, Constructed, ValidOrEmpty, DataOk, RewardTx, UpdatedAll, TxOk;
    MinedIs(cfg, s, address, now);
    AssembledIs(cfg, s, address);
    ConstructedExtends(cfg, s.chain, Transactions(Assembled(cfg, s, address)), s.clock, now, []);
  }

  lemma MineStep(cfg: Config, s: NodeState, address: string, now: nat)
    requires ValidConfig(cfg) && s.clock <= now && PoolUnspent(s)
    ensures Goes(cfg, s, MineBlock(address, now, []), Mined(cfg, s, address, now, []).state)
  {
    hide Mined;
  }

  lemma MineGoes(cfg: Config, s: NodeState, address: string, now: nat) returns (r: NodeState)
    requires ValidConfig(cfg) && !cfg.pow && Good(cfg, s) && s.clock <= now && PoolUnspent(s)
    requires forall t :: t in s.pool ==> ForNextBlock(s, t)
    ensures Goes(cfg, s, MineBlock(address, now, []), r) && Good(cfg, r) && Grew(cfg, s, address, now, r)
    ensures Mined(cfg, s, address, now, []) == Done(r)
  {
    hide Mined, BaseInv, PoolInv, Goes, CleanChain, HasTraces, PoolUnspent, RewardTx, UpdatedAll;
    MineDone(cfg, s, address, now);
    MineGrows(cfg, s, address, now);
    MineStep(cfg, s, address, now);
    r := Mined(cfg, s, address, now, []).state;
    GoesKeeps(cfg, s, MineBlock(address, now, []), r);
  }

  lemma PostTaken(cfg: Config, s: NodeState, t: Tx)
    requires t.snapshot == [] && TxOk(cfg, t.(snapshot := s.utxo)) && |s.pool| < cfg.numPerBlock
    requires !SharesInput(s.pool, t.(snapshot := s.utxo))
    ensures TransactionTaken(cfg, s, TxToJson(t)) == Done(s.(pool := s.pool + [t.(snapshot := s.utxo)]))
  {
    hide TxOk, SharesInput;
    TxRoundTrip(t);
    assert t.(snapshot := []) == t;
  }

  lemma PostStep(cfg: Config, s: NodeState, t: Tx)
    requires ValidConfig(cfg) && CleanTx(t)
    ensures Goes(cfg, s, TakeTransaction(TxToJson(t)), TransactionTaken(cfg, s, TxToJson(t)).state)
  {
    hide TransactionTaken;
    TxRoundTrip(t);
  }

  /** Posting a transaction that spends one unspent reward nobody in the pool spends. */
  lemma PostGoes(w: Scene, s: NodeState, index: nat, key: Key, outputs: seq<TxO>) returns (r: NodeState)
    requires ValidScene(w) && Good(w.cfg, s) && |s.pool| < w.cfg.numPerBlock && outputs != []
    requires Matches(s.utxo, key) == [UTxO(key, CoinOutput(w))]
    requires OutSum(outputs) % SIZE_T_RANGE == w.cfg.rewardAmount
    requires forall t :: t in s.pool ==> key !in KeySet(t.inputs)
    ensures Goes(w.cfg, s, TakeTransaction(TxToJson(Spend(w, index, key, outputs))), r) && Good(w.cfg, r)
    ensures r == s.(pool := s.pool + [Spend(w, index, key, outputs).(snapshot := s.utxo)])
    ensures PoolUnspent(s) ==> PoolUnspent(r)
  {
    hide TransactionTaken, Goes, LedgerRunInv, TxToJson, TxOk, OutSum, Matches, PoolUnspent;
    var t := Spend(w, index, key, outputs);
    r := s.(pool := s.pool + [t.(snapshot := s.utxo)]);
    SpendInputs(w, index, key, outputs);
    SpendOk(w, index, key, outputs, s.utxo);
    assert !SharesInput(s.pool, t.(snapshot := s.utxo));
    PostTaken(w.cfg, s, t);
    PostStep(w.cfg, s, t);
    GoesKeeps(w.cfg, s, TakeTransaction(TxToJson(t)), r);
    if PoolUnspent(s) { TransactionKeepsUnspent(w.cfg, s, TxToJson(t)); }
  }

  // ---------- runs ----------

  lemma RunSnoc(cfg: Config, states: seq<NodeState>, steps: seq<Step>, step: Step)
    requires ValidConfig(cfg) && Run(cfg, states, steps) && Timed(states[|steps|], step)
    ensures Run(cfg, states + [Next(cfg, states[|steps|], step)], steps + [step])
  {
    hide Next, Timed;
    var more, all := states + [Next(cfg, states[|steps|], step)], steps + [step];
    forall i | 0 <= i < |all|
      ensures StepAt(cfg, more, all, i)
    {
      if i < |steps| { assert StepAt(cfg, states, steps, i); }
    }
  }

  lemma CleanRunSnoc(cfg: Config, states: seq<NodeState>, steps: seq<Step>, step: Step)
    requires ValidConfig(cfg) && CleanRun(cfg, states, steps) && Timed(states[|steps|], step) && CleanStep(step)
    ensures CleanRun(cfg, states + [Next(cfg, states[|steps|], step)], steps + [step])
  {
    hide Next, Timed, StepAt, CleanStep, Admits;
    RunSnoc(cfg, states, steps, step);
    var more, all := states + [Next(cfg, states[|steps|], step)], steps + [step];
    forall i | 0 <= i < |all|
      ensures CleanAt(cfg, more[i], all[i])
    {
      if i < |steps| { assert CleanAt(cfg, states[i], steps[i]); }
    }
  }

  /** A clean run in which nothing spent is ever mined. */
  ghost predicate GoodRun(cfg: Config, states: seq<NodeState>, steps: seq<Step>)
    requires ValidConfig(cfg)
  {
    CleanRun(cfg, states, steps) && forall r :: 0 <= r < |steps| ==> !MinesSpent(cfg, states[r], steps[r])
  }

  lemma GoodRunSnoc(cfg: Config, states: seq<NodeState>, steps: seq<Step>, step: Step, r: NodeState)
    requires ValidConfig(cfg) && GoodRun(cfg, states, steps) && Goes(cfg, states[|steps|], step, r)
    ensures GoodRun(cfg, states + [r], steps + [step])
  {
    hide Next, Timed, StepAt, CleanStep, CleanAt, MinesSpent;
    CleanRunSnoc(cfg, states, steps, step);
  }

  lemma GoodIsSound(cfg: Config, states: seq<NodeState>, steps: seq<Step>, i: nat)
    requires ValidConfig(cfg) && GoodRun(cfg, states, steps) && i < |states| && Clear(states[i])
    ensures SoundState(cfg, states, steps, i)
  {
    hide Clear, StepAt, CleanAt, MinesSpent, Replaces;
  }

  // ---------- chains of rewards ----------

  function Coins(w: Scene, n: nat): seq<UTxO> {
    if n == 0 then [] else Coins(w, n - 1) + [UTxO(Coin(w, n - 1), CoinOutput(w))]
  }

  function RewardTxs(w: Scene, n: nat): seq<Tx> {
    seq(n, i requires 0 <= i < n => OwnReward(w, i))
  }

  lemma CoinsDiffer(w: Scene, n: nat, i: nat, j: nat)
    requires Distinct(RewardTxs(w, n)) && i < n && j < n && i != j
    ensures Coin(w, i) != Coin(w, j)
  {
    hide OwnReward;
    var ts := RewardTxs(w, n);
    assert ts[i] == OwnReward(w, i) && ts[j] == OwnReward(w, j);
    if i < j { assert ts[i].hash != ts[j].hash; } else { assert ts[j].hash != ts[i].hash; }
  }

  lemma {:induction false} CoinsHold(w: Scene, n: nat, m: nat, i: nat)
    requires Distinct(RewardTxs(w, n)) && m <= n && i < n
    ensures Matches(Coins(w, m), Coin(w, i)) == if i < m then [UTxO(Coin(w, i), CoinOutput(w))] else []
  {
    hide Distinct, Coin;
    if m > 0 {
      CoinsHold(w, n, m - 1, i);
      if i != m - 1 { CoinsDiffer(w, n, i, m - 1); }
      MatchesPlus(Coins(w, m - 1), UTxO(Coin(w, m - 1), CoinOutput(w)), Coin(w, i));
    }
  }

  predicate RewardBlocks(w: Scene, bs: seq<Block>) {
    forall i :: 0 <= i < |bs| ==> TxsOf(bs[i].data) == [OwnReward(w, i)]
  }

  /** A node that has mined `n` blocks and done nothing else. */
  ghost predicate Rewards(w: Scene, s: NodeState, n: nat) {
    && Good(w.cfg, s) && s.pool == [] && s.clock == n && s.utxo == Coins(w, n)
    && |s.chain.blocks| == n && RewardBlocks(w, s.chain.blocks)
  }

  lemma RewardAdds(w: Scene, u: seq<UTxO>, n: nat)
    ensures UpdatedAll(u, [OwnReward(w, n)]) == u + [UTxO(Coin(w, n), CoinOutput(w))]
  {
    hide TxHash;
    var t := OwnReward(w, n);
    assert [t][..0] == [] && t.outputs[..0] == [];
    assert UpdatedAll(u, [t]) == Updated(u, t);
    assert NewOutputs(t.hash, t.outputs) == [UTxO(Key(t.hash, 0), t.outputs[0])];
  }

  lemma RewardBlocksSnoc(w: Scene, bs: seq<Block>, b: Block)
    requires RewardBlocks(w, bs) && TxsOf(b.data) == [OwnReward(w, |bs|)]
    ensures RewardBlocks(w, bs + [b])
  {
    hide OwnReward, TxsOf;
    var r := bs + [b];
    forall i | 0 <= i < |r|
      ensures TxsOf(r[i].data) == [OwnReward(w, i)]
    {
      if i < |bs| { assert r[i] == bs[i]; }
    }
  }

  lemma GrewReward(w: Scene, s: NodeState, n: nat, r: NodeState)
    requires Rewards(w, s, n) && Good(w.cfg, r) && Grew(w.cfg, s, w.owner, n + 1, r)
    ensures Rewards(w, r, n + 1)
  {
    hide Good, UpdatedAll, RewardTx, RewardBlocks, TxsOf;
    assert [OwnReward(w, n)] + s.pool == [OwnReward(w, n)];
    RewardAdds(w, s.utxo, n);
    RewardBlocksSnoc(w, s.chain.blocks, Last(r.chain.blocks));
  }

  lemma RewardsGo(w: Scene, s: NodeState, n: nat) returns (r: NodeState)
    requires ValidScene(w) && Rewards(w, s, n)
    ensures Goes(w.cfg, s, MineBlock(w.owner, n + 1, []), r) && Rewards(w, r, n + 1)
  {
    hide Good, Goes, Grew, Mined, RewardBlocks;
    r := MineGoes(w.cfg, s, w.owner, n + 1);
    GrewReward(w, s, n, r);
  }

  lemma RewardsStart(w: Scene)
    requires ValidScene(w)
    ensures Rewards(w, Start(w.cfg), 0) && GoodRun(w.cfg, [Start(w.cfg)], [])
  {
    StartIsClean(w.cfg);
  }

  lemma {:induction false} RewardRun(w: Scene, n: nat) returns (states: seq<NodeState>, steps: seq<Step>)
    requires ValidScene(w)
    ensures GoodRun(w.cfg, states, steps) && |steps| == n && |states| == n + 1 && Rewards(w, states[n], n)
  {
    hide Rewards, GoodRun, Goes;
    if n == 0 {
      RewardsStart(w);
      states, steps := [Start(w.cfg)], [];
    } else {
      states, steps := RewardRun(w, n - 1);
      var r := RewardsGo(w, states[n - 1], n - 1);
      GoodRunSnoc(w.cfg, states, steps, MineBlock(w.owner, n, []), r);
      states, steps := states + [r], steps + [MineBlock(w.owner, n, [])];
    }
  }

  lemma {:induction false} RewardChain(w: Scene, bs: seq<Block>, t: Tx) returns (i: nat)
    requires RewardBlocks(w, bs) && t in ChainTxs(bs)
    ensures i < |bs| && t == OwnReward(w, i)
  {
    var n := |bs| - 1;
    if t in ChainTxs(bs[..n]) { i := RewardChain(w, bs[..n], t); } else { i := n; }
  }

  lemma RewardsCollisionFree(w: Scene, bs: seq<Block>)
    requires RewardBlocks(w, bs) && Distinct(RewardTxs(w, |bs|))
    ensures CollisionFree(ChainTxs(bs))
  {
    hide RewardBlocks, ChainTxs, OwnReward, CollisionFree;
    var list := RewardTxs(w, |bs|);
    forall t | t in ChainTxs(bs)
      ensures exists i :: 0 <= i < |list| && SameUpToLinks(t, list[i])
    {
      var i := RewardChain(w, bs, t);
      assert SameUpToLinks(t, list[i]);
    }
    OneOf(ChainTxs(bs), list);
  }

  lemma RewardsReplay(w: Scene, s: NodeState, n: nat)
    requires Rewards(w, s, n)
    ensures s.utxo == Replay(s.chain.blocks) && ValidOrEmpty(w.cfg, s.chain.blocks, n)
  {
  }

  lemma RewardsLength(w: Scene, s: NodeState, n: nat)
    requires Rewards(w, s, n)
    ensures |s.chain.blocks| == n && s.clock == n && s.utxo == Coins(w, n)
  {
  }

  // ---------- blocks on top ----------

  /** A block mined on a state of a clean run can be applied to its unspent outputs. */
  lemma GrewApplicable(cfg: Config, s: NodeState, address: string, now: nat, r: NodeState)
    requires Good(cfg, s) && Good(cfg, r) && Grew(cfg, s, address, now, r)
    requires CollisionFree(ChainTxs(r.chain.blocks))
    ensures Applicable(s.utxo, TxsOf(Last(r.chain.blocks).data))
    ensures LedgerInv(s.chain.blocks) && LedgerInv(r.chain.blocks)
    ensures s.utxo == Replay(s.chain.blocks) && r.utxo == Replay(r.chain.blocks)
  {
    hide UpdatedAll, RewardTx, CollisionFree, CleanChain, PoolInv, PoolValid, ValidOrEmpty, Applicable, LedgerInv,
         OrderlyChain, ChainTraced;
    var bs := r.chain.blocks;
    assert bs[..|bs| - 1] == s.chain.blocks && s.utxo == Replay(s.chain.blocks);
    ClearIsOrderly(cfg, r);
    TracedApplicable(bs);
  }

  lemma GrewTxs(cfg: Config, s: NodeState, address: string, now: nat, r: NodeState, t: Tx)
    requires Grew(cfg, s, address, now, r) && t in ChainTxs(r.chain.blocks)
    ensures t in ChainTxs(s.chain.blocks) || t == RewardTx(cfg, address, |s.chain.blocks|) || t in s.pool
  {
    hide UpdatedAll, RewardTx;
    ReplaySnoc(s.chain.blocks, Last(r.chain.blocks));
  }

  // ---------- a run that spends the first reward ----------

  /** The outputs fit the coins of one reward, modulo 2^64. */
  predicate Fitting(w: Scene, outputs: seq<TxO>) {
    outputs != [] && OutSum(outputs) % SIZE_T_RANGE == w.cfg.rewardAmount
  }

  function Second(w: Scene, outputs: seq<TxO>): Tx {
    Spend(w, 1, Coin(w, 0), outputs)
  }

  /** The transactions of the run. */
  function SpendTxs(w: Scene, outputs: seq<TxO>): seq<Tx> {
    [OwnReward(w, 0), OwnReward(w, 1), Second(w, outputs)]
  }

  ghost predicate Spent(w: Scene, s: NodeState, outputs: seq<TxO>, p: NodeState, r: NodeState) {
    && Rewards(w, s, 1) && Good(w.cfg, p) && p == s.(pool := [Second(w, outputs).(snapshot := s.utxo)])
    && Good(w.cfg, r) && Grew(w.cfg, p, w.owner, 2, r)
  }

  lemma OneCoin(w: Scene)
    ensures Coins(w, 1) == [UTxO(Coin(w, 0), CoinOutput(w))]
    ensures Matches(Coins(w, 1), Coin(w, 0)) == [UTxO(Coin(w, 0), CoinOutput(w))]
    ensures Total(Coins(w, 1)) == w.cfg.rewardAmount
  {
    hide Coin;
    var x := UTxO(Coin(w, 0), CoinOutput(w));
    assert Coins(w, 1) == Coins(w, 0) + [x] == [x] && [x][1..] == [];
    MatchesOne(x, Coin(w, 0));
    assert Total([x]) == x.output.amount + Total([x][1..]);
  }

  lemma SpendFor(w: Scene, s: NodeState, index: nat, key: Key, outputs: seq<TxO>, u: seq<UTxO>)
    requires |s.chain.blocks| == index
    ensures ForNextBlock(s, Spend(w, index, key, outputs).(snapshot := u))
  {
  }

  lemma SpendGoes(w: Scene, s: NodeState, outputs: seq<TxO>) returns (p: NodeState, r: NodeState)
    requires ValidScene(w) && Rewards(w, s, 1) && Fitting(w, outputs)
    ensures Goes(w.cfg, s, TakeTransaction(TxToJson(Second(w, outputs))), p)
    ensures Goes(w.cfg, p, MineBlock(w.owner, 2, []), r) && Spent(w, s, outputs, p, r)
  {
    hide Good, Goes, Grew, Mined, Matches, KeySet, RewardBlocks, Spend, OutSum, Coins, TxToJson, AllUnspent;
    OneCoin(w);
    p := PostGoes(w, s, 1, Coin(w, 0), outputs);
    assert p.pool == [Second(w, outputs).(snapshot := s.utxo)];
    SpendFor(w, p, 1, Coin(w, 0), outputs, s.utxo);
    r := MineGoes(w.cfg, p, w.owner, 2);
  }

  lemma SpentCollisionFree(w: Scene, s: NodeState, outputs: seq<TxO>, p: NodeState, r: NodeState)
    requires Spent(w, s, outputs, p, r) && Distinct(SpendTxs(w, outputs))
    ensures CollisionFree(ChainTxs(r.chain.blocks))
  {
    hide Good, Grew, RewardBlocks, RewardTx, Spend, CollisionFree, ChainTxs, Distinct;
    var list := SpendTxs(w, outputs);
    forall t | t in ChainTxs(r.chain.blocks)
      ensures exists i :: 0 <= i < |list| && SameUpToLinks(t, list[i])
    {
      GrewTxs(w.cfg, p, w.owner, 2, r, t);
      if t in ChainTxs(s.chain.blocks) {
        var i := RewardChain(w, s.chain.blocks, t);
        assert SameUpToLinks(t, list[0]);
      } else if t in p.pool {
        assert SameUpToLinks(t, list[2]);
      } else {
        assert SameUpToLinks(t, list[1]);
      }
    }
    OneOf(ChainTxs(r.chain.blocks), list);
  }

  lemma SpentList(w: Scene, s: NodeState, outputs: seq<TxO>, p: NodeState, r: NodeState)
    requires Spent(w, s, outputs, p, r)
    ensures |p.pool| == 1 && p.utxo == s.utxo == Coins(w, 1) && |s.chain.blocks| == 1
    ensures |r.chain.blocks| == 2 && r.chain.blocks[..1] == s.chain.blocks && r.clock == 2 && r.synced
    ensures TxsOf(Last(r.chain.blocks).data) == [OwnReward(w, 1), p.pool[0]]
    ensures r.utxo == UpdatedAll(s.utxo, TxsOf(Last(r.chain.blocks).data))
  {
    hide LedgerRunInv, RewardTx, UpdatedAll, Spend, Coins, RewardBlocks;
  }

  lemma SpentApplicable(w: Scene, s: NodeState, outputs: seq<TxO>, p: NodeState, r: NodeState)
    requires Spent(w, s, outputs, p, r) && Distinct(SpendTxs(w, outputs))
    ensures r.chain.blocks != [] && Applicable(s.utxo, TxsOf(Last(r.chain.blocks).data))
    ensures LedgerInv(s.chain.blocks) && s.utxo == Replay(s.chain.blocks) && r.utxo == Replay(r.chain.blocks)
  {
    hide Good, Grew, Applicable, LedgerInv, RewardBlocks, Distinct;
    SpentList(w, s, outputs, p, r);
    SpentCollisionFree(w, s, outputs, p, r);
    GrewApplicable(w.cfg, p, w.owner, 2, r);
  }

  lemma SpentLookup(w: Scene, s: NodeState, outputs: seq<TxO>, p: NodeState, r: NodeState)
    requires Spent(w, s, outputs, p, r) && Distinct(SpendTxs(w, outputs)) && outputs != []
    ensures Originates(r.chain.blocks, Coin(w, 0).hash) && Matches(Replay(r.chain.blocks), Coin(w, 0)) == []
    ensures r.utxo == Replay(r.chain.blocks)
    ensures var k := Key(Second(w, outputs).hash, 0); Matches(r.utxo, k) == [UTxO(k, outputs[0])]
  {
    hide Good, Grew, Applicable, RewardBlocks, RewardTx, Matches, UpdatedAll, Originates, Distinct, Replay, Coins;
    SpentList(w, s, outputs, p, r);
    SpentApplicable(w, s, outputs, p, r);
    var bs, ts := r.chain.blocks, TxsOf(Last(r.chain.blocks).data);
    SpendInputs(w, 1, Coin(w, 0), outputs);
    assert Coin(w, 0) in KeySet(ts[1].inputs);
    BlockApplies(s.utxo, ts);
    BlockCreates(s.utxo, ts, 1, 0);
    OneCoin(w);
    assert Originates(s.chain.blocks, Coin(w, 0).hash);
    OriginatesPrefix(bs, Coin(w, 0).hash);
  }

  lemma OriginatesPrefix(bs: seq<Block>, h: Digest)
    requires bs != [] && Originates(bs[..|bs| - 1], h)
    ensures Originates(bs, h)
  {
    ChainTxsPrefix(bs, |bs| - 1);
  }

  /** The run: one reward, a transaction that spends it, and the block with that transaction. */
  lemma SpendRun(w: Scene, outputs: seq<TxO>) returns (states: seq<NodeState>, steps: seq<Step>)
    requires ValidScene(w) && Fitting(w, outputs) && Distinct(SpendTxs(w, outputs))
    ensures |states| == 4 && |steps| == 3 && GoodRun(w.cfg, states, steps) && SoundState(w.cfg, states, steps, 3)
    ensures Spent(w, states[1], outputs, states[2], states[3])
  {
    hide Rewards, GoodRun, Goes, Spent, Fitting, ChainTxs, CollisionFree, Second, SoundState, Distinct;
    states, steps := RewardRun(w, 1);
    var p, r := SpendGoes(w, states[1], outputs);
    var post, mine := TakeTransaction(TxToJson(Second(w, outputs))), MineBlock(w.owner, 2, []);
    GoodRunSnoc(w.cfg, states, steps, post, p);
    GoodRunSnoc(w.cfg, states + [p], steps + [post], mine, r);
    SpentCollisionFree(w, states[1], outputs, p, r);
    SpentList(w, states[1], outputs, p, r);
    states, steps := states + [p] + [r], steps + [post] + [mine];
    GoodIsSound(w.cfg, states, steps, 3);
  }

  lemma SpentChain(w: Scene, s: NodeState, outputs: seq<TxO>, p: NodeState, r: NodeState)
    requires Spent(w, s, outputs, p, r)
    ensures |r.chain.blocks| == 2 && r.clock == 2 && ChainOk(w.cfg, r.chain.blocks, 2)
    ensures !SpendsNothing(TxsOf(r.chain.blocks[1].data))
  {
    hide RewardTx, UpdatedAll, ChainOk, SpendsNothing, CleanChain, PoolInv, HasTraces, Coins, RewardBlocks;
    SpentList(w, s, outputs, p, r);
    assert r.chain.blocks[1] == Last(r.chain.blocks);
    assert TxsOf(r.chain.blocks[1].data)[1].inputs != [];
    SpenderSpends(TxsOf(r.chain.blocks[1].data), 1);
  }

  lemma SpenderSpends(ts: seq<Tx>, i: nat)
    requires i < |ts| && ts[i].kind.Standard? && ts[i].inputs != []
    ensures !SpendsNothing(ts)
  {
  }
}
