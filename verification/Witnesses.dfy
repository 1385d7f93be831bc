/** Runs in which the properties that need a condition fail without it. */
module Witnesses {
  import opened Options
  import opened Records
  import opened Digests
  import opened Difficulty
  import opened Validity
  import opened Unspent
  import opened Ledger
  import opened Pools
  import opened Blocks
  import opened Nodes
  import opened Runs
  import opened Soundness
  import opened Consensus
  import opened Scenarios

  // ---------- a settled transfer blocks replacement ----------

  /** A run settles a payment, and from then on an empty node refuses its chain. */
  lemma TransferChainRefused(w: Scene, to: string) returns (states: seq<NodeState>, steps: seq<Step>)
    requires ValidScene(w) && Distinct(SpendTxs(w, Pay(w, to)))
    ensures |states| == 4 && SoundState(w.cfg, states, steps, 3)
    ensures var k := Key(Second(w, Pay(w, to)).hash, 0);
            Matches(states[3].utxo, k) == [UTxO(k, Pay(w, to)[0])]
    ensures ChainTaken(w.cfg, Start(w.cfg), BlocksToJson(states[3].chain.blocks), 2)
         == Thrown(Start(w.cfg).(clock := 2))
  {
    hide SoundState, Spent, Matches, ChainOk, SpendsNothing, ChainTaken, Second, Better, Distinct, GoodRun, OutSum;
    PaySum(w, to);
    states, steps := SpendRun(w, Pay(w, to));
    SpentLookup(w, states[1], Pay(w, to), states[2], states[3]);
    SpentChain(w, states[1], Pay(w, to), states[2], states[3]);
    Refused(w.cfg, states[3].chain.blocks, Start(w.cfg), 2, 1);
  }

  lemma Refused(cfg: Config, bs: seq<Block>, s: NodeState, now: nat, i: nat)
    requires ValidConfig(cfg) && ChainOk(cfg, bs, now) && i < |bs| && !SpendsNothing(TxsOf(bs[i].data))
    ensures ChainTaken(cfg, s, BlocksToJson(bs), now) == Thrown(s.(clock := now))
  {
    hide ChainOk, SpendsNothing, Better, WorkOk;
    assert !ChainSpendsNothing(bs);
    CatchUpExactly(cfg, bs, s, now);
  }

  // ---------- supply ----------

  /** Outputs whose sum wraps around to one reward. */
  function Wrapping(w: Scene): seq<TxO>
    requires w.cfg.rewardAmount + 1 < SIZE_T_RANGE
  {
    [TxO(SIZE_T_RANGE - 1, w.owner), TxO(w.cfg.rewardAmount + 1, w.owner)]
  }

  lemma WrapFits(w: Scene)
    requires w.cfg.rewardAmount + 1 < SIZE_T_RANGE
    ensures Fitting(w, Wrapping(w)) && OutSum(Wrapping(w)) == SIZE_T_RANGE + w.cfg.rewardAmount
  {
    var outputs := Wrapping(w);
    assert outputs[..1] == [outputs[0]] && [outputs[0]][..0] == [];
    assert OutSum([outputs[0]]) == SIZE_T_RANGE - 1;
    assert OutSum(outputs) == OutSum(outputs[..1]) + outputs[1].amount;
  }

  lemma ListSums(ts: seq<Tx>, u: seq<UTxO>)
    requires |ts| == 2
    ensures OutSumAll(ts) == OutSum(ts[0].outputs) + OutSum(ts[1].outputs)
    ensures InSumAll(u, ts) == InSum(u, ts[0].inputs) + InSum(u, ts[1].inputs)
  {
    hide OutSum, InSum;
    var p := ts[..1];
    assert p[..0] == [] && p[0] == ts[0] && ts[..|ts| - 1] == p;
    assert OutSumAll(p) == OutSumAll(p[..0]) + OutSum(p[0].outputs);
    assert InSumAll(u, p) == InSumAll(u, p[..0]) + InSum(u, p[0].inputs);
  }

  lemma RewardSums(w: Scene, u: seq<UTxO>, index: nat)
    ensures OutSum(OwnReward(w, index).outputs) == w.cfg.rewardAmount && InSum(u, OwnReward(w, index).inputs) == 0
  {
    hide TxHash;
    assert OwnReward(w, index).outputs[..0] == [];
  }

  lemma SpentTotals(w: Scene, s: NodeState, outputs: seq<TxO>, p: NodeState, r: NodeState)
    requires ValidScene(w) && Spent(w, s, outputs, p, r) && Fitting(w, outputs) && Distinct(SpendTxs(w, outputs))
    ensures Total(r.utxo) == w.cfg.rewardAmount + OutSum(outputs)
  {
    hide Good, Grew, Applicable, RewardBlocks, OwnReward, UpdatedAll, OutSum, InSum, Total, Matches, Distinct,
         Coins;
    SpentList(w, s, outputs, p, r);
    SpentApplicable(w, s, outputs, p, r);
    var ts := TxsOf(Last(r.chain.blocks).data);
    BlockApplies(s.utxo, ts);
    ListSums(ts, s.utxo);
    RewardSums(w, s.utxo, 1);
    OneCoin(w);
    SpendOk(w, 1, Coin(w, 0), outputs, s.utxo);
  }

  lemma TwoRewarded(bs: seq<Block>)
    requires |bs| == 2 && TxsOf(bs[0].data) != [] && TxsOf(bs[1].data) != []
    ensures Rewarded(bs) == 2
  {
    var p := bs[..1];
    assert p[..0] == [] && p[0] == bs[0] && bs[..|bs| - 1] == p;
    assert Rewarded(p) == Rewarded(p[..0]) + 1;
  }

  lemma SpentRewarded(w: Scene, s: NodeState, outputs: seq<TxO>, p: NodeState, r: NodeState)
    requires Spent(w, s, outputs, p, r)
    ensures Rewarded(r.chain.blocks) == 2
    ensures OutSum(outputs) >= SIZE_T_RANGE ==> !SmallOutputs(r.chain.blocks)
  {
    hide Good, Grew, RewardTx, UpdatedAll, OutSum, Rewarded;
    SpentList(w, s, outputs, p, r);
    var bs := r.chain.blocks;
    assert bs[0] == s.chain.blocks[0] && bs[1] == Last(bs);
    TwoRewarded(bs);
    assert TxsOf(bs[1].data)[1].outputs == outputs;
  }

  /** With outputs that wrap around, the same run ends with 2^64 coins too many. */
  lemma SupplyBroken(w: Scene) returns (states: seq<NodeState>, steps: seq<Step>)
    requires ValidScene(w) && Distinct(SpendTxs(w, Wrapping(w)))
    ensures |states| == 4 && SoundState(w.cfg, states, steps, 3) && Rewarded(states[3].chain.blocks) == 2
    ensures Total(states[3].utxo) == 2 * w.cfg.rewardAmount + SIZE_T_RANGE
    ensures !SmallOutputs(states[3].chain.blocks)
  {
    hide SoundState, Spent, Fitting, OutSum, Total, Rewarded, SmallOutputs, Distinct, GoodRun, Wrapping;
    WrapFits(w);
    states, steps := SpendRun(w, Wrapping(w));
    SpentTotals(w, states[1], Wrapping(w), states[2], states[3]);
    SpentRewarded(w, states[1], Wrapping(w), states[2], states[3]);
  }

  // ---------- replacement brings a spent reward back ----------

  lemma RewardJson(w: Scene, b: Block, i: nat)
    requires TxsOf(b.data) == [OwnReward(w, i)]
    ensures CleanJson(BlockToJson(b)) && SpendsNothing(TxsOf(b.data))
    ensures TxsOf(RelinkBlock(b, []).data) == [OwnReward(w, i)]
  {
    hide TxHash;
    BlockRoundTrip(b);
    RewardTxClean(w.cfg, w.owner, i);
    RelinkClean(TxsOf(b.data), []);
  }

  lemma RewardJsons(w: Scene, bs: seq<Block>, now: nat)
    requires RewardBlocks(w, bs)
    ensures ChainSpendsNothing(bs) && RewardBlocks(w, UnlinkAll(bs)) && CleanStep(TakeChain(BlocksToJson(bs), now))
  {
    hide BlockToJson, OwnReward, CleanJson, SpendsNothing, TxsOf;
    forall i | 0 <= i < |bs|
      ensures CleanJson(BlocksToJson(bs)[i]) && SpendsNothing(TxsOf(bs[i].data))
      ensures TxsOf(UnlinkAll(bs)[i].data) == [OwnReward(w, i)]
    {
      assert TxsOf(bs[i].data) == [OwnReward(w, i)];
      RewardJson(w, bs[i], i);
    }
  }

  /** A node without proof of work takes over a longer valid chain that spends nothing. */
  lemma TakesOver(cfg: Config, bs: seq<Block>, s: NodeState, now: nat)
    requires ValidConfig(cfg) && !cfg.pow && ChainOk(cfg, bs, now) && ChainSpendsNothing(bs)
    requires |s.chain.blocks| < |bs|
    ensures Replaces(cfg, s, TakeChain(BlocksToJson(bs), now))
    ensures ChainTaken(cfg, s, BlocksToJson(bs), now) == Done(NodeState(Rebuilt(cfg, bs), Replay(bs), [], true, now))
  {
    hide ChainTaken, ChainFromJson, ChainOk, ChainSpendsNothing, BlockToJson;
    assert WorkOk(cfg, bs);
    ChainRoundTrip(cfg, bs, now);
    UnlinkedChainOk(cfg, bs, now);
    ReplayFrame(bs);
    assert Better(cfg, Rebuilt(cfg, bs), s.chain);
    Adopted(cfg, s, BlocksToJson(bs), now, Rebuilt(cfg, bs));
  }

  lemma TakeChainStep(cfg: Config, s: NodeState, js: seq<BlockJson>, now: nat)
    requires ValidConfig(cfg) && s.clock <= now && CleanStep(TakeChain(js, now))
    ensures Goes(cfg, s, TakeChain(js, now), ChainTaken(cfg, s, js, now).state)
  {
    hide ChainTaken, CleanStep;
  }

  /** Any node with a shorter chain takes over a chain of rewards. */
  lemma RewardsTaken(w: Scene, q: NodeState, n: nat, s: NodeState) returns (r: NodeState)
    requires ValidScene(w) && Rewards(w, q, n) && |s.chain.blocks| < n && s.clock <= n
    ensures Goes(w.cfg, s, TakeChain(BlocksToJson(q.chain.blocks), n), r)
    ensures Replaces(w.cfg, s, TakeChain(BlocksToJson(q.chain.blocks), n))
    ensures r.utxo == Coins(w, n) && r.synced && |r.chain.blocks| == n && RewardBlocks(w, r.chain.blocks)
  {
    hide Good, Goes, Replaces, ChainTaken, CleanStep, BlockToJson, RewardBlocks, ChainSpendsNothing, ChainOk,
         Replay, Coins;
    var bs := q.chain.blocks;
    RewardsReplay(w, q, n);
    RewardJsons(w, bs, n);
    TakesOver(w.cfg, bs, s, n);
    TakeChainStep(w.cfg, s, BlocksToJson(bs), n);
    r := NodeState(Rebuilt(w.cfg, bs), Replay(bs), [], true, n);
  }

  /** A reward that was created and spent is unspent again after a longer chain that carries it
      has been taken over. */
  lemma SpentRewardReturns(w: Scene, to: string) returns (states: seq<NodeState>, steps: seq<Step>)
    requires ValidScene(w) && Distinct(SpendTxs(w, Pay(w, to))) && Distinct(RewardTxs(w, 3))
    ensures |states| == 5 && SoundState(w.cfg, states, steps, 3) && SoundState(w.cfg, states, steps, 4)
    ensures Originates(states[3].chain.blocks, Coin(w, 0).hash) && Matches(states[3].utxo, Coin(w, 0)) == []
    ensures Replaces(w.cfg, states[3], steps[3]) && Matches(states[4].utxo, Coin(w, 0)) != []
  {
    hide Rewards, GoodRun, Spent, Goes, Matches, ChainTxs, CollisionFree, Replaces, RewardBlocks, Originates,
         Second, Distinct, SoundState, OutSum, Coins, Pay;
    assert Fitting(w, Pay(w, to)) by { PayFits(w, to); }
    var before, earlier := SpendRun(w, Pay(w, to));
    SpentLookup(w, before[1], Pay(w, to), before[2], before[3]);
    SpentChain(w, before[1], Pay(w, to), before[2], before[3]);
    var others, _ := RewardRun(w, 3);
    var r := RewardsTaken(w, others[3], 3, before[3]);
    var step := TakeChain(BlocksToJson(others[3].chain.blocks), 3);
    GoodRunSnoc(w.cfg, before, earlier, step, r);
    RewardsCollisionFree(w, r.chain.blocks);
    CoinsHold(w, 3, 3, 0);
    states, steps := before + [r], earlier + [step];
    assert states[3] == before[3] && states[4] == r && steps[3] == step;
    GoodRunSynced(w.cfg, before, earlier, 3);
    GoodIsSound(w.cfg, states, steps, 3);
    GoodIsSound(w.cfg, states, steps, 4);
  }

  lemma PayFits(w: Scene, to: string)
    ensures Fitting(w, Pay(w, to))
  {
    PaySum(w, to);
  }

  lemma GoodRunSynced(cfg: Config, states: seq<NodeState>, steps: seq<Step>, i: nat)
    requires ValidConfig(cfg) && SoundState(cfg, states, steps, i)
    ensures Clear(states[i])
  {
  }

  // ---------- a block that is ahead ----------

  lemma AheadOffered(w: Scene, q: NodeState)
    requires Rewards(w, q, 2)
    ensures Offered(w.cfg, Start(w.cfg), BlockToJson(q.chain.blocks[1]), 2)
    ensures q.chain.blocks[1].index == 1
    ensures TxsOf(BlockFromJson(BlockToJson(q.chain.blocks[1])).value.data) != []
  {
    hide Good, RewardTx, CollisionFree;
    var bs, b := q.chain.blocks, q.chain.blocks[1];
    RewardsReplay(w, q, 2);
    IndexIsPosition(w.cfg, bs, 2, 1);
    assert BlockOk(w.cfg, b, 2);
    RewardJson(w, b, 1);
    BlockRoundTrip(b);
    UnlinkedBlockOk(w.cfg, b, 2);
    RelinkTwice(b.data, [], []);
    SoleTransaction(OwnReward(w, 1));
  }

  lemma SoleTransaction(t: Tx)
    ensures CollisionFree(ChainTxs([]) + TxSet([t]))
  {
  }

  lemma StartSound(cfg: Config)
    requires ValidConfig(cfg)
    ensures SoundState(cfg, [Start(cfg)], [], 0)
  {
  }

  /** A node with an empty chain takes the second block of another node: its cache then holds an
      output that its chain does not. */
  lemma AheadBlockDesyncs(w: Scene) returns (j: BlockJson)
    requires ValidScene(w)
    ensures var r := BlockTaken(w.cfg, Start(w.cfg), j, true, 2);
            j.index == 1 && r.Done? && r.state.chain.blocks == [] && r.state.utxo != Replay(r.state.chain.blocks)
  {
    hide Rewards, GoodRun, Offered, SoundState, BlockTaken, BlockFromJson;
    var states, _ := RewardRun(w, 2);
    RewardsLength(w, states[2], 2);
    j := BlockToJson(states[2].chain.blocks[1]);
    AheadOffered(w, states[2]);
    StartSound(w.cfg);
    AheadBlockAgreesExactly(w.cfg, [Start(w.cfg)], [], 0, j, 2);
  }

  // ---------- a posted reward transaction ----------

  lemma RewardPosted(cfg: Config, receiver: string)
    requires ValidConfig(cfg) && cfg.numPerBlock > 0
    ensures var t, s := RewardTx(cfg, receiver, 0), Start(cfg);
            TransactionTaken(cfg, s, TxToJson(t)) == Done(s.(pool := [t])) && BaseInv(cfg, s.(pool := [t]))
  {
    hide TransactionTaken, TxHash;
    var t, s := RewardTx(cfg, receiver, 0), Start(cfg);
    RewardTxOk(cfg, receiver, 0);
    RewardTxClean(cfg, receiver, 0);
    assert t.(snapshot := s.utxo) == t && s.pool + [t] == [t];
    PostTaken(cfg, s, t);
  }

  lemma RewardStops(cfg: Config, s: NodeState, t: Tx, address: string, now: nat, readings: seq<nat>)
    requires ValidConfig(cfg) && BaseInv(cfg, s) && s.clock <= now && t in s.pool && t.kind.Reward?
    ensures var r := Mined(cfg, s, address, now, readings); r.Thrown? && r.state.pool == []
  {
    hide Mined, TxOk, ValidOrEmpty;
    MiningSucceedsExactly(cfg, s, address, now, readings);
    MinedPool(cfg, s, address, now, readings);
    assert !ForNextBlock(s, t);
  }

  /** `add` takes a reward transaction; the next mining attempt then throws and loses the pool. */
  lemma PostedRewardStopsMining(cfg: Config, receiver: string, address: string, now: nat, readings: seq<nat>)
    requires ValidConfig(cfg) && cfg.numPerBlock > 0
    ensures var posted := TransactionTaken(cfg, Start(cfg), TxToJson(RewardTx(cfg, receiver, 0)));
            && posted.Done? && |posted.state.pool| == 1
            && Mined(cfg, posted.state, address, now, readings).Thrown?
            && Mined(cfg, posted.state, address, now, readings).state.pool == []
  {
    hide BaseInv, TransactionTaken, Mined;
    RewardPosted(cfg, receiver);
    var t := RewardTx(cfg, receiver, 0);
    RewardStops(cfg, Start(cfg).(pool := [t]), t, address, now, readings);
  }

  // ---------- a neighbour that pruning skips ----------

  /** Two transactions in a pool that spend the first two rewards. */
  function Pair(w: Scene, u: seq<UTxO>, a: string, b: string, later: nat): seq<Tx> {
    [Spend(w, 2, Coin(w, 0), Pay(w, a)).(snapshot := u), Spend(w, later, Coin(w, 1), Pay(w, b)).(snapshot := u)]
  }

  /** The transactions of the run: four rewards, the pair of the waiting node, the pair of its peer. */
  function SkipTxs(w: Scene): seq<Tx> {
    [OwnReward(w, 0), OwnReward(w, 1), OwnReward(w, 2), OwnReward(w, 3)]
    + Pair(w, [], "a", "bb", 3) + Pair(w, [], "ccc", "dddd", 2)
  }

  lemma SkipRewards(w: Scene)
    requires Distinct(SkipTxs(w))
    ensures Distinct(RewardTxs(w, 2))
  {
    hide OwnReward, Pair;
    var ts, rs := SkipTxs(w), RewardTxs(w, 2);
    assert ts[0] == rs[0] && ts[1] == rs[1];
  }

  lemma PairInputs(w: Scene, u: seq<UTxO>, a: string, b: string, later: nat)
    ensures var ts := Pair(w, u, a, b, later);
            KeySet(ts[0].inputs) == {Coin(w, 0)} && KeySet(ts[1].inputs) == {Coin(w, 1)}
  {
    SpendInputs(w, 2, Coin(w, 0), Pay(w, a));
    SpendInputs(w, later, Coin(w, 1), Pay(w, b));
  }

  /** Posting both. */
  lemma PairGoes(w: Scene, q: NodeState, a: string, b: string, later: nat) returns (p: NodeState, r: NodeState)
    requires ValidScene(w) && Rewards(w, q, 2) && Distinct(RewardTxs(w, 2))
    ensures Goes(w.cfg, q, TakeTransaction(TxToJson(Spend(w, 2, Coin(w, 0), Pay(w, a)))), p)
    ensures Goes(w.cfg, p, TakeTransaction(TxToJson(Spend(w, later, Coin(w, 1), Pay(w, b)))), r)
    ensures Good(w.cfg, r) && PoolUnspent(r) && r == q.(pool := Pair(w, q.utxo, a, b, later))
  {
    hide Good, Goes, Matches, KeySet, RewardBlocks, Spend, OutSum, Coins, TxToJson, Distinct, AllUnspent;
    CoinsHold(w, 2, 2, 0);
    CoinsHold(w, 2, 2, 1);
    PaySum(w, a);
    PaySum(w, b);
    SpendInputs(w, 2, Coin(w, 0), Pay(w, a));
    CoinsDiffer(w, 2, 0, 1);
    p := PostGoes(w, q, 2, Coin(w, 0), Pay(w, a));
    var first := Spend(w, 2, Coin(w, 0), Pay(w, a)).(snapshot := q.utxo);
    assert p.pool == [first] && first.inputs == Spend(w, 2, Coin(w, 0), Pay(w, a)).inputs;
    r := PostGoes(w, p, later, Coin(w, 1), Pay(w, b));
    assert r.pool == Pair(w, q.utxo, a, b, later);
  }

  /** The peer has posted its own pair to a node like `q` and mined it. */
  ghost predicate PeerMined(w: Scene, q: NodeState, p: NodeState, r: NodeState) {
    && Rewards(w, q, 2) && Good(w.cfg, p) && p == q.(pool := Pair(w, q.utxo, "ccc", "dddd", 2)) && PoolUnspent(p)
    && Good(w.cfg, r) && Grew(w.cfg, p, w.owner, 3, r)
    && ValidConfig(w.cfg) && !w.cfg.pow && Mined(w.cfg, p, w.owner, 3, []) == Done(r)
  }

  lemma PeerMines(w: Scene, q: NodeState) returns (p: NodeState, r: NodeState)
    requires ValidScene(w) && Rewards(w, q, 2) && Distinct(RewardTxs(w, 2))
    ensures PeerMined(w, q, p, r)
  {
    hide Good, Goes, Grew, Mined, Pair, Matches, KeySet, RewardBlocks, Distinct, PoolUnspent;
    var middle;
    middle, p := PairGoes(w, q, "ccc", "dddd", 2);
    PairNext(w, p, q.utxo, "ccc", "dddd");
    r := MineGoes(w.cfg, p, w.owner, 3);
  }

  lemma PairNext(w: Scene, s: NodeState, u: seq<UTxO>, a: string, b: string)
    requires s.pool == Pair(w, u, a, b, 2) && |s.chain.blocks| == 2
    ensures forall t :: t in s.pool ==> ForNextBlock(s, t)
  {
  }

  lemma PeerList(w: Scene, q: NodeState, p: NodeState, r: NodeState)
    requires PeerMined(w, q, p, r)
    ensures |p.pool| == 2 && p.utxo == q.utxo && r.chain.blocks == q.chain.blocks + [Last(r.chain.blocks)]
    ensures TxsOf(Last(r.chain.blocks).data) == [OwnReward(w, 2), p.pool[0], p.pool[1]]
    ensures r.utxo == UpdatedAll(q.utxo, TxsOf(Last(r.chain.blocks).data))
    ensures r.clock == 3 && r.synced && |r.chain.blocks| == 3 && p.synced && p.clock == 2
  {
    hide LedgerRunInv, RewardTx, UpdatedAll, Mined, Spend, RewardBlocks, Coins, PoolUnspent;
  }

  /** The transactions of the peer's chain are among those of the run, and not the ones of the waiting
      node's next block. */
  predicate PeerTx(w: Scene, t: Tx, i: nat) {
    (i < 3 || i == 6 || i == 7) && SameUpToLinks(t, SkipTxs(w)[i])
  }

  lemma PeerTxs(w: Scene, q: NodeState, p: NodeState, r: NodeState, t: Tx) returns (i: nat)
    requires PeerMined(w, q, p, r) && t in ChainTxs(r.chain.blocks)
    ensures PeerTx(w, t, i)
  {
    hide Good, Grew, Mined, RewardBlocks, RewardTx, Spend, ChainTxs, PoolUnspent, Coins;
    GrewTxs(w.cfg, p, w.owner, 3, r, t);
    if t in ChainTxs(q.chain.blocks) {
      i := RewardChain(w, q.chain.blocks, t);
    } else if t == OwnReward(w, 2) {
      i := 2;
    } else {
      i := if t == p.pool[0] then 6 else 7;
    }
  }

  lemma PeerCollisionFree(w: Scene, q: NodeState, p: NodeState, r: NodeState)
    requires PeerMined(w, q, p, r) && Distinct(SkipTxs(w))
    ensures Clear(r) && Clear(p)
  {
    hide PeerMined, CollisionFree, ChainTxs, Distinct, SameUpToLinks, SkipTxs;
    assert |SkipTxs(w)| == 8 by { SkipLength(w); }
    forall t | t in ChainTxs(r.chain.blocks)
      ensures exists i :: 0 <= i < |SkipTxs(w)| && SameUpToLinks(t, SkipTxs(w)[i])
    {
      var i := PeerTxs(w, q, p, r, t);
    }
    OneOf(ChainTxs(r.chain.blocks), SkipTxs(w));
    PeerList(w, q, p, r);
    assert p.chain.blocks <= r.chain.blocks by { PeerPrefix(w, q, p, r); }
    ClearPrefix(p, r);
  }

  lemma SkipLength(w: Scene)
    ensures |SkipTxs(w)| == 8
  {
  }

  lemma PeerPrefix(w: Scene, q: NodeState, p: NodeState, r: NodeState)
    requires PeerMined(w, q, p, r)
    ensures p.chain.blocks <= r.chain.blocks
  {
    hide Good, Mined, RewardBlocks, Spend, PoolUnspent, UpdatedAll, RewardTx;
  }

  /** The peer's block spends both rewards; its chain knows no other hashes. */
  lemma PeerSpends(w: Scene, q: NodeState, p: NodeState, r: NodeState)
    requires PeerMined(w, q, p, r) && Distinct(SkipTxs(w))
    ensures Matches(r.utxo, Coin(w, 0)) == [] && Matches(r.utxo, Coin(w, 1)) == []
    ensures LedgerInv(r.chain.blocks) && r.utxo == Replay(r.chain.blocks)
  {
    hide LedgerRunInv, Grew, Mined, RewardBlocks, RewardTx, Spend, CollisionFree, ChainTxs, KeySet, Applicable,
         SoundChain, LedgerInv, Matches, UpdatedAll, Distinct, Coins, PoolUnspent, Replay;
    PeerList(w, q, p, r);
    PeerCollisionFree(w, q, p, r);
    PairInputs(w, q.utxo, "ccc", "dddd", 2);
    GrewApplicable(w.cfg, p, w.owner, 3, r);
    var ts := TxsOf(Last(r.chain.blocks).data);
    BlockApplies(q.utxo, ts);
    assert Coin(w, 0) in KeySet(ts[1].inputs) && Coin(w, 1) in KeySet(ts[2].inputs);
    SyncedCache(w.cfg, r);
  }

  lemma SyncedCache(cfg: Config, s: NodeState)
    requires Good(cfg, s)
    ensures s.utxo == Replay(s.chain.blocks)
  {
  }

  lemma {:induction false} ScanKeepsAll<T>(s: seq<T>, del: T -> bool)
    requires forall x :: x in s ==> !del(x)
    ensures Scan(s, del) == s
  {
    if s != [] { ScanKeepsAll(s[1..], del); }
  }

  lemma {:induction false} RemovedNone(pool: seq<Tx>, ts: seq<Tx>)
    requires forall t, s :: t in pool && s in ts ==> t.hash != s.hash
    ensures RemovedAll(pool, ts) == pool
  {
    if ts != [] {
      RemovedNone(pool, ts[..|ts| - 1]);
      ScanKeepsAll(pool, HasHash(ts[|ts| - 1].hash));
    }
  }

  /** A node like `q` whose pool holds another pair, the second one meant for a later block. */
  ghost predicate Waiting(w: Scene, q: NodeState, l: NodeState) {
    Good(w.cfg, l) && l == q.(pool := Pair(w, q.utxo, "a", "bb", 3))
  }

  lemma PairHashes(w: Scene, u: seq<UTxO>)
    requires Distinct(SkipTxs(w))
    ensures var mine, other := Pair(w, u, "a", "bb", 3), Pair(w, u, "ccc", "dddd", 2);
            forall t, s :: t in mine && s in [OwnReward(w, 2)] + other ==> t.hash != s.hash
  {
    hide OwnReward, Spend;
    var ts := SkipTxs(w);
    var mine, other := Pair(w, u, "a", "bb", 3), Pair(w, u, "ccc", "dddd", 2);
    assert ts[4].hash == mine[0].hash && ts[5].hash == mine[1].hash;
    assert ts[6].hash == other[0].hash && ts[7].hash == other[1].hash && ts[2] == OwnReward(w, 2);
  }

  /** The pool after the peer's block: the first is erased, and the second takes its place. Nothing
      in the loop is undefined. */
  lemma PairSkipped(w: Scene, q: NodeState, p: NodeState, r: NodeState, l: NodeState)
    requires PeerMined(w, q, p, r) && Waiting(w, q, l) && r.chain.blocks != [] && Distinct(SkipTxs(w))
    ensures var us := TxsOf(RelinkBlock(Last(r.chain.blocks), l.utxo).data);
            && Applied(l, us).pool == [l.pool[1]] && !PrunesAll(l, us)
            && RemovedAll(l.pool, us) == l.pool && !PruneUndefined(l.pool, UpdatedAll(l.utxo, us))
            && !AllUnspent(r.utxo, l.pool[1])
  {
    hide Good, Grew, Mined, RewardBlocks, RewardTx, Spend, KeySet, UpdatedAll, RemovedAll, Pruned, Matches,
         Distinct, Coins, PoolUnspent, LedgerInv, Replay, AllUnspent, PruneUndefined;
    PeerList(w, q, p, r);
    var tip, u := Last(r.chain.blocks), l.utxo;
    var ts, us := TxsOf(tip.data), TxsOf(RelinkBlock(tip, u).data);
    assert us == Relink(ts, u);
    UpdateIgnoresLinks(u, ts, u);
    assert RemovedAll(l.pool, us) == l.pool by { PairRemoved(w, u, l.pool, us); }
    PeerSpends(w, q, p, r);
    PairInputs(w, u, "a", "bb", 3);
    SpentIsStale(r.utxo, l.pool[0], Coin(w, 0));
    SpentIsStale(r.utxo, l.pool[1], Coin(w, 1));
    PruneSkipsNeighbour(r.utxo, l.pool[0], l.pool[1]);
    assert l.pool == [l.pool[0], l.pool[1]];
    assert Stale(r.utxo)(l.pool[0]) && Stale(r.utxo)(l.pool[0 + 1]);
    assert |l.pool[0].inputs| == 1 by { OneInput(w, u); }
    PairDefined(r.utxo, l.pool);
  }

  lemma PairRemoved(w: Scene, u: seq<UTxO>, pool: seq<Tx>, us: seq<Tx>)
    requires Distinct(SkipTxs(w)) && pool == Pair(w, u, "a", "bb", 3)
    requires us == Relink([OwnReward(w, 2)] + Pair(w, u, "ccc", "dddd", 2), u)
    ensures RemovedAll(pool, us) == pool
  {
    hide Distinct, RemovedAll, Pair, OwnReward;
    PairHashes(w, u);
    var list := [OwnReward(w, 2)] + Pair(w, u, "ccc", "dddd", 2);
    forall t, s | t in pool && s in us
      ensures t.hash != s.hash
    {
      var i :| 0 <= i < |us| && us[i] == s;
      assert s.hash == list[i].hash && list[i] in list;
    }
    RemovedNone(pool, us);
  }

  lemma OneInput(w: Scene, u: seq<UTxO>)
    ensures |Pair(w, u, "a", "bb", 3)[0].inputs| == 1 == |Pair(w, u, "a", "bb", 3)[1].inputs|
  {
  }

  lemma PairDefined(u: seq<UTxO>, pool: seq<Tx>)
    requires |pool| == 2 && !AllUnspent(u, pool[0]) && |pool[0].inputs| == 1
    ensures !PruneUndefined(pool, u)
  {
    hide AllUnspent;
    assert pool[2..] == [] && !PruneUndefined(pool[2..], u);
  }

  lemma SpentIsStale(u: seq<UTxO>, t: Tx, k: Key)
    requires k in KeySet(t.inputs) && Matches(u, k) == []
    ensures !AllUnspent(u, t)
  {
  }

  lemma TipClean(cfg: Config, s: NodeState)
    requires Good(cfg, s) && s.chain.blocks != []
    ensures BlockOk(cfg, Last(s.chain.blocks), s.clock) && CleanJson(BlockToJson(Last(s.chain.blocks)))
  {
    hide PoolInv, HasTraces, BlockOk, PoolValid;
    var tip := Last(s.chain.blocks);
    assert CleanList(TxsOf(tip.data));
    BlockRoundTrip(tip);
    RelinkClean(TxsOf(tip.data), []);
  }

  lemma PeerBroadcasts(w: Scene, q: NodeState, p: NodeState, r: NodeState)
    requires PeerMined(w, q, p, r) && Distinct(SkipTxs(w))
    ensures r.chain.blocks != []
    ensures var tip := Last(r.chain.blocks);
            Broadcastable(w.cfg, p, tip) && tip.timestamp - w.cfg.timeMaxDelta < 3 && CleanJson(BlockToJson(tip))
  {
    hide Grew, Mined, RewardTx, CollisionFree, ChainTxs, UpdatedAll, CleanInv, HasTraces, Broadcastable, CleanJson,
         BlockToJson, Rewards, Pair, Distinct, SkipTxs, PoolUnspent;
    PeerList(w, q, p, r);
    PeerCollisionFree(w, q, p, r);
    MinedTip(w.cfg, p, w.owner, 3, []);
    TipClean(w.cfg, r);
  }

  lemma BaseOf(cfg: Config, s: NodeState)
    requires Good(cfg, s)
    ensures BaseInv(cfg, s)
  {
  }

  lemma SameChain(a: NodeState, b: NodeState)
    requires a.chain == b.chain && a.utxo == b.utxo
    ensures InStep(a, b)
  {
  }

  lemma TakenClock(cfg: Config, s: NodeState, j: BlockJson, now: nat)
    requires ValidConfig(cfg)
    ensures BlockTaken(cfg, s, j, true, now).state.clock == now
  {
    hide BlockFromJson, BlockOk, Extends, Appended, UpdatedAll, Pruned, RemovedAll;
  }

  /** What the waiting node is after it has taken the peer's block. */
  ghost predicate Skipped(w: Scene, r: NodeState, l: NodeState, m: NodeState) {
    && r.chain.blocks != [] && InStep(r, m) && m.synced && |l.pool| == 2 && m.pool == [l.pool[1]] && BaseInv(w.cfg, m)
    && m.clock == 3 && m.chain.blocks == l.chain.blocks + [RelinkBlock(Last(r.chain.blocks), l.utxo)]
    && |m.chain.blocks| == 3 && !PoolUnspent(m)
  }

  /** The step in which the waiting node takes the peer's block. */
  lemma TakeTipStep(w: Scene, q: NodeState, p: NodeState, r: NodeState, l: NodeState) returns (m: NodeState)
    requires PeerMined(w, q, p, r) && Waiting(w, q, l) && r.chain.blocks != [] && Distinct(SkipTxs(w))
    ensures var step := TakeBlock(BlockToJson(Last(r.chain.blocks)), true, 3);
            Timed(l, step) && CleanStep(step) && m == Next(w.cfg, l, step)
    ensures Skipped(w, r, l, m)
  {
    hide Grew, Mined, Rewards, LedgerRunInv, Broadcastable, CleanJson, BlockToJson, BlockTaken, InStep, Applied,
         BaseInv, Distinct, SkipTxs, Spend, AllUnspent, UpdatedAll, RemovedAll, PrunesAll, PruneUndefined;
    var tip := Last(r.chain.blocks);
    PeerBroadcasts(w, q, p, r);
    PeerList(w, q, p, r);
    assert InStep(p, l) by { SameChain(p, l); }
    PeerAppends(w.cfg, p, r, l, tip, true, 3);
    PeerPool(w.cfg, p, l, tip, true, 3);
    PairSkipped(w, q, p, r, l);
    BaseOf(w.cfg, l);
    BlockKeepsBase(w.cfg, l, BlockToJson(tip), true, 3);
    m := BlockTaken(w.cfg, l, BlockToJson(tip), true, 3).state;
    TakenClock(w.cfg, l, BlockToJson(tip), 3);
    InStepLength(r, m);
    TakenChain(w.cfg, l, tip, 3);
    InStepCache(r, m);
    assert l.pool[1] in m.pool;
  }

  lemma InStepLength(a: NodeState, b: NodeState)
    requires InStep(a, b)
    ensures |a.chain.blocks| == |b.chain.blocks|
  {
    SameTip(a.chain.blocks, b.chain.blocks);
  }

  lemma InStepCache(a: NodeState, b: NodeState)
    requires InStep(a, b)
    ensures a.utxo == b.utxo
  {
  }

  lemma TakenChain(cfg: Config, s: NodeState, tip: Block, now: nat)
    requires ValidConfig(cfg)
    ensures var bs := BlockTaken(cfg, s, BlockToJson(tip), true, now).state.chain.blocks;
            |bs| != |s.chain.blocks| ==> bs == s.chain.blocks + [RelinkBlock(tip, s.utxo)]
  {
    hide BlockFromJson, BlockToJson, BlockTaken, DataOk, UpdatedAll, RemovedAll, Pruned;
    if BlockTaken(cfg, s, BlockToJson(tip), true, now).state.chain.blocks != s.chain.blocks {
      BlockAppended(cfg, s, BlockToJson(tip), true, now);
      BlockRoundTrip(tip);
      RelinkTwice(tip.data, [], s.utxo);
    }
  }

  /** It then mines the transaction that pruning should have erased. */
  lemma SkippedMines(w: Scene, q: NodeState, r: NodeState, l: NodeState, m: NodeState) returns (f: NodeState)
    requires ValidScene(w) && Waiting(w, q, l) && Skipped(w, r, l, m)
    ensures var step := MineBlock(w.owner, 4, []);
            Timed(m, step) && CleanStep(step) && f == Next(w.cfg, m, step) && MinesSpent(w.cfg, m, step)
    ensures Grew(w.cfg, m, w.owner, 4, f)
  {
    hide Good, InStep, BaseInv, Mined, Grew, PoolUnspent, OwnReward;
    assert m.pool == [l.pool[1]] && ForNextBlock(m, l.pool[1]);
    MineDone(w.cfg, m, w.owner, 4);
    MineGrows(w.cfg, m, w.owner, 4);
    f := Mined(w.cfg, m, w.owner, 4, []).state;
  }

  /** No hash of the waiting node's next block is in use. */
  lemma PeerHashes(w: Scene, q: NodeState, p: NodeState, r: NodeState, n: nat)
    requires PeerMined(w, q, p, r) && Distinct(SkipTxs(w)) && (n == 3 || n == 5)
    ensures |SkipTxs(w)| == 8 && UniqueKeys(r.utxo) && Fresh(r.utxo, SkipTxs(w)[n].hash)
  {
    hide PeerMined, ChainTxs, Matches, SkipTxs, Replay;
    SkipLength(w);
    PeerSpends(w, q, p, r);
    forall k: Key | k.hash == SkipTxs(w)[n].hash
      ensures Matches(r.utxo, k) == []
    {
      if Matches(r.utxo, k) != [] {
        var t :| t in ChainTxs(r.chain.blocks) && t.hash == k.hash;
        var i := PeerTxs(w, q, p, r, t);
      }
    }
  }

  lemma RewardTotal(w: Scene, u: seq<UTxO>, n: nat)
    ensures Total(UpdatedAll(u, [OwnReward(w, n)])) == Total(u) + w.cfg.rewardAmount
    ensures forall k :: Matches(UpdatedAll(u, [OwnReward(w, n)]), k) ==
                        Matches(u, k) + if k == Coin(w, n) then [UTxO(Coin(w, n), CoinOutput(w))] else []
  {
    hide UpdatedAll, OwnReward;
    var x := UTxO(Coin(w, n), CoinOutput(w));
    RewardAdds(w, u, n);
    TotalAppend(u, [x]);
    assert [x][1..] == [];
    assert Total([x]) == x.output.amount + Total([x][1..]);
    forall k
      ensures Matches(u + [x], k) == Matches(u, k) + if k == Coin(w, n) then [x] else []
    {
      MatchesPlus(u, x, k);
    }
  }

  /** Applying a payment whose input is already spent takes nothing away. */
  lemma StalePayTotal(w: Scene, u: seq<UTxO>, t: Tx, k: Key, to: string)
    requires UniqueKeys(u) && Fresh(u, t.hash) && KeySet(t.inputs) == {k} && |t.inputs| == 1
    requires k.hash != t.hash && Matches(u, k) == [] && t.outputs == Pay(w, to)
    ensures Total(Updated(u, t)) == Total(u) + w.cfg.rewardAmount
  {
    hide Updated, Fresh, UniqueKeys;
    assert t.inputs[0].key in KeySet(t.inputs);
    assert t.inputs[..0] == [];
    assert InSum(u, t.inputs) == InSum(u, t.inputs[..0]) + Total(Matches(u, k));
    PaySum(w, to);
    UpdateTotal(u, t);
  }

  lemma StillUnique(u: seq<UTxO>, v: seq<UTxO>, k: Key, o: TxO)
    requires UniqueKeys(u) && Fresh(u, k.hash)
    requires forall j :: Matches(v, j) == Matches(u, j) + if j == k then [UTxO(k, o)] else []
    ensures UniqueKeys(v)
    ensures forall h :: h != k.hash && Fresh(u, h) ==> Fresh(v, h)
  {
  }

  /** The block mined on top adds two rewards' worth of coins. */
  lemma DoubleSpendTotal(w: Scene, u: seq<UTxO>, t: Tx, to: string)
    requires UniqueKeys(u) && Fresh(u, OwnReward(w, 3).hash) && Fresh(u, t.hash) && Matches(u, Coin(w, 1)) == []
    requires KeySet(t.inputs) == {Coin(w, 1)} && |t.inputs| == 1 && t.outputs == Pay(w, to)
    requires t.hash != OwnReward(w, 3).hash && Coin(w, 1) != Coin(w, 3) && Coin(w, 1).hash != t.hash
    ensures Total(UpdatedAll(u, [OwnReward(w, 3), t])) == Total(u) + 2 * w.cfg.rewardAmount
  {
    hide OwnReward, Updated, Matches, KeySet, Total, Fresh, UniqueKeys;
    var ts := [OwnReward(w, 3), t];
    assert ts[..|ts| - 1] == [OwnReward(w, 3)];
    var v := UpdatedAll(u, [OwnReward(w, 3)]);
    assert UpdatedAll(u, ts) == Updated(v, t);
    RewardTotal(w, u, 3);
    StillUnique(u, v, Coin(w, 3), CoinOutput(w));
    StalePayTotal(w, v, t, Coin(w, 1), to);
  }

  lemma SkippedTotal(w: Scene, q: NodeState, p: NodeState, r: NodeState, l: NodeState, m: NodeState, f: NodeState)
    requires PeerMined(w, q, p, r) && Waiting(w, q, l) && Skipped(w, r, l, m) && Distinct(SkipTxs(w))
    requires Grew(w.cfg, m, w.owner, 4, f)
    ensures Total(f.utxo) == Total(m.utxo) + 2 * w.cfg.rewardAmount
  {
    hide PeerMined, Good, Spend, RewardTx, UpdatedAll, KeySet, Total, Matches, UniqueKeys, Fresh, BaseInv, InStep,
         LedgerInv, Replay, PoolUnspent;
    var ts := SkipTxs(w);
    var t := l.pool[1];
    InStepCache(r, m);
    PeerSpends(w, q, p, r);
    PeerHashes(w, q, p, r, 3);
    PeerHashes(w, q, p, r, 5);
    PairInputs(w, q.utxo, "a", "bb", 3);
    OneInput(w, q.utxo);
    assert ts[1] == OwnReward(w, 1) && ts[3] == OwnReward(w, 3) && ts[5].hash == t.hash;
    assert t.outputs == Pay(w, "bb") by { PairOutputs(w, q.utxo); }
    DoubleSpendTotal(w, m.utxo, t, "bb");
    assert [OwnReward(w, 3)] + m.pool == [OwnReward(w, 3), t];
  }

  lemma PairOutputs(w: Scene, u: seq<UTxO>)
    ensures Pair(w, u, "a", "bb", 3)[1].outputs == Pay(w, "bb")
  {
  }

  lemma SkippedCollisionFree(w: Scene, q: NodeState, p: NodeState, r: NodeState, l: NodeState,
                                                m: NodeState, f: NodeState)
    requires PeerMined(w, q, p, r) && Waiting(w, q, l) && Skipped(w, r, l, m) && Distinct(SkipTxs(w))
    requires Grew(w.cfg, m, w.owner, 4, f)
    ensures Clear(f)
  {
    hide Good, Mined, RewardTx, Spend, CollisionFree, ChainTxs, Distinct, BaseInv, InStep, PoolUnspent, UpdatedAll,
         RewardBlocks;
    SkipLength(w);
    forall t | t in ChainTxs(f.chain.blocks)
      ensures exists i :: 0 <= i < |SkipTxs(w)| && SameUpToLinks(t, SkipTxs(w)[i])
    {
      GrewTxs(w.cfg, m, w.owner, 4, f, t);
      if t in ChainTxs(m.chain.blocks) {
        var i := TakenTxs(w, q, p, r, l, m, t);
      } else if t in m.pool {
        assert SameUpToLinks(t, SkipTxs(w)[5]);
      } else {
        assert SameUpToLinks(t, SkipTxs(w)[3]);
      }
    }
    OneOf(ChainTxs(f.chain.blocks), SkipTxs(w));
  }

  lemma TakenTxs(w: Scene, q: NodeState, p: NodeState, r: NodeState, l: NodeState,
                                    m: NodeState, t: Tx)
    returns (i: nat)
    requires PeerMined(w, q, p, r) && Waiting(w, q, l) && Skipped(w, r, l, m) && t in ChainTxs(m.chain.blocks)
    ensures i < |SkipTxs(w)| && SameUpToLinks(t, SkipTxs(w)[i])
  {
    hide Good, Mined, RewardTx, Spend, ChainTxs, BaseInv, InStep, PoolUnspent, UpdatedAll, RewardBlocks, Grew;
    var tip := Last(r.chain.blocks);
    PeerList(w, q, p, r);
    ReplaySnoc(l.chain.blocks, RelinkBlock(tip, l.utxo));
    if t in ChainTxs(l.chain.blocks) {
      i := RewardChain(w, q.chain.blocks, t);
    } else {
      var us := TxsOf(RelinkBlock(tip, l.utxo).data);
      assert us == Relink(TxsOf(tip.data), l.utxo);
      var j :| 0 <= j < |us| && us[j] == t;
      i := if j == 0 then 2 else if j == 1 then 6 else 7;
    }
  }

  /** What is wrong with the chain `f` ends with, for a peer `r` that was in step before: two of
      its blocks spend one output, the last one is not valid against the replay before it and adds
      more than its reward to the supply, and the peer rejects it. */
  ghost predicate DoubleSpends(w: Scene, r: NodeState, m: NodeState, f: NodeState)
    requires ValidConfig(w.cfg)
  {
    var bs := f.chain.blocks;
    && Clear(f) && |bs| == 4 && |TxsOf(bs[2].data)| == 3 && |TxsOf(bs[3].data)| == 2
    && Coin(w, 1) in KeySet(TxsOf(bs[2].data)[2].inputs) && Coin(w, 1) in KeySet(TxsOf(bs[3].data)[1].inputs)
    && !Linked(w.cfg, bs) && Total(f.utxo) == Total(m.utxo) + 2 * w.cfg.rewardAmount
    && BlockTaken(w.cfg, r, BlockToJson(bs[3]), true, 4).Thrown?
  }

  lemma SkippedSpends(w: Scene, q: NodeState, p: NodeState, r: NodeState, l: NodeState, m: NodeState, f: NodeState)
    requires PeerMined(w, q, p, r) && Waiting(w, q, l) && Skipped(w, r, l, m) && Grew(w.cfg, m, w.owner, 4, f)
    ensures var bs := f.chain.blocks;
            && |bs| == 4 && |TxsOf(bs[2].data)| == 3 && |TxsOf(bs[3].data)| == 2
            && Coin(w, 1) in KeySet(TxsOf(bs[2].data)[2].inputs) && Coin(w, 1) in KeySet(TxsOf(bs[3].data)[1].inputs)
  {
    hide Good, Mined, RewardTx, Spend, BaseInv, InStep, PoolUnspent, UpdatedAll, RewardBlocks, KeySet;
    PeerList(w, q, p, r);
    var bs, tip := f.chain.blocks, Last(r.chain.blocks);
    assert bs[2] == m.chain.blocks[2] == RelinkBlock(tip, l.utxo) && bs[3] == Last(bs);
    assert TxsOf(bs[2].data) == Relink(TxsOf(tip.data), l.utxo);
    assert TxsOf(bs[2].data)[2].inputs == p.pool[1].inputs;
    PairInputs(w, q.utxo, "ccc", "dddd", 2);
    PairInputs(w, q.utxo, "a", "bb", 3);
  }

  lemma SkippedDoubleSpends(w: Scene, q: NodeState, p: NodeState, r: NodeState, l: NodeState,
                            m: NodeState, f: NodeState)
    requires PeerMined(w, q, p, r) && Waiting(w, q, l) && Skipped(w, r, l, m) && Distinct(SkipTxs(w))
    requires var step := MineBlock(w.owner, 4, []);
             Timed(m, step) && f == Next(w.cfg, m, step) && MinesSpent(w.cfg, m, step)
    requires Grew(w.cfg, m, w.owner, 4, f)
    ensures DoubleSpends(w, r, m, f)
  {
    hide Waiting, PeerMined, Grew, InStep, BaseInv, Mined, BlockTaken, BlockToJson, Linked, Total, Clear, Distinct,
         SkipTxs, KeySet, PoolUnspent;
    ScenePeer(w, q, p, r);
    SkippedSpends(w, q, p, r, l, m, f);
    SkippedCollisionFree(w, q, p, r, l, m, f);
    SkippedTotal(w, q, p, r, l, m, f);
    MiningSpentUnlinks(w.cfg, m, MineBlock(w.owner, 4, []));
    InStepCache(r, m);
    StaleMineRejected(w.cfg, m, w.owner, 4, [], r, true, 4);
  }

  lemma ScenePeer(w: Scene, q: NodeState, p: NodeState, r: NodeState)
    requires PeerMined(w, q, p, r)
    ensures ValidConfig(w.cfg)
  {
  }

  lemma NotPruned(cfg: Config, s: NodeState, b: Block, now: nat)
    requires ValidConfig(cfg) && s.synced && !PrunesAll(s, TxsOf(RelinkBlock(b, s.utxo).data))
    requires Next(cfg, s, TakeBlock(BlockToJson(b), true, now)).chain.blocks != s.chain.blocks
    ensures !PrunesStep(cfg, s, TakeBlock(BlockToJson(b), true, now))
  {
    hide PrunesAll, BlockToJson, BlockFromJson, Next;
    BlockRoundTrip(b);
    RelinkTwice(b.data, [], s.utxo);
  }

  /** Pruning after the block does nothing undefined. */
  predicate PrunesDefined(s: NodeState, b: Block) {
    var us := TxsOf(RelinkBlock(b, s.utxo).data);
    !PruneUndefined(RemovedAll(s.pool, us), UpdatedAll(s.utxo, us))
  }

  /** The run up to the waiting node: two rewards and two posted transactions. */
  lemma WaitingRun(w: Scene) returns (states: seq<NodeState>, steps: seq<Step>)
    requires ValidScene(w) && Distinct(RewardTxs(w, 2))
    ensures CleanRun(w.cfg, states, steps) && |states| == 5 && |steps| == 4
    ensures Rewards(w, states[2], 2) && Waiting(w, states[2], states[4])
  {
    hide Rewards, CleanRun, Goes, Good, Spend, Pair, TxToJson, Distinct, MinesSpent;
    states, steps := RewardRun(w, 2);
    var p, l := PairGoes(w, states[2], "a", "bb", 3);
    var one := TakeTransaction(TxToJson(Spend(w, 2, Coin(w, 0), Pay(w, "a"))));
    var two := TakeTransaction(TxToJson(Spend(w, 3, Coin(w, 1), Pay(w, "bb"))));
    GoodRunSnoc(w.cfg, states, steps, one, p);
    GoodRunSnoc(w.cfg, states + [p], steps + [one], two, l);
    states, steps := states + [p] + [l], steps + [one] + [two];
  }

  /** Taking the peer's block and mining on top of it. */
  lemma SkipAndMine(w: Scene, q: NodeState, l: NodeState) returns (r: NodeState, m: NodeState, f: NodeState)
    requires ValidScene(w) && Rewards(w, q, 2) && Waiting(w, q, l) && Distinct(SkipTxs(w))
    ensures r.chain.blocks != []
    ensures var tip := Last(r.chain.blocks);
            var step := TakeBlock(BlockToJson(tip), true, 3);
            && Timed(l, step) && CleanStep(step) && m == Next(w.cfg, l, step)
            && !PrunesStep(w.cfg, l, step) && PrunesDefined(l, tip)
    ensures var step := MineBlock(w.owner, 4, []);
            Timed(m, step) && CleanStep(step) && f == Next(w.cfg, m, step) && MinesSpent(w.cfg, m, step)
    ensures InStep(r, m) && DoubleSpends(w, r, m, f)
  {
    hide Rewards, PeerMined, DoubleSpends, InStep, BaseInv, UpdatedAll, RemovedAll, Next, CleanStep, PrunesAll,
         PrunesStep, Applied, Distinct, SkipTxs, LedgerRunInv, Pair, MinesSpent, AllUnspent, BlockToJson,
         PruneUndefined, Grew;
    SkipRewards(w);
    var p;
    p, r := PeerMines(w, q);
    PeerBroadcasts(w, q, p, r);
    m := TakeTipStep(w, q, p, r, l);
    PairSkipped(w, q, p, r, l);
    NotPruned(w.cfg, l, Last(r.chain.blocks), 3);
    f := SkippedMines(w, q, r, l, m);
    SkippedDoubleSpends(w, q, p, r, l, m, f);
  }

  /** Two neighbours in the pool lose their inputs to a received block. Pruning erases the first and
      skips the second, with nothing undefined, and the node then mines it: the run double spends,
      although every message is clean, and a peer in step rejects its block. */
  lemma PruningDoubleSpends(w: Scene) returns (states: seq<NodeState>, steps: seq<Step>, peer: NodeState)
    requires ValidScene(w) && Distinct(SkipTxs(w))
    ensures CleanRun(w.cfg, states, steps) && |steps| == 6
    ensures !PrunesStep(w.cfg, states[4], steps[4]) && MinesSpent(w.cfg, states[5], steps[5])
    ensures peer.chain.blocks != [] && steps[4] == TakeBlock(BlockToJson(Last(peer.chain.blocks)), true, 3)
    ensures PrunesDefined(states[4], Last(peer.chain.blocks))
    ensures InStep(peer, states[5]) && DoubleSpends(w, peer, states[5], states[6])
  {
    hide Rewards, StepAt, CleanAt, Waiting, InStep, DoubleSpends, Next, CleanStep, PrunesStep, BlockToJson,
         Distinct, SkipTxs, MinesSpent, PrunesDefined;
    SkipRewards(w);
    var before, earlier := WaitingRun(w);
    var m, f;
    peer, m, f := SkipAndMine(w, before[2], before[4]);
    var take, mine := TakeBlock(BlockToJson(Last(peer.chain.blocks)), true, 3), MineBlock(w.owner, 4, []);
    CleanRunSnoc(w.cfg, before, earlier, take);
    CleanRunSnoc(w.cfg, before + [m], earlier + [take], mine);
    states, steps := before + [m] + [f], earlier + [take] + [mine];
  }

  // ---------- what clean messages exclude ----------

  /** The same output named twice by one transaction is counted twice: it validates and doubles the
      coins. */
  lemma DoubleInputAccepted(cfg: Config, key: Key, o: TxO, signature: Digest, t: Tx)
    requires o.address != "" && cfg.verify(o.address, t.hash, signature) && 2 * o.amount < SIZE_T_RANGE
    requires t.kind.Standard? && t.hash == TxHash(cfg, t) && t.hash != key.hash
    requires t.snapshot == [UTxO(key, o)] && t.inputs == [TxI(key, signature), TxI(key, signature)]
    requires t.outputs == [TxO(2 * o.amount, o.address)]
    ensures TxOk(cfg, t) && Total(Updated(t.snapshot, t)) == 2 * Total(t.snapshot)
  {
    hide TxHash;
    var u := t.snapshot;
    OneUnspent(key, o);
    assert t.inputs[..1] == [t.inputs[0]] && t.inputs[..1][..0] == [] && t.outputs[..0] == [];
    assert InSum(u, t.inputs) == InSum(u, t.inputs[..1]) + o.amount;
    assert InSum(u, t.inputs[..1]) == InSum(u, t.inputs[..1][..0]) + o.amount;
    assert OutSum(t.outputs) == OutSum(t.outputs[..0]) + 2 * o.amount;
    assert InputOk(cfg, t, u, 0) && InputOk(cfg, t, u, 1);
    var v := UTxO(Key(t.hash, 0), t.outputs[0]);
    assert NewOutputs(t.hash, t.outputs) == NewOutputs(t.hash, t.outputs[..0]) + [v] == [v];
    EraseFirst(UTxO(key, o), v, t.inputs);
    OneUnspent(v.key, v.output);
  }

  lemma OneUnspent(key: Key, o: TxO)
    ensures Matches([UTxO(key, o)], key) == [UTxO(key, o)] && Total([UTxO(key, o)]) == o.amount
  {
    MatchesOne(UTxO(key, o), key);
    assert [UTxO(key, o)][1..] == [];
    assert Total([UTxO(key, o)]) == o.amount + Total([UTxO(key, o)][1..]);
  }

  lemma {:induction false} EraseFirst(x: UTxO, v: UTxO, inputs: seq<TxI>)
    requires x.key != v.key && |inputs| == 2 && inputs[0].key == x.key == inputs[1].key
    ensures ScanAll([x] + [v], inputs) == [v]
  {
    var del := HasKey(x.key);
    assert inputs[..1][..0] == [] && inputs[..|inputs| - 1] == inputs[..1];
    assert ([x] + [v])[1] == v && ([x] + [v])[2..] == [] && [v][1..] == [];
    assert Scan([x] + [v], del) == [v] + Scan(([x] + [v])[2..], del) == [v];
    assert Scan([v], del) == [v] + Scan([v][1..], del) == [v];
    assert ScanAll([x] + [v], inputs[..1]) == Scan(ScanAll([x] + [v], inputs[..1][..0]), del);
  }

  /** Without inputs, outputs that wrap around to zero validate and create 2^64 coins from nothing. */
  lemma NoInputsAccepted(cfg: Config, address: string, t: Tx)
    requires t.kind.Standard? && t.hash == TxHash(cfg, t) && t.inputs == []
    requires t.outputs == [TxO(SIZE_T_RANGE - 1, address), TxO(1, address)]
    ensures TxOk(cfg, t) && Total(Updated(t.snapshot, t)) == Total(t.snapshot) + SIZE_T_RANGE
  {
    hide TxHash;
    assert t.outputs[..1] == [t.outputs[0]] && t.outputs[..1][..0] == [];
    assert OutSum(t.outputs) == OutSum(t.outputs[..1]) + 1;
    assert OutSum(t.outputs[..1]) == SIZE_T_RANGE - 1;
    NewOutputsTotal(t.hash, t.outputs);
    TotalAppend(t.snapshot, NewOutputs(t.hash, t.outputs));
  }

  /** Without outputs, spending the last coin in the list drives the erasing loop past its end. */
  lemma NoOutputsOverruns(cfg: Config, key: Key, owner: string, signature: Digest, t: Tx)
    requires owner != "" && cfg.verify(owner, t.hash, signature)
    requires t.kind.Standard? && t.hash == TxHash(cfg, t) && t.outputs == []
    requires t.snapshot == [UTxO(key, TxO(0, owner))] && t.inputs == [TxI(key, signature)]
    ensures TxOk(cfg, t) && UpdateOverruns(t.snapshot, t)
  {
    hide TxHash;
    var u := t.snapshot;
    OneUnspent(key, TxO(0, owner));
    assert t.inputs[..0] == [] && u + NewOutputs(t.hash, t.outputs) == u;
    assert InSum(u, t.inputs) == InSum(u, t.inputs[..0]) + 0;
    assert InputOk(cfg, t, u, 0);
    assert Overruns(u, HasKey(key));
  }

  /** Two transactions of one received block that spend the same output both validate, and the second
      creates its outputs without spending anything. */
  lemma SharedInputAccepted(cfg: Config, u: seq<UTxO>, k: Key, o: TxO, a: Tx, b: Tx, index: nat, miner: string)
    requires cfg.numPerBlock >= 2 && UniqueKeys(u) && Matches(u, k) == [UTxO(k, o)]
    requires forall t :: t in [a, b] ==>
               && t.kind.Standard? && t.index == index && TxOk(cfg, t.(snapshot := u)) && KeySet(t.inputs) == {k}
               && |t.inputs| == 1 && Fresh(u, t.hash)
    requires a.hash != b.hash
    ensures ListOk(cfg, Relink([RewardTx(cfg, miner, index), a, b], u), index)
    ensures Total(Updated(Updated(u, a), b)) == Total(u) - o.amount + OutSum(a.outputs) + OutSum(b.outputs)
  {
    var ts := Relink([RewardTx(cfg, miner, index), a, b], u);
    assert a in [a, b] && b in [a, b];
    RewardTxOk(cfg, miner, index);
    RewardRelinked(cfg, miner, index, u);
    assert ts[1] == a.(snapshot := u) && ts[2] == b.(snapshot := u);
    SharedTotals(u, k, o, a, b);
  }

  lemma RewardRelinked(cfg: Config, miner: string, index: nat, u: seq<UTxO>)
    ensures TxOk(cfg, RewardTx(cfg, miner, index).(snapshot := u))
  {
  }

  lemma SharedTotals(u: seq<UTxO>, k: Key, o: TxO, a: Tx, b: Tx)
    requires UniqueKeys(u) && Matches(u, k) == [UTxO(k, o)] && a.hash != b.hash && Fresh(u, a.hash) && Fresh(u, b.hash)
    requires KeySet(a.inputs) == {k} == KeySet(b.inputs) && |a.inputs| == 1 == |b.inputs|
    ensures Total(Updated(Updated(u, a), b)) == Total(u) - o.amount + OutSum(a.outputs) + OutSum(b.outputs)
  {
    hide Updated, Total, OutSum;
    var v := Updated(u, a);
    assert k.hash != a.hash && k.hash != b.hash by {
      assert Fresh(u, a.hash) && Fresh(u, b.hash);
    }
    InSumOne(u, a, k);
    InSumOne(v, b, k);
    OneUnspent(k, o);
    UpdateRefines(u, a);
    forall j: Key
      ensures j.hash == b.hash ==> Matches(v, j) == []
      ensures j == k ==> Matches(v, j) == []
    {
      UpdateMatches(u, a, j);
    }
    TotalNone();
    UpdateTotal(u, a);
    UpdateTotal(v, b);
  }

  lemma TotalNone()
    ensures Total([]) == 0
  {
  }

  lemma InSumOne(u: seq<UTxO>, t: Tx, k: Key)
    requires KeySet(t.inputs) == {k} && |t.inputs| == 1
    ensures InSum(u, t.inputs) == Total(Matches(u, k))
  {
    hide Total, Matches;
    assert t.inputs[0].key in KeySet(t.inputs);
    assert t.inputs[..0] == [];
    assert InSum(u, t.inputs) == InSum(u, t.inputs[..0]) + Total(Matches(u, t.inputs[0].key));
  }

  // ---------- the hypotheses can be met ----------

  /** The default configuration with a hash that keeps the whole text and a key that signs by
      repeating the hash. */
  function Plain(): Scene {
    Scene(Config((s: string) => Bytes(s), (a: string, h: Digest, s: Digest) => s == h, (j: DataJson) => "",
                 60000, Params(10000, 2.0, 10, 16.0), 10, 50, false),
          "w", (h: Digest) => h)
  }

  function Bytes(s: string): Digest {
    seq(|s|, i requires 0 <= i < |s| => s[i] as int % 256)
  }

  lemma ShortDigits(n: nat)
    requires n < 10
    ensures |Digits(n)| == 1 && Digits(n)[0] == "0123456789"[n] && |Digits(50)| == 2
  {
    DigitsExamples();
  }

  lemma PlainReward(i: nat)
    requires i < 10
    ensures |OwnReward(Plain(), i).hash| == 4 && OwnReward(Plain(), i).hash[0] == "0123456789"[i] as int
  {
    ShortDigits(i);
    OutputsTextOne(TxO(50, "w"));
    var text := TxPreimage(i, [], [TxO(50, "w")]);
    assert InputsText([]) == "";
    assert |text| == 4 && text[0] == "0123456789"[i];
    assert OwnReward(Plain(), i).hash == Bytes(text);
  }

  lemma PlainSpend(index: nat, i: nat, outputs: seq<TxO>)
    requires index < 10 && i < 10
    ensures |Spend(Plain(), index, Coin(Plain(), i), outputs).hash| == 10 + |OutputsText(outputs)|
  {
    hide OutputsText;
    var key := Coin(Plain(), i);
    PlainReward(i);
    ShortDigits(index);
    ShortDigits(0);
    var inputs := [TxI(key, [])];
    assert inputs[1..] == [];
    assert InputsText(inputs) == ToString(key.hash) + Digits(0) + InputsText(inputs[1..]);
    assert |TxPreimage(index, inputs, outputs)| == 10 + |OutputsText(outputs)|;
  }

  lemma PlainPay(index: nat, i: nat, to: string)
    requires index < 10 && i < 10
    ensures |Spend(Plain(), index, Coin(Plain(), i), Pay(Plain(), to)).hash| == 12 + |to|
  {
    hide Spend, Coin;
    PlainSpend(index, i, Pay(Plain(), to));
    OutputsTextOne(TxO(50, to));
    ShortDigits(0);
  }

  /** Every hypothesis of the witnesses is met by this configuration. */
  lemma PlainMeetsAll()
    ensures var w := Plain();
            && ValidScene(w) && Distinct(SkipTxs(w)) && Distinct(RewardTxs(w, 3))
            && Distinct(SpendTxs(w, Pay(w, "a"))) && Distinct(SpendTxs(w, Wrapping(w)))
  {
    PlainValid();
    PlainDistinct();
    PlainSkips();
  }

  lemma PlainValid()
    ensures ValidScene(Plain())
  {
  }

  lemma PlainDistinct()
    ensures Plain().cfg.rewardAmount + 1 < SIZE_T_RANGE
    ensures Distinct(RewardTxs(Plain(), 3)) && Distinct(SpendTxs(Plain(), Pay(Plain(), "a")))
    ensures Distinct(SpendTxs(Plain(), Wrapping(Plain())))
  {
    hide OwnReward, Spend, Wrapping, Coin;
    var w := Plain();
    PlainReward(0);
    PlainReward(1);
    PlainReward(2);
    PlainPay(1, 0, "a");
    PlainSpend(1, 0, Wrapping(w));
  }

  lemma PlainSkips()
    ensures Distinct(SkipTxs(Plain()))
  {
    hide Plain, OwnReward, Spend, Coin;
    PlainReward(0);
    PlainReward(1);
    PlainReward(2);
    PlainReward(3);
    PlainPay(2, 0, "a");
    PlainPay(3, 1, "bb");
    PlainPay(2, 0, "ccc");
    PlainPay(2, 1, "dddd");
  }
}
