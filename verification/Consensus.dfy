/** Several nodes: a mined block is accepted by an honest peer in the same state, and a network
    without proof of work comes to rest once mining stops. */
module Consensus {
  import opened Options
  import opened Records
  import opened Digests
  import opened Difficulty
  import opened Validity
  import opened Unspent
  import opened Ledger
  import opened Pools
  import opened Blocks
  import opened Nodes
  import opened Runs
  import opened Soundness

  // ---------- honest block acceptance ----------

  /** Two nodes are in step: equal serialized chains and equal unspent outputs. */
  predicate InStep(a: NodeState, b: NodeState) {
    BlocksToJson(a.chain.blocks) == BlocksToJson(b.chain.blocks) && a.utxo == b.utxo
  }

  lemma SameTip(a: seq<Block>, b: seq<Block>)
    requires BlocksToJson(a) == BlocksToJson(b)
    ensures |a| == |b|
    ensures a != [] ==> Last(a).timestamp == Last(b).timestamp && Last(a).index == Last(b).index
                        && Last(a).hash == Last(b).hash
  {
    assert |a| == |BlocksToJson(a)| == |b|;
    if a != [] {
      assert BlocksToJson(a)[|a| - 1] == BlockToJson(Last(a)) && BlocksToJson(b)[|b| - 1] == BlockToJson(Last(b));
      BlockToJsonInjective(Last(a), Last(b));
    }
  }

  lemma SerializedSnoc(a: seq<Block>, x: Block, b: seq<Block>, y: Block)
    requires BlocksToJson(a) == BlocksToJson(b) && BlockToJson(x) == BlockToJson(y)
    ensures BlocksToJson(a + [x]) == BlocksToJson(b + [y])
  {
    assert BlocksToJson(a + [x]) == BlocksToJson(a) + [BlockToJson(x)];
    assert BlocksToJson(b + [y]) == BlocksToJson(b) + [BlockToJson(y)];
  }

  /** A node whose next block is valid against its unspent outputs: clear, and without a spent input in
      its pool. */
  ghost predicate FitToMine(cfg: Config, s: NodeState) {
    CleanInv(cfg, s) && Clear(s) && HasTraces(s) && PoolUnspent(s)
  }

  /** What the miner knows about the block it has just built. */
  lemma MinedTip(cfg: Config, s: NodeState, address: string, now: nat, readings: seq<nat>)
    requires ValidConfig(cfg) && FitToMine(cfg, s)
    requires Timed(s, MineBlock(address, now, readings)) && Mined(cfg, s, address, now, readings).Done?
    ensures var s' := Mined(cfg, s, address, now, readings).state;
            && s'.chain.blocks != []
            && var tip := Last(s'.chain.blocks);
               && s'.chain.blocks == s.chain.blocks + [tip]
               && s'.utxo == UpdatedAll(s.utxo, TxsOf(tip.data))
               && Broadcastable(cfg, s, tip)
  {
    var ts := Assembled(cfg, s, address);
    var bs := Constructed(cfg, s.chain, Transactions(ts), now, readings).state.blocks;
    ConstructedExtends(cfg, s.chain, Transactions(ts), s.clock, now, readings);
    UnspentLinked(s.chain.blocks, s.pool);
    AssembledCurrent(cfg, s, address, |s.chain.blocks|);
    assert BlockOk(cfg, Last(bs), LastReading(now, readings));
    if s.chain.blocks != [] {
      assert IsSuccessor(cfg, bs[|bs| - 1], bs[|bs| - 2]);
    }
  }

  /** A block that extends a node's chain and is valid against its unspent outputs. */
  predicate Broadcastable(cfg: Config, s: NodeState, tip: Block) {
    && Extends(cfg, s.chain.blocks, tip) && tip.index == |s.chain.blocks| && tip.hash == BlockHash(cfg, tip)
    && DataOk(cfg, RelinkData(tip.data, s.utxo), tip.index)
  }

  /** The difficulty test a node applies to a block it is offered. */
  predicate MeetsDifficulty(cfg: Config, s: NodeState, tip: Block)
    requires ValidConfig(cfg)
  {
    cfg.pow ==> ReceiverAccepts(ZeroPrefixLength(tip.hash),
                                Adjusted(cfg.difficulty, s.chain.adjuster, tip.timestamp).difficulty)
  }

  /** The parsed and relinked block is valid for a peer in step. */
  lemma PeerValidates(cfg: Config, a: NodeState, b: NodeState, tip: Block, now: nat)
    requires ValidConfig(cfg) && InStep(a, b) && Broadcastable(cfg, a, tip) && tip.timestamp - cfg.timeMaxDelta < now
    ensures var l := RelinkBlock(tip, b.utxo);
            && BlockFromJson(BlockToJson(tip)) == Some(RelinkBlock(tip, []))
            && RelinkBlock(RelinkBlock(tip, []), b.utxo) == l
            && BlockOk(cfg, l, now) && l.index == |b.chain.blocks|
            && Extends(cfg, b.chain.blocks, l) && LinksTo(b.chain.blocks, l)
  {
    BlockRoundTrip(tip);
    RelinkTwice(tip.data, [], b.utxo);
    RelinkInvisible(cfg, tip, b.utxo);
    SameTip(a.chain.blocks, b.chain.blocks);
  }

  /** A peer in step appends such a block exactly when it meets the peer's difficulty, and then
      ends in step. */
  lemma PeerAppends(cfg: Config, a: NodeState, a': NodeState, b: NodeState, tip: Block, originKnown: bool, now: nat)
    requires ValidConfig(cfg) && InStep(a, b) && Broadcastable(cfg, a, tip) && tip.timestamp - cfg.timeMaxDelta < now
    requires a'.chain.blocks == a.chain.blocks + [tip] && a'.utxo == UpdatedAll(a.utxo, TxsOf(tip.data))
    ensures var r := BlockTaken(cfg, b, BlockToJson(tip), originKnown, now);
            && (r.Done? <==> MeetsDifficulty(cfg, b, tip))
            && (r.Done? ==> InStep(a', r.state))
            && (r.Thrown? ==> InStep(a, r.state))
            && r.state.synced == b.synced
  {
    var l := RelinkBlock(tip, b.utxo);
    PeerValidates(cfg, a, b, tip, now);
    SerializedSnoc(a.chain.blocks, tip, b.chain.blocks, l) by {
      RelinkInvisible(cfg, tip, b.utxo);
    }
    if tip.data.Transactions? { UpdateIgnoresLinks(b.utxo, tip.data.list, b.utxo); }
    assert BlockTaken(cfg, b, BlockToJson(tip), originKnown, now) == Judged(cfg, b.(clock := now), l, originKnown, now);
  }

  /** What appending it does to the peer's pool. */
  lemma PeerPool(cfg: Config, a: NodeState, b: NodeState, tip: Block, originKnown: bool, now: nat)
    requires ValidConfig(cfg) && InStep(a, b) && Broadcastable(cfg, a, tip) && tip.timestamp - cfg.timeMaxDelta < now
    requires BlockTaken(cfg, b, BlockToJson(tip), originKnown, now).Done?
    ensures BlockTaken(cfg, b, BlockToJson(tip), originKnown, now).state.pool
         == Applied(b, TxsOf(RelinkBlock(tip, b.utxo).data)).pool
  {
    PeerValidates(cfg, a, b, tip, now);
  }

  /** Honest block acceptance: when a node mines in a clear state of a clean run, a peer with the same
      serialized chain and the same unspent outputs, whose clock the block's timestamp is not too far
      ahead of, accepts the broadcast block exactly when no input in the miner's pool was spent and
      the block meets the difficulty the peer computes, which without proof of work it always does.
      Both then end with equal serialized chains and equal unspent outputs; a rejected block leaves
      the peer's as they were. */
  lemma HonestAcceptance(cfg: Config, states: seq<NodeState>, steps: seq<Step>, i: nat,
                         address: string, nowA: nat, readings: seq<nat>,
                         peer: NodeState, originKnown: bool, nowB: nat)
    requires ValidConfig(cfg) && ClearState(cfg, states, steps, i) && InStep(states[i], peer)
    requires Timed(states[i], MineBlock(address, nowA, readings))
    requires var r := Mined(cfg, states[i], address, nowA, readings);
             r.Done? && r.state.chain.blocks != [] && Last(r.state.chain.blocks).timestamp - cfg.timeMaxDelta < nowB
    ensures var mined := Mined(cfg, states[i], address, nowA, readings).state;
            var tip := Last(mined.chain.blocks);
            var r := BlockTaken(cfg, peer, BlockToJson(tip), originKnown, nowB);
            && (r.Done? <==> PoolUnspent(states[i]) && MeetsDifficulty(cfg, peer, tip))
            && (r.Done? ==> InStep(mined, r.state))
            && (r.Thrown? ==> InStep(states[i], r.state))
            && r.state.synced == peer.synced
  {
    hide Mined, BlockTaken, CleanInv, HasTraces, PoolUnspent, MeetsDifficulty, Broadcastable, UpdatedAll,
         BlockToJson;
    var s := states[i];
    RunKeepsLedger(cfg, states, steps, i);
    var mined := Mined(cfg, s, address, nowA, readings).state;
    if PoolUnspent(s) {
      MinedTip(cfg, s, address, nowA, readings);
      PeerAppends(cfg, s, mined, peer, Last(mined.chain.blocks), originKnown, nowB);
    } else {
      CleanIsBase(cfg, s);
      StaleMineRejected(cfg, s, address, nowA, readings, peer, originKnown, nowB);
    }
  }

  lemma CleanIsBase(cfg: Config, s: NodeState)
    requires CleanInv(cfg, s)
    ensures BaseInv(cfg, s)
  {
  }

  /** A block mined with a spent input is rejected by every node with the miner's unspent outputs. */
  lemma StaleMineRejected(cfg: Config, s: NodeState, address: string, now: nat, readings: seq<nat>,
                          peer: NodeState, originKnown: bool, nowB: nat)
    requires ValidConfig(cfg) && BaseInv(cfg, s) && Timed(s, MineBlock(address, now, readings))
    requires Mined(cfg, s, address, now, readings).Done? && !PoolUnspent(s) && peer.utxo == s.utxo
    ensures var bs := Mined(cfg, s, address, now, readings).state.chain.blocks;
            && bs != [] && |bs| == |s.chain.blocks| + 1
            && BlockTaken(cfg, peer, BlockToJson(Last(bs)), originKnown, nowB) == Thrown(peer.(clock := nowB))
  {
    hide Constructed, BlockTaken, ValidOrEmpty, BlockToJson, KeySet, Matches, TxOk, UpdatedAll, DataOk;
    var ts := Assembled(cfg, s, address);
    ConstructedExtends(cfg, s.chain, Transactions(ts), s.clock, now, readings);
    AssembledIs(cfg, s, address);
    var i, k := SpentInPool(s);
    assert ts[i + 1] == s.pool[i];
    var b := Last(Mined(cfg, s, address, now, readings).state.chain.blocks);
    SpentRejected(cfg, peer, b, originKnown, nowB, i + 1, k);
  }

  /** No node that knows an output to be spent takes a block that spends it. */
  lemma SpentRejected(cfg: Config, s: NodeState, b: Block, originKnown: bool, now: nat, i: nat, k: Key)
    requires ValidConfig(cfg) && i < |TxsOf(b.data)| && k in KeySet(TxsOf(b.data)[i].inputs)
    requires Matches(s.utxo, k) == []
    ensures BlockTaken(cfg, s, BlockToJson(b), originKnown, now) == Thrown(s.(clock := now))
  {
    BlockRoundTrip(b);
    RelinkTwice(b.data, [], s.utxo);
    SpentNotOk(cfg, b.data, s.utxo, b.index, i, k);
  }

  /** With proof of work, a mined block meets the difficulty of a peer with the same adjuster if
      this call does not adjust and the difficulty is a power of two. */
  lemma MinedMeetsDifficulty(cfg: Config, s: NodeState, address: string, now: nat, readings: seq<nat>,
                             peer: NodeState, k: nat)
    requires ValidConfig(cfg) && cfg.pow && Mined(cfg, s, address, now, readings).Done?
    requires Mined(cfg, s, address, now, readings).state.chain.blocks != []
    requires peer.chain.adjuster == s.chain.adjuster && !Adjusts(cfg.difficulty, s.chain.adjuster.counter)
    requires s.chain.adjuster.difficulty == Pow2(k) as real
    ensures MeetsDifficulty(cfg, peer, Last(Mined(cfg, s, address, now, readings).state.chain.blocks))
  {
    var d := s.chain.adjuster.difficulty;
    var b := NewBlock(cfg, s.chain.blocks, Transactions(Assembled(cfg, s, address)), now);
    Pow2Monotone(0, k);
    SearchFinds(cfg, b, Target(d), readings);
    MinerReceiverAgree(d);
    var zeros := ZeroPrefixLength(Search(cfg, b, Target(d), readings).value.hash);
    assert MinerAccepts(zeros, d);
  }

  // ---------- a follower stays in step forever ----------

  predicate InSync(a: NodeState, b: NodeState) {
    InStep(a, b) && a.synced == b.synced
  }

  predicate IsMining(step: Step) {
    step.MineBlock? || step.MineText?
  }

  /** A follower takes the tip of every successful mining step and every block and chain the
      leader takes, and no transactions. */
  function Followed(cfg: Config, leader: NodeState, step: Step, b: NodeState): NodeState
    requires ValidConfig(cfg)
  {
    var r := Handled(cfg, leader, step);
    if step.TakeTransaction? || (IsMining(step) && (r.Thrown? || r.state.chain.blocks == [])) then b
    else if IsMining(step) then
      BlockTaken(cfg, b, BlockToJson(Last(r.state.chain.blocks)), true, r.state.clock).state
    else Next(cfg, b, step)
  }

  lemma MinedTextTip(cfg: Config, s: NodeState, text: string, now: nat, readings: seq<nat>)
    requires ValidConfig(cfg) && BaseInv(cfg, s)
    requires Timed(s, MineText(text, now, readings)) && MinedText(cfg, s, text, now, readings).Done?
    ensures var s' := MinedText(cfg, s, text, now, readings).state;
            && s'.chain.blocks != []
            && var tip := Last(s'.chain.blocks);
               s'.chain.blocks == s.chain.blocks + [tip] && tip.data == Text(text) && Broadcastable(cfg, s, tip)
  {
    var bs := Constructed(cfg, s.chain, Text(text), now, readings).state.blocks;
    ConstructedExtends(cfg, s.chain, Text(text), s.clock, now, readings);
    assert BlockOk(cfg, Last(bs), LastReading(now, readings));
    if s.chain.blocks != [] {
      assert IsSuccessor(cfg, bs[|bs| - 1], bs[|bs| - 2]);
    }
  }

  lemma MinedInTime(cfg: Config, s: NodeState, step: Step)
    requires ValidConfig(cfg) && BaseInv(cfg, s) && Timed(s, step) && IsMining(step)
    ensures var r := Next(cfg, s, step);
            r.chain.blocks != [] ==> Last(r.chain.blocks).timestamp - cfg.timeMaxDelta < r.clock
  {
    NextKeepsBase(cfg, s, step);
    var r := Next(cfg, s, step);
    if r.chain.blocks != [] { assert BlockOk(cfg, Last(r.chain.blocks), r.clock); }
  }

  /** Leader and follower judge what the step brings alike: the follower's difficulty test passes
      for what the leader mined, and both come to the same result on what both receive. */
  predicate SameJudgement(cfg: Config, a: NodeState, b: NodeState, step: Step)
    requires ValidConfig(cfg)
  {
    match step
    case MineBlock(_, _, _) => MinedAccepted(cfg, a, b, step)
    case MineText(_, _, _) => MinedAccepted(cfg, a, b, step)
    case TakeTransaction(_) => true
    case TakeBlock(j, _, _) =>
      var l := BlockFromJson(j);
      l.Some? ==> (MeetsDifficulty(cfg, a, l.value) <==> MeetsDifficulty(cfg, b, l.value))
    case TakeChain(js, now) =>
      var c := ChainFromJson(cfg, js, now);
      c.Some? ==> (Better(cfg, c.value, a.chain) <==> Better(cfg, c.value, b.chain))
  }

  predicate MinedAccepted(cfg: Config, a: NodeState, b: NodeState, step: Step)
    requires ValidConfig(cfg)
  {
    var r := Handled(cfg, a, step);
    r.Done? && r.state.chain.blocks != [] ==> MeetsDifficulty(cfg, b, Last(r.state.chain.blocks))
  }

  /** Without proof of work nodes in step always judge alike. */
  lemma JudgeAlike(cfg: Config, a: NodeState, b: NodeState, step: Step)
    requires ValidConfig(cfg) && !cfg.pow && InStep(a, b)
    ensures SameJudgement(cfg, a, b, step)
  {
    SameTip(a.chain.blocks, b.chain.blocks);
  }

  lemma FollowMinedBlock(cfg: Config, a: NodeState, b: NodeState, address: string, now: nat, readings: seq<nat>)
    requires ValidConfig(cfg) && FitToMine(cfg, a) && InSync(a, b)
    requires Timed(a, MineBlock(address, now, readings)) && Mined(cfg, a, address, now, readings).Done?
    requires MinedAccepted(cfg, a, b, MineBlock(address, now, readings))
    ensures var r := Mined(cfg, a, address, now, readings).state;
            r.chain.blocks != [] && r.synced == a.synced
            && InSync(r, BlockTaken(cfg, b, BlockToJson(Last(r.chain.blocks)), true, r.clock).state)
  {
    hide Mined, BlockTaken, Broadcastable, MeetsDifficulty, UpdatedAll, BlockToJson, InStep, FitToMine, BaseInv;
    assert BaseInv(cfg, a) by { FitIsBase(cfg, a); }
    var r := Mined(cfg, a, address, now, readings).state;
    MinedInTime(cfg, a, MineBlock(address, now, readings));
    MinedTip(cfg, a, address, now, readings);
    MinedSynced(cfg, a, address, now, readings);
    PeerAppends(cfg, a, r, b, Last(r.chain.blocks), true, r.clock);
  }

  lemma FitIsBase(cfg: Config, s: NodeState)
    requires FitToMine(cfg, s)
    ensures BaseInv(cfg, s)
  {
  }

  lemma MinedSynced(cfg: Config, s: NodeState, address: string, now: nat, readings: seq<nat>)
    requires ValidConfig(cfg)
    ensures Mined(cfg, s, address, now, readings).state.synced == s.synced
  {
    hide Constructed, UpdatedAll, Pruned, Assembled;
  }

  lemma MinedTextKeeps(cfg: Config, s: NodeState, text: string, now: nat, readings: seq<nat>)
    requires ValidConfig(cfg)
    ensures var r := MinedText(cfg, s, text, now, readings).state; r.utxo == s.utxo && r.synced == s.synced
  {
    hide Constructed;
  }

  lemma FollowMinedText(cfg: Config, a: NodeState, b: NodeState, text: string, now: nat, readings: seq<nat>)
    requires ValidConfig(cfg) && BaseInv(cfg, a) && InSync(a, b)
    requires Timed(a, MineText(text, now, readings)) && MinedText(cfg, a, text, now, readings).Done?
    requires MinedAccepted(cfg, a, b, MineText(text, now, readings))
    ensures var r := MinedText(cfg, a, text, now, readings).state;
            r.chain.blocks != []
            && InSync(r, BlockTaken(cfg, b, BlockToJson(Last(r.chain.blocks)), true, r.clock).state)
  {
    hide MinedText, BlockTaken, Broadcastable, MeetsDifficulty, BlockToJson, InStep, BaseInv;
    var r := MinedText(cfg, a, text, now, readings).state;
    MinedTextKeeps(cfg, a, text, now, readings);
    MinedInTime(cfg, a, MineText(text, now, readings));
    MinedTextTip(cfg, a, text, now, readings);
    PeerAppends(cfg, a, r, b, Last(r.chain.blocks), true, r.clock);
  }

  ghost predicate MayMine(cfg: Config, s: NodeState, step: Step)
    requires ValidConfig(cfg)
  {
    step.MineBlock? && Handled(cfg, s, step).Done? ==> FitToMine(cfg, s)
  }

  lemma FollowMining(cfg: Config, a: NodeState, b: NodeState, step: Step)
    requires ValidConfig(cfg) && BaseInv(cfg, a) && InSync(a, b) && SameJudgement(cfg, a, b, step)
    requires IsMining(step) && Timed(a, step) && MayMine(cfg, a, step)
    ensures InSync(Next(cfg, a, step), Followed(cfg, a, step, b))
  {
    hide Mined, MinedText, BlockTaken, MinedAccepted, BlockToJson, BaseInv, FitToMine, Timed;
    if Handled(cfg, a, step).Thrown? {
      FailedMining(cfg, a, step);
    } else {
      match step
      case MineBlock(address, now, readings) => FollowMinedBlock(cfg, a, b, address, now, readings);
      case MineText(text, now, readings) => FollowMinedText(cfg, a, b, text, now, readings);
    }
  }

  lemma FailedMining(cfg: Config, a: NodeState, step: Step)
    requires ValidConfig(cfg) && IsMining(step) && Handled(cfg, a, step).Thrown?
    ensures var r := Next(cfg, a, step);
            r.chain.blocks == a.chain.blocks && r.utxo == a.utxo && r.synced == a.synced
  {
  }

  lemma FollowBlock(cfg: Config, a: NodeState, b: NodeState, l: Block, originKnown: bool, now: nat)
    requires ValidConfig(cfg) && InSync(a, b) && (MeetsDifficulty(cfg, a, l) <==> MeetsDifficulty(cfg, b, l))
    ensures InSync(Judged(cfg, a, l, originKnown, now).state, Judged(cfg, b, l, originKnown, now).state)
  {
    SameTip(a.chain.blocks, b.chain.blocks);
    SerializedSnoc(a.chain.blocks, l, b.chain.blocks, l);
    assert Extends(cfg, a.chain.blocks, l) <==> Extends(cfg, b.chain.blocks, l);
    assert LinksTo(a.chain.blocks, l) <==> LinksTo(b.chain.blocks, l);
  }

  lemma FollowStep(cfg: Config, a: NodeState, b: NodeState, step: Step)
    requires ValidConfig(cfg) && BaseInv(cfg, a) && InSync(a, b) && SameJudgement(cfg, a, b, step)
    requires Timed(a, step) && MayMine(cfg, a, step)
    ensures InSync(Next(cfg, a, step), Followed(cfg, a, step, b))
  {
    match step
    case MineBlock(_, _, _) => FollowMining(cfg, a, b, step);
    case MineText(_, _, _) => FollowMining(cfg, a, b, step);
    case TakeTransaction(j) =>
    case TakeBlock(j, originKnown, now) =>
      if BlockFromJson(j).Some? {
        var l := RelinkBlock(BlockFromJson(j).value, a.utxo);
        FollowBlock(cfg, a.(clock := now), b.(clock := now), l, originKnown, now);
      }
    case TakeChain(js, now) => SameTip(a.chain.blocks, b.chain.blocks);
  }

  predicate Follows(cfg: Config, states: seq<NodeState>, steps: seq<Step>, followers: seq<NodeState>)
    requires ValidConfig(cfg) && |states| == |steps| + 1
  {
    && |followers| == |states|
    && followers[0] == Start(cfg)
    && (forall i :: 0 <= i < |steps| ==> FollowsAt(cfg, states, steps, followers, i))
  }

  predicate FollowsAt(cfg: Config, states: seq<NodeState>, steps: seq<Step>, followers: seq<NodeState>, i: nat)
    requires ValidConfig(cfg) && |followers| == |states| == |steps| + 1 && i < |steps|
  {
    followers[i + 1] == Followed(cfg, states[i], steps[i], followers[i])
  }

  /** What replication asks of leader and follower: the leader mines successfully only in clear states
      and, with proof of work, the two judge alike what each step brings. */
  ghost predicate Comparable(cfg: Config, states: seq<NodeState>, steps: seq<Step>, followers: seq<NodeState>)
    requires ValidConfig(cfg) && |followers| == |states| == |steps| + 1
  {
    && (forall k :: 0 <= k < |steps| ==> MinesClear(cfg, states[k], steps[k]))
    && (cfg.pow ==> forall k :: 0 <= k < |steps| ==> SameJudgement(cfg, states[k], followers[k], steps[k]))
  }

  ghost predicate MinesClear(cfg: Config, s: NodeState, step: Step)
    requires ValidConfig(cfg)
  {
    step.MineBlock? && Handled(cfg, s, step).Done? ==> Clear(s)
  }

  /** Replication: over every clean run, however long, a follower that gets each block the leader
      mines, and each block and chain the leader gets, has the leader's serialized chain and unspent
      outputs after every step if and only if the leader never mines a spent input. */
  lemma Replication(cfg: Config, states: seq<NodeState>, steps: seq<Step>, followers: seq<NodeState>)
    requires ValidConfig(cfg) && CleanRun(cfg, states, steps) && Follows(cfg, states, steps, followers)
    requires Comparable(cfg, states, steps, followers)
    ensures (forall i :: 0 <= i < |states| ==> InSync(states[i], followers[i]))
       <==> (forall k :: 0 <= k < |steps| ==> !MinesSpent(cfg, states[k], steps[k]))
  {
    hide InSync, MinesSpent, StepAt, CleanAt, FollowsAt, Comparable;
    if forall k :: 0 <= k < |steps| ==> !MinesSpent(cfg, states[k], steps[k]) {
      forall i | 0 <= i < |states|
        ensures InSync(states[i], followers[i])
      {
        InSyncUpTo(cfg, states, steps, followers, i);
      }
    } else {
      var k :| 0 <= k < |steps| && MinesSpent(cfg, states[k], steps[k]);
      if InSync(states[k], followers[k]) { OutOfSync(cfg, states, steps, followers, k); }
    }
  }

  lemma {:induction false} InSyncUpTo(cfg: Config, states: seq<NodeState>, steps: seq<Step>,
                                      followers: seq<NodeState>, i: nat)
    requires ValidConfig(cfg) && CleanRun(cfg, states, steps) && Follows(cfg, states, steps, followers)
    requires Comparable(cfg, states, steps, followers) && i < |states|
    requires forall k :: 0 <= k < |steps| ==> !MinesSpent(cfg, states[k], steps[k])
    ensures InSync(states[i], followers[i])
  {
    hide InSync, StepAt, CleanAt, MinesSpent, SameJudgement, Clear;
    if i == 0 {
      InSyncStart(cfg);
    } else {
      InSyncUpTo(cfg, states, steps, followers, i - 1);
      if !cfg.pow { InSyncJudge(cfg, states[i - 1], followers[i - 1], steps[i - 1]); }
      assert MinesClear(cfg, states[i - 1], steps[i - 1]);
      FollowAt(cfg, states, steps, followers, i - 1);
    }
  }

  lemma InSyncStart(cfg: Config)
    ensures InSync(Start(cfg), Start(cfg))
  {
  }

  lemma InSyncJudge(cfg: Config, a: NodeState, b: NodeState, step: Step)
    requires ValidConfig(cfg) && !cfg.pow && InSync(a, b)
    ensures SameJudgement(cfg, a, b, step)
  {
    hide SameJudgement;
    JudgeAlike(cfg, a, b, step);
  }

  lemma FollowAt(cfg: Config, states: seq<NodeState>, steps: seq<Step>, followers: seq<NodeState>, i: nat)
    requires ValidConfig(cfg) && CleanRun(cfg, states, steps) && i < |steps|
    requires Follows(cfg, states, steps, followers) && InSync(states[i], followers[i])
    requires MinesClear(cfg, states[i], steps[i]) && SameJudgement(cfg, states[i], followers[i], steps[i])
    requires forall k :: 0 <= k < |steps| ==> !MinesSpent(cfg, states[k], steps[k])
    ensures InSync(states[i + 1], followers[i + 1])
  {
    hide InSync, SameJudgement, CleanInv, Clear, HasTraces, Timed, Next, Followed, PoolUnspent, Handled, CleanAt,
         BaseInv;
    assert StepAt(cfg, states, steps, i) && FollowsAt(cfg, states, steps, followers, i);
    RunKeepsBase(cfg, states, steps, i);
    if steps[i].MineBlock? && Handled(cfg, states[i], steps[i]).Done? {
      assert !MinesSpent(cfg, states[i], steps[i]);
      RunKeepsLedger(cfg, states, steps, i);
    }
    FollowStep(cfg, states[i], followers[i], steps[i]);
  }

  /** A follower in step does not take a block that was mined with a spent input. */
  lemma OutOfSync(cfg: Config, states: seq<NodeState>, steps: seq<Step>, followers: seq<NodeState>, k: nat)
    requires ValidConfig(cfg) && CleanRun(cfg, states, steps) && Follows(cfg, states, steps, followers)
    requires k < |steps| && MinesSpent(cfg, states[k], steps[k]) && InSync(states[k], followers[k])
    ensures !InSync(states[k + 1], followers[k + 1])
  {
    hide PoolUnspent, Timed, BaseInv, Mined, BlockTaken, BlockToJson, CleanAt;
    var s, step, b := states[k], steps[k], followers[k];
    assert StepAt(cfg, states, steps, k) && FollowsAt(cfg, states, steps, followers, k);
    RunKeepsBase(cfg, states, steps, k);
    StaleMineRejected(cfg, s, step.address, step.now, step.readings, b, true, states[k + 1].clock);
    SameLengths(s.chain.blocks, b.chain.blocks);
    var a', b' := states[k + 1], followers[k + 1];
    if InStep(a', b') { SameLengths(a'.chain.blocks, b'.chain.blocks); }
  }

  lemma SameLengths(a: seq<Block>, b: seq<Block>)
    requires BlocksToJson(a) == BlocksToJson(b)
    ensures |a| == |b|
  {
    SameTip(a, b);
  }

  // ---------- catching up by replacement ----------

  lemma {:induction false} ReplayFrame(bs: seq<Block>)
    ensures Replay(UnlinkAll(bs)) == Replay(bs)
  {
    if bs == [] {
      assert UnlinkAll(bs) == [];
    } else {
      ReplayFrame(bs[..|bs| - 1]);
      UnlinkSnoc(bs);
      assert UnlinkAll(bs)[..|bs| - 1] == UnlinkAll(bs[..|bs| - 1]);
      var d := Last(bs).data;
      if d.Transactions? { UpdateIgnoresLinks(Replay(bs[..|bs| - 1]), d.list, []); }
    }
  }

  /** A node that is offered a valid chain accepts it exactly when that chain spends nothing (a
      received chain is validated without unspent outputs) and, with proof of work, passes the
      difficulty tests. It then takes it over, with its replay as unspent outputs, exactly when the
      rebuilt chain is better than its own. */
  lemma CatchUpExactly(cfg: Config, bs: seq<Block>, b: NodeState, now: nat)
    requires ValidConfig(cfg) && ChainOk(cfg, bs, now)
    ensures var r := ChainTaken(cfg, b, BlocksToJson(bs), now);
            && (r.Done? <==> ChainSpendsNothing(bs) && WorkOk(cfg, bs))
            && (r.Done? && Better(cfg, Rebuilt(cfg, bs), b.chain) ==>
                  && r.state.chain == Rebuilt(cfg, bs) && BlocksToJson(r.state.chain.blocks) == BlocksToJson(bs)
                  && r.state.utxo == Replay(bs) && r.state.synced)
            && (r.Thrown? || !Better(cfg, Rebuilt(cfg, bs), b.chain) ==>
                  r.state.chain == b.chain && r.state.utxo == b.utxo && r.state.pool == b.pool)
  {
    ChainRoundTrip(cfg, bs, now);
    if ChainSpendsNothing(bs) && WorkOk(cfg, bs) {
      UnlinkedChainOk(cfg, bs, now);
      ReplayFrame(bs);
      Adopted(cfg, b, BlocksToJson(bs), now, Rebuilt(cfg, bs));
    }
  }

  lemma Adopted(cfg: Config, b: NodeState, js: seq<BlockJson>, now: nat, c: Chain)
    requires ValidConfig(cfg) && ChainFromJson(cfg, js, now) == Some(c) && ChainOk(cfg, c.blocks, now)
    ensures ChainTaken(cfg, b, js, now) ==
            Done(if Better(cfg, c, b.chain) then NodeState(c, Replay(c.blocks), [], true, now) else b.(clock := now))
  {
  }

  /** The same, for the chain of any state of any run: the follower ends in step with it. */
  lemma RunCatchUp(cfg: Config, states: seq<NodeState>, steps: seq<Step>, i: nat, b: NodeState, now: nat)
    requires ValidConfig(cfg) && Run(cfg, states, steps) && i < |states| && states[i].chain.blocks != []
    requires states[i].synced && states[i].clock <= now
    requires ChainSpendsNothing(states[i].chain.blocks) && WorkOk(cfg, states[i].chain.blocks)
    requires Better(cfg, Rebuilt(cfg, states[i].chain.blocks), b.chain)
    ensures var r := ChainTaken(cfg, b, BlocksToJson(states[i].chain.blocks), now);
            r.Done? && InStep(states[i], r.state)
  {
    RunChainsValid(cfg, states, steps, i, now);
    RunCacheAgrees(cfg, states, steps, i);
    CatchUpExactly(cfg, states[i].chain.blocks, b, now);
  }

  // ---------- a network comes to rest ----------

  datatype Message = TipMessage(tip: BlockJson, originKnown: bool) | ChainMessage(blocks: seq<BlockJson>)

  /** Messages stay in the set: they may be delivered in any order, again, late or never. */
  datatype Network = Network(nodes: seq<NodeState>, messages: set<Message>)

  datatype Event =
    | Internal(n: nat, step: Step)
    | SendTip(n: nat, originKnown: bool)
    | SendChain(n: nat)
    | Deliver(n: nat, message: Message, now: nat)

  predicate Mines(e: Event) {
    e.Internal? && !e.step.TakeTransaction?
  }

  function DeliveryStep(m: Message, now: nat): Step {
    match m
    case TipMessage(tip, originKnown) => TakeBlock(tip, originKnown, now)
    case ChainMessage(blocks) => TakeChain(blocks, now)
  }

  /** Nodes mine, take transactions, broadcast their tip or their chain, and take what was sent. */
  predicate Enabled(net: Network, e: Event) {
    match e
    case Internal(n, step) => n < |net.nodes| && Timed(net.nodes[n], step) && !step.TakeBlock? && !step.TakeChain?
    case SendTip(n, _) => n < |net.nodes| && net.nodes[n].chain.blocks != []
    case SendChain(n) => n < |net.nodes|
    case Deliver(n, m, now) => n < |net.nodes| && m in net.messages && Timed(net.nodes[n], DeliveryStep(m, now))
  }

  function NetNext(cfg: Config, net: Network, e: Event): Network
    requires ValidConfig(cfg) && Enabled(net, e)
  {
    match e
    case Internal(n, step) => net.(nodes := net.nodes[n := Next(cfg, net.nodes[n], step)])
    case SendTip(n, originKnown) =>
      net.(messages := net.messages + {TipMessage(BlockToJson(Last(net.nodes[n].chain.blocks)), originKnown)})
    case SendChain(n) => net.(messages := net.messages + {ChainMessage(BlocksToJson(net.nodes[n].chain.blocks))})
    case Deliver(n, m, now) => net.(nodes := net.nodes[n := Next(cfg, net.nodes[n], DeliveryStep(m, now))])
  }

  function Length(s: NodeState): nat {
    |s.chain.blocks|
  }

  /** The chain length a message speaks of. */
  function MessageLength(m: Message): nat {
    match m
    case TipMessage(tip, _) => tip.index + 1
    case ChainMessage(blocks) => |blocks|
  }

  /** No node and no message is longer than `l`. */
  predicate Within(net: Network, l: nat) {
    && (forall n :: 0 <= n < |net.nodes| ==> Length(net.nodes[n]) <= l)
    && (forall m :: m in net.messages ==> MessageLength(m) <= l)
  }

  predicate NodesValid(cfg: Config, net: Network) {
    forall n :: 0 <= n < |net.nodes| ==> BaseInv(cfg, net.nodes[n])
  }

  /** How far all nodes together are behind length `l`. */
  function Deficit(nodes: seq<NodeState>, l: nat): int {
    if nodes == [] then 0 else l - Length(nodes[0]) + Deficit(nodes[1..], l)
  }

  lemma {:induction false} DeficitUpdate(nodes: seq<NodeState>, n: nat, s: NodeState, l: nat)
    requires n < |nodes|
    ensures Deficit(nodes[n := s], l) == Deficit(nodes, l) + Length(nodes[n]) - Length(s)
  {
    if n == 0 {
      assert nodes[n := s][1..] == nodes[1..];
    } else {
      DeficitUpdate(nodes[1..], n - 1, s, l);
      assert nodes[n := s][1..] == nodes[1..][n - 1 := s];
    }
  }

  lemma {:induction false} DeficitNonNegative(nodes: seq<NodeState>, l: nat)
    requires forall n :: 0 <= n < |nodes| ==> Length(nodes[n]) <= l
    ensures 0 <= Deficit(nodes, l)
  {
    if nodes != [] { DeficitNonNegative(nodes[1..], l); }
  }

  lemma ParsedIndex(j: BlockJson)
    ensures BlockFromJson(j).Some? ==> BlockFromJson(j).value.index == j.index
  {
  }

  /** A delivery never makes a chain longer than the message says, and whatever it changes in
      the chain makes the chain longer. */
  lemma DeliveryLength(cfg: Config, s: NodeState, m: Message, now: nat)
    requires ValidConfig(cfg) && !cfg.pow && 0.0 < s.chain.adjuster.difficulty
    ensures var s' := Next(cfg, s, DeliveryStep(m, now));
            && Length(s) <= Length(s')
            && (s'.chain.blocks != s.chain.blocks ==> Length(s) < Length(s') <= MessageLength(m))
  {
    StepProgress(cfg, s, DeliveryStep(m, now));
    match m
    case TipMessage(tip, originKnown) => TipLength(cfg, s, tip, originKnown, now);
    case ChainMessage(blocks) =>
      if ChainFromJson(cfg, blocks, now).Some? { ParsedBlocks(cfg, blocks, now, 0); }
  }

  lemma TipLength(cfg: Config, s: NodeState, tip: BlockJson, originKnown: bool, now: nat)
    requires ValidConfig(cfg) && !cfg.pow
    ensures var s' := BlockTaken(cfg, s, tip, originKnown, now).state;
            s'.chain.blocks != s.chain.blocks ==> Length(s') == tip.index + 1
  {
    ParsedIndex(tip);
  }

  lemma QuietLength(cfg: Config, s: NodeState, step: Step)
    requires ValidConfig(cfg) && step.TakeTransaction?
    ensures Next(cfg, s, step).chain == s.chain
  {
  }

  predicate ChainsChanged(a: Network, b: Network) {
    |a.nodes| != |b.nodes| || exists n :: 0 <= n < |a.nodes| && a.nodes[n].chain.blocks != b.nodes[n].chain.blocks
  }

  lemma TipIndex(cfg: Config, s: NodeState)
    requires BaseInv(cfg, s) && s.chain.blocks != []
    ensures Last(s.chain.blocks).index + 1 == Length(s)
  {
    IndexIsPosition(cfg, s.chain.blocks, s.clock, |s.chain.blocks| - 1);
  }

  /** Every event keeps all nodes valid. */
  lemma EventKeepsValid(cfg: Config, net: Network, e: Event)
    requires ValidConfig(cfg) && NodesValid(cfg, net) && Enabled(net, e)
    ensures NodesValid(cfg, NetNext(cfg, net, e)) && |NetNext(cfg, net, e).nodes| == |net.nodes|
  {
    match e
    case Internal(n, step) => NextKeepsBase(cfg, net.nodes[n], step);
    case SendTip(n, _) =>
    case SendChain(n) =>
    case Deliver(n, m, now) => NextKeepsBase(cfg, net.nodes[n], DeliveryStep(m, now));
  }

  lemma ReplaceNode(net: Network, n: nat, s: NodeState, l: nat)
    requires Within(net, l) && n < |net.nodes| && Length(s) <= l
    ensures Within(net.(nodes := net.nodes[n := s]), l)
    ensures Deficit(net.nodes[n := s], l) == Deficit(net.nodes, l) + Length(net.nodes[n]) - Length(s)
    ensures ChainsChanged(net, net.(nodes := net.nodes[n := s])) ==> s.chain.blocks != net.nodes[n].chain.blocks
  {
    DeficitUpdate(net.nodes, n, s, l);
  }

  /** The deficit never grows while nobody mines, and every change of a chain lowers it. */
  lemma EventLowersDeficit(cfg: Config, net: Network, e: Event, l: nat)
    requires ValidConfig(cfg) && !cfg.pow && NodesValid(cfg, net) && Within(net, l)
    requires Enabled(net, e) && !Mines(e)
    ensures var net' := NetNext(cfg, net, e);
            && Within(net', l)
            && Deficit(net'.nodes, l) + (if ChainsChanged(net, net') then 1 else 0) <= Deficit(net.nodes, l)
  {
    match e
    case Internal(n, step) =>
      QuietLength(cfg, net.nodes[n], step);
      ReplaceNode(net, n, Next(cfg, net.nodes[n], step), l);
    case SendTip(n, _) => TipIndex(cfg, net.nodes[n]);
    case SendChain(n) =>
    case Deliver(n, m, now) =>
      assert BaseInv(cfg, net.nodes[n]);
      DeliveryLength(cfg, net.nodes[n], m, now);
      ReplaceNode(net, n, Next(cfg, net.nodes[n], DeliveryStep(m, now)), l);
  }

  predicate EventAt(cfg: Config, nets: seq<Network>, events: seq<Event>, i: nat)
    requires ValidConfig(cfg) && i < |events| < |nets|
  {
    Enabled(nets[i], events[i]) && nets[i + 1] == NetNext(cfg, nets[i], events[i])
  }

  /** Any finite history of a network that starts with empty nodes and no messages. */
  predicate History(cfg: Config, nets: seq<Network>, events: seq<Event>)
    requires ValidConfig(cfg)
  {
    && |nets| == |events| + 1
    && nets[0].messages == {} && (forall n :: 0 <= n < |nets[0].nodes| ==> nets[0].nodes[n] == Start(cfg))
    && (forall i :: 0 <= i < |events| ==> EventAt(cfg, nets, events, i))
  }

  /** Appends and replacements between two points of a history. */
  function Changes(nets: seq<Network>, i: nat, j: nat): nat
    requires i <= j < |nets|
    decreases j
  {
    if i == j then 0 else Changes(nets, i, j - 1) + (if ChainsChanged(nets[j - 1], nets[j]) then 1 else 0)
  }

  lemma {:induction false} HistoryValid(cfg: Config, nets: seq<Network>, events: seq<Event>, i: nat)
    requires ValidConfig(cfg) && History(cfg, nets, events) && i < |nets|
    ensures NodesValid(cfg, nets[i])
  {
    if i > 0 {
      HistoryValid(cfg, nets, events, i - 1);
      assert EventAt(cfg, nets, events, i - 1);
      EventKeepsValid(cfg, nets[i - 1], events[i - 1]);
    }
  }

  /** The longest chain held by any node. */
  function Longest(nodes: seq<NodeState>): nat {
    if nodes == [] then 0
    else if Length(nodes[0]) > Longest(nodes[1..]) then Length(nodes[0]) else Longest(nodes[1..])
  }

  lemma {:induction false} LongestBounds(nodes: seq<NodeState>, n: nat)
    requires n < |nodes|
    ensures Length(nodes[n]) <= Longest(nodes)
  {
    if n > 0 { LongestBounds(nodes[1..], n - 1); }
  }

  lemma {:induction false} LongestLeast(nodes: seq<NodeState>, l: nat)
    requires forall n :: 0 <= n < |nodes| ==> Length(nodes[n]) <= l
    ensures Longest(nodes) <= l
  {
    if nodes != [] { LongestLeast(nodes[1..], l); }
  }

  lemma LongestGrows(a: seq<NodeState>, b: seq<NodeState>)
    requires |a| == |b| && forall n :: 0 <= n < |a| ==> Length(a[n]) <= Length(b[n])
    ensures Longest(a) <= Longest(b)
  {
    forall n | 0 <= n < |a|
      ensures Length(a[n]) <= Longest(b)
    {
      LongestBounds(b, n);
    }
    LongestLeast(a, Longest(b));
  }

  lemma EventLength(cfg: Config, net: Network, e: Event)
    requires ValidConfig(cfg) && !cfg.pow && NodesValid(cfg, net) && Enabled(net, e)
    ensures var net' := NetNext(cfg, net, e);
            |net'.nodes| == |net.nodes|
            && forall n :: 0 <= n < |net.nodes| ==> Length(net.nodes[n]) <= Length(net'.nodes[n])
  {
    match e
    case Internal(n, step) =>
      assert BaseInv(cfg, net.nodes[n]);
      StepProgress(cfg, net.nodes[n], step);
    case SendTip(n, _) =>
    case SendChain(n) =>
    case Deliver(n, m, now) =>
      assert BaseInv(cfg, net.nodes[n]);
      StepProgress(cfg, net.nodes[n], DeliveryStep(m, now));
  }

  /** No message ever speaks of a chain longer than the longest one some node holds. */
  lemma {:induction false} HistoryWithin(cfg: Config, nets: seq<Network>, events: seq<Event>, i: nat)
    requires ValidConfig(cfg) && !cfg.pow && History(cfg, nets, events) && i < |nets|
    ensures Within(nets[i], Longest(nets[i].nodes))
  {
    forall n | 0 <= n < |nets[i].nodes|
      ensures Length(nets[i].nodes[n]) <= Longest(nets[i].nodes)
    {
      LongestBounds(nets[i].nodes, n);
    }
    if i > 0 {
      HistoryWithin(cfg, nets, events, i - 1);
      HistoryValid(cfg, nets, events, i - 1);
      assert EventAt(cfg, nets, events, i - 1);
      MessagesWithin(cfg, nets[i - 1], events[i - 1]);
    }
  }

  lemma MessagesWithin(cfg: Config, net: Network, e: Event)
    requires ValidConfig(cfg) && !cfg.pow && NodesValid(cfg, net) && Enabled(net, e)
    requires Within(net, Longest(net.nodes))
    ensures var net' := NetNext(cfg, net, e);
            forall m :: m in net'.messages ==> MessageLength(m) <= Longest(net'.nodes)
  {
    EventLength(cfg, net, e);
    LongestGrows(net.nodes, NetNext(cfg, net, e).nodes);
    if e.SendTip? {
      TipIndex(cfg, net.nodes[e.n]);
      LongestBounds(net.nodes, e.n);
    } else if e.SendChain? {
      LongestBounds(net.nodes, e.n);
    }
  }

  lemma {:induction false} QuietPeriod(cfg: Config, nets: seq<Network>, events: seq<Event>, i: nat, j: nat, l: nat)
    requires ValidConfig(cfg) && !cfg.pow && History(cfg, nets, events) && i <= j < |nets|
    requires forall k :: i <= k < j ==> !Mines(events[k])
    requires Within(nets[i], l)
    ensures Within(nets[j], l) && Changes(nets, i, j) + Deficit(nets[j].nodes, l) <= Deficit(nets[i].nodes, l)
    decreases j
  {
    hide Within, NetNext, NodesValid, Mines, Deficit, ChainsChanged;
    if i < j {
      QuietPeriod(cfg, nets, events, i, j - 1, l);
      HistoryValid(cfg, nets, events, j - 1);
      assert EventAt(cfg, nets, events, j - 1);
      EventLowersDeficit(cfg, nets[j - 1], events[j - 1], l);
    }
  }

  /** Quiescence, without proof of work: from any point of any history on, as long as nobody
      mines, the number of appends and replacements over all nodes is at most the sum over the
      nodes of the longest length minus their own, whatever the order, repetition or loss of
      messages. */
  lemma Quiescence(cfg: Config, nets: seq<Network>, events: seq<Event>, i: nat, j: nat)
    requires ValidConfig(cfg) && !cfg.pow && History(cfg, nets, events) && i <= j < |nets|
    requires forall k :: i <= k < j ==> !Mines(events[k])
    ensures Changes(nets, i, j) <= Deficit(nets[i].nodes, Longest(nets[i].nodes))
  {
    var l := Longest(nets[i].nodes);
    HistoryWithin(cfg, nets, events, i);
    QuietPeriod(cfg, nets, events, i, j, l);
    DeficitNonNegative(nets[j].nodes, l);
  }
}
