/** Safety over every run of a node, from an empty chain through any sequence of mining,
    transactions, received blocks and received chains. */
module Runs {
  import opened Options
  import opened Records
  import opened Digests
  import opened Difficulty
  import opened Validity
  import opened Unspent
  import opened Ledger
  import opened Pools
  import opened Blocks
  import opened Nodes

  // ---------- runs ----------

  predicate Ascending(now: nat, readings: seq<nat>) {
    && (forall i :: 0 <= i < |readings| ==> now <= readings[i])
    && (forall i, j :: 0 <= i < j < |readings| ==> readings[i] <= readings[j])
  }

  /** The clock never runs backwards. */
  predicate Timed(s: NodeState, step: Step) {
    match step
    case MineBlock(_, now, readings) => s.clock <= now && Ascending(now, readings)
    case MineText(_, now, readings) => s.clock <= now && Ascending(now, readings)
    case TakeTransaction(_) => true
    case TakeBlock(_, _, now) => s.clock <= now
    case TakeChain(_, now) => s.clock <= now
  }

  /** The step takes over a received chain. */
  predicate Replaces(cfg: Config, s: NodeState, step: Step)
    requires ValidConfig(cfg)
  {
    step.TakeChain? &&
    var c := ChainFromJson(cfg, step.blocks, step.now);
    c.Some? && ChainOk(cfg, c.value.blocks, step.now) && Better(cfg, c.value, s.chain)
  }

  predicate Run(cfg: Config, states: seq<NodeState>, steps: seq<Step>)
    requires ValidConfig(cfg)
  {
    && |states| == |steps| + 1
    && states[0] == Start(cfg)
    && (forall i :: 0 <= i < |steps| ==> StepAt(cfg, states, steps, i))
  }

  predicate StepAt(cfg: Config, states: seq<NodeState>, steps: seq<Step>, i: nat)
    requires ValidConfig(cfg) && i < |steps| < |states|
  {
    Timed(states[i], steps[i]) && states[i + 1] == Next(cfg, states[i], steps[i])
  }

  // ---------- chains stay valid ----------

  predicate ValidOrEmpty(cfg: Config, bs: seq<Block>, now: int) {
    bs == [] || ChainOk(cfg, bs, now)
  }

  lemma LastReadingIsLast(now: nat, readings: seq<nat>)
    requires Ascending(now, readings)
    ensures now <= LastReading(now, readings)
    ensures forall r :: r in readings ==> now <= r <= LastReading(now, readings)
  {
  }

  lemma ValidOrEmptyLater(cfg: Config, bs: seq<Block>, now: int, later: int)
    requires ValidOrEmpty(cfg, bs, now) && now <= later
    ensures ValidOrEmpty(cfg, bs, later)
  {
    if bs != [] { ChainOkLater(cfg, bs, now, later); }
  }

  /** The block about to be built succeeds the tip: the tip's timestamp was limited when it was
      validated, and the clock has only advanced since. */
  lemma NewBlockSucceeds(cfg: Config, bs: seq<Block>, data: Data, clock: nat, now: nat)
    requires ValidOrEmpty(cfg, bs, clock) && clock <= now
    ensures var b := NewBlock(cfg, bs, data, now);
            && b.index == |bs| && b.data == data
            && (if bs == [] then IsGenesis(b) else IsSuccessor(cfg, b, Last(bs)))
  {
    if bs != [] {
      assert BlockOk(cfg, Last(bs), clock);
      IndexIsPosition(cfg, bs, clock, |bs| - 1);
    }
  }

  /** Mining appends one valid block carrying the given data, or leaves the blocks alone. */
  lemma ConstructedExtends(cfg: Config, c: Chain, data: Data, clock: nat, now: nat, readings: seq<nat>)
    requires ValidConfig(cfg) && ValidOrEmpty(cfg, c.blocks, clock) && clock <= now && Ascending(now, readings)
    ensures var r := Constructed(cfg, c, data, now, readings);
            && ValidOrEmpty(cfg, r.state.blocks, LastReading(now, readings))
            && (r.Thrown? ==> r.state.blocks == c.blocks)
            && (r.Done? ==> r.state.blocks != [] && r.state.blocks == c.blocks + [Last(r.state.blocks)]
                            && Last(r.state.blocks).data == data && Last(r.state.blocks).index == |c.blocks|
                            && DataOk(cfg, data, |c.blocks|))
  {
    var r, later := Constructed(cfg, c, data, now, readings), LastReading(now, readings);
    LastReadingIsLast(now, readings);
    ValidOrEmptyLater(cfg, c.blocks, clock, later);
    NewBlockSucceeds(cfg, c.blocks, data, clock, now);
    if r.Done? {
      var b := Last(r.state.blocks);
      if cfg.pow {
        var adjuster := Adjusted(cfg.difficulty, c.adjuster, now);
        SearchFinds(cfg, NewBlock(cfg, c.blocks, data, now), Target(adjuster.difficulty), readings);
      }
      ChainOkSnoc(cfg, c.blocks, b, later);
    }
  }

  lemma AppendedExtends(cfg: Config, c: Chain, b: Block, now: int)
    requires ValidConfig(cfg) && ValidOrEmpty(cfg, c.blocks, now)
    requires Extends(cfg, c.blocks, b)
    ensures var r := Appended(cfg, c, b, now);
            && ValidOrEmpty(cfg, r.state.blocks, now)
            && r.state.blocks == (if r.Done? then c.blocks + [b] else c.blocks)
  {
    if Appended(cfg, c, b, now).Done? { ChainOkSnoc(cfg, c.blocks, b, now); }
  }

  // ---------- what every run keeps, whatever the messages ----------

  /** Chain validity, a positive difficulty, a bounded pool of transactions that validated and, while
      synced, agreement of the cache with the replay of the chain. */
  predicate BaseInv(cfg: Config, s: NodeState) {
    && ValidOrEmpty(cfg, s.chain.blocks, s.clock)
    && 0.0 < s.chain.adjuster.difficulty
    && PoolValid(cfg, s.pool)
    && (s.synced ==> s.utxo == Replay(s.chain.blocks))
  }

  predicate PoolValid(cfg: Config, pool: seq<Tx>) {
    |pool| <= cfg.numPerBlock && forall t :: t in pool ==> TxOk(cfg, t)
  }

  lemma ReplaySnoc(bs: seq<Block>, b: Block)
    ensures Replay(bs + [b]) == UpdatedAll(Replay(bs), TxsOf(b.data))
    ensures ChainTxs(bs + [b]) == ChainTxs(bs) + TxSet(TxsOf(b.data))
  {
    assert (bs + [b])[..|bs + [b]| - 1] == bs;
  }

  lemma ConstructedAdjuster(cfg: Config, c: Chain, data: Data, now: nat, readings: seq<nat>)
    requires ValidConfig(cfg) && 0.0 < c.adjuster.difficulty
    ensures 0.0 < Constructed(cfg, c, data, now, readings).state.adjuster.difficulty
    ensures c.adjuster.cumulative <= Constructed(cfg, c, data, now, readings).state.adjuster.cumulative
  {
    CumulativeMonotone(cfg.difficulty, c.adjuster, now);
  }

  lemma AppendedAdjuster(cfg: Config, c: Chain, b: Block, now: int)
    requires ValidConfig(cfg) && 0.0 < c.adjuster.difficulty
    ensures 0.0 < Appended(cfg, c, b, now).state.adjuster.difficulty
    ensures c.adjuster.cumulative <= Appended(cfg, c, b, now).state.adjuster.cumulative
  {
    CumulativeMonotone(cfg.difficulty, c.adjuster, b.timestamp);
  }

  lemma {:induction false} ParsedAdjuster(cfg: Config, js: seq<BlockJson>, now: int)
    requires ValidConfig(cfg) && ChainFromJson(cfg, js, now).Some?
    ensures 0.0 < ChainFromJson(cfg, js, now).value.adjuster.difficulty
  {
    if js != [] {
      var before := js[..|js| - 1];
      ParsedAdjuster(cfg, before, now);
      AppendedAdjuster(cfg, ChainFromJson(cfg, before, now).value, BlockFromJson(js[|js| - 1]).value, now);
    }
  }

  /** What a construction attempt may return. */
  predicate Extended(cfg: Config, c: Chain, ts: seq<Tx>, r: Outcome<Chain>, now: int) {
    && ValidOrEmpty(cfg, r.state.blocks, now)
    && 0.0 < r.state.adjuster.difficulty
    && (r.Thrown? ==> r.state.blocks == c.blocks)
    && (r.Done? ==> r.state.blocks != [] && r.state.blocks == c.blocks + [Last(r.state.blocks)]
                    && TxsOf(Last(r.state.blocks).data) == ts)
  }

  lemma AfterMiningKeepsBase(cfg: Config, s: NodeState, ts: seq<Tx>, rest: seq<Tx>, r: Outcome<Chain>)
    requires s.synced ==> s.utxo == Replay(s.chain.blocks)
    requires PoolValid(cfg, rest) && Extended(cfg, s.chain, ts, r, s.clock)
    ensures BaseInv(cfg, AfterMining(s, ts, rest, r).state)
  {
    PrunedShrinks(rest, UpdatedAll(s.utxo, ts));
    if r.Done? { ReplaySnoc(s.chain.blocks, Last(r.state.blocks)); }
  }

  lemma MineKeepsBase(cfg: Config, s: NodeState, address: string, now: nat, readings: seq<nat>)
    requires ValidConfig(cfg) && BaseInv(cfg, s) && Timed(s, MineBlock(address, now, readings))
    ensures BaseInv(cfg, Mined(cfg, s, address, now, readings).state)
  {
    var ts, rest := Assembled(cfg, s, address), s.pool[Min(cfg.numPerBlock, |s.pool|)..];
    var r := Constructed(cfg, s.chain, Transactions(ts), now, readings);
    assert Extended(cfg, s.chain, ts, r, LastReading(now, readings)) by {
      ConstructedExtends(cfg, s.chain, Transactions(ts), s.clock, now, readings);
      ConstructedAdjuster(cfg, s.chain, Transactions(ts), now, readings);
    }
    AfterMiningKeepsBase(cfg, s.(clock := LastReading(now, readings)), ts, rest, r);
  }

  lemma MineTextKeepsBase(cfg: Config, s: NodeState, text: string, now: nat, readings: seq<nat>)
    requires ValidConfig(cfg) && BaseInv(cfg, s) && Timed(s, MineText(text, now, readings))
    ensures BaseInv(cfg, MinedText(cfg, s, text, now, readings).state)
  {
    var r := Constructed(cfg, s.chain, Text(text), now, readings);
    ConstructedExtends(cfg, s.chain, Text(text), s.clock, now, readings);
    ConstructedAdjuster(cfg, s.chain, Text(text), now, readings);
    if r.Done? { ReplaySnoc(s.chain.blocks, Last(r.state.blocks)); }
  }

  lemma AppliedShrinks(s: NodeState, ts: seq<Tx>)
    ensures |Applied(s, ts).pool| <= |s.pool|
    ensures forall t :: t in Applied(s, ts).pool ==> t in s.pool
  {
    RemovedShrinks(s.pool, ts);
    PrunedShrinks(RemovedAll(s.pool, ts), UpdatedAll(s.utxo, ts));
  }

  lemma JudgedKeepsBase(cfg: Config, s: NodeState, b: Block, originKnown: bool)
    requires ValidConfig(cfg) && BaseInv(cfg, s)
    ensures BaseInv(cfg, Judged(cfg, s, b, originKnown, s.clock).state)
  {
    hide BlockOk, TxOk, ValidOrEmpty, Appended, Extends, Replay, ChainTxs, TxSet, UpdatedAll, Pruned, RemovedAll;
    var bs := s.chain.blocks;
    AppliedShrinks(s, TxsOf(b.data));
    AppendedAdjuster(cfg, s.chain, b, s.clock);
    if Extends(cfg, bs, b) {
      AppendedExtends(cfg, s.chain, b, s.clock);
      ReplaySnoc(bs, b);
    }
  }

  lemma BlockKeepsBase(cfg: Config, s: NodeState, j: BlockJson, originKnown: bool, now: nat)
    requires ValidConfig(cfg) && BaseInv(cfg, s) && s.clock <= now
    ensures BaseInv(cfg, BlockTaken(cfg, s, j, originKnown, now).state)
  {
    ValidOrEmptyLater(cfg, s.chain.blocks, s.clock, now);
    if BlockFromJson(j).Some? {
      JudgedKeepsBase(cfg, s.(clock := now), RelinkBlock(BlockFromJson(j).value, s.utxo), originKnown);
    }
  }

  lemma ChainKeepsBase(cfg: Config, s: NodeState, js: seq<BlockJson>, now: nat)
    requires ValidConfig(cfg) && BaseInv(cfg, s) && s.clock <= now
    ensures BaseInv(cfg, ChainTaken(cfg, s, js, now).state)
  {
    ValidOrEmptyLater(cfg, s.chain.blocks, s.clock, now);
    if ChainFromJson(cfg, js, now).Some? { ParsedAdjuster(cfg, js, now); }
  }

  lemma NextKeepsBase(cfg: Config, s: NodeState, step: Step)
    requires ValidConfig(cfg) && BaseInv(cfg, s) && Timed(s, step)
    ensures BaseInv(cfg, Next(cfg, s, step))
  {
    match step
    case MineBlock(address, now, readings) => MineKeepsBase(cfg, s, address, now, readings);
    case MineText(text, now, readings) => MineTextKeepsBase(cfg, s, text, now, readings);
    case TakeTransaction(j) =>
    case TakeBlock(j, originKnown, now) => BlockKeepsBase(cfg, s, j, originKnown, now);
    case TakeChain(js, now) => ChainKeepsBase(cfg, s, js, now);
  }

  lemma {:induction false} RunKeepsBase(cfg: Config, states: seq<NodeState>, steps: seq<Step>, i: nat)
    requires ValidConfig(cfg) && Run(cfg, states, steps) && i < |states|
    ensures BaseInv(cfg, states[i])
  {
    if i > 0 {
      RunKeepsBase(cfg, states, steps, i - 1);
      BaseAt(cfg, states, steps, i - 1);
    }
  }

  lemma BaseAt(cfg: Config, states: seq<NodeState>, steps: seq<Step>, i: nat)
    requires ValidConfig(cfg) && Run(cfg, states, steps) && i < |steps| && BaseInv(cfg, states[i])
    ensures BaseInv(cfg, states[i + 1])
  {
    assert StepAt(cfg, states, steps, i);
    NextKeepsBase(cfg, states[i], steps[i]);
  }

  /** Every non-empty chain of every run passes Blockchain::valid, now and at any later time. */
  lemma RunChainsValid(cfg: Config, states: seq<NodeState>, steps: seq<Step>, i: nat, later: int)
    requires ValidConfig(cfg) && Run(cfg, states, steps) && i < |states|
    requires states[i].clock <= later && states[i].chain.blocks != []
    ensures ChainOk(cfg, states[i].chain.blocks, later)
  {
    RunKeepsBase(cfg, states, steps, i);
    ChainOkLater(cfg, states[i].chain.blocks, states[i].clock, later);
  }

  /** Cache agreement: in every synced state of every run the unspent outputs are the replay of
      the chain. */
  lemma RunCacheAgrees(cfg: Config, states: seq<NodeState>, steps: seq<Step>, i: nat)
    requires ValidConfig(cfg) && Run(cfg, states, steps) && i < |states| && states[i].synced
    ensures states[i].utxo == Replay(states[i].chain.blocks)
  {
    RunKeepsBase(cfg, states, steps, i);
  }

  lemma ReplacedState(cfg: Config, s: NodeState, step: Step)
    requires ValidConfig(cfg) && Replaces(cfg, s, step)
    ensures var c := ChainFromJson(cfg, step.blocks, step.now).value;
            Next(cfg, s, step) == NodeState(c, Replay(c.blocks), [], true, step.now)
  {
    hide ChainFromJson, ChainOk, Better, Replay;
  }

  lemma ConstructedKeeps(cfg: Config, c: Chain, data: Data, now: nat, readings: seq<nat>)
    requires ValidConfig(cfg)
    ensures c.blocks <= Constructed(cfg, c, data, now, readings).state.blocks
  {
    hide BlockOk, NewBlock, Search, Adjusted;
  }

  lemma AppendedKeeps(cfg: Config, c: Chain, b: Block, now: int)
    requires ValidConfig(cfg)
    ensures c.blocks <= Appended(cfg, c, b, now).state.blocks
  {
    hide BlockOk, LinksTo, Adjusted, ReceiverAccepts;
  }

  lemma BlockExtends(cfg: Config, s: NodeState, j: BlockJson, originKnown: bool, now: nat)
    requires ValidConfig(cfg)
    ensures s.chain.blocks <= BlockTaken(cfg, s, j, originKnown, now).state.chain.blocks
  {
    hide BlockFromJson, BlockOk, Extends, Appended, UpdatedAll, Pruned, RemovedAll;
    if BlockFromJson(j).Some? { AppendedKeeps(cfg, s.chain, RelinkBlock(BlockFromJson(j).value, s.utxo), now); }
  }

  /** Every step that does not replace the chain keeps it or extends it by one block. */
  lemma StepExtends(cfg: Config, s: NodeState, step: Step)
    requires ValidConfig(cfg) && !Replaces(cfg, s, step)
    ensures s.chain.blocks <= Next(cfg, s, step).chain.blocks
  {
    hide Constructed, BlockTaken, ChainFromJson, ChainOk, Better, Added, Assembled, UpdatedAll, Pruned;
    match step
    case MineBlock(address, now, readings) =>
      ConstructedKeeps(cfg, s.chain, Transactions(Assembled(cfg, s, address)), now, readings);
    case MineText(text, now, readings) => ConstructedKeeps(cfg, s.chain, Text(text), now, readings);
    case TakeTransaction(j) =>
    case TakeBlock(j, originKnown, now) => BlockExtends(cfg, s, j, originKnown, now);
    case TakeChain(js, now) =>
  }

  lemma {:induction false} RunExtends(cfg: Config, states: seq<NodeState>, steps: seq<Step>, i: nat, j: nat)
    requires ValidConfig(cfg) && Run(cfg, states, steps) && i <= j < |states|
    requires forall r :: i <= r < j ==> !Replaces(cfg, states[r], steps[r])
    ensures states[i].chain.blocks <= states[j].chain.blocks
    decreases j
  {
    if i < j {
      RunExtends(cfg, states, steps, i, j - 1);
      ExtendsAt(cfg, states, steps, j - 1);
    }
  }

  lemma ExtendsAt(cfg: Config, states: seq<NodeState>, steps: seq<Step>, i: nat)
    requires ValidConfig(cfg) && Run(cfg, states, steps) && i < |steps| && !Replaces(cfg, states[i], steps[i])
    ensures states[i].chain.blocks <= states[i + 1].chain.blocks
  {
    assert StepAt(cfg, states, steps, i);
    StepExtends(cfg, states[i], steps[i]);
  }

  // ---------- which chain and which block a node takes ----------

  /** The heavier chain wins, exactly: a received chain that parses and is valid is taken over when the
      difficulties set along its timestamps add up to more than the own cumulative difficulty, both
      truncated, whatever the lengths; without proof of work when it has more blocks. In particular
      it is always taken when it is ahead by one, and never when it is behind. */
  lemma HeavierChainWins(cfg: Config, s: NodeState, js: seq<BlockJson>, now: nat)
    requires ValidConfig(cfg) && ChainFromJson(cfg, js, now).Some?
    requires ChainOk(cfg, ChainFromJson(cfg, js, now).value.blocks, now)
    ensures var c, mine := ChainFromJson(cfg, js, now).value, s.chain.adjuster.cumulative;
            var theirs := AdjustedSum(cfg.difficulty, Times(c.blocks));
            var taken, kept := NodeState(c, Replay(c.blocks), [], true, now), s.(clock := now);
            var r := ChainTaken(cfg, s, js, now);
            && r == Done(if (if cfg.pow then theirs.Floor > mine.Floor else |c.blocks| > |s.chain.blocks|)
                         then taken else kept)
            && (cfg.pow && theirs >= mine + 1.0 ==> r.state == taken)
            && (cfg.pow && theirs <= mine ==> r.state == kept)
  {
    hide ChainFromJson, ChainOk, Replay, After, AdjustedSum;
    var c := ChainFromJson(cfg, js, now).value;
    AdjusterReplays(cfg, js, now);
    AdjusterTracks(cfg.difficulty, Times(c.blocks));
  }

  /** Cache and pool of `r` are those of `s` after the transactions of the block: updated, then taken out of
      the pool, then pruned. */
  predicate TookAll(s: NodeState, b: Block, r: NodeState) {
    && r.utxo == UpdatedAll(s.utxo, TxsOf(b.data))
    && r.pool == Pruned(RemovedAll(s.pool, TxsOf(b.data)), r.utxo)
  }

  /** What a node does with a received block that parses, case by case. */
  lemma TakesBlockExactly(cfg: Config, s: NodeState, j: BlockJson, originKnown: bool, now: nat)
    requires ValidConfig(cfg) && BlockFromJson(j).Some?
    ensures var bs, b := s.chain.blocks, RelinkBlock(BlockFromJson(j).value, s.utxo);
            var r, same := BlockTaken(cfg, s, j, originKnown, now), s.(clock := now);
            var a := Adjusted(cfg.difficulty, s.chain.adjuster, b.timestamp);
            if !BlockOk(cfg, b, now) || (b.index > |bs| && !originKnown) then r == Thrown(same)
            else if b.index > |bs| then
              r.Done? && r.state.chain == s.chain && !r.state.synced && TookAll(s, b, r.state)
            else if || b.index < |bs|
                    || b.hashPrev != (if bs == [] then None else Some(Last(bs).hash))
                    || (bs != [] && (b.index != Last(bs).index + 1
                                     || b.timestamp + cfg.timeMaxDelta <= Last(bs).timestamp))
            then r == Done(same)
            else if cfg.pow && Pow2(ZeroPrefixLength(b.hash)) as real < a.difficulty
            then r == Thrown(same.(chain := s.chain.(adjuster := a)))
            else r.Done? && r.state.chain == Chain(bs + [b], if cfg.pow then a else s.chain.adjuster)
                 && TookAll(s, b, r.state) && r.state.synced == s.synced
  {
    hide BlockFromJson, BlockOk, Adjusted, UpdatedAll, Pruned, RemovedAll, ZeroPrefixLength, Pow2;
  }

  /** Messages that do not parse, and chains that are not valid, are refused and change nothing. */
  lemma BadMessagesRefused(cfg: Config, s: NodeState, t: TxJson, j: BlockJson, originKnown: bool,
                           js: seq<BlockJson>, now: nat)
    requires ValidConfig(cfg)
    ensures TxFromJson(t).None? ==> TransactionTaken(cfg, s, t) == Thrown(s)
    ensures BlockFromJson(j).None? ==> BlockTaken(cfg, s, j, originKnown, now) == Thrown(s.(clock := now))
    ensures var c := ChainFromJson(cfg, js, now);
            c.None? || !ChainOk(cfg, c.value.blocks, now) ==> ChainTaken(cfg, s, js, now) == Thrown(s.(clock := now))
  {
    hide TxFromJson, BlockFromJson, ChainFromJson, ChainOk, Better, Judged, Added;
  }

  /** Posting changes the pool and nothing else; mining a text block changes the chain and nothing else. */
  lemma OtherPartsKept(cfg: Config, s: NodeState, t: TxJson, text: string, now: nat, readings: seq<nat>)
    requires ValidConfig(cfg)
    ensures var r := TransactionTaken(cfg, s, t).state; r == s.(pool := r.pool)
    ensures var r := MinedText(cfg, s, text, now, readings).state;
            r == s.(chain := r.chain, clock := LastReading(now, readings))
  {
    hide TxFromJson, Added, Constructed;
  }

  /** A block with too many transactions is refused. */
  lemma LongBlockRefused(cfg: Config, s: NodeState, j: BlockJson, originKnown: bool, now: nat)
    requires ValidConfig(cfg) && BlockFromJson(j).Some? && BlockFromJson(j).value.data.Transactions?
    requires |BlockFromJson(j).value.data.list| > cfg.numPerBlock + 1
    ensures BlockTaken(cfg, s, j, originKnown, now) == Thrown(s.(clock := now))
  {
    hide BlockFromJson, BlockOk;
    TakesBlockExactly(cfg, s, j, originKnown, now);
    BadBlockInvalid(cfg, RelinkBlock(BlockFromJson(j).value, s.utxo), now);
  }

  // ---------- progress ----------

  /** By the measure chains are compared with, before any truncation, `d` is not behind `c`. */
  predicate NotBehind(cfg: Config, c: Chain, d: Chain) {
    if cfg.pow then c.adjuster.cumulative <= d.adjuster.cumulative else |c.blocks| <= |d.blocks|
  }

  predicate Ahead(cfg: Config, c: Chain, d: Chain) {
    if cfg.pow then c.adjuster.cumulative < d.adjuster.cumulative else |c.blocks| < |d.blocks|
  }

  lemma ConstructedProgress(cfg: Config, c: Chain, data: Data, now: nat, readings: seq<nat>)
    requires ValidConfig(cfg) && 0.0 < c.adjuster.difficulty
    ensures var r := Constructed(cfg, c, data, now, readings);
            NotBehind(cfg, c, r.state) && (r.Done? ==> |r.state.blocks| == |c.blocks| + 1)
            && (r.Thrown? ==> r.state.blocks == c.blocks)
  {
    ConstructedAdjuster(cfg, c, data, now, readings);
  }

  lemma AppendedProgress(cfg: Config, c: Chain, b: Block, now: int)
    requires ValidConfig(cfg) && 0.0 < c.adjuster.difficulty
    ensures var r := Appended(cfg, c, b, now);
            NotBehind(cfg, c, r.state) && (r.Done? ==> |r.state.blocks| == |c.blocks| + 1)
            && (r.Thrown? ==> r.state.blocks == c.blocks)
  {
    AppendedAdjuster(cfg, c, b, now);
  }

  /** Progress is monotone: no step falls behind, even when a block is rejected after the
      adjuster has advanced; mining and appending add one block; replacing is strictly ahead. */
  lemma StepProgress(cfg: Config, s: NodeState, step: Step)
    requires ValidConfig(cfg) && 0.0 < s.chain.adjuster.difficulty
    ensures var c, d := s.chain, Next(cfg, s, step).chain;
            && NotBehind(cfg, c, d)
            && (Replaces(cfg, s, step) ==> Ahead(cfg, c, d))
            && (d.blocks != c.blocks ==> Replaces(cfg, s, step) || |d.blocks| == |c.blocks| + 1)
  {
    hide Constructed, Appended, Assembled, UpdatedAll, Pruned, RemovedAll, BlockOk, Extends, ChainTaken, Added;
    match step
    case MineBlock(address, now, readings) =>
      ConstructedProgress(cfg, s.chain, Transactions(Assembled(cfg, s, address)), now, readings);
    case MineText(text, now, readings) => ConstructedProgress(cfg, s.chain, Text(text), now, readings);
    case TakeTransaction(j) =>
    case TakeBlock(j, originKnown, now) =>
      if BlockFromJson(j).Some? {
        AppendedProgress(cfg, s.chain, RelinkBlock(BlockFromJson(j).value, s.utxo), now);
      }
    case TakeChain(js, now) => ChainProgress(cfg, s, js, now);
  }

  lemma ChainProgress(cfg: Config, s: NodeState, js: seq<BlockJson>, now: nat)
    requires ValidConfig(cfg)
    ensures var c, d := s.chain, ChainTaken(cfg, s, js, now).state.chain;
            if Replaces(cfg, s, TakeChain(js, now)) then Ahead(cfg, c, d) else d == c
  {
  }

  /** Progress along a whole run. */
  lemma {:induction false} RunProgress(cfg: Config, states: seq<NodeState>, steps: seq<Step>, i: nat, j: nat)
    requires ValidConfig(cfg) && Run(cfg, states, steps) && i <= j < |states|
    ensures NotBehind(cfg, states[i].chain, states[j].chain)
    decreases j
  {
    if i < j {
      RunProgress(cfg, states, steps, i, j - 1);
      RunKeepsBase(cfg, states, steps, j - 1);
      ProgressAt(cfg, states, steps, j - 1);
    }
  }

  lemma ProgressAt(cfg: Config, states: seq<NodeState>, steps: seq<Step>, i: nat)
    requires ValidConfig(cfg) && Run(cfg, states, steps) && i < |steps| && BaseInv(cfg, states[i])
    ensures NotBehind(cfg, states[i].chain, states[i + 1].chain)
  {
    assert StepAt(cfg, states, steps, i);
    StepProgress(cfg, states[i], steps[i]);
  }
}
