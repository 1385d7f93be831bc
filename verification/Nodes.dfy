/** A node: its chain, its cache of unspent outputs and its pool, and the handlers that change
    them, each as one atomic step (src/node.cc). */
module Nodes {
  import opened Options
  import opened Records
  import opened Unspent
  import opened Ledger
  import opened Pools
  import opened Blocks

  /** `synced` and `clock` are history: whether the cache still belongs to the chain, and the
      last clock reading. */
  datatype NodeState = NodeState(chain: Chain, utxo: seq<UTxO>, pool: seq<Tx>, synced: bool, clock: nat)

  /** What can reach a node. Posting and receiving a transaction have the same effect on it. */
  datatype Step =
    | MineBlock(address: string, now: nat, readings: seq<nat>)
    | MineText(text: string, now: nat, readings: seq<nat>)
    | TakeTransaction(tx: TxJson)
    | TakeBlock(block: BlockJson, originKnown: bool, now: nat)
    | TakeChain(blocks: seq<BlockJson>, now: nat)

  function RewardTx(cfg: Config, address: string, index: nat): Tx {
    var t := Tx(Reward, index, [], [], [TxO(cfg.rewardAmount, address)], []);
    t.(hash := TxHash(cfg, t))
  }

  function Min(a: nat, b: nat): nat {
    if a < b then a else b
  }

  function LastReading(now: nat, readings: seq<nat>): nat {
    if readings == [] then now else readings[|readings| - 1]
  }

  /** The list assembled for mining. */
  function Assembled(cfg: Config, s: NodeState, address: string): seq<Tx> {
    [RewardTx(cfg, address, |s.chain.blocks|)] + s.pool[..Min(cfg.numPerBlock, |s.pool|)]
  }

  /** The state once block construction has returned or thrown. */
  function AfterMining(s: NodeState, ts: seq<Tx>, rest: seq<Tx>, r: Outcome<Chain>): Outcome<NodeState> {
    match r
    case Thrown(c) => Thrown(s.(chain := c, pool := rest))
    case Done(c) =>
      var u := UpdatedAll(s.utxo, ts);
      Done(s.(chain := c, utxo := u, pool := Pruned(rest, u)))
  }

  function Mined(cfg: Config, s: NodeState, address: string, now: nat, readings: seq<nat>): Outcome<NodeState>
    requires ValidConfig(cfg)
  {
    var ts, rest := Assembled(cfg, s, address), s.pool[Min(cfg.numPerBlock, |s.pool|)..];
    AfterMining(s.(clock := LastReading(now, readings)), ts, rest,
                Constructed(cfg, s.chain, Transactions(ts), now, readings))
  }

  function MinedText(cfg: Config, s: NodeState, text: string, now: nat, readings: seq<nat>): Outcome<NodeState>
    requires ValidConfig(cfg)
  {
    var after := s.(clock := LastReading(now, readings));
    match Constructed(cfg, s.chain, Text(text), now, readings)
    case Thrown(c) => Thrown(after.(chain := c))
    case Done(c) => Done(after.(chain := c))
  }

  function TransactionTaken(cfg: Config, s: NodeState, j: TxJson): Outcome<NodeState> {
    var t := TxFromJson(j);
    if t.None? then Thrown(s)
    else
      match Added(cfg, s.pool, t.value.(snapshot := s.utxo))
      case Thrown(p) => Thrown(s.(pool := p))
      case Done(p) => Done(s.(pool := p))
  }

  /** Updating cache and pool with the transactions of a block. */
  function Applied(s: NodeState, ts: seq<Tx>): NodeState {
    var u := UpdatedAll(s.utxo, ts);
    s.(utxo := u, pool := Pruned(RemovedAll(s.pool, ts), u))
  }

  /** What happens to a parsed block, linked with the cache. A block further ahead than the
      chain makes the node ask for all blocks, but its transactions are applied to cache and
      pool all the same. */
  function Judged(cfg: Config, s: NodeState, b: Block, originKnown: bool, now: nat): Outcome<NodeState>
    requires ValidConfig(cfg)
  {
    var bs := s.chain.blocks;
    if !BlockOk(cfg, b, now) then Thrown(s)
    else if b.index > |bs| then
      if originKnown then Done(Applied(s.(synced := false), TxsOf(b.data))) else Thrown(s)
    else if b.index < |bs| || !Extends(cfg, bs, b) then Done(s)
    else
      match Appended(cfg, s.chain, b, now)
      case Thrown(c) => Thrown(s.(chain := c))
      case Done(c) => Done(Applied(s.(chain := c), TxsOf(b.data)))
  }

  /** The node's own test before appending, which also looks at the timestamp. */
  predicate Extends(cfg: Config, bs: seq<Block>, b: Block) {
    if bs == [] then IsGenesis(b) else IsSuccessor(cfg, b, Last(bs))
  }

  function BlockTaken(cfg: Config, s: NodeState, j: BlockJson, originKnown: bool, now: nat): Outcome<NodeState>
    requires ValidConfig(cfg)
  {
    var parsed := BlockFromJson(j);
    if parsed.None? then Thrown(s.(clock := now))
    else Judged(cfg, s.(clock := now), RelinkBlock(parsed.value, s.utxo), originKnown, now)
  }

  function ChainTaken(cfg: Config, s0: NodeState, js: seq<BlockJson>, now: nat): Outcome<NodeState>
    requires ValidConfig(cfg)
  {
    var s := s0.(clock := now);
    var c := ChainFromJson(cfg, js, now);
    if c.None? || !ChainOk(cfg, c.value.blocks, now) then Thrown(s)
    else if !Better(cfg, c.value, s.chain) then Done(s)
    else Done(s.(chain := c.value, utxo := Replay(c.value.blocks), pool := [], synced := true))
  }

  function Handled(cfg: Config, s: NodeState, step: Step): Outcome<NodeState>
    requires ValidConfig(cfg)
  {
    match step
    case MineBlock(address, now, readings) => Mined(cfg, s, address, now, readings)
    case MineText(text, now, readings) => MinedText(cfg, s, text, now, readings)
    case TakeTransaction(j) => TransactionTaken(cfg, s, j)
    case TakeBlock(j, originKnown, now) => BlockTaken(cfg, s, j, originKnown, now)
    case TakeChain(js, now) => ChainTaken(cfg, s, js, now)
  }

  function Next(cfg: Config, s: NodeState, step: Step): NodeState
    requires ValidConfig(cfg)
  {
    Handled(cfg, s, step).state
  }

  function Start(cfg: Config): NodeState {
    NodeState(EmptyChain(cfg), [], [], true, 0)
  }

  // ---------- the node object ----------

  /** Clear the cache and update it with every transaction of the chain. */
  method Rebuild(unspent: UnspentOutputs, bs: seq<Block>)
    modifies unspent
    ensures unspent.outputs == Replay(bs)
  {
    unspent.Clear();
    for i := 0 to |bs|
      invariant unspent.outputs == Replay(bs[..i])
    {
      assert bs[..i + 1][..i] == bs[..i];
      unspent.UpdateList(TxsOf(bs[i].data));
    }
    assert bs[..|bs|] == bs;
  }

  /** Take up to `limit` transactions out of the pool, behind the reward. */
  method Assemble(pool: UnconfirmedPool, reward: Tx, limit: nat) returns (ts: seq<Tx>)
    modifies pool
    ensures var n := Min(limit, |old(pool.txs)|);
            ts == [reward] + old(pool.txs)[..n] && pool.txs == old(pool.txs)[n..]
  {
    ghost var all := pool.txs;
    ts := [reward];
    var i := 0;
    while i < limit && pool.txs != []
      invariant 0 <= i <= limit && i <= |all|
      invariant pool.txs == all[i..] && ts == [reward] + all[..i]
    {
      var t := pool.Next();
      assert all[i..] == [t] + pool.txs;
      assert all[..i + 1] == all[..i] + [t];
      ts := ts + [t];
      i := i + 1;
    }
  }

  class Node {
    const chain: Blockchain
    const unspent: UnspentOutputs
    const pool: UnconfirmedPool
    ghost var synced: bool
    ghost var clock: nat

    ghost predicate Valid()
      reads this, chain, chain.adjuster
    {
      chain.Valid()
    }

    ghost function State(): NodeState
      reads this, chain, chain.adjuster, unspent, pool
    {
      NodeState(chain.State(), unspent.outputs, pool.txs, synced, clock)
    }

    constructor (cfg: Config)
      requires ValidConfig(cfg)
      ensures Valid() && State() == Start(cfg) && chain.cfg == cfg
      ensures fresh(chain) && fresh(chain.adjuster) && fresh(unspent) && fresh(pool)
    {
      chain := new Blockchain(cfg);
      unspent := new UnspentOutputs();
      pool := new UnconfirmedPool();
      synced, clock := true, 0;
    }

    /** Rebuild the cache from the chain and empty the pool. */
    method BlockchainSetup()
      requires Valid()
      modifies this, unspent, pool
      ensures Valid()
      ensures State() == old(State()).(utxo := Replay(chain.blocks), pool := [], synced := true)
    {
      Rebuild(unspent, chain.blocks);
      pool.Clear();
      synced := true;
    }

    method HandleBlocksPost(address: string, now: nat, readings: seq<nat>) returns (ok: bool)
      requires Valid()
      modifies this, chain, chain.adjuster, unspent, pool
      ensures Valid()
      ensures (if ok then Done(State()) else Thrown(State())) == Mined(chain.cfg, old(State()), address, now, readings)
    {
      var ts := Assemble(pool, RewardTx(chain.cfg, address, |chain.blocks|), chain.cfg.numPerBlock);
      clock := LastReading(now, readings);
      ok := chain.ConstructNextBlock(Transactions(ts), now, readings);
      if ok {
        unspent.UpdateList(ts);
        var _ := pool.Prune(unspent.outputs);
      }
    }

    method HandleBlocksPostText(text: string, now: nat, readings: seq<nat>) returns (ok: bool)
      requires Valid()
      modifies this, chain, chain.adjuster
      ensures Valid()
      ensures (if ok then Done(State()) else Thrown(State())) == MinedText(chain.cfg, old(State()), text, now, readings)
    {
      clock := LastReading(now, readings);
      ok := chain.ConstructNextBlock(Text(text), now, readings);
    }

    method HandleTransaction(j: TxJson) returns (ok: bool)
      requires Valid()
      modifies pool
      ensures Valid()
      ensures (if ok then Done(State()) else Thrown(State())) == TransactionTaken(chain.cfg, old(State()), j)
    {
      var t := TxFromJson(j);
      if t.None? {
        return false;
      }
      ok := pool.Add(chain.cfg, t.value.(snapshot := unspent.outputs));
    }

    method HandleReceiveLatestBlock(j: BlockJson, originKnown: bool, now: nat) returns (ok: bool)
      requires Valid()
      modifies this, chain, chain.adjuster, unspent, pool
      ensures Valid()
      ensures (if ok then Done(State()) else Thrown(State()))
           == BlockTaken(chain.cfg, old(State()), j, originKnown, now)
    {
      clock := now;
      var parsed := BlockFromJson(j);
      if parsed.None? {
        return false;
      }
      var b := RelinkBlock(parsed.value, unspent.outputs);
      var valid := ValidBlock(chain.cfg, b, now);
      if !valid {
        return false;
      }
      var bs := chain.blocks;
      if b.index > |bs| {
        if !originKnown {
          return false;
        }
        synced := false;
      } else if b.index == |bs| {
        if (bs == [] && IsGenesis(b)) || (bs != [] && IsSuccessor(chain.cfg, b, Last(bs))) {
          var appended := chain.AppendNextBlock(b, now);
          if !appended {
            return false;
          }
        } else {
          return true;
        }
      } else {
        return true;
      }
      unspent.UpdateList(TxsOf(b.data));
      pool.RemoveList(TxsOf(b.data));
      var _ := pool.Prune(unspent.outputs);
      return true;
    }

    method HandleReceiveAllBlocks(js: seq<BlockJson>, now: nat) returns (ok: bool)
      requires Valid()
      modifies this, chain, chain.adjuster, unspent, pool
      ensures Valid()
      ensures (if ok then Done(State()) else Thrown(State())) == ChainTaken(chain.cfg, old(State()), js, now)
    {
      clock := now;
      var parsed, bc := ParseChain(chain.cfg, js, now);
      if !parsed {
        return false;
      }
      var valid := bc.Check(now);
      if !valid {
        return false;
      }
      var better := if chain.cfg.pow
                    then bc.adjuster.cumulative.Floor > chain.adjuster.cumulative.Floor
                    else |bc.blocks| > |chain.blocks|;
      if better {
        chain.Assign(bc);
        BlockchainSetup();
      }
      return true;
    }
  }
}
