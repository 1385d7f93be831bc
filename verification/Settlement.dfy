/** A transfer from wallet to wallet, end to end: posted to a node, mined, and settled. */
module Settlement {
  import opened Options
  import opened Records
  import opened Digests
  import opened Validity
  import opened Unspent
  import opened Ledger
  import opened Pools
  import opened Blocks
  import opened Nodes
  import opened Runs
  import opened Soundness
  import opened Wallets

  function Balance(u: seq<UTxO>, address: string): nat {
    Total(Owned(u, address))
  }

  // ---------- ownership commutes with what the ledger does ----------

  lemma OwnedHead(u: seq<UTxO>, a: string)
    requires u != []
    ensures Owned(u, a) == (if u[0].output.address == a then [u[0]] else []) + Owned(u[1..], a)
  {
  }

  lemma {:induction false} OwnedAppend(u: seq<UTxO>, v: seq<UTxO>, a: string)
    ensures Owned(u + v, a) == Owned(u, a) + Owned(v, a)
  {
    if u == [] {
      assert u + v == v;
    } else {
      OwnedHead(u, a);
      OwnedHead(u + v, a);
      assert (u + v)[1..] == u[1..] + v && (u + v)[0] == u[0];
      OwnedAppend(u[1..], v, a);
      Regroup(if u[0].output.address == a then [u[0]] else [], Owned(u[1..], a), Owned(v, a));
    }
  }

  lemma {:induction false} OwnedRemaining(u: seq<UTxO>, spent: set<Key>, a: string)
    ensures Owned(Remaining(u, spent), a) == Remaining(Owned(u, a), spent)
  {
    if u != [] {
      OwnedRemaining(u[1..], spent, a);
      var kept, mine := if u[0].key in spent then [] else [u[0]], if u[0].output.address == a then [u[0]] else [];
      OwnedAppend(kept, Remaining(u[1..], spent), a);
      RemainingAppend(mine, Owned(u[1..], a), spent);
      assert [u[0]][1..] == [];
    }
  }

  lemma {:induction false} OwnedLookupCommutes(u: seq<UTxO>, a: string, k: Key)
    ensures Matches(Owned(u, a), k) == Owned(Matches(u, k), a)
  {
    if u != [] {
      OwnedLookupCommutes(u[1..], a, k);
      var mine, hit := if u[0].output.address == a then [u[0]] else [], if u[0].key == k then [u[0]] else [];
      MatchesAppend(mine, Owned(u[1..], a), k);
      OwnedAppend(hit, Matches(u[1..], k), a);
      assert [u[0]][1..] == [];
    }
  }

  /** What one transaction does to one balance. */
  lemma BalanceUpdated(u: seq<UTxO>, t: Tx, a: string)
    requires UniqueKeys(u) && Fresh(u, t.hash) && DistinctInputs(t.inputs)
    requires forall k :: k in KeySet(t.inputs) ==> k.hash != t.hash
    ensures Balance(Updated(u, t), a) + InSum(Owned(u, a), t.inputs)
         == Balance(u, a) + Balance(NewOutputs(t.hash, t.outputs), a)
  {
    var created := NewOutputs(t.hash, t.outputs);
    UpdateRefines(u, t);
    OwnedRemaining(u + created, KeySet(t.inputs), a);
    OwnedAppend(u, created, a);
    SpentTotal(Owned(u + created, a), t.inputs);
    TotalAppend(Owned(u, a), Owned(created, a));
    forall i | 0 <= i < |t.inputs|
      ensures Matches(Owned(u + created, a), t.inputs[i].key) == Matches(Owned(u, a), t.inputs[i].key)
    {
      var k := t.inputs[i].key;
      assert k in KeySet(t.inputs);
      MatchesAppend(Owned(u, a), Owned(created, a), k);
      OwnedLookupCommutes(created, a, k);
      NewOutputsMatches(t.hash, t.outputs, k);
    }
    InSumSameMatches(Owned(u + created, a), Owned(u, a), t.inputs);
  }

  // ---------- the two transactions of the block ----------

  lemma RewardBalance(cfg: Config, miner: string, index: nat, a: string)
    ensures var t := RewardTx(cfg, miner, index);
            Balance(NewOutputs(t.hash, t.outputs), a) == if a == miner then cfg.rewardAmount else 0
  {
    var t := RewardTx(cfg, miner, index);
    OneOutput(t.hash, t.outputs[0], a);
  }

  lemma OneOutput(hash: Digest, o: TxO, a: string)
    ensures Balance(NewOutputs(hash, [o]), a) == if a == o.address then o.amount else 0
  {
    var x := UTxO(Key(hash, 0), o);
    assert [o][..0] == [];
    assert NewOutputs(hash, [o]) == NewOutputs(hash, [o][..0]) + [x] == [x];
    OwnedOne(x, a);
  }

  lemma OwnedOne(x: UTxO, a: string)
    ensures Owned([x], a) == if x.output.address == a then [x] else []
    ensures Balance([x], a) == if x.output.address == a then x.output.amount else 0
    ensures Total([x]) == x.output.amount
  {
    assert [x][1..] == [];
    assert Owned([x], a) == (if x.output.address == a then [x] else []) + Owned([x][1..], a);
    assert Total([x]) == x.output.amount + Total([x][1..]);
  }

  lemma TransferOutputs(mine: seq<UTxO>, owner: string, to: string, amount: SizeT, n: nat, hash: Digest, a: string)
    requires ShortestCover(mine, amount, n)
    ensures Balance(NewOutputs(hash, OutputsFor(mine, owner, to, amount, n)), a)
         == (if a == to then amount else 0) + (if a == owner then Total(mine[..n]) - amount else 0)
  {
    var outs := OutputsFor(mine, owner, to, amount, n);
    OneOutput(hash, outs[0], a);
    if |outs| == 2 {
      assert outs[..1] == [outs[0]];
      var x := UTxO(Key(hash, 1), outs[1]);
      assert NewOutputs(hash, outs) == NewOutputs(hash, [outs[0]]) + [x];
      OwnedAppend(NewOutputs(hash, [outs[0]]), [x], a);
      TotalAppend(Owned(NewOutputs(hash, [outs[0]]), a), Owned([x], a));
      OwnedOne(x, a);
    }
  }

  /** The inputs of a transfer take their sum from the owner and nothing from anybody else. */
  lemma {:induction false} TransferInputs(u: seq<UTxO>, owner: string, signature: Digest, n: nat, a: string)
    requires UniqueKeys(u) && n <= |Owned(u, owner)|
    ensures InSum(Owned(u, a), InputsFor(Owned(u, owner)[..n], signature))
         == if a == owner then Total(Owned(u, owner)[..n]) else 0
  {
    var mine := Owned(u, owner);
    if n == 0 {
      assert InputsFor(mine[..n], signature) == [] && mine[..n] == [];
    } else {
      TransferInputs(u, owner, signature, n - 1, a);
      assert InSum(Owned(u, a), InputsFor(mine[..n], signature)) ==
             InSum(Owned(u, a), InputsFor(mine[..n - 1], signature)) + Total(Matches(Owned(u, a), mine[n - 1].key)) by {
        CoverStep(Owned(u, a), mine, signature, n);
      }
      assert Total(mine[..n]) == Total(mine[..n - 1]) + mine[n - 1].output.amount by { TotalSnoc(mine, n - 1); }
      OwnedCoin(u, owner, n - 1, a);
    }
  }

  /** One coin of the owner, seen among the coins of anybody. */
  lemma OwnedCoin(u: seq<UTxO>, owner: string, i: nat, a: string)
    requires UniqueKeys(u) && i < |Owned(u, owner)|
    ensures var x := Owned(u, owner)[i];
            Total(Matches(Owned(u, a), x.key)) == if a == owner then x.output.amount else 0
  {
    var x := Owned(u, owner)[i];
    OwnedLookup(u, owner, i);
    OwnedLookupCommutes(u, a, x.key);
    OwnedOne(x, a);
  }

  // ---------- a whole block ----------

  /** What a list of transactions takes from one address, among the given unspent outputs. */
  function TakenFrom(u: seq<UTxO>, ts: seq<Tx>, a: string): nat {
    if ts == [] then 0 else TakenFrom(u, ts[..|ts| - 1], a) + InSum(Owned(u, a), ts[|ts| - 1].inputs)
  }

  /** What it pays to one address. */
  function PaidTo(ts: seq<Tx>, a: string): nat {
    if ts == [] then 0
    else PaidTo(ts[..|ts| - 1], a) + Balance(NewOutputs(ts[|ts| - 1].hash, ts[|ts| - 1].outputs), a)
  }

  lemma {:induction false} ListBalance(u: seq<UTxO>, first: Tx, ts: seq<Tx>, a: string)
    ensures TakenFrom(u, [first] + ts, a) == InSum(Owned(u, a), first.inputs) + TakenFrom(u, ts, a)
    ensures PaidTo([first] + ts, a) == Balance(NewOutputs(first.hash, first.outputs), a) + PaidTo(ts, a)
  {
    hide InSum, Balance, NewOutputs, Owned;
    var all := [first] + ts;
    if ts == [] {
      assert all == [first] && all[..|all| - 1] == [];
    } else {
      ListBalance(u, first, ts[..|ts| - 1], a);
      assert all[..|all| - 1] == [first] + ts[..|ts| - 1];
    }
  }

  lemma SnocBalance(u: seq<UTxO>, ts: seq<Tx>, last: Tx, a: string)
    ensures TakenFrom(u, ts + [last], a) == TakenFrom(u, ts, a) + InSum(Owned(u, a), last.inputs)
    ensures PaidTo(ts + [last], a) == PaidTo(ts, a) + Balance(NewOutputs(last.hash, last.outputs), a)
  {
    assert (ts + [last])[..|ts + [last]| - 1] == ts;
  }

  /** Balances after any block that can be applied. */
  lemma {:induction false} BlockBalance(u: seq<UTxO>, ts: seq<Tx>, a: string)
    requires Applicable(u, ts)
    ensures Balance(UpdatedAll(u, ts), a) + TakenFrom(u, ts, a) == Balance(u, a) + PaidTo(ts, a)
  {
    hide Applicable, Balance, InSum, Updated;
    if ts != [] {
      ApplicablePrefix(u, ts, |ts| - 1);
      BlockBalance(u, ts[..|ts| - 1], a);
      LastBalance(u, ts, a);
    }
  }

  lemma LastBalance(u: seq<UTxO>, ts: seq<Tx>, a: string)
    requires Applicable(u, ts) && ts != []
    ensures var v, t := UpdatedAll(u, ts[..|ts| - 1]), ts[|ts| - 1];
            Balance(Updated(v, t), a) + InSum(Owned(u, a), t.inputs)
            == Balance(v, a) + Balance(NewOutputs(t.hash, t.outputs), a)
  {
    hide Owned, Matches, InSum, Balance, Updated, UpdatedAll, CleanList, Spendable, FreshList;
    var n := |ts| - 1;
    var v, t := UpdatedAll(u, ts[..n]), ts[n];
    ApplicablePrefix(u, ts, n);
    BlockApplies(u, ts[..n]);
    NextApplies(u, ts, n);
    assert DistinctInputs(t.inputs);
    BalanceUpdated(v, t, a);
    forall i | 0 <= i < |t.inputs|
      ensures Matches(Owned(v, a), t.inputs[i].key) == Matches(Owned(u, a), t.inputs[i].key)
    {
      var k := t.inputs[i].key;
      assert k in KeySet(t.inputs);
      OwnedLookupCommutes(v, a, k);
      OwnedLookupCommutes(u, a, k);
    }
    InSumSameMatches(Owned(v, a), Owned(u, a), t.inputs);
  }

  /** Balances after a block that holds a reward, other transactions and a transfer. */
  lemma TransferBalances(cfg: Config, u: seq<UTxO>, miner: string, index: nat, pool: seq<Tx>, owner: string, to: string,
                         amount: SizeT, sign: Digest -> Digest, t: Tx, n: nat, a: string)
    requires IsTransfer(cfg, u, owner, to, amount, sign, t, n)
    requires Applicable(u, [RewardTx(cfg, miner, index)] + (pool + [t]))
    ensures Balance(UpdatedAll(u, [RewardTx(cfg, miner, index)] + (pool + [t])), a)
            + TakenFrom(u, pool, a) + (if a == owner then amount else 0)
         == Balance(u, a) + PaidTo(pool, a)
            + (if a == miner then cfg.rewardAmount else 0) + (if a == to then amount else 0)
  {
    hide Balance, UpdatedAll, Applicable, TakenFrom, PaidTo, ShortestCover, InSum;
    var r := RewardTx(cfg, miner, index);
    BlockBalance(u, [r] + (pool + [t]), a);
    ListBalance(u, r, pool + [t], a);
    SnocBalance(u, pool, t, a);
    RewardBalance(cfg, miner, index, a);
    RewardTakes(cfg, u, miner, index, a);
    ApplicableUnique(u, [r] + (pool + [t]));
    TransferOutputs(Owned(u, owner), owner, to, amount, n, t.hash, a);
    CoverBounds(Owned(u, owner), amount, n);
    TransferInputs(u, owner, sign(t.hash), n, a);
  }

  lemma RewardTakes(cfg: Config, u: seq<UTxO>, miner: string, index: nat, a: string)
    ensures InSum(Owned(u, a), RewardTx(cfg, miner, index).inputs) == 0
  {
  }

  lemma ApplicableUnique(u: seq<UTxO>, ts: seq<Tx>)
    requires Applicable(u, ts)
    ensures UniqueKeys(u)
  {
  }

  lemma CoverBounds(mine: seq<UTxO>, amount: nat, n: nat)
    requires ShortestCover(mine, amount, n)
    ensures n <= |mine| && Total(mine[..n]) >= amount
  {
  }

  // ---------- post, mine, settle ----------

  /** The pool after posting a transfer to a node with room for it. */
  lemma PostedTransfer(cfg: Config, s: NodeState, owner: string, to: string, amount: SizeT,
                       sign: Digest -> Digest, t: Tx, n: nat)
    requires UniqueKeys(s.utxo) && owner != "" && IsTransfer(cfg, s.utxo, owner, to, amount, sign, t, n)
    requires cfg.verify(owner, t.hash, sign(t.hash)) && |s.pool| < cfg.numPerBlock && !SharesInput(s.pool, t)
    ensures TransactionTaken(cfg, s, TxToJson(t)) == Done(s.(pool := s.pool + [t.(snapshot := s.utxo)]))
  {
    NodeTakesTransfer(cfg, s, owner, to, amount, sign, t, n);
    assert t.(snapshot := []).(snapshot := s.utxo) == t.(snapshot := s.utxo);
    assert TxFromJson(TxToJson(t)) == Some(t.(snapshot := [])) by { TxRoundTrip(t); }
  }

  lemma TransferIsClean(cfg: Config, u: seq<UTxO>, owner: string, to: string, amount: SizeT,
                        sign: Digest -> Digest, t: Tx, n: nat)
    requires UniqueKeys(u) && owner != "" && IsTransfer(cfg, u, owner, to, amount, sign, t, n)
    requires cfg.verify(owner, t.hash, sign(t.hash))
    ensures CleanStep(TakeTransaction(TxToJson(t)))
  {
    TransferIsValid(cfg, u, owner, to, amount, sign, t, n);
    assert TxFromJson(TxToJson(t)) == Some(t.(snapshot := [])) by { TxRoundTrip(t); }
  }

  /** The wallet's index is the right one: in every run, the transactions of the latest block carry
      the index before the next block's. */
  lemma RunLatestIndex(cfg: Config, states: seq<NodeState>, steps: seq<Step>, i: nat)
    requires ValidConfig(cfg) && Run(cfg, states, steps) && i < |states|
    requires states[i].chain.blocks != [] && TxsOf(Last(states[i].chain.blocks).data) != []
    ensures TxsOf(Last(states[i].chain.blocks).data)[0].index + 1 == |states[i].chain.blocks|
  {
    var s, n := states[i], |states[i].chain.blocks| - 1;
    RunKeepsBase(cfg, states, steps, i);
    IndexIsPosition(cfg, s.chain.blocks, s.clock, n);
    assert BlockOk(cfg, s.chain.blocks[n], s.clock);
    assert ListedOk(cfg, TxsOf(s.chain.blocks[n].data), n, 0);
  }

  /** End to end: in a clear state of a clean run, a wallet transfer is accepted by a node that has room
      for it and pools none of its inputs. If what is pooled is for the next block and, with proof of
      work, the nonce search ends, the next mining attempt succeeds, and afterwards the amount has
      moved from the owner to the receiver, the miner has received the reward, the pooled transactions
      have paid their outputs and taken those of their inputs that were unspent, and no other balance
      has changed. The hash hypothesis is about the new chain. */
  lemma TransferSettles(cfg: Config, states: seq<NodeState>, steps: seq<Step>, i: nat,
                        owner: string, to: string, amount: SizeT, sign: Digest -> Digest, t: Tx, n: nat,
                        miner: string, now: nat, readings: seq<nat>, a: string)
    requires ValidConfig(cfg) && ClearState(cfg, states, steps, i) && Timed(states[i], MineBlock(miner, now, readings))
    requires |states[i].pool| < cfg.numPerBlock && !SharesInput(states[i].pool, t)
    requires forall p :: p in states[i].pool ==> ForNextBlock(states[i], p)
    requires owner != "" && IsTransfer(cfg, states[i].utxo, owner, to, amount, sign, t, n)
    requires states[i].chain.blocks != [] && TxsOf(Last(states[i].chain.blocks).data) != []
    requires t.index == TxsOf(Last(states[i].chain.blocks).data)[0].index + 1
    requires cfg.verify(owner, t.hash, sign(t.hash))
    requires var posted := TransactionTaken(cfg, states[i], TxToJson(t)).state;
             && SearchEnds(cfg, posted, miner, now, readings)
             && CollisionFree(ChainTxs(Mined(cfg, posted, miner, now, readings).state.chain.blocks))
    ensures var s, posted := states[i], TransactionTaken(cfg, states[i], TxToJson(t));
            var mined := Mined(cfg, posted.state, miner, now, readings);
            && posted.Done? && mined.Done?
            && Balance(mined.state.utxo, a) + TakenFrom(s.utxo, s.pool, a) + (if a == owner then amount else 0)
            == Balance(s.utxo, a) + PaidTo(s.pool, a) + (if a == miner then cfg.rewardAmount else 0)
               + (if a == to then amount else 0)
  {
    hide Mined, TransactionTaken, IsTransfer, TxToJson, SharesInput, CleanInv, HasTraces, SearchEnds, CollisionFree,
         ChainTxs, Balance, TakenFrom, PaidTo, Last, TxsOf;
    var s := states[i];
    RunLatestIndex(cfg, states, steps, i);
    ClearLedger(cfg, states, steps, i);
    assert UniqueKeys(s.utxo) by { LedgerUnique(s.chain.blocks); }
    PostedTransfer(cfg, s, owner, to, amount, sign, t, n);
    TransferIsClean(cfg, s.utxo, owner, to, amount, sign, t, n);
    TransactionKeepsClean(cfg, s, TxToJson(t));
    TransactionKeepsTraces(cfg, s, TxToJson(t));
    TransferFor(cfg, s.utxo, owner, to, amount, sign, t, n);
    SettlesFrom(cfg, s, s.(pool := s.pool + [t.(snapshot := s.utxo)]), owner, to, amount, sign, t, n,
                miner, now, readings, a);
  }

  lemma LedgerUnique(bs: seq<Block>)
    requires LedgerInv(bs)
    ensures UniqueKeys(Replay(bs))
  {
  }

  lemma TransferFor(cfg: Config, u: seq<UTxO>, owner: string, to: string, amount: SizeT,
                    sign: Digest -> Digest, t: Tx, n: nat)
    requires IsTransfer(cfg, u, owner, to, amount, sign, t, n)
    ensures t.kind.Standard? && IsTransfer(cfg, u, owner, to, amount, sign, t.(snapshot := u), n)
  {
  }

  lemma SettlesFrom(cfg: Config, before: NodeState, s: NodeState, owner: string, to: string, amount: SizeT,
                    sign: Digest -> Digest, t: Tx, n: nat, miner: string, now: nat, readings: seq<nat>, a: string)
    requires ValidConfig(cfg) && CleanInv(cfg, s) && s.synced && HasTraces(s)
    requires Timed(s, MineBlock(miner, now, readings)) && SearchEnds(cfg, s, miner, now, readings)
    requires s == before.(pool := before.pool + [t.(snapshot := s.utxo)]) && ForNextBlock(s, t)
    requires forall p :: p in before.pool ==> ForNextBlock(s, p)
    requires IsTransfer(cfg, s.utxo, owner, to, amount, sign, t.(snapshot := s.utxo), n)
    requires CollisionFree(ChainTxs(Mined(cfg, s, miner, now, readings).state.chain.blocks))
    ensures var mined := Mined(cfg, s, miner, now, readings);
            && mined.Done?
            && Balance(mined.state.utxo, a) + TakenFrom(s.utxo, before.pool, a) + (if a == owner then amount else 0)
            == Balance(s.utxo, a) + PaidTo(before.pool, a) + (if a == miner then cfg.rewardAmount else 0)
               + (if a == to then amount else 0)
  {
    hide Mined, IsTransfer, SearchEnds, CollisionFree, ChainTxs, Balance, TakenFrom, PaidTo, HasTraces, Applicable,
         UpdatedAll, PoolInv, CleanChain, RewardTx;
    MiningSucceedsExactly(cfg, s, miner, now, readings);
    AssembledIs(cfg, s, miner);
    MinedCache(cfg, s, miner, now, readings);
    MinedApplicable(cfg, s, miner, now, readings);
    TransferBalances(cfg, s.utxo, miner, |s.chain.blocks|, before.pool, owner, to, amount, sign,
                     t.(snapshot := s.utxo), n, a);
  }

  lemma MinedCache(cfg: Config, s: NodeState, miner: string, now: nat, readings: seq<nat>)
    requires ValidConfig(cfg) && Mined(cfg, s, miner, now, readings).Done?
    ensures Mined(cfg, s, miner, now, readings).state.utxo == UpdatedAll(s.utxo, Assembled(cfg, s, miner))
  {
    hide Constructed, UpdatedAll, Assembled, Pruned;
  }

  /** The list a node mines can be applied to its unspent outputs, whatever it spends. */
  lemma MinedApplicable(cfg: Config, s: NodeState, miner: string, now: nat, readings: seq<nat>)
    requires ValidConfig(cfg) && CleanInv(cfg, s) && s.synced && HasTraces(s)
    requires Timed(s, MineBlock(miner, now, readings))
    requires var m := Mined(cfg, s, miner, now, readings); m.Done? && CollisionFree(ChainTxs(m.state.chain.blocks))
    ensures Applicable(s.utxo, Assembled(cfg, s, miner))
  {
    hide Constructed, HasTraces, CollisionFree, ChainTxs, UpdatedAll, Pruned, PoolInv, CleanChain, LedgerInv,
         Applicable, ValidOrEmpty, DataOk, RewardTx, OrderlyChain;
    var ts, bs := Assembled(cfg, s, miner), s.chain.blocks;
    MineKeepsClean(cfg, s, miner, now, readings);
    MineKeepsTraces(cfg, s, miner, now, readings);
    ConstructedExtends(cfg, s.chain, Transactions(ts), s.clock, now, readings);
    var after := Mined(cfg, s, miner, now, readings).state;
    assert after.chain.blocks[..|after.chain.blocks| - 1] == bs && TxsOf(Last(after.chain.blocks).data) == ts;
    ClearIsOrderly(cfg, after);
    MinedTraced(after);
    TracedApplicable(after.chain.blocks);
  }

  lemma MinedTraced(s: NodeState)
    requires HasTraces(s)
    ensures ChainTraced(s.chain.blocks)
  {
  }
}
