/** Blocks and hash-linked chains: validation, mining, appending, comparing and rebuilding
    from serialized form (include/blockchain.h). */
module Blocks {
  import opened Options
  import opened Records
  import opened Digests
  import opened Difficulty
  import opened Validity

  // ---------- what validity means ----------

  predicate BlockOk(cfg: Config, b: Block, now: int) {
    DataOk(cfg, b.data, b.index) && b.timestamp - cfg.timeMaxDelta < now && b.hash == BlockHash(cfg, b)
  }

  predicate IsGenesis(b: Block) {
    b.index == 0 && b.hashPrev.None?
  }

  predicate IsSuccessor(cfg: Config, b: Block, prev: Block) {
    b.timestamp > prev.timestamp - cfg.timeMaxDelta && b.index == prev.index + 1 && b.hashPrev == Some(prev.hash)
  }

  predicate ChainOk(cfg: Config, bs: seq<Block>, now: int) {
    && bs != []
    && (forall i :: 0 <= i < |bs| ==> BlockOk(cfg, bs[i], now))
    && IsGenesis(bs[0])
    && (forall i :: 1 <= i < |bs| ==> IsSuccessor(cfg, bs[i], bs[i - 1]))
  }

  method ValidBlock(cfg: Config, b: Block, now: int) returns (valid: bool)
    ensures valid <==> BlockOk(cfg, b, now)
  {
    var dataValid := ValidData(cfg, b.data, b.index);
    if !dataValid {
      return false;
    }
    if b.timestamp - cfg.timeMaxDelta >= now {
      return false;
    }
    return b.hash == BlockHash(cfg, b);
  }

  // ---------- operations on chains as values ----------

  datatype Chain = Chain(blocks: seq<Block>, adjuster: Adjuster)

  function Last(bs: seq<Block>): Block
    requires bs != []
  {
    bs[|bs| - 1]
  }

  /** The block built on top of a chain at time `now`, before any proof of work. */
  function NewBlock(cfg: Config, bs: seq<Block>, data: Data, now: nat): Block {
    var b := if bs == [] then Block(data, now, 0, 0, None, [])
             else Block(data, now, 0, Last(bs).index + 1, Some(Last(bs).hash), []);
    b.(hash := BlockHash(cfg, b))
  }

  /** The miner's target. Below difficulty one the logarithm is negative; for difficulties
      above one half it truncates to zero, which the model uses throughout. */
  function Target(d: real): nat {
    if d < 1.0 then 0 else TargetZeros(d)
  }

  /** The nonce search: one attempt per clock reading, counting the nonce up. None when the
      readings run out before a hash meets the target. */
  function Search(cfg: Config, b: Block, zeros: nat, readings: seq<nat>): Option<Block>
    decreases |readings|
  {
    if readings == [] then None
    else
      var attempt := b.(timestamp := readings[0]);
      var hash := BlockHash(cfg, attempt);
      if ZeroPrefixLength(hash) >= zeros then Some(attempt.(hash := hash))
      else Search(cfg, b.(nonce := b.nonce + 1), zeros, readings[1..])
  }

  /** Build, check and append a block. Throws when the block is invalid; a search that has not
      ended within the given clock readings counts as not done. */
  function Constructed(cfg: Config, c: Chain, data: Data, now: nat, readings: seq<nat>): Outcome<Chain>
    requires ValidConfig(cfg)
  {
    var b := NewBlock(cfg, c.blocks, data, now);
    if !BlockOk(cfg, b, now) then Thrown(c)
    else if !cfg.pow then Done(c.(blocks := c.blocks + [b]))
    else
      var adjuster := Adjusted(cfg.difficulty, c.adjuster, now);
      match Search(cfg, b, Target(adjuster.difficulty), readings)
      case None => Thrown(c.(adjuster := adjuster))
      case Some(mined) => Done(Chain(c.blocks + [mined], adjuster))
  }

  predicate LinksTo(bs: seq<Block>, b: Block) {
    if bs == [] then IsGenesis(b)
    else b.index == Last(bs).index + 1 && b.hashPrev == Some(Last(bs).hash)
  }

  /** Check and append a received block. With proof of work the adjuster has already advanced
      when a block is rejected for its difficulty. */
  function Appended(cfg: Config, c: Chain, b: Block, now: int): Outcome<Chain>
    requires ValidConfig(cfg)
  {
    if !LinksTo(c.blocks, b) || !BlockOk(cfg, b, now) then Thrown(c)
    else if !cfg.pow then Done(c.(blocks := c.blocks + [b]))
    else
      var adjuster := Adjusted(cfg.difficulty, c.adjuster, b.timestamp);
      if !ReceiverAccepts(ZeroPrefixLength(b.hash), adjuster.difficulty) then Thrown(c.(adjuster := adjuster))
      else Done(Chain(c.blocks + [b], adjuster))
  }

  function EmptyChain(cfg: Config): Chain {
    Chain([], InitAdjuster(cfg.difficulty))
  }

  /** The chain rebuilt by appending parsed blocks one by one, or None where that throws. */
  function ChainFromJson(cfg: Config, js: seq<BlockJson>, now: int): Option<Chain>
    requires ValidConfig(cfg)
  {
    if js == [] then Some(EmptyChain(cfg))
    else
      var before, b := ChainFromJson(cfg, js[..|js| - 1], now), BlockFromJson(js[|js| - 1]);
      if before.None? || b.None? then None
      else
        var r := Appended(cfg, before.value, b.value, now);
        if r.Done? then Some(r.state) else None
  }

  /** Chains are compared by cumulative difficulty, truncated to an integer, or by length. */
  predicate Better(cfg: Config, a: Chain, b: Chain) {
    if cfg.pow then a.adjuster.cumulative.Floor > b.adjuster.cumulative.Floor
    else |a.blocks| > |b.blocks|
  }

  // ---------- the chain object ----------

  method SearchNonce(cfg: Config, b: Block, zeros: nat, readings: seq<nat>) returns (r: Option<Block>)
    ensures r == Search(cfg, b, zeros, readings)
    ensures r.Some? ==> ZeroPrefixLength(r.value.hash) >= zeros && r.value.hash == BlockHash(cfg, r.value)
  {
    var attempt := b;
    for i := 0 to |readings|
      invariant attempt.hash == b.hash
      invariant Search(cfg, b, zeros, readings) == Search(cfg, attempt, zeros, readings[i..])
    {
      var timed := attempt.(timestamp := readings[i]);
      var maybeHash := BlockHash(cfg, timed);
      var zs := CountZeroPrefix(maybeHash);
      if zs >= zeros {
        return Some(timed.(hash := maybeHash));
      }
      assert Search(cfg, attempt, zeros, readings[i..])
          == Search(cfg, attempt.(nonce := attempt.nonce + 1), zeros, readings[i..][1..]);
      assert readings[i..][1..] == readings[i + 1..];
      attempt := attempt.(nonce := attempt.nonce + 1);
    }
    return None;
  }

  class Blockchain {
    const cfg: Config
    const adjuster: DifficultyAdjuster
    var blocks: seq<Block>

    ghost predicate Valid()
      reads this, adjuster
    {
      ValidConfig(cfg) && adjuster.params == cfg.difficulty
    }

    ghost function State(): Chain
      reads this, adjuster
    {
      Chain(blocks, adjuster.State())
    }

    constructor (cfg: Config)
      requires ValidConfig(cfg)
      ensures this.cfg == cfg && Valid() && fresh(adjuster) && State() == EmptyChain(cfg)
    {
      this.cfg := cfg;
      blocks := [];
      adjuster := new DifficultyAdjuster(cfg.difficulty);
    }

    method Assign(other: Blockchain)
      requires Valid() && other.Valid()
      modifies this, adjuster
      ensures Valid() && State() == old(other.State())
    {
      blocks := other.blocks;
      adjuster.difficulty, adjuster.cumulative, adjuster.counter, adjuster.timestamp :=
        other.adjuster.difficulty, other.adjuster.cumulative, other.adjuster.counter, other.adjuster.timestamp;
    }

    method Check(now: int) returns (valid: bool)
      ensures valid <==> ChainOk(cfg, blocks, now)
    {
      if blocks == [] {
        return false;
      }
      for i := 0 to |blocks|
        invariant forall j :: 0 <= j < i ==> BlockOk(cfg, blocks[j], now)
      {
        var ok := ValidBlock(cfg, blocks[i], now);
        if !ok {
          return false;
        }
      }
      if !IsGenesis(blocks[0]) {
        return false;
      }
      for i := 1 to |blocks|
        invariant forall j :: 1 <= j < i ==> IsSuccessor(cfg, blocks[j], blocks[j - 1])
      {
        if !IsSuccessor(cfg, blocks[i], blocks[i - 1]) {
          return false;
        }
      }
      return true;
    }

    method ConstructNextBlock(data: Data, now: nat, readings: seq<nat>) returns (ok: bool)
      requires Valid()
      modifies this, adjuster
      ensures Valid()
      ensures (if ok then Done(State()) else Thrown(State())) == Constructed(cfg, old(State()), data, now, readings)
    {
      var b := NewBlock(cfg, blocks, data, now);
      var valid := ValidBlock(cfg, b, now);
      if !valid {
        return false;
      }
      if cfg.pow {
        adjuster.Adjust(now);
        var mined := SearchNonce(cfg, b, Target(adjuster.difficulty), readings);
        if mined.None? {
          return false;
        }
        b := mined.value;
      }
      blocks := blocks + [b];
      return true;
    }

    method AppendNextBlock(b: Block, now: int) returns (ok: bool)
      requires Valid()
      modifies this, adjuster
      ensures Valid()
      ensures (if ok then Done(State()) else Thrown(State())) == Appended(cfg, old(State()), b, now)
    {
      if !LinksTo(blocks, b) {
        return false;
      }
      var valid := ValidBlock(cfg, b, now);
      if !valid {
        return false;
      }
      if cfg.pow {
        adjuster.Adjust(b.timestamp);
        if Pow2(ZeroPrefixLength(b.hash)) as real < adjuster.difficulty {
          return false;
        }
      }
      blocks := blocks + [b];
      return true;
    }
  }

  method ParseChain(cfg: Config, js: seq<BlockJson>, now: int) returns (ok: bool, bc: Blockchain)
    requires ValidConfig(cfg)
    ensures fresh(bc) && fresh(bc.adjuster) && bc.Valid() && bc.cfg == cfg
    ensures ok <==> ChainFromJson(cfg, js, now).Some?
    ensures ok ==> bc.State() == ChainFromJson(cfg, js, now).value
  {
    bc := new Blockchain(cfg);
    for i := 0 to |js|
      invariant bc.Valid() && bc.cfg == cfg && fresh(bc) && fresh(bc.adjuster)
      invariant ChainFromJson(cfg, js[..i], now) == Some(bc.State())
    {
      assert js[..i + 1][..i] == js[..i];
      var b := BlockFromJson(js[i]);
      if b.None? {
        FailsForGood(cfg, js, i + 1, now);
        return false, bc;
      }
      var appended := bc.AppendNextBlock(b.value, now);
      if !appended {
        FailsForGood(cfg, js, i + 1, now);
        return false, bc;
      }
    }
    assert js[..|js|] == js;
    ok := true;
  }

  lemma {:induction false} FailsForGood(cfg: Config, js: seq<BlockJson>, n: nat, now: int)
    requires ValidConfig(cfg) && n <= |js| && ChainFromJson(cfg, js[..n], now).None?
    ensures ChainFromJson(cfg, js, now).None?
    decreases |js|
  {
    if n == |js| {
      assert js[..n] == js;
    } else {
      var before := js[..|js| - 1];
      assert before[..n] == js[..n];
      FailsForGood(cfg, before, n, now);
    }
  }

  // ---------- facts about valid chains ----------

  lemma ChainOkPrefix(cfg: Config, bs: seq<Block>, n: nat, now: int)
    requires ChainOk(cfg, bs, now) && 0 < n <= |bs|
    ensures ChainOk(cfg, bs[..n], now)
  {
    var p := bs[..n];
    assert forall i :: 0 <= i < n ==> p[i] == bs[i];
    forall i | 1 <= i < n
      ensures IsSuccessor(cfg, p[i], p[i - 1])
    {
      assert IsSuccessor(cfg, bs[i], bs[i - 1]);
    }
  }

  lemma ChainOkLater(cfg: Config, bs: seq<Block>, now: int, later: int)
    requires ChainOk(cfg, bs, now) && now <= later
    ensures ChainOk(cfg, bs, later)
  {
  }

  lemma ChainOkSnoc(cfg: Config, bs: seq<Block>, b: Block, now: int)
    requires bs == [] || ChainOk(cfg, bs, now)
    requires BlockOk(cfg, b, now)
    requires if bs == [] then IsGenesis(b) else IsSuccessor(cfg, b, Last(bs))
    ensures ChainOk(cfg, bs + [b], now)
  {
    var r := bs + [b];
    assert forall i :: 0 <= i < |bs| ==> r[i] == bs[i];
    forall i | 1 <= i < |r|
      ensures IsSuccessor(cfg, r[i], r[i - 1])
    {
      if i < |bs| { assert IsSuccessor(cfg, bs[i], bs[i - 1]); }
    }
  }

  lemma {:induction false} IndexIsPosition(cfg: Config, bs: seq<Block>, now: int, i: nat)
    requires ChainOk(cfg, bs, now) && i < |bs|
    ensures bs[i].index == i
  {
    if i > 0 {
      IndexIsPosition(cfg, bs, now, i - 1);
      assert IsSuccessor(cfg, bs[i], bs[i - 1]);
    }
  }

  /** What a finished nonce search returns: the same block with a clock reading as timestamp, a
      nonce, and a hash that is right and meets the target. */
  lemma {:induction false} SearchFinds(cfg: Config, b: Block, zeros: nat, readings: seq<nat>)
    requires Search(cfg, b, zeros, readings).Some?
    ensures var m := Search(cfg, b, zeros, readings).value;
            && m.timestamp in readings && b.nonce <= m.nonce < b.nonce + |readings|
            && m.data == b.data && m.index == b.index && m.hashPrev == b.hashPrev
            && m.hash == BlockHash(cfg, m) && ZeroPrefixLength(m.hash) >= zeros
    decreases |readings|
  {
    var attempt := b.(timestamp := readings[0]);
    if ZeroPrefixLength(BlockHash(cfg, attempt)) < zeros {
      SearchFinds(cfg, b.(nonce := b.nonce + 1), zeros, readings[1..]);
    }
  }

  /** Attempt number `k`: the nonce counts the attempts, and the clock is read anew. */
  function Attempt(b: Block, readings: seq<nat>, k: nat): Block
    requires k < |readings|
  {
    b.(timestamp := readings[k], nonce := b.nonce + k)
  }

  function AttemptZeros(cfg: Config, b: Block, readings: seq<nat>, k: nat): nat
    requires k < |readings|
  {
    ZeroPrefixLength(BlockHash(cfg, Attempt(b, readings, k)))
  }

  /** The search stops at attempt `k`, the first one that meets the target, or finds nothing because none
      of them does. */
  lemma {:induction false} SearchIsFirst(cfg: Config, b: Block, zeros: nat, readings: seq<nat>) returns (k: nat)
    ensures k <= |readings|
    ensures forall i :: 0 <= i < k ==> AttemptZeros(cfg, b, readings, i) < zeros
    ensures if k < |readings|
            then AttemptZeros(cfg, b, readings, k) >= zeros
                 && Search(cfg, b, zeros, readings)
                 == Some(Attempt(b, readings, k).(hash := BlockHash(cfg, Attempt(b, readings, k))))
            else Search(cfg, b, zeros, readings) == None
    decreases |readings|
  {
    hide BlockHash, ZeroPrefixLength;
    k := 0;
    if readings != [] {
      var next, rest := b.(nonce := b.nonce + 1), readings[1..];
      assert Attempt(b, readings, 0) == b.(timestamp := readings[0]);
      if AttemptZeros(cfg, b, readings, 0) < zeros {
        k := SearchIsFirst(cfg, next, zeros, rest);
        forall i | 0 <= i < |rest|
          ensures Attempt(next, rest, i) == Attempt(b, readings, i + 1)
        {
        }
        forall i | 0 <= i < k + 1
          ensures AttemptZeros(cfg, b, readings, i) < zeros
        {
          if i > 0 { assert AttemptZeros(cfg, next, rest, i - 1) < zeros; }
        }
        k := k + 1;
      }
    }
  }

  /** The target is the largest number of bits whose power of two does not exceed the difficulty. */
  lemma TargetMeans(d: real)
    requires 0.5 < d
    ensures 1.0 <= d ==> Pow2(Target(d)) as real <= d
    ensures d < Pow2(Target(d) + 1) as real
  {
    if d >= 1.0 { TargetBrackets(d); } else { assert Pow2(1) == 2 * Pow2(0) == 2; }
  }

  /** What a mined block is built from, and what mining does to the adjuster: with proof of work it has
      advanced with the time before the search, whether or not the search ends. */
  lemma ConstructedFrom(cfg: Config, c: Chain, data: Data, now: nat, readings: seq<nat>)
    requires ValidConfig(cfg) && BlockOk(cfg, NewBlock(cfg, c.blocks, data, now), now)
    ensures var r := Constructed(cfg, c, data, now, readings);
            && r.state.adjuster == (if cfg.pow then Adjusted(cfg.difficulty, c.adjuster, now) else c.adjuster)
            && (r.Done? ==>
                  && |r.state.blocks| == |c.blocks| + 1
                  && var b := Last(r.state.blocks);
                     && b.data == data && b.hash == BlockHash(cfg, b)
                     && b.index == (if c.blocks == [] then 0 else Last(c.blocks).index + 1)
                     && b.hashPrev == (if c.blocks == [] then None else Some(Last(c.blocks).hash))
                     && (if cfg.pow then b.timestamp in readings else b.timestamp == now && b.nonce == 0))
  {
    if cfg.pow {
      var d := Adjusted(cfg.difficulty, c.adjuster, now).difficulty;
      var b := NewBlock(cfg, c.blocks, data, now);
      if Search(cfg, b, Target(d), readings).Some? { SearchFinds(cfg, b, Target(d), readings); }
    }
  }

  /** Appending, exactly: the block must follow the last one and be valid and, with proof of work, its
      zero bits must reach the difficulty of the adjuster as it is after this call. The adjuster has
      advanced even when the block is rejected for its difficulty. */
  lemma AppendedExactly(cfg: Config, c: Chain, b: Block, now: int)
    requires ValidConfig(cfg)
    ensures var r, a := Appended(cfg, c, b, now), Adjusted(cfg.difficulty, c.adjuster, b.timestamp);
            var fits := && b.index == (if c.blocks == [] then 0 else Last(c.blocks).index + 1)
                        && b.hashPrev == (if c.blocks == [] then None else Some(Last(c.blocks).hash))
                        && BlockOk(cfg, b, now);
            && (r.Done? <==> fits && (cfg.pow ==> a.difficulty <= Pow2(ZeroPrefixLength(b.hash)) as real))
            && r.state.blocks == (if r.Done? then c.blocks + [b] else c.blocks)
            && r.state.adjuster == (if fits && cfg.pow then a else c.adjuster)
  {
  }

  /** A block dated too far before the one it follows makes a chain invalid. */
  lemma EarlyBlockInvalid(cfg: Config, bs: seq<Block>, now: int, i: nat)
    requires 0 < i < |bs| && bs[i].timestamp + cfg.timeMaxDelta <= bs[i - 1].timestamp
    ensures !ChainOk(cfg, bs, now)
  {
    assert !IsSuccessor(cfg, bs[i], bs[i - 1]);
  }

  /** So does a block dated too far ahead, or with a hash that is not its own, or with too many
      transactions. */
  lemma BadBlockInvalid(cfg: Config, b: Block, now: int)
    requires || b.timestamp >= now + cfg.timeMaxDelta || b.hash != cfg.hash(BlockPreimage(cfg, b))
             || (b.data.Transactions? && |b.data.list| > cfg.numPerBlock + 1)
    ensures !BlockOk(cfg, b, now)
  {
  }

  function Times(bs: seq<Block>): seq<int> {
    seq(|bs|, i requires 0 <= i < |bs| => bs[i].timestamp)
  }

  /** A chain built by successful appends carries the adjuster that a run of the adjuster over
      the timestamps of its blocks leads to. */
  lemma {:induction false} AdjusterReplays(cfg: Config, js: seq<BlockJson>, now: int)
    requires ValidConfig(cfg) && ChainFromJson(cfg, js, now).Some?
    ensures var c := ChainFromJson(cfg, js, now).value;
            c.adjuster == if cfg.pow then After(cfg.difficulty, Times(c.blocks)) else InitAdjuster(cfg.difficulty)
  {
    var c := ChainFromJson(cfg, js, now).value;
    if js == [] {
      assert Times(c.blocks) == [];
    } else {
      var before := ChainFromJson(cfg, js[..|js| - 1], now).value;
      AdjusterReplays(cfg, js[..|js| - 1], now);
      var b := BlockFromJson(js[|js| - 1]).value;
      assert Times(c.blocks) == Times(before.blocks) + [b.timestamp];
      assert Times(c.blocks)[..|Times(c.blocks)| - 1] == Times(before.blocks);
    }
  }

  // ---------- the tip hash fixes the history ----------

  /** A JSON payload can be cut off the front of a text in only one way. */
  ghost predicate SelfDelimiting(cfg: Config) {
    forall a, b, x, y :: cfg.dump(a) + x == cfg.dump(b) + y ==> a == b
  }

  ghost predicate FixedLength(cfg: Config) {
    forall s, t :: |cfg.hash(s)| == |cfg.hash(t)|
  }

  function TimeAndNonce(b: Block): string {
    Digits(b.timestamp) + Digits(b.nonce)
  }

  predicate SameBlock(a: Block, b: Block) {
    a.hash == b.hash && DataToJson(a.data) == DataToJson(b.data) && TimeAndNonce(a) == TimeAndNonce(b)
  }

  /** Two different texts with the same hash. */
  predicate Collide(cfg: Config, a: Block, b: Block) {
    BlockPreimage(cfg, a) != BlockPreimage(cfg, b) && BlockHash(cfg, a) == BlockHash(cfg, b)
  }

  /** Texts with the same middle part and equally long ends fall apart in only one way. */
  lemma SplitText(a: string, x: string, b: string, y: string, middle: string)
    requires a + (middle + x) == b + (middle + y) && |x| == |y|
    ensures a == b && x == y
  {
    var s, t := a + (middle + x), b + (middle + y);
    assert |s| == |a| + |middle| + |x| && |t| == |b| + |middle| + |y|;
    assert a == s[..|a|] && b == t[..|b|];
    assert x == s[|a| + |middle|..] && y == t[|b| + |middle|..];
  }

  lemma CutPayload(cfg: Config, a: Block, b: Block)
    requires SelfDelimiting(cfg) && BlockPreimage(cfg, a) == BlockPreimage(cfg, b)
    ensures DataToJson(a.data) == DataToJson(b.data) && Trailer(a) == Trailer(b)
  {
    var p, q := cfg.dump(DataToJson(a.data)), cfg.dump(DataToJson(b.data));
    assert p + Trailer(a) == q + Trailer(b);
    assert DataToJson(a.data) == DataToJson(b.data);
    assert Trailer(a) == (p + Trailer(a))[|p|..] && Trailer(b) == (q + Trailer(b))[|q|..];
  }

  lemma SplitPreimage(cfg: Config, a: Block, b: Block)
    requires SelfDelimiting(cfg) && BlockPreimage(cfg, a) == BlockPreimage(cfg, b)
    requires a.index == b.index && |PrevText(a.hashPrev)| == |PrevText(b.hashPrev)|
    ensures DataToJson(a.data) == DataToJson(b.data) && TimeAndNonce(a) == TimeAndNonce(b)
    ensures PrevText(a.hashPrev) == PrevText(b.hashPrev)
  {
    CutPayload(cfg, a, b);
    TrailerParts(a);
    TrailerParts(b);
    SplitText(TimeAndNonce(a), PrevText(a.hashPrev), TimeAndNonce(b), PrevText(b.hashPrev), Digits(a.index));
  }

  lemma TrailerParts(b: Block)
    ensures Trailer(b) == TimeAndNonce(b) + (Digits(b.index) + PrevText(b.hashPrev))
  {
  }

  /** Equal tips of valid chains make equal last blocks and equal tips one block earlier,
      unless the two last blocks are a hash collision. */
  lemma TipStep(cfg: Config, a: seq<Block>, b: seq<Block>, nowA: int, nowB: int)
    requires SelfDelimiting(cfg) && FixedLength(cfg)
    requires ChainOk(cfg, a, nowA) && ChainOk(cfg, b, nowB)
    requires |a| == |b| && Last(a).hash == Last(b).hash
    ensures Collide(cfg, Last(a), Last(b)) ||
            (SameBlock(Last(a), Last(b)) && (|a| > 1 ==> a[|a| - 2].hash == b[|b| - 2].hash))
  {
    var n := |a| - 1;
    IndexIsPosition(cfg, a, nowA, n);
    IndexIsPosition(cfg, b, nowB, n);
    assert BlockOk(cfg, a[n], nowA) && BlockOk(cfg, b[n], nowB);
    if BlockPreimage(cfg, a[n]) == BlockPreimage(cfg, b[n]) {
      if n > 0 {
        assert IsSuccessor(cfg, a[n], a[n - 1]) && IsSuccessor(cfg, b[n], b[n - 1]);
        assert BlockOk(cfg, a[n - 1], nowA) && BlockOk(cfg, b[n - 1], nowB);
        assert |a[n - 1].hash| == |b[n - 1].hash|;
        SplitPreimage(cfg, a[n], b[n]);
        PrintInjective(a[n - 1].hash, b[n - 1].hash);
      } else {
        SplitPreimage(cfg, a[n], b[n]);
      }
    }
  }

  /** Tip hash fixes history: two valid chains of equal length with equal tip hashes have, at
      every position, equal hashes, equal serialized data and equal timestamp-and-nonce digits,
      or else they exhibit a collision of the hash function. */
  lemma {:induction false} TipFixesHistory(cfg: Config, a: seq<Block>, b: seq<Block>, nowA: int, nowB: int)
    requires SelfDelimiting(cfg) && FixedLength(cfg)
    requires ChainOk(cfg, a, nowA) && ChainOk(cfg, b, nowB)
    requires |a| == |b| && Last(a).hash == Last(b).hash
    ensures || (exists i :: 0 <= i < |a| && Collide(cfg, a[i], b[i]))
            || (forall i :: 0 <= i < |a| ==> SameBlock(a[i], b[i]))
  {
    hide ChainOk, SelfDelimiting, FixedLength, SameBlock, Collide;
    var n := |a| - 1;
    TipStep(cfg, a, b, nowA, nowB);
    if n > 0 && !Collide(cfg, a[n], b[n]) {
      var p, q := a[..n], b[..n];
      ChainOkPrefix(cfg, a, n, nowA);
      ChainOkPrefix(cfg, b, n, nowB);
      TipFixesHistory(cfg, p, q, nowA, nowB);
      if i :| 0 <= i < |p| && Collide(cfg, p[i], q[i]) {
        assert Collide(cfg, a[i], b[i]);
      } else {
        forall i | 0 <= i < |a|
          ensures SameBlock(a[i], b[i])
        {
          if i < n { assert SameBlock(p[i], q[i]); }
        }
      }
    }
  }

  /** More cannot be had: blocks that differ in timestamp and nonce can have the same hash under
      every hash function, because their digits are not separated. */
  lemma TimeAndNonceAmbiguous(cfg: Config, b: Block)
    ensures BlockHash(cfg, b.(timestamp := 1, nonce := 11)) == BlockHash(cfg, b.(timestamp := 11, nonce := 1))
  {
    DigitsExamples();
    var a, c := b.(timestamp := 1, nonce := 11), b.(timestamp := 11, nonce := 1);
    assert Digits(1) + Digits(11) == Digits(11) + Digits(1) == "111";
    assert BlockPreimage(cfg, a) == BlockPreimage(cfg, c);
  }

  // ---------- rebuilding a chain from its serialized form ----------

  /** No standard transaction of the block spends anything. */
  predicate SpendsNothing(ts: seq<Tx>) {
    forall i :: 0 <= i < |ts| && ts[i].kind.Standard? ==> ts[i].inputs == []
  }

  lemma {:induction false} InSumEmpty(inputs: seq<TxI>)
    ensures InSum([], inputs) == 0
  {
    if inputs != [] { InSumEmpty(inputs[..|inputs| - 1]); }
  }

  lemma UnlinkedTxOk(cfg: Config, t: Tx)
    requires TxOk(cfg, t)
    ensures TxOk(cfg, t.(snapshot := [])) <==> (t.kind.Standard? ==> t.inputs == [])
  {
    var s := t.(snapshot := []);
    if t.kind.Standard? {
      if t.inputs != [] {
        assert !InputOk(cfg, s, [], 0);
      } else {
        assert InSum(t.snapshot, t.inputs) == 0 == InSum([], s.inputs);
      }
    }
  }

  /** A valid block parsed back without its snapshots is valid exactly when it spends nothing. */
  lemma UnlinkedBlockOk(cfg: Config, b: Block, now: int)
    requires BlockOk(cfg, b, now)
    ensures BlockOk(cfg, RelinkBlock(b, []), now) <==> SpendsNothing(TxsOf(b.data))
  {
    RelinkInvisible(cfg, b, []);
    if b.data.Transactions? {
      var ts, us := b.data.list, Relink(b.data.list, []);
      forall i | 0 <= i < |ts|
        ensures ListedOk(cfg, us, b.index, i) <==> (ts[i].kind.Standard? ==> ts[i].inputs == [])
      {
        assert ListedOk(cfg, ts, b.index, i);
        UnlinkedTxOk(cfg, ts[i]);
      }
    }
  }

  predicate ChainSpendsNothing(bs: seq<Block>) {
    forall i :: 0 <= i < |bs| ==> SpendsNothing(TxsOf(bs[i].data))
  }

  function UnlinkAll(bs: seq<Block>): seq<Block> {
    seq(|bs|, i requires 0 <= i < |bs| => RelinkBlock(bs[i], []))
  }

  lemma UnlinkSnoc(bs: seq<Block>)
    requires bs != []
    ensures UnlinkAll(bs) == UnlinkAll(bs[..|bs| - 1]) + [RelinkBlock(Last(bs), [])]
    ensures BlocksToJson(bs)[..|bs| - 1] == BlocksToJson(bs[..|bs| - 1])
    ensures ChainSpendsNothing(bs) <==> ChainSpendsNothing(bs[..|bs| - 1]) && SpendsNothing(TxsOf(Last(bs).data))
  {
    var p := bs[..|bs| - 1];
    assert forall i :: 0 <= i < |p| ==> p[i] == bs[i];
    if ChainSpendsNothing(p) && SpendsNothing(TxsOf(Last(bs).data)) {
      forall i | 0 <= i < |bs|
        ensures SpendsNothing(TxsOf(bs[i].data))
      {
        if i < |p| { assert SpendsNothing(TxsOf(p[i].data)); }
      }
    }
  }

  /** Block `i` passes the difficulty test of a node that appends the chain block by block. */
  predicate WorkAt(cfg: Config, bs: seq<Block>, i: nat)
    requires ValidConfig(cfg) && i < |bs|
  {
    ReceiverAccepts(ZeroPrefixLength(bs[i].hash), After(cfg.difficulty, Times(bs[..i + 1])).difficulty)
  }

  predicate WorkOk(cfg: Config, bs: seq<Block>)
    requires ValidConfig(cfg)
  {
    cfg.pow ==> forall i :: 0 <= i < |bs| ==> WorkAt(cfg, bs, i)
  }

  /** A chain as it comes back from its serialized form. */
  function Rebuilt(cfg: Config, bs: seq<Block>): Chain
    requires ValidConfig(cfg)
  {
    Chain(UnlinkAll(bs), if cfg.pow then After(cfg.difficulty, Times(bs)) else InitAdjuster(cfg.difficulty))
  }

  lemma WorkSnoc(cfg: Config, bs: seq<Block>)
    requires ValidConfig(cfg) && bs != []
    ensures WorkOk(cfg, bs) <==> WorkOk(cfg, bs[..|bs| - 1]) && (cfg.pow ==> WorkAt(cfg, bs, |bs| - 1))
  {
    var p := bs[..|bs| - 1];
    forall i | 0 <= i < |p|
      ensures WorkAt(cfg, p, i) <==> WorkAt(cfg, bs, i)
    {
      assert p[..i + 1] == bs[..i + 1];
    }
  }

  lemma TimesSnoc(cfg: Config, bs: seq<Block>)
    requires ValidConfig(cfg) && bs != []
    ensures After(cfg.difficulty, Times(bs))
         == Adjusted(cfg.difficulty, After(cfg.difficulty, Times(bs[..|bs| - 1])), Last(bs).timestamp)
  {
    assert Times(bs)[..|Times(bs)| - 1] == Times(bs[..|bs| - 1]);
  }

  lemma UnlinkedFits(cfg: Config, bs: seq<Block>, now: int)
    requires ChainOk(cfg, bs, now)
    ensures var b := RelinkBlock(Last(bs), []);
            && LinksTo(UnlinkAll(bs[..|bs| - 1]), b)
            && (BlockOk(cfg, b, now) <==> SpendsNothing(TxsOf(Last(bs).data)))
  {
    var n := |bs| - 1;
    assert BlockOk(cfg, bs[n], now);
    UnlinkedBlockOk(cfg, bs[n], now);
    if n > 0 {
      assert IsSuccessor(cfg, bs[n], bs[n - 1]);
      assert Last(UnlinkAll(bs[..n])) == RelinkBlock(bs[n - 1], []);
    }
  }

  lemma RebuiltSnoc(cfg: Config, bs: seq<Block>)
    requires ValidConfig(cfg) && bs != []
    ensures var p, b := Rebuilt(cfg, bs[..|bs| - 1]), RelinkBlock(Last(bs), []);
            Rebuilt(cfg, bs) == Chain(p.blocks + [b], if cfg.pow then Adjusted(cfg.difficulty, p.adjuster, b.timestamp)
                                                      else p.adjuster)
    ensures WorkAt(cfg, bs, |bs| - 1)
       <==> ReceiverAccepts(ZeroPrefixLength(Last(bs).hash), After(cfg.difficulty, Times(bs)).difficulty)
  {
    UnlinkSnoc(bs);
    TimesSnoc(cfg, bs);
    assert bs[..|bs|] == bs;
  }

  lemma AppendUnlinked(cfg: Config, bs: seq<Block>, now: int)
    requires ValidConfig(cfg) && ChainOk(cfg, bs, now)
    ensures var r := Appended(cfg, Rebuilt(cfg, bs[..|bs| - 1]), RelinkBlock(Last(bs), []), now);
            && (r.Done? <==> SpendsNothing(TxsOf(Last(bs).data)) && (cfg.pow ==> WorkAt(cfg, bs, |bs| - 1)))
            && (r.Done? ==> r.state == Rebuilt(cfg, bs))
  {
    UnlinkedFits(cfg, bs, now);
    RebuiltSnoc(cfg, bs);
  }

  /** Serialization round trip: a valid chain is accepted back, minus its snapshots, exactly when
      none of its standard transactions has an input and, with proof of work, every block passes
      the difficulty test of a receiver. In particular every valid chain of text blocks without
      proof of work is. */
  lemma {:induction false} ChainRoundTrip(cfg: Config, bs: seq<Block>, now: int)
    requires ValidConfig(cfg) && ChainOk(cfg, bs, now)
    ensures ChainFromJson(cfg, BlocksToJson(bs), now) ==
            if ChainSpendsNothing(bs) && WorkOk(cfg, bs) then Some(Rebuilt(cfg, bs)) else None
  {
    hide Appended, BlockFromJson, BlockToJson, ChainOk, WorkOk, WorkAt, ChainSpendsNothing, SpendsNothing, Rebuilt;
    NonEmpty(cfg, bs, now);
    var n := |bs| - 1;
    var js := BlocksToJson(bs);
    assert js[..|js| - 1] == BlocksToJson(bs[..n]) && js[|js| - 1] == BlockToJson(bs[n]);
    UnlinkSnoc(bs);
    WorkSnoc(cfg, bs);
    BlockRoundTrip(bs[n]);
    AppendUnlinked(cfg, bs, now);
    if n == 0 {
      EmptyRoundTrip(cfg, bs[..n]);
    } else {
      ChainOkPrefix(cfg, bs, n, now);
      ChainRoundTrip(cfg, bs[..n], now);
    }
  }

  lemma NonEmpty(cfg: Config, bs: seq<Block>, now: int)
    requires ChainOk(cfg, bs, now)
    ensures bs != []
  {
  }

  lemma EmptyRoundTrip(cfg: Config, bs: seq<Block>)
    requires ValidConfig(cfg) && bs == []
    ensures BlocksToJson(bs) == [] && Rebuilt(cfg, bs) == EmptyChain(cfg) && ChainSpendsNothing(bs) && WorkOk(cfg, bs)
  {
    assert Times(bs) == [];
  }

  lemma UnlinkedChainOk(cfg: Config, bs: seq<Block>, now: int)
    requires ChainOk(cfg, bs, now) && ChainSpendsNothing(bs)
    ensures ChainOk(cfg, UnlinkAll(bs), now)
    ensures BlocksToJson(UnlinkAll(bs)) == BlocksToJson(bs)
  {
    var us := UnlinkAll(bs);
    forall i | 0 <= i < |bs|
      ensures BlockOk(cfg, us[i], now) && BlockToJson(us[i]) == BlockToJson(bs[i])
    {
      assert BlockOk(cfg, bs[i], now);
      UnlinkedBlockOk(cfg, bs[i], now);
      RelinkInvisible(cfg, bs[i], []);
    }
    forall i | 1 <= i < |us|
      ensures IsSuccessor(cfg, us[i], us[i - 1])
    {
      assert IsSuccessor(cfg, bs[i], bs[i - 1]);
    }
  }
}
