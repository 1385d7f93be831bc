/** The bounded pool of unconfirmed transactions (src/transaction.cc). */
module Pools {
  import opened Options
  import opened Records
  import opened Digests
  import opened Validity
  import opened Unspent
  import opened Ledger

  predicate SharesInput(pool: seq<Tx>, t: Tx) {
    exists i :: 0 <= i < |pool| && !(KeySet(pool[i].inputs) !! KeySet(t.inputs))
  }

  /** Adding throws, leaving the pool alone, when the pool is full, the transaction is invalid
      against its own snapshot, or one of its inputs is already taken. */
  function Added(cfg: Config, pool: seq<Tx>, t: Tx): Outcome<seq<Tx>> {
    if |pool| == cfg.numPerBlock || !TxOk(cfg, t) || SharesInput(pool, t) then Thrown(pool)
    else Done(pool + [t])
  }

  function HasHash(h: Digest): Tx -> bool {
    (t: Tx) => t.hash == h
  }

  /** One erasing loop per transaction of a block. */
  function RemovedAll(pool: seq<Tx>, ts: seq<Tx>): seq<Tx> {
    if ts == [] then pool else Scan(RemovedAll(pool, ts[..|ts| - 1]), HasHash(ts[|ts| - 1].hash))
  }

  predicate AllUnspent(u: seq<UTxO>, t: Tx) {
    forall i :: 0 <= i < |t.inputs| ==> Matches(u, t.inputs[i].key) != []
  }

  function Stale(u: seq<UTxO>): Tx -> bool {
    (t: Tx) => !AllUnspent(u, t)
  }

  /** What pruning is meant to leave: the transactions whose inputs are all unspent. */
  function Filtered(pool: seq<Tx>, u: seq<UTxO>): seq<Tx> {
    Without(pool, Stale(u))
  }

  /** What the literal loop leaves: a transaction is erased at its first spent input, and the
      transaction behind an erased one is not looked at. */
  function Pruned(pool: seq<Tx>, u: seq<UTxO>): seq<Tx> {
    Scan(pool, Stale(u))
  }

  /** A spent input is followed by another input: after erasing the transaction, the inner loop
      goes on to read an input of it. */
  predicate Dangles(u: seq<UTxO>, t: Tx) {
    exists i :: 0 <= i < |t.inputs| - 1 && Matches(u, t.inputs[i].key) == []
  }

  /** The loop does something undefined: it reads an erased transaction, or advances past the end. */
  predicate PruneUndefined(pool: seq<Tx>, u: seq<UTxO>) {
    if pool == [] then false
    else if AllUnspent(u, pool[0]) then PruneUndefined(pool[1..], u)
    else Dangles(u, pool[0]) || |pool| == 1 || PruneUndefined(pool[2..], u)
  }

  /** No two neighbours are stale, the last transaction is not, and a stale transaction is stale
      at its last input only. */
  predicate PruneSafe(pool: seq<Tx>, u: seq<UTxO>) {
    ScanSafe(pool, Stale(u)) && forall t :: t in pool ==> AllUnspent(u, t) || !Dangles(u, t)
  }

  class UnconfirmedPool {
    var txs: seq<Tx>

    constructor ()
      ensures txs == []
    {
      txs := [];
    }

    method Clear()
      modifies this
      ensures txs == []
    {
      txs := [];
    }

    method Next() returns (t: Tx)
      requires txs != []
      modifies this
      ensures [t] + txs == old(txs)
    {
      t := txs[0];
      txs := txs[1..];
    }

    method Add(cfg: Config, t: Tx) returns (ok: bool)
      modifies this
      ensures (if ok then Done(txs) else Thrown(txs)) == Added(cfg, old(txs), t)
    {
      if |txs| == cfg.numPerBlock {
        return false;
      }
      var v := ValidTx(cfg, t);
      if !v.Valid? {
        return false;
      }
      var taken := AnyShared(txs, t);
      if taken {
        return false;
      }
      txs := txs + [t];
      return true;
    }

    method Remove(t: Tx) returns (overran: bool)
      modifies this
      ensures txs == Scan(old(txs), HasHash(t.hash))
      ensures overran == Overruns(old(txs), HasHash(t.hash))
    {
      txs, overran := EraseLoop(txs, HasHash(t.hash));
    }

    method RemoveList(ts: seq<Tx>)
      modifies this
      ensures txs == RemovedAll(old(txs), ts)
    {
      for i := 0 to |ts|
        invariant txs == RemovedAll(old(txs), ts[..i])
      {
        assert ts[..i + 1][..i] == ts[..i];
        var _ := Remove(ts[i]);
      }
      assert ts[..|ts|] == ts;
    }

    method Prune(u: seq<UTxO>) returns (undefined: bool)
      modifies this
      ensures txs == Pruned(old(txs), u) && undefined == PruneUndefined(old(txs), u)
    {
      txs, undefined := PruneLoop(txs, u);
    }
  }

  lemma UndefinedStep(r: seq<Tx>, it: nat, u: seq<UTxO>)
    requires it < |r|
    ensures PruneUndefined(r[it..], u) <==>
            if AllUnspent(u, r[it]) then PruneUndefined(r[it + 1..], u)
            else Dangles(u, r[it]) || it + 1 == |r| || PruneUndefined(r[it + 2..], u)
  {
    hide AllUnspent, Dangles;
    assert r[it..][1..] == r[it + 1..];
    if it + 1 < |r| { assert r[it..][2..] == r[it + 2..]; }
  }

  /** The outer loop of the pruning. */
  method PruneLoop(pool: seq<Tx>, u: seq<UTxO>) returns (r: seq<Tx>, undefined: bool)
    ensures r == Pruned(pool, u) && undefined == PruneUndefined(pool, u)
  {
    hide Scan, PruneUndefined, AllUnspent, Dangles;
    r, undefined := pool, false;
    var it := 0;
    PruneNothing(u);
    while it < |r|
      invariant 0 <= it <= |r| || (it == |r| + 1 && undefined)
      invariant it <= |r| ==> Standing(r, it, Stale(u)) == Pruned(pool, u)
                              && (PruneUndefined(pool, u) <==> undefined || PruneUndefined(r[it..], u))
      invariant it > |r| ==> r == Pruned(pool, u) && PruneUndefined(pool, u)
      decreases 2 * |r| - it
    {
      UndefinedStep(r, it, u);
      var bad := FirstSpent(r[it], u);
      if bad < |r[it].inputs| {
        undefined := undefined || bad + 1 < |r[it].inputs|;
        if it + 1 == |r| {
          StepOver(r, it, Stale(u));
          undefined := true;
        } else {
          StepErase(r, it, Stale(u));
        }
        r := r[..it] + r[it + 1..];
      } else {
        StepKeep(r, it, Stale(u));
      }
      it := it + 1;
    }
    assert it == |r| ==> r[..it] == r && r[it..] == [];
  }

  lemma PruneNothing(u: seq<UTxO>)
    ensures Pruned([], u) == [] && !PruneUndefined([], u)
  {
  }

  /** The duplicate check. */
  method AnyShared(pool: seq<Tx>, t: Tx) returns (taken: bool)
    ensures taken <==> SharesInput(pool, t)
  {
    for i := 0 to |pool|
      invariant forall j :: 0 <= j < i ==> KeySet(pool[j].inputs) !! KeySet(t.inputs)
    {
      var shared := ShareKey(t.inputs, pool[i].inputs);
      if shared {
        return true;
      }
    }
    return false;
  }

  /** The two inner loops of the duplicate check. */
  method ShareKey(a: seq<TxI>, b: seq<TxI>) returns (shared: bool)
    ensures shared <==> !(KeySet(b) !! KeySet(a))
  {
    for i := 0 to |a|
      invariant forall k, l :: 0 <= k < i && 0 <= l < |b| ==> a[k].key != b[l].key
    {
      for j := 0 to |b|
        invariant forall l :: 0 <= l < j ==> a[i].key != b[l].key
      {
        if a[i].key == b[j].key {
          assert a[i].key in KeySet(a) && b[j].key in KeySet(b);
          return true;
        }
      }
    }
    return false;
  }

  /** The two inner loops of the pruning: the first spent input, or the number of inputs. */
  method FirstSpent(t: Tx, u: seq<UTxO>) returns (bad: nat)
    ensures bad <= |t.inputs| && (bad < |t.inputs| <==> !AllUnspent(u, t))
    ensures bad + 1 < |t.inputs| <==> Dangles(u, t)
  {
    for i := 0 to |t.inputs|
      invariant forall j :: 0 <= j < i ==> Matches(u, t.inputs[j].key) != []
    {
      var found := false;
      for j := 0 to |u|
        invariant found <==> Matches(u[..j], t.inputs[i].key) != []
      {
        MatchesSnoc(u, j, t.inputs[i].key);
        found := found || u[j].key == t.inputs[i].key;
      }
      assert u[..|u|] == u;
      if !found {
        return i;
      }
    }
    return |t.inputs|;
  }

  // ---------- when the literal loops are the filters they are meant to be ----------

  /** The literal loop of `remove` drops exactly the transactions with the given hash, and stays
      within the list, if and only if no two neighbours carry it and the last one does not. */
  lemma RemoveExact(pool: seq<Tx>, t: Tx)
    ensures Scan(pool, HasHash(t.hash)) == Without(pool, HasHash(t.hash)) && !Overruns(pool, HasHash(t.hash))
       <==> ScanSafe(pool, HasHash(t.hash))
  {
    ScanExact(pool, HasHash(t.hash));
  }

  /** No two pooled transactions have the same hash. */
  predicate HashesDiffer(pool: seq<Tx>) {
    forall i, j :: 0 <= i < j < |pool| ==> pool[i].hash != pool[j].hash
  }

  /** The transaction has the hash of one of the list. */
  function HashIn(ts: seq<Tx>): Tx -> bool {
    (t: Tx) => CreatedBy(ts, t.hash)
  }

  lemma WithoutHead(s: seq<Tx>, a: Tx -> bool)
    ensures s == [] ==> Without(s, a) == []
    ensures s != [] ==> Without(s, a) == if a(s[0]) then Without(s[1..], a) else [s[0]] + Without(s[1..], a)
  {
  }

  lemma {:induction false} WithoutTwice(s: seq<Tx>, a: Tx -> bool, b: Tx -> bool, both: Tx -> bool)
    requires forall t :: both(t) <==> a(t) || b(t)
    ensures Without(Without(s, a), b) == Without(s, both)
  {
    hide Without;
    WithoutHead(s, a);
    WithoutHead(s, both);
    WithoutHead(Without(s, a), b);
    if s != [] {
      WithoutTwice(s[1..], a, b, both);
      if !a(s[0]) { assert Without(s, a)[1..] == Without(s[1..], a); }
    }
  }

  lemma {:induction false} WithoutNone(s: seq<Tx>, a: Tx -> bool)
    requires forall t :: t in s ==> !a(t)
    ensures Without(s, a) == s
  {
    if s != [] { WithoutNone(s[1..], a); }
  }

  lemma {:induction false} WithoutDiffers(s: seq<Tx>, a: Tx -> bool)
    requires HashesDiffer(s)
    ensures HashesDiffer(Without(s, a)) && forall t :: t in Without(s, a) ==> t in s && !a(t)
  {
    if s != [] {
      assert HashesDiffer(s[1..]) by { assert forall i :: 0 <= i < |s| - 1 ==> s[1..][i] == s[i + 1]; }
      WithoutDiffers(s[1..], a);
      if !a(s[0]) { HeadDiffers(s, Without(s[1..], a)); }
    }
  }

  lemma HeadDiffers(s: seq<Tx>, rest: seq<Tx>)
    requires s != [] && HashesDiffer(s) && HashesDiffer(rest) && forall t :: t in rest ==> t in s[1..]
    ensures HashesDiffer([s[0]] + rest)
  {
    var r := [s[0]] + rest;
    forall i, j | 0 <= i < j < |r|
      ensures r[i].hash != r[j].hash
    {
      if i == 0 {
        assert r[j] == rest[j - 1] && rest[j - 1] in s[1..];
        var k :| 0 <= k < |s[1..]| && s[1..][k] == r[j];
        assert s[k + 1] == r[j];
      }
    }
  }

  /** Removing the transactions of a block, when pooled hashes differ: exactly those with the hash of one
      of them are gone, and the others stay in order. */
  lemma {:induction false} RemovedExactly(pool: seq<Tx>, ts: seq<Tx>)
    requires HashesDiffer(pool)
    ensures RemovedAll(pool, ts) == Without(pool, HashIn(ts))
  {
    if ts == [] {
      WithoutNone(pool, HashIn(ts));
    } else {
      var before, h := ts[..|ts| - 1], ts[|ts| - 1].hash;
      var left := Without(pool, HashIn(before));
      RemovedExactly(pool, before);
      WithoutDiffers(pool, HashIn(before));
      forall i | 0 <= i < |left| - 1
        ensures !(HasHash(h)(left[i]) && HasHash(h)(left[i + 1]))
      {
        assert left[i].hash != left[i + 1].hash;
      }
      ScanFilters(left, HasHash(h));
      forall t: Tx
        ensures HashIn(ts)(t) <==> HashIn(before)(t) || HasHash(h)(t)
      {
        CreatedBySnoc(ts, t.hash);
      }
      WithoutTwice(pool, HashIn(before), HasHash(h), HashIn(ts));
    }
  }

  lemma UndefinedParts(pool: seq<Tx>, u: seq<UTxO>, n: nat)
    requires 1 <= n <= 2 && n <= |pool| && AllUnspent(u, pool[n - 1])
    ensures PruneSafe(pool, u) <==>
            PruneSafe(pool[n..], u) && (n == 2 ==> AllUnspent(u, pool[0]) || !Dangles(u, pool[0]))
  {
    hide AllUnspent, Dangles;
    NeighboursTail(pool, Stale(u), n);
    assert pool == pool[..n] + pool[n..];
    if PruneSafe(pool[n..], u) && (n == 2 ==> AllUnspent(u, pool[0]) || !Dangles(u, pool[0])) {
      forall t | t in pool
        ensures AllUnspent(u, t) || !Dangles(u, t)
      {
        assert t in pool[..n] || t in pool[n..];
      }
    }
  }

  /** Pruning is the filter it is meant to be, and nothing in it is undefined, if and only if no
      two neighbours are stale, the last transaction is not, and stale transactions are stale at
      their last input only. */
  lemma {:induction false} PruneExact(pool: seq<Tx>, u: seq<UTxO>)
    ensures Pruned(pool, u) == Filtered(pool, u) && !PruneUndefined(pool, u) <==> PruneSafe(pool, u)
  {
    if |pool| > 0 {
      if AllUnspent(u, pool[0]) {
        PruneExact(pool[1..], u);
        ScanStepKeep(pool, Stale(u));
        UndefinedParts(pool, u, 1);
      } else if |pool| > 1 {
        if AllUnspent(u, pool[1]) {
          PruneExact(pool[2..], u);
          ScanStepErase(pool, Stale(u));
          UndefinedParts(pool, u, 2);
        } else {
          ScanFilters(pool, Stale(u));
          assert Stale(u)(pool[0]) && Stale(u)(pool[0 + 1]);
        }
      }
    }
  }

  /** The result alone, whatever is undefined on the way: no two neighbours are stale. */
  lemma PruneFiltersExactly(pool: seq<Tx>, u: seq<UTxO>)
    ensures Pruned(pool, u) == Filtered(pool, u) <==> NoNeighbours(pool, Stale(u))
  {
    ScanFilters(pool, Stale(u));
  }

  /** Said of what is left: no spent input remains exactly when no two neighbours are stale. */
  lemma PrunedUnspentExactly(pool: seq<Tx>, u: seq<UTxO>)
    ensures (forall t :: t in Pruned(pool, u) ==> AllUnspent(u, t)) <==> NoNeighbours(pool, Stale(u))
  {
    if NoNeighbours(pool, Stale(u)) {
      ScanFilters(pool, Stale(u));
      FilteredMembers(pool, u);
    } else {
      var t := StaleSurvivor(pool, u);
    }
  }

  /** The failing input: of two stale neighbours the second one stays in the pool. */
  lemma PruneSkipsNeighbour(u: seq<UTxO>, a: Tx, b: Tx)
    requires !AllUnspent(u, a) && !AllUnspent(u, b)
    ensures Pruned([a, b], u) == [b] && Filtered([a, b], u) == []
  {
    var pool := [a, b];
    assert Stale(u)(pool[0]) && Stale(u)(pool[1]);
    assert Scan(pool, Stale(u)) == [pool[1]] + Scan(pool[2..], Stale(u));
    assert Scan(pool[2..], Stale(u)) == [];
    assert Without(pool, Stale(u)) == Without(pool[1..], Stale(u));
    assert pool[1..] == [b] && [b][1..] == [];
    assert Without([b], Stale(u)) == Without([b][1..], Stale(u));
  }

  // ---------- what every pool operation keeps ----------

  /** No two pooled transactions share an input. */
  predicate Disjoint(pool: seq<Tx>) {
    pool == [] || ((forall t :: t in pool[1..] ==> KeySet(pool[0].inputs) !! KeySet(t.inputs)) && Disjoint(pool[1..]))
  }

  /** Holds of every pool, synced or not. */
  predicate PoolInv(cfg: Config, pool: seq<Tx>) {
    && |pool| <= cfg.numPerBlock
    && Disjoint(pool)
    && (forall t :: t in pool ==> TxOk(cfg, t) && CleanTx(t))
  }

  /** Every pooled input is unspent, and the unspent outputs still hold for it what the snapshot
      taken when the transaction was added holds. */
  ghost predicate PoolLinked(u: seq<UTxO>, pool: seq<Tx>) {
    forall t :: t in pool ==> TxLinked(u, t)
  }

  ghost predicate TxLinked(u: seq<UTxO>, t: Tx) {
    forall k :: k in KeySet(t.inputs) ==> Matches(u, k) != [] && Matches(u, k) == Matches(t.snapshot, k)
  }

  lemma {:induction false} ScanShrinks<T>(s: seq<T>, del: T -> bool)
    ensures |Scan(s, del)| <= |s|
    ensures forall x :: x in Scan(s, del) ==> x in s
  {
    if s != [] {
      if !del(s[0]) { ScanShrinks(s[1..], del); } else if |s| > 1 { ScanShrinks(s[2..], del); }
    }
  }

  lemma {:induction false} ScanDisjoint(pool: seq<Tx>, del: Tx -> bool)
    requires Disjoint(pool)
    ensures Disjoint(Scan(pool, del))
  {
    if pool != [] {
      var r := Scan(pool, del);
      if !del(pool[0]) {
        ScanDisjoint(pool[1..], del);
        ScanShrinks(pool[1..], del);
        assert r[1..] == Scan(pool[1..], del);
      } else if |pool| > 1 {
        assert pool[1..][1..] == pool[2..];
        ScanDisjoint(pool[2..], del);
        ScanShrinks(pool[2..], del);
        assert r[1..] == Scan(pool[2..], del);
      }
    }
  }

  lemma {:induction false} RemovedShrinks(pool: seq<Tx>, ts: seq<Tx>)
    ensures |RemovedAll(pool, ts)| <= |pool|
    ensures forall t :: t in RemovedAll(pool, ts) ==> t in pool
    ensures Disjoint(pool) ==> Disjoint(RemovedAll(pool, ts))
  {
    if ts != [] {
      var before := RemovedAll(pool, ts[..|ts| - 1]);
      RemovedShrinks(pool, ts[..|ts| - 1]);
      ScanShrinks(before, HasHash(ts[|ts| - 1].hash));
      if Disjoint(pool) { ScanDisjoint(before, HasHash(ts[|ts| - 1].hash)); }
    }
  }

  lemma PrunedShrinks(pool: seq<Tx>, u: seq<UTxO>)
    ensures |Pruned(pool, u)| <= |pool|
    ensures forall t :: t in Pruned(pool, u) ==> t in pool
  {
    ScanShrinks(pool, Stale(u));
  }

  lemma {:induction false} FilteredMembers(pool: seq<Tx>, u: seq<UTxO>)
    ensures forall t :: t in Filtered(pool, u) <==> t in pool && AllUnspent(u, t)
  {
    if pool != [] { FilteredMembers(pool[1..], u); }
  }

  lemma PrunedKeeps(cfg: Config, pool: seq<Tx>, u: seq<UTxO>)
    requires PoolInv(cfg, pool)
    ensures PoolInv(cfg, Pruned(pool, u))
  {
    PrunedShrinks(pool, u);
    ScanDisjoint(pool, Stale(u));
  }

  lemma {:induction false} DisjointSnoc(pool: seq<Tx>, t: Tx)
    requires Disjoint(pool) && forall s :: s in pool ==> KeySet(s.inputs) !! KeySet(t.inputs)
    ensures Disjoint(pool + [t])
  {
    if pool == [] {
      assert ([t])[1..] == [];
      assert pool + [t] == [t];
    } else {
      DisjointSnoc(pool[1..], t);
      assert (pool + [t])[1..] == pool[1..] + [t];
    }
  }

  lemma AddedKeeps(cfg: Config, pool: seq<Tx>, t: Tx)
    requires PoolInv(cfg, pool) && CleanTx(t)
    ensures PoolInv(cfg, Added(cfg, pool, t).state)
  {
    if Added(cfg, pool, t).Done? {
      forall s | s in pool
        ensures KeySet(s.inputs) !! KeySet(t.inputs)
      {
        var i :| 0 <= i < |pool| && pool[i] == s;
      }
      DisjointSnoc(pool, t);
    }
  }

  /** A valid transaction is linked with the unspent outputs it is validated against. */
  lemma AddedIsLinked(cfg: Config, u: seq<UTxO>, t: Tx)
    requires TxOk(cfg, t) && t.snapshot == u
    ensures TxLinked(u, t)
  {
    forall k | k in KeySet(t.inputs)
      ensures Matches(u, k) != []
    {
      var i :| 0 <= i < |t.inputs| && t.inputs[i].key == k;
      if t.kind.Standard? { assert InputOk(cfg, t, u, i); }
    }
  }

  /** So adding keeps the pool linked. */
  lemma AddedLinked(cfg: Config, u: seq<UTxO>, pool: seq<Tx>, t: Tx)
    requires PoolLinked(u, pool)
    ensures PoolLinked(u, Added(cfg, pool, t.(snapshot := u)).state)
  {
    if Added(cfg, pool, t.(snapshot := u)).Done? { AddedIsLinked(cfg, u, t.(snapshot := u)); }
  }

  /** Adding, exactly: there is room, the transaction is valid, and no pooled transaction names one of the
      outputs it spends. */
  lemma AddedExactly(cfg: Config, pool: seq<Tx>, t: Tx)
    ensures Added(cfg, pool, t).Done? <==>
            && |pool| != cfg.numPerBlock && TxOk(cfg, t)
            && forall i, a, b :: 0 <= i < |pool| && 0 <= a < |pool[i].inputs| && 0 <= b < |t.inputs| ==>
                 pool[i].inputs[a].key != t.inputs[b].key
    ensures Added(cfg, pool, t).state == if Added(cfg, pool, t).Done? then pool + [t] else pool
  {
    hide TxOk;
    if SharesInput(pool, t) {
      var i :| 0 <= i < |pool| && !(KeySet(pool[i].inputs) !! KeySet(t.inputs));
      var k :| k in KeySet(pool[i].inputs) && k in KeySet(t.inputs);
      var a :| 0 <= a < |pool[i].inputs| && pool[i].inputs[a].key == k;
      var b :| 0 <= b < |t.inputs| && t.inputs[b].key == k;
    } else {
      forall i, a, b | 0 <= i < |pool| && 0 <= a < |pool[i].inputs| && 0 <= b < |t.inputs|
        ensures pool[i].inputs[a].key != t.inputs[b].key
      {
        assert pool[i].inputs[a].key in KeySet(pool[i].inputs) && t.inputs[b].key in KeySet(t.inputs);
      }
    }
  }

  lemma {:induction false} DisjointPairs(pool: seq<Tx>, i: nat, j: nat)
    requires Disjoint(pool) && i < j < |pool|
    ensures KeySet(pool[i].inputs) !! KeySet(pool[j].inputs)
  {
    if i == 0 {
      assert pool[j] == pool[1..][j - 1];
    } else {
      DisjointPairs(pool[1..], i - 1, j - 1);
    }
  }

  /** An output that survives a block is the output it was before. */
  lemma SurvivorKept(u: seq<UTxO>, ts: seq<Tx>, k: Key)
    requires Applicable(u, ts) && Matches(u, k) != [] && Matches(UpdatedAll(u, ts), k) != []
    ensures Matches(UpdatedAll(u, ts), k) == Matches(u, k)
  {
    BlockApplies(u, ts);
    assert !SpentBy(ts, k);
    forall j | 0 <= j < |ts|
      ensures ts[j].hash != k.hash
    {
      assert Fresh(u, ts[j].hash);
    }
  }

  /** A linked transaction is stale after a block exactly when it spends what the block spends. */
  lemma StaleMeansConflict(u: seq<UTxO>, ts: seq<Tx>, t: Tx)
    requires Applicable(u, ts) && TxLinked(u, t)
    ensures Stale(UpdatedAll(u, ts))(t) <==> exists k :: k in KeySet(t.inputs) && SpentBy(ts, k)
  {
    BlockApplies(u, ts);
    forall i | 0 <= i < |t.inputs|
      ensures Matches(UpdatedAll(u, ts), t.inputs[i].key) == [] <==> SpentBy(ts, t.inputs[i].key)
    {
      var k := t.inputs[i].key;
      assert k in KeySet(t.inputs);
      UntouchedKept(u, ts, k);
    }
  }

  lemma UntouchedKept(u: seq<UTxO>, ts: seq<Tx>, k: Key)
    requires Applicable(u, ts) && Matches(u, k) != []
    ensures Matches(UpdatedAll(u, ts), k) == if SpentBy(ts, k) then [] else Matches(u, k)
  {
    BlockApplies(u, ts);
    forall j | 0 <= j < |ts|
      ensures ts[j].hash != k.hash
    {
      assert Fresh(u, ts[j].hash);
    }
  }

  /** Applying a block and pruning keeps the pool linked, so that surviving inputs still map to
      the outputs their snapshots hold, if and only if no two neighbours are stale. */
  lemma PrunedLinkedExactly(u: seq<UTxO>, pool: seq<Tx>, rest: seq<Tx>, ts: seq<Tx>)
    requires Applicable(u, ts) && PoolLinked(u, pool) && forall t :: t in rest ==> t in pool
    ensures PoolLinked(UpdatedAll(u, ts), Pruned(rest, UpdatedAll(u, ts)))
       <==> NoNeighbours(rest, Stale(UpdatedAll(u, ts)))
  {
    var v := UpdatedAll(u, ts);
    PrunedShrinks(rest, v);
    if NoNeighbours(rest, Stale(v)) {
      ScanFilters(rest, Stale(v));
      FilteredMembers(rest, v);
      forall t | t in Pruned(rest, v)
        ensures TxLinked(v, t)
      {
        assert t in pool;
        SurvivorLinked(u, ts, t);
      }
    } else {
      var t := StaleSurvivor(rest, v);
      StaleNotLinked(v, t);
    }
  }

  lemma StaleNotLinked(u: seq<UTxO>, t: Tx)
    requires !AllUnspent(u, t)
    ensures !TxLinked(u, t)
  {
    var i :| 0 <= i < |t.inputs| && Matches(u, t.inputs[i].key) == [];
    assert t.inputs[i].key in KeySet(t.inputs);
  }

  lemma {:induction false} StaleSurvivor(pool: seq<Tx>, u: seq<UTxO>) returns (t: Tx)
    requires !NoNeighbours(pool, Stale(u))
    ensures t in Pruned(pool, u) && !AllUnspent(u, t)
  {
    if AllUnspent(u, pool[0]) {
      NeighboursTail(pool, Stale(u), 1);
      t := StaleSurvivor(pool[1..], u);
    } else if AllUnspent(u, pool[1]) {
      NeighboursTail(pool, Stale(u), 2);
      t := StaleSurvivor(pool[2..], u);
    } else {
      t := pool[1];
    }
  }

  lemma SurvivorLinked(u: seq<UTxO>, ts: seq<Tx>, t: Tx)
    requires Applicable(u, ts) && TxLinked(u, t) && AllUnspent(UpdatedAll(u, ts), t)
    ensures TxLinked(UpdatedAll(u, ts), t)
  {
    forall k | k in KeySet(t.inputs)
      ensures Matches(UpdatedAll(u, ts), k) != [] && Matches(UpdatedAll(u, ts), k) == Matches(t.snapshot, k)
    {
      KeyUnspent(UpdatedAll(u, ts), t, k);
      SurvivorKept(u, ts, k);
    }
  }

  lemma KeyUnspent(u: seq<UTxO>, t: Tx, k: Key)
    requires AllUnspent(u, t) && k in KeySet(t.inputs)
    ensures Matches(u, k) != []
  {
  }
}
