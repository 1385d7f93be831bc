/** The list of unspent outputs and the loop that updates it in place (src/transaction.cc). */
module Unspent {
  import opened Records
  import opened Digests
  import opened Validity

  // ---------- the erase-then-advance loop ----------

  /** What is left of a list when a loop erases every matching element it stands on and then
      steps on: the element that moves into the place of an erased one is not looked at.
      Erasing the last element leaves the iterator at the end before it is advanced once more;
      that step is undefined behaviour, reported by Overruns, and the scan ends there. */
  function Scan<T>(s: seq<T>, del: T -> bool): seq<T> {
    if s == [] then []
    else if !del(s[0]) then [s[0]] + Scan(s[1..], del)
    else if |s| == 1 then []
    else [s[1]] + Scan(s[2..], del)
  }

  predicate Overruns<T>(s: seq<T>, del: T -> bool) {
    if s == [] then false
    else if !del(s[0]) then Overruns(s[1..], del)
    else |s| == 1 || Overruns(s[2..], del)
  }

  /** What the loop is meant to leave. */
  function Without<T>(s: seq<T>, del: T -> bool): seq<T> {
    if s == [] then [] else (if del(s[0]) then [] else [s[0]]) + Without(s[1..], del)
  }

  predicate NoNeighbours<T>(s: seq<T>, del: T -> bool) {
    forall i :: 0 <= i < |s| - 1 ==> !(del(s[i]) && del(s[i + 1]))
  }

  /** No two neighbours match, and the last element does not match. */
  predicate ScanSafe<T>(s: seq<T>, del: T -> bool) {
    NoNeighbours(s, del) && (s != [] ==> !del(s[|s| - 1]))
  }

  lemma {:induction false} WithoutKeepsNone<T>(s: seq<T>, del: T -> bool)
    ensures forall x :: x in Without(s, del) ==> x in s && !del(x)
  {
    if s != [] { WithoutKeepsNone(s[1..], del); }
  }

  lemma NeighboursTail<T>(s: seq<T>, del: T -> bool, n: nat)
    requires 1 <= n <= 2 && n <= |s| && !del(s[n - 1])
    ensures NoNeighbours(s, del) <==> NoNeighbours(s[n..], del)
  {
    if NoNeighbours(s, del) {
      forall i | 0 <= i < |s[n..]| - 1
        ensures !(del(s[n..][i]) && del(s[n..][i + 1]))
      {
        assert s[n..][i] == s[n + i] && s[n..][i + 1] == s[n + i + 1];
      }
    }
    if NoNeighbours(s[n..], del) {
      forall i | 0 <= i < |s| - 1
        ensures !(del(s[i]) && del(s[i + 1]))
      {
        if i >= n { assert s[n..][i - n] == s[i] && s[n..][i - n + 1] == s[i + 1]; }
      }
    }
  }

  lemma ScanStepKeep<T>(s: seq<T>, del: T -> bool)
    requires s != [] && !del(s[0])
    ensures Scan(s, del) == [s[0]] + Scan(s[1..], del) && Without(s, del) == [s[0]] + Without(s[1..], del)
    ensures Scan(s, del) == Without(s, del) <==> Scan(s[1..], del) == Without(s[1..], del)
  {
    assert Scan(s, del)[1..] == Scan(s[1..], del) && Without(s, del)[1..] == Without(s[1..], del);
  }

  lemma ScanStepErase<T>(s: seq<T>, del: T -> bool)
    requires |s| > 1 && del(s[0]) && !del(s[1])
    ensures Scan(s, del) == [s[1]] + Scan(s[2..], del) && Without(s, del) == [s[1]] + Without(s[2..], del)
    ensures Scan(s, del) == Without(s, del) <==> Scan(s[2..], del) == Without(s[2..], del)
  {
    assert s[1..][1..] == s[2..];
    assert Without(s, del) == Without(s[1..], del);
    assert Scan(s, del)[1..] == Scan(s[2..], del) && Without(s, del)[1..] == Without(s[2..], del);
  }

  /** The literal loop leaves what it is meant to leave exactly when no two neighbours match. */
  lemma {:induction false} ScanFilters<T>(s: seq<T>, del: T -> bool)
    ensures Scan(s, del) == Without(s, del) <==> NoNeighbours(s, del)
  {
    if |s| > 0 {
      if !del(s[0]) {
        ScanFilters(s[1..], del);
        ScanStepKeep(s, del);
        NeighboursTail(s, del, 1);
      } else if |s| > 1 {
        if del(s[1]) {
          assert Scan(s, del)[0] == s[1];
          WithoutKeepsNone(s, del);
        } else {
          ScanFilters(s[2..], del);
          ScanStepErase(s, del);
          NeighboursTail(s, del, 2);
        }
      }
    }
  }

  /** Without matching neighbours, the loop leaves the list exactly if the last element matches. */
  lemma {:induction false} OverrunsExactly<T>(s: seq<T>, del: T -> bool)
    requires NoNeighbours(s, del)
    ensures Overruns(s, del) <==> s != [] && del(s[|s| - 1])
  {
    if |s| > 0 {
      if !del(s[0]) {
        NeighboursTail(s, del, 1);
        OverrunsExactly(s[1..], del);
      } else if |s| > 1 {
        assert !(del(s[0]) && del(s[0 + 1]));
        NeighboursTail(s, del, 2);
        OverrunsExactly(s[2..], del);
      }
    }
  }

  /** The literal loop does what it is meant to do, and stays within the list, exactly when no
      two neighbours match and the last element does not match. */
  lemma ScanExact<T>(s: seq<T>, del: T -> bool)
    ensures Scan(s, del) == Without(s, del) && !Overruns(s, del) <==> ScanSafe(s, del)
  {
    ScanFilters(s, del);
    if NoNeighbours(s, del) { OverrunsExactly(s, del); }
  }

  /** Where the loop stands: `r[..it]` is final, and `r[it..]` is still to be scanned. */
  function Standing<T>(r: seq<T>, it: nat, del: T -> bool): seq<T>
    requires it <= |r|
  {
    r[..it] + Scan(r[it..], del)
  }

  lemma StepKeep<T>(r: seq<T>, it: nat, del: T -> bool)
    requires it < |r| && !del(r[it])
    ensures Standing(r, it + 1, del) == Standing(r, it, del)
    ensures Overruns(r[it..], del) <==> Overruns(r[it + 1..], del)
  {
    assert r[..it + 1] == r[..it] + [r[it]];
    assert r[it..][1..] == r[it + 1..];
  }

  lemma StepErase<T>(r: seq<T>, it: nat, del: T -> bool)
    requires it + 1 < |r| && del(r[it])
    ensures var e := r[..it] + r[it + 1..];
            && Standing(e, it + 1, del) == Standing(r, it, del) && e[it + 1..] == r[it + 2..]
            && (Overruns(r[it..], del) <==> Overruns(e[it + 1..], del))
  {
    var e := r[..it] + r[it + 1..];
    assert e[..it + 1] == r[..it] + [r[it + 1]];
    assert e[it + 1..] == r[it + 2..] && r[it..][2..] == r[it + 2..];
  }

  lemma StepOver<T>(r: seq<T>, it: nat, del: T -> bool)
    requires it + 1 == |r| && del(r[it])
    ensures r[..it] + r[it + 1..] == Standing(r, it, del) && Overruns(r[it..], del)
  {
    assert r[it..] == [r[it]];
  }

  /** The loop itself. */
  method EraseLoop<T>(s: seq<T>, del: T -> bool) returns (r: seq<T>, overran: bool)
    ensures r == Scan(s, del) && overran == Overruns(s, del)
  {
    hide Scan, Overruns;
    r, overran := s, false;
    var it := 0;
    ScanNothing(del);
    while it < |r|
      invariant 0 <= it <= |r| || (it == |r| + 1 && overran)
      invariant it <= |r| ==> !overran && Standing(r, it, del) == Scan(s, del)
                              && (Overruns(s, del) <==> Overruns(r[it..], del))
      invariant it > |r| ==> r == Scan(s, del) && Overruns(s, del)
      decreases 2 * |r| - it
    {
      if del(r[it]) {
        if it + 1 == |r| {
          StepOver(r, it, del);
          overran := true;
        } else {
          StepErase(r, it, del);
        }
        r := r[..it] + r[it + 1..];
      } else {
        StepKeep(r, it, del);
      }
      it := it + 1;
    }
    assert it == |r| ==> r[..it] == r && r[it..] == [];
  }

  lemma ScanNothing<T>(del: T -> bool)
    ensures Scan([], del) == [] && !Overruns([], del)
  {
  }

  // ---------- updating the unspent outputs ----------

  function HasKey(k: Key): UTxO -> bool {
    (x: UTxO) => x.key == k
  }

  /** The outputs of a transaction as unspent outputs, in order. */
  function NewOutputs(hash: Digest, outputs: seq<TxO>): seq<UTxO> {
    if outputs == [] then []
    else
      var n := |outputs| - 1;
      NewOutputs(hash, outputs[..n]) + [UTxO(Key(hash, n), outputs[n])]
  }

  function ScanAll(u: seq<UTxO>, inputs: seq<TxI>): seq<UTxO> {
    if inputs == [] then u
    else Scan(ScanAll(u, inputs[..|inputs| - 1]), HasKey(inputs[|inputs| - 1].key))
  }

  /** Append the outputs, then run one erasing loop per input. */
  function Updated(u: seq<UTxO>, t: Tx): seq<UTxO> {
    ScanAll(u + NewOutputs(t.hash, t.outputs), t.inputs)
  }

  /** Some erasing loop advances past the end of the list. */
  predicate ScanAllOverruns(u: seq<UTxO>, inputs: seq<TxI>) {
    inputs != [] &&
    var before := inputs[..|inputs| - 1];
    ScanAllOverruns(u, before) || Overruns(ScanAll(u, before), HasKey(inputs[|inputs| - 1].key))
  }

  predicate UpdateOverruns(u: seq<UTxO>, t: Tx) {
    ScanAllOverruns(u + NewOutputs(t.hash, t.outputs), t.inputs)
  }

  function UpdatedAll(u: seq<UTxO>, ts: seq<Tx>): seq<UTxO> {
    if ts == [] then u else Updated(UpdatedAll(u, ts[..|ts| - 1]), ts[|ts| - 1])
  }

  class UnspentOutputs {
    var outputs: seq<UTxO>

    constructor ()
      ensures outputs == []
    {
      outputs := [];
    }

    method Clear()
      modifies this
      ensures outputs == []
    {
      outputs := [];
    }

    method Update(t: Tx) returns (overran: bool)
      modifies this
      ensures outputs == Updated(old(outputs), t)
      ensures overran == UpdateOverruns(old(outputs), t)
    {
      AppendOutputs(t);
      overran := EraseSpent(t);
    }

    method AppendOutputs(t: Tx)
      modifies this
      ensures outputs == old(outputs) + NewOutputs(t.hash, t.outputs)
    {
      for i := 0 to |t.outputs|
        invariant outputs == old(outputs) + NewOutputs(t.hash, t.outputs[..i])
      {
        assert t.outputs[..i + 1][..i] == t.outputs[..i];
        outputs := outputs + [UTxO(Key(t.hash, i), t.outputs[i])];
      }
      assert t.outputs[..|t.outputs|] == t.outputs;
    }

    method EraseSpent(t: Tx) returns (overran: bool)
      modifies this
      ensures outputs == ScanAll(old(outputs), t.inputs)
      ensures overran == ScanAllOverruns(old(outputs), t.inputs)
    {
      overran := false;
      for i := 0 to |t.inputs|
        invariant outputs == ScanAll(old(outputs), t.inputs[..i])
        invariant overran == ScanAllOverruns(old(outputs), t.inputs[..i])
      {
        assert t.inputs[..i + 1][..i] == t.inputs[..i];
        var r, over := EraseLoop(outputs, HasKey(t.inputs[i].key));
        outputs, overran := r, overran || over;
      }
      assert t.inputs[..|t.inputs|] == t.inputs;
    }

    method UpdateList(ts: seq<Tx>)
      modifies this
      ensures outputs == UpdatedAll(old(outputs), ts)
    {
      ghost var u := outputs;
      for i := 0 to |ts|
        invariant outputs == UpdatedAll(u, ts[..i])
      {
        assert ts[..i + 1][..i] == ts[..i];
        var _ := Update(ts[i]);
      }
      assert ts[..|ts|] == ts;
    }
  }

  // ---------- what the update means for lists with unique keys ----------

  ghost predicate UniqueKeys(u: seq<UTxO>) {
    forall k :: |Matches(u, k)| <= 1
  }

  /** No unspent output was created by a transaction with hash `h`. */
  ghost predicate Fresh(u: seq<UTxO>, h: Digest) {
    forall k: Key :: k.hash == h ==> Matches(u, k) == []
  }

  function KeySet(inputs: seq<TxI>): set<Key> {
    set i | 0 <= i < |inputs| :: inputs[i].key
  }

  /** The entries of `u` whose key is not spent, in order. */
  function Remaining(u: seq<UTxO>, spent: set<Key>): seq<UTxO> {
    if u == [] then [] else (if u[0].key in spent then [] else [u[0]]) + Remaining(u[1..], spent)
  }

  lemma {:induction false} MatchesTwice(u: seq<UTxO>, i: nat, j: nat)
    requires i < j < |u| && u[i].key == u[j].key
    ensures |Matches(u, u[i].key)| >= 2
  {
    if i > 0 { MatchesTwice(u[1..], i - 1, j - 1); } else { EntryMatches(u[1..], j - 1); }
  }

  lemma {:induction false} MatchesFound(u: seq<UTxO>, k: Key) returns (i: nat)
    requires Matches(u, k) != []
    ensures i < |u| && u[i].key == k
  {
    if u[0].key == k { i := 0; } else { i := MatchesFound(u[1..], k); i := i + 1; }
  }

  lemma {:induction false} MatchesPair(u: seq<UTxO>, k: Key) returns (i: nat, j: nat)
    requires |Matches(u, k)| >= 2
    ensures i < j < |u| && u[i].key == u[j].key
  {
    if u[0].key == k {
      i := 0;
      j := MatchesFound(u[1..], k);
      j := j + 1;
    } else {
      i, j := MatchesPair(u[1..], k);
      i, j := i + 1, j + 1;
    }
  }

  /** Unique keys, said of positions. */
  lemma UniqueKeysMeaning(u: seq<UTxO>)
    ensures UniqueKeys(u) <==> forall i, j :: 0 <= i < j < |u| ==> u[i].key != u[j].key
  {
    if UniqueKeys(u) {
      forall i, j | 0 <= i < j < |u|
        ensures u[i].key != u[j].key
      {
        if u[i].key == u[j].key { MatchesTwice(u, i, j); }
      }
    } else {
      var k :| |Matches(u, k)| > 1;
      var i, j := MatchesPair(u, k);
    }
  }

  lemma {:induction false} MatchesRemaining(u: seq<UTxO>, spent: set<Key>, k: Key)
    ensures Matches(Remaining(u, spent), k) == if k in spent then [] else Matches(u, k)
  {
    if u != [] {
      MatchesRemaining(u[1..], spent, k);
      var head := if u[0].key in spent then [] else [u[0]];
      MatchesAppend(head, Remaining(u[1..], spent), k);
      if head != [] { assert head[1..] == []; }
    }
  }

  lemma {:induction false} WithoutRemaining(u: seq<UTxO>, spent: set<Key>, k: Key)
    ensures Without(Remaining(u, spent), HasKey(k)) == Remaining(u, spent + {k})
  {
    if u != [] {
      WithoutRemaining(u[1..], spent, k);
      if u[0].key in spent {
        assert Remaining(u, spent) == Remaining(u[1..], spent);
        assert Remaining(u, spent + {k}) == Remaining(u[1..], spent + {k});
      } else {
        assert Remaining(u, spent)[1..] == Remaining(u[1..], spent);
        assert HasKey(k)(u[0]) <==> u[0].key in spent + {k};
      }
    }
  }

  lemma Regroup<T>(a: seq<T>, b: seq<T>, c: seq<T>)
    ensures a + (b + c) == (a + b) + c
  {
  }

  lemma RemainingHead(u: seq<UTxO>, spent: set<Key>)
    requires u != []
    ensures Remaining(u, spent) == (if u[0].key in spent then [] else [u[0]]) + Remaining(u[1..], spent)
  {
  }

  lemma {:induction false} RemainingAppend(u: seq<UTxO>, v: seq<UTxO>, spent: set<Key>)
    ensures Remaining(u + v, spent) == Remaining(u, spent) + Remaining(v, spent)
  {
    if u == [] {
      assert u + v == v;
    } else {
      RemainingHead(u, spent);
      RemainingHead(u + v, spent);
      assert (u + v)[1..] == u[1..] + v && (u + v)[0] == u[0];
      RemainingAppend(u[1..], v, spent);
      Regroup(if u[0].key in spent then [] else [u[0]], Remaining(u[1..], spent), Remaining(v, spent));
    }
  }

  lemma {:induction false} RemainingNone(u: seq<UTxO>)
    ensures Remaining(u, {}) == u
  {
    if u != [] { RemainingNone(u[1..]); }
  }

  lemma {:induction false} TotalRemaining(u: seq<UTxO>, spent: set<Key>, k: Key)
    requires k !in spent
    ensures Total(Remaining(u, spent)) == Total(Remaining(u, spent + {k})) + Total(Matches(u, k))
  {
    if u != [] {
      TotalRemaining(u[1..], spent, k);
      TotalAppend(if u[0].key in spent then [] else [u[0]], Remaining(u[1..], spent));
      TotalAppend(if u[0].key in spent + {k} then [] else [u[0]], Remaining(u[1..], spent + {k}));
      TotalAppend(if u[0].key == k then [u[0]] else [], Matches(u[1..], k));
      assert [u[0]][1..] == [];
    }
  }

  lemma {:induction false} ScanNone(u: seq<UTxO>, k: Key)
    requires Matches(u, k) == []
    ensures Scan(u, HasKey(k)) == u == Without(u, HasKey(k))
  {
    if u != [] { ScanNone(u[1..], k); }
  }

  lemma {:induction false} ScanOne(u: seq<UTxO>, k: Key)
    requires |Matches(u, k)| <= 1
    ensures Scan(u, HasKey(k)) == Without(u, HasKey(k))
  {
    if u != [] {
      if u[0].key != k {
        ScanOne(u[1..], k);
      } else {
        ScanNone(u[1..], k);
        if |u| > 1 {
          assert u[1..][1..] == u[2..];
          ScanNone(u[2..], k);
        }
      }
    }
  }

  lemma KeySetSnoc(inputs: seq<TxI>)
    requires inputs != []
    ensures KeySet(inputs) == KeySet(inputs[..|inputs| - 1]) + {inputs[|inputs| - 1].key}
  {
    var n := |inputs| - 1;
    var before := inputs[..n];
    assert forall i :: 0 <= i < n ==> before[i] == inputs[i];
    forall k | k in KeySet(inputs)
      ensures k in KeySet(before) + {inputs[n].key}
    {
      var i :| 0 <= i < |inputs| && inputs[i].key == k;
      if i < n { assert before[i].key == k; }
    }
    forall k | k in KeySet(before)
      ensures k in KeySet(inputs)
    {
      var i :| 0 <= i < |before| && before[i].key == k;
      assert inputs[i].key == k;
    }
  }

  /** With unique keys the loops delete exactly the spent keys. */
  lemma {:induction false} ScanAllIsRemaining(u: seq<UTxO>, inputs: seq<TxI>)
    requires UniqueKeys(u)
    ensures ScanAll(u, inputs) == Remaining(u, KeySet(inputs))
  {
    if inputs == [] {
      assert KeySet(inputs) == {};
      RemainingNone(u);
    } else {
      var before, k := inputs[..|inputs| - 1], inputs[|inputs| - 1].key;
      ScanAllIsRemaining(u, before);
      MatchesRemaining(u, KeySet(before), k);
      assert |Matches(u, k)| <= 1;
      ScanOne(Remaining(u, KeySet(before)), k);
      WithoutRemaining(u, KeySet(before), k);
      KeySetSnoc(inputs);
    }
  }

  lemma MatchesOne(x: UTxO, k: Key)
    ensures Matches([x], k) == if x.key == k then [x] else []
  {
    assert [x][1..] == [];
  }

  lemma {:induction false} NewOutputsMatches(hash: Digest, outputs: seq<TxO>, k: Key)
    ensures Matches(NewOutputs(hash, outputs), k) ==
            if k.hash == hash && k.index < |outputs| then [UTxO(k, outputs[k.index])] else []
  {
    if outputs != [] {
      var n := |outputs| - 1;
      var last := UTxO(Key(hash, n), outputs[n]);
      NewOutputsMatches(hash, outputs[..n], k);
      MatchesAppend(NewOutputs(hash, outputs[..n]), [last], k);
      MatchesOne(last, k);
    }
  }

  lemma {:induction false} NewOutputsTotal(hash: Digest, outputs: seq<TxO>)
    ensures Total(NewOutputs(hash, outputs)) == OutSum(outputs)
  {
    if outputs != [] {
      var n := |outputs| - 1;
      NewOutputsTotal(hash, outputs[..n]);
      var last := UTxO(Key(hash, n), outputs[n]);
      TotalAppend(NewOutputs(hash, outputs[..n]), [last]);
      assert [last][1..] == [];
    }
  }

  lemma AddedUnique(u: seq<UTxO>, t: Tx)
    requires UniqueKeys(u) && Fresh(u, t.hash)
    ensures UniqueKeys(u + NewOutputs(t.hash, t.outputs))
  {
    forall k
      ensures |Matches(u + NewOutputs(t.hash, t.outputs), k)| <= 1
    {
      MatchesAppend(u, NewOutputs(t.hash, t.outputs), k);
      NewOutputsMatches(t.hash, t.outputs, k);
      assert |Matches(u, k)| <= 1;
    }
  }

  /** Refinement of the update: for a list with unique keys and a new transaction hash, the
      literal loops append the outputs and delete exactly the spent keys. */
  lemma UpdateRefines(u: seq<UTxO>, t: Tx)
    requires UniqueKeys(u) && Fresh(u, t.hash)
    ensures Updated(u, t) == Remaining(u + NewOutputs(t.hash, t.outputs), KeySet(t.inputs))
    ensures UniqueKeys(Updated(u, t))
  {
    var v := u + NewOutputs(t.hash, t.outputs);
    AddedUnique(u, t);
    ScanAllIsRemaining(v, t.inputs);
    forall k
      ensures |Matches(Updated(u, t), k)| <= 1
    {
      MatchesRemaining(v, KeySet(t.inputs), k);
      assert |Matches(v, k)| <= 1;
    }
  }

  /** Lookup after the update. */
  lemma UpdateMatches(u: seq<UTxO>, t: Tx, k: Key)
    requires UniqueKeys(u) && Fresh(u, t.hash)
    ensures Matches(Updated(u, t), k) ==
            if k in KeySet(t.inputs) then []
            else if k.hash == t.hash && k.index < |t.outputs| then [UTxO(k, t.outputs[k.index])]
            else Matches(u, k)
  {
    UpdateRefines(u, t);
    MatchesRemaining(u + NewOutputs(t.hash, t.outputs), KeySet(t.inputs), k);
    MatchesAppend(u, NewOutputs(t.hash, t.outputs), k);
    NewOutputsMatches(t.hash, t.outputs, k);
  }

  /** No loop of the update advances past the end when, in addition, the transaction has an
      output and spends none of its own. */
  lemma UpdateStaysInside(u: seq<UTxO>, t: Tx)
    requires UniqueKeys(u) && Fresh(u, t.hash) && t.outputs != []
    requires forall k :: k in KeySet(t.inputs) ==> k.hash != t.hash
    ensures !UpdateOverruns(u, t)
  {
    AddedUnique(u, t);
    LoopsStayInside(u, t, t.inputs);
  }

  lemma {:induction false} LoopsStayInside(u: seq<UTxO>, t: Tx, inputs: seq<TxI>)
    requires t.outputs != [] && UniqueKeys(u + NewOutputs(t.hash, t.outputs))
    requires forall k :: k in KeySet(inputs) ==> k.hash != t.hash
    ensures !ScanAllOverruns(u + NewOutputs(t.hash, t.outputs), inputs)
    decreases |inputs|
  {
    if inputs != [] {
      var v := u + NewOutputs(t.hash, t.outputs);
      var before, k := inputs[..|inputs| - 1], inputs[|inputs| - 1].key;
      KeySetSnoc(inputs);
      LoopsStayInside(u, t, before);
      ScanAllIsRemaining(v, before);
      LastOutputStays(u, t, KeySet(before));
      LoopStaysInside(v, KeySet(before), k);
    }
  }

  lemma LastOutputStays(u: seq<UTxO>, t: Tx, spent: set<Key>)
    requires t.outputs != [] && forall k :: k in spent ==> k.hash != t.hash
    ensures var r := Remaining(u + NewOutputs(t.hash, t.outputs), spent);
            r != [] && r[|r| - 1].key.hash == t.hash
  {
    var n := |t.outputs| - 1;
    var head, last := u + NewOutputs(t.hash, t.outputs[..n]), [UTxO(Key(t.hash, n), t.outputs[n])];
    assert u + NewOutputs(t.hash, t.outputs) == head + last;
    RemainingAppend(head, last, spent);
    assert last[1..] == [];
    assert Remaining(last, spent) == last;
  }

  lemma LoopStaysInside(v: seq<UTxO>, spent: set<Key>, k: Key)
    requires UniqueKeys(v)
    requires var r := Remaining(v, spent); r != [] && r[|r| - 1].key.hash != k.hash
    ensures !Overruns(Remaining(v, spent), HasKey(k))
  {
    MatchesRemaining(v, spent, k);
    assert |Matches(v, k)| <= 1;
    OneMatchStaysInside(Remaining(v, spent), k);
  }

  lemma OneMatchStaysInside(r: seq<UTxO>, k: Key)
    requires r != [] && |Matches(r, k)| <= 1 && r[|r| - 1].key != k
    ensures !Overruns(r, HasKey(k))
  {
    forall i | 0 <= i < |r| - 1
      ensures !(HasKey(k)(r[i]) && HasKey(k)(r[i + 1]))
    {
      if r[i].key == k && r[i + 1].key == k { MatchesTwice(r, i, i + 1); }
    }
    ScanExact(r, HasKey(k));
  }

  predicate DistinctInputs(inputs: seq<TxI>) {
    forall i, j :: 0 <= i < j < |inputs| ==> inputs[i].key != inputs[j].key
  }

  /** Spending distinct keys takes exactly the input sum out of the list. */
  lemma {:induction false} SpentTotal(u: seq<UTxO>, inputs: seq<TxI>)
    requires DistinctInputs(inputs)
    ensures Total(u) == Total(Remaining(u, KeySet(inputs))) + InSum(u, inputs)
  {
    if inputs == [] {
      assert KeySet(inputs) == {};
      RemainingNone(u);
    } else {
      var n := |inputs| - 1;
      var before, k := inputs[..n], inputs[n].key;
      assert forall i :: 0 <= i < n ==> before[i] == inputs[i];
      SpentTotal(u, before);
      assert k !in KeySet(before);
      TotalRemaining(u, KeySet(before), k);
      KeySetSnoc(inputs);
    }
  }

  /** Conservation in one update: what comes in is what goes out. */
  lemma UpdateTotal(u: seq<UTxO>, t: Tx)
    requires UniqueKeys(u) && Fresh(u, t.hash) && DistinctInputs(t.inputs)
    requires forall k :: k in KeySet(t.inputs) ==> k.hash != t.hash
    ensures Total(Updated(u, t)) + InSum(u, t.inputs) == Total(u) + OutSum(t.outputs)
  {
    var new' := NewOutputs(t.hash, t.outputs);
    UpdateRefines(u, t);
    SpentTotal(u + new', t.inputs);
    TotalAppend(u, new');
    NewOutputsTotal(t.hash, t.outputs);
    forall i | 0 <= i < |t.inputs|
      ensures Matches(u + new', t.inputs[i].key) == Matches(u, t.inputs[i].key)
    {
      assert t.inputs[i].key in KeySet(t.inputs);
      MatchesAppend(u, new', t.inputs[i].key);
      NewOutputsMatches(t.hash, t.outputs, t.inputs[i].key);
    }
    InSumSameMatches(u + new', u, t.inputs);
  }
}
