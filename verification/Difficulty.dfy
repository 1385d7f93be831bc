/** The difficulty adjuster and the two ends of proof of work: the leading-zero target the
    miner searches for and the test the receiver applies (include/difficulty.h,
    include/blockchain.h). Difficulties are reals. */
module Difficulty {
  import opened Digests

  datatype Params = Params(timeExpected: int, init: real, adjustAfter: nat, limit: real)

  predicate ValidParams(p: Params) {
    p.timeExpected > 0 && p.adjustAfter > 0 && p.init > 0.0 && p.limit >= 1.0
  }

  datatype Adjuster = Adjuster(difficulty: real, cumulative: real, counter: nat, timestamp: int)

  function InitAdjuster(p: Params): Adjuster {
    Adjuster(p.init, 0.0, 0, 0)
  }

  /** The clamped adjustment factor. Zero elapsed time divides a positive time by zero, which
      is positive infinity, so the upper clamp applies. */
  function Factor(p: Params, elapsed: int): real
    requires ValidParams(p)
  {
    if elapsed == 0 then p.limit
    else
      var f := (p.timeExpected * p.adjustAfter) as real / elapsed as real;
      if f < 1.0 / p.limit then 1.0 / p.limit
      else if f > p.limit then p.limit
      else f
  }

  /** One call of the adjuster, given the factor for the time elapsed since the last adjustment. */
  function AdjustedBy(p: Params, a: Adjuster, timestamp: int, factor: real): Adjuster
    requires ValidParams(p)
  {
    if a.counter == 0 then a.(timestamp := timestamp, counter := 1)
    else if a.counter % p.adjustAfter == 0 then
      Adjuster(a.difficulty * factor, a.cumulative + a.difficulty * factor, a.counter + 1, timestamp)
    else a.(counter := a.counter + 1)
  }

  function Adjusted(p: Params, a: Adjuster, timestamp: int): Adjuster
    requires ValidParams(p)
  {
    AdjustedBy(p, a, timestamp, Factor(p, timestamp - a.timestamp))
  }

  class DifficultyAdjuster {
    const params: Params
    var difficulty: real
    var cumulative: real
    var counter: nat
    var timestamp: int

    ghost function State(): Adjuster
      reads this
    {
      Adjuster(difficulty, cumulative, counter, timestamp)
    }

    constructor (p: Params)
      ensures params == p && State() == InitAdjuster(p)
    {
      params, difficulty, cumulative, counter, timestamp := p, p.init, 0.0, 0, 0;
    }

    method Adjust(now: int)
      requires ValidParams(params)
      modifies this
      ensures State() == Adjusted(params, old(State()), now)
    {
      if counter == 0 {
        timestamp := now;
      } else if counter % params.adjustAfter == 0 {
        var elapsed := now - timestamp;
        var factor := params.limit;
        if elapsed != 0 {
          factor := (params.timeExpected * params.adjustAfter) as real / elapsed as real;
          if factor < 1.0 / params.limit {
            factor := 1.0 / params.limit;
          } else if factor > params.limit {
            factor := params.limit;
          }
        }
        difficulty := difficulty * factor;
        cumulative := cumulative + difficulty;
        timestamp := now;
      }
      counter := counter + 1;
    }
  }

  // ---------- all runs of the adjuster ----------

  /** The adjuster after one call per element of `times`. */
  function After(p: Params, times: seq<int>): Adjuster
    requires ValidParams(p)
  {
    if times == [] then InitAdjuster(p)
    else Adjusted(p, After(p, times[..|times| - 1]), times[|times| - 1])
  }

  function Power(x: real, n: nat): (r: real)
    requires 1.0 <= x
    ensures 1.0 <= r
  {
    if n == 0 then 1.0
    else
      ScaleUp(x, 1.0, Power(x, n - 1));
      x * Power(x, n - 1)
  }

  /** Call number `c`, counted from zero, adjusts the difficulty. */
  predicate Adjusts(p: Params, c: nat)
    requires ValidParams(p)
  {
    c != 0 && c % p.adjustAfter == 0
  }

  /** How many of the first `calls` calls adjusted the difficulty, counted one by one. */
  function Rounds(p: Params, calls: nat): nat
    requires ValidParams(p)
  {
    if calls == 0 then 0 else Rounds(p, calls - 1) + (if Adjusts(p, calls - 1) then 1 else 0)
  }

  /** The last of the first `calls` calls that adjusted the difficulty, or call 0. */
  function LastRound(p: Params, calls: nat): (c: nat)
    requires ValidParams(p) && calls > 0
    ensures c < calls
  {
    if calls == 1 || Adjusts(p, calls - 1) then calls - 1 else LastRound(p, calls - 1)
  }

  /** The difficulties in force right after each adjusting call, added up. */
  function AdjustedSum(p: Params, times: seq<int>): real
    requires ValidParams(p)
  {
    if times == [] then 0.0
    else AdjustedSum(p, times[..|times| - 1])
         + (if Adjusts(p, |times| - 1) then After(p, times).difficulty else 0.0)
  }

  lemma QuotientUnique(c: nat, m: nat, q: nat, r: nat)
    requires r < m && c == m * q + r
    ensures c / m == q && c % m == r
  {
    var q', r' := c / m, c % m;
    assert m * q' + r' == c;
    assert m * (q - q') == r' - r && m * (q' - q) == r - r';
    if q - q' >= 1 {
      ProductAtLeast(m, q - q');
    } else if q' - q >= 1 {
      ProductAtLeast(m, q' - q);
    }
  }

  lemma ProductAtLeast(m: nat, k: nat)
    requires 1 <= k
    ensures m <= m * k
  {
  }

  /** Closed form: exactly (calls - 1) / adjustAfter adjustments have happened, and the last
      one happened in call adjustAfter * that number. */
  lemma {:induction false} RoundsClosedForm(p: Params, calls: nat)
    requires ValidParams(p) && calls > 0
    ensures Rounds(p, calls) == (calls - 1) / p.adjustAfter
    ensures LastRound(p, calls) == (calls - 1) - (calls - 1) % p.adjustAfter
  {
    var m := p.adjustAfter;
    if calls == 1 {
      QuotientUnique(0, m, 0, 0);
      assert Rounds(p, 1) == Rounds(p, 0);
    } else {
      RoundsClosedForm(p, calls - 1);
      var q, r := (calls - 2) / m, (calls - 2) % m;
      assert calls - 2 == m * q + r;
      if r + 1 < m {
        QuotientUnique(calls - 1, m, q, r + 1);
      } else {
        assert m * (q + 1) == m * q + m;
        QuotientUnique(calls - 1, m, q + 1, 0);
      }
    }
  }

  lemma FactorBounds(p: Params, elapsed: int)
    requires ValidParams(p)
    ensures 0.0 < 1.0 / p.limit <= Factor(p, elapsed) <= p.limit
    ensures 1.0 <= p.limit * Factor(p, elapsed)
  {
    var inv := 1.0 / p.limit;
    assert p.limit * inv == 1.0;
    assert 0.0 < inv <= 1.0;
    ScaleUp(p.limit, inv, Factor(p, elapsed));
  }

  lemma ScaleUp(k: real, x: real, y: real)
    requires 0.0 <= k && x <= y
    ensures k * x <= k * y
  {
  }

  lemma ScaleUpStrict(k: real, x: real, y: real)
    requires 0.0 < k && x < y
    ensures k * x < k * y
  {
  }

  /** One adjustment keeps the difficulty within one more factor of the limit. */
  lemma AdjustKeepsBand(low: real, d: real, high: real, f: real, limit: real)
    requires 0.0 < low <= d <= high && 1.0 <= limit && 1.0 / limit <= f <= limit
    ensures 0.0 < low / limit <= d * f <= high * limit
  {
    var inv := 1.0 / limit;
    DivideIsScale(low, limit);
    ScaleUpStrict(low, 0.0, inv);
    ScaleUp(low, inv, f);
    ScaleUp(f, low, d);
    ScaleUp(d, f, limit);
    ScaleUp(limit, d, high);
  }

  lemma DivideIsScale(x: real, k: real)
    requires 1.0 <= k
    ensures 0.0 < 1.0 / k && x / k == x * (1.0 / k)
  {
    var inv := 1.0 / k;
    assert k * inv == 1.0;
    assert x / k == (x * (k * inv)) / k;
  }

  /** init / limit^n and init * limit^n, one factor at a time. */
  function Low(p: Params, n: nat): real
    requires ValidParams(p)
  {
    if n == 0 then p.init else Low(p, n - 1) / p.limit
  }

  function High(p: Params, n: nat): real
    requires ValidParams(p)
  {
    if n == 0 then p.init else High(p, n - 1) * p.limit
  }

  lemma {:induction false} BandClosedForm(p: Params, n: nat)
    requires ValidParams(p)
    ensures Low(p, n) == p.init / Power(p.limit, n) && High(p, n) == p.init * Power(p.limit, n)
  {
    if n > 0 {
      BandClosedForm(p, n - 1);
      DivideTwice(p.init, Power(p.limit, n - 1), p.limit);
    }
  }

  lemma DivideTwice(x: real, a: real, b: real)
    requires a >= 1.0 && b >= 1.0
    ensures b * a >= 1.0 && x / a / b == x / (b * a)
  {
    ScaleUp(b, 1.0, a);
    var y := x / a / b;
    assert y * b == x / a;
    assert y * (b * a) == (y * b) * a == x;
  }

  /** Difficulty bounds, for any timestamps, including zero or negative elapsed times: after
      c >= 1 calls exactly n = (c - 1) / adjustAfter adjustments have happened, the difficulty
      lies within [init / limit^n, init * limit^n], and the cumulative difficulty is the sum of
      the n adjusted values. */
  lemma DifficultyBounds(p: Params, times: seq<int>)
    requires ValidParams(p) && times != []
    ensures After(p, times).counter == |times|
    ensures (|times| - 1) / p.adjustAfter == Rounds(p, |times|)
    ensures After(p, times).cumulative == AdjustedSum(p, times)
    ensures p.init / Power(p.limit, Rounds(p, |times|)) <= After(p, times).difficulty
    ensures After(p, times).difficulty <= p.init * Power(p.limit, Rounds(p, |times|))
  {
    hide After, Rounds, Power, Low, High, AdjustedSum;
    RoundsClosedForm(p, |times|);
    AdjusterTracks(p, times);
    assert Low(p, Rounds(p, |times|)) <= After(p, times).difficulty <= High(p, Rounds(p, |times|)) by {
      DifficultyBand(p, times);
    }
    BandClosedForm(p, Rounds(p, |times|));
  }

  lemma DivideBound(x: real, d: real, pow: real)
    requires 1.0 <= pow && x <= d * pow
    ensures x / pow <= d
  {
    if d < x / pow {
      ScaleUpStrict(pow, d, x / pow);
    }
  }

  /** Counter, timestamp and cumulative difficulty of every run. */
  lemma {:induction false} AdjusterTracks(p: Params, times: seq<int>)
    requires ValidParams(p)
    ensures var a := After(p, times);
            && a.counter == |times|
            && (times != [] ==> a.timestamp == times[LastRound(p, |times|)])
            && a.cumulative == AdjustedSum(p, times)
  {
    if times != [] {
      AdjusterTracks(p, times[..|times| - 1]);
    }
  }

  lemma BandStep(p: Params, a: Adjuster, timestamp: int, f: real, n: nat)
    requires ValidParams(p) && 0.0 < Low(p, n) <= a.difficulty <= High(p, n)
    requires Adjusts(p, a.counter) && 1.0 / p.limit <= f <= p.limit
    ensures 0.0 < Low(p, n + 1) <= AdjustedBy(p, a, timestamp, f).difficulty <= High(p, n + 1)
  {
    BandNext(p, a.difficulty, f, n);
  }

  lemma BandNext(p: Params, d: real, f: real, n: nat)
    requires ValidParams(p) && 0.0 < Low(p, n) <= d <= High(p, n) && 1.0 / p.limit <= f <= p.limit
    ensures 0.0 < Low(p, n + 1) <= d * f <= High(p, n + 1)
  {
    AdjustKeepsBand(Low(p, n), d, High(p, n), f, p.limit);
  }

  lemma {:induction false} DifficultyBand(p: Params, times: seq<int>)
    requires ValidParams(p)
    ensures 0.0 < Low(p, Rounds(p, |times|)) <= After(p, times).difficulty <= High(p, Rounds(p, |times|))
  {
    if times != [] {
      var before, last := times[..|times| - 1], times[|times| - 1];
      var a, n := After(p, before), Rounds(p, |before|);
      DifficultyBand(p, before);
      AdjusterTracks(p, before);
      assert After(p, times) == Adjusted(p, a, last);
      if Adjusts(p, |before|) {
        FactorBounds(p, last - a.timestamp);
        BandStep(p, a, last, Factor(p, last - a.timestamp), n);
        assert Rounds(p, |times|) == n + 1;
      } else {
        assert Rounds(p, |times|) == n;
      }
    }
  }

  /** Perfect timing keeps the difficulty at its initial value forever. */
  lemma {:induction false} PerfectTiming(p: Params, times: seq<int>)
    requires ValidParams(p)
    requires forall i :: 0 <= i < |times| ==> times[i] == times[0] + i * p.timeExpected
    ensures After(p, times).difficulty == p.init
  {
    if times != [] {
      var before := times[..|times| - 1];
      var c := |before|;
      PerfectTiming(p, before);
      AdjusterTracks(p, before);
      if Adjusts(p, c) {
        LastRoundDistance(p, c);
        var last := LastRound(p, c);
        assert times[c] - times[last] == c * p.timeExpected - last * p.timeExpected;
        PerfectFactor(p, c, last);
      }
    }
  }

  lemma MultipleBefore(c: nat, m: nat)
    requires 0 < c && 0 < m && c % m == 0
    ensures (c - 1) % m == m - 1
  {
    var q := c / m;
    assert c == m * q;
    assert q != 0;
    assert m * (q - 1) == m * q - m;
    QuotientUnique(c - 1, m, q - 1, m - 1);
  }

  lemma LastRoundDistance(p: Params, c: nat)
    requires ValidParams(p) && Adjusts(p, c)
    ensures LastRound(p, c) == c - p.adjustAfter
  {
    RoundsClosedForm(p, c);
    MultipleBefore(c, p.adjustAfter);
  }

  lemma PerfectFactor(p: Params, c: nat, last: nat)
    requires ValidParams(p) && c == last + p.adjustAfter
    ensures Factor(p, c * p.timeExpected - last * p.timeExpected) == 1.0
  {
    var t, m := p.timeExpected, p.adjustAfter;
    assert c * t - last * t == t * m;
    ProductAtLeast(m, t);
    assert (t * m) as real / (t * m) as real == 1.0;
    assert 1.0 / p.limit <= 1.0 by { DivideBound(1.0, 1.0, p.limit); }
  }

  /** Cumulative difficulty never decreases, whatever the timestamps. */
  lemma CumulativeMonotone(p: Params, a: Adjuster, timestamp: int)
    requires ValidParams(p) && 0.0 < a.difficulty
    ensures 0.0 < Adjusted(p, a, timestamp).difficulty
    ensures a.cumulative <= Adjusted(p, a, timestamp).cumulative
  {
    FactorBounds(p, timestamp - a.timestamp);
    PositiveProduct(a.difficulty, Factor(p, timestamp - a.timestamp));
  }

  lemma PositiveProduct(x: real, y: real)
    requires 0.0 < x && 0.0 < y
    ensures 0.0 < x * y
  {
  }

  // ---------- how an adjustment responds to the time that passed ----------

  /** The time that should pass between two adjustments. */
  function Expected(p: Params): int {
    p.timeExpected * p.adjustAfter
  }

  /** `d'` is what becomes of difficulty `d` when the time `e` has passed instead of `t`: inversely
      proportional, up to the limit in either direction. No time at all counts as the limit upwards,
      time that runs backwards as the limit downwards. */
  predicate Responds(limit: real, t: int, e: int, d: real, d': real) {
    if e < 0 then d' * limit == d
    else if limit * e as real <= t as real then d' == d * limit
    else if limit * t as real <= e as real then d' * limit == d
    else d' * e as real == d * t as real
  }

  /** Every call, exactly. */
  lemma AdjustsExactly(p: Params, a: Adjuster, timestamp: int)
    requires ValidParams(p)
    ensures var d' := Adjusted(p, a, timestamp).difficulty;
            if Adjusts(p, a.counter)
            then Responds(p.limit, Expected(p), timestamp - a.timestamp, a.difficulty, d')
            else d' == a.difficulty
  {
    hide Factor, Responds, Expected, AdjustedBy;
    if Adjusts(p, a.counter) {
      var e := timestamp - a.timestamp;
      FactorResponds(p, e);
      AdjustedProduct(p, a, timestamp, Factor(p, e));
      Scaled(p.limit, Expected(p), e, a.difficulty, Factor(p, e), Adjusted(p, a, timestamp).difficulty);
    } else {
      Unadjusted(p, a, timestamp, Factor(p, timestamp - a.timestamp));
    }
  }

  lemma Associate(a: real, b: real, c: real)
    ensures a * b * c == a * (b * c)
  {
  }

  lemma Scaled(limit: real, t: int, e: int, d: real, f: real, d': real)
    requires Responds(limit, t, e, 1.0, f) && d' == d * f
    ensures Responds(limit, t, e, d, d')
  {
    ScaledReal(limit, t as real, e as real, d, f);
  }

  lemma ScaledReal(limit: real, t: real, e: real, d: real, f: real)
    ensures f * limit == 1.0 ==> d * f * limit == d
    ensures f * e == t ==> d * f * e == d * t
  {
    Associate(d, f, limit);
    Associate(d, f, e);
  }

  lemma FactorResponds(p: Params, e: int)
    requires ValidParams(p)
    ensures Responds(p.limit, Expected(p), e, 1.0, Factor(p, e))
  {
    hide Responds, Clamp, Factor, Expected;
    FactorAtZero(p);
    if e == 0 {
      RespondsAtZero(p.limit, Expected(p));
    } else {
      var i, q := FactorIsClamped(p, e);
      ClampResponds(p.limit, Expected(p), e, q, i);
    }
  }

  lemma RespondsAtZero(limit: real, t: int)
    requires 1.0 <= limit && 0 < t
    ensures Responds(limit, t, 0, 1.0, limit)
  {
  }

  function Clamp(low: real, high: real, x: real): real {
    if x < low then low else if x > high then high else x
  }

  lemma Quotient(t: real, e: real)
    requires e != 0.0
    ensures t / e * e == t
  {
  }

  /** The factor as the quotient `q` of the two times, clamped between `i` and the limit. */
  lemma FactorIsClamped(p: Params, e: int) returns (i: real, q: real)
    requires ValidParams(p) && e != 0
    ensures i * p.limit == 1.0 && q * e as real == Expected(p) as real == Product(q, e as real)
    ensures Factor(p, e) == Clamp(i, p.limit, q)
  {
    i, q := 1.0 / p.limit, Expected(p) as real / e as real;
    Quotient(1.0, p.limit);
    Quotient(Expected(p) as real, e as real);
  }

  lemma FactorAtZero(p: Params)
    requires ValidParams(p)
    ensures Factor(p, 0) == p.limit && 0 < Expected(p)
  {
    ProductAtLeast(p.adjustAfter, p.timeExpected);
  }

  /** Comparing after multiplying by a positive number. */
  lemma Cancel(k: real, x: real, y: real)
    requires 0.0 < k
    ensures x <= y <==> k * x <= k * y
  {
    if x <= y { ScaleUp(k, x, y); } else { ScaleUpStrict(k, y, x); }
  }

  lemma ClampResponds(limit: real, t: int, e: int, q: real, i: real)
    requires 1.0 <= limit && 0 < t && e != 0 && q * e as real == t as real && i * limit == 1.0
    ensures Responds(limit, t, e, 1.0, Clamp(i, limit, q))
  {
    InversePositive(limit, i);
    if e < 0 {
      NegativeQuotient(t as real, e as real, q);
    } else {
      PositiveClamp(limit, t as real, e as real, q, i);
    }
  }

  lemma InversePositive(limit: real, i: real)
    requires 1.0 <= limit && i * limit == 1.0
    ensures 0.0 < i <= 1.0
  {
    if i <= 0.0 { ScaleUp(limit, i, 0.0); }
    if 1.0 < i { ScaleUpStrict(limit, 1.0, i); }
  }

  lemma NegativeQuotient(t: real, e: real, q: real)
    requires 0.0 < t && e < 0.0 && q * e == t
    ensures q < 0.0
  {
    if q >= 0.0 { ScaleUp(q, e, 0.0); }
  }

  lemma PositiveClamp(limit: real, t: real, e: real, q: real, i: real)
    requires 1.0 <= limit && 0.0 < e && q * e == t && i * limit == 1.0
    ensures limit <= q <==> limit * e <= t
    ensures q <= i <==> limit * t <= e
  {
    Cancel(e, limit, q);
    Cancel(limit, q, i);
    Cancel(e, limit * q, 1.0);
    Associate(limit, q, e);
  }

  /** Blocks that come faster than expected never lower the difficulty, slower ones never raise it, and
      the later the block the lower the difficulty. */
  lemma AdjustsInDirection(p: Params, a: Adjuster, early: int, late: int)
    requires ValidParams(p) && 0.0 < a.difficulty && a.timestamp <= early <= late
    ensures early - a.timestamp <= Expected(p) ==> a.difficulty <= Adjusted(p, a, early).difficulty
    ensures early - a.timestamp >= Expected(p) ==> Adjusted(p, a, early).difficulty <= a.difficulty
    ensures Adjusted(p, a, late).difficulty <= Adjusted(p, a, early).difficulty
  {
    hide Factor, Expected, AdjustedBy;
    if Adjusts(p, a.counter) {
      var f, g := Factor(p, early - a.timestamp), Factor(p, late - a.timestamp);
      FactorOrder(p, early - a.timestamp, late - a.timestamp);
      AdjustedProduct(p, a, early, f);
      AdjustedProduct(p, a, late, g);
      ProductOrder(a.difficulty, f, g, Adjusted(p, a, early).difficulty, Adjusted(p, a, late).difficulty);
    } else {
      Unadjusted(p, a, early, Factor(p, early - a.timestamp));
      Unadjusted(p, a, late, Factor(p, late - a.timestamp));
    }
  }

  lemma AdjustedProduct(p: Params, a: Adjuster, timestamp: int, f: real)
    requires ValidParams(p) && Adjusts(p, a.counter)
    ensures AdjustedBy(p, a, timestamp, f).difficulty == a.difficulty * f
  {
  }

  lemma Unadjusted(p: Params, a: Adjuster, timestamp: int, f: real)
    requires ValidParams(p) && !Adjusts(p, a.counter)
    ensures AdjustedBy(p, a, timestamp, f).difficulty == a.difficulty
  {
  }

  lemma ProductOrder(d: real, f: real, g: real, x: real, y: real)
    requires 0.0 < d && g <= f && x == d * f && y == d * g
    ensures y <= x && (1.0 <= f ==> d <= x) && (f <= 1.0 ==> x <= d)
  {
    ScaleUp(d, g, f);
    if 1.0 <= f { ScaleUp(d, 1.0, f); }
    if f <= 1.0 { ScaleUp(d, f, 1.0); }
  }

  function Product(a: real, b: real): real {
    a * b
  }

  lemma ProductFacts(k: real, x: real, y: real)
    ensures Product(k, x) == Product(x, k) && Product(k, 1.0) == k
    ensures 0.0 < k ==> (x <= y <==> Product(k, x) <= Product(k, y))
    ensures Product(k, 0.0) == 0.0
  {
    if 0.0 < k { Cancel(k, x, y); }
  }

  lemma QuotientSide(t: real, e: real, q: real)
    requires 0.0 < t && 0.0 < e && Product(q, e) == t
    ensures 0.0 < q && (e <= t <==> 1.0 <= q) && (t <= e <==> q <= 1.0)
  {
    hide Product;
    ProductFacts(e, q, 0.0);
    ProductFacts(e, q, 1.0);
    ProductFacts(e, 1.0, q);
  }

  lemma QuotientMonotone(t: real, e: real, l: real, q: real, r: real)
    requires 0.0 < t && 0.0 < e <= l && Product(q, e) == t == Product(r, l)
    ensures r <= q
  {
    hide Product;
    QuotientSide(t, e, q);
    ProductFacts(q, e, l);
    ProductFacts(l, r, q);
    ProductFacts(l, q, r);
  }

  lemma ClampOrder(low: real, high: real, x: real, y: real)
    requires low <= 1.0 <= high && x <= y
    ensures Clamp(low, high, x) <= Clamp(low, high, y) <= high
    ensures 1.0 <= y ==> 1.0 <= Clamp(low, high, y)
    ensures y <= 1.0 ==> Clamp(low, high, y) <= 1.0
  {
  }

  lemma FactorOrder(p: Params, e: int, l: int)
    requires ValidParams(p) && 0 <= e <= l
    ensures Factor(p, l) <= Factor(p, e)
    ensures e <= Expected(p) ==> 1.0 <= Factor(p, e)
    ensures e >= Expected(p) ==> Factor(p, e) <= 1.0
  {
    hide Factor, Expected, Clamp, Product;
    FactorAtZero(p);
    if l > 0 {
      var j, r := FactorIsClamped(p, l);
      InversePositive(p.limit, j);
      ClampOrder(j, p.limit, r, r);
      if e > 0 {
        var i, q := FactorIsClamped(p, e);
        SameInverse(p.limit, i, j);
        QuotientSide(Expected(p) as real, e as real, q);
        QuotientMonotone(Expected(p) as real, e as real, l as real, q, r);
        ClampOrder(i, p.limit, r, q);
      }
    }
  }

  lemma SameInverse(limit: real, i: real, j: real)
    requires 1.0 <= limit && i * limit == 1.0 == j * limit
    ensures i == j
  {
    Cancel(limit, i, j);
    Cancel(limit, j, i);
  }

  /** In a run, call number `c` looks back to the call `adjustAfter` before it, and adds the difficulty it
      sets to the cumulative one. */
  lemma AfterAdjusts(p: Params, times: seq<int>)
    requires ValidParams(p) && times != [] && Adjusts(p, |times| - 1)
    ensures var c := |times| - 1;
            var before := After(p, times[..c]);
            && c >= p.adjustAfter && before.counter == c && before.timestamp == times[c - p.adjustAfter]
            && After(p, times) == Adjusted(p, before, times[c])
            && After(p, times).cumulative == before.cumulative + After(p, times).difficulty
  {
    var c := |times| - 1;
    AdjusterTracks(p, times[..c]);
    LastRoundDistance(p, c);
  }

  // ---------- the miner's target and the receiver's test ----------

  /** The number of leading zero bits the miner asks for: log2 of the difficulty, truncated. */
  function TargetZeros(d: real): nat
    requires 1.0 <= d
    decreases d.Floor
  {
    if d < 2.0 then 0 else 1 + TargetZeros(d / 2.0)
  }

  predicate MinerAccepts(zeros: nat, d: real)
    requires 1.0 <= d
  {
    zeros >= TargetZeros(d)
  }

  /** The receiver compares 2^zeros with the difficulty itself. */
  predicate ReceiverAccepts(zeros: nat, d: real) {
    !(Pow2(zeros) as real < d)
  }

  lemma {:induction false} TargetBrackets(d: real)
    requires 1.0 <= d
    ensures Pow2(TargetZeros(d)) as real <= d < Pow2(TargetZeros(d) + 1) as real
    decreases d.Floor
  {
    if d >= 2.0 {
      TargetBrackets(d / 2.0);
    }
  }

  lemma Pow2Order(a: nat, b: nat)
    ensures a <= b <==> Pow2(a) as real <= Pow2(b) as real
  {
    if a <= b { Pow2Monotone(a, b); } else { Pow2Monotone(b, a); }
  }

  /** A block the receiver accepts meets the miner's target; a block meeting the target has
      2^(zeros + 1) > d, so it can miss the receiver's test by less than one bit. */
  lemma MinerReceiverGap(zeros: nat, d: real)
    requires 1.0 <= d
    ensures ReceiverAccepts(zeros, d) ==> MinerAccepts(zeros, d)
    ensures MinerAccepts(zeros, d) <==> Pow2(zeros + 1) as real > d
  {
    TargetBrackets(d);
    Pow2Order(TargetZeros(d) + 1, zeros + 1);
    Pow2Order(zeros + 1, TargetZeros(d));
  }

  /** The two tests agree on every digest exactly when the difficulty is a power of two. */
  lemma MinerReceiverAgree(d: real)
    requires 1.0 <= d
    ensures (forall zeros: nat :: MinerAccepts(zeros, d) <==> ReceiverAccepts(zeros, d))
       <==> exists k: nat :: d == Pow2(k) as real
  {
    TargetBrackets(d);
    var k := TargetZeros(d);
    if forall zeros: nat :: MinerAccepts(zeros, d) <==> ReceiverAccepts(zeros, d) {
      assert MinerAccepts(k, d) && ReceiverAccepts(k, d);
      assert d == Pow2(k) as real;
    }
    if j: nat :| d == Pow2(j) as real {
      forall zeros: nat
        ensures MinerAccepts(zeros, d) <==> ReceiverAccepts(zeros, d)
      {
        MinerReceiverGap(zeros, d);
        Pow2Order(j, zeros);
        Pow2Order(zeros + 1, j);
      }
    }
  }

  /** The failing input: at difficulty 3 one leading zero bit satisfies the miner and not the
      receiver. */
  lemma MinerReceiverDisagree()
    ensures MinerAccepts(1, 3.0) && !ReceiverAccepts(1, 3.0)
  {
    assert TargetZeros(3.0) == 1 + TargetZeros(1.5);
    assert Pow2(1) == 2 * Pow2(0) == 2;
  }
}
