/** Digests as byte vectors: their leading zero bits and their hexadecimal text
    (include/crypto/digest.h). */
module Digests {
  import opened Options

  type Byte = n: int | 0 <= n < 256
  type Digest = seq<Byte>

  function Pow2(k: nat): nat {
    if k == 0 then 1 else 2 * Pow2(k - 1)
  }

  lemma {:induction false} Pow2Monotone(a: nat, b: nat)
    requires a <= b
    ensures 1 <= Pow2(a) <= Pow2(b)
    ensures a < b ==> 2 * Pow2(a) <= Pow2(b)
    decreases b
  {
    if a < b {
      Pow2Monotone(a, b - 1);
    } else if a > 0 {
      Pow2Monotone(a - 1, a - 1);
    }
  }

  lemma Pow2Byte(k: nat)
    ensures Pow2(k + 8) == 256 * Pow2(k)
  {
    assert Pow2(k + 1) == 2 * Pow2(k);
    assert Pow2(k + 2) == 2 * Pow2(k + 1) == 4 * Pow2(k);
    assert Pow2(k + 3) == 2 * Pow2(k + 2) == 8 * Pow2(k);
    assert Pow2(k + 4) == 2 * Pow2(k + 3) == 16 * Pow2(k);
    assert Pow2(k + 5) == 2 * Pow2(k + 4) == 32 * Pow2(k);
    assert Pow2(k + 6) == 2 * Pow2(k + 5) == 64 * Pow2(k);
    assert Pow2(k + 7) == 2 * Pow2(k + 6) == 128 * Pow2(k);
    assert Pow2(k + 8) == 2 * Pow2(k + 7) == 256 * Pow2(k);
  }

  lemma BytePowers()
    ensures Pow2(7) == 128 && Pow2(8) == 256
  {
    assert Pow2(2) == 4 && Pow2(3) == 8 && Pow2(4) == 16;
    assert Pow2(5) == 32 && Pow2(6) == 64;
  }

  // ---------- leading zero bits ----------

  /** Clear bits of `b`, counted from the bit selected by the power of two `mask` downwards.
      `(b / mask) % 2` is the bit that `byte & mask` selects. */
  function LeadingZeros(b: Byte, mask: nat): nat {
    if mask == 0 then 0
    else if (b / mask) % 2 == 0 then 1 + LeadingZeros(b, mask / 2)
    else 0
  }

  function ButLast(d: Digest): Digest
    requires d != []
  {
    d[..|d| - 1]
  }

  function ZeroPrefixLength(d: Digest): nat {
    if d == [] then 0
    else
      var before := ZeroPrefixLength(ButLast(d));
      if before == 8 * (|d| - 1) then before + LeadingZeros(d[|d| - 1], 128) else before
  }

  /** The digest read as one big-endian integer. */
  function BigEndian(d: Digest): nat {
    if d == [] then 0 else 256 * BigEndian(ButLast(d)) + d[|d| - 1]
  }

  /** The first `k` bits of the big-endian integer are zero. */
  predicate BelowTarget(d: Digest, k: nat)
    requires k <= 8 * |d|
  {
    BigEndian(d) < Pow2(8 * |d| - k)
  }

  lemma SmallQuotient(b: nat, m: nat)
    requires 0 < m && b < 2 * m
    ensures b / m == if b < m then 0 else 1
  {
  }

  lemma LeadingZerosStep(b: Byte, q: nat)
    requires b < Pow2(q + 1)
    ensures LeadingZeros(b, Pow2(q))
         == if b >= Pow2(q) then 0 else 1 + if q == 0 then 0 else LeadingZeros(b, Pow2(q - 1))
  {
    Pow2Monotone(0, q);
    SmallQuotient(b, Pow2(q));
  }

  lemma {:induction false} LeadingZerosBound(b: Byte, q: nat, j: nat)
    requires b < Pow2(q + 1) && j <= q + 1
    ensures j <= LeadingZeros(b, Pow2(q)) <==> b < Pow2(q + 1 - j)
    ensures LeadingZeros(b, Pow2(q)) <= q + 1
  {
    hide LeadingZeros;
    LeadingZerosStep(b, q);
    Pow2Monotone(0, q);
    if j > 0 { Pow2Monotone(q + 1 - j, q); }
    if b < Pow2(q) && q > 0 {
      LeadingZerosBound(b, q - 1, if j > 0 then j - 1 else 0);
    }
  }

  lemma ByteBound(b: Byte, j: nat)
    requires j <= 8
    ensures j <= LeadingZeros(b, 128) <==> b < Pow2(8 - j)
    ensures LeadingZeros(b, 128) <= 8
  {
    BytePowers();
    LeadingZerosBound(b, 7, j);
  }

  /** Main result on digest bits: at least `k` leading zero bits means exactly that the
      digest, read as a big-endian integer, is below 2^(8*length - k). */
  lemma {:induction false} ZeroPrefixIsMagnitude(d: Digest, k: nat)
    requires k <= 8 * |d|
    ensures k <= ZeroPrefixLength(d) <==> BelowTarget(d, k)
    ensures ZeroPrefixLength(d) <= 8 * |d|
  {
    if d != [] {
      var n := 8 * (|d| - 1);
      var before, last := ButLast(d), d[|d| - 1];
      ZeroPrefixIsMagnitude(before, n);
      ByteBound(last, if k > n then k - n else 0);
      if k <= n {
        ZeroPrefixIsMagnitude(before, k);
        Pow2Byte(n - k);
      } else {
        BytePowers();
        Pow2Monotone(8 * |d| - k, 8);
      }
    }
  }

  lemma {:induction false} ZeroPrefixStops(d: Digest, i: nat)
    requires i <= |d| && ZeroPrefixLength(d[..i]) < 8 * i
    ensures ZeroPrefixLength(d) == ZeroPrefixLength(d[..i])
    decreases |d|
  {
    if i == |d| {
      assert d[..i] == d;
    } else {
      assert ButLast(d)[..i] == d[..i];
      ZeroPrefixIsMagnitude(d[..i], 0);
      ZeroPrefixStops(ButLast(d), i);
      if |d| - 1 > i { ZeroPrefixIsMagnitude(d[..i], 8 * i); }
    }
  }

  method CountZeroPrefix(d: Digest) returns (count: nat)
    ensures count == ZeroPrefixLength(d) <= 8 * |d|
    ensures forall k: nat :: k <= 8 * |d| ==> (k <= count <==> BelowTarget(d, k))
  {
    forall k: nat | k <= 8 * |d|
      ensures k <= ZeroPrefixLength(d) <==> BelowTarget(d, k)
    {
      ZeroPrefixIsMagnitude(d, k);
    }
    ZeroPrefixIsMagnitude(d, 0);
    count := 0;
    for i := 0 to |d|
      invariant count == 8 * i == ZeroPrefixLength(d[..i])
    {
      assert ButLast(d[..i + 1]) == d[..i];
      var mask := 128;
      var seen := 0;
      while mask != 0
        invariant seen + LeadingZeros(d[i], mask) == LeadingZeros(d[i], 128)
        invariant count == 8 * i + seen
        invariant seen <= 8 && mask == [128, 64, 32, 16, 8, 4, 2, 1, 0][seen]
      {
        if (d[i] / mask) % 2 == 0 {
          count, seen := count + 1, seen + 1;
        } else {
          ZeroPrefixStops(d, i + 1);
          return;
        }
        mask := mask / 2;
      }
    }
    assert d[..|d|] == d;
  }

  // ---------- hexadecimal text ----------

  function HexDigit(n: int): (c: char)
    requires 0 <= n < 16
  {
    "0123456789abcdef"[n]
  }

  function ToString(d: Digest): (s: string)
    ensures |s| == 2 * |d|
  {
    if d == [] then "" else [HexDigit(d[0] / 16), HexDigit(d[0] % 16)] + ToString(d[1..])
  }

  function Nibble(c: char): Option<int> {
    if '0' <= c <= '9' then Some(c as int - '0' as int)
    else if 'a' <= c <= 'f' then Some(c as int - 'a' as int + 10)
    else if 'A' <= c <= 'F' then Some(c as int - 'A' as int + 10)
    else None
  }

  /** The parsed digest, or None where the parser throws.  A last unpaired character is
      not looked at. */
  function FromString(s: string): Option<Digest> {
    if |s| < 2 then Some([])
    else
      var hi, lo := Nibble(s[0]), Nibble(s[1]);
      var rest := FromString(s[2..]);
      if hi.Some? && lo.Some? && rest.Some? then Some([16 * hi.value + lo.value] + rest.value) else None
  }

  function LowerChar(c: char): char {
    if 'A' <= c <= 'F' then c - 'A' + 'a' else c
  }

  function LowerCase(s: string): string {
    seq(|s|, i requires 0 <= i < |s| => LowerChar(s[i]))
  }

  predicate IsHex(s: string) {
    |s| % 2 == 0 && forall i :: 0 <= i < |s| ==> Nibble(s[i]).Some?
  }

  lemma HexDigitNibble(n: int)
    requires 0 <= n < 16
    ensures Nibble(HexDigit(n)) == Some(n)
  {
  }

  /** Printing then parsing gives the digest back. */
  lemma {:induction false} PrintParse(d: Digest)
    ensures FromString(ToString(d)) == Some(d)
  {
    hide Nibble, HexDigit;
    if d != [] {
      PrintParse(d[1..]);
      HexDigitNibble(d[0] / 16);
      HexDigitNibble(d[0] % 16);
      assert ToString(d)[2..] == ToString(d[1..]);
      assert [d[0]] + d[1..] == d;
    }
  }

  lemma PrintInjective(d: Digest, e: Digest)
    requires ToString(d) == ToString(e)
    ensures d == e
  {
    PrintParse(d);
    PrintParse(e);
  }

  lemma NibbleHexDigit(c: char)
    requires Nibble(c).Some?
    ensures 0 <= Nibble(c).value < 16
    ensures HexDigit(Nibble(c).value) == LowerChar(c)
  {
  }

  lemma PairRoundTrip(hi: char, lo: char)
    requires Nibble(hi).Some? && Nibble(lo).Some?
    ensures 0 <= 16 * Nibble(hi).value + Nibble(lo).value < 256
    ensures ToString([16 * Nibble(hi).value + Nibble(lo).value]) == [LowerChar(hi), LowerChar(lo)]
  {
    hide Nibble, HexDigit, LowerChar;
    NibbleHexDigit(hi);
    NibbleHexDigit(lo);
    var b: Byte := 16 * Nibble(hi).value + Nibble(lo).value;
    assert b / 16 == Nibble(hi).value && b % 16 == Nibble(lo).value;
    assert [b][1..] == [];
    assert ToString([b]) == [HexDigit(b / 16), HexDigit(b % 16)] + ToString([b][1..]);
  }

  lemma PrintCons(d: Digest)
    requires d != []
    ensures ToString(d) == ToString([d[0]]) + ToString(d[1..])
  {
    assert [d[0]][1..] == [];
  }

  /** The value of a text in base 16, most significant character first. */
  function HexNumber(s: string): int {
    if s == "" then 0
    else
      var c := s[|s| - 1];
      16 * HexNumber(s[..|s| - 1]) + (if c <= '9' then c as int - '0' as int else c as int - 'a' as int + 10)
  }

  lemma HexPair(b: Byte)
    ensures HexNumber(ToString([b])) == b
  {
    var s := ToString([b]);
    assert [b][1..] == [] && s == [HexDigit(b / 16), HexDigit(b % 16)] + ToString([b][1..]);
    assert s[..1] == [s[0]] && s[..1][..0] == "";
    assert HexNumber(s[..1]) == b / 16;
  }

  lemma {:induction false} PrintSnoc(d: Digest)
    requires d != []
    ensures ToString(d) == ToString(ButLast(d)) + ToString([d[|d| - 1]])
  {
    if |d| > 1 {
      PrintCons(d);
      PrintSnoc(d[1..]);
      PrintCons(ButLast(d));
      assert ButLast(d)[1..] == ButLast(d[1..]);
    } else {
      assert ButLast(d) == [] && d == [d[0]];
    }
  }

  lemma HexNumberSnoc(s: string, c: char)
    ensures HexNumber(s + [c]) ==
            16 * HexNumber(s) + (if c <= '9' then c as int - '0' as int else c as int - 'a' as int + 10)
  {
    assert (s + [c])[..|s + [c]| - 1] == s;
  }

  lemma HexNumberPair(s: string, p: string)
    requires |p| == 2
    ensures HexNumber(s + p) == 256 * HexNumber(s) + HexNumber(p)
  {
    HexNumberSnoc(s, p[0]);
    HexNumberSnoc(s + [p[0]], p[1]);
    HexNumberSnoc("", p[0]);
    HexNumberSnoc([p[0]], p[1]);
    assert s + p == s + [p[0]] + [p[1]] && p == [p[0]] + [p[1]] && "" + [p[0]] == [p[0]];
  }

  /** The printed digest is its big-endian value in hexadecimal. */
  lemma {:induction false} PrintIsNumber(d: Digest)
    ensures HexNumber(ToString(d)) == BigEndian(d)
  {
    hide HexNumber, HexDigit;
    if d == [] {
      EmptyNumber();
    } else {
      PrintIsNumber(ButLast(d));
      PrintSnoc(d);
      HexPair(d[|d| - 1]);
      HexNumberPair(ToString(ButLast(d)), ToString([d[|d| - 1]]));
    }
  }

  lemma EmptyNumber()
    ensures HexNumber("") == 0
  {
  }

  /** Parsing then printing an even-length hexadecimal string, in either case, gives its
      lower-case form. */
  lemma {:induction false} ParsePrint(s: string)
    requires IsHex(s)
    ensures FromString(s).Some?
    ensures ToString(FromString(s).value) == LowerCase(s)
  {
    if s != "" {
      var rest := s[2..];
      assert IsHex(rest);
      ParsePrint(rest);
      PairRoundTrip(s[0], s[1]);
      var b: Byte := 16 * Nibble(s[0]).value + Nibble(s[1]).value;
      var tail := FromString(rest).value;
      calc {
        ToString(FromString(s).value);
        { assert FromString(s).value == [b] + tail; }
        ToString([b] + tail);
        { PrintCons([b] + tail); assert ([b] + tail)[1..] == tail; }
        ToString([b]) + ToString(tail);
        [LowerChar(s[0]), LowerChar(s[1])] + LowerCase(rest);
        LowerCase(s);
      }
    }
  }

  /** Parsing fails exactly when a character of a complete pair is not a hexadecimal digit. */
  lemma {:induction false} ParseFailsExactly(s: string)
    ensures FromString(s).None? <==> exists i :: 0 <= i < 2 * (|s| / 2) && Nibble(s[i]).None?
  {
    if |s| >= 2 {
      ParseFailsExactly(s[2..]);
      if i :| 0 <= i < 2 * (|s[2..]| / 2) && Nibble(s[2..][i]).None? {
        assert Nibble(s[i + 2]).None?;
      }
      if FromString(s).None? {
      } else if i :| 0 <= i < 2 * (|s| / 2) && Nibble(s[i]).None? {
        assert Nibble(s[2..][i - 2]).None?;
      }
    }
  }

  method Print(d: Digest) returns (ss: string)
    ensures ss == ToString(d)
  {
    ss := "";
    for i := 0 to |d|
      invariant ss + ToString(d[i..]) == ToString(d)
    {
      assert d[i..][1..] == d[i + 1..];
      ss := ss + [HexDigit(d[i] / 16), HexDigit(d[i] % 16)];
    }
  }

  method Parse(str: string) returns (r: Option<Digest>)
    ensures r == FromString(str)
  {
    var vec: Digest := [];
    assert str[0..] == str && (FromString(str).Some? ==> [] + FromString(str).value == FromString(str).value);
    for i := 0 to |str| / 2
      invariant FromString(str) == Prepend(vec, FromString(str[2 * i..]))
    {
      var rest := str[2 * i..];
      var hi, lo := Nibble(rest[0]), Nibble(rest[1]);
      if hi.None? || lo.None? {
        return None;
      }
      PrependTwice(vec, [16 * hi.value + lo.value], FromString(rest[2..]));
      assert rest[2..] == str[2 * (i + 1)..];
      vec := vec + [16 * hi.value + lo.value];
    }
    assert vec + [] == vec;
    return Some(vec);
  }

  function Prepend(vec: Digest, rest: Option<Digest>): Option<Digest> {
    match rest
    case None => None
    case Some(d) => Some(vec + d)
  }

  lemma PrependTwice(vec: Digest, more: Digest, rest: Option<Digest>)
    ensures Prepend(vec + more, rest) == Prepend(vec, Prepend(more, rest))
  {
    if rest.Some? {
      assert vec + more + rest.value == vec + (more + rest.value);
    }
  }
}
