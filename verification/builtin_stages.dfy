/** The built-in stages, each rewriting one block in place. */
module BuiltinStages {
  import opened Base

  // ----- byte increment -----

  function Incremented(s: seq<byte>): (r: seq<byte>)
    ensures |r| == |s|
  {
    seq(|s|, i requires 0 <= i < |s| => ((s[i] as int + 1) % 256) as byte)
  }

  method IncrementInPlace(block: array<byte>)
    modifies block
    ensures block[..] == Incremented(old(block[..]))
  {
    for i := 0 to block.Length
      invariant block[..i] == Incremented(old(block[..]))[..i]
      invariant block[i..] == old(block[i..])
    {
      var numeric := block[i];
      assert numeric == old(block[..])[i];
      block[i] := (numeric as int + 1) % 256;
      assert block[i + 1..] == old(block[i..])[1..];
    }
    assert block[..block.Length] == block[..];
  }

  /** Each byte grows by one, and the largest one becomes zero. */
  lemma IncrementsEachByte(s: seq<byte>, i: nat)
    requires i < |s|
    ensures s[i] < 255 ==> Incremented(s)[i] as int == s[i] as int + 1
    ensures s[i] == 255 ==> Incremented(s)[i] == 0
  {
    var r := Incremented(s)[i];
  }

  /** The stage loses nothing: equal outputs come from equal blocks. */
  lemma IncrementIsInjective(s: seq<byte>, t: seq<byte>)
    requires Incremented(s) == Incremented(t)
    ensures s == t
  {
    assert |s| == |Incremented(s)| == |t|;
    forall i | 0 <= i < |s| ensures s[i] == t[i] {
      assert Incremented(s)[i] == Incremented(t)[i];
    }
  }

  // ----- normalization -----

  predicate IsMinimum(s: seq<byte>, m: byte) {
    m in s && forall i :: 0 <= i < |s| ==> m <= s[i]
  }

  predicate IsMaximum(s: seq<byte>, m: byte) {
    m in s && forall i :: 0 <= i < |s| ==> s[i] <= m
  }

  /** Where `v` lies between the extremes, as a byte. */
  function Scaled(v: byte, lo: byte, hi: byte): (r: byte)
    requires lo <= v <= hi && lo < hi
  {
    ScaledIsByte(v - lo, hi - lo);
    ((v - lo) * 255) / (hi - lo)
  }

  lemma ScaledIsByte(d: nat, range: nat)
    requires d <= range && range > 0
    ensures 0 <= (d * 255) / range <= 255
  {
    assert d * 255 <= 255 * range;
    DivAtMost(d * 255, 255, range);
  }

  lemma DivAtMost(a: nat, q: nat, b: nat)
    requires b > 0 && a <= q * b
    ensures 0 <= a / b <= q
  {
  }

  lemma DivBelow(a: nat, q: nat, b: nat)
    requires b > 0 && a < q * b
    ensures a / b < q
  {
  }

  lemma MulCancels(q: nat, n: nat, b: nat)
    requires q * b < n * b
    ensures q < n
  {
  }

  lemma DivAtLeast(a: nat, q: nat, b: nat)
    requires b > 0 && q * b <= a
    ensures a / b >= q
  {
    assert a < (a / b + 1) * b;
    MulCancels(q, a / b + 1, b);
  }

  lemma DivMonotone(a: nat, b: nat, d: nat)
    requires d > 0 && a <= b
    ensures a / d <= b / d
  {
    assert b < (b / d + 1) * d;
    DivBelow(a, b / d + 1, d);
  }

  /** `out` is the normalization of `s`: empty stays empty, a constant block becomes zeros, and in
      any other block every byte is scaled between the two extremes. */
  predicate Normalizes(s: seq<byte>, out: seq<byte>) {
    && |out| == |s|
    && (s != [] ==> exists lo: byte, hi: byte :: IsMinimum(s, lo) && IsMaximum(s, hi) && ScaledBy(s, out, lo, hi))
  }

  predicate ScaledBy(s: seq<byte>, out: seq<byte>, lo: byte, hi: byte)
    requires |out| == |s| && IsMinimum(s, lo) && IsMaximum(s, hi)
  {
    forall i :: 0 <= i < |s| ==> out[i] == if lo == hi then 0 else Scaled(s[i], lo, hi)
  }

  method Extremes(block: array<byte>) returns (minimum: byte, maximum: byte)
    requires block.Length > 0
    ensures IsMinimum(block[..], minimum) && IsMaximum(block[..], maximum)
  {
    minimum := block[0];
    maximum := minimum;
    for i := 0 to block.Length
      invariant minimum in block[..] && maximum in block[..]
      invariant forall j :: 0 <= j < i ==> minimum <= block[j] <= maximum
      invariant minimum <= block[0] <= maximum
    {
      var numeric := block[i];
      assert numeric in block[..];
      if numeric < minimum {
        minimum := numeric;
      }
      if numeric > maximum {
        maximum := numeric;
      }
    }
  }

  method NormalizeInPlace(block: array<byte>)
    modifies block
    ensures Normalizes(old(block[..]), block[..])
  {
    if block.Length == 0 {
      return;
    }
    var minimum, maximum := Extremes(block);
    ghost var was := block[..];
    if minimum == maximum {
      for i := 0 to block.Length
        invariant forall j :: 0 <= j < i ==> block[j] == 0
      {
        block[i] := 0;
      }
      assert ScaledBy(was, block[..], minimum, maximum);
      return;
    }
    for i := 0 to block.Length
      invariant forall j :: 0 <= j < i ==> block[j] == Scaled(was[j], minimum, maximum)
      invariant forall j :: i <= j < block.Length ==> block[j] == was[j]
    {
      block[i] := Scaled(block[i], minimum, maximum);
    }
    assert ScaledBy(was, block[..], minimum, maximum);
  }

  lemma ExtremesAreUnique(s: seq<byte>, a: byte, b: byte)
    ensures IsMinimum(s, a) && IsMinimum(s, b) ==> a == b
    ensures IsMaximum(s, a) && IsMaximum(s, b) ==> a == b
  {
  }

  /** The property determines the output. */
  lemma NormalizationIsUnique(s: seq<byte>, a: seq<byte>, b: seq<byte>)
    requires Normalizes(s, a) && Normalizes(s, b)
    ensures a == b
  {
    hide Scaled;
    if s != [] {
      var lo: byte, hi: byte :| IsMinimum(s, lo) && IsMaximum(s, hi) && ScaledBy(s, a, lo, hi);
      var lo2: byte, hi2: byte :| IsMinimum(s, lo2) && IsMaximum(s, hi2) && ScaledBy(s, b, lo2, hi2);
      ExtremesAreUnique(s, lo, lo2);
      ExtremesAreUnique(s, hi, hi2);
    }
  }

  /** Larger bytes stay at least as large. */
  lemma NormalizationKeepsOrder(s: seq<byte>, out: seq<byte>, i: nat, j: nat)
    requires Normalizes(s, out) && i < |s| && j < |s| && s[i] <= s[j]
    ensures out[i] <= out[j]
  {
    var lo: byte, hi: byte :| IsMinimum(s, lo) && IsMaximum(s, hi) && ScaledBy(s, out, lo, hi);
    if lo < hi {
      DivMonotone((s[i] - lo) * 255, (s[j] - lo) * 255, hi - lo);
    }
  }

  lemma ScaledRoundsDown(v: byte, lo: byte, hi: byte)
    requires lo <= v <= hi && lo < hi
    ensures Scaled(v, lo, hi) * (hi - lo) <= (v - lo) * 255 < (Scaled(v, lo, hi) + 1) * (hi - lo)
  {
    var a, d := (v - lo) * 255, hi - lo;
    assert a == (a / d) * d + a % d;
  }

  /** In a block that is not constant each byte becomes its distance from the smallest one, scaled to 255
      and rounded down. */
  lemma NormalizationRoundsDown(s: seq<byte>, out: seq<byte>, lo: byte, hi: byte, i: nat)
    requires Normalizes(s, out) && IsMinimum(s, lo) && IsMaximum(s, hi) && lo < hi && i < |s|
    ensures out[i] * (hi - lo) <= (s[i] - lo) * 255 < (out[i] + 1) * (hi - lo)
  {
    hide Scaled;
    var lo2: byte, hi2: byte :| IsMinimum(s, lo2) && IsMaximum(s, hi2) && ScaledBy(s, out, lo2, hi2);
    ExtremesAreUnique(s, lo, lo2);
    ExtremesAreUnique(s, hi, hi2);
    ScaledRoundsDown(s[i], lo, hi);
  }

  lemma ScaledExtremes(lo: byte, hi: byte)
    requires lo < hi
    ensures Scaled(lo, lo, hi) == 0 && Scaled(hi, lo, hi) == 255
  {
    DivAtLeast((hi - lo) * 255, 255, hi - lo);
  }

  lemma ScaledFullRange(v: byte)
    ensures Scaled(v, 0, 255) == v
  {
  }

  /** A block of at least two different bytes uses the whole range: both 0 and 255 occur. */
  lemma NormalizationFillsRange(s: seq<byte>, out: seq<byte>, i: nat, j: nat)
    requires Normalizes(s, out) && i < |s| && j < |s| && s[i] != s[j]
    ensures IsMinimum(out, 0) && IsMaximum(out, 255)
  {
    hide Scaled;
    var lo: byte, hi: byte :| IsMinimum(s, lo) && IsMaximum(s, hi) && ScaledBy(s, out, lo, hi);
    var a :| 0 <= a < |s| && s[a] == lo;
    var b :| 0 <= b < |s| && s[b] == hi;
    ScaledExtremes(lo, hi);
    assert out[a] == 0 && out[b] == 255;
  }

  /** Normalizing a second time changes nothing. */
  lemma NormalizationIsIdempotent(s: seq<byte>, out: seq<byte>)
    requires Normalizes(s, out)
    ensures Normalizes(out, out)
  {
    hide Scaled;
    if s != [] {
      var lo: byte, hi: byte :| IsMinimum(s, lo) && IsMaximum(s, hi) && ScaledBy(s, out, lo, hi);
      if lo == hi {
        assert out[0] == 0;
        assert IsMinimum(out, 0) && IsMaximum(out, 0) && ScaledBy(out, out, 0, 0);
      } else {
        var a :| 0 <= a < |s| && s[a] == lo;
        var b :| 0 <= b < |s| && s[b] == hi;
        NormalizationFillsRange(s, out, a, b);
        forall i | 0 <= i < |out| ensures Scaled(out[i], 0, 255) == out[i] {
          ScaledFullRange(out[i]);
        }
        assert ScaledBy(out, out, 0, 255);
      }
    }
  }

  // ----- checksum -----

  const FNV_OFFSET_BASIS: nat := 14695981039346656037
  const FNV_PRIME: nat := 1099511628211
  const TWO_64: nat := 0x1_0000_0000_0000_0000

  /** The lowest `width` bits of `a` replaced by their exclusive or with those of `b`. */
  function XorLow(a: nat, b: nat, width: nat): nat {
    if width == 0 then a
    else 2 * XorLow(a / 2, b / 2, width - 1) + if a % 2 != b % 2 then 1 else 0
  }

  /** Bit `i` of a number in binary. */
  function Bit(n: nat, i: nat): nat {
    if i == 0 then n % 2 else Bit(n / 2, i - 1)
  }

  /** `XorLow` is the exclusive or, bit by bit. */
  lemma {:induction false} XorLowBits(a: nat, b: nat, width: nat, i: nat)
    ensures Bit(XorLow(a, b, width), i) ==
      if i < width then (if Bit(a, i) == Bit(b, i) then 0 else 1) else Bit(a, i)
    decreases width
  {
    if width > 0 {
      assert XorLow(a, b, width) / 2 == XorLow(a / 2, b / 2, width - 1);
      if i > 0 {
        XorLowBits(a / 2, b / 2, width - 1, i - 1);
      }
    } else {
      BitIsBinary(a, i);
    }
  }

  lemma {:induction false} BitIsBinary(n: nat, i: nat)
    ensures 0 <= Bit(n, i) <= 1
  {
    if i > 0 {
      BitIsBinary(n / 2, i - 1);
    }
  }

  function Pow2(n: nat): nat {
    if n == 0 then 1 else 2 * Pow2(n - 1)
  }

  lemma {:induction false} XorLowIsInjective(a: nat, b: nat, c: nat, d: nat, width: nat)
    requires XorLow(a, b, width) == XorLow(c, d, width)
    ensures b == d ==> a == c
    ensures a == c && b < Pow2(width) && d < Pow2(width) ==> b == d
    decreases width
  {
    if width > 0 {
      XorLowIsInjective(a / 2, b / 2, c / 2, d / 2, width - 1);
    }
  }

  lemma {:induction false} XorLowBound(a: nat, b: nat, width: nat, k: nat)
    requires a < k * Pow2(width)
    ensures XorLow(a, b, width) < k * Pow2(width)
    decreases width
  {
    if width > 0 {
      assert k * Pow2(width) == 2 * (k * Pow2(width - 1));
      XorLowBound(a / 2, b / 2, width - 1, k);
    }
  }

  /** One round of the hash on a 64-bit word. */
  function Mix(word: nat, b: byte): (r: nat)
    ensures r < TWO_64
  {
    (XorLow(word, b, 8) * FNV_PRIME) % TWO_64
  }

  function Checksum(s: seq<byte>): (r: nat)
    ensures r < TWO_64
  {
    if s == [] then FNV_OFFSET_BASIS else Mix(Checksum(s[..|s| - 1]), s[|s| - 1])
  }

  lemma XorStep(a: nat, b: nat, width: nat, r: nat)
    requires width > 0 && r % 2 == if a % 2 != b % 2 then 1 else 0
    requires if width == 1 then a / 2 == r / 2 else XorLow(a / 2, b / 2, width - 1) == r / 2
    ensures XorLow(a, b, width) == r
  {
  }

  lemma MixesA()
    ensures Mix(0xcbf29ce484222325, 0x61) == 0xaf63dc4c8601ec8c
  {
    hide XorLow;
    XorStep(0x197e539c9084446, 0x0, 1, 0x197e539c9084446);
    XorStep(0x32fca739210888c, 0x1, 2, 0x32fca739210888d);
    XorStep(0x65f94e724211119, 0x3, 3, 0x65f94e72421111a);
    XorStep(0xcbf29ce48422232, 0x6, 4, 0xcbf29ce48422234);
    XorStep(0x197e539c90844464, 0xc, 5, 0x197e539c90844468);
    XorStep(0x32fca739210888c9, 0x18, 6, 0x32fca739210888d1);
    XorStep(0x65f94e7242111192, 0x30, 7, 0x65f94e72421111a2);
    XorStep(0xcbf29ce484222325, 0x61, 8, 0xcbf29ce484222344);
  }

  lemma MixesB()
    ensures Mix(0xaf63dc4c8601ec8c, 0x62) == 0x089c4407b545986a
  {
    hide XorLow;
    XorStep(0x15ec7b8990c03d9, 0x0, 1, 0x15ec7b8990c03d9);
    XorStep(0x2bd8f71321807b2, 0x1, 2, 0x2bd8f71321807b3);
    XorStep(0x57b1ee264300f64, 0x3, 3, 0x57b1ee264300f67);
    XorStep(0xaf63dc4c8601ec8, 0x6, 4, 0xaf63dc4c8601ece);
    XorStep(0x15ec7b8990c03d91, 0xc, 5, 0x15ec7b8990c03d9d);
    XorStep(0x2bd8f71321807b23, 0x18, 6, 0x2bd8f71321807b3b);
    XorStep(0x57b1ee264300f646, 0x31, 7, 0x57b1ee264300f677);
    XorStep(0xaf63dc4c8601ec8c, 0x62, 8, 0xaf63dc4c8601ecee);
  }

  /** Published values of 64-bit FNV-1a: of no bytes, of "a" and of "ab". */
  lemma PublishedChecksums()
    ensures Checksum([]) == 0xcbf29ce484222325
    ensures Checksum([0x61]) == 0xaf63dc4c8601ec8c
    ensures Checksum([0x61, 0x62]) == 0x089c4407b545986a
  {
    hide Mix;
    var a: seq<byte>, ab: seq<byte> := [0x61], [0x61, 0x62];
    assert a[..0] == [] && ab[..1] == a;
    MixesA();
    MixesB();
    ChecksumOfMore(a);
    ChecksumOfMore(ab);
  }

  lemma ChecksumOfMore(s: seq<byte>)
    requires s != []
    ensures Checksum(s) == Mix(Checksum(s[..|s| - 1]), s[|s| - 1])
  {
    hide Mix;
  }

  class ChecksumStage {
    var lastChecksum: nat

    constructor ()
      ensures lastChecksum == FNV_OFFSET_BASIS
    {
      lastChecksum := FNV_OFFSET_BASIS;
    }

    /** Keeps the checksum of this block alone; the block itself is not in the write frame. */
    method Process(block: array<byte>)
      modifies this
      ensures lastChecksum == Checksum(block[..])
    {
      var checksum := FNV_OFFSET_BASIS;
      for i := 0 to block.Length
        invariant checksum == Checksum(block[..i])
      {
        assert block[..i + 1][..i] == block[..i];
        checksum := (XorLow(checksum, block[i], 8) * FNV_PRIME) % TWO_64;
      }
      assert block[..block.Length] == block[..];
      lastChecksum := checksum;
    }
  }

  /** The inverse of the prime modulo 2^64. */
  const FNV_INVERSE: nat := 14886173955864302971
  const FNV_QUOTIENT: nat := 887285111055

  /** Multiplying by the odd prime loses nothing modulo 2^64. */
  lemma PrimeIsInvertible(x: nat, y: nat)
    requires x < TWO_64 && y < TWO_64 && (x * FNV_PRIME) % TWO_64 == (y * FNV_PRIME) % TWO_64
    ensures x == y
  {
    var p, q := (x * FNV_PRIME) / TWO_64, (y * FNV_PRIME) / TWO_64;
    assert (x - y) * FNV_PRIME == (p - q) * TWO_64;
    assert FNV_PRIME * FNV_INVERSE == 1 + FNV_QUOTIENT * TWO_64;
    var t := (p - q) * FNV_INVERSE - FNV_QUOTIENT * (x - y);
    assert x - y == t * TWO_64 by {
      assert (x - y) * FNV_PRIME * FNV_INVERSE == (p - q) * TWO_64 * FNV_INVERSE;
    }
  }

  lemma MixIsInjective(u: nat, a: byte, w: nat, b: byte)
    requires u < TWO_64 && w < TWO_64 && Mix(u, a) == Mix(w, b)
    ensures a == b ==> u == w
    ensures u == w ==> a == b
  {
    assert Pow2(8) == 256;
    XorLowBound(u, a, 8, 0x100_0000_0000_0000);
    XorLowBound(w, b, 8, 0x100_0000_0000_0000);
    PrimeIsInvertible(XorLow(u, a, 8), XorLow(w, b, 8));
    XorLowIsInjective(u, a, w, b, 8);
  }

  /** The checksum notices every change of a single byte. */
  lemma {:induction false} ChecksumSeesEveryByte(s: seq<byte>, t: seq<byte>, i: nat)
    requires |s| == |t| && i < |s| && s[i] != t[i]
    requires forall j :: 0 <= j < |s| && j != i ==> s[j] == t[j]
    ensures Checksum(s) != Checksum(t)
  {
    hide Mix;
    var n := |s| - 1;
    if i < n {
      ChecksumSeesEveryByte(s[..n], t[..n], i);
    } else {
      assert s[..n] == t[..n];
    }
    if Checksum(s) == Checksum(t) {
      MixIsInjective(Checksum(s[..n]), s[n], Checksum(t[..n]), t[n]);
    }
  }
}
