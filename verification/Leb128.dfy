/** LEB128 numbers, section 5.2.2 of the WebAssembly Core Specification: the
    accumulating decoder of the file manager against digit sums. */
module Leb128 {
  import opened Wasm

  function Pow2(n: nat): (r: nat)
    ensures r > 0
  {
    if n == 0 then 1 else 2 * Pow2(n - 1)
  }

  /** Weight of the `k`-th digit. */
  function Weight(k: nat): (r: nat)
    ensures r > 0
  {
    if k == 0 then 1 else 128 * Weight(k - 1)
  }

  predicate More(b: Byte) { b >= 0x80 }

  function Digit(b: Byte): (d: nat)
    ensures d < 128
  {
    b % 0x80
  }

  /** Little-endian digit sum of a run of bytes. */
  function Sum(s: seq<Byte>): nat {
    if s == [] then 0 else Digit(s[0]) + 128 * Sum(s[1..])
  }

  /** A run: continuation bit set on every byte but the last. */
  predicate IsRun(s: seq<Byte>) {
    s != [] && forall k :: 0 <= k < |s| ==> (More(s[k]) <==> k < |s| - 1)
  }

  lemma RunCons(b: Byte, s: seq<Byte>)
    requires More(b) && IsRun(s)
    ensures IsRun([b] + s)
  {
  }

  /** Length of the run at the front, if the bytes contain its end. */
  function RunLength(s: seq<Byte>): (n: Option<nat>)
    ensures n.Some? ==> 0 < n.value <= |s| && IsRun(s[..n.value])
    ensures n.None? ==> forall k :: 0 <= k < |s| ==> More(s[k])
  {
    if s == [] then None
    else if !More(s[0]) then assert s[..1] == [s[0]]; Some(1)
    else
      match RunLength(s[1..])
      case None => None
      case Some(n) =>
        RunCons(s[0], s[1..][..n]);
        assert s[..n + 1] == [s[0]] + s[1..][..n];
        Some(n + 1)
  }

  lemma {:induction false} RunLengthOfRun(s: seq<Byte>, t: seq<Byte>)
    requires IsRun(s)
    ensures RunLength(s + t) == Some(|s|)
  {
    if |s| > 1 {
      assert (s + t)[1..] == s[1..] + t;
      RunLengthOfRun(s[1..], t);
    }
  }

  lemma {:induction false} SumAppend(s: seq<Byte>, b: Byte)
    ensures Sum(s + [b]) == Sum(s) + Digit(b) * Weight(|s|)
  {
    if s == [] {
      assert [b][1..] == [] && s + [b] == [b];
    } else {
      assert (s + [b])[1..] == s[1..] + [b];
      SumAppend(s[1..], b);
      assert 128 * (Digit(b) * Weight(|s| - 1)) == Digit(b) * Weight(|s|);
    }
  }

  lemma {:induction false} SumBound(s: seq<Byte>)
    ensures Sum(s) < Weight(|s|)
  {
    if s != [] {
      SumBound(s[1..]);
    }
  }

  // ----- bitwise or -----

  /** Bitwise or of non-negative numbers. */
  function Or(a: nat, b: nat): nat
    decreases a + b
  {
    if a == 0 && b == 0 then 0
    else (if a % 2 == 1 || b % 2 == 1 then 1 else 0) + 2 * Or(a / 2, b / 2)
  }

  lemma {:induction false} OrZero(b: nat)
    ensures Or(0, b) == b
    decreases b
  {
    if b != 0 {
      OrZero(b / 2);
    }
  }

  /** Numbers without common bits are or-ed by adding them. */
  lemma {:induction false} OrDisjoint(a: nat, q: nat, k: nat)
    requires a < Pow2(k)
    ensures Or(a, q * Pow2(k)) == a + q * Pow2(k)
    decreases k
  {
    if k == 0 {
      OrZero(q * Pow2(0));
    } else {
      var b := q * Pow2(k);
      assert b == 2 * (q * Pow2(k - 1));
      OrDisjoint(a / 2, q, k - 1);
      assert b / 2 == q * Pow2(k - 1);
      if a == 0 && b == 0 {
      } else {
        assert Or(a, b) == a % 2 + 2 * Or(a / 2, b / 2);
      }
    }
  }

  lemma {:induction false} WeightIsPow2(k: nat)
    ensures Weight(k) == Pow2(7 * k)
  {
    if k > 0 {
      WeightIsPow2(k - 1);
      assert Pow2(7 * k) == 2 * Pow2(7 * k - 1) == 4 * Pow2(7 * k - 2) == 8 * Pow2(7 * k - 3);
      assert Pow2(7 * k - 3) == 2 * Pow2(7 * k - 4) == 4 * Pow2(7 * k - 5) == 8 * Pow2(7 * k - 6);
      assert Pow2(7 * k - 6) == 2 * Pow2(7 * k - 7);
    }
  }

  lemma {:induction false} PowSplit(a: nat, b: nat)
    ensures Pow2(a + b) == Pow2(a) * Pow2(b)
    decreases b
  {
    if b > 0 {
      PowSplit(a, b - 1);
      assert Pow2(a) * (2 * Pow2(b - 1)) == 2 * (Pow2(a) * Pow2(b - 1));
    }
  }

  lemma MulGrows(k: int, m: int)
    requires k >= 1 && m >= 0
    ensures k * m >= m
  {
  }

  lemma Distribute(x: int, y: int, m: int)
    ensures (x + y) * m == x * m + y * m && (x - y) * m == x * m - y * m
  {
  }

  lemma MulAssoc(x: int, y: int, m: int)
    ensures x * y * m == x * (y * m)
  {
  }

  lemma DivMod(x: int, m: int)
    requires m > 0
    ensures x == x / m * m + x % m && 0 <= x % m < m
  {
  }

  lemma ModUnique(x: int, q: int, r: int, m: int)
    requires m > 0 && x == q * m + r && 0 <= r < m
    ensures x % m == r
  {
    var q', r' := x / m, x % m;
    DivMod(x, m);
    Distribute(q, q', m);
    if q > q' {
      MulGrows(q - q', m);
    } else if q < q' {
      Distribute(q', q, m);
      MulGrows(q' - q, m);
    }
  }

  /** A multiple of `p` below `q` multiples stays one `p` below them. */
  lemma MulBelow(r: int, q: int, p: int)
    requires 0 <= r < q && p >= 0
    ensures 0 <= r * p && r * p + p <= q * p
  {
    Distribute(q, r, p);
    MulGrows(q - r, p);
  }

  /** A digit `d` above `p`, in a word of `q` multiples of `p`. */
  lemma SplitDigit(d: nat, q: nat, p: nat)
    requires q > 0
    ensures d * p == d / q * (q * p) + d % q * p
  {
    DivMod(d, q);
    Distribute(d / q * q, d % q, p);
    MulAssoc(d / q, q, p);
  }

  /** Shifting out of the word: a digit placed at bit `off` of a `bits`-bit word. */
  lemma ShiftedDigit(d: nat, off: nat, bits: nat)
    requires off <= bits
    ensures d * Pow2(off) % Pow2(bits) == d % Pow2(bits - off) * Pow2(off)
  {
    hide Pow2;
    var p, q := Pow2(off), Pow2(bits - off);
    PowSplit(bits - off, off);
    SplitDigit(d, q, p);
    MulBelow(d % q, q, p);
    ModUnique(d * p, d / q, d % q * p, q * p);
  }

  lemma AddDigit(sum: nat, d: nat, p: nat, q: nat, m: nat)
    requires q > 0 && sum < p && m == q * p
    ensures sum < m && (sum + d * p) % m == sum + d % q * p
  {
    MulGrows(q, p);
    SplitDigit(d, q, p);
    MulBelow(d % q, q, p);
    ModUnique(sum + d * p, d / q, sum + d % q * p, m);
  }

  /** One turn of the decoding loop, `Result |= Digit << Offset` in a word of
      `bits` bits, continues the digit sum modulo the word. */
  lemma Accumulate(s: seq<Byte>, b: Byte, bits: nat)
    requires 7 * |s| < bits
    ensures Sum(s) < Pow2(bits)
    ensures Or(Sum(s), Digit(b) * Pow2(7 * |s|) % Pow2(bits)) == Sum(s + [b]) % Pow2(bits)
  {
    hide Pow2, Sum, Or, Weight, Digit;
    var k, d := |s|, Digit(b);
    var p, q, m := Pow2(7 * k), Pow2(bits - 7 * k), Pow2(bits);
    SumBound(s);
    WeightIsPow2(k);
    assert m == q * p by {
      PowSplit(bits - 7 * k, 7 * k);
    }
    AddDigit(Sum(s), d, p, q, m);
    assert d * p % m == d % q * p by {
      ShiftedDigit(d, 7 * k, bits);
    }
    assert Or(Sum(s), d % q * p) == Sum(s) + d % q * p by {
      OrDisjoint(Sum(s), d % q, 7 * k);
    }
    assert Sum(s + [b]) == Sum(s) + d * p by {
      SumAppend(s, b);
    }
  }

  // ----- unsigned and signed numbers -----

  /** Bytes a number of `bits` bits may take: ceil(bits / 7). */
  function MaxRun(bits: nat): nat {
    (bits + 6) / 7
  }

  /** What decoding a run must give: its digit sum in the word. */
  function UnsignedOf(s: seq<Byte>, bits: nat): nat {
    Sum(s) % Pow2(bits)
  }

  /** The sign is bit 6 of the last byte; it fills the word above the run. */
  predicate Negative(s: seq<Byte>)
    requires s != []
  {
    Digit(s[|s| - 1]) >= 0x40
  }

  /** The word (two's complement) of a signed run. */
  function SignedOf(s: seq<Byte>, bits: nat): nat
    requires s != []
  {
    (Sum(s) - if Negative(s) && 7 * |s| < bits then Weight(|s|) else 0) % Pow2(bits)
  }

  /** `Result |= ~0 << Offset` fills the sign. */
  lemma SignFill(s: seq<Byte>, bits: nat)
    requires s != [] && Negative(s) && 7 * |s| < bits
    ensures Sum(s) < Pow2(7 * |s|) <= Pow2(bits)
    ensures Or(Sum(s), Pow2(bits) - Pow2(7 * |s|)) == SignedOf(s, bits)
  {
    hide Pow2, Sum, Or, Weight, Negative;
    var k := |s|;
    var p, q := Pow2(7 * k), Pow2(bits - 7 * k);
    SumBound(s);
    WeightIsPow2(k);
    PowSplit(bits - 7 * k, 7 * k);
    MulGrows(q, p);
    Distribute(q, 1, p);
    OrDisjoint(Sum(s), q - 1, 7 * k);
    ModUnique(Sum(s) - p, -1, Sum(s) - p + q * p, q * p);
  }

  lemma SignKept(s: seq<Byte>, bits: nat)
    requires s != [] && !(Negative(s) && 7 * |s| < bits)
    ensures SignedOf(s, bits) == UnsignedOf(s, bits)
  {
  }

  // ----- canonical encodings -----

  function EncodeUnsigned(v: nat): (s: seq<Byte>)
    ensures s != []
  {
    if v < 128 then [v] else [v % 128 + 128] + EncodeUnsigned(v / 128)
  }

  lemma {:induction false} EncodeUnsignedRun(v: nat)
    ensures IsRun(EncodeUnsigned(v)) && Sum(EncodeUnsigned(v)) == v
  {
    var s := EncodeUnsigned(v);
    if v < 128 {
      assert s[1..] == [];
    } else {
      EncodeUnsignedRun(v / 128);
      RunCons(s[0], EncodeUnsigned(v / 128));
      assert s[1..] == EncodeUnsigned(v / 128);
    }
  }

  lemma {:induction false} EncodeUnsignedLength(v: nat, n: nat)
    requires n > 0 && v < Weight(n)
    ensures |EncodeUnsigned(v)| <= n
    decreases n
  {
    if v >= 128 {
      assert Weight(1) == 128 * Weight(0);
      assert v / 128 < Weight(n - 1);
      EncodeUnsignedLength(v / 128, n - 1);
    }
  }

  function EncodeSigned(v: int): (s: seq<Byte>)
    ensures s != []
    decreases if v < 0 then -v else v
  {
    if -64 <= v < 64 then [v % 128] else [v % 128 + 128] + EncodeSigned(v / 128)
  }

  lemma {:induction false} EncodeSignedIsRun(v: int)
    ensures IsRun(EncodeSigned(v)) && (Negative(EncodeSigned(v)) <==> v < 0)
    decreases if v < 0 then -v else v
  {
    var s := EncodeSigned(v);
    if !(-64 <= v < 64) {
      var t := EncodeSigned(v / 128);
      EncodeSignedIsRun(v / 128);
      RunCons(s[0], t);
      assert s[|s| - 1] == t[|t| - 1];
    }
  }

  /** The digit sum of a signed encoding is the value, or the value plus the
      weight of the run when it is negative. */
  lemma {:induction false} EncodeSignedSum(v: int)
    ensures Sum(EncodeSigned(v)) == v + if v < 0 then Weight(|EncodeSigned(v)|) else 0
    decreases if v < 0 then -v else v
  {
    var s := EncodeSigned(v);
    if -64 <= v < 64 {
      assert s[1..] == [] && Weight(1) == 128 * Weight(0);
    } else {
      EncodeSignedSum(v / 128);
      assert s[1..] == EncodeSigned(v / 128);
      assert Digit(s[0]) == v % 128;
    }
  }

  lemma {:induction false} EncodeSignedLength(v: int, n: nat)
    requires n > 0 && -64 * Weight(n - 1) <= v < 64 * Weight(n - 1)
    ensures |EncodeSigned(v)| <= n
    decreases n
  {
    assert Weight(0) == 1;
    if n > 1 && !(-64 <= v < 64) {
      var w := Weight(n - 2);
      assert Weight(n - 1) == 128 * w;
      assert -64 * w <= v / 128 < 64 * w;
      EncodeSignedLength(v / 128, n - 1);
    }
  }

  /** The word of a signed value. */
  function Word(v: int, bits: nat): nat {
    v % Pow2(bits)
  }

  /** Decoding the encoding of a value gives its word again. */
  lemma SignedRoundTrip(v: int, bits: nat)
    ensures SignedOf(EncodeSigned(v), bits) == Word(v, bits)
  {
    var s := EncodeSigned(v);
    EncodeSignedIsRun(v);
    EncodeSignedSum(v);
    WeightIsPow2(|s|);
    if v < 0 && bits <= 7 * |s| {
      var m, e := Pow2(bits), Pow2(7 * |s| - bits);
      PowSplit(7 * |s| - bits, bits);
      assert Sum(s) == v + e * m;
      ModShift(v, e, m);
    }
  }

  lemma ModShift(v: int, e: int, m: int)
    requires m > 0
    ensures (v + e * m) % m == v % m
  {
    var q, r := v / m, v % m;
    assert v == q * m + r;
    assert v + e * m == (q + e) * m + r by {
      assert (q + e) * m == q * m + e * m;
    }
    ModUnique(v + e * m, q + e, r, m);
  }

  lemma UnsignedRoundTrip(v: nat, bits: nat)
    requires v < Pow2(bits)
    ensures UnsignedOf(EncodeUnsigned(v), bits) == v
  {
    EncodeUnsignedRun(v);
    ModUnique(v, 0, v, Pow2(bits));
  }
}
