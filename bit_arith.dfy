/** Unsigned machine integers as bounded naturals, powers of two, shift-and-mask
    field extraction and the little-endian value of a byte string. */
module BitArith {

  type byte = x: int | 0 <= x < 0x100
  type u32 = x: int | 0 <= x < 0x1_0000_0000

  function Pow2(n: nat): (r: nat)
    ensures r >= 1
  {
    if n == 0 then 1 else 2 * Pow2(n - 1)
  }

  lemma {:induction false} Pow2Add(a: nat, b: nat)
    ensures Pow2(a + b) == Pow2(a) * Pow2(b)
  {
    if a > 0 {
      Pow2Add(a - 1, b);
    }
  }

  lemma Pow2Monotone(a: nat, b: nat)
    requires a <= b
    ensures Pow2(a) <= Pow2(b)
  {
    Pow2Add(a, b - a);
  }

  /** The low `width` bits of `x` (`x & ((1 << width) - 1)`, or a cast to a `width`-bit
      type), taken one bit at a time. */
  function Low(x: nat, width: nat): (r: nat)
    ensures r < Pow2(width)
  {
    if width == 0 then 0 else x % 2 + 2 * Low(x / 2, width - 1)
  }

  /** `(x >> lsb) & ((1 << width) - 1)` on an unbounded natural. */
  function Field(x: nat, lsb: nat, width: nat): (r: nat)
    ensures r < Pow2(width)
  {
    if lsb == 0 then Low(x, width) else Field(x / 2, lsb - 1, width)
  }

  /** The value of `s` read as a little-endian number (`u64::from_le_bytes` for eight bytes). */
  function LeValue(s: seq<byte>): nat
  {
    if |s| == 0 then 0 else s[0] + 0x100 * LeValue(s[1..])
  }

  /** `width` bits of the byte string `s`, taken as one little-endian bit stream, from bit `pos` on. */
  function StreamBits(s: seq<byte>, pos: nat, width: nat): nat
  {
    Field(LeValue(s), pos, width)
  }

  // ---------------------------------------------------------------------------
  // Euclidean division facts, proved from the uniqueness of quotient and remainder.

  lemma MulAssoc(x: int, y: int, z: int)
    ensures (x * y) * z == x * (y * z)
  {
  }

  lemma MulComm(x: int, y: int)
    ensures x * y == y * x
  {
  }

  lemma MulAtLeast(k: int, d: int)
    requires k >= 1 && d > 0
    ensures k * d >= d
  {
    assert k * d == (k - 1) * d + d;
  }

  lemma DivModUnique(a: int, d: int, q: int, r: int)
    requires d > 0 && 0 <= r < d && a == q * d + r
    ensures a / d == q && a % d == r
  {
    var q', r' := a / d, a % d;
    assert a == q' * d + r';
    assert (q - q') * d == r' - r by {
      assert (q - q') * d == q * d - q' * d;
    }
    if q > q' {
      MulAtLeast(q - q', d);
    } else if q < q' {
      MulAtLeast(q' - q, d);
    }
  }

  lemma DivMulAdd(x: int, m: int, y: int)
    requires m > 0
    ensures (x + m * y) / m == x / m + y
    ensures (x + m * y) % m == x % m
  {
    DivModUnique(x + m * y, m, x / m + y, x % m);
  }

  lemma DivDivAlgebra(a: nat, q1: nat, r1: nat, q2: nat, r2: nat, b: nat, c: nat)
    requires a == q1 * b + r1 && q1 == q2 * c + r2 && r2 < c && r1 < b
    ensures a == q2 * (b * c) + (r2 * b + r1)
    ensures r2 * b + r1 < b * c
  {
    assert q1 * b == q2 * c * b + r2 * b;
    MulAssoc(q2, c, b);
    MulComm(c, b);
    assert r2 * b <= (c - 1) * b;
    assert (c - 1) * b == c * b - b;
  }

  lemma DivDiv(a: nat, b: nat, c: nat)
    requires b > 0 && c > 0
    ensures a / (b * c) == (a / b) / c
  {
    var q1, r1 := a / b, a % b;
    var q2, r2 := q1 / c, q1 % c;
    DivDivAlgebra(a, q1, r1, q2, r2, b, c);
    DivModUnique(a, b * c, q2, r2 * b + r1);
  }

  /** The remainder by `2 * p` from the remainder of the half by `p` and the low bit. */
  lemma ModDouble(x: nat, p: nat)
    requires p > 0
    ensures x % (2 * p) == 2 * ((x / 2) % p) + x % 2
  {
    var q, b := x / 2, x % 2;
    var d, m := q / p, q % p;
    assert x == d * (2 * p) + (2 * m + b) by {
      MulAssoc(d, 2, p);
      MulComm(d, 2);
    }
    DivModUnique(x, 2 * p, d, 2 * m + b);
  }

  /** Taking the low bits one at a time is the remainder by a power of two. */
  lemma {:induction false} LowIsMod(x: nat, width: nat)
    ensures Low(x, width) == x % Pow2(width)
  {
    if width > 0 {
      LowIsMod(x / 2, width - 1);
      ModDouble(x, Pow2(width - 1));
    }
  }

  /** A value that already fits in `width` bits survives a mask or cast to a wider type. */
  lemma LowKeepsNarrow(x: nat, width: nat, wider: nat)
    requires x < Pow2(width) && width <= wider
    ensures Low(x, wider) == x
  {
    Pow2Monotone(width, wider);
    LowIsMod(x, wider);
  }

  /** `Field` is the shift followed by the mask. */
  lemma {:induction false} FieldIsDivMod(x: nat, lsb: nat, width: nat)
    ensures Field(x, lsb, width) == (x / Pow2(lsb)) % Pow2(width)
  {
    if lsb == 0 {
      LowIsMod(x, width);
    } else {
      FieldIsDivMod(x / 2, lsb - 1, width);
      DivDiv(x, 2, Pow2(lsb - 1));
    }
  }

  /** One more byte multiplies the power of two by 256. */
  lemma Pow2Bytes(k: nat)
    requires k > 0
    ensures Pow2(8 * k) == 0x100 * Pow2(8 * (k - 1))
  {
    Pow2Add(8 * (k - 1), 8);
    assert Pow2(8) == 0x100;
  }

  lemma Pow2Of32()
    ensures Pow2(32) == 0x1_0000_0000
  {
    assert Pow2(8) == 0x100 by { Pow2Bytes(1); }
    assert Pow2(16) == 0x1_0000 by { Pow2Bytes(2); }
    assert Pow2(24) == 0x100_0000 by { Pow2Bytes(3); }
    Pow2Bytes(4);
  }

  lemma MulScale(x: int, p: int, b: int)
    requires x == 0x100 * p
    ensures x * b == 0x100 * (p * b)
  {
  }

  lemma MulDouble(x: int, p: int, b: int)
    requires x == 2 * p
    ensures x * b == 2 * (p * b)
  {
  }

  lemma {:induction false} LeValueBound(s: seq<byte>)
    ensures LeValue(s) < Pow2(8 * |s|)
  {
    if |s| > 0 {
      LeValueBound(s[1..]);
      Pow2Bytes(|s|);
    }
  }

  /** Splitting a byte string splits its little-endian value. */
  lemma {:induction false} LeValueSplit(s: seq<byte>, k: nat)
    requires k <= |s|
    ensures LeValue(s) == LeValue(s[..k]) + Pow2(8 * k) * LeValue(s[k..])
  {
    if k > 0 {
      var t := s[1..];
      LeValueSplit(t, k - 1);
      assert t[..k - 1] == s[..k][1..];
      assert t[k - 1..] == s[k..];
      var a, b, p := LeValue(s[..k][1..]), LeValue(s[k..]), Pow2(8 * (k - 1));
      assert LeValue(t) == a + p * b;
      assert LeValue(s[..k]) == s[0] + 0x100 * a;
      Pow2Bytes(k);
      MulScale(Pow2(8 * k), p, b);
    }
  }

  /** Dropping `k` leading bytes moves every stream position by `8 * k` bits. */
  lemma DropBytes(s: seq<byte>, k: nat, pos: nat, width: nat)
    requires k <= |s|
    ensures StreamBits(s[k..], pos, width) == StreamBits(s, 8 * k + pos, width)
  {
    var v, lo, hi, m := LeValue(s), LeValue(s[..k]), LeValue(s[k..]), Pow2(8 * k);
    LeValueSplit(s, k);
    LeValueBound(s[..k]);
    MulComm(m, hi);
    DivModUnique(v, m, hi, lo);
    Pow2Add(8 * k, pos);
    DivDiv(v, m, Pow2(pos));
    FieldIsDivMod(hi, pos, width);
    FieldIsDivMod(v, 8 * k + pos, width);
  }

  /** Low bits of `x + 2^n * y` below position `n` are those of `x`. */
  lemma LowIgnoresHigh(x: nat, y: nat, n: nat, width: nat)
    requires width <= n
    ensures Low(x + Pow2(n) * y, width) == Low(x, width)
  {
    var p, q := Pow2(width), Pow2(n - width);
    Pow2Add(width, n - width);
    MulAssoc(p, q, y);
    DivMulAdd(x, p, q * y);
    LowIsMod(x + Pow2(n) * y, width);
    LowIsMod(x, width);
  }

  /** Bits of `x + 2^n * y` below position `n` are those of `x`. */
  lemma {:induction false} FieldIgnoresHigh(x: nat, y: nat, n: nat, pos: nat, width: nat)
    requires pos + width <= n
    ensures Field(x + Pow2(n) * y, pos, width) == Field(x, pos, width)
  {
    if pos == 0 {
      LowIgnoresHigh(x, y, n, width);
    } else {
      var m := Pow2(n - 1) * y;
      MulDouble(Pow2(n), Pow2(n - 1), y);
      DivMulAdd(x, 2, m);
      FieldIgnoresHigh(x / 2, y, n - 1, pos - 1, width);
    }
  }

  /** Bits below position `8 * k` of a stream lie in its first `k` bytes. */
  lemma WindowBits(s: seq<byte>, k: nat, pos: nat, width: nat)
    requires k <= |s| && pos + width <= 8 * k
    ensures Field(LeValue(s[..k]), pos, width) == StreamBits(s, pos, width)
  {
    var x, y := LeValue(s[..k]), LeValue(s[k..]);
    LeValueSplit(s, k);
    FieldIgnoresHigh(x, y, 8 * k, pos, width);
  }
}
