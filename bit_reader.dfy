/** `BitReader`: a sliding 64-bit little-endian window over a byte slice. The pure
    functions on `Reader` values say what each operation does; the class `BitReader`
    performs it in place and is proved to agree with them. */
module SqttReader {
  import opened Wrappers
  import opened BitArith

  /** The fields of a `BitReader`: the unread suffix of the buffer, the window and
      the number of window bits already consumed. */
  datatype Reader = Reader(input: seq<byte>, bits: nat, bitsConsumed: nat)

  /** What holds of a reader between two of its operations. */
  predicate Valid(r: Reader)
  {
    && |r.input| >= 8
    && r.bitsConsumed <= 64
    && r.bitsConsumed <= 8 * |r.input|
    && (|r.input| >= 29 ==> r.bitsConsumed < 8)
  }

  /** The window holds the first eight bytes of the unread input (true after every refill). */
  predicate Windowed(r: Reader)
  {
    |r.input| >= 8 && r.bits == LeValue(r.input[..8])
  }

  /** A refilled window is a `u64`: the eight bytes it is loaded from fit in 64 bits. */
  lemma WindowFitsU64(r: Reader)
    requires Windowed(r)
    ensures r.bits < Pow2(64)
  {
    LeValueBound(r.input[..8]);
  }

  /** The number of bits of the buffer not yet consumed. */
  function Remaining(r: Reader): int
  {
    8 * |r.input| - r.bitsConsumed
  }

  /** `t` is what is left of `s` once some leading bytes are dropped. */
  predicate IsSuffix(t: seq<byte>, s: seq<byte>)
    decreases |s|
  {
    if |t| >= |s| then t == s else IsSuffix(t, s[1..])
  }

  lemma {:induction false} SuffixIsDrop(t: seq<byte>, s: seq<byte>)
    requires IsSuffix(t, s)
    ensures |t| <= |s| && t == s[|s| - |t|..]
    decreases |s|
  {
    if |t| < |s| {
      SuffixIsDrop(t, s[1..]);
      assert s[1..][|s| - 1 - |t|..] == s[|s| - |t|..];
    }
  }

  lemma {:induction false} DropIsSuffix(s: seq<byte>, k: nat)
    requires k <= |s|
    ensures IsSuffix(s[k..], s)
    decreases k
  {
    if k > 0 {
      DropIsSuffix(s[1..], k - 1);
      assert s[1..][k - 1..] == s[k..];
    }
  }

  lemma SuffixTrans(a: seq<byte>, b: seq<byte>, c: seq<byte>)
    requires IsSuffix(a, b) && IsSuffix(b, c)
    ensures IsSuffix(a, c)
  {
    SuffixIsDrop(a, b);
    SuffixIsDrop(b, c);
    var k1, k2 := |c| - |b|, |b| - |a|;
    assert a == c[k1 + k2..];
    DropIsSuffix(c, k1 + k2);
  }

  /** `s` without its first `k` bytes (`&s[k..]`), dropped one byte at a time. */
  function Skip(s: seq<byte>, k: nat): (t: seq<byte>)
    requires k <= |s|
    ensures |t| == |s| - k && IsSuffix(t, s)
    decreases k
  {
    if k == 0 then s else Skip(s[1..], k - 1)
  }

  lemma {:induction false} SkipIsDrop(s: seq<byte>, k: nat)
    requires k <= |s|
    ensures Skip(s, k) == s[k..]
    decreases k
  {
    if k > 0 {
      SkipIsDrop(s[1..], k - 1);
      assert s[1..][k - 1..] == s[k..];
    }
  }

  /** `r2` is `r` moved forward by exactly `n` bits: its input is a suffix of `r`'s and
      the dropped bytes plus the consumed bits account for `n` more bits. */
  predicate Advances(r: Reader, r2: Reader, n: nat)
  {
    && |r2.input| <= |r.input|
    && IsSuffix(r2.input, r.input)
    && 8 * (|r.input| - |r2.input|) + r2.bitsConsumed == r.bitsConsumed + n
  }

  /** `BitReader::new`: the window starts out as zero; nothing is loaded until the first refill. */
  function New(input: seq<byte>): (r: Reader)
    requires |input| >= 8
    ensures Valid(r) && r.input == input && Remaining(r) == 8 * |input|
  {
    Reader(input, 0, 0)
  }

  /** `bits(lsb, width)`: `width` bits at offset `lsb` past the consumed bits, or nothing
      when they are not inside the 64-bit window. */
  function Peek(r: Reader, lsb: nat, width: nat): (v: Option<nat>)
    requires lsb + width <= 60 && width >= 1
    requires r.bitsConsumed <= 64
    ensures v.None? <==> lsb + width > 64 - r.bitsConsumed
    ensures v.Some? ==> v.value < Pow2(width)
  {
    if lsb + width > 64 - r.bitsConsumed then None
    else Some(Field(r.bits, lsb + r.bitsConsumed, width))
  }

  /** The state between `consume`'s position update and its refill. */
  predicate Advanced(r: Reader)
  {
    && |r.input| >= 8
    && r.bitsConsumed <= 8 * |r.input|
    && (|r.input| >= 29 ==> r.bitsConsumed < 8 + 96)
  }

  function Min(a: int, b: int): int
  {
    if a <= b then a else b
  }

  /** `refill_slow`: drop whole consumed bytes, but never so many that fewer than eight remain. */
  function AfterRefillSlow(r: Reader): (r2: Reader)
    requires |r.input| >= 8 && r.bitsConsumed <= 8 * |r.input|
    ensures Valid(r2)
  {
    var advance := Min(r.bitsConsumed / 8, |r.input| - 8);
    var input := Skip(r.input, advance);
    Reader(input, LeValue(input[..8]), r.bitsConsumed - 8 * advance)
  }

  /** `refill`: the unchecked fast path when at least 29 bytes remain, else `refill_slow`. */
  function AfterRefill(r: Reader): (r2: Reader)
    requires Advanced(r)
    ensures Valid(r2)
    ensures |r.input| >= 29 ==> r2.bitsConsumed < 8
  {
    if |r.input| < 29 then AfterRefillSlow(r)
    else
      var input := Skip(r.input, r.bitsConsumed / 8);
      Reader(input, LeValue(input[..8]), r.bitsConsumed % 8)
  }

  /** `consume(n)`: fails when fewer than `n` bits remain, otherwise advances by `n` and refills. */
  function AfterConsume(r: Reader, n: nat): (r2: Option<Reader>)
    requires Valid(r) && n <= 96
    ensures r2.None? <==> n + r.bitsConsumed > 8 * |r.input|
    ensures r2.Some? ==> Valid(r2.value)
  {
    if n + r.bitsConsumed > 8 * |r.input| then None
    else Some(AfterRefill(r.(bitsConsumed := r.bitsConsumed + n)))
  }

  /** The reader after `consume(n)` when its result is ignored: a failed consume leaves
      the reader as it was. */
  function Consumed(r: Reader, n: nat): (r2: Reader)
    requires Valid(r) && n <= 96
    ensures Valid(r2)
  {
    match AfterConsume(r, n)
    case None => r
    case Some(r1) => r1
  }

  /** A refill keeps the position in the stream and loads the window from the unread input. */
  lemma RefillAdvances(r: Reader)
    requires Advanced(r)
    ensures Windowed(AfterRefill(r)) && Advances(r, AfterRefill(r), 0)
  {
    var advance := if |r.input| < 29 then Min(r.bitsConsumed / 8, |r.input| - 8) else r.bitsConsumed / 8;
    assert AfterRefill(r).input == Skip(r.input, advance);
  }

  /** A successful `consume(n)` moves exactly `n` bits forward and leaves a loaded window. */
  lemma ConsumeAdvances(r: Reader, n: nat)
    requires Valid(r) && n <= 96 && AfterConsume(r, n).Some?
    ensures Windowed(AfterConsume(r, n).value) && Advances(r, AfterConsume(r, n).value, n)
    ensures Remaining(AfterConsume(r, n).value) == Remaining(r) - n
  {
    RefillAdvances(r.(bitsConsumed := r.bitsConsumed + n));
  }

  /** A peek at a windowed reader reads the unread input as a little-endian bit stream. */
  lemma PeekReadsStream(r: Reader, lsb: nat, width: nat)
    requires Valid(r) && Windowed(r) && lsb + width <= 60 && width >= 1
    requires Peek(r, lsb, width).Some?
    ensures Peek(r, lsb, width).value == StreamBits(r.input, r.bitsConsumed + lsb, width)
  {
    WindowBits(r.input, 8, lsb + r.bitsConsumed, width);
  }

  /** Moving forward by `n` bits shifts every stream position by `n`. */
  lemma AdvancesShiftsStream(r: Reader, r2: Reader, n: nat, offset: nat, width: nat)
    requires Advances(r, r2, n)
    ensures StreamBits(r2.input, r2.bitsConsumed + offset, width)
         == StreamBits(r.input, r.bitsConsumed + n + offset, width)
  {
    var k := |r.input| - |r2.input|;
    SuffixIsDrop(r2.input, r.input);
    DropBytes(r.input, k, r2.bitsConsumed + offset, width);
  }

  /** A `BitReader` over a byte slice, updated in place by `consume`. */
  class BitReader {
    var input: seq<byte>
    var bits: nat
    var bitsConsumed: nat

    function State(): Reader
      reads this
    {
      Reader(input, bits, bitsConsumed)
    }

    /** `BitReader::new`; the source panics on fewer than eight bytes. */
    constructor (input: seq<byte>)
      requires |input| >= 8
      ensures State() == New(input)
    {
      this.input := input;
      bits := 0;
      bitsConsumed := 0;
    }

    /** `reader.clone()`: an independent copy of the three fields. */
    constructor Clone(from: BitReader)
      ensures State() == from.State()
    {
      input := from.input;
      bits := from.bits;
      bitsConsumed := from.bitsConsumed;
    }

    /** `bits(lsb, width)`; reading leaves the reader as it is. */
    method Bits(lsb: nat, width: nat) returns (v: Option<nat>)
      requires lsb + width <= 60 && width >= 1 && bitsConsumed <= 64
      ensures v == Peek(State(), lsb, width)
    {
      if lsb + width > 64 - bitsConsumed {
        return None;
      }
      return Some(Field(bits, lsb + bitsConsumed, width));
    }

    method Consume(n: nat) returns (ok: bool)
      requires Valid(State()) && n <= 96
      modifies this
      ensures ok == AfterConsume(old(State()), n).Some?
      ensures State() == Consumed(old(State()), n)
    {
      if n + bitsConsumed > 8 * |input| {
        return false;
      }
      bitsConsumed := bitsConsumed + n;
      Refill();
      return true;
    }

    method Refill()
      requires Advanced(State())
      modifies this
      ensures State() == AfterRefill(old(State()))
    {
      if |input| < 29 {
        RefillSlow();
        return;
      }
      SkipIsDrop(input, bitsConsumed / 8);
      input := input[bitsConsumed / 8..];
      bitsConsumed := bitsConsumed % 8;
      bits := LeValue(input[..8]);
    }

    method RefillSlow()
      requires |input| >= 8 && bitsConsumed <= 8 * |input|
      modifies this
      ensures State() == AfterRefillSlow(old(State()))
    {
      var advance := Min(bitsConsumed / 8, |input| - 8);
      SkipIsDrop(input, advance);
      input := input[advance..];
      bitsConsumed := bitsConsumed - 8 * advance;
      bits := LeValue(input[..8]);
    }
  }
}
