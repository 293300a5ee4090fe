/** The packet kinds of a SQTT stream, their bit-field layouts (the `gen_parser!`
    declarations, kept as data), the append-only column tables they fill and the
    per-kind `parse`: the pure `Parse` says what it records, the class `PacketTable`
    performs it in place. */
module SqttPackets {
  import opened Wrappers
  import opened BitArith
  import opened SqttReader

  /** Where a field's value goes: a `dt` field is added into the running timestamp;
      any other field is pushed onto its column, cast to its declared Rust type of
      `width` bits (`as u8` keeps the low 8 bits). */
  datatype Store = Delta | Column(width: nat)

  /** A declared field `[top:bottom] name: type`. */
  datatype Field = Field(name: string, top: nat, bottom: nat, store: Store)

  const U8: Store := Column(8)
  const U16: Store := Column(16)
  const U32: Store := Column(32)
  const U64: Store := Column(64)

  datatype Kind =
    | Packet0x21 | Packet0x31 | Packet0x41 | Packet0x51
    | LongTimestamp | EventA | EventB | Initiator | RegWrite
    | WaveStart | WaveAllocEnd | GenericInst | ValuInst
    | Immediate | ImmediateOne | ShortTimestamp
    | Packet0x6 | Packet0xe | Packet0xf

  const AllKinds: seq<Kind> := [
    Packet0x21, Packet0x31, Packet0x41, Packet0x51,
    LongTimestamp, EventA, EventB, Initiator, RegWrite,
    WaveStart, WaveAllocEnd, GenericInst, ValuInst,
    Immediate, ImmediateOne, ShortTimestamp,
    Packet0x6, Packet0xe, Packet0xf]

  /** The fields of each packet kind, low to high. */
  function Layout(k: Kind): seq<Field>
  {
    match k
    case Packet0x21 => [Field("dt", 10, 8, Delta)]
    case Packet0x31 => [Field("dt", 8, 7, Delta)]
    case Packet0x41 => [Field("dt", 9, 7, Delta)]
    case Packet0x51 => [Field("dt", 15, 7, Delta)]
    case LongTimestamp => [Field("ty", 15, 14, U8), Field("timestamp_value", 63, 16, U64)]
    case EventA =>
      [Field("dt", 10, 8, Delta), Field("b0", 11, 11, U8), Field("selector", 13, 12, U8),
       Field("stage", 17, 14, U8), Field("a0", 23, 18, U8)]
    case EventB =>
      [Field("dt", 10, 8, Delta), Field("b0", 11, 11, U8), Field("selector", 13, 12, U8),
       Field("stage", 17, 14, U8), Field("a0", 19, 18, U8), Field("a1", 31, 20, U8)]
    case Initiator =>
      [Field("dt", 9, 7, Delta), Field("a0", 15, 14, U8), Field("a1", 17, 16, U8),
       Field("initiator_type", 19, 18, U8), Field("val", 52, 20, U32)]
    case RegWrite =>
      [Field("dt", 6, 4, Delta), Field("a0", 8, 7, U8), Field("a1", 10, 9, U8),
       Field("b0", 11, 11, U8), Field("is_write", 15, 15, U8), Field("reg", 31, 16, U16),
       Field("val", 63, 32, U32)]
    case WaveStart =>
      [Field("dt", 6, 4, Delta), Field("a0", 7, 7, U8), Field("a1", 9, 8, U8),
       Field("a2", 12, 10, U8), Field("a3", 17, 13, U8), Field("stage", 21, 18, U8),
       Field("threads", 31, 25, U8)]
    case WaveAllocEnd =>
      [Field("is_end", 4, 4, U8), Field("dt", 7, 5, Delta), Field("a0", 8, 8, U8),
       Field("a1", 10, 9, U8), Field("a2", 13, 11, U8), Field("a3", 19, 15, U8)]
    case GenericInst =>
      [Field("dt", 6, 4, Delta), Field("b0", 7, 7, U8), Field("a0", 12, 8, U8),
       Field("insn", 19, 13, U8)]
    case ValuInst => [Field("dt", 5, 3, Delta), Field("b0", 6, 6, U8), Field("a0", 11, 7, U8)]
    case Immediate => [Field("dt", 7, 5, Delta), Field("wave_mask", 23, 8, U32)]
    case ImmediateOne => [Field("dt", 6, 4, Delta), Field("wave_id", 11, 7, U8)]
    case ShortTimestamp => [Field("dt_4", 7, 4, U8)]
    case Packet0x6 => [Field("dt", 7, 5, Delta)]
    case Packet0xe => [Field("dt", 5, 4, Delta)]
    case Packet0xf => [Field("dt", 5, 4, Delta)]
  }

  // Column positions used by the decode loop and the marker reassembly.
  const LongTimestampTy := 0
  const LongTimestampValue := 1
  const ShortTimestampDt4 := 0
  const RegWriteReg := 5
  const RegWriteVal := 6
  const InitiatorType := 3
  const InitiatorVal := 4

  /** The number of bits of `[top:bottom]` (none when the field is declared upside down). */
  function Width(f: Field): nat
  {
    if f.top < f.bottom then 0 else f.top + 1 - f.bottom
  }

  /** The value of `last_consume` when field `i` is reached: a field whose top bit lies
      more than 60 bits past it first consumes up to its own bottom bit. */
  function LastConsume(layout: seq<Field>, i: nat): nat
    requires i <= |layout|
  {
    if i == 0 then 0
    else
      var lc, f := LastConsume(layout, i - 1), layout[i - 1];
      if f.top - lc > 60 then f.bottom else lc
  }

  /** True when field `i` causes the consume before it is read. */
  predicate ConsumesBefore(layout: seq<Field>, i: nat)
    requires i < |layout|
  {
    layout[i].top - LastConsume(layout, i) > 60
  }

  /** The look-ahead rule: the peek of every field stays within 60 bits (the assert in
      `bits`), a consume moves at most 96 bits, and a field that consumes directly
      follows the field before it. */
  predicate FitsLookAhead(layout: seq<Field>, i: nat)
    requires i < |layout|
  {
    var f, lc := layout[i], LastConsume(layout, i);
    if ConsumesBefore(layout, i) then
      f.top + 1 - f.bottom <= 60 && f.bottom - lc <= 96 && i > 0 && layout[i - 1].top + 1 == f.bottom
    else
      f.top + 1 - lc <= 60
  }

  /** Field `i` is declared with `top >= bottom` above the field before it, has a
      non-empty type and obeys the look-ahead rule. */
  predicate FieldOk(layout: seq<Field>, i: nat)
    requires i < |layout|
  {
    && layout[i].bottom <= layout[i].top
    && (i > 0 ==> layout[i - 1].top < layout[i].bottom)
    && (layout[i].store.Column? ==> layout[i].store.width >= 1)
    && FitsLookAhead(layout, i)
  }

  predicate WellFormedFrom(layout: seq<Field>, i: nat)
    requires i <= |layout|
    decreases |layout| - i
  {
    i == |layout| || (FieldOk(layout, i) && WellFormedFrom(layout, i + 1))
  }

  predicate WellFormed(layout: seq<Field>)
  {
    WellFormedFrom(layout, 0)
  }

  lemma {:induction false} WellFormedFromAt(layout: seq<Field>, i: nat, j: nat)
    requires i <= j < |layout| && WellFormedFrom(layout, i)
    ensures FieldOk(layout, j)
    decreases j - i
  {
    if i < j {
      WellFormedFromAt(layout, i + 1, j);
    }
  }

  lemma {:induction false} LastConsumeBelow(layout: seq<Field>, i: nat)
    requires WellFormed(layout) && i < |layout|
    ensures LastConsume(layout, i) <= layout[i].bottom
  {
    WellFormedFromAt(layout, 0, i);
    if i > 0 {
      LastConsumeBelow(layout, i - 1);
      WellFormedFromAt(layout, 0, i - 1);
    }
  }

  /** The fields of a well-formed layout rise, so the last one holds the highest bit. */
  lemma {:induction false} TopIsLast(layout: seq<Field>)
    requires WellFormed(layout) && |layout| > 0
    ensures forall j | 0 <= j < |layout| :: layout[j].top <= layout[|layout| - 1].top
  {
    var n := |layout|;
    var j := n - 1;
    while j > 0
      invariant 0 <= j < n
      invariant forall m | j <= m < n :: layout[m].top <= layout[n - 1].top
    {
      WellFormedFromAt(layout, 0, j);
      j := j - 1;
    }
  }

  /** What the parse of field `i` relies on: the consume amount is in range, and the peek
      after it has `lsb + width <= 60` and `width >= 1`. */
  lemma WellFormedField(layout: seq<Field>, i: nat)
    requires WellFormed(layout) && i < |layout|
    ensures FieldOk(layout, i)
    ensures LastConsume(layout, i) <= layout[i].bottom
    ensures LastConsume(layout, i + 1) == if ConsumesBefore(layout, i) then layout[i].bottom else LastConsume(layout, i)
    ensures ConsumesBefore(layout, i) ==> layout[i].bottom - LastConsume(layout, i) <= 96
    ensures LastConsume(layout, i + 1) <= layout[i].bottom
    ensures layout[i].bottom - LastConsume(layout, i + 1) + Width(layout[i]) <= 60 && Width(layout[i]) >= 1
  {
    WellFormedFromAt(layout, 0, i);
    LastConsumeBelow(layout, i);
  }

  // ---------------------------------------------------------------------------
  // Column tables

  /** One packet struct: the `seq` and `timestamp` columns and one column per declared
      field, in layout order (a `dt` field's column is declared but never pushed). */
  datatype Table = Table(seqs: seq<nat>, timestamps: seq<nat>, columns: seq<seq<nat>>)

  function EmptyTable(k: Kind): (t: Table)
  {
    Table([], [], seq(|Layout(k)|, _ => []))
  }

  /** `SqttChunk`: one table per kind. */
  type Chunk = map<Kind, Table>

  predicate Shaped(c: Chunk)
  {
    forall k: Kind :: k in c && |c[k].columns| == |Layout(k)|
  }

  function EmptyChunk(): (c: Chunk)
    ensures Shaped(c) && forall k: Kind :: c[k] == EmptyTable(k)
  {
    assert forall k: Kind :: k in AllKinds by {
      forall k: Kind ensures k in AllKinds {
        AllKindsListed(k);
      }
    }
    map k | k in AllKinds :: EmptyTable(k)
  }

  lemma AllKindsListed(k: Kind)
    ensures k in AllKinds
  {
    match k
    case Packet0x21 => assert AllKinds[0] == k;
    case Packet0x31 => assert AllKinds[1] == k;
    case Packet0x41 => assert AllKinds[2] == k;
    case Packet0x51 => assert AllKinds[3] == k;
    case LongTimestamp => assert AllKinds[4] == k;
    case EventA => assert AllKinds[5] == k;
    case EventB => assert AllKinds[6] == k;
    case Initiator => assert AllKinds[7] == k;
    case RegWrite => assert AllKinds[8] == k;
    case WaveStart => assert AllKinds[9] == k;
    case WaveAllocEnd => assert AllKinds[10] == k;
    case GenericInst => assert AllKinds[11] == k;
    case ValuInst => assert AllKinds[12] == k;
    case Immediate => assert AllKinds[13] == k;
    case ImmediateOne => assert AllKinds[14] == k;
    case ShortTimestamp => assert AllKinds[15] == k;
    case Packet0x6 => assert AllKinds[16] == k;
    case Packet0xe => assert AllKinds[17] == k;
    case Packet0xf => assert AllKinds[18] == k;
  }

  // ---------------------------------------------------------------------------
  // The per-kind parse

  /** The peeks of a parse: `ok` when every field was read, `values` the values read in
      layout order, `reader` where the reader is left. */
  datatype Fields = Fields(ok: bool, values: seq<nat>, reader: Reader)

  /** The outcome of `parse`: whether it completed, the table, the final timestamp and the reader. */
  datatype Parsed = Parsed(ok: bool, table: Table, timestamp: nat, reader: Reader)

  /** The reader after the consume that field `i` may trigger; the source ignores the
      result of that consume, so a failed one leaves the reader where it was. */
  function ReaderFor(layout: seq<Field>, i: nat, r: Reader): (r2: Reader)
    requires WellFormed(layout) && i < |layout| && Valid(r)
    ensures Valid(r2)
  {
    WellFormedField(layout, i);
    if ConsumesBefore(layout, i) then Consumed(r, layout[i].bottom - LastConsume(layout, i))
    else r
  }

  /** The peek of field `i` after its consume: `bits(bottom - last_consume, top + 1 - bottom)`. */
  function ReadField(layout: seq<Field>, i: nat, r: Reader): (v: Option<nat>)
    requires WellFormed(layout) && i < |layout| && Valid(r)
    ensures v.Some? ==> v.value < Pow2(Width(layout[i]))
  {
    WellFormedField(layout, i);
    Peek(ReaderFor(layout, i, r), layout[i].bottom - LastConsume(layout, i + 1), Width(layout[i]))
  }

  /** The fields read from field `i` on: each in order, until the first failed peek. */
  function ReadFields(layout: seq<Field>, i: nat, r: Reader): (p: Fields)
    requires WellFormed(layout) && i <= |layout| && Valid(r)
    ensures Valid(p.reader) && i + |p.values| <= |layout|
    ensures p.ok <==> i + |p.values| == |layout|
    decreases |layout| - i
  {
    if i == |layout| then Fields(true, [], r)
    else
      var r1 := ReaderFor(layout, i, r);
      match ReadField(layout, i, r)
      case None => Fields(false, [], r1)
      case Some(v) =>
        var rest := ReadFields(layout, i + 1, r1);
        Fields(rest.ok, [v] + rest.values, rest.reader)
  }

  /** What the column of `f` receives for the value `v`: the cast to its declared type. */
  function Stored(f: Field, v: nat): nat
  {
    match f.store
    case Delta => v
    case Column(w) => Low(v, w)
  }

  /** The value of field `i` is pushed onto its column unless it is a `dt` field. */
  function Record(layout: seq<Field>, i: nat, t: Table, v: nat): (t2: Table)
    requires i < |layout| == |t.columns|
    ensures |t2.columns| == |layout|
  {
    if layout[i].store.Delta? then t
    else t.(columns := t.columns[i := t.columns[i] + [Stored(layout[i], v)]])
  }

  /** The columns after the values read were pushed: value `k` onto column `k`, except for
      the `dt` fields. */
  function Push(layout: seq<Field>, t: Table, values: seq<nat>): (t2: Table)
    requires |t.columns| == |layout| && |values| <= |layout|
    ensures t2.seqs == t.seqs && t2.timestamps == t.timestamps && |t2.columns| == |layout|
  {
    t.(columns := seq(|layout|, j requires 0 <= j < |layout| =>
       if j < |values| && layout[j].store.Column? then t.columns[j] + [Stored(layout[j], values[j])]
       else t.columns[j]))
  }

  /** The sum of the values read for `dt` fields (`*timestamp += ..` once per `dt` field). */
  function DeltaTotal(layout: seq<Field>, values: seq<nat>): nat
    requires |values| <= |layout|
  {
    if |values| == 0 then 0
    else
      var k := |values| - 1;
      DeltaTotal(layout, values[..k]) + (if layout[k].store.Delta? then values[k] else 0)
  }

  /** `parse(&mut self, reader, seq, timestamp)`: every value read is pushed at once (or
      added into the timestamp), so a failed peek leaves the earlier fields pushed; only a
      complete parse pushes the `seq` and `timestamp` columns. */
  function ParseOutcome(layout: seq<Field>, r: Reader, t: Table, seqNo: nat, ts: nat): (p: Parsed)
    requires WellFormed(layout) && Valid(r) && |t.columns| == |layout|
    ensures |p.table.columns| == |layout| && Valid(p.reader)
  {
    var f := ReadFields(layout, 0, r);
    var t1, ts1 := Push(layout, t, f.values), ts + DeltaTotal(layout, f.values);
    if f.ok then Parsed(true, t1.(seqs := t1.seqs + [seqNo], timestamps := t1.timestamps + [ts1]), ts1, f.reader)
    else Parsed(false, t1, ts1, f.reader)
  }

  // ---------------------------------------------------------------------------
  // What a parse records

  /** Bookkeeping of a parse: on success exactly one `seq` and one `timestamp` entry are
      pushed, the pushed timestamp being the returned one; on failure neither is. Every
      field column keeps its old contents and gains at most one value, the `dt` columns
      stay untouched, the timestamp only grows, and on success every other column has
      gained exactly one value. */
  lemma ParseRecords(layout: seq<Field>, r: Reader, t: Table, seqNo: nat, ts: nat)
    requires WellFormed(layout) && Valid(r) && |t.columns| == |layout|
    ensures var p := ParseOutcome(layout, r, t, seqNo, ts);
      && p.timestamp >= ts
      && (p.ok ==> p.table.seqs == t.seqs + [seqNo] && p.table.timestamps == t.timestamps + [p.timestamp])
      && (!p.ok ==> p.table.seqs == t.seqs && p.table.timestamps == t.timestamps)
      && (forall j | 0 <= j < |layout| ::
            |t.columns[j]| <= |p.table.columns[j]| <= |t.columns[j]| + 1
            && p.table.columns[j][..|t.columns[j]|] == t.columns[j])
      && (forall j | 0 <= j < |layout| && layout[j].store.Delta? :: p.table.columns[j] == t.columns[j])
      && (p.ok ==> forall j | 0 <= j < |layout| && layout[j].store.Column? ::
            |p.table.columns[j]| == |t.columns[j]| + 1)
      && (forall j | 0 <= j < |layout| && layout[j].store.Column? && |p.table.columns[j]| > |t.columns[j]| ::
            p.table.columns[j][|t.columns[j]|] < Pow2(layout[j].store.width))
  {
    var f := ReadFields(layout, 0, r);
    var t1 := Push(layout, t, f.values);
    forall j | 0 <= j < |layout|
      ensures t1.columns[j][..|t.columns[j]|] == t.columns[j]
    {
      if j < |f.values| && layout[j].store.Column? {
        assert t1.columns[j] == t.columns[j] + [Stored(layout[j], f.values[j])];
      }
    }
  }

  // ---------------------------------------------------------------------------
  // What the tables hold between two packets

  predicate Increasing(xs: seq<nat>)
  {
    forall i, j | 0 <= i < j < |xs| :: xs[i] < xs[j]
  }

  predicate NonDecreasing(xs: seq<nat>)
  {
    forall i, j | 0 <= i < j < |xs| :: xs[i] <= xs[j]
  }

  predicate AllBelow(xs: seq<nat>, bound: nat)
  {
    forall i | 0 <= i < |xs| :: xs[i] < bound
  }

  predicate AllAtMost(xs: seq<nat>, bound: nat)
  {
    forall i | 0 <= i < |xs| :: xs[i] <= bound
  }

  /** The column of field `f` in a table of `n` records: a `dt` column stays empty; any
      other holds values of its type, one per record plus at most one of a packet whose
      parse stopped there. */
  predicate ColumnOk(f: Field, col: seq<nat>, n: nat)
  {
    match f.store
    case Delta => col == []
    case Column(w) => n <= |col| <= n + 1 && forall m | 0 <= m < |col| :: col[m] < Pow2(w)
  }

  /** A table of the layout: one timestamp per `seq` entry, rising `seq` entries,
      timestamps that do not fall, and columns in shape. */
  predicate Records(layout: seq<Field>, t: Table)
  {
    && |t.seqs| == |t.timestamps| && |t.columns| == |layout|
    && Increasing(t.seqs) && NonDecreasing(t.timestamps)
    && forall j | 0 <= j < |layout| :: ColumnOk(layout[j], t.columns[j], |t.seqs|)
  }

  /** A table between two iterations: its `seq` entries come before the counter `seqNo`
      and its timestamps are at most the running timestamp `ts`. */
  predicate TableOk(layout: seq<Field>, t: Table, seqNo: nat, ts: nat)
  {
    Records(layout, t) && AllBelow(t.seqs, seqNo) && AllAtMost(t.timestamps, ts)
  }

  lemma TableOkMore(layout: seq<Field>, t: Table, seqNo: nat, ts: nat, seqNo2: nat, ts2: nat)
    requires TableOk(layout, t, seqNo, ts) && seqNo <= seqNo2 && ts <= ts2
    ensures TableOk(layout, t, seqNo2, ts2)
  {
    AllBelowMore(t.seqs, seqNo, seqNo2);
    AllAtMostMore(t.timestamps, ts, ts2);
  }

  /** Every non-`dt` column holds exactly one value per record. */
  predicate Aligned(layout: seq<Field>, t: Table)
    requires |t.columns| == |layout|
  {
    forall j | 0 <= j < |layout| && layout[j].store.Column? :: |t.columns[j]| == |t.seqs|
  }

  lemma AppendAbove(xs: seq<nat>, x: nat)
    requires Increasing(xs) && AllBelow(xs, x)
    ensures Increasing(xs + [x]) && AllBelow(xs + [x], x + 1)
  {
  }

  lemma AppendAtLeast(xs: seq<nat>, x: nat, bound: nat)
    requires NonDecreasing(xs) && AllAtMost(xs, x) && x <= bound
    ensures NonDecreasing(xs + [x]) && AllAtMost(xs + [x], bound)
  {
  }

  lemma AllBelowMore(xs: seq<nat>, a: nat, b: nat)
    requires AllBelow(xs, a) && a <= b
    ensures AllBelow(xs, b)
  {
  }

  lemma AllAtMostMore(xs: seq<nat>, a: nat, b: nat)
    requires AllAtMost(xs, a) && a <= b
    ensures AllAtMost(xs, b)
  {
  }

  /** Each column after a parse is in shape: it kept its old values and gained at most one
      value of its type, and one exactly when the parse completed. */
  lemma ParseKeepsColumn(layout: seq<Field>, j: nat, old_: seq<nat>, col: seq<nat>, n: nat, ok: bool)
    requires j < |layout| && ColumnOk(layout[j], old_, n)
    requires layout[j].store.Column? ==> |old_| == n
    requires |old_| <= |col| <= |old_| + 1 && col[..|old_|] == old_
    requires layout[j].store.Delta? ==> col == old_
    requires layout[j].store.Column? && |col| > |old_| ==> col[|old_|] < Pow2(layout[j].store.width)
    requires ok && layout[j].store.Column? ==> |col| == |old_| + 1
    ensures ColumnOk(layout[j], col, if ok then n + 1 else n)
    ensures ok && layout[j].store.Column? ==> |col| == n + 1
  {
    match layout[j].store
    case Delta =>
    case Column(w) =>
      forall m | 0 <= m < |col|
        ensures col[m] < Pow2(w)
      {
        if m < |old_| {
          assert col[m] == col[..|old_|][m];
        }
      }
  }

  /** A parse keeps the table in shape. It records under `seqNo` the timestamp it returns,
      which is at least the one it was given; a complete parse keeps the columns aligned. */
  lemma ParseKeepsTable(layout: seq<Field>, r: Reader, t: Table, seqNo: nat, ts: nat)
    requires WellFormed(layout) && Valid(r) && TableOk(layout, t, seqNo, ts) && Aligned(layout, t)
    ensures var p := ParseOutcome(layout, r, t, seqNo, ts);
      && p.timestamp >= ts
      && TableOk(layout, p.table, seqNo + 1, p.timestamp)
      && (p.ok ==> Aligned(layout, p.table) && p.table.seqs == t.seqs + [seqNo])
      && (!p.ok ==> p.table.seqs == t.seqs)
  {
    ParseRecords(layout, r, t, seqNo, ts);
    var p := ParseOutcome(layout, r, t, seqNo, ts);
    forall j | 0 <= j < |layout|
      ensures ColumnOk(layout[j], p.table.columns[j], |p.table.seqs|)
      ensures p.ok && layout[j].store.Column? ==> |p.table.columns[j]| == |p.table.seqs|
    {
      ParseKeepsColumn(layout, j, t.columns[j], p.table.columns[j], |t.seqs|, p.ok);
    }
    AllAtMostMore(t.timestamps, ts, p.timestamp);
    if p.ok {
      AppendAbove(t.seqs, seqNo);
      AppendAtLeast(t.timestamps, p.timestamp, p.timestamp);
    } else {
      AllBelowMore(t.seqs, seqNo, seqNo + 1);
    }
  }

  /** After a complete parse every column of a non-`dt` field has a last element. */
  lemma ParsedColumnNonEmpty(layout: seq<Field>, r: Reader, t: Table, seqNo: nat, ts: nat, j: nat)
    requires WellFormed(layout) && Valid(r) && |t.columns| == |layout|
    requires ParseOutcome(layout, r, t, seqNo, ts).ok && j < |layout| && layout[j].store.Column?
    ensures |ParseOutcome(layout, r, t, seqNo, ts).table.columns[j]| == |t.columns[j]| + 1
  {
    var f := ReadFields(layout, 0, r);
    assert Push(layout, t, f.values).columns[j] == t.columns[j] + [Stored(layout[j], f.values[j])];
  }

  /** The value of field `f` of the packet that starts at the reader's position. */
  function FieldValue(r: Reader, f: Field): nat
  {
    StreamBits(r.input, r.bitsConsumed + f.bottom, Width(f))
  }

  /** The values of all fields of the packet that starts at the reader's position. */
  function PacketFields(layout: seq<Field>, r: Reader): (vs: seq<nat>)
    ensures |vs| == |layout|
  {
    seq(|layout|, j requires 0 <= j < |layout| => FieldValue(r, layout[j]))
  }

  /** The consume of a field that needs one succeeds once the field before it was read. */
  lemma ConsumeSucceeds(layout: seq<Field>, i: nat, r: Reader)
    requires WellFormed(layout) && 0 < i < |layout| && Valid(r) && ConsumesBefore(layout, i)
    requires layout[i - 1].top + 1 - LastConsume(layout, i) <= 64 - r.bitsConsumed
    ensures layout[i].bottom + r.bitsConsumed <= 8 * |r.input| + LastConsume(layout, i)
  {
    WellFormedField(layout, i);
    WellFormedField(layout, i - 1);
  }

  lemma AdvancesTrans(r0: Reader, r1: Reader, r2: Reader, m: nat, n: nat)
    requires Advances(r0, r1, m) && Advances(r1, r2, n)
    ensures Advances(r0, r2, m + n)
  {
    SuffixTrans(r2.input, r1.input, r0.input);
  }

  lemma AdvancesRefl(r: Reader)
    ensures Advances(r, r, 0)
  {
  }

  /** The reader a field is read from, started from the packet start `r0`, has advanced
      to that field's consume point and is windowed. */
  lemma ReaderForAdvances(layout: seq<Field>, i: nat, r0: Reader, r: Reader)
    requires WellFormed(layout) && i < |layout| && Valid(r) && Windowed(r)
    requires Advances(r0, r, LastConsume(layout, i))
    requires 0 < i ==> layout[i - 1].top + 1 - LastConsume(layout, i) <= 64 - r.bitsConsumed
    ensures Windowed(ReaderFor(layout, i, r)) && Advances(r0, ReaderFor(layout, i, r), LastConsume(layout, i + 1))
  {
    var f, r1, lc0 := layout[i], ReaderFor(layout, i, r), LastConsume(layout, i);
    WellFormedField(layout, i);
    if ConsumesBefore(layout, i) {
      ConsumeSucceeds(layout, i, r);
      ConsumeAdvances(r, f.bottom - lc0);
      AdvancesTrans(r0, r, r1, lc0, f.bottom - lc0);
    }
  }

  /** Reading field `i` there reads that field of the packet, and the field read lies inside
      the window. */
  lemma ReadFieldReadsStream(layout: seq<Field>, i: nat, r0: Reader, r: Reader)
    requires WellFormed(layout) && i < |layout| && Valid(r) && Windowed(r)
    requires Advances(r0, r, LastConsume(layout, i))
    requires 0 < i ==> layout[i - 1].top + 1 - LastConsume(layout, i) <= 64 - r.bitsConsumed
    requires ReadField(layout, i, r).Some?
    ensures ReadField(layout, i, r).value == FieldValue(r0, layout[i])
    ensures layout[i].top + 1 - LastConsume(layout, i + 1) <= 64 - ReaderFor(layout, i, r).bitsConsumed
  {
    var f, r1, lc := layout[i], ReaderFor(layout, i, r), LastConsume(layout, i + 1);
    WellFormedField(layout, i);
    ReaderForAdvances(layout, i, r0, r);
    PeekReadsStream(r1, f.bottom - lc, Width(f));
    AdvancesShiftsStream(r0, r1, lc, f.bottom - lc, Width(f));
  }

  /** After field `i` was read, the reader the remaining fields are read from again meets
      the conditions of `ReadFieldsReadStream`. */
  lemma StreamStep(layout: seq<Field>, i: nat, r0: Reader, r: Reader)
    requires WellFormed(layout) && i < |layout| && Valid(r) && Windowed(r)
    requires Advances(r0, r, LastConsume(layout, i))
    requires 0 < i ==> layout[i - 1].top + 1 - LastConsume(layout, i) <= 64 - r.bitsConsumed
    requires ReadField(layout, i, r).Some?
    ensures ReadField(layout, i, r).value == PacketFields(layout, r0)[i]
    ensures var r1 := ReaderFor(layout, i, r);
      && Valid(r1) && Windowed(r1) && Advances(r0, r1, LastConsume(layout, i + 1))
      && layout[(i + 1) - 1].top + 1 - LastConsume(layout, i + 1) <= 64 - r1.bitsConsumed
  {
    ReaderForAdvances(layout, i, r0, r);
    ReadFieldReadsStream(layout, i, r0, r);
  }

  lemma ValuesShift(pf: seq<nat>, i: nat, v: nat, rest: seq<nat>)
    requires i + 1 + |rest| <= |pf| && v == pf[i] && rest == pf[i + 1..i + 1 + |rest|]
    ensures [v] + rest == pf[i..i + 1 + |rest|]
  {
  }

  /** Reading fields `i..` from a windowed reader that has advanced from the packet start
      `r0` to the consume point of field `i` reads the packet's own fields. */
  lemma {:induction false} ReadFieldsReadStream(layout: seq<Field>, i: nat, r0: Reader, r: Reader)
    requires WellFormed(layout) && i <= |layout| && Valid(r) && Windowed(r)
    requires Advances(r0, r, LastConsume(layout, i))
    requires 0 < i ==> layout[i - 1].top + 1 - LastConsume(layout, i) <= 64 - r.bitsConsumed
    ensures var vs := ReadFields(layout, i, r).values;
      vs == PacketFields(layout, r0)[i..i + |vs|]
    decreases |layout| - i
  {
    if i < |layout| && ReadField(layout, i, r).Some? {
      var r1 := ReaderFor(layout, i, r);
      StreamStep(layout, i, r0, r);
      ReadFieldsReadStream(layout, i + 1, r0, r1);
      ReadFieldsStep(layout, i, r);
      ValuesShift(PacketFields(layout, r0), i, ReadField(layout, i, r).value, ReadFields(layout, i + 1, r1).values);
    } else if i < |layout| {
      ReadFieldsStep(layout, i, r);
    }
  }

  /** From a windowed reader at the start of a packet the fields read are a prefix of
      the packet's fields. */
  lemma ReadFieldsPrefix(layout: seq<Field>, r: Reader)
    requires WellFormed(layout) && Valid(r) && Windowed(r)
    ensures var vs := ReadFields(layout, 0, r).values;
      vs == PacketFields(layout, r)[..|vs|]
  {
    AdvancesRefl(r);
    assert LastConsume(layout, 0) == 0;
    ReadFieldsReadStream(layout, 0, r, r);
  }

  /** A packet field no wider than its column's type is stored unchanged. */
  lemma StoredFits(layout: seq<Field>, r: Reader, j: nat)
    requires j < |layout| && layout[j].store.Column? && Width(layout[j]) <= layout[j].store.width
    ensures Stored(layout[j], PacketFields(layout, r)[j]) == PacketFields(layout, r)[j]
  {
    LowKeepsNarrow(PacketFields(layout, r)[j], Width(layout[j]), layout[j].store.width);
  }

  /** Pushing the values of two column fields that are stored unchanged. */
  lemma PushTwo(layout: seq<Field>, t: Table, values: seq<nat>)
    requires |layout| == |t.columns| == |values| == 2
    requires layout[0].store.Column? && layout[1].store.Column?
    requires Stored(layout[0], values[0]) == values[0] && Stored(layout[1], values[1]) == values[1]
    ensures Push(layout, t, values).columns == [t.columns[0] + [values[0]], t.columns[1] + [values[1]]]
  {
  }

  /** Values read for fields none of which is a `dt` field add nothing to the timestamp. */
  lemma {:induction false} DeltaTotalNoDelta(layout: seq<Field>, values: seq<nat>)
    requires |values| <= |layout|
    requires forall j :: 0 <= j < |values| ==> layout[j].store.Column?
    ensures DeltaTotal(layout, values) == 0
  {
    if |values| > 0 {
      DeltaTotalNoDelta(layout, values[..|values| - 1]);
    }
  }

  /** A parse from a windowed reader at the start of a packet reads a prefix of the
      packet's fields, and all of them when it succeeds: each column then gains its
      field's value cast to its type, and the timestamp grows by the sum of the `dt` fields. */
  lemma ParseReadsPacket(layout: seq<Field>, r: Reader, t: Table, seqNo: nat, ts: nat)
    requires WellFormed(layout) && Valid(r) && Windowed(r) && |t.columns| == |layout|
    ensures var p := ParseOutcome(layout, r, t, seqNo, ts);
      p.ok ==>
        && p.timestamp == ts + DeltaTotal(layout, PacketFields(layout, r))
        && p.table == Push(layout, t, PacketFields(layout, r)).(seqs := t.seqs + [seqNo], timestamps := t.timestamps + [p.timestamp])
  {
    ReadFieldsPrefix(layout, r);
    var f := ReadFields(layout, 0, r);
    if f.ok {
      assert f.values == PacketFields(layout, r);
      ParseCompletes(layout, r, t, seqNo, ts, f.values, f.reader);
    }
  }

  /** One step of `ReadFields`: field `i` is read and either ends the parse or is
      followed by the rest. */
  lemma ReadFieldsStep(layout: seq<Field>, i: nat, r: Reader)
    requires WellFormed(layout) && i < |layout| && Valid(r)
    ensures ReadField(layout, i, r).None? ==> ReadFields(layout, i, r) == Fields(false, [], ReaderFor(layout, i, r))
    ensures ReadField(layout, i, r).Some? ==>
      var rest := ReadFields(layout, i + 1, ReaderFor(layout, i, r));
      ReadFields(layout, i, r) == Fields(rest.ok, [ReadField(layout, i, r).value] + rest.values, rest.reader)
  {
  }

  /** How `parse` obtains field `i` with `last_consume` at `lc`: it consumes exactly when
      the field's top bit lies more than 60 bits past `lc`, and then peeks the field
      relative to the new `last_consume`. */
  lemma FieldPlan(layout: seq<Field>, i: nat, r: Reader)
    requires WellFormed(layout) && i < |layout| && Valid(r)
    ensures var f, lc, next := layout[i], LastConsume(layout, i), LastConsume(layout, i + 1);
      && lc <= f.bottom <= f.top && next <= f.bottom
      && (f.top - lc > 60 ==>
            && ConsumesBefore(layout, i) && f.bottom - lc <= 96 && next == f.bottom
            && ReaderFor(layout, i, r) == Consumed(r, f.bottom - lc))
      && (f.top - lc <= 60 ==> next == lc && ReaderFor(layout, i, r) == r)
      && f.bottom - next + (f.top + 1 - f.bottom) <= 60 && f.top + 1 - f.bottom >= 1
      && ReadField(layout, i, r) == Peek(ReaderFor(layout, i, r), f.bottom - next, f.top + 1 - f.bottom)
  {
    WellFormedField(layout, i);
  }

  /** `all` is what reading the whole packet gives, when `values` were read before field `i`
      and `r` is the reader field `i` starts from. */
  predicate Continues(layout: seq<Field>, i: nat, r: Reader, values: seq<nat>, all: Fields)
    requires WellFormed(layout) && i <= |layout| && Valid(r)
  {
    var rest := ReadFields(layout, i, r);
    all == Fields(rest.ok, values + rest.values, rest.reader)
  }

  /** A failed peek of field `i` ends the fields read with those read before it. */
  lemma ReadFieldsStops(layout: seq<Field>, i: nat, r: Reader, values: seq<nat>, all: Fields)
    requires WellFormed(layout) && i < |layout| && Valid(r) && ReadField(layout, i, r).None?
    requires Continues(layout, i, r, values, all)
    ensures all == Fields(false, values, ReaderFor(layout, i, r))
  {
    ReadFieldsStep(layout, i, r);
  }

  /** A successful peek of field `i` adds its value to those read before it. */
  lemma ReadFieldsGoesOn(layout: seq<Field>, i: nat, r: Reader, values: seq<nat>, all: Fields)
    requires WellFormed(layout) && i < |layout| && Valid(r) && ReadField(layout, i, r).Some?
    requires Continues(layout, i, r, values, all)
    ensures Continues(layout, i + 1, ReaderFor(layout, i, r), values + [ReadField(layout, i, r).value], all)
  {
    ReadFieldsStep(layout, i, r);
    var rest := ReadFields(layout, i + 1, ReaderFor(layout, i, r));
    assert (values + [ReadField(layout, i, r).value]) + rest.values == values + ([ReadField(layout, i, r).value] + rest.values);
  }

  /** Pushing one more value is recording it on top of the earlier pushes. */
  lemma PushSnoc(layout: seq<Field>, t: Table, values: seq<nat>, v: nat)
    requires |t.columns| == |layout| && |values| < |layout|
    ensures Push(layout, t, values + [v]) == Record(layout, |values|, Push(layout, t, values), v)
    ensures DeltaTotal(layout, values + [v]) == DeltaTotal(layout, values) + (if layout[|values|].store.Delta? then v else 0)
  {
    assert (values + [v])[..|values|] == values;
    var a, b := Push(layout, t, values + [v]), Record(layout, |values|, Push(layout, t, values), v);
    assert a.columns == b.columns;
  }

  /** Establishes `WellFormedFrom(layout, 0)` by checking the fields one at a time. */
  lemma {:induction false} CheckLayout(layout: seq<Field>, n: nat)
    requires n == |layout|
    requires forall i | 0 <= i < n :: FieldOk(layout, i)
    ensures WellFormed(layout)
  {
    var i := n;
    while i > 0
      invariant 0 <= i <= n && WellFormedFrom(layout, i)
    {
      i := i - 1;
      assert FieldOk(layout, i);
    }
  }

  /** LongTimestamp consumes the 16 bits below `[63:16]` before reading it. */
  lemma LongTimestampWellFormed()
    ensures WellFormed(Layout(LongTimestamp))
  {
    var l := Layout(LongTimestamp);
    assert LastConsume(l, 1) == 0;
    assert FieldOk(l, 0);
    assert ConsumesBefore(l, 1);
    assert FieldOk(l, 1);
    CheckLayout(l, 2);
  }

  /** RegWrite consumes the 32 bits below `[63:32]` before reading it. */
  lemma RegWriteWellFormed()
    ensures WellFormed(Layout(RegWrite))
  {
    var l := Layout(RegWrite);
    assert LastConsume(l, 1) == 0;
    assert LastConsume(l, 2) == 0;
    assert LastConsume(l, 3) == 0;
    assert LastConsume(l, 4) == 0;
    assert LastConsume(l, 5) == 0;
    assert LastConsume(l, 6) == 0;
    assert ConsumesBefore(l, 6);
    assert forall i | 0 <= i < 7 :: FieldOk(l, i);
    CheckLayout(l, 7);
  }

  /** The layouts of five fields or more, none of which consumes. */
  lemma WideLayoutsWellFormed(k: Kind)
    requires k.EventA? || k.EventB? || k.Initiator? || k.WaveStart? || k.WaveAllocEnd?
    ensures WellFormed(Layout(k))
  {
    match k
    case EventA => CheckLayout(Layout(k), 5);
    case EventB => CheckLayout(Layout(k), 6);
    case Initiator => CheckLayout(Layout(k), 5);
    case WaveStart => CheckLayout(Layout(k), 7);
    case WaveAllocEnd => CheckLayout(Layout(k), 6);
  }

  /** The layouts of at most four fields, none of which consumes. */
  lemma NarrowLayoutsWellFormed(k: Kind)
    requires |Layout(k)| <= 4
    ensures WellFormed(Layout(k))
  {
    match k
    case Packet0x21 => CheckLayout(Layout(k), 1);
    case Packet0x31 => CheckLayout(Layout(k), 1);
    case Packet0x41 => CheckLayout(Layout(k), 1);
    case Packet0x51 => CheckLayout(Layout(k), 1);
    case LongTimestamp => LongTimestampWellFormed();
    case GenericInst => CheckLayout(Layout(k), 4);
    case ValuInst => CheckLayout(Layout(k), 3);
    case Immediate => CheckLayout(Layout(k), 2);
    case ImmediateOne => CheckLayout(Layout(k), 2);
    case ShortTimestamp => CheckLayout(Layout(k), 1);
    case Packet0x6 => CheckLayout(Layout(k), 1);
    case Packet0xe => CheckLayout(Layout(k), 1);
    case Packet0xf => CheckLayout(Layout(k), 1);
  }

  /** Every declared layout obeys the look-ahead rule, so the assert in `bits` never fires:
      LongTimestamp consumes 16 bits before `[63:16]`, RegWrite 32 bits before `[63:32]`,
      and every other field lies within 60 bits of the packet start. */
  lemma LayoutsWellFormed(k: Kind)
    ensures WellFormed(Layout(k))
  {
    if k.RegWrite? {
      RegWriteWellFormed();
    } else if k.EventA? || k.EventB? || k.Initiator? || k.WaveStart? || k.WaveAllocEnd? {
      WideLayoutsWellFormed(k);
    } else {
      NarrowLayoutsWellFormed(k);
    }
  }

  /** The two consumes that occur: LongTimestamp consumes 16 bits before `[63:16]` and
      RegWrite 32 bits before `[63:32]`; no other field of any layout consumes. */
  lemma LayoutConsumes(k: Kind, i: nat)
    requires i < |Layout(k)|
    ensures ConsumesBefore(Layout(k), i) <==> (k == LongTimestamp && i == 1) || (k == RegWrite && i == 6)
    ensures ConsumesBefore(Layout(k), i) ==> LastConsume(Layout(k), i + 1) == Layout(k)[i].bottom
  {
  }

  /** A parse whose peeks stopped early: the fields read so far stay pushed, no `seq`
      or `timestamp` entry is pushed. */
  lemma {:induction false} ParseStops(layout: seq<Field>, r: Reader, t: Table, seqNo: nat, ts: nat, values: seq<nat>, r1: Reader)
    requires WellFormed(layout) && Valid(r) && |t.columns| == |layout|
    requires ReadFields(layout, 0, r) == Fields(false, values, r1)
    ensures ParseOutcome(layout, r, t, seqNo, ts)
         == Parsed(false, Push(layout, t, values), ts + DeltaTotal(layout, values), r1)
  {
  }

  /** A parse that read every field pushes one `seq` and one `timestamp` entry. */
  lemma {:induction false} ParseCompletes(layout: seq<Field>, r: Reader, t: Table, seqNo: nat, ts: nat, values: seq<nat>, r1: Reader)
    requires WellFormed(layout) && Valid(r) && |t.columns| == |layout|
    requires ReadFields(layout, 0, r) == Fields(true, values, r1)
    ensures var t1, ts1 := Push(layout, t, values), ts + DeltaTotal(layout, values);
      ParseOutcome(layout, r, t, seqNo, ts)
      == Parsed(true, t1.(seqs := t1.seqs + [seqNo], timestamps := t1.timestamps + [ts1]), ts1, r1)
  {
  }

  // ---------------------------------------------------------------------------
  // The imperative packet struct

  /** A packet struct of the source: its columns are vectors that `Parse` pushes onto. */
  class PacketTable {
    const kind: Kind
    const layout: seq<Field>
    var seqs: seq<nat>
    var timestamps: seq<nat>
    var columns: seq<seq<nat>>

    function Value(): Table
      reads this
    {
      Table(seqs, timestamps, columns)
    }

    /** `#[derive(Default)]`: all columns empty. */
    constructor (k: Kind)
      ensures kind == k && layout == Layout(k) && Value() == EmptyTable(k)
    {
      kind := k;
      layout := Layout(k);
      seqs := [];
      timestamps := [];
      columns := seq(|Layout(k)|, _ => []);
    }

    /** The macro-generated `parse`: reads the fields in order from `reader`, pushing each
        value the moment it is read; `timestamp` is the `&mut u64` passed in, `ts` its
        final value. Only a parse that read every field pushes `seq` and `timestamp`. */
    method Parse(reader: BitReader, seqNo: nat, timestamp: nat) returns (ok: bool, ts: nat)
      requires WellFormed(layout) && Valid(reader.State()) && |columns| == |layout|
      modifies this, reader
      ensures var p := ParseOutcome(layout, old(reader.State()), old(Value()), seqNo, timestamp);
        ok == p.ok && Value() == p.table && ts == p.timestamp && reader.State() == p.reader
    {
      ghost var r0, t0 := reader.State(), Value();
      ok, ts := ParseFields(reader, timestamp);
      ghost var f := ReadFields(layout, 0, r0);
      ghost var t1 := Value();
      if ok {
        seqs := seqs + [seqNo];
        timestamps := timestamps + [ts];
        assert Value() == t1.(seqs := t1.seqs + [seqNo], timestamps := t1.timestamps + [ts]);
        ParseCompletes(layout, r0, t0, seqNo, timestamp, f.values, f.reader);
      } else {
        ParseStops(layout, r0, t0, seqNo, timestamp, f.values, f.reader);
      }
    }

    /** The field statements of `parse`, up to its first failed peek: `complete` when
        every field was read. */
    method ParseFields(reader: BitReader, timestamp: nat) returns (complete: bool, ts: nat)
      requires WellFormed(layout) && Valid(reader.State()) && |columns| == |layout|
      modifies this, reader
      ensures var f := ReadFields(layout, 0, old(reader.State()));
        && complete == f.ok && reader.State() == f.reader
        && Value() == Push(layout, old(Value()), f.values)
        && ts == timestamp + DeltaTotal(layout, f.values)
    {
      ghost var r0 := reader.State();
      ghost var all := ReadFields(layout, 0, r0);
      assert Continues(layout, 0, r0, [], all) by {
        assert [] + all.values == all.values;
      }
      ghost var t0 := Value();
      ghost var values: seq<nat> := [];
      var lastConsume := 0;
      ts := timestamp;
      var i := 0;
      while i < |layout|
        invariant 0 <= i <= |layout| && lastConsume == LastConsume(layout, i) && |values| == i
        invariant Valid(reader.State()) && Continues(layout, i, reader.State(), values, all)
        invariant Value() == Push(layout, t0, values) && ts == timestamp + DeltaTotal(layout, values)
        decreases |layout| - i
      {
        ghost var r := reader.State();
        var v;
        v, lastConsume := ReadNext(reader, i, lastConsume);
        if v.None? {
          ReadFieldsStops(layout, i, r, values, all);
          return false, ts;
        }
        ReadFieldsGoesOn(layout, i, r, values, all);
        PushSnoc(layout, t0, values, v.value);
        ts := Store(i, v.value, ts);
        values := values + [v.value];
        i := i + 1;
      }
      assert all.values == values by {
        assert values + ReadFields(layout, i, reader.State()).values == values;
      }
      complete := true;
    }

    /** The second statement the macro emits for field `i`: a `dt` value is added into
        the timestamp, any other value is cast to its type and pushed onto its column. */
    method Store(i: nat, v: nat, ts: nat) returns (ts2: nat)
      requires i < |layout| == |columns|
      modifies this
      ensures Value() == Record(layout, i, old(Value()), v)
      ensures ts2 == ts + (if layout[i].store.Delta? then v else 0)
    {
      ts2 := ts;
      match layout[i].store {
        case Delta =>
          ts2 := ts + v;
        case Column(w) =>
          columns := columns[i := columns[i] + [Low(v, w)]];
      }
    }

    /** The consume and the peek the macro emits for field `i`: consume up to the field's
        low bit when its top bit is more than 60 bits past the last consume, then peek. */
    method ReadNext(reader: BitReader, i: nat, lastConsume: nat) returns (v: Option<nat>, next: nat)
      requires WellFormed(layout) && i < |layout| && lastConsume == LastConsume(layout, i)
      requires Valid(reader.State())
      modifies reader
      ensures v == ReadField(layout, i, old(reader.State()))
      ensures reader.State() == ReaderFor(layout, i, old(reader.State()))
      ensures next == LastConsume(layout, i + 1)
    {
      ghost var r0 := reader.State();
      FieldPlan(layout, i, r0);
      var f := layout[i];
      next := lastConsume;
      if f.top - next > 60 {
        var _ := reader.Consume(f.bottom - next);
        next := f.bottom;
      }
      assert reader.State() == ReaderFor(layout, i, r0);
      v := reader.Bits(f.bottom - next, f.top + 1 - f.bottom);
    }
  }
}
