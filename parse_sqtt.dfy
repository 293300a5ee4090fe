/** The in-place `parse_sqtt`: a `BitReader` that consumes packet after packet, a clone of
    it for each packet's parse, and an `SqttChunk` whose tables the parses push onto. The
    method is proved to compute the corrected `Decode`. */
module SqttParse {
  import opened Wrappers
  import opened BitArith
  import opened SqttReader
  import opened SqttLength
  import opened SqttPackets
  import opened SqttDecode

  /** `SqttChunk`: one packet struct per kind. Each table knows its kind, so no two
      kinds share a table. */
  class SqttChunk {
    const tables: map<Kind, PacketTable>

    predicate Valid()
      reads this, tables.Values
    {
      forall k: Kind :: k in tables && tables[k].kind == k && tables[k].layout == Layout(k) && |tables[k].columns| == |Layout(k)|
    }

    /** The columns of every table. */
    function Value(): (c: Chunk)
      requires Valid()
      reads this, tables.Values
      ensures Shaped(c)
      ensures forall k: Kind :: c[k] == tables[k].Value()
    {
      map k | k in tables :: tables[k].Value()
    }

    /** `SqttChunk::default()`: a fresh, empty table for every kind. */
    constructor ()
      ensures Valid() && Value() == EmptyChunk() && fresh(tables.Values)
    {
      var m := NewTables(AllKinds);
      tables := m;
      forall k: Kind
        ensures k in m
      {
        AllKindsListed(k);
      }
      new;
      SameTables(Value(), EmptyChunk());
    }

    /** `self.<kind>.parse(&mut subreader, seq, &mut timestamp)`: the table of kind `k`
        is parsed from `sub` and every other table stays as it was. */
    method ParseTable(k: Kind, sub: BitReader, seqNo: nat, ts: nat) returns (ok: bool, ts2: nat)
      requires Valid() && SqttReader.Valid(sub.State())
      modifies tables[k], sub
      ensures Valid() && WellFormed(Layout(k))
      ensures var p := ParseOutcome(Layout(k), old(sub.State()), old(Value())[k], seqNo, ts);
        && ok == p.ok && ts2 == p.timestamp && sub.State() == p.reader
        && Value() == old(Value())[k := p.table]
    {
      LayoutsWellFormed(k);
      ghost var c0 := Value();
      var t := tables[k];
      ok, ts2 := t.Parse(sub, seqNo, ts);
      assert Valid();
      assert forall k2: Kind | k2 != k :: tables[k2].Value() == c0[k2] by {
        forall k2: Kind | k2 != k
          ensures tables[k2].Value() == c0[k2]
        {
          assert tables[k2].kind != t.kind;
        }
      }
      UpdatedAt(Value(), c0, k, t.Value());
    }

    /** The `match` on the selector and the timestamp adjustment after it, on the
        tables in place: the table of the dispatched kind is parsed from `sub`, every
        other table stays as it was, and `ts2` is the adjusted timestamp. A
        LongTimestamp adds its value only after a complete parse. */
    method ParsePacket(selector: byte, sub: BitReader, seqNo: nat, ts: nat) returns (ok: bool, ts2: nat)
      requires Valid()
      requires SqttReader.Valid(sub.State()) && Peek(sub.State(), 0, 8).Some?
      modifies tables.Values, sub
      ensures Valid()
      ensures Arm(ok, Some(ts2), Value()) == DispatchArm(selector, old(sub.State()), old(Value()), seqNo, ts)
    {
      var kind := Dispatch(selector);
      if kind.None? {
        return true, ts;
      }
      var k := kind.value;
      ghost var r0, c0 := sub.State(), Value();
      AdjustReady(k, r0, c0[k], seqNo, ts);
      ok, ts2 := ParseTable(k, sub, seqNo, ts);
      ts2 := AdjustTimestamp(k, tables[k], ok, ts2, sub.State());
    }
  }

  /** Two chunks with the same table for every kind are equal. */
  lemma SameTables(c: Chunk, c2: Chunk)
    requires Shaped(c) && Shaped(c2) && forall k: Kind :: c[k] == c2[k]
    ensures c == c2
  {
  }

  /** A chunk that differs from `c` at most at `k`, where it holds `t`, is `c[k := t]`. */
  lemma UpdatedAt(c2: Chunk, c: Chunk, k: Kind, t: Table)
    requires Shaped(c2) && Shaped(c) && c2[k] == t
    requires forall k2: Kind | k2 != k :: c2[k2] == c[k2]
    ensures c2 == c[k := t]
  {
  }

  /** A fresh, empty table for each kind of `kinds`. */
  method NewTables(kinds: seq<Kind>) returns (m: map<Kind, PacketTable>)
    ensures forall k | k in kinds :: k in m
    ensures forall k: Kind | k in m :: m[k].kind == k && m[k].layout == Layout(k) && m[k].Value() == EmptyTable(k)
    ensures fresh(m.Values)
  {
    m := map[];
    var i := 0;
    while i < |kinds|
      invariant 0 <= i <= |kinds|
      invariant forall j | 0 <= j < i :: kinds[j] in m
      invariant forall k: Kind | k in m :: m[k].kind == k && m[k].layout == Layout(k) && m[k].Value() == EmptyTable(k)
      invariant fresh(m.Values)
    {
      var t := new PacketTable(kinds[i]);
      ghost var before := m;
      m := m[kinds[i] := t];
      assert m.Values <= before.Values + {t};
      i := i + 1;
    }
  }

  /** The adjustment after the parse of a table of kind `k` that passed or failed (`ok`)
      and left the timestamp `ts`: a LongTimestamp with `ty == 1` adds its
      `timestamp_value` when the parse was complete; a ShortTimestamp adds `dt_4 + 4`. */
  method AdjustTimestamp(k: Kind, t: PacketTable, ok: bool, ts: nat, ghost r: Reader) returns (ts2: nat)
    requires |t.columns| == |Layout(k)|
    requires Adjust(Corrected, k, Parsed(ok, t.Value(), ts, r)).Some?
    ensures Some(ts2) == Adjust(Corrected, k, Parsed(ok, t.Value(), ts, r))
  {
    ts2 := ts;
    if k == LongTimestamp {
      if ok {
        var ty := t.columns[LongTimestampTy];
        if ty[|ty| - 1] == 1 {
          var value := t.columns[LongTimestampValue];
          ts2 := ts + value[|value| - 1];
        }
      }
    } else if k == ShortTimestamp {
      var dt4 := t.columns[ShortTimestampDt4];
      ts2 := ts + dt4[|dt4| - 1] + 4;
    }
  }

  /** `parse_sqtt(i)`, with the LongTimestamp adjustment made only after a complete
      parse: it computes the corrected `Decode`, and a successful result is the chunk. */
  method ParseSqtt(input: seq<byte>) returns (out: Outcome, result: SqttChunk)
    requires |input| >= 8
    ensures out == Decode(Corrected, input)
    ensures out.Ok? ==> result.Valid() && result.Value() == out.chunk
  {
    var reader := new BitReader(input);
    var seqNo := 0;
    var timestamp := 0;
    var lengths := LengthTable();
    result := new SqttChunk();
    while true
      invariant fresh(reader) && fresh(result.tables.Values)
      invariant result.Valid() && Valid(reader.State())
      invariant DecodeLoop(Corrected, Loop(reader.State(), seqNo, timestamp, result.Value())) == Decode(Corrected, input)
      decreases Remaining(reader.State())
    {
      ghost var s := Loop(reader.State(), seqNo, timestamp, result.Value());
      var stop, ts := Iterate(reader, result, lengths, seqNo, timestamp);
      if stop.Some? {
        DecodeLoopDone(Corrected, s);
        return stop.value, result;
      }
      DecodeLoopNext(Corrected, s);
      StepShrinks(Corrected, s);
      seqNo := seqNo + 1;
      timestamp := ts;
    }
  }

  /** One iteration of the loop of `parse_sqtt`: peek the selector, look its length up,
      parse the packet from a clone of the reader while the reader consumes it. It ends
      the loop with the outcome `stop`, or goes on with `seq + 1` and the timestamp `ts`. */
  method Iterate(reader: BitReader, result: SqttChunk, lengths: seq<Option<nat>>, seqNo: nat, timestamp: nat)
    returns (stop: Option<Outcome>, ts: nat)
    requires lengths == LengthTable()
    requires result.Valid() && Valid(reader.State())
    modifies reader, result.tables.Values
    ensures result.Valid() && Valid(reader.State())
    ensures PacketStep(Corrected, Loop(old(reader.State()), seqNo, timestamp, old(result.Value())))
      == match stop
         case Some(out) => Done(out)
         case None => Next(Loop(reader.State(), seqNo + 1, ts, result.Value()))
    ensures stop.Some? && stop.value.Ok? ==> stop.value.chunk == result.Value()
  {
    ghost var s := Loop(reader.State(), seqNo, timestamp, result.Value());
    var selector := reader.Bits(0, 8);
    if selector.None? {
      StepAtEnd(s);
      var low := reader.Bits(0, 4);
      if low.None? || low.value == 0 {
        return Some(Ok(result.Value())), timestamp;
      }
      return Some(UnknownPacket(low.value)), timestamp;
    }
    var pktLen := lengths[selector.value];
    if pktLen.None? {
      StepUnknown(s, selector.value);
      return Some(UnknownPacket(selector.value)), timestamp;
    }
    var len := pktLen.value;
    assert selector.value % 16 != 7 && len == KnownLength(selector.value);
    var ok, advance;
    ok, advance, ts := ConsumePacket(reader, result, selector.value, len, seqNo, timestamp);
    ghost var c := result.Value();
    assert DispatchArm(selector.value, s.reader, s.chunk, seqNo, timestamp) == Arm(ok, Some(ts), c);
    StepOfDispatch(s, selector.value, ok, ts, c);
    if !ok || !advance {
      return Some(Ok(result.Value())), ts;
    }
    stop := None;
  }

  /** The rest of an iteration once the selector is known to have `len` bits: the reader
      consumes the packet (`advance` telling whether it could) while the dispatch parses
      it from a clone taken before. */
  method ConsumePacket(reader: BitReader, result: SqttChunk, selector: byte, len: nat, seqNo: nat, timestamp: nat)
    returns (ok: bool, advance: bool, ts: nat)
    requires result.Valid() && Valid(reader.State()) && 0 < len <= 96
    requires Peek(reader.State(), 0, 8).Some?
    modifies reader, result.tables.Values
    ensures result.Valid()
    ensures advance == AfterConsume(old(reader.State()), len).Some? && reader.State() == Consumed(old(reader.State()), len)
    ensures Arm(ok, Some(ts), result.Value()) == DispatchArm(selector, old(reader.State()), old(result.Value()), seqNo, timestamp)
  {
    var sub := new BitReader.Clone(reader);
    advance := reader.Consume(len);
    ok, ts := result.ParsePacket(selector, sub, seqNo, timestamp);
  }
}
