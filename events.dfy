/** The body of `get_events`: the userdata dwords written to the two thread-trace
    userdata registers are gathered into a buffer until the number of dwords its header
    declares is reached, which emits one event carrying the marker's API type; a
    thread-trace marker initiator drops an incomplete buffer. The rows come from the
    `reg_write` and `initiator` tables of the first chunk, in the order of a merged
    iteration over their `seq` columns. */
module Events {
  import opened Wrappers
  import opened BitArith
  import opened SqttPackets
  import opened SqttDecode
  import opened Userdata

  /** The register offsets of `SQ_THREAD_TRACE_USERDATA_2` and `_3`, in dwords. */
  const UserdataReg2: nat := 0x030D08 / 4
  const UserdataReg3: nat := 0x030D0C / 4
  /** The low 20 bits of the `val` of an initiator that marks a thread-trace marker. */
  const ThreadTraceMarker: nat := 53

  /** An event of the response; `start` and `end` are always zero. */
  datatype Event = Event(eventType: nat, start: nat, end: nat)

  /** An item of the merged iteration: row `index` of `reg_write` when `kind` is 0, of
      `initiator` when it is 1. */
  datatype MergedItem = MergedItem(kind: nat, index: nat)

  /** The columns of a merged row that the loop reads. */
  datatype Row = RegWriteRow(reg: nat, val: u32) | InitiatorRow(initiatorType: nat, initiatorVal: nat)

  /** The loop variables `userdata_buf` and `events`. */
  datatype Markers = Markers(buf: seq<u32>, events: seq<Event>)

  predicate IsUserdataWrite(row: Row)
  {
    row.RegWriteRow? && (row.reg == UserdataReg2 || row.reg == UserdataReg3)
  }

  predicate IsResync(row: Row)
  {
    row.InitiatorRow? && row.initiatorType == 0 && row.initiatorVal % 0x10_0000 == ThreadTraceMarker
  }

  /** One iteration: a userdata write appends its dword and, when the buffer is as long
      as its header declares, emits the event and empties the buffer (`new` cannot fail
      there); a marker initiator empties a non-empty buffer; every other row is
      skipped. */
  function Feed(m: Markers, row: Row): Markers
  {
    match row
    case RegWriteRow(reg, val) =>
      if reg == UserdataReg2 || reg == UserdataReg3 then
        var buf := m.buf + [val];
        if Len(buf[0]) == |buf| then Markers([], m.events + [Event(New(buf).value.ApiType(), 0, 0)])
        else Markers(buf, m.events)
      else m
    case InitiatorRow(initiatorType, val) =>
      if initiatorType == 0 && val % 0x10_0000 == ThreadTraceMarker && |m.buf| > 0 then Markers([], m.events)
      else m
  }

  /** The loop over `rows` from the loop variables `m`. */
  function Run(m: Markers, rows: seq<Row>): Markers
    decreases |rows|
  {
    if |rows| == 0 then m else Feed(Run(m, rows[..|rows| - 1]), rows[|rows| - 1])
  }

  /** The loop from an empty buffer and no events. */
  function Reassemble(rows: seq<Row>): Markers
  {
    Run(Markers([], []), rows)
  }

  /** One more row is one more iteration. */
  lemma ReassembleSnoc(rows: seq<Row>, n: nat)
    requires n < |rows|
    ensures Reassemble(rows[..n + 1]) == Feed(Reassemble(rows[..n]), rows[n])
  {
    assert rows[..n + 1][..n] == rows[..n];
  }

  // ---------------------------------------------------------------------------
  // What the loop does

  /** The number of userdata-register writes among `rows`. */
  function Writes(rows: seq<Row>): nat
    decreases |rows|
  {
    if |rows| == 0 then 0
    else Writes(rows[..|rows| - 1]) + (if IsUserdataWrite(rows[|rows| - 1]) then 1 else 0)
  }

  /** The dwords written to the userdata registers among `rows`, in order. */
  function Payload(rows: seq<Row>): seq<u32>
    decreases |rows|
  {
    if |rows| == 0 then []
    else Payload(rows[..|rows| - 1]) + (if IsUserdataWrite(rows[|rows| - 1]) then [rows[|rows| - 1].val] else [])
  }

  /** The rows that are userdata writes or marker initiators, in order. */
  function Relevant(rows: seq<Row>): seq<Row>
    decreases |rows|
  {
    if |rows| == 0 then []
    else
      var row := rows[|rows| - 1];
      Relevant(rows[..|rows| - 1]) + (if IsUserdataWrite(row) || IsResync(row) then [row] else [])
  }

  /** A buffer that can still complete is shorter than its header declares. */
  predicate BufferOk(buf: seq<u32>)
  {
    buf == [] || Len(buf[0]) == 0 || |buf| < Len(buf[0])
  }

  /** An event as `get_events` builds it: an API type and zero `start` and `end`. */
  predicate EventOk(e: Event)
  {
    e.eventType < 0x10_0000 && e.start == 0 && e.end == 0
  }

  /** The dword `w` brings `buf` to the length its header declares. */
  predicate Completes(buf: seq<u32>, w: u32)
  {
    Len((buf + [w])[0]) == |buf| + 1
  }

  /** One row emits an event exactly when it is a userdata write that brings the buffer
      to the length its header declares; the event then carries the header's API type,
      `new` accepts the buffer and the buffer is emptied. Otherwise no event is emitted,
      a userdata write appends its dword and a marker initiator empties the buffer. */
  lemma FeedEmits(m: Markers, row: Row)
    ensures var m2 := Feed(m, row);
      && (m2.events != m.events <==> IsUserdataWrite(row) && Completes(m.buf, row.val))
      && (m2.events != m.events ==>
            var buf := m.buf + [row.val];
            New(buf).Success? && m2 == Markers([], m.events + [Event(New(buf).value.ApiType(), 0, 0)]))
      && (m2.events == m.events ==>
            m2.buf == if IsUserdataWrite(row) then m.buf + [row.val] else if IsResync(row) then [] else m.buf)
  {
  }

  /** Looping over `a` and then `b` is looping over `a + b`. */
  lemma {:induction false} RunAppend(m: Markers, a: seq<Row>, b: seq<Row>)
    ensures Run(m, a + b) == Run(Run(m, a), b)
    decreases |b|
  {
    if |b| == 0 {
      assert a + b == a;
    } else {
      var k := |b| - 1;
      assert (a + b)[..|a + b| - 1] == a + b[..k];
      assert (a + b)[|a + b| - 1] == b[k];
      RunAppend(m, a, b[..k]);
    }
  }

  /** Events are only ever appended: the events before the loop stay a prefix. */
  lemma {:induction false} EventsAppended(m: Markers, rows: seq<Row>)
    ensures |m.events| <= |Run(m, rows).events| && Run(m, rows).events[..|m.events|] == m.events
    decreases |rows|
  {
    if |rows| > 0 {
      var m1 := Run(m, rows[..|rows| - 1]);
      EventsAppended(m, rows[..|rows| - 1]);
      var m2 := Feed(m1, rows[|rows| - 1]);
      assert m2.events == m1.events || m2.events == m1.events + [m2.events[|m2.events| - 1]];
      assert m2.events[..|m.events|] == m1.events[..|m.events|];
    }
  }

  /** Every event and every buffered dword comes from its own userdata write. */
  lemma {:induction false} EventsAtMostWrites(m: Markers, rows: seq<Row>)
    ensures var m2 := Run(m, rows);
      |m2.events| + |m2.buf| <= |m.events| + |m.buf| + Writes(rows)
    decreases |rows|
  {
    if |rows| > 0 {
      EventsAtMostWrites(m, rows[..|rows| - 1]);
    }
  }

  /** `get_events` emits at most one event per userdata write. */
  lemma EventsBound(rows: seq<Row>)
    ensures |Reassemble(rows).events| <= Writes(rows)
  {
    EventsAtMostWrites(Markers([], []), rows);
  }

  /** A buffer whose header declares at least one dword never reaches that length
      without being emitted. */
  lemma {:induction false} BufferStaysBelow(m: Markers, rows: seq<Row>)
    requires BufferOk(m.buf)
    ensures BufferOk(Run(m, rows).buf)
    decreases |rows|
  {
    if |rows| > 0 {
      BufferStaysBelow(m, rows[..|rows| - 1]);
      var m1 := Run(m, rows[..|rows| - 1]);
      var row := rows[|rows| - 1];
      if IsUserdataWrite(row) && m1.buf != [] {
        assert (m1.buf + [row.val])[0] == m1.buf[0];
      }
    }
  }

  /** From an empty buffer, the buffer is always shorter than a non-zero declared
      length, so it never holds more than six dwords of such a marker. */
  lemma BufferBound(rows: seq<Row>)
    ensures var buf := Reassemble(rows).buf;
      buf != [] && Len(buf[0]) >= 1 ==> |buf| < Len(buf[0]) <= 7
  {
    BufferStaysBelow(Markers([], []), rows);
  }

  /** A buffer whose header declares no dwords never completes: without a marker
      initiator it only grows, by every userdata dword in order, and no event is
      emitted. */
  lemma {:induction false} ZeroLengthNeverCompletes(m: Markers, rows: seq<Row>)
    requires m.buf != [] && Len(m.buf[0]) == 0
    requires forall n | 0 <= n < |rows| :: !IsResync(rows[n])
    ensures Run(m, rows) == Markers(m.buf + Payload(rows), m.events)
    decreases |rows|
  {
    if |rows| > 0 {
      var k := |rows| - 1;
      ZeroLengthNeverCompletes(m, rows[..k]);
      if IsUserdataWrite(rows[k]) {
        assert (m.buf + Payload(rows[..k]) + [rows[k].val])[0] == m.buf[0];
        assert m.buf + Payload(rows[..k]) + [rows[k].val] == m.buf + (Payload(rows[..k]) + [rows[k].val]);
      }
    }
  }

  /** A marker initiator drops whatever was buffered before it and keeps the events. */
  lemma ResyncDrops(m: Markers, a: seq<Row>, row: Row, b: seq<Row>)
    requires IsResync(row)
    ensures Run(m, a + [row] + b) == Run(Markers([], Run(m, a).events), b)
  {
    RunAppend(m, a + [row], b);
    RunAppend(m, a, [row]);
    assert ([row])[..0] == [];
  }

  /** Rows that are neither userdata writes nor marker initiators change nothing. */
  lemma {:induction false} IrrelevantRowsSkipped(m: Markers, rows: seq<Row>)
    ensures Run(m, rows) == Run(m, Relevant(rows))
    decreases |rows|
  {
    if |rows| > 0 {
      var k := |rows| - 1;
      IrrelevantRowsSkipped(m, rows[..k]);
      if IsUserdataWrite(rows[k]) || IsResync(rows[k]) {
        RunAppend(m, Relevant(rows[..k]), [rows[k]]);
        assert ([rows[k]])[..0] == [];
      } else {
        assert Relevant(rows) == Relevant(rows[..k]);
      }
    }
  }

  predicate EventsOk(events: seq<Event>)
  {
    forall n | 0 <= n < |events| :: EventOk(events[n])
  }

  /** Every event carries an API type below 2^20 and zero `start` and `end`. */
  lemma {:induction false} EventsWellFormed(m: Markers, rows: seq<Row>)
    requires EventsOk(m.events)
    ensures EventsOk(Run(m, rows).events)
    decreases |rows|
  {
    if |rows| > 0 {
      var m1, row := Run(m, rows[..|rows| - 1]), rows[|rows| - 1];
      EventsWellFormed(m, rows[..|rows| - 1]);
      FeedEmits(m1, row);
      var m2 := Feed(m1, row);
      if m2.events != m1.events {
        var e := Event(New(m1.buf + [row.val]).value.ApiType(), 0, 0);
        assert m2.events == m1.events + [e];
      }
    }
  }

  /** A two-dword marker of API type 5 (header 678: identifier 6, length 2),
      interleaved with an unrelated register write and an initiator that is not a
      marker, emits one event. */
  lemma CompleteMarkerExample()
    ensures Reassemble([RegWriteRow(UserdataReg2, 678), RegWriteRow(0x1234, 9), InitiatorRow(1, 53),
                        RegWriteRow(UserdataReg3, 77)])
      == Markers([], [Event(5, 0, 0)])
  {
    var rows := [RegWriteRow(UserdataReg2, 678), RegWriteRow(0x1234, 9), InitiatorRow(1, 53),
                 RegWriteRow(UserdataReg3, 77)];
    assert Len(678) == 2 && SqttUserdata([678, 77]).ApiType() == 5;
    assert rows[..0] == [] && rows[..4] == rows;
    ReassembleSnoc(rows, 0);
    ReassembleSnoc(rows, 1);
    ReassembleSnoc(rows, 2);
    ReassembleSnoc(rows, 3);
    assert Reassemble(rows[..1]) == Markers([678], []);
    assert Reassemble(rows[..3]) == Markers([678], []);
  }

  /** A marker initiator (low 20 bits 53) in the middle of a three-dword marker drops
      it; the one-dword marker of API type 9 (header 1174) after it is emitted. */
  lemma ResyncExample()
    ensures Reassemble([RegWriteRow(UserdataReg2, 694), RegWriteRow(UserdataReg3, 1), InitiatorRow(0, 0x10_0035),
                        RegWriteRow(UserdataReg2, 1174)])
      == Markers([], [Event(9, 0, 0)])
  {
    var rows := [RegWriteRow(UserdataReg2, 694), RegWriteRow(UserdataReg3, 1), InitiatorRow(0, 0x10_0035),
                 RegWriteRow(UserdataReg2, 1174)];
    assert Len(694) == 3 && Len(1174) == 1 && SqttUserdata([1174]).ApiType() == 9;
    assert rows[..0] == [] && rows[..4] == rows;
    ReassembleSnoc(rows, 0);
    ReassembleSnoc(rows, 1);
    ReassembleSnoc(rows, 2);
    ReassembleSnoc(rows, 3);
    assert Reassemble(rows[..2]) == Markers([694, 1], []);
    assert Reassemble(rows[..3]) == Markers([], []);
  }

  // ---------------------------------------------------------------------------
  // The rows of the first chunk

  /** What the merged iteration yields: kind 0 or 1, and an index of that table's `seq`
      column. */
  predicate ItemIn(c: Chunk, it: MergedItem)
    requires Shaped(c)
  {
    it.kind < 2 && it.index < |c[if it.kind == 0 then RegWrite else Initiator].seqs|
  }

  /** The `reg_write` and `initiator` tables have the columns of their layouts. */
  predicate TablesShaped(regWrite: Table, initiator: Table)
  {
    |regWrite.columns| == |Layout(RegWrite)| && |initiator.columns| == |Layout(Initiator)|
  }

  /** The columns the loop reads at `it` exist, and a `val` of `reg_write` is a 32-bit
      value. */
  predicate Readable(regWrite: Table, initiator: Table, it: MergedItem)
    requires TablesShaped(regWrite, initiator)
  {
    && it.kind < 2
    && (it.kind == 0 ==>
          it.index < |regWrite.columns[RegWriteReg]| && it.index < |regWrite.columns[RegWriteVal]|
          && regWrite.columns[RegWriteVal][it.index] < 0x1_0000_0000)
    && (it.kind == 1 ==>
          it.index < |initiator.columns[InitiatorType]| && it.index < |initiator.columns[InitiatorVal]|)
  }

  predicate AllReadable(regWrite: Table, initiator: Table, items: seq<MergedItem>)
  {
    TablesShaped(regWrite, initiator) && forall n | 0 <= n < |items| :: Readable(regWrite, initiator, items[n])
  }

  /** A recorded row of `reg_write` has a `reg` and a 32-bit `val`. */
  lemma RegWriteColumns(c: Chunk, i: nat)
    requires ChunkRecords(c) && i < |c[RegWrite].seqs|
    ensures i < |c[RegWrite].columns[RegWriteReg]| && i < |c[RegWrite].columns[RegWriteVal]|
    ensures c[RegWrite].columns[RegWriteVal][i] < 0x1_0000_0000
  {
    var t, l := c[RegWrite], Layout(RegWrite);
    assert Records(l, t);
    assert l[RegWriteReg].store == U16 && l[RegWriteVal].store == U32;
    assert ColumnOk(l[RegWriteReg], t.columns[RegWriteReg], |t.seqs|);
    assert ColumnOk(l[RegWriteVal], t.columns[RegWriteVal], |t.seqs|);
    Pow2Of32();
  }

  /** A recorded row of `initiator` has an `initiator_type` and a `val`. */
  lemma InitiatorColumns(c: Chunk, i: nat)
    requires ChunkRecords(c) && i < |c[Initiator].seqs|
    ensures i < |c[Initiator].columns[InitiatorType]| && i < |c[Initiator].columns[InitiatorVal]|
  {
    var t, l := c[Initiator], Layout(Initiator);
    assert Records(l, t);
    assert l[InitiatorType].store == U8 && l[InitiatorVal].store == U32;
    assert ColumnOk(l[InitiatorType], t.columns[InitiatorType], |t.seqs|);
    assert ColumnOk(l[InitiatorVal], t.columns[InitiatorVal], |t.seqs|);
  }

  /** Every item of a merged iteration over a decoded chunk can be read. */
  lemma ChunkReadable(c: Chunk, items: seq<MergedItem>)
    requires ChunkRecords(c) && forall n | 0 <= n < |items| :: ItemIn(c, items[n])
    ensures AllReadable(c[RegWrite], c[Initiator], items)
  {
    forall n | 0 <= n < |items|
      ensures Readable(c[RegWrite], c[Initiator], items[n])
    {
      if items[n].kind == 0 {
        RegWriteColumns(c, items[n].index);
      } else {
        InitiatorColumns(c, items[n].index);
      }
    }
  }

  /** The row an item names. */
  function RowOf(regWrite: Table, initiator: Table, it: MergedItem): Row
    requires TablesShaped(regWrite, initiator) && Readable(regWrite, initiator, it)
  {
    var i := it.index;
    if it.kind == 0 then RegWriteRow(regWrite.columns[RegWriteReg][i], regWrite.columns[RegWriteVal][i])
    else InitiatorRow(initiator.columns[InitiatorType][i], initiator.columns[InitiatorVal][i])
  }

  function Rows(regWrite: Table, initiator: Table, items: seq<MergedItem>): (rows: seq<Row>)
    requires AllReadable(regWrite, initiator, items)
    ensures |rows| == |items|
  {
    seq(|items|, n requires 0 <= n < |items| => RowOf(regWrite, initiator, items[n]))
  }

  /** The rows of the first chunk in the merged order. */
  function ChunkRows(c: Chunk, items: seq<MergedItem>): (rows: seq<Row>)
    requires ChunkRecords(c) && forall n | 0 <= n < |items| :: ItemIn(c, items[n])
    ensures |rows| == |items|
  {
    ChunkReadable(c, items);
    Rows(c[RegWrite], c[Initiator], items)
  }

  /** `get_events`: only the first chunk is read; its events are those of `Reassemble`
      over its merged rows. */
  method GetEvents(chunks: seq<Chunk>, items: seq<MergedItem>) returns (events: seq<Event>)
    requires |chunks| > 0 && ChunkRecords(chunks[0])
    requires forall n | 0 <= n < |items| :: ItemIn(chunks[0], items[n])
    ensures events == Reassemble(ChunkRows(chunks[0], items)).events
    ensures |events| <= Writes(ChunkRows(chunks[0], items)) && EventsOk(events)
  {
    ChunkReadable(chunks[0], items);
    EventsBound(ChunkRows(chunks[0], items));
    EventsWellFormed(Markers([], []), ChunkRows(chunks[0], items));
    events := CollectEvents(chunks[0][RegWrite], chunks[0][Initiator], items);
  }

  /** The loop of `get_events` over the merged rows of `reg_write` and `initiator`. */
  method CollectEvents(regWrite: Table, initiator: Table, items: seq<MergedItem>) returns (events: seq<Event>)
    requires AllReadable(regWrite, initiator, items)
    ensures events == Reassemble(Rows(regWrite, initiator, items)).events
  {
    ghost var rows := Rows(regWrite, initiator, items);
    var buf: seq<u32> := [];
    events := [];
    for n := 0 to |items|
      invariant Markers(buf, events) == Reassemble(rows[..n])
    {
      ReassembleSnoc(rows, n);
      ghost var m := Markers(buf, events);
      var kind, i := items[n].kind, items[n].index;
      if kind == 0 {
        var reg := regWrite.columns[RegWriteReg][i];
        if reg == UserdataReg2 || reg == UserdataReg3 {
          buf := buf + [regWrite.columns[RegWriteVal][i]];
          if Len(buf[0]) == |buf| {
            var userdata := New(buf);
            events := events + [Event(userdata.value.ApiType(), 0, 0)];
            buf := [];
          }
        }
      } else {
        if initiator.columns[InitiatorType][i] == 0 && initiator.columns[InitiatorVal][i] % 0x10_0000 == ThreadTraceMarker {
          if |buf| > 0 {
            buf := [];
          }
        }
      }
      assert Markers(buf, events) == Feed(m, rows[n]);
    }
    assert rows[..|items|] == rows;
  }
}
