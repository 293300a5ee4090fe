/** `parse_sqtt`: the loop that peeks a selector, looks its length up, parses the packet
    from a clone of the reader while the live reader consumes it, applies the timestamp
    adjustments and counts packets. The pure `DecodeLoop` says what the loop computes;
    `ParseSqtt` runs it over the in-place `BitReader` and packet tables. */
module SqttDecode {
  import opened Wrappers
  import opened BitArith
  import opened SqttReader
  import opened SqttLength
  import opened SqttPackets

  /** The loop as written reads the last `ty` of the LongTimestamp table even after that
      packet's parse failed; the corrected loop adjusts the timestamp only after a
      complete parse. */
  datatype Revision = AsWritten | Corrected

  /** The result of `parse_sqtt`: the chunk, the `bail!` for an unknown packet (carrying
      the selector it prints), or a panic of an `unwrap` on an empty column. */
  datatype Outcome = Ok(chunk: Chunk) | UnknownPacket(selector: nat) | Panic

  /** The loop variables: the live reader, `seq`, `timestamp` and `result`. */
  datatype Loop = Loop(reader: Reader, seqNo: nat, timestamp: nat, chunk: Chunk)

  /** What one iteration does: go round again from a new state, or leave the loop. */
  datatype Step = Next(state: Loop) | Done(outcome: Outcome)

  predicate LoopOk(s: Loop)
  {
    Valid(s.reader) && Shaped(s.chunk)
  }

  /** The packet kind whose `parse` the `match` on the selector calls, or nothing for the
      arms that only return `Some(())`. The `unreachable!()` arm is proved dead. */
  function Dispatch(selector: byte): (k: Option<Kind>)
    ensures k.None? <==> selector % 16 == 0 || selector % 16 == 7 || (selector % 16 == 1 && (selector / 16) % 8 == 1)
  {
    match selector % 8
    case 2 => Some(GenericInst)
    case 3 => Some(ValuInst)
    case _ =>
      match selector % 16
      case 1 =>
        (match (selector / 16) % 8
         case 0 => Some(LongTimestamp)
         case 2 => Some(Packet0x21)
         case 3 => Some(Packet0x31)
         case 4 => Some(Packet0x41)
         case 5 => Some(Packet0x51)
         case 6 =>
           (match selector / 16
            case 6 => Some(EventA)
            case 14 => Some(EventB)
            case _ => assert false; None)
         case 7 => Some(Initiator)
         case _ => None)
      case 4 => Some(Immediate)
      case 5 => Some(WaveAllocEnd)
      case 6 => Some(Packet0x6)
      case 8 => Some(ShortTimestamp)
      case 9 => Some(RegWrite)
      case 12 => Some(WaveStart)
      case 13 => Some(ImmediateOne)
      case 14 => Some(Packet0xe)
      case 15 => Some(Packet0xf)
      case _ => None
  }

  /** The last element of a column (`.last()`). */
  function Last(col: seq<nat>): (v: Option<nat>)
    ensures v.Some? <==> |col| > 0
    ensures v.Some? ==> v.value == col[|col| - 1]
  {
    if |col| == 0 then None else Some(col[|col| - 1])
  }

  /** The timestamp after the dispatch arm of kind `k`, whose parse ended in `p`, or
      nothing when an `unwrap` of an empty column panics. A LongTimestamp with `ty == 1`
      adds its `timestamp_value`; a ShortTimestamp adds `dt_4 + 4`. */
  function Adjust(rev: Revision, k: Kind, p: Parsed): Option<nat>
    requires |p.table.columns| == |Layout(k)|
  {
    match k
    case LongTimestamp =>
      if rev.Corrected? && !p.ok then Some(p.timestamp)
      else
        (match Last(p.table.columns[LongTimestampTy])
         case None => None
         case Some(ty) =>
           if ty != 1 then Some(p.timestamp)
           else
             (match Last(p.table.columns[LongTimestampValue])
              case None => None
              case Some(v) => Some(p.timestamp + v)))
    case ShortTimestamp =>
      (match Last(p.table.columns[ShortTimestampDt4])
       case None => None
       case Some(d) => Some(p.timestamp + d + 4))
    case _ => Some(p.timestamp)
  }

  /** The length of a known packet (the table entry's `get()`). */
  function KnownLength(selector: byte): (n: nat)
    requires selector % 16 != 7
    ensures 4 <= n <= 96 && LengthTable()[selector] == Some(n)
  {
    PacketLength(selector).value
  }

  /** The dispatch arm of kind `k` and what follows it: the parse from the clone `s.reader`
      and the timestamp adjustment; `seq` is bumped and the loop goes on only if both the
      parse and the consume of the live reader (`advanced`) succeeded. */
  function ParseArm(rev: Revision, s: Loop, k: Kind, advanced: bool, live: Reader): (st: Step)
    requires LoopOk(s)
  {
    LayoutsWellFormed(k);
    var p := ParseOutcome(Layout(k), s.reader, s.chunk[k], s.seqNo, s.timestamp);
    ArmEnd(s, k, p, Adjust(rev, k, p), advanced, live)
  }

  /** The end of an arm whose parse ended in `p` and whose adjustment gave `adjusted`. */
  function ArmEnd(s: Loop, k: Kind, p: Parsed, adjusted: Option<nat>, advanced: bool, live: Reader): (st: Step)
  {
    match adjusted
    case None => Done(Panic)
    case Some(ts) =>
      var chunk := s.chunk[k := p.table];
      if p.ok && advanced then Next(Loop(live, s.seqNo + 1, ts, chunk)) else Done(Ok(chunk))
  }

  /** The steps of an iteration that follow the length lookup of a packet of `len` bits. */
  function AfterDispatch(rev: Revision, s: Loop, selector: byte, len: nat): (st: Step)
    requires LoopOk(s) && 0 < len <= 96
  {
    var advanced := AfterConsume(s.reader, len).Some?;
    var live := Consumed(s.reader, len);
    match Dispatch(selector)
    case None =>
      if advanced then Next(Loop(live, s.seqNo + 1, s.timestamp, s.chunk)) else Done(Ok(s.chunk))
    case Some(k) => ParseArm(rev, s, k, advanced, live)
  }

  /** A parse arm that goes on continues from the live reader with well-formed tables. */
  lemma ParseArmNext(rev: Revision, s: Loop, k: Kind, advanced: bool, live: Reader)
    requires LoopOk(s) && ParseArm(rev, s, k, advanced, live).Next?
    ensures var s2 := ParseArm(rev, s, k, advanced, live).state;
      advanced && s2.reader == live && Shaped(s2.chunk)
  {
    LayoutsWellFormed(k);
  }

  /** An iteration that goes on after the length lookup has consumed the packet on the
      live reader. */
  lemma AfterDispatchNext(rev: Revision, s: Loop, selector: byte, len: nat)
    requires LoopOk(s) && 0 < len <= 96 && AfterDispatch(rev, s, selector, len).Next?
    ensures var s2 := AfterDispatch(rev, s, selector, len).state;
      AfterConsume(s.reader, len).Some? && s2.reader == Consumed(s.reader, len) && Shaped(s2.chunk)
  {
    if Dispatch(selector).Some? {
      ParseArmNext(rev, s, Dispatch(selector).value, AfterConsume(s.reader, len).Some?, Consumed(s.reader, len));
    }
  }

  /** One iteration of the loop: an 8-bit selector that does not fit in the window ends
      the stream when the 4-bit one is none or zero and is an error otherwise; a selector
      without a length is an error. */
  function PacketStep(rev: Revision, s: Loop): Step
    requires LoopOk(s)
  {
    match Peek(s.reader, 0, 8)
    case None =>
      (match Peek(s.reader, 0, 4)
       case None => Done(Ok(s.chunk))
       case Some(x) => if x == 0 then Done(Ok(s.chunk)) else Done(UnknownPacket(x)))
    case Some(selector) =>
      if selector % 16 == 7 then Done(UnknownPacket(selector))
      else AfterDispatch(rev, s, selector, KnownLength(selector))
  }

  /** An iteration goes on only past a known selector. */
  lemma PacketStepNext(rev: Revision, s: Loop)
    requires LoopOk(s) && PacketStep(rev, s).Next?
    ensures Peek(s.reader, 0, 8).Some? && Peek(s.reader, 0, 8).value % 16 != 7
    ensures var selector := Peek(s.reader, 0, 8).value;
      PacketStep(rev, s) == AfterDispatch(rev, s, selector, KnownLength(selector))
  {
  }

  /** An iteration that goes on keeps the loop state well formed and consumes at least
      four bits of the stream, so the loop ends. */
  lemma StepShrinks(rev: Revision, s: Loop)
    requires LoopOk(s) && PacketStep(rev, s).Next?
    ensures LoopOk(PacketStep(rev, s).state)
    ensures Remaining(PacketStep(rev, s).state.reader) <= Remaining(s.reader) - 4
  {
    PacketStepNext(rev, s);
    var selector := Peek(s.reader, 0, 8).value;
    var len := KnownLength(selector);
    AfterDispatchNext(rev, s, selector, len);
    ConsumeAdvances(s.reader, len);
  }

  /** The loop from state `s` on. */
  function DecodeLoop(rev: Revision, s: Loop): Outcome
    requires LoopOk(s)
    decreases Remaining(s.reader)
  {
    match PacketStep(rev, s)
    case Done(o) => o
    case Next(s2) =>
      StepShrinks(rev, s);
      DecodeLoop(rev, s2)
  }

  /** The state before the first iteration: a fresh reader, `seq` and `timestamp` zero,
      every table empty. */
  function Start(input: seq<byte>): (s: Loop)
    requires |input| >= 8
    ensures LoopOk(s)
  {
    Loop(New(input), 0, 0, EmptyChunk())
  }

  /** `parse_sqtt(i)`; `BitReader::new` panics on fewer than eight bytes. */
  function Decode(rev: Revision, input: seq<byte>): Outcome
    requires |input| >= 8
  {
    DecodeLoop(rev, Start(input))
  }

  // ---------------------------------------------------------------------------
  // The dispatch

  /** Every packet kind the dispatch parses lies inside the length the table gives its
      selector, so a packet's parse only reads bits of that packet. */
  lemma DispatchFits(selector: byte)
    requires Dispatch(selector).Some?
    ensures PacketLength(selector).Some?
    ensures var layout, n := Layout(Dispatch(selector).value), PacketLength(selector).value;
      forall j | 0 <= j < |layout| :: layout[j].top < n
  {
    var k := Dispatch(selector).value;
    if selector % 8 == 2 || selector % 8 == 3 {
      DispatchFitsInst(selector);
    } else if selector % 16 == 1 {
      DispatchFitsOne(selector);
    } else if selector % 16 < 8 {
      DispatchFitsLow(selector);
    } else {
      DispatchFitsHigh(selector);
    }
    LayoutsWellFormed(k);
    TopIsLast(Layout(k));
  }

  /** The selectors ending in `0001`: the timestamp, delta, event and initiator packets. */
  lemma DispatchFitsOne(selector: byte)
    requires Dispatch(selector).Some? && selector % 8 != 2 && selector % 8 != 3 && selector % 16 == 1
    ensures PacketLength(selector).Some? && |Layout(Dispatch(selector).value)| > 0
    ensures var layout := Layout(Dispatch(selector).value);
      layout[|layout| - 1].top < PacketLength(selector).value
  {
  }

  /** The instruction packets, selected by the low three bits. */
  lemma DispatchFitsInst(selector: byte)
    requires Dispatch(selector).Some? && (selector % 8 == 2 || selector % 8 == 3)
    ensures PacketLength(selector).Some? && |Layout(Dispatch(selector).value)| > 0
    ensures var layout := Layout(Dispatch(selector).value);
      layout[|layout| - 1].top < PacketLength(selector).value
  {
  }

  /** The selectors ending in `01xx`: immediate, wave allocation and `0x6`. */
  lemma DispatchFitsLow(selector: byte)
    requires Dispatch(selector).Some? && selector % 8 != 2 && selector % 8 != 3 && 4 <= selector % 16 < 8
    ensures PacketLength(selector).Some? && |Layout(Dispatch(selector).value)| > 0
    ensures var layout := Layout(Dispatch(selector).value);
      layout[|layout| - 1].top < PacketLength(selector).value
  {
  }

  /** The selectors ending in `1xxx`: the short timestamp, register, wave and `0xe`/`0xf` packets. */
  lemma DispatchFitsHigh(selector: byte)
    requires Dispatch(selector).Some? && selector % 8 != 2 && selector % 8 != 3 && 8 <= selector % 16
    ensures PacketLength(selector).Some? && |Layout(Dispatch(selector).value)| > 0
    ensures var layout := Layout(Dispatch(selector).value);
      layout[|layout| - 1].top < PacketLength(selector).value
  {
  }

  // ---------------------------------------------------------------------------
  // The outcomes of the loop

  /** An unknown packet is reported either for a selector whose table entry is empty
      (`selector % 16 == 7`) or for a non-zero 4-bit tail that no longer holds a selector. */
  lemma {:induction false} UnknownPacketCause(rev: Revision, s: Loop)
    requires LoopOk(s) && DecodeLoop(rev, s).UnknownPacket?
    ensures var x := DecodeLoop(rev, s).selector;
      (x < 0x100 && x % 16 == 7) || (0 < x < 16)
    decreases Remaining(s.reader)
  {
    match PacketStep(rev, s)
    case Done(o) =>
      UnknownPacketStep(rev, s);
    case Next(s2) =>
      StepShrinks(rev, s);
      UnknownPacketCause(rev, s2);
  }

  lemma UnknownPacketStep(rev: Revision, s: Loop)
    requires LoopOk(s) && PacketStep(rev, s).Done? && PacketStep(rev, s).outcome.UnknownPacket?
    ensures var x := PacketStep(rev, s).outcome.selector;
      (x < 0x100 && x % 16 == 7) || (0 < x < 16)
  {
    match Peek(s.reader, 0, 8)
    case None =>
    case Some(selector) =>
      if selector % 16 != 7 {
        AfterDispatchKnown(rev, s, selector, KnownLength(selector));
      }
  }

  /** Past the table lookup no iteration reports an unknown packet. */
  lemma AfterDispatchKnown(rev: Revision, s: Loop, selector: byte, len: nat)
    requires LoopOk(s) && 0 < len <= 96
    ensures !(AfterDispatch(rev, s, selector, len).Done? && AfterDispatch(rev, s, selector, len).outcome.UnknownPacket?)
  {
    if Dispatch(selector).Some? {
      var k := Dispatch(selector).value;
      LayoutsWellFormed(k);
    }
  }

  /** After a complete parse the adjustment is the same in both revisions. */
  lemma AdjustAgrees(k: Kind, p: Parsed)
    requires |p.table.columns| == |Layout(k)| && p.ok
    ensures Adjust(AsWritten, k, p) == Adjust(Corrected, k, p)
  {
  }

  /** An arm of the loop as written that does not panic does what the corrected arm does:
      the two differ only in the timestamp after a failed parse, which is never used. */
  lemma ParseArmAgrees(s: Loop, k: Kind, advanced: bool, live: Reader)
    requires LoopOk(s) && ParseArm(AsWritten, s, k, advanced, live) != Done(Panic)
    ensures ParseArm(AsWritten, s, k, advanced, live) == ParseArm(Corrected, s, k, advanced, live)
  {
    LayoutsWellFormed(k);
    var p := ParseOutcome(Layout(k), s.reader, s.chunk[k], s.seqNo, s.timestamp);
    if p.ok {
      AdjustAgrees(k, p);
    }
  }

  lemma StepAgrees(s: Loop)
    requires LoopOk(s) && PacketStep(AsWritten, s) != Done(Panic)
    ensures PacketStep(AsWritten, s) == PacketStep(Corrected, s)
  {
    match Peek(s.reader, 0, 8)
    case None =>
    case Some(selector) =>
      if selector % 16 != 7 {
        var len := KnownLength(selector);
        if Dispatch(selector).Some? {
          ParseArmAgrees(s, Dispatch(selector).value, AfterConsume(s.reader, len).Some?, Consumed(s.reader, len));
        }
      }
  }

  /** Wherever the loop as written does not panic, it computes what the corrected loop does. */
  lemma {:induction false} DecodeLoopAgrees(s: Loop)
    requires LoopOk(s) && DecodeLoop(AsWritten, s) != Panic
    ensures DecodeLoop(AsWritten, s) == DecodeLoop(Corrected, s)
    decreases Remaining(s.reader)
  {
    StepAgrees(s);
    match PacketStep(AsWritten, s)
    case Done(o) =>
    case Next(s2) =>
      StepShrinks(AsWritten, s);
      DecodeLoopAgrees(s2);
  }

  /** A ShortTimestamp parse from a reader whose 8-bit selector fits in the window completes:
      its one field `[7:4]` lies inside those eight bits. */
  lemma ShortTimestampCompletes(r: Reader)
    requires Valid(r) && Peek(r, 0, 8).Some?
    ensures WellFormed(Layout(ShortTimestamp)) && ReadFields(Layout(ShortTimestamp), 0, r).ok
  {
    var layout := Layout(ShortTimestamp);
    assert layout == [Field("dt_4", 7, 4, U8)];
    LayoutsWellFormed(ShortTimestamp);
    FieldPlan(layout, 0, r);
    assert ReadField(layout, 0, r) == Peek(r, 4, 4);
    ReadFieldsStep(layout, 0, r);
    assert ReadFields(layout, 1, ReaderFor(layout, 0, r)).ok;
  }

  /** The corrected adjustment has a value once the columns it reads are non-empty
      after a complete parse. */
  lemma AdjustDefined(k: Kind, p: Parsed)
    requires |p.table.columns| == |Layout(k)|
    requires k == ShortTimestamp ==> |p.table.columns[ShortTimestampDt4]| > 0
    requires k == LongTimestamp && p.ok ==>
      |p.table.columns[LongTimestampTy]| > 0 && |p.table.columns[LongTimestampValue]| > 0
    ensures Adjust(Corrected, k, p).Some?
  {
  }

  /** The corrected adjustment after a parse from a reader whose 8-bit selector fits in
      the window has a value: a complete parse has pushed the column it reads. */
  lemma AdjustReady(k: Kind, r: Reader, t: Table, seqNo: nat, ts: nat)
    requires Valid(r) && Peek(r, 0, 8).Some? && |t.columns| == |Layout(k)|
    ensures WellFormed(Layout(k)) && Adjust(Corrected, k, ParseOutcome(Layout(k), r, t, seqNo, ts)).Some?
  {
    LayoutsWellFormed(k);
    var layout := Layout(k);
    var p := ParseOutcome(layout, r, t, seqNo, ts);
    if k == ShortTimestamp {
      ShortTimestampCompletes(r);
      ParsedColumnNonEmpty(layout, r, t, seqNo, ts, ShortTimestampDt4);
    } else if k == LongTimestamp && p.ok {
      ParsedColumnNonEmpty(layout, r, t, seqNo, ts, LongTimestampTy);
      ParsedColumnNonEmpty(layout, r, t, seqNo, ts, LongTimestampValue);
    }
    AdjustDefined(k, p);
  }

  /** The corrected arm never panics. */
  lemma ParseArmNoPanic(s: Loop, k: Kind, advanced: bool, live: Reader)
    requires LoopOk(s) && Peek(s.reader, 0, 8).Some?
    ensures ParseArm(Corrected, s, k, advanced, live) != Done(Panic)
  {
    AdjustReady(k, s.reader, s.chunk[k], s.seqNo, s.timestamp);
  }

  lemma StepNoPanic(s: Loop)
    requires LoopOk(s)
    ensures PacketStep(Corrected, s) != Done(Panic)
  {
    match Peek(s.reader, 0, 8)
    case None =>
    case Some(selector) =>
      if selector % 16 != 7 {
        var len := KnownLength(selector);
        if Dispatch(selector).Some? {
          ParseArmNoPanic(s, Dispatch(selector).value, AfterConsume(s.reader, len).Some?, Consumed(s.reader, len));
        }
      }
  }

  /** The corrected loop never panics. */
  lemma {:induction false} DecodeLoopNoPanic(s: Loop)
    requires LoopOk(s)
    ensures DecodeLoop(Corrected, s) != Panic
    decreases Remaining(s.reader)
  {
    StepNoPanic(s);
    match PacketStep(Corrected, s)
    case Done(o) =>
    case Next(s2) =>
      StepShrinks(Corrected, s);
      DecodeLoopNoPanic(s2);
  }

  // ---------------------------------------------------------------------------
  // What an iteration reads from the stream

  /** The timestamp after a complete parse of kind `k` whose packet fields are `vs`, from
      `ts`, the timestamp that already holds the packet's `dt` fields: a LongTimestamp
      whose `ty` is 1 adds its `timestamp_value`, a ShortTimestamp adds `dt_4 + 4`. */
  function FieldsAdjust(k: Kind, vs: seq<nat>, ts: nat): nat
    requires |vs| == |Layout(k)|
  {
    var layout := Layout(k);
    match k
    case LongTimestamp =>
      if Stored(layout[LongTimestampTy], vs[LongTimestampTy]) == 1
      then ts + Stored(layout[LongTimestampValue], vs[LongTimestampValue])
      else ts
    case ShortTimestamp => ts + Stored(layout[ShortTimestampDt4], vs[ShortTimestampDt4]) + 4
    case _ => ts
  }

  /** The table of kind `k` after a complete parse of the packet at `r`. */
  function ParsedTable(k: Kind, r: Reader, t: Table, seqNo: nat, ts: nat): (t2: Table)
    requires |t.columns| == |Layout(k)|
    ensures |t2.columns| == |Layout(k)|
  {
    var layout := Layout(k);
    var vs := PacketFields(layout, r);
    Push(layout, t, vs).(seqs := t.seqs + [seqNo], timestamps := t.timestamps + [ts + DeltaTotal(layout, vs)])
  }

  /** The state after an iteration that parsed a packet of kind `k` from `s.reader`, with the
      live reader at `live`. */
  function ParsedState(s: Loop, k: Kind, live: Reader): Loop
    requires Shaped(s.chunk)
  {
    var vs := PacketFields(Layout(k), s.reader);
    Loop(live, s.seqNo + 1, FieldsAdjust(k, vs, s.timestamp + DeltaTotal(Layout(k), vs)),
         s.chunk[k := ParsedTable(k, s.reader, s.chunk[k], s.seqNo, s.timestamp)])
  }

  /** After a complete parse the adjustment reads the values the parse has just pushed. */
  lemma AdjustReadsFields(rev: Revision, k: Kind, r: Reader, t: Table, seqNo: nat, ts: nat)
    requires WellFormed(Layout(k)) && Valid(r) && Windowed(r) && |t.columns| == |Layout(k)|
    requires ParseOutcome(Layout(k), r, t, seqNo, ts).ok
    ensures var p := ParseOutcome(Layout(k), r, t, seqNo, ts);
      var vs := PacketFields(Layout(k), r);
      && p.table == ParsedTable(k, r, t, seqNo, ts)
      && Adjust(rev, k, p) == Some(FieldsAdjust(k, vs, ts + DeltaTotal(Layout(k), vs)))
  {
    var layout := Layout(k);
    var p := ParseOutcome(layout, r, t, seqNo, ts);
    var vs := PacketFields(layout, r);
    ParseReadsPacket(layout, r, t, seqNo, ts);
    assert p.table == ParsedTable(k, r, t, seqNo, ts);
    AdjustOfPushed(rev, k, p, t, vs);
  }

  /** The adjustment of a complete parse whose columns are those of `t` with the packet
      fields `vs` pushed. */
  lemma AdjustOfPushed(rev: Revision, k: Kind, p: Parsed, t: Table, vs: seq<nat>)
    requires |t.columns| == |Layout(k)| == |vs| && p.ok
    requires p.table.columns == Push(Layout(k), t, vs).columns
    ensures Adjust(rev, k, p) == Some(FieldsAdjust(k, vs, p.timestamp))
  {
    var layout := Layout(k);
    if k == LongTimestamp {
      assert Last(p.table.columns[LongTimestampTy]) == Some(Stored(layout[LongTimestampTy], vs[LongTimestampTy]));
      assert Last(p.table.columns[LongTimestampValue]) == Some(Stored(layout[LongTimestampValue], vs[LongTimestampValue]));
    } else if k == ShortTimestamp {
      assert Last(p.table.columns[ShortTimestampDt4]) == Some(Stored(layout[ShortTimestampDt4], vs[ShortTimestampDt4]));
    }
  }

  /** What the arm of kind `k` leaves: whether the parse completed, the adjusted timestamp
      and the tables. */
  function ArmOf(rev: Revision, s: Loop, k: Kind): Arm
    requires LoopOk(s)
  {
    LayoutsWellFormed(k);
    var p := ParseOutcome(Layout(k), s.reader, s.chunk[k], s.seqNo, s.timestamp);
    Arm(p.ok, Adjust(rev, k, p), s.chunk[k := p.table])
  }

  /** The arm of kind `k` from what it leaves and whether the live reader consumed the packet. */
  lemma ParseArmOf(rev: Revision, s: Loop, k: Kind, advanced: bool, live: Reader, ok: bool, ts: nat, c: Chunk)
    requires LoopOk(s) && ArmOf(rev, s, k) == Arm(ok, Some(ts), c)
    ensures ParseArm(rev, s, k, advanced, live)
            == if ok && advanced then Next(Loop(live, s.seqNo + 1, ts, c)) else Done(Ok(c))
  {
  }

  /** A complete parse from a windowed reader leaves the packet's fields recorded and the
      timestamp they give. */
  lemma ArmReads(rev: Revision, s: Loop, k: Kind, live: Reader)
    requires LoopOk(s) && Windowed(s.reader) && ArmOf(rev, s, k).ok
    ensures var s2 := ParsedState(s, k, live);
      ArmOf(rev, s, k) == Arm(true, Some(s2.timestamp), s2.chunk)
  {
    LayoutsWellFormed(k);
    var p := ParseOutcome(Layout(k), s.reader, s.chunk[k], s.seqNo, s.timestamp);
    var vs := PacketFields(Layout(k), s.reader);
    var s2 := ParsedState(s, k, live);
    assert ArmOf(rev, s, k) == Arm(p.ok, Adjust(rev, k, p), s.chunk[k := p.table]);
    assert s2.timestamp == FieldsAdjust(k, vs, s.timestamp + DeltaTotal(Layout(k), vs));
    assert s2.chunk == s.chunk[k := ParsedTable(k, s.reader, s.chunk[k], s.seqNo, s.timestamp)];
    AdjustReadsFields(rev, k, s.reader, s.chunk[k], s.seqNo, s.timestamp);
  }

  /** A parse arm whose parse from a windowed reader completes has read the packet's own
      fields: their values are pushed, the `dt` fields and the adjustment move the
      timestamp, and the loop goes on exactly when the live reader consumed the packet. */
  lemma ParseArmComplete(rev: Revision, s: Loop, k: Kind, advanced: bool, live: Reader)
    requires LoopOk(s) && Windowed(s.reader) && ArmOf(rev, s, k).ok
    ensures ParseArm(rev, s, k, advanced, live)
            == if advanced then Next(ParsedState(s, k, live)) else Done(Ok(ParsedState(s, k, live).chunk))
  {
    ArmReads(rev, s, k, live);
    var s2 := ParsedState(s, k, live);
    ParseArmOf(rev, s, k, advanced, live, true, s2.timestamp, s2.chunk);
  }

  /** A parse arm that goes on from a windowed reader has read the packet's own fields. */
  lemma ParseArmReads(rev: Revision, s: Loop, k: Kind, advanced: bool, live: Reader)
    requires LoopOk(s) && Windowed(s.reader) && ParseArm(rev, s, k, advanced, live).Next?
    ensures ParseArm(rev, s, k, advanced, live) == Next(ParsedState(s, k, live))
  {
    LayoutsWellFormed(k);
    ParseArmComplete(rev, s, k, advanced, live);
  }

  /** An iteration that goes on leaves a windowed live reader moved forward by exactly
      the length of the packet: every iteration after the first reads a refilled window. */
  lemma StepWindowed(rev: Revision, s: Loop)
    requires LoopOk(s) && PacketStep(rev, s).Next?
    ensures Peek(s.reader, 0, 8).Some? && Peek(s.reader, 0, 8).value % 16 != 7
    ensures var s2 := PacketStep(rev, s).state;
      && Windowed(s2.reader)
      && Advances(s.reader, s2.reader, KnownLength(Peek(s.reader, 0, 8).value))
  {
    PacketStepNext(rev, s);
    var selector := Peek(s.reader, 0, 8).value;
    var len := KnownLength(selector);
    AfterDispatchNext(rev, s, selector, len);
    ConsumeAdvances(s.reader, len);
  }

  /** What an iteration that goes on does past the known selector `selector`: it consumes
      the packet on the live reader, counts it, and, for a kind with a `parse`, records the
      packet's own fields. */
  function ReadStep(s: Loop, selector: byte): Step
    requires LoopOk(s) && selector % 16 != 7
  {
    var live := Consumed(s.reader, KnownLength(selector));
    match Dispatch(selector)
    case None => Next(Loop(live, s.seqNo + 1, s.timestamp, s.chunk))
    case Some(k) => Next(ParsedState(s, k, live))
  }

  /** An iteration from a windowed reader that goes on reads its selector from the stream
      and parses the packet's own fields: the loop therefore records, packet by packet,
      what the stream holds. */
  lemma StepReadsPacket(rev: Revision, s: Loop)
    requires LoopOk(s) && Windowed(s.reader) && PacketStep(rev, s).Next?
    ensures Peek(s.reader, 0, 8).Some? && Peek(s.reader, 0, 8).value % 16 != 7
    ensures Peek(s.reader, 0, 8).value == StreamBits(s.reader.input, s.reader.bitsConsumed, 8)
    ensures PacketStep(rev, s) == ReadStep(s, Peek(s.reader, 0, 8).value)
  {
    PacketStepNext(rev, s);
    var selector := Peek(s.reader, 0, 8).value;
    var len := KnownLength(selector);
    PeekReadsStream(s.reader, 0, 8);
    AfterDispatchNext(rev, s, selector, len);
    if Dispatch(selector).Some? {
      ParseArmReads(rev, s, Dispatch(selector).value, AfterConsume(s.reader, len).Some?, Consumed(s.reader, len));
    }
  }

  /** Every iteration after the first, whatever state the loop started from, reads its
      selector and its packet's fields from the stream. */
  lemma LaterStepReads(rev: Revision, s: Loop)
    requires LoopOk(s) && PacketStep(rev, s).Next?
    requires PacketStep(rev, PacketStep(rev, s).state).Next?
    ensures LoopOk(PacketStep(rev, s).state)
    ensures var r2 := PacketStep(rev, s).state.reader;
      && Peek(r2, 0, 8).Some? && Peek(r2, 0, 8).value % 16 != 7
      && Peek(r2, 0, 8).value == StreamBits(r2.input, r2.bitsConsumed, 8)
      && PacketStep(rev, PacketStep(rev, s).state) == ReadStep(PacketStep(rev, s).state, Peek(r2, 0, 8).value)
  {
    StepShrinks(rev, s);
    StepWindowed(rev, s);
    StepReadsPacket(rev, PacketStep(rev, s).state);
  }

  /** The ShortTimestamp arm at a windowed reader: it pushes the stream bits `[7:4]` as
      `dt_4` with the timestamp before them, and the loop goes on with `dt_4 + 4` added,
      or ends with that record when the packet's eight bits cannot be consumed. */
  lemma ShortTimestampStep(rev: Revision, s: Loop)
    requires LoopOk(s) && Windowed(s.reader)
    requires Peek(s.reader, 0, 8).Some? && Peek(s.reader, 0, 8).value % 16 == 8
    ensures var dt4 := StreamBits(s.reader.input, s.reader.bitsConsumed + 4, 4);
      var t := s.chunk[ShortTimestamp];
      var chunk := s.chunk[ShortTimestamp := t.(columns := [t.columns[ShortTimestampDt4] + [dt4]],
                                                seqs := t.seqs + [s.seqNo],
                                                timestamps := t.timestamps + [s.timestamp])];
      PacketStep(rev, s)
      == if AfterConsume(s.reader, 8).Some?
         then Next(Loop(Consumed(s.reader, 8), s.seqNo + 1, s.timestamp + dt4 + 4, chunk))
         else Done(Ok(chunk))
  {
    var selector := Peek(s.reader, 0, 8).value;
    assert KnownLength(selector) == 8 && Dispatch(selector) == Some(ShortTimestamp);
    ShortTimestampCompletes(s.reader);
    ParseArmComplete(rev, s, ShortTimestamp, AfterConsume(s.reader, 8).Some?, Consumed(s.reader, 8));
    ShortTimestampState(s, Consumed(s.reader, 8));
  }

  /** The state after a complete ShortTimestamp parse, written out. */
  lemma ShortTimestampState(s: Loop, live: Reader)
    requires Shaped(s.chunk)
    ensures var dt4 := StreamBits(s.reader.input, s.reader.bitsConsumed + 4, 4);
      var t := s.chunk[ShortTimestamp];
      ParsedState(s, ShortTimestamp, live)
      == Loop(live, s.seqNo + 1, s.timestamp + dt4 + 4,
              s.chunk[ShortTimestamp := t.(columns := [t.columns[ShortTimestampDt4] + [dt4]],
                                           seqs := t.seqs + [s.seqNo],
                                           timestamps := t.timestamps + [s.timestamp])])
  {
    var layout := Layout(ShortTimestamp);
    var dt4 := StreamBits(s.reader.input, s.reader.bitsConsumed + 4, 4);
    assert layout == [Field("dt_4", 7, 4, U8)];
    var vs := PacketFields(layout, s.reader);
    assert vs == [dt4];
    LowKeepsNarrow(dt4, 4, 8);
    DeltaTotalNoDelta(layout, vs);
    var t := s.chunk[ShortTimestamp];
    assert Push(layout, t, vs).columns == [t.columns[ShortTimestampDt4] + [dt4]];
  }

  /** A LongTimestamp iteration at a windowed reader that goes on pushes the stream bits
      `[15:14]` as `ty` and `[63:16]` as `timestamp_value` and adds the latter to the
      timestamp exactly when `ty` is 1. */
  lemma LongTimestampReads(rev: Revision, s: Loop)
    requires LoopOk(s) && Windowed(s.reader) && PacketStep(rev, s).Next?
    requires Peek(s.reader, 0, 8).Some? && Dispatch(Peek(s.reader, 0, 8).value) == Some(LongTimestamp)
    ensures var ty := StreamBits(s.reader.input, s.reader.bitsConsumed + 14, 2);
      var value := StreamBits(s.reader.input, s.reader.bitsConsumed + 16, 48);
      var t := s.chunk[LongTimestamp];
      PacketStep(rev, s)
      == Next(Loop(Consumed(s.reader, 64), s.seqNo + 1, if ty == 1 then s.timestamp + value else s.timestamp,
                   s.chunk[LongTimestamp := t.(columns := [t.columns[LongTimestampTy] + [ty], t.columns[LongTimestampValue] + [value]],
                                               seqs := t.seqs + [s.seqNo],
                                               timestamps := t.timestamps + [s.timestamp])]))
  {
    StepReadsPacket(rev, s);
    assert KnownLength(Peek(s.reader, 0, 8).value) == 64;
    LongTimestampState(s, Consumed(s.reader, 64));
  }

  /** The state after a complete LongTimestamp parse, written out. */
  lemma LongTimestampState(s: Loop, live: Reader)
    requires Shaped(s.chunk)
    ensures var ty := StreamBits(s.reader.input, s.reader.bitsConsumed + 14, 2);
      var value := StreamBits(s.reader.input, s.reader.bitsConsumed + 16, 48);
      var t := s.chunk[LongTimestamp];
      ParsedState(s, LongTimestamp, live)
      == Loop(live, s.seqNo + 1, if ty == 1 then s.timestamp + value else s.timestamp,
              s.chunk[LongTimestamp := t.(columns := [t.columns[LongTimestampTy] + [ty], t.columns[LongTimestampValue] + [value]],
                                          seqs := t.seqs + [s.seqNo],
                                          timestamps := t.timestamps + [s.timestamp])])
  {
    var vs := PacketFields(Layout(LongTimestamp), s.reader);
    LongTimestampFields(s.reader);
    TwoColumnState(s, LongTimestamp, live, if vs[0] == 1 then s.timestamp + vs[1] else s.timestamp);
  }

  /** The state after a complete parse of a kind with two unchanged columns and no `dt`
      field, from its adjusted timestamp `ts2`. */
  lemma TwoColumnState(s: Loop, k: Kind, live: Reader, ts2: nat)
    requires Shaped(s.chunk) && |Layout(k)| == 2
    requires var layout, vs := Layout(k), PacketFields(Layout(k), s.reader);
      && layout[0].store.Column? && layout[1].store.Column?
      && Stored(layout[0], vs[0]) == vs[0] && Stored(layout[1], vs[1]) == vs[1]
      && FieldsAdjust(k, vs, s.timestamp) == ts2
    ensures var vs, t := PacketFields(Layout(k), s.reader), s.chunk[k];
      ParsedState(s, k, live)
      == Loop(live, s.seqNo + 1, ts2,
              s.chunk[k := t.(columns := [t.columns[0] + [vs[0]], t.columns[1] + [vs[1]]],
                              seqs := t.seqs + [s.seqNo], timestamps := t.timestamps + [s.timestamp])])
  {
    var layout, vs := Layout(k), PacketFields(Layout(k), s.reader);
    DeltaTotalNoDelta(layout, vs);
    PushTwo(layout, s.chunk[k], vs);
  }

  /** The two fields of a LongTimestamp packet, each stored unchanged by its column. */
  lemma LongTimestampFields(r: Reader)
    ensures var layout := Layout(LongTimestamp);
      var vs := PacketFields(layout, r);
      && vs == [StreamBits(r.input, r.bitsConsumed + 14, 2), StreamBits(r.input, r.bitsConsumed + 16, 48)]
      && layout[0].store.Column? && layout[1].store.Column?
      && Stored(layout[0], vs[0]) == vs[0] && Stored(layout[1], vs[1]) == vs[1]
  {
    var layout := Layout(LongTimestamp);
    assert layout == [Field("ty", 15, 14, U8), Field("timestamp_value", 63, 16, U64)];
    var vs := PacketFields(layout, r);
    StoredFits(layout, r, 0);
    StoredFits(layout, r, 1);
  }

  // ---------------------------------------------------------------------------
  // What the chunk holds

  /** The two `seq` columns share no value. */
  predicate Disjoint(a: seq<nat>, b: seq<nat>)
  {
    forall i, j | 0 <= i < |a| && 0 <= j < |b| :: a[i] != b[j]
  }

  /** No `seq` value appears in two tables. */
  predicate SeqsDistinct(c: Chunk)
    requires Shaped(c)
  {
    forall k1: Kind, k2: Kind | k1 != k2 :: Disjoint(c[k1].seqs, c[k2].seqs)
  }

  lemma DisjointAppend(a: seq<nat>, b: seq<nat>, x: nat)
    requires Disjoint(a, b) && AllBelow(b, x)
    ensures Disjoint(a + [x], b) && Disjoint(b, a + [x])
  {
    forall i, j | 0 <= i < |a| + 1 && 0 <= j < |b|
      ensures (a + [x])[i] != b[j]
    {
      if i == |a| {
        assert b[j] < x;
      }
    }
  }

  /** What the returned chunk satisfies: every table is in shape and `seq` values are
      unique across all tables. */
  predicate ChunkRecords(c: Chunk)
  {
    Shaped(c) && (forall k: Kind :: Records(Layout(k), c[k])) && SeqsDistinct(c)
  }

  /** What the loop keeps: the chunk is in shape, every record of it predates the counter
      and the running timestamp, and every table holds one value per record in each column. */
  predicate ChunkOk(c: Chunk, seqNo: nat, ts: nat)
  {
    && Shaped(c)
    && (forall k: Kind :: TableOk(Layout(k), c[k], seqNo, ts) && Aligned(Layout(k), c[k]))
    && SeqsDistinct(c)
  }

  predicate LoopInv(s: Loop)
  {
    LoopOk(s) && ChunkOk(s.chunk, s.seqNo, s.timestamp)
  }

  lemma ChunkOkRecords(c: Chunk, seqNo: nat, ts: nat)
    requires ChunkOk(c, seqNo, ts)
    ensures ChunkRecords(c)
  {
  }

  lemma ChunkOkMore(c: Chunk, seqNo: nat, ts: nat, seqNo2: nat, ts2: nat)
    requires ChunkOk(c, seqNo, ts) && seqNo <= seqNo2 && ts <= ts2
    ensures ChunkOk(c, seqNo2, ts2)
  {
    forall k: Kind
      ensures TableOk(Layout(k), c[k], seqNo2, ts2)
    {
      TableOkMore(Layout(k), c[k], seqNo, ts, seqNo2, ts2);
    }
  }

  /** Replacing one table by its parse keeps `seq` unique: the parse recorded nothing or
      the counter, which no table holds yet. */
  lemma SeqsDistinctUpdate(c: Chunk, seqNo: nat, k: Kind, t2: Table)
    requires Shaped(c) && SeqsDistinct(c) && forall k1: Kind :: AllBelow(c[k1].seqs, seqNo)
    requires t2.seqs == c[k].seqs || t2.seqs == c[k].seqs + [seqNo]
    requires |t2.columns| == |Layout(k)|
    ensures Shaped(c[k := t2]) && SeqsDistinct(c[k := t2])
  {
    var c2 := c[k := t2];
    forall k1: Kind, k2: Kind | k1 != k2
      ensures Disjoint(c2[k1].seqs, c2[k2].seqs)
    {
      if t2.seqs != c[k].seqs {
        if k1 == k {
          DisjointAppend(c[k].seqs, c[k2].seqs, seqNo);
        } else if k2 == k {
          DisjointAppend(c[k].seqs, c[k1].seqs, seqNo);
        }
      }
    }
  }

  /** A completed parse of kind `k` (the table `t2`, the timestamp `ts2` after its
      adjustment) gives a chunk the loop can go on with. */
  lemma ChunkUpdate(c: Chunk, seqNo: nat, ts: nat, k: Kind, t2: Table, ts2: nat)
    requires ChunkOk(c, seqNo, ts) && ts <= ts2
    requires TableOk(Layout(k), t2, seqNo + 1, ts2) && Aligned(Layout(k), t2)
    requires t2.seqs == c[k].seqs + [seqNo]
    ensures ChunkOk(c[k := t2], seqNo + 1, ts2)
  {
    SeqsDistinctUpdate(c, seqNo, k, t2);
    forall k1: Kind
      ensures TableOk(Layout(k1), c[k := t2][k1], seqNo + 1, ts2)
    {
      if k1 != k {
        TableOkMore(Layout(k1), c[k1], seqNo, ts, seqNo + 1, ts2);
      }
    }
  }

  /** A parse that stopped leaves a chunk whose tables are in shape, to be returned. */
  lemma ChunkStop(c: Chunk, seqNo: nat, ts: nat, k: Kind, t2: Table)
    requires ChunkOk(c, seqNo, ts) && Records(Layout(k), t2)
    requires t2.seqs == c[k].seqs || t2.seqs == c[k].seqs + [seqNo]
    ensures ChunkRecords(c[k := t2])
  {
    SeqsDistinctUpdate(c, seqNo, k, t2);
  }

  /** The adjustments only move the timestamp forward. */
  lemma AdjustGrows(rev: Revision, k: Kind, p: Parsed)
    requires |p.table.columns| == |Layout(k)| && Adjust(rev, k, p).Some?
    ensures Adjust(rev, k, p).value >= p.timestamp
  {
  }

  /** The end of an arm keeps the loop invariant when it goes on and returns a chunk in
      shape when it stops, given what the parse keeps of the table. */
  lemma ArmEndKeeps(s: Loop, k: Kind, p: Parsed, adjusted: Option<nat>, advanced: bool, live: Reader)
    requires LoopInv(s) && Valid(live)
    requires p.timestamp >= s.timestamp && TableOk(Layout(k), p.table, s.seqNo + 1, p.timestamp)
    requires p.ok ==> Aligned(Layout(k), p.table) && p.table.seqs == s.chunk[k].seqs + [s.seqNo]
    requires !p.ok ==> p.table.seqs == s.chunk[k].seqs
    requires adjusted.Some? ==> adjusted.value >= p.timestamp
    ensures var st := ArmEnd(s, k, p, adjusted, advanced, live);
      && (st.Next? ==> LoopInv(st.state))
      && (st.Done? && st.outcome.Ok? ==> ChunkRecords(st.outcome.chunk))
  {
    if adjusted.Some? {
      if p.ok && advanced {
        TableOkMore(Layout(k), p.table, s.seqNo + 1, p.timestamp, s.seqNo + 1, adjusted.value);
        ChunkUpdate(s.chunk, s.seqNo, s.timestamp, k, p.table, adjusted.value);
      } else {
        ChunkStop(s.chunk, s.seqNo, s.timestamp, k, p.table);
      }
    }
  }

  /** A parse arm keeps the loop invariant when it goes on and returns a chunk in shape
      when it stops. */
  lemma ParseArmKeeps(rev: Revision, s: Loop, k: Kind, advanced: bool, live: Reader)
    requires LoopInv(s) && Valid(live)
    ensures var st := ParseArm(rev, s, k, advanced, live);
      && (st.Next? ==> LoopInv(st.state))
      && (st.Done? && st.outcome.Ok? ==> ChunkRecords(st.outcome.chunk))
  {
    LayoutsWellFormed(k);
    var layout, t := Layout(k), s.chunk[k];
    var p := ParseOutcome(layout, s.reader, t, s.seqNo, s.timestamp);
    ParseKeepsTable(layout, s.reader, t, s.seqNo, s.timestamp);
    var a := Adjust(rev, k, p);
    if a.Some? {
      AdjustGrows(rev, k, p);
    }
    ArmEndKeeps(s, k, p, a, advanced, live);
  }

  /** An iteration keeps the loop invariant when it goes on and returns a chunk in shape
      when it stops. */
  lemma StepKeeps(rev: Revision, s: Loop)
    requires LoopInv(s)
    ensures var st := PacketStep(rev, s);
      && (st.Next? ==> LoopInv(st.state))
      && (st.Done? && st.outcome.Ok? ==> ChunkRecords(st.outcome.chunk))
  {
    ChunkOkRecords(s.chunk, s.seqNo, s.timestamp);
    match Peek(s.reader, 0, 8)
    case None =>
    case Some(selector) =>
      if selector % 16 != 7 {
        var len := KnownLength(selector);
        var live := Consumed(s.reader, len);
        if Dispatch(selector).Some? {
          ParseArmKeeps(rev, s, Dispatch(selector).value, AfterConsume(s.reader, len).Some?, live);
        } else {
          ChunkOkMore(s.chunk, s.seqNo, s.timestamp, s.seqNo + 1, s.timestamp);
        }
      }
  }

  /** Whatever chunk the loop returns is in shape: within each table the `seq` entries
      rise, there is one timestamp per entry and the timestamps do not fall, the `dt`
      columns are empty, every other column holds values of its type and one per record
      (plus at most one of a packet cut short); no `seq` value is in two tables. */
  lemma {:induction false} DecodeLoopRecords(rev: Revision, s: Loop)
    requires LoopInv(s) && DecodeLoop(rev, s).Ok?
    ensures ChunkRecords(DecodeLoop(rev, s).chunk)
    decreases Remaining(s.reader)
  {
    StepKeeps(rev, s);
    match PacketStep(rev, s)
    case Done(o) =>
    case Next(s2) =>
      StepShrinks(rev, s);
      DecodeLoopRecords(rev, s2);
  }

  lemma StartInv(input: seq<byte>)
    requires |input| >= 8
    ensures LoopInv(Start(input))
  {
    var c := EmptyChunk();
    forall k: Kind
      ensures TableOk(Layout(k), c[k], 0, 0) && Aligned(Layout(k), c[k])
    {
      AllKindsListed(k);
      assert c[k] == EmptyTable(k);
    }
  }

  /** Every chunk `parse_sqtt` returns is well formed: rising `seq` entries unique across
      kinds, timestamps that do not fall, and columns in shape. */
  lemma DecodeRecords(rev: Revision, input: seq<byte>)
    requires |input| >= 8 && Decode(rev, input).Ok?
    ensures ChunkRecords(Decode(rev, input).chunk)
  {
    StartInv(input);
    DecodeLoopRecords(rev, Start(input));
  }

  // ---------------------------------------------------------------------------
  // The first iterations

  /** `BitReader::new` leaves the window zero, so the first iteration always reads
      selector 0: a 4-bit packet that records nothing and only bumps `seq`. */
  lemma FirstIteration(rev: Revision, input: seq<byte>)
    requires |input| >= 8
    ensures PacketStep(rev, Start(input)) == Next(Loop(Consumed(New(input), 4), 1, 0, EmptyChunk()))
  {
    assert Peek(New(input), 0, 8) == Some(0);
    assert KnownLength(0) == 4;
  }

  /** Eight bytes on which the loop as written panics: after the leading selector 0 and a
      52-bit `0x6` packet, the last byte holds selector 1, a LongTimestamp whose `ty`
      field no longer fits in the window. Its parse pushes nothing, and the `unwrap` of
      the empty `ty` column panics. */
  const PanicInput: seq<byte> := [0x60, 0, 0, 0, 0, 0, 0, 0x01]

  /** The window loaded from `PanicInput`. */
  const PanicWindow: nat := 0x60 + 0x100_0000_0000_0000

  lemma PanicWindowLoaded()
    ensures PanicInput[..8] == PanicInput && LeValue(PanicInput) == PanicWindow
  {
  }

  lemma Pow2Of56()
    ensures Pow2(56) == 0x100_0000_0000_0000
  {
    assert Pow2(8) == 0x100 by { Pow2Bytes(1); }
    assert Pow2(16) == 0x1_0000 by { Pow2Bytes(2); }
    assert Pow2(24) == 0x100_0000 by { Pow2Bytes(3); }
    assert Pow2(32) == 0x1_0000_0000 by { Pow2Bytes(4); }
    assert Pow2(40) == 0x100_0000_0000 by { Pow2Bytes(5); }
    assert Pow2(48) == 0x1_0000_0000_0000 by { Pow2Bytes(6); }
    Pow2Bytes(7);
  }

  /** The selector after the first 4 bits of `PanicWindow`. */
  lemma PanicSecondSelector(x: nat)
    requires x == PanicWindow
    ensures BitArith.Field(x, 4, 8) == 6
  {
    FieldIsDivMod(x, 4, 8);
    assert Pow2(4) == 16 && Pow2(8) == 256;
    assert x / 16 == 6 + 0x10_0000_0000_0000;
    assert (6 + 0x10_0000_0000_0000) % 256 == 6;
  }

  /** The selector after the first 56 bits of `PanicWindow`. */
  lemma PanicThirdSelector(x: nat)
    requires x == PanicWindow
    ensures BitArith.Field(x, 56, 8) == 1
  {
    FieldIsDivMod(x, 56, 8);
    assert Pow2(8) == 256;
    Pow2Of56();
    assert x / 0x100_0000_0000_0000 == 1;
  }

  /** The `0x6` parse of the first table entry reads its one `dt` field and records `seq` 1. */
  lemma Packet0x6Parse(r: Reader)
    requires Valid(r) && r.bitsConsumed <= 56
    ensures var dt := BitArith.Field(r.bits, 5 + r.bitsConsumed, 3);
      ParseOutcome(Layout(Packet0x6), r, EmptyTable(Packet0x6), 1, 0) == Parsed(true, Table([1], [dt], [[]]), dt, r)
  {
    var dt := BitArith.Field(r.bits, 5 + r.bitsConsumed, 3);
    var layout := Layout(Packet0x6);
    LayoutsWellFormed(Packet0x6);
    assert ReadFields(layout, 0, r) == Fields(true, [dt], r) by {
      assert !ConsumesBefore(layout, 0);
      assert ReadField(layout, 0, r) == Peek(r, 5, 3) == Some(dt);
    }
    assert Push(layout, EmptyTable(Packet0x6), [dt]) == EmptyTable(Packet0x6);
    assert DeltaTotal(layout, [dt]) == dt by {
      assert [dt][..0] == [];
    }
  }

  /** An eight-byte reader 4 bits in, at selector 6: the 52-bit `0x6` packet is parsed
      and consumed, recording `seq` 1 and its `dt` as the timestamp. */
  lemma Packet0x6Step(rev: Revision, r: Reader)
    requires Windowed(r) && |r.input| == 8 && r.bitsConsumed == 4
    requires BitArith.Field(r.bits, 4, 8) == 6
    ensures var dt := BitArith.Field(r.bits, 9, 3);
      PacketStep(rev, Loop(r, 1, 0, EmptyChunk()))
      == Next(Loop(r.(bitsConsumed := 56), 2, dt, EmptyChunk()[Packet0x6 := Table([1], [dt], [[]])]))
  {
    assert Peek(r, 0, 8) == Some(6);
    assert KnownLength(6) == 52;
    assert Dispatch(6) == Some(Packet0x6);
    Packet0x6Parse(r);
    assert r.input[..8] == r.input;
    assert AfterConsume(r, 52) == Some(r.(bitsConsumed := 56));
  }

  /** An eight-byte reader 56 bits in, at selector 1, with no LongTimestamp recorded yet:
      the packet cannot be consumed and its `ty` field does not fit in the window. The
      loop as written panics on the empty `ty` column; the corrected loop stops. */
  lemma LongTimestampStep(s: Loop)
    requires LoopOk(s) && |s.reader.input| == 8 && s.reader.bitsConsumed == 56
    requires BitArith.Field(s.reader.bits, 56, 8) == 1
    requires s.chunk[LongTimestamp] == EmptyTable(LongTimestamp)
    ensures PacketStep(AsWritten, s) == Done(Panic)
    ensures PacketStep(Corrected, s).Done? && PacketStep(Corrected, s).outcome.Ok?
  {
    assert Peek(s.reader, 0, 8) == Some(1);
    assert KnownLength(1) == 64;
    assert Dispatch(1) == Some(LongTimestamp);
    assert AfterConsume(s.reader, 64).None?;
    var layout := Layout(LongTimestamp);
    LayoutsWellFormed(LongTimestamp);
    assert ReadFields(layout, 0, s.reader) == Fields(false, [], s.reader) by {
      assert !ConsumesBefore(layout, 0);
      assert ReadField(layout, 0, s.reader) == Peek(s.reader, 14, 2) == None;
    }
    assert Push(layout, EmptyTable(LongTimestamp), []) == EmptyTable(LongTimestamp);
    var p := ParseOutcome(layout, s.reader, EmptyTable(LongTimestamp), s.seqNo, s.timestamp);
    assert p == Parsed(false, EmptyTable(LongTimestamp), s.timestamp, s.reader);
    assert Adjust(AsWritten, LongTimestamp, p) == None;
    assert Adjust(Corrected, LongTimestamp, p) == Some(s.timestamp);
  }

  /** The tables after the `0x6` packet of `PanicInput`, whose `dt` is `dt`. */
  function PanicTables(dt: nat): (c: Chunk)
    ensures Shaped(c) && c[LongTimestamp] == EmptyTable(LongTimestamp)
  {
    assert |Layout(Packet0x6)| == 1;
    AllKindsListed(LongTimestamp);
    EmptyChunk()[Packet0x6 := Table([1], [dt], [[]])]
  }

  /** What a dispatch arm leaves: whether the parse completed, the adjusted timestamp
      (nothing when an `unwrap` panics) and the tables. */
  datatype Arm = Arm(ok: bool, timestamp: Option<nat>, chunk: Chunk)

  /** What the corrected dispatch of `selector` does to the tables `c` and the timestamp
      `ts` when it parses from `r`. */
  function DispatchArm(selector: byte, r: Reader, c: Chunk, seqNo: nat, ts: nat): Arm
    requires Valid(r) && Shaped(c)
  {
    match Dispatch(selector)
    case None => Arm(true, Some(ts), c)
    case Some(k) =>
      LayoutsWellFormed(k);
      var p := ParseOutcome(Layout(k), r, c[k], seqNo, ts);
      Arm(p.ok, Adjust(Corrected, k, p), c[k := p.table])
  }

  /** The corrected steps after the length lookup, from what the dispatch did and whether
      the live reader's consume succeeded. */
  lemma AfterDispatchOf(s: Loop, selector: byte, len: nat, ok: bool, ts: nat, c: Chunk)
    requires LoopOk(s) && 0 < len <= 96
    requires DispatchArm(selector, s.reader, s.chunk, s.seqNo, s.timestamp) == Arm(ok, Some(ts), c)
    ensures AfterDispatch(Corrected, s, selector, len)
      == if ok && AfterConsume(s.reader, len).Some? then Next(Loop(Consumed(s.reader, len), s.seqNo + 1, ts, c))
         else Done(Ok(c))
  {
  }

  /** A corrected iteration at a selector that does not fit in the window. */
  lemma StepAtEnd(s: Loop)
    requires LoopOk(s) && Peek(s.reader, 0, 8).None?
    ensures var low := Peek(s.reader, 0, 4);
      PacketStep(Corrected, s) == if low.None? || low.value == 0 then Done(Ok(s.chunk)) else Done(UnknownPacket(low.value))
  {
  }

  /** A corrected iteration at a selector without a length. */
  lemma StepUnknown(s: Loop, selector: byte)
    requires LoopOk(s) && Peek(s.reader, 0, 8) == Some(selector) && selector % 16 == 7
    ensures PacketStep(Corrected, s) == Done(UnknownPacket(selector))
  {
  }

  /** A corrected iteration at a known selector, from what its dispatch did. */
  lemma StepOfDispatch(s: Loop, selector: byte, ok: bool, ts: nat, c: Chunk)
    requires LoopOk(s) && Peek(s.reader, 0, 8) == Some(selector) && selector % 16 != 7
    requires DispatchArm(selector, s.reader, s.chunk, s.seqNo, s.timestamp) == Arm(ok, Some(ts), c)
    ensures var len := KnownLength(selector);
      PacketStep(Corrected, s)
      == if ok && AfterConsume(s.reader, len).Some? then Next(Loop(Consumed(s.reader, len), s.seqNo + 1, ts, c))
         else Done(Ok(c))
  {
    AfterDispatchOf(s, selector, KnownLength(selector), ok, ts, c);
  }

  /** An iteration that leaves the loop gives the loop's outcome. */
  lemma DecodeLoopDone(rev: Revision, s: Loop)
    requires LoopOk(s) && PacketStep(rev, s).Done?
    ensures DecodeLoop(rev, s) == PacketStep(rev, s).outcome
  {
  }

  /** An iteration that goes on leaves the rest of the loop to the next state. */
  lemma DecodeLoopNext(rev: Revision, s: Loop)
    requires LoopOk(s) && PacketStep(rev, s).Next?
    ensures LoopOk(PacketStep(rev, s).state)
    ensures DecodeLoop(rev, s) == DecodeLoop(rev, PacketStep(rev, s).state)
  {
    StepShrinks(rev, s);
  }

  /** From an eight-byte reader 4 bits in whose next selectors are 6 and, 52 bits
      later, 1, the loop as written panics and the corrected loop returns the chunk. */
  lemma PanicAfterFirst(rev: Revision, r: Reader)
    requires Windowed(r) && |r.input| == 8 && r.bitsConsumed == 4
    requires BitArith.Field(r.bits, 4, 8) == 6 && BitArith.Field(r.bits, 56, 8) == 1
    ensures rev.AsWritten? ==> DecodeLoop(rev, Loop(r, 1, 0, EmptyChunk())) == Panic
    ensures rev.Corrected? ==> DecodeLoop(rev, Loop(r, 1, 0, EmptyChunk())).Ok?
  {
    var dt := BitArith.Field(r.bits, 9, 3);
    var s3 := Loop(r.(bitsConsumed := 56), 2, dt, PanicTables(dt));
    Packet0x6Step(rev, r);
    assert PacketStep(rev, Loop(r, 1, 0, EmptyChunk())) == Next(s3);
    DecodeLoopNext(rev, Loop(r, 1, 0, EmptyChunk()));
    LongTimestampStep(s3);
  }

  /** The loop as written panics on `PanicInput`; the corrected loop returns the chunk. */
  lemma LongTimestampPanics()
    ensures Decode(AsWritten, PanicInput) == Panic
    ensures Decode(Corrected, PanicInput).Ok?
  {
    PanicWindowLoaded();
    PanicSecondSelector(PanicWindow);
    PanicThirdSelector(PanicWindow);
    var r := Reader(PanicInput, PanicWindow, 4);
    assert Consumed(New(PanicInput), 4) == r;
    FirstIteration(AsWritten, PanicInput);
    FirstIteration(Corrected, PanicInput);
    PanicAfterFirst(AsWritten, r);
    PanicAfterFirst(Corrected, r);
  }
}
