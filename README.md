# sqttv2 backend core in Dafny

This project models the core of the sqttv2 backend, which decodes AMD SQTT (shader thread trace) captures and turns the markers in them into events. It has three parts.

- **The SQTT bit-stream decoder** (`backend/src/sqtt.rs`).
  - `BitReader` is a sliding 64-bit little-endian window over a byte slice. It has a peek (`bits`) and a `consume` that refills the window, by a fast path or a clamped slow path.
  - `sqtt_packet_length` maps the low eight bits of a packet, its selector, to the packet's length in bits. `build_packet_length_table` tabulates it.
  - A macro generates one `parse` per packet kind. Each reads the kind's `[top:bottom]` fields into append-only columns. It consumes first whenever a field's top bit lies more than 60 bits past the last consume point. A `dt` field is added into the running timestamp instead of being stored.
  - `parse_sqtt` is the loop that ties these together. It peeks the selector and looks up the length. It parses the packet from a clone of the reader while the live reader consumes it. It then applies the short or long timestamp adjustment and bumps the global `seq` counter.
- **The userdata decoder** `SqttUserdata` (`backend/src/userdata.rs`). It extracts the identifier, declared length and API type of a marker's first dword. Its constructor checks the declared length.
- **The body of `get_events`** (`backend/src/main.rs`). It walks the `reg_write` and `initiator` rows of the first chunk in merged order. It gathers the dwords written to the two thread-trace userdata registers until a marker is complete, emits one event per complete marker, and drops an incomplete marker at a thread-trace marker initiator.

## Layout

Each module has two layers.

- **Value layer.** Pure functions over datatypes say what every operation computes: `Reader`, `Peek`, `AfterConsume` and `AfterRefill`; `PacketLength`; `ParseOutcome`; `PacketStep`, `DecodeLoop` and `Decode`; `Feed`, `Run` and `Reassemble`. The lemmas about them carry the properties.
- **Imperative layer.** The source's imperative code keeps its form.
  - The class `BitReader` updates its `input`, `bits` and `bitsConsumed` fields in place.
  - The class `PacketTable` pushes onto its `seq`, `timestamp` and field columns.
  - The class `SqttChunk` holds one table per kind.
  - The method `ParseSqtt` runs the decoder loop, and `CollectEvents` runs the marker loop.
  - Each method's postcondition equates its result or new state with the value-layer function.

Modules, one per file:

- `Wrappers`: the `Option` and `Result` types.
- `BitArith`: powers of two, bit fields as division and modulo, and the little-endian value of a byte string.
- `SqttReader`: `BitReader`.
- `SqttLength`: `sqtt_packet_length` and its table.
- `SqttPackets`: the packet layouts, the per-kind `parse` and the tables.
- `SqttDecode`: the loop of `parse_sqtt` as a function, with its properties and the finding below.
- `SqttParse`: `SqttChunk` and the in-place `parse_sqtt`.
- `Userdata`: `SqttUserdata`.
- `Events`: the loop of `get_events`.

A shift right by `n` followed by a mask of `k` ones is modelled as division by 2^n followed by remainder modulo 2^k, on unbounded naturals.

Where the code and the written description of the system differ, the model follows the code:

- The code has 19 packet structs, not 16.
- `seq` is one global counter, bumped once per iteration that goes on. This includes the selectors whose match arm records nothing. So `seq` values are unique across all tables and rise within each table, but they are not consecutive.
- A packet's fields are not recorded all at once. Each field is pushed onto its column as soon as it is read, so a read that fails leaves the earlier fields of that packet pushed, while `seq` and `timestamp` are pushed only after the last field (`SqttPackets.ParseStops`).

## Model

| member | source | states |
|---|---|---|
| SqttReader.New | backend/src/sqtt.rs:192-202 | `BitReader::new` on at least eight bytes: a valid reader over the input with nothing consumed, so `8 * len` bits remain |
| SqttReader.BitReader.constructor | backend/src/sqtt.rs:192-202 | the in-place constructor yields exactly the reader `New(input)` |
| SqttReader.BitReader.Clone | backend/src/sqtt.rs:323 | the derived `clone` copies all three fields |
| SqttReader.Peek | backend/src/sqtt.rs:205-214 | `None` exactly when `lsb + width > 64 - bits_consumed`; otherwise a value below `2^width` |
| SqttReader.BitReader.Bits | backend/src/sqtt.rs:205-214 | the method returns `Peek` of the current state and changes no field |
| SqttReader.PeekReadsStream | backend/src/sqtt.rs:205-214 | on a loaded window, the peeked value is the `width` bits of the byte stream at absolute position `bits_consumed + lsb`, little-endian |
| SqttReader.WindowFitsU64 | backend/src/sqtt.rs:233 | a loaded window holds the little-endian value of eight bytes, so it fits in a `u64` |
| SqttReader.AfterConsume | backend/src/sqtt.rs:217-224 | `consume(n)` fails exactly when `n + bits_consumed > 8 * input.len()`; on success the reader is valid again |
| SqttReader.Consumed | backend/src/sqtt.rs:217-224 | the reader after `consume`, the same reader when it failed, is valid |
| SqttReader.BitReader.Consume | backend/src/sqtt.rs:217-224 | the method reports success exactly when `AfterConsume` succeeds, and its new state is `Consumed(old state, n)` |
| SqttReader.ConsumeAdvances | backend/src/sqtt.rs:217-241 | a successful `consume(n)` moves the absolute bit position (dropped bytes × 8 + `bits_consumed`) forward by exactly `n`, over a suffix of the old buffer, and leaves the window loaded |
| SqttReader.AfterRefill | backend/src/sqtt.rs:226-234 | refill keeps the reader valid, so every slice stays in bounds; on a buffer of at least 29 bytes it leaves `bits_consumed < 8` |
| SqttReader.BitReader.Refill | backend/src/sqtt.rs:226-234 | the in-place refill ends in `AfterRefill(old state)`, with the fast path's unchecked slices in bounds |
| SqttReader.AfterRefillSlow | backend/src/sqtt.rs:236-241 | the clamped slow refill keeps at least eight bytes and a valid reader |
| SqttReader.BitReader.RefillSlow | backend/src/sqtt.rs:236-241 | the in-place slow refill ends in `AfterRefillSlow(old state)` |
| SqttReader.RefillAdvances | backend/src/sqtt.rs:226-241 | a refill keeps the absolute bit position and the unread stream, and both paths load the window with the little-endian `u64` of `input[..8]` |
| SqttReader.AdvancesShiftsStream | backend/src/sqtt.rs:213-233 | after advancing `n` bits, a bit at offset `d` is the bit at `n + d` of the old stream |
| SqttReader.Skip | backend/src/sqtt.rs:231 | dropping `k` bytes from the front leaves a suffix `k` bytes shorter |
| SqttLength.PacketLength | backend/src/sqtt.rs:246-286 | no length exactly when `selector % 16 == 7`; otherwise a length between 4 and 96. The `unreachable!()` arms and the `(selector / 16) % 8` fallback are dead, and the `NonZeroU8::unwrap` cannot fail |
| SqttLength.PacketLengthIsKnown | backend/src/sqtt.rs:246-286 | every length is one of 4, 8, 12, 20, 24, 28, 32, 52, 64 and 96 |
| SqttLength.LengthTable | backend/src/sqtt.rs:288-294 | 256 entries, and entry `s` is `sqtt_packet_length(s)` |
| SqttPackets.LayoutsWellFormed | backend/src/sqtt.rs:67-181 | for every packet kind, each field after the consume rule satisfies `(bottom - last_consume) + (top + 1 - bottom) <= 60`, so the assert at sqtt.rs:207 never fires; a consume is at most 96 bits |
| SqttPackets.LongTimestampWellFormed | backend/src/sqtt.rs:84-87 | the LongTimestamp layout is well formed under the consume rule |
| SqttPackets.RegWriteWellFormed | backend/src/sqtt.rs:115-123 | the RegWrite layout is well formed under the consume rule |
| SqttPackets.WideLayoutsWellFormed | backend/src/sqtt.rs:89-143 | the EventA, EventB, Initiator, WaveStart and WaveAllocEnd layouts are well formed |
| SqttPackets.NarrowLayoutsWellFormed | backend/src/sqtt.rs:144-181 | every layout of at most four fields is well formed |
| SqttPackets.LayoutConsumes | backend/src/sqtt.rs:84-123 | a field triggers a consume exactly for LongTimestamp's `[63:16]` (16 bits) and RegWrite's `[63:32]` (32 bits), and the consume point then becomes that field's bottom bit |
| SqttPackets.WellFormedField | backend/src/sqtt.rs:12-25 | for a field of a well-formed layout: the consume point never passes the field's bottom; a consume is at most 96 bits; the read after it fits in 60 bits with a width of at least 1 |
| SqttPackets.FieldPlan | backend/src/sqtt.rs:12-25 | one field's read: consume `bottom - last_consume` bits when `top - last_consume > 60` and leave the reader alone otherwise; then `bits(bottom - last_consume, top + 1 - bottom)` |
| SqttPackets.ReadField | backend/src/sqtt.rs:12-25 | a field read that succeeds gives a value below `2^(top + 1 - bottom)` |
| SqttPackets.ReadFields | backend/src/sqtt.rs:46-50 | the fields are read in order until the first `None` (the `?`); the read is complete exactly when every field was read |
| SqttPackets.ReadFieldsStep | backend/src/sqtt.rs:46-50 | a `None` stops the read at that field; a value is prepended to the rest of the read |
| SqttPackets.Record | backend/src/sqtt.rs:16-26 | recording a field keeps the shape of the table |
| SqttPackets.Push | backend/src/sqtt.rs:25-26 | pushing the values of a partial or complete read leaves `seq` and `timestamp` alone and keeps the table's shape |
| SqttPackets.PushSnoc | backend/src/sqtt.rs:16-26 | one more field value is one more `Record`; a `dt` field adds its value into the running timestamp |
| SqttPackets.ParseOutcome | backend/src/sqtt.rs:46-54 | a parse keeps the table's shape and leaves a valid reader |
| SqttPackets.ParseRecords | backend/src/sqtt.rs:16-52 | a successful parse pushes exactly one `seq` and one `timestamp`, the pushed timestamp being the returned one; a failed parse pushes neither; each column keeps its contents and gains at most one value below `2^width`, or exactly one on success; `dt` columns stay empty; the timestamp only grows |
| SqttPackets.ParseStops | backend/src/sqtt.rs:16-54 | when a field read fails, the values read before it stay pushed, `seq` and `timestamp` are not pushed, and the `dt` values read so far are already in the timestamp |
| SqttPackets.ParseCompletes | backend/src/sqtt.rs:46-54 | a complete read pushes every value, then `seq` and the timestamp that already includes this packet's `dt` |
| SqttPackets.ParseReadsPacket | backend/src/sqtt.rs:12-54 | the values of a successful parse are the packet's fields as bit ranges of the byte stream, measured from the packet's first bit |
| SqttPackets.ReadFieldsReadStream | backend/src/sqtt.rs:12-50 | each value read is the field's `[top:bottom]` bits of the stream relative to the packet start, however many consumes came before |
| SqttPackets.ReadFieldsPrefix | backend/src/sqtt.rs:46-50 | the values of a read are a prefix of the packet's fields |
| SqttPackets.PacketFields | backend/src/sqtt.rs:67-181 | the packet's fields as stream bit ranges, one per layout entry |
| SqttPackets.ParseKeepsTable | backend/src/sqtt.rs:46-54 | a parse keeps a table's records in shape (rising `seq`, non-falling timestamps), and on success it keeps one value per record in every non-`dt` column |
| SqttPackets.ParsedColumnNonEmpty | backend/src/sqtt.rs:46-54 | after a successful parse every non-`dt` column has grown by one, so its `last()` exists |
| SqttPackets.EmptyChunk | backend/src/sqtt.rs:58-62 | `SqttChunk::default()`: one empty table per kind |
| SqttPackets.AllKindsListed | backend/src/sqtt.rs:67-181 | the 19 packet kinds are all listed |
| SqttPackets.PacketTable.constructor | backend/src/sqtt.rs:37-42 | a fresh table of kind `k` with the layout of `k` and empty columns |
| SqttPackets.PacketTable.Parse | backend/src/sqtt.rs:44-54 | the in-place parse returns, stores and leaves the reader exactly as `ParseOutcome` says |
| SqttPackets.PacketTable.ParseFields | backend/src/sqtt.rs:47-50 | the field loop pushes the values of `ReadFields`, adds the `dt` values to the timestamp and leaves the reader where `ReadFields` does |
| SqttPackets.PacketTable.Store | backend/src/sqtt.rs:16-26 | one field: push its value onto its column, or add it into the timestamp for `dt` |
| SqttPackets.PacketTable.ReadNext | backend/src/sqtt.rs:12-25 | one field's consume and read, returning `ReadField`, the reader `ReaderFor` and the new consume point |
| SqttDecode.Dispatch | backend/src/sqtt.rs:327-366 | the `match` on the selector calls no `parse` exactly when `selector % 16` is 0 or 7, or is 1 with `(selector / 16) % 8 == 1`; the `unreachable!()` arm is dead |
| SqttDecode.Last | backend/src/sqtt.rs:334-356 | `.last()` is defined exactly on a non-empty column and gives its last element |
| SqttDecode.KnownLength | backend/src/sqtt.rs:317-321 | a selector with a table entry has a length between 4 and 96 |
| SqttDecode.DispatchFits | backend/src/sqtt.rs:317-366 | every dispatched kind's fields lie inside the length the table gives its selector, so a parse reads only bits of its own packet |
| SqttDecode.DispatchFitsOne | backend/src/sqtt.rs:331-350 | the selectors ending in `0001`: the last field lies inside the packet |
| SqttDecode.DispatchFitsInst | backend/src/sqtt.rs:327-329 | the GenericInst and ValuInst selectors: the last field lies inside the packet |
| SqttDecode.DispatchFitsLow | backend/src/sqtt.rs:351-353 | the selectors with `selector % 16` between 4 and 6: the last field lies inside the packet |
| SqttDecode.DispatchFitsHigh | backend/src/sqtt.rs:354-363 | the selectors with `selector % 16` of 8 or more: the last field lies inside the packet |
| SqttDecode.Start | backend/src/sqtt.rs:297-303 | the loop starts from a fresh reader, `seq` 0, timestamp 0 and empty tables |
| SqttDecode.FirstIteration | backend/src/sqtt.rs:297-372 | the window starts at zero (no refill in `new`), so the first iteration reads selector 0, a 4-bit packet that records nothing, and goes on with `seq` 1 and timestamp 0 |
| SqttDecode.PacketStepNext | backend/src/sqtt.rs:306-321 | an iteration goes on only past a known 8-bit selector |
| SqttDecode.AfterDispatchNext | backend/src/sqtt.rs:323-371 | an iteration goes on only when the live reader consumed the packet, and it goes on from that reader |
| SqttDecode.ParseArmNext | backend/src/sqtt.rs:368-372 | a parse arm goes on from the live reader with the tables in shape |
| SqttDecode.StepShrinks | backend/src/sqtt.rs:305-373 | every iteration that goes on consumes at least four bits, so the loop ends |
| SqttDecode.StepAtEnd | backend/src/sqtt.rs:306-314 | when the 8-bit selector does not fit, a 4-bit selector that is `None` or 0 ends with `Ok` and any other is `Unknown packet type` |
| SqttDecode.StepUnknown | backend/src/sqtt.rs:317-320 | a selector with no table entry is `Unknown packet type` |
| SqttDecode.StepOfDispatch | backend/src/sqtt.rs:323-372 | at a known selector the loop goes on, with the consumed reader, `seq + 1`, the adjusted timestamp and the updated tables, exactly when both the parse and the consume succeeded; otherwise it returns `Ok` with the records so far |
| SqttDecode.AfterDispatchOf | backend/src/sqtt.rs:323-372 | the same, from the length lookup on |
| SqttDecode.UnknownPacketCause | backend/src/sqtt.rs:306-320 | `parse_sqtt` fails only with a selector whose `% 16 == 7`, or with a non-zero trailing 4-bit selector |
| SqttDecode.UnknownPacketStep | backend/src/sqtt.rs:306-320 | the same for one iteration |
| SqttDecode.AfterDispatchKnown | backend/src/sqtt.rs:323-372 | once a length was found, the iteration never fails with an unknown packet |
| SqttDecode.AdjustDefined | backend/src/sqtt.rs:332-358 | the corrected adjustment has a value once the ShortTimestamp `dt_4` column is non-empty and, after a complete LongTimestamp parse, its `ty` and `timestamp_value` columns are non-empty |
| SqttDecode.AdjustReady | backend/src/sqtt.rs:332-358 | after any parse from a reader whose 8-bit selector fits, the corrected adjustment has a value |
| SqttDecode.AdjustGrows | backend/src/sqtt.rs:335-356 | the timestamp adjustments only add |
| SqttDecode.ShortTimestampCompletes | backend/src/sqtt.rs:354-358 | a ShortTimestamp parse whose selector fits always completes, so its `dt_4.last().unwrap()` cannot panic |
| SqttDecode.ParseArmNoPanic | backend/src/sqtt.rs:327-366 | the corrected dispatch arm never panics |
| SqttDecode.StepNoPanic | backend/src/sqtt.rs:305-373 | no corrected iteration panics |
| SqttDecode.DecodeLoopNoPanic | backend/src/sqtt.rs:296-376 | the corrected `parse_sqtt` never panics on any input of at least eight bytes |
| SqttDecode.AdjustOfPushed | backend/src/sqtt.rs:332-358 | after a complete parse whose columns gained the packet fields, the adjustment reads those fields: a LongTimestamp adds `timestamp_value` exactly when `ty` is 1, a ShortTimestamp adds `dt_4 + 4` |
| SqttDecode.AdjustReadsFields | backend/src/sqtt.rs:323-358 | a complete parse from a windowed reader records the packet's own fields, and the adjustment then adds what those fields say |
| SqttDecode.ParseArmOf | backend/src/sqtt.rs:368-372 | an arm goes on with `seq + 1`, the adjusted timestamp and the updated tables exactly when the parse completed and the live reader consumed the packet; otherwise it returns `Ok` with those tables |
| SqttDecode.ArmReads | backend/src/sqtt.rs:323-366 | a complete dispatch arm from a windowed reader leaves the tables with the packet's own fields pushed and the timestamp those fields give |
| SqttDecode.ParseArmComplete | backend/src/sqtt.rs:323-372 | the same for the whole arm: it goes on from the live reader exactly when the consume succeeded, and otherwise returns those tables |
| SqttDecode.ParseArmReads | backend/src/sqtt.rs:323-372 | an arm from a windowed reader that goes on has recorded the packet's own fields |
| SqttDecode.StepWindowed | backend/src/sqtt.rs:321-324 | an iteration that goes on leaves the live reader refilled and moved forward by exactly the packet's table length |
| SqttDecode.StepReadsPacket | backend/src/sqtt.rs:305-373 | an iteration from a windowed reader that goes on reads its selector as the stream's next eight bits, advances by the packet's length, bumps `seq` and records the packet's own fields as bit ranges of the stream |
| SqttDecode.LaterStepReads | backend/src/sqtt.rs:305-373 | from any loop state, the iteration after one that went on reads its selector and its packet from the stream |
| SqttDecode.ShortTimestampStep | backend/src/sqtt.rs:354-358 | a ShortTimestamp iteration pushes stream bits `[7:4]` as `dt_4` with the timestamp before it, then goes on with `dt_4 + 4` added to the timestamp, or returns `Ok` with that record when the packet cannot be consumed |
| SqttDecode.ShortTimestampState | backend/src/sqtt.rs:354-358 | a complete ShortTimestamp parse records stream bits `[7:4]` as `dt_4` and the adjusted timestamp is the old one plus `dt_4 + 4` |
| SqttDecode.LongTimestampReads | backend/src/sqtt.rs:332-338 | a LongTimestamp iteration that goes on pushes stream bits `[15:14]` as `ty` and `[63:16]` as `timestamp_value`, consumes 64 bits, and adds `timestamp_value` to the timestamp exactly when `ty` is 1 |
| SqttDecode.LongTimestampState | backend/src/sqtt.rs:332-338 | the same written out for a complete LongTimestamp parse |
| SqttDecode.LongTimestampFields | backend/src/sqtt.rs:84-87 | the two LongTimestamp fields are stream bits `[15:14]` and `[63:16]`, and their `u8`/`u64` columns store them unchanged |
| SqttDecode.TwoColumnState | backend/src/sqtt.rs:12-54 | a complete parse of a kind with two column fields and no `dt` field appends one value to each column, the `seq` and the timestamp before the adjustment |
| SqttPackets.StoredFits | backend/src/sqtt.rs:25 | a field no wider than its column type is unchanged by the `as` cast |
| SqttPackets.DeltaTotalNoDelta | backend/src/sqtt.rs:18-27 | fields that are not `dt` fields add nothing to the timestamp |
| SqttPackets.PushTwo | backend/src/sqtt.rs:25-26 | pushing two values onto two columns whose casts keep them appends each to its column |
| SqttDecode.AdjustAgrees | backend/src/sqtt.rs:332-338 | after a complete parse, the adjustment as written and the corrected one agree |
| SqttDecode.ParseArmAgrees | backend/src/sqtt.rs:327-366 | a dispatch arm as written that does not panic does what the corrected one does |
| SqttDecode.StepAgrees | backend/src/sqtt.rs:305-373 | an iteration as written that does not panic does what the corrected one does |
| SqttDecode.DecodeLoopAgrees | backend/src/sqtt.rs:296-376 | whenever `parse_sqtt` as written does not panic, it returns what the corrected one returns |
| SqttDecode.DecodeLoopDone | backend/src/sqtt.rs:305-371 | an iteration that leaves the loop gives the loop's outcome |
| SqttDecode.DecodeLoopNext | backend/src/sqtt.rs:305-373 | an iteration that goes on leaves the outcome to the remaining loop |
| SqttDecode.DisjointAppend | backend/src/sqtt.rs:372 | pushing a `seq` above all of another table's entries keeps the two tables disjoint |
| SqttDecode.SeqsDistinctUpdate | backend/src/sqtt.rs:372 | pushing the current `seq` onto one table keeps `seq` values unique across tables |
| SqttDecode.ChunkUpdate | backend/src/sqtt.rs:368-372 | a successful iteration keeps every table in shape, below the new `seq` and the new timestamp |
| SqttDecode.ChunkStop | backend/src/sqtt.rs:368-375 | the chunk returned after a truncated packet still has every table in shape |
| SqttDecode.ChunkOkRecords | backend/src/sqtt.rs:305-373 | what the loop keeps implies what the result promises |
| SqttDecode.ChunkOkMore | backend/src/sqtt.rs:372 | the loop's bookkeeping survives a larger counter and timestamp |
| SqttDecode.ArmEndKeeps | backend/src/sqtt.rs:327-372 | the end of a dispatch arm keeps the loop's bookkeeping |
| SqttDecode.ParseArmKeeps | backend/src/sqtt.rs:327-372 | every dispatch arm keeps the loop's bookkeeping, and on `Ok` returns tables in shape |
| SqttDecode.StepKeeps | backend/src/sqtt.rs:305-373 | every iteration keeps the loop's bookkeeping |
| SqttDecode.DecodeLoopRecords | backend/src/sqtt.rs:305-375 | the chunk returned from any reachable state has tables in shape |
| SqttDecode.StartInv | backend/src/sqtt.rs:297-303 | the initial state satisfies the loop's bookkeeping |
| SqttDecode.DecodeRecords | backend/src/sqtt.rs:296-376 | a chunk returned by `parse_sqtt` has, in every table, one timestamp per `seq` entry, strictly rising `seq` entries, non-falling timestamps, field columns in range with one value per record (plus at most one from a truncated last packet) and empty `dt` columns; `seq` values are unique across all tables |
| SqttDecode.LongTimestampStep | backend/src/sqtt.rs:332-338 | a truncated LongTimestamp with none recorded before: the loop as written panics on `ty.last().unwrap()`, and the corrected loop returns `Ok` |
| SqttDecode.Packet0x6Parse | backend/src/sqtt.rs:171-173 | the `0x6` parse reads its single `dt` and records one entry |
| SqttDecode.Packet0x6Step | backend/src/sqtt.rs:323-372 | a 52-bit `0x6` packet at the second iteration is parsed and consumed |
| SqttDecode.PanicAfterFirst | backend/src/sqtt.rs:305-373 | the two iterations after the first on the finding's input: a panic as written, `Ok` when corrected |
| SqttDecode.LongTimestampPanics | backend/src/sqtt.rs:333-336 | `parse_sqtt([0x60, 0, 0, 0, 0, 0, 0, 0x01])` panics as written and returns `Ok` when corrected |
| SqttDecode.PanicWindowLoaded | backend/src/sqtt.rs:233-240 | the finding's input loads the window with its little-endian value |
| SqttDecode.PanicSecondSelector | backend/src/sqtt.rs:306 | the finding's input has selector 6 after the first 4-bit packet |
| SqttDecode.PanicThirdSelector | backend/src/sqtt.rs:306 | the finding's input has selector 1 at bit 56 |
| SqttDecode.PanicTables | backend/src/sqtt.rs:171-173 | the tables after the `0x6` packet hold no LongTimestamp record |
| SqttParse.SqttChunk.Value | backend/src/sqtt.rs:58-62 | the chunk's value is every table's columns, kind by kind |
| SqttParse.SqttChunk.constructor | backend/src/sqtt.rs:303 | `SqttChunk::default()`: fresh tables, one per kind, all empty |
| SqttParse.NewTables | backend/src/sqtt.rs:303 | one fresh default table per listed kind |
| SqttParse.SameTables | backend/src/sqtt.rs:58-62 | two chunks with the same table for every kind are the same |
| SqttParse.UpdatedAt | backend/src/sqtt.rs:327-366 | parsing one table leaves the others as they were |
| SqttParse.SqttChunk.ParseTable | backend/src/sqtt.rs:328-363 | `result.<kind>.parse(..)` changes only the table of that kind, as `ParseOutcome` says |
| SqttParse.SqttChunk.ParsePacket | backend/src/sqtt.rs:327-366 | the in-place `match` and adjustment, LongTimestamp adjusted after a complete parse only, does exactly what the value-layer dispatch does |
| SqttParse.AdjustTimestamp | backend/src/sqtt.rs:332-358 | the corrected adjustment: after a complete parse a LongTimestamp whose last `ty` is 1 adds its last `timestamp_value`, and after a failed LongTimestamp parse the timestamp is kept; a ShortTimestamp adds its last `dt_4` plus 4; any other kind keeps the timestamp |
| SqttParse.ConsumePacket | backend/src/sqtt.rs:323-366 | the clone, the live `consume(pkt_len)` and the dispatch on the clone: the live reader ends at `Consumed`, and the dispatch agrees with the value layer |
| SqttParse.Iterate | backend/src/sqtt.rs:305-372 | one iteration of the loop body, in place, is exactly `PacketStep` of the corrected loop |
| SqttParse.ParseSqtt | backend/src/sqtt.rs:296-376 | the in-place `parse_sqtt` returns the corrected `Decode` of its input, and on success the chunk it built is the returned one |
| Userdata.SqttUserdata.Id | backend/src/userdata.rs:41-43 | `id()` is the low four bits of `dw[0]`, below 16 |
| Userdata.Len | backend/src/userdata.rs:45-47 | `len(dw0)` is bits 4 to 6 of `dw0`, at most 7 |
| Userdata.SqttUserdata.ApiType | backend/src/userdata.rs:49-51 | `api_type()` is bits 7 to 26 of `dw[0]`, below 2^20 |
| Userdata.New | backend/src/userdata.rs:30-39 | `new` succeeds exactly when `dw` is non-empty and `len(dw[0]) == dw.len()`, and it then keeps `dw` unchanged; it fails with the empty error on no dwords and otherwise with the length mismatch, naming both lengths |
| Userdata.AcceptedLength | backend/src/userdata.rs:35 | no accepted userdata's first dword declares length 0; the accepted length is between 1 and 7 |
| Userdata.Header | backend/src/userdata.rs:41-51 | a first dword built from an identifier, a length and an API type fits in 27 bits |
| Userdata.HeaderFields | backend/src/userdata.rs:41-51 | `id`, `len` and `api_type` give back the identifier, length and API type a header was built from |
| Userdata.FieldsDecompose | backend/src/userdata.rs:41-51 | every dword is its header, rebuilt from its `id`, `len` and `api_type`, plus bits above 27 that none of them reads |
| Events.ReassembleSnoc | backend/src/main.rs:48-75 | one more merged row is one more iteration of the loop |
| Events.FeedEmits | backend/src/main.rs:49-72 | a row emits an event exactly when it is a userdata-register write that brings the buffer to its declared length. Then `new` succeeds, the event carries the marker's API type with `start` and `end` 0, and the buffer is emptied. Otherwise a userdata write appends its dword, a marker initiator empties the buffer, and every other row changes nothing |
| Events.RunAppend | backend/src/main.rs:48-75 | the loop over two runs of rows is the loop over their concatenation |
| Events.EventsAppended | backend/src/main.rs:56-61 | events are only appended, in completion order |
| Events.EventsAtMostWrites | backend/src/main.rs:51-56 | events plus buffered dwords never outnumber userdata-register writes |
| Events.EventsBound | backend/src/main.rs:51-56 | `get_events` emits at most one event per userdata-register write |
| Events.BufferStaysBelow | backend/src/main.rs:54-62 | a buffer whose declared length is at least 1 stays shorter than that length between iterations |
| Events.BufferBound | backend/src/main.rs:46-62 | from the empty buffer, a marker declaring at least one dword never buffers more than six dwords |
| Events.ZeroLengthNeverCompletes | backend/src/main.rs:54-55 | a buffer whose declared length is 0 never completes; without a marker initiator it gathers every userdata dword in order and no event is emitted |
| Events.ResyncDrops | backend/src/main.rs:65-71 | a marker initiator drops what was buffered before it and keeps the events |
| Events.IrrelevantRowsSkipped | backend/src/main.rs:50-66 | rows that are neither userdata-register writes nor marker initiators change nothing |
| Events.EventsWellFormed | backend/src/main.rs:56-60 | every event has an API type below 2^20 and `start` and `end` 0 |
| Events.CompleteMarkerExample | backend/src/main.rs:38-75 | a two-dword marker of API type 5, with an unrelated register write and a non-marker initiator between its dwords, emits one event |
| Events.ResyncExample | backend/src/main.rs:65-71 | a marker initiator drops a half-received marker; the next complete one-dword marker is emitted |
| Events.RegWriteColumns | backend/src/main.rs:51-54 | a `reg_write` row of the first chunk has a `reg` and a `val`; `val` is below 2^32 |
| Events.InitiatorColumns | backend/src/main.rs:66 | an `initiator` row of the first chunk has an `initiator_type` and a `val` |
| Events.ChunkReadable | backend/src/main.rs:42-48 | in a chunk as `parse_sqtt` returns it, every merged item that indexes a recorded `seq` entry can be read: the columns `reg`, `val`, `initiator_type` and `val` have that row, and a `reg_write` `val` is below 2^32 |
| Events.Rows | backend/src/main.rs:48-73 | one row per merged item |
| Events.ChunkRows | backend/src/main.rs:42-48 | the rows of the merged items over `chunks[0]`'s `reg_write` and `initiator` tables |
| Events.GetEvents | backend/src/main.rs:38-76 | the events of `get_events` over `chunks[0]` are those of `Reassemble` over the merged rows; there are at most as many as userdata-register writes, and each is well formed |
| Events.CollectEvents | backend/src/main.rs:46-75 | the in-place `for` loop, with its buffer pushes and clears, computes `Reassemble` of the rows |

## Left out

- SqttParse.ParseSqtt, SqttParse.Iterate, SqttParse.SqttChunk.ParsePacket, SqttParse.AdjustTimestamp: these model the corrected loop, which adds a LongTimestamp's `timestamp_value` only after a complete parse. As written, `parse_sqtt` reads `ty.last()` even after a failed parse (see Findings). `SqttDecode.DecodeLoopAgrees` proves that the corrected loop returns what the loop as written returns on every input where the latter does not panic. `SqttDecode.LongTimestampPanics` exhibits an input where it does panic.
- The merge module (`crate::merge`) is not part of this model. `GetEvents` takes the merged sequence of `(kind, index)` items as an input, so the order in which `seq` values are merged is not modelled. The input only needs every item to be of kind 0 or 1 and to index a row present in its table.
- `backend/src/rgp.rs`, `parse` and `main` in `backend/src/main.rs` are left out. They read a container format through an external library, start a server, read a file and use a parallel map.
- `warn!` logging and the text of the `anyhow` errors are left out. An error is modelled by the selector it reports.
- Unsafe `get_unchecked` slicing is modelled as ordinary slicing with its bounds proved.
- SqttDecode.Decode and SqttParse.ParseSqtt: `seq` (a `u32`) and `timestamp` (a `u64`) are unbounded naturals, so their wrap-around is not modelled.
- SqttReader.BitReader.Bits: requires `width >= 1`, which the source does not demand. No call site passes width 0. At width 0 the 60-bit assert admits `lsb = 60`, and the window test then admits `lsb + bits_consumed = 64`, so the shift `bits >> (lsb + bits_consumed)` can be by 64, which panics in a debug build. With `width >= 1` the shift is at most 63.
- SqttReader.BitReader.Consume: requires `n <= 96`. That is the longest packet, and the comment at sqtt.rs:227 states this bound for the fast path's unchecked slice.
- SqttReader.New: requires at least eight bytes, because `BitReader::new` panics on shorter input (`unimplemented!`). The same precondition is on `Decode` and `ParseSqtt`.
- Events.GetEvents: requires a non-empty list of chunks, because `chunks[0]` panics on an empty one. It also requires the first chunk to satisfy what `parse_sqtt` promises (`DecodeRecords`); `ChunkReadable` uses that to prove that every lookup `reg[i]`, `val[i]`, `initiator_type[i]` is in bounds.
- Events.RegWriteColumns: the `Vec<u32>` type of `reg_write.val` appears as the proved bound `val < 2^32`.
- Event: the wire type of `start` and `end` is not modelled, only their value 0.
- The 19 packet structs are modelled as one `Kind` datatype with a layout table, and their fields as a sequence of columns indexed by field position. Non-`dt` values are truncated to their Rust element type by remainder modulo 2^width, so EventB's 12-bit `a1` is cut to `u8` and Initiator's 33-bit `val` to `u32`.
- Inside a packet's `parse`, the result of the field-level `consume` is ignored, as in the source (no `?`).
- The `SqttMarkerType` enum (`backend/src/userdata.rs:4-23`) is used nowhere in the core and is not modelled.
- Two source inconsistencies are modelled as the signatures in `sqtt.rs` and `userdata.rs` read:
  - `backend/src/main.rs:55` calls `.unwrap()` on the `usize` that `len` returns; the model uses the value directly.
  - `backend/src/main.rs:110` passes a second argument to `parse_sqtt`, which takes one.

## Findings

| source | as written | input that shows it | evidently intended | confidence | as-written member | corrected member |
|---|---|---|---|---|---|---|
| backend/src/sqtt.rs:333-336 | after a LongTimestamp parse, `result.long_timestamp.ty.last().unwrap()` is read whether or not the parse succeeded; when the packet is truncated before its `ty` field and no LongTimestamp was recorded before, the `ty` column is empty and the `unwrap` panics | the eight bytes `[0x60, 0, 0, 0, 0, 0, 0, 0x01]`: a 4-bit packet, a 52-bit `0x6` packet, then selector `0x01` (a LongTimestamp) at bit 56 whose `ty` at bits 14-15 lies beyond the window | adjust the timestamp only after a complete parse and otherwise stop with `Ok` and the records so far, as every other truncated packet does (sqtt.rs:368-371) | not executed | SqttDecode.LongTimestampPanics | SqttDecode.DecodeLoopNoPanic |
