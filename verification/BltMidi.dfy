/** The Beat Link Trigger MIDI deck source: its wire format, its frames and its provider. */
module BltMidi {
  import opened Domain
  import opened Reducer

  const SOURCE_ID: nat := 30
  const PROTOCOL_VERSION: nat := 4
  const CONTROL_CHANGE: nat := 0xb
  const FIRST_CC: nat := 16
  const FIELD_BYTES: nat := 28
  const COMMIT_CC: nat := 119

  /** MIDI data bytes carry seven bits. */
  type Byte7 = x: nat | x < 128

  datatype Message = Message(status: nat, channel: nat, dataOne: Byte7, dataTwo: Byte7)

  // ----- Seven-bit numbers -------------------------------------------------------------

  function Pow128(n: nat): (r: nat)
    ensures r > 0
  {
    if n == 0 then 1 else 128 * Pow128(n - 1)
  }

  /** Least significant chunk first. */
  function Value7(chunks: seq<Byte7>): nat {
    if chunks == [] then 0 else chunks[0] + 128 * Value7(chunks[1..])
  }

  function Chunks(value: nat, count: nat): (r: seq<Byte7>)
    ensures |r| == count
  {
    if count == 0 then [] else [value % 128] + Chunks(value / 128, count - 1)
  }

  lemma {:induction false} Value7Append(chunks: seq<Byte7>, c: Byte7)
    ensures Value7(chunks + [c]) == Value7(chunks) + c * Pow128(|chunks|)
  {
    if chunks == [] {
      assert (chunks + [c])[1..] == [];
    } else {
      Value7Append(chunks[1..], c);
      assert (chunks + [c])[1..] == chunks[1..] + [c];
    }
  }

  lemma {:induction false} Value7Bound(chunks: seq<Byte7>)
    ensures Value7(chunks) < Pow128(|chunks|)
  {
    if chunks != [] {
      Value7Bound(chunks[1..]);
    }
  }

  /** Splitting a number into chunks and joining them again gives the number back. */
  lemma {:induction false} ChunksRoundTrip(value: nat, count: nat)
    requires value < Pow128(count)
    ensures Value7(Chunks(value, count)) == value
  {
    if count > 0 {
      assert value / 128 < Pow128(count - 1);
      ChunksRoundTrip(value / 128, count - 1);
      assert Chunks(value, count)[1..] == Chunks(value / 128, count - 1);
    }
  }

  /** Joining chunks and splitting the number again gives the chunks back. */
  lemma {:induction false} ChunksInverse(chunks: seq<Byte7>)
    ensures Chunks(Value7(chunks), |chunks|) == chunks
  {
    if chunks != [] {
      ChunksInverse(chunks[1..]);
      assert Value7(chunks) % 128 == chunks[0] && Value7(chunks) / 128 == Value7(chunks[1..]);
      assert chunks == [chunks[0]] + chunks[1..];
    }
  }

  lemma Weights()
    ensures Pow128(0) == 1 && Pow128(1) == 0x80 && Pow128(2) == 0x4000 && Pow128(3) == 0x20_0000
      && Pow128(4) == 0x1000_0000
  {
    assert Pow128(2) == 128 * Pow128(1) && Pow128(3) == 128 * Pow128(2) && Pow128(4) == 128 * Pow128(3);
  }

  lemma ModuloIs(x: nat, q: nat, r: nat)
    requires x == q * TWO_32 + r && r < TWO_32
    ensures x % TWO_32 == r
  {
  }

  /** The first four chunks fit. */
  lemma SmallChunk(value: nat, chunk: Byte7, weight: nat)
    requires weight == 1 || weight == 0x80 || weight == 0x4000 || weight == 0x20_0000
    requires value < weight
    ensures var shifted := chunk * weight % TWO_32;
      && shifted % weight == 0 && value + shifted < 128 * weight && value + shifted == (value + chunk * weight) % TWO_32
  {
    assert weight == 1 ==> chunk * weight == chunk;
    assert weight == 0x80 ==> chunk * weight == chunk * 0x80;
    assert weight == 0x4000 ==> chunk * weight == chunk * 0x4000;
    assert weight == 0x20_0000 ==> chunk * weight == chunk * 0x20_0000;
    var shifted := chunk * weight;
    assert shifted % weight == 0;
    ModuloIs(shifted, 0, shifted);
    ModuloIs(value + shifted, 0, value + shifted);
  }

  /** Of the fifth chunk four bits fit. */
  lemma FifthChunk(value: nat, chunk: Byte7)
    requires value < 0x1000_0000
    ensures var shifted := chunk * 0x1000_0000 % TWO_32;
      && shifted % 0x1000_0000 == 0 && value + shifted < TWO_32
      && value + shifted == (value + chunk * 0x1000_0000) % TWO_32
  {
    var q, r := chunk / 16, chunk % 16;
    ModuloIs(chunk * 0x1000_0000, q, r * 0x1000_0000);
    ModuloIs(value + chunk * 0x1000_0000, q, value + r * 0x1000_0000);
  }

  /** Adding a shifted chunk in 32 bits: nothing overlaps, and what does not fit is lost. */
  lemma ShiftedChunk(value: nat, chunk: Byte7, index: nat)
    requires index < 5 && value < Pow128(index)
    ensures var shifted := chunk * Pow128(index) % TWO_32;
      && shifted % Pow128(index) == 0 && value + shifted < TWO_32 && (index < 4 ==> value + shifted < Pow128(index + 1))
      && value + shifted == (value + chunk * Pow128(index)) % TWO_32
  {
    Weights();
    hide Pow128;
    if index == 4 { FifthChunk(value, chunk); } else { SmallChunk(value, chunk, Pow128(index)); }
  }

  /** The decoder ORs shifted chunks into 32 bits. What is there already lies below the weight of the next chunk and
      the shifted chunk is a multiple of it, so the two share no bit and OR is addition; a fifth chunk loses the bits
      that do not fit. */
  method Decode7(chunks: seq<Byte7>) returns (value: nat)
    requires |chunks| <= 5
    ensures value == Value7(chunks) % TWO_32
  {
    value := 0;
    var weight := 1;
    for index := 0 to |chunks|
      invariant weight == Pow128(index) && (index < 5 ==> value < weight)
      invariant value < TWO_32 && value == Value7(chunks[..index]) % TWO_32
      invariant index < 5 ==> value == Value7(chunks[..index])
    {
      Value7Append(chunks[..index], chunks[index]);
      assert chunks[..index] + [chunks[index]] == chunks[..index + 1];
      ShiftedChunk(value, chunks[index], index);
      Weights();
      value := value + chunks[index] * weight % TWO_32;
      weight := 128 * weight;
    }
    assert chunks[..|chunks|] == chunks;
  }

  // ----- Frames ------------------------------------------------------------------------

  datatype Frame = Frame(
    loaded: bool, playing: bool, master: bool, onAir: bool,
    rekordboxId: nat, player: nat, slot: nat, trackBpm: nat, effectiveBpm: nat,
    beat: nat, durationSeconds: nat, sequence: nat, signature: nat, position: Option<nat>)

  /** The bytes received so far; the frame's fields are fixed ranges of one buffer. */
  datatype Assembler = Assembler(present: set<nat>, bytes: seq<Byte7>)

  predicate ValidAssembler(a: Assembler) {
    |a.bytes| == FIELD_BYTES && forall i :: i in a.present ==> i < FIELD_BYTES
  }

  function Zeros(n: nat): (r: seq<Byte7>)
    ensures |r| == n
  {
    if n == 0 then [] else Zeros(n - 1) + [0]
  }

  const EmptyAssembler := Assembler({}, Zeros(FIELD_BYTES))

  const AllFields: set<nat> := set i: nat | i < FIELD_BYTES

  function WriteField(a: Assembler, controller: nat, value: Byte7): Assembler
    requires ValidAssembler(a) && FIRST_CC <= controller < FIRST_CC + FIELD_BYTES
  {
    Assembler(a.present + {controller - FIRST_CC}, a.bytes[controller - FIRST_CC := value])
  }

  function Field(bytes: seq<Byte7>, from: nat, count: nat): nat
    requires from + count <= |bytes|
  {
    Value7(bytes[from..from + count]) % TWO_32
  }

  predicate FlagSet(flags: nat, bit: nat)
    requires bit > 0
  {
    (flags / bit) % 2 == 1
  }

  function Fields(bytes: seq<Byte7>): Frame
    requires |bytes| == FIELD_BYTES
  {
    Frame(
      FlagSet(bytes[0], 1), FlagSet(bytes[0], 2), FlagSet(bytes[0], 4), FlagSet(bytes[0], 8),
      Field(bytes, 1, 4), bytes[5], bytes[6], Field(bytes, 7, 3), Field(bytes, 17, 3),
      Field(bytes, 10, 3), Field(bytes, 13, 3), bytes[16], Field(bytes, 20, 5),
      if FlagSet(bytes[0], 16) then Some(Field(bytes, 25, 3)) else None)
  }

  /** A loaded deck must name a track, a duration and tempos between 20 and 300 beats per minute. */
  predicate InRange(f: Frame) {
    f.loaded ==>
      f.rekordboxId != 0 && TempoInRange(f.trackBpm) && TempoInRange(f.effectiveBpm) && f.durationSeconds != 0
  }

  function DecodeFrame(a: Assembler): Option<Frame>
    requires ValidAssembler(a)
  {
    if a.present != AllFields || !InRange(Fields(a.bytes)) then None else Some(Fields(a.bytes))
  }

  /** The widths of the wire format. */
  predicate FitsWire(f: Frame) {
    && f.rekordboxId < 0x1000_0000 && f.player < 128 && f.slot < 128 && f.sequence < 128
    && f.trackBpm < 0x20_0000 && f.effectiveBpm < 0x20_0000 && f.beat < 0x20_0000 && f.durationSeconds < 0x20_0000
    && f.signature < TWO_32 && (f.position.Some? ==> f.position.value < 0x20_0000)
  }

  // ----- The printer -------------------------------------------------------------------

  function Flags(f: Frame): Byte7 {
    (if f.loaded then 1 else 0) + (if f.playing then 2 else 0) + (if f.master then 4 else 0)
    + (if f.onAir then 8 else 0) + (if f.position.Some? then 16 else 0)
  }

  function Position(f: Frame): nat { if f.position.Some? then f.position.value else 0 }

  function Head(f: Frame): (r: seq<Byte7>)
    requires FitsWire(f)
    ensures |r| == 7 && r[0] == Flags(f) && r[1..5] == Chunks(f.rekordboxId, 4) && r[5] == f.player && r[6] == f.slot
  {
    [Flags(f)] + Chunks(f.rekordboxId, 4) + [f.player, f.slot]
  }

  function Middle(f: Frame): (r: seq<Byte7>)
    requires FitsWire(f)
    ensures |r| == 10 && r[0..3] == Chunks(f.trackBpm, 3) && r[3..6] == Chunks(f.beat, 3)
    ensures r[6..9] == Chunks(f.durationSeconds, 3) && r[9] == f.sequence
  {
    Chunks(f.trackBpm, 3) + Chunks(f.beat, 3) + Chunks(f.durationSeconds, 3) + [f.sequence]
  }

  function Tail(f: Frame): (r: seq<Byte7>)
    requires FitsWire(f)
    ensures |r| == 11 && r[0..3] == Chunks(f.effectiveBpm, 3) && r[3..8] == Chunks(f.signature, 5)
    ensures r[8..11] == Chunks(Position(f), 3)
  {
    Chunks(f.effectiveBpm, 3) + Chunks(f.signature, 5) + Chunks(Position(f), 3)
  }

  function FrameBytes(f: Frame): (r: seq<Byte7>)
    requires FitsWire(f)
    ensures |r| == FIELD_BYTES
  {
    Head(f) + Middle(f) + Tail(f)
  }

  function Control(channel: nat, controller: Byte7, value: Byte7): Message {
    Message(CONTROL_CHANGE, channel, controller, value)
  }

  function Encode(channel: nat, f: Frame): seq<Message>
    requires FitsWire(f)
  {
    seq(FIELD_BYTES, i requires 0 <= i < FIELD_BYTES => Control(channel, FIRST_CC + i, FrameBytes(f)[i]))
    + [Control(channel, COMMIT_CC, PROTOCOL_VERSION)]
  }

  lemma ChunkField(value: nat, count: nat, bytes: seq<Byte7>, from: nat)
    requires from + count <= |bytes| && bytes[from..from + count] == Chunks(value, count)
    requires value < Pow128(count) && value < TWO_32
    ensures Field(bytes, from, count) == value
  {
    ChunksRoundTrip(value, count);
  }

  lemma Widths()
    ensures Pow128(3) == 0x20_0000 && Pow128(4) == 0x1000_0000 && Pow128(5) == 0x8_0000_0000
  {
    assert Pow128(2) == 0x4000;
    assert Pow128(3) == 128 * Pow128(2);
    assert Pow128(4) == 128 * Pow128(3);
    assert Pow128(5) == 128 * Pow128(4);
  }

  lemma Slices(f: Frame)
    requires FitsWire(f)
    ensures var b := FrameBytes(f);
      && b[0] == Flags(f) && b[5] == f.player && b[6] == f.slot && b[16] == f.sequence
      && b[1..5] == Head(f)[1..5] && b[7..10] == Middle(f)[0..3] && b[10..13] == Middle(f)[3..6]
      && b[13..16] == Middle(f)[6..9] && b[17..20] == Tail(f)[0..3] && b[20..25] == Tail(f)[3..8]
      && b[25..28] == Tail(f)[8..11]
  {
    hide Head, Middle, Tail;
  }

  /** Decoding the printed bytes of a frame gives exactly that frame. */
  lemma FieldsOfFrameBytes(f: Frame)
    requires FitsWire(f)
    ensures Fields(FrameBytes(f)) == f
  {
    hide Head, Middle, Tail, FrameBytes, Chunks, Value7;
    var b := FrameBytes(f);
    Widths();
    Slices(f);
    ChunkField(f.rekordboxId, 4, b, 1);
    ChunkField(f.trackBpm, 3, b, 7);
    ChunkField(f.beat, 3, b, 10);
    ChunkField(f.durationSeconds, 3, b, 13);
    ChunkField(f.effectiveBpm, 3, b, 17);
    ChunkField(f.signature, 5, b, 20);
    ChunkField(Position(f), 3, b, 25);
  }
}
