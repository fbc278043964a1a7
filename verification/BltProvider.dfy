/** The provider that turns committed frames into deck observations. */
module BltProvider {
  import opened Domain
  import opened Reducer
  import opened BltMidi

  datatype LoadedDeck = LoadedDeck(
    identity: nat, load: LoadId, beat: nat, effectiveBpm: nat, playing: bool, position: Option<nat>)

  /** What is remembered per MIDI channel. */
  datatype Lane = Lane(assembler: Assembler, receivedAt: Option<Time>, lastSequence: Option<nat>)

  const EmptyLane := Lane(EmptyAssembler, None, None)

  datatype Provider = Provider(
    sequence: nat, nextLoad: nat, lanes: seq<Lane>, decks: map<DeckId, LoadedDeck>, leader: Option<DeckId>,
    pending: seq<Event>, committed: nat, ignored: nat, duplicates: nat, ready: bool)

  datatype Error = FrameValueOverflow | SequenceOverflow | TrackLoadIdOverflow | LoadedDeckMissing | InvalidTrack

  predicate Valid(p: Provider) {
    && |p.lanes| == 2 && (forall i :: 0 <= i < 2 ==> ValidAssembler(p.lanes[i].assembler))
    && (forall d :: d in p.decks ==> d == 1 || d == 2)
  }

  // ----- What one frame means ----------------------------------------------------------

  function TrackIdentity(f: Frame): nat {
    f.player * 0x100_0000_0000 + f.slot * TWO_32 + (if f.signature == 0 then f.rekordboxId else f.signature)
  }

  function Max(a: nat, b: nat): nat { if a < b then b else a }

  function Min(a: nat, b: nat): nat { if a < b then a else b }

  function DurationBeats(f: Frame): nat {
    Max(Max((f.durationSeconds * f.trackBpm + 30_000) / 60_000, Min(f.beat + 1, U32_MAX)), 1)
  }

  /** The duration as it is computed, with every overflow checked. */
  function CheckedDuration(f: Frame): Option<nat> {
    if f.durationSeconds * f.trackBpm > U64_MAX || f.durationSeconds * f.trackBpm + 30_000 > U64_MAX then None
    else if (f.durationSeconds * f.trackBpm + 30_000) / 60_000 > U32_MAX then None
    else Some(DurationBeats(f))
  }

  function BeatOf(f: Frame): nat { Min(f.beat, DurationBeats(f)) }

  /** Frames that come out of the decoder. */
  predicate Decoded(f: Frame) {
    InRange(f) && f.beat < 0x20_0000 && f.durationSeconds < 0x20_0000 && f.trackBpm < 0x20_0000
  }

  function Metadata(f: Frame): TrackMetadata { TrackMetadata(TrackIdentity(f), f.trackBpm, DurationBeats(f), []) }

  predicate NeedsLoad(p: Provider, deck: DeckId, f: Frame) {
    f.loaded && (deck !in p.decks || p.decks[deck].identity != TrackIdentity(f))
  }

  function When<T>(condition: bool, x: T): seq<T> { if condition then [x] else [] }

  function UnloadObservations(p: Provider, deck: DeckId): seq<DeckObservation> {
    if deck in p.decks then [TrackUnloaded(deck, p.decks[deck].load)] else []
  }

  function NewDeckObservations(deck: DeckId, f: Frame, load: LoadId): seq<DeckObservation> {
    [TrackLoaded(deck, Metadata(f), load)]
    + When(f.effectiveBpm != f.trackBpm, PlaybackTempoChanged(deck, load, f.effectiveBpm))
    + [PlaybackPosition(deck, load, BeatOf(f)), PlaybackStateChanged(deck, load, f.playing)]
  }

  function LoadObservations(p: Provider, deck: DeckId, f: Frame): seq<DeckObservation> {
    UnloadObservations(p, deck) + NewDeckObservations(deck, f, p.nextLoad)
  }

  function UpdateObservations(deck: DeckId, before: LoadedDeck, f: Frame): seq<DeckObservation> {
    When(before.effectiveBpm != f.effectiveBpm, PlaybackTempoChanged(deck, before.load, f.effectiveBpm))
    + When(before.beat != BeatOf(f),
           if BeatOf(f) < before.beat then PlaybackPositionSeeked(deck, before.load, BeatOf(f))
           else PlaybackPosition(deck, before.load, BeatOf(f)))
    + When(before.playing != f.playing, PlaybackStateChanged(deck, before.load, f.playing))
  }

  /** The load a frame leaves on its deck. */
  function LoadOf(p: Provider, deck: DeckId, f: Frame): LoadId {
    if NeedsLoad(p, deck, f) || deck !in p.decks then p.nextLoad else p.decks[deck].load
  }

  predicate TakesLead(p: Provider, deck: DeckId, f: Frame) { f.loaded && f.master && p.leader != Some(deck) }

  /** The observations a frame amounts to, in order, after the provider has reported itself ready. */
  function DeckObservations(p: Provider, deck: DeckId, f: Frame): seq<DeckObservation> {
    if !f.loaded then UnloadObservations(p, deck)
    else
      (if NeedsLoad(p, deck, f) then LoadObservations(p, deck, f) else UpdateObservations(deck, p.decks[deck], f))
      + When(TakesLead(p, deck, f), LeaderChanged(deck, LoadOf(p, deck, f)))
  }

  function FrameObservations(p: Provider, deck: DeckId, f: Frame): seq<DeckObservation> {
    When(!p.ready, SourceStatusChanged(SourceReady)) + DeckObservations(p, deck, f)
  }

  function FrameDecks(p: Provider, deck: DeckId, f: Frame): map<DeckId, LoadedDeck> {
    if !f.loaded then p.decks - {deck}
    else p.decks[deck :=
      LoadedDeck(TrackIdentity(f), LoadOf(p, deck, f), BeatOf(f), f.effectiveBpm, f.playing, f.position)]
  }

  function Envelopes(after: nat, at: Time, os: seq<DeckObservation>): (r: seq<Event>)
    ensures |r| == |os|
  {
    seq(|os|, i requires 0 <= i < |os| => Observation(SOURCE_ID, after + 1 + i, at, os[i]))
  }

  function Emitting(p: Provider, at: Time, os: seq<DeckObservation>): Provider {
    p.(sequence := p.sequence + |os|, pending := p.pending + Envelopes(p.sequence, at, os))
  }

  predicate HasRoom(p: Provider, deck: DeckId, f: Frame) {
    p.sequence + |FrameObservations(p, deck, f)| <= U64_MAX && (NeedsLoad(p, deck, f) ==> p.nextLoad < U64_MAX)
  }

  function Applied(p: Provider, deck: DeckId, f: Frame, at: Time): Provider {
    Emitting(p, at, FrameObservations(p, deck, f)).(
      ready := true,
      nextLoad := if NeedsLoad(p, deck, f) then p.nextLoad + 1 else p.nextLoad,
      decks := FrameDecks(p, deck, f),
      leader := if TakesLead(p, deck, f) then Some(deck) else p.leader)
  }

  /** Why loading a frame fails after `done` observations, if it does. */
  function LoadFailure(p: Provider, done: nat, deck: DeckId, f: Frame): Option<Error> {
    if p.sequence + done + |UnloadObservations(p, deck)| > U64_MAX then Some(SequenceOverflow)
    else if p.nextLoad >= U64_MAX then Some(TrackLoadIdOverflow)
    else if CheckedDuration(f).None? then Some(FrameValueOverflow)
    else if !ValidFacts(Metadata(f)) then Some(InvalidTrack)
    else if p.sequence + done + |LoadObservations(p, deck, f)| > U64_MAX then Some(SequenceOverflow)
    else None
  }

  function UpdateFailure(p: Provider, done: nat, deck: DeckId, f: Frame): Option<Error>
    requires deck in p.decks
  {
    if CheckedDuration(f).None? then Some(FrameValueOverflow)
    else if p.sequence + done + |UpdateObservations(deck, p.decks[deck], f)| > U64_MAX then Some(SequenceOverflow)
    else None
  }

  function LoadedFailure(p: Provider, done: nat, deck: DeckId, f: Frame): Option<Error>
    requires f.loaded
  {
    var e := if NeedsLoad(p, deck, f) then LoadFailure(p, done, deck, f) else UpdateFailure(p, done, deck, f);
    if e.Some? then e
    else if p.sequence + done + |DeckObservations(p, deck, f)| > U64_MAX then Some(SequenceOverflow)
    else None
  }

  /** Why applying a frame fails, if it does: the first error on the way. */
  function Failure(p: Provider, deck: DeckId, f: Frame): Option<Error> {
    var done := if p.ready then 0 else 1;
    if p.sequence + done > U64_MAX then Some(SequenceOverflow)
    else if f.loaded then LoadedFailure(p, done, deck, f)
    else if p.sequence + done + |UnloadObservations(p, deck)| > U64_MAX then Some(SequenceOverflow)
    else None
  }

  // ----- Messages, expiry and clearing -------------------------------------------------

  function Saturating(n: nat): nat { if n < U64_MAX then n + 1 else n }

  predicate IsControl(m: Message) { m.status == CONTROL_CHANGE && 1 <= m.channel <= 2 }

  predicate IsCommit(m: Message) { IsControl(m) && m.dataOne == COMMIT_CC && m.dataTwo == PROTOCOL_VERSION }

  /** The frame a message commits, if it commits a new one. */
  function Committed(p: Provider, m: Message): Option<Frame>
    requires Valid(p)
  {
    if !IsCommit(m) then None
    else
      var lane := p.lanes[m.channel - 1];
      var f := DecodeFrame(lane.assembler);
      if f.Some? && lane.lastSequence != Some(f.value.sequence) then f else None
  }

  /** All that ingesting a message does apart from applying the frame it commits. */
  function Received(p: Provider, m: Message, now: Time): (r: Provider)
    requires Valid(p)
    ensures Valid(r)
  {
    if !IsControl(m) then p.(ignored := Saturating(p.ignored))
    else
      var lane := p.lanes[m.channel - 1];
      if m.dataOne == COMMIT_CC then
        if m.dataTwo != PROTOCOL_VERSION then p.(ignored := Saturating(p.ignored))
        else
          var f := DecodeFrame(lane.assembler);
          var reset := p.lanes[m.channel - 1 := lane.(assembler := EmptyAssembler)];
          if f.None? then p.(lanes := reset, ignored := Saturating(p.ignored))
          else if lane.lastSequence == Some(f.value.sequence) then
            p.(lanes := reset, duplicates := Saturating(p.duplicates))
          else
            p.(lanes := p.lanes[m.channel - 1 := Lane(EmptyAssembler, Some(now), Some(f.value.sequence))],
               committed := Saturating(p.committed))
      else if FIRST_CC <= m.dataOne < FIRST_CC + FIELD_BYTES then
        p.(lanes := p.lanes[m.channel - 1 := lane.(assembler := WriteField(lane.assembler, m.dataOne, m.dataTwo))])
      else p.(ignored := Saturating(p.ignored))
  }

  predicate IngestHasRoom(p: Provider, m: Message, now: Time)
    requires Valid(p)
  {
    var f := Committed(p, m);
    f.Some? ==> HasRoom(Received(p, m, now), m.channel, f.value)
  }

  function Ingested(p: Provider, m: Message, now: Time, at: Time): (r: Provider)
    requires Valid(p)
    ensures Valid(r)
  {
    var f := Committed(p, m);
    if f.None? then Received(p, m, now) else Applied(Received(p, m, now), m.channel, f.value, at)
  }

  predicate Stale(p: Provider, index: nat, now: Time, maximumAge: nat)
    requires Valid(p) && index < 2
  {
    p.lanes[index].receivedAt.Some? && now > p.lanes[index].receivedAt.value + maximumAge
  }

  function ExpiredLane(p: Provider, index: nat, at: Time): (r: Provider)
    requires Valid(p) && index < 2
    ensures Valid(r)
  {
    var deck := index + 1;
    Emitting(p, at, UnloadObservations(p, deck)).(
      lanes := p.lanes[index := EmptyLane],
      decks := p.decks - {deck},
      leader := if p.leader == Some(deck) then None else p.leader)
  }

  /** The decks dropped by the first `count` lanes. */
  function Expired(p: Provider, count: nat, now: Time, maximumAge: nat, at: Time): (r: Provider)
    requires Valid(p) && count <= 2
    ensures Valid(r)
  {
    if count == 0 then p
    else
      var q := Expired(p, count - 1, now, maximumAge, at);
      if Stale(q, count - 1, now, maximumAge) then ExpiredLane(q, count - 1, at) else q
  }

  function Cleared(p: Provider, at: Time): (r: Provider)
    requires Valid(p)
    ensures Valid(r)
  {
    Emitting(p, at, UnloadObservations(p, 1) + UnloadObservations(p, 2)).(
      decks := map[], leader := None, lanes := [EmptyLane, EmptyLane])
  }

  function Started(at: Time): (r: Provider)
    ensures Valid(r)
  {
    Emitting(Provider(0, 1, [EmptyLane, EmptyLane], map[], None, [], 0, 0, 0, false), at,
      [SourceStatusChanged(SourceStarting)])
  }

  /** A commit empties the assembler exactly when it names this protocol version; with another version the bytes
      received so far stay and take part in the next commit. */
  lemma OnlyTheRightVersionResets(p: Provider, m: Message, now: Time)
    requires Valid(p) && IsControl(m) && m.dataOne == COMMIT_CC
    ensures var q := Received(p, m, now);
      && (m.dataTwo == PROTOCOL_VERSION ==> q.lanes[m.channel - 1].assembler == EmptyAssembler)
      && (m.dataTwo != PROTOCOL_VERSION ==>
        q.lanes == p.lanes && q.ignored == Saturating(p.ignored) && Committed(p, m).None?)
  {
    hide DecodeFrame;
  }

  // ----- Frames never fail to apply ----------------------------------------------------

  lemma FieldBound(bytes: seq<Byte7>, from: nat)
    requires from + 3 <= |bytes|
    ensures Field(bytes, from, 3) < 0x20_0000
  {
    Widths();
    Value7Bound(bytes[from..from + 3]);
  }

  lemma DecodedFramesAreBounded(a: Assembler)
    requires ValidAssembler(a) && DecodeFrame(a).Some?
    ensures Decoded(DecodeFrame(a).value)
  {
    FieldBound(a.bytes, 7);
    FieldBound(a.bytes, 10);
    FieldBound(a.bytes, 13);
  }

  lemma Below(a: nat, b: nat, x: nat, y: nat)
    requires a <= x && b <= y
    ensures a * b <= x * y
  {
    assert a * b <= x * b <= x * y;
  }

  lemma RoundedDuration(seconds: nat, bpm: nat)
    requires seconds <= 0x20_0000 && bpm <= 300_000
    ensures seconds * bpm <= 0x20_0000 * 300_000 && (seconds * bpm + 30_000) / 60_000 <= 0x100_0000
  {
    Below(seconds, bpm, 0x20_0000, 300_000);
    var product := seconds * bpm;
    assert (product + 30_000) / 60_000 <= 0x100_0000;
  }

  /** Every decoded loaded frame has a duration that fits 32 bits, exceeds its beat, and makes valid track
      metadata, so applying it can only fail by exhausting a counter. */
  lemma DurationExceedsBeat(f: Frame)
    requires Decoded(f) && f.loaded
    ensures f.beat < DurationBeats(f) <= U32_MAX && BeatOf(f) == f.beat
    ensures TempoInRange(Metadata(f).bpmMilli) && Metadata(f).durationBeats > 0
  {
    RoundedDuration(f.durationSeconds, f.trackBpm);
  }

  /** A decoded frame is applied unless a counter is exhausted: there is no load number left for a new load, or no
      sequence number for one of its observations. */
  lemma FailsOnlyByExhaustion(p: Provider, deck: DeckId, f: Frame)
    requires Decoded(f) && p.sequence <= U64_MAX
    ensures Failure(p, deck, f).None? <==> HasRoom(p, deck, f)
    ensures Failure(p, deck, f) == Some(TrackLoadIdOverflow) <==>
      && NeedsLoad(p, deck, f) && p.nextLoad >= U64_MAX
      && p.sequence + (if p.ready then 0 else 1) + |UnloadObservations(p, deck)| <= U64_MAX
    ensures Failure(p, deck, f).Some? ==>
      Failure(p, deck, f).value.SequenceOverflow? || Failure(p, deck, f).value.TrackLoadIdOverflow?
  {
    if f.loaded { DurationIsChecked(f); }
    assert |FrameObservations(p, deck, f)| == (if p.ready then 0 else 1) + |DeckObservations(p, deck, f)|;
    hide CheckedDuration, Metadata, ValidFacts, NewDeckObservations, UpdateObservations;
  }

  lemma DurationIsChecked(f: Frame)
    requires Decoded(f) && f.loaded
    ensures CheckedDuration(f) == Some(DurationBeats(f)) && ValidFacts(Metadata(f))
  {
    DurationExceedsBeat(f);
    RoundedDuration(f.durationSeconds, f.trackBpm);
  }

  /** Why ingesting a message fails, if it does. */
  function IngestFailure(p: Provider, m: Message, now: Time): Option<Error>
    requires Valid(p)
  {
    var f := Committed(p, m);
    if f.None? then None else Failure(Received(p, m, now), m.channel, f.value)
  }

  /** Whatever bytes arrive, ingesting fails only for want of a sequence number or a load number. */
  lemma IngestFailsOnlyByExhaustion(p: Provider, m: Message, now: Time)
    requires Valid(p) && p.sequence <= U64_MAX
    ensures IngestFailure(p, m, now).None? <==> IngestHasRoom(p, m, now)
    ensures IngestFailure(p, m, now).Some? ==>
      IngestFailure(p, m, now).value.SequenceOverflow? || IngestFailure(p, m, now).value.TrackLoadIdOverflow?
  {
    var f := Committed(p, m);
    if f.Some? {
      DecodedFramesAreBounded(p.lanes[m.channel - 1].assembler);
      assert Received(p, m, now).sequence == p.sequence;
      hide Received, Failure, HasRoom, DecodeFrame;
      FailsOnlyByExhaustion(Received(p, m, now), m.channel, f.value);
    }
  }

  /** Two frames name the same load exactly when player, slot and provider track agree. */
  lemma IdentityIsExact(f: Frame, g: Frame)
    requires FitsWire(f) && FitsWire(g)
    ensures TrackIdentity(f) == TrackIdentity(g) <==>
      && f.player == g.player && f.slot == g.slot
      && (if f.signature == 0 then f.rekordboxId else f.signature)
        == (if g.signature == 0 then g.rekordboxId else g.signature)
  {
  }

  // ----- The codec ---------------------------------------------------------------------

  function IngestAll(p: Provider, ms: seq<Message>, now: Time, at: Time): (r: Provider)
    requires Valid(p)
    ensures Valid(r)
  {
    if ms == [] then p else Ingested(IngestAll(p, ms[..|ms| - 1], now, at), ms[|ms| - 1], now, at)
  }

  function WithAssembler(p: Provider, channel: nat, a: Assembler): Provider
    requires Valid(p) && 1 <= channel <= 2
  {
    p.(lanes := p.lanes[channel - 1 := p.lanes[channel - 1].(assembler := a)])
  }

  lemma FieldArrives(p: Provider, channel: nat, i: nat, value: Byte7, now: Time, at: Time)
    requires Valid(p) && 1 <= channel <= 2 && i < FIELD_BYTES
    ensures Ingested(p, Control(channel, FIRST_CC + i, value), now, at)
      == WithAssembler(p, channel, WriteField(p.lanes[channel - 1].assembler, FIRST_CC + i, value))
  {
  }

  /** The first `n` bytes of a frame have arrived. */
  predicate Holds(a: Assembler, bytes: seq<Byte7>, n: nat) {
    && ValidAssembler(a) && n <= |bytes| <= FIELD_BYTES
    && forall i :: 0 <= i < n ==> i in a.present && a.bytes[i] == bytes[i]
  }

  lemma Overwritten(p: Provider, channel: nat, a: Assembler, b: Assembler)
    requires Valid(p) && 1 <= channel <= 2 && ValidAssembler(a)
    ensures WithAssembler(WithAssembler(p, channel, a), channel, b) == WithAssembler(p, channel, b)
  {
  }

  lemma HoldsNext(a: Assembler, bytes: seq<Byte7>, i: nat)
    requires Holds(a, bytes, i) && i < |bytes|
    ensures Holds(WriteField(a, FIRST_CC + i, bytes[i]), bytes, i + 1)
  {
  }

  lemma {:induction false} FieldsArrive(p: Provider, channel: nat, f: Frame, n: nat, now: Time, at: Time)
    requires Valid(p) && 1 <= channel <= 2 && FitsWire(f) && n <= FIELD_BYTES
    ensures var q := IngestAll(p, Encode(channel, f)[..n], now, at);
      var a := q.lanes[channel - 1].assembler;
      q == WithAssembler(p, channel, a) && Holds(a, FrameBytes(f), n)
  {
    if n > 0 {
      hide Ingested, FrameBytes, WriteField;
      FieldsArrive(p, channel, f, n - 1, now, at);
      var ms := Encode(channel, f);
      assert ms[..n][..n - 1] == ms[..n - 1] && ms[n - 1] == Control(channel, FIRST_CC + (n - 1), FrameBytes(f)[n - 1]);
      var q := IngestAll(p, ms[..n - 1], now, at);
      var a := q.lanes[channel - 1].assembler;
      FieldArrives(q, channel, n - 1, FrameBytes(f)[n - 1], now, at);
      HoldsNext(a, FrameBytes(f), n - 1);
      hide Holds;
      Overwritten(p, channel, a, WriteField(a, FIRST_CC + (n - 1), FrameBytes(f)[n - 1]));
    }
  }

  /** What committing frame `f` does on a channel. */
  function Committing(p: Provider, channel: nat, f: Frame, now: Time, at: Time): Provider
    requires Valid(p) && 1 <= channel <= 2
  {
    if !InRange(f) then WithAssembler(p, channel, EmptyAssembler).(ignored := Saturating(p.ignored))
    else if p.lanes[channel - 1].lastSequence == Some(f.sequence) then
      WithAssembler(p, channel, EmptyAssembler).(duplicates := Saturating(p.duplicates))
    else
      Applied(p.(lanes := p.lanes[channel - 1 := Lane(EmptyAssembler, Some(now), Some(f.sequence))],
                 committed := Saturating(p.committed)), channel, f, at)
  }

  lemma CommitArrives(p: Provider, channel: nat, a: Assembler, now: Time, at: Time)
    requires Valid(p) && 1 <= channel <= 2 && ValidAssembler(a) && a.present == AllFields
    ensures Ingested(WithAssembler(p, channel, a), Control(channel, COMMIT_CC, PROTOCOL_VERSION), now, at)
      == Committing(p, channel, Fields(a.bytes), now, at)
  {
    hide Fields, Applied;
    var q := WithAssembler(p, channel, a);
    var committedLane := Lane(EmptyAssembler, Some(now), Some(Fields(a.bytes).sequence));
    assert q.lanes[channel - 1 := committedLane] == p.lanes[channel - 1 := committedLane];
    Overwritten(p, channel, a, EmptyAssembler);
  }

  /** Ingesting the printed messages of a frame, whatever was left in the assembler, commits exactly that
      frame: it is applied unless it repeats the last sequence number or is out of range. */
  lemma EncodedFrameCommits(p: Provider, channel: nat, f: Frame, now: Time, at: Time)
    requires Valid(p) && 1 <= channel <= 2 && FitsWire(f)
    ensures IngestAll(p, Encode(channel, f), now, at) == Committing(p, channel, f, now, at)
  {
    hide Ingested, FrameBytes, Fields, Committing;
    var ms := Encode(channel, f);
    FieldsArrive(p, channel, f, FIELD_BYTES, now, at);
    var a := IngestAll(p, ms[..FIELD_BYTES], now, at).lanes[channel - 1].assembler;
    assert a.bytes == FrameBytes(f);
    assert a.present == AllFields;
    FieldsOfFrameBytes(f);
    assert ms[..|ms| - 1] == ms[..FIELD_BYTES];
    CommitArrives(p, channel, a, now, at);
  }
}
