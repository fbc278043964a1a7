/** The deck source as an object: every call updates its fields in place. */
module BltDeckSource {
  import opened Domain
  import opened Reducer
  import opened BltMidi
  import opened BltProvider

  lemma EnvelopesAppend(after: nat, at: Time, os: seq<DeckObservation>, o: DeckObservation)
    ensures Envelopes(after, at, os + [o])
      == Envelopes(after, at, os) + [Observation(SOURCE_ID, after + 1 + |os|, at, o)]
  {
  }

  /** A frame that was loaded or moved and takes no lead has all its observations out. */
  lemma LoadHadRoom(p: Provider, done: nat, deck: DeckId, f: Frame)
    requires f.loaded && !TakesLead(p, deck, f)
    requires (if NeedsLoad(p, deck, f) then LoadFailure(p, done, deck, f) else UpdateFailure(p, done, deck, f)).None?
    ensures p.sequence + done + |DeckObservations(p, deck, f)| <= U64_MAX
  {
    hide CheckedDuration, NewDeckObservations, UpdateObservations;
  }

  class BltMidiDeckSource {
    var sequence: nat
    var nextLoad: nat
    var lanes: seq<Lane>
    var decks: map<DeckId, LoadedDeck>
    var leader: Option<DeckId>
    var pending: seq<Event>
    var committed: nat
    var ignored: nat
    var duplicates: nat
    var ready: bool

    function View(): Provider reads this {
      Provider(sequence, nextLoad, lanes, decks, leader, pending, committed, ignored, duplicates, ready)
    }

    /** Exactly the observations `os` were emitted since the source was at `p`. */
    ghost predicate Since(p: Provider, at: Time, os: seq<DeckObservation>) reads this {
      sequence == p.sequence + |os| && pending == p.pending + Envelopes(p.sequence, at, os)
    }

    constructor (at: Time)
      ensures View() == Started(at)
    {
      sequence, nextLoad, lanes, decks, leader := 0, 1, [EmptyLane, EmptyLane], map[], None;
      pending, committed, ignored, duplicates, ready := [], 0, 0, 0, false;
      new;
      ghost var p := View();
      var _ := Emit(at, SourceStatusChanged(SourceStarting), p, []);
    }

    method Emit(at: Time, o: DeckObservation, ghost p: Provider, ghost os: seq<DeckObservation>)
      returns (error: Option<Error>)
      requires Since(p, at, os)
      modifies this`sequence, this`pending
      ensures error.None? <==> p.sequence + |os| < U64_MAX
      ensures error.None? ==> Since(p, at, os + [o])
      ensures error.Some? ==> error.value == SequenceOverflow && Since(p, at, os)
    {
      if sequence >= U64_MAX { return Some(SequenceOverflow); }
      EnvelopesAppend(p.sequence, at, os, o);
      sequence := sequence + 1;
      pending := pending + [Observation(SOURCE_ID, sequence, at, o)];
      return None;
    }

    /** Takes the deck off, reporting the unload if it was loaded. */
    method Drop(deck: DeckId, at: Time, ghost p: Provider, ghost os: seq<DeckObservation>)
      returns (error: Option<Error>)
      requires Since(p, at, os) && decks == p.decks
      modifies this`sequence, this`pending, this`decks
      ensures error.None? <==> (deck in p.decks ==> p.sequence + |os| < U64_MAX)
      ensures error.None? ==> Since(p, at, os + UnloadObservations(p, deck)) && decks == p.decks - {deck}
      ensures error.Some? ==> error.value == SequenceOverflow
    {
      if deck in decks {
        var previous := decks[deck];
        decks := decks - {deck};
        error := Emit(at, TrackUnloaded(deck, previous.load), p, os);
      } else {
        assert os + UnloadObservations(p, deck) == os;
        error := None;
      }
    }

    /** Reports a new load: the track, its tempo if pitched, its position and its transport. */
    method AnnounceLoad(deck: DeckId, f: Frame, at: Time, load: LoadId, ghost p: Provider,
                        ghost os: seq<DeckObservation>)
      returns (error: Option<Error>)
      requires Since(p, at, os) && sequence <= U64_MAX
      modifies this`sequence, this`pending
      ensures error == if p.sequence + |os| + |NewDeckObservations(deck, f, load)| <= U64_MAX then None
                       else Some(SequenceOverflow)
      ensures error.None? ==> Since(p, at, os + NewDeckObservations(deck, f, load))
    {
      hide Envelopes;
      error := Emit(at, TrackLoaded(deck, Metadata(f), load), p, os);
      if error.Some? { return; }
      ghost var e := os + [TrackLoaded(deck, Metadata(f), load)];
      if f.effectiveBpm != f.trackBpm {
        error := Emit(at, PlaybackTempoChanged(deck, load, f.effectiveBpm), p, e);
        if error.Some? { return; }
        e := e + [PlaybackTempoChanged(deck, load, f.effectiveBpm)];
      }
      error := Emit(at, PlaybackPosition(deck, load, BeatOf(f)), p, e);
      if error.Some? { return; }
      e := e + [PlaybackPosition(deck, load, BeatOf(f))];
      error := Emit(at, PlaybackStateChanged(deck, load, f.playing), p, e);
      assert e + [PlaybackStateChanged(deck, load, f.playing)] == os + NewDeckObservations(deck, f, load);
    }

    method LoadFrame(deck: DeckId, f: Frame, at: Time, ghost p: Provider, ghost os: seq<DeckObservation>)
      returns (error: Option<Error>)
      requires Since(p, at, os) && decks == p.decks && nextLoad == p.nextLoad
      requires NeedsLoad(p, deck, f) && sequence <= U64_MAX
      modifies this`sequence, this`pending, this`decks, this`nextLoad
      ensures error == LoadFailure(p, |os|, deck, f)
      ensures error.None? ==>
        Since(p, at, os + LoadObservations(p, deck, f)) && decks == FrameDecks(p, deck, f) && nextLoad == p.nextLoad + 1
    {
      hide Envelopes, NewDeckObservations, CheckedDuration;
      ghost var e := os + UnloadObservations(p, deck);
      assert e + NewDeckObservations(deck, f, p.nextLoad) == os + LoadObservations(p, deck, f);
      error := Drop(deck, at, p, os);
      if error.Some? { return; }
      var load := nextLoad;
      if nextLoad >= U64_MAX { return Some(TrackLoadIdOverflow); }
      nextLoad := nextLoad + 1;
      if CheckedDuration(f).None? { return Some(FrameValueOverflow); }
      if !ValidFacts(Metadata(f)) { return Some(InvalidTrack); }
      decks := decks[deck := LoadedDeck(TrackIdentity(f), load, BeatOf(f), f.effectiveBpm, f.playing, f.position)];
      error := AnnounceLoad(deck, f, at, load, p, e);
    }

    method UpdateFrame(deck: DeckId, f: Frame, at: Time, ghost p: Provider, ghost os: seq<DeckObservation>)
      returns (error: Option<Error>)
      requires Since(p, at, os) && decks == p.decks && deck in decks
      requires f.loaded && !NeedsLoad(p, deck, f) && sequence <= U64_MAX
      modifies this`sequence, this`pending, this`decks
      ensures error == UpdateFailure(p, |os|, deck, f)
      ensures error.None? ==>
        Since(p, at, os + UpdateObservations(deck, p.decks[deck], f)) && decks == FrameDecks(p, deck, f)
    {
      hide CheckedDuration;
      var previous := decks[deck];
      if CheckedDuration(f).None? { return Some(FrameValueOverflow); }
      var beat := BeatOf(f);
      ghost var e := os;
      if previous.effectiveBpm != f.effectiveBpm {
        error := Emit(at, PlaybackTempoChanged(deck, previous.load, f.effectiveBpm), p, e);
        if error.Some? { return; }
        e := e + [PlaybackTempoChanged(deck, previous.load, f.effectiveBpm)];
      }
      if previous.beat != beat {
        var o := if beat < previous.beat then PlaybackPositionSeeked(deck, previous.load, beat)
                 else PlaybackPosition(deck, previous.load, beat);
        error := Emit(at, o, p, e);
        if error.Some? { return; }
        e := e + [o];
      }
      if previous.playing != f.playing {
        error := Emit(at, PlaybackStateChanged(deck, previous.load, f.playing), p, e);
        if error.Some? { return; }
        e := e + [PlaybackStateChanged(deck, previous.load, f.playing)];
      }
      var next := previous.(beat := beat, effectiveBpm := f.effectiveBpm, playing := f.playing, position := f.position);
      decks := decks[deck := next];
      assert e == os + UpdateObservations(deck, previous, f);
      error := None;
    }

    /** Gives the deck the lead; a deck that is not loaded cannot take it. */
    method TakeLead(deck: DeckId, at: Time, ghost p: Provider, ghost os: seq<DeckObservation>)
      returns (error: Option<Error>)
      requires Since(p, at, os)
      modifies this`sequence, this`pending, this`leader
      ensures error == if deck !in decks then Some(LoadedDeckMissing)
                       else if p.sequence + |os| < U64_MAX then None
                       else Some(SequenceOverflow)
      ensures error.None? ==> Since(p, at, os + [LeaderChanged(deck, decks[deck].load)]) && leader == Some(deck)
    {
      if deck !in decks { return Some(LoadedDeckMissing); }
      leader := Some(deck);
      error := Emit(at, LeaderChanged(deck, decks[deck].load), p, os);
    }

    method ApplyLoaded(deck: DeckId, f: Frame, at: Time, ghost p: Provider, ghost os: seq<DeckObservation>)
      returns (error: Option<Error>)
      requires Since(p, at, os) && decks == p.decks && nextLoad == p.nextLoad && leader == p.leader
      requires f.loaded && sequence <= U64_MAX
      modifies this`sequence, this`pending, this`decks, this`nextLoad, this`leader
      ensures error == LoadedFailure(p, |os|, deck, f)
      ensures error.None? ==>
        && Since(p, at, os + DeckObservations(p, deck, f)) && decks == FrameDecks(p, deck, f)
        && nextLoad == (if NeedsLoad(p, deck, f) then p.nextLoad + 1 else p.nextLoad)
        && leader == (if TakesLead(p, deck, f) then Some(deck) else p.leader)
    {
      hide LoadObservations, UpdateObservations, Envelopes, LoadFailure, UpdateFailure;
      ghost var e;
      if deck !in decks || decks[deck].identity != TrackIdentity(f) {
        error := LoadFrame(deck, f, at, p, os);
        e := os + LoadObservations(p, deck, f);
      } else {
        error := UpdateFrame(deck, f, at, p, os);
        e := os + UpdateObservations(deck, p.decks[deck], f);
      }
      if error.Some? { return; }
      assert deck in decks && decks[deck].load == LoadOf(p, deck, f);
      if f.master && leader != Some(deck) {
        error := TakeLead(deck, at, p, e);
        e := e + [LeaderChanged(deck, decks[deck].load)];
      } else {
        LoadHadRoom(p, |os|, deck, f);
      }
      assert e == os + DeckObservations(p, deck, f);
    }

    /** The first frame announces that the source is ready. */
    method AnnounceReady(at: Time) returns (error: Option<Error>)
      requires sequence <= U64_MAX
      modifies `ready, `sequence, `pending
      ensures error == if old(ready) || old(sequence) < U64_MAX then None else Some(SequenceOverflow)
      ensures error.None? ==> ready && Since(old(View()), at, When(!old(ready), SourceStatusChanged(SourceReady)))
    {
      error := None;
      if !ready {
        error := Emit(at, SourceStatusChanged(SourceReady), View(), []);
        if error.None? { ready := true; }
      }
    }

    /** Applies a frame, or reports the first error on the way. */
    method ApplyFrame(deck: DeckId, f: Frame, at: Time) returns (error: Option<Error>)
      requires sequence <= U64_MAX
      modifies this
      ensures error == Failure(old(View()), deck, f)
      ensures error.None? ==> View() == Applied(old(View()), deck, f, at)
      ensures Decoded(f) ==> (error.None? <==> HasRoom(old(View()), deck, f))
    {
      ghost var p := View();
      ghost var os := When(!ready, SourceStatusChanged(SourceReady));
      if Decoded(f) { FailsOnlyByExhaustion(p, deck, f); }
      hide HasRoom, LoadedFailure, Decoded, LoadObservations, UpdateObservations, Envelopes, TrackIdentity;
      error := AnnounceReady(at);
      if error.Some? { return; }
      assert FrameObservations(p, deck, f) == os + DeckObservations(p, deck, f);
      if !f.loaded {
        error := Drop(deck, at, p, os);
      } else {
        hide DeckObservations, FrameDecks;
        error := ApplyLoaded(deck, f, at, p, os);
      }
    }

    /** Takes one message in, up to the frame it commits. */
    method Take(m: Message, now: Time) returns (frame: Option<Frame>)
      requires BltProvider.Valid(View())
      modifies `lanes, `ignored, `duplicates, `committed
      ensures View() == Received(old(View()), m, now) && frame == Committed(old(View()), m)
    {
      if m.status != CONTROL_CHANGE || !(1 <= m.channel <= 2) {
        ignored := Saturating(ignored);
        return None;
      }
      var index := m.channel - 1;
      var lane := lanes[index];
      if m.dataOne == COMMIT_CC {
        if m.dataTwo != PROTOCOL_VERSION {
          ignored := Saturating(ignored);
          return None;
        }
        lanes := lanes[index := lane.(assembler := EmptyAssembler)];
        frame := DecodeFrame(lane.assembler);
        if frame.None? {
          ignored := Saturating(ignored);
          return None;
        }
        if lane.lastSequence == Some(frame.value.sequence) {
          duplicates := Saturating(duplicates);
          return None;
        }
        lanes := lanes[index := Lane(EmptyAssembler, Some(now), Some(frame.value.sequence))];
        committed := Saturating(committed);
        return;
      }
      if FIRST_CC <= m.dataOne < FIRST_CC + FIELD_BYTES {
        lanes := lanes[index := lane.(assembler := WriteField(lane.assembler, m.dataOne, m.dataTwo))];
      } else {
        ignored := Saturating(ignored);
      }
      frame := None;
    }

    /** Ingests one message. Every frame the decoder lets through can be applied, so the call fails only when a
        sequence number or a load number is wanting. */
    method Ingest(m: Message, now: Time, at: Time) returns (error: Option<Error>)
      requires BltProvider.Valid(View()) && sequence <= U64_MAX
      modifies this
      ensures error == IngestFailure(old(View()), m, now)
      ensures error.None? <==> IngestHasRoom(old(View()), m, now)
      ensures error.Some? ==> error.value.SequenceOverflow? || error.value.TrackLoadIdOverflow?
      ensures error.None? ==> View() == Ingested(old(View()), m, now, at) && BltProvider.Valid(View())
    {
      hide Failure, HasRoom, Applied, Received, Committed;
      IngestFailsOnlyByExhaustion(View(), m, now);
      var frame := Take(m, now);
      if frame.None? { return None; }
      error := ApplyFrame(m.channel, frame.value, at);
    }

    method ExpireLane(index: nat, at: Time) returns (error: Option<Error>)
      requires BltProvider.Valid(View()) && sequence <= U64_MAX && index < 2
      modifies this
      ensures error == if ExpiredLane(old(View()), index, at).sequence <= U64_MAX then None else Some(SequenceOverflow)
      ensures error.None? ==> View() == ExpiredLane(old(View()), index, at)
    {
      ghost var p := View();
      lanes := lanes[index := EmptyLane];
      var deck := index + 1;
      assert [] + UnloadObservations(p, deck) == UnloadObservations(p, deck);
      error := Drop(deck, at, p, []);
      if error.None? && leader == Some(deck) { leader := None; }
    }

    /** Removes the decks whose heartbeat is older than the given age. */
    method ExpireStale(now: Time, maximumAge: nat, at: Time) returns (error: Option<Error>)
      requires BltProvider.Valid(View()) && sequence <= U64_MAX
      modifies this
      ensures error == if Expired(old(View()), 2, now, maximumAge, at).sequence <= U64_MAX then None
                       else Some(SequenceOverflow)
      ensures error.None? ==> View() == Expired(old(View()), 2, now, maximumAge, at)
    {
      error := None;
      for index := 0 to 2
        invariant BltProvider.Valid(View()) && View() == Expired(old(View()), index, now, maximumAge, at)
        invariant sequence <= U64_MAX && error.None?
      {
        var received := lanes[index].receivedAt;
        if received.Some? && now > received.value + maximumAge {
          hide Envelopes;
          error := ExpireLane(index, at);
          if error.Some? { return; }
        }
      }
    }

    method Clear(at: Time) returns (error: Option<Error>)
      requires BltProvider.Valid(View()) && sequence <= U64_MAX
      modifies this
      ensures error == if Cleared(old(View()), at).sequence <= U64_MAX then None else Some(SequenceOverflow)
      ensures error.None? ==> View() == Cleared(old(View()), at)
    {
      ghost var p := View();
      ghost var os: seq<DeckObservation> := [];
      for deck := 1 to 3
        invariant Since(p, at, os) && View() == p.(sequence := sequence, pending := pending) && sequence <= U64_MAX
        invariant os
          == (if deck > 1 then UnloadObservations(p, 1) else []) + (if deck > 2 then UnloadObservations(p, 2) else [])
      {
        if deck in decks {
          error := Emit(at, TrackUnloaded(deck, decks[deck].load), p, os);
          if error.Some? { return; }
        }
        os := os + UnloadObservations(p, deck);
      }
      decks, leader, lanes := map[], None, [EmptyLane, EmptyLane];
      error := None;
    }
  }
}
