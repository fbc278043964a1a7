/** The deck source and the reducer together: the reducer follows the source and never rejects it. */
module BltSimulation {
  import opened Domain
  import opened Reducer
  import opened BltMidi
  import opened BltProvider

  // ----- The protocol between them -----------------------------------------------------

  datatype Transport = Transport(load: LoadId, beat: nat, bpmMilli: nat, playing: bool)

  /** What the observations emitted so far say about decks 1 and 2. */
  datatype Mirror = Mirror(decks: map<DeckId, Transport>, leader: Option<DeckId>)

  predicate Has(m: Mirror, deck: DeckId, load: LoadId) { deck in m.decks && m.decks[deck].load == load }

  /** The observation is one the reducer has to accept in this situation. */
  predicate Fitting(m: Mirror, o: DeckObservation) {
    match o
    case SourceStatusChanged(_) => true
    case TrackLoaded(deck, _, _) => deck == 1 || deck == 2
    case PlaybackPosition(deck, load, beat) => Has(m, deck, load) && m.decks[deck].beat <= beat
    case PlaybackPositionSeeked(deck, load, _) => Has(m, deck, load)
    case PlaybackTempoChanged(deck, load, bpm) => Has(m, deck, load) && TempoInRange(bpm)
    case PlaybackStateChanged(deck, load, _) => Has(m, deck, load)
    case TrackUnloaded(deck, load) => Has(m, deck, load)
    case LeaderChanged(deck, load) => Has(m, deck, load)
    case TrackMetadataHydrated(_, _, _) => false
    case PhraseChanged(_, _, _) => false
  }

  function Follow(m: Mirror, o: DeckObservation): Mirror
    requires Fitting(m, o)
  {
    match o
    case SourceStatusChanged(_) => m
    case TrackLoaded(deck, metadata, load) => m.(decks := m.decks[deck := Transport(load, 0, metadata.bpmMilli, false)])
    case PlaybackPosition(deck, _, beat) => m.(decks := m.decks[deck := m.decks[deck].(beat := beat)])
    case PlaybackPositionSeeked(deck, _, beat) => m.(decks := m.decks[deck := m.decks[deck].(beat := beat)])
    case PlaybackTempoChanged(deck, _, bpm) => m.(decks := m.decks[deck := m.decks[deck].(bpmMilli := bpm)])
    case PlaybackStateChanged(deck, _, playing) => m.(decks := m.decks[deck := m.decks[deck].(playing := playing)])
    case TrackUnloaded(deck, _) => Mirror(m.decks - {deck}, if m.leader == Some(deck) then None else m.leader)
    case LeaderChanged(deck, _) => m.(leader := Some(deck))
  }

  predicate AllFitting(m: Mirror, os: seq<DeckObservation>)
    decreases |os|
  {
    os == [] || (Fitting(m, os[0]) && AllFitting(Follow(m, os[0]), os[1..]))
  }

  function FollowAll(m: Mirror, os: seq<DeckObservation>): Mirror
    requires AllFitting(m, os)
    decreases |os|
  {
    if os == [] then m else FollowAll(Follow(m, os[0]), os[1..])
  }

  lemma {:induction false} FollowJoin(m: Mirror, a: seq<DeckObservation>, b: seq<DeckObservation>)
    requires AllFitting(m, a) && AllFitting(FollowAll(m, a), b)
    ensures AllFitting(m, a + b) && FollowAll(m, a + b) == FollowAll(FollowAll(m, a), b)
    decreases |a|
  {
    if a == [] {
      assert a + b == b;
    } else {
      FollowJoin(Follow(m, a[0]), a[1..], b);
      assert (a + b)[1..] == a[1..] + b;
    }
  }

  lemma FollowOne(m: Mirror, o: DeckObservation)
    requires Fitting(m, o)
    ensures AllFitting(m, [o]) && FollowAll(m, [o]) == Follow(m, o)
  {
    assert [o][1..] == [];
    assert AllFitting(Follow(m, o), []);
  }

  lemma Append(m: Mirror, os: seq<DeckObservation>, o: DeckObservation)
    requires AllFitting(m, os) && Fitting(FollowAll(m, os), o)
    ensures AllFitting(m, os + [o]) && FollowAll(m, os + [o]) == Follow(FollowAll(m, os), o)
  {
    FollowOne(FollowAll(m, os), o);
    FollowJoin(m, os, [o]);
  }

  // ----- The source speaks the protocol ------------------------------------------------

  function Transports(decks: map<DeckId, LoadedDeck>): map<DeckId, Transport> {
    map d | d in decks :: Transport(decks[d].load, decks[d].beat, decks[d].effectiveBpm, decks[d].playing)
  }

  /** The leader is on a loaded deck and is the source's, or there is none. */
  predicate Led(m: Mirror, leader: Option<DeckId>) {
    m.leader.Some? ==> m.leader == leader && m.leader.value in m.decks
  }

  /** The mirror shows the source's decks and, unless an unload removed it, the source's leader. */
  predicate Mirrors(m: Mirror, p: Provider) {
    m.decks == Transports(p.decks) && Led(m, p.leader)
  }

  lemma UnloadFits(m: Mirror, p: Provider, deck: DeckId)
    requires Mirrors(m, p)
    ensures AllFitting(m, UnloadObservations(p, deck))
    ensures var n := FollowAll(m, UnloadObservations(p, deck));
      n.decks == Transports(p.decks - {deck}) && Led(n, p.leader)
  {
    if deck in p.decks {
      FollowOne(m, TrackUnloaded(deck, p.decks[deck].load));
      assert Transports(p.decks) - {deck} == Transports(p.decks - {deck});
    } else {
      assert p.decks - {deck} == p.decks;
    }
  }

  lemma MetadataBpm(f: Frame)
    ensures Metadata(f).bpmMilli == f.trackBpm
  {
  }

  lemma NewDeckFits(m: Mirror, deck: DeckId, f: Frame, load: LoadId)
    requires deck == 1 || deck == 2
    requires TempoInRange(f.effectiveBpm)
    ensures AllFitting(m, NewDeckObservations(deck, f, load))
    ensures FollowAll(m, NewDeckObservations(deck, f, load))
      == m.(decks := m.decks[deck := Transport(load, BeatOf(f), f.effectiveBpm, f.playing)])
  {
    hide AllFitting, FollowAll, Metadata, BeatOf;
    var e1 := [TrackLoaded(deck, Metadata(f), load)];
    FollowOne(m, e1[0]);
    assert FollowAll(m, e1) == m.(decks := m.decks[deck := Transport(load, 0, Metadata(f).bpmMilli, false)]);
    var e2 := e1 + When(f.effectiveBpm != f.trackBpm, PlaybackTempoChanged(deck, load, f.effectiveBpm));
    if f.effectiveBpm != f.trackBpm {
      Append(m, e1, PlaybackTempoChanged(deck, load, f.effectiveBpm));
    } else {
      assert e2 == e1;
    }
    assert Metadata(f).bpmMilli == f.trackBpm by { MetadataBpm(f); }
    assert FollowAll(m, e2) == m.(decks := m.decks[deck := Transport(load, 0, f.effectiveBpm, false)]);
    var position, playing := PlaybackPosition(deck, load, BeatOf(f)), PlaybackStateChanged(deck, load, f.playing);
    Append(m, e2, position);
    Append(m, e2 + [position], playing);
    assert e2 + [position] + [playing] == NewDeckObservations(deck, f, load);
  }

  lemma UpdateFits(m: Mirror, deck: DeckId, d: LoadedDeck, f: Frame)
    requires deck in m.decks && m.decks[deck] == Transport(d.load, d.beat, d.effectiveBpm, d.playing)
    requires TempoInRange(f.effectiveBpm)
    ensures AllFitting(m, UpdateObservations(deck, d, f))
    ensures FollowAll(m, UpdateObservations(deck, d, f))
      == m.(decks := m.decks[deck := Transport(d.load, BeatOf(f), f.effectiveBpm, f.playing)])
  {
    var e0: seq<DeckObservation> := [];
    assert AllFitting(m, e0) && FollowAll(m, e0) == m;
    hide AllFitting, FollowAll, BeatOf;
    var e1 := e0 + When(d.effectiveBpm != f.effectiveBpm, PlaybackTempoChanged(deck, d.load, f.effectiveBpm));
    if d.effectiveBpm != f.effectiveBpm {
      Append(m, e0, PlaybackTempoChanged(deck, d.load, f.effectiveBpm));
    }
    assert FollowAll(m, e1) == m.(decks := m.decks[deck := m.decks[deck].(bpmMilli := f.effectiveBpm)]);
    var o := if BeatOf(f) < d.beat then PlaybackPositionSeeked(deck, d.load, BeatOf(f))
      else PlaybackPosition(deck, d.load, BeatOf(f));
    var e2 := e1 + When(d.beat != BeatOf(f), o);
    if d.beat != BeatOf(f) {
      Append(m, e1, o);
    } else {
      assert e2 == e1;
    }
    assert FollowAll(m, e2)
      == m.(decks := m.decks[deck := m.decks[deck].(bpmMilli := f.effectiveBpm, beat := BeatOf(f))]);
    var e3 := e2 + When(d.playing != f.playing, PlaybackStateChanged(deck, d.load, f.playing));
    if d.playing != f.playing {
      Append(m, e2, PlaybackStateChanged(deck, d.load, f.playing));
    } else {
      assert e3 == e2;
    }
    assert e3 == UpdateObservations(deck, d, f);
  }

  lemma LoadFits(m: Mirror, p: Provider, deck: DeckId, f: Frame)
    requires Mirrors(m, p) && (deck == 1 || deck == 2) && f.loaded && InRange(f) && NeedsLoad(p, deck, f)
    ensures AllFitting(m, LoadObservations(p, deck, f))
    ensures var n := FollowAll(m, LoadObservations(p, deck, f));
      n.decks == Transports(FrameDecks(p, deck, f)) && Led(n, p.leader)
  {
    hide AllFitting, FollowAll, BeatOf, NewDeckObservations;
    UnloadFits(m, p, deck);
    var n := FollowAll(m, UnloadObservations(p, deck));
    NewDeckFits(n, deck, f, p.nextLoad);
    FollowJoin(m, UnloadObservations(p, deck), NewDeckObservations(deck, f, p.nextLoad));
  }

  /** Without a new load, the frame moves the deck that is there. */
  lemma MoveFits(m: Mirror, p: Provider, deck: DeckId, f: Frame)
    requires Mirrors(m, p) && f.loaded && InRange(f) && !NeedsLoad(p, deck, f)
    ensures AllFitting(m, UpdateObservations(deck, p.decks[deck], f))
    ensures var n := FollowAll(m, UpdateObservations(deck, p.decks[deck], f));
      n.decks == Transports(FrameDecks(p, deck, f)) && Led(n, p.leader)
  {
    hide AllFitting, FollowAll, BeatOf, UpdateObservations;
    UpdateFits(m, deck, p.decks[deck], f);
  }

  lemma LoadedFits(m: Mirror, p: Provider, deck: DeckId, f: Frame)
    requires Mirrors(m, p) && (deck == 1 || deck == 2) && f.loaded && InRange(f)
    ensures AllFitting(m, DeckObservations(p, deck, f))
    ensures Mirrors(FollowAll(m, DeckObservations(p, deck, f)), Applied(p, deck, f, 0))
  {
    hide AllFitting, FollowAll, BeatOf, UpdateObservations, LoadObservations, Envelopes;
    var os := if NeedsLoad(p, deck, f) then LoadObservations(p, deck, f)
      else UpdateObservations(deck, p.decks[deck], f);
    if NeedsLoad(p, deck, f) { LoadFits(m, p, deck, f); } else { MoveFits(m, p, deck, f); }
    if TakesLead(p, deck, f) {
      Append(m, os, LeaderChanged(deck, LoadOf(p, deck, f)));
    } else {
      assert DeckObservations(p, deck, f) == os;
    }
  }

  /** Every decoded frame is reported by fitting observations, and the mirror then shows the new decks. */
  lemma FrameFits(m: Mirror, p: Provider, deck: DeckId, f: Frame, at: Time)
    requires Mirrors(m, p) && (deck == 1 || deck == 2) && InRange(f)
    ensures AllFitting(m, FrameObservations(p, deck, f))
    ensures Mirrors(FollowAll(m, FrameObservations(p, deck, f)), Applied(p, deck, f, at))
  {
    if f.loaded { LoadedFits(m, p, deck, f); } else { UnloadFits(m, p, deck); }
    var status := SourceStatusChanged(SourceReady);
    if !p.ready {
      FollowOne(m, status);
      FollowJoin(m, [status], DeckObservations(p, deck, f));
    }
    hide AllFitting, FollowAll, Envelopes, FrameDecks;
    assert FrameObservations(p, deck, f) == When(!p.ready, status) + DeckObservations(p, deck, f);
    assert p.ready ==> FrameObservations(p, deck, f) == DeckObservations(p, deck, f);
  }

  lemma ExpiryFits(m: Mirror, p: Provider, index: nat, at: Time)
    requires Mirrors(m, p) && Valid(p) && index < 2
    ensures AllFitting(m, UnloadObservations(p, index + 1))
    ensures Mirrors(FollowAll(m, UnloadObservations(p, index + 1)), ExpiredLane(p, index, at))
  {
    UnloadFits(m, p, index + 1);
  }

  lemma ClearFits(m: Mirror, p: Provider, at: Time)
    requires Mirrors(m, p) && Valid(p)
    ensures AllFitting(m, UnloadObservations(p, 1) + UnloadObservations(p, 2))
    ensures Mirrors(FollowAll(m, UnloadObservations(p, 1) + UnloadObservations(p, 2)), Cleared(p, at))
  {
    hide AllFitting, FollowAll, Envelopes;
    UnloadFits(m, p, 1);
    var q := p.(decks := p.decks - {1});
    var n := FollowAll(m, UnloadObservations(p, 1));
    UnloadFits(n, q, 2);
    assert UnloadObservations(q, 2) == UnloadObservations(p, 2);
    FollowJoin(m, UnloadObservations(p, 1), UnloadObservations(p, 2));
    assert p.decks - {1} - {2} == map[];
    var end := FollowAll(n, UnloadObservations(p, 2));
    assert end.decks == map[];
    assert end.leader.None?;
  }
}
