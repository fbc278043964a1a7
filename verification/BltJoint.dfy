/** Every interleaving of the deck source, the reducer and everything else that reaches the reducer. */
module BltJoint {
  import opened Domain
  import opened Reducer
  import opened ShowRuns
  import opened ShowTheorems
  import opened BltMidi
  import opened BltProvider
  import opened BltSimulation

  // ----- The reducer follows the protocol ----------------------------------------------

  function TransportOf(d: Deck): Transport { Transport(d.load, d.beat, d.bpmMilli, d.playing) }

  predicate Ours(d: DeckId) { d == 1 || d == 2 }

  function AbsDecks(decks: map<DeckId, Deck>): map<DeckId, Transport> {
    map d | d in decks && Ours(d) :: TransportOf(decks[d])
  }

  /** The reducer's own picture of decks 1 and 2. */
  function Abs(s: Show): Mirror { Mirror(AbsDecks(s.decks), s.leader) }

  lemma AbsUpdate(decks: map<DeckId, Deck>, d: DeckId, x: Deck)
    ensures AbsDecks(decks[d := x]) == if Ours(d) then AbsDecks(decks)[d := TransportOf(x)] else AbsDecks(decks)
    ensures AbsDecks(decks - {d}) == AbsDecks(decks) - {d}
    ensures d in AbsDecks(decks) <==> d in decks && Ours(d)
    ensures d in AbsDecks(decks) ==> AbsDecks(decks)[d] == TransportOf(decks[d])
  {
  }

  /** A stand-in for a deck that is not there. */
  const NoDeck := Deck(TrackMetadata(0, 0, 0, []), 0, 0, 0, false, None, 0)

  lemma PositionFollows(s: Show, source: nat, at: Time, o: DeckObservation)
    requires Fitting(Abs(s), o)
    requires o.PlaybackPosition? || o.PlaybackPositionSeeked?
    ensures var p := Place(s, source, at, o);
      !Ignored(p.decision) && Abs(p.show) == Follow(Abs(s), o)
  {
    hide AbsDecks, Framed, DueNow, LoadTrack, Hydrate, Retempo, SetPlaying, Unload, EnterPhrase, Lead,
      PhraseIndexAtBeat;
    var d := o.deck;
    AbsUpdate(s.decks, d, if d in s.decks then Place(s, source, at, o).show.decks[d] else NoDeck);
  }

  lemma PlayFollows(s: Show, source: nat, at: Time, o: DeckObservation)
    requires Fitting(Abs(s), o)
    requires o.PlaybackTempoChanged? || o.PlaybackStateChanged?
    ensures var p := Place(s, source, at, o);
      !Ignored(p.decision) && Abs(p.show) == Follow(Abs(s), o)
  {
    hide AbsDecks, Framed, DueNow, LoadTrack, Hydrate, Advance, Seek, Unload, EnterPhrase, Lead;
    var d := o.deck;
    AbsUpdate(s.decks, d, if d in s.decks then Place(s, source, at, o).show.decks[d] else NoDeck);
  }

  lemma LoadFollows(s: Show, source: nat, at: Time, o: DeckObservation)
    requires Fitting(Abs(s), o)
    requires o.TrackLoaded? || o.TrackUnloaded? || o.LeaderChanged? || o.SourceStatusChanged?
    ensures var p := Place(s, source, at, o);
      !Ignored(p.decision) && Abs(p.show) == Follow(Abs(s), o)
  {
    hide AbsDecks, Framed, DueNow, Hydrate, Advance, Seek, Retempo, SetPlaying, EnterPhrase;
    if o.TrackLoaded? {
      AbsUpdate(s.decks, o.deck, Deck(o.metadata, o.load, 0, o.metadata.bpmMilli, false, None, at));
    } else if !o.SourceStatusChanged? {
      AbsUpdate(s.decks, o.deck, NoDeck);
    }
  }

  /** A fitting observation is accepted and moves the reducer's picture as the protocol says. */
  lemma PlaceFollows(s: Show, source: nat, at: Time, o: DeckObservation)
    requires Fitting(Abs(s), o)
    ensures var p := Place(s, source, at, o);
      !Ignored(p.decision) && Abs(p.show) == Follow(Abs(s), o)
  {
    hide Place, Abs, Follow;
    if o.TrackLoaded? || o.TrackUnloaded? || o.LeaderChanged? || o.SourceStatusChanged? {
      LoadFollows(s, source, at, o);
    } else if o.PlaybackPosition? || o.PlaybackPositionSeeked? {
      PositionFollows(s, source, at, o);
    } else {
      PlayFollows(s, source, at, o);
    }
  }

  /** Executing a due cue only touches the scheduling record. */
  predicate SameSources(s: Show, t: Show) {
    t.decks == s.decks && t.leader == s.leader && t.sourceSequences == s.sourceSequences
      && t.sourceTimes == s.sourceTimes
  }

  lemma FinishFollows(p: Placement, o: DeckObservation, at: Time)
    requires p.due.Some? ==> !o.SourceStatusChanged?
    ensures var r := Finish(p, o, at);
      r.Ok? ==>
        && SameSources(p.show, r.value.show)
        && (r.value.decision == p.decision || r.value.decision == PhraseExecutionScheduled)
  {
  }

  /** The next observation of a source: not yet seen, and no earlier than its last one. */
  predicate Timely(s: Show, e: Event) {
    && e.Observation? && !Seen(s.sourceSequences, e.source, e.sequence)
    && (e.source in s.sourceTimes ==> s.sourceTimes[e.source] <= e.observedAt)
  }

  lemma ObservationFollows(s: Show, e: Event)
    requires Timely(s, e) && Fitting(Abs(s), e.observation) && s.outputSequence < U64_MAX
    ensures var r := ReduceObservation(s, e);
      && r.Ok? && !Ignored(r.value.decision) && Abs(r.value.show) == Follow(Abs(s), e.observation)
      && r.value.show.sourceSequences == s.sourceSequences[e.source := e.sequence]
      && r.value.show.sourceTimes == s.sourceTimes[e.source := e.observedAt]
  {
    hide Place, Follow, AbsDecks, Fitting;
    var s1 := Enveloped(s, e);
    PlaceFollows(s1, e.source, e.observedAt, e.observation);
    FinishFollows(Place(s1, e.source, e.observedAt, e.observation), e.observation, e.observedAt);
  }

  /** Reducing a fitting, timely observation takes it, unless the event counter itself is exhausted. */
  lemma DeliveredStep(s: State, e: Event)
    requires Sound(s) && s.journal.processed < U64_MAX
    requires Timely(s.show, e) && Fitting(Abs(s.show), e.observation)
    ensures Reduce(s, e).Ok? && !Ignored(Reduce(s, e).value.decision)
    ensures var t := Apply(s, e).show;
      && Abs(t) == Follow(Abs(s.show), e.observation)
      && t.sourceSequences == s.show.sourceSequences[e.source := e.sequence]
      && t.sourceTimes == s.show.sourceTimes[e.source := e.observedAt]
  {
    assert e.Observation? && s.show.outputSequence < U64_MAX;
    hide ReduceObservation, Follow, AbsDecks, Fitting, Timely;
    ObservationFollows(s.show, e);
    assert ReduceShow(s.show, e) == ReduceObservation(s.show, e);
    SoundStepDoesNotOverflow(s, e);
  }

  // ----- Everything else that reaches the reducer --------------------------------------

  /** Events other than this source's observations that leave decks 1 and 2 and the leader to it: commands,
      worker results, overloads, hydration, phrase changes, and other sources' other decks. */
  predicate NonInterfering(e: Event) {
    e.Observation? ==>
      && e.source != SOURCE_ID
      && match e.observation
         case SourceStatusChanged(_) => true
         case TrackMetadataHydrated(_, _, _) => true
         case PhraseChanged(_, _, _) => true
         case LeaderChanged(_, _) => false
         case o => !Ours(o.deck)
  }

  /** What the source shares with the reducer. */
  predicate SameShare(s: Show, t: Show) {
    && Abs(t) == Abs(s)
    && (SOURCE_ID in t.sourceSequences <==> SOURCE_ID in s.sourceSequences)
    && (SOURCE_ID in s.sourceSequences ==> t.sourceSequences[SOURCE_ID] == s.sourceSequences[SOURCE_ID])
    && (SOURCE_ID in t.sourceTimes <==> SOURCE_ID in s.sourceTimes)
    && (SOURCE_ID in s.sourceTimes ==> t.sourceTimes[SOURCE_ID] == s.sourceTimes[SOURCE_ID])
  }

  predicate LedHere(s: Show) { s.leader.Some? ==> Ours(s.leader.value) }

  lemma SameTransport(decks: map<DeckId, Deck>, deck: DeckId, d: Deck)
    requires deck in decks && TransportOf(d) == TransportOf(decks[deck])
    ensures AbsDecks(decks[deck := d]) == AbsDecks(decks)
  {
  }

  lemma DescriptionKeeps(s: Show, source: nat, at: Time, o: DeckObservation)
    requires o.TrackMetadataHydrated? || o.PhraseChanged? || o.SourceStatusChanged?
    ensures Abs(Place(s, source, at, o).show) == Abs(s)
  {
    hide AbsDecks, Framed, DueNow, LoadTrack, Advance, Seek, Retempo, SetPlaying, Unload, Lead, PhraseIndexAtBeat;
    if !o.SourceStatusChanged? && o.deck in s.decks {
      SameTransport(s.decks, o.deck, Place(s, source, at, o).show.decks[o.deck]);
    }
  }

  lemma DistantKeeps(s: Show, source: nat, at: Time, o: DeckObservation)
    requires !o.SourceStatusChanged? && !o.LeaderChanged? && !o.TrackMetadataHydrated? && !o.PhraseChanged?
    requires !Ours(o.deck) && LedHere(s)
    ensures Abs(Place(s, source, at, o).show) == Abs(s)
  {
    hide AbsDecks, Framed, DueNow, PhraseIndexAtBeat, Lead, Hydrate, EnterPhrase, ForgetCue, ForgetPlan;
    var t := Place(s, source, at, o).show;
    var d := if o.deck in t.decks then t.decks[o.deck] else NoDeck;
    AbsUpdate(s.decks, o.deck, d);
    assert AbsDecks(s.decks) - {o.deck} == AbsDecks(s.decks);
  }

  lemma OtherPlaceKeeps(s: Show, e: Event)
    requires e.Observation? && NonInterfering(e) && LedHere(s)
    ensures Abs(Place(Enveloped(s, e), e.source, e.observedAt, e.observation).show) == Abs(s)
  {
    hide Place, AbsDecks;
    var s1, o := Enveloped(s, e), e.observation;
    if o.SourceStatusChanged? || o.TrackMetadataHydrated? || o.PhraseChanged? {
      DescriptionKeeps(s1, e.source, e.observedAt, o);
    } else {
      DistantKeeps(s1, e.source, e.observedAt, o);
    }
  }

  /** Reducing an observation places it, records at most its own source's envelope, and nothing more. */
  lemma ObservationShape(s: Show, e: Event)
    requires e.Observation?
    ensures var r := ReduceObservation(s, e);
      r.Ok? ==>
        && (SameSources(r.value.show, s)
            || SameSources(r.value.show, s.(sourceSequences := s.sourceSequences[e.source := e.sequence]))
            || SameSources(r.value.show, Place(Enveloped(s, e), e.source, e.observedAt, e.observation).show))
  {
    hide Place, Finish;
    FinishFollows(Place(Enveloped(s, e), e.source, e.observedAt, e.observation), e.observation, e.observedAt);
  }

  lemma OtherObservationKeeps(s: Show, e: Event)
    requires e.Observation? && NonInterfering(e) && LedHere(s)
    ensures var r := ReduceObservation(s, e); r.Ok? ==> SameShare(s, r.value.show)
  {
    assert e.source != SOURCE_ID;
    OtherPlaceKeeps(s, e);
    ObservationShape(s, e);
    hide Place, AbsDecks, DueNow, LedHere, NonInterfering, ReduceObservation;
  }

  lemma CommandKeeps(s: Show, e: Event)
    requires e.UserCommand?
    ensures var r := ReduceCommand(s, e); r.Ok? ==> SameSources(s, r.value.show)
  {
    hide ExecutionEffect;
  }

  lemma ResultKeeps(s: Show, e: Event)
    requires e.EffectCompleted?
    ensures var r := ReduceEffectResult(s, e); r.Ok? ==> SameSources(s, r.value.show)
  {
    hide PushBounded;
  }

  lemma OtherEventKeeps(s: Show, e: Event)
    requires !e.Observation?
    ensures var r := ReduceShow(s, e); r.Ok? ==> SameSources(s, r.value.show)
  {
    hide ReduceCommand, ReduceEffectResult;
    if e.UserCommand? { CommandKeeps(s, e); }
    if e.EffectCompleted? { ResultKeeps(s, e); }
  }

  lemma ExternalStep(s: State, e: Event)
    requires NonInterfering(e) && LedHere(s.show)
    ensures SameShare(s.show, Apply(s, e).show)
  {
    hide AbsDecks, ReduceObservation, ReduceCommand, ReduceEffectResult, NonInterfering;
    if e.Observation? { OtherObservationKeeps(s.show, e); } else { OtherEventKeeps(s.show, e); }
  }
}
