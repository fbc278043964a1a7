/** Constructed tracks and valid plans in, a valid show at every moment. */
module ShowValidity {
  import opened Domain
  import opened Reducer
  import opened ShowRuns
  import opened ShowTheorems
  import opened ShowCommands
  import opened Spans
  import opened Validation

  /** The tracks and plans an event carries came out of their constructors; a track may be without analysis. */
  predicate Admissible(e: Event) {
    match e
    case Observation(_, _, _, o) =>
      (o.TrackLoaded? ==> Constructed(o.metadata)) && (o.TrackMetadataHydrated? ==> Constructed(o.metadata))
    case EffectCompleted(_, _, _, r) => r.PlanGenerated? ==> ValidPlan(r.plan)
    case _ => true
  }

  predicate AllAdmissible(es: seq<Event>) { forall i :: 0 <= i < |es| ==> Admissible(es[i]) }

  /** The deck's track is one that can be constructed, its tempo is in range, and its current phrase is one of the
      track. */
  predicate Playable(d: Deck) {
    && Constructed(d.metadata) && TempoInRange(d.bpmMilli)
    && (d.phraseIndex.Some? ==> d.phraseIndex.value < |d.metadata.phrases|)
  }

  predicate AllPlayable(decks: map<DeckId, Deck>) { forall d :: d in decks ==> Playable(decks[d]) }

  predicate AllValid(plans: map<DeckId, Plan>) { forall d :: d in plans ==> ValidPlan(plans[d]) }

  predicate ValidShow(s: Show) { AllPlayable(s.decks) && AllValid(s.plans) }

  lemma LookupInTrack(m: TrackMetadata, beat: nat)
    requires Constructed(m)
    ensures var r := PhraseIndexAtBeat(m.phrases, beat); r.Some? ==> r.value < |m.phrases|
  {
    hide Tiles;
    if m.phrases == [] { assert PhraseIndexAtBeat(m.phrases, beat).None?; }
  }

  lemma LoadKeepsValid(s: Show, deck: DeckId, metadata: TrackMetadata, load: LoadId, at: Time)
    requires ValidShow(s) && Constructed(metadata)
    ensures ValidShow(LoadTrack(s, deck, metadata, load, at).show)
  {
    assert TempoInRange(metadata.bpmMilli);
    hide Constructed, ValidPlan;
  }

  lemma UnloadKeepsValid(s: Show, deck: DeckId, load: LoadId)
    requires ValidShow(s)
    ensures ValidShow(Unload(s, deck, load).show)
  {
    hide Playable, ValidPlan;
  }

  lemma HydrateKeeps(s: Show, deck: DeckId, metadata: TrackMetadata, load: LoadId)
    requires ValidShow(s) && Constructed(metadata)
    ensures ValidShow(Hydrate(s, deck, metadata, load).show)
  {
    if Loaded(s, deck, load) { LookupInTrack(metadata, s.decks[deck].beat); }
    hide Constructed, PhraseIndexAtBeat, ValidPlan;
  }

  lemma SeekKeeps(s: Show, deck: DeckId, load: LoadId, beat: nat, at: Time)
    requires ValidShow(s)
    ensures ValidShow(Seek(s, deck, load, beat, at).show)
  {
    if Loaded(s, deck, load) {
      assert Playable(s.decks[deck]);
      LookupInTrack(s.decks[deck].metadata, beat);
    }
    hide Constructed, PhraseIndexAtBeat, ValidPlan;
  }

  lemma DeckUpdateKeepsValid(decks: map<DeckId, Deck>, deck: DeckId, d: Deck)
    requires AllPlayable(decks) && Playable(d)
    ensures AllPlayable(decks[deck := d])
  {
    hide Playable;
  }

  lemma MotionKeepsValid(s: Show, deck: DeckId, load: LoadId, beat: nat, bpmMilli: nat, at: Time)
    requires ValidShow(s)
    ensures ValidShow(Advance(s, deck, load, beat, at).show) && ValidShow(Retempo(s, deck, load, bpmMilli, at).show)
  {
    if Loaded(s, deck, load) {
      var d := s.decks[deck];
      assert Playable(d);
      hide AllPlayable, AllValid, Constructed, Framed, DueNow;
      DeckUpdateKeepsValid(s.decks, deck, d.(beat := beat, observedAt := at));
      if TempoInRange(bpmMilli) { DeckUpdateKeepsValid(s.decks, deck, d.(bpmMilli := bpmMilli, observedAt := at)); }
    }
  }

  lemma PlayingKeepsValid(s: Show, deck: DeckId, load: LoadId, playing: bool, at: Time)
    requires ValidShow(s)
    ensures ValidShow(SetPlaying(s, deck, load, playing, at).show)
  {
    if Loaded(s, deck, load) {
      var d := s.decks[deck];
      assert Playable(d);
      hide AllPlayable, AllValid, Constructed, Framed, DueNow;
      DeckUpdateKeepsValid(s.decks, deck, d.(playing := playing, observedAt := at));
    }
  }

  lemma PhraseKeepsValid(s: Show, deck: DeckId, load: LoadId, phrase: nat, at: Time)
    requires ValidShow(s)
    ensures ValidShow(EnterPhrase(s, deck, load, phrase, at).show)
  {
    if Loaded(s, deck, load) && phrase < |s.decks[deck].metadata.phrases| {
      var d := s.decks[deck];
      assert Playable(d);
      hide AllPlayable, AllValid, Constructed, Framed, DueNow;
      DeckUpdateKeepsValid(s.decks, deck, d.(phraseIndex := Some(phrase), observedAt := at));
    }
  }

  lemma PlaceKeepsValid(s: Show, source: nat, at: Time, o: DeckObservation)
    requires ValidShow(s)
    requires (o.TrackLoaded? ==> Constructed(o.metadata)) && (o.TrackMetadataHydrated? ==> Constructed(o.metadata))
    ensures ValidShow(Place(s, source, at, o).show)
  {
    hide Constructed, AllValid, AllPlayable, Framed, DueNow, Hydrate, Seek, LoadTrack, Unload, Advance, Retempo,
         SetPlaying, EnterPhrase;
    match o
    case TrackLoaded(deck, metadata, load) => LoadKeepsValid(s, deck, metadata, load, at);
    case TrackUnloaded(deck, load) => UnloadKeepsValid(s, deck, load);
    case TrackMetadataHydrated(deck, metadata, load) => HydrateKeeps(s, deck, metadata, load);
    case PlaybackPositionSeeked(deck, load, beat) => SeekKeeps(s, deck, load, beat, at);
    case SourceStatusChanged(_) =>
    case LeaderChanged(_, _) =>
    case PlaybackPosition(deck, load, beat) => MotionKeepsValid(s, deck, load, beat, 0, at);
    case PlaybackTempoChanged(deck, load, bpmMilli) => MotionKeepsValid(s, deck, load, 0, bpmMilli, at);
    case PlaybackStateChanged(deck, load, playing) => PlayingKeepsValid(s, deck, load, playing, at);
    case PhraseChanged(deck, load, phrase) => PhraseKeepsValid(s, deck, load, phrase, at);
  }

  lemma ObservationKeepsValid(s: Show, e: Event)
    requires e.Observation? && ValidShow(s) && Admissible(e)
    ensures var r := ReduceObservation(s, e); r.Ok? ==> ValidShow(r.value.show)
  {
    hide Place, Constructed, AllPlayable, AllValid, CueFor;
    PlaceKeepsValid(Enveloped(s, e), e.source, e.observedAt, e.observation);
  }

  lemma CommandKeepsValid(s: Show, e: Event)
    requires e.UserCommand? && ValidShow(s)
    ensures var r := ReduceCommand(s, e); r.Ok? ==> ValidShow(r.value.show)
  {
    hide AllPlayable, AllValid, CueFor;
  }

  lemma PlanKeepsValid(s: Show, plan: Plan)
    requires ValidShow(s) && ValidPlan(plan)
    ensures var r := AcceptPlan(s, plan); r.Ok? ==> ValidShow(r.value.show)
  {
    hide AllPlayable, ValidPlan;
  }

  lemma StepKeepsValid(s: Show, e: Event)
    requires ValidShow(s) && Admissible(e)
    ensures var r := ReduceShow(s, e); r.Ok? ==> ValidShow(r.value.show)
  {
    hide AllPlayable, AllValid, ReduceObservation, ReduceCommand, AcceptPlan, ValidPlan;
    match e
    case Observation(_, _, _, _) => ObservationKeepsValid(s, e);
    case UserCommand(_, _, _, _, _) => CommandKeepsValid(s, e);
    case EffectCompleted(worker, sequence, _, result) =>
      if result.PlanGenerated? {
        PlanKeepsValid(s.(effectSequences := s.effectSequences[worker := sequence]), result.plan);
      }
    case _ =>
  }

  /** In every run fed with constructed tracks and plans, every deck has such a track, a tempo in range and a current
      phrase of that track, if any, and every stored plan and the active one are valid. */
  lemma {:induction false} RunIsValid(es: seq<Event>)
    requires AllAdmissible(es)
    ensures var s := Run(InitialState, es).show; ValidShow(s) && (s.activePlan.Some? ==> ValidPlan(s.activePlan.value))
  {
    var s := Run(InitialState, es);
    assert ValidShow(s.show) by {
      if es != [] {
        var before, e := es[..|es| - 1], es[|es| - 1];
        RunIsValid(before);
        StepKeepsValid(Run(InitialState, before).show, e);
        hide AllPlayable, AllValid, ReduceShow, Admissible, Record;
      }
    }
    RunKeepsConsistent(es);
    hide Run, ValidPlan, AllPlayable;
  }

  /** The deck whose phrase decides the look, when it plays one. */
  predicate PlaysPhrase(s: Show) {
    && s.leader.Some? && s.leader.value in s.decks
    && s.decks[s.leader.value].playing && s.decks[s.leader.value].phraseIndex.Some?
  }

  /** In such runs a look is due exactly when the leading deck plays a phrase that the active plan has a cue for by
      its count alone: no cue is out of place. */
  lemma LookIsDueExactly(es: seq<Event>)
    requires AllAdmissible(es)
    ensures var s := Run(InitialState, es).show;
      LookIsDue(s) <==>
        && PlaysPhrase(s) && s.activePlan.Some?
        && s.decks[s.leader.value].phraseIndex.value < |s.activePlan.value.cues|
  {
    RunIsValid(es);
    RunKeepsConsistent(es);
    hide Run, ValidShow, Tiles, DistinctIds, HasFallback;
  }

  /** When the active plan was made for the track as it is cut now, every phrase played has its look. */
  lemma EveryPhraseHasItsLook(es: seq<Event>)
    requires AllAdmissible(es) && PlaysPhrase(Run(InitialState, es).show) && Run(InitialState, es).show.activePlan.Some?
    requires var s := Run(InitialState, es).show;
      |s.activePlan.value.cues| == |s.decks[s.leader.value].metadata.phrases|
    ensures LookIsDue(Run(InitialState, es).show)
  {
    LookIsDueExactly(es);
    RunIsValid(es);
    var s := Run(InitialState, es).show;
    hide Run, LookIsDue, Constructed, ValidPlan;
    assert Playable(s.decks[s.leader.value]);
  }

  /** A leading deck without analysis has no look due, whatever plan is active. */
  lemma NoLookWithoutAnalysis(es: seq<Event>)
    requires AllAdmissible(es)
    ensures var s := Run(InitialState, es).show;
      s.leader.Some? && s.leader.value in s.decks && s.decks[s.leader.value].metadata.phrases == [] ==> !LookIsDue(s)
  {
    RunIsValid(es);
    var s := Run(InitialState, es).show;
    hide Run, Constructed, ValidPlan, CueFor;
    if s.leader.Some? && s.leader.value in s.decks { assert Playable(s.decks[s.leader.value]); }
  }

  lemma PrefixIsAdmissible(es: seq<Event>, n: nat)
    requires AllAdmissible(es) && n <= |es|
    ensures AllAdmissible(es[..n])
  {
    hide Admissible;
  }

  /** Planning fails closed: every cue such a run ever sends is for a deck whose track is analysed, and for a phrase
      of that track. */
  lemma OnlyAnalysedTracksAreShown(es: seq<Event>, i: nat, x: Effect)
    requires AllAdmissible(es) && i < |es| && x in Emitted(Reached(es, i), es[i]) && x.ExecuteCue?
    ensures var s, r := Reached(es, i + 1).show, x.request;
      && r.deck in s.decks && ValidTrack(s.decks[r.deck].metadata)
      && r.phraseIndex < |s.decks[r.deck].metadata.phrases|
  {
    OutputSafety(es, i, x);
    PrefixIsAdmissible(es, i + 1);
    RunIsValid(es[..i + 1]);
    var s := Reached(es, i + 1).show;
    hide Run, Emitted, ValidPlan, ValidTrack;
    assert Playable(s.decks[x.request.deck]);
  }
}
