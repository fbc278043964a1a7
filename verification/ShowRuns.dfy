/** What every run of the reducer keeps, and what its output effects promise. */
module ShowRuns {
  import opened Domain
  import opened Reducer

  // ----- Runs --------------------------------------------------------------------------

  /** A rejected event leaves the state as it was. */
  function Apply(s: State, e: Event): State {
    var r := Reduce(s, e);
    if r.Ok? then r.value.state else s
  }

  function Emitted(s: State, e: Event): seq<Effect> {
    var r := Reduce(s, e);
    if r.Ok? then r.value.effects else []
  }

  function Run(s: State, es: seq<Event>): State {
    if es == [] then s else Apply(Run(s, es[..|es| - 1]), es[|es| - 1])
  }

  /** The state in which event `i` of a run is reduced. */
  function At(s: State, es: seq<Event>, i: nat): State
    requires i <= |es|
  {
    Run(s, es[..i])
  }

  lemma AtNext(s: State, es: seq<Event>, i: nat)
    requires i < |es|
    ensures At(s, es, i + 1) == Apply(At(s, es, i), es[i])
  {
    assert es[..i + 1][..i] == es[..i];
  }

  // ----- The invariant -----------------------------------------------------------------

  /** The leader is loaded, plans are for their deck's current load, the active plan is the leader's plan,
      and nothing counts as scheduled before the show was started. */
  predicate Coherent(leader: Option<DeckId>, decks: map<DeckId, Deck>, plans: map<DeckId, Plan>,
                     active: Option<Plan>, operation: OperationState, last: Option<CueIdentity>)
  {
    && (leader.Some? ==> leader.value in decks)
    && (forall d :: d in plans ==> d in decks && plans[d].deck == d && plans[d].load == decks[d].load)
    && (active.Some? ==> leader.Some? && leader.value in plans && active.value == plans[leader.value])
    && (operation == Off || operation == Armed ==> last.None?)
  }

  predicate Consistent(s: Show) {
    Coherent(s.leader, s.decks, s.plans, s.activePlan, s.operation, s.lastCue)
  }

  lemma DeckUpdateKeeps(s: Show, deck: DeckId, d: Deck, last: Option<CueIdentity>)
    requires Consistent(s)
    requires deck in s.decks && d.load == s.decks[deck].load
    requires s.lastCue.None? ==> last.None?
    ensures Coherent(s.leader, s.decks[deck := d], s.plans, s.activePlan, s.operation, last)
  {
  }

  lemma LoadKeeps(s: Show, deck: DeckId, metadata: TrackMetadata, load: LoadId, at: Time)
    requires Consistent(s)
    ensures Consistent(LoadTrack(s, deck, metadata, load, at).show)
  {
  }

  lemma UnloadKeeps(s: Show, deck: DeckId, load: LoadId)
    requires Consistent(s)
    ensures Consistent(Unload(s, deck, load).show)
  {
  }

  lemma LeadKeeps(s: Show, deck: DeckId, load: LoadId)
    requires Consistent(s)
    ensures Consistent(Lead(s, deck, load).show)
  {
    hide Framed, DueNow;
  }

  lemma DeckKeeps(s: Show, source: nat, at: Time, o: DeckObservation)
    requires Consistent(s)
    requires o.SourceStatusChanged? || o.TrackMetadataHydrated? || o.PlaybackPosition? || o.PlaybackTempoChanged?
    ensures Consistent(Place(s, source, at, o).show)
  {
    hide Coherent, Framed, DueNow, LoadTrack, Unload, Lead, Seek, SetPlaying, EnterPhrase;
    if !o.SourceStatusChanged? && o.deck in s.decks {
      DeckUpdateKeeps(s, o.deck, Place(s, source, at, o).show.decks[o.deck], s.lastCue);
    }
  }

  lemma TransportKeeps(s: Show, source: nat, at: Time, o: DeckObservation)
    requires Consistent(s)
    requires o.PlaybackPositionSeeked? || o.PlaybackStateChanged? || o.PhraseChanged?
    ensures Consistent(Place(s, source, at, o).show)
  {
    hide Coherent, Framed, DueNow, LoadTrack, Unload, Lead, Hydrate, Advance, Retempo;
    if o.deck in s.decks {
      var p := Place(s, source, at, o).show;
      DeckUpdateKeeps(s, o.deck, p.decks[o.deck], p.lastCue);
    }
  }

  lemma PlaceKeepsConsistent(s: Show, source: nat, at: Time, o: DeckObservation)
    requires Consistent(s)
    ensures Consistent(Place(s, source, at, o).show)
  {
    hide Coherent, Lead, LoadTrack, Unload, Framed, DueNow;
    match o
    case TrackLoaded(deck, metadata, load) => LoadKeeps(s, deck, metadata, load, at);
    case TrackUnloaded(deck, load) => UnloadKeeps(s, deck, load);
    case LeaderChanged(deck, load) => LeadKeeps(s, deck, load);
    case PlaybackPositionSeeked(_, _, _) => TransportKeeps(s, source, at, o);
    case PlaybackStateChanged(_, _, _) => TransportKeeps(s, source, at, o);
    case PhraseChanged(_, _, _) => TransportKeeps(s, source, at, o);
    case _ => DeckKeeps(s, source, at, o);
  }

  // ----- One step ----------------------------------------------------------------------

  predicate Ignored(d: Decision) {
    || d.StaleObservationIgnored? || d.ObservationTimeRegressed? || d.TrackLoadMismatch? || d.PositionRegressed?
    || d.DuplicateCommandIgnored? || d.DuplicateEffectIgnored? || d.StalePlanIgnored? || d.PlanTrackLoadMismatch?
  }

  /** The kinds of event that, when accepted, make a cue of the deck eligible again:
      a seek, a stop, a load, an unload, or a Pause or Off command. */
  predicate ClearsRecordOf(e: Event, deck: DeckId) {
    match e
    case Observation(_, _, _, o) =>
      (match o
       case PlaybackPositionSeeked(d, _, _) => d == deck
       case PlaybackStateChanged(d, _, playing) => d == deck && !playing
       case TrackLoaded(d, _, _) => d == deck
       case TrackUnloaded(d, _) => d == deck
       case _ => false)
    case UserCommand(_, _, _, _, c) => c == Pause || c == TurnOff
    case _ => false
  }

  /** The request is for what the leading, playing deck is at right now. */
  predicate Current(s: Show, r: Request) {
    && s.operation == Live
    && s.leader == Some(r.deck)
    && Loaded(s, r.deck, r.load) && s.decks[r.deck].playing && s.decks[r.deck].phraseIndex == Some(r.phraseIndex)
    && r.deck in s.plans && s.activePlan == Some(s.plans[r.deck])
    && var plan := s.plans[r.deck];
    && plan.load == r.load && plan.id == r.planId && plan.revision == r.planRevision
    && r.phraseIndex < |plan.cues|
    && var cue := plan.cues[r.phraseIndex];
    && cue.phraseIndex == r.phraseIndex && cue.id == r.cueId && cue.action == r.action
  }

  /** Everything the run theorems need to know about the output side of one step. */
  predicate StepFacts(s: Show, e: Event, t: Step) {
    && t.show.revision == s.revision
    && (s.operation != Live && t.show.operation == Live ==>
      e.UserCommand? && e.command == Start && t.decision == OperationTransitionAccepted)
    && (t.effects == [] || |t.effects| == 1)
    && if t.effects != [] && t.effects[0].ExecuteCue? then
         var r := t.effects[0].request;
         && Current(t.show, r)
         && t.show.outputSequence == r.commandId == s.outputSequence + 1
         && t.show.lastCue == Some(r.Identity())
         && (s.lastCue == Some(r.Identity()) ==> ClearsRecordOf(e, r.deck) && !Ignored(t.decision))
       else
         && t.show.outputSequence == s.outputSequence
         && (t.effects != [] ==> t.show.operation != Live)
         && RecordKept(s, e, t.show.lastCue, t.decision)
  }

  predicate RecordKept(s: Show, e: Event, last: Option<CueIdentity>, d: Decision) {
    last == s.lastCue || (last.None? && ClearsRecordOf(e, s.lastCue.value.deck) && !Ignored(d))
  }

  lemma PlaceRecord(s: Show, e: Event)
    requires e.Observation?
    ensures var p := Place(s, e.source, e.observedAt, e.observation); RecordKept(s, e, p.show.lastCue, p.decision)
  {
    hide Framed, DueNow, LoadTrack, Hydrate, Advance, Seek, Retempo, SetPlaying, Unload, EnterPhrase, Lead;
  }

  lemma ExecutionFacts(s: Show, deck: DeckId, load: LoadId, phrase: nat, at: Time)
    requires Consistent(s)
    requires s.operation == Live && Loaded(s, deck, load) && s.decks[deck].playing
      && s.decks[deck].phraseIndex == Some(phrase)
    ensures var x := ExecutionEffect(s, deck, load, phrase, at);
      x.Ok? ==>
        && Consistent(x.value.show)
        && x.value.show == s.(lastCue := x.value.show.lastCue, outputSequence := x.value.show.outputSequence)
        && if x.value.effects == [] then x.value.show == s
           else
             && |x.value.effects| == 1 && x.value.effects[0].ExecuteCue?
             && var r := x.value.effects[0].request;
             && r.deck == deck && Current(x.value.show, r) && s.lastCue != Some(r.Identity())
             && x.value.show.lastCue == Some(r.Identity())
             && x.value.show.outputSequence == r.commandId == s.outputSequence + 1
  {
  }

  lemma FinishFacts(s: Show, e: Event, p: Placement)
    requires e.Observation? && Consistent(p.show) && RecordKept(s, e, p.show.lastCue, p.decision)
    requires p.show.operation == s.operation && p.show.revision == s.revision
      && p.show.outputSequence == s.outputSequence
    requires if e.observation.SourceStatusChanged? then p.due.None?
      else DueNow(p, e.observation.deck, e.observation.load)
    ensures var r := Finish(p, e.observation, e.observedAt);
      r.Ok? ==> Consistent(r.value.show) && StepFacts(s, e, r.value)
  {
    hide Coherent, ExecutionEffect, Current;
    if p.due.Some? {
      ExecutionFacts(p.show, e.observation.deck, e.observation.load, p.due.value, e.observedAt);
    }
  }

  lemma ObservationStep(s: Show, e: Event)
    requires Consistent(s) && e.Observation?
    ensures var r := ReduceObservation(s, e);
      r.Ok? ==> Consistent(r.value.show) && StepFacts(s, e, r.value)
  {
    hide Place, Finish, Coherent, Current;
    var s1 := Enveloped(s, e);
    PlaceKeepsConsistent(s1, e.source, e.observedAt, e.observation);
    PlaceRecord(s1, e);
    FinishFacts(s, e, Place(s1, e.source, e.observedAt, e.observation));
  }

  lemma StartStep(s: Show, e: Event)
    requires Consistent(s) && e.UserCommand? && e.command == Start
    ensures var r := ReduceCommand(s, e);
      r.Ok? ==> Consistent(r.value.show) && StepFacts(s, e, r.value)
  {
    var s1 := s.(commandSequences := s.commandSequences[e.client := e.commandSequence], operation := Live);
    assert Consistent(s1);
    if s1.leader.Some? && s1.decks[s1.leader.value].playing && s1.decks[s1.leader.value].phraseIndex.Some? {
      var d := s1.decks[s1.leader.value];
      ExecutionFacts(s1, s1.leader.value, d.load, d.phraseIndex.value, e.issuedAt);
    }
    hide Coherent, ExecutionEffect, Current;
  }

  lemma CloseStep(s: Show, e: Event)
    requires Consistent(s) && e.UserCommand? && e.command != Start
    ensures var r := ReduceCommand(s, e);
      r.Ok? ==> Consistent(r.value.show) && StepFacts(s, e, r.value)
  {
    hide ExecutionEffect, Current;
  }

  lemma CommandStep(s: Show, e: Event)
    requires Consistent(s) && e.UserCommand?
    ensures var r := ReduceCommand(s, e);
      r.Ok? ==> Consistent(r.value.show) && StepFacts(s, e, r.value)
  {
    if e.command == Start {
      hide Coherent, ReduceCommand, StepFacts;
      StartStep(s, e);
    } else {
      CloseStep(s, e);
    }
  }

  lemma PlanKeeps(s: Show, plan: Plan)
    requires Consistent(s)
    ensures var r := AcceptPlan(s, plan);
      r.Ok? ==>
        && Consistent(r.value.show) && r.value.effects == []
        && r.value.show == s.(plans := r.value.show.plans, activePlan := r.value.show.activePlan)
  {
  }

  lemma EffectStep(s: Show, e: Event)
    requires Consistent(s) && e.EffectCompleted?
    ensures var r := ReduceEffectResult(s, e);
      r.Ok? ==> Consistent(r.value.show) && StepFacts(s, e, r.value)
  {
    hide AcceptPlan, Current, PushBounded, Coherent, ClearsRecordOf;
    var s1 := s.(effectSequences := s.effectSequences[e.worker := e.effectSequence]);
    assert Consistent(s1);
    if e.result.PlanGenerated? {
      PlanKeeps(s1, e.result.plan);
    }
  }

  lemma ShowStep(s: Show, e: Event)
    requires Consistent(s)
    ensures var r := ReduceShow(s, e);
      r.Ok? ==> Consistent(r.value.show) && StepFacts(s, e, r.value)
  {
    hide ReduceObservation, ReduceCommand, ReduceEffectResult, Current;
    match e
    case Observation(_, _, _, _) => ObservationStep(s, e);
    case UserCommand(_, _, _, _, _) => CommandStep(s, e);
    case EffectCompleted(_, _, _, _) => EffectStep(s, e);
    case _ =>
  }

  lemma {:induction false} RunKeepsConsistent(es: seq<Event>)
    ensures Consistent(Run(InitialState, es).show)
  {
    if es != [] {
      hide ReduceShow, StepFacts;
      var before := Run(InitialState, es[..|es| - 1]);
      RunKeepsConsistent(es[..|es| - 1]);
      ShowStep(before.show, es[|es| - 1]);
    }
  }
}
