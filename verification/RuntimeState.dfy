/** The runtime state as the mutable record the reducer works on, proved to take exactly the specified steps. */
module RuntimeStates {
  import opened Domain
  import opened Reducer

  datatype Verdict = Verdict(decision: Decision, effects: seq<Effect>)

  /** A verdict together with whether it counts as a new state revision. */
  datatype Ruling = Ruling(decision: Decision, effects: seq<Effect>, changed: bool)

  predicate Rules(r: Result<Ruling>, show: Show, spec: Result<Step>) {
    if spec.Err? then r == Err(spec.error)
    else r == Ok(Ruling(spec.value.decision, spec.value.effects, spec.value.changed)) && show == spec.value.show
  }

  /** A mutating step agrees with its specification; after an error the half-changed copy is thrown away. */
  predicate Agrees(r: Result<Verdict>, show: Show, spec: Result<Step>) {
    if spec.Err? then r == Err(spec.error)
    else r == Ok(Verdict(spec.value.decision, spec.value.effects)) && show == spec.value.show
  }

  /** The specification of one accepted observation. */
  function Placed(s: Show, source: nat, at: Time, o: DeckObservation): Result<Step> {
    Finish(Place(s, source, at, o), o, at)
  }

  /** A play or stop report: what the deck and the record become, and when a cue has to be considered. */
  lemma PlacedPlaying(s: Show, source: nat, at: Time, o: DeckObservation)
    requires o.PlaybackStateChanged? && Loaded(s, o.deck, o.load)
    ensures var d := s.decks[o.deck];
      var t := s.(decks := s.decks[o.deck := d.(playing := o.playing, observedAt := at)],
                  lastCue := if o.playing then s.lastCue else ForgetCue(s.lastCue, o.deck));
      Placed(s, source, at, o) ==
        if o.playing && !d.playing && s.operation == Live && d.phraseIndex.Some? then
          Finish(Placement(t, PlayingChanged, d.phraseIndex), o, at)
        else Ok(Reducer.Observed(t, PlayingChanged, []))
  {
    hide Framed, DueNow, ForgetCue, ExecutionEffect;
  }

  /** A seek: what the deck and the record become, and when a cue has to be considered. */
  lemma PlacedSeek(s: Show, source: nat, at: Time, o: DeckObservation)
    requires o.PlaybackPositionSeeked? && Loaded(s, o.deck, o.load)
    ensures var d := s.decks[o.deck];
      var phrase := PhraseIndexAtBeat(d.metadata.phrases, o.beat);
      var t := s.(decks := s.decks[o.deck := d.(beat := o.beat, phraseIndex := phrase, observedAt := at)],
                  lastCue := ForgetCue(s.lastCue, o.deck));
      Placed(s, source, at, o) ==
        if s.operation == Live && s.leader == Some(o.deck) && d.playing && phrase.Some? then
          Finish(Placement(t, PositionSeeked, phrase), o, at)
        else Ok(Reducer.Observed(t, PositionSeeked, []))
  {
    hide Framed, DueNow, ForgetCue, ExecutionEffect, PhraseIndexAtBeat;
  }

  lemma PlacedTransport(s: Show, source: nat, at: Time, o: DeckObservation)
    ensures (o.PlaybackPositionSeeked? || o.PlaybackStateChanged?) && !Loaded(s, o.deck, o.load) ==>
      Placed(s, source, at, o) == Ok(Reducer.Observed(s, TrackLoadMismatch, []))
    ensures o.TrackUnloaded? ==> Placed(s, source, at, o) == Finish(Unload(s, o.deck, o.load), o, at)
  {
    hide ExecutionEffect, Framed;
  }

  class RuntimeState {
    var revision: nat
    var operation: OperationState
    var health: Health
    var decks: map<DeckId, Deck>
    var plans: map<DeckId, Plan>
    var statuses: map<nat, SourceStatus>
    var leader: Option<DeckId>
    var activePlan: Option<Plan>
    var outputSequence: nat
    var lastCue: Option<CueIdentity>
    var outputEffects: seq<nat>
    var sourceSequences: map<nat, nat>
    var sourceTimes: map<nat, Time>
    var commandSequences: map<nat, nat>
    var effectSequences: map<nat, nat>
    var processed: nat
    var lastDecision: Option<Decision>
    var diagnostics: seq<Diagnostic>
    var timeline: seq<TimelineEntry>

    function Seen(): Show
      reads this
    {
      Show(revision, operation, health, decks, plans, statuses, leader, activePlan, outputSequence, lastCue,
           outputEffects, sourceSequences, sourceTimes, commandSequences, effectSequences)
    }

    function Logged(): Journal
      reads this
    {
      Journal(processed, lastDecision, diagnostics, timeline)
    }

    function View(): State
      reads this
    {
      State(Seen(), Logged())
    }

    constructor ()
      ensures View() == InitialState
    {
      revision, operation, health := 0, Off, Starting;
      decks, plans, statuses := map[], map[], map[];
      leader, activePlan, outputSequence, lastCue, outputEffects := None, None, 0, None, [];
      sourceSequences, sourceTimes, commandSequences, effectSequences := map[], map[], map[], map[];
      processed, lastDecision, diagnostics, timeline := 0, None, [], [];
    }

    constructor Clone(other: RuntimeState)
      ensures View() == other.View()
    {
      revision, operation, health := other.revision, other.operation, other.health;
      decks, plans, statuses := other.decks, other.plans, other.statuses;
      leader, activePlan, outputSequence := other.leader, other.activePlan, other.outputSequence;
      lastCue, outputEffects := other.lastCue, other.outputEffects;
      sourceSequences, sourceTimes := other.sourceSequences, other.sourceTimes;
      commandSequences, effectSequences := other.commandSequences, other.effectSequences;
      processed, lastDecision := other.processed, other.lastDecision;
      diagnostics, timeline := other.diagnostics, other.timeline;
    }

    // ----- Small changes ---------------------------------------------------------------

    method ForgetScheduled(deck: DeckId)
      modifies `lastCue
      ensures lastCue == ForgetCue(old(lastCue), deck)
    {
      if lastCue.Some? && lastCue.value.deck == deck { lastCue := None; }
    }

    method ForgetActive(deck: DeckId)
      modifies `activePlan
      ensures activePlan == ForgetPlan(old(activePlan), deck)
    {
      if activePlan.Some? && activePlan.value.deck == deck { activePlan := None; }
    }

    method PushDiagnostic(d: Diagnostic)
      modifies `diagnostics
      ensures diagnostics == PushBounded(old(diagnostics), d, MAXIMUM_DIAGNOSTICS)
    {
      if |diagnostics| == MAXIMUM_DIAGNOSTICS { diagnostics := diagnostics[1..]; }
      diagnostics := diagnostics + [d];
    }

    method PushOutputEffect(record: nat)
      modifies `outputEffects
      ensures outputEffects == PushBounded(old(outputEffects), record, MAXIMUM_OUTPUT_EFFECTS)
    {
      if |outputEffects| == MAXIMUM_OUTPUT_EFFECTS { outputEffects := outputEffects[1..]; }
      outputEffects := outputEffects + [record];
    }

    method PushTimeline(entry: TimelineEntry)
      modifies `timeline
      ensures timeline == PushBounded(old(timeline), entry, MAXIMUM_TIMELINE_ENTRIES)
    {
      if |timeline| == MAXIMUM_TIMELINE_ENTRIES { timeline := timeline[1..]; }
      timeline := timeline + [entry];
    }

    method LoadTrack(deck: DeckId, metadata: TrackMetadata, load: LoadId, at: Time)
      modifies `decks, `plans, `lastCue, `activePlan
      ensures decks == old(decks)[deck := Deck(metadata, load, 0, metadata.bpmMilli, false, None, at)]
      ensures plans == old(plans) - {deck}
      ensures activePlan == ForgetPlan(old(activePlan), deck) && lastCue == ForgetCue(old(lastCue), deck)
    {
      hide ForgetCue, ForgetPlan;
      decks := decks[deck := Deck(metadata, load, 0, metadata.bpmMilli, false, None, at)];
      plans := plans - {deck};
      ForgetScheduled(deck);
      ForgetActive(deck);
    }

    /** Sends the active plan's cue for a phrase unless it was the last one sent. */
    method Execute(deck: DeckId, load: LoadId, phrase: nat, at: Time) returns (r: Result<Option<Effect>>)
      modifies `outputSequence, `lastCue
      ensures var spec := ExecutionEffect(old(Seen()), deck, load, phrase, at);
        if spec.Err? then r == Err(spec.error)
        else r.Ok? && Seen() == spec.value.show && spec.value.effects == (if r.value.Some? then [r.value.value] else [])
    {
      if leader != Some(deck) || activePlan.None? { return Ok(None); }
      var plan := activePlan.value;
      if plan.deck != deck || plan.load != load { return Ok(None); }
      if phrase >= |plan.cues| || plan.cues[phrase].phraseIndex != phrase { return Ok(None); }
      var cue := plan.cues[phrase];
      var identity := CueIdentity(deck, load, phrase, cue.id, plan.revision);
      if lastCue == Some(identity) { return Ok(None); }
      if outputSequence >= U64_MAX { return Err(OutputCommandSequenceOverflow); }
      outputSequence := outputSequence + 1;
      lastCue := Some(identity);
      r := Ok(Some(ExecuteCue(
        Request(outputSequence, plan.id, plan.revision, deck, load, phrase, cue.id, cue.action, at))));
    }

    /** Executes the phrase's cue and falls back to `otherwise` when nothing is sent. */
    method ExecuteOr(otherwise: Decision, deck: DeckId, load: LoadId, phrase: nat, at: Time)
      returns (r: Result<Verdict>)
      modifies `outputSequence, `lastCue
      ensures var spec := ExecutionEffect(old(Seen()), deck, load, phrase, at);
        if spec.Err? then r == Err(spec.error)
        else Seen() == spec.value.show
             && var decision := if spec.value.effects == [] then otherwise else PhraseExecutionScheduled;
             r == Ok(Verdict(decision, spec.value.effects))
    {
      var done := Execute(deck, load, phrase, at);
      if done.Err? { return Err(done.error); }
      r := if done.value.None? then Ok(Verdict(otherwise, []))
        else Ok(Verdict(PhraseExecutionScheduled, [done.value.value]));
    }

    // ----- Observations ----------------------------------------------------------------

    /** Replaces a deck and, when `forget` holds, makes its last cue eligible again. */
    method PutBack(deck: DeckId, d: Deck, forget: bool)
      modifies `decks, `lastCue
      ensures Seen() == old(Seen()).(decks := old(decks)[deck := d],
                                     lastCue := if forget then ForgetCue(old(lastCue), deck) else old(lastCue))
    {
      hide ForgetCue;
      decks := decks[deck := d];
      if forget { ForgetScheduled(deck); }
    }

    method Seeked(source: nat, at: Time, o: DeckObservation) returns (r: Result<Verdict>)
      requires o.PlaybackPositionSeeked?
      modifies `decks, `lastCue, `outputSequence
      ensures Agrees(r, Seen(), Placed(old(Seen()), source, at, o))
    {
      hide ExecutionEffect, PhraseIndexAtBeat, Framed, DueNow, ForgetCue, Placed;
      PlacedTransport(Seen(), source, at, o);
      if o.deck !in decks || decks[o.deck].load != o.load { return Ok(Verdict(TrackLoadMismatch, [])); }
      PlacedSeek(Seen(), source, at, o);
      var d := decks[o.deck];
      var phrase := PhraseIndexAtBeat(d.metadata.phrases, o.beat);
      PutBack(o.deck, d.(beat := o.beat, phraseIndex := phrase, observedAt := at), true);
      if operation == Live && leader == Some(o.deck) && d.playing && phrase.Some? {
        r := ExecuteOr(PositionSeeked, o.deck, o.load, phrase.value, at);
      } else {
        r := Ok(Verdict(PositionSeeked, []));
      }
    }

    method PlayStateChanged(source: nat, at: Time, o: DeckObservation) returns (r: Result<Verdict>)
      requires o.PlaybackStateChanged?
      modifies `decks, `lastCue, `outputSequence
      ensures Agrees(r, Seen(), Placed(old(Seen()), source, at, o))
    {
      hide ExecutionEffect, Framed, DueNow, ForgetCue, Placed;
      PlacedTransport(Seen(), source, at, o);
      if o.deck !in decks || decks[o.deck].load != o.load { return Ok(Verdict(TrackLoadMismatch, [])); }
      PlacedPlaying(Seen(), source, at, o);
      var d := decks[o.deck];
      var started := !d.playing && o.playing;
      PutBack(o.deck, d.(playing := o.playing, observedAt := at), !o.playing);
      if started && d.phraseIndex.Some? && operation == Live {
        r := ExecuteOr(PlayingChanged, o.deck, o.load, d.phraseIndex.value, at);
      } else {
        r := Ok(Verdict(PlayingChanged, []));
      }
    }

    method DropDeck(deck: DeckId)
      modifies `decks, `plans, `leader, `activePlan, `lastCue
      ensures decks == old(decks) - {deck} && plans == old(plans) - {deck}
      ensures leader == if old(leader) == Some(deck) then None else old(leader)
      ensures activePlan == ForgetPlan(old(activePlan), deck) && lastCue == ForgetCue(old(lastCue), deck)
    {
      decks := decks - {deck};
      plans := plans - {deck};
      if leader == Some(deck) { leader := None; }
      ForgetActive(deck);
      ForgetScheduled(deck);
    }

    method Unloaded(source: nat, at: Time, o: DeckObservation) returns (r: Result<Verdict>)
      requires o.TrackUnloaded?
      modifies `decks, `plans, `leader, `activePlan, `lastCue
      ensures Agrees(r, Seen(), Placed(old(Seen()), source, at, o))
    {
      PlacedTransport(Seen(), source, at, o);
      hide Framed, DueNow, ForgetCue, ForgetPlan, Placed;
      if o.deck !in decks || decks[o.deck].load != o.load { return Ok(Verdict(TrackLoadMismatch, [])); }
      DropDeck(o.deck);
      r := Ok(Verdict(TrackRemoved, []));
    }

    method PhraseEnteredOn(source: nat, at: Time, o: DeckObservation) returns (r: Result<Verdict>)
      requires o.PhraseChanged?
      modifies `decks, `lastCue, `outputSequence
      ensures Agrees(r, Seen(), Placed(old(Seen()), source, at, o))
    {
      hide ExecutionEffect, Framed, DueNow, ForgetCue;
      if o.deck !in decks || decks[o.deck].load != o.load || o.phraseIndex >= |decks[o.deck].metadata.phrases| {
        return Ok(Verdict(TrackLoadMismatch, []));
      }
      decks := decks[o.deck := decks[o.deck].(phraseIndex := Some(o.phraseIndex), observedAt := at)];
      if operation != Live || !decks[o.deck].playing {
        r := Ok(Verdict(PhraseEntered, []));
      } else {
        r := ExecuteOr(PhraseExecutionSkipped, o.deck, o.load, o.phraseIndex, at);
      }
    }

    method LeaderChangedTo(source: nat, at: Time, o: DeckObservation) returns (r: Result<Verdict>)
      requires o.LeaderChanged?
      modifies `leader, `activePlan, `lastCue, `outputSequence
      ensures Agrees(r, Seen(), Placed(old(Seen()), source, at, o))
    {
      hide ExecutionEffect, Framed, DueNow, ForgetCue;
      if o.deck !in decks || decks[o.deck].load != o.load {
        activePlan := None;
        return Ok(Verdict(TrackLoadMismatch, []));
      }
      var d := decks[o.deck];
      leader := Some(o.deck);
      if o.deck in plans && plans[o.deck].status == Ready && plans[o.deck].load == o.load
        && plans[o.deck].track == d.metadata.id {
        activePlan := Some(plans[o.deck]);
      } else {
        activePlan := None;
      }
      if activePlan.Some? && operation == Live && d.playing && d.phraseIndex.Some? {
        r := ExecuteOr(PlanActivated, o.deck, o.load, d.phraseIndex.value, at);
      } else {
        r := Ok(Verdict(if activePlan.Some? then PlanActivated else PlanActivationSkipped, []));
      }
    }

    /** A track is loaded, or the metadata of the loaded one arrives. */
    method Described(source: nat, at: Time, o: DeckObservation) returns (r: Result<Verdict>)
      requires o.TrackLoaded? || o.TrackMetadataHydrated?
      modifies `decks, `plans, `lastCue, `activePlan
      ensures Agrees(r, Seen(), Placed(old(Seen()), source, at, o))
    {
      hide PhraseIndexAtBeat, Framed, DueNow, ForgetCue, ForgetPlan;
      match o {
        case TrackLoaded(deck, metadata, load) =>
          LoadTrack(deck, metadata, load, at);
          r := Ok(Verdict(TrackLoadAccepted, []));
        case TrackMetadataHydrated(deck, metadata, load) =>
          if deck !in decks || decks[deck].load != load { return Ok(Verdict(TrackLoadMismatch, [])); }
          var phrase := PhraseIndexAtBeat(metadata.phrases, decks[deck].beat);
          decks := decks[deck := decks[deck].(metadata := metadata, phraseIndex := phrase)];
          r := Ok(Verdict(MetadataHydrated, []));
      }
    }

    /** The other observations that never send a cue. */
    method Noted(source: nat, at: Time, o: DeckObservation) returns (r: Result<Verdict>)
      requires o.SourceStatusChanged? || o.PlaybackPosition? || o.PlaybackTempoChanged?
      modifies `statuses, `decks
      ensures Agrees(r, Seen(), Placed(old(Seen()), source, at, o))
    {
      hide Framed, DueNow;
      match o {
        case SourceStatusChanged(status) =>
          statuses := statuses[source := status];
          r := Ok(Verdict(SourceStatusAccepted, []));
        case PlaybackPosition(deck, load, beat) =>
          if deck !in decks || decks[deck].load != load { return Ok(Verdict(TrackLoadMismatch, [])); }
          if beat < decks[deck].beat { return Ok(Verdict(PositionRegressed, [])); }
          decks := decks[deck := decks[deck].(beat := beat, observedAt := at)];
          r := Ok(Verdict(PositionAdvanced, []));
        case PlaybackTempoChanged(deck, load, bpm) =>
          if deck !in decks || decks[deck].load != load || !(20_000 <= bpm <= 300_000) {
            return Ok(Verdict(TrackLoadMismatch, []));
          }
          decks := decks[deck := decks[deck].(bpmMilli := bpm, observedAt := at)];
          r := Ok(Verdict(TempoChanged, []));
      }
    }

    method ReduceObservation(e: Event) returns (r: Result<Ruling>)
      requires e.Observation?
      modifies `sourceSequences, `sourceTimes, `statuses, `decks, `plans, `leader, `activePlan, `lastCue,
        `outputSequence
      ensures Rules(r, Seen(), Reducer.ReduceObservation(old(Seen()), e))
    {
      hide Placed, Finish, Place;
      if e.source in sourceSequences && e.sequence <= sourceSequences[e.source] {
        return Ok(Ruling(StaleObservationIgnored, [], false));
      }
      sourceSequences := sourceSequences[e.source := e.sequence];
      if e.source in sourceTimes && e.observedAt < sourceTimes[e.source] {
        return Ok(Ruling(ObservationTimeRegressed, [], false));
      }
      sourceTimes := sourceTimes[e.source := e.observedAt];
      var v := Observed(e);
      PlacedIs(Enveloped(old(Seen()), e), e.source, e.observedAt, e.observation);
      if v.Err? { return Err(v.error); }
      r := Ok(Ruling(v.value.decision, v.value.effects, Revises(v.value.decision)));
    }

    method Observed(e: Event) returns (r: Result<Verdict>)
      requires e.Observation?
      modifies `statuses, `decks, `plans, `leader, `activePlan, `lastCue, `outputSequence
      ensures Agrees(r, Seen(), Placed(old(Seen()), e.source, e.observedAt, e.observation))
    {
      hide Placed;
      match e.observation {
        case PlaybackPositionSeeked(_, _, _) => r := Seeked(e.source, e.observedAt, e.observation);
        case PlaybackStateChanged(_, _, _) => r := PlayStateChanged(e.source, e.observedAt, e.observation);
        case TrackUnloaded(_, _) => r := Unloaded(e.source, e.observedAt, e.observation);
        case PhraseChanged(_, _, _) => r := PhraseEnteredOn(e.source, e.observedAt, e.observation);
        case LeaderChanged(_, _) => r := LeaderChangedTo(e.source, e.observedAt, e.observation);
        case TrackLoaded(_, _, _) => r := Described(e.source, e.observedAt, e.observation);
        case TrackMetadataHydrated(_, _, _) => r := Described(e.source, e.observedAt, e.observation);
        case _ => r := Noted(e.source, e.observedAt, e.observation);
      }
    }

    // ----- Commands and worker results -------------------------------------------------

    method ReduceCommand(e: Event) returns (r: Result<Ruling>)
      requires e.UserCommand?
      modifies `commandSequences, `operation, `lastCue, `outputSequence
      ensures Rules(r, Seen(), Reducer.ReduceCommand(old(Seen()), e))
    {
      hide ExecutionEffect;
      if e.client in commandSequences && e.commandSequence <= commandSequences[e.client] {
        return Ok(Ruling(DuplicateCommandIgnored, [], false));
      }
      if e.expectedRevision != revision { return Err(RevisionConflict(e.expectedRevision, revision)); }
      var target := Target(operation, e.command);
      if target.None? { return Err(InvalidOperationTransition(operation, e.command)); }
      commandSequences := commandSequences[e.client := e.commandSequence];
      operation := target.value;
      if target.value == Paused || target.value == Off {
        lastCue := None;
        return Ok(Ruling(OperationTransitionAccepted, [EnsureOutputClosed(OperationTransitionAccepted)], true));
      }
      if target.value == Live && leader.Some? && leader.value in decks
         && decks[leader.value].playing && decks[leader.value].phraseIndex.Some? {
        var d := decks[leader.value];
        var done := Execute(leader.value, d.load, d.phraseIndex.value, e.issuedAt);
        if done.Err? { return Err(done.error); }
        return Ok(Ruling(OperationTransitionAccepted, if done.value.Some? then [done.value.value] else [], true));
      }
      r := Ok(Ruling(OperationTransitionAccepted, [], true));
    }

    method ReduceEffectResult(e: Event) returns (r: Result<Ruling>)
      requires e.EffectCompleted?
      modifies `effectSequences, `plans, `activePlan, `outputEffects
      ensures Rules(r, Seen(), Reducer.ReduceEffectResult(old(Seen()), e))
    {
      hide PushBounded;
      if e.worker in effectSequences && e.effectSequence <= effectSequences[e.worker] {
        return Ok(Ruling(DuplicateEffectIgnored, [], false));
      }
      effectSequences := effectSequences[e.worker := e.effectSequence];
      match e.result {
        case PlanGenerated(plan) =>
          if plan.deck !in decks { return Ok(Ruling(PlanTrackLoadMismatch, [], false)); }
          var d := decks[plan.deck];
          if d.load != plan.load || d.metadata.id != plan.track { return Ok(Ruling(PlanTrackLoadMismatch, [], false)); }
          var expected := 1;
          if plan.deck in plans {
            if plans[plan.deck].revision >= U64_MAX { return Err(PlanRevisionOverflow); }
            expected := plans[plan.deck].revision + 1;
          }
          if plan.revision < expected { return Ok(Ruling(StalePlanIgnored, [], false)); }
          if plan.revision != expected { return Err(PlanRevisionGap(expected, plan.revision)); }
          plans := plans[plan.deck := plan];
          if leader == Some(plan.deck) { activePlan := Some(plan); }
          r := Ok(Ruling(PlanAccepted, [], true));
        case OutputEffectRecorded(record) =>
          PushOutputEffect(record);
          r := Ok(Ruling(OutputRecorded, [], true));
        case OutputGateClosed => r := Ok(Ruling(OutputGateConfirmedClosed, [], false));
      }
    }

    // ----- Whole reductions ------------------------------------------------------------

    method RuntimeStart() returns (r: Result<Ruling>)
      modifies `health
      ensures Rules(r, Seen(), ReduceShow(old(Seen()), RuntimeStarted(0)))
    {
      if health != Starting { return Err(RuntimeAlreadyStarted); }
      health := HealthReady;
      r := Ok(Ruling(RuntimeInitialized, [], true));
    }

    method Overloaded(o: Overload) returns (r: Result<Ruling>)
      modifies `health, `operation, `diagnostics
      ensures Rules(r, Seen(), ReduceShow(old(Seen()), QueueOverloaded(o)))
      ensures diagnostics == PushBounded(old(diagnostics),
        Diagnostic(processed + 1, QueueSaturated, KindQueueOverloaded, o.occurredAt), MAXIMUM_DIAGNOSTICS)
    {
      health := Degraded;
      if operation == Live { operation := Paused; }
      PushDiagnostic(Diagnostic(processed + 1, QueueSaturated, KindQueueOverloaded, o.occurredAt));
      r := Ok(Ruling(QueueSaturated, [EnsureOutputClosed(QueueSaturated)], true));
    }

    /** What an event does to the show, before it is entered in the journal. */
    method Take(e: Event) returns (r: Result<Ruling>)
      modifies this
      ensures Rules(r, Seen(), ReduceShow(old(Seen()), e))
      ensures processed == old(processed) && timeline == old(timeline)
      ensures diagnostics == if !e.QueueOverloaded? then old(diagnostics)
                             else PushBounded(
                               old(diagnostics),
                               Diagnostic(processed + 1, QueueSaturated, e.Kind(), e.overload.occurredAt),
                               MAXIMUM_DIAGNOSTICS)
    {
      hide Reducer.ReduceObservation, Reducer.ReduceCommand, Reducer.ReduceEffectResult, PushBounded;
      match e {
        case RuntimeStarted(_) => r := RuntimeStart();
        case Observation(_, _, _, _) => r := ReduceObservation(e);
        case UserCommand(_, _, _, _, _) => r := ReduceCommand(e);
        case EffectCompleted(_, _, _, _) => r := ReduceEffectResult(e);
        case QueueOverloaded(o) => r := Overloaded(o);
      }
    }

    /** Enters a decision in the journal. */
    method Enter(e: Event, d: Decision)
      requires processed < U64_MAX
      modifies `processed, `lastDecision, `timeline
      ensures processed == old(processed) + 1 && lastDecision == Some(d)
      ensures timeline == PushBounded(old(timeline), TimelineEntry(processed, e.MonotonicTime(), e.Kind(), d),
        MAXIMUM_TIMELINE_ENTRIES)
    {
      processed := processed + 1;
      lastDecision := Some(d);
      PushTimeline(TimelineEntry(processed, e.MonotonicTime(), e.Kind(), d));
    }

    /** Enters a ruling in the journal and counts the revision, unless a counter is exhausted. */
    method Conclude(e: Event, ruling: Ruling) returns (error: Option<ReducerError>)
      modifies `processed, `lastDecision, `timeline, `revision
      ensures error == if old(processed) >= U64_MAX then Some(ProcessedEventOverflow)
                       else if ruling.changed && old(revision) >= U64_MAX then Some(StateRevisionOverflow)
                       else None
      ensures error.None? ==>
        && processed == old(processed) + 1 && lastDecision == Some(ruling.decision)
        && var entry := TimelineEntry(processed, e.MonotonicTime(), e.Kind(), ruling.decision);
        && timeline == PushBounded(old(timeline), entry, MAXIMUM_TIMELINE_ENTRIES)
        && revision == (if ruling.changed then old(revision) + 1 else old(revision))
    {
      if processed >= U64_MAX { return Some(ProcessedEventOverflow); }
      Enter(e, ruling.decision);
      if ruling.changed {
        if revision >= U64_MAX { return Some(StateRevisionOverflow); }
        revision := revision + 1;
      }
      error := None;
    }

    /** One reduction works on a copy: the given state is untouched, and the copy is the specified next state. */
    static method Reduce(state: RuntimeState, e: Event) returns (r: Result<Ruling>, next: RuntimeState)
      ensures fresh(next)
      ensures var spec := Reducer.Reduce(state.View(), e);
        if spec.Err? then r == Err(spec.error)
        else
          && r == Ok(Ruling(spec.value.decision, spec.value.effects, spec.value.changed))
          && next.View() == spec.value.state
    {
      hide ReduceShow, PushBounded;
      next := new RuntimeState.Clone(state);
      r := next.Take(e);
      if r.Err? { return; }
      var error := next.Conclude(e, r.value);
      if error.Some? { r := Err(error.value); }
    }
  }

  lemma PlacedIs(s: Show, source: nat, at: Time, o: DeckObservation)
    ensures var r := Placed(s, source, at, o);
      r == Finish(Place(s, source, at, o), o, at) && (r.Ok? ==> r.value.changed == Revises(r.value.decision))
  {
  }
}
