/** One reduction: the next runtime state, the decision taken and the effects requested. */
module Reducer {
  import opened Domain

  datatype Result<+T> = Ok(value: T) | Err(error: ReducerError) {
    predicate IsFailure() { Err? }
    function PropagateFailure<U>(): Result<U> requires Err? { Err(error) }
    function Extract(): T requires Ok? { value }
  }

  datatype Step = Step(show: Show, decision: Decision, effects: seq<Effect>, changed: bool)

  datatype Reduction = Reduction(state: State, decision: Decision, effects: seq<Effect>, changed: bool)

  /** The decisions after which an observation counts as a new state revision. */
  predicate Revises(d: Decision) {
    || d.SourceStatusAccepted? || d.TrackLoadAccepted? || d.PositionAdvanced? || d.PositionSeeked? || d.TempoChanged?
    || d.PlayingChanged? || d.TrackRemoved? || d.PhraseEntered? || d.PlanActivated? || d.PlanActivationSkipped?
    || d.PhraseExecutionScheduled? || d.PhraseExecutionSkipped?
  }

  function Observed(s: Show, d: Decision, effects: seq<Effect>): Step { Step(s, d, effects, Revises(d)) }

  predicate TempoInRange(bpmMilli: nat) { 20_000 <= bpmMilli <= 300_000 }

  /** What is asked of any track's metadata, analysed or not. */
  predicate ValidFacts(m: TrackMetadata) { TempoInRange(m.bpmMilli) && m.durationBeats > 0 }

  // ----- Phrases -----------------------------------------------------------------------

  predicate Covers(p: TrackPhrase, beat: nat) { p.startBeat <= beat < p.endBeat }

  /** The index of the first listed phrase that covers a beat. */
  function PhraseIndexAtBeat(phrases: seq<TrackPhrase>, beat: nat): (r: Option<nat>)
    ensures r.None? <==> forall p :: p in phrases ==> !Covers(p, beat)
    ensures r.Some? ==> exists i :: 0 <= i < |phrases| && Covers(phrases[i], beat) && phrases[i].index == r.value
  {
    if phrases == [] then None
    else if Covers(phrases[0], beat) then Some(phrases[0].index)
    else PhraseIndexAtBeat(phrases[1..], beat)
  }

  /** Of overlapping phrases the first listed one counts. */
  lemma {:induction false} PhraseIndexIsFirst(phrases: seq<TrackPhrase>, beat: nat, i: nat)
    requires i < |phrases| && Covers(phrases[i], beat) && forall k :: 0 <= k < i ==> !Covers(phrases[k], beat)
    ensures PhraseIndexAtBeat(phrases, beat) == Some(phrases[i].index)
    decreases i
  {
    if i > 0 { PhraseIndexIsFirst(phrases[1..], beat, i - 1); }
  }

  // ----- Cue execution -----------------------------------------------------------------

  function ForgetCue(last: Option<CueIdentity>, deck: DeckId): Option<CueIdentity> {
    if last.Some? && last.value.deck == deck then None else last
  }

  function ForgetPlan(active: Option<Plan>, deck: DeckId): Option<Plan> {
    if active.Some? && active.value.deck == deck then None else active
  }

  /** The active plan's cue for a phrase, if that plan belongs to the leading deck and this load. */
  function CueFor(s: Show, deck: DeckId, load: LoadId, phrase: nat): Option<Cue> {
    if s.leader == Some(deck)
       && s.activePlan.Some? && s.activePlan.value.deck == deck && s.activePlan.value.load == load
       && phrase < |s.activePlan.value.cues| && s.activePlan.value.cues[phrase].phraseIndex == phrase
    then Some(s.activePlan.value.cues[phrase])
    else None
  }

  datatype Scheduling = Scheduling(show: Show, effects: seq<Effect>)

  /** Executing a cue touches only the command counter and the record of the last cue. */
  function ExecutionEffect(s: Show, deck: DeckId, load: LoadId, phrase: nat, at: Time): (r: Result<Scheduling>)
    ensures r.Ok? ==>
      r.value.show == s.(outputSequence := r.value.show.outputSequence, lastCue := r.value.show.lastCue)
  {
    var found := CueFor(s, deck, load, phrase);
    if found.None? then Ok(Scheduling(s, []))
    else
      var cue, plan := found.value, s.activePlan.value;
      var identity := CueIdentity(deck, load, phrase, cue.id, plan.revision);
      if s.lastCue == Some(identity) then Ok(Scheduling(s, []))
      else if s.outputSequence >= U64_MAX then Err(OutputCommandSequenceOverflow)
      else
        var n := s.outputSequence + 1;
        Ok(Scheduling(
             s.(outputSequence := n, lastCue := Some(identity)),
             [ExecuteCue(Request(n, plan.id, plan.revision, deck, load, phrase, cue.id, cue.action, at))]))
  }

  // ----- Observations ------------------------------------------------------------------

  /** What an observation does to the decks, plans and leader: the decision when nothing is sent,
      and the phrase whose cue has to be considered for execution now, if any. */
  datatype Placement = Placement(show: Show, decision: Decision, due: Option<nat>)

  predicate Loaded(s: Show, deck: DeckId, load: LoadId) {
    deck in s.decks && s.decks[deck].load == load
  }

  /** Observations never touch the operation, the revision, the command counter or the record of envelopes. */
  predicate Framed(s: Show, p: Placement) {
    && p.show.operation == s.operation && p.show.revision == s.revision && p.show.outputSequence == s.outputSequence
    && p.show.sourceSequences == s.sourceSequences && p.show.sourceTimes == s.sourceTimes
  }

  /** A cue is only ever made due for the playing phrase of a deck in a live show. */
  predicate DueNow(p: Placement, deck: DeckId, load: LoadId) {
    p.due.Some? ==>
      && p.show.operation == Live && Loaded(p.show, deck, load)
      && p.show.decks[deck].playing && p.show.decks[deck].phraseIndex == p.due
  }

  function LoadTrack(s: Show, deck: DeckId, metadata: TrackMetadata, load: LoadId, at: Time): (p: Placement)
    ensures Framed(s, p) && DueNow(p, deck, load)
    ensures p.decision == TrackLoadAccepted && p.show.lastCue == ForgetCue(s.lastCue, deck)
  {
    Placement(
      s.(decks := s.decks[deck := Deck(metadata, load, 0, metadata.bpmMilli, false, None, at)],
         plans := s.plans - {deck},
         lastCue := ForgetCue(s.lastCue, deck),
         activePlan := ForgetPlan(s.activePlan, deck)),
      TrackLoadAccepted, None)
  }

  function Hydrate(s: Show, deck: DeckId, metadata: TrackMetadata, load: LoadId): (p: Placement)
    ensures Framed(s, p) && DueNow(p, deck, load)
    ensures p.show.lastCue == s.lastCue
  {
    if !Loaded(s, deck, load) then Placement(s, TrackLoadMismatch, None)
    else
      var d := s.decks[deck];
      var d' := d.(metadata := metadata, phraseIndex := PhraseIndexAtBeat(metadata.phrases, d.beat));
      Placement(s.(decks := s.decks[deck := d']), MetadataHydrated, None)
  }

  function Advance(s: Show, deck: DeckId, load: LoadId, beat: nat, at: Time): (p: Placement)
    ensures Framed(s, p) && DueNow(p, deck, load)
    ensures p.show.lastCue == s.lastCue
  {
    if !Loaded(s, deck, load) then Placement(s, TrackLoadMismatch, None)
    else if beat < s.decks[deck].beat then Placement(s, PositionRegressed, None)
    else Placement(s.(decks := s.decks[deck := s.decks[deck].(beat := beat, observedAt := at)]), PositionAdvanced, None)
  }

  function Seek(s: Show, deck: DeckId, load: LoadId, beat: nat, at: Time): (p: Placement)
    ensures p.decision == TrackLoadMismatch || p.decision == PositionSeeked
    ensures Framed(s, p) && DueNow(p, deck, load)
    ensures p.show.lastCue == if p.decision.TrackLoadMismatch? then s.lastCue else ForgetCue(s.lastCue, deck)
  {
    if !Loaded(s, deck, load) then Placement(s, TrackLoadMismatch, None)
    else
      var d := s.decks[deck];
      var phrase := PhraseIndexAtBeat(d.metadata.phrases, beat);
      var d' := d.(beat := beat, phraseIndex := phrase, observedAt := at);
      Placement(
        s.(decks := s.decks[deck := d'], lastCue := ForgetCue(s.lastCue, deck)),
        PositionSeeked,
        if s.operation == Live && s.leader == Some(deck) && d.playing then phrase else None)
  }

  function Retempo(s: Show, deck: DeckId, load: LoadId, bpmMilli: nat, at: Time): (p: Placement)
    ensures Framed(s, p) && DueNow(p, deck, load)
    ensures p.show.lastCue == s.lastCue
  {
    if !Loaded(s, deck, load) || !TempoInRange(bpmMilli) then Placement(s, TrackLoadMismatch, None)
    else
      var d' := s.decks[deck].(bpmMilli := bpmMilli, observedAt := at);
      Placement(s.(decks := s.decks[deck := d']), TempoChanged, None)
  }

  function SetPlaying(s: Show, deck: DeckId, load: LoadId, playing: bool, at: Time): (p: Placement)
    ensures p.decision == TrackLoadMismatch || p.decision == PlayingChanged
    ensures Framed(s, p) && DueNow(p, deck, load)
    ensures p.show.lastCue == if playing || p.decision.TrackLoadMismatch? then s.lastCue else ForgetCue(s.lastCue, deck)
  {
    if !Loaded(s, deck, load) then Placement(s, TrackLoadMismatch, None)
    else
      var d := s.decks[deck];
      Placement(
        s.(decks := s.decks[deck := d.(playing := playing, observedAt := at)],
           lastCue := if playing then s.lastCue else ForgetCue(s.lastCue, deck)),
        PlayingChanged,
        if playing && !d.playing && s.operation == Live then d.phraseIndex else None)
  }

  function Unload(s: Show, deck: DeckId, load: LoadId): (p: Placement)
    ensures p.decision == TrackLoadMismatch || p.decision == TrackRemoved
    ensures Framed(s, p) && DueNow(p, deck, load)
    ensures p.show.lastCue == if p.decision.TrackLoadMismatch? then s.lastCue else ForgetCue(s.lastCue, deck)
  {
    if !Loaded(s, deck, load) then Placement(s, TrackLoadMismatch, None)
    else
      Placement(
        s.(decks := s.decks - {deck},
           plans := s.plans - {deck},
           leader := if s.leader == Some(deck) then None else s.leader,
           activePlan := ForgetPlan(s.activePlan, deck),
           lastCue := ForgetCue(s.lastCue, deck)),
        TrackRemoved, None)
  }

  function EnterPhrase(s: Show, deck: DeckId, load: LoadId, phrase: nat, at: Time): (p: Placement)
    ensures Framed(s, p) && DueNow(p, deck, load)
    ensures p.show.lastCue == s.lastCue
  {
    if !Loaded(s, deck, load) || phrase >= |s.decks[deck].metadata.phrases| then Placement(s, TrackLoadMismatch, None)
    else
      var d := s.decks[deck];
      var s' := s.(decks := s.decks[deck := d.(phraseIndex := Some(phrase), observedAt := at)]);
      if s.operation != Live || !d.playing then Placement(s', PhraseEntered, None)
      else Placement(s', PhraseExecutionSkipped, Some(phrase))
  }

  function Activatable(s: Show, deck: DeckId, load: LoadId, track: nat): Option<Plan> {
    if deck in s.plans && s.plans[deck].status == Ready && s.plans[deck].load == load && s.plans[deck].track == track
    then Some(s.plans[deck])
    else None
  }

  function Lead(s: Show, deck: DeckId, load: LoadId): (p: Placement)
    ensures Framed(s, p) && DueNow(p, deck, load)
    ensures p.show.lastCue == s.lastCue
  {
    if !Loaded(s, deck, load) then Placement(s.(activePlan := None), TrackLoadMismatch, None)
    else
      var d := s.decks[deck];
      var s' := s.(leader := Some(deck), activePlan := Activatable(s, deck, load, d.metadata.id));
      if s'.activePlan.None? then Placement(s', PlanActivationSkipped, None)
      else Placement(s', PlanActivated, if s.operation == Live && d.playing then d.phraseIndex else None)
  }

  function Place(s: Show, source: nat, at: Time, o: DeckObservation): (p: Placement)
    ensures Framed(s, p)
    ensures if o.SourceStatusChanged? then p.due.None? else DueNow(p, o.deck, o.load)
  {
    match o
    case SourceStatusChanged(status) =>
      Placement(s.(statuses := s.statuses[source := status]), SourceStatusAccepted, None)
    case TrackLoaded(deck, metadata, load) => LoadTrack(s, deck, metadata, load, at)
    case TrackMetadataHydrated(deck, metadata, load) => Hydrate(s, deck, metadata, load)
    case PlaybackPosition(deck, load, beat) => Advance(s, deck, load, beat, at)
    case PlaybackPositionSeeked(deck, load, beat) => Seek(s, deck, load, beat, at)
    case PlaybackTempoChanged(deck, load, bpmMilli) => Retempo(s, deck, load, bpmMilli, at)
    case PlaybackStateChanged(deck, load, playing) => SetPlaying(s, deck, load, playing, at)
    case TrackUnloaded(deck, load) => Unload(s, deck, load)
    case PhraseChanged(deck, load, phrase) => EnterPhrase(s, deck, load, phrase, at)
    case LeaderChanged(deck, load) => Lead(s, deck, load)
  }

  /** Executes the cue an observation made due. */
  function Finish(p: Placement, o: DeckObservation, at: Time): Result<Step>
    requires p.due.Some? ==> !o.SourceStatusChanged?
  {
    if p.due.None? then Ok(Observed(p.show, p.decision, []))
    else
      var done :- ExecutionEffect(p.show, o.deck, o.load, p.due.value, at);
      Ok(if done.effects != [] then Observed(done.show, PhraseExecutionScheduled, done.effects)
         else Observed(done.show, p.decision, []))
  }

  /** The state an accepted envelope is observed in: its sequence and time are on record. */
  function Enveloped(s: Show, e: Event): Show
    requires e.Observation?
  {
    s.(sourceSequences := s.sourceSequences[e.source := e.sequence],
      sourceTimes := s.sourceTimes[e.source := e.observedAt])
  }

  predicate Seen(sequences: map<nat, nat>, sender: nat, sequence: nat) {
    sender in sequences && sequence <= sequences[sender]
  }

  function ReduceObservation(s: Show, e: Event): Result<Step>
    requires e.Observation?
  {
    if Seen(s.sourceSequences, e.source, e.sequence) then Ok(Observed(s, StaleObservationIgnored, []))
    else if e.source in s.sourceTimes && e.observedAt < s.sourceTimes[e.source] then
      Ok(Observed(s.(sourceSequences := s.sourceSequences[e.source := e.sequence]), ObservationTimeRegressed, []))
    else
      Finish(Place(Enveloped(s, e), e.source, e.observedAt, e.observation), e.observation, e.observedAt)
  }

  // ----- Commands, worker results and the runtime itself -------------------------------

  function Target(from: OperationState, c: OperationCommand): Option<OperationState> {
    match c
    case Arm => if from == Off then Some(Armed) else None
    case Start => if from == Armed || from == Paused then Some(Live) else None
    case Pause => if from == Live then Some(Paused) else None
    case TurnOff => Some(Off)
  }

  function ReduceCommand(s: Show, e: Event): Result<Step>
    requires e.UserCommand?
  {
    if Seen(s.commandSequences, e.client, e.commandSequence) then Ok(Step(s, DuplicateCommandIgnored, [], false))
    else if e.expectedRevision != s.revision then Err(RevisionConflict(e.expectedRevision, s.revision))
    else
      var target := Target(s.operation, e.command);
      if target.None? then Err(InvalidOperationTransition(s.operation, e.command))
      else
        var s1 := s.(commandSequences := s.commandSequences[e.client := e.commandSequence], operation := target.value);
        match target.value
        case Armed => Ok(Step(s1, OperationTransitionAccepted, [], true))
        case Live =>
          if s1.leader.Some? && s1.leader.value in s1.decks
             && s1.decks[s1.leader.value].playing && s1.decks[s1.leader.value].phraseIndex.Some? then
            var d := s1.decks[s1.leader.value];
            var done :- ExecutionEffect(s1, s1.leader.value, d.load, d.phraseIndex.value, e.issuedAt);
            Ok(Step(done.show, OperationTransitionAccepted, done.effects, true))
          else Ok(Step(s1, OperationTransitionAccepted, [], true))
        case _ =>
          var close := EnsureOutputClosed(OperationTransitionAccepted);
          Ok(Step(s1.(lastCue := None), OperationTransitionAccepted, [close], true))
  }

  function AcceptPlan(s: Show, plan: Plan): Result<Step> {
    if plan.deck !in s.decks || s.decks[plan.deck].load != plan.load
      || s.decks[plan.deck].metadata.id != plan.track then
      Ok(Step(s, PlanTrackLoadMismatch, [], false))
    else if plan.deck in s.plans && s.plans[plan.deck].revision >= U64_MAX then Err(PlanRevisionOverflow)
    else
      var expected := if plan.deck in s.plans then s.plans[plan.deck].revision + 1 else 1;
      if plan.revision < expected then Ok(Step(s, StalePlanIgnored, [], false))
      else if plan.revision != expected then Err(PlanRevisionGap(expected, plan.revision))
      else
        var active := if s.leader == Some(plan.deck) then Some(plan) else s.activePlan;
        Ok(Step(s.(plans := s.plans[plan.deck := plan], activePlan := active), PlanAccepted, [], true))
  }

  function ReduceEffectResult(s: Show, e: Event): Result<Step>
    requires e.EffectCompleted?
  {
    if Seen(s.effectSequences, e.worker, e.effectSequence) then Ok(Step(s, DuplicateEffectIgnored, [], false))
    else
      var s1 := s.(effectSequences := s.effectSequences[e.worker := e.effectSequence]);
      match e.result
      case PlanGenerated(plan) => AcceptPlan(s1, plan)
      case OutputEffectRecorded(record) =>
        var records := PushBounded(s1.outputEffects, record, MAXIMUM_OUTPUT_EFFECTS);
        Ok(Step(s1.(outputEffects := records), OutputRecorded, [], true))
      case OutputGateClosed => Ok(Step(s1, OutputGateConfirmedClosed, [], false))
  }

  function ReduceShow(s: Show, e: Event): Result<Step> {
    match e
    case RuntimeStarted(_) =>
      if s.health != Starting then Err(RuntimeAlreadyStarted)
      else Ok(Step(s.(health := HealthReady), RuntimeInitialized, [], true))
    case Observation(_, _, _, _) => ReduceObservation(s, e)
    case UserCommand(_, _, _, _, _) => ReduceCommand(s, e)
    case EffectCompleted(_, _, _, _) => ReduceEffectResult(s, e)
    case QueueOverloaded(_) =>
      Ok(Step(s.(health := Degraded, operation := if s.operation == Live then Paused else s.operation),
              QueueSaturated, [EnsureOutputClosed(QueueSaturated)], true))
  }

  function Record(j: Journal, e: Event, d: Decision): Journal
    requires j.processed < U64_MAX
  {
    var n := j.processed + 1;
    j.(processed := n,
       lastDecision := Some(d),
       diagnostics := if !e.QueueOverloaded? then j.diagnostics
                      else PushBounded(j.diagnostics, Diagnostic(n, QueueSaturated, e.Kind(), e.overload.occurredAt),
                                       MAXIMUM_DIAGNOSTICS),
       timeline := PushBounded(j.timeline, TimelineEntry(n, e.MonotonicTime(), e.Kind(), d), MAXIMUM_TIMELINE_ENTRIES))
  }

  function Reduce(s: State, e: Event): Result<Reduction> {
    var step :- ReduceShow(s.show, e);
    if s.journal.processed >= U64_MAX then Err(ProcessedEventOverflow)
    else
      var journal := Record(s.journal, e, step.decision);
      if !step.changed then Ok(Reduction(State(step.show, journal), step.decision, step.effects, false))
      else if step.show.revision >= U64_MAX then Err(StateRevisionOverflow)
      else
        var state := State(step.show.(revision := step.show.revision + 1), journal);
        Ok(Reduction(state, step.decision, step.effects, true))
  }
}
