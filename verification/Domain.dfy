/** The vocabulary of the show engine: decks, plans, events, decisions and the runtime state. */
module Domain {

  const U64_MAX: nat := 0xFFFF_FFFF_FFFF_FFFF
  const TWO_32: nat := 0x1_0000_0000
  const U32_MAX: nat := 0xFFFF_FFFF

  datatype Option<+T> = None | Some(value: T)

  type DeckId = nat
  type LoadId = nat
  type Time = nat

  // ----- Tracks and plans --------------------------------------------------------------

  datatype PhraseKind = Intro | Verse | Build | Drop | Breakdown | Outro

  datatype TrackPhrase = TrackPhrase(index: nat, startBeat: nat, endBeat: nat, kind: PhraseKind)

  /** Title, artist, key and colour never influence a decision and are not represented. */
  datatype TrackMetadata = TrackMetadata(id: nat, bpmMilli: nat, durationBeats: nat, phrases: seq<TrackPhrase>)

  datatype PlanStatus = Ready | Fallback

  datatype Theme = Theme(id: nat, name: string)

  datatype Action = ApplyLook(theme: Theme, scene: nat) | HoldCurrentLook

  datatype CueOrigin = Automatic | FallbackCue | User

  datatype Cue = Cue(id: nat, phraseIndex: nat, startBeat: nat, endBeat: nat, action: Action, origin: CueOrigin)

  datatype Plan = Plan(
    id: nat, deck: DeckId, track: nat, durationBeats: nat, load: LoadId,
    revision: nat, configuration: nat, status: PlanStatus, theme: Option<Theme>, cues: seq<Cue>)

  // ----- Events ------------------------------------------------------------------------

  datatype SourceStatus = SourceStarting | SourceReady | SourceDegraded | SourceDisconnected

  datatype DeckObservation =
    | SourceStatusChanged(status: SourceStatus)
    | TrackLoaded(deck: DeckId, metadata: TrackMetadata, load: LoadId)
    | TrackMetadataHydrated(deck: DeckId, metadata: TrackMetadata, load: LoadId)
    | PlaybackPosition(deck: DeckId, load: LoadId, beat: nat)
    | PlaybackPositionSeeked(deck: DeckId, load: LoadId, beat: nat)
    | PlaybackTempoChanged(deck: DeckId, load: LoadId, bpmMilli: nat)
    | PlaybackStateChanged(deck: DeckId, load: LoadId, playing: bool)
    | TrackUnloaded(deck: DeckId, load: LoadId)
    | PhraseChanged(deck: DeckId, load: LoadId, phraseIndex: nat)
    | LeaderChanged(deck: DeckId, load: LoadId)

  datatype OperationCommand = Arm | Start | Pause | TurnOff

  datatype EffectResult = PlanGenerated(plan: Plan) | OutputEffectRecorded(record: nat) | OutputGateClosed

  datatype EventKind = KindRuntimeStarted | KindObservation | KindUserCommand | KindEffectResult | KindQueueOverloaded

  datatype Overload = Overload(occurredAt: Time, rejectedKind: EventKind, rejectedCritical: bool, occurrences: nat)

  datatype Event =
    | RuntimeStarted(at: Time)
    | Observation(source: nat, sequence: nat, observedAt: Time, observation: DeckObservation)
    | UserCommand(client: nat, commandSequence: nat, expectedRevision: nat, issuedAt: Time, command: OperationCommand)
    | EffectCompleted(worker: nat, effectSequence: nat, completedAt: Time, result: EffectResult)
    | QueueOverloaded(overload: Overload)
  {
    function Kind(): EventKind {
      match this
      case RuntimeStarted(_) => KindRuntimeStarted
      case Observation(_, _, _, _) => KindObservation
      case UserCommand(_, _, _, _, _) => KindUserCommand
      case EffectCompleted(_, _, _, _) => KindEffectResult
      case QueueOverloaded(_) => KindQueueOverloaded
    }

    predicate IsCritical() { !Observation? }

    function MonotonicTime(): Time {
      match this
      case RuntimeStarted(at) => at
      case Observation(_, _, at, _) => at
      case UserCommand(_, _, _, at, _) => at
      case EffectCompleted(_, _, at, _) => at
      case QueueOverloaded(o) => o.occurredAt
    }
  }

  // ----- Decisions, effects and errors -------------------------------------------------

  datatype Decision =
    | RuntimeInitialized | SourceStatusAccepted | TrackLoadAccepted | MetadataHydrated
    | PositionAdvanced | PositionSeeked | TempoChanged | PlayingChanged | PhraseEntered
    | PlanActivated | PlanActivationSkipped | PhraseExecutionScheduled | PhraseExecutionSkipped
    | TrackRemoved | StaleObservationIgnored | ObservationTimeRegressed | TrackLoadMismatch
    | PositionRegressed | DuplicateCommandIgnored | OperationTransitionAccepted
    | DuplicateEffectIgnored | PlanAccepted | StalePlanIgnored | PlanTrackLoadMismatch
    | OutputGateConfirmedClosed | OutputRecorded | QueueSaturated

  datatype Request = Request(
    commandId: nat, planId: nat, planRevision: nat, deck: DeckId, load: LoadId,
    phraseIndex: nat, cueId: nat, action: Action, scheduledAt: Time)
  {
    function Identity(): CueIdentity { CueIdentity(deck, load, phraseIndex, cueId, planRevision) }
  }

  datatype Effect = EnsureOutputClosed(reason: Decision) | ExecuteCue(request: Request)

  datatype ReducerError =
    | RuntimeAlreadyStarted
    | RevisionConflict(expected: nat, actual: nat)
    | InvalidOperationTransition(from: OperationState, command: OperationCommand)
    | PlanRevisionGap(expected: nat, actual: nat)
    | StateRevisionOverflow | PlanRevisionOverflow | OutputCommandSequenceOverflow | ProcessedEventOverflow

  // ----- Runtime state -----------------------------------------------------------------

  datatype OperationState = Off | Armed | Live | Paused

  datatype Health = Starting | HealthReady | Degraded

  datatype Deck = Deck(
    metadata: TrackMetadata, load: LoadId, beat: nat, bpmMilli: nat,
    playing: bool, phraseIndex: Option<nat>, observedAt: Time)

  /** What makes two scheduled cues the same execution. */
  datatype CueIdentity = CueIdentity(deck: DeckId, load: LoadId, phraseIndex: nat, cueId: nat, planRevision: nat)

  /** Every field of the runtime state on which a later decision depends. */
  datatype Show = Show(
    revision: nat,
    operation: OperationState,
    health: Health,
    decks: map<DeckId, Deck>,
    plans: map<DeckId, Plan>,
    statuses: map<nat, SourceStatus>,
    leader: Option<DeckId>,
    activePlan: Option<Plan>,
    outputSequence: nat,
    lastCue: Option<CueIdentity>,
    outputEffects: seq<nat>,
    sourceSequences: map<nat, nat>,
    sourceTimes: map<nat, Time>,
    commandSequences: map<nat, nat>,
    effectSequences: map<nat, nat>)

  datatype Diagnostic = Diagnostic(sequence: nat, reason: Decision, kind: EventKind, occurredAt: Time)

  datatype TimelineEntry = TimelineEntry(sequence: nat, occurredAt: Time, kind: EventKind, reason: Decision)

  /** The remaining, purely reporting fields of the runtime state. */
  datatype Journal = Journal(
    processed: nat, lastDecision: Option<Decision>, diagnostics: seq<Diagnostic>, timeline: seq<TimelineEntry>)

  datatype State = State(show: Show, journal: Journal)

  const MAXIMUM_DIAGNOSTICS: nat := 64
  const MAXIMUM_OUTPUT_EFFECTS: nat := 256
  const MAXIMUM_TIMELINE_ENTRIES: nat := 256

  const InitialShow := Show(
    0, Off, Starting, map[], map[], map[], None, None, 0, None, [], map[], map[], map[], map[])

  const InitialState := State(InitialShow, Journal(0, None, [], []))

  /** Appends to a bounded ring, dropping the oldest element when it is full. */
  function PushBounded<T>(ring: seq<T>, x: T, capacity: nat): (r: seq<T>)
    requires 0 < capacity
    ensures |ring| <= capacity ==> 0 < |r| <= capacity && r[|r| - 1] == x
  {
    (if |ring| == capacity then ring[1..] else ring) + [x]
  }

  function PushAll<T>(xs: seq<T>, capacity: nat): (r: seq<T>)
    requires 0 < capacity
  {
    if xs == [] then [] else PushBounded(PushAll(xs[..|xs| - 1], capacity), xs[|xs| - 1], capacity)
  }

  function Latest<T>(xs: seq<T>, capacity: nat): seq<T> {
    if |xs| <= capacity then xs else xs[|xs| - capacity..]
  }

  lemma LatestStep<T>(xs: seq<T>, x: T, capacity: nat)
    requires 0 < capacity
    ensures PushBounded(Latest(xs, capacity), x, capacity) == Latest(xs + [x], capacity)
  {
    var ring := Latest(xs, capacity);
    if |xs| >= capacity {
      assert ring[1..] == xs[|xs| + 1 - capacity..];
      assert (xs + [x])[|xs| + 1 - capacity..] == xs[|xs| + 1 - capacity..] + [x];
    }
  }

  /** A ring holds exactly the latest elements pushed into it, in order. */
  lemma {:induction false} RingKeepsLatest<T>(xs: seq<T>, capacity: nat)
    requires 0 < capacity
    ensures PushAll(xs, capacity) == (if |xs| <= capacity then xs else xs[|xs| - capacity..])
  {
    if xs != [] {
      var rest, x := xs[..|xs| - 1], xs[|xs| - 1];
      RingKeepsLatest(rest, capacity);
      assert PushAll(rest, capacity) == Latest(rest, capacity);
      assert PushAll(xs, capacity) == PushBounded(Latest(rest, capacity), x, capacity);
      hide PushBounded, PushAll;
      LatestStep(rest, x, capacity);
      assert rest + [x] == xs;
    }
  }
}
