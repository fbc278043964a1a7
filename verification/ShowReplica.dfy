/** The decisions tell the show: whoever sees the events and the decisions taken on them can rebuild the decks, the
    plans, the leader and the active plan. */
module ShowReplica {
  import opened Domain
  import opened Reducer
  import opened ShowRuns

  datatype Board = Board(
    decks: map<DeckId, Deck>, plans: map<DeckId, Plan>, leader: Option<DeckId>, active: Option<Plan>)

  function BoardOf(s: Show): Board { Board(s.decks, s.plans, s.leader, s.activePlan) }

  predicate Refused(d: Decision) {
    d.StaleObservationIgnored? || d.ObservationTimeRegressed? || d.TrackLoadMismatch? || d.PositionRegressed?
  }

  function OnDeck(b: Board, deck: DeckId, change: Deck -> Deck): Board {
    if deck in b.decks then b.(decks := b.decks[deck := change(b.decks[deck])]) else b
  }

  /** What an observation that was not refused says. No load, position, tempo or phrase is compared here. */
  function Reported(b: Board, o: DeckObservation, at: Time, d: Decision): Board {
    match o
    case SourceStatusChanged(_) => b
    case TrackLoaded(deck, metadata, load) =>
      b.(decks := b.decks[deck := Deck(metadata, load, 0, metadata.bpmMilli, false, None, at)],
         plans := b.plans - {deck}, active := ForgetPlan(b.active, deck))
    case TrackUnloaded(deck, _) =>
      var leader := if b.leader == Some(deck) then None else b.leader;
      Board(b.decks - {deck}, b.plans - {deck}, leader, ForgetPlan(b.active, deck))
    case TrackMetadataHydrated(deck, metadata, _) =>
      OnDeck(b, deck, (x: Deck) => x.(metadata := metadata, phraseIndex := PhraseIndexAtBeat(metadata.phrases, x.beat)))
    case PlaybackPosition(deck, _, beat) => OnDeck(b, deck, (x: Deck) => x.(beat := beat, observedAt := at))
    case PlaybackPositionSeeked(deck, _, beat) =>
      OnDeck(b, deck, (x: Deck) =>
        x.(beat := beat, observedAt := at, phraseIndex := PhraseIndexAtBeat(x.metadata.phrases, beat)))
    case PlaybackTempoChanged(deck, _, bpmMilli) =>
      OnDeck(b, deck, (x: Deck) => x.(bpmMilli := bpmMilli, observedAt := at))
    case PlaybackStateChanged(deck, _, playing) =>
      OnDeck(b, deck, (x: Deck) => x.(playing := playing, observedAt := at))
    case PhraseChanged(deck, _, phrase) =>
      OnDeck(b, deck, (x: Deck) => x.(phraseIndex := Some(phrase), observedAt := at))
    case LeaderChanged(deck, _) =>
      var active := if d.PlanActivationSkipped? || deck !in b.plans then None else Some(b.plans[deck]);
      b.(leader := Some(deck), active := active)
  }

  /** The board after an event, from the event and the decision alone. A refused report of the leader clears the
      active plan; every other refusal changes nothing. */
  function Told(b: Board, e: Event, d: Decision): Board {
    match e
    case Observation(_, _, at, o) =>
      if !Refused(d) then Reported(b, o, at, d)
      else if d.TrackLoadMismatch? && o.LeaderChanged? then b.(active := None)
      else b
    case EffectCompleted(_, _, _, result) =>
      if d.PlanAccepted? && result.PlanGenerated? then
        var plan := result.plan;
        b.(plans := b.plans[plan.deck := plan], active := if b.leader == Some(plan.deck) then Some(plan) else b.active)
      else b
    case _ => b
  }

  /** The decision on the event, if it was not rejected. */
  function DecisionOn(s: State, e: Event): Option<Decision> {
    var r := Reduce(s, e);
    if r.Ok? then Some(r.value.decision) else None
  }

  function Decisions(es: seq<Event>): (r: seq<Option<Decision>>)
    ensures |r| == |es|
  {
    if es == [] then []
    else
      var before := es[..|es| - 1];
      Decisions(before) + [DecisionOn(Run(InitialState, before), es[|es| - 1])]
  }

  function Replica(es: seq<Event>, ds: seq<Option<Decision>>): Board
    requires |es| == |ds|
  {
    if es == [] then Board(map[], map[], None, None)
    else
      var n := |es| - 1;
      var b := Replica(es[..n], ds[..n]);
      if ds[n].Some? then Told(b, es[n], ds[n].value) else b
  }

  // ----- One step ----------------------------------------------------------------------

  predicate Mirrors(s: Show, o: DeckObservation, at: Time, p: Placement, d: Decision) {
    BoardOf(p.show) == if !Refused(d) then Reported(BoardOf(s), o, at, d)
                       else if o.LeaderChanged? then BoardOf(s).(active := None) else BoardOf(s)
  }

  /** The placement and, when a cue is due, the decision that the cue was scheduled both tell the board. */
  predicate Telling(s: Show, o: DeckObservation, at: Time, p: Placement) {
    && Mirrors(s, o, at, p, p.decision)
    && (p.due.Some? ==> !Refused(p.decision) && Mirrors(s, o, at, p, PhraseExecutionScheduled))
    && !p.decision.StaleObservationIgnored? && !p.decision.ObservationTimeRegressed?
    && (o.LeaderChanged? ==> !p.decision.PositionRegressed?)
  }

  lemma LoadTells(s: Show, source: nat, at: Time, o: DeckObservation)
    requires o.TrackLoaded? || o.TrackUnloaded? || o.SourceStatusChanged?
    ensures Telling(s, o, at, Place(s, source, at, o))
  {
    hide Framed, DueNow, PhraseIndexAtBeat;
  }

  lemma LeadTells(s: Show, source: nat, at: Time, o: DeckObservation)
    requires o.LeaderChanged?
    ensures Telling(s, o, at, Place(s, source, at, o))
  {
    hide Framed, DueNow, PhraseIndexAtBeat;
  }

  lemma PositionTells(s: Show, source: nat, at: Time, o: DeckObservation)
    requires o.TrackMetadataHydrated? || o.PlaybackPosition? || o.PlaybackPositionSeeked?
    ensures Telling(s, o, at, Place(s, source, at, o))
  {
    hide Framed, DueNow, PhraseIndexAtBeat;
  }

  lemma PhraseTells(s: Show, source: nat, at: Time, o: DeckObservation)
    requires o.PhraseChanged?
    ensures Telling(s, o, at, Place(s, source, at, o))
  {
    hide Framed, DueNow, PhraseIndexAtBeat;
  }

  lemma TransportTells(s: Show, source: nat, at: Time, o: DeckObservation)
    requires o.PlaybackTempoChanged? || o.PlaybackStateChanged?
    ensures Telling(s, o, at, Place(s, source, at, o))
  {
    hide Framed, DueNow, PhraseIndexAtBeat;
  }

  lemma PlaceTells(s: Show, source: nat, at: Time, o: DeckObservation)
    ensures Telling(s, o, at, Place(s, source, at, o))
  {
    hide Place, Telling;
    match o
    case SourceStatusChanged(_) => LoadTells(s, source, at, o);
    case TrackLoaded(_, _, _) => LoadTells(s, source, at, o);
    case TrackUnloaded(_, _) => LoadTells(s, source, at, o);
    case LeaderChanged(_, _) => LeadTells(s, source, at, o);
    case TrackMetadataHydrated(_, _, _) => PositionTells(s, source, at, o);
    case PlaybackPosition(_, _, _) => PositionTells(s, source, at, o);
    case PlaybackPositionSeeked(_, _, _) => PositionTells(s, source, at, o);
    case PhraseChanged(_, _, _) => PhraseTells(s, source, at, o);
    case _ => TransportTells(s, source, at, o);
  }

  lemma FinishMirrors(s: Show, e: Event, p: Placement)
    requires e.Observation? && (p.due.Some? ==> !e.observation.SourceStatusChanged?)
    requires Telling(s, e.observation, e.observedAt, p)
    ensures var r := Finish(p, e.observation, e.observedAt);
      r.Ok? ==> BoardOf(r.value.show) == Told(BoardOf(s), e, r.value.decision)
  {
    hide Reported, CueFor;
  }

  lemma ObservationMirrors(s: Show, e: Event)
    requires e.Observation?
    ensures var r := ReduceObservation(s, e); r.Ok? ==> BoardOf(r.value.show) == Told(BoardOf(s), e, r.value.decision)
  {
    hide Place, Finish, Reported, Telling;
    var s1 := Enveloped(s, e);
    PlaceTells(s1, e.source, e.observedAt, e.observation);
    FinishMirrors(s1, e, Place(s1, e.source, e.observedAt, e.observation));
  }

  lemma StartMirrors(s: Show, e: Event)
    requires e.UserCommand? && e.command == Start
    ensures var r := ReduceCommand(s, e); r.Ok? ==> BoardOf(r.value.show) == BoardOf(s)
  {
    hide ExecutionEffect;
  }

  lemma CommandMirrors(s: Show, e: Event)
    requires e.UserCommand?
    ensures var r := ReduceCommand(s, e); r.Ok? ==> BoardOf(r.value.show) == BoardOf(s)
  {
    hide ExecutionEffect;
    if e.command == Start {
      hide ReduceCommand;
      StartMirrors(s, e);
    }
  }

  lemma PlanMirrors(s: Show, plan: Plan)
    ensures var r := AcceptPlan(s, plan);
      r.Ok? ==>
        if r.value.decision == PlanAccepted then
          && r.value.show.decks == s.decks && r.value.show.plans == s.plans[plan.deck := plan]
          && r.value.show.leader == s.leader
          && r.value.show.activePlan == (if s.leader == Some(plan.deck) then Some(plan) else s.activePlan)
        else BoardOf(r.value.show) == BoardOf(s)
  {
  }

  lemma ResultMirrors(s: Show, e: Event)
    requires e.EffectCompleted?
    ensures var r := ReduceEffectResult(s, e); r.Ok? ==> BoardOf(r.value.show) == Told(BoardOf(s), e, r.value.decision)
  {
    hide AcceptPlan;
    if e.result.PlanGenerated? {
      PlanMirrors(s.(effectSequences := s.effectSequences[e.worker := e.effectSequence]), e.result.plan);
    }
  }

  lemma StepMirrors(s: Show, e: Event)
    ensures var r := ReduceShow(s, e); r.Ok? ==> BoardOf(r.value.show) == Told(BoardOf(s), e, r.value.decision)
  {
    hide ReduceObservation, ReduceCommand, ReduceEffectResult, Reported;
    match e
    case Observation(_, _, _, _) => ObservationMirrors(s, e);
    case UserCommand(_, _, _, _, _) => CommandMirrors(s, e);
    case EffectCompleted(_, _, _, _) => ResultMirrors(s, e);
    case _ =>
  }

  /** In every run, the decks, the stored plans, the leader and the active plan are what the events and the
      decisions on them tell. */
  lemma {:induction false} DecisionsTellTheShow(es: seq<Event>)
    ensures BoardOf(Run(InitialState, es).show) == Replica(es, Decisions(es))
  {
    if es != [] {
      var before := es[..|es| - 1];
      DecisionsTellTheShow(before);
      assert Decisions(es)[..|es| - 1] == Decisions(before);
      StepMirrors(Run(InitialState, before).show, es[|es| - 1]);
      hide ReduceShow, Told, Record;
    }
  }
}
