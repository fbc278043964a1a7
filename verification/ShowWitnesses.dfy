/** Short runs from the initial state that show the cases the theorems speak of do occur. */
module ShowWitnesses {
  import opened Domain
  import opened Reducer
  import opened ShowRuns
  import opened ShowTheorems
  import opened ShowCommands
  import opened Spans
  import opened Validation
  import opened ShowValidity

  // ----- A show that goes live ---------------------------------------------------------

  const Track := TrackMetadata(100, 120_000, 64, [TrackPhrase(0, 0, 64, Intro)])

  const Blue := Theme(1, "Blue")

  const Prepared := Plan(9, 1, 100, 64, 10, 1, 1, Ready, Some(Blue), [Cue(1, 0, 0, 64, ApplyLook(Blue, 5), Automatic)])

  const Sent := CueIdentity(1, 10, 0, 1, 1)

  function Seen7(sequence: nat, o: DeckObservation): Event { Observation(7, sequence, 0, o) }

  const Loads := Seen7(1, TrackLoaded(1, Track, 10))
  const Leads := Seen7(2, LeaderChanged(1, 10))
  const Plans := EffectCompleted(3, 1, 0, PlanGenerated(Prepared))
  const Lands := Seen7(3, PlaybackPositionSeeked(1, 10, 0))
  const Plays := Seen7(4, PlaybackStateChanged(1, 10, true))
  const Arms := UserCommand(2, 1, 5, 0, Arm)
  const Starts := UserCommand(2, 2, 6, 0, Start)

  const Opening := [Loads, Leads, Plans, Lands, Plays, Arms, Starts]

  function Playing(phrase: Option<nat>, playing: bool): map<DeckId, Deck> {
    map[1 := Deck(Track, 10, 0, 120_000, playing, phrase, 0)]
  }

  const Loaded1 := InitialShow.(
    revision := 1, decks := Playing(None, false), sourceSequences := map[7 := 1], sourceTimes := map[7 := 0])
  const Led2 := Loaded1.(revision := 2, leader := Some(1), sourceSequences := map[7 := 2])
  const Planned3 := Led2.(
    revision := 3, plans := map[1 := Prepared], activePlan := Some(Prepared), effectSequences := map[3 := 1])
  const Landed4 := Planned3.(revision := 4, decks := Playing(Some(0), false), sourceSequences := map[7 := 3])
  const Playing5 := Landed4.(revision := 5, decks := Playing(Some(0), true), sourceSequences := map[7 := 4])
  const Armed6 := Playing5.(revision := 6, operation := Armed, commandSequences := map[2 := 1])
  const Live7 := Armed6.(
    revision := 7, operation := Live, commandSequences := map[2 := 2], outputSequence := 1, lastCue := Some(Sent))

  function Counted1(step: Step): Show {
    if step.changed then step.show.(revision := step.show.revision + 1) else step.show
  }

  /** A run that has come to this show, every event of it accepted. */
  predicate Reaches(es: seq<Event>, show: Show) {
    Run(InitialState, es).show == show && Run(InitialState, es).journal.processed == |es|
  }

  lemma ReduceIs(s: State, e: Event, step: Step)
    requires ReduceShow(s.show, e) == Ok(step) && s.journal.processed < 100 && step.show.revision < 100
    ensures Accepts(s, e, step.decision) && Emitted(s, e) == step.effects
    ensures Apply(s, e).show == Counted1(step) && Apply(s, e).journal.processed == s.journal.processed + 1
  {
    hide ReduceShow, PushBounded;
  }

  lemma RunAppend(es: seq<Event>, e: Event)
    ensures Run(InitialState, es + [e]) == Apply(Run(InitialState, es), e)
    ensures Reached(es + [e], |es|) == Run(InitialState, es)
  {
    hide Reduce;
    assert (es + [e])[..|es|] == es;
  }

  lemma Next(es: seq<Event>, before: Show, e: Event, step: Step)
    requires Reaches(es, before) && ReduceShow(before, e) == Ok(step) && |es| < 100 && step.show.revision < 100
    ensures Reaches(es + [e], Counted1(step))
    ensures Accepts(Run(InitialState, es), e, step.decision) && Emitted(Run(InitialState, es), e) == step.effects
    ensures Reached(es + [e], |es|) == Run(InitialState, es)
  {
    hide ReduceShow, Run, Apply, Reached, Accepts, Emitted;
    RunAppend(es, e);
    ReduceIs(Run(InitialState, es), e, step);
  }

  lemma Overwrites(k: nat, a: nat, b: nat)
    ensures map[k := a][k := b] == map[k := b]
  {
  }

  lemma LoadStep()
    ensures ReduceShow(InitialShow, Loads) == Ok(Step(Loaded1.(revision := 0), TrackLoadAccepted, [], true))
  {
    assert InitialShow.plans - {1} == map[];
  }

  lemma LeadStep()
    ensures ReduceShow(Loaded1, Leads) == Ok(Step(Led2.(revision := 1), PlanActivationSkipped, [], true))
  {
    Overwrites(7, 1, 2);
    Overwrites(7, 0, 0);
  }

  lemma PlanStep()
    ensures ReduceShow(Led2, Plans) == Ok(Step(Planned3.(revision := 2), PlanAccepted, [], true))
  {
  }

  lemma LandStep()
    ensures ReduceShow(Planned3, Lands) == Ok(Step(Landed4.(revision := 3), PositionSeeked, [], true))
  {
    Overwrites(7, 2, 3);
    Overwrites(7, 0, 0);
    assert PhraseIndexAtBeat(Track.phrases, 0) == Some(0);
    assert Planned3.decks[1 := Planned3.decks[1].(phraseIndex := Some(0))] == Playing(Some(0), false);
  }

  lemma PlayStep()
    ensures ReduceShow(Landed4, Plays) == Ok(Step(Playing5.(revision := 4), PlayingChanged, [], true))
  {
    Overwrites(7, 3, 4);
    Overwrites(7, 0, 0);
    assert Landed4.decks[1 := Landed4.decks[1].(playing := true)] == Playing(Some(0), true);
  }

  lemma ArmStep()
    ensures ReduceShow(Playing5, Arms) == Ok(Step(Armed6.(revision := 5), OperationTransitionAccepted, [], true))
  {
  }

  const Request1 := Request(1, 9, 1, 1, 10, 0, 1, ApplyLook(Blue, 5), 0)

  const Started7 := Armed6.(operation := Live, commandSequences := map[2 := 2])

  lemma StartExecutes()
    ensures ExecutionEffect(Started7, 1, 10, 0, 0)
      == Ok(Scheduling(Live7.(revision := 6), [ExecuteCue(Request1)]))
  {
  }

  lemma StartStep()
    ensures ReduceShow(Armed6, Starts)
      == Ok(Step(Live7.(revision := 6), OperationTransitionAccepted, [ExecuteCue(Request1)], true))
  {
    assert Armed6.commandSequences[2 := 2] == map[2 := 2];
    StartExecutes();
    hide ExecutionEffect;
  }

  lemma OpeningParts()
    ensures Opening[..1] == [] + [Loads] && Opening[..2] == Opening[..1] + [Leads]
      && Opening[..3] == Opening[..2] + [Plans]
    ensures Opening[..4] == Opening[..3] + [Lands] && Opening[..5] == Opening[..4] + [Plays]
    ensures Opening[..6] == Opening[..5] + [Arms] && Opening == Opening[..6] + [Starts]
  {
  }

  /** The opening goes live and its Start sends the cue. */
  lemma GoesLive()
    ensures Reaches(Opening[..6], Armed6) && Reaches(Opening, Live7)
    ensures Emitted(Run(InitialState, Opening[..6]), Starts) == [ExecuteCue(Request1)]
  {
    hide ReduceShow, Run;
    assert Reaches([], InitialShow) by { Nothing(); }
    OpeningParts();
    LoadStep(); Next([], InitialShow, Loads, Step(Loaded1.(revision := 0), TrackLoadAccepted, [], true));
    LeadStep(); Next(Opening[..1], Loaded1, Leads, Step(Led2.(revision := 1), PlanActivationSkipped, [], true));
    PlanStep(); Next(Opening[..2], Led2, Plans, Step(Planned3.(revision := 2), PlanAccepted, [], true));
    LandStep(); Next(Opening[..3], Planned3, Lands, Step(Landed4.(revision := 3), PositionSeeked, [], true));
    PlayStep(); Next(Opening[..4], Landed4, Plays, Step(Playing5.(revision := 4), PlayingChanged, [], true));
    ArmStep(); Next(Opening[..5], Playing5, Arms, Step(Armed6.(revision := 5), OperationTransitionAccepted, [], true));
    StartStep();
    Next(Opening[..6], Armed6, Starts,
      Step(Live7.(revision := 6), OperationTransitionAccepted, [ExecuteCue(Request1)], true));
  }

  lemma Nothing()
    ensures Reaches([], InitialShow)
  {
  }

  // ----- What can happen to a live show ------------------------------------------------

  lemma AfterOpening(more: seq<Event>)
    ensures Reached(Opening + more, 6) == Run(InitialState, Opening[..6])
    ensures Reached(Opening + more, 7) == Run(InitialState, Opening)
    ensures |more| > 0 ==> Reached(Opening + more, 8) == Run(InitialState, Opening + [more[0]])
  {
    assert (Opening + more)[..6] == Opening[..6] && (Opening + more)[..7] == Opening;
    if |more| > 0 { assert (Opening + more)[..8] == Opening + [more[0]]; }
  }

  const Relands := Seen7(5, PlaybackPositionSeeked(1, 10, 0))

  lemma RelandStep()
    ensures ReduceShow(Live7, Relands)
      == Ok(Step(Live7.(sourceSequences := map[7 := 5], outputSequence := 2), PhraseExecutionScheduled,
                 [ExecuteCue(Request1.(commandId := 2))], true))
  {
    Overwrites(7, 4, 5);
    Overwrites(7, 0, 0);
    assert PhraseIndexAtBeat(Track.phrases, 0) == Some(0);
    assert Live7.decks[1 := Live7.decks[1].(phraseIndex := Some(0))] == Playing(Some(0), true);
  }

  /** A seek makes the same cue go out again: both sends of this run are the same execution. */
  lemma ResentAfterASeek()
    ensures var es := Opening + [Relands];
      Sends(Reached(es, 6), es[6], Sent) && Sends(Reached(es, 7), es[7], Sent)
        && Clears(Reached(es, 7), es[7], Sent.deck)
  {
    hide ReduceShow, Run, Reached;
    GoesLive();
    AfterOpening([Relands]);
    RelandStep();
    Next(Opening, Live7, Relands,
         Step(Live7.(sourceSequences := map[7 := 5], outputSequence := 2), PhraseExecutionScheduled,
              [ExecuteCue(Request1.(commandId := 2))], true));
    var es := Opening + [Relands];
    assert es[6] == Starts && es[7] == Relands;
    assert ExecuteCue(Request1) in Emitted(Reached(es, 6), es[6]);
    assert ExecuteCue(Request1.(commandId := 2)) in Emitted(Reached(es, 7), es[7]);
  }

  const PausesShow := UserCommand(2, 3, 7, 0, Pause)
  const Restarts := UserCommand(2, 4, 8, 0, Start)
  const Paused8 := Live7.(revision := 8, operation := Paused, commandSequences := map[2 := 3], lastCue := None)

  lemma PauseStep()
    ensures ReduceShow(Live7, PausesShow) ==
      Ok(Step(
        Paused8.(revision := 7), OperationTransitionAccepted, [EnsureOutputClosed(OperationTransitionAccepted)], true))
  {
    Overwrites(2, 2, 3);
  }

  const Restarted := Paused8.(operation := Live, commandSequences := map[2 := 4])

  lemma RestartExecutes()
    ensures ExecutionEffect(Restarted, 1, 10, 0, 0) ==
      Ok(Scheduling(Restarted.(outputSequence := 2, lastCue := Some(Sent)), [ExecuteCue(Request1.(commandId := 2))]))
  {
  }

  lemma RestartStep()
    ensures ReduceShow(Paused8, Restarts) ==
      Ok(Step(Paused8.(operation := Live, commandSequences := map[2 := 4], outputSequence := 2, lastCue := Some(Sent)),
              OperationTransitionAccepted, [ExecuteCue(Request1.(commandId := 2))], true))
  {
    Overwrites(2, 3, 4);
    RestartExecutes();
    hide ExecutionEffect;
  }

  /** After a Pause the output is ordered closed, and the next Start sends the look again. */
  lemma ClosedAndReopened()
    ensures var es := Opening + [PausesShow, Restarts];
      Closes(Reached(es, 7), es[7]) && SendsAny(Reached(es, 8), es[8])
  {
    hide ReduceShow, Run, Reached;
    GoesLive();
    AfterOpening([PausesShow, Restarts]);
    PauseStep();
    Next(Opening, Live7, PausesShow,
         Step(Paused8.(revision := 7), OperationTransitionAccepted, [EnsureOutputClosed(OperationTransitionAccepted)],
              true));
    RestartStep();
    Next(Opening + [PausesShow], Paused8, Restarts,
         Step(Paused8.(operation := Live, commandSequences := map[2 := 4], outputSequence := 2, lastCue := Some(Sent)),
              OperationTransitionAccepted, [ExecuteCue(Request1.(commandId := 2))], true));
    var es := Opening + [PausesShow, Restarts];
    assert es[7] == PausesShow && es[8] == Restarts;
    assert EnsureOutputClosed(OperationTransitionAccepted) in Emitted(Reached(es, 7), es[7]);
    assert ExecuteCue(Request1.(commandId := 2)) in Emitted(Reached(es, 8), es[8]);
  }

  const Overloads := QueueOverloaded(Overload(0, KindObservation, false, 1))
  const Degraded8 := Live7.(revision := 8, operation := Paused, health := Degraded)

  lemma OverloadStep()
    ensures ReduceShow(Live7, Overloads) ==
      Ok(Step(Degraded8.(revision := 7), QueueSaturated, [EnsureOutputClosed(QueueSaturated)], true))
  {
  }

  lemma DarkStep()
    ensures LookIsDue(Degraded8)
    ensures ReduceShow(Degraded8, Restarts) ==
      Ok(Step(Degraded8.(operation := Live, commandSequences := map[2 := 4]), OperationTransitionAccepted, [], true))
  {
    Overwrites(2, 2, 4);
  }

  /** After an overload pause an accepted Start leaves a due look dark. */
  lemma DarkAfterAnOverload()
    ensures var es := Opening + [Overloads, Restarts];
      && Pauses(Reached(es, 7), es[7]) && AcceptsCommand(Reached(es, 8), es[8], Start)
      && LookIsDue(Reached(es, 8).show) && Emitted(Reached(es, 8), es[8]) == []
  {
    hide ReduceShow, Run, Reached;
    GoesLive();
    AfterOpening([Overloads, Restarts]);
    OverloadStep();
    Next(Opening, Live7, Overloads,
      Step(Degraded8.(revision := 7), QueueSaturated, [EnsureOutputClosed(QueueSaturated)], true));
    DarkStep();
    Next(Opening + [Overloads], Degraded8, Restarts,
         Step(Degraded8.(operation := Live, commandSequences := map[2 := 4]), OperationTransitionAccepted, [], true));
    var es := Opening + [Overloads, Restarts];
    assert es[7] == Overloads && es[8] == Restarts;
  }

  // ----- Changes without a new revision ------------------------------------------------

  const Renamed := Track.(id := 200)
  const Hydrates := Observation(8, 1, 0, TrackMetadataHydrated(1, Renamed, 10))
  const Hydrated7 := Live7.(
    decks := map[1 := Live7.decks[1].(metadata := Renamed)],
    sourceSequences := map[7 := 4, 8 := 1], sourceTimes := map[7 := 0, 8 := 0])

  lemma HydrationPlacement()
    ensures Hydrate(Enveloped(Live7, Hydrates), 1, Renamed, 10) == Placement(Hydrated7, MetadataHydrated, None)
  {
    assert PhraseIndexAtBeat(Renamed.phrases, 0) == Some(0);
    hide PhraseIndexAtBeat;
    assert Live7.decks[1 := Live7.decks[1].(metadata := Renamed)] == Hydrated7.decks;
  }

  lemma HydrationStep()
    ensures ReduceShow(Live7, Hydrates) == Ok(Step(Hydrated7, MetadataHydrated, [], false))
  {
    hide Hydrate;
    HydrationPlacement();
    hide Enveloped;
  }

  /** A hydration that alters the deck of a live show, without a new revision. */
  lemma HydratesSilently()
    ensures Silent(ReduceShow(Reached(Opening + [Hydrates], 7).show, Hydrates), Reached(Opening + [Hydrates], 7).show)
  {
    GoesLive();
    AfterOpening([Hydrates]);
    HydrationStep();
    hide ReduceShow, Run, Reached;
    assert Hydrated7.decks[1] != Live7.decks[1];
  }

  const LeadsWrongly := Observation(8, 1, 0, LeaderChanged(1, 99))

  const Planless7 := Live7.(
    activePlan := None, sourceSequences := map[7 := 4, 8 := 1], sourceTimes := map[7 := 0, 8 := 0])

  lemma WrongLeadPlacement()
    ensures Place(Enveloped(Live7, LeadsWrongly), 8, 0, LeadsWrongly.observation)
      == Placement(Planless7, TrackLoadMismatch, None)
  {
    hide Framed, DueNow;
  }

  lemma WrongLeadStep()
    ensures ReduceShow(Live7, LeadsWrongly) == Ok(Step(Planless7, TrackLoadMismatch, [], false))
  {
    hide Place, Enveloped, ExecutionEffect;
    WrongLeadPlacement();
  }

  /** A leader report for a load that is not there drops the active plan of a live show, without a new revision. */
  lemma DropsThePlanSilently()
    ensures Silent(ReduceShow(Reached(Opening + [LeadsWrongly], 7).show, LeadsWrongly),
      Reached(Opening + [LeadsWrongly], 7).show)
  {
    GoesLive();
    AfterOpening([LeadsWrongly]);
    WrongLeadStep();
    hide ReduceShow, Run, Reached;
  }

  // ----- Plans -------------------------------------------------------------------------

  const Revision2 := Prepared.(revision := 2)
  const Revises2 := EffectCompleted(3, 2, 0, PlanGenerated(Revision2))

  lemma RefusedStep()
    ensures ReduceShow(Hydrated7, Revises2)
      == Ok(Step(Hydrated7.(effectSequences := map[3 := 2]), PlanTrackLoadMismatch, [], false))
  {
    Overwrites(3, 1, 2);
  }

  /** After a hydration that names another track, the next revision of the stored plan is refused. */
  lemma RevisionRefusedAfterHydration()
    ensures var es := Opening + [Hydrates, Revises2];
      Accepts(Reached(es, 8), es[8], PlanTrackLoadMismatch) && Reached(es, 8).show.plans == map[1 := Prepared]
  {
    hide ReduceShow, Run, Reached;
    GoesLive();
    AfterOpening([Hydrates, Revises2]);
    HydrationStep();
    Next(Opening, Live7, Hydrates, Step(Hydrated7, MetadataHydrated, [], false));
    RefusedStep();
    Next(Opening + [Hydrates], Hydrated7, Revises2,
         Step(Hydrated7.(effectSequences := map[3 := 2]), PlanTrackLoadMismatch, [], false));
    assert (Opening + [Hydrates, Revises2])[8] == Revises2;
  }

  const Held := Prepared.(
    revision := 2, status := Fallback, theme := None, cues := [Cue(1, 0, 0, 64, HoldCurrentLook, FallbackCue)])
  const FallsBack := EffectCompleted(3, 2, 0, PlanGenerated(Held))
  const LeadsAgain := Seen7(5, LeaderChanged(1, 10))
  const Held8 :=
    Live7.(revision := 8, plans := map[1 := Held], activePlan := Some(Held), effectSequences := map[3 := 2])

  lemma FallbackStep()
    ensures ReduceShow(Live7, FallsBack) == Ok(Step(Held8.(revision := 7), PlanAccepted, [], true))
  {
    Overwrites(3, 1, 2);
    assert map[1 := Prepared][1 := Held] == map[1 := Held];
  }

  lemma LeadAgainStep()
    ensures ReduceShow(Held8, LeadsAgain)
      == Ok(Step(Held8.(activePlan := None, sourceSequences := map[7 := 5]), PlanActivationSkipped, [], true))
  {
    Overwrites(7, 4, 5);
    Overwrites(7, 0, 0);
  }

  lemma HeldIsValid()
    ensures ValidPlan(Held)
  {
    assert CueSpans(Held.cues) == [Span(0, 64)];
    assert Linked([Span(0, 64)], 0);
    assert Held.cues[0].origin == FallbackCue;
  }

  /** A valid fallback plan is active on the leading deck until the leader is reported again. */
  lemma FallbackIsActiveUntilTheNextReport()
    ensures ValidPlan(Held)
    ensures var es := Opening + [FallsBack, LeadsAgain];
      Reached(es, 8).show.activePlan == Some(Held) && Run(InitialState, es).show.activePlan.None?
  {
    hide ReduceShow, Run, Reached;
    HeldIsValid();
    GoesLive();
    AfterOpening([FallsBack, LeadsAgain]);
    FallbackStep();
    Next(Opening, Live7, FallsBack, Step(Held8.(revision := 7), PlanAccepted, [], true));
    LeadAgainStep();
    Next(Opening + [FallsBack], Held8, LeadsAgain,
         Step(Held8.(activePlan := None, sourceSequences := map[7 := 5]), PlanActivationSkipped, [], true));
    assert Opening + [FallsBack] + [LeadsAgain] == Opening + [FallsBack, LeadsAgain];
  }

  // ----- All these runs are fed with constructed tracks and valid plans ----------------

  lemma TracksAreValid()
    ensures ValidTrack(Track) && ValidTrack(Renamed)
  {
    assert PhraseSpans(Track.phrases) == [Span(0, 64)];
    assert Linked([Span(0, 64)], 0);
  }

  lemma PlansAreValid()
    ensures ValidPlan(Prepared) && ValidPlan(Revision2)
  {
    assert CueSpans(Prepared.cues) == [Span(0, 64)];
    assert Linked([Span(0, 64)], 0);
    assert forall i :: 0 <= i < |Prepared.cues| ==> Prepared.cues[i].origin == Automatic;
  }

  lemma OpeningIsAdmissible(more: seq<Event>)
    requires AllAdmissible(more)
    ensures AllAdmissible(Opening + more)
  {
    TracksAreValid();
    PlansAreValid();
    hide ValidTrack, ValidPlan;
    assert AllAdmissible(Opening);
    hide Admissible;
  }

  lemma RunsAreAdmissible()
    ensures AllAdmissible(Opening + [Relands]) && AllAdmissible(Opening + [PausesShow, Restarts])
    ensures AllAdmissible(Opening + [Overloads, Restarts]) && AllAdmissible(Opening + [Hydrates])
    ensures AllAdmissible(Opening + [LeadsWrongly]) && AllAdmissible(Opening + [Hydrates, Revises2])
    ensures AllAdmissible(Opening + [FallsBack, LeadsAgain])
  {
    TracksAreValid();
    PlansAreValid();
    HeldIsValid();
    hide ValidTrack, ValidPlan;
    OpeningIsAdmissible([Relands]);
    OpeningIsAdmissible([PausesShow, Restarts]);
    OpeningIsAdmissible([Overloads, Restarts]);
    OpeningIsAdmissible([Hydrates]);
    OpeningIsAdmissible([LeadsWrongly]);
    OpeningIsAdmissible([Hydrates, Revises2]);
    OpeningIsAdmissible([FallsBack, LeadsAgain]);
  }
}
