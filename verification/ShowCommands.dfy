/** Commands, duplicates and the journal over whole runs. */
module ShowCommands {
  import opened Domain
  import opened Reducer
  import opened ShowRuns
  import opened ShowTheorems

  // ----- One command per revision ------------------------------------------------------

  predicate AcceptsAnyCommand(s: State, e: Event) {
    e.UserCommand? && Accepts(s, e, OperationTransitionAccepted)
  }

  lemma RevisionStep(es: seq<Event>, i: nat)
    requires i < |es|
    ensures Reached(es, i).show.revision <= Reached(es, i + 1).show.revision <= Reached(es, i).show.revision + 1
    ensures AcceptsAnyCommand(Reached(es, i), es[i]) ==>
      es[i].expectedRevision == Reached(es, i).show.revision < Reached(es, i + 1).show.revision
  {
    hide ReduceObservation, ReduceEffectResult, ExecutionEffect, Current, Coherent;
    ReachedStep(es, i);
  }

  lemma {:induction false} RevisionMonotone(es: seq<Event>, i: nat, j: nat)
    requires i <= j <= |es|
    ensures Reached(es, i).show.revision <= Reached(es, j).show.revision
  {
    if i < j {
      hide Reduce;
      RevisionMonotone(es, i, j - 1);
      RevisionStep(es, j - 1);
    }
  }

  /** The expected revisions of the accepted commands of a run strictly increase, so at most one
      command is accepted per revision. */
  lemma OneCommandPerRevision(es: seq<Event>, i: nat, j: nat)
    requires i < j < |es|
    requires AcceptsAnyCommand(Reached(es, i), es[i]) && AcceptsAnyCommand(Reached(es, j), es[j])
    ensures es[i].expectedRevision < es[j].expectedRevision
  {
    hide Reduce;
    RevisionStep(es, i);
    RevisionMonotone(es, i + 1, j);
    RevisionStep(es, j);
  }

  // ----- Start restores the look -------------------------------------------------------

  /** The leading deck plays a phrase for which the active plan has a cue. */
  predicate LookIsDue(s: Show) {
    && s.leader.Some? && s.leader.value in s.decks
    && var d := s.decks[s.leader.value];
    d.playing && d.phraseIndex.Some? && CueFor(s, s.leader.value, d.load, d.phraseIndex.value).Some?
  }

  function DueIdentity(s: Show): CueIdentity
    requires LookIsDue(s)
  {
    var d := s.decks[s.leader.value];
    var phrase := d.phraseIndex.value;
    CueIdentity(s.leader.value, d.load, phrase, s.activePlan.value.cues[phrase].id, s.activePlan.value.revision)
  }

  /** An accepted Start sends the current look exactly when one is due and it is not recorded as
      scheduled already; it never sends anything else. */
  lemma StartSends(s: State, e: Event)
    requires AcceptsCommand(s, e, Start)
    ensures if LookIsDue(s.show) && s.show.lastCue != Some(DueIdentity(s.show))
            then |Emitted(s, e)| == 1 && Emitted(s, e)[0].ExecuteCue?
                 && Emitted(s, e)[0].request.Identity() == DueIdentity(s.show)
            else Emitted(s, e) == []
  {
    var s1 := s.show.(commandSequences := s.show.commandSequences[e.client := e.commandSequence], operation := Live);
    assert LookIsDue(s1) == LookIsDue(s.show);
  }

  lemma EmptyRecordStep(es: seq<Event>, k: nat)
    requires k < |es| && Reached(es, k).show.lastCue.None? && Reached(es, k).show.operation != Live
    requires !AcceptsCommand(Reached(es, k), es[k], Start) && Reached(es, k + 1).show.operation != Live
    ensures Reached(es, k + 1).show.lastCue.None?
  {
    hide ReduceShow, Current, Coherent, Reached;
    ReachedStep(es, k);
    if SendsAny(Reached(es, k), es[k]) { SendingStep(es, k); }
  }

  lemma {:induction false} RecordStaysEmpty(es: seq<Event>, i: nat, j: nat)
    requires i < j <= |es|
    requires Reached(es, i + 1).show.lastCue.None? && Reached(es, i + 1).show.operation != Live
    requires forall k :: i < k < j ==> !AcceptsCommand(Reached(es, k), es[k], Start)
    ensures Reached(es, j).show.lastCue.None? && Reached(es, j).show.operation != Live
  {
    if i + 1 < j {
      hide Reached, AcceptsCommand;
      RecordStaysEmpty(es, i, j - 1);
      StaysClosed(es, i, j);
      EmptyRecordStep(es, j - 1);
    }
  }

  lemma ClosingCommand(es: seq<Event>, i: nat, c: OperationCommand)
    requires i < |es| && c != Start && AcceptsCommand(Reached(es, i), es[i], c)
    ensures Reached(es, i + 1).show.lastCue.None? && Reached(es, i + 1).show.operation != Live
  {
    hide ReduceObservation, ReduceEffectResult, ExecutionEffect, Current;
    ReachedStep(es, i);
  }

  /** After any accepted Arm, Pause or Off, however long the show stays closed and whatever happens
      meanwhile, the next accepted Start sends the cue that is then due. */
  lemma StartRestoresTheLook(es: seq<Event>, i: nat, j: nat, c: OperationCommand)
    requires i < j < |es| && c != Start && AcceptsCommand(Reached(es, i), es[i], c)
    requires forall k :: i < k < j ==> !AcceptsCommand(Reached(es, k), es[k], Start)
    requires AcceptsCommand(Reached(es, j), es[j], Start) && LookIsDue(Reached(es, j).show)
    ensures Sends(Reached(es, j), es[j], DueIdentity(Reached(es, j).show))
  {
    ClosingCommand(es, i, c);
    RecordStaysEmpty(es, i, j);
    StartSends(Reached(es, j), es[j]);
    assert Emitted(Reached(es, j), es[j])[0] in Emitted(Reached(es, j), es[j]);
  }

  /** A queue overload pauses the show but keeps the record, so a Start right after it leaves the look that was
      already scheduled unsent. */
  lemma OverloadKeepsTheLookDark(s: State, overload: Event, start: Event)
    requires Consistent(s.show) && s.show.operation == Live && LookIsDue(s.show)
    requires s.show.lastCue == Some(DueIdentity(s.show))
    requires overload.QueueOverloaded? && AcceptsCommand(Apply(s, overload), start, Start)
    ensures LookIsDue(Apply(s, overload).show) && Emitted(Apply(s, overload), start) == []
  {
    var t := Apply(s, overload);
    assert t.show == s.show.(health := Degraded, operation := Paused, revision := t.show.revision) || t == s;
    StartSends(t, start);
  }

  /** The event is an overload that pauses a live show. */
  predicate Pauses(s: State, e: Event) { e.QueueOverloaded? && s.show.operation == Live && Reduce(s, e).Ok? }

  /** How a show comes to be paused: it was already and took no command, or it was live and was paused by an overload
      or by an accepted Pause. */
  lemma PausedStep(s: State, e: Event)
    requires Apply(s, e).show.operation == Paused
    ensures if s.show.operation == Paused then !AcceptsAnyCommand(s, e)
            else Pauses(s, e) || AcceptsCommand(s, e, Pause)
  {
    hide ReduceObservation, ReduceEffectResult, ReduceCommand, Record;
    match e
    case Observation(_, _, _, _) => ObservationKeepsOperation(s.show, e);
    case EffectCompleted(_, _, _, _) => ResultKeepsOperation(s.show, e);
    case UserCommand(_, _, _, _, _) => CommandSetsOperation(s.show, e);
    case _ =>
  }

  lemma CommandSetsOperation(s: Show, e: Event)
    requires e.UserCommand?
    ensures var r := ReduceCommand(s, e);
      r.Ok? ==>
        if r.value.decision != OperationTransitionAccepted then r.value.show == s
        else Some(r.value.show.operation) == Target(s.operation, e.command)
  {
    hide CueFor;
  }

  lemma ObservationKeepsOperation(s: Show, e: Event)
    requires e.Observation?
    ensures var r := ReduceObservation(s, e); r.Ok? ==> r.value.show.operation == s.operation
  {
    hide Place, ExecutionEffect;
  }

  lemma ResultKeepsOperation(s: Show, e: Event)
    requires e.EffectCompleted?
    ensures var r := ReduceEffectResult(s, e); r.Ok? ==> r.value.show.operation == s.operation
  {
    hide PushBounded;
  }

  /** Before a paused state that still has a cue on record there was an overload that paused the live show, and no
      command was accepted since. */
  ghost predicate PausedByOverload(es: seq<Event>, j: nat)
    requires j <= |es|
  {
    exists i :: 0 <= i < j && Pauses(Reached(es, i), es[i]) && NoCommands(es, i + 1, j)
  }

  predicate NoCommands(es: seq<Event>, i: nat, j: nat)
    requires j <= |es|
  {
    forall k :: i <= k < j ==> !AcceptsAnyCommand(Reached(es, k), es[k])
  }

  lemma {:induction false} RecordedPauseIsAnOverload(es: seq<Event>, j: nat)
    requires j <= |es| && Reached(es, j).show.operation == Paused && Reached(es, j).show.lastCue.Some?
    ensures PausedByOverload(es, j)
  {
    hide Reduce, AcceptsAnyCommand, AcceptsCommand, Pauses, Coherent, Current;
    if j > 0 {
      var s, e := Reached(es, j - 1), es[j - 1];
      ReachedStep(es, j - 1);
      PausedStep(s, e);
      if s.show.operation == Paused {
        NotAStart(s, e);
        if s.show.lastCue.None? { EmptyRecordStep(es, j - 1); }
        RecordedPauseIsAnOverload(es, j - 1);
        var i :| 0 <= i < j - 1 && Pauses(Reached(es, i), es[i]) && NoCommands(es, i + 1, j - 1);
        assert NoCommands(es, i + 1, j);
      } else if AcceptsCommand(s, e, Pause) {
        ClosingCommand(es, j - 1, Pause);
      } else {
        assert NoCommands(es, j, j);
      }
    }
  }

  lemma NotAStart(s: State, e: Event)
    requires !AcceptsAnyCommand(s, e)
    ensures !AcceptsCommand(s, e, Start)
  {
    hide Reduce;
  }

  /** The overload pause is the only exception: if an accepted Start sends nothing although a look is due, the show was
      paused by an overload while it was live, and no command was accepted between that overload and the Start. */
  lemma OnlyAnOverloadKeepsTheLookDark(es: seq<Event>, j: nat)
    requires j < |es| && AcceptsCommand(Reached(es, j), es[j], Start)
    requires LookIsDue(Reached(es, j).show) && Emitted(Reached(es, j), es[j]) == []
    ensures PausedByOverload(es, j)
  {
    hide Reached, CueFor;
    var s := Reached(es, j);
    StartSends(s, es[j]);
    ReachedStep(es, j);
    assert s.show.operation == Armed || s.show.operation == Paused by { StartFrom(s, es[j]); }
    hide Reduce, AcceptsCommand, LookIsDue, Emitted;
    RecordedPauseIsAnOverload(es, j);
  }

  lemma StartFrom(s: State, e: Event)
    requires AcceptsCommand(s, e, Start)
    ensures s.show.operation == Armed || s.show.operation == Paused
  {
    hide ExecutionEffect;
  }

  // ----- Duplicates --------------------------------------------------------------------

  /** The event carries a sequence number at or below the one already recorded for its sender. */
  predicate AlreadySeen(s: Show, e: Event) {
    match e
    case Observation(source, sequence, _, _) => Seen(s.sourceSequences, source, sequence)
    case UserCommand(client, sequence, _, _, _) => Seen(s.commandSequences, client, sequence)
    case EffectCompleted(worker, sequence, _, _) => Seen(s.effectSequences, worker, sequence)
    case _ => false
  }

  predicate SameDiagnostics(a: seq<Diagnostic>, b: seq<Diagnostic>) {
    |a| == |b| && forall i :: 0 <= i < |a| ==> a[i].(sequence := 0) == b[i].(sequence := 0)
  }

  /** Equal apart from the event counter, the last decision, the timeline and diagnostic numbering. */
  predicate SameShow(s: State, t: State) {
    s.show == t.show && SameDiagnostics(s.journal.diagnostics, t.journal.diagnostics)
  }

  function Log(s: State, es: seq<Event>): seq<Effect> {
    if es == [] then [] else Log(s, es[..|es| - 1]) + Emitted(Run(s, es[..|es| - 1]), es[|es| - 1])
  }

  lemma StepCongruence(s: State, t: State, e: Event)
    requires SameShow(s, t) && s.journal.processed < U64_MAX && t.journal.processed < U64_MAX
    ensures SameShow(Apply(s, e), Apply(t, e)) && Emitted(s, e) == Emitted(t, e)
    ensures Apply(s, e).journal.processed <= s.journal.processed + 1
    ensures Apply(t, e).journal.processed <= t.journal.processed + 1
  {
    hide ReduceShow;
  }

  lemma DuplicateStep(s: State, e: Event)
    requires AlreadySeen(s.show, e) && s.journal.processed < U64_MAX
    ensures SameShow(Apply(s, e), s) && Emitted(s, e) == []
    ensures Apply(s, e).journal.processed == s.journal.processed + 1
  {
  }

  lemma {:induction false} RunCount(s: State, es: seq<Event>)
    requires s.journal.processed + |es| <= U64_MAX
    ensures Run(s, es).journal.processed <= s.journal.processed + |es|
  {
    if es != [] {
      RunCount(s, es[..|es| - 1]);
      var t := Run(s, es[..|es| - 1]);
      StepCongruence(t, t, es[|es| - 1]);
    }
  }

  lemma Snoc(s: State, es: seq<Event>, e: Event)
    ensures Run(s, es + [e]) == Apply(Run(s, es), e)
    ensures Log(s, es + [e]) == Log(s, es) + Emitted(Run(s, es), e)
  {
    assert (es + [e])[..|es|] == es;
  }

  lemma SameStep(s: State, long: seq<Event>, short: seq<Event>, e: Event)
    requires SameShow(Run(s, long), Run(s, short)) && Log(s, long) == Log(s, short)
    requires s.journal.processed + |long| < U64_MAX && s.journal.processed + |short| < U64_MAX
    ensures SameShow(Run(s, long + [e]), Run(s, short + [e])) && Log(s, long + [e]) == Log(s, short + [e])
  {
    RunCount(s, long);
    RunCount(s, short);
    Snoc(s, long, e);
    Snoc(s, short, e);
    StepCongruence(Run(s, long), Run(s, short), e);
  }

  lemma DuplicateAtEnd(s: State, before: seq<Event>, e: Event)
    requires AlreadySeen(Run(s, before).show, e) && s.journal.processed + |before| < U64_MAX
    ensures SameShow(Run(s, before + [e]), Run(s, before)) && Log(s, before + [e]) == Log(s, before)
  {
    RunCount(s, before);
    Snoc(s, before, e);
    DuplicateStep(Run(s, before), e);
  }

  /** Inserting an already seen event anywhere in a run changes neither the effects nor the show. */
  lemma {:induction false} DuplicateIsHarmless(s: State, before: seq<Event>, e: Event, after: seq<Event>)
    requires AlreadySeen(Run(s, before).show, e)
    requires s.journal.processed + |before| + 1 + |after| <= U64_MAX
    ensures SameShow(Run(s, before + [e] + after), Run(s, before + after))
    ensures Log(s, before + [e] + after) == Log(s, before + after)
  {
    if after == [] {
      DuplicateAtEnd(s, before, e);
      assert before + [e] + after == before + [e] && before + after == before;
    } else {
      var rest, last := after[..|after| - 1], after[|after| - 1];
      var long, short := before + [e] + rest, before + rest;
      assert before + [e] + after == long + [last];
      assert before + after == short + [last];
      DuplicateIsHarmless(s, before, e, rest);
      SameStep(s, long, short, last);
    }
  }

  // ----- The journal -------------------------------------------------------------------

  /** The timeline entries of all events a run accepted, oldest first. */
  function Entries(es: seq<Event>): seq<TimelineEntry> {
    if es == [] then []
    else
      var s, e := Run(InitialState, es[..|es| - 1]), es[|es| - 1];
      var r := Reduce(s, e);
      Entries(es[..|es| - 1])
      + (if r.Ok? then [TimelineEntry(s.journal.processed + 1, e.MonotonicTime(), e.Kind(), r.value.decision)] else [])
  }

  lemma JournalStep(s: State, e: Event)
    ensures var r := Reduce(s, e);
      r.Ok? ==>
        && r.value.state.journal.processed == s.journal.processed + 1
        && r.value.state.journal.timeline == PushBounded(s.journal.timeline,
             TimelineEntry(s.journal.processed + 1, e.MonotonicTime(), e.Kind(), r.value.decision),
               MAXIMUM_TIMELINE_ENTRIES)
  {
    hide ReduceShow, PushBounded;
  }

  lemma {:induction false} RunPushesEntries(es: seq<Event>)
    ensures Run(InitialState, es).journal.timeline == PushAll(Entries(es), MAXIMUM_TIMELINE_ENTRIES)
    ensures |Entries(es)| == Run(InitialState, es).journal.processed
  {
    if es != [] {
      RunPushesEntries(es[..|es| - 1]);
      var s, e := Run(InitialState, es[..|es| - 1]), es[|es| - 1];
      JournalStep(s, e);
      var before := Entries(es[..|es| - 1]);
      assert Run(InitialState, es) == Apply(s, e);
      hide Reduce, Run;
      if Reduce(s, e).Ok? { assert Entries(es)[..|Entries(es)| - 1] == before; } else { assert Entries(es) == before; }
    }
  }

  /** The timeline of a reachable state holds exactly the latest 256 decisions, in order, under their numbers. */
  lemma TimelineHoldsTheLatest(es: seq<Event>)
    ensures var all, timeline := Entries(es), Run(InitialState, es).journal.timeline;
      && |all| == Run(InitialState, es).journal.processed
      && timeline == if |all| <= MAXIMUM_TIMELINE_ENTRIES then all else all[|all| - MAXIMUM_TIMELINE_ENTRIES..]
  {
    hide Run, Entries, PushAll;
    RunPushesEntries(es);
    RingKeepsLatest(Entries(es), MAXIMUM_TIMELINE_ENTRIES);
  }

  // ----- Changes without a new revision ------------------------------------------------

  /** The show apart from the bookkeeping of senders. */
  function Visible(s: Show): Show {
    s.(sourceSequences := map[], sourceTimes := map[], commandSequences := map[], effectSequences := map[])
  }

  /** A hydration of the loaded track that alters its metadata or the phrase its position falls in. */
  predicate AltersDeck(s: Show, o: DeckObservation) {
    && o.TrackMetadataHydrated? && Loaded(s, o.deck, o.load)
    && (s.decks[o.deck].metadata != o.metadata
        || s.decks[o.deck].phraseIndex != PhraseIndexAtBeat(o.metadata.phrases, s.decks[o.deck].beat))
  }

  /** A leader report for a load that is not there, while a plan is active. */
  predicate DropsPlan(s: Show, o: DeckObservation) {
    o.LeaderChanged? && !Loaded(s, o.deck, o.load) && s.activePlan.Some?
  }

  predicate InSequence(s: Show, e: Event)
    requires e.Observation?
  {
    !Seen(s.sourceSequences, e.source, e.sequence)
      && !(e.source in s.sourceTimes && e.observedAt < s.sourceTimes[e.source])
  }

  lemma SameDeck(decks: map<DeckId, Deck>, deck: DeckId, d: Deck)
    requires deck in decks
    ensures decks[deck := d] == decks <==> d == decks[deck]
  {
    assert decks[deck := d][deck] == d;
  }

  lemma SilentHydration(s: Show, source: nat, at: Time, o: DeckObservation)
    requires o.TrackMetadataHydrated?
    ensures var p := Place(s, source, at, o);
      p.due.None? && !Revises(p.decision) && (Visible(p.show) != Visible(s) <==> AltersDeck(s, o))
  {
    hide Framed, DueNow, PhraseIndexAtBeat;
    if Loaded(s, o.deck, o.load) { SameDeck(s.decks, o.deck, Place(s, source, at, o).show.decks[o.deck]); }
  }

  lemma SilentPlacement(s: Show, source: nat, at: Time, o: DeckObservation)
    requires !o.TrackMetadataHydrated?
    ensures var p := Place(s, source, at, o);
      p.due.None? && !Revises(p.decision) ==> (Visible(p.show) != Visible(s) <==> DropsPlan(s, o))
    ensures var p := Place(s, source, at, o);
      && (p.due.Some? ==> Revises(p.decision))
      && (DropsPlan(s, o) ==> !Revises(p.decision) && p.due.None?)
  {
    hide Framed, DueNow, PhraseIndexAtBeat, Hydrate;
  }

  /** Whether a step reports no change and yet alters the show. */
  predicate Silent(r: Result<Step>, s: Show) { r.Ok? && !r.value.changed && Visible(r.value.show) != Visible(s) }

  /** An observation alters the visible show without a new revision exactly when it is in sequence and either hydrates
      the loaded track with something new, or reports a leader that is not loaded while a plan is active. */
  lemma SilentObservation(s: Show, e: Event)
    requires e.Observation?
    ensures Silent(ReduceObservation(s, e), s) <==>
      InSequence(s, e) && (AltersDeck(s, e.observation) || DropsPlan(s, e.observation))
  {
    hide Place, ExecutionEffect, PhraseIndexAtBeat;
    var s1 := Enveloped(s, e);
    if e.observation.TrackMetadataHydrated? {
      SilentHydration(s1, e.source, e.observedAt, e.observation);
    } else {
      SilentPlacement(s1, e.source, e.observedAt, e.observation);
    }
  }

  lemma SilentCommand(s: Show, e: Event)
    requires e.UserCommand? && ReduceCommand(s, e).Ok? && !ReduceCommand(s, e).value.changed
    ensures ReduceCommand(s, e).value.show == s
  {
    hide ExecutionEffect, Target;
  }

  lemma SilentPlan(s: Show, plan: Plan)
    requires AcceptPlan(s, plan).Ok? && !AcceptPlan(s, plan).value.changed
    ensures AcceptPlan(s, plan).value.show == s
  {
  }

  lemma SilentEffect(s: Show, e: Event)
    requires e.EffectCompleted? && ReduceEffectResult(s, e).Ok? && !ReduceEffectResult(s, e).value.changed
    ensures Visible(ReduceEffectResult(s, e).value.show) == Visible(s)
  {
    hide PushBounded, AcceptPlan;
    if !Seen(s.effectSequences, e.worker, e.effectSequence) && e.result.PlanGenerated? {
      SilentPlan(s.(effectSequences := s.effectSequences[e.worker := e.effectSequence]), e.result.plan);
    }
  }

  /** No event but these observations alters the visible show without a new revision. */
  lemma SilentChanges(s: Show, e: Event)
    ensures Silent(ReduceShow(s, e), s) <==>
      && e.Observation? && InSequence(s, e)
      && (AltersDeck(s, e.observation) || DropsPlan(s, e.observation))
  {
    hide ReduceObservation, ReduceCommand, ReduceEffectResult, Visible, InSequence, AltersDeck, DropsPlan;
    match e
    case Observation(_, _, _, _) => SilentObservation(s, e);
    case UserCommand(_, _, _, _, _) =>
      if ReduceCommand(s, e).Ok? && !ReduceCommand(s, e).value.changed { SilentCommand(s, e); }
    case EffectCompleted(_, _, _, _) =>
      if ReduceEffectResult(s, e).Ok? && !ReduceEffectResult(s, e).value.changed { SilentEffect(s, e); }
    case _ =>
  }
}
