/** Which tracks and plans are well formed, and what that buys the reducer. */
module Validation {
  import opened Domain
  import opened Reducer
  import opened ShowRuns
  import opened Spans

  // ----- Tracks ------------------------------------------------------------------------

  datatype TrackError =
    | EmptyTitle | EmptyArtist | BpmOutOfRange(bpm: nat) | EmptyDuration | EmptyPhrases | UnorderedPhraseIndex
    | InvalidPhraseRange | IncompletePhraseCoverage

  function PhraseSpans(ps: seq<TrackPhrase>): (r: seq<Span>)
    ensures |r| == |ps|
  {
    seq(|ps|, i requires 0 <= i < |ps| => Span(ps[i].startBeat, ps[i].endBeat))
  }

  predicate ValidTrack(m: TrackMetadata) {
    && ValidFacts(m)
    && (forall i :: 0 <= i < |m.phrases| ==> m.phrases[i].index == i) && Tiles(PhraseSpans(m.phrases), m.durationBeats)
  }

  /** A track of which only the facts are known. Live decks load such tracks until their analysis is found. */
  predicate Unanalysed(m: TrackMetadata) { ValidFacts(m) && m.phrases == [] }

  /** What the two constructors of metadata let through. */
  predicate Constructed(m: TrackMetadata) { ValidTrack(m) || Unanalysed(m) }

  /** What is reported about the facts. */
  function FactsDefect(titled: bool, credited: bool, bpmMilli: nat, durationBeats: nat): Option<TrackError> {
    if !titled then Some(EmptyTitle)
    else if !credited then Some(EmptyArtist)
    else if !TempoInRange(bpmMilli) then Some(BpmOutOfRange(bpmMilli))
    else if durationBeats == 0 then Some(EmptyDuration)
    else None
  }

  method ValidateFacts(titled: bool, credited: bool, bpmMilli: nat, durationBeats: nat)
    returns (error: Option<TrackError>)
    ensures error == FactsDefect(titled, credited, bpmMilli, durationBeats)
    ensures error.None? <==> titled && credited && TempoInRange(bpmMilli) && durationBeats > 0
  {
    if !titled { return Some(EmptyTitle); }
    if !credited { return Some(EmptyArtist); }
    if !(20_000 <= bpmMilli <= 300_000) { return Some(BpmOutOfRange(bpmMilli)); }
    if durationBeats == 0 { return Some(EmptyDuration); }
    error := None;
  }

  datatype Construction = Made(metadata: TrackMetadata) | Refused(error: TrackError)

  /** Metadata without analysis exists exactly for valid facts, and no phrase is found in it at any beat. */
  method NewUnanalysed(titled: bool, credited: bool, id: nat, bpmMilli: nat, durationBeats: nat)
    returns (r: Construction)
    ensures r.Made? <==> titled && credited && TempoInRange(bpmMilli) && durationBeats > 0
    ensures r.Made? ==> Unanalysed(r.metadata) && r.metadata.id == id && r.metadata.bpmMilli == bpmMilli
    ensures r.Made? ==> r.metadata.durationBeats == durationBeats
    ensures r.Made? ==> forall beat :: PhraseIndexAtBeat(r.metadata.phrases, beat).None?
    ensures r.Refused? ==> Some(r.error) == FactsDefect(titled, credited, bpmMilli, durationBeats)
  {
    var error := ValidateFacts(titled, credited, bpmMilli, durationBeats);
    r := if error.Some? then Refused(error.value) else Made(TrackMetadata(id, bpmMilli, durationBeats, []));
  }

  /** What is wrong with phrase `i` when those before it are in order. */
  function PhraseDefect(m: TrackMetadata, i: nat): Option<TrackError>
    requires i < |m.phrases|
  {
    if m.phrases[i].index != i then Some(UnorderedPhraseIndex)
    else if !Linked(PhraseSpans(m.phrases), i) || m.phrases[i].endBeat > m.durationBeats then Some(InvalidPhraseRange)
    else None
  }

  function FirstPhraseDefect(m: TrackMetadata, n: nat): Option<TrackError>
    requires n <= |m.phrases|
  {
    if n == 0 then None
    else
      var before := FirstPhraseDefect(m, n - 1);
      if before.Some? then before else PhraseDefect(m, n - 1)
  }

  lemma {:induction false} PhraseDefectStays(m: TrackMetadata, k: nat, n: nat)
    requires k <= n <= |m.phrases| && FirstPhraseDefect(m, k).Some?
    ensures FirstPhraseDefect(m, n) == FirstPhraseDefect(m, k)
  {
    if k < n { PhraseDefectStays(m, k, n - 1); }
  }

  /** What is reported about analysed metadata. */
  function TrackDefect(titled: bool, credited: bool, m: TrackMetadata): Option<TrackError> {
    var facts := FactsDefect(titled, credited, m.bpmMilli, m.durationBeats);
    if facts.Some? then facts
    else if m.phrases == [] then Some(EmptyPhrases)
    else if FirstPhraseDefect(m, |m.phrases|).Some? then FirstPhraseDefect(m, |m.phrases|)
    else if m.phrases[|m.phrases| - 1].endBeat != m.durationBeats then Some(IncompletePhraseCoverage)
    else None
  }

  /** Analysed metadata is accepted exactly when its phrases are numbered in order and tile the track; otherwise the
      first defect is reported. */
  method ValidateTrack(titled: bool, credited: bool, m: TrackMetadata) returns (error: Option<TrackError>)
    ensures error == TrackDefect(titled, credited, m)
    ensures error.None? <==> titled && credited && ValidTrack(m)
  {
    error := ValidateFacts(titled, credited, m.bpmMilli, m.durationBeats);
    if error.Some? { return; }
    if m.phrases == [] { return Some(EmptyPhrases); }
    ghost var ss := PhraseSpans(m.phrases);
    var previousEnd := 0;
    for i := 0 to |m.phrases|
      invariant forall k :: 0 <= k < i ==> m.phrases[k].index == k
      invariant forall k :: 0 <= k < i ==> Linked(ss, k)
      invariant previousEnd == if i == 0 then 0 else m.phrases[i - 1].endBeat
      invariant FirstPhraseDefect(m, i).None?
    {
      var p := m.phrases[i];
      assert ss[i] == Span(p.startBeat, p.endBeat);
      assert Tiles(ss, m.durationBeats) ==> Linked(ss, i);
      if PhraseDefect(m, i).Some? { PhraseDefectStays(m, i + 1, |m.phrases|); }
      if p.index != i { return Some(UnorderedPhraseIndex); }
      if p.startBeat != previousEnd || p.endBeat <= p.startBeat { return Some(InvalidPhraseRange); }
      if p.endBeat > m.durationBeats {
        if Tiles(ss, m.durationBeats) { Bounded(ss, m.durationBeats, i); }
        return Some(InvalidPhraseRange);
      }
      previousEnd := p.endBeat;
    }
    if previousEnd != m.durationBeats { return Some(IncompletePhraseCoverage); }
    error := None;
  }

  /** In a valid track a lookup finds a phrase at exactly the beats of the track, and it finds phrase `i` exactly
      at the beats of phrase `i`. */
  lemma LookupIsExact(m: TrackMetadata, beat: nat)
    requires ValidTrack(m)
    ensures PhraseIndexAtBeat(m.phrases, beat).Some? <==> beat < m.durationBeats
    ensures forall i :: 0 <= i < |m.phrases| ==>
      (PhraseIndexAtBeat(m.phrases, beat) == Some(i) <==> Covers(m.phrases[i], beat))
  {
    var ss, found := PhraseSpans(m.phrases), PhraseIndexAtBeat(m.phrases, beat);
    if beat < m.durationBeats {
      var i := Tile(ss, m.durationBeats, |ss|, beat);
      assert Covers(m.phrases[i], beat);
    }
    if found.Some? {
      var k :| 0 <= k < |m.phrases| && Covers(m.phrases[k], beat) && m.phrases[k].index == found.value;
      Bounded(ss, m.durationBeats, k);
    }
    forall i | 0 <= i < |m.phrases| ensures found == Some(i) <==> Covers(m.phrases[i], beat) {
      if Covers(m.phrases[i], beat) {
        assert m.phrases[i] in m.phrases;
        var k :| 0 <= k < |m.phrases| && Covers(m.phrases[k], beat) && m.phrases[k].index == found.value;
        if i < k { Ordered(ss, m.durationBeats, i, k); } else if k < i { Ordered(ss, m.durationBeats, k, i); }
      }
    }
  }

  // ----- Plans -------------------------------------------------------------------------

  datatype PlanError =
    | ZeroRevision | ZeroConfigurationRevision | EmptyTrackDuration | EmptyCues | DuplicateCueId(id: nat)
    | UnorderedCueIndex | InvalidCueRange | IncompleteCueCoverage | FallbackCueInReadyPlan
    | FallbackPlanWithoutFallbackCue | MissingThemeDecision | ThemeDecisionInFallbackPlan
    | InconsistentThemeDecision | RevisionOverflow

  function CueSpans(cues: seq<Cue>): (r: seq<Span>)
    ensures |r| == |cues|
  {
    seq(|cues|, i requires 0 <= i < |cues| => Span(cues[i].startBeat, cues[i].endBeat))
  }

  predicate HasFallback(cues: seq<Cue>) { exists i :: 0 <= i < |cues| && cues[i].origin == FallbackCue }

  predicate DistinctIds(cues: seq<Cue>) { forall i, j :: 0 <= i < j < |cues| ==> cues[i].id != cues[j].id }

  /** A theme is decided exactly in ready plans, and the first cue shows it. */
  predicate Themed(p: Plan) {
    && (p.theme.Some? <==> p.status == Ready)
    && (p.theme.Some? ==> p.cues != [] && p.cues[0].action.ApplyLook? && p.cues[0].action.theme == p.theme.value)
  }

  predicate ValidPlan(p: Plan) {
    && p.revision > 0 && p.configuration > 0 && p.durationBeats > 0
    && DistinctIds(p.cues) && (forall i :: 0 <= i < |p.cues| ==> p.cues[i].phraseIndex == i)
    && Tiles(CueSpans(p.cues), p.durationBeats)
    && (HasFallback(p.cues) <==> p.status == Fallback) && Themed(p)
  }

  predicate InOrder(cues: seq<Cue>) {
    && DistinctIds(cues) && (forall i :: 0 <= i < |cues| ==> cues[i].phraseIndex == i)
    && (forall i :: 0 <= i < |cues| ==> Linked(CueSpans(cues), i))
  }

  function Ids(cues: seq<Cue>, n: nat): set<nat>
    requires n <= |cues|
  {
    if n == 0 then {} else Ids(cues, n - 1) + {cues[n - 1].id}
  }

  lemma {:induction false} IdsExactly(cues: seq<Cue>, n: nat, id: nat)
    requires n <= |cues|
    ensures id in Ids(cues, n) <==> exists k :: 0 <= k < n && cues[k].id == id
  {
    if n > 0 { IdsExactly(cues, n - 1, id); }
  }

  /** What is wrong with cue `i` when those before it are in order. */
  function CueDefect(cues: seq<Cue>, i: nat): Option<PlanError>
    requires i < |cues|
  {
    if cues[i].id in Ids(cues, i) then Some(DuplicateCueId(cues[i].id))
    else if cues[i].phraseIndex != i then Some(UnorderedCueIndex)
    else if !Linked(CueSpans(cues), i) then Some(InvalidCueRange)
    else None
  }

  function FirstCueDefect(cues: seq<Cue>, n: nat): Option<PlanError>
    requires n <= |cues|
  {
    if n == 0 then None
    else
      var before := FirstCueDefect(cues, n - 1);
      if before.Some? then before else CueDefect(cues, n - 1)
  }

  lemma {:induction false} CueDefectStays(cues: seq<Cue>, k: nat, n: nat)
    requires k <= n <= |cues| && FirstCueDefect(cues, k).Some?
    ensures FirstCueDefect(cues, n) == FirstCueDefect(cues, k)
  {
    if k < n { CueDefectStays(cues, k, n - 1); }
  }

  lemma {:induction false} InOrderExactly(cues: seq<Cue>, n: nat)
    requires n <= |cues|
    ensures FirstCueDefect(cues, n).None? <==>
      && (forall i, j :: 0 <= i < j < n ==> cues[i].id != cues[j].id)
      && (forall i :: 0 <= i < n ==> cues[i].phraseIndex == i) && (forall i :: 0 <= i < n ==> Linked(CueSpans(cues), i))
  {
    if n > 0 {
      InOrderExactly(cues, n - 1);
      IdsExactly(cues, n - 1, cues[n - 1].id);
      hide CueSpans, Ids;
    }
  }

  lemma InOrderIsWithoutDefect(cues: seq<Cue>)
    ensures FirstCueDefect(cues, |cues|).None? <==> InOrder(cues)
  {
    InOrderExactly(cues, |cues|);
    hide FirstCueDefect, Linked;
  }

  /** The pass over the cues: the first defect, where they end, and whether one is a fallback. */
  method ScanCues(cues: seq<Cue>) returns (error: Option<PlanError>, end: nat, fallback: bool)
    ensures error == FirstCueDefect(cues, |cues|)
    ensures error.None? <==> InOrder(cues)
    ensures error.None? ==> end == (if cues == [] then 0 else cues[|cues| - 1].endBeat) && fallback == HasFallback(cues)
  {
    hide InOrder;
    InOrderIsWithoutDefect(cues);
    ghost var ss := CueSpans(cues);
    var ids: set<nat> := {};
    end, fallback := 0, false;
    for i := 0 to |cues|
      invariant ids == Ids(cues, i) && FirstCueDefect(cues, i).None?
      invariant end == if i == 0 then 0 else cues[i - 1].endBeat
      invariant fallback <==> exists k :: 0 <= k < i && cues[k].origin == FallbackCue
    {
      var cue := cues[i];
      assert ss[i] == Span(cue.startBeat, cue.endBeat) && (i > 0 ==> ss[i - 1].end == end);
      if CueDefect(cues, i).Some? { CueDefectStays(cues, i + 1, |cues|); }
      if cue.id in ids { return Some(DuplicateCueId(cue.id)), end, fallback; }
      ids := ids + {cue.id};
      if cue.phraseIndex != i { return Some(UnorderedCueIndex), end, fallback; }
      if cue.startBeat != end || cue.endBeat <= cue.startBeat { return Some(InvalidCueRange), end, fallback; }
      end := cue.endBeat;
      fallback := fallback || cue.origin == FallbackCue;
    }
    error := None;
  }

  /** What is wrong with the status, the theme and the length of a plan whose cues are in order. */
  function PlanDefect(p: Plan): Option<PlanError>
    requires p.cues != []
  {
    if p.status == Ready && HasFallback(p.cues) then Some(FallbackCueInReadyPlan)
    else if p.status == Fallback && !HasFallback(p.cues) then Some(FallbackPlanWithoutFallbackCue)
    else if p.status == Ready && p.theme.None? then Some(MissingThemeDecision)
    else if p.status == Fallback && p.theme.Some? then Some(ThemeDecisionInFallbackPlan)
    else if !Themed(p) then Some(InconsistentThemeDecision)
    else if p.cues[|p.cues| - 1].endBeat != p.durationBeats then Some(IncompleteCueCoverage)
    else None
  }

  /** What is reported about a plan. */
  function PlanProblem(p: Plan): Option<PlanError> {
    if p.revision == 0 then Some(ZeroRevision)
    else if p.configuration == 0 then Some(ZeroConfigurationRevision)
    else if p.durationBeats == 0 then Some(EmptyTrackDuration)
    else if p.cues == [] then Some(EmptyCues)
    else if FirstCueDefect(p.cues, |p.cues|).Some? then FirstCueDefect(p.cues, |p.cues|)
    else PlanDefect(p)
  }

  lemma ProblemExactly(p: Plan)
    ensures PlanProblem(p).None? <==> ValidPlan(p)
  {
    InOrderExactly(p.cues, |p.cues|);
    hide FirstCueDefect, HasFallback;
  }

  /** A plan is accepted exactly when its cues tile the track in phrase order under distinct identifiers, its
      status says whether a fallback cue is among them, and its theme fits its first cue; otherwise the first defect
      is reported. */
  method ValidatePlan(p: Plan) returns (error: Option<PlanError>)
    ensures error.None? <==> ValidPlan(p)
    ensures error == PlanProblem(p)
  {
    hide FirstCueDefect, HasFallback;
    if p.revision == 0 { return Some(ZeroRevision); }
    if p.configuration == 0 { return Some(ZeroConfigurationRevision); }
    if p.durationBeats == 0 { return Some(EmptyTrackDuration); }
    if p.cues == [] { return Some(EmptyCues); }
    var previousEnd, fallback;
    error, previousEnd, fallback := ScanCues(p.cues);
    if error.Some? { return; }
    if p.status == Ready && fallback { return Some(FallbackCueInReadyPlan); }
    if p.status == Fallback && !fallback { return Some(FallbackPlanWithoutFallbackCue); }
    if p.status == Ready && p.theme.None? { return Some(MissingThemeDecision); }
    if p.status == Fallback && p.theme.Some? { return Some(ThemeDecisionInFallbackPlan); }
    if p.theme.Some? && !(p.cues[0].action.ApplyLook? && p.cues[0].action.theme == p.theme.value) {
      return Some(InconsistentThemeDecision);
    }
    if previousEnd != p.durationBeats { return Some(IncompleteCueCoverage); }
    error := None;
  }

  // ----- What a valid plan means for the reducer ---------------------------------------

  /** While a valid plan is active for the leading deck's load, a cue is found for exactly the phrases the plan
      has, each under its own identifier, and exactly one cue covers each beat of the track. */
  lemma ActivePlanServesItsPhrases(s: Show, plan: Plan, phrase: nat, beat: nat) returns (i: nat)
    requires ValidPlan(plan) && s.activePlan == Some(plan) && s.leader == Some(plan.deck) && beat < plan.durationBeats
    ensures CueFor(s, plan.deck, plan.load, phrase) == if phrase < |plan.cues| then Some(plan.cues[phrase]) else None
    ensures forall other :: 0 <= other < |plan.cues| && other != phrase && phrase < |plan.cues| ==>
      plan.cues[other].id != plan.cues[phrase].id
    ensures i < |plan.cues|
    ensures forall k :: 0 <= k < |plan.cues| ==>
      (plan.cues[k].startBeat <= beat < plan.cues[k].endBeat <==> k == i)
  {
    var ss := CueSpans(plan.cues);
    i := Tile(ss, plan.durationBeats, |ss|, beat);
    forall k | 0 <= k < |plan.cues| && k != i ensures !(plan.cues[k].startBeat <= beat < plan.cues[k].endBeat) {
      if i < k { Ordered(ss, plan.durationBeats, i, k); } else { Ordered(ss, plan.durationBeats, k, i); }
    }
    forall other | 0 <= other < |plan.cues| && other != phrase && phrase < |plan.cues|
      ensures plan.cues[other].id != plan.cues[phrase].id
    {
      if other < phrase {
        assert plan.cues[other].id != plan.cues[phrase].id;
      } else {
        assert plan.cues[phrase].id != plan.cues[other].id;
      }
    }
  }

  /** The same plan with other cues and the next number. */
  function Renumbered(plan: Plan, cues: seq<Cue>, theme: Option<Theme>): Plan {
    plan.(cues := cues, theme := theme, revision := plan.revision + 1)
  }

  datatype Revising = Revised(plan: Plan) | Unrevised(error: PlanError)

  /** A user revision of a stored plan is validated like a new one. */
  function Revise(plan: Plan, cues: seq<Cue>, theme: Option<Theme>): Revising {
    if plan.revision >= U64_MAX then Unrevised(RevisionOverflow)
    else
      var next := Renumbered(plan, cues, theme);
      var problem := PlanProblem(next);
      if problem.Some? then Unrevised(problem.value) else Revised(next)
  }

  /** A stored plan can be revised exactly when there is a number for it and the new cues make a valid plan. The
      reducer takes the revision exactly when the deck still shows the track the plan was made for; metadata hydration
      can change that track while the plan stays stored. */
  lemma RevisionIsAccepted(s: Show, deck: DeckId, cues: seq<Cue>, theme: Option<Theme>)
    requires Consistent(s) && deck in s.plans
    ensures deck in s.decks
    ensures var next, plan := Revise(s.plans[deck], cues, theme), Renumbered(s.plans[deck], cues, theme);
      && (next.Revised? <==> s.plans[deck].revision < U64_MAX && ValidPlan(plan))
      && (next.Revised? ==>
            && next.plan == plan
            && var r := AcceptPlan(s, plan);
            && r.Ok?
            && (r.value.decision == PlanAccepted <==> s.decks[deck].metadata.id == s.plans[deck].track)
            && (r.value.decision == PlanAccepted ==> r.value.show.plans[deck] == plan)
            && (r.value.decision != PlanAccepted ==> r.value.decision == PlanTrackLoadMismatch && r.value.show == s))
  {
    ProblemExactly(Renumbered(s.plans[deck], cues, theme));
    hide PlanProblem, ValidPlan;
  }

  /** Hydration keeps every stored plan, whatever track the new metadata names. */
  lemma HydrationKeepsThePlan(s: Show, deck: DeckId, metadata: TrackMetadata)
    requires Consistent(s) && deck in s.plans
    ensures var h := Hydrate(s, deck, metadata, s.decks[deck].load).show;
      && Consistent(h) && h.plans == s.plans && h.decks[deck].metadata.id == metadata.id
  {
    DeckKeeps(s, 0, 0, TrackMetadataHydrated(deck, metadata, s.decks[deck].load));
  }

  /** An accepted plan becomes active for the leader even as a fallback, but the next report of the same leader
      keeps it active only if it is ready and made for the track on the deck. */
  lemma LeaderReportDropsFallbacks(s: Show, plan: Plan)
    requires Consistent(s) && s.leader == Some(plan.deck) && AcceptPlan(s, plan).Ok?
      && AcceptPlan(s, plan).value.decision == PlanAccepted
    ensures var a := AcceptPlan(s, plan).value.show;
      && a.activePlan == Some(plan)
      && (Lead(a, plan.deck, plan.load).show.activePlan == Some(plan) <==> plan.status == Ready)
      && (plan.status == Fallback ==> Lead(a, plan.deck, plan.load).show.activePlan.None?)
  {
  }
}
