/** Theorems about whole runs of the reducer, from the initial state. */
module ShowTheorems {
  import opened Domain
  import opened Reducer
  import opened ShowRuns

  /** The reachable state in which event `i` is reduced. */
  function Reached(es: seq<Event>, i: nat): State
    requires i <= |es|
  {
    At(InitialState, es, i)
  }

  predicate Accepts(s: State, e: Event, d: Decision) {
    var r := Reduce(s, e);
    r.Ok? && r.value.decision == d
  }

  predicate AcceptsCommand(s: State, e: Event, c: OperationCommand) {
    e.UserCommand? && e.command == c && Accepts(s, e, OperationTransitionAccepted)
  }

  predicate Clears(s: State, e: Event, deck: DeckId) {
    var r := Reduce(s, e);
    ClearsRecordOf(e, deck) && r.Ok? && !Ignored(r.value.decision)
  }

  lemma ReachedStep(es: seq<Event>, i: nat)
    requires i < |es|
    ensures Consistent(Reached(es, i).show)
    ensures Reached(es, i + 1) == Apply(Reached(es, i), es[i])
    ensures var r := ReduceShow(Reached(es, i).show, es[i]);
      r.Ok? ==> Consistent(r.value.show) && StepFacts(Reached(es, i).show, es[i], r.value)
  {
    hide ReduceShow, StepFacts, Coherent;
    RunKeepsConsistent(es[..i]);
    AtNext(InitialState, es, i);
    ShowStep(Reached(es, i).show, es[i]);
  }

  // ----- Output safety -----------------------------------------------------------------

  predicate SendsAny(s: State, e: Event) {
    exists x :: x in Emitted(s, e) && x.ExecuteCue?
  }

  predicate Sends(s: State, e: Event, id: CueIdentity) {
    exists x :: x in Emitted(s, e) && x.ExecuteCue? && x.request.Identity() == id
  }

  predicate Closes(s: State, e: Event) {
    exists x :: x in Emitted(s, e) && x.EnsureOutputClosed?
  }

  /** Every cue sent is the active plan's cue for the phrase the live, playing, leading deck is in. */
  lemma OutputSafety(es: seq<Event>, i: nat, x: Effect)
    requires i < |es| && x in Emitted(Reached(es, i), es[i]) && x.ExecuteCue?
    ensures Current(Reached(es, i + 1).show, x.request)
    ensures Consistent(Reached(es, i + 1).show)
  {
    hide ReduceShow, Coherent;
    RunKeepsConsistent(es[..i + 1]);
    ReachedStep(es, i);
    assert Emitted(Reached(es, i), es[i]) == [x];
  }

  lemma ClosingStep(es: seq<Event>, i: nat)
    requires i < |es| && Closes(Reached(es, i), es[i])
    ensures Reached(es, i + 1).show.operation != Live
  {
    hide ReduceShow, Coherent;
    ReachedStep(es, i);
  }

  lemma SendingStep(es: seq<Event>, i: nat)
    requires i < |es| && SendsAny(Reached(es, i), es[i])
    ensures Reached(es, i).show.operation == Live || AcceptsCommand(Reached(es, i), es[i], Start)
  {
    hide ReduceShow, Coherent;
    ReachedStep(es, i);
  }

  lemma {:induction false} StaysClosed(es: seq<Event>, i: nat, j: nat)
    requires i < j <= |es| && Reached(es, i + 1).show.operation != Live
    requires forall k :: i < k < j ==> !AcceptsCommand(Reached(es, k), es[k], Start)
    ensures Reached(es, j).show.operation != Live
  {
    if i + 1 < j {
      hide ReduceShow, Current, Consistent;
      StaysClosed(es, i, j - 1);
      ReachedStep(es, j - 1);
      assert !AcceptsCommand(Reached(es, j - 1), es[j - 1], Start);
    }
  }

  /** Once the output was ordered closed, nothing is sent until a Start is accepted. */
  lemma ClosedUntilStart(es: seq<Event>, i: nat, j: nat)
    requires i < j < |es|
    requires Closes(Reached(es, i), es[i]) && SendsAny(Reached(es, j), es[j])
    ensures exists k :: i < k <= j && AcceptsCommand(Reached(es, k), es[k], Start)
  {
    hide Reduce;
    ClosingStep(es, i);
    SendingStep(es, j);
    if forall k :: i < k < j ==> !AcceptsCommand(Reached(es, k), es[k], Start) {
      StaysClosed(es, i, j);
    }
  }

  // ----- No cue is sent twice ----------------------------------------------------------

  lemma SentRecord(es: seq<Event>, i: nat, id: CueIdentity)
    requires i < |es| && Sends(Reached(es, i), es[i], id)
    ensures Reached(es, i + 1).show.lastCue == Some(id)
    ensures Reached(es, i).show.lastCue == Some(id) ==> Clears(Reached(es, i), es[i], id.deck)
  {
    hide ReduceShow, Current, Consistent;
    ReachedStep(es, i);
    assert |Emitted(Reached(es, i), es[i])| == 1;
  }

  lemma QuietStep(es: seq<Event>, i: nat, id: CueIdentity)
    requires i < |es| && Reached(es, i).show.lastCue == Some(id)
    requires !Clears(Reached(es, i), es[i], id.deck) && !SendsAny(Reached(es, i), es[i])
    ensures Reached(es, i + 1).show.lastCue == Some(id)
  {
    hide ReduceShow, Current, Coherent;
    ReachedStep(es, i);
    var out := Emitted(Reached(es, i), es[i]);
    assert |out| == 1 ==> out[0] in out;
  }

  lemma {:induction false} RecordPersists(es: seq<Event>, i: nat, j: nat, id: CueIdentity)
    requires i < j <= |es| && Reached(es, i + 1).show.lastCue == Some(id)
    requires forall k :: i < k < j ==> !Clears(Reached(es, k), es[k], id.deck) && !SendsAny(Reached(es, k), es[k])
    ensures Reached(es, j).show.lastCue == Some(id)
  {
    if i + 1 < j {
      hide Reached, Clears, SendsAny;
      RecordPersists(es, i, j - 1, id);
      QuietStep(es, j - 1, id);
    }
  }

  /** Two successive cues never are the same execution, unless a seek, stop, load, unload, Pause or Off
      made it eligible again after the first and no later than the second. */
  lemma NoRepeatedCue(es: seq<Event>, i: nat, j: nat, id: CueIdentity)
    requires i < j < |es| && Sends(Reached(es, i), es[i], id) && Sends(Reached(es, j), es[j], id)
    requires forall k :: i < k < j ==> !SendsAny(Reached(es, k), es[k])
    ensures exists k :: i < k <= j && Clears(Reached(es, k), es[k], id.deck)
  {
    hide Reduce;
    SentRecord(es, i, id);
    SentRecord(es, j, id);
    if forall k :: i < k < j ==> !Clears(Reached(es, k), es[k], id.deck) {
      RecordPersists(es, i, j, id);
    }
  }

  // ----- Counters ----------------------------------------------------------------------

  function RequestsOf(effects: seq<Effect>): seq<Request> {
    if effects == [] then []
    else RequestsOf(effects[..|effects| - 1])
         + (if effects[|effects| - 1].ExecuteCue? then [effects[|effects| - 1].request] else [])
  }

  function Requests(es: seq<Event>): seq<Request> {
    if es == [] then []
    else Requests(es[..|es| - 1]) + RequestsOf(Emitted(Run(InitialState, es[..|es| - 1]), es[|es| - 1]))
  }

  lemma StepRequests(es: seq<Event>, i: nat)
    requires i < |es|
    ensures var out, n := RequestsOf(Emitted(Reached(es, i), es[i])), Reached(es, i).show.outputSequence;
      && |out| <= 1 && Reached(es, i + 1).show.outputSequence == n + |out|
      && (|out| == 1 ==> out[0].commandId == n + 1)
  {
    hide ReduceShow, Current, Consistent;
    ReachedStep(es, i);
    var out := Emitted(Reached(es, i), es[i]);
    assert out == [] || (|out| == 1 && out[..0] == []);
  }

  predicate Consecutive(rs: seq<Request>) {
    forall k :: 0 <= k < |rs| ==> rs[k].commandId == k + 1
  }

  lemma Extended(rs: seq<Request>, more: seq<Request>)
    requires Consecutive(rs) && |more| <= 1 && (|more| == 1 ==> more[0].commandId == |rs| + 1)
    ensures Consecutive(rs + more)
  {
  }

  /** The requests of a run are numbered 1, 2, 3, and so on, without gap or repetition. */
  lemma {:induction false} CommandIdsAreConsecutive(es: seq<Event>)
    ensures |Requests(es)| == Run(InitialState, es).show.outputSequence
    ensures Consecutive(Requests(es))
  {
    if es != [] {
      var n := |es| - 1;
      CommandIdsAreConsecutive(es[..n]);
      StepRequests(es, n);
      assert es[..n + 1] == es;
      Extended(Requests(es[..n]), RequestsOf(Emitted(Reached(es, n), es[n])));
    }
  }

  lemma FirstStepSendsNothing(e: Event)
    ensures var r := ReduceShow(InitialShow, e); r.Ok? ==> r.value.show.outputSequence == 0
  {
    if e.Observation? {
      assert Place(Enveloped(InitialShow, e), e.source, e.observedAt, e.observation).due.None?;
    }
  }

  predicate Counted(s: State) {
    && s.show.revision <= s.journal.processed
    && (s.journal.processed == 0 ==> s.show == InitialShow)
    && (s.journal.processed > 0 ==> s.show.outputSequence < s.journal.processed)
  }

  /** What holds in every reachable state. */
  predicate Sound(s: State) { Consistent(s.show) && Counted(s) }

  lemma ApplyKeepsSound(s: State, e: Event)
    requires Sound(s)
    ensures Sound(Apply(s, e))
  {
    hide ReduceShow, Current, Coherent;
    ShowStep(s.show, e);
    FirstStepSendsNothing(e);
  }

  lemma {:induction false} RunIsSound(es: seq<Event>)
    ensures Sound(Run(InitialState, es))
  {
    if es != [] {
      RunIsSound(es[..|es| - 1]);
      ApplyKeepsSound(Run(InitialState, es[..|es| - 1]), es[|es| - 1]);
    }
  }

  lemma OverflowOnlyWhenFull(s: Show, e: Event)
    ensures ReduceShow(s, e) == Err(OutputCommandSequenceOverflow) ==> s.outputSequence >= U64_MAX
    ensures ReduceShow(s, e) != Err(StateRevisionOverflow)
  {
  }

  lemma SoundStepDoesNotOverflow(s: State, e: Event)
    requires Sound(s) && s.journal.processed <= U64_MAX
    ensures Reduce(s, e) != Err(StateRevisionOverflow)
    ensures Reduce(s, e) != Err(OutputCommandSequenceOverflow)
  {
    hide ReduceShow, Current, Coherent;
    ShowStep(s.show, e);
    OverflowOnlyWhenFull(s.show, e);
  }

  lemma {:induction false} ProcessedFits(es: seq<Event>)
    ensures Run(InitialState, es).journal.processed <= U64_MAX
  {
    if es != [] {
      hide ReduceShow;
      ProcessedFits(es[..|es| - 1]);
    }
  }

  /** In every reachable state neither the revision nor the command counter can overflow: both stay within the number
      of processed events, so a run stops at the event counter first. */
  lemma NoCounterOverflow(es: seq<Event>, e: Event)
    ensures Reduce(Run(InitialState, es), e) != Err(StateRevisionOverflow)
    ensures Reduce(Run(InitialState, es), e) != Err(OutputCommandSequenceOverflow)
  {
    hide Reduce, Run, Sound;
    RunIsSound(es);
    ProcessedFits(es);
    SoundStepDoesNotOverflow(Run(InitialState, es), e);
  }
}
