/** The AutoLoop cue executor: one pending cue, and a watermark of what was completed. */
module Executor {
  import opened Domain

  datatype Target = Target(bank: nat, autoloop: nat)

  datatype Identity = Identity(epoch: nat, deck: DeckId, load: LoadId, revision: nat, phrase: nat)

  datatype Schedule = Schedule(identity: Identity, target: Target, selectBank: bool)

  datatype Progress =
    | Idle
    | Scheduled(identity: Identity, target: Target)
    | BankPrepared(identity: Identity, target: Target)
    | Triggered(identity: Identity, target: Target, expected: nat)
    | Completed(identity: Identity, target: Target)
  {
    function Of(): Option<Identity> { if Idle? then None else Some(identity) }
    predicate Pending() { Scheduled? || BankPrepared? || Triggered? }
  }

  datatype Counts = Counts(
    requested: nat, prepared: nat, triggered: nat, completed: nat,
    duplicates: nat, cancelled: nat, rescheduled: nat, failed: nat)

  datatype Machine = Machine(progress: Progress, watermark: Option<Identity>, epoch: nat, counts: Counts)

  const Initial := Machine(Idle, None, 0, Counts(0, 0, 0, 0, 0, 0, 0, 0))

  function Bump(n: nat): nat { if n < U64_MAX then n + 1 else n }

  // ----- Transitions -------------------------------------------------------------------

  predicate SameContext(a: Identity, b: Identity) {
    a.epoch == b.epoch && a.deck == b.deck && a.load == b.load && a.revision == b.revision
  }

  /** The watermark already covers this cue. */
  predicate Covered(watermark: Option<Identity>, id: Identity) {
    watermark.Some? && SameContext(watermark.value, id) && watermark.value.phrase >= id.phrase
  }

  /** A cue is scheduled unless it is the current one or the watermark covers it. */
  predicate Grants(s: Machine, id: Identity) { s.progress.Of() != Some(id) && !Covered(s.watermark, id) }

  function Cancelled(s: Machine): Machine {
    s.(progress := Idle,
       counts := if s.progress.Pending() then s.counts.(cancelled := Bump(s.counts.cancelled)) else s.counts)
  }

  function EpochBegun(s: Machine): Machine {
    if s.epoch >= U64_MAX then s else Cancelled(s.(epoch := s.epoch + 1, watermark := None))
  }

  function Offered(s: Machine, id: Identity, target: Target): Machine {
    var requested := s.counts.(requested := Bump(s.counts.requested));
    if Grants(s, id) then s.(progress := Scheduled(id, target), counts := requested)
    else s.(counts := requested.(duplicates := Bump(s.counts.duplicates)))
  }

  function Retimed(s: Machine, id: Identity): Machine {
    if s.progress.Of() != Some(id) || s.progress.Completed? then s
    else s.(counts := s.counts.(rescheduled := Bump(s.counts.rescheduled)))
  }

  function Prepared(s: Machine, schedule: Schedule): Machine {
    if s.progress != Scheduled(schedule.identity, schedule.target) then s
    else s.(progress := BankPrepared(schedule.identity, schedule.target),
      counts := s.counts.(prepared := Bump(s.counts.prepared)))
  }

  /** Only the identity is compared, not how far the cue has come. */
  function Fired(s: Machine, schedule: Schedule, expected: nat): Machine {
    if s.progress.Of() != Some(schedule.identity) then s
    else s.(progress := Triggered(schedule.identity, schedule.target, expected),
      counts := s.counts.(triggered := Bump(s.counts.triggered)))
  }

  predicate Completes(s: Machine, emitted: nat) { s.progress.Triggered? && emitted >= s.progress.expected }

  function Confirmed(s: Machine, emitted: nat): Machine {
    if !Completes(s, emitted) then s
    else
      s.(progress := Completed(s.progress.identity, s.progress.target), watermark := Some(s.progress.identity),
         counts := s.counts.(completed := Bump(s.counts.completed)))
  }

  function Failed(s: Machine, id: Identity): Machine {
    if s.progress.Of() != Some(id) then s
    else s.(progress := Idle, counts := s.counts.(failed := Bump(s.counts.failed)))
  }

  class AutoloopCueExecutor {
    var progress: Progress
    var watermark: Option<Identity>
    var epoch: nat
    var counts: Counts

    function View(): Machine
      reads this
    {
      Machine(progress, watermark, epoch, counts)
    }

    constructor ()
      ensures View() == Initial
    {
      progress, watermark, epoch, counts := Idle, None, 0, Counts(0, 0, 0, 0, 0, 0, 0, 0);
    }

    method BeginExecutionEpoch() returns (r: Option<nat>)
      modifies this
      ensures View() == EpochBegun(old(View()))
      ensures r == if old(epoch) < U64_MAX then Some(epoch) else None
    {
      if epoch >= U64_MAX { return None; }
      epoch := epoch + 1;
      watermark := None;
      CancelPending();
      r := Some(epoch);
    }

    method ScheduleIdentity(id: Identity, target: Target, activeBank: Option<nat>) returns (r: Option<Schedule>)
      modifies `progress, `counts
      ensures View() == Offered(old(View()), id, target)
      ensures r == if Grants(old(View()), id) then Some(Schedule(id, target, activeBank != Some(target.bank))) else None
    {
      counts := counts.(requested := Bump(counts.requested));
      if progress.Of() == Some(id)
         || (watermark.Some? && SameContext(watermark.value, id) && watermark.value.phrase >= id.phrase) {
        counts := counts.(duplicates := Bump(counts.duplicates));
        return None;
      }
      progress := Scheduled(id, target);
      r := Some(Schedule(id, target, activeBank != Some(target.bank)));
    }

    method RecordPendingRetime(id: Identity) returns (r: bool)
      modifies `counts
      ensures View() == Retimed(old(View()), id)
      ensures r <==> progress.Of() == Some(id) && progress.Pending()
    {
      if progress.Of() != Some(id) || progress.Completed? { return false; }
      counts := counts.(rescheduled := Bump(counts.rescheduled));
      r := true;
    }

    method MarkBankPrepared(schedule: Schedule)
      modifies `progress, `counts
      ensures View() == Prepared(old(View()), schedule)
    {
      if progress == Scheduled(schedule.identity, schedule.target) {
        progress := BankPrepared(schedule.identity, schedule.target);
        counts := counts.(prepared := Bump(counts.prepared));
      }
    }

    method MarkTriggered(schedule: Schedule, expected: nat)
      modifies `progress, `counts
      ensures View() == Fired(old(View()), schedule, expected)
    {
      if progress.Of() == Some(schedule.identity) {
        progress := Triggered(schedule.identity, schedule.target, expected);
        counts := counts.(triggered := Bump(counts.triggered));
      }
    }

    method CompleteIfEmitted(emitted: nat)
      modifies `progress, `counts, `watermark
      ensures View() == Confirmed(old(View()), emitted)
    {
      if !progress.Triggered? { return; }
      if emitted >= progress.expected {
        watermark := Some(progress.identity);
        progress := Completed(progress.identity, progress.target);
        counts := counts.(completed := Bump(counts.completed));
      }
    }

    method Fail(id: Identity)
      modifies `progress, `counts
      ensures View() == Failed(old(View()), id)
    {
      if progress.Of() == Some(id) {
        progress := Idle;
        counts := counts.(failed := Bump(counts.failed));
      }
    }

    method CancelPending()
      modifies `progress, `counts
      ensures View() == Cancelled(old(View()))
    {
      if progress.Scheduled? || progress.BankPrepared? || progress.Triggered? {
        counts := counts.(cancelled := Bump(counts.cancelled));
      }
      progress := Idle;
    }
  }

  // ----- Runs --------------------------------------------------------------------------

  /** What callers may do, in any order: a schedule is offered for the current epoch, and a trigger carries the
      latest granted schedule, once. */
  datatype Call =
    | BeginEpoch
    | Offer(deck: DeckId, load: LoadId, revision: nat, phrase: nat, target: Target, activeBank: Option<nat>)
    | Retime(id: Identity)
    | PrepareBank(schedule: Schedule)
    | Trigger(expected: nat)
    | Emitted(count: nat)
    | FailCue(id: Identity)
    | CancelCue

  /** The executor, the schedule granted last and not yet triggered, and the identities completed so far. */
  datatype Session = Session(executor: Machine, grant: Option<Schedule>, completions: seq<Identity>)

  function Asked(s: Machine, c: Call): Identity
    requires c.Offer?
  {
    Identity(s.epoch, c.deck, c.load, c.revision, c.phrase)
  }

  function Next(s: Session, c: Call): Session {
    var e := s.executor;
    match c
    case BeginEpoch => s.(executor := EpochBegun(e))
    case Offer(_, _, _, _, target, bank) =>
      var id := Asked(e, c);
      s.(executor := Offered(e, id, target),
         grant := if Grants(e, id) then Some(Schedule(id, target, bank != Some(target.bank))) else s.grant)
    case Retime(id) => s.(executor := Retimed(e, id))
    case PrepareBank(schedule) => s.(executor := Prepared(e, schedule))
    case Trigger(expected) =>
      if s.grant.None? then s else s.(executor := Fired(e, s.grant.value, expected), grant := None)
    case Emitted(count) =>
      s.(executor := Confirmed(e, count),
         completions := s.completions + if Completes(e, count) then [e.progress.identity] else [])
    case FailCue(id) => s.(executor := Failed(e, id))
    case CancelCue => s.(executor := Cancelled(e))
  }

  function Run(calls: seq<Call>): Session {
    if calls == [] then Session(Initial, None, []) else Next(Run(calls[..|calls| - 1]), calls[|calls| - 1])
  }

  /** Successive completions of one context, in one epoch, go strictly forward. */
  predicate Forward(completions: seq<Identity>) {
    forall i :: 0 < i < |completions| && SameContext(completions[i - 1], completions[i])
      ==> completions[i - 1].phrase < completions[i].phrase
  }

  /** A pending cue is of this epoch and beyond the watermark, nothing that was triggered can be triggered
      again, and the watermark is the last completion unless a new epoch has begun since. */
  predicate Disciplined(s: Session) {
    var e := s.executor;
    && (e.progress.Pending() ==> e.progress.identity.epoch == e.epoch && !Covered(e.watermark, e.progress.identity))
    && (e.progress.Triggered? || e.progress.Completed? ==> s.grant.None?)
    && (e.watermark.Some? ==> e.watermark.value.epoch == e.epoch)
    && (e.watermark.Some? ==> s.completions != [] && e.watermark.value == s.completions[|s.completions| - 1])
    && (e.watermark.None? && s.completions != [] ==> s.completions[|s.completions| - 1].epoch < e.epoch)
    && Forward(s.completions)
  }

  lemma ConfirmKeeps(s: Session, c: Call)
    requires Disciplined(s) && c.Emitted?
    ensures Disciplined(Next(s, c))
  {
    if !Completes(s.executor, c.count) { assert s.completions + [] == s.completions; }
  }

  lemma OfferKeeps(s: Session, c: Call)
    requires Disciplined(s) && c.Offer?
    ensures Disciplined(Next(s, c))
  {
    hide Forward;
  }

  lemma ProgressKeeps(s: Session, c: Call)
    requires Disciplined(s) && (c.Trigger? || c.PrepareBank? || c.Retime?)
    ensures Disciplined(Next(s, c))
  {
    hide Forward;
  }

  lemma StopKeeps(s: Session, c: Call)
    requires Disciplined(s) && (c.BeginEpoch? || c.FailCue? || c.CancelCue?)
    ensures Disciplined(Next(s, c))
  {
    hide Forward;
  }

  lemma StepKeeps(s: Session, c: Call)
    requires Disciplined(s)
    ensures Disciplined(Next(s, c))
  {
    hide Next, Disciplined;
    match c
    case Emitted(_) => ConfirmKeeps(s, c);
    case Offer(_, _, _, _, _, _) => OfferKeeps(s, c);
    case Trigger(_) => ProgressKeeps(s, c);
    case PrepareBank(_) => ProgressKeeps(s, c);
    case Retime(_) => ProgressKeeps(s, c);
    case _ => StopKeeps(s, c);
  }

  /** However offers, retimes, failures, cancellations and confirmations interleave, no cue of a context is
      completed after a later or equal one completed just before it in the same epoch. */
  lemma {:induction false} CompletionsGoForward(calls: seq<Call>)
    ensures Disciplined(Run(calls)) && Forward(Run(calls).completions)
  {
    if calls != [] {
      CompletionsGoForward(calls[..|calls| - 1]);
      StepKeeps(Run(calls[..|calls| - 1]), calls[|calls| - 1]);
    }
  }

  /** A failed or cancelled cue that was not sent can be scheduled again at once, unchanged. */
  lemma UnsentStaysSchedulable(calls: seq<Call>)
    requires Run(calls).executor.progress.Pending()
    ensures var e := Run(calls).executor; var id := e.progress.identity;
      && Failed(e, id).watermark == e.watermark && Grants(Failed(e, id), id)
      && Cancelled(e).watermark == e.watermark && Grants(Cancelled(e), id)
  {
    CompletionsGoForward(calls);
  }

  /** A sent cue is never granted again in its epoch, even after a cancellation or a failure report. */
  lemma SentIsNotRepeated(calls: seq<Call>, id: Identity)
    requires var e := Run(calls).executor; e.progress.Completed? && id == e.progress.identity
    ensures var e := Run(calls).executor; !Grants(e, id) && !Grants(Cancelled(e), id) && !Grants(Failed(e, id), id)
  {
    CompletedIsCovered(calls);
  }

  lemma {:induction false} CompletedIsCovered(calls: seq<Call>)
    ensures var e := Run(calls).executor; e.progress.Completed? ==> e.watermark == Some(e.progress.identity)
  {
    if calls != [] {
      CompletedIsCovered(calls[..|calls| - 1]);
      CompletionsGoForward(calls[..|calls| - 1]);
    }
  }

  // ----- Where the code stops short ----------------------------------------------------

  /** A trigger compares the identity only: repeating the trigger of a cue completes the cue a second time,
      exactly when that cue is still the current one. */
  lemma RepeatedTrigger(s: Machine, schedule: Schedule, expected: nat, emitted: nat)
    requires s.progress.Completed? && emitted >= expected
    ensures Completes(Fired(s, schedule, expected), emitted) <==> s.progress.identity == schedule.identity
  {
  }

  /** For every cue: scheduled, triggered and completed from the initial state, then triggered once more, it is counted
      as completed twice. */
  lemma CompletedTwice(deck: DeckId, load: LoadId, revision: nat, phrase: nat, target: Target, n: nat)
    ensures var schedule := Schedule(Identity(0, deck, load, revision, phrase), target, true);
      var once := Confirmed(Fired(Offered(Initial, schedule.identity, target), schedule, n), n);
      && once.progress.Completed? && once.counts.completed == 1
      && Confirmed(Fired(once, schedule, n), n).counts.completed == 2
  {
  }

  /** The watermark remembers one context only: a cue completed earlier in the epoch is granted again exactly
      when another context completed after it, or it lies beyond the last completion of its own context. */
  lemma OneContextRemembered(calls: seq<Call>, id: Identity)
    requires var s := Run(calls);
      id in s.completions && id.epoch == s.executor.epoch && s.executor.progress.Of() != Some(id)
    ensures var s := Run(calls); var last := s.completions[|s.completions| - 1];
      Grants(s.executor, id) <==> !SameContext(last, id) || last.phrase < id.phrase
  {
    CompletionsGoForward(calls);
    EpochsAscend(calls);
  }

  /** One cue of a deck, granted, triggered and confirmed. */
  function Plays(deck: DeckId, phrase: nat): seq<Call> {
    [Offer(deck, 1, 1, phrase, Target(1, 1), None), Trigger(0), Emitted(0)]
  }

  lemma RunAppend(calls: seq<Call>, c: Call)
    ensures Run(calls + [c]) == Next(Run(calls), c)
  {
    hide Next;
    assert (calls + [c])[..|calls|] == calls;
  }

  lemma PlaysOut(calls: seq<Call>, deck: DeckId, phrase: nat)
    requires var e := Run(calls).executor; Grants(e, Identity(e.epoch, deck, 1, 1, phrase))
    ensures var s, t := Run(calls), Run(calls + Plays(deck, phrase));
      var id := Identity(s.executor.epoch, deck, 1, 1, phrase);
      && t.completions == s.completions + [id] && t.executor.epoch == s.executor.epoch
      && t.executor.watermark == Some(id) && t.executor.progress == Completed(id, Target(1, 1))
  {
    var c := Plays(deck, phrase);
    RunAppend(calls, c[0]);
    RunAppend(calls + [c[0]], c[1]);
    RunAppend(calls + [c[0]] + [c[1]], c[2]);
    assert calls + c == calls + [c[0]] + [c[1]] + [c[2]];
  }

  /** Two decks taking turns: the first cue of deck 1 completes twice in one epoch. */
  lemma TakingTurnsRepeats()
    ensures Run(Plays(1, 5) + Plays(2, 0) + Plays(1, 5)).completions
      == [Identity(0, 1, 1, 1, 5), Identity(0, 2, 1, 1, 0), Identity(0, 1, 1, 1, 5)]
  {
    hide Next;
    assert [] + Plays(1, 5) == Plays(1, 5);
    PlaysOut([], 1, 5);
    PlaysOut(Plays(1, 5), 2, 0);
    PlaysOut(Plays(1, 5) + Plays(2, 0), 1, 5);
  }

  predicate Ascending(s: Session) {
    && (forall i :: 0 <= i < |s.completions| ==> s.completions[i].epoch <= s.executor.epoch)
    && (forall i, j :: 0 <= i < j < |s.completions| ==> s.completions[i].epoch <= s.completions[j].epoch)
  }

  /** A call completes nothing, or one cue of the present epoch, and the epoch does not go back. */
  lemma CompletesHere(s: Session, c: Call)
    requires Disciplined(s)
    ensures var t := Next(s, c);
      && s.executor.epoch <= t.executor.epoch
      && (t.completions == s.completions
          || (t.completions == s.completions + [s.executor.progress.identity]
              && s.executor.progress.identity.epoch == s.executor.epoch))
  {
    hide Forward, Covered, Grants;
    if c.Emitted? {
      if !Completes(s.executor, c.count) { assert s.completions + [] == s.completions; }
    }
  }

  lemma StepAscends(s: Session, c: Call)
    requires Ascending(s) && Disciplined(s)
    ensures Ascending(Next(s, c))
  {
    hide Next, Disciplined;
    CompletesHere(s, c);
  }

  lemma {:induction false} EpochsAscend(calls: seq<Call>)
    ensures Ascending(Run(calls))
  {
    if calls == [] {
      assert Ascending(Session(Initial, None, []));
    } else {
      EpochsAscend(calls[..|calls| - 1]);
      CompletionsGoForward(calls[..|calls| - 1]);
      hide Next, Ascending, Disciplined;
      StepAscends(Run(calls[..|calls| - 1]), calls[|calls| - 1]);
    }
  }
}
