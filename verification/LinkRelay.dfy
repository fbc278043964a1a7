/** The relay that forwards the selected deck clock to the Link timing provider. */
module LinkRelay {
  import opened Domain

  datatype Source = ProDjLink | OtherSource(id: nat)

  datatype Clock = Clock(
    source: Source, deck: Option<nat>, bpmMilli: nat, beatWithinBar: nat, playing: bool, at: Option<nat>)
  {
    /** What the provider's timeline depends on. */
    function Material(): (nat, bool, Option<nat>) { (bpmMilli, playing, deck) }
  }

  datatype ProviderCall = Publish | Synchronize(clock: Clock) | FailClosed | Stop

  datatype RelayState = RelayState(
    enabled: bool, timedAt: Option<Time>, bpmMilli: Option<nat>, playing: Option<bool>, deck: Option<nat>,
    observedAt: Option<nat>, stale: bool)

  const Initial := RelayState(false, None, None, None, None, None, false)

  function Reset(s: RelayState): RelayState {
    s.(timedAt := None, bpmMilli := None, playing := None, deck := None, observedAt := None, stale := false)
  }

  // ----- Freshness ---------------------------------------------------------------------

  const MINIMUM_STALE_AFTER: nat := 3_000_000
  const MAXIMUM_STALE_AFTER: nat := 8_000_000
  const STALE_BEATS: nat := 8
  const MICROS_MILLI_MINUTE: nat := 60_000_000_000

  /** The window in microseconds: eight beats at this tempo, kept between three and eight seconds. */
  function StaleAfter(bpmMilli: Option<nat>): (r: nat)
    ensures MINIMUM_STALE_AFTER <= r <= MAXIMUM_STALE_AFTER
  {
    var window :=
      if bpmMilli.Some? && bpmMilli.value > 0 then MICROS_MILLI_MINUTE * STALE_BEATS / bpmMilli.value
      else MINIMUM_STALE_AFTER;
    if window < MINIMUM_STALE_AFTER then MINIMUM_STALE_AFTER
    else if window > MAXIMUM_STALE_AFTER then MAXIMUM_STALE_AFTER
    else window
  }

  /** The window is eight beats long, rounded down to a microsecond, from 60 to 160 beats per minute; it is eight
      seconds for slower tempos and three for faster ones and for none. */
  lemma EightBeats(bpmMilli: nat)
    ensures 60_000 <= bpmMilli <= 160_000 ==>
      var window := StaleAfter(Some(bpmMilli));
      window * bpmMilli <= STALE_BEATS * MICROS_MILLI_MINUTE < (window + 1) * bpmMilli
    ensures 0 < bpmMilli <= 60_000 ==> StaleAfter(Some(bpmMilli)) == MAXIMUM_STALE_AFTER
    ensures bpmMilli >= 160_000 || bpmMilli == 0 ==> StaleAfter(Some(bpmMilli)) == MINIMUM_STALE_AFTER
    ensures StaleAfter(None) == MINIMUM_STALE_AFTER
  {
    if bpmMilli > 0 { WindowIs(bpmMilli); }
  }

  lemma WindowIs(bpmMilli: nat)
    requires bpmMilli > 0
    ensures var window := MICROS_MILLI_MINUTE * STALE_BEATS / bpmMilli;
      && window * bpmMilli <= STALE_BEATS * MICROS_MILLI_MINUTE < (window + 1) * bpmMilli
      && (bpmMilli <= 60_000 ==> window >= MAXIMUM_STALE_AFTER)
      && (bpmMilli >= 160_000 ==> window <= MINIMUM_STALE_AFTER)
      && (60_000 <= bpmMilli <= 160_000 ==> MINIMUM_STALE_AFTER <= window <= MAXIMUM_STALE_AFTER)
  {
    var total := MICROS_MILLI_MINUTE * STALE_BEATS;
    var window := total / bpmMilli;
    assert total == window * bpmMilli + total % bpmMilli;
  }

  predicate Stale(s: RelayState, ready: bool, now: Time) {
    && s.timedAt.Some?
    && !(ready && s.playing == Some(false))
    && !(ready && now <= s.timedAt.value + StaleAfter(s.bpmMilli))
  }

  // ----- The operations ----------------------------------------------------------------

  /** The new state and the provider call made, if any; `ok` is whether that call succeeds. */
  datatype Outcome = Outcome(state: RelayState, call: Option<ProviderCall>)

  function Switched(s: RelayState, on: bool, ok: bool): Outcome {
    if on == s.enabled then Outcome(s, None)
    else if on then Outcome(if ok then s.(enabled := true) else s, Some(Publish))
    else Outcome(Reset(s.(enabled := false)), Some(Stop))
  }

  predicate OutOfOrder(previous: Option<nat>, current: Option<nat>) {
    previous.Some? && current.Some? && current.value < previous.value
  }

  predicate Changed(s: RelayState, c: Clock) {
    s.stale || s.bpmMilli != Some(c.bpmMilli) || s.playing != Some(c.playing) || s.deck != c.deck
  }

  function Remembered(s: RelayState, c: Clock, now: Time): RelayState {
    RelayState(s.enabled, Some(now), Some(c.bpmMilli), Some(c.playing), c.deck, c.at, false)
  }

  /** The observation is on record before the provider is called, so the outcome of the call does not matter. */
  function Heard(s: RelayState, c: Clock, now: Time): Outcome {
    if !s.enabled then Outcome(s, None)
    else if c.source != ProDjLink then Outcome(Reset(s), Some(Synchronize(c)))
    else if OutOfOrder(s.observedAt, c.at) then Outcome(s, None)
    else Outcome(Remembered(s, c, now), if Changed(s, c) then Some(Synchronize(c)) else None)
  }

  function Closed(s: RelayState, ok: bool): Outcome {
    if !s.enabled || s.stale then Outcome(s, None)
    else Outcome(if ok then s.(stale := true) else s, Some(FailClosed))
  }

  function Reconciled(s: RelayState, ready: bool, now: Time, ok: bool): Outcome {
    if Stale(s, ready, now) then Closed(s, ok) else Outcome(s, None)
  }

  class Relay {
    var enabled: bool
    var timedAt: Option<Time>
    var bpmMilli: Option<nat>
    var playing: Option<bool>
    var deck: Option<nat>
    var observedAt: Option<nat>
    var stale: bool

    function View(): RelayState
      reads this
    {
      RelayState(enabled, timedAt, bpmMilli, playing, deck, observedAt, stale)
    }

    constructor ()
      ensures View() == Initial
    {
      enabled, timedAt, bpmMilli, playing, deck, observedAt, stale := false, None, None, None, None, None, false;
    }

    method ResetProlinkFreshness()
      modifies this
      ensures View() == Reset(old(View()))
    {
      timedAt, bpmMilli, playing, deck, observedAt, stale := None, None, None, None, None, false;
    }

    /** `ok` is what the provider answers if it is called. */
    method SetEnabled(on: bool, ok: bool) returns (call: Option<ProviderCall>)
      modifies this
      ensures Outcome(View(), call) == Switched(old(View()), on, ok)
    {
      if on == enabled { return None; }
      if on {
        call := Some(Publish);
        if ok { enabled := true; }
      } else {
        call := Some(Stop);
        enabled := false;
        ResetProlinkFreshness();
      }
    }

    method SynchronizeClock(c: Clock, now: Time) returns (call: Option<ProviderCall>)
      modifies this
      ensures Outcome(View(), call) == Heard(old(View()), c, now)
    {
      if !enabled { return None; }
      if c.source == ProDjLink {
        if observedAt.Some? && c.at.Some? && c.at.value < observedAt.value { return None; }
        var changed := stale || bpmMilli != Some(c.bpmMilli) || playing != Some(c.playing) || deck != c.deck;
        timedAt, bpmMilli, playing, deck, observedAt := Some(now), Some(c.bpmMilli), Some(c.playing), c.deck, c.at;
        stale := false;
        if !changed { return None; }
      } else {
        ResetProlinkFreshness();
      }
      call := Some(Synchronize(c));
    }

    method FailClosedNow(ok: bool) returns (call: Option<ProviderCall>)
      modifies `stale
      ensures Outcome(View(), call) == Closed(old(View()), ok)
    {
      if !enabled || stale { return None; }
      call := Some(FailClosed);
      if ok { stale := true; }
    }

    method ReconcileProlinkFreshness(ready: bool, now: Time, ok: bool) returns (call: Option<ProviderCall>)
      modifies `stale
      ensures Outcome(View(), call) == Reconciled(old(View()), ready, now, ok)
    {
      if !enabled || stale || timedAt.None? { return None; }
      if ready && playing == Some(false) { return None; }
      if ready && now <= timedAt.value + StaleAfter(bpmMilli) { return None; }
      call := FailClosedNow(ok);
    }
  }

  // ----- Runs --------------------------------------------------------------------------

  datatype Call =
    | Switch(on: bool)
    | Observe(clock: Clock, now: Time)
    | Reconcile(ready: bool, now: Time)
    | Close

  /** The effect of a call whose provider call succeeds or not. */
  function Effect(s: RelayState, c: Call, ok: bool): Outcome {
    match c
    case Switch(on) => Switched(s, on, ok)
    case Observe(clock, now) => Heard(s, clock, now)
    case Reconcile(ready, now) => Reconciled(s, ready, now, ok)
    case Close => Closed(s, ok)
  }

  /** The relay, the provider calls made, and, kept independently of the relay, the Pro DJ Link observations
      taken in order since the relay was last enabled or another source spoke. */
  datatype Session = Session(relay: RelayState, log: seq<ProviderCall>, taken: seq<Clock>)

  function Last<T>(xs: seq<T>): T
    requires xs != []
  {
    xs[|xs| - 1]
  }

  function Taken(taken: seq<Clock>, enabled: bool, c: Call): seq<Clock> {
    match c
    case Switch(on) => if enabled && !on then [] else taken
    case Observe(clock, _) =>
      if !enabled then taken
      else if clock.source != ProDjLink then []
      else if taken != [] && OutOfOrder(Last(taken).at, clock.at) then taken
      else taken + [clock]
    case _ => taken
  }

  function Next(s: Session, c: Call): Session {
    var r := Effect(s.relay, c, true);
    Session(r.state, s.log + (if r.call.Some? then [r.call.value] else []), Taken(s.taken, s.relay.enabled, c))
  }

  /** A run with a provider that never fails. */
  function Run(calls: seq<Call>): Session {
    if calls == [] then Session(Initial, [], []) else Next(Run(calls[..|calls| - 1]), calls[|calls| - 1])
  }

  /** Two neighbouring provider calls that may follow each other. */
  predicate MayFollow(a: ProviderCall, b: ProviderCall) {
    match a
    case Publish => !b.Publish?
    case Stop => b.Publish?
    case FailClosed => b.Synchronize? || b.Stop?
    case Synchronize(c) =>
      && !b.Publish?
      && (b.Synchronize? && c.source == b.clock.source == ProDjLink ==> c.Material() != b.clock.Material())
  }

  predicate Spaced(log: seq<ProviderCall>) { forall i :: 0 < i < |log| ==> MayFollow(log[i - 1], log[i]) }

  /** The provider's timeline carries the material of the last observation taken. */
  predicate Carries(log: seq<ProviderCall>, c: Clock) {
    log != [] && Last(log).Synchronize? && Last(log).clock.source == ProDjLink
      && Last(log).clock.Material() == c.Material()
  }

  predicate Recorded(s: RelayState, taken: seq<Clock>) {
    if taken == [] then s.bpmMilli.None? && s.observedAt.None? && s.playing.None? && s.deck.None?
    else s.bpmMilli == Some(Last(taken).bpmMilli) && s.playing == Some(Last(taken).playing)
         && s.deck == Last(taken).deck && s.observedAt == Last(taken).at
  }

  predicate Faithful(s: Session) {
    && Recorded(s.relay, s.taken) && Spaced(s.log)
    && (!s.relay.enabled ==> s.taken == [] && !s.relay.stale && (s.log == [] || Last(s.log).Stop?))
    && (s.relay.enabled ==> s.log != [] && !Last(s.log).Stop? && (s.relay.stale <==> Last(s.log).FailClosed?))
    && (s.relay.enabled && s.taken == [] && Last(s.log).Synchronize? ==> Last(s.log).clock.source != ProDjLink)
    && (s.relay.enabled && !s.relay.stale && s.taken != [] ==> Carries(s.log, Last(s.taken)))
  }

  lemma StepKeeps(s: Session, c: Call)
    requires Faithful(s)
    ensures Faithful(Next(s, c))
  {
    hide StaleAfter;
  }

  lemma {:induction false} RunIsFaithful(calls: seq<Call>)
    ensures Faithful(Run(calls))
  {
    if calls != [] {
      RunIsFaithful(calls[..|calls| - 1]);
      StepKeeps(Run(calls[..|calls| - 1]), calls[|calls| - 1]);
    }
  }

  /** Nothing is lost: while the relay is enabled and fresh, the last call to the provider is a synchronize with
      the tempo, play state and deck of the last in-order Pro DJ Link observation. */
  lemma CoalescingIsLossless(calls: seq<Call>)
    requires var s := Run(calls); s.relay.enabled && !s.relay.stale && s.taken != []
    ensures var s := Run(calls); Carries(s.log, Last(s.taken))
  {
    RunIsFaithful(calls);
  }

  /** Nothing is repeated: two neighbouring synchronize calls for Pro DJ Link always differ materially, and a
      fail-closed call is always followed by a synchronize or a stop. */
  lemma CoalescingIsMinimal(calls: seq<Call>, i: nat)
    requires 0 < i < |Run(calls).log|
    ensures MayFollow(Run(calls).log[i - 1], Run(calls).log[i])
  {
    RunIsFaithful(calls);
  }

  /** Between two fail-closed calls there is a synchronize or a stop. */
  lemma FailClosedIsSpaced(calls: seq<Call>, i: nat, j: nat)
    requires i < j < |Run(calls).log| && Run(calls).log[i].FailClosed? && Run(calls).log[j].FailClosed?
    ensures exists k :: i < k < j && (Run(calls).log[k].Synchronize? || Run(calls).log[k].Stop?)
  {
    CoalescingIsMinimal(calls, i + 1);
  }

  // ----- A provider that may fail ------------------------------------------------------

  /** A provider call and whether it succeeded. */
  datatype Attempt = Attempt(call: ProviderCall, ok: bool)

  datatype Trial = Trial(relay: RelayState, log: seq<Attempt>, taken: seq<Clock>)

  function Tried(s: Trial, c: Call, ok: bool): Trial {
    var r := Effect(s.relay, c, ok);
    Trial(r.state, s.log + (if r.call.Some? then [Attempt(r.call.value, ok)] else []),
      Taken(s.taken, s.relay.enabled, c))
  }

  /** A run in which every provider call has its own outcome. */
  function TrialRun(calls: seq<(Call, bool)>): Trial {
    if calls == [] then Trial(Initial, [], [])
    else Tried(TrialRun(calls[..|calls| - 1]), calls[|calls| - 1].0, calls[|calls| - 1].1)
  }

  /** The last synchronize issued since the provider was last stopped. */
  function Issued(log: seq<Attempt>): (r: Option<Attempt>)
    ensures r.Some? ==> r.value.call.Synchronize?
  {
    if log == [] || Last(log).call.Stop? then None
    else if Last(log).call.Synchronize? then Some(Last(log))
    else Issued(log[..|log| - 1])
  }

  /** What the provider's timeline is on: the last synchronize that succeeded since it was last stopped. */
  function Held(log: seq<Attempt>): Option<Clock> {
    if log == [] || Last(log).call.Stop? then None
    else if Last(log).call.Synchronize? && Last(log).ok then Some(Last(log).call.clock)
    else Held(log[..|log| - 1])
  }

  predicate OnClock(held: Option<Clock>, c: Clock) {
    held.Some? && held.value.source == ProDjLink && held.value.Material() == c.Material()
  }

  /** Enabled, fresh, and with an observation taken. */
  predicate Fresh(s: Trial) { s.relay.enabled && !s.relay.stale && s.taken != [] }

  predicate Kept(s: Trial) {
    && Recorded(s.relay, s.taken)
    && (!s.relay.enabled ==> s.taken == [] && !s.relay.stale)
    && (Fresh(s) ==>
          var a := Issued(s.log);
          a.Some? && a.value.call.clock.source == ProDjLink
            && a.value.call.clock.Material() == Last(s.taken).Material())
  }

  lemma Appended(log: seq<Attempt>, a: Attempt)
    ensures Issued(log + [a]) == if a.call.Stop? then None else if a.call.Synchronize? then Some(a) else Issued(log)
    ensures Held(log + [a])
      == if a.call.Stop? then None else if a.call.Synchronize? && a.ok then Some(a.call.clock) else Held(log)
  {
    assert (log + [a])[..|log|] == log;
  }

  lemma TriedKeeps(s: Trial, c: Call, ok: bool)
    requires Kept(s)
    ensures Kept(Tried(s, c, ok))
  {
    hide StaleAfter, Issued, Held;
    var r := Effect(s.relay, c, ok);
    if r.call.Some? { Appended(s.log, Attempt(r.call.value, ok)); } else { assert Tried(s, c, ok).log == s.log; }
  }

  lemma {:induction false} TrialIsKept(calls: seq<(Call, bool)>)
    ensures Kept(TrialRun(calls))
  {
    if calls != [] {
      TrialIsKept(calls[..|calls| - 1]);
      hide Tried, Kept;
      TriedKeeps(TrialRun(calls[..|calls| - 1]), calls[|calls| - 1].0, calls[|calls| - 1].1);
    }
  }

  lemma {:induction false} SucceededIsHeld(log: seq<Attempt>)
    requires Issued(log).Some? && Issued(log).value.ok
    ensures Held(log) == Some(Issued(log).value.call.clock)
  {
    if !Last(log).call.Synchronize? { SucceededIsHeld(log[..|log| - 1]); }
  }

  /** Whatever else failed: while enabled and fresh, the provider is on the last in-order material exactly when the
      last synchronize issued succeeded, or the provider was on its material already. */
  lemma LosslessExactly(calls: seq<(Call, bool)>)
    requires Fresh(TrialRun(calls))
    ensures var s := TrialRun(calls);
      && Issued(s.log).Some?
      && (OnClock(Held(s.log), Last(s.taken)) <==>
            Issued(s.log).value.ok || OnClock(Held(s.log), Issued(s.log).value.call.clock))
  {
    TrialIsKept(calls);
    var s := TrialRun(calls);
    if Issued(s.log).value.ok { SucceededIsHeld(s.log); }
  }

  /** The call brings no other material, no success in failing closed, no other source and no stop. */
  predicate Quiet(s: Trial, c: Call, ok: bool)
    requires Fresh(s)
  {
    match c
    case Switch(on) => on
    case Observe(clock, _) =>
      clock.source == ProDjLink
        && (OutOfOrder(s.relay.observedAt, clock.at) || clock.Material() == Last(s.taken).Material())
    case Reconcile(ready, now) => !ok || !Stale(s.relay, ready, now)
    case Close => !ok
  }

  predicate AllQuiet(s: Trial, more: seq<(Call, bool)>)
    decreases |more|
  {
    more == [] || (Fresh(s) && Quiet(s, more[0].0, more[0].1) && AllQuiet(Tried(s, more[0].0, more[0].1), more[1..]))
  }

  function TriedAll(s: Trial, more: seq<(Call, bool)>): Trial
    decreases |more|
  {
    if more == [] then s else TriedAll(Tried(s, more[0].0, more[0].1), more[1..])
  }

  lemma QuietKeepsHeld(s: Trial, c: Call, ok: bool)
    requires Kept(s) && Fresh(s) && Quiet(s, c, ok)
    ensures var t := Tried(s, c, ok);
      && Kept(t) && Fresh(t) && Held(t.log) == Held(s.log) && Issued(t.log) == Issued(s.log)
      && Last(t.taken).Material() == Last(s.taken).Material()
  {
    TriedKeeps(s, c, ok);
    hide StaleAfter, Issued, Held, Kept;
    assert Recorded(s.relay, s.taken) by { RecordedOf(s); }
    var r := Effect(s.relay, c, ok);
    if r.call.Some? { Appended(s.log, Attempt(r.call.value, ok)); } else { assert Tried(s, c, ok).log == s.log; }
  }

  lemma RecordedOf(s: Trial)
    requires Kept(s)
    ensures Recorded(s.relay, s.taken)
  {
  }

  /** A missed material change is not made up for: however many calls follow, as long as they bring nothing new the
      provider stays where it was. */
  lemma {:induction false} StaysBehind(s: Trial, more: seq<(Call, bool)>)
    requires Kept(s) && Fresh(s) && AllQuiet(s, more)
    ensures var t := TriedAll(s, more);
      && Fresh(t) && Held(t.log) == Held(s.log) && Last(t.taken).Material() == Last(s.taken).Material()
      && (OnClock(Held(t.log), Last(t.taken)) <==> OnClock(Held(s.log), Last(s.taken)))
    decreases |more|
  {
    if more != [] {
      QuietKeepsHeld(s, more[0].0, more[0].1);
      hide Tried, Kept, Quiet, Held, Fresh;
      StaysBehind(Tried(s, more[0].0, more[0].1), more[1..]);
    }
  }

  lemma {:induction false} TrialJoin(calls: seq<(Call, bool)>, more: seq<(Call, bool)>)
    ensures TrialRun(calls + more) == TriedAll(TrialRun(calls), more)
    decreases |more|
  {
    if more == [] {
      assert calls + more == calls;
    } else {
      assert calls + more == (calls + [more[0]]) + more[1..] && (calls + [more[0]])[..|calls|] == calls;
      TrialJoin(calls + [more[0]], more[1..]);
    }
  }

  /** In every run: while enabled and fresh, a provider that is not on the last in-order material got there by a
      failed synchronize, and it stays behind until a call brings something new. */
  lemma MissedForGood(calls: seq<(Call, bool)>, more: seq<(Call, bool)>)
    requires var s := TrialRun(calls); Fresh(s) && !OnClock(Held(s.log), Last(s.taken)) && AllQuiet(s, more)
    ensures var s := TrialRun(calls); Issued(s.log).Some? && !Issued(s.log).value.ok
    ensures var t := TrialRun(calls + more); Fresh(t) && !OnClock(Held(t.log), Last(t.taken))
  {
    TrialIsKept(calls);
    LosslessExactly(calls);
    var s := TrialRun(calls);
    TrialJoin(calls, more);
    StaysBehind(s, more);
  }

  /** The next in-order observation that is new to the relay, or finds it stale, brings the provider up to date if its
      own call succeeds; another source puts the provider on that source. */
  lemma NextSuccessRestores(s: Trial, c: Clock, now: Time)
    requires s.relay.enabled
    ensures c.source == ProDjLink && !OutOfOrder(s.relay.observedAt, c.at) && Changed(s.relay, c) ==>
      Held(Tried(s, Observe(c, now), true).log) == Some(c)
    ensures c.source != ProDjLink ==> Held(Tried(s, Observe(c, now), true).log) == Some(c)
  {
    hide Held;
    Appended(s.log, Attempt(Synchronize(c), true));
  }

  function Beat(bpmMilli: nat, at: nat): Clock { Clock(ProDjLink, Some(1), bpmMilli, 1, true, Some(at)) }

  const MissedChange: seq<(Call, bool)> := [
    (Switch(true), true), (Observe(Beat(120_000, 1), 1), true), (Observe(Beat(130_000, 2), 2), false),
    (Observe(Beat(130_000, 3), 3), true)]

  /** A run in which the provider misses a tempo change for good: the relay does not repeat it. */
  lemma ChangeIsMissed()
    ensures var s := TrialRun(MissedChange);
      && Fresh(s) && Last(s.taken) == Beat(130_000, 3) && Held(s.log) == Some(Beat(120_000, 1))
      && !OnClock(Held(s.log), Last(s.taken))
  {
    var c := MissedChange;
    assert c[..4] == c && c[..4][..3] == c[..3] && c[..3][..2] == c[..2] && c[..2][..1] == c[..1] && c[..1][..0] == [];
    assert TrialRun([]) == Trial(Initial, [], []);
    var s1, s2 := TrialRun(c[..1]), TrialRun(c[..2]);
    assert s1 == Tried(TrialRun([]), Switch(true), true);
    assert s1 == Trial(Initial.(enabled := true), [Attempt(Publish, true)], []);
    assert s2.relay == RelayState(true, Some(1), Some(120_000), Some(true), Some(1), Some(1), false);
    var a, b := Attempt(Synchronize(Beat(120_000, 1)), true), Attempt(Synchronize(Beat(130_000, 2)), false);
    assert s2.log == s1.log + [a] && s2.taken == [Beat(120_000, 1)];
    var s3 := TrialRun(c[..3]);
    assert s3.log == s2.log + [b] && s3.taken == s2.taken + [Beat(130_000, 2)];
    assert TrialRun(c).log == s3.log && TrialRun(c).taken == s3.taken + [Beat(130_000, 3)];
    Appended(s1.log, a);
    Appended(s2.log, b);
  }

  const ThereAndBack: seq<(Call, bool)> := [
    (Switch(true), true), (Observe(Beat(120_000, 1), 1), true), (Observe(Beat(130_000, 2), 2), false),
    (Observe(Beat(120_000, 3), 3), false)]

  /** A run in which the last synchronize failed and the provider is right all the same: it never left. */
  lemma RightAfterAFailure()
    ensures var s := TrialRun(ThereAndBack);
      && Fresh(s) && Issued(s.log) == Some(Attempt(Synchronize(Beat(120_000, 3)), false))
      && Held(s.log) == Some(Beat(120_000, 1)) && OnClock(Held(s.log), Last(s.taken))
  {
    var c := ThereAndBack;
    assert c[..4] == c && c[..4][..3] == c[..3] && c[..3][..2] == c[..2] && c[..2][..1] == c[..1] && c[..1][..0] == [];
    assert TrialRun([]) == Trial(Initial, [], []);
    var s1, s2, s3 := TrialRun(c[..1]), TrialRun(c[..2]), TrialRun(c[..3]);
    assert s1 == Tried(TrialRun([]), Switch(true), true);
    assert s1 == Trial(Initial.(enabled := true), [Attempt(Publish, true)], []);
    assert s2.relay == RelayState(true, Some(1), Some(120_000), Some(true), Some(1), Some(1), false);
    var a, b := Attempt(Synchronize(Beat(120_000, 1)), true), Attempt(Synchronize(Beat(130_000, 2)), false);
    var d := Attempt(Synchronize(Beat(120_000, 3)), false);
    assert s2.log == s1.log + [a] && s2.taken == [Beat(120_000, 1)];
    assert s3.log == s2.log + [b] && s3.taken == s2.taken + [Beat(130_000, 2)];
    assert s3.relay == RelayState(true, Some(2), Some(130_000), Some(true), Some(1), Some(2), false);
    assert TrialRun(c).log == s3.log + [d] && TrialRun(c).taken == s3.taken + [Beat(120_000, 3)];
    Appended(s1.log, a);
    Appended(s2.log, b);
    Appended(s3.log, d);
  }

  /** After an observation was taken, the next one in order is forwarded exactly when it differs materially, whether
      or not the first call succeeded: the record is kept before the provider is called. */
  lemma ForwardedOnlyWhenDifferent(s: RelayState, a: Clock, b: Clock, t: Time, u: Time)
    requires s.enabled && a.source == b.source == ProDjLink && !OutOfOrder(s.observedAt, a.at)
      && !OutOfOrder(a.at, b.at)
    ensures Heard(Heard(s, a, t).state, b, u).call
      == if a.Material() == b.Material() then None else Some(Synchronize(b))
  {
  }

  /** A failed fail-closed call is tried again; a successful one is not. */
  lemma FailClosedIsRetried(s: RelayState, ok: bool, again: bool)
    requires s.enabled && !s.stale
    ensures Closed(Closed(s, ok).state, again).call == if ok then None else Some(FailClosed)
  {
  }
}
