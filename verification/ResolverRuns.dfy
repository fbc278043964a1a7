/** Every interleaving of the resolver's polls with its worker thread. */
module ResolverRuns {
  import opened Domain
  import opened Resolver

  datatype Phase = Idle | Receiving(left: nat) | Sending

  /** The channels and slots, where the poll is, the replies it has accepted, the key the worker holds, and
      the history of requests sent and replies received. */
  datatype System = System(
    core: Core, phase: Phase, accepted: seq<Completion>, worker: Option<Key>,
    sent: seq<Key>, received: seq<Completion>, clock: Time)

  /** A poll begins, makes up to four receive attempts and finishes with at most one send; the worker takes a
      key and replies to it, or its thread ends. */
  datatype Step =
    | Begin(keys: seq<Key>, now: Time) | TryReceive | Finish
    | Take | Reply(prepared: Preparation) | Die

  predicate Enabled(s: System, step: Step) {
    match step
    case Begin(keys, _) => s.phase.Idle? && Addressed(keys)
    case TryReceive => s.phase.Receiving?
    case Finish => s.phase.Sending?
    case Take => s.core.alive && s.worker.None? && s.core.requests != []
    case Reply(_) => s.core.alive && s.worker.Some?
    case Die => s.core.alive
  }

  function First(c: Core): seq<Completion> { if c.results == [] then [] else [c.results[0]] }

  /** The deck whose key a finishing poll sends, if any. */
  function Selected(c: Core, now: Time): (r: Option<DeckId>)
    ensures r.Some? ==> r.value in c.slots
  {
    if CanSend(c) then Chosen(c.slots, now, DECKS) else None
  }

  function Received(s: System): System
    requires s.phase.Receiving?
  {
    var r := Receive(s.core);
    s.(core := r.core,
       accepted := s.accepted + r.accepted,
       received := s.received + First(s.core),
       phase := if r.more && s.phase.left > 1 then Receiving(s.phase.left - 1) else Sending)
  }

  function Finished(s: System): System {
    var c := Refused(s.core, s.clock);
    var d := Selected(c, s.clock);
    s.(core := Sent(c, s.clock),
       accepted := s.accepted + (if c.open then [] else Refusals(s.core.slots, s.clock, DECKS)),
       sent := s.sent + (if d.Some? then [c.slots[d.value].key] else []),
       phase := Idle)
  }

  /** The worker's reply is dropped when the result channel is full. */
  function Replied(s: System, prepared: Preparation): System
    requires s.worker.Some?
  {
    var room := |s.core.results| < RESULT_CAPACITY;
    var results := s.core.results + (if room then [Completion(s.worker.value, prepared)] else []);
    s.(worker := None, core := s.core.(results := results))
  }

  function Next(s: System, step: Step): System {
    if !Enabled(s, step) then s
    else
      match step
      case Begin(keys, now) =>
        s.(core := Begun(s.core, keys, now), phase := Receiving(MAXIMUM_REPLIES), accepted := [], clock := now)
      case TryReceive => Received(s)
      case Finish => Finished(s)
      case Take => s.(worker := Some(s.core.requests[0]), core := s.core.(requests := s.core.requests[1..]))
      case Reply(prepared) => Replied(s, prepared)
      case Die => s.(worker := None, core := s.core.(alive := false, requests := []))
  }

  /** With a worker thread, or without one when it could not be started. */
  function Initial(threaded: bool): System {
    System(Core(threaded, map[], None, [], [], threaded), Idle, [], None, [], [], 0)
  }

  function Run(threaded: bool, steps: seq<Step>): System {
    if steps == [] then Initial(threaded) else Next(Run(threaded, steps[..|steps| - 1]), steps[|steps| - 1])
  }

  function At(threaded: bool, steps: seq<Step>, i: nat): System
    requires i <= |steps|
  {
    Run(threaded, steps[..i])
  }

  lemma AtNext(threaded: bool, steps: seq<Step>, i: nat)
    requires i < |steps|
    ensures At(threaded, steps, i + 1) == Next(At(threaded, steps, i), steps[i])
  {
    assert steps[..i + 1][..i] == steps[..i];
  }

  /** Repeated receive attempts; once the poll has stopped receiving they do nothing. */
  function Attempts(s: System, n: nat): System
    decreases n
  {
    if n == 0 then s else Attempts(Next(s, TryReceive), n - 1)
  }

  lemma {:induction false} AttemptsReceive(s: System, n: nat)
    requires s.phase == Receiving(n) && n > 0
    ensures var q := Attempts(s, n); var r := ReceiveUpTo(s.core, n);
      q.core == r.core && q.accepted == s.accepted + r.accepted && q.phase.Sending? && q.clock == s.clock
    decreases n
  {
    var t := Next(s, TryReceive);
    if t.phase.Receiving? {
      AttemptsReceive(t, n - 1);
    } else {
      Resting(t, n - 1);
    }
  }

  lemma {:induction false} Resting(s: System, n: nat)
    requires s.phase.Sending?
    ensures Attempts(s, n) == s
    decreases n
  {
    if n > 0 { Resting(s, n - 1); }
  }

  lemma BeginShape(s: System, keys: seq<Key>, now: Time)
    requires s.phase.Idle? && Addressed(keys)
    ensures Next(s, Begin(keys, now))
      == s.(core := Begun(s.core, keys, now), phase := Receiving(MAXIMUM_REPLIES), accepted := [], clock := now)
  {
  }

  lemma FinishShape(s: System)
    requires s.phase.Sending?
    ensures var t := Next(s, Finish);
      && t.core == Sent(Refused(s.core, s.clock), s.clock) && t.phase.Idle?
      && t.accepted == s.accepted + (if s.core.open then [] else Refusals(s.core.slots, s.clock, DECKS))
  {
  }

  /** A poll that no worker step interrupts is exactly one call of the resolver. */
  lemma PollIsSteps(s: System, keys: seq<Key>, now: Time)
    requires s.phase.Idle? && Addressed(keys)
    ensures var q := Next(Attempts(Next(s, Begin(keys, now)), MAXIMUM_REPLIES), Finish);
      Poll(q.core, q.accepted) == Polled(s.core, keys, now) && q.phase.Idle?
  {
    hide Next, Attempts, ReceiveUpTo, Begun, Refusals, Sent, Refused;
    BeginShape(s, keys, now);
    var b := Next(s, Begin(keys, now));
    AttemptsReceive(b, MAXIMUM_REPLIES);
    FinishShape(Attempts(b, MAXIMUM_REPLIES));
  }

  // ----- One request, one reply --------------------------------------------------------

  function KeysOf(cs: seq<Completion>): (r: seq<Key>)
    ensures |r| == |cs|
  {
    seq(|cs|, i requires 0 <= i < |cs| => cs[i].key)
  }

  function Held(worker: Option<Key>): seq<Key> { if worker.Some? then [worker.value] else [] }

  /** Every key on its way from request to reply: in the request channel, at the worker, in the result channel. */
  function Carried(s: System): seq<Key> { s.core.requests + Held(s.worker) + KeysOf(s.core.results) }

  /** The key in flight is in exactly one place; only the end of the thread can lose it. */
  predicate Token(inflight: Option<Key>, carried: seq<Key>, alive: bool) {
    carried == Held(inflight) || (carried == [] && !alive)
  }

  predicate Current(slots: Slots, accepted: seq<Completion>) {
    forall i :: 0 <= i < |accepted| ==> Wanted(slots, accepted[i].key)
  }

  predicate Protocol(s: System) {
    && Filed(s.core.slots) && Current(s.core.slots, s.accepted)
    && Token(s.core.inflight, Carried(s), s.core.alive)
    && (s.core.open <== s.core.alive)
    && (!s.core.open ==> Carried(s) == [])
    && (s.core.alive ==> s.sent == KeysOf(s.received) + Carried(s))
    && (s.core.alive || s.core.requests == []) && (s.core.alive || s.worker.None?)
    && (s.phase.Receiving? ==> s.phase.left > 0)
  }

  lemma BeginKeeps(s: System, keys: seq<Key>, now: Time)
    requires Protocol(s) && Enabled(s, Begin(keys, now))
    ensures Protocol(Next(s, Begin(keys, now)))
  {
    NoteKeepsFiled(s.core, keys, now);
  }

  lemma ReceiveKeeps(s: System)
    requires Protocol(s) && Enabled(s, TryReceive)
    ensures Protocol(Next(s, TryReceive))
  {
    if s.core.results != [] {
      assert Carried(s) == [s.core.results[0].key];
      assert s.core.results == [s.core.results[0]];
      assert KeysOf(s.received + First(s.core)) == KeysOf(s.received) + Carried(s);
    }
  }

  lemma WorkerKeeps(s: System, step: Step)
    requires Protocol(s) && Enabled(s, step) && (step.Take? || step.Reply? || step.Die?)
    ensures Protocol(Next(s, step))
  {
    hide Filed, Current;
    var t := Next(s, step);
    if step.Take? {
      assert s.core.requests == [s.core.requests[0]];
      assert Carried(t) == Carried(s);
    } else if step.Reply? {
      assert s.core.results == [];
      assert Carried(t) == Carried(s);
    } else {
      assert Carried(t) == KeysOf(s.core.results);
    }
  }

  lemma RefusalKeeps(c: Core, accepted: seq<Completion>, now: Time)
    requires Filed(c.slots) && Current(c.slots, accepted)
    ensures var r := Refused(c, now);
      && Filed(r.slots) && Current(r.slots, accepted + (if c.open then [] else Refusals(c.slots, now, DECKS)))
      && r == c.(slots := r.slots)
  {
    if !c.open {
      var more := Refusals(c.slots, now, DECKS);
      hide Refusals;
      assert Current(c.slots, accepted + more);
    }
  }

  lemma SendKeeps(c: Core, accepted: seq<Completion>, d: DeckId, now: Time)
    requires Filed(c.slots) && Current(c.slots, accepted) && d in c.slots
    ensures Filed(Requested(c, d, now).slots) && Current(Requested(c, d, now).slots, accepted)
  {
  }

  lemma FinishKeeps(s: System)
    requires Protocol(s) && Enabled(s, Finish)
    ensures Protocol(Next(s, Finish))
  {
    RefusalKeeps(s.core, s.accepted, s.clock);
    var c, t := Refused(s.core, s.clock), Next(s, Finish);
    var d := Selected(c, s.clock);
    if d.Some? {
      assert Carried(s) == [] && Carried(t) == [c.slots[d.value].key];
      SendKeeps(c, t.accepted, d.value, s.clock);
    } else {
      assert Carried(t) == Carried(s);
    }
  }

  lemma {:induction false} RunKeepsProtocol(threaded: bool, steps: seq<Step>)
    ensures Protocol(Run(threaded, steps))
  {
    hide Protocol, Next;
    if steps == [] {
      assert Protocol(Initial(threaded)) by { Starts(threaded); }
    } else {
      var s, step := Run(threaded, steps[..|steps| - 1]), steps[|steps| - 1];
      RunKeepsProtocol(threaded, steps[..|steps| - 1]);
      StepKeepsProtocol(s, step);
    }
  }

  lemma Starts(threaded: bool)
    ensures Protocol(Initial(threaded))
  {
    assert Carried(Initial(threaded)) == [];
    assert KeysOf([]) + [] == [];
  }

  lemma StepKeepsProtocol(s: System, step: Step)
    requires Protocol(s)
    ensures Protocol(Next(s, step))
  {
    hide Protocol;
    if Enabled(s, step) {
      match step
      case Begin(keys, now) => BeginKeeps(s, keys, now);
      case TryReceive => ReceiveKeeps(s);
      case Finish => FinishKeeps(s);
      case _ => WorkerKeeps(s, step);
    }
  }

  // ----- The theorems ------------------------------------------------------------------

  /** In every interleaving the key in flight is in exactly one of the two channels or with the worker, every
      send finds room, every reply answers the request in flight, and the replies received are, in order,
      those of the requests sent. */
  lemma OneRequestOneReply(threaded: bool, steps: seq<Step>)
    ensures var s := Run(threaded, steps);
      && (s.core.alive ==> Carried(s) == Held(s.core.inflight) && s.sent == KeysOf(s.received) + Carried(s))
      && (s.core.alive && s.core.inflight.None? ==> |s.core.requests| < REQUEST_CAPACITY)
      && (Enabled(s, Reply(Unknown)) ==> |s.core.results| < RESULT_CAPACITY)
      && (s.core.results != [] ==> s.core.inflight == Some(s.core.results[0].key))
  {
    RunKeepsProtocol(threaded, steps);
    var s := Run(threaded, steps);
    hide Run;
    if s.core.results != [] {
      assert Carried(s)[|Carried(s)| - 1] == s.core.results[|s.core.results| - 1].key;
    }
  }

  /** Whatever a poll accepts, from the worker or as a refusal, is for the key its deck's slot holds now. */
  lemma AcceptedIsCurrent(threaded: bool, steps: seq<Step>, i: nat)
    requires i < |Run(threaded, steps).accepted|
    ensures Wanted(Run(threaded, steps).core.slots, Run(threaded, steps).accepted[i].key)
  {
    RunKeepsProtocol(threaded, steps);
  }

  /** A dead worker strands no deck: the poll that finds it gone refuses every due slot. */
  lemma DeadWorkerIsReported(s: System, d: DeckId)
    requires Protocol(s) && s.phase.Receiving? && !s.core.alive && s.core.results == []
    requires d in s.core.slots && s.core.slots[d].due <= s.clock
    ensures var t := Next(Next(s, TryReceive), Finish);
      && t.phase.Idle? && !t.core.open && t.core.inflight.None?
      && Completion(s.core.slots[d].key, Unavailable) in t.accepted
  {
    var r := Next(s, TryReceive);
    assert r.core.slots == s.core.slots && !r.core.open && r.phase.Sending?;
    hide Refusals;
  }

  // ----- No deck is starved ------------------------------------------------------------

  /** The step sends the key of deck `d`. */
  predicate Sends(s: System, step: Step, d: DeckId) {
    step.Finish? && Enabled(s, step) && Selected(Refused(s.core, s.clock), s.clock) == Some(d)
  }

  /** Poll times strictly increase. */
  predicate Later(s: System, step: Step) { step.Begin? ==> s.clock < step.now }

  predicate Waits(s: System, d: DeckId, slot: Slot) {
    d in s.core.slots && s.core.slots[d] == slot && slot.due <= s.clock
  }

  /** Deck `e` cannot be served before a slot due at `due`. */
  predicate Behind(s: System, e: DeckId, due: Time) { e in s.core.slots ==> s.core.slots[e].due > due }

  lemma ServedFallsBehind(s: System, step: Step, d: DeckId, e: DeckId, slot: Slot)
    requires Waits(s, d, slot) && Sends(s, step, e)
    ensures Behind(Next(s, step), e, slot.due)
  {
  }

  lemma StaysBehind(s: System, step: Step, e: DeckId, due: Time)
    requires Behind(s, e, due) && due <= s.clock && Later(s, step)
    ensures Behind(Next(s, step), e, due) && due <= Next(s, step).clock
  {
    hide Refusals;
  }

  lemma BehindIsNotServed(s: System, step: Step, d: DeckId, e: DeckId, slot: Slot)
    requires Waits(s, d, slot) && d < DECKS && Behind(s, e, slot.due)
    ensures !Sends(s, step, e)
  {
  }

  lemma {:induction false} StaysBehindThrough(threaded: bool, steps: seq<Step>, i: nat, j: nat, e: DeckId, due: Time)
    requires i <= j <= |steps| && Behind(At(threaded, steps, i), e, due) && due <= At(threaded, steps, i).clock
    requires forall k :: i <= k < j ==> Later(At(threaded, steps, k), steps[k])
    ensures Behind(At(threaded, steps, j), e, due)
    ensures due <= At(threaded, steps, j).clock
  {
    if i < j {
      StaysBehindThrough(threaded, steps, i, j - 1, e, due);
      hide Next, Behind;
      AtNext(threaded, steps, j - 1);
      StaysBehind(At(threaded, steps, j - 1), steps[j - 1], e, due);
    }
  }

  /** While a deck's due slot waits unchanged, with strictly increasing poll times, every other deck is served
      at most once. */
  lemma OthersAreServedOnce(threaded: bool, steps: seq<Step>, i: nat, j: nat, d: DeckId, e: DeckId, slot: Slot)
    requires i < j < |steps|
    requires forall k :: i <= k <= j ==> Waits(At(threaded, steps, k), d, slot)
    requires forall k :: i <= k <= j ==> Later(At(threaded, steps, k), steps[k])
    requires Sends(At(threaded, steps, i), steps[i], e)
    ensures !Sends(At(threaded, steps, j), steps[j], e)
  {
    hide Next, Sends;
    ServedFallsBehind(At(threaded, steps, i), steps[i], d, e, slot);
    AtNext(threaded, steps, i);
    assert Waits(At(threaded, steps, i + 1), d, slot) && Waits(At(threaded, steps, j), d, slot);
    StaysBehindThrough(threaded, steps, i + 1, j, e, slot.due);
    RunKeepsProtocol(threaded, steps[..j]);
    BehindIsNotServed(At(threaded, steps, j), steps[j], d, e, slot);
  }
}
