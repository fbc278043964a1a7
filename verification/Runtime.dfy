/** The serialized runtime: a reducer fed from the bounded queue, one event at a time. */
module Runtime {
  import opened Domain
  import opened Reducer
  import opened EventQueue
  import opened RuntimeStates
  import opened ShowRuns
  import opened ShowTheorems

  // ----- Specification -----------------------------------------------------------------

  datatype Runtime = Runtime(state: State, queue: Queue)

  datatype Call = Submit(event: Event) | ProcessNext

  datatype Processed =
    | Idle
    | Failed(error: ReducerError)
    | Done(kind: EventKind, revision: nat, decision: Decision, effects: seq<Effect>)

  function Called(r: Runtime, c: Call): Runtime {
    match c
    case Submit(e) => r.(queue := Push(r.queue, e).0)
    case ProcessNext =>
      var (q, e) := Pop(r.queue);
      Runtime(if e.Some? then Apply(r.state, e.value) else r.state, q)
  }

  /** What a call to process the next event returns. */
  function Outcome(r: Runtime): Processed {
    var e := Pop(r.queue).1;
    if e.None? then Idle
    else
      match Reduce(r.state, e.value)
      case Ok(x) => Done(e.value.Kind(), x.state.show.revision, x.decision, x.effects)
      case Err(error) => Failed(error)
  }

  function Running(capacity: nat, calls: seq<Call>): Runtime {
    if calls == [] then Runtime(InitialState, Queue(capacity, [], None))
    else Called(Running(capacity, calls[..|calls| - 1]), calls[|calls| - 1])
  }

  // ----- Implementation ----------------------------------------------------------------

  class SerializedRuntime {
    var state: RuntimeState
    const ingress: BoundedEventQueue

    function View(): Runtime reads this, state, ingress { Runtime(state.View(), ingress.View()) }

    constructor (capacity: nat)
      requires 0 < capacity
      ensures fresh(state) && fresh(ingress) && View() == Running(capacity, [])
    {
      state := new RuntimeState();
      ingress := new BoundedEventQueue(capacity);
    }

    static method TryNew(capacity: nat) returns (r: Option<SerializedRuntime>)
      ensures r.None? <==> capacity == 0
      ensures r.Some? ==> fresh(r.value) && fresh(r.value.state) && fresh(r.value.ingress)
      ensures r.Some? ==> r.value.View() == Running(capacity, [])
    {
      if capacity == 0 { return None; }
      var runtime := new SerializedRuntime(capacity);
      r := Some(runtime);
    }

    method SubmitEvent(e: Event) returns (outcome: Ingress)
      modifies ingress
      ensures View() == Called(old(View()), Submit(e)) && outcome == Push(old(View()).queue, e).1
    {
      outcome := ingress.PushBack(e);
    }

    method ProcessEvent() returns (result: Processed)
      modifies this`state, ingress
      ensures View() == Called(old(View()), ProcessNext) && result == Outcome(old(View()))
      ensures state == old(state) || fresh(state)
    {
      hide Reduce, LastNonCritical, Without;
      var event := ingress.PopFront();
      if event.None? { return Idle; }
      var ruling, next := RuntimeState.Reduce(state, event.value);
      if ruling.Err? { return Failed(ruling.error); }
      state := next;
      return Done(event.value.Kind(), next.revision, ruling.value.decision, ruling.value.effects);
    }
  }

  // ----- An overload outranks every command that does not know of it -------------------

  function Before(capacity: nat, calls: seq<Call>, i: nat): Runtime
    requires i <= |calls|
  {
    Running(capacity, calls[..i])
  }

  /** Call `i` processes a command and accepts it. */
  predicate AcceptsCommandExpecting(r: Runtime, c: Call, revision: nat) {
    && c.ProcessNext?
    && var e := Pop(r.queue).1;
    e.Some? && e.value.UserCommand? && e.value.expectedRevision == revision
    && Accepts(r.state, e.value, OperationTransitionAccepted)
  }

  predicate SendsCue(r: Runtime, c: Call) {
    c.ProcessNext? && Pop(r.queue).1.Some? && SendsAny(r.state, Pop(r.queue).1.value)
  }

  lemma BeforeNext(capacity: nat, calls: seq<Call>, i: nat)
    requires i < |calls|
    ensures Before(capacity, calls, i + 1) == Called(Before(capacity, calls, i), calls[i])
  {
    assert calls[..i + 1][..i] == calls[..i];
  }

  lemma {:induction false} RunningIsSound(capacity: nat, calls: seq<Call>)
    ensures Sound(Running(capacity, calls).state)
  {
    if calls != [] {
      hide Sound, Apply;
      RunningIsSound(capacity, calls[..|calls| - 1]);
      var r := Running(capacity, calls[..|calls| - 1]);
      if Pop(r.queue).1.Some? {
        ApplyKeepsSound(r.state, Pop(r.queue).1.value);
      }
    } else {
      assert Consistent(InitialShow);
    }
  }

  lemma BeforeIsSound(capacity: nat, calls: seq<Call>, i: nat)
    requires i <= |calls|
    ensures Sound(Before(capacity, calls, i).state)
  {
    RunningIsSound(capacity, calls[..i]);
  }

  /** An overload seen at revision `n` is either still first in the queue, or has raised the revision,
      or the event counter is exhausted and nothing is accepted any more. */
  predicate Outranked(r: Runtime, n: nat) {
    && n <= r.state.show.revision
    && (r.queue.pending.Some? || n < r.state.show.revision || r.state.journal.processed >= U64_MAX)
  }

  lemma StateStep(s: State, e: Event)
    requires Sound(s)
    ensures s.show.revision <= Apply(s, e).show.revision && s.journal.processed <= Apply(s, e).journal.processed
    ensures e.QueueOverloaded? && s.journal.processed < U64_MAX ==> s.show.revision < Apply(s, e).show.revision
    ensures e.UserCommand? && Accepts(s, e, OperationTransitionAccepted) ==>
      e.expectedRevision == s.show.revision && s.journal.processed < U64_MAX
  {
    hide ReduceObservation, ReduceEffectResult, ExecutionEffect, Current, Coherent;
    ShowStep(s.show, e);
  }

  lemma OutrankedStep(r: Runtime, c: Call, n: nat)
    requires Sound(r.state) && Outranked(r, n)
    ensures Outranked(Called(r, c), n)
  {
    hide Reduce, Sound, Apply, LastNonCritical, Without;
    if c.ProcessNext? && Pop(r.queue).1.Some? {
      StateStep(r.state, Pop(r.queue).1.value);
    }
  }

  lemma {:induction false} StaysOutranked(capacity: nat, calls: seq<Call>, i: nat, j: nat)
    requires i <= j <= |calls| && Before(capacity, calls, i).queue.pending.Some?
    ensures Outranked(Before(capacity, calls, j), Before(capacity, calls, i).state.show.revision)
  {
    hide Called, Sound, Before;
    if i < j {
      hide Outranked;
      StaysOutranked(capacity, calls, i, j - 1);
      BeforeNext(capacity, calls, j - 1);
      BeforeIsSound(capacity, calls, j - 1);
      OutrankedStep(Before(capacity, calls, j - 1), calls[j - 1], Before(capacity, calls, i).state.show.revision);
    }
  }

  /** No command expecting a revision at or below the one at which an overload was pending is ever
      accepted afterwards. */
  lemma OverloadOutranksOlderCommands(capacity: nat, calls: seq<Call>, i: nat, j: nat, expected: nat)
    requires i <= j < |calls| && Before(capacity, calls, i).queue.pending.Some?
    requires AcceptsCommandExpecting(Before(capacity, calls, j), calls[j], expected)
    ensures Before(capacity, calls, i).state.show.revision < expected
  {
    hide Reduce, Sound, Accepts;
    StaysOutranked(capacity, calls, i, j);
    RunningIsSound(capacity, calls[..j]);
    StateStep(Before(capacity, calls, j).state, Pop(Before(capacity, calls, j).queue).1.value);
  }

  predicate Shut(r: Runtime) {
    r.queue.pending.Some? || r.state.show.operation != Live || r.state.journal.processed >= U64_MAX
  }

  predicate AcceptsStart(r: Runtime, c: Call) {
    && c.ProcessNext? && Pop(r.queue).1.Some?
    && AcceptsCommand(r.state, Pop(r.queue).1.value, Start)
  }

  lemma ShutStep(s: State, e: Event)
    requires Sound(s)
    requires e.QueueOverloaded? || s.show.operation != Live || s.journal.processed >= U64_MAX
    requires !AcceptsCommand(s, e, Start)
    ensures !SendsAny(s, e)
    ensures Apply(s, e).show.operation != Live || Apply(s, e).journal.processed >= U64_MAX
  {
    hide ReduceObservation, ReduceEffectResult, ReduceCommand, Coherent;
    ShowStep(s.show, e);
  }

  lemma {:induction false} StaysShut(capacity: nat, calls: seq<Call>, i: nat, j: nat)
    requires i <= j <= |calls| && Before(capacity, calls, i).queue.pending.Some?
    requires forall k :: i <= k < j ==> !AcceptsStart(Before(capacity, calls, k), calls[k])
    ensures Shut(Before(capacity, calls, j))
  {
    if i < j {
      hide Reduce, Sound, AcceptsCommand;
      StaysShut(capacity, calls, i, j - 1);
      BeforeNext(capacity, calls, j - 1);
      var r := Before(capacity, calls, j - 1);
      RunningIsSound(capacity, calls[..j - 1]);
      assert !AcceptsStart(r, calls[j - 1]);
      if calls[j - 1].ProcessNext? && Pop(r.queue).1.Some? {
        ShutStep(r.state, Pop(r.queue).1.value);
      }
    }
  }

  function Expected(r: Runtime): int {
    var e := Pop(r.queue).1;
    if e.Some? && e.value.UserCommand? then e.value.expectedRevision else -1
  }

  lemma ShutSends(capacity: nat, calls: seq<Call>, i: nat, j: nat)
    requires i <= j < |calls| && Before(capacity, calls, i).queue.pending.Some?
    requires forall k :: i <= k < j ==> !AcceptsStart(Before(capacity, calls, k), calls[k])
    requires SendsCue(Before(capacity, calls, j), calls[j])
    ensures AcceptsStart(Before(capacity, calls, j), calls[j])
  {
    hide Reduce, Sound, AcceptsCommand, SendsAny;
    StaysShut(capacity, calls, i, j);
    RunningIsSound(capacity, calls[..j]);
    var r := Before(capacity, calls, j);
    if !AcceptsStart(r, calls[j]) {
      ShutStep(r.state, Pop(r.queue).1.value);
    }
  }

  /** From the moment an overload is pending, a cue is sent only after a Start was accepted whose sender
      knew a revision newer than the overload. */
  lemma OverloadClosesUntilNewerStart(capacity: nat, calls: seq<Call>, i: nat, j: nat)
    requires i <= j < |calls| && Before(capacity, calls, i).queue.pending.Some?
    requires SendsCue(Before(capacity, calls, j), calls[j])
    ensures exists k :: i <= k <= j && AcceptsStart(Before(capacity, calls, k), calls[k])
                        && Expected(Before(capacity, calls, k)) > Before(capacity, calls, i).state.show.revision
  {
    hide Reduce, Sound, Called, Pop;
    var k: nat;
    if forall k :: i <= k < j ==> !AcceptsStart(Before(capacity, calls, k), calls[k]) {
      k := j;
      ShutSends(capacity, calls, i, j);
    } else {
      k :| i <= k < j && AcceptsStart(Before(capacity, calls, k), calls[k]);
    }
    OverloadOutranksOlderCommands(capacity, calls, i, k, Expected(Before(capacity, calls, k)));
  }
}
