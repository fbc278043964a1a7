/** The bounded ingress queue: critical events displace observations, overload is reported first. */
module EventQueue {
  import opened Domain

  datatype Queue = Queue(capacity: nat, events: seq<Event>, pending: Option<Overload>)

  datatype Ingress =
    | Accepted
    | AcceptedAfterEvicting(evicted: EventKind)
    | Saturated(rejected: EventKind, critical: bool)

  // ----- Specification -----------------------------------------------------------------

  /** The position after the last non-critical event, or 0 when every event is critical. */
  function LastNonCritical(events: seq<Event>): (n: nat)
    ensures n <= |events|
    ensures n > 0 ==> !events[n - 1].IsCritical()
    ensures forall i :: n <= i < |events| ==> events[i].IsCritical()
  {
    if events == [] then 0
    else if !events[|events| - 1].IsCritical() then |events|
    else LastNonCritical(events[..|events| - 1])
  }

  function Without<T>(xs: seq<T>, i: nat): (r: seq<T>)
    requires i < |xs|
    ensures |r| == |xs| - 1
    ensures forall j :: 0 <= j < |r| ==> r[j] == xs[if j < i then j else j + 1]
  {
    xs[..i] + xs[i + 1..]
  }

  function Overloaded(pending: Option<Overload>, e: Event): Overload {
    match pending
    case None => Overload(e.MonotonicTime(), e.Kind(), e.IsCritical(), 1)
    case Some(o) =>
      o.(rejectedKind := e.Kind(),
         rejectedCritical := o.rejectedCritical || e.IsCritical(),
         occurrences := if o.occurrences < U64_MAX then o.occurrences + 1 else o.occurrences)
  }

  function Push(q: Queue, e: Event): (Queue, Ingress) {
    if |q.events| < q.capacity then (q.(events := q.events + [e]), Accepted)
    else
      var n := LastNonCritical(q.events);
      var q' := q.(pending := Some(Overloaded(q.pending, e)));
      if e.IsCritical() && n > 0 then
        (q'.(events := Without(q.events, n - 1) + [e]), AcceptedAfterEvicting(q.events[n - 1].Kind()))
      else (q', Saturated(e.Kind(), e.IsCritical()))
  }

  function Pop(q: Queue): (Queue, Option<Event>) {
    if q.pending.Some? then (q.(pending := None), Some(QueueOverloaded(q.pending.value)))
    else if q.events != [] then (q.(events := q.events[1..]), Some(q.events[0]))
    else (q, None)
  }

  // ----- Implementation ----------------------------------------------------------------

  class BoundedEventQueue {
    const capacity: nat
    var events: seq<Event>
    var pending: Option<Overload>

    function View(): Queue reads this { Queue(capacity, events, pending) }

    constructor (capacity: nat)
      requires 0 < capacity
      ensures View() == Queue(capacity, [], None)
    {
      this.capacity := capacity;
      events := [];
      pending := None;
    }

    /** A queue needs room for at least one event. */
    static method TryNew(capacity: nat) returns (r: Option<BoundedEventQueue>)
      ensures r.None? <==> capacity == 0
      ensures r.Some? ==> fresh(r.value) && r.value.View() == Queue(capacity, [], None)
    {
      if capacity == 0 { return None; }
      var queue := new BoundedEventQueue(capacity);
      r := Some(queue);
    }

    method RecordOverload(e: Event)
      modifies this`pending
      ensures pending == Some(Overloaded(old(pending), e))
    {
      match pending
      case Some(o) =>
        var occurrences := if o.occurrences < U64_MAX then o.occurrences + 1 else o.occurrences;
        pending := Some(Overload(o.occurredAt, e.Kind(), o.rejectedCritical || e.IsCritical(), occurrences));
      case None =>
        pending := Some(Overload(e.MonotonicTime(), e.Kind(), e.IsCritical(), 1));
    }

    method FindLastNonCritical() returns (n: nat)
      ensures n == LastNonCritical(events)
    {
      n := |events|;
      while n > 0 && events[n - 1].IsCritical()
        invariant 0 <= n <= |events|
        invariant LastNonCritical(events[..n]) == LastNonCritical(events)
      {
        assert events[..n][..n - 1] == events[..n - 1];
        n := n - 1;
      }
    }

    method PushBack(e: Event) returns (outcome: Ingress)
      modifies this
      ensures View() == Push(old(View()), e).0 && outcome == Push(old(View()), e).1
    {
      if |events| < capacity {
        events := events + [e];
        return Accepted;
      }
      RecordOverload(e);
      if e.IsCritical() {
        var n := FindLastNonCritical();
        if n > 0 {
          var evicted := events[n - 1].Kind();
          events := Without(events, n - 1) + [e];
          return AcceptedAfterEvicting(evicted);
        }
      }
      return Saturated(e.Kind(), e.IsCritical());
    }

    method PopFront() returns (event: Option<Event>)
      modifies this
      ensures View() == Pop(old(View())).0 && event == Pop(old(View())).1
    {
      if pending.Some? {
        event := Some(QueueOverloaded(pending.value));
        pending := None;
      } else if events != [] {
        event := Some(events[0]);
        events := events[1..];
      } else {
        event := None;
      }
    }
  }

  // ----- Conservation ------------------------------------------------------------------

  datatype Op = Enqueue(event: Event) | Dequeue

  /** A queue together with the account of one run: the accepted and the delivered events, the positions
      of the accepted events that were kept and of those evicted, and the numbers refused and reported lost. */
  datatype Account = Account(
    q: Queue, accepted: seq<Event>, delivered: seq<Event>, kept: seq<nat>, gone: set<nat>, rejected: nat, reported: nat)
  {
    /** What was delivered followed by what is still queued. */
    function Present(): seq<Event> { delivered + q.events }
  }

  /** The position among the present events of the observation that gives way. */
  function Victim(a: Account): int { |a.delivered| + LastNonCritical(a.q.events) - 1 }

  function Booked(a: Account, op: Op): Account
    requires |a.kept| == |a.Present()|
  {
    match op
    case Enqueue(e) =>
      var (q, outcome) := Push(a.q, e);
      (match outcome
       case Accepted => a.(q := q, accepted := a.accepted + [e], kept := a.kept + [|a.accepted|])
       case AcceptedAfterEvicting(_) =>
         var i := Victim(a);
         a.(q := q, accepted := a.accepted + [e], kept := Without(a.kept, i) + [|a.accepted|],
           gone := a.gone + {a.kept[i]})
       case Saturated(_, _) => a.(q := q, rejected := a.rejected + 1))
    case Dequeue =>
      var (q, event) := Pop(a.q);
      if event.None? then a
      else if a.q.pending.Some? then a.(q := q, reported := a.reported + a.q.pending.value.occurrences)
      else a.(q := q, delivered := a.delivered + [event.value])
  }

  /** `present` is `all` in order without the positions in `gone`. */
  predicate Picks<T(==)>(all: seq<T>, present: seq<T>, kept: seq<nat>, gone: set<nat>) {
    && |kept| == |present| && |kept| + |gone| == |all|
    && (forall k :: k in gone ==> k < |all|)
    && (forall i :: 0 <= i < |kept| ==> kept[i] < |all| && kept[i] !in gone && present[i] == all[kept[i]])
    && (forall i, j :: 0 <= i < j < |kept| ==> kept[i] < kept[j])
  }

  lemma PicksAppend<T>(all: seq<T>, present: seq<T>, kept: seq<nat>, gone: set<nat>, x: T)
    requires Picks(all, present, kept, gone)
    ensures Picks(all + [x], present + [x], kept + [|all|], gone)
  {
  }

  lemma PicksWithout<T>(all: seq<T>, present: seq<T>, kept: seq<nat>, gone: set<nat>, i: nat)
    requires Picks(all, present, kept, gone) && i < |kept|
    ensures Picks(all, Without(present, i), Without(kept, i), gone + {kept[i]})
  {
    assert |gone + {kept[i]}| == |gone| + 1;
  }

  function Criticals(events: seq<Event>): seq<Event> {
    if events == [] then []
    else Criticals(events[..|events| - 1]) + (if events[|events| - 1].IsCritical() then [events[|events| - 1]] else [])
  }

  lemma CriticalsAppend(events: seq<Event>, e: Event)
    ensures Criticals(events + [e]) == Criticals(events) + (if e.IsCritical() then [e] else [])
  {
    assert (events + [e])[..|events|] == events;
  }

  /** Leaving out an observation does not touch the critical events. */
  lemma {:induction false} CriticalsWithout(events: seq<Event>, i: nat)
    requires i < |events| && !events[i].IsCritical()
    ensures Criticals(Without(events, i)) == Criticals(events)
  {
    var n := |events| - 1;
    if i == n {
      assert Without(events, i) == events[..n];
    } else {
      CriticalsWithout(events[..n], i);
      assert Without(events, i) == Without(events[..n], i) + [events[n]];
      CriticalsAppend(Without(events[..n], i), events[n]);
    }
  }

  predicate Balanced(a: Account) {
    |a.gone| + a.rejected <= U64_MAX ==>
      |a.gone| + a.rejected == a.reported + (if a.q.pending.Some? then a.q.pending.value.occurrences else 0)
  }

  predicate OnlyObservationsGone(a: Account) {
    forall k :: k in a.gone ==> k < |a.accepted| && !a.accepted[k].IsCritical()
  }

  predicate Conserved(a: Account) {
    && |a.q.events| <= a.q.capacity
    && Picks(a.accepted, a.Present(), a.kept, a.gone)
    && OnlyObservationsGone(a)
    && Criticals(a.Present()) == Criticals(a.accepted)
    && Balanced(a)
  }

  lemma AcceptShape(a: Account, e: Event)
    requires |a.kept| == |a.Present()| && Push(a.q, e).1.Accepted?
    ensures var b := Booked(a, Enqueue(e));
      && b.Present() == a.Present() + [e] && b.accepted == a.accepted + [e] && b.kept == a.kept + [|a.accepted|]
      && |b.q.events| <= b.q.capacity && b.gone == a.gone && b.rejected == a.rejected && b.reported == a.reported
      && b.q.pending == a.q.pending
  {
    assert a.delivered + (a.q.events + [e]) == a.Present() + [e];
  }

  lemma AcceptConserves(a: Account, e: Event)
    requires Conserved(a) && Push(a.q, e).1.Accepted?
    ensures Conserved(Booked(a, Enqueue(e)))
  {
    AcceptShape(a, e);
    assert OnlyObservationsGone(Booked(a, Enqueue(e)));
    hide Picks, OnlyObservationsGone, Push, Booked;
    PicksAppend(a.accepted, a.Present(), a.kept, a.gone, e);
    CriticalsAppend(a.Present(), e);
    CriticalsAppend(a.accepted, e);
  }

  lemma EvictionShape(a: Account, e: Event)
    requires |a.kept| == |a.Present()| && |a.q.events| <= a.q.capacity && Push(a.q, e).1.AcceptedAfterEvicting?
    ensures 0 <= Victim(a) < |a.Present()| && !a.Present()[Victim(a)].IsCritical()
    ensures var i, b := Victim(a), Booked(a, Enqueue(e));
      && b.Present() == Without(a.Present(), i) + [e] && b.accepted == a.accepted + [e]
      && b.kept == Without(a.kept, i) + [|a.accepted|] && b.gone == a.gone + {a.kept[i]}
      && |b.q.events| <= b.q.capacity && b.rejected == a.rejected && b.reported == a.reported
      && b.q.pending == Some(Overloaded(a.q.pending, e))
  {
    var n := LastNonCritical(a.q.events) - 1;
    assert a.Present()[Victim(a)] == a.q.events[n];
  }

  lemma EvictionPicks(a: Account, e: Event)
    requires Conserved(a) && Push(a.q, e).1.AcceptedAfterEvicting?
    ensures var b := Booked(a, Enqueue(e));
      Picks(b.accepted, b.Present(), b.kept, b.gone) && OnlyObservationsGone(b) && |b.gone| == |a.gone| + 1
  {
    hide Push, Booked, Criticals, Balanced;
    EvictionShape(a, e);
    var i := Victim(a);
    PicksWithout(a.accepted, a.Present(), a.kept, a.gone, i);
    PicksAppend(a.accepted, Without(a.Present(), i), Without(a.kept, i), a.gone + {a.kept[i]}, e);
  }

  lemma EvictionConserves(a: Account, e: Event)
    requires Conserved(a) && Push(a.q, e).1.AcceptedAfterEvicting?
    ensures Conserved(Booked(a, Enqueue(e)))
  {
    EvictionShape(a, e);
    EvictionPicks(a, e);
    hide Picks, OnlyObservationsGone, Push, Booked, Victim;
    CriticalsWithout(a.Present(), Victim(a));
    CriticalsAppend(Without(a.Present(), Victim(a)), e);
    CriticalsAppend(a.accepted, e);
  }

  lemma RejectConserves(a: Account, e: Event)
    requires Conserved(a) && Push(a.q, e).1.Saturated?
    ensures Conserved(Booked(a, Enqueue(e)))
  {
    hide Picks;
  }

  lemma DequeueConserves(a: Account)
    requires Conserved(a)
    ensures Conserved(Booked(a, Dequeue))
  {
    var b := Booked(a, Dequeue);
    assert b.Present() == a.Present();
    hide Picks;
  }

  function Ledger(capacity: nat, ops: seq<Op>): (a: Account)
    requires 0 < capacity
    ensures |a.kept| == |a.Present()|
  {
    if ops == [] then Account(Queue(capacity, [], None), [], [], [], {}, 0, 0)
    else Booked(Ledger(capacity, ops[..|ops| - 1]), ops[|ops| - 1])
  }

  /** Over every run the queue stays within its capacity, delivers what it accepted in order except for
      evicted observations, loses no accepted critical event, and reports every loss. */
  lemma {:induction false} QueueConserves(capacity: nat, ops: seq<Op>)
    requires 0 < capacity
    ensures Conserved(Ledger(capacity, ops))
    ensures Ledger(capacity, ops).q.capacity == capacity
  {
    if ops != [] {
      hide Conserved;
      QueueConserves(capacity, ops[..|ops| - 1]);
      var a := Ledger(capacity, ops[..|ops| - 1]);
      match ops[|ops| - 1]
      case Enqueue(e) =>
        match Push(a.q, e).1 {
          case Accepted => AcceptConserves(a, e);
          case AcceptedAfterEvicting(_) => EvictionConserves(a, e);
          case Saturated(_, _) => RejectConserves(a, e);
        }
      case Dequeue => DequeueConserves(a);
    }
  }

  /** A critical event is refused only by a queue full of critical events. */
  lemma CriticalRefusedOnlyWhenFull(q: Queue, e: Event)
    requires e.IsCritical()
    ensures Push(q, e).1.Saturated? <==>
      |q.events| >= q.capacity && forall i :: 0 <= i < |q.events| ==> q.events[i].IsCritical()
  {
  }

  // ----- What an overload report tells -------------------------------------------------

  function QueueAt(capacity: nat, ops: seq<Op>, i: nat): Queue
    requires i <= |ops|
  {
    if i == 0 then Queue(capacity, [], None)
    else
      var q := QueueAt(capacity, ops, i - 1);
      if ops[i - 1].Enqueue? then Push(q, ops[i - 1].event).0 else Pop(q).0
  }

  lemma {:induction false} LedgerQueue(capacity: nat, ops: seq<Op>, i: nat)
    requires 0 < capacity && i <= |ops|
    ensures Ledger(capacity, ops[..i]).q == QueueAt(capacity, ops, i)
  {
    if i > 0 {
      LedgerQueue(capacity, ops, i - 1);
      assert ops[..i][..i - 1] == ops[..i - 1];
    }
  }

  /** The operation after the last delivered report: where the period of the next report begins. */
  function Since(capacity: nat, ops: seq<Op>, i: nat): (n: nat)
    requires i <= |ops|
    ensures n <= i
  {
    if i == 0 then 0
    else if ops[i - 1].Dequeue? && QueueAt(capacity, ops, i - 1).pending.Some? then i
    else Since(capacity, ops, i - 1)
  }

  /** Operation `k` offers an event to a full queue. */
  predicate MeetsFull(capacity: nat, ops: seq<Op>, k: nat)
    requires k < |ops|
  {
    ops[k].Enqueue? && |QueueAt(capacity, ops, k).events| >= QueueAt(capacity, ops, k).capacity
  }

  /** A critical event is among those offered to a full queue. */
  predicate CriticalMeetsFull(capacity: nat, ops: seq<Op>, k: nat)
    requires k < |ops|
  {
    MeetsFull(capacity, ops, k) && ops[k].event.IsCritical()
  }

  predicate AllCritical(q: Queue) { forall i :: 0 <= i < |q.events| ==> q.events[i].IsCritical() }

  /** The critical event of operation `k` is refused. */
  predicate LosesCritical(capacity: nat, ops: seq<Op>, k: nat)
    requires k < |ops|
  {
    ops[k].Enqueue? && ops[k].event.IsCritical() && Push(QueueAt(capacity, ops, k), ops[k].event).1.Saturated?
  }

  predicate SomeFull(capacity: nat, ops: seq<Op>, from: nat, to: nat)
    requires to <= |ops|
  {
    exists k :: from <= k < to && MeetsFull(capacity, ops, k)
  }

  predicate SomeCritical(capacity: nat, ops: seq<Op>, from: nat, to: nat)
    requires to <= |ops|
  {
    exists k :: from <= k < to && CriticalMeetsFull(capacity, ops, k)
  }

  predicate SomeLoss(capacity: nat, ops: seq<Op>, from: nat, to: nat)
    requires to <= |ops|
  {
    exists k :: from <= k < to && LosesCritical(capacity, ops, k)
  }

  /** A report is pending exactly when an event met a full queue since the last one, and it carries the critical flag
      exactly when a critical one did. */
  lemma {:induction false} FlagMeansACriticalMetAFullQueue(capacity: nat, ops: seq<Op>, i: nat)
    requires i <= |ops|
    ensures var q, from := QueueAt(capacity, ops, i), Since(capacity, ops, i);
      && (q.pending.Some? <==> SomeFull(capacity, ops, from, i))
      && (q.pending.Some? ==> (q.pending.value.rejectedCritical <==> SomeCritical(capacity, ops, from, i)))
      && (q.pending.None? ==> !SomeCritical(capacity, ops, from, i))
  {
    if i > 0 {
      FlagMeansACriticalMetAFullQueue(capacity, ops, i - 1);
      var q, from := QueueAt(capacity, ops, i - 1), Since(capacity, ops, i - 1);
      hide LastNonCritical;
      if MeetsFull(capacity, ops, i - 1) {
        assert SomeFull(capacity, ops, from, i);
        if SomeCritical(capacity, ops, from, i - 1) || ops[i - 1].event.IsCritical() {
          assert CriticalMeetsFull(capacity, ops, i - 1) || SomeCritical(capacity, ops, from, i - 1);
          assert SomeCritical(capacity, ops, from, i);
        }
      }
    }
  }

  /** Since the last report a critical event was lost exactly when one of the critical events that met a full queue
      found no observation to displace. The flag alone only says that there was such an event. */
  lemma LossNeedsAQueueOfCriticals(capacity: nat, ops: seq<Op>, from: nat, to: nat)
    requires from <= to <= |ops|
    ensures SomeLoss(capacity, ops, from, to) <==>
      exists k :: from <= k < to && CriticalMeetsFull(capacity, ops, k) && AllCritical(QueueAt(capacity, ops, k))
    ensures SomeLoss(capacity, ops, from, to) ==> SomeCritical(capacity, ops, from, to)
  {
    forall k | from <= k < to
      ensures LosesCritical(capacity, ops, k) <==>
        CriticalMeetsFull(capacity, ops, k) && AllCritical(QueueAt(capacity, ops, k))
    {
      if ops[k].Enqueue? && ops[k].event.IsCritical() {
        CriticalRefusedOnlyWhenFull(QueueAt(capacity, ops, k), ops[k].event);
      }
    }
  }

  function Critical(): Event { RuntimeStarted(0) }

  function NonCritical(): Event { Observation(1, 1, 0, SourceStatusChanged(SourceReady)) }

  /** A queue of one holds an observation and is offered a critical event: the report is flagged and nothing critical
      is lost. */
  lemma CriticalFlagWithoutLoss()
    ensures var ops := [Enqueue(NonCritical()), Enqueue(Critical())];
      && QueueAt(1, ops, 2).pending.Some? && QueueAt(1, ops, 2).pending.value.rejectedCritical
      && QueueAt(1, ops, 2).events == [Critical()] && !SomeLoss(1, ops, 0, 2)
  {
    var ops := [Enqueue(NonCritical()), Enqueue(Critical())];
    assert QueueAt(1, ops, 0) == Queue(1, [], None);
    assert QueueAt(1, ops, 1) == Queue(1, [NonCritical()], None);
    assert LastNonCritical([NonCritical()]) == 1;
    assert Without([NonCritical()], 0) == [];
    assert Push(QueueAt(1, ops, 1), Critical()).0.events == [Critical()];
    LossNeedsAQueueOfCriticals(1, ops, 0, 2);
  }
}
