/** A run of resolver and worker, from the start, in which the first answer handed on is that nothing changed. */
module ResolverWitness {
  import opened Domain
  import opened Resolver
  import opened ResolverRuns
  import opened LibraryCache
  import opened ResolverGap
  import opened ResolverAnswers

  function Bare(slots: Slots, inflight: Option<Key>, requests: seq<Key>, results: seq<Completion>): Core {
    Core(true, slots, inflight, requests, results, true)
  }

  function Slotted(key: Key, due: Time): Slots { map[key.deck := Slot(key, due)] }

  lemma JoinedAppend(w: World, es: seq<Turn>, e: Turn)
    ensures JoinedRun(w, es + [e]) == Follow(w, JoinedRun(w, es), e)
  {
    assert (es + [e])[..|es|] == es;
    hide Follow;
  }

  lemma JoinedTwo(w: World, es: seq<Turn>, d: Turn, e: Turn)
    ensures JoinedRun(w, es + [d, e]) == Follow(w, Follow(w, JoinedRun(w, es), d), e)
  {
    assert es + [d, e] == (es + [d]) + [e];
    hide Follow;
    JoinedAppend(w, es, d);
    JoinedAppend(w, es + [d], e);
  }

  // ----- The parts of the run ----------------------------------------------------------

  const TryOnce := Stepped(TryReceive)
  const Finishes := Stepped(Finish)
  const Takes := Stepped(Take)

  /** A poll that names one key of which nothing is known, and finds nothing to receive. */
  lemma Noting(j: Joined, key: Key, now: Time)
    requires key.deck < DECKS && j.system.phase.Idle? && j.system.core == Bare(map[], None, [], [])
    ensures Next(j.system, Begin([key], now)) == j.system.(
              core := Bare(Slotted(key, now), None, [], []), phase := Receiving(MAXIMUM_REPLIES), accepted := [],
              clock := now)
  {
    assert Retained(map[], [key]) == map[];
    assert NotedAll(map[], [key], 0, now) == map[];
    assert NotedAll(map[], [key], 1, now) == Slotted(key, now);
  }

  lemma Sending(s: System, key: Key, now: Time)
    requires key.deck < DECKS && s.phase.Sending? && s.clock == now
    requires s.core == Bare(Slotted(key, now), None, [], [])
    ensures Next(s, Finish) == s.(
              core := Bare(Slotted(key, now + SECOND), Some(key), [key], []), sent := s.sent + [key], phase := Idle)
  {
    var slots := Slotted(key, now);
    OnlySlotIsChosen(key, now);
    hide Chosen;
    assert slots[key.deck := Slot(key, now + SECOND)] == Slotted(key, now + SECOND);
    assert s.accepted + [] == s.accepted;
  }

  /** The state after one poll asks for the key and the worker takes it. */
  function Asking(j: Joined, key: Key, now: Time): Joined {
    j.(system := j.system.(
         core := Bare(Slotted(key, now + SECOND), Some(key), [], []), phase := Idle, accepted := [],
         worker := Some(key), sent := j.system.sent + [key], clock := now))
  }

  function Asks(key: Key, now: Time): seq<Turn> { [Stepped(Begin([key], now)), TryOnce, Finishes, Takes] }

  lemma AsksFor(w: World, es: seq<Turn>, key: Key, now: Time)
    requires var j := JoinedRun(w, es);
      && key.deck < DECKS && j.system.phase.Idle? && j.system.core == Bare(map[], None, [], [])
      && j.system.worker.None?
    ensures JoinedRun(w, es + Asks(key, now)) == Asking(JoinedRun(w, es), key, now)
  {
    var j := JoinedRun(w, es);
    hide JoinedRun;
    JoinedTwo(w, es, Stepped(Begin([key], now)), TryOnce);
    JoinedTwo(w, es + [Stepped(Begin([key], now)), TryOnce], Finishes, Takes);
    assert es + Asks(key, now) == es + [Stepped(Begin([key], now)), TryOnce] + [Finishes, Takes];
    Noting(j, key, now);
    var a := Follow(w, j, Stepped(Begin([key], now)));
    var b := Follow(w, a, TryOnce);
    assert b == a.(system := a.system.(phase := Phase.Sending)) by {
      assert a.system.received + [] == a.system.received;
    }
    hide Begun, Chosen, Refusals;
    Sending(b.system, key, now);
  }

  /** The worker's answer, which waits for the next poll. */
  lemma Answering(w: World, es: seq<Turn>, c: Call)
    requires var j := JoinedRun(w, es); MayLookUp(w, j, c) && j.system.core.results == []
    ensures var j := JoinedRun(w, es);
      JoinedRun(w, es + [LookedUp(c)]) == j.(
        system := j.system.(
          worker := None,
          core := j.system.core.(results := [Completion(c.key, Answer(After(j.calls, |j.calls|), c).prepared)])),
        calls := j.calls + [c])
  {
    JoinedAppend(w, es, LookedUp(c));
    hide JoinedRun, After, Answer, Possible;
  }

  function Skips(now: Time): seq<Turn> { [Stepped(Begin([], now)), TryOnce, TryOnce, Finishes] }

  /** A poll that names no key drops the slot, and the reply that arrives finds none. */
  lemma SkipsTheDeck(w: World, es: seq<Turn>, key: Key, due: Time, reply: Completion, now: Time)
    requires var j := JoinedRun(w, es);
      && key.deck < DECKS && j.system.phase.Idle? && reply.key == key
      && j.system.core == Bare(Slotted(key, due), Some(key), [], [reply]) && j.system.worker.None?
    ensures var j := JoinedRun(w, es);
      JoinedRun(w, es + Skips(now)) == j.(
        system := j.system.(
          core := Bare(map[], None, [], []), accepted := [], received := j.system.received + [reply], clock := now),
        wanted := j.wanted + [false])
  {
    var j := JoinedRun(w, es);
    hide JoinedRun;
    JoinedTwo(w, es, Stepped(Begin([], now)), TryOnce);
    JoinedTwo(w, es + [Stepped(Begin([], now)), TryOnce], TryOnce, Finishes);
    assert es + Skips(now) == es + [Stepped(Begin([], now)), TryOnce] + [TryOnce, Finishes];
    var a := Follow(w, j, Stepped(Begin([], now)));
    assert Begun(j.system.core, [], now).slots == map[];
    var b := Follow(w, a, TryOnce);
    assert b == a.(
        system := a.system.(
          core := Bare(map[], None, [], []), received := j.system.received + [reply], phase := Receiving(3)),
        wanted := j.wanted + [false]);
    var c := Follow(w, b, TryOnce);
    assert c == b.(system := b.system.(phase := Phase.Sending)) by {
      assert b.system.received + [] == b.system.received;
    }
    assert Chosen(map[], now, DECKS) == None;
    hide Chosen, Begun;
    assert c.system.sent + [] == c.system.sent;
  }

  function Gets(key: Key, now: Time): seq<Turn> { [Stepped(Begin([key], now)), TryOnce] }

  /** A poll that still names the key hands the waiting reply on. */
  lemma GetsTheReply(w: World, es: seq<Turn>, key: Key, due: Time, reply: Completion, now: Time)
    requires var j := JoinedRun(w, es);
      && key.deck < DECKS && j.system.phase.Idle? && reply.key == key
      && j.system.core == Bare(Slotted(key, due), Some(key), [], [reply])
    ensures var j, k := JoinedRun(w, es), JoinedRun(w, es + Gets(key, now));
      && k.system.received == j.system.received + [reply] && k.system.accepted == [reply]
      && k.wanted == j.wanted + [true] && k.handed == j.handed + [|j.system.received|] && k.calls == j.calls
  {
    var j := JoinedRun(w, es);
    hide JoinedRun;
    JoinedTwo(w, es, Stepped(Begin([key], now)), TryOnce);
    assert Named([key], key.deck) by { assert [key][0].deck == key.deck; }
    var slots := Slotted(key, due);
    assert Retained(slots, [key]) == slots;
    assert NotedAll(slots, [key], 0, now) == slots;
    assert NotedAll(slots, [key], 1, now) == slots;
  }

  // ----- The run -----------------------------------------------------------------------

  /** Ask, let the worker answer, poll without the deck, ask again, let it answer again, and poll. */
  function Gap(key: Key, first: Call, again: Call): seq<Turn> {
    Asks(key, 0) + [LookedUp(first)] + Skips(1) + Asks(key, 2) + [LookedUp(again)] + Gets(key, 3)
  }

  /** The two lookups find the library in one state. */
  predicate SameState(w: World, key: Key, first: Call, again: Call) {
    && key.deck < DECKS && first.key == again.key == key
    && Possible(w, NoReader, first) && Real(Answer(NoReader, first).prepared)
    && Possible(w, Answer(NoReader, first).reader, again) && again.version.Some?
    && first.readAt == first.sampledAt == again.sampledAt
  }

  lemma Halfway(w: World, key: Key, first: Call, again: Call)
    requires SameState(w, key, first, again)
    ensures var j := JoinedRun(w, Asks(key, 0) + [LookedUp(first)] + Skips(1));
      && j.system.phase.Idle? && j.system.core == Bare(map[], None, [], []) && j.system.worker.None?
      && j.system.received == [Completion(key, Answer(NoReader, first).prepared)]
      && j.calls == [first] && j.wanted == [false] && j.handed == []
  {
    var start := JoinedRun(w, []);
    assert start == Joined(Initial(true), [], [], []);
    assert [] + Asks(key, 0) == Asks(key, 0);
    hide JoinedRun, Possible, Answer;
    AsksFor(w, [], key, 0);
    assert After([], 0) == NoReader;
    hide After;
    Answering(w, Asks(key, 0), first);
    var reply := Completion(key, Answer(NoReader, first).prepared);
    SkipsTheDeck(w, Asks(key, 0) + [LookedUp(first)], key, SECOND, reply, 1);
    assert [] + [reply] == [reply];
  }

  lemma AfterOne(c: Call)
    ensures After([c], 1) == Answer(NoReader, c).reader
  {
    assert After([c], 0) == NoReader;
  }

  /** For every key and every library state: in this run from the start, the one reply ever handed on is the second,
      and it says that nothing changed. */
  lemma FirstHandedIsUnchanged(w: World, key: Key, first: Call, again: Call)
    requires Rising(w) && SameState(w, key, first, again)
    ensures var j := JoinedRun(w, Gap(key, first, again));
      && j.handed == [1] && j.wanted == [false, true]
      && j.system.received == [Completion(key, Answer(NoReader, first).prepared), Completion(key, Unchanged)]
      && j.system.accepted == [Completion(key, Unchanged)]
  {
    Halfway(w, key, first, again);
    RepeatedLookup(w, NoReader, first, again);
    AfterOne(first);
    hide JoinedRun, Possible, Answer, After, Rising;
    var es := Asks(key, 0) + [LookedUp(first)] + Skips(1);
    AsksFor(w, es, key, 2);
    Answering(w, es + Asks(key, 2), again);
    GetsTheReply(w, es + Asks(key, 2) + [LookedUp(again)], key, 2 + SECOND, Completion(key, Unchanged), 3);
    assert Gap(key, first, again) == es + Asks(key, 2) + [LookedUp(again)] + Gets(key, 3);
  }

  // ----- One instance ------------------------------------------------------------------

  const EmptyLibrary := World((n: nat) => map[], (c: nat, n: nat) => n)
  const SomeKey := Key(1, 1, 1, 1, 1, 1, 1)
  const FirstLookup := Call(SomeKey, true, Some(0), Some(Unknown), 0, 0)

  lemma ItHappens()
    ensures var j := JoinedRun(EmptyLibrary, Gap(SomeKey, FirstLookup, FirstLookup));
      j.handed == [1] && j.system.accepted == [Completion(SomeKey, Unchanged)]
  {
    assert SameState(EmptyLibrary, SomeKey, FirstLookup, FirstLookup);
    hide Gap, JoinedRun;
    FirstHandedIsUnchanged(EmptyLibrary, SomeKey, FirstLookup, FirstLookup);
  }
}
