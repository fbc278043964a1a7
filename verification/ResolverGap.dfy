/** A gap between the cache and the polls: an answer can be cached that no poll accepted. */
module ResolverGap {
  import opened Domain
  import opened Resolver
  import opened ResolverRuns
  import opened LibraryCache

  /** A reply is dropped exactly when its deck's slot no longer holds its key; the cache is not told. */
  lemma DiscardedExactlyWhenUnwanted(s: System)
    requires Enabled(s, TryReceive) && s.core.results != []
    ensures var t, reply := Next(s, TryReceive), s.core.results[0];
      && t.received == s.received + [reply]
      && (t.accepted == s.accepted <==> !Wanted(s.core.slots, reply.key))
      && (Wanted(s.core.slots, reply.key) ==> t.accepted == s.accepted + [reply])
  {
  }

  const Fresh := Core(true, map[], None, [], [], true)

  /** The worker answers the request in the channel. */
  function Served(c: Core, prepared: Preparation): Core
    requires c.requests != []
  {
    c.(requests := c.requests[1..], results := c.results + [Completion(c.requests[0], prepared)])
  }

  function Asked(key: Key, due: Time): Core { Core(true, map[key.deck := Slot(key, due)], Some(key), [key], [], true) }

  /** A single slot that is due is the one chosen. */
  lemma OnlySlotIsChosen(key: Key, now: Time)
    requires key.deck < DECKS
    ensures Chosen(map[key.deck := Slot(key, now)], now, DECKS) == Some(key.deck)
  {
    var slots := map[key.deck := Slot(key, now)];
    var d := Chosen(slots, now, DECKS);
    hide Chosen;
    assert key.deck in slots && slots[key.deck].due <= now;
    assert d.Some? && d.value in slots;
  }

  lemma PollAsks(key: Key, now: Time)
    requires key.deck < DECKS
    ensures Polled(Fresh, [key], now) == Poll(Asked(key, now + SECOND), [])
  {
    var slots := map[key.deck := Slot(key, now)];
    assert NotedAll(map[], [key], 0, now) == map[];
    assert Begun(Fresh, [key], now) == Fresh.(slots := slots);
    OnlySlotIsChosen(key, now);
    hide Chosen;
    assert slots[key.deck := Slot(key, now + SECOND)] == map[key.deck := Slot(key, now + SECOND)];
  }

  lemma PollWithoutTheDeck(key: Key, due: Time, prepared: Preparation, now: Time)
    requires key.deck < DECKS
    ensures Polled(Served(Asked(key, due), prepared), [], now) == Poll(Fresh, [])
  {
    var c := Begun(Served(Asked(key, due), prepared), [], now);
    assert c.slots == map[];
    assert Receive(c) == Receipt(Fresh, [], true);
    assert ReceiveUpTo(Fresh, 3) == Receipt(Fresh, [], false);
    assert Chosen(map[], now, DECKS) == None;
    hide Chosen, ReceiveUpTo;
  }

  lemma PollAccepts(key: Key, due: Time, prepared: Preparation, now: Time)
    requires key.deck < DECKS && now < due
    ensures Polled(Served(Asked(key, due), prepared), [key], now).accepted == [Completion(key, prepared)]
  {
    var c := Served(Asked(key, due), prepared);
    var slots := map[key.deck := Slot(key, due)];
    assert Named([key], key.deck) by { assert [key][0].deck == key.deck; }
    assert Retained(slots, [key]) == slots;
    assert NotedAll(slots, [key], 0, now) == slots;
    assert NotedAll(slots, [key], 1, now) == Noted(slots, key, now) == slots;
    assert Begun(c, [key], now) == c;
    assert Receive(c).accepted == [Completion(key, prepared)];
    assert ReceiveUpTo(Receive(c).core, 3).accepted == [];
  }

  /** For every key: ask, let the worker answer and cache it, poll once without the deck, ask again. The first
      answer is dropped, the second is `Unchanged`, and it is the first one a poll accepts. */
  lemma UnchangedWithNothingAccepted(w: World, r: Reader, key: Key, first: Call, again: Call, t1: Time, t2: Time,
                                     t3: Time, t4: Time)
    requires key.deck < DECKS && t4 < t3 + SECOND
    requires Rising(w) && Possible(w, r, first) && Real(Answer(r, first).prepared) && first.key == key
    requires Possible(w, Answer(r, first).reader, again) && again.key == key && again.version.Some?
    requires again.sampledAt == first.sampledAt
    ensures var a1 := Answer(r, first);
      var p1 := Polled(Fresh, [key], t1);
      && p1.core.requests == [key]
      && var p2 := Polled(Served(p1.core, a1.prepared), [], t2);
      && p2.accepted == []
      && var p3 := Polled(p2.core, [key], t3);
      && p3.accepted == [] && p3.core.requests == [key]
      && Polled(Served(p3.core, Answer(a1.reader, again).prepared), [key], t4).accepted == [Completion(key, Unchanged)]
  {
    hide Polled, Answer, Possible, Rising;
    RepeatedLookup(w, r, first, again);
    PollAsks(key, t1);
    PollWithoutTheDeck(key, t1 + SECOND, Answer(r, first).prepared, t2);
    PollAsks(key, t3);
    PollAccepts(key, t3 + SECOND, Unchanged, t4);
  }
}
