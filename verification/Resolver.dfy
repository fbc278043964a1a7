/** The polling half of the live library resolver: slots per deck, one request in flight. */
module Resolver {
  import opened Domain

  /** What identifies one lookup. */
  datatype Key = Key(
    deck: DeckId, load: LoadId, sourcePlayer: nat, sourceId: nat, mediaGeneration: nat, rekordboxId: nat,
    libraryRevision: nat)

  datatype Preparation = Ready(track: nat) | Unknown | Unprepared | Unavailable | Unchanged

  datatype Completion = Completion(key: Key, prepared: Preparation)

  datatype Slot = Slot(key: Key, due: Time)

  type Slots = map<DeckId, Slot>

  const SECOND: nat := 1_000_000
  const MAXIMUM_KEYS: nat := 6
  const MAXIMUM_REPLIES: nat := 4
  const REQUEST_CAPACITY: nat := 1
  const RESULT_CAPACITY: nat := 4
  const DECKS: nat := 256

  /** The resolver and the two channels it shares with its worker. */
  datatype Core = Core(
    open: bool, slots: Slots, inflight: Option<Key>, requests: seq<Key>, results: seq<Completion>, alive: bool)

  /** Slots are filed under their own deck number, which is a byte. */
  predicate Filed(slots: Slots) { forall d :: d in slots ==> d < DECKS && slots[d].key.deck == d }

  predicate Addressed(keys: seq<Key>) { forall i :: 0 <= i < |keys| ==> keys[i].deck < DECKS }

  // ----- One poll ----------------------------------------------------------------------

  predicate Named(keys: seq<Key>, d: DeckId) { exists i :: 0 <= i < |keys| && keys[i].deck == d }

  function Retained(slots: Slots, keys: seq<Key>): Slots { map d | d in slots && Named(keys, d) :: slots[d] }

  function Noted(slots: Slots, key: Key, now: Time): Slots {
    if key.deck in slots && slots[key.deck].key == key then slots else slots[key.deck := Slot(key, now)]
  }

  function NotedAll(slots: Slots, keys: seq<Key>, n: nat, now: Time): (r: Slots)
    requires n <= |keys|
    ensures Filed(slots) && Addressed(keys) ==> Filed(r)
    ensures forall d :: d in r ==> (d in slots && r[d] == slots[d]) || r[d].due == now
  {
    if n == 0 then slots else Noted(NotedAll(slots, keys, n - 1, now), keys[n - 1], now)
  }

  function Begun(c: Core, keys: seq<Key>, now: Time): Core {
    c.(slots := NotedAll(Retained(c.slots, keys), keys, if |keys| < MAXIMUM_KEYS then |keys| else MAXIMUM_KEYS, now))
  }

  /** One attempt to receive a reply; `more` is false when there was none. */
  datatype Receipt = Receipt(core: Core, accepted: seq<Completion>, more: bool)

  predicate Wanted(slots: Slots, key: Key) { key.deck in slots && slots[key.deck].key == key }

  function Receive(c: Core): Receipt {
    if c.results != [] then
      var reply := c.results[0];
      Receipt(
        c.(results := c.results[1..], inflight := if c.inflight == Some(reply.key) then None else c.inflight),
        if Wanted(c.slots, reply.key) then [reply] else [],
        true)
    else if c.alive then Receipt(c, [], false)
    else Receipt(c.(open := false, inflight := None), [], false)
  }

  function ReceiveUpTo(c: Core, n: nat): Receipt
    decreases n
  {
    if n == 0 then Receipt(c, [], true)
    else
      var first := Receive(c);
      if !first.more then first
      else
        var rest := ReceiveUpTo(first.core, n - 1);
        Receipt(rest.core, first.accepted + rest.accepted, rest.more)
  }

  /** The due slots below `n` are put off by a second. */
  function Postponed(slots: Slots, now: Time, n: nat): Slots {
    map d | d in slots :: if d < n && slots[d].due <= now then Slot(slots[d].key, now + SECOND) else slots[d]
  }

  lemma PostponedNext(slots: Slots, now: Time, n: nat)
    ensures Postponed(slots, now, 0) == slots
    ensures Postponed(slots, now, n + 1) ==
      if n in slots && slots[n].due <= now then Postponed(slots, now, n)[n := Slot(slots[n].key, now + SECOND)]
      else Postponed(slots, now, n)
    ensures n in Postponed(slots, now, n) <==> n in slots
    ensures n in slots ==> Postponed(slots, now, n)[n] == slots[n]
  {
  }

  /** One refusal for every due slot below `n`, in deck order. */
  function Refusals(slots: Slots, now: Time, n: nat): (r: seq<Completion>)
    ensures forall d :: d in slots && d < n && slots[d].due <= now ==> Completion(slots[d].key, Unavailable) in r
    ensures forall i :: 0 <= i < |r| ==> r[i].prepared == Unavailable
    ensures Filed(slots) ==> forall i :: 0 <= i < |r| ==> Wanted(slots, r[i].key) && slots[r[i].key.deck].due <= now
  {
    if n == 0 then []
    else
      var rest := Refusals(slots, now, n - 1);
      if n - 1 in slots && slots[n - 1].due <= now then rest + [Completion(slots[n - 1].key, Unavailable)] else rest
  }

  predicate Precedes(slots: Slots, d: DeckId, e: DeckId)
    requires d in slots && e in slots
  {
    slots[d].due < slots[e].due || (slots[d].due == slots[e].due && d <= e)
  }

  /** The due slot that has waited longest, the lowest deck among equals. */
  function Chosen(slots: Slots, now: Time, n: nat): (r: Option<DeckId>)
    ensures r.None? <==> forall d :: d in slots && d < n ==> slots[d].due > now
    ensures r.Some? ==> r.value < n && r.value in slots && slots[r.value].due <= now
    ensures r.Some? ==> forall d :: d in slots && d < n && slots[d].due <= now ==> Precedes(slots, r.value, d)
  {
    if n == 0 then None
    else
      var best := Chosen(slots, now, n - 1);
      if n - 1 in slots && slots[n - 1].due <= now && (best.None? || slots[n - 1].due < slots[best.value].due) then
        Some(n - 1)
      else best
  }

  /** Without a worker every due slot is refused. */
  function Refused(c: Core, now: Time): Core { if c.open then c else c.(slots := Postponed(c.slots, now, DECKS)) }

  predicate CanSend(c: Core) { c.inflight.None? && c.open && c.alive && |c.requests| < REQUEST_CAPACITY }

  function Requested(c: Core, d: DeckId, now: Time): Core
    requires d in c.slots
  {
    var key := c.slots[d].key;
    c.(requests := c.requests + [key], inflight := Some(key), slots := c.slots[d := Slot(key, now + SECOND)])
  }

  function Sent(c: Core, now: Time): Core {
    var d := Chosen(c.slots, now, DECKS);
    if CanSend(c) && d.Some? then Requested(c, d.value, now) else c
  }

  datatype Poll = Poll(core: Core, accepted: seq<Completion>)

  function Polled(c: Core, keys: seq<Key>, now: Time): Poll {
    var r := ReceiveUpTo(Begun(c, keys, now), MAXIMUM_REPLIES);
    Poll(Sent(Refused(r.core, now), now),
         r.accepted + (if r.core.open then [] else Refusals(r.core.slots, now, DECKS)))
  }

  lemma NoteKeepsFiled(c: Core, keys: seq<Key>, now: Time)
    requires Filed(c.slots) && Addressed(keys)
    ensures Filed(Begun(c, keys, now).slots)
  {
  }

  lemma {:induction false} DrainKeepsSlots(c: Core, n: nat)
    ensures ReceiveUpTo(c, n).core.slots == c.slots
    decreases n
  {
    if n > 0 { DrainKeepsSlots(Receive(c).core, n - 1); }
  }

  // ----- The resolver itself -----------------------------------------------------------

  class LiveLibraryResolver {
    var open: bool
    var slots: Slots
    var inflight: Option<Key>
    var requests: seq<Key>
    var results: seq<Completion>
    var alive: bool

    function View(): Core
      reads this
    {
      Core(open, slots, inflight, requests, results, alive)
    }

    constructor Disabled()
      ensures View() == Core(false, map[], None, [], [], false)
    {
      open, slots, inflight, requests, results, alive := false, map[], None, [], [], false;
    }

    constructor Spawn()
      ensures View() == Core(true, map[], None, [], [], true)
    {
      open, slots, inflight, requests, results, alive := true, map[], None, [], [], true;
    }

    method Note(keys: seq<Key>, now: Time)
      modifies `slots
      ensures View() == Begun(old(View()), keys, now)
    {
      slots := map d | d in slots && Named(keys, d) :: slots[d];
      var limit := if |keys| < MAXIMUM_KEYS then |keys| else MAXIMUM_KEYS;
      for i := 0 to limit
        invariant slots == NotedAll(Retained(old(slots), keys), keys, i, now)
      {
        var key := keys[i];
        if key.deck !in slots || slots[key.deck].key != key {
          slots := slots[key.deck := Slot(key, now)];
        }
      }
    }

    method TryReceive() returns (accepted: seq<Completion>, more: bool)
      modifies `open, `inflight, `results
      ensures Receipt(View(), accepted, more) == Receive(old(View()))
    {
      accepted, more := [], false;
      if results != [] {
        var reply := results[0];
        results := results[1..];
        more := true;
        if inflight == Some(reply.key) { inflight := None; }
        if reply.key.deck in slots && slots[reply.key.deck].key == reply.key { accepted := [reply]; }
      } else if !alive {
        open, inflight := false, None;
      }
    }

    /** Takes at most four replies and keeps those that are still wanted. */
    method Drain() returns (accepted: seq<Completion>)
      modifies `open, `inflight, `results
      ensures var r := ReceiveUpTo(old(View()), MAXIMUM_REPLIES); View() == r.core && accepted == r.accepted
    {
      hide Receive;
      accepted := [];
      var left, more := MAXIMUM_REPLIES, true;
      ghost var all := ReceiveUpTo(View(), MAXIMUM_REPLIES);
      while left > 0 && more
        invariant 0 <= left <= MAXIMUM_REPLIES
        invariant more ==> all.core == ReceiveUpTo(View(), left).core
        invariant more ==> all.accepted == accepted + ReceiveUpTo(View(), left).accepted
        invariant !more ==> all.core == View() && all.accepted == accepted
        decreases left
      {
        var got: seq<Completion>;
        got, more := TryReceive();
        accepted := accepted + got;
        left := left - 1;
      }
    }

    method Refuse(now: Time) returns (refused: seq<Completion>)
      modifies `slots
      ensures View() == Refused(old(View()), now)
      ensures refused == if open then [] else Refusals(old(slots), now, DECKS)
    {
      hide Postponed;
      refused := [];
      if !open {
        PostponedNext(old(slots), now, 0);
        for d := 0 to DECKS
          invariant refused == Refusals(old(slots), now, d)
          invariant slots == Postponed(old(slots), now, d)
        {
          PostponedNext(old(slots), now, d);
          if d in slots && slots[d].due <= now {
            refused := refused + [Completion(slots[d].key, Unavailable)];
            slots := slots[d := Slot(slots[d].key, now + SECOND)];
          }
        }
      }
    }

    method Send(now: Time)
      modifies `requests, `inflight, `slots
      ensures View() == Sent(old(View()), now)
    {
      if inflight.None? {
        var best: Option<DeckId> := None;
        for d := 0 to DECKS
          invariant best == Chosen(slots, now, d)
        {
          if d in slots && slots[d].due <= now && (best.None? || slots[d].due < slots[best.value].due) {
            best := Some(d);
          }
        }
        if best.Some? && open && alive && |requests| < REQUEST_CAPACITY {
          var key := slots[best.value].key;
          requests := requests + [key];
          inflight := Some(key);
          slots := slots[best.value := Slot(key, now + SECOND)];
        }
      }
    }

    method PollOnce(keys: seq<Key>, now: Time) returns (accepted: seq<Completion>)
      modifies this
      ensures Poll(View(), accepted) == Polled(old(View()), keys, now)
    {
      hide Begun, ReceiveUpTo, Refused, Sent, Refusals;
      Note(keys, now);
      DrainKeepsSlots(View(), MAXIMUM_REPLIES);
      accepted := Drain();
      var refused := Refuse(now);
      accepted := accepted + refused;
      Send(now);
    }
  }
}
