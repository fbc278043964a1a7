/** The worker's version-keyed cache in front of the library, with writers committing at any moment. */
module LibraryCache {
  import opened Domain
  import opened Resolver

  datatype Entry = Entry(key: Key, version: nat)

  /** `connections` counts the connections opened so far; the last one is in use when `open`. */
  datatype Reader = Reader(connections: nat, open: bool, revision: Option<nat>, cache: map<DeckId, Entry>)

  const NoReader := Reader(0, false, None, map[])

  datatype Preparing = Preparing(reader: Reader, prepared: Preparation)

  /** A connection serves one library revision; a failed opening keeps the previous one. */
  function Opened(r: Reader, key: Key, opens: bool): Option<Reader> {
    if r.open && r.revision == Some(key.libraryRevision) then Some(r)
    else if opens then Some(Reader(r.connections + 1, true, Some(key.libraryRevision), map[]))
    else None
  }

  predicate Hit(cache: map<DeckId, Entry>, key: Key, version: nat) {
    key.deck in cache && cache[key.deck] == Entry(key, version)
  }

  /** One lookup, given what the library answers: whether a connection opens, the data version, and the read. */
  function Prepared(r: Reader, key: Key, opens: bool, version: Option<nat>, read: Option<Preparation>): Preparing {
    var o := Opened(r, key, opens);
    if o.None? then Preparing(r, Unavailable)
    else if version.None? then Preparing(o.value, Unavailable)
    else if Hit(o.value.cache, key, version.value) then Preparing(o.value, Unchanged)
    else if read.None? then Preparing(o.value, Unavailable)
    else Preparing(o.value.(cache := o.value.cache[key.deck := Entry(key, version.value)]), read.value)
  }

  class CachedReader {
    var connections: nat
    var open: bool
    var revision: Option<nat>
    var cache: map<DeckId, Entry>

    function View(): Reader
      reads this
    {
      Reader(connections, open, revision, cache)
    }

    constructor ()
      ensures View() == NoReader
    {
      connections, open, revision, cache := 0, false, None, map[];
    }

    method Prepare(key: Key, opens: bool, version: Option<nat>, read: Option<Preparation>) returns (p: Preparation)
      modifies this
      ensures Preparing(View(), p) == Prepared(old(View()), key, opens, version, read)
    {
      if revision != Some(key.libraryRevision) || !open {
        if !opens { return Unavailable; }
        connections, open, revision := connections + 1, true, Some(key.libraryRevision);
        cache := map[];
      }
      if version.None? { return Unavailable; }
      if key.deck in cache && cache[key.deck] == Entry(key, version.value) { return Unchanged; }
      if read.None? { return Unavailable; }
      cache := cache[key.deck := Entry(key, version.value)];
      p := read.value;
    }
  }

  // ----- The library and its writers ---------------------------------------------------

  /** What the library holds for a device track; a broken record makes the read fail. */
  datatype Stored = Analysed(track: nat) | WithoutTimeline | Broken

  type Database = map<(nat, nat), Stored>

  /** A fresh read of one database state. */
  function Lookup(db: Database, key: Key): Option<Preparation> {
    var id := (key.sourceId, key.rekordboxId);
    if id !in db then Some(Unknown)
    else
      match db[id]
      case Analysed(track) => Some(Preparation.Ready(track))
      case WithoutTimeline => Some(Unprepared)
      case Broken => None
  }

  /** `states(n)` is the database after `n` commits and `version(c, n)` what connection `c` reports for it. */
  datatype World = World(states: nat -> Database, version: (nat, nat) -> nat)

  ghost predicate Rising(w: World) { forall c, m, n :: m < n ==> w.version(c, m) < w.version(c, n) }

  /** One lookup in the course of time: the version is sampled after `sampledAt` commits and the read, which
      may overlap with further commits, is over after `readAt`. */
  datatype Call = Call(
    key: Key, opens: bool, version: Option<nat>, read: Option<Preparation>, sampledAt: nat, readAt: nat)

  predicate Real(p: Preparation) { p.Ready? || p.Unknown? || p.Unprepared? }

  predicate Possible(w: World, r: Reader, c: Call) {
    && c.sampledAt <= c.readAt
    && (var o := Opened(r, c.key, c.opens);
        o.Some? && c.version.Some? ==> c.version.value == w.version(o.value.connections, c.sampledAt))
    && (c.read.Some? ==> Real(c.read.value))
    && (c.read.Some? && c.readAt == c.sampledAt ==> c.read == Lookup(w.states(c.sampledAt), c.key))
  }

  function Answer(r: Reader, c: Call): Preparing { Prepared(r, c.key, c.opens, c.version, c.read) }

  function After(calls: seq<Call>, n: nat): Reader
    requires n <= |calls|
  {
    if n == 0 then NoReader else Answer(After(calls, n - 1), calls[n - 1]).reader
  }

  function Given(calls: seq<Call>, i: nat): Preparation
    requires i < |calls|
  {
    Answer(After(calls, i), calls[i]).prepared
  }

  predicate History(w: World, calls: seq<Call>) {
    && (forall i :: 0 <= i < |calls| ==> Possible(w, After(calls, i), calls[i]))
    && (forall i, j :: 0 <= i < j < |calls| ==> calls[i].readAt <= calls[j].sampledAt)
  }

  // ----- What the cache remembers ------------------------------------------------------

  /** The call that gave the deck its last real answer before call `n`. */
  function LastReal(calls: seq<Call>, n: nat, deck: DeckId): (r: Option<nat>)
    requires n <= |calls|
    ensures r.Some? ==> r.value < n && calls[r.value].key.deck == deck && Real(Given(calls, r.value))
    ensures forall m :: (if r.Some? then r.value + 1 else 0) <= m < n && calls[m].key.deck == deck ==>
      !Real(Given(calls, m))
  {
    if n == 0 then None
    else if calls[n - 1].key.deck == deck && Real(Given(calls, n - 1)) then Some(n - 1)
    else LastReal(calls, n - 1, deck)
  }

  /** A cache entry carries the key of that call and the version sampled before its read. */
  predicate Backed(w: World, calls: seq<Call>, n: nat, deck: DeckId, connection: nat, entry: Entry)
    requires n <= |calls|
  {
    var i := LastReal(calls, n, deck);
    && i.Some?
    && calls[i.value].read == Some(Given(calls, i.value))
    && entry == Entry(calls[i.value].key, w.version(connection, calls[i.value].sampledAt))
  }

  predicate Remembers(w: World, calls: seq<Call>, n: nat)
    requires n <= |calls|
  {
    var r := After(calls, n);
    forall d :: d in r.cache ==> Backed(w, calls, n, d, r.connections, r.cache[d])
  }

  /** An entry after a call is either the one the call has just written with a real answer, or an old one of a
      deck to which the call gave no real answer. */
  lemma EntryOrigin(w: World, r: Reader, c: Call, deck: DeckId)
    requires Possible(w, r, c) && deck in Answer(r, c).reader.cache
    ensures var a := Answer(r, c);
      if deck == c.key.deck && Real(a.prepared) then
        && c.read == Some(a.prepared)
        && a.reader.cache[deck] == Entry(c.key, w.version(a.reader.connections, c.sampledAt))
      else
        && deck in r.cache && a.reader.cache[deck] == r.cache[deck] && a.reader.connections == r.connections
  {
  }

  lemma Unfolds(calls: seq<Call>, n: nat)
    requires n < |calls|
    ensures var a := Answer(After(calls, n), calls[n]); After(calls, n + 1) == a.reader && Given(calls, n) == a.prepared
  {
  }

  lemma PossibleAt(w: World, calls: seq<Call>, n: nat)
    requires History(w, calls) && n < |calls|
    ensures Possible(w, After(calls, n), calls[n])
  {
  }

  lemma BackedNext(w: World, calls: seq<Call>, n: nat, deck: DeckId)
    requires n < |calls| && Possible(w, After(calls, n), calls[n]) && Remembers(w, calls, n)
    requires deck in After(calls, n + 1).cache
    ensures var r := After(calls, n + 1); Backed(w, calls, n + 1, deck, r.connections, r.cache[deck])
  {
    var r, c := After(calls, n), calls[n];
    hide After, Answer, Given, Possible;
    Unfolds(calls, n);
    EntryOrigin(w, r, c, deck);
    if !(deck == c.key.deck && Real(Given(calls, n))) {
      assert Backed(w, calls, n, deck, r.connections, r.cache[deck]);
    }
  }

  lemma NothingYet(w: World, calls: seq<Call>)
    ensures Remembers(w, calls, 0)
  {
  }

  lemma {:induction false} HistoryRemembers(w: World, calls: seq<Call>, n: nat)
    requires History(w, calls) && n <= |calls|
    ensures Remembers(w, calls, n)
  {
    hide History, After, Backed, Possible;
    if n == 0 {
      assert Remembers(w, calls, 0) by { NothingYet(w, calls); }
    } else {
      HistoryRemembers(w, calls, n - 1);
      PossibleAt(w, calls, n - 1);
      var r := After(calls, n);
      forall d | d in r.cache ensures Backed(w, calls, n, d, r.connections, r.cache[d]) {
        BackedNext(w, calls, n - 1, d);
      }
    }
  }

  lemma HitFacts(w: World, r: Reader, c: Call)
    requires Possible(w, r, c) && Answer(r, c).prepared == Unchanged
    ensures c.key.deck in r.cache && r.cache[c.key.deck] == Entry(c.key, w.version(r.connections, c.sampledAt))
  {
  }

  /** When the worker answers that nothing changed, its last real answer for the deck was for the same key and
      is exactly what a fresh read gives now, however commits overlapped with the earlier reads. */
  lemma UnchangedIsFresh(w: World, calls: seq<Call>, n: nat)
    requires Rising(w) && History(w, calls) && n < |calls| && Given(calls, n) == Unchanged
    ensures var i := LastReal(calls, n, calls[n].key.deck);
      && i.Some? && calls[i.value].key == calls[n].key
      && Lookup(w.states(calls[n].sampledAt), calls[n].key) == Some(Given(calls, i.value))
  {
    HistoryRemembers(w, calls, n);
    var r, c := After(calls, n), calls[n];
    assert Possible(w, r, c);
    HitFacts(w, r, c);
    assert Backed(w, calls, n, c.key.deck, r.connections, r.cache[c.key.deck]);
    var i := LastReal(calls, n, c.key.deck).value;
    assert Possible(w, After(calls, i), calls[i]) && calls[i].readAt <= c.sampledAt;
    hide After, LastReal, History, Remembers, Given, Lookup;
    assert calls[i].sampledAt == c.sampledAt by { Injective(w, r.connections, calls[i].sampledAt, c.sampledAt); }
  }

  lemma Injective(w: World, connection: nat, m: nat, n: nat)
    requires Rising(w) && w.version(connection, m) == w.version(connection, n)
    ensures m == n
  {
    assert m < n ==> w.version(connection, m) < w.version(connection, n);
    assert n < m ==> w.version(connection, n) < w.version(connection, m);
  }

  /** Right after a real answer, the same lookup on a working connection is answered `Unchanged` exactly when
      nothing was committed since the version was sampled, not since the read. */
  lemma RepeatedLookup(w: World, r: Reader, first: Call, again: Call)
    requires Rising(w) && Possible(w, r, first) && Real(Answer(r, first).prepared)
    requires Possible(w, Answer(r, first).reader, again) && again.key == first.key && again.version.Some?
    ensures Answer(Answer(r, first).reader, again).prepared == Unchanged <==> again.sampledAt == first.sampledAt
  {
    var c := Answer(r, first).reader.connections;
    if w.version(c, first.sampledAt) == w.version(c, again.sampledAt) {
      Injective(w, c, first.sampledAt, again.sampledAt);
    }
  }
}
