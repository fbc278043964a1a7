/** Runs of the deck source and the reducer together, with anything else interleaved. */
module BltRuns {
  import opened Domain
  import opened Reducer
  import opened ShowRuns
  import opened ShowTheorems
  import opened BltMidi
  import opened BltProvider
  import opened BltSimulation
  import opened BltJoint

  /** The source's pending observations are the channel between the two. */
  datatype Joint = Joint(source: Provider, state: State, clock: Time)

  datatype JointAction =
    | Receive(message: Message, now: Time, at: Time)
    | Expire(now: Time, maximumAge: nat, at: Time)
    | Clear(at: Time)
    | Deliver
    | Other(event: Event)

  /** Whether the action can be taken: time does not run backwards, no counter is exhausted, and the
      other events are non-interfering. */
  predicate Enabled(j: Joint, a: JointAction)
    requires Valid(j.source)
  {
    match a
    case Receive(m, now, at) => j.clock <= at && IngestHasRoom(j.source, m, now)
    case Expire(now, age, at) => j.clock <= at && Expired(j.source, 2, now, age, at).sequence <= U64_MAX
    case Clear(at) => j.clock <= at && Cleared(j.source, at).sequence <= U64_MAX
    case Deliver => j.source.pending != [] && j.state.journal.processed < U64_MAX
    case Other(e) => NonInterfering(e)
  }

  /** An action that cannot be taken changes nothing. */
  function Moved(j: Joint, a: JointAction): (r: Joint)
    requires Valid(j.source)
    ensures Valid(r.source)
  {
    if !Enabled(j, a) then j
    else
      match a
      case Receive(m, now, at) => Joint(Ingested(j.source, m, now, at), j.state, at)
      case Expire(now, age, at) => Joint(Expired(j.source, 2, now, age, at), j.state, at)
      case Clear(at) => Joint(Cleared(j.source, at), j.state, at)
      case Deliver => Joint(j.source.(pending := j.source.pending[1..]), Apply(j.state, j.source.pending[0]), j.clock)
      case Other(e) => j.(state := Apply(j.state, e))
  }

  function JointRun(at: Time, actions: seq<JointAction>): (r: Joint)
    ensures Valid(r.source)
  {
    if actions == [] then Joint(Started(at), InitialState, at)
    else Moved(JointRun(at, actions[..|actions| - 1]), actions[|actions| - 1])
  }

  // ----- The invariant -----------------------------------------------------------------

  function Payload(e: Event): DeckObservation {
    if e.Observation? then e.observation else SourceStatusChanged(SourceStarting)
  }

  function Payloads(es: seq<Event>): (r: seq<DeckObservation>)
    ensures |r| == |es|
  {
    seq(|es|, i requires 0 <= i < |es| => Payload(es[i]))
  }

  /** The last sequence number of the source that the reducer has recorded. */
  function LastRecorded(s: Show): nat { if SOURCE_ID in s.sourceSequences then s.sourceSequences[SOURCE_ID] else 0 }

  function Heard(s: Show): Time { if SOURCE_ID in s.sourceTimes then s.sourceTimes[SOURCE_ID] else 0 }

  /** What is in the channel: the source's next observations, numbered without a gap, in time order. */
  predicate Queued(pending: seq<Event>, after: nat, from: Time, to: Time) {
    && (forall i :: 0 <= i < |pending| ==> pending[i].Observation? && pending[i].source == SOURCE_ID)
    && (forall i :: 0 <= i < |pending| ==> pending[i].sequence == after + 1 + i)
    && (forall i :: 0 <= i < |pending| ==> from <= pending[i].observedAt <= to)
    && (forall i, k :: 0 <= i < k < |pending| ==> pending[i].observedAt <= pending[k].observedAt)
    && from <= to
  }

  predicate Channel(p: Provider, s: Show, clock: Time) {
    Queued(p.pending, LastRecorded(s), Heard(s), clock) && p.sequence == LastRecorded(s) + |p.pending|
  }

  /** The pending observations bring the reducer's picture exactly to the source's decks. */
  predicate Synchronised(m: Mirror, pending: seq<Event>, p: Provider) {
    AllFitting(m, Payloads(pending)) && Mirrors(FollowAll(m, Payloads(pending)), p)
  }

  predicate Tracks(j: Joint) {
    && Valid(j.source) && Sound(j.state) && LedHere(j.state.show)
    && Channel(j.source, j.state.show, j.clock)
    && Synchronised(Abs(j.state.show), j.source.pending, j.source)
  }

  // ----- The source emits --------------------------------------------------------------

  lemma PayloadsOfEnvelopes(pending: seq<Event>, after: nat, at: Time, os: seq<DeckObservation>)
    ensures Payloads(pending + Envelopes(after, at, os)) == Payloads(pending) + os
  {
  }

  lemma QueuedMore(pending: seq<Event>, after: nat, from: Time, to: Time, at: Time, os: seq<DeckObservation>)
    requires Queued(pending, after, from, to) && to <= at
    ensures Queued(pending + Envelopes(after + |pending|, at, os), after, from, at)
  {
  }

  /** The source went from `p` to `q` by emitting `os`. */
  predicate Emits(p: Provider, q: Provider, at: Time, os: seq<DeckObservation>) {
    q.sequence == p.sequence + |os| && q.pending == p.pending + Envelopes(p.sequence, at, os)
  }

  lemma ChannelMore(p: Provider, q: Provider, s: Show, clock: Time, at: Time, os: seq<DeckObservation>)
    requires Channel(p, s, clock) && clock <= at && Emits(p, q, at, os)
    ensures Channel(q, s, at)
  {
    hide Queued, LastRecorded, Heard;
    QueuedMore(p.pending, LastRecorded(s), Heard(s), clock, at, os);
  }

  lemma SynchronisedMore(m: Mirror, p: Provider, q: Provider, at: Time, os: seq<DeckObservation>)
    requires Synchronised(m, p.pending, p) && Emits(p, q, at, os)
    requires var n := FollowAll(m, Payloads(p.pending)); AllFitting(n, os) && Mirrors(FollowAll(n, os), q)
    ensures Synchronised(m, q.pending, q)
  {
    hide AllFitting, FollowAll, Mirrors, Payloads, Envelopes;
    PayloadsOfEnvelopes(p.pending, p.sequence, at, os);
    FollowJoin(m, Payloads(p.pending), os);
  }

  /** Emitting fitting observations that lead to the new decks keeps the two in step. */
  lemma EmitTracks(j: Joint, q: Provider, at: Time, os: seq<DeckObservation>)
    requires Tracks(j) && j.clock <= at && Valid(q) && Emits(j.source, q, at, os)
    requires var m := FollowAll(Abs(j.state.show), Payloads(j.source.pending));
      AllFitting(m, os) && Mirrors(FollowAll(m, os), q)
    ensures Tracks(Joint(q, j.state, at))
  {
    hide AllFitting, FollowAll, Mirrors, Abs, Sound, Valid, LedHere, Payloads, Emits, Channel, Synchronised;
    ChannelMore(j.source, q, j.state.show, j.clock, at, os);
    SynchronisedMore(Abs(j.state.show), j.source, q, at, os);
  }

  lemma FrameTracks(j: Joint, p: Provider, deck: DeckId, f: Frame, at: Time)
    requires Tracks(j) && j.clock <= at && (deck == 1 || deck == 2) && InRange(f) && Valid(p)
    requires p.decks == j.source.decks && p.leader == j.source.leader
    requires p.sequence == j.source.sequence && p.pending == j.source.pending
    ensures Tracks(Joint(Applied(p, deck, f, at), j.state, at))
  {
    hide AllFitting, FollowAll, Transports, Abs, Sound, LedHere, Payloads, Envelopes, Queued, FrameObservations,
      FrameDecks, InRange;
    var m := FollowAll(Abs(j.state.show), Payloads(j.source.pending));
    FrameFits(m, p, deck, f, at);
    assert Valid(Applied(p, deck, f, at)) by { ValidApplied(p, deck, f, at); }
    hide Valid, Mirrors;
    EmitTracks(j, Applied(p, deck, f, at), at, FrameObservations(p, deck, f));
  }

  lemma ValidApplied(p: Provider, deck: DeckId, f: Frame, at: Time)
    requires Valid(p) && (deck == 1 || deck == 2)
    ensures Valid(Applied(p, deck, f, at))
  {
  }

  lemma ReceivedKeepsDecks(p: Provider, m: Message, now: Time)
    requires Valid(p)
    ensures var q := Received(p, m, now);
      q.decks == p.decks && q.leader == p.leader && q.sequence == p.sequence && q.pending == p.pending
  {
    hide DecodeFrame, WriteField;
  }

  lemma ReceiveTracks(j: Joint, m: Message, now: Time, at: Time)
    requires Tracks(j) && j.clock <= at
    ensures Tracks(Joint(Ingested(j.source, m, now, at), j.state, at))
  {
    var f := Committed(j.source, m);
    assert f.Some? ==> InRange(f.value) && (m.channel == 1 || m.channel == 2);
    hide Applied, Committed, Received, InRange, Tracks;
    ReceivedKeepsDecks(j.source, m, now);
    var q := Received(j.source, m, now);
    if f.Some? {
      FrameTracks(j, q, m.channel, f.value, at);
    } else {
      QuietTracks(j, q, at);
    }
  }

  lemma QuietTracks(j: Joint, q: Provider, at: Time)
    requires Tracks(j) && j.clock <= at && Valid(q)
    requires q.decks == j.source.decks && q.leader == j.source.leader
    requires q.sequence == j.source.sequence && q.pending == j.source.pending
    ensures Tracks(Joint(q, j.state, at))
  {
    hide Abs, Sound, Valid, LedHere, Payloads, Channel, Transports, FollowAll, AllFitting, LastRecorded, Heard;
    assert Emits(j.source, q, at, []);
    ChannelMore(j.source, q, j.state.show, j.clock, at, []);
  }

  lemma {:induction false} ExpireTracks(j: Joint, count: nat, now: Time, maximumAge: nat, at: Time)
    requires Tracks(j) && j.clock <= at && count <= 2
    ensures Tracks(Joint(Expired(j.source, count, now, maximumAge, at), j.state, at))
  {
    if count == 0 {
      hide Tracks;
      QuietTracks(j, j.source, at);
    } else {
      ExpireTracks(j, count - 1, now, maximumAge, at);
      var q := Expired(j.source, count - 1, now, maximumAge, at);
      var m := FollowAll(Abs(j.state.show), Payloads(q.pending));
      ExpiryFits(m, q, count - 1, at);
      hide Abs, Sound, LedHere, Payloads, Channel, Mirrors, FollowAll, AllFitting, UnloadObservations, Envelopes;
      if Stale(q, count - 1, now, maximumAge) {
        EmitTracks(Joint(q, j.state, at), ExpiredLane(q, count - 1, at), at, UnloadObservations(q, count));
      }
    }
  }

  lemma ClearTracks(j: Joint, at: Time)
    requires Tracks(j) && j.clock <= at
    ensures Tracks(Joint(Cleared(j.source, at), j.state, at))
  {
    var m := FollowAll(Abs(j.state.show), Payloads(j.source.pending));
    ClearFits(m, j.source, at);
    hide Abs, Sound, LedHere, Payloads, Channel, Mirrors, FollowAll, AllFitting, UnloadObservations, Envelopes;
    EmitTracks(j, Cleared(j.source, at), at, UnloadObservations(j.source, 1) + UnloadObservations(j.source, 2));
  }

  // ----- The reducer takes what was emitted --------------------------------------------

  /** The head of the channel is an observation the reducer has to take. */
  lemma HeadIsDue(j: Joint)
    requires Tracks(j) && j.source.pending != []
    ensures var e := j.source.pending[0];
      && Timely(j.state.show, e) && Fitting(Abs(j.state.show), e.observation)
      && e.source == SOURCE_ID && e.sequence == LastRecorded(j.state.show) + 1
      && Heard(j.state.show) <= e.observedAt <= j.clock
  {
    hide Abs, Sound, LedHere, Mirrors, Fitting, Follow;
    assert Payloads(j.source.pending)[0] == j.source.pending[0].observation;
  }

  lemma QueuedRest(pending: seq<Event>, after: nat, from: Time, to: Time)
    requires Queued(pending, after, from, to) && pending != []
    ensures Queued(pending[1..], after + 1, pending[0].observedAt, to)
  {
  }

  lemma DeliverTracks(j: Joint)
    requires Tracks(j) && Enabled(j, Deliver)
    ensures Tracks(Moved(j, Deliver))
    ensures var r := Reduce(j.state, j.source.pending[0]); r.Ok? && !Ignored(r.value.decision)
  {
    var e, s := j.source.pending[0], j.state.show;
    HeadIsDue(j);
    assert Payloads(j.source.pending)[1..] == Payloads(j.source.pending[1..]);
    assert Payloads(j.source.pending)[0] == e.observation;
    QueuedRest(j.source.pending, LastRecorded(s), Heard(s), j.clock);
    DeliveredStep(j.state, e);
    ApplyKeepsSound(j.state, e);
    hide Reduce, Timely, Payloads, Queued, Sound, Mirrors, Fitting, AbsDecks, Follow;
    assert LedHere(Apply(j.state, e).show) by { LedStays(Abs(s), e.observation, s.decks); }
  }

  lemma LedStays(m: Mirror, o: DeckObservation, decks: map<DeckId, Deck>)
    requires Fitting(m, o) && m.decks == AbsDecks(decks) && (m.leader.Some? ==> Ours(m.leader.value))
    ensures var n := Follow(m, o); n.leader.Some? ==> Ours(n.leader.value)
  {
  }

  lemma OtherTracks(j: Joint, e: Event)
    requires Tracks(j) && NonInterfering(e)
    ensures Tracks(j.(state := Apply(j.state, e)))
  {
    ExternalStep(j.state, e);
    ApplyKeepsSound(j.state, e);
    hide Apply, Sound, AbsDecks, AllFitting, FollowAll, Mirrors, Payloads, Queued, NonInterfering, Valid;
  }

  lemma StartTracks(at: Time)
    ensures Tracks(Joint(Started(at), InitialState, at))
  {
    var status := SourceStatusChanged(SourceStarting);
    var m := Abs(InitialShow);
    assert m == Mirror(map[], None);
    FollowOne(m, status);
    assert Payloads(Started(at).pending) == [status];
    hide AllFitting, FollowAll;
    assert Mirrors(m, Started(at));
  }

  lemma MoveTracks(j: Joint, a: JointAction)
    requires Tracks(j)
    ensures Tracks(Moved(j, a))
  {
    assert Valid(j.source);
    if Enabled(j, a) {
      hide Tracks, Ingested, Expired, Cleared, Apply, NonInterfering, IngestHasRoom;
      match a
      case Receive(m, now, at) => ReceiveTracks(j, m, now, at);
      case Expire(now, age, at) => ExpireTracks(j, 2, now, age, at);
      case Clear(at) => ClearTracks(j, at);
      case Deliver => DeliverTracks(j);
      case Other(e) => OtherTracks(j, e);
    }
  }

  // ----- The theorems ------------------------------------------------------------------

  lemma {:induction false} RunTracks(at: Time, actions: seq<JointAction>)
    ensures Tracks(JointRun(at, actions))
  {
    hide Tracks, Moved;
    if actions == [] {
      StartTracks(at);
    } else {
      RunTracks(at, actions[..|actions| - 1]);
      MoveTracks(JointRun(at, actions[..|actions| - 1]), actions[|actions| - 1]);
    }
  }

  /** In every interleaving, every observation of the source is taken by the reducer: none is stale, out of
      time order, for another load, or behind the deck's position. */
  lemma NothingIsRejected(at: Time, actions: seq<JointAction>)
    requires Enabled(JointRun(at, actions), Deliver)
    ensures var j := JointRun(at, actions);
      var r := Reduce(j.state, j.source.pending[0]); r.Ok? && !Ignored(r.value.decision)
  {
    RunTracks(at, actions);
    hide Tracks, Reduce;
    DeliverTracks(JointRun(at, actions));
  }

  predicate Agree(d: Deck, l: LoadedDeck) {
    d.load == l.load && d.beat == l.beat && d.bpmMilli == l.effectiveBpm && d.playing == l.playing
  }

  /** Whenever the channel is drained, the reducer's decks 1 and 2 carry exactly the source's loads, positions,
      tempos and play states, and its leader is the source's or none. */
  lemma DrainedAgree(at: Time, actions: seq<JointAction>)
    requires JointRun(at, actions).source.pending == []
    ensures var j := JointRun(at, actions);
      && (forall d :: Ours(d) ==> (d in j.state.show.decks <==> d in j.source.decks))
      && (forall d :: d in j.source.decks ==> Ours(d) && Agree(j.state.show.decks[d], j.source.decks[d]))
      && (j.state.show.leader.Some? ==> j.state.show.leader == j.source.leader)
  {
    RunTracks(at, actions);
    var j := JointRun(at, actions);
    hide JointRun, Sound;
    assert Payloads(j.source.pending) == [];
    var m := Abs(j.state.show);
    assert Mirrors(m, j.source);
    forall d | d in j.source.decks ensures d in m.decks && Ours(d) { assert d in Transports(j.source.decks); }
    forall d | Ours(d) && d in j.state.show.decks ensures d in j.source.decks { assert d in m.decks; }
  }

  // ----- The leader --------------------------------------------------------------------

  /** After a loaded master frame the observations name the deck as leader exactly when the source did not
      already count it as its leader, or they had named it and it was not reloaded since. A leading deck whose
      track is replaced or removed loses the lead and the source does not announce it again. */
  lemma LeadAnnounced(m: Mirror, p: Provider, deck: DeckId, f: Frame)
    requires Mirrors(m, p) && (deck == 1 || deck == 2) && f.loaded && f.master && InRange(f)
    ensures AllFitting(m, DeckObservations(p, deck, f))
    ensures FollowAll(m, DeckObservations(p, deck, f)).leader == Some(deck) <==>
      p.leader != Some(deck) || (m.leader == Some(deck) && !(NeedsLoad(p, deck, f) && deck in p.decks))
  {
    LoadedFits(m, p, deck, f);
    hide AllFitting, FollowAll, NewDeckObservations, UpdateObservations;
    if TakesLead(p, deck, f) {
      var os := if NeedsLoad(p, deck, f) then LoadObservations(p, deck, f)
        else UpdateObservations(deck, p.decks[deck], f);
      if NeedsLoad(p, deck, f) { LoadFits(m, p, deck, f); } else { MoveFits(m, p, deck, f); }
      Append(m, os, LeaderChanged(deck, LoadOf(p, deck, f)));
    } else if NeedsLoad(p, deck, f) {
      var u := UnloadObservations(p, deck);
      UnloadFits(m, p, deck);
      if deck in p.decks { FollowOne(m, TrackUnloaded(deck, p.decks[deck].load)); }
      NewDeckFits(FollowAll(m, u), deck, f, p.nextLoad);
      FollowJoin(m, u, NewDeckObservations(deck, f, p.nextLoad));
      assert DeckObservations(p, deck, f) == LoadObservations(p, deck, f);
    } else {
      UpdateFits(m, deck, p.decks[deck], f);
      assert DeckObservations(p, deck, f) == UpdateObservations(deck, p.decks[deck], f);
    }
  }
}
