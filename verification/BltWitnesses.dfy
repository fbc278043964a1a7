/** Whole frames through the joint machine, and how the lead is lost. */
module BltWitnesses {
  import opened Domain
  import opened Reducer
  import opened ShowRuns
  import opened ShowTheorems
  import opened BltMidi
  import opened BltProvider
  import opened BltSimulation
  import opened BltJoint
  import opened BltRuns

  // ----- A frame arrives byte by byte --------------------------------------------------

  function Receives(ms: seq<Message>, now: Time, at: Time): (r: seq<JointAction>)
    ensures |r| == |ms|
  {
    seq(|ms|, i requires 0 <= i < |ms| => Receive(ms[i], now, at))
  }

  /** A source with this much room can take any message. */
  predicate Roomy(p: Provider) { p.sequence + 7 <= U64_MAX && p.nextLoad < U64_MAX }

  lemma RoomyHasRoom(p: Provider, m: Message, now: Time)
    requires Valid(p) && Roomy(p)
    ensures IngestHasRoom(p, m, now)
  {
    var f := Committed(p, m);
    if f.Some? {
      var q := Received(p, m, now);
      assert q.sequence == p.sequence && q.nextLoad == p.nextLoad;
      hide Received, DecodeFrame;
      assert |FrameObservations(q, m.channel, f.value)| <= 7;
    }
  }

  lemma RunAppend(at: Time, actions: seq<JointAction>, a: JointAction)
    ensures JointRun(at, actions + [a]) == Moved(JointRun(at, actions), a)
  {
    assert (actions + [a])[..|actions|] == actions;
  }

  lemma ReceiveOne(start: Time, actions: seq<JointAction>, m: Message, now: Time, at: Time)
    requires JointRun(start, actions).clock <= at && Roomy(JointRun(start, actions).source)
    ensures var j := JointRun(start, actions);
      JointRun(start, actions + [Receive(m, now, at)]) == Joint(Ingested(j.source, m, now, at), j.state, at)
  {
    hide Ingested, IngestHasRoom;
    RunAppend(start, actions, Receive(m, now, at));
    RoomyHasRoom(JointRun(start, actions).source, m, now);
  }

  /** The field bytes of a frame only fill the assembler. */
  lemma {:induction false} FieldsReceived(start: Time, actions: seq<JointAction>, channel: nat, f: Frame, n: nat,
                                          now: Time, at: Time)
    requires 1 <= channel <= 2 && FitsWire(f) && 0 < n <= FIELD_BYTES
    requires JointRun(start, actions).clock <= at && Roomy(JointRun(start, actions).source)
    ensures var j := JointRun(start, actions); var ms := Encode(channel, f)[..n];
      JointRun(start, actions + Receives(ms, now, at)) == Joint(IngestAll(j.source, ms, now, at), j.state, at)
  {
    hide FrameBytes, Ingested, JointRun;
    var j, all := JointRun(start, actions), Encode(channel, f);
    var before := all[..n - 1];
    assert all[..n] == before + [all[n - 1]] && all[..n][..n - 1] == before;
    var done := actions + Receives(before, now, at);
    assert actions + Receives(all[..n], now, at) == done + [Receive(all[n - 1], now, at)];
    if n == 1 {
      assert done == actions;
    } else {
      FieldsReceived(start, actions, channel, f, n - 1, now, at);
    }
    FieldsArrive(j.source, channel, f, n - 1, now, at);
    ReceiveOne(start, done, all[n - 1], now, at);
  }

  /** All messages of a frame together do what committing the frame does. */
  lemma FrameReceived(start: Time, actions: seq<JointAction>, channel: nat, f: Frame, now: Time, at: Time)
    requires 1 <= channel <= 2 && FitsWire(f)
    requires JointRun(start, actions).clock <= at && Roomy(JointRun(start, actions).source)
    ensures var j := JointRun(start, actions);
      JointRun(start, actions + Receives(Encode(channel, f), now, at))
        == Joint(Committing(j.source, channel, f, now, at), j.state, at)
  {
    hide FrameBytes, Ingested, Committing, JointRun;
    var j, all := JointRun(start, actions), Encode(channel, f);
    var before := all[..FIELD_BYTES];
    assert all == before + [all[FIELD_BYTES]];
    FieldsReceived(start, actions, channel, f, FIELD_BYTES, now, at);
    FieldsArrive(j.source, channel, f, FIELD_BYTES, now, at);
    assert actions + Receives(all, now, at)
      == (actions + Receives(before, now, at)) + [Receive(all[FIELD_BYTES], now, at)];
    ReceiveOne(start, actions + Receives(before, now, at), all[FIELD_BYTES], now, at);
    EncodedFrameCommits(j.source, channel, f, now, at);
    assert all[..|all| - 1] == before;
  }

  // ----- Everything pending is delivered -----------------------------------------------

  function Delivers(n: nat): (r: seq<JointAction>)
    ensures |r| == n
  {
    seq(n, _ => Deliver)
  }

  /** Where the reducer's picture is heading. */
  function Outlook(j: Joint): Mirror
    requires Tracks(j)
  {
    FollowAll(Abs(j.state.show), Payloads(j.source.pending))
  }

  lemma DeliveredOutlook(j: Joint)
    requires Valid(j.source) && Enabled(j, Deliver) && Tracks(j) && Tracks(Moved(j, Deliver))
    ensures Outlook(Moved(j, Deliver)) == Outlook(j)
  {
    var e := j.source.pending[0];
    HeadIsDue(j);
    DeliveredStep(j.state, e);
    assert Payloads(j.source.pending)[1..] == Payloads(j.source.pending[1..]);
    assert Payloads(j.source.pending)[0] == e.observation;
    hide Reduce, Timely, Payloads, Queued, Sound, Mirrors, Fitting, Abs, Follow;
  }

  lemma DeliverKeepsOutlook(j: Joint)
    requires Valid(j.source) && Enabled(j, Deliver) && Tracks(j)
    ensures var k := Moved(j, Deliver);
      && Tracks(k) && Outlook(k) == Outlook(j) && k.source == j.source.(pending := j.source.pending[1..])
      && k.clock == j.clock && k.state.journal.processed == j.state.journal.processed + 1
  {
    DeliverTracks(j);
    DeliveredOutlook(j);
    hide ReduceShow, Tracks, Outlook, Abs, Record;
  }

  lemma {:induction false} DeliverSome(start: Time, actions: seq<JointAction>, n: nat)
    requires var j := JointRun(start, actions); n <= |j.source.pending| && j.state.journal.processed + n <= U64_MAX
    ensures Tracks(JointRun(start, actions)) && Tracks(JointRun(start, actions + Delivers(n)))
    ensures var j, k := JointRun(start, actions), JointRun(start, actions + Delivers(n));
      && Outlook(k) == Outlook(j) && k.source == j.source.(pending := j.source.pending[n..])
      && k.clock == j.clock && k.state.journal.processed == j.state.journal.processed + n
  {
    hide Tracks, Outlook, Moved;
    RunTracks(start, actions);
    if n == 0 {
      assert actions + Delivers(0) == actions;
    } else {
      DeliverSome(start, actions, n - 1);
      assert actions + Delivers(n) == (actions + Delivers(n - 1)) + [Deliver];
      RunAppend(start, actions + Delivers(n - 1), Deliver);
      DeliverKeepsOutlook(JointRun(start, actions + Delivers(n - 1)));
    }
  }

  /** Delivering all that is pending brings the reducer exactly to the outlook. */
  lemma DeliverAll(start: Time, actions: seq<JointAction>)
    requires var j := JointRun(start, actions); j.state.journal.processed + |j.source.pending| <= U64_MAX
    ensures Tracks(JointRun(start, actions))
    ensures var j := JointRun(start, actions); var k := JointRun(start, actions + Delivers(|j.source.pending|));
      && Abs(k.state.show) == Outlook(j) && k.source == j.source.(pending := [])
      && k.clock == j.clock && k.state.journal.processed == j.state.journal.processed + |j.source.pending|
  {
    var j := JointRun(start, actions);
    DeliverSome(start, actions, |j.source.pending|);
    hide Tracks, JointRun, Abs;
    var k := JointRun(start, actions + Delivers(|j.source.pending|));
    assert Payloads(k.source.pending) == [];
  }

  // ----- The lead is lost --------------------------------------------------------------

  /** The run goes on with all messages of a frame and then delivers everything. */
  function Shown(start: Time, actions: seq<JointAction>, channel: nat, f: Frame, now: Time, at: Time): seq<JointAction>
    requires FitsWire(f)
  {
    var received := actions + Receives(Encode(channel, f), now, at);
    received + Delivers(|JointRun(start, received).source.pending|)
  }

  /** A frame a deck can be loaded from and that has not been seen on the channel. */
  predicate Showable(j: Joint, channel: nat, f: Frame, at: Time) {
    && 1 <= channel <= 2 && FitsWire(f) && InRange(f) && f.loaded && f.master && |j.source.lanes| == 2
    && j.source.lanes[channel - 1].lastSequence != Some(f.sequence)
    && j.clock <= at && Roomy(j.source) && j.source.pending == [] && j.state.journal.processed + 7 <= U64_MAX
  }

  lemma AtMostSeven(p: Provider, channel: nat, f: Frame)
    ensures |FrameObservations(p, channel, f)| <= 7
  {
  }

  /** After the messages the frame's observations are what is pending. */
  lemma ReceivedIs(start: Time, actions: seq<JointAction>, channel: nat, f: Frame, now: Time, at: Time)
    requires Showable(JointRun(start, actions), channel, f, at)
    ensures var j, r := JointRun(start, actions), JointRun(start, actions + Receives(Encode(channel, f), now, at));
      && r.state == j.state && r.clock == at && Payloads(r.source.pending) == FrameObservations(j.source, channel, f)
      && |r.source.pending| <= 7 && r.source.decks == FrameDecks(j.source, channel, f)
      && r.source.leader == (if TakesLead(j.source, channel, f) then Some(channel) else j.source.leader)
      && r.source.sequence <= j.source.sequence + 7 && r.source.nextLoad <= j.source.nextLoad + 1
      && |r.source.lanes| == 2 && r.source.lanes[channel - 1].lastSequence == Some(f.sequence)
  {
    hide JointRun, Committing, FrameObservations, FrameDecks, Envelopes, Payloads, Encode;
    var j := JointRun(start, actions);
    FrameReceived(start, actions, channel, f, now, at);
    ReadyObservations(j.source, channel, f, now, at);
    PayloadsOfEnvelopes(j.source.pending, j.source.sequence, at, FrameObservations(j.source, channel, f));
    AtMostSeven(j.source, channel, f);
    assert Payloads([]) == [];
    assert Payloads([]) + FrameObservations(j.source, channel, f) == FrameObservations(j.source, channel, f);
  }

  lemma OutlookIs(j: Joint)
    requires Tracks(j)
    ensures AllFitting(Abs(j.state.show), Payloads(j.source.pending))
    ensures Outlook(j) == FollowAll(Abs(j.state.show), Payloads(j.source.pending))
  {
    hide AllFitting, FollowAll, Abs, Payloads;
  }

  lemma ShownIs(start: Time, actions: seq<JointAction>, channel: nat, f: Frame, now: Time, at: Time)
    requires Showable(JointRun(start, actions), channel, f, at)
    ensures var j, k := JointRun(start, actions), JointRun(start, Shown(start, actions, channel, f, now, at));
      && Mirrors(Abs(j.state.show), j.source) && AllFitting(Abs(j.state.show), FrameObservations(j.source, channel, f))
      && Abs(k.state.show) == FollowAll(Abs(j.state.show), FrameObservations(j.source, channel, f))
      && k.source.pending == [] && k.source.decks == FrameDecks(j.source, channel, f) && k.clock == at
      && k.source.leader == (if TakesLead(j.source, channel, f) then Some(channel) else j.source.leader)
      && k.state.journal.processed <= j.state.journal.processed + 7
      && k.source.sequence <= j.source.sequence + 7 && k.source.nextLoad <= j.source.nextLoad + 1
      && |k.source.lanes| == 2 && k.source.lanes[channel - 1].lastSequence == Some(f.sequence)
  {
    hide JointRun, Tracks, Outlook, Abs, Mirrors, AllFitting, FollowAll, FrameObservations, FrameDecks, Encode,
      Payloads;
    RunTracks(start, actions);
    Drained(JointRun(start, actions));
    ReceivedIs(start, actions, channel, f, now, at);
    var received := actions + Receives(Encode(channel, f), now, at);
    DeliverAll(start, received);
    OutlookIs(JointRun(start, received));
  }

  lemma Drained(j: Joint)
    requires Tracks(j) && j.source.pending == []
    ensures Mirrors(Abs(j.state.show), j.source)
  {
    assert Payloads(j.source.pending) == [];
  }

  /** What committing a new frame emits and leaves. */
  lemma ReadyObservations(p: Provider, channel: nat, f: Frame, now: Time, at: Time)
    requires Valid(p) && 1 <= channel <= 2 && InRange(f) && p.lanes[channel - 1].lastSequence != Some(f.sequence)
    ensures var q := Committing(p, channel, f, now, at);
      && q.pending == p.pending + Envelopes(p.sequence, at, FrameObservations(p, channel, f))
      && q.decks == FrameDecks(p, channel, f)
      && q.leader == (if TakesLead(p, channel, f) then Some(channel) else p.leader)
      && q.sequence == p.sequence + |FrameObservations(p, channel, f)| && q.nextLoad <= p.nextLoad + 1
      && |q.lanes| == 2 && q.lanes[channel - 1].lastSequence == Some(f.sequence)
  {
  }

  lemma FrameLead(m: Mirror, p: Provider, channel: nat, f: Frame)
    requires Mirrors(m, p) && 1 <= channel <= 2 && f.loaded && f.master && InRange(f)
    ensures AllFitting(m, FrameObservations(p, channel, f))
    ensures var n := FollowAll(m, FrameObservations(p, channel, f));
      && (n.leader == Some(channel) <==>
            p.leader != Some(channel)
              || (m.leader == Some(channel) && !(NeedsLoad(p, channel, f) && channel in p.decks)))
      && (n.leader.Some? ==> n.leader == if TakesLead(p, channel, f) then Some(channel) else p.leader)
      && n.decks == Transports(FrameDecks(p, channel, f))
  {
    LeadAnnounced(m, p, channel, f);
    FrameFits(m, p, channel, f, 0);
    hide DeckObservations, Transports, FrameDecks;
    var status := SourceStatusChanged(SourceReady);
    if p.ready {
      assert FrameObservations(p, channel, f) == DeckObservations(p, channel, f);
    } else {
      FollowOne(m, status);
      FollowJoin(m, [status], DeckObservations(p, channel, f));
      assert FrameObservations(p, channel, f) == [status] + DeckObservations(p, channel, f);
    }
  }

  /** In every run: when the leading deck of a drained source is given another track, the source still counts it as
      its leader and both sides hold the deck, but the reducer is left without a leader. */
  lemma ReloadingLosesTheLead(start: Time, actions: seq<JointAction>, channel: nat, f: Frame, now: Time, at: Time)
    requires var j := JointRun(start, actions);
      && Showable(j, channel, f, at) && j.source.leader == Some(channel)
      && channel in j.source.decks && NeedsLoad(j.source, channel, f)
    ensures var k := JointRun(start, Shown(start, actions, channel, f, now, at));
      && k.source.pending == [] && k.source.leader == Some(channel) && k.state.show.leader.None?
      && channel in k.source.decks && channel in k.state.show.decks
  {
    var j := JointRun(start, actions);
    ShownIs(start, actions, channel, f, now, at);
    hide JointRun, Shown, FrameObservations;
    FrameLead(Abs(j.state.show), j.source, channel, f);
    var k := JointRun(start, Shown(start, actions, channel, f, now, at));
    assert channel in Abs(k.state.show).decks;
  }

  // ----- A run in which it happens -----------------------------------------------------

  function MasterFrame(track: nat, sequence: nat): Frame {
    Frame(true, true, true, true, track, 1, 3, 120_000, 120_000, 0, 200, sequence, 0, None)
  }

  lemma AtTheStart()
    ensures var j := JointRun(0, []);
      && |j.source.pending| == 1 && j.source.decks == map[] && j.source.leader.None? && |j.source.lanes| == 2
      && j.source.lanes[0].lastSequence.None? && j.source.sequence == 1 && j.source.nextLoad == 1
      && j.state.journal.processed == 0 && j.clock == 0
  {
    hide Zeros;
    assert JointRun(0, []) == Joint(Started(0), InitialState, 0);
  }

  /** The source has started and reported it. */
  lemma AfterTheStart()
    ensures var j := JointRun(0, [Deliver]);
      && j.source.pending == [] && j.source.decks == map[] && j.source.leader.None? && |j.source.lanes| == 2
      && j.source.lanes[0].lastSequence.None? && j.source.sequence == 1 && j.source.nextLoad == 1
      && j.state.journal.processed == 1 && j.clock == 0
  {
    hide JointRun, Outlook, Tracks;
    AtTheStart();
    DeliverSome(0, [], 1);
    assert [] + Delivers(1) == [Deliver];
  }

  const First := MasterFrame(7, 1)
  const Second := MasterFrame(8, 2)

  function FirstShown(): seq<JointAction> { Shown(0, [Deliver], 1, First, 0, 0) }

  lemma FirstIsShown()
    ensures var k := JointRun(0, FirstShown());
      && Showable(k, 1, Second, 0) && k.source.leader == Some(1) && 1 in k.source.decks
      && NeedsLoad(k.source, 1, Second)
  {
    AfterTheStart();
    hide JointRun, FrameObservations, Abs, FollowAll, AllFitting, Mirrors, Shown;
    ShownIs(0, [Deliver], 1, First, 0, 0);
  }

  /** A source that starts, shows a master deck and then another track on the same deck: the reducer ends up without
      a leader while the source still has one. */
  lemma LeadIsLost()
    ensures var k := JointRun(0, Shown(0, FirstShown(), 1, Second, 0, 0));
      k.source.pending == [] && k.source.leader == Some(1) && 1 in k.state.show.decks && k.state.show.leader.None?
  {
    FirstIsShown();
    hide JointRun, Shown, FirstShown, Showable, NeedsLoad;
    ReloadingLosesTheLead(0, FirstShown(), 1, Second, 0, 0);
  }
}
