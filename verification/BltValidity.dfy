/** The deck source and the reducer together are one of the reducer's runs, fed with constructed tracks only. */
module BltValidity {
  import opened Domain
  import opened Reducer
  import opened ShowRuns
  import opened ShowTheorems
  import opened ShowCommands
  import opened Validation
  import opened ShowValidity
  import opened BltMidi
  import opened BltProvider
  import opened BltRuns

  // ----- A joint run is a run ----------------------------------------------------------

  /** The event an action reduces, if any. */
  function Reducing(j: Joint, a: JointAction): seq<Event>
    requires Valid(j.source)
  {
    if !Enabled(j, a) then []
    else match a case Deliver => [j.source.pending[0]] case Other(e) => [e] case _ => []
  }

  /** The events reduced in a joint run, in order. */
  function Events(at: Time, actions: seq<JointAction>): seq<Event> {
    if actions == [] then []
    else
      var before := actions[..|actions| - 1];
      Events(at, before) + Reducing(JointRun(at, before), actions[|actions| - 1])
  }

  lemma RunMore(es: seq<Event>, more: seq<Event>)
    requires |more| <= 1
    ensures Run(InitialState, es + more)
      == if more == [] then Run(InitialState, es) else Apply(Run(InitialState, es), more[0])
  {
    if more == [] {
      assert es + more == es;
    } else {
      assert (es + more)[..|es|] == es && (es + more)[|es|] == more[0];
      hide Apply;
    }
  }

  lemma MovedState(j: Joint, a: JointAction)
    requires Valid(j.source)
    ensures var more := Reducing(j, a);
      |more| <= 1 && Moved(j, a).state == if more == [] then j.state else Apply(j.state, more[0])
  {
    hide Ingested, Expired, Cleared, Apply, IngestHasRoom;
  }

  /** Whatever holds in every run of the reducer holds of its state in every joint run. */
  lemma {:induction false} JointIsARun(at: Time, actions: seq<JointAction>)
    ensures JointRun(at, actions).state == Run(InitialState, Events(at, actions))
  {
    if actions != [] {
      var before, a := actions[..|actions| - 1], actions[|actions| - 1];
      JointIsARun(at, before);
      MovedState(JointRun(at, before), a);
      hide Run, Moved, Reducing;
      RunMore(Events(at, before), Reducing(JointRun(at, before), a));
    }
  }

  // ----- The source loads constructed tracks only --------------------------------------

  predicate Sane(o: DeckObservation) {
    (o.TrackLoaded? ==> Constructed(o.metadata)) && (o.TrackMetadataHydrated? ==> Constructed(o.metadata))
  }

  predicate AllSane(os: seq<DeckObservation>) { forall i :: 0 <= i < |os| ==> Sane(os[i]) }

  lemma SaneJoin(a: seq<DeckObservation>, b: seq<DeckObservation>)
    requires AllSane(a) && AllSane(b)
    ensures AllSane(a + b)
  {
    hide Sane;
  }

  lemma LoadIsSane(deck: DeckId, f: Frame, load: LoadId)
    requires Decoded(f) && f.loaded
    ensures AllSane(NewDeckObservations(deck, f, load))
  {
    DurationIsChecked(f);
    assert Unanalysed(Metadata(f));
    hide Metadata, BeatOf, ValidTrack, Unanalysed;
  }

  lemma UpdateIsSane(deck: DeckId, before: LoadedDeck, f: Frame)
    ensures AllSane(UpdateObservations(deck, before, f))
  {
    hide BeatOf, Constructed;
  }

  lemma FrameIsSane(p: Provider, deck: DeckId, f: Frame)
    requires Decoded(f)
    ensures AllSane(FrameObservations(p, deck, f))
  {
    hide NewDeckObservations, UpdateObservations, BeatOf, Constructed, TrackIdentity;
    var ready, unload := When(!p.ready, SourceStatusChanged(SourceReady)), UnloadObservations(p, deck);
    var lead := When(TakesLead(p, deck, f), LeaderChanged(deck, LoadOf(p, deck, f)));
    assert AllSane(ready) && AllSane(unload) && AllSane(lead);
    if f.loaded {
      LoadIsSane(deck, f, p.nextLoad);
      SaneJoin(unload, NewDeckObservations(deck, f, p.nextLoad));
      if NeedsLoad(p, deck, f) {
        SaneJoin(LoadObservations(p, deck, f), lead);
      } else {
        UpdateIsSane(deck, p.decks[deck], f);
        SaneJoin(UpdateObservations(deck, p.decks[deck], f), lead);
      }
    }
    hide AllSane, LoadObservations;
    SaneJoin(ready, DeckObservations(p, deck, f));
  }

  lemma EnvelopesAreAdmissible(pending: seq<Event>, after: nat, at: Time, os: seq<DeckObservation>)
    requires AllAdmissible(pending) && AllSane(os)
    ensures AllAdmissible(pending + Envelopes(after, at, os))
  {
    hide Constructed;
    var es := Envelopes(after, at, os);
    forall i | 0 <= i < |os| ensures Admissible(es[i]) { assert Sane(os[i]); }
    hide Envelopes, Admissible;
  }

  lemma ReceivingIsAdmissible(p: Provider, m: Message, now: Time, at: Time)
    requires Valid(p) && AllAdmissible(p.pending)
    ensures AllAdmissible(Ingested(p, m, now, at).pending)
  {
    ReceivedKeepsDecks(p, m, now);
    var f, q := Committed(p, m), Received(p, m, now);
    if f.Some? {
      DecodedFramesAreBounded(p.lanes[m.channel - 1].assembler);
      hide Received, AllAdmissible, FrameObservations, Envelopes, FrameDecks, Decoded;
      FrameIsSane(q, m.channel, f.value);
      EnvelopesAreAdmissible(q.pending, q.sequence, at, FrameObservations(q, m.channel, f.value));
    }
  }

  lemma {:induction false} ExpiringIsAdmissible(p: Provider, count: nat, now: Time, maximumAge: nat, at: Time)
    requires Valid(p) && AllAdmissible(p.pending) && count <= 2
    ensures AllAdmissible(Expired(p, count, now, maximumAge, at).pending)
  {
    if count > 0 {
      ExpiringIsAdmissible(p, count - 1, now, maximumAge, at);
      var q := Expired(p, count - 1, now, maximumAge, at);
      hide AllAdmissible, Envelopes, Expired;
      EnvelopesAreAdmissible(q.pending, q.sequence, at, UnloadObservations(q, count));
    }
  }

  lemma ClearingIsAdmissible(p: Provider, at: Time)
    requires Valid(p) && AllAdmissible(p.pending)
    ensures AllAdmissible(Cleared(p, at).pending)
  {
    hide AllAdmissible, Envelopes;
    var os := UnloadObservations(p, 1) + UnloadObservations(p, 2);
    assert AllSane(os);
    EnvelopesAreAdmissible(p.pending, p.sequence, at, os);
  }

  /** Whatever else reaches the reducer carries constructed tracks and valid plans. */
  predicate OthersAdmissible(actions: seq<JointAction>) {
    forall i :: 0 <= i < |actions| && actions[i].Other? ==> Admissible(actions[i].event)
  }

  lemma MoveIsAdmissible(j: Joint, a: JointAction)
    requires Valid(j.source) && AllAdmissible(j.source.pending) && (a.Other? ==> Admissible(a.event))
    ensures AllAdmissible(Moved(j, a).source.pending) && AllAdmissible(Reducing(j, a))
  {
    hide Ingested, Expired, Cleared, Apply, IngestHasRoom, Admissible;
    match a
    case Receive(m, now, at) => ReceivingIsAdmissible(j.source, m, now, at);
    case Expire(now, age, at) => ExpiringIsAdmissible(j.source, 2, now, age, at);
    case Clear(at) => ClearingIsAdmissible(j.source, at);
    case _ =>
  }

  /** In every interleaving with admissible events the reducer is fed with admissible events only, whatever bytes
      the source receives. */
  lemma {:induction false} JointIsAdmissible(at: Time, actions: seq<JointAction>)
    requires OthersAdmissible(actions)
    ensures AllAdmissible(JointRun(at, actions).source.pending) && AllAdmissible(Events(at, actions))
  {
    if actions == [] {
      EnvelopesAreAdmissible([], 0, at, [SourceStatusChanged(SourceStarting)]);
      assert [] + Envelopes(0, at, [SourceStatusChanged(SourceStarting)]) == JointRun(at, actions).source.pending;
    } else {
      var before, a := actions[..|actions| - 1], actions[|actions| - 1];
      JointIsAdmissible(at, before);
      hide Moved, Reducing, Admissible;
      MoveIsAdmissible(JointRun(at, before), a);
    }
  }

  // ----- The theorems ------------------------------------------------------------------

  /** In every such interleaving the reducer's show is valid: constructed tracks, tempos in range, phrases of their
      tracks, valid plans. */
  lemma JointIsValid(at: Time, actions: seq<JointAction>)
    requires OthersAdmissible(actions)
    ensures ValidShow(JointRun(at, actions).state.show)
  {
    JointIsARun(at, actions);
    JointIsAdmissible(at, actions);
    RunIsValid(Events(at, actions));
  }

  /** And no look is due on a leading deck for which the analysis has not arrived. */
  lemma NoLookBeforeAnalysis(at: Time, actions: seq<JointAction>)
    requires OthersAdmissible(actions)
    ensures var s := JointRun(at, actions).state.show;
      s.leader.Some? && s.leader.value in s.decks && s.decks[s.leader.value].metadata.phrases == [] ==> !LookIsDue(s)
  {
    JointIsARun(at, actions);
    JointIsAdmissible(at, actions);
    NoLookWithoutAnalysis(Events(at, actions));
  }
}
