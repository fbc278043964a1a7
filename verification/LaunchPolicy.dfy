/** The gate that holds the first launch of a show back until a phrase begins. */
module LaunchPolicy {
  import opened Domain

  datatype Policy = Immediate | OnPhraseStart

  datatype Context = Context(deck: DeckId, load: LoadId, revision: nat, epoch: nat)

  datatype Boundary = Boundary(phrase: nat, beat: nat)

  datatype Gate =
    | WaitingForPlayback
    | Waiting(context: Context, target: Boundary)
    | NoUpcomingBoundary(context: Context)
    | Launched

  /** The boundary with the least beat at or after `beat`, the first listed among equals. */
  function Upcoming(bs: seq<Boundary>, beat: nat): (r: Option<Boundary>)
    ensures r.None? <==> forall i :: 0 <= i < |bs| ==> bs[i].beat < beat
    ensures r.Some? ==> r.value in bs && r.value.beat >= beat
    ensures r.Some? ==> forall i :: 0 <= i < |bs| && bs[i].beat >= beat ==> r.value.beat <= bs[i].beat
  {
    if bs == [] then None
    else
      var n := |bs| - 1;
      var best := Upcoming(bs[..n], beat);
      if bs[n].beat >= beat && (best.None? || bs[n].beat < best.value.beat) then Some(bs[n]) else best
  }

  /** No boundary listed before `i` is at or after `beat` and as close. */
  predicate FirstAt(bs: seq<Boundary>, beat: nat, i: nat) {
    i < |bs| && forall k :: 0 <= k < i && bs[k].beat >= beat ==> bs[i].beat < bs[k].beat
  }

  lemma {:induction false} UpcomingIsFirstListed(bs: seq<Boundary>, beat: nat) returns (i: nat)
    requires Upcoming(bs, beat).Some?
    ensures FirstAt(bs, beat, i) && bs[i] == Upcoming(bs, beat).value
  {
    var n := |bs| - 1;
    var best := Upcoming(bs[..n], beat);
    if bs[n].beat >= beat && (best.None? || bs[n].beat < best.value.beat) {
      i := n;
      forall k | 0 <= k < n && bs[k].beat >= beat ensures bs[n].beat < bs[k].beat { assert bs[..n][k] == bs[k]; }
    } else {
      i := UpcomingIsFirstListed(bs[..n], beat);
      forall k | 0 <= k < i && bs[k].beat >= beat ensures bs[i].beat < bs[k].beat { assert bs[..n][k] == bs[k]; }
    }
  }

  /** The target already chosen for this context is still offered. */
  predicate Holds(g: Gate, context: Context, bs: seq<Boundary>) {
    g.Waiting? && g.context == context && g.target in bs
  }

  function Observed(g: Gate, policy: Policy, context: Context, playing: bool, beat: nat, bs: seq<Boundary>): Gate {
    if g.Launched? then g
    else if !playing then WaitingForPlayback
    else if policy.Immediate? || Holds(g, context, bs) then g
    else
      var next := Upcoming(bs, beat);
      if next.Some? then Waiting(context, next.value) else NoUpcomingBoundary(context)
  }

  predicate Allows(g: Gate, policy: Policy, context: Context, phrase: nat) {
    policy.Immediate? || g.Launched? || (g.Waiting? && g.context == context && g.target.phrase == phrase)
  }

  function CancelledGate(g: Gate): Gate { if g.Launched? then g else WaitingForPlayback }

  function Dispatched(g: Gate, policy: Policy, context: Context, phrase: nat): Gate {
    if Allows(g, policy, context, phrase) then Launched else g
  }

  class LaunchGate {
    var gate: Gate

    constructor ()
      ensures gate == WaitingForPlayback
    {
      gate := WaitingForPlayback;
    }

    method Arm()
      modifies this
      ensures gate == WaitingForPlayback
    {
      gate := WaitingForPlayback;
    }

    method CancelPending()
      modifies this
      ensures gate == CancelledGate(old(gate))
    {
      if gate != Launched { Arm(); }
    }

    method Observe(policy: Policy, context: Context, playing: bool, beat: nat, bs: seq<Boundary>)
      modifies this
      ensures gate == Observed(old(gate), policy, context, playing, beat, bs)
    {
      if gate == Launched { return; }
      if !playing {
        CancelPending();
        return;
      }
      if policy == Immediate { return; }
      var next: Option<Boundary> := None;
      for i := 0 to |bs|
        invariant gate == old(gate)
        invariant next == Upcoming(bs[..i], beat)
        invariant !Holds(gate, context, bs[..i])
      {
        assert bs[..i + 1][..i] == bs[..i];
        if gate.Waiting? && gate.context == context && bs[i] == gate.target { return; }
        if bs[i].beat >= beat && (next.None? || bs[i].beat < next.value.beat) { next := Some(bs[i]); }
      }
      assert bs[..|bs|] == bs;
      gate := if next.Some? then Waiting(context, next.value) else NoUpcomingBoundary(context);
    }

    method DidLaunch(policy: Policy, context: Context, phrase: nat) returns (r: bool)
      modifies this
      ensures r == Allows(old(gate), policy, context, phrase)
      ensures gate == Dispatched(old(gate), policy, context, phrase)
    {
      r := policy == Immediate || gate == Launched
           || (gate.Waiting? && gate.context == context && gate.target.phrase == phrase);
      if r { gate := Launched; }
    }
  }

  // ----- Runs under OnPhraseStart ------------------------------------------------------

  datatype Call =
    | ArmGate
    | Cancel
    | Observe(context: Context, playing: bool, beat: nat, boundaries: seq<Boundary>)
    | Dispatch(context: Context, phrase: nat)

  function Next(g: Gate, c: Call): Gate {
    match c
    case ArmGate => WaitingForPlayback
    case Cancel => CancelledGate(g)
    case Observe(context, playing, beat, bs) => Observed(g, OnPhraseStart, context, playing, beat, bs)
    case Dispatch(context, phrase) => Dispatched(g, OnPhraseStart, context, phrase)
  }

  function At(calls: seq<Call>, i: nat): Gate
    requires i <= |calls|
  {
    if i == 0 then WaitingForPlayback else Next(At(calls, i - 1), calls[i - 1])
  }

  /** Observation `i` chose the target as the least offered boundary at or after its beat. */
  predicate Chose(calls: seq<Call>, i: nat, context: Context, target: Boundary)
    requires i < |calls|
  {
    var c := calls[i];
    c.Observe? && c.playing && c.context == context && Upcoming(c.boundaries, c.beat) == Some(target)
  }

  /** The call leaves the chosen target in place: playing on, in the same context, still offering it. */
  predicate Upholds(c: Call, context: Context, target: Boundary) {
    match c
    case ArmGate => false
    case Cancel => false
    case Observe(other, playing, _, bs) => playing && other == context && target in bs
    case Dispatch(other, phrase) => !(other == context && phrase == target.phrase)
  }

  /** The target was chosen by observation `i` and every call since has upheld it. */
  predicate Since(calls: seq<Call>, i: nat, j: nat, context: Context, target: Boundary) {
    i < j <= |calls| && Chose(calls, i, context, target)
    && forall k :: i < k < j ==> Upholds(calls[k], context, target)
  }

  lemma {:induction false} TargetOrigin(calls: seq<Call>, j: nat, context: Context, target: Boundary)
    requires j <= |calls| && At(calls, j) == Waiting(context, target)
    ensures exists i: nat :: Since(calls, i, j, context, target)
  {
    var c := calls[j - 1];
    if At(calls, j - 1) == Waiting(context, target) && Upholds(c, context, target) {
      TargetOrigin(calls, j - 1, context, target);
      var i: nat :| Since(calls, i, j - 1, context, target);
      assert Since(calls, i, j, context, target);
    } else {
      assert Since(calls, j - 1, j, context, target);
    }
  }

  /** The first launch of an arm cycle is for the target an earlier playing observation of that context chose,
      and every observation since then was playing, in that context, and still offered that target. */
  lemma FirstLaunchIsTheChosenTarget(calls: seq<Call>, j: nat)
    requires j < |calls| && calls[j].Dispatch? && !At(calls, j).Launched?
    requires Allows(At(calls, j), OnPhraseStart, calls[j].context, calls[j].phrase)
    ensures exists target: Boundary, i: nat ::
      target.phrase == calls[j].phrase && Since(calls, i, j, calls[j].context, target)
  {
    var g := At(calls, j);
    TargetOrigin(calls, j, g.context, g.target);
    var i: nat :| Since(calls, i, j, g.context, g.target);
  }

  predicate Launches(calls: seq<Call>, k: nat)
    requires k < |calls|
  {
    && calls[k].Dispatch? && !At(calls, k).Launched?
    && Allows(At(calls, k), OnPhraseStart, calls[k].context, calls[k].phrase)
  }

  /** The show is running exactly when some launch has not been followed by a new arm cycle. */
  lemma {:induction false} LaunchedExactlySinceALaunch(calls: seq<Call>, j: nat)
    requires j <= |calls|
    ensures At(calls, j).Launched? <==>
      exists k :: 0 <= k < j && Launches(calls, k) && forall m :: k < m < j ==> !calls[m].ArmGate?
  {
    if j > 0 {
      LaunchedExactlySinceALaunch(calls, j - 1);
      if At(calls, j).Launched? {
        if At(calls, j - 1).Launched? {
          var k :| 0 <= k < j - 1 && Launches(calls, k) && forall m :: k < m < j - 1 ==> !calls[m].ArmGate?;
          assert forall m :: k < m < j ==> !calls[m].ArmGate?;
        } else {
          assert Launches(calls, j - 1);
        }
      }
    }
  }
}
