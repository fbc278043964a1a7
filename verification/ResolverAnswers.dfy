/** The resolver together with the worker's cache: what an accepted `Unchanged` refers to, in every interleaving. */
module ResolverAnswers {
  import opened Domain
  import opened Resolver
  import opened ResolverRuns
  import opened LibraryCache
  import opened ResolverGap

  /** Besides the resolver: the lookups the worker has made, and, for every reply received, whether its deck's slot
      held its key then; `handed` lists the replies that a poll handed on. */
  datatype Joined = Joined(system: System, calls: seq<Call>, wanted: seq<bool>, handed: seq<nat>)

  /** The worker replies with the outcome of a lookup in its library; every other step is the resolver's. */
  datatype Turn = Stepped(step: Step) | LookedUp(call: Call)

  predicate MayLookUp(w: World, j: Joined, c: Call) {
    && j.system.core.alive && j.system.worker == Some(c.key)
    && Possible(w, After(j.calls, |j.calls|), c)
    && (j.calls != [] ==> j.calls[|j.calls| - 1].readAt <= c.sampledAt)
  }

  function Follow(w: World, j: Joined, e: Turn): Joined {
    match e
    case Stepped(step) => if step.Reply? || !Enabled(j.system, step) then j else Followed(j, step)
    case LookedUp(c) =>
      if !MayLookUp(w, j, c) then j
      else
        var prepared := Answer(After(j.calls, |j.calls|), c).prepared;
        j.(system := Next(j.system, Reply(prepared)), calls := j.calls + [c])
  }

  function Followed(j: Joined, step: Step): Joined
    requires Enabled(j.system, step)
  {
    var s, t := j.system, Next(j.system, step);
    if step.TryReceive? && s.core.results != [] then
      Joined(t, j.calls, j.wanted + [Wanted(s.core.slots, s.core.results[0].key)],
             if t.accepted == s.accepted then j.handed else j.handed + [|s.received|])
    else j.(system := t)
  }

  function JoinedRun(w: World, es: seq<Turn>): Joined {
    if es == [] then Joined(Initial(true), [], [], []) else Follow(w, JoinedRun(w, es[..|es| - 1]), es[|es| - 1])
  }

  // ----- Replies are the lookups, in order ---------------------------------------------

  function ReplyTo(calls: seq<Call>, i: nat): Completion
    requires i < |calls|
  {
    Completion(calls[i].key, Given(calls, i))
  }

  /** The outcomes of the first `n` lookups as replies. */
  function Replies(calls: seq<Call>, n: nat): (r: seq<Completion>)
    requires n <= |calls|
    ensures |r| == n
  {
    if n == 0 then [] else Replies(calls, n - 1) + [ReplyTo(calls, n - 1)]
  }

  lemma {:induction false} ReplyAt(calls: seq<Call>, n: nat, i: nat)
    requires i < n <= |calls|
    ensures Replies(calls, n)[i] == ReplyTo(calls, i)
  {
    hide ReplyTo;
    if i < n - 1 { ReplyAt(calls, n - 1, i); }
  }

  lemma {:induction false} AfterPrefix(calls: seq<Call>, c: Call, n: nat)
    requires n <= |calls|
    ensures After(calls + [c], n) == After(calls, n)
  {
    if n > 0 { AfterPrefix(calls, c, n - 1); }
  }

  lemma ReplyToPrefix(calls: seq<Call>, c: Call, i: nat)
    requires i < |calls|
    ensures ReplyTo(calls + [c], i) == ReplyTo(calls, i)
  {
    AfterPrefix(calls, c, i);
    hide After, Answer;
  }

  lemma LastReply(calls: seq<Call>, c: Call)
    ensures ReplyTo(calls + [c], |calls|) == Completion(c.key, Answer(After(calls, |calls|), c).prepared)
  {
    AfterPrefix(calls, c, |calls|);
    hide After, Answer;
  }

  lemma {:induction false} RepliesPrefix(calls: seq<Call>, c: Call, n: nat)
    requires n <= |calls|
    ensures Replies(calls + [c], n) == Replies(calls, n)
  {
    hide ReplyTo;
    if n > 0 {
      RepliesPrefix(calls, c, n - 1);
      ReplyToPrefix(calls, c, n - 1);
    }
  }

  lemma RepliesGrow(calls: seq<Call>, c: Call)
    ensures Replies(calls + [c], |calls| + 1)
      == Replies(calls, |calls|) + [Completion(c.key, Answer(After(calls, |calls|), c).prepared)]
  {
    RepliesPrefix(calls, c, |calls|);
    LastReply(calls, c);
    hide After, Answer, ReplyTo;
  }

  lemma PossiblePrefix(w: World, calls: seq<Call>, c: Call, i: nat)
    requires History(w, calls) && Possible(w, After(calls, |calls|), c) && i <= |calls|
    ensures Possible(w, After(calls + [c], i), (calls + [c])[i])
  {
    AfterPrefix(calls, c, i);
    if i < |calls| { PossibleAt(w, calls, i); }
    hide After, Possible, History;
  }

  lemma ReadsAreOrdered(w: World, calls: seq<Call>, i: nat)
    requires History(w, calls) && i < |calls|
    ensures calls[i].readAt <= calls[|calls| - 1].readAt
  {
    hide After;
    var last := |calls| - 1;
    if i < last {
      PossibleAt(w, calls, last);
      assert calls[last].sampledAt <= calls[last].readAt;
      hide Possible;
    }
  }

  lemma HistoryGrows(w: World, calls: seq<Call>, c: Call)
    requires History(w, calls) && Possible(w, After(calls, |calls|), c)
    requires calls != [] ==> calls[|calls| - 1].readAt <= c.sampledAt
    ensures History(w, calls + [c])
  {
    hide After, Possible;
    var all := calls + [c];
    forall i | 0 <= i < |all| ensures Possible(w, After(all, i), all[i]) { PossiblePrefix(w, calls, c, i); }
    forall i | 0 <= i < |calls| ensures calls[i].readAt <= c.sampledAt { ReadsAreOrdered(w, calls, i); }
  }

  /** Exactly the wanted replies were handed on. */
  ghost predicate Handed(handed: seq<nat>, wanted: seq<bool>) {
    forall i :: i in handed <==> 0 <= i < |wanted| && wanted[i]
  }

  /** The replies received and those waiting are the worker's answers; a reply was handed on when it was wanted. */
  ghost predicate Consistent(w: World, j: Joined) {
    && Protocol(j.system) && History(w, j.calls)
    && j.system.received + j.system.core.results == Replies(j.calls, |j.calls|)
    && |j.wanted| == |j.system.received|
    && Handed(j.handed, j.wanted)
  }

  lemma ReplyArrives(s: System, prepared: Preparation)
    requires Protocol(s) && Enabled(s, Reply(prepared))
    ensures var t := Next(s, Reply(prepared));
      && s.core.results == [] && t.core.results == [Completion(s.worker.value, prepared)] && t.received == s.received
  {
    assert |Carried(s)| >= |Held(s.worker)| + |s.core.results|;
  }

  lemma LookupKeeps(w: World, j: Joined, c: Call)
    requires Consistent(w, j) && MayLookUp(w, j, c)
    ensures Consistent(w, Follow(w, j, LookedUp(c)))
  {
    var s, prepared := j.system, Answer(After(j.calls, |j.calls|), c).prepared;
    HistoryGrows(w, j.calls, c);
    RepliesGrow(j.calls, c);
    hide After, Answer, History, Replies, Possible, Protocol, Next;
    StepKeepsProtocol(s, Reply(prepared));
    ReplyArrives(s, prepared);
    assert s.received + [] == s.received;
  }

  /** Only receiving moves a reply, from the channel to the received ones. */
  lemma OtherStepKeepsReplies(s: System, step: Step)
    requires Enabled(s, step) && !step.Reply? && !(step.TryReceive? && s.core.results != [])
    ensures Next(s, step).received == s.received && Next(s, step).core.results == s.core.results
  {
    hide Refusals, Chosen;
  }

  lemma HandedGrow(handed: seq<nat>, wanted: seq<bool>, next: bool)
    requires Handed(handed, wanted)
    ensures Handed(if next then handed + [|wanted|] else handed, wanted + [next])
  {
  }

  lemma ReceiptKeeps(w: World, j: Joined)
    requires Consistent(w, j) && Enabled(j.system, TryReceive) && j.system.core.results != []
    ensures Consistent(w, Followed(j, TryReceive))
  {
    var s, t := j.system, Next(j.system, TryReceive);
    StepKeepsProtocol(s, TryReceive);
    DiscardedExactlyWhenUnwanted(s);
    assert t.core.results == s.core.results[1..];
    var reply := s.core.results[0];
    HandedGrow(j.handed, j.wanted, Wanted(s.core.slots, reply.key));
    hide Protocol, History, Replies, Next, Wanted;
    assert s.core.results == [reply] + t.core.results;
    assert t.received + t.core.results == s.received + s.core.results;
  }

  lemma StepKeeps(w: World, j: Joined, step: Step)
    requires Consistent(w, j) && Enabled(j.system, step) && !step.Reply?
    ensures Consistent(w, Followed(j, step))
  {
    if step.TryReceive? && j.system.core.results != [] {
      ReceiptKeeps(w, j);
    } else {
      hide Protocol, History, Replies, Next, Enabled;
      StepKeepsProtocol(j.system, step);
      OtherStepKeepsReplies(j.system, step);
    }
  }

  lemma {:induction false} RunIsConsistent(w: World, es: seq<Turn>)
    ensures Consistent(w, JoinedRun(w, es))
  {
    if es == [] {
      Starts(true);
      assert Replies([], 0) == [];
    } else {
      var j, e := JoinedRun(w, es[..|es| - 1]), es[|es| - 1];
      RunIsConsistent(w, es[..|es| - 1]);
      hide Consistent;
      match e
      case Stepped(step) => if Enabled(j.system, step) && !step.Reply? { StepKeeps(w, j, step); }
      case LookedUp(c) => if MayLookUp(w, j, c) { LookupKeeps(w, j, c); }
    }
  }

  /** The joined machine is the resolver's: dropping the lookups leaves one of its interleavings. */
  function ResolverStep(w: World, j: Joined, e: Turn): seq<Step> {
    match e
    case Stepped(step) => if step.Reply? then [] else [step]
    case LookedUp(c) => if MayLookUp(w, j, c) then [Reply(Answer(After(j.calls, |j.calls|), c).prepared)] else []
  }

  function ResolverSteps(w: World, es: seq<Turn>): seq<Step> {
    if es == [] then []
    else
      var before := es[..|es| - 1];
      ResolverSteps(w, before) + ResolverStep(w, JoinedRun(w, before), es[|es| - 1])
  }

  lemma RunOne(steps: seq<Step>, step: Step)
    ensures Run(true, steps + [step]) == Next(Run(true, steps), step)
  {
    hide Next;
    assert (steps + [step])[..|steps|] == steps;
  }

  lemma FollowIsAStep(w: World, j: Joined, e: Turn)
    ensures var more := ResolverStep(w, j, e);
      && |more| <= 1 && Follow(w, j, e).system == (if more == [] then j.system else Next(j.system, more[0]))
  {
    hide After, Answer, Possible;
    if e.Stepped? && !Enabled(j.system, e.step) {
      assert Next(j.system, e.step) == j.system;
    } else {
      hide Next;
    }
  }

  lemma {:induction false} JoinedRunIsARun(w: World, es: seq<Turn>)
    ensures JoinedRun(w, es).system == Run(true, ResolverSteps(w, es))
  {
    hide Next, Follow, ResolverStep;
    if es != [] {
      var before, e := es[..|es| - 1], es[|es| - 1];
      JoinedRunIsARun(w, before);
      var j, steps := JoinedRun(w, before), ResolverSteps(w, before);
      var more := ResolverStep(w, j, e);
      assert JoinedRun(w, es) == Follow(w, j, e) && ResolverSteps(w, es) == steps + more;
      hide Run, JoinedRun, ResolverSteps;
      FollowIsAStep(w, j, e);
      if more == [] {
        assert steps + more == steps;
      } else {
        RunOne(steps, more[0]);
        assert more == [more[0]];
      }
    }
  }

  // ----- What an accepted `Unchanged` refers to ----------------------------------------

  /** The last real answer for the deck, among the first `n` replies, that a poll handed on. */
  function LastHanded(j: Joined, n: nat, deck: DeckId): (r: Option<nat>)
    requires n <= |j.system.received|
    ensures r.Some? ==> r.value < n && r.value in j.handed && Answers(j.system.received[r.value], deck)
    ensures forall m :: (if r.Some? then r.value + 1 else 0) <= m < n && Answers(j.system.received[m], deck) ==>
      m !in j.handed
  {
    if n == 0 then None
    else if n - 1 in j.handed && Answers(j.system.received[n - 1], deck) then Some(n - 1)
    else LastHanded(j, n - 1, deck)
  }

  predicate Answers(reply: Completion, deck: DeckId) { reply.key.deck == deck && Real(reply.prepared) }

  lemma ReplyIs(w: World, j: Joined, i: nat)
    requires Consistent(w, j) && i < |j.system.received|
    ensures i < |j.calls| && j.system.received[i] == ReplyTo(j.calls, i)
  {
    assert (j.system.received + j.system.core.results)[i] == j.system.received[i];
    ReplyAt(j.calls, |j.calls|, i);
  }

  /** Reply `n`, an `Unchanged`, refers to the worker's last real answer for the deck. That answer was for the same
      key, was received before it, and is what a fresh read gave when the version was sampled. The polls' last real
      answer for the deck is that one exactly when the deck's slot held its key when its reply was received;
      otherwise it is an older one or there is none. */
  predicate RefersBack(w: World, j: Joined, n: nat)
    requires n < |j.system.received|
  {
    var received, key := j.system.received, j.system.received[n].key;
    && n < |j.calls| && n < |j.wanted|
    && var last, answer := LastHanded(j, n, key.deck), LastReal(j.calls, n, key.deck);
    && answer.Some? && received[answer.value].key == key
    && Lookup(w.states(j.calls[n].sampledAt), key) == Some(received[answer.value].prepared)
    && (last == answer <==> j.wanted[answer.value])
    && (!j.wanted[answer.value] ==> last.None? || last.value < answer.value)
  }

  /** No real answer for the deck was received after the worker's last one. */
  lemma NoneSince(w: World, j: Joined, n: nat, deck: DeckId)
    requires Consistent(w, j) && n <= |j.system.received| && n <= |j.calls| && LastReal(j.calls, n, deck).Some?
    ensures forall m :: LastReal(j.calls, n, deck).value < m < n ==> !Answers(j.system.received[m], deck)
  {
    var answer := LastReal(j.calls, n, deck).value;
    hide LastReal, After;
    forall m | answer < m < n ensures !Answers(j.system.received[m], deck) {
      ReplyIs(w, j, m);
    }
  }

  lemma ConsistentRefersBack(w: World, j: Joined, n: nat)
    requires Rising(w) && Consistent(w, j) && n < |j.system.received| && j.system.received[n].prepared == Unchanged
    ensures RefersBack(w, j, n)
  {
    hide After, LastReal, LastHanded, Lookup, Protocol, Given, Rising;
    ReplyIs(w, j, n);
    UnchangedIsFresh(w, j.calls, n);
    var deck := j.calls[n].key.deck;
    var answer := LastReal(j.calls, n, deck).value;
    ReplyIs(w, j, answer);
    NoneSince(w, j, n, deck);
    hide History, Replies;
    var last := LastHanded(j, n, deck);
    assert last.Some? ==> last.value <= answer;
    assert j.wanted[answer] <==> answer in j.handed;
  }

  lemma {:induction false} UnchangedRefersToTheLastAnswer(w: World, es: seq<Turn>, n: nat)
    requires Rising(w) && n < |JoinedRun(w, es).system.received|
    requires JoinedRun(w, es).system.received[n].prepared == Unchanged
    ensures RefersBack(w, JoinedRun(w, es), n)
  {
    RunIsConsistent(w, es);
    ConsistentRefersBack(w, JoinedRun(w, es), n);
  }
}
