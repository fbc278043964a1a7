/** The edit commands of a timeline: which are refused, and what each does to the meaning of the beats. */
module TimelineEdits {
  import opened Domain
  import opened Timeline

  datatype Command =
    | Create(start: nat, end: nat, role: nat)
    | Split(index: nat, at: nat)
    | MergePrevious(index: nat)
    | MergeNext(index: nat)
    | MoveBoundary(index: nat, to: nat)
    | DeleteIntoPrevious(index: nat)
    | DeleteIntoNext(index: nat)
    | ChangeRole(index: nat, role: nat)
    | SetLoopStrategy(index: nat, strategy: Strategy)

  datatype EditError =
    | UnknownPhrase | InvalidBeatSelection | InvalidSplitBoundary | InvalidBoundaryMove
    | MissingPreviousPhrase | MissingNextPhrase | CannotDeleteOnlyPhrase | NoChange | TooManyPhrases
    | RevisionOverflow | InvalidResult(error: Invalid)

  datatype Outcome = Edited(phrases: seq<Phrase>) | Refused(error: EditError)

  // ----- Creating a phrase over a selection --------------------------------------------

  function End(ps: seq<Phrase>): nat { EndBefore(ps, |ps|, 0) }

  /** What the beats have to mean afterwards. */
  function Target(ps: seq<Phrase>, lo: nat, hi: nat, role: nat, beat: nat): Option<Meaning> {
    if lo <= beat < hi then Some(Meaning(role, Auto)) else Lookup(ps, beat)
  }

  /** So far the new phrases are a chain and give every beat they cover its new meaning. */
  ghost predicate Painted(ps: seq<Phrase>, edited: seq<Phrase>, lo: nat, hi: nat, role: nat) {
    && Chained(edited, 0)
    && forall beat: nat :: beat < End(edited) ==> Lookup(edited, beat) == Target(ps, lo, hi, role, beat)
  }

  lemma Paint(ps: seq<Phrase>, edited: seq<Phrase>, q: Phrase, lo: nat, hi: nat, role: nat)
    requires Painted(ps, edited, lo, hi, role) && q.start == End(edited) && q.start < q.end
    requires forall beat: nat :: Holds(q, beat) ==> Target(ps, lo, hi, role, beat) == Some(Means(q))
    ensures Painted(ps, edited + [q], lo, hi, role) && End(edited + [q]) == q.end
  {
    var next := edited + [q];
    forall i | 0 <= i < |next| ensures Linked(next, i, 0) {
      if i < |edited| { assert Linked(edited, i, 0); }
    }
    hide Target, Chained;
    forall beat: nat | beat < End(next) ensures Lookup(next, beat) == Target(ps, lo, hi, role, beat) {
      LookupPush(edited, q, beat);
    }
  }

  lemma LookupAt(ps: seq<Phrase>, total: nat, i: nat, beat: nat)
    requires Covers(ps, 0, total) && i < |ps| && Holds(ps[i], beat)
    ensures Lookup(ps, beat) == Some(Means(ps[i]))
  {
    var a, b := ps[..i + 1], ps[i + 1..];
    assert ps == a + b && a == ps[..i] + [ps[i]];
    Suffix(ps, 0, total, i + 1);
    LookupJoin(a, b, beat);
    LookupCovers(b, ps[i].end, beat);
    LookupPush(ps[..i], ps[i], beat);
  }

  /** A part of an old phrase outside the selection keeps its meaning. */
  lemma PaintOld(ps: seq<Phrase>, total: nat, i: nat, edited: seq<Phrase>, q: Phrase, lo: nat, hi: nat, role: nat)
    requires Covers(ps, 0, total) && i < |ps| && Painted(ps, edited, lo, hi, role)
    requires q.start == End(edited) && q.start < q.end && Means(q) == Means(ps[i])
    requires ps[i].start <= q.start && q.end <= ps[i].end && (q.end <= lo || hi <= q.start)
    ensures Painted(ps, edited + [q], lo, hi, role) && End(edited + [q]) == q.end
  {
    hide Painted, Chained, Lookup;
    forall beat: nat | Holds(q, beat) ensures Target(ps, lo, hi, role, beat) == Some(Means(q)) {
      LookupAt(ps, total, i, beat);
    }
    Paint(ps, edited, q, lo, hi, role);
  }

  /** How far the new phrases reach when the old ones are done up to `done`. */
  function Reach(done: nat, lo: nat, hi: nat): nat { if done <= lo then done else if done < hi then hi else done }

  /** The beginnings of the first `n` phrases that lie outside the selection. */
  function KeptStarts(ps: seq<Phrase>, n: nat, lo: nat, hi: nat): set<nat>
    requires n <= |ps|
  {
    if n == 0 then {}
    else
      var start := ps[n - 1].start;
      KeptStarts(ps, n - 1, lo, hi) + (if start < lo || start >= hi then {start} else {})
  }

  /** Beginnings after the old phrases are done up to `done`: those kept, and the ends of the selection once reached. */
  function CreatedStarts(kept: set<nat>, done: nat, lo: nat, hi: nat): set<nat> {
    kept + (if done > lo then {lo} else {}) + (if done > hi then {hi} else {})
  }

  lemma {:induction false} KeptStartsExactly(ps: seq<Phrase>, n: nat, lo: nat, hi: nat)
    requires n <= |ps|
    ensures KeptStarts(ps, n, lo, hi) == set s | s in Starts(ps[..n]) && (s < lo || s >= hi)
  {
    if n > 0 {
      KeptStartsExactly(ps, n - 1, lo, hi);
      assert ps[..n][..n - 1] == ps[..n - 1];
    }
  }

  method CreatePhrase(ps: seq<Phrase>, total: nat, lo: nat, hi: nat, role: nat) returns (edited: seq<Phrase>)
    requires Covers(ps, 0, total) && lo < hi <= total
    ensures Covers(edited, 0, total)
    ensures forall beat: nat :: beat < total ==> Lookup(edited, beat) == Target(ps, lo, hi, role, beat)
    ensures Starts(edited) == CreatedStarts(KeptStarts(ps, |ps|, lo, hi), total, lo, hi)
    ensures Strategic(ps) ==> Strategic(edited)
  {
    hide Painted, Lookup, Chained, Target, Starts;
    edited := [];
    assert Starts([]) == {} by { StartsNothing(); }
    assert Painted(ps, [], lo, hi, role) by { PaintNothing(ps, lo, hi, role); }
    for i := 0 to |ps|
      invariant Painted(ps, edited, lo, hi, role)
      invariant End(edited) == Reach(EndBefore(ps, i, 0), lo, hi)
      invariant Strategic(ps) ==> Strategic(edited)
      invariant Starts(edited) == CreatedStarts(KeptStarts(ps, i, lo, hi), EndBefore(ps, i, 0), lo, hi)
    {
      var p := ps[i];
      LinkedAt(ps, total, i);
      if p.end <= lo || p.start >= hi {
        PaintOld(ps, total, i, edited, p, lo, hi, role);
        StartsPush(edited, p);
        edited := edited + [p];
      } else {
        if p.start < lo {
          var q := Phrase(0, p.start, lo, p.role, p.strategy);
          PaintOld(ps, total, i, edited, q, lo, hi, role);
          StartsPush(edited, q);
          edited := edited + [q];
        }
        if edited == [] || edited[|edited| - 1].end <= lo {
          var q := Phrase(0, lo, hi, role, Auto);
          PaintNew(ps, edited, q, lo, hi, role);
          StartsPush(edited, q);
          edited := edited + [q];
        }
        if p.end > hi {
          var q := Phrase(0, hi, p.end, p.role, p.strategy);
          PaintOld(ps, total, i, edited, q, lo, hi, role);
          StartsPush(edited, q);
          edited := edited + [q];
        }
      }
    }
    PaintedAll(ps, edited, total, lo, hi, role);
  }

  lemma StartsNothing()
    ensures Starts([]) == {}
  {
  }

  lemma PaintNothing(ps: seq<Phrase>, lo: nat, hi: nat, role: nat)
    ensures Painted(ps, [], lo, hi, role)
  {
  }

  lemma LinkedAt(ps: seq<Phrase>, total: nat, i: nat)
    requires Covers(ps, 0, total) && i < |ps|
    ensures ps[i].start == EndBefore(ps, i, 0) && ps[i].start < ps[i].end <= total
  {
    ChainedIsOrdered(ps, 0, i, |ps| - 1);
    assert Linked(ps, i, 0);
  }

  lemma PaintNew(ps: seq<Phrase>, edited: seq<Phrase>, q: Phrase, lo: nat, hi: nat, role: nat)
    requires Painted(ps, edited, lo, hi, role) && lo == End(edited) && lo < hi && q == Phrase(0, lo, hi, role, Auto)
    ensures Painted(ps, edited + [q], lo, hi, role) && End(edited + [q]) == hi
  {
    hide Painted;
    Paint(ps, edited, q, lo, hi, role);
  }

  lemma PaintedAll(ps: seq<Phrase>, edited: seq<Phrase>, total: nat, lo: nat, hi: nat, role: nat)
    requires Painted(ps, edited, lo, hi, role) && End(edited) == total
    ensures Covers(edited, 0, total)
    ensures forall beat: nat :: beat < total ==> Lookup(edited, beat) == Target(ps, lo, hi, role, beat)
  {
    hide Target;
  }

  // ----- The other commands ------------------------------------------------------------

  /** Why a command is refused, if it is. */
  function Refusal(ps: seq<Phrase>, total: nat, c: Command): Option<EditError> {
    if c.Create? then if c.start >= c.end || c.end > total then Some(InvalidBeatSelection) else None
    else if c.index >= |ps| then Some(UnknownPhrase)
    else
      match c
      case Split(i, at) => if at <= ps[i].start || at >= ps[i].end then Some(InvalidSplitBoundary) else None
      case MergePrevious(i) => if i == 0 then Some(MissingPreviousPhrase) else None
      case MergeNext(i) => if i + 1 >= |ps| then Some(MissingNextPhrase) else None
      case MoveBoundary(i, to) =>
        if i + 1 >= |ps| then Some(MissingNextPhrase)
        else if to <= ps[i].start || to >= ps[i + 1].end then Some(InvalidBoundaryMove)
        else None
      case DeleteIntoPrevious(i) =>
        if |ps| == 1 then Some(CannotDeleteOnlyPhrase) else if i == 0 then Some(MissingPreviousPhrase) else None
      case DeleteIntoNext(i) =>
        if |ps| == 1 then Some(CannotDeleteOnlyPhrase) else if i + 1 >= |ps| then Some(MissingNextPhrase) else None
      case ChangeRole(i, role) => if ps[i].role == role then Some(EditError.NoChange) else None
      case SetLoopStrategy(i, strategy) => if ps[i].strategy == strategy then Some(EditError.NoChange) else None
  }

  /** What a command makes of each beat. A split keeps the role of both halves but the loop strategy of the first
      only, and a changed role starts without a strategy. */
  function Expected(ps: seq<Phrase>, total: nat, c: Command, beat: nat): Option<Meaning>
    requires Refusal(ps, total, c).None?
  {
    match c
    case Create(lo, hi, role) => Target(ps, lo, hi, role, beat)
    case Split(i, at) => if at <= beat < ps[i].end then Some(Meaning(ps[i].role, Auto)) else Lookup(ps, beat)
    case MergePrevious(i) => if ps[i - 1].start <= beat < ps[i].end then Some(Means(ps[i])) else Lookup(ps, beat)
    case MergeNext(i) => if ps[i].start <= beat < ps[i + 1].end then Some(Means(ps[i])) else Lookup(ps, beat)
    case MoveBoundary(i, to) =>
      if ps[i].start <= beat < to then Some(Means(ps[i]))
      else if to <= beat < ps[i + 1].end then Some(Means(ps[i + 1]))
      else Lookup(ps, beat)
    case DeleteIntoPrevious(i) =>
      if ps[i - 1].start <= beat < ps[i].end then Some(Means(ps[i - 1])) else Lookup(ps, beat)
    case DeleteIntoNext(i) => if ps[i].start <= beat < ps[i + 1].end then Some(Means(ps[i + 1])) else Lookup(ps, beat)
    case ChangeRole(i, role) => if Holds(ps[i], beat) then Some(Meaning(role, Auto)) else Lookup(ps, beat)
    case SetLoopStrategy(i, strategy) =>
      if Holds(ps[i], beat) then Some(Meaning(ps[i].role, strategy)) else Lookup(ps, beat)
  }

  /** Where phrases begin afterwards: a split adds a beginning, a merge or a deletion removes one, a move replaces one,
      and a creation keeps those outside the selection and adds the selection's own ends. */
  function ExpectedStarts(ps: seq<Phrase>, total: nat, c: Command): set<nat>
    requires Refusal(ps, total, c).None?
  {
    match c
    case Create(lo, hi, _) =>
      (set s | s in Starts(ps) && (s < lo || s >= hi)) + {lo} + (if hi < total then {hi} else {})
    case Split(_, at) => Starts(ps) + {at}
    case MergePrevious(i) => Starts(ps) - {ps[i].start}
    case MergeNext(i) => Starts(ps) - {ps[i + 1].start}
    case MoveBoundary(i, to) => Starts(ps) - {ps[i + 1].start} + {to}
    case DeleteIntoPrevious(i) => Starts(ps) - {ps[i].start}
    case DeleteIntoNext(i) => Starts(ps) - {ps[i + 1].start}
    case _ => Starts(ps)
  }

  /** The new phrases partition the track, begin where the command calls for, and give every beat the meaning it calls
      for. Together these determine the phrases. */
  ghost predicate Does(ps: seq<Phrase>, total: nat, c: Command, edited: seq<Phrase>)
    requires Refusal(ps, total, c).None?
  {
    && Covers(edited, 0, total) && Starts(edited) == ExpectedStarts(ps, total, c)
    && forall beat: nat :: beat < total ==> Lookup(edited, beat) == Expected(ps, total, c, beat)
  }

  /** Any two ways to do a command give the same phrases, apart from their numbers. */
  lemma DoingIsUnique(ps: seq<Phrase>, total: nat, c: Command, a: seq<Phrase>, b: seq<Phrase>)
    requires Refusal(ps, total, c).None? && Does(ps, total, c, a) && Does(ps, total, c, b)
    ensures |a| == |b| && forall i :: 0 <= i < |a| ==> a[i].(index := 0) == b[i].(index := 0)
  {
    hide Expected, ExpectedStarts, Lookup, Chained, Starts;
    forall beat: nat | beat < total ensures Lookup(a, beat) == Lookup(b, beat) {
      assert Lookup(a, beat) == Expected(ps, total, c, beat);
    }
    SamePhrases(a, b, total);
  }

  ghost predicate Overwrites(ps: seq<Phrase>, edited: seq<Phrase>, q: Phrase, r: Phrase) {
    forall beat: nat :: Lookup(edited, beat)
      == if Holds(r, beat) then Some(Means(r)) else if Holds(q, beat) then Some(Means(q)) else Lookup(ps, beat)
  }

  lemma LookupTwo(q: Phrase, r: Phrase, beat: nat)
    ensures Lookup([q], beat) == if Holds(q, beat) then Some(Means(q)) else None
    ensures Lookup([q, r], beat) == if Holds(r, beat) then Some(Means(r)) else Lookup([q], beat)
  {
    LookupPush([], q, beat);
    LookupPush([q], r, beat);
    assert [] + [q] == [q] && [q] + [r] == [q, r];
  }

  lemma StartsTwo(q: Phrase, r: Phrase)
    ensures Starts([q]) == {q.start} && Starts([q, r]) == {q.start, r.start}
  {
    assert Starts([]) == {};
    hide Starts;
    StartsPush([], q);
    StartsPush([q], r);
    assert [] + [q] == [q] && [q] + [r] == [q, r];
  }

  /** The beginnings of one phrase and of two neighbours. */
  lemma StartsOf(ps: seq<Phrase>, total: nat, i: nat)
    requires Covers(ps, 0, total) && i < |ps|
    ensures Starts(ps[i..i + 1]) == {ps[i].start} && ps[i].start in Starts(ps)
    ensures i + 1 < |ps| ==>
      && Starts(ps[i..i + 2]) == {ps[i].start, ps[i + 1].start}
      && ps[i].start < ps[i].end == ps[i + 1].start && ps[i + 1].start in Starts(ps)
  {
    hide Starts, Chained;
    LinkedAt(ps, total, i);
    StartsTwo(ps[i], ps[i]);
    assert ps[i..i + 1] == [ps[i]];
    StartsExactly(ps, ps[i].start);
    if i + 1 < |ps| {
      LinkedAt(ps, total, i + 1);
      StartsTwo(ps[i], ps[i + 1]);
      assert ps[i..i + 2] == [ps[i], ps[i + 1]];
      StartsExactly(ps, ps[i + 1].start);
    }
  }

  lemma SpliceTwo(ps: seq<Phrase>, total: nat, i: nat, j: nat, q: Phrase, r: Phrase)
    requires Covers(ps, 0, total) && i < j <= |ps|
    requires q.start == ps[i].start && q.end == r.start && r.end == ps[j - 1].end && q.start < q.end < r.end
    ensures Covers(ps[..i] + [q, r] + ps[j..], 0, total) && Overwrites(ps, ps[..i] + [q, r] + ps[j..], q, r)
    ensures Starts(ps[..i] + [q, r] + ps[j..]) == Starts(ps) - Starts(ps[i..j]) + {q.start, r.start}
  {
    SpliceStarts(ps, total, i, j, [q, r]);
    StartsTwo(q, r);
    var edited := ps[..i] + [q, r] + ps[j..];
    LinkedAt(ps, total, i);
    forall k | 0 <= k < 2 ensures Linked([q, r], k, q.start) { }
    Splice(ps, total, i, j, [q, r]);
    hide Lookup, Chained, Linked, Starts;
    forall beat: nat
      ensures Lookup(edited, beat)
        == if Holds(r, beat) then Some(Means(r)) else if Holds(q, beat) then Some(Means(q)) else Lookup(ps, beat)
    {
      LookupTwo(q, r, beat);
    }
  }

  lemma SpliceOne(ps: seq<Phrase>, total: nat, i: nat, j: nat, q: Phrase)
    requires Covers(ps, 0, total) && i < j <= |ps|
    requires q.start == ps[i].start && q.end == ps[j - 1].end && q.start < q.end
    ensures Covers(ps[..i] + [q] + ps[j..], 0, total) && Overwrites(ps, ps[..i] + [q] + ps[j..], q, q)
    ensures Starts(ps[..i] + [q] + ps[j..]) == Starts(ps) - Starts(ps[i..j]) + {q.start}
  {
    SpliceStarts(ps, total, i, j, [q]);
    StartsTwo(q, q);
    var edited := ps[..i] + [q] + ps[j..];
    LinkedAt(ps, total, i);
    forall k | 0 <= k < 1 ensures Linked([q], k, q.start) { }
    Splice(ps, total, i, j, [q]);
    hide Lookup, Chained, Linked, Starts;
    forall beat: nat
      ensures Lookup(edited, beat) == if Holds(q, beat) then Some(Means(q)) else Lookup(ps, beat)
    {
      LookupTwo(q, q, beat);
    }
  }

  method SplitPhrase(ps: seq<Phrase>, total: nat, i: nat, at: nat) returns (edited: seq<Phrase>)
    requires Covers(ps, 0, total) && Refusal(ps, total, Split(i, at)).None?
    ensures Does(ps, total, Split(i, at), edited)
    ensures Strategic(ps) ==> Strategic(edited)
  {
    var p := ps[i];
    var q, r := Phrase(0, p.start, at, p.role, p.strategy), Phrase(0, at, p.end, p.role, Auto);
    edited := ps[i := q];
    edited := edited[..i + 1] + [r] + edited[i + 1..];
    assert edited == ps[..i] + [q, r] + ps[i + 1..];
    SpliceTwo(ps, total, i, i + 1, q, r);
    StartsOf(ps, total, i);
    hide Lookup, Chained, Starts;
    forall beat: nat | beat < total && p.start <= beat < at ensures Lookup(ps, beat) == Some(Means(p)) {
      LookupAt(ps, total, i, beat);
    }
  }

  method MergeBackward(ps: seq<Phrase>, total: nat, i: nat) returns (edited: seq<Phrase>)
    requires Covers(ps, 0, total) && Refusal(ps, total, MergePrevious(i)).None?
    ensures Does(ps, total, MergePrevious(i), edited)
    ensures Strategic(ps) ==> Strategic(edited)
  {
    hide Lookup, Chained, Starts;
    var p := ps[i];
    LinkedAt(ps, total, i);
    LinkedAt(ps, total, i - 1);
    StartsOf(ps, total, i - 1);
    var q := Phrase(0, ps[i - 1].start, p.end, p.role, p.strategy);
    edited := ps[i := q];
    edited := edited[..i - 1] + edited[i..];
    assert edited == ps[..i - 1] + [q] + ps[i + 1..];
    SpliceOne(ps, total, i - 1, i + 1, q);
  }

  method MergeForward(ps: seq<Phrase>, total: nat, i: nat) returns (edited: seq<Phrase>)
    requires Covers(ps, 0, total) && Refusal(ps, total, MergeNext(i)).None?
    ensures Does(ps, total, MergeNext(i), edited)
    ensures Strategic(ps) ==> Strategic(edited)
  {
    hide Lookup, Chained, Starts;
    var p := ps[i];
    LinkedAt(ps, total, i);
    LinkedAt(ps, total, i + 1);
    StartsOf(ps, total, i);
    var q := Phrase(0, p.start, ps[i + 1].end, p.role, p.strategy);
    edited := ps[i := q];
    edited := edited[..i + 1] + edited[i + 2..];
    assert edited == ps[..i] + [q] + ps[i + 2..];
    SpliceOne(ps, total, i, i + 2, q);
  }

  method MovePhraseBoundary(ps: seq<Phrase>, total: nat, i: nat, to: nat) returns (edited: seq<Phrase>)
    requires Covers(ps, 0, total) && Refusal(ps, total, MoveBoundary(i, to)).None?
    ensures Does(ps, total, MoveBoundary(i, to), edited)
    ensures Strategic(ps) ==> Strategic(edited)
  {
    hide Lookup, Chained, Starts;
    LinkedAt(ps, total, i);
    LinkedAt(ps, total, i + 1);
    StartsOf(ps, total, i);
    var q := Phrase(0, ps[i].start, to, ps[i].role, ps[i].strategy);
    var r := Phrase(0, to, ps[i + 1].end, ps[i + 1].role, ps[i + 1].strategy);
    edited := ps[i := q];
    edited := edited[i + 1 := r];
    assert edited == ps[..i] + [q, r] + ps[i + 2..];
    SpliceTwo(ps, total, i, i + 2, q, r);
  }

  method DeleteBackward(ps: seq<Phrase>, total: nat, c: Command) returns (edited: seq<Phrase>)
    requires Covers(ps, 0, total) && c.DeleteIntoPrevious? && Refusal(ps, total, c).None?
    ensures Does(ps, total, c, edited)
    ensures Strategic(ps) ==> Strategic(edited)
  {
    hide Lookup, Chained, Starts;
    var i := c.index;
    LinkedAt(ps, total, i);
    LinkedAt(ps, total, i - 1);
    var q := Phrase(0, ps[i - 1].start, ps[i].end, ps[i - 1].role, ps[i - 1].strategy);
    edited := ps[i - 1 := q];
    edited := edited[..i] + edited[i + 1..];
    assert edited == ps[..i - 1] + [q] + ps[i + 1..];
    SpliceOne(ps, total, i - 1, i + 1, q);
    StartsOf(ps, total, i - 1);
  }

  method DeleteForward(ps: seq<Phrase>, total: nat, c: Command) returns (edited: seq<Phrase>)
    requires Covers(ps, 0, total) && c.DeleteIntoNext? && Refusal(ps, total, c).None?
    ensures Does(ps, total, c, edited)
    ensures Strategic(ps) ==> Strategic(edited)
  {
    hide Lookup, Chained, Starts;
    var i := c.index;
    LinkedAt(ps, total, i);
    LinkedAt(ps, total, i + 1);
    var q := Phrase(0, ps[i].start, ps[i + 1].end, ps[i + 1].role, ps[i + 1].strategy);
    edited := ps[i + 1 := q];
    edited := edited[..i] + edited[i + 1..];
    assert edited == ps[..i] + [q] + ps[i + 2..];
    SpliceOne(ps, total, i, i + 2, q);
    StartsOf(ps, total, i);
  }

  method DeletePhrase(ps: seq<Phrase>, total: nat, c: Command) returns (edited: seq<Phrase>)
    requires Covers(ps, 0, total) && (c.DeleteIntoPrevious? || c.DeleteIntoNext?) && Refusal(ps, total, c).None?
    ensures Does(ps, total, c, edited)
    ensures Strategic(ps) ==> Strategic(edited)
  {
    hide Covers, Does;
    if c.DeleteIntoPrevious? {
      edited := DeleteBackward(ps, total, c);
    } else {
      edited := DeleteForward(ps, total, c);
    }
  }

  method ReplacePhrase(ps: seq<Phrase>, total: nat, c: Command) returns (edited: seq<Phrase>)
    requires Covers(ps, 0, total) && (c.ChangeRole? || c.SetLoopStrategy?) && Refusal(ps, total, c).None?
    ensures Does(ps, total, c, edited)
    ensures Strategic(ps) ==> (Strategic(edited) <==> c.SetLoopStrategy? ==> WellOrdered(c.strategy))
  {
    hide Lookup, Chained, Starts;
    var i := c.index;
    var p := ps[i];
    LinkedAt(ps, total, i);
    var q := if c.ChangeRole? then Phrase(0, p.start, p.end, c.role, Auto)
      else Phrase(0, p.start, p.end, p.role, c.strategy);
    edited := ps[i := q];
    assert edited == ps[..i] + [q] + ps[i + 1..];
    SpliceOne(ps, total, i, i + 1, q);
    StartsOf(ps, total, i);
    assert edited[i] == q;
  }

  // ----- Whole edits -------------------------------------------------------------------

  function Reindexed(ps: seq<Phrase>): (r: seq<Phrase>)
    requires |ps| <= MAXIMUM_PHRASES
    ensures |r| == |ps|
  {
    seq(|ps|, i requires 0 <= i < |ps| => ps[i].(index := i))
  }

  lemma {:induction false} ReindexedMeans(ps: seq<Phrase>, beat: nat)
    requires |ps| <= MAXIMUM_PHRASES
    ensures Lookup(Reindexed(ps), beat) == Lookup(ps, beat)
  {
    if ps != [] {
      ReindexedMeans(ps[..|ps| - 1], beat);
      assert Reindexed(ps)[..|ps| - 1] == Reindexed(ps[..|ps| - 1]);
    }
  }

  lemma {:induction false} ReindexedStarts(ps: seq<Phrase>)
    requires |ps| <= MAXIMUM_PHRASES
    ensures Starts(Reindexed(ps)) == Starts(ps)
  {
    if ps != [] {
      ReindexedStarts(ps[..|ps| - 1]);
      assert Reindexed(ps)[..|ps| - 1] == Reindexed(ps[..|ps| - 1]);
    }
  }

  /** Renumbering changes nothing but the numbers. */
  lemma ReindexedKeeps(ps: seq<Phrase>, total: nat, c: Command, edited: seq<Phrase>)
    requires Refusal(ps, total, c).None? && Does(ps, total, c, edited) && |edited| <= MAXIMUM_PHRASES
    ensures Does(ps, total, c, Reindexed(edited)) && Indexed(Reindexed(edited))
    ensures Strategic(Reindexed(edited)) <==> Strategic(edited)
  {
    var r := Reindexed(edited);
    forall i | 0 <= i < |r| ensures Linked(r, i, 0) { assert Linked(edited, i, 0); }
    assert Strategic(r) ==> Strategic(edited) by {
      if Strategic(r) {
        forall i | 0 <= i < |edited| ensures WellOrdered(edited[i].strategy) { assert WellOrdered(r[i].strategy); }
      }
    }
    ReindexedStarts(edited);
    hide Expected, Lookup, Chained, Starts;
    forall beat: nat | beat < total ensures Lookup(r, beat) == Expected(ps, total, c, beat) {
      ReindexedMeans(edited, beat);
    }
  }

  predicate Malformed(c: Command) { c.SetLoopStrategy? && !WellOrdered(c.strategy) }

  /** Builds the phrases of an accepted command, not yet renumbered. */
  method Reshape(ps: seq<Phrase>, total: nat, c: Command) returns (edited: seq<Phrase>)
    requires Covers(ps, 0, total) && Strategic(ps) && Refusal(ps, total, c).None?
    ensures Does(ps, total, c, edited)
    ensures Strategic(edited) <==> !Malformed(c)
  {
    hide Covers, Strategic, Expected, ExpectedStarts, Lookup, Starts, KeptStarts;
    match c {
      case Create(lo, hi, role) =>
        edited := CreatePhrase(ps, total, lo, hi, role);
        Creates(ps, total, c, edited);
      case Split(i, at) => edited := SplitPhrase(ps, total, i, at);
      case MergePrevious(i) => edited := MergeBackward(ps, total, i);
      case MergeNext(i) => edited := MergeForward(ps, total, i);
      case MoveBoundary(i, to) => edited := MovePhraseBoundary(ps, total, i, to);
      case DeleteIntoPrevious(_) => edited := DeletePhrase(ps, total, c);
      case DeleteIntoNext(_) => edited := DeletePhrase(ps, total, c);
      case _ => edited := ReplacePhrase(ps, total, c);
    }
  }

  lemma Creates(ps: seq<Phrase>, total: nat, c: Command, edited: seq<Phrase>)
    requires c.Create? && Refusal(ps, total, c).None? && Covers(edited, 0, total)
    requires Starts(edited) == CreatedStarts(KeptStarts(ps, |ps|, c.start, c.end), total, c.start, c.end)
    requires forall beat: nat :: beat < total ==> Lookup(edited, beat) == Target(ps, c.start, c.end, c.role, beat)
    ensures Does(ps, total, c, edited)
  {
    KeptStartsExactly(ps, |ps|, c.start, c.end);
    assert ps[..|ps|] == ps;
    hide Starts, KeptStarts, Lookup, Covers;
  }

  // ----- When an edit changes nothing --------------------------------------------------

  /** The edit asks for what is there already: a boundary stays where it is, or the selection is a phrase of that role
      without a loop strategy. */
  predicate Idle(ps: seq<Phrase>, c: Command) {
    match c
    case MoveBoundary(i, to) => i < |ps| && to == ps[i].end
    case Create(lo, hi, role) => exists i :: 0 <= i < |ps| && IsSelection(ps[i], lo, hi, role)
    case _ => false
  }

  predicate IsSelection(p: Phrase, lo: nat, hi: nat, role: nat) {
    p.start == lo && p.end == hi && p.role == role && p.strategy == Auto
  }

  /** Neither a beginning nor a meaning changes. */
  ghost predicate Unchanged(ps: seq<Phrase>, total: nat, c: Command)
    requires Refusal(ps, total, c).None?
  {
    && ExpectedStarts(ps, total, c) == Starts(ps)
    && forall beat: nat :: beat < total ==> Expected(ps, total, c, beat) == Lookup(ps, beat)
  }

  lemma NoStartInside(ps: seq<Phrase>, total: nat, i: nat, beat: nat)
    requires Covers(ps, 0, total) && i < |ps| && ps[i].start < beat < ps[i].end
    ensures beat !in Starts(ps)
  {
    StartsExactly(ps, beat);
    if k :| 0 <= k < |ps| && ps[k].start == beat {
      if k < i {
        ChainedIsOrdered(ps, 0, k, i);
        LinkedAt(ps, total, k);
      } else if i < k {
        ChainedIsOrdered(ps, 0, i, k);
      }
    }
  }

  lemma MoveIsIdle(ps: seq<Phrase>, total: nat, c: Command)
    requires Covers(ps, 0, total) && c.MoveBoundary? && Refusal(ps, total, c).None?
    ensures Unchanged(ps, total, c) <==> Idle(ps, c)
  {
    var i, to := c.index, c.to;
    StartsOf(ps, total, i);
    LinkedAt(ps, total, i + 1);
    hide Lookup, Chained, Starts;
    if to == ps[i].end {
      forall beat: nat | beat < total ensures Expected(ps, total, c, beat) == Lookup(ps, beat) {
        if Holds(ps[i], beat) {
          LookupAt(ps, total, i, beat);
        } else if Holds(ps[i + 1], beat) {
          LookupAt(ps, total, i + 1, beat);
        }
      }
    } else {
      assert ps[i + 1].start !in ExpectedStarts(ps, total, c);
    }
  }

  lemma SelectionIsIdle(ps: seq<Phrase>, total: nat, c: Command, i: nat)
    requires Covers(ps, 0, total) && c.Create? && Refusal(ps, total, c).None?
    requires i < |ps| && IsSelection(ps[i], c.start, c.end, c.role)
    ensures Unchanged(ps, total, c)
  {
    StartsOf(ps, total, i);
    StartsWithin(ps, 0);
    forall s | s in Starts(ps) && c.start <= s < c.end ensures s == c.start {
      if s != c.start { NoStartInside(ps, total, i, s); }
    }
    if i + 1 == |ps| { assert c.end == total; }
    hide Lookup, Chained, Starts;
    assert ExpectedStarts(ps, total, c) == Starts(ps);
    forall beat: nat | beat < total ensures Expected(ps, total, c, beat) == Lookup(ps, beat) {
      if c.start <= beat < c.end { LookupAt(ps, total, i, beat); }
    }
  }

  lemma UnchangedSelection(ps: seq<Phrase>, total: nat, c: Command)
    requires Covers(ps, 0, total) && c.Create? && Refusal(ps, total, c).None? && Unchanged(ps, total, c)
    ensures Idle(ps, c)
  {
    assert c.start in ExpectedStarts(ps, total, c);
    StartsExactly(ps, c.start);
    var i :| 0 <= i < |ps| && ps[i].start == c.start;
    LinkedAt(ps, total, i);
    assert Expected(ps, total, c, c.start) == Some(Meaning(c.role, Auto));
    LookupAt(ps, total, i, c.start);
    if ps[i].end < c.end {
      if i + 1 < |ps| {
        StartsOf(ps, total, i);
      }
    } else if c.end < ps[i].end {
      assert c.end in ExpectedStarts(ps, total, c);
      NoStartInside(ps, total, i, c.end);
    }
    assert IsSelection(ps[i], c.start, c.end, c.role);
  }

  lemma OthersAreNotIdle(ps: seq<Phrase>, total: nat, c: Command)
    requires Covers(ps, 0, total) && Refusal(ps, total, c).None? && !c.Create? && !c.MoveBoundary?
    ensures !Unchanged(ps, total, c)
  {
    var i := c.index;
    StartsOf(ps, total, i);
    LinkedAt(ps, total, i);
    hide Chained, Starts;
    if c.Split? {
      NoStartInside(ps, total, i, c.at);
      assert c.at in ExpectedStarts(ps, total, c);
    } else if c.ChangeRole? || c.SetLoopStrategy? {
      LookupAt(ps, total, i, ps[i].start);
      hide Lookup;
      assert Expected(ps, total, c, ps[i].start) != Lookup(ps, ps[i].start);
    } else if c.MergePrevious? || c.DeleteIntoPrevious? {
      assert ps[i].start !in ExpectedStarts(ps, total, c);
    } else {
      assert ps[i + 1].start !in ExpectedStarts(ps, total, c);
    }
  }

  /** An accepted edit leaves everything as it is exactly when it asks for what is there already. */
  lemma IdleExactly(ps: seq<Phrase>, total: nat, c: Command)
    requires Covers(ps, 0, total) && Refusal(ps, total, c).None?
    ensures Unchanged(ps, total, c) <==> Idle(ps, c)
  {
    hide Unchanged, Covers;
    if c.MoveBoundary? {
      MoveIsIdle(ps, total, c);
    } else if c.Create? {
      if Idle(ps, c) {
        var i :| 0 <= i < |ps| && IsSelection(ps[i], c.start, c.end, c.role);
        SelectionIsIdle(ps, total, c, i);
      } else if Unchanged(ps, total, c) {
        UnchangedSelection(ps, total, c);
      }
    } else {
      OthersAreNotIdle(ps, total, c);
    }
  }

  /** Numbered phrases equal the old ones exactly when neither a beginning nor a meaning has changed. */
  lemma SameExactlyWhenUnchanged(ps: seq<Phrase>, total: nat, c: Command, numbered: seq<Phrase>)
    requires Covers(ps, 0, total) && Indexed(ps) && Refusal(ps, total, c).None?
    requires Does(ps, total, c, numbered) && Indexed(numbered)
    ensures numbered == ps <==> Unchanged(ps, total, c)
  {
    hide Expected, ExpectedStarts, Lookup, Chained, Starts;
    if Unchanged(ps, total, c) {
      forall beat: nat | beat < total ensures Lookup(numbered, beat) == Lookup(ps, beat) {
        assert Lookup(numbered, beat) == Expected(ps, total, c, beat);
      }
      SamePhrases(numbered, ps, total);
      forall i | 0 <= i < |ps| ensures numbered[i] == ps[i] {
        assert numbered[i].(index := 0) == ps[i].(index := 0);
      }
    }
  }

  /** How many phrases a command leaves. */
  lemma CountIs(ps: seq<Phrase>, total: nat, c: Command, edited: seq<Phrase>)
    requires Refusal(ps, total, c).None? && Does(ps, total, c, edited)
    ensures |edited| == |ExpectedStarts(ps, total, c)|
  {
    hide Expected, ExpectedStarts, Lookup;
    StartsWithin(edited, 0);
  }

  /** What an edit answers to every command: the refusals in their order, no room for the number of phrases, nothing to
      change, a malformed loop strategy; and in all other cases it is done. */
  method Edit(track: nat, revision: nat, total: nat, ps: seq<Phrase>, c: Command) returns (r: Outcome)
    requires track > 0 && 0 < revision <= U64_MAX && Valid(ps, total)
    ensures if revision == U64_MAX then r == Refused(RevisionOverflow)
            else if Refusal(ps, total, c).Some? then r == Refused(Refusal(ps, total, c).value)
            else if |ExpectedStarts(ps, total, c)| > MAXIMUM_PHRASES then r == Refused(TooManyPhrases)
            else if Idle(ps, c) then r == Refused(EditError.NoChange)
            else if Malformed(c) then r == Refused(InvalidResult(InvalidLoopStrategy))
            else r.Edited? && Valid(r.phrases, total) && Does(ps, total, c, r.phrases)
  {
    hide Lookup, Expected, ExpectedStarts, Chained, WellOrdered, Starts, Idle;
    if revision == U64_MAX { return Refused(RevisionOverflow); }
    var refusal := Refusal(ps, total, c);
    if refusal.Some? { return Refused(refusal.value); }
    var edited := Reshape(ps, total, c);
    CountIs(ps, total, c, edited);
    if |edited| > MAXIMUM_PHRASES { return Refused(TooManyPhrases); }
    var numbered := Reindexed(edited);
    ReindexedKeeps(ps, total, c, edited);
    SameExactlyWhenUnchanged(ps, total, c, numbered);
    IdleExactly(ps, total, c);
    if numbered == ps { return Refused(EditError.NoChange); }
    var error := Validate(track, revision + 1, total, Some(revision), None, numbered);
    assert numbered != [];
    OnlyStrategiesAreDefective(numbered, |numbered|, total);
    r := if error.Some? then Refused(InvalidResult(error.value)) else Edited(numbered);
  }
}
