/** Phrase timelines: what makes one valid, and edits that keep it a partition of the track. */
module Timeline {
  import opened Domain

  datatype Strategy = Auto | FixedVariant(variant: nat) | ThemeSpecific(overrides: seq<(nat, nat)>)

  const MAXIMUM_PHRASES: nat := 0x1_0000

  type Index = n: nat | n < MAXIMUM_PHRASES

  datatype Phrase = Phrase(index: Index, start: nat, end: nat, role: nat, strategy: Strategy)

  datatype Invalid =
    | InvalidTrackId | EmptyDuration | EmptyPhrases | UnorderedPhraseIndex | InvalidPhraseCoverage
    | InvalidRevisionHistory | InvalidLoopStrategy

  /** Theme overrides are nonempty and strictly ordered by theme. */
  predicate WellOrdered(s: Strategy) {
    s.ThemeSpecific? ==>
      s.overrides != [] && forall i :: 0 < i < |s.overrides| ==> s.overrides[i - 1].0 < s.overrides[i].0
  }

  /** The end of the `i`th range, or where the first one has to start. */
  function EndBefore(ps: seq<Phrase>, i: nat, from: nat): nat
    requires i <= |ps|
  {
    if i == 0 then from else ps[i - 1].end
  }

  /** The `i`th range is not empty and starts where the one before it ends. */
  predicate Linked(ps: seq<Phrase>, i: nat, from: nat)
    requires i < |ps|
  {
    ps[i].start == EndBefore(ps, i, from) && ps[i].start < ps[i].end
  }

  /** Nonempty ranges that follow each other without a gap, starting at `from`. */
  predicate Chained(ps: seq<Phrase>, from: nat) { forall i :: 0 <= i < |ps| ==> Linked(ps, i, from) }

  /** The ranges cover `[from, to)` exactly once. */
  predicate Covers(ps: seq<Phrase>, from: nat, to: nat) { Chained(ps, from) && EndBefore(ps, |ps|, from) == to }

  predicate Indexed(ps: seq<Phrase>) { forall i :: 0 <= i < |ps| ==> ps[i].index == i }

  predicate Strategic(ps: seq<Phrase>) { forall i :: 0 <= i < |ps| ==> WellOrdered(ps[i].strategy) }

  predicate Valid(ps: seq<Phrase>, total: nat) {
    ps != [] && total > 0 && Covers(ps, 0, total) && Indexed(ps) && Strategic(ps)
  }

  lemma {:induction false} ChainedIsOrdered(ps: seq<Phrase>, from: nat, i: nat, j: nat)
    requires Chained(ps, from) && i <= j < |ps|
    ensures from <= ps[i].start && ps[i].end <= ps[j].end && (i < j ==> ps[i].end <= ps[j].start)
    decreases j, i
  {
    assert Linked(ps, i, from) && Linked(ps, j, from);
    if i < j {
      ChainedIsOrdered(ps, from, i, j - 1);
    } else if i > 0 {
      ChainedIsOrdered(ps, from, i - 1, i - 1);
      assert Linked(ps, i - 1, from);
    }
  }

  method ValidOverrides(s: Strategy) returns (r: bool)
    ensures r == WellOrdered(s)
  {
    if !s.ThemeSpecific? { return true; }
    if s.overrides == [] { return false; }
    for i := 1 to |s.overrides|
      invariant forall k :: 0 < k < i ==> s.overrides[k - 1].0 < s.overrides[k].0
    {
      if s.overrides[i - 1].0 >= s.overrides[i].0 { return false; }
    }
    r := true;
  }

  /** What is wrong with phrase `i` when those before it are in order. */
  function PhraseDefect(ps: seq<Phrase>, i: nat, total: nat): Option<Invalid>
    requires i < |ps|
  {
    if ps[i].index != i then Some(UnorderedPhraseIndex)
    else if !Linked(ps, i, 0) || ps[i].end > total then Some(InvalidPhraseCoverage)
    else if !WellOrdered(ps[i].strategy) then Some(InvalidLoopStrategy)
    else None
  }

  /** The defect of the first phrase that has one. */
  function FirstDefect(ps: seq<Phrase>, n: nat, total: nat): Option<Invalid>
    requires n <= |ps|
  {
    if n == 0 then None
    else
      var before := FirstDefect(ps, n - 1, total);
      if before.Some? then before else PhraseDefect(ps, n - 1, total)
  }

  lemma {:induction false} DefectStays(ps: seq<Phrase>, m: nat, n: nat, total: nat)
    requires m <= n <= |ps| && FirstDefect(ps, m, total).Some?
    ensures FirstDefect(ps, n, total) == FirstDefect(ps, m, total)
  {
    if m < n { DefectStays(ps, m, n - 1, total); }
  }

  /** Of a numbered partition only a loop strategy can be defective. */
  lemma {:induction false} OnlyStrategiesAreDefective(ps: seq<Phrase>, n: nat, total: nat)
    requires Covers(ps, 0, total) && Indexed(ps) && n <= |ps|
    ensures FirstDefect(ps, n, total)
      == if forall i :: 0 <= i < n ==> WellOrdered(ps[i].strategy) then None else Some(InvalidLoopStrategy)
  {
    if n > 0 {
      OnlyStrategiesAreDefective(ps, n - 1, total);
      assert Linked(ps, n - 1, 0);
      ChainedIsOrdered(ps, 0, n - 1, |ps| - 1);
    }
  }

  /** What the constructor reports. */
  function Defect(track: nat, revision: nat, total: nat, parent: Option<nat>, restoredFrom: Option<nat>,
                  ps: seq<Phrase>): Option<Invalid>
  {
    if track == 0 then Some(InvalidTrackId)
    else if total == 0 then Some(EmptyDuration)
    else if ps == [] then Some(EmptyPhrases)
    else if (parent.Some? && parent.value >= revision) || (restoredFrom.Some? && restoredFrom.value >= revision) then
      Some(InvalidRevisionHistory)
    else if FirstDefect(ps, |ps|, total).Some? then FirstDefect(ps, |ps|, total)
    else if ps[|ps| - 1].end != total then Some(InvalidPhraseCoverage)
    else None
  }

  /** The constructor accepts a timeline exactly when its identifiers are in order and its phrases are a valid
      partition of the track, and otherwise reports the first defect. */
  method Validate(track: nat, revision: nat, total: nat, parent: Option<nat>, restoredFrom: Option<nat>,
                  ps: seq<Phrase>)
    returns (error: Option<Invalid>)
    ensures error == Defect(track, revision, total, parent, restoredFrom, ps)
    ensures error.None? <==>
      && track > 0 && Valid(ps, total)
      && (parent.Some? ==> parent.value < revision) && (restoredFrom.Some? ==> restoredFrom.value < revision)
  {
    if track == 0 { return Some(InvalidTrackId); }
    if total == 0 { return Some(EmptyDuration); }
    if ps == [] { return Some(EmptyPhrases); }
    if (parent.Some? && parent.value >= revision) || (restoredFrom.Some? && restoredFrom.value >= revision) {
      return Some(InvalidRevisionHistory);
    }
    var previousEnd := 0;
    for i := 0 to |ps|
      invariant forall k :: 0 <= k < i ==> Linked(ps, k, 0)
      invariant forall k :: 0 <= k < i ==> ps[k].index == k
      invariant forall k :: 0 <= k < i ==> WellOrdered(ps[k].strategy)
      invariant previousEnd == EndBefore(ps, i, 0)
      invariant previousEnd <= total && FirstDefect(ps, i, total).None?
    {
      var p := ps[i];
      if PhraseDefect(ps, i, total).Some? { DefectStays(ps, i + 1, |ps|, total); }
      if p.index != i { return Some(UnorderedPhraseIndex); }
      assert Chained(ps, 0) ==> Linked(ps, i, 0);
      if p.start != previousEnd || p.end <= p.start { return Some(InvalidPhraseCoverage); }
      if p.end > total {
        if Covers(ps, 0, total) { ChainedIsOrdered(ps, 0, i, |ps| - 1); }
        return Some(InvalidPhraseCoverage);
      }
      var ordered := ValidOverrides(p.strategy);
      if !ordered { return Some(InvalidLoopStrategy); }
      previousEnd := p.end;
    }
    if previousEnd != total { return Some(InvalidPhraseCoverage); }
    error := None;
  }

  // ----- What a timeline says about each beat ------------------------------------------

  datatype Meaning = Meaning(role: nat, strategy: Strategy)

  predicate Holds(p: Phrase, beat: nat) { p.start <= beat < p.end }

  function Means(p: Phrase): Meaning { Meaning(p.role, p.strategy) }

  function Lookup(ps: seq<Phrase>, beat: nat): Option<Meaning> {
    if ps == [] then None
    else if Holds(ps[|ps| - 1], beat) then Some(Means(ps[|ps| - 1]))
    else Lookup(ps[..|ps| - 1], beat)
  }

  lemma LookupPush(ps: seq<Phrase>, p: Phrase, beat: nat)
    ensures Lookup(ps + [p], beat) == if Holds(p, beat) then Some(Means(p)) else Lookup(ps, beat)
  {
    assert (ps + [p])[..|ps|] == ps;
  }

  lemma {:induction false} LookupJoin(a: seq<Phrase>, b: seq<Phrase>, beat: nat)
    ensures Lookup(a + b, beat) == if Lookup(b, beat).Some? then Lookup(b, beat) else Lookup(a, beat)
  {
    if b == [] {
      assert a + b == a;
    } else {
      var n := |b| - 1;
      LookupJoin(a, b[..n], beat);
      assert (a + b)[..|a + b| - 1] == a + b[..n];
    }
  }

  lemma ChainedPrefix(ps: seq<Phrase>, from: nat, n: nat)
    requires Chained(ps, from) && n <= |ps|
    ensures Chained(ps[..n], from)
  {
    forall i | 0 <= i < n ensures Linked(ps[..n], i, from) { assert Linked(ps, i, from); }
  }

  /** A chain says something about exactly the beats it covers. */
  lemma {:induction false} LookupCovers(ps: seq<Phrase>, from: nat, beat: nat)
    requires Chained(ps, from)
    ensures from <= EndBefore(ps, |ps|, from)
    ensures Lookup(ps, beat).Some? <==> from <= beat < EndBefore(ps, |ps|, from)
  {
    if ps != [] {
      var n := |ps| - 1;
      ChainedPrefix(ps, from, n);
      LookupCovers(ps[..n], from, beat);
      assert Linked(ps, n, from);
    }
  }

  lemma {:induction false} Join(a: seq<Phrase>, b: seq<Phrase>, from: nat, mid: nat, to: nat)
    requires Covers(a, from, mid) && Covers(b, mid, to)
    ensures Covers(a + b, from, to)
  {
    forall i | 0 <= i < |a + b| ensures Linked(a + b, i, from) {
      if i < |a| { assert Linked(a, i, from); } else { assert Linked(b, i - |a|, mid); }
    }
  }

  lemma Suffix(ps: seq<Phrase>, from: nat, to: nat, n: nat)
    requires Covers(ps, from, to) && n <= |ps|
    ensures Covers(ps[..n], from, EndBefore(ps, n, from)) && Covers(ps[n..], EndBefore(ps, n, from), to)
  {
    ChainedPrefix(ps, from, n);
    forall i | 0 <= i < |ps| - n ensures Linked(ps[n..], i, EndBefore(ps, n, from)) { assert Linked(ps, n + i, from); }
  }

  lemma SpliceCovers(ps: seq<Phrase>, total: nat, i: nat, j: nat, qs: seq<Phrase>)
    requires Covers(ps, 0, total) && i <= j <= |ps| && Covers(qs, EndBefore(ps, i, 0), EndBefore(ps, j, 0))
    ensures Covers(ps[..i] + qs + ps[j..], 0, total)
  {
    var x, y := EndBefore(ps, i, 0), EndBefore(ps, j, 0);
    Suffix(ps, 0, total, j);
    Suffix(ps, 0, total, i);
    hide Chained;
    Join(ps[..i], qs, 0, x, y);
    Join(ps[..i] + qs, ps[j..], 0, y, total);
  }

  lemma SpliceMeans(ps: seq<Phrase>, total: nat, i: nat, j: nat, qs: seq<Phrase>, beat: nat)
    requires Covers(ps, 0, total) && i <= j <= |ps| && Covers(qs, EndBefore(ps, i, 0), EndBefore(ps, j, 0))
    ensures Lookup(ps[..i] + qs + ps[j..], beat)
      == if EndBefore(ps, i, 0) <= beat < EndBefore(ps, j, 0) then Lookup(qs, beat) else Lookup(ps, beat)
  {
    var a, b, c := ps[..i], ps[i..j], ps[j..];
    var x, y := EndBefore(ps, i, 0), EndBefore(ps, j, 0);
    Suffix(ps, 0, total, j);
    Suffix(ps[..j], 0, y, i);
    assert ps[..j][..i] == a && ps[..j][i..] == b && ps == a + b + c;
    hide Chained, Lookup;
    LookupJoin(a + qs, c, beat);
    LookupJoin(a, qs, beat);
    LookupJoin(a + b, c, beat);
    LookupJoin(a, b, beat);
    LookupCovers(a, 0, beat);
    LookupCovers(b, x, beat);
    LookupCovers(qs, x, beat);
    LookupCovers(c, y, beat);
  }

  /** The new phrases give the beats from `lo` to `hi` the meaning of `piece` and leave all others alone. */
  ghost predicate Rewrites(ps: seq<Phrase>, edited: seq<Phrase>, lo: nat, hi: nat, piece: seq<Phrase>) {
    forall beat: nat :: Lookup(edited, beat) == if lo <= beat < hi then Lookup(piece, beat) else Lookup(ps, beat)
  }

  /** Replacing some neighbouring phrases by others that cover the same beats keeps the partition and changes the
      meaning of those beats only. */
  lemma Splice(ps: seq<Phrase>, total: nat, i: nat, j: nat, qs: seq<Phrase>)
    requires Covers(ps, 0, total) && i <= j <= |ps| && Covers(qs, EndBefore(ps, i, 0), EndBefore(ps, j, 0))
    ensures Covers(ps[..i] + qs + ps[j..], 0, total)
    ensures Rewrites(ps, ps[..i] + qs + ps[j..], EndBefore(ps, i, 0), EndBefore(ps, j, 0), qs)
  {
    SpliceCovers(ps, total, i, j, qs);
    hide Covers, Lookup;
    forall beat: nat
      ensures Lookup(ps[..i] + qs + ps[j..], beat)
        == if EndBefore(ps, i, 0) <= beat < EndBefore(ps, j, 0) then Lookup(qs, beat) else Lookup(ps, beat)
    {
      SpliceMeans(ps, total, i, j, qs, beat);
    }
  }

  // ----- Where the phrases begin -------------------------------------------------------

  /** The beats at which a phrase begins: with the end of the track these are all boundaries. */
  function Starts(ps: seq<Phrase>): set<nat> {
    if ps == [] then {} else Starts(ps[..|ps| - 1]) + {ps[|ps| - 1].start}
  }

  lemma StartsPush(ps: seq<Phrase>, p: Phrase)
    ensures Starts(ps + [p]) == Starts(ps) + {p.start}
  {
    assert (ps + [p])[..|ps|] == ps;
  }

  lemma {:induction false} StartsJoin(a: seq<Phrase>, b: seq<Phrase>)
    ensures Starts(a + b) == Starts(a) + Starts(b)
  {
    if b == [] {
      assert a + b == a;
    } else {
      StartsJoin(a, b[..|b| - 1]);
      assert (a + b)[..|a + b| - 1] == a + b[..|b| - 1];
    }
  }

  /** A chain begins phrases only within the beats it covers, and no two at the same beat. */
  lemma {:induction false} StartsWithin(ps: seq<Phrase>, from: nat)
    requires Chained(ps, from)
    ensures from <= EndBefore(ps, |ps|, from) && |Starts(ps)| == |ps|
    ensures forall s :: s in Starts(ps) ==> from <= s < EndBefore(ps, |ps|, from)
  {
    if ps != [] {
      var n := |ps| - 1;
      ChainedPrefix(ps, from, n);
      StartsWithin(ps[..n], from);
      assert Linked(ps, n, from);
    }
  }

  lemma {:induction false} StartsExactly(ps: seq<Phrase>, s: nat)
    ensures s in Starts(ps) <==> exists i :: 0 <= i < |ps| && ps[i].start == s
  {
    if ps != [] { StartsExactly(ps[..|ps| - 1], s); }
  }

  lemma SetSplice(a: set<nat>, b: set<nat>, c: set<nat>, q: set<nat>)
    requires a !! b && b !! c
    ensures a + q + c == a + b + c - b + q
  {
  }

  /** A splice replaces the beginnings of the phrases it takes out by those it puts in. */
  lemma SpliceStarts(ps: seq<Phrase>, total: nat, i: nat, j: nat, qs: seq<Phrase>)
    requires Covers(ps, 0, total) && i <= j <= |ps|
    ensures Starts(ps[..i] + qs + ps[j..]) == Starts(ps) - Starts(ps[i..j]) + Starts(qs)
  {
    var a, b, c := ps[..i], ps[i..j], ps[j..];
    Suffix(ps, 0, total, j);
    Suffix(ps[..j], 0, EndBefore(ps, j, 0), i);
    assert ps[..j][..i] == a && ps[..j][i..] == b && ps == a + b + c;
    StartsWithin(a, 0);
    StartsWithin(b, EndBefore(ps, i, 0));
    StartsWithin(c, EndBefore(ps, j, 0));
    StartsJoin(a + b, c);
    StartsJoin(a, b);
    StartsJoin(a + qs, c);
    StartsJoin(a, qs);
    hide Starts, Chained;
    SetSplice(Starts(a), Starts(b), Starts(c), Starts(qs));
  }

  /** Two partitions of a track with the same beginnings and the same meaning of every beat are the same phrases. */
  lemma {:induction false} SamePhrases(a: seq<Phrase>, b: seq<Phrase>, total: nat)
    requires Covers(a, 0, total) && Covers(b, 0, total) && Starts(a) == Starts(b)
    requires forall beat: nat :: beat < total ==> Lookup(a, beat) == Lookup(b, beat)
    ensures |a| == |b| && forall i :: 0 <= i < |a| ==> a[i].(index := 0) == b[i].(index := 0)
    decreases |a|
  {
    StartsWithin(a, 0);
    StartsWithin(b, 0);
    if a != [] {
      var m, n := |a| - 1, |b| - 1;
      LastStart(a, total);
      LastStart(b, total);
      assert a[m].start == b[n].start;
      assert Lookup(a, a[m].start) == Some(Means(a[m])) && Lookup(b, b[n].start) == Some(Means(b[n]));
      Suffix(a, 0, total, m);
      Suffix(b, 0, total, n);
      LastLinked(a, total);
      LastLinked(b, total);
      forall beat: nat | beat < a[m].start ensures Lookup(a[..m], beat) == Lookup(b[..n], beat) {
        assert Lookup(a, beat) == Lookup(b, beat);
      }
      hide Lookup, Chained;
      SamePhrases(a[..m], b[..n], a[m].start);
    }
  }

  lemma LastLinked(ps: seq<Phrase>, total: nat)
    requires Covers(ps, 0, total) && ps != []
    ensures var n := |ps| - 1; ps[n].start == EndBefore(ps, n, 0) && ps[n].start < ps[n].end == total
  {
    assert Linked(ps, |ps| - 1, 0);
  }

  /** The last phrase has the greatest beginning, and without it that beginning is gone. */
  lemma LastStart(ps: seq<Phrase>, total: nat)
    requires Covers(ps, 0, total) && ps != []
    ensures var n := |ps| - 1;
      && ps[n].start in Starts(ps) && (forall s :: s in Starts(ps) ==> s <= ps[n].start)
      && Starts(ps[..n]) == Starts(ps) - {ps[n].start}
  {
    var n := |ps| - 1;
    ChainedPrefix(ps, 0, n);
    StartsWithin(ps[..n], 0);
    assert Linked(ps, n, 0);
  }
}
