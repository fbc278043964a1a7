/** Phrases of the source projected onto the canonical grid. */
module SourcePhrases {
  import opened Domain
  import opened Grid
  import opened Spans

  /** Labels are opaque; label 0 stands for a blank text. */
  datatype SourcePhrase = SourcePhrase(startBeat: nat, name: nat)

  datatype RawPhrase = RawPhrase(start: nat, end: nat, name: nat)

  const BLANK: nat := 0

  function Projected(p: SourcePhrase, offset: nat): nat { if p.startBeat <= offset then 0 else p.startBeat - offset }

  // ----- What every beat should be called ----------------------------------------------

  /** The name of the first-listed phrase that starts at `beat`. */
  function StartsAt(ps: seq<SourcePhrase>, offset: nat, beat: nat): Option<nat> {
    if ps == [] then None
    else
      var n := |ps| - 1;
      var before := StartsAt(ps[..n], offset, beat);
      if before.Some? then before else if Projected(ps[n], offset) == beat then Some(ps[n].name) else None
  }

  /** The name of the first-listed phrase with the greatest start at or before `beat`. */
  function Latest(ps: seq<SourcePhrase>, offset: nat, beat: nat): Option<nat> {
    if StartsAt(ps, offset, beat).Some? then StartsAt(ps, offset, beat)
    else if beat == 0 then None
    else Latest(ps, offset, beat - 1)
  }

  /** The name of the first-listed phrase with the least start from `beat` on, within the track. */
  function Earliest(ps: seq<SourcePhrase>, offset: nat, beat: nat, total: nat): Option<nat>
    decreases total - beat
  {
    if beat >= total then None
    else if StartsAt(ps, offset, beat).Some? then StartsAt(ps, offset, beat)
    else Earliest(ps, offset, beat + 1, total)
  }

  function NameAt(ps: seq<SourcePhrase>, offset: nat, beat: nat, total: nat): Option<nat> {
    var l := Latest(ps, offset, beat);
    if l.Some? then l else Earliest(ps, offset, 0, total)
  }

  predicate Usable(ps: seq<SourcePhrase>, offset: nat, total: nat) {
    exists i :: 0 <= i < |ps| && Projected(ps[i], offset) < total
  }

  lemma {:induction false} StartsAtSome(ps: seq<SourcePhrase>, offset: nat, beat: nat)
    ensures StartsAt(ps, offset, beat).Some? <==> exists i :: 0 <= i < |ps| && Projected(ps[i], offset) == beat
  {
    if ps != [] {
      var n := |ps| - 1;
      StartsAtSome(ps[..n], offset, beat);
      if StartsAt(ps[..n], offset, beat).Some? {
        var i :| 0 <= i < n && Projected(ps[..n][i], offset) == beat;
        assert Projected(ps[i], offset) == beat;
      }
    }
  }

  // ----- The projection ----------------------------------------------------------------

  /** The record holds exactly the starts within the track, each with its first-listed name. */
  ghost predicate Recorded(names: map<nat, nat>, ps: seq<SourcePhrase>, offset: nat, total: nat) {
    forall b: nat ::
      if b < total && StartsAt(ps, offset, b).Some? then b in names && names[b] == StartsAt(ps, offset, b).value
      else b !in names
  }

  method Collect(ps: seq<SourcePhrase>, total: nat, offset: nat) returns (names: map<nat, nat>)
    ensures Recorded(names, ps, offset, total)
  {
    names := map[];
    for i := 0 to |ps|
      invariant Recorded(names, ps[..i], offset, total)
    {
      assert ps[..i + 1][..i] == ps[..i];
      var start := Projected(ps[i], offset);
      if start < total && start !in names { names := names[start := ps[i].name]; }
    }
    assert ps[..|ps|] == ps;
  }

  predicate Increasing(xs: seq<nat>) { forall i, j :: 0 <= i < j < |xs| ==> xs[i] < xs[j] }

  lemma NoneBetween(xs: seq<nat>, i: nat, x: nat)
    requires Increasing(xs) && i < |xs| && xs[i] < x && (i + 1 < |xs| ==> x < xs[i + 1])
    ensures x !in xs
  {
  }

  /** The keys of an ordered map, in order. */
  method Keys(names: map<nat, nat>, total: nat) returns (starts: seq<nat>)
    ensures Increasing(starts) && forall b: nat :: b in starts <==> b < total && b in names
  {
    starts := [];
    for b := 0 to total
      invariant Increasing(starts) && forall i :: 0 <= i < |starts| ==> starts[i] < b
      invariant forall k: nat :: k in starts <==> k < b && k in names
    {
      if b in names { starts := starts + [b]; }
    }
  }

  /** The record after the earliest name was also put at beat 0: every beat is named by the last start before it. */
  ghost predicate Completed(names: map<nat, nat>, ps: seq<SourcePhrase>, offset: nat, total: nat) {
    && 0 in names
    && (forall b: nat :: b in names && b < total ==> NameAt(ps, offset, b, total) == Some(names[b]))
    && (forall b: nat :: 0 < b < total && b !in names ==>
      NameAt(ps, offset, b, total) == NameAt(ps, offset, b - 1, total))
  }

  lemma {:induction false} EarliestIs(ps: seq<SourcePhrase>, offset: nat, total: nat, first: nat, b: nat)
    requires b <= first < total && StartsAt(ps, offset, first).Some?
    requires forall k: nat :: k < first ==> StartsAt(ps, offset, k).None?
    ensures Earliest(ps, offset, b, total) == StartsAt(ps, offset, first)
    decreases first - b
  {
    if b < first { EarliestIs(ps, offset, total, first, b + 1); }
  }

  lemma {:induction false} NothingBefore(ps: seq<SourcePhrase>, offset: nat, first: nat, b: nat)
    requires b < first && forall k: nat :: k < first ==> StartsAt(ps, offset, k).None?
    ensures Latest(ps, offset, b).None?
  {
    if b > 0 { NothingBefore(ps, offset, first, b - 1); }
  }

  lemma Completes(names: map<nat, nat>, ps: seq<SourcePhrase>, offset: nat, total: nat, first: nat)
    requires Recorded(names, ps, offset, total) && first < total && first in names
    requires forall k: nat :: k < first ==> k !in names
    ensures Completed(if 0 in names then names else names[0 := names[first]], ps, offset, total)
  {
    forall k: nat | k < first ensures StartsAt(ps, offset, k).None? { assert k !in names; }
    EarliestIs(ps, offset, total, first, 0);
    if first > 0 { NothingBefore(ps, offset, first, 0); }
  }

  function SpansOf(out: seq<RawPhrase>): (r: seq<Span>)
    ensures |r| == |out|
  {
    seq(|out|, i requires 0 <= i < |out| => Span(out[i].start, out[i].end))
  }

  /** The output ranges are not empty, follow each other and cover the track. */
  predicate Partition(out: seq<RawPhrase>, total: nat) { Tiles(SpansOf(out), total) }

  lemma {:induction false} NamedAlong(names: map<nat, nat>, ps: seq<SourcePhrase>, offset: nat, total: nat, start: nat,
                                      b: nat)
    requires Completed(names, ps, offset, total) && start <= b < total && start in names
    requires forall k: nat :: start < k <= b ==> k !in names
    ensures NameAt(ps, offset, b, total) == Some(names[start])
  {
    if start < b { NamedAlong(names, ps, offset, total, start, b - 1); }
  }

  ghost predicate Named(p: RawPhrase, ps: seq<SourcePhrase>, offset: nat, total: nat) {
    forall b: nat :: p.start <= b < p.end ==> NameAt(ps, offset, b, total) == Some(p.name)
  }

  datatype Outcome = Phrases(phrases: seq<RawPhrase>) | Failed(error: ImportError)

  ghost predicate BlankSomewhere(ps: seq<SourcePhrase>, offset: nat, total: nat) {
    exists b: nat :: b < total && NameAt(ps, offset, b, total) == Some(BLANK)
  }

  /** Turns the completed record into ranges, refusing a blank name. */
  method Ranges(names: map<nat, nat>, ghost ps: seq<SourcePhrase>, ghost offset: nat, total: nat) returns (r: Outcome)
    requires Completed(names, ps, offset, total) && total > 0
    ensures r.Failed? ==> r.error == EmptyLabel
    ensures r.Failed? <==> BlankSomewhere(ps, offset, total)
    ensures r.Phrases? ==> Partition(r.phrases, total)
    ensures r.Phrases? ==> forall i :: 0 <= i < |r.phrases| ==>
      Named(r.phrases[i], ps, offset, total) && r.phrases[i].name != BLANK
  {
    var starts := Keys(names, total);
    assert 0 in starts;
    assert starts[0] == 0;
    var out: seq<RawPhrase> := [];
    for i := 0 to |starts|
      invariant |out| == i
      invariant forall k :: 0 <= k < i ==> Linked(SpansOf(out), k)
      invariant forall k :: 0 <= k < i ==> Named(out[k], ps, offset, total) && out[k].name != BLANK
      invariant i > 0 ==> out[i - 1].end == if i < |starts| then starts[i] else total
    {
      var start: nat := starts[i];
      var end := if i + 1 < |starts| then starts[i + 1] else total;
      assert start in starts && start in names && (i + 1 < |starts| ==> starts[i + 1] in starts);
      if names[start] == BLANK { return Failed(EmptyLabel); }
      forall b: nat | start <= b < end ensures NameAt(ps, offset, b, total) == Some(names[start]) {
        forall k: nat | start < k <= b ensures k !in names { NoneBetween(starts, i, k); }
        NamedAlong(names, ps, offset, total, start, b);
      }
      var next := out + [RawPhrase(start, end, names[start])];
      forall k | 0 <= k <= i ensures Linked(SpansOf(next), k) { if k < i { assert Linked(SpansOf(out), k); } }
      out := next;
    }
    if BlankSomewhere(ps, offset, total) {
      ghost var b: nat :| b < total && NameAt(ps, offset, b, total) == Some(BLANK);
      ghost var i := Tile(SpansOf(out), total, |out|, b);
    }
    r := Phrases(out);
  }

  /** For phrases of which at least one starts within the track, the result partitions the track into nonempty
      ranges, and every beat is named by the first-listed phrase with the greatest start at or before it, or by
      the earliest one when there is none; it fails exactly when such a name is blank. */
  method CanonicalPhrases(ps: seq<SourcePhrase>, total: nat, offset: nat) returns (r: Outcome)
    ensures ps == [] ==> r == Phrases([])
    ensures ps != [] && !Usable(ps, offset, total) ==> r == Failed(IncompletePhrases)
    ensures Usable(ps, offset, total) && r.Failed? ==> r.error == EmptyLabel
    ensures Usable(ps, offset, total) ==> (r.Failed? <==> BlankSomewhere(ps, offset, total))
    ensures Usable(ps, offset, total) && r.Phrases? ==> Partition(r.phrases, total)
    ensures Usable(ps, offset, total) && r.Phrases? ==>
      forall i :: 0 <= i < |r.phrases| ==> Named(r.phrases[i], ps, offset, total) && r.phrases[i].name != BLANK
  {
    if ps == [] { return Phrases([]); }
    var names := Collect(ps, total, offset);
    var starts := Keys(names, total);
    UsableExactly(names, ps, offset, total);
    if starts == [] { return Failed(IncompletePhrases); }
    var first := starts[0];
    assert first in starts;
    forall k: nat | k < first ensures k !in names { assert k !in starts; }
    Completes(names, ps, offset, total, first);
    if 0 !in names { names := names[0 := names[first]]; }
    r := Ranges(names, ps, offset, total);
  }

  lemma UsableExactly(names: map<nat, nat>, ps: seq<SourcePhrase>, offset: nat, total: nat)
    requires Recorded(names, ps, offset, total)
    ensures Usable(ps, offset, total) <==> exists b: nat :: b < total && b in names
  {
    if Usable(ps, offset, total) {
      var i :| 0 <= i < |ps| && Projected(ps[i], offset) < total;
      StartsAtSome(ps, offset, Projected(ps[i], offset));
      assert Projected(ps[i], offset) in names;
    }
    if b: nat :| b < total && b in names {
      StartsAtSome(ps, offset, b);
    }
  }
}
