/** Ranges of beats that follow each other. */
module Spans {
  datatype Span = Span(start: nat, end: nat)

  /** The `i`th range is not empty and starts where the one before it ends. */
  predicate Linked(ss: seq<Span>, i: nat)
    requires i < |ss|
  {
    ss[i].start == (if i == 0 then 0 else ss[i - 1].end) && ss[i].start < ss[i].end
  }

  /** The ranges cover `[0, total)` exactly once, in order. */
  predicate Tiles(ss: seq<Span>, total: nat) {
    ss != [] && ss[|ss| - 1].end == total && forall i :: 0 <= i < |ss| ==> Linked(ss, i)
  }

  lemma {:induction false} Ordered(ss: seq<Span>, total: nat, i: nat, j: nat)
    requires Tiles(ss, total) && i < j < |ss|
    ensures ss[i].end <= ss[j].start < ss[j].end <= total
    decreases j
  {
    assert Linked(ss, j) && Linked(ss, j - 1);
    if i + 1 < j { Ordered(ss, total, i, j - 1); }
    Bounded(ss, total, j);
  }

  lemma {:induction false} Bounded(ss: seq<Span>, total: nat, i: nat)
    requires Tiles(ss, total) && i < |ss|
    ensures ss[i].end <= total
    decreases |ss| - i
  {
    if i + 1 < |ss| {
      Bounded(ss, total, i + 1);
      assert Linked(ss, i + 1);
    }
  }

  /** Every beat lies in one of the ranges. */
  lemma {:induction false} Tile(ss: seq<Span>, total: nat, n: nat, beat: nat) returns (i: nat)
    requires Tiles(ss, total) && 0 < n <= |ss| && beat < ss[n - 1].end
    ensures i < n && ss[i].start <= beat < ss[i].end
  {
    assert Linked(ss, n - 1);
    if beat < ss[n - 1].start { i := Tile(ss, total, n - 1, beat); } else { i := n - 1; }
  }
}
