/** Canonical beat grids and phrases of an imported track. */
module Grid {
  import opened Domain

  datatype SourceBeat = SourceBeat(number: nat, timeMillis: nat)

  datatype Marker = Marker(beatIndex: nat, timeMillis: nat, barIndex: nat, beatInBar: nat)

  datatype GridError =
    | Empty | InvalidBeatsPerBar | IncompleteBar | TooManyMarkers | InvalidMarkerOrder | NonIncreasingTime

  datatype ImportError =
    | IncompleteBeatGrid
    | InconsistentBeatGrid(sourceIndex: nat, expected: nat, actual: nat)
    | InvalidBeatGrid(error: GridError)
    | IncompletePhrases
    | EmptyLabel
    | ImportOverflow

  // ----- Grids -------------------------------------------------------------------------

  predicate Placed(ms: seq<Marker>, i: nat, beatsPerBar: nat)
    requires i < |ms| && beatsPerBar > 0
  {
    ms[i].beatIndex == i && ms[i].barIndex == i / beatsPerBar + 1 && ms[i].beatInBar == i % beatsPerBar + 1
  }

  predicate Rising(ms: seq<Marker>) { forall i, j :: 0 <= i < j < |ms| ==> ms[i].timeMillis < ms[j].timeMillis }

  predicate ValidGrid(beatsPerBar: nat, ms: seq<Marker>) {
    && 1 <= beatsPerBar <= 16 && ms != [] && |ms| <= TWO_32 && |ms| % beatsPerBar == 0
    && (forall i :: 0 <= i < |ms| ==> Placed(ms, i, beatsPerBar)) && Rising(ms)
  }

  /** What is wrong with marker `i` when those before it are in order. */
  function MarkerDefect(ms: seq<Marker>, i: nat, beatsPerBar: nat): Option<GridError>
    requires i < |ms| && beatsPerBar > 0
  {
    if i >= TWO_32 then Some(TooManyMarkers)
    else if !Placed(ms, i, beatsPerBar) then Some(InvalidMarkerOrder)
    else if i > 0 && ms[i].timeMillis <= ms[i - 1].timeMillis then Some(NonIncreasingTime)
    else None
  }

  /** The defect of the first marker that has one. */
  function FirstMarkerDefect(ms: seq<Marker>, n: nat, beatsPerBar: nat): Option<GridError>
    requires n <= |ms| && beatsPerBar > 0
  {
    if n == 0 then None
    else
      var before := FirstMarkerDefect(ms, n - 1, beatsPerBar);
      if before.Some? then before else MarkerDefect(ms, n - 1, beatsPerBar)
  }

  lemma {:induction false} DefectStays(ms: seq<Marker>, m: nat, n: nat, beatsPerBar: nat)
    requires m <= n <= |ms| && beatsPerBar > 0 && FirstMarkerDefect(ms, m, beatsPerBar).Some?
    ensures FirstMarkerDefect(ms, n, beatsPerBar) == FirstMarkerDefect(ms, m, beatsPerBar)
  {
    if m < n { DefectStays(ms, m, n - 1, beatsPerBar); }
  }

  /** A grid is accepted exactly when it consists of whole, correctly numbered bars at strictly rising times; otherwise
      the first defect is reported. */
  method ValidateGrid(beatsPerBar: nat, ms: seq<Marker>) returns (error: Option<GridError>)
    ensures error.None? <==> ValidGrid(beatsPerBar, ms)
    ensures error == if !(1 <= beatsPerBar <= 16) then Some(InvalidBeatsPerBar)
                     else if ms == [] then Some(Empty)
                     else if |ms| % beatsPerBar != 0 then Some(IncompleteBar)
                     else FirstMarkerDefect(ms, |ms|, beatsPerBar)
  {
    if !(1 <= beatsPerBar <= 16) { return Some(InvalidBeatsPerBar); }
    if ms == [] { return Some(Empty); }
    if |ms| % beatsPerBar != 0 { return Some(IncompleteBar); }
    var previous: Option<nat> := None;
    for i := 0 to |ms|
      invariant i <= TWO_32
      invariant forall k :: 0 <= k < i ==> Placed(ms, k, beatsPerBar)
      invariant forall j, k :: 0 <= j < k < i ==> ms[j].timeMillis < ms[k].timeMillis
      invariant previous == if i == 0 then None else Some(ms[i - 1].timeMillis)
      invariant FirstMarkerDefect(ms, i, beatsPerBar).None?
    {
      if MarkerDefect(ms, i, beatsPerBar).Some? { DefectStays(ms, i + 1, |ms|, beatsPerBar); }
      if i >= TWO_32 { return Some(TooManyMarkers); }
      if !Placed(ms, i, beatsPerBar) { return Some(InvalidMarkerOrder); }
      if previous.Some? && ms[i].timeMillis <= previous.value { return Some(NonIncreasingTime); }
      previous := Some(ms[i].timeMillis);
    }
    error := None;
  }

  /** The first beat marked as a downbeat. */
  function FirstDownbeat(beats: seq<SourceBeat>): (r: Option<nat>)
    ensures r.Some? ==> r.value < |beats| && beats[r.value].number == 1
    ensures forall i :: 0 <= i < (if r.Some? then r.value else |beats|) ==> beats[i].number != 1
  {
    if beats == [] then None
    else if beats[0].number == 1 then Some(0)
    else
      var rest := FirstDownbeat(beats[1..]);
      if rest.None? then None else Some(rest.value + 1)
  }

  /** Whether beat `i` after the downbeat has the number its place in the bar calls for. */
  predicate InPlace(beats: seq<SourceBeat>, offset: nat, i: nat)
    requires offset + i < |beats|
  {
    beats[offset + i].number == i % 4 + 1
  }

  function FirstMismatch(beats: seq<SourceBeat>, offset: nat, n: nat): (r: Option<nat>)
    requires offset + n <= |beats|
    ensures r.Some? ==> r.value < n && !InPlace(beats, offset, r.value)
    ensures forall i :: 0 <= i < (if r.Some? then r.value else n) ==> InPlace(beats, offset, i)
  {
    if n == 0 then None
    else
      var before := FirstMismatch(beats, offset, n - 1);
      if before.Some? then before else if InPlace(beats, offset, n - 1) then None else Some(n - 1)
  }

  function Markers(beats: seq<SourceBeat>, offset: nat, n: nat): (r: seq<Marker>)
    requires offset + n <= |beats|
    ensures |r| == n
  {
    seq(n, i requires 0 <= i < n => Marker(i, beats[offset + i].timeMillis, i / 4 + 1, i % 4 + 1))
  }

  /** The number of beats in whole bars from `o` on. */
  function WholeBars(beats: seq<SourceBeat>, o: nat): (n: nat)
    requires o <= |beats|
    ensures n % 4 == 0 && o + n <= |beats| < o + n + 4
  {
    (|beats| - o) - (|beats| - o) % 4
  }

  datatype Canonical = Grid(markers: seq<Marker>, offset: nat) | NoGrid(error: ImportError)

  /** The whole bars from the first downbeat on. Beats are numbered in 32 bits. */
  function CanonicalGrid(beats: seq<SourceBeat>): Canonical {
    var offset := FirstDownbeat(beats);
    if offset.None? then NoGrid(IncompleteBeatGrid)
    else
      var o := offset.value;
      var n := WholeBars(beats, o);
      if n == 0 then NoGrid(IncompleteBeatGrid)
      else
        var bad := FirstMismatch(beats, o, if n < TWO_32 then n else TWO_32);
        if bad.Some? then NoGrid(InconsistentBeatGrid(o + bad.value, bad.value % 4 + 1, beats[o + bad.value].number))
        else if n > TWO_32 then NoGrid(ImportOverflow)
        else if !Rising(Markers(beats, o, n)) then NoGrid(InvalidBeatGrid(NonIncreasingTime))
        else if o >= TWO_32 then NoGrid(ImportOverflow)
        else Grid(Markers(beats, o, n), o)
  }

  predicate RisingFrom(beats: seq<SourceBeat>, o: nat, n: nat)
    requires o + n <= |beats|
  {
    forall i, j :: o <= i < j < o + n ==> beats[i].timeMillis < beats[j].timeMillis
  }

  /** A whole-bar run of correctly numbered, strictly rising beats. */
  predicate Run(beats: seq<SourceBeat>, o: nat, n: nat) {
    o + n <= |beats| && n % 4 == 0 && n > 0 && (forall i :: 0 <= i < n ==> InPlace(beats, o, i))
      && RisingFrom(beats, o, n)
  }

  lemma TimesAreKept(beats: seq<SourceBeat>, o: nat, n: nat)
    requires o + n <= |beats|
    ensures Rising(Markers(beats, o, n)) <==> RisingFrom(beats, o, n)
  {
    var ms := Markers(beats, o, n);
    assert forall i :: 0 <= i < n ==> ms[i].timeMillis == beats[o + i].timeMillis;
    if Rising(ms) {
      forall i, j | o <= i < j < o + n ensures beats[i].timeMillis < beats[j].timeMillis {
        assert ms[i - o].timeMillis < ms[j - o].timeMillis;
      }
    }
  }

  /** A grid comes out exactly when all whole bars after the first downbeat form a run and 32 bits can number both the
      bars and the beats skipped before them. */
  lemma CanonicalGridExists(beats: seq<SourceBeat>)
    ensures CanonicalGrid(beats).Grid? <==>
      && FirstDownbeat(beats).Some?
      && var o := FirstDownbeat(beats).value;
      Run(beats, o, WholeBars(beats, o)) && WholeBars(beats, o) <= TWO_32 && o < TWO_32
  {
    var offset := FirstDownbeat(beats);
    if offset.Some? {
      hide RisingFrom, Rising, InPlace, FirstDownbeat, WholeBars, FirstMismatch, Markers;
      var n := WholeBars(beats, offset.value);
      TimesAreKept(beats, offset.value, n);
      if Run(beats, offset.value, n) && n <= TWO_32 { assert FirstMismatch(beats, offset.value, n).None?; }
    }
  }

  lemma GridShape(beats: seq<SourceBeat>)
    requires CanonicalGrid(beats).Grid?
    ensures var g := CanonicalGrid(beats);
      && FirstDownbeat(beats) == Some(g.offset) && g.offset <= |beats| && |g.markers| <= TWO_32
      && |g.markers| == WholeBars(beats, g.offset) > 0 && g.markers == Markers(beats, g.offset, |g.markers|)
      && Rising(g.markers)
  {
    hide FirstDownbeat, WholeBars, FirstMismatch, Rising, InPlace;
  }

  lemma MarkersAreValid(beats: seq<SourceBeat>, o: nat, n: nat)
    requires o + n <= |beats| && 0 < n <= TWO_32 && n % 4 == 0 && Rising(Markers(beats, o, n))
    ensures ValidGrid(4, Markers(beats, o, n))
    ensures forall i :: 0 <= i < n ==> Markers(beats, o, n)[i].timeMillis == beats[o + i].timeMillis
  {
    hide Rising;
  }

  /** The grid is that run, with every time unchanged, the longest whole-bar run starting there, and valid. */
  lemma CanonicalGridIsTheLongestRun(beats: seq<SourceBeat>)
    requires CanonicalGrid(beats).Grid?
    ensures var g := CanonicalGrid(beats);
      && ValidGrid(4, g.markers) && FirstDownbeat(beats) == Some(g.offset) && Run(beats, g.offset, |g.markers|)
      && (forall i :: 0 <= i < |g.markers| ==> g.markers[i].timeMillis == beats[g.offset + i].timeMillis)
      && (forall n: nat :: Run(beats, g.offset, n) ==> n <= |g.markers|)
  {
    hide RisingFrom, Rising, InPlace, FirstDownbeat, WholeBars, CanonicalGrid, Markers, ValidGrid;
    CanonicalGridExists(beats);
    GridShape(beats);
    var g := CanonicalGrid(beats);
    MarkersAreValid(beats, g.offset, |g.markers|);
    forall n: nat | Run(beats, g.offset, n) ensures n <= |g.markers| { assert n % 4 == 0; }
  }
}
