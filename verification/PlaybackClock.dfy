/** Beat positions and the MIDI clock ticks within a beat. */
module PlaybackClock {
  import opened Domain
  import opened Grid

  /** How many leading markers lie at or before a position. */
  function Passed(ms: seq<Marker>, position: nat): (r: nat)
    ensures r <= |ms|
    ensures forall i :: 0 <= i < r ==> ms[i].timeMillis <= position
    ensures r < |ms| ==> ms[r].timeMillis > position
  {
    if ms == [] || ms[0].timeMillis > position then 0 else 1 + Passed(ms[1..], position)
  }

  function BeatAtMillis(ms: seq<Marker>, position: nat): nat {
    if Passed(ms, position) == 0 then 0 else Passed(ms, position) - 1
  }

  function MillisAtBeat(ms: seq<Marker>, beat: nat): Option<nat> {
    if beat < |ms| then Some(ms[beat].timeMillis) else None
  }

  lemma PassedIs(ms: seq<Marker>, position: nat, n: nat)
    requires Rising(ms) && n <= |ms|
    requires n > 0 ==> ms[n - 1].timeMillis <= position
    requires n < |ms| ==> position < ms[n].timeMillis
    ensures Passed(ms, position) == n
  {
    hide Passed;
  }

  /** Looking up the beat at a beat's own time gives that beat, and every position within a beat gives the beat. */
  lemma BeatInvertsMillis(ms: seq<Marker>, beat: nat, position: nat)
    requires Rising(ms) && beat < |ms|
    ensures BeatAtMillis(ms, MillisAtBeat(ms, beat).value) == beat
    ensures ms[0].timeMillis <= position ==>
      (BeatAtMillis(ms, position) == beat <==>
        ms[beat].timeMillis <= position && (beat + 1 < |ms| ==> position < ms[beat + 1].timeMillis))
  {
    PassedIs(ms, ms[beat].timeMillis, beat + 1);
    if ms[beat].timeMillis <= position && (beat + 1 < |ms| ==> position < ms[beat + 1].timeMillis) {
      PassedIs(ms, position, beat + 1);
    }
    if ms[0].timeMillis <= position { assert Passed(ms, position) > 0; }
  }

  // ----- The anchor --------------------------------------------------------------------

  datatype Anchor = Anchor(bpmMilli: nat, beatIndex: nat, songPosition: nat, delayNanos: nat)

  const TICKS: nat := 24
  const MILLION: nat := 1_000_000

  function Minus(a: nat, b: nat): nat { if a < b then 0 else a - b }

  function Least(a: nat, b: nat): nat { if a < b then a else b }

  /** The beats around `current` over which the tempo is measured: up to eight on either side. */
  function WindowFrom(current: nat): nat { Minus(current, 8) }

  function WindowTo(ms: seq<Marker>, current: nat): nat
    requires ms != []
  {
    Least(current + 8, |ms| - 1)
  }

  /** The measured tempo, if the window has a length and the tempo is one the engine accepts. */
  function Measured(ms: seq<Marker>, current: nat): (r: Option<nat>)
    requires current < |ms|
    ensures r.Some? ==> 20_000 <= r.value <= 300_000
  {
    var from, to := WindowFrom(current), WindowTo(ms, current);
    if to <= from then None
    else
      var elapsed := Minus(ms[to].timeMillis, ms[from].timeMillis);
      if elapsed == 0 then None
      else
        var bpm := (to - from) * 60_000_000 / elapsed;
        if 20_000 <= bpm <= 300_000 then Some(bpm) else None
  }

  function Tempo(ms: seq<Marker>, current: nat, fallback: nat): nat
    requires current < |ms|
  {
    if Measured(ms, current).Some? then Measured(ms, current).value else fallback
  }

  /** The measured tempo is the number of beats in the window over the time they take, rounded down. */
  lemma MeasuredOverTheWindow(ms: seq<Marker>, current: nat)
    requires Rising(ms) && current < |ms| && Measured(ms, current).Some?
    ensures var from, to, bpm := WindowFrom(current), WindowTo(ms, current), Measured(ms, current).value;
      && from <= current <= to < |ms| && from < to && current - from <= 8 && to - current <= 8
      && (from == 0 || current - from == 8) && (to == |ms| - 1 || to - current == 8)
      && var elapsed := ms[to].timeMillis - ms[from].timeMillis;
      0 < elapsed && bpm * elapsed <= (to - from) * 60_000_000 < (bpm + 1) * elapsed
  {
    var from, to := WindowFrom(current), WindowTo(ms, current);
    Quotient((to - from) * 60_000_000, ms[to].timeMillis - ms[from].timeMillis);
  }

  /** Where the next tick lies, in microseconds after the beat. */
  function NextTickOffset(beatMicros: nat, elapsedMicros: nat): nat
  {
    var ticks := elapsedMicros * TICKS / (if beatMicros < 1 then 1 else beatMicros);
    (ticks + 1) * beatMicros / TICKS
  }

  /** The delay within a beat, in microseconds. */
  function TickDelay(beatMicros: nat, elapsedMicros: nat): nat {
    Minus(NextTickOffset(beatMicros, elapsedMicros), elapsedMicros)
  }

  /** No anchor, the division by zero of a tempo of zero after the last marker, or the anchor. */
  datatype Anchoring = NoAnchor | DividesByZero | Anchored(anchor: Anchor)

  function ClockAnchor(ms: seq<Marker>, position: nat, fallback: nat): Anchoring {
    if ms == [] then NoAnchor
    else
      var current := BeatAtMillis(ms, position);
      if ms[current].beatIndex * 4 >= 0x1_0000 then NoAnchor
      else
        var bpm := Tempo(ms, current, fallback);
        var found := (delay: nat) => Anchored(Anchor(bpm, ms[current].beatIndex, ms[current].beatIndex * 4, delay));
        if position < ms[0].timeMillis then found((ms[0].timeMillis - position) * MILLION)
        else if position == ms[current].timeMillis then found(0)
        else if current + 1 < |ms| then
          var beatMicros := Minus(ms[current + 1].timeMillis, ms[current].timeMillis) * 1_000;
          var elapsed := Least(Minus(position, ms[current].timeMillis) * 1_000, beatMicros);
          found(TickDelay(beatMicros, elapsed) * 1_000)
        else if bpm == 0 then DividesByZero
        else found(60_000_000_000_000 / (bpm * TICKS))
  }

  lemma Quotient(a: nat, d: nat)
    requires d > 0
    ensures a / d * d <= a < a / d * d + d
  {
  }

  lemma Cancel(t: nat, n: nat, b: nat)
    requires t * b < n * b
    ensures t < n
  {
    var d: int := n - t;
    assert d * b == n * b - t * b;
  }

  /** The tick a position inside a beat lies in. */
  lemma TickWindow(b: nat, e: nat)
    requires e < b
    ensures var t := e * TICKS / b; t < TICKS && t * b <= e * TICKS < t * b + b
  {
    var t := e * TICKS / b;
    Quotient(e * TICKS, b);
    Cancel(t, TICKS, b);
  }

  /** The start of the next tick, `next` twenty-fourths of a microsecond into the beat. */
  lemma NextTick(b: nat, e: nat, next: nat)
    requires e * TICKS < next <= e * TICKS + b
    ensures e <= next / TICKS <= e + b / TICKS
    ensures e < b <= TWO_32 * 1_000 ==> e * TICKS <= U64_MAX && next <= U64_MAX
  {
  }

  lemma OffsetIs(b: nat, e: nat, k: nat)
    requires e < b && k == e * TICKS / b + 1
    ensures NextTickOffset(b, e) == k * b / TICKS
  {
  }

  /** Strictly inside a beat the subtraction never falls below zero, the delay is at most a twenty-fourth of the
      beat, and it leads to the first tick that lies after the position;
      with 32-bit times no 64-bit product overflows. */
  lemma TickBound(beatMicros: nat, elapsedMicros: nat)
    requires elapsedMicros < beatMicros
    ensures elapsedMicros <= NextTickOffset(beatMicros, elapsedMicros)
    ensures TickDelay(beatMicros, elapsedMicros) <= beatMicros / TICKS
    ensures var k := elapsedMicros * TICKS / beatMicros + 1;
      && 1 <= k <= TICKS && (k - 1) * beatMicros <= elapsedMicros * TICKS < k * beatMicros
      && elapsedMicros + TickDelay(beatMicros, elapsedMicros) == k * beatMicros / TICKS
      && (beatMicros <= TWO_32 * 1_000 ==> elapsedMicros * TICKS <= U64_MAX && k * beatMicros <= U64_MAX)
  {
    hide NextTickOffset;
    var b, e := beatMicros, elapsedMicros;
    var t := e * TICKS / b;
    var k := t + 1;
    TickWindow(b, e);
    OffsetIs(b, e, k);
    var next := k * b;
    assert next == t * b + b;
    NextTick(b, e, next);
  }

  /** There is no anchor exactly for an empty grid or a beat whose song position exceeds 16 bits, and the computation
      divides by zero exactly after the last marker, with a fallback of zero and a tempo that cannot be measured. */
  lemma AnchorExists(ms: seq<Marker>, position: nat, fallback: nat)
    requires Rising(ms)
    ensures ClockAnchor(ms, position, fallback).NoAnchor? <==>
      ms == [] || ms[BeatAtMillis(ms, position)].beatIndex >= 0x4000
    ensures ClockAnchor(ms, position, fallback).DividesByZero? <==>
      && ms != [] && ms[|ms| - 1].timeMillis < position && ms[|ms| - 1].beatIndex < 0x4000
      && fallback == 0 && Measured(ms, |ms| - 1).None?
  {
    if ms != [] && ms[|ms| - 1].timeMillis < position { PassedIs(ms, position, |ms|); }
  }

  lemma LastTick(bpm: nat)
    requires bpm > 0
    ensures var d := 60_000_000_000_000 / (bpm * TICKS);
      d * (bpm * TICKS) <= 60_000_000_000_000 < (d + 1) * (bpm * TICKS)
  {
    Quotient(60_000_000_000_000, bpm * TICKS);
  }

  /** The anchor at any position of a valid grid, case by case: before the first marker the delay leads to it, on a
      marker it is zero, within a beat it leads to the next tick, and after the last marker it is one tick at the
      tempo. */
  lemma AnchorIsExact(ms: seq<Marker>, position: nat, fallback: nat)
    requires ValidGrid(4, ms) && ClockAnchor(ms, position, fallback).Anchored?
    ensures var r := ClockAnchor(ms, position, fallback).anchor; var i := BeatAtMillis(ms, position);
      && r.beatIndex == i && r.songPosition == 4 * i < 0x1_0000 && r.bpmMilli == Tempo(ms, i, fallback)
      && (position < ms[0].timeMillis ==> i == 0 && r.delayNanos == (ms[0].timeMillis - position) * MILLION)
      && (position == ms[i].timeMillis ==> r.delayNanos == 0)
      && (ms[i].timeMillis < position && i + 1 < |ms| ==>
            var b, e := (ms[i + 1].timeMillis - ms[i].timeMillis) * 1_000, (position - ms[i].timeMillis) * 1_000;
            e < b && r.delayNanos == TickDelay(b, e) * 1_000 && r.delayNanos <= b / TICKS * 1_000)
      && (ms[|ms| - 1].timeMillis < position ==>
            r.delayNanos * (r.bpmMilli * TICKS) <= 60_000_000_000_000 < (r.delayNanos + 1) * (r.bpmMilli * TICKS))
  {
    hide Measured;
    var i := BeatAtMillis(ms, position);
    assert Placed(ms, i, 4);
    if ms[i].timeMillis < position && i + 1 < |ms| {
      assert position < ms[i + 1].timeMillis;
      TickBound((ms[i + 1].timeMillis - ms[i].timeMillis) * 1_000, (position - ms[i].timeMillis) * 1_000);
    }
    if ms[|ms| - 1].timeMillis < position {
      PassedIs(ms, position, |ms|);
      LastTick(Tempo(ms, i, fallback));
    }
    hide TickDelay;
  }

  /** A bar of one-millisecond beats has no acceptable tempo. */
  const FastBar := [Marker(0, 0, 1, 1), Marker(1, 1, 1, 2), Marker(2, 2, 1, 3), Marker(3, 3, 1, 4)]

  lemma FallbackOfZeroFails()
    ensures ValidGrid(4, FastBar) && ClockAnchor(FastBar, 10, 0).DividesByZero?
  {
    assert Rising(FastBar);
    PassedIs(FastBar, 10, 4);
    assert Measured(FastBar, 3).None?;
  }
}
