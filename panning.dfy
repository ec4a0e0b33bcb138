/** The pan-pattern switch shared by the live panner (audio-processor.js:182-198)
    and the offline export (audio-processor.js:332-348), the phase update of
    the live panner, and the two ways an entry of the random pan table is
    picked. A pan value of `None` stands for NaN: the JavaScript product of
    `undefined` (a table read out of range) and the pan amount. */
module Panning {
  import opened JsNumber
  import opened Audio

  /** A JavaScript number as the panner receives it: a finite value, or NaN. */
  datatype Number = Finite(value: real) | NaN

  /** `phase => Math.sin(phase * Math.PI * 2)`. The transcendental is not
      modelled; every member that needs it takes it as a parameter. */
  type Sine = real -> real

  ghost predicate UnitBounded(sine: Sine)
  {
    forall x :: -1.0 <= sine(x) <= 1.0
  }

  /** The live panner's tick period in milliseconds (audio-processor.js:175). */
  const UpdateInterval: real := 50.0

  /** Number of entries the live panner draws for the random pattern
      (audio-processor.js:169). */
  const RandomTableSize: nat := 100

  /** `(Math.abs(((phase * 4) % 4) - 2) - 1)` */
  function Triangle(phase: real): (t: real)
    ensures phase >= 0.0 ==> -1.0 <= t <= 1.0
  {
    Abs(Rem(phase * 4.0, 4.0) - 2.0) - 1.0
  }

  /** `(Math.floor(phase * 2) % 2 === 0 ? 1 : -1)` */
  function Square(phase: real): (s: real)
    ensures s == 1.0 || s == -1.0
  {
    if IntRem(Floor(phase * 2.0), 2) == 0 then 1.0 else -1.0
  }

  /** The unit-amplitude shape the switch selects by pattern name; `entry`
      is the table entry read for "random" (`None` for `undefined`). */
  function Shape(pattern: string, phase: real, sine: Sine, entry: Option<real>): (v: Option<real>)
    ensures v.None? <==> pattern == "random" && entry.None?
  {
    if pattern == "sine" then Some(sine(phase))
    else if pattern == "triangle" then Some(Triangle(phase))
    else if pattern == "square" then Some(Square(phase))
    else if pattern == "random" then entry
    else Some(sine(phase))
  }

  /** The value the switch assigns to the panner: the shape times the
      amount, and NaN when the shape is `undefined`. */
  function PanValue(pattern: string, phase: real, amount: real, sine: Sine, entry: Option<real>)
    : (p: Number)
    ensures p.NaN? <==> pattern == "random" && entry.None?
  {
    var v := Shape(pattern, phase, sine, entry);
    if v.Some? then Finite(v.value * amount) else NaN
  }

  /** `table[index]`, which is `undefined` out of range. */
  function TableEntry(table: seq<real>, index: int): (e: Option<real>)
    ensures e.Some? <==> 0 <= index < |table|
    ensures e.Some? ==> e.value in table
  {
    if 0 <= index < |table| then Some(table[index]) else None
  }

  /** `Math.floor(phase * 10) % n` of the live panner (audio-processor.js:193). */
  function LiveIndex(phase: real, n: nat): (k: int)
    requires n > 0
    ensures phase >= 0.0 ==> 0 <= k < n
    ensures 0.0 <= phase < 1.0 ==> 0 <= k < 10
  {
    var f := Floor(phase * 10.0);
    RemAtMost(f, n);
    IntRem(f, n)
  }

  /** The entry the live panner reads; with an empty table the index is NaN. */
  function LiveEntry(phase: real, table: seq<real>): (e: Option<real>)
    ensures phase >= 0.0 && |table| > 0 ==> e.Some?
    ensures |table| == 0 ==> e.None?
  {
    if |table| == 0 then None else TableEntry(table, LiveIndex(phase, |table|))
  }

  /** `Math.floor(Math.random() * n)` of the export (audio-processor.js:343). */
  function ExportIndex(draw: real, n: nat): (k: int)
    requires 0.0 <= draw < 1.0
    ensures n > 0 ==> 0 <= k < n
    ensures n == 0 ==> k == 0
  {
    ScaleBelow(draw, n as real);
    Floor(draw * n as real)
  }

  /** The entry the export reads for one chunk. */
  function ExportEntry(draw: real, table: seq<real>): (e: Option<real>)
    requires 0.0 <= draw < 1.0
    ensures e.Some? <==> |table| > 0
  {
    TableEntry(table, ExportIndex(draw, |table|))
  }

  /** `(options.panSpeed * updateInterval) / 1000` (audio-processor.js:176). */
  function PhaseDelta(panSpeed: real): (d: real)
    ensures panSpeed >= 0.0 ==> d >= 0.0
    ensures d * 20.0 == panSpeed
  {
    (panSpeed * UpdateInterval) / 1000.0
  }

  /** `(phase + phaseDelta) % 1` (audio-processor.js:201). */
  function NextPhase(phase: real, delta: real): (next: real)
    ensures phase + delta >= 0.0 ==> 0.0 <= next < 1.0
  {
    Rem(phase + delta, 1.0)
  }

  /** The table the live panner fills for the random pattern: each draw of
      `Math.random()` mapped by `r * 2 - 1` (audio-processor.js:168-171). */
  function RandomTable(draws: seq<real>): (t: seq<real>)
    ensures |t| == |draws|
  {
    seq(|draws|, i requires 0 <= i < |draws| => draws[i] * 2.0 - 1.0)
  }

  // ---------------------------------------------------------------------
  // Properties of the switch
  // ---------------------------------------------------------------------

  /** Square is +amount on the first half period and -amount on the second. */
  lemma SquareHalves(phase: real, amount: real, sine: Sine, entry: Option<real>)
    requires 0.0 <= phase < 1.0
    ensures PanValue("square", phase, amount, sine, entry).Finite?
    ensures phase < 0.5 ==> PanValue("square", phase, amount, sine, entry).value == amount
    ensures phase >= 0.5 ==> PanValue("square", phase, amount, sine, entry).value == -amount
  {
    if phase < 0.5 {
      assert Floor(phase * 2.0) == 0;
    } else {
      assert Floor(phase * 2.0) == 1;
    }
  }

  /** Over one period the triangle falls linearly from 1 to -1 and rises back. */
  lemma TriangleShape(phase: real)
    requires 0.0 <= phase < 1.0
    ensures phase < 0.5 ==> Triangle(phase) == 1.0 - 4.0 * phase
    ensures phase >= 0.5 ==> Triangle(phase) == 4.0 * phase - 3.0
  {
    RemOfSmall(phase * 4.0, 4.0);
  }

  /** The triangle starts at +amount. */
  lemma TriangleAtZero(amount: real, sine: Sine, entry: Option<real>)
    ensures PanValue("triangle", 0.0, amount, sine, entry).Finite?
    ensures PanValue("triangle", 0.0, amount, sine, entry).value == amount
  {
    TriangleShape(0.0);
  }

  /** The triangle has period one. */
  lemma TrianglePeriodic(phase: real)
    requires phase >= 0.0
    ensures Triangle(phase + 1.0) == Triangle(phase)
  {
    assert (phase + 1.0) * 4.0 == phase * 4.0 + 4.0;
    RemShift(phase * 4.0, 4.0);
  }

  /** A pattern name the switch does not know falls through to the sine. */
  lemma UnknownPatternIsSine(pattern: string, phase: real, amount: real, sine: Sine, entry: Option<real>)
    requires pattern !in {"sine", "triangle", "square", "random"}
    ensures PanValue(pattern, phase, amount, sine, entry).Finite?
    ensures PanValue(pattern, phase, amount, sine, entry).value == sine(phase) * amount
  {
    assert Shape(pattern, phase, sine, entry) == Some(sine(phase));
  }

  /** With a non-negative phase and amount, a bounded sine and a table entry
      in [-1, 1], every defined pan value lies in [-amount, amount]. */
  lemma PanBounded(pattern: string, phase: real, amount: real, sine: Sine, entry: Option<real>)
    requires phase >= 0.0 && amount >= 0.0 && UnitBounded(sine)
    requires entry.Some? ==> -1.0 <= entry.value <= 1.0
    ensures var p := PanValue(pattern, phase, amount, sine, entry);
      p.Finite? ==> -amount <= p.value <= amount
  {
    var v := Shape(pattern, phase, sine, entry);
    if v.Some? {
      ShapeBounded(pattern, phase, sine, entry);
      ScaleBound(v.value, amount);
    }
  }

  /** Every shape lies in [-1, 1] for a non-negative phase. */
  lemma ShapeBounded(pattern: string, phase: real, sine: Sine, entry: Option<real>)
    requires phase >= 0.0 && UnitBounded(sine)
    requires entry.Some? ==> -1.0 <= entry.value <= 1.0
    ensures var v := Shape(pattern, phase, sine, entry);
      v.Some? ==> -1.0 <= v.value <= 1.0
  {
  }

  /** The live index reads a valid entry of the 100-entry table and, for a
      phase in [0, 1), only one of its first ten entries. */
  lemma LiveIndexInTable(phase: real, table: seq<real>)
    requires 0.0 <= phase < 1.0 && |table| == RandomTableSize
    ensures 0 <= LiveIndex(phase, |table|) < 10
    ensures LiveEntry(phase, table) == Some(table[LiveIndex(phase, |table|)])
  {
  }

  /** Every entry of the random table lies in [-1, 1). */
  lemma RandomTableBounds(draws: seq<real>)
    requires forall i :: 0 <= i < |draws| ==> 0.0 <= draws[i] < 1.0
    ensures forall i :: 0 <= i < |draws| ==> -1.0 <= RandomTable(draws)[i] < 1.0
  {
  }

  /** A non-negative step keeps the phase in [0, 1); a step that stays below
      one period adds to the phase and wraps once past 1. */
  lemma NextPhaseWraps(phase: real, delta: real)
    requires 0.0 <= phase < 1.0 && 0.0 <= delta
    ensures 0.0 <= NextPhase(phase, delta) < 1.0
    ensures phase + delta < 1.0 ==> NextPhase(phase, delta) == phase + delta
    ensures 1.0 <= phase + delta < 2.0 ==> NextPhase(phase, delta) == phase + delta - 1.0
  {
    if phase + delta < 1.0 {
      RemOfSmall(phase + delta, 1.0);
    } else if phase + delta < 2.0 {
      RemOfSecondPeriod(phase + delta, 1.0);
    }
  }

  // Helpers

  lemma ScaleBound(x: real, a: real)
    requires -1.0 <= x <= 1.0 && a >= 0.0
    ensures -a <= x * a <= a
  {
    assert (1.0 - x) * a >= 0.0;
    assert (x + 1.0) * a >= 0.0;
  }

  lemma RemAtMost(f: int, n: nat)
    requires n > 0
    ensures f >= 0 ==> f % n <= f
  {
    if f >= 0 && f < n {
      assert f % n == f;
    }
  }
}
