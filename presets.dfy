/** The effect presets (presets.js:4-97): four fixed settings objects, a
    generator of random settings and a lookup by name with a fallback. */
module Presets {
  import opened JsNumber
  import opened Audio

  /** `Presets.default` (presets.js:8-17). */
  const Default: Options := Options(2.0, 1.0, 0.3, 0.8, 0.2, 0.2, "sine", 2.0)

  /** `Presets.suave` (presets.js:22-31). */
  const Suave: Options := Options(1.0, 0.8, 0.4, 0.9, 0.3, 0.15, "sine", 1.0)

  /** `Presets.intenso` (presets.js:36-45). */
  const Intenso: Options := Options(3.5, 1.0, 0.2, 0.7, 0.1, 0.3, "square", 5.0)

  /** `Presets.psicodelico` (presets.js:50-59). */
  const Psicodelico: Options := Options(3.0, 1.0, 0.6, 0.95, 0.5, 0.4, "triangle", 3.0)

  /** The pattern names the random generator picks from (presets.js:73). */
  const Patterns: seq<string> := ["sine", "triangle", "square", "random"]

  /** Eight values of `Math.random()`, one per property, in the order the
      object literal evaluates them. */
  ghost predicate ValidDraws(draws: seq<real>)
  {
    |draws| == 8 && forall i :: 0 <= i < 8 ==> 0.0 <= draws[i] < 1.0
  }

  /** The ranges a generated preset keeps. */
  ghost predicate InRandomRanges(o: Options)
  {
    && 0.1 <= o.panSpeed < 5.0
    && 0.1 <= o.panAmount < 1.0
    && 0.0 <= o.reverbAmount < 0.9
    && 0.1 <= o.roomSize < 0.99
    && 0.1 <= o.echoDelay < 1.0
    && 0.0 <= o.echoFeedback < 0.7
    && o.panPattern in Patterns
    && o.bassBoost == o.bassBoost.Floor as real && 0.0 <= o.bassBoost <= 14.0
  }

  /** `Math.floor(r * n)` for a draw r in [0, 1): an index below n. */
  function DrawIndex(r: real, n: nat): (k: nat)
    requires 0.0 <= r < 1.0 && n > 0
    ensures k < n
    ensures k as real <= r * n as real < k as real + 1.0
  {
    var x := r * n as real;
    ScaleBelow(r, n as real);
    FloorBelow(x, n);
    Floor(x)
  }

  /** generateRandom (presets.js:65-76). */
  function GenerateRandom(draws: seq<real>): (o: Options)
    requires ValidDraws(draws)
    ensures InRandomRanges(o)
  {
    Options(
      draws[0] * 4.9 + 0.1,
      draws[1] * 0.9 + 0.1,
      draws[2] * 0.9,
      draws[3] * 0.89 + 0.1,
      draws[4] * 0.9 + 0.1,
      draws[5] * 0.7,
      Patterns[DrawIndex(draws[6], 4)],
      DrawIndex(draws[7], 15) as real)
  }

  /** getByName (presets.js:83-96); `draws` feed generateRandom for "aleatorio". */
  function GetByName(name: string, draws: seq<real>): (o: Options)
    requires name == "aleatorio" ==> ValidDraws(draws)
    ensures o in {Default, Suave, Intenso, Psicodelico} || InRandomRanges(o)
  {
    if name == "suave" then Suave
    else if name == "intenso" then Intenso
    else if name == "psicodelico" then Psicodelico
    else if name == "aleatorio" then GenerateRandom(draws)
    else Default
  }

  /** Each named preset is returned for its exact name, and any other name
      but "aleatorio", the empty one included, gives the default. */
  lemma GetByNameCases(name: string, draws: seq<real>)
    requires name == "aleatorio" ==> ValidDraws(draws)
    ensures name == "suave" ==> GetByName(name, draws) == Suave
    ensures name == "intenso" ==> GetByName(name, draws) == Intenso
    ensures name == "psicodelico" ==> GetByName(name, draws) == Psicodelico
    ensures name == "aleatorio" ==> GetByName(name, draws) == GenerateRandom(draws)
    ensures name !in {"suave", "intenso", "psicodelico", "aleatorio"} ==> GetByName(name, draws) == Default
  {
  }

  /** The lookup is case-sensitive: "Suave" is not "suave". */
  lemma GetByNameCaseSensitive(draws: seq<real>)
    ensures GetByName("Suave", draws) == Default
    ensures GetByName("", draws) == Default
  {
    assert "Suave" != "suave" by { assert "Suave"[0] != "suave"[0]; }
  }

  /** Every fixed preset has an amount in [0, 1] and a deterministic pattern. */
  lemma FixedPresetsWellFormed(o: Options)
    requires o in {Default, Suave, Intenso, Psicodelico}
    ensures 0.0 <= o.panAmount <= 1.0
    ensures o.panPattern in {"sine", "square", "triangle"}
    ensures o.panSpeed > 0.0
  {
  }

  /** The generator can yield every pattern name, each from a quarter of
      the draw's range. */
  lemma PatternQuarters(r: real)
    requires 0.0 <= r < 1.0
    ensures DrawIndex(r, 4) == if r < 0.25 then 0 else if r < 0.5 then 1 else if r < 0.75 then 2 else 3
  {
  }
}
