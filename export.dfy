/** The chunk loop of exportAudio (audio-processor.js:320-360): the frames
    [0, totalFrames) are walked in steps of 1024; for each step the pan
    value of the selected pattern is computed at phase i / totalFrames and
    assigned to the offline panner, and the fraction of frames done so far
    is reported. Nothing is rendered inside the loop, so the loop yields the
    sequence of pan values assigned and the sequence of progress reports. */
module Export {
  import opened JsNumber
  import opened Audio
  import opened Panning

  /** `frameSize` (audio-processor.js:322). */
  const FrameSize: nat := 1024

  datatype ExportError =
    | NoAudioLoaded   // `this.audioBuffer.length` on a null buffer (audio-processor.js:295)
    | NonFinitePan    // assigning NaN to `panner.pan.value` (audio-processor.js:351)

  /** What the loop leaves behind: every pan value assigned, in order, and
      every value passed to `onProgress`, in order. */
  datatype Schedule = Schedule(pans: seq<real>, progress: seq<real>)

  /** Number of loop iterations: one per chunk start below the total. */
  function ChunkCount(total: nat): (n: nat)
    ensures n == 0 <==> total == 0
    ensures n <= total
  {
    (total + FrameSize - 1) / FrameSize
  }

  /** The loop variable `i` at the start of chunk k. */
  function ChunkStart(k: nat): (s: nat)
  {
    FrameSize * k
  }

  /** `currentFrame = Math.min(frameSize, totalFrames - i)` */
  function ChunkSize(total: nat, k: nat): (n: int)
    ensures n <= FrameSize
  {
    IntMin(FrameSize, total - ChunkStart(k))
  }

  /** `framesProcessed` once k chunks are done. */
  function FramesBefore(total: nat, k: nat): (f: int)
    ensures f <= FrameSize * k && f <= total
  {
    if k == 0 then 0 else FramesBefore(total, k - 1) + ChunkSize(total, k - 1)
  }

  /** The k-th value reported through `onProgress`. */
  function Progress(total: nat, k: nat): (p: real)
    requires total > 0
    ensures p <= 1.0
  {
    QuotientAtMostOne(FramesBefore(total, k + 1) as real, total as real);
    FramesBefore(total, k + 1) as real / total as real
  }

  /** `phase = (i / totalFrames) % 1` for chunk k. */
  function ChunkPhase(total: nat, k: nat): (phase: real)
    requires total > 0
    ensures 0.0 <= phase < 1.0
  {
    Rem(ChunkStart(k) as real / total as real, 1.0)
  }

  /** The pan value assigned for chunk k; `draw` is the `Math.random()` the
      random pattern consumes for this chunk. */
  function ChunkPan(total: nat, k: nat, pattern: string, amount: real, sine: Sine,
                    table: seq<real>, draw: real): (v: Number)
    requires total > 0 && 0.0 <= draw < 1.0
    ensures v.NaN? <==> pattern == "random" && |table| == 0
  {
    PanValue(pattern, ChunkPhase(total, k), amount, sine, ExportEntry(draw, table))
  }

  /** The loop proper. A random pattern with an empty table yields NaN at
      the first chunk, and the assignment throws before any progress is
      reported. */
  method RunChunks(totalFrames: nat, pattern: string, amount: real, sine: Sine,
                   table: seq<real>, draws: seq<real>)
    returns (r: Result<Schedule, ExportError>)
    requires totalFrames >= 1
    requires |draws| == ChunkCount(totalFrames)
    requires forall j :: 0 <= j < |draws| ==> 0.0 <= draws[j] < 1.0
    ensures r.Err? <==> pattern == "random" && |table| == 0
    ensures r.Err? ==> r.error == NonFinitePan
    ensures r.Ok? ==>
      && |r.value.pans| == |r.value.progress| == ChunkCount(totalFrames)
      && (forall k :: 0 <= k < ChunkCount(totalFrames) ==>
            && Finite(r.value.pans[k]) == ChunkPan(totalFrames, k, pattern, amount, sine, table, draws[k])
            && r.value.progress[k] == Progress(totalFrames, k))
  {
    var framesProcessed := 0;
    var pans: seq<real> := [];
    var progress: seq<real> := [];
    var i := 0;
    ChunkStartBelowTotal(totalFrames, 0);
    while i < totalFrames
      invariant |pans| == |progress| <= ChunkCount(totalFrames)
      invariant i == ChunkStart(|pans|)
      invariant i < totalFrames <==> |pans| < ChunkCount(totalFrames)
      invariant framesProcessed == FramesBefore(totalFrames, |pans|)
      invariant forall k :: 0 <= k < |pans| ==>
        Finite(pans[k]) == ChunkPan(totalFrames, k, pattern, amount, sine, table, draws[k])
      invariant forall k :: 0 <= k < |progress| ==> progress[k] == Progress(totalFrames, k)
      invariant pattern == "random" && |table| == 0 ==> |pans| == 0
      decreases totalFrames - i
    {
      var k := |pans|;
      var currentFrame := IntMin(FrameSize, totalFrames - i);
      var phase := Rem(i as real / totalFrames as real, 1.0);
      var panValue := PanValue(pattern, phase, amount, sine, ExportEntry(draws[k], table));
      if panValue.NaN? {
        return Err(NonFinitePan);
      }
      pans := pans + [panValue.value];
      framesProcessed := framesProcessed + currentFrame;
      progress := progress + [framesProcessed as real / totalFrames as real];
      i := i + FrameSize;
      ChunkStartBelowTotal(totalFrames, k + 1);
    }
    r := Ok(Schedule(pans, progress));
  }

  // ---------------------------------------------------------------------
  // Properties of the chunking
  // ---------------------------------------------------------------------

  /** The chunk starts below the total are exactly the first ChunkCount ones. */
  lemma ChunkStartBelowTotal(total: nat, k: nat)
    ensures ChunkStart(k) < total <==> k < ChunkCount(total)
  {
    var n := ChunkCount(total);
    assert FrameSize * n <= total + FrameSize - 1 < FrameSize * (n + 1);
    if k < n {
      assert FrameSize * (k + 1) <= FrameSize * n;
    } else {
      assert FrameSize * n <= FrameSize * k;
    }
  }

  /** ChunkCount is the ceiling of total / 1024. */
  lemma ChunkCountIsCeiling(total: nat)
    requires total >= 1
    ensures ChunkCount(total) >= 1
    ensures FrameSize * (ChunkCount(total) - 1) < total <= FrameSize * ChunkCount(total)
  {
    var n := ChunkCount(total);
    ChunkStartBelowTotal(total, 0);
    ChunkStartBelowTotal(total, n - 1);
    ChunkStartBelowTotal(total, n);
  }

  /** Chunk starts ascend strictly. */
  lemma ChunkStartsAscend(j: nat, k: nat)
    requires j < k
    ensures ChunkStart(j) + FrameSize <= ChunkStart(k)
  {
  }

  /** Every chunk of the loop holds between 1 and 1024 frames. */
  lemma ChunkSizeBounds(total: nat, k: nat)
    requires k < ChunkCount(total)
    ensures 1 <= ChunkSize(total, k) <= FrameSize
  {
    ChunkStartBelowTotal(total, k);
  }

  /** After k chunks the frames processed are min(1024 k, total). */
  lemma {:induction false} FramesBeforeClosed(total: nat, k: nat)
    requires k <= ChunkCount(total)
    ensures FramesBefore(total, k) == IntMin(ChunkStart(k), total)
  {
    if k > 0 {
      FramesBeforeClosed(total, k - 1);
      ChunkStartBelowTotal(total, k - 1);
    }
  }

  /** The chunk sizes add up to the total. */
  lemma ChunkSizesSumToTotal(total: nat)
    ensures FramesBefore(total, ChunkCount(total)) == total
  {
    FramesBeforeClosed(total, ChunkCount(total));
    ChunkStartBelowTotal(total, ChunkCount(total));
  }

  /** Reported progress increases strictly from chunk to chunk. */
  lemma ProgressIncreases(total: nat, j: nat, k: nat)
    requires total > 0 && j < k < ChunkCount(total)
    ensures 0.0 < Progress(total, j) < Progress(total, k)
  {
    FramesBeforeClosed(total, j + 1);
    FramesBeforeClosed(total, k + 1);
    ChunkStartBelowTotal(total, j);
    ChunkStartBelowTotal(total, k);
    var a, b := FramesBefore(total, j + 1), FramesBefore(total, k + 1);
    assert 0 < a < b;
    DivideOrdered(a as real, b as real, total as real);
  }

  /** The last report is exactly 1. */
  lemma ProgressEndsAtOne(total: nat)
    requires total > 0
    ensures ChunkCount(total) >= 1
    ensures Progress(total, ChunkCount(total) - 1) == 1.0
  {
    ChunkCountIsCeiling(total);
    ChunkSizesSumToTotal(total);
    assert total as real / total as real == 1.0;
  }

  /** Within the loop the phase is i / totalFrames itself, and it ascends. */
  lemma ChunkPhaseValue(total: nat, j: nat, k: nat)
    requires total > 0 && j < k < ChunkCount(total)
    ensures ChunkPhase(total, k) == ChunkStart(k) as real / total as real
    ensures ChunkPhase(total, j) < ChunkPhase(total, k)
  {
    ChunkStartBelowTotal(total, j);
    ChunkStartBelowTotal(total, k);
    var t := total as real;
    DivideOrdered(ChunkStart(k) as real, t, t);
    DivideOrdered(ChunkStart(j) as real, ChunkStart(k) as real, t);
    assert t / t == 1.0;
    RemOfSmall(ChunkStart(k) as real / t, 1.0);
    if j > 0 {
      DivideOrdered(0.0, ChunkStart(j) as real, t);
    }
    RemOfSmall(ChunkStart(j) as real / t, 1.0);
  }

  lemma DivideOrdered(a: real, b: real, t: real)
    requires 0.0 <= a < b && t > 0.0
    ensures 0.0 <= a / t < b / t
  {
    var x, y := a / t, b / t;
    assert a == t * x && b == t * y;
    assert t * (y - x) > 0.0;
  }
}
