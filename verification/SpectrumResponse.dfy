/** How the displayed spectrum follows what is heard
    (crates/spotuify-audio/src/analyzer.rs). */
module SpectrumResponse {
  import opened Wrappers
  import opened Numbers
  import opened SpectrumFrames

  function Power(x: real, n: nat): (r: real)
  {
    if n == 0 then 1.0 else x * Power(x, n - 1)
  }

  /** The same frame, `n` times. */
  function Frames(fft: Option<seq<real>>, n: nat): (r: seq<Op>)
    ensures |r| == n && forall i :: 0 <= i < n ==> r[i] == Frame(fft)
  {
    seq(n, _ => Frame(fft))
  }

  lemma FramesExtend(a: Analyzer, fft: Option<seq<real>>, n: nat, root: real -> real)
    requires |a.window| == FFT_SIZE && |a.spectrum.bands| == NUM_BANDS && ValidOp(Frame(fft)) && n > 0
    ensures ValidOps(Frames(fft, n)) && ValidOps(Frames(fft, n - 1))
    ensures Run(a, Frames(fft, n), root) == Apply(Run(a, Frames(fft, n - 1), root), Frame(fft), root)
  {
    hide Apply, ValidOp;
    assert Frames(fft, n)[..n - 1] == Frames(fft, n - 1);
  }

  lemma {:induction false} FramesKeepTheRest(a: Analyzer, fft: Option<seq<real>>, n: nat, root: real -> real)
    requires AnalyzerOk(a) && ValidOp(Frame(fft)) && IsRoot(root)
    ensures ValidOps(Frames(fft, n))
    ensures var end := Run(a, Frames(fft, n), root);
      AnalyzerOk(end) && end.window == a.window && end.smoothing == a.smoothing && end.gate == a.gate
  {
    if n > 0 {
      FramesKeepTheRest(a, fft, n - 1, root);
      FramesExtend(a, fft, n, root);
      BandsStayInRange(a, Frames(fft, n), root);
      hide NextSpectrum, AnalyzerOk;
    }
  }

  /** The distance from a level is the given part of the first distance. */
  predicate Off(value: real, level: real, first: real, part: real)
  {
    value - level == part * (first - level)
  }

  /** One step towards a level shrinks the distance by the smoothing factor. */
  lemma OneStepCloser(before: real, level: real, first: real, smoothing: real, n: nat)
    requires n > 0 && Off(before, level, first, Power(smoothing, n - 1))
    ensures Off(Smoothed(before, level, smoothing), level, first, Power(smoothing, n))
  {
    var part := Power(smoothing, n - 1);
    hide Power;
    assert Smoothed(before, level, smoothing) - level == smoothing * (before - level);
    assert smoothing * (part * (first - level)) == smoothing * part * (first - level);
    assert Power(smoothing, n) == smoothing * part by {
      PowerStep(smoothing, n);
    }
  }

  lemma PowerStep(x: real, n: nat)
    requires n > 0
    ensures Power(x, n) == x * Power(x, n - 1)
  {
  }

  /** What a loud frame does, without a gate. */
  lemma LoudFrame(a: Analyzer, fft: seq<real>, root: real -> real)
    requires AnalyzerOk(a) && ValidOp(Frame(Some(fft))) && IsRoot(root) && a.gate == 0.0
    ensures var end := Apply(a, Frame(Some(fft)), root).spectrum; var levels := NewBands(fft, root);
      && |end.bands| == |levels| == NUM_BANDS && end.peak == Smoothed(a.spectrum.peak, MaxAbs(levels), a.smoothing)
      && forall i :: 0 <= i < NUM_BANDS ==> end.bands[i] == Smoothed(a.spectrum.bands[i], levels[i], a.smoothing)
  {
    var levels := NewBands(fft, root);
    hide MaxAbs, Times, BandLevel;
    assert MaxAbs(a.window) >= 0.0;
    forall i | 0 <= i < NUM_BANDS
      ensures 0.0 <= levels[i] <= MaxAbs(levels) <= CEILING
    {
      LevelsInRange(fft, root, i);
    }
    forall i | 0 <= i < NUM_BANDS
      ensures 0.0 <= Smoothed(a.spectrum.bands[i], levels[i], a.smoothing)
      ensures 0.0 <= Smoothed(a.spectrum.peak, MaxAbs(levels), a.smoothing)
    {
      SmoothedBetween(a.spectrum.bands[i], levels[i], a.spectrum.peak, MaxAbs(levels), a.smoothing);
    }
    assert 0.0 <= levels[0];
  }

  lemma LevelsInRange(fft: seq<real>, root: real -> real, band: nat)
    requires |fft| == BIN_COUNT && Nonnegative(fft) && IsRoot(root) && band < NUM_BANDS
    ensures var levels := NewBands(fft, root); 0.0 <= levels[band] <= MaxAbs(levels) <= CEILING
  {
    var levels := NewBands(fft, root);
    forall i | 0 <= i < NUM_BANDS
      ensures 0.0 <= levels[i] <= CEILING
    {
      BandLevelBounded(fft, root, i);
    }
    hide BandLevel;
    assert Abs(levels[band]) == levels[band];
  }

  /** Without a gate and with the same transform every frame, the distance of each
      band from its level, and of the peak from the highest one, is multiplied by the
      smoothing factor once a frame. */
  lemma {:induction false} LevelsAreApproached(a: Analyzer, fft: seq<real>, n: nat, root: real -> real)
    requires AnalyzerOk(a) && ValidOp(Frame(Some(fft))) && IsRoot(root) && a.gate == 0.0
    ensures ValidOps(Frames(Some(fft), n))
    ensures var end := Run(a, Frames(Some(fft), n), root).spectrum; var levels := NewBands(fft, root);
      && (forall i :: 0 <= i < NUM_BANDS ==> Off(end.bands[i], levels[i], a.spectrum.bands[i], Power(a.smoothing, n)))
      && Off(end.peak, MaxAbs(levels), a.spectrum.peak, Power(a.smoothing, n))
  {
    FramesKeepTheRest(a, Some(fft), n, root);
    var levels := NewBands(fft, root);
    if n == 0 {
      assert Frames(Some(fft), 0) == [];
      hide MaxAbs, BandLevel;
    } else {
      LevelsAreApproached(a, fft, n - 1, root);
      FramesExtend(a, Some(fft), n, root);
      FramesKeepTheRest(a, Some(fft), n - 1, root);
      hide Off, Power, Apply, MaxAbs, BandLevel, Smoothed, ValidOp, IsRoot;
      var middle := Run(a, Frames(Some(fft), n - 1), root);
      LoudFrame(middle, fft, root);
      forall i | 0 <= i < NUM_BANDS
        ensures Off(Smoothed(middle.spectrum.bands[i], levels[i], a.smoothing), levels[i], a.spectrum.bands[i], Power(a.smoothing, n))
      {
        OneStepCloser(middle.spectrum.bands[i], levels[i], a.spectrum.bands[i], a.smoothing, n);
      }
      OneStepCloser(middle.spectrum.peak, MaxAbs(levels), a.spectrum.peak, a.smoothing, n);
    }
  }

  /** Without smoothing one loud frame shows the levels, but for the gated ones. */
  lemma LevelsAreShownAtOnce(a: Analyzer, fft: seq<real>, root: real -> real)
    requires AnalyzerOk(a) && ValidOp(Frame(Some(fft))) && a.smoothing == 0.0 && MaxAbs(a.window) >= a.gate
    ensures var end := Apply(a, Frame(Some(fft)), root).spectrum; var levels := NewBands(fft, root);
      && (forall i :: 0 <= i < NUM_BANDS ==> end.bands[i] == if levels[i] < a.gate then 0.0 else levels[i])
      && end.peak == if MaxAbs(levels) < a.gate then 0.0 else MaxAbs(levels)
  {
    hide BandLevel, MaxAbs;
    var levels := NewBands(fft, root);
    assert forall i :: 0 <= i < NUM_BANDS ==> a.spectrum.bands[i] * 0.0 + levels[i] * (1.0 - 0.0) == levels[i];
  }

  /** Zero, or the given part of the first value. */
  predicate ZeroOr(value: real, first: real, part: real)
  {
    value == 0.0 || value == part * first
  }

  lemma OneFactorMore(before: real, first: real, smoothing: real, gate: real, n: nat)
    requires n > 0 && ZeroOr(before, first, Power(smoothing, n - 1))
    ensures ZeroOr(Gated(Times(before, smoothing), gate), first, Power(smoothing, n))
  {
    var part := Power(smoothing, n - 1);
    PowerStep(smoothing, n);
    hide Power;
    if before != 0.0 {
      assert before * smoothing == smoothing * part * first;
    }
  }

  /** In silence each band, and the peak, is zero or has been multiplied by the
      smoothing factor once a frame. */
  lemma {:induction false} SilenceDecays(a: Analyzer, fft: Option<seq<real>>, n: nat, root: real -> real)
    requires AnalyzerOk(a) && ValidOp(Frame(fft)) && IsRoot(root) && MaxAbs(a.window) < a.gate
    ensures ValidOps(Frames(fft, n))
    ensures var end := Run(a, Frames(fft, n), root).spectrum;
      && (forall i :: 0 <= i < NUM_BANDS ==> ZeroOr(end.bands[i], a.spectrum.bands[i], Power(a.smoothing, n)))
      && ZeroOr(end.peak, a.spectrum.peak, Power(a.smoothing, n))
  {
    FramesKeepTheRest(a, fft, n, root);
    if n == 0 {
      assert Frames(fft, 0) == [];
    } else {
      SilenceDecays(a, fft, n - 1, root);
      FramesExtend(a, fft, n, root);
      FramesKeepTheRest(a, fft, n - 1, root);
      hide ZeroOr, Power, MaxAbs, Updated, Times, Gated, ValidOp, IsRoot;
      var middle := Run(a, Frames(fft, n - 1), root);
      forall i | 0 <= i < NUM_BANDS
        ensures ZeroOr(Gated(Times(middle.spectrum.bands[i], a.smoothing), a.gate), a.spectrum.bands[i], Power(a.smoothing, n))
      {
        OneFactorMore(middle.spectrum.bands[i], a.spectrum.bands[i], a.smoothing, a.gate, n);
      }
      OneFactorMore(middle.spectrum.peak, a.spectrum.peak, a.smoothing, a.gate, n);
    }
  }

  /** A failed transform in a loud window leaves the display as it is. */
  lemma FailedTransformShowsTheLastFrame(a: Analyzer, root: real -> real)
    requires |a.window| == FFT_SIZE && |a.spectrum.bands| == NUM_BANDS && MaxAbs(a.window) >= a.gate
    ensures Apply(a, Frame(None), root) == a
  {
  }

  // ---- Levels ----

  ghost predicate IsSquareRoot(root: real -> real)
  {
    forall x: real :: x >= 0.0 ==> root(x) >= 0.0 && root(x) * root(x) == x
  }

  /** The power a band has relative to the loudest bin, weighted by its gain. */
  function RelativePower(magnitudes: seq<real>, band: nat): (r: real)
    requires |magnitudes| == BIN_COUNT && band < NUM_BANDS && MaxAbs(magnitudes[1..BIN_COUNT - 1]) > 0.0
  {
    var low, high := BAND_EDGES[band], BAND_EDGES[band + 1];
    Sum(magnitudes[low..high]) / ((high - low) as real) / MaxAbs(magnitudes[1..BIN_COUNT - 1]) * BAND_GAINS[band] * 0.85
  }

  /** With a true square root, a level below the ceiling squares to the band's
      relative power, and a level is the ceiling exactly when that power exceeds the
      ceiling's square; where nothing sounds every level is zero. */
  lemma LevelsMeasurePower(magnitudes: seq<real>, root: real -> real, band: nat)
    requires |magnitudes| == BIN_COUNT && Nonnegative(magnitudes) && band < NUM_BANDS && IsSquareRoot(root)
    ensures var level := NewBands(magnitudes, root)[band];
      if MaxAbs(magnitudes[1..BIN_COUNT - 1]) > 0.0 then
        var power := RelativePower(magnitudes, band);
        (level == 0.85 && power >= 0.85 * 0.85) || (0.0 <= level < 0.85 && level * level == power)
      else level == 0.0
  {
    hide BandLevel, RelativePower, MaxAbs, BandAverage, IsSquareRoot, IsRoot;
    SquareRootIsRoot(root);
    if MaxAbs(magnitudes[1..BIN_COUNT - 1]) > 0.0 {
      PowerIs(magnitudes, root, band);
      SquareRootAt(root, RelativePower(magnitudes, band));
    } else {
      SilentBand(magnitudes, root, band);
    }
  }

  lemma SquareRootIsRoot(root: real -> real)
    requires IsSquareRoot(root)
    ensures IsRoot(root)
  {
  }

  lemma SquareRootAt(root: real -> real, power: real)
    requires IsSquareRoot(root) && power >= 0.0
    ensures var level := root(power); level >= 0.0 && level * level == power && (level >= 0.85 ==> power >= 0.85 * 0.85)
  {
  }

  lemma SilentBand(magnitudes: seq<real>, root: real -> real, band: nat)
    requires |magnitudes| == BIN_COUNT && Nonnegative(magnitudes) && band < NUM_BANDS && IsRoot(root)
    requires !(MaxAbs(magnitudes[1..BIN_COUNT - 1]) > 0.0)
    ensures BandLevel(magnitudes, root, band) == 0.0
  {
    BandLevelBounded(magnitudes, root, band);
    hide BandLevel;
  }

  lemma PowerIs(magnitudes: seq<real>, root: real -> real, band: nat)
    requires |magnitudes| == BIN_COUNT && Nonnegative(magnitudes) && band < NUM_BANDS && IsRoot(root)
    requires MaxAbs(magnitudes[1..BIN_COUNT - 1]) > 0.0
    ensures var power := RelativePower(magnitudes, band);
      power >= 0.0 && BandLevel(magnitudes, root, band) == if root(power) < 0.85 then root(power) else 0.85
  {
    BandLevelBounded(magnitudes, root, band);
    EdgesAreOrdered(band);
    hide MaxAbs, Sum;
  }

  // ---- The bands ----

  predicate InBand(bin: nat, band: nat)
    requires band < NUM_BANDS
  {
    BAND_EDGES[band] <= bin < BAND_EDGES[band + 1]
  }

  /** Every bin but the two ends lies in exactly one band; a band of the lower eight is
      an octave, two of the upper four make one; and no band has less gain than the one
      below it. */
  lemma BandsTileTheBins(bin: nat) returns (band: nat)
    requires 0 < bin < BIN_COUNT - 1
    ensures band < NUM_BANDS && forall b :: 0 <= b < NUM_BANDS ==> (InBand(bin, b) <==> b == band)
    ensures forall b :: 0 <= b < 8 ==> BAND_EDGES[b + 1] == 2 * BAND_EDGES[b]
    ensures BAND_EDGES[10] == 2 * BAND_EDGES[8] && BAND_EDGES[12] == 2 * BAND_EDGES[10]
    ensures BAND_EDGES[9] - BAND_EDGES[8] == BAND_EDGES[10] - BAND_EDGES[9] && BAND_EDGES[11] - BAND_EDGES[10] == BAND_EDGES[12] - BAND_EDGES[11]
    ensures forall b :: 0 < b < NUM_BANDS ==> BAND_GAINS[b - 1] <= BAND_GAINS[b]
  {
    band := if bin < 2 then 0 else if bin < 4 then 1 else if bin < 8 then 2 else if bin < 16 then 3 else if bin < 32 then 4
      else if bin < 64 then 5 else if bin < 128 then 6 else if bin < 256 then 7 else if bin < 384 then 8
      else if bin < 512 then 9 else if bin < 768 then 10 else 11;
  }
}
