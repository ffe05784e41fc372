/** The analyzer as a state machine over values: the sample window, the smoothed
    and gated bands, and the two visual parameters
    (crates/spotuify-audio/src/analyzer.rs). Amplitudes are real numbers; the FFT
    contributes any sequence of nonnegative magnitudes, and the square root any
    function that is nonnegative on nonnegative arguments. */
module SpectrumFrames {
  import opened Wrappers
  import opened Numbers

  const NUM_BANDS: nat := 12
  const FFT_SIZE: nat := 2048
  const BIN_COUNT: nat := FFT_SIZE / 2 + 1
  const CEILING := 0.85

  const BAND_EDGES: seq<nat> := [1, 2, 4, 8, 16, 32, 64, 128, 256, 384, 512, 768, 1024]

  const BAND_GAINS: seq<real> := [0.7, 0.8, 0.9, 1.0, 1.0, 1.0, 1.1, 1.2, 1.3, 1.4, 1.6, 2.0]

  datatype Spectrum = Spectrum(bands: seq<real>, peak: real)

  datatype Analyzer = Analyzer(window: seq<real>, spectrum: Spectrum, smoothing: real, gate: real)

  datatype Op =
    | Push(samples: seq<real>)
    | Frame(fft: Option<seq<real>>)           // `None`: the transform failed
    | SetParams(smoothing: real, gate: real)

  // ---- Samples ----

  function Abs(x: real): (r: real) { if x < 0.0 then -x else x }

  function Max(x: real, y: real): (r: real) { if x < y then y else x }

  /** The last `FFT_SIZE` of a longer sequence. */
  function Latest(samples: seq<real>): (r: seq<real>)
    requires |samples| >= FFT_SIZE
    ensures |r| == FFT_SIZE
  {
    samples[|samples| - FFT_SIZE..]
  }

  function MaxAbs(samples: seq<real>): (r: real)
    ensures r >= 0.0
    ensures forall i :: 0 <= i < |samples| ==> Abs(samples[i]) <= r
    ensures r == 0.0 || exists i :: 0 <= i < |samples| && Abs(samples[i]) == r
  {
    if samples == [] then 0.0
    else
      var front := MaxAbs(samples[..|samples| - 1]);
      Max(front, Abs(samples[|samples| - 1]))
  }

  // ---- One frame ----

  /** A product by name, so that proofs can leave it unopened. */
  function Times(x: real, y: real): (r: real) { x * y }

  function Gated(x: real, gate: real): (r: real) { if x < gate then 0.0 else x }

  function Smoothed(before: real, level: real, smoothing: real): (r: real)
  {
    Times(before, smoothing) + Times(level, 1.0 - smoothing)
  }

  function Decayed(s: Spectrum, smoothing: real, gate: real): (r: Spectrum)
  {
    Spectrum(seq(|s.bands|, i requires 0 <= i < |s.bands| => Gated(Times(s.bands[i], smoothing), gate)),
             Gated(Times(s.peak, smoothing), gate))
  }

  function Sum(values: seq<real>): (r: real)
  {
    if values == [] then 0.0 else Sum(values[..|values| - 1]) + values[|values| - 1]
  }

  predicate Nonnegative(values: seq<real>)
  {
    forall i :: 0 <= i < |values| ==> values[i] >= 0.0
  }

  /** The average magnitude of a band's bins. */
  function BandAverage(magnitudes: seq<real>, band: nat): (r: real)
    requires |magnitudes| == BIN_COUNT && band < NUM_BANDS
  {
    var bins := magnitudes[BAND_EDGES[band]..BAND_EDGES[band + 1]];
    Sum(bins) / (|bins| as real)
  }

  /** A band after gain, square root and ceiling. */
  function BandLevel(magnitudes: seq<real>, root: real -> real, band: nat): (r: real)
    requires |magnitudes| == BIN_COUNT && band < NUM_BANDS
  {
    var loudest := MaxAbs(magnitudes[1..BIN_COUNT - 1]);
    if loudest > 0.0 then
      var level := root(BandAverage(magnitudes, band) / loudest * BAND_GAINS[band] * CEILING);
      if level < CEILING then level else CEILING
    else BandAverage(magnitudes, band)
  }

  function NewBands(magnitudes: seq<real>, root: real -> real): (r: seq<real>)
    requires |magnitudes| == BIN_COUNT
  {
    seq(NUM_BANDS, i requires 0 <= i < NUM_BANDS => BandLevel(magnitudes, root, i))
  }

  function Updated(s: Spectrum, levels: seq<real>, smoothing: real, gate: real): (r: Spectrum)
    requires |s.bands| == |levels|
  {
    Spectrum(seq(|levels|, i requires 0 <= i < |levels| => Gated(Smoothed(s.bands[i], levels[i], smoothing), gate)),
             Gated(Smoothed(s.peak, MaxAbs(levels), smoothing), gate))
  }

  function NextSpectrum(a: Analyzer, fft: Option<seq<real>>, root: real -> real): (r: Spectrum)
    requires |a.spectrum.bands| == NUM_BANDS && (fft.Some? ==> |fft.value| == BIN_COUNT)
  {
    if MaxAbs(a.window) < a.gate then Decayed(a.spectrum, a.smoothing, a.gate)
    else if fft.Some? then Updated(a.spectrum, NewBands(fft.value, root), a.smoothing, a.gate)
    else a.spectrum
  }

  predicate ValidOp(op: Op)
  {
    op.Frame? && op.fft.Some? ==> |op.fft.value| == BIN_COUNT && Nonnegative(op.fft.value)
  }

  function Apply(a: Analyzer, op: Op, root: real -> real): (r: Analyzer)
    requires |a.window| == FFT_SIZE && |a.spectrum.bands| == NUM_BANDS && ValidOp(op)
  {
    match op
    case Push(samples) => a.(window := Latest(a.window + samples))
    case Frame(fft) => a.(spectrum := NextSpectrum(a, fft, root))
    case SetParams(smoothing, gate) => a.(smoothing := Clamp(smoothing, 0.0, 0.95), gate := Clamp(gate, 0.0, 1.0))
  }

  function Silence(n: nat): (r: seq<real>)
    ensures |r| == n && forall i :: 0 <= i < n ==> r[i] == 0.0
  {
    seq(n, _ => 0.0)
  }

  const FRESH := Analyzer(Silence(FFT_SIZE), Spectrum(Silence(NUM_BANDS), 0.0), 0.5, 0.005)

  // ---- What every operation keeps ----

  predicate SpectrumOk(s: Spectrum)
  {
    |s.bands| == NUM_BANDS && 0.0 <= s.peak <= CEILING
    && forall i :: 0 <= i < NUM_BANDS ==> 0.0 <= s.bands[i] <= s.peak
  }

  predicate AnalyzerOk(a: Analyzer)
  {
    |a.window| == FFT_SIZE && SpectrumOk(a.spectrum) && 0.0 <= a.smoothing <= 0.95 && 0.0 <= a.gate <= 1.0
  }

  ghost predicate IsRoot(root: real -> real)
  {
    forall x: real :: x >= 0.0 ==> root(x) >= 0.0
  }

  lemma ScaleMonotonic(x: real, y: real, k: real)
    requires 0.0 <= x <= y && 0.0 <= k
    ensures 0.0 <= Times(x, k) <= Times(y, k)
  {
  }

  lemma SmoothedBetween(before: real, level: real, beforeTop: real, levelTop: real, smoothing: real)
    requires 0.0 <= before <= beforeTop <= CEILING && 0.0 <= level <= levelTop <= CEILING && 0.0 <= smoothing <= 0.95
    ensures 0.0 <= Smoothed(before, level, smoothing) <= Smoothed(beforeTop, levelTop, smoothing) <= CEILING
  {
    hide Times;
    var rest := 1.0 - smoothing;
    ScaleMonotonic(before, beforeTop, smoothing);
    ScaleMonotonic(beforeTop, CEILING, smoothing);
    ScaleMonotonic(level, levelTop, rest);
    ScaleMonotonic(levelTop, CEILING, rest);
    CeilingSplits(smoothing);
  }

  lemma CeilingSplits(smoothing: real)
    ensures Times(CEILING, smoothing) + Times(CEILING, 1.0 - smoothing) == CEILING
  {
  }

  lemma {:induction false} SumNonnegative(values: seq<real>)
    requires Nonnegative(values)
    ensures Sum(values) >= 0.0
  {
    if values != [] {
      SumNonnegative(values[..|values| - 1]);
    }
  }

  lemma {:induction false} SumOfZeros(values: seq<real>)
    requires forall i :: 0 <= i < |values| ==> values[i] == 0.0
    ensures Sum(values) == 0.0
  {
    if values != [] {
      SumOfZeros(values[..|values| - 1]);
    }
  }

  lemma EdgesAreOrdered(band: nat)
    requires band < NUM_BANDS
    ensures 1 <= BAND_EDGES[band] < BAND_EDGES[band + 1] <= BIN_COUNT - 1
  {
  }

  lemma QuotientNonnegative(x: real, y: real)
    requires x >= 0.0 && y > 0.0
    ensures x / y >= 0.0
  {
  }

  lemma ProductNonnegative(x: real, y: real)
    requires x >= 0.0 && y >= 0.0
    ensures x * y >= 0.0
  {
  }

  lemma BandLevelBounded(magnitudes: seq<real>, root: real -> real, band: nat)
    requires |magnitudes| == BIN_COUNT && Nonnegative(magnitudes) && band < NUM_BANDS && IsRoot(root)
    ensures 0.0 <= BandLevel(magnitudes, root, band) <= CEILING
    ensures var loudest := MaxAbs(magnitudes[1..BIN_COUNT - 1]);
      if loudest > 0.0 then 0.0 <= BandAverage(magnitudes, band) / loudest * BAND_GAINS[band] * CEILING
      else BandLevel(magnitudes, root, band) == 0.0
  {
    EdgesAreOrdered(band);
    var low, high := BAND_EDGES[band], BAND_EDGES[band + 1];
    var bins := magnitudes[low..high];
    var inner := magnitudes[1..BIN_COUNT - 1];
    SumNonnegative(bins);
    QuotientNonnegative(Sum(bins), |bins| as real);
    var loudest := MaxAbs(inner);
    if loudest > 0.0 {
      var average := BandAverage(magnitudes, band);
      QuotientNonnegative(average, loudest);
      assert BAND_GAINS[band] >= 0.0;
      ProductNonnegative(average / loudest, BAND_GAINS[band]);
      ProductNonnegative(average / loudest * BAND_GAINS[band], CEILING);
    } else {
      forall i | 0 <= i < |bins|
        ensures bins[i] == 0.0
      {
        assert bins[i] == inner[low + i - 1];
        assert Abs(inner[low + i - 1]) <= loudest;
      }
      SumOfZeros(bins);
    }
  }

  lemma DecayKeepsSpectrum(s: Spectrum, smoothing: real, gate: real)
    requires SpectrumOk(s) && 0.0 <= smoothing <= 0.95 && 0.0 <= gate
    ensures SpectrumOk(Decayed(s, smoothing, gate))
  {
    hide Times;
    forall i | 0 <= i < NUM_BANDS
      ensures 0.0 <= Times(s.bands[i], smoothing) <= Times(s.peak, smoothing)
    {
      ScaleMonotonic(s.bands[i], s.peak, smoothing);
    }
    ScaleDown(s.peak, smoothing);
  }

  lemma ScaleDown(x: real, k: real)
    requires 0.0 <= x && 0.0 <= k <= 0.95
    ensures 0.0 <= Times(x, k) <= 0.95 * x <= x
  {
    ScaleMonotonic(k, 0.95, x);
    assert Times(k, x) == Times(x, k) && Times(0.95, x) == 0.95 * x;
  }

  lemma UpdateKeepsSpectrum(s: Spectrum, levels: seq<real>, smoothing: real, gate: real)
    requires SpectrumOk(s) && |levels| == NUM_BANDS && 0.0 <= smoothing <= 0.95 && 0.0 <= gate
    requires forall i :: 0 <= i < NUM_BANDS ==> 0.0 <= levels[i] <= CEILING
    ensures SpectrumOk(Updated(s, levels, smoothing, gate))
  {
    hide Times, Smoothed;
    var top := MaxAbs(levels);
    assert top <= CEILING;
    forall i | 0 <= i < NUM_BANDS
      ensures 0.0 <= Smoothed(s.bands[i], levels[i], smoothing) <= Smoothed(s.peak, top, smoothing) <= CEILING
    {
      assert Abs(levels[i]) == levels[i];
      SmoothedBetween(s.bands[i], levels[i], s.peak, top, smoothing);
    }
    SmoothedBetween(0.0, 0.0, s.peak, top, smoothing);
  }

  lemma EveryOpKeepsTheInvariant(a: Analyzer, op: Op, root: real -> real)
    requires AnalyzerOk(a) && ValidOp(op) && IsRoot(root)
    ensures AnalyzerOk(Apply(a, op, root))
  {
    if op.Frame? {
      if MaxAbs(a.window) < a.gate {
        DecayKeepsSpectrum(a.spectrum, a.smoothing, a.gate);
      } else if op.fft.Some? {
        forall i | 0 <= i < NUM_BANDS
          ensures 0.0 <= NewBands(op.fft.value, root)[i] <= CEILING
        {
          BandLevelBounded(op.fft.value, root, i);
        }
        hide Updated;
        UpdateKeepsSpectrum(a.spectrum, NewBands(op.fft.value, root), a.smoothing, a.gate);
      }
    }
  }

  // ---- Whole runs ----

  predicate ValidOps(ops: seq<Op>)
  {
    forall i :: 0 <= i < |ops| ==> ValidOp(ops[i])
  }

  function Run(a: Analyzer, ops: seq<Op>, root: real -> real): (r: Analyzer)
    requires |a.window| == FFT_SIZE && |a.spectrum.bands| == NUM_BANDS && ValidOps(ops)
    ensures |r.window| == FFT_SIZE && |r.spectrum.bands| == NUM_BANDS
    decreases |ops|
  {
    if ops == [] then a else Apply(Run(a, ops[..|ops| - 1], root), ops[|ops| - 1], root)
  }

  /** Over every run of pushes, frames and parameter changes, each band lies
      between zero and the peak, and the peak below the ceiling. */
  lemma {:induction false} BandsStayInRange(a: Analyzer, ops: seq<Op>, root: real -> real)
    requires AnalyzerOk(a) && ValidOps(ops) && IsRoot(root)
    ensures AnalyzerOk(Run(a, ops, root))
    decreases |ops|
  {
    if ops != [] {
      hide AnalyzerOk, Apply;
      BandsStayInRange(a, ops[..|ops| - 1], root);
      EveryOpKeepsTheInvariant(Run(a, ops[..|ops| - 1], root), ops[|ops| - 1], root);
    }
  }

  // ---- Decay to silence ----

  predicate Quiet(samples: seq<real>, gate: real)
  {
    forall i :: 0 <= i < |samples| ==> Abs(samples[i]) < gate
  }

  /** Pushes of quiet samples, frames, and smoothing changes that keep the gate. */
  predicate QuietOps(ops: seq<Op>, gate: real)
  {
    forall i :: 0 <= i < |ops| ==>
      match ops[i]
      case Push(samples) => Quiet(samples, gate)
      case Frame(_) => true
      case SetParams(_, g) => Clamp(g, 0.0, 1.0) == gate
  }

  function FrameCount(ops: seq<Op>): (r: nat)
  {
    if ops == [] then 0 else FrameCount(ops[..|ops| - 1]) + if ops[|ops| - 1].Frame? then 1 else 0
  }

  /** How far the peak must have fallen after `frames` quiet frames. */
  predicate Falling(peak: real, gate: real, frames: nat)
  {
    peak == 0.0 || (peak <= CEILING - 0.05 * gate * (frames as real) && (frames > 0 ==> peak >= gate))
  }

  lemma PeakFalls(peak: real, smoothing: real, gate: real, frames: nat)
    requires 0.0 <= peak && 0.0 <= smoothing <= 0.95 && 0.0 < gate && Falling(peak, gate, frames)
    ensures Falling(Gated(Times(peak, smoothing), gate), gate, frames + 1)
  {
    ScaleDown(peak, smoothing);
    var next := Times(peak, smoothing);
    hide Times;
    if next >= gate {
      assert peak - 0.05 * peak <= peak - 0.05 * gate;
      Distribute(gate, frames);
    }
  }

  lemma Distribute(gate: real, frames: nat)
    ensures 0.05 * gate * ((frames + 1) as real) == 0.05 * gate * (frames as real) + 0.05 * gate
  {
    assert (frames + 1) as real == frames as real + 1.0;
  }

  lemma QuietWindowStays(window: seq<real>, samples: seq<real>, gate: real)
    requires |window| == FFT_SIZE && Quiet(window, gate) && Quiet(samples, gate)
    ensures Quiet(Latest(window + samples), gate)
  {
  }

  lemma {:induction false} QuietRunFalls(a: Analyzer, ops: seq<Op>, root: real -> real)
    requires AnalyzerOk(a) && ValidOps(ops) && IsRoot(root)
    requires a.gate > 0.0 && Quiet(a.window, a.gate) && QuietOps(ops, a.gate)
    ensures var end := Run(a, ops, root);
      AnalyzerOk(end) && end.gate == a.gate && Quiet(end.window, a.gate) && Falling(end.spectrum.peak, a.gate, FrameCount(ops))
    decreases |ops|
  {
    if ops != [] {
      var front, op := ops[..|ops| - 1], ops[|ops| - 1];
      QuietRunFalls(a, front, root);
      var before := Run(a, front, root);
      EveryOpKeepsTheInvariant(before, op, root);
      QuietStep(before, op, root, FrameCount(front));
    }
  }

  lemma QuietStep(a: Analyzer, op: Op, root: real -> real, frames: nat)
    requires AnalyzerOk(a) && ValidOp(op) && QuietOps([op], a.gate)
    requires a.gate > 0.0 && Quiet(a.window, a.gate) && Falling(a.spectrum.peak, a.gate, frames)
    ensures var end := Apply(a, op, root);
      && end.gate == a.gate && Quiet(end.window, a.gate)
      && Falling(end.spectrum.peak, a.gate, frames + if op.Frame? then 1 else 0)
  {
    assert [op][0] == op;
    match op
    case Push(samples) => QuietWindowStays(a.window, samples, a.gate);
    case SetParams(_, _) =>
    case Frame(_) =>
      assert MaxAbs(a.window) < a.gate;
      PeakFalls(a.spectrum.peak, a.smoothing, a.gate, frames);
  }

  /** With a positive gate and nothing louder than it, every band and the peak are
      exactly zero after 17 / gate frames, whatever smoothing the setter allowed. */
  lemma SilenceIsReached(a: Analyzer, ops: seq<Op>, root: real -> real)
    requires AnalyzerOk(a) && ValidOps(ops) && IsRoot(root)
    requires a.gate > 0.0 && Quiet(a.window, a.gate) && QuietOps(ops, a.gate)
    requires FrameCount(ops) as real >= 17.0 / a.gate
    ensures var end := Run(a, ops, root).spectrum;
      end.peak == 0.0 && forall i :: 0 <= i < NUM_BANDS ==> end.bands[i] == 0.0
  {
    hide Falling, Run, Quiet, QuietOps, FrameCount;
    QuietRunFalls(a, ops, root);
    FallenIsZero(Run(a, ops, root).spectrum.peak, a.gate, FrameCount(ops));
  }

  lemma FallenIsZero(peak: real, gate: real, frames: nat)
    requires 0.0 <= peak && gate > 0.0 && frames as real >= 17.0 / gate && Falling(peak, gate, frames)
    ensures peak == 0.0
  {
    EnoughFrames(gate, frames);
  }

  lemma EnoughFrames(gate: real, frames: nat)
    requires gate > 0.0 && frames as real >= 17.0 / gate
    ensures frames > 0 && CEILING - 0.05 * gate * (frames as real) <= 0.0
  {
    assert 17.0 / gate > 0.0;
    assert gate * (frames as real) >= gate * (17.0 / gate) == 17.0;
    assert 0.05 * gate * (frames as real) == 0.05 * (gate * (frames as real));
  }

  // ---- The window ----

  /** Everything pushed, in order. */
  function Pushed(ops: seq<Op>): (r: seq<real>)
  {
    if ops == [] then []
    else
      var last := ops[|ops| - 1];
      Pushed(ops[..|ops| - 1]) + if last.Push? then last.samples else []
  }

  lemma LatestOfLatest(all: seq<real>, more: seq<real>)
    requires |all| >= FFT_SIZE
    ensures Latest(Latest(all) + more) == Latest(all + more)
  {
  }

  /** However the stream is cut into pushes, and whatever frames and parameter
      changes come in between, the window is the last samples of all that was
      there and was pushed. */
  lemma {:induction false} ChunkingDoesNotMatter(a: Analyzer, ops: seq<Op>, root: real -> real)
    requires |a.window| == FFT_SIZE && |a.spectrum.bands| == NUM_BANDS && ValidOps(ops)
    ensures Run(a, ops, root).window == Latest(a.window + Pushed(ops))
    decreases |ops|
  {
    hide NextSpectrum, ValidOp, Latest;
    if ops == [] {
      assert a.window + [] == a.window;
      LatestOfWhole(a.window);
    } else {
      var front, last := ops[..|ops| - 1], ops[|ops| - 1];
      ChunkingDoesNotMatter(a, front, root);
      var all := a.window + Pushed(front);
      if last.Push? {
        assert a.window + Pushed(ops) == all + last.samples;
        LatestOfLatest(all, last.samples);
      } else {
        assert Pushed(ops) == Pushed(front);
      }
    }
  }

  lemma LatestOfWhole(window: seq<real>)
    requires |window| == FFT_SIZE
    ensures Latest(window) == window
  {
  }
}
