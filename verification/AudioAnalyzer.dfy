/** The analyzer as it runs: a ring buffer written in place and a spectrum updated
    band by band (crates/spotuify-audio/src/analyzer.rs). Its methods refine the
    operations of `SpectrumFrames`. */
module AudioAnalyzer {
  import opened Wrappers
  import opened Numbers
  import opened SpectrumFrames

  /** A position in the ring, wrapped once. */
  function Wrapped(position: nat): (r: nat)
    requires position < 2 * FFT_SIZE
    ensures r == if position < FFT_SIZE then position else position - FFT_SIZE
  {
    position % FFT_SIZE
  }

  function RingOf(buffer: seq<real>, writePos: nat): (r: seq<real>)
    requires |buffer| == FFT_SIZE && writePos < FFT_SIZE
    ensures |r| == FFT_SIZE
  {
    buffer[writePos..] + buffer[..writePos]
  }

  /** Reading the ring in order is reading the buffer from the write position. */
  lemma RingAt(buffer: seq<real>, writePos: nat, i: nat)
    requires |buffer| == FFT_SIZE && writePos < FFT_SIZE && i < FFT_SIZE
    ensures RingOf(buffer, writePos)[i] == buffer[Wrapped(writePos + i)]
  {
  }

  /** One write drops the oldest sample and appends the new one. */
  lemma RingWrite(buffer: seq<real>, writePos: nat, sample: real)
    requires |buffer| == FFT_SIZE && writePos < FFT_SIZE
    ensures RingOf(buffer[writePos := sample], Wrapped(writePos + 1)) == RingOf(buffer, writePos)[1..] + [sample]
  {
  }

  lemma MaxAbsExtends(samples: seq<real>, i: nat)
    requires i < |samples|
    ensures MaxAbs(samples[..i + 1]) == Max(MaxAbs(samples[..i]), Abs(samples[i]))
  {
    assert samples[..i + 1][..i] == samples[..i];
  }

  lemma LatestOfWindow(start: seq<real>, samples: seq<real>)
    requires |start| == FFT_SIZE
    ensures Latest(start + samples[..0]) == start
  {
  }

  lemma LatestExtends(start: seq<real>, samples: seq<real>, i: nat)
    requires |start| == FFT_SIZE && i < |samples|
    ensures Latest(start + samples[..i + 1]) == Latest(start + samples[..i])[1..] + [samples[i]]
  {
    assert start + samples[..i + 1] == start + samples[..i] + [samples[i]];
  }

  class AudioAnalyzer {
    const buffer: array<real>
    const bands: array<real>
    var writePos: nat
    var peak: real
    var smoothing: real
    var gate: real

    ghost predicate Valid()
      reads this, buffer, bands
    {
      buffer.Length == FFT_SIZE && bands.Length == NUM_BANDS && buffer != bands && writePos < FFT_SIZE
    }

    /** The ring read from the write position: oldest sample first. */
    ghost function Ring(): (r: seq<real>)
      requires Valid()
      reads this, buffer, bands
      ensures |r| == FFT_SIZE
    {
      RingOf(buffer[..], writePos)
    }

    ghost function State(): (r: Analyzer)
      requires Valid()
      reads this, buffer, bands
    {
      Analyzer(Ring(), Spectrum(bands[..], peak), smoothing, gate)
    }

    constructor ()
      ensures Valid() && fresh(buffer) && fresh(bands) && State() == FRESH
    {
      buffer := new real[FFT_SIZE](_ => 0.0);
      bands := new real[NUM_BANDS](_ => 0.0);
      writePos := 0;
      peak := 0.0;
      smoothing := 0.5;
      gate := 0.005;
      new;
      assert Ring() == Silence(FFT_SIZE);
      assert bands[..] == Silence(NUM_BANDS);
    }

    method SetVisualParams(newSmoothing: real, newGate: real)
      requires Valid()
      modifies this`smoothing, this`gate
      ensures Valid()
      ensures State() == old(State()).(smoothing := Clamp(newSmoothing, 0.0, 0.95), gate := Clamp(newGate, 0.0, 1.0))
    {
      smoothing := Clamp(newSmoothing, 0.0, 0.95);
      gate := Clamp(newGate, 0.0, 1.0);
    }

    method PushSamples(samples: seq<real>)
      requires Valid()
      modifies this`writePos, buffer
      ensures Valid() && State() == old(State()).(window := Latest(old(State()).window + samples))
    {
      hide Latest, RingOf;
      ghost var start := Ring();
      LatestOfWindow(start, samples);
      for i := 0 to |samples|
        invariant Valid() && Ring() == Latest(start + samples[..i])
        invariant bands[..] == old(bands[..])
      {
        RingWrite(buffer[..], writePos, samples[i]);
        LatestExtends(start, samples, i);
        ghost var before := buffer[..];
        buffer[writePos] := samples[i];
        assert buffer[..] == before[writePos := samples[i]];
        writePos := Wrapped(writePos + 1);
      }
      assert samples[..|samples|] == samples;
    }

    /** The window decimated to `points`, oldest first. */
    method LatestWaveform(points: nat) returns (wave: seq<real>)
      requires Valid()
      ensures |wave| == points
      ensures forall i :: 0 <= i < points ==>
        0 <= i * FFT_SIZE / points < FFT_SIZE && wave[i] == State().window[i * FFT_SIZE / points]
    {
      wave := [];
      for i := 0 to points
        invariant |wave| == i
        invariant forall j :: 0 <= j < i ==>
          0 <= j * FFT_SIZE / points < FFT_SIZE && wave[j] == Ring()[j * FFT_SIZE / points]
      {
        OffsetInRange(i, points);
        RingAt(buffer[..], writePos, i * FFT_SIZE / points);
        var offset := i * FFT_SIZE / points;
        wave := wave + [buffer[Wrapped(writePos + offset)]];
      }
    }

    /** The loudest buffered sample, in temporal order. */
    method Loudest() returns (loudest: real)
      requires Valid()
      ensures loudest == MaxAbs(Ring())
    {
      loudest := 0.0;
      ghost var ring := Ring();
      assert MaxAbs(ring[..0]) == 0.0;
      hide MaxAbs, RingOf;
      for i := 0 to FFT_SIZE
        invariant loudest == MaxAbs(ring[..i])
      {
        MaxAbsExtends(ring, i);
        RingAt(buffer[..], writePos, i);
        loudest := Max(loudest, Abs(buffer[Wrapped(writePos + i)]));
      }
      assert ring[..FFT_SIZE] == ring;
    }

    method DecayToSilence()
      requires Valid()
      modifies this`peak, bands
      ensures Valid() && State() == old(State()).(spectrum := Decayed(old(State()).spectrum, smoothing, gate))
    {
      hide Times, RingOf;
      ghost var before := bands[..];
      for i := 0 to NUM_BANDS
        invariant forall j :: 0 <= j < i ==> bands[j] == Gated(Times(before[j], smoothing), gate)
        invariant forall j :: i <= j < NUM_BANDS ==> bands[j] == before[j]
        invariant buffer[..] == old(buffer[..]) && peak == old(peak)
      {
        bands[i] := Times(bands[i], smoothing);
        if bands[i] < gate {
          bands[i] := 0.0;
        }
      }
      peak := Times(peak, smoothing);
      if peak < gate {
        peak := 0.0;
      }
      assert bands[..] == Decayed(old(State()).spectrum, smoothing, gate).bands;
    }

    /** Smooths and gates the bands towards `levels`, then the peak. */
    method Approach(levels: seq<real>)
      requires Valid() && |levels| == NUM_BANDS && Nonnegative(levels)
      modifies this`peak, bands
      ensures Valid() && State() == old(State()).(spectrum := Updated(old(State()).spectrum, levels, smoothing, gate))
    {
      ghost var before := bands[..];
      hide Smoothed, MaxAbs, RingOf;
      for i := 0 to NUM_BANDS
        invariant forall j :: 0 <= j < i ==> bands[j] == Gated(Smoothed(before[j], levels[j], smoothing), gate)
        invariant forall j :: i <= j < NUM_BANDS ==> bands[j] == before[j]
        invariant buffer[..] == old(buffer[..]) && peak == old(peak)
      {
        bands[i] := Smoothed(bands[i], levels[i], smoothing);
        if bands[i] < gate {
          bands[i] := 0.0;
        }
      }
      var current := Highest(levels);
      peak := Smoothed(peak, current, smoothing);
      if peak < gate {
        peak := 0.0;
      }
      assert bands[..] == Updated(old(State()).spectrum, levels, smoothing, gate).bands;
    }

    /** One frame. `fft` is what the transform produced, if it succeeded. */
    method Process(fft: Option<seq<real>>, root: real -> real) returns (spectrum: Spectrum)
      requires Valid() && IsRoot(root) && ValidOp(Frame(fft))
      modifies this`peak, bands
      ensures Valid() && State() == Apply(old(State()), Frame(fft), root)
      ensures spectrum == State().spectrum
    {
      hide Decayed, Updated, NewBands;
      var loudest := Loudest();
      if loudest < gate {
        DecayToSilence();
      } else if fft.Some? {
        var levels := Levels(fft.value, root);
        Approach(levels);
      }
      spectrum := Spectrum(bands[..], peak);
    }
  }

  lemma OffsetInRange(i: nat, points: nat)
    requires i < points
    ensures 0 <= i * FFT_SIZE / points < FFT_SIZE
  {
    assert i * FFT_SIZE < points * FFT_SIZE;
    DivBelow(i * FFT_SIZE, points, FFT_SIZE);
  }

  lemma DivBelow(x: nat, d: nat, bound: nat)
    requires d > 0 && x < d * bound
    ensures x / d < bound
  {
  }

  /** The decimated samples are taken in order. */
  lemma OffsetsInOrder(i: nat, j: nat, points: nat)
    requires i <= j && points > 0
    ensures i * FFT_SIZE / points <= j * FFT_SIZE / points
  {
    DivMonotonic(i * FFT_SIZE, j * FFT_SIZE, points);
  }

  lemma DivMonotonic(x: nat, y: nat, d: nat)
    requires d > 0 && x <= y
    ensures x / d <= y / d
  {
    assert y == d * (y / d) + y % d;
    DivBelow(x, d, y / d + 1);
  }

  method Highest(levels: seq<real>) returns (highest: real)
    requires Nonnegative(levels)
    ensures highest == MaxAbs(levels)
  {
    highest := 0.0;
    for i := 0 to |levels|
      invariant highest == MaxAbs(levels[..i])
    {
      MaxAbsExtends(levels, i);
      assert Abs(levels[i]) == levels[i];
      highest := Max(highest, levels[i]);
    }
    assert levels[..|levels|] == levels;
  }

  /** Every band's average, and the loudest bin of them all. */
  method Averages(magnitudes: seq<real>) returns (averages: seq<real>, loudest: real)
    requires |magnitudes| == BIN_COUNT && Nonnegative(magnitudes)
    ensures |averages| == NUM_BANDS && forall b :: 0 <= b < NUM_BANDS ==> averages[b] == BandAverage(magnitudes, b)
    ensures loudest == MaxAbs(magnitudes[1..BIN_COUNT - 1])
  {
    averages := [];
    loudest := 0.0;
    assert magnitudes[1..BAND_EDGES[0]] == [];
    assert MaxAbs(magnitudes[1..BAND_EDGES[0]]) == 0.0;
    hide MaxAbs, Sum, BandAverage;
    for band := 0 to NUM_BANDS
      invariant |averages| == band
      invariant forall b :: 0 <= b < band ==> averages[b] == BandAverage(magnitudes, b)
      invariant loudest == MaxAbs(magnitudes[1..BAND_EDGES[band]])
    {
      EdgesAreOrdered(band);
      var low, high := BAND_EDGES[band], BAND_EDGES[band + 1];
      var sum, highest := AddBins(magnitudes, low, high, loudest);
      AverageOf(magnitudes, band);
      averages := averages + [sum / ((high - low) as real)];
      loudest := highest;
    }
  }

  lemma AverageOf(magnitudes: seq<real>, band: nat)
    requires |magnitudes| == BIN_COUNT && band < NUM_BANDS
    ensures var low, high := BAND_EDGES[band], BAND_EDGES[band + 1];
      1 <= low < high <= BIN_COUNT && BandAverage(magnitudes, band) == Sum(magnitudes[low..high]) / ((high - low) as real)
  {
    EdgesAreOrdered(band);
  }

  /** Sums, averages and scales the bins band by band. */
  method Levels(magnitudes: seq<real>, root: real -> real) returns (levels: seq<real>)
    requires |magnitudes| == BIN_COUNT && Nonnegative(magnitudes) && IsRoot(root)
    ensures levels == NewBands(magnitudes, root) && |levels| == NUM_BANDS && Nonnegative(levels)
  {
    hide MaxAbs, BandAverage, Nonnegative;
    var averages, loudest := Averages(magnitudes);
    levels := [];
    for band := 0 to NUM_BANDS
      invariant |levels| == band
      invariant forall b :: 0 <= b < band ==> levels[b] == BandLevel(magnitudes, root, b)
    {
      var level := averages[band];
      if loudest > 0.0 {
        level := root(averages[band] / loudest * BAND_GAINS[band] * CEILING);
        level := if level < CEILING then level else CEILING;
      }
      levels := levels + [level];
    }
    LevelsNonnegative(magnitudes, root);
  }

  lemma LevelsNonnegative(magnitudes: seq<real>, root: real -> real)
    requires |magnitudes| == BIN_COUNT && Nonnegative(magnitudes) && IsRoot(root)
    ensures Nonnegative(NewBands(magnitudes, root))
  {
    hide BandLevel;
    forall b | 0 <= b < NUM_BANDS
      ensures NewBands(magnitudes, root)[b] >= 0.0
    {
      BandLevelBounded(magnitudes, root, b);
    }
  }

  method AddBins(magnitudes: seq<real>, low: nat, high: nat, loudest: real) returns (sum: real, highest: real)
    requires 1 <= low <= high <= |magnitudes| && Nonnegative(magnitudes) && loudest == MaxAbs(magnitudes[1..low])
    ensures sum == Sum(magnitudes[low..high]) && highest == MaxAbs(magnitudes[1..high])
  {
    sum, highest := 0.0, loudest;
    assert Sum(magnitudes[low..low]) == 0.0;
    hide Sum, MaxAbs;
    for i := low to high
      invariant sum == Sum(magnitudes[low..i]) && highest == MaxAbs(magnitudes[1..i])
    {
      SumExtends(magnitudes, low, i);
      HighestExtends(magnitudes, i);
      sum := sum + magnitudes[i];
      highest := Max(highest, magnitudes[i]);
    }
  }

  lemma HighestExtends(magnitudes: seq<real>, i: nat)
    requires 1 <= i < |magnitudes| && Nonnegative(magnitudes)
    ensures MaxAbs(magnitudes[1..i + 1]) == Max(MaxAbs(magnitudes[1..i]), magnitudes[i])
  {
    assert magnitudes[1..i + 1][..i - 1] == magnitudes[1..i];
    assert Abs(magnitudes[i]) == magnitudes[i];
  }

  lemma SumExtends(values: seq<real>, low: nat, i: nat)
    requires low <= i < |values|
    ensures Sum(values[low..i + 1]) == Sum(values[low..i]) + values[i]
  {
    assert values[low..i + 1][..i - low] == values[low..i];
  }
}
