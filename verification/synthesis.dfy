/** Sample synthesis for one wave: the frequency and amplitude curves are
    looked up at every sample position, converted to Hz and dB, and a
    waveform shape is evaluated at a phase accumulator kept by `modf`.
    Samples whose level is at or below the amplitude floor are silent. */
module Synthesis {
  import opened Wrappers
  import opened Numerics
  import opened Axes
  import opened Bezier
  import opened CurveLookup

  // ---------------------------------------------------------------------------
  // Waveform shapes

  /** The shape selected by `setupWaveformFunc`; `Silent` is the `lambda x: 0`
      used for "Noise", "Custom" and any other type name. */
  datatype Shape = Sine | Square | Triangle | Sawtooth | Silent

  function ShapeOf(kind: string): (s: Shape)
    ensures s == Sine <==> kind == "Sine"
    ensures s == Square <==> kind == "Square"
    ensures s == Triangle <==> kind == "Triangle"
    ensures s == Sawtooth <==> kind == "Sawtooth"
  {
    if kind == "Sine" then Sine
    else if kind == "Square" then Square
    else if kind == "Triangle" then Triangle
    else if kind == "Sawtooth" then Sawtooth
    else Silent
  }

  /** The waveform value at phase `x` (one period is `[0,1)`). */
  function ShapeValue(s: Shape, x: real, m: Maths): real {
    match s
    case Sine => m.sin(Radians(x, m.pi))
    case Square => if x < 0.5 then 1.0 else -1.0
    case Triangle =>
      var u := Frac(x + 0.75);
      if u < 0.5 then 1.0 - 4.0 * u else 4.0 * u - 3.0
    case Sawtooth =>
      var u := Frac(x + 0.5);
      2.0 * u - 1.0
    case Silent => 0.0
  }

  /** The sine shape is the sine of the phase taken as a fraction of a
      turn. */
  lemma SineShape(x: real, m: Maths)
    ensures ShapeValue(Sine, x, m) == m.sin(Radians(x, m.pi))
  {
  }

  /** `x` turns in radians, multiplied in the engine's order. */
  function Radians(x: real, pi: real): real {
    x * 2.0 * pi
  }

  /** The triangle as three straight pieces: rising from 0 to 1 on
      `[0,1/4)`, falling to -1 on `[1/4,3/4)`, rising back to 0. */
  function TrianglePieces(p: real): real {
    if p < 0.25 then 4.0 * p else if p < 0.75 then 2.0 - 4.0 * p else 4.0 * p - 4.0
  }

  /** The sawtooth as two straight pieces of slope 2 with the jump at 1/2. */
  function SawtoothPieces(p: real): real {
    if p < 0.5 then 2.0 * p else 2.0 * p - 2.0
  }

  lemma FracShift(x: real, k: int)
    requires 0.0 <= x - k as real < 1.0 && 0 <= k
    ensures Frac(x) == x - k as real
  {
    assert x.Floor == k;
  }

  /** Over one period the `modf`-based shapes are the piecewise-linear waves
      above, so all shapes stay within [-1,1], the triangle and the sawtooth
      start at 0, and the square is +1 exactly on the first half. */
  lemma ShapesOnePeriod(x: real, m: Maths)
    requires 0.0 <= x < 1.0
    ensures ShapeValue(Triangle, x, m) == TrianglePieces(x)
    ensures ShapeValue(Sawtooth, x, m) == SawtoothPieces(x)
    ensures ShapeValue(Square, x, m) == 1.0 <==> x < 0.5
    ensures ShapeValue(Square, x, m) == -1.0 <==> 0.5 <= x
    ensures ShapeValue(Silent, x, m) == 0.0
    ensures -1.0 <= ShapeValue(Triangle, x, m) <= 1.0
    ensures -1.0 <= ShapeValue(Sawtooth, x, m) <= 1.0
  {
    if x < 0.25 { FracShift(x + 0.75, 0); } else { FracShift(x + 0.75, 1); }
    if x < 0.5 { FracShift(x + 0.5, 0); } else { FracShift(x + 0.5, 1); }
  }

  lemma ShapesAtZero(m: Maths)
    requires Lawful(m)
    ensures ShapeValue(Triangle, 0.0, m) == 0.0
    ensures ShapeValue(Sawtooth, 0.0, m) == 0.0
    ensures ShapeValue(Sine, 0.0, m) == 0.0
    ensures ShapeValue(Square, 0.0, m) == 1.0
  {
    ShapesOnePeriod(0.0, m);
    assert Radians(0.0, m.pi) == 0.0;
  }

  /** Every shape is bounded by one in magnitude over a period. */
  lemma ShapeBounded(s: Shape, x: real, m: Maths)
    requires Lawful(m) && 0.0 <= x < 1.0
    ensures -1.0 <= ShapeValue(s, x, m) <= 1.0
  {
    ShapesOnePeriod(x, m);
  }

  // ---------------------------------------------------------------------------
  // Input records

  /** The wave's 'Waveform' entry: its type name and its phase in degrees
      (stored and compared, but not used by the synthesis). */
  datatype Waveform = Waveform(kind: string, phaseDeg: int)

  /** One entry of 'Waves': the two serialised curves and the waveform. */
  datatype WaveInput = WaveInput(frequency: seq<Triple>, amplitude: seq<Triple>, waveform: Waveform)

  /** The 'Sound' entry: sampling rate and the three serialised axes. */
  datatype SoundInput = SoundInput(
    samplingRateHz: int,
    timeAxis: AxisRecord,
    frequencyAxis: AxisRecord,
    amplitudeAxis: AxisRecord)

  /** `SoundInfo`: the deserialised axes and the quantities derived from them. */
  datatype SoundInfo = SoundInfo(
    input: SoundInput,
    samplingRateHz: int,
    timeAxis: Axis,
    frequencyAxis: Axis,
    amplitudeAxis: Axis,
    totalTimeMs: real,
    minAmplitudeDb: real,
    numSamples: int)

  function MakeSoundInfo(input: SoundInput, m: Maths): (r: Result<SoundInfo, AxisError>)
    ensures r.Ok? <==> (Deserialize(TimeKind, input.timeAxis).Ok?
                        && Deserialize(FrequencyKind, input.frequencyAxis).Ok?
                        && Deserialize(AmplitudeKind, input.amplitudeAxis).Ok?)
    ensures r.Ok? ==> r.value.input == input && r.value.samplingRateHz == input.samplingRateHz
    ensures r.Ok? ==> WellKinded(r.value)
    ensures r.Ok? ==> r.value.totalTimeMs == r.value.timeAxis.totalTimeMs
    ensures r.Ok? ==> r.value.minAmplitudeDb == -r.value.amplitudeAxis.amplitudeRangeDb
    ensures r.Ok? && Lawful(m) ==>
      -0.5 <= r.value.numSamples as real - input.samplingRateHz as real * (r.value.totalTimeMs / 1000.0) <= 0.5
  {
    var time :- Deserialize(TimeKind, input.timeAxis);
    var frequency :- Deserialize(FrequencyKind, input.frequencyAxis);
    var amplitude :- Deserialize(AmplitudeKind, input.amplitudeAxis);
    var total := ConvertTo(time, 1.0, m);
    var floor := ConvertTo(amplitude, 0.0, m);
    var n := m.round(input.samplingRateHz as real * (total / 1000.0));
    Ok(SoundInfo(input, input.samplingRateHz, time, frequency, amplitude, total, floor, n))
  }

  /** Each axis of a sound record has the class its slot names. */
  predicate WellKinded(info: SoundInfo) {
    info.timeAxis.Time? && info.frequencyAxis.Frequency? && info.amplitudeAxis.Amplitude?
  }

  // ---------------------------------------------------------------------------
  // Per-sample reference

  /** Everything `calculateSamples` reads: the two baked curves, the shape and
      the sound parameters. */
  datatype Voice = Voice(frequencyPts: seq<Point>, amplitudePts: seq<Point>, shape: Shape, info: SoundInfo)

  /** The conditions under which the sample loop runs without raising. */
  predicate Renderable(v: Voice) {
    && WellKinded(v.info)
    && |v.frequencyPts| >= 1 && |v.amplitudePts| >= 1
    && v.info.numSamples >= 2
    && Convertible(v.info.frequencyAxis)
    && v.info.samplingRateHz != 0
  }

  /** Normalised position of sample `i`: `i / (num_samples - 1)`. */
  function Position(v: Voice, i: nat): real
    requires Renderable(v)
  {
    i as real / (v.info.numSamples - 1) as real
  }

  function FrequencyAt(v: Voice, i: nat, m: Maths): real
    requires Renderable(v)
  {
    ConvertTo(v.info.frequencyAxis, Lookup(v.frequencyPts, Position(v, i)), m)
  }

  function AmplitudeDbAt(v: Voice, i: nat, m: Maths): real
    requires Renderable(v)
  {
    ConvertTo(v.info.amplitudeAxis, Lookup(v.amplitudePts, Position(v, i)), m)
  }

  /** The phase before sample `i`: starts at 0 and is advanced by
      `freq / rate` after every sample, silent or not. */
  function PhaseAt(v: Voice, i: nat, m: Maths): real
    requires Renderable(v)
  {
    if i == 0 then 0.0
    else Frac(PhaseAt(v, i - 1, m) + FrequencyAt(v, i - 1, m) / v.info.samplingRateHz as real)
  }

  predicate Gated(v: Voice, i: nat, m: Maths)
    requires Renderable(v)
  {
    AmplitudeDbAt(v, i, m) <= v.info.minAmplitudeDb
  }

  /** The linear gain of sample `i`: `10^(dB/20)`. */
  function Level(v: Voice, i: nat, m: Maths): real
    requires Renderable(v)
  {
    m.pow10(AmplitudeDbAt(v, i, m) / 20.0)
  }

  function SampleAt(v: Voice, i: nat, m: Maths): real
    requires Renderable(v)
  {
    if Gated(v, i, m) then 0.0
    else ShapeValue(v.shape, PhaseAt(v, i, m), m) * Level(v, i, m)
  }

  /** `calculateSamples`: its loop, sample by sample. */
  method CalculateSamples(v: Voice, m: Maths) returns (samples: seq<real>)
    requires Renderable(v)
    ensures samples == Samples(v, m)
    ensures |samples| == v.info.numSamples
    ensures forall i :: 0 <= i < |samples| ==> samples[i] == SampleAt(v, i, m)
    ensures forall i :: 0 <= i < |samples| && Gated(v, i, m) ==> samples[i] == 0.0
  {
    samples := SampleLoop(v, m);
    SamplesAt(v, m);
    GatedSilent(v, m);
  }

  /** The loop itself: one `SampleStep` per position, the phase carried
      from each step to the next. */
  method SampleLoop(v: Voice, m: Maths) returns (samples: seq<real>)
    requires Renderable(v)
    ensures samples == Samples(v, m)
  {
    var n := v.info.numSamples;
    samples := [];
    var phase := 0.0;
    var ix := 0;
    while ix < n
      invariant 0 <= ix <= n
      invariant phase == PhaseAt(v, ix, m)
      invariant samples == SamplesUpTo(v, ix, m)
    {
      var value, next := SampleStep(v, ix, phase, m);
      assert SamplesUpTo(v, ix + 1, m) == samples + [value];
      samples := samples + [value];
      phase := next;
      ix := ix + 1;
    }
  }

  /** A gated sample is silent whatever the shape. */
  lemma GatedSilent(v: Voice, m: Maths)
    requires Renderable(v)
    ensures forall i :: 0 <= i < v.info.numSamples && Gated(v, i, m) ==> SampleAt(v, i, m) == 0.0
  {
  }

  /** One iteration of the sample loop: the sample at `ix` and the phase
      carried to the next iteration. */
  method SampleStep(v: Voice, ix: nat, phase: real, m: Maths) returns (value: real, next: real)
    requires Renderable(v) && ix < v.info.numSamples
    requires phase == PhaseAt(v, ix, m)
    ensures value == SampleAt(v, ix, m)
    ensures next == PhaseAt(v, ix + 1, m)
  {
    var x := Position(v, ix);
    var fy := GetY(v.frequencyPts, x);
    var ay := GetY(v.amplitudePts, x);
    var frequencyHz := ConvertTo(v.info.frequencyAxis, fy, m);
    var amplitudeDb := ConvertTo(v.info.amplitudeAxis, ay, m);
    if amplitudeDb > v.info.minAmplitudeDb {
      value := ShapeValue(v.shape, phase, m) * m.pow10(amplitudeDb / 20.0);
      AudibleSample(v, ix, phase, amplitudeDb, m);
    } else {
      value := 0.0;
    }
    next := Frac(phase + frequencyHz / v.info.samplingRateHz as real);
    NextPhase(v, ix, phase, frequencyHz, m);
  }

  lemma AudibleSample(v: Voice, ix: nat, phase: real, amplitudeDb: real, m: Maths)
    requires Renderable(v) && phase == PhaseAt(v, ix, m)
    requires amplitudeDb == AmplitudeDbAt(v, ix, m) > v.info.minAmplitudeDb
    ensures SampleAt(v, ix, m) == ShapeValue(v.shape, phase, m) * m.pow10(amplitudeDb / 20.0)
  {
  }

  lemma NextPhase(v: Voice, ix: nat, phase: real, frequencyHz: real, m: Maths)
    requires Renderable(v) && phase == PhaseAt(v, ix, m)
    requires frequencyHz == FrequencyAt(v, ix, m)
    ensures PhaseAt(v, ix + 1, m) == Frac(phase + frequencyHz / v.info.samplingRateHz as real)
  {
  }

  /** The samples as a sequence: the value `calculateSamples` leaves behind. */
  function Samples(v: Voice, m: Maths): (r: seq<real>)
    requires Renderable(v)
    ensures |r| == v.info.numSamples
  {
    SamplesUpTo(v, v.info.numSamples, m)
  }

  /** The first `k` samples, in order. */
  function SamplesUpTo(v: Voice, k: nat, m: Maths): (r: seq<real>)
    requires Renderable(v) && k <= v.info.numSamples
    ensures |r| == k
  {
    if k == 0 then [] else SamplesUpTo(v, k - 1, m) + [SampleAt(v, k - 1, m)]
  }

  /** Sample `i` of the sequence is the sample the engine computes at `i`. */
  lemma {:induction false} SamplesUpToAt(v: Voice, k: nat, m: Maths)
    requires Renderable(v) && k <= v.info.numSamples
    ensures forall i :: 0 <= i < k ==> SamplesUpTo(v, k, m)[i] == SampleAt(v, i, m)
  {
    if k > 0 {
      SamplesUpToAt(v, k - 1, m);
    }
  }

  lemma SamplesAt(v: Voice, m: Maths)
    requires Renderable(v)
    ensures forall i :: 0 <= i < v.info.numSamples ==> Samples(v, m)[i] == SampleAt(v, i, m)
  {
    SamplesUpToAt(v, v.info.numSamples, m);
  }

  // ---------------------------------------------------------------------------
  // Properties of the synthesis

  /** For a non-negative frequency the phase stays within one period. */
  lemma {:induction false} PhaseInPeriod(v: Voice, i: nat, m: Maths)
    requires Renderable(v) && v.info.samplingRateHz > 0
    requires forall j :: 0 <= j < i ==> FrequencyAt(v, j, m) >= 0.0
    ensures 0.0 <= PhaseAt(v, i, m) < 1.0
  {
    if i > 0 {
      PhaseInPeriod(v, i - 1, m);
      var step := FrequencyAt(v, i - 1, m) / v.info.samplingRateHz as real;
      assert step >= 0.0;
    }
  }

  /** With a positive sampling rate and positive frequency bounds every phase
      lies in [0,1). */
  lemma PhaseInPeriodForPositiveAxis(v: Voice, i: nat, m: Maths)
    requires Lawful(m) && Renderable(v) && v.info.samplingRateHz > 0
    requires v.info.frequencyAxis.Frequency?
    requires v.info.frequencyAxis.minFreqHz > 0.0 && v.info.frequencyAxis.maxFreqHz > 0.0
    ensures 0.0 <= PhaseAt(v, i, m) < 1.0
  {
    forall j | 0 <= j < i
      ensures FrequencyAt(v, j, m) >= 0.0
    {
      var a := v.info.frequencyAxis;
      FrequencyPositive(a.minFreqHz, a.maxFreqHz, Lookup(v.frequencyPts, Position(v, j)), m);
    }
    PhaseInPeriod(v, i, m);
  }

  /** The phase depends only on the frequency curve: changing the amplitude
      curve or the shape never shifts it, because silent samples advance the
      phase like audible ones. */
  lemma {:induction false} PhaseIndependentOfAmplitude(v: Voice, w: Voice, i: nat, m: Maths)
    requires Renderable(v) && Renderable(w)
    requires v.frequencyPts == w.frequencyPts && v.info == w.info
    ensures PhaseAt(v, i, m) == PhaseAt(w, i, m)
  {
    if i > 0 {
      PhaseIndependentOfAmplitude(v, w, i - 1, m);
    }
  }

  /** For an amplitude axis with a positive range, a sample is silent exactly
      when the amplitude curve at its position is at or below the bottom of
      the plot, i.e. at or below the level `convertTo(0)`. */
  lemma GatedIffAtFloor(v: Voice, i: nat, m: Maths)
    requires Renderable(v)
    requires v.info.amplitudeAxis.Amplitude? && v.info.amplitudeAxis.amplitudeRangeDb > 0.0
    requires v.info.minAmplitudeDb == ConvertTo(v.info.amplitudeAxis, 0.0, m)
    ensures Gated(v, i, m) <==> Lookup(v.amplitudePts, Position(v, i)) <= 0.0
  {
    var range := v.info.amplitudeAxis.amplitudeRangeDb;
    var y := Lookup(v.amplitudePts, Position(v, i));
    assert AmplitudeDbAt(v, i, m) - v.info.minAmplitudeDb == y * range;
    if y > 0.0 {
      assert y * range > 0.0;
    } else {
      MulNonNegative(-y, range);
    }
  }

  /** An audible sample never exceeds the level `10^(dB/20)` in magnitude,
      as long as the phase is within a period. */
  lemma SampleWithinLevel(v: Voice, i: nat, m: Maths)
    requires Lawful(m) && Renderable(v)
    requires 0.0 <= PhaseAt(v, i, m) < 1.0
    ensures !Gated(v, i, m) ==> -Level(v, i, m) <= SampleAt(v, i, m) <= Level(v, i, m)
    ensures Gated(v, i, m) ==> SampleAt(v, i, m) == 0.0
  {
    ShapeBounded(v.shape, PhaseAt(v, i, m), m);
    LevelPositive(v, i, m);
    SampleScaled(v, i, m);
  }

  lemma LevelPositive(v: Voice, i: nat, m: Maths)
    requires Lawful(m) && Renderable(v)
    ensures Level(v, i, m) > 0.0
  {
  }

  /** An audible sample is the shape value scaled by the level. */
  lemma SampleScaled(v: Voice, i: nat, m: Maths)
    requires Renderable(v) && Level(v, i, m) > 0.0
    requires -1.0 <= ShapeValue(v.shape, PhaseAt(v, i, m), m) <= 1.0
    ensures !Gated(v, i, m) ==> -Level(v, i, m) <= SampleAt(v, i, m) <= Level(v, i, m)
  {
    if !Gated(v, i, m) {
      ScaledWithin(ShapeValue(v.shape, PhaseAt(v, i, m), m), Level(v, i, m), SampleAt(v, i, m));
    }
  }

  lemma ScaledWithin(s: real, level: real, x: real)
    requires -1.0 <= s <= 1.0 && 0.0 < level && x == s * level
    ensures -level <= x <= level
  {
    MulNonNegative(1.0 - s, level);
    MulNonNegative(1.0 + s, level);
  }

  // ---------------------------------------------------------------------------
  // Rendering a wave from its serialised input, with memoisation

  datatype RenderError =
    | BadCurve(bake: BakeError)  // `Curve(...)` raised
    | SingleSample               // `ix / (num_samples - 1.0)` divides by zero
    | BadFrequencyAxis           // `min/max` or `log10` raised
    | ZeroRate                   // `frequency_hz / sampling_rate_hz` divides by zero

  function BakeCurve(c: seq<Triple>): (r: Result<seq<Point>, RenderError>)
    ensures r.Ok? <==> Bake(c).Ok?
    ensures r.Ok? ==> r.value == Bake(c).value && |r.value| >= PointsPerCurve + 1
  {
    match Bake(c)
    case Ok(pts) => Ok(pts)
    case Err(e) => Err(BadCurve(e))
  }

  /** The body of `Wave.generate` when it recomputes: bake both curves, pick
      the shape, run the sample loop. */
  function Render(wave: WaveInput, info: SoundInfo, m: Maths): (r: Result<seq<real>, RenderError>)
    requires WellKinded(info)
    ensures r.Ok? ==> |r.value| == if info.numSamples < 0 then 0 else info.numSamples
    ensures r.Ok? <==> (Bake(wave.frequency).Ok? && Bake(wave.amplitude).Ok?
                        && (info.numSamples >= 2 ==> Convertible(info.frequencyAxis) && info.samplingRateHz != 0)
                        && info.numSamples != 1)
    ensures r.Ok? && info.numSamples >= 2 ==>
      var v := Voice(Bake(wave.frequency).value, Bake(wave.amplitude).value, ShapeOf(wave.waveform.kind), info);
      Renderable(v) && r.value == Samples(v, m)
  {
    var fpts :- BakeCurve(wave.frequency);
    var apts :- BakeCurve(wave.amplitude);
    var shape := ShapeOf(wave.waveform.kind);
    var n := info.numSamples;
    if n <= 0 then Ok([])
    else if n == 1 then Err(SingleSample)
    else if !Convertible(info.frequencyAxis) then Err(BadFrequencyAxis)
    else if info.samplingRateHz == 0 then Err(ZeroRate)
    else Ok(Samples(Voice(fpts, apts, shape, info), m))
  }

  /** The state `Wave` keeps between calls: nothing yet, or the inputs of the
      last computation and its samples. */
  datatype WaveCache = Empty | Cached(wave: WaveInput, info: SoundInfo, samples: seq<real>)

  /** The cache holds what a fresh computation on its inputs would return. */
  predicate Consistent(cache: WaveCache, m: Maths) {
    cache.Cached? ==> (WellKinded(cache.info) && Render(cache.wave, cache.info, m) == Ok(cache.samples)
                       && MakeSoundInfo(cache.info.input, m) == Ok(cache.info))
  }

  /** `Wave.generate`: recompute only if the wave record or the sound record
      differs from the previous call; otherwise hand back the stored samples. */
  function Generate(cache: WaveCache, wave: WaveInput, info: SoundInfo, m: Maths): (r: Result<(WaveCache, seq<real>), RenderError>)
    requires WellKinded(info)
    ensures cache.Cached? && cache.wave == wave && cache.info.input == info.input ==>
      r == Ok((cache, cache.samples))
    ensures r.Ok? ==> r.value.0.Cached? && r.value.0 == Cached(wave, r.value.0.info, r.value.1) && r.value.0.info.input == info.input
    ensures !(cache.Cached? && cache.wave == wave && cache.info.input == info.input) ==>
      && (r.Ok? <==> Render(wave, info, m).Ok?)
      && (r.Ok? ==> r.value.1 == Render(wave, info, m).value && r.value.0.info == info)
      && (r.Err? ==> r.error == Render(wave, info, m).error)
  {
    if cache.Cached? && cache.wave == wave && cache.info.input == info.input then
      Ok((cache, cache.samples))
    else
      var s :- Render(wave, info, m);
      Ok((Cached(wave, info, s), s))
  }

  /** Memoisation is invisible: from a consistent cache, `Generate` returns
      exactly what a fresh rendering returns, and leaves a consistent cache. */
  lemma MemoTransparent(cache: WaveCache, wave: WaveInput, info: SoundInfo, m: Maths)
    requires Consistent(cache, m)
    requires MakeSoundInfo(info.input, m) == Ok(info)
    requires WellKinded(info)
    ensures Generate(cache, wave, info, m).Ok? <==> Render(wave, info, m).Ok?
    ensures Generate(cache, wave, info, m).Ok? ==>
      Generate(cache, wave, info, m).value.1 == Render(wave, info, m).value
      && Consistent(Generate(cache, wave, info, m).value.0, m)
  {
    if cache.Cached? && cache.wave == wave && cache.info.input == info.input {
      assert cache.info == info;
    }
  }
}
