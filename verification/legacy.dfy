/** The older single-file editor: the same curve chain and WAV layout, a
    grid-step helper, curves that convert their own units, and a sine-only
    synthesiser with a radian phase and no silence gating. */
module Legacy {
  import opened Wrappers
  import opened Numerics
  import opened Axes
  import opened Bezier
  import opened CurveLookup
  import Editor
  import Wav
  import Synthesis

  const MaxGridDistPx: int := 25

  // ---------------------------------------------------------------------------
  // Grid lines

  function Abs(v: int): nat {
    if v < 0 then -v else v
  }

  function AbsReal(v: real): real {
    if v < 0.0 then -v else v
  }

  predicate PowerOfTwo(n: nat) {
    n == 1 || (n >= 2 && n % 2 == 0 && PowerOfTwo(n / 2))
  }

  /** `calculateLines`: halve the step until it is at most 25 pixels, then
      list the rounded grid positions from `p0` and end exactly at `p1`. */
  method CalculateLines(p0: int, p1: int, m: Maths) returns (lines: seq<int>)
    requires Lawful(m)
    ensures |lines| >= 2 && PowerOfTwo(|lines| - 1)
    ensures lines[0] == p0 && lines[|lines| - 1] == p1
    ensures Abs(p1 - p0) <= MaxGridDistPx * (|lines| - 1)
    ensures |lines| == 2 || Abs(p1 - p0) > MaxGridDistPx * ((|lines| - 1) / 2)
    ensures forall i :: 0 <= i < |lines| - 1 ==>
      lines[i] == m.round(GridPosition(p0, i, GridStep(p1 - p0, |lines| - 1)))
  {
    var cnt, step := Halve(p1 - p0);
    RoundOfInteger(m, p0);
    lines := GridLines(p0, p1, step, cnt, m.round);
  }

  /** The rounded positions of the first `cnt` lines, then `p1`. */
  function GridLines(p0: int, p1: int, step: real, cnt: nat, round: real -> int): (lines: seq<int>)
    requires cnt >= 1 && step == GridStep(p1 - p0, cnt) && round(p0 as real) == p0
    ensures |lines| == cnt + 1
    ensures lines[0] == p0 && lines[|lines| - 1] == p1
    ensures forall i :: 0 <= i < |lines| - 1 ==>
      lines[i] == round(GridPosition(p0, i, GridStep(p1 - p0, |lines| - 1)))
  {
    assert GridPosition(p0, 0, step) == p0 as real;
    var grid := seq(cnt, i => round(GridPosition(p0, i, step)));
    assert forall i :: 0 <= i < cnt ==> (grid + [p1])[i] == grid[i];
    grid + [p1]
  }

  /** The distance between neighbouring grid lines when `d` pixels are cut
      into `n` equal intervals. */
  function GridStep(d: int, n: int): real
    requires n > 0
  {
    d as real / n as real
  }

  /** Where line `i` falls before rounding. */
  function GridPosition(p0: int, i: int, step: real): real {
    p0 as real + i as real * step
  }

  /** The halving loop of `calculateLines`: the number of grid intervals and
      the step between them. */
  method Halve(d: int) returns (cnt: nat, step: real)
    ensures cnt >= 1 && PowerOfTwo(cnt)
    ensures step == GridStep(d, cnt)
    ensures Abs(d) <= MaxGridDistPx * cnt
    ensures cnt == 1 || Abs(d) > MaxGridDistPx * (cnt / 2)
  {
    step := d as real;
    cnt := 1;
    while AbsReal(step) > MaxGridDistPx as real
      invariant cnt >= 1 && PowerOfTwo(cnt)
      invariant step == d as real / cnt as real
      invariant cnt == 1 || Abs(d) > MaxGridDistPx * (cnt / 2)
      decreases Abs(d) - MaxGridDistPx * cnt
    {
      StepAbove(d, cnt);
      HalfStep(d, cnt);
      step := step / 2.0;
      cnt := cnt * 2;
    }
    StepAbove(d, cnt);
  }

  lemma HalfStep(d: int, cnt: nat)
    requires cnt >= 1
    ensures (d as real / cnt as real) / 2.0 == d as real / (2 * cnt) as real
    ensures (2 * cnt) / 2 == cnt
  {
  }

  /** A step of `d / cnt` pixels is above the limit exactly when `d` is above
      `cnt` limits. */
  lemma StepAbove(d: int, cnt: nat)
    requires cnt >= 1
    ensures AbsReal(d as real / cnt as real) > MaxGridDistPx as real <==> Abs(d) > MaxGridDistPx * cnt
  {
    var c := cnt as real;
    var q := d as real / c;
    assert q * c == d as real;
    if d >= 0 {
      assert q >= 0.0;
      assert q > 25.0 <==> q * c > 25.0 * c;
    } else {
      assert q < 0.0;
      assert -q > 25.0 <==> -q * c > 25.0 * c;
    }
  }

  // ---------------------------------------------------------------------------
  // Curves

  /** `Curve`: the segments taken from a panel and the panel's two unit
      conversions. */
  datatype LegacyCurve = LegacyCurve(segments: seq<Segment>, totalTimeMs: real, yAxis: Axis)

  /** `Curve(panel)`: the curves of the panel's chain. */
  function CurveOf(chain: seq<Editor.Body>, totalTimeMs: real, yAxis: Axis): (cv: LegacyCurve)
    requires Editor.Valid(chain)
    ensures |cv.segments| == |chain| - 1 >= 1
  {
    Editor.ValidLinked(chain);
    LegacyCurve(Editor.GetCurves(chain), totalTimeMs, yAxis)
  }

  datatype LegacyError =
    | NoSegments       // `generate` reads `pt4` after a loop without iterations
    | NegativeLength   // the header overruns a buffer sized for a negative count
    | SingleSample     // `i / (num_samples - 1)` with one sample
    | ZeroTotalTime    // `t / total_time_ms` in a curve's time conversion
    | FrequencyDomain  // `log10(min / max)` raises
    | ZeroRate         // `frequency / sample_freq_hz` with a rate rounding to 0

  /** `Curve.generate`: the polyline of its segments. */
  function Points(cv: LegacyCurve): (r: Result<seq<Point>, LegacyError>)
    ensures r.Ok? <==> |cv.segments| >= 1
    ensures r.Ok? ==> |r.value| == PointsPerCurve * |cv.segments| + 1
  {
    if |cv.segments| == 0 then Err(NoSegments) else Ok(Polyline(cv.segments))
  }

  /** The older curve bakes the same polyline as the serialised triples of
      its chain do in the newer engine. */
  lemma CurveOfBakesLikeTriples(chain: seq<Editor.Body>, totalTimeMs: real, yAxis: Axis)
    requires Editor.Valid(chain)
    ensures Points(CurveOf(chain, totalTimeMs, yAxis)).Ok? && Bake(Editor.Triples(chain)).Ok?
    ensures Points(CurveOf(chain, totalTimeMs, yAxis)).value == Bake(Editor.Triples(chain)).value
  {
    Editor.CurvesAreSegments(chain);
  }

  /** `Curve.getY`: milliseconds to [0,1] by the total time, the baked
      lookup, then the curve's y conversion. */
  function GetY(cv: LegacyCurve, pts: seq<Point>, t: real, m: Maths): (r: Result<real, LegacyError>)
    requires |pts| >= 1
    ensures r.Ok? <==> cv.totalTimeMs != 0.0 && Convertible(cv.yAxis)
    ensures r.Ok? && Sorted(pts) ==>
      r.value == ConvertTo(cv.yAxis, Interpolant(pts, t / cv.totalTimeMs), m)
    ensures r.Ok? && Sorted(pts) && t / cv.totalTimeMs < pts[0].x ==>
      r.value == ConvertTo(cv.yAxis, pts[0].y, m)
    ensures r.Ok? && Sorted(pts) && pts[|pts| - 1].x <= t / cv.totalTimeMs ==>
      r.value == ConvertTo(cv.yAxis, pts[|pts| - 1].y, m)
  {
    if cv.totalTimeMs == 0.0 then Err(ZeroTotalTime)
    else if !Convertible(cv.yAxis) then Err(FrequencyDomain)
    else
      var q := t / cv.totalTimeMs;
      if Sorted(pts) then
        LookupSorted(pts, q);
        LookupClampsOutside(pts, q);
        Ok(ConvertTo(cv.yAxis, Lookup(pts, q), m))
      else Ok(ConvertTo(cv.yAxis, Lookup(pts, q), m))
  }

  /** Time `x * total` reads the curve at `x`: the two time conversions are
      inverse. */
  lemma GetYAtScaledTime(cv: LegacyCurve, pts: seq<Point>, x: real, m: Maths)
    requires |pts| >= 1 && cv.totalTimeMs != 0.0 && Convertible(cv.yAxis)
    ensures GetY(cv, pts, x * cv.totalTimeMs, m) == Ok(ConvertTo(cv.yAxis, Lookup(pts, x), m))
  {
    assert x * cv.totalTimeMs / cv.totalTimeMs == x;
  }

  // ---------------------------------------------------------------------------
  // Samples

  /** `Wave`: the two curves and what `__init__` derives: the rounded rate,
      the total time of the frequency curve (`getMaxX`) and the sample count,
      which is computed from the unrounded rate; then the two polylines
      `generate` bakes. */
  datatype LegacyWave = LegacyWave(
    frequency: LegacyCurve,
    amplitude: LegacyCurve,
    sampleFreqHz: int,
    totalTimeMs: real,
    numSamples: int,
    frequencyPts: seq<Point>,
    amplitudePts: seq<Point>)

  /** `Wave.__init__`. */
  function MakeWave(frequency: LegacyCurve, amplitude: LegacyCurve, sampleFreqHz: real, m: Maths): (w: LegacyWave)
    ensures w.frequency == frequency && w.amplitude == amplitude
    ensures w.totalTimeMs == frequency.totalTimeMs
    ensures Lawful(m) ==> -0.5 <= w.sampleFreqHz as real - sampleFreqHz <= 0.5
    ensures Lawful(m) ==> -0.5 <= w.numSamples as real - sampleFreqHz * (frequency.totalTimeMs / 1000.0) <= 0.5
  {
    var total := 1.0 * frequency.totalTimeMs;
    LegacyWave(frequency, amplitude, m.round(sampleFreqHz), total, m.round(sampleFreqHz * (total / 1000.0)), [], [])
  }

  /** The first step of `Wave.generate`: bake both curves. */
  function BakeCurves(w: LegacyWave): (r: Result<LegacyWave, LegacyError>)
    ensures r.Ok? <==> |w.frequency.segments| >= 1 && |w.amplitude.segments| >= 1
    ensures r.Ok? ==> r.value.(frequencyPts := [], amplitudePts := []) == w.(frequencyPts := [], amplitudePts := [])
    ensures r.Ok? ==> Points(w.frequency) == Ok(r.value.frequencyPts) && Points(w.amplitude) == Ok(r.value.amplitudePts)
  {
    var f :- Points(w.frequency);
    var a :- Points(w.amplitude);
    Ok(w.(frequencyPts := f, amplitudePts := a))
  }

  /** The conditions under which `calculateWave` runs without raising. */
  predicate Samplable(w: LegacyWave, m: Maths) {
    && |w.frequencyPts| >= 1 && |w.amplitudePts| >= 1
    && w.numSamples >= 2
    && w.frequency.totalTimeMs != 0.0 && w.amplitude.totalTimeMs != 0.0
    && Convertible(w.frequency.yAxis) && Convertible(w.amplitude.yAxis)
    && w.sampleFreqHz != 0
  }

  /** The time of sample `i` in milliseconds. */
  function TimeAt(w: LegacyWave, i: nat, m: Maths): real
    requires Samplable(w, m)
  {
    w.totalTimeMs * (i as real / (w.numSamples - 1) as real)
  }

  function FrequencyAt(w: LegacyWave, i: nat, m: Maths): real
    requires Samplable(w, m)
  {
    ConvertTo(w.frequency.yAxis, Lookup(w.frequencyPts, TimeAt(w, i, m) / w.frequency.totalTimeMs), m)
  }

  function AmplitudeDbAt(w: LegacyWave, i: nat, m: Maths): real
    requires Samplable(w, m)
  {
    ConvertTo(w.amplitude.yAxis, Lookup(w.amplitudePts, TimeAt(w, i, m) / w.amplitude.totalTimeMs), m)
  }

  function TwoPi(m: Maths): real {
    2.0 * m.pi
  }

  /** How far every sample advances the phase, in turns: `f / rate`. */
  function TurnSteps(w: LegacyWave, m: Maths): (us: seq<real>)
    requires Samplable(w, m)
    ensures |us| == w.numSamples
    ensures forall j :: 0 <= j < |us| ==> us[j] == FrequencyAt(w, j, m) / w.sampleFreqHz as real
  {
    seq(w.numSamples, j requires 0 <= j => FrequencyAt(w, j, m) / w.sampleFreqHz as real)
  }

  /** The same advances in radians: `2π f / rate`. */
  function RadianSteps(w: LegacyWave, m: Maths): (ds: seq<real>)
    requires Samplable(w, m)
    ensures |ds| == w.numSamples
    ensures forall j :: 0 <= j < |ds| ==> ds[j] == TwoPi(m) * (FrequencyAt(w, j, m) / w.sampleFreqHz as real)
  {
    seq(w.numSamples, j requires 0 <= j => TwoPi(m) * (FrequencyAt(w, j, m) / w.sampleFreqHz as real))
  }

  /** `if x >= 2π: x -= 2π`. */
  function Wrap(y: real, tp: real): real {
    if y >= tp then y - tp else y
  }

  /** The radian accumulator after `i` advances `ds`, each followed by a
      single subtraction of the period `tp`. */
  function RadPhase(ds: seq<real>, tp: real, i: nat): real
    requires i <= |ds|
  {
    if i == 0 then 0.0 else Wrap(RadPhase(ds, tp, i - 1) + ds[i - 1], tp)
  }

  /** The phase in turns the newer engine keeps, after `i` advances `us`,
      each followed by `frac`; the engine's `frac` is `modf`, that is
      `Frac`. */
  function TurnPhase(us: seq<real>, i: nat, frac: real -> real): real
    requires i <= |us|
  {
    if i == 0 then 0.0 else frac(TurnPhase(us, i - 1, frac) + us[i - 1])
  }

  /** The radian phase before sample `i`. */
  function PhaseAt(w: LegacyWave, i: nat, m: Maths): real
    requires Samplable(w, m) && i <= w.numSamples
  {
    RadPhase(RadianSteps(w, m), TwoPi(m), i)
  }

  /** Sample `i`: the sine of the phase times the linear gain; no gating. */
  function SampleAt(w: LegacyWave, i: nat, m: Maths): real
    requires Samplable(w, m) && i < w.numSamples
  {
    m.sin(PhaseAt(w, i, m)) * m.pow10(AmplitudeDbAt(w, i, m) / 20.0)
  }

  /** `calculateWave`: the sample loop of the older `Wave`. */
  method CalculateWave(w: LegacyWave, m: Maths) returns (samples: seq<real>)
    requires Samplable(w, m)
    ensures |samples| == w.numSamples
    ensures forall i :: 0 <= i < |samples| ==> samples[i] == SampleAt(w, i, m)
  {
    var n := w.numSamples;
    samples := [];
    var x := 0.0;
    var i := 0;
    while i < n
      invariant 0 <= i <= n
      invariant |samples| == i
      invariant x == PhaseAt(w, i, m)
      invariant forall j :: 0 <= j < i ==> samples[j] == SampleAt(w, j, m)
    {
      var value, next := WaveStep(w, i, x, m);
      samples := samples + [value];
      x := next;
      i := i + 1;
    }
  }

  /** One iteration of `calculateWave`. */
  method WaveStep(w: LegacyWave, i: nat, x: real, m: Maths) returns (value: real, next: real)
    requires Samplable(w, m) && i < w.numSamples
    requires x == PhaseAt(w, i, m)
    ensures value == SampleAt(w, i, m)
    ensures next == PhaseAt(w, i + 1, m)
  {
    var t := TimeAt(w, i, m);
    var fy := CurveLookup.GetY(w.frequencyPts, t / w.frequency.totalTimeMs);
    var ay := CurveLookup.GetY(w.amplitudePts, t / w.amplitude.totalTimeMs);
    var frequencyHz := ConvertTo(w.frequency.yAxis, fy, m);
    var amplitudeDb := ConvertTo(w.amplitude.yAxis, ay, m);
    value := m.sin(x) * m.pow10(amplitudeDb / 20.0);
    SampleFromParts(w, i, x, amplitudeDb, m);
    next := Advance(x, TwoPi(m) * (frequencyHz / w.sampleFreqHz as real), TwoPi(m));
    NextRadians(w, i, x, frequencyHz, m);
  }

  /** The accumulator update: add the step, subtract one period once if the
      sum reached it. */
  method Advance(x: real, step: real, period: real) returns (next: real)
    ensures next == Wrap(x + step, period)
    ensures 0.0 <= x < period && 0.0 <= step <= period ==> 0.0 <= next < period
  {
    next := x + step;
    if next >= period {
      next := next - period;
    }
  }

  lemma SampleFromParts(w: LegacyWave, i: nat, x: real, amplitudeDb: real, m: Maths)
    requires Samplable(w, m) && i < w.numSamples && x == PhaseAt(w, i, m)
    requires amplitudeDb == AmplitudeDbAt(w, i, m)
    ensures SampleAt(w, i, m) == m.sin(x) * m.pow10(amplitudeDb / 20.0)
  {
  }

  lemma NextRadians(w: LegacyWave, i: nat, x: real, frequencyHz: real, m: Maths)
    requires Samplable(w, m) && i < w.numSamples && x == PhaseAt(w, i, m)
    requires frequencyHz == FrequencyAt(w, i, m)
    ensures PhaseAt(w, i + 1, m) == Wrap(x + TwoPi(m) * (frequencyHz / w.sampleFreqHz as real), TwoPi(m))
  {
    assert TwoPi(m) * (frequencyHz / w.sampleFreqHz as real) == RadianSteps(w, m)[i];
  }

  /** No sample is silenced: wherever the sine is not zero the sample is
      not zero either, even at the bottom of the amplitude plot. */
  lemma NoGating(w: LegacyWave, i: nat, m: Maths)
    requires Samplable(w, m) && Lawful(m) && i < w.numSamples
    requires m.sin(PhaseAt(w, i, m)) != 0.0
    ensures SampleAt(w, i, m) != 0.0
  {
    assert m.pow10(AmplitudeDbAt(w, i, m) / 20.0) > 0.0;
  }

  /** A ratio of a non-negative number to a larger one lies in [0,1]. */
  lemma UnitRatio(f: real, r: real)
    requires r > 0.0 && 0.0 <= f <= r
    ensures 0.0 <= f / r <= 1.0
  {
  }

  lemma PositiveGap(u: real, v: real)
    requires u > 0.0 && v > 0.0
    ensures u * v > 0.0
  {
  }

  /** The only facts about `modf` the scaling proof needs: on [0,2) it
      removes nothing below 1 and exactly 1 above. */
  ghost predicate WrapsOnce(frac: real -> real) {
    && (forall q :: 0.0 <= q < 1.0 ==> frac(q) == q)
    && (forall q :: 1.0 <= q < 2.0 ==> frac(q) == q - 1.0)
  }

  lemma FracWrapsOnce()
    ensures WrapsOnce(Frac)
  {
    forall q | 0.0 <= q < 1.0
      ensures Frac(q) == q
    {
      Synthesis.FracShift(q, 0);
    }
    forall q | 1.0 <= q < 2.0
      ensures Frac(q) == q - 1.0
    {
      Synthesis.FracShift(q, 1);
    }
  }

  /** One subtraction of the period `tp` from `tp * q`, for `q` in [0,2),
      is `tp` times `q` without its whole turn. */
  lemma WrapScaled(z: real, q: real, tp: real)
    requires tp > 0.0 && 0.0 <= q < 2.0 && z == tp * q
    ensures q < 1.0 ==> Wrap(z, tp) == tp * q
    ensures q >= 1.0 ==> Wrap(z, tp) == tp * (q - 1.0)
  {
    if q >= 1.0 {
      MulNonNegative(tp, q - 1.0);
      assert z - tp == tp * (q - 1.0);
    } else {
      PositiveGap(tp, 1.0 - q);
      assert tp - z == tp * (1.0 - q);
    }
  }

  /** One step of both accumulators: wrapping `scale(p) + scale(s)` once is
      `scale` of the next phase in turns. `scale` is multiplication by the
      period, passed as a function so that the induction over the steps
      stays free of products. */
  lemma ScaledWrap(x: real, y: real, p: real, s: real, tp: real, frac: real -> real, scale: real -> real)
    requires tp > 0.0 && 0.0 <= p < 1.0 && 0.0 <= s <= 1.0
    requires WrapsOnce(frac) && scale == (a => tp * a)
    requires x == scale(p) && y == scale(s)
    ensures Wrap(x + y, tp) == scale(frac(p + s))
    ensures 0.0 <= frac(p + s) < 1.0
  {
    var q := p + s;
    assert x + y == tp * q;
    WrapScaled(x + y, q, tp);
  }

  /** Step by step, the radian accumulator is exactly `scale` of the phase
      in turns, which stays in [0, 1), while every advance is at most one
      turn. */
  lemma {:induction false} RadPhaseIsTurns(ds: seq<real>, us: seq<real>, tp: real, i: nat, frac: real -> real, scale: real -> real)
    requires i <= |ds| && i <= |us| && tp > 0.0
    requires WrapsOnce(frac) && scale == (a => tp * a)
    requires forall j :: 0 <= j < i ==> 0.0 <= us[j] <= 1.0 && ds[j] == scale(us[j])
    ensures 0.0 <= TurnPhase(us, i, frac) < 1.0
    ensures RadPhase(ds, tp, i) == scale(TurnPhase(us, i, frac))
  {
    if i > 0 {
      RadPhaseIsTurns(ds, us, tp, i - 1, frac, scale);
      ScaledWrap(RadPhase(ds, tp, i - 1), ds[i - 1], TurnPhase(us, i - 1, frac), us[i - 1], tp, frac, scale);
    }
  }

  /** While no frequency exceeds the rate, every advance is at most one
      turn and its radian form is 2π times it. */
  lemma StepsScale(w: LegacyWave, i: nat, m: Maths)
    requires Samplable(w, m) && w.sampleFreqHz > 0 && i <= w.numSamples
    requires forall j :: 0 <= j < i ==> 0.0 <= FrequencyAt(w, j, m) <= w.sampleFreqHz as real
    ensures forall j :: 0 <= j < i ==> 0.0 <= TurnSteps(w, m)[j] <= 1.0 && RadianSteps(w, m)[j] == TwoPi(m) * TurnSteps(w, m)[j]
  {
    forall j | 0 <= j < i
      ensures 0.0 <= TurnSteps(w, m)[j] <= 1.0
    {
      UnitRatio(FrequencyAt(w, j, m), w.sampleFreqHz as real);
    }
  }

  /** The products of `StepsScale` as applications of `scale`. */
  lemma StepsAsScale(ds: seq<real>, us: seq<real>, tp: real, i: nat, scale: real -> real)
    requires i <= |ds| && i <= |us| && scale == (a => tp * a)
    requires forall j :: 0 <= j < i ==> ds[j] == tp * us[j]
    ensures forall j :: 0 <= j < i ==> ds[j] == scale(us[j])
  {
  }

  /** While no frequency exceeds the rate, the radian phase is exactly 2π
      times (`scale`) the phase in turns kept by any wrap that, like `modf`
      (`FracWrapsOnce`), wraps [0,2) once. */
  lemma RadiansAreTurns(w: LegacyWave, i: nat, m: Maths, frac: real -> real, scale: real -> real)
    requires Samplable(w, m) && m.pi > 0.0 && w.sampleFreqHz > 0 && i <= w.numSamples
    requires forall j :: 0 <= j < i ==> 0.0 <= FrequencyAt(w, j, m) <= w.sampleFreqHz as real
    requires WrapsOnce(frac) && scale == (a => TwoPi(m) * a)
    ensures 0.0 <= TurnPhase(TurnSteps(w, m), i, frac) < 1.0
    ensures PhaseAt(w, i, m) == scale(TurnPhase(TurnSteps(w, m), i, frac))
  {
    StepsScale(w, i, m);
    StepsAsScale(RadianSteps(w, m), TurnSteps(w, m), TwoPi(m), i, scale);
    RadPhaseIsTurns(RadianSteps(w, m), TurnSteps(w, m), TwoPi(m), i, frac, scale);
  }

  /** Hence, while no frequency exceeds the rate, the phase of the sine
      stays in [0, 2π). */
  lemma PhaseInRange(w: LegacyWave, i: nat, m: Maths)
    requires Samplable(w, m) && m.pi > 0.0 && w.sampleFreqHz > 0 && i <= w.numSamples
    requires forall j :: 0 <= j < i ==> 0.0 <= FrequencyAt(w, j, m) <= w.sampleFreqHz as real
    ensures 0.0 <= PhaseAt(w, i, m) < TwoPi(m)
  {
    var frac, scale := q => Wrap(q, 1.0), a => TwoPi(m) * a;
    assert WrapsOnce(frac);
    RadiansAreTurns(w, i, m, frac, scale);
    InPeriod(PhaseAt(w, i, m), TurnPhase(TurnSteps(w, m), i, frac), TwoPi(m), scale);
  }

  /** `tp` times a phase in [0,1) lies in [0, tp). */
  lemma InPeriod(x: real, t: real, tp: real, scale: real -> real)
    requires tp > 0.0 && 0.0 <= t < 1.0 && scale == (a => tp * a) && x == scale(t)
    ensures 0.0 <= x < tp
  {
    assert x == tp * t;
    MulNonNegative(tp, t);
    PositiveGap(tp, 1.0 - t);
    assert tp - x == tp * (1.0 - t);
  }

  /** A sample whose phase is 2π times `t` is the newer engine's sine shape
      at `t` turns times the gain, but never gated. With `RadiansAreTurns`,
      while no frequency exceeds the rate, every sample is the sine shape at
      the phase in turns the newer engine keeps. */
  lemma SampleOfTurns(w: LegacyWave, i: nat, m: Maths, t: real, scale: real -> real)
    requires Samplable(w, m) && i < w.numSamples
    requires scale == (a => TwoPi(m) * a) && PhaseAt(w, i, m) == scale(t)
    ensures SampleAt(w, i, m) == Synthesis.ShapeValue(Synthesis.Sine, t, m) * m.pow10(AmplitudeDbAt(w, i, m) / 20.0)
  {
    SineOfTurns(PhaseAt(w, i, m), t, m, scale);
  }

  /** The sine of `2π t` is the newer engine's sine shape at `t` turns,
      which multiplies in another order. */
  lemma SineOfTurns(ph: real, t: real, m: Maths, scale: real -> real)
    requires scale == (a => TwoPi(m) * a) && ph == scale(t)
    ensures m.sin(ph) == Synthesis.ShapeValue(Synthesis.Sine, t, m)
  {
    Commute(ph, t, m.pi);
    Synthesis.SineShape(t, m);
  }

  lemma Commute(ph: real, t: real, pi: real)
    requires ph == 2.0 * pi * t
    ensures ph == Synthesis.Radians(t, pi)
  {
  }

  // ---------------------------------------------------------------------------
  // The file

  /** The quantized samples of a samplable wave. */
  function Quantized(w: LegacyWave, m: Maths): (qs: seq<int>)
    requires Samplable(w, m)
    ensures |qs| == w.numSamples
    ensures forall i :: 0 <= i < |qs| ==> qs[i] == Wav.Quantize(SampleAt(w, i, m), m)
    ensures forall i :: 0 <= i < |qs| ==> Wav.MinInt16 <= qs[i] <= Wav.MaxInt16
    ensures Lawful(m) ==> forall i :: 0 <= i < |qs| && -1.0 <= SampleAt(w, i, m) <= 1.0 ==>
      qs[i] == m.round(32767.0 * SampleAt(w, i, m))
  {
    seq(w.numSamples, i requires 0 <= i < w.numSamples => Wav.Quantize(SampleAt(w, i, m), m))
  }

  /** `Wave.generate`: bake both curves, lay out the header with the rounded
      rate, then the quantized samples. */
  function Generate(w: LegacyWave, m: Maths): (r: Result<seq<Wav.Byte>, LegacyError>)
    ensures r.Ok? <==> (&& BakeCurves(w).Ok?
                        && (w.numSamples == 0 || Samplable(BakeCurves(w).value, m)))
    ensures r.Ok? ==> |r.value| == Wav.HeaderSize + 2 * w.numSamples
    ensures r.Ok? ==> r.value[..Wav.HeaderSize] == Wav.Header(w.sampleFreqHz, w.numSamples)
  {
    match BakeCurves(w)
    case Err(e) => Err(e)
    case Ok(b) =>
      var n := b.numSamples;
      if n < 0 then Err(NegativeLength)
      else if n == 0 then Ok(Wav.EncodePcm(b.sampleFreqHz, []))
      else if n == 1 then Err(SingleSample)
      else if b.frequency.totalTimeMs == 0.0 then Err(ZeroTotalTime)
      else if !Convertible(b.frequency.yAxis) then Err(FrequencyDomain)
      else if b.amplitude.totalTimeMs == 0.0 then Err(ZeroTotalTime)
      else if !Convertible(b.amplitude.yAxis) then Err(FrequencyDomain)
      else if b.sampleFreqHz == 0 then Err(ZeroRate)
      else Ok(Wav.EncodePcm(b.sampleFreqHz, Quantized(b, m)))
  }

  /** The conditions on a wave's own fields under which its file is written
      with two or more samples: both curves have a segment, and no division
      or logarithm in the sample loop raises. */
  predicate Generatable(w: LegacyWave) {
    && |w.frequency.segments| >= 1 && |w.amplitude.segments| >= 1
    && w.numSamples >= 2
    && w.frequency.totalTimeMs != 0.0 && w.amplitude.totalTimeMs != 0.0
    && Convertible(w.frequency.yAxis) && Convertible(w.amplitude.yAxis)
    && w.sampleFreqHz != 0
  }

  /** A generated file reads back as the rounded rate and the quantized
      samples, when they fit their fields. */
  lemma GeneratedParses(w: LegacyWave, m: Maths)
    requires Generatable(w)
    requires 0 <= w.sampleFreqHz && 2 * w.sampleFreqHz < Wav.TwoTo32
    requires (Wav.HeaderSize - 8) + 2 * w.numSamples < Wav.TwoTo32
    ensures Generate(w, m).Ok?
    ensures Wav.ParseWav(Generate(w, m).value) == Some((w.sampleFreqHz, Quantized(BakeCurves(w).value, m)))
  {
    var b := BakeCurves(w).value;
    assert b.sampleFreqHz == w.sampleFreqHz && b.numSamples == w.numSamples;
    assert Samplable(b, m);
    Wav.EncodeParseRoundTrip(b.sampleFreqHz, Quantized(b, m));
  }

  /** The player of the older thread: every PLAY and PREPARE builds a fresh
      `Wave`, so it carries no state between commands. */
  function Render(m: Maths): ((), LegacyWave) -> Result<((), seq<Wav.Byte>), LegacyError> {
    (u: (), w: LegacyWave) =>
      match Generate(w, m)
      case Err(e) => Err(e)
      case Ok(b) => Ok(((), b))
  }
}
