/** Unit conversions between the normalised editing coordinate in [0,1] and a
    physical unit: time in milliseconds, frequency in Hz (logarithmic) and
    amplitude in dB. Each axis also serialises to and from a keyed record. */
module Axes {
  import opened Wrappers
  import opened Numerics

  datatype Axis =
    | Time(totalTimeMs: real)
    | Frequency(minFreqHz: real, maxFreqHz: real)
    | Amplitude(amplitudeRangeDb: real)

  datatype AxisKind = TimeKind | FrequencyKind | AmplitudeKind

  /** A serialised axis: the JSON object the front end stores. */
  type AxisRecord = map<string, real>

  /** The argument list given to an axis constructor: either positional
      numbers (passed on to `set`) or one record (passed to `deserialize`). */
  datatype AxisArgs = Positional(values: seq<real>) | FromRecord(fields: AxisRecord)

  datatype AxisError = WrongArity(expected: nat, given: nat) | MissingKey(key: string)

  const TimeKey := "Total time [ms]"
  const MinFrequencyKey := "Min frequency [Hz]"
  const MaxFrequencyKey := "Max frequency [Hz]"
  const AmplitudeRangeKey := "Amplitude range [dB]"

  function KindOf(a: Axis): AxisKind {
    match a
    case Time(_) => TimeKind
    case Frequency(_, _) => FrequencyKind
    case Amplitude(_) => AmplitudeKind
  }

  /** Number of positional arguments `set` takes for each kind. */
  function Arity(kind: AxisKind): nat {
    match kind
    case TimeKind => 1
    case FrequencyKind => 2
    case AmplitudeKind => 1
  }

  /** `set(*args)`: a Python call with the wrong number of arguments raises. */
  function Set(kind: AxisKind, values: seq<real>): (r: Result<Axis, AxisError>)
    ensures r.Ok? <==> |values| == Arity(kind)
    ensures r.Ok? ==> KindOf(r.value) == kind && Fields(r.value) == values
  {
    if |values| != Arity(kind) then Err(WrongArity(Arity(kind), |values|))
    else match kind
      case TimeKind => Ok(Time(values[0]))
      case FrequencyKind => Ok(Frequency(values[0], values[1]))
      case AmplitudeKind => Ok(Amplitude(values[0]))
  }

  /** The values `set` was called with, in argument order. */
  function Fields(a: Axis): (r: seq<real>)
    ensures |r| == Arity(KindOf(a))
  {
    match a
    case Time(t) => [t]
    case Frequency(lo, hi) => [lo, hi]
    case Amplitude(range) => [range]
  }

  function Serialize(a: Axis): (r: AxisRecord)
    ensures KindOf(a) == TimeKind ==> r.Keys == {TimeKey}
    ensures KindOf(a) == FrequencyKind ==> r.Keys == {MinFrequencyKey, MaxFrequencyKey}
    ensures KindOf(a) == AmplitudeKind ==> r.Keys == {AmplitudeRangeKey}
  {
    match a
    case Time(t) => map[TimeKey := t]
    case Frequency(lo, hi) => map[MinFrequencyKey := lo, MaxFrequencyKey := hi]
    case Amplitude(range) => map[AmplitudeRangeKey := range]
  }

  /** `deserialize(input)`: a missing key raises `KeyError`; extra keys are ignored. */
  function Deserialize(kind: AxisKind, rec: AxisRecord): (r: Result<Axis, AxisError>)
    ensures r.Ok? ==> KindOf(r.value) == kind
    ensures r.Ok? ==> forall k :: k in Serialize(r.value) ==> k in rec && rec[k] == Serialize(r.value)[k]
    ensures r.Err? ==> r.error.MissingKey? && r.error.key !in rec
  {
    match kind
    case TimeKind =>
      if TimeKey !in rec then Err(MissingKey(TimeKey)) else Ok(Time(rec[TimeKey]))
    case FrequencyKind =>
      if MinFrequencyKey !in rec then Err(MissingKey(MinFrequencyKey))
      else if MaxFrequencyKey !in rec then Err(MissingKey(MaxFrequencyKey))
      else Ok(Frequency(rec[MinFrequencyKey], rec[MaxFrequencyKey]))
    case AmplitudeKind =>
      if AmplitudeRangeKey !in rec then Err(MissingKey(AmplitudeRangeKey))
      else Ok(Amplitude(rec[AmplitudeRangeKey]))
  }

  /** Serialising an axis and reading it back yields the same axis. */
  lemma SerializeRoundTrip(a: Axis)
    ensures Deserialize(KindOf(a), Serialize(a)) == Ok(a)
  {
  }

  /** A successful read, written back, gives exactly the keys read. */
  lemma DeserializeThenSerialize(kind: AxisKind, rec: AxisRecord)
    requires Deserialize(kind, rec).Ok?
    ensures Serialize(Deserialize(kind, rec).value) == map k | k in rec && k in Serialize(Deserialize(kind, rec).value) :: rec[k]
  {
  }

  /** The `Axis.__init__` dispatch: one record argument is deserialised, any
      other non-empty argument list goes to `set`, and no arguments leave the
      axis without fields (`None` here). */
  function Construct(kind: AxisKind, args: AxisArgs): (r: Result<Option<Axis>, AxisError>)
    ensures args.FromRecord? ==> r == (match Deserialize(kind, args.fields)
                                      case Ok(a) => Ok(Some(a))
                                      case Err(e) => Err(e))
    ensures args.Positional? && |args.values| == 0 ==> r == Ok(None)
    ensures args.Positional? && |args.values| > 0 ==>
      (r.Ok? <==> |args.values| == Arity(kind)) &&
      (r.Ok? ==> r.value.Some? && Fields(r.value.value) == args.values && KindOf(r.value.value) == kind)
  {
    match args
    case FromRecord(rec) =>
      var a :- Deserialize(kind, rec);
      Ok(Some(a))
    case Positional(values) =>
      if |values| == 0 then Ok(None)
      else
        var a :- Set(kind, values);
        Ok(Some(a))
  }

  /** The frequency conversion raises unless `min/max` is a positive quotient
      (division by zero, or `log10` of a non-positive number). */
  predicate Convertible(a: Axis) {
    a.Frequency? ==> a.maxFreqHz != 0.0 && a.minFreqHz / a.maxFreqHz > 0.0
  }

  /** `convertTo`: normalised coordinate to physical unit. */
  function ConvertTo(a: Axis, v: real, m: Maths): real
    requires Convertible(a)
  {
    match a
    case Time(total) => v * total
    case Frequency(lo, hi) => m.pow10((1.0 - v) * m.log10(lo / hi)) * hi
    case Amplitude(range) => (v - 1.0) * range
  }

  /** The time conversion scales by the total time. */
  lemma TimeConversion(total: real, v: real, m: Maths)
    ensures ConvertTo(Time(total), 0.0, m) == 0.0
    ensures ConvertTo(Time(total), 1.0, m) == total
    ensures ConvertTo(Time(total), v, m) == v * total
  {
  }

  /** The amplitude conversion maps the top of the plot to 0 dB and the bottom
      to minus the range, linearly in between. */
  lemma AmplitudeConversion(range: real, v: real, w: real, m: Maths)
    ensures ConvertTo(Amplitude(range), 1.0, m) == 0.0
    ensures ConvertTo(Amplitude(range), 0.0, m) == -range
    ensures ConvertTo(Amplitude(range), v, m) - ConvertTo(Amplitude(range), w, m) == (v - w) * range
  {
  }

  /** The logarithmic frequency conversion reaches both ends of its range
      exactly under exact arithmetic. */
  lemma FrequencyEndpoints(lo: real, hi: real, m: Maths)
    requires Lawful(m)
    requires Convertible(Frequency(lo, hi))
    ensures ConvertTo(Frequency(lo, hi), 1.0, m) == hi
    ensures ConvertTo(Frequency(lo, hi), 0.0, m) == lo
  {
    assert (1.0 - 0.0) * m.log10(lo / hi) == m.log10(lo / hi);
    assert m.pow10(m.log10(lo / hi)) == lo / hi;
  }

  /** With both bounds positive every frequency has the sign of `max`, i.e. is
      positive; the phase accumulator relies on this. */
  lemma FrequencyPositive(lo: real, hi: real, v: real, m: Maths)
    requires Lawful(m)
    requires lo > 0.0 && hi > 0.0
    ensures ConvertTo(Frequency(lo, hi), v, m) > 0.0
  {
    assert m.pow10((1.0 - v) * m.log10(lo / hi)) > 0.0;
  }
}
