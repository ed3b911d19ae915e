/** The WAV encoder: a 44-byte RIFF/WAVE header for 16-bit mono PCM (the
    WAVE form of RIFF in the Microsoft/IBM Multimedia Programming Interface
    and Data Specifications 1.0, format tag 1), followed by the mixed,
    rounded and clipped samples as little-endian two's-complement int16. */
module Wav {
  import opened Wrappers
  import opened Numerics
  import opened Axes
  import opened Synthesis

  type Byte = b: int | 0 <= b < 256

  const TwoTo16: int := 0x1_0000
  const TwoTo32: int := 0x1_0000_0000
  const HeaderSize: nat := 44
  const MinInt16: int := -32768
  const MaxInt16: int := 32767

  // ---------------------------------------------------------------------------
  // Integer serialisation

  /** `value & 0xff` after a right shift by `8 * k`: Python's shift is a
      floor division and its `&` on a negative number sees two's complement,
      which is Dafny's Euclidean `/` and `%` for a positive divisor. */
  function ByteAt(v: int, k: nat): Byte
    decreases k
  {
    if k == 0 then v % 256 else ByteAt(v / 256, k - 1)
  }

  /** `serializeInt16`: the low two bytes, least significant first. */
  function Int16LE(v: int): (r: seq<Byte>)
    ensures |r| == 2
  {
    [ByteAt(v, 0), ByteAt(v, 1)]
  }

  /** `serializeInt32`: the low four bytes, least significant first. */
  function Int32LE(v: int): (r: seq<Byte>)
    ensures |r| == 4
  {
    [ByteAt(v, 0), ByteAt(v, 1), ByteAt(v, 2), ByteAt(v, 3)]
  }

  function DecodeUInt16(b: seq<Byte>): (r: int)
    requires |b| == 2
    ensures 0 <= r < TwoTo16
  {
    var b0: int := b[0];
    var b1: int := b[1];
    b0 + 256 * b1
  }

  /** A 16-bit pair read back as a signed two's-complement number. */
  function DecodeInt16(b: seq<Byte>): (r: int)
    requires |b| == 2
    ensures MinInt16 <= r <= MaxInt16
  {
    var u := DecodeUInt16(b);
    if u >= 0x8000 then u - TwoTo16 else u
  }

  function DecodeUInt32(b: seq<Byte>): (r: int)
    requires |b| == 4
    ensures 0 <= r < TwoTo32
  {
    var b0: int := b[0];
    var b1: int := b[1];
    var b2: int := b[2];
    var b3: int := b[3];
    b0 + 256 * (b1 + 256 * (b2 + 256 * b3))
  }

  /** Division with remainder has a unique result. */
  lemma DivModUnique(v: int, d: int, q: int, r: int)
    requires 0 < d && v == d * q + r && 0 <= r < d
    ensures v / d == q && v % d == r
  {
    var q0 := v / d;
    var r0 := v % d;
    assert d * (q - q0) == r0 - r;
    if q > q0 {
      MulAtLeast(d, q - q0);
    } else if q < q0 {
      MulAtLeast(d, q0 - q);
    }
  }

  lemma MulAtLeast(d: int, k: int)
    requires 0 < d && 1 <= k
    ensures d <= d * k
  {
    assert d * k == d * (k - 1) + d;
  }

  /** Writing sixteen bits keeps exactly the value modulo 2^16. */
  lemma Int16Wraps(v: int)
    ensures DecodeUInt16(Int16LE(v)) == v % TwoTo16
  {
    var q1 := v / 256;
    var q2 := q1 / 256;
    assert v == 256 * q1 + ByteAt(v, 0);
    assert q1 == 256 * q2 + ByteAt(v, 1);
    DivModUnique(v, TwoTo16, q2, ByteAt(v, 0) + 256 * ByteAt(v, 1));
  }

  /** Writing thirty-two bits keeps exactly the value modulo 2^32. */
  lemma Int32Wraps(v: int)
    ensures DecodeUInt32(Int32LE(v)) == v % TwoTo32
  {
    var q1 := v / 256;
    var q2 := q1 / 256;
    var q3 := q2 / 256;
    var q4 := q3 / 256;
    var b := Int32LE(v);
    assert ByteAt(v, 3) == ByteAt(q1, 2) == ByteAt(q2, 1) == ByteAt(q3, 0);
    assert ByteAt(v, 2) == ByteAt(q1, 1) == ByteAt(q2, 0);
    assert b[1] == q1 % 256 && b[2] == q2 % 256 && b[3] == q3 % 256;
    assert v == 256 * q1 + b[0];
    assert q1 == 256 * q2 + b[1];
    assert q2 == 256 * q3 + b[2];
    assert q3 == 256 * q4 + b[3];
    DivModUnique(v, TwoTo32, q4, DecodeUInt32(b));
  }

  /** Every value in the int16 range reads back unchanged. */
  lemma Int16RoundTrip(v: int)
    requires MinInt16 <= v <= MaxInt16
    ensures DecodeInt16(Int16LE(v)) == v
  {
    Int16Wraps(v);
    if v < 0 {
      DivModUnique(v, TwoTo16, -1, v + TwoTo16);
    } else {
      DivModUnique(v, TwoTo16, 0, v);
    }
  }

  /** Every value in the uint32 range reads back unchanged. */
  lemma Int32RoundTrip(v: int)
    requires 0 <= v < TwoTo32
    ensures DecodeUInt32(Int32LE(v)) == v
  {
    Int32Wraps(v);
    DivModUnique(v, TwoTo32, 0, v);
  }

  /** `serializeString`: one byte per character, its code point. */
  function Ascii(s: string): (r: seq<Byte>)
    requires forall i :: 0 <= i < |s| ==> s[i] as int < 256
    ensures |r| == |s|
    ensures forall i :: 0 <= i < |s| ==> r[i] == s[i] as int
    ensures ReadField(CharsKind(|s|), r) == Chars(s)
  {
    seq(|s|, i requires 0 <= i < |s| => s[i] as int)
  }

  // ---------------------------------------------------------------------------
  // Header and data

  /** One call of the serializer: `serializeString`, `serializeInt16` or
      `serializeInt32` with its argument. */
  datatype Field = Chars(s: string) | Int16(v: int) | Int32(v: int)

  /** What a reader expects in a field's place; strings carry their length. */
  datatype Kind = CharsKind(len: nat) | Int16Kind | Int32Kind

  function KindOf(f: Field): Kind {
    match f
    case Chars(s) => CharsKind(|s|)
    case Int16(_) => Int16Kind
    case Int32(_) => Int32Kind
  }

  function Kinds(fs: seq<Field>): (ks: seq<Kind>)
    ensures |ks| == |fs| && forall i :: 0 <= i < |fs| ==> ks[i] == KindOf(fs[i])
  {
    seq(|fs|, i requires 0 <= i < |fs| => KindOf(fs[i]))
  }

  /** The number of bytes a field of the kind occupies. */
  function Width(k: Kind): nat {
    match k
    case CharsKind(n) => n
    case Int16Kind => 2
    case Int32Kind => 4
  }

  function TotalWidth(ks: seq<Kind>): nat {
    if |ks| == 0 then 0 else Width(ks[0]) + TotalWidth(ks[1..])
  }

  /** A string can be written when every character fits in a byte (the
      buffer assignment raises otherwise). */
  predicate Writable(f: Field) {
    f.Chars? ==> forall i :: 0 <= i < |f.s| ==> f.s[i] as int < 256
  }

  function FieldBytes(f: Field): (r: seq<Byte>)
    requires Writable(f)
    ensures |r| == Width(KindOf(f))
  {
    match f
    case Chars(s) => Ascii(s)
    case Int16(v) => Int16LE(v)
    case Int32(v) => Int32LE(v)
  }

  /** The serializer calls one after another, each continuing where the
      last stopped. */
  function Serialize(fs: seq<Field>): (r: seq<Byte>)
    requires forall i :: 0 <= i < |fs| ==> Writable(fs[i])
  {
    if |fs| == 0 then [] else FieldBytes(fs[0]) + Serialize(fs[1..])
  }

  /** The calls of `serializeHeader`: chunk ids, sizes and the PCM format
      fields of a mono 16-bit file of `n` samples. */
  function HeaderFields(rate: int, n: int): (fs: seq<Field>)
    ensures forall i :: 0 <= i < |fs| ==> Writable(fs[i])
  {
    [Chars("RIFF"), Int32((HeaderSize - 8) + n * 2), Chars("WAVE"),
     Chars("fmt "), Int32(16), Int16(1), Int16(1),
     Int32(rate), Int32(rate * 2), Int16(2), Int16(16),
     Chars("data"), Int32(n * 2)]
  }

  /** The layout every header has, whatever its rate and length. */
  function HeaderKinds(): seq<Kind> {
    [CharsKind(4), Int32Kind, CharsKind(4),
     CharsKind(4), Int32Kind, Int16Kind, Int16Kind,
     Int32Kind, Int32Kind, Int16Kind, Int16Kind,
     CharsKind(4), Int32Kind]
  }

  /** `serializeHeader`. */
  function Header(rate: int, n: int): (r: seq<Byte>)
    ensures |r| == HeaderSize
  {
    var fs := HeaderFields(rate, n);
    SerializedWidth(fs);
    HeaderFieldKinds(rate, n);
    HeaderWidth();
    Serialize(fs)
  }

  /** Every header is 44 bytes long: the widths of its fields, summed from
      the last. */
  lemma HeaderWidth()
    ensures TotalWidth(HeaderKinds()) == HeaderSize
  {
    var ks := HeaderKinds();
    assert TotalWidth(ks[13..]) == 0;
    assert TotalWidth(ks[12..]) == 4;
    assert TotalWidth(ks[11..]) == 8;
    assert TotalWidth(ks[10..]) == 10;
    assert TotalWidth(ks[9..]) == 12;
    assert TotalWidth(ks[8..]) == 16;
    assert TotalWidth(ks[7..]) == 20;
    assert TotalWidth(ks[6..]) == 22;
    assert TotalWidth(ks[5..]) == 24;
    assert TotalWidth(ks[4..]) == 28;
    assert TotalWidth(ks[3..]) == 32;
    assert TotalWidth(ks[2..]) == 36;
    assert TotalWidth(ks[1..]) == 40;
    assert ks[0..] == ks;
  }

  /** The serializer writes exactly as many bytes as the fields' kinds
      occupy. */
  lemma {:induction false} SerializedWidth(fs: seq<Field>)
    requires forall i :: 0 <= i < |fs| ==> Writable(fs[i])
    ensures |Serialize(fs)| == TotalWidth(Kinds(fs))
  {
    if |fs| > 0 {
      assert Kinds(fs)[1..] == Kinds(fs[1..]);
      SerializedWidth(fs[1..]);
    }
  }

  /** Python's `sum` over the waves of their sample `ix`; an empty list of
      waves sums to 0. */
  function Mix(all: seq<seq<real>>, ix: nat): real
    requires forall w :: 0 <= w < |all| ==> ix < |all[w]|
  {
    if |all| == 0 then 0.0 else all[0][ix] + Mix(all[1..], ix)
  }

  /** The saturating clip `min(max(value, -32768), 32767)`. */
  function Clip16(v: int): (r: int)
    ensures MinInt16 <= r <= MaxInt16
    ensures MinInt16 <= v <= MaxInt16 ==> r == v
    ensures v < MinInt16 ==> r == MinInt16
    ensures v > MaxInt16 ==> r == MaxInt16
  {
    var lo := if v < MinInt16 then MinInt16 else v;
    if lo < MaxInt16 then lo else MaxInt16
  }

  /** A mixed value in [-1,1] scaled to int16, rounded and clipped. */
  function Quantize(value: real, m: Maths): (q: int)
    ensures MinInt16 <= q <= MaxInt16
  {
    Clip16(m.round(32767.0 * value))
  }

  /** Within [-1,1] the clip never fires: the rounding alone decides. */
  lemma QuantizeInRange(value: real, m: Maths)
    requires Lawful(m) && -1.0 <= value <= 1.0
    ensures Quantize(value, m) == m.round(32767.0 * value)
    ensures value == 1.0 ==> Quantize(value, m) == MaxInt16
    ensures value == -1.0 ==> Quantize(value, m) == -MaxInt16
  {
    var z := 32767.0 * value;
    assert -32767.0 <= z <= 32767.0;
    if value == 1.0 {
      RoundOfInteger(m, 32767);
    } else if value == -1.0 {
      RoundOfInteger(m, -32767);
    }
  }

  /** The data chunk: each value as an int16 pair, in order. */
  function PcmData(qs: seq<int>): (r: seq<Byte>)
    ensures |r| == 2 * |qs|
    ensures forall i :: 0 <= i < |qs| ==> r[2 * i .. 2 * i + 2] == Int16LE(qs[i])
  {
    if |qs| == 0 then []
    else
      var init := PcmData(qs[..|qs| - 1]);
      var r := init + Int16LE(qs[|qs| - 1]);
      assert forall i :: 0 <= i < |qs| - 1 ==> r[2 * i .. 2 * i + 2] == init[2 * i .. 2 * i + 2];
      r
  }

  /** The quantized mix of `n` samples. */
  function Quantized(all: seq<seq<real>>, n: nat, m: Maths): (qs: seq<int>)
    requires forall w :: 0 <= w < |all| ==> |all[w]| >= n
    ensures |qs| == n
    ensures forall ix :: 0 <= ix < n ==> qs[ix] == Quantize(Mix(all, ix), m)
    ensures forall ix :: 0 <= ix < n ==> MinInt16 <= qs[ix] <= MaxInt16
    ensures Lawful(m) ==> forall ix :: 0 <= ix < n && -1.0 <= Mix(all, ix) <= 1.0 ==>
      qs[ix] == m.round(32767.0 * Mix(all, ix))
  {
    seq(n, ix requires 0 <= ix < n => Quantize(Mix(all, ix), m))
  }

  /** A whole file: header, then data. */
  function EncodePcm(rate: int, qs: seq<int>): (r: seq<Byte>)
    ensures |r| == HeaderSize + 2 * |qs|
    ensures r[..HeaderSize] == Header(rate, |qs|)
  {
    Header(rate, |qs|) + PcmData(qs)
  }

  // ---------------------------------------------------------------------------
  // Reading a file back

  /** Sample `i` of a data chunk read as a signed int16. */
  function DecodeSamples(d: seq<Byte>): (r: seq<int>)
    ensures |r| == |d| / 2
    ensures forall i :: 0 <= i < |r| ==> r[i] == DecodeInt16(d[2 * i .. 2 * i + 2])
  {
    seq(|d| / 2, i requires 0 <= i < |d| / 2 => DecodeInt16(d[2 * i .. 2 * i + 2]))
  }

  /** A reader for exactly the files this encoder writes: checks every
      header field and returns the rate and the samples. */
  function ParseWav(b: seq<Byte>): (r: Option<(int, seq<int>)>)
    ensures r.Some? ==> |b| >= HeaderSize && |r.value.1| == (|b| - HeaderSize) / 2
  {
    if |b| < HeaderSize then None
    else match ParseHeader(b[..HeaderSize])
      case None => None
      case Some((rate, size)) =>
        if |b| != HeaderSize + size then None
        else Some((rate, DecodeSamples(b[HeaderSize..])))
  }

  /** Reads one field of the given kind from the front of `b`. */
  function ReadField(k: Kind, b: seq<Byte>): (f: Field)
    requires Width(k) <= |b|
    ensures KindOf(f) == k
  {
    match k
    case CharsKind(n) => Chars(seq(n, i requires 0 <= i < n => b[i] as char))
    case Int16Kind => Int16(DecodeUInt16(b[..2]))
    case Int32Kind => Int32(DecodeUInt32(b[..4]))
  }

  /** Reads fields of the given kinds one after another. */
  function ReadFields(ks: seq<Kind>, b: seq<Byte>): (fs: seq<Field>)
    requires TotalWidth(ks) <= |b|
    ensures |fs| == |ks|
  {
    if |ks| == 0 then []
    else [ReadField(ks[0], b)] + ReadFields(ks[1..], b[Width(ks[0])..])
  }

  /** The rate and the data size a header announces, when its fields agree
      with each other and the fixed ones have their only values. */
  function ParseHeader(h: seq<Byte>): (r: Option<(int, int)>)
    requires |h| == HeaderSize
    ensures r.Some? ==> r.value.1 >= 0 && r.value.1 % 2 == 0
  {
    HeaderWidth();
    CheckFields(ReadFields(HeaderKinds(), h))
  }

  /** The checks on the header's fields, read in `serializeHeader`'s order. */
  function CheckFields(fs: seq<Field>): (r: Option<(int, int)>)
    requires |fs| == |HeaderKinds()|
    ensures r.Some? ==> r.value.1 >= 0 && r.value.1 % 2 == 0
  {
    if fs[0] != Chars("RIFF") || fs[2] != Chars("WAVE") || fs[3] != Chars("fmt ")
       || fs[4] != Int32(16) || fs[5] != Int16(1) || fs[6] != Int16(1)
       || fs[9] != Int16(2) || fs[10] != Int16(16) || fs[11] != Chars("data")
       || !fs[1].Int32? || !fs[7].Int32? || !fs[8].Int32? || !fs[12].Int32? then None
    else
      var size := fs[12].v;
      var rate := fs[7].v;
      if fs[1].v != (HeaderSize - 8) + size || fs[8].v != 2 * rate || size < 0 || size % 2 != 0 then None
      else Some((rate, size))
  }

  /** A field reads back as written when its value fits the field. */
  predicate Fits(f: Field) {
    match f
    case Chars(s) => forall i :: 0 <= i < |s| ==> s[i] as int < 256
    case Int16(v) => 0 <= v < TwoTo16
    case Int32(v) => 0 <= v < TwoTo32
  }

  lemma FieldRoundTrip(f: Field, rest: seq<Byte>)
    requires Fits(f)
    ensures Width(KindOf(f)) <= |FieldBytes(f) + rest|
    ensures ReadField(KindOf(f), FieldBytes(f) + rest) == f
  {
    var b := FieldBytes(f) + rest;
    match f
    case Chars(s) =>
      assert forall i :: 0 <= i < |s| ==> b[i] as char == s[i];
    case Int16(v) =>
      assert b[..2] == Int16LE(v);
      Int16Wraps(v);
      DivModUnique(v, TwoTo16, 0, v);
    case Int32(v) =>
      assert b[..4] == Int32LE(v);
      Int32RoundTrip(v);
  }

  /** Reading the fields' kinds back from what the serializer wrote gives
      the fields, whatever follows them. */
  lemma {:induction false} ReadSerialized(fs: seq<Field>, rest: seq<Byte>)
    requires forall i :: 0 <= i < |fs| ==> Fits(fs[i])
    ensures forall i :: 0 <= i < |fs| ==> Writable(fs[i])
    ensures TotalWidth(Kinds(fs)) <= |Serialize(fs) + rest|
    ensures ReadFields(Kinds(fs), Serialize(fs) + rest) == fs
  {
    assert forall i :: 0 <= i < |fs| ==> Writable(fs[i]);
    SerializedWidth(fs);
    if |fs| > 0 {
      var ks := Kinds(fs);
      var b := Serialize(fs) + rest;
      var tail := Serialize(fs[1..]) + rest;
      SerializeCons(fs, rest);
      KindsTail(fs);
      FieldRoundTrip(fs[0], tail);
      ReadSerialized(fs[1..], rest);
      ReadFieldsCons(ks, b);
      assert [fs[0]] + fs[1..] == fs;
    }
  }

  /** The serializer's first field, then the rest. */
  lemma SerializeCons(fs: seq<Field>, rest: seq<Byte>)
    requires |fs| > 0 && forall i :: 0 <= i < |fs| ==> Writable(fs[i])
    ensures Serialize(fs) + rest == FieldBytes(fs[0]) + (Serialize(fs[1..]) + rest)
    ensures (Serialize(fs) + rest)[Width(KindOf(fs[0]))..] == Serialize(fs[1..]) + rest
  {
    assert Serialize(fs) + rest == FieldBytes(fs[0]) + (Serialize(fs[1..]) + rest);
  }

  lemma KindsTail(fs: seq<Field>)
    requires |fs| > 0
    ensures Kinds(fs)[1..] == Kinds(fs[1..])
  {
  }

  /** The reader's first field, then the rest from where it stopped. */
  lemma ReadFieldsCons(ks: seq<Kind>, b: seq<Byte>)
    requires |ks| > 0 && TotalWidth(ks) <= |b|
    ensures ReadFields(ks, b) == [ReadField(ks[0], b)] + ReadFields(ks[1..], b[Width(ks[0])..])
  {
  }

  /** Reading back an encoded file gives the rate and the samples that were
      written, provided they fit their fields. */
  lemma EncodeParseRoundTrip(rate: int, qs: seq<int>)
    requires 0 <= rate && 2 * rate < TwoTo32
    requires (HeaderSize - 8) + 2 * |qs| < TwoTo32
    requires forall i :: 0 <= i < |qs| ==> MinInt16 <= qs[i] <= MaxInt16
    ensures ParseWav(EncodePcm(rate, qs)) == Some((rate, qs))
  {
    var b := EncodePcm(rate, qs);
    ParseEncodedHeader(b, rate, |qs|);
    assert b[HeaderSize..] == PcmData(qs);
    PcmDataRoundTrip(qs);
  }

  /** A file that starts with the header for `n` samples and holds exactly
      their bytes passes every check of the reader. */
  lemma ParseEncodedHeader(b: seq<Byte>, rate: int, n: nat)
    requires 0 <= rate && 2 * rate < TwoTo32
    requires (HeaderSize - 8) + 2 * n < TwoTo32
    requires |b| == HeaderSize + 2 * n && b[..HeaderSize] == Header(rate, n)
    ensures ParseWav(b) == Some((rate, DecodeSamples(b[HeaderSize..])))
  {
    HeaderParses(rate, n);
  }

  /** The encoder's header announces the rate and `2 n` data bytes. */
  lemma HeaderParses(rate: int, n: nat)
    requires 0 <= rate && 2 * rate < TwoTo32
    requires (HeaderSize - 8) + 2 * n < TwoTo32
    ensures ParseHeader(Header(rate, n)) == Some((rate, 2 * n))
  {
    HeaderFieldsCheck(rate, n);
    HeaderReadsBack(rate, n);
  }

  /** The encoder's fields pass the reader's checks. */
  lemma HeaderFieldsCheck(rate: int, n: nat)
    ensures CheckFields(HeaderFields(rate, n)) == Some((rate, 2 * n))
  {
    assert (2 * n) % 2 == 0;
  }

  /** The reader recovers the encoder's fields when the numbers fit. */
  lemma HeaderReadsBack(rate: int, n: nat)
    requires 0 <= rate && 2 * rate < TwoTo32
    requires (HeaderSize - 8) + 2 * n < TwoTo32
    ensures ReadFields(HeaderKinds(), Header(rate, n)) == HeaderFields(rate, n)
  {
    var fs := HeaderFields(rate, n);
    HeaderFieldsFit(rate, n);
    HeaderFieldKinds(rate, n);
    ReadSerialized(fs, []);
    assert Serialize(fs) + [] == Serialize(fs);
  }

  lemma HeaderFieldsFit(rate: int, n: nat)
    requires 0 <= rate && 2 * rate < TwoTo32
    requires (HeaderSize - 8) + 2 * n < TwoTo32
    ensures forall i :: 0 <= i < |HeaderFields(rate, n)| ==> Fits(HeaderFields(rate, n)[i])
  {
  }

  /** Whatever the rate and length, the header has the same layout. */
  lemma HeaderFieldKinds(rate: int, n: int)
    ensures Kinds(HeaderFields(rate, n)) == HeaderKinds()
  {
  }

  /** The data chunk decodes to the samples it was encoded from. */
  lemma PcmDataRoundTrip(qs: seq<int>)
    requires forall i :: 0 <= i < |qs| ==> MinInt16 <= qs[i] <= MaxInt16
    ensures DecodeSamples(PcmData(qs)) == qs
  {
    var d := PcmData(qs);
    var s := DecodeSamples(d);
    assert |s| == |qs|;
    forall i | 0 <= i < |qs|
      ensures s[i] == qs[i]
    {
      assert d[2 * i .. 2 * i + 2] == Int16LE(qs[i]);
      Int16RoundTrip(qs[i]);
    }
  }

  // ---------------------------------------------------------------------------
  // The file generator and its per-wave caches

  /** The input record of one file: the sound parameters and the waves. */
  datatype FileInput = FileInput(sound: SoundInput, waves: seq<WaveInput>)

  datatype WavError =
    | BadSound(axis: AxisError)     // an axis record lacks a key
    | BadWave(render: RenderError)  // a wave could not be rendered
    | NegativeLength                // the header does not fit the buffer
    | ShortSamples                  // a wave has fewer samples than the file

  /** `WavFile`: one cache per wave slot. */
  datatype WavFile = WavFile(waves: seq<WaveCache>)

  /** Growing by fresh caches at the end, or popping from the end, until the
      list has `k` entries. */
  function Resize(caches: seq<WaveCache>, k: nat): (r: seq<WaveCache>)
    ensures |r| == k
    ensures forall i :: 0 <= i < k && i < |caches| ==> r[i] == caches[i]
    ensures forall i :: |caches| <= i < k ==> r[i] == Empty
  {
    if |caches| >= k then caches[..k]
    else caches + seq(k - |caches|, _ => Empty)
  }

  /** Every cache holds what a fresh rendering of its inputs gives. */
  predicate AllConsistent(caches: seq<WaveCache>, m: Maths) {
    forall i :: 0 <= i < |caches| ==> Consistent(caches[i], m)
  }

  /** The `zip` loop: each wave through its own cache, in order; the first
      failure ends the loop. */
  function GenerateAll(caches: seq<WaveCache>, waves: seq<WaveInput>, info: SoundInfo, m: Maths)
    : (r: Result<(seq<WaveCache>, seq<seq<real>>), RenderError>)
    requires |caches| == |waves| && WellKinded(info)
    ensures r.Ok? ==> |r.value.0| == |waves| && |r.value.1| == |waves|
  {
    if |waves| == 0 then Ok(([], []))
    else
      var first :- Generate(caches[0], waves[0], info, m);
      var rest :- GenerateAll(caches[1..], waves[1..], info, m);
      Ok(([first.0] + rest.0, [first.1] + rest.1))
  }

  /** Every wave renders without error. */
  predicate AllRender(waves: seq<WaveInput>, info: SoundInfo, m: Maths)
    requires WellKinded(info)
  {
    forall w :: 0 <= w < |waves| ==> Render(waves[w], info, m).Ok?
  }

  /** Reference: every wave rendered afresh, in order. */
  function RenderAll(waves: seq<WaveInput>, info: SoundInfo, m: Maths): (r: seq<seq<real>>)
    requires WellKinded(info) && AllRender(waves, info, m)
    ensures |r| == |waves|
    ensures info.numSamples >= 0 ==> RenderedFits(r, info)
  {
    if |waves| == 0 then []
    else
      AllRenderSplit(waves, info, m);
      [Render(waves[0], info, m).value] + RenderAll(waves[1..], info, m)
  }

  /** The caches are invisible to the samples: from consistent caches the
      loop succeeds exactly when every wave renders, returns the fresh
      renderings, and leaves consistent caches. */
  lemma {:induction false} GenerateAllTransparent(caches: seq<WaveCache>, waves: seq<WaveInput>, info: SoundInfo, m: Maths)
    requires |caches| == |waves| && WellKinded(info)
    requires AllConsistent(caches, m)
    requires MakeSoundInfo(info.input, m) == Ok(info)
    ensures GenerateAll(caches, waves, info, m).Ok? <==> AllRender(waves, info, m)
    ensures GenerateAll(caches, waves, info, m).Ok? ==>
      && GenerateAll(caches, waves, info, m).value.1 == RenderAll(waves, info, m)
      && AllConsistent(GenerateAll(caches, waves, info, m).value.0, m)
  {
    if |waves| > 0 {
      var c := caches[0];
      var w := waves[0];
      ConsistentSplit(caches, m);
      MemoTransparent(c, w, info, m);
      GenerateAllTransparent(caches[1..], waves[1..], info, m);
      AllRenderSplit(waves, info, m);
      var g := Generate(c, w, info, m);
      var rest := GenerateAll(caches[1..], waves[1..], info, m);
      if g.Ok? && rest.Ok? {
        ConsistentJoin(g.value.0, rest.value.0, m);
      }
    }
  }

  lemma ConsistentSplit(caches: seq<WaveCache>, m: Maths)
    requires |caches| > 0 && AllConsistent(caches, m)
    ensures Consistent(caches[0], m) && AllConsistent(caches[1..], m)
  {
    assert forall i :: 1 <= i < |caches| ==> caches[i] == caches[1..][i - 1];
  }

  lemma ConsistentJoin(c: WaveCache, cs: seq<WaveCache>, m: Maths)
    requires Consistent(c, m) && AllConsistent(cs, m)
    ensures AllConsistent([c] + cs, m)
  {
    var all := [c] + cs;
    forall i | 0 <= i < |all|
      ensures Consistent(all[i], m)
    {
      if i > 0 {
        assert all[i] == cs[i - 1];
      }
    }
  }

  /** Whether all waves render is whether the first does and the rest do. */
  lemma AllRenderSplit(waves: seq<WaveInput>, info: SoundInfo, m: Maths)
    requires |waves| > 0 && WellKinded(info)
    ensures AllRender(waves, info, m) <==> Render(waves[0], info, m).Ok? && AllRender(waves[1..], info, m)
  {
    assert forall w :: 1 <= w < |waves| ==> waves[w] == waves[1..][w - 1];
  }

  /** `WavFile.generate`: read the sound record, resize the caches, render
      every wave, then lay out header and data. A negative sample count makes
      the header overrun its buffer, and a wave shorter than the sample count
      makes `samples[ix]` fail; both raise. */
  function GenerateFile(file: WavFile, input: FileInput, m: Maths): (r: Result<(WavFile, seq<Byte>), WavError>)
    ensures r.Ok? ==> |r.value.0.waves| == |input.waves|
    ensures r.Ok? ==> (MakeSoundInfo(input.sound, m).Ok?
      && |r.value.1| == HeaderSize + 2 * MakeSoundInfo(input.sound, m).value.numSamples)
  {
    match MakeSoundInfo(input.sound, m)
    case Err(e) => Err(BadSound(e))
    case Ok(info) =>
      match GenerateAll(Resize(file.waves, |input.waves|), input.waves, info, m)
      case Err(e) => Err(BadWave(e))
      case Ok((caches, all)) =>
        if info.numSamples < 0 then Err(NegativeLength)
        else if !RenderedFits(all, info) then Err(ShortSamples)
        else Ok((WavFile(caches), Encode(info, all, m)))
  }

  /** From consistent caches, generating a file succeeds exactly when the
      sound record reads, every wave renders and the sample count is not
      negative; its bytes are those of a fresh rendering, and the caches it
      leaves are consistent again. */
  lemma GenerateFileTransparent(file: WavFile, input: FileInput, m: Maths)
    requires AllConsistent(file.waves, m)
    ensures var r := GenerateFile(file, input, m);
      && (r.Ok? <==> (MakeSoundInfo(input.sound, m).Ok?
                      && AllRender(input.waves, MakeSoundInfo(input.sound, m).value, m)
                      && MakeSoundInfo(input.sound, m).value.numSamples >= 0))
      && (r.Ok? ==>
            var info := MakeSoundInfo(input.sound, m).value;
            && AllConsistent(r.value.0.waves, m)
            && RenderedFits(RenderAll(input.waves, info, m), info)
            && r.value.1 == Encode(info, RenderAll(input.waves, info, m), m))
  {
    match MakeSoundInfo(input.sound, m)
    case Err(_) =>
    case Ok(info) =>
      var caches := Resize(file.waves, |input.waves|);
      assert AllConsistent(caches, m);
      GenerateAllTransparent(caches, input.waves, info, m);
      if AllRender(input.waves, info, m) && info.numSamples >= 0 {
      }
  }

  /** Every rendered wave has one sample per position of the file. */
  predicate RenderedFits(all: seq<seq<real>>, info: SoundInfo) {
    info.numSamples >= 0 && forall w :: 0 <= w < |all| ==> |all[w]| >= info.numSamples
  }

  /** The bytes of a file from the rendered waves. */
  function Encode(info: SoundInfo, all: seq<seq<real>>, m: Maths): (r: seq<Byte>)
    requires RenderedFits(all, info)
    ensures |r| == HeaderSize + 2 * info.numSamples
    ensures r[..HeaderSize] == Header(info.samplingRateHz, info.numSamples)
  {
    EncodePcm(info.samplingRateHz, Quantized(all, info.numSamples, m))
  }

  /** Data pair `i` of a file reads back as the clipped, rounded mix of the
      waves' samples `i`. */
  lemma DataSample(info: SoundInfo, all: seq<seq<real>>, m: Maths, i: nat)
    requires RenderedFits(all, info) && i < info.numSamples
    ensures DecodeInt16(Encode(info, all, m)[HeaderSize + 2 * i .. HeaderSize + 2 * i + 2]) == Quantize(Mix(all, i), m)
  {
    var qs := Quantized(all, info.numSamples, m);
    var b := Encode(info, all, m);
    assert b[HeaderSize + 2 * i .. HeaderSize + 2 * i + 2] == PcmData(qs)[2 * i .. 2 * i + 2];
    Int16RoundTrip(qs[i]);
  }

  /** A generated file parses back to its rate and its quantized samples,
      whenever the rate and length fit their 32-bit fields. */
  lemma GeneratedFileParses(info: SoundInfo, all: seq<seq<real>>, m: Maths)
    requires RenderedFits(all, info)
    requires 0 <= info.samplingRateHz && 2 * info.samplingRateHz < TwoTo32
    requires (HeaderSize - 8) + 2 * info.numSamples < TwoTo32
    ensures ParseWav(Encode(info, all, m)) == Some((info.samplingRateHz, Quantized(all, info.numSamples, m)))
  {
    EncodeParseRoundTrip(info.samplingRateHz, Quantized(all, info.numSamples, m));
  }
}
