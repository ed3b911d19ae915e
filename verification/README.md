# Waveform editor engine in Dafny

The waveform editor draws two curves per wave, frequency over time and
amplitude over time. It turns them into a 16-bit mono PCM WAV file and plays
the result in a loop. This project models the engine under the editor, plus
the pure parts of the editor itself. The model covers:

- **Curve baking and lookup** (`Bezier`, `CurveLookup`).
  - Baking turns the chain of (left handle, body point, right handle) triples into a polyline: 100 samples per cubic Bezier segment, each computed by three rounds of de Casteljau interpolation.
  - `getY` finds the rightmost point at or before the query by binary search and interpolates linearly to its successor.
- **Axes** (`Axes`): time (ms) and amplitude (dB) scale linearly and frequency (Hz) scales logarithmically. Each axis reads from and writes to a keyed record.
- **Sample synthesis** (`Synthesis`): four waveform shapes and a phase accumulator kept by `modf`. A sample is silent when its level is at or below the amplitude floor. `Wave.generate` memoises its result on its input records.
- **WAV encoding** (`Wav`):
  - the 44-byte RIFF/WAVE header, in the PCM format of the Microsoft/IBM *Multimedia Programming Interface and Data Specifications 1.0*;
  - little-endian integer serialisers;
  - the mixing, rounding and clipping of samples;
  - the per-wave caches of `WavFile`;
  - a parser for the produced bytes, used to state round trips.
- **Command port and generator thread** (`CommPort`, `Worker`). Both are sequential state machines.
  - PLAY and STOP share one overwritable slot; every other command queues, and the queue is served first.
  - The thread's dispatch records sound and file output as effects instead of performing them.
- **Curve editing** (`Editor`): the linked chain of control points, modelled as a sequence of body points, each owning optional tangent handles. It covers clamping boxes, spawn, body and handle moves, insertion, interior-only deletion, curve extraction and zoom.
- **The older single-file editor** (`Legacy`):
  - the grid-step helper;
  - curves that convert their own units;
  - the sine-only synthesiser, with a radian phase wrapped by one subtraction of 2π and no gating;
  - its WAV writer.

  Its point classes' `limitCoords`, `spawn` and `move`, its `addCurvePoint` and its initial chain are line for line those of `src/plot.py`, so `Editor` models both; the older editor has no point deletion and no zoom. Its command port is the same, so `CommPort` models both. `Legacy.Render` plugs the older `Wave` into `Worker`.

Real numbers stand for Python floats. The transcendental functions and the
built-in `round` are fields of a `Numerics.Maths` record. The proofs use only
the laws collected in `Numerics.Lawful`:

- `sin` lies in [-1, 1], and `sin 0 = 0`;
- π is positive;
- `10^x` is positive, and `10^0 = 1`;
- `10^(log10 z) = z` for positive `z`;
- `round` moves its argument by at most 1/2.

## Model

| member | source | states |
|---|---|---|
| Numerics.Clamp | src/plot.py:157-160 | `min(max(v, lo), hi)` lies in [lo, hi] and is `v` itself when `v` already lies there, otherwise the nearer bound |
| Numerics.Frac | src/wavegen.py:154 | the `modf` fractional part keeps the sign of its argument and lies in [0,1) for non-negative input and (-1,0] for negative input |
| Numerics.FracWhole | src/wavegen.py:154 | what `modf` removes from a number is a whole number |
| Numerics.RoundOfInteger | src/wavegen.py:78 | a lawful rounding leaves integers unchanged |
| Axes.Set | src/axis.py:16-17 | `set` succeeds exactly with the arity of its axis class (1, 2 or 1 numbers) and stores the arguments in order |
| Axes.Serialize | src/axis.py:19-20 | the record written for each axis class has exactly that class's keys |
| Axes.Deserialize | src/axis.py:22-23 | a read succeeds with the requested class, and every key it writes back was present in the record with the same value; a failure names a key that is absent |
| Axes.SerializeRoundTrip | src/axis.py:35-47 | writing any axis to a record and reading it back gives the same axis (all three classes) |
| Axes.DeserializeThenSerialize | src/axis.py:59-66 | writing back a successfully read axis gives exactly the record's entries under the class's keys, and extra keys are dropped |
| Axes.Construct | src/axis.py:7-11 | one record argument is deserialised; any other non-empty argument list goes to `set` and fails on a wrong arity; no arguments leave the axis unset |
| Axes.TimeConversion | src/axis.py:29-30 | time conversion maps 0 to 0 ms, 1 to the total time, and scales linearly |
| Axes.AmplitudeConversion | src/axis.py:72-73 | amplitude conversion maps the top to 0 dB and the bottom to minus the range, with differences scaled by the range |
| Axes.FrequencyEndpoints | src/axis.py:53-54 | the logarithmic frequency conversion reaches the maximum frequency at 1 and the minimum at 0 |
| Axes.FrequencyPositive | src/axis.py:53-54 | with both bounds positive every converted frequency is positive |
| Bezier.DeCasteljauIsBernstein | src/wavegen.py:25-41 | three rounds of linear interpolation compute the cubic Bernstein polynomial, which starts at the first control point and ends at the fourth |
| Bezier.SegmentSamples | src/wavegen.py:17-20 | one segment contributes 100 samples: its first body point, then the de Casteljau points at t = i/100 for i = 1..99 |
| Bezier.Flatten | src/wavegen.py:12-20 | the concatenated segment samples have 100 entries per segment, and entry k is sample k mod 100 of segment k div 100 |
| Bezier.ShiftSample | src/wavegen.py:12-20 | dropping the first segment shifts every later sample by exactly one segment |
| Bezier.Polyline | src/wavegen.py:12-22 | the polyline has 100 points per segment plus one, starts at the first body point, ends at the last segment's end point, and has each segment's start body at a multiple of 100 |
| Bezier.SegmentsOf | src/wavegen.py:12-16 | segments are formed exactly when there are at least two triples and every handle the loop indexes is present; segment i joins triples i and i+1 |
| Bezier.SegmentsFrom | src/wavegen.py:12-16 | from position ix on, segments are formed exactly when every later segment is readable; a failure names a segment, at or after ix, with a missing handle |
| Bezier.Bake | src/wavegen.py:11-22 | baking k triples succeeds exactly when k >= 2 and the handles are present, yields (k-1)*100+1 points, starts at body 0, ends at body k-1, and holds body i at position 100*i |
| Bezier.PolylineBodies | src/wavegen.py:17-22 | every body point of the chain appears in the polyline at 100 times its index |
| Bezier.BakeInterior | src/wavegen.py:20 | between two bodies the baked polyline holds exactly the de Casteljau samples of the segment they span |
| CurveLookup.Bisect | src/wavegen.py:44-54 | for any point order the binary search ends on a position that brackets the query: the point there has x <= query and the next one has x > query (or -1 when the first point is already beyond it) |
| CurveLookup.Lookup | src/wavegen.py:55-65 | when no point is at or before the query getY gives the first y, when only the last one brackets it the last y; otherwise the bracket has positive width and the value lies between the bracket's two y values |
| CurveLookup.LerpBetween | src/wavegen.py:60-64 | linear interpolation within a bracket stays between the bracket's y values |
| CurveLookup.LerpAtStart | src/wavegen.py:63-64 | interpolation at the left end of a bracket gives its left y |
| CurveLookup.GetY | src/wavegen.py:43-65 | the imperative search loop with its boundary checks computes the pure lookup |
| CurveLookup.LastAtMost | src/wavegen.py:43-54 | the reference search (a scan from the end) finds the rightmost point with x <= query, or -1 |
| CurveLookup.BracketIsLastAtMost | src/wavegen.py:43-54 | on an x-sorted polyline the bracketing position is unique and equals the rightmost point with x <= query |
| CurveLookup.LookupSorted | src/wavegen.py:43-65 | on an x-sorted polyline getY equals the reference interpolant built on the scan |
| CurveLookup.LookupClampsOutside | src/wavegen.py:55-58 | on a sorted polyline, queries left of the first point give the first y and queries at or right of the last point give the last y |
| CurveLookup.LookupAtSample | src/wavegen.py:55-65 | on a strictly sorted polyline the lookup passes through every stored point |
| Synthesis.ShapeOf | src/wavegen.py:103-113 | each of the four type names selects its own shape, and every other name (Noise, Custom, unknown) selects silence |
| Synthesis.FracShift | src/wavegen.py:122 | `modf` of a value with integer part k removes exactly k |
| Synthesis.ShapesOnePeriod | src/wavegen.py:118-127 | over one period the triangle and sawtooth are the standard piecewise-linear waves within [-1,1], the square is +1 exactly on the first half and -1 exactly on the second, and silence is 0 |
| Synthesis.ShapesAtZero | src/wavegen.py:115-127 | at phase 0 the sine, triangle and sawtooth are 0 and the square is +1 |
| Synthesis.ShapeBounded | src/wavegen.py:115-127 | every shape stays within [-1, 1] over a period |
| Synthesis.MakeSoundInfo | src/wavegen.py:70-78 | reading the sound record succeeds exactly when all three axis records read; the floor is minus the amplitude range, and the sample count is within 1/2 of rate * total time / 1000 |
| Synthesis.CalculateSamples | src/wavegen.py:129-154 | the sample loop yields one sample per position, each equal to the per-position definition, and every gated sample is 0.0 |
| Synthesis.SampleLoop | src/wavegen.py:136-154 | the loop keeps the phase of the next position and the samples so far in step with the per-position definition |
| Synthesis.SampleStep | src/wavegen.py:139-154 | one iteration produces the sample at its position and the phase of the next one |
| Synthesis.SamplesUpToAt | src/wavegen.py:136-154 | the first k samples, as a sequence, hold the per-position samples |
| Synthesis.SamplesAt | src/wavegen.py:136-154 | the full sample sequence holds the per-position samples |
| Synthesis.PhaseInPeriod | src/wavegen.py:154 | with a positive rate and non-negative frequencies so far the phase stays in [0,1) |
| Synthesis.PhaseInPeriodForPositiveAxis | src/wavegen.py:154 | with a positive rate and positive frequency bounds every phase lies in [0,1) |
| Synthesis.PhaseIndependentOfAmplitude | src/wavegen.py:143-154 | the phase depends only on the frequency curve: changing the amplitude curve or the shape never shifts it |
| Synthesis.GatedIffAtFloor | src/wavegen.py:77 | for a positive amplitude range a sample is silent exactly when the amplitude curve is at or below the bottom of the plot |
| Synthesis.SampleWithinLevel | src/wavegen.py:143-152 | an audible sample never exceeds its level 10^(dB/20) in magnitude, and a gated one is 0 |
| Synthesis.BakeCurve | src/wavegen.py:94-95 | a wave's curve bakes exactly when `Curve` would, into at least 101 points |
| Synthesis.Render | src/wavegen.py:93-99 | rendering a wave succeeds exactly when both curves bake, the count is not 1 and, for two or more samples, the frequency axis converts and the rate is non-zero; it yields no samples for a count below 1 and otherwise the samples of the sample loop |
| Synthesis.Generate | src/wavegen.py:87-101 | after every successful call the cache holds the wave record, a sound record with the same input, and exactly the samples returned; when both records equal the stored ones the stored samples come back unchanged, otherwise the result is a fresh rendering (or its error) |
| Synthesis.MemoTransparent | src/wavegen.py:87-101 | from a consistent cache, memoised generation returns exactly what a fresh rendering returns and leaves a consistent cache |
| Wav.Int16LE | src/wavegen.py:183-186 | an int16 field is two bytes |
| Wav.Int32LE | src/wavegen.py:188-193 | an int32 field is four bytes |
| Wav.DecodeUInt16 | src/wavegen.py:183-186 | the reference reader inverse to the int16 writer (the program has no reader): two little-endian bytes give a value in [0, 2^16) |
| Wav.DecodeInt16 | src/wavegen.py:183-186 | the reference signed reader inverse to the int16 writer: two bytes give an int16 |
| Wav.DecodeUInt32 | src/wavegen.py:188-193 | the reference reader inverse to the int32 writer: four little-endian bytes give a value in [0, 2^32) |
| Wav.Int16Wraps | src/wavegen.py:183-186 | the two bytes written for any integer read back as that integer modulo 2^16 (two's complement low bytes) |
| Wav.Int32Wraps | src/wavegen.py:188-193 | the four bytes written for any integer read back as that integer modulo 2^32 |
| Wav.Int16RoundTrip | src/wavegen.py:183-186 | every int16 value reads back exactly as a signed little-endian pair |
| Wav.Int32RoundTrip | src/wavegen.py:188-193 | every unsigned 32-bit value reads back exactly |
| Wav.Ascii | src/wavegen.py:195-198 | a tag is written one byte per character, each byte the character code, and reading that many bytes as characters gives the tag back |
| Wav.FieldBytes | src/wavegen.py:183-198 | each header field takes the width of its kind (tag length, 2 or 4 bytes) |
| Wav.Header | src/wavegen.py:200-221 | the header is 44 bytes long |
| Wav.HeaderWidth | src/wavegen.py:200-221 | the thirteen header fields add up to 44 bytes |
| Wav.SerializedWidth | src/wavegen.py:183-198 | a written field list is as long as the widths of its kinds |
| Wav.HeaderFields | src/wavegen.py:205-221 | every header field can be written |
| Wav.Clip16 | src/wavegen.py:228 | clipping lands in [-32768, 32767], keeps in-range values and maps out-of-range values to the nearer bound |
| Wav.Quantize | src/wavegen.py:227-228 | a quantised sample is always an int16 |
| Wav.QuantizeInRange | src/wavegen.py:227-228 | for a mix in [-1,1] clipping never triggers: the result is the rounding of 32767 * value, with +1 giving 32767 and -1 giving -32767 |
| Wav.PcmData | src/wavegen.py:223-230 | the data block is two bytes per sample, and pair i is the int16 encoding of sample i |
| Wav.Quantized | src/wavegen.py:223-228 | data value i is the quantised per-index sum over all waves; every value is an int16, and a sum in [-1,1] is never clipped but is the rounding of 32767 times it |
| Wav.EncodePcm | src/wavegen.py:176-177 | a file is 44 + 2n bytes and starts with the header for n samples |
| Wav.ParseWav | src/wavegen.py:200-230 | the reference file reader inverse to the file writer: a parse that succeeds found a 44-byte header and one sample per byte pair after it |
| Wav.ReadField | src/wavegen.py:183-198 | the reference reader inverse to the field writers: reading a field of a given kind yields a field of that kind |
| Wav.ReadFields | src/wavegen.py:200-221 | the reference reader inverse to the header writer: reading a list of kinds yields one field per kind |
| Wav.ParseHeader | src/wavegen.py:200-221 | the reference header reader inverse to the header writer: an accepted header declares a non-negative, even data size |
| Wav.CheckFields | src/wavegen.py:205-221 | the reference reader's check of the header fields the writer emits: accepted fields declare a non-negative, even data size |
| Wav.FieldRoundTrip | src/wavegen.py:183-198 | a field in range reads back from its own bytes, whatever follows them |
| Wav.ReadSerialized | src/wavegen.py:183-198 | a list of fields in range reads back from its serialisation, whatever follows it |
| Wav.SerializeCons | src/wavegen.py:183-198 | a field list is written field by field, front to back |
| Wav.KindsTail | src/wavegen.py:200-221 | the kinds of a field list's tail are the tail of its kinds |
| Wav.ReadFieldsCons | src/wavegen.py:200-221 | a field list is read field by field, each from the bytes after the previous one |
| Wav.HeaderParses | src/wavegen.py:200-221 | for a rate and a sample count whose header fields fit 32 bits, the header reads back as that rate and 2n data bytes, so all fixed tags and constants (RIFF, 36+2n, WAVE, fmt, 16, 1, 1, rate, 2*rate, 2, 16, data) are as the format requires |
| Wav.HeaderFieldsCheck | src/wavegen.py:205-221 | the header's field values pass every check of the reader |
| Wav.HeaderReadsBack | src/wavegen.py:200-221 | the header bytes read back as exactly the thirteen fields written |
| Wav.HeaderFieldsFit | src/wavegen.py:205-221 | within the 32-bit limits every header field is in range for its width |
| Wav.HeaderFieldKinds | src/wavegen.py:205-221 | the written header fields have the fixed kind layout of the header |
| Wav.PcmDataRoundTrip | src/wavegen.py:223-230 | int16 samples written as data read back exactly |
| Wav.EncodeParseRoundTrip | src/wavegen.py:176-230 | a file encoded from a rate and int16 samples parses back to that rate and those samples |
| Wav.ParseEncodedHeader | src/wavegen.py:200-221 | any byte string that starts with the header for n samples and has 2n data bytes parses as that rate and its data |
| Wav.Resize | src/wavegen.py:167-170 | the cache list is grown with fresh caches or popped at the end to the wave count, keeping the surviving prefix |
| Wav.GenerateAll | src/wavegen.py:172-174 | generating every wave yields one cache and one sample list per wave |
| Wav.RenderAll | src/wavegen.py:172-174 | rendering every wave gives one sample list per wave, each long enough for the file |
| Wav.AllRenderSplit | src/wavegen.py:173-174 | all waves render exactly when the first one does and the rest do |
| Wav.GenerateAllTransparent | src/wavegen.py:172-174 | from consistent caches, generating every wave succeeds exactly when all waves render, returns the fresh renderings and leaves consistent caches |
| Wav.ConsistentSplit | src/wavegen.py:173-174 | in a list of consistent caches the first one and the rest are consistent |
| Wav.ConsistentJoin | src/wavegen.py:173-174 | a consistent cache followed by consistent caches is consistent (join direction) |
| Wav.GenerateFile | src/wavegen.py:164-177 | a generated file keeps one cache per wave and is 44 + 2 * sample count bytes long |
| Wav.GenerateFileTransparent | src/wavegen.py:164-177 | from consistent caches, a file is produced exactly when the sound record reads, every wave renders and the count is not negative; its bytes are those of a fresh rendering and the caches stay consistent |
| Wav.Encode | src/wavegen.py:176-177 | the file is 44 + 2n bytes and starts with the header for the sound's rate and n samples |
| Wav.DataSample | src/wavegen.py:223-230 | pair i of the file reads back as the quantised per-index mix of all waves |
| Wav.GeneratedFileParses | src/wavegen.py:176-230 | a generated file parses back to its rate and the quantised mix of all waves |
| CommPort.EmptyPort | src/wavegen.py:235-238 | a new port is idle and satisfies the port invariant |
| CommPort.Set | src/wavegen.py:240-248 | `set` puts PLAY/STOP in the slot, appends anything else to the queue, raises the flag and keeps the invariant |
| CommPort.Get | src/wavegen.py:250-261 | `get` hands out the queue head when there is one, otherwise empties the slot; the flag stays equal to "something waits"; one command fewer waits |
| CommPort.Drain | src/wavegen.py:250-261 | calling `get` until the port is idle hands out exactly as many commands as were waiting |
| CommPort.SetAll | src/wavegen.py:240-248 | a batch of `set` calls keeps the port invariant |
| CommPort.Queued | src/wavegen.py:245-246 | the queued part of a submission never contains PLAY or STOP |
| CommPort.LastCoalesced | src/wavegen.py:242-243 | what the slot keeps from a submission is PLAY or STOP |
| CommPort.SetAllState | src/wavegen.py:240-248 | after a batch the queue holds the non-PLAY/STOP commands in submission order and the slot the last PLAY/STOP, or what it held before |
| CommPort.SetAllSnoc | src/wavegen.py:240-248 | submitting one more command is one more `set` |
| CommPort.DrainOrder | src/wavegen.py:250-261 | the port delivers its queue in order, then its slot |
| CommPort.Coalescing | src/wavegen.py:240-261 | of commands submitted to an idle port, the thread receives every queued one in submission order, then only the last PLAY or STOP |
| Worker.Idle | src/wavegen.py:289-292 | the thread starts running, with nothing prepared and no output |
| Worker.Step | src/wavegen.py:294-316 | one command: only QUIT ends the loop; effects are only appended; WRITE without a prepared file and a failed rendering raise; WRITE and DROP clear the prepared file; STOP, QUIT and PLAY keep it; only PLAY changes the player's caches |
| Worker.Run | src/wavegen.py:289-316 | the loop keeps the port invariant and ends only when the port is idle or QUIT was handled |
| Worker.RunIsSteps | src/wavegen.py:289-316 | the loop handles exactly the commands the port hands out, in order, one step each |
| Worker.PlayPlayStop | src/wavegen.py:240-316 | PLAY, PLAY, STOP submitted together render nothing and only stop the sound |
| Worker.PrepareBeforePlay | src/wavegen.py:240-316 | PREPARE, PLAY, WRITE writes the prepared file first and starts playback last, leaving nothing prepared |
| Worker.PlayServedLast | src/wavegen.py:250-261 | the port hands out PREPARE and WRITE before the PLAY submitted between them |
| Worker.StepsCons | src/wavegen.py:292-294 | a running thread handles the first command, then the rest |
| Worker.WriteNeedsPrepare | src/wavegen.py:310-316 | DROP always succeeds, and WRITE right after DROP raises |
| Worker.QuitIsFinal | src/wavegen.py:296-298 | after QUIT nothing else is handled: the thread has stopped, the sound is stopped, the prepared file is untouched |
| Editor.LimitBody | src/plot.py:157-160 | body points are clamped into the unit square and left alone inside it |
| Editor.LimitHandle | src/plot.py:224-227 | handles are clamped to x in [0,1], y in [-0.25, 1.25] and left alone inside that box |
| Editor.HandleMove | src/plot.py:234-243 | a moved handle lies in its box and never crosses its body's x (left at or before it, right at or after it); an admissible target is taken as is |
| Editor.Spawn | src/plot.py:169-183 | a new body point is clamped; it has a left handle exactly when it has a predecessor and a right handle exactly when it has a successor, 0.02 away at the same height, on the correct side |
| Editor.InitialChain | src/plot.py:272-276 | a new curve is a valid two-point chain at mid height |
| Editor.MovedX | src/plot.py:200-206 | the first and last body keep their x; an interior body's x stays between its neighbours and is the requested x when that already lies between them |
| Editor.Carry | src/plot.py:212-216 | a handle carried along by its body stays on its side and in its box, and is shifted rigidly when the shifted position is admissible |
| Editor.MoveBody | src/plot.py:200-216 | a body move changes only that body: its y is clamped, its x is bounded by its neighbours, and it has a handle on each side exactly when it had one |
| Editor.MoveBodyValid | src/plot.py:200-216 | a body move keeps the chain valid: x non-decreasing, handles in their boxes on their sides, end points without outer handles |
| Editor.MoveBodyRigid | src/plot.py:212-216 | a handle whose shifted position is admissible moves by exactly the body's displacement |
| Editor.MoveHandle | src/plot.py:234-243 | a handle move changes only that handle of that body |
| Editor.MoveHandleValid | src/plot.py:234-243 | a handle move keeps the chain valid |
| Editor.InsertIndex | src/plot.py:418-426 | the insertion position is after the head and at most the tail; every body it passes has x <= the new x, and the body it stops before, unless it is the tail, has a greater x |
| Editor.InsertFrom | src/plot.py:420-426 | the scan from position k stops at the first body with a greater x, or at the tail |
| Editor.FindInsertIndex | src/plot.py:418-426 | the imperative scan finds the insertion position |
| Editor.AddControlPoint | src/plot.py:418-426 | insertion grows the chain by one, keeps every other body in order around the new one, and spawns the new one with both handles |
| Editor.AddControlPointValid | src/plot.py:418-426 | insertion keeps the chain valid, and the new body lies between its neighbours in x |
| Editor.InsertedPlaces | src/plot.py:418-426 | after insertion the old bodies are at their old positions before the new one and shifted by one after it |
| Editor.InsertOrdered | src/plot.py:418-426 | after insertion body x is non-decreasing along the whole chain |
| Editor.InsertBodiesOk | src/plot.py:418-426 | after insertion every body keeps its handles in their boxes and on their sides, with end points lacking their outer handle |
| Editor.IsDeletable | src/plot.py:436-444 | a point may be deleted exactly when it is a body point strictly between the head and the tail |
| Editor.Delete | src/plot.py:185-198 | deletion removes exactly that body, and its handles with it, and keeps all others in order |
| Editor.DeleteValid | src/plot.py:431-434 | deleting an interior body keeps the chain valid |
| Editor.GetCurves | src/plot.py:482-489 | there is one segment per adjacent pair of bodies, and in a valid chain every segment starts with a handle right of its start and ends with a handle left of its end, both in the handle box, the end not left of the start |
| Editor.ValidLinked | src/plot.py:482-489 | in a valid chain every handle the curve extraction reads exists |
| Editor.CurvesAreSegments | src/plot.py:482-489 | the segments the editor extracts are exactly those baking forms from the serialised chain, and a valid chain always bakes |
| Editor.CalculateZoomAsWritten | src/plot.py:320-337 | a zoom beyond the limit leaves the range unchanged; an accepted zoom-out wider than 1 shows the whole curve (0, 1); every other accepted zoom divides the width by the multiplier, whatever the edge branches do |
| Editor.ZoomAsWrittenLeavesUnitRange | src/plot.py:320-337 | zooming out at the left edge of (0.1, 0.9) yields (0.1, 1.06), past the right end of the curve |
| Editor.Scaled | src/plot.py:323-327 | a zoom step keeps the focus inside the range and divides the range's width by the multiplier |
| Editor.CalculateZoom | src/plot.py:320-337 | a zoom beyond the limit leaves the range unchanged; a view inside [0,1] stays inside [0,1]; a zoom-out wider than 1 shows everything; otherwise the width is divided by the multiplier |
| Editor.ZoomKeepsFocus | src/plot.py:320-337 | when no edge is hit, the focus point sits at the same relative position in the new range as in the old |
| Legacy.CalculateLines | waveform-editor.py:31-37 | the step is halved until it is at most 25 px, so the interval count is the least power of two that reaches it; the lines start at p0, end at p1, and line i is the rounded position p0 + i*step |
| Legacy.GridLines | waveform-editor.py:37 | the grid list has count+1 entries, starts at p0, ends at p1, and each inner entry is the rounded grid position |
| Legacy.Halve | waveform-editor.py:32-36 | the halving loop stops with a power-of-two count whose step is at most 25 px and whose half would not have been |
| Legacy.StepAbove | waveform-editor.py:34 | the loop test on the real step is the integer test distance > 25 * count |
| Legacy.CurveOf | waveform-editor.py:374-378 | a curve built from a valid chain has one segment per adjacent pair of bodies |
| Legacy.Points | waveform-editor.py:380-388 | generation succeeds exactly with at least one segment and yields 100 points per segment plus one |
| Legacy.CurveOfBakesLikeTriples | waveform-editor.py:380-406 | the older curve generator yields the same polyline as baking the serialised chain |
| Legacy.GetY | waveform-editor.py:411-436 | getY succeeds exactly when the total time is non-zero and the y axis converts; on a sorted polyline it is the converted reference interpolant at t/total, and the converted end values outside the domain |
| Legacy.GetYAtScaledTime | waveform-editor.py:332-339 | querying at x * total time is converting the lookup at x |
| Legacy.MakeWave | waveform-editor.py:441-446 | a wave takes its total time from the frequency curve; its rate and its sample count are within 1/2 of the given rate and of rate * time / 1000 |
| Legacy.BakeCurves | waveform-editor.py:448-450 | generating the wave bakes both curves exactly when each has a segment, changing nothing else |
| Legacy.CalculateWave | waveform-editor.py:503-521 | the sample loop yields one sample per position, each equal to the per-position definition |
| Legacy.WaveStep | waveform-editor.py:507-520 | one iteration produces the sample at its position and the radian phase of the next one |
| Legacy.Advance | waveform-editor.py:516-518 | the accumulator is advanced by the step and wrapped once; from a phase in [0, period) with a step of at most one period it stays in [0, period) |
| Legacy.NoGating | waveform-editor.py:513-520 | a sample with non-zero sine is never silenced, whatever its level |
| Legacy.FracWrapsOnce | src/wavegen.py:154 | `modf` removes nothing from [0,1) and exactly 1 from [1,2) |
| Legacy.WrapScaled | waveform-editor.py:517-518 | the single subtraction wraps any value in [0, 2 * period) into [0, period) |
| Legacy.ScaledWrap | waveform-editor.py:516-518 | wrapping the radian sum once is `modf` of the turn sum, scaled by 2π |
| Legacy.RadPhaseIsTurns | waveform-editor.py:516-518 | with steps of at most one turn, the radian accumulator is always the turn accumulator of the newer engine scaled by 2π, and lies in one period |
| Legacy.StepsScale | waveform-editor.py:516 | for frequencies up to the rate each step is at most one turn, and the radian step is 2π times the turn step |
| Legacy.RadiansAreTurns | waveform-editor.py:504-518 | the older radian phase is 2π times a turn phase in [0,1) kept by `modf`, as in the newer engine |
| Legacy.PhaseInRange | waveform-editor.py:515-518 | for frequencies between 0 and the rate the radian phase stays in [0, 2π) |
| Legacy.SampleOfTurns | waveform-editor.py:513-520 | each older sample is the newer engine's sine shape at the turn phase, times the level |
| Legacy.SineOfTurns | waveform-editor.py:515 | the sine of the radian phase is the newer sine shape at the turn phase |
| Legacy.Quantized | waveform-editor.py:496-501 | data value i is sample i rounded and clipped to int16; every value is an int16, and a sample in [-1,1] is never clipped but is the rounding of 32767 times it |
| Legacy.Generate | waveform-editor.py:448-501 | the older writer succeeds exactly when both curves bake and the wave samples (or has no samples); its buffer is 44 + 2n bytes starting with the same header |
| Legacy.GeneratedParses | waveform-editor.py:448-501 | a file of the older writer parses back to its rate and its quantised samples |

## Left out

- Threading: the `threading.Event` wait and the thread start are not modelled. `get` is only called when something is waiting, and the loop is run until the port is idle.
- Sound and files: `PlaySound` with its `winsound` flags and `writeToFile` become effects that the worker records (`StopSound`, `PlayLoop`, `WriteFile`). The bytes written are the modelled buffer.
- Floating point: reals stand for IEEE doubles. `math.sin`, `math.log10`, `10 **`, `math.pi` and the built-in `round` (half to even) are abstract. The laws in `Numerics.Lawful` are all the proofs assume of them.
- The one-sample case: a sound with exactly one sample divides by zero in the sample loop. The model reports this as an error (`SingleSample`) instead of computing anything.
- Curve monotonicity: a baked polyline need not be sorted in x, because handles are not bounded by the neighbouring bodies. The lookup's reference definition is therefore proved equal only on x-sorted polylines; the bracket property holds for any order.
- Drawing: all tkinter code, pixel conversion and pixel rounding, menus, mouse bindings and the widgets of the main window.
- Glue code: the main application glue, the JSON load/save and the `Panel` serialisation. Input records are modelled as the datatypes `SoundInput`, `WaveInput` and `Triple`.
- Object state: the doubly linked chain of point objects is a sequence; `prev`/`next` links and object identity are implicit in the positions. `Editor.Delete` works on a body index rather than a point object.
- Worker.Step: the worker models the thread's effects on its own state and output only. A Python exception inside the loop ends the model's run with the failure, where the real thread dies silently.
- Legacy.Render: adapts the older `Wave` to `Worker` and has no contract of its own. The older thread renders from scratch on every PLAY, which is what its stateless player expresses.
- Wav.HeaderParses: the round trip holds for rates and sample counts whose 32-bit header fields do not wrap (`2 * rate` and `36 + 2n` below 2^32). Larger values wrap modulo 2^32 (`Wav.Int32Wraps`) and no longer read back. The same bound limits `Wav.HeaderReadsBack`, `Wav.HeaderFieldsFit`, `Wav.EncodeParseRoundTrip`, `Wav.ParseEncodedHeader`, `Wav.GeneratedFileParses` and `Legacy.GeneratedParses`.

## Findings

| source | as written | input that shows it | evidently intended | confidence | as-written member | corrected member |
|---|---|---|---|---|---|---|
| src/plot.py:320-337 | after scaling, the edge checks test the old `x_start`/`x_stop` instead of the new range, so a zoom-out that crosses 0 or 1 is not shifted back | view (0.1, 0.9), focus x = 0.1, multiplier 1/1.2 gives (0.1, 1.06) | test the new range's ends, so a view inside [0,1] stays inside [0,1] | not executed | Editor.CalculateZoomAsWritten, Editor.ZoomAsWrittenLeavesUnitRange | Editor.CalculateZoom, Editor.ZoomKeepsFocus |
