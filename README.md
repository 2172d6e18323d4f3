# Wavetable LFO generator — a verified model of the generation pipeline

`app.js` turns three settings into a downloadable 16-bit PCM WAV wavetable.
The settings are an event count, a shape name and a combine chance. The
wavetable holds 256 frames of 256 samples, and each frame is one 16-step
rhythmic pattern rendered as audio. The pipeline (`generateWavetable`) runs
five stages in order:

1. `generateRandomShape` builds a 16-entry lookup table for the 'random' shape.
2. `generatePatterns` draws 256 distinct 0/1 patterns with exactly `numEvents`
   events each, by rejection sampling into a string-keyed Set.
3. `applyCombineLogic` turns, by coin flip, adjacent single events `1, 1` into
   a double event and a cleared step `2, 0`.
4. `renderAudioData` and `renderShape` walk every pattern with a running
   position and write 16-sample spans for single events and 32-sample spans
   for double events into a buffer pre-filled with -1.0.
5. `createWavBlob` and `writeString` lay out the canonical 44-byte RIFF/WAVE
   header (a PCM "fmt " chunk, mono, 16 bits, then a "data" chunk) and the
   samples as little-endian int16 codes.

The model follows the source's own form. Loops are Dafny methods with loop
invariants. The typed arrays the source fills in place are Dafny arrays: the
pattern `Uint8Array`, the copy in the combine pass, the random table, the
audio `Float32Array` and the `DataView` bytes. Every method except the
pattern generator is proved against a specification function:

- `Combined` and `CombinedAll` specify the combine pass;
- `RandomTable` specifies the random table;
- `Rendered`, `RenderFrame` and `Block` specify the audio;
- `WavFile`, `Header` and `Pcm` specify the file bytes.

Lemmas then state what the source promises about each of those functions.
The pattern generator (`GeneratePatterns`, `DrawPattern`) is specified by the
properties of its result instead: counts, 0/1 entries and distinctness.
Each call to `Math.random()` is the next element of an explicit stream of
draws (module `Randomness`). A stage that draws returns the rest of the stream
for the next stage.

Modules, one file each: `Constants`, `Randomness`, `Patterns`, `Combine`,
`Shapes`, `Render`, `Wav`, `Pipeline`.

## Model

| member | source | states |
|---|---|---|
| Constants.Geometry | app.js:3-6 | The constants: 256 frames of 256 samples, 16 steps of 16 samples each, 65 536 samples in all. |
| Patterns.GeneratePatterns | app.js:116-140 | On success: exactly `frameCount` patterns. Each has `stepCount` steps, all 0 or 1, with exactly `eventCount` ones. The patterns are pairwise distinct. `frameCount <= C(stepCount, eventCount)`, and `eventCount <= stepCount` when any pattern exists. Only draws from the front of the stream are consumed. |
| Patterns.DrawPattern | app.js:120-128 | The inner loop yields a 0/1 pattern of `stepCount` steps with exactly `eventCount` events. It fails only when the draws run out. |
| Patterns.Join | app.js:131 | The Set key of a pattern has one decimal digit character per step. Split decodes it back (SplitJoin). |
| Patterns.Split | app.js:136 | Decoding a digit string gives one single-digit entry per character. |
| Patterns.CountPlace | app.js:124-127 | Setting a silent step to 1 raises the event count by exactly one. |
| Patterns.SplitJoin | app.js:131-137 | `split('').map(Number)` of the `join('')` key gives back the pattern. |
| Patterns.JoinInjective | app.js:131 | Two patterns share a Set key if and only if they are equal. |
| Patterns.KeysDistinct | app.js:119-137 | Distinct keys mean distinct patterns. There are at most C(n, k) of them, and `k <= n` when there is one. |
| Patterns.ArrangementsComplete | app.js:119-128 | Every n-step 0/1 pattern with k events is in the enumeration `Arrangements(n, k)`. |
| Patterns.ArrangementsCard | app.js:119-128 | That enumeration has exactly C(n, k) entries. |
| Patterns.DistinctPatternsBound | app.js:119 | Distinct patterns with k events in n steps number at most C(n, k), so the outer loop can only finish when `C(stepCount, eventCount) >= frameCount`. |
| Combine.Combined | app.js:147-161 | The pass over one pattern keeps its length and only consumes draws from the front. |
| Combine.CombinePattern | app.js:147-161 | The loop over the copied array, including the `i++` skip after a rewrite, returns exactly `Combined`: the same pattern, the same draws left, or `Exhausted`. |
| Combine.CombineAt | app.js:149-157 | One loop turn extends the finished prefix by the step's outcome and keeps the loop's link to `Combined`. A flip below `chance` rewrites (1, 1) to (2, 0) and skips a step. |
| Combine.MergePair | app.js:154-155 | The two writes replace steps i and i+1 by 2 and 0 and change nothing else. |
| Combine.CombinedAll | app.js:146-162 | `patterns.map` keeps the number of patterns and only consumes draws from the front. |
| Combine.ApplyCombineLogic | app.js:146-162 | Equals `CombinedAll`: the patterns in order, each pass drawing where the last one stopped. |
| Combine.CombinedConservesOccupancy | app.js:151-157 | `count(1) + 2 count(2)` of the output equals that of the input. |
| Combine.PairOccupancy | app.js:154-155 | (2, 0) occupies as many steps as (1, 1). |
| Combine.CombinedMerges | app.js:151-157 | The output is the input with some adjacent (1, 1) pairs rewritten to (2, 0), and nothing else changed. |
| Combine.MergedShape | app.js:151-157 | On a 0/1 input a merge holds only 0, 1, 2. Silent steps stay silent. A 1 survives only where it was. Every 2 lies before the last step and is followed by a 0. |
| Combine.CombinedWithoutFlipsIsIdentity | app.js:153 | When no flip lands below `chance` (e.g. `chance = 0`), the output equals the input. |
| Combine.CombinedAllMerges | app.js:146-162 | Every output pattern is a merge of its input pattern with the same occupancy. |
| Combine.CombinedAllWithoutFlipsIsIdentity | app.js:146-162 | When no draw lies below `chance`, the pass over the whole list returns every pattern unchanged. |
| Shapes.ShapeOf | app.js:214-236 | A name is unrecognised exactly when it is none of 'sine', 'triangle', 'saw', 'pulse', 'random'. |
| Shapes.Clamp | app.js:242 | `Math.max(-1, Math.min(1, x))` lies in [-1, 1]. It is the identity inside that range and saturates outside it. |
| Shapes.Phase | app.js:209-210 | The phase lies in [0, 1]. It is 0 at the first sample of a span of two or more, and 1 at the last sample. |
| Shapes.RandomIndex | app.js:233 | `floor(t (len - 1))` is a valid table index: the first at t = 0 and the last at t = 1. |
| Shapes.Unipolar | app.js:212-236 | The switch value of each shape. The triangle lies in [0, 1] and peaks (1) exactly at t = 0.5. The saw lies in [0, 1] and reaches 1 exactly at t = 1. The pulse is 1 exactly for t < 0.5 and 0 otherwise. The random shape returns an entry of its table. |
| Shapes.Sample | app.js:207-242 | Every sample renderShape stores lies in [-1, 1]. |
| Shapes.Span | app.js:206-244 | The span of one event has `duration` samples, all in [-1, 1]. |
| Shapes.UnipolarInUnit | app.js:219-235 | Triangle, saw, pulse and the random lookup (over a [0, 1] table) stay in [0, 1]. |
| Shapes.SampleIsRemapped | app.js:238-242 | For those shapes the stored sample is exactly `2 u - 1`: the clamp never fires. |
| Shapes.UnrecognisedIsSilent | app.js:212-242 | An unrecognised shape name renders -1.0 throughout. |
| Shapes.ShapeEndpoints | app.js:219-226 | The saw runs from -1 to 1. The triangle starts and ends at -1. |
| Shapes.Interpolated | app.js:98-100 | Sample i of the first loop lies between `lastVal` (the first draw) and its control draw, and equals `lastVal` on every fourth sample. |
| Shapes.FadeGain | app.js:104-109 | The taper gain lies in [0, 1]. It is below 1 in the first and in the last `length / 8` samples, and exactly 1 in between. |
| Shapes.FadeGainSymmetric | app.js:104-109 | Both writes of the taper loop use the same ramp: sample i and sample `length - 1 - i` get the same gain. |
| Shapes.RandomTable | app.js:89-111 | The table generateRandomShape returns holds `length` samples, each the interpolated value times its fade gain. |
| Shapes.GenerateRandomShape | app.js:89-111 | Succeeds exactly when the stream holds `1 + ceil(length / 4)` draws. The table is then `RandomTable` of those draws, and exactly that many draws are consumed. |
| Shapes.InterpolateSegments | app.js:92-101 | The first loop draws `lastVal` once and a fresh control value every fourth sample. Each sample is the interpolation of `lastVal` and its control value. It fails exactly when the draws run out. |
| Shapes.TaperEnds | app.js:104-109 | After the taper loop each sample is its old value times its fade gain. |
| Shapes.RandomTableInUnit | app.js:89-111 | With draws in [0, 1), every table value lies in [0, 1). |
| Shapes.RandomTableEndsAtZero | app.js:104-109 | For `length >= 8` the first and last table values are 0. |
| Shapes.RandomTableRestartsAtFirstDraw | app.js:93-100 | Since `lastVal` is never reassigned, every fourth untapered sample equals the very first draw. |
| Render.Block | app.js:178-191 | A step's block is 32 samples for a double event and 16 otherwise. |
| Render.RenderFrame | app.js:176-197 | A renderable pattern renders to exactly 256 samples. |
| Render.Rendered | app.js:173-198 | `n` frames render to `FrameSamples(n)` (= 256 n) samples. |
| Render.RenderedInRange | app.js:170-242 | Every rendered sample lies in [-1, 1]. |
| Render.FrameLands | app.js:173-198 | Frame f of the render occupies exactly the samples [256 f, 256 (f + 1)) and holds the render of pattern f. |
| Render.StepLands | app.js:176-196 | In a frame, step s (not swallowed by a double event) starts at sample 16 s. A silent step keeps 16 samples of -1.0, a double event holds the 32-sample span and any other event the 16-sample span. |
| Render.RenderShape | app.js:206-244 | Exactly the samples `startPos .. startPos + duration - 1` are overwritten, with the event's span. The rest of the buffer is unchanged. |
| Render.RenderStep | app.js:177-195 | A silent step leaves the buffer alone. An event writes its block. The returned duration (16, or 32 for type 2) is the block's width. |
| Render.RenderFrameAt | app.js:176-197 | The step loop of one frame writes exactly that frame's 256 samples at its start and leaves the rest of the buffer as it was. The running `audioPos` it returns has advanced by exactly 256. |
| Render.RenderAudioData | app.js:167-200 | The buffer of 65 536 samples is the render of the first 256 patterns, frame after frame, with one running `audioPos` carried from frame to frame. |
| Wav.Le16 | app.js:265-283 | The two bytes a 16-bit DataView setter stores. ReadU16OfLe16 and ReadI16OfLe16 read them back. |
| Wav.Le32 | app.js:259-274 | The four bytes `setUint32` stores. ReadU32OfLe32 reads them back. |
| Wav.Latin | app.js:290-294 | The bytes `writeString` stores, one per character. TextOfLatin reads them back. |
| Wav.ReadU16OfLe16 | app.js:265-270 | `setUint16` stores the value modulo 2^16, and it reads back as such. |
| Wav.ReadI16OfLe16 | app.js:283 | `setInt16` of a signed 16-bit value reads back as that value. |
| Wav.ReadU32OfLe32 | app.js:259-274 | `setUint32` stores the value modulo 2^32, and it reads back as such. |
| Wav.TextOfLatin | app.js:290-294 | The bytes `writeString` stores for a one-byte string read back as that string. |
| Wav.SetUint8 | app.js:292 | One byte, the code modulo 256, is written at `offset`. The bytes after it are unchanged. |
| Wav.SetUint16 | app.js:265-283 | The two little-endian bytes of the value are written at `offset`. The bytes after them are unchanged. |
| Wav.SetUint32 | app.js:259-274 | The four little-endian bytes of the value are written at `offset`. The bytes after them are unchanged. |
| Wav.WriteString | app.js:290-294 | The string's bytes are written at `offset`. The bytes after them are unchanged. |
| Wav.Quantise | app.js:280-282 | A sample's code lies in [-32767, 32767], and saturates at both ends. |
| Wav.QuantiseMonotone | app.js:280-282 | Larger samples never get smaller codes. |
| Wav.Pcm | app.js:277-285 | `n` samples take `2 n` bytes. |
| Wav.RiffFields | app.js:257-260 | Bytes 0-11 read as "RIFF", `fileSize - 8` (mod 2^32), "WAVE". |
| Wav.FormatHeadFields | app.js:262-266 | Bytes 12-23 read as "fmt ", 16, 1 (PCM), 1 (mono). |
| Wav.FormatRatesFields | app.js:267-270 | Bytes 24-35 read as the sample rate, twice the sample rate (both mod 2^32), 2, 16. |
| Wav.DataHeadFields | app.js:272-274 | Bytes 36-43 read as "data" and the data size (mod 2^32). |
| Wav.HeaderParts | app.js:257-274 | The file's bytes 0-11, 12-23, 24-35 and 36-43 are the four header parts. |
| Wav.SizesMatchFile | app.js:251-274 | The RIFF size field is the file length less 8. The data size field is the file length less 44. |
| Wav.PcmSample | app.js:277-285 | Sample i is stored at PCM bytes 2 i and 2 i + 1. |
| Wav.SampleReadsBack | app.js:276-285 | Read as int16 at byte 44 + 2 i, the file gives back the quantised sample i. |
| Wav.WriteRiffDescriptor | app.js:257-260 | The first three writes put the RIFF descriptor at bytes 0-11. |
| Wav.WriteFormatHead | app.js:262-266 | The next four writes put the first half of the "fmt " chunk at bytes 12-23. |
| Wav.WriteFormatRates | app.js:267-270 | The next four writes put the second half at bytes 24-35. |
| Wav.WriteDataHead | app.js:272-274 | The last two header writes put the "data" head at bytes 36-43. |
| Wav.RiffDescriptor | app.js:257-260 | The 12-byte RIFF descriptor. RiffFields reads its fields back. |
| Wav.FormatHead | app.js:262-266 | The first 12 bytes of the "fmt " chunk. FormatHeadFields reads its fields back. |
| Wav.FormatRates | app.js:267-270 | The last 12 bytes of the "fmt " chunk. FormatRatesFields reads its fields back. |
| Wav.DataHead | app.js:272-274 | The 8-byte head of the "data" chunk. DataHeadFields reads its fields back. |
| Wav.Header | app.js:250-274 | The header is 44 bytes: the four parts in order, for a file of `44 + 2 n` bytes. |
| Wav.WavFile | app.js:250-285 | The file is `44 + 2 n` bytes: the header, then the PCM bytes of the first `n` samples. SampleReadsBack reads each sample back. |
| Wav.CreateWav | app.js:250-288 | The blob is exactly `WavFile`: the 44-byte header, then each of the first `totalSamples` samples as an int16 code, `44 + 2 totalSamples` bytes in all. |
| Pipeline.RandomShapeFor | app.js:54 | The table is drawn only for the 'random' shape, and is empty otherwise. |
| Pipeline.ArrangeFrames | app.js:56-60 | Patterns, then the combine pass: a frame set of 256 distinct patterns, and the combined patterns are exactly `CombinedAll` of them at `combineChance`, from a later point of the stream. So each is merged with its occupancy kept. Draws come from the front of the stream. |
| Pipeline.MergedRenderable | app.js:59-63 | Combining 0/1 patterns keeps every one renderable (16 steps, no double event on the last). |
| Pipeline.RenderWav | app.js:62-66 | The audio is the render of the combined patterns (65 536 samples). The blob is its WAV file at 44 100 Hz. |
| Pipeline.GenerateWavetable | app.js:52-84 | On success `numEvents <= 16`, and draws come from the front of the stream. The products are as `Generated` describes: the random table, the frame set, the combine pass over it at `combineChance`, its render and the WAV file. |
| Pipeline.NoChanceKeepsPatterns | app.js:56-60 | With a combine chance of 0 and draws in [0, 1), the combined patterns are the generated ones. |

## Left out

- DOM lookups, event listeners, `setTimeout`, status text, `console.log`, the Blob URL, the download link and its filename (app.js:1-48, 68-83) are UI and I/O. The Blob is modelled by the bytes it wraps; its MIME type is not modelled.
- `Math.sin` in the 'sine' case is transcendental. It is the function parameter `halfSine` of a `Voice`. Because the clamp follows it, every sample stays in [-1, 1] whatever it returns.
- Float32Array rounding is floating-point numerics. Samples are `real`, and `Math.floor` is exact on them.
- `Math.random()` is an explicit, finite stream of draws. Every drawing stage returns `Exhausted` when the stream runs out, where the browser would simply keep drawing. Uniformity and probabilistic termination are not modelled.
- Patterns.GeneratePatterns: the outer loop is bounded by the parameter `maxAttempts` (candidate patterns drawn), which the source does not have. When fewer than `frameCount` distinct patterns exist (for example `eventCount` 0 or 16), the source never returns, and the model returns `Exhausted` once the attempts run out.
- Patterns.GeneratePatterns: the contract states what the patterns are, not which patterns a given stream of draws produces or in which order.
- Patterns.DrawPattern: the contract states the shape of the pattern (0/1, exactly `eventCount` events), not which positions the draws select.
- Render.RenderAudioData: it requires at least 256 patterns, each with 16 steps and no double event on the last step. A type 2 on step 15 would push `audioPos` 16 samples into the next frame. The combine pass never produces one from 0/1 patterns (`Pipeline.MergedRenderable`). JavaScript's silently ignored out-of-range writes are not modelled.
- Shapes.Unipolar: the 'random' case requires a non-empty table (`Playable`). The source would read `undefined` from an empty table, and `generateWavetable` always builds 16 entries.
- Wav.CreateWav: it requires `totalSamples <= |audioData|`. The source would read `undefined` past the end, and `generateWavetable` always passes the full 65 536 samples.
- Wav.CreateWav: the sample rate is a natural number. `setInt16` is written by the same little-endian writer as `setUint16`, since both store the value modulo 2^16.
- Wav.WriteString: characters are Dafny code points, and `charCodeAt` gives UTF-16 code units. The two differ only beyond the Basic Multilingual Plane, and the header strings are ASCII.
