# Melody generator and WAV renderer, modelled in Dafny

This project models the working part of `server.js`. That part has two steps.

1. `generateMelody` builds a melody of `duration * 120` notes. Note `i` covers
   beat `i`: it starts at `i * 0.5` s and ends half a second later. Its pitch
   is one of the seven C-major frequencies, chosen with
   `Math.floor(Math.random() * 7)`.
2. `createWavFile` renders the melody to a mono, 16-bit, 44100 Hz PCM file in
   the WAVE form of RIFF. It works in four stages:
   - it writes a 44-byte header through `DataView` setters, using its helper
     `writeString`;
   - it writes each note's sine samples into a zeroed sample channel;
   - it clamps each sample to [-1, 1], multiplies by 32767 and floors;
   - it stores each sample little-endian from byte 44 on.

There are three modules:

- `LittleEndian` (LittleEndian.dfy) models the `DataView` setters on an
  `array` of bytes, reducing values as ECMAScript does: ToUint8, ToUint16 and
  ToUint32 wrap around. Its decoders read fields back, and round-trip lemmas
  tie the two together in both directions.
- `Melody` (Melody.dfy) has `GenerateMelody`, a `while` loop that appends to the
  melody as the counted `for` loop in the source does. Its `ensures` gives the
  length, each note's pitch index, and the beat-grid shape. The randomness is a
  parameter: a sequence of reals in [0, 1), one per `Math.random()` call.
- `WavFile` (WavFile.dfy) has `CreateWavFile` and its stages as methods with
  loops over arrays, each tied to a specification function:
  - `WriteHeader` to `Header`;
  - `SynthesizeChannel` to `Synthesize`;
  - `QuantizeChannel` to `Pcm`;
  - `WritePayload` to `Payload`;
  - the whole method to `Render`.

  The lemmas then read the file back: every header field at its offset, every
  sample at `44 + 2k`, and which note's sound ends up at each sample index.
  `BeatGridFile` gives the file for any melody on the beat grid, which is what
  `GenerateMelody` produces.

`Math.sin(2 * Math.PI * f * t)`, stored in a `Float32Array`, is a parameter
`tone: (real, real) -> real` applied to the frequency and `t = i / 44100`.
Times are Dafny `real`s.

The model follows the code where the code differs from the WAVE layout or from
what a caller would expect:

- the RIFF chunk size is written as `32 + 2 * totalSamples`;
- an empty melody throws instead of giving a header-only file;
- quantisation floors, so negative samples round down, not toward zero;
- `totalBeats = duration * tempo` is not floored, which does not matter for
  the whole-number `duration` that `parseInt` yields.

`CorrectedRender` is the file the WAVE layout calls for. It is kept beside the
as-written `Render`, and the lemmas about it are in "## Findings".
`CreateWavFile` itself stays as written.

## Model

| member | source | states |
|---|---|---|
| `Melody.NoteIndex` | server.js:36 | for a draw r in [0, 1), `floor(r * 7)` is an index in [0, 7), and r lies in that index's seventh of [0, 1) |
| `Melody.GenerateMelody` | server.js:25-48 | exactly `duration * 120` notes; note i has the frequency `noteFrequencies[floor(r_i * 7)]` and spans [i/2, i/2 + 1/2); the melody starts at 0, is contiguous, every note lasts 0.5 s and every pitch is one of the seven |
| `Melody.BeatGridShape` | server.js:38-44 | a melody on the beat grid starts at 0, is contiguous and is made of 0.5 s notes |
| `Melody.ShapeIsBeatGrid` | server.js:38-44 | conversely, starting at 0, contiguity and 0.5 s notes put note i at i * 0.5 |
| `Melody.BeatGridSpan` | server.js:38-43 | the last note of an n-note beat-grid melody ends at n * 0.5 s |
| `LittleEndian.Uint16RoundTrip` | server.js:64-69 | reading back what setUint16 stored gives the value modulo 2^16 |
| `LittleEndian.Int16RoundTrip` | server.js:97 | reading back, as a signed 16-bit number, what setInt16 stored gives every value in [-32768, 32768) |
| `LittleEndian.Uint32RoundTrip` | server.js:60-71 | reading back what setUint32 stored gives the value modulo 2^32 |
| `LittleEndian.Uint16Onto` | server.js:64-69 | every byte pair is what setUint16 stores for the value it decodes to |
| `LittleEndian.Uint32Onto` | server.js:60-71 | every four bytes are what setUint32 stores for the value they decode to |
| `LittleEndian.SetUint8` | server.js:106 | the buffer afterwards has the value modulo 256 at the offset and is unchanged elsewhere |
| `LittleEndian.SetUint16` | server.js:64 | the buffer afterwards holds the value's two little-endian bytes at the offset and is unchanged elsewhere |
| `LittleEndian.SetInt16` | server.js:97 | the buffer afterwards holds the two's complement bytes at the offset and is unchanged elsewhere |
| `LittleEndian.SetUint32` | server.js:60 | the buffer afterwards holds the value's four little-endian bytes at the offset and is unchanged elsewhere |
| `WavFile.WriteString` | server.js:104-108 | the buffer afterwards holds each character code (mod 256) from the offset on and is unchanged elsewhere |
| `WavFile.WriteHeader` | server.js:59-71 | bytes 0 to 43 afterwards are the header for the sample count; the rest of the buffer is untouched |
| `WavFile.WriteRiffDescriptor` | server.js:59-61 | bytes 0 to 11 afterwards are "RIFF", the chunk size, "WAVE"; nothing else changes |
| `WavFile.WriteFmtChunk` | server.js:62-69 | bytes 12 to 35 afterwards are the fmt chunk; nothing else changes |
| `WavFile.WriteDataChunkHead` | server.js:70-71 | bytes 36 to 43 afterwards are "data" and the data size; nothing else changes |
| `WavFile.TotalSamples` | server.js:54-55 | the sample count is the floor of the last note's end time times 44100: the largest whole number of samples within the span |
| `WavFile.StartIndex` | server.js:76 | a note's first sample index is the floor of its start time times 44100 |
| `WavFile.NoteSamples` | server.js:75 | a note is written for the floor of its length times 44100 samples |
| `WavFile.Place` | server.js:79-83 | one note's inner loop writes its sound at every index it covers inside the channel and leaves every other sample as it was; writes outside the channel are skipped, as a Float32Array skips them |
| `WavFile.Synthesize` | server.js:73 | the channel has exactly totalSamples samples |
| `WavFile.SynthesizeChannel` | server.js:73-84 | the nested loops leave in the channel exactly the samples `Synthesize` describes |
| `WavFile.SynthesizeAt` | server.js:73-84 | sample k is 0 when no note covers it; otherwise it is the sound of the last note covering it, at k minus that note's start index |
| `WavFile.Clamp` | server.js:88 | the clamped sample lies in [-1, 1]; it equals the input inside that range and the nearer bound outside it |
| `WavFile.Quantize` | server.js:88-89 | the quantised sample lies in [-32767, 32767] and is the largest integer not above clamp(x) * 32767 |
| `WavFile.QuantizeMonotone` | server.js:88-89 | quantisation preserves the order of samples |
| `WavFile.QuantizeFloorsNegatives` | server.js:89 | a scaled sample that is negative and not a whole number quantises to one below its truncation toward zero (-0.5 gives -16384, not -16383) |
| `WavFile.QuantizeTruncatesNonNegatives` | server.js:89 | on non-negative samples flooring and truncation toward zero agree |
| `WavFile.ToInt16` | server.js:86-89 | the Int16Array conversion gives a value in [-32768, 32768) congruent to its input modulo 2^16 |
| `WavFile.Pcm` | server.js:85-92 | the Int16Array has one entry per sample, equal to the quantised sample: storing it loses nothing |
| `WavFile.QuantizeChannel` | server.js:85-92 | the loop computes `Pcm` of the channel; every entry lies in [-32767, 32767] |
| `WavFile.Payload` | server.js:93-100 | the payload holds two bytes per sample |
| `WavFile.PayloadAt` | server.js:93-99 | sample k occupies payload bytes 2k and 2k + 1, as setInt16 stores it |
| `WavFile.WritePayload` | server.js:93-100 | after the loop, bytes 44 on are the payload and the header bytes are unchanged |
| `WavFile.Header` | server.js:59-71 | the header is 44 bytes; its RIFF size field reads back `32 + 2 * totalSamples` and its data size field `2 * totalSamples`, both mod 2^32 |
| `WavFile.Render` | server.js:50-103 | an empty melody fails with `MissingLastNote`; a non-empty one succeeds exactly when totalSamples >= 0 and fails with `RangeError` otherwise; a success is `44 + 2 * totalSamples` bytes |
| `WavFile.CorrectedRender` | server.js:54-60 | the file the RIFF layout calls for fails only with `RangeError`, succeeds for the empty melody and for every non-negative sample count, and is `44 + 2 * totalSamples` bytes (44 for the empty melody) |
| `WavFile.CreateWavFile` | server.js:50-103 | an empty melody throws (`MissingLastNote`); a negative sample count throws (`RangeError`); otherwise the result is `44 + 2 * totalSamples` bytes, equal to `Render` |
| `WavFile.AsciiBytes` | server.js:104-108 | one byte per character |
| `WavFile.TagRoundTrip` | server.js:104-108 | the bytes writeString stores read back as the string when its character codes are below 256 |
| `WavFile.RiffDescriptorFields` | server.js:59-61 | bytes 0-3 read "RIFF", 4-7 the chunk size mod 2^32, 8-11 "WAVE" |
| `WavFile.FmtChunkFields` | server.js:62-69 | the fmt chunk reads "fmt ", 16, 1, 1, 44100, 88200, 2, 16 at its offsets |
| `WavFile.DataChunkHeadFields` | server.js:70-71 | the data head reads "data" and `2 * totalSamples` mod 2^32 |
| `WavFile.HeaderFields` | server.js:59-71 | at offsets 0, 4, 8, 12, 16, 20, 22, 24, 28, 32, 34, 36 and 40 the header reads back "RIFF", the RIFF size, "WAVE", "fmt ", 16, 1, 1, 44100, 88200, 2, 16, "data" and `2 * totalSamples` |
| `WavFile.RenderedHeaderFields` | server.js:59-71 | in the file createWavFile returns, the 13 header fields read back at their offsets as "RIFF", `32 + 2 * totalSamples`, "WAVE", "fmt ", 16, 1, 1, 44100, 88200, 2, 16, "data" and `2 * totalSamples` |
| `WavFile.RenderLayout` | server.js:54-100 | a non-empty melody with totalSamples >= 0 renders to `44 + 2 * totalSamples` bytes that start with the header; the 16-bit number at `44 + 2k` is the quantised sample k of the channel |
| `WavFile.BeatGridSamples` | server.js:73-84 | for an n-note beat-grid melody, totalSamples is 22050 n; sample k is note `k / 22050`'s tone at time `(k mod 22050) / 44100`, so no sample stays silent |
| `WavFile.BeatGridFile` | server.js:50-100 | a beat-grid melody renders to `44 + 44100 n` bytes; the 16-bit number at `44 + 2k` is the quantised tone of beat `k / 22050` |
| `WavFile.DataSizeAsWritten` | server.js:71 | the data chunk size equals the number of bytes after the header |
| `WavFile.RiffSizeAsWritten` | server.js:60 | the RIFF chunk size written is the file length minus 12 |
| `WavFile.CorrectedSizes` | server.js:60 | with chunk size `36 + 2 * totalSamples` the RIFF size is the file length minus 8 |
| `WavFile.CorrectedEmptyMelody` | server.js:54 | corrected, an empty melody renders to a 44-byte file with RIFF size 36 and data size 0 |

## Left out

- The Express route, static file serving, `app.listen` and the response headers (server.js:6-23, 110-112): HTTP plumbing.
- The `uuidv4` file name and `fs.writeFileSync` (server.js:14-18): file I/O and a foreign library.
- `parseInt` of the query string (server.js:12): `duration` is a `nat`. A negative number such as `-3`, or the NaN a malformed query gives, runs the loop zero times, just as `0` does, so it ends in the empty-melody error.
- `Math.random` (server.js:36): replaced by a sequence of reals in [0, 1), the range `Math.random` promises.
- `Math.sin`, `Math.PI` and `Float32Array` rounding (server.js:73, 80-82): floating-point numerics. They are the `tone` parameter, whose value is taken to be what the channel holds.
- Double-precision rounding of times: times are exact `real`s. For beat-grid melodies every time and index is exact in binary floating point too, but for arbitrary melodies `startTime * 44100` in `StartIndex` (and likewise in `TotalSamples` and `NoteSamples`) may round differently.
- UTF-16 code units (server.js:105-106): `charCodeAt` returns UTF-16 code units, but a Dafny `char` is a Unicode scalar value, so a character outside the Basic Multilingual Plane would be one byte in `WriteString` and two in the source. Only the ASCII tags "RIFF", "WAVE", "fmt " and "data" are ever written, so nothing in the file depends on this.
- Allocation failure of a very large `ArrayBuffer` or `Float32Array` (server.js:56, 73): memory is not modelled.
- The loop over channels (server.js:95) runs once, because `numberOfChannels` is 1. The model writes that single pass inline and keeps one channel instead of an array of channels (server.js:73, 85-92).
- The `async` wrapper and the unused `WavEncoder` import (server.js:4, 50), and the copy made by `Buffer.from` (server.js:102). The result is the buffer's contents as a sequence.
- Running a render twice gives identical bytes, since everything here is a deterministic function of the melody and `tone`. No lemma states this because it holds by construction.

## Findings

| source | as written | input that shows it | evidently intended | confidence | as-written member | corrected member |
|---|---|---|---|---|---|---|
| server.js:60 | RIFF chunk size `32 + totalSamples * 2`, the file length minus 12 | the one-note melody 440 Hz from 0 to 0.5 s: a 44144-byte file whose RIFF size reads 44132 | `36 + totalSamples * 2`, the file length minus 8, as the RIFF layout requires (44136) | high, not executed | `WavFile.RiffSizeAsWritten` | `WavFile.CorrectedSizes` |
| server.js:54 | an empty melody reads `endTime` of `melody[-1]`, which is undefined, and throws | `duration` 0, for which `generateMelody` returns no notes | a header-only 44-byte file whose data size is 0 | medium, not executed | `WavFile.CreateWavFile` | `WavFile.CorrectedEmptyMelody` |
