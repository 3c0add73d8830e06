/** Rendering a melody to a 16-bit mono PCM WAVE file (createWavFile and
    writeString in server.js): a 44-byte RIFF header, then one little-endian
    signed 16-bit sample per 1/44100 s of the melody's span. */
module WavFile {

  import opened LittleEndian
  import opened Melody

  const SampleRate: nat := 44100
  const NumberOfChannels: nat := 1
  const BitDepth: nat := 16
  const HeaderSize: nat := 44
  /** The factor a clamped sample is scaled by before it is floored. */
  const FullScale: int := 32767
  /** Samples in one beat: half a second at 44100 Hz. */
  const SamplesPerBeat: nat := 22050

  /** The exceptions createWavFile can throw. */
  datatype Error =
    | MissingLastNote  // an empty melody has no last note to read endTime from (a TypeError)
    | RangeError       // a negative sample count makes the buffer too small or its length invalid

  datatype Result<T> = Success(value: T) | Failure(error: Error)

  /** The value Math.sin(2 * Math.PI * frequency * t) stored into the
      Float32Array, for a frequency and a time t in seconds. */
  type Oscillator = (real, real) -> real

  // ---------------------------------------------------------------------------
  // Specification functions

  /** The span of a melody: the end of its last note. */
  function Span(melody: seq<Note>): (t: real)
    requires |melody| > 0
  {
    melody[|melody| - 1].endTime
  }

  /** Math.floor(duration * sampleRate): the whole samples that fit within
      the melody's span. */
  function TotalSamples(melody: seq<Note>): (n: int)
    requires |melody| > 0
    ensures n as real <= Span(melody) * SampleRate as real < n as real + 1.0
  {
    (Span(melody) * SampleRate as real).Floor
  }

  /** The first sample index a note is written at. */
  function StartIndex(note: Note): (s: int)
    ensures s as real <= note.startTime * SampleRate as real < s as real + 1.0
  {
    (note.startTime * SampleRate as real).Floor
  }

  /** How many samples a note is written for. */
  function NoteSamples(note: Note): (n: int)
    ensures n as real <= (note.endTime - note.startTime) * SampleRate as real < n as real + 1.0
  {
    ((note.endTime - note.startTime) * SampleRate as real).Floor
  }

  /** Whether the synthesis loop of a note writes sample index k. */
  predicate Covers(note: Note, k: int) {
    StartIndex(note) <= k < StartIndex(note) + NoteSamples(note)
  }

  /** The value a note writes at sample index k: its oscillator, sampled at the
      time elapsed since the note's first sample. */
  function Sound(note: Note, tone: Oscillator, k: int): (v: real) {
    tone(note.frequency, (k - StartIndex(note)) as real / SampleRate as real)
  }

  /** The channel after one note has been written into it. Indices outside the
      channel are skipped, as a Float32Array ignores writes out of its range. */
  function Place(channel: seq<real>, note: Note, tone: Oscillator): (r: seq<real>)
    ensures |r| == |channel|
    ensures forall k :: 0 <= k < |r| && Covers(note, k) ==> r[k] == Sound(note, tone, k)
    ensures forall k :: 0 <= k < |r| && !Covers(note, k) ==> r[k] == channel[k]
  {
    seq(|channel|, k requires 0 <= k < |channel| =>
      if Covers(note, k) then Sound(note, tone, k) else channel[k])
  }

  /** The channel of `total` samples after every note of the melody has been
      written into silence, in order. */
  function Synthesize(melody: seq<Note>, tone: Oscillator, total: nat): (r: seq<real>)
    ensures |r| == total
    decreases |melody|
  {
    if |melody| == 0 then seq(total, _ => 0.0)
    else Place(Synthesize(melody[..|melody| - 1], tone, total), melody[|melody| - 1], tone)
  }

  function Min(a: real, b: real): (m: real) { if a <= b then a else b }
  function Max(a: real, b: real): (m: real) { if a >= b then a else b }

  /** Math.max(-1, Math.min(1, x)). */
  function Clamp(x: real): (c: real)
    ensures -1.0 <= c <= 1.0
    ensures -1.0 <= x <= 1.0 ==> c == x
    ensures x < -1.0 ==> c == -1.0
    ensures x > 1.0 ==> c == 1.0
  {
    Max(-1.0, Min(1.0, x))
  }

  /** Math.floor(clamp(x) * 32767): the largest integer not above the scaled
      sample, so negative values are rounded down, not toward zero. */
  function Quantize(x: real): (q: int)
    ensures -FullScale <= q <= FullScale
    ensures q as real <= Clamp(x) * FullScale as real < q as real + 1.0
  {
    (Clamp(x) * FullScale as real).Floor
  }

  /** The conversion an Int16Array applies when a number is stored in it. */
  function ToInt16(v: int): (w: int)
    ensures -0x8000 <= w < 0x8000
    ensures (w - v) % Two16 == 0
  {
    (v + 0x8000) % Two16 - 0x8000
  }

  /** The Int16Array of quantised samples. */
  function Pcm(channel: seq<real>): (r: seq<int>)
    ensures |r| == |channel|
    ensures forall i :: 0 <= i < |r| ==> r[i] == Quantize(channel[i])
  {
    seq(|channel|, i requires 0 <= i < |channel| => ToInt16(Quantize(channel[i])))
  }

  /** The bytes the payload loop writes: each sample as setInt16 stores it, in order. */
  function Payload(pcm: seq<int>): (r: seq<byte>)
    ensures |r| == 2 * |pcm|
    decreases |pcm|
  {
    if |pcm| == 0 then []
    else Payload(pcm[..|pcm| - 1]) + Uint16Bytes(pcm[|pcm| - 1])
  }

  /** The bytes writeString stores: each character code as setUint8 stores it. */
  function AsciiBytes(s: string): (b: seq<byte>)
    ensures |b| == |s|
  {
    seq(|s|, i requires 0 <= i < |s| => (s[i] as int) % 256)
  }

  /** Reads a run of bytes back as the characters with those codes. */
  function DecodeTag(b: seq<byte>): (s: string)
    ensures |s| == |b|
  {
    seq(|b|, i requires 0 <= i < |b| => b[i] as char)
  }

  /** The RIFF chunk descriptor: the "RIFF" tag, the chunk size and the
      "WAVE" form type. */
  function RiffDescriptor(riffSize: int): (b: seq<byte>)
    ensures |b| == 12
  {
    AsciiBytes("RIFF") + Uint32Bytes(riffSize) + AsciiBytes("WAVE")
  }

  /** The "fmt " chunk: size 16, format tag 1 (PCM), one channel, 44100 Hz,
      88200 bytes per second, block align 2, 16 bits per sample. */
  function FmtChunk(): (b: seq<byte>)
    ensures |b| == 24
  {
    AsciiBytes("fmt ") + Uint32Bytes(16) + Uint16Bytes(1) + Uint16Bytes(NumberOfChannels)
    + Uint32Bytes(SampleRate) + Uint32Bytes(SampleRate * 2 * NumberOfChannels)
    + Uint16Bytes(NumberOfChannels * 2) + Uint16Bytes(BitDepth)
  }

  /** The head of the "data" chunk: its tag and its size in bytes. */
  function DataChunkHead(total: int): (b: seq<byte>)
    ensures |b| == 8
  {
    AsciiBytes("data") + Uint32Bytes(total * 2)
  }

  /** The 44-byte header with a given RIFF chunk size, for `total` samples. */
  function HeaderWith(riffSize: int, total: int): (h: seq<byte>)
    ensures |h| == HeaderSize
  {
    RiffDescriptor(riffSize) + FmtChunk() + DataChunkHead(total)
  }

  /** The header createWavFile writes: its RIFF chunk size is 32 + 2 * total. */
  function Header(total: int): (h: seq<byte>)
    ensures |h| == HeaderSize
    ensures DecodeUint32(h[4..8]) == (32 + total * 2) % Two32
    ensures DecodeUint32(h[40..44]) == (total * 2) % Two32
  {
    HeaderFields(32 + total * 2, total);
    HeaderWith(32 + total * 2, total)
  }

  /** What createWavFile returns or throws for a melody. */
  function Render(melody: seq<Note>, tone: Oscillator): (r: Result<seq<byte>>)
    ensures |melody| == 0 ==> r == Failure(MissingLastNote)
    ensures |melody| > 0 ==> (r.Success? <==> TotalSamples(melody) >= 0)
    ensures |melody| > 0 && r.Failure? ==> r.error == RangeError
    ensures r.Success? ==> |r.value| == HeaderSize + 2 * TotalSamples(melody)
  {
    if |melody| == 0 then Failure(MissingLastNote)
    else
      var total := TotalSamples(melody);
      if total < 0 then Failure(RangeError)
      else Success(Header(total) + Payload(Pcm(Synthesize(melody, tone, total))))
  }

  /** The file the RIFF layout calls for: RIFF chunk size 36 + 2 * total, and an
      empty melody rendered as a header with no samples. */
  function CorrectedRender(melody: seq<Note>, tone: Oscillator): (r: Result<seq<byte>>)
    ensures r.Failure? ==> r.error == RangeError
    ensures r.Success? <==> (|melody| == 0 || TotalSamples(melody) >= 0)
    ensures r.Success? ==>
              |r.value| == HeaderSize + 2 * (if |melody| == 0 then 0 else TotalSamples(melody))
  {
    var total := if |melody| == 0 then 0 else TotalSamples(melody);
    if total < 0 then Failure(RangeError)
    else Success(HeaderWith(36 + total * 2, total) + Payload(Pcm(Synthesize(melody, tone, total))))
  }

  // ---------------------------------------------------------------------------
  // The imperative code

  /** writeString: stores the code of each character of `s` from `offset` on. */
  method WriteString(view: array<byte>, offset: nat, s: string)
    requires offset + |s| <= view.Length
    modifies view
    ensures view[..] == Overwrite(old(view[..]), offset, AsciiBytes(s))
  {
    var i := 0;
    while i < |s|
      invariant 0 <= i <= |s|
      invariant forall k :: 0 <= k < view.Length ==>
                  view[k] == if offset <= k < offset + i then AsciiBytes(s)[k - offset] else old(view[k])
    {
      SetUint8(view, offset + i, s[i] as int);
      i := i + 1;
    }
    assert view[..] == Overwrite(old(view[..]), offset, AsciiBytes(s));
  }

  /** Writes the header fields (server.js:59-71) into the start of the buffer,
      chunk by chunk in the order of the source's calls. */
  method WriteHeader(view: array<byte>, totalSamples: int)
    requires view.Length >= HeaderSize
    modifies view
    ensures view[..HeaderSize] == Header(totalSamples)
    ensures forall k :: HeaderSize <= k < view.Length ==> view[k] == old(view[k])
  {
    WriteRiffDescriptor(view, 32 + totalSamples * 2);
    ghost var riff := view[0..12];
    WriteFmtChunk(view);
    assert view[0..12] == riff;
    ghost var fmt := view[12..36];
    WriteDataChunkHead(view, totalSamples);
    assert view[0..12] == riff && view[12..36] == fmt;
    assert view[..HeaderSize] == view[0..12] + view[12..36] + view[36..44];
  }

  /** server.js:59-61: "RIFF", the RIFF chunk size, "WAVE". */
  method WriteRiffDescriptor(view: array<byte>, riffSize: int)
    requires view.Length >= HeaderSize
    modifies view
    ensures view[0..12] == RiffDescriptor(riffSize)
    ensures forall k :: 12 <= k < view.Length ==> view[k] == old(view[k])
  {
    ghost var s := view[..];
    WriteString(view, 0, "RIFF");
    Extend(s, view[..], 0, 0, AsciiBytes("RIFF"), []);
    ghost var p := AsciiBytes("RIFF");
    s := view[..];
    SetUint32(view, 4, riffSize);
    Extend(s, view[..], 0, 4, Uint32Bytes(riffSize), p);
    p, s := p + Uint32Bytes(riffSize), view[..];
    WriteString(view, 8, "WAVE");
    Extend(s, view[..], 0, 8, AsciiBytes("WAVE"), p);
  }

  /** server.js:62-69: the "fmt " chunk. */
  method WriteFmtChunk(view: array<byte>)
    requires view.Length >= HeaderSize
    modifies view
    ensures view[12..36] == FmtChunk()
    ensures forall k :: 0 <= k < view.Length && !(12 <= k < 36) ==> view[k] == old(view[k])
  {
    ghost var s := view[..];
    WriteString(view, 12, "fmt ");
    Extend(s, view[..], 12, 12, AsciiBytes("fmt "), []);
    ghost var p := AsciiBytes("fmt ");
    s := view[..];
    SetUint32(view, 16, 16);
    Extend(s, view[..], 12, 16, Uint32Bytes(16), p);
    p, s := p + Uint32Bytes(16), view[..];
    SetUint16(view, 20, 1);
    Extend(s, view[..], 12, 20, Uint16Bytes(1), p);
    p, s := p + Uint16Bytes(1), view[..];
    SetUint16(view, 22, NumberOfChannels);
    Extend(s, view[..], 12, 22, Uint16Bytes(NumberOfChannels), p);
    p, s := p + Uint16Bytes(NumberOfChannels), view[..];
    SetUint32(view, 24, SampleRate);
    Extend(s, view[..], 12, 24, Uint32Bytes(SampleRate), p);
    p, s := p + Uint32Bytes(SampleRate), view[..];
    SetUint32(view, 28, SampleRate * 2 * NumberOfChannels);
    Extend(s, view[..], 12, 28, Uint32Bytes(SampleRate * 2 * NumberOfChannels), p);
    p, s := p + Uint32Bytes(SampleRate * 2 * NumberOfChannels), view[..];
    SetUint16(view, 32, NumberOfChannels * 2);
    Extend(s, view[..], 12, 32, Uint16Bytes(NumberOfChannels * 2), p);
    p, s := p + Uint16Bytes(NumberOfChannels * 2), view[..];
    SetUint16(view, 34, BitDepth);
    Extend(s, view[..], 12, 34, Uint16Bytes(BitDepth), p);
  }

  /** server.js:70-71: "data" and the data chunk size. */
  method WriteDataChunkHead(view: array<byte>, totalSamples: int)
    requires view.Length >= HeaderSize
    modifies view
    ensures view[36..44] == DataChunkHead(totalSamples)
    ensures forall k :: 0 <= k < view.Length && !(36 <= k < 44) ==> view[k] == old(view[k])
  {
    ghost var s := view[..];
    WriteString(view, 36, "data");
    Extend(s, view[..], 36, 36, AsciiBytes("data"), []);
    ghost var p := AsciiBytes("data");
    s := view[..];
    SetUint32(view, 40, totalSamples * 2);
    Extend(s, view[..], 36, 40, Uint32Bytes(totalSamples * 2), p);
  }

  /** A write of `b` at `offset` extends what was written from `base` up to
      `offset` by `b`, and leaves the bytes outside its own range alone. */
  lemma Extend(before: seq<byte>, after: seq<byte>, base: nat, offset: nat, b: seq<byte>, prefix: seq<byte>)
    requires base <= offset && offset + |b| <= |before|
    requires after == Overwrite(before, offset, b)
    requires before[base..offset] == prefix
    ensures after[base..offset + |b|] == prefix + b
    ensures forall k :: 0 <= k < |before| && !(base <= k < offset + |b|) ==> after[k] == before[k]
  {
    assert after[base..offset] == before[base..offset];
    assert after[offset..offset + |b|] == b;
    assert after[base..offset + |b|] == after[base..offset] + after[offset..offset + |b|];
  }

  /** The nested synthesis loops (server.js:73-84): a zeroed channel, into which
      each note writes its samples in turn. */
  method SynthesizeChannel(melody: seq<Note>, tone: Oscillator, totalSamples: nat)
    returns (samples: seq<real>)
    ensures samples == Synthesize(melody, tone, totalSamples)
  {
    var channel := new real[totalSamples](_ => 0.0);
    for n := 0 to |melody|
      invariant channel[..] == Synthesize(melody[..n], tone, totalSamples)
    {
      var note := melody[n];
      var noteSamples := NoteSamples(note);
      var startIndex := StartIndex(note);
      var frequency := note.frequency;
      ghost var before := channel[..];
      var i := 0;
      while i < noteSamples
        invariant 0 <= i && (i == 0 || i <= noteSamples)
        invariant forall k :: 0 <= k < channel.Length ==>
                    channel[k] == if startIndex <= k < startIndex + i then Sound(note, tone, k) else before[k]
      {
        var t := i as real / SampleRate as real;
        var value := tone(frequency, t);
        if 0 <= startIndex + i < channel.Length {
          channel[startIndex + i] := value;
        }
        i := i + 1;
      }
      assert melody[..n + 1][..n] == melody[..n];
      forall k | 0 <= k < channel.Length
        ensures channel[..][k] == Place(before, note, tone)[k]
      {
        assert (startIndex <= k < startIndex + i) == Covers(note, k);
      }
      assert channel[..] == Place(before, note, tone);
    }
    assert melody[..|melody|] == melody;
    samples := channel[..];
  }

  /** The quantisation loop (server.js:85-92): clamp, scale, floor and store
      into an Int16Array. */
  method QuantizeChannel(channel: seq<real>) returns (pcm: seq<int>)
    ensures pcm == Pcm(channel)
    ensures forall i :: 0 <= i < |pcm| ==> -FullScale <= pcm[i] <= FullScale
  {
    var samples := new int[|channel|](_ => 0);
    for i := 0 to |channel|
      invariant forall j :: 0 <= j < i ==> samples[j] == ToInt16(Quantize(channel[j]))
    {
      var sample := Max(-1.0, Min(1.0, channel[i]));
      samples[i] := ToInt16((sample * FullScale as real).Floor);
    }
    pcm := samples[..];
  }

  /** The payload loop (server.js:93-100): sample i at byte offset 44 + 2i. */
  method WritePayload(view: array<byte>, pcm: seq<int>)
    requires view.Length == HeaderSize + 2 * |pcm|
    modifies view
    ensures view[..HeaderSize] == old(view[..HeaderSize])
    ensures view[HeaderSize..] == Payload(pcm)
  {
    var offset := HeaderSize;
    for i := 0 to |pcm|
      invariant offset == HeaderSize + 2 * i
      invariant view[..HeaderSize] == old(view[..HeaderSize])
      invariant view[HeaderSize..offset] == Payload(pcm[..i])
    {
      SetInt16(view, offset, pcm[i]);
      assert pcm[..i + 1][..i] == pcm[..i];
      assert view[HeaderSize..offset + 2] == view[HeaderSize..offset] + view[offset..offset + 2];
      offset := offset + 2;
    }
    assert pcm[..|pcm|] == pcm;
  }

  /** createWavFile: the header, then the synthesised, quantised and serialised
      samples; it throws for an empty melody and for a negative span. */
  method CreateWavFile(melody: seq<Note>, tone: Oscillator) returns (r: Result<seq<byte>>)
    ensures r == Render(melody, tone)
    ensures |melody| == 0 ==> r == Failure(MissingLastNote)
    ensures |melody| > 0 ==> (r.Success? <==> TotalSamples(melody) >= 0)
    ensures r.Success? ==> |r.value| == HeaderSize + 2 * TotalSamples(melody)
  {
    if |melody| == 0 {
      return Failure(MissingLastNote);
    }
    var duration := melody[|melody| - 1].endTime;
    var totalSamples := (duration * SampleRate as real).Floor;
    if totalSamples < 0 {
      return Failure(RangeError);
    }
    var view := new byte[HeaderSize + totalSamples * 2](_ => 0);
    WriteHeader(view, totalSamples);
    var channelData := SynthesizeChannel(melody, tone, totalSamples);
    var pcmSamples := QuantizeChannel(channelData);
    WritePayload(view, pcmSamples);
    ghost var payload := Payload(Pcm(Synthesize(melody, tone, totalSamples)));
    assert view[..HeaderSize] == Header(totalSamples) && view[HeaderSize..] == payload;
    assert view[..] == Header(totalSamples) + payload by {
      assert view[..] == view[..HeaderSize] + view[HeaderSize..];
    }
    assert totalSamples == TotalSamples(melody);
    return Success(view[..]);
  }

  // ---------------------------------------------------------------------------
  // Properties of the file

  /** writeString's bytes read back as the string, for character codes below 256. */
  lemma TagRoundTrip(s: string)
    requires forall i :: 0 <= i < |s| ==> (s[i] as int) < 256
    ensures DecodeTag(AsciiBytes(s)) == s
  {
  }

  lemma RiffDescriptorFields(riffSize: int)
    ensures var b := RiffDescriptor(riffSize);
      DecodeTag(b[0..4]) == "RIFF" &&
      DecodeUint32(b[4..8]) == riffSize % Two32 &&
      DecodeTag(b[8..12]) == "WAVE"
  {
    var b := RiffDescriptor(riffSize);
    assert b[0..4] == AsciiBytes("RIFF");
    assert b[4..8] == Uint32Bytes(riffSize);
    assert b[8..12] == AsciiBytes("WAVE");
    Uint32RoundTrip(riffSize);
  }

  lemma FmtChunkFields()
    ensures var b := FmtChunk();
      DecodeTag(b[0..4]) == "fmt " &&
      DecodeUint32(b[4..8]) == 16 &&
      DecodeUint16(b[8..10]) == 1 &&
      DecodeUint16(b[10..12]) == 1 &&
      DecodeUint32(b[12..16]) == 44100 &&
      DecodeUint32(b[16..20]) == 88200 &&
      DecodeUint16(b[20..22]) == 2 &&
      DecodeUint16(b[22..24]) == 16
  {
    var b := FmtChunk();
    assert b[0..4] == AsciiBytes("fmt ");
    assert b[4..8] == Uint32Bytes(16);
    assert b[8..10] == Uint16Bytes(1);
    assert b[10..12] == Uint16Bytes(NumberOfChannels);
    assert b[12..16] == Uint32Bytes(SampleRate);
    assert b[16..20] == Uint32Bytes(SampleRate * 2 * NumberOfChannels);
    assert b[20..22] == Uint16Bytes(NumberOfChannels * 2);
    assert b[22..24] == Uint16Bytes(BitDepth);
    Uint32RoundTrip(16);
    Uint32RoundTrip(SampleRate);
    Uint32RoundTrip(SampleRate * 2 * NumberOfChannels);
  }

  lemma DataChunkHeadFields(total: int)
    ensures var b := DataChunkHead(total);
      DecodeTag(b[0..4]) == "data" &&
      DecodeUint32(b[4..8]) == (total * 2) % Two32
  {
    var b := DataChunkHead(total);
    assert b[0..4] == AsciiBytes("data");
    assert b[4..8] == Uint32Bytes(total * 2);
    Uint32RoundTrip(total * 2);
  }

  /** Every header field, read back little-endian at its offset, is the value
      the corresponding DataView call stored. */
  lemma HeaderFields(riffSize: int, total: int)
    ensures var h := HeaderWith(riffSize, total);
      DecodeTag(h[0..4]) == "RIFF" &&
      DecodeUint32(h[4..8]) == riffSize % Two32 &&
      DecodeTag(h[8..12]) == "WAVE" &&
      DecodeTag(h[12..16]) == "fmt " &&
      DecodeUint32(h[16..20]) == 16 &&
      DecodeUint16(h[20..22]) == 1 &&
      DecodeUint16(h[22..24]) == 1 &&
      DecodeUint32(h[24..28]) == 44100 &&
      DecodeUint32(h[28..32]) == 88200 &&
      DecodeUint16(h[32..34]) == 2 &&
      DecodeUint16(h[34..36]) == 16 &&
      DecodeTag(h[36..40]) == "data" &&
      DecodeUint32(h[40..44]) == (total * 2) % Two32
  {
    var h := HeaderWith(riffSize, total);
    var r, f, d := RiffDescriptor(riffSize), FmtChunk(), DataChunkHead(total);
    RiffDescriptorFields(riffSize);
    FmtChunkFields();
    DataChunkHeadFields(total);
    assert h[0..4] == r[0..4] && h[4..8] == r[4..8] && h[8..12] == r[8..12];
    assert h[12..16] == f[0..4] && h[16..20] == f[4..8] && h[20..22] == f[8..10];
    assert h[22..24] == f[10..12] && h[24..28] == f[12..16] && h[28..32] == f[16..20];
    assert h[32..34] == f[20..22] && h[34..36] == f[22..24];
    assert h[36..40] == d[0..4] && h[40..44] == d[4..8];
  }

  /** A field inside the header reads the same once the payload follows it. */
  lemma SliceOfHead(head: seq<byte>, tail: seq<byte>, lo: nat, hi: nat)
    requires lo <= hi <= |head|
    ensures (head + tail)[lo..hi] == head[lo..hi]
  {
  }

  /** Sample k of the payload occupies bytes 2k and 2k + 1. */
  lemma {:induction false} PayloadAt(pcm: seq<int>, k: int)
    requires 0 <= k < |pcm|
    ensures Payload(pcm)[2 * k..2 * k + 2] == Uint16Bytes(pcm[k])
  {
    var n := |pcm| - 1;
    if k < n {
      PayloadAt(pcm[..n], k);
      assert pcm[..n][k] == pcm[k];
      assert Payload(pcm)[..2 * n] == Payload(pcm[..n]);
    }
  }

  /** Sample k of the channel is silence when no note covers it, and otherwise
      the sound of the last note that does: later notes overwrite earlier ones. */
  lemma {:induction false} SynthesizeAt(melody: seq<Note>, tone: Oscillator, total: nat, k: int)
    requires 0 <= k < total
    ensures (forall j :: 0 <= j < |melody| ==> !Covers(melody[j], k)) ==>
              Synthesize(melody, tone, total)[k] == 0.0
    ensures forall j :: (0 <= j < |melody| && Covers(melody[j], k) &&
                         (forall j' :: j < j' < |melody| ==> !Covers(melody[j'], k))) ==>
              Synthesize(melody, tone, total)[k] == Sound(melody[j], tone, k)
  {
    if |melody| > 0 {
      var front := melody[..|melody| - 1];
      SynthesizeAt(front, tone, total, k);
      assert forall j :: 0 <= j < |front| ==> front[j] == melody[j];
    }
  }

  /** The file createWavFile returns: the header for its sample count, then
      each quantised sample, which reads back little-endian at 44 + 2k. */
  lemma RenderLayout(melody: seq<Note>, tone: Oscillator)
    requires |melody| > 0 && TotalSamples(melody) >= 0
    ensures Render(melody, tone).Success?
    ensures var bytes, total := Render(melody, tone).value, TotalSamples(melody);
      |bytes| == HeaderSize + 2 * total &&
      bytes[..HeaderSize] == Header(total) &&
      forall k :: 0 <= k < total ==>
        DecodeInt16(bytes[HeaderSize + 2 * k..HeaderSize + 2 * k + 2]) ==
        Quantize(Synthesize(melody, tone, total)[k])
  {
    var total := TotalSamples(melody);
    var channel := Synthesize(melody, tone, total);
    var pcm := Pcm(channel);
    var header, payload := Header(total), Payload(pcm);
    var bytes := header + payload;
    assert Render(melody, tone) == Success(bytes);
    assert bytes[..HeaderSize] == header;
    forall k | 0 <= k < total
      ensures DecodeInt16(bytes[HeaderSize + 2 * k..HeaderSize + 2 * k + 2]) == Quantize(channel[k])
    {
      PayloadAt(pcm, k);
      assert bytes[HeaderSize + 2 * k..HeaderSize + 2 * k + 2] == payload[2 * k..2 * k + 2];
      Int16RoundTrip(pcm[k]);
    }
  }

  /** Every header field of the file createWavFile returns, read back at its
      offset, is the value the corresponding DataView call stored. */
  lemma RenderedHeaderFields(melody: seq<Note>, tone: Oscillator)
    requires |melody| > 0 && TotalSamples(melody) >= 0
    ensures Render(melody, tone).Success?
    ensures var bytes, total := Render(melody, tone).value, TotalSamples(melody);
      |bytes| >= HeaderSize &&
      DecodeTag(bytes[0..4]) == "RIFF" &&
      DecodeUint32(bytes[4..8]) == (32 + total * 2) % Two32 &&
      DecodeTag(bytes[8..12]) == "WAVE" &&
      DecodeTag(bytes[12..16]) == "fmt " &&
      DecodeUint32(bytes[16..20]) == 16 &&
      DecodeUint16(bytes[20..22]) == 1 &&
      DecodeUint16(bytes[22..24]) == 1 &&
      DecodeUint32(bytes[24..28]) == 44100 &&
      DecodeUint32(bytes[28..32]) == 88200 &&
      DecodeUint16(bytes[32..34]) == 2 &&
      DecodeUint16(bytes[34..36]) == 16 &&
      DecodeTag(bytes[36..40]) == "data" &&
      DecodeUint32(bytes[40..44]) == (total * 2) % Two32
  {
    var total := TotalSamples(melody);
    RenderLayout(melody, tone);
    HeaderFields(32 + total * 2, total);
    var bytes := Render(melody, tone).value;
    var h := bytes[..HeaderSize];
    assert h == HeaderWith(32 + total * 2, total);
    assert bytes[0..4] == h[0..4] && bytes[4..8] == h[4..8] && bytes[8..12] == h[8..12];
    assert bytes[12..16] == h[12..16] && bytes[16..20] == h[16..20] && bytes[20..22] == h[20..22];
    assert bytes[22..24] == h[22..24] && bytes[24..28] == h[24..28] && bytes[28..32] == h[28..32];
    assert bytes[32..34] == h[32..34] && bytes[34..36] == h[34..36];
    assert bytes[36..40] == h[36..40] && bytes[40..44] == h[40..44];
  }

  /** Quantisation keeps the order of samples. */
  lemma QuantizeMonotone(x: real, y: real)
    requires x <= y
    ensures Quantize(x) <= Quantize(y)
  {
  }

  /** Rounding toward zero, the conversion a truncating cast would apply. */
  function TruncateTowardZero(y: real): (t: int)
    ensures 0.0 <= y ==> t as real <= y < t as real + 1.0
    ensures y < 0.0 ==> t as real - 1.0 < y <= t as real
  {
    if y >= 0.0 then y.Floor else -((-y).Floor)
  }

  /** Negative samples are rounded down: when the scaled sample is negative and
      not a whole number, it quantises to one below what truncation toward zero
      would give (-0.5 becomes -16384, not -16383). */
  lemma QuantizeFloorsNegatives(x: real)
    requires Clamp(x) * FullScale as real < 0.0
    requires (Clamp(x) * FullScale as real).Floor as real != Clamp(x) * FullScale as real
    ensures Quantize(x) == TruncateTowardZero(Clamp(x) * FullScale as real) - 1
  {
    var y := Clamp(x) * FullScale as real;
    var q, t := Quantize(x), TruncateTowardZero(y);
    assert q as real < y < q as real + 1.0;
    assert t as real - 1.0 < y <= t as real;
  }

  /** Quantisation agrees with truncation toward zero on non-negative samples. */
  lemma QuantizeTruncatesNonNegatives(x: real)
    requires 0.0 <= x
    ensures Quantize(x) == TruncateTowardZero(Clamp(x) * FullScale as real)
  {
  }

  /** For a melody on the beat grid, as generateMelody produces, note i fills
      exactly samples 22050 i to 22050 (i + 1) - 1, and nothing is left silent. */
  lemma BeatGridSamples(melody: seq<Note>, tone: Oscillator)
    requires OnBeatGrid(melody) && |melody| > 0
    ensures TotalSamples(melody) == SamplesPerBeat * |melody|
    ensures forall k :: 0 <= k < SamplesPerBeat * |melody| ==>
              Synthesize(melody, tone, SamplesPerBeat * |melody|)[k] ==
              tone(melody[k / SamplesPerBeat].frequency, (k % SamplesPerBeat) as real / SampleRate as real)
  {
    var total := SamplesPerBeat * |melody|;
    forall j | 0 <= j < |melody|
      ensures StartIndex(melody[j]) == SamplesPerBeat * j
      ensures NoteSamples(melody[j]) == SamplesPerBeat
    {
      assert melody[j].startTime * SampleRate as real == (SamplesPerBeat * j) as real;
      assert (melody[j].endTime - melody[j].startTime) * SampleRate as real == SamplesPerBeat as real;
    }
    BeatGridSpan(melody);
    assert Span(melody) * SampleRate as real == total as real;
    forall k | 0 <= k < total
      ensures Synthesize(melody, tone, total)[k] ==
              tone(melody[k / SamplesPerBeat].frequency, (k % SamplesPerBeat) as real / SampleRate as real)
    {
      var j := k / SamplesPerBeat;
      assert Covers(melody[j], k);
      assert forall j' :: j < j' < |melody| ==> !Covers(melody[j'], k);
      SynthesizeAt(melody, tone, total, k);
    }
  }

  /** End to end: a melody of n beats, as generateMelody produces, renders to a
      file of 44 + 44100 n bytes whose sample k is beat k / 22050's tone. */
  lemma BeatGridFile(melody: seq<Note>, tone: Oscillator)
    requires OnBeatGrid(melody) && |melody| > 0
    ensures Render(melody, tone).Success?
    ensures var bytes := Render(melody, tone).value;
      |bytes| == HeaderSize + 2 * SamplesPerBeat * |melody| &&
      forall k :: 0 <= k < SamplesPerBeat * |melody| ==>
        DecodeInt16(bytes[HeaderSize + 2 * k..HeaderSize + 2 * k + 2]) ==
        Quantize(tone(melody[k / SamplesPerBeat].frequency, (k % SamplesPerBeat) as real / SampleRate as real))
  {
    BeatGridSamples(melody, tone);
    RenderLayout(melody, tone);
  }

  /** As written, the RIFF chunk size field is 4 short of the file length
      minus 8 that the RIFF layout requires. */
  lemma RiffSizeAsWritten(melody: seq<Note>, tone: Oscillator)
    requires |melody| > 0 && TotalSamples(melody) >= 0
    requires 32 + 2 * TotalSamples(melody) < Two32
    ensures Render(melody, tone).Success?
    ensures var bytes := Render(melody, tone).value;
      DecodeUint32(bytes[4..8]) == |bytes| - 12
  {
    var total := TotalSamples(melody);
    var payload := Payload(Pcm(Synthesize(melody, tone, total)));
    assert Render(melody, tone) == Success(Header(total) + payload);
    HeaderFields(32 + total * 2, total);
    SliceOfHead(Header(total), payload, 4, 8);
    DivideBy(32 + total * 2, Two32, 0, 32 + total * 2);
  }

  /** The corrected file: its RIFF chunk size is the file length minus 8. */
  lemma CorrectedSizes(melody: seq<Note>, tone: Oscillator)
    requires |melody| > 0 && TotalSamples(melody) >= 0
    requires 36 + 2 * TotalSamples(melody) < Two32
    ensures CorrectedRender(melody, tone).Success?
    ensures var bytes := CorrectedRender(melody, tone).value;
      DecodeUint32(bytes[4..8]) == |bytes| - 8
  {
    var total := TotalSamples(melody);
    var h := HeaderWith(36 + total * 2, total);
    var payload := Payload(Pcm(Synthesize(melody, tone, total)));
    assert CorrectedRender(melody, tone) == Success(h + payload);
    HeaderFields(36 + total * 2, total);
    SliceOfHead(h, payload, 4, 8);
    DivideBy(36 + total * 2, Two32, 0, 36 + total * 2);
  }

  /** In the file createWavFile returns, the data chunk size is the length
      of what follows the header. */
  lemma DataSizeAsWritten(melody: seq<Note>, tone: Oscillator)
    requires |melody| > 0 && TotalSamples(melody) >= 0
    requires 2 * TotalSamples(melody) < Two32
    ensures Render(melody, tone).Success?
    ensures var bytes := Render(melody, tone).value;
      DecodeUint32(bytes[40..44]) == |bytes| - HeaderSize
  {
    var total := TotalSamples(melody);
    var payload := Payload(Pcm(Synthesize(melody, tone, total)));
    assert Render(melody, tone) == Success(Header(total) + payload);
    HeaderFields(32 + total * 2, total);
    SliceOfHead(Header(total), payload, 40, 44);
    DivideBy(total * 2, Two32, 0, total * 2);
  }

  /** The corrected file for an empty melody is a bare 44-byte header whose
      RIFF chunk size is 36 and whose data chunk is empty. */
  lemma CorrectedEmptyMelody(tone: Oscillator)
    ensures CorrectedRender([], tone).Success?
    ensures var bytes := CorrectedRender([], tone).value;
      |bytes| == HeaderSize &&
      DecodeUint32(bytes[4..8]) == HeaderSize - 8 &&
      DecodeUint32(bytes[40..44]) == 0
  {
    var h := HeaderWith(36, 0);
    var silence := Synthesize([], tone, 0);
    assert Payload(Pcm(silence)) == [];
    assert CorrectedRender([], tone) == Success(h + []);
    assert h + [] == h;
    HeaderFields(36, 0);
  }
}
