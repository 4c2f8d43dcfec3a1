/**
 * Float WAV files: what the recorder writes (wspr_recorder/wav_writer.py) and what the
 * noise measurement reads back (wspr_recorder/noise.py).
 */
module WavFormat {
  import opened Audio

  const U16: int := 0x1_0000
  const U32: int := 0x1_0000_0000

  const RIFF: seq<Byte> := [82, 73, 70, 70]
  const WAVE: seq<Byte> := [87, 65, 86, 69]
  const FMT: seq<Byte> := [102, 109, 116, 32]
  const DATA: seq<Byte> := [100, 97, 116, 97]

  /** Little-endian fields. */
  function Le16(n: int): (bs: seq<Byte>)
    requires 0 <= n < U16
    ensures |bs| == 2
  {
    [n % 256, n / 256]
  }

  function Le32(n: int): (bs: seq<Byte>)
    requires 0 <= n < U32
    ensures |bs| == 4
  {
    Le16(n % U16) + Le16(n / U16)
  }

  function Get16(bs: seq<Byte>): (n: int)
    requires |bs| == 2
    ensures 0 <= n < U16
  {
    bs[0] as int + 256 * bs[1] as int
  }

  function Get32(bs: seq<Byte>): (n: int)
    requires |bs| == 4
    ensures 0 <= n < U32
  {
    Get16(bs[..2]) + U16 * Get16(bs[2..])
  }

  lemma FieldsRoundTrip(n: int)
    ensures 0 <= n < U16 ==> Get16(Le16(n)) == n
    ensures 0 <= n < U32 ==> Get32(Le32(n)) == n
  {
    if 0 <= n < U32 {
      assert Le32(n)[..2] == Le16(n % U16) && Le32(n)[2..] == Le16(n / U16);
    }
  }

  // ------------------------------------------------------------ RIFF files

  /** One chunk: a four-byte name and a body, padded to an even length in the file. */
  datatype Chunk = Chunk(id: seq<Byte>, body: seq<Byte>) {
    predicate Valid() { |id| == 4 && |body| < U32 }
  }

  function ChunkBytes(c: Chunk): seq<Byte>
    requires c.Valid()
  {
    c.id + Le32(|c.body|) + c.body + if |c.body| % 2 == 1 then [0] else []
  }

  predicate AllValid(cs: seq<Chunk>) { forall c <- cs :: c.Valid() }

  function ChunksBytes(cs: seq<Chunk>): seq<Byte>
    requires AllValid(cs)
  {
    if cs == [] then [] else ChunkBytes(cs[0]) + ChunksBytes(cs[1..])
  }

  /** A RIFF/WAVE file holding these chunks. */
  function Container(cs: seq<Chunk>): seq<Byte>
    requires AllValid(cs) && 4 + |ChunksBytes(cs)| < U32
  {
    RIFF + Le32(4 + |ChunksBytes(cs)|) + WAVE + ChunksBytes(cs)
  }

  /** The 18-byte format body of a mono float file. */
  function FloatFormat(rate: int): (body: seq<Byte>)
    requires 0 <= rate && rate * 4 < U32
    ensures |body| == 18
  {
    Le16(3) + Le16(1) + Le32(rate) + Le32(rate * 4) + Le16(4) + Le16(32) + Le16(0)
  }

  function SampleBytes(samples: seq<Sample>): (bs: seq<Byte>)
    ensures |bs| == 4 * |samples|
  {
    if samples == [] then []
    else [samples[0].b0, samples[0].b1, samples[0].b2, samples[0].b3] + SampleBytes(samples[1..])
  }

  function FloatChunks(rate: int, samples: seq<Sample>): seq<Chunk>
    requires 0 <= rate && rate * 4 < U32
  {
    [Chunk(FMT, FloatFormat(rate)), Chunk(DATA, SampleBytes(samples))]
  }

  // --------------------------------------------------------------- reading

  /** A sample as the reader returns it: four float bytes, or an int16 standing for n / 32768. */
  datatype Value = Float(sample: Sample) | Pcm(n: int)

  /** Unreadable is the (0, None) answer; Raised is the error numpy raises on a ragged payload. */
  datatype Read = Wave(rate: int, samples: seq<Value>) | Unreadable | Raised

  function Floats(bs: seq<Byte>): seq<Value>
  {
    if |bs| < 4 then [] else [Float(Sample(bs[0], bs[1], bs[2], bs[3]))] + Floats(bs[4..])
  }

  /** Two's complement. */
  function Signed16(n: int): (v: int)
    requires 0 <= n < U16
    ensures -32768 <= v < 32768 && (v == n || v == n - 65536)
  {
    if n < 32768 then n else n - U16
  }

  function Pcms(bs: seq<Byte>): seq<Value>
  {
    if |bs| < 2 then [] else [Pcm(Signed16(Get16(bs[..2])))] + Pcms(bs[2..])
  }

  /** `x[::n]`. */
  function EveryNth(x: seq<Value>, n: nat): seq<Value>
    requires n > 0
  {
    if |x| <= n then x[..if x == [] then 0 else 1] else [x[0]] + EveryNth(x[n..], n)
  }

  /** What a format body and a payload mean. */
  function Interpret(fmt: Option<seq<Byte>>, payload: Option<seq<Byte>>): Read
  {
    if fmt.None? || payload.None? || |fmt.value| < 16 then Unreadable
    else
      var f, p := fmt.value, payload.value;
      var tag, channels, rate, bits := Get16(f[0..2]), Get16(f[2..4]), Get32(f[4..8]), Get16(f[14..16]);
      if tag == 3 && bits == 32 then
        if |p| % 4 != 0 then Raised else Wave(rate, FirstChannel(Floats(p), channels))
      else if tag == 1 && bits == 16 then
        if |p| % 2 != 0 then Raised else Wave(rate, FirstChannel(Pcms(p), channels))
      else Unreadable
  }

  function FirstChannel(x: seq<Value>, channels: nat): seq<Value>
  {
    if channels > 1 then EveryNth(x, channels) else x
  }

  lemma {:induction false} FloatsAt(bs: seq<Byte>, i: nat)
    ensures |Floats(bs)| == |bs| / 4
    ensures i < |bs| / 4 ==> Floats(bs)[i] == Float(Sample(bs[4 * i], bs[4 * i + 1], bs[4 * i + 2], bs[4 * i + 3]))
    decreases |bs|
  {
    if |bs| >= 4 {
      FloatsAt(bs[4..], if i == 0 then 0 else i - 1);
    }
  }

  lemma {:induction false} PcmsAt(bs: seq<Byte>, i: nat)
    ensures |Pcms(bs)| == |bs| / 2
    ensures i < |bs| / 2 ==> Pcms(bs)[i].Pcm? && IsInt16(bs[2 * i], bs[2 * i + 1], Pcms(bs)[i].n)
    decreases |bs|
  {
    if |bs| >= 2 {
      PcmsAt(bs[2..], if i == 0 then 0 else i - 1);
    }
  }

  /** v is the signed number these two bytes hold, the low one first. */
  predicate IsInt16(low: Byte, high: Byte, v: int)
  {
    v == low as int + 256 * (if high < 128 then high as int else high as int - 256)
  }

  lemma {:induction false} EveryNthAt(x: seq<Value>, n: nat, i: nat)
    requires n > 0
    ensures i < |EveryNth(x, n)| <==> i * n < |x|
    ensures i < |EveryNth(x, n)| ==> EveryNth(x, n)[i] == x[i * n]
    decreases |x|
  {
    if i > 0 {
      assert i * n == (i - 1) * n + n && (i - 1) * n >= 0;
    }
    if |x| > n {
      EveryNthAt(x[n..], n, if i == 0 then 0 else i - 1);
    }
  }

  /** The value of the frame's first channel, w bytes from `at` on. */
  predicate ValueAt(p: seq<Byte>, at: nat, v: Value, float: bool)
  {
    if float then at + 4 <= |p| && v == Float(Sample(p[at], p[at + 1], p[at + 2], p[at + 3]))
    else at + 2 <= |p| && v.Pcm? && IsInt16(p[at], p[at + 1], v.n)
  }

  /**
   * What is read, value by value: with a float or a 16-bit format and a payload of whole
   * values, the first channel of every frame, at the format's rate.
   */
  lemma InterpretedAre(f: seq<Byte>, p: seq<Byte>, i: nat)
    requires |f| >= 16
    ensures var tag, bits, channels := f[0] as int + 256 * f[1] as int, f[14] as int + 256 * f[15] as int,
                                       f[2] as int + 256 * f[3] as int;
      var float, pcm := tag == 3 && bits == 32, tag == 1 && bits == 16;
      var w, m := bits / 8, if channels > 1 then channels else 1;
      var read := Interpret(Some(f), Some(p));
      && (read.Unreadable? <==> !float && !pcm)
      && (read.Raised? <==> (float || pcm) && |p| % w != 0)
      && (read.Wave? ==>
           && read.rate == f[4] as int + 256 * f[5] as int + 0x1_0000 * f[6] as int + 0x100_0000 * f[7] as int
           && (i < |read.samples| <==> i * m < |p| / w)
           && (i < |read.samples| ==> ValueAt(p, i * m * w, read.samples[i], float)))
  {
    hide Floats, Pcms, FirstChannel, ValueAt, IsInt16;
    assert f[4..8][..2] == f[4..6] && f[4..8][2..] == f[6..8];
    FirstChannelAt(p, Get16(f[2..4]), i);
  }

  lemma FirstChannelAt(p: seq<Byte>, channels: nat, i: nat)
    ensures var m, floats, pcms := if channels > 1 then channels else 1,
                                   FirstChannel(Floats(p), channels), FirstChannel(Pcms(p), channels);
      && (i < |floats| <==> i * m < |p| / 4) && (i < |floats| ==> ValueAt(p, i * m * 4, floats[i], true))
      && (i < |pcms| <==> i * m < |p| / 2) && (i < |pcms| ==> ValueAt(p, i * m * 2, pcms[i], false))
  {
    hide Floats, Pcms, EveryNth, IsInt16;
    var at := i * if channels > 1 then channels else 1;
    FloatsAt(p, at);
    PcmsAt(p, at);
    if channels > 1 {
      EveryNthAt(Floats(p), channels, i);
      EveryNthAt(Pcms(p), channels, i);
    }
  }

  /** The fields of the format body, where a WAV reader looks for them. */
  lemma FloatFormatFields(rate: int)
    requires 0 <= rate && rate * 4 < U32
    ensures var f := FloatFormat(rate);
      && Get16(f[0..2]) == 3 && Get16(f[2..4]) == 1 && Get32(f[4..8]) == rate && Get32(f[8..12]) == 4 * rate
      && Get16(f[12..14]) == 4 && Get16(f[14..16]) == 32 && Get16(f[16..18]) == 0
  {
    var f := FloatFormat(rate);
    FieldsRoundTrip(3); FieldsRoundTrip(1); FieldsRoundTrip(rate); FieldsRoundTrip(rate * 4);
    FieldsRoundTrip(4); FieldsRoundTrip(32); FieldsRoundTrip(0);
    assert f[0..2] == Le16(3) && f[2..4] == Le16(1) && f[4..8] == Le32(rate) && f[8..12] == Le32(rate * 4);
    assert f[12..14] == Le16(4) && f[14..16] == Le16(32) && f[16..18] == Le16(0);
    hide FloatFormat, Le16, Le32, Get16, Get32;
  }

  /** A container's size field counts what follows it. */
  lemma ContainerSize(cs: seq<Chunk>)
    requires AllValid(cs) && 4 + |ChunksBytes(cs)| < U32
    ensures var bytes := Container(cs);
      |bytes| >= 12 && bytes[..4] == RIFF && bytes[8..12] == WAVE && Get32(bytes[4..8]) == |bytes| - 8
  {
    hide ChunksBytes;
    var body := ChunksBytes(cs);
    var bytes := Container(cs);
    FieldsRoundTrip(4 + |body|);
    assert bytes[4..8] == Le32(4 + |body|);
    assert bytes[..4] == RIFF && bytes[8..12] == WAVE;
  }

  /** Python's slice of a byte string, clipped at its end. */
  function Clip(data: seq<Byte>, lo: nat, hi: nat): seq<Byte>
  {
    var top := if hi < |data| then hi else |data|;
    if lo <= top then data[lo..top] else []
  }

  /** The last format body before the first data chunk, and that chunk's body, from `pos` on. */
  function Scan(data: seq<Byte>, pos: nat, fmt: Option<seq<Byte>>): (Option<seq<Byte>>, Option<seq<Byte>>)
    decreases |data| - pos
  {
    if pos + 8 > |data| then (fmt, None)
    else
      var id, size := data[pos..pos + 4], Get32(data[pos + 4..pos + 8]);
      var next := pos + 8 + size + size % 2;
      if id == FMT then Scan(data, next, Some(Clip(data, pos + 8, pos + 8 + size)))
      else if id == DATA then (fmt, Some(Clip(data, pos + 8, pos + 8 + size)))
      else Scan(data, next, fmt)
  }

  function Parse(data: seq<Byte>): Read
  {
    if Clip(data, 0, 4) != RIFF || Clip(data, 8, 12) != WAVE then Unreadable
    else var found := Scan(data, 12, None); Interpret(found.0, found.1)
  }

  /** A file that does not begin as a RIFF/WAVE file is not read, whatever follows. */
  lemma OnlyRiffIsRead(data: seq<Byte>)
    ensures |data| < 12 || data[..4] != [82, 73, 70, 70] || data[8..12] != [87, 65, 86, 69] ==> Parse(data).Unreadable?
    ensures |data| >= 12 && data[..4] == [82, 73, 70, 70] && data[8..12] == [87, 65, 86, 69] ==>
      Parse(data) == Interpret(Scan(data, 12, None).0, Scan(data, 12, None).1)
  {
    hide Scan, Interpret;
    if |data| >= 12 {
      assert Clip(data, 0, 4) == data[..4] && Clip(data, 8, 12) == data[8..12];
    } else {
      assert |Clip(data, 8, 12)| < 4;
    }
  }

  // ------------------------------------------------- scanning a real file

  /** What a list of chunks says: the first data chunk, and the format that precedes it. */
  function Meaning(cs: seq<Chunk>, fmt: Option<seq<Byte>>): (Option<seq<Byte>>, Option<seq<Byte>>)
  {
    if cs == [] then (fmt, None)
    else if cs[0].id == FMT then Meaning(cs[1..], Some(cs[0].body))
    else if cs[0].id == DATA then (fmt, Some(cs[0].body))
    else Meaning(cs[1..], fmt)
  }

  /** The fields at the front of a chunk, wherever the chunk lies in the file. */
  lemma ChunkAt(data: seq<Byte>, before: seq<Byte>, c: Chunk, after: seq<Byte>)
    requires c.Valid() && data == before + (ChunkBytes(c) + after)
    ensures var pos := |before|;
      && pos + 8 <= |data| && data[pos..pos + 4] == c.id && Get32(data[pos + 4..pos + 8]) == |c.body|
      && Clip(data, pos + 8, pos + 8 + |c.body|) == c.body
      && |before + ChunkBytes(c)| == pos + 8 + |c.body| + |c.body| % 2
  {
    var pos, pad := |before|, if |c.body| % 2 == 1 then [0] else [];
    FieldsRoundTrip(|c.body|);
    var rest := c.body + pad + after;
    assert data == before + c.id + Le32(|c.body|) + rest;
    assert data[pos..pos + 4] == c.id;
    assert data[pos + 4..pos + 8] == Le32(|c.body|);
    assert data[pos + 8..pos + 8 + |c.body|] == c.body;
  }

  /** Scanning a sequence of chunks finds exactly what the chunks say. */
  lemma {:induction false} ScanFindsMeaning(data: seq<Byte>, before: seq<Byte>, cs: seq<Chunk>, fmt: Option<seq<Byte>>)
    requires AllValid(cs) && data == before + ChunksBytes(cs)
    ensures Scan(data, |before|, fmt) == Meaning(cs, fmt)
    decreases |cs|
  {
    hide ChunkBytes, Get32, Clip;
    if cs != [] {
      var c := cs[0];
      var after := ChunksBytes(cs[1..]);
      ChunkAt(data, before, c, after);
      assert data == (before + ChunkBytes(c)) + after;
      ScanFindsMeaning(data, before + ChunkBytes(c), cs[1..], if c.id == FMT then Some(c.body) else fmt);
    }
  }

  /** Reading a RIFF file is reading its chunks. */
  lemma ParseContainer(cs: seq<Chunk>)
    requires AllValid(cs) && 4 + |ChunksBytes(cs)| < U32
    ensures Parse(Container(cs)) == Interpret(Meaning(cs, None).0, Meaning(cs, None).1)
  {
    hide Interpret, Scan, Meaning;
    var header := RIFF + Le32(4 + |ChunksBytes(cs)|) + WAVE;
    assert Container(cs) == header + ChunksBytes(cs);
    assert Container(cs)[0..4] == RIFF && Container(cs)[8..12] == WAVE;
    ScanFindsMeaning(Container(cs), header, cs, None);
  }

  lemma {:induction false} FloatsRoundTrip(samples: seq<Sample>)
    ensures |Floats(SampleBytes(samples))| == |samples|
    ensures forall i :: 0 <= i < |samples| ==> Floats(SampleBytes(samples))[i] == Float(samples[i])
    decreases |samples|
  {
    if samples != [] {
      FloatsRoundTrip(samples[1..]);
      assert SampleBytes(samples)[4..] == SampleBytes(samples[1..]);
    }
  }

  predicate Unrelated(cs: seq<Chunk>) { forall c <- cs :: c.id != FMT && c.id != DATA }

  lemma {:induction false} MeaningSkips(cs: seq<Chunk>, rest: seq<Chunk>, fmt: Option<seq<Byte>>)
    requires Unrelated(cs)
    ensures Meaning(cs + rest, fmt) == Meaning(rest, fmt)
    decreases |cs|
  {
    if cs == [] {
      assert cs + rest == rest;
    } else {
      assert (cs + rest)[1..] == cs[1..] + rest;
      MeaningSkips(cs[1..], rest, fmt);
    }
  }

  /** The chunks of a float file, with other chunks before, between and after them. */
  function Embedded(rate: int, samples: seq<Sample>, a: seq<Chunk>, b: seq<Chunk>, c: seq<Chunk>): seq<Chunk>
    requires 0 <= rate && rate * 4 < U32
  {
    a + ([Chunk(FMT, FloatFormat(rate))] + (b + ([Chunk(DATA, SampleBytes(samples))] + c)))
  }

  /**
   * The reader recovers the rate and every sample, bit for bit, also when unrelated
   * chunks of any (padded) length stand before or between the two, and anything at all
   * after them.
   */
  lemma FloatWavRoundTrip(rate: int, samples: seq<Sample>, a: seq<Chunk>, b: seq<Chunk>, c: seq<Chunk>)
    requires 0 <= rate && rate * 4 < U32 && Unrelated(a) && Unrelated(b)
    requires AllValid(Embedded(rate, samples, a, b, c))
    requires 4 + |ChunksBytes(Embedded(rate, samples, a, b, c))| < U32
    ensures var r := Parse(Container(Embedded(rate, samples, a, b, c)));
      && r.Wave? && r.rate == rate && |r.samples| == |samples|
      && forall i :: 0 <= i < |samples| ==> r.samples[i] == Float(samples[i])
  {
    hide Container, ChunksBytes, FloatFormat, SampleBytes, Floats, Get16, Get32;
    var fmt, dat := Chunk(FMT, FloatFormat(rate)), Chunk(DATA, SampleBytes(samples));
    var tail := [dat] + c;
    ParseContainer(Embedded(rate, samples, a, b, c));
    MeaningSkips(a, [fmt] + (b + tail), None);
    assert ([fmt] + (b + tail))[1..] == b + tail;
    MeaningSkips(b, tail, Some(fmt.body));
    FloatFormatFields(rate);
    FloatsRoundTrip(samples);
  }
}

/** The writer and the reader themselves. */
module WavFile {
  import opened Audio
  import opened WavFormat

  /** `struct.pack('<I', n)`: an error outside the field's range. */
  function Pack32(n: int): Option<seq<Byte>> { if 0 <= n < U32 then Some(Le32(n)) else None }

  /**
   * Write a mono float file field by field.  None is the error of the first field that
   * does not fit; otherwise the bytes are a well-formed RIFF file of two chunks.
   */
  method WriteFloat32Wav(sampleRate: int, samples: seq<Sample>) returns (file: Option<seq<Byte>>)
    ensures file.Some? <==> 0 <= sampleRate && sampleRate * 4 < U32 && 38 + 4 * |samples| < U32
    ensures file.Some? ==>
      && AllValid(FloatChunks(sampleRate, samples))
      && 4 + |ChunksBytes(FloatChunks(sampleRate, samples))| < U32
      && file.value == Container(FloatChunks(sampleRate, samples))
  {
    var dataSize := |samples| * 4;
    var f := RIFF;
    var field := Pack32(38 + dataSize);
    if field.None? { return None; }
    f := f + field.value + WAVE;
    f := f + FMT + Le32(18) + Le16(3) + Le16(1);
    field := Pack32(sampleRate);
    if field.None? { return None; }
    f := f + field.value;
    field := Pack32(sampleRate * 4);
    if field.None? { return None; }
    f := f + field.value + Le16(4) + Le16(32) + Le16(0);
    field := Pack32(dataSize);
    if field.None? { return None; }
    f := f + DATA + field.value + SampleBytes(samples);
    TwoChunks(sampleRate, samples);
    return Some(f);
  }

  /** The fields in the order they are written are the two chunks behind a RIFF header. */
  lemma TwoChunks(rate: int, samples: seq<Sample>)
    requires 0 <= rate && rate * 4 < U32 && 38 + 4 * |samples| < U32
    ensures var cs := FloatChunks(rate, samples);
      && AllValid(cs) && |ChunksBytes(cs)| == 34 + 4 * |samples|
      && Container(cs) == RIFF + Le32(38 + 4 * |samples|) + WAVE + FMT + Le32(18) + Le16(3) + Le16(1) + Le32(rate) +
           Le32(rate * 4) + Le16(4) + Le16(32) + Le16(0) + DATA + Le32(4 * |samples|) + SampleBytes(samples)
  {
    hide Le16, Le32, SampleBytes, FloatFormat, ChunksBytes;
    var cs := FloatChunks(rate, samples);
    var a, b := cs[0], cs[1];
    PairBytes(a, b);
    assert cs == [a, b];
    var size := 4 * |samples|;
    FormatAfter(RIFF + Le32(38 + size) + WAVE + FMT + Le32(18), rate);
  }

  lemma PairBytes(a: Chunk, b: Chunk)
    requires a.Valid() && b.Valid()
    ensures ChunksBytes([a, b]) == ChunkBytes(a) + ChunkBytes(b)
  {
    hide ChunkBytes;
    assert [a, b][1..] == [b] && [b][1..] == [];
    assert ChunksBytes([b]) == ChunkBytes(b);
  }

  lemma FormatAfter(p: seq<Byte>, rate: int)
    requires 0 <= rate && rate * 4 < U32
    ensures p + Le16(3) + Le16(1) + Le32(rate) + Le32(rate * 4) + Le16(4) + Le16(32) + Le16(0) == p + FloatFormat(rate)
  {
    hide Le16, Le32;
  }

  /** Find the format and the payload, then decode; every byte string has an answer. */
  method ReadWavMonoFloat(data: seq<Byte>) returns (r: Read)
    ensures r == Parse(data)
  {
    hide Floats, Pcms, EveryNth, Get16, Get32;
    if Clip(data, 0, 4) != RIFF || Clip(data, 8, 12) != WAVE {
      return Unreadable;
    }
    var pos, fmt: Option<seq<Byte>>, payload: Option<seq<Byte>> := 12, None, None;
    ghost var found := Scan(data, 12, None);
    while pos + 8 <= |data|
      invariant 12 <= pos
      invariant payload.None? && found == Scan(data, pos, fmt)
      decreases |data| - pos
    {
      var id, size := data[pos..pos + 4], Get32(data[pos + 4..pos + 8]);
      if id == FMT {
        fmt := Some(Clip(data, pos + 8, pos + 8 + size));
      } else if id == DATA {
        payload := Some(Clip(data, pos + 8, pos + 8 + size));
        break;
      }
      pos := pos + 8 + size + size % 2;
    }
    assert found == (fmt, payload);
    if fmt.None? || payload.None? || |fmt.value| < 16 {
      return Unreadable;
    }
    var f, p := fmt.value, payload.value;
    var tag, channels, rate, bits := Get16(f[0..2]), Get16(f[2..4]), Get32(f[4..8]), Get16(f[14..16]);
    var x: seq<Value>;
    if tag == 3 && bits == 32 {
      if |p| % 4 != 0 { return Raised; }
      x := Floats(p);
    } else if tag == 1 && bits == 16 {
      if |p| % 2 != 0 { return Raised; }
      x := Pcms(p);
    } else {
      return Unreadable;
    }
    if channels > 1 {
      x := EveryNth(x, channels);
    }
    return Wave(rate, x);
  }

  /** What was written is read back, on every rate and every number of samples the format can hold. */
  method WriteThenRead(sampleRate: int, samples: seq<Sample>) returns (r: Read)
    requires 0 <= sampleRate && sampleRate * 4 < U32 && 38 + 4 * |samples| < U32
    ensures r.Wave? && r.rate == sampleRate && |r.samples| == |samples|
    ensures forall i :: 0 <= i < |samples| ==> r.samples[i] == Float(samples[i])
  {
    var file := WriteFloat32Wav(sampleRate, samples);
    assert Embedded(sampleRate, samples, [], [], []) == FloatChunks(sampleRate, samples);
    FloatWavRoundTrip(sampleRate, samples, [], [], []);
    r := ReadWavMonoFloat(file.value);
  }
}
