/** RIFF/WAVE files with 16-bit PCM (`parse_wav` in `zakuro/src/wav_reader.rs`). */
module RiffWave {
  import opened Bytes
  import opened Outcomes

  datatype Error =
    | TooShort | NoRiff | NoWave | ChunkTooLong | FmtTooShort | BadFormat | BadBits | BadChannels | BadRate | NoData

  /** The last format chunk's fields, zero before there is one, and the last data chunk's bytes. */
  datatype Found = Found(format: nat, channels: nat, rate: nat, bits: nat, data: Option<seq<byte>>)

  datatype Wav = Wav(rate: nat, channels: nat, samples: seq<int>)

  const RIFF: seq<byte> := [82, 73, 70, 70]
  const WAVE: seq<byte> := [87, 65, 86, 69]
  const FMT: seq<byte> := [102, 109, 116, 32]
  const DATA: seq<byte> := [100, 97, 116, 97]
  const NOTHING := Found(0, 0, 0, 0, None)

  /** Little-endian. */
  function Le(b: seq<byte>): nat {
    if b == [] then 0 else b[0] + 256 * Le(b[1..])
  }

  function LeBytes(n: nat, k: nat): (b: seq<byte>)
    ensures |b| == k
  {
    if k == 0 then [] else [n % 256] + LeBytes(n / 256, k - 1)
  }

  function Signed(n: nat): int {
    if n < 0x8000 then n else n - 0x1_0000
  }

  function PairAt(data: seq<byte>, i: nat): seq<byte>
    requires 2 * i + 2 <= |data|
  {
    data[2 * i..2 * i + 2]
  }

  /** Whole samples; an odd byte at the end is dropped. */
  function Samples(data: seq<byte>): seq<int> {
    seq(|data| / 2, i requires 0 <= i < |data| / 2 => Signed(Le(PairAt(data, i))))
  }

  /** What one chunk says. */
  function See(f: Found, id: seq<byte>, body: seq<byte>): Result<Found, Error> {
    if id == FMT then
      if |body| < 16 then Err(FmtTooShort)
      else Ok(f.(format := Le(body[..2]), channels := Le(body[2..4]), rate := Le(body[4..8]), bits := Le(body[14..16])))
    else if id == DATA then Ok(f.(data := Some(body)))
    else Ok(f)
  }

  /** `size & 1`: bytes behind a chunk of odd size. */
  function PadOf(size: nat): (p: nat)
    ensures p <= 1
  {
    size % 2
  }

  function Scan(buf: seq<byte>, pos: nat, f: Found): Result<Found, Error>
    decreases |buf| - pos
  {
    if pos + 8 > |buf| then Ok(f)
    else
      var size := Le(buf[pos + 4..pos + 8]);
      var end := pos + 8 + size;
      if end > |buf| then Err(ChunkTooLong)
      else
        match See(f, buf[pos..pos + 4], buf[pos + 8..end])
        case Ok(g) => Scan(buf, end + PadOf(size), g)
        case Err(e) => Err(e)
  }

  function Finish(f: Found): Result<Wav, Error> {
    if f.format != 1 then Err(BadFormat)
    else if f.bits != 16 then Err(BadBits)
    else if f.channels != 1 && f.channels != 2 then Err(BadChannels)
    else if f.rate == 0 then Err(BadRate)
    else if f.data.None? then Err(NoData)
    else Ok(Wav(f.rate, f.channels, Samples(f.data.value)))
  }

  function Parse(buf: seq<byte>): Result<Wav, Error> {
    if |buf| < 12 then Err(TooShort)
    else if buf[..4] != RIFF then Err(NoRiff)
    else if buf[8..12] != WAVE then Err(NoWave)
    else
      match Scan(buf, 12, NOTHING)
      case Ok(f) => Finish(f)
      case Err(e) => Err(e)
  }

  // ----- one step of the scan -----

  lemma ScanStep(buf: seq<byte>, pos: nat, id: seq<byte>, body: seq<byte>, f: Found)
    requires pos + 8 + |body| <= |buf| && buf[pos..pos + 4] == id && Le(buf[pos + 4..pos + 8]) == |body|
    requires buf[pos + 8..pos + 8 + |body|] == body
    ensures Scan(buf, pos, f) ==
              match See(f, id, body)
              case Ok(g) => Scan(buf, pos + 8 + |body| + PadOf(|body|), g)
              case Err(e) => Err(e)
  {
    hide Le, See;
  }

  lemma ScanEnd(buf: seq<byte>, pos: nat, f: Found)
    requires pos + 8 > |buf|
    ensures Scan(buf, pos, f) == Ok(f)
  {
  }

  lemma ScanOverruns(buf: seq<byte>, pos: nat, f: Found)
    requires pos + 8 <= |buf| < pos + 8 + Le(buf[pos + 4..pos + 8])
    ensures Scan(buf, pos, f) == Err(ChunkTooLong)
  {
  }

  // ----- as it runs -----

  method ParseWav(buf: seq<byte>) returns (r: Result<Wav, Error>)
    ensures r == Parse(buf)
  {
    if |buf| < 12 { return Err(TooShort); }
    if buf[..4] != RIFF { return Err(NoRiff); }
    if buf[8..12] != WAVE { return Err(NoWave); }
    hide Le, See, Samples, Scan;
    var pos, found := 12, NOTHING;
    while pos + 8 <= |buf|
      invariant pos >= 12 && Scan(buf, 12, NOTHING) == Scan(buf, pos, found)
      decreases |buf| - pos
    {
      var size := Le(buf[pos + 4..pos + 8]);
      var start, end := pos + 8, pos + 8 + size;
      if end > |buf| {
        ScanOverruns(buf, pos, found);
        return Err(ChunkTooLong);
      }
      ScanStep(buf, pos, buf[pos..pos + 4], buf[start..end], found);
      var seen := ReadChunk(buf, buf[pos..pos + 4], start, end, found);
      if seen.Err? { return Err(seen.error); }
      found := seen.value;
      pos := end + PadOf(size);
    }
    ScanEnd(buf, pos, found);
    if found.format != 1 { return Err(BadFormat); }
    if found.bits != 16 { return Err(BadBits); }
    if found.channels != 1 && found.channels != 2 { return Err(BadChannels); }
    if found.rate == 0 { return Err(BadRate); }
    if found.data.None? { return Err(NoData); }
    var samples := Decode(found.data.value);
    return Ok(Wav(found.rate, found.channels, samples));
  }

  /** What the loop does with one chunk's body: the fields of a format chunk are read from the file. */
  method ReadChunk(buf: seq<byte>, id: seq<byte>, start: nat, end: nat, found: Found) returns (r: Result<Found, Error>)
    requires start <= end <= |buf|
    ensures r == See(found, id, buf[start..end])
  {
    SeeAt(found, id, buf, start, end);
    hide See, Le;
    if id == FMT {
      if end - start < 16 { return Err(FmtTooShort); }
      var format := Le(buf[start..start + 2]);
      var channels := Le(buf[start + 2..start + 4]);
      var rate := Le(buf[start + 4..start + 8]);
      var bits := Le(buf[start + 14..start + 16]);
      return Ok(found.(format := format, channels := channels, rate := rate, bits := bits));
    }
    if id == DATA { return Ok(found.(data := Some(buf[start..end]))); }
    return Ok(found);
  }

  method Decode(data: seq<byte>) returns (samples: seq<int>)
    ensures samples == Samples(data)
  {
    samples := [];
    for i := 0 to |data| / 2
      invariant samples == Samples(data)[..i]
    {
      samples := samples + [Signed(Le(PairAt(data, i)))];
    }
  }

  lemma SliceOfSlice(s: seq<byte>, a: nat, b: nat, i: nat, j: nat)
    requires i <= j && a + j <= b <= |s|
    ensures s[a..b][i..j] == s[a + i..a + j]
  {
    var inner, outer := s[a..b][i..j], s[a + i..a + j];
    assert |inner| == |outer|;
    forall k | 0 <= k < |inner| ensures inner[k] == outer[k] {
      assert inner[k] == s[a..b][i + k];
      assert s[a..b][i + k] == s[a + (i + k)];
      assert outer[k] == s[(a + i) + k];
    }
  }

  /** What a chunk of the file says, in terms of positions. */
  lemma SeeAt(f: Found, id: seq<byte>, buf: seq<byte>, start: nat, end: nat)
    requires start <= end <= |buf|
    ensures See(f, id, buf[start..end]) ==
              if id == FMT then
                if end - start < 16 then Err(FmtTooShort)
                else
                  Ok(f.(format := Le(buf[start..start + 2]), channels := Le(buf[start + 2..start + 4]),
                        rate := Le(buf[start + 4..start + 8]), bits := Le(buf[start + 14..start + 16])))
              else if id == DATA then Ok(f.(data := Some(buf[start..end])))
              else Ok(f)
  {
    if end - start >= 16 {
      SliceOfSlice(buf, start, end, 0, 2);
      SliceOfSlice(buf, start, end, 2, 4);
      SliceOfSlice(buf, start, end, 4, 8);
      SliceOfSlice(buf, start, end, 14, 16);
    }
  }

  // ----- what a file means, chunk by chunk -----

  datatype Chunk = Chunk(id: seq<byte>, body: seq<byte>, pad: byte)

  predicate IsChunk(c: Chunk) {
    |c.id| == 4 && |c.body| < 0x1_0000_0000
  }

  function SeeAll(chunks: seq<Chunk>, f: Found): Result<Found, Error> {
    if chunks == [] then Ok(f)
    else
      match See(f, chunks[0].id, chunks[0].body)
      case Ok(g) => SeeAll(chunks[1..], g)
      case Err(e) => Err(e)
  }

  /** The chunk as RIFF writes it, padded to an even length. */
  function WriteChunk(c: Chunk, padded: bool): seq<byte> {
    c.id + LeBytes(|c.body|, 4) + c.body + (if padded && PadOf(|c.body|) == 1 then [c.pad] else [])
  }

  /** All chunks, the last one padded or not. */
  function WriteAll(chunks: seq<Chunk>, padded: bool): seq<byte> {
    if chunks == [] then []
    else WriteChunk(chunks[0], padded || |chunks| > 1) + WriteAll(chunks[1..], padded)
  }

  /** A RIFF file: any size field, any chunks, and less than a chunk's header behind them. */
  function WriteRiff(size: seq<byte>, chunks: seq<Chunk>, padded: bool, tail: seq<byte>): seq<byte> {
    RIFF + size + WAVE + (WriteAll(chunks, padded) + tail)
  }

  lemma {:induction false} LeOfBytes(n: nat, k: nat)
    requires k <= 4 && (k == 4 ==> n < 0x1_0000_0000) && (k == 3 ==> n < 0x100_0000)
    requires (k == 2 ==> n < 0x1_0000) && (k == 1 ==> n < 0x100) && (k == 0 ==> n == 0)
    ensures Le(LeBytes(n, k)) == n
  {
    if k > 0 {
      LeOfBytes(n / 256, k - 1);
      assert LeBytes(n, k)[1..] == LeBytes(n / 256, k - 1);
    }
  }

  lemma ChunkParts(c: Chunk, padded: bool, rest: seq<byte>)
    requires IsChunk(c)
    ensures var all, n := WriteChunk(c, padded) + rest, |c.body|;
            && |all| >= 8 + n && all[0..4] == c.id && all[4..8] == LeBytes(n, 4) && all[8..8 + n] == c.body
            && all[|WriteChunk(c, padded)|..] == rest
  {
    hide LeBytes, PadOf;
  }

  lemma TailBehind(buf: seq<byte>, pos: nat, rest: seq<byte>, a: nat)
    requires pos <= |buf| && buf[pos..] == rest && a <= |rest|
    ensures buf[pos + a..] == rest[a..]
  {
  }

  /** A written chunk, as it stands in the file. */
  lemma ChunkAt(buf: seq<byte>, pos: nat, c: Chunk, padded: bool, rest: seq<byte>)
    requires IsChunk(c) && pos <= |buf| && buf[pos..] == WriteChunk(c, padded) + rest
    ensures var n, next := |c.body|, pos + |WriteChunk(c, padded)|;
            && next == pos + 8 + n + (if padded then PadOf(n) else 0) && |buf| == next + |rest|
            && buf[pos..pos + 4] == c.id && Le(buf[pos + 4..pos + 8]) == n && buf[pos + 8..pos + 8 + n] == c.body
            && buf[next..] == rest
  {
    var n, all := |c.body|, WriteChunk(c, padded) + rest;
    assert |WriteChunk(c, padded)| == 8 + n + if padded then PadOf(n) else 0;
    LeOfBytes(n, 4);
    ChunkParts(c, padded, rest);
    hide LeBytes, Le, WriteChunk, PadOf;
    SliceBehind(buf, pos, all, 0, 4);
    SliceBehind(buf, pos, all, 4, 8);
    SliceBehind(buf, pos, all, 8, 8 + n);
    TailBehind(buf, pos, all, |WriteChunk(c, padded)|);
  }

  /** One written chunk is read back, and the scan goes on behind it. */
  lemma ScanChunk(buf: seq<byte>, pos: nat, c: Chunk, padded: bool, rest: seq<byte>, f: Found)
    requires IsChunk(c) && (padded || rest == []) && pos <= |buf| && buf[pos..] == WriteChunk(c, padded) + rest
    ensures var next := pos + |WriteChunk(c, padded)|;
            && buf[next..] == rest
            && Scan(buf, pos, f) ==
                 match See(f, c.id, c.body)
                 case Ok(g) => if |rest| < 8 then Ok(g) else Scan(buf, next, g)
                 case Err(e) => Err(e)
  {
    hide LeBytes, Le, See, WriteChunk, Scan, PadOf;
    ChunkAt(buf, pos, c, padded, rest);
    ScanStep(buf, pos, c.id, c.body, f);
    if See(f, c.id, c.body).Ok? && |rest| < 8 {
      ScanEnd(buf, pos + 8 + |c.body| + PadOf(|c.body|), See(f, c.id, c.body).value);
    }
  }

  lemma {:induction false} ScanWritten(buf: seq<byte>, pos: nat, chunks: seq<Chunk>, padded: bool, tail: seq<byte>, f: Found)
    requires (forall i :: 0 <= i < |chunks| ==> IsChunk(chunks[i])) && |tail| < 8 && (padded || tail == [])
    requires pos <= |buf| && buf[pos..] == WriteAll(chunks, padded) + tail
    ensures Scan(buf, pos, f) == SeeAll(chunks, f)
    decreases chunks
  {
    hide See, WriteChunk;
    if chunks == [] {
      assert buf[pos..] == tail;
    } else {
      var c, padC, rest := chunks[0], padded || |chunks| > 1, chunks[1..];
      var behind := WriteAll(rest, padded) + tail;
      assert WriteAll(chunks, padded) + tail == WriteChunk(c, padC) + behind;
      if rest == [] {
        assert behind == tail;
      }
      ScanChunk(buf, pos, c, padC, behind, f);
      if See(f, c.id, c.body).Ok? {
        ScanWritten(buf, pos + |WriteChunk(c, padC)|, rest, padded, tail, See(f, c.id, c.body).value);
      }
    }
  }

  lemma HeaderWritten(size: seq<byte>, rest: seq<byte>)
    requires |size| == 4
    ensures var buf := RIFF + size + WAVE + rest;
            |buf| == 12 + |rest| && buf[..4] == RIFF && buf[8..12] == WAVE && buf[12..] == rest
  {
  }

  /** Parsing undoes writing: any chunks in any order, known, unknown or repeated, of even or odd size, say what they
      say one after another, whatever the padding bytes and the size field are. */
  lemma ParseWritten(size: seq<byte>, chunks: seq<Chunk>, padded: bool, tail: seq<byte>)
    requires |size| == 4 && (forall i :: 0 <= i < |chunks| ==> IsChunk(chunks[i])) && |tail| < 8 && (padded || tail == [])
    ensures Parse(WriteRiff(size, chunks, padded, tail)) ==
              match SeeAll(chunks, NOTHING)
              case Ok(f) => Finish(f)
              case Err(e) => Err(e)
  {
    var rest := WriteAll(chunks, padded) + tail;
    HeaderWritten(size, rest);
    hide Scan, SeeAll, Finish, WriteAll, Le, See;
    ScanWritten(WriteRiff(size, chunks, padded, tail), 12, chunks, padded, tail, NOTHING);
  }

  /** The body of the last chunk with that name, if there is one. */
  function LastBody(chunks: seq<Chunk>, id: seq<byte>): Option<seq<byte>> {
    if chunks == [] then None
    else if chunks[|chunks| - 1].id == id then Some(chunks[|chunks| - 1].body)
    else LastBody(chunks[..|chunks| - 1], id)
  }

  /** The body of a format chunk: `block` are the byte rate and the block size, which are not looked at, nor is what stands
      behind. */
  function FormatBody(format: nat, channels: nat, rate: nat, block: seq<byte>, bits: nat, more: seq<byte>): seq<byte> {
    LeBytes(format, 2) + LeBytes(channels, 2) + LeBytes(rate, 4) + block + LeBytes(bits, 2) + more
  }

  predicate InFields(format: nat, channels: nat, rate: nat, block: seq<byte>, bits: nat) {
    format < 0x1_0000 && channels < 0x1_0000 && rate < 0x1_0000_0000 && |block| == 6 && bits < 0x1_0000
  }

  lemma FieldsRead(format: nat, channels: nat, rate: nat, block: seq<byte>, bits: nat, more: seq<byte>)
    requires InFields(format, channels, rate, block, bits)
    ensures var body := FormatBody(format, channels, rate, block, bits, more);
            && |body| >= 16 && Le(body[..2]) == format && Le(body[2..4]) == channels && Le(body[4..8]) == rate
            && Le(body[14..16]) == bits
  {
    LeOfBytes(format, 2);
    LeOfBytes(channels, 2);
    LeOfBytes(rate, 4);
    LeOfBytes(bits, 2);
    hide Le, LeBytes;
    FieldsApart(LeBytes(format, 2), LeBytes(channels, 2), LeBytes(rate, 4), block, LeBytes(bits, 2), more);
  }

  lemma FieldsApart(a: seq<byte>, b: seq<byte>, c: seq<byte>, d: seq<byte>, e: seq<byte>, more: seq<byte>)
    requires |a| == 2 && |b| == 2 && |c| == 4 && |d| == 6 && |e| == 2
    ensures var all := a + b + c + d + e + more;
            |all| >= 16 && all[..2] == a && all[2..4] == b && all[4..8] == c && all[14..16] == e
  {
    var all := a + b + c + d + e + more;
    assert all == (a + b + c + d) + (e + more);
  }

  lemma {:induction false} SeeAllSnoc(chunks: seq<Chunk>, c: Chunk, f: Found)
    ensures SeeAll(chunks + [c], f) ==
              match SeeAll(chunks, f) case Ok(g) => See(g, c.id, c.body) case Err(e) => Err(e)
  {
    hide See;
    if chunks == [] {
      assert chunks + [c] == [c] && [c][1..] == [];
    } else {
      assert (chunks + [c])[1..] == chunks[1..] + [c];
      if See(f, chunks[0].id, chunks[0].body).Ok? {
        SeeAllSnoc(chunks[1..], c, See(f, chunks[0].id, chunks[0].body).value);
      }
    }
  }

  /** The fields are those of the last format chunk, zero without one. */
  predicate FieldsOf(f: Found, body: Option<seq<byte>>) {
    match body
    case None => f.format == f.channels == f.rate == f.bits == 0
    case Some(b) =>
      && |b| >= 16 && f.format == Le(b[..2]) && f.channels == Le(b[2..4]) && f.rate == Le(b[4..8]) && f.bits == Le(b[14..16])
  }

  /** The last format chunk and the last data chunk count, provided that no format chunk is too short. */
  lemma {:induction false} SeeAllMeans(chunks: seq<Chunk>)
    ensures var r := SeeAll(chunks, NOTHING);
            && (r == Err(FmtTooShort) <==> exists i :: 0 <= i < |chunks| && chunks[i].id == FMT && |chunks[i].body| < 16)
            && (r.Err? ==> r.error == FmtTooShort)
            && (r.Ok? ==> FieldsOf(r.value, LastBody(chunks, FMT)) && r.value.data == LastBody(chunks, DATA))
  {
    if chunks != [] {
      var init, c := chunks[..|chunks| - 1], chunks[|chunks| - 1];
      SeeAllMeans(init);
      assert chunks == init + [c];
      SeeAllSnoc(init, c, NOTHING);
      hide SeeAll, Le;
    }
  }

  /** A file whose last format chunk has these fields, none of them being too short: it is read exactly if it holds PCM, 16
      bits, one or two channels, a rate and data; else the first of these that is missing is the error. */
  lemma ParseMeans(size: seq<byte>, chunks: seq<Chunk>, padded: bool, tail: seq<byte>,
      format: nat, channels: nat, rate: nat, block: seq<byte>, bits: nat, more: seq<byte>)
    requires |size| == 4 && (forall i :: 0 <= i < |chunks| ==> IsChunk(chunks[i])) && |tail| < 8 && (padded || tail == [])
    requires forall i :: 0 <= i < |chunks| && chunks[i].id == FMT ==> |chunks[i].body| >= 16
    requires InFields(format, channels, rate, block, bits)
    requires LastBody(chunks, FMT) == Some(FormatBody(format, channels, rate, block, bits, more))
    ensures var data := LastBody(chunks, DATA);
            Parse(WriteRiff(size, chunks, padded, tail))
            == if format != 1 then Err(BadFormat)
               else if bits != 16 then Err(BadBits)
               else if channels != 1 && channels != 2 then Err(BadChannels)
               else if rate == 0 then Err(BadRate)
               else if data.None? then Err(NoData)
               else Ok(Wav(rate, channels, Samples(data.value)))
  {
    ParseWritten(size, chunks, padded, tail);
    SeeAllMeans(chunks);
    FieldsRead(format, channels, rate, block, bits, more);
    hide Parse, WriteRiff, SeeAll, Le, FormatBody, LastBody, Samples;
  }

  predicate IsSample(x: int) {
    -0x8000 <= x < 0x8000
  }

  function Unsigned(x: int): (n: nat)
    requires IsSample(x)
    ensures n < 0x1_0000 && Signed(n) == x
  {
    if x >= 0 then x else x + 0x1_0000
  }

  /** The samples as a data chunk holds them. */
  function Pcm(samples: seq<int>): seq<byte>
    requires forall i :: 0 <= i < |samples| ==> IsSample(samples[i])
  {
    if samples == [] then []
    else Pcm(samples[..|samples| - 1]) + LeBytes(Unsigned(samples[|samples| - 1]), 2)
  }

  lemma PairBefore(data: seq<byte>, pair: seq<byte>, i: nat)
    requires 2 * i + 2 <= |data|
    ensures PairAt(data + pair, i) == PairAt(data, i)
  {
  }

  lemma PairBehind(data: seq<byte>, pair: seq<byte>, n: nat)
    requires |data| == 2 * n && |pair| == 2
    ensures PairAt(data + pair, n) == pair
  {
  }

  lemma SamplesAppend(data: seq<byte>, n: nat, pair: seq<byte>)
    requires |data| == 2 * n && |pair| == 2
    ensures Samples(data + pair) == Samples(data) + [Signed(Le(pair))]
  {
    hide Le, Signed, PairAt;
    var all := data + pair;
    assert |all| / 2 == n + 1 && |data| / 2 == n;
    PairBehind(data, pair, n);
    forall i | 0 <= i < n ensures Samples(all)[i] == Samples(data)[i] {
      PairBefore(data, pair, i);
    }
  }

  /** Samples written as a data chunk are read back. */
  lemma {:induction false} SamplesOfPcm(samples: seq<int>)
    requires forall i :: 0 <= i < |samples| ==> IsSample(samples[i])
    ensures |Pcm(samples)| == 2 * |samples| && Samples(Pcm(samples)) == samples
  {
    if samples != [] {
      var init, x := samples[..|samples| - 1], samples[|samples| - 1];
      SamplesOfPcm(init);
      LeOfBytes(Unsigned(x), 2);
      hide LeBytes, Le, Samples, Signed, Unsigned;
      SamplesAppend(Pcm(init), |init|, LeBytes(Unsigned(x), 2));
    }
  }
}
