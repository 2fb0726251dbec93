/** The looping MP4 audio source: packets are decoded into a queue, which the callers empty in pieces of any size. */
module Mp4Audio {
  import opened Arithmetic
  import opened Bytes
  import opened Downmix
  import opened Outcomes

  /** What a decoder keeps to itself. */
  type DecoderState(!new)

  /** A codec with a hidden state. Decoding may fail, and may change the state even then. */
  datatype Codec = Codec(decode: (DecoderState, seq<byte>) -> (DecoderState, Option<seq<int>>), reset: DecoderState -> DecoderState)

  /** The track: its packets (None where the file cannot be read), channel count and pre-skip. */
  datatype Track = Track(codec: Codec, packets: seq<Option<seq<byte>>>, channels: nat, preSkip: nat) {
    predicate Valid() {
      packets != [] && channels > 0
    }
  }

  /** Where decoding stands: the next packet, the decoder, and the frames still to be dropped. */
  datatype Position = Position(cursor: nat, state: DecoderState, skip: nat)

  function Min(a: nat, b: nat): nat {
    if a <= b then a else b
  }

  // ----- one packet -----

  /** The samples one packet adds to the queue. */
  function PacketOut(t: Track, p: Position): (Position, seq<int>)
    requires t.Valid() && p.cursor < |t.packets|
  {
    var next := p.(cursor := p.cursor + 1);
    match t.packets[p.cursor]
    case None => (next, [])
    case Some(data) =>
      var (state, pcm) := t.codec.decode(p.state, data);
      if pcm.None? then (next.(state := state), [])
      else
        var mono := Mono(pcm.value, t.channels);
        var skipped := Min(p.skip, |mono|);
        (next.(state := state, skip := p.skip - skipped), mono[skipped..])
  }

  /** Past the last packet the track starts over, as a new stream. */
  function Rewind(t: Track, p: Position): Position {
    if p.cursor < |t.packets| then p else Position(0, t.codec.reset(p.state), t.preSkip)
  }

  function Step(t: Track, p: Position): (Position, seq<int>)
    requires t.Valid()
  {
    PacketOut(t, Rewind(t, p))
  }

  /** The position after `n` packets. */
  function After(t: Track, p: Position, n: nat): Position
    requires t.Valid()
  {
    if n == 0 then p else Step(t, After(t, p, n - 1)).0
  }

  /** Everything `n` packets add to the queue: the decoded looped packet stream. */
  function Stream(t: Track, p: Position, n: nat): seq<int>
    requires t.Valid()
  {
    if n == 0 then [] else Stream(t, p, n - 1) + Step(t, After(t, p, n - 1)).1
  }

  // ----- one lap -----

  /** The whole track decoded from state `s`, nothing dropped. */
  function LapPcm(t: Track, s: DecoderState, n: nat): (DecoderState, seq<int>)
    requires t.Valid() && n <= |t.packets|
  {
    if n == 0 then (s, [])
    else
      var (state, pcm) := LapPcm(t, s, n - 1);
      match t.packets[n - 1]
      case None => (state, pcm)
      case Some(data) =>
        var (next, more) := t.codec.decode(state, data);
        (next, if more.None? then pcm else pcm + Mono(more.value, t.channels))
  }

  /** Within a lap that starts with `skip` frames to drop, exactly the first `skip` frames are missing, however many
      packets they span. */
  lemma {:induction false} LapDrops(t: Track, s: DecoderState, skip: nat, n: nat)
    requires t.Valid() && n <= |t.packets|
    ensures var start := Position(0, s, skip); var (state, pcm) := LapPcm(t, s, n);
            && After(t, start, n) == Position(n, state, skip - Min(skip, |pcm|))
            && Stream(t, start, n) == pcm[Min(skip, |pcm|)..]
  {
    if n > 0 {
      LapDrops(t, s, skip, n - 1);
      hide Mono, Stream;
      var start := Position(0, s, skip);
      var pcm := LapPcm(t, s, n - 1).1;
      var out := Step(t, After(t, start, n - 1)).1;
      StreamNext(t, start, n);
      if t.packets[n - 1].Some? {
        var more := t.codec.decode(LapPcm(t, s, n - 1).0, t.packets[n - 1].value).1;
        if more.Some? {
          DropConcat(pcm, Mono(more.value, t.channels), skip);
        } else {
          assert out == [];
        }
      } else {
        assert out == [];
      }
    }
  }

  lemma NoPackets(t: Track, p: Position)
    requires t.Valid()
    ensures Stream(t, p, 0) == [] && After(t, p, 0) == p
  {
  }

  lemma StreamNext(t: Track, p: Position, n: nat)
    requires t.Valid() && n > 0
    ensures Stream(t, p, n) == Stream(t, p, n - 1) + Step(t, After(t, p, n - 1)).1
    ensures After(t, p, n) == Step(t, After(t, p, n - 1)).0
  {
  }

  /** Dropping from a concatenation what is left to drop after its first part. */
  lemma DropConcat(a: seq<int>, b: seq<int>, skip: nat)
    ensures var left := skip - Min(skip, |a|);
            (a + b)[Min(skip, |a + b|)..] == a[Min(skip, |a|)..] + b[Min(left, |b|)..]
  {
  }

  /** `k` laps of `lap`. */
  function Repeat(lap: seq<int>, k: nat): seq<int> {
    if k == 0 then [] else Repeat(lap, k - 1) + lap
  }

  lemma {:induction false} StreamSplits(t: Track, p: Position, m: nat, n: nat)
    requires t.Valid()
    ensures After(t, p, m + n) == After(t, After(t, p, m), n)
    ensures Stream(t, p, m + n) == Stream(t, p, m) + Stream(t, After(t, p, m), n)
  {
    hide Stream, After, Step;
    NoPackets(t, After(t, p, m));
    if n > 0 {
      StreamSplits(t, p, m, n - 1);
      var q := After(t, p, m);
      StreamNext(t, p, m + n);
      StreamNext(t, q, n);
      var out := Step(t, After(t, q, n - 1)).1;
      assert Stream(t, p, m) + Stream(t, q, n - 1) + out == Stream(t, p, m) + (Stream(t, q, n - 1) + out);
    }
  }

  /** From the end of the track the next packets are those of a rewound track. */
  lemma {:induction false} RewindsAtEnd(t: Track, p: Position, n: nat)
    requires t.Valid() && n > 0
    ensures After(t, p, n) == After(t, Rewind(t, p), n) && Stream(t, p, n) == Stream(t, Rewind(t, p), n)
  {
    if n > 1 {
      RewindsAtEnd(t, p, n - 1);
    } else {
      assert After(t, p, 0) == p && After(t, Rewind(t, p), 0) == Rewind(t, p);
      assert Stream(t, p, 0) == [] == Stream(t, Rewind(t, p), 0);
    }
  }

  /** The packets of `laps` whole laps. */
  function Packets(len: nat, laps: nat): nat {
    if laps == 0 then 0 else Packets(len, laps - 1) + len
  }

  lemma {:induction false} PacketsAre(len: nat, laps: nat)
    ensures Packets(len, laps) == laps * len
  {
    if laps > 0 {
      PacketsAre(len, laps - 1);
      assert laps * len == (laps - 1) * len + len;
    }
  }

  /** The first `n` packets of a lap: the decoded samples without the first pre-skip frames. */
  function Lap(t: Track, initial: DecoderState, n: nat): seq<int>
    requires t.Valid() && n <= |t.packets|
  {
    var pcm := LapPcm(t, initial, n).1;
    pcm[Min(t.preSkip, |pcm|)..]
  }

  lemma FirstLap(t: Track, initial: DecoderState, n: nat)
    requires t.Valid() && n <= |t.packets|
    ensures var start := Position(0, initial, t.preSkip);
            Stream(t, start, n) == Lap(t, initial, n) && After(t, start, n).cursor == n
  {
    LapDrops(t, initial, t.preSkip, n);
  }

  /** A lap from the end of the track: rewound, it is a lap from the start. */
  lemma NextLap(t: Track, p: Position, initial: DecoderState, n: nat)
    requires t.Valid() && n <= |t.packets|
    requires p.cursor == |t.packets| && t.codec.reset(p.state) == initial
    ensures Stream(t, p, n) == Lap(t, initial, n) && (n > 0 ==> After(t, p, n).cursor == n)
  {
    FirstLap(t, initial, n);
    if n > 0 {
      RewindsAtEnd(t, p, n);
    }
  }

  lemma {:induction false} WholeLaps(t: Track, initial: DecoderState, laps: nat)
    requires t.Valid()
    requires forall s: DecoderState :: t.codec.reset(s) == initial
    ensures var start := Position(0, initial, t.preSkip); var n := Packets(|t.packets|, laps);
            && Stream(t, start, n) == Repeat(Lap(t, initial, |t.packets|), laps)
            && (laps > 0 ==> After(t, start, n).cursor == |t.packets|)
  {
    hide Stream, After, Lap, LapPcm, Step;
    var start := Position(0, initial, t.preSkip);
    var len := |t.packets|;
    if laps == 0 {
      NoPackets(t, start);
    } else {
      WholeLaps(t, initial, laps - 1);
      var n := Packets(len, laps - 1);
      if laps == 1 {
        NoPackets(t, start);
        FirstLap(t, initial, len);
        LapAgain(t, start, 0, initial);
      } else {
        NextLap(t, After(t, start, n), initial, len);
        LapAgain(t, start, n, initial);
      }
    }
  }

  /** One more lap after `n` packets. */
  lemma LapAgain(t: Track, p: Position, n: nat, initial: DecoderState)
    requires t.Valid()
    requires Stream(t, After(t, p, n), |t.packets|) == Lap(t, initial, |t.packets|)
    requires After(t, After(t, p, n), |t.packets|).cursor == |t.packets|
    ensures Stream(t, p, n + |t.packets|) == Stream(t, p, n) + Lap(t, initial, |t.packets|)
    ensures After(t, p, n + |t.packets|).cursor == |t.packets|
  {
    hide Stream, After, Lap;
    StreamSplits(t, p, n, |t.packets|);
  }

  lemma LapsThenPart(t: Track, initial: DecoderState, laps: nat, n: nat)
    requires t.Valid() && n <= |t.packets|
    requires forall s: DecoderState :: t.codec.reset(s) == initial
    ensures Stream(t, Position(0, initial, t.preSkip), Packets(|t.packets|, laps) + n)
         == Repeat(Lap(t, initial, |t.packets|), laps) + Lap(t, initial, n)
  {
    hide Stream, After, Lap, LapPcm, Repeat, Packets;
    var start := Position(0, initial, t.preSkip);
    var m := Packets(|t.packets|, laps);
    WholeLaps(t, initial, laps);
    if laps == 0 {
      NoLaps(t, initial, n);
    } else {
      StreamSplits(t, start, m, n);
      NextLap(t, After(t, start, m), initial, n);
    }
  }

  /** With a decoder that every reset returns to the state `initial` it started in, the stream after any number of
      packets is whole laps, all the same samples, and the beginning of one more. */
  lemma LapsRepeat(t: Track, initial: DecoderState, laps: nat, n: nat)
    requires t.Valid() && n <= |t.packets|
    requires forall s: DecoderState :: t.codec.reset(s) == initial
    ensures Stream(t, Position(0, initial, t.preSkip), laps * |t.packets| + n)
         == Repeat(Lap(t, initial, |t.packets|), laps) + Lap(t, initial, n)
  {
    hide Stream, Lap, Repeat, Packets;
    PacketsAre(|t.packets|, laps);
    LapsThenPart(t, initial, laps, n);
  }

  lemma NoLaps(t: Track, initial: DecoderState, n: nat)
    requires t.Valid() && n <= |t.packets|
    ensures Stream(t, Position(0, initial, t.preSkip), 0 + n) == Repeat(Lap(t, initial, |t.packets|), 0) + Lap(t, initial, n)
    ensures Packets(|t.packets|, 0) == 0
  {
    FirstLap(t, initial, n);
    assert 0 + n == n;
  }

  lemma StreamGrows(t: Track, p: Position, n: nat, delivered: seq<int>, fifo: seq<int>)
    requires t.Valid() && delivered + fifo == Stream(t, p, n)
    ensures After(t, p, n + 1) == Step(t, After(t, p, n)).0
    ensures delivered + (fifo + Step(t, After(t, p, n)).1) == Stream(t, p, n + 1)
  {
    var out := Step(t, After(t, p, n)).1;
    assert delivered + (fifo + out) == delivered + fifo + out;
  }

  // ----- the source -----

  class Source {
    const track: Track
    var cursor: nat
    var fifo: seq<int>
    var state: DecoderState
    var skipRemaining: nat
    /** The position the source started from, the packets decoded since, and the samples delivered since. */
    ghost const start: Position
    ghost var decoded: nat
    ghost var delivered: seq<int>

    /** Nothing is lost, duplicated or reordered: what was delivered and what is queued is the stream so far. */
    ghost predicate Valid()
      reads this
    {
      && track.Valid()
      && Position(cursor, state, skipRemaining) == After(track, start, decoded)
      && delivered + fifo == Stream(track, start, decoded)
    }

    constructor (track: Track, initial: DecoderState)
      requires track.Valid()
      ensures Valid() && this.track == track && start == Position(0, initial, track.preSkip)
      ensures decoded == 0 && delivered == []
    {
      this.track := track;
      cursor, fifo, state, skipRemaining := 0, [], initial, track.preSkip;
      start := Position(0, initial, track.preSkip);
      decoded, delivered := 0, [];
    }

    method ResetDecoderForLoop()
      modifies this`state, this`skipRemaining
      ensures state == track.codec.reset(old(state)) && skipRemaining == track.preSkip
    {
      state := track.codec.reset(state);
      skipRemaining := track.preSkip;
    }

    method DecodeNextPacket()
      requires Valid()
      modifies this`cursor, this`fifo, this`state, this`skipRemaining, this`decoded
      ensures Valid() && decoded == old(decoded) + 1
      ensures fifo == old(fifo) + Step(track, old(Position(cursor, state, skipRemaining))).1
    {
      hide Stream, PacketOut, Mono;
      ghost var before := Position(cursor, state, skipRemaining);
      decoded := decoded + 1;
      if cursor >= |track.packets| {
        cursor := 0;
        ResetDecoderForLoop();
      }
      assert Position(cursor, state, skipRemaining) == Rewind(track, before);
      StreamGrows(track, start, old(decoded), delivered, fifo);
      DecodePacket();
    }

    method DecodePacket()
      requires track.Valid() && cursor < |track.packets|
      modifies this`cursor, this`fifo, this`state, this`skipRemaining
      ensures var (next, out) := PacketOut(track, old(Position(cursor, state, skipRemaining)));
              Position(cursor, state, skipRemaining) == next && fifo == old(fifo) + out
    {
      var packet := track.packets[cursor];
      cursor := cursor + 1;
      assert fifo == fifo + [];
      if packet.None? { return; }
      var (next, pcm) := track.codec.decode(state, packet.value);
      state := next;
      if pcm.None? { return; }
      var skipFrames := Min(skipRemaining, |pcm.value| / track.channels);
      skipRemaining := skipRemaining - skipFrames;
      MonoDrop(pcm.value, track.channels, skipFrames);
      var mono := DownmixToMono(pcm.value[skipFrames * track.channels..], track.channels);
      fifo := fifo + mono;
    }

    /** Decodes until `wanted` samples are queued, but at most one packet more than the track has. */
    method Supply(wanted: nat)
      requires Valid()
      modifies this`cursor, this`fifo, this`state, this`skipRemaining, this`decoded
      ensures Valid()
      ensures old(decoded) <= decoded <= old(decoded) + |track.packets| + 1
      ensures |fifo| < wanted ==> decoded == old(decoded) + |track.packets| + 1
    {
      var attempts := 0;
      while |fifo| < wanted
        invariant Valid()
        invariant attempts <= |track.packets| && decoded == old(decoded) + attempts
        decreases |track.packets| - attempts
      {
        DecodeNextPacket();
        attempts := attempts + 1;
        if attempts > |track.packets| { break; }
      }
    }

    /** Moves samples from the front of the queue to `buf`, then silence. */
    method Empty(buf: array<int>)
      modifies this`fifo, buf
      ensures var n := Min(|old(fifo)|, buf.Length);
              buf[..n] == old(fifo)[..n] && buf[n..] == Zeros(buf.Length - n) && fifo == old(fifo)[n..]
    {
      ghost var queue := fifo;
      for i := 0 to buf.Length
        invariant i <= |queue| ==> fifo == queue[i..]
        invariant i > |queue| ==> fifo == []
        invariant forall j :: 0 <= j < i && j < |queue| ==> buf[j] == queue[j]
        invariant forall j :: |queue| <= j < i ==> buf[j] == 0
      {
        if fifo != [] {
          buf[i] := fifo[0];
          fifo := fifo[1..];
        } else {
          buf[i] := 0;
        }
      }
    }

    /** Fills `buf` from the queue, decoding as far as needed. Zeros are written only when one more packet than the
        track has was decoded and the queue still falls short. */
    method ReadSamples(buf: array<int>)
      requires Valid()
      modifies this`cursor, this`fifo, this`state, this`skipRemaining, this`decoded, this`delivered, buf
      ensures Valid()
      ensures old(decoded) <= decoded <= old(decoded) + |track.packets| + 1
      ensures exists n: nat :: Filled(buf[..], n, old(delivered), delivered)
                && (n < buf.Length ==> decoded == old(decoded) + |track.packets| + 1 && fifo == [])
    {
      Supply(buf.Length);
      ghost var queue := fifo;
      Empty(buf);
      ghost var n := Min(|queue|, buf.Length);
      assert delivered + queue == delivered + queue[..n] + queue[n..];
      delivered := delivered + queue[..n];
      assert buf[..][..n] == buf[..n] && buf[..][n..] == buf[n..];
      assert Filled(buf[..], n, old(delivered), delivered);
    }
  }

  function Zeros(n: nat): (r: seq<int>)
    ensures |r| == n && forall i :: 0 <= i < n ==> r[i] == 0
  {
    seq(n, _ => 0)
  }

  /** `buf` starts with the `n` samples delivered last and ends in silence. */
  ghost predicate Filled(buf: seq<int>, n: nat, before: seq<int>, after: seq<int>) {
    n <= |buf| && after == before + buf[..n] && buf[n..] == Zeros(|buf| - n)
  }
}
