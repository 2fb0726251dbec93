/** The looping Y4M reader: each call delivers the frame that is due, whatever was skipped and however often the file
    was rewound. */
module Y4mReader {
  import opened Arithmetic
  import opened Bytes
  import opened Outcomes

  /** The bytes of `FRAME`. */
  const TAG: seq<byte> := [70, 82, 65, 77, 69]

  /** How many bytes after the tag are searched for the end of the frame header. */
  const MAX_HEADER: nat := 1024

  /** A frame of the file: the parameters on its `FRAME` line and its picture. */
  datatype Record = Record(params: seq<byte>, payload: seq<byte>)

  // ----- the file format -----

  function Encoded(r: Record): seq<byte> {
    TAG + r.params + [NEWLINE] + r.payload
  }

  function Flat(rs: seq<Record>): seq<byte> {
    if rs == [] then [] else Flat(rs[..|rs| - 1]) + Encoded(rs[|rs| - 1])
  }

  /** Where record `k` starts. */
  function Offset(rs: seq<Record>, k: nat): nat
    requires k <= |rs|
  {
    |Flat(rs[..k])|
  }

  predicate RecordOk(r: Record, size: nat) {
    NEWLINE !in r.params && |r.params| < MAX_HEADER && |r.payload| == size
  }

  lemma {:induction false} FlatPrefix(rs: seq<Record>, k: nat)
    requires k <= |rs|
    ensures Offset(rs, k) <= |Flat(rs)| && Flat(rs)[..Offset(rs, k)] == Flat(rs[..k])
    decreases |rs|
  {
    if k == |rs| {
      assert rs[..k] == rs;
    } else {
      var init := rs[..|rs| - 1];
      assert init[..k] == rs[..k];
      FlatPrefix(init, k);
    }
  }

  /** Record `k` stands between its offset and the next one's. */
  lemma RecordAt(rs: seq<Record>, k: nat)
    requires k < |rs|
    ensures Offset(rs, k + 1) == Offset(rs, k) + |Encoded(rs[k])|
    ensures Offset(rs, k + 1) <= |Flat(rs)|
    ensures Offset(rs, k + 1) == |Flat(rs)| <==> k + 1 == |rs|
    ensures Flat(rs)[Offset(rs, k)..Offset(rs, k + 1)] == Encoded(rs[k])
  {
    assert rs[..k + 1][..k] == rs[..k];
    assert Flat(rs[..k + 1]) == Flat(rs[..k]) + Encoded(rs[k]);
    FlatPrefix(rs, k + 1);
    assert rs[..|rs|] == rs;
    if k + 1 < |rs| {
      assert rs[..k + 2][..k + 1] == rs[..k + 1];
      assert Flat(rs[..k + 2]) == Flat(rs[..k + 1]) + Encoded(rs[k + 1]);
      FlatPrefix(rs, k + 2);
    }
  }

  /** The three parts of a record, as they stand in the file. */
  lemma PartsAt(file: seq<byte>, start: nat, rs: seq<Record>, k: nat)
    requires start <= |file| && file[start..] == Flat(rs) && k < |rs|
    ensures var p := start + Offset(rs, k); var r := rs[k];
            && p + 5 + |r.params| + 1 + |r.payload| == start + Offset(rs, k + 1) <= |file|
            && file[p..p + 5] == TAG
            && file[p + 5..p + 5 + |r.params|] == r.params
            && file[p + 5 + |r.params|] == NEWLINE
            && file[p + 5 + |r.params| + 1..p + 5 + |r.params| + 1 + |r.payload|] == r.payload
  {
    hide Encoded, Flat, Offset;
    RecordAt(rs, k);
    var p, r := start + Offset(rs, k), rs[k];
    var e := Encoded(r);
    SliceBehind(file, start, Flat(rs), Offset(rs, k), Offset(rs, k + 1));
    assert file[p..p + |e|] == e;
    EncodedParts(r);
    Slice(file, p, e, 0, 5);
    Slice(file, p, e, 5, 5 + |r.params|);
    Slice(file, p, e, 5 + |r.params| + 1, |e|);
    assert file[p + 5 + |r.params|] == file[p..p + |e|][5 + |r.params|];
  }

  lemma EncodedParts(r: Record)
    ensures var e := Encoded(r); var n := 5 + |r.params|;
            && |e| == n + 1 + |r.payload|
            && e[0..5] == TAG && e[5..n] == r.params && e[n] == NEWLINE && e[n + 1..|e|] == r.payload
  {
  }

  lemma Slice(file: seq<byte>, p: nat, e: seq<byte>, a: nat, b: nat)
    requires p + |e| <= |file| && file[p..p + |e|] == e && a <= b <= |e|
    ensures file[p + a..p + b] == e[a..b]
  {
    forall i | 0 <= i < b - a ensures file[p + a..p + b][i] == e[a..b][i] {
      assert file[p..p + |e|][a + i] == file[p + a + i];
    }
  }

  // ----- which frame is due -----

  function FrameNumber(elapsedMs: int, num: int, den: int): int
    requires den > 0
  {
    TruncDiv(elapsedMs * num, 1000 * den)
  }

  /** `n` is the number of the frame due: as many whole frames have passed. Before the start, frames are counted
      backwards. */
  predicate IsDue(n: int, elapsedMs: int, num: int, den: int) {
    if elapsedMs >= 0 then n * 1000 * den <= elapsedMs * num < (n + 1) * 1000 * den
    else (n - 1) * 1000 * den < elapsedMs * num <= n * 1000 * den
  }

  lemma FrameNumberIsDue(elapsedMs: int, num: int, den: int)
    requires num > 0 && den > 0
    ensures IsDue(FrameNumber(elapsedMs, num, den), elapsedMs, num, den)
  {
    var x, d, n := elapsedMs * num, 1000 * den, FrameNumber(elapsedMs, num, den);
    if elapsedMs >= 0 {
      MulLe(num, 0, elapsedMs);
      assert x == n * d + x % d;
      Thousands(n, den);
    } else {
      MulLe(num, elapsedMs, -1);
      var q := (-x) / d;
      assert -x == q * d + (-x) % d;
      Thousands(-q, den);
      assert (-q) * d == -(q * d);
    }
  }

  lemma Thousands(n: int, den: int)
    ensures n * 1000 * den == n * (1000 * den)
    ensures (n + 1) * 1000 * den == n * (1000 * den) + 1000 * den
    ensures (n - 1) * 1000 * den == n * (1000 * den) - 1000 * den
  {
  }

  /** Later times never ask for an earlier frame. */
  lemma FrameNumberMonotone(a: int, b: int, num: int, den: int)
    requires 0 <= a <= b && num > 0 && den > 0
    ensures 0 <= FrameNumber(a, num, den) <= FrameNumber(b, num, den)
  {
    MulLe(num, 0, a);
    MulLe(num, a, b);
    QuotientMonotone(a * num, b * num, 1000 * den);
  }

  lemma QuotientMonotone(x: nat, y: nat, d: nat)
    requires x <= y && d > 0
    ensures 0 <= TruncDiv(x, d) <= TruncDiv(y, d)
  {
    QuotientIs(0, d, 0, 0);
    DivMonotone(0, x, d);
    DivMonotone(x, y, d);
  }

  // ----- the reader -----

  datatype Frame = NoChange | Delivered | Failed(reason: string)

  class Reader {
    const file: seq<byte>
    const fileSize: nat
    const width: nat
    const height: nat
    const fpsNum: int
    const fpsDen: int
    const startPos: nat
    /** The operating system's position in the file. */
    var cursor: nat
    var pos: nat
    var frame: int
    var prevFrame: int

    /** What opening the file established. */
    ghost predicate Opened() {
      fileSize == |file| && width > 0 && height > 0 && fpsNum > 0 && fpsDen > 0 && startPos <= |file|
    }

    function FrameSize(): nat {
      width * height + ((width + 1) / 2) * ((height + 1) / 2) * 2
    }

    /** The file is well formed, with the records `rs`. */
    ghost predicate Holds(rs: seq<Record>) {
      && Opened()
      && rs != []
      && file[startPos..] == Flat(rs)
      && forall i :: 0 <= i < |rs| ==> RecordOk(rs[i], FrameSize())
    }

    /** File position, `pos` and frame number agree. */
    ghost predicate InStep(rs: seq<Record>)
      reads this
    {
      && Holds(rs)
      && frame >= 0
      && cursor == pos == StartOf(rs, frame)
    }

    constructor (file: seq<byte>, width: nat, height: nat, fpsNum: int, fpsDen: int, startPos: nat)
      requires width > 0 && height > 0 && fpsNum > 0 && fpsDen > 0 && startPos <= |file|
      ensures this.file == file && this.width == width && this.height == height
      ensures this.fpsNum == fpsNum && this.fpsDen == fpsDen && this.startPos == startPos
      ensures Opened() && frame == 0 && prevFrame == -1
      ensures forall rs :: Holds(rs) ==> InStep(rs)
    {
      this.file, this.fileSize := file, |file|;
      this.width, this.height, this.fpsNum, this.fpsDen := width, height, fpsNum, fpsDen;
      this.startPos, cursor, pos := startPos, startPos, startPos;
      frame, prevFrame := 0, -1;
      new;
      forall rs | Holds(rs) ensures InStep(rs) {
        QuotientIs(0, |rs|, 0, 0);
        OffsetZero(rs);
      }
    }

    /** The record that frame `f` falls on, around the loop. */
    ghost function Due(rs: seq<Record>, f: int): (k: nat)
      requires rs != []
      ensures k < |rs|
    {
      f % |rs|
    }

    /** Where that record starts in the file. */
    ghost function StartOf(rs: seq<Record>, f: int): nat
      requires rs != []
    {
      startPos + Offset(rs, Due(rs, f))
    }

    /** What the file holds there: the tag, a line of its parameters and the picture, then the next frame's record. */
    lemma RecordHere(rs: seq<Record>, f: nat)
      requires Holds(rs)
      ensures var p := StartOf(rs, f); var n := |rs[Due(rs, f)].params|; var size := FrameSize();
              && n < MAX_HEADER && p + 5 + n + 1 + size <= |file|
              && file[p..p + 5] == TAG
              && (forall i :: p + 5 <= i < p + 5 + n ==> file[i] != NEWLINE)
              && file[p + 5 + n] == NEWLINE
              && file[p + 5 + n + 1..p + 5 + n + 1 + size] == rs[Due(rs, f)].payload
              && StartOf(rs, f + 1) == if p + 5 + n + 1 + size == |file| then startPos else p + 5 + n + 1 + size
    {
      hide Flat, FrameSize, Encoded;
      var k := Due(rs, f);
      NextModulo(f, |rs|);
      PartsAt(file, startPos, rs, k);
      RecordAt(rs, k);
      var p, n := StartOf(rs, f), |rs[k].params|;
      forall i | p + 5 <= i < p + 5 + n ensures file[i] != NEWLINE {
        assert file[p + 5..p + 5 + n][i - p - 5] == rs[k].params[i - p - 5];
      }
      assert |file[startPos..]| == |Flat(rs)|;
      OffsetZero(rs);
    }

    lemma OffsetZero(rs: seq<Record>)
      ensures Offset(rs, 0) == 0
    {
      assert rs[..0] == [];
    }

    /** Reads the tag and skips to the end of its line. */
    method ReadFrameHeader(ghost rs: seq<Record>) returns (ok: bool)
      requires Opened()
      modifies this`cursor, this`pos
      ensures ok ==> cursor - pos == old(cursor) - old(pos) && old(cursor) + 5 < cursor <= |file|
      ensures ok ==> file[cursor - 1] == NEWLINE && file[old(cursor)..old(cursor) + 5] == TAG
      ensures old(InStep(rs)) ==> ok && cursor == old(cursor) + 5 + |rs[Due(rs, frame)].params| + 1
    {
      hide Offset, FrameSize, Due;
      ghost var start, inStep := cursor, InStep(rs);
      ghost var n := 0;
      if inStep {
        RecordHere(rs, frame);
        n := |rs[Due(rs, frame)].params|;
      }
      if cursor + 5 > |file| || file[cursor..cursor + 5] != TAG { return false; }
      cursor := cursor + 5;
      pos := pos + 5;
      var i := 0;
      while i < MAX_HEADER
        invariant 0 <= i <= MAX_HEADER && cursor == start + 5 + i <= |file|
        invariant pos == old(pos) + 5 + i
        invariant inStep ==> i <= n
      {
        if cursor >= |file| { return false; }
        var b := file[cursor];
        cursor := cursor + 1;
        pos := pos + 1;
        i := i + 1;
        if b == NEWLINE { return true; }
      }
      return false;
    }

    method SeekToStart()
      modifies this`cursor, this`pos
      ensures cursor == pos == startPos
    {
      cursor := startPos;
      pos := startPos;
    }

    method SkipFrame(ghost rs: seq<Record>) returns (ok: bool)
      requires Opened()
      modifies this`cursor, this`pos, this`frame
      ensures ok ==> frame == old(frame) + 1
      ensures old(InStep(rs)) ==> ok && InStep(rs)
    {
      ok := ReadFrameHeader(rs);
      if !ok { return; }
      if old(InStep(rs)) { RecordHere(rs, frame); }
      var size := FrameSize();
      cursor := cursor + size;
      pos := pos + size;
      if pos > fileSize { return false; }
      if pos == fileSize {
        SeekToStart();
      }
      frame := frame + 1;
    }

    /** The frame due at `elapsedMs`, written to the start of `buf`. On a well-formed file a call fails exactly when
        time runs backwards to an earlier frame or the buffer is too short; on any file a delivered frame is a stretch
        of the file that follows a line starting with the tag. */
    method GetFrame(elapsedMs: int, buf: array<byte>, ghost rs: seq<Record>) returns (r: Frame, ghost due: int)
      requires Opened()
      modifies this`cursor, this`pos, this`frame, this`prevFrame, buf
      ensures IsDue(due, elapsedMs, fpsNum, fpsDen) && due == FrameNumber(elapsedMs, fpsNum, fpsDen)
      ensures && (r.NoChange? <==> due == old(prevFrame))
              && (r.NoChange? ==> unchanged(this) && buf[..] == old(buf[..]))
              && (r.Delivered? ==> prevFrame == due && frame == due + 1 && FrameSize() <= buf.Length)
              && (old(InStep(rs)) && due != old(prevFrame) ==>
                    (r.Failed? <==> due < old(frame) || buf.Length < FrameSize()))
              && (old(InStep(rs)) && r.Delivered? ==>
                    && InStep(rs)
                    && buf[..FrameSize()] == rs[Due(rs, due)].payload
                    && buf[FrameSize()..] == old(buf[FrameSize()..]))
      ensures r.Delivered? ==> exists p :: IsPicture(p, buf[..FrameSize()])
    {
      var number := FrameNumber(elapsedMs, fpsNum, fpsDen);
      FrameNumberIsDue(elapsedMs, fpsNum, fpsDen);
      due := number;
      if prevFrame == number { return NoChange, due; }
      if number < frame { return Failed("time ran backwards"), due; }
      while frame < number
        invariant old(frame) <= frame <= number && prevFrame == old(prevFrame) && buf[..] == old(buf[..])
        invariant old(InStep(rs)) ==> InStep(rs)
        decreases number - frame
      {
        var ok := SkipFrame(rs);
        if !ok { return Failed("skip"), due; }
      }
      r := ReadFrame(number, buf, rs);
    }

    /** `s` stands in the file at `p`, behind a line. */
    ghost predicate IsPicture(p: nat, s: seq<byte>) {
      5 < p && p + |s| <= |file| && file[p - 1] == NEWLINE && file[p..p + |s|] == s
    }

    /** The frame at the reader's position. */
    method ReadFrame(due: int, buf: array<byte>, ghost rs: seq<Record>) returns (r: Frame)
      requires Opened() && frame == due
      modifies this`cursor, this`pos, this`frame, this`prevFrame, buf
      ensures !r.NoChange?
      ensures r.Delivered? ==> prevFrame == due && frame == due + 1 && FrameSize() <= buf.Length
      ensures r.Delivered? ==> exists p :: IsPicture(p, buf[..FrameSize()])
      ensures old(InStep(rs)) ==> (r.Failed? <==> buf.Length < FrameSize())
      ensures old(InStep(rs)) && r.Delivered? ==>
                && InStep(rs)
                && buf[..FrameSize()] == rs[Due(rs, due)].payload
                && buf[FrameSize()..] == old(buf[FrameSize()..])
    {
      hide Offset, FrameSize, Due;
      if InStep(rs) {
        RecordHere(rs, due);
      }
      var ok := ReadFrameHeader(rs);
      if !ok { return Failed("frame header"); }
      var size := FrameSize();
      if buf.Length < size { return Failed("buffer too short"); }
      if cursor + size > |file| { return Failed("read"); }
      CopyOut(buf, size);
      ghost var p := cursor;
      cursor := cursor + size;
      pos := pos + size;
      if pos > fileSize { return Failed("past the end"); }
      if pos == fileSize {
        SeekToStart();
      }
      frame := frame + 1;
      prevFrame := due;
      assert IsPicture(p, buf[..FrameSize()]);
      return Delivered;
    }

    method CopyOut(buf: array<byte>, size: nat)
      requires size <= buf.Length && cursor + size <= |file|
      modifies buf
      ensures buf[..size] == file[cursor..cursor + size] && buf[size..] == old(buf[size..])
    {
      forall i | 0 <= i < size {
        buf[i] := file[cursor + i];
      }
    }
  }

  /** What is shown for frame `due[i]`: nothing when the number has not changed; else the record with that number,
      counted around the loop. */
  ghost predicate ShowsDue(rs: seq<Record>, due: seq<nat>, i: nat, shown: Option<seq<byte>>)
    requires rs != [] && i < |due|
  {
    shown == if i > 0 && due[i] == due[i - 1] then None else Some(rs[due[i] % |rs|].payload)
  }

  lemma DueMeans(n: nat, elapsedMs: nat, num: int, den: int)
    requires IsDue(n, elapsedMs, num, den)
    ensures n * 1000 * den <= elapsedMs * num < (n + 1) * 1000 * den
  {
  }

  /** A whole playback: at non-decreasing times no call fails, whatever is skipped and however often the file wraps.
      `due` are the numbers of the frames due. */
  method Play(reader: Reader, rs: seq<Record>, times: seq<int>, buf: array<byte>)
    returns (shown: seq<Option<seq<byte>>>, ghost due: seq<nat>)
    requires reader.InStep(rs) && reader.frame == 0 && reader.prevFrame == -1
    requires reader.FrameSize() <= buf.Length
    requires forall i :: 0 <= i < |times| ==> 0 <= times[i]
    requires forall i, j :: 0 <= i < j < |times| ==> times[i] <= times[j]
    modifies reader, buf
    ensures |shown| == |due| == |times|
    ensures forall i :: 0 <= i < |times| ==>
              due[i] * 1000 * reader.fpsDen <= times[i] * reader.fpsNum < (due[i] + 1) * 1000 * reader.fpsDen
    ensures forall i :: 0 <= i < |times| ==> ShowsDue(rs, due, i, shown[i])
  {
    shown, due := [], [];
    ghost var num, den := reader.fpsNum, reader.fpsDen;
    hide IsDue, FrameNumber, ShowsDue;
    for i := 0 to |times|
      invariant |shown| == |due| == i && reader.InStep(rs)
      invariant reader.prevFrame == (if i == 0 then -1 else due[i - 1])
      invariant reader.frame == reader.prevFrame + 1
      invariant forall j :: 0 <= j < i ==> due[j] == FrameNumber(times[j], num, den) && IsDue(due[j], times[j], num, den)
      invariant forall j :: 0 <= j < i ==> ShowsDue(rs, due, j, shown[j])
    {
      var s := PlayOne(reader, rs, times, i, buf, due);
      var n := FrameNumber(times[i], num, den);
      KeepsShowing(rs, due, shown, n, s);
      shown := shown + [s];
      due := due + [n];
    }
    forall i | 0 <= i < |times| ensures due[i] * 1000 * den <= times[i] * num < (due[i] + 1) * 1000 * den {
      DueMeans(due[i], times[i], num, den);
    }
  }

  lemma KeepsShowing(rs: seq<Record>, due: seq<nat>, shown: seq<Option<seq<byte>>>, n: nat, s: Option<seq<byte>>)
    requires rs != [] && |shown| == |due| && ShowsDue(rs, due + [n], |due|, s)
    requires forall j :: 0 <= j < |due| ==> ShowsDue(rs, due, j, shown[j])
    ensures forall j :: 0 <= j <= |due| ==> ShowsDue(rs, due + [n], j, (shown + [s])[j])
  {
    forall j: nat | j <= |due| ensures ShowsDue(rs, due + [n], j, (shown + [s])[j]) {
      assert j < |due| ==> ShowsDue(rs, due, j, shown[j]);
    }
  }

  /** One more time of the playback. */
  method PlayOne(reader: Reader, rs: seq<Record>, times: seq<int>, i: nat, buf: array<byte>, ghost due: seq<nat>)
    returns (shown: Option<seq<byte>>)
    requires reader.InStep(rs) && reader.FrameSize() <= buf.Length && i < |times| && |due| == i
    requires reader.prevFrame == (if i == 0 then -1 else due[i - 1]) && reader.frame == reader.prevFrame + 1
    requires 0 <= times[i] && (i > 0 ==> 0 <= times[i - 1] <= times[i])
    requires i > 0 ==> due[i - 1] == FrameNumber(times[i - 1], reader.fpsNum, reader.fpsDen)
    modifies reader, buf
    ensures var n := FrameNumber(times[i], reader.fpsNum, reader.fpsDen);
            && 0 <= n && IsDue(n, times[i], reader.fpsNum, reader.fpsDen)
            && reader.InStep(rs) && reader.prevFrame == n && reader.frame == n + 1
            && ShowsDue(rs, due + [n], i, shown)
  {
    hide IsDue, FrameNumber;
    FrameNumberMonotone(if i > 0 then times[i - 1] else times[i], times[i], reader.fpsNum, reader.fpsDen);
    var r;
    ghost var n;
    r, n := reader.GetFrame(times[i], buf, rs);
    shown := if r.Delivered? then Some(buf[..reader.FrameSize()]) else None;
  }
}
