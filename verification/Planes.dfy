/** I420 planes: packed data copied row by row into buffers with a stride (`zakuro/src/fake_video_capturer.rs`), and taken
    out of them again (`zakuro/src/openh264_video_codec.rs`). */
module Planes {
  import opened Arithmetic
  import opened Bytes

  /** Half the size, rounded up. */
  function Chroma(n: nat): nat {
    (n + 1) / 2
  }

  /** Where a row starts, and how much a number of rows holds. */
  function At(row: nat, stride: nat): nat {
    row * stride
  }

  lemma AtNext(row: nat, stride: nat)
    ensures At(0, stride) == 0 && At(row + 1, stride) == At(row, stride) + stride
  {
  }

  lemma AtMonotone(row: nat, more: nat, stride: nat)
    requires row <= more
    ensures At(row, stride) <= At(more, stride)
  {
    MulLe(stride, row, more);
  }

  /** Room for `height` rows, each `stride` after the one before. */
  predicate Fits(length: nat, stride: nat, width: nat, height: nat) {
    width <= stride && (height > 0 ==> At(height - 1, stride) + width <= length)
  }

  lemma RowFits(length: nat, stride: nat, width: nat, height: nat, row: nat)
    requires Fits(length, stride, width, height) && row < height
    ensures Fits(length, stride, width, row) && At(row, stride) + width <= length
  {
    AtMonotone(row, height - 1, stride);
    if row > 0 {
      AtMonotone(row - 1, row, stride);
    }
  }

  /** The first `height` rows, without what lies between them. */
  function Rows(data: seq<byte>, stride: nat, width: nat, height: nat): seq<byte>
    requires Fits(|data|, stride, width, height)
  {
    if height == 0 then []
    else
      RowFits(|data|, stride, width, height, height - 1);
      Rows(data, stride, width, height - 1) + data[At(height - 1, stride)..At(height - 1, stride) + width]
  }

  lemma PackedFits(length: nat, width: nat, height: nat)
    ensures Fits(length, width, width, height) <==> height == 0 || At(height, width) <= length
  {
    if height > 0 {
      AtNext(height - 1, width);
    }
  }

  /** Rows with nothing between them are the data itself. */
  lemma {:induction false} ContiguousRows(data: seq<byte>, width: nat, height: nat)
    requires Fits(|data|, width, width, height)
    ensures At(height, width) <= |data| && Rows(data, width, width, height) == data[..At(height, width)]
  {
    PackedFits(|data|, width, height);
    AtNext(0, width);
    if height > 0 {
      var row := height - 1;
      RowFits(|data|, width, width, height, row);
      ContiguousRows(data, width, row);
      AtNext(row, width);
      hide At, Fits;
      assert data[..At(row, width)] + data[At(row, width)..At(height, width)] == data[..At(height, width)];
    }
  }

  // ----- copying in -----

  function Overwrite(s: seq<byte>, at: nat, piece: seq<byte>): (r: seq<byte>)
    requires at + |piece| <= |s|
    ensures |r| == |s|
  {
    s[..at] + piece + s[at + |piece|..]
  }

  /** Row `row` of packed data that starts at `offset`. */
  function PackedRow(src: seq<byte>, offset: nat, width: nat, row: nat): (r: seq<byte>)
    requires offset + At(row + 1, width) <= |src|
    ensures |r| == width
  {
    AtNext(row, width);
    src[offset + At(row, width)..offset + At(row, width) + width]
  }

  /** The buffer after `height` packed rows were copied into it. */
  function Copied(src: seq<byte>, offset: nat, dst: seq<byte>, stride: nat, width: nat, height: nat): (r: seq<byte>)
    requires offset + At(height, width) <= |src| && Fits(|dst|, stride, width, height)
    ensures |r| == |dst|
  {
    if height == 0 then dst
    else
      RowFits(|dst|, stride, width, height, height - 1);
      AtMonotone(height - 1, height, width);
      Overwrite(Copied(src, offset, dst, stride, width, height - 1), At(height - 1, stride),
                PackedRow(src, offset, width, height - 1))
  }

  lemma CopiedNext(src: seq<byte>, offset: nat, dst: seq<byte>, stride: nat, width: nat, height: nat, row: nat)
    requires offset + At(height, width) <= |src| && Fits(|dst|, stride, width, height) && row < height
    ensures At(row, width) + width == At(row + 1, width) <= At(height, width)
    ensures Fits(|dst|, stride, width, row) && Fits(|dst|, stride, width, row + 1) && At(row, stride) + width <= |dst|
    ensures Copied(src, offset, dst, stride, width, row + 1)
         == Overwrite(Copied(src, offset, dst, stride, width, row), At(row, stride),
                      src[offset + At(row, width)..offset + At(row, width) + width])
  {
    RowFits(|dst|, stride, width, height, row);
    AtMonotone(row + 1, height, width);
    AtNext(row, width);
  }

  method CopyPlane(src: seq<byte>, offset: nat, dst: array<byte>, stride: nat, width: nat, height: nat)
    requires offset + At(height, width) <= |src| && Fits(dst.Length, stride, width, height)
    modifies dst
    ensures dst[..] == Copied(src, offset, old(dst[..]), stride, width, height)
  {
    AtNext(0, width);
    assert Fits(dst.Length, stride, width, 0);
    assert Copied(src, offset, dst[..], stride, width, 0) == dst[..];
    hide At, Fits, Copied, Overwrite;
    for row := 0 to height
      invariant At(row, width) <= At(height, width) && Fits(dst.Length, stride, width, row)
      invariant dst[..] == Copied(src, offset, old(dst[..]), stride, width, row)
    {
      CopiedNext(src, offset, old(dst[..]), stride, width, height, row);
      CopyInto(dst, At(row, stride), src[offset + At(row, width)..offset + At(row, width) + width]);
    }
  }

  method CopyInto(dst: array<byte>, at: nat, piece: seq<byte>)
    requires at + |piece| <= dst.Length
    modifies dst
    ensures dst[..] == Overwrite(old(dst[..]), at, piece)
  {
    forall j | 0 <= j < |piece| {
      dst[at + j] := piece[j];
    }
    assert dst[..] == Overwrite(old(dst[..]), at, piece);
  }

  lemma OverwriteAt(s: seq<byte>, at: nat, piece: seq<byte>, from: nat, to: nat)
    requires at + |piece| <= |s| && from <= to <= at
    ensures Overwrite(s, at, piece)[from..to] == s[from..to] && Overwrite(s, at, piece)[at..at + |piece|] == piece
  {
  }

  /** Writing behind the rows leaves them alone. */
  lemma {:induction false} RowsBefore(s: seq<byte>, at: nat, piece: seq<byte>, stride: nat, width: nat, height: nat)
    requires Fits(|s|, stride, width, height) && at + |piece| <= |s| && At(height, stride) <= at
    ensures Rows(Overwrite(s, at, piece), stride, width, height) == Rows(s, stride, width, height)
  {
    if height > 0 {
      var row := height - 1;
      AtNext(row, stride);
      RowFits(|s|, stride, width, height, row);
      RowsBefore(s, at, piece, stride, width, row);
      assert width <= stride;
      hide At, Fits, Overwrite;
      OverwriteAt(s, at, piece, At(row, stride), At(row, stride) + width);
    }
  }

  lemma SlicesJoin(s: seq<byte>, a: nat, b: nat, c: nat)
    requires a <= b <= c <= |s|
    ensures s[a..b] + s[b..c] == s[a..c]
  {
  }

  /** The copied rows are the packed bytes. */
  lemma {:induction false} CopiedRows(src: seq<byte>, offset: nat, dst: seq<byte>, stride: nat, width: nat, height: nat)
    requires offset + At(height, width) <= |src| && Fits(|dst|, stride, width, height)
    ensures Rows(Copied(src, offset, dst, stride, width, height), stride, width, height)
         == src[offset..offset + At(height, width)]
  {
    AtNext(0, width);
    if height > 0 {
      var row := height - 1;
      RowFits(|dst|, stride, width, height, row);
      AtMonotone(row, height, width);
      AtNext(row, width);
      CopiedRows(src, offset, dst, stride, width, row);
      var before, piece := Copied(src, offset, dst, stride, width, row), PackedRow(src, offset, width, row);
      SlicesJoin(src, offset, offset + At(row, width), offset + At(height, width));
      assert piece == src[offset + At(row, width)..offset + At(height, width)];
      hide At, Fits, Overwrite, PackedRow;
      RowsBefore(before, At(row, stride), piece, stride, width, row);
      OverwriteAt(before, At(row, stride), piece, 0, 0);
    }
  }

  /** Position `k` lies in no row. */
  predicate Padding(stride: nat, width: nat, height: nat, k: nat) {
    forall row: nat :: row < height ==> !(At(row, stride) <= k < At(row, stride) + width)
  }

  /** What lies between and behind the rows stays as it was. */
  lemma {:induction false} CopiedPadding(src: seq<byte>, offset: nat, dst: seq<byte>, stride: nat, width: nat, height: nat,
        k: nat)
    requires offset + At(height, width) <= |src| && Fits(|dst|, stride, width, height)
    requires k < |dst| && Padding(stride, width, height, k)
    ensures Copied(src, offset, dst, stride, width, height)[k] == dst[k]
  {
    if height > 0 {
      var row := height - 1;
      RowFits(|dst|, stride, width, height, row);
      AtMonotone(row, height, width);
      assert Padding(stride, width, row, k);
      CopiedPadding(src, offset, dst, stride, width, row, k);
      hide At, Fits, PackedRow;
    }
  }

  // ----- taking out -----

  datatype Frame = Frame(
    width: nat, height: nat, y: seq<byte>, u: seq<byte>, v: seq<byte>, strideY: nat, strideU: nat, strideV: nat)
  {
    predicate Valid() {
      && Fits(|y|, strideY, width, height)
      && Fits(|u|, strideU, Chroma(width), Chroma(height))
      && Fits(|v|, strideV, Chroma(width), Chroma(height))
    }
  }

  method ExtractRows(data: seq<byte>, stride: nat, width: nat, height: nat) returns (plane: seq<byte>)
    requires Fits(|data|, stride, width, height)
    ensures plane == Rows(data, stride, width, height)
  {
    plane := [];
    assert Fits(|data|, stride, width, 0);
    for row := 0 to height
      invariant Fits(|data|, stride, width, row) && plane == Rows(data, stride, width, row)
    {
      RowFits(|data|, stride, width, height, row);
      assert Fits(|data|, stride, width, row + 1);
      hide At;
      var start := At(row, stride);
      plane := plane + data[start..start + width];
    }
  }

  /** `extract_i420_planes`: whichever branch is taken, the planes are the rows. */
  method ExtractPlanes(f: Frame) returns (y: seq<byte>, u: seq<byte>, v: seq<byte>)
    requires f.Valid()
    ensures y == Rows(f.y, f.strideY, f.width, f.height)
    ensures u == Rows(f.u, f.strideU, Chroma(f.width), Chroma(f.height))
    ensures v == Rows(f.v, f.strideV, Chroma(f.width), Chroma(f.height))
  {
    var width, height, uvWidth, uvHeight := f.width, f.height, Chroma(f.width), Chroma(f.height);
    hide At, Rows, Fits, Chroma;
    if f.strideY == width && f.strideU == uvWidth && f.strideV == uvWidth {
      ContiguousRows(f.y, width, height);
      ContiguousRows(f.u, uvWidth, uvHeight);
      ContiguousRows(f.v, uvWidth, uvHeight);
      return f.y[..At(height, width)], f.u[..At(uvHeight, uvWidth)], f.v[..At(uvHeight, uvWidth)];
    }
    y := ExtractRows(f.y, f.strideY, width, height);
    u := ExtractRows(f.u, f.strideU, uvWidth, uvHeight);
    v := ExtractRows(f.v, f.strideV, uvWidth, uvHeight);
  }

  /** The rows of the three planes are the three parts of the packed frame. */
  ghost predicate HoldsPacked(f: Frame, packed: seq<byte>) {
    var ySize, uvSize := At(f.height, f.width), At(Chroma(f.height), Chroma(f.width));
    && f.Valid() && |packed| == ySize + uvSize + uvSize
    && Rows(f.y, f.strideY, f.width, f.height) == packed[..ySize]
    && Rows(f.u, f.strideU, Chroma(f.width), Chroma(f.height)) == packed[ySize..ySize + uvSize]
    && Rows(f.v, f.strideV, Chroma(f.width), Chroma(f.height)) == packed[ySize + uvSize..]
  }

  /** `tick_y4m` copies the three planes of a packed frame into a buffer. */
  method CopyPacked(packed: seq<byte>, width: nat, height: nat, y: array<byte>, u: array<byte>, v: array<byte>,
        strideY: nat, strideU: nat, strideV: nat)
    requires var uvSize := At(Chroma(height), Chroma(width)); |packed| == At(height, width) + uvSize + uvSize
    requires y != u && u != v && v != y
    requires Fits(y.Length, strideY, width, height)
    requires Fits(u.Length, strideU, Chroma(width), Chroma(height))
    requires Fits(v.Length, strideV, Chroma(width), Chroma(height))
    modifies y, u, v
    ensures HoldsPacked(Frame(width, height, y[..], u[..], v[..], strideY, strideU, strideV), packed)
  {
    hide At, Fits, Rows, Copied, Chroma;
    var uvWidth, uvHeight := Chroma(width), Chroma(height);
    var ySize, uvSize := At(height, width), At(uvHeight, uvWidth);
    CopiedRows(packed, 0, y[..], strideY, width, height);
    CopiedRows(packed, ySize, u[..], strideU, uvWidth, uvHeight);
    CopiedRows(packed, ySize + uvSize, v[..], strideV, uvWidth, uvHeight);
    CopyPlane(packed, 0, y, strideY, width, height);
    CopyPlane(packed, ySize, u, strideU, uvWidth, uvHeight);
    CopyPlane(packed, ySize + uvSize, v, strideV, uvWidth, uvHeight);
  }

  /** A packed frame copied into a buffer with any strides at least as wide as the rows, and taken out again, is the same
      frame, for every width and height. */
  method ThroughBuffer(f: Frame, packed: seq<byte>) returns (y: seq<byte>, u: seq<byte>, v: seq<byte>)
    requires HoldsPacked(f, packed)
    ensures y + u + v == packed && |y| == f.width * f.height && |u| == |v| == Chroma(f.width) * Chroma(f.height)
  {
    y, u, v := ExtractPlanes(f);
    assert At(f.height, f.width) == f.width * f.height;
    assert At(Chroma(f.height), Chroma(f.width)) == Chroma(f.width) * Chroma(f.height);
    var ySize, uvSize := At(f.height, f.width), At(Chroma(f.height), Chroma(f.width));
    hide At, Rows, Fits, Chroma;
    assert packed[..ySize] + packed[ySize..ySize + uvSize] + packed[ySize + uvSize..] == packed;
  }
}
