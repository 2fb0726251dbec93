/** Re-indenting a block comment keeps it one block comment that says the same. */
module JsoncBlock {
  import opened JsoncText
  import opened JsoncLexer
  import opened JsoncSpec

  lemma NoCloseSlice(s: string, a: nat, b: nat)
    requires a <= b <= |s| && NoClose(s)
    ensures NoClose(s[a..b])
  {
    forall i | 0 < i < b - a ensures !ClosesAt(s[a..b], i) {
      assert !ClosesAt(s, a + i);
    }
  }

  lemma NoCloseLines(a: string, b: string)
    requires NoClose(a) && NoClose(b)
    ensures NoClose(a + "\n" + b)
  {
    var s := a + "\n" + b;
    forall i | 0 < i < |s| ensures !ClosesAt(s, i) {
      assert !ClosesAt(a, i) && !ClosesAt(b, i - |a| - 1);
    }
  }

  lemma NoCloseBlanks(n: nat, s: string)
    requires NoClose(s)
    ensures NoClose(Blanks(n) + s)
  {
    forall i | 0 < i < n + |s| ensures !ClosesAt(Blanks(n) + s, i) {
      assert !ClosesAt(s, i - n);
    }
  }

  /** The blanks put in front of a line, or those taken away. */
  lemma ReindentSays(l: string, after: nat, before: nat)
    ensures NormLine(Reindent(l, after, before)) == NormLine(l)
  {
    var r := Reindent(l, after, before);
    if before <= after {
      assert r[after - before..] == TrimEnd(l);
      assert l[0..] == l;
      NormLineInvariant(l, r, 0);
    } else {
      StripUpToSuffix(l, before - after);
      assert r[0..] == r;
      NormLineInvariant(l, r, |l| - |StripUpTo(l, before - after)|);
    }
  }

  lemma StripShape(l: string, k: nat) returns (a: nat, b: nat)
    ensures a <= b <= |l| && TrimEnd(StripUpTo(l, k)) == l[a..b]
    ensures forall i :: 0 <= i < a ==> l[i] == ' '
    ensures b == |l| || IsWhite(l[|l| - 1])
  {
    var t := StripUpTo(l, k);
    StripUpToSuffix(l, k);
    hide StripUpTo, IsWhite;
    a := |l| - |t|;
    b := a + |TrimEnd(t)|;
    assert t[..|TrimEnd(t)|] == l[a..b];
    if b < |l| { assert t[|t| - 1] == l[|l| - 1]; }
  }

  /** A re-indented line is blanks in front of a stretch of the line. */
  lemma ReindentShape(l: string, after: nat, before: nat) returns (n: nat, a: nat, b: nat)
    ensures a <= b <= |l| && Reindent(l, after, before) == Blanks(n) + l[a..b]
    ensures forall i :: 0 <= i < a ==> l[i] == ' '
    ensures b == |l| || IsWhite(l[|l| - 1])
  {
    hide StripUpTo, IsWhite;
    if before <= after {
      n, a, b := after - before, 0, |TrimEnd(l)|;
      assert l[0..b] == TrimEnd(l);
    } else {
      n := 0;
      a, b := StripShape(l, before - after);
      hide TrimEnd;
      assert Blanks(0) == "" && Blanks(0) + l[a..b] == l[a..b];
    }
  }

  lemma ReindentNewline(l: string, after: nat, before: nat)
    requires NoNewline(l)
    ensures NoNewline(Reindent(l, after, before))
  {
    var n, a, b := ReindentShape(l, after, before);
  }

  lemma ReindentKeeps(l: string, after: nat, before: nat)
    requires NoNewline(l) && NoClose(l)
    ensures NoNewline(Reindent(l, after, before)) && NoClose(Reindent(l, after, before))
  {
    var n, a, b := ReindentShape(l, after, before);
    NoCloseSlice(l, a, b);
    NoCloseBlanks(n, l[a..b]);
  }

  function RenderLines(lines: seq<string>, after: nat, before: nat): string
    requires lines != []
  {
    Trim(lines[0]) + RenderRest(lines[1..], after, before)
  }

  lemma RenderLinesAppend(lines: seq<string>, l: string, after: nat, before: nat)
    requires lines != []
    ensures RenderLines(lines + [l], after, before) == RenderLines(lines, after, before) + "\n" + Reindent(l, after, before)
  {
    assert (lines + [l])[1..] == lines[1..] + [l];
    assert (lines[1..] + [l])[..|lines| - 1] == lines[1..];
    var rest := RenderRest(lines[1..], after, before);
    assert Trim(lines[0]) + (rest + "\n" + Reindent(l, after, before))
        == Trim(lines[0]) + rest + "\n" + Reindent(l, after, before);
  }

  /** What a stretch of block comment without its terminator looks like. */
  ghost predicate Opened(u: string) {
    |u| >= 2 && u[0] == '/' && u[1] == '*' && NoClose(u[2..])
  }

  lemma OpenedLine(r: string, w: string, l: string)
    requires Opened(w) && NoClose(l) && r == w + "\n" + l
    ensures Opened(r)
  {
    NoCloseLines(w[2..], l);
    assert r[2..] == w[2..] + "\n" + l;
  }

  lemma OpenedParts(u: string, k: nat)
    requires Opened(u) && 2 < k <= |u|
    ensures Opened(u[..k - 1]) && NoClose(u[k..])
  {
    assert u[..k - 1][2..] == u[2..][0..k - 3] && u[k..] == u[2..][k - 2..|u| - 2];
    NoCloseSlice(u[2..], 0, k - 3);
    NoCloseSlice(u[2..], k - 2, |u| - 2);
  }

  lemma NormBlockAppend(a: string, b: string, l: string, m: string)
    requires NoNewline(l) && NoNewline(m) && NormLine(l) == NormLine(m) && NormBlock(a) == NormBlock(b)
    ensures NormBlock(a + "\n" + l) == NormBlock(b + "\n" + m)
  {
    LinesAppend(a, l);
    LinesAppend(b, m);
    NormLinesAppend(Lines(a), l);
    NormLinesAppend(Lines(b), m);
  }

  lemma OneLine(u: string)
    requires Opened(u) && LineStart(u) == 0
    ensures Trim(u) == TrimEnd(u) && Opened(TrimEnd(u)) && NormBlock(TrimEnd(u)) == NormBlock(u)
  {
    var r := TrimEnd(u);
    assert !IsWhite(u[1]);
    assert r[2..] == u[2..][..|r| - 2];
    NoCloseSlice(u[2..], 0, |r| - 2);
    LinesOfLine(u);
    LinesOfLine(r);
    TrimEndIdempotent(u);
  }

  /** All lines of the comment but the last. */
  lemma {:induction false} RenderPrefix(u: string, after: nat, before: nat)
    requires Opened(u)
    ensures Opened(RenderLines(Lines(u), after, before))
    ensures NormBlock(RenderLines(Lines(u), after, before)) == NormBlock(u)
    decreases |u|
  {
    var k := LineStart(u);
    if k == 0 {
      assert RenderRest([], after, before) == "";
      assert RenderLines(Lines(u), after, before) == Trim(u) + "" == Trim(u);
      OneLine(u);
    } else {
      var w, l := u[..k - 1], u[k..];
      assert u == w + "\n" + l;
      OpenedParts(u, k);
      RenderPrefix(w, after, before);
      RenderLinesAppend(Lines(w), l, after, before);
      ReindentKeeps(l, after, before);
      ReindentSays(l, after, before);
      var rw, rl := RenderLines(Lines(w), after, before), Reindent(l, after, before);
      OpenedLine(rw + "\n" + rl, rw, rl);
      NormBlockAppend(rw, w, rl, l);
    }
  }

  /** A comment's last line keeps its terminator. */
  ghost predicate Terminated(l: string) {
    |l| >= 2 && l[|l| - 2] == '*' && l[|l| - 1] == '/' && NoClose(l[..|l| - 1])
  }

  lemma ReindentLast(l: string, after: nat, before: nat)
    requires Terminated(l)
    ensures Terminated(Reindent(l, after, before))
  {
    var n, a, b := ReindentShape(l, after, before);
    var r := Reindent(l, after, before);
    assert a <= |l| - 2;
    NoCloseSlice(l[..|l| - 1], a, |l| - 1);
    assert l[..|l| - 1][a..|l| - 1] == l[a..|l| - 1];
    NoCloseBlanks(n, l[a..|l| - 1]);
    assert r[..|r| - 1] == Blanks(n) + l[a..|l| - 1];
  }

  lemma TerminatedBlock(w: string, l: string)
    requires Opened(w) && Terminated(l)
    ensures IsBlockComment(w + "\n" + l)
  {
    var s := w + "\n" + l;
    NoCloseLines(w[2..], l[..|l| - 1]);
    assert s[2..|s| - 1] == w[2..] + "\n" + l[..|l| - 1];
  }

  lemma BlockParts(s: string, k: nat)
    requires IsBlockComment(s) && 0 < k <= |s| && s[k - 1] == '\n'
    ensures k > 2 && Opened(s[..k - 1]) && Terminated(s[k..])
  {
    var w, l, body := s[..k - 1], s[k..], s[2..|s| - 1];
    assert 2 < k <= |s| - 2;
    assert w[2..] == body[0..k - 3];
    assert s[k..|s| - 1] == body[k - 2..|body|] && l[..|l| - 1] == s[k..|s| - 1];
    NoCloseSlice(body, 0, k - 3);
    NoCloseSlice(body, k - 2, |body|);
  }

  lemma RenderedLine(s: string, after: nat, before: nat)
    requires IsBlockComment(s) && LineStart(s) == 0
    ensures RenderBlock(s, after, before) == s
  {
    TrimEndKeeps(s);
    assert TrimStart(s) == s;
    assert RenderRest([], after, before) == "";
    assert RenderBlock(s, after, before) == s + "";
  }

  lemma RenderedSplit(s: string, after: nat, before: nat)
    requires LineStart(s) > 0
    ensures RenderBlock(s, after, before)
         == RenderLines(Lines(s[..LineStart(s) - 1]), after, before) + "\n" + Reindent(s[LineStart(s)..], after, before)
  {
    var k := LineStart(s);
    RenderLinesAppend(Lines(s[..k - 1]), s[k..], after, before);
  }

  lemma RenderedSpread(s: string, after: nat, before: nat)
    requires IsBlockComment(s) && LineStart(s) > 0
    ensures IsBlockComment(RenderBlock(s, after, before))
    ensures NormBlock(RenderBlock(s, after, before)) == NormBlock(s)
  {
    hide RenderLines, Lines, RenderBlock, Reindent, NormBlock, Opened, Terminated, IsBlockComment;
    var k := LineStart(s);
    var w, l := s[..k - 1], s[k..];
    BlockParts(s, k);
    RenderedSplit(s, after, before);
    assert s == w + "\n" + l;
    RenderPrefix(w, after, before);
    ReindentLast(l, after, before);
    ReindentSays(l, after, before);
    ReindentNewline(l, after, before);
    var rw, rl := RenderLines(Lines(w), after, before), Reindent(l, after, before);
    TerminatedBlock(rw, rl);
    NormBlockAppend(rw, w, rl, l);
  }

  /** A block comment on lines of its own is printed as the same block comment. */
  lemma RenderedBlock(s: string, after: nat, before: nat)
    requires IsBlockComment(s)
    ensures IsBlockComment(RenderBlock(s, after, before))
    ensures CommentLexeme(RenderBlock(s, after, before)) == CommentLexeme(s)
  {
    if LineStart(s) == 0 {
      RenderedLine(s, after, before);
    } else {
      RenderedSpread(s, after, before);
      BlockIsNotLine(s);
      BlockIsNotLine(RenderBlock(s, after, before));
    }
  }

  lemma BlockIsNotLine(s: string)
    requires IsBlockComment(s)
    ensures CommentLexeme(s) == BlockComment(NormBlock(s))
  {
  }
}
