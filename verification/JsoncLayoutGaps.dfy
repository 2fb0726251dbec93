/** What the formatter writes in a gap are the pieces of the layout: line breaks, comments, and symbols behind them. */
module JsoncLayoutGaps {
  import opened Outcomes
  import opened JsoncText
  import opened JsoncLexer
  import opened JsoncTree
  import opened JsoncSpec
  import opened JsoncScan
  import opened JsoncGaps
  import opened JsoncBlock
  import opened JsoncSymbols
  import opened JsoncLayout

  // ----- pieces -----

  /** The piece starts and ends with something visible. */
  predicate Inked(p: Piece) {
    p.written != "" && p.written[0] != ' ' && p.written[0] != '\n' && p.written[|p.written| - 1] != '\n'
  }

  predicate AllInked(ps: seq<Piece>) {
    forall i :: 0 <= i < |ps| ==> Inked(ps[i])
  }

  /** Writing the pieces `ps` behind `before` gives `after`. */
  ghost predicate Writes(before: string, ps: seq<Piece>, after: string) {
    after == before + Flatten(ps) && AllInked(ps)
  }

  lemma WritesNone(out: string)
    ensures Writes(out, [], out)
  {
    assert out + "" == out;
  }

  lemma WritesOne(before: string, p: Piece, after: string)
    requires Inked(p) && after == before + Text(p)
    ensures Writes(before, [p], after)
  {
    FlattenOne(p);
  }

  lemma WritesBoth(x: string, a: seq<Piece>, y: string, b: seq<Piece>, z: string)
    requires Writes(x, a, y) && Writes(y, b, z)
    ensures Writes(x, a + b, z)
  {
    hide Flatten, Inked;
    FlattenConcat(a, b);
    Regroup(x, Flatten(a), Flatten(b));
  }

  // ----- line breaks -----

  lemma ContainsIs(text: string, a: nat, b: nat)
    requires a <= b <= |text|
    ensures Contains(text, a, b, '\n') <==> HasNewline(text, a, b)
  {
  }

  /** The blank-line test finds two newlines where there are two. */
  lemma BlankLineIs(text: string, s: State, to: nat)
    requires s.pos <= to <= |text|
    ensures var r := BlankLine(text, s, to);
            r.Some? && r.value.out == s.out + if HasBlankLine(text, s.pos, to) then "\n" else ""
  {
    var first := Find(text, s.pos, to, '\n');
    if first.Some? {
      var second := Find(text, first.value + 1, to, '\n');
      if HasBlankLine(text, s.pos, to) {
        var i, j :| s.pos <= i < j < to <= |text| && text[i] == '\n' && text[j] == '\n';
        assert first.value <= i;
      }
      if second.Some? {
        assert text[first.value] == '\n' && text[second.value] == '\n';
      }
    }
    assert s.out + "" == s.out;
  }

  lemma IndentIs(text: string, s: State, to: nat)
    requires s.pos <= to <= |text|
    ensures var r := Indent(text, s, to);
            r.Some? && r.value.out == s.out + LeadText(Own(text, s.pos, to, s.level))
  {
    if s.pos == 0 {
      assert s.out + "" == s.out;
    } else {
      BlankLineIs(text, s, to);
      var blank := if HasBlankLine(text, s.pos, to) then "\n" else "";
      var ws := Blanks(2 * s.level);
      assert (s.out + blank) + "\n" + ws == s.out + (blank + "\n" + ws);
    }
  }

  // ----- comments -----

  lemma {:induction false} LeadingBlanksStrip(s: string)
    ensures LeadingBlanks(s) <= |s| && StripBlanks(s) == s[LeadingBlanks(s)..]
    ensures forall i :: 0 <= i < LeadingBlanks(s) ==> s[i] == ' '
    ensures s == Blanks(LeadingBlanks(s)) + StripBlanks(s)
    ensures StripBlanks(s) != "" ==> StripBlanks(s)[0] != ' '
  {
    if s != "" && s[0] == ' ' {
      LeadingBlanksStrip(s[1..]);
      forall i | 0 <= i < LeadingBlanks(s) ensures s[i] == ' ' {
        if i > 0 { assert s[i] == s[1..][i - 1]; }
      }
    }
  }

  lemma {:induction false} StripUpToIs(s: string, n: nat)
    ensures StripUpTo(s, n) == s[if n < LeadingBlanks(s) then n else LeadingBlanks(s)..]
  {
    if n > 0 && s != "" && s[0] == ' ' {
      StripUpToIs(s[1..], n - 1);
    }
  }

  lemma BlanksJoin(a: nat, b: nat)
    ensures Blanks(a) + Blanks(b) == Blanks(a + b)
  {
  }

  lemma {:induction false} LeadingBlanksAt(s: string, n: nat)
    requires n < |s| && s[n] != ' ' && forall i :: 0 <= i < n ==> s[i] == ' '
    ensures LeadingBlanks(s) == n
  {
    if n > 0 {
      LeadingBlanksAt(s[1..], n - 1);
    }
  }

  lemma BlanksOfTrimmed(line: string)
    requires TrimEnd(line) != ""
    ensures LeadingBlanks(line) == LeadingBlanks(TrimEnd(line)) < |TrimEnd(line)|
  {
    var t := TrimEnd(line);
    LeadingBlanksStrip(t);
    var b := LeadingBlanks(t);
    assert t[|t| - 1] != ' ';
    assert t == line[..|t|];
    LeadingBlanksAt(line, b);
  }

  /** Trimming the end of a line, then stripping blanks, or the other way round. */
  lemma StripTrimmed(line: string, n: nat)
    ensures TrimEnd(StripUpTo(line, n)) == StripUpTo(TrimEnd(line), n)
  {
    var t := TrimEnd(line);
    StripUpToIs(line, n);
    StripUpToIs(t, n);
    if t == "" {
      AllTrimmed(line, if n < LeadingBlanks(line) then n else LeadingBlanks(line));
    } else {
      BlanksOfTrimmed(line);
      TrimmedFrom(line, if n < LeadingBlanks(line) then n else LeadingBlanks(line));
    }
  }

  lemma AllTrimmed(line: string, k: nat)
    requires TrimEnd(line) == "" && k <= |line|
    ensures TrimEnd(line[k..]) == ""
  {
    hide IsWhite;
    TrimEndUnique(line[k..], "");
  }

  lemma TrimmedFrom(line: string, k: nat)
    requires k < |TrimEnd(line)|
    ensures TrimEnd(line[k..]) == TrimEnd(line)[k..]
  {
    hide IsWhite;
    var t := TrimEnd(line);
    TrimEndUnique(line[k..], t[k..]);
  }

  lemma ReindentMoves(line: string, after: nat, before: nat)
    ensures Reindent(line, after, before) == Moved(line, after - before)
  {
    hide AtColumn, TrimEnd, StripUpTo, LeadingBlanks, Blanks;
    if before <= after {
      ShiftRight(TrimEnd(line), after - before);
    } else {
      StripTrimmed(line, before - after);
      ShiftLeft(TrimEnd(line), before - after);
    }
  }

  lemma ShiftRight(t: string, n: nat)
    ensures Blanks(n) + t == AtColumn(t, LeadingBlanks(t) + n)
  {
    LeadingBlanksStrip(t);
    hide LeadingBlanks, StripBlanks;
    BlanksJoin(n, LeadingBlanks(t));
    Regroup(Blanks(n), Blanks(LeadingBlanks(t)), StripBlanks(t));
  }

  lemma {:induction false} ShiftLeft(t: string, n: nat)
    ensures StripUpTo(t, n) == AtColumn(t, LeadingBlanks(t) - n)
  {
    if n > 0 && t != "" && t[0] == ' ' {
      hide AtColumn;
      ShiftLeft(t[1..], n - 1);
      SameColumn(t, LeadingBlanks(t) - n);
    } else {
      NoShift(t);
      assert n > 0 ==> LeadingBlanks(t) == 0;
      assert AtColumn(t, LeadingBlanks(t) - n) == AtColumn(t, LeadingBlanks(t));
    }
  }

  lemma SameColumn(t: string, column: int)
    requires t != "" && t[0] == ' '
    ensures AtColumn(t[1..], column) == AtColumn(t, column)
  {
  }

  lemma NoShift(t: string)
    ensures AtColumn(t, LeadingBlanks(t)) == t
  {
    LeadingBlanksStrip(t);
  }

  lemma {:induction false} RestMoves(lines: seq<string>, after: nat, before: nat)
    ensures RenderRest(lines, after, before) == MovedLines(lines, after - before)
  {
    if lines != [] {
      RestMoves(lines[..|lines| - 1], after, before);
      ReindentMoves(lines[|lines| - 1], after, before);
    }
  }

  lemma BlockIs(comment: string, after: nat, before: nat)
    requires comment != "" && comment[0] == '/'
    ensures BlockText(comment, after - before) == RenderBlock(comment, after, before)
  {
    FirstLineStarts(comment);
    RestMoves(Lines(comment)[1..], after, before);
    hide Lines, MovedLines, RenderRest;
    var first := Lines(comment)[0];
    assert TrimStart(first) == first;
  }

  lemma BlockInked(comment: string, after: nat, before: nat)
    requires IsBlockComment(comment)
    ensures Inked(Piece(Glued, RenderBlock(comment, after, before)))
  {
    RenderedBlock(comment, after, before);
    hide RenderBlock;
  }

  /** A comment on its own line is written as the layout says. */
  lemma OwnTextIs(text: string, c: Range, level: nat)
    requires CommentOk(text, c) && !(c.start == 0 && text[1] == '*')
    ensures LeadingText(text, c, level) == Some(OwnText(text, c, level))
    ensures Inked(Piece(Glued, OwnText(text, c, level)))
  {
    hide IsLineComment, IsBlockComment, LeadingText, OwnText, Inked;
    if IsLineComment(text[c.start..c.end]) {
      OwnLineIs(text, c, level);
    } else {
      OwnBlockIs(text, c, level);
    }
  }

  lemma OwnBlockIs(text: string, c: Range, level: nat)
    requires c.start < c.end <= |text| && IsBlockComment(text[c.start..c.end]) && !(c.start == 0 && text[1] == '*')
    ensures LeadingText(text, c, level) == Some(OwnText(text, c, level))
    ensures Inked(Piece(Glued, OwnText(text, c, level)))
  {
    hide *;
    BlockAt(text, c);
    var comment, column := text[c.start..c.end], LastLineLength(text[..c.start]);
    BlockStarts(comment);
    OwnIsBlock(text, c, level, comment, column);
    LeadingIsBlock(text, c, level, comment, column);
    SameBlock(comment, 2 * level, column);
  }

  lemma BlockStarts(comment: string)
    requires IsBlockComment(comment)
    ensures |comment| >= 2 && comment[0] == '/' && comment[1] == '*' && !("//" <= comment)
  {
    assert comment[1] != "//"[1];
  }

  lemma BlockAt(text: string, c: Range)
    requires c.start < c.end <= |text| && IsBlockComment(text[c.start..c.end]) && !(c.start == 0 && text[1] == '*')
    ensures 0 < c.start
  {
    assert text[c.start..c.end][1] == text[c.start + 1];
  }

  lemma SameBlock(comment: string, after: nat, before: nat)
    requires IsBlockComment(comment)
    ensures BlockText(comment, after - before) == RenderBlock(comment, after, before)
    ensures Inked(Piece(Glued, BlockText(comment, after - before)))
  {
    BlockStarts(comment);
    BlockIs(comment, after, before);
    BlockInked(comment, after, before);
  }

  lemma OwnIsBlock(text: string, c: Range, level: nat, comment: string, column: nat)
    requires 0 < c.start < c.end <= |text| && column == LastLineLength(text[..c.start])
    requires comment == text[c.start..c.end] && |comment| >= 2 && comment[1] != '/'
    ensures OwnText(text, c, level) == BlockText(comment, 2 * level - column)
  {
    hide BlockText, LastLineLength, TrimEnd;
    assert Slice(text, c.start, c.end) == comment;
  }

  lemma LeadingIsBlock(text: string, c: Range, level: nat, comment: string, column: nat)
    requires 0 < c.start < c.end <= |text| && column == LastLineLength(text[..c.start])
    requires comment == text[c.start..c.end] && !("//" <= comment)
    ensures LeadingText(text, c, level) == Some(RenderBlock(comment, 2 * level, column))
  {
    hide RenderBlock, LastLineLength, TrimEnd;
  }

  lemma OwnLineIs(text: string, c: Range, level: nat)
    requires c.start < c.end <= |text| && IsLineComment(text[c.start..c.end])
    ensures LeadingText(text, c, level) == Some(OwnText(text, c, level))
    ensures Inked(Piece(Glued, OwnText(text, c, level)))
  {
    var comment := text[c.start..c.end];
    assert "//" <= comment;
    TrimmedInked(comment);
    hide TrimEnd, RenderBlock, BlockText, LastLineLength;
  }

  lemma {:induction false} FirstLineStarts(s: string)
    requires s != "" && s[0] != '\n'
    ensures Lines(s)[0] != "" && Lines(s)[0][0] == s[0]
    decreases |s|
  {
    var k := LineStart(s);
    if k > 0 {
      assert k - 1 > 0;
      FirstLineStarts(s[..k - 1]);
    }
  }

  lemma TrimmedInked(comment: string)
    requires IsLineComment(comment) || IsBlockComment(comment)
    ensures Inked(Piece(Glued, TrimEnd(comment)))
  {
    TrimmedComment(comment);
    var t := TrimEnd(comment);
    assert t[0] == comment[0];
    assert !IsWhite(t[|t| - 1]);
  }

  /** One comment on its own line. */
  lemma OwnWritten(text: string, s: State, c: Range)
    requires CommentOk(text, c) && !(c.start == 0 && text[1] == '*') && s.pos <= c.start
    ensures Indent(text, s, c.start).Some? && LeadingText(text, c, s.level).Some?
    ensures Writes(s.out, [Piece(Own(text, s.pos, c.start, s.level), OwnText(text, c, s.level))],
              Indent(text, s, c.start).value.out + LeadingText(text, c, s.level).value)
  {
    IndentIs(text, s, c.start);
    OwnTextIs(text, c, s.level);
    hide Indent, OwnText, Own, LeadText;
    var lead, written := Own(text, s.pos, c.start, s.level), OwnText(text, c, s.level);
    Regroup(s.out, LeadText(lead), written);
    WritesOne(s.out, Piece(lead, written), s.out + (LeadText(lead) + written));
  }

  /** The leading loop gives each comment a line of its own. */
  lemma {:induction false} LeadingIs(text: string, s: State, p: nat, q: nat, to: nat, k: char)
    requires Inv(text, s, p) && Lag(text, s.pos, p, k) && GapOk(text, s.pending, p, q)
    requires q <= to <= |text| && !Before(After(s.pending, q), to)
    requires !StartsWithBlock(text, s.pending)
    ensures var r := LeadingComments(text, s, to);
            && r.Some? && r.value.pos == LastEnd(s.pending, s.pos, q)
            && Writes(s.out, CommentPieces(text, s.pending, s.pos, q, s.level, false), r.value.out)
    decreases |s.pending|
  {
    if Before(s.pending, q) {
      var c := s.pending[0];
      Advance(text, s, p, c.start);
      IndentInv(text, s, c.start, c.start, k);
      OwnWritten(text, s, c);
      var s1 := Indent(text, s, c.start).value;
      LeadingTextOk(text, c, s.level);
      var written := LeadingText(text, c, s.level).value;
      var s2 := s1.(pending := s.pending[1..], out := s1.out + written, pos := c.end);
      WroteComment(text, s1, written, s2);
      hide Inv, Lag, Writes, Own, OwnText, LeadingText, Indent, Prints;
      LeadingIs(text, s2, c.end, q, to, k);
      var piece := Piece(Own(text, s.pos, c.start, s.level), OwnText(text, c, s.level));
      WritesBoth(s.out, [piece], s2.out, CommentPieces(text, s2.pending, c.end, q, s.level, false),
        LeadingComments(text, s2, to).value.out);
    } else {
      WritesNone(s.out);
    }
  }

  /** A comment kept on its line. */
  lemma TrailingWritten(text: string, s: State, c: Range)
    requires CommentOk(text, c)
    ensures Writes(s.out, [Piece(Spaced, TrimEnd(Slice(text, c.start, c.end)))], s.out + " " + TrimEnd(text[c.start..c.end]))
  {
    var t := text[c.start..c.end];
    TrimmedInked(t);
    hide TrimEnd;
    Regroup(s.out, " ", TrimEnd(t));
    WritesOne(s.out, Piece(Spaced, TrimEnd(t)), s.out + (" " + TrimEnd(t)));
  }

  /** Both loops: the comments of the gap, on their line or on lines of their own. */
  lemma {:induction false} CommentsIs(text: string, s: State, p: nat, q: nat, to: nat, k: char)
    requires Inv(text, s, p) && Lag(text, s.pos, p, k) && GapOk(text, s.pending, p, q)
    requires q <= to <= |text| && !Before(After(s.pending, q), to)
    requires !StartsWithBlock(text, s.pending)
    ensures var r := Comments(text, s, to);
            && r.Some? && r.value.pos == LastEnd(s.pending, s.pos, q)
            && Writes(s.out, CommentPieces(text, s.pending, s.pos, q, s.level, true), r.value.out)
    decreases |s.pending|
  {
    GapOrder(text, s.pending, p, q);
    FirstFromHead(s.pending, s.pos);
    if Before(s.pending, q) {
      ContainsIs(text, s.pos, s.pending[0].end);
    }
    if s.pos > 0 && Before(s.pending, q) && !Contains(text, s.pos, s.pending[0].end, '\n') {
      var c := s.pending[0];
      TrailingStep(text, s, p, q, to);
      TrailingWritten(text, s, c);
      var r := s.(pending := s.pending[1..], out := s.out + " " + TrimEnd(text[c.start..c.end]), pos := c.end);
      assert Lag(text, r.pos, c.end, k);
      hide Inv, Lag, Writes, TrimEnd, TrailingComments, LeadingComments;
      CommentsIs(text, r, c.end, q, to, k);
      WritesBoth(s.out, [Piece(Spaced, TrimEnd(Slice(text, c.start, c.end)))], r.out,
        CommentPieces(text, r.pending, c.end, q, s.level, true), Comments(text, r, to).value.out);
    } else {
      assert TrailingComments(text, s, to) == Some(s);
      LeadingIs(text, s, p, q, to, k);
    }
  }

  // ----- symbols -----

  lemma {:induction false} LastEndAfter(cs: seq<Range>, from: nat, q: nat)
    requires Before(cs, q)
    ensures LastEnd(cs, from, q) == LastEnd(cs, 0, q)
  {
  }

  /** In a gap that fits, the search stops where the layout resumes. */
  lemma {:induction false} HitIsResume(text: string, cs: seq<Range>, q: nat, ch: char)
    requires CommentsOk(text, cs) && GapFits(text, cs, q, ch)
    ensures GapHit(text, cs, q, ch) == Resume(text, cs, q, ch)
  {
    if Before(cs, q) {
      CommentsTail(text, cs);
      HitIsResume(text, cs[1..], q, ch);
      if Before(cs[1..], q) {
        LastEndAfter(cs[1..], cs[0].end, q);
      }
    }
  }

  /** No comment starts between `h` and `q`. */
  lemma {:induction false} PiecesUpTo(text: string, cs: seq<Range>, from: nat, h: nat, q: nat, depth: nat, onLine: bool)
    requires h <= q && !Before(After(cs, h), q)
    ensures LastEnd(cs, from, h) == LastEnd(cs, from, q)
    ensures CommentPieces(text, cs, from, h, depth, onLine) == CommentPieces(text, cs, from, q, depth, onLine)
  {
    if Before(cs, h) {
      PiecesUpTo(text, cs[1..], cs[0].end, h, q, depth, true);
      PiecesUpTo(text, cs[1..], cs[0].end, h, q, depth, false);
    }
  }

  /** A symbol behind the comments of its gap, found at `h`. */
  lemma SymbolVia(text: string, s: State, p: nat, q: nat, h: nat, ch: char, k: char)
    requires Inv(text, s, p) && Lag(text, s.pos, p, k) && GapOk(text, s.pending, p, if h == q + 1 then q else h)
    requires h <= q + 1 && q < |text| && IsSymbol(ch) && !IsClose(ch) && text[q] == ch
    requires !StartsWithBlock(text, s.pending) && Before(s.pending, q) && Before(s.pending, h)
    requires h == q + 1 || (!Before(After(s.pending, h), q) && LastEnd(s.pending, s.pos, q) == h)
    requires FindSymbol(text, s.pending, s.pos, ch) == Some(h) && h == Resume(text, s.pending, q, ch)
    ensures var r := PutSymbol(text, s, ch);
            && r.Some? && r.value.pos == h
            && Writes(s.out, SymbolPieces(text, s.pending, s.pos, q, ch, s.level), r.value.out)
  {
    var to := if h == q + 1 then q else h;
    AfterOk(text, s.pending, to);
    if h == q + 1 {
      NoCommentAt(text, After(s.pending, q), q);
    }
    CommentsIs(text, s, p, to, h, k);
    CommentsInv(text, s, p, to, h, k);
    PiecesUpTo(text, s.pending, s.pos, to, q, s.level, true);
    hide FindSymbol, Comments, Indent, PutSymbol, Writes, CommentPieces, Resume;
    var s2 := Comments(text, s, h).value;
    IndentIs(text, s2, h);
    PutSymbolVia(text, s, h, ch);
    SymbolWritten(text, s, s2, q, h, ch);
  }

  lemma SymbolWritten(text: string, s: State, s2: State, q: nat, h: nat, ch: char)
    requires Before(s.pending, q) && s2.pos == LastEnd(s.pending, s.pos, q) <= h && s2.level == s.level
    requires h == Resume(text, s.pending, q, ch) && (h == q + 1 || h == s2.pos) && IsSymbol(ch)
    requires Writes(s.out, CommentPieces(text, s.pending, s.pos, q, s.level, true), s2.out)
    ensures Writes(s.out, SymbolPieces(text, s.pending, s.pos, q, ch, s.level),
              s2.out + LeadText(Own(text, s2.pos, h, s.level)) + [ch])
  {
    var lead := Own(text, s2.pos, h, s.level);
    hide Writes, Own, CommentPieces, Resume, LeadText;
    Regroup(s2.out, LeadText(lead), [ch]);
    WritesOne(s2.out, Piece(lead, [ch]), s2.out + (LeadText(lead) + [ch]));
    WritesBoth(s.out, CommentPieces(text, s.pending, s.pos, q, s.level, true), s2.out, [Piece(lead, [ch])],
      s2.out + LeadText(lead) + [ch]);
  }

  /** An opening bracket, comma or colon whose gap fits. */
  lemma SymbolIs(text: string, s: State, p: nat, q: nat, ch: char, k: char)
    requires Inv(text, s, p) && Lag(text, s.pos, p, k) && k != ch && GapOk(text, s.pending, p, q)
    requires q < |text| && text[q] == ch && IsSymbol(ch) && !IsClose(ch)
    requires !StartsWithBlock(text, s.pending) && GapFits(text, s.pending, q, ch)
    ensures var r := PutSymbol(text, s, ch);
            && r.Some? && r.value.pos == Resume(text, s.pending, q, ch)
            && Writes(s.out, SymbolPieces(text, s.pending, s.pos, q, ch, s.level), r.value.out)
  {
    var cs := s.pending;
    FindFromLag(text, s, p, q, ch, k);
    HitIsResume(text, cs, q, ch);
    if !Before(cs, q) {
      NoCommentAt(text, cs, q);
      WritesOne(s.out, Piece(Glued, [ch]), s.out + [ch]);
    } else {
      var h := GapHit(text, cs, q, ch);
      if h != q + 1 {
        HitSplitsGap(text, cs, p, q, ch);
        LastEndAfter(cs, s.pos, q);
      } else {
        BeforeMore(cs, q);
      }
      hide FindSymbol, GapHit, GapFits, SymbolPieces, PutSymbol, Writes;
      SymbolVia(text, s, p, q, h, ch, k);
    }
  }

  lemma BeforeMore(cs: seq<Range>, q: nat)
    requires Before(cs, q)
    ensures Before(cs, q + 1)
  {
  }
}
