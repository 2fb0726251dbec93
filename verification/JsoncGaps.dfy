/** The formatter's run invariant, and what the whitespace and comment steps do to it. */
module JsoncGaps {
  import opened Outcomes
  import opened JsoncText
  import opened JsoncLexer
  import opened JsoncTree
  import opened JsoncSpec
  import opened JsoncScan
  import opened JsoncBlock

  /** The output says exactly what the text says up to `p`, and every comment from `p` on is still pending.
      `text_position` has not passed `p`. */
  ghost predicate Inv(text: string, s: State, p: nat) {
    && CommentsOk(text, s.pending)
    && !Before(s.pending, p)
    && TextAt(text, p)
    && s.pos <= p
    && Settled(Scan(s.out).mode)
    && Flush(Scan(s.out)) == Upto(text, p)
    && (Scan(s.out).mode.InLine? ==> s.pos > 0 && (s.pos < |text| ==> text[s.pos] == '\n'))
    && (s.pos == 0 ==> s.out == "")
  }

  /** What `text_position` may have left behind: whitespace and the symbol `k`. */
  ghost predicate Lag(text: string, a: nat, b: nat, k: char) {
    a <= b <= |text| && forall i :: a <= i < b ==> IsSpace(text[i]) || text[i] == k
  }

  /** Between `p` and `q` lie whitespace and the pending comments that start before `q`. */
  ghost predicate GapOk(text: string, cs: seq<Range>, p: nat, q: nat) {
    if Before(cs, q) then
      Spaces(text, p, cs[0].start) && cs[0].end <= q && GapOk(text, cs[1..], cs[0].end, q)
    else
      Spaces(text, p, q)
  }

  /** The one comment the formatter cannot print: a block comment at the very start of the text. */
  predicate StartsWithBlock(text: string, cs: seq<Range>) {
    cs != [] && cs[0].start == 0 && 1 < |text| && text[1] == '*'
  }

  lemma CommentsTail(text: string, cs: seq<Range>)
    requires CommentsOk(text, cs) && cs != []
    ensures CommentsOk(text, cs[1..]) && !Before(cs[1..], cs[0].end)
  {
  }

  lemma {:induction false} AfterOk(text: string, cs: seq<Range>, p: nat)
    requires CommentsOk(text, cs)
    ensures CommentsOk(text, After(cs, p)) && !Before(After(cs, p), p)
  {
    if Before(cs, p) {
      CommentsTail(text, cs);
      AfterOk(text, cs[1..], p);
    }
  }

  lemma {:induction false} AfterTwice(cs: seq<Range>, p: nat, q: nat)
    requires p <= q
    ensures After(After(cs, p), q) == After(cs, q)
  {
    if Before(cs, p) {
      AfterTwice(cs[1..], p, q);
    }
  }

  /** `NextToken` passes exactly over a gap. */
  lemma {:induction false} NextTokenGap(text: string, cs: seq<Range>, p: nat)
    requires CommentsOk(text, cs) && !Before(cs, p) && p <= |text|
    ensures var q := NextToken(text, cs, p);
      GapOk(text, cs, p, q) && p <= q <= |text| && (q < |text| ==> !IsSpace(text[q]))
    decreases |text| - p
  {
    var q := NextToken(text, cs, p);
    if cs != [] && cs[0].start == p {
      CommentsTail(text, cs);
      NextTokenGap(text, cs[1..], cs[0].end);
    } else if p < |text| && IsSpace(text[p]) {
      NextTokenGap(text, cs, p + 1);
    }
  }

  /** A token read after a gap that follows a symbol or a comment starts with no lexeme open. */
  lemma {:induction false} GapMode(text: string, cs: seq<Range>, p: nat, q: nat)
    requires CommentsOk(text, cs) && GapOk(text, cs, p, q) && TextAt(text, p) && !ModeAt(text, p).InBare?
    requires q < |text| && !IsSpace(text[q])
    ensures ModeAt(text, q).Between?
    decreases |cs|
  {
    if Before(cs, q) {
      TextSpaces(text, p, cs[0].start);
      TextComment(text, cs[0]);
      GapMode(text, cs[1..], cs[0].end, q);
    } else {
      TextSpaces(text, p, q);
    }
  }

  // ----- whitespace -----

  lemma Advance(text: string, s: State, p: nat, q: nat)
    requires Inv(text, s, p) && Spaces(text, p, q) && !Before(s.pending, q)
    ensures Inv(text, s, q)
  {
    TextSpaces(text, p, q);
  }

  lemma BlankLineInv(text: string, s: State, p: nat, to: nat, k: char)
    requires Inv(text, s, p) && s.pos > 0 && Lag(text, s.pos, p, k)
    requires p <= to <= |text| && forall i :: p <= i < to ==> text[i] != '\n'
    ensures var r := BlankLine(text, s, to);
            && r.Some? && s.pos <= r.value.pos <= p
            && r.value.pending == s.pending
            && (r.value.out == s.out || r.value.out == s.out + "\n")
  {
  }

  /** After an indent a new lexeme may start, and nothing but whitespace was written. */
  lemma IndentInv(text: string, s: State, p: nat, to: nat, k: char)
    requires Inv(text, s, p) && Lag(text, s.pos, p, k)
    requires p <= to <= |text| && forall i :: p <= i < to ==> text[i] != '\n'
    ensures var r := Indent(text, s, to);
            && r.Some? && Inv(text, r.value, p)
            && s.pos <= r.value.pos && (s.pos > 0 ==> r.value.pos > 0)
            && r.value.pending == s.pending && Scan(r.value.out).mode.Between?
  {
    if s.pos > 0 {
      BlankLineInv(text, s, p, to, k);
      var s1 := BlankLine(text, s, to).value;
      var ws := "\n" + Blanks(s1.level * INDENT_SIZE);
      if s1.out == s.out {
        assert s1.out + "\n" + Blanks(s1.level * INDENT_SIZE) == s.out + ws;
        OutBreak(s.out, ws);
      } else {
        assert s1.out + "\n" + Blanks(s1.level * INDENT_SIZE) == s.out + ("\n" + ws);
        OutBreak(s.out, "\n" + ws);
      }
    }
  }

  // ----- comments -----

  /** Writing the text of the comment at `p` where a lexeme may start. */
  lemma WroteComment(text: string, s: State, written: string, r: State)
    requires s.pending != [] && Inv(text, s, s.pending[0].start) && Scan(s.out).mode.Between?
    requires IsLineComment(written) || IsBlockComment(written)
    requires CommentLexeme(written) == CommentLexeme(text[s.pending[0].start..s.pending[0].end])
    requires IsLineComment(written) ==> IsLineComment(text[s.pending[0].start..s.pending[0].end])
    requires r == s.(pending := s.pending[1..], out := s.out + written, pos := s.pending[0].end)
    ensures Inv(text, r, r.pos)
  {
    var c := s.pending[0];
    CommentsTail(text, s.pending);
    TextComment(text, c);
    OutComment(s.out, written);
  }

  ghost predicate Prints(written: string, comment: string) {
    && (IsLineComment(written) || IsBlockComment(written))
    && CommentLexeme(written) == CommentLexeme(comment)
    && (IsLineComment(written) ==> IsLineComment(comment))
  }

  lemma RenderedPrints(t: string, after: nat, before: nat)
    requires IsBlockComment(t)
    ensures Prints(RenderBlock(t, after, before), t)
  {
    RenderedBlock(t, after, before);
    var r := RenderBlock(t, after, before);
    assert r[1] == '*';
  }

  lemma LeadingTextOk(text: string, c: Range, level: nat)
    requires CommentOk(text, c) && !(c.start == 0 && text[1] == '*')
    ensures LeadingText(text, c, level).Some?
    ensures Prints(LeadingText(text, c, level).value, text[c.start..c.end])
  {
    var t := text[c.start..c.end];
    assert t[0] == text[c.start] && t[1] == text[c.start + 1];
    if IsLineComment(t) {
      assert "//" <= t;
      TrimmedComment(t);
    } else {
      assert t[1] != "//"[1];
      RenderedPrints(t, level * INDENT_SIZE, LastLineLength(text[..c.start]));
    }
  }

  /** The leading loop empties the gap of its comments. `to` is the position handed to it. */
  lemma {:induction false} LeadingInv(text: string, s: State, p: nat, q: nat, to: nat, k: char)
    requires Inv(text, s, p) && Lag(text, s.pos, p, k) && GapOk(text, s.pending, p, q)
    requires q <= to <= |text| && !Before(After(s.pending, q), to)
    requires !StartsWithBlock(text, s.pending)
    ensures var r := LeadingComments(text, s, to);
            && r.Some? && Inv(text, r.value, q)
            && r.value.pending == After(s.pending, q)
            && if Before(s.pending, q) then r.value.pos > 0 && Spaces(text, r.value.pos, q) else r.value == s
    decreases |s.pending|
  {
    if Before(s.pending, q) {
      var c := s.pending[0];
      Advance(text, s, p, c.start);
      IndentInv(text, s, c.start, c.start, k);
      var s1 := Indent(text, s, c.start).value;
      LeadingTextOk(text, c, s.level);
      var written := LeadingText(text, c, s.level).value;
      var s2 := s1.(pending := s.pending[1..], out := s1.out + written, pos := c.end);
      WroteComment(text, s1, written, s2);
      LeadingInv(text, s2, c.end, q, to, k);
    } else {
      Advance(text, s, p, q);
    }
  }

  lemma FirstFromHead(cs: seq<Range>, p: nat)
    requires !Before(cs, p)
    ensures FirstFrom(cs, p) == 0
  {
  }

  lemma FoundNewline(text: string, a: nat, b: nat, i: nat)
    requires a <= i < b <= |text| && text[i] == '\n'
    ensures Contains(text, a, b, '\n')
  {
  }

  /** One comment put behind the last token, on its line. */
  lemma TrailingStep(text: string, s: State, p: nat, q: nat, to: nat)
    requires Inv(text, s, p) && s.pos > 0 && GapOk(text, s.pending, p, q) && q <= to <= |text|
    requires Before(s.pending, q) && !Contains(text, s.pos, s.pending[0].end, '\n')
    ensures var c := s.pending[0];
      var r := s.(pending := s.pending[1..], out := s.out + " " + TrimEnd(text[c.start..c.end]), pos := c.end);
      TrailingComments(text, s, to) == TrailingComments(text, r, to) && Inv(text, r, c.end)
  {
    hide Upto, Scan, TrimEnd;
    var c := s.pending[0];
    var t := text[c.start..c.end];
    if Scan(s.out).mode.InLine? {
      FoundNewline(text, s.pos, c.end, s.pos);
    }
    Advance(text, s, p, c.start);
    OutBlank(s.out);
    TrimmedComment(t);
    var s1 := s.(out := s.out + " ");
    var r := s.(pending := s.pending[1..], out := s.out + " " + TrimEnd(t), pos := c.end);
    WroteComment(text, s1, TrimEnd(t), r);
    FirstFromHead(s.pending, s.pos);
    assert s.pending[..0] + s.pending[1..] == s.pending[1..];
  }

  /** The trailing loop takes a prefix of the gap's comments. */
  lemma {:induction false} TrailingInv(text: string, s: State, p: nat, q: nat, to: nat) returns (p1: nat)
    requires Inv(text, s, p) && GapOk(text, s.pending, p, q)
    requires q <= to <= |text| && !Before(After(s.pending, q), to)
    ensures p <= p1 <= q
    ensures var r := TrailingComments(text, s, to);
            && r.Some? && Inv(text, r.value, p1)
            && GapOk(text, r.value.pending, p1, q) && After(r.value.pending, q) == After(s.pending, q)
            && ((r.value == s && p1 == p) || (Before(s.pending, q) && r.value.pos == p1 > 0))
    decreases |s.pending|
  {
    p1 := p;
    GapOrder(text, s.pending, p, q);
    FirstFromHead(s.pending, s.pos);
    if s.pos > 0 && Before(s.pending, q) && !Contains(text, s.pos, s.pending[0].end, '\n') {
      var c := s.pending[0];
      TrailingStep(text, s, p, q, to);
      var r := s.(pending := s.pending[1..], out := s.out + " " + TrimEnd(text[c.start..c.end]), pos := c.end);
      p1 := TrailingInv(text, r, c.end, q, to);
    }
  }

  lemma {:induction false} GapOrder(text: string, cs: seq<Range>, p: nat, q: nat)
    requires CommentsOk(text, cs) && GapOk(text, cs, p, q)
    ensures p <= q <= |text|
    decreases |cs|
  {
    if Before(cs, q) {
      GapOrder(text, cs[1..], cs[0].end, q);
    }
  }

  /** Both loops: the comments of the gap are printed once each, in order, and nothing else is pending before `q`. */
  lemma CommentsInv(text: string, s: State, p: nat, q: nat, to: nat, k: char)
    requires Inv(text, s, p) && Lag(text, s.pos, p, k) && GapOk(text, s.pending, p, q)
    requires q <= to <= |text| && !Before(After(s.pending, q), to)
    requires !StartsWithBlock(text, s.pending)
    ensures var r := Comments(text, s, to);
            && r.Some? && Inv(text, r.value, q)
            && r.value.pending == After(s.pending, q)
            && if Before(s.pending, q) then r.value.pos > 0 && Spaces(text, r.value.pos, q) else r.value == s
  {
    var p1 := TrailingInv(text, s, p, q, to);
    var s1 := TrailingComments(text, s, to).value;
    assert !StartsWithBlock(text, s1.pending);
    LeadingInv(text, s1, p1, q, to, k);
  }
}
