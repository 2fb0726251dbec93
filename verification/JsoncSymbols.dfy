/** Printing a bracket, comma or colon. The search may stop at a comment that ends in the same character; this is
    harmless exactly when that comment is the last one before the symbol. */
module JsoncSymbols {
  import opened Outcomes
  import opened JsoncText
  import opened JsoncLexer
  import opened JsoncTree
  import opened JsoncSpec
  import opened JsoncScan
  import opened JsoncGaps

  /** The output already holds a finished lexeme that differs from the text's lexeme at that place. */
  ghost predicate Diverged(text: string, out: string) {
    exists k :: 0 <= k < |Scan(out).done| && k < |Upto(text, |text|)| && Scan(out).done[k] != Upto(text, |text|)[k]
  }

  /** A wrong output cannot be repaired by printing more. */
  lemma DivergedStays(text: string, out: string, more: string)
    requires Diverged(text, out) && out <= more
    ensures Diverged(text, more)
  {
    ScanGrows(out, more);
    var k :| 0 <= k < |Scan(out).done| && k < |Upto(text, |text|)| && Scan(out).done[k] != Upto(text, |text|)[k];
    assert Scan(more).done[k] == Scan(out).done[k];
  }

  // ----- the search -----

  /** Where the search stops: after the first comment of the gap that ends in `ch`, or else after the symbol at `q`. */
  function GapHit(text: string, cs: seq<Range>, q: nat, ch: char): nat {
    if !Before(cs, q) then q + 1
    else if CommentEndsWith(text, cs[0], ch) then cs[0].end
    else GapHit(text, cs[1..], q, ch)
  }

  lemma {:induction false} CoveredBy(text: string, cs: seq<Range>, j: nat, x: nat)
    requires CommentsOk(text, cs) && j < |cs| && cs[j].start < x < cs[j].end
    ensures LastBefore(cs, x) == Some(cs[j])
    decreases j
  {
    if j > 0 {
      CommentsTail(text, cs);
      CoveredBy(text, cs[1..], j - 1, x);
    }
  }

  lemma {:induction false} LastBeforeIsPending(cs: seq<Range>, x: nat)
    ensures var c := LastBefore(cs, x); c.Some? ==> c.value in cs && c.value.start < x
  {
    if Before(cs, x) {
      LastBeforeIsPending(cs[1..], x);
    }
  }

  lemma Uncovered(cs: seq<Range>, x: nat)
    requires forall j :: 0 <= j < |cs| ==> !(cs[j].start < x < cs[j].end)
    ensures !Covered(cs, x)
  {
    LastBeforeIsPending(cs, x);
  }

  lemma FindStep(text: string, cs: seq<Range>, p: nat, ch: char)
    requires p < |text|
    ensures FindSymbol(text, cs, p, ch) == if text[p] == ch && !Covered(cs, p + 1) then Some(p + 1) else FindSymbol(text, cs, p + 1, ch)
  {
    hide Covered;
  }

  lemma {:induction false} SkipSymbol(text: string, cs: seq<Range>, a: nat, b: nat, ch: char)
    requires a <= b <= |text|
    requires forall i :: a <= i < b ==> text[i] != ch || Covered(cs, i + 1)
    ensures FindSymbol(text, cs, a, ch) == FindSymbol(text, cs, b, ch)
    decreases b - a
  {
    hide Covered, FindSymbol;
    if a < b {
      FindStep(text, cs, a, ch);
      SkipSymbol(text, cs, a + 1, b, ch);
    }
  }

  lemma SkipSpaces(text: string, cs: seq<Range>, a: nat, b: nat, ch: char, k: char)
    requires Lag(text, a, b, k) && !IsSpace(ch) && ch != k
    ensures FindSymbol(text, cs, a, ch) == FindSymbol(text, cs, b, ch)
  {
    SkipSymbol(text, cs, a, b, ch);
  }

  lemma FindHere(text: string, cs: seq<Range>, i: nat, ch: char)
    requires i < |text| && text[i] == ch && !Covered(cs, i + 1)
    ensures FindSymbol(text, cs, i, ch) == Some(i + 1)
  {
  }

  /** Past one comment of the gap, unless it ends in `ch`. */
  lemma FindPastComment(text: string, cs: seq<Range>, g: nat, ch: char)
    requires CommentsOk(text, cs) && g < |cs|
    ensures FindSymbol(text, cs, cs[g].start, ch)
         == if CommentEndsWith(text, cs[g], ch) then Some(cs[g].end) else FindSymbol(text, cs, cs[g].end, ch)
  {
    hide FindSymbol;
    var c := cs[g];
    forall i | c.start < i < c.end ensures Covered(cs, i) {
      CoveredBy(text, cs, g, i);
    }
    hide CommentsOk, LastBefore;
    SkipSymbol(text, cs, c.start, c.end - 1, ch);
    if CommentEndsWith(text, c, ch) {
      Uncovered(cs, c.end);
      FindHere(text, cs, c.end - 1, ch);
    } else {
      SkipSymbol(text, cs, c.end - 1, c.end, ch);
    }
  }

  lemma NoCommentAt(text: string, cs: seq<Range>, q: nat)
    requires CommentsOk(text, cs) && q < |text| && text[q] != '/' && !Before(cs, q)
    ensures !Before(cs, q + 1)
  {
    assert cs != [] ==> text[cs[0].start..cs[0].end][0] == text[cs[0].start];
  }

  lemma {:induction false} FindInGap(text: string, cs: seq<Range>, g: nat, p: nat, q: nat, ch: char)
    requires CommentsOk(text, cs) && g <= |cs| && GapOk(text, cs[g..], p, q)
    requires forall j :: 0 <= j < g ==> cs[j].end <= p
    requires q < |text| && text[q] == ch && IsSymbol(ch)
    ensures FindSymbol(text, cs, p, ch) == Some(GapHit(text, cs[g..], q, ch))
    decreases |cs| - g
  {
    hide FindSymbol, Covered;
    if Before(cs[g..], q) {
      SkipSpaces(text, cs, p, cs[g].start, ch, ' ');
      FindPastComment(text, cs, g, ch);
      assert cs[g..][1..] == cs[g + 1..];
      FindInGap(text, cs, g + 1, cs[g].end, q, ch);
    } else {
      SkipSpaces(text, cs, p, q, ch, ' ');
      AfterSuffix(text, cs, g);
      NoCommentAt(text, cs[g..], q);
      forall j | 0 <= j < |cs| ensures !(cs[j].start < q + 1 < cs[j].end) {
        if j >= g { assert cs[g].start <= cs[j].start; }
      }
      Uncovered(cs, q + 1);
      FindHere(text, cs, q, ch);
    }
  }

  lemma AfterSuffix(text: string, cs: seq<Range>, g: nat)
    requires CommentsOk(text, cs) && g <= |cs|
    ensures CommentsOk(text, cs[g..])
  {
  }

  lemma FindFromLag(text: string, s: State, p: nat, q: nat, ch: char, k: char)
    requires Inv(text, s, p) && Lag(text, s.pos, p, k) && k != ch
    requires GapOk(text, s.pending, p, q) && q < |text| && text[q] == ch && IsSymbol(ch)
    ensures FindSymbol(text, s.pending, s.pos, ch) == Some(GapHit(text, s.pending, q, ch))
  {
    SkipSpaces(text, s.pending, s.pos, p, ch, k);
    assert s.pending[0..] == s.pending;
    FindInGap(text, s.pending, 0, p, q, ch);
  }

  /** A hit inside the gap splits it at the end of a comment. */
  lemma {:induction false} HitSplitsGap(text: string, cs: seq<Range>, p: nat, q: nat, ch: char)
    requires CommentsOk(text, cs) && GapOk(text, cs, p, q)
    ensures var h := GapHit(text, cs, q, ch);
            h != q + 1 ==>
              && h <= q && Before(cs, h) && GapOk(text, cs, p, h) && GapOk(text, After(cs, h), h, q)
              && (GapFits(text, cs, q, ch) <==> !Before(After(cs, h), q))
    decreases |cs|
  {
    if Before(cs, q) {
      CommentsTail(text, cs);
      GapOrder(text, cs[1..], cs[0].end, q);
      if !CommentEndsWith(text, cs[0], ch) {
        HitSplitsGap(text, cs[1..], cs[0].end, q, ch);
      }
    }
  }

  lemma {:induction false} NoHitFits(text: string, cs: seq<Range>, p: nat, q: nat, ch: char)
    requires CommentsOk(text, cs) && GapOk(text, cs, p, q)
    requires GapHit(text, cs, q, ch) == q + 1
    ensures GapFits(text, cs, q, ch)
    decreases |cs|
  {
    if Before(cs, q) {
      CommentsTail(text, cs);
      GapOrder(text, cs[1..], cs[0].end, q);
      NoHitFits(text, cs[1..], cs[0].end, q, ch);
    }
  }

  // ----- the comma test -----

  lemma {:induction false} SkipComma(text: string, cs: seq<Range>, a: nat, b: nat, end: nat)
    requires a <= b <= end <= |text|
    requires forall i :: a <= i < b ==> text[i] != ',' || Covered(cs, i)
    ensures HasComma(text, cs, a, end) == HasComma(text, cs, b, end)
    decreases b - a
  {
    if a < b {
      SkipComma(text, cs, a + 1, b, end);
    }
  }

  lemma {:induction false} SkipGapComma(text: string, cs: seq<Range>, g: nat, p: nat, q: nat, end: nat)
    requires CommentsOk(text, cs) && g <= |cs| && GapOk(text, cs[g..], p, q) && q <= end <= |text|
    ensures p <= q && HasComma(text, cs, p, end) == HasComma(text, cs, q, end)
    decreases |cs| - g
  {
    if Before(cs[g..], q) {
      var c := cs[g];
      assert cs[g..][1..] == cs[g + 1..];
      SkipGapComma(text, cs, g + 1, c.end, q, end);
      SkipComma(text, cs, p, c.start, end);
      forall i | c.start <= i < c.end ensures text[i] != ',' || Covered(cs, i) {
        if i > c.start {
          CoveredBy(text, cs, g, i);
        } else {
          assert text[c.start..c.end][0] == text[i];
        }
      }
      SkipComma(text, cs, c.start, c.end, end);
    } else {
      SkipComma(text, cs, p, q, end);
    }
  }

  /** The comma test is exact: it looks at the symbol after the gap and at nothing in the gap. */
  lemma CommaTest(text: string, s: State, p: nat, q: nat, end: nat, k: char)
    requires Inv(text, s, p) && Lag(text, s.pos, p, k) && k != ','
    requires GapOk(text, s.pending, p, q) && q < end <= |text|
    requires text[q] == ',' || (q + 1 == end && text[q] != ',')
    ensures HasComma(text, s.pending, s.pos, end) <==> text[q] == ','
  {
    var cs := s.pending;
    GapOrder(text, cs, p, q);
    SkipComma(text, cs, s.pos, p, end);
    assert cs[0..] == cs;
    SkipGapComma(text, cs, 0, p, q, end);
    if text[q] == ',' {
      GapCovers(text, cs, 0, p, q);
      Uncovered(cs, q);
    } else {
      SkipComma(text, cs, q, end, end);
    }
  }

  lemma {:induction false} GapCovers(text: string, cs: seq<Range>, g: nat, p: nat, q: nat)
    requires CommentsOk(text, cs) && g <= |cs| && GapOk(text, cs[g..], p, q)
    ensures forall j :: g <= j < |cs| ==> cs[j].end <= q || q <= cs[j].start
    decreases |cs| - g
  {
    if Before(cs[g..], q) {
      assert cs[g..][1..] == cs[g + 1..];
      GapCovers(text, cs, g + 1, cs[g].end, q);
    } else if g < |cs| {
      forall j | g <= j < |cs| ensures q <= cs[j].start {
        assert cs[g].start <= cs[j].start;
      }
    }
  }

  // ----- the symbol -----

  /** The comments up to `h` and an indent: the state in which the symbol is written. */
  lemma CommentsAndIndent(text: string, s: State, p: nat, q: nat, to: nat, k: char)
    requires Inv(text, s, p) && Lag(text, s.pos, p, k) && GapOk(text, s.pending, p, q)
    requires q <= to <= |text| && !Before(After(s.pending, q), to)
    requires forall i :: q <= i < to ==> text[i] != '\n'
    requires !StartsWithBlock(text, s.pending) && Before(s.pending, q)
    ensures Comments(text, s, to).Some? && Indent(text, Comments(text, s, to).value, to).Some?
    ensures var r := Indent(text, Comments(text, s, to).value, to).value;
            Inv(text, r, q) && r.pending == After(s.pending, q) && Scan(r.out).mode.Between? && r.pos > 0
              && Lag(text, r.pos, q, ' ')
  {
    CommentsInv(text, s, p, q, to, k);
    IndentInv(text, Comments(text, s, to).value, q, to, ' ');
  }

  /** Writing the symbol at `q` with `text_position` at `h`, which may be behind it. */
  lemma WroteSymbol(text: string, s: State, q: nat, h: nat, ch: char)
    requires Inv(text, s, q) && !Scan(s.out).mode.InLine?
    requires q < |text| && text[q] == ch && IsSymbol(ch)
    requires 0 < h <= q + 1
    ensures Inv(text, s.(out := s.out + [ch], pos := h), q + 1)
    ensures Scan(s.out + [ch]).mode.Between?
  {
    TextSymbol(text, q);
    OutSymbol(s.out, ch);
    NoCommentAt(text, s.pending, q);
  }

  /** A closing bracket: its comments are already printed. */
  lemma ClosePrinted(text: string, s: State, p: nat, q: nat, ch: char, k: char)
    requires Inv(text, s, p) && Lag(text, s.pos, p, k) && k != ch && Spaces(text, p, q)
    requires q < |text| && text[q] == ch && IsClose(ch) && q > 0 && !Before(s.pending, q)
    requires Scan(s.out).mode.InLine? ==> s.multiline
    ensures PutSymbol(text, s, ch).Some?
    ensures var r := PutSymbol(text, s, ch).value;
            Inv(text, r, q + 1) && r.pos == q + 1 && r.pending == s.pending && Scan(r.out).mode.Between?
  {
    hide FindSymbol;
    FindFromLag(text, s, p, q, ch, k);
    NoCommentAt(text, s.pending, q);
    Advance(text, s, p, q);
    if s.multiline {
      CommentsInv(text, s, p, q, q + 1, k);
      var s2 := s.(pos := q);
      var ws := "\n" + Blanks(s.level * INDENT_SIZE);
      assert BlankLine(text, s2, q + 1) == Some(s2);
      assert s.out + "\n" + Blanks(s.level * INDENT_SIZE) == s.out + ws;
      OutBreak(s.out, ws);
      WroteSymbol(text, s2.(out := s.out + ws), q, q + 1, ch);
    } else {
      WroteSymbol(text, s, q, q + 1, ch);
    }
  }

  /** What printing the symbol at `q` leaves behind. */
  ghost predicate Printed(text: string, s: State, q: nat, ch: char, r: Option<State>) {
    && r.Some?
    && Inv(text, r.value, q + 1)
    && Lag(text, r.value.pos, q + 1, ch)
    && r.value.pos > 0
    && r.value.pending == After(s.pending, q)
    && Scan(r.value.out).mode.Between?
  }

  lemma PutSymbolVia(text: string, s: State, h: nat, ch: char)
    requires s.pos <= |text| && !IsClose(ch) && Before(s.pending, h)
    requires FindSymbol(text, s.pending, s.pos, ch) == Some(h)
    requires Comments(text, s, h).Some? && Indent(text, Comments(text, s, h).value, h).Some?
    ensures var s1 := Indent(text, Comments(text, s, h).value, h).value;
            PutSymbol(text, s, ch) == Some(s1.(out := s1.out + [ch], pos := h))
  {
  }

  lemma WrotePrinted(text: string, s: State, s1: State, q: nat, h: nat, ch: char)
    requires Inv(text, s1, q) && s1.pending == After(s.pending, q) && !Scan(s1.out).mode.InLine?
    requires q < |text| && text[q] == ch && IsSymbol(ch)
    requires 0 < h && (h == q + 1 || Spaces(text, h, q))
    ensures Printed(text, s, q, ch, Some(s1.(out := s1.out + [ch], pos := h)))
  {
    WroteSymbol(text, s1, q, h, ch);
  }

  lemma PrintedAfterGap(text: string, s: State, p: nat, q: nat, ch: char, k: char)
    requires Inv(text, s, p) && Lag(text, s.pos, p, k) && GapOk(text, s.pending, p, q)
    requires q < |text| && text[q] == ch && IsSymbol(ch) && !IsClose(ch)
    requires !StartsWithBlock(text, s.pending) && Before(s.pending, q)
    requires FindSymbol(text, s.pending, s.pos, ch) == Some(q + 1)
    ensures Printed(text, s, q, ch, PutSymbol(text, s, ch))
  {
    hide Comments, Indent, PutSymbol;
    AfterOk(text, s.pending, q);
    NoCommentAt(text, After(s.pending, q), q);
    CommentsAndIndent(text, s, p, q, q + 1, k);
    PutSymbolVia(text, s, q + 1, ch);
    WrotePrinted(text, s, Indent(text, Comments(text, s, q + 1).value, q + 1).value, q, q + 1, ch);
  }

  lemma PrintedAtComment(text: string, s: State, p: nat, q: nat, h: nat, ch: char, k: char)
    requires Inv(text, s, p) && Lag(text, s.pos, p, k)
    requires q < |text| && text[q] == ch && IsSymbol(ch) && !IsClose(ch)
    requires !StartsWithBlock(text, s.pending) && Before(s.pending, h) && h <= q
    requires GapOk(text, s.pending, p, h) && Spaces(text, h, q) && !Before(After(s.pending, h), q)
    requires FindSymbol(text, s.pending, s.pos, ch) == Some(h)
    ensures Printed(text, s, q, ch, PutSymbol(text, s, ch))
  {
    AfterTwice(s.pending, h, q);
    AfterOk(text, s.pending, h);
    CommentsAndIndent(text, s, p, h, h, k);
    PutSymbolVia(text, s, h, ch);
    var s1 := Indent(text, Comments(text, s, h).value, h).value;
    Advance(text, s1, h, q);
    WrotePrinted(text, s, s1, q, h, ch);
  }

  /** An opening bracket, comma or colon whose gap fits is printed after the gap's comments. */
  lemma SymbolPrinted(text: string, s: State, p: nat, q: nat, ch: char, k: char)
    requires Inv(text, s, p) && Lag(text, s.pos, p, k) && k != ch && GapOk(text, s.pending, p, q)
    requires q < |text| && text[q] == ch && IsSymbol(ch) && !IsClose(ch)
    requires !Scan(s.out).mode.InLine? && !StartsWithBlock(text, s.pending)
    requires GapFits(text, s.pending, q, ch)
    ensures Printed(text, s, q, ch, PutSymbol(text, s, ch))
  {
    var cs := s.pending;
    FindFromLag(text, s, p, q, ch, k);
    var h := GapHit(text, cs, q, ch);
    if !Before(cs, q) {
      NoCommentAt(text, cs, q);
      Advance(text, s, p, q);
      WroteSymbol(text, s, q, q + 1, ch);
    } else if h == q + 1 {
      PrintedAfterGap(text, s, p, q, ch, k);
    } else {
      HitSplitsGap(text, cs, p, q, ch);
      PrintedAtComment(text, s, p, q, h, ch, k);
    }
  }

  /** A gap that does not fit sends the symbol out before one of its comments. */
  lemma SymbolMisplaced(text: string, s: State, p: nat, q: nat, ch: char, k: char)
    requires Inv(text, s, p) && Lag(text, s.pos, p, k) && k != ch && GapOk(text, s.pending, p, q)
    requires q < |text| && text[q] == ch && IsSymbol(ch) && !IsClose(ch)
    requires !StartsWithBlock(text, s.pending)
    requires !GapFits(text, s.pending, q, ch)
    ensures PutSymbol(text, s, ch).Some? && Diverged(text, PutSymbol(text, s, ch).value.out)
  {
    var cs := s.pending;
    FindFromLag(text, s, p, q, ch, k);
    var h := GapHit(text, cs, q, ch);
    if h == q + 1 {
      NoHitFits(text, cs, p, q, ch);
    }
    HitSplitsGap(text, cs, p, q, ch);
    AfterOk(text, cs, h);
    CommentsAndIndent(text, s, p, h, h, k);
    var s1 := Indent(text, Comments(text, s, h).value, h).value;
    OutSymbol(s1.out, ch);
    var c := After(cs, h)[0];
    CommentFollows(text, h, c);
    var n := |Upto(text, h)|;
    assert Scan(s1.out + [ch]).done[n] == Symbol(ch);
  }

  lemma CommentFollows(text: string, p: nat, c: Range)
    requires TextAt(text, p) && CommentOk(text, c) && Spaces(text, p, c.start)
    ensures var n := |Upto(text, p)|;
            n < |Upto(text, |text|)| && Upto(text, |text|)[n] == CommentLexeme(text[c.start..c.end])
  {
    TextSpaces(text, p, c.start);
    TextComment(text, c);
    UptoIsPrefix(text, c.end);
  }
}
