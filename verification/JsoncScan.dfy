/** How the lexer advances over one gap, token or comment: of the source text, and of the formatter's output. */
module JsoncScan {
  import opened JsoncText
  import opened JsoncLexer
  import opened JsoncTree
  import opened JsoncSpec

  ghost predicate Spaces(text: string, a: nat, b: nat) {
    a <= b <= |text| && forall i :: a <= i < b ==> IsSpace(text[i])
  }

  /** The lexemes of the text up to `p`. */
  ghost function Upto(text: string, p: nat): seq<Lexeme>
    requires p <= |text|
  {
    Flush(Scan(text[..p]))
  }

  ghost function ModeAt(text: string, p: nat): Mode
    requires p <= |text|
  {
    Scan(text[..p]).mode
  }

  /** `p` is a place where the text may stop; a line comment that ends there is followed by its newline. */
  ghost predicate TextAt(text: string, p: nat) {
    p <= |text| && Settled(ModeAt(text, p)) && (ModeAt(text, p).InLine? && p < |text| ==> text[p] == '\n')
  }

  lemma ScanText(text: string, a: nat, b: nat)
    requires a <= b <= |text|
    ensures Scan(text[..b]) == Run(Scan(text[..a]), text[a..b])
  {
    assert text[..b] == text[..a] + text[a..b];
    RunConcat(Lexer(Between, []), text[..a], text[a..b]);
  }

  lemma ScanOut(out: string, s: string)
    ensures Scan(out + s) == Run(Scan(out), s)
  {
    RunConcat(Lexer(Between, []), out, s);
  }

  lemma RunBreak(l: Lexer, s: string)
    requires Settled(l.mode)
    requires AllSpace(s) && s != ""
    requires l.mode.InLine? ==> s[0] == '\n'
    ensures Run(l, s) == Lexer(Between, Flush(l))
  {
    if l.mode.InLine? {
      RunSpaces(Step(l, s[0]), s[1..]);
    } else {
      RunSpaces(l, s);
    }
  }

  // ----- the source text -----

  lemma TextSpaces(text: string, a: nat, b: nat)
    requires TextAt(text, a) && Spaces(text, a, b)
    ensures TextAt(text, b) && Upto(text, b) == Upto(text, a)
    ensures a < b ==> ModeAt(text, b).Between?
  {
    if a < b {
      ScanText(text, a, b);
      RunBreak(Scan(text[..a]), text[a..b]);
    }
  }

  lemma TextComment(text: string, c: Range)
    requires CommentOk(text, c) && TextAt(text, c.start)
    ensures TextAt(text, c.end)
    ensures Upto(text, c.end) == Upto(text, c.start) + [CommentLexeme(text[c.start..c.end])]
    ensures ModeAt(text, c.end).Between? || ModeAt(text, c.end).InLine?
  {
    var t := text[c.start..c.end];
    assert t[0] == text[c.start];
    ScanText(text, c.start, c.end);
    RunComment(Scan(text[..c.start]), t);
  }

  lemma TextSymbol(text: string, q: nat)
    requires q < |text| && TextAt(text, q) && IsSymbol(text[q])
    ensures TextAt(text, q + 1)
    ensures Upto(text, q + 1) == Upto(text, q) + [Symbol(text[q])]
    ensures ModeAt(text, q + 1).Between?
  {
    ScanText(text, q, q + 1);
    assert text[q..q + 1] == [text[q]];
    RunOne(Scan(text[..q]), text[q]);
  }

  lemma TextLeaf(text: string, cs: seq<Range>, v: Value)
    requires LeafOk(text, cs, v) && ModeAt(text, v.start).Between?
    ensures TextAt(text, v.end)
    ensures Upto(text, v.end) == Upto(text, v.start) + [Scalar(text[v.start..v.end])]
    ensures !ModeAt(text, v.end).InLine?
  {
    ScanText(text, v.start, v.end);
    RunScalar(Scan(text[..v.start]), text[v.start..v.end]);
  }

  /** Nothing read later takes back what was read up to a comment's end. */
  lemma UptoIsPrefix(text: string, p: nat)
    requires TextAt(text, p) && !ModeAt(text, p).InBare?
    ensures Upto(text, p) <= Upto(text, |text|)
  {
    assert text[..|text|] == text;
    if p < |text| {
      var q := if ModeAt(text, p).InLine? then p + 1 else p;
      if p < q {
        ScanText(text, p, q);
        assert text[p..q] == "\n";
        RunOne(Scan(text[..p]), '\n');
      }
      ScanGrows(text[..q], text);
    }
  }

  // ----- the output -----

  /** A newline and blanks end whatever was open. */
  lemma OutBreak(out: string, s: string)
    requires Settled(Scan(out).mode)
    requires AllSpace(s) && s != "" && s[0] == '\n'
    ensures Scan(out + s) == Lexer(Between, Flush(Scan(out)))
  {
    ScanOut(out, s);
    RunBreak(Scan(out), s);
  }

  lemma OutBlank(out: string)
    requires Settled(Scan(out).mode) && !Scan(out).mode.InLine?
    ensures Scan(out + " ") == Lexer(Between, Flush(Scan(out)))
  {
    ScanOut(out, " ");
    RunSpaces(Scan(out), " ");
  }

  lemma OutSymbol(out: string, ch: char)
    requires Settled(Scan(out).mode) && !Scan(out).mode.InLine? && IsSymbol(ch)
    ensures Scan(out + [ch]) == Lexer(Between, Flush(Scan(out)) + [Symbol(ch)])
  {
    ScanOut(out, [ch]);
    RunOne(Scan(out), ch);
  }

  lemma OutScalar(out: string, s: string)
    requires Scan(out).mode.Between? && (IsString(s) || IsBare(s))
    ensures Flush(Scan(out + s)) == Flush(Scan(out)) + [Scalar(s)]
    ensures Settled(Scan(out + s).mode) && !Scan(out + s).mode.InLine?
  {
    ScanOut(out, s);
    RunScalar(Scan(out), s);
  }

  lemma OutComment(out: string, s: string)
    requires Scan(out).mode.Between? && (IsLineComment(s) || IsBlockComment(s))
    ensures Flush(Scan(out + s)) == Flush(Scan(out)) + [CommentLexeme(s)]
    ensures Scan(out + s).mode.Between? || Scan(out + s).mode.InLine?
    ensures Scan(out + s).mode.InLine? <==> IsLineComment(s)
  {
    ScanOut(out, s);
    RunComment(Scan(out), s);
  }

  lemma TrimmedComment(s: string)
    requires IsLineComment(s) || IsBlockComment(s)
    ensures IsLineComment(TrimEnd(s)) <==> IsLineComment(s)
    ensures IsLineComment(TrimEnd(s)) || IsBlockComment(TrimEnd(s))
    ensures CommentLexeme(TrimEnd(s)) == CommentLexeme(s)
  {
    var t := TrimEnd(s);
    if IsBlockComment(s) {
      TrimEndKeeps(s);
    } else {
      assert !IsWhite(s[1]);
      TrimEndIdempotent(s);
    }
  }
}
