/** A reference lexer for JSONC, independent of the formatter: it says what "changes only whitespace" means.
    Comments are kept as lexemes, up to the layout the formatter may change inside them. */
module JsoncLexer {
  import opened Outcomes
  import opened JsoncText

  datatype Lexeme =
    | Symbol(ch: char)
    | Scalar(text: string)
    | LineComment(text: string)
    | BlockComment(lines: seq<string>)

  datatype Mode =
    | Between
    | InBare(text: string)
    | InString(text: string, escaped: bool)
    | AfterSlash
    | InLine(text: string)
    | InBlock(text: string)
    | Bad

  datatype Lexer = Lexer(mode: Mode, done: seq<Lexeme>)

  predicate IsSymbol(c: char) {
    c == '[' || c == ']' || c == '{' || c == '}' || c == ',' || c == ':'
  }

  predicate IsBareChar(c: char) {
    !IsSpace(c) && !IsSymbol(c) && c != QUOTE && c != '/'
  }

  /** One character read while no lexeme is open. */
  function Begin(done: seq<Lexeme>, c: char): Lexer {
    if IsSpace(c) then Lexer(Between, done)
    else if IsSymbol(c) then Lexer(Between, done + [Symbol(c)])
    else if c == QUOTE then Lexer(InString([c], false), done)
    else if c == '/' then Lexer(AfterSlash, done)
    else Lexer(InBare([c]), done)
  }

  function Step(l: Lexer, c: char): Lexer {
    match l.mode
    case Between => Begin(l.done, c)
    case InBare(t) =>
      if IsBareChar(c) then Lexer(InBare(t + [c]), l.done)
      else if c == QUOTE then Lexer(Bad, l.done)
      else Begin(l.done + [Scalar(t)], c)
    case InString(t, escaped) =>
      if escaped then Lexer(InString(t + [c], false), l.done)
      else if c == '\\' then Lexer(InString(t + [c], true), l.done)
      else if c == QUOTE then Lexer(Between, l.done + [Scalar(t + [c])])
      else Lexer(InString(t + [c], false), l.done)
    case AfterSlash =>
      if c == '/' then Lexer(InLine("//"), l.done)
      else if c == '*' then Lexer(InBlock("/*"), l.done)
      else Lexer(Bad, l.done)
    case InLine(t) =>
      if c == '\n' then Lexer(Between, l.done + [LineComment(TrimEnd(t))])
      else Lexer(InLine(t + [c]), l.done)
    case InBlock(t) =>
      if c == '/' && |t| > 2 && t[|t| - 1] == '*' then Lexer(Between, l.done + [BlockComment(NormBlock(t + [c]))])
      else Lexer(InBlock(t + [c]), l.done)
    case Bad => l
  }

  function Run(l: Lexer, s: string): Lexer
    decreases |s|
  {
    if s == "" then l else Run(Step(l, s[0]), s[1..])
  }

  function Scan(s: string): Lexer {
    Run(Lexer(Between, []), s)
  }

  /** The lexemes read so far, an unfinished scalar or line comment included. */
  function Flush(l: Lexer): seq<Lexeme> {
    match l.mode
    case InBare(t) => l.done + [Scalar(t)]
    case InLine(t) => l.done + [LineComment(TrimEnd(t))]
    case _ => l.done
  }

  /** The text may stop here: no string, block comment or lone slash is open. */
  predicate Settled(m: Mode) {
    m.Between? || m.InBare? || m.InLine?
  }

  /** The lexemes of a whole text, or None when it is not JSONC. */
  function Lex(s: string): Option<seq<Lexeme>> {
    var l := Scan(s);
    if Settled(l.mode) then Some(Flush(l)) else None
  }

  // ----- what scalars and comments look like -----

  /** The rest of a string literal after its opening quote. */
  predicate StringTail(s: string) {
    s != "" &&
    if s[0] == QUOTE then |s| == 1
    else if s[0] == '\\' then |s| >= 2 && StringTail(s[2..])
    else StringTail(s[1..])
  }

  predicate IsString(s: string) {
    s != "" && s[0] == QUOTE && StringTail(s[1..])
  }

  predicate IsBare(s: string) {
    s != "" && forall i :: 0 <= i < |s| ==> IsBareChar(s[i])
  }

  predicate IsLineComment(s: string) {
    |s| >= 2 && s[0] == '/' && s[1] == '/' && forall i :: 0 <= i < |s| ==> s[i] != '\n'
  }

  predicate ClosesAt(s: string, i: int) {
    0 < i < |s| && s[i - 1] == '*' && s[i] == '/'
  }

  /** No comment terminator inside `s`. */
  predicate NoClose(s: string) {
    forall i :: 0 < i < |s| ==> !ClosesAt(s, i)
  }

  predicate IsBlockComment(s: string) {
    |s| >= 4 && s[0] == '/' && s[1] == '*' && s[|s| - 2] == '*' && s[|s| - 1] == '/' && NoClose(s[2..|s| - 1])
  }

  /** The lexeme of a comment's text. */
  function CommentLexeme(s: string): Lexeme {
    if |s| >= 2 && s[1] == '/' then LineComment(TrimEnd(s)) else BlockComment(NormBlock(s))
  }

  // ----- running the lexer over concatenations -----

  lemma {:induction false} RunConcat(l: Lexer, a: string, b: string)
    ensures Run(l, a + b) == Run(Run(l, a), b)
    decreases |a|
  {
    if a == "" {
      assert a + b == b;
    } else {
      assert (a + b)[1..] == a[1..] + b;
      RunConcat(Step(l, a[0]), a[1..], b);
    }
  }

  lemma RunOne(l: Lexer, c: char)
    ensures Run(l, [c]) == Step(l, c)
  {
  }

  lemma {:induction false} RunGrows(l: Lexer, s: string)
    ensures l.done <= Run(l, s).done
    decreases |s|
  {
    if s != "" {
      RunGrows(Step(l, s[0]), s[1..]);
    }
  }

  lemma ScanGrows(a: string, b: string)
    requires a <= b
    ensures Scan(a).done <= Scan(b).done
  {
    assert b == a + b[|a|..];
    RunConcat(Lexer(Between, []), a, b[|a|..]);
    RunGrows(Scan(a), b[|a|..]);
  }

  lemma {:induction false} RunSpaces(l: Lexer, s: string)
    requires AllSpace(s)
    requires l.mode.Between? || l.mode.InBare?
    ensures Run(l, s) == if s == "" then l else Lexer(Between, Flush(l))
    decreases |s|
  {
    if s != "" {
      RunSpaces(Step(l, s[0]), s[1..]);
    }
  }

  lemma {:induction false} RunInLine(l: Lexer, s: string)
    requires l.mode.InLine?
    requires forall i :: 0 <= i < |s| ==> s[i] != '\n'
    ensures Run(l, s) == Lexer(InLine(l.mode.text + s), l.done)
    decreases |s|
  {
    if s == "" {
      assert l.mode.text + s == l.mode.text;
    } else {
      RunInLine(Step(l, s[0]), s[1..]);
      assert l.mode.text + [s[0]] + s[1..] == l.mode.text + s;
    }
  }

  lemma {:induction false} RunInBare(l: Lexer, s: string)
    requires l.mode.InBare?
    requires forall i :: 0 <= i < |s| ==> IsBareChar(s[i])
    ensures Run(l, s) == Lexer(InBare(l.mode.text + s), l.done)
    decreases |s|
  {
    if s == "" {
      assert l.mode.text + s == l.mode.text;
    } else {
      RunInBare(Step(l, s[0]), s[1..]);
      assert l.mode.text + [s[0]] + s[1..] == l.mode.text + s;
    }
  }

  lemma {:induction false} RunInString(l: Lexer, s: string)
    requires l.mode.InString? && !l.mode.escaped
    requires StringTail(s)
    ensures Run(l, s) == Lexer(Between, l.done + [Scalar(l.mode.text + s)])
    decreases |s|
  {
    if s[0] == QUOTE {
      assert s == [s[0]];
      RunOne(l, s[0]);
    } else if s[0] == '\\' {
      var l2 := Step(Step(l, s[0]), s[1]);
      assert Run(l, s) == Run(Step(l, s[0]), s[1..]) == Run(l2, s[1..][1..]);
      assert s[1..][1..] == s[2..];
      RunInString(l2, s[2..]);
      assert l.mode.text + [s[0]] + [s[1]] + s[2..] == l.mode.text + s;
    } else {
      RunInString(Step(l, s[0]), s[1..]);
      assert l.mode.text + [s[0]] + s[1..] == l.mode.text + s;
    }
  }

  lemma RunScalar(l: Lexer, s: string)
    requires l.mode.Between?
    requires IsString(s) || IsBare(s)
    ensures Flush(Run(l, s)) == l.done + [Scalar(s)]
    ensures Run(l, s).mode.Between? || Run(l, s).mode.InBare?
    ensures IsString(s) ==> Run(l, s).mode.Between?
  {
    var l1 := Step(l, s[0]);
    assert [s[0]] + s[1..] == s;
    if s[0] == QUOTE {
      RunInString(l1, s[1..]);
    } else {
      RunInBare(l1, s[1..]);
    }
  }

  lemma RunLineComment(l: Lexer, s: string)
    requires l.mode.Between? || l.mode.InBare?
    requires IsLineComment(s)
    ensures Run(l, s) == Lexer(InLine(s), Flush(l))
  {
    var l2 := Step(Step(l, s[0]), s[1]);
    assert Run(l, s) == Run(Step(l, s[0]), s[1..]) == Run(l2, s[1..][1..]);
    assert s[1..][1..] == s[2..];
    RunInLine(l2, s[2..]);
    assert "//" + s[2..] == s;
  }

  lemma NoCloseTail(s: string)
    requires s != "" && NoClose(s)
    ensures NoClose(s[1..])
    ensures |s| > 1 && s[0] == '*' ==> s[1] != '/'
  {
    forall i | 0 < i < |s| - 1 ensures !ClosesAt(s[1..], i) {
      assert !ClosesAt(s, i + 1);
    }
    assert |s| > 1 ==> !ClosesAt(s, 1);
  }

  lemma {:induction false} RunInBlock(l: Lexer, s: string)
    requires l.mode.InBlock?
    requires NoClose(s)
    requires |l.mode.text| > 2 && s != "" && s[0] == '/' ==> l.mode.text[|l.mode.text| - 1] != '*'
    ensures Run(l, s) == Lexer(InBlock(l.mode.text + s), l.done)
    decreases |s|
  {
    if s == "" {
      assert l.mode.text + s == l.mode.text;
    } else {
      NoCloseTail(s);
      RunInBlock(Lexer(InBlock(l.mode.text + [s[0]]), l.done), s[1..]);
      assert l.mode.text + [s[0]] + s[1..] == l.mode.text + s;
    }
  }

  lemma RunTwo(l: Lexer, s: string)
    requires |s| >= 2
    ensures Run(l, s) == Run(Step(Step(l, s[0]), s[1]), s[2..])
  {
    assert s[1..][1..] == s[2..];
  }

  /** What opens a block comment leaves the lexer in its text. */
  lemma OpensBlock(l: Lexer, s: string)
    requires l.mode.Between? || l.mode.InBare?
    requires IsBlockComment(s)
    ensures Step(Step(l, s[0]), s[1]) == Lexer(InBlock("/*"), Flush(l))
    ensures var n := |s| - 1; n >= 3 && s == "/*" + s[2..n] + [s[n]] && s[n - 1] == '*' && s[n] == '/' && NoClose(s[2..n])
  {
  }

  lemma RunBlockComment(l: Lexer, s: string)
    requires l.mode.Between? || l.mode.InBare?
    requires IsBlockComment(s)
    ensures Run(l, s) == Lexer(Between, Flush(l) + [BlockComment(NormBlock(s))])
  {
    OpensBlock(l, s);
    RunTwo(l, s);
    hide Run, NormBlock, NoClose, IsBlockComment;
    var n := |s| - 1;
    var body, l2 := s[2..n], Lexer(InBlock("/*"), Flush(l));
    var l3 := Lexer(InBlock("/*" + body), Flush(l));
    assert s[2..] == body + [s[n]];
    RunConcat(l2, body, [s[n]]);
    RunInBlock(l2, body);
    RunOne(l3, s[n]);
    var text := "/*" + body;
    assert |text| > 2 && text[|text| - 1] == s[n - 1];
  }

  /** A comment read where a lexeme may start adds exactly its lexeme. */
  lemma RunComment(l: Lexer, s: string)
    requires l.mode.Between? || l.mode.InBare?
    requires IsLineComment(s) || IsBlockComment(s)
    ensures Flush(Run(l, s)) == Flush(l) + [CommentLexeme(s)]
    ensures Run(l, s).mode.Between? || Run(l, s).mode.InLine?
    ensures Run(l, s).mode.InLine? <==> IsLineComment(s)
  {
    if IsLineComment(s) {
      RunLineComment(l, s);
    } else {
      RunBlockComment(l, s);
    }
  }
}
