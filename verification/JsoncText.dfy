/** Characters, lines and trimming, as the formatter uses them. */
module JsoncText {

  const QUOTE: char := 34 as char
  /** The opening brace. */
  const BRACE: char := 123 as char

  /** The four whitespace characters JSON allows between tokens. */
  predicate IsSpace(c: char) {
    c == ' ' || c == '\t' || c == '\n' || c == '\r'
  }

  /** Unicode White_Space, which is what `trim` and `trim_end` remove. */
  predicate IsWhite(c: char) {
    || '\U{9}' <= c <= '\U{D}'
    || c == ' '
    || c == '\U{85}'
    || c == '\U{A0}'
    || c == '\U{1680}'
    || '\U{2000}' <= c <= '\U{200A}'
    || c == '\U{2028}'
    || c == '\U{2029}'
    || c == '\U{202F}'
    || c == '\U{205F}'
    || c == '\U{3000}'
  }

  ghost predicate AllSpace(s: string) {
    forall i :: 0 <= i < |s| ==> IsSpace(s[i])
  }

  ghost predicate NoNewline(s: string) {
    forall i :: 0 <= i < |s| ==> s[i] != '\n'
  }

  /** `n` blanks, as `{:width$}` of the empty string writes them. */
  function Blanks(n: nat): (r: string)
    ensures |r| == n
    ensures forall i :: 0 <= i < n ==> r[i] == ' '
  {
    seq(n, _ => ' ')
  }

  function TrimEnd(s: string): (r: string)
    ensures r <= s
    ensures r != "" ==> !IsWhite(r[|r| - 1])
    ensures forall i :: |r| <= i < |s| ==> IsWhite(s[i])
  {
    if s != "" && IsWhite(s[|s| - 1]) then TrimEnd(s[..|s| - 1]) else s
  }

  function TrimStart(s: string): string {
    if s != "" && IsWhite(s[0]) then TrimStart(s[1..]) else s
  }

  function Trim(s: string): string {
    TrimEnd(TrimStart(s))
  }

  /** Drops every leading blank. */
  function StripBlanks(s: string): string {
    if s != "" && s[0] == ' ' then StripBlanks(s[1..]) else s
  }

  /** Drops at most `n` leading blanks. */
  function StripUpTo(s: string, n: nat): string {
    if n > 0 && s != "" && s[0] == ' ' then StripUpTo(s[1..], n - 1) else s
  }

  /** Position of the last newline plus one, or 0. */
  function LineStart(s: string): (r: nat)
    ensures r <= |s|
    ensures forall i :: r <= i < |s| ==> s[i] != '\n'
    ensures r > 0 ==> s[r - 1] == '\n'
  {
    if s == "" then 0
    else if s[|s| - 1] == '\n' then |s|
    else LineStart(s[..|s| - 1])
  }

  /** `s` cut at its newlines. A comment never ends in a newline, so these are the pieces `lines` yields
      up to the carriage returns that the trimming removes anyway. */
  function Lines(s: string): (r: seq<string>)
    ensures |r| > 0
    decreases |s|
  {
    var k := LineStart(s);
    if k == 0 then [s] else Lines(s[..k - 1]) + [s[k..]]
  }

  /** Length of the last item of `s.lines()`, for a non-empty `s`: a final newline opens no new line,
      and the carriage return before it is not part of the line. */
  function LastLineLength(s: string): nat
    requires s != ""
  {
    if s[|s| - 1] == '\n' then
      var t := s[..|s| - 1];
      var k := LineStart(t);
      if k < |t| && t[|t| - 1] == '\r' then |t| - k - 1 else |t| - k
    else
      |s| - LineStart(s)
  }

  /** What a comment line says, whatever its indentation and trailing whitespace. */
  function NormLine(s: string): string {
    StripBlanks(TrimEnd(s))
  }

  function NormLines(ls: seq<string>): (r: seq<string>)
    ensures |r| == |ls|
  {
    if ls == [] then [] else NormLines(ls[..|ls| - 1]) + [NormLine(ls[|ls| - 1])]
  }

  /** A block comment up to the indentation of its lines and their trailing whitespace. */
  function NormBlock(s: string): seq<string> {
    NormLines(Lines(s))
  }

  lemma TrimEndUnique(s: string, r: string)
    requires r <= s
    requires r != "" ==> !IsWhite(r[|r| - 1])
    requires forall i :: |r| <= i < |s| ==> IsWhite(s[i])
    ensures TrimEnd(s) == r
  {
    var t := TrimEnd(s);
    assert r != "" ==> s[|r| - 1] == r[|r| - 1];
    assert t != "" ==> s[|t| - 1] == t[|t| - 1];
    assert t == s[..|t|] && r == s[..|r|];
  }

  lemma TrimEndKeeps(s: string)
    requires s != "" && !IsWhite(s[|s| - 1])
    ensures TrimEnd(s) == s
  {
    TrimEndUnique(s, s);
  }

  lemma StripUpToSuffix(s: string, n: nat)
    ensures |StripUpTo(s, n)| <= |s|
    ensures StripUpTo(s, n) == s[|s| - |StripUpTo(s, n)|..]
    ensures forall i :: 0 <= i < |s| - |StripUpTo(s, n)| ==> s[i] == ' '
  {
    if n > 0 && s != "" && s[0] == ' ' {
      StripUpToSuffix(s[1..], n - 1);
      var r := StripUpTo(s, n);
      assert s[1..][|s| - 1 - |r|..] == s[|s| - |r|..];
      forall i | 0 <= i < |s| - |r| ensures s[i] == ' ' {
        if i > 0 { assert s[i] == s[1..][i - 1]; }
      }
    }
  }

  lemma StripBlanksDropsBlanks(s: string, k: nat)
    requires k <= |s|
    requires forall i :: 0 <= i < k ==> s[i] == ' '
    ensures StripBlanks(s) == StripBlanks(s[k..])
  {
    if k > 0 {
      StripBlanksDropsBlanks(s[1..], k - 1);
      assert s[1..][k - 1..] == s[k..];
    } else {
      assert s[0..] == s;
    }
  }

  /** Adding or dropping leading blanks and dropping trailing whitespace does not change what a line says. */
  lemma NormLineInvariant(s: string, t: string, k: nat)
    requires k <= |s|
    requires forall i :: 0 <= i < k ==> s[i] == ' '
    requires forall i :: 0 <= i < |t| && i < |t| - |TrimEnd(s[k..])| ==> t[i] == ' '
    requires |TrimEnd(s[k..])| <= |t|
    requires t[|t| - |TrimEnd(s[k..])|..] == TrimEnd(s[k..])
    ensures NormLine(s) == NormLine(t)
  {
    var core := TrimEnd(s[k..]);
    NormOfIndented(s, k);
    var j := |t| - |core|;
    TrimEndIdempotent(s[k..]);
    NormOfIndented(t, j);
  }

  lemma TrimEndIdempotent(s: string)
    ensures TrimEnd(TrimEnd(s)) == TrimEnd(s)
  {
    if TrimEnd(s) != "" {
      TrimEndKeeps(TrimEnd(s));
    }
  }

  lemma TrimEndSuffix(s: string, k: nat)
    requires k <= |s|
    requires TrimEnd(s[k..]) != ""
    ensures TrimEnd(s) == s[..k] + TrimEnd(s[k..])
  {
    var core := TrimEnd(s[k..]);
    var r := s[..k + |core|];
    assert s[k..][..|core|] == core;
    assert r == s[..k] + core;
    forall i | |r| <= i < |s| ensures IsWhite(s[i]) {
      assert s[i] == s[k..][i - k];
    }
    assert r[|r| - 1] == core[|core| - 1];
    TrimEndUnique(s, r);
  }

  lemma NormOfIndented(s: string, k: nat)
    requires k <= |s|
    requires forall i :: 0 <= i < k ==> s[i] == ' '
    ensures NormLine(s) == StripBlanks(TrimEnd(s[k..]))
  {
    var core := TrimEnd(s[k..]);
    if core == "" {
      forall i | 0 <= i < |s| ensures IsWhite(s[i]) {
        if i >= k { assert s[i] == s[k..][i - k]; }
      }
      TrimEndUnique(s, "");
    } else {
      TrimEndSuffix(s, k);
      StripBlanksDropsBlanks(s[..k] + core, k);
      assert (s[..k] + core)[k..] == core;
    }
  }

  lemma NormLinesAppend(ls: seq<string>, l: string)
    ensures NormLines(ls + [l]) == NormLines(ls) + [NormLine(l)]
  {
    assert (ls + [l])[..|ls|] == ls;
  }

  lemma LineStartAt(s: string, k: nat)
    requires k <= |s|
    requires k > 0 ==> s[k - 1] == '\n'
    requires forall i :: k <= i < |s| ==> s[i] != '\n'
    ensures LineStart(s) == k
  {
  }

  lemma LinesAppend(s: string, l: string)
    requires NoNewline(l)
    ensures Lines(s + "\n" + l) == Lines(s) + [l]
  {
    var t := s + "\n" + l;
    var k := LineStart(t);
    LineStartAt(t, |s| + 1);
    assert t[..k - 1] == s;
    assert t[k..] == l;
  }

  lemma LinesOfLine(s: string)
    requires NoNewline(s)
    ensures Lines(s) == [s]
  {
    LineStartAt(s, 0);
  }
}
