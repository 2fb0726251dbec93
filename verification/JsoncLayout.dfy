/** Where the formatted text has its line breaks, blank lines and indentation: the pieces it consists of, as a function of
    the input text, its comments and the value tree. Depth is counted in the tree. */
module JsoncLayout {
  import opened Outcomes
  import opened JsoncText
  import opened JsoncTree

  /** What stands in front of a piece: nothing, a blank, or a line of its own, `depth` levels in, with or without a blank
      line before it. */
  datatype Lead = Glued | Spaced | OwnLine(depth: nat, blank: bool)

  /** A token or comment as written, after its lead. */
  datatype Piece = Piece(lead: Lead, written: string)

  function LeadText(lead: Lead): string {
    match lead
    case Glued => ""
    case Spaced => " "
    case OwnLine(depth, blank) => (if blank then "\n" else "") + "\n" + Blanks(2 * depth)
  }

  function Text(p: Piece): string {
    LeadText(p.lead) + p.written
  }

  function Flatten(ps: seq<Piece>): string {
    if ps == [] then "" else Flatten(ps[..|ps| - 1]) + Text(ps[|ps| - 1])
  }

  // ----- gaps in the input -----

  function Slice(text: string, a: nat, b: nat): string {
    if a <= b <= |text| then text[a..b] else ""
  }

  ghost predicate HasNewline(text: string, a: nat, b: nat) {
    exists i :: a <= i < b <= |text| && text[i] == '\n'
  }

  /** Two newlines with nothing but whitespace between them. */
  ghost predicate HasBlankLine(text: string, a: nat, b: nat) {
    exists i, j :: a <= i < j < b <= |text| && text[i] == '\n' && text[j] == '\n'
  }

  /** The end of the last of the comments that start before `to`; `from` if there is none. */
  function LastEnd(cs: seq<Range>, from: nat, to: nat): nat {
    if Before(cs, to) then LastEnd(cs[1..], cs[0].end, to) else from
  }

  /** Where reading goes on after the symbol `ch` at `q`. A comment right before it that ends in the same character is
      taken for it. */
  function Resume(text: string, cs: seq<Range>, q: nat, ch: char): nat {
    var e := LastEnd(cs, 0, q);
    if Before(cs, q) && 0 < e <= |text| && text[e - 1] == ch then e else q + 1
  }

  // ----- comments -----

  function LeadingBlanks(s: string): (n: nat)
    ensures n <= |s|
  {
    if s != "" && s[0] == ' ' then 1 + LeadingBlanks(s[1..]) else 0
  }

  /** The line from its first visible character on, in column `column`. */
  function AtColumn(t: string, column: int): string {
    Blanks(if column > 0 then column else 0) + StripBlanks(t)
  }

  /** A line of a block comment, moved by `shift` columns as far as its leading blanks allow. */
  function Moved(line: string, shift: int): string {
    AtColumn(TrimEnd(line), LeadingBlanks(TrimEnd(line)) + shift)
  }

  function MovedLines(lines: seq<string>, shift: int): string {
    if lines == [] then ""
    else MovedLines(lines[..|lines| - 1], shift) + "\n" + Moved(lines[|lines| - 1], shift)
  }

  /** A block comment moved by `shift` columns; its first line stands where it is put. */
  function BlockText(comment: string, shift: int): string {
    TrimEnd(Lines(comment)[0]) + MovedLines(Lines(comment)[1..], shift)
  }

  /** A comment on a line of its own. The later lines of a block comment move as far as its first line does; where that
      stood is measured by the line before the comment, which is the line above for a comment that starts a line. */
  function OwnText(text: string, c: Range, depth: nat): string {
    var comment := Slice(text, c.start, c.end);
    if |comment| < 2 || comment[1] == '/' || c.start == 0 then TrimEnd(comment)
    else BlockText(comment, 2 * depth - if c.start <= |text| then LastLineLength(text[..c.start]) else 0)
  }

  /** A new line, unless nothing was written before; with a blank line if the input has one there. */
  ghost function Own(text: string, from: nat, at: nat, depth: nat): Lead {
    if from == 0 then Glued else OwnLine(depth, HasBlankLine(text, from, at))
  }

  /** The comments between `from` and `to`. As long as no newline comes in between, they stay on the line; the others have
      lines of their own. */
  ghost function CommentPieces(text: string, cs: seq<Range>, from: nat, to: nat, depth: nat, onLine: bool): seq<Piece> {
    if !Before(cs, to) then []
    else
      var c := cs[0];
      if onLine && from > 0 && !HasNewline(text, from, c.end) then
        [Piece(Spaced, TrimEnd(Slice(text, c.start, c.end)))] + CommentPieces(text, cs[1..], c.end, to, depth, true)
      else
        [Piece(Own(text, from, c.start, depth), OwnText(text, c, depth))]
        + CommentPieces(text, cs[1..], c.end, to, depth, false)
  }

  /** An opening bracket, comma or colon at `q`: on the line, unless comments come before it. */
  ghost function SymbolPieces(text: string, cs: seq<Range>, from: nat, q: nat, ch: char, depth: nat): seq<Piece> {
    if !Before(cs, q) then [Piece(Glued, [ch])]
    else
      var e := LastEnd(cs, from, q);
      CommentPieces(text, cs, from, q, depth, true)
      + [Piece(Own(text, e, if Resume(text, cs, q, ch) == q + 1 then q + 1 else e, depth), [ch])]
  }

  // ----- values -----

  /** The value at depth `depth`; `lead` stands in front of its first token. */
  ghost function ValuePieces(text: string, cs: seq<Range>, v: Value, depth: nat, lead: Lead): seq<Piece>
    decreases v, 2
  {
    match v
    case Leaf(start, end) => [Piece(lead, Slice(text, start, end))]
    case Container(_, _, kind, _) => [Piece(lead, [kind.Open()])] + InsidePieces(text, cs, v, depth)
  }

  /** Behind the opening bracket. A container that contains a newline or a comment has several lines. */
  ghost function InsidePieces(text: string, cs: seq<Range>, v: Value, depth: nat): seq<Piece>
    requires v.Container?
    decreases v, 1
  {
    var several := Before(After(cs, v.start), v.end) || HasNewline(text, v.start, v.end);
    if v.items == [] then TailPieces(text, cs, v.start + 1, v.start + 1, v.kind, v.end, depth, several)
    else ItemsPieces(text, cs, v.start + 1, v.start + 1, v.kind, v.items, v.end, depth, several, Glued)
  }

  /** An item and what stands before it: on several lines its comments and a line of its own, else `first`. */
  ghost function LinePieces(text: string, cs: seq<Range>, from: nat, start: nat, item: Item, depth: nat, several: bool,
      first: Lead): seq<Piece>
    decreases item, 4
  {
    if several then
      CommentPieces(text, cs, from, start, depth, true)
      + ItemPieces(text, After(cs, start), item, depth, Own(text, LastEnd(cs, from, start), start, depth))
    else
      ItemPieces(text, After(cs, start), item, depth, first)
  }

  /** The items after `p` and the closing bracket. On several lines each item has its own; on one line the first is
      `first`, and a comma and a blank come before each of the others. */
  ghost function ItemsPieces(text: string, cs: seq<Range>, from: nat, p: nat, kind: Kind, items: seq<Item>, end: nat,
      depth: nat, several: bool, first: Lead): seq<Piece>
    requires items != []
    decreases items, 1
  {
    var start := NextToken(text, cs, p);
    LinePieces(text, cs, from, start, items[0], depth + 1, several, first)
    + RestPieces(text, After(After(cs, start), items[0].value.end), kind, items, end, depth, several)
  }

  /** From the end of the first item on. */
  ghost function RestPieces(text: string, cs: seq<Range>, kind: Kind, items: seq<Item>, end: nat, depth: nat, several: bool):
      seq<Piece>
    requires items != []
    decreases items, 0
  {
    var e := items[0].value.end;
    if |items| == 1 then TailPieces(text, cs, e, e, kind, end, depth, several)
    else
      var sep := NextToken(text, cs, e);
      SymbolPieces(text, cs, e, sep, ',', depth + 1)
      + ItemsPieces(text, After(cs, sep), Resume(text, cs, sep, ','), sep + 1, kind, items[1..], end, depth, several, Spaced)
  }

  ghost function ItemPieces(text: string, cs: seq<Range>, item: Item, depth: nat, lead: Lead): seq<Piece>
    decreases item, 3
  {
    match item
    case Element(value) => ValuePieces(text, cs, value, depth, lead)
    case Member(key, value) => ValuePieces(text, cs, key, depth, lead) + MemberPieces(text, cs, key.end, value, depth)
  }

  /** The colon and the value, which stays on the line unless comments come before it. */
  ghost function MemberPieces(text: string, cs: seq<Range>, keyEnd: nat, v: Value, depth: nat): seq<Piece>
    decreases v, 3
  {
    var colon := NextToken(text, cs, keyEnd);
    var cs1 := After(cs, colon);
    var from := Resume(text, cs, colon, ':');
    SymbolPieces(text, cs, keyEnd, colon, ':', depth)
    + CommentPieces(text, cs1, from, v.start, depth, true)
    + ValuePieces(text, After(cs1, v.start), v, depth,
        if Before(cs1, v.start) then Own(text, LastEnd(cs1, from, v.start), v.start, depth) else Spaced)
  }

  /** A trailing comma, if there is one, and the closing bracket. */
  ghost function TailPieces(text: string, cs: seq<Range>, from: nat, p: nat, kind: Kind, end: nat, depth: nat, several: bool):
      seq<Piece>
  {
    var sep := NextToken(text, cs, p);
    if sep + 1 < end then
      SymbolPieces(text, cs, from, sep, ',', depth + 1)
      + ClosePieces(text, After(cs, sep), Resume(text, cs, sep, ','), kind, end, depth, several)
    else
      ClosePieces(text, cs, from, kind, end, depth, several)
  }

  /** The last comments are as deep as the items; the bracket is as deep as its container. No blank line stands before
      it. */
  ghost function ClosePieces(text: string, cs: seq<Range>, from: nat, kind: Kind, end: nat, depth: nat, several: bool):
      seq<Piece>
  {
    (if end > 0 then CommentPieces(text, cs, from, end - 1, depth + 1, true) else [])
    + [Piece(if several then OwnLine(depth, false) else Glued, [kind.Close()])]
  }

  /** The root: on several lines its comments come before it, and it starts a line unless nothing does. */
  ghost function RootPieces(text: string, cs: seq<Range>, root: Value): seq<Piece> {
    var cs1 := After(cs, root.start);
    if root.Leaf? then ValuePieces(text, cs1, root, 0, Glued)
    else if Before(cs1, root.end) || HasNewline(text, root.start, root.end) then
      CommentPieces(text, cs, 0, root.start, 0, true)
      + ValuePieces(text, cs1, root, 0, Own(text, LastEnd(cs, 0, root.start), root.start, 0))
    else
      SymbolPieces(text, cs, 0, root.start, root.kind.Open(), 0) + InsidePieces(text, cs1, root, 0)
  }

  /** The whole text, up to its final newline. */
  ghost function Pieces(text: string, cs: seq<Range>, root: Value): seq<Piece> {
    RootPieces(text, cs, root) + CommentPieces(text, After(cs, root.end), root.end, |text|, 0, true)
  }

  // ----- pieces in the text they make up -----

  lemma FlattenSnoc(ps: seq<Piece>, p: Piece)
    ensures Flatten(ps + [p]) == Flatten(ps) + Text(p)
  {
    hide Text;
    assert (ps + [p])[..|ps|] == ps;
  }

  lemma Regroup<T>(a: seq<T>, b: seq<T>, c: seq<T>)
    ensures a + (b + c) == (a + b) + c
  {
  }

  lemma {:induction false} FlattenConcat(a: seq<Piece>, b: seq<Piece>)
    ensures Flatten(a + b) == Flatten(a) + Flatten(b)
    decreases |b|
  {
    if b == [] {
      assert a + b == a;
    } else {
      var init, last := b[..|b| - 1], b[|b| - 1];
      assert b == init + [last];
      FlattenConcat(a, init);
      hide Flatten, Text;
      FlattenSnoc(init, last);
      FlattenSnoc(a + init, last);
      Regroup(a, init, [last]);
      Regroup(Flatten(a), Flatten(init), Text(last));
    }
  }

  lemma FlattenOne(p: Piece)
    ensures Flatten([p]) == Text(p)
  {
    assert [p][..0] == [];
  }
}
