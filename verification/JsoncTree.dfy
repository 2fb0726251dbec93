/** What the JSONC parser hands to the formatter: the text, the value tree with source positions, and the
    comment ranges in source order. A line comment's range stops before its newline. */
module JsoncTree {
  import opened Outcomes
  import opened JsoncText
  import opened JsoncLexer

  datatype Range = Range(start: nat, end: nat)

  datatype Kind = ArrayKind | ObjectKind {
    function Open(): char {
      if ArrayKind? then '[' else '{'
    }

    function Close(): char {
      if ArrayKind? then ']' else '}'
    }
  }

  datatype Value =
    | Leaf(start: nat, end: nat)
    | Container(start: nat, end: nat, kind: Kind, items: seq<Item>)

  /** An array element, or an object member with its key. */
  datatype Item =
    | Element(value: Value)
    | Member(key: Value, value: Value)

  // ----- text search -----

  /** First position from `p` on, before `end`, that holds `ch`. */
  function Find(text: string, p: nat, end: nat, ch: char): (r: Option<nat>)
    requires p <= end <= |text|
    ensures r.Some? ==> p <= r.value < end && text[r.value] == ch
    ensures forall i :: p <= i < (if r.Some? then r.value else end) ==> text[i] != ch
    decreases end - p
  {
    if p == end then None else if text[p] == ch then Some(p) else Find(text, p + 1, end, ch)
  }

  function Contains(text: string, p: nat, end: nat, ch: char): bool
    requires p <= end <= |text|
  {
    Find(text, p, end, ch).Some?
  }

  // ----- comments -----

  ghost predicate CommentOk(text: string, c: Range) {
    && c.start < c.end <= |text|
    && (|| (IsLineComment(text[c.start..c.end]) && (c.end < |text| ==> text[c.end] == '\n'))
        || IsBlockComment(text[c.start..c.end]))
  }

  /** Sorted, disjoint comment ranges. */
  ghost predicate CommentsOk(text: string, cs: seq<Range>) {
    && (forall i :: 0 <= i < |cs| ==> CommentOk(text, cs[i]))
    && (forall i, j :: 0 <= i < j < |cs| ==> cs[i].end <= cs[j].start)
  }

  predicate Before(cs: seq<Range>, p: nat) {
    cs != [] && cs[0].start < p
  }

  /** The comments that start at `p` or later. */
  function After(cs: seq<Range>, p: nat): seq<Range> {
    if Before(cs, p) then After(cs[1..], p) else cs
  }

  /** Where the next token is found from `p`, passing over whitespace and the comments `cs`. */
  function NextToken(text: string, cs: seq<Range>, p: nat): nat
    decreases |text| - p
  {
    if cs != [] && cs[0].start == p && p < cs[0].end <= |text| then NextToken(text, cs[1..], cs[0].end)
    else if p < |text| && IsSpace(text[p]) then NextToken(text, cs, p + 1)
    else p
  }

  // ----- well-formed input -----

  /** A key or scalar covers exactly one lexeme, without newline and without comments. */
  ghost predicate LeafOk(text: string, cs: seq<Range>, v: Value) {
    && v.Leaf?
    && v.start < v.end <= |text|
    && (IsString(text[v.start..v.end]) || IsBare(text[v.start..v.end]))
    && NoNewline(text[v.start..v.end])
    && !Before(cs, v.end)
  }

  /** `v` is what parsing at `v.start` yields; `cs` are the comments from there on. */
  ghost predicate ValueOk(text: string, cs: seq<Range>, v: Value)
    decreases v, 0
  {
    match v
    case Leaf(_, _) => LeafOk(text, cs, v)
    case Container(start, end, kind, items) =>
      && !Before(cs, start)
      && start + 1 < end <= |text|
      && text[start] == kind.Open()
      && text[end - 1] == kind.Close()
      && if items == [] then NextToken(text, cs, start + 1) == end - 1
         else ItemsOk(text, cs, start + 1, kind, items, end)
  }

  /** The items after an opening bracket or comma at `p - 1`, up to and including the closing bracket at `end - 1`. */
  ghost predicate ItemsOk(text: string, cs: seq<Range>, p: nat, kind: Kind, items: seq<Item>, end: nat)
    requires items != []
    requires 0 < end <= |text|
    decreases items, 1
  {
    var start := NextToken(text, cs, p);
    var cs1 := After(cs, start);
    var cs2 := After(cs1, items[0].value.end);
    var sep := NextToken(text, cs2, items[0].value.end);
    var cs3 := After(cs2, sep);
    && ItemOk(text, cs1, start, kind, items[0])
    && if |items| > 1 then
         sep + 1 < end && text[sep] == ',' && ItemsOk(text, cs3, sep + 1, kind, items[1..], end)
       else if sep + 1 < end && text[sep] == ',' then
         NextToken(text, cs3, sep + 1) == end - 1
       else
         sep == end - 1
  }

  ghost predicate ItemOk(text: string, cs: seq<Range>, p: nat, kind: Kind, item: Item)
    decreases item, 2
  {
    match item
    case Element(value) =>
      kind.ArrayKind? && value.start == p && ValueOk(text, cs, value)
    case Member(key, value) =>
      && kind.ObjectKind?
      && key.start == p
      && LeafOk(text, cs, key)
      && IsString(text[key.start..key.end])
      && var colon := NextToken(text, cs, key.end);
         var cs1 := After(cs, colon);
         && colon < |text|
         && text[colon] == ':'
         && value.start == NextToken(text, cs1, colon + 1)
         && ValueOk(text, After(cs1, value.start), value)
  }

  /** What a successful parse guarantees. */
  ghost predicate InputOk(text: string, cs: seq<Range>, root: Value) {
    && CommentsOk(text, cs)
    && root.start == NextToken(text, cs, 0)
    && ValueOk(text, After(cs, root.start), root)
    && NextToken(text, After(After(cs, root.start), root.end), root.end) == |text|
  }

  // ----- inputs the formatter handles -----

  predicate CommentEndsWith(text: string, c: Range, ch: char) {
    c.start < c.end <= |text| && text[c.end - 1] == ch
  }

  /** Of the comments before the symbol `ch` at `q`, only the last one may end in the character `ch`. */
  predicate GapFits(text: string, cs: seq<Range>, q: nat, ch: char) {
    Before(cs, q) ==>
      if CommentEndsWith(text, cs[0], ch) then !Before(cs[1..], q) else GapFits(text, cs[1..], q, ch)
  }

  predicate ValueFits(text: string, cs: seq<Range>, v: Value)
    decreases v, 0
  {
    match v
    case Leaf(_, _) => true
    case Container(start, end, kind, items) => items == [] || ItemsFit(text, cs, start + 1, items, end)
  }

  predicate ItemsFit(text: string, cs: seq<Range>, p: nat, items: seq<Item>, end: nat)
    requires items != []
    decreases items, 1
  {
    var cs1 := After(cs, NextToken(text, cs, p));
    var cs2 := After(cs1, items[0].value.end);
    var sep := NextToken(text, cs2, items[0].value.end);
    && ItemFits(text, cs1, items[0])
    && (|items| > 1 || sep + 1 < end ==> GapFits(text, cs2, sep, ','))
    && (|items| > 1 ==> ItemsFit(text, After(cs2, sep), sep + 1, items[1..], end))
  }

  predicate ItemFits(text: string, cs: seq<Range>, item: Item)
    decreases item, 2
  {
    match item
    case Element(value) => ValueFits(text, cs, value)
    case Member(key, value) =>
      var colon := NextToken(text, cs, key.end);
      GapFits(text, cs, colon, ':') && ValueFits(text, After(After(cs, colon), value.start), value)
  }

  /** A container that contains a newline or a comment is laid out on several lines. */
  predicate Multiline(text: string, cs: seq<Range>, v: Value)
    requires v.start <= v.end <= |text|
  {
    Before(After(cs, v.start), v.end) || Contains(text, v.start, v.end, '\n')
  }

  /** The inputs on which formatting changes only whitespace. */
  predicate Fits(text: string, cs: seq<Range>, root: Value)
    requires root.start <= root.end <= |text|
  {
    if root.Leaf? then
      !Before(cs, root.start)
    else
      && !(cs != [] && cs[0].start == 0 && 1 < |text| && text[1] == '*')
      && (!Multiline(text, cs, root) ==> GapFits(text, cs, root.start, root.kind.Open()))
      && ValueFits(text, After(cs, root.start), root)
  }
}
