/** The formatter as a function from state to state. `None` is a panic: a failed `expect`, a slice or a map range
    with its bounds out of order or outside the text. */
module JsoncSpec {
  import opened Outcomes
  import opened JsoncText
  import opened JsoncTree

  const INDENT_SIZE: nat := 2

  datatype State = State(pending: seq<Range>, out: string, level: nat, pos: nat, multiline: bool)

  // ----- the ordered map of pending comments -----

  /** The last comment that starts before `p`. */
  function LastBefore(cs: seq<Range>, p: nat): (r: Option<Range>)
  {
    if !Before(cs, p) then None
    else
      var r := LastBefore(cs[1..], p);
      if r.Some? then r else Some(cs[0])
  }

  /** The index of the first comment that starts at `p` or later. */
  function FirstFrom(cs: seq<Range>, p: nat): (r: nat)
    ensures r <= |cs|
    ensures r < |cs| ==> p <= cs[r].start
  {
    if Before(cs, p) then 1 + FirstFrom(cs[1..], p) else 0
  }

  /** Some pending comment starts before `p` and ends after it. */
  predicate Covered(cs: seq<Range>, p: nat) {
    var c := LastBefore(cs, p);
    c.Some? && p < c.value.end
  }

  /** The position after the symbol `ch`: `format_symbol`'s search, which tests the position one past each hit. */
  function FindSymbol(text: string, cs: seq<Range>, p: nat, ch: char): (r: Option<nat>)
    requires p <= |text|
    ensures r.Some? ==> p < r.value <= |text| && text[r.value - 1] == ch
    decreases |text| - p
  {
    var i :- Find(text, p, |text|, ch);
    if Covered(cs, i + 1) then FindSymbol(text, cs, i + 1, ch) else Some(i + 1)
  }

  /** Some comma in `text[p..end]` lies outside the pending comments. */
  function HasComma(text: string, cs: seq<Range>, p: nat, end: nat): bool
    requires p <= end <= |text|
    decreases end - p
  {
    var i := Find(text, p, end, ',');
    i.Some? && (!Covered(cs, i.value) || HasComma(text, cs, i.value + 1, end))
  }

  // ----- whitespace -----

  function BlankLine(text: string, s: State, p: nat): (r: Option<State>)
    ensures r.Some? ==> s.out <= r.value.out && r.value.level == s.level && r.value.multiline == s.multiline && r.value.pending == s.pending
  {
    if !(s.pos <= p <= |text|) then None
    else
      var first := Find(text, s.pos, p, '\n');
      if first.None? then Some(s)
      else
        var second := Find(text, first.value + 1, p, '\n');
        if second.None? then Some(s.(pos := first.value + 1))
        else Some(s.(pos := second.value + 1, out := s.out + "\n"))
  }

  function Indent(text: string, s: State, p: nat): (r: Option<State>)
    ensures r.Some? ==> s.out <= r.value.out && r.value.level == s.level && r.value.multiline == s.multiline && r.value.pending == s.pending
  {
    if s.pos == 0 then Some(s)
    else
      var s1 :- BlankLine(text, s, p);
      Some(s1.(out := s1.out + "\n" + Blanks(s1.level * INDENT_SIZE)))
  }

  // ----- comments -----

  /** One line of a block comment after the first, moved from column `before` to column `after`. */
  function Reindent(line: string, after: nat, before: nat): string {
    if before <= after then Blanks(after - before) + TrimEnd(line)
    else TrimEnd(StripUpTo(line, before - after))
  }

  function RenderRest(lines: seq<string>, after: nat, before: nat): string {
    if lines == [] then ""
    else RenderRest(lines[..|lines| - 1], after, before) + "\n" + Reindent(lines[|lines| - 1], after, before)
  }

  function RenderBlock(comment: string, after: nat, before: nat): string {
    var lines := Lines(comment);
    Trim(lines[0]) + RenderRest(lines[1..], after, before)
  }

  /** A comment on lines of its own; the block form needs a line before it to measure. */
  function LeadingText(text: string, c: Range, level: nat): Option<string> {
    if !(c.start <= c.end <= |text|) then None
    else
      var comment := text[c.start..c.end];
      if "//" <= comment then Some(TrimEnd(comment))
      else if c.start == 0 then None
      else Some(RenderBlock(comment, level * INDENT_SIZE, LastLineLength(text[..c.start])))
  }

  function LeadingComments(text: string, s: State, p: nat): (r: Option<State>)
    ensures r.Some? ==> s.out <= r.value.out && r.value.level == s.level && r.value.multiline == s.multiline
    decreases |s.pending|
  {
    if !Before(s.pending, p) then Some(s)
    else
      var c := s.pending[0];
      var s1 :- Indent(text, s, c.start);
      var comment :- LeadingText(text, c, s.level);
      LeadingComments(text, s1.(pending := s.pending[1..], out := s1.out + comment, pos := c.end), p)
  }

  function TrailingComments(text: string, s: State, p: nat): (r: Option<State>)
    ensures r.Some? ==> s.out <= r.value.out && r.value.level == s.level && r.value.multiline == s.multiline
    decreases |s.pending|
  {
    if s.pos == 0 then Some(s)
    else if s.pos > p then None
    else
      var i := FirstFrom(s.pending, s.pos);
      if i == |s.pending| || s.pending[i].start >= p then Some(s)
      else
        var c := s.pending[i];
        if !(c.start <= c.end <= |text|) then None
        else if Contains(text, s.pos, c.end, '\n') then Some(s)
        else
          var s1 := s.(pending := s.pending[..i] + s.pending[i + 1..],
                       out := s.out + " " + TrimEnd(text[c.start..c.end]),
                       pos := c.end);
          TrailingComments(text, s1, p)
  }

  function Comments(text: string, s: State, p: nat): (r: Option<State>)
    ensures r.Some? ==> s.out <= r.value.out && r.value.level == s.level && r.value.multiline == s.multiline
  {
    var s1 :- TrailingComments(text, s, p);
    LeadingComments(text, s1, p)
  }

  // ----- symbols and values -----

  predicate IsClose(ch: char) {
    ch == ']' || ch == '}'
  }

  function PutSymbol(text: string, s: State, ch: char): (r: Option<State>)
    ensures r.Some? ==> s.out <= r.value.out && r.value.level == s.level && r.value.multiline == s.multiline
  {
    if s.pos > |text| then None
    else
      var p :- FindSymbol(text, s.pending, s.pos, ch);
      var s1 :-
        if (s.multiline && IsClose(ch)) || Before(s.pending, p) then
          var s2 :- Comments(text, s, p);
          Indent(text, if IsClose(ch) then s2.(pos := p - 1) else s2, p)
        else
          Some(s);
      Some(s1.(out := s1.out + [ch], pos := p))
  }

  function PutValue(text: string, s: State, v: Value): (r: Option<State>)
    ensures r.Some? ==> s.out <= r.value.out && r.value.level == s.level && r.value.multiline == s.multiline
    decreases v, 3
  {
    if s.multiline then
      var s1 :- Comments(text, s, v.start);
      var s2 :- Indent(text, s1, v.start);
      PutContent(text, s2, v)
    else
      PutContent(text, s, v)
  }

  function PutMemberValue(text: string, s: State, v: Value): (r: Option<State>)
    ensures r.Some? ==> s.out <= r.value.out && r.value.level == s.level && r.value.multiline == s.multiline
    decreases v, 3
  {
    if Before(s.pending, v.start) then
      var s1 :- Comments(text, s, v.start);
      var s2 :- Indent(text, s1, v.start);
      PutContent(text, s2, v)
    else
      PutContent(text, s.(out := s.out + " "), v)
  }

  function PutContent(text: string, s: State, v: Value): (r: Option<State>)
    ensures r.Some? ==> s.out <= r.value.out && r.value.level == s.level && r.value.multiline == s.multiline
    decreases v, 2
  {
    if !(v.start <= v.end <= |text|) then None
    else
      match v
      case Leaf(start, end) => Some(s.(out := s.out + text[start..end], pos := end))
      case Container(_, end, _, _) =>
        var s1 :- PutContainer(text, s, v);
        Some(s1.(pos := end))
  }

  function PutContainer(text: string, s: State, v: Value): (r: Option<State>)
    requires v.Container? && v.start <= v.end <= |text|
    ensures r.Some? ==> s.out <= r.value.out && r.value.level == s.level && r.value.multiline == s.multiline
    decreases v, 1
  {
    var s1 :- PutSymbol(text, s, v.kind.Open());
    PutBody(text, s1, v, s.multiline)
  }

  /** One level deeper, in the layout the container's own contents ask for. */
  function PutBody(text: string, s: State, v: Value, outer: bool): (r: Option<State>)
    requires v.Container? && v.start <= v.end <= |text|
    ensures r.Some? ==> s.out <= r.value.out && r.value.level == s.level && r.value.multiline == outer
    decreases v, 0, 1
  {
    var s1 :- PutInside(text, s.(level := s.level + 1, multiline := Multiline(text, s.pending, v)), v);
    Some(s1.(multiline := outer))
  }

  /** The items of a container and its closing bracket. */
  function PutInside(text: string, s: State, v: Value): (r: Option<State>)
    requires v.Container? && v.end <= |text|
    ensures r.Some? ==> s.out <= r.value.out && r.value.level + 1 == s.level && r.value.multiline == s.multiline
    decreases v, 0, 0
  {
    var s1 :- PutItems(text, s, v.items, true);
    PutTail(text, s1, v.kind, v.end)
  }

  /** The trailing comma, the comments after it and the closing bracket. */
  function PutTail(text: string, s: State, kind: Kind, end: nat): (r: Option<State>)
    requires end <= |text|
    ensures r.Some? ==> s.out <= r.value.out && r.value.level + 1 == s.level && r.value.multiline == s.multiline
  {
    if s.pos > end then None
    else if HasComma(text, s.pending, s.pos, end) then
      var s1 :- PutSymbol(text, s, ',');
      PutClose(text, s1, kind, end)
    else
      PutClose(text, s, kind, end)
  }

  function PutClose(text: string, s: State, kind: Kind, end: nat): (r: Option<State>)
    ensures r.Some? ==> s.out <= r.value.out && r.value.level + 1 == s.level && r.value.multiline == s.multiline
  {
    var s1 :- Comments(text, s, end);
    if s1.level == 0 then None else PutSymbol(text, s1.(level := s1.level - 1), kind.Close())
  }

  /** `,` and, on a single line, a blank. */
  function PutComma(text: string, s: State): (r: Option<State>)
    ensures r.Some? ==> s.out <= r.value.out && r.value.level == s.level && r.value.multiline == s.multiline
  {
    var s1 :- PutSymbol(text, s, ',');
    Some(if s1.multiline then s1 else s1.(out := s1.out + " "))
  }

  function PutItems(text: string, s: State, items: seq<Item>, first: bool): (r: Option<State>)
    ensures r.Some? ==> s.out <= r.value.out && r.value.level == s.level && r.value.multiline == s.multiline
    decreases items, 4
  {
    if items == [] then Some(s)
    else
      var s1 :- if first then Some(s) else PutComma(text, s);
      var s2 :- PutItem(text, s1, items[0]);
      PutItems(text, s2, items[1..], false)
  }

  /** One item, with the comma before it unless it is the first. */
  function PutNext(text: string, s: State, item: Item, first: bool): Option<State> {
    var s1 :- if first then Some(s) else PutComma(text, s);
    PutItem(text, s1, item)
  }

  /** The items from `i` on are the one at `i` and those behind it. */
  lemma PutItemsFrom(text: string, s: State, items: seq<Item>, i: nat)
    requires i <= |items|
    ensures PutItems(text, s, items[i..], i == 0)
         == if i == |items| then Some(s)
            else
              var r := PutNext(text, s, items[i], i == 0);
              if r.None? then None else PutItems(text, r.value, items[i + 1..], false)
  {
    if i < |items| {
      assert items[i..][1..] == items[i + 1..];
    }
  }

  function PutItem(text: string, s: State, item: Item): (r: Option<State>)
    ensures r.Some? ==> s.out <= r.value.out && r.value.level == s.level && r.value.multiline == s.multiline
    decreases item, 3
  {
    match item
    case Element(value) => PutValue(text, s, value)
    case Member(key, value) =>
      var s1 :- PutValue(text, s, key);
      var s2 :- PutSymbol(text, s1, ':');
      PutMemberValue(text, s2, value)
  }

  /** `format_jsonc` after a successful parse. */
  function Format(text: string, cs: seq<Range>, root: Value): Option<string>
    requires root.start <= root.end <= |text|
  {
    var s0 := State(cs, "", 0, 0, Multiline(text, cs, root));
    var s1 :- PutValue(text, s0, root);
    var s2 :- Comments(text, s1, |text|);
    Some(s2.out + "\n")
  }
}
