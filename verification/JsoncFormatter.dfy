/** The formatter as it runs: an object that walks the value tree once, taking comments off its map and appending to
    its writer. A method returns false where the original would panic. */
module JsoncFormatter {
  import opened Outcomes
  import opened JsoncText
  import opened JsoncLexer
  import opened JsoncTree
  import opened JsoncSpec
  import opened JsoncTheorem
  import opened JsoncLayout
  import opened JsoncLayoutTheorem

  lemma NothingToRender(w: string, after: nat, before: nat)
    ensures w == w + RenderRest([], after, before)
  {
  }

  lemma RenderRestAppend(w: string, lines: seq<string>, l: string, after: nat, before: nat)
    ensures w + RenderRest(lines + [l], after, before) == w + RenderRest(lines, after, before) + "\n" + Reindent(l, after, before)
  {
    assert (lines + [l])[..|lines|] == lines;
    assert w + (RenderRest(lines, after, before) + "\n" + Reindent(l, after, before))
        == w + RenderRest(lines, after, before) + "\n" + Reindent(l, after, before);
  }

  class Formatter {
    const text: string
    var comments: seq<Range>
    var out: string
    var level: nat
    var pos: nat
    var multiline: bool

    ghost function Now(): State
      reads this
    {
      State(comments, out, level, pos, multiline)
    }

    constructor (text: string, comments: seq<Range>)
      ensures this.text == text && Now() == State(comments, "", 0, 0, false)
    {
      this.text := text;
      this.comments := comments;
      out := "";
      level := 0;
      pos := 0;
      multiline := false;
    }

    method BlankLine(p: nat) returns (ok: bool)
      modifies this
      ensures var r := JsoncSpec.BlankLine(text, old(Now()), p); ok == r.Some? && (ok ==> Now() == r.value)
    {
      if !(pos <= p <= |text|) { return false; }
      var first := Find(text, pos, p, '\n');
      if first.None? { return true; }
      pos := first.value + 1;
      var second := Find(text, pos, p, '\n');
      if second.None? { return true; }
      pos := second.value + 1;
      out := out + "\n";
      return true;
    }

    method Indent(p: nat) returns (ok: bool)
      modifies this
      ensures var r := JsoncSpec.Indent(text, old(Now()), p); ok == r.Some? && (ok ==> Now() == r.value)
    {
      if pos == 0 { return true; }
      ok := BlankLine(p);
      if ok {
        out := out + "\n" + Blanks(level * INDENT_SIZE);
      }
    }

    /** A line of a block comment after the first, moved from column `before` to the current level. */
    method ReindentLine(line: string, before: nat) returns (w: string)
      ensures w == Reindent(line, level * INDENT_SIZE, before)
    {
      var after := level * INDENT_SIZE;
      if before <= after {
        return Blanks(after - before) + TrimEnd(line);
      }
      w := line;
      var delta: nat := before - after;
      while delta > 0 && w != "" && w[0] == ' '
        invariant StripUpTo(w, delta) == StripUpTo(line, before - after)
      {
        w := w[1..];
        delta := delta - 1;
      }
      w := TrimEnd(w);
    }

    /** The text of a block comment, line by line. */
    method RenderBlock(comment: string, before: nat) returns (w: string)
      ensures w == JsoncSpec.RenderBlock(comment, level * INDENT_SIZE, before)
    {
      hide Reindent, Lines, Trim, RenderRest;
      var lines := Lines(comment);
      ghost var after := level * INDENT_SIZE;
      w := Trim(lines[0]);
      NothingToRender(w, after, before);
      assert lines[1..1] == [];
      var i := 1;
      while i < |lines|
        invariant 1 <= i <= |lines|
        invariant w == Trim(lines[0]) + RenderRest(lines[1..i], after, before)
      {
        var line := ReindentLine(lines[i], before);
        RenderRestAppend(Trim(lines[0]), lines[1..i], lines[i], after, before);
        assert lines[1..i] + [lines[i]] == lines[1..i + 1];
        w := w + "\n" + line;
        i := i + 1;
      }
      assert lines[1..|lines|] == lines[1..];
    }

    method FormatLeadingComments(p: nat) returns (ok: bool)
      modifies this
      ensures var r := LeadingComments(text, old(Now()), p); ok == r.Some? && (ok ==> Now() == r.value)
    {
      hide JsoncSpec.Indent, JsoncSpec.RenderBlock, LastLineLength, TrimEnd;
      while Before(comments, p)
        invariant LeadingComments(text, Now(), p) == LeadingComments(text, old(Now()), p)
        decreases |comments|
      {
        var c := comments[0];
        ok := Indent(c.start);
        if !ok { return; }
        if !(c.start <= c.end <= |text|) { return false; }
        pos := c.start;
        var comment := text[c.start..c.end];
        if "//" <= comment {
          out := out + TrimEnd(comment);
        } else {
          if c.start == 0 { return false; }
          var w := RenderBlock(comment, LastLineLength(text[..c.start]));
          out := out + w;
        }
        comments := comments[1..];
        pos := c.end;
      }
      return true;
    }

    method FormatTrailingComments(p: nat) returns (ok: bool)
      modifies this
      ensures var r := TrailingComments(text, old(Now()), p); ok == r.Some? && (ok ==> Now() == r.value)
    {
      if pos == 0 { return true; }
      if pos > p { return false; }
      var i := FirstFrom(comments, pos);
      while i < |comments| && comments[i].start < p
        invariant i == FirstFrom(comments, pos) && 0 < pos
        invariant pos > p ==> TrailingComments(text, old(Now()), p) == None
        invariant pos <= p ==> TrailingComments(text, Now(), p) == TrailingComments(text, old(Now()), p)
        decreases |comments|
      {
        if pos > p { return false; }
        var c := comments[i];
        if !(c.start <= c.end <= |text|) { return false; }
        if Contains(text, pos, c.end, '\n') { return true; }
        out := out + " " + TrimEnd(text[c.start..c.end]);
        comments := comments[..i] + comments[i + 1..];
        pos := c.end;
        i := FirstFrom(comments, pos);
      }
      return pos <= p;
    }

    method FormatComments(p: nat) returns (ok: bool)
      modifies this
      ensures var r := Comments(text, old(Now()), p); ok == r.Some? && (ok ==> Now() == r.value)
    {
      ok := FormatTrailingComments(p);
      if ok {
        ok := FormatLeadingComments(p);
      }
    }

    method HasTrailingComma(end: nat) returns (found: bool)
      requires pos <= end <= |text|
      ensures found == HasComma(text, comments, pos, end)
    {
      var i := Find(text, pos, end, ',');
      while i.Some? && Covered(comments, i.value)
        invariant i.Some? ==> pos <= i.value < end && text[i.value] == ','
        invariant HasComma(text, comments, pos, end)
               == (i.Some? && (!Covered(comments, i.value) || HasComma(text, comments, i.value + 1, end)))
        decreases if i.Some? then end - i.value else 0
      {
        i := Find(text, i.value + 1, end, ',');
      }
      return i.Some?;
    }

    /** The position after the symbol `ch`. */
    method SearchSymbol(ch: char) returns (r: Option<nat>)
      requires pos <= |text|
      ensures r == FindSymbol(text, comments, pos, ch)
    {
      var hit := Find(text, pos, |text|, ch);
      if hit.None? { return None; }
      var p := hit.value + 1;
      while Covered(comments, p)
        invariant 0 < p <= |text|
        invariant FindSymbol(text, comments, pos, ch)
               == if Covered(comments, p) then FindSymbol(text, comments, p, ch) else Some(p)
        decreases |text| - p
      {
        hit := Find(text, p, |text|, ch);
        if hit.None? { return None; }
        p := hit.value + 1;
      }
      return Some(p);
    }

    method FormatSymbol(ch: char) returns (ok: bool)
      modifies this
      ensures var r := PutSymbol(text, old(Now()), ch); ok == r.Some? && (ok ==> Now() == r.value)
    {
      hide Comments, JsoncSpec.Indent, FindSymbol;
      if pos > |text| { return false; }
      var p := SearchSymbol(ch);
      if p.None? { return false; }
      if (multiline && IsClose(ch)) || Before(comments, p.value) {
        ok := FormatComments(p.value);
        if !ok { return; }
        if IsClose(ch) {
          pos := p.value - 1;
        }
        ok := Indent(p.value);
        if !ok { return; }
      }
      out := out + [ch];
      pos := p.value;
      return true;
    }

    method FormatValue(v: Value) returns (ok: bool)
      modifies this
      ensures var r := PutValue(text, old(Now()), v); ok == r.Some? && (ok ==> Now() == r.value)
      decreases v, 3
    {
      if multiline {
        ok := FormatComments(v.start);
        if !ok { return; }
        ok := Indent(v.start);
        if !ok { return; }
      }
      ok := FormatContent(v);
    }

    method FormatMemberValue(v: Value) returns (ok: bool)
      modifies this
      ensures var r := PutMemberValue(text, old(Now()), v); ok == r.Some? && (ok ==> Now() == r.value)
      decreases v, 3
    {
      if Before(comments, v.start) {
        ok := FormatComments(v.start);
        if !ok { return; }
        ok := Indent(v.start);
        if !ok { return; }
      } else {
        out := out + " ";
      }
      ok := FormatContent(v);
    }

    method FormatContent(v: Value) returns (ok: bool)
      modifies this
      ensures var r := PutContent(text, old(Now()), v); ok == r.Some? && (ok ==> Now() == r.value)
      decreases v, 2
    {
      if !(v.start <= v.end <= |text|) { return false; }
      if v.Leaf? {
        out := out + text[v.start..v.end];
      } else {
        ok := FormatContainer(v);
        if !ok { return; }
      }
      pos := v.end;
      return true;
    }

    /** Arrays and objects are written by the same steps, up to the brackets and the keys. */
    method FormatContainer(v: Value) returns (ok: bool)
      requires v.Container? && v.start <= v.end <= |text|
      modifies this
      ensures var r := PutContainer(text, old(Now()), v); ok == r.Some? && (ok ==> Now() == r.value)
      decreases v, 1
    {
      var outer := multiline;
      ok := FormatSymbol(v.kind.Open());
      if ok {
        ok := FormatBody(v, outer);
      }
    }

    method FormatBody(v: Value, outer: bool) returns (ok: bool)
      requires v.Container? && v.start <= v.end <= |text|
      modifies this
      ensures var r := PutBody(text, old(Now()), v, outer); ok == r.Some? && (ok ==> Now() == r.value)
      decreases v, 0, 1
    {
      hide PutInside, JsoncTree.Multiline;
      multiline := Multiline(text, comments, v);
      level := level + 1;
      ok := FormatInside(v);
      if ok {
        multiline := outer;
      }
    }

    method FormatInside(v: Value) returns (ok: bool)
      requires v.Container? && v.end <= |text|
      modifies this
      ensures var r := PutInside(text, old(Now()), v); ok == r.Some? && (ok ==> Now() == r.value)
      decreases v, 0, 0
    {
      hide PutItems, PutTail;
      ok := FormatItems(v.items);
      if ok {
        ok := FormatTail(v.kind, v.end);
      }
    }

    method FormatItems(items: seq<Item>) returns (ok: bool)
      modifies this
      ensures var r := PutItems(text, old(Now()), items, true); ok == r.Some? && (ok ==> Now() == r.value)
      decreases items, 4
    {
      hide *;
      var i := 0;
      assert items[0..] == items;
      ghost var r := PutItems(text, Now(), items, true);
      while i < |items|
        invariant 0 <= i <= |items|
        invariant r == PutItems(text, Now(), items[i..], i == 0)
      {
        PutItemsFrom(text, Now(), items, i);
        ok := FormatNext(items[i], i == 0);
        if !ok { return; }
        i := i + 1;
      }
      PutItemsFrom(text, Now(), items, i);
      return true;
    }

    method FormatNext(item: Item, first: bool) returns (ok: bool)
      modifies this
      ensures var r := PutNext(text, old(Now()), item, first); ok == r.Some? && (ok ==> Now() == r.value)
      decreases item, 4
    {
      hide PutItem, PutComma;
      if !first {
        ok := FormatComma();
        if !ok { return; }
      }
      ok := FormatItem(item);
    }

    method FormatComma() returns (ok: bool)
      modifies this
      ensures var r := PutComma(text, old(Now())); ok == r.Some? && (ok ==> Now() == r.value)
    {
      ok := FormatSymbol(',');
      if ok && !multiline {
        out := out + " ";
      }
    }

    method FormatTail(kind: Kind, end: nat) returns (ok: bool)
      requires end <= |text|
      modifies this
      ensures var r := PutTail(text, old(Now()), kind, end); ok == r.Some? && (ok ==> Now() == r.value)
    {
      if pos > end { return false; }
      var comma := HasTrailingComma(end);
      if comma {
        ok := FormatSymbol(',');
        if !ok { return; }
      }
      ok := FormatClose(kind, end);
    }

    method FormatClose(kind: Kind, end: nat) returns (ok: bool)
      modifies this
      ensures var r := PutClose(text, old(Now()), kind, end); ok == r.Some? && (ok ==> Now() == r.value)
    {
      hide PutSymbol, Comments;
      ok := FormatComments(end);
      if !ok { return; }
      if level == 0 { return false; }
      level := level - 1;
      ok := FormatSymbol(kind.Close());
    }

    method FormatItem(item: Item) returns (ok: bool)
      modifies this
      ensures var r := PutItem(text, old(Now()), item); ok == r.Some? && (ok ==> Now() == r.value)
      decreases item, 3
    {
      match item
      case Element(value) =>
        ok := FormatValue(value);
      case Member(key, value) =>
        ok := FormatValue(key);
        if !ok { return; }
        ok := FormatSymbol(':');
        if !ok { return; }
        ok := FormatMemberValue(value);
    }
  }

  /** `format_jsonc` after a successful parse: the returned text has the tokens and comments of the input, in the same
      order, exactly on the inputs that fit, and on these it is laid out as their pieces say. */
  method FormatJsonc(text: string, comments: seq<Range>, root: Value) returns (r: Option<string>)
    requires InputOk(text, comments, root)
    ensures root.start <= root.end <= |text|
    ensures r == Format(text, comments, root)
    ensures r.Some? && Lex(text).Some? && Lex(r.value) == Lex(text) <==> Fits(text, comments, root)
    ensures Fits(text, comments, root) ==> r.Some? && LaidOut(r.value, Pieces(text, comments, root))
  {
    FormatChangesOnlyWhitespace(text, comments, root);
    FormatLaysOut(text, comments, root);
    var f := new Formatter(text, comments);
    f.multiline := Multiline(text, comments, root);
    var ok := f.FormatValue(root);
    if !ok { return None; }
    ok := f.FormatComments(|text|);
    if !ok { return None; }
    f.out := f.out + "\n";
    return Some(f.out);
  }
}
