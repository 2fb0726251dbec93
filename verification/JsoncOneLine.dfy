/** A container that contains neither a newline nor a comment is written on one line: its items with a comma and a blank
    between them, inside brackets, and members with a colon and a blank. */
module JsoncOneLine {
  import opened Outcomes
  import opened JsoncText
  import opened JsoncTree
  import opened JsoncGaps
  import opened JsoncSymbols
  import opened JsoncOutcome
  import opened JsoncTheorem
  import opened JsoncSpec
  import opened JsoncLayout
  import opened JsoncLayoutTheorem
  import opened JsoncLayoutFacts

  // ----- the line -----

  ghost function OneLine(text: string, cs: seq<Range>, v: Value): string
    decreases v, 1
  {
    match v
    case Leaf(start, end) => Slice(text, start, end)
    case Container(_, end, kind, items) =>
      [kind.Open()] + (if items == [] then "" else ItemsLine(text, cs, items, end)) + [kind.Close()]
  }

  /** A comma behind the last item is kept. */
  ghost function ItemsLine(text: string, cs: seq<Range>, items: seq<Item>, end: nat): string
    requires items != []
    decreases items, 1
  {
    ItemLine(text, cs, items[0])
    + if |items| > 1 then ", " + ItemsLine(text, cs, items[1..], end)
      else if NextToken(text, cs, items[0].value.end) + 1 < end then ","
      else ""
  }

  ghost function ItemLine(text: string, cs: seq<Range>, item: Item): string
    decreases item, 2
  {
    match item
    case Element(value) => OneLine(text, cs, value)
    case Member(key, value) => Slice(text, key.start, key.end) + (": " + OneLine(text, cs, value))
  }

  // ----- where things lie -----

  /** Where things lie among the items. */
  lemma ItemsLie(text: string, cs: seq<Range>, p: nat, kind: Kind, items: seq<Item>, end: nat)
    requires CommentsOk(text, cs) && !Before(cs, end) && items != [] && 1 < end <= |text| && p <= end
    requires ItemsOk(text, cs, p, kind, items, end)
    ensures var start, e := NextToken(text, cs, p), items[0].value.end;
            && p <= start < e < end && After(cs, start) == cs && After(cs, e) == cs
            && ItemOk(text, cs, start, kind, items[0])
            && var sep := NextToken(text, cs, e);
               && e <= sep < end && After(cs, sep) == cs
               && (|items| > 1 ==> sep + 1 < end && ItemsOk(text, cs, sep + 1, kind, items[1..], end))
  {
    var start, e := NextToken(text, cs, p), items[0].value.end;
    LaterBefore(cs, p, end);
    NextTokenGap(text, cs, p);
    var cs1 := After(cs, start);
    AfterOk(text, cs, start);
    ItemSpan(text, cs1, start, kind, items[0]);
    var cs2 := After(cs1, e);
    AfterOk(text, cs1, e);
    NextTokenGap(text, cs2, e);
    hide NextToken, ItemOk, CommentsOk, GapOk;
    var sep := NextToken(text, cs2, e);
    assert sep < end;
    LaterBefore(cs, start, end);
    LaterBefore(cs, e, end);
    LaterBefore(cs, sep, end);
  }

  lemma NoNewlineWithin(text: string, a: nat, b: nat, c: nat, d: nat)
    requires !HasNewline(text, a, d) && a <= b && c <= d <= |text|
    ensures !HasNewline(text, b, c)
  {
  }

  lemma KeyIs(text: string, cs: seq<Range>, start: nat, kind: Kind, item: Item, depth: nat, lead: Lead)
    requires item.Member? && ItemOk(text, cs, start, kind, item)
    ensures item.key.start == start && ItemOk(text, cs, start, ObjectKind, item)
    ensures ItemPieces(text, cs, item, depth, lead)
            == [Piece(lead, Slice(text, item.key.start, item.key.end))] + MemberPieces(text, cs, item.key.end, item.value, depth)
  {
    hide MemberPieces, NextToken, ValueOk, After;
  }

  lemma ColonLies(text: string, cs: seq<Range>, key: Value, value: Value, end: nat)
    requires CommentsOk(text, cs) && !Before(cs, end) && value.end < end <= |text|
    requires ItemOk(text, cs, key.start, ObjectKind, Member(key, value))
    ensures var colon := NextToken(text, cs, key.end);
            && key.start < key.end <= colon < value.start < value.end
            && !Before(cs, colon) && !Before(cs, value.start) && !Before(cs, value.end)
            && After(cs, colon) == cs && After(cs, value.start) == cs && ValueOk(text, cs, value)
  {
    hide *;
    var colon := NextToken(text, cs, key.end);
    MemberMeans(text, cs, key, value);
    ColonSpan(text, cs, key.end, value.start);
    AfterOk(text, cs, colon);
    AfterOk(text, After(cs, colon), value.start);
    ValueSpan(text, After(After(cs, colon), value.start), value);
    NoneBefore(cs, colon, end);
    NoneBefore(cs, value.start, end);
    NoneBefore(cs, value.end, end);
  }

  lemma NoneBefore(cs: seq<Range>, p: nat, end: nat)
    requires p <= end && !Before(cs, end)
    ensures !Before(cs, p) && After(cs, p) == cs
  {
  }

  lemma MemberMeans(text: string, cs: seq<Range>, key: Value, value: Value)
    requires ItemOk(text, cs, key.start, ObjectKind, Member(key, value))
    ensures key.start < key.end <= |text| && !Before(cs, key.end)
    ensures var colon := NextToken(text, cs, key.end);
            && colon < |text| && text[colon] == ':' && value.start == NextToken(text, After(cs, colon), colon + 1)
            && ValueOk(text, After(After(cs, colon), value.start), value)
  {
    hide NextToken, ValueOk, After;
  }

  lemma NoComments(text: string, cs: seq<Range>, from: nat, q: nat, ch: char, depth: nat)
    requires !Before(cs, q)
    ensures SymbolPieces(text, cs, from, q, ch, depth) == [Piece(Glued, [ch])]
    ensures CommentPieces(text, cs, from, q, depth, true) == []
  {
  }

  // ----- the pieces are the line -----

  lemma FlattenSymbol(ch: char)
    ensures Flatten([Piece(Glued, [ch])]) == [ch]
  {
    FlattenOne(Piece(Glued, [ch]));
  }

  /** Whatever stands before it, a container with neither a newline nor a comment is its line, nested ones included; and
      there is no newline in it. */
  lemma {:induction false} ValueOneLine(text: string, cs: seq<Range>, v: Value, depth: nat, lead: Lead)
    requires CommentsOk(text, cs) && ValueOk(text, cs, v) && !Before(cs, v.end) && !HasNewline(text, v.start, v.end)
    ensures Flatten(ValuePieces(text, cs, v, depth, lead)) == LeadText(lead) + OneLine(text, cs, v)
    ensures NoNewline(OneLine(text, cs, v))
    decreases v, 2
  {
    hide *;
    if v.Leaf? {
      LeafIsLine(text, cs, v, depth, lead);
    } else {
      BracketsLie(text, cs, v);
      var from := v.start + 1;
      if v.items == [] {
        TailOneLine(text, cs, from, from, v.kind, v.end, depth);
        GluedFirst("", [v.kind.Close()]);
      } else {
        NoNewlineWithin(text, v.start, from, v.end, v.end);
        ItemsOneLine(text, cs, from, from, v.kind, v.items, v.end, depth, Glued);
        GluedFirst(ItemsLine(text, cs, v.items, v.end), [v.kind.Close()]);
      }
      Bracketed(text, cs, v, depth, lead);
    }
  }

  lemma LeafIsLine(text: string, cs: seq<Range>, v: Value, depth: nat, lead: Lead)
    requires ValueOk(text, cs, v) && v.Leaf?
    ensures Flatten(ValuePieces(text, cs, v, depth, lead)) == LeadText(lead) + OneLine(text, cs, v)
    ensures NoNewline(OneLine(text, cs, v))
  {
    FlattenOne(Piece(lead, Slice(text, v.start, v.end)));
    hide LeadText, Flatten;
  }

  lemma BracketsLie(text: string, cs: seq<Range>, v: Value)
    requires v.Container? && ValueOk(text, cs, v) && !Before(cs, v.end)
    ensures v.start + 1 < v.end <= |text| && After(cs, v.start) == cs
    ensures if v.items == [] then NextToken(text, cs, v.start + 1) == v.end - 1
            else ItemsOk(text, cs, v.start + 1, v.kind, v.items, v.end)
  {
    hide NextToken, ItemsOk;
  }

  lemma Bracketed(text: string, cs: seq<Range>, v: Value, depth: nat, lead: Lead)
    requires v.Container? && After(cs, v.start) == cs && !Before(cs, v.end) && !HasNewline(text, v.start, v.end)
    requires var from := v.start + 1;
             if v.items == [] then Flatten(TailPieces(text, cs, from, from, v.kind, v.end, depth, false)) == [v.kind.Close()]
             else
               && NoNewline(ItemsLine(text, cs, v.items, v.end))
               && Flatten(ItemsPieces(text, cs, from, from, v.kind, v.items, v.end, depth, false, Glued))
                  == ItemsLine(text, cs, v.items, v.end) + [v.kind.Close()]
    ensures Flatten(ValuePieces(text, cs, v, depth, lead)) == LeadText(lead) + OneLine(text, cs, v)
    ensures NoNewline(OneLine(text, cs, v))
  {
    hide *;
    var open, inside := [v.kind.Open()], InsidePieces(text, cs, v, depth);
    var line := if v.items == [] then "" else ItemsLine(text, cs, v.items, v.end);
    InsideIs(text, cs, v, depth, lead);
    GluedFirst(line, [v.kind.Close()]);
    FlattenOne(Piece(lead, open));
    TextIs(Piece(lead, open));
    FlattenConcat([Piece(lead, open)], inside);
    BracketsAround(LeadText(lead), open, line, [v.kind.Close()]);
    BracketLine(text, cs, v);
  }

  lemma GluedFirst(line: string, close: string)
    ensures (LeadText(Glued) + line) + close == line + close && "" + close == close
  {
  }

  lemma TextIs(p: Piece)
    ensures Text(p) == LeadText(p.lead) + p.written
  {
  }

  lemma BracketsAround(lead: string, open: string, line: string, close: string)
    ensures (lead + open) + (line + close) == lead + (open + line + close)
  {
  }

  lemma InsideIs(text: string, cs: seq<Range>, v: Value, depth: nat, lead: Lead)
    requires v.Container? && After(cs, v.start) == cs && !Before(cs, v.end) && !HasNewline(text, v.start, v.end)
    ensures var from := v.start + 1;
            InsidePieces(text, cs, v, depth)
            == if v.items == [] then TailPieces(text, cs, from, from, v.kind, v.end, depth, false)
               else ItemsPieces(text, cs, from, from, v.kind, v.items, v.end, depth, false, Glued)
    ensures ValuePieces(text, cs, v, depth, lead) == [Piece(lead, [v.kind.Open()])] + InsidePieces(text, cs, v, depth)
  {
    hide TailPieces, ItemsPieces, HasNewline;
  }

  lemma BracketLine(text: string, cs: seq<Range>, v: Value)
    requires v.Container? && (v.items != [] ==> NoNewline(ItemsLine(text, cs, v.items, v.end)))
    ensures OneLine(text, cs, v)
            == [v.kind.Open()] + (if v.items == [] then "" else ItemsLine(text, cs, v.items, v.end)) + [v.kind.Close()]
    ensures NoNewline(OneLine(text, cs, v))
  {
    hide ItemsLine;
  }

  lemma TailOneLine(text: string, cs: seq<Range>, from: nat, p: nat, kind: Kind, end: nat, depth: nat)
    requires !Before(cs, end) && NextToken(text, cs, p) < end
    ensures Flatten(TailPieces(text, cs, from, p, kind, end, depth, false))
            == (if NextToken(text, cs, p) + 1 < end then "," else "") + [kind.Close()]
  {
    hide *;
    var sep := NextToken(text, cs, p);
    NoneBefore(cs, sep, end);
    CloseOneLine(text, cs, from, kind, end, depth);
    CloseOneLine(text, cs, Resume(text, cs, sep, ','), kind, end, depth);
    NoComments(text, cs, from, sep, ',', depth + 1);
    TailIs(text, cs, from, p, kind, end, depth);
    FlattenSymbol(',');
    FlattenSymbol(kind.Close());
    FlattenConcat([Piece(Glued, [','])], [Piece(Glued, [kind.Close()])]);
  }

  lemma CloseOneLine(text: string, cs: seq<Range>, from: nat, kind: Kind, end: nat, depth: nat)
    requires !Before(cs, end) && end > 0
    ensures ClosePieces(text, cs, from, kind, end, depth, false) == [Piece(Glued, [kind.Close()])]
  {
  }

  lemma TailIs(text: string, cs: seq<Range>, from: nat, p: nat, kind: Kind, end: nat, depth: nat)
    ensures var sep := NextToken(text, cs, p);
            TailPieces(text, cs, from, p, kind, end, depth, false)
            == if sep + 1 < end then
                 SymbolPieces(text, cs, from, sep, ',', depth + 1)
                 + ClosePieces(text, After(cs, sep), Resume(text, cs, sep, ','), kind, end, depth, false)
               else ClosePieces(text, cs, from, kind, end, depth, false)
  {
    hide SymbolPieces, ClosePieces, NextToken, After, Resume;
  }

  lemma {:induction false} ItemsOneLine(text: string, cs: seq<Range>, from: nat, p: nat, kind: Kind, items: seq<Item>, end: nat,
      depth: nat, first: Lead)
    requires CommentsOk(text, cs) && !Before(cs, end) && items != [] && 1 < end <= |text| && p <= end
    requires ItemsOk(text, cs, p, kind, items, end) && !HasNewline(text, p, end)
    ensures Flatten(ItemsPieces(text, cs, from, p, kind, items, end, depth, false, first))
            == LeadText(first) + ItemsLine(text, cs, items, end) + [kind.Close()]
    ensures NoNewline(ItemsLine(text, cs, items, end))
    decreases items, 1
  {
    hide *;
    ItemsLie(text, cs, p, kind, items, end);
    var start, e := NextToken(text, cs, p), items[0].value.end;
    var sep := NextToken(text, cs, e);
    NoNewlineWithin(text, p, start, end, end);
    ItemOneLine(text, cs, start, kind, items[0], end, depth + 1, first);
    OnlyItem(text, cs, from, p, items[0], depth + 1, first);
    var line := LinePieces(text, cs, from, start, items[0], depth + 1, false, first);
    NoneBefore(cs, sep, end);
    if |items| > 1 {
      var q := Resume(text, cs, sep, ',');
      NoNewlineWithin(text, p, sep + 1, end, end);
      ItemsOneLine(text, cs, q, sep + 1, kind, items[1..], end, depth, Spaced);
      NoComments(text, cs, e, sep, ',', depth + 1);
      LaterPieces(text, cs, from, p, kind, items, end, depth, false, first);
      var more := ItemsPieces(text, cs, q, sep + 1, kind, items[1..], end, depth, false, Spaced);
      FlattenSymbol(',');
      FlattenConcat([Piece(Glued, [','])], more);
      FlattenConcat(line, [Piece(Glued, [','])] + more);
      MoreLine(text, cs, items, end);
      CommaJoins(LeadText(first), ItemLine(text, cs, items[0]), ItemsLine(text, cs, items[1..], end), [kind.Close()]);
    } else {
      LastRest(text, cs, from, p, kind, items, end, depth, false, first);
      TailOneLine(text, cs, e, e, kind, end, depth);
      FlattenConcat(line, TailPieces(text, cs, e, e, kind, end, depth, false));
      LastLine(text, cs, items, end);
      Regroup(LeadText(first), ItemLine(text, cs, items[0]), (if sep + 1 < end then "," else "") + [kind.Close()]);
      Regroup(LeadText(first) + ItemLine(text, cs, items[0]), if sep + 1 < end then "," else "", [kind.Close()]);
      Regroup(LeadText(first), ItemLine(text, cs, items[0]), if sep + 1 < end then "," else "");
    }
  }

  lemma CommaJoins(lead: string, item: string, more: string, close: string)
    ensures (lead + item) + ("," + (LeadText(Spaced) + more + close)) == lead + (item + (", " + more)) + close
  {
  }

  lemma MoreLine(text: string, cs: seq<Range>, items: seq<Item>, end: nat)
    requires |items| > 1
    ensures ItemsLine(text, cs, items, end) == ItemLine(text, cs, items[0]) + (", " + ItemsLine(text, cs, items[1..], end))
    ensures NoNewline(ItemLine(text, cs, items[0])) && NoNewline(ItemsLine(text, cs, items[1..], end)) ==>
              NoNewline(ItemsLine(text, cs, items, end))
  {
    hide ItemLine, NextToken;
  }

  lemma LastLine(text: string, cs: seq<Range>, items: seq<Item>, end: nat)
    requires |items| == 1
    ensures ItemsLine(text, cs, items, end)
            == ItemLine(text, cs, items[0]) + if NextToken(text, cs, items[0].value.end) + 1 < end then "," else ""
    ensures NoNewline(ItemLine(text, cs, items[0])) ==> NoNewline(ItemsLine(text, cs, items, end))
  {
    hide ItemLine, NextToken;
  }

  lemma OnlyItem(text: string, cs: seq<Range>, from: nat, p: nat, item: Item, depth: nat, first: Lead)
    requires After(cs, NextToken(text, cs, p)) == cs
    ensures LinePieces(text, cs, from, NextToken(text, cs, p), item, depth, false, first) == ItemPieces(text, cs, item, depth, first)
  {
    hide ItemPieces, NextToken, After;
  }

  lemma {:induction false} ItemOneLine(text: string, cs: seq<Range>, start: nat, kind: Kind, item: Item, end: nat, depth: nat,
      lead: Lead)
    requires CommentsOk(text, cs) && !Before(cs, end) && item.value.end < end <= |text|
    requires ItemOk(text, cs, start, kind, item) && !HasNewline(text, start, end)
    ensures Flatten(ItemPieces(text, cs, item, depth, lead)) == LeadText(lead) + ItemLine(text, cs, item)
    ensures NoNewline(ItemLine(text, cs, item))
    decreases item, 3
  {
    hide *;
    var value := item.value;
    if item.Member? {
      var key := item.key;
      KeyIs(text, cs, start, kind, item, depth, lead);
      ColonLies(text, cs, key, value, end);
      NoNewlineWithin(text, start, value.start, value.end, end);
      ValueOneLine(text, cs, value, depth, Spaced);
      MemberOneLine(text, cs, key.end, value, depth);
      FlattenOne(Piece(lead, Slice(text, key.start, key.end)));
      FlattenConcat([Piece(lead, Slice(text, key.start, key.end))], MemberPieces(text, cs, key.end, value, depth));
      MemberLine(text, cs, start, item, lead);
    } else {
      ElementIs(text, cs, start, kind, item, depth, lead);
      NoneBefore(cs, value.end, end);
      NoNewlineWithin(text, start, value.start, value.end, end);
      ValueOneLine(text, cs, value, depth, lead);
    }
  }

  lemma ElementIs(text: string, cs: seq<Range>, start: nat, kind: Kind, item: Item, depth: nat, lead: Lead)
    requires item.Element? && ItemOk(text, cs, start, kind, item)
    ensures ValueOk(text, cs, item.value) && item.value.start == start
    ensures ItemPieces(text, cs, item, depth, lead) == ValuePieces(text, cs, item.value, depth, lead)
    ensures ItemLine(text, cs, item) == OneLine(text, cs, item.value)
  {
    hide ValueOk, ValuePieces, OneLine;
  }

  lemma MemberLine(text: string, cs: seq<Range>, start: nat, item: Item, lead: Lead)
    requires item.Member? && ItemOk(text, cs, start, ObjectKind, item) && NoNewline(OneLine(text, cs, item.value))
    ensures var key := Slice(text, item.key.start, item.key.end);
            && ItemLine(text, cs, item) == key + (": " + OneLine(text, cs, item.value))
            && Text(Piece(lead, key)) + (": " + OneLine(text, cs, item.value)) == LeadText(lead) + ItemLine(text, cs, item)
    ensures NoNewline(ItemLine(text, cs, item))
  {
    hide OneLine, NextToken, ValueOk, After, LeadText;
  }

  lemma MemberOneLine(text: string, cs: seq<Range>, keyEnd: nat, value: Value, depth: nat)
    requires var colon := NextToken(text, cs, keyEnd); !Before(cs, colon) && After(cs, colon) == cs
    requires !Before(cs, value.start) && After(cs, value.start) == cs
    requires Flatten(ValuePieces(text, cs, value, depth, Spaced)) == LeadText(Spaced) + OneLine(text, cs, value)
    ensures Flatten(MemberPieces(text, cs, keyEnd, value, depth)) == ": " + OneLine(text, cs, value)
  {
    hide *;
    var colon := NextToken(text, cs, keyEnd);
    NoComments(text, cs, keyEnd, colon, ':', depth);
    NoComments(text, cs, Resume(text, cs, colon, ':'), value.start, ':', depth);
    MemberIs(text, cs, keyEnd, value, depth);
    FlattenSymbol(':');
    FlattenConcat([Piece(Glued, [':'])], ValuePieces(text, cs, value, depth, Spaced));
    ColonJoins(OneLine(text, cs, value));
  }

  lemma ColonJoins(line: string)
    ensures ":" + (LeadText(Spaced) + line) == ": " + line
  {
  }

  lemma MemberIs(text: string, cs: seq<Range>, keyEnd: nat, value: Value, depth: nat)
    requires var colon := NextToken(text, cs, keyEnd);
             && SymbolPieces(text, cs, keyEnd, colon, ':', depth) == [Piece(Glued, [':'])] && After(cs, colon) == cs
             && CommentPieces(text, cs, Resume(text, cs, colon, ':'), value.start, depth, true) == []
    requires !Before(cs, value.start) && After(cs, value.start) == cs
    ensures MemberPieces(text, cs, keyEnd, value, depth) == [Piece(Glued, [':'])] + ValuePieces(text, cs, value, depth, Spaced)
  {
    hide NextToken, SymbolPieces, CommentPieces, ValuePieces, Resume, Before, After;
  }

  // ----- a document on one line -----

  lemma {:induction false} BareFits(text: string, v: Value)
    ensures ValueFits(text, [], v)
    decreases v, 0
  {
    if v.Container? && v.items != [] {
      BareItemsFit(text, v.start + 1, v.items, v.end);
    }
  }

  lemma {:induction false} BareItemsFit(text: string, p: nat, items: seq<Item>, end: nat)
    requires items != []
    ensures ItemsFit(text, [], p, items, end)
    decreases items, 1
  {
    BareItemFits(text, items[0]);
    if |items| > 1 {
      BareItemsFit(text, NextToken(text, [], items[0].value.end) + 1, items[1..], end);
    }
  }

  lemma BareItemFits(text: string, item: Item)
    ensures ItemFits(text, [], item)
    decreases item, 2
  {
    match item
    case Element(value) => BareFits(text, value);
    case Member(_, value) => BareFits(text, value);
  }

  /** An array or object with neither a comment nor a newline in it is formatted as its line and a final newline. */
  lemma OneLineDocument(text: string, root: Value)
    requires InputOk(text, [], root) && root.Container? && !HasNewline(text, root.start, root.end)
    ensures Format(text, [], root) == Some(OneLine(text, [], root) + "\n") && NoNewline(OneLine(text, [], root))
  {
    hide *;
    FormatLaysOut(text, [], root);
    BareDocument(text, root);
    ValueOneLine(text, [], root, 0, Glued);
    assert LaidOut(Format(text, [], root).value, Pieces(text, [], root));
    LaidOutIs(Format(text, [], root).value, Pieces(text, [], root));
    GluedFirst(OneLine(text, [], root), "\n");
  }

  lemma BareDocument(text: string, root: Value)
    requires InputOk(text, [], root) && root.Container? && !HasNewline(text, root.start, root.end)
    ensures root.start <= root.end <= |text| && Fits(text, [], root)
    ensures CommentsOk(text, []) && ValueOk(text, [], root) && !Before([], root.end)
    ensures Pieces(text, [], root) == ValuePieces(text, [], root, 0, Glued)
  {
    BareFits(text, root);
    hide ValueFits, NextToken, InsidePieces;
  }
}
