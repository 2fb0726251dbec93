/** Formatting values: either the output keeps saying what the text says, or it has diverged for good. */
module JsoncOutcome {
  import opened Outcomes
  import opened JsoncText
  import opened JsoncLexer
  import opened JsoncTree
  import opened JsoncSpec
  import opened JsoncScan
  import opened JsoncGaps
  import opened JsoncSymbols

  /** A panic, or an output that no further printing can repair. */
  ghost predicate Lost(text: string, r: Option<State>) {
    r.Some? ==> Diverged(text, r.value.out)
  }

  /** Everything up to `e` is printed, and `text_position` is there. */
  ghost predicate Arrived(text: string, cs: seq<Range>, e: nat, r: Option<State>) {
    && r.Some?
    && Inv(text, r.value, e)
    && r.value.pos == e > 0
    && r.value.pending == After(cs, e)
    && !Scan(r.value.out).mode.InLine?
  }

  ghost predicate Outcome(text: string, fits: bool, cs: seq<Range>, e: nat, r: Option<State>) {
    if fits then Arrived(text, cs, e, r) else Lost(text, r)
  }

  predicate LagChar(k: char) {
    k == ',' || k == ':' || k == '[' || k == BRACE
  }

  /** A container laid out on one line has no comments left in it. */
  ghost predicate LayoutOk(s: State, end: nat) {
    s.multiline || !Before(s.pending, end)
  }

  lemma LaterBefore(cs: seq<Range>, p: nat, q: nat)
    requires p <= q && !Before(cs, q)
    ensures !Before(cs, p) && After(cs, p) == cs && After(cs, q) == cs
  {
  }

  lemma LostStays(text: string, s: State, r: Option<State>)
    requires Diverged(text, s.out) && (r.Some? ==> s.out <= r.value.out)
    ensures Lost(text, r)
  {
    if r.Some? {
      DivergedStays(text, s.out, r.value.out);
    }
  }

  // ----- brackets -----

  /** An opening bracket whose search may stop at an earlier, already printed one. */
  lemma OpenPrinted(text: string, s: State, q: nat, ch: char, k: char)
    requires Inv(text, s, q) && Lag(text, s.pos, q, k)
    requires q < |text| && text[q] == ch && (ch == '[' || ch == BRACE)
    requires !Scan(s.out).mode.InLine? && !StartsWithBlock(text, s.pending)
    ensures Printed(text, s, q, ch, PutSymbol(text, s, ch))
  {
    if k != ch {
      SymbolPrinted(text, s, q, q, ch, k);
    } else {
      NoCommentAt(text, s.pending, q);
      var i := Find(text, s.pos, |text|, ch).value;
      forall j | 0 <= j < |s.pending| ensures !(s.pending[j].start < i + 1 < s.pending[j].end) {
        assert s.pending[0].start <= s.pending[j].start;
      }
      Uncovered(s.pending, i + 1);
      WroteSymbol(text, s, q, i + 1, ch);
    }
  }

  /** In front of a closing bracket at `end - 1`, after an item or a comma. */
  ghost predicate AtClose(text: string, s: State, p: nat, kind: Kind, end: nat, k: char) {
    && Inv(text, s, p) && Lag(text, s.pos, p, k) && LagChar(k) && s.pos > 0 && s.level > 0
    && p < end <= |text| && text[end - 1] == kind.Close()
    && !Scan(s.out).mode.InLine? && LayoutOk(s, end) && !StartsWithBlock(text, s.pending)
  }

  lemma CloseComments(text: string, s: State, p: nat, kind: Kind, end: nat, k: char)
    requires AtClose(text, s, p, kind, end, k) && GapOk(text, s.pending, p, end - 1)
    ensures Comments(text, s, end).Some?
    ensures var s2 := Comments(text, s, end).value;
            Inv(text, s2, end - 1) && Lag(text, s2.pos, end - 1, k) && s2.pending == After(s.pending, end - 1)
              && (Scan(s2.out).mode.InLine? ==> s2.multiline)
  {
    hide Comments, Scan, ModeAt, NextToken, StartsWithBlock;
    AfterOk(text, s.pending, end - 1);
    NoCommentAt(text, After(s.pending, end - 1), end - 1);
    CommentsInv(text, s, p, end - 1, end, k);
    if !Before(s.pending, end - 1) {
      GapOrder(text, s.pending, p, end - 1);
    }
  }

  lemma ClosedAt(text: string, s: State, cs: seq<Range>, q: nat, kind: Kind, k: char)
    requires Inv(text, s, q) && Lag(text, s.pos, q, k) && LagChar(k) && CommentsOk(text, cs)
    requires 0 < q < |text| && text[q] == kind.Close() && s.pending == After(cs, q) && s.level > 0
    requires Scan(s.out).mode.InLine? ==> s.multiline
    ensures Arrived(text, cs, q + 1, PutSymbol(text, s.(level := s.level - 1), kind.Close()))
  {
    ClosePrinted(text, s.(level := s.level - 1), q, q, kind.Close(), k);
    NoCommentAt(text, s.pending, q);
    AfterTwice(cs, q, q + 1);
  }

  /** The comments after the last item or comma, then the closing bracket. */
  lemma CloseOutcome(text: string, s: State, p: nat, kind: Kind, end: nat, k: char)
    requires AtClose(text, s, p, kind, end, k) && GapOk(text, s.pending, p, end - 1)
    ensures Arrived(text, s.pending, end, PutClose(text, s, kind, end))
  {
    hide Comments, PutSymbol;
    CloseComments(text, s, p, kind, end, k);
    GapOrder(text, s.pending, p, end - 1);
    ClosedAt(text, Comments(text, s, end).value, s.pending, end - 1, kind, k);
  }

  lemma CommaThenClose(text: string, s: State, p: nat, sep: nat, kind: Kind, end: nat, k: char)
    requires AtClose(text, s, p, kind, end, k) && k != ','
    requires GapOk(text, s.pending, p, sep) && sep + 1 < end && text[sep] == ','
    requires NextToken(text, After(s.pending, sep), sep + 1) + 1 == end
    requires GapFits(text, s.pending, sep, ',')
    ensures PutSymbol(text, s, ',').Some?
    ensures var s1 := PutSymbol(text, s, ',').value;
            AtClose(text, s1, sep + 1, kind, end, ',') && GapOk(text, s1.pending, sep + 1, end - 1)
              && After(s1.pending, end) == After(s.pending, end)
  {
    hide PutSymbol, Comments, NextToken, ModeAt;
    SymbolPrinted(text, s, p, sep, ',', k);
    var s1 := PutSymbol(text, s, ',').value;
    AfterTwice(s.pending, sep, end);
    AfterOk(text, s.pending, sep);
    NextTokenGap(text, s1.pending, sep + 1);
    if !s.multiline {
      LaterBefore(s.pending, sep, end);
    }
  }

  /** The end of a container: `sep` is the trailing comma or the closing bracket. */
  lemma TailOutcome(text: string, s: State, p: nat, kind: Kind, end: nat, k: char)
    requires AtClose(text, s, p, kind, end, k) && k != ','
    requires var sep := NextToken(text, s.pending, p);
             sep + 1 == end
             || (sep + 1 < end && text[sep] == ',' && NextToken(text, After(s.pending, sep), sep + 1) + 1 == end)
    ensures var sep := NextToken(text, s.pending, p);
            Outcome(text, sep + 1 < end ==> GapFits(text, s.pending, sep, ','), s.pending, end, PutTail(text, s, kind, end))
  {
    hide PutClose, HasComma, NextToken, PutSymbol, Diverged, GapFits, ModeAt;
    var sep := NextToken(text, s.pending, p);
    NextTokenGap(text, s.pending, p);
    CommaTest(text, s, p, sep, end, k);
    if sep + 1 == end {
      CloseOutcome(text, s, p, kind, end, k);
    } else {
      hide PutTail;
      TailComma(text, s, p, sep, kind, end, k);
    }
  }

  lemma TailComma(text: string, s: State, p: nat, sep: nat, kind: Kind, end: nat, k: char)
    requires AtClose(text, s, p, kind, end, k) && k != ','
    requires GapOk(text, s.pending, p, sep) && sep + 1 < end && text[sep] == ','
    requires NextToken(text, After(s.pending, sep), sep + 1) + 1 == end
    requires HasComma(text, s.pending, s.pos, end)
    ensures Outcome(text, GapFits(text, s.pending, sep, ','), s.pending, end, PutTail(text, s, kind, end))
  {
    if GapFits(text, s.pending, sep, ',') {
      CommaThenClose(text, s, p, sep, kind, end, k);
      CloseOutcome(text, PutSymbol(text, s, ',').value, sep + 1, kind, end, ',');
    } else {
      SymbolMisplaced(text, s, p, sep, ',', k);
      LostStays(text, PutSymbol(text, s, ',').value, PutTail(text, s, kind, end));
    }
  }

  // ----- values -----

  /** The comments in front of a value, then a new line. */
  lemma ValueOnNewLine(text: string, s: State, p: nat, v: Value, k: char)
    requires Inv(text, s, p) && Lag(text, s.pos, p, k) && GapOk(text, s.pending, p, v.start)
    requires v.start < |text| && !StartsWithBlock(text, s.pending)
    ensures Comments(text, s, v.start).Some? && Indent(text, Comments(text, s, v.start).value, v.start).Some?
    ensures var r := Indent(text, Comments(text, s, v.start).value, v.start).value;
            Inv(text, r, v.start) && Lag(text, r.pos, v.start, k) && r.pending == After(s.pending, v.start)
              && Scan(r.out).mode.Between? && (s.pos > 0 ==> r.pos > 0)
  {
    GapOrder(text, s.pending, p, v.start);
    AfterOk(text, s.pending, v.start);
    CommentsInv(text, s, p, v.start, v.start, k);
    IndentInv(text, Comments(text, s, v.start).value, v.start, v.start, k);
  }

  /** `v` is the next token after the gap from `p`. */
  ghost predicate Ahead(text: string, s: State, p: nat, v: Value, k: char) {
    && Inv(text, s, p) && Lag(text, s.pos, p, k) && LagChar(k)
    && !ModeAt(text, p).InBare? && Scan(s.out).mode.Between? && s.pos > 0
    && !StartsWithBlock(text, s.pending)
    && v.start == NextToken(text, s.pending, p)
    && ValueOk(text, After(s.pending, v.start), v)
    && (v.Container? && v.kind.ObjectKind? ==> k != BRACE)
  }

  lemma AheadGap(text: string, s: State, p: nat, v: Value, k: char)
    requires Ahead(text, s, p, v, k)
    ensures p <= v.start < v.end <= |text| && GapOk(text, s.pending, p, v.start)
    ensures ModeAt(text, v.start).Between?
    ensures After(After(s.pending, v.start), v.end) == After(s.pending, v.end)
    ensures !StartsWithBlock(text, After(s.pending, v.start))
  {
    NextTokenGap(text, s.pending, p);
    GapMode(text, s.pending, p, v.start);
    AfterTwice(s.pending, v.start, v.end);
    AfterOk(text, s.pending, v.start);
  }

  lemma {:induction false} ValueOutcome(text: string, s: State, p: nat, v: Value, k: char)
    requires Ahead(text, s, p, v, k) && LayoutOk(s, v.start)
    ensures Outcome(text, ValueFits(text, After(s.pending, v.start), v), s.pending, v.end, PutValue(text, s, v))
    decreases v, 2
  {
    AheadGap(text, s, p, v, k);
    if s.multiline {
      ValueOnNewLine(text, s, p, v, k);
      ContentOutcome(text, Indent(text, Comments(text, s, v.start).value, v.start).value, v, k);
    } else {
      Advance(text, s, p, v.start);
      ContentOutcome(text, s, v, k);
    }
  }

  lemma {:induction false} MemberValueOutcome(text: string, s: State, p: nat, v: Value, k: char)
    requires Ahead(text, s, p, v, k)
    ensures Outcome(text, ValueFits(text, After(s.pending, v.start), v), s.pending, v.end, PutMemberValue(text, s, v))
    decreases v, 2
  {
    AheadGap(text, s, p, v, k);
    if Before(s.pending, v.start) {
      ValueOnNewLine(text, s, p, v, k);
      ContentOutcome(text, Indent(text, Comments(text, s, v.start).value, v.start).value, v, k);
    } else {
      Advance(text, s, p, v.start);
      OutBlank(s.out);
      ContentOutcome(text, s.(out := s.out + " "), v, k);
    }
  }

  lemma LeafOutcome(text: string, s: State, v: Value)
    requires Inv(text, s, v.start) && ModeAt(text, v.start).Between? && Scan(s.out).mode.Between?
    requires LeafOk(text, s.pending, v)
    ensures Arrived(text, s.pending, v.end, PutContent(text, s, v))
  {
    TextLeaf(text, s.pending, v);
    OutScalar(s.out, text[v.start..v.end]);
  }

  lemma {:induction false} ContentOutcome(text: string, s: State, v: Value, k: char)
    requires Inv(text, s, v.start) && Lag(text, s.pos, v.start, k) && LagChar(k)
    requires ModeAt(text, v.start).Between? && Scan(s.out).mode.Between?
    requires ValueOk(text, s.pending, v) && !StartsWithBlock(text, s.pending)
    ensures Outcome(text, ValueFits(text, s.pending, v), s.pending, v.end, PutContent(text, s, v))
    decreases v, 1
  {
    match v
    case Leaf(_, _) =>
      LeafOutcome(text, s, v);
    case Container(start, end, kind, items) =>
      OpenPrinted(text, s, start, kind.Open(), k);
      LaterBefore(s.pending, start, start);
      ContainerOutcome(text, s, v);
  }

  /** Once the opening bracket is out. */
  lemma {:induction false} ContainerOutcome(text: string, s: State, v: Value)
    requires v.Container? && ValueOk(text, After(s.pending, v.start), v) && TextAt(text, v.start)
    requires Printed(text, s, v.start, v.kind.Open(), PutSymbol(text, s, v.kind.Open()))
    requires After(After(s.pending, v.start), v.end) == After(s.pending, v.end) && !StartsWithBlock(text, s.pending)
    ensures Outcome(text, ValueFits(text, After(s.pending, v.start), v), s.pending, v.end, PutContent(text, s, v))
    decreases v, 0, 2
  {
    TextSymbol(text, v.start);
    assert !StartsWithBlock(text, PutSymbol(text, s, v.kind.Open()).value.pending);
    BodyOutcome(text, PutSymbol(text, s, v.kind.Open()).value, v, s.multiline);
  }

  lemma {:induction false} BodyOutcome(text: string, s: State, v: Value, outer: bool)
    requires v.Container? && ValueOk(text, s.pending, v)
    requires Inv(text, s, v.start + 1) && Lag(text, s.pos, v.start + 1, v.kind.Open())
    requires ModeAt(text, v.start + 1).Between? && Scan(s.out).mode.Between? && s.pos > 0
    requires !StartsWithBlock(text, s.pending)
    ensures var r := PutBody(text, s, v, outer);
            if ValueFits(text, s.pending, v) then
              r.Some? && Arrived(text, s.pending, v.end, Some(r.value.(pos := v.end)))
            else Lost(text, r)
    decreases v, 0, 1
  {
    hide PutInside;
    InsideOutcome(text, s.(level := s.level + 1, multiline := Multiline(text, s.pending, v)), v, v.kind.Open());
  }

  /** Between the brackets of a container, the closing one included. */
  /** Behind the opening bracket, all is ready for the closing one or for the items. */
  lemma InsideReady(text: string, s: State, v: Value, k: char)
    requires v.Container? && ValueOk(text, s.pending, v)
    requires Inv(text, s, v.start + 1) && Lag(text, s.pos, v.start + 1, k) && k == v.kind.Open()
    requires ModeAt(text, v.start + 1).Between? && Scan(s.out).mode.Between? && s.pos > 0 && s.level > 0
    requires s.multiline == Multiline(text, s.pending, v) && !StartsWithBlock(text, s.pending)
    ensures if v.items == [] then
              && AtClose(text, s, v.start + 1, v.kind, v.end, k) && k != ','
              && NextToken(text, s.pending, v.start + 1) + 1 == v.end
            else AtItems(text, s, v.start + 1, v.kind, v.items, v.end, k)
  {
    hide Inv, Lag, ModeAt, Scan, StartsWithBlock, NextToken, ItemsOk;
  }

  lemma InsideIs(text: string, s: State, v: Value)
    requires v.Container? && v.end <= |text|
    ensures PutInside(text, s, v)
         == if v.items == [] then PutTail(text, s, v.kind, v.end) else PutFrom(text, s, v.kind, v.items, v.end)
  {
    hide PutTail, PutItem;
  }

  lemma {:induction false} InsideOutcome(text: string, s: State, v: Value, k: char)
    requires v.Container? && ValueOk(text, s.pending, v)
    requires Inv(text, s, v.start + 1) && Lag(text, s.pos, v.start + 1, k) && k == v.kind.Open()
    requires ModeAt(text, v.start + 1).Between? && Scan(s.out).mode.Between? && s.pos > 0 && s.level > 0
    requires s.multiline == Multiline(text, s.pending, v) && !StartsWithBlock(text, s.pending)
    ensures Outcome(text, ValueFits(text, s.pending, v), s.pending, v.end, PutInside(text, s, v))
    decreases v, 0, 0
  {
    InsideReady(text, s, v, k);
    InsideIs(text, s, v);
    hide PutInside, PutTail, PutFrom, AtClose, AtItems, ItemsFit, GapFits, Outcome, NextToken, ValueOk, Inv, ModeAt, Scan, Lag;
    if v.items == [] {
      TailOutcome(text, s, v.start + 1, v.kind, v.end, k);
    } else {
      ItemsOutcome(text, s, v.start + 1, v.kind, v.items, v.end, k);
    }
  }

  /** The first of the items, the others and the closing bracket. */
  ghost function PutFrom(text: string, s: State, kind: Kind, items: seq<Item>, end: nat): (r: Option<State>)
    requires items != [] && end <= |text|
    ensures r.Some? ==> s.out <= r.value.out
  {
    var s1 :- PutItem(text, s, items[0]);
    PutRest(text, s1, kind, items[1..], end)
  }

  ghost function PutRest(text: string, s: State, kind: Kind, items: seq<Item>, end: nat): (r: Option<State>)
    requires end <= |text|
    ensures r.Some? ==> s.out <= r.value.out
  {
    var s2 :- PutItems(text, s, items, false);
    PutTail(text, s2, kind, end)
  }

  lemma PutRestComma(text: string, s: State, kind: Kind, items: seq<Item>, end: nat)
    requires items != [] && end <= |text|
    ensures PutRest(text, s, kind, items, end)
         == var s1 := PutComma(text, s); if s1.Some? then PutFrom(text, s1.value, kind, items, end) else None
  {
  }

  /** Ready to print the items that follow `p`, just after an opening bracket or a comma. */
  ghost predicate AtItems(text: string, s: State, p: nat, kind: Kind, items: seq<Item>, end: nat, k: char) {
    && Inv(text, s, p) && Lag(text, s.pos, p, k) && LagChar(k) && k != ':' && (kind.ArrayKind? ==> k != BRACE)
    && ModeAt(text, p).Between? && Scan(s.out).mode.Between? && s.pos > 0 && s.level > 0
    && LayoutOk(s, end) && !StartsWithBlock(text, s.pending)
    && items != [] && 1 < end <= |text| && text[end - 1] == kind.Close()
    && ItemsOk(text, s.pending, p, kind, items, end)
  }

  /** Where the first item begins, in the text and among the comments. */
  lemma ItemEnds(text: string, s: State, p: nat, kind: Kind, items: seq<Item>, end: nat, k: char)
    requires AtItems(text, s, p, kind, items, end, k)
    ensures var cs1 := After(s.pending, NextToken(text, s.pending, p)); var e := items[0].value.end;
            After(cs1, e) == After(s.pending, e) && p <= NextToken(text, s.pending, p) < e < end
  {
    NextTokenGap(text, s.pending, p);
    var start := NextToken(text, s.pending, p);
    AfterOk(text, s.pending, start);
    ItemSpan(text, After(s.pending, start), start, kind, items[0]);
    AfterTwice(s.pending, start, items[0].value.end);
    AfterOk(text, s.pending, items[0].value.end);
    NextTokenGap(text, After(s.pending, items[0].value.end), items[0].value.end);
  }

  /** From the end of a key to its value. */
  lemma ColonSpan(text: string, cs: seq<Range>, p: nat, start: nat)
    requires CommentsOk(text, cs) && !Before(cs, p) && p <= |text|
    requires var colon := NextToken(text, cs, p);
             colon < |text| && text[colon] == ':' && start == NextToken(text, After(cs, colon), colon + 1)
    ensures p <= NextToken(text, cs, p) < start <= |text|
  {
    hide NextToken, After, CommentsOk;
    var colon := NextToken(text, cs, p);
    NextTokenGap(text, cs, p);
    AfterOk(text, cs, colon);
    NoCommentAt(text, After(cs, colon), colon);
    NextTokenGap(text, After(cs, colon), colon + 1);
  }

  lemma ValueSpan(text: string, cs: seq<Range>, v: Value)
    requires ValueOk(text, cs, v)
    ensures v.start < v.end <= |text|
  {
  }

  lemma ItemSpan(text: string, cs: seq<Range>, p: nat, kind: Kind, item: Item)
    requires CommentsOk(text, cs) && ItemOk(text, cs, p, kind, item)
    ensures p < item.value.end <= |text|
  {
    hide NextToken, After, CommentsOk, ValueOk;
    match item
    case Element(value) =>
      ValueSpan(text, cs, value);
    case Member(key, value) =>
      ColonSpan(text, cs, key.end, value.start);
      ValueSpan(text, After(After(cs, NextToken(text, cs, key.end)), value.start), value);
  }

  lemma RestIsOk(text: string, s: State, p: nat, kind: Kind, items: seq<Item>, end: nat, k: char)
    requires AtItems(text, s, p, kind, items, end, k)
    ensures 0 < end && RestOk(text, After(s.pending, items[0].value.end), items[0].value.end, kind, items, end)
  {
    hide Inv, Lag, Scan, ModeAt, NextToken;
    ItemEnds(text, s, p, kind, items, end, k);
  }

  lemma AfterItem(text: string, s: State, p: nat, kind: Kind, items: seq<Item>, end: nat, k: char, s1: State)
    requires AtItems(text, s, p, kind, items, end, k)
    requires Arrived(text, s.pending, items[0].value.end, Some(s1))
    requires s1.level == s.level && s1.multiline == s.multiline
    ensures AtClose(text, s1, items[0].value.end, kind, end, '[')
    ensures RestOk(text, s1.pending, items[0].value.end, kind, items, end)
    ensures After(s1.pending, end) == After(s.pending, end)
  {
    hide NextToken, ModeAt, RestOk, ItemsOk;
    var e := items[0].value.end;
    ItemEnds(text, s, p, kind, items, end, k);
    RestIsOk(text, s, p, kind, items, end, k);
    AfterTwice(s.pending, e, end);
    if !s.multiline {
      LaterBefore(s.pending, e, end);
    }
  }

  lemma ItemsFitSplit(text: string, s: State, p: nat, kind: Kind, items: seq<Item>, end: nat, k: char)
    requires AtItems(text, s, p, kind, items, end, k)
    ensures ItemsFit(text, s.pending, p, items, end) <==>
            ItemFits(text, After(s.pending, NextToken(text, s.pending, p)), items[0])
            && RestFits(text, After(s.pending, items[0].value.end), items[0].value.end, items, end)
  {
    hide Inv, Lag, Scan, ModeAt, NextToken;
    ItemEnds(text, s, p, kind, items, end, k);
  }

  lemma {:induction false} ItemsOutcome(text: string, s: State, p: nat, kind: Kind, items: seq<Item>, end: nat, k: char)
    requires AtItems(text, s, p, kind, items, end, k)
    ensures Outcome(text, ItemsFit(text, s.pending, p, items, end), s.pending, end, PutFrom(text, s, kind, items, end))
    decreases items, 1
  {
    ItemEnds(text, s, p, kind, items, end, k);
    ItemsFitSplit(text, s, p, kind, items, end, k);
    ItemOutcome(text, s, p, kind, items[0], end, k);
    var r := PutItem(text, s, items[0]);
    if r.Some? {
      if ItemFits(text, After(s.pending, NextToken(text, s.pending, p)), items[0]) {
        AfterItem(text, s, p, kind, items, end, k, r.value);
        RestOutcome(text, r.value, items[0].value.end, kind, items, end);
      } else {
        LostStays(text, r.value, PutRest(text, r.value, kind, items[1..], end));
      }
    }
  }

  /** What follows the first item: a comma and more items, a trailing comma, or the closing bracket. */
  ghost predicate RestOk(text: string, cs: seq<Range>, p: nat, kind: Kind, items: seq<Item>, end: nat)
    requires items != [] && 0 < end <= |text|
  {
    var sep := NextToken(text, cs, p);
    var cs3 := After(cs, sep);
    if |items| > 1 then sep + 1 < end && text[sep] == ',' && ItemsOk(text, cs3, sep + 1, kind, items[1..], end)
    else if sep + 1 < end && text[sep] == ',' then NextToken(text, cs3, sep + 1) == end - 1
    else sep == end - 1
  }

  predicate RestFits(text: string, cs: seq<Range>, p: nat, items: seq<Item>, end: nat)
    requires items != []
  {
    var sep := NextToken(text, cs, p);
    && (|items| > 1 || sep + 1 < end ==> GapFits(text, cs, sep, ','))
    && (|items| > 1 ==> ItemsFit(text, After(cs, sep), sep + 1, items[1..], end))
  }

  /** From the end of the first item on. */
  lemma {:induction false} RestOutcome(text: string, s: State, p: nat, kind: Kind, items: seq<Item>, end: nat)
    requires items != [] && p == items[0].value.end == s.pos
    requires AtClose(text, s, p, kind, end, '[') && end > 1 && RestOk(text, s.pending, p, kind, items, end)
    ensures Outcome(text, RestFits(text, s.pending, p, items, end), s.pending, end, PutRest(text, s, kind, items[1..], end))
    decreases items, 0, 2
  {
    if |items| == 1 {
      TailOutcome(text, s, p, kind, end, '[');
    } else {
      MoreOutcome(text, s, p, kind, items, end);
    }
  }

  lemma RestSplit(text: string, cs: seq<Range>, p: nat, kind: Kind, items: seq<Item>, end: nat)
    requires |items| > 1 && 0 < end <= |text| && RestOk(text, cs, p, kind, items, end)
    ensures var sep := NextToken(text, cs, p);
            && sep + 1 < end && text[sep] == ',' && ItemsOk(text, After(cs, sep), sep + 1, kind, items[1..], end)
            && (RestFits(text, cs, p, items, end) <==>
                  GapFits(text, cs, sep, ',') && ItemsFit(text, After(cs, sep), sep + 1, items[1..], end))
  {
    hide NextToken, After, GapFits, ItemsFit, ItemsOk;
  }

  /** The comma is where it is looked for, and the items behind it follow. */
  lemma {:induction false} MoreFits(text: string, s: State, p: nat, sep: nat, kind: Kind, items: seq<Item>, end: nat)
    requires AtClose(text, s, p, kind, end, '[') && s.pos == p && end > 1 && |items| > 1
    requires GapOk(text, s.pending, p, sep) && sep + 1 < end && text[sep] == ','
    requires ItemsOk(text, After(s.pending, sep), sep + 1, kind, items[1..], end)
    requires GapFits(text, s.pending, sep, ',')
    ensures Outcome(text, ItemsFit(text, After(s.pending, sep), sep + 1, items[1..], end), s.pending, end,
              PutRest(text, s, kind, items[1..], end))
    decreases items, 0, 0
  {
    hide *;
    NextItems(text, s, p, sep, kind, items, end);
    var s1 := PutComma(text, s).value;
    AtItemsMeans(text, s1, sep + 1, kind, items[1..], end, ',');
    PutRestComma(text, s, kind, items[1..], end);
    ItemsOutcome(text, s1, sep + 1, kind, items[1..], end, ',');
    OutcomeFrom(text, ItemsFit(text, s1.pending, sep + 1, items[1..], end), s1.pending, s.pending, end,
      PutFrom(text, s1, kind, items[1..], end));
  }

  lemma AtItemsMeans(text: string, s: State, p: nat, kind: Kind, items: seq<Item>, end: nat, k: char)
    requires AtItems(text, s, p, kind, items, end, k)
    ensures items != [] && 1 < end <= |text|
  {
    hide Inv, Lag, ModeAt, Scan, LayoutOk, StartsWithBlock, ItemsOk;
  }

  lemma OutcomeFrom(text: string, fits: bool, cs1: seq<Range>, cs: seq<Range>, e: nat, r: Option<State>)
    requires Outcome(text, fits, cs1, e, r) && After(cs1, e) == After(cs, e)
    ensures Outcome(text, fits, cs, e, r)
  {
    hide Inv, Scan, After, Lost;
  }

  /** From the end of an item on, when a comma and more items follow. */
  lemma {:induction false} MoreOutcome(text: string, s: State, p: nat, kind: Kind, items: seq<Item>, end: nat)
    requires |items| > 1 && p == items[0].value.end == s.pos
    requires AtClose(text, s, p, kind, end, '[') && end > 1 && RestOk(text, s.pending, p, kind, items, end)
    ensures Outcome(text, RestFits(text, s.pending, p, items, end), s.pending, end, PutRest(text, s, kind, items[1..], end))
    decreases items, 0, 1
  {
    hide *;
    var sep := NextToken(text, s.pending, p);
    CloseMeans(text, s, p, kind, end, '[');
    NextTokenGap(text, s.pending, p);
    RestSplit(text, s.pending, p, kind, items, end);
    if GapFits(text, s.pending, sep, ',') {
      MoreFits(text, s, p, sep, kind, items, end);
    } else {
      CommaLost(text, s, p, sep, kind, items[1..], end);
      OutcomeLost(text, s.pending, end, PutRest(text, s, kind, items[1..], end));
    }
  }

  lemma CloseMeans(text: string, s: State, p: nat, kind: Kind, end: nat, k: char)
    requires AtClose(text, s, p, kind, end, k)
    ensures CommentsOk(text, s.pending) && !Before(s.pending, p) && p < end <= |text|
  {
    hide Lag, Scan, LayoutOk, StartsWithBlock, CommentsOk;
  }

  lemma OutcomeLost(text: string, cs: seq<Range>, e: nat, r: Option<State>)
    requires Lost(text, r)
    ensures Outcome(text, false, cs, e, r)
  {
    hide Lost;
  }

  lemma CommaLost(text: string, s: State, p: nat, sep: nat, kind: Kind, items: seq<Item>, end: nat)
    requires AtClose(text, s, p, kind, end, '[') && items != []
    requires GapOk(text, s.pending, p, sep) && sep < |text| && text[sep] == ',' && !GapFits(text, s.pending, sep, ',')
    ensures Lost(text, PutRest(text, s, kind, items, end))
  {
    SymbolMisplaced(text, s, p, sep, ',', '[');
    CommaOut(text, s);
    PutRestComma(text, s, kind, items, end);
    LostStays(text, PutSymbol(text, s, ',').value, PutRest(text, s, kind, items, end));
  }

  lemma CommaOut(text: string, s: State)
    requires PutSymbol(text, s, ',').Some?
    ensures PutComma(text, s).Some? && PutSymbol(text, s, ',').value.out <= PutComma(text, s).value.out
  {
  }

  lemma NextItems(text: string, s: State, p: nat, sep: nat, kind: Kind, items: seq<Item>, end: nat)
    requires AtClose(text, s, p, kind, end, '[') && s.pos == p && end > 1 && |items| > 1
    requires GapOk(text, s.pending, p, sep) && sep + 1 < end && text[sep] == ','
    requires ItemsOk(text, After(s.pending, sep), sep + 1, kind, items[1..], end)
    requires GapFits(text, s.pending, sep, ',')
    ensures PutComma(text, s).Some?
    ensures var s1 := PutComma(text, s).value;
            s1.pending == After(s.pending, sep) && After(s1.pending, end) == After(s.pending, end)
              && AtItems(text, s1, sep + 1, kind, items[1..], end, ',')
  {
    SymbolPrinted(text, s, p, sep, ',', '[');
    CommaOutcome(text, s, sep);
    GapEnd(text, s.pending, p, sep);
    TextSymbol(text, sep);
    AfterTwice(s.pending, sep, end);
    if !s.multiline {
      LaterBefore(s.pending, sep, end);
    }
  }

  lemma {:induction false} GapEnd(text: string, cs: seq<Range>, p: nat, q: nat)
    requires CommentsOk(text, cs) && GapOk(text, cs, p, q) && TextAt(text, p)
    ensures TextAt(text, q)
    decreases |cs|
  {
    if Before(cs, q) {
      TextSpaces(text, p, cs[0].start);
      TextComment(text, cs[0]);
      GapEnd(text, cs[1..], cs[0].end, q);
    } else {
      TextSpaces(text, p, q);
    }
  }

  lemma CommaOutcome(text: string, s: State, q: nat)
    requires Printed(text, s, q, ',', PutSymbol(text, s, ','))
    ensures Printed(text, s, q, ',', PutComma(text, s))
  {
    OutBlank(PutSymbol(text, s, ',').value.out);
  }

  lemma {:induction false} ItemOutcome(text: string, s: State, p: nat, kind: Kind, item: Item, end: nat, k: char)
    requires Inv(text, s, p) && Lag(text, s.pos, p, k) && LagChar(k) && (kind.ArrayKind? ==> k != BRACE)
    requires ModeAt(text, p).Between? && Scan(s.out).mode.Between? && s.pos > 0 && !StartsWithBlock(text, s.pending)
    requires LayoutOk(s, end) && item.value.end < end <= |text|
    requires var start := NextToken(text, s.pending, p); ItemOk(text, After(s.pending, start), start, kind, item)
    ensures Outcome(text, ItemFits(text, After(s.pending, NextToken(text, s.pending, p)), item), s.pending, item.value.end,
              PutItem(text, s, item))
    decreases item, 4
  {
    match item
    case Element(value) =>
      ValueOutcome(text, s, p, value, k);
    case Member(key, value) =>
      AfterOk(text, s.pending, key.start);
      MemberSpan(text, After(s.pending, key.start), item, end);
      MemberOutcome(text, s, p, item, end, k);
  }

  lemma MemberSpan(text: string, cs: seq<Range>, item: Item, end: nat)
    requires CommentsOk(text, cs) && item.Member? && ItemOk(text, cs, item.key.start, ObjectKind, item)
    ensures item.key.start < item.value.start < item.value.end <= |text| && After(cs, item.key.end) == cs
  {
    hide NextToken, CommentsOk, ValueOk;
    ColonSpan(text, cs, item.key.end, item.value.start);
    ValueSpan(text, After(After(cs, NextToken(text, cs, item.key.end)), item.value.start), item.value);
  }

  /** A key is a leaf, and ready to be printed. */
  lemma KeyReady(text: string, s: State, p: nat, item: Item, end: nat, k: char)
    requires item.Member? && item.key.start == NextToken(text, s.pending, p)
    requires Inv(text, s, p) && Lag(text, s.pos, p, k) && LagChar(k)
    requires ModeAt(text, p).Between? && Scan(s.out).mode.Between? && s.pos > 0 && !StartsWithBlock(text, s.pending)
    requires LayoutOk(s, end) && item.key.start < item.value.start < item.value.end < end <= |text|
    requires ItemOk(text, After(s.pending, item.key.start), item.key.start, ObjectKind, item)
    requires After(After(s.pending, item.key.start), item.key.end) == After(s.pending, item.key.start)
    ensures item.key.Leaf? && Ahead(text, s, p, item.key, k) && LayoutOk(s, item.key.start)
    ensures ValueFits(text, After(s.pending, item.key.start), item.key)
  {
    hide Inv, Lag, Scan, ModeAt, NextToken, StartsWithBlock;
    assert ValueOk(text, After(s.pending, item.key.start), item.key);
  }

  lemma KeyPrinted(text: string, cs: seq<Range>, s: State, item: Item)
    requires item.Member? && Arrived(text, cs, item.key.end, Some(s))
    requires After(After(cs, item.key.start), item.key.end) == After(cs, item.key.start) && item.key.start <= item.key.end
    requires ItemOk(text, After(cs, item.key.start), item.key.start, ObjectKind, item)
    ensures AtColon(text, s, item) && s.pending == After(cs, item.key.start)
  {
    AfterTwice(cs, item.key.start, item.key.end);
    hide Inv, Scan, NextToken, ValueOk, After;
  }

  lemma PutMemberIs(text: string, s: State, item: Item)
    requires item.Member?
    ensures PutItem(text, s, item)
         == var s1 := PutValue(text, s, item.key); if s1.None? then None else PutFromColon(text, s1.value, item.value)
  {
    hide PutValue, PutSymbol, PutMemberValue;
  }

  /** The key comes through, and the member goes on from there. */
  lemma {:induction false} KeyOutcome(text: string, s: State, p: nat, item: Item, end: nat, k: char)
    requires item.Member? && item.key.start == NextToken(text, s.pending, p)
    requires Inv(text, s, p) && Lag(text, s.pos, p, k) && LagChar(k)
    requires ModeAt(text, p).Between? && Scan(s.out).mode.Between? && s.pos > 0 && !StartsWithBlock(text, s.pending)
    requires LayoutOk(s, end) && item.key.start < item.value.start < item.value.end < end <= |text|
    requires ItemOk(text, After(s.pending, item.key.start), item.key.start, ObjectKind, item)
    requires After(After(s.pending, item.key.start), item.key.end) == After(s.pending, item.key.start)
    ensures PutValue(text, s, item.key).Some?
    ensures var s1 := PutValue(text, s, item.key).value;
            && AtColon(text, s1, item) && s1.pending == After(s.pending, item.key.start)
            && PutItem(text, s, item) == PutFromColon(text, s1, item.value)
    decreases item, 2
  {
    KeyReady(text, s, p, item, end, k);
    ValueOutcome(text, s, p, item.key, k);
    PutMemberIs(text, s, item);
    hide PutValue, PutItem, PutFromColon, AtColon, Inv, Scan, ModeAt, Lag, Diverged, NextToken, ItemOk, After, Ahead, LayoutOk,
         ValueFits;
    KeyPrinted(text, s.pending, PutValue(text, s, item.key).value, item);
  }

  lemma {:induction false} MemberOutcome(text: string, s: State, p: nat, item: Item, end: nat, k: char)
    requires item.Member? && item.key.start == NextToken(text, s.pending, p)
    requires Inv(text, s, p) && Lag(text, s.pos, p, k) && LagChar(k)
    requires ModeAt(text, p).Between? && Scan(s.out).mode.Between? && s.pos > 0 && !StartsWithBlock(text, s.pending)
    requires LayoutOk(s, end) && item.key.start < item.value.start < item.value.end < end <= |text|
    requires ItemOk(text, After(s.pending, item.key.start), item.key.start, ObjectKind, item)
    requires After(After(s.pending, item.key.start), item.key.end) == After(s.pending, item.key.start)
    ensures Outcome(text, ItemFits(text, After(s.pending, item.key.start), item), s.pending, item.value.end,
              PutItem(text, s, item))
    decreases item, 3
  {
    KeyOutcome(text, s, p, item, end, k);
    AfterTwice(s.pending, item.key.start, item.value.end);
    hide PutValue, PutItem, PutFromColon, AtColon, ItemFits, Inv, Scan, ItemOk, After, NextToken, ModeAt, Lag, Diverged;
    ColonOutcome(text, PutValue(text, s, item.key).value, item);
  }

  /** From the end of a key on. */
  ghost predicate AtColon(text: string, s: State, item: Item) {
    && item.Member?
    && Inv(text, s, item.key.end) && s.pos == item.key.end > 0 && !Scan(s.out).mode.InLine?
    && var colon := NextToken(text, s.pending, item.key.end);
       var cs1 := After(s.pending, colon);
       && colon < |text| && text[colon] == ':'
       && item.value.start == NextToken(text, cs1, colon + 1)
       && ValueOk(text, After(cs1, item.value.start), item.value)
  }

  ghost function PutFromColon(text: string, s: State, v: Value): (r: Option<State>)
    ensures r.Some? ==> s.out <= r.value.out
  {
    var s1 :- PutSymbol(text, s, ':');
    PutMemberValue(text, s1, v)
  }

  lemma {:induction false} ColonOutcome(text: string, s: State, item: Item)
    requires AtColon(text, s, item)
    ensures Outcome(text, ItemFits(text, s.pending, item), s.pending, item.value.end, PutFromColon(text, s, item.value))
    decreases item, 1
  {
    hide PutSymbol, PutMemberValue;
    var colon := NextToken(text, s.pending, item.key.end);
    NextTokenGap(text, s.pending, item.key.end);
    if GapFits(text, s.pending, colon, ':') {
      ColonFits(text, s, item, colon);
      var s1 := PutSymbol(text, s, ':').value;
      MemberValueOutcome(text, s1, colon + 1, item.value, ':');
    } else {
      SymbolMisplaced(text, s, item.key.end, colon, ':', '[');
      LostStays(text, PutSymbol(text, s, ':').value, PutFromColon(text, s, item.value));
    }
  }

  lemma ColonFits(text: string, s: State, item: Item, colon: nat)
    requires AtColon(text, s, item) && colon == NextToken(text, s.pending, item.key.end)
    requires GapFits(text, s.pending, colon, ':') && GapOk(text, s.pending, item.key.end, colon)
    ensures PutSymbol(text, s, ':').Some?
    ensures var s1 := PutSymbol(text, s, ':').value;
            Ahead(text, s1, colon + 1, item.value, ':') && s1.pending == After(s.pending, colon)
              && After(s1.pending, item.value.end) == After(s.pending, item.value.end)
  {
    hide PutSymbol;
    SymbolPrinted(text, s, item.key.end, colon, ':', '[');
    GapEnd(text, s.pending, item.key.end, colon);
    TextSymbol(text, colon);
    var s1 := PutSymbol(text, s, ':').value;
    AheadGap(text, s1, colon + 1, item.value, ':');
    AfterTwice(s.pending, colon, item.value.end);
  }
}
