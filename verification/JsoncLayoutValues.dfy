/** What the formatter writes for a value that comes through are the pieces of the layout. */
module JsoncLayoutValues {
  import opened Outcomes
  import opened JsoncText
  import opened JsoncLexer
  import opened JsoncTree
  import opened JsoncSpec
  import opened JsoncScan
  import opened JsoncGaps
  import opened JsoncSymbols
  import opened JsoncOutcome
  import opened JsoncLayout
  import opened JsoncLayoutGaps

  // ----- leads -----

  predicate Headed(ps: seq<Piece>, lead: Lead) {
    ps != [] && ps[0].lead == lead
  }

  /** Only the lead of the first piece depends on the lead. */
  lemma {:induction false} ValueLead(text: string, cs: seq<Range>, v: Value, depth: nat, lead: Lead)
    ensures var ps := ValuePieces(text, cs, v, depth, Glued);
            Headed(ps, Glued) && ValuePieces(text, cs, v, depth, lead) == [ps[0].(lead := lead)] + ps[1..]
  {
  }

  lemma LeadMoves(x: string, lead: Lead, ps: seq<Piece>, z: string)
    requires Headed(ps, Glued) && Writes(x + LeadText(lead), ps, z)
    ensures Writes(x, [ps[0].(lead := lead)] + ps[1..], z)
  {
    var first, rest := ps[0], ps[1..];
    assert ps == [first] + rest;
    FlattenConcat([first], rest);
    FlattenOne(first);
    var led := first.(lead := lead);
    FlattenConcat([led], rest);
    FlattenOne(led);
    hide Flatten, LeadText, Inked;
    assert "" + first.written == first.written by { LeadGlued(first); }
    LeadGlued(first);
    Regroup(x, LeadText(lead), first.written + Flatten(rest));
    Regroup(LeadText(lead), first.written, Flatten(rest));
    assert AllInked([led] + rest) by { LeadInked(ps, lead); }
  }

  lemma LeadGlued(p: Piece)
    requires p.lead.Glued?
    ensures Text(p) == p.written
  {
    assert "" + p.written == p.written;
  }

  lemma LeadInked(ps: seq<Piece>, lead: Lead)
    requires ps != [] && AllInked(ps)
    ensures AllInked([ps[0].(lead := lead)] + ps[1..])
  {
    assert Inked(ps[0]);
  }

  lemma ValueLed(text: string, cs: seq<Range>, v: Value, depth: nat, lead: Lead, x: string, z: string)
    requires Writes(x + LeadText(lead), ValuePieces(text, cs, v, depth, Glued), z)
    ensures Writes(x, ValuePieces(text, cs, v, depth, lead), z)
  {
    ValueLead(text, cs, v, depth, lead);
    hide ValuePieces, LeadText, Writes;
    LeadMoves(x, lead, ValuePieces(text, cs, v, depth, Glued), z);
  }

  // ----- closing brackets -----

  lemma BreakBefore(text: string, s: State, q: nat)
    requires q < |text| && text[q] != '\n' && q > 0
    ensures Indent(text, s.(pos := q), q + 1).Some?
    ensures Indent(text, s.(pos := q), q + 1).value.out == s.out + LeadText(OwnLine(s.level, false))
  {
    IndentIs(text, s.(pos := q), q + 1);
  }

  /** A closing bracket whose comments are already printed. */
  lemma BracketIs(text: string, s: State, q: nat, ch: char, k: char)
    requires Inv(text, s, q) && Lag(text, s.pos, q, k) && k != ch
    requires q < |text| && text[q] == ch && IsClose(ch) && q > 0 && !Before(s.pending, q)
    ensures var r := PutSymbol(text, s, ch);
            r.Some? && Writes(s.out, [Piece(if s.multiline then OwnLine(s.level, false) else Glued, [ch])], r.value.out)
  {
    hide FindSymbol;
    FindFromLag(text, s, q, q, ch, k);
    NoCommentAt(text, s.pending, q);
    var lead := if s.multiline then OwnLine(s.level, false) else Glued;
    if s.multiline {
      CommentsInv(text, s, q, q, q + 1, k);
      BreakBefore(text, s, q);
    } else {
      assert s.out + "" == s.out;
    }
    hide Indent, Inv, LeadText, Comments;
    Regroup(s.out, LeadText(lead), [ch]);
    WritesOne(s.out, Piece(lead, [ch]), s.out + (LeadText(lead) + [ch]));
  }

  lemma CloseLaid(text: string, s: State, p: nat, kind: Kind, end: nat, k: char)
    requires AtClose(text, s, p, kind, end, k) && GapOk(text, s.pending, p, end - 1)
    ensures var r := PutClose(text, s, kind, end);
            r.Some? && Writes(s.out, ClosePieces(text, s.pending, s.pos, kind, end, s.level - 1, s.multiline), r.value.out)
  {
    hide Comments, PutSymbol, CommentPieces, Writes;
    CloseComments(text, s, p, kind, end, k);
    GapOrder(text, s.pending, p, end - 1);
    AfterOk(text, s.pending, end - 1);
    NoCommentAt(text, After(s.pending, end - 1), end - 1);
    CommentsIs(text, s, p, end - 1, end, k);
    var s2 := Comments(text, s, end).value;
    var s3 := s2.(level := s2.level - 1);
    BracketIs(text, s3, end - 1, kind.Close(), k);
    hide Inv, Lag;
    var bracket := Piece(if s.multiline then OwnLine(s.level - 1, false) else Glued, [kind.Close()]);
    WritesBoth(s.out, CommentPieces(text, s.pending, s.pos, end - 1, s.level, true), s2.out, [bracket],
      PutSymbol(text, s3, kind.Close()).value.out);
  }

  /** The trailing comma and the closing bracket. */
  lemma TailLaid(text: string, s: State, p: nat, kind: Kind, end: nat, k: char)
    requires AtClose(text, s, p, kind, end, k) && k != ','
    requires var sep := NextToken(text, s.pending, p);
             sep + 1 == end
             || (sep + 1 < end && text[sep] == ',' && NextToken(text, After(s.pending, sep), sep + 1) + 1 == end
                 && GapFits(text, s.pending, sep, ','))
    ensures var r := PutTail(text, s, kind, end);
            r.Some? && Writes(s.out, TailPieces(text, s.pending, s.pos, p, kind, end, s.level - 1, s.multiline), r.value.out)
  {
    hide PutClose, HasComma, NextToken, PutSymbol, GapFits, ModeAt, Writes, ClosePieces, SymbolPieces, Resume;
    var sep := NextToken(text, s.pending, p);
    NextTokenGap(text, s.pending, p);
    CommaTest(text, s, p, sep, end, k);
    if sep + 1 == end {
      CloseLaid(text, s, p, kind, end, k);
    } else {
      CommaThenClose(text, s, p, sep, kind, end, k);
      SymbolIs(text, s, p, sep, ',', k);
      SymbolPrinted(text, s, p, sep, ',', k);
      var s1 := PutSymbol(text, s, ',').value;
      CloseLaid(text, s1, sep + 1, kind, end, ',');
      hide Inv, Lag;
      WritesBoth(s.out, SymbolPieces(text, s.pending, s.pos, sep, ',', s.level), s1.out,
        ClosePieces(text, s1.pending, s1.pos, kind, end, s.level - 1, s.multiline), PutClose(text, s1, kind, end).value.out);
    }
  }

  // ----- values -----

  lemma LeafLaid(text: string, s: State, v: Value)
    requires LeafOk(text, s.pending, v)
    ensures var r := PutContent(text, s, v);
            r.Some? && Writes(s.out, ValuePieces(text, s.pending, v, s.level, Glued), r.value.out)
  {
    var t := text[v.start..v.end];
    assert t[0] != ' ' && t[0] != '\n' && t[|t| - 1] != '\n';
    LeadGlued(Piece(Glued, t));
    WritesOne(s.out, Piece(Glued, t), s.out + t);
  }

  lemma OpenLaid(text: string, s: State, q: nat, ch: char, k: char)
    requires Inv(text, s, q) && Lag(text, s.pos, q, k)
    requires q < |text| && text[q] == ch && (ch == '[' || ch == BRACE)
    requires !Scan(s.out).mode.InLine? && !StartsWithBlock(text, s.pending)
    ensures var r := PutSymbol(text, s, ch);
            r.Some? && r.value.out == s.out + [ch] && r.value.pending == s.pending && (k != ch ==> r.value.pos == q + 1)
  {
    OpenPrinted(text, s, q, ch, k);
    NoCommentAt(text, s.pending, q);
    hide Inv, Scan, FindSymbol;
    if k != ch {
      SymbolAt(text, s, q, ch, k);
    }
  }

  lemma SymbolAt(text: string, s: State, q: nat, ch: char, k: char)
    requires Inv(text, s, q) && Lag(text, s.pos, q, k) && k != ch
    requires q < |text| && text[q] == ch && IsSymbol(ch)
    ensures FindSymbol(text, s.pending, s.pos, ch) == Some(q + 1)
  {
    FindFromLag(text, s, q, q, ch, k);
  }

  /** A nested container is on several lines only behind an exact position. */
  predicate Exact(text: string, cs: seq<Range>, v: Value, k: char) {
    v.Container? && v.start <= v.end <= |text| && Multiline(text, cs, v) ==> k != v.kind.Open()
  }

  lemma {:induction false} ContentLaid(text: string, s: State, v: Value, k: char)
    requires Inv(text, s, v.start) && Lag(text, s.pos, v.start, k) && LagChar(k)
    requires ModeAt(text, v.start).Between? && Scan(s.out).mode.Between?
    requires ValueOk(text, s.pending, v) && !StartsWithBlock(text, s.pending)
    requires ValueFits(text, s.pending, v) && Exact(text, s.pending, v, k)
    ensures var r := PutContent(text, s, v);
            r.Some? && Writes(s.out, ValuePieces(text, s.pending, v, s.level, Glued), r.value.out)
    decreases v, 1
  {
    match v
    case Leaf(_, _) =>
      LeafLaid(text, s, v);
    case Container(start, end, kind, items) =>
      hide *;
      ContentReady(text, s, v, k);
      var s1 := PutSymbol(text, s, kind.Open()).value;
      BodyLaid(text, s1, v, s.multiline);
      ContentWritten(text, s, v, s1);
  }

  lemma OpenReady(text: string, s: State, q: nat, ch: char, k: char)
    requires Inv(text, s, q) && Lag(text, s.pos, q, k) && !StartsWithBlock(text, s.pending)
    requires q < |text| && text[q] == ch && (ch == '[' || ch == BRACE) && Scan(s.out).mode.Between?
    ensures PutSymbol(text, s, ch).Some?
    ensures var s1 := PutSymbol(text, s, ch).value;
            && s1.out == s.out + [ch] && s1.pending == s.pending && s1.level == s.level
            && Inv(text, s1, q + 1) && Lag(text, s1.pos, q + 1, ch)
            && ModeAt(text, q + 1).Between? && Scan(s1.out).mode.Between? && s1.pos > 0
            && (k != ch ==> s1.pos == q + 1)
  {
    OpenPrinted(text, s, q, ch, k);
    OpenLaid(text, s, q, ch, k);
    TextSymbol(text, q);
    hide PutSymbol, Inv, Lag, Scan;
  }

  lemma ContentReady(text: string, s: State, v: Value, k: char)
    requires v.Container? && Inv(text, s, v.start) && Lag(text, s.pos, v.start, k) && LagChar(k)
    requires ModeAt(text, v.start).Between? && Scan(s.out).mode.Between?
    requires ValueOk(text, s.pending, v) && !StartsWithBlock(text, s.pending) && Exact(text, s.pending, v, k)
    ensures v.start + 1 < v.end <= |text| && PutSymbol(text, s, v.kind.Open()).Some?
    ensures var s1 := PutSymbol(text, s, v.kind.Open()).value;
            && s1.out == s.out + [v.kind.Open()] && s1.pending == s.pending && s1.level == s.level
            && Inv(text, s1, v.start + 1) && Lag(text, s1.pos, v.start + 1, v.kind.Open())
            && ModeAt(text, v.start + 1).Between? && Scan(s1.out).mode.Between? && s1.pos > 0
            && (Multiline(text, s1.pending, v) ==> s1.pos == v.start + 1)
  {
    hide Inv, Lag, ModeAt, Scan, PutSymbol, ItemsOk, NextToken, StartsWithBlock, Multiline;
    OpenReady(text, s, v.start, v.kind.Open(), k);
  }

  lemma ContentWritten(text: string, s: State, v: Value, s1: State)
    requires v.Container? && v.start <= v.end <= |text| && PutSymbol(text, s, v.kind.Open()) == Some(s1)
    requires s1.out == s.out + [v.kind.Open()] && s1.pending == s.pending && s1.level == s.level
    requires var r := PutBody(text, s1, v, s.multiline);
             r.Some? && Writes(s1.out, InsidePieces(text, s1.pending, v, s1.level), r.value.out)
    ensures var r := PutContent(text, s, v);
            r.Some? && Writes(s.out, ValuePieces(text, s.pending, v, s.level, Glued), r.value.out)
  {
    hide PutSymbol, PutBody, Writes, InsidePieces;
    var open := Piece(Glued, [v.kind.Open()]);
    LeadGlued(open);
    WritesOne(s.out, open, s1.out);
    WritesBoth(s.out, [open], s1.out, InsidePieces(text, s1.pending, v, s1.level), PutBody(text, s1, v, s.multiline).value.out);
  }

  lemma {:induction false} BodyLaid(text: string, s: State, v: Value, outer: bool)
    requires v.Container? && ValueOk(text, s.pending, v) && ValueFits(text, s.pending, v)
    requires Inv(text, s, v.start + 1) && Lag(text, s.pos, v.start + 1, v.kind.Open())
    requires ModeAt(text, v.start + 1).Between? && Scan(s.out).mode.Between? && s.pos > 0
    requires !StartsWithBlock(text, s.pending)
    requires Multiline(text, s.pending, v) ==> s.pos == v.start + 1
    ensures var r := PutBody(text, s, v, outer);
            r.Some? && Writes(s.out, InsidePieces(text, s.pending, v, s.level), r.value.out)
    decreases v, 0, 2
  {
    hide PutInside, InsidePieces, Writes;
    InsideLaid(text, s.(level := s.level + 1, multiline := Multiline(text, s.pending, v)), v);
  }

  lemma SeveralIs(text: string, cs: seq<Range>, v: Value)
    requires v.start <= v.end <= |text|
    ensures Multiline(text, cs, v) <==> Before(After(cs, v.start), v.end) || HasNewline(text, v.start, v.end)
  {
    ContainsIs(text, v.start, v.end);
  }

  lemma {:induction false} InsideLaid(text: string, s: State, v: Value)
    requires v.Container? && ValueOk(text, s.pending, v) && ValueFits(text, s.pending, v)
    requires Inv(text, s, v.start + 1) && Lag(text, s.pos, v.start + 1, v.kind.Open())
    requires ModeAt(text, v.start + 1).Between? && Scan(s.out).mode.Between? && s.pos > 0 && s.level > 0
    requires s.multiline == Multiline(text, s.pending, v) && !StartsWithBlock(text, s.pending)
    requires s.multiline ==> s.pos == v.start + 1
    ensures var r := PutInside(text, s, v);
            r.Some? && Writes(s.out, InsidePieces(text, s.pending, v, s.level - 1), r.value.out)
    decreases v, 0, 1
  {
    InsideReady(text, s, v, v.kind.Open());
    InsideIs(text, s, v);
    SeveralIs(text, s.pending, v);
    hide Inv, Lag, Scan, ModeAt, NextToken, StartsWithBlock, Writes, PutInside, ItemsOk, ItemsPieces, AtItems, AtClose, TailPieces,
         PutFrom, PutTail, InsidePieces;
    if v.items == [] {
      EmptyLaid(text, s, v);
    } else {
      SomeLaid(text, s, v);
    }
  }

  lemma {:induction false} SomeLaid(text: string, s: State, v: Value)
    requires v.Container? && v.items != [] && AtItems(text, s, v.start + 1, v.kind, v.items, v.end, v.kind.Open())
    requires ValueFits(text, s.pending, v) && (s.multiline ==> s.pos == v.start + 1)
    requires s.multiline == (Before(After(s.pending, v.start), v.end) || HasNewline(text, v.start, v.end))
    ensures var r := PutFrom(text, s, v.kind, v.items, v.end);
            r.Some? && Writes(s.out, InsidePieces(text, s.pending, v, s.level - 1), r.value.out)
    decreases v, 0, 0
  {
    hide *;
    var k := if s.multiline then ',' else v.kind.Open();
    AtFirst(text, s, v, k);
    InsideLine(text, s, v);
    SomeIs(text, s, v);
    ItemsAnywhere(text, s.pending, s.pos, v, s.level - 1, s.multiline);
    ItemsLaid(text, s, v.start + 1, v.kind, v.items, v.end, k);
  }

  lemma SomeIs(text: string, s: State, v: Value)
    requires v.Container? && v.items != [] && ValueFits(text, s.pending, v)
    requires AtItems(text, s, v.start + 1, v.kind, v.items, v.end, v.kind.Open())
    requires s.multiline == (Before(After(s.pending, v.start), v.end) || HasNewline(text, v.start, v.end))
    ensures s.level > 0 && v.end <= |text| && ItemsFit(text, s.pending, v.start + 1, v.items, v.end)
    ensures InsidePieces(text, s.pending, v, s.level - 1)
         == ItemsPieces(text, s.pending, v.start + 1, v.start + 1, v.kind, v.items, v.end, s.level - 1, s.multiline, Glued)
  {
    hide Inv, Lag, Scan, ModeAt, ItemsOk, ItemsPieces, ItemsFit, HasNewline, Before, After;
  }

  lemma InsideLine(text: string, s: State, v: Value)
    requires v.Container? && v.items != [] && AtItems(text, s, v.start + 1, v.kind, v.items, v.end, v.kind.Open())
    requires s.multiline == (Before(After(s.pending, v.start), v.end) || HasNewline(text, v.start, v.end))
    ensures OneLine(text, s, v.start + 1, v.end)
  {
    hide Inv, Lag, Scan, ModeAt, ItemsOk;
  }

  lemma EmptyInside(text: string, s: State, v: Value)
    requires v.Container? && v.items == [] && AtClose(text, s, v.start + 1, v.kind, v.end, v.kind.Open())
    requires s.multiline == (Before(After(s.pending, v.start), v.end) || HasNewline(text, v.start, v.end))
    ensures s.level > 0 && v.end <= |text| && v.kind.Open() != ','
    ensures InsidePieces(text, s.pending, v, s.level - 1)
         == TailPieces(text, s.pending, v.start + 1, v.start + 1, v.kind, v.end, s.level - 1, s.multiline)
  {
    hide Inv, Lag, Scan, TailPieces, HasNewline;
  }

  lemma EmptyLaid(text: string, s: State, v: Value)
    requires v.Container? && v.items == [] && AtClose(text, s, v.start + 1, v.kind, v.end, v.kind.Open())
    requires NextToken(text, s.pending, v.start + 1) + 1 == v.end && (s.multiline ==> s.pos == v.start + 1)
    requires s.multiline == (Before(After(s.pending, v.start), v.end) || HasNewline(text, v.start, v.end))
    ensures var r := PutTail(text, s, v.kind, v.end);
            r.Some? && Writes(s.out, InsidePieces(text, s.pending, v, s.level - 1), r.value.out)
  {
    hide *;
    EmptyInside(text, s, v);
    EmptyFrom(text, s, v);
    TailLaid(text, s, v.start + 1, v.kind, v.end, v.kind.Open());
  }

  lemma ItemsAnywhere(text: string, cs: seq<Range>, from: nat, v: Value, depth: nat, several: bool)
    requires v.Container? && v.items != [] && (several ==> from == v.start + 1)
    ensures ItemsPieces(text, cs, from, v.start + 1, v.kind, v.items, v.end, depth, several, Glued)
         == ItemsPieces(text, cs, v.start + 1, v.start + 1, v.kind, v.items, v.end, depth, several, Glued)
  {
    hide ItemPieces, RestPieces, CommentPieces;
  }

  /** On one line it does not matter where reading resumes. */
  lemma EmptyFrom(text: string, s: State, v: Value)
    requires v.Container? && v.items == [] && AtClose(text, s, v.start + 1, v.kind, v.end, v.kind.Open())
    requires NextToken(text, s.pending, v.start + 1) + 1 == v.end && (s.multiline ==> s.pos == v.start + 1)
    ensures TailPieces(text, s.pending, s.pos, v.start + 1, v.kind, v.end, s.level - 1, s.multiline)
         == TailPieces(text, s.pending, v.start + 1, v.start + 1, v.kind, v.end, s.level - 1, s.multiline)
  {
    hide Inv, Lag, Scan, NextToken;
  }

  lemma AtFirst(text: string, s: State, v: Value, k: char)
    requires v.Container? && v.items != [] && AtItems(text, s, v.start + 1, v.kind, v.items, v.end, v.kind.Open())
    requires k == if s.multiline then ',' else v.kind.Open()
    requires s.multiline ==> s.pos == v.start + 1
    ensures AtItems(text, s, v.start + 1, v.kind, v.items, v.end, k)
  {
    hide Inv, Scan, ModeAt, ItemsOk;
  }

  // ----- items -----

  /** Without a newline nor a comment in what follows, nested containers are on one line. */
  ghost predicate OneLine(text: string, s: State, p: nat, end: nat) {
    !s.multiline ==> !HasNewline(text, p, end) && !Before(s.pending, end)
  }

  lemma NestedExact(text: string, s: State, p: nat, v: Value, end: nat, k: char)
    requires OneLine(text, s, p, end) && (s.multiline ==> k == ',') && p <= v.start <= v.end <= end <= |text|
    ensures Exact(text, After(s.pending, v.start), v, k)
  {
    if !s.multiline {
      SeveralIs(text, After(s.pending, v.start), v);
    }
  }

  lemma {:induction false} ItemsLaid(text: string, s: State, p: nat, kind: Kind, items: seq<Item>, end: nat, k: char)
    requires AtItems(text, s, p, kind, items, end, k) && ItemsFit(text, s.pending, p, items, end)
    requires OneLine(text, s, p, end) && (s.multiline ==> k == ',')
    ensures var r := PutFrom(text, s, kind, items, end);
            r.Some?
            && Writes(s.out, ItemsPieces(text, s.pending, s.pos, p, kind, items, end, s.level - 1, s.multiline, Glued), r.value.out)
    decreases items, 1
  {
    hide *;
    FirstLaid(text, s, p, kind, items, end, k);
    var s1 := PutItem(text, s, items[0]).value;
    RestLaid(text, s1, items[0].value.end, kind, items, end);
    ItemsWritten(text, s, s1, p, kind, items, end);
  }

  /** The first item, and what is ready behind it. */
  lemma {:induction false} FirstLaid(text: string, s: State, p: nat, kind: Kind, items: seq<Item>, end: nat, k: char)
    requires AtItems(text, s, p, kind, items, end, k) && ItemsFit(text, s.pending, p, items, end)
    requires OneLine(text, s, p, end) && (s.multiline ==> k == ',')
    ensures items != [] && 1 < end <= |text| && s.level > 0 && PutItem(text, s, items[0]).Some?
    ensures var s1, e := PutItem(text, s, items[0]).value, items[0].value.end;
            && AtClose(text, s1, e, kind, end, '[') && RestOk(text, s1.pending, e, kind, items, end)
            && RestFits(text, s1.pending, e, items, end) && OneLine(text, s1, e, end) && s1.pos == e
            && s1.pending == After(After(s.pending, NextToken(text, s.pending, p)), e)
            && Writes(s.out, LinePieces(text, s.pending, s.pos, NextToken(text, s.pending, p), items[0], s.level, s.multiline, Glued),
                 s1.out)
    decreases items, 0, 3
  {
    ItemEnds(text, s, p, kind, items, end, k);
    ItemsFitSplit(text, s, p, kind, items, end, k);
    ItemOutcome(text, s, p, kind, items[0], end, k);
    ItemLaid(text, s, p, kind, items[0], end, k);
    var s1, e := PutItem(text, s, items[0]).value, items[0].value.end;
    AfterItem(text, s, p, kind, items, end, k, s1);
    LineAfter(text, s, s1, p, e, end);
    hide AtClose, RestFits, RestOk, ItemsFit, Writes, LinePieces, PutItem, OneLine, ItemsOk, NextToken;
  }

  lemma ItemsWritten(text: string, s: State, s1: State, p: nat, kind: Kind, items: seq<Item>, end: nat)
    requires items != [] && end <= |text| && s.level > 0 && PutItem(text, s, items[0]) == Some(s1)
    requires s1.pending == After(After(s.pending, NextToken(text, s.pending, p)), items[0].value.end)
    requires Writes(s.out,
               LinePieces(text, s.pending, s.pos, NextToken(text, s.pending, p), items[0], s.level, s.multiline, Glued), s1.out)
    requires var r := PutRest(text, s1, kind, items[1..], end);
             r.Some? && Writes(s1.out, RestPieces(text, s1.pending, kind, items, end, s.level - 1, s.multiline), r.value.out)
    ensures var r := PutFrom(text, s, kind, items, end);
            r.Some?
            && Writes(s.out, ItemsPieces(text, s.pending, s.pos, p, kind, items, end, s.level - 1, s.multiline, Glued), r.value.out)
  {
    hide Writes, LinePieces, RestPieces, PutItem, PutRest, NextToken, After;
    WritesBoth(s.out, LinePieces(text, s.pending, s.pos, NextToken(text, s.pending, p), items[0], s.level, s.multiline, Glued),
      s1.out, RestPieces(text, s1.pending, kind, items, end, s.level - 1, s.multiline),
      PutRest(text, s1, kind, items[1..], end).value.out);
  }

  lemma LineAfter(text: string, s: State, s1: State, p: nat, e: nat, end: nat)
    requires OneLine(text, s, p, end) && p <= e <= end && s1.multiline == s.multiline && s1.pending == After(s.pending, e)
    ensures OneLine(text, s1, e, end)
  {
    if !s.multiline {
      LaterBefore(s.pending, e, end);
    }
  }

  /** From the end of an item on. */
  lemma {:induction false} RestLaid(text: string, s: State, p: nat, kind: Kind, items: seq<Item>, end: nat)
    requires items != [] && p == items[0].value.end == s.pos
    requires AtClose(text, s, p, kind, end, '[') && end > 1 && RestOk(text, s.pending, p, kind, items, end)
    requires RestFits(text, s.pending, p, items, end) && OneLine(text, s, p, end)
    ensures var r := PutRest(text, s, kind, items[1..], end);
            r.Some? && Writes(s.out, RestPieces(text, s.pending, kind, items, end, s.level - 1, s.multiline), r.value.out)
    decreases items, 0, 1
  {
    if |items| == 1 {
      LastLaid(text, s, p, kind, items, end);
    } else {
      hide Inv, OneLine, AtClose, RestOk, RestFits, Writes, PutRest, RestPieces;
      MoreLaid(text, s, p, kind, items, end);
    }
  }

  lemma LastLaid(text: string, s: State, p: nat, kind: Kind, items: seq<Item>, end: nat)
    requires |items| == 1 && p == items[0].value.end == s.pos
    requires AtClose(text, s, p, kind, end, '[') && end > 1 && RestOk(text, s.pending, p, kind, items, end)
    requires RestFits(text, s.pending, p, items, end)
    ensures var r := PutRest(text, s, kind, items[1..], end);
            r.Some? && Writes(s.out, RestPieces(text, s.pending, kind, items, end, s.level - 1, s.multiline), r.value.out)
  {
    hide *;
    LastTail(text, s, p, kind, items, end);
    TailLaid(text, s, p, kind, end, '[');
  }

  lemma LastTail(text: string, s: State, p: nat, kind: Kind, items: seq<Item>, end: nat)
    requires |items| == 1 && p == items[0].value.end == s.pos
    requires AtClose(text, s, p, kind, end, '[') && RestOk(text, s.pending, p, kind, items, end)
    requires RestFits(text, s.pending, p, items, end)
    ensures end <= |text| && s.level > 0
    ensures var sep := NextToken(text, s.pending, p);
            sep + 1 == end
            || (sep + 1 < end && text[sep] == ',' && NextToken(text, After(s.pending, sep), sep + 1) + 1 == end
                && GapFits(text, s.pending, sep, ','))
    ensures PutRest(text, s, kind, items[1..], end) == PutTail(text, s, kind, end)
    ensures RestPieces(text, s.pending, kind, items, end, s.level - 1, s.multiline)
         == TailPieces(text, s.pending, s.pos, p, kind, end, s.level - 1, s.multiline)
  {
    hide NextToken, GapFits, After, PutTail, TailPieces, Inv, Lag, Scan;
  }

  lemma MoreReady(text: string, s: State, p: nat, kind: Kind, items: seq<Item>, end: nat)
    requires |items| > 1 && p == items[0].value.end == s.pos
    requires AtClose(text, s, p, kind, end, '[') && end > 1 && RestOk(text, s.pending, p, kind, items, end)
    requires RestFits(text, s.pending, p, items, end) && OneLine(text, s, p, end)
    ensures end <= |text| && s.level > 0 && PutSymbol(text, s, ',').Some? && PutComma(text, s).Some?
    ensures var sep, s1, s2 := NextToken(text, s.pending, p), PutSymbol(text, s, ',').value, PutComma(text, s).value;
            && AtItems(text, s2, sep + 1, kind, items[1..], end, ',') && OneLine(text, s2, sep + 1, end)
            && ItemsFit(text, s2.pending, sep + 1, items[1..], end) && s2.pending == After(s.pending, sep)
            && PutRest(text, s, kind, items[1..], end) == PutFrom(text, s2, kind, items[1..], end)
            && Writes(s.out, SymbolPieces(text, s.pending, s.pos, sep, ',', s.level), s1.out)
            && s2 == s1.(out := if s1.multiline then s1.out else s1.out + " ") && s2.multiline == s.multiline
            && s2.pos == Resume(text, s.pending, sep, ',') && s2.level == s.level
  {
    hide ItemsFit, NextToken, ItemsOk, PutSymbol, PutFrom, PutRest, PutComma, Scan, GapFits, Writes, SymbolPieces, HasNewline;
    var sep, more := NextToken(text, s.pending, p), items[1..];
    NextTokenGap(text, s.pending, p);
    RestSplit(text, s.pending, p, kind, items, end);
    hide RestOk, RestFits;
    NextItems(text, s, p, sep, kind, items, end);
    CommaLaid(text, s, p, sep, kind, end);
    PutRestComma(text, s, kind, more, end);
    var s2 := PutComma(text, s).value;
    LineAfter(text, s, s2, p, sep, end);
    LineFrom(text, s2, sep, end);
  }

  lemma {:induction false} MoreLaid(text: string, s: State, p: nat, kind: Kind, items: seq<Item>, end: nat)
    requires |items| > 1 && p == items[0].value.end == s.pos
    requires AtClose(text, s, p, kind, end, '[') && end > 1 && RestOk(text, s.pending, p, kind, items, end)
    requires RestFits(text, s.pending, p, items, end) && OneLine(text, s, p, end)
    ensures var r := PutRest(text, s, kind, items[1..], end);
            r.Some? && Writes(s.out, RestPieces(text, s.pending, kind, items, end, s.level - 1, s.multiline), r.value.out)
    decreases items, 0, 0
  {
    hide *;
    MoreReady(text, s, p, kind, items, end);
    var s2 := PutComma(text, s).value;
    var sep := NextToken(text, s.pending, p);
    ItemsLaid(text, s2, sep + 1, kind, items[1..], end, ',');
    MoreWritten(text, s, s2, p, sep, kind, items, end);
  }

  /** The comma, and the blank behind it on one line. */
  lemma CommaLaid(text: string, s: State, p: nat, sep: nat, kind: Kind, end: nat)
    requires AtClose(text, s, p, kind, end, '[') && GapOk(text, s.pending, p, sep) && sep + 1 < end && text[sep] == ','
    requires GapFits(text, s.pending, sep, ',')
    ensures PutSymbol(text, s, ',').Some? && PutComma(text, s).Some?
    ensures var s1, s2 := PutSymbol(text, s, ',').value, PutComma(text, s).value;
            && Writes(s.out, SymbolPieces(text, s.pending, s.pos, sep, ',', s.level), s1.out)
            && s2 == s1.(out := if s1.multiline then s1.out else s1.out + " ") && s2.multiline == s.multiline
            && s2.pos == Resume(text, s.pending, sep, ',') && s2.level == s.level
  {
    hide Scan, Writes, SymbolPieces, Resume, PutSymbol, Inv;
    CommaGap(text, s, p, sep, kind, end);
    SymbolIs(text, s, p, sep, ',', '[');
  }

  lemma CommaGap(text: string, s: State, p: nat, sep: nat, kind: Kind, end: nat)
    requires AtClose(text, s, p, kind, end, '[')
    ensures Inv(text, s, p) && Lag(text, s.pos, p, '[') && !StartsWithBlock(text, s.pending) && end <= |text|
  {
  }

  lemma MoreWritten(text: string, s: State, s2: State, p: nat, sep: nat, kind: Kind, items: seq<Item>, end: nat)
    requires |items| > 1 && p == items[0].value.end == s.pos && end <= |text| && s.level > 0
    requires sep == NextToken(text, s.pending, p) && s2.pending == After(s.pending, sep)
    requires PutSymbol(text, s, ',').Some? && PutComma(text, s) == Some(s2)
    requires var s1 := PutSymbol(text, s, ',').value;
             && Writes(s.out, SymbolPieces(text, s.pending, s.pos, sep, ',', s.level), s1.out)
             && s2 == s1.(out := if s1.multiline then s1.out else s1.out + " ") && s2.multiline == s.multiline
             && s2.pos == Resume(text, s.pending, sep, ',') && s2.level == s.level
    requires var r := PutFrom(text, s2, kind, items[1..], end);
             r.Some?
             && Writes(s2.out,
                  ItemsPieces(text, s2.pending, s2.pos, sep + 1, kind, items[1..], end, s2.level - 1, s2.multiline, Glued), r.value.out)
    requires PutRest(text, s, kind, items[1..], end) == PutFrom(text, s2, kind, items[1..], end)
    ensures var r := PutRest(text, s, kind, items[1..], end);
            r.Some? && Writes(s.out, RestPieces(text, s.pending, kind, items, end, s.level - 1, s.multiline), r.value.out)
  {
    hide Writes, SymbolPieces, ItemsPieces, PutSymbol, PutComma, PutFrom, PutRest, Resume, NextToken, After;
    var s1, more := PutSymbol(text, s, ',').value, items[1..];
    var z := PutFrom(text, s2, kind, more, end).value.out;
    MoreLed(text, s1, s2, sep + 1, kind, more, end, z);
    WritesBoth(s.out, SymbolPieces(text, s.pending, p, sep, ',', s.level), s1.out,
      ItemsPieces(text, s2.pending, s2.pos, sep + 1, kind, more, end, s.level - 1, s.multiline, Spaced), z);
  }

  lemma LineFrom(text: string, s: State, sep: nat, end: nat)
    requires OneLine(text, s, sep, end)
    ensures OneLine(text, s, sep + 1, end)
  {
  }

  /** The blank after a comma belongs to the next item. */
  lemma MoreLed(text: string, s1: State, s2: State, p: nat, kind: Kind, items: seq<Item>, end: nat, z: string)
    requires items != [] && s2 == s1.(out := s2.out) && s1.level > 0
    requires s2.out == if s1.multiline then s1.out else s1.out + " "
    requires Writes(s2.out, ItemsPieces(text, s2.pending, s2.pos, p, kind, items, end, s2.level - 1, s2.multiline, Glued), z)
    ensures Writes(s1.out, ItemsPieces(text, s2.pending, s2.pos, p, kind, items, end, s2.level - 1, s2.multiline, Spaced), z)
  {
    hide Writes, ItemsPieces;
    ItemsLead(text, s2.pending, s2.pos, p, kind, items, end, s2.level - 1, s2.multiline);
    if !s1.multiline {
      LeadMoves(s1.out, Spaced, ItemsPieces(text, s2.pending, s2.pos, p, kind, items, end, s2.level - 1, s2.multiline, Glued), z);
    }
  }

  /** The same pieces, but for the lead of the first. */
  predicate LedAs(ps: seq<Piece>, lead: Lead, led: seq<Piece>) {
    Headed(ps, Glued) && led == [ps[0].(lead := lead)] + ps[1..]
  }

  lemma LedConcat(ps: seq<Piece>, lead: Lead, led: seq<Piece>, more: seq<Piece>)
    requires LedAs(ps, lead, led)
    ensures LedAs(ps + more, lead, led + more)
  {
    assert (ps + more)[1..] == ps[1..] + more;
    Regroup([ps[0].(lead := lead)], ps[1..], more);
  }

  lemma ItemLed(text: string, cs: seq<Range>, item: Item, depth: nat, lead: Lead)
    ensures LedAs(ItemPieces(text, cs, item, depth, Glued), lead, ItemPieces(text, cs, item, depth, lead))
  {
    match item
    case Element(value) => ValueLead(text, cs, value, depth, lead);
    case Member(key, value) =>
      ValueLead(text, cs, key, depth, lead);
      hide ValuePieces, MemberPieces;
      LedConcat(ValuePieces(text, cs, key, depth, Glued), lead, ValuePieces(text, cs, key, depth, lead),
        MemberPieces(text, cs, key.end, value, depth));
  }

  lemma ItemsLead(text: string, cs: seq<Range>, from: nat, p: nat, kind: Kind, items: seq<Item>, end: nat, depth: nat,
      several: bool)
    requires items != []
    ensures var ps := ItemsPieces(text, cs, from, p, kind, items, end, depth, several, Glued);
            var led := ItemsPieces(text, cs, from, p, kind, items, end, depth, several, Spaced);
            if several then led == ps else LedAs(ps, Spaced, led)
  {
    if !several {
      var cs1 := After(cs, NextToken(text, cs, p));
      ItemLed(text, cs1, items[0], depth + 1, Spaced);
      hide ItemPieces, RestPieces, NextToken, LedAs;
      LedConcat(ItemPieces(text, cs1, items[0], depth + 1, Glued), Spaced, ItemPieces(text, cs1, items[0], depth + 1, Spaced),
        RestPieces(text, After(cs1, items[0].value.end), kind, items, end, depth, several));
    }
  }

  lemma {:induction false} ItemLaid(text: string, s: State, p: nat, kind: Kind, item: Item, end: nat, k: char)
    requires Inv(text, s, p) && Lag(text, s.pos, p, k) && LagChar(k) && (kind.ArrayKind? ==> k != BRACE)
    requires ModeAt(text, p).Between? && Scan(s.out).mode.Between? && s.pos > 0 && !StartsWithBlock(text, s.pending)
    requires LayoutOk(s, end) && item.value.end < end <= |text|
    requires var start := NextToken(text, s.pending, p); ItemOk(text, After(s.pending, start), start, kind, item)
    requires ItemFits(text, After(s.pending, NextToken(text, s.pending, p)), item)
    requires OneLine(text, s, p, end) && (s.multiline ==> k == ',')
    ensures var r := PutItem(text, s, item);
            r.Some?
            && Writes(s.out, LinePieces(text, s.pending, s.pos, NextToken(text, s.pending, p), item, s.level, s.multiline, Glued),
                 r.value.out)
    decreases item, 4
  {
    match item
    case Element(value) =>
      AheadGap(text, s, p, value, k);
      NestedExact(text, s, p, value, end, k);
      ValueLaid(text, s, p, value, k);
    case Member(key, value) =>
      AfterOk(text, s.pending, key.start);
      MemberSpan(text, After(s.pending, key.start), item, end);
      MemberLaid(text, s, p, item, end, k);
  }

  /** A value on its own line behind its comments, or where it is. */
  ghost function LedValue(text: string, cs: seq<Range>, from: nat, v: Value, depth: nat, several: bool): seq<Piece> {
    if several then
      CommentPieces(text, cs, from, v.start, depth, true)
      + ValuePieces(text, After(cs, v.start), v, depth, Own(text, LastEnd(cs, from, v.start), v.start, depth))
    else ValuePieces(text, After(cs, v.start), v, depth, Glued)
  }

  lemma {:induction false} ValueLaid(text: string, s: State, p: nat, v: Value, k: char)
    requires Ahead(text, s, p, v, k) && LayoutOk(s, v.start)
    requires ValueFits(text, After(s.pending, v.start), v) && Exact(text, After(s.pending, v.start), v, k)
    ensures var r := PutValue(text, s, v);
            r.Some? && Writes(s.out, LedValue(text, s.pending, s.pos, v, s.level, s.multiline), r.value.out)
    decreases v, 3
  {
    AheadGap(text, s, p, v, k);
    if s.multiline {
      NewLineLaid(text, s, p, v, k);
    } else {
      Advance(text, s, p, v.start);
      LaterBefore(s.pending, v.start, v.start);
      ContentLaid(text, s, v, k);
    }
  }

  /** The comments in front of a value, a new line, and the value. */
  lemma {:induction false} NewLineLaid(text: string, s: State, p: nat, v: Value, k: char)
    requires Ahead(text, s, p, v, k)
    requires ValueFits(text, After(s.pending, v.start), v) && Exact(text, After(s.pending, v.start), v, k)
    ensures Comments(text, s, v.start).Some? && Indent(text, Comments(text, s, v.start).value, v.start).Some?
    ensures var r := PutContent(text, Indent(text, Comments(text, s, v.start).value, v.start).value, v);
            r.Some? && Writes(s.out, LedValue(text, s.pending, s.pos, v, s.level, true), r.value.out)
    decreases v, 2
  {
    AheadGap(text, s, p, v, k);
    AfterOk(text, s.pending, v.start);
    ValueOnNewLine(text, s, p, v, k);
    CommentsIs(text, s, p, v.start, v.start, k);
    CommentsInv(text, s, p, v.start, v.start, k);
    var s2 := Comments(text, s, v.start).value;
    IndentIs(text, s2, v.start);
    var s3 := Indent(text, s2, v.start).value;
    ContentLaid(text, s3, v, k);
    hide Inv, Lag, Writes, Comments, Indent, PutContent, CommentPieces, ValuePieces, Own, LeadText;
    var lead, cs1 := Own(text, s2.pos, v.start, s.level), After(s.pending, v.start);
    var z := PutContent(text, s3, v).value.out;
    ValueLed(text, cs1, v, s.level, lead, s2.out, z);
    WritesBoth(s.out, CommentPieces(text, s.pending, s.pos, v.start, s.level, true), s2.out,
      ValuePieces(text, cs1, v, s.level, lead), z);
  }

  ghost function MemberValuePieces(text: string, cs: seq<Range>, from: nat, v: Value, depth: nat): seq<Piece> {
    CommentPieces(text, cs, from, v.start, depth, true)
    + ValuePieces(text, After(cs, v.start), v, depth,
        if Before(cs, v.start) then Own(text, LastEnd(cs, from, v.start), v.start, depth) else Spaced)
  }

  lemma {:induction false} MemberValueLaid(text: string, s: State, p: nat, v: Value, k: char)
    requires Ahead(text, s, p, v, k)
    requires ValueFits(text, After(s.pending, v.start), v) && Exact(text, After(s.pending, v.start), v, k)
    ensures var r := PutMemberValue(text, s, v);
            r.Some? && Writes(s.out, MemberValuePieces(text, s.pending, s.pos, v, s.level), r.value.out)
    decreases v, 3
  {
    AheadGap(text, s, p, v, k);
    if Before(s.pending, v.start) {
      NewLineLaid(text, s, p, v, k);
    } else {
      Advance(text, s, p, v.start);
      OutBlank(s.out);
      LaterBefore(s.pending, v.start, v.start);
      ContentLaid(text, s.(out := s.out + " "), v, k);
      SpacedValue(text, s, v);
    }
  }

  lemma SpacedValue(text: string, s: State, v: Value)
    requires !Before(s.pending, v.start) && After(s.pending, v.start) == s.pending
    requires var r := PutContent(text, s.(out := s.out + " "), v);
             r.Some? && Writes(s.out + " ", ValuePieces(text, s.pending, v, s.level, Glued), r.value.out)
    ensures Writes(s.out, MemberValuePieces(text, s.pending, s.pos, v, s.level),
              PutContent(text, s.(out := s.out + " "), v).value.out)
  {
    hide Writes, PutContent, ValuePieces;
    ValueLed(text, s.pending, v, s.level, Spaced, s.out, PutContent(text, s.(out := s.out + " "), v).value.out);
    var ps := ValuePieces(text, s.pending, v, s.level, Spaced);
    assert [] + ps == ps;
  }

  /** From the colon on. */
  lemma {:induction false} ColonLaid(text: string, s: State, item: Item)
    requires AtColon(text, s, item) && ItemFits(text, s.pending, item)
    ensures var r := PutFromColon(text, s, item.value);
            r.Some? && Writes(s.out, MemberPieces(text, s.pending, item.key.end, item.value, s.level), r.value.out)
    decreases item, 1
  {
    hide PutSymbol, PutMemberValue, Writes;
    var colon, v := NextToken(text, s.pending, item.key.end), item.value;
    NextTokenGap(text, s.pending, item.key.end);
    ColonFits(text, s, item, colon);
    SymbolIs(text, s, item.key.end, colon, ':', '[');
    var s1 := PutSymbol(text, s, ':').value;
    hide Inv, Lag, NextToken, Ahead, SymbolPieces, Resume, GapFits, CommentPieces, ValuePieces, Own;
    MemberValueLaid(text, s1, colon + 1, v, ':');
    var z := PutMemberValue(text, s1, v).value.out;
    WritesBoth(s.out, SymbolPieces(text, s.pending, item.key.end, colon, ':', s.level), s1.out,
      MemberValuePieces(text, s1.pending, s1.pos, v, s.level), z);
    Regroup(SymbolPieces(text, s.pending, item.key.end, colon, ':', s.level),
      CommentPieces(text, s1.pending, s1.pos, v.start, s.level, true),
      ValuePieces(text, After(s1.pending, v.start), v, s.level,
        if Before(s1.pending, v.start) then Own(text, LastEnd(s1.pending, s1.pos, v.start), v.start, s.level) else Spaced));
  }

  lemma {:induction false} MemberLaid(text: string, s: State, p: nat, item: Item, end: nat, k: char)
    requires item.Member? && item.key.start == NextToken(text, s.pending, p)
    requires Inv(text, s, p) && Lag(text, s.pos, p, k) && LagChar(k)
    requires ModeAt(text, p).Between? && Scan(s.out).mode.Between? && s.pos > 0 && !StartsWithBlock(text, s.pending)
    requires LayoutOk(s, end) && item.key.start < item.value.start < item.value.end < end <= |text|
    requires ItemOk(text, After(s.pending, item.key.start), item.key.start, ObjectKind, item)
    requires After(After(s.pending, item.key.start), item.key.end) == After(s.pending, item.key.start)
    requires ItemFits(text, After(s.pending, item.key.start), item)
    ensures var r := PutItem(text, s, item);
            r.Some? && Writes(s.out, LinePieces(text, s.pending, s.pos, item.key.start, item, s.level, s.multiline, Glued), r.value.out)
    decreases item, 3
  {
    KeyReady(text, s, p, item, end, k);
    KeyOutcome(text, s, p, item, end, k);
    ValueLaid(text, s, p, item.key, k);
    hide PutValue, PutItem, PutFromColon, AtColon, ItemFits, Inv, Scan, ItemOk, NextToken, ModeAt, Lag, Writes, Ahead, LayoutOk;
    var s1 := PutValue(text, s, item.key).value;
    ColonLaid(text, s1, item);
    var rest := MemberPieces(text, s1.pending, item.key.end, item.value, s.level);
    WritesBoth(s.out, LedValue(text, s.pending, s.pos, item.key, s.level, s.multiline), s1.out, rest,
      PutFromColon(text, s1, item.value).value.out);
    MemberLine(text, s.pending, s.pos, item, s.level, s.multiline);
  }

  lemma MemberLine(text: string, cs: seq<Range>, from: nat, item: Item, depth: nat, several: bool)
    requires item.Member?
    ensures LedValue(text, cs, from, item.key, depth, several)
            + MemberPieces(text, After(cs, item.key.start), item.key.end, item.value, depth)
         == LinePieces(text, cs, from, item.key.start, item, depth, several, Glued)
  {
    hide CommentPieces, ValuePieces, MemberPieces, Own;
    if several {
      var lead := Own(text, LastEnd(cs, from, item.key.start), item.key.start, depth);
      Regroup(CommentPieces(text, cs, from, item.key.start, depth, true),
        ValuePieces(text, After(cs, item.key.start), item.key, depth, lead),
        MemberPieces(text, After(cs, item.key.start), item.key.end, item.value, depth));
    }
  }
}
