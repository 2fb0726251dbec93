/** The formatter changes only whitespace, on exactly the inputs that fit. */
module JsoncTheorem {
  import opened Outcomes
  import opened JsoncText
  import opened JsoncLexer
  import opened JsoncTree
  import opened JsoncSpec
  import opened JsoncScan
  import opened JsoncGaps
  import opened JsoncSymbols
  import opened JsoncOutcome

  function Start(text: string, cs: seq<Range>, root: Value): State
    requires root.start <= root.end <= |text|
  {
    State(cs, "", 0, 0, Multiline(text, cs, root))
  }

  lemma StartInv(text: string, cs: seq<Range>, root: Value)
    requires InputOk(text, cs, root)
    ensures root.start < root.end <= |text|
    ensures Inv(text, Start(text, cs, root), 0) && ModeAt(text, 0).Between?
    ensures GapOk(text, cs, 0, root.start) && ModeAt(text, root.start).Between? && TextAt(text, root.start)
    ensures After(After(cs, root.start), root.end) == After(cs, root.end)
  {
    NextTokenGap(text, cs, 0);
    assert text[..0] == "";
    GapEnd(text, cs, 0, root.start);
    GapMode(text, cs, 0, root.start);
    AfterTwice(cs, root.start, root.end);
  }

  // ----- after the root -----

  lemma LexOf(text: string)
    requires TextAt(text, |text|)
    ensures Lex(text) == Some(Upto(text, |text|))
  {
    assert text[..|text|] == text;
  }

  /** The comments after the root and the final newline complete a good output. */
  lemma ArrivedFormats(text: string, cs: seq<Range>, root: Value, r: Option<State>)
    requires InputOk(text, cs, root) && Arrived(text, cs, root.end, r)
    ensures Comments(text, r.value, |text|).Some?
    ensures Comments(text, r.value, |text|).value.pending == []
    ensures Lex(text).Some? && Lex(Comments(text, r.value, |text|).value.out + "\n") == Lex(text)
  {
    StartInv(text, cs, root);
    var s := r.value;
    NextTokenGap(text, s.pending, root.end);
    AfterOk(text, s.pending, |text|);
    InsideText(text, s.pending);
    CommentsInv(text, s, root.end, |text|, |text|, ' ');
    var s1 := Comments(text, s, |text|).value;
    OutBreak(s1.out, "\n");
    LexOf(text);
  }

  lemma {:induction false} InsideText(text: string, cs: seq<Range>)
    requires CommentsOk(text, cs)
    ensures !Before(After(cs, |text|), |text|) && After(cs, |text|) == []
  {
    if cs != [] {
      CommentsTail(text, cs);
      InsideText(text, cs[1..]);
    }
  }

  lemma DivergedLexes(text: string, out: string)
    requires Diverged(text, out) && TextAt(text, |text|)
    ensures Lex(out) != Lex(text)
  {
    LexOf(text);
    var k :| 0 <= k < |Scan(out).done| && k < |Upto(text, |text|)| && Scan(out).done[k] != Upto(text, |text|)[k];
    if Settled(Scan(out).mode) {
      assert Flush(Scan(out))[k] == Scan(out).done[k];
    }
  }

  lemma LostFails(text: string, cs: seq<Range>, root: Value)
    requires InputOk(text, cs, root) && root.start <= root.end <= |text|
    requires Lost(text, PutValue(text, Start(text, cs, root), root))
    ensures var r := Format(text, cs, root); r.Some? ==> Lex(r.value) != Lex(text)
  {
    var r := Format(text, cs, root);
    if r.Some? {
      var s1 := PutValue(text, Start(text, cs, root), root).value;
      DivergedStays(text, s1.out, r.value);
      TextEnd(text, cs, root);
      DivergedLexes(text, r.value);
    }
  }

  /** A parsed text has no loose ends. */
  lemma TextEnd(text: string, cs: seq<Range>, root: Value)
    requires InputOk(text, cs, root)
    ensures TextAt(text, |text|)
  {
    StartInv(text, cs, root);
    AfterOk(text, cs, root.start);
    ValueEnd(text, After(cs, root.start), root);
    AfterOk(text, cs, root.end);
    NextTokenGap(text, After(cs, root.end), root.end);
    GapEnd(text, After(cs, root.end), root.end, |text|);
  }

  lemma {:induction false} ValueEnd(text: string, cs: seq<Range>, v: Value)
    requires CommentsOk(text, cs) && ValueOk(text, cs, v) && ModeAt(text, v.start).Between? && TextAt(text, v.start)
    ensures TextAt(text, v.end)
    decreases v, 0
  {
    hide NextToken, After, Upto, ItemsOk, GapOk, LeafOk;
    match v
    case Leaf(_, _) =>
      TextLeaf(text, cs, v);
    case Container(start, end, kind, items) =>
      TextSymbol(text, start);
      NoCommentAt(text, cs, start);
      if items == [] {
        NextTokenGap(text, cs, start + 1);
        GapEnd(text, cs, start + 1, end - 1);
      } else {
        ItemsEnd(text, cs, start + 1, kind, items, end);
      }
      TextSymbol(text, end - 1);
  }

  /** The item at the next token is read to its end. */
  lemma {:induction false} ItemEnd(text: string, cs: seq<Range>, p: nat, kind: Kind, item: Item)
    requires CommentsOk(text, cs) && !Before(cs, p) && ItemOk(text, cs, p, kind, item)
    requires p < |text| && ModeAt(text, p).Between? && TextAt(text, p)
    ensures TextAt(text, item.value.end) && item.value.end <= |text|
    decreases item, 1
  {
    match item
    case Element(value) =>
      ValueEnd(text, cs, value);
    case Member(key, value) =>
      var value1 := MemberGaps(text, cs, key, value);
      ValueEnd(text, value1, value);
  }

  /** The gaps around the colon; the comments left for the value are returned. */
  lemma MemberGaps(text: string, cs: seq<Range>, key: Value, value: Value) returns (rest: seq<Range>)
    requires CommentsOk(text, cs) && !Before(cs, key.start) && ItemOk(text, cs, key.start, ObjectKind, Member(key, value))
    requires key.start < |text| && ModeAt(text, key.start).Between? && TextAt(text, key.start)
    ensures CommentsOk(text, rest) && ValueOk(text, rest, value)
    ensures value.start < |text| && ModeAt(text, value.start).Between? && TextAt(text, value.start)
  {
    hide NextToken, After;
    hide Upto;
    TextLeaf(text, cs, key);
    var colon := NextToken(text, cs, key.end);
    NextTokenGap(text, cs, key.end);
    GapEnd(text, cs, key.end, colon);
    TextSymbol(text, colon);
    AfterOk(text, cs, colon);
    var cs1 := After(cs, colon);
    NoCommentAt(text, cs1, colon);
    NextTokenGap(text, cs1, colon + 1);
    GapEnd(text, cs1, colon + 1, value.start);
    AfterOk(text, cs1, value.start);
    rest := After(cs1, value.start);
    ValueSpan(text, rest, value);
    GapMode(text, cs1, colon + 1, value.start);
  }

  lemma {:induction false} ItemsEnd(text: string, cs: seq<Range>, p: nat, kind: Kind, items: seq<Item>, end: nat)
    requires CommentsOk(text, cs) && !Before(cs, p) && items != [] && 1 < end <= |text| && p <= |text|
    requires ItemsOk(text, cs, p, kind, items, end)
    requires ModeAt(text, p).Between? && TextAt(text, p)
    ensures TextAt(text, end - 1)
    decreases items, 1
  {
    hide NextToken, After;
    var start := NextToken(text, cs, p);
    var cs1 := After(cs, start);
    NextTokenGap(text, cs, p);
    AfterOk(text, cs, start);
    ItemSpan(text, cs1, start, kind, items[0]);
    GapEnd(text, cs, p, start);
    GapMode(text, cs, p, start);
    ItemEnd(text, cs1, start, kind, items[0]);
    AfterOk(text, cs1, items[0].value.end);
    RestEnd(text, After(cs1, items[0].value.end), items[0].value.end, kind, items, end);
  }

  lemma {:induction false} RestEnd(text: string, cs: seq<Range>, p: nat, kind: Kind, items: seq<Item>, end: nat)
    requires CommentsOk(text, cs) && !Before(cs, p) && items != [] && 1 < end <= |text| && p <= |text|
    requires RestOk(text, cs, p, kind, items, end) && TextAt(text, p)
    ensures TextAt(text, end - 1)
    decreases items, 0
  {
    hide NextToken, After;
    var sep := NextToken(text, cs, p);
    NextTokenGap(text, cs, p);
    GapEnd(text, cs, p, sep);
    AfterOk(text, cs, sep);
    if sep + 1 < end {
      TextSymbol(text, sep);
      var cs3 := After(cs, sep);
      NoCommentAt(text, cs3, sep);
      if |items| > 1 {
        ItemsEnd(text, cs3, sep + 1, kind, items[1..], end);
      } else {
        NextTokenGap(text, cs3, sep + 1);
        GapEnd(text, cs3, sep + 1, end - 1);
      }
    }
  }

  // ----- a scalar root -----

  lemma LeafOneLine(text: string, cs: seq<Range>, root: Value)
    requires InputOk(text, cs, root) && root.Leaf?
    ensures root.start < root.end <= |text| && !Multiline(text, cs, root)
  {
    forall i | root.start <= i < root.end ensures text[i] != '\n' {
      assert text[i] == text[root.start..root.end][i - root.start];
    }
  }

  /** A pending comment behind `text_position` is never a trailing comment. */
  lemma {:induction false} TrailingKeepsHead(text: string, s: State, to: nat)
    requires s.pos > 0 && Before(s.pending, s.pos)
    ensures var r := TrailingComments(text, s, to);
            r.Some? ==> r.value.pending != [] && r.value.pending[0] == s.pending[0] && s.pos <= r.value.pos
    decreases |s.pending|
  {
    var i := FirstFrom(s.pending, s.pos);
    if s.pos <= to && i < |s.pending| && s.pending[i].start < to {
      var c := s.pending[i];
      if c.start <= c.end <= |text| && !Contains(text, s.pos, c.end, '\n') {
        var s1 := s.(pending := s.pending[..i] + s.pending[i + 1..],
                     out := s.out + " " + TrimEnd(text[c.start..c.end]),
                     pos := c.end);
        TrailingKeepsHead(text, s1, to);
      }
    }
  }

  /** A comment in front of a scalar root is found too late: the slice up to it starts behind it. */
  lemma LeafWithCommentPanics(text: string, cs: seq<Range>, root: Value)
    requires InputOk(text, cs, root) && root.Leaf? && Before(cs, root.start)
    ensures root.start <= root.end <= |text| && Format(text, cs, root) == None
  {
    LeafOneLine(text, cs, root);
    AfterOk(text, cs, root.start);
    var s0 := Start(text, cs, root);
    var s1 := s0.(out := s0.out + text[root.start..root.end], pos := root.end);
    assert PutContent(text, s0, root) == Some(s1);
    assert PutValue(text, s0, root) == Some(s1);
    TrailingKeepsHead(text, s1, |text|);
    var r := TrailingComments(text, s1, |text|);
    if r.Some? {
      assert BlankLine(text, r.value, cs[0].start) == None;
      assert LeadingComments(text, r.value, |text|) == None;
    }
  }

  lemma LeafFormats(text: string, cs: seq<Range>, root: Value)
    requires InputOk(text, cs, root) && root.Leaf? && !Before(cs, root.start)
    ensures root.start <= root.end <= |text|
    ensures Arrived(text, cs, root.end, PutValue(text, Start(text, cs, root), root))
  {
    LeafOneLine(text, cs, root);
    StartInv(text, cs, root);
    var s0 := Start(text, cs, root);
    Advance(text, s0, 0, root.start);
    assert After(cs, root.start) == cs;
    LeafOutcome(text, s0, root);
  }

  // ----- a container root -----

  lemma BlockFirst(text: string, cs: seq<Range>, root: Value)
    requires InputOk(text, cs, root) && StartsWithBlock(text, cs)
    ensures 0 < root.start <= |text| && forall s: State, to: nat ::
      s.pending == cs && s.pos == 0 && 0 < to ==> Comments(text, s, to) == None
  {
    StartInv(text, cs, root);
    NoTokenAtComment(text, cs, root.start);
    forall s: State, to: nat | s.pending == cs && s.pos == 0 && 0 < to ensures Comments(text, s, to) == None {
      var c := cs[0];
      assert text[c.start..c.end][1] == text[1] != "//"[1];
      assert LeadingText(text, c, s.level) == None;
    }
  }

  lemma NoTokenAtComment(text: string, cs: seq<Range>, q: nat)
    requires CommentsOk(text, cs) && cs != [] && cs[0].start == 0 && q == NextToken(text, cs, 0)
    ensures 0 < q
  {
    CommentsTail(text, cs);
    NextTokenGap(text, cs[1..], cs[0].end);
    GapOrder(text, cs[1..], cs[0].end, q);
  }

  lemma BlockFirstPanics(text: string, cs: seq<Range>, root: Value)
    requires InputOk(text, cs, root) && root.Container? && StartsWithBlock(text, cs)
    ensures root.start <= root.end <= |text| && PutValue(text, Start(text, cs, root), root) == None
  {
    StartInv(text, cs, root);
    BlockFirst(text, cs, root);
    var s0 := Start(text, cs, root);
    if s0.multiline {
      assert Comments(text, s0, root.start) == None;
    } else {
      assert PutSymbol(text, s0, root.kind.Open()) == None;
      assert PutContainer(text, s0, root) == None;
      assert PutContent(text, s0, root) == None;
    }
  }

  lemma MultilineFormats(text: string, cs: seq<Range>, root: Value)
    requires InputOk(text, cs, root) && root.Container? && !StartsWithBlock(text, cs)
    requires root.start <= root.end <= |text| && Multiline(text, cs, root)
    ensures Outcome(text, ValueFits(text, After(cs, root.start), root), cs, root.end,
              PutValue(text, Start(text, cs, root), root))
  {
    StartInv(text, cs, root);
    var s0 := Start(text, cs, root);
    ValueOnNewLine(text, s0, 0, root, ':');
    var s2 := Indent(text, Comments(text, s0, root.start).value, root.start).value;
    assert PutValue(text, s0, root) == PutContent(text, s2, root);
    NotBlockLater(text, cs, root.start);
    ContentOutcome(text, s2, root, ':');
  }

  lemma OneLineFormats(text: string, cs: seq<Range>, root: Value)
    requires InputOk(text, cs, root) && root.Container? && !StartsWithBlock(text, cs)
    requires root.start <= root.end <= |text| && !Multiline(text, cs, root)
    ensures Outcome(text, GapFits(text, cs, root.start, root.kind.Open()) && ValueFits(text, After(cs, root.start), root),
              cs, root.end, PutValue(text, Start(text, cs, root), root))
  {
    StartInv(text, cs, root);
    var s0 := Start(text, cs, root);
    assert PutValue(text, s0, root) == PutContent(text, s0, root);
    if GapFits(text, cs, root.start, root.kind.Open()) {
      SymbolPrinted(text, s0, 0, root.start, root.kind.Open(), ' ');
      ContainerOutcome(text, s0, root);
    } else {
      SymbolMisplaced(text, s0, 0, root.start, root.kind.Open(), ' ');
      OpensFirst(text, s0, root);
      LostStays(text, PutSymbol(text, s0, root.kind.Open()).value, PutContent(text, s0, root));
    }
  }

  lemma OpensFirst(text: string, s: State, v: Value)
    requires v.Container? && v.start <= v.end <= |text| && PutSymbol(text, s, v.kind.Open()).Some?
    ensures var r := PutContent(text, s, v);
            r.Some? ==> PutSymbol(text, s, v.kind.Open()).value.out <= r.value.out
  {
    var r := PutContainer(text, s, v);
    assert r.Some? ==> PutSymbol(text, s, v.kind.Open()).value.out <= r.value.out;
  }

  lemma ContainerFormats(text: string, cs: seq<Range>, root: Value)
    requires InputOk(text, cs, root) && root.Container? && !StartsWithBlock(text, cs)
    ensures root.start <= root.end <= |text|
    ensures Outcome(text, Fits(text, cs, root), cs, root.end, PutValue(text, Start(text, cs, root), root))
  {
    StartInv(text, cs, root);
    if Multiline(text, cs, root) {
      MultilineFormats(text, cs, root);
    } else {
      OneLineFormats(text, cs, root);
    }
  }

  lemma {:induction false} NotBlockLater(text: string, cs: seq<Range>, p: nat)
    requires CommentsOk(text, cs) && !StartsWithBlock(text, cs)
    ensures !StartsWithBlock(text, After(cs, p))
  {
    if Before(cs, p) {
      CommentsTail(text, cs);
      NotBlockLater(text, cs[1..], p);
    }
  }

  /** `format_jsonc` returns a text with exactly the tokens and comments of its input, in the same order, if and only
      if the input fits; on every other input it panics or changes the sequence of tokens and comments. */
  lemma FormatChangesOnlyWhitespace(text: string, cs: seq<Range>, root: Value)
    requires InputOk(text, cs, root)
    ensures root.start <= root.end <= |text|
    ensures var r := Format(text, cs, root);
            r.Some? && Lex(text).Some? && Lex(r.value) == Lex(text) <==> Fits(text, cs, root)
  {
    StartInv(text, cs, root);
    var r := PutValue(text, Start(text, cs, root), root);
    if root.Leaf? {
      if Before(cs, root.start) {
        LeafWithCommentPanics(text, cs, root);
      } else {
        LeafFormats(text, cs, root);
        ArrivedFormats(text, cs, root, r);
      }
    } else if StartsWithBlock(text, cs) {
      BlockFirstPanics(text, cs, root);
    } else {
      ContainerFormats(text, cs, root);
      if Fits(text, cs, root) {
        ArrivedFormats(text, cs, root, r);
      } else {
        LostFails(text, cs, root);
      }
    }
  }

  // ----- one input of each kind that does not fit -----

  lemma CommentBeforeScalar()
    ensures var text, cs, root := "//\n1", [Range(0, 2)], Leaf(3, 4);
            InputOk(text, cs, root) && Format(text, cs, root) == None
  {
    var text, cs, root := "//\n1", [Range(0, 2)], Leaf(3, 4);
    assert text[0..2] == "//" && text[3..4] == "1";
    assert NextToken(text, [], 3) == 3;
    assert NextToken(text, [], 2) == 3;
    assert cs[1..] == [];
    assert NextToken(text, cs, 0) == 3;
    LeafWithCommentPanics(text, cs, root);
  }

  lemma BlockCommentFirst()
    ensures var text, cs, root := "/**/[]", [Range(0, 4)], Container(4, 6, ArrayKind, []);
            InputOk(text, cs, root) && Format(text, cs, root) == None
  {
    var text, cs, root := "/**/[]", [Range(0, 4)], Container(4, 6, ArrayKind, []);
    assert text[0..4] == [text[0], text[1], text[2], text[3]];
    assert text[0..4][2..3] == ['*'];
    assert cs[1..] == [];
    assert NextToken(text, [], 4) == 4;
    assert NextToken(text, cs, 0) == 4;
    BlockFirstPanics(text, cs, root);
  }

  /** The comma is taken for the one the first comment ends in, and overtakes the second comment. */
  lemma CommaInComment(text: string, cs: seq<Range>, items: seq<Item>, root: Value)
    requires text == "[1//,\n/**/,2]" && cs == [Range(2, 5), Range(6, 10)]
    requires items == [Element(Leaf(1, 2)), Element(Leaf(11, 12))] && root == Container(0, 13, ArrayKind, items)
    ensures InputOk(text, cs, root)
    ensures var r := Format(text, cs, root); !(r.Some? && Lex(text).Some? && Lex(r.value) == Lex(text))
  {
    hide Format, Lex, Fits, InputOk;
    CommaInCommentUnfit(text, cs, items, root);
    FormatChangesOnlyWhitespace(text, cs, root);
  }

  lemma CommaInCommentUnfit(text: string, cs: seq<Range>, items: seq<Item>, root: Value)
    requires text == "[1//,\n/**/,2]" && cs == [Range(2, 5), Range(6, 10)]
    requires items == [Element(Leaf(1, 2)), Element(Leaf(11, 12))] && root == Container(0, 13, ArrayKind, items)
    ensures InputOk(text, cs, root) && !Fits(text, cs, root)
  {
    CommaInCommentOk(text, cs, items, root);
    assert !GapFits(text, cs, 10, ',');
    assert !ItemsFit(text, cs, 1, items, 13);
    assert !ValueFits(text, cs, root);
  }

  lemma CommaTokens(text: string, cs: seq<Range>, c2: seq<Range>)
    requires text == "[1//,\n/**/,2]" && cs == [Range(2, 5), Range(6, 10)] && c2 == [Range(6, 10)]
    ensures After(cs, 0) == After(cs, 1) == After(cs, 2) == cs && After(cs, 10) == After(cs, 13) == []
    ensures NextToken(text, cs, 0) == 0 && NextToken(text, cs, 1) == 1 && NextToken(text, cs, 2) == 10
    ensures NextToken(text, [], 11) == 11 && NextToken(text, [], 12) == 12 && NextToken(text, [], 13) == 13
  {
    assert cs[1..] == c2 && c2[1..] == [];
    assert After(c2, 10) == [] && After(c2, 13) == [];
    assert NextToken(text, [], 10) == 10;
    assert NextToken(text, c2, 6) == 10;
    assert NextToken(text, c2, 5) == 10;
  }

  lemma CommaInCommentOk(text: string, cs: seq<Range>, items: seq<Item>, root: Value)
    requires text == "[1//,\n/**/,2]" && cs == [Range(2, 5), Range(6, 10)]
    requires items == [Element(Leaf(1, 2)), Element(Leaf(11, 12))] && root == Container(0, 13, ArrayKind, items)
    ensures InputOk(text, cs, root)
    ensures After(cs, 1) == cs && After(cs, 2) == cs && NextToken(text, cs, 1) == 1 && NextToken(text, cs, 2) == 10
  {
    assert text[2..5] == "//," && text[6..10] == "/**/" && "/**/"[2..3] == "*";
    assert text[1..2] == "1" && text[11..12] == "2";
    CommaTokens(text, cs, [Range(6, 10)]);
    assert items[1..] == [Element(Leaf(11, 12))];
    assert ItemsOk(text, [], 11, ArrayKind, items[1..], 13);
    assert ItemsOk(text, cs, 1, ArrayKind, items, 13);
  }
}
