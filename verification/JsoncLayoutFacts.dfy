/** What the layout says of a container: on several lines each item, each comment that leaves its line and the closing
    bracket start a line; otherwise everything is on one. */
module JsoncLayoutFacts {
  import opened Outcomes
  import opened JsoncText
  import opened JsoncTree
  import opened JsoncSpec
  import opened JsoncGaps
  import opened JsoncSymbols
  import opened JsoncOutcome
  import opened JsoncTheorem
  import opened JsoncLayout
  import opened JsoncLayoutGaps
  import opened JsoncLayoutTheorem

  // ----- several lines -----

  function FirstToken(text: string, item: Item): string {
    var v := if item.Element? then item.value else item.key;
    if v.Leaf? then Slice(text, v.start, v.end) else [v.kind.Open()]
  }

  /** Among the pieces is this one, on a line of its own at the depth; a blank line stands before it exactly if the input
      has one between `from` and `at`. */
  ghost predicate HasLine(ps: seq<Piece>, text: string, from: nat, at: nat, depth: nat, written: string) {
    Piece(OwnLine(depth, HasBlankLine(text, from, at)), written) in ps
  }

  lemma LineStays(a: seq<Piece>, b: seq<Piece>, text: string, from: nat, at: nat, depth: nat, written: string)
    requires HasLine(a, text, from, at, depth, written) || HasLine(b, text, from, at, depth, written)
    ensures HasLine(a + b, text, from, at, depth, written)
  {
  }

  lemma {:induction false} LastEndPositive(text: string, cs: seq<Range>, from: nat, to: nat)
    requires CommentsOk(text, cs) && from > 0
    ensures LastEnd(cs, from, to) > 0
  {
    if Before(cs, to) {
      CommentsTail(text, cs);
      LastEndPositive(text, cs[1..], cs[0].end, to);
    }
  }

  /** Where item `i` begins. */
  function StartOf(items: seq<Item>, i: nat): nat
    requires i < |items|
  {
    if items[i].Element? then items[i].value.start else items[i].key.start
  }

  lemma ItemStarts(text: string, cs: seq<Range>, p: nat, kind: Kind, items: seq<Item>, end: nat)
    requires items != [] && 0 < end <= |text| && ItemsOk(text, cs, p, kind, items, end)
    ensures NextToken(text, cs, p) == StartOf(items, 0)
    ensures |items| > 1 ==>
              var cs2 := After(After(cs, NextToken(text, cs, p)), items[0].value.end);
              var sep := NextToken(text, cs2, items[0].value.end);
              ItemsOk(text, After(cs2, sep), sep + 1, kind, items[1..], end)
  {
    hide NextToken, After, ValueOk, LeafOk;
  }

  lemma FirstPiece(text: string, cs: seq<Range>, item: Item, depth: nat, lead: Lead)
    ensures Piece(lead, FirstToken(text, item)) in ItemPieces(text, cs, item, depth, lead)
  {
    hide InsidePieces, MemberPieces;
    assert ItemPieces(text, cs, item, depth, lead)[0] == Piece(lead, FirstToken(text, item));
  }

  lemma ItemsFirst(text: string, cs: seq<Range>, p: nat, kind: Kind, items: seq<Item>, end: nat)
    requires CommentsOk(text, cs) && !Before(cs, p) && p <= |text| && items != [] && 0 < end <= |text|
    requires ItemsOk(text, cs, p, kind, items, end)
    ensures var start := NextToken(text, cs, p);
            && p <= start < items[0].value.end <= |text| && CommentsOk(text, After(cs, start))
            && ItemOk(text, After(cs, start), start, kind, items[0])
  {
    hide NextToken, After, CommentsOk, ItemOk, Before;
    NextTokenGap(text, cs, p);
    AfterOk(text, cs, NextToken(text, cs, p));
    ItemSpan(text, After(cs, NextToken(text, cs, p)), NextToken(text, cs, p), kind, items[0]);
  }

  lemma ItemsNext(text: string, cs: seq<Range>, p: nat, kind: Kind, items: seq<Item>, end: nat)
    requires CommentsOk(text, cs) && !Before(cs, p) && p <= |text| && |items| > 1 && 0 < end <= |text|
    requires ItemsOk(text, cs, p, kind, items, end)
    ensures var start, e := NextToken(text, cs, p), items[0].value.end;
            var sep := NextToken(text, After(After(cs, start), e), e);
            && p <= sep < |text| && After(After(After(cs, start), e), sep) == After(cs, sep)
            && CommentsOk(text, After(cs, sep)) && !Before(After(cs, sep), sep + 1)
            && ItemsOk(text, After(cs, sep), sep + 1, kind, items[1..], end)
  {
    hide NextToken, After, CommentsOk, ItemOk, Before, GapOk;
    ItemsFirst(text, cs, p, kind, items, end);
    var start, e := NextToken(text, cs, p), items[0].value.end;
    AfterTwice(cs, start, e);
    AfterOk(text, cs, e);
    var sep := NextToken(text, After(cs, e), e);
    NextTokenGap(text, After(cs, e), e);
    AfterTwice(cs, e, sep);
    AfterOk(text, cs, sep);
    NoCommentAt(text, After(cs, sep), sep);
  }

  // ----- what stands before an item in the input -----

  /** Behind an opening bracket or a comma. */
  predicate Separates(text: string, p: nat) {
    0 < p <= |text| && (text[p - 1] == '[' || text[p - 1] == BRACE || text[p - 1] == ',')
  }

  /** What stands before `at`, be it a bracket, a comma or a comment, ends at `before`. If it is a comment that ends in a
      comma itself, the comma behind it may be in between. */
  ghost predicate Follows(text: string, cs: seq<Range>, before: nat, at: nat) {
    Lag(text, before, at, ',') && (Separates(text, before) || exists c :: c in cs && c.end == before)
  }

  lemma LagsNot(text: string, p: nat)
    requires p <= |text|
    ensures Lag(text, p, p, ',')
  {
  }

  /** Behind the last comment there is only whitespace. */
  lemma {:induction false} LastEndLags(text: string, cs: seq<Range>, from: nat, p: nat, q: nat)
    requires CommentsOk(text, cs) && GapOk(text, cs, p, q) && Lag(text, from, p, ',')
    ensures var e := LastEnd(cs, from, q);
            Lag(text, e, q, ',') && (if Before(cs, q) then exists c :: c in cs && c.end == e else e == from)
    decreases |cs|
  {
    if Before(cs, q) {
      CommentsTail(text, cs);
      GapOrder(text, cs[1..], cs[0].end, q);
      LastEndLags(text, cs[1..], cs[0].end, cs[0].end, q);
      assert cs[0] in cs && forall c :: c in cs[1..] ==> c in cs;
    }
  }

  lemma ResumeLags(text: string, cs: seq<Range>, e: nat, sep: nat)
    requires CommentsOk(text, cs) && GapOk(text, cs, e, sep) && e <= sep < |text| && text[sep] == ','
    ensures var r := Resume(text, cs, sep, ','); Separates(text, r) && Lag(text, r, sep + 1, ',')
  {
    LastEndLags(text, cs, e, e, sep);
    if Before(cs, sep) {
      LastEndAfter(cs, e, sep);
    }
    hide GapOk, CommentsOk, LastEnd, Before;
  }

  lemma {:induction false} AfterWithin(cs: seq<Range>, p: nat)
    ensures forall c :: c in After(cs, p) ==> c in cs
  {
    if Before(cs, p) {
      AfterWithin(cs[1..], p);
    }
  }

  lemma FollowsMore(text: string, cs: seq<Range>, p: nat, before: nat, at: nat)
    requires Follows(text, After(cs, p), before, at)
    ensures Follows(text, cs, before, at)
  {
    AfterWithin(cs, p);
    hide After, Lag, Separates;
  }

  lemma FirstFollows(text: string, cs: seq<Range>, from: nat, p: nat)
    requires CommentsOk(text, cs) && !Before(cs, p) && p <= |text| && Separates(text, from) && Lag(text, from, p, ',')
    ensures Follows(text, cs, LastEnd(cs, from, NextToken(text, cs, p)), NextToken(text, cs, p))
  {
    hide NextToken, CommentsOk, Before, Lag, Separates, GapOk, LastEnd;
    NextTokenGap(text, cs, p);
    LastEndLags(text, cs, from, p, NextToken(text, cs, p));
  }

  /** From one item to the next. */
  lemma NextFollows(text: string, cs: seq<Range>, p: nat, kind: Kind, items: seq<Item>, end: nat)
    requires CommentsOk(text, cs) && !Before(cs, p) && p <= |text| && |items| > 1 && 0 < end <= |text|
    requires ItemsOk(text, cs, p, kind, items, end)
    ensures var e := items[0].value.end; var cs2 := After(After(cs, NextToken(text, cs, p)), e);
            var sep := NextToken(text, cs2, e); var r := Resume(text, cs2, sep, ',');
            Separates(text, r) && Lag(text, r, sep + 1, ',')
  {
    hide NextToken, CommentsOk, ItemOk, Before, After, Separates, Lag, GapOk, Resume;
    ItemsFirst(text, cs, p, kind, items, end);
    var start, e := NextToken(text, cs, p), items[0].value.end;
    AfterOk(text, After(cs, start), e);
    var cs2 := After(After(cs, start), e);
    NextTokenGap(text, cs2, e);
    ItemsNext(text, cs, p, kind, items, end);
    ResumeLags(text, cs2, e, NextToken(text, cs2, e));
  }

  // ----- lines of items and brackets -----

  /** The first item's line is among the pieces. */
  lemma FirstLine(text: string, cs: seq<Range>, from: nat, p: nat, kind: Kind, items: seq<Item>, end: nat, depth: nat, first: Lead)
    requires items != [] && NextToken(text, cs, p) == StartOf(items, 0) && CommentsOk(text, cs) && from > 0
    ensures HasLine(ItemsPieces(text, cs, from, p, kind, items, end, depth, true, first), text,
              LastEnd(cs, from, StartOf(items, 0)), StartOf(items, 0), depth + 1, FirstToken(text, items[0]))
  {
    var start, item := StartOf(items, 0), items[0];
    var before := LastEnd(cs, from, start);
    LastEndPositive(text, cs, from, start);
    FirstPiece(text, After(cs, start), item, depth + 1, Own(text, before, start, depth + 1));
    hide ItemPieces, RestPieces, CommentPieces, NextToken, CommentsOk, HasBlankLine, FirstToken, LastEnd, After;
  }

  /** The pieces of the later items are among the pieces. */
  lemma LaterPieces(text: string, cs: seq<Range>, from: nat, p: nat, kind: Kind, items: seq<Item>, end: nat, depth: nat,
      several: bool, first: Lead)
    requires |items| > 1
    ensures var start := NextToken(text, cs, p); var cs2 := After(After(cs, start), items[0].value.end);
            var sep := NextToken(text, cs2, items[0].value.end);
            ItemsPieces(text, cs, from, p, kind, items, end, depth, several, first)
            == LinePieces(text, cs, from, start, items[0], depth + 1, several, first)
               + (SymbolPieces(text, cs2, items[0].value.end, sep, ',', depth + 1)
                  + ItemsPieces(text, After(cs2, sep), Resume(text, cs2, sep, ','), sep + 1, kind, items[1..], end, depth, several,
                      Spaced))
  {
    hide NextToken, CommentPieces, SymbolPieces, LinePieces, After, Resume;
  }

  /** In a container on several lines every item starts a line, one level deeper than the container. A blank line stands
      before it exactly if the input has one between it and the bracket, comma or comment before it. */
  lemma {:induction false} ItemsHaveLines(text: string, cs: seq<Range>, from: nat, p: nat, kind: Kind, items: seq<Item>,
      end: nat, depth: nat, first: Lead, i: nat) returns (before: nat)
    requires i < |items| && 0 < end <= |text| && ItemsOk(text, cs, p, kind, items, end)
    requires CommentsOk(text, cs) && !Before(cs, p) && p <= |text| && Separates(text, from) && Lag(text, from, p, ',')
    ensures HasLine(ItemsPieces(text, cs, from, p, kind, items, end, depth, true, first), text, before, StartOf(items, i),
              depth + 1, FirstToken(text, items[i]))
    ensures Follows(text, cs, before, StartOf(items, i))
    decreases i
  {
    hide *;
    ItemStarts(text, cs, p, kind, items, end);
    if i == 0 {
      before := LastEnd(cs, from, StartOf(items, 0));
      SeparatesPositive(text, from);
      FirstLine(text, cs, from, p, kind, items, end, depth, first);
      FirstFollows(text, cs, from, p);
    } else {
      var start, e := NextToken(text, cs, p), items[0].value.end;
      var cs2 := After(After(cs, start), e);
      var sep := NextToken(text, cs2, e);
      ItemsNext(text, cs, p, kind, items, end);
      NextFollows(text, cs, p, kind, items, end);
      before := ItemsHaveLines(text, After(cs2, sep), Resume(text, cs2, sep, ','), sep + 1, kind, items[1..], end, depth, Spaced,
        i - 1);
      LaterStart(items, i);
      FollowsMore(text, cs, sep, before, StartOf(items, i));
      var line := LinePieces(text, cs, from, start, items[0], depth + 1, true, first);
      var comma := SymbolPieces(text, cs2, e, sep, ',', depth + 1);
      var more := ItemsPieces(text, After(cs2, sep), Resume(text, cs2, sep, ','), sep + 1, kind, items[1..], end, depth, true,
        Spaced);
      LaterPieces(text, cs, from, p, kind, items, end, depth, true, first);
      LineStays(comma, more, text, before, StartOf(items, i), depth + 1, FirstToken(text, items[i]));
      LineStays(line, comma + more, text, before, StartOf(items, i), depth + 1, FirstToken(text, items[i]));
    }
  }

  lemma SeparatesPositive(text: string, p: nat)
    requires Separates(text, p)
    ensures p > 0
  {
  }

  lemma LaterStart(items: seq<Item>, i: nat)
    requires 0 < i < |items|
    ensures StartOf(items[1..], i - 1) == StartOf(items, i)
  {
  }

  predicate EndsIn(ps: seq<Piece>, p: Piece) {
    ps != [] && ps[|ps| - 1] == p
  }

  lemma EndStays(a: seq<Piece>, b: seq<Piece>, p: Piece)
    requires EndsIn(b, p)
    ensures EndsIn(a + b, p)
  {
  }

  /** How the closing bracket stands: on a line of its own as deep as its container, without a blank line, or glued. */
  function ClosingPiece(kind: Kind, depth: nat, several: bool): Piece {
    Piece(if several then OwnLine(depth, false) else Glued, [kind.Close()])
  }

  lemma BracketEndsTail(text: string, cs: seq<Range>, from: nat, p: nat, kind: Kind, end: nat, depth: nat, several: bool)
    ensures EndsIn(TailPieces(text, cs, from, p, kind, end, depth, several), ClosingPiece(kind, depth, several))
  {
    hide NextToken, CommentPieces, SymbolPieces, After, Resume;
  }

  lemma LastRest(text: string, cs: seq<Range>, from: nat, p: nat, kind: Kind, items: seq<Item>, end: nat, depth: nat,
      several: bool, first: Lead)
    requires |items| == 1
    ensures var start, e := NextToken(text, cs, p), items[0].value.end;
            ItemsPieces(text, cs, from, p, kind, items, end, depth, several, first)
            == LinePieces(text, cs, from, start, items[0], depth + 1, several, first)
               + TailPieces(text, After(After(cs, start), e), e, e, kind, end, depth, several)
  {
    hide NextToken, TailPieces, LinePieces, After;
  }

  /** The closing bracket is the last piece of its container. */
  lemma {:induction false} BracketIsLast(text: string, cs: seq<Range>, from: nat, p: nat, kind: Kind, items: seq<Item>, end: nat,
      depth: nat, several: bool, first: Lead)
    requires items != []
    ensures EndsIn(ItemsPieces(text, cs, from, p, kind, items, end, depth, several, first), ClosingPiece(kind, depth, several))
    decreases |items|
  {
    hide *;
    var start, e := NextToken(text, cs, p), items[0].value.end;
    var cs2 := After(After(cs, start), e);
    var line := LinePieces(text, cs, from, start, items[0], depth + 1, several, first);
    if |items| == 1 {
      LastRest(text, cs, from, p, kind, items, end, depth, several, first);
      BracketEndsTail(text, cs2, e, e, kind, end, depth, several);
      EndStays(line, TailPieces(text, cs2, e, e, kind, end, depth, several), ClosingPiece(kind, depth, several));
    } else {
      var sep := NextToken(text, cs2, e);
      BracketIsLast(text, After(cs2, sep), Resume(text, cs2, sep, ','), sep + 1, kind, items[1..], end, depth, several, Spaced);
      LaterPieces(text, cs, from, p, kind, items, end, depth, several, first);
      var comma := SymbolPieces(text, cs2, e, sep, ',', depth + 1);
      var more := ItemsPieces(text, After(cs2, sep), Resume(text, cs2, sep, ','), sep + 1, kind, items[1..], end, depth, several,
        Spaced);
      EndStays(comma, more, ClosingPiece(kind, depth, several));
      EndStays(line, comma + more, ClosingPiece(kind, depth, several));
    }
  }

  /** Where what comes before comment `i` of a gap ends. */
  function EndBefore(cs: seq<Range>, from: nat, i: nat): nat
    requires i <= |cs|
  {
    if i == 0 then from else cs[i - 1].end
  }

  /** A newline stands between a comment of the gap, up to comment `i`, and what comes before it, or in that comment. */
  ghost predicate LineLeft(text: string, cs: seq<Range>, from: nat, i: nat)
    requires i < |cs|
  {
    exists j :: 0 <= j <= i && HasNewline(text, EndBefore(cs, from, j), cs[j].end)
  }

  lemma LineLeftTail(text: string, cs: seq<Range>, from: nat, i: nat)
    requires 0 < i < |cs|
    ensures LineLeft(text, cs, from, i)
        <==> HasNewline(text, from, cs[0].end) || LineLeft(text, cs[1..], cs[0].end, i - 1)
  {
    hide HasNewline;
    var tail := cs[1..];
    assert forall j :: 0 < j <= i ==> EndBefore(cs, from, j) == EndBefore(tail, cs[0].end, j - 1) && cs[j] == tail[j - 1];
    if LineLeft(text, cs, from, i) && !HasNewline(text, from, cs[0].end) {
      var j :| 0 <= j <= i && HasNewline(text, EndBefore(cs, from, j), cs[j].end);
      assert HasNewline(text, EndBefore(tail, cs[0].end, j - 1), tail[j - 1].end);
    }
    if HasNewline(text, from, cs[0].end) {
      assert HasNewline(text, EndBefore(cs, from, 0), cs[0].end);
    } else if LineLeft(text, tail, cs[0].end, i - 1) {
      var j :| 0 <= j <= i - 1 && HasNewline(text, EndBefore(tail, cs[0].end, j), tail[j].end);
      assert HasNewline(text, EndBefore(cs, from, j + 1), cs[j + 1].end);
    }
  }

  /** A comment as it is written, on its own line or not. */
  ghost function CommentPiece(text: string, c: Range, from: nat, depth: nat, own: bool): Piece {
    if own then Piece(OwnLine(depth, HasBlankLine(text, from, c.start)), OwnText(text, c, depth))
    else Piece(Spaced, TrimEnd(Slice(text, c.start, c.end)))
  }

  lemma GapPieces(text: string, cs: seq<Range>, from: nat, to: nat, depth: nat, onLine: bool)
    requires Before(cs, to) && from > 0
    ensures var own := !onLine || HasNewline(text, from, cs[0].end);
            CommentPieces(text, cs, from, to, depth, onLine)
            == [CommentPiece(text, cs[0], from, depth, own)] + CommentPieces(text, cs[1..], cs[0].end, to, depth, !own)
  {
    hide HasNewline, HasBlankLine, OwnText, TrimEnd, Slice;
  }

  lemma FirstLeft(text: string, cs: seq<Range>, from: nat)
    requires cs != []
    ensures LineLeft(text, cs, from, 0) <==> HasNewline(text, from, cs[0].end)
    ensures EndBefore(cs, from, 0) == from
  {
    hide HasNewline;
    assert EndBefore(cs, from, 0) == from;
  }

  lemma GapTail(text: string, cs: seq<Range>, from: nat, i: nat)
    requires CommentsOk(text, cs) && 0 < i < |cs|
    ensures CommentsOk(text, cs[1..]) && 0 < cs[0].end && cs[0].start <= cs[i].start
    ensures EndBefore(cs, from, i) == EndBefore(cs[1..], cs[0].end, i - 1) && cs[1..][i - 1] == cs[i]
  {
    CommentsTail(text, cs);
  }

  /** In a gap, a comment stays on the line until a newline comes in between; from then on each has a line of its own, with
      a blank line before it exactly if the input has one between it and what comes before it. */
  lemma {:induction false} CommentsHaveLines(text: string, cs: seq<Range>, from: nat, to: nat, depth: nat, onLine: bool, i: nat)
    requires CommentsOk(text, cs) && from > 0 && i < |cs| && cs[i].start < to
    ensures var ps, own := CommentPieces(text, cs, from, to, depth, onLine), !onLine || LineLeft(text, cs, from, i);
            i < |ps| && ps[i] == CommentPiece(text, cs[i], EndBefore(cs, from, i), depth, own)
  {
    hide *;
    if i > 0 {
      GapTail(text, cs, from, i);
    }
    assert Before(cs, to) by { IsBefore(cs, to); }
    GapPieces(text, cs, from, to, depth, onLine);
    var own := !onLine || HasNewline(text, from, cs[0].end);
    if i == 0 {
      FirstLeft(text, cs, from);
    } else {
      LineLeftTail(text, cs, from, i);
      CommentsHaveLines(text, cs[1..], cs[0].end, to, depth, !own, i - 1);
    }
  }

  lemma IsBefore(cs: seq<Range>, p: nat)
    requires cs != [] && cs[0].start < p
    ensures Before(cs, p)
  {
  }

  // ----- a blank line that is not kept -----

  lemma BlankLineInput(text: string, items: seq<Item>, root: Value)
    requires text == "[1\n\n]" && items == [Element(Leaf(1, 2))] && root == Container(0, 5, ArrayKind, items)
    ensures InputOk(text, [], root) && Fits(text, [], root)
    ensures NextToken(text, [], 1) == 1 && NextToken(text, [], 2) == 4 && HasBlankLine(text, 2, 4) && HasNewline(text, 0, 5)
  {
    assert text[1..2] == "1";
    assert text[2] == '\n' && text[3] == '\n';
    assert NextToken(text, [], 4) == 4;
    assert NextToken(text, [], 3) == 4;
    assert NextToken(text, [], 5) == 5;
    assert ItemsOk(text, [], 1, ArrayKind, items, 5);
    assert ItemFits(text, [], items[0]);
  }

  lemma BlankLinePieces(text: string, items: seq<Item>, root: Value)
    requires text == "[1\n\n]" && items == [Element(Leaf(1, 2))] && root == Container(0, 5, ArrayKind, items)
    requires NextToken(text, [], 1) == 1 && NextToken(text, [], 2) == 4 && HasNewline(text, 0, 5)
    ensures Pieces(text, [], root)
            == [Piece(Glued, "["), Piece(OwnLine(1, false), "1"), Piece(OwnLine(0, false), "]")]
  {
    assert !HasBlankLine(text, 1, 1);
    assert Slice(text, 1, 2) == "1";
    assert ItemPieces(text, [], items[0], 1, OwnLine(1, false)) == [Piece(OwnLine(1, false), "1")];
    assert TailPieces(text, [], 2, 2, ArrayKind, 5, 0, true) == [Piece(OwnLine(0, false), "]")];
    hide NextToken, Slice, HasBlankLine, HasNewline;
    assert ItemsPieces(text, [], 1, 1, ArrayKind, items, 5, 0, true, Glued)
        == [Piece(OwnLine(1, false), "1"), Piece(OwnLine(0, false), "]")];
    hide ItemsPieces, TailPieces, ItemPieces;
    assert InsidePieces(text, [], root, 0) == [Piece(OwnLine(1, false), "1"), Piece(OwnLine(0, false), "]")];
    assert Own(text, 0, 0, 0) == Glued;
    assert CommentPieces(text, [], 5, 5, 0, true) == [] && |text| == 5;
    assert CommentPieces(text, [], 0, 0, 0, true) == [] && LastEnd([], 0, 0) == 0;
    assert ValuePieces(text, [], root, 0, Glued) == [Piece(Glued, "[")] + InsidePieces(text, [], root, 0);
    assert RootPieces(text, [], root) == ValuePieces(text, [], root, 0, Glued);
  }

  lemma ThreePieces(a: Piece, b: Piece, c: Piece)
    ensures Flatten([a, b, c]) == Text(a) + Text(b) + Text(c)
  {
    hide Text;
    FlattenOne(a);
    FlattenSnoc([a], b);
    FlattenSnoc([a, b], c);
    assert [a] + [b] == [a, b] && [a, b] + [c] == [a, b, c];
  }

  /** The blank line before a closing bracket is not kept. */
  lemma BlankLineDropped(text: string, items: seq<Item>, root: Value)
    requires text == "[1\n\n]" && items == [Element(Leaf(1, 2))] && root == Container(0, 5, ArrayKind, items)
    ensures InputOk(text, [], root) && HasBlankLine(text, 2, 4) && Format(text, [], root) == Some("[\n  1\n]\n")
  {
    hide *;
    BlankLineInput(text, items, root);
    BlankLinePieces(text, items, root);
    FormatLaysOut(text, [], root);
    LaidOutIs(Format(text, [], root).value, Pieces(text, [], root));
    ThreePieces(Piece(Glued, "["), Piece(OwnLine(1, false), "1"), Piece(OwnLine(0, false), "]"));
    ThreeTexts();
  }

  lemma LaidOutIs(out: string, ps: seq<Piece>)
    requires LaidOut(out, ps)
    ensures out == Flatten(ps) + "\n"
  {
  }

  lemma ThreeTexts()
    ensures Text(Piece(Glued, "[")) + Text(Piece(OwnLine(1, false), "1")) + Text(Piece(OwnLine(0, false), "]")) + "\n"
            == "[\n  1\n]\n"
  {
    assert Blanks(2) == "  " && Blanks(0) == "";
  }
}
