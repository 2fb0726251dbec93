/** Where the parts of a nested container stand in the formatted text, whatever surrounds it. */
module JsoncLayoutNested {
  import opened Outcomes
  import opened JsoncText
  import opened JsoncTree
  import opened JsoncSpec
  import opened JsoncGaps
  import opened JsoncSymbols
  import opened JsoncOutcome
  import opened JsoncLayout
  import opened JsoncLayoutTheorem
  import opened JsoncLayoutFacts

  /** `w` lies in `v`, `d` containers deep. */
  ghost predicate At(v: Value, w: Value, d: nat)
    decreases d
  {
    if d == 0 then v == w
    else v.Container? && exists i :: 0 <= i < |v.items| && At(v.items[i].value, w, d - 1)
  }

  /** The pieces of a part are among those of the whole. */
  predicate Among(part: seq<Piece>, all: seq<Piece>) {
    forall p :: p in part ==> p in all
  }

  lemma AmongConcat(part: seq<Piece>, a: seq<Piece>, b: seq<Piece>)
    requires Among(part, a) || Among(part, b)
    ensures Among(part, a + b)
  {
  }

  // ----- from the items to one of them -----

  /** Where the value of an item begins, and the comments from there on. */
  lemma ItemValue(text: string, cs: seq<Range>, start: nat, kind: Kind, item: Item, depth: nat, lead: Lead)
      returns (cs1: seq<Range>, lead1: Lead)
    requires CommentsOk(text, cs) && ItemOk(text, cs, start, kind, item)
    ensures start <= item.value.start && cs1 == After(cs, item.value.start)
    ensures CommentsOk(text, cs1) && ValueOk(text, cs1, item.value)
    ensures Among(ValuePieces(text, cs1, item.value, depth, lead1), ItemPieces(text, cs, item, depth, lead))
  {
    if item.Element? {
      cs1, lead1 := ElementPart(text, cs, start, kind, item, depth, lead);
    } else {
      cs1, lead1 := MemberPart(text, cs, start, kind, item, depth, lead);
    }
  }

  lemma ElementPart(text: string, cs: seq<Range>, start: nat, kind: Kind, item: Item, depth: nat, lead: Lead)
      returns (cs1: seq<Range>, lead1: Lead)
    requires item.Element? && CommentsOk(text, cs) && ItemOk(text, cs, start, kind, item)
    ensures start <= item.value.start && cs1 == After(cs, item.value.start)
    ensures CommentsOk(text, cs1) && ValueOk(text, cs1, item.value)
    ensures Among(ValuePieces(text, cs1, item.value, depth, lead1), ItemPieces(text, cs, item, depth, lead))
  {
    cs1, lead1 := cs, lead;
    NothingBefore(text, cs, item.value);
    hide ValuePieces, CommentsOk, ValueOk;
  }

  lemma NothingBefore(text: string, cs: seq<Range>, v: Value)
    requires ValueOk(text, cs, v)
    ensures After(cs, v.start) == cs
  {
  }

  lemma MemberPart(text: string, cs: seq<Range>, start: nat, kind: Kind, item: Item, depth: nat, lead: Lead)
      returns (cs1: seq<Range>, lead1: Lead)
    requires item.Member? && CommentsOk(text, cs) && ItemOk(text, cs, start, kind, item)
    ensures start <= item.value.start && cs1 == After(cs, item.value.start)
    ensures CommentsOk(text, cs1) && ValueOk(text, cs1, item.value)
    ensures Among(ValuePieces(text, cs1, item.value, depth, lead1), ItemPieces(text, cs, item, depth, lead))
  {
    var colon := NextToken(text, cs, item.key.end);
    KeyEnds(text, cs, start, kind, item);
    hide NextToken, CommentsOk, ValueOk, After, ValuePieces, CommentPieces, SymbolPieces, Resume, Before, Own, LastEnd;
    AfterTwice(cs, colon, item.value.start);
    AfterOk(text, cs, item.value.start);
    cs1 := After(After(cs, colon), item.value.start);
    var from := Resume(text, cs, colon, ':');
    lead1 := if Before(After(cs, colon), item.value.start)
             then Own(text, LastEnd(After(cs, colon), from, item.value.start), item.value.start, depth) else Spaced;
    var before := SymbolPieces(text, cs, item.key.end, colon, ':', depth)
                + CommentPieces(text, After(cs, colon), from, item.value.start, depth, true);
    assert MemberPieces(text, cs, item.key.end, item.value, depth) == before + ValuePieces(text, cs1, item.value, depth, lead1);
    AmongConcat(ValuePieces(text, cs1, item.value, depth, lead1), before, ValuePieces(text, cs1, item.value, depth, lead1));
  }

  lemma KeyEnds(text: string, cs: seq<Range>, start: nat, kind: Kind, item: Item)
    requires item.Member? && CommentsOk(text, cs) && ItemOk(text, cs, start, kind, item)
    ensures var colon := NextToken(text, cs, item.key.end);
            && start <= item.value.start && colon <= item.value.start
            && ValueOk(text, After(After(cs, colon), item.value.start), item.value)
  {
    hide NextToken, CommentsOk, ValueOk, After;
    ColonSpan(text, cs, item.key.end, item.value.start);
  }

  // ----- down the tree -----

  /** The pieces inside a container are among those inside every container it lies in. */
  lemma {:induction false} InsidePart(text: string, cs: seq<Range>, v: Value, depth: nat, w: Value, d: nat)
      returns (cs1: seq<Range>)
    requires CommentsOk(text, cs) && ValueOk(text, cs, v) && At(v, w, d) && v.Container? && w.Container?
    ensures v.start <= w.start && cs1 == After(cs, w.start)
    ensures CommentsOk(text, cs1) && ValueOk(text, cs1, w)
    ensures Among(InsidePieces(text, cs1, w, depth + d), InsidePieces(text, cs, v, depth))
    decreases d, 2, 0
  {
    hide *;
    if d == 0 {
      cs1 := cs;
      NothingBefore(text, cs, v);
      SameHere(v, w, InsidePieces(text, cs, v, depth));
    } else {
      var i := ItemAt(v, w, d);
      OpensFirst(text, cs, v);
      var several := Before(After(cs, v.start), v.end) || HasNewline(text, v.start, v.end);
      cs1 := ItemsPart(text, cs, v.start + 1, v.start + 1, v.kind, v.items, v.end, depth, several, Glued, i, w, d);
      ItemsInside(text, cs, v, depth, several);
    }
  }

  lemma SameHere(v: Value, w: Value, ps: seq<Piece>)
    requires At(v, w, 0)
    ensures v == w && Among(ps, ps)
  {
  }

  lemma ItemAt(v: Value, w: Value, d: nat) returns (i: nat)
    requires d > 0 && At(v, w, d)
    ensures v.Container? && i < |v.items| && At(v.items[i].value, w, d - 1)
  {
    i :| 0 <= i < |v.items| && At(v.items[i].value, w, d - 1);
  }

  lemma {:induction false} ValuePart(text: string, cs: seq<Range>, v: Value, depth: nat, lead: Lead, w: Value, d: nat)
      returns (cs1: seq<Range>)
    requires CommentsOk(text, cs) && ValueOk(text, cs, v) && At(v, w, d) && w.Container?
    ensures v.start <= w.start && cs1 == After(cs, w.start)
    ensures CommentsOk(text, cs1) && ValueOk(text, cs1, w)
    ensures Among(InsidePieces(text, cs1, w, depth + d), ValuePieces(text, cs, v, depth, lead))
    decreases d, 3, 0
  {
    hide *;
    AboveContainer(v, w, d);
    cs1 := InsidePart(text, cs, v, depth, w, d);
    InsideAmong(text, cs, v, depth, lead);
    AmongTrans(InsidePieces(text, cs1, w, depth + d), InsidePieces(text, cs, v, depth), ValuePieces(text, cs, v, depth, lead));
  }

  lemma AboveContainer(v: Value, w: Value, d: nat)
    requires At(v, w, d) && w.Container?
    ensures v.Container?
  {
  }

  lemma InsideAmong(text: string, cs: seq<Range>, v: Value, depth: nat, lead: Lead)
    requires v.Container?
    ensures Among(InsidePieces(text, cs, v, depth), ValuePieces(text, cs, v, depth, lead))
  {
    hide InsidePieces;
  }

  lemma AmongTrans(a: seq<Piece>, b: seq<Piece>, c: seq<Piece>)
    requires Among(a, b) && Among(b, c)
    ensures Among(a, c)
  {
  }

  lemma OpensFirst(text: string, cs: seq<Range>, v: Value)
    requires CommentsOk(text, cs) && ValueOk(text, cs, v) && v.Container? && v.items != []
    ensures v.start + 1 < v.end <= |text| && !Before(cs, v.start + 1) && Separates(text, v.start + 1)
    ensures ItemsOk(text, cs, v.start + 1, v.kind, v.items, v.end)
  {
    hide ItemsOk;
    NoCommentAt(text, cs, v.start);
  }

  lemma ItemsInside(text: string, cs: seq<Range>, v: Value, depth: nat, several: bool)
    requires v.Container? && v.items != []
    requires several == (Before(After(cs, v.start), v.end) || HasNewline(text, v.start, v.end))
    ensures InsidePieces(text, cs, v, depth)
            == ItemsPieces(text, cs, v.start + 1, v.start + 1, v.kind, v.items, v.end, depth, several, Glued)
  {
    hide ItemsPieces, HasNewline, Before, After;
  }

  lemma {:induction false} ItemsPart(text: string, cs: seq<Range>, from: nat, p: nat, kind: Kind, items: seq<Item>, end: nat,
      depth: nat, several: bool, first: Lead, i: nat, w: Value, d: nat) returns (cs1: seq<Range>)
    requires CommentsOk(text, cs) && !Before(cs, p) && p <= |text| && i < |items| && 0 < end <= |text|
    requires ItemsOk(text, cs, p, kind, items, end) && d > 0 && At(items[i].value, w, d - 1) && w.Container?
    ensures p <= w.start && cs1 == After(cs, w.start)
    ensures CommentsOk(text, cs1) && ValueOk(text, cs1, w)
    ensures Among(InsidePieces(text, cs1, w, depth + d), ItemsPieces(text, cs, from, p, kind, items, end, depth, several, first))
    decreases d, 1, i
  {
    hide *;
    var start := NextToken(text, cs, p);
    if i == 0 {
      ItemsFirst(text, cs, p, kind, items, end);
      var own := Own(text, LastEnd(cs, from, start), start, depth + 1);
      var lead := if several then own else first;
      var cs2, lead1 := ItemValue(text, After(cs, start), start, kind, items[0], depth + 1, lead);
      AfterTwice(cs, start, items[0].value.start);
      cs1 := ValuePart(text, cs2, items[0].value, depth + 1, lead1, w, d - 1);
      AfterTwice(cs, items[0].value.start, w.start);
      FirstAmong(text, cs, from, p, kind, items, end, depth, several, first);
      AmongTrans(InsidePieces(text, cs1, w, depth + d), ValuePieces(text, cs2, items[0].value, depth + 1, lead1),
        ItemPieces(text, After(cs, start), items[0], depth + 1, lead));
      AmongTrans(InsidePieces(text, cs1, w, depth + d), ItemPieces(text, After(cs, start), items[0], depth + 1, lead),
        ItemsPieces(text, cs, from, p, kind, items, end, depth, several, first));
    } else {
      ItemsNext(text, cs, p, kind, items, end);
      var e := items[0].value.end;
      var cs2 := After(After(cs, start), e);
      var sep := NextToken(text, cs2, e);
      var q := Resume(text, cs2, sep, ',');
      assert items[1..][i - 1] == items[i];
      cs1 := ItemsPart(text, After(cs, sep), q, sep + 1, kind, items[1..], end, depth, several, Spaced, i - 1, w, d);
      AfterTwice(cs, sep, w.start);
      LaterPieces(text, cs, from, p, kind, items, end, depth, several, first);
      var inside, line := InsidePieces(text, cs1, w, depth + d), LinePieces(text, cs, from, start, items[0], depth + 1, several, first);
      var comma := SymbolPieces(text, cs2, e, sep, ',', depth + 1);
      var more := ItemsPieces(text, After(cs, sep), q, sep + 1, kind, items[1..], end, depth, several, Spaced);
      AmongConcat(inside, comma, more);
      AmongConcat(inside, line, comma + more);
    }
  }

  lemma FirstAmong(text: string, cs: seq<Range>, from: nat, p: nat, kind: Kind, items: seq<Item>, end: nat, depth: nat,
      several: bool, first: Lead)
    requires items != []
    ensures var start := NextToken(text, cs, p);
            var own := Own(text, LastEnd(cs, from, start), start, depth + 1);
            Among(ItemPieces(text, After(cs, start), items[0], depth + 1, if several then own else first),
              ItemsPieces(text, cs, from, p, kind, items, end, depth, several, first))
  {
    hide ItemPieces, RestPieces, CommentPieces, NextToken, After, Own, LastEnd;
  }

  // ----- in the formatted text -----

  lemma RootOk(text: string, cs: seq<Range>, root: Value)
    requires InputOk(text, cs, root)
    ensures CommentsOk(text, After(cs, root.start)) && ValueOk(text, After(cs, root.start), root)
  {
    hide CommentsOk, ValueOk, NextToken;
    AfterOk(text, cs, root.start);
  }

  lemma RootInside(text: string, cs: seq<Range>, root: Value)
    requires root.Container?
    ensures Among(InsidePieces(text, After(cs, root.start), root, 0), Pieces(text, cs, root))
  {
    hide InsidePieces, CommentPieces, SymbolPieces, Own, LastEnd, HasNewline, Before, After;
    InsideAmong(text, After(cs, root.start), root, 0, Own(text, LastEnd(cs, 0, root.start), root.start, 0));
  }

  /** The pieces inside any container of the input are pieces of the output, at its depth in the tree. */
  lemma ContainerAmong(text: string, cs: seq<Range>, root: Value, w: Value, d: nat)
    requires InputOk(text, cs, root) && w.Container? && At(root, w, d)
    ensures CommentsOk(text, After(cs, w.start)) && ValueOk(text, After(cs, w.start), w)
    ensures Among(InsidePieces(text, After(cs, w.start), w, d), Pieces(text, cs, root))
  {
    hide *;
    RootOk(text, cs, root);
    AboveContainer(root, w, d);
    var cs1 := InsidePart(text, After(cs, root.start), root, 0, w, d);
    AfterTwice(cs, root.start, w.start);
    RootInside(text, cs, root);
    AmongTrans(InsidePieces(text, cs1, w, d), InsidePieces(text, After(cs, root.start), root, 0), Pieces(text, cs, root));
  }

  /** Somewhere in the text the token stands on a line of its own, behind exactly `2 * depth` blanks. */
  ghost predicate StartsLine(out: string, token: string, depth: nat, blank: bool) {
    exists j :: StandsAt(out, Piece(OwnLine(depth, blank), token), j)
  }

  lemma AmongStands(out: string, ps: seq<Piece>, token: string, depth: nat, blank: bool)
    requires LaidOut(out, ps) && Piece(OwnLine(depth, blank), token) in ps
    ensures StartsLine(out, token, depth, blank)
  {
    hide StandsAt;
    var i :| 0 <= i < |ps| && ps[i] == Piece(OwnLine(depth, blank), token);
    assert StandsAt(out, ps[i], PlaceOf(ps, i));
  }

  lemma LinesInside(text: string, cs: seq<Range>, w: Value, d: nat, i: nat) returns (before: nat)
    requires w.Container? && i < |w.items| && CommentsOk(text, cs) && ValueOk(text, cs, w)
    requires Before(cs, w.end) || HasNewline(text, w.start, w.end)
    ensures HasLine(InsidePieces(text, cs, w, d), text, before, StartOf(w.items, i), d + 1, FirstToken(text, w.items[i]))
    ensures Follows(text, cs, before, StartOf(w.items, i))
  {
    NothingBefore(text, cs, w);
    OpensFirst(text, cs, w);
    hide *;
    LagsNot(text, w.start + 1);
    ItemsInside(text, cs, w, d, true);
    before := ItemsHaveLines(text, cs, w.start + 1, w.start + 1, w.kind, w.items, w.end, d, Glued, i);
  }

  lemma BracketInside(text: string, cs: seq<Range>, w: Value, d: nat)
    requires w.Container? && After(cs, w.start) == cs && (Before(cs, w.end) || HasNewline(text, w.start, w.end))
    ensures Piece(OwnLine(d, false), [w.kind.Close()]) in InsidePieces(text, cs, w, d)
  {
    if w.items == [] {
      BracketEndsTail(text, cs, w.start + 1, w.start + 1, w.kind, w.end, d, true);
    } else {
      BracketIsLast(text, cs, w.start + 1, w.start + 1, w.kind, w.items, w.end, d, true, Glued);
    }
    hide TailPieces, ItemsPieces, HasNewline, Before, After;
  }

  /** Wherever a container with a newline or a comment in it lies in an input that fits, in the output each of its items
      starts a line, behind two blanks for each container around it, and so does its closing bracket, one level less
      deep and without a blank line. A blank line stands before the item exactly if one stands between it and what comes
      before it in the input. */
  lemma ContainerStands(text: string, cs: seq<Range>, root: Value, w: Value, d: nat, i: nat)
      returns (before: nat)
    requires InputOk(text, cs, root) && w.Container? && At(root, w, d)
    requires root.start <= root.end <= |text| && Fits(text, cs, root)
    requires Before(After(cs, w.start), w.end) || HasNewline(text, w.start, w.end)
    ensures Format(text, cs, root).Some?
    ensures var out := Format(text, cs, root).value;
            && StartsLine(out, [w.kind.Close()], d, false)
            && (i < |w.items| ==>
                  && Follows(text, cs, before, StartOf(w.items, i))
                  && StartsLine(out, FirstToken(text, w.items[i]), d + 1, HasBlankLine(text, before, StartOf(w.items, i))))
  {
    hide *;
    FormatLaysOut(text, cs, root);
    ContainerAmong(text, cs, root, w, d);
    var out, ps, cs1 := Format(text, cs, root).value, Pieces(text, cs, root), After(cs, w.start);
    NothingBefore(text, cs1, w);
    BracketInside(text, cs1, w, d);
    IsAmong(Piece(OwnLine(d, false), [w.kind.Close()]), InsidePieces(text, cs1, w, d), ps);
    AmongStands(out, ps, [w.kind.Close()], d, false);
    before := 0;
    if i < |w.items| {
      before := LinesInside(text, cs1, w, d, i);
      FollowsMore(text, cs, w.start, before, StartOf(w.items, i));
      var at, token := StartOf(w.items, i), FirstToken(text, w.items[i]);
      LineIs(InsidePieces(text, cs1, w, d), text, before, at, d + 1, token);
      IsAmong(Piece(OwnLine(d + 1, HasBlankLine(text, before, at)), token), InsidePieces(text, cs1, w, d), ps);
      AmongStands(out, ps, token, d + 1, HasBlankLine(text, before, at));
    }
  }

  lemma IsAmong(p: Piece, part: seq<Piece>, all: seq<Piece>)
    requires p in part && Among(part, all)
    ensures p in all
  {
  }

  lemma LineIs(ps: seq<Piece>, text: string, from: nat, at: nat, depth: nat, written: string)
    requires HasLine(ps, text, from, at, depth, written)
    ensures Piece(OwnLine(depth, HasBlankLine(text, from, at)), written) in ps
  {
  }
}
