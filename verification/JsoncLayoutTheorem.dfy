/** On every input that fits, the formatted text is laid out as `Pieces` says: line breaks, blank lines and indentation. */
module JsoncLayoutTheorem {
  import opened Outcomes
  import opened JsoncText
  import opened JsoncLexer
  import opened JsoncTree
  import opened JsoncSpec
  import opened JsoncScan
  import opened JsoncGaps
  import opened JsoncSymbols
  import opened JsoncOutcome
  import opened JsoncTheorem
  import opened JsoncLayout
  import opened JsoncLayoutGaps
  import opened JsoncLayoutValues

  // ----- where a piece stands in the text -----

  /** Piece `i` stands at `j` in the text, behind its lead. On a line of its own, a newline and exactly `2 * depth` blanks
      come before it, and before these another newline exactly if it has a blank line. */
  predicate StandsAt(out: string, p: Piece, j: nat) {
    && p.written != "" && j + |p.written| <= |out| && out[j..j + |p.written|] == p.written && p.written[0] != ' '
    && match p.lead
       case Glued => j > 0 ==> out[j - 1] != '\n'
       case Spaced => j > 1 && out[j - 1] == ' ' && out[j - 2] != '\n'
       case OwnLine(depth, blank) =>
         var k := j - 2 * depth - 1;
         k >= 0 && out[k] == '\n' && (forall x :: k < x < j ==> out[x] == ' ') && (blank <==> k > 0 && out[k - 1] == '\n')
  }

  /** Where piece `i` starts. */
  function PlaceOf(ps: seq<Piece>, i: nat): nat
    requires i < |ps|
  {
    |Flatten(ps[..i])| + |LeadText(ps[i].lead)|
  }

  /** The first piece is not led by a blank, and text does not start after one. */
  predicate StartsWell(ps: seq<Piece>) {
    ps != [] ==> !ps[0].lead.Spaced?
  }

  lemma {:induction false} EndsInked(ps: seq<Piece>)
    requires ps != [] && AllInked(ps)
    ensures Flatten(ps) != "" && Flatten(ps)[|Flatten(ps)| - 1] != '\n'
  {
    var last := ps[|ps| - 1];
    assert Inked(last);
    assert Text(last)[|Text(last)| - 1] == last.written[|last.written| - 1];
  }

  lemma SplitAt<T>(s: seq<T>, i: nat)
    requires i < |s|
    ensures s == (s[..i] + [s[i]]) + s[i + 1..]
  {
  }

  lemma FlattenSplit(ps: seq<Piece>, i: nat)
    requires i < |ps|
    ensures Flatten(ps) == (Flatten(ps[..i]) + Text(ps[i])) + Flatten(ps[i + 1..])
  {
    hide *;
    SplitAt(ps, i);
    FlattenConcat(ps[..i] + [ps[i]], ps[i + 1..]);
    FlattenSnoc(ps[..i], ps[i]);
  }

  lemma PlaceIs(ps: seq<Piece>, i: nat)
    requires i < |ps|
    ensures PlaceOf(ps, i) == |Flatten(ps[..i])| + |LeadText(ps[i].lead)|
  {
  }

  lemma InkedAt(ps: seq<Piece>, i: nat)
    requires i < |ps| && AllInked(ps) && StartsWell(ps)
    ensures Inked(ps[i]) && (ps[i].lead.Spaced? ==> Flatten(ps[..i]) != "")
    ensures Flatten(ps[..i]) != "" ==> Flatten(ps[..i])[|Flatten(ps[..i])| - 1] != '\n'
  {
    hide Text;
    if i > 0 {
      EndsInked(ps[..i]);
    }
  }

  lemma PieceStands(ps: seq<Piece>, i: nat, rest: string)
    requires i < |ps| && AllInked(ps) && StartsWell(ps)
    ensures StandsAt(Flatten(ps) + rest, ps[i], PlaceOf(ps, i))
  {
    hide *;
    var init, p, more := ps[..i], ps[i], ps[i + 1..];
    InkedAt(ps, i);
    FlattenSplit(ps, i);
    Regroup(Flatten(init) + Text(p), Flatten(more), rest);
    StandsBetween(Flatten(init), p, Flatten(more) + rest);
    assert PlaceOf(ps, i) == |Flatten(init)| + |LeadText(p.lead)| by { PlaceIs(ps, i); }
  }

  lemma StandsBetween(before: string, p: Piece, after: string)
    requires Inked(p) && (before != "" ==> before[|before| - 1] != '\n') && (p.lead.Spaced? ==> before != "")
    ensures StandsAt((before + Text(p)) + after, p, |before| + |LeadText(p.lead)|)
  {
    var out, j, lead := (before + Text(p)) + after, |before| + |LeadText(p.lead)|, LeadText(p.lead);
    assert out[j..j + |p.written|] == p.written;
    assert forall x :: |before| <= x < j ==> out[x] == lead[x - |before|];
    assert before != "" ==> out[|before| - 1] == before[|before| - 1];
  }

  // ----- the whole text -----

  lemma LeafWritten(text: string, cs: seq<Range>, root: Value)
    requires InputOk(text, cs, root) && root.Leaf? && !Before(cs, root.start)
    ensures root.start <= root.end <= |text|
    ensures var r := PutValue(text, Start(text, cs, root), root);
            r.Some? && Writes("", ValuePieces(text, After(cs, root.start), root, 0, Glued), r.value.out)
  {
    LeafOneLine(text, cs, root);
    LeafLaid(text, Start(text, cs, root), root);
  }

  lemma SeveralWritten(text: string, cs: seq<Range>, root: Value)
    requires InputOk(text, cs, root) && root.Container? && !StartsWithBlock(text, cs)
    requires root.start <= root.end <= |text| && Multiline(text, cs, root) && ValueFits(text, After(cs, root.start), root)
    ensures var r := PutValue(text, Start(text, cs, root), root);
            r.Some?
            && Writes("", CommentPieces(text, cs, 0, root.start, 0, true)
                 + ValuePieces(text, After(cs, root.start), root, 0, Own(text, LastEnd(cs, 0, root.start), root.start, 0)),
                 r.value.out)
  {
    SeveralReady(text, cs, root);
    hide *;
    var s0, cs1 := Start(text, cs, root), After(cs, root.start);
    var s1 := Comments(text, s0, root.start).value;
    var s2 := Indent(text, s1, root.start).value;
    ContentLaid(text, s2, root, ':');
    var z := PutContent(text, s2, root).value.out;
    ValueLed(text, cs1, root, 0, Own(text, s1.pos, root.start, 0), s1.out, z);
    WritesBoth("", CommentPieces(text, cs, 0, root.start, 0, true), s1.out,
      ValuePieces(text, cs1, root, 0, Own(text, s1.pos, root.start, 0)), z);
  }

  lemma SeveralReady(text: string, cs: seq<Range>, root: Value)
    requires InputOk(text, cs, root) && root.Container? && !StartsWithBlock(text, cs)
    requires root.start <= root.end <= |text| && Multiline(text, cs, root)
    ensures var s0 := Start(text, cs, root);
            && Comments(text, s0, root.start).Some? && Indent(text, Comments(text, s0, root.start).value, root.start).Some?
            && var s1 := Comments(text, s0, root.start).value; var s2 := Indent(text, s1, root.start).value;
               && PutValue(text, s0, root) == PutContent(text, s2, root)
               && Inv(text, s2, root.start) && Lag(text, s2.pos, root.start, ':') && LagChar(':')
               && ModeAt(text, root.start).Between? && Scan(s2.out).mode.Between?
               && ValueOk(text, s2.pending, root) && !StartsWithBlock(text, s2.pending)
               && Exact(text, s2.pending, root, ':') && s2.pending == After(cs, root.start) && s2.level == 0
               && Writes("", CommentPieces(text, cs, 0, root.start, 0, true), s1.out) && s1.pos == LastEnd(cs, 0, root.start)
               && s2.out == s1.out + LeadText(Own(text, s1.pos, root.start, 0))
  {
    hide *;
    StartInv(text, cs, root);
    StartIs(text, cs, root);
    var s0 := Start(text, cs, root);
    NotBlockLater(text, cs, root.start);
    ValueOnNewLine(text, s0, 0, root, ':');
    SeveralGap(text, cs, root, s0);
    IndentIs(text, Comments(text, s0, root.start).value, root.start);
    NeverOpen(text, After(cs, root.start), root);
    PutSeveral(text, s0, root);
  }

  lemma StartIs(text: string, cs: seq<Range>, root: Value)
    requires InputOk(text, cs, root) && root.start < root.end <= |text|
    ensures var s0 := Start(text, cs, root);
            && s0.pending == cs && s0.out == "" && s0.level == 0 && s0.pos == 0 && s0.multiline == Multiline(text, cs, root)
            && Lag(text, s0.pos, 0, ':') && LagChar(':')
    ensures CommentsOk(text, cs) && ValueOk(text, After(cs, root.start), root)
  {
    hide CommentsOk, ValueOk, NextToken;
  }

  lemma NeverOpen(text: string, cs: seq<Range>, v: Value)
    ensures Exact(text, cs, v, ':')
  {
    hide Multiline;
  }

  lemma PutSeveral(text: string, s: State, v: Value)
    requires s.multiline && Comments(text, s, v.start).Some? && Indent(text, Comments(text, s, v.start).value, v.start).Some?
    ensures PutValue(text, s, v) == PutContent(text, Indent(text, Comments(text, s, v.start).value, v.start).value, v)
  {
    hide Comments, Indent, PutContent;
  }

  lemma SeveralGap(text: string, cs: seq<Range>, root: Value, s0: State)
    requires InputOk(text, cs, root) && root.start < root.end <= |text| && !StartsWithBlock(text, cs)
    requires Inv(text, s0, 0) && GapOk(text, cs, 0, root.start)
    requires s0.pending == cs && s0.out == "" && s0.level == 0 && s0.pos == 0
    ensures var r := Comments(text, s0, root.start);
            && r.Some? && r.value.pos == LastEnd(cs, 0, root.start) <= root.start && r.value.level == 0
            && Writes("", CommentPieces(text, cs, 0, root.start, 0, true), r.value.out)
  {
    AfterOk(text, cs, root.start);
    CommentsIs(text, s0, 0, root.start, root.start, ':');
    CommentsInv(text, s0, 0, root.start, root.start, ':');
    hide Comments, Writes, CommentPieces;
  }

  lemma OneLineWritten(text: string, cs: seq<Range>, root: Value)
    requires InputOk(text, cs, root) && root.Container? && !StartsWithBlock(text, cs)
    requires root.start <= root.end <= |text| && !Multiline(text, cs, root) && ValueFits(text, After(cs, root.start), root)
    requires GapFits(text, cs, root.start, root.kind.Open())
    ensures var r := PutValue(text, Start(text, cs, root), root);
            r.Some?
            && Writes("", SymbolPieces(text, cs, 0, root.start, root.kind.Open(), 0)
                 + InsidePieces(text, After(cs, root.start), root, 0), r.value.out)
  {
    OneLineReady(text, cs, root);
    hide *;
    var s0 := Start(text, cs, root);
    var s1 := PutSymbol(text, s0, root.kind.Open()).value;
    BodyLaid(text, s1, root, false);
    var z := PutBody(text, s1, root, false).value.out;
    WritesBoth("", SymbolPieces(text, cs, 0, root.start, root.kind.Open(), 0), s1.out,
      InsidePieces(text, s1.pending, root, 0), z);
    PutOneLine(text, s0, root);
  }

  lemma PutOneLine(text: string, s: State, v: Value)
    requires v.Container? && v.start <= v.end <= |text| && !s.multiline && PutSymbol(text, s, v.kind.Open()).Some?
    requires PutBody(text, PutSymbol(text, s, v.kind.Open()).value, v, false).Some?
    ensures var r := PutValue(text, s, v);
            r.Some? && r.value.out == PutBody(text, PutSymbol(text, s, v.kind.Open()).value, v, false).value.out
  {
    hide PutSymbol, PutBody;
    assert PutContainer(text, s, v) == PutBody(text, PutSymbol(text, s, v.kind.Open()).value, v, false);
    hide PutContainer;
    assert PutContent(text, s, v) == Some(PutContainer(text, s, v).value.(pos := v.end));
    hide PutContent;
  }

  lemma SameLines(text: string, cs: seq<Range>, v: Value)
    requires v.start <= v.end <= |text|
    ensures Multiline(text, After(cs, v.start), v) == Multiline(text, cs, v)
  {
    AfterTwice(cs, v.start, v.start);
  }

  lemma OpensAt(text: string, cs: seq<Range>, root: Value)
    requires InputOk(text, cs, root) && root.Container? && root.start < root.end <= |text|
    ensures var ch := root.kind.Open();
            root.start < |text| && text[root.start] == ch && IsSymbol(ch) && !IsClose(ch) && ch != ' '
    ensures Scan("").mode.Between? && Lag(text, 0, 0, ' ')
  {
    hide NextToken, ItemsOk, CommentsOk;
  }

  lemma PrintedMeans(text: string, s: State, q: nat, ch: char, r: Option<State>)
    requires Printed(text, s, q, ch, r)
    ensures r.Some? && Inv(text, r.value, q + 1) && Lag(text, r.value.pos, q + 1, ch) && r.value.pos > 0
    ensures r.value.pending == After(s.pending, q) && Scan(r.value.out).mode.Between?
  {
    hide Inv, Lag, Scan, After;
  }

  lemma OneLineReady(text: string, cs: seq<Range>, root: Value)
    requires InputOk(text, cs, root) && root.Container? && !StartsWithBlock(text, cs)
    requires root.start <= root.end <= |text| && !Multiline(text, cs, root)
    requires GapFits(text, cs, root.start, root.kind.Open())
    ensures var s0 := Start(text, cs, root);
            && !s0.multiline && PutSymbol(text, s0, root.kind.Open()).Some?
            && var s1 := PutSymbol(text, s0, root.kind.Open()).value;
               && s1.pending == After(cs, root.start) && s1.level == 0
               && ValueOk(text, s1.pending, root) && Inv(text, s1, root.start + 1)
               && Lag(text, s1.pos, root.start + 1, root.kind.Open())
               && ModeAt(text, root.start + 1).Between? && Scan(s1.out).mode.Between? && s1.pos > 0
               && !StartsWithBlock(text, s1.pending) && !Multiline(text, s1.pending, root)
               && Writes("", SymbolPieces(text, cs, 0, root.start, root.kind.Open(), 0), s1.out)
  {
    hide *;
    StartInv(text, cs, root);
    StartIs(text, cs, root);
    SameLines(text, cs, root);
    NotBlockLater(text, cs, root.start);
    OpensAt(text, cs, root);
    var s0, ch := Start(text, cs, root), root.kind.Open();
    SymbolPrinted(text, s0, 0, root.start, ch, ' ');
    PrintedMeans(text, s0, root.start, ch, PutSymbol(text, s0, ch));
    SymbolIs(text, s0, 0, root.start, ch, ' ');
    TextSymbol(text, root.start);
  }

  lemma RootWritten(text: string, cs: seq<Range>, root: Value)
    requires InputOk(text, cs, root) && root.start <= root.end <= |text| && Fits(text, cs, root)
    ensures var r := PutValue(text, Start(text, cs, root), root);
            r.Some? && Writes("", RootPieces(text, cs, root), r.value.out) && Arrived(text, cs, root.end, r)
  {
    SeveralIs(text, cs, root);
    if root.Leaf? {
      LeafWritten(text, cs, root);
      LeafFormats(text, cs, root);
    } else {
      hide InputOk, PutValue, Writes, CommentPieces, SymbolPieces, ValuePieces, InsidePieces, Own, ValueFits, GapFits, Arrived, Multiline,
           HasNewline, After;
      ContainerFormats(text, cs, root);
      if Multiline(text, cs, root) {
        SeveralWritten(text, cs, root);
      } else {
        OneLineWritten(text, cs, root);
      }
    }
  }

  /** The comments behind the root. */
  lemma EndWritten(text: string, cs: seq<Range>, root: Value, s: State)
    requires InputOk(text, cs, root) && Arrived(text, cs, root.end, Some(s)) && s.level == 0
    ensures Comments(text, s, |text|).Some?
    ensures Writes(s.out, CommentPieces(text, After(cs, root.end), root.end, |text|, 0, true), Comments(text, s, |text|).value.out)
  {
    StartInv(text, cs, root);
    NextTokenGap(text, s.pending, root.end);
    AfterOk(text, s.pending, |text|);
    InsideText(text, s.pending);
    CommentsIs(text, s, root.end, |text|, |text|, ' ');
  }

  lemma FirstLead(text: string, cs: seq<Range>, root: Value)
    ensures StartsWell(Pieces(text, cs, root))
  {
    hide InsidePieces;
    assert RootPieces(text, cs, root) != [] && !RootPieces(text, cs, root)[0].lead.Spaced?;
  }

  /** The text consists of the pieces and a final newline, and each piece stands where its lead says. */
  predicate LaidOut(out: string, ps: seq<Piece>) {
    out == Flatten(ps) + "\n" && forall i :: 0 <= i < |ps| ==> StandsAt(out, ps[i], PlaceOf(ps, i))
  }

  /** Formatting an input that fits writes exactly its pieces. */
  lemma FormatLaysOut(text: string, cs: seq<Range>, root: Value)
    requires InputOk(text, cs, root)
    ensures root.start <= root.end <= |text|
    ensures var r := Format(text, cs, root); Fits(text, cs, root) ==> r.Some? && LaidOut(r.value, Pieces(text, cs, root))
  {
    hide *;
    StartInv(text, cs, root);
    if Fits(text, cs, root) {
      RootWritten(text, cs, root);
      var s1 := PutValue(text, Start(text, cs, root), root).value;
      LevelKept(text, cs, root, s1);
      EndWritten(text, cs, root, s1);
      FirstLead(text, cs, root);
      PiecesAre(text, cs, root, s1.out, Comments(text, s1, |text|).value.out);
      AllStand(Pieces(text, cs, root));
      FormatIs(text, cs, root);
    }
  }

  lemma LevelKept(text: string, cs: seq<Range>, root: Value, s: State)
    requires root.start <= root.end <= |text| && Arrived(text, cs, root.end, Some(s))
    requires PutValue(text, Start(text, cs, root), root) == Some(s)
    ensures s.level == 0
  {
  }

  lemma FormatIs(text: string, cs: seq<Range>, root: Value)
    requires InputOk(text, cs, root) && root.start <= root.end <= |text|
    requires var r := PutValue(text, Start(text, cs, root), root); r.Some? && Comments(text, r.value, |text|).Some?
    ensures var s := PutValue(text, Start(text, cs, root), root).value;
            Format(text, cs, root) == Some(Comments(text, s, |text|).value.out + "\n")
  {
    hide InputOk, PutValue, Comments;
  }

  lemma AllStand(ps: seq<Piece>)
    requires AllInked(ps) && StartsWell(ps)
    ensures LaidOut(Flatten(ps) + "\n", ps)
  {
    hide AllInked, StartsWell, StandsAt, Flatten, PlaceOf;
    forall i | 0 <= i < |ps| ensures StandsAt(Flatten(ps) + "\n", ps[i], PlaceOf(ps, i)) {
      PieceStands(ps, i, "\n");
    }
  }

  lemma PiecesAre(text: string, cs: seq<Range>, root: Value, y: string, z: string)
    requires Writes("", RootPieces(text, cs, root), y)
    requires Writes(y, CommentPieces(text, After(cs, root.end), root.end, |text|, 0, true), z)
    ensures z == Flatten(Pieces(text, cs, root)) && AllInked(Pieces(text, cs, root))
  {
    hide CommentPieces, SymbolPieces, InsidePieces, ValuePieces, Own, Flatten, AllInked;
    WritesBoth("", RootPieces(text, cs, root), y, CommentPieces(text, After(cs, root.end), root.end, |text|, 0, true), z);
    assert "" + Flatten(Pieces(text, cs, root)) == Flatten(Pieces(text, cs, root));
  }
}
