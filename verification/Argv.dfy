/** Argument vectors as lists of units, and the rule that the last setting wins (`zakuro-moq/src/args.rs`,
    `zakuro/src/args.rs`, which carry the same code). */
module Argv {
  import opened Outcomes

  type Token = string

  /** Which keys are flags, and which belong to the common options. */
  datatype Grammar = Grammar(isFlag: string -> bool, isCommon: string -> bool)

  predicate IsKey(t: Token) {
    |t| >= 2 && t[0] == '-' && t[1] == '-'
  }

  /** The characters before the first `=`. */
  function BeforeEq(t: Token): Token {
    if t == [] || t[0] == '=' then [] else [t[0]] + BeforeEq(t[1..])
  }

  /** A key that takes the next token as its value, if there is one. */
  predicate TakesValue(g: Grammar, t: Token) {
    IsKey(t) && '=' !in t && !g.isFlag(t[2..])
  }

  function UnitSize(g: Grammar, argv: seq<Token>): (n: nat)
    requires argv != []
    ensures 1 <= n <= |argv|
  {
    if TakesValue(g, argv[0]) && |argv| > 1 then 2 else 1
  }

  function Units(g: Grammar, argv: seq<Token>): seq<seq<Token>> {
    if argv == [] then []
    else
      var n := UnitSize(g, argv);
      [argv[..n]] + Units(g, argv[n..])
  }

  function Flatten(units: seq<seq<Token>>): seq<Token> {
    if units == [] then [] else units[0] + Flatten(units[1..])
  }

  /** The key a unit sets, with its dashes; positional arguments set none. */
  function KeyOf(unit: seq<Token>): (key: Option<Token>)
    ensures key.Some? ==> |key.value| >= 2
  {
    if unit != [] && IsKey(unit[0]) then
      assert unit[0][1..][0] == '-' && BeforeEq(unit[0][1..]) != [];
      Some(BeforeEq(unit[0]))
    else None
  }

  predicate Sets(units: seq<seq<Token>>, key: Token) {
    exists i :: 0 <= i < |units| && KeyOf(units[i]) == Some(key)
  }

  /** Of the units for one key, only the last is kept; the others go where they are. */
  function LastWins(units: seq<seq<Token>>): seq<seq<Token>> {
    if units == [] then []
    else
      var rest := LastWins(units[1..]);
      if KeyOf(units[0]).Some? && Sets(units[1..], KeyOf(units[0]).value) then rest else [units[0]] + rest
  }

  function Deduped(g: Grammar, argv: seq<Token>): seq<Token> {
    Flatten(LastWins(Units(g, argv)))
  }

  /** The last unit for a key. */
  function LastOf(units: seq<seq<Token>>, key: Token): Option<seq<Token>> {
    if units == [] then None
    else
      var later := LastOf(units[1..], key);
      if later.Some? then later else if KeyOf(units[0]) == Some(key) then Some(units[0]) else None
  }

  function Positionals(units: seq<seq<Token>>): seq<seq<Token>> {
    if units == [] then []
    else (if KeyOf(units[0]).None? then [units[0]] else []) + Positionals(units[1..])
  }

  // ----- parsing and flattening -----

  /** A unit that parses as itself wherever it stands; only the last of a list may lack its value. */
  predicate WellFormed(g: Grammar, unit: seq<Token>, last: bool) {
    if |unit| == 2 then TakesValue(g, unit[0]) else |unit| == 1 && (last || !TakesValue(g, unit[0]))
  }

  predicate AllWellFormed(g: Grammar, units: seq<seq<Token>>) {
    forall i :: 0 <= i < |units| ==> WellFormed(g, units[i], i == |units| - 1)
  }

  lemma {:induction false} ParsedWellFormed(g: Grammar, argv: seq<Token>)
    ensures AllWellFormed(g, Units(g, argv)) && Flatten(Units(g, argv)) == argv
    ensures Units(g, argv) == [] <==> argv == []
    decreases |argv|
  {
    if argv != [] {
      var n := UnitSize(g, argv);
      ParsedWellFormed(g, argv[n..]);
      assert argv[..n] + argv[n..] == argv;
      var units := Units(g, argv);
      assert forall i :: 1 <= i < |units| ==> units[i] == Units(g, argv[n..])[i - 1];
    }
  }

  lemma {:induction false} FlattenParses(g: Grammar, units: seq<seq<Token>>)
    requires AllWellFormed(g, units)
    ensures Units(g, Flatten(units)) == units
  {
    if units != [] {
      var first, rest := units[0], units[1..];
      assert forall i :: 0 <= i < |rest| ==> rest[i] == units[i + 1];
      FlattenParses(g, rest);
      var argv := Flatten(units);
      assert argv[..|first|] == first && argv[|first|..] == Flatten(rest);
      if rest == [] {
        assert Flatten(rest) == [];
      }
    }
  }

  // ----- what the last-wins rule keeps -----

  lemma {:induction false} LastWinsKeeps(units: seq<seq<Token>>, key: Token)
    ensures LastOf(LastWins(units), key) == LastOf(units, key)
    ensures Positionals(LastWins(units)) == Positionals(units)
  {
    if units != [] {
      LastWinsKeeps(units[1..], key);
      SetsLast(units[1..], key);
      var rest := LastWins(units[1..]);
      assert ([units[0]] + rest)[1..] == rest;
    }
  }

  lemma {:induction false} SetsLast(units: seq<seq<Token>>, key: Token)
    ensures Sets(units, key) <==> LastOf(units, key).Some?
    ensures LastOf(units, key).Some? ==> KeyOf(LastOf(units, key).value) == Some(key) && LastOf(units, key).value in units
  {
    if units != [] {
      SetsLast(units[1..], key);
      if Sets(units[1..], key) {
        var i :| 0 <= i < |units[1..]| && KeyOf(units[1..][i]) == Some(key);
        assert units[i + 1] == units[1..][i];
      }
      if Sets(units, key) && KeyOf(units[0]) != Some(key) {
        var i :| 0 <= i < |units| && KeyOf(units[i]) == Some(key);
        assert units[1..][i - 1] == units[i];
      }
    }
  }

  predicate OncePerKey(units: seq<seq<Token>>) {
    forall i, j :: 0 <= i < j < |units| && KeyOf(units[i]).Some? ==> KeyOf(units[i]) != KeyOf(units[j])
  }

  lemma {:induction false} LastWinsOnce(units: seq<seq<Token>>)
    ensures OncePerKey(LastWins(units))
  {
    if units != [] {
      LastWinsOnce(units[1..]);
      var rest, first := LastWins(units[1..]), KeyOf(units[0]);
      if first.Some? && !Sets(units[1..], first.value) {
        LastWinsKeeps(units[1..], first.value);
        SetsLast(units[1..], first.value);
        SetsLast(rest, first.value);
      }
    }
  }

  /** Already one unit per key: nothing to drop. */
  lemma {:induction false} LastWinsFixed(units: seq<seq<Token>>)
    requires OncePerKey(units)
    ensures LastWins(units) == units
  {
    if units != [] {
      assert OncePerKey(units[1..]) by {
        assert forall i :: 0 <= i < |units| - 1 ==> units[1..][i] == units[i + 1];
      }
      LastWinsFixed(units[1..]);
      assert units == [units[0]] + units[1..];
    }
  }

  lemma {:induction false} LastWinsWellFormed(g: Grammar, units: seq<seq<Token>>)
    requires AllWellFormed(g, units)
    ensures AllWellFormed(g, LastWins(units)) && (LastWins(units) == [] <==> units == [])
    ensures units != [] ==> LastWins(units)[|LastWins(units)| - 1] == units[|units| - 1]
  {
    if units != [] {
      var tail := units[1..];
      assert forall i :: 0 <= i < |tail| ==> tail[i] == units[i + 1];
      LastWinsWellFormed(g, tail);
      var rest, all := LastWins(tail), LastWins(units);
      if all != rest {
        assert forall i :: 0 < i < |all| ==> all[i] == rest[i - 1];
        assert rest != [] ==> WellFormed(g, units[0], false);
      }
    }
  }

  /** Merging keeps the units: deduplicated arguments parse into the last unit of each key and all positionals, in
      order. Deduplicating again changes nothing. For every argument vector. */
  lemma DedupedUnits(g: Grammar, argv: seq<Token>)
    ensures var units := Units(g, Deduped(g, argv));
            && units == LastWins(Units(g, argv)) && OncePerKey(units)
            && Positionals(units) == Positionals(Units(g, argv))
            && (forall key :: LastOf(units, key) == LastOf(Units(g, argv), key))
    ensures Deduped(g, Deduped(g, argv)) == Deduped(g, argv)
  {
    var units := Units(g, argv);
    ParsedWellFormed(g, argv);
    LastWinsWellFormed(g, units);
    FlattenParses(g, LastWins(units));
    LastWinsOnce(units);
    LastWinsFixed(LastWins(units));
    forall key ensures LastOf(LastWins(units), key) == LastOf(units, key) {
      LastWinsKeeps(units, key);
    }
    LastWinsKeeps(units, []);
  }

  // ----- joining argument vectors -----

  /** No key at the end still waits for its value. */
  predicate Complete(g: Grammar, argv: seq<Token>) {
    var units := Units(g, argv);
    units == [] || !(|units[|units| - 1]| == 1 && TakesValue(g, units[|units| - 1][0]))
  }

  /** A key left without its value takes the first token of what follows. */
  lemma TakesNext(g: Grammar, a: seq<Token>, b: seq<Token>)
    requires |a| == 1 && TakesValue(g, a[0]) && b != []
    ensures !Complete(g, a) && Units(g, a + b) != Units(g, a) + Units(g, b)
  {
    var all := a + b;
    assert UnitSize(g, a) == 1 && a[..1] == a && a[1..] == [];
    assert Units(g, a) == [a] + Units(g, a[1..]) == [a];
    assert Units(g, all)[0] == all[..2] && (Units(g, a) + Units(g, b))[0] == a;
  }

  /** The first unit of the joined vectors is that of the first. */
  lemma FirstJoin(g: Grammar, a: seq<Token>, b: seq<Token>)
    requires a != [] && !(TakesValue(g, a[0]) && |a| == 1)
    ensures var n := UnitSize(g, a);
            && Units(g, a) == [a[..n]] + Units(g, a[n..])
            && Units(g, a + b) == [a[..n]] + Units(g, a[n..] + b)
  {
    var n, all := UnitSize(g, a), a + b;
    assert UnitSize(g, all) == n;
    assert all[..n] == a[..n] && all[n..] == a[n..] + b;
  }

  lemma CompleteRest(g: Grammar, a: seq<Token>)
    requires a != [] && !(TakesValue(g, a[0]) && |a| == 1)
    ensures Complete(g, a) <==> Complete(g, a[UnitSize(g, a)..])
  {
    FirstJoin(g, a, []);
    ParsedWellFormed(g, a[UnitSize(g, a)..]);
  }

  lemma SameTail(unit: seq<Token>, x: seq<seq<Token>>, y: seq<seq<Token>>, z: seq<seq<Token>>)
    ensures [unit] + x == ([unit] + y) + z <==> x == y + z
  {
    assert ([unit] + y) + z == [unit] + (y + z);
    assert ([unit] + x)[1..] == x && ([unit] + (y + z))[1..] == y + z;
  }

  /** Joined vectors parse separately exactly if the first leaves no key without its value. */
  lemma {:induction false} UnitsJoin(g: Grammar, a: seq<Token>, b: seq<Token>)
    ensures Units(g, a + b) == Units(g, a) + Units(g, b) <==> Complete(g, a) || b == []
    decreases |a|
  {
    if a == [] {
      assert a + b == b;
    } else if b == [] {
      assert a + b == a;
    } else if TakesValue(g, a[0]) && |a| == 1 {
      TakesNext(g, a, b);
    } else {
      var n := UnitSize(g, a);
      hide Units, Complete;
      UnitsJoin(g, a[n..], b);
      FirstJoin(g, a, b);
      CompleteRest(g, a);
      SameTail(a[..n], Units(g, a[n..] + b), Units(g, a[n..]), Units(g, b));
    }
  }

  lemma {:induction false} LastOfJoin(a: seq<seq<Token>>, b: seq<seq<Token>>, key: Token)
    ensures LastOf(a + b, key) == if LastOf(b, key).Some? then LastOf(b, key) else LastOf(a, key)
  {
    if a == [] {
      assert a + b == b;
    } else {
      LastOfJoin(a[1..], b, key);
      assert (a + b)[1..] == a[1..] + b;
    }
  }

  // ----- as it runs -----

  function Reversed<T>(s: seq<T>): seq<T> {
    if s == [] then [] else [s[|s| - 1]] + Reversed(s[..|s| - 1])
  }

  method ParseUnits(g: Grammar, argv: seq<Token>) returns (units: seq<seq<Token>>)
    ensures units == Units(g, argv)
  {
    units := [];
    var i := 0;
    while i < |argv|
      invariant 0 <= i <= |argv| && units + Units(g, argv[i..]) == Units(g, argv)
    {
      var token := argv[i];
      ghost var rest := argv[i..];
      assert rest[1..] == argv[i + 1..];
      ghost var n := UnitSize(g, rest);
      assert units + Units(g, rest) == (units + [rest[..n]]) + Units(g, rest[n..]);
      assert rest[..1] == [token];
      if IsKey(token) && '=' in token {
        units := units + [[token]];
        i := i + 1;
      } else if IsKey(token) {
        if g.isFlag(token[2..]) || i + 1 >= |argv| {
          units := units + [[token]];
          i := i + 1;
        } else {
          assert rest[2..] == argv[i + 2..] && rest[..2] == [token, argv[i + 1]];
          units := units + [[token, argv[i + 1]]];
          i := i + 2;
        }
      } else {
        units := units + [[token]];
        i := i + 1;
      }
    }
  }

  lemma {:induction false} ReversedAppend<T>(s: seq<T>, x: T)
    ensures Reversed(s + [x]) == [x] + Reversed(s)
  {
    var more := s + [x];
    assert more[..|more| - 1] == s && more[|more| - 1] == x;
  }

  method Dedupe(g: Grammar, argv: seq<Token>) returns (result: seq<Token>)
    ensures result == Deduped(g, argv)
  {
    var units := ParseUnits(g, argv);
    ParsedWellFormed(g, argv);
    var seen: set<Token> := {};
    var resultRev: seq<seq<Token>> := [];
    var i := |units|;
    while i > 0
      invariant 0 <= i <= |units| && Reversed(resultRev) == LastWins(units[i..])
      invariant forall key :: key in seen <==> Sets(units[i..], key)
    {
      i := i - 1;
      var unit := units[i];
      ghost var rest := units[i..];
      assert rest[1..] == units[i + 1..] && rest[0] == unit;
      assert WellFormed(g, unit, i == |units| - 1);
      forall key ensures Sets(rest, key) <==> KeyOf(unit) == Some(key) || Sets(rest[1..], key) {
        SetsLast(rest, key);
        SetsLast(rest[1..], key);
      }
      ReversedAppend(resultRev, unit);
      var key := BeforeEq(unit[0]);
      if IsKey(unit[0]) {
        if key !in seen {
          seen := seen + {key};
          resultRev := resultRev + [unit];
        }
      } else {
        resultRev := resultRev + [unit];
      }
    }
    assert units[0..] == units;
    result := Flatten(Reversed(resultRev));
  }
}
