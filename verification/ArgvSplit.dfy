/** Splitting the command line between common and instance options: the strict form of `zakuro/src/args.rs` and the
    lenient one of `zakuro-moq/src/args.rs`. */
module ArgvSplit {
  import opened Outcomes
  import opened Argv

  predicate CommonUnit(g: Grammar, unit: seq<Token>) {
    KeyOf(unit).Some? && g.isCommon(KeyOf(unit).value[2..])
  }

  /** The units of one side. */
  function Pick(g: Grammar, units: seq<seq<Token>>, common: bool): seq<seq<Token>> {
    if units == [] then []
    else (if CommonUnit(g, units[0]) == common then [units[0]] else []) + Pick(g, units[1..], common)
  }

  /** The value is not itself a key. */
  predicate PlainValue(unit: seq<Token>) {
    |unit| == 2 ==> !IsKey(unit[1])
  }

  predicate AllPlain(units: seq<seq<Token>>) {
    forall i :: 0 <= i < |units| ==> PlainValue(units[i])
  }

  /** What the two sides hold between them: each key's last setting on its own side, positionals with the instance. */
  ghost predicate Partitions(g: Grammar, units: seq<seq<Token>>, common: seq<seq<Token>>, instance: seq<seq<Token>>) {
    && (forall key :: |key| >= 2 ==> LastOf(common, key) == if g.isCommon(key[2..]) then LastOf(units, key) else None)
    && (forall key :: |key| >= 2 ==> LastOf(instance, key) == if g.isCommon(key[2..]) then None else LastOf(units, key))
    && Positionals(common) == [] && Positionals(instance) == Positionals(units)
  }

  lemma {:induction false} PickLast(g: Grammar, units: seq<seq<Token>>, common: bool, key: Token)
    requires |key| >= 2
    ensures LastOf(Pick(g, units, common), key) == if g.isCommon(key[2..]) == common then LastOf(units, key) else None
    ensures Positionals(Pick(g, units, common)) == if common then [] else Positionals(units)
  {
    if units != [] {
      PickLast(g, units[1..], common, key);
      var rest := Pick(g, units[1..], common);
      assert ([units[0]] + rest)[1..] == rest;
      assert [] + rest == rest;
    }
  }

  lemma PicksPartition(g: Grammar, units: seq<seq<Token>>)
    ensures Partitions(g, units, Pick(g, units, true), Pick(g, units, false))
  {
    hide Pick, LastOf, Positionals;
    forall key: Token, common: bool | |key| >= 2
      ensures LastOf(Pick(g, units, common), key) == if g.isCommon(key[2..]) == common then LastOf(units, key) else None
    {
      PickLast(g, units, common, key);
    }
    PickLast(g, units, true, "--");
    PickLast(g, units, false, "--");
  }

  lemma {:induction false} PickWellFormed(g: Grammar, units: seq<seq<Token>>, common: bool)
    requires AllWellFormed(g, units)
    ensures AllWellFormed(g, Pick(g, units, common))
    ensures units == [] ==> Pick(g, units, common) == []
  {
    if units != [] {
      var rest := units[1..];
      assert forall i :: 0 <= i < |rest| ==> rest[i] == units[i + 1];
      PickWellFormed(g, rest, common);
      var picked, all := Pick(g, rest, common), Pick(g, units, common);
      if CommonUnit(g, units[0]) == common {
        assert forall i :: 0 < i < |all| ==> all[i] == picked[i - 1];
      } else {
        assert all == picked;
      }
    }
  }

  // ----- the strict split -----

  function Split(g: Grammar, units: seq<seq<Token>>): (seq<Token>, seq<Token>) {
    (Flatten(Pick(g, units, true)), Flatten(Pick(g, units, false)))
  }

  /** Each side parses into its own units, and no lookup changes. For every argument vector. */
  lemma StrictSplits(g: Grammar, argv: seq<Token>)
    ensures var (common, instance) := Split(g, Units(g, argv));
            && Units(g, common) == Pick(g, Units(g, argv), true)
            && Units(g, instance) == Pick(g, Units(g, argv), false)
            && Partitions(g, Units(g, argv), Units(g, common), Units(g, instance))
  {
    var units := Units(g, argv);
    ParsedWellFormed(g, argv);
    PickWellFormed(g, units, true);
    PickWellFormed(g, units, false);
    FlattenParses(g, Pick(g, units, true));
    FlattenParses(g, Pick(g, units, false));
    PicksPartition(g, units);
  }

  lemma {:induction false} BeforeEqIs(t: Token)
    ensures BeforeEq(t) <= t && ('=' !in t ==> BeforeEq(t) == t)
    ensures IsKey(t) ==> |BeforeEq(t)| >= 2 && BeforeEq(t)[..2] == t[..2]
    ensures '=' in t ==> |BeforeEq(t)| < |t| && t[|BeforeEq(t)|] == '='
  {
    if t != [] && t[0] != '=' {
      BeforeEqIs(t[1..]);
      assert t == [t[0]] + t[1..];
      if |t| > 1 && t[1] != '=' {
        assert BeforeEq(t)[1] == t[1];
      }
    }
  }

  lemma {:induction false} FlattenAppend(units: seq<seq<Token>>, unit: seq<Token>)
    ensures Flatten(units + [unit]) == Flatten(units) + unit
  {
    if units == [] {
      assert Flatten([unit]) == unit + Flatten([]);
    } else {
      FlattenAppend(units[1..], unit);
      assert (units + [unit])[1..] == units[1..] + [unit];
      assert (units + [unit])[0] == units[0];
    }
  }

  lemma {:induction false} PickAppend(g: Grammar, units: seq<seq<Token>>, unit: seq<Token>, common: bool)
    ensures Pick(g, units + [unit], common)
         == if CommonUnit(g, unit) == common then Pick(g, units, common) + [unit] else Pick(g, units, common)
  {
    hide CommonUnit;
    var all := units + [unit];
    if units == [] {
      assert all[1..] == [] && Pick(g, all[1..], common) == [];
    } else {
      PickAppend(g, units[1..], unit, common);
      assert all[1..] == units[1..] + [unit] && all[0] == units[0];
    }
  }

  /** One unit more goes to its side. */
  lemma SplitAppend(g: Grammar, units: seq<seq<Token>>, unit: seq<Token>)
    ensures var (common, instance) := Split(g, units);
            Split(g, units + [unit]) == if CommonUnit(g, unit) then (common + unit, instance) else (common, instance + unit)
  {
    PickAppend(g, units, unit, true);
    PickAppend(g, units, unit, false);
    FlattenAppend(Pick(g, units, CommonUnit(g, unit)), unit);
  }

  lemma AllPlainAt(units: seq<seq<Token>>, i: nat)
    requires i < |units| && !PlainValue(units[i])
    ensures !AllPlain(units)
  {
  }

  /** Where a unit goes, in terms of its first token. */
  lemma CommonIs(g: Grammar, unit: seq<Token>)
    requires unit != []
    ensures !IsKey(unit[0]) ==> !CommonUnit(g, unit)
    ensures IsKey(unit[0]) ==> |BeforeEq(unit[0])| >= 2 && CommonUnit(g, unit) == g.isCommon(BeforeEq(unit[0])[2..])
    ensures IsKey(unit[0]) && '=' !in unit[0] ==> CommonUnit(g, unit) == g.isCommon(unit[0][2..])
  {
    BeforeEqIs(unit[0]);
  }

  /** How many tokens a unit takes, in terms of the first. */
  lemma SizeIs(g: Grammar, argv: seq<Token>)
    requires argv != []
    ensures var t := argv[0];
            UnitSize(g, argv) == if IsKey(t) && '=' !in t && !g.isFlag(t[2..]) && |argv| > 1 then 2 else 1
  {
  }

  lemma PlainAppend(units: seq<seq<Token>>, unit: seq<Token>)
    requires AllPlain(units) && PlainValue(unit)
    ensures AllPlain(units + [unit])
  {
  }

  lemma UnitsUnfold(g: Grammar, argv: seq<Token>)
    requires argv != []
    ensures var n := UnitSize(g, argv); Units(g, argv) == [argv[..n]] + Units(g, argv[n..])
  {
  }

  lemma RestAfter(argv: seq<Token>, i: nat, n: nat)
    requires i + n <= |argv|
    ensures argv[i..][..n] == argv[i..i + n] && argv[i..][n..] == argv[i + n..]
  {
  }

  lemma Regroup(done: seq<seq<Token>>, unit: seq<Token>, rest: seq<seq<Token>>)
    ensures done + ([unit] + rest) == (done + [unit]) + rest
    ensures (done + [unit] + rest)[|done|] == unit
  {
  }

  /** Fails exactly when some option is given another option for its value. */
  method SplitStrict(g: Grammar, argv: seq<Token>) returns (r: Option<(seq<Token>, seq<Token>)>)
    ensures r == if AllPlain(Units(g, argv)) then Some(Split(g, Units(g, argv))) else None
  {
    var common, instance: seq<Token> := [], [];
    ghost var done: seq<seq<Token>> := [];
    ghost var all := Units(g, argv);
    var i := 0;
    assert argv[0..] == argv && Units(g, []) == [] && Split(g, []) == ([], []) && AllPlain([]);
    hide Units, UnitSize, Split, BeforeEq, CommonUnit, KeyOf, AllPlain;
    while i < |argv|
      invariant 0 <= i <= |argv| && done + Units(g, argv[i..]) == all
      invariant AllPlain(done) && (common, instance) == Split(g, done)
    {
      UnitsUnfold(g, argv[i..]);
      var unit, isCommon := StrictUnit(g, argv, i);
      RestAfter(argv, i, |unit|);
      Regroup(done, unit, Units(g, argv[i + |unit|..]));
      if |unit| == 2 && IsKey(unit[1]) {
        AllPlainAt(all, |done|);
        return None;
      }
      PlainAppend(done, unit);
      SplitAppend(g, done, unit);
      done := done + [unit];
      if isCommon { common := common + unit; } else { instance := instance + unit; }
      i := i + |unit|;
    }
    assert argv[i..] == [] && done + [] == done;
    return Some((common, instance));
  }

  /** The token at `i` with its value, if it takes one, and the side it belongs to. */
  method StrictUnit(g: Grammar, argv: seq<Token>, i: nat) returns (unit: seq<Token>, isCommon: bool)
    requires i < |argv|
    ensures i + |unit| <= |argv| && unit == argv[i..i + UnitSize(g, argv[i..])] && isCommon == CommonUnit(g, unit)
  {
    var token := argv[i];
    assert argv[i..][0] == token;
    SizeIs(g, argv[i..]);
    hide UnitSize, CommonUnit, KeyOf, BeforeEq;
    unit := [token];
    if '=' in token && IsKey(token) {
      CommonIs(g, unit);
      isCommon := g.isCommon(BeforeEq(token)[2..]);
    } else if IsKey(token) {
      var key := token[2..];
      isCommon := g.isCommon(key);
      if !g.isFlag(key) && i + 1 < |argv| {
        unit := [token, argv[i + 1]];
      }
      CommonIs(g, unit);
    } else {
      CommonIs(g, unit);
      isCommon := false;
    }
  }

  // ----- the lenient split -----

  predicate LenientTakes(g: Grammar, argv: seq<Token>) {
    && |argv| > 1 && IsKey(argv[0]) && '=' !in argv[0]
    && !g.isFlag(argv[0][2..]) && argv[0] != "--help" && argv[0] != "--version" && !IsKey(argv[1])
  }

  /** As `Units`, but an option is never taken for a value. */
  function LenientUnits(g: Grammar, argv: seq<Token>): seq<seq<Token>> {
    if argv == [] then []
    else if LenientTakes(g, argv) then [argv[..2]] + LenientUnits(g, argv[2..])
    else [argv[..1]] + LenientUnits(g, argv[1..])
  }

  /** `--key=value` as two tokens. */
  function Expand(unit: seq<Token>): seq<Token> {
    if |unit| == 1 && '=' in unit[0] then
      BeforeEqIs(unit[0]);
      [BeforeEq(unit[0]), unit[0][|BeforeEq(unit[0])| + 1..]]
    else unit
  }

  function ExpandAll(units: seq<seq<Token>>): seq<seq<Token>> {
    if units == [] then [] else [Expand(units[0])] + ExpandAll(units[1..])
  }

  function ValueOf(unit: seq<Token>): Option<Token> {
    if |Expand(unit)| == 2 then Some(Expand(unit)[1]) else None
  }

  /** What the last unit for a key says: no such unit, a unit without a value, or one with a value. */
  function Setting(units: seq<seq<Token>>, key: Token): Option<Option<Token>> {
    if LastOf(units, key).Some? then Some(ValueOf(LastOf(units, key).value)) else None
  }

  function SplitLoosely(g: Grammar, units: seq<seq<Token>>): (seq<Token>, seq<Token>) {
    (Flatten(ExpandAll(Pick(g, units, true))), Flatten(Pick(g, units, false)))
  }

  predicate NoHelp(argv: seq<Token>) {
    "--help" !in argv && "--version" !in argv
  }

  /** The lenient split sees the same units exactly if no option is given another option for its value. */
  lemma {:induction false} LenientAgrees(g: Grammar, argv: seq<Token>)
    requires NoHelp(argv)
    ensures LenientUnits(g, argv) == Units(g, argv) <==> AllPlain(Units(g, argv))
    decreases |argv|
  {
    if argv != [] {
      var n, units := UnitSize(g, argv), Units(g, argv);
      assert argv[0] in argv;
      LenientAgrees(g, argv[n..]);
      var rest := Units(g, argv[n..]);
      assert units == [argv[..n]] + rest && units[1..] == rest;
      assert AllPlain(units) <==> PlainValue(units[0]) && AllPlain(rest) by {
        assert forall i :: 0 < i < |units| ==> units[i] == rest[i - 1];
        assert forall i :: 0 <= i < |rest| ==> rest[i] == units[i + 1];
      }
      if n == 2 && IsKey(argv[1]) {
        assert LenientUnits(g, argv)[0] == argv[..1];
      } else {
        assert LenientUnits(g, argv)[1..] == LenientUnits(g, argv[n..]);
      }
    }
  }

  lemma ExpandKeeps(unit: seq<Token>)
    ensures KeyOf(Expand(unit)) == KeyOf(unit) && Expand(Expand(unit)) == Expand(unit)
  {
    if |unit| == 1 && '=' in unit[0] {
      BeforeEqIs(unit[0]);
      NoEqBefore(unit[0]);
      BeforeEqIs(BeforeEq(unit[0]));
      if IsKey(BeforeEq(unit[0])) {
        assert unit[0][..2] == BeforeEq(unit[0])[..2];
      }
    }
  }

  lemma {:induction false} NoEqBefore(t: Token)
    ensures '=' !in BeforeEq(t)
  {
    if t != [] && t[0] != '=' {
      NoEqBefore(t[1..]);
    }
  }

  lemma {:induction false} ExpandedLast(units: seq<seq<Token>>, key: Token)
    ensures Setting(ExpandAll(units), key) == Setting(units, key)
    ensures Positionals(units) == [] ==> Positionals(ExpandAll(units)) == []
  {
    if units != [] {
      ExpandedLast(units[1..], key);
      ExpandKeeps(units[0]);
    }
  }

  /** No common flag is written with a value. */
  predicate PlainFlags(g: Grammar, units: seq<seq<Token>>) {
    forall unit :: unit in units && CommonUnit(g, unit) && '=' in unit[0] ==> !g.isFlag(KeyOf(unit).value[2..])
  }

  lemma {:induction false} ExpandedWellFormed(g: Grammar, units: seq<seq<Token>>)
    requires AllWellFormed(g, units)
    requires forall unit :: unit in units ==> KeyOf(unit).Some? && ('=' in unit[0] ==> !g.isFlag(KeyOf(unit).value[2..]))
    ensures AllWellFormed(g, ExpandAll(units)) && |ExpandAll(units)| == |units|
  {
    if units != [] {
      var rest, all := units[1..], ExpandAll(units);
      assert forall i :: 0 <= i < |rest| ==> rest[i] == units[i + 1];
      ExpandedWellFormed(g, rest);
      assert forall i :: 0 < i < |all| ==> all[i] == ExpandAll(rest)[i - 1];
      BeforeEqIs(units[0][0]);
      NoEqBefore(units[0][0]);
      assert WellFormed(g, units[0], |units| == 1);
    }
  }

  lemma {:induction false} PickedAre(g: Grammar, units: seq<seq<Token>>, common: bool)
    ensures forall unit :: unit in Pick(g, units, common) ==> unit in units && CommonUnit(g, unit) == common
  {
    if units != [] {
      PickedAre(g, units[1..], common);
    }
  }

  /** The instance's side parses into its own units whenever no option is given another option for its value. */
  lemma LooseInstance(g: Grammar, argv: seq<Token>)
    requires NoHelp(argv) && AllPlain(Units(g, argv))
    ensures Units(g, SplitLoosely(g, LenientUnits(g, argv)).1) == Pick(g, Units(g, argv), false)
  {
    LenientAgrees(g, argv);
    ParsedWellFormed(g, argv);
    PickWellFormed(g, Units(g, argv), false);
    hide Units, LenientUnits, Pick, ExpandAll, Flatten, AllPlain, AllWellFormed;
    FlattenParses(g, Pick(g, Units(g, argv), false));
  }

  /** When every option has a value that is no option, and no common flag has one, splitting changes no setting. */
  lemma LenientSplits(g: Grammar, argv: seq<Token>)
    requires NoHelp(argv) && AllPlain(Units(g, argv)) && PlainFlags(g, Units(g, argv))
    ensures var units := Units(g, argv);
            var (common, instance) := SplitLoosely(g, LenientUnits(g, argv));
            && (forall key :: |key| >= 2 ==> Setting(Units(g, common), key) == if g.isCommon(key[2..]) then Setting(units, key) else None)
            && (forall key :: |key| >= 2 ==> Setting(Units(g, instance), key) == if g.isCommon(key[2..]) then None else Setting(units, key))
            && Units(g, instance) == Pick(g, units, false)
  {
    var units := Units(g, argv);
    LenientAgrees(g, argv);
    ParsedWellFormed(g, argv);
    LooselyParses(g, units);
    forall key | |key| >= 2
      ensures Setting(ExpandAll(Pick(g, units, true)), key) == if g.isCommon(key[2..]) then Setting(units, key) else None
      ensures Setting(Pick(g, units, false), key) == if g.isCommon(key[2..]) then None else Setting(units, key)
    {
      hide Units, LenientUnits, Pick, ExpandAll, LastOf, AllWellFormed, AllPlain, PlainFlags, CommonUnit, SplitLoosely;
      ExpandedLast(Pick(g, units, true), key);
      PickLast(g, units, true, key);
      PickLast(g, units, false, key);
    }
    hide Units, LenientUnits, Pick, ExpandAll, Flatten, Setting, AllWellFormed, AllPlain, PlainFlags, CommonUnit;
  }

  /** Each side of the lenient split parses into its own units, the common ones written out. */
  lemma LooselyParses(g: Grammar, units: seq<seq<Token>>)
    requires AllWellFormed(g, units) && PlainFlags(g, units)
    ensures var (common, instance) := SplitLoosely(g, units);
            Units(g, common) == ExpandAll(Pick(g, units, true)) && Units(g, instance) == Pick(g, units, false)
  {
    PickWellFormed(g, units, true);
    PickWellFormed(g, units, false);
    PickedAre(g, units, true);
    ExpandedWellFormed(g, Pick(g, units, true));
    FlattenParses(g, ExpandAll(Pick(g, units, true)));
    FlattenParses(g, Pick(g, units, false));
  }

  lemma {:induction false} ExpandAppend(units: seq<seq<Token>>, unit: seq<Token>)
    ensures ExpandAll(units + [unit]) == ExpandAll(units) + [Expand(unit)]
  {
    if units == [] {
      assert ([unit])[1..] == [] && ExpandAll([]) == [];
    } else {
      ExpandAppend(units[1..], unit);
      assert (units + [unit])[1..] == units[1..] + [unit] && (units + [unit])[0] == units[0];
    }
  }

  lemma LooselyAppend(g: Grammar, units: seq<seq<Token>>, unit: seq<Token>)
    ensures var (common, instance) := SplitLoosely(g, units);
            SplitLoosely(g, units + [unit])
            == if CommonUnit(g, unit) then (common + Expand(unit), instance) else (common, instance + unit)
  {
    PickAppend(g, units, unit, true);
    PickAppend(g, units, unit, false);
    if CommonUnit(g, unit) {
      ExpandAppend(Pick(g, units, true), unit);
      FlattenAppend(ExpandAll(Pick(g, units, true)), Expand(unit));
    } else {
      FlattenAppend(Pick(g, units, false), unit);
    }
  }

  lemma LenientUnfold(g: Grammar, argv: seq<Token>)
    requires argv != []
    ensures var n := if LenientTakes(g, argv) then 2 else 1;
            LenientUnits(g, argv) == [argv[..n]] + LenientUnits(g, argv[n..])
  {
  }

  method SplitLenient(g: Grammar, argv: seq<Token>) returns (common: seq<Token>, instance: seq<Token>)
    ensures (common, instance) == SplitLoosely(g, LenientUnits(g, argv))
  {
    common, instance := [], [];
    ghost var done: seq<seq<Token>> := [];
    var i := 0;
    assert argv[0..] == argv && LenientUnits(g, []) == [] && SplitLoosely(g, []) == ([], []);
    hide LenientUnits, LenientTakes, SplitLoosely, BeforeEq, CommonUnit, KeyOf, Expand;
    while i < |argv|
      invariant 0 <= i <= |argv| && done + LenientUnits(g, argv[i..]) == LenientUnits(g, argv)
      invariant (common, instance) == SplitLoosely(g, done)
    {
      ghost var rest := argv[i..];
      LenientUnfold(g, rest);
      var unit, isCommon, written := LenientUnit(g, argv, i);
      RestAfter(argv, i, |unit|);
      Regroup(done, unit, LenientUnits(g, argv[i + |unit|..]));
      LooselyAppend(g, done, unit);
      done := done + [unit];
      if isCommon { common := common + written; } else { instance := instance + unit; }
      i := i + |unit|;
    }
    assert argv[i..] == [] && done + [] == done;
  }

  /** The token at `i` with its value, if it takes one, the side it belongs to, and what it is written as on the common
      side. */
  method LenientUnit(g: Grammar, argv: seq<Token>, i: nat)
    returns (unit: seq<Token>, isCommon: bool, written: seq<Token>)
    requires i < |argv|
    ensures i + |unit| <= |argv| && unit == argv[i..i + if LenientTakes(g, argv[i..]) then 2 else 1]
    ensures isCommon == CommonUnit(g, unit) && written == Expand(unit)
  {
    var token := argv[i];
    assert argv[i..][0] == token && (i + 1 < |argv| ==> argv[i..][1] == argv[i + 1]);
    BeforeEqIs(token);
    hide CommonUnit, KeyOf, BeforeEq;
    unit := [token];
    if !IsKey(token) {
      isCommon := false;
    } else if '=' in token {
      isCommon := g.isCommon(BeforeEq(token)[2..]);
    } else {
      var key := token[2..];
      var takesValue := !g.isFlag(key) && token != "--help" && token != "--version";
      isCommon := g.isCommon(key);
      if takesValue && i + 1 < |argv| && !IsKey(argv[i + 1]) {
        unit := [token, argv[i + 1]];
      }
    }
    CommonIs(g, unit);
    written := unit;
    if |unit| == 1 && '=' in token {
      var key := BeforeEq(token);
      written := [key, token[|key| + 1..]];
    }
  }
}
