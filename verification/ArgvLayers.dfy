/** The layers of the MOQ configuration (`zakuro-moq/src/args.rs`): the members at the top level of the file, those of
    `instances[i]`, and the command line, each overriding the ones before. */
module ArgvLayers {
  import opened Outcomes
  import opened Argv
  import opened ArgvSplit

  /** A JSON value: a string as written and as read, a boolean, or the text of any other value. */
  datatype JsonValue = Text(raw: string, s: string) | Boolean(b: bool) | Raw(s: string)

  type Member = (string, JsonValue)

  /** An opening brace. */
  const BRACE: char := 123 as char

  predicate HasPlaceholder(s: string) {
    exists i :: 0 <= i < |s| - 1 && s[i] == '$' && s[i + 1] == BRACE
  }

  function BoolText(b: bool): string {
    if b then "true" else "false"
  }

  /** What a member adds; a flag that is false adds nothing. */
  function PushKv(g: Grammar, key: string, value: JsonValue): Option<seq<Token>> {
    match value
    case Text(raw, s) => if HasPlaceholder(raw) then None else Some(["--" + key, s])
    case Boolean(b) =>
      if !g.isFlag(key) then Some(["--" + key, BoolText(b)]) else if b then Some(["--" + key]) else Some([])
    case Raw(s) => Some(["--" + key, s])
  }

  function PushAll(g: Grammar, argv: seq<Token>, members: seq<Member>): Option<seq<Token>> {
    if members == [] then Some(argv)
    else
      var before :- PushAll(g, argv, members[..|members| - 1]);
      var more :- PushKv(g, members[|members| - 1].0, members[|members| - 1].1);
      Some(before + more)
  }

  /** A member whose key may stand in an instance. */
  predicate InstanceKey(g: Grammar, key: string) {
    !g.isCommon(key) && key != "config" && key != "instances"
  }

  predicate InstanceKeys(g: Grammar, members: seq<Member>) {
    forall i :: 0 <= i < |members| ==> InstanceKey(g, members[i].0)
  }

  /** The argument vectors of all instances, each the template's with its own members behind; None is an error. */
  ghost predicate Expands(g: Grammar, instances: seq<seq<Member>>, template: seq<Token>, r: Option<seq<seq<Token>>>) {
    if r.Some? then
      && 1 <= |instances| <= 64 && |r.value| == |instances|
      && forall i :: 0 <= i < |instances| ==>
           InstanceKeys(g, instances[i]) && PushAll(g, template, instances[i]) == Some(r.value[i])
    else
      || instances == [] || |instances| > 64
      || exists i :: 0 <= i < |instances| && !(InstanceKeys(g, instances[i]) && PushAll(g, template, instances[i]).Some?)
  }

  method PushMembers(g: Grammar, template: seq<Token>, members: seq<Member>) returns (r: Option<seq<Token>>)
    ensures r == if InstanceKeys(g, members) then PushAll(g, template, members) else None
  {
    var argv := template;
    for i := 0 to |members|
      invariant PushAll(g, template, members[..i]) == Some(argv)
      invariant InstanceKeys(g, members[..i])
    {
      var (key, value) := members[i];
      assert members[..i + 1][..i] == members[..i];
      if g.isCommon(key) || key == "config" || key == "instances" {
        assert !InstanceKey(g, members[i].0);
        return None;
      }
      var more := PushKv(g, key, value);
      if more.None? {
        PushStops(g, template, members, i + 1);
        return None;
      }
      argv := argv + more.value;
    }
    assert members[..|members|] == members;
    return Some(argv);
  }

  lemma {:induction false} PushStops(g: Grammar, argv: seq<Token>, members: seq<Member>, n: nat)
    requires n <= |members| && PushAll(g, argv, members[..n]).None?
    ensures PushAll(g, argv, members).None?
  {
    if n == |members| {
      assert members[..n] == members;
    } else {
      assert members[..|members| - 1][..n] == members[..n];
      PushStops(g, argv, members[..|members| - 1], n);
    }
  }

  method ExpandInstances(g: Grammar, instances: seq<seq<Member>>, template: seq<Token>) returns (r: Option<seq<seq<Token>>>)
    ensures Expands(g, instances, template, r)
  {
    if instances == [] || |instances| > 64 { return None; }
    var result: seq<seq<Token>> := [];
    for i := 0 to |instances|
      invariant |result| == i
      invariant forall j :: 0 <= j < i ==>
                  InstanceKeys(g, instances[j]) && PushAll(g, template, instances[j]) == Some(result[j])
    {
      var argv := PushMembers(g, template, instances[i]);
      if argv.None? { return None; }
      result := result + [argv.value];
    }
    return Some(result);
  }

  // ----- members as units -----

  /** Flags have boolean values, and no key holds an `=`. */
  predicate WellTyped(g: Grammar, members: seq<Member>) {
    forall i :: 0 <= i < |members| ==>
      '=' !in members[i].0 && (g.isFlag(members[i].0) ==> members[i].1.Boolean?)
  }

  function MemberUnits(g: Grammar, members: seq<Member>): seq<seq<Token>> {
    if members == [] then []
    else
      var init, last := MemberUnits(g, members[..|members| - 1]), members[|members| - 1];
      var more := PushKv(g, last.0, last.1);
      if more.None? || more.value == [] then init else init + [more.value]
  }

  lemma UnitOfMember(g: Grammar, key: string, value: JsonValue)
    requires '=' !in key && (g.isFlag(key) ==> value.Boolean?)
    ensures var more := PushKv(g, key, value);
            more.Some? && more.value != [] ==>
              Units(g, more.value) == [more.value] && Complete(g, more.value) && KeyOf(more.value) == Some("--" + key)
  {
    var token := "--" + key;
    assert token[2..] == key && IsKey(token) && '=' !in token;
    BeforeEqIs(token);
    var more := PushKv(g, key, value);
    if more.Some? && more.value != [] {
      var argv := more.value;
      assert argv[..UnitSize(g, argv)] == argv && argv[UnitSize(g, argv)..] == [];
    }
  }

  lemma {:induction false} PushedUnits(g: Grammar, argv: seq<Token>, members: seq<Member>)
    requires Complete(g, argv) && WellTyped(g, members) && PushAll(g, argv, members).Some?
    ensures var pushed := PushAll(g, argv, members).value;
            Units(g, pushed) == Units(g, argv) + MemberUnits(g, members) && Complete(g, pushed)
  {
    hide Units, Complete, PushKv;
    if members == [] {
      assert Units(g, argv) + [] == Units(g, argv);
    } else {
      var init := members[..|members| - 1];
      var (key, value) := members[|members| - 1];
      assert WellTyped(g, init);
      PushedUnits(g, argv, init);
      var before, more := PushAll(g, argv, init).value, PushKv(g, key, value).value;
      UnitOfMember(g, key, value);
      if more == [] {
        assert before + more == before;
      } else {
        UnitsJoin(g, before, more);
        CompleteJoin(g, before, more);
        assert Units(g, argv) + (MemberUnits(g, init) + [more]) == Units(g, argv) + MemberUnits(g, init) + [more];
      }
    }
  }

  lemma CompleteJoin(g: Grammar, a: seq<Token>, b: seq<Token>)
    requires Complete(g, a) && Complete(g, b)
    ensures Complete(g, a + b)
  {
    UnitsJoin(g, a, b);
    ParsedWellFormed(g, b);
  }

  /** The value the members give a key: that of the last one with it. */
  function MemberValue(g: Grammar, members: seq<Member>, key: string): Option<Token> {
    if members == [] then None
    else
      var (k, value) := members[|members| - 1];
      if k == key then
        Some(match value { case Text(_, s) => s case Boolean(b) => (if b then "true" else "false") case Raw(s) => s })
      else MemberValue(g, members[..|members| - 1], key)
  }

  /** A setting with a value. */
  function Told(value: Option<Token>): Option<Option<Token>> {
    if value.Some? then Some(value) else None
  }

  predicate Raises(members: seq<Member>, flag: string) {
    exists i :: 0 <= i < |members| && members[i] == (flag, Boolean(true))
  }

  lemma {:induction false} MemberSettings(g: Grammar, argv: seq<Token>, members: seq<Member>, key: string)
    requires WellTyped(g, members) && PushAll(g, argv, members).Some?
    ensures var units := MemberUnits(g, members);
            && (g.isFlag(key) ==> (Sets(units, "--" + key) <==> Raises(members, key)))
            && (!g.isFlag(key) ==> Setting(units, "--" + key) == Told(MemberValue(g, members, key)))
  {
    if members == [] {
    } else {
      var init := members[..|members| - 1];
      var (k, value) := members[|members| - 1];
      assert WellTyped(g, init);
      MemberSettings(g, argv, init, key);
      UnitOfMember(g, k, value);
      var before, more := MemberUnits(g, init), PushKv(g, k, value).value;
      assert Raises(members, key) <==> Raises(init, key) || members[|members| - 1] == (key, Boolean(true)) by {
        assert forall i :: 0 <= i < |init| ==> members[i] == init[i];
      }
      KeysDiffer(k, key);
      hide PushKv, Raises, WellTyped;
      if more != [] {
        LastOfJoin(before, [more], "--" + key);
        SetsLast(before, "--" + key);
        SetsLast(before + [more], "--" + key);
      }
    }
  }

  lemma KeysDiffer(a: string, b: string)
    ensures "--" + a == "--" + b <==> a == b
  {
    assert ("--" + a)[2..] == a && ("--" + b)[2..] == b;
  }

  function Over(later: Option<Option<Token>>, earlier: Option<Option<Token>>): Option<Option<Token>> {
    if later.Some? then later else earlier
  }

  lemma SettingJoin(a: seq<seq<Token>>, b: seq<seq<Token>>, key: Token)
    ensures Setting(a + b, key) == Over(Setting(b, key), Setting(a, key))
    ensures Sets(a + b, key) <==> Sets(a, key) || Sets(b, key)
  {
    LastOfJoin(a, b, key);
    SetsLast(a, key);
    SetsLast(b, key);
    SetsLast(a + b, key);
  }

  /** What an instance ends up with: after the members at the top, those of the instance and the command line are
      merged, each key is set once. A valued option has the value of the command line, else of the instance, else of
      the top level; a flag is set if any of them sets it. */
  lemma EffectiveSetting(g: Grammar, top: seq<Member>, inst: seq<Member>, cli: seq<Token>, key: string)
    requires WellTyped(g, top) && WellTyped(g, inst) && !g.isCommon(key)
    requires NoHelp(cli) && AllPlain(Units(g, cli))
    requires PushAll(g, [], top).Some? && PushAll(g, PushAll(g, [], top).value, inst).Some?
    ensures var argv := PushAll(g, PushAll(g, [], top).value, inst).value;
            var merged := Units(g, Deduped(g, argv + SplitLoosely(g, LenientUnits(g, cli)).1));
            && OncePerKey(merged)
            && (!g.isFlag(key) ==>
                  Setting(merged, "--" + key)
                  == Over(Setting(Units(g, cli), "--" + key),
                          Over(Told(MemberValue(g, inst, key)), Told(MemberValue(g, top, key)))))
            && (g.isFlag(key) ==>
                  (Sets(merged, "--" + key) <==>
                     Sets(Units(g, cli), "--" + key) || Raises(inst, key) || Raises(top, key)))
  {
    var template := PushAll(g, [], top).value;
    var argv := PushAll(g, template, inst).value;
    var side := SplitLoosely(g, LenientUnits(g, cli)).1;
    assert Complete(g, []) && Units(g, []) == [];
    MembersOver(g, [], top, key);
    MembersOver(g, template, inst, key);
    MergedOver(g, argv, side, "--" + key);
    CliSide(g, cli, key);
    assert LastOf([], "--" + key) == None;
    assert !Sets([], "--" + key);
    hide Units, LenientUnits, PushAll, SplitLoosely, Complete, AllPlain, WellTyped, Raises, Deduped, OncePerKey,
         Sets, MemberValue, NoHelp, LastOf;
  }

  /** Members override what stands before them. */
  lemma MembersOver(g: Grammar, argv: seq<Token>, members: seq<Member>, key: string)
    requires Complete(g, argv) && WellTyped(g, members) && PushAll(g, argv, members).Some?
    ensures var pushed := PushAll(g, argv, members).value;
            && Complete(g, pushed)
            && (!g.isFlag(key) ==>
                  Setting(Units(g, pushed), "--" + key)
                  == Over(Told(MemberValue(g, members, key)), Setting(Units(g, argv), "--" + key)))
            && (g.isFlag(key) ==>
                  (Sets(Units(g, pushed), "--" + key) <==> Raises(members, key) || Sets(Units(g, argv), "--" + key)))
  {
    PushedUnits(g, argv, members);
    MemberSettings(g, argv, members, key);
    SettingJoin(Units(g, argv), MemberUnits(g, members), "--" + key);
  }

  /** So does what is joined behind and merged. */
  lemma MergedOver(g: Grammar, argv: seq<Token>, side: seq<Token>, name: Token)
    requires Complete(g, argv)
    ensures var merged := Units(g, Deduped(g, argv + side));
            && OncePerKey(merged)
            && Setting(merged, name) == Over(Setting(Units(g, side), name), Setting(Units(g, argv), name))
            && (Sets(merged, name) <==> Sets(Units(g, argv), name) || Sets(Units(g, side), name))
  {
    UnitsJoin(g, argv, side);
    DedupedUnits(g, argv + side);
    hide Units, Deduped, LastWins, OncePerKey, Complete;
    SettingJoin(Units(g, argv), Units(g, side), name);
    SameLookups(Units(g, argv + side), Units(g, Deduped(g, argv + side)), name);
  }

  lemma SameLookups(a: seq<seq<Token>>, b: seq<seq<Token>>, key: Token)
    requires LastOf(b, key) == LastOf(a, key)
    ensures Setting(b, key) == Setting(a, key) && (Sets(b, key) <==> Sets(a, key))
  {
    SetsLast(a, key);
    SetsLast(b, key);
  }

  /** The instance's side of the command line has the instance's keys. */
  lemma CliSide(g: Grammar, cli: seq<Token>, key: string)
    requires NoHelp(cli) && AllPlain(Units(g, cli)) && !g.isCommon(key)
    ensures var side := Units(g, SplitLoosely(g, LenientUnits(g, cli)).1);
            && Setting(side, "--" + key) == Setting(Units(g, cli), "--" + key)
            && (Sets(side, "--" + key) <==> Sets(Units(g, cli), "--" + key))
  {
    LooseInstance(g, cli);
    var name := "--" + key;
    assert name[2..] == key;
    hide Units, LenientUnits, SplitLoosely, AllPlain, Pick, Sets;
    PickLast(g, Units(g, cli), false, name);
    SameLookups(Units(g, cli), Pick(g, Units(g, cli), false), name);
  }
}
