/** Status events, and the aggregator that folds them into counts (`zakuro-core/src/stats.rs`). */
module Stats {
  import opened Outcomes

  datatype Verdict = Success | Failure(reason: string) | Unjudged

  /** What a client reports. `client` stands for the pair of instance and client number. */
  datatype StatsEvent =
    | Connected(client: nat)
    | Disconnected(client: nat)
    | Retrying(client: nat, retryCount: nat)
    | Stopped(client: nat)
    | ConnectionEnded(client: nat, verdict: Verdict, stalled: bool, connectTime: Option<real>, endedAt: int)

  datatype Snapshot = Snapshot(
    total: nat, connected: nat, retrying: nat, stopped: nat,
    success: nat, failure: nat, unjudged: nat, stalled: nat)

  datatype Totals = Totals(
    success: nat, failure: nat, unjudged: nat, stalled: nat,
    failureReasons: seq<(string, nat)>, connectTimes: seq<real>, warmupExcluded: nat)

  /** The bound of the channel to the aggregator. */
  const CAPACITY: nat := 256

  const NO_TOTALS := Totals(0, 0, 0, 0, [], [], 0)

  function Initial(total: nat): Snapshot {
    Snapshot(total, 0, 0, 0, 0, 0, 0, 0)
  }

  function Less(n: nat): nat {
    if n > 0 then n - 1 else 0
  }

  // ----- the live counts -----

  function Observe(s: Snapshot, e: StatsEvent): Snapshot {
    match e
    case Connected(_) => s.(connected := s.connected + 1, retrying := Less(s.retrying))
    case Disconnected(_) => s.(connected := Less(s.connected))
    case Retrying(_, _) => s.(retrying := s.retrying + 1)
    case Stopped(_) => s.(stopped := s.stopped + 1, retrying := Less(s.retrying))
    case ConnectionEnded(_, verdict, stalled, _, _) =>
      var t := match verdict
        case Success => s.(success := s.success + 1)
        case Failure(_) => s.(failure := s.failure + 1)
        case Unjudged => s.(unjudged := s.unjudged + 1);
      if stalled then t.(stalled := t.stalled + 1) else t
  }

  function ObserveAll(s: Snapshot, es: seq<StatsEvent>): Snapshot {
    if es == [] then s else Observe(ObserveAll(s, es[..|es| - 1]), es[|es| - 1])
  }

  // ----- the totals -----

  /** The histogram with one more entry for `reason`. */
  function AddReason(reasons: seq<(string, nat)>, reason: string): seq<(string, nat)> {
    if reasons == [] then [(reason, 1)]
    else if reasons[0].0 == reason then [(reason, reasons[0].1 + 1)] + reasons[1..]
    else [reasons[0]] + AddReason(reasons[1..], reason)
  }

  function Tally(t: Totals, e: StatsEvent): Totals {
    if !e.ConnectionEnded? then t
    else
      var t1 := match e.verdict
        case Success => t.(success := t.success + 1)
        case Failure(reason) => t.(failure := t.failure + 1, failureReasons := AddReason(t.failureReasons, reason))
        case Unjudged => t.(unjudged := t.unjudged + 1);
      var t2 := if e.stalled then t1.(stalled := t1.stalled + 1) else t1;
      if e.connectTime.Some? then t2.(connectTimes := t2.connectTimes + [e.connectTime.value]) else t2
  }

  /** Connections that ended before the warm-up passed are left out. */
  predicate IsCounted(e: StatsEvent, startedAt: int, warmup: nat) {
    warmup == 0 || !e.ConnectionEnded? || e.endedAt - startedAt >= warmup
  }

  /** What the aggregator keeps. */
  datatype Aggregate = Aggregate(snapshot: Snapshot, totals: Totals)

  function Fold(a: Aggregate, e: StatsEvent, startedAt: int, warmup: nat): Aggregate {
    if IsCounted(e, startedAt, warmup) then Aggregate(Observe(a.snapshot, e), Tally(a.totals, e))
    else a.(totals := a.totals.(warmupExcluded := a.totals.warmupExcluded + 1))
  }

  function FoldAll(a: Aggregate, es: seq<StatsEvent>, startedAt: int, warmup: nat): Aggregate {
    if es == [] then a else Fold(FoldAll(a, es[..|es| - 1], startedAt, warmup), es[|es| - 1], startedAt, warmup)
  }

  // ----- what the counts mean -----

  function Endings(es: seq<StatsEvent>): nat {
    if es == [] then 0 else Endings(es[..|es| - 1]) + (if es[|es| - 1].ConnectionEnded? then 1 else 0)
  }

  function SumCounts(reasons: seq<(string, nat)>): nat {
    if reasons == [] then 0 else reasons[0].1 + SumCounts(reasons[1..])
  }

  predicate HasKey(reasons: seq<(string, nat)>, reason: string) {
    exists i :: 0 <= i < |reasons| && reasons[i].0 == reason
  }

  /** Every reason is listed once. */
  predicate DistinctKeys(reasons: seq<(string, nat)>) {
    forall i, j :: 0 <= i < j < |reasons| ==> reasons[i].0 != reasons[j].0
  }

  lemma {:induction false} AddReasonCounts(reasons: seq<(string, nat)>, reason: string)
    ensures SumCounts(AddReason(reasons, reason)) == SumCounts(reasons) + 1
    ensures forall r :: HasKey(AddReason(reasons, reason), r) <==> HasKey(reasons, r) || r == reason
    ensures DistinctKeys(reasons) ==> DistinctKeys(AddReason(reasons, reason))
  {
    var more := AddReason(reasons, reason);
    if reasons != [] {
      var first := reasons[0];
      if first.0 == reason {
        forall r ensures HasKey(more, r) <==> HasKey(reasons, r) || r == reason {
          SameKeys(more, reasons, r);
        }
      } else {
        AddReasonCounts(reasons[1..], reason);
        forall r ensures HasKey(more, r) <==> HasKey(reasons, r) || r == reason {
          KeyOfTail(more, r);
          KeyOfTail(reasons, r);
        }
        if DistinctKeys(reasons) {
          assert DistinctKeys(reasons[1..]);
          assert !HasKey(reasons[1..], first.0) by {
            forall i | 0 <= i < |reasons| - 1 ensures reasons[1..][i].0 != first.0 {
              assert reasons[1..][i] == reasons[i + 1];
            }
          }
          assert !HasKey(more[1..], first.0);
          DistinctCons(first, more[1..]);
        }
      }
    } else {
      assert more[0].0 == reason;
    }
  }

  lemma {:induction false} AddReasonAfter(reasons: seq<(string, nat)>, i: nat, reason: string)
    requires i <= |reasons| && forall j :: 0 <= j < i ==> reasons[j].0 != reason
    requires i < |reasons| ==> reasons[i].0 == reason
    ensures AddReason(reasons, reason)
         == if i < |reasons| then reasons[i := (reason, reasons[i].1 + 1)] else reasons + [(reason, 1)]
  {
    if i > 0 {
      AddReasonAfter(reasons[1..], i - 1, reason);
    }
  }

  lemma SameKeys(a: seq<(string, nat)>, b: seq<(string, nat)>, r: string)
    requires |a| == |b| && forall i :: 0 <= i < |a| ==> a[i].0 == b[i].0
    ensures HasKey(a, r) <==> HasKey(b, r)
  {
  }

  lemma KeyOfTail(reasons: seq<(string, nat)>, r: string)
    requires reasons != []
    ensures HasKey(reasons, r) <==> reasons[0].0 == r || HasKey(reasons[1..], r)
  {
    if HasKey(reasons, r) {
      var i :| 0 <= i < |reasons| && reasons[i].0 == r;
      if i > 0 { assert reasons[1..][i - 1].0 == r; }
    }
    if HasKey(reasons[1..], r) {
      var i :| 0 <= i < |reasons[1..]| && reasons[1..][i].0 == r;
      assert reasons[i + 1].0 == r;
    }
  }

  lemma DistinctCons(first: (string, nat), rest: seq<(string, nat)>)
    requires DistinctKeys(rest) && !HasKey(rest, first.0)
    ensures DistinctKeys([first] + rest)
  {
    var all := [first] + rest;
    forall i, j | 0 <= i < j < |all| ensures all[i].0 != all[j].0 {
      assert all[j] == rest[j - 1];
      if i > 0 { assert all[i] == rest[i - 1]; }
    }
  }

  /** The counts after `n` endings among `total` clients. */
  ghost predicate Agree(a: Aggregate, total: nat, n: nat) {
    var s, t := a.snapshot, a.totals;
    && t.success + t.failure + t.unjudged + t.warmupExcluded == n
    && s.success == t.success && s.failure == t.failure && s.unjudged == t.unjudged && s.stalled == t.stalled
    && SumCounts(t.failureReasons) == t.failure && DistinctKeys(t.failureReasons)
    && s.total == total
  }

  lemma FoldAgrees(a: Aggregate, total: nat, n: nat, e: StatsEvent, startedAt: int, warmup: nat)
    requires Agree(a, total, n)
    ensures Agree(Fold(a, e, startedAt, warmup), total, if e.ConnectionEnded? then n + 1 else n)
  {
    hide AddReason, SumCounts, DistinctKeys;
    if e.ConnectionEnded? && e.verdict.Failure? {
      AddReasonCounts(a.totals.failureReasons, e.verdict.reason);
    }
  }

  /** Over any events: every ending is counted once, as a verdict or as excluded; the live counts and the totals agree;
      the failure reasons add up to the failures, each listed once. */
  lemma {:induction false} CountsAgree(total: nat, es: seq<StatsEvent>, startedAt: int, warmup: nat)
    ensures Agree(FoldAll(Aggregate(Initial(total), NO_TOTALS), es, startedAt, warmup), total, Endings(es))
  {
    if es != [] {
      hide Fold, Agree;
      var init := es[..|es| - 1];
      CountsAgree(total, init, startedAt, warmup);
      FoldAgrees(FoldAll(Aggregate(Initial(total), NO_TOTALS), init, startedAt, warmup), total, Endings(init),
        es[|es| - 1], startedAt, warmup);
    }
  }

  lemma {:induction false} ObserveAllAppend(s: Snapshot, es: seq<StatsEvent>, e: StatsEvent)
    ensures ObserveAll(s, es + [e]) == Observe(ObserveAll(s, es), e)
  {
    assert (es + [e])[..|es|] == es;
  }

  lemma FoldAllAppend(a: Aggregate, es: seq<StatsEvent>, e: StatsEvent, startedAt: int, warmup: nat)
    ensures FoldAll(a, es + [e], startedAt, warmup) == Fold(FoldAll(a, es, startedAt, warmup), e, startedAt, warmup)
  {
    assert (es + [e])[..|es|] == es;
  }

  /** Without a warm-up, or without endings, the live counts are those of all events, and nothing is excluded. */
  lemma {:induction false} FoldObserves(a: Aggregate, es: seq<StatsEvent>, startedAt: int, warmup: nat)
    requires warmup == 0 || forall e :: e in es ==> !e.ConnectionEnded?
    ensures FoldAll(a, es, startedAt, warmup).snapshot == ObserveAll(a.snapshot, es)
    ensures FoldAll(a, es, startedAt, warmup).totals.warmupExcluded == a.totals.warmupExcluded
  {
    if es != [] {
      FoldObserves(a, es[..|es| - 1], startedAt, warmup);
    }
  }

  // ----- retry counts -----

  /** The retry counts among the events. */
  function Counts(es: seq<StatsEvent>): seq<nat> {
    if es == [] then []
    else
      var init := Counts(es[..|es| - 1]);
      if es[|es| - 1].Retrying? then init + [es[|es| - 1].retryCount] else init
  }

  /** 1, 2, ..., k. */
  function UpTo(k: nat): seq<nat> {
    seq(k, i requires 0 <= i < k => i + 1)
  }

  function Flatten(pieces: seq<seq<nat>>): seq<nat> {
    if pieces == [] then [] else Flatten(pieces[..|pieces| - 1]) + pieces[|pieces| - 1]
  }

  /** The counts reported next, cut off from those before where the count was set back to zero. */
  function Cut(pieces: seq<seq<nat>>, counts: seq<nat>, restarts: bool): (r: seq<seq<nat>>)
    requires pieces != []
    ensures r != []
  {
    var last := |pieces| - 1;
    if restarts then pieces + [counts] else pieces[..last] + [pieces[last] + counts]
  }

  function Last(pieces: seq<seq<nat>>): seq<nat>
    requires pieces != []
  {
    pieces[|pieces| - 1]
  }

  /** Every piece counts 1, 2, ... to `max` at most. */
  ghost predicate Paced(pieces: seq<seq<nat>>, max: nat) {
    forall i :: 0 <= i < |pieces| ==> pieces[i] == UpTo(|pieces[i]|) && |pieces[i]| <= max
  }

  lemma FlattenNone()
    ensures Flatten([[]]) == []
  {
    var pieces: seq<seq<nat>> := [[]];
    assert pieces[..0] == [];
  }

  /** One more report, which is the next number, or the start of another piece. */
  lemma CutKeeps(pieces: seq<seq<nat>>, counts: seq<nat>, restarts: bool, max: nat)
    requires pieces != [] && Paced(pieces, max)
    requires counts == [] || (!restarts && counts == [|Last(pieces)| + 1] && |Last(pieces)| < max)
    ensures Paced(Cut(pieces, counts, restarts), max)
    ensures Flatten(Cut(pieces, counts, restarts)) == Flatten(pieces) + counts
    ensures |Last(Cut(pieces, counts, restarts))| == if restarts then 0 else |Last(pieces)| + |counts|
  {
    var init, last := pieces[..|pieces| - 1], Last(pieces);
    var next := Cut(pieces, counts, restarts);
    if restarts {
      assert next[..|pieces|] == pieces;
      assert next[|pieces|] == UpTo(0);
    } else {
      assert next[..|init|] == init;
      assert Flatten(init) + (last + counts) == (Flatten(init) + last) + counts;
      assert last + counts == UpTo(|last| + |counts|);
    }
  }

  lemma {:induction false} CountsConcat(a: seq<StatsEvent>, b: seq<StatsEvent>)
    requires |b| <= 1
    ensures Counts(a + b) == Counts(a) + Counts(b)
  {
    if b == [] {
      assert a + b == a;
    } else {
      assert b[..0] == [] && Counts(b[..0]) == [];
      assert (a + b)[..|a|] == a;
    }
  }

  // ----- the aggregator as it runs -----

  class Aggregator {
    const startedAt: int
    const warmup: nat
    var total: nat
    var connected: nat
    var retrying: nat
    var stopped: nat
    var success: nat
    var failure: nat
    var unjudged: nat
    var stalled: nat
    var totals: Totals

    ghost function Now(): Aggregate
      reads this
    {
      Aggregate(Snapshot(total, connected, retrying, stopped, success, failure, unjudged, stalled), totals)
    }

    constructor (total: nat, startedAt: int, warmup: nat)
      ensures Now() == Aggregate(Initial(total), NO_TOTALS)
      ensures this.startedAt == startedAt && this.warmup == warmup
    {
      this.total, this.startedAt, this.warmup := total, startedAt, warmup;
      connected, retrying, stopped := 0, 0, 0;
      success, failure, unjudged, stalled := 0, 0, 0, 0;
      totals := NO_TOTALS;
    }

    method ApplySnapshot(e: StatsEvent)
      modifies this
      ensures Now() == old(Now()).(snapshot := Observe(old(Now()).snapshot, e))
    {
      match e {
        case Connected(_) =>
          connected := connected + 1;
          if retrying > 0 { retrying := retrying - 1; }
        case Disconnected(_) =>
          if connected > 0 { connected := connected - 1; }
        case Retrying(_, _) =>
          retrying := retrying + 1;
        case Stopped(_) =>
          stopped := stopped + 1;
          if retrying > 0 { retrying := retrying - 1; }
        case ConnectionEnded(_, verdict, isStalled, _, _) =>
          match verdict {
            case Success => success := success + 1;
            case Failure(_) => failure := failure + 1;
            case Unjudged => unjudged := unjudged + 1;
          }
          if isStalled { stalled := stalled + 1; }
      }
    }

    method ApplyTotals(e: StatsEvent)
      modifies this`totals
      ensures totals == Tally(old(totals), e)
    {
      if !e.ConnectionEnded? { return; }
      match e.verdict {
        case Success => totals := totals.(success := totals.success + 1);
        case Failure(reason) =>
          var reasons := CountReason(totals.failureReasons, reason);
          totals := totals.(failure := totals.failure + 1, failureReasons := reasons);
        case Unjudged => totals := totals.(unjudged := totals.unjudged + 1);
      }
      if e.stalled { totals := totals.(stalled := totals.stalled + 1); }
      if e.connectTime.Some? {
        totals := totals.(connectTimes := totals.connectTimes + [e.connectTime.value]);
      }
    }

    /** Finds the reason's entry, or adds one. */
    static method CountReason(reasons: seq<(string, nat)>, reason: string) returns (r: seq<(string, nat)>)
      ensures r == AddReason(reasons, reason)
    {
      var i := 0;
      while i < |reasons| && reasons[i].0 != reason
        invariant i <= |reasons|
        invariant forall j :: 0 <= j < i ==> reasons[j].0 != reason
      {
        i := i + 1;
      }
      AddReasonAfter(reasons, i, reason);
      if i < |reasons| {
        return reasons[i := (reason, reasons[i].1 + 1)];
      }
      return reasons + [(reason, 1)];
    }

    /** The aggregator's loop over the events it receives. */
    method Run(events: seq<StatsEvent>)
      modifies this
      ensures Now() == FoldAll(old(Now()), events, startedAt, warmup)
    {
      for i := 0 to |events|
        invariant Now() == FoldAll(old(Now()), events[..i], startedAt, warmup)
      {
        assert events[..i + 1] == events[..i] + [events[i]];
        FoldAllAppend(old(Now()), events[..i], events[i], startedAt, warmup);
        if IsCounted(events[i], startedAt, warmup) {
          ApplySnapshot(events[i]);
          ApplyTotals(events[i]);
        } else {
          totals := totals.(warmupExcluded := totals.warmupExcluded + 1);
        }
      }
      assert events[..|events|] == events;
    }
  }
}
