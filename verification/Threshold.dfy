/** The summary of a run and the verdict on it (`zakuro-core/src/stats.rs`, `zakuro/src/threshold.rs`). Ratios and times
    are exact numbers. */
module Threshold {
  import opened Outcomes
  import opened Stats
  import opened Arithmetic
  import Sorting

  datatype Summary = Summary(
    success: nat, failure: nat, unjudged: nat, stalled: nat, warmupExcluded: nat,
    failureReasons: seq<(string, nat)>, p50: Option<real>, p95: Option<real>, p99: Option<real>)

  function CeilDiv(a: nat, b: nat): nat
    requires b > 0
  {
    (a + b - 1) / b
  }

  /** The nearest rank, counted from 1, for the ratio `num / den`. */
  function RankOf(n: nat, num: nat, den: nat): nat
    requires den > 0
  {
    if CeilDiv(num * n, den) > 1 then CeilDiv(num * n, den) else 1
  }

  function Percentile(sorted: seq<real>, num: nat, den: nat): Option<real>
    requires den > 0
  {
    if sorted == [] then None
    else
      var rank := RankOf(|sorted|, num, den);
      Some(sorted[if rank - 1 < |sorted| - 1 then rank - 1 else |sorted| - 1])
  }

  // ----- the orders sorted by -----

  function AtMost(): (real, real) -> bool {
    (a, b) => a <= b
  }

  /** Strings compare character by character; a prefix comes first. */
  predicate StringLe(a: string, b: string) {
    if a == [] then true
    else if b == [] then false
    else a[0] < b[0] || (a[0] == b[0] && StringLe(a[1..], b[1..]))
  }

  /** More frequent reasons first, equally frequent ones by name. */
  predicate TableLe(a: (string, nat), b: (string, nat)) {
    a.1 > b.1 || (a.1 == b.1 && StringLe(a.0, b.0))
  }

  lemma {:induction false} StringLeTotal(a: string, b: string)
    ensures StringLe(a, b) || StringLe(b, a)
    ensures StringLe(a, b) && StringLe(b, a) ==> a == b
  {
    if a != [] && b != [] {
      StringLeTotal(a[1..], b[1..]);
      assert a == [a[0]] + a[1..] && b == [b[0]] + b[1..];
    }
  }

  lemma {:induction false} StringLeTransitive(a: string, b: string, c: string)
    requires StringLe(a, b) && StringLe(b, c)
    ensures StringLe(a, c)
  {
    if a != [] && a[0] == b[0] && b[0] == c[0] {
      StringLeTransitive(a[1..], b[1..], c[1..]);
    }
  }

  lemma TableLeTotal()
    ensures Sorting.Total(TableLe)
  {
    forall a: (string, nat), b: (string, nat) ensures TableLe(a, b) || TableLe(b, a) {
      StringLeTotal(a.0, b.0);
    }
    forall a: (string, nat), b: (string, nat), c: (string, nat) | TableLe(a, b) && TableLe(b, c) ensures TableLe(a, c) {
      if a.1 == b.1 == c.1 {
        StringLeTransitive(a.0, b.0, c.0);
      }
    }
  }

  function Summarize(t: Totals): Summary {
    var times := Sorting.Sort(t.connectTimes, AtMost());
    Summary(t.success, t.failure, t.unjudged, t.stalled, t.warmupExcluded, Sorting.Sort(t.failureReasons, TableLe),
            Percentile(times, 50, 100), Percentile(times, 95, 100), Percentile(times, 99, 100))
  }

  // ----- the failure table -----

  /** Strictly after one another: more frequent first, then by name. */
  predicate TableLess(a: (string, nat), b: (string, nat)) {
    TableLe(a, b) && a.0 != b.0
  }

  /** The table lists the histogram, whole, in strict order. */
  lemma FailureTableStrict(t: Totals)
    requires DistinctKeys(t.failureReasons)
    ensures var table := Summarize(t).failureReasons;
            && multiset(table) == multiset(t.failureReasons)
            && (forall i, j :: 0 <= i < j < |table| ==> TableLess(table[i], table[j]))
  {
    TableLeTotal();
    Sorting.SortSorts(t.failureReasons, TableLe);
    PermutedKeys(t.failureReasons, Sorting.Sort(t.failureReasons, TableLe));
  }

  lemma PermutedKeys(a: seq<(string, nat)>, b: seq<(string, nat)>)
    requires DistinctKeys(a) && multiset(a) == multiset(b)
    ensures DistinctKeys(b)
  {
    forall i, j | 0 <= i < j < |b| ensures b[i].0 != b[j].0 {
      assert b[i] in multiset(a) && b[j] in multiset(a);
      if b[i] == b[j] {
        assert b == b[..i] + [b[i]] + b[i + 1..j] + [b[j]] + b[j + 1..];
        assert multiset(b)[b[i]] >= 2;
        OnceOnly(a, b[i]);
      }
    }
  }

  lemma {:induction false} OnceOnly(a: seq<(string, nat)>, x: (string, nat))
    requires DistinctKeys(a)
    ensures multiset(a)[x] <= 1
  {
    if a != [] {
      var init, last := a[..|a| - 1], a[|a| - 1];
      OnceOnly(init, x);
      assert a == init + [last];
      if last == x {
        assert x !in init;
      }
    }
  }

  // ----- percentiles -----

  lemma RankMonotone(n: nat, num: nat, more: nat, den: nat)
    requires den > 0 && num <= more
    ensures RankOf(n, num, den) <= RankOf(n, more, den)
  {
    MulLe(n, num, more);
    DivMonotone(num * n + den - 1, more * n + den - 1, den);
  }

  lemma PercentilesOrdered(t: Totals)
    ensures var s := Summarize(t);
            if t.connectTimes == [] then s.p50.None? && s.p95.None? && s.p99.None?
            else s.p50.Some? && s.p95.Some? && s.p99.Some? && s.p50.value <= s.p95.value <= s.p99.value
  {
    Sorting.SortSorts(t.connectTimes, AtMost());
    var n := |t.connectTimes|;
    RankMonotone(n, 50, 95, 100);
    RankMonotone(n, 95, 99, 100);
  }

  /** How many of the times are within the limit. */
  function Within(times: seq<real>, limit: real): nat {
    if times == [] then 0 else (if times[0] <= limit then 1 else 0) + Within(times[1..], limit)
  }

  lemma {:induction false} WithinInsert(x: real, s: seq<real>, limit: real)
    ensures Within(Sorting.Insert(x, s, AtMost()), limit) == Within(s, limit) + if x <= limit then 1 else 0
  {
    if s != [] && !(x <= s[0]) {
      WithinInsert(x, s[1..], limit);
    }
  }

  lemma {:induction false} WithinSort(s: seq<real>, limit: real)
    ensures Within(Sorting.Sort(s, AtMost()), limit) == Within(s, limit)
  {
    if s != [] {
      WithinSort(s[1..], limit);
      WithinInsert(s[0], Sorting.Sort(s[1..], AtMost()), limit);
    }
  }

  /** Among sorted times, at least `r` are within the limit exactly if the one of rank `r` is. */
  lemma {:induction false} WithinRank(s: seq<real>, limit: real, r: nat)
    requires Sorting.Ordered(s, AtMost()) && 1 <= r <= |s|
    ensures Within(s, limit) <= |s|
    ensures s[r - 1] <= limit <==> Within(s, limit) >= r
  {
    if |s| > 1 {
      if r > 1 {
        WithinRank(s[1..], limit, r - 1);
      } else {
        WithinRank(s[1..], limit, 1);
      }
    }
  }

  lemma RankInRange(n: nat, num: nat, den: nat)
    requires n > 0 && den > 0 && 0 < num <= den
    ensures 1 <= CeilDiv(num * n, den) <= n
    ensures RankOf(n, num, den) == CeilDiv(num * n, den)
  {
    MulLe(n, num, den);
    MulLe(n, 1, num);
    QuotientIs(den * n + (den - 1), den, n, den - 1);
    DivMonotone(num * n + den - 1, den * n + den - 1, den);
    DivMonotone(den, num * n + den - 1, den);
  }

  /** The percentile for the ratio `num / den` is within a limit exactly if that part of the times, rounded up, is. */
  lemma PercentileGate(times: seq<real>, num: nat, den: nat, limit: real)
    requires times != [] && den > 0 && 0 < num <= den
    ensures var p := Percentile(Sorting.Sort(times, AtMost()), num, den);
            p.Some? && (p.value <= limit <==> Within(times, limit) >= CeilDiv(num * |times|, den))
  {
    var sorted := Sorting.Sort(times, AtMost());
    Sorting.SortSorts(times, AtMost());
    RankInRange(|times|, num, den);
    WithinRank(sorted, limit, RankOf(|times|, num, den));
    WithinSort(times, limit);
  }

  // ----- the verdict -----

  datatype Thresholds = Thresholds(successRate: Option<real>, connectTimeP95: Option<real>, stalled: Option<nat>)

  datatype Violation =
    | SuccessRate(actual: Option<real>, limit: real)
    | ConnectTimeP95(actual: Option<real>, limit: real)
    | Stalled(count: nat, most: nat)

  function SuccessRateOf(s: Summary): Option<real> {
    if s.success + s.failure == 0 then None else Some(s.success as real / (s.success + s.failure) as real)
  }

  function RateViolation(t: Thresholds, s: Summary): seq<Violation> {
    if t.successRate.Some? && (SuccessRateOf(s).None? || SuccessRateOf(s).value < t.successRate.value) then
      [SuccessRate(SuccessRateOf(s), t.successRate.value)]
    else []
  }

  function TimeViolation(t: Thresholds, s: Summary): seq<Violation> {
    if t.connectTimeP95.Some? && (s.p95.None? || s.p95.value > t.connectTimeP95.value) then
      [ConnectTimeP95(s.p95, t.connectTimeP95.value)]
    else []
  }

  function StallViolation(t: Thresholds, s: Summary): seq<Violation> {
    if t.stalled.Some? && s.stalled > t.stalled.value then [Stalled(s.stalled, t.stalled.value)] else []
  }

  function Violations(t: Thresholds, s: Summary): seq<Violation> {
    RateViolation(t, s) + TimeViolation(t, s) + StallViolation(t, s)
  }

  method Evaluate(t: Thresholds, s: Summary) returns (violations: seq<Violation>)
    ensures violations == Violations(t, s)
  {
    violations := [];
    if t.successRate.Some? {
      var actual := SuccessRateOf(s);
      if actual.None? || actual.value < t.successRate.value {
        violations := violations + [SuccessRate(actual, t.successRate.value)];
      }
    }
    if t.connectTimeP95.Some? {
      if s.p95.None? || s.p95.value > t.connectTimeP95.value {
        violations := violations + [ConnectTimeP95(s.p95, t.connectTimeP95.value)];
      }
    }
    if t.stalled.Some? && s.stalled > t.stalled.value {
      violations := violations + [Stalled(s.stalled, t.stalled.value)];
    }
  }

  // ----- what passing says about a whole run -----

  /** An ending before the warm-up has passed. */
  predicate Early(e: StatsEvent, startedAt: int, warmup: nat) {
    e.ConnectionEnded? && warmup > 0 && e.endedAt < startedAt + warmup
  }

  /** The endings after the warm-up, in order. */
  function Counted(es: seq<StatsEvent>, startedAt: int, warmup: nat): seq<StatsEvent> {
    if es == [] then []
    else
      var init, e := Counted(es[..|es| - 1], startedAt, warmup), es[|es| - 1];
      if e.ConnectionEnded? && (warmup == 0 || e.endedAt >= startedAt + warmup) then init + [e] else init
  }

  function HowMany(es: seq<StatsEvent>, p: StatsEvent -> bool): nat {
    if es == [] then 0 else HowMany(es[..|es| - 1], p) + (if p(es[|es| - 1]) then 1 else 0)
  }

  predicate Succeeded(e: StatsEvent) {
    e.ConnectionEnded? && e.verdict.Success?
  }

  predicate Failed(e: StatsEvent) {
    e.ConnectionEnded? && e.verdict.Failure?
  }

  predicate Undecided(e: StatsEvent) {
    e.ConnectionEnded? && e.verdict.Unjudged?
  }

  predicate WasStalled(e: StatsEvent) {
    e.ConnectionEnded? && e.stalled
  }

  function TimesOf(es: seq<StatsEvent>): seq<real> {
    if es == [] then []
    else
      var init, e := TimesOf(es[..|es| - 1]), es[|es| - 1];
      if e.ConnectionEnded? && e.connectTime.Some? then init + [e.connectTime.value] else init
  }

  /** The endings that failed for this reason. */
  function FailedFor(es: seq<StatsEvent>, reason: string): nat {
    if es == [] then 0
    else
      var e := es[|es| - 1];
      FailedFor(es[..|es| - 1], reason) + if Failed(e) && e.verdict.reason == reason then 1 else 0
  }

  /** How often the histogram counts the reason. */
  function ReasonCount(reasons: seq<(string, nat)>, reason: string): nat {
    if reasons == [] then 0
    else (if reasons[0].0 == reason then reasons[0].1 else 0) + ReasonCount(reasons[1..], reason)
  }

  lemma {:induction false} ReasonAdded(reasons: seq<(string, nat)>, added: string, reason: string)
    ensures ReasonCount(AddReason(reasons, added), reason) == ReasonCount(reasons, reason) + if added == reason then 1 else 0
  {
    if reasons != [] && reasons[0].0 != added {
      ReasonAdded(reasons[1..], added, reason);
    }
  }

  lemma CountOne(es: seq<StatsEvent>, e: StatsEvent, p: StatsEvent -> bool)
    ensures HowMany(es + [e], p) == HowMany(es, p) + if p(e) then 1 else 0
  {
    assert (es + [e])[..|es|] == es;
  }

  /** The totals are those of the endings. */
  ghost predicate TotalsOf(t: Totals, endings: seq<StatsEvent>) {
    && t.success == HowMany(endings, Succeeded)
    && t.failure == HowMany(endings, Failed)
    && t.unjudged == HowMany(endings, Undecided)
    && (forall reason :: ReasonCount(t.failureReasons, reason) == FailedFor(endings, reason))
    && t.stalled == HowMany(endings, WasStalled)
    && t.connectTimes == TimesOf(endings)
  }

  lemma TallyOne(t: Totals, endings: seq<StatsEvent>, e: StatsEvent)
    requires TotalsOf(t, endings) && e.ConnectionEnded?
    ensures TotalsOf(Tally(t, e), endings + [e])
  {
    CountOne(endings, e, Succeeded);
    CountOne(endings, e, Failed);
    CountOne(endings, e, Undecided);
    CountOne(endings, e, WasStalled);
    assert (endings + [e])[..|endings|] == endings;
    forall reason ensures ReasonCount(Tally(t, e).failureReasons, reason) == FailedFor(endings + [e], reason) {
      if Failed(e) {
        ReasonAdded(t.failureReasons, e.verdict.reason, reason);
      }
    }
    hide HowMany, AddReason, ReasonCount, FailedFor;
  }

  lemma {:induction false} TotalsAre(total: nat, es: seq<StatsEvent>, startedAt: int, warmup: nat)
    ensures TotalsOf(FoldAll(Aggregate(Initial(total), NO_TOTALS), es, startedAt, warmup).totals,
                     Counted(es, startedAt, warmup))
  {
    if es != [] {
      var init, e := es[..|es| - 1], es[|es| - 1];
      TotalsAre(total, init, startedAt, warmup);
      var t := FoldAll(Aggregate(Initial(total), NO_TOTALS), init, startedAt, warmup).totals;
      if e.ConnectionEnded? {
        TallyOne(t, Counted(init, startedAt, warmup), e);
      }
      hide Tally, Observe, HowMany, TimesOf, ReasonCount, FailedFor;
    } else {
      assert forall reason :: ReasonCount(NO_TOTALS.failureReasons, reason) == 0;
    }
  }

  /** All events but the early endings. */
  function Kept(es: seq<StatsEvent>, startedAt: int, warmup: nat): seq<StatsEvent> {
    if es == [] then []
    else
      var init, e := Kept(es[..|es| - 1], startedAt, warmup), es[|es| - 1];
      if Early(e, startedAt, warmup) then init else init + [e]
  }

  lemma FoldOne(a: Aggregate, e: StatsEvent, startedAt: int, warmup: nat)
    ensures var early, next := Early(e, startedAt, warmup), Fold(a, e, startedAt, warmup);
            && next.snapshot == (if early then a.snapshot else Observe(a.snapshot, e))
            && next.totals.warmupExcluded == a.totals.warmupExcluded + if early then 1 else 0
  {
    hide Observe;
  }

  lemma {:induction false} EarlyLeftOut(total: nat, es: seq<StatsEvent>, startedAt: int, warmup: nat)
    ensures var a := FoldAll(Aggregate(Initial(total), NO_TOTALS), es, startedAt, warmup);
            && a.snapshot == ObserveAll(Initial(total), Kept(es, startedAt, warmup))
            && a.totals.warmupExcluded + |Kept(es, startedAt, warmup)| == |es|
  {
    if es != [] {
      var init, e := es[..|es| - 1], es[|es| - 1];
      EarlyLeftOut(total, init, startedAt, warmup);
      hide Observe, Early, Fold, ObserveAll;
      FoldOne(FoldAll(Aggregate(Initial(total), NO_TOTALS), init, startedAt, warmup), e, startedAt, warmup);
      ObserveAllAppend(Initial(total), Kept(init, startedAt, warmup), e);
    } else {
      hide Observe, Early, Fold;
    }
  }

  lemma {:induction false} KeptCounts(es: seq<StatsEvent>, startedAt: int, warmup: nat)
    ensures |Kept(es, startedAt, warmup)| + HowMany(es, (e: StatsEvent) => Early(e, startedAt, warmup)) == |es|
  {
    if es != [] {
      KeptCounts(es[..|es| - 1], startedAt, warmup);
    }
  }

  /** What the warm-up leaves out: exactly the endings before it has passed, from the totals and from the live counts
      alike. The totals are those of the other endings, each failure under its reason. */
  lemma WarmupMeans(total: nat, es: seq<StatsEvent>, startedAt: int, warmup: nat)
    ensures var a := FoldAll(Aggregate(Initial(total), NO_TOTALS), es, startedAt, warmup);
            && a.totals.warmupExcluded == HowMany(es, (e: StatsEvent) => Early(e, startedAt, warmup))
            && a.snapshot == ObserveAll(Initial(total), Kept(es, startedAt, warmup))
            && TotalsOf(a.totals, Counted(es, startedAt, warmup))
            && a.snapshot.success == HowMany(Counted(es, startedAt, warmup), Succeeded)
            && a.snapshot.failure == HowMany(Counted(es, startedAt, warmup), Failed)
            && a.snapshot.unjudged == HowMany(Counted(es, startedAt, warmup), Undecided)
            && a.snapshot.stalled == HowMany(Counted(es, startedAt, warmup), WasStalled)
  {
    EarlyLeftOut(total, es, startedAt, warmup);
    KeptCounts(es, startedAt, warmup);
    TotalsAre(total, es, startedAt, warmup);
    CountsAgree(total, es, startedAt, warmup);
    hide FoldAll, Kept, Counted, HowMany, ObserveAll, FailedFor, ReasonCount;
  }

  /** The three percentiles are by nearest rank: each is within a limit exactly if that part of the connect times,
      rounded up, is. */
  lemma PercentilesMean(t: Totals, limit: real)
    requires t.connectTimes != []
    ensures var s, n, within := Summarize(t), |t.connectTimes|, Within(t.connectTimes, limit);
            && s.p50.Some? && (s.p50.value <= limit <==> 100 * within >= 50 * n)
            && s.p95.Some? && (s.p95.value <= limit <==> 100 * within >= 95 * n)
            && s.p99.Some? && (s.p99.value <= limit <==> 100 * within >= 99 * n)
  {
    PercentileGate(t.connectTimes, 50, 100, limit);
    PercentileGate(t.connectTimes, 95, 100, limit);
    PercentileGate(t.connectTimes, 99, 100, limit);
    CeilMeans(50 * |t.connectTimes|, 100, Within(t.connectTimes, limit));
    CeilMeans(95 * |t.connectTimes|, 100, Within(t.connectTimes, limit));
    CeilMeans(99 * |t.connectTimes|, 100, Within(t.connectTimes, limit));
    hide Within, CeilDiv, Percentile, Sorting.Sort;
  }

  lemma CeilMeans(a: nat, b: nat, x: nat)
    requires b > 0
    ensures x >= CeilDiv(a, b) <==> x * b >= a
  {
    var q := CeilDiv(a, b);
    var r := (a + b - 1) % b;
    assert a + b - 1 == q * b + r;
    if x >= q {
      MulLe(b, q, x);
    } else {
      MulLe(b, x + 1, q);
    }
  }

  lemma RateGate(success: nat, failure: nat, limit: real)
    requires success + failure > 0
    ensures success as real / (success + failure) as real < limit <==> (success as real) < limit * (success + failure) as real
  {
    var n := (success + failure) as real;
    var rate := success as real / n;
    assert rate * n == success as real;
    if rate < limit {
      assert (limit - rate) * n > 0.0;
    } else {
      assert (rate - limit) * n >= 0.0;
    }
  }

  lemma RateMeans(t: Thresholds, totals: Totals)
    ensures RateViolation(t, Summarize(totals)) == [] <==>
            (t.successRate.Some? ==>
               totals.success + totals.failure > 0
               && totals.success as real >= t.successRate.value * (totals.success + totals.failure) as real)
  {
    hide Percentile, Sorting.Sort;
    if t.successRate.Some? && totals.success + totals.failure > 0 {
      RateGate(totals.success, totals.failure, t.successRate.value);
    }
  }

  lemma TimeMeans(t: Thresholds, totals: Totals)
    ensures TimeViolation(t, Summarize(totals)) == [] <==>
            (t.connectTimeP95.Some? ==>
               totals.connectTimes != []
               && 100 * Within(totals.connectTimes, t.connectTimeP95.value) >= 95 * |totals.connectTimes|)
  {
    if t.connectTimeP95.Some? && totals.connectTimes != [] {
      PercentilesMean(totals, t.connectTimeP95.value);
    }
    hide Within, CeilDiv;
  }

  /** A whole run satisfies its thresholds exactly if, among the endings after the warm-up: enough of those judged
      succeeded, and there is one; at least 95 in 100 connect times, rounded up, are within the limit, and there is
      one; and not too many stalled. */
  lemma RunPasses(t: Thresholds, total: nat, es: seq<StatsEvent>, startedAt: int, warmup: nat)
    ensures var s := Summarize(FoldAll(Aggregate(Initial(total), NO_TOTALS), es, startedAt, warmup).totals);
            var counted := Counted(es, startedAt, warmup);
            var success, failure, times := HowMany(counted, Succeeded), HowMany(counted, Failed), TimesOf(counted);
            Violations(t, s) == [] <==>
              && (t.successRate.Some? ==>
                    success + failure > 0 && success as real >= t.successRate.value * (success + failure) as real)
              && (t.connectTimeP95.Some? ==>
                    times != [] && 100 * Within(times, t.connectTimeP95.value) >= 95 * |times|)
              && (t.stalled.Some? ==> HowMany(counted, WasStalled) <= t.stalled.value)
  {
    TotalsAre(total, es, startedAt, warmup);
    var totals := FoldAll(Aggregate(Initial(total), NO_TOTALS), es, startedAt, warmup).totals;
    RateMeans(t, totals);
    TimeMeans(t, totals);
    hide FoldAll, Counted, HowMany, TimesOf, Within, CeilDiv, Percentile, Sorting.Sort, RateViolation, TimeViolation;
  }

  /** What a violation reports: the limit that was set, and what was found in its place. */
  predicate Reports(v: Violation, t: Thresholds, s: Summary) {
    match v
    case SuccessRate(actual, limit) =>
      && t.successRate == Some(limit)
      && (actual.None? <==> s.success + s.failure == 0)
      && (actual.Some? ==>
            actual.value < limit && actual.value * (s.success + s.failure) as real == s.success as real)
    case ConnectTimeP95(actual, limit) =>
      t.connectTimeP95 == Some(limit) && actual == s.p95 && (actual.Some? ==> actual.value > limit)
    case Stalled(count, most) =>
      t.stalled == Some(most) && count == s.stalled && count > most
  }

  /** Each violation reports what it found; there is at most one of each kind, in the order of the thresholds. */
  lemma ViolationsMean(t: Thresholds, s: Summary)
    ensures forall v :: v in Violations(t, s) ==> Reports(v, t, s)
    ensures var vs := Violations(t, s);
            forall i, j :: 0 <= i < j < |vs| ==>
              (vs[i].SuccessRate? && !vs[j].SuccessRate?) || (vs[i].ConnectTimeP95? && vs[j].Stalled?)
  {
    hide Reports;
    var a, b, c := RateViolation(t, s), TimeViolation(t, s), StallViolation(t, s);
    assert |a| <= 1 && |b| <= 1 && |c| <= 1;
    RateReports(t, s);
    OthersReport(t, s);
  }

  lemma RateIs(success: nat, failure: nat)
    requires success + failure > 0
    ensures (success as real / (success + failure) as real) * (success + failure) as real == success as real
  {
  }

  lemma RateReports(t: Thresholds, s: Summary)
    ensures forall v :: v in RateViolation(t, s) ==> Reports(v, t, s)
  {
    if s.success + s.failure > 0 {
      RateIs(s.success, s.failure);
    }
  }

  lemma OthersReport(t: Thresholds, s: Summary)
    ensures forall v :: v in TimeViolation(t, s) || v in StallViolation(t, s) ==> Reports(v, t, s)
  {
  }
}
