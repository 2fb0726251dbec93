/** When the live counts of connected and of retrying clients are the numbers of such clients, for any events in any order
    (`zakuro-core/src/stats.rs`). */
module LiveCounts {
  import opened Stats

  /** Connected, or waiting to reconnect: what a client last reported. */
  datatype Mark = Up | Waiting

  /** Does the client bear the mark after it reported this? */
  function MarkAfter(m: Mark, was: bool, e: StatsEvent): bool {
    match e
    case Connected(_) => m.Up?
    case Disconnected(_) => m.Waiting? && was
    case Retrying(_, _) => m.Waiting? || was
    case Stopped(_) => false
    case ConnectionEnded(_, _, _, _, _) => was
  }

  /** Which of `n` clients bear the mark after the events. */
  function Marked(m: Mark, n: nat, es: seq<StatsEvent>): (r: seq<bool>)
    ensures |r| == n
  {
    if es == [] then seq(n, _ => false)
    else
      var before, e := Marked(m, n, es[..|es| - 1]), es[|es| - 1];
      if e.client < n then before[e.client := MarkAfter(m, before[e.client], e)] else before
  }

  function CountTrue(bs: seq<bool>): nat {
    if bs == [] then 0 else CountTrue(bs[..|bs| - 1]) + if bs[|bs| - 1] then 1 else 0
  }

  /** The live count of the mark after the events. */
  function Live(m: Mark, n: nat, es: seq<StatsEvent>): nat {
    var s := ObserveAll(Initial(n), es);
    if m.Up? then s.connected else s.retrying
  }

  ghost predicate Exact(m: Mark, n: nat, es: seq<StatsEvent>) {
    Live(m, n, es) == CountTrue(Marked(m, n, es))
  }

  ghost predicate AlwaysExact(m: Mark, n: nat, es: seq<StatsEvent>) {
    forall k :: 0 <= k <= |es| ==> Exact(m, n, es[..k])
  }

  /** The event does not add to the count a client that is counted, leave counted one that is no more, or take away one
      that is not counted. */
  predicate Harmless(m: Mark, n: nat, before: seq<StatsEvent>, e: StatsEvent)
    requires e.client < n
  {
    var was, live := Marked(m, n, before)[e.client], Live(m, n, before);
    match m
    case Up => (e.Connected? ==> !was) && (e.Disconnected? && !was ==> live == 0) && (e.Stopped? ==> !was)
    case Waiting => (e.Retrying? ==> !was) && ((e.Connected? || e.Stopped?) && !was ==> live == 0)
  }

  predicate OfClients(n: nat, es: seq<StatsEvent>) {
    forall j :: 0 <= j < |es| ==> es[j].client < n
  }

  lemma {:induction false} CountTrueUpdate(bs: seq<bool>, i: nat, b: bool)
    requires i < |bs|
    ensures CountTrue(bs[i := b]) == CountTrue(bs) - (if bs[i] then 1 else 0) + (if b then 1 else 0)
  {
    var next := bs[i := b];
    if i == |bs| - 1 {
      assert next[..i] == bs[..i];
    } else {
      assert next[..|bs| - 1] == bs[..|bs| - 1][i := b];
      CountTrueUpdate(bs[..|bs| - 1], i, b);
    }
  }

  lemma {:induction false} CountTrueNone(n: nat)
    ensures CountTrue(seq(n, _ => false)) == 0
  {
    if n > 0 {
      var bs := seq(n, _ => false);
      assert bs[..n - 1] == seq(n - 1, _ => false);
      CountTrueNone(n - 1);
    }
  }

  lemma {:induction false} CountTrueFound(bs: seq<bool>, i: nat)
    requires i < |bs| && bs[i]
    ensures CountTrue(bs) > 0
  {
    if i < |bs| - 1 {
      CountTrueFound(bs[..|bs| - 1], i);
    }
  }

  lemma MarkedAppend(m: Mark, n: nat, es: seq<StatsEvent>, e: StatsEvent)
    requires e.client < n
    ensures Marked(m, n, es + [e]) == Marked(m, n, es)[e.client := MarkAfter(m, Marked(m, n, es)[e.client], e)]
  {
    assert (es + [e])[..|es|] == es;
  }

  /** One more event keeps the count exact if and only if it is harmless. */
  lemma StepExact(m: Mark, n: nat, before: seq<StatsEvent>, e: StatsEvent)
    requires e.client < n && Exact(m, n, before)
    ensures Exact(m, n, before + [e]) <==> Harmless(m, n, before, e)
  {
    hide Marked, CountTrue, ObserveAll;
    var was := Marked(m, n, before)[e.client];
    MarkedAppend(m, n, before, e);
    ObserveAllAppend(Initial(n), before, e);
    CountTrueUpdate(Marked(m, n, before), e.client, MarkAfter(m, was, e));
    if was {
      CountTrueFound(Marked(m, n, before), e.client);
    }
  }

  lemma {:induction false} HarmlessIsExact(m: Mark, n: nat, es: seq<StatsEvent>, k: nat)
    requires k <= |es| && OfClients(n, es)
    requires forall j :: 0 <= j < k ==> Harmless(m, n, es[..j], es[j])
    ensures Exact(m, n, es[..k])
  {
    if k == 0 {
      CountTrueNone(n);
    } else {
      hide Exact, Harmless;
      HarmlessIsExact(m, n, es, k - 1);
      assert es[..k] == es[..k - 1] + [es[k - 1]];
      StepExact(m, n, es[..k - 1], es[k - 1]);
    }
  }

  /** Over any events: the count has been exact at every point if and only if every event was harmless when it came. */
  lemma ExactIffHarmless(m: Mark, n: nat, es: seq<StatsEvent>)
    requires OfClients(n, es)
    ensures AlwaysExact(m, n, es) <==> forall j :: 0 <= j < |es| ==> Harmless(m, n, es[..j], es[j])
  {
    hide Exact, Harmless;
    if forall j :: 0 <= j < |es| ==> Harmless(m, n, es[..j], es[j]) {
      forall k | 0 <= k <= |es| ensures Exact(m, n, es[..k]) {
        HarmlessIsExact(m, n, es, k);
      }
    }
    if AlwaysExact(m, n, es) {
      forall j | 0 <= j < |es| ensures Harmless(m, n, es[..j], es[j]) {
        assert Exact(m, n, es[..j]) && Exact(m, n, es[..j + 1]);
        assert es[..j + 1] == es[..j] + [es[j]];
        StepExact(m, n, es[..j], es[j]);
      }
    }
  }

  /** The warm-up has no part in the live counts of connected and of retrying clients. */
  lemma {:induction false} FoldLive(a: Aggregate, es: seq<StatsEvent>, startedAt: int, warmup: nat)
    ensures var f, o := FoldAll(a, es, startedAt, warmup).snapshot, ObserveAll(a.snapshot, es);
            f.connected == o.connected && f.retrying == o.retrying
  {
    if es != [] {
      FoldLive(a, es[..|es| - 1], startedAt, warmup);
    }
  }
}
