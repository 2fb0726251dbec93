/** Any number of MOQ clients, the event channel and the aggregator, interleaved in any way. */
module MoqSystem {
  import opened Outcomes
  import opened Stats
  import opened MoqClient
  import L = LiveCounts

  /** `delivered` records what the aggregator has taken off the channel. */
  datatype System = System(
    clients: seq<Client>, queue: seq<StatsEvent>, delivered: seq<StatsEvent>,
    snapshot: Snapshot, cancelled: bool, aggregating: bool)

  datatype Action =
    | ClientStep(client: nat, choice: Choice)
    | Deliver
    | Cancel
    | StopAggregator

  function BeginAll(endpoints: seq<string>): seq<Client> {
    seq(|endpoints|, i requires 0 <= i < |endpoints| => Begin(i, endpoints[i]))
  }

  function Launch(endpoints: seq<string>): System {
    System(BeginAll(endpoints), [], [], Initial(|endpoints|), false, true)
  }

  /** Sending waits for room in the channel; once the aggregator is gone, events are dropped. */
  function Act(cfgs: seq<Config>, s: System, a: Action): Option<System>
    requires |cfgs| == |s.clients|
  {
    match a
    case ClientStep(i, choice) =>
      if i >= |s.clients| then None
      else
        var r :- Step(cfgs[i], s.clients[i], Input(choice, s.cancelled));
        if !s.aggregating then Some(s.(clients := s.clients[i := r.0]))
        else if r.1 != [] && |s.queue| >= CAPACITY then None
        else Some(s.(clients := s.clients[i := r.0], queue := s.queue + r.1))
    case Deliver =>
      if !s.aggregating || s.queue == [] then None
      else Some(s.(queue := s.queue[1..], delivered := s.delivered + [s.queue[0]],
                   snapshot := Observe(s.snapshot, s.queue[0])))
    case Cancel => Some(s.(cancelled := true))
    case StopAggregator => if s.cancelled then Some(s.(aggregating := false)) else None
  }

  function Exec(cfgs: seq<Config>, s: System, actions: seq<Action>): (r: Option<System>)
    requires |cfgs| == |s.clients|
    ensures r.Some? ==> |r.value.clients| == |s.clients|
  {
    if actions == [] then Some(s)
    else
      var before :- Exec(cfgs, s, actions[..|actions| - 1]);
      Act(cfgs, before, actions[|actions| - 1])
  }

  // ----- what a client may report -----

  /** A client connects only when down, disconnects only when up, and reports nothing after it stopped. */
  function Move(v: Status, e: StatsEvent): Option<Status> {
    match e
    case Connected(_) => if v.Down? then Some(Up) else None
    case Disconnected(_) => if v.Up? then Some(Down) else None
    case Retrying(_, _) => if v.Down? then Some(Down) else None
    case Stopped(_) => if v.Down? then Some(Gone) else None
    case ConnectionEnded(_, _, _, _, _) => None
  }

  /** The status of each of `n` clients after the events, or None when some event was out of place. */
  function Replay(n: nat, es: seq<StatsEvent>): (r: Option<seq<Status>>)
    ensures r.Some? ==> |r.value| == n
  {
    if es == [] then Some(seq(n, _ => Down))
    else
      var before :- Replay(n, es[..|es| - 1]);
      var e := es[|es| - 1];
      if e.client >= n then None
      else
        var v :- Move(before[e.client], e);
        Some(before[e.client := v])
  }

  function Count(vs: seq<Status>, v: Status): nat {
    if vs == [] then 0 else Count(vs[..|vs| - 1], v) + (if vs[|vs| - 1] == v then 1 else 0)
  }

  function Statuses(cs: seq<Client>): seq<Status> {
    seq(|cs|, i requires 0 <= i < |cs| => StatusOf(cs[i]))
  }

  lemma {:induction false} CountUpdate(vs: seq<Status>, i: nat, w: Status, v: Status)
    requires i < |vs|
    ensures Count(vs[i := w], v) == Count(vs, v) - (if vs[i] == v then 1 else 0) + (if w == v then 1 else 0)
  {
    var ws := vs[i := w];
    if i == |vs| - 1 {
      assert ws[..|vs| - 1] == vs[..|vs| - 1];
    } else {
      assert ws[..|vs| - 1] == vs[..|vs| - 1][i := w];
      CountUpdate(vs[..|vs| - 1], i, w, v);
    }
  }

  lemma {:induction false} CountFound(vs: seq<Status>, i: nat)
    requires i < |vs|
    ensures Count(vs, vs[i]) > 0
  {
    if i < |vs| - 1 {
      CountFound(vs[..|vs| - 1], i);
    }
  }

  lemma {:induction false} CountBound(vs: seq<Status>)
    ensures Count(vs, Up) + Count(vs, Gone) <= |vs|
  {
    if vs != [] {
      CountBound(vs[..|vs| - 1]);
    }
  }

  lemma {:induction false} CountAll(n: nat, v: Status)
    ensures Count(seq(n, _ => Down), v) == if v.Down? then n else 0
  {
    if n > 0 {
      var vs := seq(n, _ => Down);
      assert vs[..n - 1] == seq(n - 1, _ => Down);
      CountAll(n - 1, v);
    }
  }

  lemma ReplayAppend(n: nat, es: seq<StatsEvent>, e: StatsEvent)
    ensures Replay(n, es + [e]) ==
            var before := Replay(n, es);
            if before.None? || e.client >= n || Move(before.value[e.client], e).None? then None
            else Some(before.value[e.client := Move(before.value[e.client], e).value])
  {
    assert (es + [e])[..|es|] == es;
  }

  ghost predicate Exact(s: Snapshot, vs: seq<Status>) {
    s.total == |vs| && s.connected == Count(vs, Up) && s.stopped == Count(vs, Gone)
  }

  lemma ExactStep(s: Snapshot, vs: seq<Status>, e: StatsEvent)
    requires Exact(s, vs) && e.client < |vs| && Move(vs[e.client], e).Some?
    ensures Exact(Observe(s, e), vs[e.client := Move(vs[e.client], e).value])
  {
    hide Count;
    var w := Move(vs[e.client], e).value;
    CountUpdate(vs, e.client, w, Up);
    CountUpdate(vs, e.client, w, Gone);
    CountFound(vs, e.client);
  }

  /** When every client reports in order, the counts are exact and no client is counted twice. */
  lemma {:induction false} CountsExact(n: nat, es: seq<StatsEvent>)
    requires Replay(n, es).Some?
    ensures var s := ObserveAll(Initial(n), es);
            Exact(s, Replay(n, es).value) && s.connected + s.stopped <= s.total
  {
    hide Observe, Move, Count;
    if es == [] {
      CountAll(n, Up);
      CountAll(n, Gone);
    } else {
      var init, e := es[..|es| - 1], es[|es| - 1];
      CountsExact(n, init);
      ExactStep(ObserveAll(Initial(n), init), Replay(n, init).value, e);
    }
    CountBound(Replay(n, es).value);
  }

  lemma PositiveBeforeDisconnect(n: nat, es: seq<StatsEvent>, e: StatsEvent)
    requires Replay(n, es + [e]).Some? && e.Disconnected?
    ensures ObserveAll(Initial(n), es).connected > 0
  {
    ReplayAppend(n, es, e);
    CountsExact(n, es);
    CountFound(Replay(n, es).value, e.client);
  }

  // ----- one client's own events -----

  /** What client `i` reported, retries aside. */
  function Own(es: seq<StatsEvent>, i: nat): seq<StatsEvent> {
    if es == [] then []
    else
      var init := Own(es[..|es| - 1], i);
      var e := es[|es| - 1];
      if e.client == i && !e.Retrying? then init + [e] else init
  }

  /** `Connected` and `Disconnected` take turns; `Stopped` comes where `Connected` could, and last. */
  ghost predicate Alternates(es: seq<StatsEvent>) {
    forall k :: 0 <= k < |es| ==>
      if k % 2 == 0 then es[k].Connected? || (es[k].Stopped? && k == |es| - 1) else es[k].Disconnected?
  }

  ghost predicate OwnStatus(own: seq<StatsEvent>, v: Status) {
    && Alternates(own)
    && (v.Down? <==> |own| % 2 == 0)
    && (v.Gone? <==> |own| > 0 && own[|own| - 1].Stopped?)
  }

  lemma OwnStep(own: seq<StatsEvent>, v: Status, e: StatsEvent)
    requires OwnStatus(own, v) && Move(v, e).Some?
    ensures OwnStatus(if e.Retrying? then own else own + [e], Move(v, e).value)
  {
    var next := own + [e];
    forall k | 0 <= k < |next| ensures e.Retrying? ||
      if k % 2 == 0 then next[k].Connected? || (next[k].Stopped? && k == |next| - 1) else next[k].Disconnected?
    {
      assert k < |own| ==> next[k] == own[k];
    }
  }

  lemma {:induction false} OwnAlternates(n: nat, es: seq<StatsEvent>, i: nat)
    requires Replay(n, es).Some? && i < n
    ensures OwnStatus(Own(es, i), Replay(n, es).value[i])
  {
    if es != [] {
      hide Move, Alternates, OwnStatus;
      var init, e := es[..|es| - 1], es[|es| - 1];
      OwnAlternates(n, init, i);
      if e.client == i {
        OwnStep(Own(init, i), Replay(n, init).value[i], e);
      }
    }
  }

  // ----- the system -----

  ghost predicate SystemInv(s: System) {
    && (forall i :: 0 <= i < |s.clients| ==> s.clients[i].id == i)
    && s.snapshot == ObserveAll(Initial(|s.clients|), s.delivered)
    && Replay(|s.clients|, s.delivered).Some?
    && (s.aggregating ==> Replay(|s.clients|, s.delivered + s.queue) == Some(Statuses(s.clients)))
  }

  lemma StepMoves(cfg: Config, c: Client, input: Input)
    requires Step(cfg, c, input).Some?
    ensures var (next, es) := Step(cfg, c, input).value;
            && next.id == c.id && |es| <= 1
            && (es == [] ==> StatusOf(next) == StatusOf(c))
            && (es != [] ==> es[0].client == c.id && Move(StatusOf(c), es[0]) == Some(StatusOf(next)))
  {
    hide ResolveNextEndpoint;
  }

  lemma {:induction false} ReplayPrefix(n: nat, a: seq<StatsEvent>, b: seq<StatsEvent>)
    requires Replay(n, a + b).Some?
    ensures Replay(n, a).Some?
    decreases |b|
  {
    if b == [] {
      assert a + b == a;
    } else {
      var init := b[..|b| - 1];
      assert a + b == (a + init) + [b[|b| - 1]];
      ReplayAppend(n, a + init, b[|b| - 1]);
      ReplayPrefix(n, a, init);
    }
  }

  lemma ClientStepKeeps(cfgs: seq<Config>, s: System, i: nat, choice: Choice)
    requires |cfgs| == |s.clients| && SystemInv(s) && Act(cfgs, s, ClientStep(i, choice)).Some?
    ensures SystemInv(Act(cfgs, s, ClientStep(i, choice)).value)
  {
    var input := Input(choice, s.cancelled);
    StepMoves(cfgs[i], s.clients[i], input);
    hide Step, StatusOf, Move, ObserveAll;
    var (next, es) := Step(cfgs[i], s.clients[i], input).value;
    if s.aggregating {
      var sent := s.delivered + s.queue;
      assert Statuses(s.clients[i := next]) == Statuses(s.clients)[i := StatusOf(next)];
      if es == [] {
        assert s.delivered + (s.queue + es) == sent;
        assert Statuses(s.clients)[i := StatusOf(next)] == Statuses(s.clients);
      } else {
        assert s.delivered + (s.queue + es) == sent + [es[0]];
        ReplayAppend(|s.clients|, sent, es[0]);
      }
    }
  }

  lemma DeliverKeeps(cfgs: seq<Config>, s: System)
    requires |cfgs| == |s.clients| && SystemInv(s) && Act(cfgs, s, Deliver).Some?
    ensures SystemInv(Act(cfgs, s, Deliver).value)
  {
    var e := s.queue[0];
    assert s.delivered + s.queue == s.delivered + [e] + s.queue[1..];
    ReplayPrefix(|s.clients|, s.delivered + [e], s.queue[1..]);
    ObserveAllAppend(Initial(|s.clients|), s.delivered, e);
  }

  lemma {:induction false} ExecKeeps(cfgs: seq<Config>, endpoints: seq<string>, actions: seq<Action>)
    requires |cfgs| == |endpoints|
    ensures var r := Exec(cfgs, Launch(endpoints), actions); r.Some? ==> SystemInv(r.value)
  {
    var s0 := Launch(endpoints);
    if actions == [] {
      assert Statuses(s0.clients) == seq(|endpoints|, _ => Down);
      assert s0.delivered + s0.queue == [];
    } else {
      var init, a := actions[..|actions| - 1], actions[|actions| - 1];
      ExecKeeps(cfgs, endpoints, init);
      var before := Exec(cfgs, s0, init);
      if before.Some? && Act(cfgs, before.value, a).Some? {
        match a
        case ClientStep(i, choice) => ClientStepKeeps(cfgs, before.value, i, choice);
        case Deliver => DeliverKeeps(cfgs, before.value);
        case _ =>
      }
    }
  }

  /** In every interleaving, as long as the aggregator runs: `connected` is the number of clients that are up by the
      events delivered so far; with nothing left in the channel it is the number of clients that are up. */
  lemma ConnectedIsExact(cfgs: seq<Config>, endpoints: seq<string>, actions: seq<Action>)
    requires |cfgs| == |endpoints|
    ensures var r := Exec(cfgs, Launch(endpoints), actions);
            r.Some? ==>
              var s := r.value;
              && Replay(|endpoints|, s.delivered).Some?
              && s.snapshot.connected == Count(Replay(|endpoints|, s.delivered).value, Up)
              && s.snapshot.connected + s.snapshot.stopped <= s.snapshot.total == |endpoints|
              && (s.aggregating && s.queue == [] ==>
                    && s.snapshot.connected == Count(Statuses(s.clients), Up)
                    && s.snapshot.stopped == Count(Statuses(s.clients), Gone))
  {
    ExecKeeps(cfgs, endpoints, actions);
    var r := Exec(cfgs, Launch(endpoints), actions);
    if r.Some? {
      CountsExact(|endpoints|, r.value.delivered);
      if r.value.aggregating && r.value.queue == [] {
        assert r.value.delivered + r.value.queue == r.value.delivered;
      }
    }
  }

  /** In every interleaving: when the aggregator takes a `Disconnected` off the channel, `connected` is positive, so its
      guard decides nothing. */
  lemma GuardNeverDecides(cfgs: seq<Config>, endpoints: seq<string>, actions: seq<Action>)
    requires |cfgs| == |endpoints|
    ensures var r := Exec(cfgs, Launch(endpoints), actions);
            r.Some? && Act(cfgs, r.value, Deliver).Some? && r.value.queue[0].Disconnected? ==>
              r.value.snapshot.connected > 0
  {
    hide Replay, ObserveAll;
    ExecKeeps(cfgs, endpoints, actions);
    var r := Exec(cfgs, Launch(endpoints), actions);
    if r.Some? && Act(cfgs, r.value, Deliver).Some? && r.value.queue[0].Disconnected? {
      var s := r.value;
      assert s.delivered + s.queue == s.delivered + [s.queue[0]] + s.queue[1..];
      ReplayPrefix(|endpoints|, s.delivered + [s.queue[0]], s.queue[1..]);
      PositiveBeforeDisconnect(|endpoints|, s.delivered, s.queue[0]);
    }
  }

  lemma {:induction false} ReplayWithoutEndings(n: nat, es: seq<StatsEvent>)
    requires Replay(n, es).Some?
    ensures forall e :: e in es ==> !e.ConnectionEnded?
  {
    if es != [] {
      var init, last := es[..|es| - 1], es[|es| - 1];
      ReplayWithoutEndings(n, init);
      assert !last.ConnectionEnded?;
      hide Replay, Move;
      assert es == init + [last];
    }
  }

  /** The live counts are those of the aggregator that also keeps totals, whatever its warm-up: MOQ clients report no
      endings. */
  lemma WarmupExcludesNothing(cfgs: seq<Config>, endpoints: seq<string>, actions: seq<Action>, startedAt: int, warmup: nat)
    requires |cfgs| == |endpoints|
    ensures var r := Exec(cfgs, Launch(endpoints), actions);
            r.Some? ==>
              var a := FoldAll(Aggregate(Initial(|endpoints|), NO_TOTALS), r.value.delivered, startedAt, warmup);
              a.snapshot == r.value.snapshot && a.totals.warmupExcluded == 0
  {
    hide Replay, ObserveAll, FoldAll;
    ExecKeeps(cfgs, endpoints, actions);
    var r := Exec(cfgs, Launch(endpoints), actions);
    if r.Some? {
      ReplayWithoutEndings(|endpoints|, r.value.delivered);
      FoldObserves(Aggregate(Initial(|endpoints|), NO_TOTALS), r.value.delivered, startedAt, warmup);
    }
  }

  // ----- what `retrying` means -----

  lemma {:induction false} ReplayOfClients(n: nat, es: seq<StatsEvent>)
    requires Replay(n, es).Some?
    ensures L.OfClients(n, es)
  {
    if es != [] {
      var init := es[..|es| - 1];
      ReplayOfClients(n, init);
      assert es[|es| - 1].client < n;
      hide Replay;
      assert forall j :: 0 <= j < |init| ==> es[j] == init[j];
    }
  }

  /** In every interleaving: `retrying` has always been the number of clients that wait to reconnect by the events
      delivered, at every point, if and only if no client that waits reports a retry again, and none that does not wait
      connects or stops while some client counts as waiting. */
  lemma RetryingExactly(cfgs: seq<Config>, endpoints: seq<string>, actions: seq<Action>)
    requires |cfgs| == |endpoints|
    ensures var r := Exec(cfgs, Launch(endpoints), actions);
            r.Some? ==>
              var s, n := r.value, |endpoints|;
              && s.snapshot.retrying == L.Live(L.Waiting, n, s.delivered)
              && L.OfClients(n, s.delivered)
              && (L.AlwaysExact(L.Waiting, n, s.delivered) <==>
                    forall j :: 0 <= j < |s.delivered| ==> L.Harmless(L.Waiting, n, s.delivered[..j], s.delivered[j]))
  {
    hide Replay, ObserveAll, L.AlwaysExact, L.Harmless;
    ExecKeeps(cfgs, endpoints, actions);
    var r := Exec(cfgs, Launch(endpoints), actions);
    if r.Some? {
      ReplayOfClients(|endpoints|, r.value.delivered);
      L.ExactIffHarmless(L.Waiting, |endpoints|, r.value.delivered);
    }
  }

  lemma Then(cfgs: seq<Config>, s: System, actions: seq<Action>, a: Action) returns (more: seq<Action>)
    requires |cfgs| == |s.clients| && Exec(cfgs, s, actions).Some? && Act(cfgs, Exec(cfgs, s, actions).value, a).Some?
    ensures more == actions + [a] && Exec(cfgs, s, more) == Act(cfgs, Exec(cfgs, s, actions).value, a)
  {
    more := actions + [a];
    assert more[..|actions|] == actions;
  }

  lemma FirstRetries(cfgs: seq<Config>, endpoints: seq<string>) returns (actions: seq<Action>)
    requires |cfgs| == |endpoints| == 2 && cfgs[0].maxRetry >= 1
    ensures var r := Exec(cfgs, Launch(endpoints), actions);
            && r.Some? && r.value.aggregating && r.value.queue == [] && r.value.snapshot.retrying == 1
            && r.value.clients[0].phase.RetryWait? && r.value.clients[0].retryCount == 1
            && r.value.clients[1] == Begin(1, endpoints[1])
  {
    var s := Launch(endpoints);
    actions := [];
    assert Exec(cfgs, s, actions) == Some(s);
    hide Exec, ResolveNextEndpoint;
    actions := Then(cfgs, s, actions, ClientStep(0, MoqClient.ConnectFailed));
    actions := Then(cfgs, s, actions, ClientStep(0, MoqClient.Sent));
    actions := Then(cfgs, s, actions, Deliver);
  }

  /** Too low: a client that connects at its first attempt takes away what one that waits has added. */
  lemma RetryingTooLow(cfgs: seq<Config>, endpoints: seq<string>) returns (actions: seq<Action>)
    requires |cfgs| == |endpoints| == 2 && cfgs[0].maxRetry >= 1
    ensures var r := Exec(cfgs, Launch(endpoints), actions);
            && r.Some? && r.value.queue == [] && r.value.clients[0].phase.RetryWait? && r.value.snapshot.retrying == 0
  {
    var s := Launch(endpoints);
    actions := FirstRetries(cfgs, endpoints);
    hide Exec, Launch, ResolveNextEndpoint;
    actions := Then(cfgs, s, actions, ClientStep(1, MoqClient.ConnectOk));
    actions := Then(cfgs, s, actions, ClientStep(1, MoqClient.Established));
    actions := Then(cfgs, s, actions, ClientStep(1, MoqClient.Sent));
    actions := Then(cfgs, s, actions, Deliver);
  }

  /** Too high: one client that fails twice in a row counts twice. */
  lemma RetryingTooHigh(cfgs: seq<Config>, endpoints: seq<string>) returns (actions: seq<Action>)
    requires |cfgs| == |endpoints| == 2 && cfgs[0].maxRetry >= 2
    ensures var r := Exec(cfgs, Launch(endpoints), actions);
            && r.Some? && r.value.queue == [] && r.value.clients[1] == Begin(1, endpoints[1])
            && r.value.snapshot.retrying == 2
  {
    var s := Launch(endpoints);
    actions := FirstRetries(cfgs, endpoints);
    hide Exec, Launch, ResolveNextEndpoint;
    actions := Then(cfgs, s, actions, ClientStep(0, MoqClient.Slept));
    actions := Then(cfgs, s, actions, ClientStep(0, MoqClient.ConnectFailed));
    actions := Then(cfgs, s, actions, ClientStep(0, MoqClient.Sent));
    actions := Then(cfgs, s, actions, Deliver);
  }

  /** In every interleaving each client's events alternate, and nothing follows its `Stopped`. */
  lemma EventsAlternate(cfgs: seq<Config>, endpoints: seq<string>, actions: seq<Action>, i: nat)
    requires |cfgs| == |endpoints| && i < |endpoints|
    ensures var r := Exec(cfgs, Launch(endpoints), actions);
            r.Some? && r.value.aggregating ==>
              var own := Own(r.value.delivered + r.value.queue, i);
              && Alternates(own)
              && (r.value.clients[i].phase.Done? <==> own != [] && own[|own| - 1].Stopped?)
  {
    hide Alternates, Own, Exec, Replay, ObserveAll;
    ExecKeeps(cfgs, endpoints, actions);
    var r := Exec(cfgs, Launch(endpoints), actions);
    if r.Some? && r.value.aggregating {
      OwnAlternates(|endpoints|, r.value.delivered + r.value.queue, i);
    }
  }
}
