/** What `connected` and `retrying` say about Sora clients: when they are exact, and two runs in which `connected` is
    not. */
module SoraConnected {
  import opened Outcomes
  import opened Stats
  import opened SoraClient
  import opened SoraSystem
  import opened LiveCounts
  import C = ConnectionLifecycle

  // ----- who is up, by the events -----

  /** The event is no disconnect of a client that was not up while some client counts as connected, and no stop of a
      client that was up. */
  predicate Benign(n: nat, before: seq<StatsEvent>, e: StatsEvent)
    requires e.client < n
  {
    var up := Marked(Up, n, before)[e.client];
    (e.Disconnected? && !up ==> Live(Up, n, before) == 0) && (e.Stopped? ==> !up)
  }

  /** A client connects only when it is not up; in a strict run it also disconnects only when up and stops only when
      not. */
  predicate InPlace(n: nat, before: seq<StatsEvent>, e: StatsEvent, strict: bool) {
    && e.client < n
    && var up := Marked(Up, n, before)[e.client];
       (e.Connected? ==> !up) && (strict ==> (e.Disconnected? ==> up) && (e.Stopped? ==> !up))
  }

  predicate InOrder(n: nat, es: seq<StatsEvent>, strict: bool) {
    forall j :: 0 <= j < |es| ==> InPlace(n, es[..j], es[j], strict)
  }

  /** What else could do harm does not happen. */
  lemma BenignIsHarmless(n: nat, es: seq<StatsEvent>)
    requires InOrder(n, es, false)
    ensures OfClients(n, es)
    ensures forall j :: 0 <= j < |es| ==> (Harmless(Up, n, es[..j], es[j]) <==> Benign(n, es[..j], es[j]))
  {
    forall j | 0 <= j < |es|
      ensures es[j].client < n && (Harmless(Up, n, es[..j], es[j]) <==> Benign(n, es[..j], es[j]))
    {
      assert InPlace(n, es[..j], es[j], false);
    }
  }

  // ----- what the clients do -----

  /** An attempt ends before it is established only by a cancellation, and no client is cancelled while it is up. */
  predicate OrderlyInput(c: Client, input: Input) {
    match c.phase
    case Establish => !input.choice.RunEnds?
    case Running => input.choice.Cancelled? <==> !c.up
    case _ => true
  }

  ghost predicate OrderlyAt(t: Trial, before: seq<Action>, a: Action) {
    a.ClientStep? && Exec(t, before).Some? && a.client < |t.cfgs| ==>
      OrderlyInput(Exec(t, before).value.clients[a.client], a.input)
  }

  ghost predicate Orderly(t: Trial, actions: seq<Action>) {
    forall m :: 0 <= m < |actions| ==> OrderlyAt(t, actions[..m], actions[m])
  }

  /** Where a client can be up, and in an orderly run must be. */
  predicate PhaseOk(c: Client, strict: bool) {
    match c.phase
    case Running => true
    case Disconnecting(reason) => strict ==> (c.up <==> !reason.Shutdown?)
    case SendDisconnected(_) => strict ==> c.up
    case SendStopped => strict ==> !c.up
    case _ => !c.up
  }

  lemma StepUp(cfg: Config, c: Client, input: Input, strict: bool)
    requires PhaseOk(c, strict) && Step(cfg, c, input).Some? && (strict ==> OrderlyInput(c, input))
    ensures var o := Step(cfg, c, input).value;
            && o.client.id == c.id && PhaseOk(o.client, strict)
            && (o.sent.None? ==> o.client.up == c.up)
            && (o.ending.Some? ==> o.sent.None? && o.ending.value.ConnectionEnded? && o.ending.value.client == c.id)
            && (o.sent.Some? ==>
                  var e := o.sent.value;
                  && e.client == c.id && o.client.up == MarkAfter(Up, c.up, e)
                  && (e.Connected? ==> !c.up)
                  && (strict ==> (e.Disconnected? ==> c.up) && (e.Stopped? ==> !c.up)))
  {
    hide ConnectTime, VerdictOf, C.Judge, C.IsStalled;
  }

  // ----- every run -----

  function ClientUps(cs: seq<Client>): seq<bool> {
    seq(|cs|, i requires 0 <= i < |cs| => cs[i].up)
  }

  ghost predicate UpInv(t: Trial, s: System, strict: bool) {
    && |s.clients| == |t.cfgs|
    && (forall i :: 0 <= i < |s.clients| ==> s.clients[i].id == i && PhaseOk(s.clients[i], strict))
    && InOrder(|t.cfgs|, s.delivered + s.queue, strict)
    && (s.aggregating ==> Marked(Up, |t.cfgs|, s.delivered + s.queue) == ClientUps(s.clients))
  }

  lemma InOrderAppend(n: nat, es: seq<StatsEvent>, e: StatsEvent, strict: bool)
    requires InOrder(n, es, strict) && InPlace(n, es, e, strict)
    ensures InOrder(n, es + [e], strict)
  {
    var more := es + [e];
    forall j | 0 <= j < |more| ensures InPlace(n, more[..j], more[j], strict) {
      hide InPlace;
      if j < |es| {
        assert more[..j] == es[..j];
      } else {
        assert more[..j] == es;
      }
    }
  }

  lemma EventKeepsUp(t: Trial, s: System, next: System, i: nat, c: Client, e: StatsEvent, strict: bool)
    requires UpInv(t, s, strict) && s.aggregating && i < |s.clients| && c.id == e.client == i && PhaseOk(c, strict)
    requires var up := s.clients[i].up;
             && c.up == MarkAfter(Up, up, e) && (e.Connected? ==> !up)
             && (strict ==> (e.Disconnected? ==> up) && (e.Stopped? ==> !up))
    requires next == s.(clients := s.clients[i := c], queue := s.queue + [e])
    ensures UpInv(t, next, strict)
  {
    hide PhaseOk, InOrder, Marked, MarkAfter;
    var sent := s.delivered + s.queue;
    assert next.delivered + next.queue == sent + [e];
    assert ClientUps(next.clients) == ClientUps(s.clients)[i := c.up];
    MarkedAppend(Up, |t.cfgs|, sent, e);
    InOrderAppend(|t.cfgs|, sent, e, strict);
  }

  lemma QuietKeepsUp(t: Trial, s: System, next: System, i: nat, c: Client, strict: bool)
    requires UpInv(t, s, strict) && i < |s.clients| && c.id == i && PhaseOk(c, strict)
    requires s.aggregating ==> c.up == s.clients[i].up
    requires next == s.(clients := s.clients[i := c], refused := next.refused)
    ensures UpInv(t, next, strict)
  {
    hide PhaseOk, InOrder, Marked;
    if s.aggregating {
      assert ClientUps(next.clients) == ClientUps(s.clients);
    }
  }

  lemma ClientStepKeepsUp(t: Trial, s: System, i: nat, input: Input, strict: bool)
    requires UpInv(t, s, strict) && Act(t, s, ClientStep(i, input)).Some?
    requires strict ==> OrderlyInput(s.clients[i], input)
    ensures UpInv(t, Act(t, s, ClientStep(i, input)).value, strict)
  {
    StepUp(t.cfgs[i], s.clients[i], input, strict);
    hide UpInv, Step, OrderlyInput, PhaseOk;
    var o := Step(t.cfgs[i], s.clients[i], input).value;
    var next := Act(t, s, ClientStep(i, input)).value;
    if next.queue == s.queue {
      assert o.sent.Some? && s.aggregating ==> |next.queue| == |s.queue| + 1;
      QuietKeepsUp(t, s, next, i, o.client, strict);
    } else {
      EventKeepsUp(t, s, next, i, o.client, if o.ending.Some? then o.ending.value else o.sent.value, strict);
    }
  }

  lemma DeliverKeepsUp(t: Trial, s: System, strict: bool)
    requires UpInv(t, s, strict) && Act(t, s, Deliver).Some?
    ensures UpInv(t, Act(t, s, Deliver).value, strict)
  {
    hide InOrder, Marked, PhaseOk, Fold;
    assert s.delivered + [s.queue[0]] + s.queue[1..] == s.delivered + s.queue;
  }

  lemma OrderlyPrefix(t: Trial, init: seq<Action>, a: Action)
    requires Orderly(t, init + [a])
    ensures Orderly(t, init) && OrderlyAt(t, init, a)
  {
    hide OrderlyAt;
    var all := init + [a];
    assert all[..|init|] == init;
    forall m | 0 <= m < |init| ensures OrderlyAt(t, init[..m], init[m]) {
      assert init[..m] == all[..m] && OrderlyAt(t, all[..m], all[m]);
    }
  }

  lemma {:induction false} ExecUp(t: Trial, actions: seq<Action>, strict: bool)
    requires strict ==> Orderly(t, actions)
    ensures var r := Exec(t, actions); r.Some? ==> UpInv(t, r.value, strict)
  {
    if actions != [] {
      hide Orderly, UpInv, OrderlyInput;
      var init, a := actions[..|actions| - 1], actions[|actions| - 1];
      assert actions == init + [a];
      if strict {
        OrderlyPrefix(t, init, a);
      }
      ExecUp(t, init, strict);
      var before := Exec(t, init);
      if before.Some? && Act(t, before.value, a).Some? {
        StepKeepsUp(t, before.value, a, strict);
      }
    }
  }

  lemma StepKeepsUp(t: Trial, s: System, a: Action, strict: bool)
    requires UpInv(t, s, strict) && Act(t, s, a).Some?
    requires strict && a.ClientStep? && a.client < |s.clients| ==> OrderlyInput(s.clients[a.client], a.input)
    ensures UpInv(t, Act(t, s, a).value, strict)
  {
    match a
    case ClientStep(i, input) => ClientStepKeepsUp(t, s, i, input, strict);
    case Deliver => DeliverKeepsUp(t, s, strict);
    case _ => hide InOrder, Marked, PhaseOk;
  }

  lemma InOrderPrefix(n: nat, a: seq<StatsEvent>, b: seq<StatsEvent>, strict: bool)
    requires InOrder(n, a + b, strict)
    ensures InOrder(n, a, strict)
  {
    forall j | 0 <= j < |a| ensures InPlace(n, a[..j], a[j], strict) {
      assert a[..j] == (a + b)[..j] && InPlace(n, (a + b)[..j], (a + b)[j], strict);
    }
  }

  /** In every interleaving: `connected` has always been the number of clients up by the events delivered, at every
      point, if and only if no `Disconnected` of a client that was not up was delivered while some client counted as
      connected, and no `Stopped` of a client that was up. While the aggregator runs and the channel is empty, the
      clients up by the events are those that are up. */
  lemma ConnectedExactly(t: Trial, actions: seq<Action>)
    ensures var r := Exec(t, actions);
            r.Some? ==>
              var s, n := r.value, |t.cfgs|;
              && s.aggregate.snapshot.connected == Live(Up, n, s.delivered)
              && OfClients(n, s.delivered)
              && (AlwaysExact(Up, n, s.delivered) <==>
                    forall j :: 0 <= j < |s.delivered| ==> Benign(n, s.delivered[..j], s.delivered[j]))
              && (s.aggregating && s.queue == [] ==> Marked(Up, n, s.delivered) == ClientUps(s.clients))
  {
    var r, n := Exec(t, actions), |t.cfgs|;
    if r.Some? {
      var s := r.value;
      ExecKeeps(t, actions);
      ExecUp(t, actions, false);
      assert s.queue == [] ==> s.delivered + s.queue == s.delivered;
      InOrderPrefix(n, s.delivered, s.queue, false);
      hide Exec, Benign, Harmless, InOrder, ClientUps, Marked, FoldAll, ObserveAll, Recorded, PhaseOk, AlwaysExact;
      BenignIsHarmless(n, s.delivered);
      ExactIffHarmless(Up, n, s.delivered);
      FoldLive(Aggregate(Initial(n), NO_TOTALS), s.delivered, t.startedAt, t.warmup);
    }
  }

  /** The same for `retrying` and the clients that wait to reconnect by the events delivered: it has always been their
      number if and only if no client that waits reports a retry again, and none that does not wait connects or stops
      while some client counts as waiting. */
  lemma RetryingExactly(t: Trial, actions: seq<Action>)
    ensures var r := Exec(t, actions);
            r.Some? ==>
              var s, n := r.value, |t.cfgs|;
              && s.aggregate.snapshot.retrying == Live(Waiting, n, s.delivered)
              && OfClients(n, s.delivered)
              && (AlwaysExact(Waiting, n, s.delivered) <==>
                    forall j :: 0 <= j < |s.delivered| ==> Harmless(Waiting, n, s.delivered[..j], s.delivered[j]))
  {
    var r, n := Exec(t, actions), |t.cfgs|;
    if r.Some? {
      var s := r.value;
      ConnectedExactly(t, actions);
      ExecKeeps(t, actions);
      hide Exec, Harmless, Benign, Marked, FoldAll, ObserveAll, Recorded, AlwaysExact;
      ExactIffHarmless(Waiting, n, s.delivered);
      FoldLive(Aggregate(Initial(n), NO_TOTALS), s.delivered, t.startedAt, t.warmup);
    }
  }

  /** A run in which attempts end before they are established only by a cancellation, and no client is cancelled while
      up, keeps `connected` exact throughout. */
  lemma OrderlyIsExact(t: Trial, actions: seq<Action>)
    requires Orderly(t, actions)
    ensures var r := Exec(t, actions);
            r.Some? ==>
              var s, n := r.value, |t.cfgs|;
              && AlwaysExact(Up, n, s.delivered)
              && (s.aggregating && s.queue == [] ==> s.aggregate.snapshot.connected == CountTrue(ClientUps(s.clients)))
  {
    var r, n := Exec(t, actions), |t.cfgs|;
    if r.Some? {
      var s := r.value;
      ConnectedExactly(t, actions);
      ExecUp(t, actions, true);
      InOrderPrefix(n, s.delivered, s.queue, true);
      hide Exec, Marked, Live, CountTrue, ClientUps, PhaseOk, UpInv;
      forall j | 0 <= j < |s.delivered| ensures Benign(n, s.delivered[..j], s.delivered[j]) {
        assert InPlace(n, s.delivered[..j], s.delivered[j], true);
      }
      assert s.delivered[..|s.delivered|] == s.delivered;
      assert Exact(Up, n, s.delivered[..|s.delivered|]);
    }
  }

  // ----- two runs in which it is not exact -----

  /** The first client is up, all events are delivered, and nobody was cancelled. */
  predicate UpAndSettled(s: System) {
    |s.clients| > 0 && s.clients[0].up && s.queue == [] && s.aggregating && !s.cancelled
  }

  lemma Then(t: Trial, actions: seq<Action>, a: Action) returns (more: seq<Action>)
    requires Exec(t, actions).Some? && Act(t, Exec(t, actions).value, a).Some?
    ensures more == actions + [a] && Exec(t, more) == Act(t, Exec(t, actions).value, a)
  {
    more := actions + [a];
    assert more[..|actions|] == actions;
  }

  lemma Start(t: Trial) returns (actions: seq<Action>)
    ensures Exec(t, actions) == Some(Launch(t))
  {
    actions := [];
  }

  lemma FirstConnects(t: Trial) returns (actions: seq<Action>)
    requires |t.cfgs| == 2
    ensures Exec(t, actions).Some?
    ensures var s := Exec(t, actions).value;
            && UpAndSettled(s) && s.clients[0].phase.Running? && s.clients[0].id == 0 && s.clients[1] == Begin(1, t.startedAt)
            && s.aggregate.snapshot.connected == 1
  {
    hide Exec;
    actions := Start(t);
    actions := Then(t, actions, ClientStep(0, Input(BuildOk, false, C.BEGUN, 0)));
    actions := Then(t, actions, ClientStep(0, Input(Established, false, C.BEGUN, 0)));
    actions := Then(t, actions, ClientStep(0, Input(SoraClient.Sent, false, C.BEGUN, 0)));
    actions := Then(t, actions, Deliver);
  }

  /** Too low: a client whose connection fails before it is established reports `Disconnected` as well, and takes away
      what another client added. */
  lemma ConnectedIsNotExact(t: Trial) returns (actions: seq<Action>)
    requires |t.cfgs| == 2
    ensures Exec(t, actions).Some?
    ensures var s := Exec(t, actions).value; UpAndSettled(s) && s.aggregate.snapshot.connected == 0
  {
    hide Exec;
    actions := FirstConnects(t);
    actions := Then(t, actions, ClientStep(1, Input(BuildOk, false, C.BEGUN, 0)));
    actions := Then(t, actions, ClientStep(1, Input(RunEnds, false, C.BEGUN, 0)));
    actions := Then(t, actions, Deliver);
    actions := Then(t, actions, ClientStep(1, Input(SoraClient.Sent, false, C.BEGUN, 0)));
    actions := Then(t, actions, Deliver);
  }

  /** Too high: a client that is cancelled while up stops without `Disconnected`, and stays counted. */
  lemma StoppedStaysConnected(t: Trial) returns (actions: seq<Action>)
    requires |t.cfgs| == 2
    ensures Exec(t, actions).Some?
    ensures var s := Exec(t, actions).value;
            && s.clients[0].phase.Done? && !s.clients[1].up && s.queue == [] && s.aggregating
            && s.aggregate.snapshot.connected == 1
  {
    hide Exec;
    actions := FirstConnects(t);
    actions := Then(t, actions, Cancel);
    actions := Then(t, actions, ClientStep(0, Input(Cancelled, true, C.BEGUN, 0)));
    actions := Then(t, actions, ClientStep(0, Input(Disconnects, true, C.BEGUN, 0)));
    actions := Then(t, actions, Deliver);
    actions := Then(t, actions, ClientStep(0, Input(SoraClient.Sent, true, C.BEGUN, 0)));
    actions := Then(t, actions, Deliver);
  }
}
