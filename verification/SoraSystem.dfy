/** Any number of Sora clients, the event channel and the aggregator, interleaved in any way: no ending is lost unseen. */
module SoraSystem {
  import opened Outcomes
  import opened Stats
  import opened SoraClient

  /** `refused` counts the endings that `try_send` could not place. */
  datatype System = System(
    clients: seq<Client>, queue: seq<StatsEvent>, delivered: seq<StatsEvent>, aggregate: Aggregate,
    refused: nat, cancelled: bool, aggregating: bool)

  datatype Action =
    | ClientStep(client: nat, input: Input)
    | Deliver
    | Cancel
    | StopAggregator

  datatype Trial = Trial(cfgs: seq<Config>, startedAt: int, warmup: nat)

  function Launch(t: Trial): System {
    var n := |t.cfgs|;
    System(seq(n, i requires 0 <= i < n => Begin(i, t.startedAt)), [], [], Aggregate(Initial(n), NO_TOTALS), 0, false, true)
  }

  /** `try_send`: refused when the channel is full or nobody receives. */
  function TrySend(s: System, e: StatsEvent): System {
    if s.aggregating && |s.queue| < CAPACITY then s.(queue := s.queue + [e]) else s.(refused := s.refused + 1)
  }

  /** What a client's step does to the channel: a `send` blocks while it is full, and is lost when nobody receives. */
  function Sent(s: System, o: Output): Option<System> {
    if o.ending.Some? then Some(TrySend(s, o.ending.value))
    else if o.sent.None? || !s.aggregating then Some(s)
    else if |s.queue| >= CAPACITY then None
    else Some(s.(queue := s.queue + [o.sent.value]))
  }

  function Act(t: Trial, s: System, a: Action): Option<System>
    requires |t.cfgs| == |s.clients|
  {
    match a
    case ClientStep(i, input) =>
      if i >= |s.clients| || input.cancelled != s.cancelled then None
      else
        var o :- Step(t.cfgs[i], s.clients[i], input);
        Sent(s.(clients := s.clients[i := o.client]), o)
    case Deliver =>
      if !s.aggregating || s.queue == [] then None
      else Some(s.(queue := s.queue[1..], delivered := s.delivered + [s.queue[0]],
                   aggregate := Fold(s.aggregate, s.queue[0], t.startedAt, t.warmup)))
    case Cancel => Some(s.(cancelled := true))
    case StopAggregator => if s.cancelled then Some(s.(aggregating := false)) else None
  }

  function Exec(t: Trial, actions: seq<Action>): (r: Option<System>)
    ensures r.Some? ==> |r.value.clients| == |t.cfgs|
  {
    if actions == [] then Some(Launch(t))
    else
      var before :- Exec(t, actions[..|actions| - 1]);
      Act(t, before, actions[|actions| - 1])
  }

  function Attempts(cs: seq<Client>): nat {
    if cs == [] then 0 else Attempts(cs[..|cs| - 1]) + cs[|cs| - 1].attempts
  }

  function Recorded(cs: seq<Client>): nat {
    if cs == [] then 0 else Recorded(cs[..|cs| - 1]) + cs[|cs| - 1].recorded
  }

  /** The attempts still under way. */
  function Open(cs: seq<Client>): nat {
    if cs == [] then 0 else Open(cs[..|cs| - 1]) + if InAttempt(cs[|cs| - 1].phase) then 1 else 0
  }

  lemma {:induction false} RecordedUpdate(cs: seq<Client>, i: nat, c: Client)
    requires i < |cs|
    ensures Recorded(cs[i := c]) == Recorded(cs) - cs[i].recorded + c.recorded
  {
    if i == |cs| - 1 {
      assert cs[i := c][..i] == cs[..i];
    } else {
      assert cs[i := c][..|cs| - 1] == cs[..|cs| - 1][i := c];
      RecordedUpdate(cs[..|cs| - 1], i, c);
    }
  }

  lemma {:induction false} AttemptsSplit(cs: seq<Client>)
    requires forall i :: 0 <= i < |cs| ==> RecordedOnce(cs[i])
    ensures Attempts(cs) == Recorded(cs) + Open(cs)
  {
    if cs != [] {
      AttemptsSplit(cs[..|cs| - 1]);
    }
  }

  lemma EndingsAppend(es: seq<StatsEvent>, e: StatsEvent)
    ensures Endings(es + [e]) == Endings(es) + if e.ConnectionEnded? then 1 else 0
  {
    assert (es + [e])[..|es|] == es;
  }

  lemma {:induction false} EndingsConcat(a: seq<StatsEvent>, b: seq<StatsEvent>)
    ensures Endings(a + b) == Endings(a) + Endings(b)
    decreases |b|
  {
    if b == [] {
      assert a + b == a;
    } else {
      assert (a + b)[..|a + b| - 1] == a + b[..|b| - 1];
      EndingsConcat(a, b[..|b| - 1]);
    }
  }

  ghost predicate SystemInv(t: Trial, s: System) {
    && |s.clients| == |t.cfgs|
    && (forall i :: 0 <= i < |s.clients| ==> RecordedOnce(s.clients[i]))
    && s.aggregate == FoldAll(Aggregate(Initial(|t.cfgs|), NO_TOTALS), s.delivered, t.startedAt, t.warmup)
    && Recorded(s.clients) == Endings(s.delivered) + Endings(s.queue) + s.refused
  }

  /** A client's step sends an ending exactly when it records one. */
  lemma SendKeeps(s: System, o: Output)
    requires o.ending.Some? ==> o.sent.None? && o.ending.value.ConnectionEnded?
    requires o.sent.Some? ==> !o.sent.value.ConnectionEnded?
    requires Sent(s, o).Some?
    ensures var r := Sent(s, o).value;
            && r == s.(queue := r.queue, refused := r.refused)
            && Endings(r.queue) + r.refused == Endings(s.queue) + s.refused + (if o.ending.Some? then 1 else 0)
  {
    hide Endings;
    if o.ending.Some? {
      EndingsAppend(s.queue, o.ending.value);
    } else if o.sent.Some? {
      EndingsAppend(s.queue, o.sent.value);
    }
  }

  lemma ClientStepKeeps(t: Trial, s: System, i: nat, input: Input)
    requires SystemInv(t, s) && Act(t, s, ClientStep(i, input)).Some?
    ensures SystemInv(t, Act(t, s, ClientStep(i, input)).value)
  {
    hide Step, RecordedOnce, FoldAll, Recorded, Endings, Sent;
    StepRecords(t.cfgs[i], s.clients[i], input);
    var o := Step(t.cfgs[i], s.clients[i], input).value;
    RecordedUpdate(s.clients, i, o.client);
    SendKeeps(s.(clients := s.clients[i := o.client]), o);
  }

  lemma DeliverKeeps(t: Trial, s: System)
    requires SystemInv(t, s) && Act(t, s, Deliver).Some?
    ensures SystemInv(t, Act(t, s, Deliver).value)
  {
    hide Fold, Recorded;
    var e := s.queue[0];
    FoldAllAppend(Aggregate(Initial(|t.cfgs|), NO_TOTALS), s.delivered, e, t.startedAt, t.warmup);
    EndingsAppend(s.delivered, e);
    assert s.queue == [e] + s.queue[1..];
    EndingsConcat([e], s.queue[1..]);
    EndingsAppend([], e);
    assert [] + [e] == [e];
  }

  lemma {:induction false} RecordedNone(n: nat, now: int)
    ensures Recorded(seq(n, i requires 0 <= i < n => Begin(i, now))) == 0
  {
    if n > 0 {
      var cs := seq(n, i requires 0 <= i < n => Begin(i, now));
      assert cs[..n - 1] == seq(n - 1, i requires 0 <= i < n - 1 => Begin(i, now));
      RecordedNone(n - 1, now);
    }
  }

  lemma {:induction false} ExecKeeps(t: Trial, actions: seq<Action>)
    ensures var r := Exec(t, actions); r.Some? ==> SystemInv(t, r.value)
  {
    if actions == [] {
      RecordedNone(|t.cfgs|, t.startedAt);
    } else {
      var init, a := actions[..|actions| - 1], actions[|actions| - 1];
      ExecKeeps(t, init);
      var before := Exec(t, init);
      if before.Some? && Act(t, before.value, a).Some? {
        match a
        case ClientStep(i, input) => ClientStepKeeps(t, before.value, i, input);
        case Deliver => DeliverKeeps(t, before.value);
        case _ =>
      }
    }
  }

  /** In every interleaving: the attempts begun are those still open, those counted by verdict, those excluded by the
      warm-up, those refused by `try_send` and those still queued. Live counts and totals agree, and the failure
      reasons add up to the failures. */
  lemma AttemptsConserved(t: Trial, actions: seq<Action>)
    ensures var r := Exec(t, actions);
            r.Some? ==>
              var s, totals := r.value, r.value.aggregate.totals;
              && Attempts(s.clients) == Open(s.clients) + totals.success + totals.failure + totals.unjudged
                                      + totals.warmupExcluded + s.refused + Endings(s.queue)
              && s.aggregate.snapshot.success == totals.success
              && s.aggregate.snapshot.failure == totals.failure
              && s.aggregate.snapshot.unjudged == totals.unjudged
              && s.aggregate.snapshot.stalled == totals.stalled
              && SumCounts(totals.failureReasons) == totals.failure && DistinctKeys(totals.failureReasons)
  {
    ExecKeeps(t, actions);
    var r := Exec(t, actions);
    if r.Some? {
      AttemptsSplit(r.value.clients);
      CountsAgree(|t.cfgs|, r.value.delivered, t.startedAt, t.warmup);
    }
  }
}
