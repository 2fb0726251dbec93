/** One Sora virtual client (`zakuro/src/virtual_client.rs`), step by step from await to await. Each turn of its loop is
    one connection attempt, with a fresh lifecycle that is judged once when the attempt ends. */
module SoraClient {
  import opened Outcomes
  import opened ConnectionLifecycle
  import M = MediaObserver
  import S = Stats

  datatype Config = Config(maxRetry: nat, timed: bool, repeats: bool, scenario: bool, settings: Settings)

  datatype Choice =
    | Cancelled
    | BuildOk
    | BuildFails
    | Established
    | EstablishDropped
    | RunEnds
    | DurationElapsed
    | ScenarioReconnects
    | ScenarioExits
    | Disconnects
    | Sent
    | Slept

  /** How an await ended; `observed` and `now` are the lifecycle and the clock at that moment. */
  datatype Input = Input(choice: Choice, cancelled: bool, observed: Record, now: int)

  datatype Phase =
    | Build
    | Establish
    | SendConnected
    | Running
    | Disconnecting(reason: LifecycleEnd)
    | SendDisconnected(reason: LifecycleEnd)
    | SendRetrying
    | RetryWait
    | RepeatWait
    | SendStopped
    | Done

  /** `startedAt` is when the current attempt began; `attempts` and `recorded` count the attempts begun and the lifecycle
      ends recorded; `up` tells whether `Connected` was the last report of `Connected`, `Disconnected` and `Stopped`. None
      of the last three steers the client. */
  datatype Client = Client(
    id: nat, phase: Phase, retryCount: nat, startedAt: int, attempts: nat, recorded: nat, up: bool)

  function Begin(id: nat, now: int): Client {
    Client(id, Build, 0, now, 1, 0, false)
  }

  // ----- the verdict on one attempt -----

  function ReasonName(f: Failure): string {
    match f
    case FailedToBuild => "build-failed"
    case ConnectFailed => "connect-failed"
    case NoMediaSent => "no-media-sent"
    case NoDeliveryReport => "no-delivery-report"
    case NoMediaReceived => "no-media-received"
    case UnexpectedDisconnect => "unexpected-disconnect"
  }

  function VerdictOf(o: Outcome): S.Verdict {
    match o
    case Success => S.Success
    case Failed(reason) => S.Failure(ReasonName(reason))
    case Unjudged => S.Unjudged
  }

  /** From the start of the attempt to the connection, unless it never connected or the clock ran backwards. */
  function ConnectTime(r: Record, startedAt: int): Option<real> {
    if r.connectedAt.Some? && startedAt <= r.connectedAt.value then Some((r.connectedAt.value - startedAt) as real)
    else None
  }

  /** `write_connection_lifecycle` and the event made of its result. */
  function Ending(cfg: Config, id: nat, startedAt: int, input: Input, end: LifecycleEnd): S.StatsEvent {
    var r := MarkDisconnected(input.observed, end, input.now);
    S.ConnectionEnded(id, VerdictOf(Judge(r, cfg.settings)), IsStalled(r), ConnectTime(r, startedAt), input.now)
  }

  // ----- the steps -----

  /** What a step sends: endings go out with `try_send`, everything else waits for room. */
  datatype Output = Output(client: Client, ending: Option<S.StatsEvent>, sent: Option<S.StatsEvent>)

  function Quiet(c: Client): Option<Output> {
    Some(Output(c, None, None))
  }

  function Fail(cfg: Config, c: Client): Client {
    c.(retryCount := c.retryCount + 1, phase := if c.retryCount + 1 > cfg.maxRetry then SendStopped else SendRetrying)
  }

  function NextAttempt(c: Client, now: int): Client {
    c.(phase := Build, startedAt := now, attempts := c.attempts + 1)
  }

  function Record(cfg: Config, c: Client, input: Input, end: LifecycleEnd, next: Phase): Option<Output> {
    Some(Output(c.(phase := next, recorded := c.recorded + 1), Some(Ending(cfg, c.id, c.startedAt, input, end)), None))
  }

  /** After the end of an attempt was recorded and reported. */
  function Decide(cfg: Config, c: Client, reason: LifecycleEnd, now: int): Client {
    match reason
    case DurationExpired =>
      if cfg.repeats then c.(retryCount := 0, phase := RepeatWait) else c.(retryCount := 0, phase := SendStopped)
    case ScenarioDisconnect => NextAttempt(c.(retryCount := 0), now)
    case ScenarioExit => c.(phase := SendStopped)
    case _ => Fail(cfg, c)
  }

  function Step(cfg: Config, c: Client, input: Input): Option<Output> {
    var choice := input.choice;
    if choice.Cancelled? && !input.cancelled then None
    else
      match c.phase
      case Build =>
        if choice.BuildOk? then Quiet(c.(phase := Establish))
        else if choice.BuildFails? then
          Some(Output(Fail(cfg, c).(recorded := c.recorded + 1), Some(Ending(cfg, c.id, c.startedAt, input, BuildFailed)), None))
        else None
      case Establish =>
        if choice.Cancelled? || choice.EstablishDropped? then Quiet(c.(phase := Running))
        else if choice.Established? then Quiet(c.(phase := SendConnected))
        else if choice.RunEnds? then Record(cfg, c, input, Unexpected, SendDisconnected(Unexpected))
        else None
      case SendConnected =>
        if choice.Sent? then Some(Output(c.(phase := Running, up := true), None, Some(S.Connected(c.id)))) else None
      case Running =>
        if choice.Cancelled? then Quiet(c.(phase := Disconnecting(Shutdown)))
        else if choice.RunEnds? then Record(cfg, c, input, Unexpected, SendDisconnected(Unexpected))
        else if choice.DurationElapsed? && !cfg.scenario && cfg.timed then Quiet(c.(phase := Disconnecting(DurationExpired)))
        else if choice.ScenarioReconnects? && cfg.scenario then Quiet(c.(phase := Disconnecting(ScenarioDisconnect)))
        else if choice.ScenarioExits? && cfg.scenario then Quiet(c.(phase := Disconnecting(ScenarioExit)))
        else None
      case Disconnecting(reason) =>
        if choice.Disconnects? then
          Record(cfg, c, input, reason, if reason.Shutdown? then SendStopped else SendDisconnected(reason))
        else None
      case SendDisconnected(reason) =>
        if choice.Sent? then Some(Output(Decide(cfg, c.(up := false), reason, input.now), None, Some(S.Disconnected(c.id)))) else None
      case SendRetrying =>
        if choice.Sent? then Some(Output(c.(phase := RetryWait), None, Some(S.Retrying(c.id, c.retryCount)))) else None
      case RetryWait =>
        if choice.Cancelled? then Quiet(c.(phase := SendStopped))
        else if choice.Slept? then Quiet(NextAttempt(c, input.now))
        else None
      case RepeatWait =>
        if choice.Cancelled? then Quiet(c.(phase := SendStopped))
        else if choice.Slept? then Quiet(NextAttempt(c, input.now))
        else None
      case SendStopped =>
        if choice.Sent? then Some(Output(c.(phase := Done, up := false), None, Some(S.Stopped(c.id)))) else None
      case Done => None
  }

  function Events(o: Output): seq<S.StatsEvent> {
    (if o.ending.Some? then [o.ending.value] else []) + (if o.sent.Some? then [o.sent.value] else [])
  }

  function RunAll(cfg: Config, c: Client, script: seq<Input>): Option<(Client, seq<S.StatsEvent>)> {
    if script == [] then Some((c, []))
    else
      var before :- RunAll(cfg, c, script[..|script| - 1]);
      var after :- Step(cfg, before.0, script[|script| - 1]);
      Some((after.client, before.1 + Events(after)))
  }

  // ----- what every run keeps -----

  /** The attempt has not ended yet. */
  predicate InAttempt(p: Phase) {
    p.Build? || p.Establish? || p.SendConnected? || p.Running? || p.Disconnecting?
  }

  /** Every attempt that ended was recorded, once. */
  predicate RecordedOnce(c: Client) {
    c.attempts == c.recorded + if InAttempt(c.phase) then 1 else 0
  }

  lemma StepRecords(cfg: Config, c: Client, input: Input)
    requires RecordedOnce(c) && Step(cfg, c, input).Some?
    ensures var o := Step(cfg, c, input).value;
            && RecordedOnce(o.client) && o.client.id == c.id
            && o.client.recorded == c.recorded + (if o.ending.Some? then 1 else 0)
            && (o.ending.Some? ==> o.sent.None? && o.ending.value.ConnectionEnded?)
            && (o.sent.Some? ==> !o.sent.value.ConnectionEnded?)
  {
  }

  /** What the lifecycle has observed when an attempt ends: the facts of the samples, and the time of the connection. */
  ghost predicate Observes(r: Record, trace: seq<M.Sample>) {
    r == M.ObserveAll(trace).record.(connectedAt := r.connectedAt, end := None, disconnectedAt := None)
  }

  lemma EndingNames(cfg: Config, c: Client, input: Input, end: LifecycleEnd)
    requires input.observed.end.None? && input.observed.disconnectedAt.None?
    ensures var e, o := Ending(cfg, c.id, c.startedAt, input, end), Judge(MarkDisconnected(input.observed, end, input.now), cfg.settings);
            && (e.verdict == S.Failure("build-failed") <==> o == Failed(FailedToBuild))
            && (e.verdict == S.Failure("connect-failed") <==> o == Failed(Failure.ConnectFailed))
            && (e.verdict == S.Failure("no-media-sent") <==> o == Failed(NoMediaSent))
            && (e.verdict == S.Failure("no-delivery-report") <==> o == Failed(NoDeliveryReport))
            && (e.verdict == S.Failure("no-media-received") <==> o == Failed(NoMediaReceived))
            && (e.verdict == S.Failure("unexpected-disconnect") <==> o == Failed(UnexpectedDisconnect))
            && (e.verdict.Unjudged? <==> o.Unjudged?)
            && (e.verdict.Success? <==> o.Success?)
            && (e.stalled <==> IsStalled(input.observed))
  {
    hide Judge, ConnectTime;
    NamesDiffer();
  }

  lemma NamesDiffer()
    ensures forall f, g: Failure :: ReasonName(f) == ReasonName(g) ==> f == g
  {
    forall f: Failure, g: Failure | ReasonName(f) == ReasonName(g) ensures f == g {
      var a, b := ReasonName(f), ReasonName(g);
      assert |a| == |b| && a[0] == b[0] && (|a| > 5 ==> a[3] == b[3]);
    }
  }

  lemma EndingFacts(cfg: Config, c: Client, input: Input, end: LifecycleEnd, trace: seq<M.Sample>)
    requires Observes(input.observed, trace)
    ensures var e, s, at := Ending(cfg, c.id, c.startedAt, input, end), cfg.settings, input.observed.connectedAt;
            && e.ConnectionEnded? && e.client == c.id && e.endedAt == input.now
            && (e.verdict == S.Failure("build-failed") <==> end.BuildFailed?)
            && (e.verdict == S.Failure("connect-failed") <==> !end.BuildFailed? && at.None?)
            && (e.verdict.Unjudged? <==> !end.BuildFailed? && at.Some? && !M.Judgeable(trace, s, at, input.now))
            && (end.Unexpected? ==> !e.verdict.Success?)
            && (e.stalled <==>
                  true in M.Activity(trace) && exists i: nat :: IdleRun(M.Activity(trace), i, STALL_SAMPLES))
            && (e.connectTime ==
                  if at.Some? && c.startedAt <= at.value then Some((at.value - c.startedAt) as real) else None)
  {
    hide M.ObserveAll, M.Activity, M.Judgeable, IdleRun;
    M.StalledOverTrace(trace);
    EndingNames(cfg, c, input, end);
    M.UnjudgedMeans(trace, cfg.settings, input.observed.connectedAt, end, input.now);
    M.VerdictOfRecord(MarkDisconnected(input.observed, end, input.now), cfg.settings);
    hide VerdictOf, Judge, IsStalled, ReasonName, EveryEnabled;
  }

  lemma EndingJudged(cfg: Config, c: Client, input: Input, end: LifecycleEnd, trace: seq<M.Sample>,
      kinds: map<(M.Direction, string), MediaKind>)
    requires Observes(input.observed, trace) && M.KeepsKind(trace, kinds)
    ensures var v, s, at := Ending(cfg, c.id, c.startedAt, input, end).verdict, cfg.settings, input.observed.connectedAt;
            var judged := !end.BuildFailed? && M.Judgeable(trace, s, at, input.now);
            var sent, received := M.EveryEnabledFlows(trace, s, M.Outbound), M.EveryEnabledFlows(trace, s, M.Inbound);
            var reported := exists i :: 0 <= i < |trace| && M.ShowsReport(trace[i]);
            && (v == S.Failure("no-media-sent") <==> judged && s.expectsSend && !sent)
            && (v == S.Failure("no-delivery-report") <==> judged && s.expectsSend && sent && !reported)
            && (v == S.Failure("no-media-received") <==>
                  judged && M.SentWell(trace, s) && s.expectsReceive && !received)
            && (v == S.Failure("unexpected-disconnect") <==>
                  judged && M.SentWell(trace, s) && M.ReceivedWell(trace, s) && end.Unexpected?)
            && (v.Success? <==> judged && M.SentWell(trace, s) && M.ReceivedWell(trace, s) && !end.Unexpected?)
  {
    hide M.ObserveAll, M.Activity, M.EveryEnabledFlows, M.ShowsReport, M.Judgeable, M.SentWell, M.ReceivedWell, M.KeepsKind;
    EndingNames(cfg, c, input, end);
    hide Ending, Judge, IsStalled, ReasonName, VerdictOf;
    M.SuccessMeans(trace, kinds, cfg.settings, input.observed.connectedAt, end, input.now);
  }

  /** What is reported of an ended attempt, in terms of its samples. It failed to build or to connect exactly if it was
      never built or never established, and it is not judged exactly if there is nothing to judge it by. Where ids
      keep their kind, a judged one fails for the first that applies of: media not sent, no delivery report, media not
      received, an unexpected end; else it is a success. It was stalled exactly if media flowed and some three samples
      in a row were idle. */
  lemma EndingVerdicts(cfg: Config, c: Client, input: Input, end: LifecycleEnd, trace: seq<M.Sample>,
      kinds: map<(M.Direction, string), MediaKind>)
    requires Observes(input.observed, trace)
    ensures var e, s, at := Ending(cfg, c.id, c.startedAt, input, end), cfg.settings, input.observed.connectedAt;
            && e.client == c.id && e.endedAt == input.now
            && (e.verdict == S.Failure("build-failed") <==> end.BuildFailed?)
            && (e.verdict == S.Failure("connect-failed") <==> !end.BuildFailed? && at.None?)
            && (e.verdict.Unjudged? <==> !end.BuildFailed? && at.Some? && !M.Judgeable(trace, s, at, input.now))
            && (end.Unexpected? ==> !e.verdict.Success?)
            && (e.stalled <==>
                  true in M.Activity(trace) && exists i: nat :: IdleRun(M.Activity(trace), i, STALL_SAMPLES))
            && (e.connectTime ==
                  if at.Some? && c.startedAt <= at.value then Some((at.value - c.startedAt) as real) else None)
    ensures M.KeepsKind(trace, kinds) ==>
              var v, s, at := Ending(cfg, c.id, c.startedAt, input, end).verdict, cfg.settings, input.observed.connectedAt;
              var judged := !end.BuildFailed? && M.Judgeable(trace, s, at, input.now);
              var sent, received := M.EveryEnabledFlows(trace, s, M.Outbound), M.EveryEnabledFlows(trace, s, M.Inbound);
              var reported := exists i :: 0 <= i < |trace| && M.ShowsReport(trace[i]);
              && (v == S.Failure("no-media-sent") <==> judged && s.expectsSend && !sent)
              && (v == S.Failure("no-delivery-report") <==> judged && s.expectsSend && sent && !reported)
              && (v == S.Failure("no-media-received") <==>
                    judged && M.SentWell(trace, s) && s.expectsReceive && !received)
              && (v == S.Failure("unexpected-disconnect") <==>
                    judged && M.SentWell(trace, s) && M.ReceivedWell(trace, s) && end.Unexpected?)
              && (v.Success? <==> judged && M.SentWell(trace, s) && M.ReceivedWell(trace, s) && !end.Unexpected?)
  {
    EndingFacts(cfg, c, input, end, trace);
    hide *;
    if M.KeepsKind(trace, kinds) {
      EndingJudged(cfg, c, input, end, trace, kinds);
    }
  }

  /** Over every run: each attempt that is over was reported ended exactly once. */
  lemma {:induction false} OneEndingPerAttempt(cfg: Config, id: nat, now: int, script: seq<Input>)
    ensures var r := RunAll(cfg, Begin(id, now), script);
            r.Some? ==> RecordedOnce(r.value.0) && r.value.0.recorded == S.Endings(r.value.1)
  {
    if script != [] {
      OneEndingPerAttempt(cfg, id, now, script[..|script| - 1]);
      var before := RunAll(cfg, Begin(id, now), script[..|script| - 1]);
      if before.Some? {
        var after := Step(cfg, before.value.0, script[|script| - 1]);
        if after.Some? {
          hide Step, RecordedOnce;
          StepRecords(cfg, before.value.0, script[|script| - 1]);
          EventsEndings(before.value.1, after.value);
        }
      }
    }
  }

  lemma EventsEndings(es: seq<S.StatsEvent>, o: Output)
    requires o.ending.Some? ==> o.sent.None? && o.ending.value.ConnectionEnded?
    requires o.sent.Some? ==> !o.sent.value.ConnectionEnded?
    ensures S.Endings(es + Events(o)) == S.Endings(es) + if o.ending.Some? then 1 else 0
  {
    if Events(o) == [] {
      assert es + Events(o) == es;
    } else {
      assert (es + Events(o))[..|es|] == es;
    }
  }

  // ----- the retry counts a client reports -----

  /** The retry count as last reported: while a report is pending it lags by one, and the failure that stops the client
      is not reported as a retry. */
  function Reported(c: Client, max: nat): int {
    if c.phase.SendRetrying? || c.retryCount > max then c.retryCount - 1 else c.retryCount
  }

  /** On the way out: no more attempts follow. */
  predicate Leaving(p: Phase) {
    p.SendStopped? || p.Done?
  }

  /** The next step sets the retry count back to zero. */
  predicate Restarts(p: Phase) {
    p == SendDisconnected(DurationExpired) || p == SendDisconnected(ScenarioDisconnect)
  }

  /** The retry counts reported in a run, cut where the count was set back to zero. */
  function Pieces(cfg: Config, c: Client, script: seq<Input>): (r: seq<seq<nat>>)
    ensures r != []
  {
    if script == [] then [[]]
    else
      var init, last := script[..|script| - 1], script[|script| - 1];
      var pieces, before := Pieces(cfg, c, init), RunAll(cfg, c, init);
      if before.None? || Step(cfg, before.value.0, last).None? then pieces
      else S.Cut(pieces, S.Counts(Events(Step(cfg, before.value.0, last).value)), Restarts(before.value.0.phase))
  }

  /** The reports since the last restart are 1, 2, ... up to the retry count; a client that has used up its retries has
      reported them all, and stops. */
  ghost predicate CountsFollow(c: Client, pieces: seq<seq<nat>>, max: nat) {
    && pieces != [] && S.Paced(pieces, max)
    && |S.Last(pieces)| == Reported(c, max)
    && c.retryCount <= max + 1 && (c.retryCount == max + 1 ==> Leaving(c.phase))
  }

  lemma StepOutputs(cfg: Config, c: Client, input: Input)
    requires Step(cfg, c, input).Some?
    ensures var o := Step(cfg, c, input).value;
            && (o.ending.Some? ==> o.sent.None? && o.ending.value.ConnectionEnded?)
            && (o.sent.Some? && o.sent.value.Retrying? <==> c.phase.SendRetrying?)
            && (c.phase.SendRetrying? ==> o.sent == Some(S.Retrying(c.id, c.retryCount)))
  {
  }

  lemma OutputCounts(o: Output)
    requires o.ending.Some? ==> o.sent.None? && o.ending.value.ConnectionEnded?
    ensures |Events(o)| <= 1
    ensures S.Counts(Events(o)) == if o.sent.Some? && o.sent.value.Retrying? then [o.sent.value.retryCount] else []
  {
    if Events(o) != [] {
      assert Events(o)[..0] == [];
    }
  }

  lemma StepSends(cfg: Config, c: Client, input: Input)
    requires Step(cfg, c, input).Some?
    ensures var es := Events(Step(cfg, c, input).value);
            && |es| <= 1
            && S.Counts(es) == if c.phase.SendRetrying? then [c.retryCount] else []
  {
    hide Step, Events, S.Counts;
    StepOutputs(cfg, c, input);
    OutputCounts(Step(cfg, c, input).value);
  }

  lemma StepRetries(cfg: Config, c: Client, input: Input)
    requires Step(cfg, c, input).Some?
    requires c.retryCount <= cfg.maxRetry + 1 && (c.retryCount == cfg.maxRetry + 1 ==> Leaving(c.phase))
    ensures var next := Step(cfg, c, input).value.client;
            && next.retryCount <= cfg.maxRetry + 1
            && (next.retryCount == cfg.maxRetry + 1 ==> Leaving(next.phase))
            && Reported(next, cfg.maxRetry) == if c.phase.SendRetrying? then c.retryCount
                                               else if Restarts(c.phase) then 0
                                               else Reported(c, cfg.maxRetry)
  {
    hide Ending;
  }

  lemma StepCounts(cfg: Config, c: Client, input: Input, pieces: seq<seq<nat>>)
    requires CountsFollow(c, pieces, cfg.maxRetry) && Step(cfg, c, input).Some?
    ensures var o := Step(cfg, c, input).value; var counts := S.Counts(Events(o));
            && CountsFollow(o.client, S.Cut(pieces, counts, Restarts(c.phase)), cfg.maxRetry)
            && S.Flatten(S.Cut(pieces, counts, Restarts(c.phase))) == S.Flatten(pieces) + counts
  {
    hide Step, Events, S.Counts, S.Cut, S.Paced, S.UpTo, S.Flatten, S.Last;
    StepSends(cfg, c, input);
    StepRetries(cfg, c, input);
    S.CutKeeps(pieces, S.Counts(Events(Step(cfg, c, input).value)), Restarts(c.phase), cfg.maxRetry);
  }

  /** Over every run: between two restarts of the count, the counts reported are exactly 1, 2, ..., k, with k at most
      max_retry; those since the last restart go up to the client's own count, and one failure more than max_retry
      stops it. */
  lemma {:induction false} RetriesCountUp(cfg: Config, id: nat, now: int, script: seq<Input>)
    ensures var r, pieces := RunAll(cfg, Begin(id, now), script), Pieces(cfg, Begin(id, now), script);
            r.Some? ==>
              && CountsFollow(r.value.0, pieces, cfg.maxRetry)
              && S.Flatten(pieces) == S.Counts(r.value.1)
  {
    if script == [] {
      S.FlattenNone();
    } else {
      var init, last := script[..|script| - 1], script[|script| - 1];
      RetriesCountUp(cfg, id, now, init);
      var before := RunAll(cfg, Begin(id, now), init);
      if before.Some? {
        var after := Step(cfg, before.value.0, last);
        if after.Some? {
          hide Step, CountsFollow, S.Counts, S.Cut, S.Flatten;
          StepSends(cfg, before.value.0, last);
          S.CountsConcat(before.value.1, Events(after.value));
          StepCounts(cfg, before.value.0, last, Pieces(cfg, Begin(id, now), init));
        }
      }
    }
  }
}
