/** One MOQ virtual client (`zakuro-moq/src/moq_client.rs`). A `select!` is a choice made from outside; a step runs from
    one await to the next. The network, the session and the clock only decide which choice comes next. */
module MoqClient {
  import opened Bytes
  import opened Outcomes
  import opened Stats

  datatype SessionEnd = Closed | Migrated(uri: seq<byte>)

  /** `parse` interprets a New Session URI; `timed` and `repeats` say that the duration and the repeat interval are set
      and positive. */
  datatype Config = Config(maxRetry: nat, timed: bool, repeats: bool, parse: seq<byte> -> Option<string>)

  /** How an await ended. */
  datatype Choice =
    | Cancelled
    | ConnectOk
    | ConnectFailed
    | Established
    | EstablishDropped
    | SessionEnds(end: Option<SessionEnd>)
    | DurationElapsed
    | ShutdownWaited(finished: bool)
    | Sent
    | Slept

  datatype Input = Input(choice: Choice, cancelled: bool)

  /** Where the client awaits, with the local variables that are still needed. */
  datatype Phase =
    | Connect
    | Establish
    | SendConnected
    | Running
    | Shutdown(established: bool, byDuration: bool, finished: bool, end: Option<SessionEnd>)
    | SendDisconnected(byDuration: bool, end: Option<SessionEnd>)
    | SendRetrying
    | RetryWait
    | RepeatWait
    | SendStopped
    | Done

  /** `futureDone` tells whether the session future has completed; `passes` counts the turns of the loop, `since` those
      since the retry count was last reset, `resets` the resets after which the loop went on. None of these steer
      the client. */
  datatype Client = Client(
    id: nat, phase: Phase, retryCount: nat, endpoint: string,
    futureDone: bool, passes: nat, since: nat, resets: nat)

  function Begin(id: nat, endpoint: string): Client {
    Client(id, Connect, 0, endpoint, false, 1, 1, 0)
  }

  /** An empty URI means the current endpoint; anything else must parse. */
  function ResolveNextEndpoint(cfg: Config, current: string, uri: seq<byte>): Option<string> {
    if uri == [] then Some(current) else cfg.parse(uri)
  }

  // ----- the steps -----

  /** A failed connection or an unexpected end: count it, and retry or give up. */
  function Fail(cfg: Config, c: Client): Client {
    c.(retryCount := c.retryCount + 1, phase := if c.retryCount + 1 > cfg.maxRetry then SendStopped else SendRetrying)
  }

  function NextPass(c: Client): Client {
    c.(phase := Connect, passes := c.passes + 1, since := c.since + 1)
  }

  function Reset(c: Client): Client {
    c.(retryCount := 0, since := 0, resets := c.resets + 1)
  }

  /** The session ended by a migration that leads somewhere, or by the duration: the count starts again. */
  predicate ClearsCount(cfg: Config, c: Client, cancelled: bool, byDuration: bool, end: Option<SessionEnd>) {
    !cancelled && if end.Some? && end.value.Migrated? then ResolveNextEndpoint(cfg, c.endpoint, end.value.uri).Some? else byDuration
  }

  /** After the session is gone and its end is reported. */
  function Decide(cfg: Config, c: Client, cancelled: bool, byDuration: bool, end: Option<SessionEnd>): Client {
    if cancelled then c.(phase := SendStopped)
    else if end.Some? && end.value.Migrated? then
      var next := ResolveNextEndpoint(cfg, c.endpoint, end.value.uri);
      if next.None? then c.(phase := SendStopped)
      else NextPass(Reset(c.(endpoint := next.value)))
    else if byDuration then
      if cfg.repeats then Reset(c).(phase := RepeatWait) else c.(retryCount := 0, phase := SendStopped)
    else
      Fail(cfg, c)
  }

  /** The next state and the event sent, or None when the client is not waiting for that choice. */
  function Step(cfg: Config, c: Client, input: Input): Option<(Client, seq<StatsEvent>)> {
    var choice, cancelled := input.choice, input.cancelled;
    if choice.Cancelled? && !cancelled then None
    else
      match c.phase
      case Connect =>
        match choice {
          case Cancelled => Some((c.(phase := SendStopped), []))
          case ConnectOk => Some((c.(phase := Establish, futureDone := false), []))
          case ConnectFailed => Some((Fail(cfg, c), []))
          case _ => None
        }
      case Establish =>
        match choice {
          case Cancelled => Some((c.(phase := Shutdown(false, false, false, None)), []))
          case Established => Some((c.(phase := SendConnected), []))
          case EstablishDropped => Some((c.(phase := Shutdown(false, false, false, None)), []))
          case SessionEnds(end) => Some((c.(phase := Shutdown(false, false, true, end), futureDone := true), []))
          case _ => None
        }
      case SendConnected =>
        if choice.Sent? then Some((c.(phase := Running), [Connected(c.id)])) else None
      case Running =>
        match choice {
          case Cancelled => Some((c.(phase := Shutdown(true, false, false, None)), []))
          case DurationElapsed => if cfg.timed then Some((c.(phase := Shutdown(true, true, false, None)), [])) else None
          case SessionEnds(end) => Some((c.(phase := Shutdown(true, false, true, end), futureDone := true), []))
          case _ => None
        }
      case Shutdown(established, byDuration, finished, end) =>
        if choice.ShutdownWaited? && (finished ==> !choice.finished) then
          var c1 := c.(futureDone := c.futureDone || choice.finished);
          if established then Some((c1.(phase := SendDisconnected(byDuration, end)), []))
          else Some((Decide(cfg, c1, cancelled, byDuration, end), []))
        else None
      case SendDisconnected(byDuration, end) =>
        if choice.Sent? then Some((Decide(cfg, c, cancelled, byDuration, end), [Disconnected(c.id)])) else None
      case SendRetrying =>
        if choice.Sent? then Some((c.(phase := RetryWait), [Retrying(c.id, c.retryCount)])) else None
      case RetryWait =>
        match choice {
          case Cancelled => Some((c.(phase := SendStopped), []))
          case Slept => Some((NextPass(c), []))
          case _ => None
        }
      case RepeatWait =>
        match choice {
          case Cancelled => Some((c.(phase := SendStopped), []))
          case Slept => Some((NextPass(c), []))
          case _ => None
        }
      case SendStopped =>
        if choice.Sent? then Some((c.(phase := Done), [Stopped(c.id)])) else None
      case Done => None
  }

  function RunAll(cfg: Config, c: Client, script: seq<Input>): Option<(Client, seq<StatsEvent>)> {
    if script == [] then Some((c, []))
    else
      var before :- RunAll(cfg, c, script[..|script| - 1]);
      var after :- Step(cfg, before.0, script[|script| - 1]);
      Some((after.0, before.1 + after.1))
  }

  // ----- what every run keeps -----

  /** The client has reported that it is connected, and not yet that it is not. */
  datatype Status = Down | Up | Gone

  function StatusOf(c: Client): Status {
    match c.phase
    case Running => Up
    case Shutdown(established, _, _, _) => if established then Up else Down
    case SendDisconnected(_, _) => Up
    case Done => Gone
    case _ => Down
  }

  /** The states in which the next await polls the session future. */
  predicate PollsSession(c: Client) {
    match c.phase
    case Establish => true
    case Running => true
    case Shutdown(_, _, finished, _) => !finished
    case _ => false
  }

  /** In a pass of the loop, which has not failed yet. */
  predicate InPass(p: Phase) {
    p.Connect? || p.Establish? || p.SendConnected? || p.Running? || p.Shutdown? || p.SendDisconnected?
  }

  /** The turns of the loop that so many resets allow. */
  function Allowed(cfg: Config, resets: nat): nat {
    (resets + 1) * (cfg.maxRetry + 1)
  }

  lemma AllowedMore(cfg: Config, resets: nat)
    ensures Allowed(cfg, 0) == cfg.maxRetry + 1
    ensures Allowed(cfg, resets + 1) == Allowed(cfg, resets) + cfg.maxRetry + 1
  {
    assert (0 + 1) * (cfg.maxRetry + 1) == cfg.maxRetry + 1;
    assert (resets + 1 + 1) * (cfg.maxRetry + 1) == (resets + 1) * (cfg.maxRetry + 1) + (cfg.maxRetry + 1);
  }

  /** The loop has not outrun its retry budget. */
  predicate Budget(cfg: Config, c: Client) {
    && c.since <= cfg.maxRetry + 1
    && c.passes + (cfg.maxRetry + 1 - c.since) <= Allowed(cfg, c.resets)
  }

  predicate Inv(cfg: Config, c: Client) {
    && Budget(cfg, c)
    && (PollsSession(c) || c.phase.SendConnected? ==> !c.futureDone)
    && (InPass(c.phase) ==> c.since == c.retryCount + 1)
    && (c.phase.SendRetrying? || c.phase.RetryWait? ==> 1 <= c.since == c.retryCount <= cfg.maxRetry)
    && (c.phase.RepeatWait? ==> c.since == c.retryCount == 0 && cfg.repeats)
  }

  lemma ResetKeeps(cfg: Config, c: Client)
    requires Budget(cfg, c)
    ensures Budget(cfg, Reset(c))
  {
    AllowedMore(cfg, c.resets);
    hide Allowed;
  }

  lemma FreshPass(cfg: Config, c: Client)
    requires Budget(cfg, c)
    ensures Inv(cfg, NextPass(Reset(c)))
    ensures cfg.repeats ==> Inv(cfg, Reset(c).(phase := RepeatWait))
  {
    ResetKeeps(cfg, c);
    hide Allowed;
  }

  lemma DecideKeeps(cfg: Config, c: Client, cancelled: bool, byDuration: bool, end: Option<SessionEnd>)
    requires Budget(cfg, c) && c.since == c.retryCount + 1
    ensures Inv(cfg, Decide(cfg, c, cancelled, byDuration, end))
  {
    FreshPass(cfg, c);
    hide Allowed, ResolveNextEndpoint;
    if !cancelled && end.Some? && end.value.Migrated? && ResolveNextEndpoint(cfg, c.endpoint, end.value.uri).Some? {
      FreshPass(cfg, c.(endpoint := ResolveNextEndpoint(cfg, c.endpoint, end.value.uri).value));
      hide Inv, Budget, NextPass, Reset;
    }
  }

  lemma StepKeeps(cfg: Config, c: Client, input: Input)
    requires Inv(cfg, c) && Step(cfg, c, input).Some?
    ensures Inv(cfg, Step(cfg, c, input).value.0)
  {
    hide Decide, ResolveNextEndpoint, Allowed;
    match c.phase
    case Shutdown(established, byDuration, finished, end) =>
      var c1 := c.(futureDone := c.futureDone || input.choice.finished);
      DecideKeeps(cfg, c1, input.cancelled, byDuration, end);
    case SendDisconnected(byDuration, end) =>
      DecideKeeps(cfg, c, input.cancelled, byDuration, end);
    case _ =>
  }

  /** Over every run: a completed session future is never polled again, and the loop turns at most max_retry + 1 times between resets. */
  lemma {:induction false} RunKeeps(cfg: Config, id: nat, start: string, script: seq<Input>)
    ensures var r := RunAll(cfg, Begin(id, start), script); r.Some? ==> Inv(cfg, r.value.0)
  {
    if script == [] {
      AllowedMore(cfg, 0);
    } else {
      hide Inv, Step;
      RunKeeps(cfg, id, start, script[..|script| - 1]);
      var before := RunAll(cfg, Begin(id, start), script[..|script| - 1]);
      if before.Some? && Step(cfg, before.value.0, script[|script| - 1]).Some? {
        StepKeeps(cfg, before.value.0, script[|script| - 1]);
      }
    }
  }

  lemma NeverPollsFinished(cfg: Config, id: nat, start: string, script: seq<Input>)
    ensures var r := RunAll(cfg, Begin(id, start), script); r.Some? && PollsSession(r.value.0) ==> !r.value.0.futureDone
  {
    RunKeeps(cfg, id, start, script);
  }

  // ----- the retry counts a client reports -----

  /** The retry count as last reported: while a report is pending it lags by one, and the failure that stops the client
      is not reported as a retry. */
  function Reported(c: Client, max: nat): int {
    if c.phase.SendRetrying? || c.retryCount > max then c.retryCount - 1 else c.retryCount
  }

  /** On the way out: no more passes follow. */
  predicate Leaving(p: Phase) {
    p.SendStopped? || p.Done?
  }

  /** The step sets the retry count back to zero. */
  predicate Restarts(cfg: Config, c: Client, input: Input) {
    match c.phase
    case Shutdown(established, byDuration, _, end) => !established && ClearsCount(cfg, c, input.cancelled, byDuration, end)
    case SendDisconnected(byDuration, end) => ClearsCount(cfg, c, input.cancelled, byDuration, end)
    case _ => false
  }

  /** The retry counts reported in a run, cut where the count was set back to zero. */
  function Pieces(cfg: Config, c: Client, script: seq<Input>): (r: seq<seq<nat>>)
    ensures r != []
  {
    if script == [] then [[]]
    else
      var init, last := script[..|script| - 1], script[|script| - 1];
      var pieces, before := Pieces(cfg, c, init), RunAll(cfg, c, init);
      if before.None? || Step(cfg, before.value.0, last).None? then pieces
      else Cut(pieces, Counts(Step(cfg, before.value.0, last).value.1), Restarts(cfg, before.value.0, last))
  }

  /** The reports since the last restart are 1, 2, ... up to the retry count; a client that has used up its retries has
      reported them all, and stops. */
  ghost predicate CountsFollow(c: Client, pieces: seq<seq<nat>>, max: nat) {
    && pieces != [] && Paced(pieces, max)
    && |Last(pieces)| == Reported(c, max)
    && c.retryCount <= max + 1 && (c.retryCount == max + 1 ==> Leaving(c.phase))
  }

  lemma StepSends(cfg: Config, c: Client, input: Input)
    requires Step(cfg, c, input).Some?
    ensures var es := Step(cfg, c, input).value.1;
            |es| <= 1 && Counts(es) == if c.phase.SendRetrying? then [c.retryCount] else []
  {
    hide Decide, Fail;
    var es := Step(cfg, c, input).value.1;
    if es != [] {
      assert es[..0] == [];
    }
  }

  lemma DecideRetries(cfg: Config, c: Client, cancelled: bool, byDuration: bool, end: Option<SessionEnd>)
    requires c.retryCount <= cfg.maxRetry
    ensures var next := Decide(cfg, c, cancelled, byDuration, end);
            && next.retryCount <= cfg.maxRetry + 1
            && (next.retryCount == cfg.maxRetry + 1 ==> Leaving(next.phase))
            && Reported(next, cfg.maxRetry) == if ClearsCount(cfg, c, cancelled, byDuration, end) then 0 else c.retryCount
  {
    hide ResolveNextEndpoint;
  }

  lemma StepRetries(cfg: Config, c: Client, input: Input)
    requires Step(cfg, c, input).Some?
    requires c.retryCount <= cfg.maxRetry + 1 && (c.retryCount == cfg.maxRetry + 1 ==> Leaving(c.phase))
    ensures var next := Step(cfg, c, input).value.0;
            && next.retryCount <= cfg.maxRetry + 1
            && (next.retryCount == cfg.maxRetry + 1 ==> Leaving(next.phase))
            && Reported(next, cfg.maxRetry) == if c.phase.SendRetrying? then c.retryCount
                                               else if Restarts(cfg, c, input) then 0
                                               else Reported(c, cfg.maxRetry)
  {
    hide Decide, ResolveNextEndpoint;
    match c.phase
    case Shutdown(established, byDuration, finished, end) =>
      DecideRetries(cfg, c.(futureDone := c.futureDone || input.choice.finished), input.cancelled, byDuration, end);
    case SendDisconnected(byDuration, end) =>
      DecideRetries(cfg, c, input.cancelled, byDuration, end);
    case _ =>
  }

  lemma StepCounts(cfg: Config, c: Client, input: Input, pieces: seq<seq<nat>>)
    requires CountsFollow(c, pieces, cfg.maxRetry) && Step(cfg, c, input).Some?
    ensures var (next, es) := Step(cfg, c, input).value; var more := Cut(pieces, Counts(es), Restarts(cfg, c, input));
            CountsFollow(next, more, cfg.maxRetry) && Flatten(more) == Flatten(pieces) + Counts(es)
  {
    hide Step, Counts, Cut, Paced, UpTo, Flatten, Last, ClearsCount;
    StepSends(cfg, c, input);
    StepRetries(cfg, c, input);
    CutKeeps(pieces, Counts(Step(cfg, c, input).value.1), Restarts(cfg, c, input), cfg.maxRetry);
  }

  /** Over every run: between two restarts of the count, the counts reported are exactly 1, 2, ..., k, with k at most
      max_retry; those since the last restart go up to the client's own count, and one failure more than max_retry
      stops it. */
  lemma {:induction false} RetriesCountUp(cfg: Config, id: nat, start: string, script: seq<Input>)
    ensures var r, pieces := RunAll(cfg, Begin(id, start), script), Pieces(cfg, Begin(id, start), script);
            r.Some? ==> CountsFollow(r.value.0, pieces, cfg.maxRetry) && Flatten(pieces) == Counts(r.value.1)
  {
    if script == [] {
      FlattenNone();
    } else {
      var init, last := script[..|script| - 1], script[|script| - 1];
      RetriesCountUp(cfg, id, start, init);
      var before := RunAll(cfg, Begin(id, start), init);
      if before.Some? {
        var after := Step(cfg, before.value.0, last);
        if after.Some? {
          hide Step, CountsFollow, Counts, Cut, Flatten;
          StepSends(cfg, before.value.0, last);
          CountsConcat(before.value.1, after.value.1);
          StepCounts(cfg, before.value.0, last, Pieces(cfg, Begin(id, start), init));
        }
      }
    }
  }

  lemma InvBounds(cfg: Config, c: Client)
    requires Inv(cfg, c)
    ensures c.passes <= Allowed(cfg, c.resets)
    ensures c.resets == 0 ==> c.passes <= cfg.maxRetry + 1
  {
    AllowedMore(cfg, 0);
  }

  /** The loop turns at most max_retry + 1 times between resets. */
  lemma RetryBudget(cfg: Config, id: nat, start: string, script: seq<Input>)
    ensures var r := RunAll(cfg, Begin(id, start), script);
            r.Some? ==>
              var c := r.value.0;
              c.passes <= (c.resets + 1) * (cfg.maxRetry + 1) && (c.resets == 0 ==> c.passes <= cfg.maxRetry + 1)
  {
    hide Inv, RunAll;
    RunKeeps(cfg, id, start, script);
    var r := RunAll(cfg, Begin(id, start), script);
    if r.Some? {
      InvBounds(cfg, r.value.0);
    }
  }
}
