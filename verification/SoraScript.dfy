/** What a run of a Sora client comes to, read off its script alone: every event it reports, what ended each attempt and
    what stopped it (`zakuro/src/virtual_client.rs`). */
module SoraScript {
  import opened Outcomes
  import opened SoraClient
  import L = ConnectionLifecycle
  import S = Stats

  /** The choice `k` inputs before the last. */
  function Back(script: seq<Input>, k: nat): Option<Choice> {
    if k < |script| then Some(script[|script| - 1 - k].choice) else None
  }

  /** Why a connection is being disconnected. */
  function Reason(choice: Option<Choice>): L.LifecycleEnd {
    if choice == Some(DurationElapsed) then L.DurationExpired
    else if choice == Some(ScenarioReconnects) then L.ScenarioDisconnect
    else if choice == Some(ScenarioExits) then L.ScenarioExit
    else L.LifecycleEnd.Shutdown
  }

  /** The attempt ends with the last input, and how. */
  function EndsNow(script: seq<Input>): Option<L.LifecycleEnd> {
    if Back(script, 0) == Some(BuildFails) then Some(L.BuildFailed)
    else if Back(script, 0) == Some(RunEnds) then Some(L.Unexpected)
    else if Back(script, 0) == Some(Disconnects) then Some(Reason(Back(script, 1)))
    else None
  }

  /** The disconnection has been reported. */
  predicate ReportsNow(script: seq<Input>) {
    Back(script, 0) == Some(Sent) && (Back(script, 1) == Some(RunEnds) || ClosedNow(script))
  }

  /** It followed a disconnect of our own. */
  predicate ClosedNow(script: seq<Input>) {
    Back(script, 0) == Some(Sent) && Back(script, 1) == Some(Disconnects) && Back(script, 2) != Some(Cancelled)
  }

  /** A failed build, or the reported end of a connection that nobody asked for. */
  predicate FailsNow(script: seq<Input>) {
    Back(script, 0) == Some(BuildFails) || (Back(script, 0) == Some(Sent) && Back(script, 1) == Some(RunEnds))
  }

  /** A scenario's reconnect, or the duration with a repeat interval: the client starts afresh. */
  predicate AfreshNow(cfg: Config, script: seq<Input>) {
    ClosedNow(script)
    && (Back(script, 2) == Some(ScenarioReconnects) || (Back(script, 2) == Some(DurationElapsed) && cfg.repeats))
  }

  /** A cancellation while waiting or of a connection, a scenario's exit, or the duration without a repeat interval. */
  predicate StopsNow(cfg: Config, script: seq<Input>) {
    || (Back(script, 0) == Some(Cancelled) && Back(script, 1) == Some(Sent) && Back(script, 2) != Some(Established))
    || (Back(script, 0) == Some(Disconnects) && Back(script, 1) == Some(Cancelled))
    || (ClosedNow(script) && !AfreshNow(cfg, script))
  }

  /** The failures since the client last started afresh. */
  function Failures(cfg: Config, script: seq<Input>): nat {
    if script == [] then 0
    else if AfreshNow(cfg, script) then 0
    else Failures(cfg, script[..|script| - 1]) + if FailsNow(script) then 1 else 0
  }

  predicate HasStopped(cfg: Config, script: seq<Input>) {
    script != [] && (HasStopped(cfg, script[..|script| - 1]) || StopsNow(cfg, script) || Failures(cfg, script) > cfg.maxRetry)
  }

  /** An attempt begins after a sleep, and at once after a scenario's reconnect. */
  predicate BeginsNow(script: seq<Input>) {
    Back(script, 0) == Some(Slept) || (ClosedNow(script) && Back(script, 2) == Some(ScenarioReconnects))
  }

  /** When the attempt under way began. */
  function BeganAt(script: seq<Input>, launchedAt: int): int {
    if script == [] then launchedAt
    else if BeginsNow(script) then script[|script| - 1].now
    else BeganAt(script[..|script| - 1], launchedAt)
  }

  /** How many attempts have begun. */
  function Begun(script: seq<Input>): nat {
    if script == [] then 1 else Begun(script[..|script| - 1]) + if BeginsNow(script) then 1 else 0
  }

  /** What is reported with the last input. */
  function LogNow(cfg: Config, id: nat, launchedAt: int, script: seq<Input>): seq<S.StatsEvent>
    requires script != []
  {
    var init, last := script[..|script| - 1], script[|script| - 1];
    if EndsNow(script).Some? then [Ending(cfg, id, BeganAt(init, launchedAt), last, EndsNow(script).value)]
    else if !last.choice.Sent? then []
    else if HasStopped(cfg, init) then [S.Stopped(id)]
    else if Back(script, 1) == Some(Established) then [S.Connected(id)]
    else if ReportsNow(script) then [S.Disconnected(id)]
    else [S.Retrying(id, Failures(cfg, init))]
  }

  function Log(cfg: Config, id: nat, launchedAt: int, script: seq<Input>): seq<S.StatsEvent> {
    if script == [] then [] else Log(cfg, id, launchedAt, script[..|script| - 1]) + LogNow(cfg, id, launchedAt, script)
  }

  // ----- the phases and the last inputs -----

  /** The last inputs tell where the client is. */
  predicate Trail(c: Client, script: seq<Input>) {
    match c.phase
    case Build => Back(script, 0) in {None, Some(Slept)} || (Back(script, 0) == Some(Sent) && Back(script, 1) == Some(Disconnects))
    case Establish => Back(script, 0) == Some(BuildOk)
    case SendConnected => Back(script, 0) == Some(Established)
    case Running =>
      || (Back(script, 0) in {Some(Cancelled), Some(EstablishDropped)} && Back(script, 1) == Some(BuildOk))
      || (Back(script, 0) == Some(Sent) && Back(script, 1) == Some(Established))
    case Disconnecting(reason) =>
      && Back(script, 0) in {Some(Cancelled), Some(DurationElapsed), Some(ScenarioReconnects), Some(ScenarioExits)}
      && reason == Reason(Back(script, 0))
    case SendDisconnected(reason) =>
      || (Back(script, 0) == Some(RunEnds) && reason.Unexpected?)
      || (Back(script, 0) == Some(Disconnects)
          && Back(script, 1) in {Some(DurationElapsed), Some(ScenarioReconnects), Some(ScenarioExits)}
          && reason == Reason(Back(script, 1)))
    case SendRetrying => Back(script, 0) == Some(BuildFails) || (Back(script, 0) == Some(Sent) && Back(script, 1) == Some(RunEnds))
    case RetryWait => Back(script, 0) == Some(Sent) && Back(script, 1) in {Some(BuildFails), Some(Sent)}
    case RepeatWait => Back(script, 0) == Some(Sent) && Back(script, 1) == Some(Disconnects)
    case SendStopped =>
      Back(script, 0) in {Some(BuildFails), Some(Sent), Some(Cancelled)}
      || (Back(script, 0) == Some(Disconnects) && Back(script, 1) == Some(Cancelled))
    case Done => true
  }

  lemma BackOn(script: seq<Input>, input: Input, k: nat)
    ensures Back(script + [input], 0) == Some(input.choice)
    ensures Back(script + [input], k + 1) == Back(script, k)
  {
  }

  lemma BackOnAll(script: seq<Input>, input: Input)
    ensures var more := script + [input];
            Back(more, 0) == Some(input.choice) && Back(more, 1) == Back(script, 0) && Back(more, 2) == Back(script, 1)
    ensures (script + [input])[..|script|] == script
  {
    BackOn(script, input, 0);
    BackOn(script, input, 1);
  }

  /** What the inputs so far come to, and the client's own variables. */
  ghost predicate Tells(cfg: Config, launchedAt: int, c: Client, script: seq<Input>) {
    && Trail(c, script)
    && (Leaving(c.phase) <==> HasStopped(cfg, script))
    && (!Leaving(c.phase) ==> c.retryCount == Failures(cfg, script))
    && c.startedAt == BeganAt(script, launchedAt)
    && c.attempts == Begun(script)
  }

  lemma StepTrail(cfg: Config, c: Client, script: seq<Input>, input: Input)
    requires Trail(c, script) && Step(cfg, c, input).Some?
    ensures Trail(Step(cfg, c, input).value.client, script + [input])
  {
    hide Back, Ending;
    BackOnAll(script, input);
  }

  /** What the step does, by the kind of its input. */
  ghost predicate StepSays(cfg: Config, c: Client, input: Input, next: Client, more: seq<Input>) {
    && (AfreshNow(cfg, more) ==> !FailsNow(more) && !StopsNow(cfg, more) && next.retryCount == 0 && !Leaving(next.phase))
    && (FailsNow(more) ==>
          !StopsNow(cfg, more) && next.retryCount == c.retryCount + 1
          && (Leaving(next.phase) <==> c.retryCount + 1 > cfg.maxRetry))
    && (StopsNow(cfg, more) ==> Leaving(next.phase))
    && (!AfreshNow(cfg, more) && !FailsNow(more) && !StopsNow(cfg, more) && !Leaving(c.phase) ==>
          next.retryCount == c.retryCount && !Leaving(next.phase))
    && (Leaving(c.phase) ==> Leaving(next.phase) && !AfreshNow(cfg, more) && !FailsNow(more))
    && next.startedAt == (if BeginsNow(more) then input.now else c.startedAt)
    && next.attempts == c.attempts + (if BeginsNow(more) then 1 else 0)
    && next.id == c.id
  }

  lemma DecideSays(cfg: Config, c: Client, script: seq<Input>, input: Input)
    requires Trail(c, script) && Step(cfg, c, input).Some? && c.phase.SendDisconnected?
    ensures StepSays(cfg, c, input, Step(cfg, c, input).value.client, script + [input])
  {
    hide Back, Ending;
    BackOnAll(script, input);
  }

  lemma OtherSays(cfg: Config, c: Client, script: seq<Input>, input: Input)
    requires Trail(c, script) && Step(cfg, c, input).Some? && !c.phase.SendDisconnected?
    ensures StepSays(cfg, c, input, Step(cfg, c, input).value.client, script + [input])
  {
    hide Back, Ending, Decide;
    BackOnAll(script, input);
  }

  lemma StepSaysSo(cfg: Config, c: Client, script: seq<Input>, input: Input)
    requires Trail(c, script) && Step(cfg, c, input).Some?
    ensures StepSays(cfg, c, input, Step(cfg, c, input).value.client, script + [input])
  {
    hide *;
    if c.phase.SendDisconnected? {
      DecideSays(cfg, c, script, input);
    } else {
      OtherSays(cfg, c, script, input);
    }
  }

  lemma FailuresOn(cfg: Config, launchedAt: int, script: seq<Input>, input: Input)
    ensures var more := script + [input];
            && Failures(cfg, more)
               == (if AfreshNow(cfg, more) then 0 else Failures(cfg, script) + if FailsNow(more) then 1 else 0)
            && (HasStopped(cfg, more) <==> HasStopped(cfg, script) || StopsNow(cfg, more) || Failures(cfg, more) > cfg.maxRetry)
            && BeganAt(more, launchedAt) == (if BeginsNow(more) then input.now else BeganAt(script, launchedAt))
            && Begun(more) == Begun(script) + (if BeginsNow(more) then 1 else 0)
  {
    assert (script + [input])[..|script|] == script;
  }

  lemma StepTells(cfg: Config, launchedAt: int, c: Client, script: seq<Input>, input: Input)
    requires Tells(cfg, launchedAt, c, script) && Step(cfg, c, input).Some?
    requires !Leaving(c.phase) ==> c.retryCount <= cfg.maxRetry
    ensures Tells(cfg, launchedAt, Step(cfg, c, input).value.client, script + [input])
  {
    StepTrail(cfg, c, script, input);
    StepSaysSo(cfg, c, script, input);
    FailuresOn(cfg, launchedAt, script, input);
    hide Step, Trail, AfreshNow, FailsNow, StopsNow, BeginsNow, BeganAt, Begun, Failures, HasStopped;
  }

  lemma RetryInRange(cfg: Config, id: nat, now: int, script: seq<Input>)
    ensures var r := RunAll(cfg, Begin(id, now), script);
            r.Some? && !Leaving(r.value.0.phase) ==> r.value.0.retryCount <= cfg.maxRetry
  {
    RetriesCountUp(cfg, id, now, script);
  }

  lemma {:induction false} RunTells(cfg: Config, id: nat, now: int, script: seq<Input>)
    ensures var r := RunAll(cfg, Begin(id, now), script);
            r.Some? ==> Tells(cfg, now, r.value.0, script)
  {
    if script != [] {
      var init, last := script[..|script| - 1], script[|script| - 1];
      RunTells(cfg, id, now, init);
      RetryInRange(cfg, id, now, init);
      var before := RunAll(cfg, Begin(id, now), init);
      if before.Some? && Step(cfg, before.value.0, last).Some? {
        hide Step, Tells;
        assert script == init + [last];
        StepTells(cfg, now, before.value.0, init, last);
      }
    }
  }

  lemma StepLogs(cfg: Config, launchedAt: int, c: Client, script: seq<Input>, input: Input)
    requires Tells(cfg, launchedAt, c, script) && Step(cfg, c, input).Some?
    ensures Events(Step(cfg, c, input).value) == LogNow(cfg, c.id, launchedAt, script + [input])
    ensures Step(cfg, c, input).value.client.id == c.id
  {
    BackOnAll(script, input);
    hide Back, Decide, Ending, HasStopped, Failures, BeganAt, Begun;
    StepSaysSo(cfg, c, script, input);
    hide StepSays;
  }

  lemma RunMore(cfg: Config, id: nat, now: int, script: seq<Input>, input: Input)
    ensures var before, r := RunAll(cfg, Begin(id, now), script), RunAll(cfg, Begin(id, now), script + [input]);
            && (r.Some? <==> before.Some? && Step(cfg, before.value.0, input).Some?)
            && (r.Some? ==>
                  var o := Step(cfg, before.value.0, input).value; r.value == (o.client, before.value.1 + Events(o)))
  {
    hide Step, Events;
    assert (script + [input])[..|script|] == script;
  }

  lemma LogMore(cfg: Config, id: nat, now: int, script: seq<Input>, input: Input)
    ensures Log(cfg, id, now, []) == []
    ensures Log(cfg, id, now, script + [input]) == Log(cfg, id, now, script) + LogNow(cfg, id, now, script + [input])
  {
    hide LogNow;
    assert (script + [input])[..|script|] == script;
  }

  /** Over every run: the events are those the script says. Each attempt ends as the script has it, and the time to connect
      is measured from its own beginning. */
  lemma {:induction false} EventsFromScript(cfg: Config, id: nat, now: int, script: seq<Input>)
    ensures var r := RunAll(cfg, Begin(id, now), script);
            r.Some? ==> r.value.0.id == id && r.value.1 == Log(cfg, id, now, script)
  {
    if script != [] {
      hide *;
      var init, last := script[..|script| - 1], script[|script| - 1];
      assert script == init + [last];
      EventsFromScript(cfg, id, now, init);
      RunTells(cfg, id, now, init);
      RunMore(cfg, id, now, init, last);
      LogMore(cfg, id, now, init, last);
      var before := RunAll(cfg, Begin(id, now), init);
      if before.Some? && Step(cfg, before.value.0, last).Some? {
        StepLogs(cfg, now, before.value.0, init, last);
      }
    }
  }

  /** Over every run: the client is on its way out exactly if it was cancelled, its scenario exited, its duration passed
      without a repeat interval, or it failed more than max_retry times since it last started afresh; until then its
      retry count is the number of these failures. */
  lemma StopsExactly(cfg: Config, id: nat, now: int, script: seq<Input>)
    ensures var r := RunAll(cfg, Begin(id, now), script);
            r.Some? ==>
              var c := r.value.0;
              && (c.phase.SendStopped? || c.phase.Done? <==> HasStopped(cfg, script))
              && (!HasStopped(cfg, script) ==> c.retryCount == Failures(cfg, script))
              && c.attempts == Begun(script)
  {
    RunTells(cfg, id, now, script);
  }
}
