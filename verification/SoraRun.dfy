/** The client's loop as it is written, run against a script of how each await ends. It follows the steps of
    `SoraClient`. */
module SoraRun {
  import opened Outcomes
  import opened ConnectionLifecycle
  import opened SoraClient
  import S = Stats

  /** How a part of the loop body leaves: with the next attempt, out of the loop, or still waiting when the script ends
      or offers what is not being waited for. */
  datatype Flow = Continue | Break | Waiting

  class Runner {
    const cfg: Config
    const id: nat
    const launchedAt: int
    const script: seq<Input>
    var used: nat
    var events: seq<S.StatsEvent>
    var retryCount: nat
    var startedAt: int
    /** The state of the step model that the loop has reached. */
    ghost var c: Client

    ghost predicate Follows()
      reads this
    {
      used <= |script| && RunAll(cfg, Begin(id, launchedAt), script[..used]) == Some((c, events)) && c.id == id
    }

    ghost predicate SameCount()
      reads this
    {
      c.retryCount == retryCount
    }

    /** At the top of the loop, the locals are the step model's. */
    ghost predicate AtTop()
      reads this
    {
      Follows() && c.phase.Build? && SameCount() && c.startedAt == startedAt
    }

    ghost predicate Stuck()
      reads this
    {
      Follows() && !c.phase.Done? && (used < |script| ==> Step(cfg, c, script[used]) == None)
    }

    /** Where each way of leaving a part of the loop body has brought the client. */
    ghost predicate Left(flow: Flow, from: nat)
      reads this
    {
      && used >= from
      && (flow.Continue? ==> AtTop() && used > from)
      && (flow.Break? ==> Follows() && c.phase.SendStopped?)
      && (flow.Waiting? ==> Stuck())
    }

    constructor (cfg: Config, id: nat, launchedAt: int, script: seq<Input>)
      ensures this.cfg == cfg && this.id == id && this.launchedAt == launchedAt && this.script == script
      ensures AtTop() && used == 0
    {
      this.cfg, this.id, this.launchedAt, this.script := cfg, id, launchedAt, script;
      used, events, retryCount, startedAt := 0, [], 0, launchedAt;
      c := Begin(id, launchedAt);
    }

    /** Takes the next input; `sent` is what the client reports with it. */
    method Take(sent: seq<S.StatsEvent>)
      requires Follows() && used < |script| && Step(cfg, c, script[used]).Some?
      requires Events(Step(cfg, c, script[used]).value) == sent
      requires Step(cfg, c, script[used]).value.client.id == c.id
      modifies this`used, this`events, this`c
      ensures Follows() && used == old(used) + 1
      ensures c == Step(cfg, old(c), script[old(used)]).value.client
    {
      assert script[..used + 1][..used] == script[..used];
      c := Step(cfg, c, script[used]).value.client;
      events := events + sent;
      used := used + 1;
    }

    /** `stats_tx.send(e).await` */
    method Send(e: S.StatsEvent) returns (ok: bool)
      requires Follows()
      requires c.phase.SendConnected? || c.phase.SendRetrying? || c.phase.SendStopped? || c.phase.SendDisconnected?
      requires used < |script| && script[used].choice.Sent? ==> Events(Step(cfg, c, script[used]).value) == [e]
      modifies this`used, this`events, this`c
      ensures Follows()
      ensures ok ==> used == old(used) + 1 && old(used) < |script| && script[old(used)].choice.Sent?
      ensures ok ==> c == Step(cfg, old(c), script[old(used)]).value.client
      ensures !ok ==> Stuck() && c == old(c) && used == old(used)
    {
      if used == |script| || !script[used].choice.Sent? { return false; }
      Take([e]);
      return true;
    }

    /** The cancellable sleep after a retry, and before a repeat. */
    method Sleep() returns (flow: Flow)
      requires Follows() && (c.phase.RetryWait? || c.phase.RepeatWait?) && SameCount()
      modifies this`used, this`events, this`c, this`startedAt
      ensures Left(flow, old(used))
    {
      if used == |script| { return Waiting; }
      var input := script[used];
      if input.choice.Cancelled? && input.cancelled {
        Take([]);
        return Break;
      } else if input.choice.Slept? {
        Take([]);
        startedAt := input.now;
        return Continue;
      } else {
        return Waiting;
      }
    }

    /** A failed build or an unexpected end. The step that led here has already counted it. */
    method Retry() returns (flow: Flow)
      requires Follows() && c.retryCount == retryCount + 1
      requires c.phase == if c.retryCount > cfg.maxRetry then SendStopped else SendRetrying
      modifies this`used, this`events, this`c, this`retryCount, this`startedAt
      ensures Left(flow, old(used))
    {
      retryCount := retryCount + 1;
      if retryCount > cfg.maxRetry { return Break; }
      var ok := Send(S.Retrying(id, retryCount));
      if !ok { return Waiting; }
      flow := Sleep();
    }

    /** One turn of the loop. */
    method Pass() returns (flow: Flow)
      requires AtTop()
      modifies this
      ensures Left(flow, old(used))
    {
      if used == |script| { return Waiting; }
      var input := script[used];
      if input.choice.BuildFails? {
        Take([Ending(cfg, id, startedAt, input, BuildFailed)]);
        flow := Retry();
      } else if input.choice.BuildOk? {
        Take([]);
        flow := Attempt();
      } else {
        return Waiting;
      }
    }

    /** From the built client to the end of its connection. */
    method Attempt() returns (flow: Flow)
      requires Follows() && c.phase.Establish? && SameCount() && c.startedAt == startedAt
      modifies this
      ensures Left(flow, old(used))
    {
      hide RunAll, Decide, Ending;
      if used == |script| { return Waiting; }
      var input := script[used];
      var established := false;
      if input.choice.Cancelled? && input.cancelled {
      } else if input.choice.Established? {
        established := true;
      } else if input.choice.EstablishDropped? {
      } else if input.choice.RunEnds? {
        Take([Ending(cfg, id, startedAt, input, Unexpected)]);
        flow := Ended(Unexpected);
        return;
      } else {
        return Waiting;
      }
      Take([]);
      if established {
        var ok := Send(S.Connected(id));
        if !ok { return Waiting; }
      }
      flow := Connection();
    }

    /** Waits for what ends the connection, disconnects and records the end. */
    method Connection() returns (flow: Flow)
      requires Follows() && c.phase.Running? && SameCount() && c.startedAt == startedAt
      modifies this
      ensures Left(flow, old(used))
    {
      hide RunAll, Decide, Ending;
      if used == |script| { return Waiting; }
      var input := script[used];
      var reason: LifecycleEnd;
      if input.choice.Cancelled? && input.cancelled {
        reason := LifecycleEnd.Shutdown;
      } else if input.choice.ScenarioReconnects? && cfg.scenario {
        reason := ScenarioDisconnect;
      } else if input.choice.ScenarioExits? && cfg.scenario {
        reason := ScenarioExit;
      } else if input.choice.DurationElapsed? && !cfg.scenario && cfg.timed {
        reason := DurationExpired;
      } else if input.choice.RunEnds? {
        Take([Ending(cfg, id, startedAt, input, Unexpected)]);
        flow := Ended(Unexpected);
        return;
      } else {
        return Waiting;
      }
      Take([]);
      if used == |script| || !script[used].choice.Disconnects? { return Waiting; }
      Take([Ending(cfg, id, startedAt, script[used], reason)]);
      flow := Ended(reason);
    }

    /** What follows the recorded end of a connection. */
    method Ended(reason: LifecycleEnd) returns (flow: Flow)
      requires Follows() && SameCount() && used > 0 && !reason.BuildFailed?
      requires c.phase == if reason.Shutdown? then SendStopped else Phase.SendDisconnected(reason)
      modifies this
      ensures Left(flow, old(used))
    {
      hide RunAll, Ending;
      if reason.Shutdown? { return Break; }
      var ok := Send(S.Disconnected(id));
      if !ok { return Waiting; }
      match reason {
        case DurationExpired =>
          retryCount := 0;
          if !cfg.repeats { return Break; }
          flow := Sleep();
        case ScenarioDisconnect =>
          retryCount := 0;
          startedAt := script[used - 1].now;
          return Continue;
        case ScenarioExit =>
          return Break;
        case Unexpected =>
          flow := Retry();
      }
    }

    /** The whole client. It ends with one `Stopped`, or waits for what the script does not offer. */
    method Run() returns (stopped: bool)
      requires AtTop() && used == 0
      modifies this
      ensures Follows() && if stopped then c.phase.Done? else Stuck()
    {
      var flow := Continue;
      while flow.Continue?
        invariant flow.Continue? ==> AtTop()
        invariant flow.Break? ==> Follows() && c.phase.SendStopped?
        invariant flow.Waiting? ==> Stuck()
        invariant used <= |script|
        decreases |script| - used, flow.Continue?
      {
        flow := Pass();
      }
      if flow.Waiting? { return false; }
      stopped := Send(S.Stopped(id));
    }
  }
}
