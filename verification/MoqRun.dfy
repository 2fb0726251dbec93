/** The client's loop as it is written, run against a script of how each await ends. It follows the steps of `MoqClient`. */
module MoqRun {
  import opened Outcomes
  import opened Stats
  import opened MoqClient

  /** How a part of the loop body leaves: with the next pass, out of the loop, or still waiting when the script ends or
      offers what is not being waited for. */
  datatype Flow = Continue | Break | Waiting

  class Runner {
    const cfg: Config
    const id: nat
    const start: string
    const script: seq<Input>
    var used: nat
    var events: seq<StatsEvent>
    var retryCount: nat
    var currentEndpoint: string
    /** The state of the step model that the loop has reached. */
    ghost var c: Client

    ghost predicate Follows()
      reads this
    {
      used <= |script| && RunAll(cfg, Begin(id, start), script[..used]) == Some((c, events)) && c.id == id
    }

    /** At the top of the loop, the locals are the step model's. */
    ghost predicate AtTop()
      reads this
    {
      Follows() && c.phase.Connect? && c.retryCount == retryCount && c.endpoint == currentEndpoint
    }

    ghost predicate Stuck()
      reads this
    {
      Follows() && !c.phase.Done? && (used < |script| ==> Step(cfg, c, script[used]) == None)
    }

    constructor (cfg: Config, id: nat, start: string, script: seq<Input>)
      ensures this.cfg == cfg && this.id == id && this.start == start && this.script == script
      ensures AtTop() && used == 0
    {
      this.cfg, this.id, this.start, this.script := cfg, id, start, script;
      used, events, retryCount, currentEndpoint := 0, [], 0, start;
      c := Begin(id, start);
    }

    /** Takes the next input; `sent` is what the client sends with it. */
    method Take(sent: seq<StatsEvent>)
      requires Follows() && used < |script| && Step(cfg, c, script[used]).Some?
      requires Step(cfg, c, script[used]).value.1 == sent
      modifies this`used, this`events, this`c
      ensures Follows() && used == old(used) + 1
      ensures c == Step(cfg, old(c), script[old(used)]).value.0
    {
      assert script[..used + 1][..used] == script[..used];
      c := Step(cfg, c, script[used]).value.0;
      events := events + sent;
      used := used + 1;
    }

    /** `stats_tx.send(e).await` */
    method Send(e: StatsEvent) returns (ok: bool)
      requires Follows()
      requires c.phase.SendConnected? || c.phase.SendRetrying? || c.phase.SendStopped? || c.phase.SendDisconnected?
      requires used < |script| && script[used].choice.Sent? ==> Step(cfg, c, script[used]).value.1 == [e]
      modifies this`used, this`events, this`c
      ensures Follows()
      ensures ok ==> used == old(used) + 1 && old(used) < |script| && script[old(used)].choice.Sent?
      ensures ok ==> c == Step(cfg, old(c), script[old(used)]).value.0
      ensures !ok ==> Stuck() && c == old(c) && used == old(used)
    {
      if used == |script| || !script[used].choice.Sent? { return false; }
      Take([e]);
      return true;
    }

    /** The cancellable sleep after a retry, and before a repeat. */
    method Sleep() returns (flow: Flow)
      requires Follows() && (c.phase.RetryWait? || c.phase.RepeatWait?)
      requires c.retryCount == retryCount && c.endpoint == currentEndpoint
      modifies this`used, this`events, this`c
      ensures flow.Continue? ==> AtTop() && used > old(used)
      ensures flow.Break? ==> Follows() && c.phase.SendStopped?
      ensures flow.Waiting? ==> Stuck()
      ensures used >= old(used)
      ensures c.endpoint == currentEndpoint
    {
      if used == |script| { return Waiting; }
      var input := script[used];
      if input.choice.Cancelled? && input.cancelled {
        Take([]);
        return Break;
      } else if input.choice.Slept? {
        Take([]);
        return Continue;
      } else {
        return Waiting;
      }
    }

    /** A failed connection or an unexpected end. The step that led here has already counted it. */
    method Retry() returns (flow: Flow)
      requires Follows() && c.retryCount == retryCount + 1 && c.endpoint == currentEndpoint
      requires c.phase == if c.retryCount > cfg.maxRetry then SendStopped else SendRetrying
      modifies this`used, this`events, this`c, this`retryCount
      ensures flow.Continue? ==> AtTop() && used > old(used)
      ensures flow.Break? ==> Follows() && c.phase.SendStopped?
      ensures flow.Waiting? ==> Stuck()
      ensures used >= old(used)
      ensures c.endpoint == currentEndpoint
    {
      retryCount := retryCount + 1;
      if retryCount > cfg.maxRetry { return Break; }
      var ok := Send(Retrying(id, retryCount));
      if !ok { return Waiting; }
      flow := Sleep();
    }

    /** One turn of the loop. */
    method Pass() returns (flow: Flow)
      requires AtTop()
      modifies this
      ensures flow.Continue? ==> AtTop() && used > old(used)
      ensures flow.Break? ==> Follows() && c.phase.SendStopped?
      ensures flow.Waiting? ==> Stuck()
      ensures used >= old(used)
      ensures c.endpoint == currentEndpoint
    {
      if used == |script| { return Waiting; }
      var input := script[used];
      if input.choice.Cancelled? && input.cancelled {
        Take([]);
        return Break;
      } else if input.choice.ConnectFailed? {
        Take([]);
        flow := Retry();
        return;
      } else if !input.choice.ConnectOk? {
        return Waiting;
      }
      Take([]);
      flow := Session();
    }

    /** A connected pass, up to the decision what comes next. */
    method Session() returns (flow: Flow)
      requires Follows() && c.phase.Establish? && c.retryCount == retryCount && c.endpoint == currentEndpoint
      requires used > 0
      modifies this
      ensures flow.Continue? ==> AtTop() && used > old(used)
      ensures flow.Break? ==> Follows() && c.phase.SendStopped?
      ensures flow.Waiting? ==> Stuck()
      ensures used >= old(used)
      ensures c.endpoint == currentEndpoint
    {
      hide RunAll, Decide;
      var sessionFinished, sessionEnd := false, None;
      var established, disconnectedByDuration := false, false;
      if used == |script| { return Waiting; }
      var input := script[used];
      if input.choice.Cancelled? && input.cancelled {
      } else if input.choice.Established? {
        established := true;
      } else if input.choice.EstablishDropped? {
      } else if input.choice.SessionEnds? {
        sessionFinished, sessionEnd := true, input.choice.end;
      } else {
        return Waiting;
      }
      Take([]);
      if established {
        var ok := Send(Connected(id));
        if !ok { return Waiting; }
        if used == |script| { return Waiting; }
        input := script[used];
        if input.choice.Cancelled? && input.cancelled {
        } else if input.choice.DurationElapsed? && cfg.timed {
          disconnectedByDuration := true;
        } else if input.choice.SessionEnds? {
          sessionFinished, sessionEnd := true, input.choice.end;
        } else {
          return Waiting;
        }
        Take([]);
      }
      assert c.phase == MoqClient.Shutdown(established, disconnectedByDuration, sessionFinished, sessionEnd);
      flow := Finish(established, disconnectedByDuration, sessionFinished, sessionEnd);
    }

    /** The end of a session: wait for it unless it is over, report it, and decide. */
    method Finish(established: bool, byDuration: bool, finished: bool, end: Option<SessionEnd>) returns (flow: Flow)
      requires Follows() && c.phase == Phase.Shutdown(established, byDuration, finished, end)
      requires c.retryCount == retryCount && c.endpoint == currentEndpoint
      modifies this
      ensures flow.Continue? ==> AtTop() && used > old(used)
      ensures flow.Break? ==> Follows() && c.phase.SendStopped?
      ensures flow.Waiting? ==> Stuck()
      ensures used >= old(used)
      ensures c.endpoint == currentEndpoint
    {
      hide RunAll, ResolveNextEndpoint;
      if used == |script| || !script[used].choice.ShutdownWaited? || (finished && script[used].choice.finished) {
        return Waiting;
      }
      var cancelled := script[used].cancelled;
      ghost var before := c.(futureDone := c.futureDone || script[used].choice.finished);
      Take([]);
      if established {
        before := c;
        var ok := Send(Disconnected(id));
        if !ok { return Waiting; }
        cancelled := script[used - 1].cancelled;
      }
      flow := Decision(cancelled, byDuration, end, before);
    }

    /** What comes after a session. The step model has already decided it, in state `before`. */
    method Decision(cancelled: bool, byDuration: bool, end: Option<SessionEnd>, ghost before: Client) returns (flow: Flow)
      requires Follows() && c == Decide(cfg, before, cancelled, byDuration, end)
      requires before.retryCount == retryCount && before.endpoint == currentEndpoint && used > 0
      modifies this
      ensures flow.Continue? ==> AtTop()
      ensures flow.Break? ==> Follows() && c.phase.SendStopped?
      ensures flow.Waiting? ==> Stuck()
      ensures used >= old(used)
      ensures c.endpoint == currentEndpoint
    {
      hide RunAll, ResolveNextEndpoint;
      if cancelled {
        return Break;
      }
      if end.Some? && end.value.Migrated? {
        var next := ResolveNextEndpoint(cfg, currentEndpoint, end.value.uri);
        if next.None? { return Break; }
        currentEndpoint := next.value;
        retryCount := 0;
        return Continue;
      }
      if byDuration {
        retryCount := 0;
        if !cfg.repeats { return Break; }
        flow := Sleep();
        return;
      }
      flow := Retry();
    }

    /** The whole client. It ends with one `Stopped`, or waits for what the script does not offer. */
    method Run() returns (stopped: bool)
      requires AtTop() && used == 0
      modifies this
      ensures Follows() && c.endpoint == currentEndpoint
      ensures if stopped then c.phase.Done? else Stuck()
    {
      var flow := Continue;
      while flow.Continue?
        invariant flow.Continue? ==> AtTop()
        invariant flow.Break? ==> Follows() && c.phase.SendStopped?
        invariant flow.Waiting? ==> Stuck()
        invariant c.endpoint == currentEndpoint
        invariant used <= |script|
        decreases |script| - used, flow.Continue?
      {
        flow := Pass();
      }
      if flow.Waiting? { return false; }
      stopped := Send(Stopped(id));
    }
  }
}
