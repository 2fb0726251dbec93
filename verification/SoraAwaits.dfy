/** What a Sora client awaits after a script of inputs, read off the script (`zakuro/src/virtual_client.rs`). */
module SoraAwaits {
  import opened Outcomes
  import opened SoraClient
  import opened SoraScript

  datatype Wait = Building | Establishing | Sending | Serving | Disconnection | Sleeping | Nothing

  predicate IsOneOf(cfg: Config, choice: Choice, wait: Wait) {
    match wait
    case Building => choice.BuildOk? || choice.BuildFails?
    case Establishing => choice.Cancelled? || choice.Established? || choice.EstablishDropped? || choice.RunEnds?
    case Sending => choice.Sent?
    case Serving =>
      || choice.Cancelled? || choice.RunEnds?
      || (if cfg.scenario then choice.ScenarioReconnects? || choice.ScenarioExits? else cfg.timed && choice.DurationElapsed?)
    case Disconnection => choice.Disconnects?
    case Sleeping => choice.Cancelled? || choice.Slept?
    case Nothing => false
  }

  /** What is awaited after the inputs so far. A cancellation before the connection is established, or a dropped
      notification, leaves it to be served like an established one. */
  function Awaited(cfg: Config, script: seq<Input>): Wait {
    if HasStopped(cfg, script) then
      if HasStopped(cfg, script[..|script| - 1]) then Nothing else Sending
    else if script == [] || BeginsNow(script) then Building
    else if FailsNow(script) then Sending
    else
      match script[|script| - 1].choice
      case BuildOk => Establishing
      case EstablishDropped => Serving
      case Cancelled => if Back(script, 1) == Some(BuildOk) then Serving else Disconnection
      case DurationElapsed | ScenarioReconnects | ScenarioExits => Disconnection
      case Sent => if Back(script, 1) == Some(Established) then Serving else Sleeping
      case _ => Sending
  }

  /** A script all of whose inputs are awaited when they come. */
  predicate AllAwaited(cfg: Config, script: seq<Input>) {
    script != [] ==>
      var init, last := script[..|script| - 1], script[|script| - 1];
      AllAwaited(cfg, init) && IsOneOf(cfg, last.choice, Awaited(cfg, init)) && (last.choice.Cancelled? ==> last.cancelled)
  }

  /** More than `Trail`: tells the phases apart in which nothing is sent and no connection is open. */
  predicate Stands(cfg: Config, c: Client, script: seq<Input>) {
    match c.phase
    case Build => script == [] || BeginsNow(script)
    case SendRetrying => FailsNow(script)
    case RepeatWait => Back(script, 2) == Some(DurationElapsed)
    case Disconnecting(_) => Back(script, 0) == Some(Cancelled) ==> Back(script, 1) != Some(BuildOk)
    case SendStopped => script != [] && !HasStopped(cfg, script[..|script| - 1])
    case Done => script != [] && HasStopped(cfg, script[..|script| - 1])
    case _ => true
  }

  lemma StepStands(cfg: Config, launchedAt: int, c: Client, script: seq<Input>, input: Input)
    requires Tells(cfg, launchedAt, c, script) && Step(cfg, c, input).Some?
    ensures Stands(cfg, Step(cfg, c, input).value.client, script + [input])
  {
    hide Back, Ending, HasStopped, Failures, BeganAt, Begun;
    BackOnAll(script, input);
  }

  /** What the phase waits for. */
  function WaitOf(p: Phase): Wait {
    match p
    case Build => Building
    case Establish => Establishing
    case Running => Serving
    case Disconnecting(_) => Disconnection
    case RetryWait | RepeatWait => Sleeping
    case Done => Nothing
    case _ => Sending
  }

  lemma StepWaits(cfg: Config, c: Client, input: Input)
    ensures Step(cfg, c, input).Some?
        <==> IsOneOf(cfg, input.choice, WaitOf(c.phase)) && (input.choice.Cancelled? ==> input.cancelled)
  {
    hide Decide, Fail, Ending;
  }

  lemma WaitAwaited(cfg: Config, launchedAt: int, c: Client, script: seq<Input>)
    requires Tells(cfg, launchedAt, c, script) && Stands(cfg, c, script)
    ensures WaitOf(c.phase) == Awaited(cfg, script)
  {
    hide Back, HasStopped, Failures, BeganAt, Begun;
    LastIs(script);
  }

  lemma LastIs(script: seq<Input>)
    ensures Back(script, 0) == if script == [] then None else Some(script[|script| - 1].choice)
  {
  }

  lemma AwaitedOn(cfg: Config, script: seq<Input>, input: Input)
    ensures AllAwaited(cfg, script + [input])
        <==> && AllAwaited(cfg, script) && IsOneOf(cfg, input.choice, Awaited(cfg, script))
             && (input.choice.Cancelled? ==> input.cancelled)
  {
    hide Awaited, IsOneOf;
    assert (script + [input])[..|script|] == script;
  }

  lemma BeginStands(cfg: Config, id: nat, now: int)
    ensures RunAll(cfg, Begin(id, now), []) == Some((Begin(id, now), [])) && AllAwaited(cfg, [])
    ensures Tells(cfg, now, Begin(id, now), []) && Stands(cfg, Begin(id, now), [])
  {
  }

  lemma {:induction false} RunStands(cfg: Config, id: nat, now: int, script: seq<Input>)
    ensures var r := RunAll(cfg, Begin(id, now), script);
            && (r.Some? ==> Tells(cfg, now, r.value.0, script) && Stands(cfg, r.value.0, script))
            && (r.Some? <==> AllAwaited(cfg, script))
  {
    hide *;
    if script == [] {
      BeginStands(cfg, id, now);
    } else {
      var init, last := script[..|script| - 1], script[|script| - 1];
      assert script == init + [last];
      RunStands(cfg, id, now, init);
      RunTells(cfg, id, now, script);
      RunMore(cfg, id, now, init, last);
      AwaitedOn(cfg, init, last);
      var before := RunAll(cfg, Begin(id, now), init);
      if before.Some? {
        StepWaits(cfg, before.value.0, last);
        WaitAwaited(cfg, now, before.value.0, init);
        if Step(cfg, before.value.0, last).Some? {
          StepStands(cfg, now, before.value.0, init, last);
        }
      }
    }
  }

  /** The scripts that a client can go through are those whose inputs are awaited when they come. */
  lemma RunsExactly(cfg: Config, id: nat, now: int, script: seq<Input>)
    ensures RunAll(cfg, Begin(id, now), script).Some? <==> AllAwaited(cfg, script)
  {
    RunStands(cfg, id, now, script);
  }
}
