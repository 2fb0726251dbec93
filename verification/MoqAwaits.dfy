/** What a MOQ client awaits after a script of inputs, how often its loop has turned and whether its session is over, all
    read off the script (`zakuro-moq/src/moq_client.rs`). */
module MoqAwaits {
  import opened Outcomes
  import opened MoqClient
  import opened MoqScript

  // ----- the session and the loop -----

  /** The session future of the last connection has completed. */
  predicate SessionDone(script: seq<Input>) {
    && script != []
    && Back(script, 0) != Some(ConnectOk)
    && (SessionDone(script[..|script| - 1]) || Completes(script[|script| - 1].choice))
  }

  /** With the end of the session, or while its shutdown is waited for. */
  predicate Completes(choice: Choice) {
    choice.SessionEnds? || choice == ShutdownWaited(true)
  }

  /** How often the client started afresh. */
  function Afreshes(cfg: Config, script: seq<Input>): nat {
    if script == [] then 0 else Afreshes(cfg, script[..|script| - 1]) + if AfreshNow(cfg, script) then 1 else 0
  }

  /** The loop turns after a sleep, and at once after a migration that leads somewhere. */
  predicate TurnsNow(cfg: Config, script: seq<Input>) {
    Back(script, 0) == Some(Slept) || (AfreshNow(cfg, script) && NewUri(script).Some?)
  }

  function Turns(cfg: Config, script: seq<Input>): nat {
    if script == [] then 1 else Turns(cfg, script[..|script| - 1]) + if TurnsNow(cfg, script) then 1 else 0
  }

  ghost predicate Tally(cfg: Config, c: Client, script: seq<Input>) {
    c.passes == Turns(cfg, script) && c.resets == Afreshes(cfg, script) && (c.futureDone <==> SessionDone(script))
  }

  ghost predicate Tallies(cfg: Config, c: Client, next: Client, more: seq<Input>) {
    && next.passes == c.passes + (if TurnsNow(cfg, more) then 1 else 0)
    && next.resets == c.resets + (if AfreshNow(cfg, more) then 1 else 0)
  }

  lemma PlainTallies(cfg: Config, c: Client, script: seq<Input>, input: Input)
    requires Trail(c, script) && Step(cfg, c, input).Some? && Plain(c)
    ensures Tallies(cfg, c, Step(cfg, c, input).value.0, script + [input])
  {
    hide Back, Decide, Ended;
    BackOnAll(script, input);
    PlainEnds(cfg, c, script, input);
  }

  lemma DecidedTallies(cfg: Config, c: Client, more: seq<Input>, byDuration: bool, end: Option<SessionEnd>)
    requires more != [] && EndedBy(Ended(more), byDuration, end) && Back(more, 0) != Some(Slept)
    ensures Tallies(cfg, c, Decide(cfg, c, LastCancelled(more), byDuration, end), more)
  {
    hide Back, Ended;
  }

  lemma StepTallies(cfg: Config, c: Client, script: seq<Input>, input: Input)
    requires Trail(c, script) && Step(cfg, c, input).Some?
    ensures Tallies(cfg, c, Step(cfg, c, input).value.0, script + [input])
  {
    hide Back, Decide, Tallies;
    BackOnAll(script, input);
    var more := script + [input];
    if Plain(c) {
      PlainTallies(cfg, c, script, input);
    } else {
      match c.phase {
        case Shutdown(_, byDuration, _, end) =>
          var c1 := c.(futureDone := c.futureDone || input.choice.finished);
          DecidedTallies(cfg, c1, more, byDuration, end);
          TalliesSame(cfg, c, c1, Step(cfg, c, input).value.0, more);
        case SendDisconnected(byDuration, end) =>
          DecidedTallies(cfg, c, more, byDuration, end);
      }
    }
  }

  lemma TalliesSame(cfg: Config, c: Client, c1: Client, next: Client, more: seq<Input>)
    requires Tallies(cfg, c1, next, more) && c1 == c.(futureDone := c1.futureDone)
    ensures Tallies(cfg, c, next, more)
  {
    hide AfreshNow, TurnsNow;
  }

  /** Only a completed session future is marked so, and a new connection brings a new one. */
  lemma StepMarks(cfg: Config, c: Client, input: Input)
    requires Step(cfg, c, input).Some?
    ensures Step(cfg, c, input).value.0.futureDone <==> !input.choice.ConnectOk? && (c.futureDone || Completes(input.choice))
  {
    hide ResolveNextEndpoint;
  }

  lemma TallyOn(cfg: Config, script: seq<Input>, input: Input)
    ensures var more := script + [input];
            && Turns(cfg, more) == Turns(cfg, script) + (if TurnsNow(cfg, more) then 1 else 0)
            && Afreshes(cfg, more) == Afreshes(cfg, script) + (if AfreshNow(cfg, more) then 1 else 0)
            && (SessionDone(more) <==> !input.choice.ConnectOk? && (SessionDone(script) || Completes(input.choice)))
  {
    hide AfreshNow, TurnsNow;
    assert (script + [input])[..|script|] == script;
  }

  lemma StepTally(cfg: Config, c: Client, script: seq<Input>, input: Input)
    requires Trail(c, script) && Tally(cfg, c, script) && Step(cfg, c, input).Some?
    ensures Tally(cfg, Step(cfg, c, input).value.0, script + [input])
  {
    StepTallies(cfg, c, script, input);
    StepMarks(cfg, c, input);
    TallyOn(cfg, script, input);
    hide Step, Trail, AfreshNow, TurnsNow, Turns, Afreshes, SessionDone;
  }

  // ----- what is awaited -----

  predicate IsOneOf(choice: Choice, wait: Wait) {
    match wait
    case Connecting => choice.Cancelled? || choice.ConnectOk? || choice.ConnectFailed?
    case Establishing => choice.Cancelled? || choice.Established? || choice.EstablishDropped? || choice.SessionEnds?
    case Sending => choice.Sent?
    case Serving(timed) => choice.Cancelled? || choice.SessionEnds? || (timed && choice.DurationElapsed?)
    case Closing(over) => choice.ShutdownWaited? && !(over && choice.finished)
    case Sleeping => choice.Cancelled? || choice.Slept?
    case Nothing => false
  }

  datatype Wait = Connecting | Establishing | Sending | Serving(timed: bool) | Closing(over: bool) | Sleeping | Nothing

  /** What is awaited after the inputs so far. A session that has ended itself is not polled again while it is shut down. */
  function Awaited(cfg: Config, script: seq<Input>): Wait {
    if HasStopped(cfg, script) then
      if HasStopped(cfg, script[..|script| - 1]) then Nothing else Sending
    else if Back(script, 0) in {None, Some(Slept)} || NewUri(script).Some? then Connecting
    else if FailsNow(script) then Sending
    else if Ended(script).Some? then Sleeping
    else if Waited(Back(script, 0)) || Back(script, 0) == Some(Established) then Sending
    else if Back(script, 0) == Some(ConnectOk) then Establishing
    else if Back(script, 0) == Some(Sent) then
      if Back(script, 1) == Some(Established) then Serving(cfg.timed) else Sleeping
    else Closing(Back(script, 0).value.SessionEnds?)
  }

  /** A script all of whose inputs are awaited when they come. */
  predicate AllAwaited(cfg: Config, script: seq<Input>) {
    script != [] ==>
      var init, last := script[..|script| - 1], script[|script| - 1];
      AllAwaited(cfg, init) && IsOneOf(last.choice, Awaited(cfg, init)) && (last.choice.Cancelled? ==> last.cancelled)
  }

  /** More than `Trail`: tells the phases apart in which the client neither connects nor serves. */
  predicate Stands(cfg: Config, c: Client, script: seq<Input>) {
    match c.phase
    case Connect => Back(script, 0) in {None, Some(Slept)} || NewUri(script).Some?
    case Shutdown(_, _, finished, _) =>
      && IsLeft(Back(script, 0))
      && (finished <==> Back(script, 0).value.SessionEnds?)
    case SendRetrying => FailsNow(script)
    case RetryWait => Back(script, 0) == Some(Sent) && Ended(script) == None
    case RepeatWait => Ended(script) == Some(DurationElapsed) && !LastCancelled(script)
    case SendStopped => script != [] && !HasStopped(cfg, script[..|script| - 1])
    case Done => script != [] && HasStopped(cfg, script[..|script| - 1])
    case _ => true
  }

  /** How a session is left. */
  predicate IsLeft(choice: Option<Choice>) {
    choice.Some? && (choice.value.Cancelled? || choice.value.EstablishDropped? || choice.value.SessionEnds?
                     || choice.value.DurationElapsed?)
  }

  lemma PlainStands(cfg: Config, start: string, c: Client, script: seq<Input>, input: Input)
    requires Tells(cfg, start, c, script) && Step(cfg, c, input).Some? && Plain(c)
    ensures Stands(cfg, Step(cfg, c, input).value.0, script + [input])
  {
    hide Back, Decide, HasStopped, Ended, Leads, Announced, Failures;
    BackOnAll(script, input);
    PlainEnds(cfg, c, script, input);
    assert (script + [input])[..|script|] == script;
  }

  lemma DecidedStands(cfg: Config, c: Client, script: seq<Input>, input: Input, byDuration: bool, end: Option<SessionEnd>)
    requires EndedBy(Ended(script + [input]), byDuration, end) && !HasStopped(cfg, script)
    ensures Stands(cfg, Decide(cfg, c, LastCancelled(script + [input]), byDuration, end), script + [input])
  {
    hide Back, Ended, HasStopped;
    assert (script + [input])[..|script|] == script;
  }

  lemma StepStands(cfg: Config, start: string, c: Client, script: seq<Input>, input: Input)
    requires Tells(cfg, start, c, script) && Step(cfg, c, input).Some?
    ensures Stands(cfg, Step(cfg, c, input).value.0, script + [input])
  {
    hide Back, Decide, Stands, HasStopped, Leads, Announced, Failures;
    BackOnAll(script, input);
    if Plain(c) {
      PlainStands(cfg, start, c, script, input);
    } else {
      match c.phase {
        case Shutdown(_, byDuration, _, end) =>
          DecidedStands(cfg, c.(futureDone := c.futureDone || input.choice.finished), script, input, byDuration, end);
        case SendDisconnected(byDuration, end) =>
          DecidedStands(cfg, c, script, input, byDuration, end);
      }
    }
  }

  /** What the phase waits for. */
  function WaitOf(cfg: Config, p: Phase): Wait {
    match p
    case Connect => Connecting
    case Establish => Establishing
    case Running => Serving(cfg.timed)
    case Shutdown(_, _, finished, _) => Closing(finished)
    case RetryWait | RepeatWait => Sleeping
    case Done => Nothing
    case _ => Sending
  }

  lemma StepWaits(cfg: Config, c: Client, input: Input)
    ensures Step(cfg, c, input).Some?
        <==> IsOneOf(input.choice, WaitOf(cfg, c.phase)) && (input.choice.Cancelled? ==> input.cancelled)
  {
    hide Decide, Fail;
  }

  lemma WaitAwaited(cfg: Config, start: string, c: Client, script: seq<Input>)
    requires Tells(cfg, start, c, script) && Stands(cfg, c, script)
    ensures WaitOf(cfg, c.phase) == Awaited(cfg, script)
  {
    hide Back, HasStopped, Leads, Announced, Failures;
  }

  lemma BeginStands(cfg: Config, id: nat, start: string)
    ensures RunAll(cfg, Begin(id, start), []) == Some((Begin(id, start), [])) && AllAwaited(cfg, [])
    ensures Tells(cfg, start, Begin(id, start), []) && Stands(cfg, Begin(id, start), []) && Tally(cfg, Begin(id, start), [])
  {
  }

  lemma {:induction false} RunStands(cfg: Config, id: nat, start: string, script: seq<Input>)
    ensures var r := RunAll(cfg, Begin(id, start), script);
            && (r.Some? ==> Tells(cfg, start, r.value.0, script) && Stands(cfg, r.value.0, script) && Tally(cfg, r.value.0, script))
            && (r.Some? <==> AllAwaited(cfg, script))
  {
    hide *;
    if script == [] {
      BeginStands(cfg, id, start);
    } else {
      var init, last := script[..|script| - 1], script[|script| - 1];
      assert script == init + [last];
      RunStands(cfg, id, start, init);
      RunTells(cfg, id, start, script);
      RunMore(cfg, id, start, init, last);
      AwaitedOn(cfg, init, last);
      var before := RunAll(cfg, Begin(id, start), init);
      if before.Some? {
        StepWaits(cfg, before.value.0, last);
        WaitAwaited(cfg, start, before.value.0, init);
        if Step(cfg, before.value.0, last).Some? {
          StepStands(cfg, start, before.value.0, init, last);
          TellsTrail(cfg, start, before.value.0, init);
          StepTally(cfg, before.value.0, init, last);
        }
      }
    }
  }

  lemma TellsTrail(cfg: Config, start: string, c: Client, script: seq<Input>)
    requires Tells(cfg, start, c, script)
    ensures Trail(c, script)
  {
    hide Trail;
  }

  lemma AwaitedOn(cfg: Config, script: seq<Input>, input: Input)
    ensures AllAwaited(cfg, script + [input])
        <==> AllAwaited(cfg, script) && IsOneOf(input.choice, Awaited(cfg, script)) && (input.choice.Cancelled? ==> input.cancelled)
  {
    hide Awaited, IsOneOf;
    assert (script + [input])[..|script|] == script;
  }

  // ----- over every run -----

  /** The scripts that a client can go through are those whose inputs are awaited when they come. */
  lemma RunsExactly(cfg: Config, id: nat, start: string, script: seq<Input>)
    ensures RunAll(cfg, Begin(id, start), script).Some? <==> AllAwaited(cfg, script)
  {
    RunStands(cfg, id, start, script);
  }

  /** A session future that has completed is not awaited again. */
  lemma NeverAwaitsFinished(cfg: Config, script: seq<Input>, next: Choice)
    requires AllAwaited(cfg, script) && SessionDone(script) && Completes(next)
    ensures !IsOneOf(next, Awaited(cfg, script))
  {
    hide *;
    RunStands(cfg, 0, "", script);
    RunKeeps(cfg, 0, "", script);
    var c := RunAll(cfg, Begin(0, ""), script).value.0;
    WaitAwaited(cfg, "", c, script);
    DoneMeans(cfg, c, script);
    NotPolled(cfg, c, next);
  }

  lemma DoneMeans(cfg: Config, c: Client, script: seq<Input>)
    requires Tally(cfg, c, script) && SessionDone(script)
    ensures c.futureDone
  {
    hide SessionDone;
  }

  lemma NotPolled(cfg: Config, c: Client, next: Choice)
    requires Inv(cfg, c) && c.futureDone && Completes(next)
    ensures !IsOneOf(next, WaitOf(cfg, c.phase))
  {
    hide Budget;
  }

  /** The loop turns at most max_retry + 1 times each time the client starts afresh; without a repeat interval that takes
      a New Session URI. */
  lemma TurnsBounded(cfg: Config, script: seq<Input>)
    requires AllAwaited(cfg, script)
    ensures Turns(cfg, script) <= (Afreshes(cfg, script) + 1) * (cfg.maxRetry + 1)
    ensures !cfg.repeats ==> Afreshes(cfg, script) <= |Announced(script)|
  {
    hide *;
    RunStands(cfg, 0, "", script);
    RetryBudget(cfg, 0, "", script);
    TallyMeans(cfg, RunAll(cfg, Begin(0, ""), script).value.0, script);
    if !cfg.repeats {
      AfreshByUri(cfg, script);
    }
  }

  lemma TallyMeans(cfg: Config, c: Client, script: seq<Input>)
    requires Tally(cfg, c, script)
    ensures c.passes == Turns(cfg, script) && c.resets == Afreshes(cfg, script)
  {
    hide Turns, Afreshes;
  }

  lemma {:induction false} AfreshByUri(cfg: Config, script: seq<Input>)
    requires !cfg.repeats
    ensures Afreshes(cfg, script) <= |Announced(script)|
  {
    if script != [] {
      AfreshByUri(cfg, script[..|script| - 1]);
      hide Ended;
    }
  }
}
