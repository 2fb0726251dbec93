/** What a run of a MOQ client comes to, read off its script alone: which New Session URIs it was given, how often it
    failed since it last started afresh, and what stopped it (`zakuro-moq/src/moq_client.rs`). */
module MoqScript {
  import opened Bytes
  import opened Outcomes
  import opened MoqClient
  import S = Stats

  /** The choice `k` inputs before the last. */
  function Back(script: seq<Input>, k: nat): Option<Choice> {
    if k < |script| then Some(script[|script| - 1 - k].choice) else None
  }

  predicate Waited(choice: Option<Choice>) {
    choice.Some? && choice.value.ShutdownWaited?
  }

  predicate Migrates(choice: Option<Choice>) {
    choice.Some? && choice.value.SessionEnds? && choice.value.end.Some? && choice.value.end.value.Migrated?
  }

  /** When the last input completes the end of a session: what ended it. A session that was never established is over
      when its shutdown was waited for, an established one when that was reported as well. */
  function Ended(script: seq<Input>): Option<Choice> {
    if Waited(Back(script, 0)) && Back(script, 2) == Some(ConnectOk) then Back(script, 1)
    else if Back(script, 0) == Some(Sent) && Waited(Back(script, 1)) && Back(script, 3) != Some(ConnectOk) then Back(script, 2)
    else None
  }

  predicate LastCancelled(script: seq<Input>) {
    script != [] && script[|script| - 1].cancelled
  }

  /** The URI of a migration that is not overtaken by a cancellation. */
  function NewUri(script: seq<Input>): Option<seq<byte>> {
    if Migrates(Ended(script)) && !LastCancelled(script) then Some(Ended(script).value.end.value.uri) else None
  }

  /** The New Session URIs that ended a session, in order. */
  function Announced(script: seq<Input>): seq<seq<byte>> {
    if script == [] then []
    else Announced(script[..|script| - 1]) + if NewUri(script).Some? then [NewUri(script).value] else []
  }

  /** The endpoint they lead to: an empty one keeps the current endpoint, and each of the others must parse. */
  function Leads(cfg: Config, start: string, uris: seq<seq<byte>>): Option<string> {
    if uris == [] then Some(start)
    else
      var before :- Leads(cfg, start, uris[..|uris| - 1]);
      var uri := uris[|uris| - 1];
      if uri == [] then Some(before) else cfg.parse(uri)
  }

  /** The last input is a failure: of connecting, or a session that ended otherwise than by a cancellation, a migration or
      the duration. */
  predicate FailsNow(script: seq<Input>) {
    || Back(script, 0) == Some(Choice.ConnectFailed)
    || (Ended(script).Some? && !LastCancelled(script) && !Migrates(Ended(script)) && !Ended(script).value.DurationElapsed?)
  }

  /** A migration that leads somewhere, or the duration with a repeat interval: the client starts afresh. */
  predicate AfreshNow(cfg: Config, script: seq<Input>) {
    && Ended(script).Some? && !LastCancelled(script)
    && if NewUri(script).Some? then NewUri(script).value == [] || cfg.parse(NewUri(script).value).Some?
       else Ended(script).value.DurationElapsed? && cfg.repeats
  }

  /** A cancellation, except of a session, whose end is waited for first; or a session ended while cancelled, by a
      migration that leads nowhere, or by the duration without a repeat interval. */
  predicate StopsNow(cfg: Config, script: seq<Input>) {
    || (Back(script, 0) == Some(Cancelled)
        && Back(script, 1) != Some(ConnectOk) && !(Back(script, 1) == Some(Sent) && Back(script, 2) == Some(Established)))
    || (Ended(script).Some?
        && (LastCancelled(script) || (!AfreshNow(cfg, script) && (NewUri(script).Some? || Ended(script).value.DurationElapsed?))))
  }

  /** The failures since the client last started afresh. */
  function Failures(cfg: Config, script: seq<Input>): nat {
    if script == [] then 0
    else if AfreshNow(cfg, script) then 0
    else Failures(cfg, script[..|script| - 1]) + if FailsNow(script) then 1 else 0
  }

  predicate HasStopped(cfg: Config, script: seq<Input>) {
    script != [] && (HasStopped(cfg, script[..|script| - 1]) || StopsNow(cfg, script) || Failures(cfg, script) > cfg.maxRetry)
  }

  /** What is reported with the last input. */
  function LogNow(cfg: Config, id: nat, script: seq<Input>): seq<S.StatsEvent>
    requires script != []
  {
    var init := script[..|script| - 1];
    if Back(script, 0) != Some(Sent) then []
    else if HasStopped(cfg, init) then [S.Stopped(id)]
    else if Back(script, 1) == Some(Established) then [S.Connected(id)]
    else if Ended(script).Some? then [S.Disconnected(id)]
    else [S.Retrying(id, Failures(cfg, init))]
  }

  function Log(cfg: Config, id: nat, script: seq<Input>): seq<S.StatsEvent> {
    if script == [] then [] else Log(cfg, id, script[..|script| - 1]) + LogNow(cfg, id, script)
  }

  // ----- the phases and the last inputs -----

  function EndIn(choice: Option<Choice>): Option<SessionEnd> {
    if choice.Some? && choice.value.SessionEnds? then choice.value.end else None
  }

  /** The last inputs tell where the client is. */
  predicate Trail(c: Client, script: seq<Input>) {
    match c.phase
    case Connect =>
      Back(script, 0) in {None, Some(Slept)} || Waited(Back(script, 0))
      || (Back(script, 0) == Some(Sent) && Waited(Back(script, 1)))
    case Establish => Back(script, 0) == Some(ConnectOk)
    case SendConnected => Back(script, 0) == Some(Established)
    case Running => Back(script, 0) == Some(Sent) && Back(script, 1) == Some(Established)
    case Shutdown(established, byDuration, _, end) =>
      && Back(script, 0).Some? && Back(script, 1).Some?
      && end == EndIn(Back(script, 0))
      && (byDuration <==> Back(script, 0) == Some(DurationElapsed))
      && (byDuration ==> established)
      && (established <==> Back(script, 1) != Some(ConnectOk))
    case SendDisconnected(byDuration, end) =>
      && Waited(Back(script, 0)) && Back(script, 1).Some? && Back(script, 2).Some?
      && end == EndIn(Back(script, 1))
      && (byDuration <==> Back(script, 1) == Some(DurationElapsed))
      && Back(script, 2) != Some(ConnectOk)
    case SendRetrying => Aside(script) && Back(script, 0) != Some(Established)
    case RetryWait => Back(script, 0) == Some(Sent) && Back(script, 1) != Some(Established)
    case RepeatWait => Back(script, 0) == Some(Sent) && Waited(Back(script, 1))
    case SendStopped => Aside(script) && Back(script, 0) != Some(Established)
    case Done => true
  }

  /** What is sent next does not complete the end of a session. */
  predicate Aside(script: seq<Input>) {
    Waited(Back(script, 0)) ==> Back(script, 2) == Some(ConnectOk)
  }

  lemma BackOn(script: seq<Input>, input: Input, k: nat)
    ensures Back(script + [input], 0) == Some(input.choice)
    ensures Back(script + [input], k + 1) == Back(script, k)
  {
  }

  lemma BackOnAll(script: seq<Input>, input: Input)
    ensures var more := script + [input];
            && Back(more, 0) == Some(input.choice) && Back(more, 1) == Back(script, 0)
            && Back(more, 2) == Back(script, 1) && Back(more, 3) == Back(script, 2)
            && LastCancelled(more) == input.cancelled
  {
    BackOn(script, input, 0);
    BackOn(script, input, 1);
    BackOn(script, input, 2);
  }

  /** What the inputs so far come to, and the client's own variables. */
  ghost predicate Tells(cfg: Config, start: string, c: Client, script: seq<Input>) {
    && Trail(c, script)
    && (Leaving(c.phase) <==> HasStopped(cfg, script))
    && (!Leaving(c.phase) ==> c.retryCount == Failures(cfg, script) && Leads(cfg, start, Announced(script)) == Some(c.endpoint))
    && (Leads(cfg, start, Announced(script)).Some? ==> Leads(cfg, start, Announced(script)) == Some(c.endpoint))
  }

  lemma {:induction false} AnnouncedOn(script: seq<Input>, input: Input)
    ensures Announced(script + [input])
         == Announced(script) + if NewUri(script + [input]).Some? then [NewUri(script + [input]).value] else []
  {
    assert (script + [input])[..|script|] == script;
  }

  lemma LeadsOn(cfg: Config, start: string, uris: seq<seq<byte>>, uri: seq<byte>)
    ensures Leads(cfg, start, uris + [uri])
         == if Leads(cfg, start, uris).None? then None
            else if uri == [] then Leads(cfg, start, uris) else cfg.parse(uri)
  {
    assert (uris + [uri])[..|uris|] == uris;
  }

  lemma FailuresOn(cfg: Config, script: seq<Input>, input: Input)
    ensures var more := script + [input];
            && Failures(cfg, more)
               == (if AfreshNow(cfg, more) then 0 else Failures(cfg, script) + if FailsNow(more) then 1 else 0)
            && (HasStopped(cfg, more) <==> HasStopped(cfg, script) || StopsNow(cfg, more) || Failures(cfg, more) > cfg.maxRetry)
  {
    assert (script + [input])[..|script|] == script;
  }

  /** What the step does, by the kind of its input. */
  ghost predicate StepSays(cfg: Config, c: Client, next: Client, more: seq<Input>) {
    && (NewUri(more).Some? ==> !Leaving(c.phase))
    && (AfreshNow(cfg, more) ==> !FailsNow(more) && !StopsNow(cfg, more) && next.retryCount == 0 && !Leaving(next.phase))
    && (FailsNow(more) ==>
          !StopsNow(cfg, more) && next.retryCount == c.retryCount + 1
          && (Leaving(next.phase) <==> c.retryCount + 1 > cfg.maxRetry))
    && (StopsNow(cfg, more) ==> Leaving(next.phase))
    && (!AfreshNow(cfg, more) && !FailsNow(more) && !StopsNow(cfg, more) && !Leaving(c.phase) ==>
          next.retryCount == c.retryCount && !Leaving(next.phase))
    && (if NewUri(more).Some? && NewUri(more).value != [] && cfg.parse(NewUri(more).value).Some? then
          Some(next.endpoint) == cfg.parse(NewUri(more).value)
        else next.endpoint == c.endpoint)
    && (NewUri(more).Some? && NewUri(more).value != [] && cfg.parse(NewUri(more).value).None? ==> Leaving(next.phase))
    && (Leaving(c.phase) ==> Leaving(next.phase) && !AfreshNow(cfg, more) && !FailsNow(more))
  }

  /** The step goes on in the phase given by the choice, and completes no session. */
  predicate Plain(c: Client) {
    !c.phase.SendDisconnected? && !(c.phase.Shutdown? && !c.phase.established)
  }

  lemma PlainEnds(cfg: Config, c: Client, script: seq<Input>, input: Input)
    requires Trail(c, script) && Step(cfg, c, input).Some? && Plain(c)
    ensures Ended(script + [input]) == None
  {
    hide Back, Fail, Decide;
    BackOnAll(script, input);
  }

  lemma PlainTrail(cfg: Config, c: Client, script: seq<Input>, input: Input)
    requires Trail(c, script) && Step(cfg, c, input).Some? && Plain(c)
    ensures Trail(Step(cfg, c, input).value.0, script + [input])
  {
    hide Back, Decide;
    BackOnAll(script, input);
  }

  lemma PlainSays(cfg: Config, c: Client, script: seq<Input>, input: Input)
    requires Trail(c, script) && Step(cfg, c, input).Some? && Plain(c)
    ensures StepSays(cfg, c, Step(cfg, c, input).value.0, script + [input])
  {
    hide Back, Decide, Ended;
    BackOnAll(script, input);
    PlainEnds(cfg, c, script, input);
  }

  /** A session has ended: in `end`, by the duration if so. */
  predicate EndedBy(ended: Option<Choice>, byDuration: bool, end: Option<SessionEnd>) {
    ended.Some? && end == EndIn(ended) && (byDuration <==> ended == Some(DurationElapsed))
  }

  lemma DecidedSays(cfg: Config, c: Client, more: seq<Input>, byDuration: bool, end: Option<SessionEnd>)
    requires more != [] && EndedBy(Ended(more), byDuration, end) && !Leaving(c.phase)
    requires Back(more, 0) != Some(Cancelled) && Back(more, 0) != Some(Choice.ConnectFailed)
    ensures StepSays(cfg, c, Decide(cfg, c, LastCancelled(more), byDuration, end), more)
  {
    hide Back, Ended;
  }

  lemma DecidedTrail(cfg: Config, c: Client, more: seq<Input>, byDuration: bool, end: Option<SessionEnd>)
    requires Ended(more).Some? && (byDuration ==> Back(more, 0) == Some(Sent)) && !Leaving(c.phase)
    ensures Trail(Decide(cfg, c, LastCancelled(more), byDuration, end), more)
  {
    hide Back, ResolveNextEndpoint;
  }

  lemma StepTrail(cfg: Config, c: Client, script: seq<Input>, input: Input)
    requires Trail(c, script) && Step(cfg, c, input).Some?
    ensures Trail(Step(cfg, c, input).value.0, script + [input])
    ensures StepSays(cfg, c, Step(cfg, c, input).value.0, script + [input])
  {
    hide Back, Decide, StepSays;
    BackOnAll(script, input);
    var more := script + [input];
    if Plain(c) {
      PlainTrail(cfg, c, script, input);
      PlainSays(cfg, c, script, input);
    } else {
      match c.phase {
        case Shutdown(_, byDuration, _, end) =>
          var c1 := c.(futureDone := c.futureDone || input.choice.finished);
          DecidedSays(cfg, c1, more, byDuration, end);
          DecidedTrail(cfg, c1, more, byDuration, end);
          SaysSame(cfg, c, c1, Step(cfg, c, input).value.0, more);
        case SendDisconnected(byDuration, end) =>
          DecidedSays(cfg, c, more, byDuration, end);
          DecidedTrail(cfg, c, more, byDuration, end);
      }
    }
  }

  lemma SaysSame(cfg: Config, c: Client, c1: Client, next: Client, more: seq<Input>)
    requires StepSays(cfg, c1, next, more) && c1 == c.(futureDone := c1.futureDone)
    ensures StepSays(cfg, c, next, more)
  {
    hide NewUri, AfreshNow, FailsNow, StopsNow;
  }

  lemma StepTells(cfg: Config, start: string, c: Client, script: seq<Input>, input: Input)
    requires Tells(cfg, start, c, script) && Step(cfg, c, input).Some?
    requires !Leaving(c.phase) ==> c.retryCount <= cfg.maxRetry
    ensures Tells(cfg, start, Step(cfg, c, input).value.0, script + [input])
  {
    var more, next := script + [input], Step(cfg, c, input).value.0;
    StepTrail(cfg, c, script, input);
    AnnouncedOn(script, input);
    FailuresOn(cfg, script, input);
    if NewUri(more).Some? {
      LeadsOn(cfg, start, Announced(script), NewUri(more).value);
    } else {
      assert Announced(script) + [] == Announced(script);
    }
    hide Step, Trail, NewUri, AfreshNow, FailsNow, StopsNow, Announced, Leads, Failures, HasStopped;
  }

  lemma RetryInRange(cfg: Config, id: nat, start: string, script: seq<Input>)
    ensures var r := RunAll(cfg, Begin(id, start), script);
            r.Some? && !Leaving(r.value.0.phase) ==> r.value.0.retryCount <= cfg.maxRetry
  {
    RetriesCountUp(cfg, id, start, script);
  }

  lemma {:induction false} RunTells(cfg: Config, id: nat, start: string, script: seq<Input>)
    ensures var r := RunAll(cfg, Begin(id, start), script);
            r.Some? ==> Tells(cfg, start, r.value.0, script)
  {
    if script != [] {
      var init, last := script[..|script| - 1], script[|script| - 1];
      RunTells(cfg, id, start, init);
      RetryInRange(cfg, id, start, init);
      var before := RunAll(cfg, Begin(id, start), init);
      if before.Some? && Step(cfg, before.value.0, last).Some? {
        hide Step, Tells;
        assert script == init + [last];
        StepTells(cfg, start, before.value.0, init, last);
      }
    }
  }

  /** Over every run: as long as the New Session URIs that ended sessions lead somewhere, the client's endpoint is where
      they lead; one that leads nowhere stops it. */
  lemma EndpointIsFold(cfg: Config, id: nat, start: string, script: seq<Input>)
    ensures var r, endpoint := RunAll(cfg, Begin(id, start), script), Leads(cfg, start, Announced(script));
            r.Some? ==>
              if endpoint.Some? then r.value.0.endpoint == endpoint.value
              else r.value.0.phase.SendStopped? || r.value.0.phase.Done?
  {
    RunTells(cfg, id, start, script);
  }

  /** Over every run: the client is on its way out exactly if one of the inputs stopped it, or it failed more than
      max_retry times since it last started afresh; until then its retry count is the number of these failures. */
  lemma StopsExactly(cfg: Config, id: nat, start: string, script: seq<Input>)
    ensures var r := RunAll(cfg, Begin(id, start), script);
            r.Some? ==>
              var c := r.value.0;
              && (c.phase.SendStopped? || c.phase.Done? <==> HasStopped(cfg, script))
              && (!HasStopped(cfg, script) ==> c.retryCount == Failures(cfg, script))
  {
    RunTells(cfg, id, start, script);
  }

  lemma LogIs(cfg: Config, id: nat, script: seq<Input>, input: Input)
    ensures LogNow(cfg, id, script + [input])
         == if !input.choice.Sent? then []
            else if HasStopped(cfg, script) then [S.Stopped(id)]
            else if Back(script, 0) == Some(Established) then [S.Connected(id)]
            else if Ended(script + [input]).Some? then [S.Disconnected(id)]
            else [S.Retrying(id, Failures(cfg, script))]
  {
    BackOnAll(script, input);
    hide Back, HasStopped, Ended, Failures;
    assert (script + [input])[..|script|] == script;
  }

  /** In which phase what is sent, and what the trail says of it. */
  lemma SendingTrail(c: Client, script: seq<Input>, input: Input)
    requires Trail(c, script) && input.choice.Sent?
    ensures c.phase.SendConnected? ==> Back(script, 0) == Some(Established)
    ensures c.phase.SendDisconnected? ==> Back(script, 0) != Some(Established) && Ended(script + [input]).Some?
    ensures c.phase.SendRetrying? ==> Back(script, 0) != Some(Established) && Ended(script + [input]) == None
  {
    BackOnAll(script, input);
    hide Back;
  }

  lemma StepSent(cfg: Config, c: Client, input: Input)
    requires Step(cfg, c, input).Some?
    ensures Step(cfg, c, input).value.1
         == if !input.choice.Sent? then []
            else
              match c.phase
              case SendStopped => [S.Stopped(c.id)]
              case SendConnected => [S.Connected(c.id)]
              case SendDisconnected(_, _) => [S.Disconnected(c.id)]
              case _ => [S.Retrying(c.id, c.retryCount)]
    ensures input.choice.Sent? ==>
              c.phase.SendStopped? || c.phase.SendConnected? || c.phase.SendDisconnected? || c.phase.SendRetrying?
  {
    hide Decide, Fail;
  }

  lemma StepLogs(cfg: Config, start: string, c: Client, script: seq<Input>, input: Input)
    requires Tells(cfg, start, c, script) && Step(cfg, c, input).Some?
    ensures Step(cfg, c, input).value.1 == LogNow(cfg, c.id, script + [input])
    ensures Step(cfg, c, input).value.0.id == c.id
  {
    hide Step, Trail, LogNow, Back, HasStopped, Ended, Failures, Leads, Announced;
    StepKeepsId(cfg, c, input);
    StepSent(cfg, c, input);
    LogIs(cfg, c.id, script, input);
    if input.choice.Sent? {
      SendingTrail(c, script, input);
    }
  }

  lemma StepKeepsId(cfg: Config, c: Client, input: Input)
    requires Step(cfg, c, input).Some?
    ensures Step(cfg, c, input).value.0.id == c.id
  {
    hide ResolveNextEndpoint;
  }

  lemma RunMore(cfg: Config, id: nat, start: string, script: seq<Input>, input: Input)
    ensures var before, r := RunAll(cfg, Begin(id, start), script), RunAll(cfg, Begin(id, start), script + [input]);
            && (r.Some? <==> before.Some? && Step(cfg, before.value.0, input).Some?)
            && (r.Some? ==>
                  var o := Step(cfg, before.value.0, input).value; r.value == (o.0, before.value.1 + o.1))
  {
    hide Step;
    assert (script + [input])[..|script|] == script;
  }

  lemma LogMore(cfg: Config, id: nat, script: seq<Input>, input: Input)
    ensures Log(cfg, id, []) == []
    ensures Log(cfg, id, script + [input]) == Log(cfg, id, script) + LogNow(cfg, id, script + [input])
  {
    hide LogNow;
    assert (script + [input])[..|script|] == script;
  }

  /** Over every run: the events are those the script says. */
  lemma {:induction false} EventsFromScript(cfg: Config, id: nat, start: string, script: seq<Input>)
    ensures var r := RunAll(cfg, Begin(id, start), script);
            r.Some? ==> r.value.0.id == id && r.value.1 == Log(cfg, id, script)
  {
    if script != [] {
      hide *;
      var init, last := script[..|script| - 1], script[|script| - 1];
      assert script == init + [last];
      EventsFromScript(cfg, id, start, init);
      RunTells(cfg, id, start, init);
      RunMore(cfg, id, start, init, last);
      LogMore(cfg, id, init, last);
      var before := RunAll(cfg, Begin(id, start), init);
      if before.Some? && Step(cfg, before.value.0, last).Some? {
        StepLogs(cfg, start, before.value.0, init, last);
      }
    }
  }
}
