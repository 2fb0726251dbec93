/** Dispatching the instances to the workers, collecting their results and shutting down (`zakuro/src/main.rs`,
    `zakuro-core/src/stats.rs`), as steps of main, the workers, their instances and the aggregator in any order. */
module InstanceShutdown {
  import opened Arithmetic
  import opened Outcomes
  import opened Stats

  datatype WorkerPhase = Booting | Serving | Draining | Exited

  /** `open` says that main still holds the sender of the inbox. */
  datatype Worker = Worker(phase: WorkerPhase, inbox: seq<nat>, open: bool, running: seq<nat>)

  datatype MainPhase = Dispatching | Collecting | Joining(next: nat) | Finalizing | Done | Panicked

  /** `todo` holds the events each instance has yet to send. `refused` are the instances no worker took, `lost` those
      in the inbox of a worker whose runtime did not start; `sent` and `delivered` are the events put on the channel
      and taken off it. */
  datatype System = System(
    main: MainPhase, delay: seq<nat>, pending: seq<bool>, workers: seq<Worker>, todo: seq<seq<StatsEvent>>,
    dispatched: seq<nat>, refused: seq<nat>, lost: seq<nat>, results: seq<nat>, received: seq<nat>,
    queue: seq<StatsEvent>, sent: seq<StatsEvent>, delivered: seq<StatsEvent>, aggregating: bool, cancelled: bool)

  datatype Action =
    | Dispatch(k: nat)
    | StopDispatching
    | Receive
    | ChannelClosed
    | CloseInbox
    | Joined
    | Finalized
    | Boot(w: nat)
    | BootFails(w: nat)
    | TakeJob(w: nat)
    | SeeClosed(w: nat)
    | Emit(w: nat, k: nat)
    | Ends(w: nat, k: nat, panics: bool)
    | Exit(w: nat)
    | TakeEvent
    | StopAggregating
    | Cancel

  function WorkerCount(instances: nat, cpus: nat): nat {
    var n := if instances < cpus then instances else cpus;
    if n > 1 then n else 1
  }

  /** Round robin. */
  function Assigned(i: nat, workers: nat): (w: nat)
    requires workers > 0
    ensures w < workers
  {
    i % workers
  }

  /** How many of the first `n` instances a worker is given. */
  function Share(n: nat, workers: nat, w: nat): nat
    requires workers > 0
  {
    if n == 0 then 0 else Share(n - 1, workers, w) + if Assigned(n - 1, workers) == w then 1 else 0
  }

  /** The instances are shared out evenly, the first workers taking one more of what is left over. */
  lemma {:induction false} SharedEvenly(n: nat, workers: nat, w: nat)
    requires w < workers
    ensures Share(n, workers, w) == n / workers + if w < n % workers then 1 else 0
  {
    if n == 0 {
      QuotientIs(0, workers, 0, 0);
    } else {
      SharedEvenly(n - 1, workers, w);
      NextModulo(n - 1, workers);
      assert Assigned(n - 1, workers) == (n - 1) % workers;
    }
  }

  function Ids(n: nat): seq<nat> {
    seq(n, i requires 0 <= i < n => i)
  }

  function Launch(work: seq<seq<StatsEvent>>, cpus: nat): System {
    System(Dispatching, Ids(|work|), seq(|work|, _ => true), seq(WorkerCount(|work|, cpus), _ => Worker(Booting, [], true, [])),
      work, [], [], [], [], [], [], [], [], true, false)
  }

  function Remove<T>(s: seq<T>, k: nat): seq<T>
    requires k < |s|
  {
    s[..k] + s[k + 1..]
  }

  // ----- who still holds a sender -----

  /** A worker holds one until its thread ends, and so does each instance it runs. */
  function WorkerSenders(ws: seq<Worker>): nat {
    if ws == [] then 0
    else
      var w := ws[|ws| - 1];
      WorkerSenders(ws[..|ws| - 1]) + (if w.phase.Exited? then 0 else 1) + |w.running|
  }

  /** Main's own, the one in the template for the workers, and the collector's. */
  function MainSenders(main: MainPhase): nat {
    match main
    case Dispatching => 3
    case Collecting => 2
    case Joining(_) => 2
    case _ => 0
  }

  function StatsSenders(s: System): nat {
    MainSenders(s.main) + WorkerSenders(s.workers)
  }

  // ----- the steps -----

  function ActMain(s: System, a: Action): Option<System> {
    match a
    case Dispatch(k) =>
      if !s.main.Dispatching? || k >= |s.delay| then None
      else
        var i := s.delay[k];
        var s1 := s.(delay := Remove(s.delay, k));
        if i >= |s.pending| || !s.pending[i] || s.workers == [] then Some(s1.(main := Panicked))
        else
          var w := Assigned(i, |s.workers|);
          var s2 := s1.(pending := s.pending[i := false]);
          if s.workers[w].phase.Exited? then Some(s2.(refused := s.refused + [i]))
          else
            Some(s2.(dispatched := s.dispatched + [i],
                     workers := s.workers[w := s.workers[w].(inbox := s.workers[w].inbox + [i])]))
    case StopDispatching =>
      if s.main.Dispatching? && (s.cancelled || s.delay == []) then
        Some(s.(main := if s.dispatched == [] then Joining(0) else Collecting))
      else None
    case Receive =>
      if s.main.Collecting? && s.results != [] then
        Some(s.(results := s.results[1..], received := s.received + [s.results[0]],
                main := if |s.received| + 1 == |s.dispatched| then Joining(0) else Collecting))
      else None
    case ChannelClosed =>
      if s.main.Collecting? && s.results == [] && WorkerSenders(s.workers) == 0 then Some(s.(main := Joining(0))) else None
    case CloseInbox =>
      if s.main.Joining? && s.main.next < |s.workers| && s.workers[s.main.next].open then
        Some(s.(workers := s.workers[s.main.next := s.workers[s.main.next].(open := false)]))
      else None
    case Joined =>
      if !s.main.Joining? then None
      else if s.main.next >= |s.workers| then Some(s.(main := Finalizing))
      else if !s.workers[s.main.next].open && s.workers[s.main.next].phase.Exited? then
        Some(s.(main := Joining(s.main.next + 1)))
      else None
    case Finalized => if s.main.Finalizing? && !s.aggregating then Some(s.(main := Done)) else None
    case _ => None
  }

  /** A worker without the events and results its instances send. */
  function ActWorker(worker: Worker, a: Action): Option<Worker> {
    match a
    case Boot(_) => if worker.phase.Booting? then Some(worker.(phase := Serving)) else None
    case BootFails(_) => if worker.phase.Booting? then Some(worker.(phase := Exited, inbox := [])) else None
    case TakeJob(_) =>
      if worker.phase.Serving? && worker.inbox != [] then
        Some(worker.(inbox := worker.inbox[1..], running := worker.running + [worker.inbox[0]]))
      else None
    case SeeClosed(_) =>
      if worker.phase.Serving? && worker.inbox == [] && !worker.open then Some(worker.(phase := Draining)) else None
    case Exit(_) =>
      if worker.phase.Draining? && worker.running == [] then Some(worker.(phase := Exited)) else None
    case _ => None
  }

  /** What instance `i` does: send its next event, waiting for room while somebody receives, or end. A panic drops the
      events it had left; either way one result is sent. */
  function ActInstance(s: System, w: nat, k: nat, a: Action): Option<System>
    requires w < |s.workers| && k < |s.workers[w].running|
  {
    var i := s.workers[w].running[k];
    if i >= |s.todo| then None
    else
      match a
      case Emit(_, _) =>
        if s.todo[i] == [] || (s.aggregating && |s.queue| >= CAPACITY) then None
        else
          var s1 := s.(todo := s.todo[i := s.todo[i][1..]]);
          if s.aggregating then Some(s1.(queue := s.queue + [s.todo[i][0]], sent := s.sent + [s.todo[i][0]])) else Some(s1)
      case Ends(_, _, panics) =>
        if s.todo[i] != [] && !panics then None
        else
          Some(s.(todo := s.todo[i := []], results := s.results + [i],
                  workers := s.workers[w := s.workers[w].(running := Remove(s.workers[w].running, k))]))
      case _ => None
  }

  function ActAggregator(s: System, a: Action): Option<System> {
    match a
    case TakeEvent =>
      if s.aggregating && s.queue != [] then Some(s.(queue := s.queue[1..], delivered := s.delivered + [s.queue[0]])) else None
    case StopAggregating =>
      if s.aggregating && (s.cancelled || (s.queue == [] && StatsSenders(s) == 0)) then Some(s.(aggregating := false))
      else None
    case Cancel => if s.cancelled then None else Some(s.(cancelled := true))
    case _ => None
  }

  predicate OfWorker(a: Action) {
    a.Boot? || a.BootFails? || a.TakeJob? || a.SeeClosed? || a.Exit?
  }

  predicate OfInstance(a: Action) {
    a.Emit? || a.Ends?
  }

  predicate OfAggregator(a: Action) {
    a.TakeEvent? || a.StopAggregating? || a.Cancel?
  }

  function Act(s: System, a: Action): Option<System> {
    if OfWorker(a) then
      if a.w >= |s.workers| then None
      else
        var w :- ActWorker(s.workers[a.w], a);
        var s1 := s.(workers := s.workers[a.w := w]);
        Some(if a.BootFails? then s1.(lost := s.lost + s.workers[a.w].inbox) else s1)
    else if OfInstance(a) then
      if a.w >= |s.workers| || a.k >= |s.workers[a.w].running| then None else ActInstance(s, a.w, a.k, a)
    else if OfAggregator(a) then ActAggregator(s, a)
    else ActMain(s, a)
  }

  function Exec(s: System, actions: seq<Action>): Option<System> {
    if actions == [] then Some(s)
    else
      var before :- Exec(s, actions[..|actions| - 1]);
      Act(before, actions[|actions| - 1])
  }

  // ----- every instance is somewhere, once -----

  function JobsOf(w: Worker): multiset<nat> {
    multiset(w.inbox) + multiset(w.running)
  }

  /** What the workers have in hand. */
  function Held(ws: seq<Worker>): multiset<nat> {
    if ws == [] then multiset{} else Held(ws[..|ws| - 1]) + JobsOf(ws[|ws| - 1])
  }

  lemma {:induction false} HeldUpdate(ws: seq<Worker>, i: nat, w: Worker)
    requires i < |ws|
    ensures Held(ws[i := w]) + JobsOf(ws[i]) == Held(ws) + JobsOf(w)
  {
    hide JobsOf;
    var next := ws[i := w];
    if i == |ws| - 1 {
      assert next[..i] == ws[..i];
    } else {
      var init, last := ws[..|ws| - 1], JobsOf(ws[|ws| - 1]);
      assert next[..|ws| - 1] == init[i := w];
      HeldUpdate(init, i, w);
      assert Held(next) + JobsOf(ws[i]) == Held(init[i := w]) + JobsOf(ws[i]) + last;
    }
  }

  lemma {:induction false} SendersUpdate(ws: seq<Worker>, i: nat, w: Worker)
    requires i < |ws|
    ensures WorkerSenders(ws[i := w]) + (if ws[i].phase.Exited? then 0 else 1) + |ws[i].running|
         == WorkerSenders(ws) + (if w.phase.Exited? then 0 else 1) + |w.running|
  {
    var next := ws[i := w];
    if i == |ws| - 1 {
      assert next[..i] == ws[..i];
    } else {
      assert next[..|ws| - 1] == ws[..|ws| - 1][i := w];
      SendersUpdate(ws[..|ws| - 1], i, w);
    }
  }

  lemma {:induction false} HeldHas(ws: seq<Worker>, i: nat)
    requires i < |ws|
    ensures JobsOf(ws[i]) <= Held(ws)
  {
    hide JobsOf;
    if i < |ws| - 1 {
      HeldHas(ws[..|ws| - 1], i);
    }
  }

  lemma {:induction false} HeldNone(ws: seq<Worker>)
    requires forall i :: 0 <= i < |ws| ==> ws[i].inbox == [] && ws[i].running == []
    ensures Held(ws) == multiset{}
  {
    if ws != [] {
      HeldNone(ws[..|ws| - 1]);
    }
  }

  /** No senders are left exactly when every worker has exited with nothing running. */
  lemma {:induction false} NoSenders(ws: seq<Worker>)
    ensures WorkerSenders(ws) == 0 <==> forall i :: 0 <= i < |ws| ==> ws[i].phase.Exited? && ws[i].running == []
  {
    if ws != [] {
      var init := ws[..|ws| - 1];
      NoSenders(init);
      assert forall i :: 0 <= i < |init| ==> init[i] == ws[i];
    }
  }

  lemma RemoveSplits<T>(s: seq<T>, k: nat)
    requires k < |s|
    ensures multiset(Remove(s, k)) + multiset{s[k]} == multiset(s)
  {
    assert s == s[..k] + ([s[k]] + s[k + 1..]);
    assert multiset(s) == multiset(s[..k]) + multiset([s[k]] + s[k + 1..]);
    assert multiset([s[k]] + s[k + 1..]) == multiset{s[k]} + multiset(s[k + 1..]);
  }

  /** Each instance waits, was refused, or was dispatched; each one dispatched is in a worker's hands, lost, reported or
      received. */
  ghost predicate Placed(s: System) {
    && multiset(s.delay) + multiset(s.refused) + multiset(s.dispatched) == multiset(Ids(|s.todo|))
    && Held(s.workers) + multiset(s.lost) + multiset(s.results) + multiset(s.received) == multiset(s.dispatched)
  }

  predicate WorkerOk(w: Worker) {
    match w.phase
    case Booting => w.running == []
    case Serving => true
    case Draining => w.inbox == [] && !w.open
    case Exited => w.inbox == [] && w.running == []
  }

  /** How far the workers are when main is where it is. */
  ghost predicate InStep(s: System) {
    && (forall i :: 0 <= i < |s.workers| ==> WorkerOk(s.workers[i]))
    && match s.main
       case Dispatching => s.received == [] && forall i :: 0 <= i < |s.workers| ==> s.workers[i].open
       case Collecting =>
         |s.received| < |s.dispatched| && forall i :: 0 <= i < |s.workers| ==> s.workers[i].open
       case Joining(next) =>
         && next <= |s.workers|
         && (forall i :: 0 <= i < next ==> s.workers[i].phase.Exited?)
         && Held(s.workers) == multiset{} && s.results == []
       case Panicked => false
       case _ =>
         && (forall i :: 0 <= i < |s.workers| ==> s.workers[i].phase.Exited?)
         && Held(s.workers) == multiset{} && s.results == []
  }

  ghost predicate Channels(s: System) {
    && s.delivered + s.queue == s.sent
    && (!s.aggregating && !s.cancelled ==> s.queue == [] && StatsSenders(s) == 0)
    && (s.main.Done? ==> !s.aggregating)
  }

  ghost predicate Waits(s: System) {
    && |s.pending| == |s.todo|
    && s.workers != []
    && (forall i :: i in s.delay ==> i < |s.pending| && s.pending[i])
    && forall i, j :: 0 <= i < j < |s.delay| ==> s.delay[i] != s.delay[j]
  }

  ghost predicate Inv(s: System) {
    Placed(s) && InStep(s) && Channels(s) && Waits(s)
  }

  // ----- every step keeps the invariant -----

  lemma DispatchIsSafe(s: System, k: nat)
    requires Waits(s) && k < |s.delay|
    ensures s.delay[k] < |s.pending| && s.pending[s.delay[k]] && s.workers != []
  {
    assert s.delay[k] in s.delay;
  }

  lemma WaitsWithout(s: System, k: nat)
    requires Waits(s) && k < |s.delay| && s.delay[k] < |s.pending|
    ensures Waits(s.(delay := Remove(s.delay, k), pending := s.pending[s.delay[k] := false]))
  {
    var rest := Remove(s.delay, k);
    assert forall i :: 0 <= i < |rest| ==> rest[i] == s.delay[if i < k then i else i + 1];
    forall i | i in rest ensures i in s.delay && i != s.delay[k] {
      var j :| 0 <= j < |rest| && rest[j] == i;
    }
  }

  // One instance changes place.

  lemma PlacedDispatched(s: System, next: System, i: nat)
    requires Placed(s) && next.(main := s.main, pending := s.pending, aggregating := s.aggregating)
                       == s.(delay := next.delay, dispatched := s.dispatched + [i], workers := next.workers)
    requires multiset(next.delay) + multiset{i} == multiset(s.delay)
    requires Held(next.workers) == Held(s.workers) + multiset{i}
    ensures Placed(next)
  {
    hide Held, Ids;
  }

  lemma PlacedRefused(s: System, next: System, i: nat)
    requires Placed(s) && next.(pending := s.pending) == s.(delay := next.delay, refused := s.refused + [i])
    requires multiset(next.delay) + multiset{i} == multiset(s.delay)
    ensures Placed(next)
  {
    hide Held, Ids;
  }

  lemma PlacedReceived(s: System, next: System)
    requires Placed(s) && s.results != []
    requires next.(main := s.main) == s.(results := s.results[1..], received := s.received + [s.results[0]])
    ensures Placed(next)
  {
    hide Held, Ids;
    assert s.results == [s.results[0]] + s.results[1..];
    assert multiset(s.results) == multiset{s.results[0]} + multiset(s.results[1..]);
  }

  lemma PlacedReported(s: System, next: System, i: nat)
    requires Placed(s) && |next.todo| == |s.todo|
    requires next.(todo := s.todo) == s.(workers := next.workers, results := s.results + [i])
    requires Held(s.workers) == Held(next.workers) + multiset{i}
    ensures Placed(next)
  {
    hide Held, Ids;
  }

  lemma PlacedInHand(s: System, next: System, lost: seq<nat>)
    requires Placed(s) && next == s.(workers := next.workers, lost := s.lost + lost)
    requires Held(s.workers) == Held(next.workers) + multiset(lost)
    ensures Placed(next)
  {
    hide Held, Ids;
  }

  lemma Cancels(a: multiset<nat>, b: multiset<nat>, c: multiset<nat>)
    requires a + c == b + c
    ensures a == b
  {
    forall x ensures a[x] == b[x] {
      assert (a + c)[x] == (b + c)[x];
    }
  }

  lemma InboxGrows(ws: seq<Worker>, w: nat, i: nat)
    requires w < |ws|
    ensures Held(ws[w := ws[w].(inbox := ws[w].inbox + [i])]) == Held(ws) + multiset{i}
  {
    hide Held;
    var more := ws[w].(inbox := ws[w].inbox + [i]);
    HeldUpdate(ws, w, more);
    assert JobsOf(more) == JobsOf(ws[w]) + multiset{i};
    hide JobsOf;
    Cancels(Held(ws[w := more]), Held(ws) + multiset{i}, JobsOf(ws[w]));
  }

  // Main's steps.

  lemma DispatchKeeps(s: System, k: nat)
    requires Inv(s) && Act(s, Dispatch(k)).Some?
    ensures Inv(Act(s, Dispatch(k)).value)
  {
    DispatchIsSafe(s, k);
    WaitsWithout(s, k);
    RemoveSplits(s.delay, k);
    hide Held, WorkerSenders, Ids, Placed, Waits, Remove, Assigned, InStep, Channels, StatsSenders, WorkerOk;
    var i := s.delay[k];
    var w := Assigned(i, |s.workers|);
    var next := Act(s, Dispatch(k)).value;
    WaitsSame(s.(delay := Remove(s.delay, k), pending := s.pending[i := false]), next);
    DispatchInStep(s, next, w, i);
    if s.workers[w].phase.Exited? {
      PlacedRefused(s, next, i);
    } else {
      InboxGrows(s.workers, w, i);
      PlacedDispatched(s, next, i);
    }
  }

  lemma DispatchInStep(s: System, next: System, w: nat, i: nat)
    requires InStep(s) && Channels(s) && s.main.Dispatching? && w < |s.workers|
    requires next == s.(delay := next.delay, pending := next.pending, refused := next.refused,
                        dispatched := next.dispatched, workers := next.workers)
    requires next.workers == s.workers
          || (!s.workers[w].phase.Exited? && next.workers == s.workers[w := s.workers[w].(inbox := s.workers[w].inbox + [i])])
    ensures InStep(next) && Channels(next)
  {
    hide Held, WorkerSenders;
  }

  lemma WaitsSame(s: System, next: System)
    requires Waits(s) && next.delay == s.delay && next.pending == s.pending && |next.todo| == |s.todo|
    requires |next.workers| == |s.workers|
    ensures Waits(next)
  {
  }

  /** Once every dispatched instance has reported, none is held and none is lost. */
  lemma AllReceived(s: System)
    requires Placed(s)
    ensures |s.received| <= |s.dispatched|
    ensures |s.received| == |s.dispatched| ==> Held(s.workers) == multiset{} && s.results == [] && s.lost == []
  {
    hide Held, Ids;
    assert |Held(s.workers)| + |s.lost| + |s.results| + |s.received| == |multiset(s.dispatched)|;
  }

  lemma ReceiveKeeps(s: System)
    requires Inv(s) && Act(s, Receive).Some?
    ensures Inv(Act(s, Receive).value)
  {
    hide Held, WorkerSenders, Ids, Waits, Placed;
    var next := Act(s, Receive).value;
    PlacedReceived(s, next);
    AllReceived(next);
    WaitsSame(s, next);
  }

  lemma MainKeeps(s: System, a: Action)
    requires Inv(s) && !OfWorker(a) && !OfInstance(a) && !OfAggregator(a) && Act(s, a).Some?
    ensures Inv(Act(s, a).value)
  {
    match a
    case Dispatch(k) => DispatchKeeps(s, k);
    case Receive => ReceiveKeeps(s);
    case CloseInbox => CloseInboxKeeps(s);
    case StopDispatching => StopDispatchingKeeps(s);
    case ChannelClosed => ChannelClosedKeeps(s);
    case _ => JoinedKeeps(s, a);
  }

  lemma StopDispatchingKeeps(s: System)
    requires Inv(s) && Act(s, StopDispatching).Some?
    ensures Inv(Act(s, StopDispatching).value)
  {
    hide Held, WorkerSenders, Ids, Waits;
    var next := Act(s, StopDispatching).value;
    WaitsSame(s, next);
    assert Placed(next);
    hide Placed;
    AllReceived(next);
  }

  lemma ChannelClosedKeeps(s: System)
    requires Inv(s) && Act(s, ChannelClosed).Some?
    ensures Inv(Act(s, ChannelClosed).value)
  {
    NoSenders(s.workers);
    hide WorkerSenders, Ids, Waits;
    var next := Act(s, ChannelClosed).value;
    WaitsSame(s, next);
    HeldNone(s.workers);
  }

  lemma CloseInboxKeeps(s: System)
    requires Inv(s) && Act(s, CloseInbox).Some?
    ensures Inv(Act(s, CloseInbox).value)
  {
    hide Held, WorkerSenders, Ids, Waits;
    var next := Act(s, CloseInbox).value;
    var w := s.main.next;
    HeldUpdate(s.workers, w, next.workers[w]);
    assert JobsOf(s.workers[w]) == JobsOf(next.workers[w]);
    hide JobsOf;
    Cancels(Held(next.workers), Held(s.workers), JobsOf(s.workers[w]));
    SendersUpdate(s.workers, w, next.workers[w]);
    WaitsSame(s, next);
  }

  lemma JoinedKeeps(s: System, a: Action)
    requires Inv(s) && (a.Joined? || a.Finalized?) && Act(s, a).Some?
    ensures Inv(Act(s, a).value)
  {
    hide Held, WorkerSenders, Ids, Waits;
    WaitsSame(s, Act(s, a).value);
  }

  // The workers' steps.

  lemma WorkerInHand(worker: Worker, a: Action)
    requires WorkerOk(worker) && ActWorker(worker, a).Some?
    ensures var next := ActWorker(worker, a).value;
            && WorkerOk(next) && next.open == worker.open
            && JobsOf(worker) == JobsOf(next) + multiset(LostBy(worker, a))
            && (worker.phase.Exited? ==> next.phase.Exited?)
  {
    if a.TakeJob? {
      assert worker.inbox == [worker.inbox[0]] + worker.inbox[1..];
    }
  }

  lemma WorkerInStep(s: System, next: System, w: nat)
    requires InStep(s) && Channels(s) && w < |s.workers| && !s.workers[w].phase.Exited? && |next.workers| == |s.workers|
    requires next == s.(workers := s.workers[w := next.workers[w]], lost := next.lost)
    requires WorkerOk(next.workers[w]) && next.workers[w].open == s.workers[w].open && Held(next.workers) <= Held(s.workers)
    ensures InStep(next) && Channels(next)
  {
    hide Held, WorkerSenders, WorkerOk;
  }

  /** What a worker loses from its hands, all workers together lose. */
  lemma HandedOver(ws: seq<Worker>, w: nat, after: Worker, gone: multiset<nat>)
    requires w < |ws| && JobsOf(ws[w]) == JobsOf(after) + gone
    ensures Held(ws) == Held(ws[w := after]) + gone
  {
    hide Held, JobsOf;
    HeldUpdate(ws, w, after);
    Cancels(Held(ws), Held(ws[w := after]) + gone, JobsOf(after));
  }

  lemma WorkersOk(s: System, w: nat)
    requires InStep(s) && w < |s.workers|
    ensures WorkerOk(s.workers[w])
  {
  }

  function LostBy(worker: Worker, a: Action): seq<nat> {
    if a.BootFails? then worker.inbox else []
  }

  lemma WorkerShape(s: System, a: Action)
    requires OfWorker(a) && Act(s, a).Some?
    ensures a.w < |s.workers| && ActWorker(s.workers[a.w], a).Some? && !s.workers[a.w].phase.Exited?
    ensures var after := ActWorker(s.workers[a.w], a).value;
            Act(s, a).value == s.(workers := s.workers[a.w := after], lost := s.lost + LostBy(s.workers[a.w], a))
  {
    assert s.lost + [] == s.lost;
  }

  lemma WorkerKeeps(s: System, a: Action)
    requires Inv(s) && OfWorker(a) && Act(s, a).Some?
    ensures Inv(Act(s, a).value)
  {
    hide Act, Held, StatsSenders, Ids, Waits, Placed, JobsOf, InStep, Channels, ActWorker;
    WorkerShape(s, a);
    var worker := s.workers[a.w];
    WorkersOk(s, a.w);
    WorkerInHand(worker, a);
    var after := ActWorker(worker, a).value;
    var lost := LostBy(worker, a);
    hide WorkerOk;
    var next := Act(s, a).value;
    HandedOver(s.workers, a.w, after, multiset(lost));
    WaitsSame(s, next);
    PlacedInHand(s, next, lost);
    WorkerInStep(s, next, a.w);
  }

  // The instances' and the aggregator's steps.

  lemma EmitKeeps(s: System, a: Action)
    requires Inv(s) && a.Emit? && Act(s, a).Some?
    ensures Inv(Act(s, a).value)
  {
    NoSenders(s.workers);
    hide Held, WorkerSenders, Ids, Waits;
    WaitsSame(s, Act(s, a).value);
  }

  lemma EndsShape(s: System, a: Action)
    requires a.Ends? && Act(s, a).Some?
    ensures a.w < |s.workers| && a.k < |s.workers[a.w].running| && s.workers[a.w].running[a.k] < |s.todo|
    ensures var i, after := s.workers[a.w].running[a.k], WithoutRunning(s.workers[a.w], a.k);
            Act(s, a).value == s.(workers := s.workers[a.w := after], results := s.results + [i], todo := s.todo[i := []])
  {
  }

  function WithoutRunning(worker: Worker, k: nat): Worker
    requires k < |worker.running|
  {
    worker.(running := Remove(worker.running, k))
  }

  lemma RunningGone(worker: Worker, k: nat)
    requires k < |worker.running|
    ensures JobsOf(worker) == JobsOf(WithoutRunning(worker, k)) + multiset{worker.running[k]}
  {
    RemoveSplits(worker.running, k);
  }

  lemma EndsKeeps(s: System, a: Action)
    requires Inv(s) && a.Ends? && Act(s, a).Some?
    ensures Inv(Act(s, a).value)
  {
    hide Act, Held, StatsSenders, Ids, Waits, Placed, JobsOf, InStep, Channels, WithoutRunning;
    EndsShape(s, a);
    var worker := s.workers[a.w];
    var i, after := worker.running[a.k], WithoutRunning(worker, a.k);
    RunningGone(worker, a.k);
    HandedOver(s.workers, a.w, after, multiset{i});
    var next := Act(s, a).value;
    WaitsSame(s, next);
    PlacedReported(s, next, i);
    WorkersOk(s, a.w);
    EndsInStep(s, next, a.w, a.k);
  }

  lemma EndsInStep(s: System, next: System, w: nat, k: nat)
    requires InStep(s) && Channels(s) && w < |s.workers| && k < |s.workers[w].running|
    requires next == s.(workers := s.workers[w := WithoutRunning(s.workers[w], k)], results := next.results, todo := next.todo)
    ensures InStep(next) && Channels(next)
  {
    hide Remove;
    NoSenders(s.workers);
    HeldHas(s.workers, w);
    hide Held, WorkerSenders;
    assert s.workers[w].running[k] in JobsOf(s.workers[w]);
    assert s.workers[w].running[k] in Held(s.workers);
  }

  lemma AggregatorKeeps(s: System, a: Action)
    requires Inv(s) && OfAggregator(a) && Act(s, a).Some?
    ensures Inv(Act(s, a).value)
  {
    hide Held, WorkerSenders, Ids, Waits, Placed;
    var next := Act(s, a).value;
    WaitsSame(s, next);
    if a.TakeEvent? {
      assert s.delivered + s.queue == next.delivered + next.queue;
    }
    PlacedSame(s, next);
  }

  lemma PlacedSame(s: System, next: System)
    requires Placed(s)
    requires next == s.(queue := next.queue, delivered := next.delivered, aggregating := next.aggregating,
                        cancelled := next.cancelled)
    ensures Placed(next)
  {
    hide Held, Ids;
  }

  lemma StepKeeps(s: System, a: Action)
    requires Inv(s) && Act(s, a).Some?
    ensures Inv(Act(s, a).value)
  {
    hide Act, Inv;
    if OfWorker(a) {
      WorkerKeeps(s, a);
    } else if a.Emit? {
      EmitKeeps(s, a);
    } else if a.Ends? {
      EndsKeeps(s, a);
    } else if OfAggregator(a) {
      AggregatorKeeps(s, a);
    } else {
      MainKeeps(s, a);
    }
  }

  lemma LaunchOk(work: seq<seq<StatsEvent>>, cpus: nat)
    ensures Inv(Launch(work, cpus))
  {
    var s := Launch(work, cpus);
    HeldNone(s.workers);
  }

  lemma {:induction false} ExecKeeps(s: System, actions: seq<Action>)
    requires Inv(s)
    ensures Exec(s, actions).Some? ==> Inv(Exec(s, actions).value)
  {
    if actions != [] {
      hide Act, Inv;
      ExecKeeps(s, actions[..|actions| - 1]);
      var before := Exec(s, actions[..|actions| - 1]);
      if before.Some? && Act(before.value, actions[|actions| - 1]).Some? {
        StepKeeps(before.value, actions[|actions| - 1]);
      }
    }
  }

  // ----- one result for each dispatched instance -----

  lemma {:induction false} IdsOnce(n: nat)
    ensures forall i: nat :: multiset(Ids(n))[i] == if i < n then 1 else 0
  {
    if n > 0 {
      var last: nat := n - 1;
      IdsOnce(last);
      assert Ids(n) == Ids(last) + [last];
      assert multiset(Ids(n)) == multiset(Ids(last)) + multiset{last};
    } else {
      assert Ids(0) == [];
    }
  }

  /** In every run: no instance is dispatched twice, none reports twice or without being dispatched, and main never
      panics over an instance already taken. When main has all results, every dispatched instance that was not lost
      has reported once, however it ended. */
  lemma OneResultEach(work: seq<seq<StatsEvent>>, cpus: nat, actions: seq<Action>)
    ensures var r := Exec(Launch(work, cpus), actions);
            r.Some? ==>
              var s := r.value;
              && !s.main.Panicked?
              && (forall i: nat :: multiset(s.dispatched)[i] <= 1 && (i in s.dispatched ==> i < |work|))
              && multiset(s.results) + multiset(s.received) <= multiset(s.dispatched)
              && (s.main.Joining? || s.main.Finalizing? || s.main.Done? ==>
                    multiset(s.received) + multiset(s.lost) == multiset(s.dispatched))
  {
    hide Act, Inv, Held, Ids;
    LaunchOk(work, cpus);
    ExecKeeps(Launch(work, cpus), actions);
    ExecSize(Launch(work, cpus), actions);
    var r := Exec(Launch(work, cpus), actions);
    if r.Some? {
      ResultsOf(r.value);
    }
  }

  lemma ResultsOf(s: System)
    requires Inv(s)
    ensures !s.main.Panicked?
    ensures forall i: nat :: multiset(s.dispatched)[i] <= 1 && (i in s.dispatched ==> i < |s.todo|)
    ensures multiset(s.results) + multiset(s.received) <= multiset(s.dispatched)
    ensures s.main.Joining? || s.main.Finalizing? || s.main.Done? ==>
              multiset(s.received) + multiset(s.lost) == multiset(s.dispatched)
  {
    hide Held, Ids, Channels, Waits;
    IdsOnce(|s.todo|);
    forall i: nat ensures multiset(s.dispatched)[i] <= 1 && (i in s.dispatched ==> i < |s.todo|) {
      assert (multiset(s.delay) + multiset(s.refused) + multiset(s.dispatched))[i] == multiset(Ids(|s.todo|))[i];
      assert i in s.dispatched <==> i in multiset(s.dispatched);
    }
  }

  lemma StepSize(s: System, a: Action)
    requires Act(s, a).Some?
    ensures |Act(s, a).value.todo| == |s.todo|
  {
    hide ActWorker, StatsSenders, WorkerSenders, Remove, Assigned;
  }

  lemma {:induction false} ExecSize(s: System, actions: seq<Action>)
    ensures Exec(s, actions).Some? ==> |Exec(s, actions).value.todo| == |s.todo|
  {
    if actions != [] {
      hide Act;
      ExecSize(s, actions[..|actions| - 1]);
      var before := Exec(s, actions[..|actions| - 1]);
      if before.Some? && Act(before.value, actions[|actions| - 1]).Some? {
        StepSize(before.value, actions[|actions| - 1]);
      }
    }
  }

  // ----- the summary is complete -----

  /** When main is done and nobody cancelled, no sender of events is left and every event sent was delivered. */
  lemma SummaryComplete(work: seq<seq<StatsEvent>>, cpus: nat, actions: seq<Action>)
    ensures var r := Exec(Launch(work, cpus), actions);
            r.Some? && r.value.main.Done? && !r.value.cancelled ==>
              r.value.delivered == r.value.sent && StatsSenders(r.value) == 0
  {
    hide Act, Launch, Placed, InStep, Waits, StatsSenders;
    LaunchOk(work, cpus);
    ExecKeeps(Launch(work, cpus), actions);
    var r := Exec(Launch(work, cpus), actions);
    if r.Some? && r.value.main.Done? && !r.value.cancelled {
      assert r.value.delivered + [] == r.value.delivered;
    }
  }
}
