/** Whether the shutdown of the instances ends: where the system can get stuck, when main waits forever, and how long a run
    can be. */
module InstanceHangs {
  import opened Outcomes
  import opened Stats
  import opened InstanceShutdown

  // ----- nobody waits forever -----

  /** The steps that the system owes: no cancellation, no failure. */
  predicate Ordinary(a: Action) {
    !a.Cancel? && !a.BootFails? && !(a.Ends? && a.panics)
  }

  ghost predicate Stuck(s: System) {
    forall a: Action :: Ordinary(a) ==> Act(s, a) == None
  }

  /** An instance is lost in the inbox of a worker that failed to start, while another worker still waits for work. */
  ghost predicate Hangs(s: System) {
    s.lost != [] && exists w :: 0 <= w < |s.workers| && s.workers[w].phase.Serving? && s.workers[w].open
  }

  lemma StuckInstance(s: System, w: nat)
    requires Inv(s) && Stuck(s) && w < |s.workers|
    ensures s.workers[w].running == []
  {
    if s.workers[w].running != [] {
      RunningKnown(s, w, 0);
      NotEnabled(s, Ends(w, 0, false));
      NotEnabled(s, Emit(w, 0));
      NotEnabled(s, TakeEvent);
      hide Inv, Stuck, ActMain, StatsSenders;
    }
  }

  lemma StuckWorker(s: System, w: nat)
    requires Inv(s) && Stuck(s) && w < |s.workers|
    ensures var worker := s.workers[w];
            worker.inbox == [] && worker.running == []
            && (worker.phase.Exited? || (worker.phase.Serving? && worker.open))
  {
    WorkersOk(s, w);
    StuckInstance(s, w);
    NotEnabled(s, Boot(w));
    NotEnabled(s, TakeJob(w));
    NotEnabled(s, SeeClosed(w));
    NotEnabled(s, Exit(w));
    hide Inv, InStep, Placed, Waits, Channels, StatsSenders, ActMain, ActInstance, ActAggregator, Stuck;
  }

  lemma NotEnabled(s: System, a: Action)
    requires Stuck(s) && Ordinary(a)
    ensures Act(s, a) == None
  {
  }

  /** Whatever runs is one of the instances. */
  lemma RunningKnown(s: System, w: nat, k: nat)
    requires Inv(s) && w < |s.workers| && k < |s.workers[w].running|
    ensures s.workers[w].running[k] < |s.todo|
  {
    hide InStep, Channels, Waits, Held, Ids;
    var i := s.workers[w].running[k];
    HeldHas(s.workers, w);
    assert i in JobsOf(s.workers[w]);
    assert i in Held(s.workers) && i in multiset(s.dispatched);
    ResultsOf(s);
    assert multiset(s.dispatched)[i] > 0;
  }

  /** Every worker is idle: it has exited, or it serves an inbox that is open and empty. */
  ghost predicate Idle(s: System) {
    forall w :: 0 <= w < |s.workers| ==>
      var worker := s.workers[w];
      worker.inbox == [] && worker.running == [] && (worker.phase.Exited? || (worker.phase.Serving? && worker.open))
  }

  lemma StuckCollecting(s: System)
    requires Inv(s) && Stuck(s) && Idle(s) && s.main.Collecting?
    ensures Hangs(s)
  {
    HeldNone(s.workers);
    NoSenders(s.workers);
    NotEnabled(s, Receive);
    NotEnabled(s, ChannelClosed);
    assert Act(s, Receive) == ActMain(s, Receive) && Act(s, ChannelClosed) == ActMain(s, ChannelClosed);
    hide Stuck, Held, WorkerSenders, Waits, Ids, Channels, Act;
    var worker :| 0 <= worker < |s.workers| && s.workers[worker].phase.Serving?;
    LostIfShort(s);
  }

  lemma LostIfShort(s: System)
    requires Placed(s) && Held(s.workers) == multiset{} && s.results == [] && |s.received| < |s.dispatched|
    ensures s.lost != []
  {
    hide Held, Ids;
    assert |multiset(s.lost)| + |s.received| == |multiset(s.dispatched)|;
  }

  lemma NotStuckJoining(s: System)
    requires Inv(s) && Stuck(s) && Idle(s)
    ensures !s.main.Joining?
  {
    hide Stuck, Held, WorkerSenders, Waits, Ids, Channels, Placed;
    NotEnabled(s, CloseInbox);
    NotEnabled(s, Joined);
  }

  lemma NotStuckFinalizing(s: System)
    requires Inv(s) && Stuck(s) && Idle(s)
    ensures !s.main.Finalizing?
  {
    NoSenders(s.workers);
    hide Stuck, Held, WorkerSenders, Waits, Ids, Placed;
    NotEnabled(s, Finalized);
    NotEnabled(s, TakeEvent);
    NotEnabled(s, StopAggregating);
  }

  /** A state in which nothing more can happen of itself is the end, or a hang. */
  lemma StuckMeansDone(s: System)
    requires Inv(s) && Stuck(s)
    ensures s.main.Done? || (s.main.Collecting? && Hangs(s))
  {
    assert Idle(s) by {
      forall w: nat | w < |s.workers|
        ensures s.workers[w].inbox == [] && s.workers[w].running == []
        ensures s.workers[w].phase.Exited? || (s.workers[w].phase.Serving? && s.workers[w].open)
      {
        StuckWorker(s, w);
      }
    }
    NotStuckJoining(s);
    NotStuckFinalizing(s);
    NotEnabled(s, Dispatch(0));
    NotEnabled(s, StopDispatching);
    hide Stuck, Idle, Placed, Channels, Held;
    if s.main.Collecting? {
      StuckCollecting(s);
    }
  }

  // ----- a hang lasts -----

  lemma StepLoses(s: System, a: Action)
    requires Act(s, a).Some?
    ensures s.lost <= Act(s, a).value.lost
    ensures !a.BootFails? ==> Act(s, a).value.lost == s.lost
    ensures OfWorker(a) || OfInstance(a) || OfAggregator(a) ==> Act(s, a).value.main == s.main
  {
  }

  /** A worker that serves an open inbox goes on doing so until main closes it. */
  lemma ServesOn(s: System, a: Action, w: nat)
    requires Act(s, a).Some? && w < |s.workers| && s.workers[w].phase.Serving? && s.workers[w].open && !s.main.Joining?
    ensures var next := Act(s, a).value;
            |next.workers| == |s.workers| && next.workers[w].phase.Serving? && next.workers[w].open
  {
    hide StatsSenders, WorkerSenders, Assigned, Remove;
    if OfWorker(a) {
      hide ActMain, ActInstance, ActAggregator;
    } else if OfInstance(a) {
      hide ActMain, ActWorker, ActAggregator;
    } else if OfAggregator(a) {
      hide ActMain, ActWorker, ActInstance;
    } else {
      hide ActWorker, ActInstance, ActAggregator;
    }
  }

  lemma CollectingStays(s: System, a: Action)
    requires Placed(s) && Waits(s) && s.lost != [] && WorkerSenders(s.workers) > 0
    requires (s.main.Dispatching? || s.main.Collecting?) && !OfWorker(a) && !OfInstance(a) && !OfAggregator(a)
    requires Act(s, a).Some? && Placed(Act(s, a).value)
    ensures var next := Act(s, a).value; !next.main.Joining? && !next.main.Finalizing? && !next.main.Done?
  {
    hide WorkerSenders, Held, Act;
    var next := Act(s, a).value;
    AllReceived(next);
    StepLoses(s, a);
    if next.main.Joining? || next.main.Finalizing? || next.main.Done? {
      LeavesBy(s, a);
      LostWasDispatched(next);
    }
  }

  lemma LostWasDispatched(s: System)
    requires Placed(s) && s.lost != []
    ensures s.dispatched != []
  {
    hide Held, Ids;
    assert s.lost[0] in multiset(s.lost);
  }

  lemma HangStays(s: System, a: Action)
    requires Inv(s) && Hangs(s) && (s.main.Dispatching? || s.main.Collecting?) && Act(s, a).Some?
    ensures var next := Act(s, a).value; Hangs(next) && (next.main.Dispatching? || next.main.Collecting?)
  {
    var w :| 0 <= w < |s.workers| && s.workers[w].phase.Serving? && s.workers[w].open;
    hide Act, InStep;
    StepKeeps(s, a);
    StepLoses(s, a);
    ServesOn(s, a, w);
    if !OfWorker(a) && !OfInstance(a) && !OfAggregator(a) {
      NoSenders(s.workers);
      CollectingStays(s, a);
    }
    ResultsOf(Act(s, a).value);
  }

  /** Once main waits for a lost instance, it waits forever. */
  lemma {:induction false} HangsForever(s: System, actions: seq<Action>)
    requires Inv(s) && Hangs(s) && (s.main.Dispatching? || s.main.Collecting?)
    ensures var r := Exec(s, actions);
            r.Some? ==> Inv(r.value) && Hangs(r.value) && (r.value.main.Dispatching? || r.value.main.Collecting?)
  {
    if actions != [] {
      hide Act, Inv, Hangs;
      HangsForever(s, actions[..|actions| - 1]);
      var before := Exec(s, actions[..|actions| - 1]);
      if before.Some? && Act(before.value, actions[|actions| - 1]).Some? {
        HangStays(before.value, actions[|actions| - 1]);
        StepKeeps(before.value, actions[|actions| - 1]);
      }
    }
  }

  // ----- every run is bounded -----

  function Rank(p: WorkerPhase): nat {
    match p
    case Booting => 3
    case Serving => 2
    case Draining => 1
    case Exited => 0
  }

  function WorkerWeight(w: Worker): nat {
    4 * |w.inbox| + 2 * |w.running| + Rank(w.phase) + if w.open then 1 else 0
  }

  function Weight(ws: seq<Worker>): nat {
    if ws == [] then 0 else Weight(ws[..|ws| - 1]) + WorkerWeight(ws[|ws| - 1])
  }

  function EventsLeft(todo: seq<seq<StatsEvent>>): nat {
    if todo == [] then 0 else EventsLeft(todo[..|todo| - 1]) + |todo[|todo| - 1]|
  }

  function MainRank(main: MainPhase, workers: nat): nat {
    match main
    case Dispatching => workers + 4
    case Collecting => workers + 3
    case Joining(next) => if next <= workers then workers - next + 2 else 2
    case Finalizing => 1
    case _ => 0
  }

  /** What is left to do, at most. */
  function Budget(s: System): nat {
    5 * |s.delay| + Weight(s.workers) + 2 * EventsLeft(s.todo) + |s.results| + |s.queue| + MainRank(s.main, |s.workers|)
    + (if s.aggregating then 1 else 0) + (if s.cancelled then 0 else 1)
  }

  lemma {:induction false} WeightUpdate(ws: seq<Worker>, i: nat, w: Worker)
    requires i < |ws|
    ensures Weight(ws[i := w]) == Weight(ws) - WorkerWeight(ws[i]) + WorkerWeight(w)
  {
    hide WorkerWeight;
    var next := ws[i := w];
    if i == |ws| - 1 {
      assert next[..i] == ws[..i];
    } else {
      assert next[..|ws| - 1] == ws[..|ws| - 1][i := w];
      WeightUpdate(ws[..|ws| - 1], i, w);
    }
  }

  lemma {:induction false} EventsLeftUpdate(todo: seq<seq<StatsEvent>>, i: nat, es: seq<StatsEvent>)
    requires i < |todo|
    ensures EventsLeft(todo[i := es]) == EventsLeft(todo) - |todo[i]| + |es|
  {
    var next := todo[i := es];
    if i == |todo| - 1 {
      assert next[..i] == todo[..i];
    } else {
      assert next[..|todo| - 1] == todo[..|todo| - 1][i := es];
      EventsLeftUpdate(todo[..|todo| - 1], i, es);
    }
  }

  lemma StepSpends(s: System, a: Action)
    requires Act(s, a).Some?
    ensures Budget(Act(s, a).value) < Budget(s)
  {
    hide Weight, EventsLeft;
    if OfWorker(a) {
      WeightUpdate(s.workers, a.w, ActWorker(s.workers[a.w], a).value);
    } else if OfInstance(a) {
      InstanceSpends(s, a);
    } else if !OfAggregator(a) {
      MainSpends(s, a);
    }
  }

  lemma InstanceSpends(s: System, a: Action)
    requires OfInstance(a) && Act(s, a).Some?
    ensures Budget(Act(s, a).value) < Budget(s)
  {
    hide Weight, EventsLeft, WorkerSenders;
    var i := s.workers[a.w].running[a.k];
    var next := Act(s, a).value;
    EventsLeftUpdate(s.todo, i, next.todo[i]);
    if a.Ends? {
      WeightUpdate(s.workers, a.w, next.workers[a.w]);
    }
  }

  /** Main's steps change one worker at most. */
  lemma MainSpends(s: System, a: Action)
    requires !OfWorker(a) && !OfInstance(a) && !OfAggregator(a) && Act(s, a).Some?
    ensures Budget(Act(s, a).value) < Budget(s)
  {
    hide Weight, EventsLeft, WorkerSenders, Assigned, ActWorker, ActInstance, ActAggregator;
    var next := Act(s, a).value;
    if a.Dispatch? {
      DispatchSpends(s, a.k);
    } else if a.CloseInbox? {
      WeightUpdate(s.workers, s.main.next, next.workers[s.main.next]);
    }
  }

  lemma DispatchSpends(s: System, k: nat)
    requires Act(s, Dispatch(k)).Some?
    ensures Budget(Act(s, Dispatch(k)).value) < Budget(s)
  {
    hide Weight, EventsLeft, WorkerSenders, Assigned, ActWorker, ActInstance, ActAggregator;
    var next := Act(s, Dispatch(k)).value;
    if next.workers != s.workers {
      var w := Assigned(s.delay[k], |s.workers|);
      WeightUpdate(s.workers, w, next.workers[w]);
    }
  }

  lemma {:induction false} ExecSpends(s: System, actions: seq<Action>)
    ensures Exec(s, actions).Some? ==> |actions| + Budget(Exec(s, actions).value) <= Budget(s)
  {
    if actions != [] {
      hide Act, Budget;
      ExecSpends(s, actions[..|actions| - 1]);
      var before := Exec(s, actions[..|actions| - 1]);
      if before.Some? && Act(before.value, actions[|actions| - 1]).Some? {
        StepSpends(before.value, actions[|actions| - 1]);
      }
    }
  }

  // ----- when it hangs -----

  predicate Active(main: MainPhase) {
    main.Dispatching? || main.Collecting?
  }

  ghost predicate SomeServes(s: System) {
    exists w :: 0 <= w < |s.workers| && s.workers[w].phase.Serving? && s.workers[w].open
  }

  ghost predicate AllExited(s: System) {
    forall w :: 0 <= w < |s.workers| ==> s.workers[w].phase.Exited?
  }

  /** A worker's runtime fails to start, and instances are in its inbox. */
  predicate LosesInbox(s: System, a: Action) {
    a.BootFails? && a.w < |s.workers| && s.workers[a.w].inbox != []
  }

  ghost predicate SomeBoots(actions: seq<Action>) {
    exists m :: 0 <= m < |actions| && actions[m].Boot?
  }

  ghost predicate LosesAt(s: System, before: seq<Action>, a: Action) {
    Exec(s, before).Some? && LosesInbox(Exec(s, before).value, a)
  }

  ghost predicate SomeLoses(s: System, actions: seq<Action>) {
    exists m :: 0 <= m < |actions| && LosesAt(s, actions[..m], actions[m])
  }

  /** How the state tells whether some worker has started, and whether instances were lost. */
  ghost predicate Shows(s: System, boots: bool, loses: bool) {
    && (s.lost != [] <==> loses)
    && (SomeServes(s) ==> boots)
    && (Active(s.main) && boots ==> SomeServes(s))
    && (!Active(s.main) && loses ==> !boots && AllExited(s))
  }

  lemma StepServes(s: System, a: Action)
    requires Inv(s) && Act(s, a).Some? && Inv(Act(s, a).value)
    ensures var next := Act(s, a).value;
            && (SomeServes(next) ==> SomeServes(s) || a.Boot?)
            && (Active(s.main) && SomeServes(s) ==> SomeServes(next))
            && (a.Boot? && Active(next.main) ==> SomeServes(next))
  {
    hide Placed, Channels, Waits, StatsSenders, WorkerSenders, Assigned, Remove, WorkerOk;
    var next := Act(s, a).value;
    if Active(s.main) && SomeServes(s) {
      var w :| 0 <= w < |s.workers| && s.workers[w].phase.Serving? && s.workers[w].open;
      ServesOn(s, a, w);
    }
    if SomeServes(next) && !a.Boot? {
      var w :| 0 <= w < |next.workers| && next.workers[w].phase.Serving? && next.workers[w].open;
      ServedBefore(s, a, w);
    }
    if a.Boot? && Active(next.main) {
      BootServes(s, a);
    }
  }

  lemma ServedBefore(s: System, a: Action, w: nat)
    requires Act(s, a).Some? && !a.Boot? && w < |Act(s, a).value.workers|
    requires Act(s, a).value.workers[w].phase.Serving? && Act(s, a).value.workers[w].open
    ensures w < |s.workers| && s.workers[w].phase.Serving? && s.workers[w].open
  {
    hide StatsSenders, WorkerSenders, Assigned, Remove;
    if OfWorker(a) {
      hide ActMain, ActInstance, ActAggregator;
    } else if OfInstance(a) {
      hide ActMain, ActWorker, ActAggregator;
    } else if OfAggregator(a) {
      hide ActMain, ActWorker, ActInstance;
    } else {
      hide ActWorker, ActInstance, ActAggregator;
    }
  }

  lemma BootServes(s: System, a: Action)
    requires a.Boot? && Act(s, a).Some? && InStep(Act(s, a).value) && Active(Act(s, a).value.main)
    ensures SomeServes(Act(s, a).value)
  {
    hide Held, WorkerOk;
    assert Act(s, a).value.workers[a.w].phase.Serving?;
  }

  lemma StepLost(s: System, a: Action)
    requires Act(s, a).Some?
    ensures Act(s, a).value.lost != [] <==> s.lost != [] || LosesInbox(s, a)
  {
    hide StatsSenders, WorkerSenders, Assigned, Remove;
  }

  /** The ways out of the wait for results. */
  lemma LeavesBy(s: System, a: Action)
    requires Act(s, a).Some? && Active(s.main) && !Active(Act(s, a).value.main)
    ensures var next := Act(s, a).value;
            || next.main.Panicked?
            || (a.StopDispatching? && next.dispatched == [])
            || (a.Receive? && |next.received| == |next.dispatched|)
            || (a.ChannelClosed? && WorkerSenders(s.workers) == 0 && next.workers == s.workers)
  {
    hide StatsSenders, WorkerSenders, Assigned, Remove, ActWorker;
  }

  /** Main gives up on lost instances only when every worker has exited. */
  lemma StepLeaves(s: System, a: Action)
    requires Inv(s) && Act(s, a).Some? && Inv(Act(s, a).value)
    requires Active(s.main) && !Active(Act(s, a).value.main) && Act(s, a).value.lost != []
    ensures AllExited(s) && AllExited(Act(s, a).value) && !a.Boot?
  {
    hide Act, Held;
    var next := Act(s, a).value;
    LeavesBy(s, a);
    ResultsOf(next);
    AllReceived(next);
    LostWasDispatched(next);
    NoSenders(s.workers);
    hide Inv, WorkerSenders;
  }

  lemma NoneRuns(s: System, a: Action)
    requires InStep(s) && AllExited(s) && OfInstance(a)
    ensures Act(s, a) == None
  {
    if a.w < |s.workers| {
      WorkersOk(s, a.w);
    }
  }

  lemma StaysExited(s: System, a: Action)
    requires Inv(s) && Act(s, a).Some? && AllExited(s) && !Active(s.main)
    ensures AllExited(Act(s, a).value) && !a.Boot? && !Active(Act(s, a).value.main)
  {
    hide Placed, Waits, Channels, InStep, Held, ActInstance, WorkerSenders, Assigned, Remove, StatsSenders;
    StaysLate(s, a);
    assert !OfInstance(a) by {
      if OfInstance(a) {
        NoneRuns(s, a);
      }
    }
  }

  lemma NoInbox(ws: seq<Worker>, w: nat)
    requires Held(ws) == multiset{} && w < |ws|
    ensures ws[w].inbox == []
  {
    HeldHas(ws, w);
    hide Held;
    assert |multiset(ws[w].inbox)| <= |JobsOf(ws[w])|;
  }

  /** Once main has all results there are, no inbox holds an instance. */
  lemma LosesNothingLate(s: System, a: Action)
    requires Inv(s) && !Active(s.main)
    ensures !LosesInbox(s, a)
  {
    hide Held;
    if a.BootFails? && a.w < |s.workers| {
      NoInbox(s.workers, a.w);
    }
  }

  lemma StepShows(s: System, a: Action, boots: bool, loses: bool)
    requires Inv(s) && Act(s, a).Some? && Shows(s, boots, loses)
    ensures Shows(Act(s, a).value, boots || a.Boot?, loses || LosesInbox(s, a))
  {
    hide Act, Inv, LosesInbox;
    var next := Act(s, a).value;
    StepKeeps(s, a);
    StepServes(s, a);
    StepLost(s, a);
    if !Active(next.main) && next.lost != [] {
      if Active(s.main) {
        StepLeaves(s, a);
      } else {
        LosesNothingLate(s, a);
        StaysExited(s, a);
      }
    } else if !Active(s.main) {
      StaysLate(s, a);
    }
  }

  lemma StaysLate(s: System, a: Action)
    requires Act(s, a).Some? && !Active(s.main)
    ensures !Active(Act(s, a).value.main)
  {
    hide StatsSenders, WorkerSenders, Assigned, Remove;
    if OfWorker(a) {
      hide ActMain, ActInstance, ActAggregator;
    } else if OfInstance(a) {
      hide ActMain, ActWorker, ActAggregator;
    } else if OfAggregator(a) {
      hide ActMain, ActWorker, ActInstance;
    } else {
      hide ActWorker, ActInstance, ActAggregator;
    }
  }

  lemma MoreActions(s: System, init: seq<Action>, a: Action)
    ensures SomeBoots(init + [a]) <==> SomeBoots(init) || a.Boot?
    ensures SomeLoses(s, init + [a]) <==> SomeLoses(s, init) || LosesAt(s, init, a)
  {
    hide LosesAt;
    var all := init + [a];
    assert all[..|init|] == init && all[|init|] == a;
    if SomeBoots(init) {
      var m :| 0 <= m < |init| && init[m].Boot?;
      assert all[m].Boot?;
    }
    if SomeLoses(s, init) {
      var m :| 0 <= m < |init| && LosesAt(s, init[..m], init[m]);
      assert all[..m] == init[..m] && all[m] == init[m];
    }
    if SomeLoses(s, all) {
      var m :| 0 <= m < |all| && LosesAt(s, all[..m], all[m]);
      assert m < |init| ==> all[..m] == init[..m] && all[m] == init[m];
    }
  }

  lemma LaunchShows(work: seq<seq<StatsEvent>>, cpus: nat)
    ensures Shows(Launch(work, cpus), false, false)
  {
  }

  lemma {:induction false} ExecShows(work: seq<seq<StatsEvent>>, cpus: nat, actions: seq<Action>)
    ensures var s0 := Launch(work, cpus);
            Exec(s0, actions).Some? ==> Shows(Exec(s0, actions).value, SomeBoots(actions), SomeLoses(s0, actions))
  {
    LaunchShows(work, cpus);
    LaunchOk(work, cpus);
    hide Launch, Shows, Act, Inv;
    var s0 := Launch(work, cpus);
    if actions != [] {
      var init, a := actions[..|actions| - 1], actions[|actions| - 1];
      ExecShows(work, cpus, init);
      ExecKeeps(s0, init);
      var before := Exec(s0, init);
      if before.Some? && Act(before.value, a).Some? {
        assert actions == init + [a];
        MoreActions(s0, init, a);
        StepShows(before.value, a, SomeBoots(init), SomeLoses(s0, init));
      }
    }
  }

  /** Shutting down ends, whatever the order of steps, wherever an instance panics and whenever the run is cancelled: no
      run is longer than its budget, and where it can go no further main is done, unless some worker failed to start
      with an instance in its inbox while some worker did start; then main is not done. */
  lemma ShutdownEnds(work: seq<seq<StatsEvent>>, cpus: nat, actions: seq<Action>)
    ensures var s0 := Launch(work, cpus); var r := Exec(s0, actions);
            r.Some? ==>
              && |actions| <= Budget(s0)
              && (Stuck(r.value) ==> (r.value.main.Done? <==> !(SomeBoots(actions) && SomeLoses(s0, actions))))
              && (SomeBoots(actions) && SomeLoses(s0, actions) ==> Active(r.value.main))
  {
    LaunchOk(work, cpus);
    ExecKeeps(Launch(work, cpus), actions);
    ExecSpends(Launch(work, cpus), actions);
    ExecShows(work, cpus, actions);
    hide Exec, Act, Inv, Launch, Stuck, Budget, SomeBoots, SomeLoses;
    var r := Exec(Launch(work, cpus), actions);
    if r.Some? && Stuck(r.value) {
      StuckMeansDone(r.value);
    }
  }

  // ----- a run that hangs -----

  lemma Then(s: System, actions: seq<Action>, a: Action) returns (more: seq<Action>)
    requires Exec(s, actions).Some? && Act(Exec(s, actions).value, a).Some?
    ensures more == actions + [a] && Exec(s, more) == Act(Exec(s, actions).value, a)
  {
    more := actions + [a];
    assert more[..|actions|] == actions;
  }

  /** The first of two instances goes to the first of two workers. */
  lemma FirstDispatched()
    ensures var r := Act(Launch([[], []], 2), Dispatch(0));
            && r.Some? && r.value.main.Dispatching? && r.value.lost == []
            && r.value.workers == [Worker(Booting, [0], true, []), Worker(Booting, [], true, [])]
  {
    var s := Launch([[], []], 2);
    assert s.workers == [Worker(Booting, [], true, []), Worker(Booting, [], true, [])];
    assert s.delay[0] == 0 && Assigned(0, 2) == 0;
    assert s.workers[0].inbox + [0] == [0];
  }

  /** Two instances without work on two processors: the first is put in the inbox of a worker whose runtime then fails,
      while the other worker starts. */
  lemma HangReached() returns (actions: seq<Action>)
    ensures var r := Exec(Launch([[], []], 2), actions); r.Some? && Active(r.value.main) && Hangs(r.value)
  {
    var s := Launch([[], []], 2);
    FirstDispatched();
    actions := [];
    assert Exec(s, actions) == Some(s);
    hide Exec, Launch, ActMain, ActInstance, ActAggregator;
    actions := Then(s, actions, Dispatch(0));
    actions := Then(s, actions, BootFails(0));
    actions := Then(s, actions, Boot(1));
    assert Exec(s, actions).value.workers[1].phase.Serving?;
  }

  /** From there main is never done, whatever follows. */
  lemma ReachesHangForever() returns (actions: seq<Action>)
    ensures var r := Exec(Launch([[], []], 2), actions);
            r.Some? && forall more :: Exec(r.value, more).Some? ==> Active(Exec(r.value, more).value.main)
  {
    actions := HangReached();
    LaunchOk([[], []], 2);
    ExecKeeps(Launch([[], []], 2), actions);
    var s := Exec(Launch([[], []], 2), actions).value;
    hide Exec, Launch, Inv, Hangs;
    forall more ensures Exec(s, more).Some? ==> Active(Exec(s, more).value.main) {
      HangsForever(s, more);
    }
  }
}
