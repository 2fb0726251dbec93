/** What one connection shows of itself, and the verdict on it (`zakuro/src/connection_lifecycle.rs`). */
module ConnectionLifecycle {
  import opened Outcomes

  datatype MediaKind = Video | Audio

  datatype LifecycleEnd = BuildFailed | Shutdown | DurationExpired | ScenarioDisconnect | ScenarioExit | Unexpected

  datatype Failure =
    | FailedToBuild | ConnectFailed | NoMediaSent | NoDeliveryReport | NoMediaReceived | UnexpectedDisconnect

  datatype Outcome = Success | Failed(reason: Failure) | Unjudged

  datatype Settings = Settings(grace: nat, expectsSend: bool, expectsReceive: bool, videoEnabled: bool, audioEnabled: bool) {
    predicate Enabled(kind: MediaKind) {
      if kind.Video? then videoEnabled else audioEnabled
    }
  }

  const STALL_SAMPLES: nat := 3

  /** Times are instants of the wall clock, which may run backwards. */
  datatype Record = Record(
    connectedAt: Option<int>,
    firstSent: map<MediaKind, int>, firstReceived: map<MediaKind, int>,
    firstDeliveryReportAt: Option<int>,
    samples: nat, lastActivityAt: Option<int>, maxIdle: nat, idle: nat,
    disconnectedAt: Option<int>, end: Option<LifecycleEnd>)

  const BEGUN := Record(None, map[], map[], None, 0, None, 0, 0, None, None)

  function First(m: map<MediaKind, int>, kind: MediaKind, at: int): map<MediaKind, int> {
    if kind in m then m else m[kind := at]
  }

  function OnMediaSent(r: Record, kind: MediaKind, at: int): Record {
    r.(firstSent := First(r.firstSent, kind, at))
  }

  function OnMediaReceived(r: Record, kind: MediaKind, at: int): Record {
    r.(firstReceived := First(r.firstReceived, kind, at))
  }

  function OnDeliveryReport(r: Record, at: int): Record {
    if r.firstDeliveryReportAt.None? then r.(firstDeliveryReportAt := Some(at)) else r
  }

  /** One sample with media entries. */
  function OnSample(r: Record, at: int, active: bool): Record {
    var r1 := r.(samples := r.samples + 1);
    if active then r1.(idle := 0, lastActivityAt := Some(at))
    else r1.(idle := r.idle + 1, maxIdle := if r.maxIdle > r.idle + 1 then r.maxIdle else r.idle + 1)
  }

  function OnConnected(r: Record, at: int): Record {
    if r.connectedAt.None? then r.(connectedAt := Some(at)) else r
  }

  function MarkDisconnected(r: Record, end: LifecycleEnd, at: int): Record {
    r.(end := if r.end.None? then Some(end) else r.end,
       disconnectedAt := if r.disconnectedAt.None? then Some(at) else r.disconnectedAt)
  }

  predicate IsStalled(r: Record) {
    r.lastActivityAt.Some? && r.maxIdle >= STALL_SAMPLES
  }

  predicate EveryEnabled(m: map<MediaKind, int>, s: Settings) {
    (!s.videoEnabled || Video in m) && (!s.audioEnabled || Audio in m)
  }

  /** `duration_since`, with zero where the clock ran backwards. */
  function Elapsed(since: int, now: int): nat {
    if now > since then now - since else 0
  }

  function Judge(r: Record, s: Settings): Outcome {
    if r.end == Some(BuildFailed) then Failed(FailedToBuild)
    else if r.connectedAt.None? then Failed(ConnectFailed)
    else if !s.videoEnabled && !s.audioEnabled then Unjudged
    else if r.samples == 0 then Unjudged
    else
      var connectedAt := r.connectedAt.value;
      var endedAt := if r.disconnectedAt.Some? then r.disconnectedAt.value else connectedAt;
      if Elapsed(connectedAt, endedAt) < s.grace then Unjudged
      else if s.expectsSend && !EveryEnabled(r.firstSent, s) then Failed(NoMediaSent)
      else if s.expectsSend && r.firstDeliveryReportAt.None? then Failed(NoDeliveryReport)
      else if s.expectsReceive && !EveryEnabled(r.firstReceived, s) then Failed(NoMediaReceived)
      else if r.end == Some(Unexpected) then Failed(UnexpectedDisconnect)
      else Success
  }

  // ----- idle runs over a whole trace -----

  /** The record after samples that were active or not, all at the same time. */
  function Samples(active: seq<bool>): Record {
    if active == [] then BEGUN else OnSample(Samples(active[..|active| - 1]), 0, active[|active| - 1])
  }

  /** From `i` on, `n` samples in a row were idle. */
  predicate IdleRun(active: seq<bool>, i: nat, n: nat) {
    i + n <= |active| && forall j :: i <= j < i + n ==> !active[j]
  }

  ghost predicate LongestIdleRun(active: seq<bool>, n: nat) {
    (exists i: nat :: IdleRun(active, i, n)) && forall i: nat, m: nat :: IdleRun(active, i, m) ==> m <= n
  }

  /** `idle` is the run at the end, `maxIdle` the longest run anywhere. */
  ghost predicate Tracks(r: Record, active: seq<bool>) {
    && r.samples == |active|
    && r.idle <= |active|
    && IdleRun(active, |active| - r.idle, r.idle)
    && (r.idle < |active| ==> active[|active| - r.idle - 1])
    && LongestIdleRun(active, r.maxIdle)
    && (r.lastActivityAt.Some? <==> true in active)
  }

  lemma TracksBegun(r: Record)
    requires r.samples == r.idle == r.maxIdle == 0 && r.lastActivityAt.None?
    ensures Tracks(r, [])
  {
    assert IdleRun([], 0, 0);
  }

  lemma SampleTracks(r: Record, active: seq<bool>, at: int, now: bool)
    requires Tracks(r, active)
    ensures Tracks(OnSample(r, at, now), active + [now])
  {
    var more, next := active + [now], OnSample(r, at, now);
    forall i: nat, m: nat | IdleRun(more, i, m) ensures m <= next.maxIdle {
      if i + m <= |active| {
        IdlePrefix(active, now, i, m);
      } else {
        LastRun(r, active, now, i, m);
      }
    }
    var i: nat :| IdleRun(active, i, r.maxIdle);
    assert IdleRun(more, i, r.maxIdle);
    assert !now ==> IdleRun(more, |more| - next.idle, next.idle);
    assert now ==> IdleRun(more, |more|, 0);
    assert more[|active|] == now;
  }

  lemma IdlePrefix(active: seq<bool>, now: bool, i: nat, m: nat)
    requires IdleRun(active + [now], i, m) && i + m <= |active|
    ensures IdleRun(active, i, m)
  {
    forall j | i <= j < i + m ensures !active[j] {
      assert !(active + [now])[j];
    }
  }

  lemma LastRun(r: Record, active: seq<bool>, now: bool, i: nat, m: nat)
    requires Tracks(r, active) && IdleRun(active + [now], i, m) && i + m == |active| + 1
    ensures m <= if now then 0 else r.idle + 1
  {
    var more := active + [now];
    if m > 0 {
      assert !more[|active|];
      if r.idle < |active| {
        assert more[|active| - r.idle - 1];
      }
    }
  }

  /** Over the samples of a whole trace, `max_idle_samples` is the length of the longest idle run, and the connection
      counts as stalled exactly if some sample was active and some idle run, wherever it lies, has three samples. */
  lemma StalledMeans(r: Record, active: seq<bool>)
    requires Tracks(r, active)
    ensures IsStalled(r) <==> true in active && exists i: nat :: IdleRun(active, i, STALL_SAMPLES)
  {
    if exists i: nat :: IdleRun(active, i, STALL_SAMPLES) {
      assert STALL_SAMPLES <= r.maxIdle;
    }
    if r.maxIdle >= STALL_SAMPLES {
      var i: nat :| IdleRun(active, i, r.maxIdle);
      assert IdleRun(active, i, STALL_SAMPLES);
    }
  }

  /** Media flowed, and later three samples in a row were idle: a stall in the words of `is_stalled`'s documentation. */
  ghost predicate StoppedFlowing(active: seq<bool>) {
    exists i: nat, j: nat :: i < j && i < |active| && active[i] && IdleRun(active, j, STALL_SAMPLES)
  }

  /** The code also counts three idle samples before the media first flowed, and differs from its documentation in
      this case only. */
  lemma StalledVersusDocumented(r: Record, active: seq<bool>)
    requires Tracks(r, active)
    ensures IsStalled(r) <==> StoppedFlowing(active) || (true in active && IdleRun(active, 0, STALL_SAMPLES))
  {
    StalledMeans(r, active);
    if IsStalled(r) && !StoppedFlowing(active) {
      var j: nat :| IdleRun(active, j, STALL_SAMPLES);
      assert forall i: nat :: i < j && i < |active| ==> !active[i];
    }
    if StoppedFlowing(active) {
      var i: nat, j: nat :| i < j && i < |active| && active[i] && IdleRun(active, j, STALL_SAMPLES);
      assert active[i] in active;
    }
  }

  /** A stall is never taken back. */
  lemma StallStays(r: Record, at: int, active: bool)
    requires IsStalled(r)
    ensures IsStalled(OnSample(r, at, active))
  {
  }

  // ----- the lifecycle as it runs -----

  class Lifecycle {
    var connectedAt: Option<int>
    var firstSent: map<MediaKind, int>
    var firstReceived: map<MediaKind, int>
    var firstDeliveryReportAt: Option<int>
    var samples: nat
    var lastActivityAt: Option<int>
    var maxIdle: nat
    var idle: nat
    var disconnectedAt: Option<int>
    var end: Option<LifecycleEnd>

    function Now(): Record
      reads this
    {
      Record(connectedAt, firstSent, firstReceived, firstDeliveryReportAt, samples, lastActivityAt, maxIdle, idle,
             disconnectedAt, end)
    }

    constructor ()
      ensures Now() == BEGUN
    {
      connectedAt, firstSent, firstReceived, firstDeliveryReportAt := None, map[], map[], None;
      samples, lastActivityAt, maxIdle, idle := 0, None, 0, 0;
      disconnectedAt, end := None, None;
    }

    method OnPeerConnected(at: int)
      modifies this`connectedAt
      ensures Now() == OnConnected(old(Now()), at)
    {
      if connectedAt.None? { connectedAt := Some(at); }
    }

    method MediaSent(kind: MediaKind, at: int)
      modifies this`firstSent
      ensures Now() == OnMediaSent(old(Now()), kind, at)
    {
      if kind !in firstSent { firstSent := firstSent[kind := at]; }
    }

    method MediaReceived(kind: MediaKind, at: int)
      modifies this`firstReceived
      ensures Now() == OnMediaReceived(old(Now()), kind, at)
    {
      if kind !in firstReceived { firstReceived := firstReceived[kind := at]; }
    }

    method DeliveryReport(at: int)
      modifies this`firstDeliveryReportAt
      ensures Now() == OnDeliveryReport(old(Now()), at)
    {
      if firstDeliveryReportAt.None? { firstDeliveryReportAt := Some(at); }
    }

    method Sample(at: int, active: bool)
      modifies this`samples, this`lastActivityAt, this`maxIdle, this`idle
      ensures Now() == OnSample(old(Now()), at, active)
    {
      samples := samples + 1;
      if active {
        idle := 0;
        lastActivityAt := Some(at);
      } else {
        idle := idle + 1;
        if idle > maxIdle { maxIdle := idle; }
      }
    }

    method Disconnect(reason: LifecycleEnd, at: int)
      modifies this`end, this`disconnectedAt
      ensures Now() == MarkDisconnected(old(Now()), reason, at)
    {
      if end.None? { end := Some(reason); }
      if disconnectedAt.None? { disconnectedAt := Some(at); }
    }
  }
}
