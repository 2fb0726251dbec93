/** From statistics samples to the facts a verdict rests on (`zakuro/src/media_observer.rs`). */
module MediaObserver {
  import opened Outcomes
  import opened ConnectionLifecycle

  datatype Counters = Counters(packets: nat, bytes: nat, frames: nat) {
    predicate HasTraffic() {
      packets > 0 || bytes > 0 || frames > 0
    }

    predicate IncreasedFrom(previous: Counters) {
      packets > previous.packets || bytes > previous.bytes || frames > previous.frames
    }
  }

  datatype Direction = Outbound | Inbound

  /** An element of a sample. Streams without id or with an unknown kind are not observed. */
  datatype Entry =
    | Stream(direction: Direction, id: Option<string>, kind: Option<MediaKind>, counters: Counters)
    | RemoteInbound
    | Other

  /** A sample as collected; `entries` is None when it does not parse to an array. */
  datatype Sample = Sample(at: int, entries: Option<seq<Entry>>)

  type Streams = map<string, Counters>

  /** What is known after some entries of a sample: the streams' last counters, the record, and the three flags. */
  datatype State = State(outbound: Streams, inbound: Streams, record: Record, media: bool, active: bool, report: bool)

  predicate Observed(e: Entry) {
    e.Stream? && e.id.Some? && e.kind.Some?
  }

  function Known(s: State, d: Direction): Streams {
    if d.Outbound? then s.outbound else s.inbound
  }

  /** Did the stream move since it was last seen, or, if new, at all? */
  predicate Moves(streams: Streams, id: string, c: Counters) {
    if id in streams then c.IncreasedFrom(streams[id]) else c.HasTraffic()
  }

  function ObserveEntry(s: State, e: Entry, at: int): State {
    if e.RemoteInbound? then s.(report := true)
    else if !Observed(e) then s
    else
      var id, kind := e.id.value, e.kind.value;
      var moved := Moves(Known(s, e.direction), id, e.counters);
      var s1 := s.(media := true, active := s.active || moved);
      match e.direction
      case Outbound =>
        s1.(outbound := s.outbound[id := e.counters],
            record := if moved then OnMediaSent(s.record, kind, at) else s.record)
      case Inbound =>
        s1.(inbound := s.inbound[id := e.counters],
            record := if moved then OnMediaReceived(s.record, kind, at) else s.record)
  }

  function ObserveEntries(s: State, es: seq<Entry>, at: int): State {
    if es == [] then s else ObserveEntry(ObserveEntries(s, es[..|es| - 1], at), es[|es| - 1], at)
  }

  /** The end of a sample: count it if it had media entries, and note the delivery report. */
  function Finish(s: State, at: int): State {
    var r1 := if s.media then OnSample(s.record, at, s.active) else s.record;
    s.(record := if s.report then OnDeliveryReport(r1, at) else r1)
  }

  function Observe(s: State, sample: Sample): State {
    if sample.entries.None? then s
    else Finish(ObserveEntries(s.(media := false, active := false, report := false), sample.entries.value, sample.at), sample.at)
  }

  function ObserveAll(trace: seq<Sample>): State {
    if trace == [] then State(map[], map[], BEGUN, false, false, false)
    else Observe(ObserveAll(trace[..|trace| - 1]), trace[|trace| - 1])
  }

  // ----- what the trace shows -----

  /** The sample has a stream of this kind and direction with a nonzero counter. */
  ghost predicate Shows(sample: Sample, d: Direction, kind: MediaKind) {
    sample.entries.Some? && exists e :: e in sample.entries.value && Flowing(e, d, kind)
  }

  predicate Flowing(e: Entry, d: Direction, kind: MediaKind) {
    Observed(e) && e.direction == d && e.kind.value == kind && e.counters.HasTraffic()
  }

  ghost predicate ShowsReport(sample: Sample) {
    sample.entries.Some? && RemoteInbound in sample.entries.value
  }

  /** Within each direction an id always carries the same kind of media. */
  ghost predicate KeepsKind(trace: seq<Sample>, kinds: map<(Direction, string), MediaKind>) {
    forall i, e :: 0 <= i < |trace| && trace[i].entries.Some? && e in trace[i].entries.value ==> KindIs(kinds, e)
  }

  predicate KindIs(kinds: map<(Direction, string), MediaKind>, e: Entry) {
    Observed(e) ==> (e.direction, e.id.value) in kinds && kinds[(e.direction, e.id.value)] == e.kind.value
  }

  /** The time of the first sample that shows the kind in that direction. */
  ghost predicate FirstShown(trace: seq<Sample>, d: Direction, kind: MediaKind, at: Option<int>) {
    if at.None? then forall i :: 0 <= i < |trace| ==> !Shows(trace[i], d, kind)
    else exists i :: IsFirst(trace, d, kind, i) && trace[i].at == at.value
  }

  ghost predicate IsFirst(trace: seq<Sample>, d: Direction, kind: MediaKind, i: int) {
    0 <= i < |trace| && Shows(trace[i], d, kind) && forall j :: 0 <= j < i ==> !Shows(trace[j], d, kind)
  }

  function FirstTime(r: Record, d: Direction, kind: MediaKind): Option<int> {
    var m := if d.Outbound? then r.firstSent else r.firstReceived;
    if kind in m then Some(m[kind]) else None
  }

  /** As long as a kind was not seen flowing, every stream of it stands at zero. */
  ghost predicate Quiet(s: State, kinds: map<(Direction, string), MediaKind>, d: Direction, kind: MediaKind) {
    FirstTime(s.record, d, kind).None? ==>
      forall id :: id in Known(s, d) ==>
        (d, id) in kinds && (kinds[(d, id)] == kind ==> !Known(s, d)[id].HasTraffic())
  }

  ghost predicate KnownKinds(s: State, kinds: map<(Direction, string), MediaKind>) {
    forall d, id :: id in Known(s, d) ==> (d, id) in kinds
  }

  lemma EntryFirst(s: State, kinds: map<(Direction, string), MediaKind>, e: Entry, at: int, d: Direction, kind: MediaKind)
    requires KindIs(kinds, e) && Quiet(s, kinds, d, kind) && KnownKinds(s, kinds)
    ensures var next := ObserveEntry(s, e, at); var t := FirstTime(s.record, d, kind);
            && Quiet(next, kinds, d, kind) && KnownKinds(next, kinds)
            && FirstTime(next.record, d, kind) == if t.None? && Flowing(e, d, kind) then Some(at) else t
  {
    var next := ObserveEntry(s, e, at);
    if Observed(e) {
      EntryKnown(s, e, at);
      if e.direction == d && e.kind.value == kind {
        SameKind(s, kinds, e, at);
      }
    }
  }

  /** Only the entry's own stream gets new counters. */
  lemma EntryKnown(s: State, e: Entry, at: int)
    requires Observed(e)
    ensures forall d :: Known(ObserveEntry(s, e, at), d)
                     == if d == e.direction then Known(s, d)[e.id.value := e.counters] else Known(s, d)
    ensures forall d, kind :: d != e.direction || kind != e.kind.value ==>
              FirstTime(ObserveEntry(s, e, at).record, d, kind) == FirstTime(s.record, d, kind)
  {
  }

  /** A stream of a kind not seen flowing yet moves exactly when it shows traffic. */
  lemma SameKind(s: State, kinds: map<(Direction, string), MediaKind>, e: Entry, at: int)
    requires Observed(e) && KindIs(kinds, e) && Quiet(s, kinds, e.direction, e.kind.value)
    ensures var t := FirstTime(s.record, e.direction, e.kind.value);
            FirstTime(ObserveEntry(s, e, at).record, e.direction, e.kind.value)
            == if t.None? && e.counters.HasTraffic() then Some(at) else t
  {
  }

  lemma {:induction false} EntriesFirst(s: State, kinds: map<(Direction, string), MediaKind>, es: seq<Entry>, at: int,
      d: Direction, kind: MediaKind)
    requires forall e :: e in es ==> KindIs(kinds, e)
    requires Quiet(s, kinds, d, kind) && KnownKinds(s, kinds)
    ensures var next := ObserveEntries(s, es, at); var t := FirstTime(s.record, d, kind);
            && Quiet(next, kinds, d, kind) && KnownKinds(next, kinds)
            && FirstTime(next.record, d, kind)
            == if t.None? && exists e :: e in es && Flowing(e, d, kind) then Some(at) else t
  {
    if es != [] {
      var init, last := es[..|es| - 1], es[|es| - 1];
      assert es == init + [last];
      EntriesFirst(s, kinds, init, at, d, kind);
      EntryFirst(ObserveEntries(s, init, at), kinds, last, at, d, kind);
    }
  }

  /** The flags and the sample count have no part in it. */
  lemma FinishFirst(s: State, kinds: map<(Direction, string), MediaKind>, at: int, d: Direction, kind: MediaKind)
    ensures FirstTime(Finish(s, at).record, d, kind) == FirstTime(s.record, d, kind)
    ensures Quiet(Finish(s, at), kinds, d, kind) <==> Quiet(s, kinds, d, kind)
    ensures KnownKinds(Finish(s, at), kinds) <==> KnownKinds(s, kinds)
  {
    assert forall d :: Known(Finish(s, at), d) == Known(s, d);
  }

  lemma FlagsFirst(s: State, t: State, kinds: map<(Direction, string), MediaKind>, d: Direction, kind: MediaKind)
    requires t == s.(media := false, active := false, report := false)
    ensures FirstTime(t.record, d, kind) == FirstTime(s.record, d, kind)
    ensures Quiet(t, kinds, d, kind) <==> Quiet(s, kinds, d, kind)
    ensures KnownKinds(t, kinds) <==> KnownKinds(s, kinds)
  {
    assert forall d :: Known(t, d) == Known(s, d);
  }

  lemma SampleFirst(s: State, kinds: map<(Direction, string), MediaKind>, sample: Sample, d: Direction, kind: MediaKind)
    requires sample.entries.Some? ==> forall e :: e in sample.entries.value ==> KindIs(kinds, e)
    requires Quiet(s, kinds, d, kind) && KnownKinds(s, kinds)
    ensures var next := Observe(s, sample); var t := FirstTime(s.record, d, kind);
            && Quiet(next, kinds, d, kind) && KnownKinds(next, kinds)
            && FirstTime(next.record, d, kind) == if t.None? && Shows(sample, d, kind) then Some(sample.at) else t
  {
    hide ObserveEntries, Flowing, KindIs, Quiet, KnownKinds, FirstTime, Finish;
    if sample.entries.Some? {
      var t := s.(media := false, active := false, report := false);
      FlagsFirst(s, t, kinds, d, kind);
      EntriesFirst(t, kinds, sample.entries.value, sample.at, d, kind);
      FinishFirst(ObserveEntries(t, sample.entries.value, sample.at), kinds, sample.at, d, kind);
    }
  }

  lemma {:induction false} FirstSeenInv(trace: seq<Sample>, kinds: map<(Direction, string), MediaKind>, d: Direction, kind: MediaKind)
    requires KeepsKind(trace, kinds)
    ensures var s := ObserveAll(trace);
            && Quiet(s, kinds, d, kind) && KnownKinds(s, kinds)
            && FirstShown(trace, d, kind, FirstTime(s.record, d, kind))
  {
    if trace != [] {
      var init, last := trace[..|trace| - 1], trace[|trace| - 1];
      assert last == trace[|trace| - 1];
      forall i, e | 0 <= i < |init| && init[i].entries.Some? && e in init[i].entries.value ensures KindIs(kinds, e) {
        assert init[i] == trace[i];
      }
      FirstSeenInv(init, kinds, d, kind);
      SampleFirst(ObserveAll(init), kinds, last, d, kind);
      FirstShownAppend(init, last, d, kind, FirstTime(ObserveAll(init).record, d, kind));
      assert trace == init + [last];
    }
  }

  lemma FirstShownAppend(trace: seq<Sample>, last: Sample, d: Direction, kind: MediaKind, at: Option<int>)
    requires FirstShown(trace, d, kind, at)
    ensures FirstShown(trace + [last], d, kind, if at.None? && Shows(last, d, kind) then Some(last.at) else at)
  {
    var more := trace + [last];
    assert forall j :: 0 <= j < |trace| ==> more[j] == trace[j];
    if at.Some? {
      var i :| IsFirst(trace, d, kind, i) && trace[i].at == at.value;
      assert IsFirst(more, d, kind, i);
    } else if Shows(last, d, kind) {
      assert IsFirst(more, d, kind, |trace|);
    }
  }

  /** Whatever streams appear, restart or are reset: the first time recorded for a kind is that of the first sample in
      which some stream of that kind shows a nonzero counter. */
  lemma FirstSeen(trace: seq<Sample>, kinds: map<(Direction, string), MediaKind>, d: Direction, kind: MediaKind)
    requires KeepsKind(trace, kinds)
    ensures FirstShown(trace, d, kind, FirstTime(ObserveAll(trace).record, d, kind))
  {
    FirstSeenInv(trace, kinds, d, kind);
  }

  // ----- activity -----

  predicate SameStream(e: Entry, f: Entry) {
    Observed(e) && Observed(f) && e.direction == f.direction && e.id == f.id
  }

  /** The entry's stream is known, and no counter is above what it showed last. */
  predicate NotAbove(s: State, e: Entry) {
    Observed(e) ==>
      e.id.value in Known(s, e.direction) && !e.counters.IncreasedFrom(Known(s, e.direction)[e.id.value])
  }

  /** A sample whose counters all stay or fall is idle, even if it resets them all. */
  lemma {:induction false} DecreaseIsIdle(s: State, es: seq<Entry>, at: int)
    requires forall i, j :: 0 <= i < j < |es| ==> !SameStream(es[i], es[j])
    requires forall e :: e in es ==> NotAbove(s, e)
    ensures ObserveEntries(s, es, at).active == s.active
    ensures forall e :: NotAbove(s, e) && (forall f :: f in es ==> !SameStream(e, f)) ==> NotAbove(ObserveEntries(s, es, at), e)
  {
    if es != [] {
      var init, last := es[..|es| - 1], es[|es| - 1];
      assert es == init + [last];
      DecreaseIsIdle(s, init, at);
      forall f | f in init ensures !SameStream(last, f) {
        var i :| 0 <= i < |init| && init[i] == f;
        assert !SameStream(es[i], es[|es| - 1]);
      }
      assert NotAbove(ObserveEntries(s, init, at), last);
      forall e | NotAbove(s, e) && (forall f :: f in es ==> !SameStream(e, f))
        ensures NotAbove(ObserveEntries(s, es, at), e)
      {
        assert last in es && forall f :: f in init ==> f in es;
        OtherStream(ObserveEntries(s, init, at), last, e, at);
      }
    }
  }

  lemma OtherStream(s: State, last: Entry, e: Entry, at: int)
    requires NotAbove(s, e) && !SameStream(e, last)
    ensures NotAbove(ObserveEntry(s, last, at), e)
  {
  }

  // ----- which samples are active, by the trace alone -----

  /** The entries of all samples, one after another. */
  function AllEntries(trace: seq<Sample>): seq<Entry> {
    if trace == [] then []
    else AllEntries(trace[..|trace| - 1]) + EntriesOf(trace[|trace| - 1])
  }

  function EntriesOf(sample: Sample): seq<Entry> {
    if sample.entries.Some? then sample.entries.value else []
  }

  /** The counters of the last entry of a stream. */
  function LastSeen(es: seq<Entry>, d: Direction, id: string): Option<Counters> {
    if es == [] then None
    else
      var e := es[|es| - 1];
      if Observed(e) && e.direction == d && e.id.value == id then Some(e.counters) else LastSeen(es[..|es| - 1], d, id)
  }

  /** After the earlier entries, this one has a counter above the last of its stream, or, with none before, above zero. */
  predicate MovesAfter(earlier: seq<Entry>, e: Entry) {
    Observed(e) && match LastSeen(earlier, e.direction, e.id.value)
                   case None => e.counters.HasTraffic()
                   case Some(last) => e.counters.IncreasedFrom(last)
  }

  /** A sample is active if one of its entries moves, after the entries before it in the trace and in the sample. */
  ghost predicate IsActive(earlier: seq<Entry>, es: seq<Entry>) {
    exists k :: 0 <= k < |es| && MovesAfter(earlier + es[..k], es[k])
  }

  ghost predicate HasMedia(es: seq<Entry>) {
    exists e :: e in es && Observed(e)
  }

  /** Which of the samples with media entries were active, in order. */
  ghost function Activity(trace: seq<Sample>): seq<bool> {
    if trace == [] then []
    else
      var init, es := trace[..|trace| - 1], EntriesOf(trace[|trace| - 1]);
      Activity(init) + if HasMedia(es) then [IsActive(AllEntries(init), es)] else []
  }

  /** What the observer knows of each stream is what the stream showed last. */
  ghost predicate Mirrors(s: State, es: seq<Entry>) {
    forall d, id :: LastSeen(es, d, id) == if id in Known(s, d) then Some(Known(s, d)[id]) else None
  }

  lemma EntryMirrors(s: State, es: seq<Entry>, e: Entry, at: int)
    requires Mirrors(s, es)
    ensures var next := ObserveEntry(s, e, at);
            && Mirrors(next, es + [e])
            && next.media == (s.media || Observed(e))
            && next.active == (s.active || MovesAfter(es, e))
  {
    var next := ObserveEntry(s, e, at);
    assert (es + [e])[..|es|] == es;
    forall d, id
      ensures LastSeen(es + [e], d, id) == if id in Known(next, d) then Some(Known(next, d)[id]) else None
    {
      assert LastSeen(es, d, id) == if id in Known(s, d) then Some(Known(s, d)[id]) else None;
    }
  }

  lemma MoreEntries(earlier: seq<Entry>, es: seq<Entry>, e: Entry)
    ensures IsActive(earlier, es + [e]) <==> IsActive(earlier, es) || MovesAfter(earlier + es, e)
    ensures HasMedia(es + [e]) <==> HasMedia(es) || Observed(e)
  {
    hide MovesAfter, Observed;
    var more := es + [e];
    assert more[..|es|] == es && more[|es|] == e;
    if IsActive(earlier, es) {
      var k :| 0 <= k < |es| && MovesAfter(earlier + es[..k], es[k]);
      assert more[..k] == es[..k] && more[k] == es[k];
    }
    if IsActive(earlier, more) {
      var k :| 0 <= k < |more| && MovesAfter(earlier + more[..k], more[k]);
      assert k < |es| ==> more[..k] == es[..k] && more[k] == es[k];
    }
  }

  lemma {:induction false} EntriesMirror(s: State, earlier: seq<Entry>, es: seq<Entry>, at: int)
    requires Mirrors(s, earlier)
    ensures var next := ObserveEntries(s, es, at);
            && Mirrors(next, earlier + es)
            && next.media == (s.media || HasMedia(es))
            && next.active == (s.active || IsActive(earlier, es))
  {
    hide Mirrors, MovesAfter, Observed;
    if es == [] {
      assert earlier + es == earlier;
    } else {
      var init, last := es[..|es| - 1], es[|es| - 1];
      EntriesMirror(s, earlier, init, at);
      EntryMirrors(ObserveEntries(s, init, at), earlier + init, last, at);
      MoreEntries(earlier, init, last);
      hide HasMedia, IsActive, ObserveEntry;
      assert es == init + [last];
      assert earlier + init + [last] == earlier + es;
    }
  }

  lemma SampleMirrors(s: State, earlier: seq<Entry>, sample: Sample)
    requires Mirrors(s, earlier)
    ensures Mirrors(Observe(s, sample), earlier + EntriesOf(sample))
  {
    hide ObserveEntries;
    if sample.entries.Some? {
      EntriesMirror(s.(media := false, active := false, report := false), earlier, sample.entries.value, sample.at);
    } else {
      assert earlier + [] == earlier;
    }
  }

  /** Over any trace, what is known of a stream are the counters of its last entry. */
  lemma {:induction false} TraceMirrors(trace: seq<Sample>)
    ensures Mirrors(ObserveAll(trace), AllEntries(trace))
  {
    if trace != [] {
      hide Mirrors, Observe;
      TraceMirrors(trace[..|trace| - 1]);
      SampleMirrors(ObserveAll(trace[..|trace| - 1]), AllEntries(trace[..|trace| - 1]), trace[|trace| - 1]);
    }
  }

  // ----- idle runs -----

  lemma {:induction false} EntriesKeepSamples(s: State, es: seq<Entry>, at: int)
    ensures var r := ObserveEntries(s, es, at).record;
            && r.samples == s.record.samples && r.idle == s.record.idle && r.maxIdle == s.record.maxIdle
            && r.lastActivityAt == s.record.lastActivityAt && r.firstDeliveryReportAt == s.record.firstDeliveryReportAt
  {
    if es != [] {
      EntriesKeepSamples(s, es[..|es| - 1], at);
    }
  }

  lemma {:induction false} TraceTracks(trace: seq<Sample>)
    ensures Tracks(ObserveAll(trace).record, Activity(trace))
  {
    if trace == [] {
      TracksBegun(BEGUN);
    } else {
      var init, last := trace[..|trace| - 1], trace[|trace| - 1];
      TraceTracks(init);
      TraceMirrors(init);
      SampleTracksActivity(ObserveAll(init), AllEntries(init), last, Activity(init));
    }
  }

  lemma SampleTracksActivity(s: State, earlier: seq<Entry>, last: Sample, active: seq<bool>)
    requires Mirrors(s, earlier) && Tracks(s.record, active)
    ensures Tracks(Observe(s, last).record,
                   active + if HasMedia(EntriesOf(last)) then [IsActive(earlier, EntriesOf(last))] else [])
  {
    hide IsActive, ObserveEntries, IdleRun, LongestIdleRun;
    if last.entries.Some? {
      var s0 := s.(media := false, active := false, report := false);
      assert Mirrors(s0, earlier);
      hide Mirrors;
      EntriesMirror(s0, earlier, last.entries.value, last.at);
      EntriesKeepSamples(s0, last.entries.value, last.at);
      var s1 := ObserveEntries(s0, last.entries.value, last.at);
      assert Tracks(s1.record, active);
      hide HasMedia;
      if s1.media {
        SampleTracks(s1.record, active, last.at, s1.active);
      }
    }
    assert active + [] == active;
  }

  /** `max_idle_samples` and `is_stalled`, in terms of what the trace shows. */
  lemma StalledOverTrace(trace: seq<Sample>)
    ensures var s, active := ObserveAll(trace), Activity(trace);
            && LongestIdleRun(active, s.record.maxIdle)
            && (IsStalled(s.record) <==> true in active && exists i: nat :: IdleRun(active, i, STALL_SAMPLES))
            && (IsStalled(s.record) <==> StoppedFlowing(active) || (true in active && IdleRun(active, 0, STALL_SAMPLES)))
  {
    hide LongestIdleRun, IdleRun, ObserveAll, Activity;
    TraceTracks(trace);
    StalledMeans(ObserveAll(trace).record, Activity(trace));
    StalledVersusDocumented(ObserveAll(trace).record, Activity(trace));
  }

  function Packets(n: nat): Entry {
    Stream(Outbound, Some("a"), Some(Video), Counters(n, 0, 0))
  }

  /** One more sample that shows one stream. */
  lemma OneStream(trace: seq<Sample>, n: nat) returns (more: seq<Sample>)
    ensures more == trace + [Sample(0, Some([Packets(n)]))]
    ensures var s, next, c := ObserveAll(trace), ObserveAll(more), Counters(n, 0, 0);
            && next.outbound == s.outbound["a" := c]
            && next.record.(firstSent := map[]) == OnSample(s.record, 0, Moves(s.outbound, "a", c)).(firstSent := map[])
  {
    var es := [Packets(n)];
    more := trace + [Sample(0, Some(es))];
    assert more[..|trace|] == trace && es[..|es| - 1] == [];
    var s := ObserveAll(trace).(media := false, active := false, report := false);
    hide OnSample, Moves;
    assert ObserveEntries(s, es[..|es| - 1], 0) == s;
    assert ObserveEntries(s, es, 0) == ObserveEntry(s, Packets(n), 0);
  }

  /** Three samples before the first packet, and then traffic: the code calls that stalled, its documentation does
      not. */
  lemma StalledBeforeFlow() returns (trace: seq<Sample>)
    ensures IsStalled(ObserveAll(trace).record) && !StoppedFlowing(Activity(trace))
  {
    hide StoppedFlowing, Activity, Tracks;
    trace := OneStream([], 0);
    assert ObserveAll(trace).record.maxIdle == 1;
    hide ObserveAll;
    trace := OneStream(trace, 0);
    trace := OneStream(trace, 0);
    trace := OneStream(trace, 1);
    TraceTracks(trace);
    ThreeThenOne(ObserveAll(trace).record, Activity(trace));
  }

  lemma ThreeThenOne(r: Record, active: seq<bool>)
    requires Tracks(r, active) && r.samples == 4 && r.idle == 0 && r.maxIdle == 3
    ensures !StoppedFlowing(active)
  {
    assert active[3];
    var i: nat :| IdleRun(active, i, 3);
    assert i == 0;
  }

  // ----- the verdict -----

  lemma {:induction false} ReportSeen(s: State, es: seq<Entry>, at: int)
    ensures ObserveEntries(s, es, at).report <==> s.report || RemoteInbound in es
  {
    if es != [] {
      ReportSeen(s, es[..|es| - 1], at);
      assert es == es[..|es| - 1] + [es[|es| - 1]];
    }
  }

  lemma {:induction false} ReportOverTrace(trace: seq<Sample>)
    ensures ObserveAll(trace).record.firstDeliveryReportAt.Some? <==> exists i :: 0 <= i < |trace| && ShowsReport(trace[i])
  {
    if trace != [] {
      var init, last := trace[..|trace| - 1], trace[|trace| - 1];
      ReportOverTrace(init);
      assert forall i :: 0 <= i < |init| ==> init[i] == trace[i];
      if last.entries.Some? {
        var s0 := ObserveAll(init).(media := false, active := false, report := false);
        ReportSeen(s0, last.entries.value, last.at);
        EntriesKeepSamples(s0, last.entries.value, last.at);
      }
      if exists i :: 0 <= i < |init| && ShowsReport(init[i]) {
        var i :| 0 <= i < |init| && ShowsReport(init[i]);
        assert ShowsReport(trace[i]);
      }
    }
  }

  /** Every enabled kind of media flows in direction `d` somewhere in the trace. */
  ghost predicate EveryEnabledFlows(trace: seq<Sample>, s: Settings, d: Direction) {
    forall kind :: s.Enabled(kind) ==> exists i :: 0 <= i < |trace| && Shows(trace[i], d, kind)
  }

  lemma FlowsMeans(trace: seq<Sample>, kinds: map<(Direction, string), MediaKind>, s: Settings, d: Direction)
    requires KeepsKind(trace, kinds)
    ensures var r := ObserveAll(trace).record;
            EveryEnabled(if d.Outbound? then r.firstSent else r.firstReceived, s) <==> EveryEnabledFlows(trace, s, d)
  {
    KindFlows(trace, kinds, d, Video);
    KindFlows(trace, kinds, d, Audio);
    BothKinds(trace, s, d);
  }

  lemma KindFlows(trace: seq<Sample>, kinds: map<(Direction, string), MediaKind>, d: Direction, kind: MediaKind)
    requires KeepsKind(trace, kinds)
    ensures FirstTime(ObserveAll(trace).record, d, kind).Some? <==> exists i :: 0 <= i < |trace| && Shows(trace[i], d, kind)
  {
    FirstSeen(trace, kinds, d, kind);
    var at := FirstTime(ObserveAll(trace).record, d, kind);
    if at.Some? {
      var i :| IsFirst(trace, d, kind, i) && trace[i].at == at.value;
      assert Shows(trace[i], d, kind);
    }
  }

  lemma BothKinds(trace: seq<Sample>, s: Settings, d: Direction)
    ensures EveryEnabledFlows(trace, s, d) <==>
      && (s.videoEnabled ==> exists i :: 0 <= i < |trace| && Shows(trace[i], d, Video))
      && (s.audioEnabled ==> exists i :: 0 <= i < |trace| && Shows(trace[i], d, Audio))
  {
    assert s.Enabled(Video) == s.videoEnabled && s.Enabled(Audio) == s.audioEnabled;
  }

  /** The connection lasted for the grace period. */
  predicate Lasted(connectedAt: Option<int>, at: int, grace: nat) {
    connectedAt.Some? && (grace == 0 || at >= connectedAt.value + grace)
  }

  /** There is something to judge a connection by: it was established, some kind of media is enabled, some sample had
      media entries, and it lasted. */
  ghost predicate Judgeable(trace: seq<Sample>, s: Settings, connectedAt: Option<int>, at: int) {
    (s.videoEnabled || s.audioEnabled) && Activity(trace) != [] && Lasted(connectedAt, at, s.grace)
  }

  /** Media was sent, and reported, as far as that was expected. */
  ghost predicate SentWell(trace: seq<Sample>, s: Settings) {
    s.expectsSend ==> EveryEnabledFlows(trace, s, Outbound) && exists i :: 0 <= i < |trace| && ShowsReport(trace[i])
  }

  ghost predicate ReceivedWell(trace: seq<Sample>, s: Settings) {
    s.expectsReceive ==> EveryEnabledFlows(trace, s, Inbound)
  }

  /** The record when the connection ends. */
  function EndedRecord(trace: seq<Sample>, connectedAt: Option<int>, end: LifecycleEnd, at: int): Record {
    MarkDisconnected(ObserveAll(trace).record.(connectedAt := connectedAt, end := None, disconnectedAt := None), end, at)
  }

  /** Which connections are judged at all. */
  lemma UnjudgedMeans(trace: seq<Sample>, s: Settings, connectedAt: Option<int>, end: LifecycleEnd, at: int)
    ensures var o := Judge(EndedRecord(trace, connectedAt, end, at), s);
            && (o == Failed(FailedToBuild) <==> end.BuildFailed?)
            && (o == Failed(ConnectFailed) <==> !end.BuildFailed? && connectedAt.None?)
            && (o.Unjudged? <==> !end.BuildFailed? && connectedAt.Some? && !Judgeable(trace, s, connectedAt, at))
  {
    TraceTracks(trace);
  }

  /** The verdict on a connection that is judged, from its samples. The first of these that applies: it failed because
      an enabled kind was not sent, no delivery report came, an enabled kind was not received, or it ended
      unexpectedly; else it is a success. */
  lemma SuccessMeans(trace: seq<Sample>, kinds: map<(Direction, string), MediaKind>, s: Settings, connectedAt: Option<int>,
      end: LifecycleEnd, at: int)
    requires KeepsKind(trace, kinds)
    ensures var o := Judge(EndedRecord(trace, connectedAt, end, at), s);
            var judged := end != BuildFailed && Judgeable(trace, s, connectedAt, at);
            var sent, received := EveryEnabledFlows(trace, s, Outbound), EveryEnabledFlows(trace, s, Inbound);
            var reported := exists i :: 0 <= i < |trace| && ShowsReport(trace[i]);
            && (o == Failed(NoMediaSent) <==> judged && s.expectsSend && !sent)
            && (o == Failed(NoDeliveryReport) <==> judged && s.expectsSend && sent && !reported)
            && (o == Failed(NoMediaReceived) <==> judged && SentWell(trace, s) && s.expectsReceive && !received)
            && (o == Failed(UnexpectedDisconnect) <==>
                  judged && SentWell(trace, s) && ReceivedWell(trace, s) && end == Unexpected)
            && (o.Success? <==> judged && SentWell(trace, s) && ReceivedWell(trace, s) && end != Unexpected)
  {
    FlowsMeans(trace, kinds, s, Outbound);
    FlowsMeans(trace, kinds, s, Inbound);
    ReportOverTrace(trace);
    UnjudgedMeans(trace, s, connectedAt, end, at);
    hide Activity, ObserveAll, EveryEnabledFlows, ShowsReport, KeepsKind, Judgeable;
    VerdictOfRecord(EndedRecord(trace, connectedAt, end, at), s);
  }

  lemma VerdictOfRecord(r: Record, s: Settings)
    ensures var o := Judge(r, s);
            var judged := !o.Unjudged? && o != Failed(FailedToBuild) && o != Failed(ConnectFailed);
            var sends := s.expectsSend ==> EveryEnabled(r.firstSent, s) && r.firstDeliveryReportAt.Some?;
            var receives := s.expectsReceive ==> EveryEnabled(r.firstReceived, s);
            && (o == Failed(NoMediaSent) <==> judged && s.expectsSend && !EveryEnabled(r.firstSent, s))
            && (o == Failed(NoDeliveryReport) <==>
                  judged && s.expectsSend && EveryEnabled(r.firstSent, s) && r.firstDeliveryReportAt.None?)
            && (o == Failed(NoMediaReceived) <==> judged && sends && !receives)
            && (o == Failed(UnexpectedDisconnect) <==> judged && sends && receives && r.end == Some(Unexpected))
            && (o.Success? <==> judged && sends && receives && r.end != Some(Unexpected))
  {
    hide EveryEnabled;
  }

  // ----- the observer as it runs -----

  class Observer {
    var outbound: Streams
    var inbound: Streams

    constructor ()
      ensures outbound == inbound == map[]
    {
      outbound, inbound := map[], map[];
    }

    /** Updates a stream's counters and tells whether media flowed. */
    method ObserveOutbound(id: string, c: Counters) returns (moved: bool)
      modifies this`outbound
      ensures moved == Moves(old(outbound), id, c) && outbound == old(outbound)[id := c]
    {
      moved := if id in outbound then c.IncreasedFrom(outbound[id]) else c.HasTraffic();
      outbound := outbound[id := c];
    }

    method ObserveInbound(id: string, c: Counters) returns (moved: bool)
      modifies this`inbound
      ensures moved == Moves(old(inbound), id, c) && inbound == old(inbound)[id := c]
    {
      moved := if id in inbound then c.IncreasedFrom(inbound[id]) else c.HasTraffic();
      inbound := inbound[id := c];
    }

    method ObserveSample(l: Lifecycle, sample: Sample)
      modifies this, l
      ensures var s := Observe(State(old(outbound), old(inbound), old(l.Now()), false, false, false), sample);
              outbound == s.outbound && inbound == s.inbound && l.Now() == s.record
    {
      if sample.entries.None? { return; }
      var es, at := sample.entries.value, sample.at;
      ghost var s0 := State(outbound, inbound, l.Now(), false, false, false);
      var media, active, report := false, false, false;
      for i := 0 to |es|
        invariant State(outbound, inbound, l.Now(), media, active, report) == ObserveEntries(s0, es[..i], at)
      {
        assert es[..i + 1][..i] == es[..i];
        var e := es[i];
        if e.RemoteInbound? {
          report := true;
        } else if e.Stream? && e.id.Some? && e.kind.Some? {
          media := true;
          if e.direction.Outbound? {
            var moved := ObserveOutbound(e.id.value, e.counters);
            if moved {
              l.MediaSent(e.kind.value, at);
              active := true;
            }
          } else {
            var moved := ObserveInbound(e.id.value, e.counters);
            if moved {
              l.MediaReceived(e.kind.value, at);
              active := true;
            }
          }
        }
      }
      assert es[..|es|] == es;
      if media {
        l.Sample(at, active);
      }
      if report {
        l.DeliveryReport(at);
      }
    }
  }
}
