/** What `Exclusive` and the routing keys get, for every run, and exactly when they do not.

    A stray is a lane that was retired while its worker was releasing a handle and has not finished
    that release yet. Strays are read off the run: a racy seal makes one, the end of its release
    removes it. Every promise of this module that can fail fails through a stray and nothing else. */
module Exclusive {
  import opened Sets
  import opened Lanes
  import opened Dispatcher
  import opened Wrappers
  import opened LaneMap
  import opened Sections
  import opened Coverage
  import opened Ownership
  import opened Releases
  import opened Postponed
  import opened Safety

  predicate LaneRuns(q: Lane) {
    q.worker.Task? || q.worker.Mandatory?
  }

  predicate RunsRelease(x: Section) {
    x.pc.Draining? && x.batch != []
  }

  // ----- Lanes under retirement never take a barrier -----

  predicate HandsFree(q: Lane) {
    !AtBarrier(q) && forall k :: 0 <= k < |q.backlog| ==> q.backlog[k].work.Release?
  }

  predicate ScanFace(q: Lane) {
    q.retired || q.gateLocked ==> HandsFree(q)
  }

  ghost predicate ScanInv(h: Host) {
    forall l {:trigger ScanFace(h.lanes[l])} :: l in h.lanes ==> ScanFace(h.lanes[l])
  }

  lemma OneLaneScanned(h: Host, h': Host, l: LaneId)
    requires ScanInv(h) && l in h'.lanes && ScanFace(h'.lanes[l]) && h'.lanes == h.lanes[l := h'.lanes[l]]
    ensures ScanInv(h')
  {
    forall m | m in h'.lanes ensures ScanFace(h'.lanes[m]) {
      assert m != l ==> ScanFace(h.lanes[m]);
    }
  }

  lemma SameLanesScanned(h: Host, h': Host)
    requires ScanInv(h) && h'.lanes == h.lanes
    ensures ScanInv(h')
  {
    forall m | m in h'.lanes ensures ScanFace(h'.lanes[m]) {
      assert ScanFace(h.lanes[m]);
    }
  }

  lemma WorkerScan(s: State, l: LaneId, a: WorkerStep)
    requires ScanInv(s.host) && WorkerEnabled(s, l, a)
    ensures ScanInv(WorkerApply(s, l, a).host)
  {
    assert ScanFace(s.host.lanes[l]);
    OneLaneScanned(s.host, WorkerApply(s, l, a).host, l);
  }

  lemma SendScan(s: State, t: Token, a: SendStep)
    requires ScanInv(s.host) && SendEnabled(s, t, a)
    ensures ScanInv(SendApply(s, t, a).host)
  {
    var l := s.book.ops[t].pc.lane;
    assert ScanFace(s.host.lanes[l]);
    OneLaneScanned(s.host, SendApply(s, t, a).host, l);
  }

  lemma ProducerScan(s: State, t: Token, a: ProducerStep)
    requires ScanInv(s.host) && ProducerEnabled(s, t, a)
    ensures ScanInv(ProducerApply(s, t, a).host)
  {
    var h' := ProducerApply(s, t, a).host;
    if a.Lookup? && !Live(s, s.book.ops[t].key) {
      OneLaneScanned(s.host, h', a.newId);
    } else {
      SameLanesScanned(s.host, h');
    }
  }

  lemma HandoffScan(s: State, t: Token, a: HandoffStep)
    requires ScanInv(s.host) && HandoffEnabled(s, t, a)
    ensures ScanInv(HandoffApply(s, t, a).host)
  {
    var h' := HandoffApply(s, t, a).host;
    if a.EnqueueRelease? || a.EnqueueStopped? {
      var l := s.book.ops[t].pc.lane;
      assert ScanFace(s.host.lanes[l]);
      OneLaneScanned(s.host, h', l);
    } else {
      SameLanesScanned(s.host, h');
    }
  }

  /** Between the scan's look and its seal no section is installed, so no barrier arrives. */
  lemma SectionScan(s: State, i: SectionId, a: SectionStep)
    requires BaseInv(s) && ExclusionInv(s.ex) && ScanInv(s.host) && SectionEnabled(s, i, a)
    ensures ScanInv(SectionApply(s, i, a).host)
  {
    var h' := SectionApply(s, i, a).host;
    if a.EnqueueBarrier? || a.CountParked? {
      assert SectionFace(s.ex, i) && LaneFace(s.host, a.lane) && ScanFace(s.host.lanes[a.lane]);
      OneLaneScanned(s.host, h', a.lane);
    } else {
      SameLanesScanned(s.host, h');
    }
  }

  lemma LoopScan(s: State, a: LoopStep)
    requires LanesInv(s.host) && ScanInv(s.host) && LoopEnabled(s, a)
    ensures ScanInv(LoopApply(s, a).host)
  {
    var h' := LoopApply(s, a).host;
    if a.LoopExit? {
      SameLanesScanned(s.host, h');
    } else {
      var l := if a.RetireCheck? then a.lane else s.host.retiring.value;
      assert LaneInv(s.host.lanes[l]) && ScanFace(s.host.lanes[l]);
      OneLaneScanned(s.host, h', l);
    }
  }

  lemma StopScan(s: State, k: StopId, a: StopStep)
    requires ScanInv(s.host) && StopEnabled(s, k, a)
    ensures ScanInv(StopApply(s, k, a).host)
  {
    var h' := StopApply(s, k, a).host;
    if a.CloseLane? {
      assert ScanFace(s.host.lanes[a.lane]);
      OneLaneScanned(s.host, h', a.lane);
    } else {
      SameLanesScanned(s.host, h');
    }
  }

  lemma StepScan(s: State, a: Step)
    requires Inv(s) && ScanInv(s.host) && Enabled(s, a)
    ensures ScanInv(Apply(s, a).host)
  {
    match a
    case OfProducer(t, o) => ProducerScan(s, t, o);
    case OfSend(t, o) => SendScan(s, t, o);
    case OfHandoff(t, o) => HandoffScan(s, t, o);
    case OfWorker(l, w) => WorkerScan(s, l, w);
    case OfLoop(r) => LoopScan(s, r);
    case OfSection(i, m) => SectionScan(s, i, m);
    case OfStop(k, c) => StopScan(s, k, c);
  }

  // ----- Strays -----

  /** The retired lanes whose worker still runs something. */
  ghost function Running(h: Host): set<LaneId> {
    set l | l in h.lanes && h.lanes[l].retired && LaneRuns(h.lanes[l])
  }

  ghost function NextStrays(s: State, a: Step, strays: set<LaneId>): set<LaneId> {
    if RacySeal(s, a) then strays + {s.host.retiring.value}
    else if a.OfWorker? && a.work.FinishMandatory? then strays - {a.lane}
    else strays
  }

  /** The lanes that a racy seal of the run retired and whose release has not ended in it. */
  ghost function Strays(s: State, run: seq<Step>, before: set<LaneId>): set<LaneId>
    requires Runs(s, run)
    decreases |run|
  {
    if run == [] then before else Strays(Apply(s, run[0]), run[1..], NextStrays(s, run[0], before))
  }

  lemma SameRunning(h: Host, h': Host, l: LaneId)
    requires l in h.lanes && l in h'.lanes && h'.lanes == h.lanes[l := h'.lanes[l]]
    requires (h'.lanes[l].retired && LaneRuns(h'.lanes[l])) == (h.lanes[l].retired && LaneRuns(h.lanes[l]))
    ensures Running(h') == Running(h)
  {
  }

  lemma NewLaneRunning(h: Host, h': Host, l: LaneId)
    requires l !in h.lanes && l in h'.lanes && h'.lanes == h.lanes[l := h'.lanes[l]] && !h'.lanes[l].retired
    ensures Running(h') == Running(h)
  {
  }

  /** A retired lane has nothing left to take, so it can only finish what it runs. */
  lemma WorkerStrays(s: State, l: LaneId, a: WorkerStep)
    requires LanesInv(s.host) && WorkerEnabled(s, l, a)
    ensures Running(WorkerApply(s, l, a).host) == if a.FinishMandatory? then Running(s.host) - {l} else Running(s.host)
  {
    assert LaneInv(s.host.lanes[l]);
    var h' := WorkerApply(s, l, a).host;
    if a.FinishMandatory? {
      assert !LaneRuns(h'.lanes[l]);
    } else {
      SameRunning(s.host, h', l);
    }
  }

  /** A lane about to be sealed runs at most a release, and only `pending` can tell. */
  lemma SealedLaneRuns(q: Lane)
    requires LaneInv(q) && ScanFace(q) && q.gateLocked && q.backlog == []
    ensures !q.retired && (LaneRuns(q) <==> q.pending != 0)
  {
    PendingIsBusy(q);
  }

  lemma RetiredRunning(h: Host, h': Host, l: LaneId)
    requires l in h.lanes && !h.lanes[l].retired && l in h'.lanes && h'.lanes == h.lanes[l := h'.lanes[l]]
    requires h'.lanes[l].retired && h'.lanes[l].worker == h.lanes[l].worker
    ensures Running(h') == Running(h) + if LaneRuns(h.lanes[l]) then {l} else {}
  {
  }

  lemma SealStrays(s: State)
    requires LanesInv(s.host) && ScanInv(s.host) && LoopEnabled(s, RetireSeal)
    ensures var l := s.host.retiring.value;
            Running(LoopApply(s, RetireSeal).host) ==
              Running(s.host) + if s.host.lanes[l].pending != 0 then {l} else {}
  {
    var l := s.host.retiring.value;
    assert LaneInv(s.host.lanes[l]) && ScanFace(s.host.lanes[l]);
    SealedLaneRuns(s.host.lanes[l]);
    RetiredRunning(s.host, LoopApply(s, RetireSeal).host, l);
  }

  lemma LoopStrays(s: State, a: LoopStep)
    requires BaseInv(s) && ScanInv(s.host) && LoopEnabled(s, a)
    ensures Running(LoopApply(s, a).host) == NextStrays(s, OfLoop(a), Running(s.host))
  {
    var h' := LoopApply(s, a).host;
    if a.RetireSeal? {
      SealStrays(s);
    } else if a.LoopExit? {
      assert h'.lanes == s.host.lanes;
    } else {
      SameRunning(s.host, h', if a.RetireCheck? then a.lane else s.host.retiring.value);
    }
  }

  lemma ProducerStrays(s: State, t: Token, a: ProducerStep)
    requires ProducerEnabled(s, t, a)
    ensures Running(ProducerApply(s, t, a).host) == Running(s.host)
  {
    var h' := ProducerApply(s, t, a).host;
    if a.Lookup? && !Live(s, s.book.ops[t].key) {
      NewLaneRunning(s.host, h', a.newId);
    } else {
      assert h'.lanes == s.host.lanes;
    }
  }

  lemma HandoffStrays(s: State, t: Token, a: HandoffStep)
    requires HandoffEnabled(s, t, a)
    ensures Running(HandoffApply(s, t, a).host) == Running(s.host)
  {
    var h' := HandoffApply(s, t, a).host;
    if a.EnqueueRelease? || a.EnqueueStopped? {
      SameRunning(s.host, h', s.book.ops[t].pc.lane);
    } else {
      assert h'.lanes == s.host.lanes;
    }
  }

  lemma SectionStrays(s: State, i: SectionId, a: SectionStep)
    requires SectionEnabled(s, i, a)
    ensures Running(SectionApply(s, i, a).host) == Running(s.host)
  {
    var h' := SectionApply(s, i, a).host;
    if a.EnqueueBarrier? || a.CountParked? {
      SameRunning(s.host, h', a.lane);
    } else {
      assert h'.lanes == s.host.lanes;
    }
  }

  lemma StopStrays(s: State, k: StopId, a: StopStep)
    requires StopEnabled(s, k, a)
    ensures Running(StopApply(s, k, a).host) == Running(s.host)
  {
    var h' := StopApply(s, k, a).host;
    if a.CloseLane? {
      SameRunning(s.host, h', a.lane);
    } else {
      assert h'.lanes == s.host.lanes;
    }
  }

  lemma StepStrays(s: State, a: Step)
    requires Inv(s) && ScanInv(s.host) && Enabled(s, a)
    ensures Running(Apply(s, a).host) == NextStrays(s, a, Running(s.host))
  {
    match a
    case OfProducer(t, o) => ProducerStrays(s, t, o);
    case OfSend(t, o) => SameRunning(s.host, SendApply(s, t, o).host, s.book.ops[t].pc.lane);
    case OfHandoff(t, o) => HandoffStrays(s, t, o);
    case OfWorker(l, w) => WorkerStrays(s, l, w);
    case OfLoop(r) => LoopStrays(s, r);
    case OfSection(i, m) => SectionStrays(s, i, m);
    case OfStop(k, c) => StopStrays(s, k, c);
  }

  lemma {:induction false} RunStrays(s: State, run: seq<Step>)
    requires Inv(s) && ScanInv(s.host) && Runs(s, run)
    ensures Inv(After(s, run))
    ensures Running(After(s, run).host) == Strays(s, run, Running(s.host))
    decreases |run|
  {
    if run != [] {
      StepInv(s, run[0]);
      StepScan(s, run[0]);
      StepStrays(s, run[0]);
      RunStrays(Apply(s, run[0]), run[1..]);
    }
  }

  /** In every run, the retired lanes that still run something are exactly its strays. */
  lemma StraysAreRunning(s: State, run: seq<Step>)
    requires Init(s) && Runs(s, run)
    ensures Inv(After(s, run))
    ensures Running(After(s, run).host) == Strays(s, run, {})
  {
    InitInv(s);
    forall l | l in s.host.lanes ensures ScanFace(s.host.lanes[l]) && !s.host.lanes[l].retired {
      assert s.host.lanes[l] == NewLane(s.host.lanes[l].key, s.host.capacity);
    }
    assert Running(s.host) == {};
    RunStrays(s, run);
  }

  lemma {:induction false} CleanRunHasNoStrays(s: State, run: seq<Step>)
    requires Runs(s, run) && CleanSeals(s, run)
    ensures Strays(s, run, {}) == {}
    decreases |run|
  {
    if run != [] {
      assert NextStrays(s, run[0], {}) == {};
      CleanRunHasNoStrays(Apply(s, run[0]), run[1..]);
    }
  }

  // ----- Exclusive -----

  ghost predicate SomeFnRuns(s: State) {
    exists i :: i in s.ex.sections && s.ex.sections[i].pc.RunningFn?
  }

  /** While the function given to Exclusive runs, no lane runs a task or a release, no release
      runs off the lanes, and no other section runs anything. */
  ghost predicate FnRunsAlone(s: State) {
    forall i :: i in s.ex.sections && s.ex.sections[i].pc.RunningFn? ==>
      && (forall l :: l in s.host.lanes ==> !LaneRuns(s.host.lanes[l]))
      && OthersStill(s, i)
  }

  /** Beside section i nothing runs off the lanes and no other section does anything. */
  ghost predicate OthersStill(s: State, i: SectionId) {
    && (forall t :: t in s.book.ops ==> var pc := s.book.ops[t].pc; !pc.OffLane? && !pc.Tracked? && !pc.Untracked?)
    && (forall j :: j in s.ex.sections && j != i ==> !s.ex.sections[j].pc.RunningFn? && !RunsRelease(s.ex.sections[j]))
  }

  lemma LanesStandStill(s: State, i: SectionId)
    requires Inv(s) && i in s.ex.sections && s.ex.sections[i].pc.RunningFn?
    ensures forall l :: l in s.host.lanes ==> !s.host.lanes[l].worker.Task?
    ensures forall l :: l in s.host.lanes && !s.host.lanes[l].retired ==> Blocked(s.host.lanes[l], i)
  {
    assert SectionFace(s.ex, i);
    forall l | l in s.host.lanes
      ensures !s.host.lanes[l].worker.Task?
      ensures !s.host.lanes[l].retired ==> Blocked(s.host.lanes[l], i)
    {
      assert CoverLane(s.host.lanes[l], l, s.ex.sections[i], s.sig.stopped, i);
      assert LaneInv(s.host.lanes[l]);
    }
  }

  lemma NoReleaseBeside(s: State, i: SectionId, t: Token)
    requires Inv(s) && i in s.ex.sections && s.ex.sections[i].pc.RunningFn? && t in s.book.ops
    ensures !s.book.ops[t].pc.OffLane? && !s.book.ops[t].pc.Tracked? && !s.book.ops[t].pc.Untracked?
  {
    assert SectionFace(s.ex, i);
    assert OpFace(s.host, s.sig, t, s.book.ops[t]);
    assert Counted(s.ex.sections[i].pc);
  }

  lemma InvOthersStill(s: State, i: SectionId)
    requires Inv(s) && i in s.ex.sections && s.ex.sections[i].pc.RunningFn?
    ensures OthersStill(s, i)
  {
    forall t | t in s.book.ops
      ensures !s.book.ops[t].pc.OffLane? && !s.book.ops[t].pc.Tracked? && !s.book.ops[t].pc.Untracked?
    {
      NoReleaseBeside(s, i, t);
    }
    forall j | j in s.ex.sections && j != i
      ensures !s.ex.sections[j].pc.RunningFn? && !RunsRelease(s.ex.sections[j])
    {
      assert SectionFace(s.ex, i) && SectionFace(s.ex, j);
    }
  }

  /** What Exclusive keeps in every run, race or no race: no channel task runs anywhere, every lane
      that is not retired is stopped at the section's barrier, no release runs off the lanes, and
      no other section does anything. */
  lemma FnStopsTheLanes(s: State, run: seq<Step>, i: SectionId)
    requires Init(s) && Runs(s, run)
    requires i in After(s, run).ex.sections && After(s, run).ex.sections[i].pc.RunningFn?
    ensures var e := After(s, run);
            && (forall l :: l in e.host.lanes ==> !e.host.lanes[l].worker.Task?)
            && (forall l :: l in e.host.lanes && !e.host.lanes[l].retired ==> Blocked(e.host.lanes[l], i))
            && OthersStill(e, i)
  {
    InitInv(s);
    RunInv(s, run);
    LanesStandStill(After(s, run), i);
    InvOthersStill(After(s, run), i);
  }

  lemma InvFnRunsAlone(s: State)
    requires Inv(s)
    ensures FnRunsAlone(s) <==> (SomeFnRuns(s) ==> Running(s.host) == {})
  {
    forall i | i in s.ex.sections && s.ex.sections[i].pc.RunningFn?
      ensures OthersStill(s, i)
      ensures (forall l :: l in s.host.lanes ==> !LaneRuns(s.host.lanes[l])) <==> Running(s.host) == {}
    {
      InvOthersStill(s, i);
      RunnersAreRetired(s, i);
    }
  }

  lemma RunnersAreRetired(s: State, i: SectionId)
    requires Inv(s) && i in s.ex.sections && s.ex.sections[i].pc.RunningFn?
    ensures (forall l :: l in s.host.lanes ==> !LaneRuns(s.host.lanes[l])) <==> Running(s.host) == {}
  {
    LanesStandStill(s, i);
    forall l | l in s.host.lanes ensures LaneRuns(s.host.lanes[l]) <==> l in Running(s.host) {
      assert !s.host.lanes[l].retired ==> Blocked(s.host.lanes[l], i);
    }
    if Running(s.host) == {} {
      forall l | l in s.host.lanes ensures !LaneRuns(s.host.lanes[l]) {
        assert l !in Running(s.host);
      }
    }
    var l := SomeMember(Running(s.host));
    assert Running(s.host) != {} ==> LaneRuns(s.host.lanes[l]);
  }

  /** The central promise of Exclusive holds after a run exactly when no stray is left while a
      section's function runs. */
  lemma ExclusiveHoldsIff(s: State, run: seq<Step>)
    requires Init(s) && Runs(s, run)
    ensures FnRunsAlone(After(s, run)) <==> (SomeFnRuns(After(s, run)) ==> Strays(s, run, {}) == {})
  {
    StraysAreRunning(s, run);
    InvFnRunsAlone(After(s, run));
  }

  /** In particular it holds after every run without a racy seal. */
  lemma ExclusiveHolds(s: State, run: seq<Step>)
    requires Init(s) && Runs(s, run) && CleanSeals(s, run)
    ensures FnRunsAlone(After(s, run))
  {
    ExclusiveHoldsIff(s, run);
    CleanRunHasNoStrays(s, run);
  }

  // ----- One account at a time -----

  /** Nothing but lane l runs work of its key. */
  ghost predicate AloneOnKey(s: State, l: LaneId)
    requires l in s.host.lanes
  {
    var k := s.host.lanes[l].key;
    && (forall m :: m in s.host.lanes && m != l && LaneRuns(s.host.lanes[m]) ==> s.host.lanes[m].key != k)
    && (forall t :: t in s.book.ops && s.book.ops[t].pc.OffLane? ==> s.book.ops[t].key != k)
    && (forall i :: i in s.ex.sections && RunsRelease(s.ex.sections[i]) && s.ex.sections[i].batch[0] in s.book.ops ==>
          s.book.ops[s.ex.sections[i].batch[0]].key != k)
  }

  /** No two releases off the lanes share a key, neither behind key barriers nor in a drain. */
  ghost predicate ReleasesSerial(s: State) {
    && (forall t, u | t in s.book.ops && u in s.book.ops && t != u ::
          s.book.ops[t].pc.OffLane? && s.book.ops[u].pc.OffLane? ==> s.book.ops[t].key != s.book.ops[u].key)
    && (forall i, t | i in s.ex.sections && t in s.book.ops && RunsRelease(s.ex.sections[i]) && s.book.ops[t].pc.OffLane? ::
          s.ex.sections[i].batch[0] in s.book.ops ==> s.book.ops[t].key != s.book.ops[s.ex.sections[i].batch[0]].key)
  }

  /** Each routing key has at most one runner: the worker of one lane, one release behind the key's
      barrier, or a release the draining section is running. */
  ghost predicate KeysSerial(s: State) {
    (forall l :: l in s.host.lanes && LaneRuns(s.host.lanes[l]) ==> AloneOnKey(s, l)) && ReleasesSerial(s)
  }

  lemma RunningLaneIsMapped(s: State, l: LaneId)
    requires Inv(s) && l in s.host.lanes && !s.host.lanes[l].retired
    ensures s.host.lanes[l].key in s.host.queues && s.host.queues[s.host.lanes[l].key] == l
    ensures s.host.lanes[l].key !in s.host.barriers
  {
    assert LaneFace(s.host, l);
    assert KeyFace(s.host, s.host.lanes[l].key);
  }

  /** The key of a release that a section is draining is quiet. */
  lemma DrainingKeyIsQuiet(s: State, i: SectionId)
    requires Inv(s) && !s.sig.stopped
    requires i in s.ex.sections && RunsRelease(s.ex.sections[i]) && s.ex.sections[i].batch[0] in s.book.ops
    ensures var k := s.book.ops[s.ex.sections[i].batch[0]].key;
            && (forall l :: l in s.host.lanes && !s.host.lanes[l].retired && LaneRuns(s.host.lanes[l]) ==> s.host.lanes[l].key != k)
            && (forall t :: t in s.book.ops && s.book.ops[t].pc.OffLane? ==> s.book.ops[t].key != k)
  {
    assert SectionFace(s.ex, i);
    var x := s.ex.sections[i];
    assert x.batch[0] in x.batch + x.deferred;
    assert KeyQuiet(s.host, s.book, i, x.batch[0]);
    forall l | l in s.host.lanes && !s.host.lanes[l].retired && LaneRuns(s.host.lanes[l])
      ensures s.host.lanes[l].key != s.book.ops[x.batch[0]].key
    {
      RunningLaneIsMapped(s, l);
    }
    forall t | t in s.book.ops && s.book.ops[t].pc.OffLane? ensures s.book.ops[t].key != s.book.ops[x.batch[0]].key {
      assert OpFace(s.host, s.sig, t, s.book.ops[t]);
    }
  }

  lemma InvReleasesSerial(s: State)
    requires Inv(s) && !s.sig.stopped
    ensures ReleasesSerial(s)
  {
    forall t | t in s.book.ops && s.book.ops[t].pc.OffLane?
      ensures s.book.ops[t].key in s.host.barriers && s.host.barriers[s.book.ops[t].key] == t
    {
      assert OpFace(s.host, s.sig, t, s.book.ops[t]);
    }
    forall i | i in s.ex.sections && RunsRelease(s.ex.sections[i]) && s.ex.sections[i].batch[0] in s.book.ops
      ensures forall t :: t in s.book.ops && s.book.ops[t].pc.OffLane? ==>
                s.book.ops[t].key != s.book.ops[s.ex.sections[i].batch[0]].key
    {
      DrainingKeyIsQuiet(s, i);
    }
  }

  /** A lane that is not retired shares its key at most with a stray. */
  lemma MappedLaneIsAlone(s: State, l: LaneId)
    requires Inv(s) && !s.sig.stopped && l in s.host.lanes && !s.host.lanes[l].retired && LaneRuns(s.host.lanes[l])
    requires forall m :: m in Running(s.host) ==> s.host.lanes[m].key != s.host.lanes[l].key
    ensures AloneOnKey(s, l)
  {
    RunningLaneIsMapped(s, l);
    forall m | m in s.host.lanes && m != l && LaneRuns(s.host.lanes[m]) ensures s.host.lanes[m].key != s.host.lanes[l].key {
      if s.host.lanes[m].retired { assert m in Running(s.host); } else { RunningLaneIsMapped(s, m); }
    }
    forall t | t in s.book.ops && s.book.ops[t].pc.OffLane? ensures s.book.ops[t].key != s.host.lanes[l].key {
      assert OpFace(s.host, s.sig, t, s.book.ops[t]);
    }
    forall i | i in s.ex.sections && RunsRelease(s.ex.sections[i]) && s.ex.sections[i].batch[0] in s.book.ops
      ensures s.book.ops[s.ex.sections[i].batch[0]].key != s.host.lanes[l].key
    {
      DrainingKeyIsQuiet(s, i);
    }
  }

  lemma InvKeysSerial(s: State)
    requires Inv(s) && !s.sig.stopped
    ensures KeysSerial(s) <==> forall l :: l in Running(s.host) ==> AloneOnKey(s, l)
  {
    InvReleasesSerial(s);
    if forall l :: l in Running(s.host) ==> AloneOnKey(s, l) {
      forall l | l in s.host.lanes && LaneRuns(s.host.lanes[l]) ensures AloneOnKey(s, l) {
        if s.host.lanes[l].retired {
          assert l in Running(s.host);
        } else {
          forall m | m in Running(s.host) ensures s.host.lanes[m].key != s.host.lanes[l].key {
            assert AloneOnKey(s, m);
          }
          MappedLaneIsAlone(s, l);
        }
      }
    }
  }

  /** Until a stop, keys are served one at a time after a run exactly when each of its strays is
      alone on its key. */
  lemma KeysAreSerialIff(s: State, run: seq<Step>)
    requires Init(s) && Runs(s, run) && !After(s, run).sig.stopped
    ensures Strays(s, run, {}) <= After(s, run).host.lanes.Keys
    ensures KeysSerial(After(s, run)) <==> forall l :: l in Strays(s, run, {}) ==> AloneOnKey(After(s, run), l)
  {
    StraysAreRunning(s, run);
    InvKeysSerial(After(s, run));
  }

  /** In particular they are after every run without a racy seal. */
  lemma KeysAreSerial(s: State, run: seq<Step>)
    requires Init(s) && Runs(s, run) && CleanSeals(s, run) && !After(s, run).sig.stopped
    ensures KeysSerial(After(s, run))
  {
    KeysAreSerialIff(s, run);
    CleanRunHasNoStrays(s, run);
  }
}
