/** What the dispatcher promises, for every run of the transition system. */
module Safety {
  import opened Lanes
  import opened Dispatcher
  import opened Wrappers
  import opened LaneMap
  import opened Sections
  import opened Coverage
  import opened Ownership
  import opened Releases
  import opened Postponed

  ghost predicate Inv(s: State) {
    && BaseInv(s) && ExclusionInv(s.ex) && JoinInv(s) && CoverInv(s)
    && OwnInv(s) && OpsInv(s) && WaitInv(s) && PostponedInv(s)
  }

  lemma InitInv(s: State)
    requires Init(s)
    ensures Inv(s)
  {
    InitBase(s);
    InitExclusion(s);
    InitJoin(s);
    InitCover(s);
    InitOwn(s);
    InitOps(s);
  }

  lemma StepInv(s: State, a: Step)
    requires Inv(s) && Enabled(s, a)
    ensures Inv(Apply(s, a))
  {
    StepBase(s, a);
    StepEx(s, a);
    StepJoin(s, a);
    StepCover(s, a);
    StepOwn(s, a);
    StepOps(s, a);
    StepWait(s, a);
    StepPostponed(s, a);
  }

  lemma {:induction false} RunInv(s: State, run: seq<Step>)
    requires Inv(s) && Runs(s, run)
    ensures Inv(After(s, run))
    decreases |run|
  {
    if run != [] {
      StepInv(s, run[0]);
      RunInv(Apply(s, run[0]), run[1..]);
    }
  }

  // ----- Retirement, and the race it leaves open -----

  /** A retired lane's worker has nothing left to do. */
  ghost predicate RetiredQuiet(h: Host) {
    forall l {:trigger h.lanes[l]} :: l in h.lanes && h.lanes[l].retired ==> !Busy(h.lanes[l])
  }

  /** Sealing a lane while a release handed to it is being run. */
  predicate RacySeal(s: State, a: Step) {
    a.OfLoop? && a.scan.RetireSeal? && s.host.retiring.Some? && s.host.retiring.value in s.host.lanes
    && s.host.lanes[s.host.retiring.value].pending != 0
  }

  /** What markRetired does guarantee, race or no race: no task is buffered or running, no
      producer is inside, no release is queued and no section is installed. */
  lemma SealLosesNothing(s: State)
    requires Inv(s) && LoopEnabled(s, RetireSeal)
    ensures var q := s.host.lanes[s.host.retiring.value];
            AcceptedWork(q) == [] && q.gate == {} && q.inflight == map[] && q.backlog == [] && s.ex.active.None?
  {
    var l := s.host.retiring.value;
    assert LaneInv(s.host.lanes[l]);
  }

  /** Exactly when retirement keeps its promise: the lane's worker is idle after the seal if and
      only if `pending` is still zero when markRetired runs. */
  lemma SealIsQuietIff(s: State)
    requires Inv(s) && RetiredQuiet(s.host) && LoopEnabled(s, RetireSeal)
    ensures RetiredQuiet(LoopApply(s, RetireSeal).host) <==> s.host.lanes[s.host.retiring.value].pending == 0
  {
    var l := s.host.retiring.value;
    assert LaneInv(s.host.lanes[l]);
    PendingIsBusy(s.host.lanes[l]);
    var h' := LoopApply(s, RetireSeal).host;
    assert h'.lanes[l].retired && Busy(h'.lanes[l]) == Busy(s.host.lanes[l]);
  }

  /** Under the scan's lock and with an empty backlog, only a busy worker can be pending. */
  lemma PendingIsBusy(q: Lane)
    requires LaneInv(q) && q.gateLocked && q.backlog == []
    ensures q.pending == 0 <==> !Busy(q)
  {
    assert q.inflight.Keys == {};
  }

  lemma WorkerQuiet(s: State, l: LaneId, a: WorkerStep)
    requires LanesInv(s.host) && RetiredQuiet(s.host) && WorkerEnabled(s, l, a)
    ensures RetiredQuiet(WorkerApply(s, l, a).host)
  {
    assert LaneInv(s.host.lanes[l]);
  }

  lemma LaneQuiet(h: Host, h': Host, l: LaneId)
    requires RetiredQuiet(h) && l in h.lanes && l in h'.lanes && h'.lanes == h.lanes[l := h'.lanes[l]]
    requires h'.lanes[l].worker == h.lanes[l].worker && (h'.lanes[l].retired ==> h.lanes[l].retired)
    ensures RetiredQuiet(h')
  {
  }

  lemma SectionQuiet(s: State, i: SectionId, a: SectionStep)
    requires RetiredQuiet(s.host) && SectionEnabled(s, i, a)
    ensures RetiredQuiet(SectionApply(s, i, a).host)
  {
    if a.EnqueueBarrier? {
      LaneQuiet(s.host, SectionApply(s, i, a).host, a.lane);
    }
  }

  lemma HandoffQuiet(s: State, t: Token, a: HandoffStep)
    requires RetiredQuiet(s.host) && HandoffEnabled(s, t, a)
    ensures RetiredQuiet(HandoffApply(s, t, a).host)
  {
    if a.EnqueueRelease? || a.EnqueueStopped? {
      LaneQuiet(s.host, HandoffApply(s, t, a).host, s.book.ops[t].pc.lane);
    }
  }

  lemma StepQuiet(s: State, a: Step)
    requires Inv(s) && RetiredQuiet(s.host) && Enabled(s, a)
    ensures RetiredQuiet(Apply(s, a).host) <==> !RacySeal(s, a)
  {
    match a
    case OfProducer(t, o) =>
    case OfSend(t, o) => LaneQuiet(s.host, SendApply(s, t, o).host, s.book.ops[t].pc.lane);
    case OfHandoff(t, o) => HandoffQuiet(s, t, o);
    case OfWorker(l, w) => WorkerQuiet(s, l, w);
    case OfLoop(r) =>
      if r.RetireSeal? {
        SealIsQuietIff(s);
      } else if !r.LoopExit? {
        LaneQuiet(s.host, LoopApply(s, r).host, if r.RetireCheck? then r.lane else s.host.retiring.value);
      }
    case OfSection(i, m) => SectionQuiet(s, i, m);
    case OfStop(k, c) =>
      if c.CloseLane? {
        LaneQuiet(s.host, StopApply(s, k, c).host, c.lane);
      }
  }

  /** No seal of the run is racy. */
  ghost predicate CleanSeals(s: State, run: seq<Step>)
    requires Runs(s, run)
    decreases |run|
  {
    run != [] ==> !RacySeal(s, run[0]) && CleanSeals(Apply(s, run[0]), run[1..])
  }

  ghost predicate AlwaysQuiet(s: State, run: seq<Step>)
    requires Runs(s, run)
    decreases |run|
  {
    RetiredQuiet(s.host) && (run != [] ==> AlwaysQuiet(Apply(s, run[0]), run[1..]))
  }

  lemma {:induction false} QuietRuns(s: State, run: seq<Step>)
    requires Inv(s) && RetiredQuiet(s.host) && Runs(s, run)
    ensures AlwaysQuiet(s, run) <==> CleanSeals(s, run)
    ensures CleanSeals(s, run) ==> RetiredQuiet(After(s, run).host)
    decreases |run|
  {
    if run != [] {
      StepInv(s, run[0]);
      StepQuiet(s, run[0]);
      if !RacySeal(s, run[0]) {
        QuietRuns(Apply(s, run[0]), run[1..]);
      }
    }
  }
}
