/** What every step keeps of the Exclusive calls and of the stop calls that wait for them: at most
    one call holds the turn, the installed section is the one that holds it, a section outside its
    installed phases holds no postponed release, and a stop past one of its joins really is past
    it for good. */
module Sections {
  import opened Lanes
  import opened Dispatcher
  import opened Wrappers
  import opened LaneMap

  predicate Turned(pc: SectionPc) {
    !pc.Arrived? && !pc.Ended?
  }

  predicate BeforeInstall(pc: SectionPc) {
    pc.Arrived? || pc.HasTurn? || pc.Registered?
  }

  predicate Installed(pc: SectionPc) {
    pc.WaitOffLane? || pc.Barring? || pc.BarringAdd? || pc.Counting? || pc.Checking? || pc.RunningFn? || pc.Draining?
  }

  predicate BeforeFn(pc: SectionPc) {
    BeforeInstall(pc) || pc.WaitOffLane? || pc.Barring? || pc.BarringAdd? || pc.Counting? || pc.Checking?
  }

  predicate AfterWithdraw(pc: SectionPc) {
    pc.Withdrawn? || pc.LanesFreed? || pc.Left? || pc.Ended?
  }

  predicate SectionFace(e: Exclusion, i: SectionId)
    requires i in e.sections
  {
    var x := e.sections[i];
    && (e.turn == Some(i) <==> Turned(x.pc))
    && (e.active == Some(i) <==> Installed(x.pc))
    && (i in e.freed ==> x.pc.LanesFreed? || x.pc.Left? || x.pc.Ended?)
    && (x.pc.LanesFreed? ==> i in e.freed)
    && RecordInv(x)
  }

  predicate RecordInv(x: Section) {
    && (!Installed(x.pc) ==> x.deferred == [] && x.batch == [])
    && (x.batch != [] ==> x.pc.Draining?)
    && (BeforeInstall(x.pc) ==> x.expected == 0 && x.parked == 0)
    && (BeforeFn(x.pc) ==> !x.fnStarted && x.panicked.None?)
    && (x.fnRunning ==> x.fnStarted)
    && (x.pc.RunningFn? ==> x.fnRunning && x.panicked.None?)
    && (x.pc.Withdrawn? || x.pc.LanesFreed? ==> x.end != Unfinished)
    && (x.end != Unfinished ==> x.end == EndOf(x) && AfterWithdraw(x.pc))
    && (x.pc.Counting? || x.pc.Checking? || x.pc.RunningFn? || x.fnStarted ==> x.todo == {})
  }

  ghost predicate ExclusionInv(e: Exclusion) {
    && (forall i {:trigger SectionFace(e, i)} :: i in e.sections ==> SectionFace(e, i))
    && (e.turn.Some? ==> e.turn.value in e.sections)
    && (e.active.Some? ==> e.active.value in e.sections)
    && e.freed <= e.sections.Keys
  }

  lemma InitExclusion(s: State)
    requires Init(s)
    ensures ExclusionInv(s.ex)
  {
  }

  /** Changing the record of one section without moving it between phases. */
  lemma ReplaceSection(e: Exclusion, i: SectionId, x: Section)
    requires ExclusionInv(e) && i in e.sections
    requires Turned(x.pc) == Turned(e.sections[i].pc) && Installed(x.pc) == Installed(e.sections[i].pc)
    requires i in e.freed ==> x.pc.LanesFreed? || x.pc.Left? || x.pc.Ended?
    requires x.pc.LanesFreed? ==> i in e.freed
    requires RecordInv(x)
    ensures ExclusionInv(PutSection(e, i, x))
  {
    var e' := PutSection(e, i, x);
    forall j | j in e'.sections ensures SectionFace(e', j) {
      assert SectionFace(e, j);
    }
  }

  lemma SectionEx(s: State, i: SectionId, a: SectionStep)
    requires ExclusionInv(s.ex) && SectionEnabled(s, i, a)
    ensures ExclusionInv(SectionApply(s, i, a).ex)
  {
    var e' := SectionApply(s, i, a).ex;
    if a.Arrive? {
      forall j | j in e'.sections ensures SectionFace(e', j) {
        assert j == i || SectionFace(s.ex, j);
        assert s.ex.turn != Some(i) && s.ex.active != Some(i) && i !in s.ex.freed;
      }
    } else if a.TakeTurn? || a.FreeTurn? || a.FreeLanes? {
      SectionTurn(s, i, a);
    } else if a.Install? || a.Withdraw? {
      SectionInstall(s, i, a);
    } else {
      if OnLanes(a) { SectionOnLanes(s, i, a); } else { SectionRecord(s, i, a); }
      assert e' == PutSection(s.ex, i, e'.sections[i]);
      ReplaceSection(s.ex, i, e'.sections[i]);
    }
  }

  predicate SamePhase(e: Exclusion, i: SectionId, x': Section)
    requires i in e.sections
  {
    var x := e.sections[i];
    && Turned(x.pc) == Turned(x'.pc) && Installed(x.pc) == Installed(x'.pc)
    && (i in e.freed ==> x'.pc.LanesFreed? || x'.pc.Left? || x'.pc.Ended?)
    && (x'.pc.LanesFreed? ==> i in e.freed)
    && RecordInv(x')
  }

  predicate OnLanes(a: SectionStep) {
    a.EnqueueBarrier? || a.AddExpected? || a.CountParked? || a.RunRelease?
  }

  /** Steps of a section that stay within one phase. */
  lemma SectionRecord(s: State, i: SectionId, a: SectionStep)
    requires ExclusionInv(s.ex) && SectionEnabled(s, i, a) && !a.Arrive? && !OnLanes(a)
    requires !(a.TakeTurn? || a.Install? || a.Withdraw? || a.FreeLanes? || a.FreeTurn?)
    ensures SamePhase(s.ex, i, SectionApply(s, i, a).ex.sections[i])
  {
    assert SectionFace(s.ex, i);
  }

  lemma SectionOnLanes(s: State, i: SectionId, a: SectionStep)
    requires ExclusionInv(s.ex) && SectionEnabled(s, i, a) && OnLanes(a)
    ensures SamePhase(s.ex, i, SectionApply(s, i, a).ex.sections[i])
  {
    assert SectionFace(s.ex, i);
  }

  lemma SectionTurn(s: State, i: SectionId, a: SectionStep)
    requires ExclusionInv(s.ex) && SectionEnabled(s, i, a)
    requires a.TakeTurn? || a.FreeTurn? || a.FreeLanes?
    ensures ExclusionInv(SectionApply(s, i, a).ex)
  {
    var e' := SectionApply(s, i, a).ex;
    assert SectionFace(s.ex, i);
    assert SectionFace(e', i);
    forall j | j in e'.sections ensures SectionFace(e', j) {
      assert j == i || (SectionFace(s.ex, j) && e'.sections[j] == s.ex.sections[j]);
    }
  }

  lemma SectionInstall(s: State, i: SectionId, a: SectionStep)
    requires ExclusionInv(s.ex) && SectionEnabled(s, i, a)
    requires a.Install? || a.Withdraw?
    ensures ExclusionInv(SectionApply(s, i, a).ex)
  {
    var e' := SectionApply(s, i, a).ex;
    assert SectionFace(s.ex, i);
    assert SectionFace(e', i);
    forall j | j in e'.sections ensures SectionFace(e', j) {
      assert j == i || (SectionFace(s.ex, j) && e'.sections[j] == s.ex.sections[j]);
    }
  }

  lemma CreateEx(s: State, key: RoutingKey, newId: LaneId)
    requires ExclusionInv(s.ex)
    ensures ExclusionInv(Create(s, key, newId).ex)
  {
    if s.ex.active.Some? {
      var i := s.ex.active.value;
      assert SectionFace(s.ex, i);
      ReplaceSection(s.ex, i, s.ex.sections[i].(expected := s.ex.sections[i].expected + 1));
    }
  }

  lemma PostponeEx(s: State, t: Token, i: SectionId)
    requires ExclusionInv(s.ex) && t in s.book.ops && s.ex.active == Some(i)
    ensures ExclusionInv(PostponeTo(s, t, i).ex)
  {
    assert SectionFace(s.ex, i);
    ReplaceSection(s.ex, i, s.ex.sections[i].(deferred := s.ex.sections[i].deferred + [t]));
  }

  lemma ProducerEx(s: State, t: Token, a: ProducerStep)
    requires ExclusionInv(s.ex) && ProducerEnabled(s, t, a)
    ensures ExclusionInv(ProducerApply(s, t, a).ex)
  {
    if a.Lookup? && !Live(s, s.book.ops[t].key) {
      CreateEx(s, s.book.ops[t].key, a.newId);
    }
  }

  lemma HandoffEx(s: State, t: Token, a: HandoffStep)
    requires ExclusionInv(s.ex) && HandoffEnabled(s, t, a)
    ensures ExclusionInv(HandoffApply(s, t, a).ex)
  {
    if (a.CleanupWithoutLane? || a.BeginLifecycle?) && s.ex.active.Some? {
      PostponeEx(s, t, s.ex.active.value);
    }
  }

  lemma WorkerEx(s: State, l: LaneId, a: WorkerStep)
    requires ExclusionInv(s.ex) && WorkerEnabled(s, l, a)
    ensures ExclusionInv(WorkerApply(s, l, a).ex)
  {
    var q := s.host.lanes[l];
    if a.Take? && s.sig.hard && q.backlog[0].work.Barrier? {
      var i := q.backlog[0].work.section;
      assert SectionFace(s.ex, i);
      ReplaceSection(s.ex, i, s.ex.sections[i].(aborted := true));
    }
  }

  lemma StepEx(s: State, a: Step)
    requires ExclusionInv(s.ex) && Enabled(s, a)
    ensures ExclusionInv(Apply(s, a).ex)
  {
    match a
    case OfProducer(t, o) => ProducerEx(s, t, o);
    case OfHandoff(t, o) => HandoffEx(s, t, o);
    case OfWorker(l, w) => WorkerEx(s, l, w);
    case OfSection(i, m) => SectionEx(s, i, m);
    case OfSend(t, o) => assert SendApply(s, t, o).ex == s.ex;
    case OfLoop(r) => assert LoopApply(s, r).ex == s.ex;
    case OfStop(k, c) => assert StopApply(s, k, c).ex == s.ex;
  }

  // ----- Joins -----

  predicate PastWorkers(pc: StopPc) {
    pc.WorkersDone? || pc.SectionsDone? || pc.LifecycleSealed? || pc.Succeeded?
  }

  predicate PastSections(pc: StopPc) {
    pc.SectionsDone? || pc.LifecycleSealed? || pc.Succeeded?
  }

  ghost predicate Joined(s: State, pc: StopPc) {
    && (PastWorkers(pc) ==> AllExited(s))
    && (PastSections(pc) ==> NoSections(s))
    && (pc.LifecycleSealed? || pc.Succeeded? ==> s.sig.sealed)
  }

  /** The engine is released once, after every join; the sealing outlives the stop that did it. */
  ghost predicate JoinInv(s: State) {
    && (forall k {:trigger Joined(s, s.st.stoppers[k].pc)} :: k in s.st.stoppers ==> Joined(s, s.st.stoppers[k].pc))
    && (s.sig.sealed ==> s.host.stopping && s.sig.fence && AllExited(s) && NoSections(s) && s.sig.tracked == {})
    && (s.st.released ==> s.sig.sealed)
    && s.st.releases == (if s.st.released then 1 else 0)
  }

  // A worker that has exited stays exited, and no lane is created once the stop has marked.

  lemma ProducerExited(s: State, t: Token, a: ProducerStep)
    requires ProducerEnabled(s, t, a) && s.host.stopping && AllExited(s)
    ensures AllExited(ProducerApply(s, t, a))
  {
    assert ProducerApply(s, t, a).host == s.host;
  }

  lemma LaneExited(s: State, s': State, l: LaneId)
    requires AllExited(s) && l in s.host.lanes && l in s'.host.lanes
    requires s'.host.lanes == s.host.lanes[l := s'.host.lanes[l]] && s'.host.lanes[l].worker == s.host.lanes[l].worker
    ensures AllExited(s')
  {
  }

  lemma SendExited(s: State, t: Token, a: SendStep)
    requires SendEnabled(s, t, a) && AllExited(s)
    ensures AllExited(SendApply(s, t, a))
  {
    LaneExited(s, SendApply(s, t, a), s.book.ops[t].pc.lane);
  }

  lemma HandoffExited(s: State, t: Token, a: HandoffStep)
    requires HandoffEnabled(s, t, a) && AllExited(s)
    ensures AllExited(HandoffApply(s, t, a))
  {
    if a.EnqueueRelease? || a.EnqueueStopped? {
      LaneExited(s, HandoffApply(s, t, a), s.book.ops[t].pc.lane);
    } else {
      assert HandoffApply(s, t, a).host.lanes == s.host.lanes;
    }
  }

  lemma LoopExited(s: State, a: LoopStep)
    requires LoopEnabled(s, a) && AllExited(s)
    ensures AllExited(LoopApply(s, a))
  {
    if !a.LoopExit? {
      LaneExited(s, LoopApply(s, a), if a.RetireCheck? then a.lane else s.host.retiring.value);
    }
  }

  lemma SectionExited(s: State, i: SectionId, a: SectionStep)
    requires SectionEnabled(s, i, a) && AllExited(s)
    ensures AllExited(SectionApply(s, i, a))
  {
    if a.EnqueueBarrier? {
      LaneExited(s, SectionApply(s, i, a), a.lane);
    } else {
      assert SectionApply(s, i, a).host == s.host;
    }
  }

  lemma StopExited(s: State, k: StopId, a: StopStep)
    requires StopEnabled(s, k, a) && AllExited(s)
    ensures AllExited(StopApply(s, k, a))
  {
    if a.CloseLane? {
      LaneExited(s, StopApply(s, k, a), a.lane);
    } else {
      assert StopApply(s, k, a).host.lanes == s.host.lanes;
    }
  }

  lemma ExitedStays(s: State, a: Step)
    requires Enabled(s, a) && s.host.stopping && AllExited(s)
    ensures AllExited(Apply(s, a))
  {
    match a
    case OfProducer(t, o) => ProducerExited(s, t, o);
    case OfSend(t, o) => SendExited(s, t, o);
    case OfHandoff(t, o) => HandoffExited(s, t, o);
    case OfWorker(l, w) => assert false;
    case OfLoop(r) => LoopExited(s, r);
    case OfSection(i, m) => SectionExited(s, i, m);
    case OfStop(k, c) => StopExited(s, k, c);
  }

  /** No section is counted once the stop signal is up and the count was zero. */
  lemma NoSectionsStays(s: State, a: Step)
    requires ExclusionInv(s.ex) && Enabled(s, a) && s.sig.stopped && NoSections(s)
    ensures NoSections(Apply(s, a))
  {
    match a
    case OfSection(i, m) => SectionsStay(s, i, m);
    case OfProducer(t, o) => CountedStays(s, ProducerApply(s, t, o));
    case OfSend(t, o) => assert SendApply(s, t, o).ex == s.ex;
    case OfHandoff(t, o) => CountedStays(s, HandoffApply(s, t, o));
    case OfWorker(l, w) => CountedStays(s, WorkerApply(s, l, w));
    case OfLoop(r) => assert LoopApply(s, r).ex == s.ex;
    case OfStop(k, c) => assert StopApply(s, k, c).ex == s.ex;
  }

  lemma CountedStays(s: State, s': State)
    requires NoSections(s) && s'.ex.sections.Keys == s.ex.sections.Keys
    requires forall i :: i in s.ex.sections ==> s'.ex.sections[i].pc == s.ex.sections[i].pc
    ensures NoSections(s')
  {
  }

  lemma SectionsStay(s: State, i: SectionId, a: SectionStep)
    requires SectionEnabled(s, i, a) && s.sig.stopped && NoSections(s)
    ensures NoSections(SectionApply(s, i, a))
  {
    var e' := SectionApply(s, i, a).ex;
    assert i in s.ex.sections ==> !Counted(s.ex.sections[i].pc);
    forall j | j in e'.sections ensures !Counted(e'.sections[j].pc) {
      assert j == i || e'.sections[j] == s.ex.sections[j];
    }
  }

  lemma InitJoin(s: State)
    requires Init(s)
    ensures JoinInv(s)
  {
  }

  /** What a stop call has joined stays joined. */
  lemma JoinedStays(s: State, a: Step, pc: StopPc)
    requires SignalInv(s) && ExclusionInv(s.ex) && Enabled(s, a)
    requires Joined(s, pc) && StopperInv(s, pc)
    ensures Joined(Apply(s, a), pc)
  {
    if PastWorkers(pc) {
      ExitedStays(s, a);
    }
    if PastSections(pc) {
      NoSectionsStays(s, a);
    }
    SealedStays(s, a);
  }

  lemma SealedStays(s: State, a: Step)
    requires Enabled(s, a)
    ensures s.sig.sealed ==> Apply(s, a).sig.sealed
    ensures !a.OfStop? ==> Apply(s, a).sig.sealed == s.sig.sealed && Apply(s, a).st == s.st
    ensures !a.OfStop? ==> Apply(s, a).host.stopping == s.host.stopping
    ensures s.host.stopping ==> Apply(s, a).host.stopping
    ensures s.sig.fence ==> Apply(s, a).sig.fence
  {
  }

  lemma StepJoin(s: State, a: Step)
    requires SignalInv(s) && ExclusionInv(s.ex) && JoinInv(s) && Enabled(s, a)
    ensures JoinInv(Apply(s, a))
  {
    var s' := Apply(s, a);
    SealedStays(s, a);
    if s.sig.sealed {
      ExitedStays(s, a);
      NoSectionsStays(s, a);
      TrackedStays(s, a);
    }
    if a.OfStop? {
      StopJoin(s, a.stop, a.act);
    } else {
      forall k | k in s'.st.stoppers ensures Joined(s', s'.st.stoppers[k].pc) {
        assert Joined(s, s.st.stoppers[k].pc) && StopperInv(s, s.st.stoppers[k].pc);
        JoinedStays(s, a, s.st.stoppers[k].pc);
      }
    }
  }

  lemma TrackedStays(s: State, a: Step)
    requires Enabled(s, a) && s.sig.sealed && s.sig.tracked == {}
    ensures Apply(s, a).sig.tracked == {}
  {
    match a
    case OfProducer(t, o) =>
    case OfSend(t, o) =>
    case OfHandoff(t, o) =>
    case OfWorker(l, w) =>
    case OfLoop(r) =>
    case OfSection(i, m) =>
    case OfStop(k, c) =>
  }

  lemma StopJoin(s: State, k: StopId, a: StopStep)
    requires SignalInv(s) && ExclusionInv(s.ex) && JoinInv(s) && StopEnabled(s, k, a)
    ensures JoinInv(StopApply(s, k, a))
  {
    var s' := StopApply(s, k, a);
    assert k in s.st.stoppers ==> Joined(s, s.st.stoppers[k].pc) && StopperInv(s, s.st.stoppers[k].pc);
    if AllExited(s) {
      StopExited(s, k, a);
    }
    assert s'.ex == s.ex;
    forall m | m in s'.st.stoppers ensures Joined(s', s'.st.stoppers[m].pc) {
      assert m in s.st.stoppers ==> Joined(s, s.st.stoppers[m].pc);
    }
  }
}
