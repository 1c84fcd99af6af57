/** A stop can always succeed: from every reachable state, whatever the interleaving did so far and
    however often the two races were lost, there is a continuation in which the stop call releases the
    engine. No state on the way is a trap. */
module Shutdown {
  import opened Sets
  import opened Lanes
  import opened Dispatcher
  import opened Wrappers
  import opened LaneMap
  import opened Sections
  import opened Coverage
  import opened Ownership
  import opened Releases
  import opened Safety
  import opened Outcomes
  import opened Progress
  import opened Stopping

  // ----- Reaching a state -----

  ghost predicate Reaches(s: State, e: State) {
    exists run: seq<Step> :: Runs(s, run) && After(s, run) == e
  }

  lemma ReachesItself(s: State)
    ensures Reaches(s, s)
  {
    assert Runs(s, []) && After(s, []) == s;
  }

  lemma StepReaches(s: State, a: Step, e: State)
    requires Enabled(s, a) && Reaches(Apply(s, a), e)
    ensures Reaches(s, e)
  {
    var run: seq<Step> :| Runs(Apply(s, a), run) && After(Apply(s, a), run) == e;
    assert ([a] + run)[1..] == run;
    assert Runs(s, [a] + run) && After(s, [a] + run) == e;
  }

  lemma {:induction false} RunReaches(s: State, run: seq<Step>, e: State)
    requires Runs(s, run) && Reaches(After(s, run), e)
    ensures Reaches(s, e)
    decreases |run|
  {
    if run != [] {
      RunReaches(Apply(s, run[0]), run[1..], e);
      StepReaches(s, run[0], e);
    }
  }

  lemma ReachesOn(s: State, m: State, e: State)
    requires Reaches(s, m) && Reaches(m, e)
    ensures Reaches(s, e)
  {
    var run: seq<Step> :| Runs(s, run) && After(s, run) == m;
    RunReaches(s, run, e);
  }

  lemma OneStep(s: State, a: Step)
    requires StopInv(s) && Enabled(s, a)
    ensures Reaches(s, Apply(s, a)) && StopInv(Apply(s, a))
  {
    ReachesItself(Apply(s, a));
    StepReaches(s, a, Apply(s, a));
    StepStopInv(s, a);
  }

  // ----- The submits end and the fence closes -----

  lemma LeavesCalls(s: State, t: Token)
    requires CanLeave(s, t)
    ensures Apply(s, WayOut(t, PcOf(s.book, t))).st == s.st
  {
    OthersLeaveCalls(s, WayOut(t, PcOf(s.book, t)));
  }

  /** A registered submit that is left alone ends. */
  lemma {:induction false} SubmitEnds(s: State, t: Token) returns (e: State)
    requires StopInv(s) && s.sig.stopped && t in s.sig.inFlight
    ensures Reaches(s, e) && StopInv(e) && e.st == s.st && e.sig.stopped && e.sig.inFlight == s.sig.inFlight - {t}
    decreases Rank(PcOf(s.book, t))
  {
    var a := WayOut(t, PcOf(s.book, t));
    WayOutIsOpen(s, t);
    WayOutLeads(s, t);
    LeavesCalls(s, t);
    OneStep(s, a);
    if Returned(PcOf(s.book, t)) {
      e := Apply(s, a);
    } else {
      e := SubmitEnds(Apply(s, a), t);
      ReachesOn(s, Apply(s, a), e);
    }
  }

  lemma {:induction false} SubmitsEnd(s: State) returns (e: State)
    requires StopInv(s) && s.sig.stopped
    ensures Reaches(s, e) && StopInv(e) && e.st == s.st && e.sig.stopped && e.sig.inFlight == {}
    decreases |s.sig.inFlight|
  {
    var t := SomeMember(s.sig.inFlight);
    if s.sig.inFlight == {} {
      e := s;
      ReachesItself(s);
    } else {
      var m := SubmitEnds(s, t);
      e := SubmitsEnd(m);
      ReachesOn(s, m, e);
    }
  }

  lemma FenceCloses(s: State) returns (e: State)
    requires StopInv(s) && s.sig.stopped
    ensures Reaches(s, e) && StopInv(e) && e.st == s.st && e.sig.stopped && e.sig.inFlight == {} && e.sig.fence
  {
    e := SubmitsEnd(s);
    if !e.sig.fence {
      var t := SomeMember(e.sig.checking);
      assert ProducerEnabled(e, t, CheckFence);
      OneStep(e, OfProducer(t, CheckFence));
      ReachesOn(s, e, ProducerApply(e, t, CheckFence));
      e := ProducerApply(e, t, CheckFence);
    }
  }

  // ----- The section ends -----

  /** How much a counted section has to do until it leaves, if it does not run its function any more. */
  function Weight(x: Section): nat {
    var drain := 3 + 2 * |x.batch| + 3 * |x.deferred|;
    match x.pc
    case Registered => drain + 2
    case WaitOffLane => drain + 1
    case Barring => drain + 2 + 2 * |x.todo|
    case BarringAdd => drain + 3 + 2 * |x.todo|
    case Counting => drain + 1
    case Checking => drain + 1
    case RunningFn => drain + 1
    case Draining => drain
    case Withdrawn => 2
    case LanesFreed => 1
    case _ => 0
  }

  /** The step leaves the section less to do, and takes it no further than out. */
  predicate Shrinks(s: State, i: SectionId, a: SectionStep) {
    && i in s.ex.sections && SectionEnabled(s, i, a) && i in SectionApply(s, i, a).ex.sections
    && var x := SectionApply(s, i, a).ex.sections[i];
    Weight(x) < Weight(s.ex.sections[i]) && (Counted(x.pc) || x.pc.Left?)
  }

  lemma PlainShrinks(s: State, i: SectionId, a: SectionStep)
    requires i in s.ex.sections && RecordInv(s.ex.sections[i]) && SectionEnabled(s, i, a)
    requires a.Install? || a.EndEarly? || a.AddExpected? || a.FnReturn? || a.FreeLanes? || a.LeaveSections?
    ensures Shrinks(s, i, a)
  {
  }

  /** What a section does next if its wait is given up. */
  lemma SectionNext(s: State, i: SectionId) returns (a: SectionStep)
    requires Inv(s) && MuFree(s) && i in s.ex.sections && Counted(s.ex.sections[i].pc)
    ensures Shrinks(s, i, a)
  {
    var pc := s.ex.sections[i].pc;
    if pc.Barring? {
      a := BarringNext(s, i);
    } else if pc.Draining? {
      a := DrainNext(s, i);
    } else {
      StoppedCanInstall(s);
      a := if pc.Registered? then Install(OpenLanes(s))
           else if pc.BarringAdd? then AddExpected
           else if pc.RunningFn? then FnReturn
           else if pc.Withdrawn? then FreeLanes
           else if pc.LanesFreed? then LeaveSections
           else EndEarly;
      assert SectionFace(s.ex, i);
      PlainShrinks(s, i, a);
    }
  }

  lemma DrainShrinks(s: State, i: SectionId, a: SectionStep)
    requires i in s.ex.sections && SectionEnabled(s, i, a) && (a == RunRelease(false) || a.Withdraw?)
    ensures Shrinks(s, i, a)
  {
  }

  lemma DrainNext(s: State, i: SectionId) returns (a: SectionStep)
    requires Inv(s) && MuFree(s) && i in s.ex.sections && s.ex.sections[i].pc.Draining?
    ensures Shrinks(s, i, a)
  {
    if s.ex.sections[i].batch != [] { BatchIsPostponed(s, i); }
    a := if s.ex.sections[i].batch != [] then RunRelease(false) else Withdraw;
    DrainShrinks(s, i, a);
  }

  lemma BarringNext(s: State, i: SectionId) returns (a: SectionStep)
    requires Inv(s) && i in s.ex.sections && s.ex.sections[i].pc.Barring?
    ensures Shrinks(s, i, a)
  {
    var todo := s.ex.sections[i].todo;
    assert SectionFace(s.ex, i) && Cover(s.host, s.ex.sections[i], s.sig.stopped, i);
    var l := SomeMember(todo);
    if todo == {} {
      a := StartCounting;
    } else {
      a := EnqueueBarrier(l);
      BarringShrinks(s, i, l);
    }
  }

  lemma BarringShrinks(s: State, i: SectionId, l: LaneId)
    requires SectionEnabled(s, i, EnqueueBarrier(l))
    ensures Shrinks(s, i, EnqueueBarrier(l))
  {
    assert |s.ex.sections[i].todo - {l}| == |s.ex.sections[i].todo| - 1;
  }

  lemma {:induction false} SectionLeaves(s: State, i: SectionId) returns (e: State)
    requires StopInv(s) && MuFree(s) && i in s.ex.sections && Counted(s.ex.sections[i].pc)
    ensures Reaches(s, e) && StopInv(e) && e.st == s.st && e.sig == s.sig
    ensures i in e.ex.sections && e.ex.sections[i].pc.Left?
    decreases Weight(s.ex.sections[i])
  {
    var a := SectionNext(s, i);
    OneStep(s, OfSection(i, a));
    e := SectionApply(s, i, a);
    if !e.ex.sections[i].pc.Left? {
      e := SectionLeaves(SectionApply(s, i, a), i);
      ReachesOn(s, SectionApply(s, i, a), e);
    }
  }

  /** Only one section is counted, so afterwards none is. */
  lemma SectionsEnd(s: State) returns (e: State)
    requires StopInv(s) && MuFree(s)
    ensures Reaches(s, e) && StopInv(e) && e.st == s.st && e.sig == s.sig && NoSections(e)
  {
    var counted := set i | i in s.ex.sections && Counted(s.ex.sections[i].pc);
    var i := SomeMember(counted);
    if counted == {} {
      e := s;
      ReachesItself(s);
      forall j | j in s.ex.sections ensures !Counted(s.ex.sections[j].pc) {
        assert j !in counted;
      }
    } else {
      e := SectionLeaves(s, i);
      forall j | j in e.ex.sections ensures !Counted(e.ex.sections[j].pc) {
        assert SectionFace(e.ex, i) && SectionFace(e.ex, j);
      }
    }
  }

  // ----- The workers exit -----

  /** How much the worker of a closed lane has to do until it exits. */
  function Load(q: Lane): nat {
    10 * (|q.ch| + |q.backlog| + if q.sawEnd then 0 else 1) +
    match q.worker
    case Task(_, _) => 3
    case Selecting => 0
    case Polling => 1
    case Exited => 0
    case _ => 2
  }

  /** Everything that can end a lane's work has happened around it. */
  ghost predicate Closing(s: State) {
    && s.sig.stopped && s.sig.fence && NoSections(s)
    && (forall l :: l in s.host.lanes ==> s.host.lanes[l].closed)
  }

  /** The step was a small one for the lane. */
  predicate Eases(s: State, l: LaneId, w: WorkerStep) {
    WorkerEnabled(s, l, w) && Load(WorkerApply(s, l, w).host.lanes[l]) < Load(s.host.lanes[l])
  }

  lemma PlainEases(s: State, l: LaneId, w: WorkerStep)
    requires WorkerEnabled(s, l, w)
    requires w in {StartWorker, WorkerStep.FinishTask, WorkerStep.Settle, WorkerStep.FinishMandatory, WorkerStep.DrainEnd,
                   WorkerStep.PassBarrier}
    ensures Eases(s, l, w)
  {
  }

  /** What the worker of a closed lane does next. */
  lemma WorkerNext(s: State, l: LaneId) returns (w: WorkerStep)
    requires Inv(s) && Closing(s) && l in s.host.lanes && !s.host.lanes[l].worker.Exited?
    ensures Eases(s, l, w)
  {
    var q := s.host.lanes[l];
    assert LaneInv(q);
    if q.worker.Polling? {
      w := PollNext(s, l);
    } else if q.worker.Selecting? {
      w := SelectNext(s, l);
    } else {
      if q.worker.Task? {
        assert q.worker.token in AcceptedWork(q);
      } else if AtBarrier(q) {
        BarriersAreFreed(s, l, q.worker.section);
      }
      assert q.worker.Task? || q.worker.Mandatory? ==> Own(q, l, q.worker.token, PcOf(s.book, q.worker.token));
      w := if q.worker.NotStarted? then StartWorker
           else if q.worker.Task? then WorkerStep.FinishTask
           else if q.worker.Settling? then WorkerStep.Settle
           else if q.worker.Mandatory? then WorkerStep.FinishMandatory
           else if q.worker.Emptying? then WorkerStep.DrainEnd
           else WorkerStep.PassBarrier;
      PlainEases(s, l, w);
    }
  }

  lemma SelectNext(s: State, l: LaneId) returns (w: WorkerStep)
    requires Closing(s) && l in s.host.lanes && s.host.lanes[l].worker.Selecting? && LaneInv(s.host.lanes[l])
    ensures Eases(s, l, w)
  {
    var q := s.host.lanes[l];
    w := if q.ch != [] then WorkerStep.Receive else if q.retired then WorkerStep.SeeQuit else WorkerStep.SeeClosed;
  }

  /** With no section left, every barrier that a lane still has is one that has been freed. */
  lemma BarriersAreFreed(s: State, l: LaneId, i: SectionId)
    requires Inv(s) && NoSections(s) && l in s.host.lanes && HasBarrier(s.host.lanes[l], i)
    ensures i in s.ex.sections && i in s.ex.freed
  {
    assert KnownLane(s.host.lanes[l], s.ex);
  }

  lemma PollNext(s: State, l: LaneId) returns (w: WorkerStep)
    requires Inv(s) && Closing(s) && l in s.host.lanes && s.host.lanes[l].worker.Polling?
    ensures Eases(s, l, w)
  {
    var q := s.host.lanes[l];
    assert LaneInv(q);
    ClosedLaneIsQuiet(q);
    if Ready(q, s.sig.fence) {
      if q.backlog[0].work.Barrier? { BarriersAreFreed(s, l, q.backlog[0].work.section); }
      w := WorkerStep.Take;
      TakeEases(s, l);
    } else {
      if q.backlog != [] && q.sawEnd { SettledHeadIsReady(q, s.sig.fence); }
      w := if q.sawEnd then WorkerStep.FinishWorker else WorkerStep.PollMiss;
      EmptyPollEases(s, l, w);
    }
  }

  lemma EmptyPollEases(s: State, l: LaneId, w: WorkerStep)
    requires WorkerEnabled(s, l, w) && (w == WorkerStep.FinishWorker || (w == WorkerStep.PollMiss && !s.host.lanes[l].sawEnd))
    ensures Eases(s, l, w)
  {
    var q := s.host.lanes[l];
    if w == WorkerStep.PollMiss {
      assert |Lanes.PollMiss(q, s.sig.fence).backlog| == |q.backlog|;
    }
  }

  lemma TakeEases(s: State, l: LaneId)
    requires WorkerEnabled(s, l, WorkerStep.Take)
    ensures Eases(s, l, WorkerStep.Take)
  {
    var q := s.host.lanes[l];
    assert |Lanes.Take(q, s.sig.fence, s.sig.hard).backlog| == |q.backlog| - 1;
  }

  lemma WorkerKeepsClosing(s: State, l: LaneId, w: WorkerStep)
    requires Closing(s) && WorkerEnabled(s, l, w)
    ensures Closing(WorkerApply(s, l, w))
  {
    var s' := WorkerApply(s, l, w);
    WorkerStaysClosed(s, l, w);
    forall i | i in s'.ex.sections ensures !Counted(s'.ex.sections[i].pc) {
      assert i in s.ex.sections && s'.ex.sections[i].pc == s.ex.sections[i].pc;
    }
  }

  lemma {:induction false} WorkerExits(s: State, l: LaneId) returns (e: State)
    requires StopInv(s) && Closing(s) && l in s.host.lanes
    ensures Reaches(s, e) && StopInv(e) && Closing(e) && e.st == s.st
    ensures l in e.host.lanes && e.host.lanes[l].worker.Exited? && e.host.lanes == s.host.lanes[l := e.host.lanes[l]]
    decreases Load(s.host.lanes[l])
  {
    if s.host.lanes[l].worker.Exited? {
      e := s;
      ReachesItself(s);
    } else {
      var w := WorkerNext(s, l);
      OneStep(s, OfWorker(l, w));
      WorkerKeepsClosing(s, l, w);
      e := WorkerExits(WorkerApply(s, l, w), l);
      ReachesOn(s, WorkerApply(s, l, w), e);
    }
  }

  ghost function AtWork(h: Host): set<LaneId> {
    set l | l in h.lanes && !h.lanes[l].worker.Exited?
  }

  lemma {:induction false} WorkersExit(s: State) returns (e: State)
    requires StopInv(s) && Closing(s)
    ensures Reaches(s, e) && StopInv(e) && Closing(e) && e.st == s.st && AllExited(e)
    decreases |AtWork(s.host)|
  {
    var l := SomeMember(AtWork(s.host));
    if AtWork(s.host) == {} {
      e := s;
      ReachesItself(s);
      forall m | m in s.host.lanes ensures s.host.lanes[m].worker.Exited? {
        assert m !in AtWork(s.host);
      }
    } else {
      var m := WorkerExits(s, l);
      assert AtWork(m.host) == AtWork(s.host) - {l};
      e := WorkersExit(m);
      ReachesOn(s, m, e);
    }
  }

  // ----- The counted releases end -----

  lemma {:induction false} ReleasesEnd(s: State) returns (e: State)
    requires StopInv(s)
    ensures Reaches(s, e) && StopInv(e) && e.st == s.st && e.sig.tracked == {}
    decreases |s.sig.tracked|
  {
    var t := SomeMember(s.sig.tracked);
    if s.sig.tracked == {} {
      e := s;
      ReachesItself(s);
    } else {
      assert t in s.book.ops && OpFace(s.host, s.sig, t, s.book.ops[t]) && ActiveOk(s);
      OneStep(s, OfHandoff(t, FinishLifecycle));
      var m := HandoffApply(s, t, FinishLifecycle);
      assert m.sig.tracked == s.sig.tracked - {t};
      e := ReleasesEnd(m);
      ReachesOn(s, m, e);
    }
  }

  // ----- The stop call -----

  function Stage(pc: StopPc): nat {
    match pc
    case StopArrived => 10
    case LoopStopped => 9
    case HardSignalled => 8
    case Signalled => 7
    case SubmitsDone => 6
    case Closing(_) => 5
    case WaitingWorkers => 4
    case WorkersDone => 3
    case SectionsDone => 2
    case LifecycleSealed => 1
    case _ => 0
  }

  function Unclosed(pc: StopPc): nat {
    if pc.Closing? then |pc.todo| else 0
  }

  predicate BroughtOn(p: StopPc, q: StopPc) {
    !q.TimedOut? && (Stage(q) < Stage(p) || (Stage(q) == Stage(p) && Unclosed(q) < Unclosed(p)))
  }

  /** The call k got on from s to e. */
  ghost predicate GotOn(s: State, e: State, k: StopId)
    requires k in s.st.stoppers
  {
    Reaches(s, e) && StopInv(e) && k in e.st.stoppers && BroughtOn(s.st.stoppers[k].pc, e.st.stoppers[k].pc)
  }

  /** Every step of a call but giving up brings it on. */
  lemma StepBringsOn(s: State, k: StopId, a: StopStep)
    requires StopEnabled(s, k, a) && a != TimeOut && !a.StopArrive?
    ensures k in StopApply(s, k, a).st.stoppers
    ensures BroughtOn(s.st.stoppers[k].pc, StopApply(s, k, a).st.stoppers[k].pc)
  {
    if a.CloseLane? {
      assert |s.st.stoppers[k].pc.todo - {a.lane}| == |s.st.stoppers[k].pc.todo| - 1;
    }
  }

  /** What the call waited for has happened in m, and it takes its own step. */
  lemma CallGetsOn(s: State, m: State, k: StopId, a: StopStep)
    requires k in s.st.stoppers && Reaches(s, m) && StopInv(m) && m.st == s.st
    requires StopEnabled(m, k, a) && a != TimeOut && !a.StopArrive?
    ensures GotOn(s, StopApply(m, k, a), k)
  {
    StepBringsOn(m, k, a);
    OneStep(m, OfStop(k, a));
    ReachesOn(s, m, StopApply(m, k, a));
  }

  lemma LoopEnds(s: State) returns (e: State)
    requires StopInv(s) && s.sig.loopStop
    ensures Reaches(s, e) && StopInv(e) && e.st == s.st && e.sig.loopDone
  {
    e := s;
    ReachesItself(s);
    if !e.sig.loopDone && e.host.retiring.Some? {
      assert LaneFace(e.host, e.host.retiring.value);
      OneStep(e, OfLoop(RetireRefuse));
      e := LoopApply(e, RetireRefuse);
    }
    if !e.sig.loopDone {
      OneStep(e, OfLoop(LoopExit));
      ReachesOn(s, e, LoopApply(e, LoopExit));
      e := LoopApply(e, LoopExit);
    }
  }

  lemma ArrivedGetsOn(s: State, k: StopId) returns (e: State)
    requires StopInv(s) && k in s.st.stoppers && s.st.stoppers[k].pc.StopArrived?
    ensures GotOn(s, e, k)
  {
    assert CallInv(s, s.st.stoppers[k]);
    var m := LoopEnds(s);
    CallGetsOn(s, m, k, StopLoop);
    e := StopApply(m, k, StopLoop);
  }

  lemma SignalledGetsOn(s: State, k: StopId) returns (e: State)
    requires StopInv(s) && k in s.st.stoppers && s.st.stoppers[k].pc.Signalled?
    ensures GotOn(s, e, k)
  {
    assert StopperInv(s, s.st.stoppers[k].pc);
    var m := FenceCloses(s);
    CallGetsOn(s, m, k, SubmitsSettled);
    e := StopApply(m, k, SubmitsSettled);
  }

  /** With no submit in flight no gate is held. */
  lemma GatesAreFree(s: State, l: LaneId)
    requires Inv(s) && s.sig.stopped && s.sig.inFlight == {} && l in s.host.lanes
    ensures s.host.lanes[l].gate == {} && !s.host.lanes[l].gateLocked
  {
    assert LaneFace(s.host, l);
    forall t ensures t !in s.host.lanes[l].gate {
      assert Own(s.host.lanes[l], l, t, PcOf(s.book, t));
      assert t in s.book.ops ==> OpFace(s.host, s.sig, t, s.book.ops[t]);
    }
  }

  lemma ClosingGetsOn(s: State, k: StopId) returns (e: State)
    requires StopInv(s) && k in s.st.stoppers && s.st.stoppers[k].pc.Closing?
    ensures GotOn(s, e, k)
  {
    assert StopperInv(s, s.st.stoppers[k].pc);
    var m := SubmitsEnd(s);
    assert CallInv(m, m.st.stoppers[k]);
    var todo := m.st.stoppers[k].pc.todo;
    var l := SomeMember(todo);
    var a := if todo == {} then ClosingDone else CloseLane(l);
    if todo != {} { GatesAreFree(m, l); }
    CallGetsOn(s, m, k, a);
    e := StopApply(m, k, a);
  }

  lemma WaitingGetsOn(s: State, k: StopId) returns (e: State)
    requires StopInv(s) && k in s.st.stoppers && s.st.stoppers[k].pc.WaitingWorkers?
    ensures GotOn(s, e, k)
  {
    assert StopperInv(s, s.st.stoppers[k].pc);
    var m := SectionsEnd(s);
    assert CallInv(m, m.st.stoppers[k]);
    var n := WorkersExit(m);
    ReachesOn(s, m, n);
    CallGetsOn(s, n, k, WorkersJoined);
    e := StopApply(n, k, WorkersJoined);
  }

  lemma WorkersDoneGetsOn(s: State, k: StopId) returns (e: State)
    requires StopInv(s) && k in s.st.stoppers && s.st.stoppers[k].pc.WorkersDone?
    ensures GotOn(s, e, k)
  {
    assert StopperInv(s, s.st.stoppers[k].pc);
    var m := SectionsEnd(s);
    CallGetsOn(s, m, k, SectionsJoined);
    e := StopApply(m, k, SectionsJoined);
  }

  lemma SectionsDoneGetsOn(s: State, k: StopId) returns (e: State)
    requires StopInv(s) && k in s.st.stoppers && s.st.stoppers[k].pc.SectionsDone?
    ensures GotOn(s, e, k)
  {
    var m := ReleasesEnd(s);
    CallGetsOn(s, m, k, SealLifecycle);
    e := StopApply(m, k, SealLifecycle);
  }

  lemma CallSteps(s: State, k: StopId, a: StopStep) returns (e: State)
    requires StopInv(s) && k in s.st.stoppers && StopEnabled(s, k, a) && a != TimeOut && !a.StopArrive?
    ensures GotOn(s, e, k)
  {
    ReachesItself(s);
    CallGetsOn(s, s, k, a);
    e := StopApply(s, k, a);
  }

  lemma GetsOn(s: State, k: StopId) returns (e: State)
    requires StopInv(s) && k in s.st.stoppers && Stage(s.st.stoppers[k].pc) > 0
    ensures GotOn(s, e, k)
  {
    assert StopperInv(s, s.st.stoppers[k].pc);
    match s.st.stoppers[k].pc
    case StopArrived => e := ArrivedGetsOn(s, k);
    case Signalled => e := SignalledGetsOn(s, k);
    case Closing(_) => e := ClosingGetsOn(s, k);
    case WaitingWorkers => e := WaitingGetsOn(s, k);
    case WorkersDone => e := WorkersDoneGetsOn(s, k);
    case SectionsDone => e := SectionsDoneGetsOn(s, k);
    case LoopStopped => e := CallSteps(s, k, if s.st.stoppers[k].hard then SignalHard else SignalStop);
    case HardSignalled => e := CallSteps(s, k, SignalStop);
    case SubmitsDone => e := CallSteps(s, k, MarkStopping);
    case LifecycleSealed => e := CallSteps(s, k, ReleaseEngine);
  }

  lemma {:induction false} CallSucceeds(s: State, k: StopId) returns (e: State)
    requires StopInv(s) && k in s.st.stoppers && !s.st.stoppers[k].pc.TimedOut?
    ensures Reaches(s, e) && StopInv(e) && k in e.st.stoppers && e.st.stoppers[k].pc.Succeeded?
    decreases Stage(s.st.stoppers[k].pc), Unclosed(s.st.stoppers[k].pc)
  {
    if s.st.stoppers[k].pc.Succeeded? {
      e := s;
      ReachesItself(s);
    } else {
      var m := GetsOn(s, k);
      e := CallSucceeds(m, k);
      ReachesOn(s, m, e);
    }
  }

  /** After every run, a stop call that has not timed out can still succeed, and then the engine has been
      released exactly once. */
  lemma StopCanSucceed(s: State, run: seq<Step>, k: StopId) returns (e: State)
    requires Init(s) && Runs(s, run) && k in After(s, run).st.stoppers && !After(s, run).st.stoppers[k].pc.TimedOut?
    ensures Reaches(After(s, run), e)
    ensures k in e.st.stoppers && e.st.stoppers[k].pc.Succeeded? && e.st.releases == 1
  {
    ReachedStopInv(s, run);
    e := CallSucceeds(After(s, run), k);
    assert CallInv(e, e.st.stoppers[k]);
  }
}
