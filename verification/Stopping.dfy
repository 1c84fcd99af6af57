/** What a stop call waits for, and why it never waits in vain.

    Each phase of a stop waits for goroutines that are still at work: the idle scan, the registered
    submits, the workers, the sections, the counted releases. In every reachable state one of those it
    waits for can move, and a registered submit that is left alone ends within nine steps of its own. */
module Stopping {
  import opened Sets
  import opened Lanes
  import opened Dispatcher
  import opened Wrappers
  import opened LaneMap
  import opened Sections
  import opened Coverage
  import opened Ownership
  import opened Releases
  import opened Safety
  import opened Outcomes
  import opened Progress

  // ----- The submit fence is never left open for nobody -----

  ghost predicate SubmitsInv(s: State) {
    && (s.sig.stopped && !s.sig.fence ==> s.sig.inFlight != {} || s.sig.checking != {})
    && s.sig.checking <= s.book.ops.Keys
    && (forall t :: t in s.sig.inFlight ==> !PcOf(s.book, t).Fresh?)
  }

  predicate SameSubmits(g: Signals, g': Signals) {
    g'.stopped == g.stopped && g'.fence == g.fence && g'.inFlight == g.inFlight && g'.checking == g.checking
  }

  lemma ProducerSubmits(s: State, t: Token, a: ProducerStep)
    requires SubmitsInv(s) && OpsInv(s) && ProducerEnabled(s, t, a)
    ensures SubmitsInv(ProducerApply(s, t, a))
  {
    var s' := ProducerApply(s, t, a);
    if a.EndSubmit? {
      assert s.sig.inFlight - {t} == {} ==> t in s'.sig.checking;
    } else if a.BeginSubmit? {
      assert !s.sig.stopped ==> t in s'.sig.inFlight;
    }
  }

  lemma SendSubmits(s: State, t: Token, a: SendStep)
    requires SubmitsInv(s) && SendEnabled(s, t, a)
    ensures SubmitsInv(SendApply(s, t, a))
  {
  }

  lemma HandoffSubmits(s: State, t: Token, a: HandoffStep)
    requires SubmitsInv(s) && HandoffEnabled(s, t, a)
    ensures SubmitsInv(HandoffApply(s, t, a))
  {
    assert SameSubmits(s.sig, HandoffApply(s, t, a).sig);
  }

  lemma WorkerSubmits(s: State, l: LaneId, a: WorkerStep)
    requires SubmitsInv(s) && WorkerEnabled(s, l, a)
    ensures SubmitsInv(WorkerApply(s, l, a))
  {
  }

  lemma SectionSubmits(s: State, i: SectionId, a: SectionStep)
    requires SubmitsInv(s) && SectionEnabled(s, i, a)
    ensures SubmitsInv(SectionApply(s, i, a))
  {
    SectionBook(s, i, a);
  }

  lemma StopSubmits(s: State, k: StopId, a: StopStep)
    requires SubmitsInv(s) && StopEnabled(s, k, a)
    ensures SubmitsInv(StopApply(s, k, a))
  {
  }

  lemma StepSubmits(s: State, a: Step)
    requires SubmitsInv(s) && OpsInv(s) && Enabled(s, a)
    ensures SubmitsInv(Apply(s, a))
  {
    match a
    case OfProducer(t, o) => ProducerSubmits(s, t, o);
    case OfSend(t, o) => SendSubmits(s, t, o);
    case OfHandoff(t, o) => HandoffSubmits(s, t, o);
    case OfWorker(l, w) => WorkerSubmits(s, l, w);
    case OfLoop(r) => assert SameSubmits(s.sig, LoopApply(s, r).sig) && LoopApply(s, r).book == s.book;
    case OfSection(i, m) => SectionSubmits(s, i, m);
    case OfStop(k, c) => StopSubmits(s, k, c);
  }

  // ----- What the stop calls have done so far -----

  /** A stop call past the mark knows every lane that is not closed. */
  ghost predicate Marked(h: Host, pc: StopPc) {
    && (pc.Closing? ==> pc.todo <= h.lanes.Keys && forall l :: l in h.lanes ==> h.lanes[l].closed || l in pc.todo)
    && (PastMark(pc) && !pc.Closing? ==> forall l :: l in h.lanes ==> h.lanes[l].closed)
  }

  /** The call has passed the place where a hard stop sets the flag. */
  predicate HasSignalledHard(x: Stopper) {
    x.hard && !x.pc.StopArrived? && !x.pc.LoopStopped?
  }

  /** The call has passed the place where stopCh is closed. */
  predicate HasSignalled(x: Stopper) {
    !x.pc.StopArrived? && !x.pc.LoopStopped? && !x.pc.HardSignalled?
  }

  ghost predicate CallInv(s: State, x: Stopper) {
    && s.sig.loopStop
    && Marked(s.host, x.pc)
    && (HasSignalledHard(x) ==> s.sig.hard)
    && (x.pc.Succeeded? ==> s.st.released)
  }

  ghost predicate CallsInv(s: State) {
    && (forall k {:trigger CallInv(s, s.st.stoppers[k])} :: k in s.st.stoppers ==> CallInv(s, s.st.stoppers[k]))
    && (s.sig.hard ==> exists k :: k in s.st.stoppers && HasSignalledHard(s.st.stoppers[k]))
    && (s.sig.stopped ==> exists k :: k in s.st.stoppers && HasSignalled(s.st.stoppers[k]))
    && (s.sig.loopStop ==> s.st.stoppers != map[])
  }

  /** No lane is opened again, and a lane that appears does so before the mark. */
  predicate StaysClosed(h: Host, h': Host) {
    && (h.stopping ==> h'.stopping && h'.lanes.Keys == h.lanes.Keys)
    && (forall l :: l in h.lanes ==> l in h'.lanes && (h.lanes[l].closed ==> h'.lanes[l].closed))
  }

  lemma WorkerStaysClosed(s: State, l: LaneId, a: WorkerStep)
    requires WorkerEnabled(s, l, a)
    ensures StaysClosed(s.host, WorkerApply(s, l, a).host)
  {
    var q := s.host.lanes[l];
    var q' := WorkerApply(s, l, a).host.lanes[l];
    match a
    case Take => assert Lanes.Take(q, s.sig.fence, s.sig.hard).closed == q.closed;
    case PollMiss => assert Lanes.PollMiss(q, s.sig.fence).closed == q.closed;
    case Receive => assert Lanes.Receive(q, s.sig.hard).closed == q.closed;
    case _ => assert q'.closed == q.closed;
  }

  lemma ProducerStaysClosed(s: State, t: Token, a: ProducerStep)
    requires ProducerEnabled(s, t, a)
    ensures StaysClosed(s.host, ProducerApply(s, t, a).host)
  {
  }

  lemma SendStaysClosed(s: State, t: Token, a: SendStep)
    requires SendEnabled(s, t, a)
    ensures StaysClosed(s.host, SendApply(s, t, a).host)
  {
    var l := s.book.ops[t].pc.lane;
    assert SendApply(s, t, a).host.lanes[l].closed == s.host.lanes[l].closed;
  }

  lemma HandoffStaysClosed(s: State, t: Token, a: HandoffStep)
    requires HandoffEnabled(s, t, a)
    ensures StaysClosed(s.host, HandoffApply(s, t, a).host)
  {
    if !a.EnqueueRelease? && !a.EnqueueStopped? {
      assert HandoffApply(s, t, a).host.lanes == s.host.lanes;
    }
  }

  lemma SectionStaysClosed(s: State, i: SectionId, a: SectionStep)
    requires SectionEnabled(s, i, a)
    ensures StaysClosed(s.host, SectionApply(s, i, a).host)
  {
    if !a.EnqueueBarrier? && !a.CountParked? {
      assert SectionApply(s, i, a).host.lanes == s.host.lanes;
    }
  }

  lemma LoopStaysClosed(s: State, a: LoopStep)
    requires LoopEnabled(s, a)
    ensures StaysClosed(s.host, LoopApply(s, a).host)
  {
  }

  lemma StopStaysClosed(s: State, k: StopId, a: StopStep)
    requires StopEnabled(s, k, a)
    ensures StaysClosed(s.host, StopApply(s, k, a).host)
  {
  }

  lemma StepStaysClosed(s: State, a: Step)
    requires Enabled(s, a)
    ensures StaysClosed(s.host, Apply(s, a).host)
  {
    match a
    case OfProducer(t, o) => ProducerStaysClosed(s, t, o);
    case OfSend(t, o) => SendStaysClosed(s, t, o);
    case OfHandoff(t, o) => HandoffStaysClosed(s, t, o);
    case OfWorker(l, w) => WorkerStaysClosed(s, l, w);
    case OfLoop(r) => LoopStaysClosed(s, r);
    case OfSection(i, m) => SectionStaysClosed(s, i, m);
    case OfStop(k, c) => StopStaysClosed(s, k, c);
  }

  /** Nobody but a stop call touches the stop calls and their flags, and only the idle scan ends itself. */
  lemma OthersLeaveCalls(s: State, a: Step)
    requires Enabled(s, a) && !a.OfStop?
    ensures var s' := Apply(s, a);
            && s'.st == s.st && SameFlags(s.sig, s'.sig)
            && (s'.sig.loopDone ==> s.sig.loopDone || s.sig.loopStop)
  {
    match a
    case OfProducer(t, o) => ProducerFlags(s, t, o);
    case OfSend(t, o) => assert SendApply(s, t, o).sig == s.sig;
    case OfHandoff(t, o) => HandoffFlags(s, t, o);
    case OfWorker(l, w) => assert WorkerApply(s, l, w).sig == s.sig;
    case OfLoop(r) => LoopFlags(s, r);
    case OfSection(i, m) => assert SectionApply(s, i, m).sig == s.sig;
  }

  predicate SameFlags(g: Signals, g': Signals) {
    g'.hard == g.hard && g'.loopStop == g.loopStop && g'.stopped == g.stopped
  }

  lemma ProducerFlags(s: State, t: Token, a: ProducerStep)
    requires ProducerEnabled(s, t, a)
    ensures SameFlags(s.sig, ProducerApply(s, t, a).sig)
  {
  }

  lemma HandoffFlags(s: State, t: Token, a: HandoffStep)
    requires HandoffEnabled(s, t, a)
    ensures SameFlags(s.sig, HandoffApply(s, t, a).sig)
  {
  }

  lemma LoopFlags(s: State, a: LoopStep)
    requires LoopEnabled(s, a)
    ensures SameFlags(s.sig, LoopApply(s, a).sig) && (LoopApply(s, a).sig.loopDone ==> s.sig.loopDone || s.sig.loopStop)
  {
  }

  lemma StaysMarked(h: Host, h': Host, pc: StopPc)
    requires Marked(h, pc) && StaysClosed(h, h') && (PastMark(pc) ==> h.stopping)
    ensures Marked(h', pc)
  {
  }

  /** The call that moves. */
  lemma StopOwnCall(s: State, k: StopId, a: StopStep)
    requires BaseInv(s) && CallsInv(s) && StopEnabled(s, k, a)
    ensures CallInv(StopApply(s, k, a), StopApply(s, k, a).st.stoppers[k])
  {
    assert k in s.st.stoppers ==> CallInv(s, s.st.stoppers[k]);
    if a.MarkStopping? {
      forall l | l in s.host.lanes ensures s.host.lanes[l].closed || l in s.host.queues.Values {
        assert LaneFace(s.host, l) && LaneInv(s.host.lanes[l]);
      }
      forall l | l in s.host.queues.Values ensures l in s.host.lanes {
        var key :| key in s.host.queues && s.host.queues[key] == l;
        assert KeyFace(s.host, key);
      }
    }
  }

  lemma StopOtherCall(s: State, k: StopId, a: StopStep, j: StopId)
    requires BaseInv(s) && CallsInv(s) && StopEnabled(s, k, a) && j != k && j in s.st.stoppers
    ensures CallInv(StopApply(s, k, a), s.st.stoppers[j])
  {
    assert CallInv(s, s.st.stoppers[j]) && StopperInv(s, s.st.stoppers[j].pc);
    StopStaysClosed(s, k, a);
    StaysMarked(s.host, StopApply(s, k, a).host, s.st.stoppers[j].pc);
  }

  lemma StopHard(s: State, k: StopId, a: StopStep)
    requires CallsInv(s) && StopEnabled(s, k, a) && StopApply(s, k, a).sig.hard
    ensures var c := StopApply(s, k, a).st;
            exists j :: j in c.stoppers && HasSignalledHard(c.stoppers[j])
  {
    var c := StopApply(s, k, a).st;
    if a.SignalHard? {
      assert HasSignalledHard(c.stoppers[k]);
    } else {
      var j :| j in s.st.stoppers && HasSignalledHard(s.st.stoppers[j]);
      assert j in c.stoppers && HasSignalledHard(c.stoppers[j]);
    }
  }

  lemma StopSignals(s: State, k: StopId, a: StopStep)
    requires CallsInv(s) && StopEnabled(s, k, a) && StopApply(s, k, a).sig.stopped
    ensures var c := StopApply(s, k, a).st;
            exists j :: j in c.stoppers && HasSignalled(c.stoppers[j])
  {
    var c := StopApply(s, k, a).st;
    if a.SignalStop? {
      assert HasSignalled(c.stoppers[k]);
    } else {
      var j :| j in s.st.stoppers && HasSignalled(s.st.stoppers[j]);
      assert j in c.stoppers && HasSignalled(c.stoppers[j]);
    }
  }

  lemma StopLoopFlags(s: State, k: StopId, a: StopStep)
    requires StopEnabled(s, k, a)
    ensures var s' := StopApply(s, k, a);
            && s'.sig.loopDone == s.sig.loopDone && (s.sig.loopStop ==> s'.sig.loopStop) && k in s'.st.stoppers
  {
  }

  lemma {:induction false} ScanEndsForStop(s: State, run: seq<Step>)
    requires Runs(s, run)
    ensures s.sig.loopStop ==> After(s, run).sig.loopStop
    ensures After(s, run).sig.loopDone ==> s.sig.loopDone || After(s, run).sig.loopStop
    decreases |run|
  {
    if run != [] {
      if run[0].OfStop? { StopLoopFlags(s, run[0].stop, run[0].act); } else { OthersLeaveCalls(s, run[0]); }
      ScanEndsForStop(Apply(s, run[0]), run[1..]);
    }
  }

  lemma StepCalls(s: State, a: Step)
    requires BaseInv(s) && CallsInv(s) && Enabled(s, a)
    ensures CallsInv(Apply(s, a))
  {
    var s' := Apply(s, a);
    if a.OfStop? {
      forall j | j in s'.st.stoppers ensures CallInv(s', s'.st.stoppers[j]) {
        if j == a.stop { StopOwnCall(s, a.stop, a.act); } else { StopOtherCall(s, a.stop, a.act, j); }
      }
      if s'.sig.hard { StopHard(s, a.stop, a.act); }
      if s'.sig.stopped { StopSignals(s, a.stop, a.act); }
      StopLoopFlags(s, a.stop, a.act);
    } else {
      OthersLeaveCalls(s, a);
      StepStaysClosed(s, a);
      forall j | j in s'.st.stoppers ensures CallInv(s', s'.st.stoppers[j]) {
        assert CallInv(s, s.st.stoppers[j]) && StopperInv(s, s.st.stoppers[j].pc);
        StaysMarked(s.host, s'.host, s.st.stoppers[j].pc);
      }
    }
  }

  ghost predicate StopInv(s: State) {
    Inv(s) && SubmitsInv(s) && CallsInv(s)
  }

  lemma StepStopInv(s: State, a: Step)
    requires StopInv(s) && Enabled(s, a)
    ensures StopInv(Apply(s, a))
  {
    StepInv(s, a);
    StepSubmits(s, a);
    StepCalls(s, a);
  }

  lemma {:induction false} RunStopInv(s: State, run: seq<Step>)
    requires StopInv(s) && Runs(s, run)
    ensures StopInv(After(s, run))
    decreases |run|
  {
    if run != [] {
      StepStopInv(s, run[0]);
      RunStopInv(Apply(s, run[0]), run[1..]);
    }
  }

  lemma ReachedStopInv(s: State, run: seq<Step>)
    requires Init(s) && Runs(s, run)
    ensures StopInv(After(s, run))
  {
    InitInv(s);
    RunStopInv(s, run);
  }

  // ----- A registered submit finds its way out -----

  /** How far a submit is from ending once the stop is signalled. */
  function Rank(pc: OpPc): nat {
    match pc
    case Found(_) => 8
    case Looking => 7
    case InGate(_) => 7
    case Cleared(_) => 7
    case Admitted(_) => 7
    case Failed => 6
    case SchedLaneBegun(_) => 6
    case SchedLimitBegun => 6
    case Sched => 5
    case SchedLane(_) => 5
    case SchedLimit => 5
    case AfterStop => 4
    case AfterStopLane(_) => 3
    case NoLane => 2
    case OffLane => 1
    case Tracked => 1
    case Untracked => 1
    case _ => 0
  }

  /** The step with which a submit that is stopped goes on. */
  function WayOut(t: Token, pc: OpPc): Step {
    match pc
    case Looking => OfProducer(t, SeeStop)
    case Found(_) => OfSend(t, SendStep.EnterGate)
    case InGate(_) => OfSend(t, GiveUp)
    case Cleared(_) => OfSend(t, GiveUp)
    case Admitted(_) => OfSend(t, SendStep.Abandon)
    case Failed => OfHandoff(t, HandOff)
    case Sched => OfProducer(t, SeeStop)
    case SchedLane(_) => OfHandoff(t, InnerBegin)
    case SchedLimit => OfHandoff(t, InnerBegin)
    case SchedLaneBegun(_) => OfHandoff(t, EnqueueRelease)
    case SchedLimitBegun => OfHandoff(t, CleanupWithoutLane)
    case AfterStop => OfHandoff(t, FindStopped)
    case AfterStopLane(_) => OfHandoff(t, EnqueueStopped)
    case NoLane => OfHandoff(t, BeginLifecycle)
    case OffLane => OfHandoff(t, FinishOffLane)
    case Tracked => OfHandoff(t, FinishLifecycle)
    case Untracked => OfHandoff(t, FinishLifecycle)
    case _ => OfProducer(t, EndSubmit)
  }

  /** t can take its way out. */
  ghost predicate CanLeave(s: State, t: Token) {
    Enabled(s, WayOut(t, PcOf(s.book, t)))
  }

  lemma WayOutIsOpen(s: State, t: Token)
    requires Inv(s) && s.sig.stopped && t in s.sig.inFlight && !PcOf(s.book, t).Fresh?
    ensures CanLeave(s, t)
  {
    var pc := PcOf(s.book, t);
    assert t in s.book.ops && MuFree(s) && ActiveOk(s);
    assert Known(s.host, s.ex, PcOf(s.book, t)) && OpFace(s.host, s.sig, t, s.book.ops[t]);
    if LaneOf(pc).Some? {
      assert Own(s.host.lanes[pc.lane], pc.lane, t, PcOf(s.book, t));
      assert LaneFace(s.host, pc.lane);
    }
  }

  /** t came nearer its end, or its submit ended. */
  predicate Led(s: State, s': State, t: Token)
    requires t in s.book.ops
  {
    && s'.sig.stopped && s.sig.checking <= s'.sig.checking && t in s'.book.ops
    && (if Returned(s.book.ops[t].pc) then s'.sig.inFlight == s.sig.inFlight - {t}
        else s'.sig.inFlight == s.sig.inFlight && Rank(s'.book.ops[t].pc) < Rank(s.book.ops[t].pc))
  }

  lemma ProducerLeads(s: State, t: Token, a: ProducerStep)
    requires s.sig.stopped && ProducerEnabled(s, t, a) && t in s.book.ops && WayOut(t, s.book.ops[t].pc) == OfProducer(t, a)
    requires !s.book.ops[t].pc.Fresh?
    ensures Led(s, ProducerApply(s, t, a), t)
  {
  }

  lemma SendLeads(s: State, t: Token, a: SendStep)
    requires s.sig.stopped && SendEnabled(s, t, a) && WayOut(t, s.book.ops[t].pc) == OfSend(t, a)
    ensures Led(s, SendApply(s, t, a), t)
  {
  }

  lemma HandoffLowers(s: State, t: Token, a: HandoffStep)
    requires s.sig.stopped && HandoffEnabled(s, t, a) && WayOut(t, s.book.ops[t].pc) == OfHandoff(t, a)
    ensures t in HandoffApply(s, t, a).book.ops && Rank(HandoffApply(s, t, a).book.ops[t].pc) < Rank(s.book.ops[t].pc)
  {
  }

  lemma HandoffLeavesSubmits(s: State, t: Token, a: HandoffStep)
    requires HandoffEnabled(s, t, a)
    ensures SameSubmits(s.sig, HandoffApply(s, t, a).sig)
  {
  }

  lemma HandoffLeads(s: State, t: Token, a: HandoffStep)
    requires s.sig.stopped && HandoffEnabled(s, t, a) && WayOut(t, s.book.ops[t].pc) == OfHandoff(t, a)
    ensures Led(s, HandoffApply(s, t, a), t)
  {
    HandoffLowers(s, t, a);
    HandoffLeavesSubmits(s, t, a);
    assert !Returned(s.book.ops[t].pc);
  }

  /** Taking it brings t nearer its end, and ends its submit if it has nothing else left to do. */
  lemma WayOutLeads(s: State, t: Token)
    requires s.sig.stopped && CanLeave(s, t) && t in s.book.ops && !s.book.ops[t].pc.Fresh?
    ensures Led(s, Apply(s, WayOut(t, s.book.ops[t].pc)), t)
  {
    match WayOut(t, s.book.ops[t].pc)
    case OfProducer(_, a) => ProducerLeads(s, t, a);
    case OfSend(_, a) => SendLeads(s, t, a);
    case OfHandoff(_, a) => HandoffLeads(s, t, a);
  }

  // ----- Lanes and sections under a stop -----

  /** The worker goes on, at once or after a look at its empty backlog. */
  ghost predicate WorkerGoesOn(s: State, l: LaneId) {
    Progress.WorkerWorks(s, l)
    || (WorkerEnabled(s, l, WorkerStep.PollMiss) && Progress.WorkerWorks(WorkerApply(s, l, WorkerStep.PollMiss), l))
  }

  ghost predicate SectionCanMove(s: State, i: SectionId) {
    exists a: SectionStep :: SectionEnabled(s, i, a)
  }

  /** A section holds the worker at its barrier, and has a step. */
  ghost predicate HeldByMoving(s: State, l: LaneId) {
    && l in s.host.lanes && AtBarrier(s.host.lanes[l])
    && s.host.lanes[l].worker.section in s.ex.sections && SectionCanMove(s, s.host.lanes[l].worker.section)
  }

  /** Every open lane is in the map. */
  lemma StoppedCanInstall(s: State)
    requires BaseInv(s)
    ensures OpenLanes(s) <= s.host.queues.Values
  {
    forall l | l in OpenLanes(s) ensures l in s.host.queues.Values {
      assert LaneFace(s.host, l) && LaneInv(s.host.lanes[l]);
    }
  }

  lemma StoppedSectionMoves(s: State, i: SectionId)
    requires Inv(s) && s.sig.stopped && i in s.ex.sections && Counted(s.ex.sections[i].pc)
    ensures SectionCanMove(s, i)
  {
    assert MuFree(s);
    match s.ex.sections[i].pc
    case Registered =>
      StoppedCanInstall(s);
      assert SectionEnabled(s, i, Install(OpenLanes(s)));
    case WaitOffLane => assert SectionEnabled(s, i, EndEarly);
    case Barring => BarringMoves(s, i);
    case BarringAdd => assert SectionEnabled(s, i, AddExpected);
    case Counting => assert SectionEnabled(s, i, EndEarly);
    case Checking => assert SectionEnabled(s, i, EndEarly);
    case RunningFn => assert SectionEnabled(s, i, FnReturn);
    case Draining => DrainingMoves(s, i);
    case Withdrawn => assert SectionEnabled(s, i, FreeLanes);
    case LanesFreed => assert SectionEnabled(s, i, LeaveSections);
  }

  /** On a closed lane no submit is under way. */
  lemma ClosedLaneIsQuiet(q: Lane)
    requires LaneInv(q) && q.closed
    ensures q.gate == {} && q.inflight == map[]
  {
    assert q.inflight.Keys == {};
  }

  lemma ClosedLaneMoves(s: State, l: LaneId)
    requires Inv(s) && s.sig.stopped && s.sig.fence && l in s.host.lanes
    requires s.host.lanes[l].closed && !s.host.lanes[l].worker.Exited?
    ensures WorkerGoesOn(s, l) || HeldByMoving(s, l)
  {
    var q := s.host.lanes[l];
    assert LaneInv(q);
    if AtBarrier(q) {
      HolderCanMove(s, l);
    } else if q.worker.Polling? {
      ClosedPollMoves(s, l);
    } else if q.worker.Selecting? {
      assert WorkerEnabled(s, l, if q.ch != [] then WorkerStep.Receive else if q.retired then WorkerStep.SeeQuit else WorkerStep.SeeClosed);
    } else if q.worker.Task? {
      assert Own(q, l, q.worker.token, PcOf(s.book, q.worker.token)) && q.worker.token in AcceptedWork(q);
      assert WorkerEnabled(s, l, WorkerStep.FinishTask);
    } else if q.worker.Mandatory? {
      assert Own(q, l, q.worker.token, PcOf(s.book, q.worker.token));
      assert WorkerEnabled(s, l, WorkerStep.FinishMandatory);
    } else {
      assert WorkerEnabled(s, l, if q.worker.NotStarted? then StartWorker else if q.worker.Settling? then WorkerStep.Settle else WorkerStep.DrainEnd);
    }
  }

  lemma ClosedPollMoves(s: State, l: LaneId)
    requires Inv(s) && s.sig.stopped && s.sig.fence && l in s.host.lanes
    requires s.host.lanes[l].closed && s.host.lanes[l].worker.Polling?
    ensures WorkerGoesOn(s, l)
  {
    var q := s.host.lanes[l];
    assert LaneInv(q);
    ClosedLaneIsQuiet(q);
    if Ready(q, s.sig.fence) {
      if q.backlog[0].work.Barrier? {
        var i := q.backlog[0].work.section;
        assert KnownLane(q, s.ex) && HasBarrier(q, i);
      }
      assert WorkerEnabled(s, l, WorkerStep.Take);
    } else if q.sawEnd {
      if q.backlog != [] { SettledHeadIsReady(q, s.sig.fence); }
      assert WorkerEnabled(s, l, WorkerStep.FinishWorker);
    } else {
      var s' := WorkerApply(s, l, WorkerStep.PollMiss);
      var w := if q.ch != [] then WorkerStep.Receive else if q.retired then WorkerStep.SeeQuit else WorkerStep.SeeClosed;
      assert WorkerEnabled(s', l, w);
    }
  }

  lemma HolderCanMove(s: State, l: LaneId)
    requires Inv(s) && s.sig.stopped && l in s.host.lanes && AtBarrier(s.host.lanes[l])
    ensures WorkerGoesOn(s, l) || HeldByMoving(s, l)
  {
    var i := s.host.lanes[l].worker.section;
    assert KnownLane(s.host.lanes[l], s.ex) && HasBarrier(s.host.lanes[l], i);
    if i in s.ex.freed {
      assert WorkerEnabled(s, l, WorkerStep.PassBarrier);
    } else {
      StoppedSectionMoves(s, i);
    }
  }

  // ----- The stop call -----

  /** The call has a step of its own that is not giving up. */
  ghost predicate StopGoesOn(s: State, k: StopId) {
    exists a: StopStep :: a != TimeOut && StopEnabled(s, k, a)
  }

  /** Whom the call waits for, and that they can move. */
  ghost predicate StopAwaits(s: State, pc: StopPc) {
    match pc
    case StopArrived => LoopEnabled(s, RetireRefuse) || LoopEnabled(s, LoopExit)
    case Signalled => exists t :: ProducerEnabled(s, t, CheckFence) || (t in s.sig.inFlight && CanLeave(s, t))
    case Closing(todo) => exists l, t :: l in todo && l in s.host.lanes && t in s.host.lanes[l].gate && CanLeave(s, t)
    case WaitingWorkers =>
      exists l :: l in s.host.lanes && !s.host.lanes[l].worker.Exited? && (WorkerGoesOn(s, l) || HeldByMoving(s, l))
    case WorkersDone => exists i :: i in s.ex.sections && Counted(s.ex.sections[i].pc) && SectionCanMove(s, i)
    case SectionsDone => exists t :: t in s.sig.tracked && HandoffEnabled(s, t, FinishLifecycle)
    case _ => false
  }

  lemma ArrivedMoves(s: State, k: StopId)
    requires StopInv(s) && k in s.st.stoppers && s.st.stoppers[k].pc.StopArrived?
    ensures StopGoesOn(s, k) || StopAwaits(s, StopArrived)
  {
    assert CallInv(s, s.st.stoppers[k]);
    if s.sig.loopDone {
      assert StopEnabled(s, k, StopLoop);
    } else if s.host.retiring.Some? {
      assert LaneFace(s.host, s.host.retiring.value);
    }
  }

  lemma SignalledMoves(s: State, k: StopId)
    requires StopInv(s) && k in s.st.stoppers && s.st.stoppers[k].pc.Signalled?
    ensures StopGoesOn(s, k) || StopAwaits(s, Signalled)
  {
    assert StopperInv(s, s.st.stoppers[k].pc);
    if s.sig.fence {
      assert StopEnabled(s, k, SubmitsSettled);
    } else {
      var t := SomeMember(s.sig.inFlight);
      var u := SomeMember(s.sig.checking);
      if s.sig.inFlight != {} {
        WayOutIsOpen(s, t);
      } else {
        assert ProducerEnabled(s, u, CheckFence);
      }
    }
  }

  lemma ClosingMoves(s: State, k: StopId)
    requires StopInv(s) && k in s.st.stoppers && s.st.stoppers[k].pc.Closing?
    ensures StopGoesOn(s, k) || StopAwaits(s, s.st.stoppers[k].pc)
  {
    var todo := s.st.stoppers[k].pc.todo;
    assert StopperInv(s, s.st.stoppers[k].pc) && CallInv(s, s.st.stoppers[k]);
    var l := SomeMember(todo);
    if todo == {} {
      assert StopEnabled(s, k, ClosingDone);
    } else {
      var t := SomeMember(s.host.lanes[l].gate);
      assert LaneFace(s.host, l);
      if s.host.lanes[l].gate == {} {
        assert StopEnabled(s, k, CloseLane(l));
      } else {
        assert Own(s.host.lanes[l], l, t, PcOf(s.book, t));
        assert OpFace(s.host, s.sig, t, s.book.ops[t]);
        WayOutIsOpen(s, t);
      }
    }
  }

  lemma WaitingMoves(s: State, k: StopId)
    requires StopInv(s) && k in s.st.stoppers && s.st.stoppers[k].pc.WaitingWorkers?
    ensures StopGoesOn(s, k) || StopAwaits(s, WaitingWorkers)
  {
    assert StopperInv(s, s.st.stoppers[k].pc) && CallInv(s, s.st.stoppers[k]);
    var left := set l | l in s.host.lanes && !s.host.lanes[l].worker.Exited?;
    var l := SomeMember(left);
    if left == {} {
      forall m | m in s.host.lanes ensures s.host.lanes[m].worker.Exited? {
        assert m !in left;
      }
      assert StopEnabled(s, k, WorkersJoined);
    } else {
      ClosedLaneMoves(s, l);
    }
  }

  lemma WorkersDoneMoves(s: State, k: StopId)
    requires StopInv(s) && k in s.st.stoppers && s.st.stoppers[k].pc.WorkersDone?
    ensures StopGoesOn(s, k) || StopAwaits(s, WorkersDone)
  {
    assert StopperInv(s, s.st.stoppers[k].pc);
    var left := set i | i in s.ex.sections && Counted(s.ex.sections[i].pc);
    var i := SomeMember(left);
    if left == {} {
      forall j | j in s.ex.sections ensures !Counted(s.ex.sections[j].pc) {
        assert j !in left;
      }
      assert StopEnabled(s, k, SectionsJoined);
    } else {
      StoppedSectionMoves(s, i);
    }
  }

  lemma SectionsDoneMoves(s: State, k: StopId)
    requires StopInv(s) && k in s.st.stoppers && s.st.stoppers[k].pc.SectionsDone?
    ensures StopGoesOn(s, k) || StopAwaits(s, SectionsDone)
  {
    var t := SomeMember(s.sig.tracked);
    if s.sig.tracked == {} {
      assert StopEnabled(s, k, SealLifecycle);
    } else {
      assert t in s.book.ops && OpFace(s.host, s.sig, t, s.book.ops[t]);
      assert ActiveOk(s);
      assert HandoffEnabled(s, t, FinishLifecycle);
    }
  }

  lemma StopMoves(s: State, k: StopId)
    requires StopInv(s) && k in s.st.stoppers && !s.st.stoppers[k].pc.Succeeded? && !s.st.stoppers[k].pc.TimedOut?
    ensures StopGoesOn(s, k) || StopAwaits(s, s.st.stoppers[k].pc)
  {
    assert StopperInv(s, s.st.stoppers[k].pc);
    match s.st.stoppers[k].pc
    case StopArrived => ArrivedMoves(s, k);
    case LoopStopped => assert StopEnabled(s, k, if s.st.stoppers[k].hard then SignalHard else SignalStop);
    case HardSignalled => assert StopEnabled(s, k, SignalStop);
    case Signalled => SignalledMoves(s, k);
    case SubmitsDone => assert StopEnabled(s, k, MarkStopping);
    case Closing(_) => ClosingMoves(s, k);
    case WaitingWorkers => WaitingMoves(s, k);
    case WorkersDone => WorkersDoneMoves(s, k);
    case SectionsDone => SectionsDoneMoves(s, k);
    case LifecycleSealed => assert StopEnabled(s, k, ReleaseEngine);
  }

  /** In every run, a stop call that has not ended can go on without timing out, or it waits for the idle
      scan, a registered submit, a worker, a section or a counted release, and that one can move. */
  lemma StopIsNotStranded(s: State, run: seq<Step>, k: StopId)
    requires Init(s) && Runs(s, run) && k in After(s, run).st.stoppers
    requires var pc := After(s, run).st.stoppers[k].pc; !pc.Succeeded? && !pc.TimedOut?
    ensures StopGoesOn(After(s, run), k) || StopAwaits(After(s, run), After(s, run).st.stoppers[k].pc)
  {
    ReachedStopInv(s, run);
    StopMoves(After(s, run), k);
  }

  /** In every run: a stop call that has succeeded has released the engine; the stop is signalled exactly when
      some call got past signalling it, and the hard-stop flag set exactly when one of a hard stop got past
      setting it; and the idle scan has ended only if some stop call has come. */
  lemma StopDidWhatItSays(s: State, run: seq<Step>)
    requires Init(s) && Runs(s, run)
    ensures var e := After(s, run);
            && (forall k :: k in e.st.stoppers && e.st.stoppers[k].pc.Succeeded? ==> e.st.releases == 1)
            && (e.sig.stopped <==> exists k :: k in e.st.stoppers && HasSignalled(e.st.stoppers[k]))
            && (e.sig.hard <==> exists k :: k in e.st.stoppers && HasSignalledHard(e.st.stoppers[k]))
            && (e.sig.loopDone && !s.sig.loopDone ==> e.st.stoppers != map[])
  {
    ReachedStopInv(s, run);
    ScanEndsForStop(s, run);
    var e := After(s, run);
    forall k | k in e.st.stoppers ensures e.st.stoppers[k].pc.Succeeded? ==> e.st.releases == 1
      ensures HasSignalledHard(e.st.stoppers[k]) ==> e.sig.hard
      ensures HasSignalled(e.st.stoppers[k]) ==> e.sig.stopped
    {
      assert CallInv(e, e.st.stoppers[k]) && StopperInv(e, e.st.stoppers[k].pc);
    }
  }

}
