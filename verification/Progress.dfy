/** Who has to move next for an Exclusive call to go on, and why its end is never far once it drains. */
module Progress {
  import opened Sets
  import opened Lanes
  import opened Dispatcher
  import opened Wrappers
  import opened LaneMap
  import opened Sections
  import opened Coverage
  import opened Ownership
  import opened Releases
  import opened Safety

  // ----- A section waits for an epoch only while a release of it runs -----

  predicate Ticking(s: State, i: SectionId) {
    i in s.ex.sections && s.ex.sections[i].waitEpoch.Some? ==>
      && s.sig.epoch >= s.ex.sections[i].waitEpoch.value
      && (s.sig.epoch == s.ex.sections[i].waitEpoch.value ==> s.sig.tracked != {})
  }

  predicate SameClock(s: State, s': State, i: SectionId) {
    && (i in s'.ex.sections ==> i in s.ex.sections && s'.ex.sections[i].waitEpoch == s.ex.sections[i].waitEpoch)
    && s'.sig.epoch == s.sig.epoch && s'.sig.tracked == s.sig.tracked
  }

  lemma HandoffClock(s: State, t: Token, a: HandoffStep, i: SectionId)
    requires HandoffEnabled(s, t, a) && Ticking(s, i)
    ensures Ticking(HandoffApply(s, t, a), i)
  {
    var s' := HandoffApply(s, t, a);
    assert i in s'.ex.sections ==> i in s.ex.sections && s'.ex.sections[i].waitEpoch == s.ex.sections[i].waitEpoch;
    if a.BeginLifecycle? {
      assert s'.sig.tracked == s.sig.tracked || t in s'.sig.tracked;
    }
  }

  lemma SectionClock(s: State, j: SectionId, a: SectionStep, i: SectionId)
    requires SectionEnabled(s, j, a) && Ticking(s, i)
    ensures Ticking(SectionApply(s, j, a), i)
  {
    if j == i {
      assert !a.Install? && i in s.ex.sections ==>
        SectionApply(s, i, a).ex.sections[i].waitEpoch in {s.ex.sections[i].waitEpoch, None};
    } else {
      OtherSection(s, j, a, i);
    }
  }

  lemma ProducerClock(s: State, t: Token, a: ProducerStep, i: SectionId)
    requires ProducerEnabled(s, t, a)
    ensures SameClock(s, ProducerApply(s, t, a), i)
  {
  }

  lemma WorkerClock(s: State, l: LaneId, a: WorkerStep, i: SectionId)
    requires WorkerEnabled(s, l, a)
    ensures SameClock(s, WorkerApply(s, l, a), i)
  {
  }

  lemma StopClock(s: State, k: StopId, a: StopStep, i: SectionId)
    requires StopEnabled(s, k, a)
    ensures SameClock(s, StopApply(s, k, a), i)
  {
  }

  lemma StepClock(s: State, a: Step, i: SectionId)
    requires Enabled(s, a) && Ticking(s, i)
    ensures Ticking(Apply(s, a), i)
  {
    match a
    case OfProducer(t, o) => ProducerClock(s, t, o, i);
    case OfSend(t, o) => assert SameClock(s, SendApply(s, t, o), i);
    case OfHandoff(t, o) => HandoffClock(s, t, o, i);
    case OfWorker(l, w) => WorkerClock(s, l, w, i);
    case OfLoop(r) => assert SameClock(s, LoopApply(s, r), i);
    case OfSection(j, m) => SectionClock(s, j, m, i);
    case OfStop(k, c) => StopClock(s, k, c, i);
  }

  lemma {:induction false} RunClock(s: State, run: seq<Step>, i: SectionId)
    requires Inv(s) && Ticking(s, i) && Runs(s, run)
    ensures Inv(After(s, run)) && Ticking(After(s, run), i)
    decreases |run|
  {
    if run != [] {
      StepInv(s, run[0]);
      StepClock(s, run[0], i);
      RunClock(Apply(s, run[0]), run[1..], i);
    }
  }

  // ----- What an installed section can do, or waits for -----

  /** The section has a step of its own that is not the early end. */
  ghost predicate GoesOn(s: State, i: SectionId) {
    exists a: SectionStep :: a != EndEarly && SectionEnabled(s, i, a)
  }

  /** The section still waits for this release behind a key barrier, and the release can finish. */
  predicate AwaitsOffLane(s: State, i: SectionId, t: Token)
    requires i in s.ex.sections
  {
    t in s.ex.sections[i].waits && HandoffEnabled(s, t, FinishOffLane)
  }

  /** The section waits for the current epoch of counted releases, and this one of them can finish. */
  predicate AwaitsTracked(s: State, i: SectionId, t: Token)
    requires i in s.ex.sections
  {
    && s.ex.sections[i].waits == {} && s.ex.sections[i].waitEpoch == Some(s.sig.epoch)
    && t in s.sig.tracked && HandoffEnabled(s, t, FinishLifecycle)
  }

  /** The worker has a step that is more than waking up or finding nothing. */
  ghost predicate WorkerWorks(s: State, l: LaneId) {
    exists w: WorkerStep :: w != WorkerStep.Wake && w != WorkerStep.PollMiss && WorkerEnabled(s, l, w)
  }

  /** An admission that is still open on the lane can be given up, which settles it. */
  predicate AdmissionOpen(s: State, l: LaneId, t: Token) {
    t in s.book.ops && s.book.ops[t].pc == Admitted(l) && SendEnabled(s, t, Abandon)
  }

  /** What brings a lane closer to a barrier in its backlog: its worker works, there is something in
      its channel or ready at its head, an admission is open, or the head waits for the submit fence. */
  ghost predicate ComesCloser(s: State, l: LaneId)
    requires l in s.host.lanes
  {
    var q := s.host.lanes[l];
    || WorkerWorks(s, l)
    || q.ch != []
    || Ready(q, s.sig.fence)
    || (exists t :: AdmissionOpen(s, l, t))
    || (q.backlog != [] && q.backlog[0].fenced && !s.sig.fence)
  }

  /** A lane that has the barrier of section i, has not come to it, and is coming closer. */
  ghost predicate OnItsWay(s: State, l: LaneId, i: SectionId) {
    l in s.host.lanes && QueuedBarrier(s.host.lanes[l].backlog, i) && ComesCloser(s, l)
  }

  /** A hard stop made this lane's barrier abort. */
  predicate GaveUp(s: State, l: LaneId, i: SectionId) {
    l in s.host.lanes && s.host.lanes[l].worker == Refused(i)
  }

  /** What the section waits for, if it cannot go on by itself. */
  ghost predicate Awaits(s: State, i: SectionId)
    requires i in s.ex.sections
  {
    match s.ex.sections[i].pc
    case WaitOffLane => exists t :: AwaitsOffLane(s, i, t) || AwaitsTracked(s, i, t)
    case Counting => exists l :: OnItsWay(s, l, i) || GaveUp(s, l, i)
    case Checking => s.sig.stopped
    case _ => false
  }

  lemma WaitOffLaneMoves(s: State, i: SectionId)
    requires Inv(s) && Ticking(s, i) && i in s.ex.sections && s.ex.sections[i].pc.WaitOffLane?
    ensures GoesOn(s, i) || Awaits(s, i)
  {
    var x := s.ex.sections[i];
    assert SectionFace(s.ex, i);
    assert MuFree(s) && ActiveOk(s);
    var t := SomeMember(x.waits);
    if x.waits != {} {
      if t in s.host.barriers.Values {
        var k :| k in s.host.barriers && s.host.barriers[k] == t;
        assert BarrierFace(s.host, s.book, k);
        assert AwaitsOffLane(s, i, t);
      } else {
        assert SectionEnabled(s, i, WaitOne(t));
      }
    } else if x.waitEpoch.Some? {
      EpochMoves(s, i);
    } else {
      assert SectionEnabled(s, i, StartBarring);
    }
  }

  lemma EpochMoves(s: State, i: SectionId)
    requires Inv(s) && Ticking(s, i) && i in s.ex.sections && s.ex.sections[i].pc.WaitOffLane?
    requires s.ex.sections[i].waits == {} && s.ex.sections[i].waitEpoch.Some?
    ensures GoesOn(s, i) || Awaits(s, i)
  {
    assert ActiveOk(s);
    if s.sig.epoch > s.ex.sections[i].waitEpoch.value {
      assert SectionEnabled(s, i, WaitEpoch);
    } else {
      var t := SomeMember(s.sig.tracked);
      assert t in s.book.ops && OpFace(s.host, s.sig, t, s.book.ops[t]);
      assert AwaitsTracked(s, i, t);
    }
  }

  /** Short of expected, some lane that has the barrier is not parked at it. */
  lemma SomebodyMissing(h: Host, x: Section, stopped: bool, i: SectionId) returns (l: LaneId)
    requires Cover(h, x, stopped, i) && !x.pc.BarringAdd? && x.parked < x.expected
    ensures l in h.lanes && HasBarrier(h.lanes[l], i) && h.lanes[l].worker != Parked(i)
  {
    ParkedHaveBarriers(h, i);
    var missing := BarrierLanes(h, i) - ParkedLanes(h, i);
    assert |missing| + |ParkedLanes(h, i)| == |BarrierLanes(h, i)| by {
      assert missing + ParkedLanes(h, i) == BarrierLanes(h, i);
    }
    l := SomeMember(missing);
  }

  /** If an idle worker has an empty channel and a head that is not ready although no fence holds it,
      some admission on the lane is open. */
  lemma SomeAdmissionOpen(s: State, l: LaneId) returns (t: Token)
    requires LanesInv(s.host) && OwnInv(s) && l in s.host.lanes
    requires var q := s.host.lanes[l];
      (q.worker.Polling? || q.worker.Selecting?) && q.ch == [] && q.backlog != [] && !Ready(q, s.sig.fence)
      && (q.backlog[0].fenced ==> s.sig.fence)
    ensures AdmissionOpen(s, l, t)
  {
    var q := s.host.lanes[l];
    assert LaneInv(q);
    t := SomeMember(q.inflight.Keys);
    if q.inflight.Keys == {} {
      SettledHeadIsReady(q, s.sig.fence);
    }
    assert Own(q, l, t, PcOf(s.book, t));
  }

  /** A lane that still owes the section its barrier comes closer to it. */
  lemma LaneComesCloser(s: State, l: LaneId, i: SectionId)
    requires Inv(s) && s.ex.active == Some(i) && l in s.host.lanes && QueuedBarrier(s.host.lanes[l].backlog, i)
    requires !(AtBarrier(s.host.lanes[l]) && s.host.lanes[l].worker.section == i)
    ensures ComesCloser(s, l)
  {
    var q := s.host.lanes[l];
    assert LaneInv(q);
    if q.worker.Polling? || q.worker.Selecting? {
      if q.ch == [] && !Ready(q, s.sig.fence) && (q.backlog[0].fenced ==> s.sig.fence) {
        var t := SomeAdmissionOpen(s, l);
      }
    } else {
      BusyWorkerWorks(s, l, i);
    }
  }

  lemma BusyWorkerWorks(s: State, l: LaneId, i: SectionId)
    requires Inv(s) && s.ex.active == Some(i) && l in s.host.lanes && s.host.lanes[l].backlog != []
    requires !s.host.lanes[l].worker.Polling? && !s.host.lanes[l].worker.Selecting?
    requires !(AtBarrier(s.host.lanes[l]) && s.host.lanes[l].worker.section == i)
    ensures WorkerWorks(s, l)
  {
    var q := s.host.lanes[l];
    assert LaneInv(q);
    if AtBarrier(q) {
      BarriersComeSingly(s, l, i);
      assert WorkerEnabled(s, l, PassBarrier);
    } else if q.worker.Task? {
      assert Own(q, l, q.worker.token, PcOf(s.book, q.worker.token)) && q.worker.token in AcceptedWork(q);
      assert WorkerEnabled(s, l, FinishTask);
    } else if q.worker.Mandatory? {
      assert Own(q, l, q.worker.token, PcOf(s.book, q.worker.token));
      assert WorkerEnabled(s, l, FinishMandatory);
    } else {
      assert WorkerEnabled(s, l, if q.worker.NotStarted? then StartWorker else if q.worker.Settling? then Settle else DrainEnd);
    }
  }

  /** A worker at a barrier that still has the active section's in its backlog is at a former section's. */
  lemma BarriersComeSingly(s: State, l: LaneId, i: SectionId)
    requires Inv(s) && s.ex.active == Some(i) && l in s.host.lanes && AtBarrier(s.host.lanes[l])
    requires s.host.lanes[l].worker.section != i
    ensures s.host.lanes[l].worker.section in s.ex.freed
  {
    var j := s.host.lanes[l].worker.section;
    assert KnownLane(s.host.lanes[l], s.ex) && HasBarrier(s.host.lanes[l], j);
    assert SectionFace(s.ex, i) && SectionFace(s.ex, j);
  }

  lemma CountingMoves(s: State, i: SectionId)
    requires Inv(s) && i in s.ex.sections && s.ex.sections[i].pc.Counting?
    ensures GoesOn(s, i) || Awaits(s, i)
  {
    var x := s.ex.sections[i];
    assert SectionFace(s.ex, i);
    if x.parked >= x.expected {
      assert SectionEnabled(s, i, CountDone);
    } else {
      var l := SomebodyMissing(s.host, x, s.sig.stopped, i);
      var q := s.host.lanes[l];
      if q.worker == Offering(i) {
        assert SectionEnabled(s, i, CountParked(l));
      } else if q.worker == Refused(i) {
        assert GaveUp(s, l, i);
      } else {
        LaneComesCloser(s, l, i);
        assert OnItsWay(s, l, i);
      }
    }
  }

  lemma BarringMoves(s: State, i: SectionId)
    requires Inv(s) && i in s.ex.sections && s.ex.sections[i].pc.Barring?
    ensures GoesOn(s, i)
  {
    var x := s.ex.sections[i];
    assert SectionFace(s.ex, i);
    assert Cover(s.host, x, s.sig.stopped, i);
    var l := SomeMember(x.todo);
    if x.todo != {} {
      assert SectionEnabled(s, i, EnqueueBarrier(l));
    } else {
      assert SectionEnabled(s, i, StartCounting);
    }
  }

  lemma DrainingMoves(s: State, i: SectionId)
    requires Inv(s) && i in s.ex.sections && s.ex.sections[i].pc.Draining?
    ensures GoesOn(s, i)
  {
    var x := s.ex.sections[i];
    assert SectionFace(s.ex, i);
    assert MuFree(s);
    if x.batch != [] {
      assert SectionOwns(x, i, x.batch[0], PcOf(s.book, x.batch[0]));
      assert x.batch[0] in x.batch + x.deferred;
      assert SectionEnabled(s, i, RunRelease(false));
    } else {
      assert SectionEnabled(s, i, Withdraw);
    }
  }

  /** A section that holds lanes can go on without its context or a stop ending it, or it waits for
      a release of its own that can finish, for a lane that is coming closer, or for what a stop has
      begun. */
  lemma SectionMoves(s: State, i: SectionId)
    requires Inv(s) && Ticking(s, i) && i in s.ex.sections && Barred(s.ex, i) && i !in s.ex.freed
    ensures GoesOn(s, i) || Awaits(s, i)
  {
    assert SectionFace(s.ex, i);
    match s.ex.sections[i].pc
    case WaitOffLane => WaitOffLaneMoves(s, i);
    case Barring => BarringMoves(s, i);
    case BarringAdd => assert SectionEnabled(s, i, AddExpected);
    case Counting => CountingMoves(s, i);
    case Checking => assert !s.sig.stopped ==> SectionEnabled(s, i, StartFn);
    case RunningFn => assert SectionEnabled(s, i, FnReturn);
    case Draining => DrainingMoves(s, i);
    case Withdrawn => assert SectionEnabled(s, i, FreeLanes);
    case _ =>
  }

  /** In every run, a worker at a barrier can go on, or the section that holds it can, or what that
      section waits for can. Nobody is stranded, even if no context ever ends; waking a worker up and
      finding nothing count for nothing. */
  lemma NobodyStranded(s: State, run: seq<Step>, l: LaneId)
    requires Init(s) && Runs(s, run) && l in After(s, run).host.lanes && AtBarrier(After(s, run).host.lanes[l])
    ensures var e := After(s, run);
            var i := e.host.lanes[l].worker.section;
            WorkerEnabled(e, l, PassBarrier) || (i in e.ex.sections && (GoesOn(e, i) || Awaits(e, i)))
  {
    InitInv(s);
    var i := After(s, run).host.lanes[l].worker.section;
    RunClock(s, run, i);
    HolderMoves(After(s, run), l, i);
  }

  lemma HolderMoves(s: State, l: LaneId, i: SectionId)
    requires Inv(s) && Ticking(s, i) && l in s.host.lanes && AtBarrier(s.host.lanes[l]) && i == s.host.lanes[l].worker.section
    ensures WorkerEnabled(s, l, PassBarrier) || (i in s.ex.sections && (GoesOn(s, i) || Awaits(s, i)))
  {
    assert KnownLane(s.host.lanes[l], s.ex) && HasBarrier(s.host.lanes[l], i);
    if i !in s.ex.freed {
      SectionMoves(s, i);
    }
  }

  // ----- The way out -----

  /** The section's function will not run any more. */
  predicate Leaving(pc: SectionPc) {
    pc.Draining? || pc.Withdrawn? || pc.LanesFreed? || pc.Left? || pc.Ended?
  }

  /** How much a leaving section still has to do. */
  function Due(x: Section): nat
    requires Leaving(x.pc)
  {
    match x.pc
    case Draining => 4 + 2 * |x.batch| + 3 * |x.deferred|
    case Withdrawn => 3
    case LanesFreed => 2
    case Left => 1
    case Ended => 0
  }

  /** An early end and the function's return both lead to the way out, on which every step of the
      section, panicking or not, leaves it less to do. */
  lemma LeavingSinks(s: State, i: SectionId, a: SectionStep)
    requires i in s.ex.sections && SectionEnabled(s, i, a)
    ensures a.EndEarly? || a.FnReturn? || a.FnPanic? ==> Leaving(SectionApply(s, i, a).ex.sections[i].pc)
    ensures Leaving(s.ex.sections[i].pc) ==>
              && Leaving(SectionApply(s, i, a).ex.sections[i].pc)
              && Due(SectionApply(s, i, a).ex.sections[i]) < Due(s.ex.sections[i])
  {
    if Leaving(s.ex.sections[i].pc) { LeavingStep(s, i, a); }
  }

  lemma LeavingStep(s: State, i: SectionId, a: SectionStep)
    requires i in s.ex.sections && SectionEnabled(s, i, a) && Leaving(s.ex.sections[i].pc)
    ensures i in SectionApply(s, i, a).ex.sections && Leaving(SectionApply(s, i, a).ex.sections[i].pc)
    ensures Due(SectionApply(s, i, a).ex.sections[i]) < Due(s.ex.sections[i])
  {
    assert a.RunRelease? || a.Withdraw? || a.FreeLanes? || a.LeaveSections? || a.FreeTurn?;
  }

  /** Only a release that is postponed into the section gives it more to do, and only while it drains. */
  lemma OthersOnlyPostpone(s: State, a: Step, i: SectionId)
    requires ExclusionInv(s.ex) && Enabled(s, a) && i in s.ex.sections && Leaving(s.ex.sections[i].pc)
    requires !(a.OfSection? && a.section == i)
    ensures i in Apply(s, a).ex.sections
    ensures var x, x' := s.ex.sections[i], Apply(s, a).ex.sections[i];
            && x'.pc == x.pc
            && (Due(x') == Due(x) || (x.pc.Draining? && a.OfHandoff? && Due(x') == Due(x) + 3))
  {
    assert SectionFace(s.ex, i);
    match a
    case OfSection(j, m) => OtherSection(s, j, m, i);
    case OfProducer(t, o) => ProducerLeaves(s, t, o, i);
    case OfSend(t, o) => assert SendApply(s, t, o).ex == s.ex;
    case OfHandoff(t, o) => HandoffPostpones(s, t, o, i);
    case OfWorker(l, w) => WorkerLeaves(s, l, w, i);
    case OfLoop(r) => assert LoopApply(s, r).ex == s.ex;
    case OfStop(k, c) => assert StopApply(s, k, c).ex == s.ex;
  }

  predicate SameWork(x: Section, x': Section) {
    x'.pc == x.pc && x'.batch == x.batch && x'.deferred == x.deferred
  }

  lemma ProducerLeaves(s: State, t: Token, a: ProducerStep, i: SectionId)
    requires ProducerEnabled(s, t, a) && i in s.ex.sections
    ensures i in ProducerApply(s, t, a).ex.sections && SameWork(s.ex.sections[i], ProducerApply(s, t, a).ex.sections[i])
  {
  }

  lemma WorkerLeaves(s: State, l: LaneId, a: WorkerStep, i: SectionId)
    requires WorkerEnabled(s, l, a) && i in s.ex.sections
    ensures i in WorkerApply(s, l, a).ex.sections && SameWork(s.ex.sections[i], WorkerApply(s, l, a).ex.sections[i])
  {
  }

  lemma OtherSection(s: State, j: SectionId, a: SectionStep, i: SectionId)
    requires SectionEnabled(s, j, a) && i != j
    ensures i in SectionApply(s, j, a).ex.sections <==> i in s.ex.sections
    ensures i in s.ex.sections ==> SectionApply(s, j, a).ex.sections[i] == s.ex.sections[i]
  {
  }

  lemma HandoffPostpones(s: State, t: Token, a: HandoffStep, i: SectionId)
    requires ExclusionInv(s.ex) && HandoffEnabled(s, t, a) && i in s.ex.sections
    ensures i in HandoffApply(s, t, a).ex.sections
    ensures var x, x' := s.ex.sections[i], HandoffApply(s, t, a).ex.sections[i];
            x' == x || (Installed(x.pc) && x' == x.(deferred := x.deferred + [t]))
  {
    assert s.ex.active.Some? ==> SectionFace(s.ex, s.ex.active.value);
  }
}
