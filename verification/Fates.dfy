/** How an operation ends, as the steps of the run decide it: run or aborted by the hard-stop flag its
    lane saw when it received it, released or turned down if its submit failed. */
module Fates {
  import opened Lanes
  import opened Dispatcher
  import opened LaneMap
  import opened Ownership
  import opened Outcomes
  import opened Safety
  import opened Handles
  import Progress

  // ----- Only a hard stop aborts -----

  /** What a lane does not run, or holds against a section, it does so because of a hard stop. */
  predicate AbortFace(q: Lane, hard: bool) {
    && (q.worker.Task? && q.worker.aborted ==> hard)
    && (q.worker.Refused? ==> hard)
  }

  ghost predicate AbortInv(s: State) {
    && (forall l {:trigger AbortFace(s.host.lanes[l], s.sig.hard)} :: l in s.host.lanes ==> AbortFace(s.host.lanes[l], s.sig.hard))
    && (forall t :: Settled(t, Aborted) in s.book.log ==> s.sig.hard)
  }

  lemma OneLaneAborts(s: State, s': State, l: LaneId)
    requires AbortInv(s) && l in s'.host.lanes && s'.host.lanes == s.host.lanes[l := s'.host.lanes[l]]
    requires AbortFace(s'.host.lanes[l], s'.sig.hard) && (s.sig.hard ==> s'.sig.hard)
    requires forall t :: Settled(t, Aborted) in s'.book.log ==> s'.sig.hard
    ensures AbortInv(s')
  {
    forall m | m in s'.host.lanes ensures AbortFace(s'.host.lanes[m], s'.sig.hard) {
      assert m != l ==> AbortFace(s.host.lanes[m], s.sig.hard);
    }
  }

  lemma SameLanesAbort(s: State, s': State)
    requires AbortInv(s) && s'.host.lanes == s.host.lanes && (s.sig.hard ==> s'.sig.hard)
    requires forall t :: Settled(t, Aborted) in s'.book.log ==> s'.sig.hard
    ensures AbortInv(s')
  {
    forall m | m in s'.host.lanes ensures AbortFace(s'.host.lanes[m], s'.sig.hard) {
      assert AbortFace(s.host.lanes[m], s.sig.hard);
    }
  }

  lemma SnocAborted(log: seq<Settled>, e: Settled)
    ensures forall t :: Settled(t, Aborted) in log + [e] <==> Settled(t, Aborted) in log || e == Settled(t, Aborted)
  {
  }

  lemma WorkerAborts(s: State, l: LaneId, a: WorkerStep)
    requires AbortInv(s) && LanesInv(s.host) && WorkerEnabled(s, l, a)
    ensures AbortInv(WorkerApply(s, l, a))
  {
    var q := s.host.lanes[l];
    assert AbortFace(q, s.sig.hard) && LaneInv(q);
    if a.FinishTask? {
      SnocAborted(s.book.log, Settled(q.worker.token, if q.worker.aborted then Aborted else Ran));
    } else if a.FinishMandatory? {
      SnocAborted(s.book.log, Settled(q.worker.token, ReleasedHandle));
    } else if a.DrainOne? {
      NothingToDrain(q);
    }
    OneLaneAborts(s, WorkerApply(s, l, a), l);
  }

  lemma ProducerAborts(s: State, t: Token, a: ProducerStep)
    requires AbortInv(s) && ProducerEnabled(s, t, a)
    ensures AbortInv(ProducerApply(s, t, a))
  {
    if a.Lookup? && !Live(s, s.book.ops[t].key) {
      OneLaneAborts(s, ProducerApply(s, t, a), a.newId);
    } else {
      SameLanesAbort(s, ProducerApply(s, t, a));
    }
  }

  lemma SendAborts(s: State, t: Token, a: SendStep)
    requires AbortInv(s) && SendEnabled(s, t, a)
    ensures AbortInv(SendApply(s, t, a))
  {
    var l := s.book.ops[t].pc.lane;
    assert AbortFace(s.host.lanes[l], s.sig.hard);
    OneLaneAborts(s, SendApply(s, t, a), l);
  }

  lemma HandoffAborts(s: State, t: Token, a: HandoffStep)
    requires AbortInv(s) && HandoffEnabled(s, t, a)
    ensures AbortInv(HandoffApply(s, t, a))
  {
    var s' := HandoffApply(s, t, a);
    SnocAborted(s.book.log, Settled(t, NotAccepted));
    SnocAborted(s.book.log, Settled(t, ReleasedHandle));
    if a.EnqueueRelease? || a.EnqueueStopped? {
      var l := s.book.ops[t].pc.lane;
      assert AbortFace(s.host.lanes[l], s.sig.hard);
      OneLaneAborts(s, s', l);
    } else {
      SameLanesAbort(s, s');
    }
  }

  lemma SectionAborts(s: State, i: SectionId, a: SectionStep)
    requires AbortInv(s) && SectionEnabled(s, i, a)
    ensures AbortInv(SectionApply(s, i, a))
  {
    var s' := SectionApply(s, i, a);
    SectionBook(s, i, a);
    if a.EnqueueBarrier? || a.CountParked? {
      assert AbortFace(s.host.lanes[a.lane], s.sig.hard);
      OneLaneAborts(s, s', a.lane);
    } else {
      if a.RunRelease? { SnocAborted(s.book.log, Settled(s.ex.sections[i].batch[0], ReleasedHandle)); }
      SameLanesAbort(s, s');
    }
  }

  lemma LoopAborts(s: State, a: LoopStep)
    requires AbortInv(s) && LoopEnabled(s, a)
    ensures AbortInv(LoopApply(s, a))
  {
    var s' := LoopApply(s, a);
    if a.LoopExit? {
      SameLanesAbort(s, s');
    } else {
      var l := if a.RetireCheck? then a.lane else s.host.retiring.value;
      assert AbortFace(s.host.lanes[l], s.sig.hard);
      OneLaneAborts(s, s', l);
    }
  }

  lemma StopAborts(s: State, k: StopId, a: StopStep)
    requires AbortInv(s) && StopEnabled(s, k, a)
    ensures AbortInv(StopApply(s, k, a))
  {
    if a.CloseLane? {
      assert AbortFace(s.host.lanes[a.lane], s.sig.hard);
      OneLaneAborts(s, StopApply(s, k, a), a.lane);
    } else {
      SameLanesAbort(s, StopApply(s, k, a));
    }
  }

  lemma StepAborts(s: State, a: Step)
    requires AbortInv(s) && LanesInv(s.host) && Enabled(s, a)
    ensures AbortInv(Apply(s, a))
  {
    match a
    case OfProducer(t, o) => ProducerAborts(s, t, o);
    case OfSend(t, o) => SendAborts(s, t, o);
    case OfHandoff(t, o) => HandoffAborts(s, t, o);
    case OfWorker(l, w) => WorkerAborts(s, l, w);
    case OfLoop(r) => LoopAborts(s, r);
    case OfSection(i, m) => SectionAborts(s, i, m);
    case OfStop(k, c) => StopAborts(s, k, c);
  }

  lemma {:induction false} RunAborts(s: State, run: seq<Step>)
    requires Inv(s) && AbortInv(s) && Runs(s, run)
    ensures Inv(After(s, run)) && AbortInv(After(s, run))
    decreases |run|
  {
    if run != [] {
      StepInv(s, run[0]);
      StepAborts(s, run[0]);
      RunAborts(Apply(s, run[0]), run[1..]);
    }
  }

  /** In every run, nothing is aborted and no barrier is refused unless a hard stop has been signalled. */
  lemma OnlyHardStopsAbort(s: State, run: seq<Step>)
    requires Init(s) && Runs(s, run) && !After(s, run).sig.hard
    ensures var e := After(s, run);
            && (forall t :: Settled(t, Aborted) !in e.book.log)
            && (forall l :: l in e.host.lanes ==> !e.host.lanes[l].worker.Refused?)
  {
    InitInv(s);
    forall l | l in s.host.lanes ensures AbortFace(s.host.lanes[l], s.sig.hard) {
      assert s.host.lanes[l] == NewLane(s.host.lanes[l].key, s.host.capacity);
    }
    RunAborts(s, run);
    var e := After(s, run);
    forall l | l in e.host.lanes ensures !e.host.lanes[l].worker.Refused? {
      assert AbortFace(e.host.lanes[l], e.sig.hard);
    }
  }

  // ----- A refused barrier is reported -----

  predicate ToldFace(q: Lane, e: Exclusion) {
    q.worker.Refused? ==> q.worker.section in e.sections && e.sections[q.worker.section].aborted
  }

  /** A lane that refused a barrier has told its section; and a section is told so only by a hard stop. */
  ghost predicate ToldInv(s: State) {
    && (forall l {:trigger ToldFace(s.host.lanes[l], s.ex)} :: l in s.host.lanes ==> ToldFace(s.host.lanes[l], s.ex))
    && (forall i :: i in s.ex.sections && s.ex.sections[i].aborted ==> s.sig.hard)
  }

  /** Sections stay, and none forgets or makes up what it was told. */
  predicate SameTold(e: Exclusion, e': Exclusion) {
    && (forall i :: i in e.sections ==> i in e'.sections && e'.sections[i].aborted == e.sections[i].aborted)
    && (forall i :: i in e'.sections && i !in e.sections ==> !e'.sections[i].aborted)
  }

  /** No lane comes to refuse a barrier. */
  predicate NoNewRefusals(h: Host, h': Host) {
    forall l :: l in h'.lanes && h'.lanes[l].worker.Refused? ==> l in h.lanes && h'.lanes[l].worker == h.lanes[l].worker
  }

  lemma StaysTold(s: State, s': State)
    requires ToldInv(s) && SameTold(s.ex, s'.ex) && NoNewRefusals(s.host, s'.host) && (s.sig.hard ==> s'.sig.hard)
    ensures ToldInv(s')
  {
    forall l | l in s'.host.lanes ensures ToldFace(s'.host.lanes[l], s'.ex) {
      assert l in s.host.lanes ==> ToldFace(s.host.lanes[l], s.ex);
    }
  }

  lemma ProducerTold(s: State, t: Token, a: ProducerStep)
    requires ToldInv(s) && ProducerEnabled(s, t, a)
    ensures ToldInv(ProducerApply(s, t, a))
  {
    StaysTold(s, ProducerApply(s, t, a));
  }

  lemma SendTold(s: State, t: Token, a: SendStep)
    requires ToldInv(s) && SendEnabled(s, t, a)
    ensures ToldInv(SendApply(s, t, a))
  {
    StaysTold(s, SendApply(s, t, a));
  }

  lemma HandoffTold(s: State, t: Token, a: HandoffStep)
    requires ToldInv(s) && HandoffEnabled(s, t, a)
    ensures ToldInv(HandoffApply(s, t, a))
  {
    if !a.EnqueueRelease? && !a.EnqueueStopped? {
      assert HandoffApply(s, t, a).host.lanes == s.host.lanes;
    }
    StaysTold(s, HandoffApply(s, t, a));
  }

  lemma WorkerTold(s: State, l: LaneId, a: WorkerStep)
    requires ToldInv(s) && WorkerEnabled(s, l, a)
    ensures ToldInv(WorkerApply(s, l, a))
  {
    if a.Take? {
      TakeTold(s, l);
    } else {
      StaysTold(s, WorkerApply(s, l, a));
    }
  }

  lemma TakeTold(s: State, l: LaneId)
    requires ToldInv(s) && WorkerEnabled(s, l, Take)
    ensures ToldInv(WorkerApply(s, l, Take))
  {
    var s' := WorkerApply(s, l, Take);
    forall m | m in s'.host.lanes ensures ToldFace(s'.host.lanes[m], s'.ex) {
      assert m != l ==> ToldFace(s.host.lanes[m], s.ex);
    }
  }

  lemma SectionTold(s: State, i: SectionId, a: SectionStep)
    requires ToldInv(s) && SectionEnabled(s, i, a)
    ensures ToldInv(SectionApply(s, i, a))
  {
    SectionKeepsTold(s, i, a);
    if !a.EnqueueBarrier? && !a.CountParked? {
      assert SectionApply(s, i, a).host.lanes == s.host.lanes;
    }
    StaysTold(s, SectionApply(s, i, a));
  }

  lemma SectionOwnTold(s: State, i: SectionId, a: SectionStep)
    requires SectionEnabled(s, i, a)
    ensures var e' := SectionApply(s, i, a).ex;
            i in e'.sections && (e'.sections[i].aborted <==> i in s.ex.sections && s.ex.sections[i].aborted)
  {
  }

  lemma SectionKeepsTold(s: State, i: SectionId, a: SectionStep)
    requires SectionEnabled(s, i, a)
    ensures SameTold(s.ex, SectionApply(s, i, a).ex)
  {
    var e' := SectionApply(s, i, a).ex;
    SectionOwnTold(s, i, a);
    forall j | j != i
      ensures (j in e'.sections <==> j in s.ex.sections) && (j in s.ex.sections ==> e'.sections[j] == s.ex.sections[j])
    {
      Progress.OtherSection(s, i, a, j);
    }
  }

  lemma LoopTold(s: State, a: LoopStep)
    requires ToldInv(s) && LoopEnabled(s, a)
    ensures ToldInv(LoopApply(s, a))
  {
    forall l | l in s.host.lanes ensures SameWorker(s.host, LoopApply(s, a).host, l) {
      LoopLeavesWorker(s, a, l);
    }
    StaysTold(s, LoopApply(s, a));
  }

  lemma StopTold(s: State, k: StopId, a: StopStep)
    requires ToldInv(s) && StopEnabled(s, k, a)
    ensures ToldInv(StopApply(s, k, a))
  {
    StaysTold(s, StopApply(s, k, a));
  }

  lemma StepTold(s: State, a: Step)
    requires ToldInv(s) && Enabled(s, a)
    ensures ToldInv(Apply(s, a))
  {
    match a
    case OfProducer(t, o) => ProducerTold(s, t, o);
    case OfSend(t, o) => SendTold(s, t, o);
    case OfHandoff(t, o) => HandoffTold(s, t, o);
    case OfWorker(l, w) => WorkerTold(s, l, w);
    case OfLoop(r) => LoopTold(s, r);
    case OfSection(i, m) => SectionTold(s, i, m);
    case OfStop(k, c) => StopTold(s, k, c);
  }

  lemma {:induction false} RunTold(s: State, run: seq<Step>)
    requires ToldInv(s) && Runs(s, run)
    ensures ToldInv(After(s, run))
    decreases |run|
  {
    if run != [] {
      StepTold(s, run[0]);
      RunTold(Apply(s, run[0]), run[1..]);
    }
  }

  /** In every run, a section whose barrier a lane has refused has been told so, and no section is told so
      before a hard stop. */
  lemma RefusalIsReported(s: State, run: seq<Step>, l: LaneId, i: SectionId)
    requires Init(s) && Runs(s, run)
    ensures var e := After(s, run);
            && (l in e.host.lanes && e.host.lanes[l].worker == Refused(i) ==> i in e.ex.sections && e.ex.sections[i].aborted)
            && (i in e.ex.sections && e.ex.sections[i].aborted ==> e.sig.hard)
  {
    forall m | m in s.host.lanes ensures ToldFace(s.host.lanes[m], s.ex) {
      assert s.host.lanes[m] == NewLane(s.host.lanes[m].key, s.host.capacity);
    }
    RunTold(s, run);
    var e := After(s, run);
    assert l in e.host.lanes ==> ToldFace(e.host.lanes[l], e.ex);
  }

  // ----- A received task -----

  /** Lane l is handling t, which it received with the hard-stop flag as given, or t has ended that way. */
  predicate Handling(s: State, l: LaneId, t: Token, hard: bool) {
    || (l in s.host.lanes && s.host.lanes[l].worker == Task(t, hard) && PcOf(s.book, t) == Queued(l))
    || Settled(t, if hard then Aborted else Ran) in s.book.log
  }

  lemma LogGrows(s: State, a: Step)
    requires Enabled(s, a)
    ensures s.book.log <= Apply(s, a).book.log
  {
    match a
    case OfProducer(t, o) => assert ProducerApply(s, t, o).book.log == s.book.log;
    case OfSend(t, o) => assert SendApply(s, t, o).book.log == s.book.log;
    case OfHandoff(t, o) =>
    case OfWorker(l, w) =>
    case OfLoop(r) => assert LoopApply(s, r).book == s.book;
    case OfSection(i, m) => SectionBook(s, i, m);
    case OfStop(k, c) => assert StopApply(s, k, c).book == s.book;
  }

  /** What is at work on lane l stays at work. */
  predicate SameWorker(h: Host, h': Host, l: LaneId) {
    l in h.lanes && l in h'.lanes && h'.lanes[l].worker == h.lanes[l].worker
  }

  lemma ProducerLeavesWorker(s: State, t: Token, a: ProducerStep, l: LaneId)
    requires ProducerEnabled(s, t, a) && l in s.host.lanes
    ensures SameWorker(s.host, ProducerApply(s, t, a).host, l)
  {
  }

  lemma SendLeavesWorker(s: State, t: Token, a: SendStep, l: LaneId)
    requires SendEnabled(s, t, a) && l in s.host.lanes
    ensures SameWorker(s.host, SendApply(s, t, a).host, l)
  {
  }

  lemma HandoffLeavesWorker(s: State, t: Token, a: HandoffStep, l: LaneId)
    requires HandoffEnabled(s, t, a) && l in s.host.lanes
    ensures SameWorker(s.host, HandoffApply(s, t, a).host, l)
  {
    if !a.EnqueueRelease? && !a.EnqueueStopped? {
      assert HandoffApply(s, t, a).host.lanes == s.host.lanes;
    }
  }

  lemma LoopLeavesWorker(s: State, a: LoopStep, l: LaneId)
    requires LoopEnabled(s, a) && l in s.host.lanes
    ensures SameWorker(s.host, LoopApply(s, a).host, l)
  {
    var h, h' := s.host, LoopApply(s, a).host;
    match a
    case LoopExit => assert h' == h;
    case RetireCheck(m) => assert h'.lanes == h.lanes[m := LockIdle(h.lanes[m])];
    case RetireRefuse => assert h'.lanes == h.lanes[h.retiring.value := Unlock(h.lanes[h.retiring.value])];
    case RetireSeal => assert h'.lanes == h.lanes[h.retiring.value := Seal(h.lanes[h.retiring.value])];
  }

  lemma SectionLeavesTasks(s: State, i: SectionId, a: SectionStep, l: LaneId)
    requires SectionEnabled(s, i, a) && l in s.host.lanes && s.host.lanes[l].worker.Task?
    ensures SameWorker(s.host, SectionApply(s, i, a).host, l)
  {
    if !a.EnqueueBarrier? && !a.CountParked? {
      assert SectionApply(s, i, a).host.lanes == s.host.lanes;
    }
  }

  lemma StopLeavesWorker(s: State, k: StopId, a: StopStep, l: LaneId)
    requires StopEnabled(s, k, a) && l in s.host.lanes
    ensures SameWorker(s.host, StopApply(s, k, a).host, l)
  {
  }

  /** Nobody but the worker ends what it is handling. */
  lemma OthersLeaveTasks(s: State, a: Step, l: LaneId)
    requires Enabled(s, a) && !(a.OfWorker? && a.lane == l) && l in s.host.lanes && s.host.lanes[l].worker.Task?
    ensures SameWorker(s.host, Apply(s, a).host, l)
  {
    match a
    case OfProducer(u, o) => ProducerLeavesWorker(s, u, o, l);
    case OfSend(u, o) => SendLeavesWorker(s, u, o, l);
    case OfHandoff(u, o) => HandoffLeavesWorker(s, u, o, l);
    case OfWorker(m, w) => assert WorkerApply(s, m, w).host.lanes[l] == s.host.lanes[l];
    case OfLoop(r) => LoopLeavesWorker(s, r, l);
    case OfSection(i, m) => SectionLeavesTasks(s, i, m, l);
    case OfStop(k, c) => StopLeavesWorker(s, k, c, l);
  }

  lemma StepHandling(s: State, a: Step, l: LaneId, t: Token, hard: bool)
    requires Inv(s) && Enabled(s, a) && Handling(s, l, t, hard)
    ensures Handling(Apply(s, a), l, t, hard)
  {
    LogGrows(s, a);
    if Settled(t, if hard then Aborted else Ran) !in s.book.log {
      if a.OfWorker? && a.lane == l {
        TaskIsFinished(s, l, a.work);
      } else {
        StepOwner(s, a, t);
        OthersLeaveTasks(s, a, l);
      }
    }
  }

  lemma TaskIsFinished(s: State, l: LaneId, w: WorkerStep)
    requires WorkerEnabled(s, l, w) && s.host.lanes[l].worker.Task?
    ensures var q := s.host.lanes[l];
            Settled(q.worker.token, if q.worker.aborted then Aborted else Ran) in WorkerApply(s, l, w).book.log
  {
    var q := s.host.lanes[l];
    var e := Settled(q.worker.token, if q.worker.aborted then Aborted else Ran);
    assert w.FinishTask?;
    assert WorkerApply(s, l, w).book.log == s.book.log + [e];
    assert e in s.book.log + [e];
  }

  lemma {:induction false} RunHandling(s: State, run: seq<Step>, l: LaneId, t: Token, hard: bool)
    requires Inv(s) && Runs(s, run) && Handling(s, l, t, hard)
    ensures Handling(After(s, run), l, t, hard)
    decreases |run|
  {
    if run != [] {
      StepInv(s, run[0]);
      StepHandling(s, run[0], l, t, hard);
      RunHandling(Apply(s, run[0]), run[1..], l, t, hard);
    }
  }

  /** In every run, a task that its lane received before the hard stop is run, whenever that stop comes;
      one received after it is aborted. Until then it stays with the lane. */
  lemma ReceivedEndsAs(s: State, r1: seq<Step>, l: LaneId, r2: seq<Step>)
    requires Init(s) && Runs(s, r1) && WorkerEnabled(After(s, r1), l, Receive)
    requires Runs(WorkerApply(After(s, r1), l, Receive), r2)
    ensures var s1 := After(s, r1);
            var e := After(WorkerApply(s1, l, Receive), r2);
            var t := s1.host.lanes[l].ch[0];
            if PcOf(e.book, t).Done? then Settled(t, if s1.sig.hard then Aborted else Ran) in e.book.log
            else PcOf(e.book, t) == Queued(l)
  {
    InitInv(s);
    RunInv(s, r1);
    var s1 := After(s, r1);
    var t := s1.host.lanes[l].ch[0];
    assert t in AcceptedWork(s1.host.lanes[l]);
    assert Own(s1.host.lanes[l], l, t, PcOf(s1.book, t));
    StepInv(s1, OfWorker(l, Receive));
    var s2 := WorkerApply(s1, l, Receive);
    RunInv(s2, r2);
    RunHandling(s2, r2, l, t, s1.sig.hard);
    HandlingEnds(After(s2, r2), l, t, s1.sig.hard);
  }

  lemma HandlingEnds(s: State, l: LaneId, t: Token, hard: bool)
    requires OwnInv(s) && Handling(s, l, t, hard)
    ensures if PcOf(s.book, t).Done? then Settled(t, if hard then Aborted else Ran) in s.book.log else PcOf(s.book, t) == Queued(l)
  {
    if Settled(t, if hard then Aborted else Ran) in s.book.log {
      LogIsDone(s.book, t, if hard then Aborted else Ran);
    }
  }

  lemma LogIsDone(b: Book, t: Token, how: How)
    requires LogOwn(b) && Settled(t, how) in b.log
    ensures PcOf(b, t).Done?
  {
    var k :| 0 <= k < |b.log| && b.log[k] == Settled(t, how);
    assert Logged(b.log, t);
  }

  // ----- Accepted or not -----

  /** The lane accepted t: it is queued there or was handled by it. */
  predicate Accepted(b: Book, t: Token) {
    PcOf(b, t).Queued? || Settled(t, Ran) in b.log || Settled(t, Aborted) in b.log
  }

  lemma ProducerAccepts(s: State, u: Token, a: ProducerStep, t: Token)
    requires ProducerEnabled(s, u, a)
    ensures Accepted(ProducerApply(s, u, a).book, t) <==> Accepted(s.book, t)
  {
  }

  lemma SendAccepts(s: State, u: Token, a: SendStep, t: Token)
    requires SendEnabled(s, u, a)
    ensures Accepted(SendApply(s, u, a).book, t) <==> Accepted(s.book, t) || (u == t && a.Send?)
  {
  }

  lemma SnocAccepted(log: seq<Settled>, u: Token, how: How, t: Token)
    ensures Settled(t, Ran) in log + [Settled(u, how)] <==> Settled(t, Ran) in log || (u == t && how.Ran?)
    ensures Settled(t, Aborted) in log + [Settled(u, how)] <==> Settled(t, Aborted) in log || (u == t && how.Aborted?)
  {
  }

  lemma HandoffAccepts(s: State, u: Token, a: HandoffStep, t: Token)
    requires HandoffEnabled(s, u, a)
    ensures Accepted(HandoffApply(s, u, a).book, t) <==> Accepted(s.book, t)
  {
    SnocAccepted(s.book.log, u, NotAccepted, t);
    SnocAccepted(s.book.log, u, ReleasedHandle, t);
  }

  lemma WorkerAccepts(s: State, l: LaneId, a: WorkerStep, t: Token)
    requires OwnInv(s) && WorkerEnabled(s, l, a) && !a.DrainOne?
    ensures Accepted(WorkerApply(s, l, a).book, t) <==> Accepted(s.book, t)
  {
    var q := s.host.lanes[l];
    if a.FinishTask? {
      FinishTaskOwn(s, l);
      SnocAccepted(s.book.log, q.worker.token, if q.worker.aborted then Aborted else Ran, t);
    } else if a.FinishMandatory? {
      FinishMandatoryOwn(s, l);
      SnocAccepted(s.book.log, q.worker.token, ReleasedHandle, t);
    }
  }

  lemma SectionAccepts(s: State, i: SectionId, a: SectionStep, t: Token)
    requires OwnInv(s) && SectionEnabled(s, i, a)
    ensures Accepted(SectionApply(s, i, a).book, t) <==> Accepted(s.book, t)
  {
    SectionBook(s, i, a);
    if a.RunRelease? {
      BatchIsPostponed(s, i);
      SnocAccepted(s.book.log, s.ex.sections[i].batch[0], ReleasedHandle, t);
    }
  }

  lemma StepAccepts(s: State, a: Step, t: Token)
    requires Inv(s) && Enabled(s, a)
    ensures Accepted(Apply(s, a).book, t) <==> Accepted(s.book, t) || a == OfSend(t, Send)
  {
    match a
    case OfProducer(u, o) => ProducerAccepts(s, u, o, t);
    case OfSend(u, o) => SendAccepts(s, u, o, t);
    case OfHandoff(u, o) => HandoffAccepts(s, u, o, t);
    case OfWorker(l, w) =>
      assert LaneInv(s.host.lanes[l]);
      WorkerAccepts(s, l, w, t);
    case OfLoop(r) => assert LoopApply(s, r).book == s.book;
    case OfSection(i, m) => SectionAccepts(s, i, m, t);
    case OfStop(k, c) => assert StopApply(s, k, c).book == s.book;
  }

  lemma {:induction false} RunAccepts(s: State, run: seq<Step>, t: Token)
    requires Inv(s) && Runs(s, run)
    ensures Accepted(After(s, run).book, t) <==> Accepted(s.book, t) || OfSend(t, Send) in run
    decreases |run|
  {
    if run != [] {
      StepInv(s, run[0]);
      StepAccepts(s, run[0], t);
      RunAccepts(Apply(s, run[0]), run[1..], t);
      assert run == [run[0]] + run[1..];
    }
  }

  /** In every run, how an operation ended follows from two things: whether its send succeeded, and
      whether it was to close its handle. */
  lemma HowItEnded(s: State, run: seq<Step>, t: Token, how: How)
    requires Init(s) && Runs(s, run) && Settled(t, how) in After(s, run).book.log
    ensures t in After(s, run).book.ops
    ensures how.Ran? || how.Aborted? <==> OfSend(t, Send) in run
    ensures how.NotAccepted? <==> OfSend(t, Send) !in run && !After(s, run).book.ops[t].handsOff
    ensures how.ReleasedHandle? <==> OfSend(t, Send) !in run && After(s, run).book.ops[t].handsOff
  {
    InitInv(s);
    RunInv(s, run);
    RunFits(s, run);
    RunAccepts(s, run, t);
    var b := After(s, run).book;
    LogIsDone(b, t, how);
    var k :| 0 <= k < |b.log| && b.log[k] == Settled(t, how);
    assert EntryFits(b, b.log[k]);
    OneEnding(b, t, how);
  }

  lemma OneEnding(b: Book, t: Token, how: How)
    requires LogOwn(b) && Settled(t, how) in b.log
    ensures forall other :: Settled(t, other) in b.log ==> other == how
  {
    var k :| 0 <= k < |b.log| && b.log[k] == Settled(t, how);
    forall other | Settled(t, other) in b.log ensures other == how {
      var j :| 0 <= j < |b.log| && b.log[j] == Settled(t, other);
    }
  }
}
