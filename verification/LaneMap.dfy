/** What every step keeps of the lane map: each lane satisfies its own invariant, the map holds
    exactly the lanes that are not retired, one per key and never more than the cap, no key has a
    lane and a cleanup barrier at once, and lanes close only by retirement or by a stop. */
module LaneMap {
  import opened Sets
  import opened Lanes
  import opened Dispatcher
  import opened Wrappers

  ghost predicate LanesInv(h: Host) {
    forall l {:trigger LaneInv(h.lanes[l])} :: l in h.lanes ==> LaneInv(h.lanes[l])
  }

  /** A lane that is not retired is the one its key maps to; a closed one means a stop. */
  predicate LaneFace(h: Host, l: LaneId)
    requires l in h.lanes
  {
    var q := h.lanes[l];
    && (q.gateLocked <==> h.retiring == Some(l))
    && (if q.retired then h.retiring != Some(l)
        else q.key in h.queues && h.queues[q.key] == l && (q.closed ==> h.stopping))
  }

  /** A mapped key has its own lane, which is not retired, and no cleanup barrier. */
  predicate KeyFace(h: Host, k: RoutingKey)
    requires k in h.queues
  {
    && k !in h.barriers
    && h.queues[k] in h.lanes
    && h.lanes[h.queues[k]].key == k
    && !h.lanes[h.queues[k]].retired
  }

  ghost predicate MapInv(h: Host) {
    && (forall l {:trigger LaneFace(h, l)} :: l in h.lanes ==> LaneFace(h, l))
    && (forall k {:trigger KeyFace(h, k)} :: k in h.queues ==> KeyFace(h, k))
    && (h.maxQueues > 0 ==> |h.queues| <= h.maxQueues)
    && (h.retiring.Some? ==> h.retiring.value in h.lanes)
  }

  /** The signals come in order, and a stop call past each point has seen its signal. */
  ghost predicate SignalInv(s: State) {
    && (s.host.stopping ==> s.sig.stopped)
    && (s.sig.stopped ==> s.sig.loopDone)
    && (s.host.retiring.Some? ==> !s.sig.loopDone && s.ex.active.None?)
    && (forall k {:trigger StopperInv(s, s.st.stoppers[k].pc)} ::
          k in s.st.stoppers ==> StopperInv(s, s.st.stoppers[k].pc))
  }

  ghost predicate StopperInv(s: State, pc: StopPc) {
    && (!pc.StopArrived? ==> s.sig.loopDone)
    && (!pc.StopArrived? && !pc.LoopStopped? && !pc.HardSignalled? ==> s.sig.stopped)
    && (PastMark(pc) ==> s.host.stopping)
    && (PastMark(pc) || pc.SubmitsDone? ==> s.sig.fence)
  }

  predicate PastMark(pc: StopPc) {
    pc.Closing? || pc.WaitingWorkers? || pc.WorkersDone? || pc.SectionsDone? || pc.LifecycleSealed? || pc.Succeeded?
  }

  ghost predicate BaseInv(s: State) {
    LanesInv(s.host) && MapInv(s.host) && SignalInv(s)
  }

  lemma InitBase(s: State)
    requires Init(s)
    ensures BaseInv(s)
  {
    forall l | l in s.host.lanes ensures LaneInv(s.host.lanes[l]) && LaneFace(s.host, l) {
      NewLaneInv(s.host.lanes[l].key, s.host.capacity);
    }
    forall k | k in s.host.queues ensures KeyFace(s.host, k) {
      var l := s.host.queues[k];
      assert l in s.host.lanes && s.host.lanes[l] == NewLane(s.host.lanes[l].key, s.host.capacity);
    }
  }

  /** Two lanes that look the same to the map. */
  predicate SameFace(p: Lane, q: Lane) {
    q.key == p.key && q.retired == p.retired && q.closed == p.closed && q.gateLocked == p.gateLocked
  }

  lemma ReplaceLane(h: Host, l: LaneId, q: Lane)
    requires MapInv(h) && l in h.lanes && SameFace(h.lanes[l], q)
    ensures MapInv(PutLane(h, l, q))
  {
    var h' := PutLane(h, l, q);
    forall m | m in h'.lanes ensures LaneFace(h', m) {
      assert LaneFace(h, m);
    }
    forall k | k in h'.queues ensures KeyFace(h', k) {
      assert KeyFace(h, k);
    }
  }

  lemma ReplaceLaneInv(h: Host, l: LaneId, q: Lane)
    requires LanesInv(h) && LaneInv(q)
    ensures LanesInv(PutLane(h, l, q))
  {
    forall m | m in PutLane(h, l, q).lanes ensures LaneInv(PutLane(h, l, q).lanes[m]) {
      assert m == l || LaneInv(h.lanes[m]);
    }
  }

  // ----- The map and the signals -----

  /** Only a stop leaves a closed lane in the map. */
  lemma MappedIsLive(s: State, key: RoutingKey)
    requires MapInv(s.host) && !s.host.stopping && key in s.host.queues
    ensures Live(s, key)
  {
    assert KeyFace(s.host, key);
    assert LaneFace(s.host, s.host.queues[key]);
  }

  lemma MapGrows(m: map<RoutingKey, LaneId>, k: RoutingKey, l: LaneId)
    requires k !in m
    ensures |m[k := l]| == |m| + 1
  {
    assert m[k := l].Keys == m.Keys + {k};
  }

  lemma CreateMap(s: State, key: RoutingKey, newId: LaneId)
    requires MapInv(s.host) && CanGet(s, key, newId) && ActiveOk(s) && !Live(s, key)
    ensures key !in s.host.queues
    ensures MapInv(Create(s, key, newId).host)
  {
    if key in s.host.queues {
      MappedIsLive(s, key);
    }
    var h' := Create(s, key, newId).host;
    MapGrows(s.host.queues, key, newId);
    forall m | m in h'.lanes ensures LaneFace(h', m) {
      assert m == newId || LaneFace(s.host, m);
    }
    forall k | k in h'.queues ensures KeyFace(h', k) {
      assert k == key || KeyFace(s.host, k);
    }
  }

  /** Steps that leave the host alone. */
  lemma SameHost(h: Host, h': Host)
    requires MapInv(h) && h' == h
    ensures MapInv(h')
  {
  }

  lemma ProducerMap(s: State, t: Token, a: ProducerStep)
    requires MapInv(s.host) && ProducerEnabled(s, t, a)
    ensures MapInv(ProducerApply(s, t, a).host)
  {
    if a.Lookup? && !Live(s, s.book.ops[t].key) {
      CreateMap(s, s.book.ops[t].key, a.newId);
    } else {
      SameHost(s.host, ProducerApply(s, t, a).host);
    }
  }

  lemma SendMap(s: State, t: Token, a: SendStep)
    requires MapInv(s.host) && SendEnabled(s, t, a)
    ensures MapInv(SendApply(s, t, a).host)
  {
    var l := s.book.ops[t].pc.lane;
    var h' := SendApply(s, t, a).host;
    assert h' == PutLane(s.host, l, h'.lanes[l]);
    ReplaceLane(s.host, l, h'.lanes[l]);
  }

  lemma HandoffMap(s: State, t: Token, a: HandoffStep)
    requires MapInv(s.host) && HandoffEnabled(s, t, a)
    ensures MapInv(HandoffApply(s, t, a).host)
  {
    var h' := HandoffApply(s, t, a).host;
    if a.EnqueueRelease? || a.EnqueueStopped? {
      var l := s.book.ops[t].pc.lane;
      assert h' == PutLane(s.host, l, h'.lanes[l]);
      ReplaceLane(s.host, l, h'.lanes[l]);
    } else if a.CleanupWithoutLane? || a.FinishOffLane? {
      var key := s.book.ops[t].key;
      forall m | m in h'.lanes ensures LaneFace(h', m) {
        assert LaneFace(s.host, m);
      }
      forall k | k in h'.queues ensures KeyFace(h', k) {
        assert KeyFace(s.host, k);
        if k == key && a.CleanupWithoutLane? && !s.host.stopping {
          MappedIsLive(s, k);
        }
      }
    } else {
      SameHost(s.host, h');
    }
  }

  lemma WorkerMap(s: State, l: LaneId, a: WorkerStep)
    requires MapInv(s.host) && WorkerEnabled(s, l, a)
    ensures MapInv(WorkerApply(s, l, a).host)
  {
    var h' := WorkerApply(s, l, a).host;
    assert h' == PutLane(s.host, l, h'.lanes[l]);
    ReplaceLane(s.host, l, h'.lanes[l]);
  }

  lemma LoopMap(s: State, a: LoopStep)
    requires MapInv(s.host) && LoopEnabled(s, a)
    ensures MapInv(LoopApply(s, a).host)
  {
    var h' := LoopApply(s, a).host;
    assert a.RetireCheck? ==> KeyFace(s.host, s.host.lanes[a.lane].key);
    forall m | m in h'.lanes ensures LaneFace(h', m) {
      assert LaneFace(s.host, m);
      if s.host.retiring.Some? {
        assert LaneFace(s.host, s.host.retiring.value);
      }
    }
    forall k | k in h'.queues ensures KeyFace(h', k) {
      assert KeyFace(s.host, k);
      if s.host.retiring.Some? {
        assert LaneFace(s.host, s.host.retiring.value);
      }
    }
    SubsetSize(h'.queues.Keys, s.host.queues.Keys);
  }

  lemma SectionMap(s: State, i: SectionId, a: SectionStep)
    requires MapInv(s.host) && SectionEnabled(s, i, a)
    ensures MapInv(SectionApply(s, i, a).host)
  {
    var h' := SectionApply(s, i, a).host;
    if a.EnqueueBarrier? || a.CountParked? {
      assert h' == PutLane(s.host, a.lane, h'.lanes[a.lane]);
      ReplaceLane(s.host, a.lane, h'.lanes[a.lane]);
    } else {
      SameHost(s.host, h');
    }
  }

  lemma StopMap(s: State, k: StopId, a: StopStep)
    requires MapInv(s.host) && SignalInv(s) && StopEnabled(s, k, a)
    ensures MapInv(StopApply(s, k, a).host)
  {
    var h' := StopApply(s, k, a).host;
    if a.CloseLane? || a.MarkStopping? {
      assert StopperInv(s, s.st.stoppers[k].pc);
      forall m | m in h'.lanes ensures LaneFace(h', m) {
        assert LaneFace(s.host, m);
      }
      forall x | x in h'.queues ensures KeyFace(h', x) {
        assert KeyFace(s.host, x);
      }
    } else {
      SameHost(s.host, h');
    }
  }

  /** A step that raises no signal and touches no stop call. */
  lemma CalmSignals(s: State, s': State)
    requires SignalInv(s)
    requires s'.host.stopping == s.host.stopping && s'.host.retiring == s.host.retiring
    requires s'.sig.stopped == s.sig.stopped && s'.sig.loopDone == s.sig.loopDone && s'.st == s.st
    requires s.sig.fence ==> s'.sig.fence
    requires s.host.retiring.Some? ==> s'.ex.active == s.ex.active
    ensures SignalInv(s')
  {
    forall k | k in s'.st.stoppers ensures StopperInv(s', s'.st.stoppers[k].pc) {
      assert StopperInv(s, s.st.stoppers[k].pc);
    }
  }

  lemma ProducerSignals(s: State, t: Token, a: ProducerStep)
    requires SignalInv(s) && ProducerEnabled(s, t, a)
    ensures SignalInv(ProducerApply(s, t, a))
  {
    CalmSignals(s, ProducerApply(s, t, a));
  }

  lemma HandoffSignals(s: State, t: Token, a: HandoffStep)
    requires SignalInv(s) && HandoffEnabled(s, t, a)
    ensures SignalInv(HandoffApply(s, t, a))
  {
    CalmSignals(s, HandoffApply(s, t, a));
  }

  lemma SendSignals(s: State, t: Token, a: SendStep)
    requires SignalInv(s) && SendEnabled(s, t, a)
    ensures SignalInv(SendApply(s, t, a))
  {
    CalmSignals(s, SendApply(s, t, a));
  }

  lemma WorkerSignals(s: State, l: LaneId, a: WorkerStep)
    requires SignalInv(s) && WorkerEnabled(s, l, a)
    ensures SignalInv(WorkerApply(s, l, a))
  {
    CalmSignals(s, WorkerApply(s, l, a));
  }

  lemma SectionSignals(s: State, i: SectionId, a: SectionStep)
    requires SignalInv(s) && SectionEnabled(s, i, a)
    ensures SignalInv(SectionApply(s, i, a))
  {
    CalmSignals(s, SectionApply(s, i, a));
  }

  lemma LoopSignals(s: State, a: LoopStep)
    requires SignalInv(s) && LoopEnabled(s, a)
    ensures SignalInv(LoopApply(s, a))
  {
    var s' := LoopApply(s, a);
    forall k | k in s'.st.stoppers ensures StopperInv(s', s'.st.stoppers[k].pc) {
      assert StopperInv(s, s.st.stoppers[k].pc);
    }
  }

  lemma StopSignals(s: State, k: StopId, a: StopStep)
    requires SignalInv(s) && StopEnabled(s, k, a)
    ensures SignalInv(StopApply(s, k, a))
  {
    var s' := StopApply(s, k, a);
    assert k in s.st.stoppers ==> StopperInv(s, s.st.stoppers[k].pc);
    forall m | m in s'.st.stoppers ensures StopperInv(s', s'.st.stoppers[m].pc) {
      assert m in s.st.stoppers ==> StopperInv(s, s.st.stoppers[m].pc);
    }
  }

  lemma StepSignals(s: State, a: Step)
    requires SignalInv(s) && Enabled(s, a)
    ensures SignalInv(Apply(s, a))
  {
    match a
    case OfProducer(t, o) => ProducerSignals(s, t, o);
    case OfSend(t, o) => SendSignals(s, t, o);
    case OfHandoff(t, o) => HandoffSignals(s, t, o);
    case OfWorker(l, w) => WorkerSignals(s, l, w);
    case OfLoop(r) => LoopSignals(s, r);
    case OfSection(i, m) => SectionSignals(s, i, m);
    case OfStop(k, c) => StopSignals(s, k, c);
  }

  // ----- The lanes -----

  lemma SendLaneInv(s: State, t: Token, a: SendStep)
    requires LanesInv(s.host) && SendEnabled(s, t, a)
    ensures LaneInv(SendApply(s, t, a).host.lanes[s.book.ops[t].pc.lane])
  {
    var p := s.host.lanes[s.book.ops[t].pc.lane];
    assert LaneInv(p);
    match a
    case EnterGate => if !p.closed { QuietStepInv(p, Lanes.EnterGate(p, t)); }
    case PassFence => QuietStepInv(p, Lanes.PassFence(p, t, s.sig.stopped));
    case Admit => AdmitInv(p, t);
    case Send => SendInv(p, t);
    case Abandon => AbandonInv(p, t);
    case GiveUp => QuietStepInv(p, LeaveGate(p, t));
  }

  lemma SendLanes(s: State, t: Token, a: SendStep)
    requires LanesInv(s.host) && SendEnabled(s, t, a)
    ensures LanesInv(SendApply(s, t, a).host)
  {
    SendLaneInv(s, t, a);
    var l := s.book.ops[t].pc.lane;
    var h' := SendApply(s, t, a).host;
    assert h' == PutLane(s.host, l, h'.lanes[l]);
    ReplaceLaneInv(s.host, l, h'.lanes[l]);
  }

  lemma SelectInv(p: Lane)
    requires LaneInv(p)
    ensures p.worker.NotStarted? ==> LaneInv(Start(p))
    ensures p.worker.Selecting? ==> LaneInv(Lanes.Wake(p))
    ensures p.worker.Selecting? && p.closed && !p.retired && p.ch == [] ==> LaneInv(Lanes.SeeClosed(p))
    ensures p.worker.Selecting? && p.retired ==> LaneInv(Lanes.SeeQuit(p))
    ensures p.worker.Emptying? && p.ch == [] ==> LaneInv(Lanes.DrainEnd(p))
  {
    if p.worker.NotStarted? {
      QuietStepInv(p, Start(p));
    } else if p.worker.Selecting? {
      QuietStepInv(p, Lanes.Wake(p));
      if p.retired {
        QuietStepInv(p, Lanes.SeeQuit(p));
      } else if p.closed && p.ch == [] {
        QuietStepInv(p, Lanes.SeeClosed(p));
      }
    } else if p.worker.Emptying? && p.ch == [] {
      QuietStepInv(p, Lanes.DrainEnd(p));
    }
  }

  lemma LeaveBacklogInv(p: Lane)
    requires LaneInv(p)
    ensures p.worker.Mandatory? ==> LaneInv(Lanes.FinishMandatory(p))
    ensures AtBarrier(p) ==> LaneInv(Lanes.PassBarrier(p))
    ensures p.worker.Offering? ==> LaneInv(Park(p))
    ensures p.worker.Polling? && p.sawEnd && p.backlog == [] ==> LaneInv(Lanes.FinishWorker(p))
  {
    if p.worker.Mandatory? {
      QuietStepInv(p, Lanes.FinishMandatory(p));
    } else if AtBarrier(p) {
      QuietStepInv(p, Lanes.PassBarrier(p));
      if p.worker.Offering? {
        QuietStepInv(p, Park(p));
      }
    } else if p.worker.Polling? && p.sawEnd && p.backlog == [] {
      QuietStepInv(p, Lanes.FinishWorker(p));
    }
  }

  lemma WorkerLaneInv(s: State, l: LaneId, a: WorkerStep)
    requires LanesInv(s.host) && WorkerEnabled(s, l, a)
    ensures LaneInv(WorkerApply(s, l, a).host.lanes[l])
  {
    var p := s.host.lanes[l];
    assert LaneInv(p);
    match a
    case Take => TakeInv(p, s.sig.fence, s.sig.hard);
    case PollMiss => PollMissInv(p, s.sig.fence);
    case Receive => ReceiveInv(p, s.sig.hard);
    case FinishTask => FinishTaskInv(p);
    case Settle => QuietStepInv(p, Lanes.Settle(p));
    case DrainOne => NothingToDrain(p);
    case FinishMandatory => LeaveBacklogInv(p);
    case PassBarrier => LeaveBacklogInv(p);
    case FinishWorker => LeaveBacklogInv(p);
    case _ => SelectInv(p);
  }

  lemma WorkerLanes(s: State, l: LaneId, a: WorkerStep)
    requires LanesInv(s.host) && WorkerEnabled(s, l, a)
    ensures LanesInv(WorkerApply(s, l, a).host)
  {
    WorkerLaneInv(s, l, a);
    var h' := WorkerApply(s, l, a).host;
    assert h' == PutLane(s.host, l, h'.lanes[l]);
    ReplaceLaneInv(s.host, l, h'.lanes[l]);
  }

  lemma CreatedLaneInv(s: State, key: RoutingKey)
    ensures LaneInv(CreatedLane(s, key))
  {
    NewLaneInv(key, s.host.capacity);
    if s.ex.active.Some? {
      EnqueueInv(NewLane(key, s.host.capacity), Barrier(s.ex.active.value), false);
    }
  }

  lemma ProducerLanes(s: State, t: Token, a: ProducerStep)
    requires LanesInv(s.host) && ProducerEnabled(s, t, a)
    ensures LanesInv(ProducerApply(s, t, a).host)
  {
    if a.Lookup? && !Live(s, s.book.ops[t].key) {
      CreatedLaneInv(s, s.book.ops[t].key);
      ReplaceLaneInv(s.host, a.newId, CreatedLane(s, s.book.ops[t].key));
    }
  }

  lemma HandoffLanes(s: State, t: Token, a: HandoffStep)
    requires LanesInv(s.host) && HandoffEnabled(s, t, a)
    ensures LanesInv(HandoffApply(s, t, a).host)
  {
    var pc := s.book.ops[t].pc;
    if (a.EnqueueRelease? || a.EnqueueStopped?) && !Refuses(s.host.lanes[pc.lane]) {
      assert LaneInv(s.host.lanes[pc.lane]);
      EnqueueInv(s.host.lanes[pc.lane], Release(t), a.EnqueueStopped?);
      ReplaceLaneInv(s.host, pc.lane, Lanes.Enqueue(s.host.lanes[pc.lane], Release(t), a.EnqueueStopped?));
    }
  }

  lemma SectionLanes(s: State, i: SectionId, a: SectionStep)
    requires LanesInv(s.host) && SectionEnabled(s, i, a)
    ensures LanesInv(SectionApply(s, i, a).host)
  {
    if a.EnqueueBarrier? && !Refuses(s.host.lanes[a.lane]) {
      assert LaneInv(s.host.lanes[a.lane]);
      EnqueueInv(s.host.lanes[a.lane], Barrier(i), false);
      ReplaceLaneInv(s.host, a.lane, Lanes.Enqueue(s.host.lanes[a.lane], Barrier(i), false));
    } else if a.CountParked? {
      assert LaneInv(s.host.lanes[a.lane]);
      LeaveBacklogInv(s.host.lanes[a.lane]);
      ReplaceLaneInv(s.host, a.lane, Park(s.host.lanes[a.lane]));
    }
  }

  lemma LoopLanes(s: State, a: LoopStep)
    requires BaseInv(s) && LoopEnabled(s, a)
    ensures LanesInv(LoopApply(s, a).host)
  {
    if !a.LoopExit? {
      var l := if a.RetireCheck? then a.lane else s.host.retiring.value;
      var q := s.host.lanes[l];
      assert LaneInv(q) && LaneFace(s.host, l);
      assert a.RetireCheck? ==> KeyFace(s.host, q.key);
      var q' := LoopApply(s, a).host.lanes[l];
      QuietStepInv(q, q');
      ReplaceLaneInv(s.host, l, q');
    }
  }

  lemma StopLanes(s: State, k: StopId, a: StopStep)
    requires LanesInv(s.host) && StopEnabled(s, k, a)
    ensures LanesInv(StopApply(s, k, a).host)
  {
    if a.CloseLane? {
      assert LaneInv(s.host.lanes[a.lane]);
      QuietStepInv(s.host.lanes[a.lane], Close(s.host.lanes[a.lane]));
      ReplaceLaneInv(s.host, a.lane, Close(s.host.lanes[a.lane]));
    }
  }

  // ----- Every step -----

  lemma StepMap(s: State, a: Step)
    requires MapInv(s.host) && SignalInv(s) && Enabled(s, a)
    ensures MapInv(Apply(s, a).host)
  {
    match a
    case OfProducer(t, o) => ProducerMap(s, t, o);
    case OfSend(t, o) => SendMap(s, t, o);
    case OfHandoff(t, o) => HandoffMap(s, t, o);
    case OfWorker(l, w) => WorkerMap(s, l, w);
    case OfLoop(r) => LoopMap(s, r);
    case OfSection(i, m) => SectionMap(s, i, m);
    case OfStop(k, c) => StopMap(s, k, c);
  }

  lemma StepLanes(s: State, a: Step)
    requires BaseInv(s) && Enabled(s, a)
    ensures LanesInv(Apply(s, a).host)
  {
    match a
    case OfProducer(t, o) => ProducerLanes(s, t, o);
    case OfSend(t, o) => SendLanes(s, t, o);
    case OfHandoff(t, o) => HandoffLanes(s, t, o);
    case OfWorker(l, w) => WorkerLanes(s, l, w);
    case OfLoop(r) => LoopLanes(s, r);
    case OfSection(i, m) => SectionLanes(s, i, m);
    case OfStop(k, c) => StopLanes(s, k, c);
  }

  lemma StepBase(s: State, a: Step)
    requires BaseInv(s) && Enabled(s, a)
    ensures BaseInv(Apply(s, a))
  {
    StepMap(s, a);
    StepLanes(s, a);
    StepSignals(s, a);
  }
}
