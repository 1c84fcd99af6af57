/** The order between accepted tasks of a lane and the handle releases queued behind them, and the
    submit fence, for every run. */
module Order {
  import opened Lanes
  import opened Dispatcher
  import opened Wrappers
  import opened LaneMap
  import opened Sections
  import opened Ownership
  import opened Releases
  import opened Safety
  import opened Outcomes

  ghost predicate LanesOrdered(h: Host) {
    forall l {:trigger RacersInv(h.lanes[l])} :: l in h.lanes ==> RacersInv(h.lanes[l])
  }

  ghost predicate OrderInv(s: State) {
    !s.sig.stopped ==> LanesOrdered(s.host)
  }

  lemma InitOrder(s: State)
    requires Init(s)
    ensures OrderInv(s)
  {
    forall l | l in s.host.lanes ensures RacersInv(s.host.lanes[l]) {
      assert s.host.lanes[l] == NewLane(s.host.lanes[l].key, s.host.capacity);
    }
  }

  lemma OneLaneOrdered(h: Host, h': Host, l: LaneId)
    requires LanesOrdered(h) && l in h'.lanes && h'.lanes == h.lanes[l := h'.lanes[l]] && RacersInv(h'.lanes[l])
    ensures LanesOrdered(h')
  {
    forall m | m in h'.lanes ensures RacersInv(h'.lanes[m]) {
      assert m == l || RacersInv(h.lanes[m]);
    }
  }

  lemma SendOrder(s: State, t: Token, a: SendStep)
    requires OrderInv(s) && SendEnabled(s, t, a)
    ensures OrderInv(SendApply(s, t, a))
  {
    var s' := SendApply(s, t, a);
    if !s.sig.stopped {
      var l := s.book.ops[t].pc.lane;
      assert RacersInv(s.host.lanes[l]);
      if a.PassFence? {
        PassFenceRacers(s.host.lanes[l], t);
      } else if a.Send? {
        SendRacers(s.host.lanes[l], t);
      } else if a.Abandon? {
        QuietStepRacers(s.host.lanes[l], s'.host.lanes[l]);
      } else {
        SameBacklogRacers(s.host.lanes[l], s'.host.lanes[l]);
      }
      OneLaneOrdered(s.host, s'.host, l);
    }
  }

  lemma WorkerOrder(s: State, l: LaneId, a: WorkerStep)
    requires OrderInv(s) && WorkerEnabled(s, l, a)
    ensures OrderInv(WorkerApply(s, l, a))
  {
    var s' := WorkerApply(s, l, a);
    if !s.sig.stopped {
      assert RacersInv(s.host.lanes[l]);
      if a.Take? {
        TakeRacers(s.host.lanes[l], s.sig.fence, s.sig.hard);
      } else if a.PollMiss? {
        PollMissRacers(s.host.lanes[l], s.sig.fence);
      } else {
        SameBacklogRacers(s.host.lanes[l], s'.host.lanes[l]);
      }
      OneLaneOrdered(s.host, s'.host, l);
    }
  }

  lemma HandoffOrder(s: State, t: Token, a: HandoffStep)
    requires OpsInv(s) && OrderInv(s) && HandoffEnabled(s, t, a)
    ensures OrderInv(HandoffApply(s, t, a))
  {
    var s' := HandoffApply(s, t, a);
    assert OpFace(s.host, s.sig, t, s.book.ops[t]);
    if !s.sig.stopped {
      if a.EnqueueRelease? && !Refuses(s.host.lanes[s.book.ops[t].pc.lane]) {
        var l := s.book.ops[t].pc.lane;
        assert RacersInv(s.host.lanes[l]);
        EnqueueRacers(s.host.lanes[l], Release(t));
        OneLaneOrdered(s.host, s'.host, l);
      } else {
        assert s'.host.lanes == s.host.lanes;
      }
    }
  }

  lemma ProducerOrder(s: State, t: Token, a: ProducerStep)
    requires OrderInv(s) && ProducerEnabled(s, t, a)
    ensures OrderInv(ProducerApply(s, t, a))
  {
    if a.Lookup? && !Live(s, s.book.ops[t].key) && !s.sig.stopped {
      OneLaneOrdered(s.host, ProducerApply(s, t, a).host, a.newId);
    }
  }

  lemma LoopOrder(s: State, a: LoopStep)
    requires OrderInv(s) && LoopEnabled(s, a)
    ensures OrderInv(LoopApply(s, a))
  {
    if !s.sig.stopped && !a.LoopExit? {
      var l := if a.RetireCheck? then a.lane else s.host.retiring.value;
      assert RacersInv(s.host.lanes[l]);
      SameBacklogRacers(s.host.lanes[l], LoopApply(s, a).host.lanes[l]);
      OneLaneOrdered(s.host, LoopApply(s, a).host, l);
    }
  }

  lemma SectionOrder(s: State, i: SectionId, a: SectionStep)
    requires OrderInv(s) && SectionEnabled(s, i, a)
    ensures OrderInv(SectionApply(s, i, a))
  {
    var s' := SectionApply(s, i, a);
    if !s.sig.stopped {
      if a.EnqueueBarrier? && !Refuses(s.host.lanes[a.lane]) {
        assert RacersInv(s.host.lanes[a.lane]);
        EnqueueRacers(s.host.lanes[a.lane], Barrier(i));
        OneLaneOrdered(s.host, s'.host, a.lane);
      } else if a.CountParked? {
        assert RacersInv(s.host.lanes[a.lane]);
        SameBacklogRacers(s.host.lanes[a.lane], s'.host.lanes[a.lane]);
        OneLaneOrdered(s.host, s'.host, a.lane);
      } else {
        assert s'.host.lanes == s.host.lanes;
      }
    }
  }

  lemma StopOrder(s: State, k: StopId, a: StopStep)
    requires OrderInv(s) && SignalInv(s) && StopEnabled(s, k, a)
    ensures OrderInv(StopApply(s, k, a))
  {
    var s' := StopApply(s, k, a);
    if !s'.sig.stopped {
      assert k in s.st.stoppers ==> StopperInv(s, s.st.stoppers[k].pc);
      assert s'.host.lanes == s.host.lanes;
    }
  }

  lemma StepOrder(s: State, a: Step)
    requires Inv(s) && OrderInv(s) && Enabled(s, a)
    ensures OrderInv(Apply(s, a))
  {
    match a
    case OfProducer(t, o) => ProducerOrder(s, t, o);
    case OfSend(t, o) => SendOrder(s, t, o);
    case OfHandoff(t, o) => HandoffOrder(s, t, o);
    case OfWorker(l, w) => WorkerOrder(s, l, w);
    case OfLoop(r) => LoopOrder(s, r);
    case OfSection(i, m) => SectionOrder(s, i, m);
    case OfStop(k, c) => StopOrder(s, k, c);
  }

  lemma {:induction false} RunOrder(s: State, run: seq<Step>)
    requires Inv(s) && OrderInv(s) && Runs(s, run)
    ensures Inv(After(s, run)) && OrderInv(After(s, run))
    decreases |run|
  {
    if run != [] {
      StepInv(s, run[0]);
      StepOrder(s, run[0]);
      RunOrder(Apply(s, run[0]), run[1..]);
    }
  }

  /** When a lane takes an entry from its backlog, every task accepted before the entry was
      queued has been handled; and until a stop, a task that was accepted after a release was
      queued belongs to a submit that was already past the fence when the release arrived. */
  lemma ReleaseKeepsItsPlace(s: State, run: seq<Step>, l: LaneId)
    requires Init(s) && Runs(s, run) && WorkerEnabled(After(s, run), l, Take)
    ensures var s' := After(s, run);
            var q := s'.host.lanes[l];
            && 0 <= q.backlog[0].after <= Served(q) <= |q.accepted|
            && q.accepted[Served(q)..] == AcceptedWork(q)
            && (!s'.sig.stopped && q.backlog[0].work.Release? ==>
                  forall t :: t in q.accepted[q.backlog[0].after..] ==> t in q.backlog[0].racers)
  {
    InitInv(s);
    InitOrder(s);
    RunOrder(s, run);
    var s' := After(s, run);
    var q := s'.host.lanes[l];
    assert LaneInv(q);
    assert EntryInv(q, q.backlog[0]);
    TakeWaitsForAcceptedWork(q, s'.sig.fence);
    if !s'.sig.stopped && q.backlog[0].work.Release? {
      assert RacersInv(q) && Overtaken(q, q.backlog[0]);
    }
  }

  // ----- The submit fence -----

  ghost predicate FenceQuiet(g: Signals) {
    g.fence ==> g.stopped && g.inFlight == {}
  }

  /** endSubmit saw zero, another producer registered, the stop came, and then endSubmit looks. */
  predicate RacyCheck(s: State, a: Step) {
    a.OfProducer? && a.call.CheckFence? && s.sig.stopped && s.sig.inFlight != {}
  }

  /** Exactly which step breaks the fence's promise that no registered producer is left behind it. */
  lemma StepFence(s: State, a: Step)
    requires FenceQuiet(s.sig) && Enabled(s, a)
    ensures FenceQuiet(Apply(s, a).sig) <==> !RacyCheck(s, a)
  {
    match a
    case OfProducer(t, o) => ProducerFence(s, t, o);
    case OfSend(t, o) => assert SendApply(s, t, o).sig == s.sig;
    case OfHandoff(t, o) => assert HandoffApply(s, t, o).sig.stopped == s.sig.stopped;
    case OfWorker(l, w) => assert WorkerApply(s, l, w).sig == s.sig;
    case OfLoop(r) => assert LoopApply(s, r).sig.stopped == s.sig.stopped;
    case OfSection(i, m) => assert SectionApply(s, i, m).sig == s.sig;
    case OfStop(k, c) => StopLate(s, k, c);
  }

  lemma ProducerFence(s: State, t: Token, a: ProducerStep)
    requires FenceQuiet(s.sig) && ProducerEnabled(s, t, a)
    ensures FenceQuiet(ProducerApply(s, t, a).sig) <==> !RacyCheck(s, OfProducer(t, a))
  {
  }

  ghost predicate CleanFence(s: State, run: seq<Step>)
    requires Runs(s, run)
    decreases |run|
  {
    run != [] ==> !RacyCheck(s, run[0]) && CleanFence(Apply(s, run[0]), run[1..])
  }

  /** In every state of the run, a closed fence has no registered producer behind it. */
  ghost predicate AlwaysFenced(s: State, run: seq<Step>)
    requires Runs(s, run)
    decreases |run|
  {
    FenceQuiet(s.sig) && (run != [] ==> AlwaysFenced(Apply(s, run[0]), run[1..]))
  }

  lemma {:induction false} FenceRuns(s: State, run: seq<Step>)
    requires FenceQuiet(s.sig) && Runs(s, run)
    ensures AlwaysFenced(s, run) <==> CleanFence(s, run)
    ensures CleanFence(s, run) ==> FenceQuiet(After(s, run).sig)
    decreases |run|
  {
    if run != [] {
      StepFence(s, run[0]);
      if !RacyCheck(s, run[0]) {
        FenceRuns(Apply(s, run[0]), run[1..]);
      }
    }
  }

  // Where a racy check comes from.

  /** Some submit is registered by a step of the run. */
  ghost predicate Registers(s: State, run: seq<Step>)
    requires Runs(s, run)
    decreases |run|
  {
    run != [] && ((run[0].OfProducer? && run[0].call.BeginSubmit? && !s.sig.stopped) || Registers(Apply(s, run[0]), run[1..]))
  }

  /** Ending its submit, t left nobody in flight, and after that somebody was registered. */
  ghost predicate Overrun(s: State, run: seq<Step>, t: Token)
    requires Runs(s, run)
    decreases |run|
  {
    run != [] &&
      ((run[0] == OfProducer(t, EndSubmit) && Apply(s, run[0]).sig.inFlight == {} && Registers(Apply(s, run[0]), run[1..]))
       || Overrun(Apply(s, run[0]), run[1..], t))
  }

  lemma ProducerChecks(s: State, t: Token, a: ProducerStep)
    requires ProducerEnabled(s, t, a)
    ensures var g := ProducerApply(s, t, a).sig;
            && (forall u :: u in g.checking && u !in s.sig.checking ==> u == t && a.EndSubmit? && g.inFlight == {})
            && (s.sig.inFlight == {} && g.inFlight != {} ==> a.BeginSubmit? && !s.sig.stopped)
  {
  }

  lemma StepChecks(s: State, a: Step, t: Token)
    requires Enabled(s, a)
    ensures var g := Apply(s, a).sig;
            && (t in g.checking && t !in s.sig.checking ==> a == OfProducer(t, EndSubmit) && g.inFlight == {})
            && (s.sig.inFlight == {} && g.inFlight != {} ==> a.OfProducer? && a.call.BeginSubmit? && !s.sig.stopped)
  {
    match a
    case OfProducer(u, o) => ProducerChecks(s, u, o);
    case OfSend(u, o) => assert SendApply(s, u, o).sig == s.sig;
    case OfHandoff(u, o) => assert HandoffApply(s, u, o).sig.checking == s.sig.checking;
    case OfWorker(l, w) => assert WorkerApply(s, l, w).sig == s.sig;
    case OfLoop(r) => assert LoopApply(s, r).sig.checking == s.sig.checking;
    case OfSection(i, m) => assert SectionApply(s, i, m).sig == s.sig;
    case OfStop(k, c) => assert StopApply(s, k, c).sig.checking == s.sig.checking;
  }

  lemma {:induction false} NobodyRegistered(s: State, run: seq<Step>)
    requires Runs(s, run) && s.sig.inFlight == {} && !Registers(s, run)
    ensures After(s, run).sig.inFlight == {}
    decreases |run|
  {
    if run != [] {
      StepChecks(s, run[0], 0);
      NobodyRegistered(Apply(s, run[0]), run[1..]);
    }
  }

  lemma {:induction false} RunOverrun(s: State, run: seq<Step>, t: Token)
    requires Runs(s, run) && t !in s.sig.checking && t in After(s, run).sig.checking && After(s, run).sig.inFlight != {}
    ensures Overrun(s, run, t)
    decreases |run|
  {
    var m := Apply(s, run[0]);
    StepChecks(s, run[0], t);
    if t in m.sig.checking {
      if !Registers(m, run[1..]) { NobodyRegistered(m, run[1..]); }
    } else {
      RunOverrun(m, run[1..], t);
    }
  }

  /** In every run, a racy check really is one: its producer had left nobody in flight, and another was
      registered before it came to look at the stop signal. */
  lemma RacyCheckIsOverrun(s: State, run: seq<Step>, a: Step)
    requires Init(s) && Runs(s, run) && Enabled(After(s, run), a) && RacyCheck(After(s, run), a)
    ensures Overrun(s, run, a.token)
  {
    RunOverrun(s, run, a.token);
  }

  lemma BarrierFlies(s: State, k: RoutingKey)
    requires OpsInv(s) && k in s.host.barriers
    ensures s.host.barriers[k] in s.sig.inFlight
  {
    assert BarrierFace(s.host, s.book, k);
    assert OpFace(s.host, s.sig, s.host.barriers[k], s.book.ops[s.host.barriers[k]]);
  }

  // Who is left behind a fence that closed too early.

  ghost function NextLate(s: State, a: Step, late: set<Token>): set<Token> {
    if RacyCheck(s, a) then s.sig.inFlight
    else if a.OfProducer? && a.call.EndSubmit? then late - {a.token}
    else late
  }

  /** The producers that were registered when a racy check closed the fence and have not ended since. */
  ghost function Late(s: State, run: seq<Step>, before: set<Token>): set<Token>
    requires Runs(s, run)
    decreases |run|
  {
    if run == [] then before else Late(Apply(s, run[0]), run[1..], NextLate(s, run[0], before))
  }

  ghost predicate LateInv(g: Signals, late: set<Token>) {
    if g.fence then g.stopped && g.inFlight == late else late == {}
  }

  lemma ProducerLate(s: State, t: Token, a: ProducerStep, late: set<Token>)
    requires LateInv(s.sig, late) && ProducerEnabled(s, t, a)
    ensures LateInv(ProducerApply(s, t, a).sig, NextLate(s, OfProducer(t, a), late))
  {
  }

  lemma StepLate(s: State, a: Step, late: set<Token>)
    requires LateInv(s.sig, late) && Enabled(s, a)
    ensures LateInv(Apply(s, a).sig, NextLate(s, a, late))
  {
    match a
    case OfProducer(t, o) => ProducerLate(s, t, o, late);
    case OfSend(t, o) => assert SendApply(s, t, o).sig == s.sig;
    case OfHandoff(t, o) => assert HandoffApply(s, t, o).sig.stopped == s.sig.stopped;
    case OfWorker(l, w) => assert WorkerApply(s, l, w).sig == s.sig;
    case OfLoop(r) => assert LoopApply(s, r).sig.stopped == s.sig.stopped;
    case OfSection(i, m) => assert SectionApply(s, i, m).sig == s.sig;
    case OfStop(k, c) => StopLate(s, k, c);
  }

  lemma StopLate(s: State, k: StopId, a: StopStep)
    requires StopEnabled(s, k, a)
    ensures var g := StopApply(s, k, a).sig;
            && g.inFlight == s.sig.inFlight && (s.sig.stopped ==> g.stopped) && (s.sig.fence ==> g.fence)
            && (g.fence && !s.sig.fence ==> g.stopped && s.sig.inFlight == {})
  {
  }

  lemma {:induction false} RunLate(s: State, run: seq<Step>, late: set<Token>)
    requires LateInv(s.sig, late) && Runs(s, run)
    ensures LateInv(After(s, run).sig, Late(s, run, late))
    decreases |run|
  {
    if run != [] {
      StepLate(s, run[0], late);
      RunLate(Apply(s, run[0]), run[1..], NextLate(s, run[0], late));
    }
  }

  lemma {:induction false} CleanFenceLeavesNobody(s: State, run: seq<Step>)
    requires Runs(s, run) && CleanFence(s, run)
    ensures Late(s, run, {}) == {}
    decreases |run|
  {
    if run != [] {
      assert NextLate(s, run[0], {}) == {};
      CleanFenceLeavesNobody(Apply(s, run[0]), run[1..]);
    }
  }

  /** In every run, the submits still in flight at a released engine are exactly the late ones; every
      release behind a key barrier belongs to one of them, and any other operation is over, has not
      begun, or is a release that started after the stop was sealed. */
  lemma ReleasedEngineLeavesLate(s: State, run: seq<Step>)
    requires Init(s) && Runs(s, run) && After(s, run).st.releases == 1
    ensures var e := After(s, run);
            && e.sig.inFlight == Late(s, run, {})
            && (forall k :: k in e.host.barriers ==> e.host.barriers[k] in Late(s, run, {}))
            && (forall t :: t in e.book.ops && t !in Late(s, run, {}) ==>
                  var pc := e.book.ops[t].pc; (!MustFly(pc) && !Owned(pc)) || pc.Done?)
  {
    InitInv(s);
    RunInv(s, run);
    RunLate(s, run, {});
    var e := After(s, run);
    forall k | k in e.host.barriers ensures e.host.barriers[k] in e.sig.inFlight {
      BarrierFlies(e, k);
    }
    forall t | t in e.book.ops && t !in Late(s, run, {})
      ensures var pc := e.book.ops[t].pc; (!MustFly(pc) && !Owned(pc)) || pc.Done?
    {
      ReleasedOwnsNothing(e, t);
      assert OpFace(e.host, e.sig, t, e.book.ops[t]);
    }
  }

  /** In particular, with no racy check nothing is left in flight. */
  lemma ReleasedEngineIsIdle(s: State, run: seq<Step>, t: Token)
    requires Init(s) && Runs(s, run) && CleanFence(s, run)
    requires After(s, run).st.releases == 1 && t in After(s, run).book.ops
    ensures var pc := After(s, run).book.ops[t].pc;
            (!MustFly(pc) && !Owned(pc)) || pc.Done?
    ensures After(s, run).sig.inFlight == {} && After(s, run).host.barriers == map[]
  {
    ReleasedEngineLeavesLate(s, run);
    CleanFenceLeavesNobody(s, run);
    assert After(s, run).host.barriers.Keys == {};
  }
}
