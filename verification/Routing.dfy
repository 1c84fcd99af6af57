/** Which lane serves which operation, and when a handle release may run outside the lanes.

    Ordering per account rests on two facts: every operation is accepted by the lane of its own routing
    key, and a release that finds no lane to go to does not overtake anything that such a lane accepted. */
module Routing {
  import opened Lanes
  import opened Dispatcher
  import opened Wrappers
  import opened LaneMap
  import opened Ownership
  import opened Releases
  import opened Outcomes
  import opened Safety

  /** The lane that the operation is at has the operation's key; and the lane that a stopped release was
      sent to is not retired. */
  predicate AtOwnLane(h: Host, op: Op) {
    && (LaneOf(op.pc).Some? ==> LaneOf(op.pc).value in h.lanes && h.lanes[LaneOf(op.pc).value].key == op.key)
    && (op.pc.AfterStopLane? ==> op.pc.lane in h.lanes && !h.lanes[op.pc.lane].retired)
  }

  ghost predicate RoutedInv(s: State) {
    forall t {:trigger AtOwnLane(s.host, s.book.ops[t])} :: t in s.book.ops ==> AtOwnLane(s.host, s.book.ops[t])
  }

  /** Lanes keep their keys, and only the idle scan retires them. */
  predicate SameKeys(h: Host, h': Host) {
    forall l :: l in h.lanes ==> l in h'.lanes && h'.lanes[l].key == h.lanes[l].key && (h'.lanes[l].retired ==> h.lanes[l].retired)
  }

  lemma OneMoves(s: State, s': State, t: Token)
    requires RoutedInv(s) && SameKeys(s.host, s'.host) && t in s'.book.ops
    requires s'.book.ops == s.book.ops[t := s'.book.ops[t]] && AtOwnLane(s'.host, s'.book.ops[t])
    ensures RoutedInv(s')
  {
    forall u | u in s'.book.ops ensures AtOwnLane(s'.host, s'.book.ops[u]) {
      if u != t { assert AtOwnLane(s.host, s.book.ops[u]); }
    }
  }

  lemma NoneMoves(s: State, s': State)
    requires RoutedInv(s) && SameKeys(s.host, s'.host) && s'.book.ops == s.book.ops
    ensures RoutedInv(s')
  {
    forall u | u in s'.book.ops ensures AtOwnLane(s'.host, s'.book.ops[u]) {
      assert AtOwnLane(s.host, s.book.ops[u]);
    }
  }

  lemma ProducerKeepsKeys(s: State, t: Token, a: ProducerStep)
    requires ProducerEnabled(s, t, a)
    ensures SameKeys(s.host, ProducerApply(s, t, a).host)
  {
  }

  lemma ProducerRouted(s: State, t: Token, a: ProducerStep)
    requires MapInv(s.host) && RoutedInv(s) && ProducerEnabled(s, t, a)
    ensures RoutedInv(ProducerApply(s, t, a))
  {
    var s' := ProducerApply(s, t, a);
    ProducerKeepsKeys(s, t, a);
    if a.EndSubmit? || a.CheckFence? {
      NoneMoves(s, s');
    } else {
      if a.Lookup? { LookupFindsOwn(s, t, a.newId); }
      OneMoves(s, s', t);
    }
  }

  lemma LookupFindsOwn(s: State, t: Token, newId: LaneId)
    requires MapInv(s.host) && ProducerEnabled(s, t, Lookup(newId))
    ensures var s' := ProducerApply(s, t, Lookup(newId)); t in s'.book.ops && AtOwnLane(s'.host, s'.book.ops[t])
  {
    var key := s.book.ops[t].key;
    assert key in s.host.queues ==> KeyFace(s.host, key);
  }

  lemma SendRouted(s: State, t: Token, a: SendStep)
    requires RoutedInv(s) && SendEnabled(s, t, a)
    ensures RoutedInv(SendApply(s, t, a))
  {
    assert AtOwnLane(s.host, s.book.ops[t]);
    OneMoves(s, SendApply(s, t, a), t);
  }

  lemma HandoffKeepsKeys(s: State, t: Token, a: HandoffStep)
    requires HandoffEnabled(s, t, a)
    ensures SameKeys(s.host, HandoffApply(s, t, a).host)
  {
    if !a.EnqueueRelease? && !a.EnqueueStopped? {
      assert HandoffApply(s, t, a).host.lanes == s.host.lanes;
    }
  }

  lemma HandoffAtOwn(s: State, t: Token, a: HandoffStep)
    requires MapInv(s.host) && HandoffEnabled(s, t, a) && AtOwnLane(s.host, s.book.ops[t])
    ensures var s' := HandoffApply(s, t, a); t in s'.book.ops && AtOwnLane(s'.host, s'.book.ops[t])
  {
    var key := s.book.ops[t].key;
    assert key in s.host.queues ==> KeyFace(s.host, key);
  }

  lemma HandoffRouted(s: State, t: Token, a: HandoffStep)
    requires MapInv(s.host) && RoutedInv(s) && HandoffEnabled(s, t, a)
    ensures RoutedInv(HandoffApply(s, t, a))
  {
    assert AtOwnLane(s.host, s.book.ops[t]);
    HandoffKeepsKeys(s, t, a);
    HandoffAtOwn(s, t, a);
    OneMoves(s, HandoffApply(s, t, a), t);
  }

  lemma WorkerKeepsKeys(s: State, l: LaneId, a: WorkerStep)
    requires WorkerEnabled(s, l, a)
    ensures SameKeys(s.host, WorkerApply(s, l, a).host)
  {
    var q, q' := s.host.lanes[l], WorkerApply(s, l, a).host.lanes[l];
    match a
    case Take => assert Lanes.Take(q, s.sig.fence, s.sig.hard).retired == q.retired;
    case PollMiss => assert Lanes.PollMiss(q, s.sig.fence).retired == q.retired;
    case Receive => assert Lanes.Receive(q, s.sig.hard).retired == q.retired;
    case _ => assert q'.retired == q.retired && q'.key == q.key;
  }

  lemma WorkerRouted(s: State, l: LaneId, a: WorkerStep)
    requires RoutedInv(s) && WorkerEnabled(s, l, a)
    ensures RoutedInv(WorkerApply(s, l, a))
  {
    var q := s.host.lanes[l];
    WorkerKeepsKeys(s, l, a);
    if a.FinishTask? || a.FinishMandatory? {
      OneMoves(s, WorkerApply(s, l, a), q.worker.token);
    } else if a.DrainOne? {
      OneMoves(s, WorkerApply(s, l, a), q.ch[0]);
    } else {
      NoneMoves(s, WorkerApply(s, l, a));
    }
  }

  lemma SectionKeepsKeys(s: State, i: SectionId, a: SectionStep)
    requires SectionEnabled(s, i, a)
    ensures SameKeys(s.host, SectionApply(s, i, a).host)
  {
    if !a.EnqueueBarrier? && !a.CountParked? {
      assert SectionApply(s, i, a).host.lanes == s.host.lanes;
    }
  }

  lemma SectionRouted(s: State, i: SectionId, a: SectionStep)
    requires RoutedInv(s) && SectionEnabled(s, i, a)
    ensures RoutedInv(SectionApply(s, i, a))
  {
    SectionKeepsKeys(s, i, a);
    SectionBook(s, i, a);
    if a.RunRelease? {
      OneMoves(s, SectionApply(s, i, a), s.ex.sections[i].batch[0]);
    } else {
      NoneMoves(s, SectionApply(s, i, a));
    }
  }

  /** Once a lane is sealed, the stop has not been signalled yet, so no stopped release was sent to one. */
  lemma LoopRouted(s: State, a: LoopStep)
    requires SignalInv(s) && OpsInv(s) && RoutedInv(s) && LoopEnabled(s, a)
    ensures RoutedInv(LoopApply(s, a))
  {
    var s' := LoopApply(s, a);
    forall u | u in s'.book.ops ensures AtOwnLane(s'.host, s'.book.ops[u]) {
      assert AtOwnLane(s.host, s.book.ops[u]) && OpFace(s.host, s.sig, u, s.book.ops[u]);
    }
  }

  lemma StopRouted(s: State, k: StopId, a: StopStep)
    requires RoutedInv(s) && StopEnabled(s, k, a)
    ensures RoutedInv(StopApply(s, k, a))
  {
    NoneMoves(s, StopApply(s, k, a));
  }

  lemma StepRouted(s: State, a: Step)
    requires Inv(s) && RoutedInv(s) && Enabled(s, a)
    ensures RoutedInv(Apply(s, a))
  {
    match a
    case OfProducer(t, o) => ProducerRouted(s, t, o);
    case OfSend(t, o) => SendRouted(s, t, o);
    case OfHandoff(t, o) => HandoffRouted(s, t, o);
    case OfWorker(l, w) => WorkerRouted(s, l, w);
    case OfLoop(r) => LoopRouted(s, r);
    case OfSection(i, m) => SectionRouted(s, i, m);
    case OfStop(k, c) => StopRouted(s, k, c);
  }

  lemma {:induction false} RunRouted(s: State, run: seq<Step>)
    requires Inv(s) && RoutedInv(s) && Runs(s, run)
    ensures Inv(After(s, run)) && RoutedInv(After(s, run))
    decreases |run|
  {
    if run != [] {
      StepInv(s, run[0]);
      StepRouted(s, run[0]);
      RunRouted(Apply(s, run[0]), run[1..]);
    }
  }

  /** In every run, whatever lane an operation is at, queued on or owed by, is the lane of its own key. */
  lemma EachAtItsOwnLane(s: State, run: seq<Step>, t: Token)
    requires Init(s) && Runs(s, run) && t in After(s, run).book.ops && LaneOf(After(s, run).book.ops[t].pc).Some?
    ensures var e := After(s, run);
            var l := LaneOf(e.book.ops[t].pc).value;
            l in e.host.lanes && e.host.lanes[l].key == e.book.ops[t].key
  {
    InitInv(s);
    RunRouted(s, run);
    assert AtOwnLane(After(s, run).host, After(s, run).book.ops[t]);
  }

  /** In every run, a lookup finds a lane of the operation's key that is open. */
  lemma LookupFindsOpen(s: State, run: seq<Step>, t: Token, newId: LaneId)
    requires Init(s) && Runs(s, run) && ProducerEnabled(After(s, run), t, Lookup(newId))
    ensures var e := ProducerApply(After(s, run), t, Lookup(newId));
            && t in e.book.ops && LaneOf(e.book.ops[t].pc).Some?
            && var l := LaneOf(e.book.ops[t].pc).value;
            l in e.host.lanes && e.host.lanes[l].key == e.book.ops[t].key && !e.host.lanes[l].closed
  {
    InitInv(s);
    RunInv(s, run);
    LookupFindsOwn(After(s, run), t, newId);
  }

  // ----- Releases outside the lanes -----

  /** The release has no lane to go to. */
  predicate Outside(pc: OpPc) {
    pc.NoLane? || pc.OffLane? || pc.Tracked? || pc.Untracked? || pc.Postponed?
  }

  lemma UnmappedKeyIsQuiet(h: Host, l: LaneId)
    requires LanesInv(h) && MapInv(h) && l in h.lanes && h.lanes[l].key !in h.queues
    ensures AcceptedWork(h.lanes[l]) == []
  {
    assert LaneFace(h, l) && LaneInv(h.lanes[l]);
  }

  lemma RefusedKeyIsQuiet(h: Host, m: LaneId, l: LaneId)
    requires LanesInv(h) && MapInv(h) && l in h.lanes && m in h.lanes && h.lanes[l].key == h.lanes[m].key
    requires Refuses(h.lanes[m]) && !h.lanes[m].retired
    ensures AcceptedWork(h.lanes[l]) == []
  {
    assert LaneFace(h, l) && LaneInv(h.lanes[l]) && LaneFace(h, m) && LaneInv(h.lanes[m]);
  }

  lemma GoesOutside(s: State, t: Token, a: HandoffStep, l: LaneId)
    requires BaseInv(s) && RoutedInv(s) && HandoffEnabled(s, t, a) && l in s.host.lanes && s.host.lanes[l].key == s.book.ops[t].key
    requires !Outside(s.book.ops[t].pc) && Outside(PcOf(HandoffApply(s, t, a).book, t))
    ensures AcceptedWork(s.host.lanes[l]) == []
  {
    var key := s.book.ops[t].key;
    assert AtOwnLane(s.host, s.book.ops[t]);
    if a.EnqueueStopped? {
      RefusedKeyIsQuiet(s.host, s.book.ops[t].pc.lane, l);
    } else {
      assert a.CleanupWithoutLane? || a.FindStopped?;
      if key in s.host.queues && a.CleanupWithoutLane? { MappedIsLive(s, key); }
      UnmappedKeyIsQuiet(s.host, l);
    }
  }

  lemma OnlyHandoffGoesOutside(s: State, a: Step, t: Token)
    requires Enabled(s, a) && !(a.OfHandoff? && a.token == t) && !Outside(PcOf(s.book, t))
    ensures !Outside(PcOf(Apply(s, a).book, t))
  {
    match a
    case OfProducer(u, o) => ProducerStaysIn(s, u, o, t);
    case OfSend(u, o) => SendStaysIn(s, u, o, t);
    case OfHandoff(u, o) => HandoffLeavesOthers(s, u, o, t);
    case OfWorker(l, w) => WorkerStaysIn(s, l, w, t);
    case OfLoop(r) => assert LoopApply(s, r).book == s.book;
    case OfSection(i, m) => SectionBook(s, i, m);
    case OfStop(k, c) => assert StopApply(s, k, c).book == s.book;
  }

  lemma ProducerStaysIn(s: State, u: Token, a: ProducerStep, t: Token)
    requires ProducerEnabled(s, u, a) && !Outside(PcOf(s.book, t))
    ensures !Outside(PcOf(ProducerApply(s, u, a).book, t))
  {
  }

  lemma SendStaysIn(s: State, u: Token, a: SendStep, t: Token)
    requires SendEnabled(s, u, a) && !Outside(PcOf(s.book, t))
    ensures !Outside(PcOf(SendApply(s, u, a).book, t))
  {
  }

  lemma HandoffLeavesOthers(s: State, u: Token, a: HandoffStep, t: Token)
    requires HandoffEnabled(s, u, a)
    ensures u != t ==> PcOf(HandoffApply(s, u, a).book, t) == PcOf(s.book, t)
  {
  }

  lemma WorkerStaysIn(s: State, l: LaneId, a: WorkerStep, t: Token)
    requires WorkerEnabled(s, l, a) && !Outside(PcOf(s.book, t))
    ensures !Outside(PcOf(WorkerApply(s, l, a).book, t))
  {
  }

  /** In every run, when a release turns away from the lanes, no task of its key is accepted and not yet over:
      it overtakes nothing. */
  lemma OutsideComesLast(s: State, run: seq<Step>, a: Step, t: Token, u: Token)
    requires Init(s) && Runs(s, run) && Enabled(After(s, run), a)
    requires !Outside(PcOf(After(s, run).book, t)) && Outside(PcOf(Apply(After(s, run), a).book, t))
    requires t in After(s, run).book.ops && u in After(s, run).book.ops
    requires After(s, run).book.ops[u].key == After(s, run).book.ops[t].key
    ensures !After(s, run).book.ops[u].pc.Queued?
  {
    InitInv(s);
    RunRouted(s, run);
    var e := After(s, run);
    if !(a.OfHandoff? && a.token == t) {
      OnlyHandoffGoesOutside(e, a, t);
    } else if e.book.ops[u].pc.Queued? {
      var l := e.book.ops[u].pc.lane;
      assert AtOwnLane(e.host, e.book.ops[u]);
      assert Own(e.host.lanes[l], l, u, PcOf(e.book, u));
      GoesOutside(e, t, a.handoff, l);
    }
  }

  /** In every run, a submit is turned away for the number of queues only when the map is full and has no
      queue for its key. */
  lemma LimitMeansFull(s: State, run: seq<Step>, t: Token)
    requires Init(s) && Runs(s, run) && ProducerEnabled(After(s, run), t, SeeLimit)
    ensures var e := After(s, run);
            && e.host.maxQueues > 0 && |e.host.queues| == e.host.maxQueues
            && e.book.ops[t].key !in e.host.queues
  {
    InitInv(s);
    RunInv(s, run);
    var e := After(s, run);
    if e.book.ops[t].key in e.host.queues { MappedIsLive(e, e.book.ops[t].key); }
  }

  // ----- Why a submit fails, and when a release runs behind a key barrier -----

  /** The step turns t away for a reason of its own: the stop, a full map, or its context. */
  predicate TurnsAway(s: State, a: Step, t: Token) {
    || s.sig.stopped
    || a == OfProducer(t, SeeLimit)
    || a == OfSend(t, GiveUp)
    || a == OfSend(t, SendStep.Abandon)
  }

  lemma ProducerTurnsAway(s: State, u: Token, a: ProducerStep, t: Token)
    requires ProducerEnabled(s, u, a) && !PcOf(s.book, t).Failed?
    ensures PcOf(ProducerApply(s, u, a).book, t).Failed? ==> TurnsAway(s, OfProducer(u, a), t)
  {
  }

  lemma SendTurnsAway(s: State, u: Token, a: SendStep, t: Token)
    requires SendEnabled(s, u, a) && !PcOf(s.book, t).Failed?
    ensures PcOf(SendApply(s, u, a).book, t).Failed? ==> TurnsAway(s, OfSend(u, a), t)
  {
  }

  lemma StepTurnsAway(s: State, a: Step, t: Token)
    requires Enabled(s, a) && !PcOf(s.book, t).Failed?
    ensures PcOf(Apply(s, a).book, t).Failed? ==> TurnsAway(s, a, t)
  {
    match a
    case OfProducer(u, o) => ProducerTurnsAway(s, u, o, t);
    case OfSend(u, o) => SendTurnsAway(s, u, o, t);
    case OfHandoff(u, o) => HandoffNeverFails(s, u, o, t);
    case OfWorker(l, w) => WorkerNeverFails(s, l, w, t);
    case OfLoop(r) => assert LoopApply(s, r).book == s.book;
    case OfSection(i, m) => SectionBook(s, i, m);
    case OfStop(k, c) => assert StopApply(s, k, c).book == s.book;
  }

  lemma HandoffNeverFails(s: State, u: Token, a: HandoffStep, t: Token)
    requires HandoffEnabled(s, u, a) && !PcOf(s.book, t).Failed?
    ensures !PcOf(HandoffApply(s, u, a).book, t).Failed?
  {
  }

  lemma WorkerNeverFails(s: State, l: LaneId, a: WorkerStep, t: Token)
    requires WorkerEnabled(s, l, a) && !PcOf(s.book, t).Failed?
    ensures !PcOf(WorkerApply(s, l, a).book, t).Failed?
  {
  }

  /** In every run, a submit fails only because of the stop, of a full map without a queue for its key, or of
      its own context. Losing a race with a retirement is no reason: it looks again. */
  lemma SubmitFailsForAReason(s: State, run: seq<Step>, a: Step, t: Token)
    requires Init(s) && Runs(s, run) && Enabled(After(s, run), a)
    requires !PcOf(After(s, run).book, t).Failed? && PcOf(Apply(After(s, run), a).book, t).Failed?
    ensures var e := After(s, run);
            || e.sig.stopped
            || (t in e.book.ops && e.host.maxQueues > 0 && |e.host.queues| == e.host.maxQueues && e.book.ops[t].key !in e.host.queues)
            || a == OfSend(t, GiveUp)
            || a == OfSend(t, SendStep.Abandon)
  {
    StepTurnsAway(After(s, run), a, t);
    if a == OfProducer(t, SeeLimit) { LimitMeansFull(s, run, t); }
  }

  /** On the way to running a release behind a key barrier, or there. */
  predicate TowardsBarrier(pc: OpPc) {
    pc.SchedLimit? || pc.SchedLimitBegun? || pc.OffLane?
  }

  lemma ProducerTowards(s: State, u: Token, a: ProducerStep, t: Token)
    requires ProducerEnabled(s, u, a)
    ensures TowardsBarrier(PcOf(ProducerApply(s, u, a).book, t)) ==> TowardsBarrier(PcOf(s.book, t)) || (u == t && a.SeeLimit?)
  {
  }

  lemma SendTowards(s: State, u: Token, a: SendStep, t: Token)
    requires SendEnabled(s, u, a)
    ensures TowardsBarrier(PcOf(SendApply(s, u, a).book, t)) ==> TowardsBarrier(PcOf(s.book, t))
  {
  }

  lemma HandoffTowards(s: State, u: Token, a: HandoffStep, t: Token)
    requires HandoffEnabled(s, u, a)
    ensures TowardsBarrier(PcOf(HandoffApply(s, u, a).book, t)) ==> TowardsBarrier(PcOf(s.book, t))
  {
  }

  lemma WorkerTowards(s: State, l: LaneId, a: WorkerStep, t: Token)
    requires WorkerEnabled(s, l, a)
    ensures TowardsBarrier(PcOf(WorkerApply(s, l, a).book, t)) ==> TowardsBarrier(PcOf(s.book, t))
  {
  }

  lemma StepTowards(s: State, a: Step, t: Token)
    requires Enabled(s, a)
    ensures TowardsBarrier(PcOf(Apply(s, a).book, t)) ==> TowardsBarrier(PcOf(s.book, t)) || a == OfProducer(t, SeeLimit)
  {
    match a
    case OfProducer(u, o) => ProducerTowards(s, u, o, t);
    case OfSend(u, o) => SendTowards(s, u, o, t);
    case OfHandoff(u, o) => HandoffTowards(s, u, o, t);
    case OfWorker(l, w) => WorkerTowards(s, l, w, t);
    case OfLoop(r) => assert LoopApply(s, r).book == s.book;
    case OfSection(i, m) => SectionBook(s, i, m);
    case OfStop(k, c) => assert StopApply(s, k, c).book == s.book;
  }

  /** In every run, a release runs behind a key barrier only if it found the map full. */
  lemma {:induction false} BarrierOnlyAtLimit(s: State, run: seq<Step>, t: Token)
    requires Runs(s, run) && !TowardsBarrier(PcOf(s.book, t)) && TowardsBarrier(PcOf(After(s, run).book, t))
    ensures OfProducer(t, SeeLimit) in run
    decreases |run|
  {
    StepTowards(s, run[0], t);
    assert run == [run[0]] + run[1..];
    if run[0] != OfProducer(t, SeeLimit) {
      BarrierOnlyAtLimit(Apply(s, run[0]), run[1..], t);
    }
  }
}
