/** The order that a lane's backlog keeps, stated on the steps of the run.

    Whatever a lane had accepted when a release or a barrier was handed to it is over when the lane
    takes that entry. A release handed over after the stop also waits for everything that producers
    registered before the stop still send, up to the moment the submit fence closes; if the fence
    closes cleanly, nothing at all is left on the lane before it. */
module Places {
  import opened Lanes
  import opened Dispatcher
  import opened LaneMap
  import opened Sections
  import opened Coverage
  import opened Ownership
  import opened Releases
  import opened Outcomes
  import opened Order
  import opened Safety
  import Progress

  // ----- One step of a lane -----

  /** The entry was there before; its target moves only for admissions that are given up. */
  ghost predicate Stays(p: Lane, e: Entry) {
    exists j :: 0 <= j < |p.backlog| && p.backlog[j].work == e.work && p.backlog[j].after == e.after
                && p.backlog[j].fenced == e.fenced && (p.inflight == map[] ==> p.backlog[j].target == e.target)
  }

  /** The fence is closed and the entry waits for all that has been admitted by now. */
  predicate Renewed(p: Lane, e: Entry, fence: bool) {
    fence && !e.fenced && e.after == |p.accepted| && e.target == p.admitted
  }

  /** The entry was put at the end. */
  predicate Joins(p: Lane, q: Lane, k: int)
    requires 0 <= k < |q.backlog|
  {
    k == |p.backlog| && |q.backlog| == |p.backlog| + 1 && q.backlog[k].after == |p.accepted|
  }

  ghost predicate EntryComes(p: Lane, q: Lane, k: int, fence: bool)
    requires 0 <= k < |q.backlog|
  {
    Stays(p, q.backlog[k]) || Renewed(p, q.backlog[k], fence) || Joins(p, q, k)
  }

  ghost predicate Later(p: Lane, q: Lane, fence: bool) {
    && p.accepted <= q.accepted
    && (p.cleared == {} && p.inflight == map[] ==> q.admitted == p.admitted)
    && (forall k {:trigger EntryComes(p, q, k, fence)} :: 0 <= k < |q.backlog| ==> EntryComes(p, q, k, fence))
  }

  lemma SameBacklogLater(p: Lane, q: Lane, fence: bool)
    requires p.accepted <= q.accepted && q.backlog == p.backlog
    requires p.cleared == {} && p.inflight == map[] ==> q.admitted == p.admitted
    ensures Later(p, q, fence)
  {
    forall k | 0 <= k < |q.backlog| ensures EntryComes(p, q, k, fence) {
      assert Stays(p, q.backlog[k]);
    }
  }

  lemma AbandonLater(p: Lane, t: Token, fence: bool)
    requires t in p.inflight
    ensures Later(p, Lanes.Abandon(p, t), fence)
  {
    var q := Lanes.Abandon(p, t);
    forall k | 0 <= k < |q.backlog| ensures EntryComes(p, q, k, fence) {
      assert q.backlog[k].work == p.backlog[k].work && q.backlog[k].after == p.backlog[k].after;
      assert Stays(p, q.backlog[k]);
    }
  }

  lemma EnqueueLater(p: Lane, work: Work, fenced: bool, fence: bool)
    requires !Refuses(p)
    ensures Later(p, Lanes.Enqueue(p, work, fenced), fence)
  {
    var q := Lanes.Enqueue(p, work, fenced);
    forall k | 0 <= k < |q.backlog| ensures EntryComes(p, q, k, fence) {
      if k < |p.backlog| {
        assert q.backlog[k] == p.backlog[k];
        assert Stays(p, q.backlog[k]);
      } else {
        assert Joins(p, q, k);
      }
    }
  }

  lemma TakeLater(p: Lane, fence: bool, hard: bool)
    requires p.worker.Polling? && Ready(p, fence)
    ensures Later(p, Lanes.Take(p, fence, hard), fence)
  {
    var q := Lanes.Take(p, fence, hard);
    forall k | 0 <= k < |q.backlog| ensures EntryComes(p, q, k, fence) {
      assert q.backlog[k] == p.backlog[k + 1];
      assert Stays(p, q.backlog[k]);
    }
  }

  lemma PollMissLater(p: Lane, fence: bool)
    requires p.worker.Polling? && !Ready(p, fence)
    ensures Later(p, Lanes.PollMiss(p, fence), fence)
  {
    var q := Lanes.PollMiss(p, fence);
    forall k | 0 <= k < |q.backlog| ensures EntryComes(p, q, k, fence) {
      if k == 0 && p.backlog[0].fenced && fence {
        assert Renewed(p, q.backlog[0], fence);
      } else {
        assert q.backlog[k] == p.backlog[k];
        assert Stays(p, q.backlog[k]);
      }
    }
  }

  // ----- One step of the dispatcher -----

  ghost predicate LaterOn(s: State, s': State, l: LaneId) {
    l in s.host.lanes && l in s'.host.lanes && Later(s.host.lanes[l], s'.host.lanes[l], s.sig.fence)
  }

  lemma WorkerLater(s: State, l: LaneId, a: WorkerStep)
    requires WorkerEnabled(s, l, a)
    ensures LaterOn(s, WorkerApply(s, l, a), l)
  {
    var p, q := s.host.lanes[l], WorkerApply(s, l, a).host.lanes[l];
    if a.Take? {
      TakeLater(p, s.sig.fence, s.sig.hard);
    } else if a.PollMiss? {
      PollMissLater(p, s.sig.fence);
    } else {
      assert q.backlog == p.backlog && q.accepted == p.accepted && q.admitted == p.admitted;
      SameBacklogLater(p, q, s.sig.fence);
    }
  }

  lemma SendLater(s: State, t: Token, a: SendStep)
    requires SendEnabled(s, t, a)
    ensures LaterOn(s, SendApply(s, t, a), s.book.ops[t].pc.lane)
  {
    var l := s.book.ops[t].pc.lane;
    var p, q := s.host.lanes[l], SendApply(s, t, a).host.lanes[l];
    if a.Abandon? {
      AbandonLater(p, t, s.sig.fence);
    } else {
      assert q.backlog == p.backlog && p.accepted <= q.accepted;
      assert a.Admit? || q.admitted == p.admitted;
      SameBacklogLater(p, q, s.sig.fence);
    }
  }

  lemma HandoffLater(s: State, t: Token, a: HandoffStep, l: LaneId)
    requires HandoffEnabled(s, t, a) && l in s.host.lanes
    ensures LaterOn(s, HandoffApply(s, t, a), l)
  {
    var p, q := s.host.lanes[l], HandoffApply(s, t, a).host.lanes[l];
    if (a.EnqueueRelease? || a.EnqueueStopped?) && l == s.book.ops[t].pc.lane && !Refuses(p) {
      EnqueueLater(p, Release(t), a.EnqueueStopped?, s.sig.fence);
    } else {
      assert q == p;
      SameBacklogLater(p, q, s.sig.fence);
    }
  }

  lemma SectionLater(s: State, i: SectionId, a: SectionStep, l: LaneId)
    requires SectionEnabled(s, i, a) && l in s.host.lanes
    ensures LaterOn(s, SectionApply(s, i, a), l)
  {
    var p, q := s.host.lanes[l], SectionApply(s, i, a).host.lanes[l];
    if a.EnqueueBarrier? && a.lane == l && !Refuses(p) {
      EnqueueLater(p, Barrier(i), false, s.sig.fence);
    } else {
      assert q.backlog == p.backlog && q.accepted == p.accepted && q.admitted == p.admitted;
      SameBacklogLater(p, q, s.sig.fence);
    }
  }

  lemma LoopLater(s: State, a: LoopStep, l: LaneId)
    requires LoopEnabled(s, a) && l in s.host.lanes
    ensures LaterOn(s, LoopApply(s, a), l)
  {
    var h, h' := s.host, LoopApply(s, a).host;
    match a
    case LoopExit => assert h' == h;
    case RetireCheck(m) => assert h'.lanes == h.lanes[m := LockIdle(h.lanes[m])];
    case RetireRefuse => assert h'.lanes == h.lanes[h.retiring.value := Unlock(h.lanes[h.retiring.value])];
    case RetireSeal => assert h'.lanes == h.lanes[h.retiring.value := Seal(h.lanes[h.retiring.value])];
    assert h'.lanes[l].backlog == h.lanes[l].backlog && h'.lanes[l].accepted == h.lanes[l].accepted;
    SameBacklogLater(h.lanes[l], h'.lanes[l], s.sig.fence);
  }

  lemma StopLater(s: State, k: StopId, a: StopStep, l: LaneId)
    requires StopEnabled(s, k, a) && l in s.host.lanes
    ensures LaterOn(s, StopApply(s, k, a), l)
  {
    var p, q := s.host.lanes[l], StopApply(s, k, a).host.lanes[l];
    assert q.backlog == p.backlog && q.accepted == p.accepted && q.admitted == p.admitted;
    SameBacklogLater(p, q, s.sig.fence);
  }

  lemma ProducerLater(s: State, t: Token, a: ProducerStep, l: LaneId)
    requires ProducerEnabled(s, t, a) && l in s.host.lanes
    ensures LaterOn(s, ProducerApply(s, t, a), l)
  {
    var p := s.host.lanes[l];
    assert ProducerApply(s, t, a).host.lanes[l] == p;
    SameBacklogLater(p, p, s.sig.fence);
  }

  lemma StepLater(s: State, a: Step, l: LaneId)
    requires Enabled(s, a) && l in s.host.lanes
    ensures LaterOn(s, Apply(s, a), l)
  {
    match a
    case OfProducer(t, o) => ProducerLater(s, t, o, l);
    case OfSend(t, o) =>
      SendLater(s, t, o);
      SameBacklogLater(s.host.lanes[l], s.host.lanes[l], s.sig.fence);
    case OfHandoff(t, o) => HandoffLater(s, t, o, l);
    case OfWorker(m, w) =>
      WorkerLater(s, m, w);
      SameBacklogLater(s.host.lanes[l], s.host.lanes[l], s.sig.fence);
    case OfLoop(r) => LoopLater(s, r, l);
    case OfSection(i, m) => SectionLater(s, i, m, l);
    case OfStop(k, c) => StopLater(s, k, c, l);
  }

  // ----- What a step puts into a backlog -----

  /** The step hands this work to lane l, or tries to. */
  predicate Puts(s: State, a: Step, l: LaneId, work: Work) {
    match work
    case Release(t) => a == OfHandoff(t, EnqueueRelease) || a == OfHandoff(t, EnqueueStopped)
    case Barrier(i) => a == OfSection(i, EnqueueBarrier(l))
  }

  /** If the backlog got longer, the step put its last entry there. */
  predicate PutOrShorter(s: State, a: Step, l: LaneId, p: Lane, q: Lane) {
    |q.backlog| == |p.backlog| + 1 ==> Puts(s, a, l, q.backlog[|p.backlog|].work)
  }

  lemma HandoffPuts(s: State, t: Token, a: HandoffStep, l: LaneId)
    requires HandoffEnabled(s, t, a) && l in s.host.lanes
    ensures PutOrShorter(s, OfHandoff(t, a), l, s.host.lanes[l], HandoffApply(s, t, a).host.lanes[l])
  {
    if !a.EnqueueRelease? && !a.EnqueueStopped? {
      assert HandoffApply(s, t, a).host.lanes == s.host.lanes;
    }
  }

  lemma SectionPuts(s: State, i: SectionId, a: SectionStep, l: LaneId)
    requires SectionEnabled(s, i, a) && l in s.host.lanes
    ensures PutOrShorter(s, OfSection(i, a), l, s.host.lanes[l], SectionApply(s, i, a).host.lanes[l])
  {
    if !a.EnqueueBarrier? && !a.CountParked? {
      assert SectionApply(s, i, a).host.lanes == s.host.lanes;
    }
  }

  lemma LongerIsPut(s: State, a: Step, l: LaneId)
    requires Enabled(s, a) && l in s.host.lanes
    ensures l in Apply(s, a).host.lanes && PutOrShorter(s, a, l, s.host.lanes[l], Apply(s, a).host.lanes[l])
  {
    match a
    case OfProducer(t, o) => assert ProducerApply(s, t, o).host.lanes[l] == s.host.lanes[l];
    case OfSend(t, o) => SendKeepsLength(s, t, o);
    case OfHandoff(t, o) => HandoffPuts(s, t, o, l);
    case OfWorker(m, w) => WorkerNeverLonger(s, m, w);
    case OfLoop(r) => LoopLeavesWork(s, r, l);
    case OfSection(i, m) => SectionPuts(s, i, m, l);
    case OfStop(k, c) => assert StopApply(s, k, c).host.lanes[l].backlog == s.host.lanes[l].backlog;
  }

  lemma SendKeepsLength(s: State, t: Token, a: SendStep)
    requires SendEnabled(s, t, a)
    ensures var l := s.book.ops[t].pc.lane; |SendApply(s, t, a).host.lanes[l].backlog| == |s.host.lanes[l].backlog|
  {
    if !a.Abandon? {
      assert SendApply(s, t, a).host.lanes[s.book.ops[t].pc.lane].backlog == s.host.lanes[s.book.ops[t].pc.lane].backlog;
    }
  }

  lemma WorkerNeverLonger(s: State, l: LaneId, a: WorkerStep)
    requires WorkerEnabled(s, l, a)
    ensures |WorkerApply(s, l, a).host.lanes[l].backlog| <= |s.host.lanes[l].backlog|
  {
    var q := s.host.lanes[l];
    match a
    case Take => assert Lanes.Take(q, s.sig.fence, s.sig.hard).backlog == q.backlog[1..];
    case PollMiss => assert |Lanes.PollMiss(q, s.sig.fence).backlog| == |q.backlog|;
    case Receive => assert Lanes.Receive(q, s.sig.hard).backlog == q.backlog;
    case _ =>
  }

  // ----- Accepted tasks are never accepted twice -----

  predicate AcceptedFace(q: Lane, l: LaneId, b: Book) {
    NoDup(q.accepted) && forall t :: t in q.accepted ==> PcOf(b, t) == Queued(l) || PcOf(b, t).Done?
  }

  predicate AcceptedInv(s: State, l: LaneId) {
    l in s.host.lanes ==> AcceptedFace(s.host.lanes[l], l, s.book)
  }

  lemma SectionAcceptsNone(s: State, i: SectionId, a: SectionStep, l: LaneId)
    requires SectionEnabled(s, i, a) && l in s.host.lanes
    ensures SectionApply(s, i, a).host.lanes[l].accepted == s.host.lanes[l].accepted
  {
    if !a.EnqueueBarrier? && !a.CountParked? {
      assert SectionApply(s, i, a).host.lanes == s.host.lanes;
    }
  }

  lemma HandoffAcceptsNone(s: State, t: Token, a: HandoffStep, l: LaneId)
    requires HandoffEnabled(s, t, a) && l in s.host.lanes
    ensures HandoffApply(s, t, a).host.lanes[l].accepted == s.host.lanes[l].accepted
  {
    if !a.EnqueueRelease? && !a.EnqueueStopped? {
      assert HandoffApply(s, t, a).host.lanes == s.host.lanes;
    }
  }

  /** Only a send on the lane adds to what it accepted. */
  lemma SameAccepted(s: State, a: Step, l: LaneId)
    requires Enabled(s, a) && l in s.host.lanes && !(a.OfSend? && a.attempt.Send? && s.book.ops[a.token].pc.lane == l)
    ensures l in Apply(s, a).host.lanes && Apply(s, a).host.lanes[l].accepted == s.host.lanes[l].accepted
  {
    match a
    case OfProducer(t, o) => assert ProducerApply(s, t, o).host.lanes[l] == s.host.lanes[l];
    case OfSend(t, o) => SendAccepts(s, t, o);
    case OfHandoff(t, o) => HandoffAcceptsNone(s, t, o, l);
    case OfWorker(m, w) => WorkerAcceptsNone(s, m, w);
    case OfLoop(r) => LoopAcceptsNone(s, r, l);
    case OfSection(i, m) => SectionAcceptsNone(s, i, m, l);
    case OfStop(k, c) => assert StopApply(s, k, c).host.lanes[l].accepted == s.host.lanes[l].accepted;
  }

  lemma SendAccepts(s: State, t: Token, a: SendStep)
    requires SendEnabled(s, t, a)
    ensures var l := s.book.ops[t].pc.lane;
            SendApply(s, t, a).host.lanes[l].accepted == s.host.lanes[l].accepted + if a.Send? then [t] else []
  {
    var q := s.host.lanes[s.book.ops[t].pc.lane];
    match a
    case Send => assert Lanes.Send(q, t).accepted == q.accepted + [t];
    case Abandon => assert Lanes.Abandon(q, t).accepted == q.accepted;
    case Admit => assert Lanes.Admit(q, t).accepted == q.accepted;
    case _ =>
  }

  lemma WorkerAcceptsNone(s: State, l: LaneId, a: WorkerStep)
    requires WorkerEnabled(s, l, a)
    ensures WorkerApply(s, l, a).host.lanes[l].accepted == s.host.lanes[l].accepted
  {
    var q := s.host.lanes[l];
    match a
    case Take => assert Lanes.Take(q, s.sig.fence, s.sig.hard).accepted == q.accepted;
    case PollMiss => assert Lanes.PollMiss(q, s.sig.fence).accepted == q.accepted;
    case Receive => assert Lanes.Receive(q, s.sig.hard).accepted == q.accepted;
    case _ =>
  }

  lemma LoopAcceptsNone(s: State, a: LoopStep, l: LaneId)
    requires LoopEnabled(s, a) && l in s.host.lanes
    ensures LoopApply(s, a).host.lanes[l].accepted == s.host.lanes[l].accepted
  {
    var h, h' := s.host, LoopApply(s, a).host;
    match a
    case LoopExit => assert h' == h;
    case RetireCheck(m) => assert h'.lanes == h.lanes[m := LockIdle(h.lanes[m])];
    case RetireRefuse => assert h'.lanes == h.lanes[h.retiring.value := Unlock(h.lanes[h.retiring.value])];
    case RetireSeal => assert h'.lanes == h.lanes[h.retiring.value := Seal(h.lanes[h.retiring.value])];
  }

  lemma NewLaneAccepts(s: State, a: Step, l: LaneId)
    requires Enabled(s, a)
    ensures l !in s.host.lanes && l in Apply(s, a).host.lanes ==> Apply(s, a).host.lanes[l].accepted == []
  {
    match a
    case OfProducer(t, o) =>
      assert l !in s.host.lanes && l in ProducerApply(s, t, o).host.lanes ==>
        ProducerApply(s, t, o).host.lanes[l] == CreatedLane(s, s.book.ops[t].key);
    case OfSend(t, o) => assert SendApply(s, t, o).host.lanes.Keys == s.host.lanes.Keys;
    case OfHandoff(t, o) => assert HandoffApply(s, t, o).host.lanes.Keys == s.host.lanes.Keys;
    case OfWorker(m, w) => assert WorkerApply(s, m, w).host.lanes.Keys == s.host.lanes.Keys;
    case OfLoop(r) => assert LoopApply(s, r).host.lanes.Keys == s.host.lanes.Keys;
    case OfSection(i, m) => assert SectionApply(s, i, m).host.lanes.Keys == s.host.lanes.Keys;
    case OfStop(k, c) => assert StopApply(s, k, c).host.lanes.Keys == s.host.lanes.Keys;
  }

  lemma StepAccepted(s: State, a: Step, l: LaneId)
    requires Inv(s) && Enabled(s, a) && AcceptedInv(s, l)
    ensures AcceptedInv(Apply(s, a), l)
  {
    if l !in s.host.lanes {
      NewLaneAccepts(s, a, l);
    } else {
      var q := s.host.lanes[l];
      forall t | t in q.accepted
        ensures PcOf(Apply(s, a).book, t) == Queued(l) || PcOf(Apply(s, a).book, t).Done?
      {
        StepOwner(s, a, t);
      }
      if a.OfSend? && a.attempt.Send? && s.book.ops[a.token].pc.lane == l {
        SendAccepts(s, a.token, a.attempt);
        assert PcOf(s.book, a.token) == Admitted(l);
        assert a.token !in q.accepted;
      } else {
        SameAccepted(s, a, l);
      }
    }
  }

  lemma {:induction false} RunAccepted(s: State, run: seq<Step>, l: LaneId)
    requires Inv(s) && AcceptedInv(s, l) && Runs(s, run)
    ensures Inv(After(s, run)) && AcceptedInv(After(s, run), l)
    decreases |run|
  {
    if run != [] {
      StepInv(s, run[0]);
      StepAccepted(s, run[0], l);
      RunAccepted(Apply(s, run[0]), run[1..], l);
    }
  }

  lemma ReachedAccepted(s: State, run: seq<Step>, l: LaneId)
    requires Init(s) && Runs(s, run)
    ensures Inv(After(s, run)) && AcceptedInv(After(s, run), l)
  {
    InitInv(s);
    if l in s.host.lanes {
      assert s.host.lanes[l] == NewLane(s.host.lanes[l].key, s.host.capacity);
    }
    RunAccepted(s, run, l);
  }

  /** Once as many tasks have been served as had been accepted at some time, those accepted then are over. */
  lemma ServedAreDone(s: State, e: State, l: LaneId, u: Token)
    requires OwnInv(s) && l in s.host.lanes && LaneInv(s.host.lanes[l]) && PcOf(s.book, u) == Queued(l)
    requires OwnInv(e) && l in e.host.lanes && LaneInv(e.host.lanes[l]) && AcceptedInv(e, l)
    requires s.host.lanes[l].accepted <= e.host.lanes[l].accepted && |s.host.lanes[l].accepted| <= Served(e.host.lanes[l])
    ensures PcOf(e.book, u).Done?
  {
    var p, q := s.host.lanes[l], e.host.lanes[l];
    assert Own(p, l, u, PcOf(s.book, u)) && Own(q, l, u, PcOf(e.book, u));
    assert u in p.accepted[Served(p)..];
    var i :| 0 <= i < |p.accepted| && p.accepted[i] == u;
    assert q.accepted[i] == u;
    forall j | Served(q) <= j < |q.accepted| ensures q.accepted[j] != u {
      assert i < j;
    }
    assert u !in q.accepted[Served(q)..];
  }

  // ----- The order of the backlog -----

  /** The lane has accepted m tasks, and its entries with this work come after all of them, unless they
      are fenced and that is allowed. */
  predicate AllBehind(q: Lane, work: Work, m: nat, fencedToo: bool) {
    && m <= |q.accepted|
    && forall k :: 0 <= k < |q.backlog| && q.backlog[k].work == work ==>
         q.backlog[k].after >= m || (fencedToo && q.backlog[k].fenced)
  }

  ghost predicate Behind(s: State, l: LaneId, work: Work, m: nat, fencedToo: bool) {
    l in s.host.lanes && AllBehind(s.host.lanes[l], work, m, fencedToo)
  }

  lemma LaterStaysBehind(p: Lane, q: Lane, fence: bool, work: Work, m: nat, fencedToo: bool)
    requires Later(p, q, fence) && AllBehind(p, work, m, fencedToo)
    ensures AllBehind(q, work, m, fencedToo)
  {
    forall k | 0 <= k < |q.backlog| && q.backlog[k].work == work
      ensures q.backlog[k].after >= m || (fencedToo && q.backlog[k].fenced)
    {
      assert EntryComes(p, q, k, fence);
    }
  }

  lemma StepBehind(s: State, a: Step, l: LaneId, work: Work, m: nat, fencedToo: bool)
    requires Enabled(s, a) && Behind(s, l, work, m, fencedToo)
    ensures Behind(Apply(s, a), l, work, m, fencedToo)
    ensures l in Apply(s, a).host.lanes && s.host.lanes[l].accepted <= Apply(s, a).host.lanes[l].accepted
  {
    StepLater(s, a, l);
    LaterStaysBehind(s.host.lanes[l], Apply(s, a).host.lanes[l], s.sig.fence, work, m, fencedToo);
  }

  lemma {:induction false} RunBehind(s: State, run: seq<Step>, l: LaneId, work: Work, m: nat, fencedToo: bool)
    requires Runs(s, run) && Behind(s, l, work, m, fencedToo)
    ensures Behind(After(s, run), l, work, m, fencedToo)
    ensures l in After(s, run).host.lanes && s.host.lanes[l].accepted <= After(s, run).host.lanes[l].accepted
    decreases |run|
  {
    if run != [] {
      StepBehind(s, run[0], l, work, m, fencedToo);
      RunBehind(Apply(s, run[0]), run[1..], l, work, m, fencedToo);
    }
  }

  /** When the entry is taken, at least m tasks have been served. */
  lemma TakenIsServed(s: State, l: LaneId, work: Work, m: nat, fencedToo: bool)
    requires Behind(s, l, work, m, fencedToo) && LaneInv(s.host.lanes[l])
    requires Ready(s.host.lanes[l], s.sig.fence) && s.host.lanes[l].backlog[0].work == work
    ensures m <= Served(s.host.lanes[l])
  {
    TakeWaitsForAcceptedWork(s.host.lanes[l], s.sig.fence);
  }

  /** Right after work is put into a backlog, the entry stands behind everything accepted. */
  lemma PutIsBehind(s: State, a: Step, l: LaneId, work: Work)
    requires Inv(s) && Enabled(s, a) && Puts(s, a, l, work) && l in s.host.lanes
    ensures Behind(Apply(s, a), l, work, |s.host.lanes[l].accepted|, false)
  {
    StepLater(s, a, l);
    NotThereBefore(s, a, l, work);
    LaterIsBehind(s.host.lanes[l], Apply(s, a).host.lanes[l], s.sig.fence, work);
  }

  lemma LaterIsBehind(p: Lane, q: Lane, fence: bool, work: Work)
    requires Later(p, q, fence) && forall k :: 0 <= k < |p.backlog| ==> p.backlog[k].work != work
    ensures AllBehind(q, work, |p.accepted|, false)
  {
    forall k | 0 <= k < |q.backlog| && q.backlog[k].work == work ensures q.backlog[k].after >= |p.accepted| {
      assert EntryComes(p, q, k, fence);
    }
  }

  lemma NotThereBefore(s: State, a: Step, l: LaneId, work: Work)
    requires Inv(s) && Enabled(s, a) && Puts(s, a, l, work) && l in s.host.lanes
    ensures forall k :: 0 <= k < |s.host.lanes[l].backlog| ==> s.host.lanes[l].backlog[k].work != work
  {
    var q := s.host.lanes[l];
    if a.OfHandoff? {
      assert Own(q, l, a.token, PcOf(s.book, a.token));
      assert !Owes(q, a.token);
    } else {
      var i := a.section;
      assert Sections.SectionFace(s.ex, i);
      assert CoverLane(q, l, s.ex.sections[i], s.sig.stopped, i);
      assert !HasBarrier(q, i);
    }
  }

  /** Over any run, when a lane takes a release or a barrier, every task it had accepted before that work
      was handed to it is over. */
  lemma BacklogKeepsOrder(s: State, r1: seq<Step>, a: Step, r2: seq<Step>, l: LaneId, work: Work, u: Token)
    requires Init(s) && Runs(s, r1) && Enabled(After(s, r1), a) && Runs(Apply(After(s, r1), a), r2)
    requires Puts(After(s, r1), a, l, work) && PcOf(After(s, r1).book, u) == Queued(l)
    requires var e := After(Apply(After(s, r1), a), r2);
             WorkerEnabled(e, l, Take) && e.host.lanes[l].backlog[0].work == work
    ensures PcOf(After(Apply(After(s, r1), a), r2).book, u).Done?
  {
    var s1 := After(s, r1);
    var s2 := Apply(s1, a);
    ReachedAccepted(s, r1, l);
    assert Known(s1.host, s1.ex, PcOf(s1.book, u));
    StepInv(s1, a);
    StepAccepted(s1, a, l);
    RunAccepted(s2, r2, l);
    PutIsBehind(s1, a, l, work);
    StepLater(s1, a, l);
    var m := |s1.host.lanes[l].accepted|;
    RunBehind(s2, r2, l, work, m, false);
    TakenIsServed(After(s2, r2), l, work, m, false);
    ServedAreDone(s1, After(s2, r2), l, u);
  }

  // ----- A release handed over after the stop -----

  /** The stopped lane has taken the release, or refused it for good. */
  predicate HandedOver(pc: OpPc) {
    pc.Backlogged? || pc.NoLane? || pc.Tracked? || pc.Untracked? || pc.Postponed? || pc.Done?
  }

  lemma HandoffStaysOver(s: State, u: Token, a: HandoffStep, t: Token)
    requires HandoffEnabled(s, u, a) && HandedOver(PcOf(s.book, t))
    ensures HandedOver(PcOf(HandoffApply(s, u, a).book, t))
  {
  }

  lemma WorkerStaysOver(s: State, l: LaneId, a: WorkerStep, t: Token)
    requires OwnInv(s) && WorkerEnabled(s, l, a) && HandedOver(PcOf(s.book, t))
    ensures HandedOver(PcOf(WorkerApply(s, l, a).book, t))
  {
  }

  lemma SectionStaysOver(s: State, i: SectionId, a: SectionStep, t: Token)
    requires SectionEnabled(s, i, a) && HandedOver(PcOf(s.book, t))
    ensures HandedOver(PcOf(SectionApply(s, i, a).book, t))
  {
    SectionBook(s, i, a);
  }

  lemma StaysOver(s: State, a: Step, t: Token)
    requires Inv(s) && Enabled(s, a) && HandedOver(PcOf(s.book, t))
    ensures HandedOver(PcOf(Apply(s, a).book, t))
  {
    match a
    case OfProducer(u, o) => ProducerStaysOver(s, u, o, t);
    case OfSend(u, o) => SendStaysOver(s, u, o, t);
    case OfHandoff(u, o) => HandoffStaysOver(s, u, o, t);
    case OfWorker(l, w) => WorkerStaysOver(s, l, w, t);
    case OfLoop(r) => assert LoopApply(s, r).book == s.book;
    case OfSection(i, m) => SectionStaysOver(s, i, m, t);
    case OfStop(k, c) => assert StopApply(s, k, c).book == s.book;
  }

  lemma ProducerStaysOver(s: State, u: Token, a: ProducerStep, t: Token)
    requires ProducerEnabled(s, u, a) && HandedOver(PcOf(s.book, t))
    ensures HandedOver(PcOf(ProducerApply(s, u, a).book, t))
  {
  }

  lemma SendStaysOver(s: State, u: Token, a: SendStep, t: Token)
    requires SendEnabled(s, u, a) && HandedOver(PcOf(s.book, t))
    ensures HandedOver(PcOf(SendApply(s, u, a).book, t))
  {
  }

  lemma FenceStays(s: State, a: Step)
    requires Enabled(s, a) && s.sig.fence
    ensures Apply(s, a).sig.fence
  {
    match a
    case OfProducer(t, o) => assert ProducerApply(s, t, o).sig.fence;
    case OfSend(t, o) => assert SendApply(s, t, o).sig == s.sig;
    case OfHandoff(t, o) => assert HandoffApply(s, t, o).sig.fence;
    case OfWorker(l, w) => assert WorkerApply(s, l, w).sig == s.sig;
    case OfLoop(r) => assert LoopApply(s, r).sig.fence;
    case OfSection(i, m) => assert SectionApply(s, i, m).sig == s.sig;
    case OfStop(k, c) => assert StopApply(s, k, c).sig.fence;
  }

  lemma {:induction false} RunFenceStays(s: State, run: seq<Step>)
    requires Runs(s, run) && s.sig.fence
    ensures After(s, run).sig.fence
    decreases |run|
  {
    if run != [] {
      FenceStays(s, run[0]);
      RunFenceStays(Apply(s, run[0]), run[1..]);
    }
  }

  /** The lane keeps the release behind the fence; or the fence has closed and the release waits for
      everything ever admitted, when `last` says so. */
  predicate KeptBack(q: Lane, e: Entry, fence: bool, last: bool) {
    e.fenced || (last && fence && e.target == q.admitted)
  }

  predicate HeldBack(q: Lane, t: Token, fence: bool, last: bool) {
    forall k {:trigger KeptBack(q, q.backlog[k], fence, last)} ::
      0 <= k < |q.backlog| && q.backlog[k].work == Release(t) ==> KeptBack(q, q.backlog[k], fence, last)
  }

  ghost predicate Held(s: State, l: LaneId, t: Token, last: bool) {
    && l in s.host.lanes && HandedOver(PcOf(s.book, t))
    && (last ==> FenceQuiet(s.sig))
    && HeldBack(s.host.lanes[l], t, s.sig.fence, last)
  }

  /** Behind a fence that closed cleanly nobody is on the way into a lane. */
  lemma ClosedFenceIsQuiet(s: State, l: LaneId)
    requires Inv(s) && FenceQuiet(s.sig) && s.sig.fence && l in s.host.lanes
    ensures s.host.lanes[l].cleared == {} && s.host.lanes[l].inflight == map[]
  {
    var q := s.host.lanes[l];
    forall t ensures t !in q.cleared && t !in q.inflight.Keys {
      assert Own(q, l, t, PcOf(s.book, t));
      assert t in s.book.ops ==> OpFace(s.host, s.sig, t, s.book.ops[t]);
    }
    assert q.inflight.Keys == {};
  }

  /** The release has left its producer, so no step puts it into a backlog again. */
  lemma NeverPutAgain(s: State, a: Step, l: LaneId, t: Token)
    requires Enabled(s, a) && HandedOver(PcOf(s.book, t))
    ensures !Puts(s, a, l, Release(t))
  {
  }

  lemma StepHeld(s: State, a: Step, l: LaneId, t: Token, last: bool)
    requires Inv(s) && Enabled(s, a) && Held(s, l, t, last)
    requires if last then !RacyCheck(s, a) else !s.sig.fence
    ensures Held(Apply(s, a), l, t, last)
  {
    StaysOver(s, a, t);
    StepLater(s, a, l);
    LongerIsPut(s, a, l);
    NeverPutAgain(s, a, l, t);
    if last { StepFence(s, a); }
    if s.sig.fence {
      ClosedFenceIsQuiet(s, l);
      FenceStays(s, a);
    }
    LaneHeld(s.host.lanes[l], Apply(s, a).host.lanes[l], t, s.sig.fence, Apply(s, a).sig.fence, last);
  }

  /** On the lane alone, in a step that does not put the release there. */
  lemma LaneHeld(p: Lane, q: Lane, t: Token, fence: bool, fence': bool, last: bool)
    requires HeldBack(p, t, fence, last) && Later(p, q, fence)
    requires |q.backlog| == |p.backlog| + 1 ==> q.backlog[|p.backlog|].work != Release(t)
    requires fence ==> last && fence' && p.cleared == {} && p.inflight == map[]
    ensures HeldBack(q, t, fence', last)
  {
    forall k | 0 <= k < |q.backlog| && q.backlog[k].work == Release(t) ensures KeptBack(q, q.backlog[k], fence', last) {
      assert EntryComes(p, q, k, fence) && !Joins(p, q, k);
      if Stays(p, q.backlog[k]) {
        var j :| 0 <= j < |p.backlog| && p.backlog[j].work == q.backlog[k].work && p.backlog[j].after == q.backlog[k].after
                 && p.backlog[j].fenced == q.backlog[k].fenced
                 && (p.inflight == map[] ==> p.backlog[j].target == q.backlog[k].target);
        assert KeptBack(p, p.backlog[j], fence, last);
      }
    }
  }

  lemma {:induction false} RunHeld(s: State, run: seq<Step>, l: LaneId, t: Token, last: bool)
    requires Inv(s) && Runs(s, run) && Held(s, l, t, last)
    requires if last then CleanFence(s, run) else !After(s, run).sig.fence
    ensures Inv(After(s, run)) && Held(After(s, run), l, t, last)
    decreases |run|
  {
    if run != [] {
      if !last && s.sig.fence { RunFenceStays(s, run); }
      StepInv(s, run[0]);
      StepHeld(s, run[0], l, t, last);
      RunHeld(Apply(s, run[0]), run[1..], l, t, last);
    }
  }

  /** Handed over after the stop, the release is kept behind the fence. */
  lemma StoppedIsHeld(s: State, t: Token, l: LaneId, last: bool)
    requires Inv(s) && HandoffEnabled(s, t, EnqueueStopped) && s.book.ops[t].pc == AfterStopLane(l)
    requires last ==> FenceQuiet(s.sig)
    ensures Inv(HandoffApply(s, t, EnqueueStopped)) && Held(HandoffApply(s, t, EnqueueStopped), l, t, last)
  {
    StepInv(s, OfHandoff(t, EnqueueStopped));
    NotThereBefore(s, OfHandoff(t, EnqueueStopped), l, Release(t));
    EnqueueIsHeld(s, t, l, last);
  }

  lemma EnqueueIsHeld(s: State, t: Token, l: LaneId, last: bool)
    requires HandoffEnabled(s, t, EnqueueStopped) && s.book.ops[t].pc == AfterStopLane(l)
    requires last ==> FenceQuiet(s.sig)
    requires forall k :: 0 <= k < |s.host.lanes[l].backlog| ==> s.host.lanes[l].backlog[k].work != Release(t)
    ensures Held(HandoffApply(s, t, EnqueueStopped), l, t, last)
  {
    var s' := EnqueueFor(s, t, l, true, NoLane);
    var p, q := s.host.lanes[l], s'.host.lanes[l];
    if Refuses(p) {
      assert q.backlog == p.backlog;
    } else {
      assert q.backlog == p.backlog + [Entry(Release(t), p.admitted, p.admitted, true, |p.accepted|, Racers(p))];
    }
  }

  /** Over any run, a release handed over after the stop waits for everything its lane accepts until the
      submit fence closes. */
  lemma StoppedReleaseWaits(s: State, r1: seq<Step>, t: Token, r2: seq<Step>, r3: seq<Step>, l: LaneId, u: Token)
    requires Init(s) && Runs(s, r1) && HandoffEnabled(After(s, r1), t, EnqueueStopped)
    requires Runs(HandoffApply(After(s, r1), t, EnqueueStopped), r2)
    requires var s3 := After(HandoffApply(After(s, r1), t, EnqueueStopped), r2);
             && !s3.sig.fence && PcOf(s3.book, u) == Queued(l) && Runs(s3, r3)
             && WorkerEnabled(After(s3, r3), l, Take) && After(s3, r3).host.lanes[l].backlog[0].work == Release(t)
    requires PcOf(After(s, r1).book, t) == AfterStopLane(l)
    ensures PcOf(After(After(HandoffApply(After(s, r1), t, EnqueueStopped), r2), r3).book, u).Done?
  {
    var s1 := After(s, r1);
    var s2 := HandoffApply(s1, t, EnqueueStopped);
    var s3 := After(s2, r2);
    ReachedAccepted(s, r1, l);
    StepAccepted(s1, OfHandoff(t, EnqueueStopped), l);
    StoppedIsHeld(s1, t, l, false);
    RunHeld(s2, r2, l, t, false);
    RunAccepted(s2, r2, l);
    RunAccepted(s3, r3, l);
    var q := s3.host.lanes[l];
    forall k | 0 <= k < |q.backlog| && q.backlog[k].work == Release(t) ensures q.backlog[k].fenced {
      assert KeptBack(q, q.backlog[k], false, false);
    }
    RunBehind(s3, r3, l, Release(t), |q.accepted|, true);
    TakenIsServed(After(s3, r3), l, Release(t), |q.accepted|, true);
    ServedAreDone(s3, After(s3, r3), l, u);
  }

  /** With no racy check, it is the last thing its lane does: nothing that the lane accepted is left, and
      nobody is on the way in. */
  lemma CleanReleaseIsLast(s: State, r1: seq<Step>, t: Token, r2: seq<Step>, l: LaneId)
    requires Init(s) && Runs(s, r1) && CleanFence(s, r1) && HandoffEnabled(After(s, r1), t, EnqueueStopped)
    requires PcOf(After(s, r1).book, t) == AfterStopLane(l)
    requires var s2 := HandoffApply(After(s, r1), t, EnqueueStopped);
             && Runs(s2, r2) && CleanFence(s2, r2)
             && WorkerEnabled(After(s2, r2), l, Take) && After(s2, r2).host.lanes[l].backlog[0].work == Release(t)
    ensures var q := After(HandoffApply(After(s, r1), t, EnqueueStopped), r2).host.lanes[l];
            AcceptedWork(q) == [] && q.inflight == map[] && q.cleared == {}
  {
    InitInv(s);
    RunInv(s, r1);
    FenceRuns(s, r1);
    StoppedIsHeld(After(s, r1), t, l, true);
    var s2 := HandoffApply(After(s, r1), t, EnqueueStopped);
    RunHeld(s2, r2, l, t, true);
    var e := After(s2, r2);
    var q := e.host.lanes[l];
    assert KeptBack(q, q.backlog[0], e.sig.fence, true);
    ClosedFenceIsQuiet(e, l);
    assert LaneInv(q) && Head(q, e.sig.fence).target == q.admitted;
  }

  // ----- Releases postponed into a section -----

  /** What the section still has to run, in the order in which it will. */
  function Pending(x: Section): seq<Token> {
    x.batch + x.deferred
  }

  ghost predicate Before(xs: seq<Token>, t: Token, u: Token) {
    exists p, q :: 0 <= p < q < |xs| && xs[p] == t && xs[q] == u
  }

  /** t is over, or will be run before u. */
  ghost predicate Ahead(s: State, i: SectionId, t: Token, u: Token) {
    PcOf(s.book, t).Done? || (i in s.ex.sections && PcOf(s.book, t) == Postponed(i) && Before(Pending(s.ex.sections[i]), t, u))
  }

  lemma BeforeInLonger(xs: seq<Token>, more: seq<Token>, t: Token, u: Token)
    requires Before(xs, t, u)
    ensures Before(xs + more, t, u)
  {
    var p, q :| 0 <= p < q < |xs| && xs[p] == t && xs[q] == u;
    assert (xs + more)[p] == t && (xs + more)[q] == u;
  }

  lemma BeforeInTail(xs: seq<Token>, t: Token, u: Token)
    requires Before(xs, t, u) && xs[0] != t
    ensures Before(xs[1..], t, u)
  {
    var p, q :| 0 <= p < q < |xs| && xs[p] == t && xs[q] == u;
    assert xs[1..][p - 1] == t && xs[1..][q - 1] == u;
  }

  /** What a step does to what a section has to run: nothing, or the first is run, or one is appended. */
  predicate Advances(x: Section, x': Section, ran: bool) {
    if ran then x.batch != [] && Pending(x') == Pending(x)[1..] else Pending(x) <= Pending(x')
  }

  lemma SectionAdvances(s: State, i: SectionId, a: SectionStep)
    requires ExclusionInv(s.ex) && SectionEnabled(s, i, a) && i in s.ex.sections
    ensures i in SectionApply(s, i, a).ex.sections
    ensures Advances(s.ex.sections[i], SectionApply(s, i, a).ex.sections[i], a.RunRelease?)
  {
    assert SectionFace(s.ex, i);
  }

  lemma StepAdvances(s: State, a: Step, i: SectionId)
    requires ExclusionInv(s.ex) && Enabled(s, a) && i in s.ex.sections
    ensures i in Apply(s, a).ex.sections
    ensures Advances(s.ex.sections[i], Apply(s, a).ex.sections[i], a.OfSection? && a.section == i && a.move.RunRelease?)
  {
    match a
    case OfProducer(t, o) => Progress.ProducerLeaves(s, t, o, i);
    case OfSend(t, o) => assert SendApply(s, t, o).ex == s.ex;
    case OfHandoff(t, o) => HandoffAdvances(s, t, o, i);
    case OfWorker(l, w) => Progress.WorkerLeaves(s, l, w, i);
    case OfLoop(r) => assert LoopApply(s, r).ex == s.ex;
    case OfSection(j, m) => if j == i { SectionAdvances(s, i, m); } else { Progress.OtherSection(s, j, m, i); }
    case OfStop(k, c) => assert StopApply(s, k, c).ex == s.ex;
  }

  lemma HandoffAdvances(s: State, t: Token, a: HandoffStep, i: SectionId)
    requires ExclusionInv(s.ex) && HandoffEnabled(s, t, a) && i in s.ex.sections
    ensures i in HandoffApply(s, t, a).ex.sections
    ensures Advances(s.ex.sections[i], HandoffApply(s, t, a).ex.sections[i], false)
  {
    assert s.ex.active.Some? ==> SectionFace(s.ex, s.ex.active.value);
  }

  lemma StepAhead(s: State, a: Step, i: SectionId, t: Token, u: Token)
    requires Inv(s) && Enabled(s, a) && Ahead(s, i, t, u)
    ensures Ahead(Apply(s, a), i, t, u)
  {
    StepOwner(s, a, t);
    if !PcOf(s.book, t).Done? && !CarriesOut(s, a, t, PcOf(s.book, t)) {
      StepAdvances(s, a, i);
      var x, x' := s.ex.sections[i], Apply(s, a).ex.sections[i];
      if a.OfSection? && a.section == i && a.move.RunRelease? {
        BeforeInTail(Pending(x), t, u);
      } else {
        BeforeInLonger(Pending(x), Pending(x')[|Pending(x)|..], t, u);
      }
    }
  }

  lemma {:induction false} RunAhead(s: State, run: seq<Step>, i: SectionId, t: Token, u: Token)
    requires Inv(s) && Runs(s, run) && Ahead(s, i, t, u)
    ensures Inv(After(s, run)) && Ahead(After(s, run), i, t, u)
    decreases |run|
  {
    if run != [] {
      StepInv(s, run[0]);
      StepAhead(s, run[0], i, t, u);
      RunAhead(Apply(s, run[0]), run[1..], i, t, u);
    }
  }

  /** A release that is postponed now goes behind those postponed before. */
  lemma PostponedIsBehind(s: State, a: Step, i: SectionId, t: Token, u: Token)
    requires Inv(s) && Enabled(s, a) && PcOf(s.book, t) == Postponed(i)
    requires PcOf(s.book, u) != Postponed(i) && PcOf(Apply(s, a).book, u) == Postponed(i)
    ensures Ahead(Apply(s, a), i, t, u)
  {
    assert Known(s.host, s.ex, PcOf(s.book, t));
    var s' := Apply(s, a);
    StepInv(s, a);
    StepOwner(s, a, t);
    StepAdvances(s, a, i);
    var xs, xs' := Pending(s.ex.sections[i]), Pending(s'.ex.sections[i]);
    assert SectionOwns(s.ex.sections[i], i, t, PcOf(s.book, t)) && SectionOwns(s.ex.sections[i], i, u, PcOf(s.book, u));
    assert SectionOwns(s'.ex.sections[i], i, u, PcOf(s'.book, u));
    assert t in xs && u !in xs && u in xs';
    if xs <= xs' { NewIsLast(xs, xs', t, u); }
  }

  lemma NewIsLast(xs: seq<Token>, xs': seq<Token>, t: Token, u: Token)
    requires xs <= xs' && t in xs && u !in xs && u in xs'
    ensures Before(xs', t, u)
  {
    var more := xs'[|xs|..];
    assert xs' == xs + more;
    var p :| 0 <= p < |xs| && xs[p] == t;
    var q :| 0 <= q < |more| && more[q] == u;
    assert xs'[p] == t && xs'[|xs| + q] == u;
  }

  /** Over any run, a section runs the releases postponed into it in the order in which they came. */
  lemma PostponedRunInOrder(s: State, r1: seq<Step>, a: Step, r2: seq<Step>, i: SectionId, t: Token, u: Token)
    requires Init(s) && Runs(s, r1) && Enabled(After(s, r1), a) && Runs(Apply(After(s, r1), a), r2)
    requires PcOf(After(s, r1).book, t) == Postponed(i)
    requires PcOf(After(s, r1).book, u) != Postponed(i) && PcOf(Apply(After(s, r1), a).book, u) == Postponed(i)
    requires PcOf(After(Apply(After(s, r1), a), r2).book, u).Done?
    ensures PcOf(After(Apply(After(s, r1), a), r2).book, t).Done?
  {
    InitInv(s);
    RunInv(s, r1);
    StepInv(After(s, r1), a);
    PostponedIsBehind(After(s, r1), a, i, t, u);
    RunAhead(Apply(After(s, r1), a), r2, i, t, u);
    DoneIsNotPending(After(Apply(After(s, r1), a), r2), i, t, u);
  }

  lemma DoneIsNotPending(s: State, i: SectionId, t: Token, u: Token)
    requires OwnInv(s) && Ahead(s, i, t, u) && PcOf(s.book, u).Done?
    ensures PcOf(s.book, t).Done?
  {
    if i in s.ex.sections {
      assert SectionOwns(s.ex.sections[i], i, u, PcOf(s.book, u));
      assert u !in Pending(s.ex.sections[i]);
    }
  }
}
