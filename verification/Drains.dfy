/** No lane is ever stuck: after every run, and without any stop call, what a lane has accepted and what it
    owes can still be carried out. */
module Drains {
  import opened Sets
  import opened Lanes
  import opened Dispatcher
  import opened LaneMap
  import opened Coverage
  import opened Ownership
  import opened Releases
  import opened Safety
  import opened Order
  import opened Stopping
  import opened Shutdown

  /** The lane has nothing left to do. */
  predicate Rested(q: Lane) {
    q.ch == [] && q.backlog == [] && !Busy(q) && !q.worker.Settling?
  }

  /** How much the worker has to do until it rests. */
  function Toil(q: Lane): nat {
    10 * (|q.ch| + |q.backlog|) +
    match q.worker
    case Task(_, _) => 3
    case Selecting => if q.ch == [] then 2 else 0
    case Polling => 1
    case Exited => 0
    case _ => 2
  }

  /** No entry waits for the submit fence, and nobody is on the way into the lane. */
  predicate Unheld(q: Lane, fence: bool) {
    q.inflight == map[] && forall k :: 0 <= k < |q.backlog| ==> q.backlog[k].fenced ==> fence
  }

  predicate Lighter(s: State, l: LaneId, w: WorkerStep) {
    WorkerEnabled(s, l, w) && Toil(WorkerApply(s, l, w).host.lanes[l]) < Toil(s.host.lanes[l])
  }

  predicate StaysUnheld(s: State, l: LaneId, w: WorkerStep) {
    WorkerEnabled(s, l, w) && Unheld(WorkerApply(s, l, w).host.lanes[l], s.sig.fence)
  }

  predicate Relieves(s: State, l: LaneId, w: WorkerStep) {
    Lighter(s, l, w) && StaysUnheld(s, l, w)
  }

  lemma SameBacklogUnheld(p: Lane, q: Lane, fence: bool)
    requires Unheld(p, fence) && q.backlog == p.backlog && q.inflight == p.inflight
    ensures Unheld(q, fence)
  {
  }

  lemma PlainLighter(s: State, l: LaneId, w: WorkerStep)
    requires WorkerEnabled(s, l, w)
    requires w in {StartWorker, WorkerStep.FinishTask, WorkerStep.Settle, WorkerStep.FinishMandatory, WorkerStep.DrainEnd,
                   WorkerStep.PassBarrier}
    ensures Lighter(s, l, w)
    ensures var p, q := s.host.lanes[l], WorkerApply(s, l, w).host.lanes[l]; q.backlog == p.backlog && q.inflight == p.inflight
  {
  }

  lemma PlainRelieves(s: State, l: LaneId, w: WorkerStep)
    requires WorkerEnabled(s, l, w) && Unheld(s.host.lanes[l], s.sig.fence)
    requires w in {StartWorker, WorkerStep.FinishTask, WorkerStep.Settle, WorkerStep.FinishMandatory, WorkerStep.DrainEnd,
                   WorkerStep.PassBarrier}
    ensures Relieves(s, l, w)
  {
    PlainLighter(s, l, w);
    SameBacklogUnheld(s.host.lanes[l], WorkerApply(s, l, w).host.lanes[l], s.sig.fence);
  }

  lemma SelectLighter(s: State, l: LaneId, w: WorkerStep)
    requires WorkerEnabled(s, l, w) && w == if s.host.lanes[l].ch == [] then WorkerStep.Wake else WorkerStep.Receive
    ensures Lighter(s, l, w)
    ensures var p, q := s.host.lanes[l], WorkerApply(s, l, w).host.lanes[l]; q.backlog == p.backlog && q.inflight == p.inflight
  {
    var q := s.host.lanes[l];
    if q.ch != [] {
      assert |Lanes.Receive(q, s.sig.hard).ch| == |q.ch| - 1;
    }
  }

  lemma SelectRelieves(s: State, l: LaneId, w: WorkerStep)
    requires WorkerEnabled(s, l, w) && Unheld(s.host.lanes[l], s.sig.fence)
    requires w == if s.host.lanes[l].ch == [] then WorkerStep.Wake else WorkerStep.Receive
    ensures Relieves(s, l, w)
  {
    SelectLighter(s, l, w);
    SameBacklogUnheld(s.host.lanes[l], WorkerApply(s, l, w).host.lanes[l], s.sig.fence);
  }

  lemma TakeRelieves(s: State, l: LaneId)
    requires WorkerEnabled(s, l, WorkerStep.Take) && Unheld(s.host.lanes[l], s.sig.fence)
    ensures Relieves(s, l, WorkerStep.Take)
  {
    var q := s.host.lanes[l];
    assert Lanes.Take(q, s.sig.fence, s.sig.hard).backlog == q.backlog[1..];
  }

  lemma MissRelieves(s: State, l: LaneId)
    requires WorkerEnabled(s, l, WorkerStep.PollMiss) && Unheld(s.host.lanes[l], s.sig.fence)
    requires s.host.lanes[l].ch != [] && !s.host.lanes[l].sawEnd
    ensures Relieves(s, l, WorkerStep.PollMiss)
  {
    var q := s.host.lanes[l];
    var q' := Lanes.PollMiss(q, s.sig.fence);
    assert |q'.backlog| == |q.backlog| && forall k :: 0 < k < |q.backlog| ==> q'.backlog[k] == q.backlog[k];
  }

  lemma PollRelieves(s: State, l: LaneId) returns (w: WorkerStep)
    requires Inv(s) && NoSections(s) && l in s.host.lanes && Unheld(s.host.lanes[l], s.sig.fence)
    requires s.host.lanes[l].worker.Polling? && !Rested(s.host.lanes[l])
    ensures Relieves(s, l, w)
  {
    var q := s.host.lanes[l];
    assert LaneInv(q);
    if q.ch == [] { SettledHeadIsReady(q, s.sig.fence); }
    w := if Ready(q, s.sig.fence) then WorkerStep.Take else WorkerStep.PollMiss;
    if Ready(q, s.sig.fence) {
      if q.backlog[0].work.Barrier? { BarriersAreFreed(s, l, q.backlog[0].work.section); }
      TakeRelieves(s, l);
    } else {
      MissRelieves(s, l);
    }
  }

  /** What the worker does next. */
  lemma WorkerRelieves(s: State, l: LaneId) returns (w: WorkerStep)
    requires Inv(s) && NoSections(s) && l in s.host.lanes && Unheld(s.host.lanes[l], s.sig.fence) && !Rested(s.host.lanes[l])
    ensures Relieves(s, l, w)
  {
    var q := s.host.lanes[l];
    assert LaneInv(q);
    if q.worker.Polling? {
      w := PollRelieves(s, l);
    } else if q.worker.Selecting? {
      w := if q.ch == [] then WorkerStep.Wake else WorkerStep.Receive;
      SelectRelieves(s, l, w);
    } else {
      if q.worker.Task? {
        assert q.worker.token in AcceptedWork(q);
      } else if AtBarrier(q) {
        BarriersAreFreed(s, l, q.worker.section);
      }
      assert q.worker.Task? || q.worker.Mandatory? ==> Own(q, l, q.worker.token, PcOf(s.book, q.worker.token));
      w := if q.worker.NotStarted? then StartWorker
           else if q.worker.Task? then WorkerStep.FinishTask
           else if q.worker.Settling? then WorkerStep.Settle
           else if q.worker.Mandatory? then WorkerStep.FinishMandatory
           else if q.worker.Emptying? then WorkerStep.DrainEnd
           else WorkerStep.PassBarrier;
      PlainRelieves(s, l, w);
    }
  }

  lemma WorkerKeepsNoSections(s: State, l: LaneId, w: WorkerStep)
    requires NoSections(s) && WorkerEnabled(s, l, w)
    ensures NoSections(WorkerApply(s, l, w))
  {
    var s' := WorkerApply(s, l, w);
    forall i | i in s'.ex.sections ensures !Counted(s'.ex.sections[i].pc) {
      assert i in s.ex.sections && s'.ex.sections[i].pc == s.ex.sections[i].pc;
    }
  }

  lemma {:induction false} WorkerRests(s: State, l: LaneId) returns (e: State)
    requires StopInv(s) && NoSections(s) && l in s.host.lanes && Unheld(s.host.lanes[l], s.sig.fence)
    ensures Reaches(s, e) && e.st == s.st && l in e.host.lanes && Rested(e.host.lanes[l])
    decreases Toil(s.host.lanes[l])
  {
    if Rested(s.host.lanes[l]) {
      e := s;
      ReachesItself(s);
    } else {
      var w := WorkerRelieves(s, l);
      OneStep(s, OfWorker(l, w));
      WorkerKeepsNoSections(s, l, w);
      e := WorkerRests(WorkerApply(s, l, w), l);
      ReachesOn(s, WorkerApply(s, l, w), e);
    }
  }

  // ----- Nobody stays on the way into the lane -----

  lemma {:induction false} AdmissionsEnd(s: State, l: LaneId) returns (e: State)
    requires StopInv(s) && NoSections(s) && l in s.host.lanes
    ensures Reaches(s, e) && StopInv(e) && NoSections(e) && e.st == s.st && e.sig == s.sig
    ensures l in e.host.lanes && e.host.lanes[l].inflight == map[]
    decreases |s.host.lanes[l].inflight|
  {
    var q := s.host.lanes[l];
    var t := SomeMember(q.inflight.Keys);
    if q.inflight.Keys == {} {
      e := s;
      ReachesItself(s);
    } else {
      assert Own(q, l, t, PcOf(s.book, t));
      OneStep(s, OfSend(t, SendStep.Abandon));
      var m := SendApply(s, t, SendStep.Abandon);
      assert m.host.lanes[l].inflight == q.inflight - {t};
      DropTicket(q.inflight, t, 0);
      e := AdmissionsEnd(m, l);
      ReachesOn(s, m, e);
    }
  }

  /** The idle scan lets go of the strategy's lock. */
  lemma ScanLetsGo(s: State) returns (e: State)
    requires StopInv(s)
    ensures Reaches(s, e) && StopInv(e) && e.st == s.st && e.sig == s.sig && MuFree(e)
    ensures s.host.lanes.Keys <= e.host.lanes.Keys
  {
    e := s;
    ReachesItself(s);
    if s.host.retiring.Some? {
      assert LaneFace(s.host, s.host.retiring.value);
      OneStep(s, OfLoop(RetireRefuse));
      e := LoopApply(s, RetireRefuse);
    }
  }

  // ----- Lanes and their order survive -----

  lemma ReachesKeeps(s: State, e: State, l: LaneId)
    requires Inv(s) && OrderInv(s) && Reaches(s, e) && l in s.host.lanes
    ensures Inv(e) && OrderInv(e) && l in e.host.lanes
  {
    var run: seq<Step> :| Runs(s, run) && After(s, run) == e;
    RunOrder(s, run);
    LaneStays(s, run, l);
  }

  lemma {:induction false} LaneStays(s: State, run: seq<Step>, l: LaneId)
    requires Runs(s, run) && l in s.host.lanes
    ensures l in After(s, run).host.lanes
    decreases |run|
  {
    if run != [] {
      StepStaysClosed(s, run[0]);
      LaneStays(Apply(s, run[0]), run[1..], l);
    }
  }

  /** Before a stop no entry is fenced. */
  lemma NothingIsHeld(s: State, l: LaneId)
    requires OrderInv(s) && l in s.host.lanes && s.host.lanes[l].inflight == map[] && (s.sig.stopped ==> s.sig.fence)
    ensures Unheld(s.host.lanes[l], s.sig.fence)
  {
    assert !s.sig.stopped ==> RacersInv(s.host.lanes[l]);
  }

  lemma LaneRests(s: State, l: LaneId) returns (e: State)
    requires StopInv(s) && OrderInv(s) && l in s.host.lanes
    ensures Reaches(s, e) && e.st == s.st && l in e.host.lanes && Rested(e.host.lanes[l])
  {
    var m := s;
    ReachesItself(s);
    if s.sig.stopped { m := FenceCloses(s); }
    var n := ScanLetsGo(m);
    ReachesOn(s, m, n);
    var o := SectionsEnd(n);
    ReachesOn(s, n, o);
    ReachesKeeps(s, o, l);
    var p := AdmissionsEnd(o, l);
    ReachesOn(s, o, p);
    ReachesKeeps(s, p, l);
    NothingIsHeld(p, l);
    e := WorkerRests(p, l);
    ReachesOn(s, p, e);
  }

  /** After every run there is a continuation, in which the stop calls stay as they are, that leaves the lane
      with all it accepted and all it owed carried out. */
  lemma LaneCanRest(s: State, run: seq<Step>, l: LaneId) returns (e: State)
    requires Init(s) && Runs(s, run) && l in After(s, run).host.lanes
    ensures Reaches(After(s, run), e) && e.st == After(s, run).st
    ensures l in e.host.lanes && AcceptedWork(e.host.lanes[l]) == [] && e.host.lanes[l].backlog == [] && !Busy(e.host.lanes[l])
  {
    ReachedStopInv(s, run);
    InitInv(s);
    InitOrder(s);
    RunOrder(s, run);
    e := LaneRests(After(s, run), l);
  }
}
