/** How a lane's worker and its fenced producers sleep and are woken.

    The dispatcher lets a sleeping worker wake at any time. This module keeps the wake-up channels
    themselves: the one-slot mandatoryWake, which is filled after the backlog has changed and not
    together with it, the submit fence, which the worker listens to only if the head entry waited
    for it when the worker last looked, and mandatoryProgress, which is closed and replaced whenever
    an entry leaves the backlog. The changes of the lane are those of Lanes. */
module Wakeups {
  import opened Lanes
  import LaneMap

  datatype State = State(
    q: Lane,
    asleep: bool,              // the worker is blocked in a select
    deciding: bool,            // after the lane's end, a look found nothing and finishWorker is next
    listens: bool,             // that select has, or will have, the submit fence among its cases
    token: bool,               // mandatoryWake holds a token
    ringers: int,              // backlog changes whose token has not been sent yet
    fence: bool,
    stopped: bool,
    generation: int,           // progress channels closed so far; the registered one has this number
    registered: bool,          // mandatoryProgress is not nil
    waiting: map<Token, int>)  // fenced producers and the progress channel each of them waits on

  predicate Init(s: State) {
    s == State(NewLane(s.q.key, s.q.capacity), false, false, false, false, 0, false, false, 0, false, map[])
  }

  function SetLane(s: State, q: Lane): State {
    s.(q := q)
  }

  // ----- The worker -----

  datatype WorkerMove =
    | Start | Poll(hard: bool) | WakeByToken | WakeByFence | Receive(hard: bool) | FinishTask | Settle
    | FinishMandatory | PassBarrier | SeeEnd | SeeQuit | DrainOne | DrainEnd | Finish | StayOn

  /** The worker is about to look at the backlog. */
  predicate Awake(s: State) {
    !s.asleep && !s.deciding && s.q.worker.Polling?
  }

  predicate WorkerEnabled(s: State, a: WorkerMove) {
    match a
    case Start => s.q.worker.NotStarted?
    case Poll(_) => Awake(s)
    case WakeByToken => s.asleep && s.token
    case WakeByFence => s.asleep && s.listens && s.fence
    case Receive(_) => s.asleep && s.q.worker.Selecting? && s.q.ch != []
    case FinishTask => s.q.worker.Task?
    case Settle => s.q.worker.Settling?
    case FinishMandatory => s.q.worker.Mandatory?
    case PassBarrier => AtBarrier(s.q)
    case SeeEnd => s.asleep && s.q.worker.Selecting? && s.q.closed && !s.q.retired && s.q.ch == []
    case SeeQuit => s.asleep && s.q.worker.Selecting? && s.q.retired
    case DrainOne => s.q.worker.Emptying? && s.q.ch != []
    case DrainEnd => s.q.worker.Emptying? && s.q.ch == []
    case Finish => s.deciding && s.q.worker.Polling? && s.q.sawEnd && s.q.backlog == []
    case StayOn => s.deciding && s.q.backlog != []
  }

  /** takeMandatoryCleanup: a taken entry closes the progress channel; after a miss the worker goes to
      its select, or, once its lane has ended, to finishWorker. */
  function PollApply(s: State, hard: bool): State
    requires Awake(s)
  {
    if Ready(s.q, s.fence) then
      var q := Take(s.q, s.fence, hard);
      s.(q := q, generation := s.generation + 1, registered := q.backlog != [])
    else
      s.(q := PollMiss(s.q, s.fence), asleep := !s.q.sawEnd, deciding := s.q.sawEnd,
         listens := s.q.backlog != [] && s.q.backlog[0].fenced && !s.fence)
  }

  function Woken(s: State): State
    requires s.asleep
  {
    s.(asleep := false, q := if s.q.worker.Selecting? then Lanes.Wake(s.q) else s.q)
  }

  function WorkerApply(s: State, a: WorkerMove): State
    requires WorkerEnabled(s, a)
  {
    match a
    case Start => SetLane(s, Lanes.Start(s.q))
    case Poll(hard) => PollApply(s, hard)
    case WakeByToken => Woken(s).(token := false)
    case WakeByFence => Woken(s)
    case Receive(hard) => SetLane(s, Lanes.Receive(s.q, hard)).(asleep := false)
    case FinishTask => SetLane(s, Lanes.FinishTask(s.q))
    case Settle => SetLane(s, Lanes.Settle(s.q))
    case FinishMandatory => SetLane(s, Lanes.FinishMandatory(s.q))
    case PassBarrier => SetLane(s, Lanes.PassBarrier(s.q))
    case SeeEnd => SetLane(s, SeeClosed(s.q)).(asleep := false)
    case SeeQuit => SetLane(s, Lanes.SeeQuit(s.q)).(asleep := false)
    case DrainOne => SetLane(s, Lanes.DrainOne(s.q))
    case DrainEnd => SetLane(s, Lanes.DrainEnd(s.q))
    case Finish => SetLane(s, FinishWorker(s.q)).(deciding := false)
    case StayOn => s.(deciding := false, asleep := true)
  }

  // ----- Producers, the gate and the channels -----

  /** Moves that change the backlog are followed by a token of their own. */
  datatype ProducerMove =
    | EnterGate(t: Token) | PassFence(t: Token) | Admit(t: Token) | Send(t: Token)
    | Abandon(t: Token) | Enqueue(work: Work, fenced: bool)

  predicate ProducerEnabled(s: State, a: ProducerMove) {
    match a
    case EnterGate(_) => !s.q.closed && !s.q.gateLocked
    case PassFence(t) => t in s.q.gate && t !in s.q.inflight && FenceOpen(s.q.backlog, s.stopped)
    case Admit(t) => t in s.q.cleared && t !in s.q.inflight
    case Send(t) => t in s.q.inflight && |s.q.ch| < s.q.capacity
    case Abandon(t) => t in s.q.inflight
    case Enqueue(_, _) => !Refuses(s.q)
  }

  function ProducerApply(s: State, a: ProducerMove): State
    requires ProducerEnabled(s, a)
  {
    match a
    case EnterGate(t) => SetLane(s, Lanes.EnterGate(s.q, t))
    case PassFence(t) => SetLane(s, Lanes.PassFence(s.q, t, s.stopped))
    case Admit(t) => SetLane(s, Lanes.Admit(s.q, t))
    case Send(t) => SetLane(s, Lanes.Send(s.q, t))
    case Abandon(t) => SetLane(s, Lanes.Abandon(s.q, t)).(ringers := s.ringers + if s.q.backlog != [] then 1 else 0)
    case Enqueue(work, fenced) =>
      SetLane(s, Lanes.Enqueue(s.q, work, fenced)).(ringers := s.ringers + 1, registered := true)
  }

  /** A stop closes the lane; the idle scan locks its gate and then leaves it or seals it. */
  datatype GateMove = CloseLane | ScanLock | ScanLeave | ScanSeal

  predicate GateEnabled(s: State, a: GateMove) {
    match a
    case CloseLane => s.q.gate == {} && !s.q.gateLocked
    case ScanLock => s.q.gate == {} && !s.q.gateLocked && s.q.pending == 0 && s.q.ch == [] && !s.q.closed
    case ScanLeave => s.q.gateLocked
    case ScanSeal => s.q.gateLocked && s.q.backlog == []
  }

  function GateApply(s: State, a: GateMove): State
    requires GateEnabled(s, a)
  {
    SetLane(s, match a
      case CloseLane => Close(s.q)
      case ScanLock => LockIdle(s.q)
      case ScanLeave => Unlock(s.q)
      case ScanSeal => Seal(s.q))
  }

  datatype ChannelMove = Ring | WaitForCleanup(t: Token) | StopWaiting(t: Token) | SignalStop | CloseFence

  predicate ChannelEnabled(s: State, a: ChannelMove) {
    match a
    case Ring => s.ringers > 0
    case WaitForCleanup(t) => t in s.q.gate && t !in s.waiting && !FenceOpen(s.q.backlog, s.stopped)
    case StopWaiting(t) => t in s.waiting
    case SignalStop => true
    case CloseFence => s.stopped
  }

  function ChannelApply(s: State, a: ChannelMove): State
    requires ChannelEnabled(s, a)
  {
    match a
    case Ring => s.(token := true, ringers := s.ringers - 1)
    case WaitForCleanup(t) => s.(waiting := s.waiting[t := s.generation])
    case StopWaiting(t) => s.(waiting := s.waiting - {t})
    case SignalStop => s.(stopped := true)
    case CloseFence => s.(fence := true)
  }

  // ----- Runs -----

  datatype Step = OfWorker(w: WorkerMove) | OfProducer(p: ProducerMove) | OfGate(g: GateMove) | OfChannel(c: ChannelMove)

  predicate Enabled(s: State, a: Step) {
    match a
    case OfWorker(w) => WorkerEnabled(s, w)
    case OfProducer(p) => ProducerEnabled(s, p)
    case OfGate(g) => GateEnabled(s, g)
    case OfChannel(c) => ChannelEnabled(s, c)
  }

  function Apply(s: State, a: Step): State
    requires Enabled(s, a)
  {
    match a
    case OfWorker(w) => WorkerApply(s, w)
    case OfProducer(p) => ProducerApply(s, p)
    case OfGate(g) => GateApply(s, g)
    case OfChannel(c) => ChannelApply(s, c)
  }

  predicate Runs(s: State, run: seq<Step>)
    decreases |run|
  {
    run == [] || (Enabled(s, run[0]) && Runs(Apply(s, run[0]), run[1..]))
  }

  function After(s: State, run: seq<Step>): State
    requires Runs(s, run)
    decreases |run|
  {
    if run == [] then s else After(Apply(s, run[0]), run[1..])
  }

  // ----- What a resting worker can rely on -----

  /** Somebody has woken the sleeper already, or is about to. */
  predicate CallPending(s: State) {
    s.token || s.ringers > 0
  }

  /** The worker has looked and not looked again. */
  predicate Resting(s: State) {
    s.asleep || s.deciding
  }

  predicate RestInv(s: State) {
    && s.ringers >= 0
    && (s.asleep ==> s.q.worker.Selecting? || (s.q.worker.Polling? && s.q.sawEnd && s.q.backlog != []))
    && (s.deciding ==> s.q.worker.Polling? && s.q.sawEnd && !s.asleep)
    && (s.q.worker.Selecting? ==> s.asleep)
    && (Resting(s) && Ready(s.q, s.fence) ==> CallPending(s) || (s.listens && s.fence))
    && (Resting(s) && s.q.backlog != [] && s.q.backlog[0].fenced ==> CallPending(s) || s.listens)
  }

  lemma PollRest(s: State, hard: bool)
    requires RestInv(s) && Awake(s)
    ensures RestInv(PollApply(s, hard))
  {
    var s' := PollApply(s, hard);
    if Ready(s.q, s.fence) {
      assert !Resting(s') && !s'.q.worker.Selecting?;
    } else {
      assert s'.q.sawEnd == s.q.sawEnd && (s'.q.worker.Selecting? <==> !s.q.sawEnd);
      assert s'.q.backlog != [] ==> s'.q.backlog[0] == Head(s.q, s.fence);
    }
  }

  /** finishWorker refuses: whatever arrived since the look has its token sent or still to come. */
  lemma StayOnRest(s: State)
    requires RestInv(s) && WorkerEnabled(s, StayOn)
    ensures RestInv(WorkerApply(s, StayOn))
  {
  }

  lemma WorkerRest(s: State, a: WorkerMove)
    requires RestInv(s) && WorkerEnabled(s, a)
    ensures RestInv(WorkerApply(s, a))
  {
    if a.Poll? {
      PollRest(s, a.hard);
    } else if a.StayOn? {
      StayOnRest(s);
    } else {
      var s' := WorkerApply(s, a);
      assert !Resting(s') && !s'.q.worker.Selecting? && s'.ringers == s.ringers;
    }
  }

  /** The worker and what it would look at are as they were; admissions only put a head further off. */
  predicate SameView(p: Lane, q: Lane) {
    && q.worker == p.worker && q.sawEnd == p.sawEnd
    && q.backlog == p.backlog && q.settled == p.settled && q.admitted >= p.admitted
  }

  lemma SameViewRest(s: State, q: Lane)
    requires RestInv(s) && SameView(s.q, q)
    ensures RestInv(SetLane(s, q))
  {
  }

  lemma AbandonRest(s: State, t: Token)
    requires RestInv(s) && t in s.q.inflight
    ensures RestInv(ProducerApply(s, Abandon(t)))
  {
    var b, b' := s.q.backlog, Lanes.Abandon(s.q, t).backlog;
    assert |b'| == |b|;
    assert b != [] ==> b'[0].fenced == b[0].fenced;
  }

  lemma EnqueueRest(s: State, work: Work, fenced: bool)
    requires RestInv(s) && !Refuses(s.q)
    ensures RestInv(ProducerApply(s, Enqueue(work, fenced)))
  {
  }

  lemma PassingViews(q: Lane, t: Token)
    ensures !q.closed && !q.gateLocked ==> SameView(q, Lanes.EnterGate(q, t))
    ensures t in q.cleared && t !in q.inflight ==> SameView(q, Lanes.Admit(q, t))
    ensures t in q.inflight && |q.ch| < q.capacity ==> SameView(q, Lanes.Send(q, t))
  {
  }

  lemma PassingRest(s: State, a: ProducerMove)
    requires RestInv(s) && ProducerEnabled(s, a) && !a.Abandon? && !a.Enqueue?
    ensures RestInv(ProducerApply(s, a))
  {
    PassingViews(s.q, a.t);
    match a
    case EnterGate(t) => SameViewRest(s, Lanes.EnterGate(s.q, t));
    case PassFence(t) => SameViewRest(s, Lanes.PassFence(s.q, t, s.stopped));
    case Admit(t) => SameViewRest(s, Lanes.Admit(s.q, t));
    case Send(t) => SameViewRest(s, Lanes.Send(s.q, t));
  }

  lemma ProducerRest(s: State, a: ProducerMove)
    requires RestInv(s) && ProducerEnabled(s, a)
    ensures RestInv(ProducerApply(s, a))
  {
    if a.Abandon? {
      AbandonRest(s, a.t);
    } else if a.Enqueue? {
      EnqueueRest(s, a.work, a.fenced);
    } else {
      PassingRest(s, a);
    }
  }

  lemma GateRest(s: State, a: GateMove)
    requires RestInv(s) && GateEnabled(s, a)
    ensures RestInv(GateApply(s, a))
  {
    SameViewRest(s, GateApply(s, a).q);
  }

  lemma ChannelRest(s: State, a: ChannelMove)
    requires RestInv(s) && ChannelEnabled(s, a)
    ensures RestInv(ChannelApply(s, a))
  {
  }

  // ----- What a fenced producer can rely on -----

  ghost predicate WaitFace(s: State, t: Token) {
    t in s.waiting ==>
      && s.waiting[t] <= s.generation
      && (s.waiting[t] == s.generation ==> s.registered && (s.stopped || !FenceOpen(s.q.backlog, false)))
  }

  ghost predicate WaitInv(s: State) {
    && (s.registered <==> s.q.backlog != [])
    && forall t {:trigger WaitFace(s, t)} :: WaitFace(s, t)
  }

  /** Before a stop, only a release fences, and entries that are appended or refreshed keep it there. */
  lemma {:induction false} StillFenced(b: seq<Entry>, b': seq<Entry>)
    requires |b| <= |b'| && forall k :: 0 <= k < |b| ==> b'[k].work == b[k].work
    ensures !FenceOpen(b, false) ==> !FenceOpen(b', false)
    decreases |b|
  {
    if b != [] {
      assert b'[0].work == b[0].work;
      StillFenced(b[1..], b'[1..]);
    }
  }

  lemma {:induction false} FencedIsRegistered(b: seq<Entry>, stopped: bool)
    requires !FenceOpen(b, stopped)
    ensures b != [] && !FenceOpen(b, false)
    decreases |b|
  {
    if b[0].work.Barrier? { FencedIsRegistered(b[1..], stopped); }
  }

  lemma KeepWaiting(s: State, s': State)
    requires WaitInv(s) && s'.generation == s.generation && s'.waiting == s.waiting
    requires s'.registered == (s'.q.backlog != []) && (s.stopped ==> s'.stopped)
    requires |s.q.backlog| <= |s'.q.backlog|
    requires forall k :: 0 <= k < |s.q.backlog| ==> s'.q.backlog[k].work == s.q.backlog[k].work
    ensures WaitInv(s')
  {
    StillFenced(s.q.backlog, s'.q.backlog);
    forall t ensures WaitFace(s', t) {
      assert WaitFace(s, t);
    }
  }

  /** An entry leaves: every producer that waits does so on a channel that is closed now. */
  lemma ReleaseWaiting(s: State, s': State)
    requires WaitInv(s) && s'.generation == s.generation + 1 && s'.waiting == s.waiting
    requires s'.registered == (s'.q.backlog != [])
    ensures WaitInv(s')
  {
    forall t ensures WaitFace(s', t) {
      assert WaitFace(s, t);
    }
  }

  lemma WorkerWait(s: State, a: WorkerMove)
    requires WaitInv(s) && WorkerEnabled(s, a)
    ensures WaitInv(WorkerApply(s, a))
  {
    if a.Poll? && Ready(s.q, s.fence) {
      ReleaseWaiting(s, PollApply(s, a.hard));
    } else if a.Poll? {
      KeepWaiting(s, PollApply(s, a.hard));
    } else {
      assert WorkerApply(s, a).q.backlog == s.q.backlog;
      KeepWaiting(s, WorkerApply(s, a));
    }
  }

  lemma ProducerWait(s: State, a: ProducerMove)
    requires WaitInv(s) && ProducerEnabled(s, a)
    ensures WaitInv(ProducerApply(s, a))
  {
    KeepWaiting(s, ProducerApply(s, a));
  }

  lemma ChannelWait(s: State, a: ChannelMove)
    requires WaitInv(s) && ChannelEnabled(s, a)
    ensures WaitInv(ChannelApply(s, a))
  {
    if a.WaitForCleanup? { FencedIsRegistered(s.q.backlog, s.stopped); }
    forall u ensures WaitFace(ChannelApply(s, a), u) {
      assert WaitFace(s, u);
    }
  }

  // ----- The lane -----

  lemma PollLane(s: State, hard: bool)
    requires LaneInv(s.q) && Awake(s)
    ensures LaneInv(PollApply(s, hard).q)
  {
    if Ready(s.q, s.fence) { TakeInv(s.q, s.fence, hard); } else { PollMissInv(s.q, s.fence); }
  }

  lemma HandlingLane(q: Lane, hard: bool)
    requires LaneInv(q)
    ensures q.worker.Selecting? && q.ch != [] ==> LaneInv(Lanes.Receive(q, hard))
    ensures q.worker.Task? ==> LaneInv(Lanes.FinishTask(q))
    ensures q.worker.Settling? ==> LaneInv(Lanes.Settle(q))
  {
    if q.worker.Selecting? && q.ch != [] {
      ReceiveInv(q, hard);
    } else if q.worker.Task? {
      FinishTaskInv(q);
    } else if q.worker.Settling? {
      QuietStepInv(q, Lanes.Settle(q));
    }
  }

  lemma WorkerLane(s: State, a: WorkerMove)
    requires LaneInv(s.q) && WorkerEnabled(s, a)
    ensures LaneInv(WorkerApply(s, a).q)
  {
    match a
    case Poll(hard) => PollLane(s, hard);
    case Receive(hard) => HandlingLane(s.q, hard);
    case FinishTask => HandlingLane(s.q, false);
    case Settle => HandlingLane(s.q, false);
    case FinishMandatory => LaneMap.LeaveBacklogInv(s.q);
    case PassBarrier => LaneMap.LeaveBacklogInv(s.q);
    case Finish => LaneMap.LeaveBacklogInv(s.q);
    case DrainOne => NothingToDrain(s.q);
    case StayOn =>
    case _ => LaneMap.SelectInv(s.q);
  }

  lemma ProducerLane(s: State, a: ProducerMove)
    requires LaneInv(s.q) && ProducerEnabled(s, a)
    ensures LaneInv(ProducerApply(s, a).q)
  {
    match a
    case EnterGate(t) => QuietStepInv(s.q, Lanes.EnterGate(s.q, t));
    case PassFence(t) => QuietStepInv(s.q, Lanes.PassFence(s.q, t, s.stopped));
    case Admit(t) => AdmitInv(s.q, t);
    case Send(t) => SendInv(s.q, t);
    case Abandon(t) => AbandonInv(s.q, t);
    case Enqueue(work, fenced) => EnqueueInv(s.q, work, fenced);
  }

  lemma GateLane(s: State, a: GateMove)
    requires LaneInv(s.q) && GateEnabled(s, a)
    ensures LaneInv(GateApply(s, a).q)
  {
    match a
    case CloseLane => QuietStepInv(s.q, Close(s.q));
    case ScanLock => QuietStepInv(s.q, LockIdle(s.q));
    case ScanLeave => QuietStepInv(s.q, Unlock(s.q));
    case ScanSeal => QuietStepInv(s.q, Seal(s.q));
  }

  // ----- The promises -----

  ghost predicate Inv(s: State) {
    LaneInv(s.q) && RestInv(s) && WaitInv(s)
  }

  lemma InitInv(s: State)
    requires Init(s)
    ensures Inv(s)
  {
    NewLaneInv(s.q.key, s.q.capacity);
  }

  lemma StepInv(s: State, a: Step)
    requires Inv(s) && Enabled(s, a)
    ensures Inv(Apply(s, a))
  {
    match a
    case OfWorker(w) =>
      WorkerLane(s, w);
      WorkerRest(s, w);
      WorkerWait(s, w);
    case OfProducer(p) =>
      ProducerLane(s, p);
      ProducerRest(s, p);
      ProducerWait(s, p);
    case OfGate(g) =>
      GateLane(s, g);
      GateRest(s, g);
      KeepWaiting(s, GateApply(s, g));
    case OfChannel(c) =>
      ChannelRest(s, c);
      ChannelWait(s, c);
  }

  lemma {:induction false} RunInv(s: State, run: seq<Step>)
    requires Inv(s) && Runs(s, run)
    ensures Inv(After(s, run))
    decreases |run|
  {
    if run != [] {
      StepInv(s, run[0]);
      RunInv(Apply(s, run[0]), run[1..]);
    }
  }

  /** A sleeper can wake, or a token is about to be sent. */
  predicate Called(s: State) {
    WorkerEnabled(s, WakeByToken) || WorkerEnabled(s, WakeByFence) || ChannelEnabled(s, Ring)
  }

  lemma RestIsCalled(s: State)
    requires RestInv(s) && s.asleep
    ensures Ready(s.q, s.fence) ==> Called(s)
    ensures s.q.retired && !s.q.sawEnd ==> WorkerEnabled(s, SeeQuit)
    ensures s.q.closed && !s.q.retired && !s.q.sawEnd && s.q.ch == [] ==> WorkerEnabled(s, SeeEnd)
  {
  }

  /** No wake-up of a worker is lost: asleep with something ready to run it is called, and asleep on an
      ended lane it can see the end. */
  lemma SleeperIsCalled(s: State, run: seq<Step>)
    requires Init(s) && Runs(s, run) && After(s, run).asleep
    ensures var e := After(s, run);
            && (Ready(e.q, e.fence) ==> Called(e))
            && (e.q.retired && !e.q.sawEnd ==> WorkerEnabled(e, SeeQuit))
            && (e.q.closed && !e.q.retired && !e.q.sawEnd && e.q.ch == [] ==> WorkerEnabled(e, SeeEnd))
  {
    InitInv(s);
    RunInv(s, run);
    RestIsCalled(After(s, run));
  }

  /** An ended lane has nothing more to settle, so its head is ready unless the fence holds it. */
  lemma EndedIsReady(q: Lane, fence: bool)
    requires LaneInv(q) && q.sawEnd && q.worker.Polling? && q.backlog != []
    ensures Ready(q, fence) || (q.backlog[0].fenced && !fence)
  {
    assert q.inflight.Keys == {};
    assert q.inflight == map[];
    assert AcceptedWork(q) == [];
    if q.backlog[0].fenced ==> fence {
      SettledHeadIsReady(q, fence);
    }
  }

  lemma InvEnded(s: State)
    requires LaneInv(s.q) && RestInv(s) && s.asleep && s.q.sawEnd
    ensures s.q.backlog != [] && (Called(s) || (s.q.backlog[0].fenced && !s.fence && s.listens))
  {
    assert s.q.worker.Polling?;
    EndedIsReady(s.q, s.fence);
    RestIsCalled(s);
  }

  /** After the lane's end a worker sleeps only while it owes something, and then it is called, or the
      only thing it waits for is the submit fence, to which it listens. */
  lemma EndedWorkerWaitsForFence(s: State, run: seq<Step>)
    requires Init(s) && Runs(s, run) && After(s, run).asleep && After(s, run).q.sawEnd
    ensures var e := After(s, run);
            e.q.backlog != [] && (Called(e) || (e.q.backlog[0].fenced && !e.fence && e.listens))
  {
    InitInv(s);
    RunInv(s, run);
    InvEnded(After(s, run));
  }

  /** No wake-up of a fenced producer is lost: the channel it waits on is closed, or registered to be
      closed when an entry leaves, with a release still there to leave unless a stop was signalled. */
  lemma WaiterIsRegistered(s: State, run: seq<Step>, t: Token)
    requires Init(s) && Runs(s, run) && t in After(s, run).waiting
    ensures var e := After(s, run);
            || e.waiting[t] < e.generation
            || (e.waiting[t] == e.generation && e.registered && e.q.backlog != []
                && (e.stopped || !FenceOpen(e.q.backlog, false)))
  {
    InitInv(s);
    RunInv(s, run);
    assert WaitFace(After(s, run), t);
  }
}
