/** The dispatcher of bindings/go/asyncengine as a transition system.

    The state is everything the goroutines share: the lanes and the maps of the Dynamic strategy,
    the stop signals, the Exclusive sections, the off-lane handle releases, and one program
    counter per public operation, per Exclusive call and per stop call. A step is one critical
    section or one atomic action of the code, so a run is any interleaving of the goroutines, with
    four mergers. A producer's change of `pending` is one step with the change of the backlog or
    of the counters beside it: the producer holds the read side of the gate, and the look at
    `pending` that decides is made under the write side. A backlog entry and its count in `pending`
    are made in one step, both under the backlog's mutex. Closing stopCh and looking at the
    producer count is one step; SubmitFence has them apart. A worker reads the hard-stop flag in the
    step in which it receives or takes its work, the code a moment later: a run in which the flag is
    set in between is one in which the work was taken after it.

    Lanes that all exist in the initial state stand for the shards of the Sharded strategy, as far
    as one routing key per shard goes; SubmitFence has the sends that take no gate. */
module Dispatcher {
  import opened Lanes
  import opened Wrappers

  type LaneId = int
  type StopId = int


  // ----- Program counters -----

  /** Where a public operation is: its submit, its failure handoff, or the place that owns it. */
  datatype OpPc =
    | Fresh
    | Looking                        // registered by beginSubmit, about to call getOrCreate
    | Found(lane: LaneId)            // holds a queue pointer, which may have gone stale
    | InGate(lane: LaneId)           // holds the gate, before waitForMandatoryCleanup
    | Cleared(lane: LaneId)          // past the backlog fence
    | Admitted(lane: LaneId)         // past admitTask, not yet sent
    | Queued(lane: LaneId)           // accepted: the lane owns it
    | Failed                         // the submit failed
    | Sched                          // top of scheduleSubmitFailureCleanup
    | SchedLane(lane: LaneId)
    | SchedLaneBegun(lane: LaneId)
    | SchedLimit
    | SchedLimitBegun
    | AfterStop                      // cleanupAfterStoppedLane
    | AfterStopLane(lane: LaneId)
    | NoLane                         // runLifecycleCleanup
    | OffLane                        // running its release behind a key barrier
    | Tracked                        // running its release, counted against stop
    | Untracked                      // running its release after the stop sealed the count
    | Backlogged(lane: LaneId)       // the lane's backlog owns the release
    | Postponed(section: SectionId)  // a section owns the release
    | Done

  datatype Op = Op(key: RoutingKey, handsOff: bool, pc: OpPc)

  /** What ended an operation: each one resolves the future, and all but NotAccepted (and a run that
      was never meant to close) release the inner handle. */
  datatype How = Ran | Aborted | ReleasedHandle | NotAccepted

  datatype Settled = Settled(token: Token, how: How)

  datatype SectionPc =
    | Arrived | HasTurn | Registered
    | WaitOffLane | Barring | BarringAdd | Counting | Checking | RunningFn | Draining
    | Withdrawn | LanesFreed | Left | Ended

  datatype SectionEnd = Unfinished | EndedEarly | FnReturned | FnPanicked | ReleasePanicked(token: Token)

  datatype Section = Section(
    pc: SectionPc,
    expected: int,
    parked: int,
    aborted: bool,
    todo: set<LaneId>,           // snapshotted queues that have no barrier yet
    waits: set<Token>,           // off-lane releases that were running at installation
    waitEpoch: Option<int>,      // the lifecycleCleanupDone channel to wait for
    deferred: seq<Token>,
    batch: seq<Token>,           // releases being run by the drain loop
    fnStarted: bool,
    fnRunning: bool,             // the source's fnRunning: stays true while fn panics
    panicked: Option<int>,
    end: SectionEnd)

  datatype StopPc =
    | StopArrived | LoopStopped | HardSignalled | Signalled | SubmitsDone
    | Closing(todo: set<LaneId>) | WaitingWorkers | WorkersDone | SectionsDone | LifecycleSealed
    | Succeeded | TimedOut

  datatype Stopper = Stopper(hard: bool, pc: StopPc)

  /** The Dynamic strategy under its lock. */
  datatype Host = Host(
    maxQueues: int,
    capacity: int,
    lanes: map<LaneId, Lane>,              // every lane ever created
    queues: map<RoutingKey, LaneId>,
    barriers: map<RoutingKey, Token>,      // cleanupBarriers, by the operation behind each
    retiring: Option<int>,              // retireIfIdle between its checks and markRetired
    stopping: bool)

  /** The signals and counters of `base`. */
  datatype Signals = Signals(
    loopStop: bool,
    loopDone: bool,
    stopped: bool,
    hard: bool,
    fence: bool,                           // submitFenceCh is closed
    inFlight: set<Token>,
    checking: set<Token>,                  // endSubmit saw zero and has not looked at stopCh yet
    tracked: set<Token>,                   // the releases counted by lifecycleCleanupCount
    epoch: int,                            // how many lifecycleCleanupDone channels were closed
    sealed: bool)

  /** The public operations and, in order, how each of them ended. */
  datatype Book = Book(ops: map<Token, Op>, log: seq<Settled>)

  datatype Exclusion = Exclusion(
    turn: Option<int>,
    active: Option<int>,
    freed: set<SectionId>,                 // sections whose release channel is closed
    sections: map<SectionId, Section>)

  datatype Stops = Stops(
    stoppers: map<StopId, Stopper>,
    released: bool,                        // AsyncEngine.stopOnce has fired
    releases: int)                         // calls of stopUnderlying

  datatype State = State(host: Host, sig: Signals, book: Book, ex: Exclusion, st: Stops)

  predicate Init(s: State) {
    && (forall l :: l in s.host.lanes ==> s.host.lanes[l] == NewLane(s.host.lanes[l].key, s.host.capacity))
    && (forall l :: l in s.host.lanes ==> s.host.lanes[l].key in s.host.queues && s.host.queues[s.host.lanes[l].key] == l)
    && (forall k :: k in s.host.queues ==> s.host.queues[k] in s.host.lanes && s.host.lanes[s.host.queues[k]].key == k)
    && (s.host.maxQueues > 0 ==> |s.host.queues| <= s.host.maxQueues)
    && s.host.barriers == map[] && s.host.retiring.None? && !s.sig.loopStop
    && !s.host.stopping && !s.sig.stopped && !s.sig.hard && !s.sig.fence
    && s.sig.inFlight == {} && s.sig.checking == {} && s.book.ops == map[] && s.book.log == []
    && s.ex.turn.None? && s.ex.active.None? && s.ex.freed == {} && s.ex.sections == map[]
    && s.sig.tracked == {} && s.sig.epoch == 0 && !s.sig.sealed
    && s.st.stoppers == map[] && !s.st.released && s.st.releases == 0
  }

  /** retireIfIdle holds the strategy lock between its two halves. */
  predicate MuFree(s: State) {
    s.host.retiring.None?
  }

  predicate Live(s: State, key: RoutingKey) {
    key in s.host.queues && s.host.queues[key] in s.host.lanes && !s.host.lanes[s.host.queues[key]].closed
  }

  function PutLane(h: Host, l: LaneId, q: Lane): Host {
    h.(lanes := h.lanes[l := q])
  }

  function PutPc(b: Book, t: Token, pc: OpPc): Book
    requires t in b.ops
  {
    b.(ops := b.ops[t := b.ops[t].(pc := pc)])
  }

  function PutDone(b: Book, t: Token, how: How): Book
    requires t in b.ops
  {
    PutPc(b, t, Done).(log := b.log + [Settled(t, how)])
  }

  function PutSection(e: Exclusion, i: SectionId, x: Section): Exclusion {
    e.(sections := e.sections[i := x])
  }

  function PutStop(c: Stops, k: StopId, pc: StopPc): Stops
    requires k in c.stoppers
  {
    c.(stoppers := c.stoppers[k := c.stoppers[k].(pc := pc)])
  }

  function SetPc(s: State, t: Token, pc: OpPc): State
    requires t in s.book.ops
  {
    s.(book := PutPc(s.book, t, pc))
  }

  function SetLane(s: State, l: LaneId, q: Lane): State {
    s.(host := PutLane(s.host, l, q))
  }

  function Finish(s: State, t: Token, how: How): State
    requires t in s.book.ops
  {
    s.(book := PutDone(s.book, t, how))
  }

  function SetSection(s: State, i: SectionId, x: Section): State {
    s.(ex := PutSection(s.ex, i, x))
  }

  function SetStop(s: State, k: StopId, pc: StopPc): State
    requires k in s.st.stoppers
  {
    s.(st := PutStop(s.st, k, pc))
  }

  // ----- getOrCreate -----

  /** getOrCreate has a queue to return: a live one, or room and no barrier to make one. */
  predicate CanGet(s: State, key: RoutingKey, newId: LaneId) {
    && MuFree(s)
    && (Live(s, key) || (!s.host.stopping && key !in s.host.barriers && !AtLimit(s) && newId !in s.host.lanes))
  }

  predicate AtLimit(s: State) {
    s.host.maxQueues > 0 && |s.host.queues| >= s.host.maxQueues
  }

  /** A lane created during a section starts with the section's barrier. */
  function CreatedLane(s: State, key: RoutingKey): Lane {
    var q := NewLane(key, s.host.capacity);
    if s.ex.active.Some? then Lanes.Enqueue(q, Barrier(s.ex.active.value), false) else q
  }

  function Create(s: State, key: RoutingKey, newId: LaneId): State
    requires s.ex.active.Some? ==> s.ex.active.value in s.ex.sections
  {
    var s1 := s.(host := s.host.(lanes := s.host.lanes[newId := CreatedLane(s, key)], queues := s.host.queues[key := newId]));
    if s.ex.active.Some? then
      var x := s.ex.sections[s.ex.active.value];
      SetSection(s1, s.ex.active.value, x.(expected := x.expected + 1))
    else s1
  }

  function Get(s: State, key: RoutingKey, newId: LaneId): (State, LaneId)
    requires CanGet(s, key, newId)
    requires s.ex.active.Some? ==> s.ex.active.value in s.ex.sections
  {
    if Live(s, key) then (s, s.host.queues[key]) else (Create(s, key, newId), newId)
  }

  // ----- Steps of a public operation: registration and lane lookup -----

  datatype ProducerStep =
    | Issue(key: RoutingKey, handsOff: bool)
    | BeginSubmit | Lookup(newId: LaneId) | SeeStop | SeeLimit | EndSubmit | CheckFence

  predicate Returned(pc: OpPc) {
    pc.Queued? || pc.Backlogged? || pc.Postponed? || pc.Done?
  }

  predicate ActiveOk(s: State) {
    s.ex.active.Some? ==> s.ex.active.value in s.ex.sections
  }

  predicate ProducerEnabled(s: State, t: Token, a: ProducerStep) {
    if a.Issue? then t !in s.book.ops else
    t in s.book.ops &&
    var pc := s.book.ops[t].pc;
    var key := s.book.ops[t].key;
    match a
    case Issue(_, _) => true
    case BeginSubmit => pc.Fresh?
    case Lookup(newId) => (pc.Looking? || pc.Sched?) && CanGet(s, key, newId) && ActiveOk(s)
    case SeeStop => (pc.Looking? || pc.Sched?) && s.sig.stopped
    case SeeLimit => (pc.Looking? || pc.Sched?) && MuFree(s) && !Live(s, key) && !s.host.stopping
                     && key !in s.host.barriers && AtLimit(s)
    case EndSubmit => Returned(pc) && t in s.sig.inFlight
    case CheckFence => t in s.sig.checking
  }

  function ProducerApply(s: State, t: Token, a: ProducerStep): (r: State)
    requires ProducerEnabled(s, t, a)
    ensures r.st == s.st && r.host.stopping == s.host.stopping && r.host.retiring == s.host.retiring
    ensures r.sig.stopped == s.sig.stopped && r.sig.loopDone == s.sig.loopDone && r.sig.sealed == s.sig.sealed
    ensures r.sig.tracked == s.sig.tracked && r.ex.active == s.ex.active && r.book.log == s.book.log
    ensures s.sig.fence ==> r.sig.fence
  {
    if a.Issue? then s.(book := s.book.(ops := s.book.ops[t := Op(a.key, a.handsOff, Fresh)])) else
    var pc := s.book.ops[t].pc;
    match a
    case Issue(_, _) => s
    case BeginSubmit =>
      if s.sig.stopped then SetPc(s, t, Failed) else SetPc(s.(sig := s.sig.(inFlight := s.sig.inFlight + {t})), t, Looking)
    case Lookup(newId) =>
      var (s1, l) := Get(s, s.book.ops[t].key, newId);
      SetPc(s1, t, if pc.Looking? then Found(l) else SchedLane(l))
    case SeeStop => SetPc(s, t, if pc.Looking? then Failed else AfterStop)
    case SeeLimit => SetPc(s, t, if pc.Looking? then Failed else SchedLimit)
    case EndSubmit =>
      var rest := s.sig.inFlight - {t};
      s.(sig := s.sig.(inFlight := rest, checking := if rest == {} then s.sig.checking + {t} else s.sig.checking))
    case CheckFence => s.(sig := s.sig.(checking := s.sig.checking - {t}, fence := s.sig.fence || s.sig.stopped))
  }

  // ----- Steps of a public operation: the attempt on one lane -----

  datatype SendStep = EnterGate | PassFence | Admit | Send | Abandon | GiveUp

  predicate SendEnabled(s: State, t: Token, a: SendStep) {
    && t in s.book.ops
    && (s.book.ops[t].pc.Found? || s.book.ops[t].pc.InGate? || s.book.ops[t].pc.Cleared? || s.book.ops[t].pc.Admitted?)
    && s.book.ops[t].pc.lane in s.host.lanes
    && var pc := s.book.ops[t].pc;
    var q := s.host.lanes[pc.lane];
    match a
    case EnterGate => pc.Found? && !q.gateLocked
    case PassFence => pc.InGate? && t in q.gate && t !in q.inflight && FenceOpen(q.backlog, s.sig.stopped)
    case Admit => pc.Cleared? && t in q.cleared && t !in q.inflight
    case Send => pc.Admitted? && t in q.inflight && |q.ch| < q.capacity
    case Abandon => pc.Admitted? && t in q.inflight
    case GiveUp => (pc.InGate? || pc.Cleared?) && t !in q.inflight
  }

  function SendApply(s: State, t: Token, a: SendStep): (r: State)
    requires SendEnabled(s, t, a)
    ensures r.sig == s.sig && r.ex == s.ex && r.st == s.st && r.book.log == s.book.log
    ensures var l := s.book.ops[t].pc.lane; l in r.host.lanes && r.host == PutLane(s.host, l, r.host.lanes[l])
  {
    var l := s.book.ops[t].pc.lane;
    var q := s.host.lanes[l];
    match a
    case EnterGate =>
      if q.closed then SetPc(s, t, Looking)
      else SetPc(SetLane(s, l, Lanes.EnterGate(q, t)), t, InGate(l))
    case PassFence => SetPc(SetLane(s, l, Lanes.PassFence(q, t, s.sig.stopped)), t, Cleared(l))
    case Admit => SetPc(SetLane(s, l, Lanes.Admit(q, t)), t, Admitted(l))
    case Send => SetPc(SetLane(s, l, Lanes.Send(q, t)), t, Queued(l))
    case Abandon => SetPc(SetLane(s, l, Lanes.Abandon(q, t)), t, Failed)
    case GiveUp => SetPc(SetLane(s, l, LeaveGate(q, t)), t, Failed)
  }

  // ----- Steps of a public operation: the failure handoff -----

  datatype HandoffStep =
    | HandOff | InnerBegin | EnqueueRelease | CleanupWithoutLane | FinishOffLane
    | FindStopped | EnqueueStopped | BeginLifecycle | FinishLifecycle

  predicate HandoffEnabled(s: State, t: Token, a: HandoffStep) {
    && t in s.book.ops
    && ActiveOk(s)
    && var pc := s.book.ops[t].pc;
    match a
    case HandOff => pc.Failed?
    case InnerBegin => pc.SchedLane? || pc.SchedLimit?
    case EnqueueRelease => pc.SchedLaneBegun? && pc.lane in s.host.lanes
    case CleanupWithoutLane => pc.SchedLimitBegun? && MuFree(s)
    case FinishOffLane => pc.OffLane? && MuFree(s)
    case FindStopped => pc.AfterStop? && MuFree(s)
    case EnqueueStopped => pc.AfterStopLane? && pc.lane in s.host.lanes
    case BeginLifecycle => pc.NoLane?
    case FinishLifecycle => pc.Tracked? || pc.Untracked?
  }

  function PostponeTo(s: State, t: Token, i: SectionId): State
    requires t in s.book.ops && i in s.ex.sections
  {
    var x := s.ex.sections[i];
    SetPc(SetSection(s, i, x.(deferred := x.deferred + [t])), t, Postponed(i))
  }

  /** cleanupWithoutLiveLane up to the point where its lock is released. */
  function TryOffLane(s: State, t: Token): State
    requires t in s.book.ops && ActiveOk(s)
  {
    var key := s.book.ops[t].key;
    if s.host.stopping || Live(s, key) || key in s.host.barriers then SetPc(s, t, Sched)
    else if s.ex.active.Some? then PostponeTo(s, t, s.ex.active.value)
    else SetPc(s.(host := s.host.(barriers := s.host.barriers[key := t])), t, OffLane)
  }

  /** beginLifecycleCleanup */
  function TryLifecycle(s: State, t: Token): State
    requires t in s.book.ops && ActiveOk(s)
  {
    if s.sig.sealed then SetPc(s, t, Untracked)
    else if s.ex.active.Some? then PostponeTo(s, t, s.ex.active.value)
    else SetPc(s.(sig := s.sig.(tracked := s.sig.tracked + {t})), t, Tracked)
  }

  /** endLifecycleCleanup: the last one out closes the channel of this epoch. */
  function EndLifecycle(s: State, t: Token): State
    requires t in s.book.ops
  {
    if s.book.ops[t].pc.Tracked? then
      var rest := s.sig.tracked - {t};
      Finish(s, t, ReleasedHandle).(sig := s.sig.(tracked := rest, epoch := s.sig.epoch + if rest == {} then 1 else 0))
    else Finish(s, t, ReleasedHandle)
  }

  /** enqueueSubmitFailureCleanup: the lane takes the release, or refuses and the caller goes on. */
  function EnqueueFor(s: State, t: Token, l: LaneId, fenced: bool, refused: OpPc): State
    requires t in s.book.ops && l in s.host.lanes
  {
    if Refuses(s.host.lanes[l]) then SetPc(s, t, refused)
    else SetPc(SetLane(s, l, Lanes.Enqueue(s.host.lanes[l], Release(t), fenced)), t, Backlogged(l))
  }

  function HandoffApply(s: State, t: Token, a: HandoffStep): (r: State)
    requires HandoffEnabled(s, t, a)
    ensures r.st == s.st && r.host.stopping == s.host.stopping && r.host.retiring == s.host.retiring
    ensures r.sig.stopped == s.sig.stopped && r.sig.loopDone == s.sig.loopDone && r.sig.sealed == s.sig.sealed
    ensures r.sig.fence == s.sig.fence && r.sig.inFlight == s.sig.inFlight
    ensures r.ex.active == s.ex.active && r.host.queues == s.host.queues && r.host.lanes.Keys == s.host.lanes.Keys
  {
    var pc := s.book.ops[t].pc;
    var key := s.book.ops[t].key;
    match a
    case HandOff => if s.book.ops[t].handsOff then SetPc(s, t, Sched) else Finish(s, t, NotAccepted)
    case InnerBegin =>
      SetPc(s, t, if s.sig.stopped then AfterStop
                  else if pc.SchedLane? then SchedLaneBegun(pc.lane) else SchedLimitBegun)
    case EnqueueRelease => EnqueueFor(s, t, pc.lane, false, Sched)
    case CleanupWithoutLane => TryOffLane(s, t)
    case FinishOffLane => Finish(s, t, ReleasedHandle).(host := s.host.(barriers := s.host.barriers - {key}))
    case FindStopped => SetPc(s, t, if key in s.host.queues then AfterStopLane(s.host.queues[key]) else NoLane)
    case EnqueueStopped => EnqueueFor(s, t, pc.lane, true, NoLane)
    case BeginLifecycle => TryLifecycle(s, t)
    case FinishLifecycle => EndLifecycle(s, t)
  }

  // ----- Steps of a worker -----

  datatype WorkerStep =
    | StartWorker | Take | PollMiss | Wake | Receive | SeeClosed | SeeQuit | DrainOne | DrainEnd
    | FinishTask | Settle | FinishMandatory | PassBarrier | FinishWorker

  predicate WorkerEnabled(s: State, l: LaneId, a: WorkerStep) {
    && l in s.host.lanes
    && var q := s.host.lanes[l];
    match a
    case StartWorker => q.worker.NotStarted?
    case Take => q.worker.Polling? && Ready(q, s.sig.fence)
                 && (q.backlog[0].work.Barrier? ==> q.backlog[0].work.section in s.ex.sections)
    case PollMiss => q.worker.Polling? && !Ready(q, s.sig.fence)
    case Wake => q.worker.Selecting?
    case Receive => q.worker.Selecting? && q.ch != []
    case SeeClosed => q.worker.Selecting? && q.closed && !q.retired && q.ch == []
    case SeeQuit => q.worker.Selecting? && q.retired
    case DrainOne => q.worker.Emptying? && q.ch != [] && q.ch[0] in s.book.ops
    case DrainEnd => q.worker.Emptying? && q.ch == []
    case FinishTask => q.worker.Task? && q.worker.token in s.book.ops
    case Settle => q.worker.Settling?
    case FinishMandatory => q.worker.Mandatory? && q.worker.token in s.book.ops
    case PassBarrier => AtBarrier(q) && q.worker.section in s.ex.freed
    case FinishWorker => q.worker.Polling? && q.sawEnd && q.backlog == []
  }

  function WorkerApply(s: State, l: LaneId, a: WorkerStep): (r: State)
    requires WorkerEnabled(s, l, a)
    ensures r.sig == s.sig && r.st == s.st && r.ex.active == s.ex.active && r.ex.turn == s.ex.turn && r.ex.freed == s.ex.freed
    ensures l in r.host.lanes && r.host == PutLane(s.host, l, r.host.lanes[l])
  {
    var q := s.host.lanes[l];
    match a
    case StartWorker => SetLane(s, l, Start(q))
    case Take =>
      var s1 := SetLane(s, l, Lanes.Take(q, s.sig.fence, s.sig.hard));
      if s.sig.hard && q.backlog[0].work.Barrier? then
        var i := q.backlog[0].work.section;
        SetSection(s1, i, s.ex.sections[i].(aborted := true))
      else s1
    case PollMiss => SetLane(s, l, Lanes.PollMiss(q, s.sig.fence))
    case Wake => SetLane(s, l, Lanes.Wake(q))
    case Receive => SetLane(s, l, Lanes.Receive(q, s.sig.hard))
    case SeeClosed => SetLane(s, l, Lanes.SeeClosed(q))
    case SeeQuit => SetLane(s, l, Lanes.SeeQuit(q))
    case DrainOne => Finish(SetLane(s, l, Lanes.DrainOne(q)), q.ch[0], Aborted)
    case DrainEnd => SetLane(s, l, Lanes.DrainEnd(q))
    case FinishTask =>
      Finish(SetLane(s, l, Lanes.FinishTask(q)), q.worker.token, if q.worker.aborted then Aborted else Ran)
    case Settle => SetLane(s, l, Lanes.Settle(q))
    case FinishMandatory =>
      Finish(SetLane(s, l, Lanes.FinishMandatory(q)), q.worker.token, ReleasedHandle)
    case PassBarrier => SetLane(s, l, Lanes.PassBarrier(q))
    case FinishWorker => SetLane(s, l, Lanes.FinishWorker(q))
  }

  // ----- Steps of the idle scan -----

  datatype LoopStep = RetireCheck(lane: LaneId) | RetireRefuse | RetireSeal | LoopExit

  predicate LoopEnabled(s: State, a: LoopStep) {
    !s.sig.loopDone &&
    match a
    case RetireCheck(l) =>
      && MuFree(s) && s.ex.active.None?
      && l in s.host.lanes && s.host.lanes[l].key in s.host.queues && s.host.queues[s.host.lanes[l].key] == l
      && s.host.lanes[l].gate == {} && !s.host.lanes[l].gateLocked && s.host.lanes[l].pending == 0 && s.host.lanes[l].ch == []
    case RetireRefuse =>
      s.host.retiring.Some? && s.host.retiring.value in s.host.lanes && s.host.lanes[s.host.retiring.value].gateLocked
    case RetireSeal =>
      s.host.retiring.Some? && s.host.retiring.value in s.host.lanes && s.host.lanes[s.host.retiring.value].gateLocked
      && s.host.lanes[s.host.retiring.value].backlog == []
    case LoopExit => s.sig.loopStop && s.host.retiring.None?
  }

  function LoopApply(s: State, a: LoopStep): (r: State)
    requires LoopEnabled(s, a)
    ensures r.book == s.book && r.ex == s.ex && r.st == s.st && r.host.stopping == s.host.stopping
    ensures r.sig == s.sig.(loopDone := r.sig.loopDone)
    ensures r.host.lanes.Keys == s.host.lanes.Keys
  {
    match a
    case RetireCheck(l) => s.(host := PutLane(s.host, l, LockIdle(s.host.lanes[l])).(retiring := Some(l)))
    case RetireRefuse =>
      var l := s.host.retiring.value;
      s.(host := PutLane(s.host, l, Unlock(s.host.lanes[l])).(retiring := None))
    case RetireSeal =>
      var l := s.host.retiring.value;
      s.(host := PutLane(s.host, l, Seal(s.host.lanes[l]))
                   .(retiring := None, queues := s.host.queues - {s.host.lanes[l].key}))
    case LoopExit => s.(sig := s.sig.(loopDone := true))
  }

  // ----- Steps of an Exclusive call -----

  datatype SectionStep =
    | Arrive | GiveUpTurn | TakeTurn | BeginSection | Install(snapshot: set<LaneId>)
    | WaitOne(token: Token) | WaitEpoch | StartBarring | EnqueueBarrier(lane: LaneId) | AddExpected
    | StartCounting | CountParked(lane: LaneId) | CountDone | EndEarly | StartFn
    | FnReturn | FnPanic | Withdraw | RunRelease(panics: bool) | FreeLanes | LeaveSections | FreeTurn

  function OpenLanes(s: State): set<LaneId> {
    set l | l in s.host.lanes && !s.host.lanes[l].closed
  }

  predicate SectionEnabled(s: State, i: SectionId, a: SectionStep) {
    if a.Arrive? then i !in s.ex.sections else
    i in s.ex.sections &&
    var x := s.ex.sections[i];
    match a
    case Arrive => true
    case GiveUpTurn => x.pc.Arrived?
    case TakeTurn => x.pc.Arrived? && s.ex.turn.None?
    case BeginSection => x.pc.HasTurn?
    case Install(snapshot) => x.pc.Registered? && MuFree(s)
                              && OpenLanes(s) <= snapshot <= s.host.queues.Values
    case WaitOne(t) => x.pc.WaitOffLane? && t in x.waits && t !in s.host.barriers.Values
    case WaitEpoch => x.pc.WaitOffLane? && x.waitEpoch.Some? && s.sig.epoch > x.waitEpoch.value
    case StartBarring => x.pc.WaitOffLane? && x.waits == {} && x.waitEpoch.None?
    case EnqueueBarrier(l) => x.pc.Barring? && l in x.todo && l in s.host.lanes
    case AddExpected => x.pc.BarringAdd?
    case StartCounting => x.pc.Barring? && x.todo == {}
    case CountParked(l) => x.pc.Counting? && x.parked < x.expected && l in s.host.lanes && s.host.lanes[l].worker == Offering(i)
    case CountDone => x.pc.Counting? && x.parked >= x.expected
    case EndEarly => x.pc.WaitOffLane? || x.pc.Counting? || x.pc.Checking?
    case StartFn => x.pc.Checking? && !s.sig.stopped
    case FnReturn => x.pc.RunningFn?
    case FnPanic => x.pc.RunningFn?
    case Withdraw => x.pc.Draining? && x.batch == [] && MuFree(s)
    case RunRelease(_) => x.pc.Draining? && x.batch != [] && x.batch[0] in s.book.ops
    case FreeLanes => x.pc.Withdrawn?
    case LeaveSections => x.pc.LanesFreed?
    case FreeTurn => x.pc.Left?
  }

  function NewSection(): Section {
    Section(Arrived, 0, 0, false, {}, {}, None, [], [], false, false, None, Unfinished)
  }

  /** The panic value runExclusive lets out, if any: fn's own comes first. */
  function EndOf(x: Section): SectionEnd {
    if x.fnRunning then FnPanicked
    else if x.panicked.Some? then ReleasePanicked(x.panicked.value)
    else if x.fnStarted then FnReturned
    else EndedEarly
  }

  function SectionApply(s: State, i: SectionId, a: SectionStep): (r: State)
    requires SectionEnabled(s, i, a)
    ensures r.sig == s.sig && r.st == s.st
    ensures r.host == s.host.(lanes := r.host.lanes) && r.host.lanes.Keys == s.host.lanes.Keys
  {
    if a.Arrive? then SetSection(s, i, NewSection()) else
    var x := s.ex.sections[i];
    match a
    case Arrive => s
    case GiveUpTurn => SetSection(s, i, x.(pc := Ended))
    case TakeTurn => s.(ex := PutSection(s.ex, i, x.(pc := HasTurn)).(turn := Some(i)))
    case BeginSection => SetSection(s, i, x.(pc := if s.sig.stopped then Left else Registered))
    case Install(snapshot) =>
      var x' := x.(pc := WaitOffLane, todo := snapshot, waits := s.host.barriers.Values,
                   waitEpoch := if s.sig.tracked == {} then None else Some(s.sig.epoch));
      s.(ex := PutSection(s.ex, i, x').(active := Some(i)))
    case WaitOne(t) => SetSection(s, i, x.(waits := x.waits - {t}))
    case WaitEpoch => SetSection(s, i, x.(waitEpoch := None))
    case StartBarring => SetSection(s, i, x.(pc := Barring))
    case EnqueueBarrier(l) =>
      if Refuses(s.host.lanes[l]) then SetSection(s, i, x.(todo := x.todo - {l}))
      else SetSection(SetLane(s, l, Lanes.Enqueue(s.host.lanes[l], Barrier(i), false)),
                      i, x.(pc := BarringAdd, todo := x.todo - {l}))
    case AddExpected => SetSection(s, i, x.(pc := Barring, expected := x.expected + 1))
    case StartCounting => SetSection(s, i, x.(pc := Counting))
    case CountParked(l) =>
      SetSection(SetLane(s, l, Park(s.host.lanes[l])), i, x.(parked := x.parked + 1))
    case CountDone => SetSection(s, i, x.(pc := Checking))
    case EndEarly => SetSection(s, i, x.(pc := Draining))
    case StartFn => SetSection(s, i, x.(pc := RunningFn, fnStarted := true, fnRunning := true))
    case FnReturn => SetSection(s, i, x.(pc := Draining, fnRunning := false))
    case FnPanic => SetSection(s, i, x.(pc := Draining))
    case Withdraw =>
      if x.deferred != [] then SetSection(s, i, x.(batch := x.deferred, deferred := []))
      else s.(ex := PutSection(s.ex, i, x.(pc := Withdrawn, end := EndOf(x))).(active := None))
    case RunRelease(panics) =>
      var t := x.batch[0];
      var x' := x.(batch := x.batch[1..],
                   panicked := if panics && x.panicked.None? then Some(t) else x.panicked);
      Finish(SetSection(s, i, x'), t, ReleasedHandle)
    case FreeLanes => s.(ex := PutSection(s.ex, i, x.(pc := LanesFreed)).(freed := s.ex.freed + {i}))
    case LeaveSections => SetSection(s, i, x.(pc := Left))
    case FreeTurn => s.(ex := PutSection(s.ex, i, x.(pc := Ended)).(turn := None))
  }

  // ----- Steps of a stop call -----

  datatype StopStep =
    | StopArrive(hard: bool) | StopLoop | SignalHard | SignalStop | SubmitsSettled | MarkStopping
    | CloseLane(lane: LaneId) | ClosingDone | WorkersJoined | SectionsJoined | SealLifecycle
    | ReleaseEngine | TimeOut

  /** The section is counted by the WaitGroup that stop waits on. */
  predicate Counted(pc: SectionPc) {
    !(pc.Arrived? || pc.HasTurn? || pc.Left? || pc.Ended?)
  }

  ghost predicate NoSections(s: State) {
    forall i :: i in s.ex.sections ==> !Counted(s.ex.sections[i].pc)
  }

  ghost predicate AllExited(s: State) {
    forall l :: l in s.host.lanes ==> s.host.lanes[l].worker.Exited?
  }

  ghost predicate StopEnabled(s: State, k: StopId, a: StopStep) {
    if a.StopArrive? then k !in s.st.stoppers else
    k in s.st.stoppers &&
    var x := s.st.stoppers[k];
    match a
    case StopArrive(_) => true
    case StopLoop => x.pc.StopArrived? && s.sig.loopDone
    case SignalHard => x.pc.LoopStopped? && x.hard
    case SignalStop => (x.pc.LoopStopped? && !x.hard) || x.pc.HardSignalled?
    case SubmitsSettled => x.pc.Signalled? && s.sig.fence
    case MarkStopping => x.pc.SubmitsDone? && MuFree(s)
    case CloseLane(l) => x.pc.Closing? && l in x.pc.todo && l in s.host.lanes
                         && s.host.lanes[l].gate == {} && !s.host.lanes[l].gateLocked
    case ClosingDone => x.pc.Closing? && x.pc.todo == {}
    case WorkersJoined => x.pc.WaitingWorkers? && AllExited(s)
    case SectionsJoined => x.pc.WorkersDone? && NoSections(s)
    case SealLifecycle => x.pc.SectionsDone? && s.sig.tracked == {}
    case ReleaseEngine => x.pc.LifecycleSealed?
    case TimeOut => x.pc.Signalled? || x.pc.WaitingWorkers? || x.pc.WorkersDone? || x.pc.SectionsDone?
  }

  ghost function StopApply(s: State, k: StopId, a: StopStep): (r: State)
    requires StopEnabled(s, k, a)
    ensures r.book == s.book && r.ex == s.ex && r.sig.tracked == s.sig.tracked
    ensures s.sig.sealed ==> r.sig.sealed
    ensures (s.sig.fence ==> r.sig.fence) && r.sig.inFlight == s.sig.inFlight
    ensures s.host.stopping ==> r.host.stopping
    ensures r.host.lanes.Keys == s.host.lanes.Keys
  {
    match a
    case StopArrive(hard) => s.(st := s.st.(stoppers := s.st.stoppers[k := Stopper(hard, StopArrived)]),
                                 sig := s.sig.(loopStop := true))
    case StopLoop => SetStop(s, k, LoopStopped)
    case SignalHard => SetStop(s, k, HardSignalled).(sig := s.sig.(hard := true))
    case SignalStop =>
      SetStop(s, k, Signalled).(sig := s.sig.(stopped := true, fence := s.sig.fence || (!s.sig.stopped && s.sig.inFlight == {})))
    case SubmitsSettled => SetStop(s, k, SubmitsDone)
    case MarkStopping => SetStop(s, k, Closing(s.host.queues.Values)).(host := s.host.(stopping := true))
    case CloseLane(l) =>
      SetStop(SetLane(s, l, Close(s.host.lanes[l])), k, Closing(s.st.stoppers[k].pc.todo - {l}))
    case ClosingDone => SetStop(s, k, WaitingWorkers)
    case WorkersJoined => SetStop(s, k, WorkersDone)
    case SectionsJoined => SetStop(s, k, SectionsDone)
    case SealLifecycle => SetStop(s, k, LifecycleSealed).(sig := s.sig.(sealed := true))
    case ReleaseEngine =>
      s.(st := PutStop(s.st, k, Succeeded).(released := true, releases := s.st.releases + if s.st.released then 0 else 1))
    case TimeOut => SetStop(s, k, TimedOut)
  }

  // ----- Runs -----

  datatype Step =
    | OfProducer(token: Token, call: ProducerStep)
    | OfSend(token: Token, attempt: SendStep)
    | OfHandoff(token: Token, handoff: HandoffStep)
    | OfWorker(lane: LaneId, work: WorkerStep)
    | OfLoop(scan: LoopStep)
    | OfSection(section: SectionId, move: SectionStep)
    | OfStop(stop: StopId, act: StopStep)

  ghost predicate Enabled(s: State, a: Step) {
    match a
    case OfProducer(t, o) => ProducerEnabled(s, t, o)
    case OfSend(t, o) => SendEnabled(s, t, o)
    case OfHandoff(t, o) => HandoffEnabled(s, t, o)
    case OfWorker(l, w) => WorkerEnabled(s, l, w)
    case OfLoop(r) => LoopEnabled(s, r)
    case OfSection(i, m) => SectionEnabled(s, i, m)
    case OfStop(k, c) => StopEnabled(s, k, c)
  }

  ghost function Apply(s: State, a: Step): State
    requires Enabled(s, a)
  {
    match a
    case OfProducer(t, o) => ProducerApply(s, t, o)
    case OfSend(t, o) => SendApply(s, t, o)
    case OfHandoff(t, o) => HandoffApply(s, t, o)
    case OfWorker(l, w) => WorkerApply(s, l, w)
    case OfLoop(r) => LoopApply(s, r)
    case OfSection(i, m) => SectionApply(s, i, m)
    case OfStop(k, c) => StopApply(s, k, c)
  }

  /** `run` can be taken from `s`, one step after the other. */
  ghost predicate Runs(s: State, run: seq<Step>)
    decreases |run|
  {
    run == [] || (Enabled(s, run[0]) && Runs(Apply(s, run[0]), run[1..]))
  }

  ghost function After(s: State, run: seq<Step>): State
    requires Runs(s, run)
    decreases |run|
  {
    if run == [] then s else After(Apply(s, run[0]), run[1..])
  }
}
