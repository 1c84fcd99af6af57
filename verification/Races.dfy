/** Interleavings in which the code breaks its own promises, as concrete runs. The exact conditions
    under which it keeps them are in Exclusive, Safety and Order. */
module Races {
  import opened Lanes
  import opened Dispatcher
  import opened Wrappers
  import opened LaneMap
  import opened Ownership
  import opened Releases
  import opened Safety
  import opened Exclusive
  import opened Order

  /** An engine that has just been built, with the idle scan running. */
  function Built(): State {
    State(Host(0, 1, map[], map[], map[], None, false),
          Signals(false, false, false, false, false, {}, {}, {}, 0, false),
          Book(map[], []),
          Exclusion(None, None, {}, map[]),
          Stops(map[], false, 0))
  }

  lemma BuiltIsInitial()
    ensures Init(Built())
  {
  }

  const K: RoutingKey := RoutingKey(Account, 7)

  /** `run` leads from s to s'. */
  ghost predicate Leads(s: State, run: seq<Step>, s': State) {
    Runs(s, run) && After(s, run) == s'
  }

  lemma Leads1(s: State, a: Step, s': State)
    requires Enabled(s, a) && Apply(s, a) == s'
    ensures Leads(s, [a], s')
  {
    assert [a][1..] == [];
    assert Runs(s', []);
  }

  lemma {:induction false} LeadsOn(s: State, r1: seq<Step>, s1: State, r2: seq<Step>, s2: State)
    requires Leads(s, r1, s1) && Leads(s1, r2, s2)
    ensures Leads(s, r1 + r2, s2)
    decreases |r1|
  {
    if r1 == [] {
      assert r1 + r2 == r2;
    } else {
      assert (r1 + r2)[0] == r1[0] && (r1 + r2)[1..] == r1[1..] + r2;
      LeadsOn(Apply(s, r1[0]), r1[1..], s1, r2, s2);
    }
  }

  /** Three steps in a row. */
  lemma Leads3(s: State, a: Step, b: Step, c: Step, s': State)
    requires Enabled(s, a) && Enabled(Apply(s, a), b) && Enabled(Apply(Apply(s, a), b), c)
    requires Apply(Apply(Apply(s, a), b), c) == s'
    ensures Leads(s, [a, b, c], s')
  {
    Leads1(s, a, Apply(s, a));
    Leads1(Apply(s, a), b, Apply(Apply(s, a), b));
    Leads1(Apply(Apply(s, a), b), c, s');
    LeadsOn(s, [a], Apply(s, a), [b], Apply(Apply(s, a), b));
    LeadsOn(s, [a] + [b], Apply(Apply(s, a), b), [c], s');
    assert [a] + [b] + [c] == [a, b, c];
  }

  // ----- Retirement against a failure handoff -----

  function WithLane(q: Lane, retiring: Option<int>, pc: OpPc): State {
    Built().(host := Host(0, 1, map[0 := q], map[K := 0], map[], retiring, false),
             sig := Signals(false, false, false, false, false, {1}, {}, {}, 0, false),
             book := Book(map[1 := Op(K, true, pc)], []))
  }

  function Idle(worker: Worker, locked: bool): Lane {
    NewLane(K, 1).(worker := worker, gateLocked := locked)
  }

  /** A closing call on account 7 creates the account's lane. */
  lemma LaneCreated()
    ensures Leads(Built(), [OfProducer(1, Issue(K, true)), OfProducer(1, BeginSubmit), OfProducer(1, Lookup(0))],
                  WithLane(Idle(NotStarted, false), None, Found(0)))
  {
    Leads3(Built(), OfProducer(1, Issue(K, true)), OfProducer(1, BeginSubmit), OfProducer(1, Lookup(0)),
           WithLane(Idle(NotStarted, false), None, Found(0)));
  }

  /** Its context is cancelled before the send, so it hands its release over. */
  lemma ContextCancelled()
    ensures Leads(WithLane(Idle(NotStarted, false), None, Found(0)),
                  [OfSend(1, EnterGate), OfSend(1, GiveUp), OfHandoff(1, HandOff)],
                  WithLane(Idle(NotStarted, false), None, Sched))
  {
    Leads3(WithLane(Idle(NotStarted, false), None, Found(0)),
           OfSend(1, EnterGate), OfSend(1, GiveUp), OfHandoff(1, HandOff),
           WithLane(Idle(NotStarted, false), None, Sched));
  }

  lemma LaneFoundAgain()
    ensures Leads(WithLane(Idle(NotStarted, false), None, Sched),
                  [OfProducer(1, Lookup(0)), OfHandoff(1, InnerBegin), OfWorker(0, StartWorker)],
                  WithLane(Idle(Polling, false), None, SchedLaneBegun(0)))
  {
    Leads3(WithLane(Idle(NotStarted, false), None, Sched),
           OfProducer(1, Lookup(0)), OfHandoff(1, InnerBegin), OfWorker(0, StartWorker),
           WithLane(Idle(Polling, false), None, SchedLaneBegun(0)));
  }

  function Handed(): Lane {
    Idle(Polling, true).(pending := 1, backlog := [Entry(Release(1), 0, 0, false, 0, {})])
  }

  function HandedRunning(): Lane {
    Idle(Mandatory(1), true).(pending := 1)
  }

  /** The idle scan finds the lane empty; the release then arrives and the worker starts it. */
  lemma ScanChecks()
    ensures Leads(WithLane(Idle(Polling, false), None, SchedLaneBegun(0)), [OfLoop(RetireCheck(0))],
                  WithLane(Idle(Polling, true), Some(0), SchedLaneBegun(0)))
  {
    Leads1(WithLane(Idle(Polling, false), None, SchedLaneBegun(0)), OfLoop(RetireCheck(0)),
           WithLane(Idle(Polling, true), Some(0), SchedLaneBegun(0)));
  }

  lemma ReleaseArrives()
    ensures Leads(WithLane(Idle(Polling, true), Some(0), SchedLaneBegun(0)), [OfHandoff(1, EnqueueRelease)],
                  WithLane(Handed(), Some(0), Backlogged(0)))
  {
    assert Racers(Idle(Polling, true)) == {};
    assert Lanes.Enqueue(Idle(Polling, true), Release(1), false) == Handed();
    Leads1(WithLane(Idle(Polling, true), Some(0), SchedLaneBegun(0)), OfHandoff(1, EnqueueRelease),
           WithLane(Handed(), Some(0), Backlogged(0)));
  }

  lemma ReleaseStarts()
    ensures Leads(WithLane(Handed(), Some(0), Backlogged(0)), [OfWorker(0, Take)],
                  WithLane(HandedRunning(), Some(0), Backlogged(0)))
  {
    assert Handed().backlog[1..] == [];
    Leads1(WithLane(Handed(), Some(0), Backlogged(0)), OfWorker(0, Take),
           WithLane(HandedRunning(), Some(0), Backlogged(0)));
  }

  function Sealed(ex: Exclusion): State {
    Built().(host := Host(0, 1, map[0 := Seal(HandedRunning())], map[], map[], None, false),
             sig := Signals(false, false, false, false, false, {1}, {}, {}, 0, false),
             book := Book(map[1 := Op(K, true, Backlogged(0))], []),
             ex := ex)
  }

  function Nobody(): Exclusion {
    Exclusion(None, None, {}, map[])
  }

  function Retired(x: Section, turn: Option<int>, active: Option<int>): State {
    Sealed(Exclusion(turn, active, {}, map[5 := x]))
  }

  /** The idle scan seals the lane: its backlog is empty again, though its worker is busy. */
  lemma SealsBusyLane()
    ensures Leads(WithLane(HandedRunning(), Some(0), Backlogged(0)), [OfLoop(RetireSeal)], Sealed(Nobody()))
  {
    assert map[K := 0] - {K} == map[];
    Leads1(WithLane(HandedRunning(), Some(0), Backlogged(0)), OfLoop(RetireSeal), Sealed(Nobody()));
  }

  lemma RacySealRun() returns (run: seq<Step>)
    ensures Leads(Built(), run, Sealed(Nobody()))
  {
    var s1 := WithLane(Idle(NotStarted, false), None, Found(0));
    var s2 := WithLane(Idle(NotStarted, false), None, Sched);
    var s3 := WithLane(Idle(Polling, false), None, SchedLaneBegun(0));
    var s4 := WithLane(Idle(Polling, true), Some(0), SchedLaneBegun(0));
    var s5 := WithLane(Handed(), Some(0), Backlogged(0));
    var s6 := WithLane(HandedRunning(), Some(0), Backlogged(0));
    LaneCreated();
    run := [OfProducer(1, Issue(K, true)), OfProducer(1, BeginSubmit), OfProducer(1, Lookup(0))];
    ContextCancelled();
    run := Append(run, s1, [OfSend(1, EnterGate), OfSend(1, GiveUp), OfHandoff(1, HandOff)], s2);
    LaneFoundAgain();
    run := Append(run, s2, [OfProducer(1, Lookup(0)), OfHandoff(1, InnerBegin), OfWorker(0, StartWorker)], s3);
    ScanChecks();
    run := Append(run, s3, [OfLoop(RetireCheck(0))], s4);
    ReleaseArrives();
    run := Append(run, s4, [OfHandoff(1, EnqueueRelease)], s5);
    ReleaseStarts();
    run := Append(run, s5, [OfWorker(0, Take)], s6);
    SealsBusyLane();
    run := Append(run, s6, [OfLoop(RetireSeal)], Sealed(Nobody()));
  }

  lemma Append(r1: seq<Step>, s1: State, r2: seq<Step>, s2: State) returns (run: seq<Step>)
    requires Leads(Built(), r1, s1) && Leads(s1, r2, s2)
    ensures Leads(Built(), run, s2)
  {
    LeadsOn(Built(), r1, s1, r2, s2);
    run := r1 + r2;
  }

  // ----- First consequence: Exclusive is not exclusive -----

  lemma SectionBegins()
    ensures Leads(Sealed(Nobody()), [OfSection(5, Arrive), OfSection(5, TakeTurn), OfSection(5, BeginSection)],
                  Retired(NewSection().(pc := Registered), Some(5), None))
  {
    Leads3(Sealed(Nobody()), OfSection(5, Arrive), OfSection(5, TakeTurn), OfSection(5, BeginSection),
           Retired(NewSection().(pc := Registered), Some(5), None));
  }

  lemma InstallOverRetired()
    ensures Leads(Retired(NewSection().(pc := Registered), Some(5), None), [OfSection(5, Install({}))],
                  Retired(NewSection().(pc := WaitOffLane), Some(5), Some(5)))
  {
    var s := Retired(NewSection().(pc := Registered), Some(5), None);
    assert OpenLanes(s) == {};
    assert s.host.queues.Values == {} && s.host.barriers.Values == {};
    Leads1(s, OfSection(5, Install({})), Retired(NewSection().(pc := WaitOffLane), Some(5), Some(5)));
  }

  lemma NothingToBar()
    ensures Leads(Retired(NewSection().(pc := WaitOffLane), Some(5), Some(5)), [OfSection(5, StartBarring)],
                  Retired(NewSection().(pc := Barring), Some(5), Some(5)))
  {
    Leads1(Retired(NewSection().(pc := WaitOffLane), Some(5), Some(5)), OfSection(5, StartBarring),
           Retired(NewSection().(pc := Barring), Some(5), Some(5)));
  }

  lemma NothingToCount()
    ensures Leads(Retired(NewSection().(pc := Barring), Some(5), Some(5)),
                  [OfSection(5, StartCounting), OfSection(5, CountDone), OfSection(5, StartFn)], FnRunning())
  {
    var s := Retired(NewSection().(pc := Barring), Some(5), Some(5));
    assert Apply(s, OfSection(5, StartCounting)) == Retired(NewSection().(pc := Counting), Some(5), Some(5));
    Leads3(s, OfSection(5, StartCounting), OfSection(5, CountDone), OfSection(5, StartFn), FnRunning());
  }

  function FnRunning(): State {
    Retired(NewSection().(pc := RunningFn, fnStarted := true, fnRunning := true), Some(5), Some(5))
  }

  lemma FnRunningRun() returns (run: seq<Step>)
    ensures Leads(Built(), run, FnRunning())
  {
    var s1 := Retired(NewSection().(pc := Registered), Some(5), None);
    var s2 := Retired(NewSection().(pc := WaitOffLane), Some(5), Some(5));
    var s3 := Retired(NewSection().(pc := Barring), Some(5), Some(5));
    run := RacySealRun();
    SectionBegins();
    run := Append(run, Sealed(Nobody()), [OfSection(5, Arrive), OfSection(5, TakeTurn), OfSection(5, BeginSection)], s1);
    InstallOverRetired();
    run := Append(run, s1, [OfSection(5, Install({}))], s2);
    NothingToBar();
    run := Append(run, s2, [OfSection(5, StartBarring)], s3);
    NothingToCount();
    run := Append(run, s3, [OfSection(5, StartCounting), OfSection(5, CountDone), OfSection(5, StartFn)], FnRunning());
  }

  /** The race is real: there is a run in which the function given to Exclusive executes while a
      lane that was retired a moment earlier is still releasing a handle. */
  lemma ExclusiveCanOverlap() returns (run: seq<Step>)
    ensures Init(Built()) && Runs(Built(), run) && !CleanSeals(Built(), run)
    ensures !FnRunsAlone(After(Built(), run))
    ensures !After(Built(), run).sig.stopped
  {
    BuiltIsInitial();
    run := FnRunningRun();
    var end := FnRunning();
    assert 5 in end.ex.sections && end.ex.sections[5].pc.RunningFn?;
    assert 0 in end.host.lanes && LaneRuns(end.host.lanes[0]);
    if CleanSeals(Built(), run) {
      ExclusiveHolds(Built(), run);
    }
  }

  // ----- Second consequence: an account has two runners -----

  function Twins(q: Lane, pc: OpPc): State {
    Built().(host := Host(0, 1, map[0 := Seal(HandedRunning()), 1 := q], map[K := 1], map[], None, false),
             sig := Signals(false, false, false, false, false, {1, 2}, {}, {}, 0, false),
             book := Book(map[1 := Op(K, true, Backlogged(0)), 2 := Op(K, false, pc)], []))
  }

  function Carrying(): Lane {
    NewLane(K, 1).(gate := {2}, inflight := map[2 := 1], admitted := 1, pending := 1)
  }

  function Holding(worker: Worker): Lane {
    NewLane(K, 1).(ch := [2], accepted := [2], admitted := 1, pending := 1, worker := worker)
  }

  function Busy2(): Lane {
    NewLane(K, 1).(accepted := [2], admitted := 1, pending := 1, worker := Task(2, false))
  }

  /** The next call for account 7 gets a fresh lane. */
  lemma FreshLane()
    ensures Leads(Sealed(Nobody()), [OfProducer(2, Issue(K, false)), OfProducer(2, BeginSubmit), OfProducer(2, Lookup(1))],
                  Twins(NewLane(K, 1), Found(1)))
  {
    Leads3(Sealed(Nobody()), OfProducer(2, Issue(K, false)), OfProducer(2, BeginSubmit), OfProducer(2, Lookup(1)),
           Twins(NewLane(K, 1), Found(1)));
  }

  lemma TaskAdmitted()
    ensures Leads(Twins(NewLane(K, 1), Found(1)), [OfSend(2, EnterGate), OfSend(2, PassFence), OfSend(2, Admit)],
                  Twins(Carrying(), Admitted(1)))
  {
    var q := Lanes.PassFence(Lanes.EnterGate(NewLane(K, 1), 2), 2, false);
    assert Lanes.Admit(q, 2) == Carrying();
    Leads3(Twins(NewLane(K, 1), Found(1)), OfSend(2, EnterGate), OfSend(2, PassFence), OfSend(2, Admit),
           Twins(Carrying(), Admitted(1)));
  }

  lemma TaskSent()
    ensures Leads(Twins(Carrying(), Admitted(1)), [OfSend(2, Send), OfWorker(1, StartWorker), OfWorker(1, PollMiss)],
                  Twins(Holding(Selecting), Queued(1)))
  {
    assert Lanes.Send(Carrying(), 2) == Holding(NotStarted);
    Leads3(Twins(Carrying(), Admitted(1)), OfSend(2, Send), OfWorker(1, StartWorker), OfWorker(1, PollMiss),
           Twins(Holding(Selecting), Queued(1)));
  }

  lemma TaskStarts()
    ensures Leads(Twins(Holding(Selecting), Queued(1)), [OfWorker(1, Receive)], Twins(Busy2(), Queued(1)))
  {
    assert Lanes.Receive(Holding(Selecting), false) == Busy2();
    Leads1(Twins(Holding(Selecting), Queued(1)), OfWorker(1, Receive), Twins(Busy2(), Queued(1)));
  }

  /** There is also a run in which two workers run work of the same account at once. */
  lemma KeysCanOverlap() returns (run: seq<Step>)
    ensures Init(Built()) && Runs(Built(), run) && !CleanSeals(Built(), run)
    ensures !KeysSerial(After(Built(), run))
    ensures !After(Built(), run).sig.stopped
  {
    BuiltIsInitial();
    run := TwoRunnersRun();
    var end := Twins(Busy2(), Queued(1));
    assert 0 in end.host.lanes && 1 in end.host.lanes && LaneRuns(end.host.lanes[0]) && LaneRuns(end.host.lanes[1]);
    if CleanSeals(Built(), run) {
      KeysAreSerial(Built(), run);
    }
  }

  lemma TwoRunnersRun() returns (run: seq<Step>)
    ensures Leads(Built(), run, Twins(Busy2(), Queued(1)))
  {
    run := RacySealRun();
    FreshLane();
    run := Append(run, Sealed(Nobody()),
                  [OfProducer(2, Issue(K, false)), OfProducer(2, BeginSubmit), OfProducer(2, Lookup(1))],
                  Twins(NewLane(K, 1), Found(1)));
    TaskAdmitted();
    run := Append(run, Twins(NewLane(K, 1), Found(1)),
                  [OfSend(2, EnterGate), OfSend(2, PassFence), OfSend(2, Admit)], Twins(Carrying(), Admitted(1)));
    TaskSent();
    run := Append(run, Twins(Carrying(), Admitted(1)),
                  [OfSend(2, Send), OfWorker(1, StartWorker), OfWorker(1, PollMiss)], Twins(Holding(Selecting), Queued(1)));
    TaskStarts();
    run := Append(run, Twins(Holding(Selecting), Queued(1)), [OfWorker(1, Receive)], Twins(Busy2(), Queued(1)));
  }

  // ----- The submit fence on Dynamic -----

  /** Operation 1 is over; a second one and a stop are under way. */
  function Ending(q: Lane, stopping: bool, g: Signals, ops: map<Token, Op>, c: Stops): State {
    Built().(host := Host(0, 1, map[0 := q], map[K := 0], map[], None, stopping), sig := g,
             book := Book(ops, [Settled(1, NotAccepted)]), st := c)
  }

  function Calling(pc: OpPc): State {
    Built().(host := Host(0, 1, map[0 := NewLane(K, 1)], map[K := 0], map[], None, false),
             sig := Signals(false, false, false, false, false, {1}, {}, {}, 0, false),
             book := Book(map[1 := Op(K, false, pc)], []))
  }

  function One(): map<Token, Op> {
    map[1 := Op(K, false, Done)]
  }

  function Two(): map<Token, Op> {
    map[1 := Op(K, false, Done), 2 := Op(K, false, Looking)]
  }

  function Racing(loop: bool): Signals {
    Signals(loop, loop, false, false, false, {2}, {1}, {}, 0, false)
  }

  function Fenced(sealed: bool): Signals {
    Signals(true, true, true, false, true, {2}, {}, {}, 0, sealed)
  }

  function Stop(pc: StopPc): Stops {
    Stops(map[9 := Stopper(false, pc)], false, 0)
  }

  function Ended(worker: Worker): Lane {
    NewLane(K, 1).(closed := true, sawEnd := true, worker := worker)
  }

  lemma FirstCalls()
    ensures Leads(Built(), [OfProducer(1, Issue(K, false)), OfProducer(1, BeginSubmit), OfProducer(1, Lookup(0))], Calling(Found(0)))
  {
    Leads3(Built(), OfProducer(1, Issue(K, false)), OfProducer(1, BeginSubmit), OfProducer(1, Lookup(0)), Calling(Found(0)));
  }

  lemma FirstGivesUp()
    ensures Leads(Calling(Found(0)), [OfSend(1, EnterGate), OfSend(1, GiveUp), OfHandoff(1, HandOff)],
                  Ending(NewLane(K, 1), false, Calling(Fresh).sig, One(), Built().st))
  {
    Leads3(Calling(Found(0)), OfSend(1, EnterGate), OfSend(1, GiveUp), OfHandoff(1, HandOff),
           Ending(NewLane(K, 1), false, Calling(Fresh).sig, One(), Built().st));
  }

  /** The first takes the count to zero; before it looks at the stop, a second registers. */
  lemma SecondRegisters()
    ensures Leads(Ending(NewLane(K, 1), false, Calling(Fresh).sig, One(), Built().st),
                  [OfProducer(1, EndSubmit), OfProducer(2, Issue(K, false)), OfProducer(2, BeginSubmit)],
                  Ending(NewLane(K, 1), false, Racing(false), Two(), Built().st))
  {
    var s1 := Ending(NewLane(K, 1), false, Racing(false).(inFlight := {}), One(), Built().st);
    assert {1} - {1} == {} && {} + {1} == {1};
    assert Apply(Ending(NewLane(K, 1), false, Calling(Fresh).sig, One(), Built().st), OfProducer(1, EndSubmit)) == s1;
    Leads3(Ending(NewLane(K, 1), false, Calling(Fresh).sig, One(), Built().st),
           OfProducer(1, EndSubmit), OfProducer(2, Issue(K, false)), OfProducer(2, BeginSubmit),
           Ending(NewLane(K, 1), false, Racing(false), Two(), Built().st));
  }

  lemma StopArrives()
    ensures Leads(Ending(NewLane(K, 1), false, Racing(false), Two(), Built().st),
                  [OfStop(9, StopArrive(false)), OfLoop(LoopExit), OfStop(9, StopLoop)],
                  Ending(NewLane(K, 1), false, Racing(true), Two(), Stop(LoopStopped)))
  {
    Leads3(Ending(NewLane(K, 1), false, Racing(false), Two(), Built().st),
           OfStop(9, StopArrive(false)), OfLoop(LoopExit), OfStop(9, StopLoop),
           Ending(NewLane(K, 1), false, Racing(true), Two(), Stop(LoopStopped)));
  }

  /** The stop leaves the fence to the producers it sees; the first closes it under the second. */
  lemma FirstClosesFence()
    ensures Leads(Ending(NewLane(K, 1), false, Racing(true), Two(), Stop(LoopStopped)),
                  [OfStop(9, SignalStop), OfProducer(1, CheckFence), OfStop(9, SubmitsSettled)],
                  Ending(NewLane(K, 1), false, Fenced(false), Two(), Stop(SubmitsDone)))
  {
    Leads3(Ending(NewLane(K, 1), false, Racing(true), Two(), Stop(LoopStopped)),
           OfStop(9, SignalStop), OfProducer(1, CheckFence), OfStop(9, SubmitsSettled),
           Ending(NewLane(K, 1), false, Fenced(false), Two(), Stop(SubmitsDone)));
  }

  lemma StopMarks()
    ensures Leads(Ending(NewLane(K, 1), false, Fenced(false), Two(), Stop(SubmitsDone)), [OfStop(9, MarkStopping)],
                  Stopping(NewLane(K, 1), Closing({0})))
  {
    var s := Ending(NewLane(K, 1), false, Fenced(false), Two(), Stop(SubmitsDone));
    forall v ensures v in s.host.queues.Values <==> v == 0 {
      assert s.host.queues[K] == 0;
    }
    assert s.host.queues.Values == {0};
    Leads1(s, OfStop(9, MarkStopping), Stopping(NewLane(K, 1), Closing({0})));
  }

  function Stopping(q: Lane, pc: StopPc): State {
    Ending(q, true, Fenced(pc.LifecycleSealed?), Two(), Stop(pc))
  }

  lemma LaneCloses()
    ensures Leads(Stopping(NewLane(K, 1), Closing({0})), [OfStop(9, CloseLane(0))],
                  Stopping(NewLane(K, 1).(closed := true), Closing({})))
  {
    assert {0} - {0} == {};
    Leads1(Stopping(NewLane(K, 1), Closing({0})), OfStop(9, CloseLane(0)),
           Stopping(NewLane(K, 1).(closed := true), Closing({})));
  }

  lemma LaneClosed()
    ensures Leads(Stopping(NewLane(K, 1).(closed := true), Closing({})), [OfStop(9, ClosingDone)],
                  Stopping(NewLane(K, 1).(closed := true), WaitingWorkers))
  {
    Leads1(Stopping(NewLane(K, 1).(closed := true), Closing({})), OfStop(9, ClosingDone),
           Stopping(NewLane(K, 1).(closed := true), WaitingWorkers));
  }

  lemma WorkerStarts()
    ensures Leads(Stopping(NewLane(K, 1).(closed := true), WaitingWorkers), [OfWorker(0, StartWorker)],
                  Stopping(NewLane(K, 1).(closed := true, worker := Polling), WaitingWorkers))
  {
    Leads1(Stopping(NewLane(K, 1).(closed := true), WaitingWorkers), OfWorker(0, StartWorker),
           Stopping(NewLane(K, 1).(closed := true, worker := Polling), WaitingWorkers));
  }

  lemma WorkerFindsNothing()
    ensures Leads(Stopping(NewLane(K, 1).(closed := true, worker := Polling), WaitingWorkers), [OfWorker(0, PollMiss)],
                  Stopping(NewLane(K, 1).(closed := true, worker := Selecting), WaitingWorkers))
  {
    Leads1(Stopping(NewLane(K, 1).(closed := true, worker := Polling), WaitingWorkers), OfWorker(0, PollMiss),
           Stopping(NewLane(K, 1).(closed := true, worker := Selecting), WaitingWorkers));
  }

  lemma WorkerSeesEnd()
    ensures Leads(Stopping(NewLane(K, 1).(closed := true, worker := Selecting), WaitingWorkers), [OfWorker(0, SeeClosed)],
                  Stopping(Ended(Polling), WaitingWorkers))
  {
    Leads1(Stopping(NewLane(K, 1).(closed := true, worker := Selecting), WaitingWorkers), OfWorker(0, SeeClosed),
           Stopping(Ended(Polling), WaitingWorkers));
  }

  lemma WorkerEnds()
    ensures Leads(Stopping(Ended(Polling), WaitingWorkers), [OfWorker(0, FinishWorker)], Stopping(Ended(Exited), WaitingWorkers))
  {
    Leads1(Stopping(Ended(Polling), WaitingWorkers), OfWorker(0, FinishWorker), Stopping(Ended(Exited), WaitingWorkers));
  }

  lemma WorkersJoin()
    ensures Leads(Stopping(Ended(Exited), WaitingWorkers), [OfStop(9, WorkersJoined)], Stopping(Ended(Exited), WorkersDone))
  {
    Leads1(Stopping(Ended(Exited), WaitingWorkers), OfStop(9, WorkersJoined), Stopping(Ended(Exited), WorkersDone));
  }

  lemma SectionsJoin()
    ensures Leads(Stopping(Ended(Exited), WorkersDone), [OfStop(9, SectionsJoined)], Stopping(Ended(Exited), SectionsDone))
  {
    Leads1(Stopping(Ended(Exited), WorkersDone), OfStop(9, SectionsJoined), Stopping(Ended(Exited), SectionsDone));
  }

  lemma CountSealed()
    ensures Leads(Stopping(Ended(Exited), SectionsDone), [OfStop(9, SealLifecycle)], Stopping(Ended(Exited), LifecycleSealed))
  {
    Leads1(Stopping(Ended(Exited), SectionsDone), OfStop(9, SealLifecycle), Stopping(Ended(Exited), LifecycleSealed));
  }

  function Released(): State {
    Ending(Ended(Exited), true, Fenced(true), Two(), Stops(map[9 := Stopper(false, Succeeded)], true, 1))
  }

  lemma EngineReleased()
    ensures Leads(Stopping(Ended(Exited), LifecycleSealed), [OfStop(9, ReleaseEngine)], Released())
  {
    Leads1(Stopping(Ended(Exited), LifecycleSealed), OfStop(9, ReleaseEngine), Released());
  }

  lemma StoppedRun(before: seq<Step>) returns (run: seq<Step>)
    requires Leads(Built(), before, Stopping(NewLane(K, 1), Closing({0})))
    ensures Leads(Built(), run, Released())
  {
    var closed := NewLane(K, 1).(closed := true);
    LaneCloses();
    run := Append(before, Stopping(NewLane(K, 1), Closing({0})), [OfStop(9, CloseLane(0))], Stopping(closed, Closing({})));
    LaneClosed();
    run := Append(run, Stopping(closed, Closing({})), [OfStop(9, ClosingDone)], Stopping(closed, WaitingWorkers));
    var polling, selecting := closed.(worker := Polling), closed.(worker := Selecting);
    WorkerStarts();
    run := Append(run, Stopping(closed, WaitingWorkers), [OfWorker(0, StartWorker)], Stopping(polling, WaitingWorkers));
    WorkerFindsNothing();
    run := Append(run, Stopping(polling, WaitingWorkers), [OfWorker(0, PollMiss)], Stopping(selecting, WaitingWorkers));
    WorkerSeesEnd();
    run := Append(run, Stopping(selecting, WaitingWorkers), [OfWorker(0, SeeClosed)], Stopping(Ended(Polling), WaitingWorkers));
    WorkerEnds();
    run := Append(run, Stopping(Ended(Polling), WaitingWorkers), [OfWorker(0, FinishWorker)], Stopping(Ended(Exited), WaitingWorkers));
    WorkersJoin();
    run := Append(run, Stopping(Ended(Exited), WaitingWorkers), [OfStop(9, WorkersJoined)], Stopping(Ended(Exited), WorkersDone));
    SectionsJoin();
    run := Append(run, Stopping(Ended(Exited), WorkersDone), [OfStop(9, SectionsJoined)], Stopping(Ended(Exited), SectionsDone));
    CountSealed();
    run := Append(run, Stopping(Ended(Exited), SectionsDone), [OfStop(9, SealLifecycle)], Stopping(Ended(Exited), LifecycleSealed));
    EngineReleased();
    run := Append(run, Stopping(Ended(Exited), LifecycleSealed), [OfStop(9, ReleaseEngine)], Released());
  }

  lemma EarlyReleaseRun() returns (run: seq<Step>)
    ensures Leads(Built(), run, Released())
  {
    var lane := NewLane(K, 1);
    var s2 := Ending(lane, false, Calling(Fresh).sig, One(), Built().st);
    var s3 := Ending(lane, false, Racing(false), Two(), Built().st);
    var s4 := Ending(lane, false, Racing(true), Two(), Stop(LoopStopped));
    var s5 := Ending(lane, false, Fenced(false), Two(), Stop(SubmitsDone));
    FirstCalls();
    run := [OfProducer(1, Issue(K, false)), OfProducer(1, BeginSubmit), OfProducer(1, Lookup(0))];
    FirstGivesUp();
    run := Append(run, Calling(Found(0)), [OfSend(1, EnterGate), OfSend(1, GiveUp), OfHandoff(1, HandOff)], s2);
    SecondRegisters();
    run := Append(run, s2, [OfProducer(1, EndSubmit), OfProducer(2, Issue(K, false)), OfProducer(2, BeginSubmit)], s3);
    StopArrives();
    run := Append(run, s3, [OfStop(9, StopArrive(false)), OfLoop(LoopExit), OfStop(9, StopLoop)], s4);
    FirstClosesFence();
    run := Append(run, s4, [OfStop(9, SignalStop), OfProducer(1, CheckFence), OfStop(9, SubmitsSettled)], s5);
    StopMarks();
    run := Append(run, s5, [OfStop(9, MarkStopping)], Stopping(lane, Closing({0})));
    run := StoppedRun(run);
  }

  /** There is a run in which the engine is released while a submit that registered before the stop
      is still in flight. */
  lemma ReleaseCanBeEarly() returns (run: seq<Step>)
    ensures Init(Built()) && Runs(Built(), run) && !CleanFence(Built(), run)
    ensures var e := After(Built(), run);
            e.st.releases == 1 && e.sig.inFlight == {2} == Late(Built(), run, {}) && 2 in e.book.ops && e.book.ops[2].pc == Looking
  {
    BuiltIsInitial();
    run := EarlyReleaseRun();
    ReleasedEngineLeavesLate(Built(), run);
    if CleanFence(Built(), run) {
      CleanFenceLeavesNobody(Built(), run);
    }
  }
}
