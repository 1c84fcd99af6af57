/** The order between producers and stop on the Sharded strategy, whose sends take no gate.

    A producer registers in an atomic counter and sends straight into a channel that stop closes.
    Only the submit fence keeps the close behind the sends; a send on a closed channel panics.
    The module says exactly which step breaks that order, proves it for every run without such a
    step, and exhibits a run with one. */
module SubmitFence {
  import opened Sets

  datatype ProducerPc =
    | Inside        // registered by beginSubmit, not yet past its send
    | Returning     // the send or its failure is over, endSubmit is next
    | Zeroed        // endSubmit took the counter to zero and will look at stopCh
    | Gone
    | Refused
    | Panicked      // sent on a closed channel

  /** Signalling: stopCh is closed and submitMu still held for writing. */
  datatype StopPhase = Running | Signalling | Signalled

  datatype State = State(
    producers: map<int, ProducerPc>,
    count: int,                        // inFlightSubmits
    stop: StopPhase,
    fence: bool,                       // submitFenceCh is closed
    closed: bool)                      // the shard's channel is closed

  predicate Init(s: State) {
    s == State(map[], 0, Running, false, false)
  }

  datatype Step =
    | Begin(p: int) | Send(p: int) | GiveUp(p: int) | Decrement(p: int) | LookAtStop(p: int)
    | CloseStopCh | LookAtCount | CloseQueues

  predicate At(s: State, p: int, pc: ProducerPc) {
    p in s.producers && s.producers[p] == pc
  }

  predicate Enabled(s: State, a: Step) {
    match a
    case Begin(p) => p !in s.producers && !s.stop.Signalling?
    case Send(p) => At(s, p, Inside)
    case GiveUp(p) => At(s, p, Inside)
    case Decrement(p) => At(s, p, Returning)
    case LookAtStop(p) => At(s, p, Zeroed)
    case CloseStopCh => s.stop.Running?
    case LookAtCount => s.stop.Signalling?
    case CloseQueues => s.stop.Signalled? && s.fence
  }

  function Move(s: State, p: int, pc: ProducerPc): State {
    s.(producers := s.producers[p := pc])
  }

  function Apply(s: State, a: Step): State
    requires Enabled(s, a)
  {
    match a
    case Begin(p) =>
      if s.stop.Running? then Move(s, p, Inside).(count := s.count + 1) else Move(s, p, Refused)
    case Send(p) => Move(s, p, if s.closed then Panicked else Returning)
    case GiveUp(p) => Move(s, p, Returning)
    case Decrement(p) => Move(s, p, if s.count == 1 then Zeroed else Gone).(count := s.count - 1)
    case LookAtStop(p) => Move(s, p, Gone).(fence := s.fence || !s.stop.Running?)
    case CloseStopCh => s.(stop := Signalling)
    case LookAtCount => s.(stop := Signalled, fence := s.fence || s.count == 0)
    case CloseQueues => s.(closed := true)
  }

  predicate Runs(s: State, run: seq<Step>)
    decreases |run|
  {
    run == [] || (Enabled(s, run[0]) && Runs(Apply(s, run[0]), run[1..]))
  }

  function After(s: State, run: seq<Step>): State
    requires Runs(s, run)
    decreases |run|
  {
    if run == [] then s else After(Apply(s, run[0]), run[1..])
  }

  // ----- The counter -----

  predicate Counted(pc: ProducerPc) {
    pc.Inside? || pc.Returning? || pc.Panicked?
  }

  ghost function InFlight(s: State): set<int> {
    set p | p in s.producers && Counted(s.producers[p])
  }

  /** The counter is the number of registered producers; the channel closes behind the fence; and
      a fence still open after the stop has somebody left to close it. */
  ghost predicate Inv(s: State) {
    && s.count == |InFlight(s)|
    && (s.closed ==> s.fence)
    && (s.fence ==> !s.stop.Running?)
    && (s.stop.Signalled? && !s.fence ==> s.count > 0 || exists p :: At(s, p, Zeroed))
  }

  lemma Moved(s: State, p: int, pc: ProducerPc)
    ensures var was := p in s.producers && Counted(s.producers[p]);
            |InFlight(Move(s, p, pc))| == |InFlight(s)| + (if Counted(pc) then 1 else 0) - (if was then 1 else 0)
  {
    var before, after := InFlight(s), InFlight(Move(s, p, pc));
    MovedSet(s, p, pc);
    assert p in before <==> p in s.producers && Counted(s.producers[p]);
  }

  lemma MovedSet(s: State, p: int, pc: ProducerPc)
    ensures InFlight(Move(s, p, pc)) == if Counted(pc) then InFlight(s) + {p} else InFlight(s) - {p}
  {
  }

  lemma SameProducers(s: State, s': State)
    requires s.producers == s'.producers
    ensures InFlight(s) == InFlight(s')
  {
  }

  lemma StepCount(s: State, a: Step)
    requires Inv(s) && Enabled(s, a)
    ensures Apply(s, a).count == |InFlight(Apply(s, a))|
  {
    match a
    case CloseStopCh => SameProducers(s, Apply(s, a));
    case LookAtCount => SameProducers(s, Apply(s, a));
    case CloseQueues => SameProducers(s, Apply(s, a));
    case _ =>
      var pc := Apply(s, a).producers[a.p];
      Moved(s, a.p, pc);
      SameProducers(Move(s, a.p, pc), Apply(s, a));
  }

  lemma StepInv(s: State, a: Step)
    requires Inv(s) && Enabled(s, a)
    ensures Inv(Apply(s, a))
  {
    var s' := Apply(s, a);
    StepCount(s, a);
    if s'.stop.Signalled? && !s'.fence && s'.count <= 0 {
      SomebodyLooks(s, a);
    }
  }

  lemma SomebodyLooks(s: State, a: Step)
    requires Inv(s) && Enabled(s, a) && Apply(s, a).count == |InFlight(Apply(s, a))|
    requires Apply(s, a).stop.Signalled? && !Apply(s, a).fence && Apply(s, a).count <= 0
    ensures exists p :: At(Apply(s, a), p, Zeroed)
  {
    var s' := Apply(s, a);
    if a.Decrement? {
      assert At(s', a.p, Zeroed);
    } else {
      var p :| At(s, p, Zeroed);
      assert At(s', p, Zeroed);
    }
  }

  // ----- Exactly when the fence holds -----

  ghost predicate FenceHolds(s: State) {
    s.fence ==> InFlight(s) == {}
  }

  /** endSubmit took the counter to zero, another producer registered, the stop was signalled,
      and only then endSubmit looked at the stop. */
  predicate LateLook(s: State, a: Step) {
    a.LookAtStop? && !s.stop.Running? && s.count != 0
  }

  lemma StepFence(s: State, a: Step)
    requires Inv(s) && Enabled(s, a) && FenceHolds(s)
    ensures FenceHolds(Apply(s, a)) <==> !LateLook(s, a)
  {
    StepCount(s, a);
    var s' := Apply(s, a);
    assert s.count == 0 <==> InFlight(s) == {};
    assert s'.count == 0 <==> InFlight(s') == {};
    assert forall p :: p in s.producers && Counted(s.producers[p]) ==> p in InFlight(s);
  }

  /** No step of the run is a late look. */
  predicate Clean(s: State, run: seq<Step>)
    requires Runs(s, run)
    decreases |run|
  {
    run != [] ==> !LateLook(s, run[0]) && Clean(Apply(s, run[0]), run[1..])
  }

  /** In every state of the run, a closed fence has no producer in flight. */
  ghost predicate AlwaysHolds(s: State, run: seq<Step>)
    requires Runs(s, run)
    decreases |run|
  {
    FenceHolds(s) && (run != [] ==> AlwaysHolds(Apply(s, run[0]), run[1..]))
  }

  lemma {:induction false} FenceRuns(s: State, run: seq<Step>)
    requires Inv(s) && FenceHolds(s) && Runs(s, run)
    ensures Inv(After(s, run))
    ensures AlwaysHolds(s, run) <==> Clean(s, run)
    ensures Clean(s, run) ==> FenceHolds(After(s, run))
    decreases |run|
  {
    if run != [] {
      StepInv(s, run[0]);
      StepFence(s, run[0]);
      if !LateLook(s, run[0]) {
        FenceRuns(Apply(s, run[0]), run[1..]);
      } else {
        RunInv(Apply(s, run[0]), run[1..]);
      }
    }
  }

  lemma {:induction false} RunInv(s: State, run: seq<Step>)
    requires Inv(s) && Runs(s, run)
    ensures Inv(After(s, run))
    decreases |run|
  {
    if run != [] {
      StepInv(s, run[0]);
      RunInv(Apply(s, run[0]), run[1..]);
    }
  }

  lemma InitInv(s: State)
    requires Init(s)
    ensures Inv(s) && FenceHolds(s)
  {
    assert InFlight(s) == {};
  }

  /** Without a late look, nobody sends on a closed channel. */
  lemma CleanRunsNeverPanic(s: State, run: seq<Step>, p: int)
    requires Init(s) && Runs(s, run) && Clean(s, run)
    ensures !At(After(s, run), p, Panicked)
    ensures At(After(s, run), p, Inside) ==> !After(s, run).closed
  {
    InitInv(s);
    FenceRuns(s, run);
    NoPanicYet(s, run, p);
    var s' := After(s, run);
    assert At(s', p, Inside) ==> p in InFlight(s');
  }

  lemma {:induction false} NoPanicYet(s: State, run: seq<Step>, p: int)
    requires Inv(s) && FenceHolds(s) && Runs(s, run) && Clean(s, run) && !At(s, p, Panicked)
    ensures !At(After(s, run), p, Panicked)
    decreases |run|
  {
    if run != [] {
      StepInv(s, run[0]);
      StepFence(s, run[0]);
      assert At(s, p, Inside) ==> p in InFlight(s);
      NoPanicYet(Apply(s, run[0]), run[1..], p);
    }
  }

  /** The steps that lead from a late look to a send of producer p. */
  function PanicAfter(s: State, p: int): seq<Step> {
    (if s.stop.Signalling? then [LookAtCount] else []) + [CloseQueues, Send(p)]
  }

  // Where a late look comes from.

  /** Some producer is registered by a step of the run. */
  predicate Registers(s: State, run: seq<Step>)
    requires Runs(s, run)
    decreases |run|
  {
    run != [] && ((run[0].Begin? && s.stop.Running?) || Registers(Apply(s, run[0]), run[1..]))
  }

  /** Producer p took the counter to zero, and after that somebody was registered. */
  predicate Overrun(s: State, run: seq<Step>, p: int)
    requires Runs(s, run)
    decreases |run|
  {
    run != [] &&
      ((run[0] == Decrement(p) && Apply(s, run[0]).count == 0 && Registers(Apply(s, run[0]), run[1..]))
       || Overrun(Apply(s, run[0]), run[1..], p))
  }

  lemma NobodyToLeave(s: State, p: int)
    requires Inv(s) && s.count == 0
    ensures !At(s, p, Returning)
  {
    assert At(s, p, Returning) ==> p in InFlight(s);
  }

  lemma {:induction false} NobodyRegistered(s: State, run: seq<Step>)
    requires Inv(s) && Runs(s, run) && s.count == 0 && !Registers(s, run)
    ensures After(s, run).count == 0
    decreases |run|
  {
    if run != [] {
      forall p ensures !At(s, p, Returning) {
        NobodyToLeave(s, p);
      }
      StepInv(s, run[0]);
      NobodyRegistered(Apply(s, run[0]), run[1..]);
    }
  }

  lemma {:induction false} RunOverrun(s: State, run: seq<Step>, p: int)
    requires Inv(s) && Runs(s, run) && !At(s, p, Zeroed) && At(After(s, run), p, Zeroed) && After(s, run).count != 0
    ensures Overrun(s, run, p)
    decreases |run|
  {
    var m := Apply(s, run[0]);
    StepInv(s, run[0]);
    if At(m, p, Zeroed) {
      if !Registers(m, run[1..]) { NobodyRegistered(m, run[1..]); }
    } else {
      RunOverrun(m, run[1..], p);
    }
  }

  /** In every run, a late look really is one: its producer had taken the counter to zero, and another was
      registered before it came to look. */
  lemma LateLookIsOverrun(s: State, run: seq<Step>, a: Step)
    requires Init(s) && Runs(s, run) && Enabled(After(s, run), a) && LateLook(After(s, run), a)
    ensures Overrun(s, run, a.p)
  {
    assert InFlight(s) == {};
    RunOverrun(s, run, a.p);
  }

  /** Conversely, a late look taken while a producer has not sent yet lets that producer panic. */
  lemma LateLookCanPanic(s: State, a: Step, p: int)
    requires Enabled(s, a) && LateLook(s, a) && At(s, p, Inside)
    ensures var s' := Apply(s, a);
            Runs(s', PanicAfter(s', p)) && At(After(s', PanicAfter(s', p)), p, Panicked)
  {
    var s1 := Apply(s, a);
    var s2 := if s1.stop.Signalling? then Apply(s1, LookAtCount) else s1;
    var s3 := Apply(s2, CloseQueues);
    assert At(s3, p, Inside) && s3.closed;
    var s4 := Apply(s3, Send(p));
    Leads(s3, [Send(p)], s4);
    Leads(s2, [CloseQueues, Send(p)], s4);
    if s1.stop.Signalling? {
      assert PanicAfter(s1, p) == [LookAtCount, CloseQueues, Send(p)];
      Leads(s1, [LookAtCount, CloseQueues, Send(p)], s4);
    } else {
      assert PanicAfter(s1, p) == [CloseQueues, Send(p)];
    }
  }

  /** The stop is never left waiting: while the fence is open, some producer still has a step of its own. */
  lemma StopIsNotStranded(s: State, run: seq<Step>)
    requires Init(s) && Runs(s, run)
    ensures var s' := After(s, run);
      s'.stop.Signalled? && !s'.fence ==>
        exists p :: At(s', p, Inside) || At(s', p, Returning) || At(s', p, Zeroed)
  {
    InitInv(s);
    RunInv(s, run);
    var s' := After(s, run);
    if s'.stop.Signalled? && !s'.fence && s'.count > 0 {
      NobodyPanicsFirst(s, run);
      var p := SomeMember(InFlight(s'));
      assert !At(s', p, Panicked);
      assert At(s', p, Inside) || At(s', p, Returning);
    }
  }

  /** Nobody has panicked while the channel is open. */
  ghost predicate Calm(s: State) {
    s.closed || forall p :: !At(s, p, Panicked)
  }

  lemma StaysCalm(s: State, a: Step)
    requires Enabled(s, a) && Calm(s)
    ensures Calm(Apply(s, a))
  {
    var s' := Apply(s, a);
    forall p | !s'.closed ensures !At(s', p, Panicked) {
      assert !At(s, p, Panicked);
    }
  }

  lemma {:induction false} NobodyPanicsFirst(s: State, run: seq<Step>)
    requires Runs(s, run) && Calm(s)
    ensures Calm(After(s, run))
    decreases |run|
  {
    if run != [] {
      StaysCalm(s, run[0]);
      NobodyPanicsFirst(Apply(s, run[0]), run[1..]);
    }
  }

  /** A run of two producers and a stop that ends in a send on a closed channel. */
  const LATE_RUN: seq<Step> := [
    Begin(1), Send(1), Decrement(1),   // 1 takes the counter to zero
    Begin(2),                          // 2 registers
    CloseStopCh, LookAtCount,          // the stop sees one producer and leaves the fence open
    LookAtStop(1),                     // 1 sees the stop and closes the fence
    CloseQueues, Send(2)]

  lemma SendCanPanic(s: State)
    requires Init(s)
    ensures Runs(s, LATE_RUN) && !Clean(s, LATE_RUN)
    ensures At(After(s, LATE_RUN), 2, Panicked)
  {
    var s1 := Apply(s, Begin(1));
    var s2 := Apply(s1, Send(1));
    var s3 := Apply(s2, Decrement(1));
    var s4 := Apply(s3, Begin(2));
    var s5 := Apply(s4, CloseStopCh);
    var s6 := Apply(s5, LookAtCount);
    var s7 := Apply(s6, LookAtStop(1));
    var s8 := Apply(s7, CloseQueues);
    var s9 := Apply(s8, Send(2));
    Leads(s8, [Send(2)], s9);
    Leads(s7, [CloseQueues, Send(2)], s9);
    Leads(s6, LATE_RUN[6..], s9);
    Leads(s5, LATE_RUN[5..], s9);
    Leads(s4, LATE_RUN[4..], s9);
    Leads(s3, LATE_RUN[3..], s9);
    Leads(s2, LATE_RUN[2..], s9);
    Leads(s1, LATE_RUN[1..], s9);
    Leads(s, LATE_RUN, s9);
    InitInv(s);
    if Clean(s, LATE_RUN) { CleanRunsNeverPanic(s, LATE_RUN, 2); }
  }

  lemma Leads(s: State, run: seq<Step>, end: State)
    requires run != [] && Enabled(s, run[0])
    requires run[1..] == [] ==> Apply(s, run[0]) == end
    requires run[1..] != [] ==> Runs(Apply(s, run[0]), run[1..]) && After(Apply(s, run[0]), run[1..]) == end
    ensures Runs(s, run) && After(s, run) == end
  {
  }
}
