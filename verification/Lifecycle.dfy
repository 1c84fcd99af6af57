/** The reader/finalizer protocol of AsyncReservation and AsyncDropCopyOperation.

    Both wrappers run the same code on the same fields, so it is modelled once. `Handle` is the
    object with its mutable fields and one method per critical section under `mu`; `System` adds
    the goroutines, the other two mutexes and the one-shot channels, and is the transition system
    over which the promises are proved. */
module Lifecycle {
  import opened Wrappers

  datatype Phase = Open | Finalizing | Closed
  datatype Op = Commit | CommitAndClose | Rollback | RollbackAndClose | Close
  datatype ReadResult = Admitted | FinalizationInProgress | ErrClosed

  predicate Closes(op: Op) {
    op.CommitAndClose? || op.RollbackAndClose? || op.Close?
  }

  /** The fields guarded by `mu`. */
  datatype Fields = Fields(phase: Phase, closed: bool, readers: int, readersDone: Option<int>)

  // ----- The critical sections -----

  /** The first one of runInner; `ch` is the channel it makes if it has to wait. */
  function Mark(m: Fields, ch: int): Fields {
    m.(phase := Finalizing, readersDone := if m.readers != 0 then Some(ch) else m.readersDone)
  }

  /** The deferred one of runInner. */
  function Settle(m: Fields, op: Op): Fields {
    var closed := m.closed || Closes(op);
    m.(closed := closed, phase := if closed then Closed else Open)
  }

  function ReadAnswer(m: Fields): ReadResult {
    if m.closed then ErrClosed
    else match m.phase
      case Open => Admitted
      case Finalizing => FinalizationInProgress
      case Closed => ErrClosed
  }

  function BeginRead(m: Fields): Fields {
    if ReadAnswer(m).Admitted? then m.(readers := m.readers + 1) else m
  }

  /** endRead closes the channel when the last reader leaves. */
  function EndRead(m: Fields): Fields {
    var left := m.readers - 1;
    m.(readers := left, readersDone := if left == 0 then None else m.readersDone)
  }

  class Handle {
    var phase: Phase
    var closed: bool
    var readers: int
    var readersDone: Option<int>
    var closedChannels: set<int>

    ghost function View(): Fields
      reads this
    {
      Fields(phase, closed, readers, readersDone)
    }

    constructor ()
      ensures View() == Fields(Open, false, 0, None) && closedChannels == {}
    {
      phase, closed, readers, readersDone, closedChannels := Open, false, 0, None, {};
    }

    method MarkFinalizing(ch: int) returns (wait: Option<int>)
      modifies this`phase, this`readersDone
      ensures View() == Mark(old(View()), ch)
      ensures wait == if old(readers) != 0 then Some(ch) else None
    {
      phase := Finalizing;
      wait := None;
      if readers != 0 {
        readersDone := Some(ch);
        wait := readersDone;
      }
    }

    method SettleFinalization(op: Op)
      modifies this`phase, this`closed
      ensures View() == Settle(old(View()), op)
    {
      if Closes(op) {
        closed := true;
      }
      if closed {
        phase := Closed;
      } else {
        phase := Open;
      }
    }

    method TryBeginRead() returns (answer: ReadResult)
      modifies this`readers
      ensures answer == ReadAnswer(old(View()))
      ensures View() == BeginRead(old(View()))
    {
      if closed {
        return ErrClosed;
      }
      match phase
      case Open =>
        readers := readers + 1;
        answer := Admitted;
      case Finalizing => answer := FinalizationInProgress;
      case Closed => answer := ErrClosed;
    }

    method FinishRead()
      modifies this`readers, this`readersDone, this`closedChannels
      ensures View() == EndRead(old(View()))
      ensures closedChannels == old(closedChannels) +
                if old(readers) == 1 && old(readersDone).Some? then {old(readersDone).value} else {}
    {
      readers := readers - 1;
      if readers == 0 && readersDone.Some? {
        closedChannels := closedChannels + {readersDone.value};
        readersDone := None;
      }
    }
  }

  // ----- Goroutines -----

  datatype FinalizerPc = Called | Locked | Draining(ch: int) | Native | Finished
  datatype Finalizer = Finalizer(op: Op, pc: FinalizerPc)
  datatype ReaderPc = Asking | Inside | Reading | Leaving | Answered(result: ReadResult)

  datatype System = System(
    fields: Fields,
    lifecycleMu: Option<int>,               // the finalizer that holds it
    methodMu: Option<int>,                  // the reader that holds it
    finalizers: map<int, Finalizer>,
    readers: map<int, ReaderPc>,
    closes: seq<int>,                  // every close of a readersDone channel, in order
    channels: int)                     // how many channels were made

  predicate Init(s: System) {
    s == System(Fields(Open, false, 0, None), None, None, map[], map[], [], 0)
  }

  datatype Step =
    | Call(f: int, op: Op) | LockLifecycle(f: int) | DoMark(f: int) | Wake(f: int) | NativeReturns(f: int)
    | Ask(r: int) | DoBeginRead(r: int) | LockMethod(r: int) | ReadReturns(r: int) | DoEndRead(r: int)

  predicate FinalizerAt(s: System, f: int, pc: FinalizerPc) {
    f in s.finalizers && s.finalizers[f].pc == pc
  }

  predicate ReaderAt(s: System, r: int, pc: ReaderPc) {
    r in s.readers && s.readers[r] == pc
  }

  predicate Enabled(s: System, a: Step) {
    match a
    case Call(f, _) => f !in s.finalizers
    case LockLifecycle(f) => FinalizerAt(s, f, Called) && s.lifecycleMu.None?
    case DoMark(f) => FinalizerAt(s, f, Locked)
    case Wake(f) => f in s.finalizers && s.finalizers[f].pc.Draining? && s.finalizers[f].pc.ch in s.closes
    case NativeReturns(f) => FinalizerAt(s, f, Native)
    case Ask(r) => r !in s.readers
    case DoBeginRead(r) => ReaderAt(s, r, Asking)
    case LockMethod(r) => ReaderAt(s, r, Inside) && s.methodMu.None?
    case ReadReturns(r) => ReaderAt(s, r, Reading)
    case DoEndRead(r) => ReaderAt(s, r, Leaving)
  }

  function SetFinalizer(s: System, f: int, pc: FinalizerPc): System
    requires f in s.finalizers
  {
    s.(finalizers := s.finalizers[f := s.finalizers[f].(pc := pc)])
  }

  function SetReader(s: System, r: int, pc: ReaderPc): System {
    s.(readers := s.readers[r := pc])
  }

  function Apply(s: System, a: Step): System
    requires Enabled(s, a)
  {
    match a
    case Call(f, op) => s.(finalizers := s.finalizers[f := Finalizer(op, Called)])
    case LockLifecycle(f) => SetFinalizer(s, f, Locked).(lifecycleMu := Some(f))
    case DoMark(f) =>
      SetFinalizer(s, f, if s.fields.readers != 0 then Draining(s.channels) else Native)
        .(fields := Mark(s.fields, s.channels), channels := s.channels + 1)
    case Wake(f) => SetFinalizer(s, f, Native)
    case NativeReturns(f) =>
      SetFinalizer(s, f, Finished).(fields := Settle(s.fields, s.finalizers[f].op), lifecycleMu := None)
    case Ask(r) => SetReader(s, r, Asking)
    case DoBeginRead(r) =>
      SetReader(s, r, if ReadAnswer(s.fields).Admitted? then Inside else Answered(ReadAnswer(s.fields)))
        .(fields := BeginRead(s.fields))
    case LockMethod(r) => SetReader(s, r, Reading).(methodMu := Some(r))
    case ReadReturns(r) => SetReader(s, r, Leaving).(methodMu := None)
    case DoEndRead(r) =>
      SetReader(s, r, Answered(Admitted))
        .(fields := EndRead(s.fields),
          closes := s.closes + if s.fields.readers == 1 && s.fields.readersDone.Some? then [s.fields.readersDone.value] else [])
  }

  predicate Runs(s: System, run: seq<Step>)
    decreases |run|
  {
    run == [] || (Enabled(s, run[0]) && Runs(Apply(s, run[0]), run[1..]))
  }

  function After(s: System, run: seq<Step>): System
    requires Runs(s, run)
    decreases |run|
  {
    if run == [] then s else After(Apply(s, run[0]), run[1..])
  }

  // ----- The invariant -----

  predicate IsIn(pc: ReaderPc) {
    pc.Inside? || pc.Reading? || pc.Leaving?
  }

  /** The admitted readers. */
  ghost function Readers(s: System): set<int> {
    set r | r in s.readers && IsIn(s.readers[r])
  }

  predicate Holds(pc: FinalizerPc) {
    pc.Locked? || pc.Draining? || pc.Native?
  }

  ghost predicate FieldsInv(s: System) {
    && s.fields.readers == |Readers(s)|
    && (s.fields.closed ==> s.fields.readers == 0)
    && (s.fields.phase.Open? ==> !s.fields.closed)
    && (s.fields.phase.Closed? ==> s.fields.closed)
  }

  ghost predicate MutexInv(s: System) {
    && (forall f :: f in s.finalizers ==> (Holds(s.finalizers[f].pc) <==> s.lifecycleMu == Some(f)))
    && (s.lifecycleMu.Some? ==> s.lifecycleMu.value in s.finalizers)
    && (forall r :: r in s.readers ==> (s.readers[r].Reading? <==> s.methodMu == Some(r)))
    && (s.methodMu.Some? ==> s.methodMu.value in s.readers)
  }

  /** What the finalizer that holds lifecycleMu can rely on. */
  ghost predicate HolderInv(s: System) {
    if s.lifecycleMu.None? || s.lifecycleMu.value !in s.finalizers then
      !s.fields.phase.Finalizing? && s.fields.readersDone.None?
    else
      match s.finalizers[s.lifecycleMu.value].pc
      case Draining(ch) =>
        && s.fields.phase.Finalizing?
        && (if s.fields.readers != 0 then s.fields.readersDone == Some(ch) && ch !in s.closes
            else s.fields.readersDone.None? && ch in s.closes)
      case Native => s.fields.phase.Finalizing? && s.fields.readers == 0 && s.fields.readersDone.None?
      case _ => !s.fields.phase.Finalizing? && s.fields.readersDone.None?
  }

  /** Every channel is closed at most once. */
  ghost predicate ChannelInv(s: System) {
    && (forall i, j :: 0 <= i < j < |s.closes| ==> s.closes[i] != s.closes[j])
    && (forall ch :: ch in s.closes ==> ch < s.channels)
    && (s.fields.readersDone.Some? ==> s.fields.readersDone.value < s.channels && s.fields.readersDone.value !in s.closes)
  }

  ghost predicate Inv(s: System) {
    FieldsInv(s) && MutexInv(s) && HolderInv(s) && ChannelInv(s)
  }

  lemma InitInv(s: System)
    requires Init(s)
    ensures Inv(s)
  {
    assert Readers(s) == {};
  }

  lemma ReaderMoves(s: System, r: int, pc: ReaderPc)
    ensures var was := r in s.readers && IsIn(s.readers[r]);
            |Readers(SetReader(s, r, pc))| == |Readers(s)| + (if IsIn(pc) then 1 else 0) - (if was then 1 else 0)
  {
    var s' := SetReader(s, r, pc);
    if IsIn(pc) {
      assert Readers(s') == Readers(s) + {r};
    } else {
      assert Readers(s') == Readers(s) - {r};
    }
  }

  lemma SameReaders(s: System, s': System)
    requires s'.readers == s.readers
    ensures Readers(s') == Readers(s)
  {
  }

  lemma FinalizerStep(s: System, a: Step)
    requires Inv(s) && Enabled(s, a) && (a.Call? || a.LockLifecycle? || a.DoMark? || a.Wake? || a.NativeReturns?)
    ensures Inv(Apply(s, a))
  {
    SameReaders(s, Apply(s, a));
  }

  lemma ReaderStep(s: System, a: Step)
    requires Inv(s) && Enabled(s, a) && (a.Ask? || a.LockMethod? || a.ReadReturns?)
    ensures Inv(Apply(s, a))
  {
    var pc := if a.Ask? then Asking else if a.LockMethod? then Reading else Leaving;
    ReaderMoves(s, a.r, pc);
    SameReaders(SetReader(s, a.r, pc), Apply(s, a));
  }

  lemma BeginReadStep(s: System, r: int)
    requires Inv(s) && Enabled(s, DoBeginRead(r))
    ensures Inv(Apply(s, DoBeginRead(r)))
  {
    var pc := if ReadAnswer(s.fields).Admitted? then Inside else Answered(ReadAnswer(s.fields));
    ReaderMoves(s, r, pc);
    SameReaders(SetReader(s, r, pc), Apply(s, DoBeginRead(r)));
  }

  lemma EndReadStep(s: System, r: int)
    requires Inv(s) && Enabled(s, DoEndRead(r))
    ensures Inv(Apply(s, DoEndRead(r)))
  {
    ReaderMoves(s, r, Answered(Admitted));
    SameReaders(SetReader(s, r, Answered(Admitted)), Apply(s, DoEndRead(r)));
    assert r in Readers(s);
  }

  lemma StepInv(s: System, a: Step)
    requires Inv(s) && Enabled(s, a)
    ensures Inv(Apply(s, a))
  {
    match a
    case DoBeginRead(r) => BeginReadStep(s, r);
    case DoEndRead(r) => EndReadStep(s, r);
    case Ask(_) => ReaderStep(s, a);
    case LockMethod(_) => ReaderStep(s, a);
    case ReadReturns(_) => ReaderStep(s, a);
    case _ => FinalizerStep(s, a);
  }

  lemma {:induction false} RunInv(s: System, run: seq<Step>)
    requires Inv(s) && Runs(s, run)
    ensures Inv(After(s, run))
    decreases |run|
  {
    if run != [] {
      StepInv(s, run[0]);
      RunInv(Apply(s, run[0]), run[1..]);
    }
  }

  // ----- The promises -----

  /** A native finalization never overlaps an admitted read, and the handle sees at most one
      native call at a time. */
  lemma NativeCallsAreAlone(s: System, run: seq<Step>)
    requires Init(s) && Runs(s, run)
    ensures var s' := After(s, run);
            forall f :: FinalizerAt(s', f, Native) ==>
              && (forall r :: r in s'.readers ==> !IsIn(s'.readers[r]))
              && (forall g :: FinalizerAt(s', g, Native) ==> g == f)
    ensures var s' := After(s, run);
            forall r, q :: ReaderAt(s', r, Reading) && ReaderAt(s', q, Reading) ==> r == q
  {
    InitInv(s);
    RunInv(s, run);
    var s' := After(s, run);
    forall f, r | FinalizerAt(s', f, Native) && r in s'.readers ensures !IsIn(s'.readers[r]) {
      assert s'.lifecycleMu == Some(f);
      assert Readers(s') == {};
      assert r !in Readers(s');
    }
  }

  /** No wake-up is lost: a draining finalizer either can wake, or still has a reader inside and
      its channel registered, to be closed by the last of them. */
  lemma NoLostWakeup(s: System, run: seq<Step>, f: int)
    requires Init(s) && Runs(s, run)
    requires f in After(s, run).finalizers && After(s, run).finalizers[f].pc.Draining?
    ensures var s' := After(s, run);
            || Enabled(s', Wake(f))
            || (s'.fields.readersDone == Some(s'.finalizers[f].pc.ch) && s'.fields.readers == |Readers(s')| > 0)
  {
    InitInv(s);
    RunInv(s, run);
    assert After(s, run).lifecycleMu == Some(f);
  }

  /** Every readersDone channel is closed at most once, so close never panics. */
  lemma ChannelsCloseOnce(s: System, run: seq<Step>)
    requires Init(s) && Runs(s, run)
    ensures var c := After(s, run).closes; forall i, j :: 0 <= i < j < |c| ==> c[i] != c[j]
  {
    InitInv(s);
    RunInv(s, run);
  }

  lemma ClosedStep(s: System, a: Step)
    requires Inv(s) && Enabled(s, a) && s.fields.closed
    ensures Apply(s, a).fields.closed && Apply(s, a).fields.readers == 0
    ensures a.DoBeginRead? ==> ReaderAt(Apply(s, a), a.r, Answered(ErrClosed))
  {
    StepInv(s, a);
  }

  /** Closed is for good: after a closing operation every later read is answered with the closed
      error and the reader count stays zero, even while a later finalizer is finalizing. */
  lemma {:induction false} ClosedIsPermanent(s: System, run: seq<Step>)
    requires Inv(s) && Runs(s, run) && s.fields.closed
    ensures After(s, run).fields.closed && After(s, run).fields.readers == 0
    ensures ReadAnswer(After(s, run).fields) == ErrClosed
    decreases |run|
  {
    if run != [] {
      ClosedStep(s, run[0]);
      StepInv(s, run[0]);
      ClosedIsPermanent(Apply(s, run[0]), run[1..]);
    }
  }

  /** A finished operation leaves the wrapper closed if it closes; otherwise, unless something
      closed it before, reads are admitted again. */
  lemma AfterFinalization(s: System, f: int)
    requires Inv(s) && Enabled(s, NativeReturns(f))
    ensures var s' := Apply(s, NativeReturns(f));
            ReadAnswer(s'.fields) == (if s.fields.closed || Closes(s.finalizers[f].op) then ErrClosed else Admitted)
  {
  }

  // ----- What a read is told -----

  /** A closing call on the handle has returned. */
  ghost predicate ClosedByNow(s: System) {
    exists f :: f in s.finalizers && s.finalizers[f].pc == Finished && s.finalizers[f].op in {CommitAndClose, RollbackAndClose, Close}
  }

  /** Some finalization waits for readers or is in its native call. */
  ghost predicate FinalizingNow(s: System) {
    exists f :: f in s.finalizers && (s.finalizers[f].pc.Draining? || s.finalizers[f].pc == Native)
  }

  lemma StepClosed(s: System, a: Step)
    requires Inv(s) && Enabled(s, a) && (s.fields.closed <==> ClosedByNow(s))
    ensures Apply(s, a).fields.closed <==> ClosedByNow(Apply(s, a))
  {
    var s' := Apply(s, a);
    if f :| f in s.finalizers && s.finalizers[f].pc == Finished && s.finalizers[f].op in {CommitAndClose, RollbackAndClose, Close} {
      assert f in s'.finalizers && s'.finalizers[f] == s.finalizers[f];
    }
    if a.NativeReturns? {
      assert s'.finalizers[a.f].pc == Finished && s'.finalizers[a.f].op == s.finalizers[a.f].op;
    }
    if g :| g in s'.finalizers && s'.finalizers[g].pc == Finished && s'.finalizers[g].op in {CommitAndClose, RollbackAndClose, Close} {
      assert a == NativeReturns(g) || (g in s.finalizers && s.finalizers[g] == s'.finalizers[g]);
    }
  }

  lemma {:induction false} RunClosed(s: System, run: seq<Step>)
    requires Inv(s) && Runs(s, run) && (s.fields.closed <==> ClosedByNow(s))
    ensures Inv(After(s, run)) && (After(s, run).fields.closed <==> ClosedByNow(After(s, run)))
    decreases |run|
  {
    if run != [] {
      StepInv(s, run[0]);
      StepClosed(s, run[0]);
      RunClosed(Apply(s, run[0]), run[1..]);
    }
  }

  lemma PhaseIsFinalizing(s: System)
    requires Inv(s)
    ensures s.fields.phase.Finalizing? <==> FinalizingNow(s)
  {
    if s.fields.phase.Finalizing? {
      var f := s.lifecycleMu.value;
      assert f in s.finalizers && (s.finalizers[f].pc.Draining? || s.finalizers[f].pc == Native);
    }
    if f :| f in s.finalizers && (s.finalizers[f].pc.Draining? || s.finalizers[f].pc == Native) {
      assert s.lifecycleMu == Some(f);
    }
  }

  /** In every run, a read that begins is told closed exactly if a closing call has returned, told to
      come again exactly if none has and a finalization is under way, and let in otherwise. */
  lemma ReadsAreToldTheTruth(s: System, run: seq<Step>, r: int)
    requires Init(s) && Runs(s, run) && Enabled(After(s, run), DoBeginRead(r))
    ensures var e := After(s, run);
            var now := Apply(e, DoBeginRead(r)).readers[r];
            && (now == Answered(ErrClosed) <==> ClosedByNow(e))
            && (now == Answered(FinalizationInProgress) <==> !ClosedByNow(e) && FinalizingNow(e))
            && (now == Inside <==> !ClosedByNow(e) && !FinalizingNow(e))
  {
    InitInv(s);
    RunClosed(s, run);
    PhaseIsFinalizing(After(s, run));
  }
}
