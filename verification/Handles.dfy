/** Who closes a native handle and who resolves a future.

    The methods are the bodies of what the dispatcher carries: what run, abort, the
    failure handoff and a plain refusal each do to the inner handle and to the future. The lemmas
    put them together with the dispatcher: over any run, a closing call closes its handle exactly
    once and resolves its future exactly once, whoever ends up doing it. */
module Handles {
  import opened Lanes
  import opened Dispatcher
  import opened Wrappers
  import opened Ownership
  import opened Outcomes
  import opened Safety
  import Lifecycle

  type Reject = int

  datatype Error = ErrStopped | Transport(code: int) | ErrRequestClosed | ErrDriverResult | Joined(cause: Error)

  datatype Failure = NoError | Because(error: Error)

  // ----- The native handle and the future -----

  /** A native handle; `uses` is every call made on it, in order. */
  class Inner {
    var closed: bool
    var uses: seq<Lifecycle.Op>

    constructor ()
      ensures !closed && uses == []
    {
      closed, uses := false, [];
    }

    /** Closing is idempotent: the handle is destroyed by the first call that closes it. */
    method Use(op: Lifecycle.Op)
      modifies this
      ensures uses == old(uses) + [op]
      ensures closed == (old(closed) || Lifecycle.Closes(op))
    {
      uses := uses + [op];
      if Lifecycle.Closes(op) {
        closed := true;
      }
    }
  }

  function Closings(uses: seq<Lifecycle.Op>): nat {
    if uses == [] then 0
    else Closings(uses[..|uses| - 1]) + if Lifecycle.Closes(uses[|uses| - 1]) then 1 else 0
  }

  lemma UsedOnce(uses: seq<Lifecycle.Op>, op: Lifecycle.Op)
    ensures Closings(uses + [op]) == Closings(uses) + if Lifecycle.Closes(op) then 1 else 0
  {
    assert (uses + [op])[..|uses|] == uses;
  }

  datatype Answer =
    | Accepted(handle: Inner)
    | Rejected(rejects: seq<Reject>)
    | Failed(error: Error)
    | Finished

  /** Only the first resolution has an effect; `attempts` counts them all. */
  class Future {
    var answers: seq<Answer>
    var attempts: nat

    constructor ()
      ensures answers == [] && attempts == 0
    {
      answers, attempts := [], 0;
    }

    method Resolve(answer: Answer)
      modifies this
      ensures attempts == old(attempts) + 1
      ensures answers == if old(answers) == [] then [answer] else old(answers)
    {
      attempts := attempts + 1;
      if answers == [] {
        answers := [answer];
      }
    }
  }

  // ----- Driver results -----

  /** A driver result is well formed when exactly one of its three parts is there; what it said
      itself is kept in the error. */
  function ValidateDriverResult(hasHandle: bool, hasLiveHandle: bool, rejects: seq<Reject>, err: Failure): (r: Failure)
    requires hasLiveHandle ==> hasHandle
    ensures r.NoError? <==>
              || (hasHandle && hasLiveHandle && rejects == [] && err.NoError?)
              || (!hasHandle && rejects != [] && err.NoError?)
              || (!hasHandle && rejects == [] && err.Because?)
    ensures r.Because? && err.Because? ==> r.error == Joined(err.error)
    ensures r.Because? && err.NoError? ==> r.error == ErrDriverResult
  {
    var broken := Because(if err.NoError? then ErrDriverResult else Joined(err.error));
    if hasHandle && !hasLiveHandle then broken
    else
      var count := (if hasLiveHandle then 1 else 0) + (if rejects != [] then 1 else 0) + (if err.Because? then 1 else 0);
      if count == 1 then NoError else broken
  }

  /** What the caller is told: a live handle with nothing beside it, rejects alone, an error alone, or
      else that the driver broke its contract, with what it said itself. */
  function DriverAnswer(handle: Inner?, live: bool, rejects: seq<Reject>, err: Failure): Answer {
    if handle != null && live && rejects == [] && err.NoError? then Accepted(handle)
    else if handle == null && rejects != [] && err.NoError? then Rejected(rejects)
    else if handle == null && rejects == [] && err.Because? then Answer.Failed(err.error)
    else Answer.Failed(if err.Because? then Joined(err.error) else ErrDriverResult)
  }

  /** The driver's handle is the sole live result, or it is closed; the future gets one answer, and
      an acceptance only when the driver returned a live handle and nothing else. */
  method ResolveDriverResult(f: Future, handle: Inner?, rejects: seq<Reject>, err: Failure)
    requires f.answers == []
    modifies f, handle
    ensures f.attempts == old(f.attempts) + 1 && |f.answers| == 1
    ensures f.answers[0].Accepted? <==> handle != null && !old(handle.closed) && rejects == [] && err.NoError?
    ensures f.answers[0].Accepted? ==> f.answers[0].handle == handle && !handle.closed && handle.uses == old(handle.uses)
    ensures !f.answers[0].Accepted? ==> handle == null || handle.closed
    ensures f.answers == [DriverAnswer(handle, handle != null && !old(handle.closed), rejects, err)]
    ensures handle == null && rejects != [] && err.NoError? ==> f.answers == [Rejected(rejects)]
    ensures handle == null && rejects == [] && err.Because? ==> f.answers == [Answer.Failed(err.error)]
    ensures f.answers[0].Rejected? ==> handle == null
  {
    var shape := ValidateDriverResult(handle != null, handle != null && !handle.closed, rejects, err);
    if shape.Because? {
      if handle != null {
        handle.Use(Lifecycle.Close);
      }
      f.Resolve(Answer.Failed(shape.error));
      return;
    }
    if err.Because? {
      f.Resolve(Answer.Failed(err.error));
      return;
    }
    if rejects != [] {
      f.Resolve(Rejected(rejects));
      return;
    }
    f.Resolve(Accepted(handle));
  }

  // ----- Tasks -----

  /** The calls that carry a handle. A reservation and a drop-copy operation run the same code. */
  datatype Call = RequestExecute | RequestClose | Finalize(op: Lifecycle.Op)

  /** The calls that leave the handle open. */
  const OPEN_ENDED: set<Call> := {Finalize(Lifecycle.Commit), Finalize(Lifecycle.Rollback)}

  /** A closing call hands its release off when its submit fails. */
  predicate HandsOff(call: Call) {
    call.Finalize? ==> Lifecycle.Closes(call.op)
  }

  /** What running the call does to the inner handle. */
  function RunOp(call: Call): Lifecycle.Op {
    match call
    case RequestExecute => Lifecycle.Close
    case RequestClose => Lifecycle.Close
    case Finalize(op) => op
  }

  /** executeInner closes the request whatever the main stage says; a closed request has no main stage. */
  method RunExecute(inner: Inner, f: Future, reservation: Inner?, rejects: seq<Reject>, err: Failure)
    requires f.answers == [] && reservation != inner
    modifies inner, f, reservation
    ensures inner.closed && inner.uses == old(inner.uses) + [Lifecycle.Close]
    ensures f.attempts == old(f.attempts) + 1 && |f.answers| == 1
    ensures f.answers[0].Accepted? <==>
              !old(inner.closed) && reservation != null && !old(reservation.closed) && rejects == [] && err.NoError?
    ensures !old(inner.closed) && !f.answers[0].Accepted? ==> reservation == null || reservation.closed
    ensures old(inner.closed) ==> f.answers == [Answer.Failed(ErrRequestClosed)]
    ensures !old(inner.closed) && reservation == null && rejects != [] && err.NoError? ==> f.answers == [Rejected(rejects)]
    ensures !old(inner.closed) && reservation == null && rejects == [] && err.Because? ==> f.answers == [Answer.Failed(err.error)]
    ensures !old(inner.closed) ==>
              f.answers == [DriverAnswer(reservation, reservation != null && !old(reservation.closed), rejects, err)]
  {
    var refused := inner.closed;
    inner.Use(Lifecycle.Close);
    if refused {
      ResolveDriverResult(f, null, [], Because(ErrRequestClosed));
    } else {
      ResolveDriverResult(f, reservation, rejects, err);
    }
  }

  /** The other tasks' run: one call on the handle, then the future. */
  method RunTask(call: Call, inner: Inner, f: Future)
    requires !call.RequestExecute?
    modifies inner, f
    ensures call.RequestClose? ==> inner.uses == old(inner.uses) + [Lifecycle.Close]
    ensures call.Finalize? ==> inner.uses == old(inner.uses) + [call.op]
    ensures f.attempts == old(f.attempts) + 1 && (old(f.answers) == [] ==> f.answers == [Finished])
  {
    inner.Use(RunOp(call));
    f.Resolve(Finished);
  }

  /** abort, and the cleanup of a failed submit: a closing call closes its handle all the same. */
  method EndUnrun(call: Call, inner: Inner, f: Future, err: Error)
    modifies inner, f
    ensures call in OPEN_ENDED ==> inner.uses == old(inner.uses)
    ensures call !in OPEN_ENDED ==> inner.uses == old(inner.uses) + [Lifecycle.Close]
    ensures f.attempts == old(f.attempts) + 1 && (old(f.answers) == [] ==> f.answers == [Answer.Failed(err)])
  {
    if HandsOff(call) {
      inner.Use(Lifecycle.Close);
    }
    f.Resolve(Answer.Failed(err));
  }

  // ----- The same, as the dispatcher's log tells it -----

  /** What one entry of the log did to the handle of its operation. */
  function Uses(call: Call, how: How): seq<Lifecycle.Op> {
    match how
    case Ran => [RunOp(call)]
    case Aborted => if HandsOff(call) then [Lifecycle.Close] else []
    case ReleasedHandle => [Lifecycle.Close]
    case NotAccepted => []
  }

  /** The calls that the log made on the handle of operation t. */
  function UsesOf(log: seq<Settled>, t: Token, call: Call): seq<Lifecycle.Op> {
    if log == [] then []
    else
      var e := log[|log| - 1];
      UsesOf(log[..|log| - 1], t, call) + if e.token == t then Uses(call, e.how) else []
  }

  function TimesOf(log: seq<Settled>, t: Token): nat {
    if log == [] then 0
    else TimesOf(log[..|log| - 1], t) + if log[|log| - 1].token == t then 1 else 0
  }

  /** Every settlement dispatches the body that the log names. */
  method CarryOut(call: Call, how: How, cause: Error, inner: Inner, f: Future,
                  reservation: Inner?, rejects: seq<Reject>, err: Failure)
    requires f.answers == [] && reservation != inner
    requires how.ReleasedHandle? ==> HandsOff(call)
    requires how.NotAccepted? ==> !HandsOff(call)
    modifies inner, f, reservation
    ensures inner.uses == old(inner.uses) + Uses(call, how)
    ensures f.attempts == old(f.attempts) + 1 && |f.answers| == 1
    ensures !how.Ran? ==> f.answers == [Answer.Failed(cause)]
    ensures how.Ran? && !call.RequestExecute? ==> f.answers == [Finished]
  {
    match how
    case Ran =>
      if call.RequestExecute? {
        RunExecute(inner, f, reservation, rejects, err);
      } else {
        RunTask(call, inner, f);
      }
    case _ => EndUnrun(call, inner, f, cause);
  }

  // ----- Which ending an operation can have -----

  /** On its way to have its handle released without having run. */
  predicate OwesRelease(pc: OpPc) {
    pc.Sched? || pc.SchedLane? || pc.SchedLaneBegun? || pc.SchedLimit? || pc.SchedLimitBegun?
    || pc.AfterStop? || pc.AfterStopLane? || pc.NoLane? || pc.OffLane? || pc.Tracked? || pc.Untracked?
    || pc.Backlogged? || pc.Postponed?
  }

  predicate OpFits(op: Op) {
    OwesRelease(op.pc) ==> op.handsOff
  }

  predicate EntryFits(b: Book, e: Settled) {
    && e.token in b.ops
    && (e.how.ReleasedHandle? ==> b.ops[e.token].handsOff)
    && (e.how.NotAccepted? ==> !b.ops[e.token].handsOff)
  }

  ghost predicate Fits(b: Book) {
    && (forall t {:trigger OpFits(b.ops[t])} :: t in b.ops ==> OpFits(b.ops[t]))
    && (forall k {:trigger EntryFits(b, b.log[k])} :: 0 <= k < |b.log| ==> EntryFits(b, b.log[k]))
  }

  lemma PcFits(b: Book, t: Token, pc: OpPc)
    requires Fits(b) && t in b.ops && (OwesRelease(pc) ==> b.ops[t].handsOff)
    ensures Fits(PutPc(b, t, pc))
  {
    var b' := PutPc(b, t, pc);
    forall u | u in b'.ops ensures OpFits(b'.ops[u]) {
      assert OpFits(b.ops[u]);
    }
    forall k | 0 <= k < |b'.log| ensures EntryFits(b', b'.log[k]) {
      assert EntryFits(b, b.log[k]);
    }
  }

  lemma DoneFits(b: Book, t: Token, how: How)
    requires Fits(b) && t in b.ops
    requires (how.ReleasedHandle? ==> b.ops[t].handsOff) && (how.NotAccepted? ==> !b.ops[t].handsOff)
    ensures Fits(PutDone(b, t, how))
  {
    PcFits(b, t, Done);
    var b' := PutDone(b, t, how);
    forall u | u in b'.ops ensures OpFits(b'.ops[u]) {
      assert OpFits(PutPc(b, t, Done).ops[u]);
    }
    forall k | 0 <= k < |b'.log| ensures EntryFits(b', b'.log[k]) {
      if k < |b.log| { assert EntryFits(PutPc(b, t, Done), b.log[k]); }
    }
  }

  lemma ProducerFits(s: State, t: Token, a: ProducerStep)
    requires Fits(s.book) && ProducerEnabled(s, t, a)
    ensures Fits(ProducerApply(s, t, a).book)
  {
    var b, b' := s.book, ProducerApply(s, t, a).book;
    if a.Issue? {
      forall u | u in b'.ops ensures OpFits(b'.ops[u]) {
        if u != t { assert OpFits(b.ops[u]); }
      }
      forall k | 0 <= k < |b'.log| ensures EntryFits(b', b'.log[k]) {
        assert EntryFits(b, b.log[k]);
      }
    } else {
      assert OpFits(b.ops[t]);
      if !a.EndSubmit? && !a.CheckFence? { PcFits(b, t, b'.ops[t].pc); }
    }
  }

  lemma SendFits(s: State, t: Token, a: SendStep)
    requires Fits(s.book) && SendEnabled(s, t, a)
    ensures Fits(SendApply(s, t, a).book)
  {
    PcFits(s.book, t, SendApply(s, t, a).book.ops[t].pc);
  }

  lemma HandoffFits(s: State, t: Token, a: HandoffStep)
    requires Fits(s.book) && HandoffEnabled(s, t, a)
    ensures Fits(HandoffApply(s, t, a).book)
  {
    assert OpFits(s.book.ops[t]);
    if a.FinishOffLane? || a.FinishLifecycle? {
      DoneFits(s.book, t, ReleasedHandle);
    } else if a.HandOff? && !s.book.ops[t].handsOff {
      DoneFits(s.book, t, NotAccepted);
    } else {
      PcFits(s.book, t, HandoffApply(s, t, a).book.ops[t].pc);
    }
  }

  lemma WorkerFits(s: State, l: LaneId, a: WorkerStep)
    requires OwnInv(s) && Fits(s.book) && WorkerEnabled(s, l, a)
    ensures Fits(WorkerApply(s, l, a).book)
  {
    var q := s.host.lanes[l];
    if a.FinishTask? {
      DoneFits(s.book, q.worker.token, if q.worker.aborted then Aborted else Ran);
    } else if a.FinishMandatory? {
      assert Own(q, l, q.worker.token, PcOf(s.book, q.worker.token));
      assert OpFits(s.book.ops[q.worker.token]);
      DoneFits(s.book, q.worker.token, ReleasedHandle);
    } else if a.DrainOne? {
      DoneFits(s.book, q.ch[0], Aborted);
    }
  }

  lemma SectionFits(s: State, i: SectionId, a: SectionStep)
    requires OwnInv(s) && Fits(s.book) && SectionEnabled(s, i, a)
    ensures Fits(SectionApply(s, i, a).book)
  {
    SectionBook(s, i, a);
    if a.RunRelease? {
      PostponedFits(s, i);
    }
  }

  lemma PostponedFits(s: State, i: SectionId)
    requires OwnInv(s) && Fits(s.book) && i in s.ex.sections && s.ex.sections[i].batch != []
    requires s.ex.sections[i].batch[0] in s.book.ops
    ensures Fits(PutDone(s.book, s.ex.sections[i].batch[0], ReleasedHandle))
  {
    var x := s.ex.sections[i];
    var t := x.batch[0];
    assert SectionOwns(x, i, t, PcOf(s.book, t));
    assert t in x.batch + x.deferred;
    assert OpFits(s.book.ops[t]);
    DoneFits(s.book, t, ReleasedHandle);
  }

  lemma StepFits(s: State, a: Step)
    requires Inv(s) && Fits(s.book) && Enabled(s, a)
    ensures Fits(Apply(s, a).book)
  {
    match a
    case OfProducer(t, o) => ProducerFits(s, t, o);
    case OfSend(t, o) => SendFits(s, t, o);
    case OfHandoff(t, o) => HandoffFits(s, t, o);
    case OfWorker(l, w) => WorkerFits(s, l, w);
    case OfLoop(r) => assert LoopApply(s, r).book == s.book;
    case OfSection(i, m) => SectionFits(s, i, m);
    case OfStop(k, c) => assert StopApply(s, k, c).book == s.book;
  }

  lemma {:induction false} RunFits(s: State, run: seq<Step>)
    requires Inv(s) && Fits(s.book) && Runs(s, run)
    ensures Fits(After(s, run).book)
    decreases |run|
  {
    if run != [] {
      StepInv(s, run[0]);
      StepFits(s, run[0]);
      RunFits(Apply(s, run[0]), run[1..]);
    }
  }

  // ----- Exactly once -----

  lemma {:induction false} LoggedTimes(log: seq<Settled>, t: Token)
    requires forall i, j :: 0 <= i < j < |log| ==> log[i].token != log[j].token
    ensures TimesOf(log, t) == if exists k :: 0 <= k < |log| && log[k].token == t then 1 else 0
    decreases |log|
  {
    if log != [] {
      LoggedTimes(log[..|log| - 1], t);
      var n := |log| - 1;
      if log[n].token != t && (exists k :: 0 <= k < |log| && log[k].token == t) {
        var k :| 0 <= k < |log| && log[k].token == t;
        assert log[..n][k].token == t;
      }
    }
  }

  lemma {:induction false} ClosingsOf(b: Book, n: nat, t: Token, call: Call)
    requires Fits(b) && n <= |b.log| && t in b.ops && b.ops[t].handsOff == HandsOff(call)
    ensures Closings(UsesOf(b.log[..n], t, call)) == if HandsOff(call) then TimesOf(b.log[..n], t) else 0
    decreases n
  {
    if n > 0 {
      ClosingsOf(b, n - 1, t, call);
      assert b.log[..n][..n - 1] == b.log[..n - 1];
      var e := b.log[n - 1];
      assert EntryFits(b, e);
      var before := UsesOf(b.log[..n - 1], t, call);
      if e.token == t && Uses(call, e.how) != [] {
        UsedOnce(before, Uses(call, e.how)[0]);
      }
      assert before + [] == before;
    }
  }

  /** Over any run, each call resolves its future exactly once it is over, and a closing call
      closes its handle exactly once: by running, by being aborted, or by its handed-off release.
      A call that does not close leaves the handle open. */
  lemma EndedExactlyOnce(s: State, run: seq<Step>, t: Token, call: Call)
    requires Init(s) && Runs(s, run) && t in After(s, run).book.ops
    requires After(s, run).book.ops[t].handsOff == HandsOff(call)
    ensures var b := After(s, run).book;
            var over := if b.ops[t].pc.Done? then 1 else 0;
            && TimesOf(b.log, t) == over
            && Closings(UsesOf(b.log, t, call)) == (if HandsOff(call) then over else 0)
  {
    InitInv(s);
    RunInv(s, run);
    assert Fits(s.book);
    RunFits(s, run);
    SettledOnce(s, run);
    var b := After(s, run).book;
    LoggedTimes(b.log, t);
    assert b.ops[t].pc.Done? <==> Logged(b.log, t);
    ClosingsOf(b, |b.log|, t, call);
    assert b.log[..|b.log|] == b.log;
  }

  // ----- Exactly which calls -----

  lemma {:induction false} UsesOfNone(log: seq<Settled>, t: Token, call: Call)
    requires forall k :: 0 <= k < |log| ==> log[k].token != t
    ensures UsesOf(log, t, call) == []
    decreases |log|
  {
    if log != [] {
      UsesOfNone(log[..|log| - 1], t, call);
    }
  }

  lemma {:induction false} UsesOfOne(log: seq<Settled>, t: Token, call: Call, k: nat)
    requires k < |log| && log[k].token == t
    requires forall i, j :: 0 <= i < j < |log| ==> log[i].token != log[j].token
    ensures UsesOf(log, t, call) == Uses(call, log[k].how)
    decreases |log|
  {
    var n := |log| - 1;
    if k == n {
      UsesOfNone(log[..n], t, call);
    } else {
      UsesOfOne(log[..n], t, call, k);
    }
  }

  lemma UsesOfEnded(b: Book, t: Token, call: Call, how: How)
    requires Fits(b) && Settled(t, how) in b.log
    requires t in b.ops && (b.ops[t].handsOff <==> call !in OPEN_ENDED)
    requires forall i, j :: 0 <= i < j < |b.log| ==> b.log[i].token != b.log[j].token
    ensures UsesOf(b.log, t, call) ==
              if how.Ran? && call.Finalize? then [call.op]
              else if call in OPEN_ENDED then []
              else [Lifecycle.Close]
  {
    var k :| 0 <= k < |b.log| && b.log[k] == Settled(t, how);
    assert EntryFits(b, b.log[k]);
    UsesOfOne(b.log, t, call, k);
  }

  /** In every run, a commit, rollback or close that ran made exactly that call on its handle; a request
      that ran was closed; and whatever did not run closed its handle, unless it is one of the calls that
      leave it open, which then did nothing at all. */
  lemma CallsAreTheOnesAskedFor(s: State, run: seq<Step>, t: Token, call: Call, how: How)
    requires Init(s) && Runs(s, run) && t in After(s, run).book.ops && Settled(t, how) in After(s, run).book.log
    requires After(s, run).book.ops[t].handsOff <==> call !in OPEN_ENDED
    ensures UsesOf(After(s, run).book.log, t, call) ==
              if how.Ran? && call.Finalize? then [call.op]
              else if call in OPEN_ENDED then []
              else [Lifecycle.Close]
  {
    InitInv(s);
    assert Fits(s.book);
    RunFits(s, run);
    SettledOnce(s, run);
    UsesOfEnded(After(s, run).book, t, call, how);
  }
}
