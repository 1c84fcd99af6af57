/** What becomes of operations, lanes and the engine, for every run. */
module Outcomes {
  import opened Lanes
  import opened Dispatcher
  import opened Wrappers
  import opened LaneMap
  import opened Sections
  import opened Coverage
  import opened Ownership
  import opened Releases
  import opened Postponed
  import opened Safety

  // ----- An owned operation leaves its owner only by being carried out -----

  predicate Owned(pc: OpPc) {
    pc.Queued? || pc.Backlogged? || pc.Postponed? || pc.Done?
  }

  /** Step `a` is the owner carrying out operation t. */
  predicate CarriesOut(s: State, a: Step, t: Token, pc: OpPc) {
    match pc
    case Queued(l) => a == OfWorker(l, FinishTask) && l in s.host.lanes && s.host.lanes[l].worker.Task?
                      && s.host.lanes[l].worker.token == t
    case Backlogged(l) => a == OfWorker(l, FinishMandatory) && l in s.host.lanes && s.host.lanes[l].worker.Mandatory?
                          && s.host.lanes[l].worker.token == t
    case Postponed(i) => a.OfSection? && a.section == i && a.move.RunRelease? && i in s.ex.sections
                         && s.ex.sections[i].batch != [] && s.ex.sections[i].batch[0] == t
    case _ => false
  }

  lemma WorkerFate(s: State, l: LaneId, a: WorkerStep, t: Token)
    requires OwnInv(s) && WorkerEnabled(s, l, a) && !a.DrainOne? && Owned(PcOf(s.book, t))
    ensures if CarriesOut(s, OfWorker(l, a), t, PcOf(s.book, t))
            then PcOf(WorkerApply(s, l, a).book, t).Done? else PcOf(WorkerApply(s, l, a).book, t) == PcOf(s.book, t)
    ensures s.book.log <= WorkerApply(s, l, a).book.log
  {
    if a.FinishTask? {
      FinishTaskOwn(s, l);
    } else if a.FinishMandatory? {
      FinishMandatoryOwn(s, l);
    }
  }

  lemma SectionFate(s: State, i: SectionId, a: SectionStep, t: Token)
    requires OwnInv(s) && SectionEnabled(s, i, a) && Owned(PcOf(s.book, t))
    ensures if CarriesOut(s, OfSection(i, a), t, PcOf(s.book, t))
            then PcOf(SectionApply(s, i, a).book, t).Done? else PcOf(SectionApply(s, i, a).book, t) == PcOf(s.book, t)
    ensures s.book.log <= SectionApply(s, i, a).book.log
  {
    SectionBook(s, i, a);
    if a.RunRelease? {
      BatchIsPostponed(s, i);
    }
  }

  lemma BatchIsPostponed(s: State, i: SectionId)
    requires OwnInv(s) && i in s.ex.sections && s.ex.sections[i].batch != []
    ensures PcOf(s.book, s.ex.sections[i].batch[0]) == Postponed(i)
  {
    var x := s.ex.sections[i];
    assert SectionOwns(x, i, x.batch[0], PcOf(s.book, x.batch[0]));
    assert x.batch[0] in x.batch + x.deferred;
  }

  lemma HandoffFate(s: State, u: Token, a: HandoffStep, t: Token)
    requires HandoffEnabled(s, u, a) && Owned(PcOf(s.book, t))
    ensures PcOf(HandoffApply(s, u, a).book, t) == PcOf(s.book, t)
    ensures s.book.log <= HandoffApply(s, u, a).book.log
  {
  }

  lemma ProducerFate(s: State, u: Token, a: ProducerStep, t: Token)
    requires ProducerEnabled(s, u, a) && Owned(PcOf(s.book, t))
    ensures PcOf(ProducerApply(s, u, a).book, t) == PcOf(s.book, t)
  {
  }

  lemma SendFate(s: State, u: Token, a: SendStep, t: Token)
    requires SendEnabled(s, u, a) && Owned(PcOf(s.book, t))
    ensures PcOf(SendApply(s, u, a).book, t) == PcOf(s.book, t)
  {
  }

  lemma StepOwner(s: State, a: Step, t: Token)
    requires Inv(s) && Enabled(s, a) && Owned(PcOf(s.book, t))
    ensures if CarriesOut(s, a, t, PcOf(s.book, t))
            then PcOf(Apply(s, a).book, t).Done? else PcOf(Apply(s, a).book, t) == PcOf(s.book, t)
    ensures s.book.log <= Apply(s, a).book.log
  {
    match a
    case OfWorker(l, w) =>
      assert LaneInv(s.host.lanes[l]);
      WorkerFate(s, l, w, t);
    case OfSection(i, m) => SectionFate(s, i, m, t);
    case OfLoop(r) => assert LoopApply(s, r).book == s.book;
    case OfStop(k, c) => assert StopApply(s, k, c).book == s.book;
    case OfProducer(u, o) => ProducerFate(s, u, o, t);
    case OfSend(u, o) => SendFate(s, u, o, t);
    case OfHandoff(u, o) => HandoffFate(s, u, o, t);
  }

  /** In every run, an accepted task, a queued or postponed release and a finished operation each
      stay where they are until their owner carries them out, and what is finished stays finished. */
  lemma OwnerCarriesOut(s: State, run: seq<Step>, a: Step, t: Token)
    requires Init(s) && Runs(s, run) && Enabled(After(s, run), a) && Owned(PcOf(After(s, run).book, t))
    ensures var e := After(s, run);
            && (if CarriesOut(e, a, t, PcOf(e.book, t))
                then PcOf(Apply(e, a).book, t).Done? else PcOf(Apply(e, a).book, t) == PcOf(e.book, t))
            && e.book.log <= Apply(e, a).book.log
  {
    InitInv(s);
    RunInv(s, run);
    StepOwner(After(s, run), a, t);
  }

  /** No operation is ever settled twice, in any run. */
  lemma SettledOnce(s: State, run: seq<Step>)
    requires Init(s) && Runs(s, run)
    ensures var b := After(s, run).book;
            && (forall i, j :: 0 <= i < j < |b.log| ==> b.log[i].token != b.log[j].token)
            && (forall t :: t in b.ops ==> (b.ops[t].pc.Done? <==> Logged(b.log, t)))
  {
    InitInv(s);
    RunInv(s, run);
    var b := After(s, run).book;
    forall t | t in b.ops ensures b.ops[t].pc.Done? <==> Logged(b.log, t) {
      assert Logged(b.log, t) <==> PcOf(b, t).Done?;
    }
  }

  // ----- Stop -----

  /** The engine is released at most once, and from then on no worker, no section and no counted
      release is left; everything a lane accepted, a lane owed or a section took has been
      settled. */
  ghost predicate CleanRelease(s: State) {
    && 0 <= s.st.releases <= 1
    && (s.st.releases == 1 ==>
          && s.sig.stopped && AllExited(s) && NoSections(s)
          && (forall t :: t in s.book.ops ==>
                var pc := s.book.ops[t].pc; !pc.Queued? && !pc.Backlogged? && !pc.Postponed? && !pc.Tracked?)
          && (forall t :: t in s.book.ops && Owned(s.book.ops[t].pc) ==> Logged(s.book.log, t)))
  }

  lemma ReleasedOwnsNothing(s: State, t: Token)
    requires Inv(s) && s.sig.sealed && t in s.book.ops
    ensures var pc := s.book.ops[t].pc; !pc.Queued? && !pc.Backlogged? && !pc.Postponed? && !pc.Tracked?
  {
    var pc := s.book.ops[t].pc;
    assert Known(s.host, s.ex, PcOf(s.book, t)) && OpFace(s.host, s.sig, t, s.book.ops[t]);
    forall l | l in s.host.lanes ensures pc != Queued(l) && pc != Backlogged(l) {
      assert LaneInv(s.host.lanes[l]) && Own(s.host.lanes[l], l, t, PcOf(s.book, t));
      assert s.host.lanes[l].worker.Exited?;
    }
    forall i | i in s.ex.sections ensures pc != Postponed(i) {
      assert SectionFace(s.ex, i) && SectionOwns(s.ex.sections[i], i, t, PcOf(s.book, t));
      assert !Counted(s.ex.sections[i].pc);
    }
  }

  lemma StopReleasesOnce(s: State, run: seq<Step>)
    requires Init(s) && Runs(s, run)
    ensures CleanRelease(After(s, run))
  {
    InitInv(s);
    RunInv(s, run);
    var s' := After(s, run);
    if s'.st.releases == 1 {
      forall t | t in s'.book.ops
        ensures var pc := s'.book.ops[t].pc; !pc.Queued? && !pc.Backlogged? && !pc.Postponed? && !pc.Tracked?
        ensures Owned(s'.book.ops[t].pc) ==> Logged(s'.book.log, t)
      {
        ReleasedOwnsNothing(s', t);
        assert Logged(s'.book.log, t) <==> PcOf(s'.book, t).Done?;
      }
    }
  }

  /** In every run, the stop snapshot holds every lane that is not retired. */
  lemma SnapshotIsComplete(s: State, run: seq<Step>, k: StopId, l: LaneId)
    requires Init(s) && Runs(s, run) && StopEnabled(After(s, run), k, MarkStopping) && l in After(s, run).host.lanes
    ensures var e := After(s, run);
            e.host.lanes[l].retired || l in StopApply(e, k, MarkStopping).st.stoppers[k].pc.todo
  {
    InitInv(s);
    RunInv(s, run);
    assert LaneFace(After(s, run).host, l);
  }

  /** After the mark no step makes a lane. */
  lemma StepAfterMark(s: State, a: Step)
    requires Enabled(s, a) && s.host.stopping
    ensures Apply(s, a).host.stopping && Apply(s, a).host.lanes.Keys == s.host.lanes.Keys
  {
    match a
    case OfProducer(t, o) => assert ProducerApply(s, t, o).host == s.host;
    case OfSend(t, o) =>
    case OfHandoff(t, o) =>
    case OfWorker(l, w) =>
    case OfLoop(r) =>
    case OfSection(i, m) =>
    case OfStop(k, c) =>
  }

  /** After the mark no lane appears, and the mark stays, in every continuation. */
  lemma {:induction false} NoLaneAfterMark(s: State, run: seq<Step>)
    requires Runs(s, run) && s.host.stopping
    ensures After(s, run).host.stopping && After(s, run).host.lanes.Keys == s.host.lanes.Keys
    decreases |run|
  {
    if run != [] {
      StepAfterMark(s, run[0]);
      NoLaneAfterMark(Apply(s, run[0]), run[1..]);
    }
  }

  /** The lane map, in every reachable state. */
  lemma LaneMapHolds(s: State, run: seq<Step>)
    requires Init(s) && Runs(s, run)
    ensures var h := After(s, run).host;
            && (forall l, m | l in h.lanes && m in h.lanes && l != m ::
                  !h.lanes[l].retired && !h.lanes[m].retired ==> h.lanes[l].key != h.lanes[m].key)
            && (h.maxQueues > 0 ==> |h.queues| <= h.maxQueues)
            && (forall k :: k in h.barriers ==> k !in h.queues)
            && (forall l :: l in h.lanes ==> (h.lanes[l].retired <==> l !in h.queues.Values))
  {
    InitInv(s);
    RunInv(s, run);
    var h := After(s, run).host;
    forall l | l in h.lanes
      ensures if h.lanes[l].retired then l !in h.queues.Values else h.lanes[l].key in h.queues && h.queues[h.lanes[l].key] == l
    {
      assert LaneFace(h, l);
      forall k | k in h.queues ensures h.queues[k] != l || !h.lanes[l].retired {
        assert KeyFace(h, k);
      }
    }
    forall k | k in h.barriers ensures k !in h.queues {
      assert k in h.queues ==> KeyFace(h, k);
    }
  }

  // ----- Sections -----

  /** In every run at most one section is installed, and none is overwritten: an installation
      finds none there, and only the installed section is withdrawn. */
  lemma OneSectionInstalled(s: State, run: seq<Step>, i: SectionId, a: SectionStep)
    requires Init(s) && Runs(s, run) && SectionEnabled(After(s, run), i, a)
    ensures var e := After(s, run).ex;
            && (a.Install? ==> e.active.None?)
            && (forall j :: j in e.sections && Installed(e.sections[j].pc) ==> e.active == Some(j))
            && (a.Withdraw? ==> e.active == Some(i))
  {
    InitInv(s);
    RunInv(s, run);
    InstalledIsActive(After(s, run).ex);
    if a.Install? || a.Withdraw? { TurnIsTaken(After(s, run), i, a); }
  }

  lemma InstalledIsActive(e: Exclusion)
    requires ExclusionInv(e)
    ensures forall j :: j in e.sections && Installed(e.sections[j].pc) ==> e.active == Some(j)
  {
    forall j | j in e.sections && Installed(e.sections[j].pc) ensures e.active == Some(j) {
      assert SectionFace(e, j);
    }
  }

  lemma TurnIsTaken(s: State, i: SectionId, a: SectionStep)
    requires ExclusionInv(s.ex) && SectionEnabled(s, i, a) && (a.Install? || a.Withdraw?)
    ensures s.ex.active == if a.Install? then None else Some(i)
  {
    assert SectionFace(s.ex, i);
    assert s.ex.active.Some? ==> SectionFace(s.ex, s.ex.active.value);
  }
}
