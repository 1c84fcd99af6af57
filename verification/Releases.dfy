/** What every step keeps of the handle releases that run outside the lanes: a release behind a
    key barrier, a release counted against stop, a release after the count was sealed, and a
    release postponed into a section. */
module Releases {
  import opened Lanes
  import opened Dispatcher
  import opened Wrappers
  import opened LaneMap
  import opened Sections
  import opened Coverage
  import opened Ownership

  // ----- One operation -----

  predicate StopPhase(pc: OpPc) {
    pc.AfterStop? || pc.AfterStopLane? || pc.NoLane? || pc.Tracked? || pc.Untracked?
  }

  /** The producer that owns the operation is registered. */
  predicate MustFly(pc: OpPc) {
    pc.Looking? || pc.Found? || pc.InGate? || pc.Cleared? || pc.Admitted?
    || pc.SchedLaneBegun? || pc.SchedLimitBegun? || pc.OffLane?
  }

  /** It is registered unless beginSubmit refused it. */
  predicate MayFly(pc: OpPc) {
    pc.Failed? || pc.Sched? || pc.SchedLane? || pc.SchedLimit?
  }

  predicate OpFace(h: Host, g: Signals, t: Token, op: Op) {
    && (op.pc.OffLane? ==> op.key in h.barriers && h.barriers[op.key] == t)
    && (op.pc.Tracked? <==> t in g.tracked)
    && (op.pc.Untracked? ==> g.sealed)
    && (StopPhase(op.pc) ==> g.stopped)
    && (MustFly(op.pc) ==> t in g.inFlight)
    && (MayFly(op.pc) ==> t in g.inFlight || g.stopped)
  }

  predicate BarrierFace(h: Host, b: Book, k: RoutingKey)
    requires k in h.barriers
  {
    h.barriers[k] in b.ops && b.ops[h.barriers[k]].pc.OffLane? && b.ops[h.barriers[k]].key == k
  }

  ghost predicate OpsInv(s: State) {
    && (forall t {:trigger OpFace(s.host, s.sig, t, s.book.ops[t])} ::
          t in s.book.ops ==> OpFace(s.host, s.sig, t, s.book.ops[t]))
    && (forall k {:trigger BarrierFace(s.host, s.book, k)} :: k in s.host.barriers ==> BarrierFace(s.host, s.book, k))
    && s.sig.tracked <= s.book.ops.Keys && s.sig.inFlight <= s.book.ops.Keys
  }

  lemma InitOps(s: State)
    requires Init(s)
    ensures OpsInv(s)
  {
  }

  /** Only operation t moved, and what the others can see of the host and the signals is there. */
  lemma OneOp(s: State, s': State, t: Token)
    requires OpsInv(s) && t in s.book.ops && t in s'.book.ops
    requires s'.book.ops == s.book.ops[t := s'.book.ops[t]] && s'.book.ops[t].key == s.book.ops[t].key
    requires s'.host.barriers == s.host.barriers
    requires s.sig.tracked - {t} == s'.sig.tracked - {t} && s.sig.inFlight - {t} == s'.sig.inFlight - {t}
    requires s'.sig.stopped == s.sig.stopped && s'.sig.sealed == s.sig.sealed
    requires OpFace(s'.host, s'.sig, t, s'.book.ops[t])
    requires s'.book.ops[t].pc.OffLane? == s.book.ops[t].pc.OffLane?
    ensures OpsInv(s')
  {
    forall u | u in s'.book.ops ensures OpFace(s'.host, s'.sig, u, s'.book.ops[u]) {
      assert OpFace(s.host, s.sig, u, s.book.ops[u]);
      if u != t {
        assert u in s.sig.tracked <==> u in s.sig.tracked - {t};
        assert u in s'.sig.tracked <==> u in s'.sig.tracked - {t};
        assert u in s.sig.inFlight <==> u in s.sig.inFlight - {t};
        assert u in s'.sig.inFlight <==> u in s'.sig.inFlight - {t};
      }
    }
    forall k | k in s'.host.barriers ensures BarrierFace(s'.host, s'.book, k) {
      assert BarrierFace(s.host, s.book, k);
    }
    forall u | u in s'.sig.tracked ensures u in s'.book.ops {
      assert u == t || u in s.sig.tracked - {t};
    }
    forall u | u in s'.sig.inFlight ensures u in s'.book.ops {
      assert u == t || u in s.sig.inFlight - {t};
    }
  }

  lemma ProducerOps(s: State, t: Token, a: ProducerStep)
    requires OpsInv(s) && ProducerEnabled(s, t, a)
    ensures OpsInv(ProducerApply(s, t, a))
  {
    var s' := ProducerApply(s, t, a);
    if a.Issue? {
      forall u | u in s'.book.ops ensures OpFace(s'.host, s'.sig, u, s'.book.ops[u]) {
        assert u == t || OpFace(s.host, s.sig, u, s.book.ops[u]);
      }
      forall k | k in s'.host.barriers ensures BarrierFace(s'.host, s'.book, k) {
        assert BarrierFace(s.host, s.book, k);
      }
    } else {
      assert OpFace(s.host, s.sig, t, s.book.ops[t]);
      OneOp(s, s', t);
    }
  }

  lemma SendOps(s: State, t: Token, a: SendStep)
    requires OpsInv(s) && SendEnabled(s, t, a)
    ensures OpsInv(SendApply(s, t, a))
  {
    assert OpFace(s.host, s.sig, t, s.book.ops[t]);
    OneOp(s, SendApply(s, t, a), t);
  }

  lemma HandoffOps(s: State, t: Token, a: HandoffStep)
    requires SignalInv(s) && OpsInv(s) && HandoffEnabled(s, t, a)
    ensures OpsInv(HandoffApply(s, t, a))
  {
    var s' := HandoffApply(s, t, a);
    assert OpFace(s.host, s.sig, t, s.book.ops[t]);
    if s'.host.barriers != s.host.barriers {
      BarrierOps(s, t, a);
    } else {
      OneOp(s, s', t);
    }
  }

  lemma BarrierOps(s: State, t: Token, a: HandoffStep)
    requires OpsInv(s) && HandoffEnabled(s, t, a) && HandoffApply(s, t, a).host.barriers != s.host.barriers
    ensures OpsInv(HandoffApply(s, t, a))
  {
    var s' := HandoffApply(s, t, a);
    var key := s.book.ops[t].key;
    assert a.CleanupWithoutLane? || a.FinishOffLane?;
    assert s'.sig == s.sig;
    assert OpFace(s.host, s.sig, t, s.book.ops[t]);
    forall u | u in s'.book.ops ensures OpFace(s'.host, s'.sig, u, s'.book.ops[u]) {
      assert OpFace(s.host, s.sig, u, s.book.ops[u]);
    }
    forall k | k in s'.host.barriers ensures BarrierFace(s'.host, s'.book, k) {
      assert k in s.host.barriers ==> BarrierFace(s.host, s.book, k);
    }
  }

  /** The worker or a section ends operation t, which it owns. */
  lemma FinishOps(s: State, s': State, t: Token, how: How)
    requires OpsInv(s) && t in s.book.ops && s'.book == PutDone(s.book, t, how)
    requires s'.sig == s.sig && s'.host.barriers == s.host.barriers
    requires !s.book.ops[t].pc.OffLane? && !s.book.ops[t].pc.Tracked?
    ensures OpsInv(s')
  {
    assert OpFace(s.host, s.sig, t, s.book.ops[t]);
    OneOp(s, s', t);
  }

  /** Steps that move no operation. */
  lemma NoOps(s: State, s': State)
    requires OpsInv(s) && s'.book.ops == s.book.ops
    requires s'.host.barriers == s.host.barriers && s'.sig.tracked == s.sig.tracked && s'.sig.inFlight == s.sig.inFlight
    requires (s.sig.stopped ==> s'.sig.stopped) && (s.sig.sealed ==> s'.sig.sealed)
    ensures OpsInv(s')
  {
    forall u | u in s'.book.ops ensures OpFace(s'.host, s'.sig, u, s'.book.ops[u]) {
      assert OpFace(s.host, s.sig, u, s.book.ops[u]);
    }
    forall k | k in s'.host.barriers ensures BarrierFace(s'.host, s'.book, k) {
      assert BarrierFace(s.host, s.book, k);
    }
  }

  lemma WorkerOps(s: State, l: LaneId, a: WorkerStep)
    requires OwnInv(s) && OpsInv(s) && WorkerEnabled(s, l, a) && !a.DrainOne?
    ensures OpsInv(WorkerApply(s, l, a))
  {
    var s' := WorkerApply(s, l, a);
    var q := s.host.lanes[l];
    if a.FinishTask? {
      FinishTaskOwn(s, l);
      FinishOps(s, s', q.worker.token, if q.worker.aborted then Aborted else Ran);
    } else if a.FinishMandatory? {
      FinishMandatoryOwn(s, l);
      FinishOps(s, s', q.worker.token, ReleasedHandle);
    } else {
      NoOps(s, s');
    }
  }

  lemma SectionOps(s: State, i: SectionId, a: SectionStep)
    requires OwnInv(s) && OpsInv(s) && SectionEnabled(s, i, a)
    ensures OpsInv(SectionApply(s, i, a))
  {
    var s' := SectionApply(s, i, a);
    if a.RunRelease? {
      RunReleaseOwn(s, i, a.panics);
      FinishOps(s, s', s.ex.sections[i].batch[0], ReleasedHandle);
    } else {
      NoOps(s, s');
    }
  }

  lemma StepOps(s: State, a: Step)
    requires BaseInv(s) && OwnInv(s) && OpsInv(s) && Enabled(s, a)
    ensures OpsInv(Apply(s, a))
  {
    match a
    case OfProducer(t, o) => ProducerOps(s, t, o);
    case OfSend(t, o) => SendOps(s, t, o);
    case OfHandoff(t, o) => HandoffOps(s, t, o);
    case OfWorker(l, w) =>
      assert LaneInv(s.host.lanes[l]);
      WorkerOps(s, l, w);
    case OfLoop(r) => NoOps(s, LoopApply(s, r));
    case OfSection(i, m) => SectionOps(s, i, m);
    case OfStop(k, c) => NoOps(s, StopApply(s, k, c));
  }

  // ----- What an installed section knows about the releases outside the lanes -----

  /** Past its first wait, an installed section has no release running beside it; until then it
      still waits for each of them. */
  ghost predicate WaitInv(s: State) {
    s.ex.active.Some? && s.ex.active.value in s.ex.sections ==>
      var x := s.ex.sections[s.ex.active.value];
      && (x.pc.WaitOffLane? ==>
            && s.host.barriers.Values <= x.waits
            && (s.sig.tracked != {} ==> x.waitEpoch == Some(s.sig.epoch)))
      && (!x.pc.WaitOffLane? && (!x.pc.Draining? || x.fnStarted) ==>
            s.host.barriers == map[] && s.sig.tracked == {})
  }

  lemma NoMoreBarriers(m: map<RoutingKey, Token>, k: RoutingKey)
    ensures (m - {k}).Values <= m.Values
  {
    forall v | v in (m - {k}).Values ensures v in m.Values {
      var x :| x in m - {k} && (m - {k})[x] == v;
      assert x in m && m[x] == v;
    }
  }

  lemma HandoffWait(s: State, t: Token, a: HandoffStep)
    requires ExclusionInv(s.ex) && WaitInv(s) && HandoffEnabled(s, t, a)
    ensures WaitInv(HandoffApply(s, t, a))
  {
    if s.ex.active.Some? {
      assert SectionFace(s.ex, s.ex.active.value);
      NoMoreBarriers(s.host.barriers, s.book.ops[t].key);
    }
  }

  lemma SectionWait(s: State, i: SectionId, a: SectionStep)
    requires ExclusionInv(s.ex) && WaitInv(s) && SectionEnabled(s, i, a)
    ensures WaitInv(SectionApply(s, i, a))
  {
    var s' := SectionApply(s, i, a);
    assert i in s.ex.sections ==> SectionFace(s.ex, i);
    if s.ex.active.Some? {
      assert SectionFace(s.ex, s.ex.active.value);
    }
  }

  lemma StepWait(s: State, a: Step)
    requires ExclusionInv(s.ex) && WaitInv(s) && Enabled(s, a)
    ensures WaitInv(Apply(s, a))
  {
    match a
    case OfProducer(t, o) => ProducerWait(s, t, o);
    case OfSend(t, o) =>
    case OfHandoff(t, o) => HandoffWait(s, t, o);
    case OfWorker(l, w) =>
    case OfLoop(r) => LoopWait(s, r);
    case OfSection(i, m) => SectionWait(s, i, m);
    case OfStop(k, c) => StopWait(s, k, c);
  }

  lemma ProducerWait(s: State, t: Token, a: ProducerStep)
    requires WaitInv(s) && ProducerEnabled(s, t, a)
    ensures WaitInv(ProducerApply(s, t, a))
  {
  }

  lemma LoopWait(s: State, a: LoopStep)
    requires WaitInv(s) && LoopEnabled(s, a)
    ensures WaitInv(LoopApply(s, a))
  {
  }

  lemma StopWait(s: State, k: StopId, a: StopStep)
    requires WaitInv(s) && StopEnabled(s, k, a)
    ensures WaitInv(StopApply(s, k, a))
  {
  }
}
