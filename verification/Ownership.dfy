/** Every operation is owned by exactly one place: its producer, one lane's channel, one lane's
    backlog, one section, or the log of finished operations. The containers agree with the
    operation's program counter, none of them holds an operation twice, and the log has each
    finished operation exactly once. */
module Ownership {
  import opened Lanes
  import opened Dispatcher
  import opened Wrappers
  import opened LaneMap

  function PcOf(b: Book, t: Token): OpPc {
    if t in b.ops then b.ops[t].pc else Fresh
  }

  /** The lane owes the release of t: it is in the backlog, or running from it. */
  ghost predicate Owes(q: Lane, t: Token) {
    (q.worker.Mandatory? && q.worker.token == t) || exists k :: 0 <= k < |q.backlog| && q.backlog[k].work == Release(t)
  }

  ghost predicate Own(q: Lane, l: LaneId, t: Token, pc: OpPc) {
    && (t in q.gate <==> pc == InGate(l) || pc == Cleared(l) || pc == Admitted(l))
    && (t in q.cleared <==> pc == Cleared(l))
    && (t in q.inflight <==> pc == Admitted(l))
    && (t in AcceptedWork(q) <==> pc == Queued(l))
    && (Owes(q, t) <==> pc == Backlogged(l))
  }

  predicate NoDup(s: seq<Token>) {
    forall i, j :: 0 <= i < j < |s| ==> s[i] != s[j]
  }

  ghost predicate UniqueLane(q: Lane) {
    && NoDup(AcceptedWork(q))
    && (forall i, j :: 0 <= i < j < |q.backlog| && q.backlog[i].work.Release? ==> q.backlog[i].work != q.backlog[j].work)
    && (forall k :: 0 <= k < |q.backlog| && q.worker.Mandatory? ==> q.backlog[k].work != Release(q.worker.token))
  }

  ghost predicate LaneOwn(h: Host, b: Book) {
    && (forall l, t {:trigger Own(h.lanes[l], l, t, PcOf(b, t))} :: l in h.lanes ==> Own(h.lanes[l], l, t, PcOf(b, t)))
    && (forall l {:trigger UniqueLane(h.lanes[l])} :: l in h.lanes ==> UniqueLane(h.lanes[l]))
  }

  ghost predicate SectionOwns(x: Section, i: SectionId, t: Token, pc: OpPc) {
    t in x.batch + x.deferred <==> pc == Postponed(i)
  }

  ghost predicate SectionOwn(e: Exclusion, b: Book) {
    && (forall i, t {:trigger SectionOwns(e.sections[i], i, t, PcOf(b, t))} ::
          i in e.sections ==> SectionOwns(e.sections[i], i, t, PcOf(b, t)))
    && (forall i :: i in e.sections ==> NoDup(e.sections[i].batch + e.sections[i].deferred))
  }

  ghost predicate Logged(log: seq<Settled>, t: Token) {
    exists k :: 0 <= k < |log| && log[k].token == t
  }

  ghost predicate LogOwn(b: Book) {
    && (forall t {:trigger Logged(b.log, t)} :: Logged(b.log, t) <==> PcOf(b, t).Done?)
    && (forall i, j :: 0 <= i < j < |b.log| ==> b.log[i].token != b.log[j].token)
  }

  /** The lane a program counter points at, if any. */
  function LaneOf(pc: OpPc): Option<int> {
    if pc.Found? || pc.InGate? || pc.Cleared? || pc.Admitted? || pc.Queued? || pc.SchedLane? || pc.SchedLaneBegun?
       || pc.AfterStopLane? || pc.Backlogged?
    then Some(pc.lane) else None
  }

  predicate Known(h: Host, e: Exclusion, pc: OpPc) {
    && (LaneOf(pc).Some? ==> LaneOf(pc).value in h.lanes)
    && (pc.Postponed? ==> pc.section in e.sections)
  }

  ghost predicate PlaceInv(s: State) {
    forall t {:trigger Known(s.host, s.ex, PcOf(s.book, t))} :: Known(s.host, s.ex, PcOf(s.book, t))
  }

  ghost predicate OwnInv(s: State) {
    LaneOwn(s.host, s.book) && SectionOwn(s.ex, s.book) && LogOwn(s.book) && PlaceInv(s)
  }

  lemma MovePlace(s: State, s': State, t: Token)
    requires PlaceInv(s) && s.host.lanes.Keys <= s'.host.lanes.Keys && s.ex.sections.Keys <= s'.ex.sections.Keys
    requires forall u :: u != t ==> PcOf(s'.book, u) == PcOf(s.book, u)
    requires Known(s'.host, s'.ex, PcOf(s'.book, t))
    ensures PlaceInv(s')
  {
    forall u ensures Known(s'.host, s'.ex, PcOf(s'.book, u)) {
      assert Known(s.host, s.ex, PcOf(s.book, u));
    }
  }

  lemma NewLaneOwns(l: LaneId, q: Lane, t: Token)
    requires q == NewLane(q.key, q.capacity)
    ensures Own(q, l, t, Fresh) && UniqueLane(q)
  {
  }

  lemma InitOwn(s: State)
    requires Init(s)
    ensures OwnInv(s)
  {
    forall l, t | l in s.host.lanes ensures Own(s.host.lanes[l], l, t, PcOf(s.book, t)) {
      NewLaneOwns(l, s.host.lanes[l], t);
    }
    forall l | l in s.host.lanes ensures UniqueLane(s.host.lanes[l]) {
      NewLaneOwns(l, s.host.lanes[l], 0);
    }
  }

  // ----- Moving one operation -----

  /** The program counter says nothing about lane l. */
  predicate Elsewhere(pc: OpPc, l: LaneId) {
    && pc != InGate(l) && pc != Cleared(l) && pc != Admitted(l) && pc != Queued(l) && pc != Backlogged(l)
  }

  /** Operation t moves while only lane l changes. */
  lemma MoveOnLane(h: Host, h': Host, b: Book, b': Book, l: LaneId, t: Token)
    requires LaneOwn(h, b) && l in h.lanes && l in h'.lanes && h'.lanes == h.lanes[l := h'.lanes[l]]
    requires forall u :: u != t ==> PcOf(b', u) == PcOf(b, u)
    requires forall m :: m in h.lanes && m != l ==> Elsewhere(PcOf(b, t), m) && Elsewhere(PcOf(b', t), m)
    requires forall u :: Own(h'.lanes[l], l, u, PcOf(b', u))
    requires UniqueLane(h'.lanes[l])
    ensures LaneOwn(h', b')
  {
    forall m, u | m in h'.lanes ensures Own(h'.lanes[m], m, u, PcOf(b', u)) {
      assert m == l || Own(h.lanes[m], m, u, PcOf(b, u));
    }
    forall m | m in h'.lanes ensures UniqueLane(h'.lanes[m]) {
      assert m == l || UniqueLane(h.lanes[m]);
    }
  }

  /** Operation t moves between places that are not lanes. */
  lemma MoveOffLanes(h: Host, b: Book, b': Book, t: Token)
    requires LaneOwn(h, b)
    requires forall u :: u != t ==> PcOf(b', u) == PcOf(b, u)
    requires forall m :: m in h.lanes ==> Elsewhere(PcOf(b, t), m) && Elsewhere(PcOf(b', t), m)
    ensures LaneOwn(h, b')
  {
    forall m, u | m in h.lanes ensures Own(h.lanes[m], m, u, PcOf(b', u)) {
      assert Own(h.lanes[m], m, u, PcOf(b, u));
    }
  }

  lemma NewLaneOwn(h: Host, b: Book, l: LaneId, q: Lane)
    requires LaneOwn(h, b) && l !in h.lanes
    requires forall t :: Elsewhere(PcOf(b, t), l)
    requires q.gate == {} && q.cleared == {} && q.inflight == map[] && q.ch == [] && q.worker.NotStarted?
    requires forall k :: 0 <= k < |q.backlog| ==> q.backlog[k].work.Barrier?
    ensures LaneOwn(PutLane(h, l, q), b)
  {
    var h' := PutLane(h, l, q);
    forall m, u | m in h'.lanes ensures Own(h'.lanes[m], m, u, PcOf(b, u)) {
      assert m == l || Own(h.lanes[m], m, u, PcOf(b, u));
    }
    forall m | m in h'.lanes ensures UniqueLane(h'.lanes[m]) {
      assert m == l || UniqueLane(h.lanes[m]);
    }
  }

  /** The sections do not see an operation that was not and is not postponed. */
  lemma MoveOffSections(e: Exclusion, b: Book, b': Book, t: Token)
    requires SectionOwn(e, b)
    requires forall u :: u != t ==> PcOf(b', u) == PcOf(b, u)
    requires !PcOf(b, t).Postponed? && !PcOf(b', t).Postponed?
    ensures SectionOwn(e, b')
  {
    forall i, u | i in e.sections ensures SectionOwns(e.sections[i], i, u, PcOf(b', u)) {
      assert SectionOwns(e.sections[i], i, u, PcOf(b, u));
    }
  }

  /** A section record changes without touching its releases. */
  lemma SameReleases(e: Exclusion, e': Exclusion, b: Book)
    requires SectionOwn(e, b)
    requires forall i :: i in e'.sections && i in e.sections ==>
               e'.sections[i].batch + e'.sections[i].deferred == e.sections[i].batch + e.sections[i].deferred
    requires forall i :: i in e'.sections && i !in e.sections ==> e'.sections[i].batch + e'.sections[i].deferred == []
    requires forall i, t :: i in e'.sections && i !in e.sections ==> PcOf(b, t) != Postponed(i)
    ensures SectionOwn(e', b)
  {
    forall i, t | i in e'.sections ensures SectionOwns(e'.sections[i], i, t, PcOf(b, t)) {
      assert i in e.sections ==> SectionOwns(e.sections[i], i, t, PcOf(b, t));
    }
  }

  lemma MoveNotDone(b: Book, b': Book, t: Token)
    requires LogOwn(b) && b'.log == b.log
    requires forall u :: u != t ==> PcOf(b', u) == PcOf(b, u)
    requires !PcOf(b, t).Done? && !PcOf(b', t).Done?
    ensures LogOwn(b')
  {
    forall u ensures Logged(b'.log, u) <==> PcOf(b', u).Done? {
      assert Logged(b.log, u) <==> PcOf(b, u).Done?;
    }
  }

  lemma FinishLog(b: Book, t: Token, how: How)
    requires LogOwn(b) && t in b.ops && !b.ops[t].pc.Done?
    ensures LogOwn(PutDone(b, t, how))
  {
    var b' := PutDone(b, t, how);
    assert !Logged(b.log, t);
    forall u ensures Logged(b'.log, u) <==> PcOf(b', u).Done? {
      assert Logged(b.log, u) <==> PcOf(b, u).Done?;
      assert b'.log[|b.log|].token == t;
      if Logged(b.log, u) {
        var k :| 0 <= k < |b.log| && b.log[k].token == u;
        assert b'.log[k].token == u;
      }
    }
  }

  // ----- Steps of an operation -----

  /** A producer's step on its lane leaves the works in the backlog alone. */
  lemma SameOwed(p: Lane, q: Lane)
    requires q.worker == p.worker && |q.backlog| == |p.backlog|
    requires forall k :: 0 <= k < |p.backlog| ==> q.backlog[k].work == p.backlog[k].work
    ensures forall t :: Owes(q, t) <==> Owes(p, t)
    ensures UniqueLane(p) && AcceptedWork(q) == AcceptedWork(p) ==> UniqueLane(q)
  {
    forall t ensures Owes(q, t) <==> Owes(p, t) {
      assert forall k :: 0 <= k < |p.backlog| ==> (q.backlog[k].work == Release(t) <==> p.backlog[k].work == Release(t));
    }
  }

  lemma SendWork(s: State, t: Token, a: SendStep)
    requires SendEnabled(s, t, a)
    ensures var l := s.book.ops[t].pc.lane;
            var p, q := s.host.lanes[l], SendApply(s, t, a).host.lanes[l];
            AcceptedWork(q) == AcceptedWork(p) + if a.Send? then [t] else []
    ensures var l := s.book.ops[t].pc.lane;
            var p, q := s.host.lanes[l], SendApply(s, t, a).host.lanes[l];
            forall u :: Owes(q, u) <==> Owes(p, u)
  {
    var l := s.book.ops[t].pc.lane;
    SameOwed(s.host.lanes[l], SendApply(s, t, a).host.lanes[l]);
  }

  lemma SendSelfOwn(s: State, t: Token, a: SendStep)
    requires LaneOwn(s.host, s.book) && SendEnabled(s, t, a)
    ensures var l := s.book.ops[t].pc.lane;
            Own(SendApply(s, t, a).host.lanes[l], l, t, PcOf(SendApply(s, t, a).book, t))
  {
    var l := s.book.ops[t].pc.lane;
    assert Own(s.host.lanes[l], l, t, PcOf(s.book, t));
    SendWork(s, t, a);
  }

  lemma SendOtherOwn(s: State, t: Token, a: SendStep, u: Token)
    requires LaneOwn(s.host, s.book) && SendEnabled(s, t, a) && u != t
    ensures var l := s.book.ops[t].pc.lane;
            Own(SendApply(s, t, a).host.lanes[l], l, u, PcOf(SendApply(s, t, a).book, u))
  {
    var l := s.book.ops[t].pc.lane;
    assert Own(s.host.lanes[l], l, u, PcOf(s.book, u));
    SendWork(s, t, a);
  }

  lemma SendUnique(s: State, t: Token, a: SendStep)
    requires LaneOwn(s.host, s.book) && SendEnabled(s, t, a)
    ensures UniqueLane(SendApply(s, t, a).host.lanes[s.book.ops[t].pc.lane])
  {
    var l := s.book.ops[t].pc.lane;
    var p := s.host.lanes[l];
    var q := SendApply(s, t, a).host.lanes[l];
    assert UniqueLane(p) && Own(p, l, t, PcOf(s.book, t));
    SameOwed(p, q);
    if a.Send? {
      assert AcceptedWork(q) == AcceptedWork(p) + [t];
    } else {
      assert AcceptedWork(q) == AcceptedWork(p);
    }
  }

  lemma SendLanesOwn(s: State, t: Token, a: SendStep)
    requires OwnInv(s) && SendEnabled(s, t, a)
    ensures LaneOwn(SendApply(s, t, a).host, SendApply(s, t, a).book)
  {
    var s' := SendApply(s, t, a);
    var l := s.book.ops[t].pc.lane;
    forall u ensures Own(s'.host.lanes[l], l, u, PcOf(s'.book, u)) {
      if u == t { SendSelfOwn(s, t, a); } else { SendOtherOwn(s, t, a, u); }
    }
    SendUnique(s, t, a);
    MoveOnLane(s.host, s'.host, s.book, s'.book, l, t);
  }

  lemma SendOwn(s: State, t: Token, a: SendStep)
    requires OwnInv(s) && SendEnabled(s, t, a)
    ensures OwnInv(SendApply(s, t, a))
  {
    var s' := SendApply(s, t, a);
    SendLanesOwn(s, t, a);
    MoveOffSections(s.ex, s.book, s'.book, t);
    MoveNotDone(s.book, s'.book, t);
    assert Known(s.host, s.ex, PcOf(s.book, t));
    MovePlace(s, s', t);
  }

  lemma CreateOwn(s: State, key: RoutingKey, newId: LaneId)
    requires OwnInv(s) && newId !in s.host.lanes && ActiveOk(s)
    ensures OwnInv(Create(s, key, newId))
  {
    var s' := Create(s, key, newId);
    forall t ensures Elsewhere(PcOf(s.book, t), newId) {
      assert Known(s.host, s.ex, PcOf(s.book, t));
    }
    NewLaneOwn(s.host, s.book, newId, CreatedLane(s, key));
    assert s'.host == PutLane(s.host, newId, CreatedLane(s, key)).(queues := s'.host.queues);
    SameReleases(s.ex, s'.ex, s.book);
    forall t ensures Known(s'.host, s'.ex, PcOf(s'.book, t)) {
      assert Known(s.host, s.ex, PcOf(s.book, t));
    }
  }

  /** The operation is with its own producer. */
  predicate Free(pc: OpPc) {
    !pc.InGate? && !pc.Cleared? && !pc.Admitted? && !pc.Queued? && !pc.Backlogged? && !pc.Postponed? && !pc.Done?
  }

  /** Operation t moves and the lanes, the sections and the log stay as they are. */
  lemma JustMoves(s: State, s': State, t: Token)
    requires OwnInv(s) && s'.host.lanes == s.host.lanes && s'.ex == s.ex && s'.book.log == s.book.log
    requires forall u :: u != t ==> PcOf(s'.book, u) == PcOf(s.book, u)
    requires Free(PcOf(s.book, t)) && Free(PcOf(s'.book, t))
    requires Known(s'.host, s'.ex, PcOf(s'.book, t))
    ensures OwnInv(s')
  {
    MoveOffLanes(s.host, s.book, s'.book, t);
    MoveOffSections(s.ex, s.book, s'.book, t);
    MoveNotDone(s.book, s'.book, t);
    MovePlace(s, s', t);
  }

  lemma ProducerOwn(s: State, t: Token, a: ProducerStep)
    requires OwnInv(s) && ProducerEnabled(s, t, a)
    requires a.Lookup? && Live(s, s.book.ops[t].key) ==> s.host.queues[s.book.ops[t].key] in s.host.lanes
    ensures OwnInv(ProducerApply(s, t, a))
  {
    var s' := ProducerApply(s, t, a);
    if a.EndSubmit? || a.CheckFence? {
      assert s'.host == s.host && s'.ex == s.ex && s'.book == s.book;
      assert PlaceInv(s');
    } else if a.Lookup? && !Live(s, s.book.ops[t].key) {
      CreateOwn(s, s.book.ops[t].key, a.newId);
      JustMoves(Create(s, s.book.ops[t].key, a.newId), s', t);
    } else {
      ProducerShape(s, t, a);
      JustMoves(s, s', t);
    }
  }

  lemma ProducerShape(s: State, t: Token, a: ProducerStep)
    requires ProducerEnabled(s, t, a) && !a.EndSubmit? && !a.CheckFence? && (a.Lookup? ==> Live(s, s.book.ops[t].key))
    ensures var s' := ProducerApply(s, t, a);
            && s'.host == s.host && s'.ex == s.ex && s'.book.log == s.book.log
            && (forall u :: u != t ==> PcOf(s'.book, u) == PcOf(s.book, u))
            && Free(PcOf(s.book, t)) && Free(PcOf(s'.book, t))
            && (LaneOf(PcOf(s'.book, t)).Some? ==> a.Lookup? && LaneOf(PcOf(s'.book, t)).value == s.host.queues[s.book.ops[t].key])
  {
  }

  lemma EnqueueOwn(s: State, t: Token, l: LaneId, fenced: bool)
    requires OwnInv(s) && t in s.book.ops && l in s.host.lanes && !Refuses(s.host.lanes[l])
    requires s.book.ops[t].pc == SchedLaneBegun(l) || s.book.ops[t].pc == AfterStopLane(l)
    ensures OwnInv(EnqueueFor(s, t, l, fenced, Sched))
  {
    var s' := EnqueueFor(s, t, l, fenced, Sched);
    var p := s.host.lanes[l];
    var q := s'.host.lanes[l];
    assert UniqueLane(p) && Own(p, l, t, PcOf(s.book, t));
    assert forall k :: 0 <= k < |p.backlog| ==> q.backlog[k] == p.backlog[k];
    assert q.backlog[|p.backlog|].work == Release(t);
    assert AcceptedWork(q) == AcceptedWork(p);
    forall u ensures Own(q, l, u, PcOf(s'.book, u)) {
      assert Own(p, l, u, PcOf(s.book, u));
      if Owes(p, u) {
        assert Owes(q, u);
      }
    }
    MoveOnLane(s.host, s'.host, s.book, s'.book, l, t);
    MoveOffSections(s.ex, s.book, s'.book, t);
    MoveNotDone(s.book, s'.book, t);
    MovePlace(s, s', t);
  }

  lemma PostponeOwn(s: State, t: Token, i: SectionId)
    requires OwnInv(s) && t in s.book.ops && i in s.ex.sections
    requires s.book.ops[t].pc.SchedLimitBegun? || s.book.ops[t].pc.NoLane?
    ensures OwnInv(PostponeTo(s, t, i))
  {
    var s' := PostponeTo(s, t, i);
    var x := s.ex.sections[i];
    var x' := s'.ex.sections[i];
    assert SectionOwns(x, i, t, PcOf(s.book, t));
    assert x'.batch + x'.deferred == (x.batch + x.deferred) + [t];
    MoveOffLanes(s.host, s.book, s'.book, t);
    forall j, u | j in s'.ex.sections ensures SectionOwns(s'.ex.sections[j], j, u, PcOf(s'.book, u)) {
      assert SectionOwns(s.ex.sections[j], j, u, PcOf(s.book, u));
    }
    MoveNotDone(s.book, s'.book, t);
    MovePlace(s, s', t);
  }

  /** Operation t, owned by no container, ends. */
  lemma EndsFree(s: State, s': State, t: Token, how: How)
    requires OwnInv(s) && t in s.book.ops && s'.book == PutDone(s.book, t, how)
    requires s'.host.lanes == s.host.lanes && s'.ex == s.ex
    requires Free(s.book.ops[t].pc)
    ensures OwnInv(s')
  {
    MoveOffLanes(s.host, s.book, s'.book, t);
    MoveOffSections(s.ex, s.book, s'.book, t);
    FinishLog(s.book, t, how);
    MovePlace(s, s', t);
  }

  lemma HandoffMoves(s: State, t: Token, a: HandoffStep)
    requires OwnInv(s) && HandoffEnabled(s, t, a) && Known(s.host, s.ex, PcOf(s.book, t))
    requires a.FindStopped? && s.book.ops[t].key in s.host.queues ==> s.host.queues[s.book.ops[t].key] in s.host.lanes
    requires var pc := PcOf(HandoffApply(s, t, a).book, t); !pc.Done? && !pc.Postponed? && !pc.Backlogged?
    ensures OwnInv(HandoffApply(s, t, a))
  {
    HandoffShape(s, t, a);
    JustMoves(s, HandoffApply(s, t, a), t);
  }

  lemma HandoffShape(s: State, t: Token, a: HandoffStep)
    requires HandoffEnabled(s, t, a)
    requires var pc := PcOf(HandoffApply(s, t, a).book, t); !pc.Done? && !pc.Postponed? && !pc.Backlogged?
    ensures var s' := HandoffApply(s, t, a);
            && s'.host.lanes == s.host.lanes && s'.ex == s.ex && s'.book.log == s.book.log
            && (forall u :: u != t ==> PcOf(s'.book, u) == PcOf(s.book, u))
            && Free(PcOf(s.book, t)) && Free(PcOf(s'.book, t))
  {
  }

  lemma HandoffOwn(s: State, t: Token, a: HandoffStep)
    requires OwnInv(s) && HandoffEnabled(s, t, a)
    requires a.FindStopped? && s.book.ops[t].key in s.host.queues ==> s.host.queues[s.book.ops[t].key] in s.host.lanes
    ensures OwnInv(HandoffApply(s, t, a))
  {
    var s' := HandoffApply(s, t, a);
    assert Known(s.host, s.ex, PcOf(s.book, t));
    if (a.EnqueueRelease? || a.EnqueueStopped?) && !Refuses(s.host.lanes[s.book.ops[t].pc.lane]) {
      EnqueueOwn(s, t, s.book.ops[t].pc.lane, a.EnqueueStopped?);
    } else if PcOf(s'.book, t).Postponed? {
      PostponeOwn(s, t, s.ex.active.value);
    } else if PcOf(s'.book, t).Done? {
      EndsFree(s, s', t, if a.HandOff? then NotAccepted else ReleasedHandle);
    } else {
      HandoffMoves(s, t, a);
    }
  }

  // ----- Steps of a worker -----

  /** The worker ends operation t, which its lane owned. */
  lemma EndsOnLane(s: State, s': State, l: LaneId, t: Token, how: How)
    requires OwnInv(s) && l in s.host.lanes && t in s.book.ops && s'.book == PutDone(s.book, t, how) && s'.ex == s.ex
    requires l in s'.host.lanes && s'.host.lanes == s.host.lanes[l := s'.host.lanes[l]]
    requires s.book.ops[t].pc == Queued(l) || s.book.ops[t].pc == Backlogged(l)
    requires forall u :: Own(s'.host.lanes[l], l, u, PcOf(s'.book, u))
    requires UniqueLane(s'.host.lanes[l])
    ensures OwnInv(s')
  {
    MoveOnLane(s.host, s'.host, s.book, s'.book, l, t);
    MoveOffSections(s.ex, s.book, s'.book, t);
    FinishLog(s.book, t, how);
    MovePlace(s, s', t);
  }

  lemma FinishTaskOwn(s: State, l: LaneId)
    requires OwnInv(s) && WorkerEnabled(s, l, FinishTask)
    ensures OwnInv(WorkerApply(s, l, FinishTask))
    ensures s.book.ops[s.host.lanes[l].worker.token].pc == Queued(l)
  {
    var s' := WorkerApply(s, l, FinishTask);
    var p := s.host.lanes[l];
    var q := s'.host.lanes[l];
    var t := p.worker.token;
    assert UniqueLane(p) && Own(p, l, t, PcOf(s.book, t));
    assert AcceptedWork(p)[0] == t && AcceptedWork(q) == AcceptedWork(p)[1..];
    forall u ensures Own(q, l, u, PcOf(s'.book, u)) {
      assert Own(p, l, u, PcOf(s.book, u));
      assert u in AcceptedWork(p) <==> u == t || u in AcceptedWork(q);
      assert Owes(q, u) <==> Owes(p, u);
    }
    EndsOnLane(s, s', l, t, if p.worker.aborted then Aborted else Ran);
  }

  lemma FinishMandatoryOwn(s: State, l: LaneId)
    requires OwnInv(s) && WorkerEnabled(s, l, FinishMandatory)
    ensures OwnInv(WorkerApply(s, l, FinishMandatory))
    ensures s.book.ops[s.host.lanes[l].worker.token].pc == Backlogged(l)
  {
    var s' := WorkerApply(s, l, FinishMandatory);
    var p := s.host.lanes[l];
    var q := s'.host.lanes[l];
    var t := p.worker.token;
    assert UniqueLane(p) && Own(p, l, t, PcOf(s.book, t));
    assert AcceptedWork(q) == AcceptedWork(p);
    forall u ensures Own(q, l, u, PcOf(s'.book, u)) {
      assert Own(p, l, u, PcOf(s.book, u));
      assert Owes(p, u) <==> u == t || Owes(q, u);
    }
    EndsOnLane(s, s', l, t, ReleasedHandle);
  }

  lemma TakeOwed(q: Lane, fence: bool, hard: bool)
    requires q.worker.Polling? && Ready(q, fence) && UniqueLane(q)
    ensures forall t :: Owes(Lanes.Take(q, fence, hard), t) <==> Owes(q, t)
    ensures UniqueLane(Lanes.Take(q, fence, hard))
  {
    var q' := Lanes.Take(q, fence, hard);
    assert forall k :: 0 <= k < |q'.backlog| ==> q'.backlog[k] == q.backlog[k + 1];
    forall t ensures Owes(q', t) <==> Owes(q, t) {
      if Owes(q, t) && q.backlog[0].work != Release(t) {
        var k :| 0 <= k < |q.backlog| && q.backlog[k].work == Release(t);
        assert q'.backlog[k - 1].work == Release(t);
      }
    }
  }

  /** A worker's other steps change hands of nothing. */
  lemma TakeStill(s: State, l: LaneId)
    requires OwnInv(s) && WorkerEnabled(s, l, Take)
    ensures OwnInv(WorkerApply(s, l, Take))
  {
    var s' := WorkerApply(s, l, Take);
    assert UniqueLane(s.host.lanes[l]);
    TakeOwed(s.host.lanes[l], s.sig.fence, s.sig.hard);
    StillOwn(s, s', l);
    SameReleases(s.ex, s'.ex, s.book);
  }

  lemma WorkerWorks(s: State, l: LaneId, a: WorkerStep)
    requires WorkerEnabled(s, l, a) && !a.FinishTask? && !a.FinishMandatory? && !a.DrainOne? && !a.Take?
    ensures var p := s.host.lanes[l];
            var q := WorkerApply(s, l, a).host.lanes[l];
            && AcceptedWork(q) == AcceptedWork(p) && |q.backlog| == |p.backlog|
            && (forall k :: 0 <= k < |p.backlog| ==> q.backlog[k].work == p.backlog[k].work)
            && !p.worker.Mandatory? && !q.worker.Mandatory?
            && q.gate == p.gate && q.cleared == p.cleared && q.inflight == p.inflight
    ensures WorkerApply(s, l, a).book == s.book && WorkerApply(s, l, a).ex == s.ex
  {
    if a.Receive? {
      assert AcceptedWork(WorkerApply(s, l, a).host.lanes[l]) == AcceptedWork(s.host.lanes[l]);
    }
  }

  lemma SameWorks(p: Lane, q: Lane)
    requires UniqueLane(p) && AcceptedWork(q) == AcceptedWork(p) && |q.backlog| == |p.backlog|
    requires forall k :: 0 <= k < |p.backlog| ==> q.backlog[k].work == p.backlog[k].work
    requires !p.worker.Mandatory? && !q.worker.Mandatory?
    ensures UniqueLane(q)
    ensures forall t :: Owes(q, t) <==> Owes(p, t)
  {
    forall t ensures Owes(q, t) <==> Owes(p, t) {
      assert forall k :: 0 <= k < |p.backlog| ==> (q.backlog[k].work == Release(t) <==> p.backlog[k].work == Release(t));
    }
  }

  lemma StillOwn(s: State, s': State, l: LaneId)
    requires OwnInv(s) && l in s.host.lanes && l in s'.host.lanes && s'.host.lanes == s.host.lanes[l := s'.host.lanes[l]]
    requires s'.book == s.book && s.ex.sections.Keys <= s'.ex.sections.Keys
    requires var p := s.host.lanes[l];
             var q := s'.host.lanes[l];
             && AcceptedWork(q) == AcceptedWork(p) && q.gate == p.gate && q.cleared == p.cleared && q.inflight == p.inflight
             && (forall t :: Owes(q, t) <==> Owes(p, t)) && UniqueLane(q)
    ensures LaneOwn(s'.host, s'.book) && LogOwn(s'.book) && PlaceInv(s')
  {
    forall m, u | m in s'.host.lanes ensures Own(s'.host.lanes[m], m, u, PcOf(s'.book, u)) {
      assert Own(s.host.lanes[m], m, u, PcOf(s.book, u));
    }
    forall m | m in s'.host.lanes ensures UniqueLane(s'.host.lanes[m]) {
      assert m == l || UniqueLane(s.host.lanes[m]);
    }
    forall u ensures Known(s'.host, s'.ex, PcOf(s'.book, u)) {
      assert Known(s.host, s.ex, PcOf(s.book, u));
    }
  }

  lemma WorkerOwn(s: State, l: LaneId, a: WorkerStep)
    requires OwnInv(s) && WorkerEnabled(s, l, a) && !a.DrainOne?
    ensures OwnInv(WorkerApply(s, l, a))
  {
    if a.FinishTask? {
      FinishTaskOwn(s, l);
    } else if a.FinishMandatory? {
      FinishMandatoryOwn(s, l);
    } else if a.Take? {
      TakeStill(s, l);
    } else {
      WorkerWorks(s, l, a);
      assert UniqueLane(s.host.lanes[l]);
      SameWorks(s.host.lanes[l], WorkerApply(s, l, a).host.lanes[l]);
      StillOwn(s, WorkerApply(s, l, a), l);
    }
  }

  lemma LoopOwn(s: State, a: LoopStep)
    requires OwnInv(s) && LoopEnabled(s, a)
    ensures OwnInv(LoopApply(s, a))
  {
    var s' := LoopApply(s, a);
    if a.LoopExit? {
      assert s'.host == s.host;
      assert PlaceInv(s');
    } else {
      var l := if a.RetireCheck? then a.lane else s.host.retiring.value;
      assert UniqueLane(s.host.lanes[l]);
      SameOwed(s.host.lanes[l], s'.host.lanes[l]);
      assert AcceptedWork(s'.host.lanes[l]) == AcceptedWork(s.host.lanes[l]);
      StillOwn(s, s', l);
    }
  }

  lemma StopOwn(s: State, k: StopId, a: StopStep)
    requires OwnInv(s) && StopEnabled(s, k, a)
    ensures OwnInv(StopApply(s, k, a))
  {
    var s' := StopApply(s, k, a);
    if a.CloseLane? {
      assert UniqueLane(s.host.lanes[a.lane]);
      SameOwed(s.host.lanes[a.lane], s'.host.lanes[a.lane]);
      assert AcceptedWork(s'.host.lanes[a.lane]) == AcceptedWork(s.host.lanes[a.lane]);
      StillOwn(s, s', a.lane);
    } else {
      assert s'.host.lanes == s.host.lanes;
      assert LaneOwn(s'.host, s'.book);
      forall t ensures Known(s'.host, s'.ex, PcOf(s'.book, t)) {
        assert Known(s.host, s.ex, PcOf(s.book, t));
      }
    }
  }

  // ----- Steps of a section -----

  lemma BarrierOwn(s: State, i: SectionId, a: SectionStep)
    requires OwnInv(s) && SectionEnabled(s, i, a) && (a.EnqueueBarrier? || a.CountParked?)
    ensures OwnInv(SectionApply(s, i, a))
  {
    var s' := SectionApply(s, i, a);
    var p := s.host.lanes[a.lane];
    var q := s'.host.lanes[a.lane];
    assert UniqueLane(p);
    assert AcceptedWork(q) == AcceptedWork(p);
    assert forall k :: 0 <= k < |p.backlog| ==> q.backlog[k] == p.backlog[k];
    forall t ensures Owes(q, t) <==> Owes(p, t) {
      if Owes(p, t) {
        assert Owes(q, t);
      }
    }
    StillOwn(s, s', a.lane);
    SameReleases(s.ex, s'.ex, s.book);
  }

  lemma PopRelease(e: Exclusion, e': Exclusion, b: Book, b': Book, i: SectionId, t: Token)
    requires SectionOwn(e, b) && i in e.sections && i in e'.sections && e'.sections == e.sections[i := e'.sections[i]]
    requires var r := e.sections[i].batch + e.sections[i].deferred;
             r != [] && r[0] == t && e'.sections[i].batch + e'.sections[i].deferred == r[1..]
    requires forall u :: u != t ==> PcOf(b', u) == PcOf(b, u)
    requires PcOf(b, t) == Postponed(i) && PcOf(b', t).Done?
    ensures SectionOwn(e', b')
  {
    var r := e.sections[i].batch + e.sections[i].deferred;
    assert NoDup(r);
    forall j, u | j in e'.sections ensures SectionOwns(e'.sections[j], j, u, PcOf(b', u)) {
      assert SectionOwns(e.sections[j], j, u, PcOf(b, u));
      if j == i {
        assert u in r <==> u == t || u in r[1..];
      }
    }
    forall j | j in e'.sections ensures NoDup(e'.sections[j].batch + e'.sections[j].deferred) {
      assert j != i ==> NoDup(e.sections[j].batch + e.sections[j].deferred);
    }
  }

  /** The drain loop runs the first release of its batch. */
  lemma RunReleaseOwn(s: State, i: SectionId, panics: bool)
    requires OwnInv(s) && SectionEnabled(s, i, RunRelease(panics))
    ensures OwnInv(SectionApply(s, i, RunRelease(panics)))
    ensures s.book.ops[s.ex.sections[i].batch[0]].pc == Postponed(i)
  {
    var s' := SectionApply(s, i, RunRelease(panics));
    var x := s.ex.sections[i];
    var x' := s'.ex.sections[i];
    var t := x.batch[0];
    assert SectionOwns(x, i, t, PcOf(s.book, t));
    assert (x.batch + x.deferred)[0] == t;
    assert x'.batch + x'.deferred == (x.batch + x.deferred)[1..];
    MoveOffLanes(s.host, s.book, s'.book, t);
    PopRelease(s.ex, s'.ex, s.book, s'.book, i, t);
    FinishLog(s.book, t, ReleasedHandle);
    MovePlace(s, s', t);
  }

  /** Only the drain loop settles operations. */
  lemma SectionBook(s: State, i: SectionId, a: SectionStep)
    requires SectionEnabled(s, i, a)
    ensures !a.RunRelease? ==> SectionApply(s, i, a).book == s.book
    ensures a.RunRelease? ==> SectionApply(s, i, a).book == PutDone(s.book, s.ex.sections[i].batch[0], ReleasedHandle)
  {
  }

  lemma QuietSectionOwn(s: State, i: SectionId, a: SectionStep)
    requires OwnInv(s) && SectionEnabled(s, i, a) && !a.EnqueueBarrier? && !a.CountParked? && !a.RunRelease?
    ensures OwnInv(SectionApply(s, i, a))
  {
    var s' := SectionApply(s, i, a);
    assert s'.host == s.host && s'.book == s.book;
    if a.Arrive? {
      forall t ensures PcOf(s.book, t) != Postponed(i) {
        assert Known(s.host, s.ex, PcOf(s.book, t));
      }
    }
    assert forall j :: j in s.ex.sections ==> j in s'.ex.sections;
    forall j | j in s.ex.sections
      ensures s'.ex.sections[j].batch + s'.ex.sections[j].deferred == s.ex.sections[j].batch + s.ex.sections[j].deferred
    {
    }
    SameReleases(s.ex, s'.ex, s.book);
    forall t ensures Known(s'.host, s'.ex, PcOf(s'.book, t)) {
      assert Known(s.host, s.ex, PcOf(s.book, t));
    }
  }

  lemma SectionOwnStep(s: State, i: SectionId, a: SectionStep)
    requires OwnInv(s) && SectionEnabled(s, i, a)
    ensures OwnInv(SectionApply(s, i, a))
  {
    if a.EnqueueBarrier? || a.CountParked? {
      BarrierOwn(s, i, a);
    } else if a.RunRelease? {
      RunReleaseOwn(s, i, a.panics);
    } else {
      QuietSectionOwn(s, i, a);
    }
  }

  // ----- Every step -----

  lemma StepOwn(s: State, a: Step)
    requires BaseInv(s) && OwnInv(s) && Enabled(s, a)
    ensures OwnInv(Apply(s, a))
  {
    match a
    case OfProducer(t, o) =>
      assert o.Lookup? && Live(s, s.book.ops[t].key) ==> KeyFace(s.host, s.book.ops[t].key);
      ProducerOwn(s, t, o);
    case OfSend(t, o) => SendOwn(s, t, o);
    case OfHandoff(t, o) =>
      assert s.book.ops[t].key in s.host.queues ==> KeyFace(s.host, s.book.ops[t].key);
      HandoffOwn(s, t, o);
    case OfWorker(l, w) =>
      assert LaneInv(s.host.lanes[l]);
      WorkerOwn(s, l, w);
    case OfLoop(r) => LoopOwn(s, r);
    case OfSection(i, m) => SectionOwnStep(s, i, m);
    case OfStop(k, c) => StopOwn(s, k, c);
  }
}
