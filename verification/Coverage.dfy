/** The counting argument of Exclusive: while a section is installed, every lane that can still
    run work has the section's barrier, `expected` is the number of lanes that have it, `parked`
    the number of lanes parked at it, and a lane created in the meantime cannot get past its
    barrier. */
module Coverage {
  import opened Sets
  import opened Lanes
  import opened Dispatcher
  import opened Wrappers
  import opened LaneMap
  import opened Sections

  ghost predicate QueuedBarrier(backlog: seq<Entry>, i: SectionId) {
    exists k :: 0 <= k < |backlog| && backlog[k].work == Barrier(i)
  }

  ghost predicate HasBarrier(q: Lane, i: SectionId) {
    (AtBarrier(q) && q.worker.section == i) || QueuedBarrier(q.backlog, i)
  }

  /** The worker is at the barrier of section i, or the barrier is the very next thing it takes. */
  predicate Blocked(q: Lane, i: SectionId) {
    || (AtBarrier(q) && q.worker.section == i)
    || ((q.worker.NotStarted? || q.worker.Polling?) && q.backlog != [] && q.backlog[0].work == Barrier(i)
        && !q.backlog[0].fenced && q.backlog[0].target <= q.settled)
  }

  /** As far as section i can tell, nothing happened to the lane, except that it may have come
      closer to its barrier. */
  ghost predicate SameBarriers(p: Lane, q: Lane, i: SectionId) {
    && (HasBarrier(q, i) <==> HasBarrier(p, i))
    && (q.worker == Parked(i) <==> p.worker == Parked(i))
    && (Blocked(p, i) ==> Blocked(q, i))
    && q.retired == p.retired
  }

  ghost function BarrierLanes(h: Host, i: SectionId): set<LaneId> {
    set l | l in h.lanes && HasBarrier(h.lanes[l], i)
  }

  ghost function ParkedLanes(h: Host, i: SectionId): set<LaneId> {
    set l | l in h.lanes && h.lanes[l].worker == Parked(i)
  }

  ghost predicate CoverLane(q: Lane, l: LaneId, x: Section, stopped: bool, i: SectionId) {
    && (l in x.todo ==> !HasBarrier(q, i))
    && (!q.retired ==> HasBarrier(q, i) || l in x.todo || stopped)
    && (!q.retired && (x.fnStarted || (x.pc.Checking? && !stopped)) ==> Blocked(q, i))
  }

  ghost predicate Cover(h: Host, x: Section, stopped: bool, i: SectionId) {
    && x.todo <= h.lanes.Keys
    && (forall l {:trigger CoverLane(h.lanes[l], l, x, stopped, i)} ::
          l in h.lanes ==> CoverLane(h.lanes[l], l, x, stopped, i))
    && x.expected + (if x.pc.BarringAdd? then 1 else 0) == |BarrierLanes(h, i)|
    && x.parked == |ParkedLanes(h, i)|
  }

  /** The section has been installed, and its barriers hold or have been let go. */
  predicate Barred(e: Exclusion, j: SectionId) {
    j in e.sections && (Installed(e.sections[j].pc) || e.sections[j].pc.Withdrawn? || j in e.freed)
  }

  /** Barriers come from sections that have been installed. */
  ghost predicate KnownLane(q: Lane, e: Exclusion) {
    forall j :: HasBarrier(q, j) ==> Barred(e, j)
  }

  ghost predicate CoverInv(s: State) {
    && (forall l {:trigger KnownLane(s.host.lanes[l], s.ex)} :: l in s.host.lanes ==> KnownLane(s.host.lanes[l], s.ex))
    && (s.ex.active.Some? && s.ex.active.value in s.ex.sections ==>
          Cover(s.host, s.ex.sections[s.ex.active.value], s.sig.stopped, s.ex.active.value))
  }

  lemma InitCover(s: State)
    requires Init(s)
    ensures CoverInv(s)
  {
    forall l | l in s.host.lanes ensures KnownLane(s.host.lanes[l], s.ex) {
      assert s.host.lanes[l] == NewLane(s.host.lanes[l].key, s.host.capacity);
    }
  }

  // ----- One lane -----

  /** Producers only touch counters and targets. */
  lemma ProducerKeepsBarriers(p: Lane, q: Lane, i: SectionId)
    requires q.worker == p.worker && q.retired == p.retired && |q.backlog| == |p.backlog|
    requires forall k :: 0 <= k < |p.backlog| ==>
               && q.backlog[k].work == p.backlog[k].work && q.backlog[k].fenced == p.backlog[k].fenced
               && q.backlog[k].target - q.settled <= p.backlog[k].target - p.settled
    ensures SameBarriers(p, q, i)
  {
    assert forall k :: 0 <= k < |p.backlog| ==> q.backlog[k].work == p.backlog[k].work;
  }

  lemma EnqueueKeepsBarriers(q: Lane, work: Work, fenced: bool, i: SectionId)
    requires !Refuses(q) && work != Barrier(i)
    ensures SameBarriers(q, Lanes.Enqueue(q, work, fenced), i)
  {
    var q' := Lanes.Enqueue(q, work, fenced);
    assert forall k :: 0 <= k < |q.backlog| ==> q'.backlog[k] == q.backlog[k];
  }

  lemma EnqueueAddsBarrier(q: Lane, i: SectionId)
    requires !Refuses(q)
    ensures HasBarrier(Lanes.Enqueue(q, Barrier(i), false), i)
    ensures forall j :: j != i ==> SameBarriers(q, Lanes.Enqueue(q, Barrier(i), false), j)
    ensures Lanes.Enqueue(q, Barrier(i), false).worker == q.worker
  {
    var q' := Lanes.Enqueue(q, Barrier(i), false);
    assert q'.backlog[|q.backlog|].work == Barrier(i);
    forall j | j != i ensures SameBarriers(q, q', j) {
      EnqueueKeepsBarriers(q, Barrier(i), false, j);
    }
  }

  lemma TakeKeepsBarriers(q: Lane, fence: bool, hard: bool, i: SectionId)
    requires q.worker.Polling? && Ready(q, fence)
    ensures SameBarriers(q, Lanes.Take(q, fence, hard), i)
  {
    var q' := Lanes.Take(q, fence, hard);
    assert forall k :: 0 <= k < |q'.backlog| ==> q'.backlog[k] == q.backlog[k + 1];
    if HasBarrier(q, i) && q.backlog[0].work != Barrier(i) {
      var k :| 0 <= k < |q.backlog| && q.backlog[k].work == Barrier(i);
      assert q'.backlog[k - 1].work == Barrier(i);
    }
  }

  lemma PollMissKeepsBarriers(q: Lane, fence: bool, i: SectionId)
    requires q.worker.Polling? && !Ready(q, fence)
    ensures SameBarriers(q, Lanes.PollMiss(q, fence), i)
  {
    var q' := Lanes.PollMiss(q, fence);
    assert forall k :: 0 <= k < |q.backlog| ==> q'.backlog[k].work == q.backlog[k].work;
  }

  lemma WorkerKeepsBarriers(s: State, l: LaneId, a: WorkerStep, i: SectionId)
    requires WorkerEnabled(s, l, a) && i !in s.ex.freed
    ensures SameBarriers(s.host.lanes[l], WorkerApply(s, l, a).host.lanes[l], i)
  {
    var p := s.host.lanes[l];
    match a
    case Take => TakeKeepsBarriers(p, s.sig.fence, s.sig.hard, i);
    case PollMiss => PollMissKeepsBarriers(p, s.sig.fence, i);
    case _ => assert WorkerApply(s, l, a).host.lanes[l].backlog == p.backlog;
  }

  lemma SendKeepsBarriers(s: State, t: Token, a: SendStep, i: SectionId)
    requires SendEnabled(s, t, a)
    ensures SameBarriers(s.host.lanes[s.book.ops[t].pc.lane], SendApply(s, t, a).host.lanes[s.book.ops[t].pc.lane], i)
  {
    var l := s.book.ops[t].pc.lane;
    ProducerKeepsBarriers(s.host.lanes[l], SendApply(s, t, a).host.lanes[l], i);
  }

  // ----- The counts -----

  lemma SameSets(h: Host, h': Host, i: SectionId)
    requires h'.lanes.Keys == h.lanes.Keys
    requires forall l :: l in h.lanes ==> (HasBarrier(h'.lanes[l], i) <==> HasBarrier(h.lanes[l], i))
    requires forall l :: l in h.lanes ==> (h'.lanes[l].worker == Parked(i) <==> h.lanes[l].worker == Parked(i))
    ensures BarrierLanes(h', i) == BarrierLanes(h, i) && ParkedLanes(h', i) == ParkedLanes(h, i)
  {
    forall l ensures l in BarrierLanes(h', i) <==> l in BarrierLanes(h, i) {
      assert l in h'.lanes <==> l in h.lanes;
    }
    forall l ensures l in ParkedLanes(h', i) <==> l in ParkedLanes(h, i) {
      assert l in h'.lanes <==> l in h.lanes;
    }
  }

  /** One lane changed, and section i cannot tell; the section's record may have changed in ways
      that ask no more of the lanes. */
  lemma ReplaceCover(h: Host, h': Host, l: LaneId, x: Section, x': Section, stopped: bool, stopped': bool, i: SectionId)
    requires Cover(h, x, stopped, i) && l in h.lanes && l in h'.lanes
    requires h'.lanes == h.lanes[l := h'.lanes[l]] && SameBarriers(h.lanes[l], h'.lanes[l], i)
    requires x'.todo == x.todo && x'.expected == x.expected && x'.parked == x.parked && x'.pc == x.pc
    requires x'.fnStarted == x.fnStarted && (stopped ==> stopped')
    ensures Cover(h', x', stopped', i)
  {
    SameSets(h, h', i);
    forall m | m in h'.lanes ensures CoverLane(h'.lanes[m], m, x', stopped', i) {
      assert CoverLane(h.lanes[m], m, x, stopped, i);
    }
  }

  /** Nothing happened to the lanes. */
  lemma KeepCover(h: Host, h': Host, x: Section, x': Section, stopped: bool, stopped': bool, i: SectionId)
    requires Cover(h, x, stopped, i) && h'.lanes == h.lanes
    requires x'.todo == x.todo && x'.expected == x.expected && x'.parked == x.parked
    requires x'.fnStarted == x.fnStarted && x'.pc.Checking? == x.pc.Checking? && x'.pc.BarringAdd? == x.pc.BarringAdd?
    requires stopped ==> stopped'
    ensures Cover(h', x', stopped', i)
  {
    SameSets(h, h', i);
    forall m | m in h'.lanes ensures CoverLane(h'.lanes[m], m, x', stopped', i) {
      assert CoverLane(h.lanes[m], m, x, stopped, i);
    }
  }

  lemma ParkedHas(q: Lane, i: SectionId)
    ensures q.worker == Parked(i) ==> HasBarrier(q, i)
  {
  }

  lemma ParkedHaveBarriers(h: Host, i: SectionId)
    ensures ParkedLanes(h, i) <= BarrierLanes(h, i)
  {
    forall l | l in ParkedLanes(h, i) ensures l in BarrierLanes(h, i) {
      assert HasBarrier(h.lanes[l], i);
    }
  }

  /** When the wait loop sees parked reach expected, every lane that took a barrier is parked. */
  lemma CountingIsSound(h: Host, x: Section, stopped: bool, i: SectionId)
    requires Cover(h, x, stopped, i) && !x.pc.BarringAdd? && x.parked >= x.expected
    ensures forall l :: l in h.lanes && HasBarrier(h.lanes[l], i) ==> h.lanes[l].worker == Parked(i)
  {
    ParkedHaveBarriers(h, i);
    SubsetSize(ParkedLanes(h, i), BarrierLanes(h, i));
    forall l | l in h.lanes && HasBarrier(h.lanes[l], i) ensures h.lanes[l].worker == Parked(i) {
      assert l in BarrierLanes(h, i);
      assert l in ParkedLanes(h, i);
    }
  }

  /** A lane with a new barrier joins the count; a lane that parks joins the other count. */
  lemma BarrierJoins(h: Host, h': Host, l: LaneId, i: SectionId)
    requires l in h'.lanes && h'.lanes == h.lanes[l := h'.lanes[l]]
    requires l in h.lanes ==> !HasBarrier(h.lanes[l], i)
    requires HasBarrier(h'.lanes[l], i) && h'.lanes[l].worker != Parked(i)
    ensures |BarrierLanes(h', i)| == |BarrierLanes(h, i)| + 1
    ensures ParkedLanes(h', i) == ParkedLanes(h, i)
  {
    forall m ensures m in BarrierLanes(h', i) <==> m in BarrierLanes(h, i) + {l} {}
    assert BarrierLanes(h', i) == BarrierLanes(h, i) + {l};
    forall m ensures m in ParkedLanes(h', i) <==> m in ParkedLanes(h, i) {
      if m in h.lanes {
        ParkedHas(h.lanes[m], i);
      }
    }
  }

  lemma ParkJoins(h: Host, h': Host, l: LaneId, i: SectionId)
    requires l in h.lanes && h.lanes[l].worker == Offering(i) && h'.lanes == h.lanes[l := Park(h.lanes[l])]
    ensures BarrierLanes(h', i) == BarrierLanes(h, i)
    ensures |ParkedLanes(h', i)| == |ParkedLanes(h, i)| + 1
  {
    forall m ensures m in BarrierLanes(h', i) <==> m in BarrierLanes(h, i) {
      assert HasBarrier(h.lanes[l], i) && HasBarrier(h'.lanes[l], i);
    }
    forall m ensures m in ParkedLanes(h', i) <==> m in ParkedLanes(h, i) + {l} {}
    assert ParkedLanes(h', i) == ParkedLanes(h, i) + {l};
  }

  // ----- Steps -----

  /** The installed section is not freed, so its barriers hold. */
  lemma ActiveHolds(s: State)
    requires ExclusionInv(s.ex) && s.ex.active.Some?
    ensures s.ex.active.value in s.ex.sections && s.ex.active.value !in s.ex.freed
    ensures Installed(s.ex.sections[s.ex.active.value].pc) && RecordInv(s.ex.sections[s.ex.active.value])
  {
    assert SectionFace(s.ex, s.ex.active.value);
  }

  lemma SameKnown(s: State, s': State)
    requires CoverInv(s) && s'.host.lanes == s.host.lanes
    requires forall j :: Barred(s.ex, j) ==> Barred(s'.ex, j)
    ensures forall l :: l in s'.host.lanes ==> KnownLane(s'.host.lanes[l], s'.ex)
  {
    forall l | l in s'.host.lanes ensures KnownLane(s'.host.lanes[l], s'.ex) {
      assert KnownLane(s.host.lanes[l], s.ex);
    }
  }

  lemma LaneKnown(s: State, s': State, l: LaneId)
    requires CoverInv(s) && l in s.host.lanes && l in s'.host.lanes
    requires s'.host.lanes == s.host.lanes[l := s'.host.lanes[l]]
    requires forall j :: HasBarrier(s'.host.lanes[l], j) ==> HasBarrier(s.host.lanes[l], j)
    requires forall j :: Barred(s.ex, j) ==> Barred(s'.ex, j)
    ensures forall m :: m in s'.host.lanes ==> KnownLane(s'.host.lanes[m], s'.ex)
  {
    forall m | m in s'.host.lanes ensures KnownLane(s'.host.lanes[m], s'.ex) {
      assert KnownLane(s.host.lanes[m], s.ex);
    }
  }

  lemma SendCover(s: State, t: Token, a: SendStep)
    requires ExclusionInv(s.ex) && CoverInv(s) && SendEnabled(s, t, a)
    ensures CoverInv(SendApply(s, t, a))
  {
    var s' := SendApply(s, t, a);
    var l := s.book.ops[t].pc.lane;
    forall j ensures SameBarriers(s.host.lanes[l], s'.host.lanes[l], j) {
      SendKeepsBarriers(s, t, a, j);
    }
    LaneKnown(s, s', l);
    if s.ex.active.Some? {
      var i := s.ex.active.value;
      ActiveHolds(s);
      ReplaceCover(s.host, s'.host, l, s.ex.sections[i], s'.ex.sections[i], s.sig.stopped, s'.sig.stopped, i);
    }
  }

  lemma WorkerAddsNone(s: State, l: LaneId, a: WorkerStep, j: SectionId)
    requires WorkerEnabled(s, l, a) && HasBarrier(WorkerApply(s, l, a).host.lanes[l], j)
    ensures HasBarrier(s.host.lanes[l], j)
  {
    var p := s.host.lanes[l];
    if a.Take? {
      TakeKeepsBarriers(p, s.sig.fence, s.sig.hard, j);
    } else if a.PollMiss? {
      PollMissKeepsBarriers(p, s.sig.fence, j);
    } else {
      assert WorkerApply(s, l, a).host.lanes[l].backlog == p.backlog;
    }
  }

  lemma WorkerCover(s: State, l: LaneId, a: WorkerStep)
    requires ExclusionInv(s.ex) && CoverInv(s) && WorkerEnabled(s, l, a)
    ensures CoverInv(WorkerApply(s, l, a))
  {
    var s' := WorkerApply(s, l, a);
    forall j | HasBarrier(s'.host.lanes[l], j) ensures HasBarrier(s.host.lanes[l], j) {
      WorkerAddsNone(s, l, a, j);
    }
    LaneKnown(s, s', l);
    if s.ex.active.Some? {
      var i := s.ex.active.value;
      ActiveHolds(s);
      WorkerKeepsBarriers(s, l, a, i);
      ReplaceCover(s.host, s'.host, l, s.ex.sections[i], s'.ex.sections[i], s.sig.stopped, s'.sig.stopped, i);
    }
  }

  lemma HandoffCover(s: State, t: Token, a: HandoffStep)
    requires ExclusionInv(s.ex) && CoverInv(s) && HandoffEnabled(s, t, a)
    ensures CoverInv(HandoffApply(s, t, a))
  {
    var s' := HandoffApply(s, t, a);
    if a.EnqueueRelease? || a.EnqueueStopped? {
      var l := s.book.ops[t].pc.lane;
      forall j ensures SameBarriers(s.host.lanes[l], s'.host.lanes[l], j) {
        if !Refuses(s.host.lanes[l]) {
          EnqueueKeepsBarriers(s.host.lanes[l], Release(t), a.EnqueueStopped?, j);
        }
      }
      LaneKnown(s, s', l);
      if s.ex.active.Some? {
        var i := s.ex.active.value;
        ActiveHolds(s);
        ReplaceCover(s.host, s'.host, l, s.ex.sections[i], s'.ex.sections[i], s.sig.stopped, s'.sig.stopped, i);
      }
    } else {
      SameKnown(s, s');
      if s.ex.active.Some? {
        var i := s.ex.active.value;
        ActiveHolds(s);
        KeepCover(s.host, s'.host, s.ex.sections[i], s'.ex.sections[i], s.sig.stopped, s'.sig.stopped, i);
      }
    }
  }

  /** A lane created during a section starts blocked at the section's barrier. */
  lemma CreatedIsBlocked(s: State, key: RoutingKey)
    ensures s.ex.active.Some? ==> Blocked(CreatedLane(s, key), s.ex.active.value)
                                  && HasBarrier(CreatedLane(s, key), s.ex.active.value)
    ensures forall j :: HasBarrier(CreatedLane(s, key), j) ==> s.ex.active == Some(j)
    ensures CreatedLane(s, key).worker.NotStarted?
  {
    if s.ex.active.Some? {
      assert CreatedLane(s, key).backlog[0].work == Barrier(s.ex.active.value);
    }
  }

  lemma CreateCover(s: State, key: RoutingKey, newId: LaneId)
    requires ExclusionInv(s.ex) && CoverInv(s) && newId !in s.host.lanes
    ensures CoverInv(Create(s, key, newId))
  {
    var s' := Create(s, key, newId);
    CreatedIsBlocked(s, key);
    forall l | l in s'.host.lanes ensures KnownLane(s'.host.lanes[l], s'.ex) {
      if s.ex.active.Some? {
        ActiveHolds(s);
      }
      assert l == newId || KnownLane(s.host.lanes[l], s.ex);
    }
    if s.ex.active.Some? {
      var i := s.ex.active.value;
      ActiveHolds(s);
      BarrierJoins(s.host, s'.host, newId, i);
      forall l | l in s'.host.lanes
        ensures CoverLane(s'.host.lanes[l], l, s'.ex.sections[i], s'.sig.stopped, i)
      {
        assert l == newId || CoverLane(s.host.lanes[l], l, s.ex.sections[i], s.sig.stopped, i);
      }
    }
  }

  lemma ProducerCover(s: State, t: Token, a: ProducerStep)
    requires ExclusionInv(s.ex) && CoverInv(s) && ProducerEnabled(s, t, a)
    ensures CoverInv(ProducerApply(s, t, a))
  {
    var s' := ProducerApply(s, t, a);
    if a.Lookup? && !Live(s, s.book.ops[t].key) {
      CreateCover(s, s.book.ops[t].key, a.newId);
      var s1 := Create(s, s.book.ops[t].key, a.newId);
      assert s'.host == s1.host && s'.ex == s1.ex && s'.sig == s1.sig;
    } else {
      assert s'.host == s.host && s'.ex == s.ex && s'.sig.stopped == s.sig.stopped;
    }
  }

  lemma LoopCover(s: State, a: LoopStep)
    requires ExclusionInv(s.ex) && SignalInv(s) && CoverInv(s) && LoopEnabled(s, a)
    ensures CoverInv(LoopApply(s, a))
  {
    var s' := LoopApply(s, a);
    if a.LoopExit? {
      assert s'.host == s.host;
    } else {
      var l := if a.RetireCheck? then a.lane else s.host.retiring.value;
      LaneKnown(s, s', l);
    }
  }

  lemma StopCover(s: State, k: StopId, a: StopStep)
    requires ExclusionInv(s.ex) && CoverInv(s) && StopEnabled(s, k, a)
    ensures CoverInv(StopApply(s, k, a))
  {
    var s' := StopApply(s, k, a);
    if a.CloseLane? {
      LaneKnown(s, s', a.lane);
      if s.ex.active.Some? {
        var i := s.ex.active.value;
        ActiveHolds(s);
        ReplaceCover(s.host, s'.host, a.lane, s.ex.sections[i], s'.ex.sections[i], s.sig.stopped, s'.sig.stopped, i);
      }
    } else {
      SameKnown(s, s');
      if s.ex.active.Some? {
        var i := s.ex.active.value;
        ActiveHolds(s);
        KeepCover(s.host, s'.host, s.ex.sections[i], s'.ex.sections[i], s.sig.stopped, s'.sig.stopped, i);
      }
    }
  }

  // ----- Steps of the sections -----

  /** The installation snapshot leaves out only lanes that a stop has closed. */
  lemma InstallCover(s: State, i: SectionId, snapshot: set<LaneId>)
    requires BaseInv(s) && ExclusionInv(s.ex) && CoverInv(s) && SectionEnabled(s, i, Install(snapshot))
    ensures CoverInv(SectionApply(s, i, Install(snapshot)))
  {
    var s' := SectionApply(s, i, Install(snapshot));
    SameKnown(s, s');
    assert SectionFace(s.ex, i);
    forall l | l in s.host.lanes
      ensures !HasBarrier(s.host.lanes[l], i) && s.host.lanes[l].worker != Parked(i)
    {
      assert KnownLane(s.host.lanes[l], s.ex);
      ParkedHas(s.host.lanes[l], i);
    }
    assert BarrierLanes(s'.host, i) == {} && ParkedLanes(s'.host, i) == {};
    forall k | k in s.host.queues ensures s.host.queues[k] in s.host.lanes {
      assert KeyFace(s.host, k);
    }
    forall l | l in s'.host.lanes
      ensures CoverLane(s'.host.lanes[l], l, s'.ex.sections[i], s'.sig.stopped, i)
    {
      assert LaneFace(s.host, l);
      assert !s.host.lanes[l].closed ==> l in OpenLanes(s);
    }
  }

  lemma EnqueueBarrierCover(s: State, i: SectionId, l: LaneId)
    requires BaseInv(s) && ExclusionInv(s.ex) && CoverInv(s) && SectionEnabled(s, i, EnqueueBarrier(l))
    ensures CoverInv(SectionApply(s, i, EnqueueBarrier(l)))
  {
    var s' := SectionApply(s, i, EnqueueBarrier(l));
    assert SectionFace(s.ex, i);
    var q := s.host.lanes[l];
    assert CoverLane(q, l, s.ex.sections[i], s.sig.stopped, i);
    if Refuses(q) {
      SameKnown(s, s');
      SameSets(s.host, s'.host, i);
      assert LaneInv(q) && LaneFace(s.host, l);
      assert q.retired || s.sig.stopped;
    } else {
      EnqueueAddsBarrier(q, i);
      BarrierJoins(s.host, s'.host, l, i);
      EnqueueBarrierKnown(s, i, l);
    }
    forall m | m in s'.host.lanes
      ensures CoverLane(s'.host.lanes[m], m, s'.ex.sections[i], s'.sig.stopped, i)
    {
      assert CoverLane(s.host.lanes[m], m, s.ex.sections[i], s.sig.stopped, i);
    }
  }

  lemma EnqueueBarrierKnown(s: State, i: SectionId, l: LaneId)
    requires CoverInv(s) && SectionEnabled(s, i, EnqueueBarrier(l)) && !Refuses(s.host.lanes[l])
    ensures var s' := SectionApply(s, i, EnqueueBarrier(l));
            forall m :: m in s'.host.lanes ==> KnownLane(s'.host.lanes[m], s'.ex)
  {
    var s' := SectionApply(s, i, EnqueueBarrier(l));
    EnqueueAddsBarrier(s.host.lanes[l], i);
    assert Barred(s'.ex, i);
    forall j | j != i && Barred(s.ex, j) ensures Barred(s'.ex, j) {
      assert s'.ex.sections[j] == s.ex.sections[j];
    }
    forall m | m in s'.host.lanes ensures KnownLane(s'.host.lanes[m], s'.ex) {
      assert KnownLane(s.host.lanes[m], s.ex);
      forall j | HasBarrier(s'.host.lanes[m], j) ensures Barred(s'.ex, j) {
        assert j == i || HasBarrier(s.host.lanes[m], j);
      }
    }
  }

  lemma CountParkedCover(s: State, i: SectionId, l: LaneId)
    requires ExclusionInv(s.ex) && CoverInv(s) && SectionEnabled(s, i, CountParked(l))
    ensures CoverInv(SectionApply(s, i, CountParked(l)))
  {
    var s' := SectionApply(s, i, CountParked(l));
    assert SectionFace(s.ex, i);
    LaneKnown(s, s', l);
    ParkJoins(s.host, s'.host, l, i);
    forall m | m in s'.host.lanes
      ensures CoverLane(s'.host.lanes[m], m, s'.ex.sections[i], s'.sig.stopped, i)
    {
      assert CoverLane(s.host.lanes[m], m, s.ex.sections[i], s.sig.stopped, i);
    }
  }

  lemma CountDoneCover(s: State, i: SectionId, a: SectionStep)
    requires ExclusionInv(s.ex) && CoverInv(s) && SectionEnabled(s, i, a) && (a.CountDone? || a.StartFn? || a.AddExpected?)
    ensures CoverInv(SectionApply(s, i, a))
  {
    var s' := SectionApply(s, i, a);
    assert SectionFace(s.ex, i);
    SameKnown(s, s');
    SameSets(s.host, s'.host, i);
    if a.CountDone? {
      CountingIsSound(s.host, s.ex.sections[i], s.sig.stopped, i);
    }
    forall m | m in s'.host.lanes
      ensures CoverLane(s'.host.lanes[m], m, s'.ex.sections[i], s'.sig.stopped, i)
    {
      assert CoverLane(s.host.lanes[m], m, s.ex.sections[i], s.sig.stopped, i);
    }
  }

  /** Every other step of a section leaves the lanes alone and asks nothing new of them. */
  lemma OtherSectionCover(s: State, i: SectionId, a: SectionStep)
    requires ExclusionInv(s.ex) && CoverInv(s) && SectionEnabled(s, i, a)
    requires !(a.Install? || a.EnqueueBarrier? || a.CountParked? || a.CountDone? || a.StartFn? || a.AddExpected?)
    ensures CoverInv(SectionApply(s, i, a))
  {
    var s' := SectionApply(s, i, a);
    assert i in s.ex.sections ==> SectionFace(s.ex, i);
    SameKnown(s, s');
    if s'.ex.active.Some? {
      var j := s'.ex.active.value;
      assert s.ex.active == Some(j);
      ActiveHolds(s);
      KeepSection(s, i, a, j);
      KeepCoverLess(s.host, s'.host, s.ex.sections[j], s'.ex.sections[j], s.sig.stopped, j);
    }
  }

  lemma KeepSection(s: State, i: SectionId, a: SectionStep, j: SectionId)
    requires ExclusionInv(s.ex) && SectionEnabled(s, i, a) && j in s.ex.sections && s.ex.active == Some(j)
    requires !(a.Install? || a.EnqueueBarrier? || a.CountParked? || a.CountDone? || a.StartFn? || a.AddExpected?)
    ensures var x := s.ex.sections[j];
            var x' := SectionApply(s, i, a).ex.sections[j];
            && x'.todo == x.todo && x'.expected == x.expected && x'.parked == x.parked && x'.fnStarted == x.fnStarted
            && (x'.pc.Checking? ==> x.pc.Checking?) && x'.pc.BarringAdd? == x.pc.BarringAdd?
    ensures SectionApply(s, i, a).host.lanes == s.host.lanes
  {
    assert SectionFace(s.ex, j);
  }

  lemma KeepCoverLess(h: Host, h': Host, x: Section, x': Section, stopped: bool, i: SectionId)
    requires Cover(h, x, stopped, i) && h'.lanes == h.lanes
    requires x'.todo == x.todo && x'.expected == x.expected && x'.parked == x.parked
    requires x'.fnStarted == x.fnStarted && (x'.pc.Checking? ==> x.pc.Checking?) && x'.pc.BarringAdd? == x.pc.BarringAdd?
    ensures Cover(h', x', stopped, i)
  {
    SameSets(h, h', i);
    forall m | m in h'.lanes ensures CoverLane(h'.lanes[m], m, x', stopped, i) {
      assert CoverLane(h.lanes[m], m, x, stopped, i);
    }
  }

  lemma SectionCover(s: State, i: SectionId, a: SectionStep)
    requires BaseInv(s) && ExclusionInv(s.ex) && CoverInv(s) && SectionEnabled(s, i, a)
    ensures CoverInv(SectionApply(s, i, a))
  {
    if a.Install? {
      InstallCover(s, i, a.snapshot);
    } else if a.EnqueueBarrier? {
      EnqueueBarrierCover(s, i, a.lane);
    } else if a.CountParked? {
      CountParkedCover(s, i, a.lane);
    } else if a.CountDone? || a.StartFn? || a.AddExpected? {
      CountDoneCover(s, i, a);
    } else {
      OtherSectionCover(s, i, a);
    }
  }

  lemma StepCover(s: State, a: Step)
    requires BaseInv(s) && ExclusionInv(s.ex) && CoverInv(s) && Enabled(s, a)
    ensures CoverInv(Apply(s, a))
  {
    match a
    case OfProducer(t, o) => ProducerCover(s, t, o);
    case OfSend(t, o) => SendCover(s, t, o);
    case OfHandoff(t, o) => HandoffCover(s, t, o);
    case OfWorker(l, w) => WorkerCover(s, l, w);
    case OfLoop(r) => LoopCover(s, r);
    case OfSection(i, m) => SectionCover(s, i, m);
    case OfStop(k, c) => StopCover(s, k, c);
  }

  // ----- A blocked lane stays blocked until its section lets it go -----

  lemma WorkerBlocked(s: State, l: LaneId, a: WorkerStep, i: SectionId)
    requires WorkerEnabled(s, l, a) && Blocked(s.host.lanes[l], i) && i !in s.ex.freed
    ensures Blocked(WorkerApply(s, l, a).host.lanes[l], i)
  {
  }

  lemma SendBlocked(s: State, t: Token, a: SendStep, i: SectionId)
    requires SendEnabled(s, t, a) && Blocked(s.host.lanes[s.book.ops[t].pc.lane], i)
    ensures Blocked(SendApply(s, t, a).host.lanes[s.book.ops[t].pc.lane], i)
  {
  }

  lemma ProducerBlocked(s: State, t: Token, a: ProducerStep, l: LaneId, i: SectionId)
    requires ProducerEnabled(s, t, a) && l in s.host.lanes && Blocked(s.host.lanes[l], i)
    ensures l in ProducerApply(s, t, a).host.lanes && Blocked(ProducerApply(s, t, a).host.lanes[l], i)
  {
    if a.Lookup? && Live(s, s.book.ops[t].key) {
      assert ProducerApply(s, t, a).host == s.host;
    }
  }

  lemma HandoffBlocked(s: State, t: Token, a: HandoffStep, l: LaneId, i: SectionId)
    requires HandoffEnabled(s, t, a) && l in s.host.lanes && Blocked(s.host.lanes[l], i)
    ensures l in HandoffApply(s, t, a).host.lanes && Blocked(HandoffApply(s, t, a).host.lanes[l], i)
  {
    if !a.EnqueueRelease? && !a.EnqueueStopped? {
      assert HandoffApply(s, t, a).host.lanes == s.host.lanes;
    }
  }

  lemma LoopBlocked(s: State, a: LoopStep, l: LaneId, i: SectionId)
    requires LoopEnabled(s, a) && l in s.host.lanes && Blocked(s.host.lanes[l], i)
    ensures l in LoopApply(s, a).host.lanes && Blocked(LoopApply(s, a).host.lanes[l], i)
  {
    LoopLeavesWork(s, a, l);
  }

  /** The idle scan touches neither a lane's worker nor what it owes. */
  lemma LoopLeavesWork(s: State, a: LoopStep, l: LaneId)
    requires LoopEnabled(s, a) && l in s.host.lanes
    ensures l in LoopApply(s, a).host.lanes
    ensures var p, q := s.host.lanes[l], LoopApply(s, a).host.lanes[l];
            q.worker == p.worker && q.backlog == p.backlog && q.settled == p.settled
  {
    var h, h' := s.host, LoopApply(s, a).host;
    match a
    case LoopExit => assert h' == h;
    case RetireCheck(m) => assert h'.lanes == h.lanes[m := LockIdle(h.lanes[m])];
    case RetireRefuse => assert h'.lanes == h.lanes[h.retiring.value := Unlock(h.lanes[h.retiring.value])];
    case RetireSeal => assert h'.lanes == h.lanes[h.retiring.value := Seal(h.lanes[h.retiring.value])];
  }

  lemma SectionKeepsBlocked(s: State, j: SectionId, a: SectionStep, l: LaneId, i: SectionId)
    requires SectionEnabled(s, j, a) && l in s.host.lanes && Blocked(s.host.lanes[l], i)
    ensures l in SectionApply(s, j, a).host.lanes && Blocked(SectionApply(s, j, a).host.lanes[l], i)
  {
    if !a.EnqueueBarrier? && !a.CountParked? {
      assert SectionApply(s, j, a).host.lanes == s.host.lanes;
    }
  }

  lemma StopBlocked(s: State, k: StopId, a: StopStep, l: LaneId, i: SectionId)
    requires StopEnabled(s, k, a) && l in s.host.lanes && Blocked(s.host.lanes[l], i)
    ensures l in StopApply(s, k, a).host.lanes && Blocked(StopApply(s, k, a).host.lanes[l], i)
  {
  }

  lemma StepBlocked(s: State, a: Step, l: LaneId, i: SectionId)
    requires Enabled(s, a) && l in s.host.lanes && Blocked(s.host.lanes[l], i) && i !in s.ex.freed
    ensures l in Apply(s, a).host.lanes && Blocked(Apply(s, a).host.lanes[l], i)
  {
    match a
    case OfProducer(t, o) => ProducerBlocked(s, t, o, l, i);
    case OfSend(t, o) => if s.book.ops[t].pc.lane == l { SendBlocked(s, t, o, i); }
    case OfHandoff(t, o) => HandoffBlocked(s, t, o, l, i);
    case OfWorker(m, w) => if m == l { WorkerBlocked(s, l, w, i); }
    case OfLoop(r) => LoopBlocked(s, r, l, i);
    case OfSection(j, m) => SectionKeepsBlocked(s, j, m, l, i);
    case OfStop(k, c) => StopBlocked(s, k, c, l, i);
  }

  lemma FreedStays(s: State, a: Step)
    requires Enabled(s, a)
    ensures s.ex.freed <= Apply(s, a).ex.freed
  {
    match a
    case OfProducer(t, o) =>
    case OfSend(t, o) => assert SendApply(s, t, o).ex == s.ex;
    case OfHandoff(t, o) =>
    case OfWorker(l, w) => assert WorkerApply(s, l, w).ex.freed == s.ex.freed;
    case OfLoop(r) => assert LoopApply(s, r).ex == s.ex;
    case OfSection(i, m) =>
    case OfStop(k, c) => assert StopApply(s, k, c).ex == s.ex;
  }

  lemma {:induction false} RunFreed(s: State, run: seq<Step>)
    requires Runs(s, run)
    ensures s.ex.freed <= After(s, run).ex.freed
    decreases |run|
  {
    if run != [] {
      FreedStays(s, run[0]);
      RunFreed(Apply(s, run[0]), run[1..]);
    }
  }

  /** Over any run, a lane blocked for a section does nothing until the section lets its lanes go. */
  lemma {:induction false} BlockedUntilFreed(s: State, run: seq<Step>, l: LaneId, i: SectionId)
    requires Runs(s, run) && l in s.host.lanes && Blocked(s.host.lanes[l], i) && i !in After(s, run).ex.freed
    ensures l in After(s, run).host.lanes && Blocked(After(s, run).host.lanes[l], i)
    decreases |run|
  {
    RunFreed(s, run);
    if run != [] {
      StepBlocked(s, run[0], l, i);
      BlockedUntilFreed(Apply(s, run[0]), run[1..], l, i);
    }
  }

  /** A lane created while a section is installed is blocked for it from then on until it is freed. */
  lemma CreatedStaysBlocked(s: State, key: RoutingKey, newId: LaneId, run: seq<Step>)
    requires ActiveOk(s) && s.ex.active.Some? && newId !in s.host.lanes && Runs(Create(s, key, newId), run)
    requires s.ex.active.value !in After(Create(s, key, newId), run).ex.freed
    ensures var e := After(Create(s, key, newId), run);
            newId in e.host.lanes && Blocked(e.host.lanes[newId], s.ex.active.value)
  {
    CreatedIsBlocked(s, key);
    BlockedUntilFreed(Create(s, key, newId), run, newId, s.ex.active.value);
  }
}
