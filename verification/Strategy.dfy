/** The Dynamic strategy and an Exclusive section as the objects they are, one method per critical
    section of dynamic.go and exclusive.go.

    `s` is the ghost state of the transition system of Dispatcher. Each method shows that what the
    code does to its maps and fields under its locks is exactly the step of that system. */
module Strategies {
  import opened Lanes
  import Dispatcher
  import Wrappers
  import LaneMap
  import opened Queues

  /** exclusiveSection: the fields that critical sections change. */
  class ExclusiveSection {
    const id: SectionId
    var expected: int
    var deferred: seq<Token>

    constructor (id: SectionId)
      ensures this.id == id && expected == 0 && deferred == []
    {
      this.id, expected, deferred := id, 0, [];
    }

    method Postpone(t: Token)
      modifies this`deferred
      ensures deferred == old(deferred) + [t]
    {
      deferred := deferred + [t];
    }

    method TakeDeferred() returns (taken: seq<Token>)
      modifies this`deferred
      ensures taken == old(deferred) && deferred == []
    {
      taken := deferred;
      deferred := [];
    }
  }

  datatype Found = Ready(queue: KeyQueue, created: bool) | Stopped | AtBarrier | Limit

  /** The queue is the lane that the host maps the key to. */
  ghost predicate Mirrors(q: KeyQueue, k: RoutingKey, h: Dispatcher.Host)
    reads q
  {
    q.Valid() && k in h.queues && h.queues[k] == q.id && q.id in h.lanes && h.lanes[q.id] == q.lane
  }

  lemma StillMirrors(q: KeyQueue, k: RoutingKey, h: Dispatcher.Host, h': Dispatcher.Host)
    requires Mirrors(q, k, h)
    requires k in h'.queues && h'.queues[k] == h.queues[k] && q.id in h'.lanes && h'.lanes[q.id] == h.lanes[q.id]
    ensures Mirrors(q, k, h')
  {
  }

  /** A key's queue is its own. */
  ghost predicate KeyMapped(h: Dispatcher.Host, k: RoutingKey) {
    k in h.queues ==> h.queues[k] in h.lanes && h.lanes[h.queues[k]].key == k
  }

  /** An open lane is mapped. */
  ghost predicate LaneMapped(h: Dispatcher.Host, l: Dispatcher.LaneId) {
    l in h.lanes && !h.lanes[l].closed ==> h.lanes[l].key in h.queues && h.queues[h.lanes[l].key] == l
  }

  ghost predicate Mapped(h: Dispatcher.Host) {
    && (forall k {:trigger KeyMapped(h, k)} :: KeyMapped(h, k))
    && (forall l {:trigger LaneMapped(h, l)} :: LaneMapped(h, l))
  }

  /** Every reachable state is mapped in this sense. */
  lemma InvIsMapped(s: Dispatcher.State)
    requires LaneMap.BaseInv(s)
    ensures Mapped(s.host)
  {
    forall k ensures KeyMapped(s.host, k) {
      assert k in s.host.queues ==> LaneMap.KeyFace(s.host, k);
    }
    forall l ensures LaneMapped(s.host, l) {
      assert l in s.host.lanes ==> LaneMap.LaneFace(s.host, l) && LaneInv(s.host.lanes[l]);
    }
  }

  lemma CreateKeepsMap(s: Dispatcher.State, key: RoutingKey, newId: int)
    requires Mapped(s.host) && newId !in s.host.lanes && Dispatcher.ActiveOk(s) && !Dispatcher.Live(s, key)
    ensures var s' := Dispatcher.Create(s, key, newId);
      && Mapped(s'.host)
      && s' == s.(host := s.host.(lanes := s.host.lanes[newId := Dispatcher.CreatedLane(s, key)],
                                  queues := s.host.queues[key := newId]), ex := s'.ex)
      && s'.ex.active == s.ex.active
    ensures s.ex.active.Some? ==>
      var i, e := s.ex.active.value, Dispatcher.Create(s, key, newId).ex;
      (i in e.sections && e.sections[i].expected == s.ex.sections[i].expected + 1
       && e.sections[i].deferred == s.ex.sections[i].deferred)
  {
    var s' := Dispatcher.Create(s, key, newId);
    forall k ensures KeyMapped(s'.host, k) {
      assert KeyMapped(s.host, k);
    }
    forall l ensures LaneMapped(s'.host, l) {
      assert LaneMapped(s.host, l);
    }
  }

  datatype CleanupFate = Retry | Postponed | RunNow | Untracked

  lemma SameMap(h: Dispatcher.Host, h': Dispatcher.Host)
    requires Mapped(h) && h'.queues == h.queues && h'.lanes == h.lanes
    ensures Mapped(h')
  {
    forall k ensures KeyMapped(h', k) {
      assert KeyMapped(h, k);
    }
    forall l ensures LaneMapped(h', l) {
      assert LaneMapped(h, l);
    }
  }

  lemma TryOffLaneKeepsMap(s: Dispatcher.State, t: Token)
    requires Mapped(s.host) && t in s.book.ops && Dispatcher.ActiveOk(s)
    ensures Mapped(Dispatcher.TryOffLane(s, t).host)
  {
    SameMap(s.host, Dispatcher.TryOffLane(s, t).host);
  }

  lemma CheckKeepsMap(s: Dispatcher.State, l: int)
    requires Mapped(s.host) && Dispatcher.LoopEnabled(s, Dispatcher.RetireCheck(l))
    ensures var s' := Dispatcher.LoopApply(s, Dispatcher.RetireCheck(l));
      && Mapped(s'.host)
      && s' == s.(host := s.host.(lanes := s.host.lanes[l := LockIdle(s.host.lanes[l])], retiring := Wrappers.Some(l)))
  {
    LaneKeepsMap(s.host, l, LockIdle(s.host.lanes[l]));
    SameMap(Dispatcher.PutLane(s.host, l, LockIdle(s.host.lanes[l])), Dispatcher.LoopApply(s, Dispatcher.RetireCheck(l)).host);
  }

  lemma RefuseKeepsMap(s: Dispatcher.State)
    requires Mapped(s.host) && Dispatcher.LoopEnabled(s, Dispatcher.RetireRefuse)
    ensures var l, s' := s.host.retiring.value, Dispatcher.LoopApply(s, Dispatcher.RetireRefuse);
      && Mapped(s'.host)
      && s' == s.(host := s.host.(lanes := s.host.lanes[l := Unlock(s.host.lanes[l])], retiring := Wrappers.None))
  {
    var l := s.host.retiring.value;
    LaneKeepsMap(s.host, l, Unlock(s.host.lanes[l]));
    SameMap(Dispatcher.PutLane(s.host, l, Unlock(s.host.lanes[l])), Dispatcher.LoopApply(s, Dispatcher.RetireRefuse).host);
  }

  lemma SealKeepsMap(s: Dispatcher.State)
    requires Mapped(s.host) && Dispatcher.LoopEnabled(s, Dispatcher.RetireSeal)
    requires var k := s.host.lanes[s.host.retiring.value].key;
      k in s.host.queues && s.host.queues[k] == s.host.retiring.value
    ensures var l, s' := s.host.retiring.value, Dispatcher.LoopApply(s, Dispatcher.RetireSeal);
      && Mapped(s'.host)
      && s' == s.(host := s.host.(lanes := s.host.lanes[l := Seal(s.host.lanes[l])], retiring := Wrappers.None,
                                  queues := s.host.queues - {s.host.lanes[l].key}))
  {
    var l := s.host.retiring.value;
    var h' := Dispatcher.LoopApply(s, Dispatcher.RetireSeal).host;
    forall k ensures KeyMapped(h', k) {
      assert KeyMapped(s.host, k);
    }
    forall m ensures LaneMapped(h', m) {
      assert LaneMapped(s.host, m);
    }
  }

  lemma LaneKeepsMap(h: Dispatcher.Host, l: int, q: Lane)
    requires Mapped(h) && l in h.lanes && q.key == h.lanes[l].key && q.closed == h.lanes[l].closed
    ensures Mapped(Dispatcher.PutLane(h, l, q))
  {
    var h' := Dispatcher.PutLane(h, l, q);
    forall k ensures KeyMapped(h', k) {
      assert KeyMapped(h, k);
    }
    forall m ensures LaneMapped(h', m) {
      assert LaneMapped(h, m);
    }
  }

  /** A new queue; one made during a section takes the section's barrier first, and is expected. */
  method StartQueue(id: int, key: RoutingKey, capacity: int, section: ExclusiveSection?) returns (q: KeyQueue)
    modifies section
    ensures fresh(q) && q.Valid() && q.id == id
    ensures q.lane == if section == null then NewLane(key, capacity) else Enqueue(NewLane(key, capacity), Barrier(section.id), false)
    ensures section != null ==> section.expected == old(section.expected) + 1 && section.deferred == old(section.deferred)
  {
    q := new KeyQueue(id, key, capacity);
    if section != null {
      var taken := q.EnqueueMandatory(Barrier(section.id), false);
      if taken {
        section.expected := section.expected + 1;
      }
    }
  }

  class DynamicStrategy {
    const maxQueues: int
    const queueCapacity: int
    var stopping: bool
    var queues: map<RoutingKey, KeyQueue>
    var cleanupBarriers: map<RoutingKey, Token>
    var lifecycleCleanups: set<Token>
    var lifecycleEpoch: int
    var lifecycleSealed: bool
    var activeSection: ExclusiveSection?
    ghost var s: Dispatcher.State

    /** The mapped queues are the lanes that the state maps. */
    ghost predicate QueuesMirror()
      reads this, queues.Values
    {
      && queues.Keys == s.host.queues.Keys
      && forall k {:trigger Mirrors(queues[k], k, s.host)} :: k in queues ==> Mirrors(queues[k], k, s.host)
    }

    ghost predicate SectionMirrors()
      reads this, activeSection
    {
      if activeSection == null then s.ex.active.None?
      else
        && s.ex.active == Wrappers.Some(activeSection.id) && activeSection.id in s.ex.sections
        && s.ex.sections[activeSection.id].expected == activeSection.expected
        && s.ex.sections[activeSection.id].deferred == activeSection.deferred
    }

    ghost predicate FieldsMirror()
      reads this
    {
      && s.host.maxQueues == maxQueues && s.host.capacity == queueCapacity
      && s.host.stopping == stopping && s.host.barriers == cleanupBarriers
      && s.sig.tracked == lifecycleCleanups && s.sig.epoch == lifecycleEpoch && s.sig.sealed == lifecycleSealed
    }

    ghost predicate Valid()
      reads this, queues.Values, activeSection
    {
      FieldsMirror() && QueuesMirror() && SectionMirrors() && Mapped(s.host)
    }

    /** The write-locked part of getOrCreate. */
    method GetOrCreate(key: RoutingKey, newId: int) returns (found: Found)
      requires Valid() && Dispatcher.MuFree(s) && newId !in s.host.lanes
      modifies this, activeSection
      ensures Valid()
      ensures found.Ready? ==>
                && Dispatcher.CanGet(old(s), key, newId) && Dispatcher.ActiveOk(old(s))
                && (s, found.queue.id) == Dispatcher.Get(old(s), key, newId)
                && key in queues && queues[key] == found.queue
                && found.created == !Dispatcher.Live(old(s), key)
      ensures !found.Ready? ==> s == old(s)
      ensures found.Stopped? ==> old(stopping)
      ensures found.AtBarrier? ==> !Dispatcher.Live(s, key) && key in s.host.barriers
      ensures found.Limit? ==>
                !Dispatcher.Live(s, key) && !s.host.stopping && key !in s.host.barriers && Dispatcher.AtLimit(s)
      ensures !found.Stopped? ==> (found.Ready? <==> Dispatcher.CanGet(old(s), key, newId))
    {
      assert key in queues ==> Mirrors(queues[key], key, s.host);
      if stopping {
        return Stopped;
      }
      if key in queues && !queues[key].closed {
        return Ready(queues[key], false);
      }
      if key in cleanupBarriers {
        return AtBarrier;
      }
      assert |queues.Keys| == |s.host.queues.Keys|;
      if maxQueues > 0 && |queues| >= maxQueues {
        return Limit;
      }
      var q := Create(key, newId);
      found := Ready(q, true);
    }

    /** The part of getOrCreate that makes a queue: during a section it starts with a barrier. */
    method Create(key: RoutingKey, newId: int) returns (q: KeyQueue)
      requires Valid() && newId !in s.host.lanes && !Dispatcher.Live(s, key) && Dispatcher.ActiveOk(s)
      modifies this, activeSection
      ensures Valid() && s == Dispatcher.Create(old(s), key, newId)
      ensures fresh(q) && q.id == newId && queues == old(queues)[key := q]
    {
      q := StartQueue(newId, key, queueCapacity, activeSection);
      assert QueuesMirror() by {
        forall k | k in queues ensures Mirrors(queues[k], k, s.host) {
          assert old(Mirrors(queues[k], k, s.host));
        }
      }
      CreateKeepsMap(s, key, newId);
      Insert(key, q, Dispatcher.Create(s, key, newId));
    }

    method Insert(key: RoutingKey, q: KeyQueue, ghost next: Dispatcher.State)
      requires FieldsMirror() && QueuesMirror() && q.id !in s.host.lanes && q.Valid()
      requires next.host == s.host.(lanes := s.host.lanes[q.id := q.lane], queues := s.host.queues[key := q.id])
      requires next.sig == s.sig
      modifies this`queues, this`s
      ensures FieldsMirror() && QueuesMirror()
      ensures s == next && queues == old(queues)[key := q]
    {
      ghost var h, was := s.host, queues;
      s := next;
      queues := queues[key := q];
      forall k | k in queues ensures Mirrors(queues[k], k, s.host) {
        if k != key {
          assert Mirrors(was[k], k, h);
          StillMirrors(was[k], k, h, s.host);
        }
      }
    }

    lemma SameQueues(h: Dispatcher.Host)
      requires QueuesMirror() && h.queues == s.host.queues && h.lanes == s.host.lanes
      ensures forall k {:trigger Mirrors(queues[k], k, h)} :: k in queues ==> Mirrors(queues[k], k, h)
    {
      forall k | k in queues ensures Mirrors(queues[k], k, h) {
        assert Mirrors(queues[k], k, s.host);
        StillMirrors(queues[k], k, s.host, h);
      }
    }

    /** The first critical section of cleanupWithoutLiveLane: look again, go into the section, or
        run behind a barrier of the key's own. */
    method CleanupWithoutLiveLane(key: RoutingKey, t: Token) returns (fate: CleanupFate)
      requires Valid() && t in s.book.ops && s.book.ops[t].key == key
      modifies this`cleanupBarriers, this`s, activeSection
      ensures Valid() && Dispatcher.ActiveOk(old(s)) && s == Dispatcher.TryOffLane(old(s), t)
      ensures fate.Retry? <==> s.book.ops[t].pc.Sched?
      ensures fate.Postponed? <==> s.book.ops[t].pc.Postponed?
      ensures fate.RunNow? <==> s.book.ops[t].pc.OffLane?
      ensures fate.RunNow? ==> key in cleanupBarriers && cleanupBarriers[key] == t && activeSection == null
    {
      assert key in queues ==> Mirrors(queues[key], key, s.host);
      ghost var next := Dispatcher.TryOffLane(s, t);
      SameQueues(next.host);
      TryOffLaneKeepsMap(s, t);
      if stopping || (key in queues && !queues[key].closed) || key in cleanupBarriers {
        fate := Retry;
      } else if activeSection != null {
        activeSection.Postpone(t);
        fate := Postponed;
      } else {
        cleanupBarriers := cleanupBarriers[key := t];
        fate := RunNow;
      }
      s := next;
    }

    /** The second one: the release is over and the barrier goes. */
    method LiftBarrier(key: RoutingKey, t: Token)
      requires Valid() && Dispatcher.HandoffEnabled(s, t, Dispatcher.FinishOffLane) && s.book.ops[t].key == key
      modifies this`cleanupBarriers, this`s
      ensures Valid() && s == Dispatcher.HandoffApply(old(s), t, Dispatcher.FinishOffLane)
    {
      ghost var next := Dispatcher.HandoffApply(s, t, Dispatcher.FinishOffLane);
      SameQueues(next.host);
      SameMap(s.host, next.host);
      cleanupBarriers := cleanupBarriers - {key};
      s := next;
    }

    /** beginLifecycleCleanup */
    method BeginLifecycleCleanup(t: Token) returns (fate: CleanupFate)
      requires Valid() && t in s.book.ops
      modifies this`lifecycleCleanups, this`s, activeSection
      ensures Valid() && Dispatcher.ActiveOk(old(s)) && s == Dispatcher.TryLifecycle(old(s), t)
      ensures fate.Untracked? <==> s.book.ops[t].pc.Untracked?
      ensures fate.Postponed? <==> s.book.ops[t].pc.Postponed?
      ensures fate.RunNow? <==> s.book.ops[t].pc.Tracked?
    {
      ghost var next := Dispatcher.TryLifecycle(s, t);
      assert next.host == s.host;
      SameQueues(next.host);
      if lifecycleSealed {
        fate := Untracked;
      } else if activeSection != null {
        activeSection.Postpone(t);
        fate := Postponed;
      } else {
        lifecycleCleanups := lifecycleCleanups + {t};
        fate := RunNow;
      }
      s := next;
    }

    /** endLifecycleCleanup: the last release of an epoch closes its channel. */
    method EndLifecycleCleanup(t: Token)
      requires Valid() && t in s.book.ops && s.book.ops[t].pc.Tracked?
      modifies this`lifecycleCleanups, this`lifecycleEpoch, this`s
      ensures Valid() && s == Dispatcher.EndLifecycle(old(s), t)
    {
      ghost var next := Dispatcher.EndLifecycle(s, t);
      SameQueues(next.host);
      lifecycleCleanups := lifecycleCleanups - {t};
      if lifecycleCleanups == {} {
        lifecycleEpoch := lifecycleEpoch + 1;
      }
      s := next;
    }

    /** markStoppingAndSnapshot: the snapshot is every mapped queue, and from here on none is made. */
    method MarkStoppingAndSnapshot() returns (snapshot: set<KeyQueue>)
      requires Valid()
      modifies this`stopping, this`s
      ensures Valid() && stopping && s == old(s).(host := old(s).host.(stopping := true))
      ensures snapshot == queues.Values
      ensures forall l :: l in s.host.queues.Values ==> exists q :: q in snapshot && q.id == l
    {
      ghost var next := s.(host := s.host.(stopping := true));
      SameQueues(next.host);
      SameMap(s.host, next.host);
      stopping := true;
      snapshot := queues.Values;
      s := next;
      forall l | l in s.host.queues.Values ensures exists q :: q in snapshot && q.id == l {
        var k :| k in s.host.queues && s.host.queues[k] == l;
        assert Mirrors(queues[k], k, s.host);
      }
    }

    /** installExclusive: the open queues and the releases already running. */
    method InstallExclusive(section: ExclusiveSection) returns (open: set<KeyQueue>, running: set<Token>, lifecycle: bool)
      requires Valid() && Dispatcher.MuFree(s) && section.deferred == []
      requires section.id in s.ex.sections && s.ex.sections[section.id].pc.Registered?
      requires s.ex.sections[section.id].expected == section.expected && s.ex.sections[section.id].deferred == []
      modifies this`activeSection, this`s
      ensures Valid() && activeSection == section
      ensures open == set k | k in queues && !queues[k].closed :: queues[k]
      ensures running == cleanupBarriers.Values && (lifecycle <==> s.ex.sections[section.id].waitEpoch.Some?)
      ensures var ids := set q | q in open :: q.id;
        (Dispatcher.SectionEnabled(old(s), section.id, Dispatcher.Install(ids))
         && s == Dispatcher.SectionApply(old(s), section.id, Dispatcher.Install(ids)))
    {
      ghost var ids;
      open, ids := OpenQueues();
      running := cleanupBarriers.Values;
      lifecycle := lifecycleCleanups != {};
      Install(section, ids);
    }

    method OpenQueues() returns (open: set<KeyQueue>, ghost ids: set<int>)
      requires QueuesMirror() && Mapped(s.host)
      ensures open == set k | k in queues && !queues[k].closed :: queues[k]
      ensures ids == set q | q in open :: q.id
      ensures Dispatcher.OpenLanes(s) <= ids <= s.host.queues.Values
    {
      open := set k | k in queues && !queues[k].closed :: queues[k];
      ids := set q | q in open :: q.id;
      OpenIsSnapshot(open, ids);
    }

    method Install(section: ExclusiveSection, ghost ids: set<int>)
      requires Valid() && section.deferred == []
      requires Dispatcher.SectionEnabled(s, section.id, Dispatcher.Install(ids))
      requires s.ex.sections[section.id].expected == section.expected && s.ex.sections[section.id].deferred == []
      modifies this`activeSection, this`s
      ensures Valid() && activeSection == section
      ensures s == Dispatcher.SectionApply(old(s), section.id, Dispatcher.Install(ids))
    {
      ghost var next := Dispatcher.SectionApply(s, section.id, Dispatcher.Install(ids));
      SameQueues(next.host);
      activeSection := section;
      s := next;
    }

    lemma OpenIsSnapshot(open: set<KeyQueue>, ids: set<int>)
      requires QueuesMirror() && Mapped(s.host)
      requires open == set k | k in queues && !queues[k].closed :: queues[k]
      requires ids == set q | q in open :: q.id
      ensures Dispatcher.OpenLanes(s) <= ids <= s.host.queues.Values
    {
      forall l | l in Dispatcher.OpenLanes(s) ensures l in ids {
        assert LaneMapped(s.host, l);
        var k := s.host.lanes[l].key;
        assert Mirrors(queues[k], k, s.host);
        assert queues[k] in open && queues[k].id == l;
      }
      forall i | i in ids ensures i in s.host.queues.Values {
        var q :| q in open && q.id == i;
        var k :| k in queues && queues[k] == q;
        assert Mirrors(queues[k], k, s.host);
      }
    }

    /** withdrawExclusive: hand the postponed releases over, or leave with none. */
    method WithdrawExclusive() returns (deferred: seq<Token>, withdrawn: bool)
      requires Valid() && activeSection != null && Dispatcher.SectionEnabled(s, activeSection.id, Dispatcher.Withdraw)
      modifies this`activeSection, this`s, activeSection
      ensures Valid() && s == Dispatcher.SectionApply(old(s), old(activeSection).id, Dispatcher.Withdraw)
      ensures deferred == old(activeSection.deferred)
      ensures withdrawn <==> deferred == []
      ensures withdrawn <==> activeSection == null
    {
      ghost var next := Dispatcher.SectionApply(s, activeSection.id, Dispatcher.Withdraw);
      SameQueues(next.host);
      deferred := activeSection.TakeDeferred();
      withdrawn := deferred == [];
      if withdrawn {
        activeSection := null;
      }
      s := next;
    }

    /** retireIfIdle up to its second look, which leaves the gate locked: it goes on exactly with a
        queue that is still mapped, idle and ungated while no section is installed. The idle scan is
        over before a stop closes any queue. */
    method CheckIdle(key: RoutingKey, q: KeyQueue, quiet: bool, gateFree: bool) returns (locked: bool)
      requires Valid() && Dispatcher.MuFree(s) && !s.sig.loopDone && !q.closed
      requires gateFree <==> q.lane.gate == {} && !q.lane.gateLocked
      modifies this`s, q
      ensures Valid() && queues == old(queues) && q.ch == old(q.ch) && q.mandatory == old(q.mandatory)
      ensures locked <==>
                && old(activeSection) == null && key in old(queues) && old(queues)[key] == q
                && quiet && gateFree && old(q.pending) == 0 && old(q.ch) == []
      ensures locked ==>
                && Dispatcher.LoopEnabled(old(s), Dispatcher.RetireCheck(q.id))
                && s == Dispatcher.LoopApply(old(s), Dispatcher.RetireCheck(q.id))
      ensures !locked ==> s == old(s)
    {
      if activeSection != null || key !in queues || queues[key] != q {
        return false;
      }
      assert Mirrors(queues[key], key, s.host);
      if q.pending != 0 || q.ch != [] || !quiet || !gateFree {
        return false;
      }
      Lock(key, q);
      locked := true;
    }

    method Lock(key: RoutingKey, q: KeyQueue)
      requires Valid() && Dispatcher.MuFree(s) && !s.sig.loopDone && activeSection == null
      requires key in queues && queues[key] == q && !q.closed && q.pending == 0 && q.ch == []
      requires q.lane.gate == {} && !q.lane.gateLocked
      modifies this`s, q
      ensures Valid() && q.ch == old(q.ch) && q.mandatory == old(q.mandatory)
      ensures Dispatcher.LoopEnabled(old(s), Dispatcher.RetireCheck(q.id))
      ensures s == Dispatcher.LoopApply(old(s), Dispatcher.RetireCheck(q.id))
    {
      assert Mirrors(queues[key], key, s.host) && KeyMapped(s.host, key);
      CheckKeepsMap(s, q.id);
      OthersDiffer(key);
      q.LockGate();
      forall k | k in queues && k != key ensures Mirrors(queues[k], k, s.host) {
        assert old(Mirrors(queues[k], k, s.host));
      }
      Follow(key, Dispatcher.LoopApply(s, Dispatcher.RetireCheck(q.id)));
    }

    /** The rest of retireIfIdle, whatever happened since: markRetired looks only at the backlog. */
    method SealOrLeave(key: RoutingKey, q: KeyQueue) returns (removed: bool)
      requires Valid() && !s.sig.loopDone && key in queues && queues[key] == q
      requires s.host.retiring == Wrappers.Some(q.id) && q.lane.gateLocked
      modifies this`queues, this`s, q
      ensures Valid()
      ensures removed <==> old(q.mandatory) == []
      ensures var a := if removed then Dispatcher.RetireSeal else Dispatcher.RetireRefuse;
        Dispatcher.LoopEnabled(old(s), a) && s == Dispatcher.LoopApply(old(s), a)
      ensures queues == if removed then old(queues) - {key} else old(queues)
    {
      assert Mirrors(queues[key], key, s.host) && KeyMapped(s.host, key);
      OthersDiffer(key);
      ghost var next := s;
      if q.mandatory == [] {
        SealKeepsMap(s);
        next := Dispatcher.LoopApply(s, Dispatcher.RetireSeal);
      } else {
        RefuseKeepsMap(s);
        next := Dispatcher.LoopApply(s, Dispatcher.RetireRefuse);
      }
      removed := q.Retire();
      forall k | k in queues && k != key ensures Mirrors(queues[k], k, s.host) {
        assert old(Mirrors(queues[k], k, s.host));
      }
      if removed {
        Remove(key, next);
      } else {
        Follow(key, next);
      }
    }

    lemma OthersDiffer(key: RoutingKey)
      requires QueuesMirror() && Mapped(s.host) && key in queues
      ensures forall k :: k in queues && k != key ==> queues[k] != queues[key] && s.host.queues[k] != s.host.queues[key]
    {
      forall k | k in queues && k != key ensures queues[k] != queues[key] && s.host.queues[k] != s.host.queues[key] {
        assert Mirrors(queues[k], k, s.host) && Mirrors(queues[key], key, s.host);
        assert KeyMapped(s.host, k) && KeyMapped(s.host, key);
      }
    }

    /** The state follows a change of the key's queue. */
    ghost method Follow(key: RoutingKey, next: Dispatcher.State)
      requires FieldsMirror() && key in queues && queues.Keys == s.host.queues.Keys
      requires forall k {:trigger Mirrors(queues[k], k, s.host)} :: k in queues && k != key ==> Mirrors(queues[k], k, s.host)
      requires forall k :: k in queues && k != key ==> s.host.queues[k] != s.host.queues[key]
      requires queues[key].Valid() && queues[key].id == s.host.queues[key]
      requires next.host == s.host.(lanes := s.host.lanes[queues[key].id := queues[key].lane], retiring := next.host.retiring)
      requires next.sig == s.sig && next.ex == s.ex
      modifies this`s
      ensures FieldsMirror() && QueuesMirror() && s == next
    {
      var h := s.host;
      s := next;
      forall k | k in queues ensures Mirrors(queues[k], k, s.host) {
        if k != key {
          assert Mirrors(queues[k], k, h);
          StillMirrors(queues[k], k, h, s.host);
        }
      }
    }

    method Remove(key: RoutingKey, ghost next: Dispatcher.State)
      requires FieldsMirror() && key in queues && queues.Keys == s.host.queues.Keys
      requires forall k {:trigger Mirrors(queues[k], k, s.host)} :: k in queues && k != key ==> Mirrors(queues[k], k, s.host)
      requires forall k :: k in queues && k != key ==> s.host.queues[k] != s.host.queues[key]
      requires next.host == s.host.(lanes := next.host.lanes, retiring := next.host.retiring, queues := s.host.queues - {key})
      requires forall l :: l in s.host.lanes && l != s.host.queues[key] ==> l in next.host.lanes && next.host.lanes[l] == s.host.lanes[l]
      requires next.sig == s.sig && next.ex == s.ex
      modifies this`queues, this`s
      ensures FieldsMirror() && QueuesMirror() && s == next && queues == old(queues) - {key}
    {
      ghost var h, was := s.host, queues;
      s := next;
      queues := queues - {key};
      forall k | k in queues ensures Mirrors(queues[k], k, s.host) {
        assert Mirrors(was[k], k, h);
        StillMirrors(was[k], k, h, s.host);
      }
    }
  }
}
