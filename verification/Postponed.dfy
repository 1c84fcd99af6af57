/** Releases postponed into a section keep their account to themselves: until a stop is signalled
    no key barrier is up for their key, and a lane that has appeared for it is blocked at the
    section's barrier. This is what lets a section that was cancelled before its function ran
    drain its releases while other lanes are still busy. */
module Postponed {
  import opened Lanes
  import opened Dispatcher
  import opened Wrappers
  import opened LaneMap
  import opened Sections
  import opened Coverage
  import opened Ownership
  import opened Releases

  predicate KeyQuiet(h: Host, b: Book, i: SectionId, t: Token) {
    && t in b.ops
    && b.ops[t].key !in h.barriers
    && (b.ops[t].key in h.queues ==>
          h.queues[b.ops[t].key] in h.lanes && Blocked(h.lanes[h.queues[b.ops[t].key]], i))
  }

  ghost predicate QuietSection(h: Host, b: Book, i: SectionId, x: Section) {
    forall t {:trigger KeyQuiet(h, b, i, t)} :: t in x.batch + x.deferred ==> KeyQuiet(h, b, i, t)
  }

  ghost predicate PostponedInv(s: State) {
    s.ex.active.Some? && s.ex.active.value in s.ex.sections && !s.sig.stopped ==>
      QuietSection(s.host, s.book, s.ex.active.value, s.ex.sections[s.ex.active.value])
  }

  lemma SameKeys(h: Host, h': Host, b: Book, b': Book, i: SectionId, x: Section, x': Section)
    requires QuietSection(h, b, i, x)
    requires forall t :: t in x'.batch + x'.deferred ==> t in x.batch + x.deferred
    requires forall t :: t in b.ops ==> t in b'.ops && b'.ops[t].key == b.ops[t].key
    requires h'.queues == h.queues && h'.barriers.Keys <= h.barriers.Keys
    requires forall l :: l in h.lanes ==> l in h'.lanes && (Blocked(h.lanes[l], i) ==> Blocked(h'.lanes[l], i))
    ensures QuietSection(h', b', i, x')
  {
    forall t | t in x'.batch + x'.deferred ensures KeyQuiet(h', b', i, t) {
      assert KeyQuiet(h, b, i, t);
      if b.ops[t].key in h.queues {
        var l := h.queues[b.ops[t].key];
        assert l in h.lanes && Blocked(h.lanes[l], i);
      }
    }
  }

  lemma SendPostponed(s: State, t: Token, a: SendStep)
    requires ExclusionInv(s.ex) && PostponedInv(s) && SendEnabled(s, t, a)
    ensures PostponedInv(SendApply(s, t, a))
  {
    var s' := SendApply(s, t, a);
    if s.ex.active.Some? && !s.sig.stopped {
      var i := s.ex.active.value;
      SendKeepsBarriers(s, t, a, i);
      SameKeys(s.host, s'.host, s.book, s'.book, i, s.ex.sections[i], s'.ex.sections[i]);
    }
  }

  lemma WorkerKeys(s: State, l: LaneId, a: WorkerStep)
    requires WorkerEnabled(s, l, a)
    ensures forall t :: t in s.book.ops ==>
              t in WorkerApply(s, l, a).book.ops && WorkerApply(s, l, a).book.ops[t].key == s.book.ops[t].key
    ensures forall i :: i in s.ex.sections ==>
              && i in WorkerApply(s, l, a).ex.sections
              && WorkerApply(s, l, a).ex.sections[i].batch == s.ex.sections[i].batch
              && WorkerApply(s, l, a).ex.sections[i].deferred == s.ex.sections[i].deferred
  {
  }

  lemma WorkerPostponed(s: State, l: LaneId, a: WorkerStep)
    requires ExclusionInv(s.ex) && PostponedInv(s) && WorkerEnabled(s, l, a)
    ensures PostponedInv(WorkerApply(s, l, a))
  {
    var s' := WorkerApply(s, l, a);
    if s.ex.active.Some? && !s.sig.stopped {
      var i := s.ex.active.value;
      assert SectionFace(s.ex, i);
      WorkerKeepsBarriers(s, l, a, i);
      WorkerKeys(s, l, a);
      SameKeys(s.host, s'.host, s.book, s'.book, i, s.ex.sections[i], s'.ex.sections[i]);
    }
  }

  lemma CreatePostponed(s: State, key: RoutingKey, newId: LaneId)
    requires MapInv(s.host) && ExclusionInv(s.ex) && PostponedInv(s) && CanGet(s, key, newId) && !Live(s, key)
    ensures PostponedInv(Create(s, key, newId))
  {
    var s' := Create(s, key, newId);
    CreateMap(s, key, newId);
    CreatedIsBlocked(s, key);
    if s.ex.active.Some? && !s.sig.stopped {
      var i := s.ex.active.value;
      forall t | t in s'.ex.sections[i].batch + s'.ex.sections[i].deferred ensures KeyQuiet(s'.host, s'.book, i, t) {
        assert KeyQuiet(s.host, s.book, i, t);
      }
    }
  }

  lemma ProducerPostponed(s: State, t: Token, a: ProducerStep)
    requires MapInv(s.host) && ExclusionInv(s.ex) && PostponedInv(s) && ProducerEnabled(s, t, a)
    ensures PostponedInv(ProducerApply(s, t, a))
  {
    var s' := ProducerApply(s, t, a);
    var s1 := if a.Lookup? && !Live(s, s.book.ops[t].key) then Create(s, s.book.ops[t].key, a.newId) else s;
    if a.Lookup? && !Live(s, s.book.ops[t].key) {
      CreatePostponed(s, s.book.ops[t].key, a.newId);
    }
    if s.ex.active.Some? && !s.sig.stopped {
      var i := s.ex.active.value;
      SameKeys(s1.host, s'.host, s1.book, s'.book, i, s1.ex.sections[i], s'.ex.sections[i]);
    }
  }

  lemma PostponePostponed(s: State, t: Token)
    requires MapInv(s.host) && ExclusionInv(s.ex) && PostponedInv(s) && s.ex.active.Some?
    requires HandoffEnabled(s, t, CleanupWithoutLane) && TryOffLane(s, t) == PostponeTo(s, t, s.ex.active.value)
    requires !s.host.stopping && !Live(s, s.book.ops[t].key) && s.book.ops[t].key !in s.host.barriers
    ensures PostponedInv(PostponeTo(s, t, s.ex.active.value))
  {
    var i := s.ex.active.value;
    var s' := PostponeTo(s, t, i);
    if s.book.ops[t].key in s.host.queues {
      MappedIsLive(s, s.book.ops[t].key);
    }
    if !s.sig.stopped {
      forall u | u in s'.ex.sections[i].batch + s'.ex.sections[i].deferred ensures KeyQuiet(s'.host, s'.book, i, u) {
        assert u == t || KeyQuiet(s.host, s.book, i, u);
      }
    }
  }

  lemma HandoffPostponed(s: State, t: Token, a: HandoffStep)
    requires MapInv(s.host) && ExclusionInv(s.ex) && OpsInv(s) && PostponedInv(s) && HandoffEnabled(s, t, a)
    ensures PostponedInv(HandoffApply(s, t, a))
  {
    var s' := HandoffApply(s, t, a);
    assert OpFace(s.host, s.sig, t, s.book.ops[t]);
    if s.ex.active.Some? && !s.sig.stopped {
      var i := s.ex.active.value;
      if a.CleanupWithoutLane? && s'.book.ops[t].pc.Postponed? {
        PostponePostponed(s, t);
      } else {
        if a.EnqueueRelease? && !Refuses(s.host.lanes[s.book.ops[t].pc.lane]) {
          EnqueueKeepsBarriers(s.host.lanes[s.book.ops[t].pc.lane], Release(t), false, i);
        }
        HandoffKeys(s, t, a);
        SameKeys(s.host, s'.host, s.book, s'.book, i, s.ex.sections[i], s'.ex.sections[i]);
      }
    }
  }

  lemma HandoffKeys(s: State, t: Token, a: HandoffStep)
    requires HandoffEnabled(s, t, a) && s.ex.active.Some? && !StopPhase(s.book.ops[t].pc)
    requires !(a.CleanupWithoutLane? && HandoffApply(s, t, a).book.ops[t].pc.Postponed?)
    ensures HandoffApply(s, t, a).ex == s.ex && HandoffApply(s, t, a).host.barriers.Keys <= s.host.barriers.Keys
    ensures forall u :: u in s.book.ops ==>
              u in HandoffApply(s, t, a).book.ops && HandoffApply(s, t, a).book.ops[u].key == s.book.ops[u].key
    ensures forall l :: l in s.host.lanes ==> l in HandoffApply(s, t, a).host.lanes
    ensures !a.EnqueueRelease? ==> HandoffApply(s, t, a).host.lanes == s.host.lanes
    ensures a.EnqueueRelease? ==> forall l :: l in s.host.lanes && l != s.book.ops[t].pc.lane ==>
              HandoffApply(s, t, a).host.lanes[l] == s.host.lanes[l]
  {
  }

  lemma SectionPostponed(s: State, i: SectionId, a: SectionStep)
    requires ExclusionInv(s.ex) && PostponedInv(s) && SectionEnabled(s, i, a)
    ensures PostponedInv(SectionApply(s, i, a))
  {
    var s' := SectionApply(s, i, a);
    assert i in s.ex.sections ==> SectionFace(s.ex, i);
    if s'.ex.active.Some? && !s.sig.stopped {
      var j := s'.ex.active.value;
      if a.Install? {
        assert s'.ex.sections[i].batch + s'.ex.sections[i].deferred == [];
      } else {
        SectionKeys(s, i, a, j);
        SameKeys(s.host, s'.host, s.book, s'.book, j, s.ex.sections[j], s'.ex.sections[j]);
      }
    }
  }

  lemma SectionKeys(s: State, i: SectionId, a: SectionStep, j: SectionId)
    requires ExclusionInv(s.ex) && SectionEnabled(s, i, a) && !a.Install? && SectionApply(s, i, a).ex.active == Some(j)
    ensures s.ex.active == Some(j)
    ensures var s' := SectionApply(s, i, a);
            && j in s'.ex.sections
            && (forall t :: t in s'.ex.sections[j].batch + s'.ex.sections[j].deferred ==>
                  t in s.ex.sections[j].batch + s.ex.sections[j].deferred)
            && (forall t :: t in s.book.ops ==> t in s'.book.ops && s'.book.ops[t].key == s.book.ops[t].key)
            && (forall l :: l in s.host.lanes ==>
                  l in s'.host.lanes && (Blocked(s.host.lanes[l], j) ==> Blocked(s'.host.lanes[l], j)))
  {
    forall l | l in s.host.lanes && Blocked(s.host.lanes[l], j)
      ensures l in SectionApply(s, i, a).host.lanes && Blocked(SectionApply(s, i, a).host.lanes[l], j)
    {
      SectionKeepsBlocked(s, i, a, l, j);
    }
    SectionBook(s, i, a);
  }

  lemma StepPostponed(s: State, a: Step)
    requires BaseInv(s) && ExclusionInv(s.ex) && OpsInv(s) && PostponedInv(s) && Enabled(s, a)
    ensures PostponedInv(Apply(s, a))
  {
    match a
    case OfProducer(t, o) => ProducerPostponed(s, t, o);
    case OfSend(t, o) => SendPostponed(s, t, o);
    case OfHandoff(t, o) => HandoffPostponed(s, t, o);
    case OfWorker(l, w) => WorkerPostponed(s, l, w);
    case OfLoop(r) => LoopPostponed(s, r);
    case OfSection(i, m) => SectionPostponed(s, i, m);
    case OfStop(k, c) => StopPostponed(s, k, c);
  }

  lemma LoopPostponed(s: State, a: LoopStep)
    requires SignalInv(s) && PostponedInv(s) && LoopEnabled(s, a)
    ensures PostponedInv(LoopApply(s, a))
  {
    if s.ex.active.Some? {
      assert LoopApply(s, a).host == s.host;
    }
  }

  lemma StopPostponed(s: State, k: StopId, a: StopStep)
    requires ExclusionInv(s.ex) && PostponedInv(s) && StopEnabled(s, k, a)
    ensures PostponedInv(StopApply(s, k, a))
  {
    var s' := StopApply(s, k, a);
    if s.ex.active.Some? && !s'.sig.stopped {
      var i := s.ex.active.value;
      SameKeys(s.host, s'.host, s.book, s'.book, i, s.ex.sections[i], s'.ex.sections[i]);
    }
  }
}
