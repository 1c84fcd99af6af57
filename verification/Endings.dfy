/** What the end of an Exclusive call says about the run that led to it.

    A story is read off the steps of a run: whether the section's function was started, whether it
    panicked, and which release was the first to panic. The end that the call reports is the one
    its story calls for, whatever order the panics came in. */
module Endings {
  import opened Lanes
  import opened Dispatcher
  import opened Wrappers
  import opened LaneMap
  import opened Sections
  import opened Ownership
  import opened Safety

  datatype Story = Story(started: bool, fnPanicked: bool, firstPanic: Option<int>)

  const UNTOLD: Story := Story(false, false, None)

  /** The step is a release that section i runs and that panics. */
  predicate Panics(s: State, a: Step, i: SectionId) {
    a == OfSection(i, RunRelease(true)) && i in s.ex.sections && s.ex.sections[i].batch != []
  }

  function Heard(s: State, a: Step, i: SectionId, story: Story): Story {
    if a == OfSection(i, StartFn) then story.(started := true)
    else if a == OfSection(i, FnPanic) then story.(fnPanicked := true)
    else if Panics(s, a, i) && story.firstPanic.None? then story.(firstPanic := Some(s.ex.sections[i].batch[0]))
    else story
  }

  ghost function Told(s: State, run: seq<Step>, i: SectionId, story: Story): Story
    requires Runs(s, run)
    decreases |run|
  {
    if run == [] then story else Told(Apply(s, run[0]), run[1..], i, Heard(s, run[0], i, story))
  }

  /** The function's own panic comes first, then the first release's; otherwise the call returns,
      with the function's result if it was started. */
  function Ending(story: Story): SectionEnd {
    if story.fnPanicked then FnPanicked
    else if story.firstPanic.Some? then ReleasePanicked(story.firstPanic.value)
    else if story.started then FnReturned
    else EndedEarly
  }

  predicate Matches(e: Exclusion, i: SectionId, story: Story) {
    if i !in e.sections then story == UNTOLD
    else
      var x := e.sections[i];
      && x.fnStarted == story.started && x.panicked == story.firstPanic
      && (x.fnRunning <==> story.fnPanicked || x.pc.RunningFn?)
      && (x.pc.RunningFn? ==> !story.fnPanicked)
      && (x.end != Unfinished ==> x.end == Ending(story))
      && (i in e.freed ==> x.end != Unfinished)
  }

  /** Nothing that the story depends on has changed. */
  predicate SameTale(e: Exclusion, e': Exclusion, i: SectionId) {
    && (i in e.sections <==> i in e'.sections) && e'.freed == e.freed
    && (i in e.sections ==>
          var x, x' := e.sections[i], e'.sections[i];
          x'.fnStarted == x.fnStarted && x'.panicked == x.panicked && x'.fnRunning == x.fnRunning
          && x'.pc == x.pc && x'.end == x.end)
  }

  predicate Speaks(a: SectionStep) {
    a.StartFn? || a.FnReturn? || a.FnPanic? || a.RunRelease? || a.Withdraw?
  }

  /** The steps that tell the story. */
  lemma SpokenStory(s: State, i: SectionId, a: SectionStep, story: Story)
    requires ExclusionInv(s.ex) && SectionEnabled(s, i, a) && Matches(s.ex, i, story) && Speaks(a)
    ensures Matches(SectionApply(s, i, a).ex, i, Heard(s, OfSection(i, a), i, story))
  {
    assert SectionFace(s.ex, i);
  }

  /** The other steps of the section. */
  lemma SilentStory(s: State, i: SectionId, a: SectionStep, story: Story)
    requires ExclusionInv(s.ex) && SectionEnabled(s, i, a) && Matches(s.ex, i, story) && !Speaks(a)
    ensures Matches(SectionApply(s, i, a).ex, i, story)
  {
    assert !a.Arrive? ==> SectionFace(s.ex, i);
  }

  lemma OtherSectionStory(s: State, j: SectionId, a: SectionStep, i: SectionId, story: Story)
    requires i != j && SectionEnabled(s, j, a) && Matches(s.ex, i, story)
    ensures Matches(SectionApply(s, j, a).ex, i, story)
  {
    var e' := SectionApply(s, j, a).ex;
    assert i in s.ex.sections <==> i in e'.sections;
    assert i in s.ex.sections ==> e'.sections[i] == s.ex.sections[i];
    assert i in e'.freed <==> i in s.ex.freed;
  }

  lemma SectionStory(s: State, j: SectionId, a: SectionStep, i: SectionId, story: Story)
    requires ExclusionInv(s.ex) && SectionEnabled(s, j, a) && Matches(s.ex, i, story)
    ensures Matches(SectionApply(s, j, a).ex, i, Heard(s, OfSection(j, a), i, story))
  {
    if j != i {
      OtherSectionStory(s, j, a, i, story);
    } else if Speaks(a) {
      SpokenStory(s, i, a, story);
    } else {
      SilentStory(s, i, a, story);
    }
  }

  lemma ProducerTale(s: State, t: Token, a: ProducerStep, i: SectionId)
    requires ProducerEnabled(s, t, a)
    ensures SameTale(s.ex, ProducerApply(s, t, a).ex, i)
  {
  }

  lemma HandoffTale(s: State, t: Token, a: HandoffStep, i: SectionId)
    requires HandoffEnabled(s, t, a)
    ensures SameTale(s.ex, HandoffApply(s, t, a).ex, i)
  {
  }

  lemma WorkerTale(s: State, l: LaneId, a: WorkerStep, i: SectionId)
    requires WorkerEnabled(s, l, a)
    ensures SameTale(s.ex, WorkerApply(s, l, a).ex, i)
  {
  }

  /** No goroutine outside the sections changes what a story depends on. */
  lemma OutsideTale(s: State, a: Step, i: SectionId)
    requires Enabled(s, a) && !a.OfSection?
    ensures SameTale(s.ex, Apply(s, a).ex, i)
  {
    match a
    case OfProducer(t, o) => ProducerTale(s, t, o, i);
    case OfSend(t, o) => assert SendApply(s, t, o).ex == s.ex;
    case OfHandoff(t, o) => HandoffTale(s, t, o, i);
    case OfWorker(l, w) => WorkerTale(s, l, w, i);
    case OfLoop(r) => assert LoopApply(s, r).ex == s.ex;
    case OfStop(k, c) => assert StopApply(s, k, c).ex == s.ex;
  }

  lemma StepStory(s: State, a: Step, i: SectionId, story: Story)
    requires ExclusionInv(s.ex) && Enabled(s, a) && Matches(s.ex, i, story)
    ensures Matches(Apply(s, a).ex, i, Heard(s, a, i, story))
  {
    if a.OfSection? {
      SectionStory(s, a.section, a.move, i, story);
    } else {
      OutsideTale(s, a, i);
    }
  }

  lemma {:induction false} RunStory(s: State, run: seq<Step>, i: SectionId, story: Story)
    requires Inv(s) && Runs(s, run) && Matches(s.ex, i, story)
    ensures Inv(After(s, run)) && Matches(After(s, run).ex, i, Told(s, run, i, story))
    decreases |run|
  {
    if run != [] {
      StepInv(s, run[0]);
      StepStory(s, run[0], i, story);
      RunStory(Apply(s, run[0]), run[1..], i, Heard(s, run[0], i, story));
    }
  }

  /** The first release of section i that panics in the run is t's. */
  ghost predicate FirstPanic(s: State, run: seq<Step>, i: SectionId, t: Token)
    requires Runs(s, run)
    decreases |run|
  {
    run != [] &&
    if Panics(s, run[0], i) then s.ex.sections[i].batch[0] == t
    else FirstPanic(Apply(s, run[0]), run[1..], i, t)
  }

  lemma {:induction false} StoryIsTheRuns(s: State, run: seq<Step>, i: SectionId, story: Story)
    requires Runs(s, run)
    ensures var told := Told(s, run, i, story);
            && (told.started <==> story.started || OfSection(i, StartFn) in run)
            && (told.fnPanicked <==> story.fnPanicked || OfSection(i, FnPanic) in run)
            && (story.firstPanic.Some? ==> told.firstPanic == story.firstPanic)
            && (story.firstPanic.None? ==> forall t :: told.firstPanic == Some(t) <==> FirstPanic(s, run, i, t))
    decreases |run|
  {
    if run != [] {
      assert run == [run[0]] + run[1..];
      StoryIsTheRuns(Apply(s, run[0]), run[1..], i, Heard(s, run[0], i, story));
    }
  }

  /** In every run, once a section has let its lanes go it has an end, and the end says what
      happened: fn's panic is never replaced by a release's, a release's panic is reported only if
      fn did not panic and then it is the first, and a call that ended early never started fn. */
  lemma SectionEndIsHonest(s: State, run: seq<Step>, i: SectionId)
    requires Init(s) && Runs(s, run) && i in After(s, run).ex.sections
    ensures var end := After(s, run).ex.sections[i].end;
            && (i in After(s, run).ex.freed ==> end != Unfinished)
            && (end != Unfinished ==>
                  && (end == FnPanicked <==> OfSection(i, FnPanic) in run)
                  && (forall t :: end == ReleasePanicked(t) <==> FirstPanic(s, run, i, t) && OfSection(i, FnPanic) !in run)
                  && (end == EndedEarly ==> OfSection(i, StartFn) !in run)
                  && (end == FnReturned ==> OfSection(i, StartFn) in run))
  {
    InitInv(s);
    RunStory(s, run, i, UNTOLD);
    StoryIsTheRuns(s, run, i, UNTOLD);
  }

  /** Nothing postponed is left behind: a section that has an end, or has let its lanes go, owns no
      release. */
  lemma NothingLeftPostponed(s: State, run: seq<Step>, i: SectionId, t: Token)
    requires Init(s) && Runs(s, run) && i in After(s, run).ex.sections
    requires After(s, run).ex.sections[i].end != Unfinished || i in After(s, run).ex.freed
    ensures PcOf(After(s, run).book, t) != Postponed(i)
  {
    InitInv(s);
    RunInv(s, run);
    EndedOwnsNothing(After(s, run), i, t);
  }

  lemma EndedOwnsNothing(s: State, i: SectionId, t: Token)
    requires ExclusionInv(s.ex) && OwnInv(s) && i in s.ex.sections
    requires s.ex.sections[i].end != Unfinished || i in s.ex.freed
    ensures PcOf(s.book, t) != Postponed(i)
  {
    assert SectionFace(s.ex, i);
    assert SectionOwns(s.ex.sections[i], i, t, PcOf(s.book, t));
  }
}
