/** One dispatcher lane: the keyQueue of strategy.go and the worker that drains it.

    A lane has a bounded channel `ch` fed by producers that hold the read side of `gate`, and
    an unbounded mandatory backlog of handle releases and section barriers. Every function below
    is one critical section (or one atomic action) of the lane; `LaneInv` is kept by all of them.

    Three fields are auxiliary and decide nothing: `Lane.accepted` lists every task the channel
    ever took, in send order; `Entry.after` says how many of them came before the entry and
    `Entry.racers` which producers were already past the backlog fence when it was enqueued. */
module Lanes {
  type Token = int        // one public operation (its task and, later, its handle release)
  type SectionId = int    // one Exclusive call

  datatype KeyKind = Account | AccountGroup | EngineWide
  datatype RoutingKey = RoutingKey(kind: KeyKind, id: int)

  datatype Work = Barrier(section: SectionId) | Release(token: Token)

  datatype Entry = Entry(work: Work, cutoff: int, target: int, fenced: bool, after: int,
                         racers: set<Token>)

  datatype Worker =
    | NotStarted
    | Polling                                  // about to look at the backlog
    | Selecting                                // blocked in the worker's select
    | Task(token: Token, aborted: bool)        // handling a channel task
    | Settling                                 // done with a channel task, about to settle it
    | Mandatory(token: Token)            // handling a handle release, which a hard stop does not change
    | Offering(section: SectionId)             // barrier offers itself to the section
    | Parked(section: SectionId)               // barrier counted by the section
    | Refused(section: SectionId)              // barrier aborted by a hard stop, still holding
    | Emptying                                 // saw quit, emptying the channel
    | Exited

  datatype Lane = Lane(
    key: RoutingKey,
    capacity: int,
    ch: seq<Token>,
    backlog: seq<Entry>,
    gate: set<Token>,              // producers holding the read side of the gate
    gateLocked: bool,              // the idle scan holds the write side
    cleared: set<Token>,           // producers past waitForMandatoryCleanup, not yet admitted
    inflight: map<Token, int>,     // admitted producers and their tickets
    admitted: int,
    settled: int,
    pending: int,
    closed: bool,
    retired: bool,
    sawEnd: bool,
    worker: Worker,
    accepted: seq<Token>)

  function NewLane(key: RoutingKey, capacity: int): Lane {
    Lane(key, capacity, [], [], {}, false, {}, map[], 0, 0, 0, false, false, false, NotStarted, [])
  }

  /** The work the lane has accepted and not finished, oldest first. */
  function AcceptedWork(q: Lane): seq<Token> {
    (if q.worker.Task? then [q.worker.token] else []) + q.ch
  }

  /** How many accepted tasks have been handled. */
  function Served(q: Lane): int {
    |q.accepted| - |AcceptedWork(q)|
  }

  predicate Busy(q: Lane) {
    q.worker.Task? || q.worker.Mandatory? || AtBarrier(q)
  }

  predicate AtBarrier(q: Lane) {
    q.worker.Offering? || q.worker.Parked? || q.worker.Refused?
  }

  // ----- Producers: submitToRegisteredQueue and sendToQueue -----

  function EnterGate(q: Lane, t: Token): Lane
    requires !q.gateLocked && !q.closed
  {
    q.(gate := q.gate + {t})
  }

  function LeaveGate(q: Lane, t: Token): Lane {
    q.(gate := q.gate - {t}, cleared := q.cleared - {t})
  }

  /** waitForMandatoryCleanup lets a producer through: the lane owes no handle release, or the
      first one owed waits for the producers registered before the stop. */
  predicate FenceOpen(backlog: seq<Entry>, stopped: bool) {
    backlog != [] ==>
      if backlog[0].work.Release? then backlog[0].fenced && stopped else FenceOpen(backlog[1..], stopped)
  }

  function PassFence(q: Lane, t: Token, stopped: bool): Lane
    requires t in q.gate && FenceOpen(q.backlog, stopped)
  {
    q.(cleared := q.cleared + {t})
  }

  /** admitTask */
  function Admit(q: Lane, t: Token): Lane
    requires t in q.cleared && t !in q.inflight
  {
    q.(cleared := q.cleared - {t}, admitted := q.admitted + 1, pending := q.pending + 1,
       inflight := q.inflight[t := q.admitted + 1])
  }

  /** A successful channel send, and the producer leaving the gate. */
  function Send(q: Lane, t: Token): Lane
    requires t in q.inflight && |q.ch| < q.capacity
  {
    q.(ch := q.ch + [t], accepted := q.accepted + [t], inflight := q.inflight - {t}, gate := q.gate - {t})
  }

  /** unmarkSent: the admission is settled, and entries admitted earlier discount it. */
  function Abandon(q: Lane, t: Token): Lane
    requires t in q.inflight
  {
    q.(settled := q.settled + 1, pending := q.pending - 1,
       backlog := RaiseTargets(q.backlog, q.inflight[t]),
       inflight := q.inflight - {t}, gate := q.gate - {t})
  }

  function RaiseTargets(backlog: seq<Entry>, ticket: int): (r: seq<Entry>)
    ensures |r| == |backlog|
    ensures forall i :: 0 <= i < |r| ==>
              r[i] == if ticket > backlog[i].cutoff then backlog[i].(target := backlog[i].target + 1) else backlog[i]
  {
    seq(|backlog|, i requires 0 <= i < |backlog| =>
      if ticket > backlog[i].cutoff then backlog[i].(target := backlog[i].target + 1) else backlog[i])
  }

  // ----- The mandatory backlog: enqueueMandatory and takeMandatoryCleanup -----

  function Racers(q: Lane): set<Token> {
    q.cleared + q.inflight.Keys
  }

  predicate Refuses(q: Lane) {
    q.retired || q.worker.Exited?
  }

  function Enqueue(q: Lane, work: Work, fenced: bool): Lane
    requires !Refuses(q)
  {
    q.(pending := q.pending + 1,
       backlog := q.backlog + [Entry(work, q.admitted, q.admitted, fenced, |q.accepted|, Racers(q))])
  }

  /** The head entry as takeMandatoryCleanup sees it: once the submit fence is closed, a fenced
      entry moves its cutoff up to everything admitted by then. */
  function Head(q: Lane, fence: bool): Entry
    requires q.backlog != []
  {
    var e := q.backlog[0];
    if e.fenced && fence
    then Entry(e.work, q.admitted, q.admitted, false, |q.accepted|, Racers(q))
    else e
  }

  predicate Ready(q: Lane, fence: bool) {
    && q.backlog != []
    && (q.backlog[0].fenced ==> fence)
    && Head(q, fence).target <= q.settled
  }

  function Take(q: Lane, fence: bool, hard: bool): Lane
    requires q.worker.Polling? && Ready(q, fence)
  {
    var next := match q.backlog[0].work
      case Barrier(i) => if hard then Refused(i) else Offering(i)
      case Release(t) => Mandatory(t);
    q.(backlog := q.backlog[1..], worker := next)
  }

  /** The backlog has nothing to run yet: the worker goes to its select, unless its lane has
      ended, in which case it keeps waiting for the backlog. */
  function PollMiss(q: Lane, fence: bool): Lane
    requires q.worker.Polling? && !Ready(q, fence)
  {
    var refreshed := if q.backlog == [] then [] else [Head(q, fence)] + q.backlog[1..];
    q.(backlog := refreshed, worker := if q.sawEnd then Polling else Selecting)
  }

  // ----- The worker -----

  function Start(q: Lane): Lane
    requires q.worker.NotStarted?
  {
    q.(worker := Polling)
  }

  function Wake(q: Lane): Lane
    requires q.worker.Selecting?
  {
    q.(worker := Polling)
  }

  function Receive(q: Lane, hard: bool): Lane
    requires q.worker.Selecting? && q.ch != []
  {
    q.(worker := Task(q.ch[0], hard), ch := q.ch[1..])
  }

  /** The select observes the closed channel. */
  function SeeClosed(q: Lane): Lane
    requires q.worker.Selecting? && q.closed && !q.retired && q.ch == []
  {
    q.(worker := Polling, sawEnd := true)
  }

  /** The select observes quit and starts drainAndAbort. */
  function SeeQuit(q: Lane): Lane
    requires q.worker.Selecting? && q.retired
  {
    q.(worker := Emptying, sawEnd := true)
  }

  function DrainOne(q: Lane): Lane
    requires q.worker.Emptying? && q.ch != []
  {
    q.(ch := q.ch[1..], pending := q.pending - 1, settled := q.settled + 1)
  }

  function DrainEnd(q: Lane): Lane
    requires q.worker.Emptying? && q.ch == []
  {
    q.(worker := Polling)
  }

  /** handleTask has run or aborted a channel task. */
  function FinishTask(q: Lane): Lane
    requires q.worker.Task?
  {
    q.(worker := Settling, pending := q.pending - 1)
  }

  /** settle, which follows it */
  function Settle(q: Lane): Lane
    requires q.worker.Settling?
  {
    q.(worker := Polling, settled := q.settled + 1)
  }

  function FinishMandatory(q: Lane): Lane
    requires q.worker.Mandatory?
  {
    q.(worker := Polling, pending := q.pending - 1)
  }

  function Park(q: Lane): Lane
    requires q.worker.Offering?
  {
    q.(worker := Parked(q.worker.section))
  }

  function PassBarrier(q: Lane): Lane
    requires AtBarrier(q)
  {
    q.(worker := Polling, pending := q.pending - 1)
  }

  /** finishWorker */
  function FinishWorker(q: Lane): Lane
    requires q.worker.Polling? && q.sawEnd && q.backlog == []
  {
    q.(worker := Exited)
  }

  // ----- Stop and idle retirement -----

  /** closeQueueChannels for one queue. */
  function Close(q: Lane): Lane
    requires q.gate == {} && !q.gateLocked
  {
    q.(closed := true)
  }

  /** retireIfIdle up to and including its second look at `pending`, under the gate. */
  function LockIdle(q: Lane): Lane
    requires q.gate == {} && !q.gateLocked && q.pending == 0 && q.ch == []
  {
    q.(gateLocked := true)
  }

  function Unlock(q: Lane): Lane
    requires q.gateLocked
  {
    q.(gateLocked := false)
  }

  /** The rest of retireIfIdle once markRetired has accepted. markRetired looks only at the
      backlog. */
  function Seal(q: Lane): Lane
    requires q.gateLocked && q.backlog == []
  {
    q.(retired := true, closed := true, gateLocked := false)
  }

  // ----- The lane invariant -----

  ghost function Below(inflight: map<Token, int>, cutoff: int): set<Token> {
    set t | t in inflight && inflight[t] <= cutoff
  }

  ghost function Above(inflight: map<Token, int>, cutoff: int): set<Token> {
    set t | t in inflight && inflight[t] > cutoff
  }

  /** The settlements so far, with the one that a worker is about to make. */
  function SettledSoon(q: Lane): int {
    q.settled + if q.worker.Settling? then 1 else 0
  }

  /** While accepted work from before an entry is unhandled, the entry's target stays out of
      reach; and it never asks for more settlements than the admissions so far can deliver. */
  ghost predicate EntryInv(q: Lane, e: Entry) {
    && e.cutoff <= q.admitted
    && 0 <= e.after <= |q.accepted|
    && (e.after > Served(q) ==>
          SettledSoon(q) + (e.after - Served(q)) + |Below(q.inflight, e.cutoff)| <= e.target)
    && e.target + |Above(q.inflight, e.cutoff)| <= q.admitted
  }

  ghost predicate CountInv(q: Lane) {
    && 0 <= q.settled && q.admitted == SettledSoon(q) + |AcceptedWork(q)| + |q.inflight|
    && Served(q) >= 0 && AcceptedWork(q) == q.accepted[Served(q)..]
    && q.pending == |q.ch| + |q.inflight| + |q.backlog| + (if Busy(q) then 1 else 0)
    && q.inflight.Keys <= q.gate && q.cleared <= q.gate && q.cleared !! q.inflight.Keys
    && (forall t :: t in q.inflight ==> q.inflight[t] <= q.admitted)
  }

  ghost predicate PhaseInv(q: Lane) {
    && (q.gateLocked ==> q.gate == {} && !q.closed && q.ch == [] && !q.worker.Task?)
    && (q.closed ==> q.gate == {})
    && (q.retired ==> q.closed && q.ch == [] && q.backlog == [] && !q.worker.Task?)
    && (q.sawEnd ==> q.closed && q.ch == [] && !q.worker.Task? && !q.worker.Selecting?)
    && (q.worker.Emptying? ==> q.sawEnd)
    && (q.worker.Exited? ==> q.sawEnd && q.backlog == [])
  }

  ghost predicate LaneInv(q: Lane) {
    && CountInv(q)
    && PhaseInv(q)
    && (forall i :: 0 <= i < |q.backlog| ==> EntryInv(q, q.backlog[i]))
  }

  lemma NewLaneInv(key: RoutingKey, capacity: int)
    ensures LaneInv(NewLane(key, capacity))
  {
  }

  /** Removing one admitted producer removes it from exactly one side of a cutoff. */
  lemma DropTicket(inflight: map<Token, int>, t: Token, cutoff: int)
    requires t in inflight
    ensures |inflight - {t}| == |inflight| - 1
    ensures |Below(inflight - {t}, cutoff)| == |Below(inflight, cutoff)| - (if inflight[t] <= cutoff then 1 else 0)
    ensures |Above(inflight - {t}, cutoff)| == |Above(inflight, cutoff)| - (if inflight[t] > cutoff then 1 else 0)
  {
    assert (inflight - {t}).Keys == inflight.Keys - {t};
    if inflight[t] <= cutoff {
      assert Below(inflight - {t}, cutoff) == Below(inflight, cutoff) - {t};
      assert Above(inflight - {t}, cutoff) == Above(inflight, cutoff);
    } else {
      assert Below(inflight - {t}, cutoff) == Below(inflight, cutoff);
      assert Above(inflight - {t}, cutoff) == Above(inflight, cutoff) - {t};
    }
  }

  lemma AddTicket(inflight: map<Token, int>, t: Token, ticket: int, cutoff: int)
    requires t !in inflight && cutoff < ticket
    ensures |inflight[t := ticket]| == |inflight| + 1
    ensures Below(inflight[t := ticket], cutoff) == Below(inflight, cutoff)
    ensures |Above(inflight[t := ticket], cutoff)| == |Above(inflight, cutoff)| + 1
  {
    var m := inflight[t := ticket];
    assert m.Keys == inflight.Keys + {t};
    assert Above(m, cutoff) == Above(inflight, cutoff) + {t};
    forall x ensures x in Below(m, cutoff) <==> x in Below(inflight, cutoff) {}
  }

  /** At the admission count every producer in flight is below the cutoff. */
  lemma AllBelow(q: Lane)
    requires CountInv(q)
    ensures |Below(q.inflight, q.admitted)| == |q.inflight|
    ensures Above(q.inflight, q.admitted) == {}
  {
    forall t | t in q.inflight.Keys ensures t in Below(q.inflight, q.admitted) {}
    assert Below(q.inflight, q.admitted) == q.inflight.Keys;
  }

  lemma AdmitCounts(q: Lane, t: Token)
    requires LaneInv(q) && t in q.cleared && t !in q.inflight
    ensures CountInv(Admit(q, t)) && PhaseInv(Admit(q, t))
  {
    AddTicket(q.inflight, t, q.admitted + 1, 0);
    assert AcceptedWork(Admit(q, t)) == AcceptedWork(q);
  }

  lemma AdmitInv(q: Lane, t: Token)
    requires LaneInv(q) && t in q.cleared && t !in q.inflight
    ensures LaneInv(Admit(q, t))
  {
    AdmitCounts(q, t);
    forall i | 0 <= i < |q.backlog| ensures EntryInv(Admit(q, t), q.backlog[i]) {
      assert EntryInv(q, q.backlog[i]);
      AddTicket(q.inflight, t, q.admitted + 1, q.backlog[i].cutoff);
    }
  }

  lemma SendInv(q: Lane, t: Token)
    requires LaneInv(q) && t in q.inflight && |q.ch| < q.capacity
    ensures LaneInv(Send(q, t))
  {
    DropTicket(q.inflight, t, 0);
    assert AcceptedWork(Send(q, t)) == AcceptedWork(q) + [t];
    forall i | 0 <= i < |q.backlog| ensures EntryInv(Send(q, t), q.backlog[i]) {
      assert EntryInv(q, q.backlog[i]);
      DropTicket(q.inflight, t, q.backlog[i].cutoff);
    }
  }

  lemma AbandonInv(q: Lane, t: Token)
    requires LaneInv(q) && t in q.inflight
    ensures LaneInv(Abandon(q, t))
  {
    DropTicket(q.inflight, t, 0);
    var q' := Abandon(q, t);
    forall i | 0 <= i < |q'.backlog| ensures EntryInv(q', q'.backlog[i]) {
      assert EntryInv(q, q.backlog[i]);
      DropTicket(q.inflight, t, q.backlog[i].cutoff);
    }
  }

  lemma EnqueueInv(q: Lane, work: Work, fenced: bool)
    requires LaneInv(q) && !Refuses(q) 
    ensures LaneInv(Enqueue(q, work, fenced))
  {
    AllBelow(q);
    var q' := Enqueue(q, work, fenced);
    forall i | 0 <= i < |q'.backlog| ensures EntryInv(q', q'.backlog[i]) {
      if i < |q.backlog| {
        assert EntryInv(q, q.backlog[i]);
      }
    }
  }

  lemma HeadInv(q: Lane, fence: bool)
    requires LaneInv(q) && q.backlog != []
    ensures EntryInv(q, Head(q, fence))
  {
    AllBelow(q);
    assert EntryInv(q, q.backlog[0]);
  }

  /** The ordering theorem: an entry leaves the backlog only when every task accepted before it
      was enqueued has been handled. The unhandled tasks are the tail of `accepted` from
      `Served(q)` on, and the entry was enqueued after at most that many tasks; a fenced entry that
      goes at its first look behind the closed fence leaves nothing on the lane at all. */
  lemma TakeWaitsForAcceptedWork(q: Lane, fence: bool)
    requires LaneInv(q) && Ready(q, fence)
    ensures q.backlog[0].after <= Head(q, fence).after <= Served(q)
    ensures q.accepted == q.accepted[..Served(q)] + AcceptedWork(q)
    ensures q.backlog[0].fenced ==> fence && AcceptedWork(q) == [] && q.inflight == map[]
  {
    HeadInv(q, fence);
    assert EntryInv(q, q.backlog[0]);
    if q.backlog[0].fenced {
      assert |q.inflight| == 0;
    }
  }

  /** Its partner: once everything admitted has been settled, the head can be taken. Later
      abandoned admissions never strand it. */
  lemma SettledHeadIsReady(q: Lane, fence: bool)
    requires LaneInv(q) && q.backlog != [] && (q.backlog[0].fenced ==> fence)
    requires AcceptedWork(q) == [] && q.inflight == map[] && !q.worker.Settling?
    ensures Ready(q, fence)
  {
    HeadInv(q, fence);
  }

  lemma TakeInv(q: Lane, fence: bool, hard: bool)
    requires LaneInv(q) && q.worker.Polling? && Ready(q, fence)
    ensures LaneInv(Take(q, fence, hard))
  {
    var q' := Take(q, fence, hard);
    forall i | 0 <= i < |q'.backlog| ensures EntryInv(q', q'.backlog[i]) {
      assert EntryInv(q, q.backlog[i + 1]);
    }
  }

  /** A look that finds the head not ready keeps the invariant, and behind the closed fence it fixes what a
      fenced head waits for: everything admitted by now, and nothing admitted later. */
  lemma PollMissInv(q: Lane, fence: bool)
    requires LaneInv(q) && q.worker.Polling? && !Ready(q, fence)
    ensures LaneInv(PollMiss(q, fence))
    ensures |PollMiss(q, fence).backlog| == |q.backlog|
    ensures q.backlog != [] && q.backlog[0].fenced && fence ==>
              var e := PollMiss(q, fence).backlog[0];
              !e.fenced && e.work == q.backlog[0].work && e.cutoff == q.admitted && e.target == q.admitted
    ensures q.backlog != [] && !(q.backlog[0].fenced && fence) ==> PollMiss(q, fence).backlog == q.backlog
  {
    var q' := PollMiss(q, fence);
    if q.backlog != [] {
      HeadInv(q, fence);
    }
    forall i | 0 <= i < |q'.backlog| ensures EntryInv(q', q'.backlog[i]) {
      assert EntryInv(q, q.backlog[i]);
    }
  }

  lemma ReceiveInv(q: Lane, hard: bool)
    requires LaneInv(q) && q.worker.Selecting? && q.ch != []
    ensures LaneInv(Receive(q, hard))
  {
    var q' := Receive(q, hard);
    assert AcceptedWork(q') == AcceptedWork(q);
    forall i | 0 <= i < |q'.backlog| ensures EntryInv(q', q'.backlog[i]) {
      assert EntryInv(q, q.backlog[i]);
    }
  }

  lemma FinishTaskInv(q: Lane)
    requires LaneInv(q) && q.worker.Task?
    ensures LaneInv(FinishTask(q))
  {
    var q' := FinishTask(q);
    assert AcceptedWork(q') == AcceptedWork(q)[1..];
    assert AcceptedWork(q') == q.accepted[Served(q)..][1..];
    forall i | 0 <= i < |q'.backlog| ensures EntryInv(q', q'.backlog[i]) {
      assert EntryInv(q, q.backlog[i]);
    }
  }

  /** Steps that change neither the counters nor the accepted work. */
  lemma QuietStepInv(q: Lane, q': Lane)
    requires LaneInv(q)
    requires q'.backlog == q.backlog && q'.inflight == q.inflight && q'.cleared <= q'.gate
    requires q'.admitted == q.admitted && SettledSoon(q') == SettledSoon(q)
    requires AcceptedWork(q') == AcceptedWork(q) && q'.accepted == q.accepted
    requires CountInv(q') && PhaseInv(q')
    ensures LaneInv(q')
  {
    forall i | 0 <= i < |q'.backlog| ensures EntryInv(q', q'.backlog[i]) {
      assert EntryInv(q, q.backlog[i]);
    }
  }

  // ----- The other side of the ordering, until a stop is signalled -----

  /** A queued release is overtaken only by producers that were past the fence before it. */
  ghost predicate RacersInv(q: Lane) {
    forall i :: 0 <= i < |q.backlog| ==> !q.backlog[i].fenced && (q.backlog[i].work.Release? ==> Overtaken(q, q.backlog[i]))
  }

  ghost predicate Overtaken(q: Lane, e: Entry) {
    && Racers(q) <= e.racers
    && 0 <= e.after <= |q.accepted|
    && (forall t :: t in q.accepted[e.after..] ==> t in e.racers)
  }

  predicate BarriersBefore(backlog: seq<Entry>, i: nat)
    requires i <= |backlog|
  {
    forall j :: 0 <= j < i ==> backlog[j].work.Barrier?
  }

  /** The first release in the backlog decides who passes, wherever the barriers are: if there is one, it
      must be fenced and the stop signalled. */
  lemma {:induction false} FirstReleaseDecides(backlog: seq<Entry>, stopped: bool)
    ensures FenceOpen(backlog, stopped) <==>
              forall i {:trigger BarriersBefore(backlog, i)} ::
                0 <= i < |backlog| && backlog[i].work.Release? && BarriersBefore(backlog, i) ==> backlog[i].fenced && stopped
    decreases |backlog|
  {
    if backlog != [] && backlog[0].work.Barrier? {
      var rest := backlog[1..];
      FirstReleaseDecides(rest, stopped);
      forall i {:trigger BarriersBefore(backlog, i)} | 0 < i < |backlog| ensures BarriersBefore(backlog, i) <==> BarriersBefore(rest, i - 1) {
        assert forall j :: 0 < j < i ==> backlog[j] == rest[j - 1];
      }
      forall i {:trigger BarriersBefore(rest, i)} | 0 <= i < |rest| ensures BarriersBefore(backlog, i + 1) <==> BarriersBefore(rest, i) {
        assert backlog[i + 1] == rest[i];
      }
    } else {
      assert backlog != [] ==> BarriersBefore(backlog, 0);
    }
  }

  lemma {:induction false} ClosedFence(backlog: seq<Entry>, i: int)
    requires 0 <= i < |backlog| && backlog[i].work.Release?
    ensures !FenceOpen(backlog, false)
  {
    if !backlog[0].work.Release? {
      ClosedFence(backlog[1..], i - 1);
    }
  }

  /** No producer passes the fence while a release is queued, so every task accepted after the
      release was enqueued belongs to a producer that was already on its way in. */
  lemma PassFenceRacers(q: Lane, t: Token)
    requires RacersInv(q) && t in q.gate && FenceOpen(q.backlog, false)
    ensures RacersInv(PassFence(q, t, false))
  {
    forall i | 0 <= i < |q.backlog| && q.backlog[i].work.Release? ensures false {
      ClosedFence(q.backlog, i);
    }
  }

  lemma SendRacers(q: Lane, t: Token)
    requires RacersInv(q) && t in q.inflight && |q.ch| < q.capacity
    ensures RacersInv(Send(q, t))
  {
    var q' := Send(q, t);
    forall i | 0 <= i < |q'.backlog| && q'.backlog[i].work.Release?
      ensures forall x :: x in q'.accepted[q'.backlog[i].after..] ==> x in q'.backlog[i].racers
    {
      assert q'.accepted[q'.backlog[i].after..] == q.accepted[q.backlog[i].after..] + [t];
    }
  }

  lemma EnqueueRacers(q: Lane, work: Work)
    requires RacersInv(q) && !Refuses(q)
    ensures RacersInv(Enqueue(q, work, false))
  {
  }

  /** Steps that let nobody past the fence and accept nothing. */
  lemma QuietStepRacers(q: Lane, q': Lane)
    requires RacersInv(q) && Racers(q') <= Racers(q) && q'.accepted == q.accepted
    requires |q'.backlog| == |q.backlog|
    requires forall i :: 0 <= i < |q.backlog| ==> q'.backlog[i] == q.backlog[i].(target := q'.backlog[i].target)
    ensures RacersInv(q')
  {
    forall i | 0 <= i < |q'.backlog|
      ensures !q'.backlog[i].fenced && (q'.backlog[i].work.Release? ==> Overtaken(q', q'.backlog[i]))
    {
      assert q.backlog[i].work.Release? ==> Overtaken(q, q.backlog[i]);
    }
  }

  lemma SameBacklogRacers(q: Lane, q': Lane)
    requires RacersInv(q) && q'.backlog == q.backlog && Racers(q') <= Racers(q) && q'.accepted == q.accepted
    ensures RacersInv(q')
  {
    QuietStepRacers(q, q');
  }

  lemma TakeRacers(q: Lane, fence: bool, hard: bool)
    requires RacersInv(q) && q.worker.Polling? && Ready(q, fence)
    ensures RacersInv(Take(q, fence, hard))
  {
    var q' := Take(q, fence, hard);
    forall i | 0 <= i < |q'.backlog|
      ensures !q'.backlog[i].fenced && (q'.backlog[i].work.Release? ==> Overtaken(q', q'.backlog[i]))
    {
      assert q'.backlog[i] == q.backlog[i + 1];
      assert q.backlog[i + 1].work.Release? ==> Overtaken(q, q.backlog[i + 1]);
    }
  }

  lemma PollMissRacers(q: Lane, fence: bool)
    requires RacersInv(q) && q.worker.Polling? && !Ready(q, fence)
    ensures RacersInv(PollMiss(q, fence))
  {
    assert PollMiss(q, fence).backlog == q.backlog;
    SameBacklogRacers(q, PollMiss(q, fence));
  }

  /** drainAndAbort never finds a task: a retired lane has an empty channel. */
  lemma NothingToDrain(q: Lane)
    requires LaneInv(q) && q.worker.Emptying?
    ensures q.ch == []
  {
  }
}
