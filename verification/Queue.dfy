/** The keyQueue of strategy.go as the object it is, with one method per critical section.

    Every method leaves the object with the fields that its step of Lanes says, and keeps the lane
    invariant; `lane` is the ghost value that the step functions talk about. */
module Queues {
  import opened Lanes

  /** submitFailureCleanupEntry */
  datatype Cleanup = Cleanup(work: Work, admittedCutoff: int, settleTarget: int, waitSubmitFence: bool)

  function Stored(e: Entry): Cleanup {
    Cleanup(e.work, e.cutoff, e.target, e.fenced)
  }

  ghost predicate Stores(mandatory: seq<Cleanup>, backlog: seq<Entry>) {
    && |mandatory| == |backlog|
    && forall i :: 0 <= i < |backlog| ==> mandatory[i] == Stored(backlog[i])
  }

  /** The backlog after takeMandatoryCleanup has refreshed its head. */
  function Refreshed(q: Lane, fence: bool): seq<Entry> {
    if q.backlog == [] then [] else [Head(q, fence)] + q.backlog[1..]
  }

  /** A poll changes only the backlog and where the worker is. */
  lemma PolledLane(q: Lane, fence: bool, hard: bool)
    requires LaneInv(q) && q.worker.Polling?
    ensures Ready(q, fence) ==> var p := Take(q, fence, hard);
      (LaneInv(p) && p == q.(backlog := Refreshed(q, fence)[1..], worker := p.worker) && !p.worker.Exited?
       && Head(q, fence).after <= Served(q) && q.backlog[0].after <= Served(p))
    ensures !Ready(q, fence) ==> var p := PollMiss(q, fence);
      (LaneInv(p) && p == q.(backlog := Refreshed(q, fence), worker := p.worker) && !p.worker.Exited?)
  {
    if Ready(q, fence) {
      TakeInv(q, fence, hard);
      TakeWaitsForAcceptedWork(q, fence);
    } else {
      PollMissInv(q, fence);
    }
  }

  class KeyQueue {
    const id: int
    const capacity: int
    var ch: seq<Token>
    var mandatory: seq<Cleanup>
    var retired: bool
    var workerExited: bool
    var closed: bool
    var pending: int
    var admitted: int
    var settled: int
    ghost var lane: Lane

    ghost predicate Valid()
      reads this
    {
      Mirrors() && LaneInv(lane)
    }

    /** The fields are those of the ghost lane. */
    ghost predicate Mirrors()
      reads this
    {
      && lane.capacity == capacity && lane.ch == ch && Stores(mandatory, lane.backlog)
      && lane.retired == retired && lane.worker.Exited? == workerExited && lane.closed == closed
      && lane.pending == pending && lane.admitted == admitted && lane.settled == settled
    }

    constructor (id: int, key: RoutingKey, capacity: int)
      ensures Valid() && lane == NewLane(key, capacity) && this.id == id && this.capacity == capacity
    {
      this.id, this.capacity := id, capacity;
      ch, mandatory, retired, workerExited, closed := [], [], false, false, false;
      pending, admitted, settled := 0, 0, 0;
      lane := NewLane(key, capacity);
      new;
      NewLaneInv(key, capacity);
    }

    /** waitForMandatoryCleanup's look: is the producer let through, or fenced by a release? */
    method Unfenced(stopped: bool) returns (open: bool)
      requires Valid()
      ensures open == FenceOpen(lane.backlog, stopped)
    {
      for i := 0 to |mandatory|
        invariant FenceOpen(lane.backlog, stopped) == FenceOpen(lane.backlog[i..], stopped)
      {
        assert lane.backlog[i..][1..] == lane.backlog[i + 1..];
        if mandatory[i].work.Release? {
          return mandatory[i].waitSubmitFence && stopped;
        }
      }
      return true;
    }

    method AdmitTask(t: Token) returns (ticket: int)
      requires Valid() && t in lane.cleared && t !in lane.inflight
      modifies this
      ensures Valid() && lane == Admit(old(lane), t)
      ensures ticket == old(admitted) + 1 == lane.inflight[t] && pending == old(pending) + 1 && !closed
    {
      AdmitInv(lane, t);
      admitted := admitted + 1;
      ticket := admitted;
      pending := pending + 1;
      lane := Admit(lane, t);
    }

    /** The non-blocking send. An admitted producer holds the gate, so the channel is open. */
    method TrySend(t: Token) returns (sent: bool)
      requires Valid() && t in lane.inflight
      modifies this
      ensures Valid() && !closed
      ensures sent == (|old(ch)| < capacity)
      ensures ch == old(ch) + if sent then [t] else []
      ensures lane == if sent then Send(old(lane), t) else old(lane)
    {
      sent := |ch| < capacity;
      if sent {
        SendInv(lane, t);
        ch := ch + [t];
        lane := Send(lane, t);
      }
    }

    /** unmarkSent: settle the admission and raise the target of every entry it was admitted after. */
    method UnmarkSent(t: Token, ticket: int) returns (wake: bool)
      requires Valid() && t in lane.inflight && ticket == lane.inflight[t]
      modifies this
      ensures Valid() && lane == Abandon(old(lane), t)
      ensures settled == old(settled) + 1 && |mandatory| == |old(mandatory)|
      ensures forall i :: 0 <= i < |mandatory| ==>
                mandatory[i] == old(mandatory)[i].(settleTarget := old(mandatory)[i].settleTarget
                                                     + if ticket > old(mandatory)[i].admittedCutoff then 1 else 0)
      ensures wake <==> mandatory != []
    {
      AbandonInv(lane, t);
      ghost var was := mandatory;
      settled := settled + 1;
      for i := 0 to |mandatory|
        invariant |mandatory| == |was| && lane == old(lane)
        invariant settled == old(settled) + 1 && ch == old(ch) && pending == old(pending) && admitted == old(admitted)
        invariant retired == old(retired) && closed == old(closed) && workerExited == old(workerExited)
        invariant forall k :: i <= k < |was| ==> mandatory[k] == was[k]
        invariant forall k :: 0 <= k < i ==> mandatory[k] == Stored(RaiseTargets(lane.backlog, ticket)[k])
      {
        if ticket > mandatory[i].admittedCutoff {
          mandatory := mandatory[i := mandatory[i].(settleTarget := mandatory[i].settleTarget + 1)];
        }
      }
      wake := mandatory != [];
      pending := pending - 1;
      lane := Abandon(lane, t);
    }

    /** enqueueMandatory: behind everything admitted so far, unless the lane takes no more. */
    method EnqueueMandatory(work: Work, waitSubmitFence: bool) returns (taken: bool)
      requires Valid()
      modifies this
      ensures Valid()
      ensures taken <==> !old(retired) && !old(workerExited)
      ensures mandatory == old(mandatory) + if taken then [Cleanup(work, admitted, admitted, waitSubmitFence)] else []
      ensures lane == if taken then Enqueue(old(lane), work, waitSubmitFence) else old(lane)
    {
      if retired || workerExited {
        return false;
      }
      EnqueueInv(lane, work, waitSubmitFence);
      pending := pending + 1;
      mandatory := mandatory + [Cleanup(work, admitted, admitted, waitSubmitFence)];
      lane := Enqueue(lane, work, waitSubmitFence);
      taken := true;
    }

    /** takeMandatoryCleanup by the worker: the head entry if its time has come. Everything that was
        accepted before the entry was queued has been handled by then. */
    method TakeMandatoryCleanup(fenceClosed: bool, hard: bool) returns (ready: bool, work: Work, waiting: bool)
      requires Valid() && lane.worker.Polling?
      modifies this
      ensures Valid()
      ensures ready == Ready(old(lane), fenceClosed)
      ensures ready ==> work == old(lane).backlog[0].work && lane == Take(old(lane), fenceClosed, hard)
      ensures ready ==> old(lane).backlog[0].after <= Served(lane)
      ensures !ready ==> lane == PollMiss(old(lane), fenceClosed)
      ensures old(mandatory) == [] ==> !ready
      ensures old(mandatory) != [] ==>
                ready == if old(mandatory)[0].waitSubmitFence then fenceClosed && admitted <= settled
                         else old(mandatory)[0].settleTarget <= settled
      ensures mandatory ==
                if ready then old(mandatory)[1..]
                else if old(mandatory) != [] && old(mandatory)[0].waitSubmitFence && fenceClosed
                then [Cleanup(old(mandatory)[0].work, admitted, admitted, false)] + old(mandatory)[1..]
                else old(mandatory)
      ensures waiting <==> old(mandatory) != [] && old(mandatory)[0].waitSubmitFence && !fenceClosed
    {
      ready, work, waiting := false, Barrier(0), false;
      PolledLane(lane, fenceClosed, hard);
      if mandatory != [] {
        var entry := mandatory[0];
        work := entry.work;
        if entry.waitSubmitFence && !fenceClosed {
          waiting := true;
        } else {
          if entry.waitSubmitFence {
            entry := entry.(waitSubmitFence := false, admittedCutoff := admitted, settleTarget := admitted);
            mandatory := mandatory[0 := entry];
          }
          ready := entry.settleTarget <= settled;
        }
      }
      assert ready == Ready(lane, fenceClosed);
      assert Stores(mandatory, Refreshed(lane, fenceClosed));
      if ready {
        mandatory := mandatory[1..];
        lane := Take(lane, fenceClosed, hard);
      } else {
        lane := PollMiss(lane, fenceClosed);
      }
    }

    /** The worker's receive. */
    method Receive(hard: bool) returns (t: Token)
      requires Valid() && lane.worker.Selecting? && ch != []
      modifies this
      ensures Valid() && lane == Lanes.Receive(old(lane), hard) && t == old(ch)[0]
    {
      ReceiveInv(lane, hard);
      t := ch[0];
      ch := ch[1..];
      lane := Lanes.Receive(lane, hard);
    }

    /** The end of handleTask: the lane is not busy with the task any more. */
    method FinishTask()
      requires Valid() && lane.worker.Task?
      modifies this
      ensures Valid() && lane == Lanes.FinishTask(old(lane)) && pending == old(pending) - 1 && settled == old(settled)
    {
      FinishTaskInv(lane);
      pending := pending - 1;
      lane := Lanes.FinishTask(lane);
    }

    /** settle: only now may what is queued behind the task go. */
    method Settle()
      requires Valid() && lane.worker.Settling?
      modifies this
      ensures Valid() && lane == Lanes.Settle(old(lane)) && settled == old(settled) + 1
    {
      QuietStepInv(lane, Lanes.Settle(lane));
      settled := settled + 1;
      lane := Lanes.Settle(lane);
    }

    /** The idle scan's TryLock of the gate, after its second look at the queue. */
    method LockGate()
      requires Valid() && lane.gate == {} && !lane.gateLocked && pending == 0 && ch == [] && !closed
      modifies this
      ensures Valid() && lane == LockIdle(old(lane)) && mandatory == [] == old(mandatory) && ch == old(ch)
    {
      QuietStepInv(lane, LockIdle(lane));
      lane := LockIdle(lane);
    }

    /** markRetired and the sealing behind it, under the write side of the gate. */
    method Retire() returns (done: bool)
      requires Valid() && lane.gateLocked
      modifies this
      ensures Valid()
      ensures done <==> old(mandatory) == []
      ensures lane == if done then Seal(old(lane)) else Unlock(old(lane))
    {
      done := mandatory == [];
      if done {
        retired := true;
        closed := true;
        QuietStepInv(lane, Seal(lane));
        lane := Seal(lane);
      } else {
        QuietStepInv(lane, Unlock(lane));
        lane := Unlock(lane);
      }
    }

    /** drainAndAbort: whatever is in the channel is aborted and settled; and on a lane that
        keeps its invariant the loop finds nothing, so a retired lane drops no task. */
    method DrainAndAbort() returns (aborted: seq<Token>)
      requires Mirrors() && lane.worker.Emptying?
      modifies this
      ensures Mirrors() && ch == [] && aborted == old(ch)
      ensures settled == old(settled) + |aborted| && pending == old(pending) - |aborted|
      ensures old(Valid()) ==> Valid() && aborted == [] && lane == DrainEnd(old(lane))
    {
      aborted := [];
      while ch != []
        invariant Mirrors() && lane.worker.Emptying? && aborted + ch == old(ch)
        invariant settled == old(settled) + |aborted| && pending == old(pending) - |aborted|
        invariant aborted == [] ==> lane == old(lane)
        decreases |ch|
      {
        aborted := aborted + [ch[0]];
        ch := ch[1..];
        pending := pending - 1;
        settled := settled + 1;
        lane := DrainOne(lane);
      }
      lane := DrainEnd(lane);
      if old(Valid()) {
        NothingToDrain(old(lane));
        QuietStepInv(old(lane), lane);
      }
    }

    /** One turn of closeQueueChannels. */
    method CloseChannel()
      requires Valid() && lane.gate == {} && !lane.gateLocked
      modifies this
      ensures Valid() && lane == Close(old(lane))
    {
      QuietStepInv(lane, Close(lane));
      closed := true;
      lane := Close(lane);
    }

    /** finishWorker: the worker may leave only when the lane owes nothing. */
    method FinishWorker() returns (done: bool)
      requires Valid() && lane.worker.Polling? && lane.sawEnd
      modifies this
      ensures Valid()
      ensures done <==> old(mandatory) == []
      ensures lane == if done then Lanes.FinishWorker(old(lane)) else old(lane)
    {
      done := mandatory == [];
      if done {
        workerExited := true;
        QuietStepInv(lane, Lanes.FinishWorker(lane));
        lane := Lanes.FinishWorker(lane);
      }
    }
  }

  /** closeQueueChannels, once nobody holds a gate: every queue ends up closed, once. */
  method CloseQueueChannels(queues: seq<KeyQueue>)
    requires forall i, j :: 0 <= i < j < |queues| ==> queues[i] != queues[j]
    requires forall i :: 0 <= i < |queues| ==>
      queues[i].Valid() && queues[i].lane.gate == {} && !queues[i].lane.gateLocked
    modifies queues
    ensures forall i :: 0 <= i < |queues| ==> queues[i].Valid() && queues[i].lane == Close(old(queues[i].lane))
  {
    for k := 0 to |queues|
      invariant forall i :: 0 <= i < k ==> queues[i].Valid() && queues[i].lane == Close(old(queues[i].lane))
      invariant forall i :: k <= i < |queues| ==> queues[i].Valid() && queues[i].lane == old(queues[i].lane)
    {
      queues[k].CloseChannel();
    }
  }
}
