/** The leased mail queue: guarded updates of task rows by any number of workers, each of which works from the snapshot
    it took when it claimed its task. */
module MailQueue {
  import opened Tables

  const MAX_RETRIES := 8

  datatype TaskStatus = Queued | Sending | Sent | Failed | Cancelled

  datatype Task = Task(activity: nat, offer: Option<nat>, invite: Option<nat>, status: TaskStatus, owner: Option<nat>,
                       lockedAt: Option<int>, retries: nat, nextRetryAt: int, sentAt: Option<int>)

  // ---------- the guarded updates ----------

  predicate ClaimableAt(task: Task, now: int) { task.status.Queued? && task.nextRetryAt <= now }

  predicate HeldBy(task: Task, worker: nat) { task.status.Sending? && task.owner == Some(worker) }

  function Claimed(task: Task, worker: nat, now: int): Task {
    task.(status := Sending, owner := Some(worker), lockedAt := Some(now))
  }

  function Released(task: Task): Task { task.(owner := None, lockedAt := None) }

  function Recovered(task: Task, now: int, lease: int): Task {
    if task.status.Sending? && task.lockedAt.Some? && task.lockedAt.value < now - lease
    then Released(task).(status := Queued) else task
  }

  /** The outcome of an attempt; only SENT carries a time of sending, and a failed attempt counts. */
  function Completed(task: Task, to: TaskStatus, next: Option<int>, now: int): Task {
    Released(task).(status := to,
                    sentAt := if to.Sent? then Some(now) else task.sentAt,
                    nextRetryAt := if next.Some? then next.value else task.nextRetryAt,
                    retries := if to.Queued? || to.Failed? then task.retries + 1 else task.retries)
  }

  function Deferred(task: Task, next: int): Task { Released(task).(status := Queued, nextRetryAt := next) }

  function CancelledTask(task: Task): Task { Released(task).(status := Cancelled) }

  function Requeued(task: Task, now: int): Task { Released(task).(status := Queued, retries := 0, nextRetryAt := now) }

  function CompleteTask(tasks: seq<Task>, i: nat, worker: nat, to: TaskStatus, next: Option<int>, now: int): seq<Task> {
    if i < |tasks| && HeldBy(tasks[i], worker) then tasks[i := Completed(tasks[i], to, next, now)] else tasks
  }

  function DeferTask(tasks: seq<Task>, i: nat, worker: nat, next: int): seq<Task> {
    if i < |tasks| && HeldBy(tasks[i], worker) then tasks[i := Deferred(tasks[i], next)] else tasks
  }

  /** Unlike the two above this one does not ask who holds the lease. */
  function CancelTask(tasks: seq<Task>, i: nat): seq<Task> {
    if i < |tasks| && (tasks[i].status.Queued? || tasks[i].status.Sending?)
        then tasks[i := CancelledTask(tasks[i])] else tasks
  }

  function RequeueFailed(tasks: seq<Task>, i: nat, a: nat, now: int): seq<Task> {
    if i < |tasks| && tasks[i].activity == a && tasks[i].status.Failed?
        then tasks[i := Requeued(tasks[i], now)] else tasks
  }

  function RequeueExpiredLease(tasks: seq<Task>, now: int, lease: int): (r: seq<Task>)
    ensures |r| == |tasks|
  {
    seq(|tasks|, i requires 0 <= i < |tasks| => Recovered(tasks[i], now, lease))
  }

  function CancelPendingForActivity(tasks: seq<Task>, a: nat): (r: seq<Task>)
    ensures |r| == |tasks|
  {
    seq(|tasks|, i requires 0 <= i < |tasks| =>
      if tasks[i].activity == a && tasks[i].status.Queued? then tasks[i].(status := Cancelled) else tasks[i])
  }

  function CancelPendingForInvite(tasks: seq<Task>, t: nat): (r: seq<Task>)
    ensures |r| == |tasks|
  {
    seq(|tasks|, i requires 0 <= i < |tasks| =>
      if tasks[i].invite == Some(t) && tasks[i].status.Queued? then tasks[i].(status := Cancelled) else tasks[i])
  }

  // ---------- one worker in place ----------

  /** The task table and the sent_at column of the offers. */
  class Repository {
    var tasks: seq<Task>
    var stamps: map<nat, int>

    constructor ()
      ensures tasks == [] && stamps == map[]
    {
      tasks, stamps := [], map[];
    }

    /** Claims the oldest task that is due and returns it as it stands after the claim. */
    method ClaimNext(worker: nat, now: int) returns (id: nat, task: Option<Task>)
      modifies `tasks
      ensures task.Some? <==> exists i :: 0 <= i < old(|tasks|) && ClaimableAt(old(tasks)[i], now)
      ensures task.None? ==> tasks == old(tasks)
      ensures task.Some? ==>
        && id < old(|tasks|) && ClaimableAt(old(tasks)[id], now)
        && (forall i :: 0 <= i < id ==> !ClaimableAt(old(tasks)[i], now))
        && task.value == Claimed(old(tasks)[id], worker, now) && tasks == old(tasks)[id := task.value]
    {
      for i := 0 to |tasks|
        invariant tasks == old(tasks)
        invariant forall j :: 0 <= j < i ==> !ClaimableAt(tasks[j], now)
      {
        if ClaimableAt(tasks[i], now) {
          tasks := tasks[i := Claimed(tasks[i], worker, now)];
          return i, Some(tasks[i]);
        }
      }
      return 0, None;
    }

    method Complete(i: nat, worker: nat, to: TaskStatus, next: Option<int>, now: int) returns (won: bool)
      modifies `tasks
      ensures tasks == CompleteTask(old(tasks), i, worker, to, next, now)
      ensures won == (i < old(|tasks|) && HeldBy(old(tasks)[i], worker))
    {
      won := i < |tasks| && HeldBy(tasks[i], worker);
      if won {
        tasks := tasks[i := Completed(tasks[i], to, next, now)];
      }
    }

    method Defer(i: nat, worker: nat, next: int) returns (won: bool)
      modifies `tasks
      ensures tasks == DeferTask(old(tasks), i, worker, next)
      ensures won == (i < old(|tasks|) && HeldBy(old(tasks)[i], worker))
    {
      won := i < |tasks| && HeldBy(tasks[i], worker);
      if won {
        tasks := tasks[i := Deferred(tasks[i], next)];
      }
    }

    method Cancel(i: nat) returns (won: bool)
      modifies `tasks
      ensures tasks == CancelTask(old(tasks), i)
      ensures won <==> tasks != old(tasks)
    {
      won := i < |tasks| && (tasks[i].status.Queued? || tasks[i].status.Sending?);
      if won {
        tasks := tasks[i := CancelledTask(tasks[i])];
        assert tasks[i] != old(tasks)[i];
      }
    }

    method Recover(now: int, lease: int)
      modifies `tasks
      ensures tasks == RequeueExpiredLease(old(tasks), now, lease)
    {
      tasks := RequeueExpiredLease(tasks, now, lease);
    }

    method Requeue(i: nat, a: nat, now: int) returns (won: bool)
      modifies `tasks
      ensures tasks == RequeueFailed(old(tasks), i, a, now)
      ensures won == (i < old(|tasks|) && old(tasks)[i].activity == a && old(tasks)[i].status.Failed?)
    {
      won := i < |tasks| && tasks[i].activity == a && tasks[i].status.Failed?;
      if won {
        tasks := tasks[i := Requeued(tasks[i], now)];
      }
    }

    /** The first successful delivery stamps the offer; later ones leave the stamp alone. */
    method BackfillOfferSentAt(o: nat, now: int)
      modifies `stamps
      ensures stamps == if o in old(stamps) then old(stamps) else old(stamps)[o := now]
    {
      if o !in stamps {
        stamps := stamps[o := now];
      }
    }
  }

  // ---------- retry delays ----------

  const TWO63: int := 0x8000_0000_0000_0000

  /** Go's 64-bit product: the value reduced modulo 2^64 into the signed range. */
  function Wrap64(x: int): int { (x + TWO63) % (2 * TWO63) - TWO63 }

  function Pow2(n: nat): (p: nat)
    ensures p >= 1
  {
    if n == 0 then 1 else 2 * Pow2(n - 1)
  }

  /** base * 2^retry with the exponent cut at 20; a product above the maximum or not positive gives the maximum. */
  function Backoff(base: int, max: int, retry: nat): int {
    var delay := Wrap64(base * Pow2(if retry > 20 then 20 else retry));
    if delay > max || delay <= 0 then max else delay
  }

  function Min(x: int, y: int): int { if x < y then x else y }

  lemma {:induction false} Pow2Grows(m: nat, n: nat)
    requires m <= n
    ensures Pow2(m) <= Pow2(n)
  {
    if m < n {
      Pow2Grows(m, n - 1);
    }
  }

  lemma ScaleGrows(base: int, x: int, y: int)
    requires base > 0 && x <= y
    ensures base * x <= base * y
  {
  }

  /** As long as base * 2^20 fits into 64 bits the delay is the capped exponential. */
  lemma BackoffIsCapped(base: int, max: int, retry: nat)
    requires base > 0 && base * Pow2(20) < TWO63
    ensures Backoff(base, max, retry) == Min(base * Pow2(Min(retry, 20)), max)
  {
    var m := Min(retry, 20);
    Pow2Grows(m, 20);
    ScaleGrows(base, 1, Pow2(m));
    ScaleGrows(base, Pow2(m), Pow2(20));
  }

  /** Overflow or not, a delay is positive and at most the maximum. */
  lemma BackoffIsBounded(base: int, max: int, retry: nat)
    requires max >= 1
    ensures 1 <= Backoff(base, max, retry) <= max
  {
  }

  /** Under the same bound it never shrinks from one retry to a later one. */
  lemma BackoffGrows(base: int, max: int, retry: nat, later: nat)
    requires base > 0 && base * Pow2(20) < TWO63 && retry <= later
    ensures Backoff(base, max, retry) <= Backoff(base, max, later)
  {
    BackoffIsCapped(base, max, retry);
    BackoffIsCapped(base, max, later);
    Pow2Grows(Min(retry, 20), Min(later, 20));
    ScaleGrows(base, Pow2(Min(retry, 20)), Pow2(Min(later, 20)));
  }

  /** Without that bound a later retry can wait less: the product wraps around to a small positive delay. */
  lemma BackoffCanWrap()
    ensures var base := 0x1000_0000_0001; base > 0 && Backoff(base, TWO63 - 1, 20) < Backoff(base, TWO63 - 1, 0)
  {
    var base := 0x1000_0000_0001;
    assert Pow2(4) == 16;
    assert Pow2(8) == 256;
    assert Pow2(12) == 4096;
    assert Pow2(16) == 65536;
    assert Pow2(20) == 1048576;
  }
}
