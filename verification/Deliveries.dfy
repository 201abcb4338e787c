/** What each step of the mail queue does to the rows, and how long a worker can rely on its lease. */
module Deliveries {
  import opened Tables
  import opened MailQueue
  import opened MailWorkers

  /** PENDING again, free for anybody. */
  predicate FreedRow(x: Task, y: Task) {
    y == x.(status := Queued, owner := None, lockedAt := None, nextRetryAt := y.nextRetryAt, retries := y.retries)
  }

  // ---------- leases ----------

  /** The row is being sent under a lease taken more than `lease` before `now`. */
  predicate Lapsed(task: Task, now: int, lease: int) {
    task.status.Sending? && task.lockedAt.Some? && now - task.lockedAt.value > lease
  }

  /** The recovery changes exactly the rows whose lease has lapsed, and only frees them. */
  lemma RecoverIsExact(tasks: seq<Task>, now: int, lease: int, i: nat)
    requires i < |tasks|
    ensures var x, y := tasks[i], RequeueExpiredLease(tasks, now, lease)[i];
      && (y != x <==> Lapsed(x, now, lease))
      && (Lapsed(x, now, lease) ==> FreedRow(x, y) && y.nextRetryAt == x.nextRetryAt && y.retries == x.retries)
  {
  }

  /** The worker has its task, claimed at `since`. */
  predicate Delivering(q: System, w: nat, i: nat, since: int) {
    && i < |q.tasks| && HandOf(q, w).Holding? && HandOf(q, w).task == i
    && HeldBy(q.tasks[i], w) && q.tasks[i].lockedAt == Some(since)
  }

  /** A step that leaves a delivery alone: it is not the worker's own, nobody gives up a task, and a recovery comes at
      most one lease after the claim. */
  predicate Spares(step: Step, w: nat, since: int) {
    && !Moves(step, w) && !step.GiveUp?
    && (step.RecoverLeases? ==> step.now - since <= step.lease)
  }

  lemma StepSpares(q: System, step: Step, w: nat, i: nat, since: int)
    requires Delivering(q, w, i, since) && Spares(step, w, since)
    ensures var r := Apply(q, step); Delivering(r, w, i, since) && r.tasks[i] == q.tasks[i]
  {
    OtherHands(q, step, w);
  }

  /** A worker keeps its lease while it is at most one lease old, whatever the other workers and the recovery do, unless
      somebody gives the task up. */
  lemma {:induction false} LeaseIsSafe(q: System, steps: seq<Step>, w: nat, i: nat, since: int)
    requires Delivering(q, w, i, since) && forall k :: 0 <= k < |steps| ==> Spares(steps[k], w, since)
    ensures var r := Run(q, steps); Delivering(r, w, i, since) && r.tasks[i] == q.tasks[i]
    decreases |steps|
  {
    if steps != [] {
      StepSpares(q, steps[0], w, i, since);
      LeaseIsSafe(Apply(q, steps[0]), steps[1..], w, i, since);
    }
  }

  /** Claiming: exactly a PENDING task that is due, by a worker with free hands; the lease starts now. */
  lemma ClaimIsExact(q: System, w: nat, i: nat, now: int)
    ensures var r := Apply(q, Claim(w, i, now));
      if HandOf(q, w).Idle? && i < |q.tasks| && q.tasks[i].status.Queued? && q.tasks[i].nextRetryAt <= now
      then Delivering(r, w, i, now)
           && r.tasks == q.tasks[i := q.tasks[i].(status := Sending, owner := Some(w), lockedAt := Some(now))]
      else r == q
  {
  }

  // ---------- outcomes ----------

  predicate OnlyRow(q: System, r: System, i: nat) {
    |r.tasks| == |q.tasks| && forall j :: 0 <= j < |q.tasks| && j != i ==> r.tasks[j] == q.tasks[j]
  }

  /** Success under the lease: the row is SENT at that time and free, and the worker goes on to stamp the offer of an
      offer mail. */
  lemma SuccessIsExact(q: System, w: nat, i: nat, since: int, now: int)
    requires Delivering(q, w, i, since)
    ensures var r := Apply(q, Succeed(w, now));
      && OnlyRow(q, r, i)
      && r.tasks[i] == q.tasks[i].(status := Sent, owner := None, lockedAt := None, sentAt := Some(now))
      && HandOf(r, w) == if q.tasks[i].offer.Some? then Delivered(i) else Idle
  {
  }

  /** The stamp is the time of the first stamping step. */
  lemma StampIsExact(q: System, w: nat, i: nat, now: int)
    requires HandOf(q, w) == Delivered(i) && i < |q.tasks| && q.tasks[i].offer.Some?
    ensures var o, r := q.tasks[i].offer.value, Apply(q, Stamp(w, now));
      && o in r.stamps && r.stamps[o] == (if o in q.stamps then q.stamps[o] else now)
      && (forall p :: p != o ==> (p in r.stamps <==> p in q.stamps) && (p in q.stamps ==> r.stamps[p] == q.stamps[p]))
      && r.tasks == q.tasks
  {
  }

  /** Failure under the lease counts once: the eighth is final, any other makes the task due again after the capped
      exponential delay and not before. */
  lemma FailureIsExact(q: System, w: nat, i: nat, since: int, base: int, max: int, now: int)
    requires QueueOk(q) && w in q.hands && Delivering(q, w, i, since) && base > 0 && base * Pow2(20) < TWO63
    ensures var x, r := q.tasks[i], Apply(q, Fail(w, base, max, now));
      && OnlyRow(q, r, i) && HandOf(r, w) == Idle
      && r.tasks[i] ==
         if x.retries == 7 then x.(status := Failed, owner := None, lockedAt := None, retries := 8)
         else x.(status := Queued, owner := None, lockedAt := None, retries := x.retries + 1,
                 nextRetryAt := now + Min(base * Pow2(x.retries), max))
  {
    assert HandOk(q, w);
    BackoffIsCapped(base, max, q.tasks[i].retries);
  }

  /** A paced task is due again at the given time, with its retries; a task given up is CANCELLED. */
  lemma PaceIsExact(q: System, w: nat, i: nat, since: int, until: int)
    requires Delivering(q, w, i, since)
    ensures var r := Apply(q, Pace(w, until));
      && OnlyRow(q, r, i) && HandOf(r, w) == Idle
      && r.tasks[i] == q.tasks[i].(status := Queued, owner := None, lockedAt := None, nextRetryAt := until)
    ensures var r := Apply(q, GiveUp(w));
      && OnlyRow(q, r, i) && HandOf(r, w) == Idle
      && r.tasks[i] == q.tasks[i].(status := Cancelled, owner := None, lockedAt := None)
  {
  }

  /** A closed activity and a closed invitation cancel exactly their PENDING tasks. */
  lemma StopsAreExact(q: System, a: nat, t: nat, i: nat)
    requires i < |q.tasks|
    ensures |Apply(q, StopActivity(a)).tasks| == |Apply(q, StopInvite(t)).tasks| == |q.tasks|
    ensures Apply(q, StopActivity(a)).tasks[i] ==
      if q.tasks[i].activity == a && q.tasks[i].status.Queued? then q.tasks[i].(status := Cancelled) else q.tasks[i]
    ensures Apply(q, StopInvite(t)).tasks[i] ==
      if q.tasks[i].invite == Some(t) && q.tasks[i].status.Queued? then q.tasks[i].(status := Cancelled) else q.tasks[i]
  {
  }

  /** A retry by hand gives exactly a FAILED task of the activity a new start, due at once. */
  lemma RetryIsExact(q: System, i: nat, a: nat, now: int)
    ensures var r := Apply(q, Retry(i, a, now));
      if i < |q.tasks| && q.tasks[i].activity == a && q.tasks[i].status.Failed?
      then OnlyRow(q, r, i) && FreedRow(q.tasks[i], r.tasks[i]) && r.tasks[i].retries == 0
           && r.tasks[i].nextRetryAt == now
      else r.tasks == q.tasks
  {
  }
}
