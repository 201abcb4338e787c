/** Any number of mail workers on one queue, with lease recovery, lost leases, crashes and cancellations between any two
    of their steps. */
module MailWorkers {
  import opened Tables
  import opened MailQueue

  /** What a worker has in memory: nothing, the snapshot of the task it claimed, or a delivered task whose offer it has
      yet to stamp. A worker runs one task at a time and its identity is its own. */
  datatype Hand = Idle | Holding(task: nat, snap: Task) | Delivered(sent: nat)

  /** `failures` is the history of failed completions per task since its last requeue. */
  datatype System = System(tasks: seq<Task>, stamps: map<nat, int>, hands: map<nat, Hand>, failures: seq<nat>)

  datatype Step =
    | Enqueue(newTask: Task)
    | Claim(w: nat, i: nat, now: int)
    | RecoverLeases(now: int, lease: int)
    | Succeed(w: nat, now: int)
    | Fail(w: nat, base: int, max: int, now: int)
    | Pace(w: nat, until: int)
    | GiveUp(w: nat)
    | Stamp(w: nat, now: int)
    | Quit(w: nat)
    | StopActivity(a: nat)
    | StopInvite(t: nat)
    | Retry(i: nat, a: nat, now: int)

  const START := System([], map[], map[], [])

  function HandOf(q: System, w: nat): Hand { if w in q.hands then q.hands[w] else Idle }

  predicate Fresh(task: Task) {
    task.status.Queued? && task.owner.None? && task.lockedAt.None? && task.retries == 0 && task.sentAt.None?
  }

  /** Whether worker `w` still holds the lease of the task in its hand. */
  predicate Ours(q: System, w: nat) {
    HandOf(q, w).Holding? && HandOf(q, w).task < |q.tasks| && HeldBy(q.tasks[HandOf(q, w).task], w)
  }

  function SetHand(q: System, w: nat, hand: Hand): System { q.(hands := q.hands[w := hand]) }

  /** A failed attempt: PENDING again after the backoff, or FAILED at the ceiling, judged by the snapshot. */
  function Failing(q: System, w: nat, base: int, max: int, now: int): System
    requires HandOf(q, w).Holding?
  {
    var i, snap := HandOf(q, w).task, HandOf(q, w).snap;
    var tasks :=
      if snap.retries + 1 >= MAX_RETRIES then CompleteTask(q.tasks, i, w, Failed, None, now)
      else CompleteTask(q.tasks, i, w, Queued, Some(now + Backoff(base, max, snap.retries)), now);
    SetHand(q.(tasks := tasks,
        failures := if Ours(q, w) && i < |q.failures| then q.failures[i := q.failures[i] + 1] else q.failures),
            w, Idle)
  }

  function Apply(q: System, step: Step): System {
    match step
    case Enqueue(task) => if Fresh(task) then q.(tasks := q.tasks + [task], failures := q.failures + [0]) else q
    case Claim(w, i, now) =>
      if HandOf(q, w).Idle? && i < |q.tasks| && ClaimableAt(q.tasks[i], now)
      then SetHand(q.(tasks := q.tasks[i := Claimed(q.tasks[i], w, now)]), w, Holding(i, Claimed(q.tasks[i], w, now)))
      else q
    case RecoverLeases(now, lease) => q.(tasks := RequeueExpiredLease(q.tasks, now, lease))
    case Succeed(w, now) =>
      if !HandOf(q, w).Holding? then q
      else
        var i := HandOf(q, w).task;
        SetHand(q.(tasks := CompleteTask(q.tasks, i, w, Sent, None, now)), w,
                if Ours(q, w) && q.tasks[i].offer.Some? then Delivered(i) else Idle)
    case Fail(w, base, max, now) => if HandOf(q, w).Holding? then Failing(q, w, base, max, now) else q
    case Pace(w, until) =>
      if HandOf(q, w).Holding?
        then SetHand(q.(tasks := DeferTask(q.tasks, HandOf(q, w).task, w, until)), w, Idle) else q
    case GiveUp(w) =>
      if HandOf(q, w).Holding? then SetHand(q.(tasks := CancelTask(q.tasks, HandOf(q, w).task)), w, Idle) else q
    case Stamp(w, now) =>
      if HandOf(q, w).Delivered? && HandOf(q, w).sent < |q.tasks| && q.tasks[HandOf(q, w).sent].offer.Some? then
        var o := q.tasks[HandOf(q, w).sent].offer.value;
        SetHand(q.(stamps := if o in q.stamps then q.stamps else q.stamps[o := now]), w, Idle)
      else q
    case Quit(w) => SetHand(q, w, Idle)
    case StopActivity(a) => q.(tasks := CancelPendingForActivity(q.tasks, a))
    case StopInvite(t) => q.(tasks := CancelPendingForInvite(q.tasks, t))
    case Retry(i, a, now) =>
      q.(tasks := RequeueFailed(q.tasks, i, a, now),
         failures := if i < |q.tasks| && i < |q.failures| && q.tasks[i].activity == a && q.tasks[i].status.Failed?
                     then q.failures[i := 0] else q.failures)
  }

  function Run(q: System, steps: seq<Step>): System
    decreases |steps|
  {
    if steps == [] then q else Run(Apply(q, steps[0]), steps[1..])
  }

  // ---------- the invariant ----------

  predicate TaskOk(task: Task) {
    && (task.status.Sending? <==> task.owner.Some?) && (task.owner.Some? <==> task.lockedAt.Some?)
    && (task.sentAt.Some? <==> task.status.Sent?)
    && (task.status.Queued? || task.status.Sending? ==> task.retries < MAX_RETRIES)
    && (task.status.Failed? ==> task.retries == MAX_RETRIES)
  }

  /** Whenever the lease guard of a worker would pass, its snapshot still is the row. */
  predicate HandOk(q: System, w: nat) {
    match HandOf(q, w)
    case Idle => true
    case Holding(i, snap) => i < |q.tasks| && HeldBy(snap, w) && snap.retries < MAX_RETRIES
        && (HeldBy(q.tasks[i], w) ==> q.tasks[i] == snap)
    case Delivered(i) => i < |q.tasks| && q.tasks[i].status.Sent? && q.tasks[i].offer.Some?
  }

  predicate SentFor(tasks: seq<Task>, o: nat) {
    exists i :: 0 <= i < |tasks| && tasks[i].offer == Some(o) && tasks[i].status.Sent?
  }

  predicate TasksOk(tasks: seq<Task>) { forall i :: 0 <= i < |tasks| ==> TaskOk(tasks[i]) }

  predicate HandsOk(q: System) { forall w :: w in q.hands ==> HandOk(q, w) }

  predicate StampsOk(q: System) { forall o :: o in q.stamps ==> SentFor(q.tasks, o) }

  /** The retry counter is the number of failed completions since the last requeue. */
  predicate CountsOk(q: System) {
    |q.failures| == |q.tasks| && forall i :: 0 <= i < |q.tasks| ==> q.failures[i] == q.tasks[i].retries
  }

  predicate QueueOk(q: System) { TasksOk(q.tasks) && HandsOk(q) && StampsOk(q) && CountsOk(q) }

  /** A row never leaves SENT or CANCELLED and never changes there; what the task is about is fixed. */
  predicate TaskEvolves(x: Task, y: Task) {
    && y.activity == x.activity && y.offer == x.offer && y.invite == x.invite
    && (x.status.Sent? || x.status.Cancelled? ==> y == x)
  }

  predicate Evolves(q: System, r: System) {
    && |q.tasks| <= |r.tasks| && (forall i :: 0 <= i < |q.tasks| ==> TaskEvolves(q.tasks[i], r.tasks[i]))
    && forall o :: o in q.stamps ==> o in r.stamps && r.stamps[o] == q.stamps[o]
  }

  /** No step turns a row into one that worker `w` holds, unless `w` claims it. */
  predicate NoNewLease(x: seq<Task>, y: seq<Task>, w: nat) {
    |x| <= |y| && forall i :: 0 <= i < |x| && HeldBy(y[i], w) ==> y[i] == x[i]
  }

  lemma FailingKeeps(q: System, w: nat, base: int, max: int, now: int)
    requires TasksOk(q.tasks) && CountsOk(q) && HandOf(q, w).Holding? && HandOk(q, w)
    ensures TasksOk(Failing(q, w, base, max, now).tasks) && CountsOk(Failing(q, w, base, max, now))
  {
  }

  lemma StepTasks(q: System, step: Step)
    requires QueueOk(q)
    ensures TasksOk(Apply(q, step).tasks) && CountsOk(Apply(q, step))
  {
    if step.Fail? {
      if HandOf(q, step.w).Holding? {
        assert HandOk(q, step.w);
        FailingKeeps(q, step.w, step.base, step.max, step.now);
      }
    } else {
      OtherTasks(q, step);
    }
  }

  lemma OtherTasks(q: System, step: Step)
    requires TasksOk(q.tasks) && CountsOk(q) && !step.Fail?
    ensures TasksOk(Apply(q, step).tasks) && CountsOk(Apply(q, step))
  {
  }

  lemma StepRows(q: System, step: Step)
    ensures var r := Apply(q, step).tasks;
      |q.tasks| <= |r| && forall i :: 0 <= i < |q.tasks| ==> TaskEvolves(q.tasks[i], r[i])
  {
  }

  lemma StepEvolves(q: System, step: Step)
    ensures Evolves(q, Apply(q, step))
  {
    StepRows(q, step);
  }

  lemma StepLeases(q: System, step: Step, w: nat)
    requires !(step.Claim? && step.w == w)
    ensures NoNewLease(q.tasks, Apply(q, step).tasks, w)
  {
  }

  predicate Moves(step: Step, w: nat) {
    match step
    case Claim(v, _, _) => v == w
    case Succeed(v, _) => v == w
    case Fail(v, _, _, _) => v == w
    case Pace(v, _) => v == w
    case GiveUp(v) => v == w
    case Stamp(v, _) => v == w
    case Quit(v) => v == w
    case _ => false
  }

  lemma OtherHands(q: System, step: Step, w: nat)
    requires !Moves(step, w)
    ensures HandOf(Apply(q, step), w) == HandOf(q, w)
  {
  }

  lemma HandStays(q: System, r: System, w: nat)
    requires HandOk(q, w) && HandOf(r, w) == HandOf(q, w) && Evolves(q, r) && NoNewLease(q.tasks, r.tasks, w)
    ensures HandOk(r, w)
  {
    var hand := HandOf(q, w);
    assert hand.Holding? ==> TaskEvolves(q.tasks[hand.task], r.tasks[hand.task]);
    assert hand.Delivered? ==> TaskEvolves(q.tasks[hand.sent], r.tasks[hand.sent]);
  }

  lemma OwnHand(q: System, step: Step, w: nat)
    requires TasksOk(q.tasks) && HandOk(q, w) && Moves(step, w)
    ensures HandOk(Apply(q, step), w)
  {
  }

  lemma StepHands(q: System, step: Step, w: nat)
    requires QueueOk(q)
    ensures HandOk(Apply(q, step), w)
  {
    assert w in q.hands ==> HandOk(q, w);
    if Moves(step, w) {
      OwnHand(q, step, w);
    } else {
      OtherHands(q, step, w);
      StepEvolves(q, step);
      StepLeases(q, step, w);
      HandStays(q, Apply(q, step), w);
    }
  }

  lemma StepStamps(q: System, step: Step)
    requires QueueOk(q)
    ensures StampsOk(Apply(q, step))
  {
    var r := Apply(q, step);
    StepEvolves(q, step);
    forall o | o in r.stamps ensures SentFor(r.tasks, o) {
      if o in q.stamps {
        assert SentFor(q.tasks, o);
        var i :| 0 <= i < |q.tasks| && q.tasks[i].offer == Some(o) && q.tasks[i].status.Sent?;
        assert TaskEvolves(q.tasks[i], r.tasks[i]);
      } else {
        assert HandOk(q, step.w);
      }
    }
  }

  lemma StepKeeps(q: System, step: Step)
    requires QueueOk(q)
    ensures QueueOk(Apply(q, step)) && Evolves(q, Apply(q, step))
  {
    StepTasks(q, step);
    StepEvolves(q, step);
    StepStamps(q, step);
    forall w | w in Apply(q, step).hands ensures HandOk(Apply(q, step), w) {
      StepHands(q, step, w);
    }
  }

  lemma EvolvesChain(q: System, m: System, r: System)
    requires Evolves(q, m) && Evolves(m, r)
    ensures Evolves(q, r)
  {
    forall i | 0 <= i < |q.tasks| ensures TaskEvolves(q.tasks[i], r.tasks[i]) {
      assert TaskEvolves(q.tasks[i], m.tasks[i]) && TaskEvolves(m.tasks[i], r.tasks[i]);
    }
  }

  /** Over every run of any number of workers: leases and send times say what the status says, the retry ceiling holds,
      snapshots are current whenever their lease is, an offer is stamped only after a SENT task of its own and never
      again, and SENT and CANCELLED tasks never change. */
  lemma {:induction false} RunKeeps(q: System, steps: seq<Step>)
    requires QueueOk(q)
    ensures QueueOk(Run(q, steps)) && Evolves(q, Run(q, steps))
    decreases |steps|
  {
    if steps != [] {
      StepKeeps(q, steps[0]);
      RunKeeps(Apply(q, steps[0]), steps[1..]);
      EvolvesChain(q, Apply(q, steps[0]), Run(q, steps));
    }
  }

  /** The same said of one task and one worker of a system started empty. */
  lemma EveryTask(steps: seq<Step>, more: seq<Step>, i: nat, w: nat)
    requires i < |Run(START, steps).tasks|
    ensures var q := Run(START, steps); var task := q.tasks[i];
      && TaskOk(task) && i < |q.failures| && q.failures[i] == task.retries
      && (Ours(q, w) && HandOf(q, w).task == i ==> HandOf(q, w).snap == task)
      && (task.status.Sent? || task.status.Cancelled? ==> i < |Run(q, more).tasks| && Run(q, more).tasks[i] == task)
  {
    var q := Run(START, steps);
    assert QueueOk(START);
    RunKeeps(START, steps);
    RunKeeps(q, more);
    assert TaskEvolves(q.tasks[i], Run(q, more).tasks[i]);
    assert w in q.hands ==> HandOk(q, w);
  }

  /** An offer is stamped at most once, and only after a task of its own was SENT. */
  lemma EveryStamp(steps: seq<Step>, more: seq<Step>, o: nat)
    requires o in Run(START, steps).stamps
    ensures var q, r := Run(START, steps), Run(Run(START, steps), more);
      SentFor(q.tasks, o) && o in r.stamps && r.stamps[o] == q.stamps[o]
  {
    assert QueueOk(START);
    RunKeeps(START, steps);
    RunKeeps(Run(START, steps), more);
  }

  // ---------- lost leases ----------

  /** A worker whose lease is gone changes no task by completing, failing or deferring. */
  lemma LostLeaseIsPowerless(q: System, step: Step)
    requires (step.Succeed? || step.Fail? || step.Pace?) && !Ours(q, step.w)
    ensures Apply(q, step).tasks == q.tasks && Apply(q, step).failures == q.failures
  {
  }

  /** And it never gets the lease back while it works on the same snapshot. */
  lemma {:induction false} LostStaysLost(q: System, steps: seq<Step>, w: nat)
    requires QueueOk(q) && HandOf(q, w).Holding? && !Ours(q, w)
    requires forall i :: 0 <= i < |steps| ==> !(steps[i].Claim? && steps[i].w == w)
    ensures !Ours(Run(q, steps), w)
    decreases |steps|
  {
    if steps != [] {
      var next := Apply(q, steps[0]);
      StepKeeps(q, steps[0]);
      LostStep(q, steps[0], w);
      if HandOf(next, w).Holding? {
        LostStaysLost(next, steps[1..], w);
      } else {
        HandsStayEmpty(next, steps[1..], w);
      }
    }
  }

  lemma LostStep(q: System, step: Step, w: nat)
    requires HandsOk(q) && HandOf(q, w).Holding? && !Ours(q, w) && !(step.Claim? && step.w == w)
    ensures HandOf(Apply(q, step), w).Holding? ==> !Ours(Apply(q, step), w)
  {
    StepLeases(q, step, w);
    assert w in q.hands && HandOk(q, w);
  }

  lemma {:induction false} HandsStayEmpty(q: System, steps: seq<Step>, w: nat)
    requires !HandOf(q, w).Holding? && forall i :: 0 <= i < |steps| ==> !(steps[i].Claim? && steps[i].w == w)
    ensures !HandOf(Run(q, steps), w).Holding?
    decreases |steps|
  {
    if steps != [] {
      HandsStayEmpty(Apply(q, steps[0]), steps[1..], w);
    }
  }

  /** Cancelling is different: it does not ask for the lease, so giving up on a task one no longer holds still cancels
      it exactly when it is queued again or in the hands of another worker. */
  lemma StaleCancelWins(q: System, w: nat)
    requires QueueOk(q) && HandOf(q, w).Holding? && !Ours(q, w)
    ensures var i := HandOf(q, w).task;
      && i < |q.tasks|
      && (Apply(q, GiveUp(w)).tasks == q.tasks <==> !q.tasks[i].status.Queued? && !q.tasks[i].status.Sending?)
  {
    assert w in q.hands && HandOk(q, w);
    var i := HandOf(q, w).task;
    var r := Apply(q, GiveUp(w));
    assert q.tasks[i].status.Queued? || q.tasks[i].status.Sending? ==> r.tasks[i].status.Cancelled?;
  }

  /** A run in which worker 1 loses its lease to worker 2 and then cancels the task under it: worker 2 has the mail
      delivered, but its completion is refused and the task stays CANCELLED. */
  lemma StaleCancelExample()
    ensures var task := Task(0, Some(7), None, Queued, None, None, 0, 0, None);
      var q := Run(START, [Enqueue(task), Claim(1, 0, 0), RecoverLeases(700, 600), Claim(2, 0, 700),
          GiveUp(1), Succeed(2, 701)]);
      |q.tasks| == 1 && q.tasks[0].status.Cancelled?
  {
    var task := Task(0, Some(7), None, Queued, None, None, 0, 0, None);
    var q1 := Apply(START, Enqueue(task));
    var q2 := Apply(q1, Claim(1, 0, 0));
    var q3 := Apply(q2, RecoverLeases(700, 600));
    var q4 := Apply(q3, Claim(2, 0, 700));
    var q5 := Apply(q4, GiveUp(1));
    var q6 := Apply(q5, Succeed(2, 701));
    assert q3.tasks[0].status.Queued?;
    assert q5.tasks[0].status.Cancelled?;
    RunSix(START, Enqueue(task), Claim(1, 0, 0), RecoverLeases(700, 600), Claim(2, 0, 700), GiveUp(1), Succeed(2, 701));
  }

  lemma RunFirst(q: System, step: Step, more: seq<Step>)
    ensures Run(q, [step] + more) == Run(Apply(q, step), more)
  {
    assert ([step] + more)[1..] == more;
  }

  lemma RunSix(q: System, a: Step, b: Step, c: Step, d: Step, e: Step, f: Step)
    ensures Run(q, [a, b, c, d, e, f]) == Apply(Apply(Apply(Apply(Apply(Apply(q, a), b), c), d), e), f)
  {
    var q3, q5 := Apply(Apply(Apply(q, a), b), c), Apply(Apply(Apply(Apply(Apply(q, a), b), c), d), e);
    assert [a, b, c, d, e, f] == [a] + ([b] + ([c] + ([d] + ([e] + ([f] + [])))));
    RunFirst(q, a, [b] + ([c] + ([d] + ([e] + ([f] + [])))));
    RunFirst(Apply(q, a), b, [c] + ([d] + ([e] + ([f] + []))));
    RunFirst(Apply(Apply(q, a), b), c, [d] + ([e] + ([f] + [])));
    RunFirst(q3, d, [e] + ([f] + []));
    RunFirst(Apply(q3, d), e, [f] + []);
    RunFirst(q5, f, []);
  }
}
