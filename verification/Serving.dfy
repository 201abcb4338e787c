/** An intent is closed only when the seats it promises are filled or nobody waits for them. */
module Serving {
  import opened OrderBy
  import opened Tables
  import opened Transactions
  import opened Invariant
  import opened RowWrites
  import opened Preparing
  import opened Safety
  import opened Evolution
  import opened Admission
  import opened Guarantees

  /** The activity is full, or nobody waits for it. */
  predicate Satisfied(s: State, a: nat)
    requires Refs(s)
  {
    a < |s.activities| && (Occupied(s, a) == s.activities[a].quota || Queue(s, a) == {})
  }

  predicate Started(s: State, a: nat) {
    a < |s.activities| && s.activities[a].frozen && s.activities[a].mode.Auto?
  }

  /** Refills are promised to started AUTO activities only. */
  predicate Grounded(s: State) {
    && (forall j :: 0 <= j < |s.intents| ==> Started(s, s.intents[j].activity))
    && (forall a :: a in s.owed ==> Started(s, a))
  }

  predicate OffersStarted(s: State)
    requires Refs(s)
  {
    forall i :: 0 <= i < |s.offers| ==> s.activities[ActOf(s, i)].frozen
  }

  predicate FreshIntent(s: State, intent: Intent) { intent.pending && Started(s, intent.activity) }

  /** A step that serves nobody closes no intent, and promises refills only to started AUTO activities. */
  predicate Promises(s: State, r: State) {
    && s.intents <= r.intents
    && (forall j :: |s.intents| <= j < |r.intents| ==> FreshIntent(s, r.intents[j]))
    && (forall a :: a in r.owed ==> a in s.owed || Started(s, a))
  }

  lemma Unpromising(s: State, r: State)
    requires r.intents == s.intents && r.owed <= s.owed
    ensures Promises(s, r)
  {
  }

  lemma PromisesChain(s: State, m: State, r: State)
    requires Promises(s, m) && Promises(m, r) && m.activities == s.activities
    ensures Promises(s, r)
  {
    forall j | |s.intents| <= j < |r.intents| ensures FreshIntent(s, r.intents[j]) {
      if j < |m.intents| {
        assert r.intents[j] == m.intents[j];
      } else {
        assert FreshIntent(m, r.intents[j]);
      }
    }
  }

  // ---------- the transactions that only promise ----------

  lemma AddIntentPromises(s: State, a: nat, why: Reason, offer: Option<nat>)
    requires a < |s.activities| && s.activities[a].frozen
    ensures Promises(s, AddIntent(s, a, why, offer))
  {
  }

  lemma OffersStayStarted(s: State, r: State)
    requires OffersKept(s, r) && OffersStarted(s)
    ensures OffersStarted(r)
  {
    forall i | 0 <= i < |r.offers| ensures r.activities[ActOf(r, i)].frozen {
      assert r.offers[i].application == s.offers[i].application && ActOf(r, i) == ActOf(s, i);
    }
  }

  predicate OffersKept(s: State, r: State) {
    Grown(s, r) && |r.offers| == |s.offers| && r.activities == s.activities
  }

  lemma CloseOnePromises(s: State, i: nat, to: OfferStatus, why: Reason)
    requires Refs(s) && OffersStarted(s) && i < |s.offers|
    ensures Promises(s, CloseOne(s, i, to, why)) && OffersStarted(CloseOne(s, i, to, why))
  {
    CloseOneGrown(s, i, to, why);
    OffersStayStarted(s, CloseOne(s, i, to, why));
  }

  lemma {:induction false} CloseAllPromises(s: State, ids: seq<nat>, to: OfferStatus, why: Reason)
    requires Refs(s) && OffersStarted(s) && Named(s, ids)
    ensures Promises(s, CloseAll(s, ids, to, why))
    decreases |ids|
  {
    if ids != [] {
      var first := CloseOne(s, ids[0], to, why);
      CloseOnePromises(s, ids[0], to, why);
      CloseAllPromises(first, ids[1..], to, why);
      PromisesChain(s, first, CloseAll(s, ids, to, why));
    }
  }

  lemma OffersAreStarted(s: State)
    requires Refs(s) && History(s)
    ensures OffersStarted(s)
  {
  }

  lemma SettlePromises(s: State, a: nat, now: int)
    requires Refs(s) && OffersStarted(s)
    ensures Promises(s, SettleActivity(s, a, now))
  {
    var due := Sorted(LockKeys(s), DueIn(s, a, now));
    forall j | 0 <= j < |due| ensures due[j] < |s.offers| {
      assert due[j] in DueIn(s, a, now);
    }
    CloseAllPromises(s, due, OfferStatus.Expired, Reason.OfferExpired);
  }

  lemma AcceptPromises(s: State, o: nat, now: int)
    requires Safe(s)
    ensures Promises(s, AcceptTx(s, o, now).after)
  {
    var r := AcceptTx(s, o, now).after;
    AcceptOutcome(s, o, now);
    OffersAreStarted(s);
    if r == s {
      Unpromising(s, r);
    } else if s.offers[o].expiresAt <= now {
      CloseOnePromises(s, o, OfferStatus.Expired, Reason.OfferExpired);
    } else {
      AcceptingPromises(s, o);
    }
  }

  lemma AcceptingPromises(s: State, o: nat)
    requires Refs(s) && OffersStarted(s) && o < |s.offers|
    ensures Promises(s, Accepting(s, o))
  {
    var taken := Take(s, o);
    TakeGrown(s, o);
    OffersStayStarted(s, taken);
    Unpromising(s, taken);
    CloseAllPromises(taken, Links(taken, CandOf(s, o)), OfferStatus.Declined, CrossActivityDecline);
    PromisesChain(s, taken, Accepting(s, o));
  }

  lemma DeclinePromises(s: State, o: nat, now: int)
    requires Safe(s)
    ensures Promises(s, DeclineTx(s, o, now).after)
  {
    DeclineOutcome(s, o, now);
    OffersAreStarted(s);
    if DeclineTx(s, o, now).after == s {
      Unpromising(s, s);
    } else {
      CloseOnePromises(s, o, OfferStatus.Declined, Reason.OfferDeclined);
    }
  }

  lemma SweepPromises(s: State, a: nat, ids: seq<nat>, now: int)
    requires Safe(s)
    ensures Promises(s, SettleGroup(s, a, ids, now))
  {
    Unpromising(s, s);
    OffersAreStarted(s);
    CloseAllPromises(s, StillDue(s, a, ids, now), OfferStatus.Expired, Reason.OfferExpired);
  }

  lemma ActivatePromises(s: State, a: nat, now: int)
    requires Safe(s)
    ensures Promises(s, Activate(s, a, now).after)
  {
    var r := Activate(s, a, now).after;
    ActivateChanges(s, a, now);
    if r == s {
      Unpromising(s, s);
    } else {
      var open := SetActivity(s, a, s.activities[a].(status := Active));
      OffersAreStarted(s);
      ReopenedStarted(s, open);
      SettlePromises(open, a, now);
      Reactivated(s, open, r);
    }
  }

  lemma ReopenedStarted(s: State, open: State)
    requires Refs(s) && Refs(open) && OffersStarted(s) && open == s.(activities := open.activities)
    requires |open.activities| == |s.activities|
    requires forall a :: 0 <= a < |s.activities| ==> open.activities[a].frozen == s.activities[a].frozen
    ensures OffersStarted(open)
  {
    forall i | 0 <= i < |open.offers| ensures open.activities[ActOf(open, i)].frozen {
      assert ActOf(open, i) == ActOf(s, i);
    }
  }

  lemma Reactivated(s: State, open: State, r: State)
    requires open == s.(activities := open.activities) && Promises(open, r)
    requires forall a: nat :: Started(open, a) ==> Started(s, a)
    ensures Promises(s, r)
  {
    forall j | |s.intents| <= j < |r.intents| ensures FreshIntent(s, r.intents[j]) {
      assert FreshIntent(open, r.intents[j]);
    }
  }

  lemma QuotaPromises(s: State, a: nat, quota: int)
    requires Refs(s)
    ensures Promises(s, UpdateQuota(s, a, quota).after)
  {
  }

  lemma QuotaRefillPromises(s: State, a: nat, fillWorks: bool, intentWorks: bool, now: int)
    requires Refs(s) && Grounded(s)
    ensures Promises(s, QuotaRefill(s, a, fillWorks, intentWorks, now))
  {
    if a in s.owed && a < |s.activities| {
      RefillRises(s.(owed := s.owed - {a}), a, now);
    }
  }

  lemma ImportPromises(s: State, a: nat, studentId: string, profile: string, score: int)
    requires Refs(s)
    ensures Promises(s, ImportOne(s, a, studentId, profile, score).after)
  {
    Unpromising(s, ImportOne(s, a, studentId, profile, score).after);
  }

  lemma PatchPromises(s: State, a: nat, k: nat, studentId: Option<string>, profile: Option<string>, score: Option<int>)
    requires Refs(s)
    ensures Promises(s, Patch(s, a, k, studentId, profile, score).after)
  {
    PatchOutcome(s, a, k, studentId, profile, score);
    Unpromising(s, Patch(s, a, k, studentId, profile, score).after);
  }

  lemma RankingPromises(s: State, a: nat, ids: seq<nat>)
    requires Refs(s)
    ensures Promises(s, Recalculate(s, a).after) && Promises(s, TieOrder(s, a, ids).after)
  {
    TieOutcome(s, a, ids);
    Unpromising(s, Recalculate(s, a).after);
    Unpromising(s, TieOrder(s, a, ids).after);
  }

  lemma PreparingPromises(s: State, step: Step)
    requires Safe(s)
    requires step.Create? || step.Import? || step.Correct? || step.Recompute? || step.OrderTie?
    ensures Promises(s, Apply(s, step))
  {
    match step
    case Create(quota, mode, size, hours, platform) =>
      Unpromising(s, CreateActivity(s, quota, mode, size, hours, platform).after);
    case Import(a, studentId, profile, score) => ImportPromises(s, a, studentId, profile, score);
    case Correct(a, k, studentId, profile, score) => PatchPromises(s, a, k, studentId, profile, score);
    case Recompute(a) => RankingPromises(s, a, []);
    case OrderTie(a, ids) => RankingPromises(s, a, ids);
  }

  lemma IssuingPromises(s: State, step: Step)
    requires Safe(s)
    requires step.Start? || step.Replenish? || step.SendBatch? || step.SendManual? || step.SendSpecial?
    ensures Promises(s, Apply(s, step))
  {
    var r := Apply(s, step);
    match step
    case Start(a, hasOwner, smtpReady, now) =>
      StartOutcome(s, a, hasOwner, smtpReady, now);
      if r != s {
        RefillRises(SetActivity(s, a, s.activities[a].(frozen := true, startedAt := Some(now))), a, now);
      }
      Unpromising(s, r);
    case Replenish(a, now) =>
      RefillRises(s, a, now);
      Unpromising(s, r);
    case SendBatch(a, limit, platformDefault, smtpReady, now) =>
      BatchPromises(s, a, limit, platformDefault, smtpReady, now);
    case SendManual(a, k, smtpReady, now) =>
      ManualOutcome(s, a, k, smtpReady, now);
      Unpromising(s, r);
    case SendSpecial(a, k, reasonGiven, smtpReady, now) =>
      SpecialOutcome(s, a, k, reasonGiven, smtpReady, now);
      Unpromising(s, r);
  }

  lemma BatchRecords(s: State, a: nat, size: nat, now: int)
    requires Refs(s) && a < |s.activities|
    ensures Promises(s, BatchRecorded(s, BatchFilled(s, a, size, now), a))
  {
    FillRises(s.(nextBatch := s.nextBatch + 1), a, size, BatchTerms(s, a, now));
    Unpromising(s, BatchRecorded(s, BatchFilled(s, a, size, now), a));
  }

  lemma BatchPromises(s: State, a: nat, limit: nat, platformDefault: int, smtpReady: bool, now: int)
    requires Refs(s)
    ensures Promises(s, IssueBatch(s, a, limit, platformDefault, smtpReady, now).after)
  {
    BatchOutcome(s, a, limit, platformDefault, smtpReady, now);
    if IssueBatch(s, a, limit, platformDefault, smtpReady, now).after == s {
      Unpromising(s, s);
    } else {
      BatchRecords(s, a, BatchLimit(s.activities[a], limit, platformDefault), now);
    }
  }

  lemma AnsweringPromises(s: State, step: Step)
    requires Safe(s) && Grounded(s)
    requires step.Accept? || step.Decline? || step.Sweep? || step.SetQuota? || step.RefillQuota? || step.SwitchOn?
    ensures Promises(s, Apply(s, step))
  {
    match step
    case Accept(o, now) => AcceptPromises(s, o, now);
    case Decline(o, now) => DeclinePromises(s, o, now);
    case Sweep(a, ids, now) => SweepPromises(s, a, ids, now);
    case SetQuota(a, quota) => QuotaPromises(s, a, quota);
    case RefillQuota(a, fillWorks, intentWorks, now) => QuotaRefillPromises(s, a, fillWorks, intentWorks, now);
    case SwitchOn(a, now) => ActivatePromises(s, a, now);
  }

  lemma SettingPromises(s: State, step: Step)
    requires Safe(s)
    requires step.Crash? || step.SetMode? || step.SwitchOff? || step.Shelve? || step.Pause? || step.PauseAll?
    ensures Promises(s, Apply(s, step))
  {
    Unpromising(s, Apply(s, step));
  }

  /** Every step but an execution and a resumption leaves the intents it finds as they are. */
  lemma OthersPromise(s: State, step: Step)
    requires Safe(s) && Grounded(s) && !step.Execute? && !step.Resume?
    ensures Promises(s, Apply(s, step))
  {
    if step.Create? || step.Import? || step.Correct? || step.Recompute? || step.OrderTie? {
      PreparingPromises(s, step);
    } else if step.Start? || step.Replenish? || step.SendBatch? || step.SendManual? || step.SendSpecial? {
      IssuingPromises(s, step);
    } else if step.Crash? || step.SetMode? || step.SwitchOff? || step.Shelve? || step.Pause? || step.PauseAll? {
      SettingPromises(s, step);
    } else {
      AnsweringPromises(s, step);
    }
  }

  // ---------- the two that serve ----------

  /** The intents of one activity are closed, and if it has any it is satisfied. */
  predicate Serves(s: State, r: State, a: nat)
    requires Refs(r)
  {
    && |s.intents| <= |r.intents| && r.owed <= s.owed
    && (forall j :: 0 <= j < |s.intents| ==> r.intents[j].activity == s.intents[j].activity)
    && (forall j :: 0 <= j < |s.intents| && r.intents[j].activity != a ==> r.intents[j] == s.intents[j])
    && (forall j :: |s.intents| <= j < |r.intents| ==> Started(s, r.intents[j].activity))
    && (forall j :: 0 <= j < |r.intents| && r.intents[j].activity != a && j >= |s.intents| ==> r.intents[j].pending)
    && (Started(s, a) ==> Satisfied(r, a))
  }

  lemma ClosingSatisfies(s: State, a: nat, now: int)
    requires Safe(s) && a < |s.activities| && MayRefill(s.activities[a])
    ensures Satisfied(CloseIntents(Refill(s, a, now), a), a)
  {
    var filled := Refill(s, a, now);
    RefillSafe(s, a, now);
    RefillRises(s, a, now);
    RefillServes(s, a, now);
    SamePlaces(filled, CloseIntents(filled, a), a);
    assert Queue(CloseIntents(filled, a), a) == Queue(filled, a);
    SeatsWithinQuota(filled, a);
  }

  lemma ExecuteServes(s: State, a: nat, now: int)
    requires Safe(s) && a < |s.activities| && MayRefill(s.activities[a])
    ensures Serves(s, CloseIntents(Refill(s, a, now), a), a)
  {
    RefillRises(s, a, now);
    ClosingSatisfies(s, a, now);
  }

  lemma ClosedServes(s: State, m: State, r: State, a: nat)
    requires Promises(s, m) && Refs(r) && r.owed == m.owed && m.owed == s.owed
    requires r.intents == CloseIntents(m, a).intents
    requires Started(s, a) ==> Satisfied(r, a)
    ensures Serves(s, r, a)
  {
    forall j | |s.intents| <= j < |r.intents|
      ensures Started(s, r.intents[j].activity) && (r.intents[j].activity != a ==> r.intents[j].pending)
    {
      assert FreshIntent(s, m.intents[j]);
    }
  }

  lemma ResumeServes(s: State, a: nat, now: int)
    requires Safe(s) && a < |s.activities| && s.activities[a].status.Active?
    ensures var open := SetActivity(SettleActivity(s, a, now), a, s.activities[a].(paused := false));
      Serves(s, CloseIntents(Refill(open, a, now), a), a)
  {
    var settled := SettleActivity(s, a, now);
    var open := SetActivity(settled, a, s.activities[a].(paused := false));
    SettleKeeps(s, a, now);
    OffersAreStarted(s);
    SettlePromises(s, a, now);
    SameSettings(settled, a);
    OneChange(settled, a, s.activities[a].(paused := false));
    RefillRises(open, a, now);
    if Started(s, a) {
      ClosingSatisfies(open, a, now);
    }
    ClosedServes(s, settled, CloseIntents(Refill(open, a, now), a), a);
  }

  // ---------- every step, every run ----------

  /** The intent is closed by the step: it was PENDING or not there before. */
  predicate BecomesClosed(s: State, r: State, j: nat) {
    j < |r.intents| && !r.intents[j].pending && (j < |s.intents| ==> s.intents[j].pending)
  }

  lemma PromisesGround(s: State, r: State)
    requires Grounded(s) && Evolves(s, r) && Promises(s, r)
    ensures Grounded(r)
  {
    forall j | 0 <= j < |r.intents| ensures Started(r, r.intents[j].activity) {
      if j < |s.intents| {
        assert r.intents[j] == s.intents[j];
      } else {
        assert FreshIntent(s, r.intents[j]);
      }
      StartedStays(s, r, r.intents[j].activity);
    }
    forall a | a in r.owed ensures Started(r, a) {
      StartedStays(s, r, a);
    }
  }

  lemma StartedStays(s: State, r: State, a: nat)
    requires Evolves(s, r) && Started(s, a)
    ensures Started(r, a)
  {
    assert ActivityEvolves(s.activities[a], r.activities[a]);
  }

  lemma ServesGround(s: State, r: State, a: nat)
    requires Refs(r) && Grounded(s) && Evolves(s, r) && Serves(s, r, a)
    ensures Grounded(r)
  {
    forall j | 0 <= j < |r.intents| ensures Started(r, r.intents[j].activity) {
      if j < |s.intents| {
        assert r.intents[j].activity == s.intents[j].activity;
      }
      StartedStays(s, r, r.intents[j].activity);
    }
    forall b | b in r.owed ensures Started(r, b) {
      StartedStays(s, r, b);
    }
  }

  lemma OthersCloseNothing(s: State, step: Step, j: nat)
    requires Safe(s) && Grounded(s) && !step.Execute? && !step.Resume?
    ensures !BecomesClosed(s, Apply(s, step), j)
  {
    var r := Apply(s, step);
    OthersPromise(s, step);
    if |s.intents| <= j < |r.intents| {
      assert FreshIntent(s, r.intents[j]);
    }
  }

  /** An intent is closed only by the executor, on an activity that may refill, or by the owner resuming the refills of
      his activity; and when it is, that activity is full or nobody waits for it. */
  lemma ClosedOnlyServed(s: State, step: Step, j: nat)
    requires Safe(s) && Grounded(s) && BecomesClosed(s, Apply(s, step), j)
    ensures var r := Apply(s, step);
      && (step.Execute? || step.Resume?) && step.a == r.intents[j].activity && Satisfied(r, step.a)
      && (step.Execute? ==> MayRefill(s.activities[step.a]))
      && (step.Resume? ==> s.activities[step.a].status.Active? && !s.activities[step.a].platformPaused)
  {
    if step.Execute? {
      ExecuteClosed(s, step.a, step.now, j);
    } else if step.Resume? {
      ResumeClosed(s, step.a, step.now, j);
    } else {
      OthersCloseNothing(s, step, j);
      assert false;
    }
  }

  lemma ServedIntent(s: State, r: State, a: nat, j: nat)
    requires Refs(r) && Grounded(s) && Serves(s, r, a) && BecomesClosed(s, r, j)
    ensures r.intents[j].activity == a && Satisfied(r, a)
  {
    assert j < |s.intents| ==> r.intents[j].activity == s.intents[j].activity;
  }

  lemma ExecuteClosed(s: State, a: nat, now: int, j: nat)
    requires Safe(s) && Grounded(s) && BecomesClosed(s, ExecuteOne(s, a, now), j)
    ensures var r := ExecuteOne(s, a, now);
      r.intents[j].activity == a && Satisfied(r, a) && MayRefill(s.activities[a])
  {
    assert ExecuteOne(s, a, now) != s;
    ExecuteServes(s, a, now);
    ServedIntent(s, ExecuteOne(s, a, now), a, j);
  }

  lemma ResumeClosed(s: State, a: nat, now: int, j: nat)
    requires Safe(s) && Grounded(s) && BecomesClosed(s, ResumeRefill(s, a, now).after, j)
    ensures var r := ResumeRefill(s, a, now).after;
      && r.intents[j].activity == a && Satisfied(r, a)
      && s.activities[a].status.Active? && !s.activities[a].platformPaused
  {
    var r := ResumeRefill(s, a, now).after;
    assert r != s;
    ResumeServes(s, a, now);
    ServedIntent(s, r, a, j);
  }

  lemma StepGrounds(s: State, step: Step)
    requires Safe(s) && Grounded(s)
    ensures Grounded(Apply(s, step))
  {
    StepEvolves(s, step);
    if step.Execute? {
      if Apply(s, step) != s {
        ExecuteServes(s, step.a, step.now);
        ServesGround(s, Apply(s, step), step.a);
      }
    } else if step.Resume? {
      if Apply(s, step) != s {
        ResumeServes(s, step.a, step.now);
        ServesGround(s, Apply(s, step), step.a);
      }
    } else {
      OthersPromise(s, step);
      PromisesGround(s, Apply(s, step));
    }
  }

  lemma {:induction false} RunGrounds(s: State, steps: seq<Step>)
    requires Safe(s) && Grounded(s)
    ensures Grounded(Run(s, steps))
    decreases |steps|
  {
    if steps != [] {
      StepKeeps(s, steps[0]);
      StepGrounds(s, steps[0]);
      RunGrounds(Apply(s, steps[0]), steps[1..]);
    }
  }

  /** Every promise of a refill in a reachable state is one to a started AUTO activity. */
  lemma ReachGrounded(steps: seq<Step>)
    ensures Grounded(Reach(steps))
  {
    EmptyIsSafe();
    RunGrounds(EMPTY, steps);
  }

  /** Step n of the run closed the intent, and left its activity full or without anybody waiting. */
  predicate ClosedAt(steps: seq<Step>, n: nat, j: nat)
    requires n < |steps|
  {
    var s, r := Reach(steps[..n]), Reach(steps[..n + 1]);
    && BecomesClosed(s, r, j) && (steps[n].Execute? || steps[n].Resume?)
    && steps[n].a == r.intents[j].activity && Satisfied(r, r.intents[j].activity)
  }

  lemma LastStep(front: seq<Step>, step: Step)
    ensures Reach(front + [step]) == Apply(Reach(front), step)
  {
    RunAppend(EMPTY, front, [step]);
    assert [step][1..] == [];
    assert Run(Apply(Reach(front), step), []) == Apply(Reach(front), step);
  }

  /** No intent is ever swallowed: every closed one was closed by an execution or a resumption of its activity that left
      the activity full or without anybody waiting. */
  lemma {:induction false} NoIntentIsSwallowed(steps: seq<Step>, j: nat)
    requires j < |Reach(steps).intents| && !Reach(steps).intents[j].pending
    ensures exists n :: 0 <= n < |steps| && ClosedAt(steps, n, j)
    decreases |steps|
  {
    assert steps != [];
    var front, last := steps[..|steps| - 1], steps[|steps| - 1];
    assert steps == front + [last];
    LastStep(front, last);
    var s := Reach(front);
    if BecomesClosed(s, Reach(steps), j) {
      ReachSafe(front);
      ReachGrounded(front);
      ClosedOnlyServed(s, last, j);
      assert steps[..|front|] == front && steps[..|front| + 1] == steps;
      assert ClosedAt(steps, |front|, j);
    } else {
      NoIntentIsSwallowed(front, j);
      var n :| 0 <= n < |front| && ClosedAt(front, n, j);
      assert steps[..n] == front[..n] && steps[..n + 1] == front[..n + 1];
      assert ClosedAt(steps, n, j);
    }
  }
}
