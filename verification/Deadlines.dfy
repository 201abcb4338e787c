/** Which offers a step issues, on which terms, and how long they can be accepted. */
module Deadlines {
  import opened Tables
  import opened Transactions
  import opened Invariant
  import opened RowWrites
  import opened Safety
  import opened Evolution
  import opened Admission
  import opened Guarantees

  /** The steps that issue offers. */
  predicate Issues(step: Step) {
    step.Start? || step.Replenish? || step.RefillQuota? || step.Resume? || step.Execute? || step.SendBatch?
    || step.SendManual? || step.SendSpecial?
  }

  function SourceOf(step: Step): Source {
    match step
    case SendManual(_, _, _, _) => FromManual
    case SendSpecial(_, _, _, _, _) => Special
    case SendBatch(_, _, _, _, _) => FromBatch
    case _ => FromAuto
  }

  /** Row i was added on these terms: PENDING, of the activity, for as many hours of 3600 seconds as it grants. */
  predicate IssuedAt(s: State, r: State, i: nat, a: nat, now: int, source: Source, batch: Option<nat>)
    requires Refs(r)
  {
    && i < |r.offers| && a < |s.activities| && ActOf(r, i) == a
    && r.offers[i] == Offer(r.offers[i].application, OfferStatus.Pending, source, batch,
                            now + s.activities[a].expireHours * 3600)
  }

  /** Every offer that is new was issued on these terms. */
  predicate AllIssuedAt(s: State, r: State, a: nat, now: int, source: Source, batch: Option<nat>) {
    Refs(r) && forall i :: |s.offers| <= i < |r.offers| ==> IssuedAt(s, r, i, a, now, source, batch)
  }

  predicate NoneIssued(s: State, r: State) { |r.offers| == |s.offers| }

  // ---------- step by step ----------

  lemma RefillIssues(s: State, a: nat, now: int)
    requires Refs(s)
    ensures AllIssuedAt(s, Refill(s, a, now), a, now, FromAuto, None)
  {
    if a < |s.activities| {
      FillGrown(s, a, 0, AutoTerms(s, a, now));
    }
  }

  /** A refill of a state with the same offers and the same hours. */
  lemma RefillOfIssues(s: State, open: State, a: nat, now: int)
    requires Refs(s) && Refs(open) && |open.offers| == |s.offers| && |open.activities| == |s.activities|
    requires a < |s.activities| ==> open.activities[a].expireHours == s.activities[a].expireHours
    ensures AllIssuedAt(s, Refill(open, a, now), a, now, FromAuto, None)
  {
    RefillIssues(open, a, now);
    forall i | |s.offers| <= i < |Refill(open, a, now).offers|
      ensures IssuedAt(s, Refill(open, a, now), i, a, now, FromAuto, None)
    {
      assert IssuedAt(open, Refill(open, a, now), i, a, now, FromAuto, None);
    }
  }

  lemma SettledSame(s: State, a: nat, now: int)
    requires Refs(s)
    ensures NoneIssued(s, SettleActivity(s, a, now))
  {
  }

  lemma StartIssues(s: State, a: nat, hasOwner: bool, smtpReady: bool, now: int)
    requires Safe(s)
    ensures AllIssuedAt(s, StartAdmission(s, a, hasOwner, smtpReady, now).after, a, now, FromAuto, None)
  {
    StartOutcome(s, a, hasOwner, smtpReady, now);
    if a < |s.activities| {
      RefillOfIssues(s, SetActivity(s, a, s.activities[a].(frozen := true, startedAt := Some(now))), a, now);
    }
  }

  lemma ClosedIssues(s: State, filled: State, a: nat, now: int)
    requires Refs(filled) && AllIssuedAt(s, filled, a, now, FromAuto, None)
    ensures AllIssuedAt(s, CloseIntents(filled, a), a, now, FromAuto, None)
  {
    forall i | |s.offers| <= i < |filled.offers|
      ensures IssuedAt(s, CloseIntents(filled, a), i, a, now, FromAuto, None)
    {
      assert IssuedAt(s, filled, i, a, now, FromAuto, None);
    }
  }

  lemma ExecuteIssues(s: State, a: nat, now: int)
    requires Refs(s)
    ensures AllIssuedAt(s, ExecuteOne(s, a, now), a, now, FromAuto, None)
  {
    RefillIssues(s, a, now);
    ClosedIssues(s, Refill(s, a, now), a, now);
  }

  lemma ResumeIssues(s: State, a: nat, now: int)
    requires Refs(s)
    ensures AllIssuedAt(s, ResumeRefill(s, a, now).after, a, now, FromAuto, None)
  {
    ResumeOutcome(s, a, now);
    if a < |s.activities| {
      var open := SetActivity(SettleActivity(s, a, now), a, s.activities[a].(paused := false));
      SettledSame(s, a, now);
      RefillOfIssues(s, open, a, now);
      ClosedIssues(s, Refill(open, a, now), a, now);
    }
  }

  lemma QuotaRefillIssues(s: State, a: nat, fillWorks: bool, intentWorks: bool, now: int)
    requires Refs(s)
    ensures AllIssuedAt(s, QuotaRefill(s, a, fillWorks, intentWorks, now), a, now, FromAuto, None)
  {
    RefillOfIssues(s, s.(owed := s.owed - {a}), a, now);
  }

  lemma BatchIssues(s: State, a: nat, limit: nat, platformDefault: int, smtpReady: bool, now: int)
    requires Refs(s)
    ensures AllIssuedAt(s, IssueBatch(s, a, limit, platformDefault, smtpReady, now).after, a, now, FromBatch,
                        Some(s.nextBatch))
  {
    BatchOutcome(s, a, limit, platformDefault, smtpReady, now);
    if a < |s.activities| {
      BatchRecordIssues(s, a, BatchLimit(s.activities[a], limit, platformDefault), now);
    }
  }

  lemma BatchRecordIssues(s: State, a: nat, size: int, now: int)
    requires Refs(s) && a < |s.activities|
    ensures size > 0 ==>
      AllIssuedAt(s, BatchRecorded(s, BatchFilled(s, a, size, now), a), a, now, FromBatch, Some(s.nextBatch))
  {
    if size > 0 {
      FillGrown(s.(nextBatch := s.nextBatch + 1), a, size, BatchTerms(s, a, now));
      var filled, r := BatchFilled(s, a, size, now), BatchRecorded(s, BatchFilled(s, a, size, now), a);
      forall i | |s.offers| <= i < |r.offers| ensures IssuedAt(s, r, i, a, now, FromBatch, Some(s.nextBatch)) {
        assert r.offers[i] == filled.offers[i] && ActOf(r, i) == ActOf(filled, i) == a;
      }
    }
  }

  lemma ByHandIssues(s: State, a: nat, k: nat, reasonGiven: bool, smtpReady: bool, now: int)
    requires Refs(s)
    ensures AllIssuedAt(s, IssueManual(s, a, k, smtpReady, now).after, a, now, FromManual, None)
    ensures AllIssuedAt(s, IssueSpecial(s, a, k, reasonGiven, smtpReady, now).after, a, now, Special, None)
  {
  }

  lemma QuietIssuesNothing(s: State, step: Step)
    requires Safe(s) && !Issues(step)
    ensures NoneIssued(s, Apply(s, step))
  {
    if step.Accept? {
      AcceptOutcome(s, step.o, step.now);
    } else if step.Decline? {
      DeclineOutcome(s, step.o, step.now);
    } else if step.OrderTie? || step.Import? || step.Correct? {
      PreparingIssuesNothing(s, step);
    }
  }

  lemma PreparingIssuesNothing(s: State, step: Step)
    requires Refs(s) && (step.OrderTie? || step.Import? || step.Correct?)
    ensures NoneIssued(s, Apply(s, step))
  {
  }

  lemma RefillingIssues(s: State, step: Step)
    requires Safe(s) && (step.Start? || step.Replenish? || step.RefillQuota? || step.Resume? || step.Execute?)
    ensures AllIssuedAt(s, Apply(s, step), step.a, step.now, FromAuto, None)
  {
    match step
    case Start(a, hasOwner, smtpReady, now) => StartIssues(s, a, hasOwner, smtpReady, now);
    case Replenish(a, now) => RefillIssues(s, a, now);
    case RefillQuota(a, fillWorks, intentWorks, now) => QuotaRefillIssues(s, a, fillWorks, intentWorks, now);
    case Resume(a, now) => ResumeIssues(s, a, now);
    case Execute(a, now) => ExecuteIssues(s, a, now);
  }

  lemma SendingIssues(s: State, step: Step)
    requires Safe(s) && (step.SendBatch? || step.SendManual? || step.SendSpecial?)
    ensures AllIssuedAt(s, Apply(s, step), step.a, step.now, SourceOf(step),
                        if step.SendBatch? then Some(s.nextBatch) else None)
  {
    match step
    case SendBatch(a, limit, platformDefault, smtpReady, now) =>
      BatchIssues(s, a, limit, platformDefault, smtpReady, now);
    case SendManual(a, k, smtpReady, now) => ByHandIssues(s, a, k, true, smtpReady, now);
    case SendSpecial(a, k, reasonGiven, smtpReady, now) => ByHandIssues(s, a, k, reasonGiven, smtpReady, now);
  }

  /** Whatever the step: a new offer is one of its own activity, PENDING, from the step's own source, linked to the new
      batch exactly when it is a batch, and it expires as many hours after the step as the activity grants. */
  lemma FreshOffer(s: State, step: Step, i: nat)
    requires Safe(s) && |s.offers| <= i < |Apply(s, step).offers|
    ensures Issues(step)
    ensures IssuedAt(s, Apply(s, step), i, step.a, step.now, SourceOf(step),
                     if step.SendBatch? then Some(s.nextBatch) else None)
  {
    if step.SendBatch? || step.SendManual? || step.SendSpecial? {
      SendingIssues(s, step);
    } else if Issues(step) {
      RefillingIssues(s, step);
    } else {
      QuietIssuesNothing(s, step);
    }
  }

  // ---------- how long an offer can be accepted ----------

  lemma AcceptedInTime(s: State, o: nat, t: int)
    requires Safe(s) && o < |s.offers| && s.offers[o].status.Pending? && s.activities[ActOf(s, o)].status.Active?
    ensures AcceptTx(s, o, t).reply.AcceptedNow? <==> t < s.offers[o].expiresAt
    ensures DeclineTx(s, o, t).reply.DeclinedNow? <==> t < s.offers[o].expiresAt
  {
    PendingIsOffered(s, o);
    AcceptOpen(s, o, t);
  }

  /** An offer can be taken, and can be refused, as long as it is PENDING and its activity ACTIVE, for exactly the hours
      its activity granted when it was issued. */
  lemma OfferStands(steps: seq<Step>, step: Step, more: seq<Step>, i: nat, t: int)
    requires var s := Reach(steps); |s.offers| <= i < |Apply(s, step).offers|
    ensures Issues(step) && step.a < |Reach(steps).activities| && i < |Run(Apply(Reach(steps), step), more).offers|
    ensures var u := Run(Apply(Reach(steps), step), more);
      var end := step.now + Reach(steps).activities[step.a].expireHours * 3600;
      u.offers[i].status.Pending? && u.activities[ActOf(u, i)].status.Active? ==>
        && (AcceptTx(u, i, t).reply.AcceptedNow? <==> t < end)
        && (DeclineTx(u, i, t).reply.DeclinedNow? <==> t < end)
  {
    ReachSafe(steps);
    var s := Reach(steps);
    var r := Apply(s, step);
    var u := Run(r, more);
    FreshOffer(s, step, i);
    StepKeeps(s, step);
    RunKeeps(r, more);
    RunEvolves(r, more);
    assert OfferEvolves(r.offers[i], u.offers[i]);
    if u.offers[i].status.Pending? && u.activities[ActOf(u, i)].status.Active? {
      AcceptedInTime(u, i, t);
    }
  }
}
