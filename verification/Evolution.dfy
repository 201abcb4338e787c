/** What no transaction ever takes back. */
module Evolution {
  import opened OrderBy
  import opened Tables
  import opened Transactions
  import opened Invariant
  import opened RowWrites
  import opened Filling
  import opened Preparing
  import opened Safety

  /** An offer keeps its terms for ever, and a settled offer keeps its status. */
  predicate OfferEvolves(x: Offer, y: Offer) {
    y == x.(status := y.status) && (x.status.Pending? || y == x)
  }

  predicate OffersEvolve(x: seq<Offer>, y: seq<Offer>) {
    |x| <= |y| && forall i :: 0 <= i < |x| ==> OfferEvolves(x[i], y[i])
  }

  /** An acceptance is final. */
  predicate CandidateEvolves(x: Candidate, y: Candidate) {
    y.studentId == x.studentId && (x.acceptedOffer.Some? ==> y.acceptedOffer == x.acceptedOffer)
  }

  predicate CandidatesEvolve(x: seq<Candidate>, y: seq<Candidate>) {
    |x| <= |y| && forall c :: 0 <= c < |x| ==> CandidateEvolves(x[c], y[c])
  }

  /** The mode and the order are fixed by the start of admission, and an archived activity is never revived. */
  predicate ActivityEvolves(x: Activity, y: Activity) {
    && (x.frozen ==> y.frozen && y.mode == x.mode && y.startedAt == x.startedAt)
    && (x.status.Archived? ==> y.status.Archived?)
    && (x.platformPaused ==> y.platformPaused)
  }

  predicate ActivitiesEvolve(x: seq<Activity>, y: seq<Activity>) {
    |x| <= |y| && forall a :: 0 <= a < |x| ==> ActivityEvolves(x[a], y[a])
  }

  /** Nobody returns to the queue, ACCEPTED and INELIGIBLE are final, and once the ranking is frozen neither score nor
      rank changes. */
  predicate ApplicationEvolves(x: Application, y: Application, frozen: bool) {
    && y.activity == x.activity && y.candidate == x.candidate && y.importOrder == x.importOrder
    && (x.status.Waiting? || !y.status.Waiting?)
    && (x.status.Accepted? || x.status.Ineligible? ==> y.status == x.status)
    && (frozen ==> y == x.(status := y.status))
  }

  predicate Frozen(s: State, a: nat) { a < |s.activities| && s.activities[a].frozen }

  predicate ApplicationsEvolve(s: State, r: State) {
    && |s.applications| <= |r.applications|
    && forall k :: 0 <= k < |s.applications| ==>
         ApplicationEvolves(s.applications[k], r.applications[k], Frozen(s, s.applications[k].activity))
  }

  predicate IntentEvolves(x: Intent, y: Intent) { y == x.(pending := y.pending) && (y.pending ==> x.pending) }

  /** Intents are only added and closed, batch records only added, batch ids never reused. */
  predicate RecordsEvolve(s: State, r: State) {
    && |s.intents| <= |r.intents| && (forall j :: 0 <= j < |s.intents| ==> IntentEvolves(s.intents[j], r.intents[j]))
    && s.batches <= r.batches && s.nextBatch <= r.nextBatch
  }

  predicate Evolves(s: State, r: State) {
    && OffersEvolve(s.offers, r.offers) && CandidatesEvolve(s.candidates, r.candidates)
    && ActivitiesEvolve(s.activities, r.activities) && ApplicationsEvolve(s, r) && RecordsEvolve(s, r)
  }

  lemma SameEvolves(s: State)
    ensures Evolves(s, s)
  {
  }

  lemma ApplicationsChain(s: State, m: State, r: State)
    requires ActivitiesEvolve(s.activities, m.activities) && ApplicationsEvolve(s, m) && ApplicationsEvolve(m, r)
    ensures ApplicationsEvolve(s, r)
  {
    forall k | 0 <= k < |s.applications|
      ensures ApplicationEvolves(s.applications[k], r.applications[k], Frozen(s, s.applications[k].activity))
    {
      var a := s.applications[k].activity;
      assert ApplicationEvolves(s.applications[k], m.applications[k], Frozen(s, a));
      assert ApplicationEvolves(m.applications[k], r.applications[k], Frozen(m, a));
      assert a < |s.activities| ==> ActivityEvolves(s.activities[a], m.activities[a]);
    }
  }

  lemma RecordsChain(s: State, m: State, r: State)
    requires RecordsEvolve(s, m) && RecordsEvolve(m, r)
    ensures RecordsEvolve(s, r)
  {
    forall j | 0 <= j < |s.intents| ensures IntentEvolves(s.intents[j], r.intents[j]) {
      assert IntentEvolves(s.intents[j], m.intents[j]) && IntentEvolves(m.intents[j], r.intents[j]);
    }
  }

  /** What is never taken back by two steps is never taken back by both in a row. */
  lemma EvolvesChain(s: State, m: State, r: State)
    requires Evolves(s, m) && Evolves(m, r)
    ensures Evolves(s, r)
  {
    forall i | 0 <= i < |s.offers| ensures OfferEvolves(s.offers[i], r.offers[i]) {
      assert OfferEvolves(s.offers[i], m.offers[i]) && OfferEvolves(m.offers[i], r.offers[i]);
    }
    forall c | 0 <= c < |s.candidates| ensures CandidateEvolves(s.candidates[c], r.candidates[c]) {
      assert CandidateEvolves(s.candidates[c], m.candidates[c]) && CandidateEvolves(m.candidates[c], r.candidates[c]);
    }
    forall a | 0 <= a < |s.activities| ensures ActivityEvolves(s.activities[a], r.activities[a]) {
      assert ActivityEvolves(s.activities[a], m.activities[a]) && ActivityEvolves(m.activities[a], r.activities[a]);
    }
    ApplicationsChain(s, m, r);
    RecordsChain(s, m, r);
  }

  // ---------- the writes ----------

  lemma PreparedEvolves(s: State, r: State, a: nat)
    requires Prepared(s, r, a)
    ensures Evolves(s, r)
  {
    forall k | 0 <= k < |s.applications|
      ensures ApplicationEvolves(s.applications[k], r.applications[k], Frozen(s, s.applications[k].activity))
    {
      assert SameApplicant(s.applications[k], r.applications[k], a);
    }
  }

  lemma SettingEvolves(s: State, a: nat, act: Activity)
    requires a < |s.activities| && ActivityEvolves(s.activities[a], act)
    ensures Evolves(s, SetActivity(s, a, act))
  {
  }

  predicate Offerable(status: AppStatus) { status.Waiting? || status.Declined? || status.Expired? }

  lemma IssueEvolves(s: State, k: nat, terms: Terms)
    requires Refs(s) && k < |s.applications| && Offerable(s.applications[k].status)
    ensures Evolves(s, Issue(s, k, terms))
  {
  }

  lemma CloseEvolves(s: State, i: nat, to: OfferStatus, why: Reason)
    requires Refs(s) && i < |s.offers| && !to.Pending?
    ensures Evolves(s, CloseOne(s, i, to, why))
  {
  }

  lemma {:induction false} CloseAllEvolves(s: State, ids: seq<nat>, to: OfferStatus, why: Reason)
    requires Refs(s) && Named(s, ids) && !to.Pending?
    ensures Evolves(s, CloseAll(s, ids, to, why))
    decreases |ids|
  {
    if ids != [] {
      var first := CloseOne(s, ids[0], to, why);
      CloseEvolves(s, ids[0], to, why);
      CloseAllEvolves(first, ids[1..], to, why);
      EvolvesChain(s, first, CloseAll(s, ids, to, why));
    }
  }

  lemma TurnEvolves(s: State, k: nat, terms: Terms)
    requires Refs(s) && k < |s.applications| && s.applications[k].status.Waiting?
    ensures Evolves(s, Turn(s, k, terms))
  {
  }

  lemma {:induction false} FillLoopEvolves(s: State, a: nat, room: nat, terms: Terms)
    requires Refs(s)
    ensures Evolves(s, FillLoop(s, a, room, terms))
    decreases Queue(s, a)
  {
    if room == 0 || Queue(s, a) == {} {
      SameEvolves(s);
    } else {
      var k := NextWaiting(s, a);
      var next := Turn(s, k, terms);
      QueueShrinks(s, a, k, next);
      TurnEvolves(s, k, terms);
      FillLoopEvolves(next, a, if HasAccepted(s, k) then room else room - 1, terms);
      EvolvesChain(s, next, FillLoop(s, a, room, terms));
    }
  }

  lemma FillEvolves(s: State, a: nat, limit: nat, terms: Terms)
    requires Refs(s)
    ensures Evolves(s, Fill(s, a, limit, terms))
  {
    if a < |s.activities| {
      FillLoopEvolves(s, a, Room(s, a, limit), terms);
    }
  }

  lemma RefillEvolves(s: State, a: nat, now: int)
    requires Refs(s)
    ensures Evolves(s, Refill(s, a, now))
  {
    if a < |s.activities| {
      FillEvolves(s, a, 0, AutoTerms(s, a, now));
    }
  }

  lemma RecordedEvolves(s: State, r: State)
    requires RecordsEvolve(s, r) && SameTables(s, r)
    ensures Evolves(s, r)
  {
  }

  lemma CloseIntentsEvolves(s: State, a: nat)
    ensures Evolves(s, CloseIntents(s, a))
  {
  }

  lemma AddIntentEvolves(s: State, a: nat, why: Reason, offer: Option<nat>)
    requires a < |s.activities|
    ensures Evolves(s, AddIntent(s, a, why, offer))
  {
  }

  // ---------- the transactions ----------

  lemma SettleEvolves(s: State, a: nat, now: int)
    requires Refs(s)
    ensures Evolves(s, SettleActivity(s, a, now))
  {
    var due := Sorted(LockKeys(s), DueIn(s, a, now));
    forall j | 0 <= j < |due| ensures due[j] < |s.offers| {
      assert due[j] in DueIn(s, a, now);
    }
    CloseAllEvolves(s, due, OfferStatus.Expired, Reason.OfferExpired);
  }

  lemma TakeEvolves(s: State, o: nat)
    requires Refs(s) && Statuses(s) && o < |s.offers| && s.offers[o].status.Pending?
    requires s.candidates[CandOf(s, o)].acceptedOffer.None?
    ensures Evolves(s, Take(s, o))
  {
    assert StatusFits(s, s.offers[o].application);
  }

  lemma AcceptEvolves(s: State, o: nat, now: int)
    requires Refs(s) && Statuses(s) && Clean(s)
    ensures Evolves(s, AcceptTx(s, o, now).after)
  {
    AcceptOutcome(s, o, now);
    if AcceptTx(s, o, now).after == s {
      SameEvolves(s);
    } else if s.offers[o].expiresAt <= now {
      CloseEvolves(s, o, OfferStatus.Expired, Reason.OfferExpired);
    } else {
      var taken := Take(s, o);
      TakeEvolves(s, o);
      CloseAllEvolves(taken, Links(taken, CandOf(s, o)), OfferStatus.Declined, CrossActivityDecline);
      EvolvesChain(s, taken, Accepting(s, o));
    }
  }

  lemma DeclineEvolves(s: State, o: nat, now: int)
    requires Refs(s) && Statuses(s)
    ensures Evolves(s, DeclineTx(s, o, now).after)
  {
    DeclineOutcome(s, o, now);
    if DeclineTx(s, o, now).after == s {
      SameEvolves(s);
    } else {
      CloseEvolves(s, o, OfferStatus.Declined, Reason.OfferDeclined);
    }
  }

  lemma StartEvolves(s: State, a: nat, hasOwner: bool, smtpReady: bool, now: int)
    requires Refs(s) && Settings(s) && Quotas(s)
    ensures Evolves(s, StartAdmission(s, a, hasOwner, smtpReady, now).after)
  {
    StartOutcome(s, a, hasOwner, smtpReady, now);
    var r := StartAdmission(s, a, hasOwner, smtpReady, now).after;
    if r == s {
      SameEvolves(s);
    } else {
      var started := SetActivity(s, a, s.activities[a].(frozen := true, startedAt := Some(now)));
      StartEvolvesRow(s, a, hasOwner, smtpReady, now);
      SettingEvolves(s, a, started.activities[a]);
      RefillEvolves(started, a, now);
      EvolvesChain(s, started, r);
    }
  }

  lemma StartEvolvesRow(s: State, a: nat, hasOwner: bool, smtpReady: bool, now: int)
    requires Refs(s) && Settings(s) && a < |s.activities| && StartAdmission(s, a, hasOwner, smtpReady, now).after != s
    ensures ActivityEvolves(s.activities[a], s.activities[a].(frozen := true, startedAt := Some(now)))
  {
    assert SettingsOk(s.activities[a]);
  }

  lemma BatchEvolves(s: State, a: nat, limit: nat, platformDefault: int, smtpReady: bool, now: int)
    requires Refs(s)
    ensures Evolves(s, IssueBatch(s, a, limit, platformDefault, smtpReady, now).after)
  {
    BatchOutcome(s, a, limit, platformDefault, smtpReady, now);
    var r := IssueBatch(s, a, limit, platformDefault, smtpReady, now).after;
    if r == s {
      SameEvolves(s);
    } else {
      BatchRecordEvolves(s, a, BatchLimit(s.activities[a], limit, platformDefault), now);
    }
  }

  lemma BatchRecordEvolves(s: State, a: nat, size: nat, now: int)
    requires Refs(s) && a < |s.activities|
    ensures Evolves(s, BatchRecorded(s, BatchFilled(s, a, size, now), a))
  {
    var open, filled := s.(nextBatch := s.nextBatch + 1), BatchFilled(s, a, size, now);
    RecordedEvolves(s, open);
    FillEvolves(open, a, size, BatchTerms(s, a, now));
    FillGrown(open, a, size, BatchTerms(s, a, now));
    EvolvesChain(s, open, filled);
    RecordedEvolves(filled, BatchRecorded(s, filled, a));
    EvolvesChain(s, filled, BatchRecorded(s, filled, a));
  }

  lemma ResumeEvolves(s: State, a: nat, now: int)
    requires Refs(s)
    ensures Evolves(s, ResumeRefill(s, a, now).after)
  {
    ResumeOutcome(s, a, now);
    var r := ResumeRefill(s, a, now).after;
    if r == s {
      SameEvolves(s);
    } else {
      var settled := SettleActivity(s, a, now);
      var open := SetActivity(settled, a, s.activities[a].(paused := false));
      SettleEvolves(s, a, now);
      SettingEvolves(settled, a, open.activities[a]);
      EvolvesChain(s, settled, open);
      ServedEvolves(open, a, now);
      EvolvesChain(s, open, r);
    }
  }

  lemma ServedEvolves(s: State, a: nat, now: int)
    requires Refs(s)
    ensures Evolves(s, CloseIntents(Refill(s, a, now), a))
  {
    var filled := Refill(s, a, now);
    RefillEvolves(s, a, now);
    CloseIntentsEvolves(filled, a);
    EvolvesChain(s, filled, CloseIntents(filled, a));
  }

  lemma ExecuteEvolves(s: State, a: nat, now: int)
    requires Refs(s)
    ensures Evolves(s, ExecuteOne(s, a, now))
  {
    SameEvolves(s);
    ServedEvolves(s, a, now);
  }

  lemma ActivateEvolves(s: State, a: nat, now: int)
    requires Refs(s)
    ensures Evolves(s, Activate(s, a, now).after)
  {
    if Activate(s, a, now).reply.Done? {
      var open := SetActivity(s, a, s.activities[a].(status := Active));
      SettingEvolves(s, a, open.activities[a]);
      SettleEvolves(open, a, now);
      EvolvesChain(s, open, SettleActivity(open, a, now));
    } else {
      SameEvolves(s);
    }
  }

  lemma QuotaEvolves(s: State, a: nat, quota: int)
    requires Refs(s)
    ensures Evolves(s, UpdateQuota(s, a, quota).after)
  {
    QuotaOutcome(s, a, quota);
    var r := UpdateQuota(s, a, quota).after;
    if r == s {
      SameEvolves(s);
    } else {
      var changed := SetActivity(s, a, s.activities[a].(quota := quota));
      SettingEvolves(s, a, changed.activities[a]);
      IntentAdded(changed, a, QuotaIncrease, None);
      RecordedEvolves(changed, r);
      EvolvesChain(s, changed, r);
    }
  }

  lemma QuotaRefillEvolves(s: State, a: nat, fillWorks: bool, intentWorks: bool, now: int)
    requires Refs(s)
    ensures Evolves(s, QuotaRefill(s, a, fillWorks, intentWorks, now))
  {
    if a in s.owed && a < |s.activities| {
      var settled := s.(owed := s.owed - {a});
      RecordedEvolves(s, settled);
      if fillWorks {
        RefillEvolves(settled, a, now);
      } else if intentWorks {
        AddIntentEvolves(settled, a, QuotaIncrease, None);
      }
      SameEvolves(settled);
      EvolvesChain(s, settled, QuotaRefill(s, a, fillWorks, intentWorks, now));
    } else {
      SameEvolves(s);
    }
  }

  lemma PauseAllEvolves(s: State)
    ensures Evolves(s, PauseAllAutoRefills(s))
  {
  }

  lemma CreateEvolves(s: State, quota: int, mode: Option<Mode>, batchSize: int, expireHours: int, platform: Defaults)
    ensures Evolves(s, CreateActivity(s, quota, mode, batchSize, expireHours, platform).after)
  {
  }

  lemma ReviseEvolves(s: State, k: nat, profile: string, score: int)
    requires Refs(s) && k < |s.applications| && !s.activities[s.applications[k].activity].frozen
    ensures Evolves(s, Revise(s, k, profile, score))
  {
  }

  lemma ImportEvolves(s: State, a: nat, studentId: string, profile: string, score: int)
    requires Refs(s)
    ensures Evolves(s, ImportOne(s, a, studentId, profile, score).after)
  {
    SameEvolves(s);
    if ImportOne(s, a, studentId, profile, score).reply.Done? {
      var s1 := EnsureCandidate(s, studentId);
      EnsureCandidatePrepared(s, a, studentId);
      PreparedEvolves(s, s1, a);
      var c := FindCandidate(s1, |s1.candidates|, studentId);
      assert c >= 0 by {
        if FindCandidate(s, |s.candidates|, studentId) < 0 {
          assert s1.candidates[|s.candidates|].studentId == studentId;
        }
      }
      var k := FindApplication(s1, |s1.applications|, a, c);
      if k >= 0 {
        ReviseEvolves(s1, k, profile, score);
      } else {
        EnrolPrepared(s1, a, c, profile, score);
        PreparedEvolves(s1, Enrol(s1, a, c, profile, score), a);
      }
      EvolvesChain(s, s1, ImportOne(s, a, studentId, profile, score).after);
    }
  }

  lemma PatchEvolves(s: State, a: nat, k: nat, studentId: Option<string>, profile: Option<string>, score: Option<int>)
    requires Refs(s)
    ensures Evolves(s, Patch(s, a, k, studentId, profile, score).after)
  {
    SameEvolves(s);
    if Patch(s, a, k, studentId, profile, score).reply.Done? {
      var app := s.applications[k];
      ReviseEvolves(s, k, if profile.Some? then profile.value else app.profile,
          if score.Some? then score.value else app.score);
    }
  }

  lemma RecalculateEvolves(s: State, a: nat)
    ensures Evolves(s, Recalculate(s, a).after)
  {
  }

  lemma TieOrderEvolves(s: State, a: nat, ids: seq<nat>)
    requires Refs(s)
    ensures Evolves(s, TieOrder(s, a, ids).after)
  {
    TieOutcome(s, a, ids);
    if TieOrder(s, a, ids).after == s {
      SameEvolves(s);
    } else {
      TiePrepared(s, a, ids);
      PreparedEvolves(s, TieOrder(s, a, ids).after, a);
    }
  }

  lemma ManualEvolves(s: State, a: nat, k: nat, smtpReady: bool, now: int)
    requires Refs(s)
    ensures Evolves(s, IssueManual(s, a, k, smtpReady, now).after)
  {
    ManualOutcome(s, a, k, smtpReady, now);
    if IssueManual(s, a, k, smtpReady, now).after == s {
      SameEvolves(s);
    } else {
      IssueEvolves(s, k, Terms(FromManual, None, Deadline(s.activities[a], now)));
    }
  }

  lemma SpecialEvolves(s: State, a: nat, k: nat, reasonGiven: bool, smtpReady: bool, now: int)
    requires Refs(s)
    ensures Evolves(s, IssueSpecial(s, a, k, reasonGiven, smtpReady, now).after)
  {
    SpecialOutcome(s, a, k, reasonGiven, smtpReady, now);
    if IssueSpecial(s, a, k, reasonGiven, smtpReady, now).after == s {
      SameEvolves(s);
    } else {
      IssueEvolves(s, k, Terms(Special, None, Deadline(s.activities[a], now)));
    }
  }

  lemma ModeEvolves(s: State, a: nat, mode: Mode)
    ensures Evolves(s, UpdateOfferMode(s, a, mode).after)
  {
  }

  lemma LifecycleEvolves(s: State, a: nat)
    requires Refs(s)
    ensures Evolves(s, Disable(s, a).after) && Evolves(s, Archive(s, a).after)
  {
  }

  lemma PauseEvolves(s: State, a: nat)
    ensures Evolves(s, PauseRefill(s, a).after)
  {
  }

  lemma SettleGroupEvolves(s: State, a: nat, ids: seq<nat>, now: int)
    requires Refs(s)
    ensures Evolves(s, SettleGroup(s, a, ids, now))
  {
    SameEvolves(s);
    CloseAllEvolves(s, StillDue(s, a, ids, now), OfferStatus.Expired, Reason.OfferExpired);
  }
}
