/** When a transaction commits, what it changes then, and why it refuses otherwise, in terms of the rows it finds. */
module Answers {
  import opened OrderBy
  import opened Tables
  import opened Transactions
  import opened Invariant
  import opened RowWrites
  import opened Filling
  import opened Preparing
  import opened Safety
  import opened Admission
  import opened Guarantees
  import opened Jobs
  import opened Serving
  import opened Refills
  import Views

  /** The activity exists and is ACTIVE. */
  predicate Opened(s: State, a: nat) { a < |s.activities| && s.activities[a].status.Active? }

  /** Any other status is refused under its own name. */
  predicate GateAnswers(s: State, a: nat, reply: Reply) {
    a < |s.activities| ==>
      && (s.activities[a].status.Disabled? ==> reply == Failed(ActivityDisabled))
      && (s.activities[a].status.Archived? ==> reply == Failed(ActivityArchived))
  }

  predicate Holds(s: State, k: nat) {
    k < |s.applications| && s.applications[k].candidate < |s.candidates|
    && s.candidates[s.applications[k].candidate].acceptedOffer.Some?
  }

  // ---------- settings and lifecycle ----------

  lemma QuotaAnswers(s: State, a: nat, quota: int)
    requires Refs(s)
    ensures var r := UpdateQuota(s, a, quota);
      && (r.reply == Failed(Validation) <==> quota < 1)
      && (r.reply == Failed(NotFound) <==> quota >= 1 && a >= |s.activities|)
      && (quota >= 1 ==> GateAnswers(s, a, r.reply))
      && (r.reply == Failed(QuotaTooSmall) <==> quota >= 1 && Opened(s, a) && quota < Occupied(s, a))
      && (r.reply == Done <==> quota >= 1 && Opened(s, a) && Occupied(s, a) <= quota)
      && (r.reply != Done ==> r.after == s)
    ensures UpdateQuota(s, a, quota).reply == Done ==>
      var act := s.activities[a];
      var raised := quota > act.quota && act.mode.Auto? && act.frozen;
      UpdateQuota(s, a, quota).after == s.(
        activities := s.activities[a := act.(quota := quota)],
        intents := s.intents + (if raised && act.paused then [Intent(a, QuotaIncrease, None, true)] else []),
        owed := s.owed + (if raised && !act.paused then {a} else {}))
  {
  }

  lemma ModeAnswers(s: State, a: nat, mode: Mode)
    ensures var r := UpdateOfferMode(s, a, mode);
      && (r.reply == Failed(NotFound) <==> a >= |s.activities|) && GateAnswers(s, a, r.reply)
      && (Opened(s, a) ==>
            if s.activities[a].startedAt.None? && !s.activities[a].frozen
            then r == Outcome(s.(activities := s.activities[a := s.activities[a].(mode := mode)]), Done)
            else r.reply == Failed(ModeLocked))
      && (r.reply != Done ==> r.after == s)
  {
  }

  lemma LifecycleAnswers(s: State, a: nat, now: int)
    requires Refs(s)
    ensures var r := Disable(s, a);
      && (r.reply == Failed(NotFound) <==> a >= |s.activities|)
      && (r.reply == Failed(Conflict) <==> a < |s.activities| && !s.activities[a].status.Active?)
      && (if Opened(s, a)
          then r == Outcome(s.(activities := s.activities[a := s.activities[a].(status := Disabled, paused := true)]),
                            Done)
          else r.after == s)
    ensures var r := Archive(s, a);
      var pending := exists i :: 0 <= i < |s.offers| && s.offers[i].status.Pending? && ActOf(s, i) == a;
      && (r.reply == Failed(NotFound) <==> a >= |s.activities|)
      && (r.reply == Failed(Conflict) <==> a < |s.activities| && (!s.activities[a].status.Active? || pending))
      && (if Opened(s, a) && !pending
          then r == Outcome(s.(activities := s.activities[a := s.activities[a].(status := Archived)]), Done)
          else r.after == s)
  {
    if i :| 0 <= i < |s.offers| && s.offers[i].status.Pending? && ActOf(s, i) == a {
      assert i in PendingIn(s, a);
    }
    if PendingIn(s, a) != {} {
      var i :| i in PendingIn(s, a);
      assert ActOf(s, i) == a;
    }
  }

  /** Re-activating: the status changes back, the overdue offers expire, and refills stay paused. */
  lemma ActivateAnswers(s: State, a: nat, now: int, i: nat)
    requires Refs(s)
    ensures var r := Activate(s, a, now);
      && (r.reply == Failed(NotFound) <==> a >= |s.activities|)
      && (r.reply == Failed(Conflict) <==> a < |s.activities| && !s.activities[a].status.Disabled?)
      && (r.reply == Done <==> a < |s.activities| && s.activities[a].status.Disabled?)
      && (r.reply != Done ==> r.after == s)
      && (r.reply == Done ==>
            && r.after.activities == s.activities[a := s.activities[a].(status := Active)]
            && |r.after.offers| == |s.offers|
            && (i < |s.offers| ==>
                  r.after.offers[i]
                  == if Overdue(s, a, i, now) then s.offers[i].(status := OfferStatus.Expired) else s.offers[i]))
  {
    if a < |s.activities| && s.activities[a].status.Disabled? && i < |s.offers| {
      var open := SetActivity(s, a, s.activities[a].(status := Active));
      SettleIsExact(open, a, now, i);
      assert ActOf(open, i) == ActOf(s, i);
    }
  }

  /** A running AUTO activity: ACTIVE with its admission started. */
  predicate RunningAuto(act: Activity) { act.status.Active? && act.mode.Auto? && act.startedAt.Some? && act.frozen }

  lemma PauseAnswers(s: State, a: nat)
    ensures var r := PauseRefill(s, a);
      && (r.reply == Failed(NotFound) <==> a >= |s.activities|)
      && (a < |s.activities| && s.activities[a].mode.Auto? ==> GateAnswers(s, a, r.reply))
      && (r.reply == Failed(Conflict) <==>
            a < |s.activities|
            && (!s.activities[a].mode.Auto? || (s.activities[a].status.Active? && !RunningAuto(s.activities[a]))))
      && (if a < |s.activities| && RunningAuto(s.activities[a])
          then r == Outcome(s.(activities := s.activities[a := s.activities[a].(paused := true)]), Done)
          else r.after == s && r.reply.Failed?)
    ensures var r := PauseAllAutoRefills(s);
      && r == s.(activities := r.activities) && |r.activities| == |s.activities|
      && forall b :: 0 <= b < |s.activities| ==>
           r.activities[b] == if RunningAuto(s.activities[b]) && !s.activities[b].platformPaused
                              then s.activities[b].(paused := true, platformPaused := true) else s.activities[b]
  {
  }

  /** Resuming: nothing when refills run already; otherwise the overdue offers expire, refills run again, the intents of
      the activity are closed, and a started activity is full afterwards or has nobody waiting. */
  lemma ResumeAnswers(s: State, a: nat, now: int)
    requires Refs(s)
    ensures var r := ResumeRefill(s, a, now); var known := a < |s.activities|;
      && (r.reply == Failed(NotFound) <==> !known)
      && (r.reply == Failed(Conflict) <==> known && !s.activities[a].mode.Auto?)
      && (known && s.activities[a].mode.Auto? ==> GateAnswers(s, a, r.reply))
      && (r.reply == Failed(Forbidden) <==>
            Opened(s, a) && s.activities[a].mode.Auto? && s.activities[a].platformPaused)
      && (r.reply.Issued? <==> Opened(s, a) && s.activities[a].mode.Auto? && !s.activities[a].platformPaused)
      && (r.reply.Failed? ==> r.after == s)
      && (r.reply.Issued? && !s.activities[a].paused ==> r == Outcome(s, Issued(0)))
  {
  }

  lemma ReopenedSafe(s: State, a: nat, now: int)
    requires Safe(s) && a < |s.activities| && s.activities[a].status.Active?
    ensures Safe(SetActivity(SettleActivity(s, a, now), a, s.activities[a].(paused := false)))
  {
    var settled := SettleActivity(s, a, now);
    SettleKeeps(s, a, now);
    SameSettings(settled, a);
    OneChange(settled, a, s.activities[a].(paused := false));
  }

  lemma ResumeRuns(s: State, a: nat, now: int)
    requires Refs(s) && a < |s.activities| && s.activities[a].paused && ResumeRefill(s, a, now).reply.Issued?
    ensures s.activities[a].status.Active? && s.activities[a].mode.Auto?
    ensures var filled := Refill(SetActivity(SettleActivity(s, a, now), a, s.activities[a].(paused := false)), a, now);
      ResumeRefill(s, a, now)
      == Outcome(CloseIntents(filled, a),
                 Issued(if |filled.offers| >= |s.offers| then |filled.offers| - |s.offers| else 0))
  {
  }

  lemma ResumeCommits(s: State, a: nat, now: int)
    requires Safe(s) && a < |s.activities| && s.activities[a].paused && ResumeRefill(s, a, now).reply.Issued?
    ensures var r := ResumeRefill(s, a, now);
      && r.after.activities == s.activities[a := s.activities[a].(paused := false)]
      && |s.offers| <= |r.after.offers| && r.reply == Issued(|r.after.offers| - |s.offers|)
      && (forall i :: 0 <= i < |s.offers| ==>
            r.after.offers[i]
            == if Overdue(s, a, i, now) then s.offers[i].(status := OfferStatus.Expired) else s.offers[i])
      && (forall j :: 0 <= j < |r.after.intents| && r.after.intents[j].activity == a ==> !r.after.intents[j].pending)
  {
    ResumeRuns(s, a, now);
    ReopenedFills(s, a, now);
    var settled := SettleActivity(s, a, now);
    ResumedRows(s, a, now, settled, Refill(SetActivity(settled, a, s.activities[a].(paused := false)), a, now));
  }

  lemma ResumedRows(s: State, a: nat, now: int, settled: State, filled: State)
    requires Refs(s) && a < |s.activities| && settled == SettleActivity(s, a, now) && settled.offers <= filled.offers
    requires filled.activities == s.activities[a := s.activities[a].(paused := false)]
    requires ResumeRefill(s, a, now)
      == Outcome(CloseIntents(filled, a),
                 Issued(if |filled.offers| >= |s.offers| then |filled.offers| - |s.offers| else 0))
    ensures var r := ResumeRefill(s, a, now);
      && r.after.activities == s.activities[a := s.activities[a].(paused := false)]
      && |s.offers| <= |r.after.offers| && r.reply == Issued(|r.after.offers| - |s.offers|)
      && (forall i :: 0 <= i < |s.offers| ==>
            r.after.offers[i]
            == if Overdue(s, a, i, now) then s.offers[i].(status := OfferStatus.Expired) else s.offers[i])
      && (forall j :: 0 <= j < |r.after.intents| && r.after.intents[j].activity == a ==> !r.after.intents[j].pending)
  {
    SettledOffersAre(s, a, now);
    Reopened(settled, filled, a);
  }

  lemma Reopened(settled: State, filled: State, a: nat)
    requires settled.offers <= filled.offers
    ensures var r := CloseIntents(filled, a);
      && r.activities == filled.activities && r.offers == filled.offers
      && (forall i :: 0 <= i < |settled.offers| ==> r.offers[i] == settled.offers[i])
      && (forall j :: 0 <= j < |r.intents| && r.intents[j].activity == a ==> !r.intents[j].pending)
  {
  }

  lemma SettledOffersAre(s: State, a: nat, now: int)
    requires Refs(s)
    ensures |SettleActivity(s, a, now).offers| == |s.offers|
    ensures forall i :: 0 <= i < |s.offers| ==>
      SettleActivity(s, a, now).offers[i]
      == if Overdue(s, a, i, now) then s.offers[i].(status := OfferStatus.Expired) else s.offers[i]
  {
    forall i | 0 <= i < |s.offers|
      ensures SettleActivity(s, a, now).offers[i]
              == if Overdue(s, a, i, now) then s.offers[i].(status := OfferStatus.Expired) else s.offers[i]
    {
      SettleIsExact(s, a, now, i);
    }
  }

  lemma ReopenedFills(s: State, a: nat, now: int)
    requires Safe(s) && a < |s.activities| && s.activities[a].status.Active?
    ensures var settled := SettleActivity(s, a, now);
      var filled := Refill(SetActivity(settled, a, s.activities[a].(paused := false)), a, now);
      && settled.activities == s.activities && settled.offers <= filled.offers && filled.intents == settled.intents
      && filled.activities == s.activities[a := s.activities[a].(paused := false)]
  {
    ReopenedSafe(s, a, now);
    RefillFrame(SetActivity(SettleActivity(s, a, now), a, s.activities[a].(paused := false)), a, now);
  }

  lemma ResumeSatisfies(s: State, a: nat, now: int)
    requires Safe(s) && a < |s.activities| && s.activities[a].paused && ResumeRefill(s, a, now).reply.Issued?
    requires s.activities[a].frozen
    ensures Satisfied(ResumeRefill(s, a, now).after, a)
  {
    ResumeRuns(s, a, now);
    ReopenedSafe(s, a, now);
    ClosingSatisfies(SetActivity(SettleActivity(s, a, now), a, s.activities[a].(paused := false)), a, now);
  }

  // ---------- preparation ----------

  /** What a creation gets where it asks for nothing: the platform's mode, and with BATCH its batch size; the platform's
      hours in place of zero. */
  predicate Chosen(mode: Option<Mode>, batchSize: int, hours: int, platform: Defaults, act: Activity) {
    && (if mode.Some? then act.mode == mode.value else platform.mode == Some(act.mode))
    && act.batchSize == (if batchSize == 0 && act.mode == Mode.Batch then platform.batchSize else batchSize)
    && act.expireHours == (if hours == 0 then platform.expireHours else hours)
  }

  /** A creation succeeds exactly with a quota, a mode, 1 to 720 hours and, for BATCH, a batch size from 1 to 1000; it
      adds one ACTIVE activity, not started, clean and unpaused. */
  lemma CreateAnswers(s: State, quota: int, mode: Option<Mode>, batchSize: int, hours: int, platform: Defaults)
    ensures var r := CreateActivity(s, quota, mode, batchSize, hours, platform);
      var chosen := if mode.None? then platform.mode else mode;
      var size := if batchSize == 0 && chosen == Some(Mode.Batch) then platform.batchSize else batchSize;
      var granted := if hours == 0 then platform.expireHours else hours;
      && (r.reply == Done <==>
            && quota >= 1 && chosen.Some? && 0 <= batchSize <= 1000 && 1 <= granted <= 720
            && (chosen == Some(Mode.Batch) ==> 1 <= size <= 1000))
      && (r.reply != Done ==> r == Outcome(s, Failed(Validation)))
      && (r.reply == Done ==>
            && r.after == s.(activities := r.after.activities) && |r.after.activities| == |s.activities| + 1
            && s.activities <= r.after.activities
            && var act := r.after.activities[|s.activities|];
               && Chosen(mode, batchSize, hours, platform, act)
               && act == Activity(Active, quota, act.mode, act.batchSize, act.expireHours, false, false, None, false,
                                  false))
  {
  }

  lemma RecalculateAnswers(s: State, a: nat)
    ensures var r := Recalculate(s, a);
      && (r.reply == Failed(NotFound) <==> a >= |s.activities|) && GateAnswers(s, a, r.reply)
      && (r.reply == Failed(RankingFrozen) <==> Opened(s, a) && s.activities[a].frozen)
      && (r.reply == Done <==> Opened(s, a) && !s.activities[a].frozen)
      && (r.reply != Done ==> r.after == s)
      && (r.reply == Done ==>
            && r.after == s.(applications := r.after.applications, activities := r.after.activities)
            && r.after.activities == s.activities[a := s.activities[a].(dirty := false)])
  {
  }

  /** The application of a student to an activity, before and after an import or a correction. */
  predicate Written(s: State, r: State, k: nat, profile: string, score: int)
    requires k < |s.applications| <= |r.applications|
  {
    r.applications[k] == s.applications[k].(profile := profile, score := score)
  }

  /** A correction writes exactly the given columns of one application, and a column that changes makes the ranking
      dirty. */
  lemma PatchAnswers(s: State, a: nat, k: nat, studentId: Option<string>, profile: Option<string>, score: Option<int>)
    requires Refs(s)
    ensures var r := Patch(s, a, k, studentId, profile, score);
      var asked := profile.Some? || score.Some?;
      var known := k < |s.applications| && s.applications[k].activity == a;
      var free := asked && known && Opened(s, a) && !s.activities[a].frozen;
      var same := known ==> studentId.None? || studentId.value == s.candidates[s.applications[k].candidate].studentId;
      var legal := score.None? || 1 <= score.value <= 2147483647;
      && (r.reply == Failed(NotFound) <==> asked && !known)
      && (asked && known ==> GateAnswers(s, a, r.reply))
      && (r.reply == Failed(RankingFrozen) <==> asked && known && Opened(s, a) && s.activities[a].frozen)
      && (r.reply == Failed(Validation) <==> !asked || (free && !(same && legal)))
      && (r.reply == Done <==> free && same && legal)
      && (r.reply != Done ==> r.after == s)
    ensures var r := Patch(s, a, k, studentId, profile, score);
      r.reply == Done ==>
        var app := s.applications[k];
        var now := app.(profile := if profile.Some? then profile.value else app.profile,
                        score := if score.Some? then score.value else app.score);
        r.after == s.(applications := s.applications[k := now],
                      activities := s.activities[a := s.activities[a].(dirty := s.activities[a].dirty || now != app)])
  {
    if Patch(s, a, k, studentId, profile, score).reply == Done {
      var app := s.applications[k];
      var now := app.(profile := if profile.Some? then profile.value else app.profile,
                      score := if score.Some? then score.value else app.score);
      ReviseIs(s, k, now.profile, now.score);
    }
  }

  lemma ReviseIs(s: State, k: nat, profile: string, score: int)
    requires Refs(s) && k < |s.applications|
    ensures var app := s.applications[k]; var now := app.(profile := profile, score := score); var a := app.activity;
      Revise(s, k, profile, score)
      == s.(applications := s.applications[k := now],
            activities := s.activities[a := s.activities[a].(dirty := s.activities[a].dirty || now != app)])
  {
    var app := s.applications[k];
    assert s.applications[k := app] == s.applications;
    assert s.activities[app.activity := s.activities[app.activity]] == s.activities;
  }

  lemma ImportAnswers(s: State, a: nat, studentId: string, profile: string, score: int)
    requires Refs(s)
    ensures var r := ImportOne(s, a, studentId, profile, score);
      var free := Opened(s, a) && !s.activities[a].frozen;
      && (r.reply == Failed(NotFound) <==> a >= |s.activities|) && GateAnswers(s, a, r.reply)
      && (r.reply == Failed(RankingFrozen) <==> Opened(s, a) && s.activities[a].frozen)
      && (r.reply == Failed(Validation) <==> free && !(1 <= score <= 2147483647))
      && (r.reply == Done <==> free && 1 <= score <= 2147483647)
      && (r.reply != Done ==> r.after == s)
  {
  }

  /** The student's application to the activity as the import leaves it. */
  predicate Imported(r: State, k: nat, a: nat, studentId: string, profile: string, score: int)
    requires Refs(r)
  {
    && k < |r.applications| && r.applications[k].activity == a
    && r.candidates[r.applications[k].candidate].studentId == studentId
    && r.applications[k].profile == profile && r.applications[k].score == score
  }

  /** Row k is the student's application: a known one keeps everything but the two columns, a new one waits unranked
      behind all others; no other row changes. */
  predicate ImportedAs(s: State, r: State, k: nat, a: nat, studentId: string, profile: string, score: int)
    requires Refs(r)
  {
    && Imported(r, k, a, studentId, profile, score) && |s.applications| <= |r.applications|
    && (forall j :: 0 <= j < |s.applications| && j != k ==> r.applications[j] == s.applications[j])
    && (if k < |s.applications| then Written(s, r, k, profile, score) && |r.applications| == |s.applications|
        else
          && k == |s.applications| == |r.applications| - 1
          && r.applications[k].rank.None? && r.applications[k].status.Waiting?
          && r.applications[k].importOrder == MaxImportOrder(s.applications, |s.applications|, a) + 1)
  }

  /** An import writes the one application of the student to the activity, and a row that changes makes the ranking
      dirty. */
  lemma ImportCommits(s: State, a: nat, studentId: string, profile: string, score: int)
    requires Refs(s) && ImportOne(s, a, studentId, profile, score).reply == Done
    ensures var r := ImportOne(s, a, studentId, profile, score).after;
      && s.candidates <= r.candidates
      && (exists k :: 0 <= k < |r.applications| && ImportedAs(s, r, k, a, studentId, profile, score))
      && var dirty := s.activities[a].dirty || r.applications != s.applications;
         r.activities == s.activities[a := s.activities[a].(dirty := dirty)]
  {
    var s1 := EnsureCandidate(s, studentId);
    var c := FindCandidate(s1, |s1.candidates|, studentId);
    assert c >= 0 by {
      if FindCandidate(s, |s.candidates|, studentId) < 0 {
        assert s1.candidates[|s.candidates|].studentId == studentId;
      }
    }
    var k := FindApplication(s1, |s1.applications|, a, c);
    var r := ImportOne(s, a, studentId, profile, score).after;
    if k >= 0 {
      ReviseCommits(s, s1, k, a, studentId, profile, score);
      assert ImportedAs(s, r, k, a, studentId, profile, score);
    } else {
      assert ImportedAs(s, r, |s.applications|, a, studentId, profile, score);
    }
  }

  lemma ReviseCommits(s: State, s1: State, k: nat, a: nat, studentId: string, profile: string, score: int)
    requires Refs(s) && Refs(s1) && s1 == s.(candidates := s1.candidates) && k < |s.applications|
    requires s.applications[k].activity == a
    requires s1.candidates[s.applications[k].candidate].studentId == studentId
    ensures var r := Revise(s1, k, profile, score);
      && ImportedAs(s, r, k, a, studentId, profile, score)
      && var dirty := s.activities[a].dirty || r.applications != s.applications;
         r.activities == s.activities[a := s.activities[a].(dirty := dirty)]
  {
    var r := Revise(s1, k, profile, score);
    ReviseIs(s1, k, profile, score);
    assert s.applications[k := s.applications[k]] == s.applications;
    assert r.applications != s.applications <==> r.applications[k] != s.applications[k];
  }

  lemma TieAnswers(s: State, a: nat, ids: seq<nat>)
    ensures var r := TieOrder(s, a, ids);
      var asked := ids != [] && forall i, j :: 0 <= i < j < |ids| ==> ids[i] != ids[j];
      var known := forall x :: x in ids ==> x < |s.applications| && s.applications[x].activity == a;
      && (asked && a < |s.activities| ==> GateAnswers(s, a, r.reply))
      && (r.reply == Failed(NotFound) <==>
            asked && (a >= |s.activities| || (Opened(s, a) && !s.activities[a].frozen && !known)))
      && (!asked ==> r.reply == Failed(Validation))
      && (r.reply == Failed(RankingFrozen) <==> asked && Opened(s, a) && s.activities[a].frozen)
      && (r.reply != Done ==> r.after == s)
      && (r.reply == Done ==>
            && asked && Opened(s, a) && !s.activities[a].frozen && known
            && r.after == s.(applications := r.after.applications))
  {
    if ids != [] && NoRepeats(ids) && a < |s.activities| {
      forall x: nat ensures x in SetOf(ids) <==> x in ids {
      }
      assert SetOf(ids) <= AppsOf(s, a) <==> forall x :: x in ids ==> x in AppsOf(s, a);
    }
  }

  /** A tie order of known applications commits exactly when they share a score, are ranked, and no application of the
      activity with that score is missing. */
  lemma TieCommits(s: State, a: nat, ids: seq<nat>)
    requires ids != [] && (forall i, j :: 0 <= i < j < |ids| ==> ids[i] != ids[j])
    requires forall x :: x in ids ==> x < |s.applications| && s.applications[x].activity == a
    requires Opened(s, a) && !s.activities[a].frozen
    ensures TieOrder(s, a, ids).reply == Done <==>
      (forall x :: x in ids ==> Alike(s, x, ids[0])) && forall k :: k in ScoreGroup(s, a, ids[0]) ==> k in ids
    ensures TieOrder(s, a, ids).reply != Done ==> TieOrder(s, a, ids).reply == Failed(Validation)
  {
    assert SetOf(ids) <= AppsOf(s, a);
    TieSize(ids);
    assert ids[0] in ids;
    assert ScoreGroup(s, a, ids[0])
        == set k | k in AppsOf(s, a) && s.applications[k].score == s.applications[ids[0]].score;
    if forall x :: x in ids ==> Alike(s, x, ids[0]) {
      assert SetOf(ids) <= ScoreGroup(s, a, ids[0]);
      SameSize(SetOf(ids), ScoreGroup(s, a, ids[0]));
    }
  }

  /** Ranked, with the score of the other. */
  predicate Alike(s: State, x: nat, y: nat) {
    && x < |s.applications| && y < |s.applications|
    && s.applications[x].score == s.applications[y].score && s.applications[x].rank.Some?
  }

  function ScoreGroup(s: State, a: nat, y: nat): set<nat>
    requires y < |s.applications|
  {
    set k | 0 <= k < |s.applications| && s.applications[k].activity == a
            && s.applications[k].score == s.applications[y].score
  }

  lemma SameSize(x: set<nat>, y: set<nat>)
    requires x <= y
    ensures |x| == |y| <==> x == y
  {
    assert y == x + (y - x);
  }

  // ---------- issuing ----------

  /** Every application of the activity carries a rank. */
  predicate AllRanked(s: State, a: nat) {
    forall k :: 0 <= k < |s.applications| && s.applications[k].activity == a ==> s.applications[k].rank.Some?
  }

  lemma StartAnswers(s: State, a: nat, hasOwner: bool, smtpReady: bool, now: int)
    requires Refs(s)
    ensures var r := StartAdmission(s, a, hasOwner, smtpReady, now);
      var again := Opened(s, a) && s.activities[a].frozen && s.activities[a].startedAt.Some?;
      var first := Opened(s, a) && !again;
      var clean := first && s.activities[a].quota >= 1 && !s.activities[a].dirty && AllRanked(s, a);
      && (r.reply == Failed(NotFound) <==> a >= |s.activities|) && GateAnswers(s, a, r.reply)
      && (again ==> r == Outcome(s, Issued(0)))
      && (r.reply == Failed(Validation) <==> first && s.activities[a].quota < 1)
      && (r.reply == Failed(RankingDirty) <==>
            first && s.activities[a].quota >= 1 && (s.activities[a].dirty || !AllRanked(s, a)))
      && (r.reply == Failed(Conflict) <==> clean && !hasOwner)
      && (r.reply == Failed(SmtpNotConfigured) <==> clean && hasOwner && s.activities[a].mode.Auto? && !smtpReady)
      && (r.reply.Issued? <==> again || (clean && hasOwner && (s.activities[a].mode.Auto? ==> smtpReady)))
      && (r.reply.Failed? ==> r.after == s)
  {
    if a < |s.activities| {
      assert AllRanked(s, a) <==> !exists k :: k in AppsOf(s, a) && s.applications[k].rank.None?;
    }
  }

  lemma StartRuns(s: State, a: nat, hasOwner: bool, smtpReady: bool, now: int)
    requires Refs(s) && a < |s.activities| && s.activities[a].startedAt.None?
    requires StartAdmission(s, a, hasOwner, smtpReady, now).reply.Issued?
    ensures s.activities[a].status.Active? && !s.activities[a].dirty && s.activities[a].quota >= 1
    ensures var filled := Refill(SetActivity(s, a, s.activities[a].(frozen := true, startedAt := Some(now))), a, now);
      StartAdmission(s, a, hasOwner, smtpReady, now)
      == Outcome(filled, Issued(if |filled.offers| >= |s.offers| then |filled.offers| - |s.offers| else 0))
  {
  }

  lemma MayStart(s: State, a: nat, now: int)
    requires Refs(s) && Settings(s) && Quotas(s) && a < |s.activities| && !s.activities[a].frozen
    ensures s.activities[a].startedAt.None?
    ensures s.activities[a].status.Active? && !s.activities[a].dirty ==>
      MayChange(s, a, s.activities[a].(frozen := true, startedAt := Some(now)))
  {
    assert SettingsOk(s.activities[a]) && Occupied(s, a) <= s.activities[a].quota;
  }

  /** The start freezes the ranking for good and, in AUTO, fills every seat somebody waits for; the reply counts the
      offers. */
  lemma StartCommits(s: State, a: nat, hasOwner: bool, smtpReady: bool, now: int)
    requires Safe(s) && StartAdmission(s, a, hasOwner, smtpReady, now).reply.Issued? && !s.activities[a].frozen
    ensures var r := StartAdmission(s, a, hasOwner, smtpReady, now);
      && r.after == s.(activities := r.after.activities, applications := r.after.applications, offers := r.after.offers)
      && r.after.activities == s.activities[a := s.activities[a].(frozen := true, startedAt := Some(now))]
      && s.offers <= r.after.offers && r.reply == Issued(|r.after.offers| - |s.offers|)
      && if s.activities[a].mode.Auto? then !s.activities[a].paused ==> Satisfied(r.after, a)
         else r.after == s.(activities := r.after.activities)
  {
    MayStart(s, a, now);
    StartRuns(s, a, hasOwner, smtpReady, now);
    StartFills(s, a, s.activities[a].(frozen := true, startedAt := Some(now)), now);
  }

  lemma StartFills(s: State, a: nat, act: Activity, now: int)
    requires Safe(s) && a < |s.activities| && MayChange(s, a, act) && act.status.Active? && act.frozen
    ensures var open := SetActivity(s, a, act); var filled := Refill(open, a, now);
      && s.offers <= filled.offers && filled == open.(applications := filled.applications, offers := filled.offers)
      && if act.mode.Auto? then !act.paused ==> Satisfied(filled, a) else filled == open
  {
    var open := SetActivity(s, a, act);
    OneChange(s, a, act);
    RefillFrame(open, a, now);
    if act.mode.Auto? && !act.paused {
      RefillSatisfies(open, a, now);
    }
  }

  /** The size of a batch: the given limit, else the activity's batch size, else the platform's. */
  function SizeOf(act: Activity, limit: nat, platformDefault: int): int {
    if limit != 0 then limit else if act.batchSize != 0 then act.batchSize else platformDefault
  }

  lemma BatchAnswers(s: State, a: nat, limit: nat, platformDefault: int, smtpReady: bool, now: int)
    requires Refs(s)
    ensures var r := IssueBatch(s, a, limit, platformDefault, smtpReady, now);
      var legal := limit <= 1000;
      var started := legal && Opened(s, a) && s.activities[a].frozen;
      var batch := started && s.activities[a].mode.Batch?;
      var sized := batch && SizeOf(s.activities[a], limit, platformDefault) >= 1;
      && (r.reply == Failed(Validation) <==> !legal) && (r.reply == Failed(NotFound) <==> legal && a >= |s.activities|)
      && (legal ==> GateAnswers(s, a, r.reply))
      && (r.reply == Failed(Conflict) <==> legal && Opened(s, a) && !s.activities[a].frozen)
      && (r.reply == Failed(ModeLocked) <==> started && !s.activities[a].mode.Batch?)
      && (r.reply == Failed(Internal) <==> batch && !sized)
      && (r.reply == Failed(SmtpNotConfigured) <==> sized && !smtpReady)
      && (r.reply == Failed(QuotaExceeded) <==> sized && smtpReady && Occupied(s, a) >= s.activities[a].quota)
      && (r.reply.Issued? <==> MayBatch(s, a, limit, platformDefault, smtpReady))
      && (r.reply.Failed? ==> r.after == s)
  {
  }

  /** A started BATCH activity with a free seat and configured mail, and a batch of a legal size. */
  predicate MayBatch(s: State, a: nat, limit: nat, platformDefault: int, smtpReady: bool)
    requires Refs(s)
  {
    && limit <= 1000 && Opened(s, a) && s.activities[a].frozen && s.activities[a].mode.Batch?
    && SizeOf(s.activities[a], limit, platformDefault) >= 1 && smtpReady && Occupied(s, a) < s.activities[a].quota
  }

  function Least(x: int, y: int): int { if x < y then x else y }

  /** A batch reaches as many deserving applicants as its size, the free seats and the queue allow, and the reply counts
      them. */
  lemma BatchCommits(s: State, a: nat, limit: nat, platformDefault: int, smtpReady: bool, now: int)
    requires Refs(s) && MayBatch(s, a, limit, platformDefault, smtpReady)
    ensures var r := IssueBatch(s, a, limit, platformDefault, smtpReady, now); var act := s.activities[a];
      && |s.offers| <= |r.after.offers| && r.reply == Issued(|r.after.offers| - |s.offers|)
      && |r.after.offers| - |s.offers|
         == Least(Least(SizeOf(act, limit, platformDefault), act.quota - Occupied(s, a)), |Deserving(s, a)|)
  {
    BatchRan(s, a, limit, platformDefault, smtpReady, now);
    BatchCounts(s, a, SizeOf(s.activities[a], limit, platformDefault), now);
  }

  lemma BatchRan(s: State, a: nat, limit: nat, platformDefault: int, smtpReady: bool, now: int)
    requires Refs(s) && MayBatch(s, a, limit, platformDefault, smtpReady)
    ensures var r := IssueBatch(s, a, limit, platformDefault, smtpReady, now);
      var filled := BatchFilled(s, a, SizeOf(s.activities[a], limit, platformDefault), now);
      && r.after.offers == filled.offers && |filled.offers| >= |s.offers|
      && r.reply == Issued(|filled.offers| - |s.offers|)
  {
    Views.BatchReply(s, a, limit, platformDefault, now);
    BatchRuns(s, a, limit, platformDefault, smtpReady, now);
  }

  lemma BatchCounts(s: State, a: nat, size: nat, now: int)
    requires Refs(s) && Opened(s, a) && s.activities[a].frozen && size > 0 && Occupied(s, a) < s.activities[a].quota
    ensures |BatchFilled(s, a, size, now).offers| - |s.offers|
            == Least(Least(size, s.activities[a].quota - Occupied(s, a)), |Deserving(s, a)|)
  {
    Views.BatchReaches(s, a, size, now);
  }

  /** What a preview shows, and why it is refused: the size the batch would have, the free seats, the length of the
      queue and the number the batch would get. */
  lemma PreviewAnswers(s: State, a: nat, limit: nat, platformDefault: int)
    requires Safe(s)
    ensures var r := PreviewBatch(s, a, limit, platformDefault);
      var legal := limit <= 1000;
      var batch := legal && Opened(s, a) && s.activities[a].mode.Batch?;
      && (r == NoPreview(Validation) <==> !legal) && (r == NoPreview(NotFound) <==> legal && a >= |s.activities|)
      && (r == NoPreview(ActivityDisabled) <==> legal && a < |s.activities| && s.activities[a].status.Disabled?)
      && (r == NoPreview(ActivityArchived) <==> legal && a < |s.activities| && s.activities[a].status.Archived?)
      && (r == NoPreview(ModeLocked) <==> legal && Opened(s, a) && !s.activities[a].mode.Batch?)
      && (r == NoPreview(Conflict) <==> batch && !s.activities[a].frozen)
      && (r.Preview? <==> batch && s.activities[a].frozen && SizeOf(s.activities[a], limit, platformDefault) >= 1)
      && (r.Preview? ==>
            && r.batchSize == SizeOf(s.activities[a], limit, platformDefault) && r.waiting == |Queue(s, a)|
            && r.maxIssuable == s.activities[a].quota - Occupied(s, a)
            && r.nextNo == CountBatches(s.batches, |s.batches|, a) + 1)
  {
    if a < |s.activities| {
      SeatsWithinQuota(s, a);
      MaxBatchIsCount(s.batches, |s.batches|, a);
    }
  }

  /** The candidate of an application has accepted an offer. */
  predicate Taken(s: State, k: nat)
    requires Refs(s) && k < |s.applications|
  {
    s.candidates[s.applications[k].candidate].acceptedOffer.Some?
  }

  lemma ManualGates(s: State, a: nat, k: nat, smtpReady: bool, now: int)
    requires Refs(s)
    requires k in AppsOf(s, a) && s.applications[k].status.Waiting? ==>
      ActiveForCandidate(s, s.applications[k].candidate, a) == {}
    ensures var r := IssueManual(s, a, k, smtpReady, now);
      var started := Opened(s, a) && s.activities[a].frozen;
      var manual := started && s.activities[a].mode.Manual?;
      var known := k < |s.applications| && s.applications[k].activity == a;
      var free := manual && known && s.applications[k].status.Waiting? && !Taken(s, k);
      && GateAnswers(s, a, r.reply)
      && (r.reply == Failed(NotFound) <==> a >= |s.activities| || (manual && !known))
      && (r.reply == Failed(ModeLocked) <==> started && !s.activities[a].mode.Manual?)
      && (r.reply == Failed(Conflict) <==> (Opened(s, a) && !s.activities[a].frozen) || (manual && known && !free))
      && (r.reply == Failed(QuotaExceeded) <==> free && Occupied(s, a) >= s.activities[a].quota)
      && (r.reply == Failed(SmtpNotConfigured) <==> free && Occupied(s, a) < s.activities[a].quota && !smtpReady)
      && (r.reply.Failed? ==> r.after == s)
      && (if free && Occupied(s, a) < s.activities[a].quota && smtpReady
          then r == Outcome(GivenOffer(s, k, FromManual, now + s.activities[a].expireHours * 3600), Issued(1))
          else r.reply.Failed?)
  {
  }

  /** Issuing by hand commits exactly for a waiting applicant of a started MANUAL activity who has accepted nothing, as
      long as a seat is free and mail is configured; it issues the one offer. */
  lemma ManualAnswers(s: State, a: nat, k: nat, smtpReady: bool, now: int)
    requires Safe(s)
    ensures var r := IssueManual(s, a, k, smtpReady, now);
      var started := Opened(s, a) && s.activities[a].frozen;
      var manual := started && s.activities[a].mode.Manual?;
      var known := k < |s.applications| && s.applications[k].activity == a;
      var free := manual && known && s.applications[k].status.Waiting? && !Taken(s, k);
      && GateAnswers(s, a, r.reply)
      && (r.reply == Failed(NotFound) <==> a >= |s.activities| || (manual && !known))
      && (r.reply == Failed(ModeLocked) <==> started && !s.activities[a].mode.Manual?)
      && (r.reply == Failed(Conflict) <==> (Opened(s, a) && !s.activities[a].frozen) || (manual && known && !free))
      && (r.reply == Failed(QuotaExceeded) <==> free && Occupied(s, a) >= s.activities[a].quota)
      && (r.reply == Failed(SmtpNotConfigured) <==> free && Occupied(s, a) < s.activities[a].quota && !smtpReady)
      && (r.reply.Failed? ==> r.after == s)
      && (if free && Occupied(s, a) < s.activities[a].quota && smtpReady
          then r == Outcome(GivenOffer(s, k, FromManual, now + s.activities[a].expireHours * 3600), Issued(1))
          else r.reply.Failed?)
  {
    if k in AppsOf(s, a) && s.applications[k].status.Waiting? {
      NoOtherActive(s, a, k);
    }
    ManualGates(s, a, k, smtpReady, now);
  }

  /** The tables with one more offer, PENDING until the deadline, and its application OFFERED. */
  function GivenOffer(s: State, k: nat, source: Source, deadline: int): State
    requires k < |s.applications|
  {
    s.(offers := s.offers + [Offer(k, OfferStatus.Pending, source, None, deadline)],
       applications := s.applications[k := s.applications[k].(status := AppStatus.Offered)])
  }

  /** A waiting applicant holds no active offer in the activity. */
  lemma NoOtherActive(s: State, a: nat, k: nat)
    requires Refs(s) && Unique(s) && Statuses(s) && k in AppsOf(s, a) && s.applications[k].status.Waiting?
    ensures ActiveForCandidate(s, s.applications[k].candidate, a) == {}
  {
    forall i: nat ensures i !in ActiveForCandidate(s, s.applications[k].candidate, a) {
      if i < |s.offers| && s.offers[i].application == k {
        assert StatusFits(s, k);
      } else if i < |s.offers| && CandOf(s, i) == s.applications[k].candidate {
        OneApplicationEach(s, s.offers[i].application, k);
      }
    }
  }

  lemma SpecialGates(s: State, a: nat, k: nat, reasonGiven: bool, smtpReady: bool, now: int)
    requires Refs(s)
    requires k in AppsOf(s, a) && (s.applications[k].status.Declined? || s.applications[k].status.Expired?) ==>
      CurrentOffer(s, k) >= 0 && !Holding(s.offers[CurrentOffer(s, k)].status)
    ensures var r := IssueSpecial(s, a, k, reasonGiven, smtpReady, now);
      var started := reasonGiven && Opened(s, a) && s.activities[a].frozen;
      var known := k < |s.applications| && s.applications[k].activity == a;
      var free := started && known && (s.applications[k].status.Declined? || s.applications[k].status.Expired?)
                  && !Taken(s, k);
      && (r.reply == Failed(Validation) <==> !reasonGiven)
      && (reasonGiven ==> GateAnswers(s, a, r.reply))
      && (r.reply == Failed(NotFound) <==> reasonGiven && (a >= |s.activities| || (started && !known)))
      && (r.reply == Failed(Conflict) <==>
            reasonGiven && Opened(s, a) && (!s.activities[a].frozen || (known && !free)))
      && (r.reply == Failed(QuotaExceeded) <==> free && Occupied(s, a) >= s.activities[a].quota)
      && (r.reply == Failed(SmtpNotConfigured) <==> free && Occupied(s, a) < s.activities[a].quota && !smtpReady)
      && (r.reply.Failed? ==> r.after == s)
      && (if free && Occupied(s, a) < s.activities[a].quota && smtpReady
          then r == Outcome(GivenOffer(s, k, Special, now + s.activities[a].expireHours * 3600), Issued(1))
          else r.reply.Failed?)
  {
  }

  /** Special issuing commits exactly for an applicant whose last offer was declined or expired and who has accepted
      nothing, as long as a reason is given, a seat is free and mail is configured. */
  lemma SpecialAnswers(s: State, a: nat, k: nat, reasonGiven: bool, smtpReady: bool, now: int)
    requires Safe(s)
    ensures var r := IssueSpecial(s, a, k, reasonGiven, smtpReady, now);
      var started := reasonGiven && Opened(s, a) && s.activities[a].frozen;
      var known := k < |s.applications| && s.applications[k].activity == a;
      var free := started && known && (s.applications[k].status.Declined? || s.applications[k].status.Expired?)
                  && !Taken(s, k);
      && (r.reply == Failed(Validation) <==> !reasonGiven)
      && (reasonGiven ==> GateAnswers(s, a, r.reply))
      && (r.reply == Failed(NotFound) <==> reasonGiven && (a >= |s.activities| || (started && !known)))
      && (r.reply == Failed(Conflict) <==>
            reasonGiven && Opened(s, a) && (!s.activities[a].frozen || (known && !free)))
      && (r.reply == Failed(QuotaExceeded) <==> free && Occupied(s, a) >= s.activities[a].quota)
      && (r.reply == Failed(SmtpNotConfigured) <==> free && Occupied(s, a) < s.activities[a].quota && !smtpReady)
      && (r.reply.Failed? ==> r.after == s)
      && (if free && Occupied(s, a) < s.activities[a].quota && smtpReady
          then r == Outcome(GivenOffer(s, k, Special, now + s.activities[a].expireHours * 3600), Issued(1))
          else r.reply.Failed?)
  {
    if k in AppsOf(s, a) {
      LastIsOver(s, k);
    }
    SpecialGates(s, a, k, reasonGiven, smtpReady, now);
  }

  lemma LastIsOver(s: State, k: nat)
    requires Statuses(s) && k < |s.applications|
    ensures s.applications[k].status.Declined? || s.applications[k].status.Expired? ==>
      CurrentOffer(s, k) >= 0 && !Holding(s.offers[CurrentOffer(s, k)].status)
  {
    assert StatusFits(s, k);
    var active := NewestHolding(s, |s.offers|, k);
    assert active >= 0 ==> Newest(s, s.offers[active].application) == active;
  }

  // ---------- the candidates' answers ----------

  lemma AcceptGates(s: State, o: nat, now: int)
    requires Refs(s)
    requires o < |s.offers| && s.offers[o].status.Pending? ==>
      AppOf(s, o).status.Offered? && s.candidates[CandOf(s, o)].acceptedOffer.None?
    ensures var r := AcceptTx(s, o, now);
      && (r.reply == Failed(TokenInvalid) <==> o >= |s.offers|)
      && (o < |s.offers| ==>
            var act, status := s.activities[ActOf(s, o)], s.offers[o].status;
            var late := status.Pending? && s.offers[o].expiresAt <= now;
            && GateAnswers(s, ActOf(s, o), r.reply)
            && (act.status.Active? ==>
                  && (r.reply == AlreadyAccepted <==> status.Accepted?)
                  && (r.reply == Failed(OfferNotActionable(OfferStatus.Declined)) <==> status.Declined?)
                  && (r.reply == Failed(Error.OfferExpired) <==> status.Expired? || late)
                  && (r.reply.AcceptedNow? <==> status.Pending? && !late))
            && (!act.status.Active? || !status.Pending? ==> r.after == s)
            && (act.status.Active? && late ==> r.after == CloseOne(s, o, OfferStatus.Expired, Reason.OfferExpired)))
  {
  }

  /** What an acceptance is answered, and when it commits: exactly for a PENDING offer of an ACTIVE activity before its
      deadline. A late one is settled. */
  lemma AcceptAnswers(s: State, o: nat, now: int)
    requires Safe(s)
    ensures var r := AcceptTx(s, o, now);
      && (r.reply == Failed(TokenInvalid) <==> o >= |s.offers|)
      && (o < |s.offers| ==>
            var act, status := s.activities[ActOf(s, o)], s.offers[o].status;
            var late := status.Pending? && s.offers[o].expiresAt <= now;
            && GateAnswers(s, ActOf(s, o), r.reply)
            && (act.status.Active? ==>
                  && (r.reply == AlreadyAccepted <==> status.Accepted?)
                  && (r.reply == Failed(OfferNotActionable(OfferStatus.Declined)) <==> status.Declined?)
                  && (r.reply == Failed(Error.OfferExpired) <==> status.Expired? || late)
                  && (r.reply.AcceptedNow? <==> status.Pending? && !late))
            && (!act.status.Active? || !status.Pending? ==> r.after == s)
            && (act.status.Active? && late ==> r.after == CloseOne(s, o, OfferStatus.Expired, Reason.OfferExpired)))
  {
    if o < |s.offers| && s.offers[o].status.Pending? {
      PendingIsOffered(s, o);
    }
    AcceptGates(s, o, now);
  }

  /** How the two transactions defend themselves against rows that contradict each other, which no reachable state has:
      an accepted-offer column set already answers by what it names, and a PENDING offer whose application is not
      OFFERED is a conflict. */
  lemma AnswersDefend(s: State, o: nat, now: int)
    requires Refs(s) && o < |s.offers| && s.offers[o].status.Pending? && s.activities[ActOf(s, o)].status.Active?
    requires now < s.offers[o].expiresAt
    ensures var r, accepted := AcceptTx(s, o, now), s.candidates[CandOf(s, o)].acceptedOffer;
      && (accepted == Some(o) ==> r == Outcome(s, AlreadyAccepted))
      && (accepted.Some? && accepted != Some(o) ==>
            r == Outcome(CloseOne(s, o, OfferStatus.Declined, CrossActivityDecline),
                         Failed(OfferNotActionable(OfferStatus.Declined))))
      && (accepted.None? && !AppOf(s, o).status.Offered? ==> r == Outcome(s, Failed(Conflict)))
    ensures !AppOf(s, o).status.Offered? ==> DeclineTx(s, o, now) == Outcome(s, Failed(Conflict))
  {
  }

  lemma DeclineAnswers(s: State, o: nat, now: int)
    requires Safe(s)
    ensures var r := DeclineTx(s, o, now);
      && (r.reply == Failed(TokenInvalid) <==> o >= |s.offers|)
      && (o < |s.offers| ==>
            var act, status := s.activities[ActOf(s, o)], s.offers[o].status;
            var late := status.Pending? && s.offers[o].expiresAt <= now;
            && GateAnswers(s, ActOf(s, o), r.reply)
            && (act.status.Active? ==>
                  && (r.reply == AlreadyDeclined <==> status.Declined?)
                  && (r.reply == Failed(OfferNotActionable(OfferStatus.Accepted)) <==> status.Accepted?)
                  && (r.reply == Failed(Error.OfferExpired) <==> status.Expired? || late)
                  && (r.reply == DeclinedNow <==> status.Pending? && !late))
            && (r.reply != DeclinedNow ==> r.after == s))
  {
    if o < |s.offers| && s.offers[o].status.Pending? {
      PendingIsOffered(s, o);
    }
  }

  /** A closed offer carries its intent: one for an AUTO activity, naming the reason and the offer, none otherwise; its
      application follows it. */
  lemma ClosingRecords(s: State, i: nat, to: OfferStatus, why: Reason)
    requires Safe(s) && i < |s.offers| && s.offers[i].status.Pending? && (to.Declined? || to.Expired?)
    ensures var r := CloseOne(s, i, to, why); var k := s.offers[i].application;
      r == s.(offers := s.offers[i := s.offers[i].(status := to)],
              applications := s.applications[k := s.applications[k].(
                status := if to.Declined? then AppStatus.Declined else AppStatus.Expired)],
              intents := s.intents + if s.activities[ActOf(s, i)].mode.Auto?
                                     then [Intent(ActOf(s, i), why, Some(i), true)] else [])
  {
    PendingIsOffered(s, i);
  }
}
