/** The services as they are written: methods that update the tables in place, statement by statement, inside one
    transaction each. Every method is proved to commit exactly what its transaction function says. */
module Stores {
  import opened OrderBy
  import opened Tables
  import opened Transactions
  import opened Invariant
  import opened RowWrites
  import opened Filling
  import opened Preparing
  import opened Batching
  import opened Safety

  class Store {
    var activities: seq<Activity>
    var candidates: seq<Candidate>
    var applications: seq<Application>
    var offers: seq<Offer>
    var intents: seq<Intent>
    var batches: seq<BatchRow>
    var nextBatch: nat
    var owed: set<nat>

    /** The tables as one value. */
    function Snapshot(): State
      reads this
    {
      State(activities, candidates, applications, offers, intents, batches, nextBatch, owed)
    }

    constructor ()
      ensures Snapshot() == EMPTY
    {
      activities, candidates, applications, offers, intents, batches := [], [], [], [], [], [];
      nextBatch, owed := 0, {};
    }

    /** ROLLBACK: the tables return to the state in which the transaction found them. */
    method Rollback(s: State)
      modifies this
      ensures Snapshot() == s
    {
      activities, candidates, applications, offers := s.activities, s.candidates, s.applications, s.offers;
      intents, batches, nextBatch, owed := s.intents, s.batches, s.nextBatch, s.owed;
    }

    // ---------- guarded row updates ----------

    /** UPDATE offer ... WHERE status = from. */
    method UpdateOfferStatus(o: nat, from: OfferStatus, to: OfferStatus) returns (won: bool)
      requires o < |offers|
      modifies `offers
      ensures won == (old(offers[o].status) == from)
      ensures offers == if won then old(offers)[o := old(offers)[o].(status := to)] else old(offers)
    {
      won := offers[o].status == from;
      if won {
        offers := offers[o := offers[o].(status := to)];
      }
    }

    /** UPDATE application ... WHERE status = from. */
    method UpdateApplicationStatus(k: nat, from: AppStatus, to: AppStatus) returns (won: bool)
      requires k < |applications|
      modifies `applications
      ensures won == (old(applications[k].status) == from)
      ensures applications ==
        if won then old(applications)[k := old(applications)[k].(status := to)] else old(applications)
    {
      won := applications[k].status == from;
      if won {
        applications := applications[k := applications[k].(status := to)];
      }
    }

    /** UPDATE candidate SET accepted_offer_id ... WHERE accepted_offer_id IS NULL. */
    method PointCandidate(c: nat, o: nat) returns (won: bool)
      requires c < |candidates|
      modifies `candidates
      ensures won == old(candidates[c].acceptedOffer.None?)
      ensures candidates ==
        if won then old(candidates)[c := old(candidates)[c].(acceptedOffer := Some(o))] else old(candidates)
    {
      won := candidates[c].acceptedOffer.None?;
      if won {
        candidates := candidates[c := candidates[c].(acceptedOffer := Some(o))];
      }
    }

    method RecordIntent(a: nat, why: Reason, offer: Option<nat>)
      requires a < |activities|
      modifies `intents
      ensures Snapshot() == AddIntent(old(Snapshot()), a, why, offer)
    {
      if activities[a].mode.Auto? {
        intents := intents + [Intent(a, why, offer, true)];
      }
    }

    // ---------- filling ----------

    method InsertOffer(k: nat, terms: Terms)
      modifies `offers
      ensures offers == old(offers) + [Offer(k, OfferStatus.Pending, terms.source, terms.batch, terms.expiresAt)]
    {
      offers := offers + [Offer(k, OfferStatus.Pending, terms.source, terms.batch, terms.expiresAt)];
    }

    /** One turn of the loop below for the application at the cursor. */
    method TakeTurn(k: nat, terms: Terms) returns (issued: bool)
      requires Refs(Snapshot()) && k < |applications| && applications[k].status.Waiting?
      modifies `offers, `applications
      ensures Snapshot() == Turn(old(Snapshot()), k, terms) && issued == !HasAccepted(old(Snapshot()), k)
    {
      issued := candidates[applications[k].candidate].acceptedOffer.None?;
      if issued {
        InsertOffer(k, terms);
        var won := UpdateApplicationStatus(k, AppStatus.Waiting, AppStatus.Offered);
        assert won;
      } else {
        var marked := UpdateApplicationStatus(k, AppStatus.Waiting, AppStatus.Ineligible);
        assert marked;
      }
    }

    /** The ranked issuance: an activity that is not ACTIVE and started is left alone. */
    method FillByRank(a: nat, limit: nat, terms: Terms) returns (issued: nat)
      requires Refs(Snapshot())
      modifies `offers, `applications
      ensures Snapshot() == Fill(old(Snapshot()), a, limit, terms)
      ensures |offers| == old(|offers|) + issued
    {
      if a >= |activities| || !activities[a].status.Active? || !activities[a].frozen {
        return 0;
      }
      issued := IssueRanked(a, limit, terms);
    }

    /** Offers go out in rank order until the quota or the limit is reached or nobody waits. The cursor never returns a
        row it returned before, so the loop cannot stall. */
    method IssueRanked(a: nat, limit: nat, terms: Terms) returns (issued: nat)
      requires Refs(Snapshot()) && a < |activities|
      modifies `offers, `applications
      ensures Snapshot() == FillLoop(old(Snapshot()), a, Room(old(Snapshot()), a, limit), terms)
      ensures |offers| == old(|offers|) + issued
    {
      ghost var s0 := Snapshot();
      issued := 0;
      var occupied: nat := Occupied(Snapshot(), a);
      var seen: set<nat> := {};
      while occupied < activities[a].quota && (limit == 0 || issued < limit)
        invariant Midway(s0, Snapshot(), a, limit, terms, occupied, issued, seen)
        decreases Queue(Snapshot(), a)
      {
        var k := NextWaiting(Snapshot(), a);
        if k < 0 {
          break;
        }
        var row: nat := k;
        MidwayTurn(s0, Snapshot(), a, limit, terms, occupied, issued, seen);
        assert row !in seen;
        seen := seen + {row};
        var gave := TakeTurn(row, terms);
        if gave {
          occupied := occupied + 1;
          issued := issued + 1;
        }
      }
      MidwayEnd(s0, Snapshot(), a, limit, terms, occupied, issued, seen);
    }

    // ---------- closing offers ----------

    /** Settles or declines one offer that is still PENDING, with its application and the refill intent. */
    method Close(o: nat, to: OfferStatus, why: Reason)
      requires Refs(Snapshot()) && o < |offers|
      modifies `offers, `applications, `intents
      ensures Snapshot() == CloseOne(old(Snapshot()), o, to, why)
    {
      var won := UpdateOfferStatus(o, OfferStatus.Pending, to);
      if won {
        var k := offers[o].application;
        var _ := UpdateApplicationStatus(k, AppStatus.Offered, Mirrored(to));
        RecordIntent(applications[k].activity, why, Some(o));
      }
    }

    method CloseList(ids: seq<nat>, to: OfferStatus, why: Reason)
      requires Refs(Snapshot()) && Named(Snapshot(), ids)
      modifies `offers, `applications, `intents
      ensures Snapshot() == CloseAll(old(Snapshot()), ids, to, why)
    {
      ghost var s0 := Snapshot();
      for i := 0 to |ids|
        invariant Refs(Snapshot()) && |offers| == |s0.offers|
        invariant CloseAll(Snapshot(), ids[i..], to, why) == CloseAll(s0, ids, to, why)
      {
        assert ids[i..][0] == ids[i] && ids[i..][1..] == ids[i + 1..];
        Close(ids[i], to, why);
      }
    }

    /** SettleExpiredForActivity: every due offer of one activity, in lock order. */
    method SettleExpiredForActivity(a: nat, now: int)
      requires Refs(Snapshot())
      modifies `offers, `applications, `intents
      ensures Snapshot() == SettleActivity(old(Snapshot()), a, now)
    {
      var due := Sorted(LockKeys(Snapshot()), DueIn(Snapshot(), a, now));
      forall j | 0 <= j < |due| ensures due[j] < |offers| {
        assert due[j] in DueIn(Snapshot(), a, now);
      }
      CloseList(due, OfferStatus.Expired, Reason.OfferExpired);
    }

    // ---------- accept ----------

    /** The linkage: every other PENDING offer of the candidate is declined. Returns the AUTO activities to refill. */
    method DeclineLinks(links: seq<LinkRow>) returns (auto: seq<nat>)
      requires Refs(Snapshot()) && Named(Snapshot(), OfferIds(links))
      modifies `offers, `applications, `intents
      ensures Snapshot() == CloseAll(old(Snapshot()), OfferIds(links), OfferStatus.Declined, CrossActivityDecline)
      ensures auto == AutoRows(links)
    {
      ghost var s0, ids := Snapshot(), OfferIds(links);
      auto := [];
      for i := 0 to |links|
        invariant Refs(Snapshot()) && |offers| == |s0.offers|
        invariant CloseAll(Snapshot(), ids[i..], OfferStatus.Declined, CrossActivityDecline)
               == CloseAll(s0, ids, OfferStatus.Declined, CrossActivityDecline)
        invariant auto + AutoRows(links[i..]) == AutoRows(links)
      {
        assert ids[i..][0] == ids[i] && ids[i..][1..] == ids[i + 1..];
        AutoRowsTurn(links, i, auto);
        Close(links[i].offer, OfferStatus.Declined, CrossActivityDecline);
        if links[i].mode.Auto? {
          auto := auto + [links[i].activity];
        }
      }
    }

    /** The accepting transaction: activity row, offer row, candidate row, three conditional updates, the linkage. */
    method AcceptTx(o: nat, now: int) returns (reply: Reply)
      requires Refs(Snapshot())
      modifies this
      ensures Outcome(Snapshot(), reply) == Transactions.AcceptTx(old(Snapshot()), o, now)
    {
      if o >= |offers| {
        return Failed(TokenInvalid);
      }
      var k := offers[o].application;
      var a, c := applications[k].activity, applications[k].candidate;
      if Gate(activities[a].status).Some? {
        return Failed(Gate(activities[a].status).value);
      }
      match offers[o].status
      case Accepted => return AlreadyAccepted;
      case Declined => return Failed(OfferNotActionable(OfferStatus.Declined));
      case Expired => return Failed(Error.OfferExpired);
      case Pending =>
        if offers[o].expiresAt <= now {
          Close(o, OfferStatus.Expired, Reason.OfferExpired);
          return Failed(Error.OfferExpired);
        }
        if candidates[c].acceptedOffer == Some(o) {
          return AlreadyAccepted;
        }
        if candidates[c].acceptedOffer.Some? {
          Close(o, OfferStatus.Declined, CrossActivityDecline);
          return Failed(OfferNotActionable(OfferStatus.Declined));
        }
        reply := TakeAndLink(o);
    }

    method TakeAndLink(o: nat) returns (reply: Reply)
      requires Refs(Snapshot()) && o < |offers| && offers[o].status.Pending?
      requires candidates[CandOf(Snapshot(), o)].acceptedOffer.None?
      modifies this
      ensures Outcome(Snapshot(), reply) == Taking(old(Snapshot()), o)
    {
      var s0 := Snapshot();
      var k := offers[o].application;
      var a, c := applications[k].activity, applications[k].candidate;
      var won := UpdateOfferStatus(o, OfferStatus.Pending, OfferStatus.Accepted);
      var pointed := PointCandidate(c, o);
      assert won && pointed;
      var applied := UpdateApplicationStatus(k, AppStatus.Offered, AppStatus.Accepted);
      if !applied {
        Rollback(s0);
        return Failed(Conflict);
      }
      assert Snapshot() == Take(s0, o);
      var links := LinkRows(Snapshot(), Links(Snapshot(), c));
      RowsTell(Snapshot(), Links(Snapshot(), c));
      var main := if activities[a].mode.Auto? then [a] else [];
      var linked := DeclineLinks(links);
      return AcceptedNow(main + linked);
    }

    /** The declining transaction. A late offer is settled and then the refusal rolls the settlement back. */
    method DeclineTx(o: nat, now: int) returns (reply: Reply)
      requires Refs(Snapshot())
      modifies this
      ensures Outcome(Snapshot(), reply) == Transactions.DeclineTx(old(Snapshot()), o, now)
    {
      var s0 := Snapshot();
      if o >= |offers| {
        return Failed(TokenInvalid);
      }
      var k := offers[o].application;
      var a := applications[k].activity;
      if Gate(activities[a].status).Some? {
        return Failed(Gate(activities[a].status).value);
      }
      match offers[o].status
      case Declined => return AlreadyDeclined;
      case Accepted => return Failed(OfferNotActionable(OfferStatus.Accepted));
      case Expired => return Failed(Error.OfferExpired);
      case Pending =>
        if offers[o].expiresAt <= now {
          Close(o, OfferStatus.Expired, Reason.OfferExpired);
          Rollback(s0);
          return Failed(Error.OfferExpired);
        }
        var won := UpdateOfferStatus(o, OfferStatus.Pending, OfferStatus.Declined);
        assert won;
        var applied := UpdateApplicationStatus(k, AppStatus.Offered, AppStatus.Declined);
        if !applied {
          Rollback(s0);
          return Failed(Conflict);
        }
        RecordIntent(a, Reason.OfferDeclined, Some(o));
        return DeclinedNow;
    }

    /** One transaction of the expiry sweep: the rows of one activity, each looked at again under its lock. */
    method SettleRows(a: nat, ids: seq<nat>, now: int)
      requires Refs(Snapshot()) && InActivity(Snapshot(), a, ids)
      modifies `offers, `applications, `intents
      ensures Snapshot() == SettleGroup(old(Snapshot()), a, ids, now)
    {
      if a >= |activities| || !activities[a].status.Active? {
        return;
      }
      ghost var s0 := Snapshot();
      for i := 0 to |ids|
        invariant OnlyCloses(s0, Snapshot())
        invariant CloseAll(Snapshot(), StillDue(s0, a, ids[i..], now), OfferStatus.Expired, Reason.OfferExpired)
               == CloseAll(s0, StillDue(s0, a, ids, now), OfferStatus.Expired, Reason.OfferExpired)
      {
        SettleTurn(s0, Snapshot(), a, ids, i, now);
        if offers[ids[i]].status.Pending? && offers[ids[i]].expiresAt <= now {
          Close(ids[i], OfferStatus.Expired, Reason.OfferExpired);
        }
      }
    }

    // ---------- ranking ----------

    /** UPDATE application SET rank = NULL for the named rows. */
    method ClearRanks(pool: set<nat>)
      modifies `applications
      ensures applications == Cleared(old(applications), pool)
    {
      applications := Cleared(applications, pool);
    }

    method AssignRank(k: nat, rank: nat)
      requires k < |applications|
      modifies `applications
      ensures applications == old(applications)[k := old(applications)[k].(rank := Some(rank))]
    {
      applications := applications[k := applications[k].(rank := Some(rank))];
    }

    /** Writes ranks[i] to the i-th listed row, after nulling them all. */
    method RewriteRanks(pool: set<nat>, rows: seq<nat>, ranks: seq<nat>)
      requires NoRepeats(rows) && |ranks| == |rows|
      requires forall i :: 0 <= i < |rows| ==> rows[i] < |applications| && rows[i] in pool
      modifies `applications
      ensures Rewritten(old(applications), applications, pool, rows, ranks, |rows|)
    {
      ghost var apps := applications;
      ClearRanks(pool);
      for i := 0 to |rows|
        invariant Rewritten(apps, applications, pool, rows, ranks, i)
      {
        AssignRank(rows[i], ranks[i]);
      }
    }

    /** Ranks the applications 1..N by score and import order. The duplicate check behind the writes never fires. */
    method Recalculate(a: nat) returns (reply: Reply)
      requires Orders(Snapshot())
      modifies this
      ensures Outcome(Snapshot(), reply) == Transactions.Recalculate(old(Snapshot()), a)
    {
      if a >= |activities| {
        return Failed(NotFound);
      }
      if Gate(activities[a].status).Some? {
        return Failed(Gate(activities[a].status).value);
      }
      if activities[a].frozen {
        return Failed(RankingFrozen);
      }
      RankByMerit(a);
      RanksVerified(old(Snapshot()), a);
      assert RanksDifferIn(Snapshot(), a);
      activities := activities[a := activities[a].(dirty := false)];
      return Done;
    }

    method RankByMerit(a: nat)
      requires Orders(Snapshot())
      modifies `applications
      ensures applications == Ranked(old(applications), AppsOf(old(Snapshot()), a))
    {
      ghost var apps := applications;
      MeritKeysDiffer(Snapshot(), a);
      RankedRows(Snapshot(), a);
      var pool := AppsOf(Snapshot(), a);
      var rows := Sorted(MeritKeys(applications), pool);
      RewriteRanks(pool, rows, OneTo(|rows|));
      RankedIs(apps, applications, pool, rows);
    }

    /** Hands the ranks of one whole score group out again in the requested order. */
    method TieOrder(a: nat, ids: seq<nat>) returns (reply: Reply)
      modifies this
      ensures Outcome(Snapshot(), reply) == Transactions.TieOrder(old(Snapshot()), a, ids)
    {
      if ids == [] || !NoRepeats(ids) {
        return Failed(Validation);
      }
      if a >= |activities| {
        return Failed(NotFound);
      }
      if Gate(activities[a].status).Some? {
        return Failed(Gate(activities[a].status).value);
      }
      if activities[a].frozen {
        return Failed(RankingFrozen);
      }
      if !(SetOf(ids) <= AppsOf(Snapshot(), a)) {
        return Failed(NotFound);
      }
      if !WholeTie(Snapshot(), a, ids) {
        return Failed(Validation);
      }
      TieDone(Snapshot(), a, ids);
      TradeRanks(a, ids);
      return Done;
    }

    method TradeRanks(a: nat, ids: seq<nat>)
      requires TieReady(Snapshot(), a, ids)
      modifies `applications
      ensures applications == TieRanked(old(applications), ids)
      ensures forall k :: k in ids ==> k < old(|applications|) && Traded(old(applications), applications, ids, k)
    {
      ghost var s0 := Snapshot();
      forall i | 0 <= i < |ids| ensures ids[i] in SetOf(ids) {
      }
      RewriteRanks(SetOf(ids), ids, OldRanks(applications, ids));
      TieRankedIs(s0, applications, a, ids);
      forall k | k in ids ensures k < |s0.applications| && Traded(s0.applications, applications, ids, k) {
        TieTrades(s0, a, ids, k);
      }
    }

    // ---------- preparation ----------

    method CreateActivity(quota: int, mode: Option<Mode>, batchSize: int, expireHours: int, platform: Defaults)
      returns (reply: Reply)
      modifies `activities
      ensures Outcome(Snapshot(), reply)
        == Transactions.CreateActivity(old(Snapshot()), quota, mode, batchSize, expireHours, platform)
    {
      if quota < 1 {
        return Failed(Validation);
      }
      var chosen := if mode.None? then platform.mode else mode;
      if chosen.None? {
        return Failed(Validation);
      }
      var size := batchSize;
      if size < 0 || size > 1000 {
        return Failed(Validation);
      }
      if size == 0 && chosen.value.Batch? {
        size := platform.batchSize;
        if size < 1 || size > 1000 {
          return Failed(Validation);
        }
      }
      var hours := if expireHours == 0 then platform.expireHours else expireHours;
      if hours < 1 || hours > 720 {
        return Failed(Validation);
      }
      activities := activities + [Activity(Active, quota, chosen.value, size, hours, false, false, None, false, false)];
      return Done;
    }

    /** Updates the profile and score columns that differ; a write makes the ranking dirty. */
    method WriteColumns(k: nat, profile: string, score: int)
      requires Refs(Snapshot()) && k < |applications|
      modifies `applications, `activities
      ensures Snapshot() == Revise(old(Snapshot()), k, profile, score)
    {
      var app := applications[k];
      if app.profile != profile || app.score != score {
        applications := applications[k := app.(profile := profile, score := score)];
        activities := activities[app.activity := activities[app.activity].(dirty := true)];
      }
    }

    method FindOrInsertCandidate(studentId: string) returns (c: nat)
      modifies `candidates
      ensures Snapshot() == EnsureCandidate(old(Snapshot()), studentId)
      ensures c < |candidates| && c == FindCandidate(Snapshot(), |candidates|, studentId)
    {
      var found := FindCandidate(Snapshot(), |candidates|, studentId);
      if found >= 0 {
        return found;
      }
      candidates := candidates + [Candidate(studentId, None)];
      c := |candidates| - 1;
      assert candidates[c].studentId == studentId;
    }

    method ImportOne(a: nat, studentId: string, profile: string, score: int) returns (reply: Reply)
      requires Refs(Snapshot())
      modifies this
      ensures Outcome(Snapshot(), reply) == Transactions.ImportOne(old(Snapshot()), a, studentId, profile, score)
    {
      if a >= |activities| {
        return Failed(NotFound);
      }
      if Gate(activities[a].status).Some? {
        return Failed(Gate(activities[a].status).value);
      }
      if activities[a].frozen {
        return Failed(RankingFrozen);
      }
      if !ScoreOk(score) {
        return Failed(Validation);
      }
      var c := FindOrInsertCandidate(studentId);
      var k := FindApplication(Snapshot(), |applications|, a, c);
      if k >= 0 {
        WriteColumns(k, profile, score);
      } else {
        var order := MaxImportOrder(applications, |applications|, a) + 1;
        applications := applications + [Application(a, c, profile, score, None, order, AppStatus.Waiting)];
        activities := activities[a := activities[a].(dirty := true)];
      }
      return Done;
    }

    method Patch(a: nat, k: nat, studentId: Option<string>, profile: Option<string>, score: Option<int>)
      returns (reply: Reply)
      requires Refs(Snapshot())
      modifies this
      ensures Outcome(Snapshot(), reply) == Transactions.Patch(old(Snapshot()), a, k, studentId, profile, score)
    {
      if profile.None? && score.None? {
        return Failed(Validation);
      }
      if k >= |applications| || applications[k].activity != a {
        return Failed(NotFound);
      }
      if Gate(activities[a].status).Some? {
        return Failed(Gate(activities[a].status).value);
      }
      if activities[a].frozen {
        return Failed(RankingFrozen);
      }
      if studentId.Some? && studentId.value != candidates[applications[k].candidate].studentId {
        return Failed(Validation);
      }
      if score.Some? && !ScoreOk(score.value) {
        return Failed(Validation);
      }
      var app := applications[k];
      WriteColumns(k, if profile.Some? then profile.value else app.profile,
          if score.Some? then score.value else app.score);
      return Done;
    }

    // ---------- issuing ----------

    /** FillByRank as every AUTO caller uses it. */
    method RefillAuto(a: nat, now: int) returns (issued: nat)
      requires Refs(Snapshot())
      modifies `offers, `applications
      ensures Snapshot() == Refill(old(Snapshot()), a, now) && |offers| == old(|offers|) + issued
    {
      issued := 0;
      if a < |activities| && activities[a].mode.Auto? {
        issued := FillByRank(a, 0, AutoTerms(Snapshot(), a, now));
      }
    }

    method StartAdmission(a: nat, hasOwner: bool, smtpReady: bool, now: int) returns (reply: Reply)
      requires Refs(Snapshot())
      modifies this
      ensures Outcome(Snapshot(), reply) == Transactions.StartAdmission(old(Snapshot()), a, hasOwner, smtpReady, now)
    {
      if a >= |activities| {
        return Failed(NotFound);
      }
      var act := activities[a];
      if Gate(act.status).Some? {
        return Failed(Gate(act.status).value);
      }
      if act.frozen && act.startedAt.Some? {
        return Issued(0);
      }
      if act.quota < 1 {
        return Failed(Validation);
      }
      if act.dirty || exists k :: k in AppsOf(Snapshot(), a) && applications[k].rank.None? {
        return Failed(RankingDirty);
      }
      if !hasOwner {
        return Failed(Conflict);
      }
      if act.mode.Auto? && !smtpReady {
        return Failed(SmtpNotConfigured);
      }
      var issued := Begin(a, now);
      return Issued(issued);
    }

    /** Freezes the ranking, stamps the start and, for AUTO, issues the first offers. */
    method Begin(a: nat, now: int) returns (issued: nat)
      requires Refs(Snapshot()) && a < |activities|
      modifies this
      ensures var s0, act := old(Snapshot()), old(activities)[a];
        var started := act.(frozen := true, startedAt := if act.startedAt.None? then Some(now) else act.startedAt);
        Snapshot() == Refill(SetActivity(s0, a, started), a, now) && |offers| == |s0.offers| + issued
    {
      Freeze(a, now);
      issued := RefillAuto(a, now);
    }

    method Freeze(a: nat, now: int)
      requires a < |activities|
      modifies `activities
      ensures var act := old(activities)[a];
        activities == old(activities)[a := act.(frozen := true,
            startedAt := if act.startedAt.None? then Some(now) else act.startedAt)]
    {
      var act := activities[a];
      if !act.frozen {
        activities := activities[a := activities[a].(frozen := true)];
      }
      if act.startedAt.None? {
        activities := activities[a := activities[a].(startedAt := Some(now))];
      }
    }

    /** The batch row is created first, filled, and then either completed with its count or deleted. */
    method IssueBatch(a: nat, limit: nat, platformDefault: int, smtpReady: bool, now: int) returns (reply: Reply)
      requires Refs(Snapshot())
      modifies this
      ensures Outcome(Snapshot(), reply)
        == Transactions.IssueBatch(old(Snapshot()), a, limit, platformDefault, smtpReady, now)
    {
      if limit > 1000 {
        return Failed(Validation);
      }
      if a >= |activities| {
        return Failed(NotFound);
      }
      var act := activities[a];
      if Gate(act.status).Some? {
        return Failed(Gate(act.status).value);
      }
      if !act.frozen {
        return Failed(Conflict);
      }
      if !act.mode.Batch? {
        return Failed(ModeLocked);
      }
      var size := BatchLimit(act, limit, platformDefault);
      if size <= 0 {
        return Failed(Internal);
      }
      if !smtpReady {
        return Failed(SmtpNotConfigured);
      }
      if Occupied(Snapshot(), a) >= act.quota {
        return Failed(QuotaExceeded);
      }
      var issued := RunBatch(a, size, Deadline(act, now));
      return Issued(issued);
    }

    method RunBatch(a: nat, size: nat, deadline: int) returns (issued: nat)
      requires Refs(Snapshot()) && a < |activities|
      modifies this
      ensures var s0 := old(Snapshot());
        var filled := Fill(s0.(nextBatch := s0.nextBatch + 1), a, size, Terms(FromBatch, Some(s0.nextBatch), deadline));
        && |filled.offers| == |s0.offers| + issued
        && Snapshot() == if issued == 0 then filled
                         else filled.(batches := filled.batches +
                             [BatchRow(s0.nextBatch, a, MaxBatchNo(s0.batches, |s0.batches|, a) + 1, issued)])
    {
      ghost var s0 := Snapshot();
      var row := BatchRow(nextBatch, a, MaxBatchNo(batches, |batches|, a) + 1, 0);
      nextBatch := nextBatch + 1;
      batches := batches + [row];
      var terms := Terms(FromBatch, Some(row.id), deadline);
      FillIgnoresBatches(s0.(nextBatch := nextBatch), batches, a, size, terms);
      FillGrown(s0.(nextBatch := nextBatch), a, size, terms);
      issued := FillByRank(a, size, terms);
      CompleteRow(issued);
    }

    /** A batch that reached somebody gets its count, an empty one is deleted. */
    method CompleteRow(issued: nat)
      requires batches != []
      modifies `batches
      ensures var rows := old(batches); var last := |rows| - 1;
        batches == if issued == 0 then rows[..last] else rows[..last] + [rows[last].(issued := issued)]
    {
      var last := |batches| - 1;
      if issued == 0 {
        batches := batches[..last];
      } else {
        batches := batches[last := batches[last].(issued := issued)];
      }
    }

    method IssueManual(a: nat, k: nat, smtpReady: bool, now: int) returns (reply: Reply)
      requires Refs(Snapshot())
      modifies this
      ensures Outcome(Snapshot(), reply) == Transactions.IssueManual(old(Snapshot()), a, k, smtpReady, now)
    {
      if a >= |activities| {
        return Failed(NotFound);
      }
      var act := activities[a];
      if Gate(act.status).Some? {
        return Failed(Gate(act.status).value);
      }
      if !act.frozen {
        return Failed(Conflict);
      }
      if !act.mode.Manual? {
        return Failed(ModeLocked);
      }
      if k >= |applications| || applications[k].activity != a {
        return Failed(NotFound);
      }
      if !applications[k].status.Waiting? {
        return Failed(Conflict);
      }
      if candidates[applications[k].candidate].acceptedOffer.Some? {
        return Failed(Conflict);
      }
      if ActiveForCandidate(Snapshot(), applications[k].candidate, a) != {} {
        return Failed(Conflict);
      }
      if Occupied(Snapshot(), a) >= act.quota {
        return Failed(QuotaExceeded);
      }
      if !smtpReady {
        return Failed(SmtpNotConfigured);
      }
      InsertOffer(k, Terms(FromManual, None, Deadline(act, now)));
      var won := UpdateApplicationStatus(k, AppStatus.Waiting, AppStatus.Offered);
      assert won;
      return Issued(1);
    }

    method IssueSpecial(a: nat, k: nat, reasonGiven: bool, smtpReady: bool, now: int) returns (reply: Reply)
      requires Refs(Snapshot())
      modifies this
      ensures Outcome(Snapshot(), reply)
        == Transactions.IssueSpecial(old(Snapshot()), a, k, reasonGiven, smtpReady, now)
    {
      if !reasonGiven {
        return Failed(Validation);
      }
      if a >= |activities| {
        return Failed(NotFound);
      }
      var act := activities[a];
      if Gate(act.status).Some? {
        return Failed(Gate(act.status).value);
      }
      if !act.frozen {
        return Failed(Conflict);
      }
      if k >= |applications| || applications[k].activity != a {
        return Failed(NotFound);
      }
      var from := applications[k].status;
      if !from.Declined? && !from.Expired? {
        return Failed(Conflict);
      }
      var previous := CurrentOffer(Snapshot(), k);
      if previous < 0 || Holding(offers[previous].status) {
        return Failed(Conflict);
      }
      if candidates[applications[k].candidate].acceptedOffer.Some? {
        return Failed(Conflict);
      }
      if Occupied(Snapshot(), a) >= act.quota {
        return Failed(QuotaExceeded);
      }
      if !smtpReady {
        return Failed(SmtpNotConfigured);
      }
      InsertOffer(k, Terms(Special, None, Deadline(act, now)));
      var won := UpdateApplicationStatus(k, from, AppStatus.Offered);
      assert won;
      return Issued(1);
    }

    // ---------- settings and lifecycle ----------

    /** Raises or lowers the quota. Returns whether the caller owes a refill after the commit. */
    method UpdateQuota(a: nat, quota: int) returns (reply: Reply)
      requires Refs(Snapshot())
      modifies this
      ensures Outcome(Snapshot(), reply) == Transactions.UpdateQuota(old(Snapshot()), a, quota)
    {
      if quota < 1 {
        return Failed(Validation);
      }
      if a >= |activities| {
        return Failed(NotFound);
      }
      var act := activities[a];
      if Gate(act.status).Some? {
        return Failed(Gate(act.status).value);
      }
      if quota < Occupied(Snapshot(), a) {
        return Failed(QuotaTooSmall);
      }
      activities := activities[a := act.(quota := quota)];
      if quota > act.quota && act.mode.Auto? && act.frozen {
        if act.paused {
          RecordIntent(a, QuotaIncrease, None);
        } else {
          owed := owed + {a};
        }
      }
      return Done;
    }

    /** The work owed after an unpaused quota increase. An intent takes its place when the refill fails; an error of
        that write is dropped. */
    method RefillAfterQuota(a: nat, fillWorks: bool, intentWorks: bool, now: int)
      requires Refs(Snapshot()) && a in owed && a < |activities|
      modifies this
      ensures Snapshot() == QuotaRefill(old(Snapshot()), a, fillWorks, intentWorks, now)
    {
      owed := owed - {a};
      if fillWorks {
        var _ := RefillAuto(a, now);
      } else if intentWorks {
        RecordIntent(a, QuotaIncrease, None);
      }
    }

    method UpdateOfferMode(a: nat, mode: Mode) returns (reply: Reply)
      modifies `activities
      ensures Outcome(Snapshot(), reply) == Transactions.UpdateOfferMode(old(Snapshot()), a, mode)
    {
      if a >= |activities| {
        return Failed(NotFound);
      }
      if Gate(activities[a].status).Some? {
        return Failed(Gate(activities[a].status).value);
      }
      if activities[a].startedAt.Some? || activities[a].frozen {
        return Failed(ModeLocked);
      }
      activities := activities[a := activities[a].(mode := mode)];
      return Done;
    }

    method Disable(a: nat) returns (reply: Reply)
      modifies `activities
      ensures Outcome(Snapshot(), reply) == Transactions.Disable(old(Snapshot()), a)
    {
      if a >= |activities| {
        return Failed(NotFound);
      }
      if !activities[a].status.Active? {
        return Failed(Conflict);
      }
      activities := activities[a := activities[a].(status := Disabled)];
      activities := activities[a := activities[a].(paused := true)];
      return Done;
    }

    method Activate(a: nat, now: int) returns (reply: Reply)
      requires Refs(Snapshot())
      modifies this
      ensures Outcome(Snapshot(), reply) == Transactions.Activate(old(Snapshot()), a, now)
    {
      if a >= |activities| {
        return Failed(NotFound);
      }
      if !activities[a].status.Disabled? {
        return Failed(Conflict);
      }
      activities := activities[a := activities[a].(status := Active)];
      SettleExpiredForActivity(a, now);
      return Done;
    }

    method Archive(a: nat) returns (reply: Reply)
      requires Refs(Snapshot())
      modifies `activities
      ensures Outcome(Snapshot(), reply) == Transactions.Archive(old(Snapshot()), a)
    {
      if a >= |activities| {
        return Failed(NotFound);
      }
      if !activities[a].status.Active? {
        return Failed(Conflict);
      }
      if PendingIn(Snapshot(), a) != {} {
        return Failed(Conflict);
      }
      activities := activities[a := activities[a].(status := Archived)];
      return Done;
    }

    method PauseRefill(a: nat) returns (reply: Reply)
      modifies `activities
      ensures Outcome(Snapshot(), reply) == Transactions.PauseRefill(old(Snapshot()), a)
    {
      if a >= |activities| {
        return Failed(NotFound);
      }
      var act := activities[a];
      if !act.mode.Auto? {
        return Failed(Conflict);
      }
      if Gate(act.status).Some? {
        return Failed(Gate(act.status).value);
      }
      if act.startedAt.None? || !act.frozen {
        return Failed(Conflict);
      }
      if !act.paused {
        activities := activities[a := act.(paused := true)];
      }
      return Done;
    }

    /** The platform stop walks the running AUTO activities and skips those it has stopped before. */
    method PauseAllAutoRefills()
      modifies `activities
      ensures Snapshot() == Transactions.PauseAllAutoRefills(old(Snapshot()))
    {
      ghost var acts, target := activities, Transactions.PauseAllAutoRefills(Snapshot()).activities;
      for a := 0 to |activities|
        invariant |activities| == |acts|
        invariant forall b :: 0 <= b < |acts| ==> activities[b] == if b < a then target[b] else acts[b]
      {
        if Running(activities[a]) && !activities[a].platformPaused {
          activities := activities[a := activities[a].(paused := true, platformPaused := true)];
        }
      }
    }

    method ResumeRefill(a: nat, now: int) returns (reply: Reply)
      requires Refs(Snapshot())
      modifies this
      ensures Outcome(Snapshot(), reply) == Transactions.ResumeRefill(old(Snapshot()), a, now)
    {
      if a >= |activities| {
        return Failed(NotFound);
      }
      var act := activities[a];
      if !act.mode.Auto? {
        return Failed(Conflict);
      }
      if Gate(act.status).Some? {
        return Failed(Gate(act.status).value);
      }
      if act.platformPaused {
        return Failed(Forbidden);
      }
      if !act.paused {
        return Issued(0);
      }
      var issued := Reopen(a, now);
      return Issued(issued);
    }

    /** Late offers expire before their seats are refilled, and the intents all this has served are closed. */
    method Reopen(a: nat, now: int) returns (issued: nat)
      requires Refs(Snapshot()) && a < |activities|
      modifies this
      ensures var s0 := old(Snapshot());
        var open := SetActivity(SettleActivity(s0, a, now), a, s0.activities[a].(paused := false));
        && Snapshot() == CloseIntents(Refill(open, a, now), a) && |offers| == |s0.offers| + issued
    {
      SettleExpiredForActivity(a, now);
      activities := activities[a := activities[a].(paused := false)];
      issued := RefillAuto(a, now);
      FinishIntents(a);
    }

    /** UPDATE refill_intent SET status = DONE for the PENDING intents of one activity. */
    method FinishIntents(a: nat)
      modifies `intents
      ensures Snapshot() == CloseIntents(old(Snapshot()), a)
    {
      intents := CloseIntents(Snapshot(), a).intents;
    }

    /** The intent executor for one activity: gate, refill, close-out, under one row lock. */
    method ExecuteOne(a: nat, now: int)
      requires Refs(Snapshot())
      modifies this
      ensures Snapshot() == Transactions.ExecuteOne(old(Snapshot()), a, now)
    {
      if a >= |activities| || !MayRefill(activities[a]) || !HasIntent(Snapshot(), a) {
        return;
      }
      var _ := RefillAuto(a, now);
      FinishIntents(a);
    }

    // ---------- background work ----------

    /** One transaction per listed activity; without its lease an activity is skipped. */
    method ExecuteIntents(ids: seq<nat>, leased: set<nat>, now: int)
      requires Refs(Snapshot())
      modifies this
      ensures Snapshot() == ExecuteAll(old(Snapshot()), ids, leased, now)
    {
      ghost var s0 := Snapshot();
      for i := 0 to |ids|
        invariant Refs(Snapshot())
        invariant ExecuteAll(Snapshot(), ids[i..], leased, now) == ExecuteAll(s0, ids, leased, now)
      {
        assert ids[i..][0] == ids[i] && ids[i..][1..] == ids[i + 1..];
        if ids[i] in leased {
          ExecuteOne(ids[i], now);
        }
      }
    }

    /** The refills after a commit: each activity once, and only while it is ACTIVE, started, AUTO and not paused. */
    method RefillActivitiesPostCommit(ids: seq<nat>, now: int)
      requires Refs(Snapshot())
      modifies this
      ensures Snapshot() == RefillEach(old(Snapshot()), ids, {}, now)
    {
      ghost var s0 := Snapshot();
      var seen: set<nat> := {};
      for i := 0 to |ids|
        invariant Refs(Snapshot())
        invariant RefillEach(Snapshot(), ids[i..], seen, now) == RefillEach(s0, ids, {}, now)
      {
        assert ids[i..][0] == ids[i] && ids[i..][1..] == ids[i + 1..];
        if ids[i] !in seen {
          seen := seen + {ids[i]};
          if ids[i] < |activities| && MayRefill(activities[ids[i]]) {
            var _ := RefillAuto(ids[i], now);
          }
        }
      }
    }

    /** Accepting from the outside: the answer from the first read, the candidate lease, the transaction, and after its
        commit the refills of the seats the linkage freed. */
    method Accept(o: nat, leaseFree: bool, now: int, later: int) returns (reply: Reply)
      requires Refs(Snapshot()) && o < |offers|
      modifies this
      ensures var s0 := old(Snapshot());
        var early := EarlyAnswer(s0.activities[ActOf(s0, o)].status, s0.offers[o].status, true);
        if early.Some? then reply == early.value && Snapshot() == s0
        else if !leaseFree then reply == Failed(Conflict) && Snapshot() == s0
        else reply == Transactions.AcceptTx(s0, o, now).reply && Refs(Transactions.AcceptTx(s0, o, now).after)
             && Snapshot() == if reply.AcceptedNow?
                 then RefillEach(Transactions.AcceptTx(s0, o, now).after, reply.refills, {}, later)
                 else Transactions.AcceptTx(s0, o, now).after
    {
      var a := applications[offers[o].application].activity;
      var early := EarlyAnswer(activities[a].status, offers[o].status, true);
      if early.Some? {
        return early.value;
      }
      if !leaseFree {
        return Failed(Conflict);
      }
      AcceptRefs(Snapshot(), o, now);
      reply := AcceptTx(o, now);
      if reply.AcceptedNow? {
        RefillActivitiesPostCommit(reply.refills, later);
      }
    }

    /** Declining from the outside: the early answer, the transaction, and a refill when the activity may refill. */
    method Decline(o: nat, now: int, later: int) returns (reply: Reply)
      requires Refs(Snapshot()) && o < |offers|
      modifies this
      ensures var s0, a := old(Snapshot()), ActOf(old(Snapshot()), o);
        var early := EarlyAnswer(s0.activities[a].status, s0.offers[o].status, false);
        if early.Some? then reply == early.value && Snapshot() == s0
        else reply == Transactions.DeclineTx(s0, o, now).reply && Refs(Transactions.DeclineTx(s0, o, now).after)
             && Snapshot() == if reply.DeclinedNow? && MayRefill(s0.activities[a])
                 then Refill(Transactions.DeclineTx(s0, o, now).after, a, later)
                 else Transactions.DeclineTx(s0, o, now).after
    {
      var a := applications[offers[o].application].activity;
      var early := EarlyAnswer(activities[a].status, offers[o].status, false);
      if early.Some? {
        return early.value;
      }
      var refillReady := MayRefill(activities[a]);
      DeclineRefs(Snapshot(), o, now);
      reply := DeclineTx(o, now);
      if reply.DeclinedNow? && refillReady {
        var _ := RefillAuto(a, later);
      }
    }

    /** Groups the due rows by activity, in the order in which the activities first appear. */
    method GroupRows(rows: seq<DueRow>) returns (ordered: seq<nat>, groups: map<nat, seq<nat>>)
      ensures ordered == FirstSeen(rows)
      ensures forall a :: a in ordered ==> a in groups && groups[a] == GroupOf(rows, a)
    {
      ordered, groups := [], map[];
      for i := 0 to |rows|
        invariant ordered == FirstSeen(rows[..i])
        invariant forall a :: a in groups <==> a in ordered
        invariant forall a :: a in groups ==> groups[a] == GroupOf(rows[..i], a)
      {
        var a := rows[i].activity;
        assert rows[..i + 1][..i] == rows[..i];
        GroupOfUnseen(rows[..i], a);
        if a !in groups {
          ordered := ordered + [a];
          groups := groups[a := []];
        }
        groups := groups[a := groups[a] + [rows[i].offer]];
      }
      assert rows[..|rows|] == rows;
    }

    /** The expiry sweep: one transaction per activity and, for an AUTO one, a refill after its commit. */
    method SettleDue(rows: seq<DueRow>, now: int, later: int)
      requires Refs(Snapshot()) && Due(Snapshot(), rows)
      modifies this
      ensures Snapshot() == SweepAll(old(Snapshot()), FirstSeen(rows), rows, now, later)
    {
      ghost var s0 := Snapshot();
      var ordered, groups := GroupRows(rows);
      for i := 0 to |ordered|
        invariant Refs(Snapshot()) && Due(Snapshot(), rows)
        invariant SweepAll(Snapshot(), ordered[i..], rows, now, later) == SweepAll(s0, ordered, rows, now, later)
      {
        assert ordered[i..][0] == ordered[i] && ordered[i..][1..] == ordered[i + 1..];
        SweepDue(Snapshot(), ordered[i], rows, now, later);
        SweepOne(ordered[i], groups[ordered[i]], now, later);
      }
    }

    method SweepOne(a: nat, ids: seq<nat>, now: int, later: int)
      requires Refs(Snapshot()) && InActivity(Snapshot(), a, ids)
      modifies this
      ensures Snapshot() == Swept(old(Snapshot()), a, ids, now, later)
    {
      var refillReady := a < |activities| && activities[a].status.Active? && activities[a].mode.Auto?;
      SettleRows(a, ids, now);
      if refillReady {
        RefillActivitiesPostCommit([a], later);
      }
    }
  }

  datatype DueRow = DueRow(offer: nat, activity: nat)

  /** The rows are offers of the activities they name. */
  predicate Due(s: State, rows: seq<DueRow>)
    requires Refs(s)
  {
    forall i :: 0 <= i < |rows| ==> rows[i].offer < |s.offers| && ActOf(s, rows[i].offer) == rows[i].activity
  }

  function FirstSeen(rows: seq<DueRow>): (ordered: seq<nat>) {
    if rows == [] then []
    else
      var front, a := FirstSeen(rows[..|rows| - 1]), rows[|rows| - 1].activity;
      if a in front then front else front + [a]
  }

  function GroupOf(rows: seq<DueRow>, a: nat): (ids: seq<nat>) {
    if rows == [] then []
    else
      var front, last := GroupOf(rows[..|rows| - 1], a), rows[|rows| - 1];
      if last.activity == a then front + [last.offer] else front
  }

  lemma {:induction false} GroupOfUnseen(rows: seq<DueRow>, a: nat)
    ensures a !in FirstSeen(rows) ==> GroupOf(rows, a) == []
  {
    if rows != [] {
      GroupOfUnseen(rows[..|rows| - 1], a);
    }
  }

  lemma {:induction false} GroupInActivity(s: State, rows: seq<DueRow>, a: nat)
    requires Refs(s) && Due(s, rows)
    ensures InActivity(s, a, GroupOf(rows, a))
  {
    if rows != [] {
      GroupInActivity(s, rows[..|rows| - 1], a);
    }
  }

  /** One group of the sweep, its refill included. */
  function Swept(s: State, a: nat, ids: seq<nat>, now: int, later: int): (r: State)
    requires Refs(s)
    ensures Refs(r)
  {
    var settled := SettleGroup(s, a, ids, now);
    if a < |s.activities| && s.activities[a].status.Active? && s.activities[a].mode.Auto?
    then RefillEach(settled, [a], {}, later) else settled
  }

  function SweepAll(s: State, order: seq<nat>, rows: seq<DueRow>, now: int, later: int): (r: State)
    requires Refs(s)
    ensures Refs(r)
    decreases |order|
  {
    if order == [] then s
    else SweepAll(Swept(s, order[0], GroupOf(rows, order[0]), now, later), order[1..], rows, now, later)
  }

  /** Sweeping one group leaves the rows of the others what they are. */
  lemma SweepDue(s: State, a: nat, rows: seq<DueRow>, now: int, later: int)
    requires Refs(s) && Due(s, rows)
    ensures InActivity(s, a, GroupOf(rows, a)) && Due(Swept(s, a, GroupOf(rows, a), now, later), rows)
  {
    var ids := GroupOf(rows, a);
    GroupInActivity(s, rows, a);
    var settled := SettleGroup(s, a, ids, now);
    CloseAllGrown(s, StillDue(s, a, ids, now), OfferStatus.Expired, Reason.OfferExpired);
    DueStays(s, settled, rows);
    RefillGrown(settled, a, later);
    DueStays(settled, Refill(settled, a, later), rows);
    RefillOnce(settled, a, later);
  }

  lemma DueStays(s: State, r: State, rows: seq<DueRow>)
    requires Refs(s) && Due(s, rows) && (r == s || Grown(s, r))
    ensures Due(r, rows)
  {
  }

  lemma RefillGrown(s: State, a: nat, now: int)
    requires Refs(s)
    ensures Refill(s, a, now) == s || Grown(s, Refill(s, a, now))
  {
    if a < |s.activities| {
      FillGrown(s, a, 0, AutoTerms(s, a, now));
    }
  }

  lemma RefillOnce(s: State, a: nat, now: int)
    requires Refs(s)
    ensures RefillEach(s, [a], {}, now) == s || RefillEach(s, [a], {}, now) == Refill(s, a, now)
  {
    assert [a][1..] == [];
    assert forall t: State :: Refs(t) ==> RefillEach(t, [], {} + {a}, now) == t;
  }

  lemma DeclineRefs(s: State, o: nat, now: int)
    requires Refs(s)
    ensures Refs(Transactions.DeclineTx(s, o, now).after)
  {
  }

  lemma AcceptRefs(s: State, o: nat, now: int)
    requires Refs(s)
    ensures Refs(Transactions.AcceptTx(s, o, now).after)
  {
  }

  function ExecuteAll(s: State, ids: seq<nat>, leased: set<nat>, now: int): (r: State)
    requires Refs(s)
    ensures Refs(r)
    decreases |ids|
  {
    if ids == [] then s
    else ExecuteAll(if ids[0] in leased then ExecuteOne(s, ids[0], now) else s, ids[1..], leased, now)
  }

  function RefillEach(s: State, ids: seq<nat>, seen: set<nat>, now: int): (r: State)
    requires Refs(s)
    ensures Refs(r)
    decreases |ids|
  {
    if ids == [] then s
    else if ids[0] in seen then RefillEach(s, ids[1..], seen, now)
    else
      var next := if ids[0] < |s.activities| && MayRefill(s.activities[ids[0]]) then Refill(s, ids[0], now) else s;
      RefillEach(next, ids[1..], seen + {ids[0]}, now)
  }

  lemma {:induction false} LoopIgnoresBatches(s: State, rows: seq<BatchRow>, a: nat, room: nat, terms: Terms)
    requires Refs(s)
    ensures FillLoop(s.(batches := rows), a, room, terms) == FillLoop(s, a, room, terms).(batches := rows)
    decreases Queue(s, a)
  {
    var t := s.(batches := rows);
    assert Queue(t, a) == Queue(s, a) && NextWaiting(t, a) == NextWaiting(s, a);
    if room > 0 && Queue(s, a) != {} {
      var k := NextWaiting(s, a);
      var left := if HasAccepted(s, k) then room else room - 1;
      QueueShrinks(s, a, k, Turn(s, k, terms));
      FillLoopTurn(s, a, room, terms);
      FillLoopTurn(t, a, room, terms);
      assert Turn(t, k, terms) == Turn(s, k, terms).(batches := rows);
      LoopIgnoresBatches(Turn(s, k, terms), rows, a, left, terms);
    }
  }

  lemma RoomIgnoresBatches(s: State, rows: seq<BatchRow>, a: nat, limit: nat)
    requires Refs(s) && a < |s.activities|
    ensures Room(s.(batches := rows), a, limit) == Room(s, a, limit)
  {
    assert Occupying(s.(batches := rows), a) == Occupying(s, a);
  }

  /** Whom a filling reaches does not depend on the batch table. */
  lemma FillIgnoresBatches(s: State, rows: seq<BatchRow>, a: nat, limit: nat, terms: Terms)
    requires Refs(s)
    ensures Fill(s.(batches := rows), a, limit, terms) == Fill(s, a, limit, terms).(batches := rows)
  {
    if a < |s.activities| && s.activities[a].status.Active? && s.activities[a].frozen {
      FillIsLoop(s, a, limit, terms);
      FillIsLoop(s.(batches := rows), a, limit, terms);
      RoomIgnoresBatches(s, rows, a, limit);
      LoopIgnoresBatches(s, rows, a, Room(s, a, limit), terms);
    }
  }

  /** The duplicate check behind a recalculation. */
  lemma RanksVerified(s: State, a: nat)
    requires Orders(s)
    ensures RanksDifferIn(Reranked(s, a), a)
  {
    forall j, k | j in AppsOf(s, a) && k in AppsOf(s, a) && j < k
      ensures Reranked(s, a).applications[j].rank != Reranked(s, a).applications[k].rank
    {
      RecalculateOrders(s, a, j, k);
      RecalculateOrders(s, a, k, j);
    }
  }

  function Cleared(apps: seq<Application>, pool: set<nat>): (r: seq<Application>)
    ensures |r| == |apps|
  {
    seq(|apps|, k requires 0 <= k < |apps| => if k in pool then apps[k].(rank := None) else apps[k])
  }

  /** The first `n` listed rows hold their new ranks, the others of the pool none, the rest is untouched. */
  predicate Rewritten(was: seq<Application>, now: seq<Application>, pool: set<nat>, rows: seq<nat>, ranks: seq<nat>,
        n: nat)
    requires n <= |rows| == |ranks| && forall i :: 0 <= i < |rows| ==> rows[i] < |was|
  {
    && |now| == |was|
    && (forall k :: 0 <= k < |was| ==> now[k] == was[k].(rank := now[k].rank) && (k !in pool ==> now[k] == was[k]))
    && forall i :: 0 <= i < n ==> now[rows[i]].rank == Some(ranks[i])
  }

  lemma RankedRows(s: State, a: nat)
    ensures var rows := Sorted(MeritKeys(s.applications), AppsOf(s, a));
      NoRepeats(rows) && Rows(s, rows) && forall i :: 0 <= i < |rows| ==> rows[i] in AppsOf(s, a)
  {
    var keys, pool := MeritKeys(s.applications), AppsOf(s, a);
    SortedInOrder(keys, pool);
    forall i | 0 <= i < |pool| ensures Sorted(keys, pool)[i] in pool {
      assert Sorted(keys, pool)[i] in Sorted(keys, pool);
    }
  }

  /** The ranks 1..n in order. */
  function OneTo(n: nat): (ranks: seq<nat>)
    ensures |ranks| == n && forall i :: 0 <= i < n ==> ranks[i] == i + 1
  {
    seq(n, i => i + 1)
  }

  lemma RankedAt(was: seq<Application>, now: seq<Application>, pool: set<nat>, rows: seq<nat>, i: nat)
    requires Within(MeritKeys(was), pool) && Distinct(MeritKeys(was), pool) && rows == Sorted(MeritKeys(was), pool)
    requires i < |rows| && rows[i] < |now| && now[rows[i]].rank == Some(i + 1)
    ensures rows[i] < |was| && now[rows[i]].rank == Some(1 + |Smaller(MeritKeys(was), pool, rows[i])|)
  {
    PositionCountsSmaller(MeritKeys(was), pool, i);
  }

  /** Position in the sorted list and number of rows ahead are the same rank. */
  lemma RankedIs(was: seq<Application>, now: seq<Application>, pool: set<nat>, rows: seq<nat>)
    requires Within(MeritKeys(was), pool) && Distinct(MeritKeys(was), pool) && rows == Sorted(MeritKeys(was), pool)
    requires (forall i :: 0 <= i < |rows| ==> rows[i] < |was|) && Rewritten(was, now, pool, rows, OneTo(|rows|), |rows|)
    ensures now == Ranked(was, pool)
  {
    forall i | 0 <= i < |rows| ensures RankOfRow(was, pool, now, rows[i]) {
      RankedAt(was, now, pool, rows, i);
    }
    assert forall k :: k in pool ==> k in rows;
    AllRanked(was, now, pool, rows);
  }

  predicate RankOfRow(was: seq<Application>, pool: set<nat>, now: seq<Application>, k: nat)
    requires Within(MeritKeys(was), pool)
  {
    k < |was| && k < |now| && now[k].rank == Some(1 + |Smaller(MeritKeys(was), pool, k)|)
  }

  lemma AllRanked(was: seq<Application>, now: seq<Application>, pool: set<nat>, rows: seq<nat>)
    requires Within(MeritKeys(was), pool) && forall k :: k in pool ==> k in rows
    requires forall i :: 0 <= i < |rows| ==> RankOfRow(was, pool, now, rows[i])
    requires |now| == |was|
    requires forall k :: 0 <= k < |was| ==> now[k] == was[k].(rank := now[k].rank) && (k !in pool ==> now[k] == was[k])
    ensures now == Ranked(was, pool)
  {
    forall k | 0 <= k < |was| ensures now[k] == Ranked(was, pool)[k] {
      if k in pool {
        assert k in rows;
        assert RankOfRow(was, pool, now, k);
      }
    }
  }

  /** sort.Ints over the ranks of the group. */
  function OldRanks(apps: seq<Application>, ids: seq<nat>): (ranks: seq<nat>)
    requires NoRepeats(ids) && Within(RankKeys(apps), SetOf(ids))
    ensures |ranks| == |ids|
  {
    TieSize(ids);
    var holders := Sorted(RankKeys(apps), SetOf(ids));
    seq(|ids|, i requires 0 <= i < |ids| => assert holders[i] in SetOf(ids); RankOf(apps[holders[i]]))
  }

  lemma RankAt(s: State, a: nat, ids: seq<nat>, i: nat)
    requires TieReady(s, a, ids) && i < |ids|
    ensures TieRanked(s.applications, ids)[ids[i]].rank == Some(OldRanks(s.applications, ids)[i])
  {
    var apps, k := s.applications, ids[i];
    assert k in ids;
    IndexOfIs(ids, i);
    DonorGives(apps, ids, k);
    DonorKnown(s, a, ids, k);
    DonorAt(apps, ids, i);
  }

  lemma DonorAt(apps: seq<Application>, ids: seq<nat>, i: nat)
    requires NoRepeats(ids) && Within(RankKeys(apps), SetOf(ids)) && i < |ids| && ids[i] < |apps|
    ensures RankOf(apps[RankDonor(apps, ids, ids[i])]) == OldRanks(apps, ids)[i]
  {
    TieSize(ids);
    IndexOfIs(ids, i);
  }

  lemma TieRankedIs(s: State, now: seq<Application>, a: nat, ids: seq<nat>)
    requires TieReady(s, a, ids)
    requires Rewritten(s.applications, now, SetOf(ids), ids, OldRanks(s.applications, ids), |ids|)
    ensures now == TieRanked(s.applications, ids)
  {
    forall k | 0 <= k < |s.applications| ensures now[k] == TieRanked(s.applications, ids)[k] {
      if k in ids {
        var i :| 0 <= i < |ids| && ids[i] == k;
        RankAt(s, a, ids, i);
      }
    }
  }

  /** Every row of the group is an offer of the activity. */
  predicate InActivity(s: State, a: nat, ids: seq<nat>)
    requires Refs(s)
  {
    forall i :: 0 <= i < |ids| ==> ids[i] < |s.offers| && ActOf(s, ids[i]) == a
  }

  /** The state differs by closings alone. */
  predicate OnlyCloses(s0: State, s: State) {
    && Grown(s0, s) && |s.offers| == |s0.offers|
    && forall i :: 0 <= i < |s0.offers| ==> s0.offers[i].status.Pending? || s.offers[i] == s0.offers[i]
  }

  /** A row found settled when its turn comes was settled by an earlier turn of the same transaction, or before it. */
  lemma SettleTurn(s0: State, s: State, a: nat, ids: seq<nat>, i: nat, now: int)
    requires Refs(s0) && Refs(s) && InActivity(s0, a, ids) && i < |ids| && OnlyCloses(s0, s)
    ensures var due := s.offers[ids[i]].status.Pending? && s.offers[ids[i]].expiresAt <= now;
      var next := if due then CloseOne(s, ids[i], OfferStatus.Expired, Reason.OfferExpired) else s;
      && OnlyCloses(s0, next)
      && CloseAll(next, StillDue(s0, a, ids[i + 1..], now), OfferStatus.Expired, Reason.OfferExpired)
         == CloseAll(s, StillDue(s0, a, ids[i..], now), OfferStatus.Expired, Reason.OfferExpired)
  {
    assert ids[i..][0] == ids[i] && ids[i..][1..] == ids[i + 1..];
    CloseOneGrown(s, ids[i], OfferStatus.Expired, Reason.OfferExpired);
    var rest := StillDue(s0, a, ids[i + 1..], now);
    if ids[i] in DueIn(s0, a, now) {
      assert StillDue(s0, a, ids[i..], now) == [ids[i]] + rest;
      assert ([ids[i]] + rest)[1..] == rest;
    } else {
      assert StillDue(s0, a, ids[i..], now) == rest;
    }
  }

  /** What the accepting transaction commits once the accepted-offer column is found empty. */
  function Taking(s: State, o: nat): Outcome
    requires Refs(s) && o < |s.offers|
  {
    if !AppOf(s, o).status.Offered? then Reject(s, Conflict)
    else
      var taken, c, a := Take(s, o), CandOf(s, o), ActOf(s, o);
      Outcome(CloseAll(taken, Links(taken, c), OfferStatus.Declined, CrossActivityDecline),
              AcceptedNow((if s.activities[a].mode.Auto? then [a] else []) + AutoActivities(taken, Links(taken, c))))
  }

  /** A row of the linkage query: the offer, its activity and the activity's mode. */
  datatype LinkRow = LinkRow(offer: nat, activity: nat, mode: Mode)

  function LinkRows(s: State, ids: seq<nat>): (rows: seq<LinkRow>)
    requires Refs(s) && Named(s, ids)
    ensures |rows| == |ids|
  {
    seq(|ids|, i requires 0 <= i < |ids| => LinkRow(ids[i], ActOf(s, ids[i]), s.activities[ActOf(s, ids[i])].mode))
  }

  function OfferIds(rows: seq<LinkRow>): (ids: seq<nat>)
    ensures |ids| == |rows|
  {
    seq(|rows|, i requires 0 <= i < |rows| => rows[i].offer)
  }

  function AutoRows(rows: seq<LinkRow>): seq<nat> {
    if rows == [] then [] else (if rows[0].mode.Auto? then [rows[0].activity] else []) + AutoRows(rows[1..])
  }

  lemma AutoRowsTurn(rows: seq<LinkRow>, i: nat, auto: seq<nat>)
    requires i < |rows| && auto + AutoRows(rows[i..]) == AutoRows(rows)
    ensures (if rows[i].mode.Auto? then auto + [rows[i].activity] else auto) + AutoRows(rows[i + 1..]) == AutoRows(rows)
  {
    assert rows[i..][0] == rows[i] && rows[i..][1..] == rows[i + 1..];
  }

  lemma {:induction false} RowsTell(s: State, ids: seq<nat>)
    requires Refs(s) && Named(s, ids)
    ensures OfferIds(LinkRows(s, ids)) == ids && AutoRows(LinkRows(s, ids)) == AutoActivities(s, ids)
  {
    if ids != [] {
      RowsTell(s, ids[1..]);
      assert LinkRows(s, ids)[1..] == LinkRows(s, ids[1..]);
    }
  }

  /** Between two turns: what is still to come completes the loop of the specification, the counters count, and every
      row the cursor has returned has left the queue. */
  ghost predicate Midway(s0: State, s: State, a: nat, limit: nat, terms: Terms, occupied: nat, issued: nat,
        seen: set<nat>)
    requires Refs(s0) && a < |s0.activities|
  {
    && Refs(s) && occupied == Occupied(s, a) == Occupied(s0, a) + issued && |s.offers| == |s0.offers| + issued
    && seen !! Queue(s, a)
    && Completes(s0, s, a, issued, Room(s0, a, limit), terms)
  }

  ghost predicate Completes(s0: State, s: State, a: nat, issued: nat, room: nat, terms: Terms)
    requires Refs(s0) && Refs(s)
  {
    issued <= room && FillLoop(s, a, room - issued, terms) == FillLoop(s0, a, room, terms)
  }

  lemma MidwayTurn(s0: State, s: State, a: nat, limit: nat, terms: Terms, occupied: nat, issued: nat, seen: set<nat>)
    requires Refs(s0) && a < |s0.activities| && Midway(s0, s, a, limit, terms, occupied, issued, seen)
    requires Queue(s, a) != {}
    requires occupied < s0.activities[a].quota && (limit == 0 || issued < limit)
    ensures var k := NextWaiting(s, a); var given := if HasAccepted(s, k) then 0 else 1;
      && k !in seen && Queue(Turn(s, k, terms), a) < Queue(s, a)
      && Midway(s0, Turn(s, k, terms), a, limit, terms, occupied + given, issued + given, seen + {k})
  {
    var k := NextWaiting(s, a);
    FillLoopTurn(s, a, Room(s0, a, limit) - issued, terms);
    QueueShrinks(s, a, k, Turn(s, k, terms));
    TurnOccupies(s, a, k, terms);
  }

  lemma MidwayEnd(s0: State, s: State, a: nat, limit: nat, terms: Terms, occupied: nat, issued: nat, seen: set<nat>)
    requires Refs(s0) && a < |s0.activities| && Midway(s0, s, a, limit, terms, occupied, issued, seen)
    requires Queue(s, a) == {} || !(occupied < s0.activities[a].quota && (limit == 0 || issued < limit))
    ensures s == FillLoop(s0, a, Room(s0, a, limit), terms)
  {
    EmptyQueueStops(s, a, Room(s0, a, limit) - issued, terms);
  }

  /** A turn takes a seat exactly when it issues an offer. */
  lemma TurnOccupies(s: State, a: nat, k: nat, terms: Terms)
    requires Refs(s) && k in Queue(s, a)
    ensures Occupied(Turn(s, k, terms), a) == Occupied(s, a) + (if HasAccepted(s, k) then 0 else 1)
    ensures |Turn(s, k, terms).offers| == |s.offers| + (if HasAccepted(s, k) then 0 else 1)
    ensures Turn(s, k, terms).activities == s.activities
  {
    if HasAccepted(s, k) {
      assert Occupying(Turn(s, k, terms), a) == Occupying(s, a);
    } else {
      IssueSeats(s, k, terms, a);
    }
  }
}
