/** One function per database transaction of the admission services: the tables and the arguments in, the
    committed tables and the reply out. A transaction that fails commits nothing, so it returns the tables it
    was given. */
module Transactions {
  import opened OrderBy
  import opened Tables

  datatype Error =
    | NotFound | TokenInvalid | Validation | Conflict | Forbidden | Internal
    | ActivityDisabled | ActivityArchived | ModeLocked
    | RankingDirty | RankingFrozen | SmtpNotConfigured
    | QuotaExceeded | QuotaTooSmall
    | OfferExpired | OfferNotActionable(status: OfferStatus)

  /** `AcceptedNow` carries the AUTO activities the caller refills after the commit. */
  datatype Reply =
    | Done
    | Issued(count: nat)
    | AlreadyAccepted
    | AcceptedNow(refills: seq<nat>)
    | AlreadyDeclined
    | DeclinedNow
    | Failed(error: Error)

  datatype Outcome = Outcome(after: State, reply: Reply)

  function Reject(s: State, error: Error): Outcome { Outcome(s, Failed(error)) }

  /** The activity gate in front of every offer write. */
  function Gate(status: ActivityStatus): Option<Error> {
    match status
    case Active => None
    case Disabled => Some(ActivityDisabled)
    case Archived => Some(ActivityArchived)
  }

  const MAX_SCORE: int := 2147483647

  predicate ScoreOk(score: int) { 1 <= score <= MAX_SCORE }

  function Deadline(act: Activity, now: int): int { now + act.expireHours * 3600 }

  // ---------- row writes ----------

  function SetActivity(s: State, a: nat, act: Activity): (r: State)
    requires a < |s.activities|
    ensures Refs(s) ==> Refs(r)
  {
    s.(activities := s.activities[a := act])
  }

  function SetStatus(s: State, k: nat, status: AppStatus): (r: State)
    requires k < |s.applications|
    ensures Refs(s) ==> Refs(r)
  {
    s.(applications := s.applications[k := s.applications[k].(status := status)])
  }

  /** Intents are only recorded for AUTO activities. */
  function AddIntent(s: State, a: nat, why: Reason, offer: Option<nat>): (r: State)
    requires a < |s.activities|
    ensures Refs(s) ==> Refs(r)
  {
    if s.activities[a].mode.Auto? then s.(intents := s.intents + [Intent(a, why, offer, true)]) else s
  }

  /** Every PENDING intent of the activity becomes DONE. */
  function CloseIntents(s: State, a: nat): (r: State)
    ensures Refs(s) ==> Refs(r)
  {
    s.(intents := seq(|s.intents|, j requires 0 <= j < |s.intents| =>
      if s.intents[j].activity == a then s.intents[j].(pending := false) else s.intents[j]))
  }

  /** How an offer is issued: its source, its batch and its deadline. */
  datatype Terms = Terms(source: Source, batch: Option<nat>, expiresAt: int)

  /** Inserts a PENDING offer for application `k` and moves the application to OFFERED. */
  function Issue(s: State, k: nat, terms: Terms): (r: State)
    requires Refs(s) && k < |s.applications|
    ensures Refs(r)
  {
    SetStatus(s.(offers := s.offers + [Offer(k, OfferStatus.Pending, terms.source, terms.batch, terms.expiresAt)]),
              k, AppStatus.Offered)
  }

  function Mirrored(status: OfferStatus): AppStatus {
    match status
    case Pending => AppStatus.Offered
    case Accepted => AppStatus.Accepted
    case Declined => AppStatus.Declined
    case Expired => AppStatus.Expired
  }

  /** Moves a PENDING offer to `to`, its OFFERED application along with it, and records the refill intent. An
      offer that is no longer PENDING is left alone. */
  function CloseOne(s: State, i: nat, to: OfferStatus, why: Reason): (r: State)
    requires Refs(s) && i < |s.offers|
    ensures Refs(r) && SameRows(s, r)
  {
    if !s.offers[i].status.Pending? then s
    else
      var k := s.offers[i].application;
      var closed := s.(offers := s.offers[i := s.offers[i].(status := to)]);
      var mirrored := if s.applications[k].status.Offered? then SetStatus(closed, k, Mirrored(to)) else closed;
      AddIntent(mirrored, ActOf(s, i), why, Some(i))
  }

  /** The same rows in every table but the intents, which only grow. */
  predicate SameRows(s: State, r: State) {
    && r.activities == s.activities && r.candidates == s.candidates && r.batches == s.batches
    && r.nextBatch == s.nextBatch && r.owed == s.owed
    && |r.offers| == |s.offers| && |r.applications| == |s.applications|
    && s.intents <= r.intents
  }

  predicate Named(s: State, ids: seq<nat>) { forall j :: 0 <= j < |ids| ==> ids[j] < |s.offers| }

  predicate Rows(s: State, rows: seq<nat>) { forall i :: 0 <= i < |rows| ==> rows[i] < |s.applications| }

  function CloseAll(s: State, ids: seq<nat>, to: OfferStatus, why: Reason): (r: State)
    requires Refs(s) && Named(s, ids)
    ensures Refs(r) && SameRows(s, r)
    decreases |ids|
  {
    if ids == [] then s else CloseAll(CloseOne(s, ids[0], to, why), ids[1..], to, why)
  }

  /** The three guarded updates of an acceptance: offer, candidate, application. */
  function Take(s: State, i: nat): (r: State)
    requires Refs(s) && i < |s.offers|
    ensures Refs(r) && |r.offers| == |s.offers|
  {
    var c := CandOf(s, i);
    SetStatus(s.(offers := s.offers[i := s.offers[i].(status := OfferStatus.Accepted)],
                 candidates := s.candidates[c := s.candidates[c].(acceptedOffer := Some(i))]),
              s.offers[i].application, AppStatus.Accepted)
  }

  // ---------- preparation: create, import, patch, rank ----------

  /** The platform's default settings; a mode setting that names no mode is None. */
  datatype Defaults = Defaults(mode: Option<Mode>, batchSize: int, expireHours: int)

  /** The activity a creation asks for, None when a check fails. A missing mode, a missing deadline and, for BATCH, a
      missing batch size come from the platform. */
  function NewActivity(quota: int, mode: Option<Mode>, batchSize: int, expireHours: int, platform: Defaults):
      Option<Activity>
  {
    var chosen := if mode.Some? then mode else platform.mode;
    if quota < 1 || chosen.None? || !(0 <= batchSize <= 1000) then None
    else
      var size := if batchSize == 0 && chosen.value.Batch? then platform.batchSize else batchSize;
      var hours := if expireHours == 0 then platform.expireHours else expireHours;
      if !((if chosen.value.Batch? then 1 else 0) <= size <= 1000) || !(1 <= hours <= 720) then None
      else Some(Activity(Active, quota, chosen.value, size, hours, false, false, None, false, false))
  }

  function CreateActivity(s: State, quota: int, mode: Option<Mode>, batchSize: int, expireHours: int,
        platform: Defaults): (r: Outcome)
    ensures Refs(s) ==> Refs(r.after)
  {
    match NewActivity(quota, mode, batchSize, expireHours, platform)
    case None => Reject(s, Validation)
    case Some(act) => Outcome(s.(activities := s.activities + [act]), Done)
  }

  function FindCandidate(s: State, n: nat, studentId: string): (r: int)
    requires n <= |s.candidates|
    ensures -1 <= r < n
    ensures r >= 0 ==> s.candidates[r].studentId == studentId
    ensures r < 0 ==> forall c :: 0 <= c < n ==> s.candidates[c].studentId != studentId
  {
    if n == 0 then -1
    else if s.candidates[n - 1].studentId == studentId then n - 1
    else FindCandidate(s, n - 1, studentId)
  }

  function FindApplication(s: State, n: nat, a: nat, c: nat): (r: int)
    requires n <= |s.applications|
    ensures -1 <= r < n
    ensures r >= 0 ==> s.applications[r].activity == a && s.applications[r].candidate == c
    ensures r < 0 ==> forall k :: 0 <= k < n ==> !(s.applications[k].activity == a && s.applications[k].candidate == c)
  {
    if n == 0 then -1
    else if s.applications[n - 1].activity == a && s.applications[n - 1].candidate == c then n - 1
    else FindApplication(s, n - 1, a, c)
  }

  /** Writes new profile or score columns; any effective change makes the ranking dirty. */
  function Revise(s: State, k: nat, profile: string, score: int): (r: State)
    requires Refs(s) && k < |s.applications|
    ensures Refs(r)
  {
    var app := s.applications[k];
    if app.profile == profile && app.score == score then s
    else
      s.(applications := s.applications[k := app.(profile := profile, score := score)],
         activities := s.activities[app.activity := s.activities[app.activity].(dirty := true)])
  }

  /** The candidate row of a student, inserted on first sight. */
  function EnsureCandidate(s: State, studentId: string): (r: State)
    ensures Refs(s) ==> Refs(r)
  {
    if FindCandidate(s, |s.candidates|, studentId) >= 0 then s
    else s.(candidates := s.candidates + [Candidate(studentId, None)])
  }

  function Enrol(s: State, a: nat, c: nat, profile: string, score: int): (r: State)
    requires a < |s.activities|
    ensures Refs(s) && c < |s.candidates| ==> Refs(r)
  {
    var order := MaxImportOrder(s.applications, |s.applications|, a) + 1;
    s.(applications := s.applications + [Application(a, c, profile, score, None, order, AppStatus.Waiting)],
       activities := s.activities[a := s.activities[a].(dirty := true)])
  }

  function ImportOne(s: State, a: nat, studentId: string, profile: string, score: int): (r: Outcome)
    requires Refs(s)
    ensures Refs(r.after)
  {
    if a >= |s.activities| then Reject(s, NotFound)
    else if Gate(s.activities[a].status).Some? then Reject(s, Gate(s.activities[a].status).value)
    else if s.activities[a].frozen then Reject(s, RankingFrozen)
    else if !ScoreOk(score) then Reject(s, Validation)
    else
      var s1 := EnsureCandidate(s, studentId);
      var c := FindCandidate(s1, |s1.candidates|, studentId);
      assert c >= 0 by { assert FindCandidate(s, |s.candidates|, studentId) < 0 ==>
          s1.candidates[|s.candidates|].studentId == studentId; }
      var k := FindApplication(s1, |s1.applications|, a, c);
      if k >= 0 then Outcome(Revise(s1, k, profile, score), Done)
      else Outcome(Enrol(s1, a, c, profile, score), Done)
  }

  /** A correction may repeat the student id, never change it. */
  function Patch(s: State, a: nat, k: nat, studentId: Option<string>, profile: Option<string>, score: Option<int>):
      (r: Outcome)
    requires Refs(s)
    ensures Refs(r.after)
  {
    if profile.None? && score.None? then Reject(s, Validation)
    else if k !in AppsOf(s, a) then Reject(s, NotFound)
    else if Gate(s.activities[a].status).Some? then Reject(s, Gate(s.activities[a].status).value)
    else if s.activities[a].frozen then Reject(s, RankingFrozen)
    else if studentId.Some? && studentId.value != s.candidates[s.applications[k].candidate].studentId then
      Reject(s, Validation)
    else if score.Some? && !ScoreOk(score.value) then Reject(s, Validation)
    else
      var app := s.applications[k];
      Outcome(Revise(s, k, if profile.Some? then profile.value else app.profile,
                           if score.Some? then score.value else app.score), Done)
  }

  /** ORDER BY score DESC, import_order ASC. */
  function MeritKeys(apps: seq<Application>): (keys: seq<Key>)
    ensures |keys| == |apps|
  {
    seq(|apps|, k requires 0 <= k < |apps| => Key(-apps[k].score, apps[k].importOrder))
  }

  /** Every application of the pool gets as rank one more than the number of pool members ahead of it on merit. */
  function Ranked(apps: seq<Application>, pool: set<nat>): seq<Application>
    requires Within(MeritKeys(apps), pool)
  {
    seq(|apps|, k requires 0 <= k < |apps| =>
      if k in pool then apps[k].(rank := Some(1 + |Smaller(MeritKeys(apps), pool, k)|)) else apps[k])
  }

  function Recalculate(s: State, a: nat): (r: Outcome)
    ensures Refs(s) ==> Refs(r.after)
  {
    if a >= |s.activities| then Reject(s, NotFound)
    else if Gate(s.activities[a].status).Some? then Reject(s, Gate(s.activities[a].status).value)
    else if s.activities[a].frozen then Reject(s, RankingFrozen)
    else
      Outcome(s.(applications := Ranked(s.applications, AppsOf(s, a)),
                 activities := s.activities[a := s.activities[a].(dirty := false)]), Done)
  }

  function IndexOf(ids: seq<nat>, x: nat): (i: nat)
    requires x in ids
    ensures i < |ids| && ids[i] == x
  {
    if ids[0] == x then 0 else 1 + IndexOf(ids[1..], x)
  }

  function SetOf(ids: seq<nat>): set<nat> { set x | x in ids }

  predicate NoRepeats(ids: seq<nat>) { forall i, j :: 0 <= i < j < |ids| ==> ids[i] != ids[j] }

  /** The listed applications share one score, all carry a rank, and no application of the activity with that
      score is missing. */
  predicate WholeTie(s: State, a: nat, ids: seq<nat>)
    requires ids != [] && SetOf(ids) <= AppsOf(s, a)
  {
    assert ids[0] in SetOf(ids);
    && (forall x :: x in ids ==>
        x in SetOf(ids) && s.applications[x].score == s.applications[ids[0]].score && s.applications[x].rank.Some?)
    && |set k | k in AppsOf(s, a) && s.applications[k].score == s.applications[ids[0]].score| == |ids|
  }

  /** The i-th listed application receives the i-th smallest of the ranks the listed ones held. */
  function TieRanked(apps: seq<Application>, ids: seq<nat>): seq<Application>
    requires NoRepeats(ids) && Within(RankKeys(apps), SetOf(ids))
  {
    TieSize(ids);
    var holders := Sorted(RankKeys(apps), SetOf(ids));
    seq(|apps|, k requires 0 <= k < |apps| =>
      if k in ids then
        assert holders[IndexOf(ids, k)] in SetOf(ids);
        apps[k].(rank := apps[holders[IndexOf(ids, k)]].rank)
      else apps[k])
  }

  lemma TieSize(ids: seq<nat>)
    requires NoRepeats(ids)
    ensures |SetOf(ids)| == |ids|
  {
    DistinctSize(ids);
  }

  function TieOrder(s: State, a: nat, ids: seq<nat>): (r: Outcome)
    ensures Refs(s) ==> Refs(r.after)
  {
    if ids == [] || !NoRepeats(ids) then Reject(s, Validation)
    else if a >= |s.activities| then Reject(s, NotFound)
    else if Gate(s.activities[a].status).Some? then Reject(s, Gate(s.activities[a].status).value)
    else if s.activities[a].frozen then Reject(s, RankingFrozen)
    else if !(SetOf(ids) <= AppsOf(s, a)) then Reject(s, NotFound)
    else if !WholeTie(s, a, ids) then Reject(s, Validation)
    else Outcome(s.(applications := TieRanked(s.applications, ids)), Done)
  }

  // ---------- ranked issuance ----------

  lemma QueueShrinks(s: State, a: nat, k: nat, r: State)
    requires k in Queue(s, a) && |r.applications| == |s.applications|
    requires forall j :: 0 <= j < |s.applications| && j != k ==> r.applications[j] == s.applications[j]
    requires !r.applications[k].status.Waiting?
    ensures Queue(r, a) == Queue(s, a) - {k}
  {
  }

  predicate HasAccepted(s: State, k: nat)
    requires Refs(s) && k < |s.applications|
  {
    s.candidates[s.applications[k].candidate].acceptedOffer.Some?
  }

  /** The issuing loop with `room` offers still to give: the next WAITING application in rank order gets an
      offer, unless its candidate has accepted elsewhere, in which case it is marked INELIGIBLE and skipped. */
  function FillLoop(s: State, a: nat, room: nat, terms: Terms): (r: State)
    requires Refs(s)
    ensures Refs(r)
    decreases Queue(s, a)
  {
    var k := NextWaiting(s, a);
    if room == 0 || k < 0 then s
    else if HasAccepted(s, k) then
      var marked := SetStatus(s, k, AppStatus.Ineligible);
      QueueShrinks(s, a, k, marked);
      FillLoop(marked, a, room, terms)
    else
      var offered := Issue(s, k, terms);
      QueueShrinks(s, a, k, offered);
      FillLoop(offered, a, room - 1, terms)
  }

  /** Free seats, capped by the limit of this pass; limit 0 means no cap. */
  function Room(s: State, a: nat, limit: nat): nat
    requires Refs(s) && a < |s.activities|
  {
    var free := s.activities[a].quota - Occupied(s, a);
    if free <= 0 then 0 else if 0 < limit < free then limit else free
  }

  function Fill(s: State, a: nat, limit: nat, terms: Terms): (r: State)
    requires Refs(s)
    ensures Refs(r)
  {
    if a >= |s.activities| || !s.activities[a].status.Active? || !s.activities[a].frozen then s
    else FillLoop(s, a, Room(s, a, limit), terms)
  }

  function AutoTerms(s: State, a: nat, now: int): Terms
    requires a < |s.activities|
  {
    Terms(FromAuto, None, Deadline(s.activities[a], now))
  }

  /** The refill every caller runs on an AUTO activity. */
  function Refill(s: State, a: nat, now: int): (r: State)
    requires Refs(s)
    ensures Refs(r)
  {
    if a >= |s.activities| || !s.activities[a].mode.Auto? then s else Fill(s, a, 0, AutoTerms(s, a, now))
  }

  function StartAdmission(s: State, a: nat, hasOwner: bool, smtpReady: bool, now: int): (r: Outcome)
    requires Refs(s)
    ensures Refs(r.after)
  {
    if a >= |s.activities| then Reject(s, NotFound)
    else
      var act := s.activities[a];
      if Gate(act.status).Some? then Reject(s, Gate(act.status).value)
      else if act.frozen && act.startedAt.Some? then Outcome(s, Issued(0))
      else if act.quota < 1 then Reject(s, Validation)
      else if act.dirty || exists k :: k in AppsOf(s, a) && s.applications[k].rank.None? then Reject(s, RankingDirty)
      else if !hasOwner then Reject(s, Conflict)
      else if act.mode.Auto? && !smtpReady then Reject(s, SmtpNotConfigured)
      else
        var started := act.(frozen := true, startedAt := if act.startedAt.None? then Some(now) else act.startedAt);
        var filled := Refill(SetActivity(s, a, started), a, now);
        Outcome(filled, Issued(if |filled.offers| >= |s.offers| then |filled.offers| - |s.offers| else 0))
  }

  function BatchLimit(act: Activity, limit: nat, platformDefault: int): int {
    if limit > 0 then limit else if act.batchSize > 0 then act.batchSize else platformDefault
  }

  function IssueBatch(s: State, a: nat, limit: nat, platformDefault: int, smtpReady: bool, now: int): (r: Outcome)
    requires Refs(s)
    ensures Refs(r.after)
  {
    if limit > 1000 then Reject(s, Validation)
    else if a >= |s.activities| then Reject(s, NotFound)
    else
      var act := s.activities[a];
      if Gate(act.status).Some? then Reject(s, Gate(act.status).value)
      else if !act.frozen then Reject(s, Conflict)
      else if !act.mode.Batch? then Reject(s, ModeLocked)
      else if BatchLimit(act, limit, platformDefault) <= 0 then Reject(s, Internal)
      else if !smtpReady then Reject(s, SmtpNotConfigured)
      else if Occupied(s, a) >= act.quota then Reject(s, QuotaExceeded)
      else
        var id := s.nextBatch;
        var no := MaxBatchNo(s.batches, |s.batches|, a) + 1;
        var filled := Fill(s.(nextBatch := id + 1), a, BatchLimit(act, limit, platformDefault),
                      Terms(FromBatch, Some(id), Deadline(act, now)));
        var issued := if |filled.offers| >= |s.offers| then |filled.offers| - |s.offers| else 0;
        if issued == 0 then Outcome(filled, Issued(0))
        else Outcome(filled.(batches := filled.batches + [BatchRow(id, a, no, issued)]), Issued(issued))
  }

  datatype PreviewReply =
    | Preview(batchSize: int, maxIssuable: nat, waiting: nat, nextNo: nat, items: seq<nat>)
    | NoPreview(error: Error)

  /** What the next batch would reach: the first `batchSize` WAITING applications in rank order. */
  function PreviewBatch(s: State, a: nat, limit: nat, platformDefault: int): PreviewReply
    requires Refs(s)
  {
    if limit > 1000 then NoPreview(Validation)
    else if a >= |s.activities| then NoPreview(NotFound)
    else
      var act := s.activities[a];
      if Gate(act.status).Some? then NoPreview(Gate(act.status).value)
      else if !act.mode.Batch? then NoPreview(ModeLocked)
      else if !act.frozen then NoPreview(Conflict)
      else
        var size := BatchLimit(act, limit, platformDefault);
        if size <= 0 then NoPreview(Internal)
        else
          var free := Room(s, a, 0);
          var rows := QueueByRank(s, a);
          Preview(size, free, |rows|, MaxBatchNo(s.batches, |s.batches|, a) + 1,
                  if free == 0 then [] else if size < |rows| then rows[..size] else rows)
  }

  // ---------- issuing by hand ----------

  function IssueManual(s: State, a: nat, k: nat, smtpReady: bool, now: int): (r: Outcome)
    requires Refs(s)
    ensures Refs(r.after)
  {
    if a >= |s.activities| then Reject(s, NotFound)
    else
      var act := s.activities[a];
      if Gate(act.status).Some? then Reject(s, Gate(act.status).value)
      else if !act.frozen then Reject(s, Conflict)
      else if !act.mode.Manual? then Reject(s, ModeLocked)
      else if k !in AppsOf(s, a) then Reject(s, NotFound)
      else if !s.applications[k].status.Waiting? then Reject(s, Conflict)
      else if HasAccepted(s, k) then Reject(s, Conflict)
      else if ActiveForCandidate(s, s.applications[k].candidate, a) != {} then Reject(s, Conflict)
      else if Occupied(s, a) >= act.quota then Reject(s, QuotaExceeded)
      else if !smtpReady then Reject(s, SmtpNotConfigured)
      else Outcome(Issue(s, k, Terms(FromManual, None, Deadline(act, now))), Issued(1))
  }

  function ActiveForCandidate(s: State, c: nat, a: nat): set<nat>
    requires Refs(s)
  {
    set i | i in Occupying(s, a) && CandOf(s, i) == c
  }

  /** The current offer of an application: its newest PENDING or ACCEPTED one, else its newest one, else -1. */
  function CurrentOffer(s: State, k: nat): (r: int)
    ensures -1 <= r < |s.offers|
    ensures r >= 0 ==> s.offers[r].application == k
  {
    var active := NewestHolding(s, |s.offers|, k);
    if active >= 0 then active else Newest(s, k)
  }

  function NewestHolding(s: State, n: nat, k: nat): (r: int)
    requires n <= |s.offers|
    ensures -1 <= r < n
    ensures r >= 0 ==> s.offers[r].application == k && Holding(s.offers[r].status)
    ensures forall j :: r < j < n ==> !(s.offers[j].application == k && Holding(s.offers[j].status))
  {
    if n == 0 then -1
    else if s.offers[n - 1].application == k && Holding(s.offers[n - 1].status) then n - 1
    else NewestHolding(s, n - 1, k)
  }

  function IssueSpecial(s: State, a: nat, k: nat, reasonGiven: bool, smtpReady: bool, now: int): (r: Outcome)
    requires Refs(s)
    ensures Refs(r.after)
  {
    if !reasonGiven then Reject(s, Validation)
    else if a >= |s.activities| then Reject(s, NotFound)
    else
      var act := s.activities[a];
      if Gate(act.status).Some? then Reject(s, Gate(act.status).value)
      else if !act.frozen then Reject(s, Conflict)
      else if k !in AppsOf(s, a) then Reject(s, NotFound)
      else if !s.applications[k].status.Declined? && !s.applications[k].status.Expired? then Reject(s, Conflict)
      else
        var previous := CurrentOffer(s, k);
        if previous < 0 then Reject(s, Conflict)
        else if Holding(s.offers[previous].status) then Reject(s, Conflict)
        else if HasAccepted(s, k) then Reject(s, Conflict)
        else if Occupied(s, a) >= act.quota then Reject(s, QuotaExceeded)
        else if !smtpReady then Reject(s, SmtpNotConfigured)
        else Outcome(Issue(s, k, Terms(Special, None, Deadline(act, now))), Issued(1))
  }

  // ---------- accept and decline ----------

  /** ORDER BY activity_id ASC, offer.id ASC. */
  function LockKeys(s: State): (keys: seq<Key>)
    requires Refs(s)
    ensures |keys| == |s.offers|
  {
    seq(|s.offers|, i requires 0 <= i < |s.offers| => Key(ActOf(s, i), i))
  }

  /** The PENDING offers of one candidate over all activities, in lock order. */
  function Links(s: State, c: nat): (links: seq<nat>)
    requires Refs(s)
    ensures Named(s, links)
  {
    var links := Sorted(LockKeys(s), PendingFor(s, c));
    assert Named(s, links) by {
      forall j | 0 <= j < |links| ensures links[j] < |s.offers| {
        assert links[j] in PendingFor(s, c);
      }
    }
    links
  }

  function AutoActivities(s: State, ids: seq<nat>): seq<nat>
    requires Refs(s) && Named(s, ids)
    decreases |ids|
  {
    if ids == [] then []
    else (if s.activities[ActOf(s, ids[0])].mode.Auto? then [ActOf(s, ids[0])] else []) + AutoActivities(s, ids[1..])
  }

  function AcceptTx(s: State, o: nat, now: int): (r: Outcome)
    requires Refs(s)
    ensures Refs(r.after)
  {
    if o >= |s.offers| then Reject(s, TokenInvalid)
    else
      var a := ActOf(s, o);
      var c := CandOf(s, o);
      if Gate(s.activities[a].status).Some? then Reject(s, Gate(s.activities[a].status).value)
      else
        match s.offers[o].status
        case Accepted => Outcome(s, AlreadyAccepted)
        case Declined => Reject(s, OfferNotActionable(OfferStatus.Declined))
        case Expired => Reject(s, Error.OfferExpired)
        case Pending =>
          if s.offers[o].expiresAt <= now then
            Outcome(CloseOne(s, o, OfferStatus.Expired, Reason.OfferExpired), Failed(Error.OfferExpired))
          else if s.candidates[c].acceptedOffer == Some(o) then Outcome(s, AlreadyAccepted)
          else if s.candidates[c].acceptedOffer.Some? then
            Outcome(CloseOne(s, o, OfferStatus.Declined, CrossActivityDecline),
                    Failed(OfferNotActionable(OfferStatus.Declined)))
          else if !AppOf(s, o).status.Offered? then Reject(s, Conflict)
          else
            var taken := Take(s, o);
            var links := Links(taken, c);
            Outcome(CloseAll(taken, links, OfferStatus.Declined, CrossActivityDecline),
                    AcceptedNow((if s.activities[a].mode.Auto? then [a] else []) + AutoActivities(taken, links)))
  }

  function DeclineTx(s: State, o: nat, now: int): (r: Outcome)
    requires Refs(s)
    ensures Refs(r.after)
  {
    if o >= |s.offers| then Reject(s, TokenInvalid)
    else
      var a := ActOf(s, o);
      if Gate(s.activities[a].status).Some? then Reject(s, Gate(s.activities[a].status).value)
      else
        match s.offers[o].status
        case Declined => Outcome(s, AlreadyDeclined)
        case Accepted => Reject(s, OfferNotActionable(OfferStatus.Accepted))
        case Expired => Reject(s, Error.OfferExpired)
        case Pending =>
          // The settlement of a late offer is rolled back together with the refusal.
          if s.offers[o].expiresAt <= now then Reject(s, Error.OfferExpired)
          else if !AppOf(s, o).status.Offered? then Reject(s, Conflict)
          else Outcome(CloseOne(s, o, OfferStatus.Declined, Reason.OfferDeclined), DeclinedNow)
  }

  /** The answer given before any transaction when the offer read is already settled, None when it is PENDING. */
  function EarlyAnswer(status: ActivityStatus, offer: OfferStatus, accepting: bool): Option<Reply> {
    if Gate(status).Some? then Some(Failed(Gate(status).value))
    else
      match offer
      case Pending => None
      case Accepted => Some(if accepting then AlreadyAccepted else Failed(OfferNotActionable(OfferStatus.Accepted)))
      case Declined => Some(if accepting then Failed(OfferNotActionable(OfferStatus.Declined)) else AlreadyDeclined)
      case Expired => Some(Failed(Error.OfferExpired))
  }

  // ---------- expiry ----------

  function DueIn(s: State, a: nat, now: int): set<nat>
    requires Refs(s)
  {
    set i | i in PendingIn(s, a) && s.offers[i].expiresAt <= now
  }

  /** Settles every due offer of one activity (re-activation and refill resume). */
  function SettleActivity(s: State, a: nat, now: int): (r: State)
    requires Refs(s)
    ensures Refs(r) && SameRows(s, r)
  {
    var due := Sorted(LockKeys(s), DueIn(s, a, now));
    assert Named(s, due) by {
      forall j | 0 <= j < |due| ensures due[j] < |s.offers| {
        assert due[j] in DueIn(s, a, now);
      }
    }
    CloseAll(s, due, OfferStatus.Expired, Reason.OfferExpired)
  }

  /** The rows of one sweep group that are still due when their transaction runs. */
  function StillDue(s: State, a: nat, ids: seq<nat>, now: int): (due: seq<nat>)
    requires Refs(s)
    ensures Named(s, due)
  {
    if ids == [] then []
    else (if ids[0] in DueIn(s, a, now) then [ids[0]] else []) + StillDue(s, a, ids[1..], now)
  }

  /** One activity of the expiry sweep: only an ACTIVE activity is settled. */
  function SettleGroup(s: State, a: nat, ids: seq<nat>, now: int): (r: State)
    requires Refs(s)
    ensures Refs(r)
  {
    if a >= |s.activities| || !s.activities[a].status.Active? then s
    else CloseAll(s, StillDue(s, a, ids, now), OfferStatus.Expired, Reason.OfferExpired)
  }

  // ---------- activity settings and lifecycle ----------

  function UpdateQuota(s: State, a: nat, quota: int): (r: Outcome)
    requires Refs(s)
    ensures Refs(r.after)
  {
    if quota < 1 then Reject(s, Validation)
    else if a >= |s.activities| then Reject(s, NotFound)
    else
      var act := s.activities[a];
      if Gate(act.status).Some? then Reject(s, Gate(act.status).value)
      else if quota < Occupied(s, a) then Reject(s, QuotaTooSmall)
      else
        var changed := SetActivity(s, a, act.(quota := quota));
        if quota > act.quota && act.mode.Auto? && act.frozen then
          if act.paused then Outcome(AddIntent(changed, a, QuotaIncrease, None), Done)
          else Outcome(changed.(owed := changed.owed + {a}), Done)
        else Outcome(changed, Done)
  }

  /** The refill owed after an unpaused quota increase; when it fails an intent is recorded instead, and when that fails
      as well nothing is. */
  function QuotaRefill(s: State, a: nat, fillWorks: bool, intentWorks: bool, now: int): (r: State)
    requires Refs(s)
    ensures Refs(r)
  {
    if a !in s.owed || a >= |s.activities| then s
    else
      var settled := s.(owed := s.owed - {a});
      if fillWorks then Refill(settled, a, now)
      else if intentWorks then AddIntent(settled, a, QuotaIncrease, None)
      else settled
  }

  /** The server process stops before it has run the refill it owes. */
  function Abandon(s: State, a: nat): (r: State)
    ensures Refs(s) ==> Refs(r)
  {
    s.(owed := s.owed - {a})
  }

  function UpdateOfferMode(s: State, a: nat, mode: Mode): (r: Outcome)
    ensures Refs(s) ==> Refs(r.after)
  {
    if a >= |s.activities| then Reject(s, NotFound)
    else if Gate(s.activities[a].status).Some? then Reject(s, Gate(s.activities[a].status).value)
    else if s.activities[a].startedAt.Some? || s.activities[a].frozen then Reject(s, ModeLocked)
    else Outcome(SetActivity(s, a, s.activities[a].(mode := mode)), Done)
  }

  function Disable(s: State, a: nat): (r: Outcome)
    ensures Refs(s) ==> Refs(r.after)
  {
    if a >= |s.activities| then Reject(s, NotFound)
    else if !s.activities[a].status.Active? then Reject(s, Conflict)
    else Outcome(SetActivity(s, a, s.activities[a].(status := Disabled, paused := true)), Done)
  }

  function Activate(s: State, a: nat, now: int): (r: Outcome)
    requires Refs(s)
    ensures Refs(r.after)
  {
    if a >= |s.activities| then Reject(s, NotFound)
    else if !s.activities[a].status.Disabled? then Reject(s, Conflict)
    else Outcome(SettleActivity(SetActivity(s, a, s.activities[a].(status := Active)), a, now), Done)
  }

  function Archive(s: State, a: nat): (r: Outcome)
    requires Refs(s)
    ensures Refs(r.after)
  {
    if a >= |s.activities| then Reject(s, NotFound)
    else if !s.activities[a].status.Active? then Reject(s, Conflict)
    else if PendingIn(s, a) != {} then Reject(s, Conflict)
    else Outcome(SetActivity(s, a, s.activities[a].(status := Archived)), Done)
  }

  function PauseRefill(s: State, a: nat): (r: Outcome)
    ensures Refs(s) ==> Refs(r.after)
  {
    if a >= |s.activities| then Reject(s, NotFound)
    else
      var act := s.activities[a];
      if !act.mode.Auto? then Reject(s, Conflict)
      else if Gate(act.status).Some? then Reject(s, Gate(act.status).value)
      else if act.startedAt.None? || !act.frozen then Reject(s, Conflict)
      else Outcome(SetActivity(s, a, act.(paused := true)), Done)
  }

  predicate Running(act: Activity) {
    act.status.Active? && act.mode.Auto? && act.startedAt.Some? && act.frozen
  }

  /** The platform stop: every running AUTO activity is paused and only the platform may resume it. */
  function PauseAllAutoRefills(s: State): (r: State)
    ensures Refs(s) ==> Refs(r)
  {
    s.(activities := seq(|s.activities|, a requires 0 <= a < |s.activities| =>
      if Running(s.activities[a]) && !s.activities[a].platformPaused
      then s.activities[a].(paused := true, platformPaused := true) else s.activities[a]))
  }

  function ResumeRefill(s: State, a: nat, now: int): (r: Outcome)
    requires Refs(s)
    ensures Refs(r.after)
  {
    if a >= |s.activities| then Reject(s, NotFound)
    else
      var act := s.activities[a];
      if !act.mode.Auto? then Reject(s, Conflict)
      else if Gate(act.status).Some? then Reject(s, Gate(act.status).value)
      else if act.platformPaused then Reject(s, Forbidden)
      else if !act.paused then Outcome(s, Issued(0))
      else
        var open := SetActivity(SettleActivity(s, a, now), a, act.(paused := false));
        var filled := Refill(open, a, now);
        Outcome(CloseIntents(filled, a),
                Issued(if |filled.offers| >= |s.offers| then |filled.offers| - |s.offers| else 0))
  }

  predicate MayRefill(act: Activity) {
    act.status.Active? && act.frozen && act.mode.Auto? && !act.paused
  }

  /** One activity of the intent executor, with its lease held. */
  function ExecuteOne(s: State, a: nat, now: int): (r: State)
    requires Refs(s)
    ensures Refs(r)
  {
    if a >= |s.activities| || !MayRefill(s.activities[a]) || !HasIntent(s, a) then s
    else CloseIntents(Refill(s, a, now), a)
  }
}
