/** Before the start of admission: creating activities, importing and revising applications, ranking them. */
module Preparing {
  import opened OrderBy
  import opened Tables
  import opened Transactions
  import opened Invariant
  import opened RowWrites

  // ---------- preparing one activity disturbs nothing else ----------

  /** The tables differ at most in the profiles, scores, ranks and dirty flag of one unfrozen activity, in new WAITING
      applications for it and in new candidates. */
  predicate Prepared(s: State, r: State, a: nat) {
    && Refs(s) && Refs(r) && a < |s.activities| && !s.activities[a].frozen
    && r.offers == s.offers && r.intents == s.intents && r.batches == s.batches && r.nextBatch == s.nextBatch
    && r.owed == s.owed
    && s.candidates <= r.candidates && (forall c :: |s.candidates| <= c < |r.candidates| ==>
        r.candidates[c].acceptedOffer.None?)
    && |r.activities| == |s.activities|
    && r.activities == s.activities[a := s.activities[a].(dirty := r.activities[a].dirty)]
    && |s.applications| <= |r.applications|
    && (forall k :: 0 <= k < |s.applications| ==> SameApplicant(s.applications[k], r.applications[k], a))
    && (forall k :: |s.applications| <= k < |r.applications| ==>
          r.applications[k].activity == a && r.applications[k].status.Waiting?)
  }

  predicate SameApplicant(x: Application, y: Application, a: nat) {
    && y.activity == x.activity && y.candidate == x.candidate && y.importOrder == x.importOrder && y.status == x.status
    && (x.activity != a ==> y == x)
  }

  lemma PreparedStatuses(s: State, r: State, a: nat)
    requires Prepared(s, r, a) && Statuses(s) && History(s) && Fair(s)
    ensures Statuses(r) && History(r) && Fair(r)
  {
    assert Owners(r.offers) == Owners(s.offers);
    forall k | 0 <= k < |r.applications| ensures StatusFits(r, k) {
      if k < |s.applications| {
        assert StatusFits(s, k);
      }
    }
    forall i | 0 <= i < |r.offers| ensures SourceFits(r, i) && r.activities[ActOf(r, i)].frozen {
      assert SourceFits(s, i) && s.activities[ActOf(s, i)].frozen;
    }
    forall j, k | 0 <= j < |r.applications| && 0 <= k < |r.applications| ensures FairPair(r, j, k) {
      if r.applications[j].activity != a && r.applications[j].activity == r.applications[k].activity {
        assert FairPair(s, j, k);
      }
    }
  }

  lemma PreparedPointers(s: State, r: State, a: nat)
    requires Prepared(s, r, a) && Pointers(s) && Clean(s) && Phases(s)
    ensures Pointers(r) && Clean(r) && Phases(r)
  {
    forall i | 0 <= i < |r.offers| && r.offers[i].status.Accepted?
      ensures r.candidates[CandOf(r, i)].acceptedOffer == Some(i)
    {
      assert CandOf(s, i) == CandOf(r, i);
    }
    forall k | 0 <= k < |r.applications| && r.applications[k].status.Ineligible? ensures HasAccepted(r, k) {
      assert HasAccepted(s, k);
    }
  }

  lemma PreparedPlaces(s: State, r: State, a: nat, b: nat)
    requires Prepared(s, r, a)
    ensures Occupied(r, b) == Occupied(s, b)
    ensures BooksOf(r, b) <==> BooksOf(s, b)
    ensures b != a ==> AppsOf(r, b) == AppsOf(s, b) && Queue(r, b) == Queue(s, b)
  {
    assert Owners(r.offers) == Owners(s.offers);
    assert Occupying(r, b) == Occupying(s, b);
    assert OffersIn(r, b) == OffersIn(s, b) && SpecialsIn(r, b) == SpecialsIn(s, b);
    PreparedEverOffered(s, r, a, b);
    assert AppsWith(r, b, AppStatus.Offered) == AppsWith(s, b, AppStatus.Offered);
    assert AppsWith(r, b, AppStatus.Accepted) == AppsWith(s, b, AppStatus.Accepted);
  }

  lemma PreparedEverOffered(s: State, r: State, a: nat, b: nat)
    requires Prepared(s, r, a)
    ensures EverOffered(r, b) == EverOffered(s, b)
  {
    forall k: nat ensures k in EverOffered(r, b) <==> k in EverOffered(s, b) {
    }
  }

  lemma PreparedBatches(s: State, r: State, a: nat)
    requires Prepared(s, r, a) && Batches(s)
    ensures Batches(r)
  {
    forall id: nat ensures Linked(r, id) == Linked(s, id) {
    }
    forall i | 0 <= i < |r.offers| ensures BatchLinked(r, i) {
      assert BatchLinked(s, i);
    }
  }

  lemma PreparedSeats(s: State, r: State, a: nat)
    requires Prepared(s, r, a) && Seats(s)
    ensures Seats(r)
  {
    forall b | 0 <= b < |r.activities| ensures SeatCovered(r, b, r.owed) {
      assert SeatCovered(s, b, s.owed);
      PreparedPlaces(s, r, a, b);
    }
  }

  lemma PreparedKeeps(s: State, r: State, a: nat)
    requires Prepared(s, r, a) && Safe(s) && Static(r)
    ensures Safe(r)
    ensures Seats(s) ==> Seats(r)
  {
    PreparedStatuses(s, r, a);
    PreparedPointers(s, r, a);
    PreparedBatches(s, r, a);
    if Seats(s) {
      PreparedSeats(s, r, a);
    }
    forall b | 0 <= b < |r.activities| ensures BooksOf(r, b) && Occupied(r, b) <= r.activities[b].quota {
      assert BooksOf(s, b);
      PreparedPlaces(s, r, a, b);
    }
  }

  // ---------- import orders ----------

  lemma {:induction false} CountGrows(apps: seq<Application>, m: nat, n: nat, a: nat)
    requires m <= n <= |apps|
    ensures CountIn(apps, m, a) <= CountIn(apps, n, a)
    ensures m < n && apps[m].activity == a ==> CountIn(apps, m, a) < CountIn(apps, n, a)
  {
    if m < n {
      CountGrows(apps, m, n - 1, a);
    }
  }

  /** Import orders follow table order. */
  lemma OrdersAscend(s: State, j: nat, k: nat)
    requires Orders(s) && j < k < |s.applications| && s.applications[j].activity == s.applications[k].activity
    ensures s.applications[j].importOrder < s.applications[k].importOrder
  {
    CountGrows(s.applications, j, k, s.applications[j].activity);
  }

  lemma {:induction false} MaxIsCount(s: State, n: nat, a: nat)
    requires Orders(s) && n <= |s.applications|
    ensures MaxImportOrder(s.applications, n, a) == CountIn(s.applications, n, a)
  {
    if n > 0 {
      MaxIsCount(s, n - 1, a);
    }
  }

  /** The count over the table is the size of the activity's set of applications. */
  lemma {:induction false} CountIsSize(apps: seq<Application>, n: nat, a: nat)
    requires n <= |apps|
    ensures CountIn(apps, n, a) == |set k: nat | k < n && apps[k].activity == a|
  {
    var all := set k: nat | k < n && apps[k].activity == a;
    if n == 0 {
      assert all == {};
    } else {
      CountIsSize(apps, n - 1, a);
      var front := set k: nat | k < n - 1 && apps[k].activity == a;
      GainsOne(front, all, n - 1, apps[n - 1].activity == a);
    }
  }

  // ---------- the static part ----------

  predicate RanksDifferIn(s: State, a: nat) {
    forall j, k :: j in AppsOf(s, a) && k in AppsOf(s, a) && j < k && s.applications[j].rank.Some? ==>
      s.applications[j].rank != s.applications[k].rank
  }

  lemma PreparedOrders(s: State, r: State, a: nat)
    requires Prepared(s, r, a) && Orders(s) && |r.applications| == |s.applications|
    ensures Orders(r)
  {
    forall j | 0 <= j < |r.applications|
      ensures r.applications[j].importOrder == CountIn(r.applications, j, r.applications[j].activity) + 1
    {
      CountInSame(s.applications, r.applications, j, s.applications[j].activity);
    }
  }

  lemma PreparedRanks(s: State, r: State, a: nat)
    requires Prepared(s, r, a) && Ranks(s)
    requires RanksDifferIn(r, a) && (!r.activities[a].dirty ==> Ranking(r, a))
    ensures Ranks(r)
  {
    forall b | 0 <= b < |r.activities| && !r.activities[b].dirty ensures Ranking(r, b) {
      if b != a {
        assert Ranking(s, b);
        assert AppsOf(r, b) == AppsOf(s, b);
      }
    }
    forall j, k | 0 <= j < k < |r.applications| && r.applications[j].activity == r.applications[k].activity
      ensures r.applications[j].rank.Some? ==> r.applications[j].rank != r.applications[k].rank
    {
      if r.applications[j].activity == a {
        assert j in AppsOf(r, a) && k in AppsOf(r, a);
      }
    }
  }

  lemma PreparedStatic(s: State, r: State, a: nat)
    requires Prepared(s, r, a) && Static(s) && |r.applications| == |s.applications| && r.candidates == s.candidates
    requires RanksDifferIn(r, a) && (!r.activities[a].dirty ==> Ranking(r, a))
    ensures Static(r)
  {
    PreparedOrders(s, r, a);
    PreparedRanks(s, r, a);
  }

  lemma SameRanksDiffer(s: State, r: State, a: nat)
    requires RanksDiffer(s) && AppsOf(r, a) == AppsOf(s, a)
    requires forall k :: k in AppsOf(s, a) ==> r.applications[k].rank == s.applications[k].rank
    ensures RanksDifferIn(r, a)
  {
  }

  // ---------- import and patch ----------

  lemma RevisePrepared(s: State, k: nat, profile: string, score: int)
    requires Refs(s) && k < |s.applications| && !s.activities[s.applications[k].activity].frozen
    ensures Prepared(s, Revise(s, k, profile, score), s.applications[k].activity)
  {
  }

  lemma ReviseStatic(s: State, k: nat, profile: string, score: int)
    requires Refs(s) && Static(s) && k < |s.applications| && !s.activities[s.applications[k].activity].frozen
    requires Revise(s, k, profile, score) != s
    ensures var r := Revise(s, k, profile, score); Prepared(s, r, s.applications[k].activity) && Static(r)
  {
    var r := Revise(s, k, profile, score);
    var a := s.applications[k].activity;
    RevisePrepared(s, k, profile, score);
    ReviseRanks(s, k, profile, score);
    PreparedStatic(s, r, a);
  }

  lemma ReviseRanks(s: State, k: nat, profile: string, score: int)
    requires Refs(s) && RanksDiffer(s) && k < |s.applications| && Revise(s, k, profile, score) != s
    ensures var r, a := Revise(s, k, profile, score), s.applications[k].activity;
      RanksDifferIn(r, a) && r.activities[a].dirty
  {
    var r, a := Revise(s, k, profile, score), s.applications[k].activity;
    assert AppsOf(r, a) == AppsOf(s, a);
    SameRanksDiffer(s, r, a);
  }

  lemma ReviseKeeps(s: State, k: nat, profile: string, score: int)
    requires Safe(s) && k < |s.applications| && !s.activities[s.applications[k].activity].frozen
    ensures Safe(Revise(s, k, profile, score))
    ensures Seats(s) ==> Seats(Revise(s, k, profile, score))
  {
    var r := Revise(s, k, profile, score);
    if r != s {
      ReviseStatic(s, k, profile, score);
      PreparedKeeps(s, r, s.applications[k].activity);
    }
  }

  lemma EnrolOrders(s: State, a: nat, c: nat, profile: string, score: int)
    requires a < |s.activities| && Orders(s)
    ensures Orders(Enrol(s, a, c, profile, score))
  {
    var r := Enrol(s, a, c, profile, score);
    MaxIsCount(s, |s.applications|, a);
    forall j | 0 <= j < |r.applications|
      ensures r.applications[j].importOrder == CountIn(r.applications, j, r.applications[j].activity) + 1
    {
      CountInSame(s.applications, r.applications, j, r.applications[j].activity);
    }
  }

  lemma EnrolRanks(s: State, a: nat, c: nat, profile: string, score: int)
    requires a < |s.activities| && Ranks(s) && c < |s.candidates| && Refs(s) && !s.activities[a].frozen
    ensures Ranks(Enrol(s, a, c, profile, score))
  {
    var r := Enrol(s, a, c, profile, score);
    assert Prepared(s, r, a);
    forall j, k | j in AppsOf(r, a) && k in AppsOf(r, a) && j < k && r.applications[j].rank.Some?
      ensures r.applications[j].rank != r.applications[k].rank
    {
      if k < |s.applications| {
        assert s.applications[j].rank != s.applications[k].rank;
      }
    }
    PreparedRanks(s, r, a);
  }

  lemma EnrolKeeps(s: State, a: nat, c: nat, profile: string, score: int)
    requires Safe(s) && a < |s.activities| && !s.activities[a].frozen && c < |s.candidates|
    requires FindApplication(s, |s.applications|, a, c) < 0
    ensures Safe(Enrol(s, a, c, profile, score))
    ensures Seats(s) ==> Seats(Enrol(s, a, c, profile, score))
  {
    EnrolStatic(s, a, c, profile, score);
    PreparedKeeps(s, Enrol(s, a, c, profile, score), a);
  }

  lemma EnrolStatic(s: State, a: nat, c: nat, profile: string, score: int)
    requires Refs(s) && Static(s) && a < |s.activities| && !s.activities[a].frozen && c < |s.candidates|
    requires FindApplication(s, |s.applications|, a, c) < 0
    ensures var r := Enrol(s, a, c, profile, score); Prepared(s, r, a) && Static(r)
  {
    EnrolOrders(s, a, c, profile, score);
    EnrolRanks(s, a, c, profile, score);
    EnrolUnique(s, a, c, profile, score);
    EnrolPrepared(s, a, c, profile, score);
  }

  lemma EnrolPrepared(s: State, a: nat, c: nat, profile: string, score: int)
    requires Refs(s) && a < |s.activities| && !s.activities[a].frozen && c < |s.candidates|
    ensures Prepared(s, Enrol(s, a, c, profile, score), a)
  {
  }

  lemma EnrolUnique(s: State, a: nat, c: nat, profile: string, score: int)
    requires Unique(s) && Settings(s) && a < |s.activities| && !s.activities[a].frozen
    requires FindApplication(s, |s.applications|, a, c) < 0
    ensures Unique(Enrol(s, a, c, profile, score)) && Settings(Enrol(s, a, c, profile, score))
  {
  }

  lemma EnsureCandidateStatic(s: State, a: nat, studentId: string)
    requires Refs(s) && Static(s) && a < |s.activities| && !s.activities[a].frozen
    ensures var r := EnsureCandidate(s, studentId); Prepared(s, r, a) && Static(r)
  {
    var r := EnsureCandidate(s, studentId);
    EnsureCandidateUnique(s, studentId);
    EnsureCandidateRanks(s, studentId);
    EnsureCandidatePrepared(s, a, studentId);
  }

  lemma EnsureCandidatePrepared(s: State, a: nat, studentId: string)
    requires Refs(s) && a < |s.activities| && !s.activities[a].frozen
    ensures Prepared(s, EnsureCandidate(s, studentId), a)
  {
  }

  lemma EnsureCandidateRanks(s: State, studentId: string)
    requires Orders(s) && Ranks(s) && Settings(s)
    ensures var r := EnsureCandidate(s, studentId); Orders(r) && Ranks(r) && Settings(r)
  {
    var r := EnsureCandidate(s, studentId);
    forall b | 0 <= b < |r.activities| && !r.activities[b].dirty ensures Ranking(r, b) {
      assert AppsOf(r, b) == AppsOf(s, b) && Ranking(s, b);
    }
  }

  lemma EnsureCandidateUnique(s: State, studentId: string)
    requires Unique(s)
    ensures Unique(EnsureCandidate(s, studentId))
  {
  }

  lemma EnsureCandidateKeeps(s: State, a: nat, studentId: string)
    requires Safe(s) && a < |s.activities| && !s.activities[a].frozen
    ensures Safe(EnsureCandidate(s, studentId))
    ensures Seats(s) ==> Seats(EnsureCandidate(s, studentId))
  {
    EnsureCandidateStatic(s, a, studentId);
    PreparedKeeps(s, EnsureCandidate(s, studentId), a);
  }

  lemma ImportKeeps(s: State, a: nat, studentId: string, profile: string, score: int)
    requires Safe(s)
    ensures Safe(ImportOne(s, a, studentId, profile, score).after)
    ensures Seats(s) ==> Seats(ImportOne(s, a, studentId, profile, score).after)
  {
    if ImportOne(s, a, studentId, profile, score).reply.Done? {
      var s1 := EnsureCandidate(s, studentId);
      EnsureCandidateKeeps(s, a, studentId);
      var c := FindCandidate(s1, |s1.candidates|, studentId);
      assert c >= 0 by {
        if FindCandidate(s, |s.candidates|, studentId) < 0 {
          assert s1.candidates[|s.candidates|].studentId == studentId;
        }
      }
      var k := FindApplication(s1, |s1.applications|, a, c);
      if k >= 0 {
        ReviseKeeps(s1, k, profile, score);
      } else {
        EnrolKeeps(s1, a, c, profile, score);
      }
    }
  }

  lemma PatchOutcome(s: State, a: nat, k: nat, studentId: Option<string>, profile: Option<string>, score: Option<int>)
    requires Refs(s)
    ensures var r := Patch(s, a, k, studentId, profile, score).after;
      r == s
      || (k < |s.applications| && !s.activities[s.applications[k].activity].frozen
          && r == Revise(s, k, if profile.Some? then profile.value else s.applications[k].profile,
                         if score.Some? then score.value else s.applications[k].score))
  {
  }

  lemma PatchKeeps(s: State, a: nat, k: nat, studentId: Option<string>, profile: Option<string>, score: Option<int>)
    requires Safe(s)
    ensures Safe(Patch(s, a, k, studentId, profile, score).after)
    ensures Seats(s) ==> Seats(Patch(s, a, k, studentId, profile, score).after)
  {
    PatchOutcome(s, a, k, studentId, profile, score);
    if Patch(s, a, k, studentId, profile, score).after != s {
      var app := s.applications[k];
      ReviseKeeps(s, k, if profile.Some? then profile.value else app.profile,
          if score.Some? then score.value else app.score);
    }
  }

  // ---------- ranking ----------

  lemma MeritKeysDiffer(s: State, a: nat)
    requires Orders(s)
    ensures Distinct(MeritKeys(s.applications), AppsOf(s, a))
  {
    forall j, k | j in AppsOf(s, a) && k in AppsOf(s, a) && j != k
      ensures MeritKeys(s.applications)[j] != MeritKeys(s.applications)[k]
    {
      OrdersAscend(s, if j < k then j else k, if j < k then k else j);
    }
  }

  /** Who is ahead has fewer rows ahead of it. */
  lemma AheadCountsLess(keys: seq<Key>, pool: set<nat>, j: nat, k: nat)
    requires Within(keys, pool) && j in pool && k in pool && Less(keys[j], keys[k])
    ensures |Smaller(keys, pool, j)| < |Smaller(keys, pool, k)| < |pool|
  {
    assert Smaller(keys, pool, j) <= Smaller(keys, pool, k) - {j};
    SubsetSize(Smaller(keys, pool, j), Smaller(keys, pool, k) - {j});
    SubsetSize(Smaller(keys, pool, k), pool - {k});
  }

  lemma {:induction false} SubsetSize(x: set<nat>, y: set<nat>)
    requires x <= y
    ensures |x| <= |y|
  {
    assert y == x + (y - x);
  }

  /** One application of the activity holds rank `n`. */
  predicate Taken(s: State, a: nat, n: int) {
    exists k :: k in AppsOf(s, a) && s.applications[k].rank.Some? && s.applications[k].rank.value == n
  }

  function Reranked(s: State, a: nat): (r: State)
    ensures AppsOf(r, a) == AppsOf(s, a)
  {
    s.(applications := Ranked(s.applications, AppsOf(s, a)))
  }

  /** After a recalculation a better rank means a higher score, or the same score imported earlier. */
  lemma RecalculateOrders(s: State, a: nat, j: nat, k: nat)
    requires Orders(s) && j in AppsOf(s, a) && k in AppsOf(s, a)
    ensures var r := Reranked(s, a);
      && r.applications[j].rank.Some? && 1 <= RankOf(r.applications[j]) <= |AppsOf(s, a)|
      && (RankOf(r.applications[j]) < RankOf(r.applications[k]) <==>
          s.applications[j].score > s.applications[k].score
          || (s.applications[j].score == s.applications[k].score
              && s.applications[j].importOrder < s.applications[k].importOrder))
      && (j != k ==> RankOf(r.applications[j]) != RankOf(r.applications[k]))
  {
    var keys, pool := MeritKeys(s.applications), AppsOf(s, a);
    MeritKeysDiffer(s, a);
    SubsetSize(Smaller(keys, pool, j), pool - {j});
    if Less(keys[j], keys[k]) {
      AheadCountsLess(keys, pool, j, k);
    } else if j != k {
      AheadCountsLess(keys, pool, k, j);
    }
  }

  /** After a recalculation every rank from 1 to N is taken. */
  lemma RecalculateFills(s: State, a: nat, n: nat)
    requires Orders(s) && 1 <= n <= |AppsOf(s, a)|
    ensures Taken(Reranked(s, a), a, n)
  {
    var keys, pool := MeritKeys(s.applications), AppsOf(s, a);
    MeritKeysDiffer(s, a);
    PositionCountsSmaller(keys, pool, n - 1);
    var k := Sorted(keys, pool)[n - 1];
    assert Reranked(s, a).applications[k].rank == Some(n);
  }

  lemma RecalculateKeeps(s: State, a: nat)
    requires Safe(s)
    ensures Safe(Recalculate(s, a).after)
    ensures Seats(s) ==> Seats(Recalculate(s, a).after)
  {
    if Recalculate(s, a).reply.Done? {
      var r := Recalculate(s, a).after;
      assert Prepared(s, r, a);
      assert AppsOf(r, a) == AppsOf(s, a);
      forall j, k | j in AppsOf(s, a) && k in AppsOf(s, a)
        ensures r.applications[j].rank.Some? && 1 <= RankOf(r.applications[j]) <= |AppsOf(s, a)|
        ensures RankOf(r.applications[j]) < RankOf(r.applications[k]) ==>
            r.applications[j].score >= r.applications[k].score
        ensures j != k ==> r.applications[j].rank != r.applications[k].rank
      {
        RecalculateOrders(s, a, j, k);
      }
      PreparedStatic(s, r, a);
      PreparedKeeps(s, r, a);
    }
  }

  // ---------- tie order ----------

  lemma {:induction false} IndexOfIs(ids: seq<nat>, i: nat)
    requires NoRepeats(ids) && i < |ids|
    ensures IndexOf(ids, ids[i]) == i
  {
  }

  /** Whose rank application `k` holds after the listed applications traded theirs. */
  function RankDonor(apps: seq<Application>, ids: seq<nat>, k: nat): (d: nat)
    requires NoRepeats(ids) && Within(RankKeys(apps), SetOf(ids)) && k < |apps|
    ensures d < |apps| && (k in ids <==> d in ids) && (k !in ids ==> d == k)
  {
    TieSize(ids);
    if k in ids then
      var holders := Sorted(RankKeys(apps), SetOf(ids));
      assert holders[IndexOf(ids, k)] in SetOf(ids);
      holders[IndexOf(ids, k)]
    else k
  }

  lemma DonorGives(apps: seq<Application>, ids: seq<nat>, k: nat)
    requires NoRepeats(ids) && Within(RankKeys(apps), SetOf(ids)) && k < |apps|
    ensures TieRanked(apps, ids)[k] == apps[k].(rank := apps[RankDonor(apps, ids, k)].rank)
  {
  }

  lemma DonorsDiffer(apps: seq<Application>, ids: seq<nat>, j: nat, k: nat)
    requires NoRepeats(ids) && Within(RankKeys(apps), SetOf(ids)) && j < |apps| && k < |apps| && j != k
    ensures RankDonor(apps, ids, j) != RankDonor(apps, ids, k)
  {
    TieSize(ids);
    SortedInOrder(RankKeys(apps), SetOf(ids));
    if j in ids && k in ids {
      assert IndexOf(ids, j) != IndexOf(ids, k);
    }
  }

  /** What an accepted tie order has established about the listed applications. */
  predicate TieReady(s: State, a: nat, ids: seq<nat>) {
    && a < |s.activities| && !s.activities[a].frozen && NoRepeats(ids)
    && Within(RankKeys(s.applications), SetOf(ids))
    && Rows(s, ids) && forall i :: 0 <= i < |ids| ==> TieMember(s.applications[ids[i]], s.applications[ids[0]], a)
  }

  predicate TieMember(app: Application, first: Application, a: nat) {
    app.activity == a && app.score == first.score && app.rank.Some?
  }

  lemma TieDone(s: State, a: nat, ids: seq<nat>)
    requires TieOrder(s, a, ids).reply.Done?
    ensures TieReady(s, a, ids) && TieOrder(s, a, ids).after == s.(applications := TieRanked(s.applications, ids))
  {
    assert ids[0] in SetOf(ids);
    forall i | 0 <= i < |ids|
      ensures ids[i] < |s.applications| && TieMember(s.applications[ids[i]], s.applications[ids[0]], a)
    {
      assert ids[i] in ids && ids[i] in SetOf(ids);
    }
  }

  lemma DonorKnown(s: State, a: nat, ids: seq<nat>, k: nat)
    requires TieReady(s, a, ids) && k < |s.applications|
    ensures var d := RankDonor(s.applications, ids, k);
      && s.applications[d].activity == s.applications[k].activity && s.applications[d].score == s.applications[k].score
      && (k in ids ==> s.applications[k].activity == a && s.applications[d].rank.Some?)
      && (k !in ids ==> d == k)
  {
    var d := RankDonor(s.applications, ids, k);
    if k in ids {
      var i :| 0 <= i < |ids| && ids[i] == k;
      var j :| 0 <= j < |ids| && ids[j] == d;
      assert TieMember(s.applications[ids[i]], s.applications[ids[0]], a);
      assert TieMember(s.applications[ids[j]], s.applications[ids[0]], a);
    }
  }

  lemma HoldersAscend(apps: seq<Application>, ids: seq<nat>, i: nat, j: nat)
    requires NoRepeats(ids) && Within(RankKeys(apps), SetOf(ids)) && i < j < |ids|
    ensures ids[i] < |apps| && ids[j] < |apps|
    ensures var d, e := RankDonor(apps, ids, ids[i]), RankDonor(apps, ids, ids[j]);
      d != e && RankOf(apps[d]) <= RankOf(apps[e])
  {
    TieSize(ids);
    SortedInOrder(RankKeys(apps), SetOf(ids));
    IndexOfIs(ids, i);
    IndexOfIs(ids, j);
    assert ids[i] in SetOf(ids) && ids[j] in SetOf(ids);
  }

  lemma TieRealised(s: State, a: nat, ids: seq<nat>, i: nat, j: nat)
    requires RanksDiffer(s) && TieReady(s, a, ids) && i < j < |ids|
    ensures ids[i] < |s.applications| && ids[j] < |s.applications|
    ensures RankOf(TieRanked(s.applications, ids)[ids[i]]) < RankOf(TieRanked(s.applications, ids)[ids[j]])
  {
    var apps := s.applications;
    HoldersAscend(apps, ids, i, j);
    DonorGives(apps, ids, ids[i]);
    DonorGives(apps, ids, ids[j]);
    DonorKnown(s, a, ids, ids[i]);
    DonorKnown(s, a, ids, ids[j]);
    var d, e := RankDonor(apps, ids, ids[i]), RankDonor(apps, ids, ids[j]);
    DifferentRanks(s, d, e);
  }

  lemma DifferentRanks(s: State, d: nat, e: nat)
    requires RanksDiffer(s) && d < |s.applications| && e < |s.applications| && d != e
    requires s.applications[d].activity == s.applications[e].activity && s.applications[d].rank.Some?
    ensures s.applications[d].rank != s.applications[e].rank
  {
    var x, y := if d < e then d else e, if d < e then e else d;
    assert s.applications[x].rank.Some? ==> s.applications[x].rank != s.applications[y].rank;
  }

  /** The i-th listed application ends up ahead of every later one: the requested order is realised. */
  lemma TieOrderRealised(s: State, a: nat, ids: seq<nat>, i: nat, j: nat)
    requires RanksDiffer(s) && TieOrder(s, a, ids).reply.Done? && i < j < |ids|
    ensures Rows(TieOrder(s, a, ids).after, ids)
    ensures var r := TieOrder(s, a, ids).after; RankOf(r.applications[ids[i]]) < RankOf(r.applications[ids[j]])
  {
    TieDone(s, a, ids);
    TieRealised(s, a, ids, i, j);
  }

  /** One of the listed applications held the rank of row `k` before, and one of them holds k's old rank now. */
  predicate Traded(was: seq<Application>, now: seq<Application>, ids: seq<nat>, k: nat)
    requires |was| == |now| && k < |was| && forall i :: 0 <= i < |ids| ==> ids[i] < |was|
  {
    && (exists i :: 0 <= i < |ids| && now[k].rank == was[ids[i]].rank && was[ids[i]].score == was[k].score)
    && (exists i :: 0 <= i < |ids| && now[ids[i]].rank == was[k].rank)
  }

  lemma TieTrades(s: State, a: nat, ids: seq<nat>, k: nat)
    requires TieReady(s, a, ids) && k in ids
    ensures k < |s.applications| && Traded(s.applications, TieRanked(s.applications, ids), ids, k)
  {
    var apps := s.applications;
    assert k in SetOf(ids);
    DonorGives(apps, ids, k);
    DonorKnown(s, a, ids, k);
    var i :| 0 <= i < |ids| && ids[i] == RankDonor(apps, ids, k);
    assert apps[ids[i]].score == apps[k].score;
    Receiver(apps, ids, k);
  }

  lemma Receiver(apps: seq<Application>, ids: seq<nat>, k: nat)
    requires NoRepeats(ids) && Within(RankKeys(apps), SetOf(ids)) && k in ids
    ensures k < |apps| && forall i :: 0 <= i < |ids| ==> ids[i] < |apps|
    ensures exists i :: 0 <= i < |ids| && TieRanked(apps, ids)[ids[i]].rank == apps[k].rank
  {
    TieSize(ids);
    forall i | 0 <= i < |ids| ensures ids[i] < |apps| {
      assert ids[i] in SetOf(ids);
    }
    assert k in SetOf(ids);
    var holders := Sorted(RankKeys(apps), SetOf(ids));
    var p :| 0 <= p < |holders| && holders[p] == k;
    IndexOfIs(ids, p);
    DonorGives(apps, ids, ids[p]);
  }

  /** A tie order changes nothing but ranks inside one score group, and the group trades exactly its own ranks. */
  lemma TieOrderPermutes(s: State, a: nat, ids: seq<nat>, k: nat)
    requires TieOrder(s, a, ids).reply.Done? && k < |s.applications|
    ensures var r := TieOrder(s, a, ids).after;
      && r == s.(applications := r.applications) && |r.applications| == |s.applications| && Rows(s, ids)
      && r.applications[k] == s.applications[k].(rank := r.applications[k].rank)
      && (if k in ids then Traded(s.applications, r.applications, ids, k) else r.applications[k] == s.applications[k])
  {
    TieDone(s, a, ids);
    DonorGives(s.applications, ids, k);
    if k in ids {
      TieTrades(s, a, ids, k);
    }
  }

  lemma TieRanksDiffer(s: State, a: nat, ids: seq<nat>, j: nat, k: nat)
    requires RanksDiffer(s) && TieReady(s, a, ids) && j in AppsOf(s, a) && k in AppsOf(s, a) && j != k
    ensures TieRanked(s.applications, ids)[j].rank.Some? ==>
      TieRanked(s.applications, ids)[j].rank != TieRanked(s.applications, ids)[k].rank
  {
    var apps := s.applications;
    DonorGives(apps, ids, j);
    DonorGives(apps, ids, k);
    DonorKnown(s, a, ids, j);
    DonorKnown(s, a, ids, k);
    DonorsDiffer(apps, ids, j, k);
    var d, e := RankDonor(apps, ids, j), RankDonor(apps, ids, k);
    if apps[d].rank.Some? {
      DifferentRanks(s, d, e);
    }
  }

  /** The donor stands in for its receiver wherever the ranking is concerned. */
  lemma TieRanking(s: State, a: nat, ids: seq<nat>)
    requires Ranking(s, a) && TieReady(s, a, ids)
    ensures Ranking(s.(applications := TieRanked(s.applications, ids)), a)
  {
    var r := s.(applications := TieRanked(s.applications, ids));
    assert AppsOf(r, a) == AppsOf(s, a);
    forall k | k in AppsOf(s, a)
      ensures StandsIn(s, r, a, k, RankDonor(s.applications, ids, k))
    {
      DonorGives(s.applications, ids, k);
      DonorKnown(s, a, ids, k);
    }
    forall k | k in AppsOf(r, a)
      ensures r.applications[k].rank.Some? && 1 <= RankOf(r.applications[k]) <= |AppsOf(r, a)|
    {
      assert StandsIn(s, r, a, k, RankDonor(s.applications, ids, k));
    }
    forall j, k | j in AppsOf(r, a) && k in AppsOf(r, a) && RankOf(r.applications[j]) < RankOf(r.applications[k])
      ensures r.applications[j].score >= r.applications[k].score
    {
      assert StandsIn(s, r, a, j, RankDonor(s.applications, ids, j));
      assert StandsIn(s, r, a, k, RankDonor(s.applications, ids, k));
    }
  }

  predicate StandsIn(s: State, r: State, a: nat, k: nat, d: nat) {
    && d in AppsOf(s, a) && k < |r.applications|
    && r.applications[k].rank == s.applications[d].rank && r.applications[k].score == s.applications[d].score
  }

  lemma TieOrderKeeps(s: State, a: nat, ids: seq<nat>)
    requires Safe(s)
    ensures Safe(TieOrder(s, a, ids).after)
    ensures Seats(s) ==> Seats(TieOrder(s, a, ids).after)
  {
    var r := TieOrder(s, a, ids).after;
    TieOutcome(s, a, ids);
    if r != s {
      TiedKeeps(s, a, ids);
    }
  }

  lemma TieOutcome(s: State, a: nat, ids: seq<nat>)
    ensures var r := TieOrder(s, a, ids).after;
      r == s || (TieReady(s, a, ids) && r == s.(applications := TieRanked(s.applications, ids)))
  {
    if TieOrder(s, a, ids).reply.Done? {
      TieDone(s, a, ids);
    }
  }

  lemma TiedKeeps(s: State, a: nat, ids: seq<nat>)
    requires Safe(s) && TieReady(s, a, ids)
    ensures var r := s.(applications := TieRanked(s.applications, ids)); Safe(r) && (Seats(s) ==> Seats(r))
  {
    TiePrepared(s, a, ids);
    TieStatic(s, a, ids);
    PreparedKeeps(s, s.(applications := TieRanked(s.applications, ids)), a);
  }

  lemma TieStatic(s: State, a: nat, ids: seq<nat>)
    requires Refs(s) && Static(s) && TieReady(s, a, ids)
    ensures Static(s.(applications := TieRanked(s.applications, ids)))
  {
    var r := s.(applications := TieRanked(s.applications, ids));
    TiePrepared(s, a, ids);
    assert AppsOf(r, a) == AppsOf(s, a);
    forall j, k | j in AppsOf(s, a) && k in AppsOf(s, a) && j < k && r.applications[j].rank.Some?
      ensures r.applications[j].rank != r.applications[k].rank
    {
      TieRanksDiffer(s, a, ids, j, k);
    }
    if !r.activities[a].dirty {
      TieRanking(s, a, ids);
    }
    PreparedStatic(s, r, a);
  }

  lemma TiePrepared(s: State, a: nat, ids: seq<nat>)
    requires Refs(s) && TieReady(s, a, ids)
    ensures Prepared(s, s.(applications := TieRanked(s.applications, ids)), a)
  {
    var r := s.(applications := TieRanked(s.applications, ids));
    forall k | 0 <= k < |s.applications|
      ensures SameApplicant(s.applications[k], r.applications[k], a)
      ensures r.applications[k].activity == s.applications[k].activity
    {
      DonorGives(s.applications, ids, k);
      DonorKnown(s, a, ids, k);
    }
  }
}
