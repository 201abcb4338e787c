/** Each row write the transactions are made of keeps the core invariant. */
module RowWrites {
  import opened OrderBy
  import opened Tables
  import opened Transactions
  import opened Invariant

  // ---------- frames ----------

  /** Applications that agree on everything but the status. */
  predicate SameButStatus(x: seq<Application>, y: seq<Application>) {
    |x| == |y| && forall k :: 0 <= k < |x| ==> y[k] == x[k].(status := y[k].status)
  }

  lemma {:induction false} CountInSame(x: seq<Application>, y: seq<Application>, n: nat, a: nat)
    requires n <= |x| && n <= |y|
    requires forall k :: 0 <= k < n ==> x[k].activity == y[k].activity
    ensures CountIn(x, n, a) == CountIn(y, n, a)
  {
    if n > 0 {
      CountInSame(x, y, n - 1, a);
    }
  }

  lemma StaticKept(s: State, r: State)
    requires Static(s)
    requires r.activities == s.activities && |r.candidates| == |s.candidates|
    requires forall c :: 0 <= c < |s.candidates| ==> r.candidates[c].studentId == s.candidates[c].studentId
    requires SameButStatus(s.applications, r.applications)
    ensures Static(r)
  {
    OrdersKept(s, r);
    RanksKept(s, r);
  }

  lemma OrdersKept(s: State, r: State)
    requires Orders(s) && SameButStatus(s.applications, r.applications)
    ensures Orders(r)
  {
    forall k | 0 <= k < |r.applications|
      ensures r.applications[k].importOrder == CountIn(r.applications, k, r.applications[k].activity) + 1
    {
      CountInSame(s.applications, r.applications, k, s.applications[k].activity);
    }
  }

  lemma RanksKept(s: State, r: State)
    requires Ranks(s) && r.activities == s.activities && SameButStatus(s.applications, r.applications)
    ensures Ranks(r)
  {
    forall a | 0 <= a < |r.activities| && !r.activities[a].dirty ensures Ranking(r, a) {
      assert AppsOf(r, a) == AppsOf(s, a);
      assert Ranking(s, a);
    }
  }

  /** The same offers belong to the same applications. */
  predicate SameOwners(s: State, r: State) {
    |r.offers| == |s.offers| && forall i :: 0 <= i < |s.offers| ==> r.offers[i].application == s.offers[i].application
  }

  lemma NewestKept(s: State, r: State)
    requires SameOwners(s, r)
    ensures Owners(r.offers) == Owners(s.offers)
    ensures forall k: nat :: Newest(r, k) == Newest(s, k)
  {
    assert Owners(r.offers) == Owners(s.offers);
  }

  lemma GainsOne(before: set<nat>, after: set<nat>, x: nat, gains: bool)
    requires gains ==> x !in before
    requires forall y :: y in after <==> y in before || (gains && y == x)
    ensures |after| == |before| + (if gains then 1 else 0)
  {
    assert after == if gains then before + {x} else before;
  }

  // ---------- issuing an offer ----------

  /** What the issuing transactions check before they issue. */
  predicate MayIssue(s: State, k: nat, terms: Terms)
    requires Refs(s)
  {
    && k < |s.applications|
    && var app := s.applications[k];
    && var act := s.activities[app.activity];
    && act.status.Active? && act.frozen
    && !HasAccepted(s, k)
    && Occupied(s, app.activity) < act.quota
    && (app.status.Waiting? || app.status.Declined? || app.status.Expired?)
    && terms.source == (if app.status.Waiting? then SourceFor(act.mode) else Special)
    && (app.status.Waiting? && Ordered(act) ==>
          forall j :: j in Queue(s, app.activity) && j != k ==> RankOf(app) < RankOf(s.applications[j]))
  }

  lemma NewestAfterIssue(s: State, k: nat, terms: Terms)
    requires Refs(s) && k < |s.applications|
    ensures Owners(Issue(s, k, terms).offers) == Owners(s.offers) + [k]
    ensures forall j: nat :: Newest(Issue(s, k, terms), j) == if j == k then |s.offers| else Newest(s, j)
  {
    var r := Issue(s, k, terms);
    assert Owners(r.offers) == Owners(s.offers) + [k];
    forall j: nat ensures Newest(r, j) == if j == k then |s.offers| else Newest(s, j) {
      assert r.offers[|s.offers|].application == k;
      var p, q := Newest(r, j), Newest(s, j);
      if j != k {
        assert q >= 0 ==> r.offers[q].application == j;
        assert p < |s.offers|;
        assert p >= 0 ==> s.offers[p].application == j;
      }
    }
  }

  lemma {:induction false} LastPrefix(owners: seq<nat>, more: seq<nat>, n: nat, k: nat)
    requires n <= |owners| <= |more| && owners == more[..|owners|]
    ensures Last(more, n, k) == Last(owners, n, k)
  {
    if n > 0 {
      LastPrefix(owners, more, n - 1, k);
    }
  }

  lemma IssueStatuses(s: State, k: nat, terms: Terms)
    requires Refs(s) && Statuses(s) && MayIssue(s, k, terms)
    ensures Statuses(Issue(s, k, terms))
  {
    var r := Issue(s, k, terms);
    NewestAfterIssue(s, k, terms);
    assert StatusFits(s, k);
    forall j | 0 <= j < |r.applications| ensures StatusFits(r, j) {
      assert StatusFits(s, j);
    }
    forall i | 0 <= i < |r.offers| && Holding(r.offers[i].status) ensures Newest(r, r.offers[i].application) == i {
      if i < |s.offers| {
        assert Newest(s, s.offers[i].application) == i;
      }
    }
  }

  lemma IssuePointers(s: State, k: nat, terms: Terms)
    requires Refs(s) && Pointers(s) && Clean(s) && MayIssue(s, k, terms)
    ensures Pointers(Issue(s, k, terms)) && Clean(Issue(s, k, terms))
  {
  }

  lemma IssuePhases(s: State, k: nat, terms: Terms)
    requires Refs(s) && Phases(s) && Fair(s) && MayIssue(s, k, terms)
    ensures Phases(Issue(s, k, terms)) && Fair(Issue(s, k, terms))
  {
    var r := Issue(s, k, terms);
    forall x, y | 0 <= x < |r.applications| && 0 <= y < |r.applications| ensures FairPair(r, x, y) {
      assert FairPair(s, x, y);
      assert s.applications[x].status.Waiting? ==> x in Queue(s, s.applications[x].activity);
    }
  }

  lemma IssueHistory(s: State, k: nat, terms: Terms)
    requires Refs(s) && Statuses(s) && History(s) && MayIssue(s, k, terms)
    ensures History(Issue(s, k, terms))
  {
    var r := Issue(s, k, terms);
    NewestAfterIssue(s, k, terms);
    assert StatusFits(s, k);
    forall i | 0 <= i < |r.offers| ensures SourceFits(r, i) && r.activities[ActOf(r, i)].frozen {
      LastPrefix(Owners(s.offers), Owners(r.offers), i, r.offers[i].application);
      if i < |s.offers| {
        assert SourceFits(s, i);
      }
    }
  }

  lemma IssueSeats(s: State, k: nat, terms: Terms, a: nat)
    requires Refs(s) && k < |s.applications|
    ensures Occupied(Issue(s, k, terms), a) == Occupied(s, a) + (if a == s.applications[k].activity then 1 else 0)
    ensures |OffersIn(Issue(s, k, terms), a)| == |OffersIn(s, a)| + (if a == s.applications[k].activity then 1 else 0)
    ensures |SpecialsIn(Issue(s, k, terms), a)| ==
            |SpecialsIn(s, a)| + (if a == s.applications[k].activity && terms.source.Special? then 1 else 0)
  {
    var r := Issue(s, k, terms);
    var own := a == s.applications[k].activity;
    assert forall i :: 0 <= i < |s.offers| ==> r.offers[i] == s.offers[i] && ActOf(r, i) == ActOf(s, i);
    GainsOne(Occupying(s, a), Occupying(r, a), |s.offers|, own);
    GainsOne(OffersIn(s, a), OffersIn(r, a), |s.offers|, own);
    GainsOne(SpecialsIn(s, a), SpecialsIn(r, a), |s.offers|, own && terms.source.Special?);
  }

  lemma IssueColumns(s: State, k: nat, terms: Terms, a: nat)
    requires Refs(s) && Statuses(s) && MayIssue(s, k, terms)
    ensures |AppsWith(Issue(s, k, terms), a, AppStatus.Offered)| ==
            |AppsWith(s, a, AppStatus.Offered)| + (if a == s.applications[k].activity then 1 else 0)
    ensures AppsWith(Issue(s, k, terms), a, AppStatus.Accepted) == AppsWith(s, a, AppStatus.Accepted)
  {
    var r := Issue(s, k, terms);
    GainsOne(AppsWith(s, a, AppStatus.Offered), AppsWith(r, a, AppStatus.Offered), k, a == s.applications[k].activity);
    assert AppsWith(r, a, AppStatus.Accepted) == AppsWith(s, a, AppStatus.Accepted);
  }

  /** An application joins those ever offered by its first offer, which is the one that is not SPECIAL. */
  lemma IssueFirst(s: State, k: nat, terms: Terms, a: nat)
    requires Refs(s) && Statuses(s) && MayIssue(s, k, terms)
    ensures |EverOffered(Issue(s, k, terms), a)| ==
            |EverOffered(s, a)| + (if a == s.applications[k].activity && !terms.source.Special? then 1 else 0)
  {
    NewestAfterIssue(s, k, terms);
    assert StatusFits(s, k);
    GainsOne(EverOffered(s, a), EverOffered(Issue(s, k, terms), a), k,
        a == s.applications[k].activity && !terms.source.Special?);
  }

  lemma IssueCounts(s: State, k: nat, terms: Terms)
    requires Refs(s) && Statuses(s) && Books(s) && Quotas(s) && MayIssue(s, k, terms)
    ensures Books(Issue(s, k, terms)) && Quotas(Issue(s, k, terms))
  {
    var r := Issue(s, k, terms);
    forall a | 0 <= a < |r.activities| ensures BooksOf(r, a) && Occupied(r, a) <= r.activities[a].quota {
      assert BooksOf(s, a);
      IssueSeats(s, k, terms, a);
      IssueColumns(s, k, terms, a);
      IssueFirst(s, k, terms, a);
    }
  }

  lemma IssueKeeps(s: State, k: nat, terms: Terms)
    requires Core(s) && Clean(s) && MayIssue(s, k, terms)
    ensures Core(Issue(s, k, terms)) && Clean(Issue(s, k, terms))
    ensures Occupied(Issue(s, k, terms), s.applications[k].activity) == Occupied(s, s.applications[k].activity) + 1
  {
    StaticKept(s, Issue(s, k, terms));
    IssueStatuses(s, k, terms);
    IssuePointers(s, k, terms);
    IssuePhases(s, k, terms);
    IssueHistory(s, k, terms);
    IssueCounts(s, k, terms);
    IssueSeats(s, k, terms, s.applications[k].activity);
  }

  // ---------- marking an application ineligible ----------

  predicate MayMark(s: State, k: nat)
    requires Refs(s)
  {
    && k < |s.applications|
    && var app := s.applications[k];
    && app.status.Waiting? && HasAccepted(s, k) && s.activities[app.activity].frozen
    && forall j :: j in Queue(s, app.activity) && j != k ==> RankOf(app) < RankOf(s.applications[j])
  }

  lemma MarkKeeps(s: State, k: nat)
    requires Core(s) && Clean(s) && MayMark(s, k)
    ensures Core(SetStatus(s, k, AppStatus.Ineligible)) && Clean(SetStatus(s, k, AppStatus.Ineligible))
    ensures forall a: nat :: Occupied(SetStatus(s, k, AppStatus.Ineligible), a) == Occupied(s, a)
  {
    var r := SetStatus(s, k, AppStatus.Ineligible);
    StaticKept(s, r);
    NewestKept(s, r);
    MarkStatuses(s, k);
    MarkFair(s, k);
    MarkCounts(s, k);
    MarkHistory(s, k);
  }

  lemma MarkHistory(s: State, k: nat)
    requires Refs(s) && History(s) && k < |s.applications|
    ensures History(SetStatus(s, k, AppStatus.Ineligible))
  {
    var r := SetStatus(s, k, AppStatus.Ineligible);
    NewestKept(s, r);
    forall i | 0 <= i < |r.offers| ensures SourceFits(r, i) && r.activities[ActOf(r, i)].frozen {
      assert SourceFits(s, i);
    }
  }

  lemma MarkStatuses(s: State, k: nat)
    requires Refs(s) && Statuses(s) && Pointers(s) && Clean(s) && Phases(s) && MayMark(s, k)
    ensures var r := SetStatus(s, k, AppStatus.Ineligible);
      Statuses(r) && Pointers(r) && Clean(r) && Phases(r)
  {
    var r := SetStatus(s, k, AppStatus.Ineligible);
    NewestKept(s, r);
    forall j | 0 <= j < |r.applications| ensures StatusFits(r, j) {
      assert StatusFits(s, j);
    }
  }

  lemma MarkFair(s: State, k: nat)
    requires Refs(s) && Fair(s) && MayMark(s, k)
    ensures Fair(SetStatus(s, k, AppStatus.Ineligible))
  {
    var r := SetStatus(s, k, AppStatus.Ineligible);
    forall x, y | 0 <= x < |r.applications| && 0 <= y < |r.applications| ensures FairPair(r, x, y) {
      assert FairPair(s, x, y);
      assert s.applications[x].status.Waiting? ==> x in Queue(s, s.applications[x].activity);
    }
  }

  lemma MarkBooks(s: State, k: nat, a: nat)
    requires Refs(s) && MayMark(s, k)
    ensures var r := SetStatus(s, k, AppStatus.Ineligible);
      Occupied(r, a) == Occupied(s, a) && (BooksOf(s, a) ==> BooksOf(r, a))
  {
    var r := SetStatus(s, k, AppStatus.Ineligible);
    NewestKept(s, r);
    assert forall i :: 0 <= i < |s.offers| ==> ActOf(r, i) == ActOf(s, i);
    assert Occupying(r, a) == Occupying(s, a);
    assert OffersIn(r, a) == OffersIn(s, a) && SpecialsIn(r, a) == SpecialsIn(s, a);
    assert EverOffered(r, a) == EverOffered(s, a);
    assert AppsWith(r, a, AppStatus.Offered) == AppsWith(s, a, AppStatus.Offered);
    assert AppsWith(r, a, AppStatus.Accepted) == AppsWith(s, a, AppStatus.Accepted);
  }

  lemma MarkCounts(s: State, k: nat)
    requires Refs(s) && Books(s) && Quotas(s) && MayMark(s, k)
    ensures var r := SetStatus(s, k, AppStatus.Ineligible);
      Books(r) && Quotas(r) && forall a: nat :: Occupied(r, a) == Occupied(s, a)
  {
    var r := SetStatus(s, k, AppStatus.Ineligible);
    forall a: nat ensures Occupied(r, a) == Occupied(s, a) && (BooksOf(s, a) ==> BooksOf(r, a)) {
      MarkBooks(s, k, a);
    }
  }

  // ---------- closing a pending offer ----------

  predicate Closed(status: OfferStatus) { status.Declined? || status.Expired? }

  /** Closing is the offer and application write followed by at most one new intent. */
  function Shut(s: State, i: nat, to: OfferStatus): (r: State)
    requires Refs(s) && i < |s.offers|
    ensures Refs(r)
  {
    SetStatus(s.(offers := s.offers[i := s.offers[i].(status := to)]), s.offers[i].application, Mirrored(to))
  }

  lemma CloseIsShut(s: State, i: nat, to: OfferStatus, why: Reason)
    requires Refs(s) && Statuses(s) && i < |s.offers| && s.offers[i].status.Pending?
    ensures s.applications[s.offers[i].application].status.Offered?
    ensures CloseOne(s, i, to, why) == AddIntent(Shut(s, i, to), ActOf(s, i), why, Some(i))
  {
    assert StatusFits(s, s.offers[i].application);
  }

  lemma ShutStatuses(s: State, i: nat, to: OfferStatus)
    requires Refs(s) && Statuses(s) && i < |s.offers| && s.offers[i].status.Pending? && !to.Pending?
    ensures Statuses(Shut(s, i, to))
  {
    var r := Shut(s, i, to);
    var k := s.offers[i].application;
    NewestKept(s, r);
    assert Newest(s, k) == i;
    forall j | 0 <= j < |r.applications| ensures StatusFits(r, j) {
      assert StatusFits(s, j);
    }
    forall x | 0 <= x < |r.offers| && Holding(r.offers[x].status) ensures Newest(r, r.offers[x].application) == x {
      assert Newest(s, s.offers[x].application) == x;
    }
  }

  lemma ShutPointers(s: State, i: nat, to: OfferStatus, but: int)
    requires Refs(s) && Pointers(s) && Statuses(s) && CleanBut(s, but)
    requires i < |s.offers| && s.offers[i].status.Pending? && Closed(to)
    ensures var r := Shut(s, i, to); Pointers(r) && CleanBut(r, but)
  {
    assert StatusFits(s, s.offers[i].application);
    ShutAccepted(s, i, to);
  }

  lemma ShutAccepted(s: State, i: nat, to: OfferStatus)
    requires Refs(s) && i < |s.offers| && s.offers[i].status.Pending? && Closed(to)
    ensures var r := Shut(s, i, to);
      forall x :: 0 <= x < |s.offers| ==>
          CandOf(r, x) == CandOf(s, x) && (r.offers[x].status.Accepted? <==> s.offers[x].status.Accepted?)
  {
  }

  lemma ShutPhases(s: State, i: nat, to: OfferStatus)
    requires Refs(s) && Phases(s) && Statuses(s)
    requires i < |s.offers| && s.offers[i].status.Pending? && !to.Pending?
    ensures Phases(Shut(s, i, to))
  {
    assert StatusFits(s, s.offers[i].application);
  }

  lemma ShutFair(s: State, i: nat, to: OfferStatus)
    requires Refs(s) && Fair(s) && History(s) && Statuses(s) && i < |s.offers| && s.offers[i].status.Pending?
    requires !to.Pending?
    ensures var r := Shut(s, i, to); Fair(r) && History(r)
  {
    var r := Shut(s, i, to);
    NewestKept(s, r);
    assert StatusFits(s, s.offers[i].application);
    forall x, y | 0 <= x < |r.applications| && 0 <= y < |r.applications| ensures FairPair(r, x, y) {
      assert FairPair(s, x, y);
    }
    forall x | 0 <= x < |r.offers| ensures SourceFits(r, x) && r.activities[ActOf(r, x)].frozen {
      assert SourceFits(s, x);
    }
  }

  lemma ShutSeats(s: State, i: nat, to: OfferStatus, a: nat)
    requires Refs(s) && Statuses(s) && i < |s.offers| && s.offers[i].status.Pending? && !to.Pending?
    ensures var r := Shut(s, i, to);
      var lost := if a == ActOf(s, i) && Closed(to) then 1 else 0;
      && Occupied(r, a) == Occupied(s, a) - lost
      && |AppsWith(r, a, AppStatus.Offered)| + |AppsWith(r, a, AppStatus.Accepted)|
         == |AppsWith(s, a, AppStatus.Offered)| + |AppsWith(s, a, AppStatus.Accepted)| - lost
  {
    var r := Shut(s, i, to);
    var k := s.offers[i].application;
    var own := a == ActOf(s, i);
    assert StatusFits(s, k);
    assert forall x :: 0 <= x < |s.offers| ==> ActOf(r, x) == ActOf(s, x);
    GainsOne(Occupying(r, a), Occupying(s, a), i, own && Closed(to));
    GainsOne(AppsWith(r, a, AppStatus.Offered), AppsWith(s, a, AppStatus.Offered), k, own);
    GainsOne(AppsWith(s, a, AppStatus.Accepted), AppsWith(r, a, AppStatus.Accepted), k, own && to.Accepted?);
  }

  /** Closing an offer changes nothing about what was ever issued. */
  lemma ShutIssued(s: State, i: nat, to: OfferStatus, a: nat)
    requires Refs(s) && i < |s.offers|
    ensures var r := Shut(s, i, to);
      OffersIn(r, a) == OffersIn(s, a) && SpecialsIn(r, a) == SpecialsIn(s, a) && EverOffered(r, a) == EverOffered(s, a)
  {
    var r := Shut(s, i, to);
    NewestKept(s, r);
    assert forall x :: 0 <= x < |s.offers| ==> ActOf(r, x) == ActOf(s, x);
  }

  lemma ShutBooks(s: State, i: nat, to: OfferStatus, a: nat)
    requires Refs(s) && Statuses(s) && BooksOf(s, a) && i < |s.offers| && s.offers[i].status.Pending? && !to.Pending?
    ensures BooksOf(Shut(s, i, to), a) && Occupied(Shut(s, i, to), a) <= Occupied(s, a)
  {
    ShutSeats(s, i, to, a);
    ShutIssued(s, i, to, a);
  }

  lemma ShutCounts(s: State, i: nat, to: OfferStatus)
    requires Refs(s) && Statuses(s) && Books(s) && Quotas(s)
    requires i < |s.offers| && s.offers[i].status.Pending? && !to.Pending?
    ensures var r := Shut(s, i, to); Books(r) && Quotas(r)
  {
    var r := Shut(s, i, to);
    forall a | 0 <= a < |r.activities| ensures BooksOf(r, a) && Occupied(r, a) <= r.activities[a].quota {
      assert BooksOf(s, a);
      ShutBooks(s, i, to, a);
    }
  }

  lemma SamePlaces(s: State, r: State, a: nat)
    requires Refs(s) && Refs(r) && r.offers == s.offers && r.applications == s.applications
    ensures Occupied(r, a) == Occupied(s, a) && PendingIn(r, a) == PendingIn(s, a)
    ensures BooksOf(r, a) <==> BooksOf(s, a)
  {
    NewestKept(s, r);
    assert Occupying(r, a) == Occupying(s, a);
    assert OffersIn(r, a) == OffersIn(s, a) && SpecialsIn(r, a) == SpecialsIn(s, a);
    assert EverOffered(r, a) == EverOffered(s, a);
    assert AppsWith(r, a, AppStatus.Offered) == AppsWith(s, a, AppStatus.Offered);
    assert AppsWith(r, a, AppStatus.Accepted) == AppsWith(s, a, AppStatus.Accepted);
  }

  /** The statuses, the order and the counts read only activities, applications and offers. */
  lemma SameRowsKeep(s: State, r: State)
    requires Refs(s) && Statuses(s) && Fair(s) && History(s) && Books(s) && Quotas(s)
    requires |r.candidates| == |s.candidates|
    requires r.activities == s.activities && r.applications == s.applications && r.offers == s.offers
    ensures Statuses(r) && Fair(r) && History(r) && Books(r) && Quotas(r)
    ensures forall a: nat :: Occupied(r, a) == Occupied(s, a)
  {
    NewestKept(s, r);
    forall k | 0 <= k < |r.applications| ensures StatusFits(r, k) {
      assert StatusFits(s, k);
    }
    forall x, y | 0 <= x < |r.applications| && 0 <= y < |r.applications| ensures FairPair(r, x, y) {
      assert FairPair(s, x, y);
    }
    forall x | 0 <= x < |r.offers| ensures SourceFits(r, x) && r.activities[ActOf(r, x)].frozen {
      assert SourceFits(s, x) && s.activities[ActOf(s, x)].frozen;
    }
    forall a: nat ensures Occupied(r, a) == Occupied(s, a) && (BooksOf(r, a) <==> BooksOf(s, a)) {
      SamePlaces(s, r, a);
    }
  }

  /** The tables an intent or an owed refill does not touch. */
  predicate SameTables(s: State, r: State) {
    r.activities == s.activities && r.candidates == s.candidates && r.applications == s.applications
    && r.offers == s.offers
  }

  lemma SameTablesPointers(s: State, r: State)
    requires Refs(s) && Pointers(s) && Phases(s) && SameTables(s, r)
    ensures Pointers(r) && Phases(r) && forall c :: CleanBut(s, c) ==> CleanBut(r, c)
  {
  }

  lemma SameTablesKeep(s: State, r: State)
    requires Core(s) && SameTables(s, r)
    ensures Core(r)
    ensures forall c :: CleanBut(s, c) ==> CleanBut(r, c)
    ensures forall a: nat :: Occupied(r, a) == Occupied(s, a)
  {
    StaticKept(s, r);
    SameRowsKeep(s, r);
    SameTablesPointers(s, r);
  }

  lemma CloseKeeps(s: State, i: nat, to: OfferStatus, why: Reason, but: int)
    requires Core(s) && CleanBut(s, but) && i < |s.offers| && Closed(to)
    ensures Core(CloseOne(s, i, to, why)) && CleanBut(CloseOne(s, i, to, why), but)
  {
    if s.offers[i].status.Pending? {
      CloseIsShut(s, i, to, why);
      var r := Shut(s, i, to);
      StaticKept(s, r);
      ShutStatuses(s, i, to);
      ShutPointers(s, i, to, but);
      ShutPhases(s, i, to);
      ShutFair(s, i, to);
      ShutCounts(s, i, to);
      SameTablesKeep(r, CloseOne(s, i, to, why));
    }
  }

  lemma {:induction false} CloseAllKeeps(s: State, ids: seq<nat>, to: OfferStatus, why: Reason, but: int)
    requires Core(s) && CleanBut(s, but) && Named(s, ids) && Closed(to)
    ensures Core(CloseAll(s, ids, to, why)) && CleanBut(CloseAll(s, ids, to, why), but)
    decreases |ids|
  {
    if ids != [] {
      CloseKeeps(s, ids[0], to, why, but);
      CloseAllKeeps(CloseOne(s, ids[0], to, why), ids[1..], to, why, but);
    }
  }

  /** Closing a list of offers touches exactly the PENDING ones on it. */
  lemma {:induction false} CloseAllExact(s: State, ids: seq<nat>, to: OfferStatus, why: Reason)
    requires Refs(s) && Named(s, ids) && !to.Pending?
    ensures var r := CloseAll(s, ids, to, why);
      forall i :: 0 <= i < |s.offers| ==>
        r.offers[i] == if i in ids && s.offers[i].status.Pending? then s.offers[i].(status := to) else s.offers[i]
    decreases |ids|
  {
    if ids != [] {
      var first := CloseOne(s, ids[0], to, why);
      CloseAllExact(first, ids[1..], to, why);
      forall i | 0 <= i < |s.offers|
        ensures i in ids <==> i == ids[0] || i in ids[1..]
        ensures first.offers[i] ==
          if i == ids[0] && s.offers[i].status.Pending? then s.offers[i].(status := to) else s.offers[i]
      {
      }
    }
  }

  // ---------- taking an offer ----------

  lemma TakeKeeps(s: State, i: nat)
    requires Core(s) && Clean(s) && i < |s.offers| && s.offers[i].status.Pending?
    requires s.candidates[CandOf(s, i)].acceptedOffer.None?
    ensures Core(Take(s, i)) && CleanBut(Take(s, i), CandOf(s, i))
  {
    var r := Take(s, i);
    var shut := Shut(s, i, OfferStatus.Accepted);
    assert r == shut.(candidates := r.candidates);
    StaticKept(s, r);
    ShutStatuses(s, i, OfferStatus.Accepted);
    ShutFair(s, i, OfferStatus.Accepted);
    ShutCounts(s, i, OfferStatus.Accepted);
    NewestKept(shut, r);
    TakePointers(s, i);
    TakePhases(s, i);
    SameRowsKeep(shut, r);
  }

  lemma TakePointers(s: State, i: nat)
    requires Refs(s) && Statuses(s) && Pointers(s) && Clean(s)
    requires i < |s.offers| && s.offers[i].status.Pending? && s.candidates[CandOf(s, i)].acceptedOffer.None?
    ensures var r := Take(s, i); Pointers(r) && CleanBut(r, CandOf(s, i))
  {
    assert StatusFits(s, s.offers[i].application);
    TakeAccepted(s, i);
  }

  lemma TakeAccepted(s: State, i: nat)
    requires Refs(s) && Pointers(s) && i < |s.offers| && s.candidates[CandOf(s, i)].acceptedOffer.None?
    ensures var r := Take(s, i);
      && (forall x :: 0 <= x < |r.offers| ==> CandOf(r, x) == CandOf(s, x))
      && (forall x :: 0 <= x < |r.offers| && r.offers[x].status.Accepted? ==>
          r.candidates[CandOf(r, x)].acceptedOffer == Some(x))
  {
  }

  lemma TakePhases(s: State, i: nat)
    requires Refs(s) && Statuses(s) && Phases(s) && i < |s.offers| && s.offers[i].status.Pending?
    ensures Phases(Take(s, i))
  {
    assert StatusFits(s, s.offers[i].application);
  }

  // ---------- activity settings ----------

  /** How a transaction may change the settings of one activity. */
  predicate MayChange(s: State, a: nat, act: Activity)
    requires Refs(s) && a < |s.activities|
  {
    var was := s.activities[a];
    && SettingsOk(act) && Occupied(s, a) <= act.quota && act.dirty == was.dirty
    && (was.frozen ==> act.frozen && act.mode == was.mode)
    && (act.status.Archived? && !was.status.Archived? ==> PendingIn(s, a) == {})
  }

  lemma SettingsKeep(s: State, r: State)
    requires Core(s) && Clean(s) && |r.activities| == |s.activities| && r == s.(activities := r.activities)
    requires forall a :: 0 <= a < |s.activities| ==> MayChange(s, a, r.activities[a])
    ensures Core(r) && Clean(r)
    ensures forall a: nat :: Occupied(r, a) == Occupied(s, a) && Queue(r, a) == Queue(s, a)
  {
    forall a: nat ensures Occupied(r, a) == Occupied(s, a) && (BooksOf(r, a) <==> BooksOf(s, a)) {
      SamePlaces(s, r, a);
    }
    SettingsStatuses(s, r);
    SettingsPhases(s, r);
    SettingsFair(s, r);
    SettingsRanks(s, r);
  }

  lemma SettingsRanks(s: State, r: State)
    requires Core(s) && |r.activities| == |s.activities| && r == s.(activities := r.activities)
    requires forall a :: 0 <= a < |s.activities| ==> MayChange(s, a, r.activities[a])
    ensures Static(r)
  {
    forall a | 0 <= a < |r.activities| && !r.activities[a].dirty ensures Ranking(r, a) {
      assert AppsOf(r, a) == AppsOf(s, a);
      assert MayChange(s, a, r.activities[a]) && Ranking(s, a);
    }
  }

  lemma SettingsStatuses(s: State, r: State)
    requires Refs(s) && Statuses(s) && Pointers(s) && Clean(s) && |r.activities| == |s.activities|
    requires r == s.(activities := r.activities)
    requires forall a :: 0 <= a < |s.activities| ==> MayChange(s, a, r.activities[a])
    ensures Statuses(r) && Pointers(r) && Clean(r)
  {
    NewestKept(s, r);
    forall k | 0 <= k < |r.applications| ensures StatusFits(r, k) {
      assert StatusFits(s, k);
    }
  }

  lemma SettingsPhases(s: State, r: State)
    requires Refs(s) && Phases(s) && |r.activities| == |s.activities| && r == s.(activities := r.activities)
    requires forall a :: 0 <= a < |s.activities| ==> MayChange(s, a, r.activities[a])
    ensures Phases(r)
  {
    forall i | 0 <= i < |r.offers| && r.offers[i].status.Pending? ensures !r.activities[ActOf(r, i)].status.Archived? {
      assert i in PendingIn(s, ActOf(s, i));
      assert MayChange(s, ActOf(s, i), r.activities[ActOf(s, i)]);
    }
    forall k | 0 <= k < |r.applications| && !r.activities[r.applications[k].activity].frozen
      ensures r.applications[k].status.Waiting?
    {
      assert MayChange(s, s.applications[k].activity, r.activities[s.applications[k].activity]);
    }
  }

  lemma SettingsFair(s: State, r: State)
    requires Core(s) && |r.activities| == |s.activities| && r == s.(activities := r.activities)
    requires forall a :: 0 <= a < |s.activities| ==> MayChange(s, a, r.activities[a])
    ensures Fair(r) && History(r)
  {
    forall x, y | 0 <= x < |r.applications| && 0 <= y < |r.applications| ensures FairPair(r, x, y) {
      assert FairPair(s, x, y);
      assert MayChange(s, s.applications[x].activity, r.activities[s.applications[x].activity]);
    }
    forall i | 0 <= i < |r.offers| ensures SourceFits(r, i) && r.activities[ActOf(r, i)].frozen {
      assert SourceFits(s, i) && s.activities[ActOf(s, i)].frozen;
      assert MayChange(s, ActOf(s, i), r.activities[ActOf(s, i)]);
    }
  }
}
