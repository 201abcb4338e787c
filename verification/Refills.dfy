/** Whom the refills after a commit and the intent executor serve, and whom they leave alone. */
module Refills {
  import opened OrderBy
  import opened Tables
  import opened Transactions
  import opened Invariant
  import opened RowWrites
  import opened Filling
  import opened Safety
  import opened Admission
  import opened Guarantees
  import opened Jobs
  import opened Stores
  import opened Serving

  /** What a post-commit refill and the executor ask of an activity. */
  predicate Refilling(s: State, a: nat) {
    && a < |s.activities| && s.activities[a].status.Active? && s.activities[a].frozen
    && s.activities[a].mode.Auto? && !s.activities[a].paused
  }

  /** The offers and applications of the activity are the same, and it gets no new offer. */
  predicate Untouched(s: State, r: State, a: nat) {
    && Refs(s) && Refs(r) && |s.offers| <= |r.offers| && |r.applications| == |s.applications|
    && (forall k :: 0 <= k < |s.applications| && s.applications[k].activity == a ==>
          r.applications[k] == s.applications[k])
    && (forall i :: 0 <= i < |s.offers| && ActOf(s, i) == a ==> r.offers[i] == s.offers[i])
    && (forall i :: |s.offers| <= i < |r.offers| ==> ActOf(r, i) != a)
  }

  /** A refill changes applications and appends offers, and nothing else. */
  predicate OnlyIssues(s: State, r: State) {
    && Grown(s, r) && s.offers <= r.offers && r == s.(applications := r.applications, offers := r.offers)
    && forall k :: 0 <= k < |s.applications| && !s.applications[k].status.Waiting? ==>
         r.applications[k] == s.applications[k]
  }

  lemma UntouchedOn(s: State, m: State, r: State, a: nat)
    requires Untouched(s, m, a) && Untouched(m, r, a) && Grown(s, m) && Grown(m, r)
    ensures Untouched(s, r, a)
  {
    forall i | 0 <= i < |s.offers| && ActOf(s, i) == a ensures r.offers[i] == s.offers[i] {
      assert ActOf(m, i) == ActOf(s, i);
    }
    forall i | |s.offers| <= i < |r.offers| ensures ActOf(r, i) != a {
      if i < |m.offers| {
        assert ActOf(r, i) == ActOf(m, i);
      }
    }
  }

  lemma SameSatisfied(s: State, r: State, a: nat)
    requires Refs(s) && Untouched(s, r, a) && Grown(s, r) && r.activities == s.activities
    ensures Occupied(r, a) == Occupied(s, a) && Queue(r, a) == Queue(s, a)
    ensures Satisfied(s, a) ==> Satisfied(r, a)
  {
    forall i | 0 <= i < |s.offers| ensures ActOf(r, i) == ActOf(s, i) {
      assert r.offers[i].application == s.offers[i].application;
    }
    assert Occupying(r, a) == Occupying(s, a);
    assert Queue(r, a) == Queue(s, a);
  }

  // ---------- one refill ----------

  lemma RefillOnly(s: State, a: nat, now: int)
    requires Safe(s)
    ensures var r := Refill(s, a, now); OnlyIssues(s, r) && forall b: nat :: b != a ==> Untouched(s, r, b)
  {
    var r := Refill(s, a, now);
    RefillFrame(s, a, now);
    if r != s {
      RefillRows(s, r, a);
    }
  }

  /** Only the waiting applications of the activity change, and only it gets offers. */
  lemma RefillFrame(s: State, a: nat, now: int)
    requires Safe(s)
    ensures var r := Refill(s, a, now);
      && Grown(s, r) && s.offers <= r.offers && r == s.(applications := r.applications, offers := r.offers)
      && (forall k :: 0 <= k < |s.applications| && k !in Queue(s, a) ==> r.applications[k] == s.applications[k])
      && (forall i :: |s.offers| <= i < |r.offers| ==> ActOf(r, i) == a)
  {
    if a < |s.activities| && s.activities[a].mode.Auto? {
      FillGrown(s, a, 0, AutoTerms(s, a, now));
      FillRows(s, a, AutoTerms(s, a, now));
    }
  }

  lemma FillRows(s: State, a: nat, terms: Terms)
    requires Core(s)
    ensures var r := Fill(s, a, 0, terms);
      && s.offers <= r.offers && |r.applications| == |s.applications|
      && forall k :: 0 <= k < |s.applications| && k !in Queue(s, a) ==> r.applications[k] == s.applications[k]
  {
    FillIsExact(s, a, 0, terms);
  }

  lemma RefillRows(s: State, r: State, a: nat)
    requires Grown(s, r) && s.offers <= r.offers && r == s.(applications := r.applications, offers := r.offers)
    requires forall k :: 0 <= k < |s.applications| && k !in Queue(s, a) ==> r.applications[k] == s.applications[k]
    requires forall i :: |s.offers| <= i < |r.offers| ==> ActOf(r, i) == a
    ensures OnlyIssues(s, r) && forall b: nat :: b != a ==> Untouched(s, r, b)
  {
    forall k | 0 <= k < |s.applications| && !s.applications[k].status.Waiting?
      ensures r.applications[k] == s.applications[k]
    {
      assert k !in Queue(s, a);
    }
    forall b: nat | b != a ensures Untouched(s, r, b) {
      forall k | 0 <= k < |s.applications| && s.applications[k].activity == b
        ensures r.applications[k] == s.applications[k]
      {
        assert k !in Queue(s, a);
      }
    }
  }

  lemma RefillSatisfies(s: State, a: nat, now: int)
    requires Safe(s) && Refilling(s, a)
    ensures Satisfied(Refill(s, a, now), a)
  {
    RefillSafe(s, a, now);
    RefillRises(s, a, now);
    RefillServes(s, a, now);
    SeatsWithinQuota(Refill(s, a, now), a);
  }

  // ---------- the refills after a commit ----------

  /** The activity is on the list, and a post-commit refill may serve it. */
  predicate IsServed(s: State, ids: seq<nat>, seen: set<nat>, a: nat) { a in ids && a !in seen && Refilling(s, a) }

  predicate RefilledAll(s: State, r: State, ids: seq<nat>, seen: set<nat>, a: nat) {
    Safe(r) && Adds(s, r) && if IsServed(s, ids, seen, a) then Satisfied(r, a) else Untouched(s, r, a)
  }

  /** Every listed activity that is ACTIVE, started, AUTO and not paused is full afterwards or has nobody waiting; every
      other activity keeps the offers and applications it has. */
  lemma {:induction false} RefillEachIsExact(s: State, ids: seq<nat>, seen: set<nat>, now: int, a: nat)
    requires Safe(s)
    ensures RefilledAll(s, RefillEach(s, ids, seen, now), ids, seen, a)
    decreases |ids|
  {
    if ids == [] {
    } else if ids[0] in seen {
      RefillEachIsExact(s, ids[1..], seen, now, a);
    } else if Refilling(s, ids[0]) {
      RefillFirst(s, ids, seen, now, a);
    } else {
      RefillSkips(s, ids, seen, now, a);
      RefillEachIsExact(s, ids[1..], seen + {ids[0]}, now, a);
    }
  }

  /** Only applications and offers change, and offers are only added. */
  predicate Adds(s: State, r: State) {
    Grown(s, r) && s.offers <= r.offers && r == s.(applications := r.applications, offers := r.offers)
  }

  /** What one refill does to activity a. */
  lemma RefillOn(s: State, b: nat, now: int, a: nat)
    requires Safe(s) && Refilling(s, b)
    ensures var next := Refill(s, b, now);
      Safe(next) && Adds(s, next) && if a == b then Satisfied(next, a) else Untouched(s, next, a)
  {
    RefillSafe(s, b, now);
    RefillOnly(s, b, now);
    if a == b {
      RefillSatisfies(s, a, now);
    }
  }

  lemma ServedOn(s: State, next: State, r: State, b: nat, a: nat, later: bool)
    requires Refs(s) && Adds(s, next) && Adds(next, r)
    requires if a == b then Satisfied(next, a) else Untouched(s, next, a)
    requires if later then Satisfied(r, a) else Untouched(next, r, a)
    ensures Adds(s, r) && if a == b || later then Satisfied(r, a) else Untouched(s, r, a)
  {
    GrownOn(s, next, r);
    if a == b && !later {
      SameSatisfied(next, r, a);
    } else if !later {
      UntouchedOn(s, next, r, a);
    }
  }

  lemma RefillSkips(s: State, ids: seq<nat>, seen: set<nat>, now: int, a: nat)
    requires Refs(s) && ids != [] && ids[0] !in seen && !Refilling(s, ids[0])
    ensures RefillEach(s, ids, seen, now) == RefillEach(s, ids[1..], seen + {ids[0]}, now)
    ensures IsServed(s, ids, seen, a) <==> IsServed(s, ids[1..], seen + {ids[0]}, a)
  {
  }

  lemma RefillUnfolds(s: State, ids: seq<nat>, seen: set<nat>, now: int)
    requires Refs(s) && ids != [] && ids[0] !in seen && Refilling(s, ids[0])
    ensures RefillEach(s, ids, seen, now) == RefillEach(Refill(s, ids[0], now), ids[1..], seen + {ids[0]}, now)
  {
  }

  lemma ServedList(s: State, next: State, ids: seq<nat>, seen: set<nat>, a: nat)
    requires ids != [] && ids[0] !in seen && Refilling(s, ids[0]) && next.activities == s.activities
    ensures IsServed(s, ids, seen, a) <==> a == ids[0] || IsServed(next, ids[1..], seen + {ids[0]}, a)
  {
  }

  lemma {:induction false} RefillFirst(s: State, ids: seq<nat>, seen: set<nat>, now: int, a: nat)
    requires Safe(s) && ids != [] && ids[0] !in seen && Refilling(s, ids[0])
    ensures RefilledAll(s, RefillEach(s, ids, seen, now), ids, seen, a)
    decreases |ids|, 0
  {
    var b, rest, more := ids[0], ids[1..], seen + {ids[0]};
    var next, r := Refill(s, b, now), RefillEach(s, ids, seen, now);
    RefillUnfolds(s, ids, seen, now);
    RefillOn(s, b, now, a);
    RefillEachIsExact(next, rest, more, now, a);
    ServedOn(s, next, r, b, a, IsServed(next, rest, more, a));
    ServedList(s, next, ids, seen, a);
  }

  lemma GrownOn(s: State, m: State, r: State)
    requires Grown(s, m) && Grown(m, r)
    ensures Grown(s, r)
  {
  }

  // ---------- after an acceptance ----------

  /** The accepted offer's activity and those of the offers the linkage declines. */
  predicate Freed(s: State, o: nat, a: nat)
    requires Refs(s) && o < |s.offers|
  {
    ActOf(s, o) == a || exists i :: 0 <= i < |s.offers| && LinkDeclines(s, o, i) && ActOf(s, i) == a
  }

  lemma {:induction false} AutoActivitiesAre(s: State, ids: seq<nat>, a: nat)
    requires Refs(s) && Named(s, ids)
    ensures a in AutoActivities(s, ids) <==>
      exists j :: 0 <= j < |ids| && ActOf(s, ids[j]) == a && s.activities[a].mode.Auto?
    decreases |ids|
  {
    if ids != [] {
      AutoActivitiesAre(s, ids[1..], a);
      if j :| 0 <= j < |ids| && ActOf(s, ids[j]) == a && s.activities[a].mode.Auto? {
        assert j > 0 ==> ids[1..][j - 1] == ids[j];
      }
      if j :| 0 <= j < |ids[1..]| && ActOf(s, ids[1..][j]) == a && s.activities[a].mode.Auto? {
        assert ids[j + 1] == ids[1..][j];
      }
    }
  }

  lemma LinksAre(s: State, c: nat, i: nat)
    requires Refs(s)
    ensures i in Links(s, c) <==> i in PendingFor(s, c)
  {
    SortedInOrder(LockKeys(s), PendingFor(s, c));
  }

  /** Offer i is declined by the linkage of an acceptance of offer o. */
  predicate LinkDeclines(s: State, o: nat, i: nat)
    requires Refs(s) && o < |s.offers|
  {
    i < |s.offers| && i != o && s.offers[i].status.Pending? && CandOf(s, i) == CandOf(s, o)
  }

  lemma LinksTaken(s: State, o: nat, i: nat)
    requires Refs(s) && o < |s.offers|
    ensures i in Links(Take(s, o), CandOf(s, o)) <==> LinkDeclines(s, o, i)
    ensures LinkDeclines(s, o, i) ==> ActOf(Take(s, o), i) == ActOf(s, i)
  {
    var taken, c := Take(s, o), CandOf(s, o);
    LinksAre(taken, c, i);
    TakeGrown(s, o);
    if i < |s.offers| {
      assert CandOf(taken, i) == CandOf(s, i);
    }
  }

  lemma LinkedActivities(s: State, o: nat, a: nat)
    requires Refs(s) && o < |s.offers|
    ensures var taken := Take(s, o);
      a in AutoActivities(taken, Links(taken, CandOf(s, o))) <==>
        a < |s.activities| && s.activities[a].mode.Auto?
        && exists i :: 0 <= i < |s.offers| && LinkDeclines(s, o, i) && ActOf(s, i) == a
  {
    var taken := Take(s, o);
    var links := Links(taken, CandOf(s, o));
    AutoActivitiesAre(taken, links, a);
    if j :| 0 <= j < |links| && ActOf(taken, links[j]) == a && taken.activities[a].mode.Auto? {
      LinksTaken(s, o, links[j]);
      assert LinkDeclines(s, o, links[j]);
    }
    if i :| 0 <= i < |s.offers| && LinkDeclines(s, o, i) && ActOf(s, i) == a {
      LinksTaken(s, o, i);
      var j :| 0 <= j < |links| && links[j] == i;
      assert ActOf(taken, links[j]) == a;
    }
  }

  /** The reply to a committed acceptance lists exactly the AUTO activities in which it took or freed a seat. */
  lemma RefillsListed(s: State, o: nat, now: int, a: nat)
    requires Refs(s) && AcceptTx(s, o, now).reply.AcceptedNow?
    ensures o < |s.offers|
    ensures a in AcceptTx(s, o, now).reply.refills <==>
      Freed(s, o, a) && a < |s.activities| && s.activities[a].mode.Auto?
  {
    LinkedActivities(s, o, a);
  }

  /** After an acceptance with its refills: every activity in which it took or freed a seat and which is ACTIVE,
      started, AUTO and unpaused is full or has nobody waiting; the others are as the transaction left them. */
  lemma AcceptServes(s: State, o: nat, now: int, later: int, a: nat)
    requires Safe(s) && AcceptTx(s, o, now).reply.AcceptedNow?
    ensures o < |s.offers|
    ensures var t := AcceptTx(s, o, now);
      var r := RefillEach(t.after, t.reply.refills, {}, later);
      if Freed(s, o, a) && Refilling(s, a) then Satisfied(r, a) else Untouched(t.after, r, a)
  {
    var t := AcceptTx(s, o, now);
    AcceptKeeps(s, o, now);
    AcceptOutcome(s, o, now);
    RefillsListed(s, o, now, a);
    RefillEachIsExact(t.after, t.reply.refills, {}, later, a);
  }

  /** After a refusal with its refill the same of its own activity. */
  lemma DeclineServes(s: State, o: nat, now: int, later: int, a: nat)
    requires Safe(s) && DeclineTx(s, o, now).reply.DeclinedNow?
    ensures o < |s.offers|
    ensures var t := DeclineTx(s, o, now).after;
      var r := if MayRefill(s.activities[ActOf(s, o)]) then Refill(t, ActOf(s, o), later) else t;
      if a == ActOf(s, o) && Refilling(s, a) then Satisfied(r, a) else Untouched(t, r, a)
  {
    var t := DeclineTx(s, o, now).after;
    DeclineKeeps(s, o, now);
    DeclineOutcome(s, o, now);
    RefillOnly(t, ActOf(s, o), later);
    if Refilling(s, ActOf(s, o)) {
      RefillSatisfies(t, ActOf(s, o), later);
    }
  }

  /** The refill owed after a quota increase fills the seats, when it works, and writes no intent; otherwise the intent
      stands for it. */
  lemma OwedRefillServes(s: State, a: nat, now: int, b: nat)
    requires Safe(s) && a in s.owed && a < |s.activities|
    ensures var r := QuotaRefill(s, a, true, false, now);
      && r == s.(owed := s.owed - {a}, applications := r.applications, offers := r.offers)
      && if b == a && Refilling(s, a) then Satisfied(r, a) else b == a || Untouched(s, r, b)
  {
    var settled := s.(owed := s.owed - {a});
    TablesSafe(s, settled);
    RefillOnly(settled, a, now);
    if Refilling(s, a) {
      RefillSatisfies(settled, a, now);
    }
    if b != a {
      assert Untouched(settled, Refill(settled, a, now), b);
      OwedUntouched(s, settled, Refill(settled, a, now), b);
    }
  }

  lemma OwedUntouched(s: State, settled: State, r: State, b: nat)
    requires Refs(s) && settled == s.(owed := settled.owed) && Untouched(settled, r, b)
    ensures Untouched(s, r, b)
  {
    forall i | 0 <= i < |s.offers| ensures ActOf(s, i) == ActOf(settled, i) {
    }
  }

  lemma OwedIntentStands(s: State, a: nat, intentWorks: bool, now: int)
    requires Refs(s) && Grounded(s) && a in s.owed
    ensures QuotaRefill(s, a, false, intentWorks, now) ==
      s.(owed := s.owed - {a},
         intents := s.intents + if intentWorks then [Intent(a, QuotaIncrease, None, true)] else [])
  {
  }

  // ---------- the expiry sweep ----------

  /** The sweep found the offer among the due ones. */
  predicate Listed(rows: seq<DueRow>, i: nat) { exists j :: 0 <= j < |rows| && rows[j].offer == i }

  /** What a sweep makes of an offer: EXPIRED when it is listed and still due, in an ACTIVE activity that is swept. */
  function SweptOffer(s: State, swept: bool, listed: bool, i: nat, now: int): Offer
    requires Refs(s) && i < |s.offers|
  {
    if swept && listed && s.activities[ActOf(s, i)].status.Active? && s.offers[i].status.Pending?
       && s.offers[i].expiresAt <= now
    then s.offers[i].(status := OfferStatus.Expired) else s.offers[i]
  }

  lemma {:induction false} GroupHolds(s: State, rows: seq<DueRow>, a: nat, i: nat)
    requires Refs(s) && Due(s, rows) && i < |s.offers|
    ensures i in GroupOf(rows, a) <==> Listed(rows, i) && ActOf(s, i) == a
    decreases |rows|
  {
    if rows != [] {
      var front, last := rows[..|rows| - 1], rows[|rows| - 1];
      GroupHolds(s, front, a, i);
      if Listed(rows, i) {
        var j :| 0 <= j < |rows| && rows[j].offer == i;
        assert j < |front| ==> front[j].offer == i;
      }
      if Listed(front, i) {
        var j :| 0 <= j < |front| && front[j].offer == i;
        assert rows[j].offer == i;
      }
      assert last.offer == i ==> rows[|rows| - 1].offer == i;
    }
  }

  lemma SettledOffers(s: State, a: nat, ids: seq<nat>, now: int)
    requires Safe(s)
    ensures var r := SettleGroup(s, a, ids, now);
      && Safe(r) && Grown(s, r) && SameRows(s, r) && (r != s ==> a < |s.activities| && s.activities[a].status.Active?)
      && (forall i :: 0 <= i < |s.offers| ==> r.offers[i] == SweptOffer(s, ActOf(s, i) == a, i in ids, i, now))
      && (forall k :: 0 <= k < |s.applications| && s.applications[k].activity != a ==>
            r.applications[k] == s.applications[k])
  {
    var r := SettleGroup(s, a, ids, now);
    SettleGroupKeeps(s, a, ids, now);
    if a < |s.activities| && s.activities[a].status.Active? {
      CloseAllGrown(s, StillDue(s, a, ids, now), OfferStatus.Expired, Reason.OfferExpired);
      StillDueOf(s, a, ids, now);
      CloseAllElsewhere(s, StillDue(s, a, ids, now), OfferStatus.Expired, Reason.OfferExpired, a);
    }
    forall i | 0 <= i < |s.offers| ensures r.offers[i] == SweptOffer(s, ActOf(s, i) == a, i in ids, i, now) {
      SweepIsExact(s, a, ids, now, i);
    }
  }

  lemma {:induction false} StillDueOf(s: State, a: nat, ids: seq<nat>, now: int)
    requires Refs(s)
    ensures forall i :: 0 <= i < |StillDue(s, a, ids, now)| ==> ActOf(s, StillDue(s, a, ids, now)[i]) == a
  {
    if ids != [] {
      StillDueOf(s, a, ids[1..], now);
    }
  }

  /** Closing offers of one activity leaves the applications of the others alone. */
  lemma {:induction false} CloseAllElsewhere(s: State, ids: seq<nat>, to: OfferStatus, why: Reason, a: nat)
    requires Refs(s) && Named(s, ids) && forall j :: 0 <= j < |ids| ==> ActOf(s, ids[j]) == a
    ensures forall k :: 0 <= k < |s.applications| && s.applications[k].activity != a ==>
      CloseAll(s, ids, to, why).applications[k] == s.applications[k]
    decreases |ids|
  {
    if ids != [] {
      var first := CloseOne(s, ids[0], to, why);
      CloseOneGrown(s, ids[0], to, why);
      forall j | 0 <= j < |ids[1..]| ensures ActOf(first, ids[1..][j]) == a {
        assert ActOf(first, ids[j + 1]) == ActOf(s, ids[j + 1]);
      }
      CloseAllElsewhere(first, ids[1..], to, why, a);
    }
  }

  predicate SweptFrom(s: State, r: State, a: nat, swept: bool) {
    && Safe(r) && Grown(s, r) && r.activities == s.activities
    && (if swept then Refilling(s, a) ==> Satisfied(r, a) else Untouched(s, r, a))
  }

  lemma SweptIs(s: State, b: nat, ids: seq<nat>, now: int, later: int, a: nat)
    requires Safe(s)
    ensures var r := Swept(s, b, ids, now, later);
      && SweptFrom(s, r, a, a == b)
      && (forall i :: 0 <= i < |s.offers| ==> r.offers[i] == SweptOffer(s, ActOf(s, i) == b, i in ids, i, now))
  {
    var settled := SettleGroup(s, b, ids, now);
    SettledOffers(s, b, ids, now);
    RefillEachIsExact(settled, [b], {}, later, a);
    SettledUntouched(s, settled, b, a);
    if a != b {
      SettledThenRefilled(s, settled, RefillEach(settled, [b], {}, later), a);
    }
    GrownOn(s, settled, RefillEach(settled, [b], {}, later));
  }

  lemma SettledUntouched(s: State, settled: State, b: nat, a: nat)
    requires Grown(s, settled) && |settled.offers| == |s.offers|
    requires forall i :: 0 <= i < |s.offers| && ActOf(s, i) != b ==> settled.offers[i] == s.offers[i]
    requires forall k :: 0 <= k < |s.applications| && s.applications[k].activity != b ==>
      settled.applications[k] == s.applications[k]
    ensures a != b ==> Untouched(s, settled, a)
  {
  }

  lemma SettledThenRefilled(s: State, settled: State, r: State, a: nat)
    requires Untouched(s, settled, a) && Untouched(settled, r, a) && Grown(s, settled) && Grown(settled, r)
    ensures Untouched(s, r, a)
  {
    UntouchedOn(s, settled, r, a);
  }

  /** After the whole sweep every swept activity that may refill is full or has nobody waiting, and the activities it
      did not sweep are as before. */
  lemma {:induction false} SweepServes(s: State, order: seq<nat>, rows: seq<DueRow>, now: int, later: int, a: nat)
    requires Safe(s) && Due(s, rows)
    ensures SweptFrom(s, SweepAll(s, order, rows, now, later), a, a in order)
    decreases |order|
  {
    if order != [] {
      var next := Swept(s, order[0], GroupOf(rows, order[0]), now, later);
      SweptIs(s, order[0], GroupOf(rows, order[0]), now, later, a);
      SweepDue(s, order[0], rows, now, later);
      SweepServes(next, order[1..], rows, now, later, a);
      SweptOn(s, next, SweepAll(s, order, rows, now, later), order[0], a, a in order[1..]);
    }
  }

  lemma SweptOn(s: State, next: State, r: State, b: nat, a: nat, later: bool)
    requires Refs(s) && SweptFrom(s, next, a, a == b) && SweptFrom(next, r, a, later)
    ensures SweptFrom(s, r, a, a == b || later)
  {
    GrownOn(s, next, r);
    if !later && a == b {
      if Refilling(s, a) {
        SameSatisfied(next, r, a);
      }
    } else if !later {
      UntouchedOn(s, next, r, a);
    }
  }

  /** The order of first appearance names exactly the activities of the rows. */
  lemma {:induction false} FirstSeenHolds(s: State, rows: seq<DueRow>, i: nat)
    requires Refs(s) && Due(s, rows) && i < |rows|
    ensures rows[i].activity in FirstSeen(rows)
    decreases |rows|
  {
    if i < |rows| - 1 {
      FirstSeenHolds(s, rows[..|rows| - 1], i);
    }
  }

  predicate Names(rows: seq<DueRow>, a: nat) { exists k :: 0 <= k < |rows| && rows[k].activity == a }

  /** It names each of them once. */
  lemma {:induction false} FirstSeenOnce(rows: seq<DueRow>)
    ensures forall i, j :: 0 <= i < j < |FirstSeen(rows)| ==> FirstSeen(rows)[i] != FirstSeen(rows)[j]
    ensures forall a :: a in FirstSeen(rows) ==> Names(rows, a)
    decreases |rows|
  {
    if rows != [] {
      var front, last := rows[..|rows| - 1], rows[|rows| - 1].activity;
      FirstSeenOnce(front);
      assert FirstSeen(rows) == if last in FirstSeen(front) then FirstSeen(front) else FirstSeen(front) + [last];
      forall a | Names(front, a) || a == last ensures Names(rows, a) {
        NamesGrow(rows, a);
      }
    }
  }

  lemma NamesGrow(rows: seq<DueRow>, a: nat)
    requires rows != [] && (Names(rows[..|rows| - 1], a) || a == rows[|rows| - 1].activity)
    ensures Names(rows, a)
  {
    var front := rows[..|rows| - 1];
    if k :| 0 <= k < |front| && front[k].activity == a {
      assert rows[k].activity == a;
    } else {
      assert rows[|rows| - 1].activity == a;
    }
  }

  lemma ListedIsSeen(s: State, rows: seq<DueRow>, i: nat, now: int)
    requires Refs(s) && Due(s, rows) && i < |s.offers|
    ensures SweptOffer(s, ActOf(s, i) in FirstSeen(rows), Listed(rows, i), i, now)
            == SweptOffer(s, true, Listed(rows, i), i, now)
  {
    if Listed(rows, i) {
      var j :| 0 <= j < |rows| && rows[j].offer == i;
      FirstSeenHolds(s, rows, j);
    }
  }

  lemma SweptRow(s: State, b: nat, rows: seq<DueRow>, now: int, later: int, i: nat)
    requires Safe(s) && Due(s, rows) && i < |s.offers|
    ensures var next := Swept(s, b, GroupOf(rows, b), now, later);
      && Safe(next) && Due(next, rows) && next.activities == s.activities && i < |next.offers|
      && ActOf(next, i) == ActOf(s, i)
      && next.offers[i] == SweptOffer(s, ActOf(s, i) == b, Listed(rows, i), i, now)
  {
    SweptIs(s, b, GroupOf(rows, b), now, later, 0);
    SweepDue(s, b, rows, now, later);
    GroupHolds(s, rows, b, i);
  }

  lemma SweptTwice(s: State, next: State, now: int, i: nat, first: bool, later: bool, listed: bool)
    requires Refs(s) && Refs(next) && i < |s.offers| && i < |next.offers| && next.activities == s.activities
    requires ActOf(next, i) == ActOf(s, i) && next.offers[i] == SweptOffer(s, first, listed, i, now)
    ensures SweptOffer(next, later, listed, i, now) == SweptOffer(s, first || later, listed, i, now)
  {
  }

  lemma {:induction false} SweepAllOffer(s: State, order: seq<nat>, rows: seq<DueRow>, now: int, later: int, i: nat)
    requires Safe(s) && Due(s, rows) && i < |s.offers|
    ensures |SweepAll(s, order, rows, now, later).offers| > i
    ensures SweepAll(s, order, rows, now, later).offers[i]
            == SweptOffer(s, ActOf(s, i) in order, Listed(rows, i), i, now)
    decreases |order|
  {
    if order != [] {
      var next, a := Swept(s, order[0], GroupOf(rows, order[0]), now, later), ActOf(s, i);
      SweptRow(s, order[0], rows, now, later, i);
      SweepAllOffer(next, order[1..], rows, now, later, i);
      SweptTwice(s, next, now, i, a == order[0], a in order[1..], Listed(rows, i));
    }
  }

  /** The sweep job: a listed offer that is still due is EXPIRED afterwards if its activity is ACTIVE, and no other
      offer changes. */
  lemma SweepSettles(s: State, rows: seq<DueRow>, now: int, later: int, i: nat)
    requires Safe(s) && Due(s, rows) && i < |s.offers|
    ensures |SweepAll(s, FirstSeen(rows), rows, now, later).offers| > i
    ensures SweepAll(s, FirstSeen(rows), rows, now, later).offers[i] == SweptOffer(s, true, Listed(rows, i), i, now)
  {
    SweepAllOffer(s, FirstSeen(rows), rows, now, later, i);
    ListedIsSeen(s, rows, i, now);
  }

  // ---------- the executor ----------

  predicate PendingIntent(s: State, j: nat, a: nat) {
    j < |s.intents| && s.intents[j].activity == a && s.intents[j].pending
  }

  /** The intents of the activity are closed and nothing else happens to the intents. */
  predicate ClosesIntents(s: State, r: State, a: nat) {
    && |r.intents| == |s.intents|
    && forall j :: 0 <= j < |s.intents| ==>
         r.intents[j] == if s.intents[j].activity == a then s.intents[j].(pending := false) else s.intents[j]
  }

  predicate HasWork(s: State, a: nat) {
    Refilling(s, a) && exists j :: 0 <= j < |s.intents| && PendingIntent(s, j, a)
  }

  /** The executor serves an activity exactly when it is ACTIVE, started, AUTO and unpaused and has a PENDING intent:
      then none of its intents is PENDING afterwards, it is full or has nobody waiting, and no other activity changes.
      In every other case nothing changes. */
  lemma ExecuteIsExact(s: State, a: nat, now: int)
    requires Safe(s)
    ensures var r := ExecuteOne(s, a, now);
      && Safe(r)
      && if !HasWork(s, a) then r == s
         else
           && Satisfied(r, a) && ClosesIntents(s, r, a) && Grown(s, r) && s.offers <= r.offers
           && r == s.(applications := r.applications, offers := r.offers, intents := r.intents)
           && forall b: nat :: b != a ==> Untouched(s, r, b)
  {
    ExecuteKeeps(s, a, now);
    if HasWork(s, a) {
      var j :| 0 <= j < |s.intents| && PendingIntent(s, j, a);
      assert HasIntent(s, a);
      ExecutedRows(s, a, now);
    } else if Refilling(s, a) && HasIntent(s, a) {
      var j :| 0 <= j < |s.intents| && s.intents[j].activity == a && s.intents[j].pending;
      assert PendingIntent(s, j, a);
      assert false;
    }
  }

  lemma ExecutedRows(s: State, a: nat, now: int)
    requires Safe(s) && Refilling(s, a)
    ensures var r := CloseIntents(Refill(s, a, now), a);
      && Satisfied(r, a) && ClosesIntents(s, r, a) && Grown(s, r) && s.offers <= r.offers
      && r == s.(applications := r.applications, offers := r.offers, intents := r.intents)
      && forall b: nat :: b != a ==> Untouched(s, r, b)
  {
    var filled := Refill(s, a, now);
    var r := CloseIntents(filled, a);
    RefillOnly(s, a, now);
    ClosingSatisfies(s, a, now);
    forall b: nat | b != a ensures Untouched(s, r, b) {
      ClosedUntouched(s, filled, r, b);
    }
  }

  lemma ClosedUntouched(s: State, filled: State, r: State, b: nat)
    requires Untouched(s, filled, b) && Refs(r) && r.offers == filled.offers && r.applications == filled.applications
    ensures Untouched(s, r, b)
  {
    forall i | 0 <= i < |r.offers| ensures ActOf(r, i) == ActOf(filled, i) {
    }
  }

  predicate ExecutedAll(s: State, r: State, ids: seq<nat>, leased: set<nat>, a: nat) {
    && Safe(r) && Grown(s, r) && r.activities == s.activities && |r.intents| == |s.intents|
    && (forall j :: 0 <= j < |s.intents| ==> r.intents[j].activity == s.intents[j].activity)
    && if a in ids && a in leased && HasWork(s, a)
       then Satisfied(r, a) && forall j :: 0 <= j < |r.intents| ==> !PendingIntent(r, j, a)
       else Untouched(s, r, a) && SameIntentsOf(s, r, a)
  }

  /** The executor over its list: every listed activity whose lease it obtains and that has work is served, and its
      intents are closed; every other activity is left alone with its intents. */
  lemma {:induction false} ExecuteAllIsExact(s: State, ids: seq<nat>, leased: set<nat>, now: int, a: nat)
    requires Safe(s)
    ensures ExecutedAll(s, ExecuteAll(s, ids, leased, now), ids, leased, a)
    decreases |ids|
  {
    if ids != [] && ids[0] in leased {
      ExecuteFirst(s, ids, leased, now, a);
    } else if ids != [] {
      ExecuteAllIsExact(s, ids[1..], leased, now, a);
    }
  }

  /** What one execution does to activity a: it serves it, or leaves it alone with its intents. */
  lemma ExecuteOn(s: State, b: nat, now: int, a: nat)
    requires Safe(s)
    ensures var r := ExecuteOne(s, b, now);
      && Safe(r) && Grown(s, r) && r.activities == s.activities && |r.intents| == |s.intents|
      && (forall j :: 0 <= j < |s.intents| ==> r.intents[j].activity == s.intents[j].activity)
      && if a == b && HasWork(s, a) then Satisfied(r, a) && !HasWork(r, a)
         else Untouched(s, r, a) && SameIntentsOf(s, r, a)
  {
    ExecuteIsExact(s, b, now);
    var r := ExecuteOne(s, b, now);
    if a == b && HasWork(s, a) {
      forall j | 0 <= j < |r.intents| ensures !PendingIntent(r, j, a) {
        assert r.intents[j] == if s.intents[j].activity == a then s.intents[j].(pending := false) else s.intents[j];
      }
    }
  }

  predicate SameIntentsOf(s: State, r: State, a: nat) {
    |r.intents| == |s.intents|
    && forall j :: 0 <= j < |s.intents| && s.intents[j].activity == a ==> r.intents[j] == s.intents[j]
  }

  lemma WorkStays(s: State, r: State, a: nat)
    requires SameIntentsOf(s, r, a) && r.activities == s.activities
    requires forall j :: 0 <= j < |s.intents| ==> r.intents[j].activity == s.intents[j].activity
    ensures HasWork(r, a) <==> HasWork(s, a)
  {
    forall j | 0 <= j < |s.intents| ensures PendingIntent(r, j, a) <==> PendingIntent(s, j, a) {
      assert r.intents[j].activity == s.intents[j].activity;
    }
  }

  lemma {:induction false} ExecuteFirst(s: State, ids: seq<nat>, leased: set<nat>, now: int, a: nat)
    requires Safe(s) && ids != [] && ids[0] in leased
    ensures ExecutedAll(s, ExecuteAll(s, ids, leased, now), ids, leased, a)
    decreases |ids|, 0
  {
    var next, r := ExecuteOne(s, ids[0], now), ExecuteAll(s, ids, leased, now);
    ExecuteOn(s, ids[0], now, a);
    ExecuteAllIsExact(next, ids[1..], leased, now, a);
    GrownOn(s, next, r);
    if ids[0] == a && HasWork(s, a) {
      SameSatisfied(next, r, a);
      assert !HasWork(next, a);
      NoWorkLeft(next, r, a);
    } else {
      WorkStays(s, next, a);
      if !(a in ids && a in leased && HasWork(s, a)) {
        UntouchedOn(s, next, r, a);
      }
    }
  }

  lemma NoWorkLeft(s: State, r: State, a: nat)
    requires SameIntentsOf(s, r, a) && Refilling(s, a) && !HasWork(s, a)
    requires forall j :: 0 <= j < |s.intents| ==> r.intents[j].activity == s.intents[j].activity
    ensures forall j :: 0 <= j < |r.intents| ==> !PendingIntent(r, j, a)
  {
    forall j | 0 <= j < |r.intents| ensures !PendingIntent(r, j, a) {
      assert !PendingIntent(s, j, a);
      assert r.intents[j].activity == s.intents[j].activity;
    }
  }
}
