/** Every transaction keeps the invariant, and no transaction loses a seat. */
module Safety {
  import opened OrderBy
  import opened Tables
  import opened Transactions
  import opened Invariant
  import opened RowWrites
  import opened Filling

  // ---------- what a step does to the rows it finds ----------

  /** Offers only change their status and are only appended; applications only change their status. */
  predicate Grown(s: State, r: State) {
    && Refs(s) && Refs(r) && SameButStatus(s.applications, r.applications)
    && |s.offers| <= |r.offers|
    && forall i :: 0 <= i < |s.offers| ==> r.offers[i] == s.offers[i].(status := r.offers[i].status)
  }

  predicate Unbatched(offers: seq<Offer>, n: nat) {
    forall i :: n <= i < |offers| ==> offers[i].batch.None? && !offers[i].source.FromBatch?
  }

  lemma LinkedKept(s: State, r: State, id: nat)
    requires Grown(s, r) && Unbatched(r.offers, |s.offers|)
    ensures Linked(r, id) == Linked(s, id)
  {
  }

  lemma BatchesKept(s: State, r: State)
    requires Grown(s, r) && Unbatched(r.offers, |s.offers|) && Batches(s)
    requires r.batches == s.batches && s.nextBatch <= r.nextBatch
    ensures Batches(r)
  {
    forall id: nat ensures Linked(r, id) == Linked(s, id) {
      LinkedKept(s, r, id);
    }
    forall i | 0 <= i < |r.offers| ensures BatchLinked(r, i) {
      assert i < |s.offers| ==> BatchLinked(s, i);
    }
  }

  /** A seat stays covered while the occupation does not fall, the queue does not grow and no promise is dropped. */
  lemma CoverKept(s: State, r: State, a: nat)
    requires Refs(s) && Refs(r) && a < |s.activities| && a < |r.activities| && SeatCovered(s, a, s.owed)
    requires MayRefill(r.activities[a]) ==> MayRefill(s.activities[a]) && r.activities[a].quota <= s.activities[a].quota
    requires Occupied(s, a) <= Occupied(r, a) && Queue(r, a) <= Queue(s, a)
    requires HasIntent(s, a) ==> HasIntent(r, a)
    requires a in s.owed ==> a in r.owed
    ensures SeatCovered(r, a, r.owed)
  {
  }

  lemma IntentsGrow(s: State, r: State, a: nat)
    requires s.intents <= r.intents
    ensures HasIntent(s, a) ==> HasIntent(r, a)
  {
    if HasIntent(s, a) {
      var j :| 0 <= j < |s.intents| && s.intents[j].activity == a && s.intents[j].pending;
      assert r.intents[j] == s.intents[j];
    }
  }

  lemma IntentAdded(s: State, a: nat, why: Reason, offer: Option<nat>)
    requires a < |s.activities|
    ensures var r := AddIntent(s, a, why, offer);
      && s.intents <= r.intents && SameTables(s, r)
      && r.owed == s.owed && r.batches == s.batches && r.nextBatch == s.nextBatch
      && (s.activities[a].mode.Auto? ==> HasIntent(r, a))
  {
    var r := AddIntent(s, a, why, offer);
    assert s.activities[a].mode.Auto? ==> r.intents[|s.intents|] == Intent(a, why, offer, true);
  }

  // ---------- closing offers ----------

  lemma CloseOneGrown(s: State, i: nat, to: OfferStatus, why: Reason)
    requires Refs(s) && i < |s.offers|
    ensures Grown(s, CloseOne(s, i, to, why))
  {
  }

  lemma {:induction false} CloseAllGrown(s: State, ids: seq<nat>, to: OfferStatus, why: Reason)
    requires Refs(s) && Named(s, ids)
    ensures Grown(s, CloseAll(s, ids, to, why)) && SameRows(s, CloseAll(s, ids, to, why))
    decreases |ids|
  {
    if ids != [] {
      CloseOneGrown(s, ids[0], to, why);
      CloseAllGrown(CloseOne(s, ids[0], to, why), ids[1..], to, why);
    }
  }

  /** A seat that a closing frees in an AUTO activity is promised to the executor by the intent written with it. */
  lemma CloseOneSeats(s: State, i: nat, to: OfferStatus, why: Reason, a: nat)
    requires Refs(s) && Statuses(s) && i < |s.offers| && Closed(to) && a < |s.activities| && SeatCovered(s, a, s.owed)
    ensures SeatCovered(CloseOne(s, i, to, why), a, s.owed)
  {
    if s.offers[i].status.Pending? {
      CloseIsShut(s, i, to, why);
      var shut, r := Shut(s, i, to), CloseOne(s, i, to, why);
      IntentAdded(shut, ActOf(s, i), why, Some(i));
      SamePlaces(shut, r, a);
      if a != ActOf(s, i) {
        ShutSeats(s, i, to, a);
        assert Queue(r, a) == Queue(s, a);
        IntentsGrow(s, r, a);
        CoverKept(s, r, a);
      }
    }
  }

  lemma {:induction false} CloseAllSeats(s: State, ids: seq<nat>, to: OfferStatus, why: Reason, but: int)
    requires Core(s) && CleanBut(s, but) && Named(s, ids) && Closed(to) && Seats(s)
    ensures Seats(CloseAll(s, ids, to, why))
    decreases |ids|
  {
    if ids != [] {
      var first := CloseOne(s, ids[0], to, why);
      forall a | 0 <= a < |first.activities| ensures SeatCovered(first, a, first.owed) {
        assert SeatCovered(s, a, s.owed);
        CloseOneSeats(s, ids[0], to, why, a);
      }
      CloseKeeps(s, ids[0], to, why, but);
      CloseAllSeats(first, ids[1..], to, why, but);
    }
  }

  lemma CloseAllBatches(s: State, ids: seq<nat>, to: OfferStatus, why: Reason)
    requires Refs(s) && Named(s, ids) && Batches(s)
    ensures Batches(CloseAll(s, ids, to, why))
  {
    CloseAllGrown(s, ids, to, why);
    BatchesKept(s, CloseAll(s, ids, to, why));
  }

  lemma CloseAllSafe(s: State, ids: seq<nat>, to: OfferStatus, why: Reason)
    requires Safe(s) && Named(s, ids) && Closed(to)
    ensures Safe(CloseAll(s, ids, to, why))
    ensures Seats(s) ==> Seats(CloseAll(s, ids, to, why))
  {
    CloseAllKeeps(s, ids, to, why, -1);
    CloseAllBatches(s, ids, to, why);
    if Seats(s) {
      CloseAllSeats(s, ids, to, why, -1);
    }
  }

  lemma CloseOneSafe(s: State, i: nat, to: OfferStatus, why: Reason)
    requires Safe(s) && i < |s.offers| && Closed(to)
    ensures Safe(CloseOne(s, i, to, why))
    ensures Seats(s) ==> Seats(CloseOne(s, i, to, why))
  {
    CloseAllSafe(s, [i], to, why);
    CloseAllSingle(s, i, to, why);
  }

  lemma CloseAllSingle(s: State, i: nat, to: OfferStatus, why: Reason)
    requires Refs(s) && i < |s.offers|
    ensures CloseAll(s, [i], to, why) == CloseOne(s, i, to, why)
  {
    var first := CloseOne(s, i, to, why);
    assert [i][1..] == [];
    assert CloseAll(first, [], to, why) == first;
  }

  // ---------- settings ----------

  lemma SettingsSafe(s: State, r: State)
    requires Safe(s) && |r.activities| == |s.activities| && r == s.(activities := r.activities)
    requires forall a :: 0 <= a < |s.activities| ==> MayChange(s, a, r.activities[a])
    ensures Safe(r)
    ensures forall a: nat :: Occupied(r, a) == Occupied(s, a) && Queue(r, a) == Queue(s, a)
  {
    SettingsKeep(s, r);
    BatchesKept(s, r);
  }

  /** A change of settings that opens no refill and raises no quota leaves no seat uncovered. */
  lemma SettingsSeats(s: State, r: State, a: nat)
    requires Refs(s) && Refs(r) && a < |s.activities| && SeatCovered(s, a, s.owed)
    requires |r.activities| == |s.activities| && r == s.(activities := r.activities)
    requires Occupied(r, a) == Occupied(s, a)
    requires MayRefill(r.activities[a]) ==> MayRefill(s.activities[a]) && r.activities[a].quota <= s.activities[a].quota
    ensures SeatCovered(r, a, r.owed)
  {
    assert Queue(r, a) == Queue(s, a);
    IntentsGrow(s, r, a);
    CoverKept(s, r, a);
  }

  predicate Opens(was: Activity, act: Activity) {
    MayRefill(act) && !(MayRefill(was) && act.quota <= was.quota)
  }

  lemma OneChange(s: State, a: nat, act: Activity)
    requires Safe(s) && a < |s.activities| && MayChange(s, a, act)
    ensures Safe(SetActivity(s, a, act))
    ensures Seats(s) ==> forall b :: 0 <= b < |s.activities| && (b != a || !Opens(s.activities[a], act)) ==>
      SeatCovered(SetActivity(s, a, act), b, s.owed)
    ensures forall b: nat :: Occupied(SetActivity(s, a, act), b) == Occupied(s, b)
  {
    var r := SetActivity(s, a, act);
    forall b | 0 <= b < |s.activities| ensures MayChange(s, b, r.activities[b]) {
      if b != a {
        SameSettings(s, b);
      }
    }
    SettingsSafe(s, r);
    if Seats(s) {
      forall b | 0 <= b < |s.activities| && (b != a || !Opens(s.activities[a], act)) ensures SeatCovered(r, b, s.owed) {
        assert SeatCovered(s, b, s.owed);
        SettingsSeats(s, r, b);
      }
    }
  }

  lemma SameSettings(s: State, b: nat)
    requires Refs(s) && Settings(s) && Quotas(s) && b < |s.activities|
    ensures MayChange(s, b, s.activities[b])
  {
    assert SettingsOk(s.activities[b]) && Occupied(s, b) <= s.activities[b].quota;
  }

  /** An admissible change that opens no refill. */
  predicate Closes(s: State, a: nat, act: Activity)
    requires Refs(s) && a < |s.activities|
  {
    MayChange(s, a, act) && !Opens(s.activities[a], act)
  }

  lemma ModeChanges(s: State, a: nat, mode: Mode)
    requires Refs(s) && Settings(s) && Quotas(s)
    ensures var r := UpdateOfferMode(s, a, mode).after;
      r == s || (a < |s.activities| && Closes(s, a, s.activities[a].(mode := mode))
          && r == SetActivity(s, a, s.activities[a].(mode := mode)))
  {
    if a < |s.activities| {
      SameSettings(s, a);
    }
  }

  lemma ModeKeeps(s: State, a: nat, mode: Mode)
    requires Safe(s)
    ensures Safe(UpdateOfferMode(s, a, mode).after)
    ensures Seats(s) ==> Seats(UpdateOfferMode(s, a, mode).after)
  {
    ModeChanges(s, a, mode);
    if UpdateOfferMode(s, a, mode).after != s {
      OneChange(s, a, s.activities[a].(mode := mode));
    }
  }

  lemma DisableChanges(s: State, a: nat)
    requires Refs(s) && Settings(s) && Quotas(s)
    ensures var r := Disable(s, a).after;
      r == s || (a < |s.activities| && Closes(s, a, s.activities[a].(status := Disabled, paused := true))
          && r == SetActivity(s, a, s.activities[a].(status := Disabled, paused := true)))
  {
    if a < |s.activities| {
      SameSettings(s, a);
    }
  }

  lemma DisableKeeps(s: State, a: nat)
    requires Safe(s)
    ensures Safe(Disable(s, a).after)
    ensures Seats(s) ==> Seats(Disable(s, a).after)
  {
    DisableChanges(s, a);
    if Disable(s, a).after != s {
      OneChange(s, a, s.activities[a].(status := Disabled, paused := true));
    }
  }

  lemma ArchiveChanges(s: State, a: nat)
    requires Refs(s) && Settings(s) && Quotas(s)
    ensures var r := Archive(s, a).after;
      r == s || (a < |s.activities| && Closes(s, a, s.activities[a].(status := Archived))
          && r == SetActivity(s, a, s.activities[a].(status := Archived)))
  {
    if a < |s.activities| {
      SameSettings(s, a);
    }
  }

  lemma ArchiveKeeps(s: State, a: nat)
    requires Safe(s)
    ensures Safe(Archive(s, a).after)
    ensures Seats(s) ==> Seats(Archive(s, a).after)
  {
    ArchiveChanges(s, a);
    if Archive(s, a).after != s {
      OneChange(s, a, s.activities[a].(status := Archived));
    }
  }

  lemma PauseChanges(s: State, a: nat)
    requires Refs(s) && Settings(s) && Quotas(s)
    ensures var r := PauseRefill(s, a).after;
      r == s || (a < |s.activities| && Closes(s, a, s.activities[a].(paused := true))
          && r == SetActivity(s, a, s.activities[a].(paused := true)))
  {
    if a < |s.activities| {
      SameSettings(s, a);
    }
  }

  lemma PauseKeeps(s: State, a: nat)
    requires Safe(s)
    ensures Safe(PauseRefill(s, a).after)
    ensures Seats(s) ==> Seats(PauseRefill(s, a).after)
  {
    PauseChanges(s, a);
    if PauseRefill(s, a).after != s {
      OneChange(s, a, s.activities[a].(paused := true));
    }
  }

  lemma PauseAllKeeps(s: State)
    requires Safe(s)
    ensures Safe(PauseAllAutoRefills(s))
    ensures Seats(s) ==> Seats(PauseAllAutoRefills(s))
  {
    var r := PauseAllAutoRefills(s);
    forall b | 0 <= b < |s.activities| ensures MayChange(s, b, r.activities[b]) {
      SameSettings(s, b);
    }
    SettingsSafe(s, r);
    if Seats(s) {
      forall b | 0 <= b < |r.activities| ensures SeatCovered(r, b, r.owed) {
        assert SeatCovered(s, b, s.owed);
        SettingsSeats(s, r, b);
      }
    }
  }

  // ---------- intents and owed refills ----------

  lemma TablesSafe(s: State, r: State)
    requires Safe(s) && SameTables(s, r) && r.batches == s.batches && s.nextBatch <= r.nextBatch
    ensures Safe(r)
    ensures forall a: nat :: Occupied(r, a) == Occupied(s, a)
  {
    SameTablesKeep(s, r);
    BatchesKept(s, r);
  }

  lemma TablesSeats(s: State, r: State, a: nat)
    requires Refs(s) && Refs(r) && a < |s.activities| && SameTables(s, r) && SeatCovered(s, a, s.owed)
    requires s.intents <= r.intents && (a in s.owed ==> a in r.owed)
    ensures SeatCovered(r, a, r.owed)
  {
    SamePlaces(s, r, a);
    assert Queue(r, a) == Queue(s, a);
    IntentsGrow(s, r, a);
    CoverKept(s, r, a);
  }

  /** A raised quota of a started AUTO activity comes with an intent when refills are paused, with an owed refill
      otherwise. */
  lemma QuotaPromise(changed: State, a: nat)
    requires Refs(changed) && a < |changed.activities| && changed.activities[a].mode.Auto?
    requires forall b :: 0 <= b < |changed.activities| && b != a ==> SeatCovered(changed, b, changed.owed)
    ensures Seats(AddIntent(changed, a, QuotaIncrease, None)) && Seats(changed.(owed := changed.owed + {a}))
  {
    var noted, owing := AddIntent(changed, a, QuotaIncrease, None), changed.(owed := changed.owed + {a});
    IntentAdded(changed, a, QuotaIncrease, None);
    forall b | 0 <= b < |changed.activities| && b != a
      ensures SeatCovered(noted, b, noted.owed) && SeatCovered(owing, b, owing.owed)
    {
      TablesSeats(changed, noted, b);
      TablesSeats(changed, owing, b);
    }
  }

  /** The three ways a quota change commits. */
  lemma QuotaOutcome(s: State, a: nat, quota: int)
    requires Refs(s)
    ensures var r := UpdateQuota(s, a, quota).after;
      r == s
      || (a < |s.activities| && Occupied(s, a) <= quota && quota >= 1
          && var changed := SetActivity(s, a, s.activities[a].(quota := quota));
          || (r == changed && !Opens(s.activities[a], s.activities[a].(quota := quota)))
          || (s.activities[a].mode.Auto? && (r == AddIntent(changed, a, QuotaIncrease, None)
              || r == changed.(owed := changed.owed + {a}))))
  {
  }

  lemma QuotaKeeps(s: State, a: nat, quota: int)
    requires Safe(s)
    ensures Safe(UpdateQuota(s, a, quota).after)
    ensures Seats(s) ==> Seats(UpdateQuota(s, a, quota).after)
  {
    var r := UpdateQuota(s, a, quota).after;
    QuotaOutcome(s, a, quota);
    if r != s {
      SameSettings(s, a);
      OneChange(s, a, s.activities[a].(quota := quota));
      var changed := SetActivity(s, a, s.activities[a].(quota := quota));
      IntentAdded(changed, a, QuotaIncrease, None);
      TablesSafe(changed, r);
      if Seats(s) && s.activities[a].mode.Auto? {
        QuotaPromise(changed, a);
      }
    }
  }

  // ---------- filling ----------

  lemma {:induction false} FillLoopFrame(s: State, a: nat, room: nat, terms: Terms)
    requires Refs(s)
    ensures SameButStatus(s.applications, FillLoop(s, a, room, terms).applications)
    decreases Queue(s, a)
  {
    if room > 0 && Queue(s, a) != {} {
      var k := NextWaiting(s, a);
      TurnSteps(s, a, terms);
      FillLoopFrame(Turn(s, k, terms), a, if HasAccepted(s, k) then room else room - 1, terms);
    }
  }

  /** A filling touches applications and offers alone: it appends PENDING offers of its own terms for one activity. */
  predicate FilledOnly(s: State, r: State, a: nat, terms: Terms) {
    && Grown(s, r) && r == s.(applications := r.applications, offers := r.offers)
    && forall i :: |s.offers| <= i < |r.offers| ==>
         r.offers[i] == Offer(r.offers[i].application, OfferStatus.Pending, terms.source, terms.batch, terms.expiresAt)
         && ActOf(r, i) == a
  }

  ghost predicate SeatsRise(s: State, r: State)
    requires Refs(s) && Refs(r)
  {
    forall b: nat :: Occupied(s, b) <= Occupied(r, b) && Queue(r, b) <= Queue(s, b)
  }

  lemma FillGrown(s: State, a: nat, limit: nat, terms: Terms)
    requires Refs(s)
    ensures FilledOnly(s, Fill(s, a, limit, terms), a, terms)
  {
    if a < |s.activities| && s.activities[a].status.Active? && s.activities[a].frozen {
      var room := Room(s, a, limit);
      FillLoopFrame(s, a, room, terms);
      FillLoopStops(s, a, room, terms);
      FillLoopOffers(s, a, room, terms);
      WinnersWait(s, a, room);
      WonOffers(s, FillLoop(s, a, room, terms), a, Winners(s, a, room), terms);
    }
  }

  lemma WonOffers(s: State, r: State, a: nat, winners: seq<nat>, terms: Terms)
    requires Refs(s) && Refs(r) && SameButStatus(s.applications, r.applications)
    requires forall x :: x in winners ==> x in Queue(s, a)
    requires r == s.(applications := r.applications, offers := s.offers + OffersFor(winners, terms))
    ensures FilledOnly(s, r, a, terms)
  {
    forall i | |s.offers| <= i < |r.offers|
      ensures r.offers[i] ==
          Offer(r.offers[i].application, OfferStatus.Pending, terms.source, terms.batch, terms.expiresAt)
      ensures ActOf(r, i) == a
    {
      assert r.offers[i].application == winners[i - |s.offers|];
      assert winners[i - |s.offers|] in winners;
    }
  }

  lemma FillRises(s: State, a: nat, limit: nat, terms: Terms)
    requires Refs(s)
    ensures var r := Fill(s, a, limit, terms);
      SeatsRise(s, r) && r == s.(applications := r.applications, offers := r.offers)
  {
    if a < |s.activities| && s.activities[a].status.Active? && s.activities[a].frozen {
      FillLoopStops(s, a, Room(s, a, limit), terms);
    }
  }

  lemma FillSeats(s: State, a: nat, limit: nat, terms: Terms, b: nat)
    requires Refs(s) && b < |s.activities| && SeatCovered(s, b, s.owed)
    ensures SeatCovered(Fill(s, a, limit, terms), b, s.owed)
  {
    FillRises(s, a, limit, terms);
    IntentsGrow(s, Fill(s, a, limit, terms), b);
    CoverKept(s, Fill(s, a, limit, terms), b);
  }

  predicate Plain(terms: Terms) { terms.batch.None? && !terms.source.FromBatch? }

  lemma FillSafe(s: State, a: nat, limit: nat, terms: Terms)
    requires Safe(s) && Plain(terms)
    requires a < |s.activities| && s.activities[a].status.Active? && s.activities[a].frozen ==> MayFill(s, a, terms)
    ensures Safe(Fill(s, a, limit, terms))
  {
    FillKeeps(s, a, limit, terms);
    FillGrown(s, a, limit, terms);
    BatchesKept(s, Fill(s, a, limit, terms));
  }

  lemma RefillRises(s: State, a: nat, now: int)
    requires Refs(s)
    ensures var r := Refill(s, a, now); SeatsRise(s, r) && r == s.(applications := r.applications, offers := r.offers)
  {
    if a < |s.activities| && s.activities[a].mode.Auto? {
      FillRises(s, a, 0, AutoTerms(s, a, now));
    }
  }

  /** After a refill the activity is full or nobody waits for it, whatever it promised before. */
  lemma RefillCovers(s: State, a: nat, now: int)
    requires Refs(s) && a < |s.activities|
    ensures SeatCovered(Refill(s, a, now), a, {})
  {
    RefillRises(s, a, now);
    if MayRefill(s.activities[a]) {
      FillLoopStops(s, a, Room(s, a, 0), AutoTerms(s, a, now));
    }
  }

  /** A refill of one activity covers it by itself and leaves the others covered. */
  lemma RefillSeats(s: State, a: nat, now: int, b: nat)
    requires Refs(s) && b < |s.activities| && (b != a ==> SeatCovered(s, b, s.owed))
    ensures SeatCovered(Refill(s, a, now), b, if b == a then {} else s.owed)
  {
    if b == a {
      RefillCovers(s, a, now);
    } else {
      RefillRises(s, a, now);
      IntentsGrow(s, Refill(s, a, now), b);
      CoverKept(s, Refill(s, a, now), b);
    }
  }

  lemma RefillSafe(s: State, a: nat, now: int)
    requires Safe(s)
    ensures Safe(Refill(s, a, now))
  {
    if a < |s.activities| && s.activities[a].mode.Auto? {
      FillSafe(s, a, 0, AutoTerms(s, a, now));
    }
  }

  lemma QuotaRefillSafe(s: State, a: nat, fillWorks: bool, intentWorks: bool, now: int)
    requires Safe(s)
    ensures Safe(QuotaRefill(s, a, fillWorks, intentWorks, now))
  {
    if a in s.owed && a < |s.activities| {
      var settled := s.(owed := s.owed - {a});
      TablesSafe(s, settled);
      if fillWorks {
        RefillSafe(settled, a, now);
      } else if intentWorks {
        IntentAdded(settled, a, QuotaIncrease, None);
        TablesSafe(settled, AddIntent(settled, a, QuotaIncrease, None));
      }
    }
  }

  /** The refill owed after a quota increase redeems the promise, by offers or by an intent. */
  lemma QuotaRefillSeats(s: State, a: nat, fillWorks: bool, intentWorks: bool, now: int, b: nat)
    requires (fillWorks || intentWorks) && Refs(s)
    requires a in s.owed && a < |s.activities| && b < |s.activities| && SeatCovered(s, b, s.owed)
    ensures SeatCovered(QuotaRefill(s, a, fillWorks, intentWorks, now), b, s.owed - {a})
  {
    var settled := s.(owed := s.owed - {a});
    SamePlaces(s, settled, b);
    assert Queue(settled, b) == Queue(s, b);
    IntentsGrow(s, settled, b);
    assert b != a ==> SeatCovered(settled, b, settled.owed);
    if fillWorks {
      RefillSeats(settled, a, now, b);
    } else {
      IntentAdded(settled, a, QuotaIncrease, None);
      if b != a {
        TablesSeats(settled, AddIntent(settled, a, QuotaIncrease, None), b);
      }
    }
  }

  lemma QuotaRefillKeeps(s: State, a: nat, fillWorks: bool, intentWorks: bool, now: int)
    requires Safe(s)
    ensures Safe(QuotaRefill(s, a, fillWorks, intentWorks, now))
    ensures Seats(s) && (fillWorks || intentWorks) ==> Seats(QuotaRefill(s, a, fillWorks, intentWorks, now))
  {
    QuotaRefillSafe(s, a, fillWorks, intentWorks, now);
    if Seats(s) && (fillWorks || intentWorks) && a in s.owed && a < |s.activities| {
      RefillRises(s.(owed := s.owed - {a}), a, now);
      forall b | 0 <= b < |s.activities|
        ensures SeatCovered(QuotaRefill(s, a, fillWorks, intentWorks, now), b, s.owed - {a})
      {
        assert SeatCovered(s, b, s.owed);
        QuotaRefillSeats(s, a, fillWorks, intentWorks, now, b);
      }
    }
  }

  // ---------- starting, resuming, executing ----------

  lemma CloseIntentsOf(s: State, a: nat, b: nat)
    requires b != a && HasIntent(s, b)
    ensures HasIntent(CloseIntents(s, a), b)
  {
    var j :| 0 <= j < |s.intents| && s.intents[j].activity == b && s.intents[j].pending;
    assert CloseIntents(s, a).intents[j] == s.intents[j];
  }

  /** The intents a refill has served may be closed: what they promised is done. */
  lemma ServedSeats(s: State, a: nat, b: nat)
    requires Refs(s) && SeatCovered(s, b, if b == a then {} else s.owed) && (b == a ==>
        !HasIntent(s, a) || Served(s, a))
    ensures SeatCovered(CloseIntents(s, a), b, s.owed)
  {
    var r := CloseIntents(s, a);
    SamePlaces(s, r, b);
    assert Queue(r, b) == Queue(s, b);
    if b != a && HasIntent(s, b) {
      CloseIntentsOf(s, a, b);
    }
  }

  /** The activity does not refill, is full, or has nobody waiting. */
  predicate Served(s: State, a: nat)
    requires Refs(s)
  {
    a < |s.activities| && MayRefill(s.activities[a]) ==> Occupied(s, a) >= s.activities[a].quota || Queue(s, a) == {}
  }

  lemma RefillServes(s: State, a: nat, now: int)
    requires Refs(s)
    ensures Served(Refill(s, a, now), a)
  {
    RefillRises(s, a, now);
    if a < |s.activities| && MayRefill(s.activities[a]) {
      FillLoopStops(s, a, Room(s, a, 0), AutoTerms(s, a, now));
    }
  }

  lemma RefillDone(s: State, a: nat, now: int)
    requires Safe(s)
    ensures Safe(Refill(s, a, now)) && Safe(CloseIntents(Refill(s, a, now), a))
    ensures (forall b :: 0 <= b < |s.activities| && b != a ==> SeatCovered(s, b, s.owed)) ==>
      Seats(Refill(s, a, now)) && Seats(CloseIntents(Refill(s, a, now), a))
  {
    var r := Refill(s, a, now);
    RefillSafe(s, a, now);
    RefillRises(s, a, now);
    TablesSafe(r, CloseIntents(r, a));
    if forall b :: 0 <= b < |s.activities| && b != a ==> SeatCovered(s, b, s.owed) {
      forall b | 0 <= b < |s.activities|
        ensures SeatCovered(r, b, r.owed) && SeatCovered(CloseIntents(r, a), b, r.owed)
      {
        RefillSeats(s, a, now, b);
        RefillServes(s, a, now);
        ServedSeats(r, a, b);
      }
    }
  }

  lemma ReplenishKeeps(s: State, a: nat, now: int)
    requires Safe(s)
    ensures Safe(Refill(s, a, now))
    ensures Seats(s) ==> Seats(Refill(s, a, now))
  {
    RefillDone(s, a, now);
  }

  lemma StartOutcome(s: State, a: nat, hasOwner: bool, smtpReady: bool, now: int)
    requires Refs(s) && Settings(s) && Quotas(s)
    ensures var r := StartAdmission(s, a, hasOwner, smtpReady, now).after;
      r == s
      || (a < |s.activities| && var act := s.activities[a].(frozen := true, startedAt := Some(now));
          MayChange(s, a, act) && r == Refill(SetActivity(s, a, act), a, now))
  {
    if a < |s.activities| {
      assert SettingsOk(s.activities[a]) && Occupied(s, a) <= s.activities[a].quota;
    }
  }

  lemma StartKeeps(s: State, a: nat, hasOwner: bool, smtpReady: bool, now: int)
    requires Safe(s)
    ensures Safe(StartAdmission(s, a, hasOwner, smtpReady, now).after)
    ensures Seats(s) ==> Seats(StartAdmission(s, a, hasOwner, smtpReady, now).after)
  {
    StartOutcome(s, a, hasOwner, smtpReady, now);
    if StartAdmission(s, a, hasOwner, smtpReady, now).after != s {
      var act := s.activities[a].(frozen := true, startedAt := Some(now));
      OneChange(s, a, act);
      RefillDone(SetActivity(s, a, act), a, now);
    }
  }

  lemma ExecuteKeeps(s: State, a: nat, now: int)
    requires Safe(s)
    ensures Safe(ExecuteOne(s, a, now))
    ensures Seats(s) ==> Seats(ExecuteOne(s, a, now))
  {
    RefillDone(s, a, now);
  }

  lemma SettleKeeps(s: State, a: nat, now: int)
    requires Safe(s)
    ensures Safe(SettleActivity(s, a, now))
    ensures Seats(s) ==> Seats(SettleActivity(s, a, now))
  {
    var due := Sorted(LockKeys(s), DueIn(s, a, now));
    forall j | 0 <= j < |due| ensures due[j] < |s.offers| {
      assert due[j] in DueIn(s, a, now);
    }
    CloseAllSafe(s, due, OfferStatus.Expired, Reason.OfferExpired);
  }

  lemma SettleGroupKeeps(s: State, a: nat, ids: seq<nat>, now: int)
    requires Safe(s)
    ensures Safe(SettleGroup(s, a, ids, now))
    ensures Seats(s) ==> Seats(SettleGroup(s, a, ids, now))
  {
    CloseAllSafe(s, StillDue(s, a, ids, now), OfferStatus.Expired, Reason.OfferExpired);
  }

  lemma ResumeOutcome(s: State, a: nat, now: int)
    requires Refs(s)
    ensures var r := ResumeRefill(s, a, now).after;
      r == s
      || (a < |s.activities| && s.activities[a].status.Active?
          && r == CloseIntents(Refill(
                  SetActivity(SettleActivity(s, a, now), a, s.activities[a].(paused := false)), a, now), a))
  {
  }

  lemma ResumeKeeps(s: State, a: nat, now: int)
    requires Safe(s)
    ensures Safe(ResumeRefill(s, a, now).after)
    ensures Seats(s) ==> Seats(ResumeRefill(s, a, now).after)
  {
    ResumeOutcome(s, a, now);
    if ResumeRefill(s, a, now).after != s {
      var settled := SettleActivity(s, a, now);
      SettleKeeps(s, a, now);
      SameSettings(settled, a);
      OneChange(settled, a, s.activities[a].(paused := false));
      RefillDone(SetActivity(settled, a, s.activities[a].(paused := false)), a, now);
    }
  }

  /** A disabled activity is always paused, so re-activating it opens no refill. */
  lemma ActivateChanges(s: State, a: nat, now: int)
    requires Refs(s) && Settings(s) && Quotas(s)
    ensures var r := Activate(s, a, now).after;
      r == s
      || (a < |s.activities| && Closes(s, a, s.activities[a].(status := Active))
          && r == SettleActivity(SetActivity(s, a, s.activities[a].(status := Active)), a, now))
  {
    if a < |s.activities| {
      SameSettings(s, a);
    }
  }

  lemma ActivateKeeps(s: State, a: nat, now: int)
    requires Safe(s)
    ensures Safe(Activate(s, a, now).after)
    ensures Seats(s) ==> Seats(Activate(s, a, now).after)
  {
    ActivateChanges(s, a, now);
    if Activate(s, a, now).after != s {
      OneChange(s, a, s.activities[a].(status := Active));
      SettleKeeps(SetActivity(s, a, s.activities[a].(status := Active)), a, now);
    }
  }

  lemma AbandonSafe(s: State, a: nat)
    requires Safe(s)
    ensures Safe(Abandon(s, a))
  {
    TablesSafe(s, Abandon(s, a));
  }

  // ---------- issuing by hand ----------

  lemma IssueSafe(s: State, k: nat, terms: Terms)
    requires Safe(s) && MayIssue(s, k, terms) && Plain(terms)
    ensures Safe(Issue(s, k, terms))
    ensures Seats(s) ==> Seats(Issue(s, k, terms))
  {
    IssueKeeps(s, k, terms);
    IssueGrown(s, k, terms);
    BatchesKept(s, Issue(s, k, terms));
    if Seats(s) {
      forall b | 0 <= b < |s.activities| ensures SeatCovered(Issue(s, k, terms), b, s.owed) {
        assert SeatCovered(s, b, s.owed);
        IssueCovers(s, k, terms, b);
      }
    }
  }

  lemma IssueGrown(s: State, k: nat, terms: Terms)
    requires Refs(s) && k < |s.applications| && Plain(terms)
    ensures Grown(s, Issue(s, k, terms)) && Unbatched(Issue(s, k, terms).offers, |s.offers|)
  {
  }

  lemma IssueCovers(s: State, k: nat, terms: Terms, b: nat)
    requires Refs(s) && k < |s.applications| && b < |s.activities| && SeatCovered(s, b, s.owed)
    ensures SeatCovered(Issue(s, k, terms), b, s.owed)
  {
    var r := Issue(s, k, terms);
    IssueSeats(s, k, terms, b);
    IntentsGrow(s, r, b);
    CoverKept(s, r, b);
  }

  lemma ManualOutcome(s: State, a: nat, k: nat, smtpReady: bool, now: int)
    requires Refs(s)
    ensures var r := IssueManual(s, a, k, smtpReady, now).after;
      r == s
      || (a < |s.activities| && var terms := Terms(FromManual, None, Deadline(s.activities[a], now));
          MayIssue(s, k, terms) && r == Issue(s, k, terms))
  {
  }

  lemma ManualKeeps(s: State, a: nat, k: nat, smtpReady: bool, now: int)
    requires Safe(s)
    ensures Safe(IssueManual(s, a, k, smtpReady, now).after)
    ensures Seats(s) ==> Seats(IssueManual(s, a, k, smtpReady, now).after)
  {
    ManualOutcome(s, a, k, smtpReady, now);
    if IssueManual(s, a, k, smtpReady, now).after != s {
      IssueSafe(s, k, Terms(FromManual, None, Deadline(s.activities[a], now)));
    }
  }

  lemma SpecialOutcome(s: State, a: nat, k: nat, reasonGiven: bool, smtpReady: bool, now: int)
    requires Refs(s)
    ensures var r := IssueSpecial(s, a, k, reasonGiven, smtpReady, now).after;
      r == s
      || (a < |s.activities| && var terms := Terms(Special, None, Deadline(s.activities[a], now));
          MayIssue(s, k, terms) && r == Issue(s, k, terms))
  {
  }

  lemma SpecialKeeps(s: State, a: nat, k: nat, reasonGiven: bool, smtpReady: bool, now: int)
    requires Safe(s)
    ensures Safe(IssueSpecial(s, a, k, reasonGiven, smtpReady, now).after)
    ensures Seats(s) ==> Seats(IssueSpecial(s, a, k, reasonGiven, smtpReady, now).after)
  {
    SpecialOutcome(s, a, k, reasonGiven, smtpReady, now);
    if IssueSpecial(s, a, k, reasonGiven, smtpReady, now).after != s {
      IssueSafe(s, k, Terms(Special, None, Deadline(s.activities[a], now)));
    }
  }

  // ---------- accepting and declining ----------

  /** The linkage reaches every PENDING offer of the candidate. */
  lemma LinksClean(s: State, c: nat)
    requires Core(s) && CleanBut(s, c)
    ensures var r := CloseAll(s, Links(s, c), OfferStatus.Declined, CrossActivityDecline); Core(r) && Clean(r)
  {
    CloseAllKeeps(s, Links(s, c), OfferStatus.Declined, CrossActivityDecline, c);
    LinksClosed(s, c);
  }

  lemma LinksClosed(s: State, c: nat)
    requires Refs(s)
    ensures var r := CloseAll(s, Links(s, c), OfferStatus.Declined, CrossActivityDecline);
      CleanBut(r, c) ==> Clean(r)
  {
    var links := Links(s, c);
    var r := CloseAll(s, links, OfferStatus.Declined, CrossActivityDecline);
    CloseAllGrown(s, links, OfferStatus.Declined, CrossActivityDecline);
    CloseAllExact(s, links, OfferStatus.Declined, CrossActivityDecline);
    forall i | 0 <= i < |r.offers| && r.offers[i].status.Pending? ensures CandOf(r, i) != c {
      assert r.offers[i] == s.offers[i].(status := r.offers[i].status) && CandOf(r, i) == CandOf(s, i);
      assert i in PendingFor(s, c) ==> i in links;
    }
  }

  lemma TakeGrown(s: State, i: nat)
    requires Refs(s) && i < |s.offers|
    ensures Grown(s, Take(s, i))
  {
  }

  lemma TakeSeats(s: State, i: nat, a: nat)
    requires Refs(s) && Statuses(s) && i < |s.offers| && s.offers[i].status.Pending?
    requires a < |s.activities| && SeatCovered(s, a, s.owed)
    ensures SeatCovered(Take(s, i), a, s.owed)
  {
    var r := Take(s, i);
    ShutSeats(s, i, OfferStatus.Accepted, a);
    assert Occupying(r, a) == Occupying(Shut(s, i, OfferStatus.Accepted), a);
    assert StatusFits(s, s.offers[i].application);
    assert Queue(r, a) <= Queue(s, a);
    IntentsGrow(s, r, a);
    CoverKept(s, r, a);
  }

  /** An acceptance and the linkage behind it. */
  function Accepting(s: State, o: nat): (r: State)
    requires Refs(s) && o < |s.offers|
    ensures Refs(r)
  {
    CloseAll(Take(s, o), Links(Take(s, o), CandOf(s, o)), OfferStatus.Declined, CrossActivityDecline)
  }

  /** An acceptance declines exactly the candidate's other PENDING offers, in every activity whatever its status. */
  lemma LinkageIsExact(s: State, o: nat, i: nat)
    requires Refs(s) && o < |s.offers| && s.offers[o].status.Pending? && i < |s.offers|
    ensures var r := Accepting(s, o);
      |r.offers| == |s.offers|
      && r.offers[i] == if i == o then s.offers[i].(status := OfferStatus.Accepted)
                        else if s.offers[i].status.Pending? && CandOf(s, i) == CandOf(s, o)
                        then s.offers[i].(status := OfferStatus.Declined)
                        else s.offers[i]
  {
    var taken, c := Take(s, o), CandOf(s, o);
    var links := Links(taken, c);
    TakeGrown(s, o);
    CloseAllExact(taken, links, OfferStatus.Declined, CrossActivityDecline);
    assert i in links <==> i in PendingFor(taken, c);
    assert CandOf(taken, i) == CandOf(s, i);
  }

  lemma AcceptingKeeps(s: State, o: nat)
    requires Safe(s) && o < |s.offers| && s.offers[o].status.Pending? && s.candidates[CandOf(s, o)].acceptedOffer.None?
    ensures Safe(Accepting(s, o))
    ensures Seats(s) ==> Seats(Accepting(s, o))
  {
    var taken, c := Take(s, o), CandOf(s, o);
    TakeKeeps(s, o);
    LinksClean(taken, c);
    TakeGrown(s, o);
    BatchesKept(s, taken);
    CloseAllBatches(taken, Links(taken, c), OfferStatus.Declined, CrossActivityDecline);
    if Seats(s) {
      forall a | 0 <= a < |taken.activities| ensures SeatCovered(taken, a, taken.owed) {
        assert SeatCovered(s, a, s.owed);
        TakeSeats(s, o, a);
      }
      CloseAllSeats(taken, Links(taken, c), OfferStatus.Declined, CrossActivityDecline, c);
    }
  }

  lemma AcceptOpen(s: State, o: nat, now: int)
    requires Refs(s) && o < |s.offers| && s.offers[o].status.Pending? && s.activities[ActOf(s, o)].status.Active?
    requires s.candidates[CandOf(s, o)].acceptedOffer.None? && AppOf(s, o).status.Offered?
    ensures var r, late := AcceptTx(s, o, now), s.offers[o].expiresAt <= now;
      && r.after == (if late then CloseOne(s, o, OfferStatus.Expired, Reason.OfferExpired) else Accepting(s, o))
      && (r.reply.AcceptedNow? <==> !late) && (late ==> r.reply == Failed(Error.OfferExpired))
  {
  }

  lemma AcceptClosed(s: State, o: nat, now: int)
    requires Refs(s)
    requires o < |s.offers| ==> !s.offers[o].status.Pending? || !s.activities[ActOf(s, o)].status.Active?
    ensures AcceptTx(s, o, now).after == s && !AcceptTx(s, o, now).reply.AcceptedNow?
  {
  }

  /** The ways an acceptance commits. The branches of an already set column are dead: a candidate who has accepted
      holds no PENDING offer. The guarded update of the application cannot miss either. */
  lemma AcceptOutcome(s: State, o: nat, now: int)
    requires Refs(s) && Statuses(s) && Clean(s)
    ensures var r := AcceptTx(s, o, now);
      || (r.after == s && !r.reply.AcceptedNow?)
      || (o < |s.offers| && s.offers[o].status.Pending? && s.candidates[CandOf(s, o)].acceptedOffer.None?
          && var late := s.offers[o].expiresAt <= now;
             r.after == (if late then CloseOne(s, o, OfferStatus.Expired, Reason.OfferExpired) else Accepting(s, o))
             && (r.reply.AcceptedNow? <==> !late) && (late ==> r.reply == Failed(Error.OfferExpired)))
  {
    if o < |s.offers| && s.offers[o].status.Pending? && s.activities[ActOf(s, o)].status.Active? {
      assert Newest(s, s.offers[o].application) == o;
      assert StatusFits(s, s.offers[o].application);
      AcceptOpen(s, o, now);
    } else {
      AcceptClosed(s, o, now);
    }
  }

  lemma AcceptKeeps(s: State, o: nat, now: int)
    requires Safe(s)
    ensures Safe(AcceptTx(s, o, now).after)
    ensures Seats(s) ==> Seats(AcceptTx(s, o, now).after)
  {
    AcceptOutcome(s, o, now);
    if AcceptTx(s, o, now).after != s {
      if s.offers[o].expiresAt <= now {
        CloseOneSafe(s, o, OfferStatus.Expired, Reason.OfferExpired);
      } else {
        AcceptingKeeps(s, o);
      }
    }
  }

  lemma DeclineOutcome(s: State, o: nat, now: int)
    requires Refs(s) && Statuses(s)
    ensures var r := DeclineTx(s, o, now);
      || (r.after == s && !r.reply.DeclinedNow?)
      || (o < |s.offers| && s.offers[o].status.Pending? && now < s.offers[o].expiresAt && r.reply.DeclinedNow?
          && r.after == CloseOne(s, o, OfferStatus.Declined, Reason.OfferDeclined))
  {
  }

  lemma DeclineKeeps(s: State, o: nat, now: int)
    requires Safe(s)
    ensures Safe(DeclineTx(s, o, now).after)
    ensures Seats(s) ==> Seats(DeclineTx(s, o, now).after)
  {
    DeclineOutcome(s, o, now);
    if DeclineTx(s, o, now).after != s {
      CloseOneSafe(s, o, OfferStatus.Declined, Reason.OfferDeclined);
    }
  }

  // ---------- batches ----------

  lemma {:induction false} CountBatchesPrefix(rows: seq<BatchRow>, more: seq<BatchRow>, n: nat, a: nat)
    requires n <= |rows| && rows <= more
    ensures CountBatches(more, n, a) == CountBatches(rows, n, a)
  {
    if n > 0 {
      CountBatchesPrefix(rows, more, n - 1, a);
    }
  }

  /** The next batch number is one more than the number of batches. */
  lemma {:induction false} MaxBatchIsCount(rows: seq<BatchRow>, n: nat, a: nat)
    requires n <= |rows| && Numbered(rows)
    ensures MaxBatchNo(rows, n, a) == CountBatches(rows, n, a)
  {
    if n > 0 {
      MaxBatchIsCount(rows, n - 1, a);
    }
  }

  /** The offers linked to a batch among the first `n`. */
  function LinkedAmong(offers: seq<Offer>, n: nat, id: nat): set<nat>
    requires n <= |offers|
  {
    set i | 0 <= i < n && offers[i].batch == Some(id)
  }

  lemma {:induction false} LinkedTail(offers: seq<Offer>, m: nat, n: nat, id: nat)
    requires m <= n <= |offers|
    requires forall i :: 0 <= i < n ==> (offers[i].batch == Some(id) <==> m <= i)
    ensures |LinkedAmong(offers, n, id)| == n - m
  {
    if m < n {
      LinkedTail(offers, m, n - 1, id);
      GainsOne(LinkedAmong(offers, n - 1, id), LinkedAmong(offers, n, id), n - 1, true);
    } else {
      assert LinkedAmong(offers, n, id) == {};
    }
  }

  /** A batch that reached somebody: its offers are the ones appended since, and its record counts them. */
  predicate Batched(s: State, r: State, a: nat, id: nat) {
    && Grown(s, r) && s.nextBatch == id < r.nextBatch && |s.offers| < |r.offers|
    && (forall i :: |s.offers| <= i < |r.offers| ==>
          r.offers[i].batch == Some(id) && r.offers[i].source.FromBatch? && ActOf(r, i) == a)
    && r.batches == s.batches + [BatchRow(id, a, MaxBatchNo(s.batches, |s.batches|, a) + 1, |r.offers| - |s.offers|)]
  }

  lemma BatchedSizes(s: State, r: State, a: nat, id: nat)
    requires Batched(s, r, a, id) && BatchIds(s) && BatchSizes(s) && BatchLinks(s)
    ensures BatchSizes(r)
  {
    forall i | 0 <= i < |r.offers| ensures r.offers[i].batch == Some(id) <==> |s.offers| <= i {
      if i < |s.offers| {
        assert BatchLinked(s, i);
        assert r.offers[i].batch == s.offers[i].batch;
      }
    }
    LinkedTail(r.offers, |s.offers|, |r.offers|, id);
    assert Linked(r, id) == LinkedAmong(r.offers, |r.offers|, id);
    forall j | 0 <= j < |s.batches| ensures Linked(r, s.batches[j].id) == Linked(s, s.batches[j].id) {
    }
  }

  lemma BatchedNumbers(rows: seq<BatchRow>, row: BatchRow)
    requires Numbered(rows) && row.no == MaxBatchNo(rows, |rows|, row.activity) + 1
    ensures Numbered(rows + [row])
  {
    var more := rows + [row];
    MaxBatchIsCount(rows, |rows|, row.activity);
    forall j | 0 <= j < |more| ensures more[j].no == CountBatches(more, j, more[j].activity) + 1 {
      CountBatchesPrefix(rows, more, j, more[j].activity);
    }
  }

  lemma BatchedLinks(s: State, r: State, a: nat, id: nat)
    requires Batched(s, r, a, id) && BatchLinks(s)
    ensures BatchLinks(r)
  {
    forall i | 0 <= i < |r.offers| ensures BatchLinked(r, i) {
      if i < |s.offers| {
        assert BatchLinked(s, i);
        assert r.offers[i] == s.offers[i].(status := r.offers[i].status);
        if s.offers[i].batch.Some? {
          var j :| 0 <= j < |s.batches| && s.batches[j].id == s.offers[i].batch.value
              && s.batches[j].activity == ActOf(s, i);
          assert r.batches[j] == s.batches[j];
        }
      } else {
        assert r.batches[|s.batches|].id == id;
      }
    }
  }

  lemma BatchedKeeps(s: State, r: State, a: nat, id: nat)
    requires Batched(s, r, a, id) && Batches(s)
    ensures Batches(r)
  {
    BatchedSizes(s, r, a, id);
    BatchedNumbers(s.batches, r.batches[|s.batches|]);
    BatchedLinks(s, r, a, id);
    assert BatchIds(r);
  }

  function BatchTerms(s: State, a: nat, now: int): Terms
    requires a < |s.activities|
  {
    Terms(FromBatch, Some(s.nextBatch), Deadline(s.activities[a], now))
  }

  /** The state after the issuing loop of a batch, its row still missing. */
  function BatchFilled(s: State, a: nat, size: nat, now: int): (r: State)
    requires Refs(s) && a < |s.activities|
    ensures Refs(r)
  {
    Fill(s.(nextBatch := s.nextBatch + 1), a, size, BatchTerms(s, a, now))
  }

  /** The batch row stays only when somebody was reached. */
  function BatchRecorded(s: State, filled: State, a: nat): State {
    if |filled.offers| <= |s.offers| then filled
    else
      var row := BatchRow(s.nextBatch, a, MaxBatchNo(s.batches, |s.batches|, a) + 1, |filled.offers| - |s.offers|);
      filled.(batches := s.batches + [row])
  }

  predicate BatchGates(s: State, a: nat, limit: nat, platformDefault: int, smtpReady: bool)
    requires Refs(s)
  {
    && limit <= 1000 && a < |s.activities| && s.activities[a].status.Active?
    && s.activities[a].frozen && s.activities[a].mode.Batch?
    && BatchLimit(s.activities[a], limit, platformDefault) > 0 && smtpReady && Occupied(s, a) < s.activities[a].quota
  }

  lemma BatchRefused(s: State, a: nat, limit: nat, platformDefault: int, smtpReady: bool, now: int)
    requires Refs(s) && !BatchGates(s, a, limit, platformDefault, smtpReady)
    ensures IssueBatch(s, a, limit, platformDefault, smtpReady, now).after == s
  {
  }

  lemma BatchRuns(s: State, a: nat, limit: nat, platformDefault: int, smtpReady: bool, now: int)
    requires Refs(s) && BatchGates(s, a, limit, platformDefault, smtpReady)
    ensures IssueBatch(s, a, limit, platformDefault, smtpReady, now).after
            == BatchRecorded(s, BatchFilled(s, a, BatchLimit(s.activities[a], limit, platformDefault), now), a)
  {
    FillGrown(s.(nextBatch := s.nextBatch + 1), a, BatchLimit(s.activities[a], limit, platformDefault),
        BatchTerms(s, a, now));
  }

  lemma BatchOutcome(s: State, a: nat, limit: nat, platformDefault: int, smtpReady: bool, now: int)
    requires Refs(s)
    ensures var r := IssueBatch(s, a, limit, platformDefault, smtpReady, now).after;
      r == s
      || (a < |s.activities| && MayFill(s, a, BatchTerms(s, a, now))
          && BatchLimit(s.activities[a], limit, platformDefault) > 0
          && r == BatchRecorded(s, BatchFilled(s, a, BatchLimit(s.activities[a], limit, platformDefault), now), a))
  {
    if BatchGates(s, a, limit, platformDefault, smtpReady) {
      BatchRuns(s, a, limit, platformDefault, smtpReady, now);
    } else {
      BatchRefused(s, a, limit, platformDefault, smtpReady, now);
    }
  }

  lemma FillLater(s: State, open: State, a: nat, limit: nat, terms: Terms)
    requires Core(s) && Clean(s) && SameTables(s, open) && MayFill(open, a, terms)
    ensures Core(Fill(open, a, limit, terms)) && Clean(Fill(open, a, limit, terms))
  {
    SameTablesKeep(s, open);
    FillKeeps(open, a, limit, terms);
  }

  lemma BatchFilledIs(s: State, open: State, a: nat, size: nat, now: int)
    requires Refs(s) && a < |s.activities| && open == s.(nextBatch := s.nextBatch + 1)
    ensures BatchFilled(s, a, size, now) == Fill(open, a, size, BatchTerms(s, a, now))
  {
  }

  lemma BatchFillKeeps(s: State, open: State, a: nat, size: nat, now: int)
    requires Core(s) && Clean(s) && a < |s.activities| && MayFill(s, a, BatchTerms(s, a, now))
    requires open == s.(nextBatch := s.nextBatch + 1)
    ensures Core(Fill(open, a, size, BatchTerms(s, a, now))) && Clean(Fill(open, a, size, BatchTerms(s, a, now)))
  {
    FillLater(s, open, a, size, BatchTerms(s, a, now));
  }

  lemma BatchFillSeats(s: State, a: nat, size: nat, now: int)
    requires Refs(s) && Seats(s) && a < |s.activities|
    ensures Seats(BatchFilled(s, a, size, now))
  {
    var open := s.(nextBatch := s.nextBatch + 1);
    FillRises(open, a, size, BatchTerms(s, a, now));
    forall b | 0 <= b < |s.activities| ensures SeatCovered(BatchFilled(s, a, size, now), b, s.owed) {
      assert SeatCovered(s, b, s.owed);
      TablesSeats(s, open, b);
      FillSeats(open, a, size, BatchTerms(s, a, now), b);
    }
  }

  lemma BatchRecordKeeps(s: State, a: nat, size: nat, now: int)
    requires Refs(s) && Batches(s) && a < |s.activities|
    ensures Batches(BatchRecorded(s, BatchFilled(s, a, size, now), a))
  {
    var open, filled := s.(nextBatch := s.nextBatch + 1), BatchFilled(s, a, size, now);
    FillGrown(open, a, size, BatchTerms(s, a, now));
    if |filled.offers| <= |s.offers| {
      BatchesKept(s, filled);
    } else {
      BatchedKeeps(s, BatchRecorded(s, filled, a), a, s.nextBatch);
    }
  }

  lemma BatchSafe(s: State, a: nat, size: nat, now: int)
    requires Safe(s) && a < |s.activities| && MayFill(s, a, BatchTerms(s, a, now))
    ensures Safe(BatchRecorded(s, BatchFilled(s, a, size, now), a))
  {
    var open, filled := s.(nextBatch := s.nextBatch + 1), BatchFilled(s, a, size, now);
    BatchFilledIs(s, open, a, size, now);
    BatchFillKeeps(s, open, a, size, now);
    BatchRowOnly(filled, BatchRecorded(s, filled, a));
    BatchRecordKeeps(s, a, size, now);
  }

  lemma BatchSeats(s: State, a: nat, size: nat, now: int)
    requires Refs(s) && Seats(s) && a < |s.activities|
    ensures Refs(BatchRecorded(s, BatchFilled(s, a, size, now), a))
    ensures Seats(BatchRecorded(s, BatchFilled(s, a, size, now), a))
  {
    var filled := BatchFilled(s, a, size, now);
    var r := BatchRecorded(s, filled, a);
    BatchFillSeats(s, a, size, now);
    forall b | 0 <= b < |r.activities| ensures SeatCovered(r, b, r.owed) {
      assert SeatCovered(filled, b, filled.owed);
      TablesSeats(filled, r, b);
    }
  }

  lemma BatchKeeps(s: State, a: nat, limit: nat, platformDefault: int, smtpReady: bool, now: int)
    requires Safe(s)
    ensures Safe(IssueBatch(s, a, limit, platformDefault, smtpReady, now).after)
    ensures Seats(s) ==> Seats(IssueBatch(s, a, limit, platformDefault, smtpReady, now).after)
  {
    BatchOutcome(s, a, limit, platformDefault, smtpReady, now);
    if IssueBatch(s, a, limit, platformDefault, smtpReady, now).after != s {
      var size := BatchLimit(s.activities[a], limit, platformDefault);
      BatchSafe(s, a, size, now);
      if Seats(s) {
        BatchSeats(s, a, size, now);
      }
    }
  }

  lemma BatchRowOnly(s: State, r: State)
    requires Core(s) && Clean(s) && (r == s.(batches := r.batches))
    ensures Core(r) && Clean(r)
  {
    SameTablesKeep(s, r);
  }

  // ---------- creating an activity ----------

  predicate Newborn(act: Activity) { SettingsOk(act) && act.status.Active? && !act.frozen && !act.dirty }

  function WithActivity(s: State, act: Activity): (r: State)
    ensures Refs(s) ==> Refs(r)
  {
    s.(activities := s.activities + [act])
  }

  lemma CreateStatic(s: State, act: Activity)
    requires Refs(s) && Static(s) && Newborn(act)
    ensures Static(WithActivity(s, act))
  {
    var r := WithActivity(s, act);
    forall a | 0 <= a < |r.activities| && !r.activities[a].dirty ensures Ranking(r, a) {
      assert AppsOf(r, a) == AppsOf(s, a);
      if a < |s.activities| {
        assert Ranking(s, a);
      } else {
        assert AppsOf(s, a) == {};
      }
    }
  }

  lemma CreateStatuses(s: State, act: Activity)
    requires Refs(s) && Statuses(s) && Fair(s) && History(s)
    ensures var r := WithActivity(s, act); Statuses(r) && Fair(r) && History(r)
  {
    var r := WithActivity(s, act);
    NewestKept(s, r);
    forall k | 0 <= k < |r.applications| ensures StatusFits(r, k) {
      assert StatusFits(s, k);
    }
    forall x, y | 0 <= x < |r.applications| && 0 <= y < |r.applications| ensures FairPair(r, x, y) {
      assert FairPair(s, x, y);
    }
    forall i | 0 <= i < |r.offers| ensures SourceFits(r, i) && r.activities[ActOf(r, i)].frozen {
      assert SourceFits(s, i) && s.activities[ActOf(s, i)].frozen;
    }
  }

  lemma CreatePointers(s: State, act: Activity)
    requires Refs(s) && Pointers(s) && Phases(s) && Clean(s)
    ensures var r := WithActivity(s, act); Pointers(r) && Phases(r) && Clean(r)
  {
  }

  lemma CreateCounts(s: State, act: Activity, a: nat)
    requires Refs(s) && (a < |s.activities| ==> BooksOf(s, a))
    ensures var r := WithActivity(s, act); Occupied(r, a) == Occupied(s, a) && (a <= |s.activities| ==> BooksOf(r, a))
    ensures a >= |s.activities| ==> Occupied(s, a) == 0
  {
    var r := WithActivity(s, act);
    SamePlaces(s, r, a);
    if a >= |s.activities| {
      assert Occupying(s, a) == {} && OffersIn(s, a) == {} && SpecialsIn(s, a) == {};
      assert EverOffered(s, a) == {};
      assert AppsWith(s, a, AppStatus.Offered) == {} && AppsWith(s, a, AppStatus.Accepted) == {};
    }
  }

  lemma CreateBooks(s: State, act: Activity)
    requires Refs(s) && Books(s) && Quotas(s) && Newborn(act)
    ensures var r := WithActivity(s, act); Books(r) && Quotas(r)
  {
    var r := WithActivity(s, act);
    forall a | 0 <= a < |r.activities| ensures BooksOf(r, a) && Occupied(r, a) <= r.activities[a].quota {
      assert a < |s.activities| ==> BooksOf(s, a);
      CreateCounts(s, act, a);
    }
  }

  lemma CreateSeats(s: State, act: Activity)
    requires Refs(s) && Seats(s) && Newborn(act)
    ensures Seats(WithActivity(s, act))
  {
    var r := WithActivity(s, act);
    forall a | 0 <= a < |r.activities| ensures SeatCovered(r, a, r.owed) {
      if a < |s.activities| {
        assert SeatCovered(s, a, s.owed);
        SamePlaces(s, r, a);
        assert Queue(r, a) == Queue(s, a);
        IntentsGrow(s, r, a);
        CoverKept(s, r, a);
      }
    }
  }

  lemma CreateSafe(s: State, act: Activity)
    requires Safe(s) && Newborn(act)
    ensures Safe(WithActivity(s, act))
  {
    CreateStatic(s, act);
    CreateStatuses(s, act);
    CreatePointers(s, act);
    CreateBooks(s, act);
    BatchesKept(s, WithActivity(s, act));
  }

  lemma CreateKeeps(s: State, quota: int, mode: Option<Mode>, batchSize: int, expireHours: int, platform: Defaults)
    requires Safe(s)
    ensures Safe(CreateActivity(s, quota, mode, batchSize, expireHours, platform).after)
    ensures Seats(s) ==> Seats(CreateActivity(s, quota, mode, batchSize, expireHours, platform).after)
  {
    var act := NewActivity(quota, mode, batchSize, expireHours, platform);
    if act.Some? {
      CreateSafe(s, act.value);
      if Seats(s) {
        CreateSeats(s, act.value);
      }
    }
  }
}
