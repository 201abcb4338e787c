/** How a seat can be lost, by a promise only a server process remembers, and how it is freed from another activity. */
module Losses {
  import opened Tables
  import opened Transactions
  import opened Invariant
  import opened RowWrites
  import opened Safety

  // ---------- promises a process forgets ----------

  /** A free seat somebody waits for, and nothing but the memory of a server process says so. */
  predicate OnlyOwed(s: State, a: nat)
    requires Refs(s)
  {
    && a in s.owed && a < |s.activities| && MayRefill(s.activities[a])
    && Occupied(s, a) < s.activities[a].quota && Queue(s, a) != {} && !HasIntent(s, a)
  }

  lemma AbandonCovers(s: State, a: nat, b: nat)
    requires Refs(s) && b < |s.activities| && SeatCovered(s, b, s.owed)
    ensures SeatCovered(Abandon(s, a), b, s.owed - {a}) <==> a != b || !OnlyOwed(s, a)
  {
    var r := Abandon(s, a);
    SamePlaces(s, r, b);
    assert Queue(r, b) == Queue(s, b);
    assert HasIntent(r, b) <==> HasIntent(s, b) by {
      IntentsGrow(s, r, b);
      IntentsGrow(r, s, b);
    }
  }

  /** The death of the process loses seats exactly when nothing else remembers them. */
  lemma AbandonLoses(s: State, a: nat)
    requires Refs(s) && Seats(s)
    ensures Seats(Abandon(s, a)) <==> !OnlyOwed(s, a)
  {
    var r := Abandon(s, a);
    forall b | 0 <= b < |s.activities|
      ensures SeatCovered(r, b, r.owed) <==> a != b || !OnlyOwed(s, a)
    {
      assert SeatCovered(s, b, s.owed);
      AbandonCovers(s, a, b);
    }
    assert a < |s.activities| && Seats(r) ==> SeatCovered(r, a, r.owed);
  }

  /** An owed refill that fails, and whose fallback intent fails too, is forgotten like one whose process died. */
  lemma TwiceFailedLoses(s: State, a: nat, now: int)
    requires Refs(s) && Seats(s)
    ensures Seats(QuotaRefill(s, a, false, false, now)) <==> !OnlyOwed(s, a)
  {
    AbandonLoses(s, a);
  }

  lemma AbandonKeeps(s: State, a: nat)
    requires Safe(s)
    ensures Safe(Abandon(s, a))
    ensures Seats(s) ==> (Seats(Abandon(s, a)) <==> !OnlyOwed(s, a))
  {
    AbandonSafe(s, a);
    if Seats(s) {
      AbandonLoses(s, a);
    }
  }

  lemma TwiceFailedKeeps(s: State, a: nat, now: int)
    requires Safe(s)
    ensures Safe(QuotaRefill(s, a, false, false, now))
    ensures Seats(s) ==> (Seats(QuotaRefill(s, a, false, false, now)) <==> !OnlyOwed(s, a))
  {
    QuotaRefillSafe(s, a, false, false, now);
    if Seats(s) {
      TwiceFailedLoses(s, a, now);
    }
  }

  // ---------- seats freed from elsewhere ----------

  /** The acceptance commits, and its linkage frees a seat of activity a. */
  predicate FreesSeat(s: State, a: nat, o: nat, at: int)
    requires Refs(s)
  {
    && o < |s.offers| && ActOf(s, o) != a
    && s.offers[o].status.Pending? && s.activities[ActOf(s, o)].status.Active? && at < s.offers[o].expiresAt
    && PendingFor(s, CandOf(s, o)) * PendingIn(s, a) != {}
  }

  lemma CloseOneQueue(s: State, i: nat, to: OfferStatus, why: Reason, a: nat)
    requires Refs(s) && i < |s.offers|
    ensures Queue(CloseOne(s, i, to, why), a) == Queue(s, a)
  {
  }

  lemma {:induction false} CloseAllQueue(s: State, ids: seq<nat>, to: OfferStatus, why: Reason, a: nat)
    requires Refs(s) && Named(s, ids)
    ensures Queue(CloseAll(s, ids, to, why), a) == Queue(s, a)
    decreases |ids|
  {
    if ids != [] {
      CloseOneQueue(s, ids[0], to, why, a);
      CloseAllQueue(CloseOne(s, ids[0], to, why), ids[1..], to, why, a);
    }
  }

  lemma AcceptingQueue(s: State, o: nat, a: nat)
    requires Refs(s) && o < |s.offers| && AppOf(s, o).status.Offered?
    ensures Queue(Accepting(s, o), a) == Queue(s, a)
  {
    var taken := Take(s, o);
    assert Queue(taken, a) == Queue(s, a);
    CloseAllQueue(taken, Links(taken, CandOf(s, o)), OfferStatus.Declined, CrossActivityDecline, a);
  }

  /** What an acceptance elsewhere does to the seats of an activity: nothing, unless its candidate held one of them. */
  lemma AcceptingSeats(s: State, o: nat, a: nat)
    requires Refs(s) && o < |s.offers| && s.offers[o].status.Pending? && ActOf(s, o) != a
    ensures Occupying(Accepting(s, o), a) == Occupying(s, a) - PendingFor(s, CandOf(s, o)) * PendingIn(s, a)
  {
    var r, c := Accepting(s, o), CandOf(s, o);
    TakeGrown(s, o);
    CloseAllGrown(Take(s, o), Links(Take(s, o), c), OfferStatus.Declined, CrossActivityDecline);
    forall i | 0 <= i < |s.offers|
      ensures ActOf(r, i) == ActOf(s, i)
      ensures i in Occupying(r, a) <==> i in Occupying(s, a) && !(i in PendingFor(s, c) && i in PendingIn(s, a))
    {
      LinkageIsExact(s, o, i);
    }
  }

  lemma FewerSeats(before: set<nat>, gone: set<nat>)
    requires gone <= before
    ensures |before - gone| <= |before| && (|before - gone| < |before| <==> gone != {})
  {
    assert before == (before - gone) + gone;
  }

  lemma AcceptingFrees(s: State, o: nat, a: nat)
    requires Refs(s) && o < |s.offers| && s.offers[o].status.Pending? && ActOf(s, o) != a
    ensures Occupied(Accepting(s, o), a) <= Occupied(s, a)
    ensures Occupied(Accepting(s, o), a) < Occupied(s, a) <==> PendingFor(s, CandOf(s, o)) * PendingIn(s, a) != {}
  {
    AcceptingSeats(s, o, a);
    FewerSeats(Occupying(s, a), PendingFor(s, CandOf(s, o)) * PendingIn(s, a));
  }

  lemma SettledElsewhere(s: State, o: nat, a: nat)
    requires Refs(s) && Statuses(s) && o < |s.offers| && ActOf(s, o) != a
    ensures var r := CloseOne(s, o, OfferStatus.Expired, Reason.OfferExpired);
      Occupied(r, a) == Occupied(s, a) && Queue(r, a) == Queue(s, a)
  {
    CloseOneQueue(s, o, OfferStatus.Expired, Reason.OfferExpired, a);
    if s.offers[o].status.Pending? {
      CloseIsShut(s, o, OfferStatus.Expired, Reason.OfferExpired);
      ShutSeats(s, o, OfferStatus.Expired, a);
      var shut := Shut(s, o, OfferStatus.Expired);
      SamePlaces(shut, CloseOne(s, o, OfferStatus.Expired, Reason.OfferExpired), a);
    }
  }

  /** Whatever an acceptance in another activity commits, it frees a seat of this one exactly when `FreesSeat` says so,
      and nobody joins or leaves the queue. */
  lemma AcceptElsewhere(s: State, o: nat, at: int, a: nat)
    requires Safe(s) && o < |s.offers| && ActOf(s, o) != a
    ensures var r := AcceptTx(s, o, at).after;
      && r.activities == s.activities && r.owed == s.owed && Queue(r, a) == Queue(s, a)
      && Occupied(r, a) <= Occupied(s, a) && (Occupied(r, a) < Occupied(s, a) <==> FreesSeat(s, a, o, at))
  {
    if s.offers[o].status.Pending? && s.activities[ActOf(s, o)].status.Active? {
      assert Newest(s, s.offers[o].application) == o;
      assert StatusFits(s, s.offers[o].application);
      AcceptOpen(s, o, at);
      if s.offers[o].expiresAt <= at {
        SettledElsewhere(s, o, a);
      } else {
        AcceptingFrees(s, o, a);
        AcceptingQueue(s, o, a);
      }
    } else {
      AcceptClosed(s, o, at);
    }
  }
}
