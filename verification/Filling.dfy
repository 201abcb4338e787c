/** What the issuing loop does, said without the loop. */
module Filling {
  import opened OrderBy
  import opened Tables
  import opened Transactions
  import opened Invariant
  import opened RowWrites

  // ---------- the loop keeps the invariant ----------

  /** With a complete ranking the queue has one first application. */
  lemma QueueKeysDiffer(s: State, a: nat)
    requires RanksDiffer(s) && Ranking(s, a)
    ensures Distinct(RankKeys(s.applications), Queue(s, a))
    ensures forall j, k :: j in Queue(s, a) && k in Queue(s, a) && j != k ==>
      RankOf(s.applications[j]) != RankOf(s.applications[k])
  {
    forall j, k | j in Queue(s, a) && k in Queue(s, a) && j != k
      ensures RankOf(s.applications[j]) != RankOf(s.applications[k])
    {
      assert j in AppsOf(s, a) && k in AppsOf(s, a);
      var x, y := if j < k then j else k, if j < k then k else j;
      assert s.applications[x].rank != s.applications[y].rank;
    }
  }

  lemma CursorIsAhead(s: State, a: nat)
    requires RanksDiffer(s) && Ranking(s, a) && Queue(s, a) != {}
    ensures forall j :: j in Queue(s, a) && j != NextWaiting(s, a) ==>
      RankOf(s.applications[NextWaiting(s, a)]) < RankOf(s.applications[j])
  {
    var k := NextWaiting(s, a);
    QueueKeysDiffer(s, a);
    forall j | j in Queue(s, a) && j != k ensures RankOf(s.applications[k]) < RankOf(s.applications[j]) {
      assert !Less(RankKeys(s.applications)[j], RankKeys(s.applications)[k]);
    }
  }

  predicate MayFill(s: State, a: nat, terms: Terms) {
    && a < |s.activities| && s.activities[a].status.Active? && s.activities[a].frozen
    && terms.source == SourceFor(s.activities[a].mode)
  }

  lemma MarkStep(s: State, a: nat, terms: Terms)
    requires Core(s) && Clean(s) && MayFill(s, a, terms) && Queue(s, a) != {} && HasAccepted(s, NextWaiting(s, a))
    ensures var r := SetStatus(s, NextWaiting(s, a), AppStatus.Ineligible);
      && Core(r) && Clean(r) && MayFill(r, a, terms) && Occupied(r, a) == Occupied(s, a)
      && Queue(r, a) == Queue(s, a) - {NextWaiting(s, a)}
  {
    var k := NextWaiting(s, a);
    CursorIsAhead(s, a);
    MarkKeeps(s, k);
    QueueShrinks(s, a, k, SetStatus(s, k, AppStatus.Ineligible));
  }

  lemma IssueStep(s: State, a: nat, terms: Terms)
    requires Core(s) && Clean(s) && MayFill(s, a, terms) && Queue(s, a) != {} && !HasAccepted(s, NextWaiting(s, a))
    requires Occupied(s, a) < s.activities[a].quota
    ensures var r := Issue(s, NextWaiting(s, a), terms);
      && Core(r) && Clean(r) && MayFill(r, a, terms) && Occupied(r, a) == Occupied(s, a) + 1
      && Queue(r, a) == Queue(s, a) - {NextWaiting(s, a)}
  {
    var k := NextWaiting(s, a);
    CursorIsAhead(s, a);
    IssueKeeps(s, k, terms);
    QueueShrinks(s, a, k, Issue(s, k, terms));
  }

  predicate FillReady(s: State, a: nat, room: nat, terms: Terms) {
    Core(s) && Clean(s) && MayFill(s, a, terms) && (room > 0 ==> Occupied(s, a) + room <= s.activities[a].quota)
  }

  /** What the loop does in one turn. */
  function Turn(s: State, k: nat, terms: Terms): (r: State)
    requires Refs(s) && k < |s.applications|
    ensures Refs(r)
  {
    if HasAccepted(s, k) then SetStatus(s, k, AppStatus.Ineligible) else Issue(s, k, terms)
  }

  lemma FillLoopTurn(s: State, a: nat, room: nat, terms: Terms)
    requires Refs(s) && room > 0 && Queue(s, a) != {}
    ensures var k := NextWaiting(s, a);
      FillLoop(s, a, room, terms) == FillLoop(Turn(s, k, terms), a, if HasAccepted(s, k) then room else room - 1, terms)
  {
  }

  lemma EmptyQueueStops(s: State, a: nat, room: nat, terms: Terms)
    requires Refs(s) && (room == 0 || Queue(s, a) == {})
    ensures FillLoop(s, a, room, terms) == s
  {
  }

  lemma TurnReady(s: State, a: nat, room: nat, terms: Terms)
    requires FillReady(s, a, room, terms) && room > 0 && Queue(s, a) != {}
    ensures var k := NextWaiting(s, a); var next := Turn(s, k, terms);
      && Queue(next, a) == Queue(s, a) - {k}
      && FillReady(next, a, if HasAccepted(s, k) then room else room - 1, terms)
  {
    if HasAccepted(s, NextWaiting(s, a)) {
      MarkStep(s, a, terms);
    } else {
      IssueStep(s, a, terms);
    }
  }

  /** However much room it is given within the quota, the loop keeps the invariant. */
  lemma {:induction false} FillLoopKeeps(s: State, a: nat, room: nat, terms: Terms)
    requires FillReady(s, a, room, terms)
    ensures Core(FillLoop(s, a, room, terms)) && Clean(FillLoop(s, a, room, terms))
    decreases Queue(s, a)
  {
    if room > 0 && Queue(s, a) != {} {
      var k := NextWaiting(s, a);
      TurnReady(s, a, room, terms);
      FillLoopTurn(s, a, room, terms);
      FillLoopKeeps(Turn(s, k, terms), a, if HasAccepted(s, k) then room else room - 1, terms);
    } else {
      EmptyQueueStops(s, a, room, terms);
    }
  }

  /** A turn takes a seat exactly when it issues an offer, and nobody joins a queue. */
  lemma TurnSeats(s: State, a: nat, k: nat, terms: Terms, b: nat)
    requires Refs(s) && k in Queue(s, a)
    ensures Occupied(Turn(s, k, terms), b) == Occupied(s, b) + (if a == b && !HasAccepted(s, k) then 1 else 0)
    ensures Queue(Turn(s, k, terms), b) <= Queue(s, b)
  {
    if HasAccepted(s, k) {
      assert Occupying(Turn(s, k, terms), b) == Occupying(s, b);
    } else {
      IssueSeats(s, k, terms, b);
    }
  }

  /** The loop gives seats and empties queues, never the reverse, touches nothing but applications and offers, and
      stops only when its room is used up or nobody waits. */
  lemma {:induction false} FillLoopStops(s: State, a: nat, room: nat, terms: Terms)
    requires Refs(s)
    ensures var r := FillLoop(s, a, room, terms);
      && r == s.(applications := r.applications, offers := r.offers)
      && (Queue(r, a) == {} || Occupied(r, a) == Occupied(s, a) + room)
      && Occupied(r, a) <= Occupied(s, a) + room
      && forall b :: Occupied(s, b) <= Occupied(r, b) && Queue(r, b) <= Queue(s, b)
    decreases Queue(s, a)
  {
    if room > 0 && Queue(s, a) != {} {
      var k := NextWaiting(s, a);
      var next := Turn(s, k, terms);
      QueueShrinks(s, a, k, next);
      forall b: nat
        ensures Occupied(next, b) == Occupied(s, b) + (if a == b && !HasAccepted(s, k) then 1 else 0)
        ensures Queue(next, b) <= Queue(s, b)
      {
        TurnSeats(s, a, k, terms, b);
      }
      FillLoopTurn(s, a, room, terms);
      FillLoopStops(next, a, if HasAccepted(s, k) then room else room - 1, terms);
    } else {
      EmptyQueueStops(s, a, room, terms);
    }
  }

  lemma FillKeeps(s: State, a: nat, limit: nat, terms: Terms)
    requires Core(s) && Clean(s)
    requires a < |s.activities| && s.activities[a].status.Active? && s.activities[a].frozen ==> MayFill(s, a, terms)
    ensures Core(Fill(s, a, limit, terms)) && Clean(Fill(s, a, limit, terms))
  {
    if a < |s.activities| && s.activities[a].status.Active? && s.activities[a].frozen {
      FillLoopKeeps(s, a, Room(s, a, limit), terms);
    }
  }

  // ---------- the declarative description ----------

  /** The rows whose candidate has not accepted anywhere, in the given order. */
  function Eligible(s: State, rows: seq<nat>): (good: seq<nat>)
    requires Refs(s) && Rows(s, rows)
    ensures Rows(s, good) && |good| <= |rows|
    ensures forall x :: x in good <==> x in rows && x < |s.applications| && !HasAccepted(s, x)
  {
    if rows == [] then []
    else if HasAccepted(s, rows[0]) then Eligible(s, rows[1..])
    else [rows[0]] + Eligible(s, rows[1..])
  }

  /** Who is waiting and may receive an offer, best rank first. */
  function Deserving(s: State, a: nat): (good: seq<nat>)
    requires Refs(s)
    ensures Rows(s, good)
    ensures forall x :: x in good <==> x in Queue(s, a) && !HasAccepted(s, x)
  {
    var rows := QueueByRank(s, a);
    assert forall i :: 0 <= i < |rows| ==> rows[i] in Queue(s, a);
    Eligible(s, rows)
  }

  /** The applications that receive an offer when `room` offers may be given. */
  function Winners(s: State, a: nat, room: nat): (winners: seq<nat>)
    requires Refs(s)
    ensures |winners| <= room && Rows(s, winners)
  {
    var good := Deserving(s, a);
    if room < |good| then good[..room] else good
  }

  /** The accepted candidates the walk passes: those ahead of the last winner, or all of them when the list runs
      out before the room does. */
  predicate Passed(s: State, a: nat, room: nat, k: nat)
    requires Refs(s)
  {
    k in Queue(s, a) && HasAccepted(s, k) && Reached(RankKeys(s.applications), Winners(s, a, room), room, k)
  }

  predicate Reached(keys: seq<Key>, winners: seq<nat>, room: nat, k: nat)
    requires k < |keys| && forall i :: 0 <= i < |winners| ==> winners[i] < |keys|
  {
    |winners| < room || (winners != [] && Less(keys[k], keys[winners[|winners| - 1]]))
  }

  function OffersFor(winners: seq<nat>, terms: Terms): (offers: seq<Offer>)
    ensures |offers| == |winners|
  {
    seq(|winners|, i requires 0 <= i < |winners| =>
      Offer(winners[i], OfferStatus.Pending, terms.source, terms.batch, terms.expiresAt))
  }

  function FilledStatus(s: State, a: nat, room: nat, k: nat): AppStatus
    requires Refs(s) && k < |s.applications|
  {
    if k in Winners(s, a, room) then AppStatus.Offered
    else if Passed(s, a, room, k) then AppStatus.Ineligible
    else s.applications[k].status
  }

  lemma FillStops(s: State, a: nat, room: nat)
    requires Refs(s) && (room == 0 || Queue(s, a) == {})
    ensures Winners(s, a, room) == [] && forall k :: !Passed(s, a, room, k)
  {
  }

  /** Removing the head of the queue by a status change leaves the rest of the queue as it was. */
  lemma QueueTail(s: State, a: nat, k: nat, r: State)
    requires Refs(s) && Refs(r) && Queue(s, a) != {} && k == NextWaiting(s, a)
    requires r.candidates == s.candidates && SameButStatus(s.applications, r.applications)
    requires Queue(r, a) == Queue(s, a) - {k}
    ensures RankKeys(r.applications) == RankKeys(s.applications)
    ensures QueueByRank(s, a) == [k] + QueueByRank(r, a)
    ensures Deserving(s, a) == (if HasAccepted(s, k) then [] else [k]) + Deserving(r, a)
  {
    TailByRank(s, a, k, r);
    var rest := QueueByRank(r, a);
    assert forall i :: 0 <= i < |rest| ==> rest[i] in Queue(r, a);
    SameEligible(s, r, rest);
    assert ([k] + rest)[1..] == rest;
  }

  lemma TailByRank(s: State, a: nat, k: nat, r: State)
    requires Queue(s, a) != {} && k == NextWaiting(s, a)
    requires SameButStatus(s.applications, r.applications) && Queue(r, a) == Queue(s, a) - {k}
    ensures RankKeys(r.applications) == RankKeys(s.applications)
    ensures QueueByRank(s, a) == [k] + QueueByRank(r, a)
  {
    assert RankKeys(r.applications) == RankKeys(s.applications);
  }

  lemma {:induction false} SameEligible(s: State, r: State, rows: seq<nat>)
    requires Refs(s) && Refs(r) && |r.applications| == |s.applications| && Rows(s, rows)
    requires forall k :: 0 <= k < |s.applications| ==> HasAccepted(r, k) == HasAccepted(s, k)
    ensures Eligible(r, rows) == Eligible(s, rows)
  {
    if rows != [] {
      SameEligible(s, r, rows[1..]);
    }
  }

  /** One step of the walk, seen from the declarative side. */
  lemma WinnersStep(s: State, a: nat, room: nat, k: nat, r: State)
    requires Refs(s) && Refs(r) && Queue(s, a) != {} && k == NextWaiting(s, a) && room > 0
    requires r.candidates == s.candidates && SameButStatus(s.applications, r.applications)
    requires Queue(r, a) == Queue(s, a) - {k}
    ensures HasAccepted(s, k) ==> Winners(s, a, room) == Winners(r, a, room)
    ensures !HasAccepted(s, k) ==> Winners(s, a, room) == [k] + Winners(r, a, room - 1)
  {
    QueueTail(s, a, k, r);
    if HasAccepted(s, k) {
      assert Deserving(s, a) == Deserving(r, a);
    } else {
      HeadFirst(k, Deserving(r, a), room);
    }
  }

  lemma HeadFirst(k: nat, rest: seq<nat>, room: nat)
    requires 0 < room
    ensures var all := [k] + rest;
      (if room < |all| then all[..room] else all) == [k] + (if room - 1 < |rest| then rest[..room - 1] else rest)
  {
  }

  lemma ReachedHead(s: State, a: nat, room: nat)
    requires Refs(s) && Queue(s, a) != {} && room > 0 && Distinct(RankKeys(s.applications), Queue(s, a))
    requires HasAccepted(s, NextWaiting(s, a))
    ensures Passed(s, a, room, NextWaiting(s, a))
  {
    var k, winners := NextWaiting(s, a), Winners(s, a, room);
    if |winners| == room {
      var last := winners[|winners| - 1];
      assert last in Deserving(s, a);
      assert !Less(RankKeys(s.applications)[last], RankKeys(s.applications)[k]);
    }
  }

  lemma ReachedTail(keys: seq<Key>, winners: seq<nat>, room: nat, k: nat, j: nat)
    requires room > 0 && k < |keys| && j < |keys| && forall i :: 0 <= i < |winners| ==> winners[i] < |keys|
    requires !Less(keys[j], keys[k])
    ensures Reached(keys, [k] + winners, room, j) <==> Reached(keys, winners, room - 1, j)
  {
    if winners != [] {
      assert ([k] + winners)[|winners|] == winners[|winners| - 1];
    }
  }

  lemma PassedStep(s: State, a: nat, room: nat, k: nat, r: State, j: nat)
    requires Refs(s) && Refs(r) && Queue(s, a) != {} && k == NextWaiting(s, a) && room > 0 && j in Queue(r, a)
    requires r.candidates == s.candidates && SameButStatus(s.applications, r.applications)
    requires Queue(r, a) == Queue(s, a) - {k}
    ensures Passed(s, a, room, j) <==> Passed(r, a, if HasAccepted(s, k) then room else room - 1, j)
  {
    QueueTail(s, a, k, r);
    WinnersStep(s, a, room, k, r);
    assert j in Queue(s, a);
    if !HasAccepted(s, k) {
      ReachedTail(RankKeys(s.applications), Winners(r, a, room - 1), room, k, j);
    }
  }

  predicate StepTo(s: State, a: nat, k: nat, r: State)
    requires Refs(s)
  {
    && Refs(r) && Queue(s, a) != {} && k == NextWaiting(s, a)
    && r.candidates == s.candidates && SameButStatus(s.applications, r.applications)
    && Queue(r, a) == Queue(s, a) - {k}
    && (forall i :: 0 <= i < |s.applications| && i != k ==> r.applications[i] == s.applications[i])
    && r.applications[k].status == (if HasAccepted(s, k) then AppStatus.Ineligible else AppStatus.Offered)
  }

  lemma WinnersWait(s: State, a: nat, room: nat)
    requires Refs(s)
    ensures forall x :: x in Winners(s, a, room) ==> x in Queue(s, a) && !HasAccepted(s, x)
  {
    assert forall x :: x in Winners(s, a, room) ==> x in Deserving(s, a);
  }

  lemma FilledStep(s: State, a: nat, room: nat, k: nat, r: State, j: nat)
    requires Refs(s) && StepTo(s, a, k, r) && room > 0 && j < |s.applications|
    requires Distinct(RankKeys(s.applications), Queue(s, a))
    ensures FilledStatus(s, a, room, j) == FilledStatus(r, a, if HasAccepted(s, k) then room else room - 1, j)
  {
    var left := if HasAccepted(s, k) then room else room - 1;
    WinnersStep(s, a, room, k, r);
    WinnersWait(s, a, room);
    WinnersWait(r, a, left);
    if j in Queue(r, a) {
      PassedStep(s, a, room, k, r, j);
    } else if j == k && HasAccepted(s, k) {
      ReachedHead(s, a, room);
    }
  }

  lemma TurnSteps(s: State, a: nat, terms: Terms)
    requires Refs(s) && Queue(s, a) != {}
    ensures StepTo(s, a, NextWaiting(s, a), Turn(s, NextWaiting(s, a), terms))
    ensures RankKeys(Turn(s, NextWaiting(s, a), terms).applications) == RankKeys(s.applications)
    ensures Distinct(RankKeys(s.applications), Queue(s, a)) ==>
      Distinct(RankKeys(s.applications), Queue(Turn(s, NextWaiting(s, a), terms), a))
  {
    var k := NextWaiting(s, a);
    QueueShrinks(s, a, k, Turn(s, k, terms));
    assert RankKeys(Turn(s, k, terms).applications) == RankKeys(s.applications);
  }

  /** The loop issues exactly one offer to each of the first `room` deserving applications, in rank order. */
  lemma {:induction false} FillLoopOffers(s: State, a: nat, room: nat, terms: Terms)
    requires Refs(s)
    ensures FillLoop(s, a, room, terms).offers == s.offers + OffersFor(Winners(s, a, room), terms)
    decreases Queue(s, a)
  {
    if room == 0 || Queue(s, a) == {} {
      FillStops(s, a, room);
      EmptyQueueStops(s, a, room, terms);
    } else {
      var k := NextWaiting(s, a);
      var left := if HasAccepted(s, k) then room else room - 1;
      var next := Turn(s, k, terms);
      TurnSteps(s, a, terms);
      FillLoopTurn(s, a, room, terms);
      FillLoopOffers(next, a, left, terms);
      TurnOffers(s, a, room, terms, k, next, left);
    }
  }

  /** The offer of this turn followed by the offers of the rest. */
  lemma TurnOffers(s: State, a: nat, room: nat, terms: Terms, k: nat, next: State, left: nat)
    requires Refs(s) && room > 0 && Queue(s, a) != {} && k == NextWaiting(s, a) && next == Turn(s, k, terms)
    requires StepTo(s, a, k, next) && left == (if HasAccepted(s, k) then room else room - 1)
    ensures next.offers + OffersFor(Winners(next, a, left), terms) == s.offers + OffersFor(Winners(s, a, room), terms)
  {
    WinnersStep(s, a, room, k, next);
    OffersCons(k, Winners(next, a, left), terms);
  }

  /** The winners become OFFERED, exactly the accepted candidates the walk passes become INELIGIBLE, and no other
      application changes. */
  lemma {:induction false} FillLoopStatuses(s: State, a: nat, room: nat, terms: Terms)
    requires Refs(s) && Distinct(RankKeys(s.applications), Queue(s, a))
    ensures var r := FillLoop(s, a, room, terms);
      && |r.applications| == |s.applications|
      && forall k :: 0 <= k < |s.applications| ==>
           r.applications[k] == s.applications[k].(status := FilledStatus(s, a, room, k))
    decreases Queue(s, a)
  {
    if room == 0 || Queue(s, a) == {} {
      FillStops(s, a, room);
    } else {
      var k := NextWaiting(s, a);
      var left := if HasAccepted(s, k) then room else room - 1;
      TurnSteps(s, a, terms);
      var next := Turn(s, k, terms);
      FillLoopStatuses(next, a, left, terms);
      forall j | 0 <= j < |s.applications| ensures FilledStatus(s, a, room, j) == FilledStatus(next, a, left, j) {
        FilledStep(s, a, room, k, next, j);
      }
    }
  }

  lemma OffersCons(k: nat, winners: seq<nat>, terms: Terms)
    ensures OffersFor([k] + winners, terms) ==
      [Offer(k, OfferStatus.Pending, terms.source, terms.batch, terms.expiresAt)] + OffersFor(winners, terms)
  {
  }

  /** The room of a filling: the least of the free seats and the limit, if there is one, and never negative. */
  lemma RoomIsLeast(s: State, a: nat, limit: nat)
    requires Refs(s) && a < |s.activities|
    ensures var room, free := Room(s, a, limit), s.activities[a].quota - Occupied(s, a);
      && (room == 0 <==> free <= 0) && (free > 0 ==> room <= free && (limit > 0 ==> room <= limit))
      && (free > 0 ==> room == free || (limit > 0 && room == limit))
  {
  }

  /** What a filling commits, said without the loop: an activity that is not ACTIVE and started is left alone; otherwise
      the first deserving applications in rank order get one offer each, as many as the free seats, the limit and the
      queue allow, the accepted candidates passed on the way become INELIGIBLE, and nothing else changes. */
  lemma FillIsExact(s: State, a: nat, limit: nat, terms: Terms)
    requires Core(s)
    ensures var r := Fill(s, a, limit, terms);
      if a >= |s.activities| || !s.activities[a].status.Active? || !s.activities[a].frozen then r == s
      else
        var room := Room(s, a, limit);
        && |Winners(s, a, room)| == (if room < |Deserving(s, a)| then room else |Deserving(s, a)|)
        && r == s.(applications := r.applications, offers := s.offers + OffersFor(Winners(s, a, room), terms))
        && |r.applications| == |s.applications|
        && forall k :: 0 <= k < |s.applications| ==>
            r.applications[k] == s.applications[k].(status := FilledStatus(s, a, room, k))
  {
    if a < |s.activities| && s.activities[a].status.Active? && s.activities[a].frozen {
      var room := Room(s, a, limit);
      assert SettingsOk(s.activities[a]);
      QueueKeysDiffer(s, a);
      FillLoopStops(s, a, room, terms);
      FillLoopOffers(s, a, room, terms);
      FillLoopStatuses(s, a, room, terms);
    }
  }
}
