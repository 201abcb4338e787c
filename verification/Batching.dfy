/** Batch issuing: the pace does not decide who is admitted, the preview does not mislead, the books of the
    batches balance. */
module Batching {
  import opened OrderBy
  import opened Tables
  import opened Transactions
  import opened Invariant
  import opened RowWrites
  import opened Filling

  // ---------- pace ----------

  lemma SplitsAtEnd(s: State, a: nat, m: nat, n: nat, terms: Terms)
    requires Refs(s) && (m == 0 || Queue(s, a) == {})
    ensures FillLoop(FillLoop(s, a, m, terms), a, n, terms) == FillLoop(s, a, m + n, terms)
  {
    EmptyQueueStops(s, a, m, terms);
    if m > 0 {
      EmptyQueueStops(s, a, n, terms);
      EmptyQueueStops(s, a, m + n, terms);
    }
  }

  /** A loop of m and one of n are a loop of m + n. */
  lemma {:induction false} FillLoopSplits(s: State, a: nat, m: nat, n: nat, terms: Terms)
    requires Refs(s)
    ensures FillLoop(FillLoop(s, a, m, terms), a, n, terms) == FillLoop(s, a, m + n, terms)
    decreases Queue(s, a)
  {
    if m == 0 || Queue(s, a) == {} {
      SplitsAtEnd(s, a, m, n, terms);
    } else {
      var k := NextWaiting(s, a);
      var next, left := Turn(s, k, terms), if HasAccepted(s, k) then m else m - 1;
      calc {
        FillLoop(FillLoop(s, a, m, terms), a, n, terms);
      == { FillLoopTurn(s, a, m, terms); }
        FillLoop(FillLoop(next, a, left, terms), a, n, terms);
      == { QueueShrinks(s, a, k, next); FillLoopSplits(next, a, left, n, terms); }
        FillLoop(next, a, left + n, terms);
      == { FillLoopTurn(s, a, m + n, terms); }
        FillLoop(s, a, m + n, terms);
      }
    }
  }

  /** Who wins depends on the applications and the candidates alone. */
  lemma WinnersSame(s: State, r: State, a: nat, room: nat)
    requires Refs(s) && Refs(r) && r.applications == s.applications && r.candidates == s.candidates
    ensures Queue(r, a) == Queue(s, a) && Winners(r, a, room) == Winners(s, a, room)
  {
    assert Queue(r, a) == Queue(s, a);
    var rows := QueueByRank(s, a);
    assert forall i :: 0 <= i < |rows| ==> rows[i] in Queue(s, a);
    SameEligible(s, r, rows);
  }

  lemma FilledSame(s: State, r: State, a: nat, room: nat, k: nat)
    requires Refs(s) && Refs(r) && r.applications == s.applications && r.candidates == s.candidates
    requires k < |s.applications|
    ensures FilledStatus(r, a, room, k) == FilledStatus(s, a, room, k)
  {
    WinnersSame(s, r, a, room);
  }

  /** The terms of the offers do not change who gets one. */
  lemma TermsDoNotMatter(s: State, r: State, a: nat, room: nat, terms: Terms, other: Terms)
    requires Refs(s) && Refs(r) && r.applications == s.applications && r.candidates == s.candidates
    requires Owners(r.offers) == Owners(s.offers) && Distinct(RankKeys(s.applications), Queue(s, a))
    ensures FillLoop(r, a, room, other).applications == FillLoop(s, a, room, terms).applications
    ensures FillLoop(r, a, room, other).candidates == FillLoop(s, a, room, terms).candidates
    ensures Owners(FillLoop(r, a, room, other).offers) == Owners(FillLoop(s, a, room, terms).offers)
  {
    WinnersSame(s, r, a, room);
    FillLoopOffers(s, a, room, terms);
    FillLoopOffers(r, a, room, other);
    FillLoopStops(s, a, room, terms);
    FillLoopStops(r, a, room, other);
    SameFilled(s, r, a, room, terms, other);
    OwnersGrow(s.offers, Winners(s, a, room), terms);
    OwnersGrow(r.offers, Winners(s, a, room), other);
  }

  lemma SameFilled(s: State, r: State, a: nat, room: nat, terms: Terms, other: Terms)
    requires Refs(s) && Refs(r) && r.applications == s.applications && r.candidates == s.candidates
    requires Distinct(RankKeys(s.applications), Queue(s, a))
    ensures FillLoop(r, a, room, other).applications == FillLoop(s, a, room, terms).applications
  {
    assert Queue(r, a) == Queue(s, a);
    FillLoopStatuses(s, a, room, terms);
    FillLoopStatuses(r, a, room, other);
    forall k | 0 <= k < |s.applications| ensures FilledStatus(r, a, room, k) == FilledStatus(s, a, room, k) {
      FilledSame(s, r, a, room, k);
    }
  }

  lemma OwnersGrow(offers: seq<Offer>, winners: seq<nat>, terms: Terms)
    ensures Owners(offers + OffersFor(winners, terms)) == Owners(offers) + winners
  {
  }

  lemma QueueStaysDistinct(s: State, r: State, a: nat, room: nat, terms: Terms)
    requires Refs(s) && Distinct(RankKeys(s.applications), Queue(s, a)) && r == FillLoop(s, a, room, terms)
    ensures Distinct(RankKeys(r.applications), Queue(r, a))
  {
    FillLoopStatuses(s, a, room, terms);
    FillLoopStops(s, a, room, terms);
    assert RankKeys(r.applications) == RankKeys(s.applications);
  }

  /** The same people in the same order, whatever the terms of their offers. */
  predicate SameAdmissions(s: State, r: State) {
    r.applications == s.applications && Owners(r.offers) == Owners(s.offers)
  }

  lemma LoopPace(s: State, a: nat, m: nat, n: nat, first: Terms, second: Terms, once: Terms)
    requires Refs(s) && Distinct(RankKeys(s.applications), Queue(s, a))
    ensures SameAdmissions(FillLoop(FillLoop(s, a, m, first), a, n, second), FillLoop(s, a, m + n, once))
  {
    var s1, t1 := FillLoop(s, a, m, first), FillLoop(s, a, m, once);
    TermsDoNotMatter(s, s, a, m, once, first);
    FillLoopSplits(s, a, m, n, once);
    QueueStaysDistinct(s, t1, a, m, once);
    TermsDoNotMatter(t1, s1, a, n, once, second);
  }

  /** Either the first batch leaves nobody waiting, or the two rooms add up to the room of the single batch. */
  lemma RoomsAddUp(s: State, a: nat, x: nat, y: nat, first: Terms)
    requires Refs(s) && a < |s.activities| && x > 0 && y > 0
    ensures var s1 := FillLoop(s, a, Room(s, a, x), first);
      && Room(s, a, x) <= Room(s, a, x + y) && s1.activities == s.activities
      && (Queue(s1, a) == {} || Room(s, a, x) + Room(s1, a, y) == Room(s, a, x + y))
  {
    FillLoopStops(s, a, Room(s, a, x), first);
  }

  lemma FillIsLoop(s: State, a: nat, limit: nat, terms: Terms)
    requires Refs(s) && a < |s.activities| && s.activities[a].status.Active? && s.activities[a].frozen
    ensures Fill(s, a, limit, terms) == FillLoop(s, a, Room(s, a, limit), terms)
  {
  }

  lemma FillPace(s: State, a: nat, x: nat, y: nat, first: Terms, second: Terms, once: Terms)
    requires Refs(s) && a < |s.activities| && s.activities[a].status.Active? && s.activities[a].frozen
    requires Distinct(RankKeys(s.applications), Queue(s, a)) && x > 0 && y > 0
    ensures SameAdmissions(Fill(Fill(s, a, x, first), a, y, second), Fill(s, a, x + y, once))
  {
    var m, all := Room(s, a, x), Room(s, a, x + y);
    var s1 := Fill(s, a, x, first);
    FillIsLoop(s, a, x, first);
    FillIsLoop(s, a, x + y, once);
    RoomsAddUp(s, a, x, y, first);
    LoopPace(s, a, m, all - m, first, second, once);
    SecondFill(s1, a, y, all - m, second);
  }

  lemma SecondFill(s: State, a: nat, y: nat, left: nat, terms: Terms)
    requires Refs(s) && a < |s.activities| && s.activities[a].status.Active? && s.activities[a].frozen
    requires Queue(s, a) == {} || Room(s, a, y) == left
    ensures Fill(s, a, y, terms) == FillLoop(s, a, left, terms)
  {
    FillIsLoop(s, a, y, terms);
    if Queue(s, a) == {} {
      EmptyQueueStops(s, a, Room(s, a, y), terms);
      EmptyQueueStops(s, a, left, terms);
    }
  }

  /** Two batches of x and y offers admit exactly whom one batch of x + y admits, in the same order. */
  lemma PaceDoesNotMatter(s: State, a: nat, x: nat, y: nat, first: Terms, second: Terms, once: Terms)
    requires Core(s) && a < |s.activities| && x > 0 && y > 0
    ensures SameAdmissions(Fill(Fill(s, a, x, first), a, y, second), Fill(s, a, x + y, once))
  {
    if s.activities[a].status.Active? && s.activities[a].frozen {
      assert SettingsOk(s.activities[a]);
      QueueKeysDiffer(s, a);
      FillPace(s, a, x, y, first, second, once);
    }
  }

  /** An unlimited refill leaves nothing for a second one to do. */
  lemma RefillIsIdempotent(s: State, a: nat, terms: Terms, again: Terms)
    requires Refs(s)
    ensures Fill(Fill(s, a, 0, terms), a, 0, again) == Fill(s, a, 0, terms)
  {
    if a < |s.activities| && s.activities[a].status.Active? && s.activities[a].frozen {
      var r := Fill(s, a, 0, terms);
      FillLoopStops(s, a, Room(s, a, 0), terms);
      EmptyQueueStops(r, a, Room(r, a, 0), again);
    }
  }

  // ---------- preview ----------

  lemma {:induction false} EligiblePrefix(s: State, rows: seq<nat>, n: nat)
    requires Refs(s) && Rows(s, rows) && n <= |rows|
    ensures Eligible(s, rows[..n]) <= Eligible(s, rows)
    ensures |Eligible(s, rows[..n])| == n ==> Eligible(s, rows[..n]) == rows[..n]
  {
    if n > 0 {
      EligiblePrefix(s, rows[1..], n - 1);
      HeadAndTail(rows, n);
    }
  }

  lemma HeadAndTail(rows: seq<nat>, n: nat)
    requires 0 < n <= |rows|
    ensures rows[..n][1..] == rows[1..][..n - 1] && rows[..n][0] == rows[0]
    ensures rows[..n] == [rows[0]] + rows[1..][..n - 1]
  {
  }

  lemma PrefixesCompare(good: seq<nat>, u: seq<nat>, w: seq<nat>)
    requires u <= good && w <= good
    ensures u <= w || w <= u
  {
  }

  /** The shown rows are the head of the queue in rank order. */
  lemma PreviewShows(s: State, a: nat, limit: nat, platformDefault: int, shown: PreviewReply)
    requires Refs(s) && shown == PreviewBatch(s, a, limit, platformDefault) && shown.Preview?
    ensures shown.items <= QueueByRank(s, a) && a < |s.activities| && shown.batchSize > 0
    ensures shown.batchSize <= shown.maxIssuable ==>
        |shown.items| == shown.batchSize || shown.items == QueueByRank(s, a)
    ensures |shown.items| <= shown.batchSize
    ensures shown.batchSize <= shown.maxIssuable ==> Room(s, a, shown.batchSize) == shown.batchSize
  {
    var rows := QueueByRank(s, a);
    assert rows[..|rows|] == rows;
  }

  /** The unflagged part of a preview and the list a batch then reaches never contradict each other: one is a prefix
      of the other. A preview without a flagged row that fits the free seats is the list itself. */
  lemma PreviewIsHonest(s: State, a: nat, limit: nat, platformDefault: int, shown: PreviewReply)
    requires Refs(s) && shown == PreviewBatch(s, a, limit, platformDefault) && shown.Preview?
    ensures a < |s.activities| && shown.batchSize > 0 && Rows(s, shown.items)
    ensures var clear, reached := Eligible(s, shown.items), Winners(s, a, Room(s, a, shown.batchSize));
      && (clear <= reached || reached <= clear)
      && (|clear| == |shown.items| && shown.batchSize <= shown.maxIssuable ==> reached == shown.items)
  {
    PreviewShows(s, a, limit, platformDefault, shown);
    HeadOfQueue(s, a, shown.items, Room(s, a, shown.batchSize));
  }

  lemma HeadOfQueue(s: State, a: nat, items: seq<nat>, room: nat)
    requires Refs(s) && items <= QueueByRank(s, a)
    ensures Rows(s, items)
    ensures Eligible(s, items) <= Winners(s, a, room) || Winners(s, a, room) <= Eligible(s, items)
    ensures |Eligible(s, items)| == |items| && (|items| == room || (items == QueueByRank(s, a) && |items| <= room)) ==>
      Winners(s, a, room) == items
  {
    var rows, n := QueueByRank(s, a), |items|;
    QueueRows(s, a);
    assert items == rows[..n];
    EligiblePrefix(s, rows, n);
    PrefixesCompare(Deserving(s, a), Eligible(s, items), Winners(s, a, room));
  }

  lemma QueueRows(s: State, a: nat)
    ensures Rows(s, QueueByRank(s, a))
  {
    var rows := QueueByRank(s, a);
    assert forall i :: 0 <= i < |rows| ==> rows[i] in Queue(s, a);
  }
}
