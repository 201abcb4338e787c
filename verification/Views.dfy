/** What a candidate is shown, and which offer counts as the current one. */
module Views {
  import opened OrderBy
  import opened Tables
  import opened Transactions
  import opened Invariant
  import opened RowWrites
  import opened Filling
  import opened Batching
  import opened Safety
  import opened Evolution
  import opened Admission
  import opened Guarantees
  import Export

  datatype Shown = ShownPending | ShownAccepted | ShownDeclined | ShownExpired | Inactive

  datatype View = View(shown: Shown, actionable: bool) | NoView(error: Error)

  function Settled(status: OfferStatus): Shown {
    match status
    case Pending => ShownPending
    case Accepted => ShownAccepted
    case Declined => ShownDeclined
    case Expired => ShownExpired
  }

  /** The public page of one offer. It never writes: a deadline that has passed is only displayed. */
  function ResolveByToken(s: State, o: nat, now: int): View
    requires Refs(s)
  {
    if o >= |s.offers| then NoView(TokenInvalid)
    else
      var offer := s.offers[o];
      match s.activities[ActOf(s, o)].status
      case Disabled => NoView(ActivityDisabled)
      case Archived => View(if offer.status.Pending? then Inactive else Settled(offer.status), false)
      case Active =>
        if offer.status.Pending? && offer.expiresAt <= now then View(ShownExpired, false)
        else View(Settled(offer.status), offer.status.Pending?)
  }

  /** The page is actionable exactly when an acceptance, and exactly when a refusal, at that instant commits. */
  lemma ViewMatchesAction(steps: seq<Step>, o: nat, now: int)
    ensures var s := Reach(steps); var view := ResolveByToken(s, o, now);
      && (AcceptTx(s, o, now).reply.AcceptedNow? <==> view.View? && view.actionable)
      && (DeclineTx(s, o, now).reply.DeclinedNow? <==> view.View? && view.actionable)
  {
    ReachSafe(steps);
    var s := Reach(steps);
    if o < |s.offers| && s.offers[o].status.Pending? {
      PendingIsOffered(s, o);
    }
    ViewMatches(s, o, now);
  }

  lemma ViewMatches(s: State, o: nat, now: int)
    requires Refs(s)
    requires o < |s.offers| && s.offers[o].status.Pending? ==>
      s.candidates[CandOf(s, o)].acceptedOffer.None? && AppOf(s, o).status.Offered?
    ensures var view := ResolveByToken(s, o, now);
      && (AcceptTx(s, o, now).reply.AcceptedNow? <==> view.View? && view.actionable)
      && (DeclineTx(s, o, now).reply.DeclinedNow? <==> view.View? && view.actionable)
  {
  }

  /** What the page shows of an active activity is what an acceptance at that instant would answer; what it refuses to
      show, an acceptance refuses for the same reason. */
  lemma ViewExplainsAnswer(steps: seq<Step>, o: nat, now: int)
    ensures var s := Reach(steps); Explains(ResolveByToken(s, o, now), AcceptTx(s, o, now).reply)
  {
    ReachSafe(steps);
    ViewExplains(Reach(steps), o, now);
  }

  predicate Explains(view: View, answer: Reply) {
    match view
    case NoView(error) => answer == Failed(error)
    case View(shown, actionable) =>
      if answer == Failed(ActivityArchived) then !actionable && !shown.ShownPending?
      else
        match shown
        case ShownPending => actionable && answer.AcceptedNow?
        case ShownAccepted => !actionable && answer == AlreadyAccepted
        case ShownDeclined => !actionable && answer == Failed(OfferNotActionable(OfferStatus.Declined))
        case ShownExpired => !actionable && answer == Failed(Error.OfferExpired)
        case Inactive => false
  }

  lemma ViewExplains(s: State, o: nat, now: int)
    requires Refs(s) && Statuses(s) && Clean(s)
    ensures Explains(ResolveByToken(s, o, now), AcceptTx(s, o, now).reply)
  {
    if o < |s.offers| && s.offers[o].status.Pending? {
      PendingIsOffered(s, o);
    }
  }

  lemma AcceptedRow(s: State, o: nat, now: int)
    requires Refs(s) && Statuses(s) && Clean(s) && AcceptTx(s, o, now).reply.AcceptedNow?
    ensures var r := AcceptTx(s, o, now).after;
      && Refs(r) && o < |r.offers| && r.offers[o].status.Accepted? && ActOf(r, o) == ActOf(s, o)
      && r.activities == s.activities && s.activities[ActOf(s, o)].status.Active?
  {
    AcceptOutcome(s, o, now);
    AcceptingRow(s, o);
  }

  lemma AcceptingRow(s: State, o: nat)
    requires Refs(s) && o < |s.offers| && s.offers[o].status.Pending?
    ensures var r := Accepting(s, o);
      |r.offers| == |s.offers| && r.offers[o] == s.offers[o].(status := OfferStatus.Accepted)
      && ActOf(r, o) == ActOf(s, o)
      && r.activities == s.activities
  {
    var taken, c := Take(s, o), CandOf(s, o);
    TakeGrown(s, o);
    CloseAllGrown(taken, Links(taken, c), OfferStatus.Declined, CrossActivityDecline);
    CloseAllExact(taken, Links(taken, c), OfferStatus.Declined, CrossActivityDecline);
  }

  lemma DeclinedRow(s: State, o: nat, now: int)
    requires Refs(s) && Statuses(s) && DeclineTx(s, o, now).reply.DeclinedNow?
    ensures var r := DeclineTx(s, o, now).after;
      && Refs(r) && o < |r.offers| && r.offers[o].status.Declined? && ActOf(r, o) == ActOf(s, o)
      && r.activities == s.activities && s.activities[ActOf(s, o)].status.Active?
  {
    DeclineOutcome(s, o, now);
    CloseOneGrown(s, o, OfferStatus.Declined, Reason.OfferDeclined);
  }

  /** A committed acceptance is what the page shows from then on, and repeating it changes nothing. */
  lemma AcceptIsIdempotent(s: State, o: nat, now: int, later: int)
    requires Refs(s) && Statuses(s) && Clean(s) && AcceptTx(s, o, now).reply.AcceptedNow?
    ensures var r := AcceptTx(s, o, now).after;
      Refs(r) && ResolveByToken(r, o, later) == View(ShownAccepted, false)
      && AcceptTx(r, o, later) == Outcome(r, AlreadyAccepted)
  {
    AcceptedRow(s, o, now);
  }

  /** The same for a refusal. */
  lemma DeclineIsIdempotent(s: State, o: nat, now: int, later: int)
    requires Refs(s) && Statuses(s) && DeclineTx(s, o, now).reply.DeclinedNow?
    ensures var r := DeclineTx(s, o, now).after;
      Refs(r) && ResolveByToken(r, o, later) == View(ShownDeclined, false)
      && DeclineTx(r, o, later) == Outcome(r, AlreadyDeclined)
  {
    DeclinedRow(s, o, now);
  }

  lemma AnswersOf(s: State, o: nat, now: int)
    requires Refs(s) && o < |s.offers| && !s.offers[o].status.Pending?
    ensures var status, offer := s.activities[ActOf(s, o)].status, s.offers[o].status;
      && EarlyAnswer(status, offer, true) == Some(AcceptTx(s, o, now).reply) && AcceptTx(s, o, now).after == s
      && EarlyAnswer(status, offer, false) == Some(DeclineTx(s, o, now).reply) && DeclineTx(s, o, now).after == s
  {
  }

  /** The answer given from an early read without any lock is the one the transaction would give however many steps
      later it ran, as long as the activity has not changed its status: a settled offer answers the same for ever. */
  lemma EarlyAnswerIsRight(steps: seq<Step>, more: seq<Step>, o: nat, now: int)
    requires var s := Reach(steps); o < |s.offers| && !s.offers[o].status.Pending?
    requires LaterStatus(steps, more, o) == Reach(steps).activities[ActOf(Reach(steps), o)].status
    ensures var s, r := Reach(steps), Reach(steps + more); var status := s.activities[ActOf(s, o)].status;
      && EarlyAnswer(status, s.offers[o].status, true) == Some(AcceptTx(r, o, now).reply)
      && AcceptTx(r, o, now).after == r
      && EarlyAnswer(status, s.offers[o].status, false) == Some(DeclineTx(r, o, now).reply)
      && DeclineTx(r, o, now).after == r
  {
    ReachSafe(steps);
    ReachSafe(steps + more);
    FinalStaysFinal(steps, more, o);
    AnswersOf(Reach(steps + more), o, now);
  }

  /** The status of an offer's activity after `more` steps. */
  function LaterStatus(steps: seq<Step>, more: seq<Step>, o: nat): ActivityStatus
    requires o < |Reach(steps).offers|
  {
    FinalStaysFinal(steps, more, o);
    Reach(steps + more).activities[ActOf(Reach(steps + more), o)].status
  }

  // ---------- the mail recheck ----------

  datatype Verdict = Sendable | ActivityIsDisabled | ActivityIsArchived | OfferIsLate | OfferIsSettled | OfferIsMissing

  /** What the mail worker finds when it looks at an offer again before it sends: the activity first, then the offer. */
  function RecheckOffer(s: State, o: nat, now: int): Verdict
    requires Refs(s)
  {
    if o >= |s.offers| then OfferIsMissing
    else
      match s.activities[ActOf(s, o)].status
      case Disabled => ActivityIsDisabled
      case Archived => ActivityIsArchived
      case Active =>
        match s.offers[o].status
        case Pending => if s.offers[o].expiresAt <= now then OfferIsLate else Sendable
        case Expired => OfferIsLate
        case Accepted => OfferIsSettled
        case Declined => OfferIsSettled
  }

  /** A mail goes out exactly for an offer whose page is actionable at that moment. */
  lemma MailMatchesView(s: State, o: nat, now: int)
    requires Refs(s)
    ensures RecheckOffer(s, o, now).Sendable? <==>
      ResolveByToken(s, o, now).View? && ResolveByToken(s, o, now).actionable
  {
  }

  /** Once an offer is settled no later recheck lets a mail for it out. */
  lemma NoMailAfterSettlement(steps: seq<Step>, more: seq<Step>, o: nat, now: int)
    requires var s := Reach(steps); o < |s.offers| && !s.offers[o].status.Pending?
    ensures !RecheckOffer(Reach(steps + more), o, now).Sendable?
  {
    ReachSafe(steps);
    FinalStaysFinal(steps, more, o);
  }

  // ---------- the current offer ----------

  /** An application's current offer, its active one or else its latest, is simply its newest in every reachable
      state: an older offer is never active. */
  lemma CurrentIsNewest(steps: seq<Step>, k: nat)
    requires k < |Reach(steps).applications|
    ensures CurrentOffer(Reach(steps), k) == Newest(Reach(steps), k)
  {
    ReachSafe(steps);
    ActiveIsNewest(Reach(steps), k);
  }

  lemma ActiveIsNewest(s: State, k: nat)
    requires Statuses(s)
    ensures CurrentOffer(s, k) == Newest(s, k)
  {
    var active := NewestHolding(s, |s.offers|, k);
    assert active >= 0 ==> Newest(s, s.offers[active].application) == active;
  }

  /** The offer table as the pickers of the list, the export and the repository read it. */
  function HistoryOf(s: State): (history: seq<Export.Row>)
    ensures |history| == |s.offers| && Export.DistinctIds(history)
  {
    seq(|s.offers|, i requires 0 <= i < |s.offers| => Export.Row(i, s.offers[i].application, s.offers[i].status))
  }

  /** Special issuing judges the same offer as current that the list and the export show. */
  lemma PickersAgree(s: State, k: nat, shown: nat)
    requires Export.IsCurrent(HistoryOf(s), k, shown)
    ensures CurrentOffer(s, k) == shown && Export.LatestForApplication(HistoryOf(s), k) == Some(shown)
  {
    var history, current := HistoryOf(s), CurrentOffer(s, k);
    assert history[shown].application == s.offers[shown].application == k;
    CurrentIs(s, k);
    Export.CurrentIsUnique(history, k, current, shown);
    var latest := Export.LatestForApplication(history, k);
    if latest.Some? {
      Export.CurrentIsUnique(history, k, latest.value, shown);
    }
  }

  lemma CurrentIs(s: State, k: nat)
    requires exists i :: 0 <= i < |s.offers| && s.offers[i].application == k
    ensures CurrentOffer(s, k) >= 0 && Export.IsCurrent(HistoryOf(s), k, CurrentOffer(s, k))
  {
    var history, active := HistoryOf(s), NewestHolding(s, |s.offers|, k);
    assert active >= 0 ==> Export.ActiveOf(history[active], k);
    assert forall j :: 0 <= j < |history| && Export.ActiveOf(history[j], k) ==>
        s.offers[j].application == k && Holding(s.offers[j].status);
    assert forall j :: 0 <= j < |history| && history[j].application == k ==> s.offers[j].application == k;
  }

  // ---------- the batch preview ----------

  /** The next click does what its preview announced: full, it is refused; otherwise it reaches the first deserving
      applications, no more than shown as the batch size, the free seats and the queue, and a batch that reaches
      somebody gets the announced number. */
  lemma PreviewMatchesIssue(s: State, a: nat, limit: nat, platformDefault: int, now: int, shown: PreviewReply)
    requires Refs(s) && shown == PreviewBatch(s, a, limit, platformDefault) && shown.Preview?
    ensures a < |s.activities| && shown.batchSize > 0
    ensures var r, reached := IssueBatch(s, a, limit, platformDefault, true, now),
        Winners(s, a, Room(s, a, shown.batchSize));
      && |reached| <= shown.batchSize && |reached| <= shown.maxIssuable && |reached| <= shown.waiting == |Queue(s, a)|
      && (if shown.maxIssuable == 0 then r == Reject(s, QuotaExceeded) else r.reply == Issued(|reached|))
      && r.after.batches == s.batches +
          if reached == [] then [] else [BatchRow(s.nextBatch, a, shown.nextNo, |reached|)]
  {
    PreviewGates(s, a, limit, platformDefault, now, shown);
    WinnersFew(s, a, Room(s, a, shown.batchSize));
    if shown.maxIssuable > 0 {
      var size: nat := shown.batchSize;
      BatchRuns(s, a, limit, platformDefault, true, now);
      BatchReply(s, a, limit, platformDefault, now);
      BatchReaches(s, a, size, now);
    }
  }

  lemma PreviewGates(s: State, a: nat, limit: nat, platformDefault: int, now: int, shown: PreviewReply)
    requires Refs(s) && shown == PreviewBatch(s, a, limit, platformDefault) && shown.Preview?
    ensures a < |s.activities| && shown.batchSize == BatchLimit(s.activities[a], limit, platformDefault) > 0
    ensures shown.maxIssuable == Room(s, a, 0) >= Room(s, a, shown.batchSize)
    ensures Room(s, a, shown.batchSize) <= shown.batchSize
    ensures shown.waiting == |Queue(s, a)| && shown.nextNo == MaxBatchNo(s.batches, |s.batches|, a) + 1
    ensures BatchGates(s, a, limit, platformDefault, true) <==> shown.maxIssuable > 0
    ensures shown.maxIssuable == 0 ==> IssueBatch(s, a, limit, platformDefault, true, now) == Reject(s, QuotaExceeded)
  {
  }

  lemma BatchReply(s: State, a: nat, limit: nat, platformDefault: int, now: int)
    requires Refs(s) && BatchGates(s, a, limit, platformDefault, true)
    ensures var filled := BatchFilled(s, a, BatchLimit(s.activities[a], limit, platformDefault), now);
      |filled.offers| >= |s.offers|
      && IssueBatch(s, a, limit, platformDefault, true, now).reply == Issued(|filled.offers| - |s.offers|)
  {
    FillGrown(s.(nextBatch := s.nextBatch + 1), a, BatchLimit(s.activities[a], limit, platformDefault),
        BatchTerms(s, a, now));
  }

  lemma BatchReaches(s: State, a: nat, size: nat, now: int)
    requires Refs(s) && a < |s.activities| && s.activities[a].status.Active? && s.activities[a].frozen
    ensures var filled := BatchFilled(s, a, size, now);
      |filled.offers| == |s.offers| + |Winners(s, a, Room(s, a, size))| && filled.batches == s.batches
  {
    var open := s.(nextBatch := s.nextBatch + 1);
    OpenSame(s, open, a, size);
    FillReaches(open, a, size, BatchTerms(s, a, now));
    BatchFilledIs(s, open, a, size, now);
  }

  lemma OpenSame(s: State, open: State, a: nat, size: nat)
    requires Refs(s) && a < |s.activities| && open == s.(nextBatch := open.nextBatch)
    ensures Room(open, a, size) == Room(s, a, size)
    ensures Winners(open, a, Room(s, a, size)) == Winners(s, a, Room(s, a, size))
  {
    SamePlaces(s, open, a);
    WinnersSame(s, open, a, Room(s, a, size));
  }

  lemma FillReaches(s: State, a: nat, size: nat, terms: Terms)
    requires Refs(s) && a < |s.activities| && s.activities[a].status.Active? && s.activities[a].frozen
    ensures |Fill(s, a, size, terms).offers| == |s.offers| + |Winners(s, a, Room(s, a, size))|
    ensures Fill(s, a, size, terms).batches == s.batches
  {
    FillIsLoop(s, a, size, terms);
    LoopReaches(s, a, Room(s, a, size), terms);
  }

  lemma LoopReaches(s: State, a: nat, room: nat, terms: Terms)
    requires Refs(s)
    ensures |FillLoop(s, a, room, terms).offers| == |s.offers| + |Winners(s, a, room)|
    ensures FillLoop(s, a, room, terms).batches == s.batches
  {
    FillLoopOffers(s, a, room, terms);
    FillLoopStops(s, a, room, terms);
  }

  lemma {:induction false} EligibleFew(s: State, rows: seq<nat>)
    requires Refs(s) && Rows(s, rows)
    ensures |Eligible(s, rows)| <= |rows|
  {
  }

  lemma WinnersFew(s: State, a: nat, room: nat)
    requires Refs(s)
    ensures |Winners(s, a, room)| <= |Queue(s, a)|
  {
    QueueRows(s, a);
    EligibleFew(s, QueueByRank(s, a));
  }
}
