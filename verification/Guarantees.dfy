/** What holds in every state the system can reach, whatever the sequence of steps. */
module Guarantees {
  import opened OrderBy
  import opened Tables
  import opened Transactions
  import opened Invariant
  import opened RowWrites
  import opened Filling
  import opened Preparing
  import opened Safety
  import opened Evolution
  import opened Losses
  import opened Admission

  /** The state a run of the system reaches from the empty database. */
  function Reach(steps: seq<Step>): (s: State)
    ensures Refs(s)
  {
    Run(EMPTY, steps)
  }

  /** Every reachable state is safe. */
  lemma ReachSafe(steps: seq<Step>)
    ensures Safe(Reach(steps))
  {
    EmptyIsSafe();
    RunKeeps(EMPTY, steps);
  }

  lemma {:induction false} RunAppend(s: State, steps: seq<Step>, more: seq<Step>)
    requires Refs(s)
    ensures Run(s, steps + more) == Run(Run(s, steps), more)
    decreases |steps|
  {
    if steps == [] {
      assert [] + more == more;
    } else {
      assert (steps + more)[0] == steps[0] && (steps + more)[1..] == steps[1..] + more;
      RunAppend(Apply(s, steps[0]), steps[1..], more);
    }
  }

  lemma LaterEvolves(steps: seq<Step>, more: seq<Step>)
    ensures Evolves(Reach(steps), Reach(steps + more))
  {
    ReachSafe(steps);
    RunAppend(EMPTY, steps, more);
    RunEvolves(Reach(steps), more);
  }

  // ---------- accepted at most once ----------

  lemma PointerIsUnique(s: State, i: nat, j: nat)
    requires Refs(s) && Pointers(s) && Clean(s) && i < |s.offers| && j < |s.offers|
    requires s.offers[i].status.Accepted? && CandOf(s, j) == CandOf(s, i) && Holding(s.offers[j].status)
    ensures i == j && s.candidates[CandOf(s, i)].acceptedOffer == Some(i)
  {
  }

  /** A candidate who has accepted holds exactly that one offer over all activities, PENDING ones included, and the
      accepted-offer column names it, now and after every further step. */
  lemma AcceptedOnce(steps: seq<Step>, more: seq<Step>, i: nat, j: nat)
    requires var s := Reach(steps); i < |s.offers| && s.offers[i].status.Accepted?
    requires var r := Reach(steps + more); j < |r.offers| && Holding(r.offers[j].status)
    requires CandOf(Reach(steps + more), j) == CandOf(Reach(steps), i)
    ensures i == j && Reach(steps + more).candidates[CandOf(Reach(steps), i)].acceptedOffer == Some(i)
  {
    ReachSafe(steps);
    ReachSafe(steps + more);
    var s, r := Reach(steps), Reach(steps + more);
    LaterEvolves(steps, more);
    assert OfferEvolves(s.offers[i], r.offers[i]);
    assert ApplicationEvolves(AppOf(s, i), AppOf(r, i), Frozen(s, AppOf(s, i).activity));
    PointerIsUnique(r, i, j);
  }

  /** A set accepted-offer column always names an ACCEPTED offer of that candidate. */
  lemma PointerIsTrue(steps: seq<Step>, c: nat)
    requires var s := Reach(steps); c < |s.candidates| && s.candidates[c].acceptedOffer.Some?
    ensures var s := Reach(steps); var i := s.candidates[c].acceptedOffer.value;
      i < |s.offers| && s.offers[i].status.Accepted? && CandOf(s, i) == c
  {
    ReachSafe(steps);
  }

  /** Whatever the acceptance finds: with a PENDING offer the accepted-offer column is empty and the application
      OFFERED, so both branches for a column already set and every lost conditional update are dead. */
  lemma AcceptNeverConflicts(steps: seq<Step>, o: nat, now: int)
    ensures var s := Reach(steps); var r := AcceptTx(s, o, now);
      && r.reply != Failed(Conflict)
      && (o < |s.offers| && s.offers[o].status.Pending? ==>
            s.candidates[CandOf(s, o)].acceptedOffer.None? && AppOf(s, o).status.Offered? && r.reply != AlreadyAccepted)
  {
    ReachSafe(steps);
    AcceptClear(Reach(steps), o, now);
  }

  lemma AcceptClear(s: State, o: nat, now: int)
    requires Refs(s) && Statuses(s) && Clean(s)
    ensures var r := AcceptTx(s, o, now);
      && r.reply != Failed(Conflict)
      && (o < |s.offers| && s.offers[o].status.Pending? ==>
            s.candidates[CandOf(s, o)].acceptedOffer.None? && AppOf(s, o).status.Offered? && r.reply != AlreadyAccepted)
  {
    if o < |s.offers| && s.offers[o].status.Pending? {
      PendingIsOffered(s, o);
    }
  }

  lemma DeclineClear(s: State, o: nat, now: int)
    requires Refs(s) && Statuses(s) && Clean(s)
    ensures DeclineTx(s, o, now).reply != Failed(Conflict)
  {
    if o < |s.offers| && s.offers[o].status.Pending? {
      PendingIsOffered(s, o);
    }
  }

  lemma PendingIsOffered(s: State, o: nat)
    requires Refs(s) && Statuses(s) && Clean(s) && o < |s.offers| && s.offers[o].status.Pending?
    ensures AppOf(s, o).status.Offered? && s.candidates[CandOf(s, o)].acceptedOffer.None?
  {
    assert StatusFits(s, s.offers[o].application);
  }

  lemma DeclineNeverConflicts(steps: seq<Step>, o: nat, now: int)
    ensures DeclineTx(Reach(steps), o, now).reply != Failed(Conflict)
  {
    ReachSafe(steps);
    DeclineClear(Reach(steps), o, now);
  }

  /** One candidate per student and one application per candidate and activity, without relying on unique keys. */
  lemma NoDuplicates(steps: seq<Step>, j: nat, k: nat)
    requires var s := Reach(steps); j < |s.applications| && k < |s.applications|
    requires var s := Reach(steps); s.applications[j].activity == s.applications[k].activity
    requires var s := Reach(steps);
      s.candidates[s.applications[j].candidate].studentId == s.candidates[s.applications[k].candidate].studentId
    ensures j == k
  {
    ReachSafe(steps);
    OneRowEach(Reach(steps), j, k);
  }

  lemma OneRowEach(s: State, j: nat, k: nat)
    requires Refs(s) && Unique(s) && j < |s.applications| && k < |s.applications|
    requires s.applications[j].activity == s.applications[k].activity
    requires s.candidates[s.applications[j].candidate].studentId == s.candidates[s.applications[k].candidate].studentId
    ensures j == k
  {
    var c, d := s.applications[j].candidate, s.applications[k].candidate;
    var first, second := s.candidates[if c < d then c else d], s.candidates[if c < d then d else c];
    assert first.studentId == second.studentId;
    if j != k {
      OneApplicationEach(s, j, k);
    }
  }

  // ---------- no justified envy ----------

  lemma Envy(s: State, j: nat, k: nat)
    requires Refs(s) && Fair(s) && Statuses(s) && Ranks(s) && Settings(s) && j < |s.applications|
    requires k < |s.applications|
    requires s.applications[j].activity == s.applications[k].activity
    requires Ordered(s.activities[s.applications[j].activity])
    requires s.applications[j].status.Waiting? && Newest(s, k) >= 0
    ensures RankOf(s.applications[k]) < RankOf(s.applications[j]) && s.applications[k].score >= s.applications[j].score
  {
    var a := s.applications[j].activity;
    assert StatusFits(s, k) && FairPair(s, j, k) && SettingsOk(s.activities[a]) && Ranking(s, a);
    assert j in AppsOf(s, a) && k in AppsOf(s, a);
  }

  /** In an AUTO or BATCH activity whoever waits has the worse rank and at most the score of everybody who ever got
      an offer. */
  lemma NoJustifiedEnvy(steps: seq<Step>, j: nat, k: nat)
    requires var s := Reach(steps);
      && j < |s.applications| && k < |s.applications| && s.applications[j].activity == s.applications[k].activity
      && Ordered(s.activities[s.applications[j].activity]) && s.applications[j].status.Waiting? && Newest(s, k) >= 0
    ensures var s := Reach(steps);
      RankOf(s.applications[k]) < RankOf(s.applications[j]) && s.applications[k].score >= s.applications[j].score
  {
    ReachSafe(steps);
    Envy(Reach(steps), j, k);
  }

  lemma QueueTailOf(s: State, a: nat, j: nat, k: nat)
    requires Refs(s) && Fair(s) && a < |s.activities| && Ordered(s.activities[a]) && j in Queue(s, a)
    requires k in AppsOf(s, a)
    requires RankOf(s.applications[j]) <= RankOf(s.applications[k])
    ensures k in Queue(s, a)
  {
    assert FairPair(s, j, k);
  }

  /** The queue is a tail of the frozen ranking: whoever ranks behind a waiting applicant waits too. */
  lemma QueueIsSuffix(steps: seq<Step>, a: nat, j: nat, k: nat)
    requires var s := Reach(steps);
      a < |s.activities| && Ordered(s.activities[a]) && j in Queue(s, a) && k in AppsOf(s, a)
    requires RankOf(Reach(steps).applications[j]) <= RankOf(Reach(steps).applications[k])
    ensures k in Queue(Reach(steps), a)
  {
    ReachSafe(steps);
    QueueTailOf(Reach(steps), a, j, k);
  }

  lemma Elsewhere(s: State, k: nat)
    requires Refs(s) && Unique(s) && Statuses(s) && Pointers(s) && k < |s.applications|
    requires s.applications[k].status.Ineligible?
    ensures var c := s.applications[k].candidate; s.candidates[c].acceptedOffer.Some?
    ensures var i := s.candidates[s.applications[k].candidate].acceptedOffer.value;
      && i < |s.offers| && s.offers[i].status.Accepted? && CandOf(s, i) == s.applications[k].candidate
      && ActOf(s, i) != s.applications[k].activity
  {
    assert HasAccepted(s, k) && StatusFits(s, k);
    var i := s.candidates[s.applications[k].candidate].acceptedOffer.value;
    var x := s.offers[i].application;
    assert Newest(s, x) == i;
    OneApplicationEach(s, x, k);
  }

  lemma OneApplicationEach(s: State, j: nat, k: nat)
    requires Unique(s) && j < |s.applications| && k < |s.applications| && j != k
    requires s.applications[j].candidate == s.applications[k].candidate
    ensures s.applications[j].activity != s.applications[k].activity
  {
    var x, y := if j < k then j else k, if j < k then k else j;
    var first, second := s.applications[x], s.applications[y];
    assert first.activity != second.activity || first.candidate != second.candidate;
  }

  predicate AcceptedElsewhere(s: State, k: nat)
    requires Refs(s) && k < |s.applications|
  {
    exists i :: 0 <= i < |s.offers| && s.offers[i].status.Accepted? && CandOf(s, i) == s.applications[k].candidate
                && ActOf(s, i) != s.applications[k].activity
  }

  /** Nobody is INELIGIBLE without an ACCEPTED offer in another activity. */
  lemma IneligibleMeansElsewhere(steps: seq<Step>, k: nat)
    requires var s := Reach(steps); k < |s.applications| && s.applications[k].status.Ineligible?
    ensures AcceptedElsewhere(Reach(steps), k)
  {
    ReachSafe(steps);
    Elsewhere(Reach(steps), k);
  }

  // ---------- quota and counts ----------

  function AppsAmong(s: State, a: nat, among: set<AppStatus>): set<nat> {
    set k | k in AppsOf(s, a) && s.applications[k].status in among
  }

  lemma OneMoreStatus(s: State, a: nat, among: set<AppStatus>, status: AppStatus)
    requires status !in among
    ensures |AppsAmong(s, a, among + {status})| == |AppsAmong(s, a, among)| + |AppsWith(s, a, status)|
  {
    var x, y := AppsAmong(s, a, among), AppsWith(s, a, status);
    assert AppsAmong(s, a, among + {status}) == x + y;
    assert x !! y;
  }

  lemma SixParts(s: State, a: nat)
    ensures |AppsOf(s, a)| == |AppsWith(s, a, AppStatus.Waiting)| + |AppsWith(s, a, AppStatus.Offered)|
                              + |AppsWith(s, a, AppStatus.Accepted)| + |AppsWith(s, a, AppStatus.Declined)|
                              + |AppsWith(s, a, AppStatus.Expired)| + |AppsWith(s, a, AppStatus.Ineligible)|
  {
    var one := {AppStatus.Waiting};
    var two := one + {AppStatus.Offered};
    var three := two + {AppStatus.Accepted};
    var four := three + {AppStatus.Declined};
    var five := four + {AppStatus.Expired};
    assert AppsAmong(s, a, {}) == {} && {} + {AppStatus.Waiting} == one;
    OneMoreStatus(s, a, {}, AppStatus.Waiting);
    OneMoreStatus(s, a, one, AppStatus.Offered);
    OneMoreStatus(s, a, two, AppStatus.Accepted);
    OneMoreStatus(s, a, three, AppStatus.Declined);
    OneMoreStatus(s, a, four, AppStatus.Expired);
    OneMoreStatus(s, a, five, AppStatus.Ineligible);
    assert AppsAmong(s, a, five + {AppStatus.Ineligible}) == AppsOf(s, a);
  }

  /** The seats taken never exceed the quota; the offer table and the dashboard's application counts agree on them;
      the six status counts sum to all applications; every offer beyond an application's first is SPECIAL. */
  lemma BooksBalance(steps: seq<Step>, a: nat)
    requires a < |Reach(steps).activities|
    ensures var s := Reach(steps);
      && Occupied(s, a) <= s.activities[a].quota
      && Occupied(s, a) == |AppsWith(s, a, AppStatus.Offered)| + |AppsWith(s, a, AppStatus.Accepted)|
      && |OffersIn(s, a)| - |EverOffered(s, a)| == |SpecialsIn(s, a)|
      && |AppsOf(s, a)| == |AppsWith(s, a, AppStatus.Waiting)| + Occupied(s, a) + |AppsWith(s, a, AppStatus.Declined)|
                           + |AppsWith(s, a, AppStatus.Expired)| + |AppsWith(s, a, AppStatus.Ineligible)|
  {
    ReachSafe(steps);
    var s := Reach(steps);
    assert BooksOf(s, a);
    SixParts(s, a);
  }

  /** An application has no offers exactly when it waits or is ineligible; otherwise its status mirrors its newest
      offer. An active offer is the newest, so there is at most one. */
  lemma StatusIsHistory(steps: seq<Step>, k: nat)
    requires k < |Reach(steps).applications|
    ensures var s := Reach(steps); var status, newest := s.applications[k].status, Newest(s, k);
      && (newest < 0 <==> status.Waiting? || status.Ineligible?)
      && (newest >= 0 ==> status == Mirrored(s.offers[newest].status))
      && forall i :: 0 <= i < |s.offers| && s.offers[i].application == k ==>
           i <= newest && (Holding(s.offers[i].status) ==> i == newest)
  {
    ReachSafe(steps);
    HistoryOfStatus(Reach(steps), k);
  }

  lemma HistoryOfStatus(s: State, k: nat)
    requires Statuses(s) && k < |s.applications|
    ensures var status, newest := s.applications[k].status, Newest(s, k);
      && (newest < 0 <==> status.Waiting? || status.Ineligible?)
      && (newest >= 0 ==> status == Mirrored(s.offers[newest].status))
      && forall i :: 0 <= i < |s.offers| && s.offers[i].application == k ==>
           i <= newest && (Holding(s.offers[i].status) ==> i == newest)
  {
    assert StatusFits(s, k);
  }

  /** A settled offer, an archived activity and a frozen rank stay as they are for ever; nobody waits again. */
  lemma FinalStaysFinal(steps: seq<Step>, more: seq<Step>, i: nat)
    requires var s := Reach(steps); i < |s.offers|
    ensures var s, r := Reach(steps), Reach(steps + more);
      && i < |r.offers| && (!s.offers[i].status.Pending? ==> r.offers[i] == s.offers[i])
      && CandOf(r, i) == CandOf(s, i) && ActOf(r, i) == ActOf(s, i)
      && AppOf(r, i).rank == AppOf(s, i).rank && AppOf(r, i).score == AppOf(s, i).score && !AppOf(r, i).status.Waiting?
      && r.activities[ActOf(s, i)].mode == s.activities[ActOf(s, i)].mode
  {
    ReachSafe(steps);
    ReachSafe(steps + more);
    var s, r := Reach(steps), Reach(steps + more);
    LaterEvolves(steps, more);
    OfferedIsFrozen(s, i);
    OfferStays(s, r, i);
  }

  lemma OfferedIsFrozen(s: State, i: nat)
    requires Refs(s) && Statuses(s) && History(s) && i < |s.offers|
    ensures !AppOf(s, i).status.Waiting? && s.activities[ActOf(s, i)].frozen
  {
    var k := s.offers[i].application;
    assert StatusFits(s, k) && Newest(s, k) >= i;
    assert s.activities[ActOf(s, i)].frozen;
  }

  lemma OfferStays(s: State, r: State, i: nat)
    requires Refs(s) && Refs(r) && Evolves(s, r) && i < |s.offers|
    requires !AppOf(s, i).status.Waiting? && s.activities[ActOf(s, i)].frozen
    ensures i < |r.offers| && (!s.offers[i].status.Pending? ==> r.offers[i] == s.offers[i])
    ensures CandOf(r, i) == CandOf(s, i) && ActOf(r, i) == ActOf(s, i)
    ensures AppOf(r, i).rank == AppOf(s, i).rank && AppOf(r, i).score == AppOf(s, i).score
    ensures !AppOf(r, i).status.Waiting?
    ensures r.activities[ActOf(s, i)].mode == s.activities[ActOf(s, i)].mode
  {
    var k := s.offers[i].application;
    assert OfferEvolves(s.offers[i], r.offers[i]);
    assert ApplicationEvolves(s.applications[k], r.applications[k], Frozen(s, s.applications[k].activity));
    assert ActivityEvolves(s.activities[ActOf(s, i)], r.activities[ActOf(s, i)]);
  }

  /** An archived activity holds no PENDING offer and stays archived. */
  lemma ArchivedIsQuiet(steps: seq<Step>, more: seq<Step>, a: nat)
    requires a < |Reach(steps).activities| && Reach(steps).activities[a].status.Archived?
    ensures var r := Reach(steps + more);
      a < |r.activities| && r.activities[a].status.Archived? && PendingIn(r, a) == {}
  {
    ReachSafe(steps);
    ReachSafe(steps + more);
    LaterEvolves(steps, more);
    assert ActivityEvolves(Reach(steps).activities[a], Reach(steps + more).activities[a]);
  }

  // ---------- issue history ----------

  /** The first offer of an application comes from the mode of its activity, every later one is SPECIAL, and it is a
      BATCH offer exactly when it is linked to a recorded batch of that activity. */
  lemma OriginOfOffers(steps: seq<Step>, i: nat, j: nat)
    requires var s := Reach(steps); i < j < |s.offers| && s.offers[i].application == s.offers[j].application
    ensures Reach(steps).offers[j].source.Special?
  {
    ReachSafe(steps);
    LaterIsSpecial(Reach(steps), i, j);
  }

  lemma LaterIsSpecial(s: State, i: nat, j: nat)
    requires Refs(s) && History(s) && i < j < |s.offers| && s.offers[i].application == s.offers[j].application
    ensures s.offers[j].source.Special?
  {
    assert SourceFits(s, j) && Owners(s.offers)[i] == s.offers[j].application;
  }

  lemma FirstOffer(steps: seq<Step>, i: nat)
    requires var s := Reach(steps); i < |s.offers| && forall j :: 0 <= j < i ==>
        s.offers[j].application != s.offers[i].application
    ensures var s := Reach(steps); s.offers[i].source == SourceFor(s.activities[ActOf(s, i)].mode)
    ensures var s := Reach(steps); s.offers[i].batch.Some? ==> BatchKnown(s, s.offers[i].batch.value, ActOf(s, i))
  {
    ReachSafe(steps);
    assert SourceFits(Reach(steps), i) && BatchLinked(Reach(steps), i);
  }

  /** The batches of an activity are numbered 1, 2, 3, ... and each counts its offers, at least one. */
  lemma BatchesCount(steps: seq<Step>, j: nat)
    requires j < |Reach(steps).batches|
    ensures var s := Reach(steps); var row := s.batches[j];
      row.no == CountBatches(s.batches, j, row.activity) + 1 && row.issued == |Linked(s, row.id)| >= 1
  {
    ReachSafe(steps);
  }

  // ---------- ranking ----------

  /** Whenever the ranking is not dirty the ranks lie in 1..N, differ, and follow the scores. */
  lemma RankingIsBijection(steps: seq<Step>, a: nat, j: nat, k: nat)
    requires var s := Reach(steps);
      a < |s.activities| && !s.activities[a].dirty && j in AppsOf(s, a) && k in AppsOf(s, a) && j != k
    ensures var s := Reach(steps);
      && 1 <= RankOf(s.applications[j]) <= |AppsOf(s, a)| && RankOf(s.applications[j]) != RankOf(s.applications[k])
      && (s.applications[j].score > s.applications[k].score ==> RankOf(s.applications[j]) < RankOf(s.applications[k]))
  {
    ReachSafe(steps);
    var s := Reach(steps);
    RanksTell(s, a, j, k);
  }

  lemma RanksTell(s: State, a: nat, j: nat, k: nat)
    requires RanksDiffer(s) && Ranking(s, a) && j in AppsOf(s, a) && k in AppsOf(s, a) && j != k
    ensures 1 <= RankOf(s.applications[j]) <= |AppsOf(s, a)| && RankOf(s.applications[j]) != RankOf(s.applications[k])
    ensures s.applications[j].score > s.applications[k].score ==> RankOf(s.applications[j]) < RankOf(s.applications[k])
  {
    DifferentRanks(s, j, k);
  }

  function UpTo(n: nat): (all: set<nat>)
    ensures |all| == n && forall x :: x in all <==> 1 <= x <= n
  {
    if n == 0 then {} else UpTo(n - 1) + {n}
  }

  function RanksOf(apps: seq<Application>, pool: set<nat>): (ranks: set<nat>) {
    set k | k in pool && k < |apps| :: RankOf(apps[k])
  }

  lemma {:induction false} RanksAsMany(apps: seq<Application>, pool: set<nat>)
    requires forall k :: k in pool ==> k < |apps|
    requires forall j, k :: j in pool && k in pool && j != k ==> RankOf(apps[j]) != RankOf(apps[k])
    ensures |RanksOf(apps, pool)| == |pool|
    decreases pool
  {
    if pool == {} {
      assert RanksOf(apps, pool) == {};
    } else {
      var k :| k in pool;
      RanksAsMany(apps, pool - {k});
      assert RanksOf(apps, pool) == RanksOf(apps, pool - {k}) + {RankOf(apps[k])};
    }
  }

  lemma SameSize(x: set<nat>, y: set<nat>)
    requires x <= y && |x| == |y|
    ensures x == y
  {
    assert y == x + (y - x);
  }

  lemma AllRanksTaken(s: State, a: nat, n: nat)
    requires RanksDiffer(s) && Ranking(s, a) && 1 <= n <= |AppsOf(s, a)|
    ensures Taken(s, a, n)
  {
    var pool := AppsOf(s, a);
    forall j, k | j in pool && k in pool && j != k ensures RankOf(s.applications[j]) != RankOf(s.applications[k]) {
      RanksTell(s, a, j, k);
    }
    RanksAsMany(s.applications, pool);
    SameSize(RanksOf(s.applications, pool), UpTo(|pool|));
    assert n in RanksOf(s.applications, pool);
    var k :| k in pool && RankOf(s.applications[k]) == n;
    assert s.applications[k].rank.Some?;
  }

  /** Whenever the ranking is not dirty no rank from 1 to N is missing. */
  lemma NoRankIsMissing(steps: seq<Step>, a: nat, n: nat)
    requires var s := Reach(steps); a < |s.activities| && !s.activities[a].dirty && 1 <= n <= |AppsOf(s, a)|
    ensures Taken(Reach(steps), a, n)
  {
    ReachSafe(steps);
    AllRanksTaken(Reach(steps), a, n);
  }

  /** Import orders are exactly 1..N in the order of import. */
  lemma ImportOrdersCount(steps: seq<Step>, k: nat)
    requires k < |Reach(steps).applications|
    ensures var s := Reach(steps); var a := s.applications[k].activity;
      s.applications[k].importOrder == |set j: nat | j < k && s.applications[j].activity == a| + 1
  {
    ReachSafe(steps);
    var s := Reach(steps);
    CountIsSize(s.applications, k, s.applications[k].activity);
  }

  // ---------- seats ----------

  /** While no process dies owing a refill and no owed refill fails together with its fallback intent, every ACTIVE,
      started, unpaused AUTO activity is full, has nobody waiting, or has its refill promised by an intent or owed by a
      process. */
  lemma NoSeatIsLost(steps: seq<Step>, a: nat)
    requires Lossless(steps) && a < |Reach(steps).activities| && MayRefill(Reach(steps).activities[a])
    ensures var s := Reach(steps);
      Occupied(s, a) == s.activities[a].quota || Queue(s, a) == {} || HasIntent(s, a) || a in s.owed
  {
    ReachSafe(steps);
    var s := Reach(steps);
    EmptyIsSafe();
    RunCoversSeats(EMPTY, steps);
    assert SeatCovered(s, a, s.owed);
  }

  /** Of all runs from the empty database, exactly those lose a seat on the way that take one of the two steps `Loses`
      names in the situation it names. */
  lemma SeatsLostExactly(steps: seq<Step>)
    ensures CoveredAlong(EMPTY, steps) <==> !LosesAlong(EMPTY, steps)
  {
    EmptyIsSafe();
    RunLoses(EMPTY, steps);
  }

  /** A raised quota of a refilling activity with people waiting and no intent recorded before. */
  predicate LosesSeats(s: State, a: nat, quota: int)
    requires a < |s.activities|
  {
    quota > s.activities[a].quota && MayRefill(s.activities[a]) && Queue(s, a) != {} && !HasIntent(s, a)
  }

  lemma SeatsWithinQuota(s: State, a: nat)
    requires Refs(s) && Quotas(s) && a < |s.activities|
    ensures Occupied(s, a) <= s.activities[a].quota
  {
  }

  lemma RaisedOwes(s: State, a: nat, quota: int)
    requires Refs(s) && Quotas(s) && a < |s.activities| && a !in s.owed && UpdateQuota(s, a, quota).reply.Done?
    ensures OnlyOwed(UpdateQuota(s, a, quota).after, a) <==> LosesSeats(s, a, quota)
  {
    var r := UpdateQuota(s, a, quota).after;
    SamePlaces(s, r, a);
    SeatsWithinQuota(s, a);
    assert Queue(r, a) == Queue(s, a);
    if r.intents == s.intents {
      IntentsGrow(s, r, a);
      IntentsGrow(r, s, a);
    }
  }

  /** The promise of an unpaused quota increase lives in the server process only. If the process dies before its refill,
      the new seats are lost exactly when somebody waits for them and no older intent is pending. */
  lemma CrashLosesSeats(s: State, a: nat, quota: int)
    requires Safe(s) && Seats(s) && a < |s.activities| && a !in s.owed && UpdateQuota(s, a, quota).reply.Done?
    ensures Seats(Abandon(UpdateQuota(s, a, quota).after, a)) <==> !LosesSeats(s, a, quota)
  {
    QuotaKeeps(s, a, quota);
    AbandonLoses(UpdateQuota(s, a, quota).after, a);
    RaisedOwes(s, a, quota);
  }

  /** They are lost in the same situation, without any process dying, when both the refill and the fallback intent fail:
      the error of the second write is dropped. */
  lemma FailureLosesSeats(s: State, a: nat, quota: int, now: int)
    requires Safe(s) && Seats(s) && a < |s.activities| && a !in s.owed && UpdateQuota(s, a, quota).reply.Done?
    ensures Seats(QuotaRefill(UpdateQuota(s, a, quota).after, a, false, false, now)) <==> !LosesSeats(s, a, quota)
  {
    QuotaKeeps(s, a, quota);
    TwiceFailedLoses(UpdateQuota(s, a, quota).after, a, now);
    RaisedOwes(s, a, quota);
  }

  /** Two started AUTO activities with one seat each, both offered to ann; bob waits for the first. */
  const STARTED := State(
    [Activity(Active, 1, Auto, 0, 24, false, true, Some(0), false, false),
     Activity(Active, 1, Auto, 0, 24, false, true, Some(0), false, false)],
    [Candidate("ann", None), Candidate("bob", None)],
    [Application(0, 0, "", 9, Some(1), 1, AppStatus.Offered), Application(0, 1, "", 5, Some(2), 2, AppStatus.Waiting),
     Application(1, 0, "", 9, Some(1), 1, AppStatus.Offered)],
    [Offer(0, OfferStatus.Pending, FromAuto, None, 86400), Offer(2, OfferStatus.Pending, FromAuto, None, 86400)],
    [], [], 0, {})

  lemma StartedNewest()
    ensures Newest(STARTED, 0) == 0 && Newest(STARTED, 1) == -1 && Newest(STARTED, 2) == 1
  {
  }

  lemma StartedFirst()
    ensures Refs(STARTED) && Occupied(STARTED, 0) == 1 && Queue(STARTED, 0) == {1} && BooksOf(STARTED, 0)
  {
    var s := STARTED;
    StartedNewest();
    assert Occupying(s, 0) == {0} && OffersIn(s, 0) == {0} && SpecialsIn(s, 0) == {} && EverOffered(s, 0) == {0};
    assert AppsWith(s, 0, AppStatus.Offered) == {0} && AppsWith(s, 0, AppStatus.Accepted) == {};
    assert Queue(s, 0) == {1};
  }

  lemma StartedSecond()
    ensures Refs(STARTED) && Occupied(STARTED, 1) == 1 && Queue(STARTED, 1) == {} && BooksOf(STARTED, 1)
  {
    var s := STARTED;
    StartedNewest();
    assert Occupying(s, 1) == {1} && OffersIn(s, 1) == {1} && SpecialsIn(s, 1) == {} && EverOffered(s, 1) == {2};
    assert AppsWith(s, 1, AppStatus.Offered) == {2} && AppsWith(s, 1, AppStatus.Accepted) == {};
  }

  lemma StartedBooks()
    ensures Refs(STARTED) && Books(STARTED)
  {
    forall a | 0 <= a < |STARTED.activities| ensures BooksOf(STARTED, a) {
      if a == 0 {
        StartedFirst();
      } else {
        StartedSecond();
      }
    }
  }

  lemma StartedQuotas()
    ensures Refs(STARTED) && Quotas(STARTED)
  {
    StartedFirst();
    StartedSecond();
  }

  lemma StartedStatic()
    ensures Static(STARTED)
  {
    StartedOrders();
    StartedRanks();
    assert "ann"[0] != "bob"[0];
  }

  lemma StartedOrders()
    ensures Orders(STARTED)
  {
    var apps := STARTED.applications;
    assert CountIn(apps, 0, 0) == 0 && CountIn(apps, 1, 0) == 1;
    assert CountIn(apps, 0, 1) == 0 && CountIn(apps, 1, 1) == 0 && CountIn(apps, 2, 1) == 0;
  }

  lemma StartedRanking(a: nat)
    requires a < 2
    ensures Ranking(STARTED, a)
  {
    assert AppsOf(STARTED, a) == if a == 0 then {0, 1} else {2};
  }

  lemma StartedRanks()
    ensures Ranks(STARTED)
  {
    StartedRanking(0);
    StartedRanking(1);
  }

  lemma StartedStatuses()
    ensures Refs(STARTED) && Statuses(STARTED)
  {
    StartedNewest();
    assert StatusFits(STARTED, 0) && StatusFits(STARTED, 1) && StatusFits(STARTED, 2);
  }

  lemma StartedPhases()
    ensures Refs(STARTED) && Pointers(STARTED) && Clean(STARTED) && Phases(STARTED)
  {
  }

  lemma StartedFair()
    ensures Refs(STARTED) && Fair(STARTED)
  {
    StartedNewest();
  }

  lemma StartedHistory()
    ensures Refs(STARTED) && History(STARTED) && Batches(STARTED)
  {
    StartedNewest();
    assert SourceFits(STARTED, 0) && SourceFits(STARTED, 1);
  }

  lemma StartedSeats()
    ensures Refs(STARTED) && Seats(STARTED)
  {
    StartedFirst();
    StartedSecond();
    assert SeatCovered(STARTED, 0, {}) && SeatCovered(STARTED, 1, {});
  }

  lemma StartedIsSafe()
    ensures Safe(STARTED) && Seats(STARTED)
  {
    StartedBooks();
    StartedQuotas();
    StartedStatic();
    StartedStatuses();
    StartedPhases();
    StartedFair();
    StartedHistory();
    StartedSeats();
  }

  lemma StartedRaise()
    ensures UpdateQuota(STARTED, 0, 2).reply.Done? && LosesSeats(STARTED, 0, 2)
  {
    StartedFirst();
    assert 1 in Queue(STARTED, 0);
  }

  /** A concrete crash: the second seat of a raised quota stays empty although bob waits for it. */
  lemma CrashLosesASeat()
    ensures Safe(STARTED) && Seats(STARTED) && UpdateQuota(STARTED, 0, 2).reply.Done?
    ensures !Seats(Abandon(UpdateQuota(STARTED, 0, 2).after, 0))
  {
    StartedIsSafe();
    StartedRaise();
    CrashLosesSeats(STARTED, 0, 2);
  }

  /** The same seat, lost because the refill and its fallback both fail, as they do when the client that raised the
      quota goes away right after the commit and takes the context of both with it. */
  lemma FailureLosesASeat(now: int)
    ensures Safe(STARTED) && Seats(STARTED) && UpdateQuota(STARTED, 0, 2).reply.Done?
    ensures !Seats(QuotaRefill(UpdateQuota(STARTED, 0, 2).after, 0, false, false, now))
  {
    StartedIsSafe();
    StartedRaise();
    FailureLosesSeats(STARTED, 0, 2, now);
  }
}
