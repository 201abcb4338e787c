/** The admission tables: activities, candidates, applications, offers, refill intents and offer batches,
    with the queries the services run over them. A row of a table is named by its position, the order in
    which the rows were inserted. */
module Tables {
  import opened OrderBy

  datatype Option<+T> = None | Some(value: T)

  datatype ActivityStatus = Active | Disabled | Archived
  datatype Mode = Auto | Manual | Batch
  datatype AppStatus = Waiting | Offered | Accepted | Declined | Expired | Ineligible
  datatype OfferStatus = Pending | Accepted | Declined | Expired
  datatype Source = FromAuto | FromManual | FromBatch | Special
  datatype Reason = OfferDeclined | OfferExpired | CrossActivityDecline | QuotaIncrease

  datatype Activity = Activity(status: ActivityStatus, quota: int, mode: Mode, batchSize: nat, expireHours: nat,
                               dirty: bool, frozen: bool, startedAt: Option<int>, paused: bool, platformPaused: bool)

  datatype Candidate = Candidate(studentId: string, acceptedOffer: Option<nat>)

  /** `profile` stands for the display columns name, email, QQ and class. */
  datatype Application = Application(activity: nat, candidate: nat, profile: string, score: int, rank: Option<nat>,
                                     importOrder: nat, status: AppStatus)

  datatype Offer = Offer(application: nat, status: OfferStatus, source: Source, batch: Option<nat>, expiresAt: int)

  datatype Intent = Intent(activity: nat, reason: Reason, sourceOffer: Option<nat>, pending: bool)

  datatype BatchRow = BatchRow(id: nat, activity: nat, no: nat, issued: nat)

  /** The committed tables. `owed` is not a table: it is the set of activities for which a server process has
      committed a quota increase and not yet run the refill it promised to run after the commit. */
  datatype State = State(activities: seq<Activity>, candidates: seq<Candidate>, applications: seq<Application>,
                         offers: seq<Offer>, intents: seq<Intent>, batches: seq<BatchRow>, nextBatch: nat,
                         owed: set<nat>)

  const EMPTY := State([], [], [], [], [], [], 0, {})

  // ---------- references ----------

  /** The foreign keys of the schema. */
  predicate Refs(s: State) {
    && (forall k :: 0 <= k < |s.applications| ==>
          s.applications[k].activity < |s.activities| && s.applications[k].candidate < |s.candidates|)
    && (forall i :: 0 <= i < |s.offers| ==> s.offers[i].application < |s.applications|)
  }

  function AppOf(s: State, i: nat): Application
    requires Refs(s) && i < |s.offers|
  {
    s.applications[s.offers[i].application]
  }

  function ActOf(s: State, i: nat): nat
    requires Refs(s) && i < |s.offers|
  {
    AppOf(s, i).activity
  }

  function CandOf(s: State, i: nat): nat
    requires Refs(s) && i < |s.offers|
  {
    AppOf(s, i).candidate
  }

  // ---------- offer queries ----------

  predicate Holding(status: OfferStatus) { status.Pending? || status.Accepted? }

  /** The offers of one activity that hold a seat. */
  function Occupying(s: State, a: nat): set<nat>
    requires Refs(s)
  {
    set i | 0 <= i < |s.offers| && ActOf(s, i) == a && Holding(s.offers[i].status)
  }

  /** Seats taken by PENDING and ACCEPTED offers. */
  function Occupied(s: State, a: nat): nat
    requires Refs(s)
  {
    |Occupying(s, a)|
  }

  function PendingIn(s: State, a: nat): set<nat>
    requires Refs(s)
  {
    set i | 0 <= i < |s.offers| && ActOf(s, i) == a && s.offers[i].status.Pending?
  }

  function PendingFor(s: State, c: nat): set<nat>
    requires Refs(s)
  {
    set i | 0 <= i < |s.offers| && CandOf(s, i) == c && s.offers[i].status.Pending?
  }

  /** The application column of the offer table. */
  function Owners(offers: seq<Offer>): (owners: seq<nat>)
    ensures |owners| == |offers|
  {
    seq(|offers|, i requires 0 <= i < |offers| => offers[i].application)
  }

  /** The newest of the first `n` offers that belongs to application `k`, or -1. */
  function Last(owners: seq<nat>, n: nat, k: nat): (r: int)
    requires n <= |owners|
    ensures -1 <= r < n
    ensures r >= 0 ==> owners[r] == k
    ensures forall j :: r < j < n ==> owners[j] != k
  {
    if n == 0 then -1 else if owners[n - 1] == k then n - 1 else Last(owners, n - 1, k)
  }

  /** The newest offer of one application, or -1. */
  function Newest(s: State, k: nat): (r: int)
    ensures -1 <= r < |s.offers|
    ensures r >= 0 ==> s.offers[r].application == k
    ensures forall j :: r < j < |s.offers| ==> s.offers[j].application != k
  {
    var r := Last(Owners(s.offers), |s.offers|, k);
    assert forall j :: r < j < |s.offers| ==> Owners(s.offers)[j] == s.offers[j].application;
    r
  }

  // ---------- application queries ----------

  function AppsOf(s: State, a: nat): set<nat> {
    set k | 0 <= k < |s.applications| && s.applications[k].activity == a
  }

  function AppsWith(s: State, a: nat, status: AppStatus): set<nat> {
    set k | 0 <= k < |s.applications| && s.applications[k].activity == a && s.applications[k].status == status
  }

  function Queue(s: State, a: nat): set<nat> {
    AppsWith(s, a, AppStatus.Waiting)
  }

  /** ORDER BY rank ASC, import_order ASC; a missing rank sorts before every rank, and ranks start at 1. */
  function RankKeys(apps: seq<Application>): (keys: seq<Key>)
    ensures |keys| == |apps|
  {
    seq(|apps|, k requires 0 <= k < |apps| => Key(RankOf(apps[k]), apps[k].importOrder))
  }

  function RankOf(app: Application): nat {
    match app.rank case None => 0 case Some(r) => r
  }

  /** The refill cursor: the first WAITING application in rank order, or -1. */
  function NextWaiting(s: State, a: nat): (r: int)
    ensures r < 0 <==> Queue(s, a) == {}
    ensures r >= 0 ==> r in Queue(s, a)
    ensures r >= 0 ==> forall j :: j in Queue(s, a) ==> !Less(RankKeys(s.applications)[j], RankKeys(s.applications)[r])
  {
    if Queue(s, a) == {} then -1 else First(RankKeys(s.applications), Queue(s, a))
  }

  /** The WAITING applications of one activity in rank order. */
  function QueueByRank(s: State, a: nat): seq<nat> {
    Sorted(RankKeys(s.applications), Queue(s, a))
  }

  /** How many of the first `n` applications belong to activity `a`. */
  function CountIn(apps: seq<Application>, n: nat, a: nat): (c: nat)
    requires n <= |apps|
    ensures c <= n
  {
    if n == 0 then 0 else CountIn(apps, n - 1, a) + (if apps[n - 1].activity == a then 1 else 0)
  }

  /** MAX(import_order) of one activity, 0 when it has no application. */
  function MaxImportOrder(apps: seq<Application>, n: nat, a: nat): nat
    requires n <= |apps|
  {
    if n == 0 then 0
    else
      var m := MaxImportOrder(apps, n - 1, a);
      if apps[n - 1].activity == a && apps[n - 1].importOrder > m then apps[n - 1].importOrder else m
  }

  // ---------- intents and batches ----------

  predicate HasIntent(s: State, a: nat) {
    exists j :: 0 <= j < |s.intents| && s.intents[j].activity == a && s.intents[j].pending
  }

  /** MAX(batch_no) of one activity, 0 when it has no batch. */
  function MaxBatchNo(rows: seq<BatchRow>, n: nat, a: nat): nat
    requires n <= |rows|
  {
    if n == 0 then 0
    else
      var m := MaxBatchNo(rows, n - 1, a);
      if rows[n - 1].activity == a && rows[n - 1].no > m then rows[n - 1].no else m
  }
}
