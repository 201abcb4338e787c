/** What every committed state of the admission tables satisfies. */
module Invariant {
  import opened OrderBy
  import opened Tables
  import opened Transactions

  // ---------- rows that offers do not touch ----------

  /** One row per student and one application per candidate and activity, without relying on the unique keys. */
  predicate Unique(s: State) {
    && (forall c, d :: 0 <= c < d < |s.candidates| ==> s.candidates[c].studentId != s.candidates[d].studentId)
    && (forall j, k :: 0 <= j < k < |s.applications| && s.applications[j].activity == s.applications[k].activity ==>
          s.applications[j].candidate != s.applications[k].candidate)
  }

  /** Import orders number the applications of an activity 1, 2, 3, ... in the order of their import. */
  predicate Orders(s: State) {
    forall k :: 0 <= k < |s.applications| ==>
      s.applications[k].importOrder == CountIn(s.applications, k, s.applications[k].activity) + 1
  }

  /** No two applications of one activity share a rank. */
  predicate RanksDiffer(s: State) {
    forall j, k :: 0 <= j < k < |s.applications| && s.applications[j].activity == s.applications[k].activity ==>
      s.applications[j].rank.Some? ==> s.applications[j].rank != s.applications[k].rank
  }

  /** Every application of the activity has a rank within 1..N, and a better rank never has the lower score. */
  predicate Ranking(s: State, a: nat) {
    && (forall k :: k in AppsOf(s, a) ==>
        s.applications[k].rank.Some? && 1 <= RankOf(s.applications[k]) <= |AppsOf(s, a)|)
    && (forall j, k ::
          j in AppsOf(s, a) && k in AppsOf(s, a) && RankOf(s.applications[j]) < RankOf(s.applications[k]) ==>
          s.applications[j].score >= s.applications[k].score)
  }

  predicate Ranks(s: State) {
    RanksDiffer(s) && forall a :: 0 <= a < |s.activities| && !s.activities[a].dirty ==> Ranking(s, a)
  }

  predicate SettingsOk(act: Activity) {
    && act.quota >= 1
    && (act.frozen <==> act.startedAt.Some?)
    && (act.frozen ==> !act.dirty)
    && (act.status.Disabled? ==> act.paused)
  }

  predicate Settings(s: State) {
    forall a :: 0 <= a < |s.activities| ==> SettingsOk(s.activities[a])
  }

  predicate Static(s: State) {
    Unique(s) && Orders(s) && Ranks(s) && Settings(s)
  }

  // ---------- statuses follow offers ----------

  /** No offer: WAITING or INELIGIBLE. Otherwise the status mirrors the newest offer. */
  predicate StatusFits(s: State, k: nat)
    requires k < |s.applications|
  {
    var l := Newest(s, k);
    if l < 0 then s.applications[k].status.Waiting? || s.applications[k].status.Ineligible?
    else s.applications[k].status == Mirrored(s.offers[l].status)
  }

  predicate Statuses(s: State) {
    && (forall k :: 0 <= k < |s.applications| ==> StatusFits(s, k))
    && (forall i :: 0 <= i < |s.offers| && Holding(s.offers[i].status) ==> Newest(s, s.offers[i].application) == i)
  }

  /** The accepted-offer column and the ACCEPTED offers name each other, and only accepted candidates are ineligible. */
  predicate Pointers(s: State)
    requires Refs(s)
  {
    && (forall i :: 0 <= i < |s.offers| && s.offers[i].status.Accepted? ==>
          s.candidates[CandOf(s, i)].acceptedOffer == Some(i))
    && (forall c :: 0 <= c < |s.candidates| && s.candidates[c].acceptedOffer.Some? ==>
          var i := s.candidates[c].acceptedOffer.value;
          i < |s.offers| && s.offers[i].status.Accepted? && CandOf(s, i) == c)
    && (forall k :: 0 <= k < |s.applications| && s.applications[k].status.Ineligible? ==> HasAccepted(s, k))
  }

  /** A candidate who has accepted holds no PENDING offer anywhere, candidate `but` excepted. */
  predicate CleanBut(s: State, but: int)
    requires Refs(s)
  {
    forall i :: 0 <= i < |s.offers| && s.offers[i].status.Pending? && CandOf(s, i) != but ==>
      s.candidates[CandOf(s, i)].acceptedOffer.None?
  }

  predicate Clean(s: State)
    requires Refs(s)
  {
    CleanBut(s, -1)
  }

  /** Before the start of admission everybody waits, and an archived activity holds no PENDING offer. */
  predicate Phases(s: State)
    requires Refs(s)
  {
    && (forall k :: 0 <= k < |s.applications| && !s.activities[s.applications[k].activity].frozen ==>
          s.applications[k].status.Waiting?)
    && (forall i :: 0 <= i < |s.offers| && s.offers[i].status.Pending? ==> !s.activities[ActOf(s, i)].status.Archived?)
  }

  predicate Ordered(act: Activity) { act.frozen && !act.mode.Manual? }

  predicate FairPair(s: State, j: nat, k: nat)
    requires Refs(s) && j < |s.applications| && k < |s.applications|
  {
    var waiter, other := s.applications[j], s.applications[k];
    waiter.activity == other.activity && Ordered(s.activities[waiter.activity]) ==>
      waiter.status.Waiting? && !other.status.Waiting? ==> RankOf(other) < RankOf(waiter)
  }

  /** No justified envy: where the rank order decides, whoever still waits ranks behind everybody who does not. */
  predicate Fair(s: State)
    requires Refs(s)
  {
    forall j, k :: 0 <= j < |s.applications| && 0 <= k < |s.applications| ==> FairPair(s, j, k)
  }

  // ---------- counts ----------

  predicate Quotas(s: State)
    requires Refs(s)
  {
    forall a :: 0 <= a < |s.activities| ==> Occupied(s, a) <= s.activities[a].quota
  }

  function OffersIn(s: State, a: nat): set<nat>
    requires Refs(s)
  {
    set i | 0 <= i < |s.offers| && ActOf(s, i) == a
  }

  function SpecialsIn(s: State, a: nat): set<nat>
    requires Refs(s)
  {
    set i | 0 <= i < |s.offers| && ActOf(s, i) == a && s.offers[i].source.Special?
  }

  /** The applications of one activity that ever received an offer. */
  function EverOffered(s: State, a: nat): set<nat> {
    set k | 0 <= k < |s.applications| && s.applications[k].activity == a && Newest(s, k) >= 0
  }

  /** The offer counts and the application counts tell the same story. */
  predicate BooksOf(s: State, a: nat)
    requires Refs(s)
  {
    && Occupied(s, a) == |AppsWith(s, a, AppStatus.Offered)| + |AppsWith(s, a, AppStatus.Accepted)|
    && |OffersIn(s, a)| == |EverOffered(s, a)| + |SpecialsIn(s, a)|
  }

  predicate Books(s: State)
    requires Refs(s)
  {
    forall a :: 0 <= a < |s.activities| ==> BooksOf(s, a)
  }

  // ---------- issue history ----------

  function SourceFor(mode: Mode): Source {
    match mode case Auto => FromAuto case Manual => FromManual case Batch => FromBatch
  }

  /** The first offer of an application comes from the activity's own mode, every later one is SPECIAL. */
  predicate SourceFits(s: State, i: nat)
    requires Refs(s) && i < |s.offers|
  {
    && (s.offers[i].source.Special? <==> Last(Owners(s.offers), i, s.offers[i].application) >= 0)
    && (s.offers[i].source.Special? || s.offers[i].source == SourceFor(s.activities[ActOf(s, i)].mode))
  }

  predicate History(s: State)
    requires Refs(s)
  {
    forall i :: 0 <= i < |s.offers| ==> SourceFits(s, i) && s.activities[ActOf(s, i)].frozen
  }

  // ---------- batches ----------

  function CountBatches(rows: seq<BatchRow>, n: nat, a: nat): (c: nat)
    requires n <= |rows|
  {
    if n == 0 then 0 else CountBatches(rows, n - 1, a) + (if rows[n - 1].activity == a then 1 else 0)
  }

  function Linked(s: State, id: nat): set<nat> {
    set i | 0 <= i < |s.offers| && s.offers[i].batch == Some(id)
  }

  /** Batches are numbered 1..k within their activity. */
  predicate Numbered(rows: seq<BatchRow>) {
    forall j :: 0 <= j < |rows| ==> rows[j].no == CountBatches(rows, j, rows[j].activity) + 1
  }

  predicate BatchIds(s: State) {
    && (forall j :: 0 <= j < |s.batches| ==> s.batches[j].id < s.nextBatch)
    && forall j, k :: 0 <= j < k < |s.batches| ==> s.batches[j].id != s.batches[k].id
  }

  /** A batch counts exactly the offers linked to it, at least one. */
  predicate BatchSizes(s: State) {
    forall j :: 0 <= j < |s.batches| ==> s.batches[j].issued == |Linked(s, s.batches[j].id)| >= 1
  }

  /** An offer is linked to a batch of its own activity exactly when it is a BATCH offer. */
  predicate BatchLinked(s: State, i: nat)
    requires Refs(s) && i < |s.offers|
  {
    && (s.offers[i].batch.Some? <==> s.offers[i].source.FromBatch?)
    && (s.offers[i].batch.Some? ==> BatchKnown(s, s.offers[i].batch.value, ActOf(s, i)))
  }

  predicate BatchLinks(s: State)
    requires Refs(s)
  {
    forall i :: 0 <= i < |s.offers| ==> BatchLinked(s, i)
  }

  predicate Batches(s: State)
    requires Refs(s)
  {
    Numbered(s.batches) && BatchIds(s) && BatchSizes(s) && BatchLinks(s)
  }

  predicate BatchKnown(s: State, id: nat, a: nat) {
    exists j :: 0 <= j < |s.batches| && s.batches[j].id == id && s.batches[j].activity == a
  }

  // ---------- seats ----------

  /** A free seat of a refilling activity is waited for by nobody, recorded in an intent, or owed by a process. */
  predicate SeatCovered(s: State, a: nat, owed: set<nat>)
    requires Refs(s)
  {
    a < |s.activities| && MayRefill(s.activities[a]) ==>
      Occupied(s, a) >= s.activities[a].quota || Queue(s, a) == {} || HasIntent(s, a) || a in owed
  }

  predicate Seats(s: State)
    requires Refs(s)
  {
    forall a :: 0 <= a < |s.activities| ==> SeatCovered(s, a, s.owed)
  }

  // ---------- the whole ----------

  /** Everything but the clean-up of the offers of an accepting candidate and the batch records, which a
      transaction completes last. */
  predicate Core(s: State) {
    Refs(s) && Static(s) && Statuses(s) && Pointers(s) && Phases(s) && Fair(s) && Quotas(s) && Books(s) && History(s)
  }

  predicate Safe(s: State) {
    Core(s) && Clean(s) && Batches(s)
  }
}
