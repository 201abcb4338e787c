/** The loops around the transactions, requests and background jobs alike, are runs of the state machine, so everything
    proved for runs holds for them. */
module Jobs {
  import opened OrderBy
  import opened Tables
  import opened Transactions
  import opened Invariant
  import opened RowWrites
  import opened Safety
  import opened Admission
  import opened Guarantees
  import opened Stores

  /** Some lossless run of the machine leads from one state to the other. */
  ghost predicate Leads(s: State, r: State)
    requires Refs(s)
  {
    exists steps :: Lossless(steps) && Run(s, steps) == r
  }

  lemma LeadsNowhere(s: State)
    requires Refs(s)
    ensures Leads(s, s)
  {
    assert Lossless([]) && Run(s, []) == s;
  }

  lemma LeadsStep(s: State, step: Step)
    requires Refs(s) && !Lossy(step)
    ensures Leads(s, Apply(s, step))
  {
    assert [step][1..] == [];
    assert Run(Apply(s, step), []) == Apply(s, step);
    assert Lossless([step]) && Run(s, [step]) == Apply(s, step);
  }

  lemma LeadsOn(s: State, m: State, r: State)
    requires Refs(s) && Refs(m) && Leads(s, m) && Leads(m, r)
    ensures Leads(s, r)
  {
    var steps :| Lossless(steps) && Run(s, steps) == m;
    var more :| Lossless(more) && Run(m, more) == r;
    LeadsBy(s, steps, more);
  }

  lemma LeadsBy(s: State, steps: seq<Step>, more: seq<Step>)
    requires Refs(s) && Lossless(steps) && Lossless(more)
    ensures Leads(s, Run(Run(s, steps), more))
  {
    RunAppend(s, steps, more);
    assert Lossless(steps + more);
  }

  lemma RefillLeads(s: State, a: nat, now: int)
    requires Refs(s)
    ensures Leads(s, Refill(s, a, now))
  {
    assert Apply(s, Replenish(a, now)) == Refill(s, a, now);
    LeadsStep(s, Replenish(a, now));
  }

  /** The refills after a commit. */
  lemma {:induction false} RefillEachLeads(s: State, ids: seq<nat>, seen: set<nat>, now: int)
    requires Refs(s)
    ensures Leads(s, RefillEach(s, ids, seen, now))
    decreases |ids|
  {
    if ids == [] {
      LeadsNowhere(s);
    } else if ids[0] in seen {
      RefillEachLeads(s, ids[1..], seen, now);
    } else if ids[0] < |s.activities| && MayRefill(s.activities[ids[0]]) {
      var next := Refill(s, ids[0], now);
      RefillLeads(s, ids[0], now);
      RefillEachLeads(next, ids[1..], seen + {ids[0]}, now);
      LeadsOn(s, next, RefillEach(s, ids, seen, now));
    } else {
      RefillEachLeads(s, ids[1..], seen + {ids[0]}, now);
    }
  }

  lemma AcceptTxLeads(s: State, o: nat, now: int)
    requires Refs(s)
    ensures Leads(s, AcceptTx(s, o, now).after)
  {
    assert Apply(s, Step.Accept(o, now)) == AcceptTx(s, o, now).after;
    LeadsStep(s, Step.Accept(o, now));
  }

  /** An accepted request with its refills. */
  lemma AcceptLeads(s: State, o: nat, now: int, later: int)
    requires Refs(s) && AcceptTx(s, o, now).reply.AcceptedNow?
    ensures Leads(s, RefillEach(AcceptTx(s, o, now).after, AcceptTx(s, o, now).reply.refills, {}, later))
  {
    AcceptTxLeads(s, o, now);
    var r, refills := AcceptTx(s, o, now).after, AcceptTx(s, o, now).reply.refills;
    RefillEachLeads(r, refills, {}, later);
    LeadsOn(s, r, RefillEach(r, refills, {}, later));
  }

  lemma ExecuteLeads(s: State, a: nat, now: int)
    requires Refs(s)
    ensures Leads(s, ExecuteOne(s, a, now))
  {
    assert Apply(s, Execute(a, now)) == ExecuteOne(s, a, now);
    LeadsStep(s, Execute(a, now));
  }

  /** The intent executor. */
  lemma {:induction false} ExecuteAllLeads(s: State, ids: seq<nat>, leased: set<nat>, now: int)
    requires Refs(s)
    ensures Leads(s, ExecuteAll(s, ids, leased, now))
    decreases |ids|
  {
    if ids == [] {
      LeadsNowhere(s);
    } else if ids[0] in leased {
      var next := ExecuteOne(s, ids[0], now);
      ExecuteLeads(s, ids[0], now);
      ExecuteAllLeads(next, ids[1..], leased, now);
      LeadsOn(s, next, ExecuteAll(s, ids, leased, now));
    } else {
      ExecuteAllLeads(s, ids[1..], leased, now);
    }
  }

  lemma SettleGroupLeads(s: State, a: nat, ids: seq<nat>, now: int)
    requires Refs(s)
    ensures Leads(s, SettleGroup(s, a, ids, now))
  {
    assert Apply(s, Sweep(a, ids, now)) == SettleGroup(s, a, ids, now);
    LeadsStep(s, Sweep(a, ids, now));
  }

  lemma SweptLeads(s: State, a: nat, ids: seq<nat>, now: int, later: int)
    requires Refs(s)
    ensures Leads(s, Swept(s, a, ids, now, later))
  {
    var settled := SettleGroup(s, a, ids, now);
    SettleGroupLeads(s, a, ids, now);
    RefillEachLeads(settled, [a], {}, later);
    LeadsOn(s, settled, RefillEach(settled, [a], {}, later));
  }

  /** The expiry sweep. */
  lemma {:induction false} SweepAllLeads(s: State, order: seq<nat>, rows: seq<DueRow>, now: int, later: int)
    requires Refs(s)
    ensures Leads(s, SweepAll(s, order, rows, now, later))
    decreases |order|
  {
    if order == [] {
      LeadsNowhere(s);
    } else {
      var next := Swept(s, order[0], GroupOf(rows, order[0]), now, later);
      SweptLeads(s, order[0], GroupOf(rows, order[0]), now, later);
      SweepAllLeads(next, order[1..], rows, now, later);
      LeadsOn(s, next, SweepAll(s, order, rows, now, later));
    }
  }

  // ---------- what a settlement settles ----------

  /** A PENDING offer of the activity whose deadline has come. */
  predicate Overdue(s: State, a: nat, i: nat, now: int)
    requires Refs(s)
  {
    i < |s.offers| && ActOf(s, i) == a && s.offers[i].status.Pending? && s.offers[i].expiresAt <= now
  }

  lemma DueIsOverdue(s: State, a: nat, now: int, i: nat)
    requires Refs(s)
    ensures i in DueIn(s, a, now) <==> Overdue(s, a, i, now)
    ensures i in Sorted(LockKeys(s), DueIn(s, a, now)) <==> Overdue(s, a, i, now)
  {
    SortedInOrder(LockKeys(s), DueIn(s, a, now));
  }

  /** Settling one activity expires exactly its due offers. */
  lemma SettleIsExact(s: State, a: nat, now: int, i: nat)
    requires Refs(s) && i < |s.offers|
    ensures var r := SettleActivity(s, a, now);
      && r.offers[i] == (if Overdue(s, a, i, now) then s.offers[i].(status := OfferStatus.Expired) else s.offers[i])
      && ActOf(r, i) == ActOf(s, i) && !Overdue(r, a, i, now)
  {
    var due := Sorted(LockKeys(s), DueIn(s, a, now));
    forall j | 0 <= j < |due| ensures due[j] < |s.offers| {
      DueIsOverdue(s, a, now, due[j]);
      assert due[j] in due;
    }
    DueIsOverdue(s, a, now, i);
    CloseAllExact(s, due, OfferStatus.Expired, Reason.OfferExpired);
    CloseAllGrown(s, due, OfferStatus.Expired, Reason.OfferExpired);
    SameActivityOf(s, SettleActivity(s, a, now), i);
  }

  lemma SameActivityOf(s: State, r: State, i: nat)
    requires Grown(s, r) && i < |s.offers|
    ensures ActOf(r, i) == ActOf(s, i)
  {
    assert r.offers[i].application == s.offers[i].application;
  }

  lemma {:induction false} StillDueIs(s: State, a: nat, ids: seq<nat>, now: int)
    requires Refs(s)
    ensures forall i :: i in StillDue(s, a, ids, now) <==> i in ids && i in DueIn(s, a, now)
  {
    if ids != [] {
      StillDueIs(s, a, ids[1..], now);
    }
  }

  /** A sweep group of an ACTIVE activity expires exactly the listed offers that are still due under the lock; a group
      of any other activity changes nothing. */
  lemma SweepIsExact(s: State, a: nat, ids: seq<nat>, now: int, i: nat)
    requires Refs(s) && i < |s.offers|
    ensures var r := SettleGroup(s, a, ids, now); var acts := a < |s.activities| && s.activities[a].status.Active?;
      && |r.offers| == |s.offers| && (!acts ==> r == s)
      && r.offers[i] ==
          if acts && i in ids && Overdue(s, a, i, now) then s.offers[i].(status := OfferStatus.Expired) else s.offers[i]
  {
    StillDueIs(s, a, ids, now);
    CloseAllExact(s, StillDue(s, a, ids, now), OfferStatus.Expired, Reason.OfferExpired);
  }
}
