/** The migration runner, killed at any database write and started again any number of times. */
module Migrations {
  import opened Tables

  /** A registered migration: DDL steps executed and recorded one by one, or one DML body committed together with its
      progress row. */
  datatype Migration = Migration(version: nat, dml: bool, steps: nat)

  /** The schema, the progress rows, the version ledger, and the history of executed statements. */
  datatype Database<S> = Database(schema: S, progress: set<(nat, nat)>, ledger: seq<nat>, log: seq<(nat, nat)>)

  /** Statement i of migration m either fails without effect or gives the next schema. */
  type Exec<!S> = (S, nat, nat) -> Option<S>

  /** Still going with so many writes left before the kill, or stopped by an error or by the kill. */
  datatype Outcome<S> = Going(db: Database<S>, left: nat) | Stopped(db: Database<S>)

  predicate Registered(plan: seq<Migration>) {
    && (forall i, j :: 0 <= i < j < |plan| ==> plan[i].version < plan[j].version)
    && forall m :: 0 <= m < |plan| ==> plan[m].version > 0 && (plan[m].dml ==> plan[m].steps == 1)
  }

  // ---------- the runner ----------

  function Executed<S>(db: Database<S>, m: nat, i: nat, schema: S): Database<S> {
    db.(schema := schema, log := db.log + [(m, i)])
  }

  function Recorded<S>(db: Database<S>, version: nat, i: nat): Database<S> {
    db.(progress := db.progress + {(version, i)})
  }

  /** The DDL branch: skip what is recorded, execute, record. */
  function RunSteps<S>(exec: Exec<S>, plan: seq<Migration>, m: nat, i: nat, db: Database<S>, budget: nat): Outcome<S>
    requires m < |plan|
    decreases plan[m].steps - i
  {
    if i >= plan[m].steps then Going(db, budget)
    else if (plan[m].version, i) in db.progress then RunSteps(exec, plan, m, i + 1, db, budget)
    else if budget == 0 then Stopped(db)
    else
      match exec(db.schema, m, i)
      case None => Stopped(db)
      case Some(schema) =>
        var done := Executed(db, m, i, schema);
        if budget == 1 then Stopped(done)
        else RunSteps(exec, plan, m, i + 1, Recorded(done, plan[m].version, i), budget - 2)
  }

  /** The DML branch: body and progress row in one transaction. It does not look at the progress rows first. */
  function RunBody<S>(exec: Exec<S>, plan: seq<Migration>, m: nat, db: Database<S>, budget: nat): Outcome<S>
    requires m < |plan|
  {
    if budget == 0 then Stopped(db)
    else
      match exec(db.schema, m, 0)
      case None => Stopped(db)
      case Some(schema) => Going(Recorded(Executed(db, m, 0, schema), plan[m].version, 0), budget - 1)
  }

  function Perform<S>(exec: Exec<S>, plan: seq<Migration>, m: nat, db: Database<S>, budget: nat): Outcome<S>
    requires m < |plan|
  {
    var ran := if plan[m].dml then RunBody(exec, plan, m, db, budget) else RunSteps(exec, plan, m, 0, db, budget);
    match ran
    case Stopped(r) => Stopped(r)
    case Going(r, left) =>
      if left == 0 then Stopped(r) else Going(r.(ledger := r.ledger + [plan[m].version]), left - 1)
  }

  /** MAX(version), 0 for an empty ledger. */
  function Current(ledger: seq<nat>): (v: nat)
    ensures v == 0 || v in ledger
    ensures forall x :: x in ledger ==> x <= v
  {
    if ledger == [] then 0
    else
      var front, last := Current(ledger[..|ledger| - 1]), ledger[|ledger| - 1];
      assert ledger == ledger[..|ledger| - 1] + [last];
      if last > front then last else front
  }

  /** The pending migrations from position m on, in order, up to the first failure. */
  function UpFrom<S>(exec: Exec<S>, plan: seq<Migration>, m: nat, current: nat, db: Database<S>,
        budget: nat): Outcome<S>
    decreases |plan| - m
  {
    if m >= |plan| then Going(db, budget)
    else if plan[m].version <= current then UpFrom(exec, plan, m + 1, current, db, budget)
    else
      match Perform(exec, plan, m, db, budget)
      case Stopped(r) => Stopped(r)
      case Going(r, left) => UpFrom(exec, plan, m + 1, current, r, left)
  }

  function Up<S>(exec: Exec<S>, plan: seq<Migration>, db: Database<S>, budget: nat): Outcome<S> {
    UpFrom(exec, plan, 0, Current(db.ledger), db, budget)
  }

  /** One `migrate up` after the other, each killed when its budget of writes is used up. */
  function Runs<S>(exec: Exec<S>, plan: seq<Migration>, db: Database<S>, budgets: seq<nat>): Database<S>
    decreases |budgets|
  {
    if budgets == [] then db else Runs(exec, plan, Up(exec, plan, db, budgets[0]).db, budgets[1..])
  }

  // ---------- the reference ----------

  function After<S>(exec: Exec<S>, s: S, m: nat, i: nat): S {
    match exec(s, m, i) case None => s case Some(t) => t
  }

  /** The schema after every statement of the first m migrations and the first i of migration m, each executed once. */
  function Canon<S>(exec: Exec<S>, plan: seq<Migration>, empty: S, m: nat, i: nat): S
    requires m <= |plan|
    decreases m, i
  {
    if i > 0 then After(exec, Canon(exec, plan, empty, m, i - 1), m, i - 1)
    else if m == 0 then empty
    else Canon(exec, plan, empty, m - 1, plan[m - 1].steps)
  }

  /** Executing a statement again right after it was executed changes nothing or fails. */
  ghost predicate Harmless<S>(exec: Exec<S>, plan: seq<Migration>, empty: S) {
    forall m, i :: 0 <= m < |plan| && 0 <= i < plan[m].steps ==> HarmlessAt(exec, plan, empty, m, i)
  }

  ghost predicate HarmlessAt<S>(exec: Exec<S>, plan: seq<Migration>, empty: S, m: nat, i: nat)
    requires m < |plan|
  {
    var s := Canon(exec, plan, empty, m, i + 1);
    exec(s, m, i).None? || exec(s, m, i).value == s
  }

  function Versions(plan: seq<Migration>, m: nat): (v: seq<nat>)
    requires m <= |plan|
    ensures |v| == m
  {
    seq(m, k requires 0 <= k < m => plan[k].version)
  }

  /** The statements recorded once the first m migrations are done and i statements of the next one. */
  predicate RecordedUpTo(plan: seq<Migration>, progress: set<(nat, nat)>, m: nat, i: nat)
    requires m <= |plan|
  {
    && (forall k, j :: 0 <= k < |plan| && 0 <= j < plan[k].steps ==>
          ((plan[k].version, j) in progress <==> k < m || (k == m && j < i)))
  }

  /** The statements executed at least once when the first m migrations and i statements of the next one have been. */
  ghost predicate LoggedUpTo(plan: seq<Migration>, log: seq<(nat, nat)>, m: nat, i: nat)
    requires m <= |plan|
  {
    forall k: nat, j: nat :: (k, j) in log <==>
      k < |plan| && j < plan[k].steps && (k < m || (k == m && j < i))
  }

  /** Where an interrupted upgrade stands: so many migrations finished, so many statements of the next one recorded, and
      possibly one more executed but not recorded. */
  ghost predicate At<S>(exec: Exec<S>, plan: seq<Migration>, empty: S, db: Database<S>, m: nat, i: nat, ahead: bool) {
    && m <= |plan| && (if m == |plan| then i == 0 else i <= plan[m].steps)
    && db.ledger == Versions(plan, m) && RecordedUpTo(plan, db.progress, m, i)
    && (ahead ==> m < |plan| && i < plan[m].steps)
    && LoggedUpTo(plan, db.log, m, if ahead then i + 1 else i)
    && db.schema == Canon(exec, plan, empty, m, if ahead then i + 1 else i)
  }

  ghost predicate Resumable<S>(exec: Exec<S>, plan: seq<Migration>, empty: S, db: Database<S>) {
    exists m, i, ahead :: At(exec, plan, empty, db, m, i, ahead)
  }

  // ---------- resuming ----------

  lemma ExecuteNext<S>(exec: Exec<S>, plan: seq<Migration>, empty: S, db: Database<S>, m: nat, i: nat, ahead: bool)
    requires Registered(plan) && Harmless(exec, plan, empty) && At(exec, plan, empty, db, m, i, ahead)
    requires m < |plan| && i < plan[m].steps && exec(db.schema, m, i).Some?
    ensures At(exec, plan, empty, Executed(db, m, i, exec(db.schema, m, i).value), m, i, true)
  {
    if ahead {
      assert HarmlessAt(exec, plan, empty, m, i);
    }
  }

  lemma RecordNext<S>(exec: Exec<S>, plan: seq<Migration>, empty: S, db: Database<S>, m: nat, i: nat)
    requires Registered(plan) && At(exec, plan, empty, db, m, i, true)
    ensures At(exec, plan, empty, Recorded(db, plan[m].version, i), m, i + 1, false)
  {
  }

  /** The DDL branch walks over the recorded statements. */
  lemma {:induction false} StepsSkip<S>(exec: Exec<S>, plan: seq<Migration>, m: nat, j: nat, i: nat, db: Database<S>,
        budget: nat)
    requires m < |plan| && j <= i <= plan[m].steps && RecordedUpTo(plan, db.progress, m, i)
    ensures RunSteps(exec, plan, m, j, db, budget) == RunSteps(exec, plan, m, i, db, budget)
    decreases i - j
  {
    if j < i {
      StepsSkip(exec, plan, m, j + 1, i, db, budget);
    }
  }

  lemma NextResumes<S>(exec: Exec<S>, plan: seq<Migration>, empty: S, db: Database<S>, m: nat, i: nat, ahead: bool)
    requires Registered(plan) && Harmless(exec, plan, empty) && At(exec, plan, empty, db, m, i, ahead)
    requires m < |plan| && i < plan[m].steps
    ensures (plan[m].version, i) !in db.progress && Resumable(exec, plan, empty, db)
    ensures exec(db.schema, m, i).Some? ==>
      var done := Executed(db, m, i, exec(db.schema, m, i).value);
      Resumable(exec, plan, empty, done) && At(exec, plan, empty, Recorded(done, plan[m].version, i), m, i + 1, false)
  {
    if exec(db.schema, m, i).Some? {
      ExecuteNext(exec, plan, empty, db, m, i, ahead);
      RecordNext(exec, plan, empty, Executed(db, m, i, exec(db.schema, m, i).value), m, i);
    }
  }

  /** It resumes with the first missing one. */
  lemma {:induction false} StepsResume<S>(exec: Exec<S>, plan: seq<Migration>, empty: S, db: Database<S>, m: nat,
        i: nat, ahead: bool, budget: nat)
    requires Registered(plan) && Harmless(exec, plan, empty) && At(exec, plan, empty, db, m, i, ahead) && m < |plan|
    ensures var r := RunSteps(exec, plan, m, i, db, budget);
      && (r.Going? ==> At(exec, plan, empty, r.db, m, plan[m].steps, false))
      && (r.Stopped? ==> Resumable(exec, plan, empty, r.db))
    decreases plan[m].steps - i
  {
    if i < plan[m].steps {
      NextResumes(exec, plan, empty, db, m, i, ahead);
      if budget > 1 && exec(db.schema, m, i).Some? {
        var done := Executed(db, m, i, exec(db.schema, m, i).value);
        StepsResume(exec, plan, empty, Recorded(done, plan[m].version, i), m, i + 1, false, budget - 2);
      }
    }
  }

  /** The DML branch executes its body again when the kill came between its commit and the ledger row. */
  lemma BodyResumes<S>(exec: Exec<S>, plan: seq<Migration>, empty: S, db: Database<S>, m: nat, i: nat, ahead: bool,
        budget: nat)
    requires Registered(plan) && Harmless(exec, plan, empty) && At(exec, plan, empty, db, m, i, ahead)
    requires m < |plan| && plan[m].dml
    ensures var r := RunBody(exec, plan, m, db, budget);
      && (r.Going? ==> At(exec, plan, empty, r.db, m, plan[m].steps, false))
      && (r.Stopped? ==> Resumable(exec, plan, empty, r.db))
  {
    if budget > 0 && exec(db.schema, m, 0).Some? {
      assert HarmlessAt(exec, plan, empty, m, 0);
      assert Canon(exec, plan, empty, m, 1) == After(exec, Canon(exec, plan, empty, m, 0), m, 0);
    }
  }

  lemma FinishNext<S>(exec: Exec<S>, plan: seq<Migration>, empty: S, db: Database<S>, m: nat)
    requires Registered(plan) && m < |plan| && At(exec, plan, empty, db, m, plan[m].steps, false)
    ensures At(exec, plan, empty, db.(ledger := db.ledger + [plan[m].version]), m + 1, 0, false)
  {
    assert Versions(plan, m) + [plan[m].version] == Versions(plan, m + 1);
  }

  lemma PerformResumes<S>(exec: Exec<S>, plan: seq<Migration>, empty: S, db: Database<S>, m: nat, i: nat, ahead: bool,
        budget: nat)
    requires Registered(plan) && Harmless(exec, plan, empty) && At(exec, plan, empty, db, m, i, ahead) && m < |plan|
    ensures var r := Perform(exec, plan, m, db, budget);
      && (r.Going? ==> At(exec, plan, empty, r.db, m + 1, 0, false))
      && (r.Stopped? ==> Resumable(exec, plan, empty, r.db))
  {
    var ran := if plan[m].dml then RunBody(exec, plan, m, db, budget) else RunSteps(exec, plan, m, 0, db, budget);
    if plan[m].dml {
      BodyResumes(exec, plan, empty, db, m, i, ahead, budget);
    } else {
      StepsSkip(exec, plan, m, 0, i, db, budget);
      StepsResume(exec, plan, empty, db, m, i, ahead, budget);
    }
    if ran.Going? {
      FinishNext(exec, plan, empty, ran.db, m);
    }
  }

  lemma CurrentIs(plan: seq<Migration>, m: nat, k: nat)
    requires Registered(plan) && m <= |plan| && k < |plan|
    ensures plan[k].version <= Current(Versions(plan, m)) <==> k < m
  {
    var ledger := Versions(plan, m);
    if k < m {
      assert ledger[k] == plan[k].version;
    } else if Current(ledger) > 0 {
      var j :| 0 <= j < m && ledger[j] == Current(ledger);
    }
  }

  lemma {:induction false} UpSkips<S>(exec: Exec<S>, plan: seq<Migration>, m: nat, at: nat, db: Database<S>,
        budget: nat)
    requires Registered(plan) && at <= m <= |plan|
    ensures var current := Current(Versions(plan, m));
      UpFrom(exec, plan, at, current, db, budget) == UpFrom(exec, plan, m, current, db, budget)
    decreases m - at
  {
    if at < m {
      CurrentIs(plan, m, at);
      UpSkips(exec, plan, m, at + 1, db, budget);
    }
  }

  lemma UpPerforms<S>(exec: Exec<S>, plan: seq<Migration>, m: nat, start: nat, db: Database<S>, budget: nat)
    requires Registered(plan) && start <= m < |plan|
    ensures var current, r := Current(Versions(plan, start)), Perform(exec, plan, m, db, budget);
      UpFrom(exec, plan, m, current, db, budget)
      == if r.Stopped? then Stopped(r.db) else UpFrom(exec, plan, m + 1, current, r.db, r.left)
  {
    CurrentIs(plan, start, m);
  }

  /** From any interrupted state a run gets to the end... */
  lemma {:induction false} UpGoes<S>(exec: Exec<S>, plan: seq<Migration>, empty: S, db: Database<S>, m: nat, i: nat,
        ahead: bool, start: nat, budget: nat)
    requires Registered(plan) && Harmless(exec, plan, empty) && At(exec, plan, empty, db, m, i, ahead) && start <= m
    ensures var r := UpFrom(exec, plan, m, Current(Versions(plan, start)), db, budget);
      r.Going? ==> At(exec, plan, empty, r.db, |plan|, 0, false)
    decreases |plan| - m
  {
    if m < |plan| {
      var r := Perform(exec, plan, m, db, budget);
      UpPerforms(exec, plan, m, start, db, budget);
      PerformResumes(exec, plan, empty, db, m, i, ahead, budget);
      if r.Going? {
        UpGoes(exec, plan, empty, r.db, m + 1, 0, false, start, r.left);
      }
    }
  }

  /** ...or leaves another resumable state. */
  lemma {:induction false} UpStops<S>(exec: Exec<S>, plan: seq<Migration>, empty: S, db: Database<S>, m: nat, i: nat,
        ahead: bool, start: nat, budget: nat)
    requires Registered(plan) && Harmless(exec, plan, empty) && At(exec, plan, empty, db, m, i, ahead) && start <= m
    ensures var r := UpFrom(exec, plan, m, Current(Versions(plan, start)), db, budget);
      r.Stopped? ==> Resumable(exec, plan, empty, r.db)
    decreases |plan| - m
  {
    if m < |plan| {
      var r := Perform(exec, plan, m, db, budget);
      UpPerforms(exec, plan, m, start, db, budget);
      PerformResumes(exec, plan, empty, db, m, i, ahead, budget);
      if r.Going? {
        UpStops(exec, plan, empty, r.db, m + 1, 0, false, start, r.left);
      }
    }
  }

  /** One upgrade, killed wherever, leaves a resumable database; one that reports success leaves the schema in which
      every statement was executed exactly once in order, and every version in the ledger. */
  lemma UpIsCorrect<S>(exec: Exec<S>, plan: seq<Migration>, empty: S, db: Database<S>, budget: nat)
    requires Registered(plan) && Harmless(exec, plan, empty) && Resumable(exec, plan, empty, db)
    ensures var r := Up(exec, plan, db, budget);
      && Resumable(exec, plan, empty, r.db)
      && (r.Going? ==> r.db.schema == Canon(exec, plan, empty, |plan|, 0) && r.db.ledger == Versions(plan, |plan|))
  {
    var m: nat, i: nat, ahead: bool :| At(exec, plan, empty, db, m, i, ahead);
    UpSkips(exec, plan, m, 0, db, budget);
    UpGoes(exec, plan, empty, db, m, i, ahead, m, budget);
    UpStops(exec, plan, empty, db, m, i, ahead, m, budget);
  }

  /** Any number of killed upgrades, started from the empty database: the ledger is always a prefix of the registered
      versions, and the next upgrade that reports success gives the reference schema. */
  lemma {:induction false} RunsAreCorrect<S>(exec: Exec<S>, plan: seq<Migration>, empty: S, db: Database<S>,
        budgets: seq<nat>, last: nat)
    requires Registered(plan) && Harmless(exec, plan, empty) && Resumable(exec, plan, empty, db)
    ensures var r := Runs(exec, plan, db, budgets);
      && Resumable(exec, plan, empty, r) && r.ledger <= Versions(plan, |plan|)
      && (Up(exec, plan, r, last).Going? ==> Up(exec, plan, r, last).db.schema == Canon(exec, plan, empty, |plan|, 0))
    decreases |budgets|
  {
    if budgets == [] {
      UpIsCorrect(exec, plan, empty, db, last);
      LedgerIsPrefix(exec, plan, empty, db);
    } else {
      UpIsCorrect(exec, plan, empty, db, budgets[0]);
      RunsAreCorrect(exec, plan, empty, Up(exec, plan, db, budgets[0]).db, budgets[1..], last);
    }
  }

  lemma LedgerIsPrefix<S>(exec: Exec<S>, plan: seq<Migration>, empty: S, db: Database<S>)
    requires Resumable(exec, plan, empty, db)
    ensures db.ledger <= Versions(plan, |plan|)
  {
    var m: nat, i: nat, ahead: bool :| At(exec, plan, empty, db, m, i, ahead);
    assert Versions(plan, m) == Versions(plan, |plan|)[..m];
  }

  /** The same for a database that starts empty. */
  lemma UpgradesFromEmpty<S>(exec: Exec<S>, plan: seq<Migration>, empty: S, budgets: seq<nat>, last: nat)
    requires Registered(plan) && Harmless(exec, plan, empty)
    ensures var r := Runs(exec, plan, Database(empty, {}, [], []), budgets);
      && r.ledger <= Versions(plan, |plan|)
      && (Up(exec, plan, r, last).Going? ==> Up(exec, plan, r, last).db.schema == Canon(exec, plan, empty, |plan|, 0))
  {
    assert At(exec, plan, empty, Database(empty, {}, [], []), 0, 0, false);
    RunsAreCorrect(exec, plan, empty, Database(empty, {}, [], []), budgets, last);
  }

  // ---------- what is executed again ----------

  /** From one database to a later one: progress rows stay, and what was executed in between had no progress row at the
      start, the bodies of DML migrations excepted. */
  predicate Rests<S>(plan: seq<Migration>, db: Database<S>, r: Database<S>) {
    && db.progress <= r.progress && |db.log| <= |r.log| && r.log[..|db.log|] == db.log
    && forall n :: |db.log| <= n < |r.log| ==> RestsAt(plan, db, r.log[n])
  }

  predicate RestsAt<S>(plan: seq<Migration>, db: Database<S>, entry: (nat, nat)) {
    entry.0 < |plan| && (plan[entry.0].dml || (plan[entry.0].version, entry.1) !in db.progress)
  }

  lemma RestsOn<S>(plan: seq<Migration>, db: Database<S>, mid: Database<S>, r: Database<S>)
    requires Rests(plan, db, mid) && Rests(plan, mid, r)
    ensures Rests(plan, db, r)
  {
    assert r.log[..|db.log|] == r.log[..|mid.log|][..|db.log|];
    forall n | |db.log| <= n < |r.log| ensures RestsAt(plan, db, r.log[n]) {
      if n < |mid.log| {
        assert r.log[n] == r.log[..|mid.log|][n];
      } else {
        assert RestsAt(plan, mid, r.log[n]);
      }
    }
  }

  lemma {:induction false} StepsRest<S>(exec: Exec<S>, plan: seq<Migration>, m: nat, i: nat, db: Database<S>,
        budget: nat)
    requires m < |plan|
    ensures Rests(plan, db, RunSteps(exec, plan, m, i, db, budget).db)
    decreases plan[m].steps - i
  {
    if i < plan[m].steps {
      if (plan[m].version, i) in db.progress {
        StepsRest(exec, plan, m, i + 1, db, budget);
      } else if budget > 1 && exec(db.schema, m, i).Some? {
        var next := Recorded(Executed(db, m, i, exec(db.schema, m, i).value), plan[m].version, i);
        StepsRest(exec, plan, m, i + 1, next, budget - 2);
        assert Rests(plan, db, next);
        RestsOn(plan, db, next, RunSteps(exec, plan, m, i + 1, next, budget - 2).db);
      }
    }
  }

  lemma PerformRests<S>(exec: Exec<S>, plan: seq<Migration>, m: nat, db: Database<S>, budget: nat)
    requires m < |plan|
    ensures Rests(plan, db, Perform(exec, plan, m, db, budget).db)
  {
    if !plan[m].dml {
      StepsRest(exec, plan, m, 0, db, budget);
    }
  }

  lemma {:induction false} UpFromRests<S>(exec: Exec<S>, plan: seq<Migration>, m: nat, current: nat, db: Database<S>,
        budget: nat)
    ensures Rests(plan, db, UpFrom(exec, plan, m, current, db, budget).db)
    decreases |plan| - m
  {
    if m < |plan| {
      if plan[m].version <= current {
        UpFromRests(exec, plan, m + 1, current, db, budget);
      } else {
        var r := Perform(exec, plan, m, db, budget);
        PerformRests(exec, plan, m, db, budget);
        if r.Going? {
          UpFromRests(exec, plan, m + 1, current, r.db, r.left);
          RestsOn(plan, db, r.db, UpFrom(exec, plan, m, current, db, budget).db);
        }
      }
    }
  }

  /** Over any sequence of upgrades killed anywhere, no statement of a DDL migration is executed once it is recorded. */
  lemma {:induction false} RecordedStepsRest<S>(exec: Exec<S>, plan: seq<Migration>, db: Database<S>, budgets: seq<nat>)
    ensures Rests(plan, db, Runs(exec, plan, db, budgets))
    decreases |budgets|
  {
    if budgets != [] {
      var next := Up(exec, plan, db, budgets[0]).db;
      UpFromRests(exec, plan, 0, Current(db.ledger), db, budgets[0]);
      RecordedStepsRest(exec, plan, next, budgets[1..]);
      RestsOn(plan, db, next, Runs(exec, plan, db, budgets));
    }
  }

  /** The DML branch does: killed between the commit of its body and the ledger row, it runs a recorded body again. A
      pending migration runs a recorded statement again exactly when it is of the DML kind. */
  lemma RecordedBodyRuns<S>(exec: Exec<S>, plan: seq<Migration>, empty: S, db: Database<S>, m: nat, budget: nat)
    requires Registered(plan) && m < |plan| && plan[m].steps > 0 && At(exec, plan, empty, db, m, plan[m].steps, false)
    requires budget > 0 && exec(db.schema, m, 0).Some?
    ensures (plan[m].version, 0) in db.progress
    ensures var r := Perform(exec, plan, m, db, budget).db;
      |db.log| <= |r.log| && ((m, 0) in r.log[|db.log|..] <==> plan[m].dml)
  {
    var r := Perform(exec, plan, m, db, budget).db;
    if plan[m].dml {
      assert r.log[|db.log|] == (m, 0);
    } else {
      AllRecorded(exec, plan, m, 0, db, budget);
      assert r.log[|db.log|..] == [];
    }
  }

  lemma {:induction false} AllRecorded<S>(exec: Exec<S>, plan: seq<Migration>, m: nat, i: nat, db: Database<S>,
        budget: nat)
    requires m < |plan| && forall j :: i <= j < plan[m].steps ==> (plan[m].version, j) in db.progress
    ensures RunSteps(exec, plan, m, i, db, budget) == Going(db, budget)
    decreases plan[m].steps - i
  {
    if i < plan[m].steps {
      AllRecorded(exec, plan, m, i + 1, db, budget);
    }
  }

  /** Not every migration may be of the DML kind: killed before the ledger row, its body takes effect twice. None of the
      registered migrations V1 to V7 is. */
  lemma BodyRunsTwice()
    ensures var plan, start := [Migration(1, true, 1)], Database(0, {}, [], []);
      var killed := Up(CountUp, plan, start, 1);
      && killed == Stopped(Database(1, {(1, 0)}, [], [(0, 0)]))
      && Up(CountUp, plan, killed.db, 2) == Going(Database(2, {(1, 0)}, [1], [(0, 0), (0, 0)]), 0)
  {
    var plan := [Migration(1, true, 1)];
    var killed := Database(1, {(1, 0)}, [], [(0, 0)]);
    assert Perform(CountUp, plan, 0, Database(0, {}, [], []), 1) == Stopped(killed);
    assert Perform(CountUp, plan, 0, killed, 2) == Going(Database(2, {(1, 0)}, [1], [(0, 0), (0, 0)]), 0);
  }

  function CountUp(n: nat, m: nat, i: nat): Option<nat> { Some(n + 1) }

  // ---------- which interrupted upgrades complete ----------

  /** Every statement succeeds where an uninterrupted upgrade executes it. */
  ghost predicate Sound<S>(exec: Exec<S>, plan: seq<Migration>, empty: S) {
    forall m, i :: 0 <= m < |plan| && 0 <= i < plan[m].steps ==> SoundAt(exec, plan, empty, m, i)
  }

  ghost predicate SoundAt<S>(exec: Exec<S>, plan: seq<Migration>, empty: S, m: nat, i: nat)
    requires m < |plan|
  {
    exec(Canon(exec, plan, empty, m, i), m, i).Some?
  }

  function FirstMissing(plan: seq<Migration>, progress: set<(nat, nat)>, m: nat, i: nat): nat
    requires m < |plan|
    decreases plan[m].steps - i
  {
    if i >= plan[m].steps || (plan[m].version, i) !in progress then i else FirstMissing(plan, progress, m, i + 1)
  }

  /** The statement an upgrade executes first in a pending migration. */
  function NextStatement<S>(plan: seq<Migration>, db: Database<S>, m: nat): nat
    requires m < |plan|
  {
    if plan[m].dml then 0 else FirstMissing(plan, db.progress, m, 0)
  }

  /** The next statement to run was already executed, and it fails when it is executed again. */
  predicate Stuck<S>(exec: Exec<S>, plan: seq<Migration>, db: Database<S>) {
    && |db.ledger| < |plan|
    && var m := |db.ledger|;
       var n := NextStatement(plan, db, m);
       n < plan[m].steps && (m, n) in db.log && exec(db.schema, m, n).None?
  }

  /** The writes of the migrations from position m on, when nothing of them is recorded. */
  function Cost(plan: seq<Migration>, m: nat): nat
    decreases |plan| - m
  {
    if m >= |plan| then 0 else 2 * plan[m].steps + 1 + Cost(plan, m + 1)
  }

  lemma {:induction false} FirstMissingIs(plan: seq<Migration>, progress: set<(nat, nat)>, m: nat, i: nat, j: nat)
    requires m < |plan| && RecordedUpTo(plan, progress, m, i) && j <= i <= plan[m].steps
    ensures FirstMissing(plan, progress, m, j) == i
    decreases i - j
  {
    if j < i {
      FirstMissingIs(plan, progress, m, i, j + 1);
    }
  }

  /** A database that is not stuck executes its next statement successfully. */
  lemma NextSucceeds<S>(exec: Exec<S>, plan: seq<Migration>, empty: S, db: Database<S>, m: nat, i: nat, ahead: bool)
    requires Registered(plan) && Sound(exec, plan, empty) && At(exec, plan, empty, db, m, i, ahead)
    requires m < |plan| && !Stuck(exec, plan, db)
    ensures NextStatement(plan, db, m) == (if plan[m].dml then 0 else i)
    ensures var n := NextStatement(plan, db, m); n < plan[m].steps ==> exec(db.schema, m, n).Some?
  {
    FirstMissingIs(plan, db.progress, m, i, 0);
    var n := NextStatement(plan, db, m);
    assert (m, n) in db.log <==> n < plan[m].steps && n < if ahead then i + 1 else i;
    if n < plan[m].steps && (m, n) !in db.log {
      assert SoundAt(exec, plan, empty, m, n);
    }
  }

  lemma {:induction false} StepsComplete<S>(exec: Exec<S>, plan: seq<Migration>, empty: S, db: Database<S>, m: nat,
        i: nat, ahead: bool, budget: nat)
    requires Registered(plan) && Harmless(exec, plan, empty) && Sound(exec, plan, empty)
    requires At(exec, plan, empty, db, m, i, ahead) && m < |plan| && budget >= 2 * (plan[m].steps - i)
    requires ahead ==> exec(db.schema, m, i).Some?
    ensures var r := RunSteps(exec, plan, m, i, db, budget); r.Going? && r.left >= budget - 2 * (plan[m].steps - i)
    decreases plan[m].steps - i
  {
    if i < plan[m].steps {
      assert SoundAt(exec, plan, empty, m, i);
      NextResumes(exec, plan, empty, db, m, i, ahead);
      var done := Executed(db, m, i, exec(db.schema, m, i).value);
      StepsComplete(exec, plan, empty, Recorded(done, plan[m].version, i), m, i + 1, false, budget - 2);
    }
  }

  lemma PerformCompletes<S>(exec: Exec<S>, plan: seq<Migration>, empty: S, db: Database<S>, m: nat, i: nat,
        ahead: bool, budget: nat)
    requires Registered(plan) && Harmless(exec, plan, empty) && Sound(exec, plan, empty)
    requires At(exec, plan, empty, db, m, i, ahead) && m < |plan| && !Stuck(exec, plan, db)
    requires budget >= 2 * plan[m].steps + 1
    ensures var r := Perform(exec, plan, m, db, budget); r.Going? && r.left >= budget - 2 * plan[m].steps - 1
  {
    NextSucceeds(exec, plan, empty, db, m, i, ahead);
    if !plan[m].dml {
      StepsSkip(exec, plan, m, 0, i, db, budget);
      StepsComplete(exec, plan, empty, db, m, i, ahead, budget);
    }
  }

  /** A database that stands between two migrations is not stuck. */
  lemma FreshIsFree<S>(exec: Exec<S>, plan: seq<Migration>, empty: S, db: Database<S>, m: nat)
    requires Registered(plan) && At(exec, plan, empty, db, m, 0, false)
    ensures !Stuck(exec, plan, db)
  {
    if m < |plan| {
      FirstMissingIs(plan, db.progress, m, 0, 0);
      assert (m, 0) !in db.log;
    }
  }

  lemma PerformsOn<S>(exec: Exec<S>, plan: seq<Migration>, empty: S, db: Database<S>, m: nat, i: nat, ahead: bool,
        budget: nat)
    requires Registered(plan) && Harmless(exec, plan, empty) && Sound(exec, plan, empty) && m < |plan|
    requires At(exec, plan, empty, db, m, i, ahead) && !Stuck(exec, plan, db) && budget >= Cost(plan, m)
    ensures var r := Perform(exec, plan, m, db, budget);
      && r.Going? && r.left >= Cost(plan, m + 1)
      && At(exec, plan, empty, r.db, m + 1, 0, false) && !Stuck(exec, plan, r.db)
  {
    PerformCompletes(exec, plan, empty, db, m, i, ahead, budget);
    PerformResumes(exec, plan, empty, db, m, i, ahead, budget);
    FreshIsFree(exec, plan, empty, Perform(exec, plan, m, db, budget).db, m + 1);
  }

  lemma {:induction false} UpFromCompletes<S>(exec: Exec<S>, plan: seq<Migration>, empty: S, db: Database<S>, m: nat,
        i: nat, ahead: bool, start: nat, budget: nat)
    requires Registered(plan) && Harmless(exec, plan, empty) && Sound(exec, plan, empty) && start <= m
    requires At(exec, plan, empty, db, m, i, ahead) && !Stuck(exec, plan, db) && budget >= Cost(plan, m)
    ensures UpFrom(exec, plan, m, Current(Versions(plan, start)), db, budget).Going?
    decreases |plan| - m
  {
    if m < |plan| {
      var r := Perform(exec, plan, m, db, budget);
      UpPerforms(exec, plan, m, start, db, budget);
      PerformsOn(exec, plan, empty, db, m, i, ahead, budget);
      UpFromCompletes(exec, plan, empty, r.db, m + 1, 0, false, start, r.left);
    }
  }

  /** An interrupted database that is not stuck is upgraded by the next run that is given the writes. */
  lemma FreeCompletes<S>(exec: Exec<S>, plan: seq<Migration>, empty: S, db: Database<S>, budget: nat)
    requires Registered(plan) && Harmless(exec, plan, empty) && Sound(exec, plan, empty)
    requires Resumable(exec, plan, empty, db) && !Stuck(exec, plan, db) && budget >= Cost(plan, |db.ledger|)
    ensures Up(exec, plan, db, budget).Going?
  {
    var m: nat, i: nat, ahead: bool :| At(exec, plan, empty, db, m, i, ahead);
    UpSkips(exec, plan, m, 0, db, budget);
    UpFromCompletes(exec, plan, empty, db, m, i, ahead, m, budget);
  }

  lemma {:induction false} StepsBlock<S>(exec: Exec<S>, plan: seq<Migration>, m: nat, j: nat, db: Database<S>,
        budget: nat)
    requires m < |plan|
    requires var i := FirstMissing(plan, db.progress, m, j); i < plan[m].steps && exec(db.schema, m, i).None?
    ensures RunSteps(exec, plan, m, j, db, budget) == Stopped(db)
    decreases plan[m].steps - j
  {
    if (plan[m].version, j) in db.progress {
      StepsBlock(exec, plan, m, j + 1, db, budget);
    }
  }

  /** A stuck database stays as it is: no upgrade gets past the statement or changes anything. */
  lemma BlockedForGood<S>(exec: Exec<S>, plan: seq<Migration>, empty: S, db: Database<S>, budget: nat)
    requires Registered(plan) && Resumable(exec, plan, empty, db) && Stuck(exec, plan, db)
    ensures Up(exec, plan, db, budget) == Stopped(db)
  {
    var m: nat, i: nat, ahead: bool :| At(exec, plan, empty, db, m, i, ahead);
    if !plan[m].dml {
      StepsBlock(exec, plan, m, 0, db, budget);
    }
    UpSkips(exec, plan, m, 0, db, budget);
    CurrentIs(plan, m, m);
  }

  lemma {:induction false} BlockedOverRuns<S>(exec: Exec<S>, plan: seq<Migration>, empty: S, db: Database<S>,
        budgets: seq<nat>)
    requires Registered(plan) && Resumable(exec, plan, empty, db) && Stuck(exec, plan, db)
    ensures Runs(exec, plan, db, budgets) == db
    decreases |budgets|
  {
    if budgets != [] {
      BlockedForGood(exec, plan, empty, db, budgets[0]);
      BlockedOverRuns(exec, plan, empty, db, budgets[1..]);
    }
  }

  /** An interrupted database can be upgraded exactly when its next statement was not executed yet or can be executed
      again: what the comment on resuming takes for granted. */
  lemma UpgradeCompletes<S>(exec: Exec<S>, plan: seq<Migration>, empty: S, db: Database<S>)
    requires Registered(plan) && Harmless(exec, plan, empty) && Sound(exec, plan, empty)
    requires Resumable(exec, plan, empty, db)
    ensures (exists budget: nat :: Up(exec, plan, db, budget).Going?) <==> !Stuck(exec, plan, db)
  {
    if Stuck(exec, plan, db) {
      forall budget: nat ensures !Up(exec, plan, db, budget).Going? {
        BlockedForGood(exec, plan, empty, db, budget);
      }
    } else {
      FreeCompletes(exec, plan, empty, db, Cost(plan, |db.ledger|));
    }
  }

  /** In particular after any number of killed upgrades of an empty database. */
  lemma EmptyCompletes<S>(exec: Exec<S>, plan: seq<Migration>, empty: S, budgets: seq<nat>)
    requires Registered(plan) && Harmless(exec, plan, empty) && Sound(exec, plan, empty)
    ensures var r := Runs(exec, plan, Database(empty, {}, [], []), budgets);
      (exists budget: nat :: Up(exec, plan, r, budget).Going?) <==> !Stuck(exec, plan, r)
  {
    var start := Database(empty, {}, [], []);
    assert At(exec, plan, empty, start, 0, 0, false);
    RunsAreCorrect(exec, plan, empty, start, budgets, 0);
    UpgradeCompletes(exec, plan, empty, Runs(exec, plan, start, budgets));
  }

  // ---------- the column that cannot be added twice ----------

  /** One table created with an existence check, then the two statements of V7: a column added without one, and its
      backfill. The schema is the set of names it defines. */
  const COLUMN_PLAN := [Migration(1, false, 1), Migration(7, false, 2)]

  function ColumnExec(schema: set<string>, m: nat, i: nat): Option<set<string>> {
    if m == 0 then Some(schema + {"activity"})
    else if i > 0 then Some(schema)
    else if "refill_paused_by_platform" in schema then None
    else Some(schema + {"refill_paused_by_platform"})
  }

  const CREATED: Database<set<string>> := Database({"activity"}, {(1, 0)}, [1], [(0, 0)])

  const ADDED: Database<set<string>> :=
    Database({"activity", "refill_paused_by_platform"}, {(1, 0)}, [1], [(0, 0), (1, 0)])

  lemma FirstCreates(budget: nat)
    requires budget >= 3
    ensures Perform(ColumnExec, COLUMN_PLAN, 0, Database({}, {}, [], []), budget) == Going(CREATED, budget - 3)
  {
    var start: Database<set<string>> := Database({}, {}, [], []);
    var done := Recorded(Executed(start, 0, 0, {"activity"}), 1, 0);
    assert {} + {"activity"} == {"activity"};
    assert done == CREATED.(ledger := []);
    assert RunSteps(ColumnExec, COLUMN_PLAN, 0, 1, done, budget - 2) == Going(done, budget - 2);
    assert RunSteps(ColumnExec, COLUMN_PLAN, 0, 0, start, budget) == Going(done, budget - 2);
  }

  lemma ThenAdds()
    ensures Executed(CREATED, 1, 0, ColumnExec(CREATED.schema, 1, 0).value) == ADDED
    ensures Perform(ColumnExec, COLUMN_PLAN, 1, CREATED, 1) == Stopped(ADDED)
    ensures Perform(ColumnExec, COLUMN_PLAN, 1, CREATED, 2) == Stopped(Recorded(ADDED, 7, 0))
  {
    assert CREATED.schema + {"refill_paused_by_platform"} == ADDED.schema;
    assert RunSteps(ColumnExec, COLUMN_PLAN, 1, 0, CREATED, 1) == Stopped(ADDED);
    assert RunSteps(ColumnExec, COLUMN_PLAN, 1, 1, Recorded(ADDED, 7, 0), 0) == Stopped(Recorded(ADDED, 7, 0));
  }

  /** Killed after the column was added and before its progress row was written, the upgrade never completes. */
  lemma ColumnBlocks(budget: nat)
    ensures Up(ColumnExec, COLUMN_PLAN, Database({}, {}, [], []), 4) == Stopped(ADDED)
    ensures Stuck(ColumnExec, COLUMN_PLAN, ADDED) && Up(ColumnExec, COLUMN_PLAN, ADDED, budget) == Stopped(ADDED)
  {
    FirstCreates(4);
    ThenAdds();
    assert Perform(ColumnExec, COLUMN_PLAN, 1, ADDED, budget) == Stopped(ADDED);
  }

  /** Killed one write later, it does. */
  lemma ColumnResumes()
    ensures Up(ColumnExec, COLUMN_PLAN, Database({}, {}, [], []), 5) == Stopped(Recorded(ADDED, 7, 0))
    ensures Up(ColumnExec, COLUMN_PLAN, Recorded(ADDED, 7, 0), 3).Going?
  {
    FirstCreates(5);
    ThenAdds();
    var resumed := Recorded(ADDED, 7, 0);
    assert RunSteps(ColumnExec, COLUMN_PLAN, 1, 1, resumed, 3).Going?;
    assert Perform(ColumnExec, COLUMN_PLAN, 1, resumed, 3).Going?;
  }
}
