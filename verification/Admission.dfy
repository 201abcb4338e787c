/** The admission engine as one state machine: every service transaction, every background job and the death of a
    server process is a step, and a run is any sequence of steps. */
module Admission {
  import opened OrderBy
  import opened Tables
  import opened Transactions
  import opened Invariant
  import opened Preparing
  import opened Safety
  import opened Evolution
  import opened Losses

  datatype Step =
    | Create(quota: int, choice: Option<Mode>, batchSize: int, expireHours: int, platform: Defaults)
    | Import(a: nat, studentId: string, profile: string, score: int)
    | Correct(a: nat, k: nat, sameId: Option<string>, newProfile: Option<string>, newScore: Option<int>)
    | Recompute(a: nat)
    | OrderTie(a: nat, ids: seq<nat>)
    | Start(a: nat, hasOwner: bool, smtpReady: bool, now: int)
    | Replenish(a: nat, now: int)
    | SendBatch(a: nat, limit: nat, platformDefault: int, smtpReady: bool, now: int)
    | SendManual(a: nat, k: nat, smtpReady: bool, now: int)
    | SendSpecial(a: nat, k: nat, reasonGiven: bool, smtpReady: bool, now: int)
    | Accept(o: nat, now: int)
    | Decline(o: nat, now: int)
    | Sweep(a: nat, ids: seq<nat>, now: int)
    | SetQuota(a: nat, quota: int)
    | RefillQuota(a: nat, fillWorks: bool, intentWorks: bool, now: int)
    | Crash(a: nat)
    | SetMode(a: nat, mode: Mode)
    | SwitchOff(a: nat)
    | SwitchOn(a: nat, now: int)
    | Shelve(a: nat)
    | Pause(a: nat)
    | PauseAll
    | Resume(a: nat, now: int)
    | Execute(a: nat, now: int)

  /** The committed state after one step. */
  function Apply(s: State, step: Step): (r: State)
    requires Refs(s)
    ensures Refs(r)
  {
    match step
    case Create(quota, mode, batchSize, expireHours, platform) =>
      CreateActivity(s, quota, mode, batchSize, expireHours, platform).after
    case Import(a, studentId, profile, score) => ImportOne(s, a, studentId, profile, score).after
    case Correct(a, k, studentId, profile, score) => Patch(s, a, k, studentId, profile, score).after
    case Recompute(a) => Recalculate(s, a).after
    case OrderTie(a, ids) => TieOrder(s, a, ids).after
    case Start(a, hasOwner, smtpReady, now) => StartAdmission(s, a, hasOwner, smtpReady, now).after
    case Replenish(a, now) => Refill(s, a, now)
    case SendBatch(a, limit, platformDefault, smtpReady, now) =>
      IssueBatch(s, a, limit, platformDefault, smtpReady, now).after
    case SendManual(a, k, smtpReady, now) => IssueManual(s, a, k, smtpReady, now).after
    case SendSpecial(a, k, reasonGiven, smtpReady, now) => IssueSpecial(s, a, k, reasonGiven, smtpReady, now).after
    case Accept(o, now) => AcceptTx(s, o, now).after
    case Decline(o, now) => DeclineTx(s, o, now).after
    case Sweep(a, ids, now) => SettleGroup(s, a, ids, now)
    case SetQuota(a, quota) => UpdateQuota(s, a, quota).after
    case RefillQuota(a, fillWorks, intentWorks, now) => QuotaRefill(s, a, fillWorks, intentWorks, now)
    case Crash(a) => Abandon(s, a)
    case SetMode(a, mode) => UpdateOfferMode(s, a, mode).after
    case SwitchOff(a) => Disable(s, a).after
    case SwitchOn(a, now) => Activate(s, a, now).after
    case Shelve(a) => Archive(s, a).after
    case Pause(a) => PauseRefill(s, a).after
    case PauseAll => PauseAllAutoRefills(s)
    case Resume(a, now) => ResumeRefill(s, a, now).after
    case Execute(a, now) => ExecuteOne(s, a, now)
  }

  /** The steps that can lose a seat: the death of a process that owes a refill, and an owed refill that fails together
      with its fallback intent. */
  predicate Lossy(step: Step) {
    step.Crash? || (step.RefillQuota? && !step.fillWorks && !step.intentWorks)
  }

  /** When they do. */
  predicate Loses(s: State, step: Step)
    requires Refs(s)
  {
    match step
    case Crash(a) => OnlyOwed(s, a)
    case RefillQuota(a, fillWorks, intentWorks, now) => !fillWorks && !intentWorks && OnlyOwed(s, a)
    case _ => false
  }

  lemma PreparingStep(s: State, step: Step)
    requires Safe(s) && (step.Create? || step.Import? || step.Correct?)
    ensures Safe(Apply(s, step)) && (Seats(s) ==> Seats(Apply(s, step)))
  {
    match step
    case Create(quota, mode, size, hours, platform) => CreateKeeps(s, quota, mode, size, hours, platform);
    case Import(a, studentId, profile, score) => ImportKeeps(s, a, studentId, profile, score);
    case Correct(a, k, studentId, profile, score) => PatchKeeps(s, a, k, studentId, profile, score);
  }

  lemma RankingStep(s: State, step: Step)
    requires Safe(s) && (step.Recompute? || step.OrderTie? || step.SetMode?)
    ensures Safe(Apply(s, step)) && (Seats(s) ==> Seats(Apply(s, step)))
  {
    match step
    case Recompute(a) => RecalculateKeeps(s, a);
    case OrderTie(a, ids) => TieOrderKeeps(s, a, ids);
    case SetMode(a, mode) => ModeKeeps(s, a, mode);
  }

  lemma IssuingStep(s: State, step: Step)
    requires Safe(s) && (step.Start? || step.SendBatch? || step.SendManual? || step.SendSpecial?)
    ensures Safe(Apply(s, step)) && (Seats(s) ==> Seats(Apply(s, step)))
  {
    match step
    case Start(a, hasOwner, smtpReady, now) => StartKeeps(s, a, hasOwner, smtpReady, now);
    case SendBatch(a, limit, platformDefault, smtpReady, now) =>
      BatchKeeps(s, a, limit, platformDefault, smtpReady, now);
    case SendManual(a, k, smtpReady, now) => ManualKeeps(s, a, k, smtpReady, now);
    case SendSpecial(a, k, reasonGiven, smtpReady, now) => SpecialKeeps(s, a, k, reasonGiven, smtpReady, now);
  }

  lemma AnsweringStep(s: State, step: Step)
    requires Safe(s) && (step.Accept? || step.Decline? || step.Sweep?)
    ensures Safe(Apply(s, step)) && (Seats(s) ==> Seats(Apply(s, step)))
  {
    match step
    case Accept(o, now) => AcceptKeeps(s, o, now);
    case Decline(o, now) => DeclineKeeps(s, o, now);
    case Sweep(a, ids, now) => SettleGroupKeeps(s, a, ids, now);
  }

  lemma RefillingStep(s: State, step: Step)
    requires Safe(s) && (step.Replenish? || step.RefillQuota?)
    ensures Safe(Apply(s, step)) && (Seats(s) && !Lossy(step) ==> Seats(Apply(s, step)))
  {
    match step
    case Replenish(a, now) => ReplenishKeeps(s, a, now);
    case RefillQuota(a, fillWorks, intentWorks, now) => QuotaRefillKeeps(s, a, fillWorks, intentWorks, now);
  }

  lemma ServingStep(s: State, step: Step)
    requires Safe(s) && (step.Resume? || step.Execute?)
    ensures Safe(Apply(s, step)) && (Seats(s) ==> Seats(Apply(s, step)))
  {
    match step
    case Resume(a, now) => ResumeKeeps(s, a, now);
    case Execute(a, now) => ExecuteKeeps(s, a, now);
  }

  lemma LifecycleStep(s: State, step: Step)
    requires Safe(s) && (step.SwitchOff? || step.SwitchOn? || step.Shelve?)
    ensures Safe(Apply(s, step)) && (Seats(s) ==> Seats(Apply(s, step)))
  {
    match step
    case SwitchOff(a) => DisableKeeps(s, a);
    case SwitchOn(a, now) => ActivateKeeps(s, a, now);
    case Shelve(a) => ArchiveKeeps(s, a);
  }

  lemma StoppingStep(s: State, step: Step)
    requires Safe(s) && (step.SetQuota? || step.Pause? || step.PauseAll?)
    ensures Safe(Apply(s, step)) && (Seats(s) ==> Seats(Apply(s, step)))
  {
    match step
    case SetQuota(a, quota) => QuotaKeeps(s, a, quota);
    case Pause(a) => PauseKeeps(s, a);
    case PauseAll => PauseAllKeeps(s);
  }

  lemma LossyStep(s: State, step: Step)
    requires Safe(s) && Lossy(step)
    ensures Safe(Apply(s, step)) && (Seats(s) ==> (Seats(Apply(s, step)) <==> !Loses(s, step)))
  {
    match step
    case Crash(a) => AbandonKeeps(s, a);
    case RefillQuota(a, fillWorks, intentWorks, now) => TwiceFailedKeeps(s, a, now);
  }

  lemma OtherStep(s: State, step: Step)
    requires Safe(s) && !Lossy(step)
    ensures Safe(Apply(s, step)) && (Seats(s) ==> Seats(Apply(s, step)))
  {
    if step.Create? || step.Import? || step.Correct? {
      PreparingStep(s, step);
    } else if step.Recompute? || step.OrderTie? || step.SetMode? {
      RankingStep(s, step);
    } else if step.Start? || step.SendBatch? || step.SendManual? || step.SendSpecial? {
      IssuingStep(s, step);
    } else if step.Accept? || step.Decline? || step.Sweep? {
      AnsweringStep(s, step);
    } else if step.Replenish? || step.RefillQuota? {
      RefillingStep(s, step);
    } else if step.Resume? || step.Execute? {
      ServingStep(s, step);
    } else if step.SwitchOff? || step.SwitchOn? || step.Shelve? {
      LifecycleStep(s, step);
    } else {
      StoppingStep(s, step);
    }
  }

  lemma OnlyLossyLoses(s: State, step: Step)
    requires Refs(s) && Loses(s, step)
    ensures Lossy(step)
  {
  }

  /** Every step keeps the invariant, and it keeps every seat covered unless it is one of the two that `Loses` names,
      in the situation it names. */
  lemma StepKeeps(s: State, step: Step)
    requires Safe(s)
    ensures Safe(Apply(s, step))
    ensures Seats(s) ==> (Seats(Apply(s, step)) <==> !Loses(s, step))
  {
    if Lossy(step) {
      LossyStep(s, step);
    } else {
      OtherStep(s, step);
      if Loses(s, step) {
        OnlyLossyLoses(s, step);
      }
    }
  }

  lemma PreparingEvolves(s: State, step: Step)
    requires Refs(s)
    requires step.Create? || step.Import? || step.Correct? || step.Recompute? || step.OrderTie?
    ensures Evolves(s, Apply(s, step))
  {
    match step
    case Create(quota, mode, size, hours, platform) => CreateEvolves(s, quota, mode, size, hours, platform);
    case Import(a, studentId, profile, score) => ImportEvolves(s, a, studentId, profile, score);
    case Correct(a, k, studentId, profile, score) => PatchEvolves(s, a, k, studentId, profile, score);
    case Recompute(a) => RecalculateEvolves(s, a);
    case OrderTie(a, ids) => TieOrderEvolves(s, a, ids);
  }

  lemma IssuingEvolves(s: State, step: Step)
    requires Refs(s) && Settings(s) && Quotas(s)
    requires step.Start? || step.SendBatch? || step.SendManual? || step.SendSpecial? || step.Replenish?
    ensures Evolves(s, Apply(s, step))
  {
    match step
    case Start(a, hasOwner, smtpReady, now) => StartEvolves(s, a, hasOwner, smtpReady, now);
    case SendBatch(a, limit, platformDefault, smtpReady, now) =>
      BatchEvolves(s, a, limit, platformDefault, smtpReady, now);
    case SendManual(a, k, smtpReady, now) => ManualEvolves(s, a, k, smtpReady, now);
    case SendSpecial(a, k, reasonGiven, smtpReady, now) => SpecialEvolves(s, a, k, reasonGiven, smtpReady, now);
    case Replenish(a, now) => RefillEvolves(s, a, now);
  }

  lemma AnsweringEvolves(s: State, step: Step)
    requires Refs(s) && Statuses(s) && Clean(s)
    requires step.Accept? || step.Decline? || step.Sweep? || step.Resume? || step.Execute?
    ensures Evolves(s, Apply(s, step))
  {
    match step
    case Accept(o, now) => AcceptEvolves(s, o, now);
    case Decline(o, now) => DeclineEvolves(s, o, now);
    case Sweep(a, ids, now) => SettleGroupEvolves(s, a, ids, now);
    case Resume(a, now) => ResumeEvolves(s, a, now);
    case Execute(a, now) => ExecuteEvolves(s, a, now);
  }

  lemma SettingEvolvesStep(s: State, step: Step)
    requires Refs(s)
    requires step.SetQuota? || step.RefillQuota? || step.SetMode? || step.Pause? || step.PauseAll?
    ensures Evolves(s, Apply(s, step))
  {
    match step
    case SetQuota(a, quota) => QuotaEvolves(s, a, quota);
    case RefillQuota(a, fillWorks, intentWorks, now) => QuotaRefillEvolves(s, a, fillWorks, intentWorks, now);
    case SetMode(a, mode) => ModeEvolves(s, a, mode);
    case Pause(a) => PauseEvolves(s, a);
    case PauseAll => PauseAllEvolves(s);
  }

  lemma LifecycleEvolvesStep(s: State, step: Step)
    requires Refs(s)
    requires step.SwitchOff? || step.SwitchOn? || step.Shelve? || step.Crash?
    ensures Evolves(s, Apply(s, step))
  {
    match step
    case SwitchOff(a) => LifecycleEvolves(s, a);
    case SwitchOn(a, now) => ActivateEvolves(s, a, now);
    case Shelve(a) => LifecycleEvolves(s, a);
    case Crash(a) => SameEvolves(s);
  }

  /** No step takes back what is final. */
  lemma StepEvolves(s: State, step: Step)
    requires Refs(s) && Settings(s) && Quotas(s) && Statuses(s) && Clean(s)
    ensures Evolves(s, Apply(s, step))
  {
    if step.Create? || step.Import? || step.Correct? || step.Recompute? || step.OrderTie? {
      PreparingEvolves(s, step);
    } else if step.Start? || step.SendBatch? || step.SendManual? || step.SendSpecial? || step.Replenish? {
      IssuingEvolves(s, step);
    } else if step.Accept? || step.Decline? || step.Sweep? || step.Resume? || step.Execute? {
      AnsweringEvolves(s, step);
    } else if step.SetQuota? || step.RefillQuota? || step.SetMode? || step.Pause? || step.PauseAll? {
      SettingEvolvesStep(s, step);
    } else {
      LifecycleEvolvesStep(s, step);
    }
  }

  // ---------- runs ----------

  lemma EmptyIsSafe()
    ensures Safe(EMPTY) && Seats(EMPTY)
  {
  }

  /** The state after a sequence of steps. */
  function Run(s: State, steps: seq<Step>): (r: State)
    requires Refs(s)
    ensures Refs(r)
    decreases |steps|
  {
    if steps == [] then s else Run(Apply(s, steps[0]), steps[1..])
  }

  /** Whatever the system does, the invariant holds. */
  lemma {:induction false} RunKeeps(s: State, steps: seq<Step>)
    requires Safe(s)
    ensures Safe(Run(s, steps))
    decreases |steps|
  {
    if steps != [] {
      StepKeeps(s, steps[0]);
      RunKeeps(Apply(s, steps[0]), steps[1..]);
    }
  }

  predicate Lossless(steps: seq<Step>) {
    forall i :: 0 <= i < |steps| ==> !Lossy(steps[i])
  }

  /** Some step of the run loses a seat. */
  predicate LosesAlong(s: State, steps: seq<Step>)
    requires Refs(s)
    decreases |steps|
  {
    steps != [] && (Loses(s, steps[0]) || LosesAlong(Apply(s, steps[0]), steps[1..]))
  }

  /** Every seat is covered all along the run. */
  predicate CoveredAlong(s: State, steps: seq<Step>)
    requires Refs(s)
    decreases |steps|
  {
    Seats(s) && (steps != [] ==> CoveredAlong(Apply(s, steps[0]), steps[1..]))
  }

  /** A run keeps every seat covered all along exactly when none of its steps loses one. */
  lemma {:induction false} RunLoses(s: State, steps: seq<Step>)
    requires Safe(s) && Seats(s)
    ensures CoveredAlong(s, steps) <==> !LosesAlong(s, steps)
    decreases |steps|
  {
    if steps != [] {
      var next := Apply(s, steps[0]);
      StepKeeps(s, steps[0]);
      if Seats(next) {
        RunLoses(next, steps[1..]);
      }
    }
  }

  /** While no process dies owing a refill and no owed refill fails together with its fallback, no run of the system
      loses a seat. */
  lemma {:induction false} RunCoversSeats(s: State, steps: seq<Step>)
    requires Safe(s) && Seats(s) && Lossless(steps)
    ensures Seats(Run(s, steps))
    decreases |steps|
  {
    if steps != [] {
      StepKeeps(s, steps[0]);
      RunCoversSeats(Apply(s, steps[0]), steps[1..]);
    }
  }

  /** What is final stays final over every run. */
  lemma {:induction false} RunEvolves(s: State, steps: seq<Step>)
    requires Safe(s)
    ensures Evolves(s, Run(s, steps))
    decreases |steps|
  {
    if steps == [] {
      SameEvolves(s);
    } else {
      StepKeeps(s, steps[0]);
      StepEvolves(s, steps[0]);
      RunEvolves(Apply(s, steps[0]), steps[1..]);
      EvolvesChain(s, Apply(s, steps[0]), Run(s, steps));
    }
  }
}
