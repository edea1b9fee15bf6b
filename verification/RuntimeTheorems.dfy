/**
 The agent runtime over whole runs: the lifecycle invariant, the transition log, lease fencing, and
 schedules that are claimed by one holder at a time and finished once.
 */
module RuntimeTheorems {
  import opened Wrappers
  import opened Runtime

  datatype Step =
    | Elapse(ms: nat)
    | ContextProviderAdopted
    | Acquire(worker: string, ttlMs: nat)
    | Renew(worker: string, epoch: nat, ttlMs: nat)
    | Yield(worker: string, epoch: nat)
    | Save(worker: string, epoch: nat, expectedVersion: nat)
    | ResumeStep(actor: Actor, around: Around)
    | PauseStep(actor: Actor, reason: PauseReason)
    | ReconcileStep(around: Around)
    | ModelStep(actor: Actor, model: ModelStatus)
    | RestrictionStep(actor: Actor, flag: Flag, enabled: bool)
    | PublishStep(actor: Actor, expectedProfile: Option<nat>, manifest: nat, available: bool)
    | AddStep(actor: Actor, terms: Terms, dedupeKey: string)
    | ClaimStep(actor: Actor, action: nat, claimant: Claimant, around: Around)
    | CompleteStep(actor: Actor, action: nat, claimant: Claimant, completed: bool)
    | WakeStep(actor: Actor, action: nat, worker: string, around: Around)

  /** The one step outside the services: the authoritative context provider is adopted. */
  function AdoptContext(r: Runtime): Runtime {
    Bump(r).(flags := r.flags - {M03Context})
  }

  function Apply(r: Runtime, step: Step): Runtime {
    match step
    case Elapse(ms) => r.(now := r.now + ms)
    case ContextProviderAdopted => AdoptContext(r)
    case Acquire(worker, ttlMs) => AcquireLease(r, worker, ttlMs).after
    case Renew(worker, epoch, ttlMs) => RenewLease(r, worker, epoch, ttlMs).after
    case Yield(worker, epoch) => ReleaseLease(r, worker, epoch).after
    case Save(worker, epoch, expectedVersion) => SaveCheckpoint(r, worker, epoch, expectedVersion).after
    case ResumeStep(actor, around) => Resume(r, actor, around).after
    case PauseStep(actor, reason) => Pause(r, actor, reason).after
    case ReconcileStep(around) => Reconcile(r, around, None).after
    case ModelStep(actor, model) => SetModelStatus(r, actor, model).after
    case RestrictionStep(actor, flag, enabled) => SetRestriction(r, actor, flag, enabled).after
    case PublishStep(actor, expectedProfile, manifest, available) =>
      PublishRoute(r, actor, expectedProfile, manifest, available).after
    case AddStep(actor, terms, dedupeKey) => AddSchedule(r, actor, terms, dedupeKey).after
    case ClaimStep(actor, action, claimant, around) => ClaimAutonomous(r, actor, action, claimant, around).after
    case CompleteStep(actor, action, claimant, completed) => CompleteAction(r, actor, action, claimant, completed).after
    case WakeStep(actor, action, worker, around) => RunDueWake(r, actor, action, worker, around).after
  }

  function Run(r: Runtime, steps: seq<Step>): Runtime {
    if steps == [] then r else Apply(Run(r, steps[..|steps| - 1]), steps[|steps| - 1])
  }

  // ---- Invariants ----

  /** ACTIVE means nothing stands in the way; anything else is BLOCKED. */
  predicate LifeOk(r: Runtime) {
    && (r.life == Active ==> r.model == Available && r.execution != Blocked && r.flags == {})
    && (r.life != Active ==> r.execution == Blocked)
    && (NoModelRoute in r.flags <==> r.currentRoute.None?)
  }

  /** The log starts at REGISTERED, chains, and ends at the current status, with rising versions. */
  predicate LogOk(r: Runtime) {
    var log := r.transitions;
    && (log == [] ==> r.life == Registered)
    && (log != [] ==> log[0].from == Registered && log[|log| - 1].to == r.life)
    && (forall i :: 0 <= i < |log| ==> log[i].from != log[i].to && log[i].stateVersion <= r.stateVersion)
    && (forall i :: 0 < i < |log| ==> log[i].from == log[i - 1].to && log[i - 1].stateVersion < log[i].stateVersion)
  }

  function EpochOf(r: Runtime): nat {
    if r.lease.None? then 0 else r.lease.value.epoch
  }

  predicate CheckpointsOk(r: Runtime) {
    && (forall i :: 0 <= i < |r.checkpoints| ==>
          0 < r.checkpoints[i].epoch <= EpochOf(r) && r.checkpoints[i].stateVersion <= r.stateVersion)
    && (forall i, j :: 0 <= i < j < |r.checkpoints| ==>
          && r.checkpoints[i].stateVersion < r.checkpoints[j].stateVersion
          && r.checkpoints[i].epoch <= r.checkpoints[j].epoch)
  }

  predicate ScheduleOk(r: Runtime, row: Schedule) {
    && (row.status == Claimed ==>
          && row.terms.kind == AutonomousTurn && row.claimedBy.Some?
          && row.claimedEpoch.Some? && 0 < row.claimedEpoch.value <= EpochOf(r))
    && (row.status == Scheduled ==> row.claimedBy.None? && row.claimedEpoch.None?)
  }

  predicate Finished(row: Schedule) {
    row.status in {Completed, BlockedOut, Missed}
  }

  predicate SchedulesOk(r: Runtime) {
    && (forall i :: 0 <= i < |r.schedules| ==> ScheduleOk(r, r.schedules[i]))
    && (forall i, j :: 0 <= i < j < |r.schedules| ==> r.schedules[i].dedupeKey != r.schedules[j].dedupeKey)
  }

  /** Every executed wake left exactly one piece of evidence, and its schedule is finished. */
  predicate WakesOk(r: Runtime) {
    && (forall i :: 0 <= i < |r.wakes| ==>
          r.wakes[i].action < |r.schedules|
          && r.schedules[r.wakes[i].action].terms.kind == Wake && Finished(r.schedules[r.wakes[i].action]))
    && (forall i, j :: 0 <= i < j < |r.wakes| ==> r.wakes[i].action != r.wakes[j].action)
  }

  predicate RoutesOk(r: Runtime) {
    && |r.routeChanges| == |r.routes| && r.profileVersion == |r.routes| + 1
    && r.currentRoute == (if r.routes == [] then None else Some(|r.routes| - 1))
    && (forall i :: 0 <= i < |r.routeChanges| ==>
          r.routeChanges[i] == RouteChange(if i == 0 then None else Some(i - 1), i))
  }

  predicate Inv(r: Runtime) {
    LifeOk(r) && LogOk(r) && CheckpointsOk(r) && SchedulesOk(r) && WakesOk(r) && RoutesOk(r) && r.stateVersion > 0
  }

  /** How one row of the schedule may change. */
  predicate RowEvolves(a: Schedule, b: Schedule) {
    && b.terms == a.terms && b.dedupeKey == a.dedupeKey
    && (Finished(a) ==> b == a)
    && (a.status == Claimed ==>
          || Finished(b)
          || b == a
          || (b.status == Claimed && a.claimedEpoch.Some? && b.claimedEpoch.Some?
              && b.claimedEpoch.value > a.claimedEpoch.value))
  }

  /** What no step takes back. */
  predicate Evolves(a: Runtime, b: Runtime) {
    && a.now <= b.now && a.stateVersion <= b.stateVersion
    && EpochOf(a) <= EpochOf(b)
    && (a.lease.Some? ==> b.lease.Some?)
    && (a.lease.Some? && EpochOf(a) == EpochOf(b) ==>
          b.lease.value.worker == a.lease.value.worker && (a.lease.value.released ==> b.lease.value.released))
    && a.transitions <= b.transitions && a.checkpoints <= b.checkpoints
    && a.routes <= b.routes && a.wakes <= b.wakes
    && |a.schedules| <= |b.schedules|
    && forall i :: 0 <= i < |a.schedules| ==> RowEvolves(a.schedules[i], b.schedules[i])
  }

  // ---- Every step keeps them ----

  /** A step that touches only the lifecycle. */
  predicate OnlyLife(a: Runtime, b: Runtime) {
    && b.now == a.now && b.lease == a.lease && b.checkpoints == a.checkpoints && b.schedules == a.schedules
    && b.wakes == a.wakes && b.stateVersion >= a.stateVersion
  }

  lemma OnlyLifeKeepsRest(a: Runtime, b: Runtime)
    requires Inv(a) && OnlyLife(a, b)
    ensures CheckpointsOk(b) && SchedulesOk(b) && WakesOk(b)
    ensures a.transitions <= b.transitions && a.routes <= b.routes ==> Evolves(a, b)
  {
  }

  /** Either nothing is logged, or exactly the change of status that happened. */
  predicate LogsItsChange(a: Runtime, b: Runtime) {
    || (b.transitions == a.transitions && b.life == a.life && b.stateVersion >= a.stateVersion)
    || (b.transitions == a.transitions + [Transition(a.life, b.life, a.stateVersion + 1)]
        && b.life != a.life && b.stateVersion == a.stateVersion + 1)
  }

  lemma LogKeepsOk(a: Runtime, b: Runtime)
    requires LogOk(a) && LogsItsChange(a, b)
    ensures LogOk(b) && a.transitions <= b.transitions
  {
  }

  predicate IsLifecycleStep(step: Step) {
    || step.ContextProviderAdopted? || step.ResumeStep? || step.PauseStep? || step.ReconcileStep?
    || step.ModelStep? || step.RestrictionStep? || step.PublishStep?
  }

  lemma LifecycleShape(r: Runtime, step: Step)
    requires IsLifecycleStep(step)
    ensures OnlyLife(r, Apply(r, step)) && LogsItsChange(r, Apply(r, step))
    ensures !step.PublishStep? ==>
      && Apply(r, step).routes == r.routes && Apply(r, step).routeChanges == r.routeChanges
      && Apply(r, step).currentRoute == r.currentRoute && Apply(r, step).profileVersion == r.profileVersion
  {
  }

  lemma LifecycleKeepsLife(r: Runtime, step: Step)
    requires LifeOk(r) && IsLifecycleStep(step)
    ensures LifeOk(Apply(r, step))
  {
    if r.flags * POLICY_FLAGS == {} && NoModelRoute !in r.flags && M03Context !in r.flags {
      OnlyEnergyLeft(r.flags);
    }
  }

  lemma OnlyEnergyLeft(flags: set<Flag>)
    requires flags * POLICY_FLAGS == {} && NoModelRoute !in flags && M03Context !in flags
    ensures flags - ENERGY_FLAGS == {}
  {
    forall flag | flag in flags ensures flag in ENERGY_FLAGS {
      assert flag in POLICY_FLAGS ==> flag in flags * POLICY_FLAGS;
      assert flag.OwnerPause? || flag.NoBudget? || flag.Quarantine? || flag.WorldSuspension? ==> flag in POLICY_FLAGS;
    }
  }

  lemma PublishKeepsRoutes(r: Runtime, actor: Actor, expectedProfile: Option<nat>, manifest: nat, available: bool)
    requires RoutesOk(r)
    ensures var b := PublishRoute(r, actor, expectedProfile, manifest, available).after; RoutesOk(b) && r.routes <= b.routes
  {
  }

  lemma LifecycleKeepsInv(r: Runtime, step: Step)
    requires Inv(r) && IsLifecycleStep(step)
    ensures Inv(Apply(r, step)) && Evolves(r, Apply(r, step))
  {
    hide LifeOk, LogOk, CheckpointsOk, SchedulesOk, WakesOk, RoutesOk, Apply, Evolves, OnlyLife, LogsItsChange;
    LifecycleShape(r, step);
    LifecycleKeepsLife(r, step);
    LogKeepsOk(r, Apply(r, step));
    LifecycleRoutes(r, step);
    OnlyLifeKeepsRest(r, Apply(r, step));
    StaysPositive(r, Apply(r, step));
  }

  lemma StaysPositive(a: Runtime, b: Runtime)
    requires OnlyLife(a, b) && a.stateVersion > 0
    ensures b.stateVersion > 0
  {
  }

  lemma LifecycleRoutes(r: Runtime, step: Step)
    requires RoutesOk(r) && IsLifecycleStep(step)
    ensures RoutesOk(Apply(r, step)) && r.routes <= Apply(r, step).routes
  {
    LifecycleShape(r, step);
    if step.PublishStep? {
      PublishKeepsRoutes(r, step.actor, step.expectedProfile, step.manifest, step.available);
    } else {
      hide Apply;
    }
  }

  predicate IsLeaseStep(step: Step) {
    step.Elapse? || step.Acquire? || step.Renew? || step.Yield? || step.Save?
  }

  /** A step on the clock, the lease or the checkpoints. */
  predicate OnlyLease(a: Runtime, b: Runtime) {
    && b.life == a.life && b.execution == a.execution && b.model == a.model && b.flags == a.flags
    && b.transitions == a.transitions && b.routes == a.routes && b.currentRoute == a.currentRoute
    && b.profileVersion == a.profileVersion && b.routeChanges == a.routeChanges
    && b.schedules == a.schedules && b.wakes == a.wakes
    && a.now <= b.now && a.stateVersion <= b.stateVersion
    && EpochOf(a) <= EpochOf(b) && (a.lease.Some? ==> b.lease.Some?)
    && (a.lease.Some? && EpochOf(a) == EpochOf(b) ==>
          b.lease.value.worker == a.lease.value.worker && (a.lease.value.released ==> b.lease.value.released))
    && (b.checkpoints == a.checkpoints
        || (b.checkpoints == a.checkpoints + [Checkpoint(EpochOf(a), a.stateVersion + 1)] && EpochOf(a) > 0
            && b.stateVersion == a.stateVersion + 1 && EpochOf(b) == EpochOf(a)))
  }

  lemma LeaseShape(r: Runtime, step: Step)
    requires IsLeaseStep(step)
    ensures OnlyLease(r, Apply(r, step))
  {
  }

  lemma LeaseKeepsInv(r: Runtime, step: Step)
    requires Inv(r) && IsLeaseStep(step)
    ensures Inv(Apply(r, step)) && Evolves(r, Apply(r, step))
  {
    hide Apply;
    LeaseShape(r, step);
  }

  lemma AddKeepsInv(r: Runtime, actor: Actor, terms: Terms, dedupeKey: string)
    requires Inv(r)
    ensures var b := AddSchedule(r, actor, terms, dedupeKey).after; Inv(b) && Evolves(r, b)
  {
    hide LifeOk, LogOk, CheckpointsOk, RoutesOk;
    var b := AddSchedule(r, actor, terms, dedupeKey).after;
    if b != r {
      SameButSchedules(r, b);
      hide FindSchedule;
    }
  }

  /** What a step that only adds or rewrites schedules keeps without looking at them. */
  lemma SameButSchedules(a: Runtime, b: Runtime)
    requires b == a.(schedules := b.schedules, stateVersion := a.stateVersion + 1)
    requires LifeOk(a) && LogOk(a) && CheckpointsOk(a) && RoutesOk(a)
    ensures LifeOk(b) && LogOk(b) && CheckpointsOk(b) && RoutesOk(b)
  {
  }

  lemma CompleteKeepsInv(r: Runtime, actor: Actor, action: nat, claimant: Claimant, completed: bool)
    requires Inv(r)
    ensures var b := CompleteAction(r, actor, action, claimant, completed).after; Inv(b) && Evolves(r, b)
  {
    hide Inv, Evolves;
    EvolvesReflexive(r);
    if CompleteAction(r, actor, action, claimant, completed).reply.Ok? {
      RowOk(r, action);
      RowKeepsInv(r, action, r.schedules[action].(status := if completed then Completed else BlockedOut));
    }
  }

  /** One row rewritten, and the rest of the runtime kept or bumped. */
  lemma RowKeepsInv(r: Runtime, action: nat, row: Schedule)
    requires Inv(r) && action < |r.schedules| && !Finished(r.schedules[action])
    requires RowEvolves(r.schedules[action], row) && ScheduleOk(r, row)
    ensures var b := Bump(SetSchedule(r, action, row)); Inv(b) && Evolves(r, b)
  {
  }

  lemma EvolvesTransitive(a: Runtime, b: Runtime, c: Runtime)
    requires Evolves(a, b) && Evolves(b, c)
    ensures Evolves(a, c)
  {
    forall i | 0 <= i < |a.schedules| ensures RowEvolves(a.schedules[i], c.schedules[i]) {
      assert RowEvolves(a.schedules[i], b.schedules[i]) && RowEvolves(b.schedules[i], c.schedules[i]);
    }
  }

  lemma ReconcileKeepsInv(r: Runtime, around: Around, claimant: Option<Claimant>)
    requires Inv(r)
    ensures var tx := Reconcile(r, around, claimant);
      && Inv(tx.after) && Evolves(r, tx.after) && OnlyLife(r, tx.after)
      && (tx.reply.Ok? && tx.reply.value.Some? && claimant.Some? ==> Holds(r, claimant.value.worker, claimant.value.epoch))
  {
    var b := Reconcile(r, around, claimant).after;
    OnlyLifeKeepsRest(r, b);
    LogKeepsOk(r, b);
    hide CheckpointsOk, SchedulesOk, WakesOk, Evolves, LogOk;
  }

  /** After a reconciliation that sent the runtime dormant: one row closed, and the claimant's lease released. */
  lemma BlockedClaimKeepsInv(r: Runtime, action: nat, row: Schedule)
    requires Inv(r) && action < |r.schedules| && r.lease.Some?
    requires RowEvolves(r.schedules[action], row) && ScheduleOk(r, row)
    requires Finished(r.schedules[action]) ==> row == r.schedules[action]
    ensures var b := EndClaimantLease(SetSchedule(r, action, row)); Inv(b) && Evolves(r, b)
  {
  }

  lemma ClaimTurnKeepsInv(r: Runtime, action: nat, claimant: Claimant, around: Around)
    requires Inv(r) && action < |r.schedules| && r.schedules[action].terms.kind == AutonomousTurn && claimant.epoch > 0
    ensures var b := ClaimTurn(r, action, claimant, around).after; Inv(b) && Evolves(r, b)
  {
    hide Inv, Evolves, CanTakeTurn;
    var tx := ClaimTurn(r, action, claimant, around);
    EvolvesReflexive(r);
    if tx.reply.Ok? {
      RowOk(r, action);
      RowKeepsInv(r, action, tx.after.schedules[action]);
    }
  }

  lemma RowOk(r: Runtime, action: nat)
    requires Inv(r) && action < |r.schedules|
    ensures ScheduleOk(r, r.schedules[action])
  {
  }

  lemma RecoverKeepsInv(r: Runtime, action: nat, claimant: Claimant, around: Around)
    requires Inv(r) && action < |r.schedules|
    ensures var b := Recover(r, action, claimant, around).after; Inv(b) && Evolves(r, b)
  {
    hide Inv, Evolves, CanTakeTurn, Reconcile;
    var tx := Recover(r, action, claimant, around);
    EvolvesReflexive(r);
    if tx.reply.Ok? {
      RowOk(r, action);
      ReconcileKeepsInv(r, around, Some(claimant));
      var reconciled := Reconcile(r, around, Some(claimant));
      var row := r.schedules[action];
      if reconciled.reply.value.Some? {
        ClosedRowEvolves(row, row.(status := BlockedOut));
        BlockedClaimKeepsInv(reconciled.after, action, row.(status := BlockedOut));
        EvolvesTransitive(r, reconciled.after, tx.after);
      } else {
        ClosedRowEvolves(row, row.(claimedBy := Some(claimant.worker), claimedEpoch := Some(claimant.epoch)));
        RowKeepsInv(r, action, row.(claimedBy := Some(claimant.worker), claimedEpoch := Some(claimant.epoch)));
      }
    }
  }

  lemma ClosedRowEvolves(a: Schedule, b: Schedule)
    requires !Finished(a) && b.terms == a.terms && b.dedupeKey == a.dedupeKey
    requires Finished(b) || a.status != Claimed
      || (b.status == Claimed && a.claimedEpoch.Some? && b.claimedEpoch.Some? && b.claimedEpoch.value > a.claimedEpoch.value)
    ensures RowEvolves(a, b)
  {
  }

  lemma ClaimKeepsInv(r: Runtime, actor: Actor, action: nat, claimant: Claimant, around: Around)
    requires Inv(r)
    ensures var b := ClaimAutonomous(r, actor, action, claimant, around).after; Inv(b) && Evolves(r, b)
  {
    hide Inv, Evolves, ClaimTurn, Recover, Reconcile, RowEvolves;
    var tx := ClaimAutonomous(r, actor, action, claimant, around);
    EvolvesReflexive(r);
    if tx.reply.Ok? {
      var row := r.schedules[action];
      ClaimTurnKeepsInv(r, action, claimant, around);
      RecoverKeepsInv(r, action, claimant, around);
      ReconcileKeepsInv(r, around, Some(claimant));
      var reconciled := Reconcile(r, around, Some(claimant));
      if row.status != Claimed && reconciled.reply.value.Some? {
        var blocked := tx.after.schedules[action];
        if row.status == Scheduled {
          ClosedRowEvolves(row, blocked);
        } else {
          RowEvolvesReflexive(row);
          RowOk(reconciled.after, action);
        }
        BlockedClaimKeepsInv(reconciled.after, action, blocked);
        EvolvesTransitive(r, reconciled.after, tx.after);
      }
    } else {
      RefusedClaimChangesNothing(r, actor, action, claimant, around);
    }
  }

  lemma RefusedClaimChangesNothing(r: Runtime, actor: Actor, action: nat, claimant: Claimant, around: Around)
    requires ClaimAutonomous(r, actor, action, claimant, around).reply.Err?
    ensures ClaimAutonomous(r, actor, action, claimant, around).after == r
  {
    hide Reconcile, CanTakeTurn;
  }

  lemma RowEvolvesReflexive(row: Schedule)
    ensures RowEvolves(row, row)
  {
  }

  lemma WakeKeepsInv(r: Runtime, actor: Actor, action: nat, worker: string, around: Around)
    requires Inv(r)
    ensures var b := RunDueWake(r, actor, action, worker, around).after; Inv(b) && Evolves(r, b)
  {
    hide Inv, Evolves, Resume, MarkWakeBlocked, FinishWake;
    var tx := RunDueWake(r, actor, action, worker, around);
    EvolvesReflexive(r);
    if tx.reply.Ok? {
      var row := r.schedules[action];
      var resumed := Resume(r, SystemActor, around);
      if Overdue(r, row.terms) {
        BumpKeepsInv(r);
        FinishWakeKeepsInv(r, Bump(r), action, worker, Missed, WakeMissed);
      } else if resumed.reply.Ok? {
        ResumedKeepsInv(r, around);
        FinishWakeKeepsInv(r, resumed.after, action, worker, Completed, WakeCompleted);
      } else {
        MarkedKeepsInv(r, around);
        FinishWakeKeepsInv(r, MarkWakeBlocked(r, resumed.reply.error), action, worker, BlockedOut, WakeBlocked);
      }
    }
  }

  lemma BumpKeepsInv(r: Runtime)
    requires Inv(r)
    ensures Inv(Bump(r)) && Evolves(r, Bump(r))
  {
  }

  lemma ResumedKeepsInv(r: Runtime, around: Around)
    requires Inv(r)
    ensures var b := Resume(r, SystemActor, around).after;
      Inv(b) && Evolves(r, b) && b.schedules == r.schedules && b.wakes == r.wakes
  {
    hide Inv, Evolves;
    LifecycleKeepsInv(r, ResumeStep(SystemActor, around));
  }

  lemma MarkedKeepsInv(r: Runtime, around: Around)
    requires Inv(r) && Resume(r, SystemActor, around).reply.Err?
    ensures var b := MarkWakeBlocked(r, Resume(r, SystemActor, around).reply.error);
      Inv(b) && Evolves(r, b) && b.schedules == r.schedules && b.wakes == r.wakes
  {
    NotActiveWhenRefused(r, around);
    hide Resume;
    var b := MarkWakeBlocked(r, Resume(r, SystemActor, around).reply.error);
    OnlyLifeKeepsRest(r, b);
    LogKeepsOk(r, b);
    hide LogOk, CheckpointsOk, SchedulesOk, WakesOk, RowEvolves;
  }

  /** An active runtime is only ever refused for its identity, which sets no flag. */
  lemma NotActiveWhenRefused(r: Runtime, around: Around)
    requires Inv(r)
    ensures Resume(r, SystemActor, around).reply.Err? && r.life == Active ==>
      Resume(r, SystemActor, around).reply.error == IdentityNotActive
  {
  }

  lemma FinishWakeKeepsInv(r: Runtime, b: Runtime, action: nat, worker: string, status: ScheduleStatus, outcome: WakeOutcome)
    requires Inv(b) && Evolves(r, b) && action < |r.schedules| && b.schedules == r.schedules && b.wakes == r.wakes
    requires r.schedules[action].status == Scheduled && r.schedules[action].terms.kind == Wake
    requires status in {Completed, BlockedOut, Missed}
    ensures var c := FinishWake(b, action, worker, status, outcome); Inv(c) && Evolves(r, c)
  {
    var c := FinishWake(b, action, worker, status, outcome);
    forall i | 0 <= i < |b.wakes| ensures b.wakes[i].action != action {
      assert Finished(b.schedules[b.wakes[i].action]);
    }
    assert Evolves(b, c);
    EvolvesTransitive(r, b, c);
  }

  lemma StepKeepsInv(r: Runtime, step: Step)
    requires Inv(r)
    ensures Inv(Apply(r, step)) && Evolves(r, Apply(r, step))
  {
    hide Inv, Evolves, AddSchedule, ClaimAutonomous, CompleteAction, RunDueWake;
    match step
    case AddStep(actor, terms, dedupeKey) => AddKeepsInv(r, actor, terms, dedupeKey);
    case ClaimStep(actor, action, claimant, around) => ClaimKeepsInv(r, actor, action, claimant, around);
    case CompleteStep(actor, action, claimant, completed) => CompleteKeepsInv(r, actor, action, claimant, completed);
    case WakeStep(actor, action, worker, around) => WakeKeepsInv(r, actor, action, worker, around);
    case Elapse(_) => LeaseKeepsInv(r, step);
    case Acquire(_, _) => LeaseKeepsInv(r, step);
    case Renew(_, _, _) => LeaseKeepsInv(r, step);
    case Yield(_, _) => LeaseKeepsInv(r, step);
    case Save(_, _, _) => LeaseKeepsInv(r, step);
    case _ => LifecycleKeepsInv(r, step);
  }

  lemma {:induction false} RunKeepsInv(r: Runtime, steps: seq<Step>)
    requires Inv(r)
    ensures Inv(Run(r, steps)) && Evolves(r, Run(r, steps))
  {
    hide Inv, Evolves, Apply;
    if steps == [] {
      EvolvesReflexive(r);
    } else {
      var before := Run(r, steps[..|steps| - 1]);
      RunKeepsInv(r, steps[..|steps| - 1]);
      StepKeepsInv(before, steps[|steps| - 1]);
      EvolvesTransitive(r, before, Run(r, steps));
    }
  }

  lemma EvolvesReflexive(r: Runtime)
    ensures Evolves(r, r)
  {
  }

  // ---- Main results ----

  ghost predicate Reachable(r: Runtime) {
    exists steps: seq<Step> :: r == Run(REGISTERED, steps)
  }

  lemma ReachableIsOk(r: Runtime)
    requires Reachable(r)
    ensures Inv(r)
  {
    var steps: seq<Step> :| r == Run(REGISTERED, steps);
    RunKeepsInv(REGISTERED, steps);
  }

  /** ACTIVE exactly when nothing blocks, and a log that chains to the current status. */
  lemma LifecycleIsConsistent(r: Runtime)
    requires Reachable(r)
    ensures r.life == Active ==> r.model == Available && r.execution == Idle && r.flags == {} && r.currentRoute.Some?
    ensures r.life != Active ==> r.execution == Blocked
    ensures LogOk(r) && RoutesOk(r)
  {
    var steps: seq<Step> :| r == Run(REGISTERED, steps);
    RunKeepsInv(REGISTERED, steps);
    NeverRunning(REGISTERED, steps);
    hide LogOk, CheckpointsOk, SchedulesOk, WakesOk, Run;
  }

  predicate IdleOrBlocked(r: Runtime) {
    r.execution in {Idle, Blocked}
  }

  /** No service ever sets an execution status besides IDLE and BLOCKED. */
  lemma {:induction false} NeverRunning(r: Runtime, steps: seq<Step>)
    requires IdleOrBlocked(r)
    ensures IdleOrBlocked(Run(r, steps))
  {
    if steps == [] {
    } else {
      NeverRunning(r, steps[..|steps| - 1]);
      StepNeverRuns(Run(r, steps[..|steps| - 1]), steps[|steps| - 1]);
    }
  }

  lemma StepNeverRuns(r: Runtime, step: Step)
    requires IdleOrBlocked(r)
    ensures IdleOrBlocked(Apply(r, step))
  {
    hide CanTakeTurn, FindSchedule;
  }

  /** `resumeRuntime`, alone or from a due wake, is the only way into ACTIVE, and needs everything in order. */
  lemma OnlyResumeActivates(r: Runtime, step: Step)
    requires r.life != Active && Apply(r, step).life == Active
    ensures step.ResumeStep? || step.WakeStep?
    ensures var around := step.around;
      && around.identityActive && around.routeAvailable && around.charge.None?
      && r.flags * POLICY_FLAGS == {} && M03Context !in r.flags && NoModelRoute !in r.flags && r.model == Available
  {
    hide CanTakeTurn, FindSchedule, Overdue;
  }

  // ---- Leases ----

  function CountAcquired(r: Runtime, steps: seq<Step>): nat {
    if steps == [] then 0
    else
      var before, last := Run(r, steps[..|steps| - 1]), steps[|steps| - 1];
      CountAcquired(r, steps[..|steps| - 1])
        + if last.Acquire? && AcquireLease(before, last.worker, last.ttlMs).reply.Ok? then 1 else 0
  }

  lemma OneStepEpoch(r: Runtime, step: Step)
    ensures EpochOf(Apply(r, step)) == EpochOf(r)
      + if step.Acquire? && AcquireLease(r, step.worker, step.ttlMs).reply.Ok? then 1 else 0
  {
    if IsLifecycleStep(step) {
      LifecycleShape(r, step);
    } else if IsLeaseStep(step) {
      LeaseEpoch(r, step);
    } else {
      ScheduleEpoch(r, step);
    }
    hide Apply, AcquireLease;
  }

  lemma LeaseEpoch(r: Runtime, step: Step)
    requires IsLeaseStep(step)
    ensures EpochOf(Apply(r, step)) == EpochOf(r)
      + if step.Acquire? && AcquireLease(r, step.worker, step.ttlMs).reply.Ok? then 1 else 0
  {
  }

  lemma ScheduleEpoch(r: Runtime, step: Step)
    requires step.AddStep? || step.ClaimStep? || step.CompleteStep? || step.WakeStep?
    ensures EpochOf(Apply(r, step)) == EpochOf(r)
  {
    hide CanTakeTurn, FindSchedule, Overdue, Unfunded, Activate;
    if step.WakeStep? {
      KeepsLease(r, step.around);
    }
  }

  lemma KeepsLease(r: Runtime, around: Around)
    ensures Activate(r, around).after.lease == r.lease
  {
  }

  /** The epoch counts the acquisitions: each raises it by exactly one, and nothing else moves it. */
  lemma {:induction false} EpochsCountAcquisitions(steps: seq<Step>)
    ensures EpochOf(Run(REGISTERED, steps)) == CountAcquired(REGISTERED, steps)
  {
    if steps == [] {
    } else {
      hide Apply, AcquireLease;
      EpochsCountAcquisitions(steps[..|steps| - 1]);
      OneStepEpoch(Run(REGISTERED, steps[..|steps| - 1]), steps[|steps| - 1]);
    }
  }

  /** At any two moments of a run an epoch stands for one worker, and a later holder has no smaller epoch. */
  lemma EpochNamesOneWorker(r: Runtime, steps: seq<Step>, worker: string, epoch: nat, other: string, otherEpoch: nat)
    requires Inv(r) && Holds(r, worker, epoch) && Holds(Run(r, steps), other, otherEpoch)
    ensures epoch <= otherEpoch && (epoch == otherEpoch ==> worker == other)
  {
    RunKeepsInv(r, steps);
    hide Run, Inv;
  }

  /** Once a newer lease was acquired, nothing done with the old epoch ever passes again. */
  lemma StaleHoldersAreFenced(r: Runtime, steps: seq<Step>, claimant: Claimant, ttlMs: nat, version: nat, action: nat,
                              completed: bool, around: Around)
    requires Inv(r) && claimant.epoch < EpochOf(r)
    ensures var later := Run(r, steps);
      && RenewLease(later, claimant.worker, claimant.epoch, ttlMs).reply.Err?
      && ReleaseLease(later, claimant.worker, claimant.epoch).reply.Err?
      && SaveCheckpoint(later, claimant.worker, claimant.epoch, version).reply.Err?
      && CompleteAction(later, SystemActor, action, claimant, completed).reply.Err?
      && ClaimAutonomous(later, SystemActor, action, claimant, around).reply.Err?
  {
    RunKeepsInv(r, steps);
    var later := Run(r, steps);
    assert EpochOf(r) <= EpochOf(later);
    hide Run, Inv, Evolves, CanTakeTurn;
    if action < |later.schedules| && Reconcile(later, around, Some(claimant)).reply.Ok? {
      assert Reconcile(later, around, Some(claimant)).reply.value.None?;
    }
  }

  /** Checkpoint versions are distinct and rise, with epochs that never fall. */
  lemma CheckpointsAreOrdered(r: Runtime, i: nat, j: nat)
    requires Reachable(r) && i < j < |r.checkpoints|
    ensures r.checkpoints[i].stateVersion < r.checkpoints[j].stateVersion
    ensures r.checkpoints[i].epoch <= r.checkpoints[j].epoch <= EpochOf(r)
  {
    ReachableIsOk(r);
    hide LifeOk, LogOk, SchedulesOk, WakesOk, RoutesOk;
  }

  // ---- Schedules ----

  /** A finished action stays as it was finished; a claim is only ever replaced by one of a higher epoch. */
  lemma ActionsFinishOnce(r: Runtime, steps: seq<Step>, action: nat)
    requires Inv(r) && action < |r.schedules|
    ensures var row, later := r.schedules[action], Run(r, steps);
      && action < |later.schedules|
      && (Finished(row) ==> later.schedules[action] == row)
      && (row.status == Claimed && later.schedules[action].status == Claimed ==>
            || later.schedules[action] == row
            || (row.claimedEpoch.Some? && later.schedules[action].claimedEpoch.Some?
                && later.schedules[action].claimedEpoch.value > row.claimedEpoch.value))
      && (row.status == Claimed ==> later.schedules[action].status != Scheduled)
  {
    RunKeepsInv(r, steps);
    hide Run, Inv;
    assert RowEvolves(r.schedules[action], Run(r, steps).schedules[action]);
  }

  /** A claim ends only by its own claimer holding the current lease, or by a newer holder of it. */
  lemma ClaimsEndByTheHolder(r: Runtime, step: Step, action: nat)
    requires Inv(r) && action < |r.schedules| && r.schedules[action].status == Claimed
    requires action < |Apply(r, step).schedules| && Apply(r, step).schedules[action] != r.schedules[action]
    ensures (step.CompleteStep? || step.ClaimStep?) && step.action == action
    ensures Holds(r, step.claimant.worker, step.claimant.epoch)
    ensures step.CompleteStep? ==>
      r.schedules[action].claimedBy == Some(step.claimant.worker) && r.schedules[action].claimedEpoch == Some(step.claimant.epoch)
    ensures step.ClaimStep? ==>
      r.schedules[action].claimedEpoch.Some? && step.claimant.epoch > r.schedules[action].claimedEpoch.value
  {
    hide Inv, Apply;
    RowOk(r, action);
    OtherStepsKeepClaims(r, step, action);
    match step {
      case CompleteStep(actor, other, claimant, completed) => CompletionEnds(r, actor, other, claimant, completed, action);
      case ClaimStep(actor, other, claimant, around) => TakeoverEnds(r, actor, other, claimant, around, action);
      case _ =>
    }
  }

  lemma OtherStepsKeepClaims(r: Runtime, step: Step, action: nat)
    requires action < |r.schedules| && r.schedules[action].status == Claimed
    ensures action < |Apply(r, step).schedules|
    ensures !step.CompleteStep? && !step.ClaimStep? ==> Apply(r, step).schedules[action] == r.schedules[action]
  {
    hide CanTakeTurn, FindSchedule, Activate, ClaimAutonomous, CompleteAction;
    ClaimKeepsLength(r, step);
    forall around ensures Activate(r, around).after.schedules == r.schedules { KeepsSchedules(r, around); }
  }

  lemma ClaimKeepsLength(r: Runtime, step: Step)
    ensures step.ClaimStep? ==> |Apply(r, step).schedules| == |r.schedules|
    ensures step.CompleteStep? ==> |Apply(r, step).schedules| == |r.schedules|
  {
    hide CanTakeTurn, Unfunded, Overdue;
  }

  lemma CompletionEnds(r: Runtime, actor: Actor, other: nat, claimant: Claimant, completed: bool, action: nat)
    requires action < |r.schedules| && r.schedules[action].status == Claimed
    requires var b := Apply(r, CompleteStep(actor, other, claimant, completed));
      action < |b.schedules| && b.schedules[action] != r.schedules[action]
    ensures other == action && Holds(r, claimant.worker, claimant.epoch)
    ensures r.schedules[action].claimedBy == Some(claimant.worker) && r.schedules[action].claimedEpoch == Some(claimant.epoch)
  {
  }

  lemma TakeoverEnds(r: Runtime, actor: Actor, other: nat, claimant: Claimant, around: Around, action: nat)
    requires action < |r.schedules| && r.schedules[action].status == Claimed
    requires var b := Apply(r, ClaimStep(actor, other, claimant, around));
      action < |b.schedules| && b.schedules[action] != r.schedules[action]
    ensures other == action && Holds(r, claimant.worker, claimant.epoch)
    ensures r.schedules[action].claimedEpoch.Some? && claimant.epoch > r.schedules[action].claimedEpoch.value
  {
    hide CanTakeTurn, Unfunded, Overdue;
  }

  lemma KeepsSchedules(r: Runtime, around: Around)
    ensures Activate(r, around).after.schedules == r.schedules
  {
  }

  /** A turn is granted, or taken over, only for an active runtime that nothing restricts. */
  lemma TurnsNeedAReadyRuntime(r: Runtime, actor: Actor, action: nat, claimant: Claimant, around: Around)
    requires Inv(r)
    requires ClaimAutonomous(r, actor, action, claimant, around).reply in {Ok(ClaimGranted), Ok(ClaimTakenOver)}
    ensures actor == SystemActor && Holds(r, claimant.worker, claimant.epoch)
    ensures r.life == Active && r.model == Available && r.flags == {}
    ensures around.identityActive && around.routeAvailable && around.availableEnergy > 0
    ensures around.feePaid || around.charge.None?
  {
    hide LogOk, CheckpointsOk, SchedulesOk, WakesOk, RoutesOk;
  }

  /** Every wake schedule is run at most once, and leaves one piece of evidence when it is. */
  lemma WakesRunOnce(r: Runtime, i: nat, j: nat)
    requires Reachable(r) && i < |r.wakes| && j < |r.wakes| && r.wakes[i].action == r.wakes[j].action
    ensures i == j && r.wakes[i].action < |r.schedules| && Finished(r.schedules[r.wakes[i].action])
  {
    ReachableIsOk(r);
    hide LifeOk, LogOk, SchedulesOk, CheckpointsOk, RoutesOk;
  }
}
