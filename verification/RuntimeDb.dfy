/**
 One agent's runtime rows as mutable state, and the service transactions that update them, each
 proved against its function in `Runtime`. A throw rolls the transaction back.
 */
module RuntimeDb {
  import opened Wrappers
  import opened R = Runtime

  class AgentRuntime {
    var now: nat
    var life: LifeStatus
    var execution: ExecutionStatus
    var model: ModelStatus
    var flags: set<Flag>
    var stateVersion: nat
    var transitions: seq<Transition>
    var lease: Option<Lease>
    var checkpoints: seq<Checkpoint>
    var routes: seq<nat>
    var currentRoute: Option<nat>
    var profileVersion: nat
    var routeChanges: seq<RouteChange>
    var schedules: seq<Schedule>
    var wakes: seq<WakeEvidence>

    ghost function State(): R.Runtime
      reads this
    {
      R.Runtime(now, life, execution, model, flags, stateVersion, transitions, lease, checkpoints, routes, currentRoute,
                profileVersion, routeChanges, schedules, wakes)
    }

    /** `registerAgentRuntime` */
    constructor ()
      ensures State() == REGISTERED
    {
      now, life, execution, model, flags := 0, Registered, Blocked, TemporarilyUnavailable, {M03Context, NoModelRoute};
      stateVersion, transitions, lease, checkpoints := 1, [], None, [];
      routes, currentRoute, profileVersion, routeChanges, schedules, wakes := [], None, 1, [], [], [];
    }

    method BumpState()
      modifies this`stateVersion
      ensures State() == Bump(old(State()))
    {
      stateVersion := stateVersion + 1;
    }

    /** The lifecycle update with its transition row. */
    method EnterLife(next: LifeStatus, nextExecution: ExecutionStatus, nextFlags: set<Flag>)
      modifies this`life, this`execution, this`flags, this`stateVersion, this`transitions
      ensures State() == Enter(old(State()), next, nextExecution, nextFlags)
    {
      var from := life;
      life, execution, flags := next, nextExecution, nextFlags;
      stateVersion := stateVersion + 1;
      transitions := transitions + [Transition(from, next, stateVersion)];
    }

    predicate HoldsLease(worker: string, epoch: nat)
      reads this
      ensures HoldsLease(worker, epoch) == Holds(State(), worker, epoch)
    {
      lease.Some? && lease.value.worker == worker && lease.value.epoch == epoch
      && !lease.value.released && lease.value.expiresAt > now
    }

    predicate IsQuiescent()
      reads this
      ensures IsQuiescent() == Quiescent(State())
    {
      execution != Running && !(lease.Some? && !lease.value.released && lease.value.expiresAt > now)
    }

    // ---- runtime.js ----

    method AcquireRuntimeLease(worker: string, ttlMs: nat) returns (reply: Result<nat, RuntimeProblem>)
      modifies this`lease
      ensures Tx(State(), reply) == AcquireLease(old(State()), worker, ttlMs)
    {
      if worker == "" || ttlMs < 5_000 || ttlMs > 3_600_000 {
        return Err(InvalidRuntimeInput);
      }
      var epoch: nat := 1;
      if lease.Some? {
        var current := lease.value;
        if !current.released && current.expiresAt > now {
          return Err(LeaseHeld);
        }
        epoch := current.epoch + 1;
      }
      lease := Some(Lease(worker, epoch, now + ttlMs, false));
      return Ok(epoch);
    }

    method RenewRuntimeLease(worker: string, epoch: nat, ttlMs: nat) returns (reply: Result<nat, RuntimeProblem>)
      modifies this`lease
      ensures Tx(State(), reply) == RenewLease(old(State()), worker, epoch, ttlMs)
    {
      if worker == "" || ttlMs < 5_000 || ttlMs > 3_600_000 || epoch == 0 {
        return Err(InvalidRuntimeInput);
      }
      if !HoldsLease(worker, epoch) {
        return Err(StaleRuntimeLease);
      }
      lease := Some(lease.value.(expiresAt := now + ttlMs));
      return Ok(epoch);
    }

    method ReleaseRuntimeLease(worker: string, epoch: nat) returns (reply: Result<nat, RuntimeProblem>)
      modifies this`lease
      ensures Tx(State(), reply) == ReleaseLease(old(State()), worker, epoch)
    {
      if worker == "" || epoch == 0 {
        return Err(InvalidRuntimeInput);
      }
      if lease.None? || lease.value.worker != worker || lease.value.epoch != epoch || lease.value.released {
        return Err(StaleRuntimeLease);
      }
      lease := Some(lease.value.(released := true));
      return Ok(epoch);
    }

    method SaveRuntimeCheckpoint(worker: string, epoch: nat, expectedVersion: nat)
      returns (reply: Result<nat, RuntimeProblem>)
      modifies this`checkpoints, this`stateVersion
      ensures Tx(State(), reply) == SaveCheckpoint(old(State()), worker, epoch, expectedVersion)
    {
      if worker == "" || epoch == 0 || expectedVersion == 0 {
        return Err(InvalidRuntimeInput);
      }
      if !HoldsLease(worker, epoch) {
        return Err(StaleRuntimeLease);
      }
      if stateVersion != expectedVersion {
        return Err(StateVersionConflict);
      }
      var next := expectedVersion + 1;
      checkpoints := checkpoints + [Checkpoint(epoch, next)];
      stateVersion := next;
      return Ok(next);
    }

    method PublishModelRoute(actor: Actor, expectedProfile: Option<nat>, manifest: nat, available: bool)
      returns (reply: Result<nat, RuntimeProblem>)
      modifies this
      ensures Tx(State(), reply) == PublishRoute(old(State()), actor, expectedProfile, manifest, available)
    {
      if actor != SystemActor {
        return Err(Forbidden);
      }
      if expectedProfile.None? {
        if currentRoute.Some? {
          return Err(ExpectedProfileVersionRequired);
        }
      } else if expectedProfile.value != profileVersion {
        return Err(ProfileVersionConflict);
      }
      if execution == Running {
        return Err(RouteSwitchRequiresQuiescence);
      }
      if !available {
        return Err(ModelRouteUnavailable);
      }
      var route := InsertRoute(manifest);
      OpenRoute();
      return Ok(route);
    }

    method InsertRoute(manifest: nat) returns (route: nat)
      modifies this`routes, this`routeChanges, this`currentRoute, this`profileVersion
      ensures route == |old(routes)|
      ensures State() == old(State()).(
        routes := old(routes) + [manifest], routeChanges := old(routeChanges) + [RouteChange(old(currentRoute), route)],
        currentRoute := Some(route), profileVersion := old(profileVersion) + 1)
    {
      route := |routes|;
      routes := routes + [manifest];
      routeChanges := routeChanges + [RouteChange(currentRoute, route)];
      currentRoute := Some(route);
      profileVersion := profileVersion + 1;
    }

    method OpenRoute()
      modifies this`model, this`execution, this`flags, this`stateVersion
      ensures State() == Bump(old(State())).(
        model := Available, execution := if old(life) == Active then Idle else Blocked,
        flags := old(flags) - {NoModelRoute})
    {
      model := Available;
      execution := if life == Active then Idle else Blocked;
      flags := flags - {NoModelRoute};
      stateVersion := stateVersion + 1;
    }

    // ---- runtime_policy.js and runtime_control.js ----

    method ActivateRuntime(around: Around) returns (reply: Result<bool, RuntimeProblem>)
      modifies this
      ensures Tx(State(), reply) == Activate(old(State()), around)
    {
      if !around.identityActive {
        return Err(IdentityNotActive);
      }
      if life == Active {
        return Ok(true);
      }
      if life !in {Registered, Dormant} {
        return Err(InvalidLifecycleTransition);
      }
      if M03Context in flags {
        return Err(M03ContextUnavailable);
      }
      if flags * HARD_FLAGS != {} {
        return Err(RuntimeRestricted);
      }
      if model != Available || NoModelRoute in flags || currentRoute.None? || !around.routeAvailable {
        return Err(ModelRouteUnavailable);
      }
      if !IsQuiescent() {
        return Err(RuntimeNotQuiescent);
      }
      if around.charge.Some? {
        return Err(around.charge.value);
      }
      EnterLife(Active, Idle, flags - ENERGY_FLAGS);
      return Ok(false);
    }

    method ResumeRuntime(actor: Actor, around: Around) returns (reply: Result<bool, RuntimeProblem>)
      modifies this
      ensures Tx(State(), reply) == Resume(old(State()), actor, around)
    {
      if actor == OtherActor {
        return Err(Forbidden);
      }
      if !around.identityActive {
        return Err(IdentityNotActive);
      }
      if flags * POLICY_FLAGS != {} {
        return Err(RuntimeRestricted);
      }
      reply := ActivateRuntime(around);
    }

    method PauseRuntime(actor: Actor, reason: PauseReason) returns (reply: Result<bool, RuntimeProblem>)
      modifies this
      ensures Tx(State(), reply) == Pause(old(State()), actor, reason)
    {
      if actor == OtherActor {
        return Err(Forbidden);
      }
      if life == Dormant {
        return Ok(true);
      }
      if life != Active {
        return Err(InvalidLifecycleTransition);
      }
      if !IsQuiescent() {
        return Err(RuntimeNotQuiescent);
      }
      var next := flags;
      if reason.PauseFor? {
        if reason.flag == OwnerPause && actor != SystemActor {
          return Err(Forbidden);
        }
        if reason.flag !in {OwnerPause, NoBudget, NoActivityEnergy, FeeUnfunded} {
          return Err(InvalidRuntimeInput);
        }
        next := next + {reason.flag};
      }
      EnterLife(Dormant, Blocked, next);
      return Ok(false);
    }

    method ReconcileActiveRuntime(around: Around, claimant: Option<Claimant>)
      returns (reply: Result<Option<Flag>, RuntimeProblem>)
      modifies this`life, this`execution, this`flags, this`stateVersion, this`transitions
      ensures Tx(State(), reply) == Reconcile(old(State()), around, claimant)
    {
      if life != Active {
        return Ok(None);
      }
      var reason: Option<Flag> := None;
      if around.availableEnergy <= 0 {
        reason := Some(NoActivityEnergy);
      } else if !around.feePaid && around.charge.Some? {
        if around.charge.value != DailyFeeUnfunded {
          return Err(around.charge.value);
        }
        reason := Some(FeeUnfunded);
      }
      if reason.None? {
        return Ok(None);
      }
      if execution == Running {
        return Err(RuntimeNotQuiescent);
      }
      if claimant.Some? {
        if !HoldsLease(claimant.value.worker, claimant.value.epoch) {
          return Err(StaleRuntimeLease);
        }
      } else if !IsQuiescent() {
        return Err(RuntimeNotQuiescent);
      }
      EnterLife(Dormant, Blocked, flags + {reason.value});
      return Ok(reason);
    }

    method ChangeModelStatus(actor: Actor, next: ModelStatus) returns (reply: Result<bool, RuntimeProblem>)
      modifies this
      ensures Tx(State(), reply) == SetModelStatus(old(State()), actor, next)
    {
      if actor != SystemActor {
        return Err(Forbidden);
      }
      if model == next {
        return Ok(true);
      }
      if next != Available && life == Active {
        if !IsQuiescent() {
          return Err(RuntimeNotQuiescent);
        }
        EnterLife(Dormant, Blocked, flags);
      } else {
        if next != Available {
          execution := Blocked;
        }
        BumpState();
      }
      model := next;
      return Ok(false);
    }

    method SetRuntimeRestriction(actor: Actor, flag: Flag, enabled: bool) returns (reply: Result<bool, RuntimeProblem>)
      modifies this
      ensures Tx(State(), reply) == SetRestriction(old(State()), actor, flag, enabled)
    {
      if actor != SystemActor {
        return Err(Forbidden);
      }
      if flag !in POLICY_FLAGS {
        return Err(InvalidRuntimeInput);
      }
      if (flag in flags) == enabled {
        return Ok(true);
      }
      if enabled && life == Active {
        if !IsQuiescent() {
          return Err(RuntimeNotQuiescent);
        }
        EnterLife(Dormant, Blocked, flags + {flag});
        return Ok(false);
      }
      flags := if enabled then flags + {flag} else flags - {flag};
      BumpState();
      return Ok(false);
    }

    // ---- Schedules ----

    method UpdateSchedule(action: nat, row: Schedule)
      requires action < |schedules|
      modifies this`schedules
      ensures State() == SetSchedule(old(State()), action, row)
    {
      schedules := schedules[action := row];
    }

    method ScheduleAction(actor: Actor, terms: Terms, dedupeKey: string) returns (reply: Result<nat, RuntimeProblem>)
      modifies this
      ensures Tx(State(), reply) == AddSchedule(old(State()), actor, terms, dedupeKey)
    {
      if actor == OtherActor {
        return Err(Forbidden);
      }
      if (terms.latestRunAt.Some? && terms.latestRunAt.value < terms.dueAt) || dedupeKey == "" {
        return Err(InvalidRuntimeInput);
      }
      var existing := FindSchedule(schedules, dedupeKey);
      if existing.Some? {
        if schedules[existing.value].terms != terms {
          return Err(ScheduleConflict);
        }
        return Ok(existing.value);
      }
      schedules := schedules + [Schedule(terms, dedupeKey, Scheduled, None, None)];
      BumpState();
      return Ok(|schedules| - 1);
    }

    predicate MayTakeTurn(around: Around)
      reads this
      ensures MayTakeTurn(around) == CanTakeTurn(State(), around)
    {
      && around.identityActive && life == Active && execution in {Idle, Runnable}
      && (around.feePaid || around.charge.None?) && around.availableEnergy > 0
      && model == Available && around.routeAvailable && currentRoute.Some? && NoModelRoute !in flags
      && flags * HARD_FLAGS == {} && M03Context !in flags
    }

    method ClaimScheduledAction(action: nat, claimant: Claimant, around: Around)
      returns (reply: Result<ClaimResult, RuntimeProblem>)
      requires action < |schedules|
      modifies this`schedules, this`stateVersion
      ensures Tx(State(), reply) == ClaimTurn(old(State()), action, claimant, around)
    {
      var row := schedules[action];
      if row.status != Scheduled {
        return Err(ScheduledActionNotClaimable);
      }
      if row.terms.dueAt > now {
        return Err(ScheduledActionNotDue);
      }
      if !HoldsLease(claimant.worker, claimant.epoch) {
        return Err(StaleRuntimeLease);
      }
      if row.terms.latestRunAt.Some? && now > row.terms.latestRunAt.value && row.terms.missed == Skip {
        UpdateSchedule(action, row.(status := Missed));
        BumpState();
        return Ok(ClaimMissed);
      }
      if M03Context in flags {
        UpdateSchedule(action, row.(status := BlockedOut));
        BumpState();
        return Ok(ClaimBlocked);
      }
      if !MayTakeTurn(around) {
        return Err(RuntimeIneligible);
      }
      UpdateSchedule(action, row.(
        status := Claimed, claimedBy := Some(claimant.worker), claimedEpoch := Some(claimant.epoch)));
      BumpState();
      return Ok(ClaimGranted);
    }

    method RecoverClaim(action: nat, claimant: Claimant, around: Around) returns (reply: Result<ClaimResult, RuntimeProblem>)
      requires action < |schedules|
      modifies this
      ensures Tx(State(), reply) == Recover(old(State()), action, claimant, around)
    {
      hide CanTakeTurn, Unfunded;
      var row := schedules[action];
      if row.status != Claimed || row.claimedEpoch.None? {
        return Err(ScheduledActionNotClaimable);
      }
      if !HoldsLease(claimant.worker, claimant.epoch) {
        return Err(StaleRuntimeLease);
      }
      if claimant.epoch <= row.claimedEpoch.value {
        return Err(ClaimTakeoverNotNewer);
      }
      var reason :- ReconcileActiveRuntime(around, Some(claimant));
      if reason.Some? {
        UpdateSchedule(action, row.(status := BlockedOut));
        lease := Some(lease.value.(released := true));
        return Ok(ClaimBlocked);
      }
      if !MayTakeTurn(around) || flags * POLICY_FLAGS != {} {
        return Err(RuntimeIneligible);
      }
      UpdateSchedule(action, row.(claimedBy := Some(claimant.worker), claimedEpoch := Some(claimant.epoch)));
      BumpState();
      return Ok(ClaimTakenOver);
    }

    method ClaimAutonomousAction(actor: Actor, action: nat, claimant: Claimant, around: Around)
      returns (reply: Result<ClaimResult, RuntimeProblem>)
      modifies this
      ensures Tx(State(), reply) == ClaimAutonomous(old(State()), actor, action, claimant, around)
    {
      hide CanTakeTurn, Unfunded, Recover, ClaimTurn;
      if actor != SystemActor {
        return Err(Forbidden);
      }
      if action >= |schedules| {
        return Err(ScheduledActionNotFound);
      }
      var row := schedules[action];
      if row.terms.kind != AutonomousTurn {
        return Err(WrongSchedulePath);
      }
      if claimant.worker == "" || claimant.epoch == 0 {
        return Err(InvalidRuntimeInput);
      }
      if row.status == Claimed {
        reply := RecoverClaim(action, claimant, around);
        return;
      }
      var reason :- ReconcileActiveRuntime(around, Some(claimant));
      if reason.None? {
        reply := ClaimScheduledAction(action, claimant, around);
        return;
      }
      if row.status == Scheduled {
        row := row.(status := BlockedOut, claimedBy := Some(claimant.worker), claimedEpoch := Some(claimant.epoch));
      }
      UpdateSchedule(action, row);
      lease := Some(lease.value.(released := true));
      return Ok(ClaimBlocked);
    }

    method CompleteScheduledAction(actor: Actor, action: nat, claimant: Claimant, completed: bool)
      returns (reply: Result<nat, RuntimeProblem>)
      modifies this`schedules, this`stateVersion
      ensures Tx(State(), reply) == CompleteAction(old(State()), actor, action, claimant, completed)
      ensures reply.Ok? ==>
        && actor == SystemActor && action < |old(schedules)| && old(schedules[action].status) == Claimed
        && old(schedules[action].claimedBy) == Some(claimant.worker)
        && old(schedules[action].claimedEpoch) == Some(claimant.epoch)
        && schedules == old(schedules)[action := old(schedules[action]).(status := if completed then Completed else BlockedOut)]
    {
      if actor != SystemActor {
        return Err(Forbidden);
      }
      if action >= |schedules| {
        return Err(ScheduledActionNotFound);
      }
      var row := schedules[action];
      if row.status != Claimed {
        return Err(ScheduledActionNotCompletable);
      }
      if !HoldsLease(claimant.worker, claimant.epoch) {
        return Err(StaleRuntimeLease);
      }
      if row.claimedBy != Some(claimant.worker) || row.claimedEpoch != Some(claimant.epoch) {
        return Err(StaleRuntimeLease);
      }
      UpdateSchedule(action, row.(status := if completed then Completed else BlockedOut));
      BumpState();
      return Ok(action);
    }

    // ---- runtime_scheduler.js ----

    method RunDueWakeAction(actor: Actor, action: nat, worker: string, around: Around)
      returns (reply: Result<WakeOutcome, RuntimeProblem>)
      modifies this
      ensures Tx(State(), reply) == RunDueWake(old(State()), actor, action, worker, around)
    {
      hide Resume, Blockable, WakeFlag;
      if actor != SystemActor {
        return Err(Forbidden);
      }
      if worker == "" {
        return Err(InvalidRuntimeInput);
      }
      if action >= |schedules| {
        return Err(ScheduledActionNotFound);
      }
      var row := schedules[action];
      if row.terms.kind != Wake {
        return Err(WrongSchedulePath);
      }
      if row.status != Scheduled {
        return Err(ScheduledActionNotRunnable);
      }
      if row.terms.dueAt > now {
        return Err(ScheduledActionNotDue);
      }
      if row.terms.latestRunAt.Some? && now > row.terms.latestRunAt.value && row.terms.missed == Skip {
        BumpState();
        EndWake(action, worker, Missed, WakeMissed);
        return Ok(WakeMissed);
      }
      var resumed := ResumeRuntime(SystemActor, around);
      RefusedResume(old(State()), around);
      if resumed.Ok? {
        EndWake(action, worker, Completed, WakeCompleted);
        return Ok(WakeCompleted);
      }
      if !Blockable(resumed.error) {
        return Err(resumed.error);
      }
      var flag := WakeFlag(resumed.error);
      if flag.Some? {
        flags := flags + {flag.value};
      }
      BumpState();
      EndWake(action, worker, BlockedOut, WakeBlocked);
      return Ok(WakeBlocked);
    }

    method EndWake(action: nat, worker: string, status: ScheduleStatus, outcome: WakeOutcome)
      requires action < |schedules|
      modifies this`schedules, this`wakes
      ensures State() == FinishWake(old(State()), action, worker, status, outcome)
    {
      wakes := wakes + [WakeEvidence(action, outcome)];
      schedules := schedules[action := schedules[action].(status := status, claimedBy := Some(worker))];
    }
  }

  lemma RefusedResume(r: R.Runtime, around: Around)
    ensures Resume(r, SystemActor, around).after.schedules == r.schedules
    ensures Resume(r, SystemActor, around).reply.Err? ==> Resume(r, SystemActor, around).after == r
  {
  }
}
