/**
 One agent's runtime: lifecycle with restriction flags, model route, worker lease, checkpoints and
 schedules, and what each transaction of src/services/runtime.js, runtime_control.js,
 runtime_policy.js and runtime_scheduler.js makes of them. Identity, route availability and the
 economy answer from outside.
 */
module Runtime {
  import opened Wrappers

  datatype RuntimeProblem =
    | Forbidden | InvalidRuntimeInput | LeaseHeld | StaleRuntimeLease | StateVersionConflict
    | InvalidLifecycleTransition | M03ContextUnavailable | RuntimeRestricted | ModelRouteUnavailable
    | RuntimeNotQuiescent | IdentityNotActive | DailyFeeUnfunded | FirstActivationMinimumUnfunded
    | NoAvailableEnergy | ScheduledActionNotFound | WrongSchedulePath
    | ScheduledActionNotClaimable | ScheduledActionNotDue | RuntimeIneligible | ClaimTakeoverNotNewer
    | ScheduledActionNotCompletable | ScheduledActionNotRunnable | ScheduleConflict
    | ExpectedProfileVersionRequired | ProfileVersionConflict | RouteSwitchRequiresQuiescence

  datatype LifeStatus = Registered | Active | Dormant | Terminated
  datatype ExecutionStatus = Idle | Runnable | Running | Waiting | Blocked
  datatype ModelStatus = Available | TemporarilyUnavailable | Retired | ContinuityUncertain

  datatype Flag =
    | OwnerPause | NoBudget | Quarantine | WorldSuspension
    | NoModelRoute | M03Context | NoActivityEnergy | FeeUnfunded

  const POLICY_FLAGS: set<Flag> := {OwnerPause, NoBudget, Quarantine, WorldSuspension}
  const HARD_FLAGS: set<Flag> := {OwnerPause, Quarantine, WorldSuspension}
  const ENERGY_FLAGS: set<Flag> := {NoActivityEnergy, FeeUnfunded}

  datatype Transition = Transition(from: LifeStatus, to: LifeStatus, stateVersion: nat)

  datatype Lease = Lease(worker: string, epoch: nat, expiresAt: nat, released: bool)

  datatype Checkpoint = Checkpoint(epoch: nat, stateVersion: nat)

  datatype RouteChange = RouteChange(from: Option<nat>, to: nat)

  datatype ActionKind = Wake | AutonomousTurn
  datatype MissedPolicy = RunOnce | Skip

  datatype Terms = Terms(kind: ActionKind, dueAt: nat, latestRunAt: Option<nat>, missed: MissedPolicy)

  datatype ScheduleStatus = Scheduled | Claimed | Completed | BlockedOut | Missed

  datatype Schedule = Schedule(
    terms: Terms, dedupeKey: string, status: ScheduleStatus, claimedBy: Option<string>, claimedEpoch: Option<nat>)

  datatype WakeOutcome = WakeCompleted | WakeBlocked | WakeMissed

  datatype WakeEvidence = WakeEvidence(action: nat, outcome: WakeOutcome)

  /** `released_at` and `expires_at` are compared with the database clock `now`. */
  datatype Runtime = Runtime(
    now: nat, life: LifeStatus, execution: ExecutionStatus, model: ModelStatus, flags: set<Flag>, stateVersion: nat,
    transitions: seq<Transition>, lease: Option<Lease>, checkpoints: seq<Checkpoint>,
    routes: seq<nat>, currentRoute: Option<nat>, profileVersion: nat, routeChanges: seq<RouteChange>,
    schedules: seq<Schedule>, wakes: seq<WakeEvidence>)

  /** `registerAgentRuntime` with the table's defaults. */
  const REGISTERED := Runtime(
    0, Registered, Blocked, TemporarilyUnavailable, {M03Context, NoModelRoute}, 1, [], None, [], [], None, 1, [], [], [])

  /** What the surrounding services answer inside one transaction. `charge` is how charging the fee fails. */
  datatype Around = Around(
    identityActive: bool, routeAvailable: bool, availableEnergy: int, feePaid: bool, charge: Option<RuntimeProblem>)

  datatype Actor = SystemActor | SubjectActor | OtherActor

  datatype Tx<T> = Tx(after: Runtime, reply: Result<T, RuntimeProblem>)

  function Bump(r: Runtime): Runtime {
    r.(stateVersion := r.stateVersion + 1)
  }

  /** A lifecycle change, with its row in the transition log. */
  function Enter(r: Runtime, life: LifeStatus, execution: ExecutionStatus, flags: set<Flag>): Runtime {
    r.(life := life, execution := execution, flags := flags, stateVersion := r.stateVersion + 1,
       transitions := r.transitions + [Transition(r.life, life, r.stateVersion + 1)])
  }

  // ---- Leases and checkpoints ----

  predicate LeaseActive(r: Runtime) {
    r.lease.Some? && !r.lease.value.released && r.lease.value.expiresAt > r.now
  }

  predicate Holds(r: Runtime, worker: string, epoch: nat) {
    LeaseActive(r) && r.lease.value.worker == worker && r.lease.value.epoch == epoch
  }

  predicate TtlOk(ttlMs: nat) {
    5_000 <= ttlMs <= 3_600_000
  }

  function AcquireLease(r: Runtime, worker: string, ttlMs: nat): Tx<nat> {
    if worker == "" || !TtlOk(ttlMs) then Tx(r, Err(InvalidRuntimeInput))
    else if LeaseActive(r) then Tx(r, Err(LeaseHeld))
    else
      var epoch := if r.lease.Some? then r.lease.value.epoch + 1 else 1;
      Tx(r.(lease := Some(Lease(worker, epoch, r.now + ttlMs, false))), Ok(epoch))
  }

  function RenewLease(r: Runtime, worker: string, epoch: nat, ttlMs: nat): Tx<nat> {
    if worker == "" || !TtlOk(ttlMs) || epoch == 0 then Tx(r, Err(InvalidRuntimeInput))
    else if !Holds(r, worker, epoch) then Tx(r, Err(StaleRuntimeLease))
    else Tx(r.(lease := Some(r.lease.value.(expiresAt := r.now + ttlMs))), Ok(epoch))
  }

  /** An expired lease can still be released by its last holder. */
  function ReleaseLease(r: Runtime, worker: string, epoch: nat): Tx<nat> {
    if worker == "" || epoch == 0 then Tx(r, Err(InvalidRuntimeInput))
    else if r.lease.None? || r.lease.value.worker != worker || r.lease.value.epoch != epoch || r.lease.value.released
      then Tx(r, Err(StaleRuntimeLease))
    else Tx(r.(lease := Some(r.lease.value.(released := true))), Ok(epoch))
  }

  function SaveCheckpoint(r: Runtime, worker: string, epoch: nat, expectedVersion: nat): Tx<nat> {
    if worker == "" || epoch == 0 || expectedVersion == 0 then Tx(r, Err(InvalidRuntimeInput))
    else if !Holds(r, worker, epoch) then Tx(r, Err(StaleRuntimeLease))
    else if r.stateVersion != expectedVersion then Tx(r, Err(StateVersionConflict))
    else Tx(r.(checkpoints := r.checkpoints + [Checkpoint(epoch, expectedVersion + 1)], stateVersion := expectedVersion + 1),
            Ok(expectedVersion + 1))
  }

  // ---- Lifecycle ----

  predicate Quiescent(r: Runtime) {
    r.execution != Running && !LeaseActive(r)
  }

  /** `activateRuntime`; it answers whether the runtime was already active. */
  function Activate(r: Runtime, around: Around): Tx<bool> {
    if !around.identityActive then Tx(r, Err(IdentityNotActive))
    else if r.life == Active then Tx(r, Ok(true))
    else if r.life !in {Registered, Dormant} then Tx(r, Err(InvalidLifecycleTransition))
    else if M03Context in r.flags then Tx(r, Err(M03ContextUnavailable))
    else if r.flags * HARD_FLAGS != {} then Tx(r, Err(RuntimeRestricted))
    else if r.model != Available || NoModelRoute in r.flags || r.currentRoute.None? || !around.routeAvailable
      then Tx(r, Err(ModelRouteUnavailable))
    else if !Quiescent(r) then Tx(r, Err(RuntimeNotQuiescent))
    else if around.charge.Some? then Tx(r, Err(around.charge.value))
    else Tx(Enter(r, Active, Idle, r.flags - ENERGY_FLAGS), Ok(false))
  }

  function Resume(r: Runtime, actor: Actor, around: Around): Tx<bool> {
    if actor == OtherActor then Tx(r, Err(Forbidden))
    else if !around.identityActive then Tx(r, Err(IdentityNotActive))
    else if r.flags * POLICY_FLAGS != {} then Tx(r, Err(RuntimeRestricted))
    else Activate(r, around)
  }

  datatype PauseReason = UserRequest | PauseFor(flag: Flag)

  function Pause(r: Runtime, actor: Actor, reason: PauseReason): Tx<bool> {
    if actor == OtherActor then Tx(r, Err(Forbidden))
    else if r.life == Dormant then Tx(r, Ok(true))
    else if r.life != Active then Tx(r, Err(InvalidLifecycleTransition))
    else if !Quiescent(r) then Tx(r, Err(RuntimeNotQuiescent))
    else
      match reason
      case UserRequest => Tx(Enter(r, Dormant, Blocked, r.flags), Ok(false))
      case PauseFor(flag) =>
        if flag == OwnerPause && actor != SystemActor then Tx(r, Err(Forbidden))
        else if flag !in {OwnerPause, NoBudget, NoActivityEnergy, FeeUnfunded} then Tx(r, Err(InvalidRuntimeInput))
        else Tx(Enter(r, Dormant, Blocked, r.flags + {flag}), Ok(false))
  }

  /** Why an active runtime cannot pay for its day, if it cannot. */
  function Unfunded(around: Around): Option<Flag> {
    if around.availableEnergy <= 0 then Some(NoActivityEnergy)
    else if !around.feePaid && around.charge == Some(DailyFeeUnfunded) then Some(FeeUnfunded)
    else None
  }

  datatype Claimant = Claimant(worker: string, epoch: nat)

  /** `reconcileActiveRuntime`; it answers the flag that sent the runtime dormant. */
  function Reconcile(r: Runtime, around: Around, claimant: Option<Claimant>): Tx<Option<Flag>> {
    if r.life != Active then Tx(r, Ok(None))
    else if around.availableEnergy > 0 && !around.feePaid && around.charge.Some? && around.charge.value != DailyFeeUnfunded
      then Tx(r, Err(around.charge.value))
    else
      var reason := Unfunded(around);
      if reason.None? then Tx(r, Ok(None))
      else if r.execution == Running then Tx(r, Err(RuntimeNotQuiescent))
      else if claimant.Some? && !Holds(r, claimant.value.worker, claimant.value.epoch) then Tx(r, Err(StaleRuntimeLease))
      else if claimant.None? && !Quiescent(r) then Tx(r, Err(RuntimeNotQuiescent))
      else Tx(Enter(r, Dormant, Blocked, r.flags + {reason.value}), Ok(reason))
  }

  function SetModelStatus(r: Runtime, actor: Actor, model: ModelStatus): Tx<bool> {
    if actor != SystemActor then Tx(r, Err(Forbidden))
    else if r.model == model then Tx(r, Ok(true))
    else if model != Available && r.life == Active then
      if !Quiescent(r) then Tx(r, Err(RuntimeNotQuiescent))
      else Tx(Enter(r, Dormant, Blocked, r.flags).(model := model), Ok(false))
    else Tx(Bump(r).(model := model, execution := if model != Available then Blocked else r.execution), Ok(false))
  }

  function SetRestriction(r: Runtime, actor: Actor, flag: Flag, enabled: bool): Tx<bool> {
    if actor != SystemActor then Tx(r, Err(Forbidden))
    else if flag !in POLICY_FLAGS then Tx(r, Err(InvalidRuntimeInput))
    else if (flag in r.flags) == enabled then Tx(r, Ok(true))
    else if enabled && r.life == Active then
      if !Quiescent(r) then Tx(r, Err(RuntimeNotQuiescent))
      else Tx(Enter(r, Dormant, Blocked, r.flags + {flag}), Ok(false))
    else Tx(Bump(r).(flags := if enabled then r.flags + {flag} else r.flags - {flag}), Ok(false))
  }

  /** `publishModelRoute` of a manifest whose gateway route is available. Route ids are positions in `routes`. */
  function PublishRoute(r: Runtime, actor: Actor, expectedProfile: Option<nat>, manifest: nat, available: bool): Tx<nat> {
    if actor != SystemActor then Tx(r, Err(Forbidden))
    else if expectedProfile.None? && r.currentRoute.Some? then Tx(r, Err(ExpectedProfileVersionRequired))
    else if expectedProfile.Some? && expectedProfile.value != r.profileVersion then Tx(r, Err(ProfileVersionConflict))
    else if r.execution == Running then Tx(r, Err(RouteSwitchRequiresQuiescence))
    else if !available then Tx(r, Err(ModelRouteUnavailable))
    else
      var route := |r.routes|;
      Tx(Bump(r).(
           routes := r.routes + [manifest], model := Available,
           execution := if r.life == Active then Idle else Blocked, flags := r.flags - {NoModelRoute},
           routeChanges := r.routeChanges + [RouteChange(r.currentRoute, route)],
           currentRoute := Some(route), profileVersion := r.profileVersion + 1),
         Ok(route))
  }

  // ---- Schedules ----

  function FindSchedule(schedules: seq<Schedule>, dedupeKey: string): (found: Option<nat>)
    ensures found.Some? ==> found.value < |schedules| && schedules[found.value].dedupeKey == dedupeKey
    ensures found.None? ==> forall i :: 0 <= i < |schedules| ==> schedules[i].dedupeKey != dedupeKey
  {
    if schedules == [] then None
    else if schedules[|schedules| - 1].dedupeKey == dedupeKey then Some(|schedules| - 1)
    else FindSchedule(schedules[..|schedules| - 1], dedupeKey)
  }

  function AddSchedule(r: Runtime, actor: Actor, terms: Terms, dedupeKey: string): Tx<nat> {
    if actor == OtherActor then Tx(r, Err(Forbidden))
    else if terms.latestRunAt.Some? && terms.latestRunAt.value < terms.dueAt then Tx(r, Err(InvalidRuntimeInput))
    else if dedupeKey == "" then Tx(r, Err(InvalidRuntimeInput))
    else
      var existing := FindSchedule(r.schedules, dedupeKey);
      if existing.Some? then
        if r.schedules[existing.value].terms != terms then Tx(r, Err(ScheduleConflict)) else Tx(r, Ok(existing.value))
      else Tx(Bump(r).(schedules := r.schedules + [Schedule(terms, dedupeKey, Scheduled, None, None)]), Ok(|r.schedules|))
  }

  function SetSchedule(r: Runtime, action: nat, row: Schedule): Runtime
    requires action < |r.schedules|
  {
    r.(schedules := r.schedules[action := row])
  }

  /** `can_autonomous_turn`, once the day's fee has been looked at in the same transaction. */
  predicate CanTakeTurn(r: Runtime, around: Around) {
    && around.identityActive && r.life == Active && r.execution in {Idle, Runnable}
    && (around.feePaid || around.charge.None?) && around.availableEnergy > 0
    && r.model == Available && around.routeAvailable && r.currentRoute.Some? && NoModelRoute !in r.flags
    && r.flags * HARD_FLAGS == {} && M03Context !in r.flags
  }

  predicate Overdue(r: Runtime, terms: Terms) {
    terms.latestRunAt.Some? && r.now > terms.latestRunAt.value && terms.missed == Skip
  }

  datatype ClaimResult = ClaimGranted | ClaimTakenOver | ClaimMissed | ClaimBlocked

  /** `claimScheduledAction` for an autonomous turn. */
  function ClaimTurn(r: Runtime, action: nat, claimant: Claimant, around: Around): Tx<ClaimResult>
    requires action < |r.schedules|
  {
    var row := r.schedules[action];
    if row.status != Scheduled then Tx(r, Err(ScheduledActionNotClaimable))
    else if row.terms.dueAt > r.now then Tx(r, Err(ScheduledActionNotDue))
    else if !Holds(r, claimant.worker, claimant.epoch) then Tx(r, Err(StaleRuntimeLease))
    else if Overdue(r, row.terms) then Tx(Bump(SetSchedule(r, action, row.(status := Missed))), Ok(ClaimMissed))
    else if M03Context in r.flags then Tx(Bump(SetSchedule(r, action, row.(status := BlockedOut))), Ok(ClaimBlocked))
    else if !CanTakeTurn(r, around) then Tx(r, Err(RuntimeIneligible))
    else
      Tx(Bump(SetSchedule(r, action, row.(
           status := Claimed, claimedBy := Some(claimant.worker), claimedEpoch := Some(claimant.epoch)))),
         Ok(ClaimGranted))
  }

  /** The claimant's own lease ends with a reconciliation that sent the runtime dormant. */
  function EndClaimantLease(r: Runtime): Runtime
    requires r.lease.Some?
  {
    r.(lease := Some(r.lease.value.(released := true)))
  }

  /** `recoverAutonomousScheduledClaim`: only a strictly newer epoch takes a claim over. */
  function Recover(r: Runtime, action: nat, claimant: Claimant, around: Around): Tx<ClaimResult>
    requires action < |r.schedules|
  {
    var row := r.schedules[action];
    if row.status != Claimed || row.claimedEpoch.None? then Tx(r, Err(ScheduledActionNotClaimable))
    else if !Holds(r, claimant.worker, claimant.epoch) then Tx(r, Err(StaleRuntimeLease))
    else if claimant.epoch <= row.claimedEpoch.value then Tx(r, Err(ClaimTakeoverNotNewer))
    else
      var reconciled := Reconcile(r, around, Some(claimant));
      if reconciled.reply.Err? then Tx(r, Err(reconciled.reply.error))
      else if reconciled.reply.value.Some? then
        Tx(EndClaimantLease(SetSchedule(reconciled.after, action, row.(status := BlockedOut))), Ok(ClaimBlocked))
      else if !CanTakeTurn(r, around) || r.flags * POLICY_FLAGS != {} then Tx(r, Err(RuntimeIneligible))
      else
        Tx(Bump(SetSchedule(r, action, row.(claimedBy := Some(claimant.worker), claimedEpoch := Some(claimant.epoch)))),
           Ok(ClaimTakenOver))
  }

  /** `claimAutonomousScheduledAction`, the worker's single entry point. */
  function ClaimAutonomous(r: Runtime, actor: Actor, action: nat, claimant: Claimant, around: Around): Tx<ClaimResult> {
    if actor != SystemActor then Tx(r, Err(Forbidden))
    else if action >= |r.schedules| then Tx(r, Err(ScheduledActionNotFound))
    else if r.schedules[action].terms.kind != AutonomousTurn then Tx(r, Err(WrongSchedulePath))
    else if claimant.worker == "" || claimant.epoch == 0 then Tx(r, Err(InvalidRuntimeInput))
    else if r.schedules[action].status == Claimed then Recover(r, action, claimant, around)
    else
      var reconciled := Reconcile(r, around, Some(claimant));
      if reconciled.reply.Err? then Tx(r, Err(reconciled.reply.error))
      else if reconciled.reply.value.None? then ClaimTurn(r, action, claimant, around)
      else
        var row := r.schedules[action];
        var blocked := if row.status == Scheduled
                       then row.(status := BlockedOut, claimedBy := Some(claimant.worker), claimedEpoch := Some(claimant.epoch))
                       else row;
        Tx(EndClaimantLease(SetSchedule(reconciled.after, action, blocked)), Ok(ClaimBlocked))
  }

  function CompleteAction(r: Runtime, actor: Actor, action: nat, claimant: Claimant, completed: bool): Tx<nat> {
    if actor != SystemActor then Tx(r, Err(Forbidden))
    else if action >= |r.schedules| then Tx(r, Err(ScheduledActionNotFound))
    else
      var row := r.schedules[action];
      if row.status != Claimed then Tx(r, Err(ScheduledActionNotCompletable))
      else if !Holds(r, claimant.worker, claimant.epoch) then Tx(r, Err(StaleRuntimeLease))
      else if row.claimedBy != Some(claimant.worker) || row.claimedEpoch != Some(claimant.epoch)
        then Tx(r, Err(StaleRuntimeLease))
      else Tx(Bump(SetSchedule(r, action, row.(status := if completed then Completed else BlockedOut))), Ok(action))
  }

  /** The error codes that a due wake turns into a BLOCKED schedule. */
  predicate Blockable(problem: RuntimeProblem) {
    problem in {M03ContextUnavailable, RuntimeRestricted, ModelRouteUnavailable, DailyFeeUnfunded,
                FirstActivationMinimumUnfunded, NoAvailableEnergy, IdentityNotActive}
  }

  function WakeFlag(problem: RuntimeProblem): Option<Flag> {
    if problem == DailyFeeUnfunded then Some(FeeUnfunded)
    else if problem in {FirstActivationMinimumUnfunded, NoAvailableEnergy} then Some(NoActivityEnergy)
    else None
  }

  /** `markWakeBlockedState` */
  function MarkWakeBlocked(r: Runtime, problem: RuntimeProblem): Runtime {
    var flag := WakeFlag(problem);
    if flag.None? then Bump(r) else Bump(r).(flags := r.flags + {flag.value})
  }

  function FinishWake(r: Runtime, action: nat, worker: string, status: ScheduleStatus, outcome: WakeOutcome): Runtime
    requires action < |r.schedules|
  {
    SetSchedule(r, action, r.schedules[action].(status := status, claimedBy := Some(worker))).(
      wakes := r.wakes + [WakeEvidence(action, outcome)])
  }

  /** `runDueWakeScheduledAction` */
  function RunDueWake(r: Runtime, actor: Actor, action: nat, worker: string, around: Around): Tx<WakeOutcome> {
    if actor != SystemActor then Tx(r, Err(Forbidden))
    else if worker == "" then Tx(r, Err(InvalidRuntimeInput))
    else if action >= |r.schedules| then Tx(r, Err(ScheduledActionNotFound))
    else
      var row := r.schedules[action];
      if row.terms.kind != Wake then Tx(r, Err(WrongSchedulePath))
      else if row.status != Scheduled then Tx(r, Err(ScheduledActionNotRunnable))
      else if row.terms.dueAt > r.now then Tx(r, Err(ScheduledActionNotDue))
      else if Overdue(r, row.terms) then Tx(FinishWake(Bump(r), action, worker, Missed, WakeMissed), Ok(WakeMissed))
      else
        var resumed := Resume(r, SystemActor, around);
        if resumed.reply.Ok? then Tx(FinishWake(resumed.after, action, worker, Completed, WakeCompleted), Ok(WakeCompleted))
        else if !Blockable(resumed.reply.error) then Tx(r, Err(resumed.reply.error))
        else Tx(FinishWake(MarkWakeBlocked(r, resumed.reply.error), action, worker, BlockedOut, WakeBlocked), Ok(WakeBlocked))
  }
}
