/**
 The rules of the agent runtime, written out on its rows: when each transaction is accepted, and
 exactly what it leaves.
 */
module RuntimeRules {
  import opened Wrappers
  import opened Runtime
  import opened RuntimeTheorems

  // ---- Leases ----

  /** Somebody's lease is neither released nor expired. */
  predicate Leased(r: Runtime) {
    match r.lease
    case None => false
    case Some(lease) => !lease.released && r.now < lease.expiresAt
  }

  predicate HeldBy(r: Runtime, worker: string, epoch: nat) {
    Leased(r) && r.lease.value.worker == worker && r.lease.value.epoch == epoch
  }

  predicate IsTtl(ttlMs: nat) {
    5_000 <= ttlMs <= 3_600_000
  }

  /** A lease is given when nobody holds one, with the next epoch, and extended for its holder with the same. */
  lemma LeasesFollowTheRules(r: Runtime, worker: string, epoch: nat, ttlMs: nat)
    ensures AcquireLease(r, worker, ttlMs).reply
         == if worker == "" || !IsTtl(ttlMs) then Err(InvalidRuntimeInput) else if Leased(r) then Err(LeaseHeld) else Ok(EpochOf(r) + 1)
    ensures AcquireLease(r, worker, ttlMs).reply.Ok? ==>
      AcquireLease(r, worker, ttlMs).after == r.(lease := Some(Lease(worker, EpochOf(r) + 1, r.now + ttlMs, false)))
    ensures RenewLease(r, worker, epoch, ttlMs).reply.Ok? <==> worker != "" && epoch > 0 && IsTtl(ttlMs) && HeldBy(r, worker, epoch)
    ensures RenewLease(r, worker, epoch, ttlMs).reply.Ok? ==>
      RenewLease(r, worker, epoch, ttlMs).after == r.(lease := Some(Lease(worker, epoch, r.now + ttlMs, false)))
  {
  }

  /** An unreleased lease is released by its last holder, expired or not; a checkpoint needs the lease and the seen version. */
  lemma HoldersFollowTheRules(r: Runtime, worker: string, epoch: nat, version: nat)
    ensures ReleaseLease(r, worker, epoch).reply.Ok?
       <==> worker != "" && epoch > 0 && r.lease.Some? && r.lease.value == Lease(worker, epoch, r.lease.value.expiresAt, false)
    ensures ReleaseLease(r, worker, epoch).reply.Ok? ==>
      ReleaseLease(r, worker, epoch).after == r.(lease := Some(Lease(worker, epoch, r.lease.value.expiresAt, true)))
    ensures SaveCheckpoint(r, worker, epoch, version).reply.Ok?
       <==> worker != "" && epoch > 0 && version > 0 && HeldBy(r, worker, epoch) && r.stateVersion == version
    ensures SaveCheckpoint(r, worker, epoch, version).reply.Ok? ==>
      SaveCheckpoint(r, worker, epoch, version)
      == Tx(r.(stateVersion := version + 1, checkpoints := r.checkpoints + [Checkpoint(epoch, version + 1)]), Ok(version + 1))
  {
  }

  // ---- Lifecycle ----

  /** Every lifecycle column after a change of status, with its row in the log. */
  function Moved(r: Runtime, life: LifeStatus, execution: ExecutionStatus, flags: set<Flag>): Runtime {
    Runtime(r.now, life, execution, r.model, flags, r.stateVersion + 1,
            r.transitions + [Transition(r.life, life, r.stateVersion + 1)], r.lease, r.checkpoints,
            r.routes, r.currentRoute, r.profileVersion, r.routeChanges, r.schedules, r.wakes)
  }

  predicate AtRest(r: Runtime) {
    r.execution != Running && !Leased(r)
  }

  /** No owner pause, quarantine or suspension, and the context and a model route are there. */
  predicate Unrestricted(r: Runtime) {
    && OwnerPause !in r.flags && Quarantine !in r.flags && WorldSuspension !in r.flags
    && M03Context !in r.flags && NoModelRoute !in r.flags
  }

  predicate CanActivate(r: Runtime, around: Around) {
    && around.identityActive
    && (|| r.life == Active
        || (&& (r.life == Registered || r.life == Dormant) && Unrestricted(r)
            && r.model == Available && r.currentRoute.Some? && around.routeAvailable
            && AtRest(r) && around.charge.None?))
  }

  predicate CanResume(r: Runtime, around: Around) {
    && CanActivate(r, around)
    && OwnerPause !in r.flags && NoBudget !in r.flags && Quarantine !in r.flags && WorldSuspension !in r.flags
  }

  function Activated(r: Runtime): Runtime {
    if r.life == Active then r else Moved(r, Active, Idle, r.flags - {NoActivityEnergy, FeeUnfunded})
  }

  lemma ActivationsFollowTheRule(r: Runtime, around: Around)
    ensures Activate(r, around).reply.Ok? <==> CanActivate(r, around)
    ensures CanActivate(r, around) ==> Activate(r, around) == Tx(Activated(r), Ok(r.life == Active))
  {
    HardFlags(r.flags);
  }

  lemma HardFlags(flags: set<Flag>)
    ensures flags * HARD_FLAGS == {} <==> OwnerPause !in flags && Quarantine !in flags && WorldSuspension !in flags
    ensures flags * POLICY_FLAGS == {}
       <==> OwnerPause !in flags && NoBudget !in flags && Quarantine !in flags && WorldSuspension !in flags
  {
    forall flag | flag in HARD_FLAGS && flag in flags ensures flag in flags * HARD_FLAGS {
    }
    forall flag | flag in POLICY_FLAGS && flag in flags ensures flag in flags * POLICY_FLAGS {
    }
  }

  /** A resume is accepted exactly from the subject or the system with nothing in the way, and leaves ACTIVE and IDLE. */
  lemma ResumesFollowTheRule(r: Runtime, actor: Actor, around: Around)
    ensures Resume(r, actor, around).reply.Ok? <==> actor != OtherActor && CanResume(r, around)
    ensures Resume(r, actor, around).reply.Ok? ==> Resume(r, actor, around) == Tx(Activated(r), Ok(r.life == Active))
    ensures Resume(r, actor, around).reply.Err? ==> Resume(r, actor, around).after == r
  {
    HardFlags(r.flags);
    ActivationsFollowTheRule(r, around);
  }

  predicate PauseAllowed(actor: Actor, reason: PauseReason) {
    match reason
    case UserRequest => true
    case PauseFor(flag) =>
      flag == NoBudget || flag == NoActivityEnergy || flag == FeeUnfunded || (flag == OwnerPause && actor == SystemActor)
  }

  lemma PausesFollowTheRule(r: Runtime, actor: Actor, reason: PauseReason)
    ensures Pause(r, actor, reason).reply.Ok?
       <==> actor != OtherActor && (r.life == Dormant || (r.life == Active && AtRest(r) && PauseAllowed(actor, reason)))
    ensures Pause(r, actor, reason).reply.Ok? ==>
      Pause(r, actor, reason).after
      == if r.life == Dormant then r
         else Moved(r, Dormant, Blocked, r.flags + if reason.UserRequest? then {} else {reason.flag})
  {
  }

  /** The day is paid for and something is left. */
  predicate Funded(around: Around) {
    around.availableEnergy > 0 && (around.feePaid || around.charge.None?)
  }

  /** What the runtime is short of. */
  predicate ShortOf(around: Around, flag: Flag) {
    || (flag == NoActivityEnergy && around.availableEnergy <= 0)
    || (flag == FeeUnfunded && around.availableEnergy > 0 && !around.feePaid && around.charge == Some(DailyFeeUnfunded))
  }

  function ShortFlag(around: Around): Flag {
    if around.availableEnergy <= 0 then NoActivityEnergy else FeeUnfunded
  }

  predicate MayReconcile(r: Runtime, claimant: Option<Claimant>) {
    && r.execution != Running
    && match claimant case None => !Leased(r) case Some(c) => HeldBy(r, c.worker, c.epoch)
  }

  /** An active runtime is sent dormant exactly when it is short of something, at rest or under its claimant's lease. */
  lemma ReconciliationsFollowTheRule(r: Runtime, around: Around, claimant: Option<Claimant>, flag: Flag)
    ensures Reconcile(r, around, claimant).reply == Ok(None) <==> r.life != Active || Funded(around)
    ensures Reconcile(r, around, claimant).reply == Ok(None) ==> Reconcile(r, around, claimant).after == r
    ensures Reconcile(r, around, claimant).reply == Ok(Some(flag))
       <==> r.life == Active && ShortOf(around, flag) && MayReconcile(r, claimant)
    ensures Reconcile(r, around, claimant).reply == Ok(Some(flag)) ==>
      Reconcile(r, around, claimant).after == Moved(r, Dormant, Blocked, r.flags + {flag})
    ensures Reconcile(r, around, claimant).reply.Ok? ==>
      Reconcile(r, around, claimant).reply.value in {None, Some(NoActivityEnergy), Some(FeeUnfunded)}
  {
  }

  lemma ModelChangesFollowTheRule(r: Runtime, actor: Actor, model: ModelStatus)
    ensures SetModelStatus(r, actor, model).reply.Ok?
       <==> actor == SystemActor && (r.model == model || model == Available || r.life != Active || AtRest(r))
    ensures SetModelStatus(r, actor, model).reply.Ok? ==>
      SetModelStatus(r, actor, model).after
      == if r.model == model then r
         else if model == Available then r.(model := Available, stateVersion := r.stateVersion + 1)
         else if r.life == Active then Moved(r, Dormant, Blocked, r.flags).(model := model)
         else r.(model := model, execution := Blocked, stateVersion := r.stateVersion + 1)
  {
  }

  predicate IsPolicy(flag: Flag) {
    flag == OwnerPause || flag == NoBudget || flag == Quarantine || flag == WorldSuspension
  }

  lemma RestrictionsFollowTheRule(r: Runtime, actor: Actor, flag: Flag, enabled: bool)
    ensures SetRestriction(r, actor, flag, enabled).reply.Ok?
       <==> actor == SystemActor && IsPolicy(flag)
            && ((flag in r.flags <==> enabled) || !enabled || r.life != Active || AtRest(r))
    ensures SetRestriction(r, actor, flag, enabled).reply.Ok? ==>
      SetRestriction(r, actor, flag, enabled).after
      == if flag in r.flags && !enabled then r.(flags := r.flags - {flag}, stateVersion := r.stateVersion + 1)
         else if flag in r.flags || !enabled then r
         else if r.life == Active then Moved(r, Dormant, Blocked, r.flags + {flag})
         else r.(flags := r.flags + {flag}, stateVersion := r.stateVersion + 1)
  {
  }

  /** A route is published by the system for the seen profile, and becomes the current one. */
  lemma RoutesFollowTheRule(r: Runtime, actor: Actor, expectedProfile: Option<nat>, manifest: nat, available: bool)
    ensures var tx := PublishRoute(r, actor, expectedProfile, manifest, available);
      && (tx.reply.Ok?
          <==> actor == SystemActor && available && r.execution != Running
               && (expectedProfile == Some(r.profileVersion) || (expectedProfile.None? && r.currentRoute.None?)))
      && (tx.reply.Ok? ==>
            tx == Tx(r.(routes := r.routes + [manifest], currentRoute := Some(|r.routes|),
                        routeChanges := r.routeChanges + [RouteChange(r.currentRoute, |r.routes|)],
                        profileVersion := r.profileVersion + 1, stateVersion := r.stateVersion + 1,
                        model := Available, flags := r.flags - {NoModelRoute},
                        execution := if r.life == Active then Idle else Blocked),
                     Ok(|r.routes|)))
  {
  }

  // ---- Schedules ----

  /** One row replaced, and the state version moved on. */
  function WithRow(r: Runtime, i: nat, row: Schedule): Runtime
    requires i < |r.schedules|
  {
    r.(schedules := r.schedules[i := row], stateVersion := r.stateVersion + 1)
  }

  predicate IsTerms(terms: Terms) {
    terms.latestRunAt.Some? ==> terms.dueAt <= terms.latestRunAt.value
  }

  /** A dedupe key stands for one schedule: a new row, the row it has with the same terms, or a refusal. */
  lemma SchedulesFollowTheRule(r: Runtime, actor: Actor, terms: Terms, dedupeKey: string)
    requires SchedulesOk(r)
    ensures var tx := AddSchedule(r, actor, terms, dedupeKey);
      && (tx.reply.Ok?
          <==> actor != OtherActor && IsTerms(terms) && dedupeKey != ""
               && forall i :: 0 <= i < |r.schedules| && r.schedules[i].dedupeKey == dedupeKey ==> r.schedules[i].terms == terms)
      && (tx.reply.Ok? ==>
            if exists i :: 0 <= i < |r.schedules| && r.schedules[i].dedupeKey == dedupeKey
            then tx.after == r && tx.reply.value < |r.schedules| && r.schedules[tx.reply.value].dedupeKey == dedupeKey
            else tx.reply.value == |r.schedules|
                 && tx.after == r.(stateVersion := r.stateVersion + 1,
                                   schedules := r.schedules + [Schedule(terms, dedupeKey, Scheduled, None, None)]))
  {
    var found := FindSchedule(r.schedules, dedupeKey);
    hide FindSchedule;
  }

  predicate IsLate(r: Runtime, terms: Terms) {
    terms.missed == Skip && terms.latestRunAt.Some? && terms.latestRunAt.value < r.now
  }

  /** An active, funded, unrestricted runtime with its model and route. */
  predicate ReadyForTurn(r: Runtime, around: Around) {
    && around.identityActive && r.life == Active && (r.execution == Idle || r.execution == Runnable)
    && Funded(around) && r.model == Available && around.routeAvailable && r.currentRoute.Some? && Unrestricted(r)
  }

  /** A claim attempt that reaches its schedule. */
  predicate Reaches(r: Runtime, actor: Actor, action: nat, claimant: Claimant) {
    && actor == SystemActor && action < |r.schedules| && r.schedules[action].terms.kind == AutonomousTurn
    && claimant.worker != "" && claimant.epoch > 0
  }

  predicate NewerThan(claimant: Claimant, row: Schedule) {
    row.claimedEpoch.Some? && row.claimedEpoch.value < claimant.epoch
  }

  predicate Grants(r: Runtime, actor: Actor, action: nat, claimant: Claimant, around: Around) {
    && Reaches(r, actor, action, claimant) && HeldBy(r, claimant.worker, claimant.epoch)
    && var row := r.schedules[action];
       row.status == Scheduled && row.terms.dueAt <= r.now && !IsLate(r, row.terms) && ReadyForTurn(r, around)
  }

  predicate TakesOver(r: Runtime, actor: Actor, action: nat, claimant: Claimant, around: Around) {
    && Reaches(r, actor, action, claimant) && HeldBy(r, claimant.worker, claimant.epoch)
    && r.schedules[action].status == Claimed && NewerThan(claimant, r.schedules[action])
    && ReadyForTurn(r, around) && NoBudget !in r.flags
  }

  predicate Misses(r: Runtime, actor: Actor, action: nat, claimant: Claimant, around: Around) {
    && Reaches(r, actor, action, claimant) && HeldBy(r, claimant.worker, claimant.epoch)
    && (r.life != Active || Funded(around))
    && var row := r.schedules[action]; row.status == Scheduled && row.terms.dueAt <= r.now && IsLate(r, row.terms)
  }

  /** The context provider is missing. */
  predicate LacksContext(r: Runtime, actor: Actor, action: nat, claimant: Claimant, around: Around) {
    && Reaches(r, actor, action, claimant) && HeldBy(r, claimant.worker, claimant.epoch)
    && (r.life != Active || Funded(around)) && M03Context in r.flags
    && var row := r.schedules[action]; row.status == Scheduled && row.terms.dueAt <= r.now && !IsLate(r, row.terms)
  }

  /** The runtime cannot pay for its day and is sent dormant under the claimant's lease. */
  predicate GoesDormant(r: Runtime, actor: Actor, action: nat, claimant: Claimant, around: Around) {
    && Reaches(r, actor, action, claimant) && HeldBy(r, claimant.worker, claimant.epoch)
    && r.life == Active && r.execution != Running && ShortOf(around, ShortFlag(around))
    && (r.schedules[action].status == Claimed ==> NewerThan(claimant, r.schedules[action]))
  }

  function Released(r: Runtime): Runtime {
    if r.lease.None? then r else r.(lease := Some(r.lease.value.(released := true)))
  }

  /** What a claim leaves, case by case. */
  function AfterClaim(r: Runtime, action: nat, claimant: Claimant, around: Around, result: ClaimResult): Runtime
    requires action < |r.schedules|
  {
    var row := r.schedules[action];
    match result
    case ClaimGranted => WithRow(r, action, Schedule(row.terms, row.dedupeKey, Claimed, Some(claimant.worker), Some(claimant.epoch)))
    case ClaimTakenOver => WithRow(r, action, Schedule(row.terms, row.dedupeKey, Claimed, Some(claimant.worker), Some(claimant.epoch)))
    case ClaimMissed => WithRow(r, action, row.(status := Missed))
    case ClaimBlocked =>
      if r.life != Active || Funded(around) then WithRow(r, action, row.(status := BlockedOut))
      else
        var closed :=
          if row.status == Scheduled then Schedule(row.terms, row.dedupeKey, BlockedOut, Some(claimant.worker), Some(claimant.epoch))
          else if row.status == Claimed then row.(status := BlockedOut)
          else row;
        var b := Released(Moved(r, Dormant, Blocked, r.flags + {ShortFlag(around)}));
        b.(schedules := r.schedules[action := closed])
  }

  lemma ReadyMeans(r: Runtime, around: Around)
    ensures CanTakeTurn(r, around) <==> ReadyForTurn(r, around)
  {
    HardFlags(r.flags);
  }

  /** A first claim, once the runtime is known to be funded or inactive. */
  lemma FirstClaims(r: Runtime, action: nat, claimant: Claimant, around: Around)
    requires Reaches(r, SystemActor, action, claimant) && r.schedules[action].status != Claimed
    requires r.life != Active || Funded(around)
    ensures var tx := ClaimTurn(r, action, claimant, around);
      && (tx.reply == Ok(ClaimGranted) <==> Grants(r, SystemActor, action, claimant, around))
      && (tx.reply == Ok(ClaimMissed) <==> Misses(r, SystemActor, action, claimant, around))
      && (tx.reply == Ok(ClaimBlocked) <==> LacksContext(r, SystemActor, action, claimant, around))
      && tx.reply != Ok(ClaimTakenOver)
      && tx.after == if tx.reply.Ok? then AfterClaim(r, action, claimant, around, tx.reply.value) else r
  {
    ReadyMeans(r, around);
    assert ReadyForTurn(r, around) ==> M03Context !in r.flags;
    hide CanTakeTurn, ReadyForTurn;
  }

  lemma SecondClaims(r: Runtime, action: nat, claimant: Claimant, around: Around)
    requires Reaches(r, SystemActor, action, claimant) && r.schedules[action].status == Claimed
    ensures var tx := Recover(r, action, claimant, around);
      && (tx.reply == Ok(ClaimTakenOver) <==> TakesOver(r, SystemActor, action, claimant, around))
      && (tx.reply == Ok(ClaimBlocked) <==> GoesDormant(r, SystemActor, action, claimant, around))
      && tx.reply != Ok(ClaimGranted) && tx.reply != Ok(ClaimMissed)
      && tx.after == if tx.reply.Ok? then AfterClaim(r, action, claimant, around, tx.reply.value) else r
  {
    ReadyMeans(r, around);
    HardFlags(r.flags);
    ReconciliationsFollowTheRule(r, around, Some(claimant), NoActivityEnergy);
    ReconciliationsFollowTheRule(r, around, Some(claimant), FeeUnfunded);
    hide CanTakeTurn, Reconcile;
  }

  /** Each answer to a claim is given exactly in its situation, and leaves exactly its rows. */
  lemma ClaimsFollowTheRules(r: Runtime, actor: Actor, action: nat, claimant: Claimant, around: Around)
    ensures var reply := ClaimAutonomous(r, actor, action, claimant, around).reply;
      && (reply == Ok(ClaimGranted) <==> Grants(r, actor, action, claimant, around))
      && (reply == Ok(ClaimTakenOver) <==> TakesOver(r, actor, action, claimant, around))
      && (reply == Ok(ClaimMissed) <==> Misses(r, actor, action, claimant, around))
      && (reply == Ok(ClaimBlocked)
          <==> LacksContext(r, actor, action, claimant, around) || GoesDormant(r, actor, action, claimant, around))
    ensures var tx := ClaimAutonomous(r, actor, action, claimant, around);
      if tx.reply.Ok? then action < |r.schedules| && tx.after == AfterClaim(r, action, claimant, around, tx.reply.value)
      else tx.after == r
  {
    if Reaches(r, actor, action, claimant) {
      if r.schedules[action].status == Claimed {
        SecondClaims(r, action, claimant, around);
      } else {
        FirstReconciles(r, action, claimant, around);
      }
    }
    hide ClaimTurn, Recover, Reconcile, ReadyForTurn, AfterClaim;
  }

  lemma FirstReconciles(r: Runtime, action: nat, claimant: Claimant, around: Around)
    requires Reaches(r, SystemActor, action, claimant) && r.schedules[action].status != Claimed
    ensures var tx := ClaimAutonomous(r, SystemActor, action, claimant, around);
      && (tx.reply == Ok(ClaimGranted) <==> Grants(r, SystemActor, action, claimant, around))
      && (tx.reply == Ok(ClaimMissed) <==> Misses(r, SystemActor, action, claimant, around))
      && (tx.reply == Ok(ClaimBlocked)
          <==> LacksContext(r, SystemActor, action, claimant, around) || GoesDormant(r, SystemActor, action, claimant, around))
      && tx.reply != Ok(ClaimTakenOver)
      && tx.after == if tx.reply.Ok? then AfterClaim(r, action, claimant, around, tx.reply.value) else r
  {
    ReconciliationsFollowTheRule(r, around, Some(claimant), NoActivityEnergy);
    ReconciliationsFollowTheRule(r, around, Some(claimant), FeeUnfunded);
    if r.life != Active || Funded(around) {
      FirstClaims(r, action, claimant, around);
      hide ClaimTurn, Reconcile, AfterClaim;
    } else {
      hide ClaimTurn, Reconcile;
    }
  }

  predicate IsWakeDue(r: Runtime, actor: Actor, action: nat, worker: string) {
    && actor == SystemActor && worker != "" && action < |r.schedules|
    && var row := r.schedules[action];
       row.terms.kind == Wake && row.status == Scheduled && row.terms.dueAt <= r.now
  }

  /** What stops a resume from the system and blocks the wake for good. */
  predicate WakeFails(r: Runtime, around: Around) {
    || !around.identityActive
    || OwnerPause in r.flags || NoBudget in r.flags || Quarantine in r.flags || WorldSuspension in r.flags
    || (r.life != Active && r.life != Terminated
        && (|| !Unrestricted(r) || r.model != Available || r.currentRoute.None? || !around.routeAvailable
            || (AtRest(r) && around.charge.Some?
                && (around.charge.value == DailyFeeUnfunded || around.charge.value == FirstActivationMinimumUnfunded
                    || around.charge.value == NoAvailableEnergy || around.charge.value == M03ContextUnavailable
                    || around.charge.value == RuntimeRestricted || around.charge.value == ModelRouteUnavailable
                    || around.charge.value == IdentityNotActive))))
  }

  /** Only money leaves a flag behind, and only when nothing else stood in the way. */
  function FlagsAfterFailure(r: Runtime, around: Around): set<Flag> {
    if !around.identityActive || OwnerPause in r.flags || NoBudget in r.flags || Quarantine in r.flags || WorldSuspension in r.flags
       || !Unrestricted(r) || r.model != Available || r.currentRoute.None? || !around.routeAvailable
    then r.flags
    else if around.charge == Some(DailyFeeUnfunded) then r.flags + {FeeUnfunded}
    else if around.charge == Some(FirstActivationMinimumUnfunded) || around.charge == Some(NoAvailableEnergy)
      then r.flags + {NoActivityEnergy}
    else r.flags
  }

  function AfterWake(r: Runtime, action: nat, worker: string, around: Around, outcome: WakeOutcome): Runtime
    requires action < |r.schedules|
  {
    var row := r.schedules[action].(claimedBy := Some(worker));
    var b := match outcome
      case WakeMissed => WithRow(r, action, row.(status := Missed))
      case WakeCompleted => Activated(r).(schedules := r.schedules[action := row.(status := Completed)])
      case WakeBlocked => WithRow(r, action, row.(status := BlockedOut)).(flags := FlagsAfterFailure(r, around));
    b.(wakes := r.wakes + [WakeEvidence(action, outcome)])
  }

  /** A due wake ends missed, completed or blocked exactly as its situation says, with evidence of that outcome. */
  lemma WakesFollowTheRules(r: Runtime, actor: Actor, action: nat, worker: string, around: Around)
    ensures var reply := RunDueWake(r, actor, action, worker, around).reply;
      && (reply == Ok(WakeMissed) <==> IsWakeDue(r, actor, action, worker) && IsLate(r, r.schedules[action].terms))
      && (reply == Ok(WakeCompleted)
          <==> IsWakeDue(r, actor, action, worker) && !IsLate(r, r.schedules[action].terms) && CanResume(r, around))
      && (reply == Ok(WakeBlocked)
          <==> IsWakeDue(r, actor, action, worker) && !IsLate(r, r.schedules[action].terms) && WakeFails(r, around))
    ensures var tx := RunDueWake(r, actor, action, worker, around);
      if tx.reply.Ok? then action < |r.schedules| && tx.after == AfterWake(r, action, worker, around, tx.reply.value)
      else tx.after == r
  {
    HardFlags(r.flags);
    ResumesFollowTheRule(r, SystemActor, around);
    ResumeFailures(r, around);
    hide Resume, CanResume, WakeFails, FlagsAfterFailure;
  }

  lemma ResumeFailures(r: Runtime, around: Around)
    ensures var reply := Resume(r, SystemActor, around).reply;
      && (reply.Err? && Blockable(reply.error) <==> WakeFails(r, around))
      && (reply.Err? && Blockable(reply.error) ==>
            (match WakeFlag(reply.error) case None => r.flags case Some(flag) => r.flags + {flag}) == FlagsAfterFailure(r, around))
  {
    HardFlags(r.flags);
  }

  /** The holder that claimed an action reports how it ended, and the row says so. */
  lemma CompletionsFollowTheRule(r: Runtime, actor: Actor, action: nat, claimant: Claimant, completed: bool)
    ensures var tx := CompleteAction(r, actor, action, claimant, completed);
      && (tx.reply.Ok?
          <==> actor == SystemActor && HeldBy(r, claimant.worker, claimant.epoch) && action < |r.schedules|
               && var row := r.schedules[action];
                  row == Schedule(row.terms, row.dedupeKey, Claimed, Some(claimant.worker), Some(claimant.epoch)))
      && (tx.reply.Ok? ==>
            var row := r.schedules[action];
            tx == Tx(WithRow(r, action, Schedule(row.terms, row.dedupeKey, if completed then Completed else BlockedOut,
                                                 Some(claimant.worker), Some(claimant.epoch))),
                     Ok(action)))
      && (tx.reply.Err? ==> tx.after == r)
  {
  }
}
