/**
 What the rules of the agent runtime add up to over whole runs: how every schedule came to its
 status, who may change what, and leases that nobody can take away.
 */
module RuntimeOutcomes {
  import opened Wrappers
  import opened Runtime
  import opened RuntimeTheorems
  import opened RuntimeRules

  // ---- How a schedule changes ----

  predicate ClaimTakes(r: Runtime, action: nat, claimant: Claimant, around: Around, row: Schedule)
    requires action < |r.schedules|
  {
    var was := r.schedules[action];
    || (Grants(r, SystemActor, action, claimant, around)
        && row == Schedule(was.terms, was.dedupeKey, Claimed, Some(claimant.worker), Some(claimant.epoch)))
    || (TakesOver(r, SystemActor, action, claimant, around)
        && row == Schedule(was.terms, was.dedupeKey, Claimed, Some(claimant.worker), Some(claimant.epoch)))
    || (Misses(r, SystemActor, action, claimant, around) && row == was.(status := Missed))
    || (LacksContext(r, SystemActor, action, claimant, around) && row == was.(status := BlockedOut))
    || (GoesDormant(r, SystemActor, action, claimant, around)
        && ((was.status == Scheduled
             && row == Schedule(was.terms, was.dedupeKey, BlockedOut, Some(claimant.worker), Some(claimant.epoch)))
            || (was.status == Claimed && row == was.(status := BlockedOut))))
  }

  /** The claimer, still holding its lease, reported the end: COMPLETED or BLOCKED as it said. */
  predicate CompletionTakes(r: Runtime, action: nat, claimant: Claimant, completed: bool, row: Schedule)
    requires action < |r.schedules|
  {
    var was := r.schedules[action];
    && HeldBy(r, claimant.worker, claimant.epoch)
    && was == Schedule(was.terms, was.dedupeKey, Claimed, Some(claimant.worker), Some(claimant.epoch))
    && row == was.(status := if completed then Completed else BlockedOut)
  }

  /** A due wake was missed, resumed the runtime, or failed to. */
  predicate WakeTakes(r: Runtime, action: nat, worker: string, around: Around, row: Schedule)
    requires action < |r.schedules|
  {
    var was := r.schedules[action];
    && IsWakeDue(r, SystemActor, action, worker)
    && (|| (IsLate(r, was.terms) && row == was.(claimedBy := Some(worker), status := Missed))
        || (!IsLate(r, was.terms) && CanResume(r, around) && row == was.(claimedBy := Some(worker), status := Completed))
        || (!IsLate(r, was.terms) && WakeFails(r, around) && row == was.(claimedBy := Some(worker), status := BlockedOut)))
  }

  predicate Takes(r: Runtime, step: Step, i: nat, row: Schedule)
    requires i < |r.schedules|
  {
    match step
    case ClaimStep(actor, action, claimant, around) => actor == SystemActor && action == i && ClaimTakes(r, i, claimant, around, row)
    case CompleteStep(actor, action, claimant, completed) =>
      actor == SystemActor && action == i && CompletionTakes(r, i, claimant, completed, row)
    case WakeStep(actor, action, worker, around) => actor == SystemActor && action == i && WakeTakes(r, i, worker, around, row)
    case _ => false
  }

  /** A step leaves a schedule as it is or takes it on for one of these reasons. */
  lemma SchedulesChangeBy(r: Runtime, step: Step, i: nat)
    requires i < |r.schedules|
    ensures var b := Apply(r, step);
      && i < |b.schedules|
      && (b.schedules[i] == r.schedules[i] || Takes(r, step, i, b.schedules[i]))
  {
    hide ClaimAutonomous, CompleteAction, RunDueWake, Grants, TakesOver, Misses, LacksContext, GoesDormant, CanResume, WakeFails;
    match step {
      case ClaimStep(actor, action, claimant, around) => ClaimsChangeRows(r, actor, action, claimant, around, i); hide Apply, Takes;
      case CompleteStep(actor, action, claimant, completed) => CompletionsFollowTheRule(r, actor, action, claimant, completed);
      case WakeStep(actor, action, worker, around) => WakesFollowTheRules(r, actor, action, worker, around);
      case _ =>
    }
  }

  lemma ClaimsChangeRows(r: Runtime, actor: Actor, action: nat, claimant: Claimant, around: Around, i: nat)
    requires i < |r.schedules|
    ensures var step := ClaimStep(actor, action, claimant, around);
      var b := Apply(r, step);
      && |b.schedules| == |r.schedules|
      && (b.schedules[i] == r.schedules[i] || Takes(r, step, i, b.schedules[i]))
  {
    ClaimsFollowTheRules(r, actor, action, claimant, around);
    hide ClaimAutonomous;
  }

  /** At some point of the run a step took row i to what it is now. */
  ghost predicate WasTaken(steps: seq<Step>, k: nat, i: nat, row: Schedule) {
    k < |steps| && i < |Run(REGISTERED, steps[..k]).schedules| && Takes(Run(REGISTERED, steps[..k]), steps[k], i, row)
  }

  /** In any run, a schedule that is no longer waiting came to its status, claimer and epoch by the rules. */
  lemma {:induction false} StatusesWereEarned(steps: seq<Step>, i: nat)
    requires i < |Run(REGISTERED, steps).schedules| && Run(REGISTERED, steps).schedules[i].status != Scheduled
    ensures exists k: nat :: WasTaken(steps, k, i, Run(REGISTERED, steps).schedules[i])
  {
    hide Apply, Takes;
    if steps == [] {
      assert false;
    } else {
      var rest, last := steps[..|steps| - 1], steps[|steps| - 1];
      var before, row := Run(REGISTERED, rest), Run(REGISTERED, steps).schedules[i];
      NewSchedulesWait(before, last, i);
      SchedulesChangeBy(before, last, i);
      if row == before.schedules[i] {
        StatusesWereEarned(rest, i);
        var k: nat :| WasTaken(rest, k, i, row);
        assert rest[..k] == steps[..k] && rest[k] == steps[k];
        assert WasTaken(steps, k, i, row);
      } else {
        assert WasTaken(steps, |rest|, i, row);
      }
    }
  }

  lemma NewSchedulesWait(r: Runtime, step: Step, i: nat)
    requires i < |Apply(r, step).schedules| && Apply(r, step).schedules[i].status != Scheduled
    ensures i < |r.schedules|
  {
    hide FindSchedule;
    match step {
      case ClaimStep(_, _, _, _) => ClaimKeepsLength(r, step); hide ClaimAutonomous;
      case WakeStep(actor, action, worker, around) => WakesFollowTheRules(r, actor, action, worker, around); hide RunDueWake;
      case ResumeStep(_, _) => KeepsWakes(r, step); hide Resume;
      case _ => hide ClaimAutonomous, RunDueWake, Resume;
    }
  }

  /** How an autonomous turn ended: by its claimer's report, or by a claim attempt of a lease holder that found it lost. */
  predicate TurnEnded(r: Runtime, step: Step, i: nat, row: Schedule)
    requires i < |r.schedules|
  {
    match row.status
    case Completed =>
      && row.claimedBy.Some? && row.claimedEpoch.Some?
      && step == CompleteStep(SystemActor, i, Claimant(row.claimedBy.value, row.claimedEpoch.value), true)
      && HeldBy(r, row.claimedBy.value, row.claimedEpoch.value) && r.schedules[i] == row.(status := Claimed)
    case Missed => step.ClaimStep? && r.schedules[i].status == Scheduled && IsLate(r, row.terms)
    case BlockedOut =>
      || (step.CompleteStep? && !step.completed && r.schedules[i] == row.(status := Claimed)
          && row.claimedBy == Some(step.claimant.worker) && row.claimedEpoch == Some(step.claimant.epoch))
      || (step.ClaimStep? && M03Context in r.flags)
      || (step.ClaimStep? && r.life == Active && ShortOf(step.around, ShortFlag(step.around)))
    case _ => false
  }

  ghost predicate TurnEndedAt(steps: seq<Step>, k: nat, i: nat, row: Schedule) {
    k < |steps| && i < |Run(REGISTERED, steps[..k]).schedules| && TurnEnded(Run(REGISTERED, steps[..k]), steps[k], i, row)
  }

  /** A turn is COMPLETED because its claimer said so, MISSED because it was late, BLOCKED because of a report or the runtime. */
  lemma TurnsEndAsReported(steps: seq<Step>, i: nat)
    requires var r := Run(REGISTERED, steps);
      i < |r.schedules| && r.schedules[i].terms.kind == AutonomousTurn && Finished(r.schedules[i])
    ensures exists k: nat :: TurnEndedAt(steps, k, i, Run(REGISTERED, steps).schedules[i])
  {
    hide Run, Takes;
    StatusesWereEarned(steps, i);
    var row := Run(REGISTERED, steps).schedules[i];
    var k: nat :| WasTaken(steps, k, i, row);
    TakenTurnEnded(Run(REGISTERED, steps[..k]), steps[k], i, row);
    assert TurnEndedAt(steps, k, i, row);
  }

  lemma TakenTurnEnded(r: Runtime, step: Step, i: nat, row: Schedule)
    requires i < |r.schedules| && Takes(r, step, i, row) && row.terms.kind == AutonomousTurn && Finished(row)
    ensures TurnEnded(r, step, i, row)
  {
  }

  // ---- Wakes and their evidence ----

  function OutcomeOf(status: ScheduleStatus): Option<WakeOutcome> {
    match status
    case Completed => Some(WakeCompleted)
    case Missed => Some(WakeMissed)
    case BlockedOut => Some(WakeBlocked)
    case _ => None
  }

  /** The evidence on a wake is that of its status, and a wake that still waits has none. */
  predicate EvidenceAgrees(r: Runtime, i: nat)
    requires i < |r.schedules|
  {
    r.schedules[i].terms.kind == Wake ==>
      forall outcome :: WakeEvidence(i, outcome) in r.wakes <==> OutcomeOf(r.schedules[i].status) == Some(outcome)
  }

  predicate WakesAgree(r: Runtime) {
    && (forall i :: 0 <= i < |r.schedules| ==> EvidenceAgrees(r, i))
    && (forall e :: e in r.wakes ==> e.action < |r.schedules|)
  }

  /** In any run a wake is COMPLETED, MISSED or BLOCKED exactly when its one piece of evidence says so. */
  lemma {:induction false} WakesEndAsTheirEvidence(steps: seq<Step>)
    ensures WakesAgree(Run(REGISTERED, steps))
  {
    hide Apply, WakesAgree, Inv;
    if steps == [] {
      assert WakesAgree(REGISTERED) by { NoWakesYet(); }
    } else {
      var rest := steps[..|steps| - 1];
      WakesEndAsTheirEvidence(rest);
      RegisteredIsOk();
      RunKeepsInv(REGISTERED, rest);
      StepKeepsWakesAgree(Run(REGISTERED, rest), steps[|steps| - 1]);
    }
  }

  lemma NoWakesYet()
    ensures WakesAgree(REGISTERED)
  {
  }

  lemma RegisteredIsOk()
    ensures Inv(REGISTERED)
  {
  }

  lemma StepKeepsWakesAgree(r: Runtime, step: Step)
    requires WakesAgree(r) && Inv(r)
    ensures WakesAgree(Apply(r, step))
  {
    hide Inv, Takes, Apply;
    var b := Apply(r, step);
    StepKeepsInv(r, step);
    if step.WakeStep? {
      WakeStepAgrees(r, step.actor, step.action, step.worker, step.around);
      assert b == RunDueWake(r, step.actor, step.action, step.worker, step.around).after by { WakeStepRuns(r, step); }
    } else {
      OthersLeaveWakes(r, step);
      assert forall i :: 0 <= i < |r.schedules| ==> EvidenceAgrees(r, i);
      forall i | 0 <= i < |b.schedules| ensures EvidenceAgrees(b, i) {
        if i < |r.schedules| {
          WakesKeepTheirRow(r, step, i);
          assert EvidenceAgrees(r, i);
        } else {
          AddedRowsWait(r, step, i);
          assert forall outcome :: WakeEvidence(i, outcome) !in b.wakes;
        }
      }
    }
  }

  lemma WakeStepRuns(r: Runtime, step: Step)
    requires step.WakeStep?
    ensures Apply(r, step) == RunDueWake(r, step.actor, step.action, step.worker, step.around).after
  {
  }

  lemma OthersLeaveWakes(r: Runtime, step: Step)
    requires !step.WakeStep?
    ensures Apply(r, step).wakes == r.wakes && |Apply(r, step).schedules| >= |r.schedules|
  {
    hide CanTakeTurn, FindSchedule, Overdue, Unfunded, Activate;
    KeepsWakes(r, step);
    if step.ClaimStep? {
      ClaimKeepsLength(r, step);
    }
  }

  lemma KeepsWakes(r: Runtime, step: Step)
    ensures step.ResumeStep? ==> Apply(r, step).wakes == r.wakes && Apply(r, step).schedules == r.schedules
  {
  }

  lemma AddedRowsWait(r: Runtime, step: Step, i: nat)
    requires |r.schedules| <= i < |Apply(r, step).schedules|
    ensures Apply(r, step).schedules[i].status == Scheduled
  {
    if Apply(r, step).schedules[i].status != Scheduled {
      NewSchedulesWait(r, step, i);
    }
  }

  lemma WakesKeepTheirRow(r: Runtime, step: Step, i: nat)
    requires Inv(r) && !step.WakeStep? && i < |r.schedules|
    ensures i < |Apply(r, step).schedules| && Apply(r, step).schedules[i].terms == r.schedules[i].terms
    ensures r.schedules[i].terms.kind == Wake ==> Apply(r, step).schedules[i] == r.schedules[i]
  {
    hide Apply;
    SchedulesChangeBy(r, step, i);
    RowOk(r, i);
    hide Inv;
  }

  lemma WakeStepAgrees(r: Runtime, actor: Actor, action: nat, worker: string, around: Around)
    requires WakesAgree(r)
    ensures WakesAgree(RunDueWake(r, actor, action, worker, around).after)
  {
    var tx := RunDueWake(r, actor, action, worker, around);
    WakesFollowTheRules(r, actor, action, worker, around);
    hide RunDueWake, WakeFails, CanResume, FlagsAfterFailure;
    if tx.reply.Ok? {
      forall i | 0 <= i < |tx.after.schedules| ensures EvidenceAgrees(tx.after, i) {
        assert EvidenceAgrees(r, i);
      }
    }
  }

  // ---- Leases ----

  /** How a lease may change. */
  predicate LeaseTaken(r: Runtime, step: Step, lease: Option<Lease>) {
    match step
    case Acquire(worker, ttlMs) => !Leased(r) && lease == Some(Lease(worker, EpochOf(r) + 1, r.now + ttlMs, false))
    case Renew(worker, epoch, ttlMs) => HeldBy(r, worker, epoch) && lease == Some(Lease(worker, epoch, r.now + ttlMs, false))
    case Yield(worker, epoch) =>
      r.lease.Some? && r.lease.value.worker == worker && r.lease.value.epoch == epoch && lease == Released(r).lease
    case ClaimStep(actor, action, claimant, around) =>
      actor == SystemActor && GoesDormant(r, actor, action, claimant, around) && lease == Released(r).lease
    case _ => false
  }

  lemma LeasesChangeBy(r: Runtime, step: Step)
    ensures Apply(r, step).lease == r.lease || LeaseTaken(r, step, Apply(r, step).lease)
  {
    hide ClaimAutonomous, RunDueWake, Resume, FindSchedule;
    match step {
      case Acquire(worker, ttlMs) => LeasesFollowTheRules(r, worker, 0, ttlMs);
      case Renew(worker, epoch, ttlMs) => LeasesFollowTheRules(r, worker, epoch, ttlMs);
      case Yield(worker, epoch) => HoldersFollowTheRules(r, worker, epoch, 0);
      case ClaimStep(actor, action, claimant, around) => ClaimsFollowTheRules(r, actor, action, claimant, around);
      case WakeStep(actor, action, worker, around) => WakesFollowTheRules(r, actor, action, worker, around);
      case ResumeStep(actor, around) => ResumesFollowTheRule(r, actor, around);
      case _ =>
    }
  }

  /** A step its holder takes on the lease itself, or a claim that may end it. */
  predicate IsByHolder(step: Step, worker: string, epoch: nat) {
    match step
    case Renew(w, e, _) => w == worker && e == epoch
    case Yield(w, e) => w == worker && e == epoch
    case ClaimStep(_, _, claimant, _) => claimant == Claimant(worker, epoch)
    case _ => false
  }

  /** Until it expires nobody but its holder can change a lease, so nobody else gets one. */
  lemma {:induction false} LeasesCannotBeTaken(r: Runtime, steps: seq<Step>, worker: string, epoch: nat)
    requires Inv(r) && HeldBy(r, worker, epoch) && Run(r, steps).now < r.lease.value.expiresAt
    requires forall i :: 0 <= i < |steps| ==> !IsByHolder(steps[i], worker, epoch)
    ensures Run(r, steps).lease == r.lease && HeldBy(Run(r, steps), worker, epoch)
  {
    hide Inv, Apply, GoesDormant;
    if steps == [] {
    } else {
      var rest, last := steps[..|steps| - 1], steps[|steps| - 1];
      RunKeepsInv(r, rest);
      StepKeepsInv(Run(r, rest), last);
      LeasesCannotBeTaken(r, rest, worker, epoch);
      LeasesChangeBy(Run(r, rest), last);
      DormantNeedsTheLease(Run(r, rest), last);
    }
  }

  lemma DormantNeedsTheLease(r: Runtime, step: Step)
    ensures step.ClaimStep? && GoesDormant(r, step.actor, step.action, step.claimant, step.around) ==>
      HeldBy(r, step.claimant.worker, step.claimant.epoch)
  {
  }

  // ---- Who may change what ----

  function ActorOf(step: Step): Option<Actor> {
    match step
    case ResumeStep(actor, _) => Some(actor)
    case PauseStep(actor, _) => Some(actor)
    case ModelStep(actor, _) => Some(actor)
    case RestrictionStep(actor, _, _) => Some(actor)
    case PublishStep(actor, _, _, _) => Some(actor)
    case AddStep(actor, _, _) => Some(actor)
    case ClaimStep(actor, _, _, _) => Some(actor)
    case CompleteStep(actor, _, _, _) => Some(actor)
    case WakeStep(actor, _, _, _) => Some(actor)
    case _ => None
  }

  function WithoutStrangers(steps: seq<Step>): seq<Step> {
    if steps == [] then []
    else
      var last := steps[|steps| - 1];
      WithoutStrangers(steps[..|steps| - 1]) + if ActorOf(last) == Some(OtherActor) then [] else [last]
  }

  /** Whatever strangers send, the run is as if they had sent nothing. */
  lemma {:induction false} StrangersChangeNothing(r: Runtime, steps: seq<Step>)
    ensures Run(r, steps) == Run(r, WithoutStrangers(steps))
  {
    hide Apply;
    if steps == [] {
    } else {
      var rest, last := steps[..|steps| - 1], steps[|steps| - 1];
      StrangersChangeNothing(r, rest);
      if ActorOf(last) == Some(OtherActor) {
        StrangerIsRefused(Run(r, rest), last);
        assert WithoutStrangers(steps) == WithoutStrangers(rest);
      } else {
        var kept := WithoutStrangers(steps);
        assert kept[..|kept| - 1] == WithoutStrangers(rest);
      }
    }
  }

  lemma StrangerIsRefused(r: Runtime, step: Step)
    requires ActorOf(step) == Some(OtherActor)
    ensures Apply(r, step) == r
  {
  }

  /** An activation, by a resume or by a due wake. */
  predicate Activates(r: Runtime, step: Step) {
    match step
    case ResumeStep(actor, around) => actor != OtherActor && CanResume(r, around)
    case WakeStep(actor, action, worker, around) =>
      IsWakeDue(r, actor, action, worker) && !IsLate(r, r.schedules[action].terms) && CanResume(r, around)
    case _ => false
  }

  /** What sends an active runtime dormant. */
  predicate Deactivates(r: Runtime, step: Step) {
    match step
    case PauseStep(actor, reason) => actor != OtherActor && AtRest(r) && PauseAllowed(actor, reason)
    case ReconcileStep(around) => AtRest(r) && ShortOf(around, ShortFlag(around))
    case ModelStep(actor, model) => actor == SystemActor && AtRest(r) && model != Available && model != r.model
    case RestrictionStep(actor, flag, enabled) => actor == SystemActor && AtRest(r) && enabled && IsPolicy(flag) && flag !in r.flags
    case ClaimStep(actor, action, claimant, around) => GoesDormant(r, actor, action, claimant, around)
    case _ => false
  }

  /** The status changes exactly by an activation of a runtime that is not active, or by what ends an active one. */
  lemma StatusChangesBy(r: Runtime, step: Step)
    ensures Apply(r, step).life
         == if r.life != Active && Activates(r, step) then Active
            else if r.life == Active && Deactivates(r, step) then Dormant
            else r.life
  {
    hide ClaimAutonomous, RunDueWake, Resume, FindSchedule, CanResume, WakeFails, FlagsAfterFailure;
    match step {
      case ResumeStep(actor, around) => ResumesFollowTheRule(r, actor, around);
      case PauseStep(actor, reason) => PausesFollowTheRule(r, actor, reason); hide Pause;
      case ReconcileStep(around) =>
        ReconciliationsFollowTheRule(r, around, None, NoActivityEnergy);
        ReconciliationsFollowTheRule(r, around, None, FeeUnfunded);
      case ModelStep(actor, model) => ModelChangesFollowTheRule(r, actor, model);
      case RestrictionStep(actor, flag, enabled) => RestrictionsFollowTheRule(r, actor, flag, enabled);
      case ClaimStep(actor, action, claimant, around) => ClaimsMoveLife(r, actor, action, claimant, around); hide Deactivates;
      case WakeStep(actor, action, worker, around) => WakesFollowTheRules(r, actor, action, worker, around);
      case _ =>
    }
  }

  lemma ClaimsMoveLife(r: Runtime, actor: Actor, action: nat, claimant: Claimant, around: Around)
    ensures var step := ClaimStep(actor, action, claimant, around);
      Apply(r, step).life == if r.life == Active && Deactivates(r, step) then Dormant else r.life
  {
    ClaimsFollowTheRules(r, actor, action, claimant, around);
    hide ClaimAutonomous;
  }

  /** What sets a flag that was not set. */
  predicate Sets(r: Runtime, step: Step, flag: Flag) {
    match step
    case RestrictionStep(actor, policy, enabled) => actor == SystemActor && policy == flag && IsPolicy(flag) && enabled
    case PauseStep(actor, reason) =>
      r.life == Active && actor != OtherActor && reason == PauseFor(flag) && PauseAllowed(actor, reason)
    case ReconcileStep(around) => r.life == Active && ShortOf(around, flag)
    case ClaimStep(actor, action, claimant, around) =>
      r.life == Active && GoesDormant(r, actor, action, claimant, around) && ShortOf(around, flag)
    case WakeStep(actor, action, worker, around) =>
      && IsWakeDue(r, actor, action, worker) && WakeFails(r, around) && flag in FlagsAfterFailure(r, around)
      && (flag == FeeUnfunded || flag == NoActivityEnergy)
    case _ => false
  }

  /** What clears a flag that was set. */
  predicate Clears(r: Runtime, step: Step, flag: Flag) {
    match flag
    case M03Context => step.ContextProviderAdopted?
    case NoModelRoute => step.PublishStep? && step.actor == SystemActor && step.available
    case NoActivityEnergy => r.life != Active && Activates(r, step)
    case FeeUnfunded => r.life != Active && Activates(r, step)
    case _ => step == RestrictionStep(SystemActor, flag, false)
  }

  lemma FlagsChangeBy(r: Runtime, step: Step, flag: Flag)
    ensures flag !in r.flags && flag in Apply(r, step).flags ==> Sets(r, step, flag)
    ensures flag in r.flags && flag !in Apply(r, step).flags ==> Clears(r, step, flag)
  {
    hide Apply, Sets, Clears;
    match step {
      case ClaimStep(actor, action, claimant, around) => ClaimsMoveFlags(r, actor, action, claimant, around, flag);
      case WakeStep(actor, action, worker, around) => WakesMoveFlags(r, actor, action, worker, around, flag);
      case ResumeStep(actor, around) => ResumesMoveFlags(r, actor, around, flag);
      case ReconcileStep(around) => ReconciliationsMoveFlags(r, around, flag);
      case RestrictionStep(actor, policy, enabled) => RestrictionsMoveFlags(r, actor, policy, enabled, flag);
      case _ => OthersMoveFlags(r, step, flag);
    }
  }

  lemma ResumesMoveFlags(r: Runtime, actor: Actor, around: Around, flag: Flag)
    ensures var step := ResumeStep(actor, around);
      && (flag in Apply(r, step).flags ==> flag in r.flags)
      && (flag in r.flags && flag !in Apply(r, step).flags ==> Clears(r, step, flag))
  {
    ResumesFollowTheRule(r, actor, around);
    hide Resume, CanResume;
  }

  lemma ReconciliationsMoveFlags(r: Runtime, around: Around, flag: Flag)
    ensures var step := ReconcileStep(around);
      && (flag !in r.flags && flag in Apply(r, step).flags ==> Sets(r, step, flag))
      && r.flags <= Apply(r, step).flags
  {
    ReconciliationsFollowTheRule(r, around, None, NoActivityEnergy);
    ReconciliationsFollowTheRule(r, around, None, FeeUnfunded);
  }

  lemma RestrictionsMoveFlags(r: Runtime, actor: Actor, policy: Flag, enabled: bool, flag: Flag)
    ensures var step := RestrictionStep(actor, policy, enabled);
      && (flag !in r.flags && flag in Apply(r, step).flags ==> Sets(r, step, flag))
      && (flag in r.flags && flag !in Apply(r, step).flags ==> Clears(r, step, flag))
  {
    RestrictionsFollowTheRule(r, actor, policy, enabled);
    hide Activates;
  }

  lemma OthersMoveFlags(r: Runtime, step: Step, flag: Flag)
    requires !step.ClaimStep? && !step.WakeStep? && !step.ResumeStep? && !step.ReconcileStep? && !step.RestrictionStep?
    ensures flag !in r.flags && flag in Apply(r, step).flags ==> Sets(r, step, flag)
    ensures flag in r.flags && flag !in Apply(r, step).flags ==> Clears(r, step, flag)
  {
    hide Activates, FindSchedule;
    match step {
      case PauseStep(actor, reason) => PausesFollowTheRule(r, actor, reason);
      case PublishStep(actor, expectedProfile, manifest, available) =>
        RoutesFollowTheRule(r, actor, expectedProfile, manifest, available);
      case _ =>
    }
  }

  lemma WakesMoveFlags(r: Runtime, actor: Actor, action: nat, worker: string, around: Around, flag: Flag)
    ensures var step := WakeStep(actor, action, worker, around);
      && (flag !in r.flags && flag in Apply(r, step).flags ==> Sets(r, step, flag))
      && (flag in r.flags && flag !in Apply(r, step).flags ==> Clears(r, step, flag))
  {
    WakesFollowTheRules(r, actor, action, worker, around);
    hide RunDueWake, CanResume, WakeFails;
  }

  lemma ClaimsMoveFlags(r: Runtime, actor: Actor, action: nat, claimant: Claimant, around: Around, flag: Flag)
    ensures var step := ClaimStep(actor, action, claimant, around);
      && (flag !in r.flags && flag in Apply(r, step).flags ==> Sets(r, step, flag))
      && r.flags <= Apply(r, step).flags
  {
    ClaimsFollowTheRules(r, actor, action, claimant, around);
    hide ClaimAutonomous;
  }

  /** An owner's pause, a budget stop, a quarantine or a suspension holds in every run until the system lifts it. */
  lemma {:induction false} RestrictionsHold(r: Runtime, steps: seq<Step>, flag: Flag)
    requires Inv(r) && IsPolicy(flag) && flag in r.flags
    requires RestrictionStep(SystemActor, flag, false) !in steps
    ensures flag in Run(r, steps).flags && Run(r, steps).life != Active
  {
    hide Inv, Apply;
    if steps == [] {
      RestrictedIsNotActive(r, flag);
    } else {
      var rest, last := steps[..|steps| - 1], steps[|steps| - 1];
      RestrictionsHold(r, rest, flag);
      FlagsChangeBy(Run(r, rest), last, flag);
      RunKeepsInv(r, steps);
      RestrictedIsNotActive(Run(r, steps), flag);
    }
  }

  lemma RestrictedIsNotActive(r: Runtime, flag: Flag)
    requires Inv(r) && flag in r.flags
    ensures r.life != Active
  {
    hide LogOk, CheckpointsOk, SchedulesOk, WakesOk, RoutesOk;
  }
}
