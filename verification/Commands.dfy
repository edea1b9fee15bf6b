/**
 Idempotent commands (`runCommand` in src/services/core.js): one action row per actor and key, the
 work done under a savepoint, and replays answered from the row. The payload stands for its hash.
 */
module Commands {
  import opened Wrappers
  import opened EventLog
  import opened Ledger
  import opened LedgerInvariants
  import opened LedgerTheorems

  datatype ActionStatus = Pending | Succeeded | Failed

  datatype ActionKey = ActionKey(actor: string, idempotencyKey: string)

  datatype ActionRow = ActionRow(
    actionId: string, actionType: string, payload: Command, status: ActionStatus,
    result: Option<Reply>, errorCode: Option<LedgerProblem>)

  datatype Db = Db(ledger: Ledger, actions: map<ActionKey, ActionRow>)

  datatype CommandProblem =
    | IdempotencyKeyRequired | Unauthenticated | KeyUsedDifferently | NotReplayable | Domain(problem: LedgerProblem)

  datatype Outcome = Outcome(replayed: bool, result: Reply)

  /** What is executed inside the savepoint. After a throw, the tables it leaves behind are of no interest. */
  type Work = Ledger -> (Ledger, Result<Reply, LedgerProblem>)

  datatype Call = Call(actor: string, idempotencyKey: string, actionId: string, actionType: string, payload: Command, work: Work)

  function KeyOf(call: Call): ActionKey {
    ActionKey(call.actor, call.idempotencyKey)
  }

  predicate IsActive(l: Ledger, actor: string) {
    actor in l.entities && l.entities[actor].isActive
  }

  function ActionEvent(l: Ledger, actionId: string, eventType: string): Ledger {
    l.(log := Append(l.log, Aggregate("ACTION", actionId), eventType))
  }

  function Answer(row: ActionRow): Result<Outcome, CommandProblem> {
    if row.status == Succeeded && row.result.Some? then Ok(Outcome(true, row.result.value))
    else if row.errorCode.Some? then Err(Domain(row.errorCode.value))
    else Err(NotReplayable)
  }

  function Run(db: Db, call: Call): (Db, Result<Outcome, CommandProblem>) {
    var key := KeyOf(call);
    if call.idempotencyKey == "" then (db, Err(IdempotencyKeyRequired))
    else if !IsActive(db.ledger, call.actor) then (db, Err(Unauthenticated))
    else if key in db.actions then
      var row := db.actions[key];
      if row.actionType != call.actionType || row.payload != call.payload then (db, Err(KeyUsedDifferently))
      else (db, Answer(row))
    else
      var (after, reply) := call.work(db.ledger);
      match reply
      case Ok(result) =>
        (Db(ActionEvent(after, call.actionId, "ACTION_SUCCEEDED"),
            db.actions[key := ActionRow(call.actionId, call.actionType, call.payload, Succeeded, Some(result), None)]),
         Ok(Outcome(false, result)))
      case Err(problem) =>
        (Db(ActionEvent(db.ledger, call.actionId, "ACTION_FAILED"),
            db.actions[key := ActionRow(call.actionId, call.actionType, call.payload, Failed, None, Some(problem))]),
         Err(Domain(problem)))
  }

  function RunCalls(db: Db, calls: seq<Call>): Db {
    if calls == [] then db else Run(RunCalls(db, calls[..|calls| - 1]), calls[|calls| - 1]).0
  }

  lemma {:induction false} ActionsStay(db: Db, calls: seq<Call>)
    ensures forall key :: key in db.actions ==>
      key in RunCalls(db, calls).actions && RunCalls(db, calls).actions[key] == db.actions[key]
  {
    if calls == [] {
    } else {
      ActionsStay(db, calls[..|calls| - 1]);
    }
  }

  function AsReplay(reply: Result<Outcome, CommandProblem>): Result<Outcome, CommandProblem> {
    if reply.Ok? then Ok(reply.value.(replayed := true)) else reply
  }

  /**
   Whatever a command's work does, sending the command again, after any other commands, changes
   nothing and is answered as the first time.
   */
  lemma RunningAgainIsRunningOnce(db: Db, call: Call, others: seq<Call>)
    requires call.idempotencyKey != "" && IsActive(db.ledger, call.actor) && KeyOf(call) !in db.actions
    ensures var (first, reply) := Run(db, call);
      var later := RunCalls(first, others);
      && Run(later, call).0 == later
      && (IsActive(later.ledger, call.actor) ==> Run(later, call).1 == AsReplay(reply))
  {
    ActionsStay(Run(db, call).0, others);
  }

  /** A key reused for anything else is refused, after any run, and nothing changes. */
  lemma ReusedKeyIsRefused(db: Db, call: Call, others: seq<Call>, reuse: Call)
    requires call.idempotencyKey != "" && IsActive(db.ledger, call.actor) && KeyOf(call) !in db.actions
    requires KeyOf(reuse) == KeyOf(call) && (reuse.actionType != call.actionType || reuse.payload != call.payload)
    ensures var later := RunCalls(Run(db, call).0, others);
      && Run(later, reuse).0 == later
      && Run(later, reuse).1.Err? && Run(later, reuse).1.error in {KeyUsedDifferently, Unauthenticated}
  {
    ActionsStay(Run(db, call).0, others);
  }

  /** A failed command leaves every table as it was, whatever its work had written, and logs one event. */
  lemma FailureRollsBack(db: Db, call: Call)
    requires Run(db, call).1.Err?
    ensures var after := Run(db, call).0.ledger;
      && after.(log := db.ledger.log) == db.ledger
      && (after.log == db.ledger.log || after.log == Append(db.ledger.log, Aggregate("ACTION", call.actionId), "ACTION_FAILED"))
  {
  }

  /** A call whose work is the ledger command its payload names. */
  ghost predicate IsLedgerCall(call: Call) {
    forall l :: call.work(l) == (Execute(l, call.actor, call.payload).after, Execute(l, call.actor, call.payload).reply)
  }

  /** The ledger stays safe under commands given through `runCommand`, replayed and reused at will. */
  lemma {:induction false} CommandsKeepLedgerSafe(db: Db, calls: seq<Call>)
    requires LedgerOk(db.ledger) && forall i :: 0 <= i < |calls| ==> IsLedgerCall(calls[i])
    ensures LedgerOk(RunCalls(db, calls).ledger) && Extends(db.ledger, RunCalls(db, calls).ledger)
  {
    hide LedgerOk, Extends, Execute;
    if calls == [] {
      ExtendsReflexive(db.ledger);
    } else {
      var before, last := RunCalls(db, calls[..|calls| - 1]), calls[|calls| - 1];
      CommandsKeepLedgerSafe(db, calls[..|calls| - 1]);
      ExecuteKeepsOk(before.ledger, last.actor, last.payload);
      var done := Execute(before.ledger, last.actor, last.payload).after;
      EventKeepsOk(done, Aggregate("ACTION", last.actionId), "ACTION_SUCCEEDED");
      EventKeepsOk(before.ledger, Aggregate("ACTION", last.actionId), "ACTION_FAILED");
      ExtendsTransitive(before.ledger, done, ActionEvent(done, last.actionId, "ACTION_SUCCEEDED"));
      assert IsLedgerCall(last);
      ExtendsReflexive(before.ledger);
      ExtendsTransitive(db.ledger, before.ledger, RunCalls(db, calls).ledger);
    }
  }
}
