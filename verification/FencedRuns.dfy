/** The fence over the protocol's own runs: each of its statements is one of the
    fenced ones, so no interleaving of them leaves a row the fence would not. */
module FencedRuns {
  import opened Types
  import opened Capability
  import opened Limits
  import opened Rows
  import opened Database
  import opened Admission
  import opened Protocol
  import opened Kept
  import opened Fence

  /** One fenced statement on one row, or none. */
  ghost predicate IsFencedStatement(before: map<Key, TurnRow>, after: map<Key, TurnRow>) {
    after == before
    || exists k, s, provider, clock :: after == Execute(before, k, s, provider, clock)
  }

  lemma FencedStatementKeeps(before: map<Key, TurnRow>, after: map<Key, TurnRow>)
    requires AllFenced(before) && IsFencedStatement(before, after)
    ensures AllFenced(after)
  {
    if after != before {
      var k, s, provider, clock :| after == Execute(before, k, s, provider, clock);
      StatementKeepsFence(before, k, s, provider, clock);
    }
  }

  lemma InsertionIsFenced(turns: map<Key, TurnRow>, k: Key, row: TurnRow, snapshot: Snapshot)
    requires k !in turns
    requires row == QueuedRow(row.prompt, row.provider, row.atUnix, row.admissionOverride, snapshot)
    ensures IsFencedStatement(turns, turns[k := row])
  {
    var s := Inserts(row.prompt, row.provider, row.atUnix, row.admissionOverride, snapshot);
    assert Execute(turns, k, s, "", 0) == turns[k := row];
  }

  lemma AdmissionIsFenced(w: World, e: LedgerStep)
    requires DbInv(w.db) && e.AdmitStep? && LedgerEnabled(w, e)
    ensures IsFencedStatement(w.db.turns, DoAdmit(w, e).db.turns)
  {
    var proc := w.procs[e.p];
    var decision :=
      Decide(w.db, proc.registry, proc.limits, e.authority, e.a, e.prompt, e.source, e.checkedUnix, e.order);
    if decision.Admitted? {
      AdmissionFreezesPolicy(w.db, proc.registry, proc.limits, e.authority, e.a, e.prompt, e.source, e.checkedUnix,
                             e.order, decision);
      InsertKeeps(w.db, e.a, decision.row);
      InsertionIsFenced(w.db.turns, NextKey(w.db, e.a), decision.row, decision.row.protection.value.snapshot);
    }
  }

  lemma InterruptionIsFenced(
    db: Db, registry: Registry, k: Key, target: TurnState, error: string, nowMs: int, timing: Timing)
    requires AllFenced(db.turns) && target.Terminal()
    ensures IsFencedStatement(db.turns, Interrupt(db, registry, k, target, error, nowMs, timing).turns)
  {
    TriggersSpareInterruptions(db, registry, k, target, error, nowMs, timing, "", 0);
  }

  lemma LedgerStepIsFenced(w: World, e: LedgerStep)
    requires DbInv(w.db) && AllFenced(w.db.turns) && LedgerEnabled(w, e)
    ensures IsFencedStatement(w.db.turns, LedgerNext(w, e).db.turns)
  {
    match e {
      case AdmitStep(_, _, _, _, _, _, _) => AdmissionIsFenced(w, e);
      case KillRecord(p, k, error) => InterruptionIsFenced(w.db, w.procs[p].registry, k, Killed, error, w.now, Live);
      case RecoverStep(p, k, error) =>
        InterruptionIsFenced(w.db, w.procs[p].registry, k, Failed, error, w.now, Recovery);
      case WriteUsage(t) => TriggersSpareCurrentWriters(w.db, w.sinks[t].key, "", 0);
      case _ => assert LedgerNext(w, e).db.turns == w.db.turns;
    }
  }

  lemma SettlementIsFenced(w: World, t: nat)
    requires AllFenced(w.db.turns) && TaskEnabled(w, t, Settle)
    ensures IsFencedStatement(w.db.turns, SettledDb(w, t).turns)
  {
    var k := w.tasks[t].key;
    match w.tasks[t].pc.result {
      case NotRun(error) => TriggersSpareCurrentWriters(w.db, k, "", 0);
      case Finished(ex) =>
        if ex.error.Some? {
          TriggersSpareFailure(w.db, k, Failed, ex.error.value, ex, NowSec(w), "", 0);
        } else {
          TriggersSpareCompletion(w.db, k, ex, NowSec(w), "", 0);
        }
    }
  }

  lemma ConfirmationIsFenced(db: Db, k: Key, id: string)
    ensures IsFencedStatement(db.turns, RecordProviderSession(db, k, id).turns)
  {
    assert RecordProviderSession(db, k, id).turns == Execute(db.turns, k, Confirms(id), "", 0);
  }

  lemma TaskStepIsFenced(w: World, t: nat, step: TaskStep)
    requires AllFenced(w.db.turns) && TaskEnabled(w, t, step)
    ensures IsFencedStatement(w.db.turns, TaskNext(w, t, step).db.turns)
  {
    var k := w.tasks[t].key;
    match step {
      case Claim => TriggersSpareCurrentWriters(w.db, k, "", 0);
      case Abort => TriggersSpareCurrentWriters(w.db, k, "", 0);
      case ConfirmSession(id) => ConfirmationIsFenced(w.db, k, id);
      case Settle => SettlementIsFenced(w, t);
      case _ => assert TaskNext(w, t, step).db.turns == w.db.turns;
    }
  }

  lemma StepKeepsFence(w: World, e: Event)
    requires DbInv(w.db) && AllFenced(w.db.turns) && Enabled(w, e)
    ensures AllFenced(Next(w, e).db.turns)
  {
    match e {
      case OnLedger(step) => LedgerStepIsFenced(w, step);
      case OnServer(step) => assert Next(w, e).db == w.db;
      case OnTask(t, step) => TaskStepIsFenced(w, t, step);
    }
    FencedStatementKeeps(w.db.turns, Next(w, e).db.turns);
  }

  /** Every run of the protocol keeps every row fenced, so the triggers leave
      each of its statements as it is written. */
  lemma {:induction false} RunKeepsFence(before: World, events: seq<Event>, after: World)
    requires DbInv(before.db) && AllFenced(before.db.turns) && Reaches(before, events, after)
    ensures AllFenced(after.db.turns)
    decreases |events|
  {
    if events != [] {
      StepKeepsDb(before, events[0]);
      StepKeepsFence(before, events[0]);
      RunKeepsFence(Next(before, events[0]), events[1..], after);
    }
  }
}
