/** What every step of every interleaving keeps of the ledger. */
module Kept {
  import opened Types
  import opened Sums
  import opened Capability
  import opened Limits
  import opened Rows
  import opened Database
  import opened Telemetry
  import opened Admission
  import opened Protocol

  lemma AdmitKeepsDb(w: World, e: LedgerStep)
    requires DbInv(w.db) && e.AdmitStep? && LedgerEnabled(w, e)
    ensures DbInv(DoAdmit(w, e).db) && DbEvolves(w.db, DoAdmit(w, e).db)
  {
    var proc := w.procs[e.p];
    var decision :=
      Decide(w.db, proc.registry, proc.limits, e.authority, e.a, e.prompt, e.source, e.checkedUnix, e.order);
    if decision.Admitted? {
      AdmissionFreezesPolicy(w.db, proc.registry, proc.limits, e.authority, e.a, e.prompt, e.source,
                             e.checkedUnix, e.order, decision);
      InsertKeeps(w.db, e.a, decision.row);
    }
  }

  lemma LedgerStepKeepsDb(w: World, e: LedgerStep)
    requires DbInv(w.db) && LedgerEnabled(w, e)
    ensures DbInv(LedgerNext(w, e).db) && DbEvolves(w.db, LedgerNext(w, e).db)
  {
    match e {
      case CreateAgentStep(p, a, request, session, spawnedBy) =>
        CreateKeeps(w.db, a, NormalizedDef(w.procs[p].runtime, request), session, spawnedBy);
      case CheckDefStep(p, a, request) => assert LedgerNext(w, e).db == w.db;
      case UpdateDefStep(edit) => UpdateDefKeeps(w.db, edit.agent, edit.def);
      case RetireStep(a) => RetireKeeps(w.db, a);
      case AdmitStep(_, _, _, _, _, _, _) => AdmitKeepsDb(w, e);
      case KillRecord(p, k, error) => InterruptKeeps(w.db, w.procs[p].registry, k, Killed, error, w.now, Live);
      case RecoverStep(p, k, error) => InterruptKeeps(w.db, w.procs[p].registry, k, Failed, error, w.now, Recovery);
      case WriteUsage(t) => RecordUsageKeeps(w.db, w.sinks[t].key, w.sinks[t].emitted[w.sinks[t].written]);
    }
  }

  lemma SettleKeepsDb(w: World, t: nat)
    requires DbInv(w.db) && TaskEnabled(w, t, Settle)
    ensures DbInv(SettledDb(w, t)) && DbEvolves(w.db, SettledDb(w, t))
  {
    var k := w.tasks[t].key;
    match w.tasks[t].pc.result {
      case NotRun(error) => AbortKeeps(w.db, k, error, NowSec(w));
      case Finished(ex) =>
        if ex.error.Some? {
          FailKeeps(w.db, k, Failed, ex.error.value, ex, NowSec(w));
        } else {
          CompleteKeeps(w.db, k, ex, NowSec(w));
        }
    }
  }

  lemma TaskStepKeepsDb(w: World, t: nat, step: TaskStep)
    requires DbInv(w.db) && TaskEnabled(w, t, step)
    ensures DbInv(TaskNext(w, t, step).db) && DbEvolves(w.db, TaskNext(w, t, step).db)
  {
    var task := w.tasks[t];
    match step {
      case Claim => ClaimKeeps(w.db, task.key, w.now);
      case Rotate(session) => AssignKeeps(w.db, task.key.agent, session);
      case ConfirmSession(session) => RecordSessionKeeps(w.db, task.key, session);
      case Settle => SettleKeepsDb(w, t);
      case Abort => AbortKeeps(w.db, task.key, task.pc.error, NowSec(w));
      case _ => assert TaskNext(w, t, step).db == w.db;
    }
  }

  /** One step keeps the shape, the single flight and the money of the ledger,
      and never rewrites what a settled turn recorded. */
  lemma StepKeepsDb(w: World, e: Event)
    requires DbInv(w.db) && Enabled(w, e)
    ensures DbInv(Next(w, e).db) && DbEvolves(w.db, Next(w, e).db)
  {
    match e {
      case OnLedger(step) => LedgerStepKeepsDb(w, step);
      case OnServer(step) => assert Next(w, e).db == w.db;
      case OnTask(t, step) => TaskStepKeepsDb(w, t, step);
    }
  }

  /** Every reachable ledger is well shaped, single flight and conserves money,
      and every turn's history from any earlier point is an evolution of it. */
  lemma {:induction false} RunKeepsDb(before: World, events: seq<Event>, after: World)
    requires DbInv(before.db) && Reaches(before, events, after)
    ensures DbInv(after.db) && DbEvolves(before.db, after.db)
    decreases |events|
  {
    if events != [] {
      var mid := Next(before, events[0]);
      StepKeepsDb(before, events[0]);
      RunKeepsDb(mid, events[1..], after);
      EvolutionIsTransitive(before.db, mid.db, after.db);
    }
  }
}
