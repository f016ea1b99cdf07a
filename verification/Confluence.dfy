/** Kill and usage confluence: whatever the interleaving of a kill with the
    detached writer that drains a turn's snapshots in order, the killed row ends
    up holding the last snapshot emitted. */
module Confluence {
  import opened Types
  import opened Capability
  import opened Limits
  import opened Rows
  import opened Database
  import opened Admission
  import opened Protocol
  import opened Kept
  import opened Claims
  import opened Kills

  /** The running or killed row holds exactly the last snapshot written, as
      incomplete; with none written its usage is not known. */
  predicate Reflects(r: TurnRow, written: seq<TokenUsage>) {
    && r.claimedMs.Some?
    && (r.state == Running || r.state == Killed ==>
          if written == [] then r.usageState != UsageReported && (r.state == Killed ==> Unknown(r))
          else r.tokens == Clamped(written[|written| - 1]) && r.usageState == UsageReported && !r.usageComplete)
  }

  predicate Unknown(r: TurnRow) {
    r.tokens == ZERO_TOKENS && (r.usageState == UsageUnreported || r.usageState == UsageNotTracked) && !r.usageComplete
  }

  /** A claimed row goes on reflecting what was written. */
  predicate KeepsReflecting(before: TurnRow, after: TurnRow) {
    && after.claimedMs == before.claimedMs
    && (|| after.state == Ok || after.state == Failed
        || (after.state == before.state && after.tokens == before.tokens
            && after.usageState == before.usageState && after.usageComplete == before.usageComplete)
        || (before.state == Running && after.state == Killed && !after.usageComplete
            && if before.usageState == UsageReported
               then after.tokens == before.tokens && after.usageState == UsageReported
               else Unknown(after)))
  }

  lemma KeptReflection(before: TurnRow, after: TurnRow, written: seq<TokenUsage>)
    requires Reflects(before, written) && KeepsReflecting(before, after)
    ensures Reflects(after, written)
  {
  }

  /** A claimed row takes every snapshot that still means something. */
  lemma SnapshotIsReflected(r: TurnRow, written: seq<TokenUsage>, u: TokenUsage)
    requires Reflects(r, written)
    ensures Reflects(if AcceptsSnapshot(r) then SnapshotRow(r, u) else r, written + [u])
  {
  }

  ghost predicate RowKeeps(before: Db, after: Db, k: Key)
    requires k in before.turns
  {
    k in after.turns && KeepsReflecting(before.turns[k], after.turns[k])
  }

  lemma InterruptKeepsRows(
    db: Db, registry: Registry, j: Key, target: TurnState, error: string, nowMs: int, timing: Timing, k: Key)
    requires k in db.turns && db.turns[k].state != Queued && (target == Killed || target == Failed)
    ensures RowKeeps(db, Interrupt(db, registry, j, target, error, nowMs, timing), k)
  {
  }

  /** Statements other than a claim and a snapshot, on a turn past its claim. */
  lemma LedgerStepRow(w: World, e: LedgerStep, k: Key)
    requires DbInv(w.db) && LedgerEnabled(w, e) && !e.WriteUsage?
    requires k in w.db.turns && w.db.turns[k].state != Queued
    ensures RowKeeps(w.db, LedgerNext(w, e).db, k)
  {
    match e {
      case AdmitStep(_, _, _, _, _, _, _) => AdmitKeepsRows(w, e, k);
      case KillRecord(p, j, error) => InterruptKeepsRows(w.db, w.procs[p].registry, j, Killed, error, w.now, Live, k);
      case RecoverStep(p, j, error) =>
        InterruptKeepsRows(w.db, w.procs[p].registry, j, Failed, error, w.now, Recovery, k);
      case _ =>
    }
  }

  lemma AdmitKeepsRows(w: World, e: LedgerStep, k: Key)
    requires DbInv(w.db) && e.AdmitStep? && LedgerEnabled(w, e) && k in w.db.turns
    ensures k in DoAdmit(w, e).db.turns && DoAdmit(w, e).db.turns[k] == w.db.turns[k]
  {
    if Insertable(w.db, e.a) {
      SingleFlight(w.db, e.a);
    }
  }

  lemma TaskStepRow(w: World, t: nat, step: TaskStep, k: Key)
    requires DbInv(w.db) && TaskEnabled(w, t, step)
    requires k in w.db.turns && w.db.turns[k].state != Queued
    ensures RowKeeps(w.db, TaskNext(w, t, step).db, k)
  {
    if step.Settle? {
      SettleRow(w, t, k);
    }
  }

  lemma FailKeepsRows(db: Db, j: Key, error: string, ex: Exchange, nowSec: int, k: Key)
    requires CostsNonNegative(db) && k in db.turns && db.turns[k].state != Queued
    ensures RowKeeps(db, FailExchange(db, j, Failed, error, ex, nowSec), k)
  {
  }

  lemma CompleteKeepsRows(db: Db, j: Key, ex: Exchange, nowSec: int, k: Key)
    requires CostsNonNegative(db) && k in db.turns && db.turns[k].state != Queued
    ensures RowKeeps(db, CompleteTurn(db, j, ex, nowSec), k)
  {
  }

  lemma SettleRow(w: World, t: nat, k: Key)
    requires TaskEnabled(w, t, Settle)
    requires k in w.db.turns && w.db.turns[k].state != Queued
    ensures RowKeeps(w.db, SettledDb(w, t), k)
  {
    var j := w.tasks[t].key;
    match w.tasks[t].pc.result {
      case NotRun(error) =>
      case Finished(ex) =>
        if ex.error.Some? {
          FailKeepsRows(w.db, j, ex.error.value, ex, NowSec(w), k);
        } else {
          CompleteKeepsRows(w.db, j, ex, NowSec(w), k);
        }
    }
  }

  // ---- The writers ----

  /** The snapshots written for the delivery that claimed `k`. */
  function Written(w: World, t: nat): seq<TokenUsage>
    requires t in w.sinks ==> w.sinks[t].written <= |w.sinks[t].emitted|
  {
    if t in w.sinks then w.sinks[t].emitted[..w.sinks[t].written] else []
  }

  /** A writer belongs to the delivery that claimed its turn and launched it. */
  ghost predicate SinkOwned(w: World, t: nat)
    requires t in w.sinks
  {
    var sink := w.sinks[t];
    && sink.written <= |sink.emitted|
    && sink.key in w.h.claims && w.h.claims[sink.key] == Owner(t, sink.proc)
    && (sink.lost ==> sink.proc !in w.procs)
    && (t in w.tasks ==> w.tasks[t].pc.Launched())
  }

  predicate HasSink(w: World, t: nat)
    requires t in w.tasks
  {
    w.tasks[t].pc.Launched() ==> t in w.sinks
  }

  ghost predicate SinksOwned(w: World) {
    && (forall t: nat | t in w.sinks :: SinkOwned(w, t))
    && (forall t: nat | t in w.tasks :: HasSink(w, t))
  }

  ghost predicate RowReflects(w: World, k: Key)
    requires SinksOwned(w) && k in w.h.claims && k in w.db.turns
  {
    Reflects(w.db.turns[k], Written(w, w.h.claims[k].task))
  }

  ghost predicate UsageInv(w: World) {
    && SinksOwned(w)
    && forall k: Key | k in w.h.claims :: k in w.db.turns && RowReflects(w, k)
  }

  // Ownership of writers.

  lemma SinksStay(w: World, v: World)
    requires SinksOwned(w) && Named(w)
    requires v.h.claims == w.h.claims && v.sinks.Keys == w.sinks.Keys
    requires forall t: nat | t in w.sinks ::
               v.sinks[t] == w.sinks[t] || (v.sinks[t] == w.sinks[t].(lost := true) && w.sinks[t].proc !in v.procs)
    requires forall p: nat | p in v.procs :: p in w.procs || p >= w.nextProc
    requires forall t: nat | t in v.tasks ::
               if t in w.tasks then v.tasks[t] == w.tasks[t] else t >= w.nextTask && !v.tasks[t].pc.Launched()
    requires forall k: Key | k in w.h.claims :: w.h.claims[k].task < w.nextTask && w.h.claims[k].proc < w.nextProc
    ensures SinksOwned(v)
  {
    forall t: nat | t in v.sinks ensures SinkOwned(v, t) {
      assert SinkOwned(w, t);
    }
    forall t: nat | t in v.tasks ensures HasSink(v, t) {
      assert t in w.tasks ==> HasSink(w, t);
    }
  }

  lemma LedgerStepWritesNothing(w: World, e: LedgerStep)
    requires LedgerEnabled(w, e) && !e.WriteUsage?
    ensures LedgerNext(w, e).sinks == w.sinks && LedgerNext(w, e).h.claims == w.h.claims
  {
  }

  lemma LedgerStepKeepsSinks(w: World, e: LedgerStep)
    requires ClaimInv(w) && SinksOwned(w) && LedgerEnabled(w, e) && !e.WriteUsage?
    ensures SinksOwned(LedgerNext(w, e))
  {
    LedgerStepIsLocal(w, e);
    LedgerStepWritesNothing(w, e);
    SinksStay(w, LedgerNext(w, e));
  }

  lemma WriteKeepsSinks(w: World, t: nat)
    requires SinksOwned(w) && LedgerEnabled(w, WriteUsage(t))
    ensures SinksOwned(DoWriteUsage(w, t))
  {
    var v := DoWriteUsage(w, t);
    forall u: nat | u in v.sinks ensures SinkOwned(v, u) {
      assert SinkOwned(w, u);
    }
    forall u: nat | u in v.tasks ensures HasSink(v, u) {
      assert HasSink(w, u);
    }
  }

  lemma ServerStepKeepsSinks(w: World, e: ServerStep)
    requires ClaimInv(w) && SinksOwned(w) && ServerEnabled(w, e)
    ensures SinksOwned(ServerNext(w, e))
  {
    ServerStepIsLocal(w, e);
    SinksStay(w, ServerNext(w, e));
  }

  /** Only the provider call opens a writer and only the stream feeds it. */
  lemma TaskStepSinks(w: World, t: nat, step: TaskStep)
    requires TaskEnabled(w, t, step) && !step.CallProvider? && !step.EmitUsage?
    ensures TaskNext(w, t, step).sinks == w.sinks
  {
  }

  lemma TaskSinksStay(w: World, v: World, t: nat)
    requires SinksOwned(w) && Alive(w, t) && OnlyTask(w, v, t) && v.h.claims == w.h.claims && v.sinks == w.sinks
    requires t in v.tasks ==> v.tasks[t].pc.Launched() == w.tasks[t].pc.Launched()
    ensures SinksOwned(v)
  {
    forall u: nat | u in v.sinks ensures SinkOwned(v, u) {
      assert SinkOwned(w, u);
    }
    forall u: nat | u in v.tasks ensures HasSink(v, u) {
      assert HasSink(w, u);
    }
  }

  lemma ClaimKeepsSinks(w: World, t: nat)
    requires ClaimInv(w) && SinksOwned(w) && TaskEnabled(w, t, TaskStep.Claim)
    ensures SinksOwned(DoClaim(w, t))
  {
    var v := DoClaim(w, t);
    TaskStepIsLocal(w, t, TaskStep.Claim);
    forall u: nat | u in v.sinks ensures SinkOwned(v, u) {
      assert SinkOwned(w, u);
    }
    forall u: nat | u in v.tasks ensures HasSink(v, u) {
      assert HasSink(w, u);
    }
  }

  /** The writer a launch opens, or the writer the stream feeds. */
  lemma NewSinkIsOwned(w: World, v: World, t: nat)
    requires ClaimInv(w) && SinksOwned(w) && Alive(w, t) && OnlyTask(w, v, t) && v.h.claims == w.h.claims
    requires w.tasks[t].pc.OwnsClaim() && t in v.tasks && v.tasks[t].pc.Launched()
    requires t in v.sinks && v.sinks == w.sinks[t := v.sinks[t]]
    requires v.sinks[t].key == w.tasks[t].key && v.sinks[t].proc == w.tasks[t].proc && !v.sinks[t].lost
    requires v.sinks[t].written <= |v.sinks[t].emitted|
    ensures SinksOwned(v)
  {
    forall u: nat | u in v.sinks ensures SinkOwned(v, u) {
      assert u != t ==> SinkOwned(w, u);
    }
    forall u: nat | u in v.tasks ensures HasSink(v, u) {
      assert HasSink(w, u);
    }
  }

  lemma CallKeepsSinks(w: World, t: nat)
    requires ClaimInv(w) && SinksOwned(w) && TaskEnabled(w, t, CallProvider)
    ensures SinksOwned(DoCallProvider(w, t))
  {
    var v := DoCallProvider(w, t);
    TaskStepIsLocal(w, t, CallProvider);
    CallProviderEffect(w, t);
    if Passes(w, t) {
      NewSinkIsOwned(w, v, t);
    } else {
      TaskSinksStay(w, v, t);
    }
  }

  lemma EmitKeepsSinks(w: World, t: nat, u: TokenUsage)
    requires ClaimInv(w) && SinksOwned(w) && TaskEnabled(w, t, EmitUsage(u))
    ensures SinksOwned(TaskNext(w, t, EmitUsage(u)))
  {
    TaskStepIsLocal(w, t, EmitUsage(u));
    assert SinkOwned(w, t);
    NewSinkIsOwned(w, TaskNext(w, t, EmitUsage(u)), t);
  }

  lemma OtherStepKeepsSinks(w: World, t: nat, step: TaskStep)
    requires ClaimInv(w) && SinksOwned(w) && TaskEnabled(w, t, step)
    requires !step.Claim? && !step.CallProvider? && !step.EmitUsage?
    ensures SinksOwned(TaskNext(w, t, step))
  {
    TaskStepIsLocal(w, t, step);
    TaskStepClaims(w, t, step);
    TaskStepLaunches(w, t, step);
    TaskStepSinks(w, t, step);
    TaskSinksStay(w, TaskNext(w, t, step), t);
  }

  lemma TaskStepKeepsSinks(w: World, t: nat, step: TaskStep)
    requires ClaimInv(w) && SinksOwned(w) && TaskEnabled(w, t, step)
    ensures SinksOwned(TaskNext(w, t, step))
  {
    if step.Claim? {
      ClaimKeepsSinks(w, t);
    } else if step.CallProvider? {
      CallKeepsSinks(w, t);
    } else if step.EmitUsage? {
      EmitKeepsSinks(w, t, step.usage);
    } else {
      OtherStepKeepsSinks(w, t, step);
    }
  }

  // ---- The row ----

  /** A step that writes no snapshot leaves what was written and keeps the row
      reflecting it. */
  lemma RowGoesOnReflecting(w: World, v: World, k: Key)
    requires UsageInv(w) && SinksOwned(v) && k in w.h.claims && k in v.h.claims && v.h.claims[k] == w.h.claims[k]
    requires k in w.db.turns && RowKeeps(w.db, v.db, k)
    requires var t := w.h.claims[k].task; Written(v, t) == Written(w, t)
    ensures RowReflects(v, k)
  {
    assert RowReflects(w, k);
    KeptReflection(w.db.turns[k], v.db.turns[k], Written(w, w.h.claims[k].task));
  }

  lemma UsageStays(w: World, v: World)
    requires UsageInv(w) && SinksOwned(v) && v.h.claims == w.h.claims && v.sinks == w.sinks
    requires forall k: Key | k in w.h.claims :: k in w.db.turns && RowKeeps(w.db, v.db, k)
    ensures UsageInv(v)
  {
    forall k: Key | k in v.h.claims ensures k in v.db.turns && RowReflects(v, k) {
      RowGoesOnReflecting(w, v, k);
    }
  }

  lemma ClaimedIsNotQueued(w: World, k: Key)
    requires ClaimInv(w) && k in w.h.claims
    ensures k in w.db.turns && w.db.turns[k].state != Queued
  {
  }

  lemma LedgerStepKeepsUsage(w: World, e: LedgerStep)
    requires DbInv(w.db) && ClaimInv(w) && UsageInv(w) && LedgerEnabled(w, e) && !e.WriteUsage?
    ensures UsageInv(LedgerNext(w, e))
  {
    LedgerStepKeepsSinks(w, e);
    LedgerStepWritesNothing(w, e);
    forall k: Key | k in w.h.claims ensures k in w.db.turns && RowKeeps(w.db, LedgerNext(w, e).db, k) {
      ClaimedIsNotQueued(w, k);
      LedgerStepRow(w, e, k);
    }
    UsageStays(w, LedgerNext(w, e));
  }

  lemma WriteIsReflected(w: World, t: nat)
    requires UsageInv(w) && LedgerEnabled(w, WriteUsage(t)) && SinkOwned(w, t)
    ensures var v := DoWriteUsage(w, t);
            var k := w.sinks[t].key;
            Written(v, t) == Written(w, t) + [w.sinks[t].emitted[w.sinks[t].written]]
            && k in v.db.turns && Reflects(v.db.turns[k], Written(v, t))
  {
    var v := DoWriteUsage(w, t);
    var sink := w.sinks[t];
    assert RowReflects(w, sink.key);
    SnapshotIsReflected(w.db.turns[sink.key], Written(w, t), sink.emitted[sink.written]);
    assert Written(v, t) == Written(w, t) + [sink.emitted[sink.written]];
  }

  lemma WriteKeepsUsage(w: World, t: nat)
    requires ClaimInv(w) && UsageInv(w) && LedgerEnabled(w, WriteUsage(t))
    ensures UsageInv(DoWriteUsage(w, t))
  {
    var v := DoWriteUsage(w, t);
    WriteKeepsSinks(w, t);
    assert SinkOwned(w, t);
    WriteIsReflected(w, t);
    forall k: Key | k in v.h.claims ensures k in v.db.turns && RowReflects(v, k) {
      assert RowReflects(w, k);
      if k != w.sinks[t].key {
        assert w.h.claims[k].task != t;
      }
    }
  }

  lemma ServerStepKeepsUsage(w: World, e: ServerStep)
    requires ClaimInv(w) && UsageInv(w) && ServerEnabled(w, e)
    ensures UsageInv(ServerNext(w, e))
  {
    var v := ServerNext(w, e);
    ServerStepKeepsSinks(w, e);
    forall k: Key | k in v.h.claims ensures k in v.db.turns && RowReflects(v, k) {
      assert RowReflects(w, k);
    }
  }

  /** Opening a writer or feeding it writes nothing yet. */
  lemma NothingWrittenYet(w: World, v: World, t: nat, u: nat)
    requires SinksOwned(w) && SinksOwned(v) && t in v.sinks && v.sinks == w.sinks[t := v.sinks[t]]
    requires if t in w.sinks then v.sinks[t].written == w.sinks[t].written && w.sinks[t].emitted <= v.sinks[t].emitted
             else v.sinks[t].written == 0
    ensures Written(v, u) == Written(w, u)
  {
    assert t in w.sinks ==> SinkOwned(w, t);
  }

  /** A task step other than the claim leaves every turn's written snapshots. */
  lemma TaskStepWritten(w: World, t: nat, step: TaskStep, u: nat)
    requires TaskEnabled(w, t, step) && SinksOwned(w) && SinksOwned(TaskNext(w, t, step))
    ensures Written(TaskNext(w, t, step), u) == Written(w, u)
  {
    var v := TaskNext(w, t, step);
    if step.CallProvider? {
      CallProviderEffect(w, t);
      assert t in w.sinks ==> SinkOwned(w, t);
      if Passes(w, t) {
        NothingWrittenYet(w, v, t, u);
      }
    } else if step.EmitUsage? {
      NothingWrittenYet(w, v, t, u);
    } else {
      TaskStepSinks(w, t, step);
    }
  }

  lemma TaskStepKeepsUsage(w: World, t: nat, step: TaskStep)
    requires DbInv(w.db) && ClaimInv(w) && UsageInv(w) && TaskEnabled(w, t, step) && !step.Claim?
    ensures UsageInv(TaskNext(w, t, step))
  {
    var v := TaskNext(w, t, step);
    TaskStepKeepsSinks(w, t, step);
    TaskStepClaims(w, t, step);
    forall k: Key | k in v.h.claims ensures k in v.db.turns && RowReflects(v, k) {
      TaskStepRow(w, t, step, k);
      TaskStepWritten(w, t, step, w.h.claims[k].task);
      RowGoesOnReflecting(w, v, k);
    }
  }

  lemma ClaimKeepsUsage(w: World, t: nat)
    requires DbInv(w.db) && ClaimInv(w) && UsageInv(w) && TaskEnabled(w, t, TaskStep.Claim)
    ensures UsageInv(DoClaim(w, t))
  {
    var v := DoClaim(w, t);
    ClaimKeepsSinks(w, t);
    var j := w.tasks[t].key;
    assert t in w.sinks ==> SinkOwned(w, t);
    assert j in w.db.turns ==> RowInv(w.db.turns[j]);
    forall k: Key | k in v.h.claims ensures k in v.db.turns && RowReflects(v, k) {
      assert k in w.h.claims ==> RowReflects(w, k);
    }
  }

  lemma StepKeepsUsage(w: World, e: Event)
    requires DbInv(w.db) && ClaimInv(w) && UsageInv(w) && Enabled(w, e)
    ensures UsageInv(Next(w, e))
  {
    match e {
      case OnLedger(step) =>
        if step.WriteUsage? {
          WriteKeepsUsage(w, step.t);
        } else {
          LedgerStepKeepsUsage(w, step);
        }
      case OnServer(step) => ServerStepKeepsUsage(w, step);
      case OnTask(t, step) =>
        if step.Claim? {
          ClaimKeepsUsage(w, t);
        } else {
          TaskStepKeepsUsage(w, t, step);
        }
    }
  }

  lemma {:induction false} RunKeepsUsage(before: World, events: seq<Event>, after: World)
    requires DbInv(before.db) && ClaimInv(before) && UsageInv(before) && Reaches(before, events, after)
    ensures DbInv(after.db) && ClaimInv(after) && UsageInv(after)
    decreases |events|
  {
    if events != [] {
      StepKeepsDb(before, events[0]);
      StepKeepsClaims(before, events[0]);
      StepKeepsUsage(before, events[0]);
      RunKeepsUsage(Next(before, events[0]), events[1..], after);
    }
  }

  /** What a drained writer leaves on a killed row. */
  predicate HoldsTheLast(r: TurnRow, emitted: seq<TokenUsage>) {
    && !r.usageComplete
    && if emitted == [] then r.usageState != UsageReported && r.tokens == ZERO_TOKENS
       else r.usageState == UsageReported && r.tokens == Clamped(emitted[|emitted| - 1])
  }

  lemma DrainedRowHoldsTheLast(w: World, k: Key)
    requires UsageInv(w) && InState(w.db, k, Killed) && k in w.h.claims && Drained(w, w.h.claims[k].task)
    ensures HoldsTheLast(w.db.turns[k], w.sinks[w.h.claims[k].task].emitted)
  {
    var t := w.h.claims[k].task;
    assert RowReflects(w, k);
    assert w.sinks[t].emitted[..w.sinks[t].written] == w.sinks[t].emitted;
  }

  /** However the kill, the stream and the writer interleaved: once the writer
      has drained, the killed row holds exactly the last snapshot emitted, as
      reported and incomplete, and nothing when none was emitted. */
  lemma KilledRowHoldsTheLastSnapshot(start: World, events: seq<Event>, w: World, k: Key)
    requires Initial(start) && Reaches(start, events, w)
    requires InState(w.db, k, Killed) && k in w.h.claims && Drained(w, w.h.claims[k].task)
    ensures HoldsTheLast(w.db.turns[k], w.sinks[w.h.claims[k].task].emitted)
  {
    RunKeepsUsage(start, events, w);
    DrainedRowHoldsTheLast(w, k);
  }

  // ---- Killed while queued ----

  predicate KnownZero(r: TurnRow) {
    && r.state == Killed && r.claimedMs.None?
    && r.cost == 0 && r.costState == CostReported && r.costComplete
    && r.tokens == ZERO_TOKENS && r.usageState == UsageReported && r.usageComplete
    && r.providerTurns == Some(0) && r.elapsedState == NotAttempted
  }

  ghost predicate QueuedKillsAreZero(w: World) {
    forall k: Key | k in w.h.killedQueued :: k in w.db.turns && KnownZero(w.db.turns[k])
  }

  /** Only the record of a kill adds to the queued kills. */
  lemma QueuedKillsGrow(w: World, e: Event, k: Key)
    requires Enabled(w, e) && k in Next(w, e).h.killedQueued && k !in w.h.killedQueued
    ensures e.OnLedger? && e.ledger.KillRecord? && e.ledger.k == k && InState(w.db, k, Queued)
  {
    match e {
      case OnLedger(step) =>
      case OnServer(step) =>
      case OnTask(t, step) => TaskStepHistory(w, t, step);
    }
  }

  lemma QueuedKillIsZero(w: World, p: nat, k: Key, error: string)
    requires DbInv(w.db) && LedgerEnabled(w, KillRecord(p, k, error)) && InState(w.db, k, Queued)
    ensures var v := DoKillRecord(w, p, k, error); k in v.db.turns && KnownZero(v.db.turns[k])
  {
    assert RowInv(w.db.turns[k]);
  }

  lemma StepKeepsQueuedKills(w: World, e: Event)
    requires DbInv(w.db) && Enabled(w, e) && QueuedKillsAreZero(w)
    ensures QueuedKillsAreZero(Next(w, e))
  {
    var v := Next(w, e);
    StepKeepsDb(w, e);
    forall k: Key | k in v.h.killedQueued ensures k in v.db.turns && KnownZero(v.db.turns[k]) {
      if k in w.h.killedQueued {
        assert Evolves(w.db.turns[k], v.db.turns[k]);
      } else {
        QueuedKillsGrow(w, e, k);
        QueuedKillIsZero(w, e.ledger.p, k, e.ledger.error);
      }
    }
  }

  /** A turn killed while it was queued cost nothing and used nothing, is known
      to have, and no late snapshot ever says otherwise. */
  lemma {:induction false} KilledQueuedStaysZero(before: World, events: seq<Event>, after: World)
    requires DbInv(before.db) && QueuedKillsAreZero(before) && Reaches(before, events, after)
    ensures QueuedKillsAreZero(after)
    decreases |events|
  {
    if events != [] {
      StepKeepsDb(before, events[0]);
      StepKeepsQueuedKills(before, events[0]);
      KilledQueuedStaysZero(Next(before, events[0]), events[1..], after);
    }
  }
}
