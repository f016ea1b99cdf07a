/** The protocol's steps in the ledger's columns: what each event of a run leaves
    on the rows it writes, and what a boot and a crash mean for every later one. */
module Steps {
  import opened Types
  import opened Sums
  import opened Capability
  import opened Limits
  import opened Rows
  import opened Database
  import opened Telemetry
  import opened Admission
  import opened Protocol
  import opened Kept
  import opened Claims
  import opened Kills
  import opened KillSafety
  import opened Drain
  import opened Confluence
  import opened Columns
  import opened Verdict

  /** An admission decides by the day, and inserts at most the row it decided on,
      under the agent's next number, with one delivery in the admitting process. */
  lemma AdmissionStep(w: World, e: LedgerStep) returns (decision: Decision)
    requires DbInv(w.db) && e.AdmitStep? && LedgerEnabled(w, e) && w.procs[e.p].limits.Validated()
    ensures Decides(decision, w.db, w.procs[e.p].registry, w.procs[e.p].limits, e.authority, e.a, e.prompt, e.source,
                    e.checkedUnix)
    ensures var v := LedgerNext(w, e);
            if decision.Refused? then v == w
            else
              var k := Key(e.a, MaxSeq(w.db.turns, e.a) + 1);
              && k !in w.db.turns && v.db == w.db.(turns := w.db.turns[k := decision.row])
              && v.tasks == w.tasks[w.nextTask := Task(e.p, k, Accepted)] && v.procs == w.procs
  {
    var proc := w.procs[e.p];
    decision := Decide(w.db, proc.registry, proc.limits, e.authority, e.a, e.prompt, e.source, e.checkedUnix, e.order);
    DecisionIsTheVerdict(w.db, proc.registry, proc.limits, e.authority, e.a, e.prompt, e.source, e.checkedUnix,
                         e.order);
    if decision.Admitted? {
      AdmissionFreezesPolicy(w.db, proc.registry, proc.limits, e.authority, e.a, e.prompt, e.source, e.checkedUnix,
                             e.order, decision);
      InsertKeepsShape(w.db, e.a, decision.row);
    }
  }

  /** A waiting turn ended as never run and a running one as cut short; nothing
      else was touched. */
  predicate KilledIn(before: Db, after: Db, registry: Registry, k: Key, error: string, nowMs: int) {
    && WritesOnly(before, after, k)
    && (k in before.turns ==>
          var r, s := before.turns[k], after.turns[k];
          match r.state
          case Queued => SettledAs(s, Killed, Some(error), nowMs / 1000) && NeverRan(s)
          case Running =>
            && SettledAs(s, Killed, Some(error), nowMs / 1000) && CutShort(before, registry, k.agent, r, s)
            && Timed(r, s, nowMs, Live)
          case _ => s == r)
  }

  /** A running turn ended as a failure cut short; nothing else was touched. */
  predicate RecoveredIn(before: Db, after: Db, registry: Registry, k: Key, error: string, nowMs: int) {
    && WritesOnly(before, after, k)
    && (k in before.turns ==>
          var r, s := before.turns[k], after.turns[k];
          if r.state != Running then s == r
          else
            && SettledAs(s, Failed, Some(error), nowMs / 1000) && CutShort(before, registry, k.agent, r, s)
            && Timed(r, s, nowMs, Recovery))
  }

  /** What an operator's record and a recovery's statement do to the ledger. */
  lemma InterruptionSteps(w: World, p: nat, k: Key, error: string)
    requires p in w.procs
    ensures KilledIn(w.db, LedgerNext(w, KillRecord(p, k, error)).db, w.procs[p].registry, k, error, w.now)
    ensures !w.procs[p].open ==>
              RecoveredIn(w.db, LedgerNext(w, RecoverStep(p, k, error)).db, w.procs[p].registry, k, error, w.now)
  {
    if k in w.db.turns {
      InterruptionColumns(w.db, w.procs[p].registry, k, Killed, error, w.now, Live);
      InterruptionColumns(w.db, w.procs[p].registry, k, Failed, error, w.now, Recovery);
    }
  }

  /** A running turn ended as never run, in failure; a settled one was left alone. */
  predicate AbortedIn(before: Db, after: Db, k: Key, error: string, nowMs: int) {
    && k in before.turns && WritesOnly(before, after, k)
    && if before.turns[k].state != Running then after.turns[k] == before.turns[k]
       else NeverRan(after.turns[k]) && SettledAs(after.turns[k], Failed, Some(error), nowMs / 1000)
  }

  /** A running turn ended as the exchange says; a settled one was left alone. */
  ghost predicate FinishedIn(before: Db, after: Db, k: Key, ex: Exchange, nowMs: int) {
    && k in before.turns && k in after.turns && (before.turns[k].state.Terminal() ==> after == before)
    && (before.turns[k].state == Running ==>
          var r, s := before.turns[k], after.turns[k];
          && Settles(before, after, k, ex)
          && if ex.error.Some? then FailsAs(r, s, Failed, ex.error.value, ex, nowMs / 1000)
             else s.reply == Some(ex.reply) && SettledAs(s, Ok, r.error, nowMs / 1000))
  }

  /** A delivery that finds its turn running settles it by what the provider
      returned, and by a known nothing when there was no call. */
  lemma SettlementSteps(w: World, t: nat)
    requires Alive(w, t) && w.tasks[t].key in w.db.turns
    ensures TaskEnabled(w, t, Settle) ==>
              var k, db := w.tasks[t].key, TaskNext(w, t, Settle).db;
              match w.tasks[t].pc.result
              case NotRun(error) => AbortedIn(w.db, db, k, error, w.now)
              case Finished(ex) => FinishedIn(w.db, db, k, ex, w.now)
    ensures TaskEnabled(w, t, Abort) ==>
              AbortedIn(w.db, TaskNext(w, t, Abort).db, w.tasks[t].key, w.tasks[t].pc.error, w.now)
  {
    var k := w.tasks[t].key;
    if TaskEnabled(w, t, Abort) {
      AbortColumns(w.db, k, w.tasks[t].pc.error, NowSec(w));
    } else if TaskEnabled(w, t, Settle) {
      match w.tasks[t].pc.result {
        case NotRun(error) => AbortColumns(w.db, k, error, NowSec(w));
        case Finished(ex) =>
          if ex.error.Some? {
            FailureColumns(w.db, k, Failed, ex.error.value, ex, NowSec(w));
          } else {
            CompletionColumns(w.db, k, ex, NowSec(w));
          }
      }
    }
  }

  /** A checked definition is the one this server would store; it replaces its
      agent's when its write lands, and writes nothing else. */
  lemma RedefinitionSteps(w: World, p: nat, a: string, request: DefRequest)
    requires p in w.procs && a in w.db.agents
    ensures var def := NormalizedDef(w.procs[p].runtime, request);
            var checked := LedgerNext(w, CheckDefStep(p, a, request));
            && checked.db == w.db
            && checked.edits ==
               if def.provider == w.db.agents[a].def.provider || {} == (set k | k in w.db.turns && k.agent == a)
               then w.edits + {Edit(p, a, def)} else w.edits
    ensures forall edit | edit in w.edits && edit.agent == a ::
              var v := LedgerNext(w, UpdateDefStep(edit));
              && v.edits == w.edits - {edit} && v.db.turns == w.db.turns
              && v.db.agents == w.db.agents[a := w.db.agents[a].(def := edit.def)]
  {
    RedefinitionColumns(w.db, a, NormalizedDef(w.procs[p].runtime, request));
  }

  /** A created agent is stored with the creating server's defaults; a retired one
      was active and idle. */
  lemma AgentSteps(w: World, e: LedgerStep)
    requires LedgerEnabled(w, e) && (e.CreateAgentStep? || e.RetireStep?)
    ensures LedgerNext(w, e).db.turns == w.db.turns
    ensures forall b | b in w.db.agents && b != e.a ::
              b in LedgerNext(w, e).db.agents && LedgerNext(w, e).db.agents[b] == w.db.agents[b]
    ensures e.CreateAgentStep? ==>
              e.a in LedgerNext(w, e).db.agents
              && LedgerNext(w, e).db.agents[e.a] ==
                 AgentRow(NormalizedDef(w.procs[e.p].runtime, e.request), Some(e.session), 0, 0, false, e.spawnedBy)
    ensures e.RetireStep? && e.a in w.db.agents ==>
              e.a in LedgerNext(w, e).db.agents
              && LedgerNext(w, e).db.agents[e.a] == w.db.agents[e.a].(retired :=
                   || w.db.agents[e.a].retired
                   || forall k | k in w.db.turns && k.agent == e.a :: w.db.turns[k].state.Terminal())
  {
    RetirementColumns(w.db, e.a);
  }

  // ---- Boot ----

  predicate OpensGate(e: Event, p: nat) { e == OnServer(Open(p)) }

  ghost predicate Gated(w: World, p: nat) { p < w.nextProc && (p in w.procs ==> !w.procs[p].open) }

  lemma TaskStepStaysGated(w: World, v: World, t: nat, step: TaskStep, p: nat)
    requires TaskEnabled(w, t, step) && Moves(w, v, t, step) && OnlyBookkeeping(w, v, t) && Gated(w, p)
    ensures Gated(v, p)
  {
  }

  lemma StepStaysGated(w: World, e: Event, p: nat)
    requires Named(w) && Enabled(w, e) && Gated(w, p) && !OpensGate(e, p)
    ensures Gated(Next(w, e), p)
  {
    match e {
      case OnLedger(step) => LedgerStepIsLocal(w, step);
      case OnServer(step) => ServerStepIsLocal(w, step);
      case OnTask(t, step) =>
        TaskStepMoves(w, t, step);
        TaskStepBookkeeping(w, t, step);
        TaskStepStaysGated(w, TaskNext(w, t, step), t, step, p);
    }
  }

  lemma GatedClaimsNothing(w: World, e: Event, p: nat, k: Key)
    requires DrainInv(w) && Enabled(w, e) && Gated(w, p)
    requires k in Next(w, e).h.claims && Next(w, e).h.claims[k].proc == p
    ensures k in w.h.claims && w.h.claims[k].proc == p
  {
    OnlyClaimStepsClaim(w, e);
    if e.OnTask? && e.step.Claim? {
      ClaimsNeedAnOpenGate(w, e.t);
    }
  }

  lemma {:induction false} GatedNeverClaims(before: World, events: seq<Event>, after: World, p: nat, k: Key)
    requires ProtocolInv(before) && DrainInv(before) && Gated(before, p) && Reaches(before, events, after)
    requires forall e | e in events :: !OpensGate(e, p)
    requires k in after.h.claims && after.h.claims[k].proc == p
    ensures k in before.h.claims && before.h.claims[k].proc == p
    decreases |events|
  {
    if events != [] {
      StepKeepsProtocol(before, events[0]);
      StepKeepsDrain(before, events[0]);
      StepStaysGated(before, events[0], p);
      GatedNeverClaims(Next(before, events[0]), events[1..], after, p, k);
      GatedClaimsNothing(before, events[0], p, k);
    }
  }

  lemma BootIsGated(w: World, kind: Kind, limits: Limits, registry: Registry, runtime: Runtime)
    requires limits.Validated()
    ensures Enabled(w, OnServer(Boot(kind, limits, registry, runtime)))
    ensures Gated(Next(w, OnServer(Boot(kind, limits, registry, runtime))), w.nextProc)
    ensures Next(w, OnServer(Boot(kind, limits, registry, runtime))).h == w.h
  {
  }

  /** Whatever the ledger holds and whatever else happens, a server that has booted
      claims nothing until its gate is opened. */
  lemma BootedClaimsNothing(
    w: World, kind: Kind, limits: Limits, registry: Registry, runtime: Runtime, events: seq<Event>, after: World,
    k: Key)
    requires ProtocolInv(w) && DrainInv(w) && limits.Validated()
    requires Enabled(w, OnServer(Boot(kind, limits, registry, runtime)))
    requires Reaches(Next(w, OnServer(Boot(kind, limits, registry, runtime))), events, after)
    requires forall e | e in events :: !OpensGate(e, w.nextProc)
    requires k in after.h.claims && k !in w.h.claims
    ensures after.h.claims[k].proc != w.nextProc
  {
    var boot := OnServer(Boot(kind, limits, registry, runtime));
    BootIsGated(w, kind, limits, registry, runtime);
    StepKeepsProtocol(w, boot);
    StepKeepsDrain(w, boot);
    if after.h.claims[k].proc == w.nextProc {
      GatedNeverClaims(Next(w, boot), events, after, w.nextProc, k);
    }
  }

  // ---- Crash ----

  /** Nothing of the process is left: no delivery, and no writer that still has a
      ledger to write to. */
  ghost predicate Dead(w: World, p: nat) {
    && p < w.nextProc && p !in w.procs
    && (forall t | t in w.tasks :: w.tasks[t].proc != p)
    && (forall t | t in w.sinks && w.sinks[t].proc == p :: w.sinks[t].lost)
  }

  /** A process's writers, as they stand. */
  ghost predicate SameWriters(w: World, v: World, p: nat) {
    forall t | t in w.sinks && w.sinks[t].proc == p :: t in v.sinks && v.sinks[t] == w.sinks[t]
  }

  lemma CrashKills(w: World, p: nat)
    requires Named(w) && p in w.procs
    ensures Dead(DoCrash(w, p), p)
    ensures forall t | t in w.sinks && w.sinks[t].proc == p ::
              t in DoCrash(w, p).sinks && DoCrash(w, p).sinks[t] == w.sinks[t].(lost := true)
  {
  }

  lemma LedgerStepStaysDead(w: World, e: LedgerStep, p: nat)
    requires Named(w) && LedgerEnabled(w, e) && Dead(w, p)
    ensures Dead(LedgerNext(w, e), p) && SameWriters(w, LedgerNext(w, e), p)
  {
    LedgerStepIsLocal(w, e);
    if e.AdmitStep? {
      AdmitAddsOneDelivery(w, e);
    }
  }

  lemma ServerStepStaysDead(w: World, e: ServerStep, p: nat)
    requires Named(w) && ServerEnabled(w, e) && Dead(w, p)
    ensures Dead(ServerNext(w, e), p) && SameWriters(w, ServerNext(w, e), p)
  {
  }

  lemma WriterIsTheOwners(w: World, t: nat)
    requires ClaimInv(w) && SinksOwned(w) && t in w.tasks && t in w.sinks
    ensures w.sinks[t].proc == w.tasks[t].proc
  {
    assert SinkOwned(w, t);
  }

  lemma LivingWriters(w: World, t: nat, step: TaskStep, p: nat)
    requires TaskEnabled(w, t, step) && Dead(w, p) && (t in w.sinks ==> w.sinks[t].proc != p)
    ensures SameWriters(w, TaskNext(w, t, step), p) && SameWriters(TaskNext(w, t, step), w, p)
  {
    if step.CallProvider? {
      CallProviderEffect(w, t);
    } else if !step.EmitUsage? {
      TaskStepSinks(w, t, step);
    }
  }

  lemma TaskStepStaysDead(w: World, t: nat, step: TaskStep, p: nat)
    requires ClaimInv(w) && SinksOwned(w) && TaskEnabled(w, t, step) && Dead(w, p)
    ensures Dead(TaskNext(w, t, step), p) && SameWriters(w, TaskNext(w, t, step), p)
  {
    TaskStepIsLocal(w, t, step);
    if t in w.sinks {
      WriterIsTheOwners(w, t);
    }
    LivingWriters(w, t, step, p);
  }

  lemma StepStaysDead(w: World, e: Event, p: nat)
    requires ClaimInv(w) && SinksOwned(w) && Enabled(w, e) && Dead(w, p)
    ensures Dead(Next(w, e), p) && SameWriters(w, Next(w, e), p)
  {
    match e {
      case OnLedger(step) => LedgerStepStaysDead(w, step, p);
      case OnServer(step) => ServerStepStaysDead(w, step, p);
      case OnTask(t, step) => TaskStepStaysDead(w, t, step, p);
    }
  }

  /** What a process did not do between two states: claim, call a provider, or
      write a snapshot. */
  ghost predicate Silent(w: World, v: World, p: nat) {
    && SameWriters(w, v, p)
    && (forall k | k in v.h.claims && v.h.claims[k].proc == p :: k in w.h.claims && w.h.claims[k].proc == p)
    && w.h.launches <= v.h.launches
    && (forall i: nat | |w.h.launches| <= i < |v.h.launches| :: v.h.launches[i].proc != p)
  }

  lemma SilentTwice(u: World, v: World, w: World, p: nat)
    requires Silent(u, v, p) && Silent(v, w, p)
    ensures Silent(u, w, p)
  {
  }

  lemma StepIsSilent(w: World, e: Event, p: nat)
    requires Named(w) && Enabled(w, e) && Dead(w, p) && SameWriters(w, Next(w, e), p)
    ensures Silent(w, Next(w, e), p)
  {
    OnlyClaimStepsClaim(w, e);
    StepExtendsLaunches(w, e);
  }

  /** A process that crashed claims nothing, calls no provider and writes nothing
      more, in any continuation: its writers stay where the crash found them. */
  lemma {:induction false} DeadStaysSilent(before: World, events: seq<Event>, after: World, p: nat)
    requires ProtocolInv(before) && UsageInv(before) && Dead(before, p) && Reaches(before, events, after)
    ensures Silent(before, after, p)
    decreases |events|
  {
    if events != [] {
      var mid := Next(before, events[0]);
      StepKeepsProtocol(before, events[0]);
      StepKeepsUsage(before, events[0]);
      StepStaysDead(before, events[0], p);
      StepIsSilent(before, events[0], p);
      DeadStaysSilent(mid, events[1..], after, p);
      SilentTwice(before, mid, after, p);
    }
  }

  lemma CrashIsFinal(w: World, p: nat, events: seq<Event>, after: World)
    requires ProtocolInv(w) && UsageInv(w) && p in w.procs && Reaches(Next(w, OnServer(Crash(p))), events, after)
    ensures Silent(Next(w, OnServer(Crash(p))), after, p)
    ensures forall t | t in w.sinks && w.sinks[t].proc == p ::
              t in after.sinks && after.sinks[t].written == w.sinks[t].written
  {
    var v := Next(w, OnServer(Crash(p)));
    StepKeepsProtocol(w, OnServer(Crash(p)));
    StepKeepsUsage(w, OnServer(Crash(p)));
    CrashKills(w, p);
    DeadStaysSilent(v, events, after, p);
  }
}
