/** Frozen protection, from admission to launch: a turn runs under exactly the
    ceiling it was admitted with, on the provider it was admitted for. */
module Frozen {
  import opened Types
  import opened Sums
  import opened Capability
  import opened Limits
  import opened Rows
  import opened Database
  import opened Telemetry
  import opened Admission
  import opened Protocol
  import opened Kept
  import opened Claims
  import opened Kills
  import opened KillSafety

  /** A plan is what the row's protection allows under the process's registry. */
  predicate PlanFrozen(db: Db, registry: Registry, k: Key, plan: Plan) {
    && k in db.turns && plan.provider == db.turns[k].provider
    && ProtectedCeiling(db.turns[k], plan.provider, registry) == Runs(plan.ceiling)
  }

  predicate TaskFrozen(w: World, task: Task)
    requires task.proc in w.procs
  {
    match task.pc
    case Rotating(plan) => PlanFrozen(w.db, w.procs[task.proc].registry, task.key, plan)
    case Ready(plan) => PlanFrozen(w.db, w.procs[task.proc].registry, task.key, plan)
    case _ => true
  }

  /** What every launch of a row must carry. */
  predicate LaunchFrozen(db: Db, l: Launch) {
    && l.key in db.turns
    && var turn := db.turns[l.key];
       && l.plan.provider == turn.provider
       && BoundariesHeld(l.caps, l.plan.wants)
       && turn.protection.Some? && turn.protection.value.Stored?
       && var s := turn.protection.value.snapshot;
          && s.state == turn.protectionState
          && match s.state
             case Enforced =>
               && l.plan.ceiling.Some?
               && s == EnforcedSnapshot(turn.provider, l.plan.ceiling.value.limit, l.plan.ceiling.value.capability)
               && l.caps.turnCeiling == Some(l.plan.ceiling.value.capability)
             case Unbounded => l.plan.ceiling.None? && s == UnboundedSnapshot(turn.provider)
             case OverrideUnavailable =>
               && l.plan.ceiling.None? && l.caps.turnCeiling.None?
               && s.audit.Some? && !Blank(s.audit.value.reason) && !Blank(s.audit.value.source)
             case LegacyProtection => false
  }

  ghost predicate FrozenInv(w: World) {
    && (forall t: nat | t in w.tasks :: w.tasks[t].proc in w.procs && TaskFrozen(w, w.tasks[t]))
    && (forall i: nat | i < |w.h.launches| :: LaunchFrozen(w.db, w.h.launches[i]))
  }

  lemma PlanStaysFrozen(before: Db, after: Db, registry: Registry, k: Key, plan: Plan)
    requires DbEvolves(before, after) && PlanFrozen(before, registry, k, plan)
    ensures PlanFrozen(after, registry, k, plan)
  {
    assert Evolves(before.turns[k], after.turns[k]);
  }

  lemma LaunchStaysFrozen(before: Db, after: Db, l: Launch)
    requires DbEvolves(before, after) && LaunchFrozen(before, l)
    ensures LaunchFrozen(after, l)
  {
    assert Evolves(before.turns[l.key], after.turns[l.key]);
  }

  /** Tasks that did not move keep their plan. */
  lemma TaskStaysFrozen(w: World, v: World, t: nat)
    requires DbEvolves(w.db, v.db) && t in w.tasks && w.tasks[t].proc in w.procs && TaskFrozen(w, w.tasks[t])
    requires w.tasks[t].proc in v.procs && v.procs[w.tasks[t].proc].registry == w.procs[w.tasks[t].proc].registry
    ensures TaskFrozen(v, w.tasks[t])
  {
    match w.tasks[t].pc {
      case Rotating(plan) => PlanStaysFrozen(w.db, v.db, w.procs[w.tasks[t].proc].registry, w.tasks[t].key, plan);
      case Ready(plan) => PlanStaysFrozen(w.db, v.db, w.procs[w.tasks[t].proc].registry, w.tasks[t].key, plan);
      case _ =>
    }
  }

  /** The last gate lets through only what the row's protection froze. */
  lemma CallIsFrozen(w: World, t: nat)
    requires TaskEnabled(w, t, CallProvider) && TaskFrozen(w, w.tasks[t]) && Passes(w, t)
    ensures LaunchFrozen(w.db, LaunchOf(w, t))
  {
    var plan := w.tasks[t].pc.plan;
    var registry := w.procs[w.tasks[t].proc].registry;
    var turn := w.db.turns[w.tasks[t].key];
    GateIsExact(registry[plan.provider], IntentOf(plan));
    var s := turn.protection.value.snapshot;
    ExecutionAcceptsOnlyWhatAdmissionBuilds(
      s, turn.protectionState, turn.provider, registry[plan.provider].turnCeiling);
  }

  lemma RotationStaysFrozen(w: World, t: nat, session: string)
    requires TaskEnabled(w, t, Rotate(session)) && TaskFrozen(w, w.tasks[t])
    ensures TaskFrozen(DoRotate(w, t, session), DoRotate(w, t, session).tasks[t])
  {
  }

  lemma LoadIsFrozen(w: World, t: nat, mcpReady: bool)
    requires TaskEnabled(w, t, LoadTurn(mcpReady))
    ensures TaskFrozen(DoLoadTurn(w, t, mcpReady), DoLoadTurn(w, t, mcpReady).tasks[t])
  {
  }

  /** Only a load or a rotation leaves a task with a plan it has yet to launch. */
  lemma OtherStepsHoldNoPlan(w: World, t: nat, step: TaskStep)
    requires TaskEnabled(w, t, step) && !step.LoadTurn? && !step.Rotate? && t in TaskNext(w, t, step).tasks
    ensures !TaskNext(w, t, step).tasks[t].pc.Rotating? && !TaskNext(w, t, step).tasks[t].pc.Ready?
  {
  }

  lemma OwnStepStaysFrozen(w: World, t: nat, step: TaskStep)
    requires TaskEnabled(w, t, step) && TaskFrozen(w, w.tasks[t])
    requires t in TaskNext(w, t, step).tasks && TaskNext(w, t, step).tasks[t].proc in TaskNext(w, t, step).procs
    ensures TaskFrozen(TaskNext(w, t, step), TaskNext(w, t, step).tasks[t])
  {
    if step.LoadTurn? {
      LoadIsFrozen(w, t, step.mcpReady);
    } else if step.Rotate? {
      RotationStaysFrozen(w, t, step.session);
    } else {
      OtherStepsHoldNoPlan(w, t, step);
    }
  }

  lemma NextLaunchIsFrozen(w: World, e: Event, i: nat)
    requires FrozenInv(w) && Enabled(w, e) && DbEvolves(w.db, Next(w, e).db) && i < |Next(w, e).h.launches|
    ensures LaunchFrozen(Next(w, e).db, Next(w, e).h.launches[i])
  {
    StepExtendsLaunches(w, e);
    if i < |w.h.launches| {
      LaunchStaysFrozen(w.db, Next(w, e).db, w.h.launches[i]);
    } else {
      CallIsFrozen(w, e.t);
      LaunchStaysFrozen(w.db, Next(w, e).db, LaunchOf(w, e.t));
    }
  }

  lemma LaunchesStayFrozen(w: World, e: Event)
    requires DbInv(w.db) && FrozenInv(w) && Enabled(w, e)
    ensures forall i: nat | i < |Next(w, e).h.launches| :: LaunchFrozen(Next(w, e).db, Next(w, e).h.launches[i])
  {
    StepKeepsDb(w, e);
    forall i: nat | i < |Next(w, e).h.launches| ensures LaunchFrozen(Next(w, e).db, Next(w, e).h.launches[i]) {
      NextLaunchIsFrozen(w, e, i);
    }
  }

  lemma StepKeepsFrozen(w: World, e: Event)
    requires ProtocolInv(w) && FrozenInv(w) && Enabled(w, e)
    ensures FrozenInv(Next(w, e))
  {
    var v := Next(w, e);
    StepKeepsProtocol(w, e);
    LaunchesStayFrozen(w, e);
    forall t: nat | t in v.tasks ensures v.tasks[t].proc in v.procs && TaskFrozen(v, v.tasks[t]) {
      if t !in w.tasks {
        NewTasksAreEarly(w, e, t);
      } else if e.OnTask? && e.t == t {
        TaskStepIsLocal(w, t, e.step);
        OwnStepStaysFrozen(w, t, e.step);
      } else {
        OtherTasksStand(w, e, t);
        ProcessesPersist(w, e, w.tasks[t].proc);
        TaskStaysFrozen(w, v, t);
      }
    }
  }

  lemma {:induction false} RunKeepsFrozen(before: World, events: seq<Event>, after: World)
    requires ProtocolInv(before) && FrozenInv(before) && Reaches(before, events, after)
    ensures ProtocolInv(after) && FrozenInv(after)
    decreases |events|
  {
    if events != [] {
      StepKeepsProtocol(before, events[0]);
      StepKeepsFrozen(before, events[0]);
      RunKeepsFrozen(Next(before, events[0]), events[1..], after);
    }
  }

  /** Every launch of every run carries the protection its row was stored with;
      a turn with a legacy or malformed snapshot is never launched. */
  lemma EveryLaunchIsFrozen(start: World, events: seq<Event>, w: World, i: nat)
    requires Initial(start) && Reaches(start, events, w) && i < |w.h.launches|
    ensures LaunchFrozen(w.db, w.h.launches[i])
  {
    InitialHasProtocol(start);
    RunKeepsFrozen(start, events, w);
  }

  /** What the policy at admission requires of a launch. */
  predicate CarriesPolicy(
    l: Launch, provider: string, ceiling: Option<u64>, capability: Option<CeilingCapability>,
    authority: Authority, source: string)
  {
    && l.plan.provider == provider
    && (ceiling.Some? && capability.Some? ==>
          l.plan.ceiling == Some(TurnCeiling(capability.value, ceiling.value)) && l.caps.turnCeiling == capability)
    && (ceiling.Some? && capability.None? ==>
          l.plan.ceiling.None? && l.caps.turnCeiling.None? && authority.Supervised? && !Blank(source))
    && (ceiling.None? ==> l.plan.ceiling.None?)
  }

  lemma FrozenRowCarriesPolicy(
    row: TurnRow, db: Db, l: Launch, prompt: string, provider: string, ceiling: Option<u64>,
    capability: Option<CeilingCapability>, authority: Authority, source: string, checkedUnix: int)
    requires FrozenPolicy(row, prompt, provider, ceiling, capability, authority, source, checkedUnix)
    requires LaunchFrozen(db, l) && Evolves(row, db.turns[l.key])
    ensures CarriesPolicy(l, provider, ceiling, capability, authority, source)
  {
  }

  /** From admission to launch, however much later and in whichever process: a
      turn admitted under a configured ceiling runs with that very limit and
      capability or, when the provider had none, only by an audited override and
      on a provider that still has none; without a ceiling it runs with none. */
  lemma AdmittedPolicyReachesTheProvider(
    w: World, e: LedgerStep, later: seq<Event>, u: World, i: nat, decision: Decision)
    requires ProtocolInv(w) && FrozenInv(w)
    requires e.AdmitStep? && LedgerEnabled(w, e)
    requires decision == Decide(w.db, w.procs[e.p].registry, w.procs[e.p].limits, e.authority, e.a, e.prompt, e.source,
                                e.checkedUnix, e.order)
    requires decision.Admitted?
    requires Reaches(DoAdmit(w, e), later, u) && i < |u.h.launches|
    requires u.h.launches[i].key == NextKey(w.db, e.a)
    ensures e.a in w.db.agents
    ensures var provider := w.db.agents[e.a].def.provider;
            CarriesPolicy(u.h.launches[i], provider, w.procs[e.p].limits.Provider(provider).ceiling,
                          CeilingOf(w.procs[e.p].registry, provider), e.authority, e.source)
  {
    var v := DoAdmit(w, e);
    var limits, registry := w.procs[e.p].limits, w.procs[e.p].registry;
    AdmissionFreezesPolicy(w.db, registry, limits, e.authority, e.a, e.prompt, e.source, e.checkedUnix, e.order,
                           decision);
    StepKeepsFrozenAndEvolves(w, OnLedger(e), later, u);
    var k := NextKey(w.db, e.a);
    assert v.db.turns[k] == decision.row;
    var provider := w.db.agents[e.a].def.provider;
    FrozenRowCarriesPolicy(decision.row, u.db, u.h.launches[i], e.prompt, provider, limits.Provider(provider).ceiling,
                           CeilingOf(registry, provider), e.authority, e.source, e.checkedUnix);
  }

  lemma StepKeepsFrozenAndEvolves(w: World, e: Event, later: seq<Event>, u: World)
    requires ProtocolInv(w) && FrozenInv(w) && Enabled(w, e) && Reaches(Next(w, e), later, u)
    ensures FrozenInv(u) && DbEvolves(Next(w, e).db, u.db)
  {
    StepKeepsProtocol(w, e);
    StepKeepsFrozen(w, e);
    RunKeepsFrozen(Next(w, e), later, u);
    RunKeepsDb(Next(w, e), later, u);
  }
}
