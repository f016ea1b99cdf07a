/** When a kill is safe. Through the process that holds the delivery it always
    is; through another process exactly when no delivery elsewhere is already
    past its durable recheck with a plan its provider accepts. */
module KillSafety {
  import opened Types
  import opened Capability
  import opened Limits
  import opened Rows
  import opened Database
  import opened Admission
  import opened Protocol
  import opened Kept
  import opened Claims
  import opened Kills

  lemma StepExtendsLaunches(w: World, e: Event)
    requires Enabled(w, e)
    ensures var v := Next(w, e);
            && (v.h.launches == w.h.launches || (e.OnTask? && e.step.CallProvider? && Passes(w, e.t)
                && v.h.launches == w.h.launches + [LaunchOf(w, e.t)]))
            && w.h.killed <= v.h.killed
  {
    match e {
      case OnLedger(step) =>
      case OnServer(step) =>
      case OnTask(t, step) =>
        TaskStepHistory(w, t, step);
        if step.CallProvider? {
          CallProviderEffect(w, t);
        } else {
          TaskStepLaunches(w, t, step);
        }
    }
  }

  lemma {:induction false} RunExtendsLaunches(before: World, events: seq<Event>, after: World)
    requires Reaches(before, events, after)
    ensures before.h.launches <= after.h.launches && before.h.killed <= after.h.killed
    decreases |events|
  {
    if events != [] {
      StepExtendsLaunches(before, events[0]);
      RunExtendsLaunches(Next(before, events[0]), events[1..], after);
    }
  }

  /** A launch numbered `i` of the run's log was made after `before`. */
  ghost predicate LaunchedSince(before: World, after: World, i: nat) {
    |before.h.launches| <= i < |after.h.launches|
  }

  /** The first step of a run made the launch, or a later one did. */
  lemma LaunchedFirstOrLater(before: World, events: seq<Event>, after: World, i: nat)
    requires Reaches(before, events, after) && LaunchedSince(before, after, i)
    ensures events != [] && Enabled(before, events[0]) && Reaches(Next(before, events[0]), events[1..], after)
    ensures var mid := Next(before, events[0]);
            if i < |mid.h.launches| then
              && events[0].OnTask? && TaskEnabled(before, events[0].t, CallProvider) && Passes(before, events[0].t)
              && after.h.launches[i] == LaunchOf(before, events[0].t)
            else LaunchedSince(mid, after, i)
  {
    StepExtendsLaunches(before, events[0]);
    RunExtendsLaunches(Next(before, events[0]), events[1..], after);
  }

  lemma KilledCannotCall(w: World, t: nat)
    requires KillsReach(w) && TaskEnabled(w, t, CallProvider)
    ensures (w.tasks[t].proc, w.tasks[t].key) !in w.h.killed
  {
    assert MayStillLaunch(w.tasks[t].pc) && !Signalled(w, t);
  }

  /** Once a kill through process `p` has recorded and signalled, wherever it
      fell among claim, token install, durable recheck and poll, no later step
      of that process launches the turn. */
  lemma {:induction false} KillStopsItsOwnProcess(
    before: World, events: seq<Event>, after: World, p: nat, k: Key, i: nat)
    requires ProtocolInv(before) && (p, k) in before.h.killed
    requires Reaches(before, events, after) && LaunchedSince(before, after, i)
    ensures after.h.launches[i].key != k || after.h.launches[i].proc != p
    decreases |events|
  {
    var mid := Next(before, events[0]);
    LaunchedFirstOrLater(before, events, after, i);
    if i < |mid.h.launches| {
      KilledCannotCall(before, events[0].t);
    } else {
      StepExtendsLaunches(before, events[0]);
      StepKeepsProtocol(before, events[0]);
      KillStopsItsOwnProcess(mid, events[1..], after, p, k, i);
    }
  }

  // ---- Through another process ----

  /** The last gate accepts the plan. */
  predicate Accepts(registry: Registry, plan: Plan) {
    plan.provider in registry && !Blocked(registry[plan.provider], IntentOf(plan))
  }

  /** Some definition a server could store for the agent, without moving it to
      another backend, would carry the turn through load and gate. */
  predicate Runnable(turn: TurnRow, registry: Registry) {
    turn.provider in registry && ProtectedCeiling(turn, turn.provider, registry).Runs?
  }

  predicate LoadAccepts(db: Db, registry: Registry, k: Key, agent: AgentRow, mark: nat) {
    var load := LoadPlan(db, registry, k, agent, mark, true);
    !load.LoadFails? && Accepts(registry, load.plan)
  }

  /** The agent is, or is about to be, on the backend its turn was admitted for. */
  predicate ProviderReachable(w: World, a: string, provider: string) {
    && a in w.db.agents
    && (w.db.agents[a].def.provider == provider
        || exists edit :: edit in w.edits && edit.agent == a && edit.def.provider == provider)
  }

  /** Delivery `t` of turn `k` can still get to its provider call. */
  predicate CanLaunch(w: World, t: nat, k: Key) {
    && Alive(w, t) && !Signalled(w, t) && w.tasks[t].key == k
    && var registry := w.procs[w.tasks[t].proc].registry;
       match w.tasks[t].pc
       case Checked =>
         && k in w.db.turns && ProviderReachable(w, k.agent, w.db.turns[k].provider)
         && Runnable(w.db.turns[k], registry)
       case AgentRead(agent, mark) => LoadAccepts(w.db, registry, k, agent, mark)
       case Rotating(plan) => Accepts(registry, plan)
       case Ready(plan) => Accepts(registry, plan)
       case _ => false
  }

  /** A provider that honours a ceiling honours it whatever conversation is asked for. */
  lemma AcceptsIgnoresResume(registry: Registry, plan: Plan, other: Plan)
    requires other == plan.(resume := other.resume, mark := other.mark)
    ensures Accepts(registry, plan) <==> Accepts(registry, other)
  {
    if plan.provider in registry {
      GateIsExact(registry[plan.provider], IntentOf(plan));
      GateIsExact(registry[plan.provider], IntentOf(other));
    }
  }

  // ---- Nothing else can launch ----

  lemma ServerStepKeepsRegistries(w: World, e: ServerStep, p: nat)
    requires Named(w) && ServerEnabled(w, e) && p in ServerNext(w, e).procs && p in w.procs
    ensures var v := ServerNext(w, e);
            v.procs[p].registry == w.procs[p].registry && w.procs[p].cancelled <= v.procs[p].cancelled
  {
  }

  lemma ProcessesPersist(w: World, e: Event, p: nat)
    requires Named(w) && Enabled(w, e) && p in Next(w, e).procs && p in w.procs
    ensures var v := Next(w, e);
            v.procs[p].registry == w.procs[p].registry && w.procs[p].cancelled <= v.procs[p].cancelled
  {
    match e {
      case OnLedger(step) => LedgerStepIsLocal(w, step);
      case OnServer(step) => ServerStepKeepsRegistries(w, step, p);
      case OnTask(t, step) => TaskStepBookkeeping(w, t, step);
    }
  }

  /** Another task's position only changes by its own steps. */
  lemma OthersPersist(w: World, e: Event, t: nat)
    requires Named(w) && Enabled(w, e) && t in Next(w, e).tasks && !(e.OnTask? && e.t == t)
    requires MayStillLaunch(Next(w, e).tasks[t].pc)
    ensures t in w.tasks && Next(w, e).tasks[t] == w.tasks[t]
  {
    match e {
      case OnLedger(step) => LedgerStepIsLocal(w, step);
      case OnServer(step) => ServerStepIsLocal(w, step);
      case OnTask(u, step) => TaskStepIsLocal(w, u, step);
    }
  }

  // ---- Definitions ----

  lemma LedgerStepKeepsProvider(w: World, e: LedgerStep, a: string, provider: string)
    requires LedgerEnabled(w, e) && a in w.db.agents && (exists k :: k in w.db.turns && k.agent == a)
    requires ProviderReachable(LedgerNext(w, e), a, provider)
    ensures ProviderReachable(w, a, provider)
  {
    var v := LedgerNext(w, e);
    match e {
      case CheckDefStep(p, b, request) =>
        assert v.edits <= w.edits + {Edit(p, b, NormalizedDef(w.procs[p].runtime, request))};
      case UpdateDefStep(edit) =>
      case AdmitStep(_, _, _, _, _, _, _) => AdmitAddsOneDelivery(w, e);
      case _ =>
    }
  }

  /** A statement of a delivery never writes a definition. */
  lemma TaskStepKeepsDefs(w: World, t: nat, step: TaskStep, a: string)
    requires TaskEnabled(w, t, step) && a in w.db.agents
    ensures var v := TaskNext(w, t, step);
            a in v.db.agents && v.db.agents[a].def == w.db.agents[a].def && v.edits == w.edits
  {
    if step.Settle? {
      SettleKeepsDefs(w, t, a);
    }
  }

  lemma SettleKeepsDefs(w: World, t: nat, a: string)
    requires TaskEnabled(w, t, Settle) && a in w.db.agents
    ensures a in SettledDb(w, t).agents && SettledDb(w, t).agents[a].def == w.db.agents[a].def
  {
  }

  lemma ServerStepKeepsProvider(w: World, e: ServerStep, a: string, provider: string)
    requires ServerEnabled(w, e) && ProviderReachable(ServerNext(w, e), a, provider)
    ensures ProviderReachable(w, a, provider)
  {
    assert ServerNext(w, e).edits <= w.edits && ServerNext(w, e).db == w.db;
  }

  /** Once an agent has a turn, no check lets it move to another backend. */
  lemma ReachableWasReachable(w: World, e: Event, k: Key, provider: string)
    requires DbInv(w.db) && Enabled(w, e) && k in w.db.turns && ProviderReachable(Next(w, e), k.agent, provider)
    ensures ProviderReachable(w, k.agent, provider)
  {
    match e {
      case OnLedger(step) => LedgerStepKeepsProvider(w, step, k.agent, provider);
      case OnServer(step) => ServerStepKeepsProvider(w, step, k.agent, provider);
      case OnTask(t, step) => TaskStepKeepsDefs(w, t, step, k.agent);
    }
  }

  /** Being able to launch depends on the delivery, its signal, its registry, the
      frozen columns of the row and the backend its agent can be on. */
  lemma CanLaunchFrame(w: World, v: World, t: nat, k: Key)
    requires DbEvolves(w.db, v.db) && Settled(w.db, k)
    requires CanLaunch(v, t, k) && Alive(w, t) && v.tasks[t] == w.tasks[t]
    requires var p := w.tasks[t].proc;
             v.procs[p].registry == w.procs[p].registry && w.procs[p].cancelled <= v.procs[p].cancelled
    requires ProviderReachable(v, k.agent, w.db.turns[k].provider) ==>
               ProviderReachable(w, k.agent, w.db.turns[k].provider)
    ensures CanLaunch(w, t, k)
  {
    assert Evolves(w.db.turns[k], v.db.turns[k]);
  }

  /** The steps on the way from the recheck to the provider call. */
  predicate TowardsProvider(step: TaskStep) { step.LoadAgent? || step.LoadTurn? || step.Rotate? }

  lemma OtherStepsLeadElsewhere(w: World, t: nat, step: TaskStep, k: Key)
    requires TaskEnabled(w, t, step) && Settled(w.db, k) && !TowardsProvider(step)
    ensures !CanLaunch(TaskNext(w, t, step), t, k)
  {
    var v := TaskNext(w, t, step);
    if t in v.tasks && v.tasks[t].key == k {
      TaskStepIsLocal(w, t, step);
      assert 7 <= v.tasks[t].pc.Rank() <= 10 ==> step.Recheck?;
    }
  }

  lemma OwnStepGainsNothing(w: World, t: nat, step: TaskStep, k: Key)
    requires DbInv(w.db) && TaskEnabled(w, t, step) && Settled(w.db, k)
    requires CanLaunch(TaskNext(w, t, step), t, k)
    ensures CanLaunch(w, t, k)
  {
    if step.LoadAgent? {
      assert TaskNext(w, t, step) == SetPc(w, t, TaskNext(w, t, step).tasks[t].pc);
    } else if step.LoadTurn? {
      assert TaskNext(w, t, step) == SetPc(w, t, TaskNext(w, t, step).tasks[t].pc);
    } else if step.Rotate? {
      AcceptsIgnoresResume(w.procs[w.tasks[t].proc].registry, w.tasks[t].pc.plan,
                           TaskNext(w, t, step).tasks[t].pc.plan);
    } else {
      OtherStepsLeadElsewhere(w, t, step, k);
      assert false;
    }
  }

  /** Once a turn is settled no delivery of it gains the ability to launch. */
  lemma NoDeliveryGainsALaunch(w: World, e: Event, t: nat, k: Key)
    requires ProtocolInv(w) && Enabled(w, e) && Settled(w.db, k) && CanLaunch(Next(w, e), t, k)
    ensures CanLaunch(w, t, k)
  {
    if e.OnTask? && e.t == t {
      OwnStepGainsNothing(w, t, e.step, k);
    } else {
      StepKeepsProtocol(w, e);
      OthersPersist(w, e, t);
      ProcessesPersist(w, e, w.tasks[t].proc);
      if ProviderReachable(Next(w, e), k.agent, w.db.turns[k].provider) {
        ReachableWasReachable(w, e, k, w.db.turns[k].provider);
      }
      CanLaunchFrame(w, Next(w, e), t, k);
    }
  }

  ghost predicate Launchable(w: World, k: Key) {
    exists events, after, i :: LaunchesIn(w, events, after, i, k)
  }

  /** One run from `w` launches turn `k`. */
  ghost predicate LaunchesIn(w: World, events: seq<Event>, after: World, i: nat, k: Key) {
    Reaches(w, events, after) && LaunchedSince(w, after, i) && after.h.launches[i].key == k
  }

  lemma CallerCouldLaunch(w: World, t: nat)
    requires TaskEnabled(w, t, CallProvider) && Passes(w, t)
    ensures CanLaunch(w, t, LaunchOf(w, t).key)
  {
  }

  lemma {:induction false} OnlyACapableDeliveryLaunches(
    before: World, events: seq<Event>, after: World, i: nat, k: Key)
    requires ProtocolInv(before) && Settled(before.db, k) && LaunchesIn(before, events, after, i, k)
    ensures exists t :: CanLaunch(before, t, k)
    decreases |events|
  {
    var mid := Next(before, events[0]);
    LaunchedFirstOrLater(before, events, after, i);
    if i < |mid.h.launches| {
      CallerCouldLaunch(before, events[0].t);
    } else {
      StepKeepsProtocol(before, events[0]);
      SettledStaysSettled(before.db, mid.db, k);
      OnlyACapableDeliveryLaunches(mid, events[1..], after, i, k);
      var t :| CanLaunch(mid, t, k);
      NoDeliveryGainsALaunch(before, events[0], t, k);
    }
  }

  // ---- A capable delivery does launch in some run ----

  lemma LaunchableBefore(w: World, e: Event, k: Key)
    requires Enabled(w, e) && Launchable(Next(w, e), k)
    ensures Launchable(w, k)
  {
    var v := Next(w, e);
    var events, after, i :| LaunchesIn(v, events, after, i, k);
    StepExtendsLaunches(w, e);
    assert ([e] + events)[1..] == events;
    assert LaunchesIn(w, [e] + events, after, i, k);
  }

  lemma ReadyLaunches(w: World, t: nat, k: Key)
    requires CanLaunch(w, t, k) && w.tasks[t].pc.Ready?
    ensures Launchable(w, k)
  {
    var e := OnTask(t, CallProvider);
    CallProviderEffect(w, t);
    assert Reaches(Next(w, e), [], Next(w, e)) && [e][1..] == [];
    assert LaunchesIn(w, [e], Next(w, e), |w.h.launches|, k);
  }

  lemma LongStringIsNew(used: set<string>, n: nat) returns (s: string)
    requires forall x | x in used :: |x| < n
    ensures s !in used
  {
    s := seq(n, _ => 'x');
  }

  lemma {:induction false} LengthsAreBounded(used: set<string>) returns (n: nat)
    ensures forall x | x in used :: |x| < n
    decreases used
  {
    n := 0;
    if used != {} {
      var x :| x in used;
      n := LengthsAreBounded(used - {x});
      n := if |x| >= n then |x| + 1 else n;
    }
  }

  lemma FreshExists(w: World) returns (id: string)
    ensures Fresh(w, id)
  {
    var used := w.h.issued.Keys + (set c | c in w.h.confirms :: c.id) + set c | c in w.h.told :: c.id;
    var n := LengthsAreBounded(used);
    id := LongStringIsNew(used, n);
  }

  lemma RotatingLaunches(w: World, t: nat, k: Key)
    requires CanLaunch(w, t, k) && w.tasks[t].pc.Rotating?
    ensures Launchable(w, k)
  {
    var id := FreshExists(w);
    var e := OnTask(t, Rotate(id));
    AcceptsIgnoresResume(w.procs[w.tasks[t].proc].registry, w.tasks[t].pc.plan, Next(w, e).tasks[t].pc.plan);
    ReadyLaunches(Next(w, e), t, k);
    LaunchableBefore(w, e, k);
  }

  lemma LoadedLaunches(w: World, t: nat, k: Key)
    requires CanLaunch(w, t, k) && w.tasks[t].pc.AgentRead?
    ensures Launchable(w, k)
  {
    var e := OnTask(t, LoadTurn(true));
    if Next(w, e).tasks[t].pc.Ready? {
      ReadyLaunches(Next(w, e), t, k);
    } else {
      RotatingLaunches(Next(w, e), t, k);
    }
    LaunchableBefore(w, e, k);
  }

  const PLAIN := Wants(false, false, false, None, false, false, false)

  /** A definition that opts out of every default it can opt out of. */
  function OptOut(provider: string): DefRequest { DefRequest(Some(provider), None, Some(false), Some(false), PLAIN) }

  const NO_HOMES := Runtime("claude", true, true, false, false)
  const NO_STOPS: Limits := Limits(None, None, map[])

  lemma PlainDefinitionIsAccepted(db: Db, registry: Registry, k: Key, agent: AgentRow, mark: nat)
    requires k in db.turns && Runnable(db.turns[k], registry)
    requires agent.def == AgentDef(db.turns[k].provider, None, PLAIN)
    ensures LoadAccepts(db, registry, k, agent, mark)
  {
    var load := LoadPlan(db, registry, k, agent, mark, true);
    assert load.Loads?;
    GateIsExact(registry[load.plan.provider], IntentOf(load.plan));
  }

  /** A delivery past its recheck whose agent is already plainly defined. */
  lemma PlainlyDefinedLaunches(w: World, t: nat, k: Key)
    requires Alive(w, t) && !Signalled(w, t) && w.tasks[t] == Task(w.tasks[t].proc, k, Checked)
    requires k in w.db.turns && Runnable(w.db.turns[k], w.procs[w.tasks[t].proc].registry)
    requires k.agent in w.db.agents && w.db.agents[k.agent].def == AgentDef(w.db.turns[k].provider, None, PLAIN)
    ensures Launchable(w, k)
  {
    var read := OnTask(t, LoadAgent);
    PlainDefinitionIsAccepted(w.db, w.procs[w.tasks[t].proc].registry, k, w.db.agents[k.agent], |w.h.confirms|);
    LoadedLaunches(Next(w, read), t, k);
    LaunchableBefore(w, read, k);
  }

  /** On the right backend, a server with no provider home stores a definition
      that asks for nothing, and the delivery reads it. */
  lemma RedefinedLaunches(w: World, t: nat, k: Key)
    requires Named(w) && Alive(w, t) && !Signalled(w, t) && w.tasks[t] == Task(w.tasks[t].proc, k, Checked)
    requires k in w.db.turns && Runnable(w.db.turns[k], w.procs[w.tasks[t].proc].registry)
    requires k.agent in w.db.agents && w.db.agents[k.agent].def.provider == w.db.turns[k].provider
    ensures Launchable(w, k)
  {
    var provider, p := w.db.turns[k].provider, w.nextProc;
    var boot := OnServer(Boot(Hand, NO_STOPS, map[], NO_HOMES));
    var booted := Next(w, boot);
    var check := OnLedger(CheckDefStep(p, k.agent, OptOut(provider)));
    var checked := Next(booted, check);
    var edit := Edit(p, k.agent, AgentDef(provider, None, PLAIN));
    assert NormalizedDef(NO_HOMES, OptOut(provider)) == edit.def;
    var write := OnLedger(UpdateDefStep(edit));
    PlainlyDefinedLaunches(Next(checked, write), t, k);
    LaunchableBefore(checked, write, k);
    LaunchableBefore(booted, check, k);
    LaunchableBefore(w, boot, k);
  }

  lemma CheckedLaunches(w: World, t: nat, k: Key)
    requires Named(w) && CanLaunch(w, t, k) && w.tasks[t].pc.Checked?
    ensures Launchable(w, k)
  {
    var provider := w.db.turns[k].provider;
    if w.db.agents[k.agent].def.provider == provider {
      RedefinedLaunches(w, t, k);
    } else {
      var edit :| edit in w.edits && edit.agent == k.agent && edit.def.provider == provider;
      var write := OnLedger(UpdateDefStep(edit));
      RedefinedLaunches(Next(w, write), t, k);
      LaunchableBefore(w, write, k);
    }
  }

  /** A settled turn can still reach its provider exactly when some delivery of
      it, in a live process and not signalled, is past its durable recheck with
      a protection its provider honours. Killing it through its own process
      signals that delivery; killing it through another process does not. */
  lemma SettledTurnLaunchesIff(w: World, k: Key)
    requires ProtocolInv(w) && Settled(w.db, k)
    ensures Launchable(w, k) <==> exists t :: CanLaunch(w, t, k)
  {
    if Launchable(w, k) {
      var events, after, i :| LaunchesIn(w, events, after, i, k);
      OnlyACapableDeliveryLaunches(w, events, after, i, k);
    }
    if t :| CanLaunch(w, t, k) {
      match w.tasks[t].pc {
        case Checked => CheckedLaunches(w, t, k);
        case AgentRead(_, _) => LoadedLaunches(w, t, k);
        case Rotating(_) => RotatingLaunches(w, t, k);
        case Ready(_) => ReadyLaunches(w, t, k);
      }
    }
  }

  /** After a complete kill through process `p`, the turn stays unlaunched in
      every run exactly when no other process holds a capable delivery of it. */
  lemma KillIsFinalIff(w: World, p: nat, k: Key)
    requires ProtocolInv(w) && (p, k) in w.h.killed
    ensures Launchable(w, k) <==> exists t :: CanLaunch(w, t, k) && w.tasks[t].proc != p
  {
    SettledTurnLaunchesIff(w, k);
  }
}
