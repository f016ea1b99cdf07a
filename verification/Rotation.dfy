/** Loading a claimed turn and rotating its conversation: when a turn loads, what
    it continues, and that no launch resumes a conversation past its policy. */
module Rotation {
  import opened Types
  import opened Sums
  import opened Capability
  import opened Limits
  import opened Rows
  import opened Database
  import opened Admission
  import opened Protocol
  import opened Kept
  import opened Claims
  import opened Kills
  import opened KillSafety
  import opened Told
  import opened Sessions

  /** Turn number `seqNo` may continue what the agent has: there is no policy, or
      the conversation was never opened, or it began at most that many turns ago. */
  predicate Continues(agent: AgentRow, seqNo: nat) {
    match agent.def.rotateAfter
    case None => true
    case Some(limit) => agent.startedSeq == 0 || seqNo <= agent.startedSeq + limit
  }

  /** The row carries a protection admission can have built for this provider, and
      the backend linked here is still the one it was built for. */
  ghost predicate Honoured(turn: TurnRow, provider: string, registry: Registry, ceiling: Option<TurnCeiling>) {
    && turn.provider == provider && turn.protection.Some? && turn.protection.value.Stored?
    && var s := turn.protection.value.snapshot;
       && s.state == turn.protectionState
       && match ceiling
          case Some(c) =>
            && s == EnforcedSnapshot(provider, c.limit, c.capability) && 0 < c.limit <= I64_MAX
            && provider in registry && registry[provider].turnCeiling == Some(c.capability)
          case None =>
            || s == UnboundedSnapshot(provider)
            || (provider in registry && registry[provider].turnCeiling == None
                && exists limit: u64, audit ::
                     && s == OverrideSnapshot(provider, limit, audit) && 0 < limit <= I64_MAX
                     && !Blank(audit.reason) && !Blank(audit.source))
  }

  lemma CeilingIsHonoured(turn: TurnRow, provider: string, registry: Registry, ceiling: Option<TurnCeiling>)
    ensures ProtectedCeiling(turn, provider, registry) == Runs(ceiling) <==> Honoured(turn, provider, registry, ceiling)
  {
    if turn.protection.Some? && turn.protection.value.Stored? && turn.provider == provider {
      var s := turn.protection.value.snapshot;
      var live := if s.state == Unbounded || provider !in registry then None else registry[provider].turnCeiling;
      ExecutionAcceptsOnlyWhatAdmissionBuilds(s, turn.protectionState, provider, live);
      assert s.state != turn.protectionState ==>
          ValidateForExecution(s, turn.protectionState, provider, live) == Rejected;
    }
  }

  /** How a plan's conversation follows from the agent row it was made from. */
  predicate AsStored(agent: AgentRow, resume: Option<Resume>) {
    match agent.session
    case None => resume == None
    case Some(id) => resume == Some(if agent.startedSeq == 0 then ClientAssigned(id) else ProviderAssigned(id))
  }

  /** A claimed turn loads exactly when its tools can be scoped and its protection
      is honoured; it then keeps the agent's conversation exactly while the policy
      lets it, with the frozen ceiling. */
  lemma LoadOutcome(db: Db, registry: Registry, k: Key, agent: AgentRow, mark: nat, mcpReady: bool)
    ensures var load := LoadPlan(db, registry, k, agent, mark, mcpReady);
            && (!load.LoadFails? <==>
                  k in db.turns && mcpReady
                  && exists ceiling :: Honoured(db.turns[k], agent.def.provider, registry, ceiling))
            && (load.Loads? ==> Continues(agent, k.seqNo))
            && (load.LoadRotates? ==> !Continues(agent, k.seqNo))
            && (!load.LoadFails? ==>
                  var plan := load.plan;
                  && AsStored(agent, plan.resume) && plan.read == agent && plan.mark == mark
                  && plan.provider == agent.def.provider && plan.wants == agent.def.wants
                  && k in db.turns && Honoured(db.turns[k], plan.provider, registry, plan.ceiling))
  {
    if k in db.turns {
      forall ceiling
        ensures ProtectedCeiling(db.turns[k], agent.def.provider, registry) == Runs(ceiling) <==>
                Honoured(db.turns[k], agent.def.provider, registry, ceiling)
      {
        CeilingIsHonoured(db.turns[k], agent.def.provider, registry, ceiling);
      }
    }
  }

  /** A turn that must rotate gives its agent the new name, not yet opened, and
      opens that; it changes nothing else. */
  lemma RotationOpensTheNewName(w: World, t: nat, session: string)
    requires TaskEnabled(w, t, Rotate(session))
    ensures var a, v := w.tasks[t].key.agent, TaskNext(w, t, Rotate(session));
            && v.db.turns == w.db.turns && v.db.agents.Keys == w.db.agents.Keys
            && (forall b | b in w.db.agents && b != a :: v.db.agents[b] == w.db.agents[b])
            && (a in w.db.agents ==>
                  v.db.agents[a] == w.db.agents[a].(session := Some(session), startedSeq := 0))
            && t in v.tasks && v.tasks[t].pc.Ready?
            && var plan := v.tasks[t].pc.plan;
               plan == w.tasks[t].pc.plan.(resume := Some(ClientAssigned(session)), mark := |w.h.confirms|)
  {
  }

  // ---- From load to launch, over whole runs ----

  /** The agent's open conversation began with the turn its row says. */
  predicate Began(h: History, a: string, agent: AgentRow) {
    agent.startedSeq > 0 ==>
      agent.session.Some? && Confirm(agent.session.value, Key(a, agent.startedSeq)) in h.confirms
  }

  /** A plan keeps what its agent had while the policy lets it, and otherwise
      opens another name. */
  predicate Follows(h: History, k: Key, plan: Plan) {
    && Began(h, k.agent, plan.read)
    && if Continues(plan.read, k.seqNo) then AsStored(plan.read, plan.resume)
       else plan.resume.Some? && plan.resume.value.ClientAssigned? && plan.read.session != Some(plan.resume.value.id)
  }

  predicate TaskFollows(h: History, task: Task) {
    match task.pc
    case AgentRead(agent, _) => Began(h, task.key.agent, agent)
    case Rotating(plan) => Began(h, task.key.agent, plan.read) && !Continues(plan.read, task.key.seqNo)
    case Ready(plan) => Follows(h, task.key, plan)
    case InProvider(plan) => Follows(h, task.key, plan)
    case Settling(plan, _) => Follows(h, task.key, plan)
    case _ => true
  }

  ghost predicate RotationInv(w: World) {
    && (forall t: nat | t in w.tasks :: TaskFollows(w.h, w.tasks[t]))
    && (forall i: nat | i < |w.h.launches| :: Follows(w.h, w.h.launches[i].key, w.h.launches[i].plan))
  }

  /** Confirmations are only added. */
  predicate Remembers(g: History, h: History) { forall c | c in g.confirms :: c in h.confirms }

  lemma StepRemembers(w: World, e: Event)
    requires Enabled(w, e)
    ensures Remembers(w.h, Next(w, e).h)
  {
    match e {
      case OnLedger(step) =>
      case OnServer(step) =>
      case OnTask(t, step) =>
        if !TouchesSessions(step) {
          TaskStepSessions(w, t, step);
        }
    }
  }

  lemma LoadFollows(w: World, t: nat, mcpReady: bool)
    requires TaskEnabled(w, t, LoadTurn(mcpReady)) && TaskFollows(w.h, w.tasks[t])
    ensures var v := DoLoadTurn(w, t, mcpReady); v.h == w.h && TaskFollows(w.h, v.tasks[t])
  {
    var task := w.tasks[t];
    LoadOutcome(w.db, w.procs[task.proc].registry, task.key, task.pc.agent, task.pc.mark, mcpReady);
  }

  lemma RotationFollows(w: World, t: nat, session: string)
    requires TaskEnabled(w, t, Rotate(session)) && TaskFollows(w.h, w.tasks[t])
    ensures var v := DoRotate(w, t, session); v.h.confirms == w.h.confirms && TaskFollows(w.h, v.tasks[t])
  {
    var read := w.tasks[t].pc.plan.read;
    assert read.session.Some? && Seen(w.h.confirms, read.session.value);
  }

  lemma OtherStepFollows(w: World, t: nat, step: TaskStep)
    requires SessionInv(w) && TaskEnabled(w, t, step) && !step.LoadTurn? && !step.Rotate?
    requires TaskFollows(w.h, w.tasks[t]) && t in TaskNext(w, t, step).tasks
    ensures TaskFollows(w.h, TaskNext(w, t, step).tasks[t])
  {
    if step.LoadAgent? && w.tasks[t].key.agent in w.db.agents {
      assert SessionKnown(w.h, w.tasks[t].key.agent, w.db.agents[w.tasks[t].key.agent]);
    }
  }

  lemma OwnStepFollows(w: World, t: nat, step: TaskStep)
    requires SessionInv(w) && TaskEnabled(w, t, step)
    requires TaskFollows(w.h, w.tasks[t]) && t in TaskNext(w, t, step).tasks
    ensures TaskFollows(w.h, TaskNext(w, t, step).tasks[t])
  {
    if step.LoadTurn? {
      LoadFollows(w, t, step.mcpReady);
    } else if step.Rotate? {
      RotationFollows(w, t, step.session);
    } else {
      OtherStepFollows(w, t, step);
    }
  }

  lemma NextLaunchFollows(w: World, e: Event, i: nat)
    requires RotationInv(w) && Enabled(w, e) && i < |Next(w, e).h.launches|
    ensures Follows(w.h, Next(w, e).h.launches[i].key, Next(w, e).h.launches[i].plan)
  {
    StepExtendsLaunches(w, e);
    if i >= |w.h.launches| {
      assert TaskFollows(w.h, w.tasks[e.t]);
    }
  }

  lemma StepKeepsRotation(w: World, e: Event)
    requires Named(w) && SessionInv(w) && RotationInv(w) && Enabled(w, e)
    ensures RotationInv(Next(w, e))
  {
    var v := Next(w, e);
    StepRemembers(w, e);
    forall i: nat | i < |v.h.launches| ensures Follows(v.h, v.h.launches[i].key, v.h.launches[i].plan) {
      NextLaunchFollows(w, e, i);
    }
    forall t: nat | t in v.tasks ensures TaskFollows(v.h, v.tasks[t]) {
      if t !in w.tasks {
        NewTasksAreEarly(w, e, t);
      } else if e.OnTask? && e.t == t {
        OwnStepFollows(w, t, e.step);
      } else {
        OtherTasksStand(w, e, t);
        assert TaskFollows(w.h, w.tasks[t]);
      }
    }
  }

  lemma {:induction false} RunKeepsRotation(before: World, events: seq<Event>, after: World)
    requires DbInv(before.db) && ClaimInv(before) && SessionInv(before) && ToldInv(before) && RotationInv(before)
    requires Reaches(before, events, after)
    ensures RotationInv(after)
    decreases |events|
  {
    if events != [] {
      StepKeepsDb(before, events[0]);
      StepKeepsClaims(before, events[0]);
      StepKeepsSessions(before, events[0]);
      StepKeepsTold(before, events[0]);
      StepKeepsRotation(before, events[0]);
      RunKeepsRotation(Next(before, events[0]), events[1..], after);
    }
  }

  /** Every launch of every run keeps its agent's conversation exactly while the
      policy it read lets it. Under a policy of `n` turns, a conversation that is
      resumed was therefore begun by one of the agent's last `n` turns. */
  lemma RotationIsObeyed(start: World, events: seq<Event>, w: World, i: nat)
    requires Initial(start) && Remembered(start) && Reaches(start, events, w) && i < |w.h.launches|
    ensures var l := w.h.launches[i];
            && Follows(w.h, l.key, l.plan)
            && (l.plan.resume.Some? && l.plan.resume.value.ProviderAssigned? && l.plan.read.def.rotateAfter.Some? ==>
                  exists s: nat ::
                    && l.key.seqNo - l.plan.read.def.rotateAfter.value <= s
                    && Confirm(l.plan.resume.value.id, Key(l.key.agent, s)) in w.h.confirms)
  {
    RunKeepsRotation(start, events, w);
    var l := w.h.launches[i];
    assert Follows(w.h, l.key, l.plan);
  }
}
