/** When opening is safe: a condition on the states from a turn's load to its
    provider call, under which no conversation any provider ever named is opened
    again. */
module Alone {
  import opened Types
  import opened Capability
  import opened Limits
  import opened Rows
  import opened Database
  import opened Admission
  import opened Protocol
  import opened Kept
  import opened Claims
  import opened Kills
  import opened KillSafety
  import opened Told
  import opened Sessions

  /** No other live delivery of the agent is past its claim. */
  predicate OnItsOwn(w: World, t: nat) {
    && t in w.tasks
    && forall u | u in w.tasks && u != t && w.tasks[u].pc.OwnsClaim() :: w.tasks[u].key.agent != w.tasks[t].key.agent
  }

  /** Every answer of the agent reached the ledger and was recorded. */
  predicate AllHeard(w: World, a: string) { forall c | c in w.h.lost :: c.key.agent != a }

  /** Deliveries of two turns of one agent overlap only when the ledger has
      already recorded the end of one of the turns: a kill or a recovery whose
      future was not dropped yet. */
  lemma OverlapMeansOneIsSettled(w: World, t: nat, u: nat)
    requires DbInv(w.db) && ClaimInv(w) && t in w.tasks && u in w.tasks && t != u
    requires w.tasks[t].pc.OwnsClaim() && w.tasks[u].pc.OwnsClaim()
    requires w.tasks[t].key.agent == w.tasks[u].key.agent
    ensures Settled(w.db, w.tasks[t].key) || Settled(w.db, w.tasks[u].key)
  {
    var j, k := w.tasks[t].key, w.tasks[u].key;
    if j == k {
      SoleOwner(w, t, u);
    }
    SingleFlight(w.db, j.agent);
    assert j in w.db.turns && k in w.db.turns;
    assert j == Key(j.agent, j.seqNo) && k == Key(j.agent, k.seqNo);
  }

  /** While its turn runs, a delivery is on its own exactly when no turn of the
      agent that is already settled still has a live delivery. */
  lemma OnItsOwnIff(w: World, t: nat)
    requires DbInv(w.db) && ClaimInv(w) && t in w.tasks && w.tasks[t].pc.OwnsClaim()
    requires InState(w.db, w.tasks[t].key, Running)
    ensures OnItsOwn(w, t) <==>
            forall u | u in w.tasks && u != t && w.tasks[u].pc.OwnsClaim() && Settled(w.db, w.tasks[u].key) ::
              w.tasks[u].key.agent != w.tasks[t].key.agent
  {
    forall u | u in w.tasks && u != t && w.tasks[u].pc.OwnsClaim() && w.tasks[u].key.agent == w.tasks[t].key.agent
      ensures Settled(w.db, w.tasks[u].key)
    {
      OverlapMeansOneIsSettled(w, t, u);
    }
  }

  /** No provider has named the conversation the resume would open. */
  predicate Untold(h: History, a: string, resume: Option<Resume>) {
    match resume
    case Some(ClientAssigned(id)) => !Seen(h.told, id) && id in h.issued && h.issued[id] == a
    case _ => true
  }

  /** The delivery is past its load, and what it is about to open is untold. */
  predicate AboutToOpen(h: History, task: Task) {
    match task.pc
    case AgentRead(agent, _) => Untold(h, task.key.agent, ResumeOf(agent))
    case Ready(plan) => Untold(h, task.key.agent, plan.resume)
    case _ => task.pc.Rank() >= 9
  }

  /** `after` is reached from `before` and the delivery is on its own in every
      state on the way. */
  ghost predicate ReachesOnItsOwn(before: World, events: seq<Event>, after: World, t: nat)
    decreases |events|
  {
    && OnItsOwn(before, t)
    && if events == [] then before == after
       else Enabled(before, events[0]) && ReachesOnItsOwn(Next(before, events[0]), events[1..], after, t)
  }

  /** With nothing lost and nothing of the agent under way, what was told was
      recorded. */
  lemma ToldWasRecorded(w: World, t: nat, c: Confirm)
    requires ToldInv(w) && OnItsOwn(w, t) && w.tasks[t].pc.Answer().None?
    requires c in w.h.told && c.key.agent == w.tasks[t].key.agent && AllHeard(w, c.key.agent)
    ensures c in w.h.confirms
  {
    assert forall u | u in w.tasks && w.tasks[u].pc.Answer().Some? :: w.tasks[u].key.agent != w.tasks[t].key.agent;
  }

  /** An agent whose answers were all heard has an unopened session only if no
      provider ever named it. */
  lemma HeardMeansUntold(w: World, t: nat, a: string)
    requires SessionInv(w) && ToldInv(w) && OnItsOwn(w, t) && w.tasks[t].key.agent == a && AllHeard(w, a)
    requires w.tasks[t].pc.Answer().None? && a in w.db.agents
    ensures Untold(w.h, a, ResumeOf(w.db.agents[a]))
  {
    var agent := w.db.agents[a];
    assert SessionKnown(w.h, a, agent);
    if agent.session.Some? && agent.startedSeq == 0 {
      forall c | c in w.h.told ensures c.id != agent.session.value {
        if c.id == agent.session.value {
          ToldWasRecorded(w, t, c);
        }
      }
    }
  }

  lemma LoadIsUntold(w: World, t: nat)
    requires SessionInv(w) && ToldInv(w) && OnItsOwn(w, t) && AllHeard(w, w.tasks[t].key.agent)
    requires TaskEnabled(w, t, LoadAgent)
    ensures var v := TaskNext(w, t, LoadAgent); t in v.tasks && AboutToOpen(v.h, v.tasks[t])
  {
    if w.tasks[t].key.agent in w.db.agents {
      HeardMeansUntold(w, t, w.tasks[t].key.agent);
    }
  }

  /** Only a provider called for another agent names anything meanwhile. */
  lemma NamesOfOthers(w: World, e: Event, t: nat)
    requires Named(w) && SessionInv(w) && OnItsOwn(w, t) && w.tasks[t].pc.Rank() <= 11 && Enabled(w, e)
    ensures forall c | c in Next(w, e).h.told && c !in w.h.told ::
              c.key.agent != w.tasks[t].key.agent && Own(w.h, c.id, c.key.agent)
  {
    match e {
      case OnLedger(step) => LedgerStepIsLocal(w, step);
      case OnServer(step) => ServerStepIsLocal(w, step);
      case OnTask(u, step) =>
        if MovesNames(step) {
          TellerIsLaunched(w, u, step);
        } else {
          OtherStepsNameNothing(w, u, step);
        }
    }
  }

  lemma TellerIsLaunched(w: World, u: nat, step: TaskStep)
    requires SessionInv(w) && TaskEnabled(w, u, step) && MovesNames(step)
    ensures forall c | c in TaskNext(w, u, step).h.told && c !in w.h.told ::
              w.tasks[u].pc.InProvider? && c.key == w.tasks[u].key && Own(w.h, c.id, c.key.agent)
  {
    if step.ConfirmSession? || step.LoseSession? {
      ProviderNamesItsOwn(w, u, step.session);
    } else if step.ProviderReturns? {
      var answer := DoReturn(w, u, step.result).tasks[u].pc.Answer();
      if answer.Some? {
        ProviderNamesItsOwn(w, u, answer.value);
      }
    } else if step.Settle? {
      RecordedAnswers(w, u);
    }
  }

  lemma UntoldStays(g: History, h: History, a: string, resume: Option<Resume>)
    requires Untold(g, a, resume)
    requires forall c | c in h.told && c !in g.told :: c.key.agent != a && Own(g, c.id, c.key.agent)
    requires forall id | id in g.issued :: id in h.issued && h.issued[id] == g.issued[id]
    ensures Untold(h, a, resume)
  {
  }

  lemma NamesChosenStay(w: World, e: Event)
    requires Enabled(w, e)
    ensures forall id | id in w.h.issued :: id in Next(w, e).h.issued && Next(w, e).h.issued[id] == w.h.issued[id]
  {
    match e {
      case OnLedger(step) =>
      case OnServer(step) =>
      case OnTask(t, step) => if !TouchesSessions(step) { TaskStepSessions(w, t, step); }
    }
  }

  /** Rotating or loading on, the delivery goes on opening only untold names. */
  lemma OwnStepStaysUntold(w: World, t: nat, step: TaskStep)
    requires TaskEnabled(w, t, step) && 8 <= w.tasks[t].pc.Rank() && AboutToOpen(w.h, w.tasks[t])
    requires t in TaskNext(w, t, step).tasks
    ensures var v := TaskNext(w, t, step); 8 <= v.tasks[t].pc.Rank() && AboutToOpen(v.h, v.tasks[t])
  {
    match step {
      case LoadTurn(mcpReady) =>
      case Rotate(session) =>
      case CallProvider => CallProviderEffect(w, t);
      case ConfirmSession(session) =>
      case ProviderReturns(result) =>
      case _ =>
    }
  }

  lemma StepStaysUntold(w: World, e: Event, t: nat)
    requires Named(w) && SessionInv(w) && OnItsOwn(w, t) && Enabled(w, e) && t in Next(w, e).tasks
    requires 8 <= w.tasks[t].pc.Rank() && AboutToOpen(w.h, w.tasks[t])
    ensures 8 <= Next(w, e).tasks[t].pc.Rank() && AboutToOpen(Next(w, e).h, Next(w, e).tasks[t])
  {
    if e.OnTask? && e.t == t {
      OwnStepStaysUntold(w, t, e.step);
    } else {
      OtherTasksStand(w, e, t);
      if w.tasks[t].pc.Rank() <= 11 {
        NamesOfOthers(w, e, t);
        NamesChosenStay(w, e);
        OthersLeaveUntold(w.h, Next(w, e).h, w.tasks[t]);
      }
    }
  }

  lemma OthersLeaveUntold(g: History, h: History, task: Task)
    requires AboutToOpen(g, task)
    requires forall c | c in h.told && c !in g.told :: c.key.agent != task.key.agent && Own(g, c.id, c.key.agent)
    requires forall id | id in g.issued :: id in h.issued && h.issued[id] == g.issued[id]
    ensures AboutToOpen(h, task)
  {
    match task.pc {
      case AgentRead(agent, _) => UntoldStays(g, h, task.key.agent, ResumeOf(agent));
      case Ready(plan) => UntoldStays(g, h, task.key.agent, plan.resume);
      case _ =>
    }
  }

  lemma {:induction false} RunStaysUntold(before: World, events: seq<Event>, after: World, t: nat)
    requires DbInv(before.db) && ClaimInv(before) && SessionInv(before)
    requires ReachesOnItsOwn(before, events, after, t)
    requires 8 <= before.tasks[t].pc.Rank() && AboutToOpen(before.h, before.tasks[t])
    ensures t in after.tasks && 8 <= after.tasks[t].pc.Rank() && AboutToOpen(after.h, after.tasks[t])
    decreases |events|
  {
    if events != [] {
      StepKeepsDb(before, events[0]);
      StepKeepsClaims(before, events[0]);
      StepKeepsSessions(before, events[0]);
      StepStaysUntold(before, events[0], t);
      RunStaysUntold(Next(before, events[0]), events[1..], after, t);
    }
  }

  lemma LoadKeepsAll(w: World, t: nat)
    requires DbInv(w.db) && ClaimInv(w) && SessionInv(w) && ToldInv(w)
    requires TaskEnabled(w, t, LoadAgent) && OnItsOwn(w, t) && AllHeard(w, w.tasks[t].key.agent)
    ensures var v := TaskNext(w, t, LoadAgent);
            && DbInv(v.db) && ClaimInv(v) && SessionInv(v)
            && t in v.tasks && 8 <= v.tasks[t].pc.Rank() && AboutToOpen(v.h, v.tasks[t])
  {
    StepKeepsDb(w, OnTask(t, LoadAgent));
    StepKeepsClaims(w, OnTask(t, LoadAgent));
    StepKeepsSessions(w, OnTask(t, LoadAgent));
    LoadIsUntold(w, t);
  }

  lemma OpensOnlyUntold(loaded: World, later: seq<Event>, v: World, t: nat, id: string)
    requires DbInv(loaded.db) && ClaimInv(loaded) && SessionInv(loaded) && ReachesOnItsOwn(loaded, later, v, t)
    requires 8 <= loaded.tasks[t].pc.Rank() && AboutToOpen(loaded.h, loaded.tasks[t])
    requires t in v.tasks && v.tasks[t].pc.Ready? && v.tasks[t].pc.plan.resume == Some(ClientAssigned(id))
    ensures !Seen(v.h.told, id)
  {
    RunStaysUntold(loaded, later, v, t);
  }

  lemma LoadedAloneOpensUntold(w: World, t: nat, loaded: World, later: seq<Event>, v: World, id: string)
    requires DbInv(w.db) && ClaimInv(w) && SessionInv(w) && ToldInv(w)
    requires TaskEnabled(w, t, LoadAgent) && OnItsOwn(w, t) && AllHeard(w, w.tasks[t].key.agent)
    requires loaded == TaskNext(w, t, LoadAgent) && ReachesOnItsOwn(loaded, later, v, t)
    requires t in v.tasks && v.tasks[t].pc.Ready? && v.tasks[t].pc.plan.resume == Some(ClientAssigned(id))
    ensures !Seen(v.h.told, id)
  {
    LoadKeepsAll(w, t);
    OpensOnlyUntold(loaded, later, v, t, id);
  }

  /** If from a turn's load to its provider call no other live delivery of its
      agent is past its claim, and no earlier answer of the agent was refused or
      lost, then the conversation the call opens is one that no provider, in any
      event or outcome, ever named. */
  lemma OnItsOwnNothingIsReopened(
    start: World, events: seq<Event>, w: World, t: nat, loaded: World, later: seq<Event>, v: World, id: string)
    requires Initial(start) && Remembered(start) && Reaches(start, events, w)
    requires TaskEnabled(w, t, LoadAgent) && OnItsOwn(w, t) && AllHeard(w, w.tasks[t].key.agent)
    requires loaded == TaskNext(w, t, LoadAgent) && ReachesOnItsOwn(loaded, later, v, t)
    requires t in v.tasks && v.tasks[t].pc.Ready? && v.tasks[t].pc.plan.resume == Some(ClientAssigned(id))
    ensures !Seen(v.h.told, id)
  {
    RunKeepsSessions(start, events, w);
    LoadedAloneOpensUntold(w, t, loaded, later, v, id);
  }
}
