/** Conversations: a provider is asked to open the name this system chose only
    while nobody has confirmed it, and to continue only confirmed names. */
module Sessions {
  import opened Types
  import opened Capability
  import opened Limits
  import opened Rows
  import opened Database
  import opened Admission
  import opened Protocol
  import opened Kept
  import opened Claims
  import opened Kills
  import opened Told

  /** A name this system chose belongs to the agent it was chosen for. */
  predicate Own(h: History, id: string, a: string) { id in h.issued ==> h.issued[id] == a }

  /** The session columns of an agent: a positive `started_seq` names a turn that
      confirmed exactly this conversation, and zero means that the name was
      chosen here and nobody confirmed it. */
  predicate SessionKnown(h: History, a: string, r: AgentRow) {
    && (r.startedSeq > 0 ==>
          r.session.Some? && Confirm(r.session.value, Key(a, r.startedSeq)) in h.confirms && Own(h, r.session.value, a))
    && (r.startedSeq == 0 && r.session.Some? ==>
          !Seen(h.confirms, r.session.value) && r.session.value in h.issued && Own(h, r.session.value, a))
  }

  /** How a resume assembled after `mark` confirmations may name a conversation. */
  predicate ResumeKnown(h: History, a: string, resume: Option<Resume>, mark: nat) {
    && mark <= |h.confirms|
    && match resume
       case None => true
       case Some(ProviderAssigned(id)) => Seen(h.confirms[..mark], id) && Own(h, id, a)
       case Some(ClientAssigned(id)) => !Seen(h.confirms[..mark], id) && id in h.issued && Own(h, id, a)
  }

  /** Turn `k` itself confirmed nothing since `mark`. */
  predicate SilentSince(h: History, k: Key, mark: nat) {
    forall c: nat :: mark <= c < |h.confirms| ==> h.confirms[c].key != k
  }

  predicate TaskKnown(h: History, task: Task) {
    match task.pc
    case AgentRead(agent, mark) =>
      ResumeKnown(h, task.key.agent, ResumeOf(agent), mark) && SilentSince(h, task.key, mark)
    case Rotating(plan) =>
      ResumeKnown(h, task.key.agent, plan.resume, plan.mark) && SilentSince(h, task.key, plan.mark)
    case Ready(plan) =>
      ResumeKnown(h, task.key.agent, plan.resume, plan.mark) && SilentSince(h, task.key, plan.mark)
    case InProvider(plan) => ResumeKnown(h, task.key.agent, plan.resume, plan.mark)
    case Settling(plan, _) =>
      && ResumeKnown(h, task.key.agent, plan.resume, plan.mark)
      && (task.pc.Answer().Some? ==>
            Own(h, task.pc.Answer().value, task.key.agent) && Seen(h.told, task.pc.Answer().value))
    case _ => true
  }

  predicate LaunchKnown(h: History, l: Launch) {
    && ResumeKnown(h, l.key.agent, l.plan.resume, l.plan.mark)
    && l.plan.mark <= l.at.confirms <= |h.confirms|
    && forall c: nat :: l.plan.mark <= c < l.at.confirms ==> h.confirms[c].key != l.key
  }

  ghost predicate AgentsKnown(w: World) {
    forall a | a in w.db.agents :: SessionKnown(w.h, a, w.db.agents[a])
  }

  /** Whoever named a conversation this system chose was running its agent. */
  ghost predicate NamesOwned(h: History) {
    && (forall c | c in h.confirms :: Own(h, c.id, c.key.agent))
    && (forall c | c in h.told :: Own(h, c.id, c.key.agent))
  }

  ghost predicate SessionInv(w: World) {
    && AgentsKnown(w) && NamesOwned(w.h)
    && (forall t: nat | t in w.tasks :: TaskKnown(w.h, w.tasks[t]))
    && (forall i: nat | i < |w.h.launches| :: LaunchKnown(w.h, w.h.launches[i]))
  }

  // ---- History only grows ----

  /** One more history: more confirmations, and at most names that were fresh. */
  predicate Grows(g: History, h: History) {
    && |g.confirms| <= |h.confirms| && g.confirms == h.confirms[..|g.confirms|]
    && (forall id | id in g.issued :: id in h.issued && h.issued[id] == g.issued[id])
    && |g.told| <= |h.told| && g.told == h.told[..|g.told|]
    && (forall id | id in h.issued && id !in g.issued :: !Seen(g.confirms, id) && !Seen(g.told, id))
  }

  lemma ResumeGrows(g: History, h: History, a: string, resume: Option<Resume>, mark: nat)
    requires Grows(g, h) && ResumeKnown(g, a, resume, mark)
    ensures ResumeKnown(h, a, resume, mark)
  {
    assert g.confirms[..mark] == h.confirms[..mark];
    if resume.Some? && resume.value.ProviderAssigned? {
      assert Seen(g.confirms, resume.value.id);
    }
  }

  lemma LaunchGrows(g: History, h: History, l: Launch)
    requires Grows(g, h) && LaunchKnown(g, l)
    ensures LaunchKnown(h, l)
  {
    ResumeGrows(g, h, l.key.agent, l.plan.resume, l.plan.mark);
    forall c: nat | l.plan.mark <= c < l.at.confirms ensures h.confirms[c].key != l.key {
      assert h.confirms[c] == g.confirms[c];
    }
  }

  /** A task goes on knowing its conversation while others confirm theirs. */
  lemma TaskGrows(g: History, h: History, task: Task)
    requires Grows(g, h) && TaskKnown(g, task)
    requires 8 <= task.pc.Rank() <= 10 ==>
               forall c: nat :: |g.confirms| <= c < |h.confirms| ==> h.confirms[c].key != task.key
    ensures TaskKnown(h, task)
  {
    assert forall id | Seen(g.told, id) :: Seen(h.told, id);
    match task.pc {
      case AgentRead(agent, mark) =>
        ResumeGrows(g, h, task.key.agent, ResumeOf(agent), mark);
        SilenceGrows(g, h, task.key, mark);
      case Rotating(plan) =>
        ResumeGrows(g, h, task.key.agent, plan.resume, plan.mark);
        SilenceGrows(g, h, task.key, plan.mark);
      case Ready(plan) =>
        ResumeGrows(g, h, task.key.agent, plan.resume, plan.mark);
        SilenceGrows(g, h, task.key, plan.mark);
      case InProvider(plan) => ResumeGrows(g, h, task.key.agent, plan.resume, plan.mark);
      case Settling(plan, _) => ResumeGrows(g, h, task.key.agent, plan.resume, plan.mark);
      case _ =>
    }
  }

  lemma SilenceGrows(g: History, h: History, k: Key, mark: nat)
    requires Grows(g, h) && SilentSince(g, k, mark) && mark <= |g.confirms|
    requires forall c: nat :: |g.confirms| <= c < |h.confirms| ==> h.confirms[c].key != k
    ensures SilentSince(h, k, mark)
  {
    forall c: nat | mark <= c < |h.confirms| ensures h.confirms[c].key != k {
      if c < |g.confirms| {
        assert h.confirms[c] == g.confirms[c];
      }
    }
  }

  /** The session columns of an agent nobody touched. */
  lemma AgentGrows(g: History, h: History, a: string, r: AgentRow, s: AgentRow)
    requires Grows(g, h) && SessionKnown(g, a, r) && s.session == r.session && s.startedSeq == r.startedSeq
    requires forall c: nat :: |g.confirms| <= c < |h.confirms| ==>
               h.confirms[c].key.agent != a && Own(g, h.confirms[c].id, h.confirms[c].key.agent)
    ensures SessionKnown(h, a, s)
  {
    if r.startedSeq > 0 {
      var c := Confirm(r.session.value, Key(a, r.startedSeq));
      assert c in h.confirms[..|g.confirms|];
      assert Seen(g.confirms, r.session.value);
    }
  }

  /** The session columns after the agent's turn `k` confirmed `id`. */
  lemma ConfirmedAgentIsKnown(g: History, h: History, k: Key, r: AgentRow, s: AgentRow, id: string)
    requires SessionKnown(g, k.agent, r) && Own(g, id, k.agent) && k.seqNo >= 1
    requires h.confirms == g.confirms + [Confirm(id, k)] && h.issued == g.issued
    requires s.session == Some(id)
    requires s.startedSeq == if r.session != Some(id) || r.startedSeq == 0 then k.seqNo else r.startedSeq
    ensures SessionKnown(h, k.agent, s)
  {
    assert Confirm(id, k) in h.confirms;
    assert forall c | c in g.confirms :: c in h.confirms;
  }

  lemma AppendGrows(g: History, h: History, id: string, k: Key)
    requires h.confirms == g.confirms + [Confirm(id, k)] && h.issued == g.issued
    requires h.told == g.told || h.told == g.told + [Confirm(id, k)]
    ensures Grows(g, h)
  {
  }

  // ---- Steps ----

  predicate SameSession(r: AgentRow, s: AgentRow) { s.session == r.session && s.startedSeq == r.startedSeq }

  /** Agents keep their session columns, all but `but`. */
  ghost predicate SessionsKept(w: World, v: World, but: Option<string>) {
    forall a | a in v.db.agents && but != Some(a) ::
      a in w.db.agents && SameSession(w.db.agents[a], v.db.agents[a])
  }

  /** Steps that confirm nothing, choose no name and launch nothing, and in which
      a provider names at most its own conversation. */
  lemma QuietStep(w: World, v: World)
    requires SessionInv(w) && SessionsKept(w, v, None) && Grows(w.h, v.h) && NamesOwned(v.h)
    requires v.h.confirms == w.h.confirms && v.h.issued == w.h.issued && v.h.launches == w.h.launches
    requires forall t: nat | t in v.tasks :: TaskKnown(w.h, v.tasks[t]) || TaskKnown(v.h, v.tasks[t])
    ensures SessionInv(v)
  {
    forall a | a in v.db.agents ensures SessionKnown(v.h, a, v.db.agents[a]) {
      AgentGrows(w.h, v.h, a, w.db.agents[a], v.db.agents[a]);
    }
    forall t: nat | t in v.tasks ensures TaskKnown(v.h, v.tasks[t]) {
      if TaskKnown(w.h, v.tasks[t]) {
        TaskGrows(w.h, v.h, v.tasks[t]);
      }
    }
    forall i: nat | i < |v.h.launches| ensures LaunchKnown(v.h, v.h.launches[i]) {
      LaunchGrows(w.h, v.h, w.h.launches[i]);
    }
  }

  /** A fresh name is chosen for agent `a`. */
  lemma IssueStep(w: World, v: World, a: string, id: string)
    requires SessionInv(w) && SessionsKept(w, v, Some(a)) && Fresh(w, id)
    requires v.h.confirms == w.h.confirms && v.h.told == w.h.told && v.h.launches == w.h.launches
    requires v.h.issued == w.h.issued[id := a]
    requires a in v.db.agents ==> v.db.agents[a].session == Some(id) && v.db.agents[a].startedSeq == 0
    requires forall t: nat | t in v.tasks ::
               TaskKnown(v.h, v.tasks[t]) || (t in w.tasks && v.tasks[t] == w.tasks[t])
    ensures SessionInv(v)
  {
    assert Grows(w.h, v.h);
    forall b | b in v.db.agents ensures SessionKnown(v.h, b, v.db.agents[b]) {
      if b != a {
        AgentGrows(w.h, v.h, b, w.db.agents[b], v.db.agents[b]);
      }
    }
    forall t: nat | t in v.tasks ensures TaskKnown(v.h, v.tasks[t]) {
      if t in w.tasks && v.tasks[t] == w.tasks[t] {
        TaskGrows(w.h, v.h, v.tasks[t]);
      }
    }
    forall i: nat | i < |v.h.launches| ensures LaunchKnown(v.h, v.h.launches[i]) {
      LaunchGrows(w.h, v.h, w.h.launches[i]);
    }
    assert forall c | c in w.h.confirms :: Seen(w.h.confirms, c.id);
    assert forall c | c in w.h.told :: Seen(w.h.told, c.id);
  }

  /** What telling the ledger conversation `id` does to the agent. */
  predicate Learns(r: AgentRow, s: AgentRow, id: string, seqNo: nat) {
    && s.session == Some(id)
    && s.startedSeq == if r.session != Some(id) || r.startedSeq == 0 then seqNo else r.startedSeq
  }

  /** While one turn's delivery confirms, every other delivery knows what it knew. */
  lemma OthersStayKnown(w: World, v: World, t: nat, id: string)
    requires ClaimInv(w) && SessionInv(w) && Grows(w.h, v.h) && t in w.tasks && w.tasks[t].pc.Launched()
    requires v.h.confirms == w.h.confirms + [Confirm(id, w.tasks[t].key)]
    requires forall u: nat | u in v.tasks :: u in w.tasks && v.tasks[u] == w.tasks[u]
    ensures forall u: nat | u in v.tasks :: TaskKnown(v.h, v.tasks[u])
  {
    forall u: nat | u in v.tasks ensures TaskKnown(v.h, v.tasks[u]) {
      if w.tasks[u].key == w.tasks[t].key && w.tasks[u].pc.OwnsClaim() {
        SoleOwner(w, t, u);
      }
      TaskGrows(w.h, v.h, v.tasks[u]);
    }
  }

  /** Turn `k`, run by delivery `t`, confirms conversation `id`. */
  lemma ConfirmStep(w: World, v: World, t: nat, k: Key, id: string)
    requires ClaimInv(w) && SessionInv(w) && SessionsKept(w, v, Some(k.agent))
    requires t in w.tasks && w.tasks[t].key == k && w.tasks[t].pc.Launched() && k.seqNo >= 1
    requires Own(w.h, id, k.agent)
    requires v.h.confirms == w.h.confirms + [Confirm(id, k)] && v.h.issued == w.h.issued
    requires (v.h.told == w.h.told || v.h.told == w.h.told + [Confirm(id, k)]) && v.h.launches == w.h.launches
    requires k.agent in v.db.agents ==>
               k.agent in w.db.agents && Learns(w.db.agents[k.agent], v.db.agents[k.agent], id, k.seqNo)
    requires forall u: nat | u in v.tasks :: u in w.tasks && v.tasks[u] == w.tasks[u]
    ensures SessionInv(v)
  {
    AppendGrows(w.h, v.h, id, k);
    OthersStayKnown(w, v, t, id);
    forall a | a in v.db.agents ensures SessionKnown(v.h, a, v.db.agents[a]) {
      if a == k.agent {
        ConfirmedAgentIsKnown(w.h, v.h, k, w.db.agents[a], v.db.agents[a], id);
      } else {
        AgentGrows(w.h, v.h, a, w.db.agents[a], v.db.agents[a]);
      }
    }
    forall i: nat | i < |v.h.launches| ensures LaunchKnown(v.h, v.h.launches[i]) {
      LaunchGrows(w.h, v.h, w.h.launches[i]);
    }
  }

  lemma LedgerStepKeepsSessions(w: World, e: LedgerStep)
    requires DbInv(w.db) && Named(w) && SessionInv(w) && LedgerEnabled(w, e)
    ensures SessionInv(LedgerNext(w, e))
  {
    var v := LedgerNext(w, e);
    LedgerStepIsLocal(w, e);
    if e.CreateAgentStep? {
      IssueStep(w, v, e.a, e.session);
    } else {
      LedgerStepSessions(w, e);
      QuietStep(w, v);
    }
  }

  lemma LedgerStepSessions(w: World, e: LedgerStep)
    requires LedgerEnabled(w, e) && !e.CreateAgentStep?
    ensures var v := LedgerNext(w, e);
            SessionsKept(w, v, None) && v.h.issued == w.h.issued
  {
  }

  lemma ServerStepKeepsSessions(w: World, e: ServerStep)
    requires Named(w) && SessionInv(w) && ServerEnabled(w, e)
    ensures SessionInv(ServerNext(w, e))
  {
    ServerStepIsLocal(w, e);
    assert ServerNext(w, e).h.issued == w.h.issued;
    QuietStep(w, ServerNext(w, e));
  }

  /** Task steps other than a rotation, a settlement and a provider naming its
      conversation leave every session and every name alone. */
  predicate TouchesSessions(step: TaskStep) {
    step.Rotate? || step.Settle? || step.ConfirmSession? || step.LoseSession? || step.ProviderReturns?
  }

  lemma TaskStepSessions(w: World, t: nat, step: TaskStep)
    requires TaskEnabled(w, t, step) && !TouchesSessions(step)
    ensures var v := TaskNext(w, t, step);
            && SessionsKept(w, v, None) && v.h.issued == w.h.issued
            && v.h.confirms == w.h.confirms && v.h.told == w.h.told
  {
  }

  lemma ReadTaskIsKnown(w: World, t: nat)
    requires SessionInv(w) && TaskEnabled(w, t, LoadAgent)
    ensures t in TaskNext(w, t, LoadAgent).tasks && TaskKnown(w.h, TaskNext(w, t, LoadAgent).tasks[t])
  {
    if w.tasks[t].key.agent in w.db.agents {
      AgentReadIsKnown(w, w.tasks[t].key.agent);
    }
  }

  /** A step that reads no agent leaves a task with what it knew. */
  lemma MovedTaskIsKnown(w: World, t: nat, step: TaskStep)
    requires TaskEnabled(w, t, step) && !TouchesSessions(step) && !step.LoadAgent? && TaskKnown(w.h, w.tasks[t])
    requires t in TaskNext(w, t, step).tasks
    ensures TaskKnown(w.h, TaskNext(w, t, step).tasks[t])
  {
  }

  lemma LoadedTaskIsKnown(w: World, t: nat, step: TaskStep)
    requires SessionInv(w) && TaskEnabled(w, t, step) && !TouchesSessions(step)
    requires t in TaskNext(w, t, step).tasks
    ensures TaskKnown(w.h, TaskNext(w, t, step).tasks[t])
  {
    assert TaskKnown(w.h, w.tasks[t]);
    if step.LoadAgent? {
      ReadTaskIsKnown(w, t);
    } else {
      MovedTaskIsKnown(w, t, step);
    }
  }

  lemma AgentReadIsKnown(w: World, a: string)
    requires SessionInv(w) && a in w.db.agents
    ensures ResumeKnown(w.h, a, ResumeOf(w.db.agents[a]), |w.h.confirms|)
  {
    assert w.h.confirms[..|w.h.confirms|] == w.h.confirms;
    assert SessionKnown(w.h, a, w.db.agents[a]);
  }

  lemma NewLaunchIsKnown(w: World, v: World, t: nat)
    requires SessionInv(w) && Alive(w, t) && w.tasks[t].pc.Rank() == 10
    requires w.tasks[t].pc.plan.provider in w.procs[w.tasks[t].proc].registry
    requires SessionsKept(w, v, None) && v.h == w.h.(launches := w.h.launches + [LaunchOf(w, t)])
    requires forall u: nat | u in v.tasks :: TaskKnown(w.h, v.tasks[u])
    ensures SessionInv(v)
  {
    assert TaskKnown(w.h, w.tasks[t]);
    assert LaunchKnown(w.h, LaunchOf(w, t));
    QuietStep(w, v.(h := w.h));
    forall i: nat | i < |v.h.launches| ensures LaunchKnown(v.h, v.h.launches[i]) {
      LaunchGrows(w.h, v.h, v.h.launches[i]);
    }
    forall u: nat | u in v.tasks ensures TaskKnown(v.h, v.tasks[u]) {
      TaskGrows(w.h, v.h, v.tasks[u]);
    }
    forall a | a in v.db.agents ensures SessionKnown(v.h, a, v.db.agents[a]) {
      AgentGrows(w.h, v.h, a, w.db.agents[a], v.db.agents[a]);
    }
  }

  lemma CallKeepsSessions(w: World, t: nat)
    requires SessionInv(w) && TaskEnabled(w, t, CallProvider)
    ensures SessionInv(DoCallProvider(w, t))
  {
    var v := DoCallProvider(w, t);
    TaskStepIsLocal(w, t, CallProvider);
    TaskStepSessions(w, t, CallProvider);
    LoadedTaskIsKnown(w, t, CallProvider);
    CallProviderEffect(w, t);
    if Passes(w, t) {
      NewLaunchIsKnown(w, v, t);
    } else {
      QuietStep(w, v);
    }
  }

  lemma RotateKeepsSessions(w: World, t: nat, session: string)
    requires SessionInv(w) && TaskEnabled(w, t, Rotate(session))
    ensures SessionInv(DoRotate(w, t, session))
  {
    var v := DoRotate(w, t, session);
    assert v.h.confirms[..|v.h.confirms|] == w.h.confirms;
    IssueStep(w, v, w.tasks[t].key.agent, session);
  }

  lemma ProviderNamesItsOwn(w: World, t: nat, id: string)
    requires SessionInv(w) && t in w.tasks && w.tasks[t].pc.InProvider? && NamesItsOwn(w, w.tasks[t].pc.plan, id)
    ensures Own(w.h, id, w.tasks[t].key.agent)
  {
    assert TaskKnown(w.h, w.tasks[t]);
  }

  lemma ConfirmKeepsSessions(w: World, t: nat, id: string)
    requires DbInv(w.db) && ClaimInv(w) && SessionInv(w) && TaskEnabled(w, t, ConfirmSession(id))
    ensures SessionInv(DoConfirm(w, t, id))
  {
    ProviderNamesItsOwn(w, t, id);
    ConfirmStep(w, DoConfirm(w, t, id), t, w.tasks[t].key, id);
  }

  /** A provider names its conversation and the ledger has yet to hear of it. */
  lemma NameStep(w: World, v: World, t: nat, id: string)
    requires SessionInv(w) && OnlyTask(w, v, t) && t in w.tasks && t in v.tasks && v.db == w.db
    requires Own(w.h, id, w.tasks[t].key.agent)
    requires v.h.told == w.h.told + [Confirm(id, w.tasks[t].key)] && v.h.confirms == w.h.confirms
    requires v.h.issued == w.h.issued && v.h.launches == w.h.launches
    requires Grows(w.h, v.h) ==> TaskKnown(v.h, v.tasks[t]) || v.tasks[t] == w.tasks[t]
    ensures SessionInv(v)
  {
    QuietStep(w, v);
  }

  lemma LossKeepsSessions(w: World, t: nat, id: string)
    requires SessionInv(w) && TaskEnabled(w, t, LoseSession(id))
    ensures SessionInv(TaskNext(w, t, LoseSession(id)))
  {
    ProviderNamesItsOwn(w, t, id);
    TaskStepIsLocal(w, t, LoseSession(id));
    NameStep(w, TaskNext(w, t, LoseSession(id)), t, id);
  }

  lemma ReturnKeepsSessions(w: World, t: nat, result: Result)
    requires SessionInv(w) && TaskEnabled(w, t, ProviderReturns(result))
    ensures SessionInv(DoReturn(w, t, result))
  {
    var v := DoReturn(w, t, result);
    var answer := v.tasks[t].pc.Answer();
    TaskStepIsLocal(w, t, ProviderReturns(result));
    assert TaskKnown(w.h, w.tasks[t]);
    if answer.Some? {
      ProviderNamesItsOwn(w, t, answer.value);
      AnsweredTaskIsKnown(w, v, t, answer.value);
      NameStep(w, v, t, answer.value);
    } else {
      QuietStep(w, v);
    }
  }

  lemma AnsweredTaskIsKnown(w: World, v: World, t: nat, id: string)
    requires t in w.tasks && w.tasks[t].pc.InProvider? && TaskKnown(w.h, w.tasks[t])
    requires t in v.tasks && v.tasks[t].key == w.tasks[t].key && v.tasks[t].pc.Settling?
    requires v.tasks[t].pc.plan == w.tasks[t].pc.plan && v.tasks[t].pc.Answer() == Some(id)
    requires Own(w.h, id, w.tasks[t].key.agent) && v.h.told == w.h.told + [Confirm(id, w.tasks[t].key)]
    requires Grows(w.h, v.h) && v.h.issued == w.h.issued
    ensures TaskKnown(v.h, v.tasks[t])
  {
    var plan := w.tasks[t].pc.plan;
    ResumeGrows(w.h, v.h, w.tasks[t].key.agent, plan.resume, plan.mark);
    assert Confirm(id, w.tasks[t].key) in v.h.told;
  }

  /** What a settlement does to the session columns: a recorded answer is learned
      by the turn's agent, and nothing else moves. */
  ghost predicate LearnsOnly(before: Db, after: Db, k: Key, answer: Option<string>) {
    && after.agents.Keys == before.agents.Keys
    && (forall a | a in after.agents && a != k.agent :: after.agents[a] == before.agents[a])
    && (k.agent in after.agents ==>
          if answer.Some? then Learns(before.agents[k.agent], after.agents[k.agent], answer.value, k.seqNo)
          else SameSession(before.agents[k.agent], after.agents[k.agent]))
  }

  lemma CompletionLearns(db: Db, k: Key, ex: Exchange, nowSec: int)
    requires CostsNonNegative(db)
    ensures LearnsOnly(db, CompleteTurn(db, k, ex, nowSec), k, if InState(db, k, Running) then ex.session else None)
  {
  }

  lemma FailureLearns(db: Db, k: Key, error: string, ex: Exchange, nowSec: int)
    requires CostsNonNegative(db)
    ensures LearnsOnly(db, FailExchange(db, k, Failed, error, ex, nowSec), k,
                       if InFlight(db, k) then ex.session else None)
  {
  }

  lemma SettledSessions(w: World, t: nat)
    requires TaskEnabled(w, t, Settle)
    ensures LearnsOnly(w.db, SettledDb(w, t), w.tasks[t].key,
                       if Records(w, t) then w.tasks[t].pc.Answer() else None)
  {
    var k := w.tasks[t].key;
    match w.tasks[t].pc.result {
      case NotRun(error) =>
      case Finished(ex) =>
        if ex.error.Some? {
          FailureLearns(w.db, k, ex.error.value, ex, NowSec(w));
        } else {
          CompletionLearns(w.db, k, ex, NowSec(w));
        }
    }
  }

  lemma SettledQuietly(w: World, v: World, t: nat)
    requires SessionInv(w) && OnlyTask(w, v, t) && t in w.tasks && t !in v.tasks
    requires LearnsOnly(w.db, v.db, w.tasks[t].key, None)
    requires v.h == w.h.(lost := v.h.lost)
    ensures SessionInv(v)
  {
    QuietStep(w, v);
  }

  lemma SettleKeepsSessions(w: World, t: nat)
    requires DbInv(w.db) && ClaimInv(w) && SessionInv(w) && TaskEnabled(w, t, Settle)
    ensures SessionInv(DoSettle(w, t))
  {
    var v := DoSettle(w, t);
    SettledSessions(w, t);
    TaskStepIsLocal(w, t, Settle);
    if Records(w, t) && w.tasks[t].pc.Answer().Some? {
      assert TaskKnown(w.h, w.tasks[t]);
      ConfirmStep(w, v, t, w.tasks[t].key, w.tasks[t].pc.Answer().value);
    } else {
      SettledQuietly(w, v, t);
    }
  }

  lemma OtherStepKeepsSessions(w: World, t: nat, step: TaskStep)
    requires SessionInv(w) && TaskEnabled(w, t, step) && !TouchesSessions(step) && !step.CallProvider?
    ensures SessionInv(TaskNext(w, t, step))
  {
    var v := TaskNext(w, t, step);
    TaskStepIsLocal(w, t, step);
    TaskStepSessions(w, t, step);
    TaskStepLaunches(w, t, step);
    if t in v.tasks {
      LoadedTaskIsKnown(w, t, step);
    }
    QuietStep(w, v);
  }

  lemma TouchingStepKeepsSessions(w: World, t: nat, step: TaskStep)
    requires DbInv(w.db) && ClaimInv(w) && SessionInv(w) && TaskEnabled(w, t, step) && TouchesSessions(step)
    ensures SessionInv(TaskNext(w, t, step))
  {
    if step.Rotate? {
      RotateKeepsSessions(w, t, step.session);
    } else if step.ConfirmSession? {
      ConfirmKeepsSessions(w, t, step.session);
    } else if step.LoseSession? {
      LossKeepsSessions(w, t, step.session);
    } else if step.ProviderReturns? {
      ReturnKeepsSessions(w, t, step.result);
    } else {
      SettleKeepsSessions(w, t);
    }
  }

  lemma TaskStepKeepsSessions(w: World, t: nat, step: TaskStep)
    requires DbInv(w.db) && ClaimInv(w) && SessionInv(w) && TaskEnabled(w, t, step)
    ensures SessionInv(TaskNext(w, t, step))
  {
    if TouchesSessions(step) {
      TouchingStepKeepsSessions(w, t, step);
    } else if step.CallProvider? {
      CallKeepsSessions(w, t);
    } else {
      OtherStepKeepsSessions(w, t, step);
    }
  }

  lemma StepKeepsSessions(w: World, e: Event)
    requires DbInv(w.db) && ClaimInv(w) && SessionInv(w) && Enabled(w, e)
    ensures SessionInv(Next(w, e))
  {
    match e {
      case OnLedger(step) => LedgerStepKeepsSessions(w, step);
      case OnServer(step) => ServerStepKeepsSessions(w, step);
      case OnTask(t, step) => TaskStepKeepsSessions(w, t, step);
    }
  }

  lemma {:induction false} RunKeepsSessions(before: World, events: seq<Event>, after: World)
    requires DbInv(before.db) && ClaimInv(before) && SessionInv(before) && ToldInv(before)
    requires Reaches(before, events, after)
    ensures DbInv(after.db) && ClaimInv(after) && SessionInv(after) && ToldInv(after)
    decreases |events|
  {
    if events != [] {
      StepKeepsDb(before, events[0]);
      StepKeepsClaims(before, events[0]);
      StepKeepsSessions(before, events[0]);
      StepKeepsTold(before, events[0]);
      RunKeepsSessions(Next(before, events[0]), events[1..], after);
    }
  }

  // ---- What a launch may say about its conversation ----

  /** Confirmation `c` fell between the moment launch `l` loaded its agent and
      the moment it called the provider. */
  predicate Between(h: History, l: Launch, c: nat, id: string) {
    l.plan.mark <= c < l.at.confirms <= |h.confirms| && h.confirms[c].id == id
  }

  /** When `l` called its provider, an answer naming `id` had been refused or
      lost, or had yet to settle. */
  ghost predicate Unheard(l: Launch, id: string) { exists c :: c in l.at.unheard && c.id == id }

  /** A provider had named the conversation before `l` opens it. */
  ghost predicate Reopens(h: History, l: Launch, id: string)
    requires l.at.told <= |h.told|
  {
    l.plan.resume == Some(ClientAssigned(id)) && Seen(h.told[..l.at.told], id)
  }

  /** What is true of every launch. */
  ghost predicate OpensOrResumes(h: History, l: Launch) {
    && l.at.confirms <= |h.confirms| && l.at.told <= |h.told|
    && (IntentOf(l.plan).instructions <==> !(l.plan.resume.Some? && l.plan.resume.value.ProviderAssigned?))
    && (forall id :: l.plan.resume == Some(ProviderAssigned(id)) ==> Seen(h.confirms[..l.at.confirms], id))
    && (forall id :: l.plan.resume == Some(ClientAssigned(id)) ==>
          && (Reopens(h, l, id) <==> (exists c: nat :: Between(h, l, c, id)) || Unheard(l, id))
          && (forall c: nat :: Between(h, l, c, id) ==>
                h.confirms[c].key.agent == l.key.agent && h.confirms[c].key != l.key)
          && (forall c :: c in l.at.unheard && c.id == id ==> c.key.agent == l.key.agent))
  }

  lemma ResumedIsConfirmed(h: History, l: Launch, id: string)
    requires LaunchKnown(h, l) && l.plan.resume == Some(ProviderAssigned(id))
    ensures Seen(h.confirms[..l.at.confirms], id)
  {
    var before, upTo := h.confirms[..l.plan.mark], h.confirms[..l.at.confirms];
    assert before == upTo[..l.plan.mark];
    var c :| c in before && c.id == id;
    assert c in upTo;
  }

  lemma ReopenedIff(h: History, l: Launch, id: string)
    requires LaunchKnown(h, l) && LaunchTold(h, l) && l.plan.resume == Some(ClientAssigned(id))
    ensures Reopens(h, l, id) <==> (exists c: nat :: Between(h, l, c, id)) || Unheard(l, id)
  {
    var before, upTo := h.confirms[..l.plan.mark], h.confirms[..l.at.confirms];
    assert before == upTo[..l.plan.mark];
    assert forall d: nat | d < l.plan.mark :: upTo[d] == before[d] && upTo[d] in before;
    if Reopens(h, l, id) {
      var x :| x in h.told[..l.at.told] && x.id == id;
      if x in upTo {
        var c: nat :| c < |upTo| && upTo[c] == x;
        assert Between(h, l, c, id);
      }
    }
    if c: nat :| Between(h, l, c, id) {
      assert h.confirms[c] == upTo[c] && upTo[c] in h.told[..l.at.told];
    }
  }

  lemma KnownLaunchOpensOrResumes(h: History, l: Launch)
    requires LaunchKnown(h, l) && LaunchTold(h, l) && NamesOwned(h)
    ensures OpensOrResumes(h, l)
  {
    forall id | l.plan.resume == Some(ProviderAssigned(id)) ensures Seen(h.confirms[..l.at.confirms], id) {
      ResumedIsConfirmed(h, l, id);
    }
    forall id | l.plan.resume == Some(ClientAssigned(id))
      ensures Reopens(h, l, id) <==> (exists c: nat :: Between(h, l, c, id)) || Unheard(l, id)
      ensures forall c :: c in l.at.unheard && c.id == id ==> c.key.agent == l.key.agent
      ensures forall c: nat :: Between(h, l, c, id) ==> h.confirms[c].key.agent == l.key.agent
    {
      ReopenedIff(h, l, id);
      forall c | c in l.at.unheard && c.id == id ensures c.key.agent == l.key.agent {
        assert c in h.told[..l.at.told] && c in h.told;
      }
      forall c: nat | Between(h, l, c, id) ensures h.confirms[c].key.agent == l.key.agent {
        assert h.confirms[c] in h.confirms;
      }
    }
  }

  /** The history a ledger brings from earlier runs explains its sessions. */
  ghost predicate Remembered(w: World) { SessionInv(w) && ToldInv(w) }

  /** Through rotations, failures, kills and crashes: a launch resumes only
      confirmed conversations, and it opens one, with instructions, that a
      provider had already named exactly when another turn of the same agent
      confirmed it between this turn's load and its launch, or when an answer
      that named it had been refused or lost or had yet to settle. */
  lemma ConfirmedConversationsAreNotReopened(start: World, events: seq<Event>, w: World, i: nat)
    requires Initial(start) && Remembered(start) && Reaches(start, events, w) && i < |w.h.launches|
    ensures OpensOrResumes(w.h, w.h.launches[i])
  {
    RunKeepsSessions(start, events, w);
    KnownLaunchOpensOrResumes(w.h, w.h.launches[i]);
  }
}
