/** Stretches of runs: one delivery taken step by step from its channel to its
    provider call, whatever surrounds it. */
module Walks {
  import opened Types
  import opened Sums
  import opened Capability
  import opened Limits
  import opened Rows
  import opened Database
  import opened Telemetry
  import opened Admission
  import opened Protocol
  import opened KillSafety

  ghost predicate Steps(w: World, e: Event, v: World) { Enabled(w, e) && Next(w, e) == v }

  lemma Take(start: World, events: seq<Event>, w: World, e: Event, v: World) returns (more: seq<Event>)
    requires Reaches(start, events, w) && Steps(w, e, v)
    ensures Reaches(start, more, v)
  {
    ReachesSnoc(start, events, w, e);
    more := events + [e];
  }

  /** A delivery in the channel of a dispatching executor, of a queued turn. */
  predicate Waiting(w: World, t: nat) {
    && Alive(w, t) && w.tasks[t].pc == Buffered && InState(w.db, w.tasks[t].key, Queued)
    && w.procs[w.tasks[t].proc].dispatch == Dispatching && !w.procs[w.tasks[t].proc].stopping
  }

  function WithGuard(w: World, t: nat, pc: Pc): World
    requires Alive(w, t)
  {
    SetProc(SetPc(w, t, pc), w.tasks[t].proc, w.procs[w.tasks[t].proc].Raised())
  }

  /** The same once the claim is won. */
  function WithClaim(w: World, t: nat): World
    requires Alive(w, t)
  {
    var k := w.tasks[t].key;
    WithGuard(w, t, Claimed).(
      db := ClaimTurn(w.db, k, w.now), h := w.h.(claims := w.h.claims[k := Owner(t, w.tasks[t].proc)]))
  }

  /** The same past the durable recheck. */
  function PastRecheck(w: World, t: nat): World
    requires Alive(w, t)
  {
    var p, k := w.tasks[t].proc, w.tasks[t].key;
    SetProc(SetPc(WithClaim(w, t), t, Checked), p, w.procs[p].Raised().Installed(k, t))
  }

  lemma Guarding(w: World, t: nat)
    requires Waiting(w, t)
    ensures Steps(w, OnTask(t, Spawn), SetPc(w, t, Spawned))
    ensures Steps(SetPc(w, t, Spawned), OnTask(t, Reserve), WithGuard(w, t, Reserved))
    ensures Steps(WithGuard(w, t, Reserved), OnTask(t, Guard), WithGuard(w, t, Guarded))
  {
    SetTwice(w, t, Spawned, Reserved);
    assert WithGuard(w, t, Reserved).tasks == SetPc(SetPc(w, t, Spawned), t, Reserved).tasks;
    SetTwice(w, t, Reserved, Guarded);
    assert WithGuard(w, t, Guarded).tasks == SetPc(WithGuard(w, t, Reserved), t, Guarded).tasks;
  }

  lemma SetTwice(w: World, t: nat, first: Pc, second: Pc)
    requires t in w.tasks
    ensures SetPc(SetPc(w, t, first), t, second) == SetPc(w, t, second)
  {
    assert SetPc(SetPc(w, t, first), t, second).tasks == SetPc(w, t, second).tasks;
  }

  lemma Claiming(w: World, t: nat)
    requires Waiting(w, t)
    ensures Steps(WithGuard(w, t, Guarded), OnTask(t, TaskStep.Claim), WithClaim(w, t))
  {
    SetTwice(w, t, Guarded, Claimed);
    assert WithClaim(w, t).tasks == SetPc(WithGuard(w, t, Guarded), t, Claimed).tasks;
  }

  /** The token installed, the recheck yet to come. */
  function WithToken(w: World, t: nat): World
    requires Alive(w, t)
  {
    var p, k := w.tasks[t].proc, w.tasks[t].key;
    SetProc(SetPc(WithClaim(w, t), t, Registered), p, w.procs[p].Raised().Installed(k, t))
  }

  lemma Installing(w: World, t: nat)
    requires Waiting(w, t)
    ensures Steps(WithClaim(w, t), OnTask(t, Install), WithToken(w, t))
  {
    var p, v := w.tasks[t].proc, WithClaim(w, t);
    assert v.procs[p] == w.procs[p].Raised();
    assert WithToken(w, t) == DoInstall(v, t);
  }

  lemma Rechecking(w: World, t: nat)
    requires Waiting(w, t)
    ensures Steps(WithToken(w, t), OnTask(t, Recheck), PastRecheck(w, t))
  {
    assert PastRecheck(w, t).tasks == SetPc(WithToken(w, t), t, Checked).tasks;
  }

  /** From the channel past the durable recheck. */
  lemma WalkPastRecheck(start: World, events: seq<Event>, w: World, t: nat) returns (more: seq<Event>)
    requires Reaches(start, events, w) && Waiting(w, t)
    ensures Reaches(start, more, PastRecheck(w, t))
  {
    Guarding(w, t);
    Claiming(w, t);
    Installing(w, t);
    Rechecking(w, t);
    more := Take(start, events, w, OnTask(t, Spawn), SetPc(w, t, Spawned));
    more := Take(start, more, SetPc(w, t, Spawned), OnTask(t, Reserve), WithGuard(w, t, Reserved));
    more := Take(start, more, WithGuard(w, t, Reserved), OnTask(t, Guard), WithGuard(w, t, Guarded));
    more := Take(start, more, WithGuard(w, t, Guarded), OnTask(t, TaskStep.Claim), WithClaim(w, t));
    more := Take(start, more, WithClaim(w, t), OnTask(t, Install), WithToken(w, t));
    more := Take(start, more, WithToken(w, t), OnTask(t, Recheck), PastRecheck(w, t));
  }

  /** A delivery past its recheck whose load would give `plan`. */
  predicate Loadable(w: World, t: nat, plan: Plan) {
    && Alive(w, t) && w.tasks[t].pc == Checked && !Signalled(w, t)
    && w.tasks[t].key.agent in w.db.agents
    && LoadPlan(w.db, w.procs[w.tasks[t].proc].registry, w.tasks[t].key, w.db.agents[w.tasks[t].key.agent],
                |w.h.confirms|, true) == Loads(plan)
  }

  lemma WalkToReady(start: World, events: seq<Event>, w: World, t: nat, plan: Plan) returns (more: seq<Event>)
    requires Reaches(start, events, w) && Loadable(w, t, plan)
    ensures Reaches(start, more, SetPc(w, t, Ready(plan)))
  {
    var read := SetPc(w, t, AgentRead(w.db.agents[w.tasks[t].key.agent], |w.h.confirms|));
    Loading(w, t, plan, read);
    more := Take(start, events, w, OnTask(t, LoadAgent), read);
    more := Take(start, more, read, OnTask(t, LoadTurn(true)), SetPc(w, t, Ready(plan)));
  }

  lemma Loading(w: World, t: nat, plan: Plan, read: World)
    requires Loadable(w, t, plan)
    requires read == SetPc(w, t, AgentRead(w.db.agents[w.tasks[t].key.agent], |w.h.confirms|))
    ensures Steps(w, OnTask(t, LoadAgent), read)
    ensures Steps(read, OnTask(t, LoadTurn(true)), SetPc(w, t, Ready(plan)))
  {
    SetTwice(w, t, read.tasks[t].pc, Ready(plan));
  }

  /** The state after the provider was called. */
  function InCall(w: World, t: nat, plan: Plan): World
    requires Alive(w, t) && plan.provider in w.procs[w.tasks[t].proc].registry
  {
    var task := w.tasks[t];
    SetPc(w, t, InProvider(plan)).(
      sinks := w.sinks[t := Sink(task.proc, task.key, [], 0, false)],
      h := w.h.(launches := w.h.launches +
             [Launch(t, task.proc, task.key, plan, w.procs[task.proc].registry[plan.provider], NowKnown(w))]))
  }

  lemma Calling(w: World, t: nat, plan: Plan)
    requires Alive(w, t) && w.tasks[t].pc == Ready(plan) && !Signalled(w, t)
    requires Accepts(w.procs[w.tasks[t].proc].registry, plan)
    ensures Steps(w, OnTask(t, CallProvider), InCall(w, t, plan))
  {
  }

  /** From the channel to the provider call. */
  lemma WalkToCall(start: World, events: seq<Event>, w: World, t: nat, plan: Plan) returns (more: seq<Event>, v: World)
    requires Reaches(start, events, w) && Waiting(w, t)
    requires Loadable(PastRecheck(w, t), t, plan) && Accepts(w.procs[w.tasks[t].proc].registry, plan)
    ensures Reaches(start, more, v) && v == InCall(SetPc(PastRecheck(w, t), t, Ready(plan)), t, plan)
  {
    more := WalkPastRecheck(start, events, w, t);
    more := WalkToReady(start, more, PastRecheck(w, t), t, plan);
    var ready := SetPc(PastRecheck(w, t), t, Ready(plan));
    Calling(ready, t, plan);
    v := InCall(ready, t, plan);
    more := Take(start, more, ready, OnTask(t, CallProvider), v);
  }

  /** Without any threshold an idle agent on a pricing backend is admitted. */
  lemma UnlimitedAdmission(
    db: Db, registry: Registry, a: string, prompt: string, source: string, checkedUnix: int, order: seq<Key>)
    requires WindowOrder(db, checkedUnix, order) && forall k | k in order :: k in db.turns
    requires Eligible(db, registry, a) && registry[db.agents[a].def.provider].reportsCost
    requires forall r | r in WindowRows(db, order) :: !Unsafe(r)
    ensures Decide(db, registry, NO_STOPS, Automatic, a, prompt, source, checkedUnix, order)
         == Admitted(QueuedRow(prompt, db.agents[a].def.provider, checkedUnix, None,
                               UnboundedSnapshot(db.agents[a].def.provider)))
  {
    RefusedIffUnsafe(InitialAccounting(db, registry), WindowRows(db, order));
    var acc := AccountRows(Some(InitialAccounting(db, registry)), WindowRows(db, order)).value;
    var report := EligibleUsesReport(db, registry, NO_STOPS, Automatic, a, prompt, source, checkedUnix, order, acc);
    KeepsReportingCost(InitialAccounting(db, registry), WindowRows(db, order), acc, db.agents[a].def.provider);
    assert StatusFrom(NO_STOPS, registry, db.agents[a].def.provider, acc).state == Fine;
  }

  lemma {:induction false} KeepsReportingCost(acc: Accounting, rows: seq<WindowRow>, result: Accounting, key: string)
    requires AccountRows(Some(acc), rows) == Some(result)
    requires key in acc.providers && acc.providers[key].reportsCost
    ensures key in result.providers && result.providers[key].reportsCost
    decreases |rows|
  {
    if rows != [] {
      AcceptedRow(acc, rows, result);
      KeepsReportingCost(AccountRow(Some(acc), rows[0]).value, rows[1..], result, key);
    }
  }

  lemma Admitting(w: World, e: LedgerStep, row: TurnRow, k: Key)
    requires e.AdmitStep? && LedgerEnabled(w, e) && Insertable(w.db, e.a) && NextKey(w.db, e.a) == k
    requires Decide(w.db, w.procs[e.p].registry, w.procs[e.p].limits, e.authority, e.a, e.prompt, e.source,
                    e.checkedUnix, e.order) == Admitted(row)
    ensures Steps(w, OnLedger(e), AddTask(w, Task(e.p, k, Accepted)).(
                    db := Put(w.db, k, row), h := w.h.(homes := w.h.homes + {(k, Owner(w.nextTask, e.p))})))
  {
  }
}
