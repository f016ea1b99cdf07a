/** The durable turn protocol as one interleaving system: any number of server
    processes on one database, each with any number of dispatch tasks, kills,
    late usage writes, drains, crashes and restarts. Every SQL statement or
    transaction is one step, and so is one poll of a dispatch task. */
module Protocol {
  import opened Types
  import opened Sums
  import opened Capability
  import opened Limits
  import opened Rows
  import opened Database
  import opened Telemetry
  import opened Admission

  datatype Kind = Hand | Polling

  /** A dispatch loop before its readiness gate, past it, or ended by a drain
      that came first. */
  datatype Dispatch = Parked | Dispatching | Ended

  datatype Proc = Proc(
    kind: Kind, limits: Limits, registry: Registry, runtime: Runtime,
    open: bool, dispatch: Dispatch, stopping: bool, inflight: int,
    kills: map<Key, nat>,      // registered kill tokens, each named by the task that installed it
    cancelled: set<nat>)       // tokens that have been signalled
  {
    /** The gate opened: dispatch, unless a drain came first. */
    function Begun(): Proc { this.(dispatch := if stopping then Ended else Dispatching) }

    /** An in-flight guard was taken. */
    function Raised(): Proc { this.(inflight := inflight + 1) }

    /** A kill token was installed under its turn. */
    function Installed(k: Key, token: nat): Proc { this.(kills := kills[k := token]) }

    /** `kill`: cancel the token registered for the turn, if any. */
    function Signalled(k: Key): Proc {
      if k in kills then this.(cancelled := cancelled + {kills[k]}) else this
    }

    /** A delivery ended: its guard and its registration drop. */
    function Left(k: Key, guarded: bool, registered: bool): Proc {
      this.(inflight := if guarded then inflight - 1 else inflight,
            kills := if registered then kills - {k} else kills)
    }
  }

  /** What `load` and `intent_for` assembled for one provider call. */
  datatype Plan = Plan(
    provider: string, wants: Wants, resume: Option<Resume>, ceiling: Option<TurnCeiling>,
    mark: nat,                 // how many confirmations the ledger had seen when the agent row was read
    read: AgentRow)            // that row

  datatype Result = Finished(exchange: Exchange) | NotRun(error: string)

  /** Where a delivery stands. */
  datatype Pc =
    | Accepted                              // the row is committed, the handler has yet to submit it
    | Buffered                              // in the hand executor's channel
    | Spawned                               // waiting for a permit
    | Reserved                              // permit held, in-flight count raised, `stopping` not yet read
    | Guarded                               // `stopping` was read as false
    | Claimed                               // queued -> running won, no kill token yet
    | Registered                            // kill token installed
    | Checked                               // durable recheck saw `running`
    | AgentRead(agent: AgentRow, mark: nat)
    | Rotating(plan: Plan)
    | Ready(plan: Plan)
    | Aborting(error: string)
    | InProvider(plan: Plan)
    | Settling(plan: Plan, result: Result)
  {
    function Rank(): nat {
      match this
      case Accepted => 0
      case Buffered => 1
      case Spawned => 2
      case Reserved => 3
      case Guarded => 4
      case Claimed => 5
      case Registered => 6
      case Checked => 7
      case AgentRead(_, _) => 8
      case Rotating(_) => 9
      case Ready(_) => 10
      case Aborting(_) => 11
      case InProvider(_) => 12
      case Settling(_, _) => 13
    }

    predicate HoldsGuard() { Rank() >= 3 }

    predicate OwnsClaim() { Rank() >= 5 }

    predicate HasToken() { Rank() >= 6 }

    predicate Launched() { Rank() >= 12 }

    /** The conversation name in the provider's result. */
    function Answer(): Option<string> {
      if Settling? && result.Finished? then result.exchange.session else None
    }
  }

  datatype Task = Task(proc: nat, key: Key, pc: Pc)

  /** The detached usage writer of one task: all snapshots handed over, and how
      many of them it has written, in order. */
  datatype Sink = Sink(proc: nat, key: Key, emitted: seq<TokenUsage>, written: nat, lost: bool)

  datatype Owner = Owner(task: nat, proc: nat)

  /** A provider named conversation `id` as the one turn `key` runs in. */
  datatype Confirm = Confirm(id: string, key: Key)

  /** What was known when a provider was called: how many confirmations the
      ledger held, how many names providers had given, and the answers that had
      not reached the ledger. */
  datatype Moment = Moment(confirms: nat, told: nat, unheard: set<Confirm>)

  datatype Launch = Launch(task: nat, proc: nat, key: Key, plan: Plan, caps: Capabilities, at: Moment)

  /** What happened so far. Nothing the protocol does reads it. */
  datatype History = History(
    claims: map<Key, Owner>,
    homes: set<(Key, Owner)>,     // deliveries handed to an executor, by admission or recovery
    launches: seq<Launch>,
    told: seq<Confirm>,           // every name a provider gave, in an event or an outcome
    confirms: seq<Confirm>,       // the ones the ledger recorded
    lost: set<Confirm>,           // the ones it refused or never received
    issued: map<string, string>,
    recorded: set<(nat, Key)>,
    killed: set<(nat, Key)>,
    killedQueued: set<Key>,
    drained: set<nat>)

  /** A definition one server has checked and is about to write. */
  datatype Edit = Edit(proc: nat, agent: string, def: AgentDef)

  datatype World = World(
    now: int, db: Db, procs: map<nat, Proc>, tasks: map<nat, Task>, sinks: map<nat, Sink>, edits: set<Edit>,
    nextProc: nat, nextTask: nat, h: History)

  /** Statements any process may issue against the ledger. */
  datatype LedgerStep =
    | CreateAgentStep(p: nat, a: string, request: DefRequest, session: string, spawnedBy: Option<string>)
    | CheckDefStep(p: nat, a: string, request: DefRequest)
    | UpdateDefStep(edit: Edit)
    | RetireStep(a: string)
    | AdmitStep(
        p: nat, a: string, authority: Authority, prompt: string, source: string, checkedUnix: int, order: seq<Key>)
    | KillRecord(p: nat, k: Key, error: string)
    | RecoverStep(p: nat, k: Key, error: string)
    | WriteUsage(t: nat)

  /** Process-local steps. */
  datatype ServerStep =
    | Boot(kind: Kind, limits: Limits, registry: Registry, runtime: Runtime)
    | Open(p: nat)
    | Start(p: nat)
    | Crash(p: nat)
    | Redeliver(p: nat, k: Key)
    | Poll(p: nat, k: Key)
    | KillSignal(p: nat, k: Key)
    | BeginDrain(p: nat)
    | ReadInflight(p: nat)
    | Tick(now: int)

  /** One step of one dispatch task. */
  datatype TaskStep =
    | Submit | Spawn | Reserve | Guard | Claim | Install | Recheck
    | LoadAgent
    | LoadTurn(mcpReady: bool)
    | Rotate(session: string)
    | CallProvider
    | EmitUsage(usage: TokenUsage)
    | ConfirmSession(session: string)
    | LoseSession(session: string)           // named by the provider, never written
    | ProviderReturns(result: Result)
    | Settle
    | Abort
    | DropFuture
  {
    /** The position a task takes this step from. */
    function From(): nat {
      match this
      case Submit => 0
      case Spawn => 1
      case Reserve => 2
      case Guard => 3
      case Claim => 4
      case Install => 5
      case Recheck => 6
      case LoadAgent => 7
      case LoadTurn(_) => 8
      case Rotate(_) => 9
      case CallProvider => 10
      case Abort => 11
      case EmitUsage(_) | ConfirmSession(_) | LoseSession(_) | ProviderReturns(_) => 12
      case Settle => 13
      case DropFuture => 7
    }
  }

  datatype Event = OnLedger(ledger: LedgerStep) | OnServer(server: ServerStep) | OnTask(t: nat, step: TaskStep)

  function NowSec(w: World): int { w.now / 1000 }

  // ---- Loading a claimed turn ----

  datatype Load = LoadFails(error: string) | LoadRotates(plan: Plan) | Loads(plan: Plan)

  /** `intent_for`: the three session cases. */
  function ResumeOf(agent: AgentRow): Option<Resume> {
    match agent.session
    case None => None
    case Some(id) => Some(if agent.startedSeq > 0 then ProviderAssigned(id) else ClientAssigned(id))
  }

  /** Rotation starts a new conversation when this turn would exceed the policy. */
  predicate Rotates(agent: AgentRow, seqNo: nat) {
    && agent.def.rotateAfter.Some?
    && agent.startedSeq > 0
    && seqNo - agent.startedSeq > agent.def.rotateAfter.value
  }

  /** The protection check of `load`: refuse, or reconstruct the frozen ceiling. */
  function ProtectedCeiling(turn: TurnRow, provider: string, registry: Registry): Execution {
    if turn.provider != provider then Rejected
    else if turn.protectionState == LegacyProtection then Rejected
    else if turn.protection.None? || turn.protection.value.Corrupt? then Rejected
    else
      var s := turn.protection.value.snapshot;
      if s.state == Unbounded then ValidateForExecution(s, turn.protectionState, turn.provider, None)
      else if provider !in registry then Rejected
      else ValidateForExecution(s, turn.protectionState, turn.provider, registry[provider].turnCeiling)
  }

  function LoadPlan(db: Db, registry: Registry, k: Key, agent: AgentRow, mark: nat, mcpReady: bool): Load {
    if k !in db.turns then LoadFails("no turn")
    else
      var execution := ProtectedCeiling(db.turns[k], agent.def.provider, registry);
      if execution.Rejected? then LoadFails("protection refused")
      else if !mcpReady then LoadFails("mcp scope unavailable")
      else
        var plan := Plan(agent.def.provider, agent.def.wants, ResumeOf(agent), execution.ceiling, mark, agent);
        if Rotates(agent, k.seqNo) then LoadRotates(plan) else Loads(plan)
  }

  function IntentOf(plan: Plan): Intent {
    Intent(plan.wants, plan.resume, !(plan.resume.Some? && plan.resume.value.ProviderAssigned?), plan.ceiling)
  }

  // ---- Which steps can be taken ----

  predicate Alive(w: World, t: nat) { t in w.tasks && w.tasks[t].proc in w.procs }

  predicate Signalled(w: World, t: nat)
    requires Alive(w, t)
  {
    t in w.procs[w.tasks[t].proc].cancelled
  }

  predicate Seen(confirms: seq<Confirm>, id: string) { exists c :: c in confirms && c.id == id }

  /** A newly drawn session name is one nobody has chosen or named. */
  predicate Fresh(w: World, id: string) {
    id !in w.h.issued && !Seen(w.h.confirms, id) && !Seen(w.h.told, id)
  }

  /** A backend never answers with an id this system chose for some other
      conversation. */
  predicate NamesItsOwn(w: World, plan: Plan, id: string) {
    id in w.h.issued ==> plan.resume.Some? && plan.resume.value.id == id
  }

  predicate Drained(w: World, t: nat) { t in w.sinks && w.sinks[t].written == |w.sinks[t].emitted| }

  /** A task takes its next step from its own position; inside the biased select
      (from the recheck on) a poll looks at the kill token first. */
  predicate TaskEnabled(w: World, t: nat, step: TaskStep) {
    && Alive(w, t)
    && var task := w.tasks[t];
       if step.DropFuture? then task.pc.Rank() >= 7 && Signalled(w, t)
       else
         && task.pc.Rank() == step.From()
         && (step.From() >= 7 ==> !Signalled(w, t))
         && match step
            case Spawn => w.procs[task.proc].dispatch == Dispatching
            case Rotate(session) => Fresh(w, session)
            case EmitUsage(_) => t in w.sinks
            case ConfirmSession(session) => NamesItsOwn(w, task.pc.plan, session)
            case LoseSession(session) => NamesItsOwn(w, task.pc.plan, session)
            case ProviderReturns(result) =>
              result.Finished? && result.exchange.session.Some? ==>
                NamesItsOwn(w, task.pc.plan, result.exchange.session.value)
            case Settle => Drained(w, t) && CostsNonNegative(w.db)
            case _ => true
  }

  ghost predicate LedgerEnabled(w: World, e: LedgerStep) {
    match e
    case CreateAgentStep(p, a, request, session, spawnedBy) =>
      p in w.procs && a !in w.db.agents && Fresh(w, session)
    case CheckDefStep(p, a, request) => p in w.procs
    case UpdateDefStep(edit) => edit in w.edits
    case RetireStep(a) => true
    case AdmitStep(p, a, authority, prompt, source, checkedUnix, order) =>
      p in w.procs && checkedUnix <= NowSec(w) && WindowOrder(w.db, checkedUnix, order)
    case KillRecord(p, k, error) => p in w.procs
    case RecoverStep(p, k, error) => p in w.procs && !w.procs[p].open
    case WriteUsage(t) => t in w.sinks && !w.sinks[t].lost && w.sinks[t].written < |w.sinks[t].emitted|
  }

  predicate ServerEnabled(w: World, e: ServerStep) {
    match e
    case Boot(kind, limits, registry, runtime) => limits.Validated()
    case Open(p) => p in w.procs
    case Start(p) => p in w.procs && w.procs[p].open && w.procs[p].dispatch == Parked
    case Crash(p) => p in w.procs
    case Redeliver(p, k) => p in w.procs && w.procs[p].kind == Hand && k in w.db.turns
    case Poll(p, k) => p in w.procs && w.procs[p].kind == Polling && w.procs[p].dispatch == Dispatching
    case KillSignal(p, k) => p in w.procs && (p, k) in w.h.recorded
    case BeginDrain(p) => p in w.procs
    case ReadInflight(p) => p in w.procs && w.procs[p].stopping
    case Tick(now) => now >= w.now
  }

  ghost predicate Enabled(w: World, e: Event) {
    match e
    case OnLedger(step) => LedgerEnabled(w, step)
    case OnServer(step) => ServerEnabled(w, step)
    case OnTask(t, step) => TaskEnabled(w, t, step)
  }

  // ---- What each step does ----

  function SetPc(w: World, t: nat, pc: Pc): World
    requires t in w.tasks
  {
    w.(tasks := w.tasks[t := w.tasks[t].(pc := pc)])
  }

  function SetProc(w: World, p: nat, proc: Proc): World { w.(procs := w.procs[p := proc]) }

  function AddTask(w: World, task: Task): World {
    w.(tasks := w.tasks[w.nextTask := task], nextTask := w.nextTask + 1)
  }

  /** A task is over: its guard drops the in-flight count and its registration
      leaves the kill map. */
  function EndTask(w: World, t: nat): World
    requires Alive(w, t)
  {
    var task := w.tasks[t];
    var proc := w.procs[task.proc];
    SetProc(w.(tasks := w.tasks - {t}), task.proc, proc.Left(task.key, task.pc.HoldsGuard(), task.pc.HasToken()))
  }

  function Raise(w: World, p: nat): World
    requires p in w.procs
  {
    SetProc(w, p, w.procs[p].Raised())
  }

  ghost function DoAdmit(w: World, e: LedgerStep): World
    requires e.AdmitStep? && LedgerEnabled(w, e)
  {
    var proc := w.procs[e.p];
    var decision :=
      Decide(w.db, proc.registry, proc.limits, e.authority, e.a, e.prompt, e.source, e.checkedUnix, e.order);
    if decision.Admitted? && Insertable(w.db, e.a) then
      AddTask(w, Task(e.p, NextKey(w.db, e.a), Accepted)).(
        db := GuardedInsert(w.db, e.a, decision.row),
        h := w.h.(homes := w.h.homes + {(NextKey(w.db, e.a), Owner(w.nextTask, e.p))}))
    else w
  }

  /** The answers of a set of tasks that have not reached the ledger. */
  function OnTheWay(tasks: map<nat, Task>): set<Confirm> {
    set t | t in tasks && tasks[t].pc.Answer().Some? :: Confirm(tasks[t].pc.Answer().value, tasks[t].key)
  }

  /** A delivery ends with its answer undelivered. */
  function Lose(h: History, task: Task): History {
    if task.pc.Answer().Some? then h.(lost := h.lost + {Confirm(task.pc.Answer().value, task.key)}) else h
  }

  function DoCrash(w: World, p: nat): World {
    w.(procs := w.procs - {p},
       tasks := map t | t in w.tasks && w.tasks[t].proc != p :: w.tasks[t],
       sinks := map t | t in w.sinks :: if w.sinks[t].proc == p then w.sinks[t].(lost := true) else w.sinks[t],
       edits := (set edit | edit in w.edits && edit.proc != p),
       h := w.h.(lost := w.h.lost + OnTheWay(TasksOf(w, p))))
  }

  function TasksOf(w: World, p: nat): map<nat, Task> {
    map t | t in w.tasks && w.tasks[t].proc == p :: w.tasks[t]
  }

  function DoClaim(w: World, t: nat): World
    requires Alive(w, t)
  {
    var task := w.tasks[t];
    if InState(w.db, task.key, Queued) then
      SetPc(w, t, Claimed).(
        db := ClaimTurn(w.db, task.key, w.now),
        h := w.h.(claims := w.h.claims[task.key := Owner(t, task.proc)]))
    else EndTask(w, t)
  }

  function DoInstall(w: World, t: nat): World
    requires Alive(w, t)
  {
    var task := w.tasks[t];
    var proc := w.procs[task.proc];
    SetProc(SetPc(w, t, Registered), task.proc, proc.Installed(task.key, t))
  }

  function DoLoadTurn(w: World, t: nat, mcpReady: bool): World
    requires Alive(w, t) && w.tasks[t].pc.Rank() == 8
  {
    var task := w.tasks[t];
    match LoadPlan(w.db, w.procs[task.proc].registry, task.key, task.pc.agent, task.pc.mark, mcpReady)
    case LoadFails(error) => SetPc(w, t, Aborting(error))
    case LoadRotates(plan) => SetPc(w, t, Rotating(plan))
    case Loads(plan) => SetPc(w, t, Ready(plan))
  }

  function DoRotate(w: World, t: nat, session: string): World
    requires Alive(w, t) && w.tasks[t].pc.Rank() == 9
  {
    var task := w.tasks[t];
    SetPc(w, t, Ready(task.pc.plan.(resume := Some(ClientAssigned(session)), mark := |w.h.confirms|))).(
      db := Assign(w.db, task.key.agent, session),
      h := w.h.(issued := w.h.issued[session := task.key.agent]))
  }

  /** The last gate, then the provider is polled for the first time. */
  ghost function DoCallProvider(w: World, t: nat): World
    requires Alive(w, t) && w.tasks[t].pc.Rank() == 10
  {
    var task := w.tasks[t];
    var plan := task.pc.plan;
    var registry := w.procs[task.proc].registry;
    if plan.provider !in registry then SetPc(w, t, Aborting("unknown provider"))
    else if Blocked(registry[plan.provider], IntentOf(plan)) then SetPc(w, t, Aborting("unsupported"))
    else
      SetPc(w, t, InProvider(plan)).(
        sinks := w.sinks[t := Sink(task.proc, task.key, [], 0, false)],
        h := w.h.(launches := w.h.launches +
               [Launch(t, task.proc, task.key, plan, registry[plan.provider], NowKnown(w))]))
  }

  function NowKnown(w: World): Moment {
    Moment(|w.h.confirms|, |w.h.told|, w.h.lost + OnTheWay(w.tasks))
  }

  /** A provider named a conversation; the ledger may or may not have heard. */
  function NoteTold(h: History, id: string, k: Key): History { h.(told := h.told + [Confirm(id, k)]) }

  function NoteHeard(h: History, id: string, k: Key): History { h.(confirms := h.confirms + [Confirm(id, k)]) }

  function DoConfirm(w: World, t: nat, id: string): World
    requires t in w.tasks
  {
    var k := w.tasks[t].key;
    w.(db := RecordProviderSession(w.db, k, id), h := NoteHeard(NoteTold(w.h, id, k), id, k))
  }

  function DoReturn(w: World, t: nat, result: Result): World
    requires Alive(w, t) && w.tasks[t].pc.Rank() == 12
  {
    var v := SetPc(w, t, Settling(w.tasks[t].pc.plan, result));
    var answer := v.tasks[t].pc.Answer();
    if answer.Some? then v.(h := NoteTold(w.h, answer.value, w.tasks[t].key)) else v
  }

  function SettledDb(w: World, t: nat): Db
    requires Alive(w, t) && w.tasks[t].pc.Rank() == 13 && CostsNonNegative(w.db)
  {
    var k := w.tasks[t].key;
    match w.tasks[t].pc.result
    case NotRun(error) => AbortTurn(w.db, k, error, NowSec(w))
    case Finished(ex) =>
      if ex.error.Some? then FailExchange(w.db, k, Failed, ex.error.value, ex, NowSec(w))
      else CompleteTurn(w.db, k, ex, NowSec(w))
  }

  /** Whether the settlement is the one that recorded the turn. */
  predicate Records(w: World, t: nat)
    requires Alive(w, t) && w.tasks[t].pc.Rank() == 13
  {
    var k := w.tasks[t].key;
    match w.tasks[t].pc.result
    case NotRun(error) => false
    case Finished(ex) => if ex.error.Some? then InFlight(w.db, k) else InState(w.db, k, Running)
  }

  function DoSettle(w: World, t: nat): World
    requires Alive(w, t) && w.tasks[t].pc.Rank() == 13 && CostsNonNegative(w.db)
  {
    var task := w.tasks[t];
    EndTask(w, t).(
      db := SettledDb(w, t),
      h := if !Records(w, t) then Lose(w.h, task)
           else if task.pc.Answer().Some? then NoteHeard(w.h, task.pc.Answer().value, task.key)
           else w.h)
  }

  function DoWriteUsage(w: World, t: nat): World
    requires t in w.sinks && w.sinks[t].written < |w.sinks[t].emitted|
  {
    var sink := w.sinks[t];
    w.(db := RecordUsage(w.db, sink.key, sink.emitted[sink.written]),
       sinks := w.sinks[t := sink.(written := sink.written + 1)])
  }

  function DoKillRecord(w: World, p: nat, k: Key, error: string): World
    requires p in w.procs
  {
    w.(db := Interrupt(w.db, w.procs[p].registry, k, Killed, error, w.now, Live),
       h := w.h.(recorded := if k in w.db.turns then w.h.recorded + {(p, k)} else w.h.recorded,
                 killedQueued := if InState(w.db, k, Queued) then w.h.killedQueued + {k} else w.h.killedQueued))
  }

  function DoKillSignal(w: World, p: nat, k: Key): World
    requires p in w.procs
  {
    var proc := w.procs[p];
    SetProc(w, p, proc.Signalled(k)).(
      h := w.h.(killed := w.h.killed + {(p, k)}))
  }

  ghost function LedgerNext(w: World, e: LedgerStep): World
    requires LedgerEnabled(w, e)
  {
    match e
    case CreateAgentStep(p, a, request, session, spawnedBy) =>
      w.(db := CreateAgent(w.db, a, NormalizedDef(w.procs[p].runtime, request), session, spawnedBy),
         h := w.h.(issued := w.h.issued[session := a]))
    case CheckDefStep(p, a, request) =>
      var def := NormalizedDef(w.procs[p].runtime, request);
      if MayRedefine(w.db, a, def) then w.(edits := w.edits + {Edit(p, a, def)}) else w
    case UpdateDefStep(edit) => w.(db := UpdateDef(w.db, edit.agent, edit.def), edits := w.edits - {edit})
    case RetireStep(a) => w.(db := Retire(w.db, a))
    case AdmitStep(_, _, _, _, _, _, _) => DoAdmit(w, e)
    case KillRecord(p, k, error) => DoKillRecord(w, p, k, error)
    case RecoverStep(p, k, error) =>
      w.(db := Interrupt(w.db, w.procs[p].registry, k, Failed, error, w.now, Recovery))
    case WriteUsage(t) => DoWriteUsage(w, t)
  }

  function ServerNext(w: World, e: ServerStep): World
    requires ServerEnabled(w, e)
  {
    match e
    case Boot(kind, limits, registry, runtime) =>
      SetProc(w, w.nextProc, Proc(kind, limits, registry, runtime, false, Parked, false, 0, map[], {})).(
        nextProc := w.nextProc + 1)
    case Open(p) => SetProc(w, p, w.procs[p].(open := true))
    case Start(p) => SetProc(w, p, w.procs[p].Begun())
    case Crash(p) => DoCrash(w, p)
    case Redeliver(p, k) =>
      AddTask(w, Task(p, k, Buffered)).(h := w.h.(homes := w.h.homes + {(k, Owner(w.nextTask, p))}))
    case Poll(p, k) => AddTask(Raise(w, p), Task(p, k, Reserved))
    case KillSignal(p, k) => DoKillSignal(w, p, k)
    case BeginDrain(p) => SetProc(w, p, w.procs[p].(stopping := true))
    case ReadInflight(p) => if w.procs[p].inflight == 0 then w.(h := w.h.(drained := w.h.drained + {p})) else w
    case Tick(now) => w.(now := now)
  }

  ghost function TaskNext(w: World, t: nat, step: TaskStep): World
    requires TaskEnabled(w, t, step)
  {
    var task := w.tasks[t];
    match step
    case Submit => if w.procs[task.proc].kind == Hand then SetPc(w, t, Buffered) else EndTask(w, t)
    case Spawn => SetPc(w, t, Spawned)
    case Reserve => Raise(SetPc(w, t, Reserved), task.proc)
    case Guard => if w.procs[task.proc].stopping then EndTask(w, t) else SetPc(w, t, Guarded)
    case Claim => DoClaim(w, t)
    case Install => DoInstall(w, t)
    case Recheck => if InState(w.db, task.key, Running) then SetPc(w, t, Checked) else EndTask(w, t)
    case LoadAgent =>
      SetPc(w, t, if task.key.agent in w.db.agents then AgentRead(w.db.agents[task.key.agent], |w.h.confirms|)
                  else Aborting("no agent"))
    case LoadTurn(mcpReady) => DoLoadTurn(w, t, mcpReady)
    case Rotate(session) => DoRotate(w, t, session)
    case CallProvider => DoCallProvider(w, t)
    case EmitUsage(usage) =>
      w.(sinks := w.sinks[t := w.sinks[t].(emitted := w.sinks[t].emitted + [usage])])
    case ConfirmSession(session) => DoConfirm(w, t, session)
    case LoseSession(session) =>
      w.(h := NoteTold(w.h, session, task.key).(lost := w.h.lost + {Confirm(session, task.key)}))
    case ProviderReturns(result) => DoReturn(w, t, result)
    case Settle => DoSettle(w, t)
    case Abort => EndTask(w, t).(db := AbortTurn(w.db, task.key, task.pc.error, NowSec(w)))
    case DropFuture => EndTask(w, t).(h := Lose(w.h, task))
  }

  ghost function Next(w: World, e: Event): World
    requires Enabled(w, e)
  {
    match e
    case OnLedger(step) => LedgerNext(w, step)
    case OnServer(step) => ServerNext(w, step)
    case OnTask(t, step) => TaskNext(w, t, step)
  }

  /** A task step touches its own task, which keeps its name, turn and process. */
  ghost predicate OnlyTask(w: World, v: World, t: nat) {
    && (forall u | u in v.tasks :: u in w.tasks && (u != t ==> v.tasks[u] == w.tasks[u]))
    && (forall u | u in w.tasks && u != t :: u in v.tasks)
    && (t in v.tasks ==> v.tasks[t].key == w.tasks[t].key && v.tasks[t].proc == w.tasks[t].proc)
    && v.nextTask == w.nextTask && v.nextProc == w.nextProc && v.now == w.now
    && v.procs.Keys == w.procs.Keys
  }

  /** Everything a step of task `t` does besides the ledger: where the task goes,
      what its process notes of it, and which parts of the history stay. */
  ghost predicate Moves(w: World, v: World, t: nat, step: TaskStep)
    requires Alive(w, t)
  {
    var task := w.tasks[t];
    && v.nextTask == w.nextTask && v.nextProc == w.nextProc && v.now == w.now
    && v.h.recorded == w.h.recorded && v.h.killed == w.h.killed && v.h.drained == w.h.drained
    && v.h.homes == w.h.homes && v.h.killedQueued == w.h.killedQueued
    && (!step.Claim? ==> v.h.claims == w.h.claims)
    && (!step.CallProvider? ==> v.h.launches == w.h.launches)
    && if t in v.tasks then
         && v.tasks == w.tasks[t := task.(pc := v.tasks[t].pc)]
         && v.procs == (if step.Reserve? then Raise(w, task.proc).procs
                        else if step.Install? then w.procs[task.proc := w.procs[task.proc].Installed(task.key, t)]
                        else w.procs)
         && Advances(task.pc, v.tasks[t].pc, step)
       else v.tasks == w.tasks - {t} && v.procs == EndTask(w, t).procs
  }

  /** A guard comes with the reservation, the claim with the claim, a token with
      its installation and a launch with the provider call; none is lost before
      the end. */
  predicate Advances(before: Pc, after: Pc, step: TaskStep) {
    && (after.HoldsGuard() <==> before.HoldsGuard() || step.Reserve?)
    && (after.OwnsClaim() <==> before.OwnsClaim() || step.Claim?)
    && (after.HasToken() <==> before.HasToken() || step.Install?)
    && (if step.CallProvider? then before.Rank() == 10 else after.Launched() <==> before.Launched())
    && (step.Install? ==> before == Claimed && after == Registered)
  }

  lemma SettleMoves(w: World, t: nat)
    requires TaskEnabled(w, t, Settle)
    ensures Moves(w, DoSettle(w, t), t, Settle)
  {
    var v := DoSettle(w, t);
    assert v == EndTask(w, t).(db := v.db, h := v.h);
  }

  lemma ClaimMoves(w: World, t: nat)
    requires TaskEnabled(w, t, TaskStep.Claim)
    ensures Moves(w, DoClaim(w, t), t, TaskStep.Claim)
  {
  }

  lemma InstallMoves(w: World, t: nat)
    requires TaskEnabled(w, t, Install)
    ensures Moves(w, DoInstall(w, t), t, Install)
  {
  }

  lemma LoadMoves(w: World, t: nat, mcpReady: bool)
    requires TaskEnabled(w, t, LoadTurn(mcpReady))
    ensures Moves(w, DoLoadTurn(w, t, mcpReady), t, LoadTurn(mcpReady))
  {
  }

  lemma RotateMoves(w: World, t: nat, session: string)
    requires TaskEnabled(w, t, Rotate(session))
    ensures Moves(w, DoRotate(w, t, session), t, Rotate(session))
  {
  }

  lemma CallMoves(w: World, t: nat)
    requires TaskEnabled(w, t, CallProvider)
    ensures Moves(w, DoCallProvider(w, t), t, CallProvider)
  {
  }

  lemma ReturnMoves(w: World, t: nat, result: Result)
    requires TaskEnabled(w, t, ProviderReturns(result))
    ensures Moves(w, DoReturn(w, t, result), t, ProviderReturns(result))
  {
  }

  lemma ConfirmMoves(w: World, t: nat, session: string)
    requires TaskEnabled(w, t, ConfirmSession(session))
    ensures Moves(w, DoConfirm(w, t, session), t, ConfirmSession(session))
  {
  }

  /** The steps whose effect `TaskNext` spells out itself. */
  predicate Plain(step: TaskStep) {
    && !step.Settle? && !step.Claim? && !step.Install? && !step.LoadTurn? && !step.Rotate? && !step.CallProvider?
    && !step.ConfirmSession? && !step.ProviderReturns?
  }

  lemma PlainMoves(w: World, t: nat, step: TaskStep)
    requires TaskEnabled(w, t, step) && Plain(step)
    ensures Moves(w, TaskNext(w, t, step), t, step)
  {
  }

  /** What every step of a task does to the tasks, the processes and the history. */
  lemma TaskStepMoves(w: World, t: nat, step: TaskStep)
    requires TaskEnabled(w, t, step)
    ensures Moves(w, TaskNext(w, t, step), t, step)
  {
    match step {
      case Settle => SettleMoves(w, t);
      case Claim => ClaimMoves(w, t);
      case Install => InstallMoves(w, t);
      case LoadTurn(mcpReady) => LoadMoves(w, t, mcpReady);
      case Rotate(session) => RotateMoves(w, t, session);
      case CallProvider => CallMoves(w, t);
      case ConfirmSession(session) => ConfirmMoves(w, t, session);
      case ProviderReturns(result) => ReturnMoves(w, t, result);
      case _ => PlainMoves(w, t, step);
    }
  }

  lemma TaskStepIsLocal(w: World, t: nat, step: TaskStep)
    requires TaskEnabled(w, t, step)
    ensures OnlyTask(w, TaskNext(w, t, step), t)
  {
    TaskStepMoves(w, t, step);
  }

  /** What a task step may change of the processes: the in-flight count and the
      kill map of its own process, never a policy, a gate or a signalled token. */
  ghost predicate OnlyBookkeeping(w: World, v: World, t: nat)
    requires t in w.tasks
  {
    && v.procs.Keys == w.procs.Keys
    && forall p | p in w.procs ::
         && v.procs[p] == w.procs[p].(inflight := v.procs[p].inflight, kills := v.procs[p].kills)
         && (p != w.tasks[t].proc ==> v.procs[p] == w.procs[p])
  }

  lemma TaskStepBookkeeping(w: World, t: nat, step: TaskStep)
    requires TaskEnabled(w, t, step)
    ensures OnlyBookkeeping(w, TaskNext(w, t, step), t)
  {
    TaskStepMoves(w, t, step);
  }

  lemma TaskStepHistory(w: World, t: nat, step: TaskStep)
    requires TaskEnabled(w, t, step)
    ensures var v := TaskNext(w, t, step);
            v.h.recorded == w.h.recorded && v.h.killed == w.h.killed && v.h.drained == w.h.drained
            && v.h.homes == w.h.homes && v.h.killedQueued == w.h.killedQueued
  {
    TaskStepMoves(w, t, step);
  }

  /** The kill map follows the registrations. */
  lemma TaskStepTokens(w: World, t: nat, step: TaskStep)
    requires TaskEnabled(w, t, step)
    ensures var v := TaskNext(w, t, step);
            var p := w.tasks[t].proc;
            var k := w.tasks[t].key;
            && (step.Install? ==>
                  t in v.tasks && v.tasks[t].pc == Registered && v.procs[p].kills == w.procs[p].kills[k := t])
            && (!step.Install? && t in v.tasks ==>
                  v.procs[p].kills == w.procs[p].kills && v.tasks[t].pc.HasToken() == w.tasks[t].pc.HasToken())
            && (t !in v.tasks ==>
                  v.procs[p].kills == if w.tasks[t].pc.HasToken() then w.procs[p].kills - {k} else w.procs[p].kills)
  {
    TaskStepMoves(w, t, step);
  }

  /** Only the claim step acquires a claim. */
  lemma TaskStepClaims(w: World, t: nat, step: TaskStep)
    requires TaskEnabled(w, t, step) && !step.Claim?
    ensures TaskNext(w, t, step).h.claims == w.h.claims
    ensures t in TaskNext(w, t, step).tasks ==>
              TaskNext(w, t, step).tasks[t].pc.OwnsClaim() == w.tasks[t].pc.OwnsClaim()
  {
    TaskStepMoves(w, t, step);
  }

  lemma OwnersStayOwners(w: World, t: nat, step: TaskStep)
    requires TaskEnabled(w, t, step) && w.tasks[t].pc.OwnsClaim()
    ensures TaskNext(w, t, step).h.claims == w.h.claims
    ensures t in TaskNext(w, t, step).tasks ==> TaskNext(w, t, step).tasks[t].pc.OwnsClaim()
  {
    TaskStepMoves(w, t, step);
  }

  /** Only the provider call launches. */
  lemma TaskStepLaunches(w: World, t: nat, step: TaskStep)
    requires TaskEnabled(w, t, step) && !step.CallProvider?
    ensures var v := TaskNext(w, t, step);
            && v.h.launches == w.h.launches
            && (t in v.tasks ==> v.tasks[t].pc.Launched() == w.tasks[t].pc.Launched())
  {
    TaskStepMoves(w, t, step);
  }

  /** The launch a provider call appends, when the gate lets it through. */
  ghost function LaunchOf(w: World, t: nat): Launch
    requires Alive(w, t) && w.tasks[t].pc.Rank() == 10
    requires w.tasks[t].pc.plan.provider in w.procs[w.tasks[t].proc].registry
  {
    var task := w.tasks[t];
    Launch(t, task.proc, task.key, task.pc.plan, w.procs[task.proc].registry[task.pc.plan.provider], NowKnown(w))
  }

  ghost predicate Passes(w: World, t: nat)
    requires Alive(w, t) && w.tasks[t].pc.Rank() == 10
  {
    var plan, registry := w.tasks[t].pc.plan, w.procs[w.tasks[t].proc].registry;
    plan.provider in registry && !Blocked(registry[plan.provider], IntentOf(plan))
  }

  lemma CallProviderEffect(w: World, t: nat)
    requires TaskEnabled(w, t, CallProvider)
    ensures var v := DoCallProvider(w, t);
            && t in v.tasks && v.db == w.db && v.h.claims == w.h.claims && v.procs == w.procs
            && v.tasks[t].pc.OwnsClaim()
            && if Passes(w, t) then
                 && v.tasks[t].pc == InProvider(w.tasks[t].pc.plan)
                 && v.h == w.h.(launches := w.h.launches + [LaunchOf(w, t)])
                 && v.sinks == w.sinks[t := Sink(w.tasks[t].proc, w.tasks[t].key, [], 0, false)]
               else v.tasks[t].pc.Aborting? && v.h == w.h && v.sinks == w.sinks
  {
  }

  /** A database at rest: rows from earlier runs, no process, no task. */
  ghost predicate Initial(w: World) {
    && DbInv(w.db)
    && w.procs == map[] && w.tasks == map[] && w.sinks == map[]
    && w.edits == {} && w.h.claims == map[] && w.h.homes == {} && w.h.launches == []
    && w.h.recorded == {} && w.h.killed == {} && w.h.killedQueued == {} && w.h.drained == {}
  }

  /** `after` is reached from `before` by the events, each enabled in turn. */
  ghost predicate Reaches(before: World, events: seq<Event>, after: World)
    decreases |events|
  {
    if events == [] then before == after
    else Enabled(before, events[0]) && Reaches(Next(before, events[0]), events[1..], after)
  }

  lemma {:induction false} ReachesSnoc(before: World, events: seq<Event>, mid: World, e: Event)
    requires Reaches(before, events, mid) && Enabled(mid, e)
    ensures Reaches(before, events + [e], Next(mid, e))
    decreases |events|
  {
    if events == [] {
      assert ([e])[1..] == [];
      assert events + [e] == [e];
    } else {
      ReachesSnoc(Next(before, events[0]), events[1..], mid, e);
      assert (events + [e])[1..] == events[1..] + [e];
    }
  }

  lemma {:induction false} ReachesTrans(a: World, es: seq<Event>, b: World, fs: seq<Event>, c: World)
    requires Reaches(a, es, b) && Reaches(b, fs, c)
    ensures Reaches(a, es + fs, c)
    decreases |es|
  {
    if es == [] {
      assert es + fs == fs;
    } else {
      ReachesTrans(Next(a, es[0]), es[1..], b, fs, c);
      assert (es + fs)[1..] == es[1..] + fs;
    }
  }
}
