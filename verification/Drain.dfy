/** Drain closes the race between shutdown and dispatch: the in-flight count is
    exact, so reading it as zero after raising `stopping` means this executor
    never claims again. */
module Drain {
  import opened Types
  import opened Capability
  import opened Limits
  import opened Rows
  import opened Database
  import opened Admission
  import opened Protocol
  import opened Kept
  import opened Claims
  import opened Kills
  import opened KillSafety

  /** The tasks of a process that hold an in-flight guard. */
  function GuardsIn(tasks: map<nat, Task>, p: nat): set<nat> {
    set t | t in tasks && tasks[t].proc == p && tasks[t].pc.HoldsGuard()
  }

  function Guards(w: World, p: nat): set<nat> { GuardsIn(w.tasks, p) }

  ghost predicate CountIsExact(w: World) {
    forall p: nat | p in w.procs :: w.procs[p].inflight == |Guards(w, p)|
  }

  /** A drained executor has nothing past the point where `stopping` is read. */
  predicate Quiet(w: World, t: nat)
    requires t in w.tasks
  {
    var p := w.tasks[t].proc;
    p in w.procs ==>
      && (p in w.h.drained ==> w.tasks[t].pc.Rank() <= 3)
      && (w.procs[p].dispatch != Dispatching ==> w.tasks[t].pc.Rank() <= 1)
  }

  ghost predicate AllQuiet(w: World) { forall t: nat | t in w.tasks :: Quiet(w, t) }

  predicate GateIn(w: World, p: nat)
    requires p in w.procs
  {
    && (p in w.h.drained ==> w.procs[p].stopping)
    && (w.procs[p].dispatch == Dispatching ==> w.procs[p].open)
  }

  ghost predicate GatesKept(w: World) {
    && (forall p: nat | p in w.procs :: GateIn(w, p))
    && (forall p: nat | p in w.h.drained :: p < w.nextProc)
  }

  ghost predicate DrainInv(w: World) { CountIsExact(w) && AllQuiet(w) && GatesKept(w) }

  // ---- The count ----

  lemma GuardsFollow(w: World, v: World, t: nat, p: nat)
    requires t in w.tasks && OnlyTask(w, v, t)
    ensures Guards(v, p) ==
            (Guards(w, p) - {t})
            + (if t in v.tasks && w.tasks[t].proc == p && v.tasks[t].pc.HoldsGuard() then {t} else {})
  {
  }

  /** A task's guard is what its step adds to or takes from the count. */
  ghost predicate CountMoves(w: World, v: World, t: nat)
    requires Alive(w, t)
  {
    var p := w.tasks[t].proc;
    && p in v.procs
    && v.procs[p].inflight - w.procs[p].inflight ==
       (if t in v.tasks && v.tasks[t].pc.HoldsGuard() then 1 else 0) - (if w.tasks[t].pc.HoldsGuard() then 1 else 0)
  }

  lemma MovesCount(w: World, v: World, t: nat, step: TaskStep)
    requires TaskEnabled(w, t, step) && Moves(w, v, t, step)
    ensures CountMoves(w, v, t)
  {
  }

  lemma CountFollows(w: World, v: World, t: nat)
    requires Alive(w, t) && CountIsExact(w) && OnlyTask(w, v, t) && OnlyBookkeeping(w, v, t) && CountMoves(w, v, t)
    ensures CountIsExact(v)
  {
    forall p: nat | p in v.procs ensures v.procs[p].inflight == |Guards(v, p)| {
      GuardsFollow(w, v, t, p);
    }
  }

  lemma TaskStepKeepsCount(w: World, t: nat, step: TaskStep)
    requires TaskEnabled(w, t, step) && CountIsExact(w)
    ensures CountIsExact(TaskNext(w, t, step))
  {
    TaskStepMoves(w, t, step);
    TaskStepIsLocal(w, t, step);
    TaskStepBookkeeping(w, t, step);
    MovesCount(w, TaskNext(w, t, step), t, step);
    CountFollows(w, TaskNext(w, t, step), t);
  }

  /** A ledger or server step other than a poll moves no guard of a process
      that survives it. */
  lemma GuardsStay(w: World, v: World)
    requires CountIsExact(w) && Named(w)
    requires forall p: nat | p in v.procs :: if p in w.procs then v.procs[p].inflight == w.procs[p].inflight
                                              else v.procs[p].inflight == 0 && p >= w.nextProc
    requires forall t: nat | t in w.tasks && w.tasks[t].proc in v.procs :: t in v.tasks && v.tasks[t] == w.tasks[t]
    requires forall t: nat | t in v.tasks ::
               if t in w.tasks then v.tasks[t] == w.tasks[t] else !v.tasks[t].pc.HoldsGuard()
    ensures CountIsExact(v)
  {
    forall p: nat | p in v.procs ensures v.procs[p].inflight == |Guards(v, p)| {
      assert Guards(v, p) == Guards(w, p);
    }
  }

  lemma NewGuard(tasks: map<nat, Task>, n: nat, task: Task, q: nat)
    requires n !in tasks && task.pc.HoldsGuard()
    ensures |GuardsIn(tasks[n := task], q)| == |GuardsIn(tasks, q)| + (if q == task.proc then 1 else 0)
  {
    assert GuardsIn(tasks[n := task], q) == GuardsIn(tasks, q) + if q == task.proc then {n} else {};
  }

  lemma PollKeepsCount(w: World, p: nat, k: Key)
    requires CountIsExact(w) && Named(w) && ServerEnabled(w, Poll(p, k))
    ensures CountIsExact(ServerNext(w, Poll(p, k)))
  {
    var v := ServerNext(w, Poll(p, k));
    forall q: nat | q in v.procs ensures v.procs[q].inflight == |Guards(v, q)| {
      NewGuard(w.tasks, w.nextTask, Task(p, k, Reserved), q);
    }
  }

  /** Only a poll takes a guard outside a task's own steps. */
  lemma ServerStepCounts(w: World, e: ServerStep, p: nat)
    requires Named(w) && ServerEnabled(w, e) && !e.Poll? && p in ServerNext(w, e).procs
    ensures var v := ServerNext(w, e);
            if p in w.procs then v.procs[p].inflight == w.procs[p].inflight
            else v.procs[p].inflight == 0 && p >= w.nextProc
  {
  }

  lemma ServerStepKeepsCount(w: World, e: ServerStep)
    requires CountIsExact(w) && Named(w) && ServerEnabled(w, e)
    ensures CountIsExact(ServerNext(w, e))
  {
    if e.Poll? {
      PollKeepsCount(w, e.p, e.k);
    } else {
      forall p: nat | p in ServerNext(w, e).procs
        ensures if p in w.procs then ServerNext(w, e).procs[p].inflight == w.procs[p].inflight
                else ServerNext(w, e).procs[p].inflight == 0 && p >= w.nextProc
      {
        ServerStepCounts(w, e, p);
      }
      ServerStepIsLocal(w, e);
      GuardsStay(w, ServerNext(w, e));
    }
  }

  // ---- The gate ----

  /** What moves a task forward past the gate and the drain. */
  lemma EarlySteps(w: World, t: nat, step: TaskStep)
    requires TaskEnabled(w, t, step) && w.tasks[t].pc.Rank() <= 3
    ensures var v := TaskNext(w, t, step);
            var proc := w.procs[w.tasks[t].proc];
            t in v.tasks ==>
              || (w.tasks[t].pc.Rank() == 0 && v.tasks[t].pc.Rank() == 1)
              || (v.tasks[t].pc.Rank() <= 3 && (w.tasks[t].pc.Rank() == 1 ==> proc.dispatch == Dispatching)
                  && w.tasks[t].pc.Rank() >= 1)
              || (w.tasks[t].pc.Rank() == 3 && !proc.stopping)
  {
    match step {
      case Submit =>
      case Spawn =>
      case Reserve =>
      case Guard =>
    }
  }

  lemma TaskStepIsQuiet(w: World, t: nat, step: TaskStep)
    requires TaskEnabled(w, t, step) && DrainInv(w)
    ensures var v := TaskNext(w, t, step); t in v.tasks ==> Quiet(v, t)
  {
    TaskStepIsLocal(w, t, step);
    TaskStepBookkeeping(w, t, step);
    TaskStepHistory(w, t, step);
    assert Quiet(w, t) && GateIn(w, w.tasks[t].proc);
    if w.tasks[t].pc.Rank() <= 3 {
      EarlySteps(w, t, step);
    }
  }

  lemma TaskStepKeepsDrain(w: World, t: nat, step: TaskStep)
    requires TaskEnabled(w, t, step) && DrainInv(w)
    ensures DrainInv(TaskNext(w, t, step))
  {
    var v := TaskNext(w, t, step);
    TaskStepKeepsCount(w, t, step);
    TaskStepIsLocal(w, t, step);
    TaskStepBookkeeping(w, t, step);
    TaskStepHistory(w, t, step);
    TaskStepIsQuiet(w, t, step);
    forall u: nat | u in v.tasks ensures Quiet(v, u) {
      assert Quiet(w, u);
    }
    forall p: nat | p in v.procs ensures GateIn(v, p) {
      assert GateIn(w, p);
    }
  }

  lemma LedgerStepKeepsDrain(w: World, e: LedgerStep)
    requires Named(w) && LedgerEnabled(w, e) && DrainInv(w)
    ensures DrainInv(LedgerNext(w, e))
  {
    var v := LedgerNext(w, e);
    LedgerStepIsLocal(w, e);
    LedgerStepKeepsServers(w, e);
    GuardsStay(w, v);
    forall u: nat | u in v.tasks ensures Quiet(v, u) {
      assert u in w.tasks ==> Quiet(w, u);
    }
    forall p: nat | p in v.procs ensures GateIn(v, p) {
      assert GateIn(w, p);
    }
  }

  lemma LedgerStepKeepsServers(w: World, e: LedgerStep)
    requires LedgerEnabled(w, e)
    ensures LedgerNext(w, e).h.drained == w.h.drained && LedgerNext(w, e).nextProc == w.nextProc
  {
  }

  lemma NothingInFlight(w: World, p: nat, t: nat)
    requires CountIsExact(w) && p in w.procs && w.procs[p].inflight == 0
    requires t in w.tasks && w.tasks[t].proc == p
    ensures w.tasks[t].pc.Rank() < 3
  {
    assert w.tasks[t].pc.HoldsGuard() ==> t in Guards(w, p);
  }

  lemma ReadStaysQuiet(w: World, p: nat, u: nat)
    requires DrainInv(w) && ServerEnabled(w, ReadInflight(p)) && u in w.tasks
    ensures Quiet(ServerNext(w, ReadInflight(p)), u)
  {
    assert Quiet(w, u);
    if w.tasks[u].proc == p && w.procs[p].inflight == 0 {
      NothingInFlight(w, p, u);
    }
  }

  /** A task that was there before a step goes on being quiet. */
  lemma OldTaskStaysQuiet(w: World, v: World, u: nat)
    requires u in w.tasks && u in v.tasks && v.tasks[u] == w.tasks[u] && Quiet(w, u) && v.h.drained == w.h.drained
    requires var p := w.tasks[u].proc;
             p in v.procs ==>
               p in w.procs && (w.procs[p].dispatch == Dispatching ==> v.procs[p].dispatch == Dispatching)
    ensures Quiet(v, u)
  {
  }

  lemma ServerStepKeepsDispatch(w: World, e: ServerStep, p: nat)
    requires ServerEnabled(w, e) && p in w.procs && p in ServerNext(w, e).procs && w.procs[p].dispatch == Dispatching
    requires p != w.nextProc
    ensures ServerNext(w, e).procs[p].dispatch == Dispatching
  {
  }

  /** A delivery a server step adds has not passed the gate unless it is open. */
  lemma NewTaskIsQuiet(w: World, e: ServerStep, u: nat)
    requires Named(w) && ServerEnabled(w, e) && u in ServerNext(w, e).tasks && u !in w.tasks
    ensures Quiet(ServerNext(w, e), u)
  {
  }

  lemma ServerStepIsQuiet(w: World, e: ServerStep, u: nat)
    requires Named(w) && ServerEnabled(w, e) && DrainInv(w) && u in ServerNext(w, e).tasks
    ensures Quiet(ServerNext(w, e), u)
  {
    if e.ReadInflight? {
      ReadStaysQuiet(w, e.p, u);
    } else if u !in w.tasks {
      NewTaskIsQuiet(w, e, u);
    } else {
      var v, p := ServerNext(w, e), w.tasks[u].proc;
      ServerStepIsLocal(w, e);
      assert Quiet(w, u);
      if p in v.procs && w.procs[p].dispatch == Dispatching { ServerStepKeepsDispatch(w, e, p); }
      OldTaskStaysQuiet(w, v, u);
    }
  }

  lemma ServerStepKeepsGate(w: World, e: ServerStep, p: nat)
    requires ServerEnabled(w, e) && GatesKept(w) && p in ServerNext(w, e).procs
    ensures GateIn(ServerNext(w, e), p)
  {
    assert p in w.procs ==> GateIn(w, p);
  }

  lemma ServerStepKeepsDrained(w: World, e: ServerStep)
    requires Named(w) && ServerEnabled(w, e) && GatesKept(w)
    ensures forall p: nat | p in ServerNext(w, e).h.drained :: p < ServerNext(w, e).nextProc
  {
  }

  lemma ServerStepKeepsDrain(w: World, e: ServerStep)
    requires Named(w) && ServerEnabled(w, e) && DrainInv(w)
    ensures DrainInv(ServerNext(w, e))
  {
    var v := ServerNext(w, e);
    ServerStepKeepsCount(w, e);
    forall u: nat | u in v.tasks ensures Quiet(v, u) {
      ServerStepIsQuiet(w, e, u);
    }
    forall p: nat | p in v.procs ensures GateIn(v, p) {
      ServerStepKeepsGate(w, e, p);
    }
    ServerStepKeepsDrained(w, e);
  }

  /** The in-flight count equals the number of live guards, before the gate
      nothing is past the channel, and a drained executor has nothing past the
      point where `stopping` is read. */
  lemma StepKeepsDrain(w: World, e: Event)
    requires Named(w) && Enabled(w, e) && DrainInv(w)
    ensures DrainInv(Next(w, e))
  {
    match e {
      case OnLedger(step) => LedgerStepKeepsDrain(w, step);
      case OnServer(step) => ServerStepKeepsDrain(w, step);
      case OnTask(t, step) => TaskStepKeepsDrain(w, t, step);
    }
  }

  lemma {:induction false} RunKeepsDrain(before: World, events: seq<Event>, after: World)
    requires ProtocolInv(before) && DrainInv(before) && Reaches(before, events, after)
    ensures ProtocolInv(after) && DrainInv(after)
    decreases |events|
  {
    if events != [] {
      StepKeepsProtocol(before, events[0]);
      StepKeepsDrain(before, events[0]);
      RunKeepsDrain(Next(before, events[0]), events[1..], after);
    }
  }

  lemma InitialHasDrain(w: World)
    requires Initial(w)
    ensures DrainInv(w)
  {
  }

  // ---- What a closed executor cannot do ----

  /** Nothing of this process has won the right to claim, and nothing will. */
  ghost predicate Closed(w: World, p: nat) {
    && p < w.nextProc
    && (p in w.procs ==> w.procs[p].stopping && (p in w.h.drained || w.procs[p].dispatch != Dispatching))
  }

  lemma ServerStepStaysClosed(w: World, e: ServerStep, p: nat)
    requires Named(w) && ServerEnabled(w, e) && Closed(w, p)
    ensures Closed(ServerNext(w, e), p)
  {
  }

  lemma TaskStepStaysClosed(w: World, v: World, t: nat, step: TaskStep, p: nat)
    requires TaskEnabled(w, t, step) && Moves(w, v, t, step) && OnlyBookkeeping(w, v, t) && Closed(w, p)
    ensures Closed(v, p)
  {
  }

  lemma ClosedStaysClosed(w: World, e: Event, p: nat)
    requires Named(w) && Enabled(w, e) && Closed(w, p)
    ensures Closed(Next(w, e), p)
  {
    match e {
      case OnLedger(step) =>
        LedgerStepIsLocal(w, step);
        LedgerStepKeepsServers(w, step);
      case OnServer(step) => ServerStepStaysClosed(w, step, p);
      case OnTask(t, step) =>
        TaskStepMoves(w, t, step);
        TaskStepBookkeeping(w, t, step);
        TaskStepStaysClosed(w, TaskNext(w, t, step), t, step, p);
    }
  }

  /** Every claim is won by a delivery of a process whose gate is open and whose
      drain has not finished. */
  lemma ClaimsNeedAnOpenGate(w: World, t: nat)
    requires DrainInv(w) && TaskEnabled(w, t, TaskStep.Claim)
    ensures var p := w.tasks[t].proc;
            w.procs[p].open && w.procs[p].dispatch == Dispatching && p !in w.h.drained
  {
    assert Quiet(w, t) && GateIn(w, w.tasks[t].proc);
  }

  lemma StepClaimsOnlyWhenOpen(w: World, e: Event, p: nat, k: Key)
    requires DrainInv(w) && Enabled(w, e) && Closed(w, p)
    requires k in Next(w, e).h.claims && Next(w, e).h.claims[k].proc == p
    ensures k in w.h.claims && w.h.claims[k] == Next(w, e).h.claims[k]
  {
    OnlyClaimStepsClaim(w, e);
    if e.OnTask? && e.step.Claim? {
      ClaimsNeedAnOpenGate(w, e.t);
    }
  }

  /** Once `drain` has raised `stopping` and then read an in-flight count of
      zero, and equally when it came before the readiness gate opened, that
      executor wins no claim in any continuation. */
  lemma {:induction false} ClosedNeverClaims(before: World, events: seq<Event>, after: World, p: nat, k: Key)
    requires ProtocolInv(before) && DrainInv(before) && Closed(before, p)
    requires Reaches(before, events, after)
    requires k in after.h.claims && after.h.claims[k].proc == p
    ensures k in before.h.claims && before.h.claims[k] == after.h.claims[k]
    decreases |events|
  {
    if events != [] {
      var mid := Next(before, events[0]);
      StepKeepsProtocol(before, events[0]);
      StepKeepsDrain(before, events[0]);
      ClosedStaysClosed(before, events[0], p);
      ClosedNeverClaims(mid, events[1..], after, p, k);
      StepClaimsOnlyWhenOpen(before, events[0], p, k);
    }
  }

  lemma ClosedCannotCall(w: World, t: nat)
    requires DrainInv(w) && TaskEnabled(w, t, CallProvider)
    ensures !Closed(w, w.tasks[t].proc)
  {
    assert Quiet(w, t);
  }

  /** Nor does it call any provider: whatever it had claimed is over. */
  lemma {:induction false} ClosedNeverLaunches(before: World, events: seq<Event>, after: World, p: nat, i: nat)
    requires ProtocolInv(before) && DrainInv(before) && Closed(before, p)
    requires Reaches(before, events, after) && LaunchedSince(before, after, i)
    ensures after.h.launches[i].proc != p
    decreases |events|
  {
    var mid := Next(before, events[0]);
    LaunchedFirstOrLater(before, events, after, i);
    if i < |mid.h.launches| {
      ClosedCannotCall(before, events[0].t);
    } else {
      StepKeepsProtocol(before, events[0]);
      StepKeepsDrain(before, events[0]);
      ClosedStaysClosed(before, events[0], p);
      ClosedNeverLaunches(mid, events[1..], after, p, i);
    }
  }

  /** `drain`: raising the flag and then reading zero closes the executor. */
  lemma DrainCloses(start: World, events: seq<Event>, w: World, p: nat)
    requires Initial(start) && Reaches(start, events, w)
    requires p in w.procs && w.procs[p].stopping
    ensures w.procs[p].inflight == |Guards(w, p)|
    ensures w.procs[p].inflight == 0 ==> Closed(Next(w, OnServer(ReadInflight(p))), p)
    ensures w.procs[p].dispatch != Dispatching ==> Closed(w, p)
  {
    InitialHasProtocol(start);
    InitialHasDrain(start);
    RunKeepsDrain(start, events, w);
  }

  // ---- From the flag on ----

  ghost predicate Stopping(w: World, p: nat) { p < w.nextProc && (p in w.procs ==> w.procs[p].stopping) }

  lemma TaskStepStaysStopping(w: World, v: World, t: nat, step: TaskStep, p: nat)
    requires TaskEnabled(w, t, step) && Moves(w, v, t, step) && OnlyBookkeeping(w, v, t) && Stopping(w, p)
    ensures Stopping(v, p)
  {
  }

  lemma StoppingStays(w: World, e: Event, p: nat)
    requires Named(w) && Enabled(w, e) && Stopping(w, p)
    ensures Stopping(Next(w, e), p)
  {
    match e {
      case OnLedger(step) => LedgerStepIsLocal(w, step);
      case OnServer(step) => ServerStepIsLocal(w, step);
      case OnTask(t, step) =>
        TaskStepMoves(w, t, step);
        TaskStepBookkeeping(w, t, step);
        TaskStepStaysStopping(w, TaskNext(w, t, step), t, step, p);
    }
  }

  lemma OwnStepToGuarded(w: World, t: nat, step: TaskStep)
    requires TaskEnabled(w, t, step) && t in TaskNext(w, t, step).tasks && TaskNext(w, t, step).tasks[t].pc == Guarded
    ensures !w.procs[w.tasks[t].proc].stopping
  {
  }

  lemma NewTasksAreUnguarded(w: World, e: Event, t: nat)
    requires Named(w) && Enabled(w, e) && t in Next(w, e).tasks && t !in w.tasks
    ensures Next(w, e).tasks[t].pc != Guarded
  {
    match e {
      case OnLedger(step) => LedgerStepIsLocal(w, step);
      case OnServer(step) =>
      case OnTask(u, step) => TaskStepIsLocal(w, u, step);
    }
  }

  /** Nothing gets past a raised flag. */
  lemma GuardedWasGuarded(w: World, e: Event, p: nat, t: nat)
    requires Named(w) && Enabled(w, e) && Stopping(w, p)
    requires t in Next(w, e).tasks && Next(w, e).tasks[t].pc == Guarded && Next(w, e).tasks[t].proc == p
    ensures t in w.tasks && w.tasks[t] == Next(w, e).tasks[t]
  {
    if t !in w.tasks {
      NewTasksAreUnguarded(w, e, t);
    } else if e.OnTask? && e.t == t {
      TaskStepIsLocal(w, t, e.step);
      OwnStepToGuarded(w, t, e.step);
    } else {
      OtherTasksStand(w, e, t);
    }
  }

  /** A step adds at most the claim of a delivery that had read the flag, and
      takes none away. */
  lemma StepClaims(w: World, e: Event, k: Key)
    requires ClaimInv(w) && Enabled(w, e) && k in Next(w, e).h.claims
    ensures if k in w.h.claims then Next(w, e).h.claims[k] == w.h.claims[k]
            else
              var owner := Next(w, e).h.claims[k];
              owner.task in w.tasks && w.tasks[owner.task] == Task(owner.proc, k, Guarded)
  {
    OnlyClaimStepsClaim(w, e);
  }

  lemma ClaimStays(w: World, e: Event, k: Key)
    requires ClaimInv(w) && Enabled(w, e) && k in w.h.claims
    ensures k in Next(w, e).h.claims && Next(w, e).h.claims[k] == w.h.claims[k]
  {
    OnlyClaimStepsClaim(w, e);
  }

  lemma {:induction false} ClaimsStay(before: World, events: seq<Event>, after: World, k: Key)
    requires ProtocolInv(before) && Reaches(before, events, after) && k in before.h.claims
    ensures k in after.h.claims && after.h.claims[k] == before.h.claims[k]
    decreases |events|
  {
    if events != [] {
      StepKeepsProtocol(before, events[0]);
      ClaimStays(before, events[0], k);
      ClaimsStay(Next(before, events[0]), events[1..], after, k);
    }
  }

  ghost predicate WasGuarded(w: World, owner: Owner, k: Key) {
    owner.task in w.tasks && w.tasks[owner.task] == Task(owner.proc, k, Guarded)
  }

  lemma {:induction false} StoppingClaimsOnlyGuarded(before: World, events: seq<Event>, after: World, p: nat, k: Key)
    requires ProtocolInv(before) && Stopping(before, p) && Reaches(before, events, after)
    requires k in after.h.claims && k !in before.h.claims && after.h.claims[k].proc == p
    ensures WasGuarded(before, after.h.claims[k], k)
    decreases |events|
  {
    var mid := Next(before, events[0]);
    StepKeepsProtocol(before, events[0]);
    if k in mid.h.claims {
      ClaimsStay(mid, events[1..], after, k);
      StepClaims(before, events[0], k);
    } else {
      StoppingStays(before, events[0], p);
      StoppingClaimsOnlyGuarded(mid, events[1..], after, p, k);
      GuardedWasGuarded(before, events[0], p, after.h.claims[k].task);
    }
  }

  /** A drain takes effect at once: after it has begun, whatever else happens, its
      executor claims only for deliveries that had read the flag before. */
  lemma DrainStopsClaims(w: World, p: nat, events: seq<Event>, after: World, k: Key)
    requires ProtocolInv(w) && p in w.procs && Reaches(Next(w, OnServer(BeginDrain(p))), events, after)
    requires k in after.h.claims && k !in w.h.claims && after.h.claims[k].proc == p
    ensures WasGuarded(w, after.h.claims[k], k)
  {
    StepKeepsProtocol(w, OnServer(BeginDrain(p)));
    StoppingClaimsOnlyGuarded(Next(w, OnServer(BeginDrain(p))), events, after, p, k);
  }
}
