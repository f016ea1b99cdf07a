/** Every delivery can be carried to its end by its own steps alone, and its end
    leaves the turn settled: nothing it waits for can be missing. */
module Completion {
  import opened Types
  import opened Capability
  import opened Limits
  import opened Rows
  import opened Database
  import opened Admission
  import opened Protocol
  import opened Kept
  import opened Claims
  import opened Kills
  import opened KillSafety
  import opened Confluence
  import opened Progress

  /** A step of delivery `t` or of the writer it opened. */
  predicate OwnEvent(e: Event, t: nat) {
    e == OnLedger(WriteUsage(t)) || (e.OnTask? && e.t == t)
  }

  /** A delivery that will settle its turn, given the processor. */
  predicate Bound(w: World, t: nat) {
    && Alive(w, t)
    && var proc := w.procs[w.tasks[t].proc];
       || w.tasks[t].pc.OwnsClaim()
       || (InState(w.db, w.tasks[t].key, Queued) && !proc.stopping && proc.dispatch == Dispatching
           && (w.tasks[t].pc == Accepted ==> proc.kind == Hand))
  }

  function Unwritten(w: World, t: nat): nat
    requires t in w.sinks ==> w.sinks[t].written <= |w.sinks[t].emitted|
  {
    if t in w.sinks then |w.sinks[t].emitted| - w.sinks[t].written else 0
  }

  ghost predicate GoodWorld(w: World) { ProtocolInv(w) && SinksOwned(w) }

  /** What the provider streams while it runs. */
  predicate Streams(step: TaskStep) { step.EmitUsage? || step.ConfirmSession? || step.LoseSession? }

  /** The step a delivery takes by itself, but for a rotation and a settlement. */
  function PlainStep(pc: Pc): TaskStep {
    match pc
    case Accepted => Submit
    case Buffered => Spawn
    case Spawned => Reserve
    case Reserved => Guard
    case Guarded => TaskStep.Claim
    case Claimed => Install
    case Registered => Recheck
    case Checked => LoadAgent
    case AgentRead(_, _) => LoadTurn(true)
    case Ready(_) => CallProvider
    case Aborting(_) => Abort
    case InProvider(_) => ProviderReturns(NotRun("gone"))
    case Rotating(_) => DropFuture
    case Settling(_, _) => DropFuture
  }

  lemma PlainStepIsEnabled(w: World, t: nat)
    requires Bound(w, t) && !w.tasks[t].pc.Rotating? && !w.tasks[t].pc.Settling?
    requires w.tasks[t].pc.Rank() >= 7 ==> !Signalled(w, t)
    ensures TaskEnabled(w, t, PlainStep(w.tasks[t].pc))
  {
  }

  /** A signalled delivery drops its future; any other takes its plain step. */
  lemma PlainNext(w: World, t: nat) returns (e: Event)
    requires Bound(w, t)
    requires (w.tasks[t].pc.Rank() >= 7 && Signalled(w, t)) || (!w.tasks[t].pc.Rotating? && !w.tasks[t].pc.Settling?)
    ensures Enabled(w, e) && e.OnTask? && e.t == t && !Streams(e.step)
  {
    if w.tasks[t].pc.Rank() >= 7 && Signalled(w, t) {
      e := OnTask(t, DropFuture);
    } else {
      PlainStepIsEnabled(w, t);
      e := OnTask(t, PlainStep(w.tasks[t].pc));
    }
  }

  /** The next own step: the one the delivery takes when nothing else happens. */
  lemma NextStepOf(w: World, t: nat) returns (e: Event)
    requires DbInv(w.db) && ClaimInv(w) && SinksOwned(w) && Bound(w, t)
    ensures Enabled(w, e) && OwnEvent(e, t)
    ensures e.OnTask? ==> !Streams(e.step)
    ensures e.OnLedger? ==> w.tasks[t].pc.OwnsClaim()
  {
    var pc := w.tasks[t].pc;
    if (pc.Rank() >= 7 && Signalled(w, t)) || (!pc.Rotating? && !pc.Settling?) {
      e := PlainNext(w, t);
    } else if pc.Rotating? {
      e := RotateNext(w, t);
    } else {
      e := SettlingNext(w, t);
    }
  }

  lemma RotateNext(w: World, t: nat) returns (e: Event)
    requires Alive(w, t) && w.tasks[t].pc.Rotating? && !Signalled(w, t)
    ensures Enabled(w, e) && e.OnTask? && e.t == t && e.step.Rotate?
  {
    var id := FreshExists(w);
    e := OnTask(t, Rotate(id));
  }

  lemma SettlingNext(w: World, t: nat) returns (e: Event)
    requires DbInv(w.db) && ClaimInv(w) && SinksOwned(w)
    requires Alive(w, t) && w.tasks[t].pc.Settling? && !Signalled(w, t)
    ensures Enabled(w, e) && (e == OnTask(t, Settle) || e == OnLedger(WriteUsage(t)))
  {
    assert HasSink(w, t);
    InvHasNonNegativeCosts(w.db);
    e := SettleNext(w, t);
  }

  /** A settling delivery whose snapshots are not all written has a live writer. */
  lemma SettleNext(w: World, t: nat) returns (e: Event)
    requires ClaimInv(w) && SinksOwned(w) && CostsNonNegative(w.db)
    requires Alive(w, t) && w.tasks[t].pc.Settling? && !Signalled(w, t) && t in w.sinks
    ensures Enabled(w, e) && (e == OnTask(t, Settle) || e == OnLedger(WriteUsage(t)))
  {
    assert SinkOwned(w, t);
    assert w.h.claims[w.tasks[t].key] == Owner(t, w.tasks[t].proc);
    e := if Drained(w, t) then OnTask(t, Settle) else OnLedger(WriteUsage(t));
  }

  /** Apart from what the provider streams, every step of a delivery takes it
      strictly forward or ends it. */
  lemma OwnStepsAdvance(w: World, t: nat, step: TaskStep)
    requires TaskEnabled(w, t, step) && !Streams(step)
    ensures var v := TaskNext(w, t, step);
            t in v.tasks ==> v.tasks[t].pc.Rank() > w.tasks[t].pc.Rank()
  {
    match step {
      case LoadAgent =>
      case LoadTurn(_) =>
      case CallProvider =>
      case Claim =>
      case Submit =>
      case _ =>
    }
  }

  /** The way to the claim. */
  lemma EarlyStaysBound(w: World, t: nat, step: TaskStep)
    requires TaskEnabled(w, t, step) && Bound(w, t) && !w.tasks[t].pc.OwnsClaim() && t in TaskNext(w, t, step).tasks
    ensures Bound(TaskNext(w, t, step), t)
  {
    match step {
      case Submit =>
      case Spawn =>
      case Reserve =>
      case Guard =>
      case Claim =>
    }
  }

  lemma BoundStaysBound(w: World, t: nat, step: TaskStep)
    requires TaskEnabled(w, t, step) && Bound(w, t) && t in TaskNext(w, t, step).tasks
    ensures Bound(TaskNext(w, t, step), t)
  {
    if w.tasks[t].pc.OwnsClaim() {
      TaskStepMoves(w, t, step);
      MovesKeepOwner(w, TaskNext(w, t, step), t, step);
    } else {
      EarlyStaysBound(w, t, step);
    }
  }

  lemma MovesKeepOwner(w: World, v: World, t: nat, step: TaskStep)
    requires TaskEnabled(w, t, step) && Moves(w, v, t, step) && w.tasks[t].pc.OwnsClaim() && t in v.tasks
    ensures Bound(v, t)
  {
  }

  lemma OwnerSettles(w: World, t: nat, step: TaskStep)
    requires ProtocolInv(w) && TaskEnabled(w, t, step) && w.tasks[t].pc.OwnsClaim() && t !in TaskNext(w, t, step).tasks
    ensures Settled(TaskNext(w, t, step).db, w.tasks[t].key)
  {
    var v := TaskNext(w, t, step);
    StepKeepsClaims(w, OnTask(t, step));
    OwnerEndsSettled(w, t, step);
    OwnersStayOwners(w, t, step);
    ClaimedIsNotQueued(v, w.tasks[t].key);
  }

  /** A bound delivery that has just ended left its turn settled. */
  lemma BoundEndsSettled(w: World, t: nat, step: TaskStep)
    requires ProtocolInv(w) && TaskEnabled(w, t, step) && Bound(w, t) && t !in TaskNext(w, t, step).tasks
    ensures Settled(TaskNext(w, t, step).db, w.tasks[t].key)
  {
    if w.tasks[t].pc.OwnsClaim() {
      OwnerSettles(w, t, step);
    } else {
      EarlyBoundEnds(w, t, step);
    }
  }

  lemma EarlyBoundEnds(w: World, t: nat, step: TaskStep)
    requires TaskEnabled(w, t, step) && Bound(w, t) && !w.tasks[t].pc.OwnsClaim()
    ensures t in TaskNext(w, t, step).tasks
  {
    match step {
      case Submit =>
      case Spawn =>
      case Reserve =>
      case Guard =>
      case Claim =>
    }
  }

  lemma WritingStaysBound(w: World, t: nat)
    requires LedgerEnabled(w, WriteUsage(t)) && GoodWorld(w) && Bound(w, t) && w.tasks[t].pc.OwnsClaim()
    ensures var v := DoWriteUsage(w, t);
            Bound(v, t) && v.tasks == w.tasks && Unwritten(v, t) == Unwritten(w, t) - 1
  {
  }

  /** Carried to its end by its own steps. */
  ghost predicate Driven(w: World, events: seq<Event>, v: World, t: nat, k: Key) {
    && Reaches(w, events, v)
    && (forall i | 0 <= i < |events| :: OwnEvent(events[i], t))
    && Settled(v.db, k)
  }

  lemma DrivenBefore(w: World, e: Event, events: seq<Event>, v: World, t: nat, k: Key)
    requires Enabled(w, e) && OwnEvent(e, t) && Driven(Next(w, e), events, v, t, k)
    ensures Driven(w, [e] + events, v, t, k)
  {
    assert ([e] + events)[1..] == events;
  }

  lemma DriveToEnd(w: World, t: nat) returns (events: seq<Event>, v: World)
    requires GoodWorld(w) && Bound(w, t)
    ensures Driven(w, events, v, t, w.tasks[t].key)
    decreases 13 - w.tasks[t].pc.Rank(), if t in w.sinks then |w.sinks[t].emitted| - w.sinks[t].written else 0
  {
    var k := w.tasks[t].key;
    var e := NextStepOf(w, t);
    var next := Next(w, e);
    StepKeepsProtocol(w, e);
    if e.OnLedger? {
      WritingStaysBound(w, t);
      WriteKeepsSinks(w, t);
      events, v := DriveToEnd(next, t);
    } else {
      TaskStepKeepsSinks(w, t, e.step);
      OwnStepsAdvance(w, t, e.step);
      TaskStepIsLocal(w, t, e.step);
      if t in next.tasks {
        BoundStaysBound(w, t, e.step);
        events, v := DriveToEnd(next, t);
      } else {
        BoundEndsSettled(w, t, e.step);
        events, v := [], next;
      }
    }
    DrivenBefore(w, e, events, v, t, k);
    events := [e] + events;
  }

  /** Some delivery can settle the turn with nothing but its own steps. */
  ghost predicate CanFinish(w: World, k: Key) {
    exists t, events, v :: Driven(w, events, v, t, k)
  }

  predicate Dispatches(w: World, p: nat) { Serving(w, p) && w.procs[p].dispatch == Dispatching }

  /** In every reachable state a running turn claimed by a live process, and a
      queued turn admitted or resubmitted by one that is dispatching and not
      draining, can be finished by the delivery it already has. */
  lemma NoTurnIsLost(start: World, events: seq<Event>, w: World, k: Key)
    requires Initial(start) && Reaches(start, events, w)
    ensures InState(w.db, k, Running) && k in w.h.claims && w.h.claims[k].proc in w.procs ==> CanFinish(w, k)
    ensures InState(w.db, k, Queued) && Handed(w, k) ==> CanFinish(w, k)
  {
    InitialHasProtocol(start);
    RunKeepsProgress(start, events, w);
    if InState(w.db, k, Running) && k in w.h.claims && w.h.claims[k].proc in w.procs {
      assert Tended(w, k);
      var run, v := DriveToEnd(w, w.h.claims[k].task);
    }
    if InState(w.db, k, Queued) && Handed(w, k) {
      var o :| (k, o) in w.h.homes && Dispatches(w, o.proc);
      assert Homed(w, k, o);
      var run, v := DriveToEnd(w, o.task);
    }
  }

  /** Some dispatching executor was handed the turn. */
  ghost predicate Handed(w: World, k: Key) {
    exists o: Owner :: (k, o) in w.h.homes && Dispatches(w, o.proc)
  }

  /** A polling executor needs no delivery: its next poll is one. */
  lemma PollingFindsEveryQueuedTurn(w: World, p: nat, k: Key)
    requires GoodWorld(w) && InState(w.db, k, Queued)
    requires p in w.procs && w.procs[p].kind == Polling && w.procs[p].dispatch == Dispatching && !w.procs[p].stopping
    ensures Enabled(w, OnServer(Poll(p, k))) && CanFinish(Next(w, OnServer(Poll(p, k))), k)
  {
    var v := Next(w, OnServer(Poll(p, k)));
    StepKeepsProtocol(w, OnServer(Poll(p, k)));
    ServerStepKeepsSinks(w, Poll(p, k));
    var run, u := DriveToEnd(v, w.nextTask);
  }
}
