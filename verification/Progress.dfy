/** No turn is stuck and none is lost: while its process lives, a running turn
    has a live delivery and a queued one a pending delivery, and either can
    always be carried to its settlement by that delivery alone. */
module Progress {
  import opened Types
  import opened Capability
  import opened Limits
  import opened Rows
  import opened Database
  import opened Admission
  import opened Protocol
  import opened Kept
  import opened Claims
  import opened Kills
  import opened KillSafety
  import opened Confluence

  /** The delivery that claimed a running turn is alive, or its process died. */
  predicate Tended(w: World, k: Key)
    requires k in w.h.claims
  {
    InState(w.db, k, Running) ==> w.h.claims[k].task in w.tasks || w.h.claims[k].proc !in w.procs
  }

  ghost predicate RunningTended(w: World) { forall k: Key | k in w.h.claims :: Tended(w, k) }

  /** A delivery of a turn that has not come to its claim yet. */
  predicate Pending(w: World, k: Key, o: Owner) {
    && o.task in w.tasks && w.tasks[o.task].key == k && w.tasks[o.task].proc == o.proc
    && w.tasks[o.task].pc.Rank() <= 4
  }

  predicate Serving(w: World, p: nat) {
    p in w.procs && w.procs[p].kind == Hand && !w.procs[p].stopping
  }

  /** A delivery handed to an executor, by admission or by recovery, is still on
      its way while its turn is queued and its process serves. */
  predicate Homed(w: World, k: Key, o: Owner) {
    && k in w.db.turns && o.proc < w.nextProc
    && (InState(w.db, k, Queued) && Serving(w, o.proc) ==> Pending(w, k, o))
  }

  ghost predicate QueuedHomed(w: World) {
    forall k: Key, o: Owner | (k, o) in w.h.homes :: Homed(w, k, o)
  }

  ghost predicate ProgressInv(w: World) { RunningTended(w) && QueuedHomed(w) }

  // ---- Running turns are tended ----

  lemma SettleEndsRunning(w: World, t: nat)
    requires TaskEnabled(w, t, Settle)
    ensures !InState(SettledDb(w, t), w.tasks[t].key, Running)
  {
  }

  /** The steps that end a delivery that claimed its turn. */
  lemma OnlyTheseEndAnOwner(w: World, t: nat, step: TaskStep)
    requires TaskEnabled(w, t, step) && w.tasks[t].pc.OwnsClaim() && t !in TaskNext(w, t, step).tasks
    ensures step.Settle? || step.DropFuture? || step.Abort? || step.Recheck?
  {
    TaskStepMoves(w, t, step);
  }

  lemma RecheckEndsSettled(w: World, t: nat)
    requires TaskEnabled(w, t, Recheck) && t !in TaskNext(w, t, Recheck).tasks
    ensures !InState(TaskNext(w, t, Recheck).db, w.tasks[t].key, Running)
  {
  }

  lemma AbortEndsSettled(w: World, t: nat)
    requires TaskEnabled(w, t, Abort)
    ensures !InState(TaskNext(w, t, Abort).db, w.tasks[t].key, Running)
  {
  }

  lemma DropEndsSettled(w: World, t: nat)
    requires SignalsRecorded(w) && TaskEnabled(w, t, DropFuture)
    ensures !InState(TaskNext(w, t, DropFuture).db, w.tasks[t].key, Running)
  {
    assert SignalRecorded(w, t);
  }

  /** A delivery that claimed its turn ends only when the turn is settled. */
  lemma OwnerEndsSettled(w: World, t: nat, step: TaskStep)
    requires SignalsRecorded(w) && TaskEnabled(w, t, step)
    requires w.tasks[t].pc.OwnsClaim() && t !in TaskNext(w, t, step).tasks
    ensures !InState(TaskNext(w, t, step).db, w.tasks[t].key, Running)
  {
    OnlyTheseEndAnOwner(w, t, step);
    if step.Settle? {
      SettleEndsRunning(w, t);
    } else if step.DropFuture? {
      DropEndsSettled(w, t);
    } else if step.Abort? {
      AbortEndsSettled(w, t);
    } else {
      RecheckEndsSettled(w, t);
    }
  }

  /** A turn that is running after a step and was claimed before was running. */
  lemma RunningWasRunning(w: World, v: World, k: Key)
    requires ClaimInv(w) && DbEvolves(w.db, v.db) && k in w.h.claims && InState(v.db, k, Running)
    ensures InState(w.db, k, Running)
  {
    assert Evolves(w.db.turns[k], v.db.turns[k]);
  }

  lemma TaskStepKeepsTended(w: World, t: nat, step: TaskStep, k: Key)
    requires ClaimInv(w) && SignalsRecorded(w) && TaskEnabled(w, t, step)
    requires DbEvolves(w.db, TaskNext(w, t, step).db) && ClaimInv(TaskNext(w, t, step))
    requires k in w.h.claims && k in TaskNext(w, t, step).h.claims
    requires w.h.claims[k] == TaskNext(w, t, step).h.claims[k] && Tended(w, k)
    ensures Tended(TaskNext(w, t, step), k)
  {
    var v := TaskNext(w, t, step);
    TaskStepIsLocal(w, t, step);
    if InState(v.db, k, Running) {
      RunningWasRunning(w, v, k);
      if w.h.claims[k].task == t && t !in v.tasks {
        OwnerEndsSettled(w, t, step);
      }
    }
  }

  lemma ClaimedAreKept(w: World, e: Event, k: Key)
    requires ClaimInv(w) && Enabled(w, e) && k in Next(w, e).h.claims
    ensures if k in w.h.claims then Next(w, e).h.claims[k] == w.h.claims[k]
            else e.OnTask? && e.t in Next(w, e).tasks && Next(w, e).h.claims[k] == Owner(e.t, w.tasks[e.t].proc)
  {
    OnlyClaimStepsClaim(w, e);
  }

  lemma ServerStepKeepsTended(w: World, e: ServerStep, k: Key)
    requires ClaimInv(w) && ServerEnabled(w, e) && k in w.h.claims && Tended(w, k)
    ensures k in ServerNext(w, e).h.claims && Tended(ServerNext(w, e), k)
  {
  }

  lemma StepKeepsTended(w: World, e: Event)
    requires ProtocolInv(w) && Enabled(w, e) && RunningTended(w)
    ensures RunningTended(Next(w, e))
  {
    var v := Next(w, e);
    StepKeepsProtocol(w, e);
    forall k: Key | k in v.h.claims ensures Tended(v, k) {
      ClaimedAreKept(w, e, k);
      if k in w.h.claims {
        match e {
          case OnLedger(step) =>
            LedgerStepIsLocal(w, step);
            if InState(v.db, k, Running) { RunningWasRunning(w, v, k); }
          case OnServer(step) => ServerStepKeepsTended(w, step, k);
          case OnTask(t, step) => TaskStepKeepsTended(w, t, step, k);
        }
      }
    }
  }

  // ---- Queued turns are homed ----

  /** A delivery before its claim is only ended by a drain, by losing the claim,
      or by an executor that hears of work from the ledger alone. */
  lemma EarlyEnd(w: World, t: nat, step: TaskStep)
    requires TaskEnabled(w, t, step) && w.tasks[t].pc.Rank() <= 4
    ensures var v := TaskNext(w, t, step);
            if t in v.tasks then v.tasks[t].pc.Rank() <= 4 || !InState(v.db, w.tasks[t].key, Queued)
            else !Serving(w, w.tasks[t].proc) || !InState(v.db, w.tasks[t].key, Queued)
  {
    match step {
      case Submit =>
      case Spawn =>
      case Reserve =>
      case Guard =>
      case Claim =>
    }
  }

  lemma QueuedWasQueued(w: World, v: World, k: Key)
    requires DbEvolves(w.db, v.db) && k in w.db.turns && InState(v.db, k, Queued)
    ensures InState(w.db, k, Queued)
  {
    assert Evolves(w.db.turns[k], v.db.turns[k]);
  }

  lemma TaskStepKeepsPending(w: World, t: nat, step: TaskStep, k: Key, o: Owner)
    requires TaskEnabled(w, t, step) && Pending(w, k, o)
    requires InState(TaskNext(w, t, step).db, k, Queued) && Serving(TaskNext(w, t, step), o.proc)
    ensures Pending(TaskNext(w, t, step), k, o)
  {
    TaskStepIsLocal(w, t, step);
    TaskStepBookkeeping(w, t, step);
    if o.task == t {
      EarlyEnd(w, t, step);
    }
  }

  lemma ServerStepKeepsServing(w: World, e: ServerStep, p: nat)
    requires Named(w) && ServerEnabled(w, e) && Serving(ServerNext(w, e), p) && p < w.nextProc
    ensures Serving(w, p)
  {
  }

  /** A serving process was serving, or has just booted. */
  lemma ServingWasServing(w: World, e: Event, p: nat)
    requires Named(w) && Enabled(w, e) && Serving(Next(w, e), p) && p < w.nextProc
    ensures Serving(w, p)
  {
    match e {
      case OnLedger(step) => LedgerStepIsLocal(w, step);
      case OnServer(step) => ServerStepKeepsServing(w, step, p);
      case OnTask(t, step) => TaskStepBookkeeping(w, t, step);
    }
  }

  /** One step keeps a pending delivery pending as long as its turn is queued and
      its process serves. */
  lemma StepKeepsPending(w: World, e: Event, k: Key, o: Owner)
    requires Named(w) && Enabled(w, e) && Pending(w, k, o)
    requires InState(Next(w, e).db, k, Queued) && Serving(Next(w, e), o.proc)
    ensures Pending(Next(w, e), k, o)
  {
    match e {
      case OnLedger(step) => LedgerStepIsLocal(w, step);
      case OnServer(step) => ServerStepIsLocal(w, step);
      case OnTask(t, step) => TaskStepKeepsPending(w, t, step, k, o);
    }
  }

  lemma {:induction false} RunExtendsNames(before: World, events: seq<Event>, after: World)
    requires DbInv(before.db) && ClaimInv(before) && Reaches(before, events, after)
    ensures before.nextProc <= after.nextProc && DbEvolves(before.db, after.db)
    decreases |events|
  {
    RunKeepsDb(before, events, after);
    if events != [] {
      StepKeepsDb(before, events[0]);
      StepKeepsClaims(before, events[0]);
      StepExtendsNames(before, events[0]);
      RunExtendsNames(Next(before, events[0]), events[1..], after);
    }
  }

  lemma StepExtendsNames(w: World, e: Event)
    requires Named(w) && Enabled(w, e)
    ensures w.nextProc <= Next(w, e).nextProc
  {
    match e {
      case OnLedger(step) => LedgerStepIsLocal(w, step);
      case OnServer(step) => ServerStepIsLocal(w, step);
      case OnTask(t, step) => TaskStepIsLocal(w, t, step);
    }
  }

  lemma {:induction false} ServedThroughout(before: World, events: seq<Event>, after: World, p: nat)
    requires DbInv(before.db) && ClaimInv(before) && Reaches(before, events, after)
    requires Serving(after, p) && p < before.nextProc
    ensures Serving(before, p)
    decreases |events|
  {
    if events != [] {
      StepKeepsDb(before, events[0]);
      StepKeepsClaims(before, events[0]);
      StepExtendsNames(before, events[0]);
      ServedThroughout(Next(before, events[0]), events[1..], after, p);
      ServingWasServing(before, events[0], p);
    }
  }

  /** A pending delivery stays pending through any run in whose last state its
      turn is still queued and its process still serves: whatever else was
      admitted, killed, claimed, recovered or crashed meanwhile. */
  lemma {:induction false} PendingPersists(before: World, events: seq<Event>, after: World, k: Key, o: Owner)
    requires DbInv(before.db) && ClaimInv(before) && Reaches(before, events, after)
    requires k in before.db.turns && Pending(before, k, o)
    requires InState(after.db, k, Queued) && Serving(after, o.proc)
    ensures Pending(after, k, o)
    decreases |events|
  {
    if events != [] {
      var mid := Next(before, events[0]);
      StepKeepsDb(before, events[0]);
      StepKeepsClaims(before, events[0]);
      StepExtendsNames(before, events[0]);
      RunKeepsDb(mid, events[1..], after);
      QueuedWasQueued(mid, after, k);
      ServedThroughout(mid, events[1..], after, o.proc);
      StepKeepsPending(before, events[0], k, o);
      PendingPersists(mid, events[1..], after, k, o);
    }
  }

  lemma AdmissionHomes(w: World, e: LedgerStep, k: Key, o: Owner)
    requires DbInv(w.db) && Named(w) && e.AdmitStep? && LedgerEnabled(w, e)
    requires (k, o) in DoAdmit(w, e).h.homes && (k, o) !in w.h.homes
    ensures var v := DoAdmit(w, e); k in v.db.turns && o.proc < v.nextProc && Pending(v, k, o)
  {
  }

  lemma OtherStatementsHomeNothing(w: World, e: LedgerStep)
    requires LedgerEnabled(w, e) && !e.AdmitStep?
    ensures LedgerNext(w, e).h.homes == w.h.homes
  {
  }

  lemma ResubmissionHomes(w: World, e: ServerStep, k: Key, o: Owner)
    requires Named(w) && ServerEnabled(w, e) && (k, o) in ServerNext(w, e).h.homes && (k, o) !in w.h.homes
    ensures var v := ServerNext(w, e); k in v.db.turns && o.proc < v.nextProc && Pending(v, k, o)
  {
  }

  /** The deliveries one step hands over. */
  lemma NewHomes(w: World, e: Event, k: Key, o: Owner)
    requires DbInv(w.db) && Named(w) && Enabled(w, e) && (k, o) in Next(w, e).h.homes && (k, o) !in w.h.homes
    ensures k in Next(w, e).db.turns && o.proc < Next(w, e).nextProc && Pending(Next(w, e), k, o)
  {
    match e {
      case OnLedger(step) =>
        if step.AdmitStep? {
          AdmissionHomes(w, step, k, o);
        } else {
          OtherStatementsHomeNothing(w, step);
        }
      case OnServer(step) => ResubmissionHomes(w, step, k, o);
      case OnTask(t, step) => TaskStepHistory(w, t, step);
    }
  }

  lemma OldHomesStay(w: World, e: Event, k: Key, o: Owner)
    requires ProtocolInv(w) && Enabled(w, e) && Homed(w, k, o)
    ensures Homed(Next(w, e), k, o)
  {
    var v := Next(w, e);
    StepKeepsDb(w, e);
    StepExtendsNames(w, e);
    if InState(v.db, k, Queued) && Serving(v, o.proc) {
      QueuedWasQueued(w, v, k);
      ServingWasServing(w, e, o.proc);
      StepKeepsPending(w, e, k, o);
    }
  }

  lemma StepKeepsHomed(w: World, e: Event)
    requires ProtocolInv(w) && Enabled(w, e) && QueuedHomed(w)
    ensures QueuedHomed(Next(w, e))
  {
    var v := Next(w, e);
    forall k: Key, o: Owner | (k, o) in v.h.homes ensures Homed(v, k, o) {
      if (k, o) in w.h.homes {
        assert Homed(w, k, o);
        OldHomesStay(w, e, k, o);
      } else {
        NewHomes(w, e, k, o);
      }
    }
  }

  lemma {:induction false} RunKeepsProgress(before: World, events: seq<Event>, after: World)
    requires ProtocolInv(before) && UsageInv(before) && ProgressInv(before) && Reaches(before, events, after)
    ensures ProtocolInv(after) && UsageInv(after) && ProgressInv(after)
    decreases |events|
  {
    if events != [] {
      StepKeepsProtocol(before, events[0]);
      StepKeepsUsage(before, events[0]);
      StepKeepsTended(before, events[0]);
      StepKeepsHomed(before, events[0]);
      RunKeepsProgress(Next(before, events[0]), events[1..], after);
    }
  }
}
