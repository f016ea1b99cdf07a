/** Recovery after a crash at any point: behind the closed gate it settles every
    running row, resubmits every queued one and touches nothing else. */
module Restart {
  import opened Types
  import opened Sums
  import opened Capability
  import opened Limits
  import opened Rows
  import opened Database
  import opened Admission
  import opened Protocol
  import opened Kept
  import opened Claims
  import opened Kills
  import opened KillSafety
  import opened Confluence
  import opened Progress
  import opened Completion

  /** A running turn settled as the orphan of a crash. */
  function OrphanRow(db: Db, registry: Registry, k: Key, why: string, nowMs: int): TurnRow
    requires k in db.turns
  {
    InterruptRow(db.turns[k], Failed, why, UnavailableCost(db, registry, k.agent),
                 UnavailableUsage(db, registry, k.agent), nowMs, Recovery)
  }

  /** The ledger with the running turns among `done` settled. */
  function Orphaned(db: Db, registry: Registry, done: set<Key>, why: Key -> string, nowMs: int): Db {
    db.(turns := map k | k in db.turns ::
          if k in done && db.turns[k].state == Running then OrphanRow(db, registry, k, why(k), nowMs)
          else db.turns[k])
  }

  function RunningKeys(db: Db): set<Key> { set k | k in db.turns && db.turns[k].state == Running }

  function QueuedKeys(db: Db): set<Key> { set k | k in db.turns && db.turns[k].state == Queued }

  function Elements(order: seq<Key>): set<Key> { set k | k in order }

  /** The first loop of `recover`: one statement a running row. */
  function Recover(db: Db, registry: Registry, order: seq<Key>, why: Key -> string, nowMs: int): Db {
    if order == [] then db
    else
      var k := order[|order| - 1];
      Interrupt(Recover(db, registry, order[..|order| - 1], why, nowMs), registry, k, Failed, why(k), nowMs, Recovery)
  }

  lemma OneMoreOrphan(db: Db, registry: Registry, done: set<Key>, k: Key, why: Key -> string, nowMs: int)
    ensures Interrupt(Orphaned(db, registry, done, why, nowMs), registry, k, Failed, why(k), nowMs, Recovery)
         == Orphaned(db, registry, done + {k}, why, nowMs)
  {
    var before := Orphaned(db, registry, done, why, nowMs);
    var target := Orphaned(db, registry, done + {k}, why, nowMs);
    if InState(before, k, Running) {
      assert target.turns == before.turns[k := OrphanRow(db, registry, k, why(k), nowMs)];
      assert OrphanRow(before, registry, k, why(k), nowMs) == OrphanRow(db, registry, k, why(k), nowMs);
    } else {
      assert target.turns == before.turns;
    }
  }

  /** However the running rows are listed, the loop settles exactly those in the list. */
  lemma {:induction false} RecoverSettlesTheList(
    db: Db, registry: Registry, order: seq<Key>, why: Key -> string, nowMs: int)
    ensures Recover(db, registry, order, why, nowMs) == Orphaned(db, registry, Elements(order), why, nowMs)
  {
    if order == [] {
      assert Orphaned(db, registry, {}, why, nowMs).turns == db.turns;
    } else {
      var init, k := order[..|order| - 1], order[|order| - 1];
      RecoverSettlesTheList(db, registry, init, why, nowMs);
      OneMoreOrphan(db, registry, Elements(init), k, why, nowMs);
      assert order == init + [k];
      assert Elements(order) == Elements(init) + {k};
    }
  }

  /** What recovery leaves: no running row, every other row and every agent
      untouched, the orphans failed without a cost; a second pass finds nothing. */
  lemma RecoveryIsComplete(db: Db, registry: Registry, order: seq<Key>, why: Key -> string, nowMs: int)
    requires Enumerates(order, RunningKeys(db))
    ensures var after := Recover(db, registry, order, why, nowMs);
            && after.agents == db.agents && after.turns.Keys == db.turns.Keys
            && RunningKeys(after) == {} && QueuedKeys(after) == QueuedKeys(db)
            && (forall k | k in db.turns && db.turns[k].state != Running :: after.turns[k] == db.turns[k])
            && (forall k | k in RunningKeys(db) ::
                  && after.turns[k].state == Failed && after.turns[k].cost == 0
                  && after.turns[k].settled == Some(nowMs / 1000)
                  && after.turns[k].failureKind == ReportedFailureKind && !after.turns[k].costComplete)
            && (forall again | Enumerates(again, RunningKeys(after)) ::
                  again == [] && Recover(after, registry, again, why, nowMs) == after)
  {
    RecoverSettlesTheList(db, registry, order, why, nowMs);
    var after := Recover(db, registry, order, why, nowMs);
    forall again | Enumerates(again, RunningKeys(after)) ensures again == [] {
      EmptyEnumeration(again, RunningKeys(after));
    }
  }

  // ---- The same, as steps among all the others ----

  lemma StepHandsOver(w: World, e: Event)
    requires Enabled(w, e)
    ensures w.h.homes <= Next(w, e).h.homes
  {
    match e {
      case OnLedger(step) =>
      case OnServer(step) =>
      case OnTask(t, step) => TaskStepHistory(w, t, step);
    }
  }

  lemma {:induction false} RunHandsOver(before: World, events: seq<Event>, after: World)
    requires Reaches(before, events, after)
    ensures before.h.homes <= after.h.homes
    decreases |events|
  {
    if events != [] {
      StepHandsOver(before, events[0]);
      RunHandsOver(Next(before, events[0]), events[1..], after);
    }
  }

  /** The first loop's statement for a turn that was running when the loop read it. */
  ghost predicate RecoversTurn(events: seq<Event>, p: nat, k: Key) {
    exists i, error :: 0 <= i < |events| && events[i] == OnLedger(RecoverStep(p, k, error))
  }

  lemma RecoverStepSettles(w: World, p: nat, k: Key, error: string)
    requires Enabled(w, OnLedger(RecoverStep(p, k, error))) && k in w.db.turns && w.db.turns[k].state != Queued
    ensures Settled(Next(w, OnLedger(RecoverStep(p, k, error))).db, k)
  {
  }

  lemma NeverQueuedAgain(before: Db, after: Db, k: Key)
    requires DbEvolves(before, after) && k in before.turns && before.turns[k].state != Queued
    ensures k in after.turns && after.turns[k].state != Queued
  {
    assert Evolves(before.turns[k], after.turns[k]);
  }

  /** Whatever falls around it, the statement leaves its turn settled for good. */
  lemma {:induction false} RecoveredIsSettled(before: World, events: seq<Event>, after: World, p: nat, k: Key)
    requires DbInv(before.db) && Reaches(before, events, after)
    requires k in before.db.turns && before.db.turns[k].state != Queued && RecoversTurn(events, p, k)
    ensures Settled(after.db, k)
    decreases |events|
  {
    var i, error :| 0 <= i < |events| && events[i] == OnLedger(RecoverStep(p, k, error));
    StepKeepsDb(before, events[0]);
    if i == 0 {
      RecoverStepSettles(before, p, k, error);
      RunKeepsDb(Next(before, events[0]), events[1..], after);
      SettledStaysSettled(Next(before, events[0]).db, after.db, k);
    } else {
      NeverQueuedAgain(before.db, Next(before, events[0]).db, k);
      assert events[1..][i - 1] == OnLedger(RecoverStep(p, k, error));
      RecoveredIsSettled(Next(before, events[0]), events[1..], after, p, k);
    }
  }

  /** A resubmission hands its turn to the process for good. */
  lemma {:induction false} ResubmittedIsHanded(before: World, events: seq<Event>, after: World, p: nat, k: Key)
    requires Reaches(before, events, after) && OnServer(Redeliver(p, k)) in events
    ensures exists o: Owner :: (k, o) in after.h.homes && o.proc == p
    decreases |events|
  {
    var mid := Next(before, events[0]);
    if events[0] == OnServer(Redeliver(p, k)) {
      RunHandsOver(mid, events[1..], after);
      assert (k, Owner(before.nextTask, p)) in mid.h.homes;
    } else {
      ResubmittedIsHanded(mid, events[1..], after, p, k);
    }
  }

  /** A turn that appears is handed to the process that admitted it. */
  lemma StepHandsNewTurns(w: World, e: Event, k: Key)
    requires DbInv(w.db) && Enabled(w, e) && k in Next(w, e).db.turns && k !in w.db.turns
    ensures exists o: Owner :: (k, o) in Next(w, e).h.homes
  {
    match e {
      case OnLedger(step) =>
        if step.AdmitStep? {
          assert (NextKey(w.db, step.a), Owner(w.nextTask, step.p)) in Next(w, e).h.homes;
        } else {
          OtherStatementsAddNoTurn(w, step);
        }
      case OnServer(step) =>
      case OnTask(t, step) => TaskStepAddsNoTurn(w, t, step);
    }
  }

  lemma OtherStatementsAddNoTurn(w: World, e: LedgerStep)
    requires LedgerEnabled(w, e) && !e.AdmitStep?
    ensures LedgerNext(w, e).db.turns.Keys == w.db.turns.Keys
  {
  }

  lemma SettlementAddsNoTurn(w: World, t: nat)
    requires TaskEnabled(w, t, Settle)
    ensures SettledDb(w, t).turns.Keys == w.db.turns.Keys
  {
  }

  lemma TaskStepAddsNoTurn(w: World, t: nat, step: TaskStep)
    requires TaskEnabled(w, t, step)
    ensures TaskNext(w, t, step).db.turns.Keys == w.db.turns.Keys
  {
    if step.Settle? {
      SettlementAddsNoTurn(w, t);
    }
  }

  lemma {:induction false} NewTurnsAreHanded(before: World, events: seq<Event>, after: World, k: Key)
    requires DbInv(before.db) && Reaches(before, events, after) && k in after.db.turns && k !in before.db.turns
    ensures exists o: Owner :: (k, o) in after.h.homes
    decreases |events|
  {
    if events != [] {
      var mid := Next(before, events[0]);
      StepKeepsDb(before, events[0]);
      if k in mid.db.turns {
        StepHandsNewTurns(before, events[0], k);
        RunHandsOver(mid, events[1..], after);
      } else {
        NewTurnsAreHanded(mid, events[1..], after, k);
      }
    }
  }

  lemma StatementStartsNothing(w: World, e: LedgerStep, k: Key)
    requires DbInv(w.db) && LedgerEnabled(w, e) && InState(LedgerNext(w, e).db, k, Running)
    ensures InState(w.db, k, Running)
  {
    if e.AdmitStep? {
      AdmittedIsQueued(w, e, k);
    }
  }

  /** Only a claim makes a turn run. */
  lemma StepClaimsRunning(w: World, e: Event, k: Key)
    requires DbInv(w.db) && Enabled(w, e) && InState(Next(w, e).db, k, Running)
    ensures InState(w.db, k, Running) || k in Next(w, e).h.claims
  {
    match e {
      case OnLedger(step) => StatementStartsNothing(w, step, k);
      case OnServer(step) =>
      case OnTask(t, step) => if !step.Claim? { TaskStepStartsNothing(w, t, step, k); }
    }
  }

  lemma AdmittedIsQueued(w: World, e: LedgerStep, k: Key)
    requires DbInv(w.db) && e.AdmitStep? && LedgerEnabled(w, e) && InState(DoAdmit(w, e).db, k, Running)
    ensures InState(w.db, k, Running)
  {
    var proc := w.procs[e.p];
    var decision :=
      Decide(w.db, proc.registry, proc.limits, e.authority, e.a, e.prompt, e.source, e.checkedUnix, e.order);
    if decision.Admitted? {
      AdmissionFreezesPolicy(w.db, proc.registry, proc.limits, e.authority, e.a, e.prompt, e.source, e.checkedUnix,
                             e.order, decision);
    }
  }

  lemma SettlementStartsNothing(w: World, t: nat, k: Key)
    requires TaskEnabled(w, t, Settle) && InState(SettledDb(w, t), k, Running)
    ensures InState(w.db, k, Running)
  {
  }

  lemma OtherStepStartsNothing(w: World, t: nat, step: TaskStep, k: Key)
    requires TaskEnabled(w, t, step) && !step.Claim? && !step.Settle? && InState(TaskNext(w, t, step).db, k, Running)
    ensures InState(w.db, k, Running)
  {
  }

  lemma TaskStepStartsNothing(w: World, t: nat, step: TaskStep, k: Key)
    requires TaskEnabled(w, t, step) && !step.Claim? && InState(TaskNext(w, t, step).db, k, Running)
    ensures InState(w.db, k, Running)
  {
    if step.Settle? {
      SettlementStartsNothing(w, t, k);
    } else {
      OtherStepStartsNothing(w, t, step, k);
    }
  }

  lemma {:induction false} RunningWasClaimed(before: World, events: seq<Event>, after: World, k: Key)
    requires DbInv(before.db) && ClaimInv(before) && Reaches(before, events, after) && InState(after.db, k, Running)
    ensures InState(before.db, k, Running) || k in after.h.claims
    decreases |events|
  {
    if events != [] {
      var mid := Next(before, events[0]);
      StepKeepsDb(before, events[0]);
      StepKeepsClaims(before, events[0]);
      RunningWasClaimed(mid, events[1..], after, k);
      if InState(mid.db, k, Running) {
        StepClaimsRunning(before, events[0], k);
        RunKeepsClaimed(mid, events[1..], after, k);
      }
    }
  }

  lemma {:induction false} RunKeepsClaimed(before: World, events: seq<Event>, after: World, k: Key)
    requires DbInv(before.db) && ClaimInv(before) && Reaches(before, events, after)
    ensures k in before.h.claims ==> k in after.h.claims
    decreases |events|
  {
    if events != [] {
      StepKeepsDb(before, events[0]);
      StepKeepsClaims(before, events[0]);
      OnlyClaimStepsClaim(before, events[0]);
      RunKeepsClaimed(Next(before, events[0]), events[1..], after, k);
    }
  }

  /** Recovery by process `p` as it happens: it reads the running rows at `w`,
      settles each somewhere before `mid`, reads the queued rows at `mid` and
      resubmits each somewhere before `v`, among any other steps. A statement of
      its first loop is enabled only while its gate is closed. */
  ghost predicate Recovers(w: World, first: seq<Event>, mid: World, second: seq<Event>, v: World, p: nat) {
    && Reaches(w, first, mid) && Reaches(mid, second, v)
    && (forall k | k in RunningKeys(w.db) :: RecoversTurn(first, p, k))
    && (forall k | k in QueuedKeys(mid.db) :: OnServer(Redeliver(p, k)) in second)
  }

  /** Every turn in flight has someone to finish it. */
  ghost predicate Attended(w: World, mid: World, v: World, p: nat, k: Key) {
    && (InState(w.db, k, Running) ==> Settled(v.db, k))
    && (Settled(w.db, k) ==> Settled(v.db, k) && Absorbed(w.db.turns[k], v.db.turns[k]))
    && (InState(v.db, k, Running) ==> k in v.h.claims && Tended(v, k))
    && (InState(v.db, k, Queued) ==>
          exists o: Owner :: (k, o) in v.h.homes && Homed(v, k, o) && (o.proc == p || k !in mid.db.turns))
  }

  /** Whatever crashed before and whatever is admitted, claimed, killed or settled
      between its steps, recovery leaves nothing behind: what was running when it
      looked is settled, what was settled is untouched, what runs now was claimed
      since and is tended, and every queued turn has a delivery that this process,
      or the one that admitted it meanwhile, was handed. */
  lemma RestartLosesNothing(
    start: World, events: seq<Event>, w: World, first: seq<Event>, mid: World, second: seq<Event>, v: World, p: nat,
    k: Key)
    requires Initial(start) && Reaches(start, events, w) && Recovers(w, first, mid, second, v, p)
    ensures Attended(w, mid, v, p, k)
  {
    InitialHasProtocol(start);
    RunKeepsProgress(start, events, w);
    RunKeepsProgress(w, first, mid);
    RunKeepsProgress(mid, second, v);
    RunKeepsDb(w, first, mid);
    RunKeepsDb(mid, second, v);
    RecoveryAttends(w, first, mid, second, v, p, k);
  }

  lemma SettledIsKept(before: Db, after: Db, k: Key)
    requires DbEvolves(before, after) && Settled(before, k)
    ensures Settled(after, k) && Absorbed(before.turns[k], after.turns[k])
  {
    assert Evolves(before.turns[k], after.turns[k]);
  }

  lemma RunningIsTended(w: World, first: seq<Event>, mid: World, second: seq<Event>, v: World, k: Key)
    requires DbInv(w.db) && ClaimInv(w) && RunningTended(v) && Reaches(w, first, mid) && Reaches(mid, second, v)
    requires InState(v.db, k, Running) && !InState(w.db, k, Running)
    ensures k in v.h.claims && Tended(v, k)
  {
    ReachesTrans(w, first, mid, second, v);
    RunningWasClaimed(w, first + second, v, k);
  }

  lemma RecoveryAttends(
    w: World, first: seq<Event>, mid: World, second: seq<Event>, v: World, p: nat, k: Key)
    requires DbInv(w.db) && ClaimInv(w) && DbInv(mid.db) && ProgressInv(v)
    requires DbEvolves(w.db, mid.db) && DbEvolves(mid.db, v.db)
    requires Recovers(w, first, mid, second, v, p)
    ensures Attended(w, mid, v, p, k)
  {
    if InState(w.db, k, Running) {
      RecoveredIsSettled(w, first, mid, p, k);
      SettledIsKept(mid.db, v.db, k);
    } else if InState(v.db, k, Running) {
      RunningIsTended(w, first, mid, second, v, k);
    }
    if Settled(w.db, k) {
      EvolutionIsTransitive(w.db, mid.db, v.db);
      SettledIsKept(w.db, v.db, k);
    }
    if InState(v.db, k, Queued) {
      QueuedIsHanded(mid, second, v, p, k);
    }
  }

  lemma QueuedIsHanded(mid: World, second: seq<Event>, v: World, p: nat, k: Key)
    requires DbInv(mid.db) && QueuedHomed(v) && Reaches(mid, second, v) && DbEvolves(mid.db, v.db)
    requires k in QueuedKeys(mid.db) ==> OnServer(Redeliver(p, k)) in second
    requires InState(v.db, k, Queued)
    ensures exists o: Owner :: (k, o) in v.h.homes && Homed(v, k, o) && (o.proc == p || k !in mid.db.turns)
  {
    if k in mid.db.turns {
      QueuedWasQueued(mid, v, k);
      ResubmittedIsHanded(mid, second, v, p, k);
      var o: Owner :| (k, o) in v.h.homes && o.proc == p;
      assert Homed(v, k, o);
    } else {
      NewTurnsAreHanded(mid, second, v, k);
      var o: Owner :| (k, o) in v.h.homes;
      assert Homed(v, k, o);
    }
  }

  /** Once a resubmitting process dispatches, in that state or any later one,
      every turn it was handed that is still queued can be finished. */
  lemma RestartedTurnsFinish(
    start: World, events: seq<Event>, mid: World, second: seq<Event>, v: World, p: nat, k: Key)
    requires Initial(start) && Reaches(start, events, mid) && Reaches(mid, second, v)
    requires OnServer(Redeliver(p, k)) in second && InState(v.db, k, Queued) && Dispatches(v, p)
    ensures CanFinish(v, k)
  {
    ResubmittedIsHanded(mid, second, v, p, k);
    ReachesTrans(start, events, mid, second, v);
    var o: Owner :| (k, o) in v.h.homes && o.proc == p;
    NoTurnIsLost(start, events + second, v, k);
  }

  // ---- Uninterrupted, the two loops are such a run ----

  function RecoverEvents(p: nat, order: seq<Key>, why: Key -> string): seq<Event> {
    seq(|order|, i requires 0 <= i < |order| => OnLedger(RecoverStep(p, order[i], why(order[i]))))
  }

  function SubmitEvents(p: nat, order: seq<Key>): seq<Event> {
    seq(|order|, i requires 0 <= i < |order| => OnServer(Redeliver(p, order[i])))
  }

  lemma {:induction false} RecoverRun(w: World, p: nat, order: seq<Key>, why: Key -> string)
    requires p in w.procs && !w.procs[p].open
    ensures Reaches(w, RecoverEvents(p, order, why),
                    w.(db := Recover(w.db, w.procs[p].registry, order, why, w.now)))
  {
    if order != [] {
      var init, k := order[..|order| - 1], order[|order| - 1];
      RecoverRun(w, p, init, why);
      var mid := w.(db := Recover(w.db, w.procs[p].registry, init, why, w.now));
      ReachesSnoc(w, RecoverEvents(p, init, why), mid, OnLedger(RecoverStep(p, k, why(k))));
      assert RecoverEvents(p, order, why) == RecoverEvents(p, init, why) + [OnLedger(RecoverStep(p, k, why(k)))];
    }
  }

  /** The state a list of submissions leads to. */
  function Resubmitted(w: World, p: nat, order: seq<Key>): World {
    if order == [] then w
    else
      var u := Resubmitted(w, p, order[..|order| - 1]);
      var k := order[|order| - 1];
      AddTask(u, Task(p, k, Buffered)).(h := u.h.(homes := u.h.homes + {(k, Owner(u.nextTask, p))}))
  }

  lemma {:induction false} SubmitRun(w: World, p: nat, order: seq<Key>)
    requires p in w.procs && w.procs[p].kind == Hand && forall k | k in order :: k in w.db.turns
    ensures Resubmitted(w, p, order).procs == w.procs && Resubmitted(w, p, order).db == w.db
    ensures Reaches(w, SubmitEvents(p, order), Resubmitted(w, p, order))
  {
    if order != [] {
      var init, k := order[..|order| - 1], order[|order| - 1];
      SubmitRun(w, p, init);
      ReachesSnoc(w, SubmitEvents(p, init), Resubmitted(w, p, init), OnServer(Redeliver(p, k)));
      assert SubmitEvents(p, order) == SubmitEvents(p, init) + [OnServer(Redeliver(p, k))];
    }
  }

  /** Behind a closed gate recovery can always run to its end, and then no row
      is running at all. */
  lemma RecoveryCanRun(w: World, p: nat, running: seq<Key>, queued: seq<Key>, why: Key -> string)
    returns (mid: World, v: World)
    requires p in w.procs && !w.procs[p].open && w.procs[p].kind == Hand
    requires Enumerates(running, RunningKeys(w.db)) && Enumerates(queued, QueuedKeys(w.db))
    ensures Recovers(w, RecoverEvents(p, running, why), mid, SubmitEvents(p, queued), v, p)
    ensures RunningKeys(v.db) == {} && QueuedKeys(v.db) == QueuedKeys(w.db)
  {
    mid := w.(db := Recover(w.db, w.procs[p].registry, running, why, w.now));
    v := Resubmitted(mid, p, queued);
    RecoverRun(w, p, running, why);
    RecoveryIsComplete(w.db, w.procs[p].registry, running, why, w.now);
    assert forall k | k in queued :: k in QueuedKeys(w.db);
    SubmitRun(mid, p, queued);
    forall k | k in RunningKeys(w.db) ensures RecoversTurn(RecoverEvents(p, running, why), p, k) {
      assert k in running;
      var i :| 0 <= i < |running| && running[i] == k;
      assert RecoverEvents(p, running, why)[i] == OnLedger(RecoverStep(p, k, why(k)));
    }
    forall k | k in QueuedKeys(mid.db) ensures OnServer(Redeliver(p, k)) in SubmitEvents(p, queued) {
      assert k in queued;
      var i :| 0 <= i < |queued| && queued[i] == k;
      assert SubmitEvents(p, queued)[i] == OnServer(Redeliver(p, k));
    }
  }
}
