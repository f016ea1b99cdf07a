/** At most one launch: however often a turn is delivered, by however many
    processes, its provider is called at most once. */
module Claims {
  import opened Types
  import opened Capability
  import opened Limits
  import opened Rows
  import opened Database
  import opened Admission
  import opened Protocol
  import opened Kept

  /** Names are never reused, and a task lives inside a live process. */
  ghost predicate Named(w: World) {
    && (forall t | t in w.tasks :: t < w.nextTask && w.tasks[t].proc in w.procs)
    && (forall p | p in w.procs :: p < w.nextProc)
  }

  // ---- What the steps outside the deliveries change ----

  /** The history of claims, launches and conversations. */
  predicate SameRecord(g: History, h: History) {
    && h.claims == g.claims && h.launches == g.launches && h.told == g.told && h.confirms == g.confirms
    && g.lost <= h.lost
  }

  lemma AdmitAddsOneDelivery(w: World, e: LedgerStep)
    requires e.AdmitStep? && LedgerEnabled(w, e)
    ensures var v := DoAdmit(w, e);
            && v == w.(db := v.db, tasks := v.tasks, nextTask := v.nextTask, h := w.h.(homes := v.h.homes))
            && (|| (v.tasks == w.tasks && v.nextTask == w.nextTask && v.db == w.db)
                || (exists k :: v.tasks == w.tasks[w.nextTask := Task(e.p, k, Accepted)]
                                && v.nextTask == w.nextTask + 1))
  {
  }

  /** A ledger statement adds at most one undelivered task and touches no process. */
  lemma LedgerStepIsLocal(w: World, e: LedgerStep)
    requires LedgerEnabled(w, e) && Named(w)
    ensures var v := LedgerNext(w, e);
            && v.procs == w.procs && v.nextTask >= w.nextTask && v.nextProc == w.nextProc && v.now == w.now
            && v.h.killed == w.h.killed && v.h.drained == w.h.drained && v.h.lost == w.h.lost && SameRecord(w.h, v.h)
            && (forall t | t in w.tasks :: t in v.tasks && v.tasks[t] == w.tasks[t])
            && (forall t | t in v.tasks && t !in w.tasks :: w.nextTask <= t < v.nextTask && v.tasks[t].pc == Accepted
                  && v.tasks[t].proc in v.procs)
            && (!e.KillRecord? ==> v.h.recorded == w.h.recorded)
  {
    if e.AdmitStep? {
      AdmitAddsOneDelivery(w, e);
    }
  }

  /** A server step adds at most one delivery that has claimed nothing; only a
      crash takes any away. */
  lemma ServerStepIsLocal(w: World, e: ServerStep)
    requires ServerEnabled(w, e) && Named(w)
    ensures var v := ServerNext(w, e);
            && v.db == w.db && v.nextTask >= w.nextTask && v.nextProc >= w.nextProc
            && v.h.recorded == w.h.recorded && SameRecord(w.h, v.h)
            && (forall p | p in v.procs :: p in w.procs || w.nextProc <= p < v.nextProc)
            && (forall t | t in w.tasks && w.tasks[t].proc in v.procs :: t in v.tasks && v.tasks[t] == w.tasks[t])
            && (forall t | t in v.tasks :: v.tasks[t].proc in v.procs && t < v.nextTask
                  && (if t in w.tasks then v.tasks[t] == w.tasks[t] else t >= w.nextTask && v.tasks[t].pc.Rank() < 5))
  {
  }

  lemma NewTasksAreEarly(w: World, e: Event, t: nat)
    requires Named(w) && Enabled(w, e) && t in Next(w, e).tasks && t !in w.tasks
    ensures Next(w, e).tasks[t].pc.Rank() < 5
  {
    match e {
      case OnLedger(step) => LedgerStepIsLocal(w, step);
      case OnServer(step) => ServerStepIsLocal(w, step);
      case OnTask(u, step) => TaskStepIsLocal(w, u, step);
    }
  }

  lemma OtherTasksStand(w: World, e: Event, t: nat)
    requires Named(w) && Enabled(w, e) && t in Next(w, e).tasks && t in w.tasks && !(e.OnTask? && e.t == t)
    ensures Next(w, e).tasks[t] == w.tasks[t]
  {
    match e {
      case OnLedger(step) => LedgerStepIsLocal(w, step);
      case OnServer(step) => ServerStepIsLocal(w, step);
      case OnTask(u, step) => TaskStepIsLocal(w, u, step);
    }
  }

  /** A claim was won by one delivery, of a turn that is no longer queued; every
      delivery past the claim is that one. */
  ghost predicate ClaimsOwned(w: World) {
    && (forall k | k in w.h.claims ::
          && k in w.db.turns && w.db.turns[k].state != Queued
          && w.h.claims[k].task < w.nextTask && w.h.claims[k].proc < w.nextProc
          && (w.h.claims[k].task in w.tasks ==>
                && w.tasks[w.h.claims[k].task].key == k
                && w.tasks[w.h.claims[k].task].pc.OwnsClaim()))
    && (forall t | t in w.tasks && w.tasks[t].pc.OwnsClaim() ::
          w.tasks[t].key in w.h.claims && w.h.claims[w.tasks[t].key] == Owner(t, w.tasks[t].proc))
    && (forall j, k | j in w.h.claims && k in w.h.claims && w.h.claims[j].task == w.h.claims[k].task :: j == k)
  }

  predicate LaunchOwned(w: World, l: Launch) {
    && l.key in w.h.claims && w.h.claims[l.key] == Owner(l.task, l.proc)
    && (l.task in w.tasks ==> w.tasks[l.task].pc.Launched())
  }

  ghost predicate LaunchesOwned(w: World) {
    && (forall i | 0 <= i < |w.h.launches| :: LaunchOwned(w, w.h.launches[i]))
    && (forall i, j | 0 <= i < j < |w.h.launches| :: w.h.launches[i].key != w.h.launches[j].key)
  }

  ghost predicate ClaimInv(w: World) { Named(w) && ClaimsOwned(w) && LaunchesOwned(w) }

  /** A step that moves no delivery past its claim keeps every claim. */
  lemma ClaimFrame(w: World, v: World)
    requires ClaimInv(w) && DbEvolves(w.db, v.db) && Named(v)
    requires v.nextTask >= w.nextTask && v.nextProc >= w.nextProc
    requires v.h.claims == w.h.claims && v.h.launches == w.h.launches
    requires forall k | k in w.h.claims :: v.db.turns[k].state != Queued
    requires forall t | t in v.tasks ::
               || (t in w.tasks && v.tasks[t].key == w.tasks[t].key && v.tasks[t].proc == w.tasks[t].proc
                   && (w.tasks[t].pc.OwnsClaim() <==> v.tasks[t].pc.OwnsClaim())
                   && (w.tasks[t].pc.Launched() ==> v.tasks[t].pc.Launched()))
               || (t >= w.nextTask && !v.tasks[t].pc.OwnsClaim())
    ensures ClaimInv(v)
  {
  }

  lemma ClaimedStaysClaimed(w: World, v: World)
    requires ClaimInv(w) && DbEvolves(w.db, v.db)
    ensures forall k | k in w.h.claims :: k in v.db.turns && v.db.turns[k].state != Queued
  {
    forall k | k in w.h.claims ensures k in v.db.turns && v.db.turns[k].state != Queued {
      assert Evolves(w.db.turns[k], v.db.turns[k]);
    }
  }

  lemma LedgerStepKeepsClaims(w: World, e: LedgerStep)
    requires DbInv(w.db) && ClaimInv(w) && LedgerEnabled(w, e)
    ensures ClaimInv(LedgerNext(w, e))
  {
    LedgerStepKeepsDb(w, e);
    LedgerStepIsLocal(w, e);
    ClaimedStaysClaimed(w, LedgerNext(w, e));
    ClaimFrame(w, LedgerNext(w, e));
  }

  lemma ServerStepKeepsClaims(w: World, e: ServerStep)
    requires ClaimInv(w) && ServerEnabled(w, e)
    ensures ClaimInv(ServerNext(w, e))
  {
    ServerStepIsLocal(w, e);
    ClaimFrame(w, ServerNext(w, e));
  }

  lemma WonClaimIsOwned(w: World, v: World, t: nat, k: Key)
    requires ClaimInv(w) && DbEvolves(w.db, v.db) && Alive(w, t) && OnlyTask(w, v, t)
    requires w.tasks[t].key == k && !w.tasks[t].pc.OwnsClaim() && k !in w.h.claims && InState(v.db, k, Running)
    requires t in v.tasks && v.tasks[t].pc == Claimed
    requires v.h.claims == w.h.claims[k := Owner(t, w.tasks[t].proc)]
    ensures Named(v) && ClaimsOwned(v)
  {
    ClaimedStaysClaimed(w, v);
  }

  lemma WonClaimKeepsClaims(w: World, v: World, t: nat, k: Key)
    requires ClaimInv(w) && DbEvolves(w.db, v.db) && Alive(w, t) && OnlyTask(w, v, t)
    requires w.tasks[t].key == k && !w.tasks[t].pc.OwnsClaim()
    requires InState(w.db, k, Queued) && InState(v.db, k, Running)
    requires t in v.tasks && v.tasks[t].pc == Claimed
    requires v.h.claims == w.h.claims[k := Owner(t, w.tasks[t].proc)] && v.h.launches == w.h.launches
    ensures ClaimInv(v)
  {
    assert k !in w.h.claims;
    WonClaimIsOwned(w, v, t, k);
    forall i | 0 <= i < |v.h.launches| ensures LaunchOwned(v, v.h.launches[i]) {
      assert LaunchOwned(w, w.h.launches[i]);
    }
  }

  lemma ClaimStepKeepsClaims(w: World, t: nat)
    requires DbInv(w.db) && ClaimInv(w) && TaskEnabled(w, t, Claim)
    ensures ClaimInv(DoClaim(w, t))
  {
    var v := DoClaim(w, t);
    TaskStepKeepsDb(w, t, Claim);
    TaskStepIsLocal(w, t, Claim);
    if InState(w.db, w.tasks[t].key, Queued) {
      WonClaimKeepsClaims(w, v, t, w.tasks[t].key);
    } else {
      ClaimedStaysClaimed(w, v);
      ClaimFrame(w, v);
    }
  }

  lemma NewLaunchKeepsClaims(w: World, v: World, t: nat, l: Launch)
    requires ClaimInv(w) && Alive(w, t) && OnlyTask(w, v, t) && v.db == w.db
    requires w.tasks[t].pc.OwnsClaim() && !w.tasks[t].pc.Launched()
    requires t in v.tasks && v.tasks[t].pc.Launched()
    requires v.h.claims == w.h.claims && v.h.launches == w.h.launches + [l]
    requires l.task == t && l.key == w.tasks[t].key && l.proc == w.tasks[t].proc
    ensures ClaimInv(v)
  {
    forall i | 0 <= i < |w.h.launches|
      ensures w.h.launches[i].key != l.key && LaunchOwned(v, w.h.launches[i])
    {
      assert LaunchOwned(w, w.h.launches[i]);
    }
    assert LaunchOwned(v, l);
  }

  lemma OtherTaskStepKeepsClaims(w: World, v: World, t: nat)
    requires ClaimInv(w) && DbEvolves(w.db, v.db) && Alive(w, t) && OnlyTask(w, v, t)
    requires v.h.claims == w.h.claims && v.h.launches == w.h.launches
    requires t in v.tasks ==>
               && v.tasks[t].pc.OwnsClaim() == w.tasks[t].pc.OwnsClaim()
               && v.tasks[t].pc.Launched() == w.tasks[t].pc.Launched()
    ensures ClaimInv(v)
  {
    ClaimedStaysClaimed(w, v);
    ClaimFrame(w, v);
  }

  lemma CallKeepsClaims(w: World, v: World, t: nat)
    requires ClaimInv(w) && TaskEnabled(w, t, CallProvider) && OnlyTask(w, v, t)
    requires t in v.tasks && v.db == w.db && v.h.claims == w.h.claims && v.tasks[t].pc.OwnsClaim()
    requires if Passes(w, t)
             then v.tasks[t].pc.Launched() && v.h.launches == w.h.launches + [LaunchOf(w, t)]
             else v.tasks[t].pc.Aborting? && v.h == w.h
    ensures ClaimInv(v)
  {
    if Passes(w, t) {
      NewLaunchKeepsClaims(w, v, t, LaunchOf(w, t));
    } else {
      OtherTaskStepKeepsClaims(w, v, t);
    }
  }

  lemma CallStepKeepsClaims(w: World, t: nat)
    requires ClaimInv(w) && TaskEnabled(w, t, CallProvider)
    ensures ClaimInv(DoCallProvider(w, t))
  {
    TaskStepIsLocal(w, t, CallProvider);
    CallProviderEffect(w, t);
    CallKeepsClaims(w, DoCallProvider(w, t), t);
  }

  lemma TaskStepKeepsClaims(w: World, t: nat, step: TaskStep)
    requires DbInv(w.db) && ClaimInv(w) && TaskEnabled(w, t, step)
    ensures ClaimInv(TaskNext(w, t, step))
  {
    if step.Claim? {
      ClaimStepKeepsClaims(w, t);
    } else if step.CallProvider? {
      CallStepKeepsClaims(w, t);
    } else {
      TaskStepKeepsDb(w, t, step);
      TaskStepIsLocal(w, t, step);
      TaskStepClaims(w, t, step);
      TaskStepLaunches(w, t, step);
      OtherTaskStepKeepsClaims(w, TaskNext(w, t, step), t);
    }
  }

  lemma StepKeepsClaims(w: World, e: Event)
    requires DbInv(w.db) && ClaimInv(w) && Enabled(w, e)
    ensures ClaimInv(Next(w, e))
  {
    match e {
      case OnLedger(step) => LedgerStepKeepsClaims(w, step);
      case OnServer(step) => ServerStepKeepsClaims(w, step);
      case OnTask(t, step) => TaskStepKeepsClaims(w, t, step);
    }
  }

  lemma {:induction false} RunKeepsClaims(before: World, events: seq<Event>, after: World)
    requires DbInv(before.db) && ClaimInv(before) && Reaches(before, events, after)
    ensures DbInv(after.db) && ClaimInv(after)
    decreases |events|
  {
    if events != [] {
      StepKeepsDb(before, events[0]);
      StepKeepsClaims(before, events[0]);
      RunKeepsClaims(Next(before, events[0]), events[1..], after);
    }
  }

  /** Claims are only ever added, each by the claim step that won it. */
  lemma OnlyClaimStepsClaim(w: World, e: Event)
    requires Enabled(w, e)
    ensures Next(w, e).h.claims ==
            if e.OnTask? && e.step.Claim? && InState(w.db, w.tasks[e.t].key, Queued)
            then w.h.claims[w.tasks[e.t].key := Owner(e.t, w.tasks[e.t].proc)] else w.h.claims
  {
    match e {
      case OnLedger(step) =>
      case OnServer(step) =>
      case OnTask(t, step) => if !step.Claim? { TaskStepClaims(w, t, step); }
    }
  }

  /** In every run from rest, mixing duplicate deliveries, executors, processes,
      recoveries, kills and crashes, no turn's provider is called twice. */
  lemma AtMostOneLaunch(start: World, events: seq<Event>, end: World)
    requires Initial(start) && Reaches(start, events, end)
    ensures forall i, j | 0 <= i < j < |end.h.launches| :: end.h.launches[i].key != end.h.launches[j].key
  {
    RunKeepsClaims(start, events, end);
  }
}
