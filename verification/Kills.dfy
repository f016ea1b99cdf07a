/** Kill safety: once a kill has recorded and then signalled, its turn's
    provider is not launched by that process any more. */
module Kills {
  import opened Types
  import opened Capability
  import opened Limits
  import opened Rows
  import opened Database
  import opened Admission
  import opened Protocol
  import opened Kept
  import opened Claims

  predicate TokenOf(w: World, p: nat, k: Key, t: nat) {
    t in w.tasks && w.tasks[t].proc == p && w.tasks[t].key == k && w.tasks[t].pc.HasToken()
  }

  /** The kill map holds exactly the tokens of registered tasks. */
  ghost predicate TokensInstalled(w: World) {
    && (forall p, k | p in w.procs && k in w.procs[p].kills :: TokenOf(w, p, k, w.procs[p].kills[k]))
    && (forall t | t in w.tasks && w.tasks[t].pc.HasToken() :: Listed(w, t))
  }

  predicate Listed(w: World, t: nat)
    requires t in w.tasks
  {
    var task := w.tasks[t];
    task.proc in w.procs ==> task.key in w.procs[task.proc].kills && w.procs[task.proc].kills[task.key] == t
  }

  /** Every recorded kill found its turn settled or settled it, and a signal
      only ever follows a record. */
  ghost predicate KillsRecorded(w: World) {
    && (forall p, k | (p, k) in w.h.recorded :: Settled(w.db, k))
    && w.h.killed <= w.h.recorded
  }

  predicate SignalRecorded(w: World, t: nat) {
    t < w.nextTask && (t in w.tasks ==> Settled(w.db, w.tasks[t].key))
  }

  /** A signalled token belongs to a turn whose kill was recorded. */
  ghost predicate SignalsRecorded(w: World) {
    forall p: nat, t: nat | p in w.procs && t in w.procs[p].cancelled :: SignalRecorded(w, t)
  }

  /** Between the durable recheck and the provider call. */
  predicate MayStillLaunch(pc: Pc) { 7 <= pc.Rank() <= 11 }

  /** After both halves of a kill, a task of that process that is past its
      recheck has been signalled. */
  ghost predicate KillsReach(w: World) {
    forall p, k, t | (p, k) in w.h.killed && t in w.tasks
      && w.tasks[t].proc == p && w.tasks[t].key == k && MayStillLaunch(w.tasks[t].pc) && p in w.procs ::
      t in w.procs[p].cancelled
  }

  ghost predicate KillInv(w: World) {
    TokensInstalled(w) && KillsRecorded(w) && SignalsRecorded(w) && KillsReach(w)
  }

  lemma SettledStaysSettled(before: Db, after: Db, k: Key)
    requires DbEvolves(before, after) && Settled(before, k)
    ensures Settled(after, k)
  {
    assert Evolves(before.turns[k], after.turns[k]);
  }

  lemma RecordsStay(w: World, v: World)
    requires KillsRecorded(w) && DbEvolves(w.db, v.db) && v.h.recorded == w.h.recorded && v.h.killed == w.h.killed
    ensures KillsRecorded(v)
  {
    forall p, k | (p, k) in v.h.recorded ensures Settled(v.db, k) {
      SettledStaysSettled(w.db, v.db, k);
    }
  }

  /** Steps that signal nothing and only add unclaimed tasks. */
  lemma SignalsStay(w: World, v: World)
    requires SignalsRecorded(w) && DbEvolves(w.db, v.db) && v.nextTask >= w.nextTask
    requires forall p | p in v.procs :: if p in w.procs then v.procs[p].cancelled == w.procs[p].cancelled
                                         else v.procs[p].cancelled == {}
    requires forall t | t in v.tasks && t < w.nextTask :: t in w.tasks && v.tasks[t].key == w.tasks[t].key
    ensures SignalsRecorded(v)
  {
    forall p: nat, t: nat | p in v.procs && t in v.procs[p].cancelled
      ensures SignalRecorded(v, t)
    {
      assert p in w.procs && t in w.procs[p].cancelled;
      assert SignalRecorded(w, t);
      if t in v.tasks {
        SettledStaysSettled(w.db, v.db, w.tasks[t].key);
      }
    }
  }

  /** Steps that leave the kill maps alone and only add tasks without a token. */
  lemma TokensStay(w: World, v: World)
    requires TokensInstalled(w) && Named(w)
    requires forall p | p in v.procs :: if p in w.procs then v.procs[p].kills == w.procs[p].kills
                                         else v.procs[p].kills == map[] && p >= w.nextProc
    requires forall t | t in w.tasks && w.tasks[t].proc in v.procs :: t in v.tasks && v.tasks[t] == w.tasks[t]
    requires forall t | t in v.tasks :: if t in w.tasks then v.tasks[t] == w.tasks[t] else !v.tasks[t].pc.HasToken()
    ensures TokensInstalled(v)
  {
    forall p, k | p in v.procs && k in v.procs[p].kills ensures TokenOf(v, p, k, v.procs[p].kills[k]) {
      assert TokenOf(w, p, k, w.procs[p].kills[k]);
    }
  }

  lemma ReachStays(w: World, v: World)
    requires KillsReach(w) && Named(w) && v.h.killed == w.h.killed
    requires forall p | p in v.procs && p in w.procs :: w.procs[p].cancelled <= v.procs[p].cancelled
    requires forall t | t in v.tasks :: if t in w.tasks then v.tasks[t] == w.tasks[t] else v.tasks[t].pc.Rank() < 7
    ensures KillsReach(v)
  {
  }

  // ---- Task steps ----

  lemma TaskStepKeepsTokens(w: World, t: nat, step: TaskStep)
    requires DbInv(w.db) && ClaimInv(w) && KillInv(w) && TaskEnabled(w, t, step)
    ensures TokensInstalled(TaskNext(w, t, step))
  {
    TaskStepIsLocal(w, t, step);
    TaskStepBookkeeping(w, t, step);
    TaskStepTokens(w, t, step);
    TokensFollow(w, TaskNext(w, t, step), t, step.Install?);
  }

  /** Every entry of a kill map still names its task. */
  lemma EntriesFollow(w: World, v: World, t: nat, install: bool)
    requires TokensInstalled(w) && Alive(w, t) && OnlyTask(w, v, t) && OnlyBookkeeping(w, v, t)
    requires MapFollows(w, v, t, install)
    ensures forall p, k | p in v.procs && k in v.procs[p].kills :: TokenOf(v, p, k, v.procs[p].kills[k])
  {
    var p, k := w.tasks[t].proc, w.tasks[t].key;
    forall q, j | q in v.procs && j in v.procs[q].kills ensures TokenOf(v, q, j, v.procs[q].kills[j]) {
      if !(install && q == p && j == k) {
        assert j in w.procs[q].kills;
        assert TokenOf(w, q, j, w.procs[q].kills[j]);
      }
    }
  }

  /** How the kill map of the task's process follows its registration. */
  predicate MapFollows(w: World, v: World, t: nat, install: bool)
    requires Alive(w, t) && v.procs.Keys == w.procs.Keys
  {
    var p, k := w.tasks[t].proc, w.tasks[t].key;
    if install then
      && t in v.tasks && v.tasks[t].pc == Registered && w.tasks[t].pc == Claimed
      && v.procs[p].kills == w.procs[p].kills[k := t]
    else if t in v.tasks then
      v.procs[p].kills == w.procs[p].kills && v.tasks[t].pc.HasToken() == w.tasks[t].pc.HasToken()
    else
      v.procs[p].kills == if w.tasks[t].pc.HasToken() then w.procs[p].kills - {k} else w.procs[p].kills
  }

  /** An entry other than the one that changed stays. */
  lemma OtherStaysListed(w: World, v: World, u: nat, changed: Key)
    requires u in w.tasks && u in v.tasks && v.tasks[u] == w.tasks[u] && Listed(w, u)
    requires v.procs.Keys == w.procs.Keys
    requires var p := w.tasks[u].proc;
             p in w.procs ==>
               || v.procs[p].kills == w.procs[p].kills
               || (w.tasks[u].key != changed && v.procs[p].kills - {changed} == w.procs[p].kills - {changed})
    ensures Listed(v, u)
  {
    var p, j := w.tasks[u].proc, w.tasks[u].key;
    if p in w.procs && j != changed {
      assert j in w.procs[p].kills - {changed} || v.procs[p].kills == w.procs[p].kills;
    }
  }

  /** How one step changes the kill map of the stepping task's process. */
  lemma MapChangesOneEntry(w: World, v: World, t: nat, install: bool)
    requires Alive(w, t) && v.procs.Keys == w.procs.Keys && MapFollows(w, v, t, install)
    ensures var p, k := w.tasks[t].proc, w.tasks[t].key;
            || v.procs[p].kills == w.procs[p].kills
            || (w.tasks[t].pc.OwnsClaim() && v.procs[p].kills - {k} == w.procs[p].kills - {k})
  {
  }

  /** Every other registered task is still listed. */
  lemma ListedFollows(w: World, v: World, t: nat, u: nat)
    requires ClaimInv(w) && Alive(w, t) && u != t
    requires u in w.tasks && u in v.tasks && v.tasks[u] == w.tasks[u] && w.tasks[u].pc.HasToken() && Listed(w, u)
    requires v.procs.Keys == w.procs.Keys
    requires w.tasks[u].proc != w.tasks[t].proc && w.tasks[u].proc in w.procs ==>
               v.procs[w.tasks[u].proc] == w.procs[w.tasks[u].proc]
    requires var p, k := w.tasks[t].proc, w.tasks[t].key;
             || v.procs[p].kills == w.procs[p].kills
             || (w.tasks[t].pc.OwnsClaim() && v.procs[p].kills - {k} == w.procs[p].kills - {k})
    ensures Listed(v, u)
  {
    if w.tasks[t].pc.OwnsClaim() && w.tasks[u].key == w.tasks[t].key {
      SoleOwner(w, t, u);
    }
    OtherStaysListed(w, v, u, w.tasks[t].key);
  }

  lemma TokensFollow(w: World, v: World, t: nat, install: bool)
    requires ClaimInv(w) && TokensInstalled(w) && Alive(w, t)
    requires OnlyTask(w, v, t) && OnlyBookkeeping(w, v, t)
    requires MapFollows(w, v, t, install)
    ensures TokensInstalled(v)
  {
    EntriesFollow(w, v, t, install);
    forall u | u in v.tasks && v.tasks[u].pc.HasToken() ensures Listed(v, u) {
      assert Listed(w, u) || (u == t && install);
      if u != t {
        MapChangesOneEntry(w, v, t, install);
        ListedFollows(w, v, t, u);
      }
    }
  }

  /** Two deliveries past the claim of one turn are the same delivery. */
  lemma SoleOwner(w: World, t: nat, u: nat)
    requires ClaimInv(w) && t in w.tasks && u in w.tasks
    requires w.tasks[t].key == w.tasks[u].key && w.tasks[t].pc.OwnsClaim() && w.tasks[u].pc.OwnsClaim()
    ensures t == u
  {
  }

  lemma TaskStepKeepsRecords(w: World, t: nat, step: TaskStep)
    requires DbInv(w.db) && KillsRecorded(w) && SignalsRecorded(w) && TaskEnabled(w, t, step)
    ensures KillsRecorded(TaskNext(w, t, step)) && SignalsRecorded(TaskNext(w, t, step))
  {
    TaskStepKeepsDb(w, t, step);
    TaskStepIsLocal(w, t, step);
    TaskStepBookkeeping(w, t, step);
    TaskStepHistory(w, t, step);
    RecordsStay(w, TaskNext(w, t, step));
    SignalsStay(w, TaskNext(w, t, step));
  }

  /** The durable recheck is the only way into the window before a launch, and
      it lets only running turns through. */
  lemma OnlyRunningTurnsPassTheRecheck(w: World, t: nat, step: TaskStep)
    requires TaskEnabled(w, t, step)
    ensures var v := TaskNext(w, t, step);
            t in v.tasks && MayStillLaunch(v.tasks[t].pc) ==>
              MayStillLaunch(w.tasks[t].pc) || InState(w.db, w.tasks[t].key, Running)
  {
  }

  lemma ReachFollows(w: World, v: World, t: nat)
    requires KillsRecorded(w) && KillsReach(w) && Alive(w, t) && OnlyTask(w, v, t) && OnlyBookkeeping(w, v, t)
    requires v.h.killed == w.h.killed
    requires t in v.tasks && MayStillLaunch(v.tasks[t].pc) ==>
               MayStillLaunch(w.tasks[t].pc) || InState(w.db, w.tasks[t].key, Running)
    ensures KillsReach(v)
  {
    forall p, k, u | (p, k) in v.h.killed && u in v.tasks
      && v.tasks[u].proc == p && v.tasks[u].key == k && MayStillLaunch(v.tasks[u].pc) && p in v.procs
      ensures u in v.procs[p].cancelled
    {
      assert (p, k) in w.h.recorded && Settled(w.db, k);
    }
  }

  lemma TaskStepKeepsReach(w: World, t: nat, step: TaskStep)
    requires KillsRecorded(w) && KillsReach(w) && TaskEnabled(w, t, step)
    ensures KillsReach(TaskNext(w, t, step))
  {
    TaskStepIsLocal(w, t, step);
    TaskStepBookkeeping(w, t, step);
    TaskStepHistory(w, t, step);
    OnlyRunningTurnsPassTheRecheck(w, t, step);
    ReachFollows(w, TaskNext(w, t, step), t);
  }

  lemma TaskStepKeepsKills(w: World, t: nat, step: TaskStep)
    requires DbInv(w.db) && ClaimInv(w) && KillInv(w) && TaskEnabled(w, t, step)
    ensures KillInv(TaskNext(w, t, step))
  {
    TaskStepKeepsTokens(w, t, step);
    TaskStepKeepsRecords(w, t, step);
    TaskStepKeepsReach(w, t, step);
  }

  // ---- Ledger and server steps ----

  lemma KillRecordIsRecorded(w: World, p: nat, k: Key, error: string)
    requires DbInv(w.db) && KillsRecorded(w) && p in w.procs
    ensures KillsRecorded(DoKillRecord(w, p, k, error))
  {
    var v := DoKillRecord(w, p, k, error);
    InterruptKeeps(w.db, w.procs[p].registry, k, Killed, error, w.now, Live);
    forall q, j | (q, j) in v.h.recorded ensures Settled(v.db, j) {
      if (q, j) in w.h.recorded || !InFlight(w.db, k) {
        SettledStaysSettled(w.db, v.db, j);
      }
    }
  }

  lemma LedgerStepKeepsKills(w: World, e: LedgerStep)
    requires DbInv(w.db) && ClaimInv(w) && KillInv(w) && LedgerEnabled(w, e)
    ensures KillInv(LedgerNext(w, e))
  {
    var v := LedgerNext(w, e);
    LedgerStepKeepsDb(w, e);
    LedgerStepIsLocal(w, e);
    SignalsStay(w, v);
    TokensStay(w, v);
    ReachStays(w, v);
    if e.KillRecord? {
      KillRecordIsRecorded(w, e.p, e.k, e.error);
    } else {
      RecordsStay(w, v);
    }
  }

  /** Only a signal touches a kill map's tokens from outside the deliveries. */
  lemma ServerStepKeepsMaps(w: World, e: ServerStep, p: nat)
    requires ServerEnabled(w, e) && Named(w) && !e.KillSignal? && p in ServerNext(w, e).procs
    ensures var v := ServerNext(w, e);
            if p in w.procs then v.procs[p].kills == w.procs[p].kills && v.procs[p].cancelled == w.procs[p].cancelled
            else v.procs[p].kills == map[] && v.procs[p].cancelled == {} && p >= w.nextProc
  {
  }

  lemma OnlySignalsKill(w: World, e: ServerStep)
    requires ServerEnabled(w, e) && !e.KillSignal?
    ensures ServerNext(w, e).h.killed == w.h.killed
  {
  }

  lemma SignalKeepsTokens(w: World, p: nat, k: Key)
    requires TokensInstalled(w) && p in w.procs
    ensures TokensInstalled(DoKillSignal(w, p, k))
  {
    var v := DoKillSignal(w, p, k);
    forall q, j | q in v.procs && j in v.procs[q].kills ensures TokenOf(v, q, j, v.procs[q].kills[j]) {
      assert TokenOf(w, q, j, w.procs[q].kills[j]);
    }
    forall u | u in v.tasks && v.tasks[u].pc.HasToken() ensures Listed(v, u) {
      assert Listed(w, u);
    }
  }

  lemma SignalKeepsRecords(w: World, p: nat, k: Key)
    requires Named(w) && TokensInstalled(w) && KillsRecorded(w) && SignalsRecorded(w)
    requires p in w.procs && (p, k) in w.h.recorded
    ensures KillsRecorded(DoKillSignal(w, p, k)) && SignalsRecorded(DoKillSignal(w, p, k))
  {
    var v := DoKillSignal(w, p, k);
    forall q: nat, t: nat | q in v.procs && t in v.procs[q].cancelled
      ensures SignalRecorded(v, t)
    {
      if t in w.procs[q].cancelled {
        assert SignalRecorded(w, t);
      } else {
        assert TokenOf(w, p, k, w.procs[p].kills[k]);
        assert Settled(w.db, k);
      }
    }
  }

  /** The signal reaches the delivery the kill map names: the only one past its recheck. */
  lemma SignalReaches(w: World, p: nat, k: Key)
    requires TokensInstalled(w) && KillsReach(w) && p in w.procs
    ensures KillsReach(DoKillSignal(w, p, k))
  {
    assert forall t | t in w.tasks && w.tasks[t].pc.HasToken() :: Listed(w, t);
  }

  lemma SignalKeepsKills(w: World, p: nat, k: Key)
    requires ClaimInv(w) && KillInv(w) && p in w.procs && (p, k) in w.h.recorded
    ensures KillInv(DoKillSignal(w, p, k))
  {
    SignalKeepsTokens(w, p, k);
    SignalKeepsRecords(w, p, k);
    SignalReaches(w, p, k);
  }

  lemma ServerStepKeepsKills(w: World, e: ServerStep)
    requires ClaimInv(w) && KillInv(w) && ServerEnabled(w, e)
    ensures KillInv(ServerNext(w, e))
  {
    if e.KillSignal? {
      SignalKeepsKills(w, e.p, e.k);
    } else {
      var v := ServerNext(w, e);
      ServerStepIsLocal(w, e);
      OnlySignalsKill(w, e);
      forall p: nat | p in v.procs
        ensures if p in w.procs
                then v.procs[p].kills == w.procs[p].kills && v.procs[p].cancelled == w.procs[p].cancelled
                else v.procs[p].kills == map[] && v.procs[p].cancelled == {} && p >= w.nextProc
      {
        ServerStepKeepsMaps(w, e, p);
      }
      TokensStay(w, v);
      RecordsStay(w, v);
      SignalsStay(w, v);
      ReachStays(w, v);
    }
  }

  lemma StepKeepsKills(w: World, e: Event)
    requires DbInv(w.db) && ClaimInv(w) && KillInv(w) && Enabled(w, e)
    ensures KillInv(Next(w, e))
  {
    match e {
      case OnLedger(step) => LedgerStepKeepsKills(w, step);
      case OnServer(step) => ServerStepKeepsKills(w, step);
      case OnTask(t, step) => TaskStepKeepsKills(w, t, step);
    }
  }

  // ---- Whole runs ----

  ghost predicate ProtocolInv(w: World) { DbInv(w.db) && ClaimInv(w) && KillInv(w) }

  lemma StepKeepsProtocol(w: World, e: Event)
    requires ProtocolInv(w) && Enabled(w, e)
    ensures ProtocolInv(Next(w, e)) && DbEvolves(w.db, Next(w, e).db)
  {
    StepKeepsDb(w, e);
    StepKeepsClaims(w, e);
    StepKeepsKills(w, e);
  }

  lemma {:induction false} RunKeepsProtocol(before: World, events: seq<Event>, after: World)
    requires ProtocolInv(before) && Reaches(before, events, after)
    ensures ProtocolInv(after)
    decreases |events|
  {
    if events != [] {
      StepKeepsProtocol(before, events[0]);
      RunKeepsProtocol(Next(before, events[0]), events[1..], after);
    }
  }

  lemma InitialHasProtocol(w: World)
    requires Initial(w)
    ensures ProtocolInv(w)
  {
  }
}
