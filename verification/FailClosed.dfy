/** Fail-closed accounting: which settlements leave the money unknown, and what
    an unknown amount does to automatic work for as long as its window lasts. */
module FailClosed {
  import opened Types
  import opened Sums
  import opened Capability
  import opened Limits
  import opened Rows
  import opened Database
  import opened Telemetry
  import opened Admission
  import opened Protocol
  import opened Kept
  import opened Window
  import opened Verdict

  /** A kill or a recovery leaves the cost known exactly when no provider had been
      claimed for the turn, or when neither the backend its agent has now nor the
      one it was admitted for prices work. */
  lemma InterruptionKnowsItsCostIff(
    db: Db, registry: Registry, k: Key, target: TurnState, error: string, nowMs: int, timing: Timing)
    requires target.Terminal() && Interruptible(db, k, timing) && db.turns[k].provider != ""
    ensures var after := Interrupt(db, registry, k, target, error, nowMs, timing);
            !CostLost(after, registry, k) <==>
            || db.turns[k].state == Queued
            || (k.agent in db.agents && db.agents[k.agent].def.provider in registry
                && !registry[db.agents[k.agent].def.provider].reportsCost
                && !Prices(registry, db.turns[k].provider))
  {
    var after := Interrupt(db, registry, k, target, error, nowMs, timing);
    assert forall p :: CountsFor(after, k, p) <==> p == db.turns[k].provider;
  }

  /** An exchange leaves its cost known exactly when it reported the whole of it,
      or ran on a backend that prices nothing. */
  lemma SettlementKnowsItsCostIff(
    db: Db, registry: Registry, k: Key, ex: Exchange, nowSec: int)
    requires InState(db, k, Running) && db.turns[k].provider != ""
    ensures var row := if ex.error.Some? then FailRow(db.turns[k], Failed, ex.error.value, ex, nowSec)
                       else CompleteRow(db.turns[k], ex, nowSec);
            !CostLost(Put(db, k, row), registry, k) <==>
            || (ex.cost.Reported? && ex.costComplete)
            || (ex.cost.NotPriced? && !Prices(registry, db.turns[k].provider))
  {
    var row := if ex.error.Some? then FailRow(db.turns[k], Failed, ex.error.value, ex, nowSec)
               else CompleteRow(db.turns[k], ex, nowSec);
    assert forall p :: CountsFor(Put(db, k, row), k, p) <==> p == db.turns[k].provider;
  }

  /** A dispatch refused before its provider call is a known nothing. */
  lemma AbortKnowsItsCost(db: Db, registry: Registry, k: Key, error: string, nowSec: int)
    requires InState(db, k, Running)
    ensures !CostLost(AbortTurn(db, k, error, nowSec), registry, k)
  {
  }

  /** A settled turn whose cost no server with this registry can know. */
  predicate CostUnknown(registry: Registry, db: Db, k: Key) {
    Settled(db, k) && db.turns[k].settled.Some? && db.turns[k].provider != "" && CostLost(db, registry, k)
  }

  /** A settled turn of provider `p` whose tokens nobody can know. */
  predicate UsageUnknown(db: Db, k: Key, p: string) {
    Settled(db, k) && db.turns[k].settled.Some? && db.turns[k].provider == p && p != "" && UsageLost(db.turns[k])
  }

  lemma UnknownStaysUnknown(before: Db, after: Db, registry: Registry, k: Key)
    requires DbEvolves(before, after) && k in before.turns && before.turns[k].state.Terminal()
    ensures k in after.turns && after.turns[k].settled == before.turns[k].settled
    ensures CostUnknown(registry, before, k) ==> CostUnknown(registry, after, k)
    ensures forall p :: UsageUnknown(before, k, p) ==> UsageUnknown(after, k, p)
  {
    assert Evolves(before.turns[k], after.turns[k]);
    if CostUnknown(registry, before, k) {
      assert forall p :: CountsFor(before, k, p) <==> CountsFor(after, k, p);
    }
  }

  /** Once a turn has settled with its cost or its tokens unknown, whatever the
      reason, no later write makes them known: until it leaves the rolling day,
      automatic work is refused in every continuation, to every agent by every
      server with a USD stop and, when it is the tokens, to every agent of that
      provider by every server with a token stop for it. */
  lemma UnknownBlocksTheWholeDay(
    before: World, events: seq<Event>, after: World, k: Key, e: LedgerStep, decision: Decision)
    requires DbInv(before.db) && Reaches(before, events, after)
    requires e.AdmitStep? && LedgerEnabled(after, e) && e.authority == Automatic
    requires var proc := after.procs[e.p];
             || (CostUnknown(proc.registry, before.db, k) && proc.limits.stopMicroUsd.Some?)
             || (e.a in after.db.agents && UsageUnknown(before.db, k, after.db.agents[e.a].def.provider)
                 && TokenStop(proc.limits, after.db.agents[e.a].def.provider))
    requires e.checkedUnix - before.db.turns[k].settled.value <= ROLLING_WINDOW_SECS
    requires decision == Decide(after.db, after.procs[e.p].registry, after.procs[e.p].limits, e.authority, e.a,
                                e.prompt, e.source, e.checkedUnix, e.order)
    ensures decision.Refused?
  {
    RunKeepsDb(before, events, after);
    UnknownStaysUnknown(before.db, after.db, after.procs[e.p].registry, k);
    GapBlocksAutomaticWork(after.db, after.procs[e.p].registry, after.procs[e.p].limits, e.a, e.prompt, e.source,
                           e.checkedUnix, e.order, k);
  }
}
