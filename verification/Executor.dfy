/** The executors: an in-flight count, a kill map, a stop flag and a gate, the one
    delivery routine both of them share, and the two ways work reaches it. */
module Executor {
  import opened Types
  import opened Sums
  import opened Capability
  import opened Limits
  import opened Rows
  import opened Database
  import opened Admission
  import opened Protocol
  import opened Store
  import opened Restart
  import opened Rotation
  import opened Columns

  /** Where an operator's kill falls in one delivery: between any two awaits. In
      the provider, `emitted` snapshots were handed over and `written` written. */
  datatype KillPoint =
    | NoKill
    | AfterClaim
    | AfterInstall
    | BeforePoll
    | InCall(emitted: nat, written: nat)
    | AfterReturn

  datatype Delivery = NotClaimed | Cancelled | Refused | Ran

  /** What the provider does with one exchange. */
  datatype Script = Script(confirms: Option<string>, snapshots: seq<TokenUsage>, result: Result)

  /** The kill falls where the script has come to. */
  predicate Falls(kill: KillPoint, script: Script) {
    kill.InCall? ==> kill.written <= kill.emitted <= |script.snapshots|
  }

  predicate BeforeProvider(kill: KillPoint) { kill.AfterClaim? || kill.AfterInstall? || kill.BeforePoll? }

  /** The ends a claimed delivery can come to, given where its kill falls. */
  predicate Fits(outcome: Delivery, kill: KillPoint) {
    && outcome != NotClaimed
    && (kill == NoKill ==> outcome != Cancelled)
    && (kill != NoKill ==> outcome != Ran)
    && (BeforeProvider(kill) ==> outcome == Cancelled)
  }

  /** The snapshots a delivery's writer was handed. */
  function Emitted(kill: KillPoint, script: Script): seq<TokenUsage>
    requires Falls(kill, script)
  {
    if kill.InCall? then script.snapshots[..kill.emitted] else if BeforeProvider(kill) then [] else script.snapshots
  }

  /** The killed row holds the last snapshot handed over, or none. */
  predicate HoldsLast(r: TurnRow, emitted: seq<TokenUsage>) {
    emitted != [] ==> r.tokens == Clamped(emitted[|emitted| - 1]) && r.usageState == UsageReported && !r.usageComplete
  }

  /** How a delivery left the turn it claimed. */
  predicate LeftAs(db: Db, k: Key, outcome: Delivery, kill: KillPoint, script: Script)
    requires Falls(kill, script)
  {
    && Settled(db, k)
    && var r := db.turns[k];
       match outcome
       case Cancelled => r.state == Killed && r.cost == 0 && HoldsLast(r, Emitted(kill, script))
       case Refused => r.state == Failed && NeverRan(r)
       case Ran =>
         (match script.result
          case NotRun(error) => r.state == Failed && r.error == Some(error) && NeverRan(r)
          case Finished(ex) => TellsCost(r, ex) && r.state == (if ex.error.Some? then Failed else Ok))
       case NotClaimed => true
  }

  /** Nothing happens to any other turn. */
  predicate OnlyTurn(before: Db, after: Db, k: Key) {
    && before.turns.Keys <= after.turns.Keys <= before.turns.Keys + {k}
    && forall j | j in before.turns && j != k :: after.turns[j] == before.turns[j]
  }

  /** One delivery's effect: rows evolve, and only its own. */
  ghost predicate Touches(before: Db, after: Db, k: Key) {
    DbInv(after) && DbEvolves(before, after) && OnlyTurn(before, after, k)
  }

  lemma TouchesNothing(db: Db, k: Key)
    requires DbInv(db)
    ensures Touches(db, db, k)
  {
  }

  lemma TouchesTwice(a: Db, b: Db, c: Db, k: Key)
    requires Touches(a, b, k) && Touches(b, c, k)
    ensures Touches(a, c, k)
  {
    EvolutionIsTransitive(a, b, c);
  }

  /** No registered turn is waiting for a claim. */
  ghost predicate NoneQueued(db: Db, kills: map<Key, nat>) { forall k | k in kills :: !InState(db, k, Queued) }

  lemma NoneQueuedStays(before: Db, after: Db, k: Key, kills: map<Key, nat>)
    requires OnlyTurn(before, after, k) && NoneQueued(before, kills)
    requires k in kills ==> !InState(after, k, Queued)
    ensures NoneQueued(after, kills)
  {
  }

  lemma ClaimTouches(db: Db, k: Key, nowMs: int)
    requires DbInv(db) && InState(db, k, Queued)
    ensures Touches(db, Database.ClaimTurn(db, k, nowMs), k) && InClaim(Database.ClaimTurn(db, k, nowMs), k)
  {
    ClaimKeeps(db, k, nowMs);
  }

  predicate InClaim(db: Db, k: Key) { InState(db, k, Running) && db.turns[k].claimedMs.Some? }

  // ---- What the statements of one delivery come to ----

  lemma KilledBeforeIsLeft(db: Db, k: Key, kill: KillPoint, script: Script)
    requires InState(db, k, Killed) && db.turns[k].cost == 0 && Falls(kill, script) && BeforeProvider(kill)
    ensures LeftAs(db, k, Cancelled, kill, script)
  {
  }

  /** The writer's statements, in order. */
  function WriteAll(db: Db, k: Key, snapshots: seq<TokenUsage>): Db {
    if snapshots == [] then db
    else RecordUsage(WriteAll(db, k, snapshots[..|snapshots| - 1]), k, snapshots[|snapshots| - 1])
  }

  lemma {:induction false} WritingTouches(db: Db, k: Key, snapshots: seq<TokenUsage>)
    requires DbInv(db) && k in db.turns && AcceptsSnapshot(db.turns[k])
    ensures var after := WriteAll(db, k, snapshots);
            && Touches(db, after, k) && after.turns[k].state == db.turns[k].state
            && after.turns[k].cost == db.turns[k].cost && after.turns[k].claimedMs == db.turns[k].claimedMs
            && HoldsLast(after.turns[k], snapshots)
    ensures snapshots == [] ==> WriteAll(db, k, snapshots) == db
  {
    if snapshots == [] {
      TouchesNothing(db, k);
    } else {
      var init, u := snapshots[..|snapshots| - 1], snapshots[|snapshots| - 1];
      WritingTouches(db, k, init);
      OneWriteTouches(WriteAll(db, k, init), k, u);
      TouchesTwice(db, WriteAll(db, k, init), RecordUsage(WriteAll(db, k, init), k, u), k);
    }
  }

  lemma OneWriteTouches(db: Db, k: Key, u: TokenUsage)
    requires DbInv(db) && k in db.turns && AcceptsSnapshot(db.turns[k])
    ensures var after := RecordUsage(db, k, u);
            && Touches(db, after, k) && after.turns[k].state == db.turns[k].state
            && after.turns[k].cost == db.turns[k].cost && after.turns[k].claimedMs == db.turns[k].claimedMs
            && after.turns[k].tokens == Clamped(u) && after.turns[k].usageState == UsageReported
            && !after.turns[k].usageComplete
  {
    RecordUsageKeeps(db, k, u);
  }

  function SettleWith(db: Db, k: Key, result: Result, nowSec: int): Db
    requires CostsNonNegative(db)
  {
    match result
    case NotRun(error) => AbortTurn(db, k, error, nowSec)
    case Finished(ex) =>
      if ex.error.Some? then Database.FailExchange(db, k, Failed, ex.error.value, ex, nowSec)
      else Database.CompleteTurn(db, k, ex, nowSec)
  }

  /** Whatever a settlement does to the agent, it rewrites one turn. */
  lemma FailureRow(db: Db, k: Key, error: string, ex: Exchange, nowSec: int)
    requires CostsNonNegative(db) && InFlight(db, k)
    ensures Database.FailExchange(db, k, Failed, error, ex, nowSec).turns ==
            db.turns[k := FailRow(db.turns[k], Failed, error, ex, nowSec)]
  {
  }

  lemma FailureTouches(db: Db, k: Key, error: string, ex: Exchange, nowSec: int)
    requires DbInv(db) && InClaim(db, k)
    ensures CostsNonNegative(db)
    ensures var after := Database.FailExchange(db, k, Failed, error, ex, nowSec);
            Touches(db, after, k) && InState(after, k, Failed) && TellsCost(after.turns[k], ex)
  {
    FailKeeps(db, k, Failed, error, ex, nowSec);
    FailureColumns(db, k, Failed, error, ex, nowSec);
    FailureRow(db, k, error, ex, nowSec);
    assert RowInv(db.turns[k]);
    FailRowIsLegal(db.turns[k], Failed, error, ex, nowSec);
  }

  lemma CompletionTouches(db: Db, k: Key, ex: Exchange, nowSec: int)
    requires DbInv(db) && InClaim(db, k)
    ensures CostsNonNegative(db)
    ensures var after := Database.CompleteTurn(db, k, ex, nowSec);
            Touches(db, after, k) && InState(after, k, Ok) && TellsCost(after.turns[k], ex)
  {
    InvHasNonNegativeCosts(db);
    CompletionColumns(db, k, ex, nowSec);
    CompleteKeeps(db, k, ex, nowSec);
  }

  lemma AbortTouches(db: Db, k: Key, error: string, nowSec: int)
    requires DbInv(db) && InClaim(db, k)
    ensures var after := AbortTurn(db, k, error, nowSec);
            && Touches(db, after, k) && InState(after, k, Failed) && NeverRan(after.turns[k])
            && after.turns[k].error == Some(error)
  {
    AbortKeeps(db, k, error, nowSec);
  }

  lemma SettlingTouches(db: Db, k: Key, script: Script, nowSec: int)
    requires DbInv(db) && InClaim(db, k)
    ensures CostsNonNegative(db)
    ensures Touches(db, SettleWith(db, k, script.result, nowSec), k)
    ensures LeftAs(SettleWith(db, k, script.result, nowSec), k, Ran, NoKill, script)
  {
    InvHasNonNegativeCosts(db);
    match script.result {
      case NotRun(error) => AbortTouches(db, k, error, nowSec);
      case Finished(ex) =>
        if ex.error.Some? {
          FailureTouches(db, k, ex.error.value, ex, nowSec);
        } else {
          CompletionTouches(db, k, ex, nowSec);
        }
    }
  }

  lemma KillTouches(db: Db, registry: Registry, k: Key, nowMs: int)
    requires DbInv(db) && InClaim(db, k)
    ensures var after := Interrupt(db, registry, k, Killed, "stopped", nowMs, Live);
            && Touches(db, after, k) && InState(after, k, Killed) && after.turns[k].cost == 0
            && AcceptsSnapshot(after.turns[k]) && !after.turns[k].usageComplete
            && (db.turns[k].usageState == UsageReported ==>
                  after.turns[k].usageState == UsageReported && after.turns[k].tokens == db.turns[k].tokens)
  {
    InterruptKeeps(db, registry, k, Killed, "stopped", nowMs, Live);
  }

  lemma ConfirmationTouches(db: Db, k: Key, id: string)
    requires DbInv(db) && InClaim(db, k)
    ensures var after := Database.RecordProviderSession(db, k, id); Touches(db, after, k) && InClaim(after, k)
  {
    RecordSessionKeeps(db, k, id);
  }

  /** A kill that lands while snapshots are on their way: some are written, the
      kill is recorded, and the writer drains the rest onto the killed row. */
  function Midway(db: Db, registry: Registry, k: Key, emitted: seq<TokenUsage>, written: nat, nowMs: int): Db
    requires written <= |emitted|
  {
    WriteAll(Interrupt(WriteAll(db, k, emitted[..written]), registry, k, Killed, "stopped", nowMs, Live),
             k, emitted[written..])
  }

  lemma MidwayTouches(db: Db, registry: Registry, k: Key, emitted: seq<TokenUsage>, written: nat, nowMs: int)
    requires DbInv(db) && InClaim(db, k) && written <= |emitted|
    ensures var after := Midway(db, registry, k, emitted, written, nowMs);
            && Touches(db, after, k) && InState(after, k, Killed) && after.turns[k].cost == 0
            && HoldsLast(after.turns[k], emitted)
  {
    var killed := KilledAfter(db, registry, k, emitted[..written], nowMs);
    WritingTouches(killed, k, emitted[written..]);
    TouchesTwice(db, killed, Midway(db, registry, k, emitted, written, nowMs), k);
    LastOfTwo(emitted, written);
  }

  lemma KilledAfter(db: Db, registry: Registry, k: Key, streamed: seq<TokenUsage>, nowMs: int) returns (killed: Db)
    requires DbInv(db) && InClaim(db, k)
    ensures killed == Interrupt(WriteAll(db, k, streamed), registry, k, Killed, "stopped", nowMs, Live)
    ensures Touches(db, killed, k) && InState(killed, k, Killed) && killed.turns[k].cost == 0
    ensures AcceptsSnapshot(killed.turns[k]) && HoldsLast(killed.turns[k], streamed)
  {
    WritingTouches(db, k, streamed);
    KillTouches(WriteAll(db, k, streamed), registry, k, nowMs);
    killed := Interrupt(WriteAll(db, k, streamed), registry, k, Killed, "stopped", nowMs, Live);
    TouchesTwice(db, WriteAll(db, k, streamed), killed, k);
  }

  lemma LastOfTwo(emitted: seq<TokenUsage>, written: nat)
    requires written <= |emitted|
    ensures written < |emitted| ==>
              emitted[written..] != [] && emitted[written..][|emitted| - written - 1] == emitted[|emitted| - 1]
    ensures written == |emitted| ==> emitted[written..] == [] && emitted[..written] == emitted
  {
  }

  /** The ledger hears the name the provider gave, if it gave one. */
  function Heard(db: Db, k: Key, name: Option<string>): Db {
    if name.Some? then Database.RecordProviderSession(db, k, name.value) else db
  }

  function WrittenBy(kill: KillPoint, script: Script): nat
    requires Falls(kill, script) && !BeforeProvider(kill)
  {
    if kill.InCall? then kill.written else |script.snapshots|
  }

  /** Everything from the provider call to the end of the delivery. */
  function AfterCall(db: Db, registry: Registry, k: Key, kill: KillPoint, script: Script, nowMs: int): Db
    requires DbInv(db) && InClaim(db, k) && Falls(kill, script) && !BeforeProvider(kill)
  {
    var heard := Heard(db, k, script.confirms);
    CallPrepares(db, k, script);
    if kill == NoKill then SettleWith(WriteAll(heard, k, script.snapshots), k, script.result, nowMs / 1000)
    else Midway(heard, registry, k, Emitted(kill, script), WrittenBy(kill, script), nowMs)
  }

  lemma CallPrepares(db: Db, k: Key, script: Script)
    requires DbInv(db) && InClaim(db, k)
    ensures var heard := Heard(db, k, script.confirms);
            && Touches(db, heard, k) && InClaim(heard, k)
            && Touches(db, WriteAll(heard, k, script.snapshots), k) && InClaim(WriteAll(heard, k, script.snapshots), k)
            && CostsNonNegative(WriteAll(heard, k, script.snapshots))
  {
    TouchesNothing(db, k);
    if script.confirms.Some? {
      ConfirmationTouches(db, k, script.confirms.value);
    }
    var heard := Heard(db, k, script.confirms);
    WritingTouches(heard, k, script.snapshots);
    TouchesTwice(db, heard, WriteAll(heard, k, script.snapshots), k);
    InvHasNonNegativeCosts(WriteAll(heard, k, script.snapshots));
  }

  lemma CallTouches(db: Db, registry: Registry, k: Key, kill: KillPoint, script: Script, nowMs: int)
    requires DbInv(db) && InClaim(db, k) && Falls(kill, script) && !BeforeProvider(kill)
    ensures var after := AfterCall(db, registry, k, kill, script, nowMs);
            Touches(db, after, k) && LeftAs(after, k, if kill == NoKill then Ran else Cancelled, kill, script)
  {
    var heard := Heard(db, k, script.confirms);
    CallPrepares(db, k, script);
    if kill == NoKill {
      SettlingTouches(WriteAll(heard, k, script.snapshots), k, script, nowMs / 1000);
      TouchesTwice(db, WriteAll(heard, k, script.snapshots), AfterCall(db, registry, k, kill, script, nowMs), k);
    } else {
      MidwayTouches(heard, registry, k, Emitted(kill, script), WrittenBy(kill, script), nowMs);
      TouchesTwice(db, heard, AfterCall(db, registry, k, kill, script, nowMs), k);
    }
  }

  class Runner {
    const kind: Kind
    const ledger: Ledger
    const limits: Limits
    var open: bool
    var dispatch: Dispatch
    var stopping: bool
    var inflight: int
    var kills: map<Key, nat>
    var cancelled: set<nat>
    var nextToken: nat

    /** This executor as the protocol sees its process. */
    function View(): Proc
      reads this
    {
      Proc(kind, limits, ledger.providers, ledger.runtime, open, dispatch, stopping, inflight, kills, cancelled)
    }

    /** Tokens are drawn in order, so a new one was never signalled; and only
        claimed turns are registered. */
    ghost predicate Consistent()
      reads this, ledger
    {
      && (forall c | c in cancelled :: c < nextToken)
      && NoneQueued(ledger.Tables(), kills)
    }

    /** Claims nothing until the gate opens. */
    constructor StartGated(kind: Kind, ledger: Ledger, limits: Limits)
      ensures this.ledger == ledger && Consistent()
      ensures View() == Proc(kind, limits, ledger.providers, ledger.runtime, false, Parked, false, 0, map[], {})
    {
      this.kind, this.ledger, this.limits := kind, ledger, limits;
      open, dispatch, stopping := false, Parked, false;
      inflight, kills, cancelled, nextToken := 0, map[], {}, 0;
    }

    method Open()
      modifies this`open
      ensures View() == old(View()).(open := true)
    {
      open := true;
    }

    /** Past the gate: a drain that won leaves every durable row queued. */
    method Begin()
      requires open && dispatch == Parked
      modifies this`dispatch
      ensures View() == old(View()).Begun()
    {
      if stopping {
        dispatch := Ended;
        return;
      }
      dispatch := Dispatching;
    }

    /** Raise the count, then read the flag; a refusal drops the guard again. */
    method AfterPermit() returns (guarded: bool)
      modifies this`inflight
      ensures guarded == !stopping
      ensures View() == if guarded then old(View()).Raised() else old(View())
    {
      inflight := inflight + 1;
      guarded := !stopping;
      if !guarded {
        inflight := inflight - 1;
      }
    }

    method Install(k: Key) returns (token: nat)
      modifies this`kills, this`nextToken
      ensures View() == old(View()).Installed(k, token)
      ensures token == old(nextToken) && nextToken == token + 1
    {
      token := nextToken;
      nextToken := nextToken + 1;
      kills := kills[k := token];
    }

    /** `kill`: signal the delivery that registered the turn. */
    method Kill(k: Key) returns (signalled: bool)
      modifies this`cancelled
      ensures signalled == (k in kills)
      ensures View() == old(View()).Signalled(k)
    {
      signalled := k in kills;
      if signalled {
        cancelled := cancelled + {kills[k]};
      }
    }

    /** A registration drops with its delivery. */
    method Deregister(k: Key)
      modifies this`kills
      ensures View() == old(View()).Left(k, false, true)
    {
      kills := kills - {k};
    }

    /** So does its in-flight guard. */
    method DropGuard(k: Key)
      modifies this`inflight
      ensures View() == old(View()).Left(k, true, false)
    {
      inflight := inflight - 1;
    }

    /** `drain`: stop claiming, then report what is still in flight. */
    method Drain() returns (left: int)
      modifies this`stopping
      ensures View() == old(View()).(stopping := true) && left == inflight
    {
      stopping := true;
      left := inflight;
    }

    /** The last gate, constraint by constraint. */
    method Gate(plan: Plan) returns (passes: bool)
      ensures passes <==>
              plan.provider in ledger.providers && !Blocked(ledger.providers[plan.provider], IntentOf(plan))
    {
      if plan.provider !in ledger.providers {
        return false;
      }
      var unsupported := Validate(ledger.providers[plan.provider], IntentOf(plan));
      var first := Blocking(unsupported);
      passes := first.None?;
    }

    /** The detached writer. */
    method WriteSnapshots(k: Key, snapshots: seq<TokenUsage>)
      requires ledger.Valid()
      modifies ledger`turns
      ensures ledger.Valid() && ledger.Tables() == WriteAll(old(ledger.Tables()), k, snapshots)
    {
      for i := 0 to |snapshots|
        invariant ledger.Valid() && ledger.Tables() == WriteAll(old(ledger.Tables()), k, snapshots[..i])
      {
        var written := ledger.RecordUsageSnapshot(k, snapshots[i]);
        assert snapshots[..i + 1][..i] == snapshots[..i];
      }
      assert snapshots[..|snapshots|] == snapshots;
    }

    /** Record how the exchange ended. */
    method SettleExchange(k: Key, result: Result, nowSec: int)
      requires ledger.Valid()
      modifies ledger
      ensures ledger.Valid() && CostsNonNegative(old(ledger.Tables()))
      ensures ledger.Tables() == SettleWith(old(ledger.Tables()), k, result, nowSec)
    {
      InvHasNonNegativeCosts(ledger.Tables());
      match result {
        case NotRun(error) =>
          var aborted := ledger.AbortClaimedTurn(k, error, nowSec);
        case Finished(ex) =>
          if ex.error.Some? {
            var failed := ledger.FailExchange(k, Failed, ex.error.value, ex, nowSec);
          } else {
            var completed := ledger.CompleteTurn(k, ex, nowSec);
          }
      }
    }

    /** Load the agent and the turn, rotating the conversation when it is due. */
    method Load(k: Key, mcpReady: bool, newId: string) returns (plan: Option<Plan>)
      requires ledger.Valid() && InClaim(ledger.Tables(), k)
      modifies ledger`agents
      ensures Touches(old(ledger.Tables()), ledger.Tables(), k)
      ensures plan.Some? ==>
                ProtectedCeiling(ledger.turns[k], plan.value.provider, ledger.providers) == Runs(plan.value.ceiling)
      ensures ledger.turns == old(ledger.turns)
      ensures plan.Some? <==>
                && k.agent in old(ledger.agents) && mcpReady
                && var provider := old(ledger.agents)[k.agent].def.provider;
                   exists ceiling :: Honoured(old(ledger.turns)[k], provider, ledger.providers, ceiling)
      ensures if plan.None? || Continues(old(ledger.agents)[k.agent], k.seqNo)
              then ledger.agents == old(ledger.agents)
              else
                var agent := old(ledger.agents)[k.agent];
                ledger.agents == old(ledger.agents)[k.agent := agent.(session := Some(newId), startedSeq := 0)]
      ensures plan.Some? ==> LoadedFrom(old(ledger.agents)[k.agent], k.seqNo, newId, plan.value)
    {
      TouchesNothing(ledger.Tables(), k);
      if k.agent !in ledger.agents {
        return None;
      }
      LoadOutcome(ledger.Tables(), ledger.providers, k, ledger.agents[k.agent], 0, mcpReady);
      var load := LoadPlan(ledger.Tables(), ledger.providers, k, ledger.agents[k.agent], 0, mcpReady);
      match load {
        case LoadFails(_) => return None;
        case Loads(p) => return Some(p);
        case LoadRotates(p) =>
          ledger.AssignSession(k.agent, newId);
          return Some(p.(resume := Some(ClientAssigned(newId))));
      }
    }

    /** An operator's kill: record, then signal whoever is registered. */
    method RecordAndSignal(k: Key, nowMs: int)
      requires ledger.Valid()
      modifies this`cancelled, ledger`turns
      ensures ledger.Valid()
      ensures ledger.Tables() == Interrupt(old(ledger.Tables()), ledger.providers, k, Killed, "stopped", nowMs, Live)
      ensures cancelled == old(cancelled) + if k in kills then {kills[k]} else {}
    {
      var settled := ledger.InterruptTurn(k, Killed, "stopped", nowMs);
      var signalled := Kill(k);
    }

    /** The kill lands while snapshots are still on their way to the writer. */
    method KillMidway(k: Key, emitted: seq<TokenUsage>, written: nat, nowMs: int)
      requires ledger.Valid() && written <= |emitted|
      modifies this`cancelled, ledger`turns
      ensures ledger.Valid()
      ensures ledger.Tables() == Midway(old(ledger.Tables()), ledger.providers, k, emitted, written, nowMs)
      ensures cancelled == old(cancelled) + if k in kills then {kills[k]} else {}
    {
      WriteSnapshots(k, emitted[..written]);
      RecordAndSignal(k, nowMs);
      WriteSnapshots(k, emitted[written..]);
    }

    method HearName(k: Key, name: Option<string>)
      requires ledger.Valid()
      modifies ledger
      ensures ledger.Valid() && ledger.Tables() == Heard(old(ledger.Tables()), k, name)
    {
      if name.Some? {
        ledger.RecordProviderSession(k, name.value);
      }
    }

    /** A call no kill interrupts: drain the writer, then settle. */
    method CallToTheEnd(k: Key, script: Script, nowSec: int)
      requires ledger.Valid() && InClaim(ledger.Tables(), k)
      modifies ledger
      ensures ledger.Valid() && CostsNonNegative(WriteAll(old(ledger.Tables()), k, script.snapshots))
      ensures ledger.Tables() ==
              SettleWith(WriteAll(old(ledger.Tables()), k, script.snapshots), k, script.result, nowSec)
    {
      WriteSnapshots(k, script.snapshots);
      SettleExchange(k, script.result, nowSec);
    }

    /** The exchange itself, the observations it streams, and its settlement
        unless a kill drops the future first; the writer drains either way. */
    method CallProvider(k: Key, kill: KillPoint, script: Script, nowMs: int) returns (outcome: Delivery)
      requires ledger.Valid() && InClaim(ledger.Tables(), k) && Falls(kill, script) && !BeforeProvider(kill)
      modifies this`cancelled, ledger
      ensures ledger.Valid() && outcome == if kill == NoKill then Ran else Cancelled
      ensures ledger.Tables() == AfterCall(old(ledger.Tables()), ledger.providers, k, kill, script, nowMs)
      ensures cancelled <= old(cancelled) + if k in kills then {kills[k]} else {}
    {
      CallPrepares(ledger.Tables(), k, script);
      HearName(k, script.confirms);
      if kill == NoKill {
        CallToTheEnd(k, script, nowMs / 1000);
        outcome := Ran;
      } else {
        KillMidway(k, Emitted(kill, script), WrittenBy(kill, script), nowMs);
        outcome := Cancelled;
      }
    }

    /** From a claimed turn to its settlement: every path settles it. */
    method RunClaimedTurn(k: Key, kill: KillPoint, mcpReady: bool, newId: string, script: Script, nowMs: int)
      returns (outcome: Delivery)
      requires ledger.Valid() && InClaim(ledger.Tables(), k) && Falls(kill, script) && !BeforeProvider(kill)
      modifies this`cancelled, ledger
      ensures Touches(old(ledger.Tables()), ledger.Tables(), k)
      ensures LeftAs(ledger.Tables(), k, outcome, kill, script)
      ensures outcome == Delivery.Refused || outcome == if kill == NoKill then Ran else Cancelled
      ensures outcome != Delivery.Refused ==>
                exists p: Plan :: GatePassed(old(ledger.turns[k]), p, ledger.providers)
      ensures cancelled <= old(cancelled) + if k in kills then {kills[k]} else {}
    {
      ghost var before := ledger.Tables();
      var plan := Load(k, mcpReady, newId);
      ghost var loaded := ledger.Tables();
      var passes := false;
      if plan.Some? {
        passes := Gate(plan.value);
      }
      if passes {
        assert GatePassed(before.turns[k], plan.value, ledger.providers);
        CallTouches(loaded, ledger.providers, k, kill, script, nowMs);
        outcome := CallProvider(k, kill, script, nowMs);
      } else {
        AbortTouches(loaded, k, "before provider", nowMs / 1000);
        var aborted := ledger.AbortClaimedTurn(k, "before provider", nowMs / 1000);
        outcome := Delivery.Refused;
      }
      TouchesTwice(before, loaded, ledger.Tables(), k);
    }

    /** The biased select: the token is looked at before the turn is polled. */
    method RunRegistered(
      k: Key, token: nat, kill: KillPoint, mcpReady: bool, newId: string, script: Script, nowMs: int)
      returns (outcome: Delivery)
      requires ledger.Valid() && InClaim(ledger.Tables(), k) && Falls(kill, script)
      requires BeforeProvider(kill) ==> kill == BeforePoll
      requires k in kills && kills[k] == token && token !in cancelled
      modifies this`cancelled, ledger
      ensures Touches(old(ledger.Tables()), ledger.Tables(), k)
      ensures LeftAs(ledger.Tables(), k, outcome, kill, script) && Fits(outcome, kill)
      ensures cancelled <= old(cancelled) + {token}
    {
      if kill == BeforePoll {
        KillTouches(ledger.Tables(), ledger.providers, k, nowMs);
        RecordAndSignal(k, nowMs);
      }
      if token in cancelled {
        outcome := Cancelled;
      } else {
        outcome := RunClaimedTurn(k, kill, mcpReady, newId, script, nowMs);
      }
    }

    /** Install the token, then read the row again. */
    method InstallAndRecheck(k: Key, kill: KillPoint, nowMs: int) returns (token: nat, running: bool)
      requires ledger.Valid() && InClaim(ledger.Tables(), k) && k !in kills
      modifies this`kills, this`nextToken, this`cancelled, ledger`turns
      ensures running <==> kill != AfterClaim && kill != AfterInstall
      ensures running ==> ledger.Tables() == old(ledger.Tables())
      ensures !running ==>
                Touches(old(ledger.Tables()), ledger.Tables(), k)
                && InState(ledger.Tables(), k, Killed) && ledger.turns[k].cost == 0
      ensures token == old(nextToken) && nextToken == token + 1 && kills == old(kills)[k := token]
      ensures cancelled == old(cancelled) + if kill == AfterInstall then {token} else {}
    {
      KillTouches(ledger.Tables(), ledger.providers, k, nowMs);
      if kill == AfterClaim {
        RecordAndSignal(k, nowMs);
      }
      token := Install(k);
      if kill == AfterInstall {
        RecordAndSignal(k, nowMs);
      }
      running := k in ledger.turns && ledger.turns[k].state == Running;
    }

    /** The durable recheck decides whether the turn is polled at all. */
    method RunRechecked(
      k: Key, kill: KillPoint, mcpReady: bool, newId: string, script: Script, nowMs: int) returns (outcome: Delivery)
      requires ledger.Valid() && InClaim(ledger.Tables(), k) && Falls(kill, script)
      requires k !in kills && forall c | c in cancelled :: c < nextToken
      modifies this`kills, this`nextToken, this`cancelled, ledger
      ensures Touches(old(ledger.Tables()), ledger.Tables(), k)
      ensures Fits(outcome, kill) && LeftAs(ledger.Tables(), k, outcome, kill, script)
      ensures kills == old(kills)[k := old(nextToken)] && forall c | c in cancelled :: c < nextToken
    {
      var token, running := InstallAndRecheck(k, kill, nowMs);
      if running {
        outcome := RunRegistered(k, token, kill, mcpReady, newId, script, nowMs);
      } else {
        KilledBeforeIsLeft(ledger.Tables(), k, kill, script);
        outcome := Cancelled;
      }
    }

    /** A claimed turn with its token in the kill map from start to end. */
    method RunCancellable(
      k: Key, kill: KillPoint, mcpReady: bool, newId: string, script: Script, nowMs: int) returns (outcome: Delivery)
      requires ledger.Valid() && InClaim(ledger.Tables(), k) && Falls(kill, script)
      requires k !in kills && forall c | c in cancelled :: c < nextToken
      modifies this`kills, this`nextToken, this`cancelled, ledger
      ensures Touches(old(ledger.Tables()), ledger.Tables(), k)
      ensures Fits(outcome, kill) && LeftAs(ledger.Tables(), k, outcome, kill, script)
      ensures kills == old(kills) && forall c | c in cancelled :: c < nextToken
    {
      outcome := RunRechecked(k, kill, mcpReady, newId, script, nowMs);
      Deregister(k);
    }

    /** One delivery of one submission, from its permit to its end. A duplicate,
        even of a turn registered right now, claims nothing; the delivery that
        claims leaves its turn settled; guard and registration are given back on
        every path. */
    method Deliver(
      k: Key, kill: KillPoint, mcpReady: bool, newId: string, script: Script, nowMs: int) returns (outcome: Delivery)
      requires ledger.Valid() && Consistent() && Falls(kill, script)
      modifies this`inflight, this`kills, this`nextToken, this`cancelled, ledger
      ensures Touches(old(ledger.Tables()), ledger.Tables(), k) && Consistent()
      ensures outcome == NotClaimed <==> old(stopping) || !InState(old(ledger.Tables()), k, Queued)
      ensures outcome == NotClaimed ==> ledger.Tables() == old(ledger.Tables())
      ensures outcome != NotClaimed ==> LeftAs(ledger.Tables(), k, outcome, kill, script) && Fits(outcome, kill)
      ensures inflight == old(inflight) && kills == old(kills)
    {
      TouchesNothing(ledger.Tables(), k);
      outcome := NotClaimed;
      var guarded := AfterPermit();
      if guarded {
        outcome := ClaimAndRun(k, kill, mcpReady, newId, script, nowMs);
        DropGuard(k);
      }
    }

    /** The claim decides: only the delivery that wins it goes on. */
    method ClaimAndRun(
      k: Key, kill: KillPoint, mcpReady: bool, newId: string, script: Script, nowMs: int) returns (outcome: Delivery)
      requires ledger.Valid() && Consistent() && Falls(kill, script)
      modifies this`kills, this`nextToken, this`cancelled, ledger
      ensures Touches(old(ledger.Tables()), ledger.Tables(), k) && Consistent()
      ensures outcome == NotClaimed <==> !InState(old(ledger.Tables()), k, Queued)
      ensures outcome == NotClaimed ==> ledger.Tables() == old(ledger.Tables())
      ensures outcome != NotClaimed ==> LeftAs(ledger.Tables(), k, outcome, kill, script) && Fits(outcome, kill)
      ensures kills == old(kills)
    {
      ghost var before := ledger.Tables();
      TouchesNothing(before, k);
      outcome := NotClaimed;
      var won := ledger.ClaimTurn(k, nowMs);
      if won {
        ClaimTouches(before, k, nowMs);
        outcome := RunCancellable(k, kill, mcpReady, newId, script, nowMs);
        TouchesTwice(before, Database.ClaimTurn(before, k, nowMs), ledger.Tables(), k);
        NoneQueuedStays(before, ledger.Tables(), k, kills);
      }
    }
  }

  /** What a loaded turn runs with: its agent's definition as it stands, and its
      conversation unless the policy ends that, in which case the new name. */
  predicate LoadedFrom(agent: AgentRow, seqNo: nat, newId: string, plan: Plan) {
    && plan.provider == agent.def.provider && plan.wants == agent.def.wants
    && if Continues(agent, seqNo) then AsStored(agent, plan.resume) else plan.resume == Some(ClientAssigned(newId))
  }

  /** The provider was one the row's frozen protection and the gate let through. */
  predicate GatePassed(turn: TurnRow, plan: Plan, registry: Registry) {
    && ProtectedCeiling(turn, plan.provider, registry) == Runs(plan.ceiling)
    && plan.provider in registry && !Blocked(registry[plan.provider], IntentOf(plan))
  }

  // ---- How work arrives ----

  /** Work arrives through a channel. */
  class HandExecutor {
    const runner: Runner
    var queue: seq<Key>

    constructor (runner: Runner)
      ensures this.runner == runner && queue == []
    {
      this.runner, queue := runner, [];
    }

    method Submit(k: Key)
      modifies this`queue
      ensures queue == old(queue) + [k]
    {
      queue := queue + [k];
    }

    /** The dispatcher takes the oldest submission, and none before the gate. */
    method Receive() returns (k: Option<Key>)
      modifies this`queue
      ensures k.Some? <==> runner.dispatch == Dispatching && old(queue) != []
      ensures k.Some? ==> [k.value] + queue == old(queue)
      ensures k.None? ==> queue == old(queue)
    {
      if runner.dispatch != Dispatching || queue == [] {
        return None;
      }
      k := Some(queue[0]);
      queue := queue[1..];
    }
  }

  /** Work is found by reading the ledger. */
  class PollingExecutor {
    const runner: Runner
    var nudged: bool

    constructor (runner: Runner)
      ensures this.runner == runner && !nudged
    {
      this.runner, nudged := runner, false;
    }

    /** The row is in the ledger already; this only brings the next tick forward. */
    method Submit(k: Key)
      modifies this`nudged
      ensures nudged
    {
      nudged := true;
    }

    /** One tick: read the queued rows and deliver them in order, while a drain may
        land before the one numbered `drainAt` gets its permit. Every row before
        it ends settled, and every other row stays exactly as it was. */
    method Tick(drainAt: nat, mcpReady: bool, newId: Key -> string, scripts: Key -> Script, nowMs: int)
      returns (ghost order: seq<Key>, ghost reached: nat)
      requires runner.ledger.Valid() && runner.Consistent() && runner.dispatch == Dispatching
      modifies this`nudged, runner`inflight, runner`kills, runner`nextToken, runner`cancelled, runner`stopping
      modifies runner.ledger
      ensures runner.ledger.Valid() && runner.Consistent()
      ensures Enumerates(order, QueuedKeys(old(runner.ledger.Tables())))
      ensures reached == if old(runner.stopping) then 0 else Min(drainAt, |order|)
      ensures Worked(old(runner.ledger.Tables()), runner.ledger.Tables(), order, reached)
      ensures runner.inflight == old(runner.inflight) && runner.kills == old(runner.kills)
      ensures runner.stopping <==> old(runner.stopping) || drainAt < |order|
    {
      nudged := false;
      ghost var start := runner.ledger.Tables();
      var queued := Ledger.Select(QueuedKeys(runner.ledger.Tables()));
      order := queued;
      reached := 0;
      var i := 0;
      while i < |queued| && !runner.stopping
        invariant 0 <= i <= |queued| && reached == i
        invariant runner.ledger.Valid() && runner.Consistent()
        invariant runner.stopping ==> old(runner.stopping) || i == drainAt < |queued|
        invariant !runner.stopping ==> !old(runner.stopping) && i <= drainAt
        invariant old(runner.stopping) ==> i == 0
        invariant Worked(start, runner.ledger.Tables(), queued, i)
        invariant runner.inflight == old(runner.inflight) && runner.kills == old(runner.kills)
        decreases |queued| - i, if runner.stopping then 0 else 1
      {
        if i == drainAt {
          var left := runner.Drain();
        } else {
          StillQueued(start, runner.ledger.Tables(), queued, i);
          ghost var before := runner.ledger.Tables();
          var outcome := runner.Deliver(queued[i], NoKill, mcpReady, newId(queued[i]), scripts(queued[i]), nowMs);
          OneMoreWorked(start, before, runner.ledger.Tables(), queued, i);
          i := i + 1;
          reached := i;
        }
      }
    }
  }

  /** The first `n` rows of the list are settled, and no other row changed. */
  ghost predicate Worked(before: Db, after: Db, order: seq<Key>, n: nat)
    requires n <= |order|
  {
    && (forall i | 0 <= i < n :: Settled(after, order[i]))
    && (forall k | k in before.turns && k !in order[..n] :: k in after.turns && after.turns[k] == before.turns[k])
  }

  lemma StillQueued(before: Db, after: Db, order: seq<Key>, i: nat)
    requires i < |order| && Worked(before, after, order, i) && Enumerates(order, QueuedKeys(before))
    ensures InState(after, order[i], Queued)
  {
    assert order[i] in order && order[i] !in order[..i];
  }

  lemma OneMoreWorked(before: Db, mid: Db, after: Db, order: seq<Key>, i: nat)
    requires i < |order| && Worked(before, mid, order, i) && Touches(mid, after, order[i]) && Settled(after, order[i])
    requires Enumerates(order, QueuedKeys(before))
    ensures Worked(before, after, order, i + 1)
  {
    assert order[..i + 1] == order[..i] + [order[i]];
    forall k | k in before.turns && k !in order[..i + 1]
      ensures k in after.turns && after.turns[k] == before.turns[k]
    {
      assert k !in order[..i] && k != order[i];
    }
  }
}
