/** The ledger's tables as one value. Each SQL statement or transaction is one
    function from tables to tables: the specification the ledger's methods meet
    and the atomic step every interleaving is made of. */
module Database {
  import opened Types
  import opened Sums
  import opened Capability
  import opened Limits
  import opened Rows

  datatype Db = Db(agents: map<string, AgentRow>, turns: map<Key, TurnRow>)

  function Put(db: Db, k: Key, r: TurnRow): Db { db.(turns := db.turns[k := r]) }

  function PutAgent(db: Db, a: string, r: AgentRow): Db { db.(agents := db.agents[a := r]) }

  predicate InState(db: Db, k: Key, s: TurnState) { k in db.turns && db.turns[k].state == s }

  predicate InFlight(db: Db, k: Key) { k in db.turns && db.turns[k].state.InFlight() }

  predicate Settled(db: Db, k: Key) { k in db.turns && db.turns[k].state.Terminal() }

  // ---- Statements on turns ----

  function ClaimTurn(db: Db, k: Key, nowMs: int): Db {
    if InState(db, k, Queued) then Put(db, k, ClaimRow(db.turns[k], nowMs)) else db
  }

  predicate Interruptible(db: Db, k: Key, timing: Timing) {
    InFlight(db, k) && (timing == Live || db.turns[k].state == Running)
  }

  /** `unavailable_telemetry`: what is honestly known when no result arrived. */
  function UnavailableCost(db: Db, registry: Registry, a: string): CostState {
    if a in db.agents && db.agents[a].def.provider in registry
       && !registry[db.agents[a].def.provider].reportsCost
    then CostNotPriced else CostUnreported
  }

  function UnavailableUsage(db: Db, registry: Registry, a: string): UsageState {
    if a in db.agents && db.agents[a].def.provider in registry
       && !registry[db.agents[a].def.provider].reportsTokenUsage
    then UsageNotTracked else UsageUnreported
  }

  function Interrupt(
    db: Db, registry: Registry, k: Key, target: TurnState, error: string, nowMs: int, timing: Timing): Db
  {
    if Interruptible(db, k, timing) then
      Put(db, k, InterruptRow(db.turns[k], target, error, UnavailableCost(db, registry, k.agent),
                              UnavailableUsage(db, registry, k.agent), nowMs, timing))
    else db
  }

  function AbortTurn(db: Db, k: Key, error: string, nowSec: int): Db {
    if InState(db, k, Running) then Put(db, k, AbortRow(db.turns[k], error, nowSec)) else db
  }

  function BankedCost(ex: Exchange): i64 { SaturatedI64(ex.cost.MicroUsdOrZero()) }

  function RollUpAgent(db: Db, k: Key, session: Option<string>, cost: i64): Db
    requires cost >= 0
    requires k.agent in db.agents ==> db.agents[k.agent].cost >= 0
  {
    if k.agent in db.agents then PutAgent(db, k.agent, RollUp(db.agents[k.agent], session, cost, k.seqNo)) else db
  }

  predicate CostsNonNegative(db: Db) { forall a | a in db.agents :: db.agents[a].cost >= 0 }

  function CompleteTurn(db: Db, k: Key, ex: Exchange, nowSec: int): Db
    requires CostsNonNegative(db)
  {
    if InState(db, k, Running) then
      RollUpAgent(Put(db, k, CompleteRow(db.turns[k], ex, nowSec)), k, ex.session, BankedCost(ex))
    else db
  }

  function FailExchange(db: Db, k: Key, target: TurnState, error: string, ex: Exchange, nowSec: int): Db
    requires CostsNonNegative(db)
  {
    if InFlight(db, k) then
      var settled := Put(db, k, FailRow(db.turns[k], target, error, ex, nowSec));
      if BankedCost(ex) > 0 || ex.session.Some? then RollUpAgent(settled, k, ex.session, BankedCost(ex)) else settled
    else db
  }

  function RecordUsage(db: Db, k: Key, u: TokenUsage): Db {
    if k in db.turns && AcceptsSnapshot(db.turns[k]) then Put(db, k, SnapshotRow(db.turns[k], u)) else db
  }

  function RecordProviderSession(db: Db, k: Key, id: string): Db {
    var withAgent :=
      if k.agent in db.agents then PutAgent(db, k.agent, RecordSession(db.agents[k.agent], k.seqNo, id)) else db;
    if k in db.turns then Put(withAgent, k, db.turns[k].(providerSession := Some(id))) else withAgent
  }

  // ---- Statements on agents ----

  function Assign(db: Db, a: string, id: string): Db {
    if a in db.agents then PutAgent(db, a, AssignSession(db.agents[a], id)) else db
  }

  predicate HasInFlight(db: Db, a: string) { exists k :: k in db.turns && k.agent == a && InFlight(db, k) }

  predicate Retirable(db: Db, a: string) {
    a in db.agents && !db.agents[a].retired && !HasInFlight(db, a)
  }

  function Retire(db: Db, a: string): Db {
    if Retirable(db, a) then PutAgent(db, a, db.agents[a].(retired := true)) else db
  }

  function CreateAgent(db: Db, a: string, def: AgentDef, session: string, spawnedBy: Option<string>): Db
    requires a !in db.agents
  {
    PutAgent(db, a, AgentRow(def, Some(session), 0, 0, false, spawnedBy))
  }

  /** The check `update_agent_def` makes before it writes: a recorded
      conversation does not move between providers. */
  predicate MayRedefine(db: Db, a: string, def: AgentDef) {
    a in db.agents && def.provider != db.agents[a].def.provider ==> forall k | k in db.turns :: k.agent != a
  }

  function UpdateDef(db: Db, a: string, def: AgentDef): Db {
    if a in db.agents then PutAgent(db, a, db.agents[a].(def := def)) else db
  }

  // ---- The guarded INSERT ----

  /** `COALESCE(MAX(seq), 0)` over one agent's turns. */
  ghost predicate IsMaxSeq(turns: map<Key, TurnRow>, a: string, m: nat) {
    && (m == 0 || Key(a, m) in turns)
    && forall k | k in turns && k.agent == a :: k.seqNo <= m
  }

  lemma {:induction false} MaxSeqExists(turns: map<Key, TurnRow>, a: string)
    ensures exists m: nat :: IsMaxSeq(turns, a, m)
    decreases |turns|
  {
    if turns == map[] {
      assert IsMaxSeq(turns, a, 0);
    } else {
      var k :| k in turns;
      RemoveSize(turns, k);
      MaxSeqExists(turns - {k}, a);
      var m: nat :| IsMaxSeq(turns - {k}, a, m);
      assert IsMaxSeq(turns, a, if k.agent == a && k.seqNo > m then k.seqNo else m);
    }
  }

  ghost function MaxSeq(turns: map<Key, TurnRow>, a: string): (m: nat)
    ensures IsMaxSeq(turns, a, m)
  {
    MaxSeqExists(turns, a);
    var m: nat :| IsMaxSeq(turns, a, m);
    m
  }

  predicate Insertable(db: Db, a: string) {
    a in db.agents && !db.agents[a].retired && !HasInFlight(db, a)
  }

  ghost function NextKey(db: Db, a: string): Key { Key(a, MaxSeq(db.turns, a) + 1) }

  ghost function GuardedInsert(db: Db, a: string, r: TurnRow): Db {
    if Insertable(db, a) then Put(db, NextKey(db, a), r) else db
  }

  // ---- What every statement keeps ----

  predicate RowInv(r: TurnRow) {
    && r.cost >= 0
    && (r.state.InFlight() ==> r.cost == 0)
    && (r.cost > 0 ==> r.costState == CostReported || r.costState == CostLegacy)
    && (r.state.Terminal() ==> r.settled.Some?)
    && (r.state == Queued ==> r.claimedMs.None? && r.usageState == UsageLegacy)
  }

  /** Each agent's turns are numbered 1..k without a gap, and only the last can
      be in flight, of an agent that is not retired. */
  ghost predicate Shape(db: Db) {
    && (forall k | k in db.turns ::
          k.agent in db.agents && k.seqNo >= 1
          && (db.turns[k].state.InFlight() ==> !db.agents[k.agent].retired))
    && (forall j: Key, k {:trigger j in db.turns, k in db.turns} |
          k in db.turns && j.agent == k.agent && 1 <= j.seqNo <= k.seqNo :: j in db.turns)
    && (forall j, k {:trigger j in db.turns, k in db.turns} |
          j in db.turns && k in db.turns && j.agent == k.agent && db.turns[k].state.InFlight() ::
          j.seqNo <= k.seqNo)
  }

  ghost function CostsOf(turns: map<Key, TurnRow>, a: string): map<Key, int> {
    map k | k in turns && k.agent == a :: turns[k].cost as int
  }

  ghost function Spent(turns: map<Key, TurnRow>, a: string): int { Sum(CostsOf(turns, a)) }

  /** The roll-up column is the agent's exact spend, saturated. */
  ghost predicate Money(db: Db) {
    forall a {:trigger Spent(db.turns, a)} | a in db.agents ::
      db.agents[a].cost == Min(Spent(db.turns, a), I64_MAX)
  }

  ghost predicate RowsValid(db: Db) { forall k | k in db.turns :: RowInv(db.turns[k]) }

  ghost predicate DbInv(db: Db) { RowsValid(db) && Shape(db) && Money(db) }

  lemma SpentNonNegative(db: Db, a: string)
    requires RowsValid(db)
    ensures Spent(db.turns, a) >= 0
  {
    SumNonNegative(CostsOf(db.turns, a));
  }

  lemma InvHasNonNegativeCosts(db: Db)
    requires DbInv(db)
    ensures CostsNonNegative(db)
  {
    forall a | a in db.agents ensures db.agents[a].cost >= 0 {
      SpentNonNegative(db, a);
    }
  }

  lemma SpentPut(turns: map<Key, TurnRow>, k: Key, r: TurnRow, a: string)
    ensures Spent(turns[k := r], a) ==
            Spent(turns, a) + (if a == k.agent then r.cost - (if k in turns then turns[k].cost else 0) else 0)
  {
    if a == k.agent {
      assert CostsOf(turns[k := r], a) == CostsOf(turns, a)[k := r.cost];
      SumUpdate(CostsOf(turns, a), k, r.cost);
    } else {
      assert CostsOf(turns[k := r], a) == CostsOf(turns, a);
    }
  }

  /** Single flight: the seqs are exactly 1..k, and two in-flight turns of one
      agent are the same turn, the last one. */
  lemma SingleFlight(db: Db, a: string)
    requires Shape(db)
    ensures forall n: nat :: Key(a, n) in db.turns <==> 1 <= n <= MaxSeq(db.turns, a)
    ensures forall k: Key | k.agent == a && InFlight(db, k) ::
              k.seqNo == MaxSeq(db.turns, a) && a in db.agents && !db.agents[a].retired
  {
    var m := MaxSeq(db.turns, a);
    forall n: nat ensures Key(a, n) in db.turns <==> 1 <= n <= m {
      if Key(a, n) in db.turns {
        assert Key(a, n).seqNo <= m;
      }
    }
    forall k: Key | k.agent == a && InFlight(db, k)
      ensures k.seqNo == m && a in db.agents && !db.agents[a].retired
    {
      assert k == Key(a, k.seqNo);
      assert k in db.turns && Key(a, m) in db.turns;
    }
  }

  // ---- How a row may change ----

  /** After a turn settles only the usage of a claimed killed row and the
      provenance of its conversation may still change, and such a late usage is
      never taken for the whole of it. */
  predicate Absorbed(before: TurnRow, after: TurnRow) {
    && after == before.(tokens := after.tokens, usageState := after.usageState,
                        usageComplete := after.usageComplete, providerSession := after.providerSession)
    && ((before.state == Killed && before.claimedMs.Some?
         && after.usageState == UsageReported && !after.usageComplete)
        || (after.tokens == before.tokens && after.usageState == before.usageState
            && after.usageComplete == before.usageComplete))
  }

  predicate Evolves(before: TurnRow, after: TurnRow) {
    && after.prompt == before.prompt
    && after.provider == before.provider
    && after.atUnix == before.atUnix
    && after.admissionOverride == before.admissionOverride
    && after.protectionState == before.protectionState
    && after.protection == before.protection
    && (before.state.Terminal() ==> Absorbed(before, after))
    && (before.state == Running ==> after.state != Queued)
    && (before.claimedMs.Some? ==> after.claimedMs == before.claimedMs)
  }

  ghost predicate DbEvolves(before: Db, after: Db) {
    && (forall k | k in before.turns :: k in after.turns && Evolves(before.turns[k], after.turns[k]))
    && before.agents.Keys <= after.agents.Keys
  }

  lemma EvolutionIsTransitive(a: Db, b: Db, c: Db)
    requires DbEvolves(a, b) && DbEvolves(b, c)
    ensures DbEvolves(a, c)
  {
    forall k | k in a.turns ensures k in c.turns && Evolves(a.turns[k], c.turns[k]) {
      assert k in b.turns && Evolves(a.turns[k], b.turns[k]);
    }
  }

  lemma PutKeepsShape(db: Db, k: Key, r: TurnRow)
    requires Shape(db) && k in db.turns
    requires r.state.InFlight() ==> db.turns[k].state.InFlight()
    ensures Shape(Put(db, k, r))
  {
  }

  lemma PutKeepsMoney(db: Db, k: Key, r: TurnRow)
    requires Money(db) && k in db.turns && r.cost == db.turns[k].cost
    ensures Money(Put(db, k, r))
  {
    forall a | a in db.agents ensures Spent(Put(db, k, r).turns, a) == Spent(db.turns, a) {
      SpentPut(db.turns, k, r, a);
    }
  }

  lemma PutEvolves(db: Db, k: Key, r: TurnRow)
    requires k in db.turns && Evolves(db.turns[k], r)
    ensures DbEvolves(db, Put(db, k, r))
  {
  }

  /** Rewriting one turn without changing its cost keeps the invariant as long
      as the turn never re-enters flight. */
  lemma PutKeeps(db: Db, k: Key, r: TurnRow)
    requires DbInv(db) && k in db.turns
    requires RowInv(r) && Evolves(db.turns[k], r) && r.cost == db.turns[k].cost
    requires r.state.InFlight() ==> db.turns[k].state.InFlight()
    ensures DbInv(Put(db, k, r)) && DbEvolves(db, Put(db, k, r))
  {
    PutKeepsShape(db, k, r);
    PutKeepsMoney(db, k, r);
    PutEvolves(db, k, r);
  }

  /** Rewriting agent columns other than the cost keeps the invariant. */
  lemma PutAgentKeeps(db: Db, a: string, r: AgentRow)
    requires DbInv(db) && a in db.agents && r.cost == db.agents[a].cost
    requires r.retired ==> db.agents[a].retired || !HasInFlight(db, a)
    ensures DbInv(PutAgent(db, a, r)) && DbEvolves(db, PutAgent(db, a, r))
  {
  }

  lemma ClaimKeeps(db: Db, k: Key, nowMs: int)
    requires DbInv(db)
    ensures DbInv(ClaimTurn(db, k, nowMs)) && DbEvolves(db, ClaimTurn(db, k, nowMs))
  {
    if InState(db, k, Queued) {
      PutKeeps(db, k, ClaimRow(db.turns[k], nowMs));
    }
  }

  lemma InterruptKeeps(
    db: Db, registry: Registry, k: Key, target: TurnState, error: string, nowMs: int, timing: Timing)
    requires DbInv(db) && target.Terminal()
    ensures var after := Interrupt(db, registry, k, target, error, nowMs, timing);
            DbInv(after) && DbEvolves(db, after)
  {
    if Interruptible(db, k, timing) {
      assert RowInv(db.turns[k]);
      PutKeeps(db, k, Interrupt(db, registry, k, target, error, nowMs, timing).turns[k]);
    }
  }

  lemma AbortKeeps(db: Db, k: Key, error: string, nowSec: int)
    requires DbInv(db)
    ensures DbInv(AbortTurn(db, k, error, nowSec)) && DbEvolves(db, AbortTurn(db, k, error, nowSec))
  {
    if InState(db, k, Running) {
      assert RowInv(db.turns[k]);
      PutKeeps(db, k, AbortRow(db.turns[k], error, nowSec));
    }
  }

  /** Settling a turn for `cost` and banking the same amount keeps every
      agent's roll-up equal to its saturated exact spend. */
  lemma SettleAndBank(db: Db, k: Key, r: TurnRow, session: Option<string>)
    requires DbInv(db) && InFlight(db, k) && r.state.Terminal()
    requires RowInv(r) && Evolves(db.turns[k], r)
    ensures CostsNonNegative(db)
    ensures var after := RollUpAgent(Put(db, k, r), k, session, r.cost);
            DbInv(after) && DbEvolves(db, after)
  {
    InvHasNonNegativeCosts(db);
    PutKeepsShape(db, k, r);
    PutEvolves(db, k, r);
    var settled := Put(db, k, r);
    var after := RollUpAgent(settled, k, session, r.cost);
    assert RowInv(db.turns[k]);
    forall a | a in after.agents ensures after.agents[a].cost == Min(Spent(after.turns, a), I64_MAX) {
      SpentPut(db.turns, k, r, a);
      SpentNonNegative(db, a);
    }
  }

  lemma CompleteKeeps(db: Db, k: Key, ex: Exchange, nowSec: int)
    requires DbInv(db)
    ensures CostsNonNegative(db)
    ensures DbInv(CompleteTurn(db, k, ex, nowSec)) && DbEvolves(db, CompleteTurn(db, k, ex, nowSec))
  {
    InvHasNonNegativeCosts(db);
    if InState(db, k, Running) {
      SettleAndBank(db, k, CompleteRow(db.turns[k], ex, nowSec), ex.session);
    }
  }

  lemma FailRowIsLegal(r: TurnRow, target: TurnState, error: string, ex: Exchange, nowSec: int)
    requires RowInv(r) && r.state.InFlight() && target.Terminal()
    ensures var f := FailRow(r, target, error, ex, nowSec);
            RowInv(f) && Evolves(r, f) && f.cost == BankedCost(ex) && f.state == target
  {
  }

  lemma FailKeeps(db: Db, k: Key, target: TurnState, error: string, ex: Exchange, nowSec: int)
    requires DbInv(db) && target.Terminal()
    ensures CostsNonNegative(db)
    ensures var after := FailExchange(db, k, target, error, ex, nowSec);
            DbInv(after) && DbEvolves(db, after)
  {
    InvHasNonNegativeCosts(db);
    if InFlight(db, k) {
      var r := FailRow(db.turns[k], target, error, ex, nowSec);
      assert RowInv(db.turns[k]);
      FailRowIsLegal(db.turns[k], target, error, ex, nowSec);
      if BankedCost(ex) > 0 || ex.session.Some? {
        SettleAndBank(db, k, r, ex.session);
      } else {
        PutKeeps(db, k, r);
      }
    }
  }

  lemma RecordUsageKeeps(db: Db, k: Key, u: TokenUsage)
    requires DbInv(db)
    ensures DbInv(RecordUsage(db, k, u)) && DbEvolves(db, RecordUsage(db, k, u))
  {
    if k in db.turns && AcceptsSnapshot(db.turns[k]) {
      assert RowInv(db.turns[k]);
      PutKeeps(db, k, SnapshotRow(db.turns[k], u));
    }
  }

  lemma RecordSessionKeeps(db: Db, k: Key, id: string)
    requires DbInv(db)
    ensures DbInv(RecordProviderSession(db, k, id)) && DbEvolves(db, RecordProviderSession(db, k, id))
  {
    var mid := db;
    if k.agent in db.agents {
      mid := PutAgent(db, k.agent, RecordSession(db.agents[k.agent], k.seqNo, id));
      PutAgentKeeps(db, k.agent, RecordSession(db.agents[k.agent], k.seqNo, id));
    }
    if k in db.turns {
      assert RowInv(db.turns[k]);
      PutKeeps(mid, k, db.turns[k].(providerSession := Some(id)));
      EvolutionIsTransitive(db, mid, RecordProviderSession(db, k, id));
    }
  }

  lemma AssignKeeps(db: Db, a: string, id: string)
    requires DbInv(db)
    ensures DbInv(Assign(db, a, id)) && DbEvolves(db, Assign(db, a, id))
  {
    if a in db.agents {
      PutAgentKeeps(db, a, AssignSession(db.agents[a], id));
    }
  }

  lemma RetireKeeps(db: Db, a: string)
    requires DbInv(db)
    ensures DbInv(Retire(db, a)) && DbEvolves(db, Retire(db, a))
  {
    if Retirable(db, a) {
      PutAgentKeeps(db, a, db.agents[a].(retired := true));
    }
  }

  lemma UpdateDefKeeps(db: Db, a: string, def: AgentDef)
    requires DbInv(db)
    ensures DbInv(UpdateDef(db, a, def)) && DbEvolves(db, UpdateDef(db, a, def))
  {
    if a in db.agents {
      PutAgentKeeps(db, a, db.agents[a].(def := def));
    }
  }

  lemma CreateKeepsMoney(db: Db, a: string, r: AgentRow)
    requires Money(db) && Shape(db) && a !in db.agents && r.cost == 0
    ensures Money(PutAgent(db, a, r))
  {
    assert CostsOf(db.turns, a) == map[];
    SumEmpty(CostsOf(db.turns, a));
  }

  lemma CreateKeeps(db: Db, a: string, def: AgentDef, session: string, spawnedBy: Option<string>)
    requires DbInv(db) && a !in db.agents
    ensures var after := CreateAgent(db, a, def, session, spawnedBy); DbInv(after) && DbEvolves(db, after)
  {
    var r := AgentRow(def, Some(session), 0, 0, false, spawnedBy);
    CreateKeepsMoney(db, a, r);
    assert Shape(PutAgent(db, a, r));
  }

  lemma InsertKeepsShape(db: Db, a: string, r: TurnRow)
    requires Shape(db) && Insertable(db, a) && r.state == Queued
    ensures NextKey(db, a) !in db.turns
    ensures Shape(Put(db, NextKey(db, a), r))
  {
    var k := NextKey(db, a);
    var after := Put(db, k, r);
    SingleFlight(db, a);
    forall j: Key, l | l in after.turns && j.agent == l.agent && 1 <= j.seqNo <= l.seqNo
      ensures j in after.turns
    {
      if l == k && j != k {
        assert j == Key(a, j.seqNo);
      }
    }
    forall j, l | j in after.turns && l in after.turns && j.agent == l.agent && after.turns[l].state.InFlight()
      ensures j.seqNo <= l.seqNo
    {
      if l != k {
        assert InFlight(db, l);
        assert l.agent != a;
      }
    }
  }

  lemma InsertKeepsMoney(db: Db, k: Key, r: TurnRow)
    requires Money(db) && k !in db.turns && r.cost == 0
    ensures Money(Put(db, k, r))
  {
    forall a | a in db.agents ensures Spent(Put(db, k, r).turns, a) == Spent(db.turns, a) {
      SpentPut(db.turns, k, r, a);
    }
  }

  lemma InsertKeeps(db: Db, a: string, r: TurnRow)
    requires DbInv(db) && RowInv(r) && r.state == Queued
    ensures DbInv(GuardedInsert(db, a, r)) && DbEvolves(db, GuardedInsert(db, a, r))
    ensures Insertable(db, a) ==> NextKey(db, a) !in db.turns
  {
    if Insertable(db, a) {
      InsertKeepsShape(db, a, r);
      InsertKeepsMoney(db, NextKey(db, a), r);
      assert DbEvolves(db, Put(db, NextKey(db, a), r));
    }
  }
}
