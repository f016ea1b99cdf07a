/** Money is conserved: what the agents' roll-ups add up to is what their turns
    cost, retired agents included, however the sums saturate. */
module Money {
  import opened Types
  import opened Sums
  import opened Rows
  import opened Database
  import opened Protocol
  import opened Kept

  /** The rows `spend_since` selects. */
  predicate SpentSince(r: TurnRow, since: int) {
    r.state.Terminal() && (if r.settled.Some? then r.settled.value >= since else r.atUnix >= since)
  }

  ghost function SpendOf(turns: map<Key, TurnRow>, since: int): map<Key, int> {
    map k | k in turns && SpentSince(turns[k], since) :: turns[k].cost as int
  }

  /** The exact spend of the turns settled since `since`. */
  ghost function SpendSince(db: Db, since: int): int { Sum(SpendOf(db.turns, since)) }

  ghost function AgentCosts(db: Db): map<string, int> { map a | a in db.agents :: db.agents[a].cost as int }

  /** A loop of `i64::saturating_add` over rows in the order the query returned them. */
  function Saturating<K>(total: i64, order: seq<K>, amounts: map<K, int>): i64
    requires forall k | k in order :: k in amounts && 0 <= amounts[k] <= I64_MAX
    requires total >= 0
    decreases |order|
  {
    if order == [] then total
    else
      assert order[0] in order;
      Saturating(Min(total + amounts[order[0]], I64_MAX), order[1..], amounts)
  }

  /** The loop returns the exact total, clamped once. */
  lemma {:induction false} SaturatingIsClampedSum<K>(total: i64, order: seq<K>, amounts: map<K, int>)
    requires forall k | k in order :: k in amounts && 0 <= amounts[k] <= I64_MAX
    requires total >= 0
    ensures SumSeq(order, amounts) >= 0
    ensures Saturating(total, order, amounts) == Min(total + SumSeq(order, amounts), I64_MAX)
    decreases |order|
  {
    if order != [] {
      assert order[0] in order;
      SaturatingIsClampedSum(Min(total + amounts[order[0]], I64_MAX), order[1..], amounts);
    }
  }

  ghost function AllCosts(turns: map<Key, TurnRow>): map<Key, int> { map k | k in turns :: turns[k].cost as int }

  lemma OneAgentLess(turns: map<Key, TurnRow>, a: string) returns (others: map<Key, TurnRow>)
    ensures others == map k | k in turns && k.agent != a :: turns[k]
    ensures Sum(AllCosts(turns)) == Spent(turns, a) + Sum(AllCosts(others))
    ensures forall b | b != a :: Spent(others, b) == Spent(turns, b)
  {
    others := map k | k in turns && k.agent != a :: turns[k];
    SumPartition(AllCosts(turns), CostsOf(turns, a));
    assert AllCosts(turns) - CostsOf(turns, a).Keys == AllCosts(others);
    forall b | b != a ensures Spent(others, b) == Spent(turns, b) {
      assert CostsOf(others, b) == CostsOf(turns, b);
    }
  }

  /** All turns' costs, agent by agent. */
  lemma {:induction false} CostsByAgent(turns: map<Key, TurnRow>, byAgent: map<string, int>)
    requires forall k | k in turns :: k.agent in byAgent
    requires forall a | a in byAgent :: byAgent[a] == Spent(turns, a)
    ensures Sum(AllCosts(turns)) == Sum(byAgent)
    decreases |byAgent|
  {
    if byAgent == map[] {
      SumEmpty(AllCosts(turns));
      SumEmpty(byAgent);
    } else {
      var a :| a in byAgent;
      var others := OneAgentLess(turns, a);
      RemoveSize(byAgent, a);
      SumRemove(byAgent, a);
      CostsByAgent(others, byAgent - {a});
    }
  }

  /** Rows in flight cost nothing yet, so the settled rows carry every cost. */
  lemma InFlightCostsNothing(db: Db, since: int)
    requires RowsValid(db)
    requires forall k | k in db.turns && db.turns[k].state.Terminal() :: db.turns[k].settled.value >= since
    ensures SpendSince(db, since) == Sum(AllCosts(db.turns))
  {
    var settled := SpendOf(db.turns, since);
    assert forall k | k in db.turns :: RowInv(db.turns[k]);
    SumPartition(AllCosts(db.turns), settled);
    SumOfZeros(AllCosts(db.turns) - settled.Keys);
  }

  /** `totals()` equals `spend_since(t)` for any `t` no later than a settlement. */
  lemma TotalsEqualSpend(db: Db, since: int)
    requires DbInv(db)
    requires forall k | k in db.turns && db.turns[k].state.Terminal() ::
               db.turns[k].settled.Some? && db.turns[k].settled.value >= since
    ensures Min(Sum(AgentCosts(db)), I64_MAX) == Min(SpendSince(db, since), I64_MAX)
  {
    var exact := map a | a in db.agents :: Spent(db.turns, a);
    forall a | a in db.agents ensures exact[a] >= 0 && AgentCosts(db)[a] == Min(exact[a], I64_MAX) {
      SpentNonNegative(db, a);
      assert db.agents[a].cost == Min(Spent(db.turns, a), I64_MAX);
    }
    ClampingParts(exact, AgentCosts(db), I64_MAX);
    CostsByAgent(db.turns, exact);
    InFlightCostsNothing(db, since);
  }

  lemma ColumnsAreSafe(db: Db, since: int)
    requires DbInv(db)
    ensures forall a | a in AgentCosts(db) :: 0 <= AgentCosts(db)[a] <= I64_MAX
    ensures forall k | k in SpendOf(db.turns, since) :: 0 <= SpendOf(db.turns, since)[k] <= I64_MAX
  {
    InvHasNonNegativeCosts(db);
    assert forall k | k in db.turns :: RowInv(db.turns[k]);
  }

  lemma QueryTotal<K(!new)>(order: seq<K>, amounts: map<K, int>)
    requires Enumerates(order, amounts.Keys)
    requires forall k | k in amounts :: 0 <= amounts[k] <= I64_MAX
    ensures forall k | k in order :: k in amounts
    ensures Saturating(0, order, amounts) == Min(Sum(amounts), I64_MAX)
  {
    assert forall k | k in order :: k in amounts.Keys;
    SaturatingIsClampedSum(0, order, amounts);
    EnumerationSum(order, amounts);
  }

  /** In every reachable ledger, whatever order the two queries return their
      rows in: the loop over all agents and the loop over all settled turns
      report the same money. */
  lemma MoneyIsConserved(
    start: World, events: seq<Event>, w: World, since: int, agents: seq<string>, turns: seq<Key>)
    requires DbInv(start.db) && Reaches(start, events, w)
    requires forall k | k in w.db.turns && w.db.turns[k].state.Terminal() ::
               w.db.turns[k].settled.Some? && w.db.turns[k].settled.value >= since
    requires Enumerates(agents, AgentCosts(w.db).Keys) && Enumerates(turns, SpendOf(w.db.turns, since).Keys)
    ensures (forall a | a in agents :: a in AgentCosts(w.db) && 0 <= AgentCosts(w.db)[a] <= I64_MAX)
            && (forall k | k in turns ::
                  k in SpendOf(w.db.turns, since) && 0 <= SpendOf(w.db.turns, since)[k] <= I64_MAX)
            && Saturating(0, agents, AgentCosts(w.db)) == Saturating(0, turns, SpendOf(w.db.turns, since))
  {
    RunKeepsDb(start, events, w);
    ColumnsAreSafe(w.db, since);
    TotalsEqualSpend(w.db, since);
    QueryTotal(agents, AgentCosts(w.db));
    QueryTotal(turns, SpendOf(w.db.turns, since));
  }
}
