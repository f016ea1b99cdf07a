/** The rolling day as the ledger's columns tell it, turn by turn, and that the
    window query and its fold see exactly that day. */
module Window {
  import opened Types
  import opened Sums
  import opened Capability
  import opened Limits
  import opened Rows
  import opened Database
  import opened Telemetry
  import opened Admission
  import opened Money

  /** A day before `now`. */
  function DayBefore(now: int): int { now - 24 * 60 * 60 }

  /** Settled within the day, or running. */
  predicate InTheDay(r: TurnRow, now: int) {
    || r.state == Running
    || (r.state.Terminal() && r.settled.Some? && r.settled.value >= DayBefore(now))
  }

  /** The turn counts for provider `p`: its own column says so or, when that is
      empty, its agent's definition; a turn nobody names a provider for is Claude's. */
  predicate CountsFor(db: Db, k: Key, p: string)
    requires k in db.turns
  {
    if db.turns[k].provider != "" then p == db.turns[k].provider
    else if k.agent in db.agents && db.agents[k.agent].def.provider != "" then p == db.agents[k.agent].def.provider
    else p == "claude"
  }

  predicate Attempted(r: TurnRow) { r.state.Terminal() && r.elapsedState != NotAttempted }

  predicate Prices(registry: Registry, p: string) { p in registry && registry[p].reportsCost }

  /** Nobody can say what the turn cost: it ran and its cost was not reported, or
      only in part, or dates from before reports were told apart, or was not
      priced by a backend that prices its work. */
  predicate CostLost(db: Db, registry: Registry, k: Key)
    requires k in db.turns
  {
    var r := db.turns[k];
    && Attempted(r) && !(r.costState == CostReported && r.costComplete)
    && (r.costState == CostNotPriced ==> exists p | p in registry :: CountsFor(db, k, p) && Prices(registry, p))
  }

  /** Nobody can say how many tokens the turn used. */
  predicate UsageLost(r: TurnRow) {
    && Attempted(r) && !(r.usageState == UsageReported && r.usageComplete)
    && (r.usageState == UsageLegacy ==> AllZero(r.tokens))
  }

  /** A column that is counted holds a negative number. */
  predicate Corrupted(r: TurnRow) {
    || (r.state.Terminal() && r.costState in {CostReported, CostLegacy} && r.cost < 0)
    || (r.usageState in {UsageReported, UsageLegacy}
        && (r.tokens.input < 0 || r.tokens.output < 0 || r.tokens.cached < 0))
  }

  function TokenColumn(r: TurnRow, d: Direction): int {
    match d
    case In => r.tokens.input
    case Out => r.tokens.output
    case Cached => r.tokens.cached
  }

  /** What one turn adds to a provider's bucket. */
  function TokensOf(db: Db, k: Key, p: string, d: Direction): int
    requires k in db.turns
  {
    if CountsFor(db, k, p) && db.turns[k].usageState in {UsageReported, UsageLegacy}
    then TokenColumn(db.turns[k], d) else 0
  }

  ghost function DayKeys(db: Db, now: int): set<Key> { set k | k in db.turns && InTheDay(db.turns[k], now) }

  /** The tokens of a provider's turns in the day. */
  ghost function TokensOfTheDay(db: Db, p: string, d: Direction, now: int): int {
    Sum(map k | k in DayKeys(db, now) :: TokensOf(db, k, p, d))
  }

  ghost function TotalOfTheDay(db: Db, p: string, now: int): int {
    TokensOfTheDay(db, p, In, now) + TokensOfTheDay(db, p, Out, now)
  }

  ghost function LostCosts(db: Db, registry: Registry, now: int): set<Key> {
    set k | k in DayKeys(db, now) && CostLost(db, registry, k)
  }

  ghost function LostUsage(db: Db, p: string, now: int): set<Key> {
    set k | k in DayKeys(db, now) && CountsFor(db, k, p) && UsageLost(db.turns[k])
  }

  // ---- The query sees the day ----

  lemma WindowIsTheDay(db: Db, now: int, order: seq<Key>)
    requires RowsValid(db) && WindowOrder(db, now, order)
    ensures Enumerates(order, DayKeys(db, now)) && forall k | k in order :: k in db.turns
  {
    assert forall k | k in db.turns :: RowInv(db.turns[k]);
    assert WindowKeys(db, now - ROLLING_WINDOW_SECS) == DayKeys(db, now);
    assert forall k | k in order :: k in DayKeys(db, now);
  }

  lemma RowReadsTheTurn(db: Db, registry: Registry, k: Key, p: string, d: Direction)
    requires k in db.turns
    ensures var row := WindowRowOf(db, k);
            && (row.provider == p <==> CountsFor(db, k, p))
            && (CostGap(registry, row) <==> CostLost(db, registry, k))
            && (UsageGap(row) <==> UsageLost(db.turns[k]))
            && (Negative(row) <==> Corrupted(db.turns[k]))
            && Telemetry.Measured(row, p, d) == TokensOf(db, k, p, d)
  {
    assert CountsFor(db, k, WindowRowOf(db, k).provider);
  }

  lemma RowsOfTail(db: Db, order: seq<Key>)
    requires order != [] && forall k | k in order :: k in db.turns
    ensures WindowRows(db, order)[0] == WindowRowOf(db, order[0])
    ensures WindowRows(db, order)[1..] == WindowRows(db, order[1..])
  {
  }

  lemma {:induction false} SpendIsSum(db: Db, order: seq<Key>, costs: map<Key, int>)
    requires RowsValid(db) && forall k | k in order ::
               k in db.turns && k in costs && costs[k] == if db.turns[k].state.Terminal() then db.turns[k].cost else 0
    ensures ExactSpend(WindowRows(db, order)) == SumSeq(order, costs)
    decreases |order|
  {
    if order != [] {
      RowsOfTail(db, order);
      assert RowInv(db.turns[order[0]]);
      SpendIsSum(db, order[1..], costs);
    }
  }

  /** Admission adds up exactly what `spend_since` finds in the day. */
  lemma SpendIsTheDays(db: Db, now: int, order: seq<Key>)
    requires RowsValid(db) && WindowOrder(db, now, order)
    ensures forall k | k in order :: k in db.turns
    ensures ExactSpend(WindowRows(db, order)) == SpendSince(db, DayBefore(now))
  {
    WindowIsTheDay(db, now, order);
    var costs: map<Key, int> :=
      map k | k in DayKeys(db, now) :: if db.turns[k].state.Terminal() then db.turns[k].cost else 0;
    assert costs.Keys == DayKeys(db, now);
    assert forall k | k in order :: k in costs.Keys;
    SpendIsSum(db, order, costs);
    EnumerationSum(order, costs);
    var settled := SpendOf(db.turns, DayBefore(now));
    assert forall k | k in db.turns :: RowInv(db.turns[k]);
    SumPartition(costs, settled);
    SumOfZeros(costs - settled.Keys);
  }

  lemma {:induction false} TokensAreSum(
    db: Db, registry: Registry, order: seq<Key>, p: string, d: Direction, tokens: map<Key, int>)
    requires forall k | k in order :: k in db.turns && k in tokens && tokens[k] == TokensOf(db, k, p, d)
    ensures ExactTokens(WindowRows(db, order), p, d) == SumSeq(order, tokens)
    decreases |order|
  {
    if order != [] {
      RowsOfTail(db, order);
      RowReadsTheTurn(db, registry, order[0], p, d);
      TokensAreSum(db, registry, order[1..], p, d, tokens);
    }
  }

  /** And exactly the tokens of a provider's turns in it. */
  lemma TokensAreTheDays(db: Db, now: int, order: seq<Key>, p: string, d: Direction)
    requires RowsValid(db) && WindowOrder(db, now, order)
    ensures forall k | k in order :: k in db.turns
    ensures ExactTokens(WindowRows(db, order), p, d) == TokensOfTheDay(db, p, d, now)
  {
    WindowIsTheDay(db, now, order);
    var tokens := map k | k in DayKeys(db, now) :: TokensOf(db, k, p, d);
    assert tokens.Keys == DayKeys(db, now);
    assert forall k | k in order :: k in tokens.Keys;
    TokensAreSum(db, map[], order, p, d, tokens);
    EnumerationSum(order, tokens);
  }

  /** Counting rows is counting turns. */
  lemma {:induction false} CountIsSize(
    rows: seq<WindowRow>, kind: WindowRow -> bool, order: seq<Key>, keys: set<Key>, chosen: set<Key>)
    requires |rows| == |order| && Enumerates(order, keys) && chosen <= keys
    requires forall i | 0 <= i < |rows| :: kind(rows[i]) <==> order[i] in chosen
    ensures CountAll(rows, kind) == |chosen|
    decreases |rows|
  {
    EmptyEnumeration(order, keys);
    if order != [] {
      EnumeratesWithout(order, keys, 0);
      assert Without(order, 0) == order[1..];
      CountIsSize(rows[1..], kind, order[1..], keys - {order[0]}, chosen - {order[0]});
    }
  }

  lemma {:induction false} CountForOne(rows: seq<WindowRow>, p: string, kind: WindowRow -> bool, own: WindowRow -> bool)
    requires forall r :: own(r) <==> r.provider == p && kind(r)
    ensures CountRows(rows, p, kind) == CountAll(rows, own)
    decreases |rows|
  {
    if rows != [] {
      CountForOne(rows[1..], p, kind, own);
    }
  }

  lemma CostGapsAreTheDays(db: Db, registry: Registry, now: int, order: seq<Key>)
    requires Enumerates(order, DayKeys(db, now)) && forall k | k in order :: k in db.turns
    ensures CountAll(WindowRows(db, order), CostGapFor(registry)) == |LostCosts(db, registry, now)|
  {
    var rows := WindowRows(db, order);
    forall i | 0 <= i < |rows| ensures CostGapFor(registry)(rows[i]) <==> order[i] in LostCosts(db, registry, now) {
      RowReadsTheTurn(db, registry, order[i], "", In);
      assert order[i] in order;
    }
    CountIsSize(rows, CostGapFor(registry), order, DayKeys(db, now), LostCosts(db, registry, now));
  }

  lemma UsageGapsAreTheDays(db: Db, now: int, order: seq<Key>, p: string)
    requires Enumerates(order, DayKeys(db, now)) && forall k | k in order :: k in db.turns
    ensures CountRows(WindowRows(db, order), p, UsageGap) == |LostUsage(db, p, now)|
  {
    var rows, own := WindowRows(db, order), (r: WindowRow) => r.provider == p && UsageGap(r);
    forall i | 0 <= i < |rows| ensures own(rows[i]) <==> order[i] in LostUsage(db, p, now) {
      RowReadsTheTurn(db, map[], order[i], p, In);
      assert order[i] in order;
    }
    CountIsSize(rows, own, order, DayKeys(db, now), LostUsage(db, p, now));
    CountForOne(rows, p, UsageGap, own);
  }

  // ---- And the fold adds it up ----

  /** What the accounting of the window holds, provider by provider, in terms of
      the turns of the day. */
  ghost predicate Accounts(db: Db, registry: Registry, now: int, acc: Accounting) {
    && acc.spend == Min(SpendSince(db, DayBefore(now)), U64_MAX)
    && acc.CostGaps() == Min(|LostCosts(db, registry, now)|, U64_MAX)
    && (forall p :: AccountsFor(db, registry, now, p, EntryOf(acc, p)))
    && (forall p :: p in acc.providers <==>
          p in registry || Users(db, p) != {} || exists k | k in DayKeys(db, now) :: CountsFor(db, k, p))
  }

  /** The active agents of a provider. */
  function Users(db: Db, p: string): set<string> {
    set a | a in db.agents && !db.agents[a].retired && DefinedFor(db.agents[a].def, p)
  }

  predicate DefinedFor(def: AgentDef, p: string) { p == if def.provider == "" then "claude" else def.provider }

  ghost predicate AccountsFor(db: Db, registry: Registry, now: int, p: string, entry: ProviderAccounting) {
    && (entry.reportsCost <==> Prices(registry, p))
    && (entry.reportsTokenUsage <==> p in registry && registry[p].reportsTokenUsage)
    && entry.activeAgents == |Users(db, p)|
    && entry.tokensIn == Min(TokensOfTheDay(db, p, In, now), U64_MAX)
    && entry.tokensOut == Min(TokensOfTheDay(db, p, Out, now), U64_MAX)
    && entry.tokensCached == Min(TokensOfTheDay(db, p, Cached, now), U64_MAX)
    && entry.TotalTokens() == Min(TotalOfTheDay(db, p, now), U64_MAX)
    && entry.UsageGaps() == Min(|LostUsage(db, p, now)|, U64_MAX)
  }

  lemma UsersAreCounted(db: Db, registry: Registry, p: string)
    ensures var entry := EntryOf(InitialAccounting(db, registry), p);
            && entry.Uncounted() && entry.activeAgents == |Users(db, p)|
            && (entry.reportsCost <==> Prices(registry, p))
            && (entry.reportsTokenUsage <==> p in registry && registry[p].reportsTokenUsage)
    ensures p in InitialAccounting(db, registry).providers <==> p in registry || Users(db, p) != {}
  {
    assert (set a | a in db.agents && !db.agents[a].retired && DefProvider(db.agents[a].def) == p) == Users(db, p);
    if p !in registry && p !in ActiveProviders(db) {
      assert Users(db, p) == {};
    }
    if p in ActiveProviders(db) {
      var a :| a in db.agents && !db.agents[a].retired && DefProvider(db.agents[a].def) == p;
      assert a in Users(db, p);
    }
  }

  lemma BucketIsTheDays(
    db: Db, registry: Registry, now: int, order: seq<Key>, acc: Accounting, p: string, d: Direction)
    requires RowsValid(db) && WindowOrder(db, now, order) && forall k | k in order :: k in db.turns
    requires AccountRows(Some(InitialAccounting(db, registry)), WindowRows(db, order)) == Some(acc)
    ensures Bucket(EntryOf(acc, p), d) == Min(TokensOfTheDay(db, p, d, now), U64_MAX)
    ensures TokensOfTheDay(db, p, d, now) >= 0
  {
    UsersAreCounted(db, registry, p);
    TokensAreTheDays(db, now, order, p, d);
    BucketIsExactSaturated(InitialAccounting(db, registry), WindowRows(db, order), acc, p, d);
  }

  lemma TotalIsTheDays(db: Db, registry: Registry, now: int, order: seq<Key>, acc: Accounting, p: string)
    requires RowsValid(db) && WindowOrder(db, now, order) && forall k | k in order :: k in db.turns
    requires AccountRows(Some(InitialAccounting(db, registry)), WindowRows(db, order)) == Some(acc)
    ensures EntryOf(acc, p).tokensIn == Min(TokensOfTheDay(db, p, In, now), U64_MAX)
    ensures EntryOf(acc, p).tokensOut == Min(TokensOfTheDay(db, p, Out, now), U64_MAX)
    ensures EntryOf(acc, p).TotalTokens() == Min(TotalOfTheDay(db, p, now), U64_MAX)
  {
    BucketIsTheDays(db, registry, now, order, acc, p, In);
    BucketIsTheDays(db, registry, now, order, acc, p, Out);
    var entry := EntryOf(acc, p);
    SaturatedTotal(entry.tokensIn, entry.tokensOut, TokensOfTheDay(db, p, In, now), TokensOfTheDay(db, p, Out, now));
  }

  lemma EntryIsTheDays(db: Db, registry: Registry, now: int, order: seq<Key>, acc: Accounting, p: string)
    requires RowsValid(db) && WindowOrder(db, now, order) && forall k | k in order :: k in db.turns
    requires AccountRows(Some(InitialAccounting(db, registry)), WindowRows(db, order)) == Some(acc)
    ensures AccountsFor(db, registry, now, p, EntryOf(acc, p))
  {
    UsersAreCounted(db, registry, p);
    WindowIsTheDay(db, now, order);
    TotalIsTheDays(db, registry, now, order, acc, p);
    BucketIsTheDays(db, registry, now, order, acc, p, Cached);
    UsageGapsAreCounted(InitialAccounting(db, registry), WindowRows(db, order), acc, p);
    UsageGapsAreTheDays(db, now, order, p);
    CostCountersPartitionTheWindow(InitialAccounting(db, registry), WindowRows(db, order), acc, p);
  }

  lemma SeenIsTheDays(db: Db, now: int, order: seq<Key>, p: string)
    requires Enumerates(order, DayKeys(db, now)) && forall k | k in order :: k in db.turns
    ensures (exists r | r in WindowRows(db, order) :: r.provider == p) <==>
            exists k | k in DayKeys(db, now) :: CountsFor(db, k, p)
  {
    var rows := WindowRows(db, order);
    if k :| k in DayKeys(db, now) && CountsFor(db, k, p) {
      assert k in order;
      var i :| 0 <= i < |order| && order[i] == k;
      RowReadsTheTurn(db, map[], k, p, In);
      assert rows[i] in rows && rows[i].provider == p;
    }
    if r :| r in rows && r.provider == p {
      var i :| 0 <= i < |rows| && rows[i] == r;
      RowReadsTheTurn(db, map[], order[i], p, In);
      assert order[i] in order;
    }
  }

  lemma ProvidersAreTheDays(db: Db, registry: Registry, now: int, order: seq<Key>, acc: Accounting, p: string)
    requires RowsValid(db) && WindowOrder(db, now, order) && forall k | k in order :: k in db.turns
    requires AccountRows(Some(InitialAccounting(db, registry)), WindowRows(db, order)) == Some(acc)
    ensures p in acc.providers <==>
            p in registry || Users(db, p) != {} || exists k | k in DayKeys(db, now) :: CountsFor(db, k, p)
  {
    UsersAreCounted(db, registry, p);
    WindowIsTheDay(db, now, order);
    SeenIsTheDays(db, now, order, p);
    EveryProviderIsListed(InitialAccounting(db, registry), WindowRows(db, order), acc);
  }

  /** Whatever order the window comes back in, the accounting is that of the day's
      turns; it is refused exactly when a counted column of one is negative. */
  lemma AccountingIsTheDays(db: Db, registry: Registry, now: int, order: seq<Key>)
    requires RowsValid(db) && WindowOrder(db, now, order)
    ensures forall k | k in order :: k in db.turns
    ensures var acc := AccountRows(Some(InitialAccounting(db, registry)), WindowRows(db, order));
            if exists k | k in DayKeys(db, now) :: Corrupted(db.turns[k]) then acc == None
            else acc.Some? && Accounts(db, registry, now, acc.value)
  {
    WindowIsTheDay(db, now, order);
    var initial, rows := InitialAccounting(db, registry), WindowRows(db, order);
    RefusedIffUnsafe(initial, rows);
    forall i: nat | i < |order| ensures Negative(rows[i]) <==> Corrupted(db.turns[order[i]]) {
      RowReadsTheTurn(db, registry, order[i], "", In);
    }
    if k :| k in DayKeys(db, now) && Corrupted(db.turns[k]) {
      var i: nat :| i < |order| && order[i] == k;
      assert rows[i] in rows;
    } else {
      assert forall i: nat | i < |order| :: order[i] in order;
      var acc := AccountRows(Some(initial), rows).value;
      SpendIsTheDays(db, now, order);
      SpendIsExactSaturated(initial, rows, acc);
      GapsAreCounted(db, registry, rows, acc);
      CostGapsAreTheDays(db, registry, now, order);
      forall p ensures AccountsFor(db, registry, now, p, EntryOf(acc, p)) {
        EntryIsTheDays(db, registry, now, order, acc, p);
      }
      forall p
        ensures p in acc.providers <==>
                p in registry || Users(db, p) != {} || exists k | k in DayKeys(db, now) :: CountsFor(db, k, p)
      {
        ProvidersAreTheDays(db, registry, now, order, acc, p);
      }
    }
  }
}
