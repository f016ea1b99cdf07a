/** The fold that turns the rolling window's rows into admission telemetry. */
module Telemetry {
  import opened Types
  import opened Sums
  import opened Capability
  import opened Limits
  import opened Rows
  import opened Database

  /** The columns of a turn the window query returns. */
  datatype WindowRow = WindowRow(
    provider: string,
    state: TurnState,
    cost: i64,
    costState: CostState,
    costComplete: bool,
    tokens: Tokens,
    usageState: UsageState,
    usageComplete: bool,
    elapsedState: ElapsedState)

  predicate InWindow(r: TurnRow, since: int) {
    || (r.state.Terminal() && (if r.settled.Some? then r.settled.value >= since else r.atUnix >= since))
    || r.state == Running
  }

  function WindowKeys(db: Db, since: int): set<Key> {
    set k | k in db.turns && InWindow(db.turns[k], since)
  }

  function DefProvider(def: AgentDef): string {
    if def.provider != "" then def.provider else "claude"
  }

  function WindowRowOf(db: Db, k: Key): WindowRow
    requires k in db.turns
  {
    var r := db.turns[k];
    var provider :=
      if r.provider != "" then r.provider
      else if k.agent in db.agents then DefProvider(db.agents[k.agent].def)
      else "claude";
    WindowRow(provider, r.state, r.cost, r.costState, r.costComplete,
              r.tokens, r.usageState, r.usageComplete, r.elapsedState)
  }

  function WindowRows(db: Db, order: seq<Key>): seq<WindowRow>
    requires forall k | k in order :: k in db.turns
  {
    seq(|order|, i requires 0 <= i < |order| => WindowRowOf(db, order[i]))
  }

  predicate Attempted(r: WindowRow) { r.elapsedState != NotAttempted }

  predicate CostCounted(r: WindowRow) {
    r.state.Terminal() && (r.costState == CostReported || (r.costState == CostLegacy && r.cost != 0))
  }

  predicate HasTokens(r: WindowRow) {
    || r.usageState == UsageReported
    || (r.usageState == UsageLegacy && r.tokens != ZERO_TOKENS)
  }

  /** A negative amount in a counted column refuses the whole accounting. */
  predicate Unsafe(r: WindowRow) {
    || (CostCounted(r) && r.cost < 0)
    || (HasTokens(r) && (r.tokens.input < 0 || r.tokens.output < 0 || r.tokens.cached < 0))
  }

  /** The money a row adds to the window's reported spend. */
  function ReportedCost(r: WindowRow): int { if CostCounted(r) then r.cost else 0 }

  datatype CostClass = CostWhole | CostPartial | CostMissing | CostUnpriced | CostAmbiguous | CostIgnored

  /** Which cost counter a row belongs to. */
  function CostClassOf(r: WindowRow): CostClass {
    if !r.state.Terminal() || !Attempted(r) then CostIgnored
    else match r.costState
      case CostReported => if r.costComplete then CostWhole else CostPartial
      case CostUnreported => CostMissing
      case CostNotPriced => CostUnpriced
      case CostLegacy => CostAmbiguous
  }

  datatype UsageClass =
    | UsageWhole | UsagePartial | UsageMissing | UsageUntracked | UsageAmbiguous | UsageLive | UsageIgnored

  /** Which usage counter a row belongs to. */
  function UsageClassOf(r: WindowRow): UsageClass {
    var whole := r.usageState == UsageReported && r.usageComplete;
    if r.state == Running then
      if r.usageState == UsageReported && !r.usageComplete then UsageLive else UsageIgnored
    else if !r.state.Terminal() then UsageIgnored
    else if !Attempted(r) then if whole then UsageWhole else UsageIgnored
    else match r.usageState
      case UsageReported => if whole then UsageWhole else UsagePartial
      case UsageUnreported => UsageMissing
      case UsageNotTracked => UsageUntracked
      case UsageLegacy => if HasTokens(r) then UsageWhole else UsageAmbiguous
  }

  function One(b: bool): nat { if b then 1 else 0 }

  function CountedTokens(r: WindowRow): TokenUsage
    requires !Unsafe(r)
  {
    if HasTokens(r) then TokenUsage(r.tokens.input, r.tokens.output, r.tokens.cached) else NO_TOKENS
  }

  function AddCost(p: ProviderAccounting, c: CostClass): ProviderAccounting {
    p.(costComplete := p.costComplete + One(c == CostWhole),
       costIncomplete := p.costIncomplete + One(c == CostPartial),
       costUnreported := p.costUnreported + One(c == CostMissing),
       costNotPriced := p.costNotPriced + One(c == CostUnpriced),
       costLegacyUnknown := p.costLegacyUnknown + One(c == CostAmbiguous))
  }

  function AddTokens(p: ProviderAccounting, t: TokenUsage): ProviderAccounting {
    p.(tokensIn := SaturatingAdd(p.tokensIn, t.input),
       tokensOut := SaturatingAdd(p.tokensOut, t.output),
       tokensCached := SaturatingAdd(p.tokensCached, t.cached))
  }

  function AddUsage(p: ProviderAccounting, u: UsageClass): ProviderAccounting {
    p.(usageComplete := p.usageComplete + One(u == UsageWhole),
       usageIncomplete := p.usageIncomplete + One(u == UsagePartial),
       usageUnreported := p.usageUnreported + One(u == UsageMissing),
       usageNotTracked := p.usageNotTracked + One(u == UsageUntracked),
       usageLegacyUnknown := p.usageLegacyUnknown + One(u == UsageAmbiguous),
       runningPartial := p.runningPartial + One(u == UsageLive))
  }

  /** One row added to its provider's record: one cost class, the measured
      tokens and one usage class. */
  function Bump(p: ProviderAccounting, r: WindowRow): ProviderAccounting
    requires !Unsafe(r)
  {
    AddUsage(AddTokens(AddCost(p, CostClassOf(r)), CountedTokens(r)), UsageClassOf(r))
  }

  function EntryOf(acc: Accounting, key: string): ProviderAccounting {
    if key in acc.providers then acc.providers[key] else NO_TELEMETRY
  }

  /** The provider records after one safe row. */
  function Recorded(providers: map<string, ProviderAccounting>, r: WindowRow): map<string, ProviderAccounting>
    requires !Unsafe(r)
  {
    providers[r.provider := Bump(if r.provider in providers then providers[r.provider] else NO_TELEMETRY, r)]
  }

  function AccountRow(acc: Option<Accounting>, r: WindowRow): Option<Accounting> {
    if acc.None? || Unsafe(r) then None
    else Some(Accounting(
      SaturatingAdd(acc.value.spend, ReportedCost(r)),
      Recorded(acc.value.providers, r)))
  }

  function AccountRows(acc: Option<Accounting>, rows: seq<WindowRow>): Option<Accounting>
    decreases |rows|
  {
    if rows == [] then acc else AccountRows(AccountRow(acc, rows[0]), rows[1..])
  }

  function ActiveAgents(db: Db, key: string): nat {
    |set a | a in db.agents && !db.agents[a].retired && DefProvider(db.agents[a].def) == key|
  }

  function ActiveProviders(db: Db): set<string> {
    set a | a in db.agents && !db.agents[a].retired :: DefProvider(db.agents[a].def)
  }

  /** One entry per registered provider, then one per provider of an active agent. */
  function InitialAccounting(db: Db, registry: Registry): Accounting {
    Accounting(0, map key | key in registry.Keys + ActiveProviders(db) ::
                    NO_TELEMETRY.(
                      reportsCost := key in registry && registry[key].reportsCost,
                      reportsTokenUsage := key in registry && registry[key].reportsTokenUsage,
                      activeAgents := ActiveAgents(db, key)))
  }

  /** The branches `accounting_from_rows` takes for one row's cost. */
  method CountCostOf(before: ProviderAccounting, r: WindowRow) returns (p: ProviderAccounting)
    ensures p == AddCost(before, CostClassOf(r))
  {
    p := before;
    if r.state.Terminal() && r.elapsedState != NotAttempted {
      match r.costState {
        case CostReported =>
          if r.costComplete {
            p := p.(costComplete := p.costComplete + 1);
          } else {
            p := p.(costIncomplete := p.costIncomplete + 1);
          }
        case CostUnreported => p := p.(costUnreported := p.costUnreported + 1);
        case CostNotPriced => p := p.(costNotPriced := p.costNotPriced + 1);
        case CostLegacy => p := p.(costLegacyUnknown := p.costLegacyUnknown + 1);
      }
    }
  }

  /** The branches it takes for one row's usage state. */
  method CountUsageOf(before: ProviderAccounting, r: WindowRow) returns (p: ProviderAccounting)
    ensures p == AddUsage(before, UsageClassOf(r))
  {
    p := before;
    var terminal, attempted := r.state.Terminal(), r.elapsedState != NotAttempted;
    if r.state == Running {
      if r.usageState == UsageReported && !r.usageComplete {
        p := p.(runningPartial := p.runningPartial + 1);
      }
    } else if !terminal || !attempted {
      if terminal && r.usageState == UsageReported && r.usageComplete {
        p := p.(usageComplete := p.usageComplete + 1);
      }
    } else {
      match r.usageState {
        case UsageReported =>
          if r.usageComplete {
            p := p.(usageComplete := p.usageComplete + 1);
          } else {
            p := p.(usageIncomplete := p.usageIncomplete + 1);
          }
        case UsageUnreported => p := p.(usageUnreported := p.usageUnreported + 1);
        case UsageNotTracked => p := p.(usageNotTracked := p.usageNotTracked + 1);
        case UsageLegacy =>
          if r.tokens != ZERO_TOKENS {
            p := p.(usageComplete := p.usageComplete + 1);
          } else {
            p := p.(usageLegacyUnknown := p.usageLegacyUnknown + 1);
          }
      }
    }
  }

  method CountRow(before: ProviderAccounting, r: WindowRow) returns (p: ProviderAccounting)
    requires !Unsafe(r)
    ensures p == Bump(before, r)
  {
    p := CountCostOf(before, r);
    if HasTokens(r) {
      p := p.(tokensIn := SaturatingAdd(p.tokensIn, r.tokens.input),
              tokensOut := SaturatingAdd(p.tokensOut, r.tokens.output),
              tokensCached := SaturatingAdd(p.tokensCached, r.tokens.cached));
    }
    p := CountUsageOf(p, r);
  }

  /** `accounting_from_rows`: the loop bumps one provider's record per row. */
  method AccountingFromRows(initial: Accounting, rows: seq<WindowRow>) returns (result: Option<Accounting>)
    ensures result == AccountRows(Some(initial), rows)
  {
    var acc := initial;
    var i := 0;
    while i < |rows|
      invariant 0 <= i <= |rows|
      invariant AccountRows(Some(initial), rows) == AccountRows(Some(acc), rows[i..])
    {
      var r := rows[i];
      assert rows[i..][0] == r && rows[i..][1..] == rows[i + 1..];
      if Unsafe(r) {
        RefusalIsFinal(rows[i + 1..]);
        return None;
      }
      var spend := if CostCounted(r) then SaturatingAdd(acc.spend, r.cost) else acc.spend;
      var p := CountRow(if r.provider in acc.providers then acc.providers[r.provider] else NO_TELEMETRY, r);
      ghost var before := acc;
      acc := Accounting(spend, acc.providers[r.provider := p]);
      assert AccountRow(Some(before), r) == Some(acc);
      i := i + 1;
    }
    return Some(acc);
  }

  lemma {:induction false} RefusalIsFinal(rows: seq<WindowRow>)
    ensures AccountRows(None, rows) == None
  {
    if rows != [] {
      RefusalIsFinal(rows[1..]);
    }
  }

  // ---- The order SQLite returns the rows in does not matter ----

  lemma BumpsCommute(p: ProviderAccounting, r: WindowRow, s: WindowRow)
    requires !Unsafe(r) && !Unsafe(s)
    ensures Bump(Bump(p, r), s) == Bump(Bump(p, s), r)
  {
    var prs, psr := Bump(Bump(p, r), s), Bump(Bump(p, s), r);
    assert prs.tokensIn == psr.tokensIn && prs.tokensOut == psr.tokensOut && prs.tokensCached == psr.tokensCached;
  }

  lemma OverwriteTwice<V>(m: map<string, V>, k: string, v: V, w: V)
    ensures m[k := v][k := w] == m[k := w]
  {
  }

  lemma OverwriteBoth<V>(m: map<string, V>, k: string, v: V, l: string, w: V)
    requires k != l
    ensures m[k := v][l := w] == m[l := w][k := v]
  {
  }

  lemma RecordsCommute(m: map<string, ProviderAccounting>, r: WindowRow, s: WindowRow)
    requires !Unsafe(r) && !Unsafe(s)
    ensures Recorded(Recorded(m, r), s) == Recorded(Recorded(m, s), r)
  {
    var p := if r.provider in m then m[r.provider] else NO_TELEMETRY;
    if r.provider == s.provider {
      BumpsCommute(p, r, s);
      OverwriteTwice(m, r.provider, Bump(p, r), Bump(Bump(p, r), s));
      OverwriteTwice(m, r.provider, Bump(p, s), Bump(Bump(p, s), r));
    } else {
      var q := if s.provider in m then m[s.provider] else NO_TELEMETRY;
      OverwriteBoth(m, r.provider, Bump(p, r), s.provider, Bump(q, s));
    }
  }

  lemma RowsCommute(acc: Option<Accounting>, r: WindowRow, s: WindowRow)
    ensures AccountRow(AccountRow(acc, r), s) == AccountRow(AccountRow(acc, s), r)
  {
    if acc.Some? && !Unsafe(r) && !Unsafe(s) {
      RecordsCommute(acc.value.providers, r, s);
    }
  }

  lemma {:induction false} MoveToFront(acc: Option<Accounting>, rows: seq<WindowRow>, i: nat)
    requires i < |rows|
    ensures AccountRows(acc, rows) == AccountRows(AccountRow(acc, rows[i]), Without(rows, i))
    decreases i
  {
    if i == 0 {
      assert Without(rows, 0) == rows[1..];
    } else {
      MoveToFront(AccountRow(acc, rows[0]), rows[1..], i - 1);
      RowsCommute(acc, rows[0], rows[i]);
      assert Without(rows, i)[1..] == Without(rows[1..], i - 1);
    }
  }

  lemma MultisetWithout<T>(rows: seq<T>, i: nat)
    requires i < |rows|
    ensures multiset(rows) == multiset(Without(rows, i)) + multiset{rows[i]}
  {
    assert rows == rows[..i] + [rows[i]] + rows[i + 1..];
  }

  /** Any two orders of the same rows give the same accounting, and refuse the
      same ledgers. */
  lemma {:induction false} AccountingIgnoresOrder(acc: Option<Accounting>, rows: seq<WindowRow>, other: seq<WindowRow>)
    requires multiset(rows) == multiset(other)
    ensures AccountRows(acc, rows) == AccountRows(acc, other)
    decreases |rows|
  {
    assert |rows| == |multiset(rows)| == |multiset(other)| == |other|;
    if rows != [] {
      assert rows[0] in multiset(other);
      var i :| 0 <= i < |other| && other[i] == rows[0];
      MoveToFront(acc, other, i);
      MultisetWithout(rows, 0);
      MultisetWithout(other, i);
      assert Without(rows, 0) == rows[1..];
      assert multiset(rows[1..]) == multiset(rows) - multiset{rows[0]};
      assert multiset(Without(other, i)) == multiset(other) - multiset{rows[0]};
      AccountingIgnoresOrder(AccountRow(acc, rows[0]), rows[1..], Without(other, i));
    }
  }

  lemma RowsWithout(db: Db, order: seq<Key>, i: nat)
    requires forall k | k in order :: k in db.turns
    requires i < |order|
    ensures forall k | k in Without(order, i) :: k in db.turns
    ensures multiset(WindowRows(db, order)) ==
            multiset(WindowRows(db, Without(order, i))) + multiset{WindowRowOf(db, order[i])}
  {
    var rows := WindowRows(db, order);
    MultisetWithout(rows, i);
    assert Without(rows, i) == WindowRows(db, Without(order, i));
  }

  lemma {:induction false} SameWindowSameRows(db: Db, order: seq<Key>, other: seq<Key>, keys: set<Key>)
    requires Enumerates(order, keys) && Enumerates(other, keys) && keys <= db.turns.Keys
    ensures multiset(WindowRows(db, order)) == multiset(WindowRows(db, other))
    decreases |order|
  {
    EmptyEnumeration(order, keys);
    EmptyEnumeration(other, keys);
    if order != [] {
      assert order[0] in other;
      var i :| 0 <= i < |other| && other[i] == order[0];
      EnumeratesWithout(order, keys, 0);
      EnumeratesWithout(other, keys, i);
      RowsWithout(db, order, 0);
      RowsWithout(db, other, i);
      SameWindowSameRows(db, Without(order, 0), Without(other, i), keys - {order[0]});
    }
  }

  // ---- What the counters and totals mean ----

  /** The exact money in the window: what settled rows say they cost, whether
      they say so by a report or from before reports were told apart. */
  function ExactSpend(rows: seq<WindowRow>): int {
    if rows == [] then 0
    else
      (if rows[0].state.Terminal() && rows[0].costState in {CostReported, CostLegacy} then rows[0].cost else 0)
      + ExactSpend(rows[1..])
  }

  datatype Direction = In | Out | Cached

  function Measured(r: WindowRow, key: string, d: Direction): int {
    if r.provider != key || r.usageState !in {UsageReported, UsageLegacy} then 0
    else match d
      case In => r.tokens.input
      case Out => r.tokens.output
      case Cached => r.tokens.cached
  }

  /** The exact tokens a provider's measured rows report in one direction. */
  function ExactTokens(rows: seq<WindowRow>, key: string, d: Direction): int {
    if rows == [] then 0 else Measured(rows[0], key, d) + ExactTokens(rows[1..], key, d)
  }

  function CountCost(rows: seq<WindowRow>, key: string, c: CostClass): nat {
    if rows == [] then 0
    else One(rows[0].provider == key && CostClassOf(rows[0]) == c) + CountCost(rows[1..], key, c)
  }

  function CountUsage(rows: seq<WindowRow>, key: string, u: UsageClass): nat {
    if rows == [] then 0
    else One(rows[0].provider == key && UsageClassOf(rows[0]) == u) + CountUsage(rows[1..], key, u)
  }

  /** A settled row with a negative cost, or any row with a negative bucket, in
      columns whose provenance says that they hold a number. */
  predicate Negative(r: WindowRow) {
    || (r.state.Terminal() && r.costState in {CostReported, CostLegacy} && r.cost < 0)
    || (r.usageState in {UsageReported, UsageLegacy}
        && (r.tokens.input < 0 || r.tokens.output < 0 || r.tokens.cached < 0))
  }

  /** The accounting is refused exactly when such a column is negative. */
  lemma {:induction false} RefusedIffUnsafe(acc: Accounting, rows: seq<WindowRow>)
    ensures AccountRows(Some(acc), rows).Some? <==> forall r | r in rows :: !Negative(r)
    decreases |rows|
  {
    if rows != [] {
      assert rows == [rows[0]] + rows[1..];
      assert rows[0] in rows && (Negative(rows[0]) <==> Unsafe(rows[0]));
      if Unsafe(rows[0]) {
        RefusalIsFinal(rows[1..]);
      } else {
        RefusedIffUnsafe(AccountRow(Some(acc), rows[0]).value, rows[1..]);
      }
    }
  }

  lemma AcceptedRow(acc: Accounting, rows: seq<WindowRow>, result: Accounting)
    requires rows != [] && AccountRows(Some(acc), rows) == Some(result)
    ensures !Unsafe(rows[0])
    ensures AccountRows(AccountRow(Some(acc), rows[0]), rows[1..]) == Some(result)
  {
    if Unsafe(rows[0]) {
      RefusalIsFinal(rows[1..]);
    }
  }

  /** The reported spend is the exact spend, saturated. */
  lemma {:induction false} SpendIsExactSaturated(acc: Accounting, rows: seq<WindowRow>, result: Accounting)
    requires AccountRows(Some(acc), rows) == Some(result)
    ensures result.spend == Min(acc.spend + ExactSpend(rows), U64_MAX)
    ensures ExactSpend(rows) >= 0
    decreases |rows|
  {
    if rows != [] {
      AcceptedRow(acc, rows, result);
      SpendIsExactSaturated(AccountRow(Some(acc), rows[0]).value, rows[1..], result);
    }
  }

  /** Every cost counter is the number of that provider's rows in its class;
      classes are disjoint, so the counters partition the attempted terminal rows. */
  lemma {:induction false} CostCountersPartitionTheWindow(
    acc: Accounting, rows: seq<WindowRow>, result: Accounting, key: string)
    requires AccountRows(Some(acc), rows) == Some(result)
    ensures var p, q := EntryOf(acc, key), EntryOf(result, key);
            && q.costComplete == p.costComplete + CountCost(rows, key, CostWhole)
            && q.costIncomplete == p.costIncomplete + CountCost(rows, key, CostPartial)
            && q.costUnreported == p.costUnreported + CountCost(rows, key, CostMissing)
            && q.costNotPriced == p.costNotPriced + CountCost(rows, key, CostUnpriced)
            && q.costLegacyUnknown == p.costLegacyUnknown + CountCost(rows, key, CostAmbiguous)
            && q.reportsCost == p.reportsCost && q.reportsTokenUsage == p.reportsTokenUsage
            && q.activeAgents == p.activeAgents
    decreases |rows|
  {
    if rows != [] {
      AcceptedRow(acc, rows, result);
      CostCountersPartitionTheWindow(AccountRow(Some(acc), rows[0]).value, rows[1..], result, key);
    }
  }

  /** The same for the usage counters. */
  lemma {:induction false} UsageCountersPartitionTheWindow(
    acc: Accounting, rows: seq<WindowRow>, result: Accounting, key: string)
    requires AccountRows(Some(acc), rows) == Some(result)
    ensures var p, q := EntryOf(acc, key), EntryOf(result, key);
            && q.usageComplete == p.usageComplete + CountUsage(rows, key, UsageWhole)
            && q.usageIncomplete == p.usageIncomplete + CountUsage(rows, key, UsagePartial)
            && q.usageUnreported == p.usageUnreported + CountUsage(rows, key, UsageMissing)
            && q.usageNotTracked == p.usageNotTracked + CountUsage(rows, key, UsageUntracked)
            && q.usageLegacyUnknown == p.usageLegacyUnknown + CountUsage(rows, key, UsageAmbiguous)
            && q.runningPartial == p.runningPartial + CountUsage(rows, key, UsageLive)
    decreases |rows|
  {
    if rows != [] {
      AcceptedRow(acc, rows, result);
      UsageCountersPartitionTheWindow(AccountRow(Some(acc), rows[0]).value, rows[1..], result, key);
    }
  }

  /** The rows of one provider that satisfy `kind`. */
  function CountRows(rows: seq<WindowRow>, key: string, kind: WindowRow -> bool): nat {
    if rows == [] then 0 else One(rows[0].provider == key && kind(rows[0])) + CountRows(rows[1..], key, kind)
  }

  lemma {:induction false} SameCostCount(rows: seq<WindowRow>, key: string, c: CostClass, kind: WindowRow -> bool)
    requires forall r :: kind(r) <==> CostClassOf(r) == c
    ensures CountCost(rows, key, c) == CountRows(rows, key, kind)
    decreases |rows|
  {
    if rows != [] {
      SameCostCount(rows[1..], key, c, kind);
    }
  }

  lemma {:induction false} SameUsageCount(rows: seq<WindowRow>, key: string, u: UsageClass, kind: WindowRow -> bool)
    requires forall r :: kind(r) <==> UsageClassOf(r) == u
    ensures CountUsage(rows, key, u) == CountRows(rows, key, kind)
    decreases |rows|
  {
    if rows != [] {
      SameUsageCount(rows[1..], key, u, kind);
    }
  }

  predicate PricedAs(r: WindowRow, state: CostState) {
    r.state.Terminal() && r.elapsedState != NotAttempted && r.costState == state
  }

  predicate PricedWhole(r: WindowRow) { PricedAs(r, CostReported) && r.costComplete }
  predicate PricedInPart(r: WindowRow) { PricedAs(r, CostReported) && !r.costComplete }
  predicate PriceMissing(r: WindowRow) { PricedAs(r, CostUnreported) }
  predicate Unpriced(r: WindowRow) { PricedAs(r, CostNotPriced) }
  predicate PricedBefore(r: WindowRow) { PricedAs(r, CostLegacy) }

  /** Every cost counter in terms of the columns: the terminal rows a provider was
      asked to run, by cost state, reported ones split by completeness. */
  lemma CostCountersReadTheColumns(acc: Accounting, rows: seq<WindowRow>, result: Accounting, key: string)
    requires AccountRows(Some(acc), rows) == Some(result) && EntryOf(acc, key).Uncounted()
    ensures var q := EntryOf(result, key);
            && q.costComplete == CountRows(rows, key, PricedWhole)
            && q.costIncomplete == CountRows(rows, key, PricedInPart)
            && q.costUnreported == CountRows(rows, key, PriceMissing)
            && q.costNotPriced == CountRows(rows, key, Unpriced)
            && q.costLegacyUnknown == CountRows(rows, key, PricedBefore)
  {
    CostCountersPartitionTheWindow(acc, rows, result, key);
    SameCostCount(rows, key, CostWhole, PricedWhole);
    SameCostCount(rows, key, CostPartial, PricedInPart);
    SameCostCount(rows, key, CostMissing, PriceMissing);
    SameCostCount(rows, key, CostUnpriced, Unpriced);
    SameCostCount(rows, key, CostAmbiguous, PricedBefore);
  }

  predicate TrackedAs(r: WindowRow, state: UsageState) {
    r.state.Terminal() && r.elapsedState != NotAttempted && r.usageState == state
  }

  predicate AllZero(t: Tokens) { t.input == 0 && t.output == 0 && t.cached == 0 }

  /** Terminal rows whose tokens are known in full: a complete report, of a turn
      that was attempted or not, or a number from before usage was told apart. */
  predicate UsedWhole(r: WindowRow) {
    || (r.state.Terminal() && r.usageState == UsageReported && r.usageComplete)
    || (TrackedAs(r, UsageLegacy) && !AllZero(r.tokens))
  }

  predicate UsedInPart(r: WindowRow) { TrackedAs(r, UsageReported) && !r.usageComplete }
  predicate UseMissing(r: WindowRow) { TrackedAs(r, UsageUnreported) }
  predicate Untracked(r: WindowRow) { TrackedAs(r, UsageNotTracked) }
  predicate UsedBefore(r: WindowRow) { TrackedAs(r, UsageLegacy) && AllZero(r.tokens) }
  predicate UsedSoFar(r: WindowRow) { r.state == Running && r.usageState == UsageReported && !r.usageComplete }

  /** Every usage counter in terms of the columns. */
  lemma UsageCountersReadTheColumns(acc: Accounting, rows: seq<WindowRow>, result: Accounting, key: string)
    requires AccountRows(Some(acc), rows) == Some(result) && EntryOf(acc, key).Uncounted()
    ensures var q := EntryOf(result, key);
            && q.usageComplete == CountRows(rows, key, UsedWhole)
            && q.usageIncomplete == CountRows(rows, key, UsedInPart)
            && q.usageUnreported == CountRows(rows, key, UseMissing)
            && q.usageNotTracked == CountRows(rows, key, Untracked)
            && q.usageLegacyUnknown == CountRows(rows, key, UsedBefore)
            && q.runningPartial == CountRows(rows, key, UsedSoFar)
  {
    UsageCountersPartitionTheWindow(acc, rows, result, key);
    SameUsageCount(rows, key, UsageWhole, UsedWhole);
    SameUsageCount(rows, key, UsagePartial, UsedInPart);
    SameUsageCount(rows, key, UsageMissing, UseMissing);
    SameUsageCount(rows, key, UsageUntracked, Untracked);
    SameUsageCount(rows, key, UsageAmbiguous, UsedBefore);
    SameUsageCount(rows, key, UsageLive, UsedSoFar);
  }

  function Bucket(p: ProviderAccounting, d: Direction): u64 {
    match d
    case In => p.tokensIn
    case Out => p.tokensOut
    case Cached => p.tokensCached
  }

  lemma BucketStep(acc: Accounting, r: WindowRow, key: string, d: Direction)
    requires !Unsafe(r)
    ensures Bucket(EntryOf(AccountRow(Some(acc), r).value, key), d) ==
            Min(Bucket(EntryOf(acc, key), d) + Measured(r, key, d), U64_MAX)
    ensures Measured(r, key, d) >= 0
  {
  }

  lemma {:induction false} BucketIsExactSaturated(
    acc: Accounting, rows: seq<WindowRow>, result: Accounting, key: string, d: Direction)
    requires AccountRows(Some(acc), rows) == Some(result)
    ensures Bucket(EntryOf(result, key), d) == Min(Bucket(EntryOf(acc, key), d) + ExactTokens(rows, key, d), U64_MAX)
    ensures ExactTokens(rows, key, d) >= 0
    decreases |rows|
  {
    if rows != [] {
      AcceptedRow(acc, rows, result);
      BucketStep(acc, rows[0], key, d);
      BucketIsExactSaturated(AccountRow(Some(acc), rows[0]).value, rows[1..], result, key, d);
    }
  }

  function ExactTotalTokens(rows: seq<WindowRow>, key: string): int {
    ExactTokens(rows, key, In) + ExactTokens(rows, key, Out)
  }

  lemma SaturatedTotal(a: u64, b: u64, x: int, y: int)
    requires x >= 0 && y >= 0 && a == Min(x, U64_MAX) && b == Min(y, U64_MAX)
    ensures SaturatingAdd(a, b) == Min(x + y, U64_MAX)
  {
  }

  /** A provider's token total is the exact total of its measured rows, saturated. */
  lemma TokensAreExactSaturated(acc: Accounting, rows: seq<WindowRow>, result: Accounting, key: string)
    requires AccountRows(Some(acc), rows) == Some(result)
    requires EntryOf(acc, key).tokensIn == EntryOf(acc, key).tokensOut == 0
    ensures EntryOf(result, key).TotalTokens() == Min(ExactTotalTokens(rows, key), U64_MAX)
  {
    var tin, tout := ExactTokens(rows, key, In), ExactTokens(rows, key, Out);
    var p := EntryOf(result, key);
    BucketIsExactSaturated(acc, rows, result, key, In);
    BucketIsExactSaturated(acc, rows, result, key, Out);
    SaturatedTotal(p.tokensIn, p.tokensOut, tin, tout);
    assert SaturatingAdd(p.tokensIn, p.tokensOut) == Min(tin + tout, U64_MAX);
    assert ExactTotalTokens(rows, key) == tin + tout;
  }

  function ExactReports(reports: seq<u64>): int {
    if reports == [] then 0 else reports[0] + ExactReports(reports[1..])
  }

  /** `rows` is what the ledger holds of `reports` once each is clamped to i64. */
  predicate ClampedInto(reports: seq<u64>, rows: seq<WindowRow>) {
    |reports| == |rows| && forall i | 0 <= i < |rows| :: ReportedCost(rows[i]) == SaturatedI64(reports[i])
  }

  lemma {:induction false} ClampedSpendReaches(reports: seq<u64>, rows: seq<WindowRow>, stop: int)
    requires ClampedInto(reports, rows) && stop <= I64_MAX
    ensures 0 <= ExactSpend(rows) <= ExactReports(reports)
    ensures ExactReports(reports) >= stop ==> ExactSpend(rows) >= stop
    decreases |rows|
  {
    if rows != [] {
      assert ClampedInto(reports[1..], rows[1..]);
      ClampedSpendReaches(reports[1..], rows[1..], Min(stop, stop - reports[0]));
    }
  }

  /** Clamping each report to the ledger's integer and saturating the total
      moves no stop: the breaker trips on the ledger's figures exactly when the
      unbounded sum of the providers' reports has reached it. */
  lemma SaturationIsHarmless(
    acc: Accounting, reports: seq<u64>, rows: seq<WindowRow>, result: Accounting, stop: u64)
    requires acc.spend == 0 && AccountRows(Some(acc), rows) == Some(result)
    requires ClampedInto(reports, rows) && stop <= I64_MAX
    ensures Reached(Some(stop), result.spend) <==> ExactReports(reports) >= stop
  {
    SpendIsExactSaturated(acc, rows, result);
    ClampedSpendReaches(reports, rows, stop);
  }

  /** Each measured row holds its report, every bucket clamped to i64. */
  predicate ClampedTokens(reports: seq<TokenUsage>, rows: seq<WindowRow>) {
    |reports| == |rows| && forall i | 0 <= i < |rows| && HasTokens(rows[i]) :: rows[i].tokens == Clamped(reports[i])
  }

  /** The unbounded input and output tokens one provider reported. */
  function ReportedTokens(reports: seq<TokenUsage>, rows: seq<WindowRow>, key: string): int
    requires |reports| == |rows|
    decreases |rows|
  {
    if rows == [] then 0
    else
      (if rows[0].provider == key && HasTokens(rows[0]) then reports[0].input + reports[0].output else 0)
      + ReportedTokens(reports[1..], rows[1..], key)
  }

  lemma {:induction false} ClampedTokensReach(reports: seq<TokenUsage>, rows: seq<WindowRow>, key: string, stop: int)
    requires ClampedTokens(reports, rows) && stop <= I64_MAX
    ensures 0 <= ExactTotalTokens(rows, key) <= ReportedTokens(reports, rows, key)
    ensures ReportedTokens(reports, rows, key) >= stop ==> ExactTotalTokens(rows, key) >= stop
    decreases |rows|
  {
    if rows != [] {
      var first := if rows[0].provider == key && HasTokens(rows[0]) then reports[0].input + reports[0].output else 0;
      assert ClampedTokens(reports[1..], rows[1..]);
      ClampedTokensReach(reports[1..], rows[1..], key, Min(stop, stop - first));
    }
  }

  /** The same for a token stop: with every bucket of every report clamped, the
      two totals saturated and their sum saturated again, a provider's tokens
      reach the stop exactly when the unbounded sum of its reports does. */
  lemma TokenStopIsHarmless(
    acc: Accounting, reports: seq<TokenUsage>, rows: seq<WindowRow>, result: Accounting, key: string, stop: u64)
    requires EntryOf(acc, key).tokensIn == EntryOf(acc, key).tokensOut == 0
    requires AccountRows(Some(acc), rows) == Some(result)
    requires ClampedTokens(reports, rows) && stop <= I64_MAX
    ensures Reached(Some(stop), EntryOf(result, key).TotalTokens()) <==> ReportedTokens(reports, rows, key) >= stop
  {
    TokensAreExactSaturated(acc, rows, result, key);
    ClampedTokensReach(reports, rows, key, stop);
  }

  /** The window leaves a gap in the USD breaker: an attempted terminal turn
      whose cost is partial, missing or ambiguous, or unpriced on a backend
      that normally prices its work. */
  predicate CostGap(registry: Registry, r: WindowRow) {
    && r.state.Terminal() && r.elapsedState != NotAttempted
    && match r.costState
       case CostReported => !r.costComplete
       case CostUnreported => true
       case CostNotPriced => r.provider in registry && registry[r.provider].reportsCost
       case CostLegacy => true
  }

  /** The row leaves a gap in its provider's token breaker: an attempted terminal
      turn whose usage is partial, missing, not tracked, or a zero from before
      usage was told apart. */
  predicate UsageGap(r: WindowRow) {
    && r.state.Terminal() && r.elapsedState != NotAttempted
    && match r.usageState
       case UsageReported => !r.usageComplete
       case UsageUnreported => true
       case UsageNotTracked => true
       case UsageLegacy => AllZero(r.tokens)
  }

  lemma UsageGapClasses(r: WindowRow)
    ensures UsageGap(r) <==> UsageClassOf(r) in {UsagePartial, UsageMissing, UsageUntracked, UsageAmbiguous}
  {
  }

  lemma {:induction false} UsageGapCount(rows: seq<WindowRow>, key: string)
    ensures CountRows(rows, key, UsageGap) ==
            CountUsage(rows, key, UsagePartial) + CountUsage(rows, key, UsageMissing)
            + CountUsage(rows, key, UsageUntracked) + CountUsage(rows, key, UsageAmbiguous)
    decreases |rows|
  {
    if rows != [] {
      UsageGapClasses(rows[0]);
      UsageGapCount(rows[1..], key);
    }
  }

  /** A provider's usage-gap count is the number of its rows that leave their
      tokens unknown, saturated. */
  lemma UsageGapsAreCounted(acc: Accounting, rows: seq<WindowRow>, result: Accounting, key: string)
    requires AccountRows(Some(acc), rows) == Some(result) && EntryOf(acc, key).Uncounted()
    ensures EntryOf(result, key).UsageGaps() == Min(CountRows(rows, key, UsageGap), U64_MAX)
  {
    UsageCountersPartitionTheWindow(acc, rows, result, key);
    UsageGapCount(rows, key);
  }

  function CostGapFor(registry: Registry): WindowRow -> bool { (r: WindowRow) => CostGap(registry, r) }

  lemma CostGapClasses(registry: Registry, r: WindowRow)
    ensures CostGap(registry, r) <==>
            || CostClassOf(r) in {CostPartial, CostMissing, CostAmbiguous}
            || (CostClassOf(r) == CostUnpriced && r.provider in registry && registry[r.provider].reportsCost)
  {
  }

  lemma {:induction false} CostGapCount(rows: seq<WindowRow>, registry: Registry, key: string)
    ensures CountRows(rows, key, CostGapFor(registry)) ==
            CountCost(rows, key, CostPartial) + CountCost(rows, key, CostMissing) + CountCost(rows, key, CostAmbiguous)
            + if key in registry && registry[key].reportsCost then CountCost(rows, key, CostUnpriced) else 0
    decreases |rows|
  {
    if rows != [] {
      CostGapClasses(registry, rows[0]);
      CostGapCount(rows[1..], registry, key);
    }
  }

  /** The same for its cost gaps. */
  lemma ProviderGapsAreCounted(
    acc: Accounting, rows: seq<WindowRow>, result: Accounting, registry: Registry, key: string)
    requires AccountRows(Some(acc), rows) == Some(result) && EntryOf(acc, key).Uncounted()
    requires EntryOf(acc, key).reportsCost <==> key in registry && registry[key].reportsCost
    ensures EntryOf(result, key).CostGaps() == Min(CountRows(rows, key, CostGapFor(registry)), U64_MAX)
  {
    CostCountersPartitionTheWindow(acc, rows, result, key);
    CostGapCount(rows, registry, key);
  }

  /** The rows of all providers that satisfy `kind`. */
  function CountAll(rows: seq<WindowRow>, kind: WindowRow -> bool): nat {
    if rows == [] then 0 else One(kind(rows[0])) + CountAll(rows[1..], kind)
  }

  lemma {:induction false} CountedMeansPresent(rows: seq<WindowRow>, kind: WindowRow -> bool)
    ensures CountAll(rows, kind) > 0 <==> exists r :: r in rows && kind(r)
    decreases |rows|
  {
    if rows != [] {
      assert rows == [rows[0]] + rows[1..];
      assert rows[0] in rows;
      CountedMeansPresent(rows[1..], kind);
    }
  }

  ghost function CountsBy(rows: seq<WindowRow>, keys: set<string>, kind: WindowRow -> bool): map<string, int> {
    map key | key in keys :: CountRows(rows, key, kind)
  }

  lemma {:induction false} CountsAddUp(rows: seq<WindowRow>, keys: set<string>, kind: WindowRow -> bool)
    requires forall r | r in rows :: r.provider in keys
    ensures Sum(CountsBy(rows, keys, kind)) == CountAll(rows, kind)
    decreases |rows|
  {
    if rows == [] {
      SumOfZeros(CountsBy(rows, keys, kind));
    } else {
      assert rows == [rows[0]] + rows[1..];
      var rest := CountsBy(rows[1..], keys, kind);
      CountsAddUp(rows[1..], keys, kind);
      SumUpdate(rest, rows[0].provider, One(kind(rows[0])) + rest[rows[0].provider]);
      assert CountsBy(rows, keys, kind) ==
             rest[rows[0].provider := One(kind(rows[0])) + rest[rows[0].provider]];
    }
  }

  lemma {:induction false} EveryProviderIsListed(acc: Accounting, rows: seq<WindowRow>, result: Accounting)
    requires AccountRows(Some(acc), rows) == Some(result)
    ensures acc.providers.Keys <= result.providers.Keys
    ensures forall r | r in rows :: r.provider in result.providers
    ensures forall p | p in result.providers && p !in acc.providers :: exists r :: r in rows && r.provider == p
    decreases |rows|
  {
    if rows != [] {
      AcceptedRow(acc, rows, result);
      assert rows == [rows[0]] + rows[1..];
      EveryProviderIsListed(AccountRow(Some(acc), rows[0]).value, rows[1..], result);
    }
  }

  /** The global gap count is the number of rows, of any provider, that leave
      their cost unknown, saturated: per provider and once more over all. */
  lemma GapsAreCounted(db: Db, registry: Registry, rows: seq<WindowRow>, result: Accounting)
    requires AccountRows(Some(InitialAccounting(db, registry)), rows) == Some(result)
    ensures result.CostGaps() == Min(CountAll(rows, CostGapFor(registry)), U64_MAX)
  {
    var initial := InitialAccounting(db, registry);
    var exact := CountsBy(rows, result.providers.Keys, CostGapFor(registry));
    EveryProviderIsListed(initial, rows, result);
    CountsAddUp(rows, result.providers.Keys, CostGapFor(registry));
    forall p | p in exact ensures exact[p] >= 0 && GapsOf(result.providers)[p] == Min(exact[p], U64_MAX) {
      ProviderGapsAreCounted(initial, rows, result, registry, p);
    }
    ClampingParts(exact, GapsOf(result.providers), U64_MAX);
  }

  /** Fail-closed: the global gap count is positive exactly when some row of the
      window, of any provider, leaves its cost unknown. */
  lemma GapsAreSeen(db: Db, registry: Registry, rows: seq<WindowRow>, result: Accounting)
    requires AccountRows(Some(InitialAccounting(db, registry)), rows) == Some(result)
    ensures result.CostGaps() > 0 <==> exists r :: r in rows && CostGap(registry, r)
  {
    GapsAreCounted(db, registry, rows, result);
    CountedMeansPresent(rows, CostGapFor(registry));
  }
}
