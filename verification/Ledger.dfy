/** The ledger as the server holds it: two tables changed in place, each method
    one SQL statement or transaction, proved against the table functions every
    interleaving is made of. */
module Store {
  import opened Types
  import opened Sums
  import opened Capability
  import opened Limits
  import opened Rows
  import opened Database
  import opened Telemetry
  import opened Admission
  import opened Money
  import opened Verdict

  /** How far the walk up `spawned_by` goes before it gives up on a cycle. */
  const DEPTH_BOUND: nat := 64

  class Ledger {
    const providers: Registry
    const runtime: Runtime
    var agents: map<string, AgentRow>
    var turns: map<Key, TurnRow>

    function Tables(): Db reads this { Db(agents, turns) }

    ghost predicate Valid() reads this { DbInv(Tables()) }

    /** A new ledger is empty. */
    constructor (providers: Registry, runtime: Runtime)
      ensures Valid() && agents == map[] && turns == map[]
      ensures this.providers == providers && this.runtime == runtime
    {
      this.providers, this.runtime := providers, runtime;
      agents, turns := map[], map[];
    }

    // ---- Claim and settlement ----

    /** Only the caller that finds the row queued gets to run it. */
    method ClaimTurn(k: Key, nowMs: int) returns (won: bool)
      requires Valid()
      modifies this`turns
      ensures Valid() && DbEvolves(old(Tables()), Tables())
      ensures won == InState(old(Tables()), k, Queued)
      ensures Tables() == Database.ClaimTurn(old(Tables()), k, nowMs)
    {
      ClaimKeeps(Tables(), k, nowMs);
      won := k in turns && turns[k].state == Queued;
      if won {
        turns := turns[k := turns[k].(state := Running, claimedMs := Some(nowMs), claimVersion := 1)];
      }
    }

    method UnavailableTelemetry(a: string) returns (cost: CostState, usage: UsageState)
      ensures cost == UnavailableCost(Tables(), providers, a) && usage == UnavailableUsage(Tables(), providers, a)
    {
      cost, usage := CostUnreported, UsageUnreported;
      if a in agents && agents[a].def.provider in providers {
        var caps := providers[agents[a].def.provider];
        if !caps.reportsCost { cost := CostNotPriced; }
        if !caps.reportsTokenUsage { usage := UsageNotTracked; }
      }
    }

    /** The CASE of every column, from whatever the row holds when the update lands. */
    static method InterruptedRow(
      r: TurnRow, target: TurnState, error: string, cost: CostState, usage: UsageState, nowMs: int, timing: Timing)
      returns (row: TurnRow)
      ensures row == InterruptRow(r, target, error, cost, usage, nowMs, timing)
    {
      var queued := r.state == Queued;
      var streamed := !queued && r.usageState == UsageReported;
      var ran := if r.state == Running && r.claimedMs.Some? then Max(nowMs - r.claimedMs.value, 0) else 0;
      var elapsed :=
        if queued then NotAttempted
        else if timing == Recovery && r.claimedMs.Some? then UpperBound
        else if timing == Recovery || r.claimedMs.None? then ElapsedUnknown
        else Measured;
      row := r.(
        state := target, error := Some(error), cost := 0,
        costState := if queued then CostReported else cost, costComplete := queued,
        tokens := if streamed then r.tokens else Tokens(0, 0, 0),
        usageState := if queued || streamed then UsageReported else usage,
        usageComplete := queued, providerTurns := if queued then Some(0) else None,
        failureKind := if queued then FailureNotAttempted else ReportedFailureKind,
        elapsedState := elapsed, elapsedMs := Max(r.elapsedMs, ran), settled := Some(nowMs / 1000));
      ghost var spec := InterruptRow(r, target, error, cost, usage, nowMs, timing);
      assert row.elapsedState == spec.elapsedState && row.elapsedMs == spec.elapsedMs;
      assert row.tokens == spec.tokens && row.usageState == spec.usageState;
    }

    /** One statement serves kills and recovery; the timing says which rows it hits. */
    method SettleInterruption(k: Key, target: TurnState, error: string, nowMs: int, timing: Timing)
      returns (settled: bool)
      requires Valid() && target.Terminal()
      modifies this`turns
      ensures Valid() && DbEvolves(old(Tables()), Tables())
      ensures settled == Interruptible(old(Tables()), k, timing)
      ensures Tables() == Interrupt(old(Tables()), providers, k, target, error, nowMs, timing)
    {
      InterruptKeeps(Tables(), providers, k, target, error, nowMs, timing);
      var cost, usage := UnavailableTelemetry(k.agent);
      settled := k in turns && turns[k].state.InFlight() && (timing == Live || turns[k].state == Running);
      if settled {
        var row := InterruptedRow(turns[k], target, error, cost, usage, nowMs, timing);
        turns := turns[k := row];
      }
    }

    method InterruptTurn(k: Key, target: TurnState, error: string, nowMs: int) returns (settled: bool)
      requires Valid() && target.Terminal()
      modifies this`turns
      ensures Valid() && DbEvolves(old(Tables()), Tables())
      ensures settled == InFlight(old(Tables()), k)
      ensures Tables() == Interrupt(old(Tables()), providers, k, target, error, nowMs, Live)
    {
      settled := SettleInterruption(k, target, error, nowMs, Live);
    }

    method RecoverTurn(k: Key, error: string, nowMs: int) returns (settled: bool)
      requires Valid()
      modifies this`turns
      ensures Valid() && DbEvolves(old(Tables()), Tables())
      ensures settled == InState(old(Tables()), k, Running)
      ensures Tables() == Interrupt(old(Tables()), providers, k, Failed, error, nowMs, Recovery)
    {
      settled := SettleInterruption(k, Failed, error, nowMs, Recovery);
    }

    method AbortClaimedTurn(k: Key, error: string, nowSec: int) returns (settled: bool)
      requires Valid()
      modifies this`turns
      ensures Valid() && DbEvolves(old(Tables()), Tables())
      ensures settled == InState(old(Tables()), k, Running)
      ensures Tables() == AbortTurn(old(Tables()), k, error, nowSec)
    {
      AbortKeeps(Tables(), k, error, nowSec);
      settled := k in turns && turns[k].state == Running;
      if settled {
        turns := turns[k := turns[k].(
          state := Failed, error := Some(error),
          cost := 0, costState := CostReported, costComplete := true,
          tokens := Tokens(0, 0, 0), usageState := UsageReported, usageComplete := true, providerTurns := Some(0),
          elapsedMs := 0, elapsedState := NotAttempted, failureKind := FailureNotAttempted, settled := Some(nowSec))];
      }
    }

    /** A settled turn's effect on its agent: adopt a session, bank the cost with
        saturation, stamp where the session began. */
    method RollUpSettledTurn(k: Key, session: Option<string>, cost: i64)
      requires cost >= 0 && CostsNonNegative(Tables())
      modifies this`agents
      ensures Tables() == RollUpAgent(old(Tables()), k, session, cost)
    {
      if k.agent in agents {
        var a := agents[k.agent];
        var started := a.startedSeq;
        if session.Some? && (a.session.None? || a.session.value != session.value || a.startedSeq == 0) {
          started := k.seqNo;
        }
        agents := agents[k.agent := a.(
          session := if session.Some? then session else a.session,
          cost := if a.cost > I64_MAX - cost then I64_MAX else a.cost + cost,
          startedSeq := started)];
      }
    }

    /** The telemetry columns a finished exchange writes over a row. */
    method WriteTelemetry(r: TurnRow, ex: Exchange) returns (row: TurnRow)
      ensures row == TelemetryOf(r, ex)
    {
      var reported := UsageStateOf(ex.usage) == UsageReported;
      var replace := reported || r.usageState != UsageReported;
      var tokens := ex.usage.TokensOrZero();
      row := r.(
        cost := SaturatedI64(ex.cost.MicroUsdOrZero()),
        costState := CostStateOf(ex.cost),
        costComplete := CostStateOf(ex.cost) == CostReported && ex.costComplete,
        elapsedMs := SaturatedI64(ex.elapsedMs), elapsedState := Measured,
        tokens := Tokens(if replace then SaturatedI64(tokens.input) else r.tokens.input,
                         if replace then SaturatedI64(tokens.output) else r.tokens.output,
                         if replace then SaturatedI64(tokens.cached) else r.tokens.cached),
        usageState := if replace then UsageStateOf(ex.usage) else r.usageState,
        usageComplete := reported && ex.usageComplete,
        providerTurns := ex.providerTurns,
        providerSession := if ex.session.Some? then ex.session else r.providerSession);
    }

    /** The agent is billed when, and only when, the row was still running. */
    method CompleteTurn(k: Key, ex: Exchange, nowSec: int) returns (recorded: bool)
      requires Valid()
      modifies this
      ensures Valid() && DbEvolves(old(Tables()), Tables())
      ensures recorded == InState(old(Tables()), k, Running)
      ensures CostsNonNegative(old(Tables()))
      ensures Tables() == Database.CompleteTurn(old(Tables()), k, ex, nowSec)
    {
      CompleteKeeps(Tables(), k, ex, nowSec);
      recorded := k in turns && turns[k].state == Running;
      if recorded {
        var row := WriteTelemetry(turns[k], ex);
        turns := turns[k := row.(
          state := Ok, reply := Some(ex.reply), failureKind := NoFailure, settled := Some(nowSec))];
        RollUpSettledTurn(k, ex.session, SaturatedI64(ex.cost.MicroUsdOrZero()));
      }
    }

    method FailExchange(k: Key, target: TurnState, error: string, ex: Exchange, nowSec: int) returns (recorded: bool)
      requires Valid() && target.Terminal()
      modifies this
      ensures Valid() && DbEvolves(old(Tables()), Tables())
      ensures recorded == InFlight(old(Tables()), k)
      ensures CostsNonNegative(old(Tables()))
      ensures Tables() == Database.FailExchange(old(Tables()), k, target, error, ex, nowSec)
    {
      FailKeeps(Tables(), k, target, error, ex, nowSec);
      recorded := k in turns && turns[k].state.InFlight();
      if recorded {
        var row := WriteTelemetry(turns[k], ex);
        row := row.(state := target, error := Some(error),
                    reply := if ex.reply == "" then turns[k].reply else Some(ex.reply),
                    failureKind := FailureKindOf(ex.failureKind), settled := Some(nowSec));
        row := AfterStateUpdate(row);
        turns := turns[k := row];
        var cost := SaturatedI64(ex.cost.MicroUsdOrZero());
        if cost > 0 || ex.session.Some? {
          RollUpSettledTurn(k, ex.session, cost);
        }
      }
    }

    /** The provenance trigger, fired by every update of a state. */
    method AfterStateUpdate(r: TurnRow) returns (row: TurnRow)
      ensures row == OldTerminalProvenance(r)
    {
      row := r;
      if (r.state == Failed || r.state == Killed) && r.failureKind == NoFailure && r.claimVersion == 0 {
        row := r.(failureKind := FailureLegacy);
      }
    }

    // ---- Usage and sessions ----

    method RecordUsageSnapshot(k: Key, u: TokenUsage) returns (written: bool)
      requires Valid()
      modifies this`turns
      ensures Valid() && DbEvolves(old(Tables()), Tables())
      ensures written == (k in old(turns) && AcceptsSnapshot(old(turns)[k]))
      ensures Tables() == RecordUsage(old(Tables()), k, u)
    {
      RecordUsageKeeps(Tables(), k, u);
      written := k in turns
        && (turns[k].state == Running || (turns[k].state == Killed && turns[k].claimedMs.Some?));
      if written {
        turns := turns[k := turns[k].(
          tokens := Tokens(SaturatedI64(u.input), SaturatedI64(u.output), SaturatedI64(u.cached)),
          usageState := UsageReported, usageComplete := false)];
      }
    }

    method RecordProviderSession(k: Key, id: string)
      requires Valid()
      modifies this
      ensures Valid() && DbEvolves(old(Tables()), Tables())
      ensures Tables() == Database.RecordProviderSession(old(Tables()), k, id)
    {
      RecordSessionKeeps(Tables(), k, id);
      if k.agent in agents {
        var a := agents[k.agent];
        var started :=
          if a.session.None? || a.session.value != id || a.startedSeq == 0 then k.seqNo else a.startedSeq;
        agents := agents[k.agent := a.(session := Some(id), startedSeq := started)];
      }
      if k in turns {
        turns := turns[k := turns[k].(providerSession := Some(id))];
      }
    }

    method AssignSession(a: string, id: string)
      requires Valid()
      modifies this`agents
      ensures Valid() && DbEvolves(old(Tables()), Tables())
      ensures Tables() == Assign(old(Tables()), a, id)
    {
      AssignKeeps(Tables(), a, id);
      if a in agents {
        agents := agents[a := agents[a].(session := Some(id), startedSeq := 0)];
      }
    }

    // ---- Agents ----

    /** `SELECT`: the rows of a key set, in an order the database chooses. */
    static method Select<K(!new, ==)>(keys: set<K>) returns (order: seq<K>)
      ensures Enumerates(order, keys)
    {
      order := [];
      var todo := keys;
      while todo != {}
        invariant todo <= keys
        invariant Enumerates(order, keys - todo)
        decreases todo
      {
        var k :| k in todo;
        todo := todo - {k};
        order := order + [k];
      }
      assert keys - todo == keys;
    }

    method HasTurnInFlight(a: string) returns (busy: bool)
      ensures busy == HasInFlight(Tables(), a)
    {
      var own := set k | k in turns && k.agent == a && turns[k].state.InFlight();
      busy := own != {};
      if busy {
        var k :| k in own;
        assert InFlight(Tables(), k);
      } else {
        assert forall k | k in turns && k.agent == a && InFlight(Tables(), k) :: k in own;
      }
    }

    /** A new agent is stored with this server's defaults and an unopened session. */
    method CreateAgent(a: string, request: DefRequest, session: string, spawnedBy: Option<string>)
      requires Valid() && a !in agents
      modifies this`agents
      ensures Valid() && DbEvolves(old(Tables()), Tables())
      ensures Tables() == Database.CreateAgent(old(Tables()), a, NormalizedDef(runtime, request), session, spawnedBy)
    {
      CreateKeeps(Tables(), a, NormalizedDef(runtime, request), session, spawnedBy);
      agents := agents[a := AgentRow(NormalizedDef(runtime, request), Some(session), 0, 0, false, spawnedBy)];
    }

    /** A definition may change, but once a turn is recorded not its backend. */
    method UpdateAgentDef(a: string, request: DefRequest) returns (written: bool)
      requires Valid()
      modifies this`agents
      ensures Valid() && DbEvolves(old(Tables()), Tables())
      ensures written == MayRedefine(old(Tables()), a, NormalizedDef(runtime, request))
      ensures Tables() ==
              if written then UpdateDef(old(Tables()), a, NormalizedDef(runtime, request)) else old(Tables())
    {
      var def := NormalizedDef(runtime, request);
      UpdateDefKeeps(Tables(), a, def);
      if a in agents && agents[a].def.provider != def.provider {
        var recorded := set k | k in turns && k.agent == a;
        if recorded != {} {
          var k :| k in recorded;
          return false;
        }
        assert forall k | k in turns && k.agent == a :: k in recorded;
      }
      if a in agents {
        agents := agents[a := agents[a].(def := def)];
      }
      return true;
    }

    /** The condition is part of the update: active, and nothing in flight. */
    method RetireAgent(a: string) returns (retired: bool)
      requires Valid()
      modifies this`agents
      ensures Valid() && DbEvolves(old(Tables()), Tables())
      ensures retired == Retirable(old(Tables()), a)
      ensures Tables() == Retire(old(Tables()), a)
    {
      RetireKeeps(Tables(), a);
      var busy := HasTurnInFlight(a);
      retired := a in agents && !agents[a].retired && !busy;
      if retired {
        agents := agents[a := agents[a].(retired := true)];
      }
    }

    /** The ancestor `n` spawns up, if the chain is that long. */
    ghost function Ancestor(a: string, n: nat): Option<string>
      reads this
    {
      if n == 0 then Some(a)
      else
        var below := Ancestor(a, n - 1);
        if below.Some? && below.value in agents then agents[below.value].spawnedBy else None
    }

    /** The walk stops at a root, or at the bound. */
    method SpawnDepth(a: string) returns (depth: nat)
      ensures depth <= DEPTH_BOUND
      ensures forall n: nat | n <= depth :: Ancestor(a, n).Some?
      ensures depth < DEPTH_BOUND ==> Ancestor(a, depth + 1).None?
    {
      depth := 0;
      var current := a;
      for i := 0 to DEPTH_BOUND
        invariant depth == i && Ancestor(a, depth) == Some(current)
        invariant forall n: nat | n <= depth :: Ancestor(a, n).Some?
      {
        if current !in agents || agents[current].spawnedBy.None? {
          return depth;
        }
        depth := depth + 1;
        current := agents[current].spawnedBy.value;
      }
    }

    // ---- Money ----

    /** A fold of `saturating_add` that refuses a negative amount. */
    static method SaturatingFold<K(!new)>(order: seq<K>, amounts: map<K, int>) returns (total: Option<i64>)
      requires forall k | k in order :: k in amounts && -I64_MAX - 1 <= amounts[k] <= I64_MAX
      ensures total.None? <==> exists k :: k in order && amounts[k] < 0
      ensures total.Some? ==> total.value == Min(SumSeq(order, amounts), I64_MAX) && total.value >= 0
    {
      var sum: i64 := 0;
      ghost var seen: seq<K> := [];
      assert order[..0] == [];
      for i := 0 to |order|
        invariant seen == order[..i] && (forall k | k in seen :: k in amounts && amounts[k] >= 0)
        invariant sum == Min(SumSeq(seen, amounts), I64_MAX) && sum >= 0
        invariant SumSeq(seen, amounts) >= 0
      {
        assert order[i] in order;
        if amounts[order[i]] < 0 {
          return None;
        }
        assert forall k | k in seen + [order[i]] :: k in amounts;
        SumSeqAppend(seen, order[i], amounts);
        sum := if sum > I64_MAX - amounts[order[i]] then I64_MAX else sum + amounts[order[i]];
        seen := seen + [order[i]];
        assert order[..i + 1] == seen;
      }
      assert order[..|order|] == order;
      return Some(sum);
    }

    /** `spend_since`: the settled rows since a cutoff, folded. */
    method SpendSince(since: int) returns (total: Option<i64>)
      requires Valid()
      ensures total == Some(Min(Money.SpendSince(Tables(), since), I64_MAX))
    {
      ColumnsAreSafe(Tables(), since);
      var keys := set k | k in turns && SpentSince(turns[k], since);
      var amounts := map k | k in keys :: turns[k].cost as int;
      assert amounts == SpendOf(turns, since);
      var order := Select(keys);
      assert amounts.Keys == keys;
      assert forall k | k in order :: k in amounts.Keys;
      total := SaturatingFold(order, amounts);
      EnumerationSum(order, amounts);
    }

    /** `totals`: every agent ever, retired included, and the number of turns. */
    method Totals() returns (cost: Option<i64>, count: nat)
      requires Valid()
      ensures cost == Some(Min(Sum(AgentCosts(Tables())), I64_MAX)) && count == |turns|
    {
      ColumnsAreSafe(Tables(), 0);
      var amounts := map a | a in agents :: agents[a].cost as int;
      assert amounts == AgentCosts(Tables());
      var order := Select(agents.Keys);
      assert amounts.Keys == agents.Keys;
      assert forall a | a in order :: a in amounts.Keys;
      cost := SaturatingFold(order, amounts);
      EnumerationSum(order, amounts);
      count := |turns|;
    }

    // ---- Admission ----

    /** Build the report's records: every registered backend, then every other
        backend an active agent names. */
    method LoadAccounting() returns (acc: Accounting)
      ensures acc == InitialAccounting(Tables(), providers)
    {
      var records: map<string, ProviderAccounting> := map[];
      var todo := providers.Keys;
      while todo != {}
        invariant todo <= providers.Keys
        invariant records.Keys == providers.Keys - todo
        invariant forall key | key in records :: records[key] == InitialAccounting(Tables(), providers).providers[key]
        decreases todo
      {
        var key :| key in todo;
        records := records[key := NO_TELEMETRY.(
          reportsCost := providers[key].reportsCost, reportsTokenUsage := providers[key].reportsTokenUsage,
          activeAgents := ActiveAgents(Tables(), key))];
        todo := todo - {key};
      }
      var named := ActiveProviders(Tables());
      todo := named - providers.Keys;
      while todo != {}
        invariant todo <= named - providers.Keys
        invariant records.Keys == (providers.Keys + named) - todo
        invariant forall key | key in records :: records[key] == InitialAccounting(Tables(), providers).providers[key]
        decreases todo
      {
        var key :| key in todo;
        records := records[key := NO_TELEMETRY.(activeAgents := ActiveAgents(Tables(), key))];
        todo := todo - {key};
      }
      acc := Accounting(0, records);
      assert acc.providers == InitialAccounting(Tables(), providers).providers;
    }

    /** `admission_report_at`, with the order in which the window came back. */
    method AdmissionReportAt(limits: Limits, checkedUnix: int) returns (report: Option<Report>, ghost order: seq<Key>)
      ensures WindowOrder(Tables(), checkedUnix, order)
      ensures report == ReportAt(Tables(), providers, limits, order)
      ensures Valid() && limits.Validated() && !Illegible(Tables(), checkedUnix) ==>
                report.Some? && ReportTells(report.value, Tables(), providers, limits, checkedUnix)
    {
      var keys := WindowKeys(Tables(), checkedUnix - ROLLING_WINDOW_SECS);
      var selected := Select(keys);
      order := selected;
      assert forall k | k in selected :: k in keys;
      if Valid() && limits.Validated() {
        ReportIsTheDays(Tables(), providers, limits, checkedUnix, order);
      }
      var initial := LoadAccounting();
      var acc := AccountingFromRows(initial, WindowRows(Tables(), selected));
      if acc.None? {
        return None, order;
      }
      var gaps := CountCostGaps(acc.value);
      var resolved := ResolveTurnProtection(providers, EvaluateWith(limits, acc.value, gaps));
      return Some(resolved), order;
    }

    /** `COALESCE(MAX(seq), 0)`. */
    method HighestSeq(a: string) returns (highest: nat)
      ensures IsMaxSeq(turns, a, highest)
    {
      highest := 0;
      var todo := set k | k in turns && k.agent == a;
      while todo != {}
        invariant forall k | k in todo :: k in turns && k.agent == a
        invariant highest == 0 || Key(a, highest) in turns
        invariant forall k | k in turns && k.agent == a && k !in todo :: k.seqNo <= highest
        decreases todo
      {
        var k :| k in todo;
        if k.seqNo > highest {
          highest := k.seqNo;
          assert k == Key(a, highest);
        }
        todo := todo - {k};
      }
    }

    /** The decision and, on admission, the insert. */
    method AdmitTurn(limits: Limits, authority: Authority, a: string, prompt: string, source: string, checkedUnix: int)
      returns (decision: Decision, seqNo: nat, ghost order: seq<Key>)
      requires Valid()
      modifies this`turns
      ensures Valid() && DbEvolves(old(Tables()), Tables())
      ensures WindowOrder(old(Tables()), checkedUnix, order)
      ensures decision == Decide(old(Tables()), providers, limits, authority, a, prompt, source, checkedUnix, order)
      ensures Tables() == Admit(old(Tables()), providers, limits, authority, a, prompt, source, checkedUnix, order)
      ensures decision.Admitted? ==> Insertable(old(Tables()), a) && NextKey(old(Tables()), a) == Key(a, seqNo)
      ensures limits.Validated() ==>
                Decides(decision, old(Tables()), providers, limits, authority, a, prompt, source, checkedUnix)
    {
      seqNo := 0;
      var report;
      report, order := AdmissionReportAt(limits, checkedUnix);
      decision := DecideTurn(limits, authority, a, prompt, source, checkedUnix, report, order);
      if limits.Validated() {
        DecisionIsTheVerdict(Tables(), providers, limits, authority, a, prompt, source, checkedUnix, order);
      }
      if decision.Admitted? {
        AdmissionFreezesPolicy(Tables(), providers, limits, authority, a, prompt, source, checkedUnix, order, decision);
        seqNo := InsertTurn(a, decision.row);
      }
    }

    /** The guarded INSERT, for an agent the transaction found active and idle. */
    method InsertTurn(a: string, row: TurnRow) returns (seqNo: nat)
      requires Valid() && Insertable(Tables(), a) && RowInv(row) && row.state == Queued
      modifies this`turns
      ensures Valid() && DbEvolves(old(Tables()), Tables())
      ensures Tables() == GuardedInsert(old(Tables()), a, row) && NextKey(old(Tables()), a) == Key(a, seqNo)
    {
      InsertKeeps(Tables(), a, row);
      var highest := HighestSeq(a);
      seqNo := highest + 1;
      OneMaximum(turns, a, highest);
      turns := turns[Key(a, seqNo) := row];
    }

    /** The refusals in the order the transaction meets them. */
    method DecideTurn(
      limits: Limits, authority: Authority, a: string, prompt: string, source: string, checkedUnix: int,
      report: Option<Report>, ghost order: seq<Key>) returns (decision: Decision)
      requires WindowOrder(Tables(), checkedUnix, order)
      requires report == ReportAt(Tables(), providers, limits, order)
      ensures decision == Decide(Tables(), providers, limits, authority, a, prompt, source, checkedUnix, order)
    {
      if a !in agents { return Refused(NoAgent); }
      if agents[a].retired { return Refused(AgentRetired); }
      var busy := HasTurnInFlight(a);
      if busy { return Refused(Busy); }
      var provider := agents[a].def.provider;
      if provider !in providers { return Refused(UnknownProvider); }
      if report.None? { return Refused(UnsafeLedger); }
      if provider !in report.value.providers { return Refused(MissingStatus); }
      var global, status := report.value.global, report.value.providers[provider];
      if global.stopMicroUsd.Some? && global.spend >= global.stopMicroUsd.value {
        return Refused(OverBudget(global.spend, global.stopMicroUsd.value));
      }
      if status.stopTokens.Some? && status.accounting.TotalTokens() >= status.stopTokens.value {
        return Refused(OverTokens(status.accounting.TotalTokens(), status.stopTokens.value));
      }
      var protection := ProtectionFor(provider, limits.Provider(provider).ceiling, CeilingOf(providers, provider),
                                      authority, source, checkedUnix);
      if protection.Refuse? { return Refused(protection.why); }
      var audit := OverrideFor(provider, status, global, authority, source, checkedUnix);
      if audit.Refuse? { return Refused(audit.why); }
      return Admitted(QueuedRow(prompt, provider, checkedUnix, audit.value, protection.value));
    }
  }

  lemma OneMaximum(turns: map<Key, TurnRow>, a: string, m: nat)
    requires IsMaxSeq(turns, a, m) && forall k | k in turns :: k.seqNo >= 1
    ensures MaxSeq(turns, a) == m
  {
    var n := MaxSeq(turns, a);
    assert m > 0 ==> Key(a, m).seqNo <= n;
    assert n > 0 ==> Key(a, n).seqNo <= m;
  }
}
