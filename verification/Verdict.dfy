/** What admission decides, told from the turns of the rolling day, the configured
    limits and the linked backends alone. */
module Verdict {
  import opened Types
  import opened Sums
  import opened Capability
  import opened Limits
  import opened Rows
  import opened Database
  import opened Telemetry
  import opened Admission
  import opened Money
  import opened Window

  predicate AtLeast(threshold: Option<u64>, value: int) { threshold.Some? && value >= threshold.value }

  /** What is configured for one provider; nothing when it is not listed. */
  function Configured(limits: Limits, p: string): ProviderLimits {
    if p in limits.providers then limits.providers[p] else ProviderLimits(None, None, None)
  }

  predicate TokenStop(limits: Limits, p: string) { Configured(limits, p).stopTokens.Some? }

  /** The day's spend, or the provider's tokens, have reached their stop. */
  ghost predicate SpentUp(db: Db, limits: Limits, now: int) {
    AtLeast(limits.stopMicroUsd, SpendSince(db, DayBefore(now)))
  }

  ghost predicate UsedUp(db: Db, limits: Limits, p: string, now: int) {
    AtLeast(Configured(limits, p).stopTokens, TotalOfTheDay(db, p, now))
  }

  /** A stop is configured and a turn of the day leaves it unknown whether it has
      been reached: any turn for the USD stop, the provider's own for its tokens. */
  ghost predicate Blind(db: Db, registry: Registry, limits: Limits, p: string, now: int) {
    || (limits.stopMicroUsd.Some? && LostCosts(db, registry, now) != {})
    || (TokenStop(limits, p) && LostUsage(db, p, now) != {})
  }

  /** Neither money nor tokens bound what the provider's turns use. */
  predicate Unmetered(registry: Registry, limits: Limits, p: string) { !Prices(registry, p) && !TokenStop(limits, p) }

  /** A ceiling is configured that the linked backend cannot enforce. */
  predicate Uncappable(registry: Registry, limits: Limits, p: string) {
    Configured(limits, p).ceiling.Some? && !(p in registry && registry[p].turnCeiling.Some?)
  }

  ghost predicate Nearing(db: Db, limits: Limits, p: string, now: int) {
    || AtLeast(limits.warnMicroUsd, SpendSince(db, DayBefore(now)))
    || AtLeast(Configured(limits, p).warnTokens, TotalOfTheDay(db, p, now))
  }

  /** A counted column of the day holds a negative number. */
  ghost predicate Illegible(db: Db, now: int) { exists k | k in DayKeys(db, now) :: Corrupted(db.turns[k]) }

  // ---- The report ----

  /** The first of the four grounds that holds decides a provider's state, and
      the explanation comes with it. */
  predicate Judged(
    status: ProviderStatus, stopped: bool, blind: bool, unmetered: bool, nearing: bool, uncappable: bool)
  {
    && (status.state == Stopped <==> stopped)
    && (status.state == Unobservable <==> blind && !stopped)
    && (status.state == Unguarded <==> unmetered && !stopped && !blind)
    && (status.state == Warning <==> nearing && !stopped && !blind && !unmetered)
    && (status.automaticAllowed <==> !stopped && !blind && !unmetered && !uncappable)
    && (status.detail == Some(StopReached) <==> stopped)
    && (status.detail == Some(TelemetryIncomplete) <==> blind && !stopped)
    && (status.detail == Some(NoTokenStop) <==> unmetered && !stopped && !blind)
    && (status.detail == Some(CannotEnforce) <==> uncappable && !stopped && !blind && !unmetered)
  }

  /** What a provider's status says of the day. */
  ghost predicate TellsTheDay(
    status: ProviderStatus, db: Db, registry: Registry, limits: Limits, p: string, now: int)
  {
    && Judged(status, SpentUp(db, limits, now) || UsedUp(db, limits, p, now), Blind(db, registry, limits, p, now),
              Unmetered(registry, limits, p), Nearing(db, limits, p, now), Uncappable(registry, limits, p))
    && (status.protection == UnavailableStatus <==> Uncappable(registry, limits, p))
    && (status.protection == UnboundedStatus <==> Configured(limits, p).ceiling.None?)
    && status.capability == (if p in registry then registry[p].turnCeiling else None)
    && AccountsFor(db, registry, now, p, status.accounting)
    && Configured(limits, p) == ProviderLimits(status.warnTokens, status.stopTokens, status.ceiling)
  }

  /** What the report says of all of them together. */
  ghost predicate TellsTheTotal(global: GlobalStatus, db: Db, registry: Registry, limits: Limits, now: int) {
    var spend, lost := SpendSince(db, DayBefore(now)), LostCosts(db, registry, now);
    && global.spend == Min(spend, U64_MAX) && global.costGaps == Min(|lost|, U64_MAX)
    && global.stopMicroUsd == limits.stopMicroUsd && global.warnMicroUsd == limits.warnMicroUsd
    && (global.state == Stopped <==> SpentUp(db, limits, now))
    && (global.state == Unobservable <==> limits.stopMicroUsd.Some? && lost != {} && !SpentUp(db, limits, now))
    && (global.state == Warning <==>
          AtLeast(limits.warnMicroUsd, spend) && !SpentUp(db, limits, now)
          && (limits.stopMicroUsd.Some? ==> lost == {}))
    && global.state != Unguarded
  }

  lemma ClampMovesNoThreshold(threshold: Option<u64>, value: int)
    requires Threshold(threshold)
    ensures AtLeast(threshold, value) <==> AtLeast(threshold, Min(value, U64_MAX))
  {
  }

  lemma ConfiguredIsValid(limits: Limits, p: string)
    requires limits.Validated()
    ensures Configured(limits, p) == limits.Provider(p)
    ensures Threshold(limits.Provider(p).warnTokens) && Threshold(limits.Provider(p).stopTokens)
    ensures Threshold(limits.stopMicroUsd) && Threshold(limits.warnMicroUsd)
  {
  }

  lemma EvaluationJudges(
    limits: Limits, p: string, spend: u64, gaps: int, entry: ProviderAccounting, capability: Option<CeilingCapability>)
    ensures var l := limits.Provider(p);
            Judged(ResolveStatus(EvaluateProvider(limits, p, spend, gaps, entry), capability),
                   AtLeast(limits.stopMicroUsd, spend) || AtLeast(l.stopTokens, entry.TotalTokens()),
                   (limits.stopMicroUsd.Some? && gaps > 0) || (l.stopTokens.Some? && entry.UsageGaps() > 0),
                   !entry.reportsCost && l.stopTokens.None?,
                   AtLeast(limits.warnMicroUsd, spend) || AtLeast(l.warnTokens, entry.TotalTokens()),
                   l.ceiling.Some? && capability.None?)
  {
  }

  lemma SomeAreLost<T>(lost: set<T>)
    ensures Min(|lost|, U64_MAX) > 0 <==> lost != {}
  {
  }

  lemma StatusTellsTheDay(db: Db, registry: Registry, limits: Limits, now: int, acc: Accounting, p: string)
    requires limits.Validated() && Accounts(db, registry, now, acc)
    ensures TellsTheDay(StatusFrom(limits, registry, p, acc), db, registry, limits, p, now)
  {
    var l, entry := limits.Provider(p), EntryOf(acc, p);
    var spend, total := SpendSince(db, DayBefore(now)), TotalOfTheDay(db, p, now);
    ConfiguredIsValid(limits, p);
    assert AccountsFor(db, registry, now, p, entry);
    ClampMovesNoThreshold(limits.stopMicroUsd, spend);
    ClampMovesNoThreshold(limits.warnMicroUsd, spend);
    ClampMovesNoThreshold(l.stopTokens, total);
    ClampMovesNoThreshold(l.warnTokens, total);
    SomeAreLost(LostCosts(db, registry, now));
    SomeAreLost(LostUsage(db, p, now));
    EvaluationJudges(limits, p, acc.spend, acc.CostGaps(), entry, CeilingOf(registry, p));
    StatusKeeps(limits, registry, p, acc);
  }

  /** Evaluation and resolution copy what was measured and configured. */
  lemma StatusKeeps(limits: Limits, registry: Registry, p: string, acc: Accounting)
    ensures var status, l := StatusFrom(limits, registry, p, acc), limits.Provider(p);
            && status.accounting == EntryOf(acc, p) && status.capability == CeilingOf(registry, p)
            && l == ProviderLimits(status.warnTokens, status.stopTokens, status.ceiling)
            && (status.protection == UnavailableStatus <==> l.ceiling.Some? && CeilingOf(registry, p).None?)
            && (status.protection == UnboundedStatus <==> l.ceiling.None?)
  {
  }

  ghost predicate ReportTells(report: Report, db: Db, registry: Registry, limits: Limits, now: int) {
    && TellsTheTotal(report.global, db, registry, limits, now)
    && (forall p :: p in report.providers <==>
          p in registry || Users(db, p) != {} || exists k | k in DayKeys(db, now) :: CountsFor(db, k, p))
    && (forall p | p in report.providers :: TellsTheDay(report.providers[p], db, registry, limits, p, now))
  }

  lemma TotalIsTold(db: Db, registry: Registry, limits: Limits, now: int, acc: Accounting)
    requires limits.Validated() && Accounts(db, registry, now, acc)
    ensures TellsTheTotal(Evaluate(limits, acc).global, db, registry, limits, now)
  {
    var spend := SpendSince(db, DayBefore(now));
    ClampMovesNoThreshold(limits.stopMicroUsd, spend);
    ClampMovesNoThreshold(limits.warnMicroUsd, spend);
    SomeAreLost(LostCosts(db, registry, now));
  }

  /** The report, whatever order the window came back in, tells the day: every
      state, warning, gap count and permission in it follows from the turns, the
      limits and the linked backends; it fails only on a ledger it cannot read. */
  lemma ReportIsTheDays(db: Db, registry: Registry, limits: Limits, now: int, order: seq<Key>)
    requires RowsValid(db) && limits.Validated() && WindowOrder(db, now, order)
    ensures forall k | k in order :: k in db.turns
    ensures var report := ReportAt(db, registry, limits, order);
            if Illegible(db, now) then report == None
            else report.Some? && ReportTells(report.value, db, registry, limits, now)
  {
    AccountingIsTheDays(db, registry, now, order);
    if !Illegible(db, now) {
      var acc := AccountRows(Some(InitialAccounting(db, registry)), WindowRows(db, order)).value;
      TotalIsTold(db, registry, limits, now, acc);
      forall p | p in acc.providers
        ensures TellsTheDay(ReportAt(db, registry, limits, order).value.providers[p], db, registry, limits, p, now)
      {
        StatusTellsTheDay(db, registry, limits, now, acc, p);
      }
    }
  }

  // ---- The decision ----

  /** The audit stored with an admitted turn: none when nothing was overridden,
      and otherwise what was overridden, by whom, and what was known then. */
  ghost predicate AuditTells(
    audit: Option<AdmissionOverride>, db: Db, registry: Registry, limits: Limits, authority: Authority,
    p: string, source: string, now: int)
  {
    var blind := Blind(db, registry, limits, p, now);
    if !blind && !Unmetered(registry, limits, p) then audit == None
    else
      && authority.Supervised? && audit.Some?
      && var o := audit.value;
         && (o.kind == UnobservableOverride <==> blind)
         && Trims(authority.reason, o.reason) && o.reason != ""
         && o.source == source && o.provider == p && o.checkedUnix == now
         && o.spend == Min(SpendSince(db, DayBefore(now)), U64_MAX) && o.stopMicroUsd == limits.stopMicroUsd
         && o.tokens == Min(TotalOfTheDay(db, p, now), U64_MAX) && o.stopTokens == Configured(limits, p).stopTokens
         && o.costGaps == Min(|LostCosts(db, registry, now)|, U64_MAX)
         && o.usageGaps == Min(|LostUsage(db, p, now)|, U64_MAX)
  }

  /** What is decided for an idle agent of a linked backend on a legible ledger:
      reached stops first, then what the configuration cannot protect. */
  ghost predicate DecidesIdle(
    decision: Decision, db: Db, registry: Registry, limits: Limits, authority: Authority,
    p: string, prompt: string, source: string, now: int)
  {
    var uncappable, blind := Uncappable(registry, limits, p), Blind(db, registry, limits, p, now);
    var unmetered := Unmetered(registry, limits, p);
    if SpentUp(db, limits, now) then
      decision == Refused(OverBudget(Min(SpendSince(db, DayBefore(now)), U64_MAX), limits.stopMicroUsd.value))
    else if UsedUp(db, limits, p, now) then
      decision ==
        Refused(OverTokens(Min(TotalOfTheDay(db, p, now), U64_MAX), Configured(limits, p).stopTokens.value))
    else if (uncappable || blind || unmetered) && (authority.Automatic? || Blank(authority.reason)) then
      decision == Refused(if authority.Supervised? then EmptyReason
                          else if uncappable then ProtectionUnavailable
                          else if blind then UnobservableProvider
                          else UnguardedProvider)
    else
      && decision.Admitted?
      && AuditTells(decision.row.admissionOverride, db, registry, limits, authority, p, source, now)
      && FrozenPolicy(decision.row, prompt, p, Configured(limits, p).ceiling, CeilingOf(registry, p),
                      authority, source, now)
  }

  ghost predicate Decides(
    decision: Decision, db: Db, registry: Registry, limits: Limits, authority: Authority,
    a: string, prompt: string, source: string, now: int)
  {
    if a !in db.agents then decision == Refused(NoAgent)
    else if db.agents[a].retired then decision == Refused(AgentRetired)
    else if exists k | k in db.turns :: k.agent == a && db.turns[k].state in {Queued, Running} then
      decision == Refused(Busy)
    else if db.agents[a].def.provider !in registry then decision == Refused(UnknownProvider)
    else if Illegible(db, now) then decision == Refused(UnsafeLedger)
    else DecidesIdle(decision, db, registry, limits, authority, db.agents[a].def.provider, prompt, source, now)
  }

  /** The override step, for a provider whose stops are not reached. */
  lemma OverrideIsTold(
    report: Report, db: Db, registry: Registry, limits: Limits, authority: Authority, p: string, source: string,
    now: int)
    requires ReportTells(report, db, registry, limits, now) && p in report.providers
    requires !SpentUp(db, limits, now) && !UsedUp(db, limits, p, now)
    ensures var audit := OverrideFor(p, report.providers[p], report.global, authority, source, now);
            var blind, unmetered := Blind(db, registry, limits, p, now), Unmetered(registry, limits, p);
            if (blind || unmetered) && (authority.Automatic? || Blank(authority.reason)) then
              audit == Refuse(if authority.Supervised? then EmptyReason
                              else if blind then UnobservableProvider else UnguardedProvider)
            else audit.Proceed? && AuditTells(audit.value, db, registry, limits, authority, p, source, now)
  {
    assert TellsTheDay(report.providers[p], db, registry, limits, p, now);
    if authority.Supervised? {
      TrimKeepsBlankness(authority.reason);
      TrimCutsBothEnds(authority.reason);
    }
  }

  /** Reached stops, as the report has them. */
  lemma StopsAreTold(report: Report, db: Db, registry: Registry, limits: Limits, p: string, now: int)
    requires limits.Validated() && ReportTells(report, db, registry, limits, now) && p in report.providers
    ensures var status := report.providers[p];
            && (Reached(report.global.stopMicroUsd, report.global.spend) <==> SpentUp(db, limits, now))
            && (Reached(status.stopTokens, status.accounting.TotalTokens()) <==> UsedUp(db, limits, p, now))
            && report.global.spend == Min(SpendSince(db, DayBefore(now)), U64_MAX)
            && report.global.stopMicroUsd == limits.stopMicroUsd
            && status.accounting.TotalTokens() == Min(TotalOfTheDay(db, p, now), U64_MAX)
            && status.stopTokens == Configured(limits, p).stopTokens
  {
    ConfiguredIsValid(limits, p);
    assert TellsTheDay(report.providers[p], db, registry, limits, p, now);
    ClampMovesNoThreshold(limits.stopMicroUsd, SpendSince(db, DayBefore(now)));
    ClampMovesNoThreshold(Configured(limits, p).stopTokens, TotalOfTheDay(db, p, now));
  }

  lemma ReportDecides(
    report: Report, db: Db, registry: Registry, limits: Limits, authority: Authority, p: string, prompt: string,
    source: string, now: int, decision: Decision)
    requires limits.Validated() && ReportTells(report, db, registry, limits, now) && p in registry
    requires decision == DecideOn(report, registry, limits, authority, p, prompt, source, now)
    ensures DecidesIdle(decision, db, registry, limits, authority, p, prompt, source, now)
  {
    ConfiguredIsValid(limits, p);
    StopsAreTold(report, db, registry, limits, p, now);
    if !SpentUp(db, limits, now) && !UsedUp(db, limits, p, now) {
      OverrideIsTold(report, db, registry, limits, authority, p, source, now);
    }
    if decision.Admitted? {
      DecisionFreezesPolicy(report, registry, limits, authority, p, prompt, source, now, decision);
    }
  }

  /** Every decision admission takes, for any agent, ledger, limits and authority,
      and whatever order the window came back in. */
  lemma DecisionIsTheVerdict(
    db: Db, registry: Registry, limits: Limits, authority: Authority, a: string, prompt: string, source: string,
    now: int, order: seq<Key>)
    requires RowsValid(db) && limits.Validated() && WindowOrder(db, now, order)
    ensures forall k | k in order :: k in db.turns
    ensures Decides(Decide(db, registry, limits, authority, a, prompt, source, now, order),
                    db, registry, limits, authority, a, prompt, source, now)
  {
    ReportIsTheDays(db, registry, limits, now, order);
    assert HasInFlight(db, a) <==> exists k | k in db.turns :: k.agent == a && db.turns[k].state in {Queued, Running};
    if Eligible(db, registry, a) && !Illegible(db, now) {
      ReportDecides(ReportAt(db, registry, limits, order).value, db, registry, limits, authority,
                    db.agents[a].def.provider, prompt, source, now,
                    Decide(db, registry, limits, authority, a, prompt, source, now, order));
    }
  }

  /** An agent admission may consider on a ledger it can read. */
  ghost predicate Considered(db: Db, registry: Registry, a: string, now: int) {
    && a in db.agents && !db.agents[a].retired && db.agents[a].def.provider in registry
    && (forall k | k in db.turns && k.agent == a :: db.turns[k].state.Terminal())
    && !Illegible(db, now)
  }

  /** Automatic work is admitted exactly for such an agent while no stop is
      reached, none is blind, something meters the backend, and a configured
      ceiling can be enforced. */
  lemma AutomaticTurnIsAdmittedIff(
    db: Db, registry: Registry, limits: Limits, a: string, prompt: string, source: string, now: int, order: seq<Key>)
    requires RowsValid(db) && limits.Validated() && WindowOrder(db, now, order)
    ensures forall k | k in order :: k in db.turns
    ensures Decide(db, registry, limits, Automatic, a, prompt, source, now, order).Admitted? <==>
            && Considered(db, registry, a, now)
            && var p := db.agents[a].def.provider;
               && !SpentUp(db, limits, now) && !UsedUp(db, limits, p, now) && !Blind(db, registry, limits, p, now)
               && !Unmetered(registry, limits, p) && !Uncappable(registry, limits, p)
  {
    DecisionIsTheVerdict(db, registry, limits, Automatic, a, prompt, source, now, order);
  }

  lemma VerdictForSupervisor(
    decision: Decision, db: Db, registry: Registry, limits: Limits, authority: Authority, a: string, prompt: string,
    source: string, now: int)
    requires Decides(decision, db, registry, limits, authority, a, prompt, source, now)
    ensures decision != Refused(StoppedWithoutThreshold)
    ensures authority.Supervised? && !Blank(authority.reason) ==>
              (decision.Admitted? <==>
               && Considered(db, registry, a, now)
               && !SpentUp(db, limits, now) && !UsedUp(db, limits, db.agents[a].def.provider, now))
  {
  }

  /** A supervisor with a reason passes everything except a stop whose reached
      value is known; the arm for an unmatched stop is dead, whoever asks. */
  lemma SupervisedStopsOnlyAtKnownStops(
    db: Db, registry: Registry, limits: Limits, reason: string, authority: Authority, a: string, prompt: string,
    source: string, now: int, order: seq<Key>)
    requires RowsValid(db) && limits.Validated() && WindowOrder(db, now, order) && !Blank(reason)
    ensures forall k | k in order :: k in db.turns
    ensures Decide(db, registry, limits, authority, a, prompt, source, now, order) != Refused(StoppedWithoutThreshold)
    ensures Decide(db, registry, limits, Supervised(reason), a, prompt, source, now, order).Admitted? <==>
            && Considered(db, registry, a, now)
            && !SpentUp(db, limits, now) && !UsedUp(db, limits, db.agents[a].def.provider, now)
  {
    DecisionIsTheVerdict(db, registry, limits, authority, a, prompt, source, now, order);
    VerdictForSupervisor(Decide(db, registry, limits, authority, a, prompt, source, now, order),
                         db, registry, limits, authority, a, prompt, source, now);
    DecisionIsTheVerdict(db, registry, limits, Supervised(reason), a, prompt, source, now, order);
    VerdictForSupervisor(Decide(db, registry, limits, Supervised(reason), a, prompt, source, now, order),
                         db, registry, limits, Supervised(reason), a, prompt, source, now);
  }

  /** Whoever asks, a turn is admitted only while what `spend_since` finds in the
      rolling day is below the USD stop. */
  lemma AdmittedBelowStop(
    db: Db, registry: Registry, limits: Limits, authority: Authority, a: string, prompt: string, source: string,
    now: int, order: seq<Key>)
    requires RowsValid(db) && limits.Validated() && WindowOrder(db, now, order) && limits.stopMicroUsd.Some?
    ensures forall k | k in order :: k in db.turns
    ensures Decide(db, registry, limits, authority, a, prompt, source, now, order).Admitted? ==>
              SpendSince(db, DayBefore(now)) < limits.stopMicroUsd.value
  {
    DecisionIsTheVerdict(db, registry, limits, authority, a, prompt, source, now, order);
  }

  /** One turn of the day whose cost nobody knows refuses automatic work to every
      agent under a USD stop; one whose tokens nobody knows refuses it to every
      agent of its provider under that provider's token stop. */
  lemma GapBlocksAutomaticWork(
    db: Db, registry: Registry, limits: Limits, a: string, prompt: string, source: string, now: int, order: seq<Key>,
    k: Key)
    requires RowsValid(db) && WindowOrder(db, now, order)
    requires k in db.turns && InTheDay(db.turns[k], now)
    requires || (limits.stopMicroUsd.Some? && CostLost(db, registry, k))
             || (a in db.agents && TokenStop(limits, db.agents[a].def.provider)
                 && CountsFor(db, k, db.agents[a].def.provider) && UsageLost(db.turns[k]))
    ensures forall j | j in order :: j in db.turns
    ensures Decide(db, registry, limits, Automatic, a, prompt, source, now, order).Refused?
  {
    AccountingIsTheDays(db, registry, now, order);
    if Decide(db, registry, limits, Automatic, a, prompt, source, now, order).Admitted? {
      var p := db.agents[a].def.provider;
      assert k in DayKeys(db, now);
      assert CostLost(db, registry, k) ==> k in LostCosts(db, registry, now);
      assert CountsFor(db, k, p) && UsageLost(db.turns[k]) ==> k in LostUsage(db, p, now);
      BlindIsRefused(db, registry, limits, a, prompt, source, now, order);
      assert false;
    }
  }

  lemma BlindIsRefused(
    db: Db, registry: Registry, limits: Limits, a: string, prompt: string, source: string, now: int, order: seq<Key>)
    requires (forall k | k in order :: k in db.turns) && a in db.agents
    requires Blind(db, registry, limits, db.agents[a].def.provider, now)
    requires var acc := AccountRows(Some(InitialAccounting(db, registry)), WindowRows(db, order));
             acc.Some? ==> Accounts(db, registry, now, acc.value)
    ensures Decide(db, registry, limits, Automatic, a, prompt, source, now, order).Refused?
  {
    if Decide(db, registry, limits, Automatic, a, prompt, source, now, order).Admitted? {
      var p := db.agents[a].def.provider;
      var report, acc := AdmittedDecision(db, registry, limits, Automatic, a, prompt, source, now, order);
      RegisteredProviderIsReported(db, registry, limits, order, acc, p);
      AutomaticFollowsTheFlag(ReportAt(db, registry, limits, order).value, registry, limits, p, prompt, source, now,
                              acc);
      BlindIsJudged(db, registry, limits, now, acc, p);
      assert false;
    }
  }

  lemma BlindIsJudged(db: Db, registry: Registry, limits: Limits, now: int, acc: Accounting, p: string)
    requires Accounts(db, registry, now, acc) && Blind(db, registry, limits, p, now)
    ensures !StatusFrom(limits, registry, p, acc).automaticAllowed
  {
    assert AccountsFor(db, registry, now, p, EntryOf(acc, p));
    SomeAreLost(LostCosts(db, registry, now));
    SomeAreLost(LostUsage(db, p, now));
    EvaluationJudges(limits, p, acc.spend, acc.CostGaps(), EntryOf(acc, p), CeilingOf(registry, p));
  }
}
