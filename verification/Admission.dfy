/** Deciding a submission and inserting its row: one atomic step. */
module Admission {
  import opened Types
  import opened Sums
  import opened Capability
  import opened Limits
  import opened Rows
  import opened Database
  import opened Telemetry

  datatype Authority = Automatic | Supervised(reason: string)

  datatype Refusal =
    | NoAgent | AgentRetired | Busy | UnknownProvider | UnsafeLedger | MissingStatus
    | OverBudget(spent: u64, stop: u64)
    | OverTokens(used: u64, stop: u64)
    | ProtectionUnavailable | UnobservableProvider | UnguardedProvider
    | EmptyReason | StoppedWithoutThreshold

  datatype Decision = Refused(why: Refusal) | Admitted(row: TurnRow)

  datatype Outcome<+T> = Refuse(why: Refusal) | Proceed(value: T)

  /** `admission_report_at`, for one order in which SQLite returned the window. */
  ghost function ReportAt(db: Db, registry: Registry, limits: Limits, order: seq<Key>): Option<Report>
    requires forall k | k in order :: k in db.turns
  {
    var acc := AccountRows(Some(InitialAccounting(db, registry)), WindowRows(db, order));
    if acc.None? then None else Some(Resolve(registry, Evaluate(limits, acc.value)))
  }

  ghost predicate WindowOrder(db: Db, checkedUnix: int, order: seq<Key>) {
    Enumerates(order, WindowKeys(db, checkedUnix - ROLLING_WINDOW_SECS))
  }

  /** The snapshot a submission's row will carry, or why it cannot have one. */
  function ProtectionFor(
    provider: string, ceiling: Option<u64>, capability: Option<CeilingCapability>,
    authority: Authority, source: string, checkedUnix: int): Outcome<Snapshot>
  {
    if ceiling.None? then Proceed(UnboundedSnapshot(provider))
    else if capability.Some? then Proceed(EnforcedSnapshot(provider, ceiling.value, capability.value))
    else match authority
      case Automatic => Refuse(ProtectionUnavailable)
      case Supervised(reason) =>
        if Blank(reason) then Refuse(EmptyReason)
        else Proceed(OverrideSnapshot(provider, ceiling.value, ProtectionOverride(Trim(reason), source, checkedUnix)))
  }

  function OverrideFor(
    provider: string, status: ProviderStatus, global: GlobalStatus,
    authority: Authority, source: string, checkedUnix: int): Outcome<Option<AdmissionOverride>>
  {
    match status.state
    case Fine | Warning => Proceed(None)
    case Stopped => Refuse(StoppedWithoutThreshold)
    case Unobservable | Unguarded =>
      match authority
      case Automatic => Refuse(if status.state == Unobservable then UnobservableProvider else UnguardedProvider)
      case Supervised(reason) =>
        if Blank(reason) then Refuse(EmptyReason)
        else Proceed(Some(AdmissionOverride(
          if status.state == Unobservable then UnobservableOverride else UnguardedOverride,
          Trim(reason), source, provider, checkedUnix, global.spend, global.stopMicroUsd,
          status.accounting.TotalTokens(), status.stopTokens, global.costGaps, status.accounting.UsageGaps())))
  }

  /** Everything `admit_turn` decides once the report is known. */
  ghost function DecideOn(
    report: Report, registry: Registry, limits: Limits, authority: Authority,
    provider: string, prompt: string, source: string, checkedUnix: int): Decision
  {
    if provider !in report.providers then Refused(MissingStatus)
    else
      var status := report.providers[provider];
      if Reached(report.global.stopMicroUsd, report.global.spend) then
        Refused(OverBudget(report.global.spend, report.global.stopMicroUsd.value))
      else if Reached(status.stopTokens, status.accounting.TotalTokens()) then
        Refused(OverTokens(status.accounting.TotalTokens(), status.stopTokens.value))
      else
        var protection := ProtectionFor(provider, limits.Provider(provider).ceiling, CeilingOf(registry, provider),
                                        authority, source, checkedUnix);
        if protection.Refuse? then Refused(protection.why)
        else
          var audit := OverrideFor(provider, status, report.global, authority, source, checkedUnix);
          if audit.Refuse? then Refused(audit.why)
          else Admitted(QueuedRow(prompt, provider, checkedUnix, audit.value, protection.value))
  }

  /** `admit_turn` up to the INSERT. */
  ghost function Decide(
    db: Db, registry: Registry, limits: Limits, authority: Authority,
    a: string, prompt: string, source: string, checkedUnix: int, order: seq<Key>): Decision
    requires forall k | k in order :: k in db.turns
  {
    if a !in db.agents then Refused(NoAgent)
    else if db.agents[a].retired then Refused(AgentRetired)
    else if HasInFlight(db, a) then Refused(Busy)
    else
      var provider := db.agents[a].def.provider;
      if provider !in registry then Refused(UnknownProvider)
      else
        var report := ReportAt(db, registry, limits, order);
        if report.None? then Refused(UnsafeLedger)
        else DecideOn(report.value, registry, limits, authority, provider, prompt, source, checkedUnix)
  }

  /** The whole transaction: decide, and insert the queued turn or roll back. */
  ghost function Admit(
    db: Db, registry: Registry, limits: Limits, authority: Authority,
    a: string, prompt: string, source: string, checkedUnix: int, order: seq<Key>): Db
    requires forall k | k in order :: k in db.turns
  {
    var decision := Decide(db, registry, limits, authority, a, prompt, source, checkedUnix, order);
    if decision.Admitted? then GuardedInsert(db, a, decision.row) else db
  }

  /** An agent admission may consider: known, active, idle, on a linked backend. */
  predicate Eligible(db: Db, registry: Registry, a: string) {
    && a in db.agents && !db.agents[a].retired && !HasInFlight(db, a)
    && db.agents[a].def.provider in registry
  }

  lemma ReportIgnoresOrder(
    db: Db, registry: Registry, limits: Limits, checkedUnix: int, order: seq<Key>, other: seq<Key>)
    requires WindowOrder(db, checkedUnix, order) && WindowOrder(db, checkedUnix, other)
    ensures ReportAt(db, registry, limits, order) == ReportAt(db, registry, limits, other)
  {
    SameWindowSameRows(db, order, other, WindowKeys(db, checkedUnix - ROLLING_WINDOW_SECS));
    AccountingIgnoresOrder(
      Some(InitialAccounting(db, registry)), WindowRows(db, order), WindowRows(db, other));
  }

  /** The report lists every registered provider with the status `evaluate` and
      the capability resolution give it. */
  lemma RegisteredProviderIsReported(
    db: Db, registry: Registry, limits: Limits, order: seq<Key>, acc: Accounting, provider: string)
    requires forall k | k in order :: k in db.turns
    requires AccountRows(Some(InitialAccounting(db, registry)), WindowRows(db, order)) == Some(acc)
    requires provider in registry
    ensures ReportAt(db, registry, limits, order).Some?
    ensures ReportsStatus(ReportAt(db, registry, limits, order).value, limits, registry, provider, acc)
  {
    EveryProviderIsListed(InitialAccounting(db, registry), WindowRows(db, order), acc);
  }

  /** The status `evaluate` and the capability resolution give one provider. */
  ghost function StatusFrom(limits: Limits, registry: Registry, provider: string, acc: Accounting): ProviderStatus {
    ResolveStatus(EvaluateProvider(limits, provider, acc.spend, acc.CostGaps(), EntryOf(acc, provider)),
                  CeilingOf(registry, provider))
  }

  ghost predicate ReportsStatus(report: Report, limits: Limits, registry: Registry, provider: string, acc: Accounting) {
    && provider in report.providers
    && report.providers[provider] == StatusFrom(limits, registry, provider, acc)
    && report.global.spend == acc.spend
    && report.global.stopMicroUsd == limits.stopMicroUsd
    && report.global.costGaps == acc.CostGaps()
  }

  lemma EligibleUsesReport(
    db: Db, registry: Registry, limits: Limits, authority: Authority, a: string, prompt: string, source: string,
    checkedUnix: int, order: seq<Key>, acc: Accounting)
    returns (report: Report)
    requires forall k | k in order :: k in db.turns
    requires Eligible(db, registry, a)
    requires AccountRows(Some(InitialAccounting(db, registry)), WindowRows(db, order)) == Some(acc)
    ensures ReportsStatus(report, limits, registry, db.agents[a].def.provider, acc)
    ensures Decide(db, registry, limits, authority, a, prompt, source, checkedUnix, order)
         == DecideOn(report, registry, limits, authority, db.agents[a].def.provider, prompt, source, checkedUnix)
  {
    RegisteredProviderIsReported(db, registry, limits, order, acc, db.agents[a].def.provider);
    report := ReportAt(db, registry, limits, order).value;
  }

  lemma AdmittedDecision(
    db: Db, registry: Registry, limits: Limits, authority: Authority, a: string, prompt: string, source: string,
    checkedUnix: int, order: seq<Key>)
    returns (report: Report, acc: Accounting)
    requires forall k | k in order :: k in db.turns
    requires Decide(db, registry, limits, authority, a, prompt, source, checkedUnix, order).Admitted?
    ensures Eligible(db, registry, a)
    ensures Decide(db, registry, limits, authority, a, prompt, source, checkedUnix, order)
         == DecideOn(report, registry, limits, authority, db.agents[a].def.provider, prompt, source, checkedUnix)
    ensures AccountRows(Some(InitialAccounting(db, registry)), WindowRows(db, order)) == Some(acc)
  {
    report := ReportAt(db, registry, limits, order).value;
    acc := AccountRows(Some(InitialAccounting(db, registry)), WindowRows(db, order)).value;
  }

  lemma AutomaticFollowsTheFlag(
    report: Report, registry: Registry, limits: Limits, provider: string, prompt: string, source: string,
    checkedUnix: int, acc: Accounting)
    requires ReportsStatus(report, limits, registry, provider, acc)
    ensures DecideOn(report, registry, limits, Automatic, provider, prompt, source, checkedUnix).Admitted? <==>
            report.providers[provider].automaticAllowed
  {
  }

  /** The report a user reads and the decision they get agree: at one ledger and
      time automatic work is admitted exactly when the report says it is allowed,
      whichever order either query returned its rows in. */
  lemma ReportAndDecisionAgree(
    db: Db, registry: Registry, limits: Limits, a: string, prompt: string, source: string,
    checkedUnix: int, order: seq<Key>, other: seq<Key>, report: Report, decision: Decision)
    requires WindowOrder(db, checkedUnix, order) && WindowOrder(db, checkedUnix, other)
    requires Eligible(db, registry, a)
    requires ReportAt(db, registry, limits, other) == Some(report)
    requires decision == Decide(db, registry, limits, Automatic, a, prompt, source, checkedUnix, order)
    ensures db.agents[a].def.provider in report.providers
    ensures decision.Admitted? <==> report.providers[db.agents[a].def.provider].automaticAllowed
  {
    ReportIgnoresOrder(db, registry, limits, checkedUnix, order, other);
    var acc := AccountRows(Some(InitialAccounting(db, registry)), WindowRows(db, order)).value;
    RegisteredProviderIsReported(db, registry, limits, order, acc, db.agents[a].def.provider);
    AutomaticFollowsTheFlag(report, registry, limits, db.agents[a].def.provider, prompt, source, checkedUnix, acc);
  }

  /** A turn waiting for its first claim: nothing ran, nothing is known. */
  predicate Untouched(row: TurnRow) {
    && row.state == Queued && row.claimedMs == None && row.claimVersion == 0 && row.settled == None
    && row.reply == None && row.error == None && row.failureKind == NoFailure && row.providerSession == None
    && row.cost == 0 && row.costState == CostLegacy && !row.costComplete
    && row.tokens == Tokens(0, 0, 0) && row.usageState == UsageLegacy && !row.usageComplete
    && row.elapsedMs == 0 && row.elapsedState == ElapsedLegacy && row.providerTurns == None
  }

  /** What admission freezes onto the row. */
  predicate FrozenPolicy(
    row: TurnRow, prompt: string, provider: string, ceiling: Option<u64>, capability: Option<CeilingCapability>,
    authority: Authority, source: string, checkedUnix: int)
  {
    && Untouched(row) && row.prompt == prompt && row.provider == provider && row.atUnix == checkedUnix
    && row.protection.Some? && row.protection.value.Stored?
    && var s := row.protection.value.snapshot;
       && row.protectionState == s.state
       && (ceiling.None? ==> s == UnboundedSnapshot(provider))
       && (ceiling.Some? && capability.Some? ==> s == EnforcedSnapshot(provider, ceiling.value, capability.value))
       && (ceiling.Some? && capability.None? ==>
             && authority.Supervised? && !Blank(authority.reason)
             && s == OverrideSnapshot(provider, ceiling.value,
                                      ProtectionOverride(Trim(authority.reason), source, checkedUnix)))
  }

  lemma DecisionFreezesPolicy(
    report: Report, registry: Registry, limits: Limits, authority: Authority, provider: string,
    prompt: string, source: string, checkedUnix: int, decision: Decision)
    requires decision == DecideOn(report, registry, limits, authority, provider, prompt, source, checkedUnix)
    requires decision.Admitted?
    ensures FrozenPolicy(decision.row, prompt, provider, limits.Provider(provider).ceiling,
                         CeilingOf(registry, provider), authority, source, checkedUnix)
    ensures RowInv(decision.row)
  {
  }

  /** Whatever is admitted carries the policy in force at that moment. */
  lemma AdmissionFreezesPolicy(
    db: Db, registry: Registry, limits: Limits, authority: Authority, a: string, prompt: string, source: string,
    checkedUnix: int, order: seq<Key>, decision: Decision)
    requires forall k | k in order :: k in db.turns
    requires decision == Decide(db, registry, limits, authority, a, prompt, source, checkedUnix, order)
    requires decision.Admitted?
    ensures Insertable(db, a) && RowInv(decision.row)
    ensures var provider := db.agents[a].def.provider;
            FrozenPolicy(decision.row, prompt, provider, limits.Provider(provider).ceiling,
                         CeilingOf(registry, provider), authority, source, checkedUnix)
  {
    var report, acc := AdmittedDecision(db, registry, limits, authority, a, prompt, source, checkedUnix, order);
    DecisionFreezesPolicy(report, registry, limits, authority, db.agents[a].def.provider,
                          prompt, source, checkedUnix, decision);
  }

  /** An admitted turn later runs under exactly the ceiling it was admitted
      with, and runs at all precisely when the live capability is the one frozen
      and, for a supervised exception, the recorded source is not blank. */
  lemma AdmittedTurnRunsIff(
    row: TurnRow, prompt: string, provider: string, ceiling: Option<u64>, capability: Option<CeilingCapability>,
    authority: Authority, source: string, checkedUnix: int, live: Option<CeilingCapability>)
    requires FrozenPolicy(row, prompt, provider, ceiling, capability, authority, source, checkedUnix)
    requires Threshold(ceiling)
    ensures var s := row.protection.value.snapshot;
            var execution := ValidateForExecution(s, row.protectionState, row.provider, live);
            && (execution.Runs? <==>
                || ceiling.None?
                || (live == capability && (capability.None? ==> !Blank(source))))
            && (execution.Runs? ==>
                  if ceiling.Some? && capability.Some?
                  then execution.ceiling == Some(TurnCeiling(capability.value, ceiling.value))
                  else execution.ceiling == None)
  {
    if authority.Supervised? {
      TrimKeepsBlankness(authority.reason);
    }
  }

  /** The two callers with a supervisor's authority pass their own names. */
  const SUPERVISED_SOURCES := {"send_supervised", "resend_supervised"}

  lemma SuppliedSourcesAreNotBlank(source: string)
    requires source in SUPERVISED_SOURCES
    ensures !Blank(source)
  {
    assert source[0] in source && source[0] in {'s', 'r'};
  }

  /** Whatever is admitted through the callers there are later runs exactly when
      no ceiling was configured or the backend's live capability is the very one,
      or none, that was frozen. */
  lemma SuppliedTurnRunsIff(
    db: Db, registry: Registry, limits: Limits, authority: Authority, a: string, prompt: string, source: string,
    checkedUnix: int, order: seq<Key>, row: TurnRow, live: Option<CeilingCapability>)
    requires (forall k | k in order :: k in db.turns) && limits.Validated()
    requires Decide(db, registry, limits, authority, a, prompt, source, checkedUnix, order) == Admitted(row)
    requires authority.Supervised? ==> source in SUPERVISED_SOURCES
    ensures a in db.agents && row.protection.Some? && row.protection.value.Stored?
    ensures var provider := db.agents[a].def.provider;
            ValidateForExecution(row.protection.value.snapshot, row.protectionState, row.provider, live).Runs? <==>
              limits.Provider(provider).ceiling.None? || live == CeilingOf(registry, provider)
  {
    AdmissionFreezesPolicy(db, registry, limits, authority, a, prompt, source, checkedUnix, order, Admitted(row));
    var provider := db.agents[a].def.provider;
    if authority.Supervised? {
      SuppliedSourcesAreNotBlank(source);
    }
    AdmittedTurnRunsIff(row, prompt, provider, limits.Provider(provider).ceiling, CeilingOf(registry, provider),
                        authority, source, checkedUnix, live);
  }

  /** Why the source must not be blank: an exception admitted with a blank one
      would be queued and then refused by every backend. */
  lemma BlankSourceWouldNeverRun(
    db: Db, registry: Registry, limits: Limits, authority: Authority, a: string, prompt: string, source: string,
    checkedUnix: int, order: seq<Key>, row: TurnRow, live: Option<CeilingCapability>)
    requires (forall k | k in order :: k in db.turns) && limits.Validated() && Blank(source)
    requires Decide(db, registry, limits, authority, a, prompt, source, checkedUnix, order) == Admitted(row)
    ensures a in db.agents && row.protection.Some? && row.protection.value.Stored?
    ensures var provider := db.agents[a].def.provider;
            limits.Provider(provider).ceiling.Some? && CeilingOf(registry, provider).None? ==>
              ValidateForExecution(row.protection.value.snapshot, row.protectionState, row.provider, live) == Rejected
  {
    AdmissionFreezesPolicy(db, registry, limits, authority, a, prompt, source, checkedUnix, order, Admitted(row));
    var provider := db.agents[a].def.provider;
    AdmittedTurnRunsIff(row, prompt, provider, limits.Provider(provider).ceiling, CeilingOf(registry, provider),
                        authority, source, checkedUnix, live);
  }
}
