/** Admission circuit breakers and the protection snapshot frozen onto a turn. */
module Limits {
  import opened Types
  import opened Capability
  import opened Sums

  const ROLLING_WINDOW_SECS: int := 86400

  datatype ProviderLimits = ProviderLimits(
    warnTokens: Option<u64>, stopTokens: Option<u64>, ceiling: Option<u64>)

  const NO_LIMITS := ProviderLimits(None, None, None)

  predicate Threshold(t: Option<u64>) { t.Some? ==> 1 <= t.value <= I64_MAX }

  datatype Limits = Limits(
    warnMicroUsd: Option<u64>, stopMicroUsd: Option<u64>, providers: map<string, ProviderLimits>)
  {
    function Provider(key: string): ProviderLimits {
      if key in providers then providers[key] else NO_LIMITS
    }

    /** What `validate` lets through, in integer micro-dollars. */
    predicate Validated() {
      && Threshold(warnMicroUsd) && Threshold(stopMicroUsd)
      && (warnMicroUsd.Some? && stopMicroUsd.Some? ==> warnMicroUsd.value <= stopMicroUsd.value)
      && forall key | key in providers ::
           var p := providers[key];
           && Threshold(p.warnTokens) && Threshold(p.stopTokens) && Threshold(p.ceiling)
           && (p.warnTokens.Some? && p.stopTokens.Some? ==> p.warnTokens.value <= p.stopTokens.value)
    }
  }

  /** One provider's telemetry in the rolling window. */
  datatype ProviderAccounting = ProviderAccounting(
    reportsCost: bool,
    reportsTokenUsage: bool,
    activeAgents: nat,
    tokensIn: u64,
    tokensOut: u64,
    tokensCached: u64,
    usageComplete: nat,
    usageIncomplete: nat,
    usageUnreported: nat,
    usageNotTracked: nat,
    usageLegacyUnknown: nat,
    runningPartial: nat,
    costComplete: nat,
    costIncomplete: nat,
    costUnreported: nat,
    costNotPriced: nat,
    costLegacyUnknown: nat)
  {
    /** Nothing is counted in it yet. */
    predicate Uncounted() {
      && tokensIn == tokensOut == tokensCached == 0
      && usageComplete == usageIncomplete == usageUnreported == usageNotTracked == usageLegacyUnknown == 0
      && runningPartial == 0
      && costComplete == costIncomplete == costUnreported == costNotPriced == costLegacyUnknown == 0
    }

    function TotalTokens(): u64 { SaturatingAdd(tokensIn, tokensOut) }

    function UsageGaps(): nat {
      Min(usageIncomplete + usageUnreported + usageNotTracked + usageLegacyUnknown, U64_MAX)
    }

    function CostGaps(): nat {
      Min(costIncomplete + costUnreported + costLegacyUnknown
          + (if reportsCost then costNotPriced else 0), U64_MAX)
    }
  }

  const NO_TELEMETRY :=
    ProviderAccounting(false, false, 0, 0, 0, 0, 0, 0, 0, 0, 0, 0, 0, 0, 0, 0, 0)

  datatype Accounting = Accounting(spend: u64, providers: map<string, ProviderAccounting>) {
    ghost function CostGaps(): int { Min(Sum(GapsOf(providers)), U64_MAX) }
  }

  datatype AdmissionState = Fine | Warning | Stopped | Unobservable | Unguarded {
    predicate AutomaticAllowed() { Fine? || Warning? }
  }

  datatype Protection = EnforcedStatus | UnboundedStatus | UnavailableStatus

  datatype Detail = StopReached | TelemetryIncomplete | NoTokenStop | CannotEnforce

  datatype ProviderStatus = ProviderStatus(
    accounting: ProviderAccounting,
    warnTokens: Option<u64>,
    stopTokens: Option<u64>,
    ceiling: Option<u64>,
    protection: Protection,
    capability: Option<CeilingCapability>,
    state: AdmissionState,
    automaticAllowed: bool,
    detail: Option<Detail>)

  datatype GlobalStatus = GlobalStatus(
    spend: u64, warnMicroUsd: Option<u64>, stopMicroUsd: Option<u64>, costGaps: int, state: AdmissionState)

  datatype Report = Report(global: GlobalStatus, providers: map<string, ProviderStatus>)

  predicate Reached(threshold: Option<u64>, value: u64) {
    threshold.Some? && value >= threshold.value
  }

  function EvaluateProvider(limits: Limits, key: string, spend: u64, costGaps: int, p: ProviderAccounting)
    : ProviderStatus
  {
    var l := limits.Provider(key);
    var total := p.TotalTokens();
    var knownStop := Reached(limits.stopMicroUsd, spend) || Reached(l.stopTokens, total);
    var costUnobservable := limits.stopMicroUsd.Some? && costGaps > 0;
    var tokenUnobservable := l.stopTokens.Some? && p.UsageGaps() > 0;
    var unguarded := !p.reportsCost && l.stopTokens.None?;
    var warning := Reached(limits.warnMicroUsd, spend) || Reached(l.warnTokens, total);
    var (state, detail) :=
      if knownStop then (Stopped, Some(StopReached))
      else if costUnobservable || tokenUnobservable then (Unobservable, Some(TelemetryIncomplete))
      else if unguarded then (Unguarded, Some(NoTokenStop))
      else if warning then (Warning, None)
      else (Fine, None);
    ProviderStatus(
      p, l.warnTokens, l.stopTokens, l.ceiling,
      if l.ceiling.Some? then UnavailableStatus else UnboundedStatus,
      None, state, state.AutomaticAllowed() && l.ceiling.None?, detail)
  }

  function EvaluateWith(limits: Limits, accounting: Accounting, gaps: int): Report {
    var spend := accounting.spend;
    var globalState :=
      if Reached(limits.stopMicroUsd, spend) then Stopped
      else if limits.stopMicroUsd.Some? && gaps > 0 then Unobservable
      else if Reached(limits.warnMicroUsd, spend) then Warning
      else Fine;
    Report(
      GlobalStatus(spend, limits.warnMicroUsd, limits.stopMicroUsd, gaps, globalState),
      map key | key in accounting.providers ::
        EvaluateProvider(limits, key, spend, gaps, accounting.providers[key]))
  }

  /** `Limits::evaluate`. */
  ghost function Evaluate(limits: Limits, accounting: Accounting): Report {
    EvaluateWith(limits, accounting, accounting.CostGaps())
  }

  ghost function GapsOf(records: map<string, ProviderAccounting>): map<string, int> {
    map p | p in records :: records[p].CostGaps() as int
  }

  lemma OneRecordLess(records: map<string, ProviderAccounting>, key: string)
    requires key in records
    ensures Sum(GapsOf(records)) == records[key].CostGaps() + Sum(GapsOf(records - {key}))
    ensures Sum(GapsOf(records - {key})) >= 0
  {
    SumRemove(GapsOf(records), key);
    assert GapsOf(records) - {key} == GapsOf(records - {key});
    SumNonNegative(GapsOf(records - {key}));
  }

  /** `AdmissionAccounting::cost_gaps`: a saturating fold, whatever the order. */
  method CountCostGaps(accounting: Accounting) returns (gaps: u64)
    ensures gaps == accounting.CostGaps()
  {
    gaps := 0;
    ghost var exact := 0;
    var todo := accounting.providers;
    while todo != map[]
      invariant exact >= 0 && gaps == Min(exact, U64_MAX)
      invariant Sum(GapsOf(accounting.providers)) == exact + Sum(GapsOf(todo))
      decreases |todo|
    {
      var key :| key in todo;
      OneRecordLess(todo, key);
      gaps := SaturatingAdd(gaps, todo[key].CostGaps());
      exact := exact + todo[key].CostGaps();
      todo := todo - {key};
    }
    SumEmpty(GapsOf(todo));
  }

  /** One iteration of `resolve_turn_protection`. */
  function ResolveStatus(status: ProviderStatus, capability: Option<CeilingCapability>): ProviderStatus {
    if status.ceiling.None? then
      status.(protection := UnboundedStatus, capability := capability,
              automaticAllowed := status.state.AutomaticAllowed())
    else
      var protection := if capability.Some? then EnforcedStatus else UnavailableStatus;
      status.(protection := protection, capability := capability,
              automaticAllowed := status.state.AutomaticAllowed() && protection.EnforcedStatus?,
              detail := if protection.UnavailableStatus? && status.detail.None?
                        then Some(CannotEnforce) else status.detail)
  }

  function CeilingOf(registry: Registry, key: string): Option<CeilingCapability> {
    if key in registry then registry[key].turnCeiling else None
  }

  ghost function Resolve(registry: Registry, report: Report): Report {
    report.(providers := map key | key in report.providers ::
              ResolveStatus(report.providers[key], CeilingOf(registry, key)))
  }

  /** `resolve_turn_protection`: the loop rewrites each status where it stands. */
  method ResolveTurnProtection(registry: Registry, report: Report) returns (resolved: Report)
    ensures resolved == Resolve(registry, report)
  {
    var statuses := report.providers;
    var todo := report.providers.Keys;
    while todo != {}
      invariant statuses.Keys == report.providers.Keys && todo <= statuses.Keys
      invariant forall key | key in todo :: statuses[key] == report.providers[key]
      invariant forall key | key in statuses && key !in todo ::
                  statuses[key] == ResolveStatus(report.providers[key], CeilingOf(registry, key))
    {
      var key :| key in todo;
      var capability := if key in registry then registry[key].turnCeiling else None;
      var status := statuses[key];
      if status.ceiling.None? {
        status := status.(protection := UnboundedStatus, capability := capability,
                          automaticAllowed := status.state.AutomaticAllowed());
      } else {
        status := status.(protection := if capability.Some? then EnforcedStatus else UnavailableStatus,
                          capability := capability);
        status := status.(automaticAllowed :=
                            status.state.AutomaticAllowed() && status.protection == EnforcedStatus);
        if status.protection == UnavailableStatus && status.detail.None? {
          status := status.(detail := Some(CannotEnforce));
        }
      }
      statuses := statuses[key := status];
      todo := todo - {key};
    }
    resolved := report.(providers := statuses);
  }

  datatype OverrideKind = UnguardedOverride | UnobservableOverride

  /** The audit stored with a turn a supervisor let through. */
  datatype AdmissionOverride = AdmissionOverride(
    kind: OverrideKind, reason: string, source: string, provider: string, checkedUnix: int,
    spend: u64, stopMicroUsd: Option<u64>, tokens: u64, stopTokens: Option<u64>,
    costGaps: int, usageGaps: int)

  datatype ProtectionState = Enforced | Unbounded | OverrideUnavailable | LegacyProtection

  datatype ProtectionOverride = ProtectionOverride(reason: string, source: string, checkedUnix: int)

  /** The policy decision stamped on a turn before it is queued. */
  datatype Snapshot = Snapshot(
    version: nat,
    provider: string,
    state: ProtectionState,
    limit: Option<u64>,
    capability: Option<CeilingCapability>,
    audit: Option<ProtectionOverride>)

  /** What the protection column of a row can hold. */
  datatype StoredSnapshot = Corrupt | Stored(snapshot: Snapshot)

  const SNAPSHOT_VERSION: nat := 1

  function UnboundedSnapshot(provider: string): Snapshot {
    Snapshot(SNAPSHOT_VERSION, provider, Unbounded, None, None, None)
  }

  function EnforcedSnapshot(provider: string, limit: u64, capability: CeilingCapability): Snapshot {
    Snapshot(SNAPSHOT_VERSION, provider, Enforced, Some(limit), Some(capability), None)
  }

  function OverrideSnapshot(provider: string, limit: u64, audit: ProtectionOverride): Snapshot {
    Snapshot(SNAPSHOT_VERSION, provider, OverrideUnavailable, Some(limit), None, Some(audit))
  }

  datatype Execution = Rejected | Runs(ceiling: Option<TurnCeiling>)

  /** `validate_for_execution`, branch by branch. */
  function ValidateForExecution(
    s: Snapshot, persistedState: ProtectionState, persistedProvider: string,
    live: Option<CeilingCapability>): Execution
  {
    if s.version != SNAPSHOT_VERSION then Rejected
    else if s.provider != persistedProvider then Rejected
    else if s.state != persistedState then Rejected
    else match s.state
      case Enforced =>
        if s.limit.None? then Rejected
        else if s.limit.value == 0 || s.limit.value > I64_MAX then Rejected
        else if s.capability.None? then Rejected
        else if s.audit.Some? then Rejected
        else if live != s.capability then Rejected
        else Runs(Some(TurnCeiling(s.capability.value, s.limit.value)))
      case Unbounded =>
        if s.limit.Some? || s.capability.Some? || s.audit.Some? then Rejected else Runs(None)
      case OverrideUnavailable =>
        if s.limit.None? then Rejected
        else if s.limit.value == 0 || s.limit.value > I64_MAX then Rejected
        else if s.capability.Some? then Rejected
        else if s.audit.None? then Rejected
        else if Blank(s.audit.value.reason) || Blank(s.audit.value.source) then Rejected
        else if live.Some? then Rejected
        else Runs(None)
      case LegacyProtection => Rejected
  }

  /** Execution accepts precisely the snapshots a constructor built, under the
      capability they were built for; any other column content is refused. */
  lemma ExecutionAcceptsOnlyWhatAdmissionBuilds(
    s: Snapshot, state: ProtectionState, provider: string, live: Option<CeilingCapability>)
    ensures ValidateForExecution(s, state, provider, live) == Runs(None) <==>
            || (state == Unbounded && s == UnboundedSnapshot(provider))
            || (state == OverrideUnavailable && live.None?
                && exists limit: u64, audit :: s == OverrideSnapshot(provider, limit, audit)
                     && 0 < limit <= I64_MAX && !Blank(audit.reason) && !Blank(audit.source))
    ensures forall c: TurnCeiling ::
              ValidateForExecution(s, state, provider, live) == Runs(Some(c)) <==>
              && state == Enforced && s == EnforcedSnapshot(provider, c.limit, c.capability)
              && 0 < c.limit <= I64_MAX && live == Some(c.capability)
  {
    if ValidateForExecution(s, state, provider, live) == Runs(None) && state == OverrideUnavailable {
      assert s == OverrideSnapshot(provider, s.limit.value, s.audit.value);
    }
  }
}
