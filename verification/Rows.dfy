/** The two tables of the ledger and what each statement does to one row. */
module Rows {
  import opened Types
  import opened Capability
  import opened Limits

  datatype TurnState = Queued | Running | Ok | Failed | Killed {
    predicate Terminal() { Ok? || Failed? || Killed? }
    predicate InFlight() { Queued? || Running? }
  }

  datatype CostState = CostReported | CostUnreported | CostNotPriced | CostLegacy
  datatype UsageState = UsageReported | UsageUnreported | UsageNotTracked | UsageLegacy
  datatype ElapsedState = Measured | UpperBound | ElapsedUnknown | NotAttempted | ElapsedLegacy
  datatype FailureKind = NoFailure | LimitFailureKind | ReportedFailureKind | FailureNotAttempted | FailureLegacy

  datatype Tokens = Tokens(input: i64, output: i64, cached: i64)

  const ZERO_TOKENS := Tokens(0, 0, 0)

  function Clamped(u: TokenUsage): Tokens {
    Tokens(SaturatedI64(u.input), SaturatedI64(u.output), SaturatedI64(u.cached))
  }

  datatype TurnRow = TurnRow(
    prompt: string,
    state: TurnState,
    reply: Option<string>,
    error: Option<string>,
    cost: i64,
    costState: CostState,
    costComplete: bool,
    elapsedMs: int,
    elapsedState: ElapsedState,
    claimedMs: Option<int>,
    tokens: Tokens,
    usageState: UsageState,
    usageComplete: bool,
    providerTurns: Option<nat>,
    provider: string,
    atUnix: int,
    settled: Option<int>,
    admissionOverride: Option<AdmissionOverride>,
    protectionState: ProtectionState,
    protection: Option<StoredSnapshot>,
    claimVersion: nat,
    failureKind: FailureKind,
    providerSession: Option<string>)

  datatype AgentDef = AgentDef(provider: string, rotateAfter: Option<nat>, wants: Wants)

  /** A definition as it is asked for, before a server stamps its defaults on it. */
  datatype DefRequest = DefRequest(
    provider: Option<string>, rotateAfter: Option<nat>, hermetic: Option<bool>, sandbox: Option<bool>, wants: Wants)

  /** What one server applies to definitions that do not say otherwise. */
  datatype Runtime = Runtime(
    defaultProvider: string, hermetic: bool, sandbox: bool, claudeHome: bool, codexHome: bool)

  /** `normalized_def`: explicit choices win, but a configured provider home
      cannot be opted out of. */
  function NormalizedDef(runtime: Runtime, request: DefRequest): AgentDef {
    var provider := if request.provider.Some? then request.provider.value else runtime.defaultProvider;
    var home := if provider == "codex" then runtime.codexHome else runtime.claudeHome;
    AgentDef(provider, request.rotateAfter, request.wants.(
      sealed := if request.hermetic.Some? then request.hermetic.value else runtime.hermetic,
      sandboxed := if request.sandbox.Some? then request.sandbox.value else runtime.sandbox,
      ownConfigHome := request.wants.ownConfigHome || home))
  }

  datatype AgentRow = AgentRow(
    def: AgentDef,
    session: Option<string>,
    startedSeq: nat,       // 0 until the turn that opens the session records itself
    cost: i64,
    retired: bool,
    spawnedBy: Option<string>)

  function CostStateOf(c: Cost): CostState {
    match c
    case Reported(_) => CostReported
    case Unreported => CostUnreported
    case NotPriced => CostNotPriced
  }

  function UsageStateOf(u: Usage): UsageState {
    match u
    case Tracked(_) => UsageReported
    case Missing => UsageUnreported
    case NotTracked => UsageNotTracked
  }

  function FailureKindOf(f: Option<ExchangeFailure>): FailureKind {
    match f
    case Some(LimitFailure) => LimitFailureKind
    case Some(ReportedFailure) => ReportedFailureKind
    case None => NoFailure
  }

  function OrElse<T>(first: Option<T>, second: Option<T>): Option<T> {
    if first.Some? then first else second
  }

  /** The row the guarded INSERT creates; omitted columns take their defaults. */
  function QueuedRow(
    prompt: string, provider: string, atUnix: int, admissionOverride: Option<AdmissionOverride>, snapshot: Snapshot)
    : TurnRow
  {
    TurnRow(prompt, Queued, None, None, 0, CostLegacy, false, 0, ElapsedLegacy, None,
            ZERO_TOKENS, UsageLegacy, false, None, provider, atUnix, None,
            admissionOverride, snapshot.state, Some(Stored(snapshot)), 0, NoFailure, None)
  }

  function ClaimRow(r: TurnRow, nowMs: int): TurnRow {
    r.(state := Running, claimedMs := Some(nowMs), claimVersion := 1)
  }

  datatype Timing = Live | Recovery

  function InterruptRow(
    r: TurnRow, target: TurnState, error: string, cost: CostState, usage: UsageState,
    nowMs: int, timing: Timing): TurnRow
  {
    var queued := r.state == Queued;
    var keep := !queued && r.usageState == UsageReported;
    r.(state := target,
       error := Some(error),
       cost := 0,
       costState := if queued then CostReported else cost,
       costComplete := queued,
       tokens := if keep then r.tokens else ZERO_TOKENS,
       usageState := if queued || keep then UsageReported else usage,
       usageComplete := queued,
       providerTurns := if queued then Some(0) else None,
       failureKind := if queued then FailureNotAttempted else ReportedFailureKind,
       elapsedState :=
         if queued then NotAttempted
         else if timing == Recovery && r.claimedMs.Some? then UpperBound
         else if timing == Recovery then ElapsedUnknown
         else if r.claimedMs.None? then ElapsedUnknown
         else Measured,
       elapsedMs := Max(r.elapsedMs,
                        if r.state == Running && r.claimedMs.Some? then Max(nowMs - r.claimedMs.value, 0) else 0),
       settled := Some(nowMs / 1000))
  }

  function AbortRow(r: TurnRow, error: string, nowSec: int): TurnRow {
    r.(state := Failed, error := Some(error),
       cost := 0, costState := CostReported, costComplete := true,
       tokens := ZERO_TOKENS, usageState := UsageReported, usageComplete := true,
       providerTurns := Some(0), elapsedMs := 0, elapsedState := NotAttempted,
       failureKind := FailureNotAttempted, settled := Some(nowSec))
  }

  /** The telemetry columns both exchange settlements write. */
  function TelemetryOf(r: TurnRow, ex: Exchange): TurnRow {
    var take := ex.usage.Tracked? || r.usageState != UsageReported;
    r.(cost := SaturatedI64(ex.cost.MicroUsdOrZero()),
       costState := CostStateOf(ex.cost),
       costComplete := ex.cost.Reported? && ex.costComplete,
       elapsedMs := SaturatedI64(ex.elapsedMs),
       elapsedState := Measured,
       tokens := if take then Clamped(ex.usage.TokensOrZero()) else r.tokens,
       usageState := if take then UsageStateOf(ex.usage) else r.usageState,
       usageComplete := ex.usage.Tracked? && ex.usageComplete,
       providerTurns := ex.providerTurns,
       providerSession := OrElse(ex.session, r.providerSession))
  }

  function CompleteRow(r: TurnRow, ex: Exchange, nowSec: int): TurnRow {
    TelemetryOf(r, ex).(state := Ok, reply := Some(ex.reply), failureKind := NoFailure, settled := Some(nowSec))
  }

  function FailRow(r: TurnRow, target: TurnState, error: string, ex: Exchange, nowSec: int): TurnRow {
    OldTerminalProvenance(
      TelemetryOf(r, ex).(state := target, error := Some(error),
                          reply := if ex.reply == "" then r.reply else Some(ex.reply),
                          failureKind := FailureKindOf(ex.failureKind), settled := Some(nowSec)))
  }

  predicate AcceptsSnapshot(r: TurnRow) {
    r.state == Running || (r.state == Killed && r.claimedMs.Some?)
  }

  function SnapshotRow(r: TurnRow, u: TokenUsage): TurnRow {
    r.(tokens := Clamped(u), usageState := UsageReported, usageComplete := false)
  }

  // ---- Triggers that must hold against an older binary writing the same tables ----

  /** BEFORE UPDATE OF state: `ciacola_turn_enforced_claim_fence`. */
  predicate ClaimFenceAborts(before: TurnRow, after: TurnRow) {
    && before.state == Queued && after.state == Running
    && before.protectionState == Enforced && after.claimVersion < 1
  }

  /** AFTER UPDATE OF state: `ciacola_turn_old_terminal_provenance`. */
  function OldTerminalProvenance(r: TurnRow): TurnRow {
    if (r.state == Failed || r.state == Killed) && r.failureKind == NoFailure && r.claimVersion == 0
    then r.(failureKind := FailureLegacy)
    else r
  }

  /** AFTER UPDATE OF state: `ciacola_turn_settled_after_update`. */
  function SettlementStamp(r: TurnRow, nowSec: int): TurnRow {
    if r.state.Terminal() && r.settled.None? then r.(settled := Some(nowSec)) else r
  }

  // ---- Agent rows ----

  /** `roll_up_settled_turn`. */
  function RollUp(a: AgentRow, session: Option<string>, cost: i64, seqNo: nat): AgentRow
    requires a.cost >= 0 && cost >= 0
  {
    a.(session := OrElse(session, a.session),
       cost := if a.cost > I64_MAX - cost then I64_MAX else a.cost + cost,
       startedSeq := if session.Some? && (a.session != session || a.startedSeq == 0) then seqNo else a.startedSeq)
  }

  /** The agent half of `record_provider_session`. */
  function RecordSession(a: AgentRow, seqNo: nat, id: string): AgentRow {
    a.(session := Some(id),
       startedSeq := if a.session != Some(id) || a.startedSeq == 0 then seqNo else a.startedSeq)
  }

  function AssignSession(a: AgentRow, id: string): AgentRow {
    a.(session := Some(id), startedSeq := 0)
  }
}
