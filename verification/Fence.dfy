/** Two generations of writers on one file. An older binary omits the columns it
    does not know; the triggers keep the newer generation's promises anyway. */
module Fence {
  import opened Types
  import opened Capability
  import opened Limits
  import opened Rows
  import opened Database

  /** The columns an older binary knows. `settled` is `None` where it predates
      that column too. */
  datatype OldWrite = OldWrite(
    state: TurnState, reply: Option<string>, error: Option<string>, cost: i64, elapsedMs: int,
    tokens: Tokens, claimedMs: Option<int>, settled: Option<int>)

  datatype Statement =
    // Current writers.
    | Claims(nowMs: int)
    | Interrupts(target: TurnState, error: string, cost: CostState, usage: UsageState, nowMs: int, timing: Timing)
    | Aborts(error: string, nowSec: int)
    | Completes(ex: Exchange, nowSec: int)
    | Fails(target: TurnState, error: string, ex: Exchange, nowSec: int)
    | Snapshots(u: TokenUsage)
    | Confirms(id: string)
    | Inserts(prompt: string, provider: string, atUnix: int, audit: Option<AdmissionOverride>, snapshot: Snapshot)
    // Older writers.
    | OldInserts(prompt: string, atUnix: int)
    | OldUpdates(write: OldWrite)

  /** A row an older binary inserts: every newer column takes its default, and
      the provider is filled in from the agent. */
  function OldQueuedRow(prompt: string, provider: string, atUnix: int): TurnRow {
    TurnRow(prompt, Queued, None, None, 0, CostLegacy, false, 0, ElapsedLegacy, None,
            ZERO_TOKENS, UsageLegacy, false, None, provider, atUnix, None,
            None, LegacyProtection, None, 0, FailureLegacy, None)
  }

  function OldRow(r: TurnRow, w: OldWrite): TurnRow {
    r.(state := w.state, reply := w.reply, error := w.error, cost := w.cost, elapsedMs := w.elapsedMs,
       tokens := w.tokens, claimedMs := w.claimedMs, settled := if w.settled.Some? then w.settled else r.settled)
  }

  /** Which rows a statement's WHERE clause selects. An older claim selects
      queued rows only; its settlements may hit anything. */
  predicate Selects(s: Statement, r: TurnRow) {
    match s
    case Claims(_) => r.state == Queued
    case Interrupts(target, _, _, _, _, timing) =>
      target.Terminal() && r.state.InFlight() && (timing == Live || r.state == Running)
    case Aborts(_, _) => r.state == Running
    case Completes(_, _) => r.state == Running
    case Fails(target, _, _, _) => target.Terminal() && r.state.InFlight()
    case Snapshots(_) => AcceptsSnapshot(r)
    case Confirms(_) => true
    case Inserts(_, _, _, _, _) => false
    case OldInserts(_, _) => false
    case OldUpdates(w) => w.state != Queued && (w.state == Running ==> r.state == Queued)
  }

  predicate SetsState(s: Statement) { !s.Snapshots? && !s.Confirms? }

  /** The row as the statement alone would leave it. */
  function Written(s: Statement, r: TurnRow): TurnRow {
    match s
    case Claims(nowMs) => ClaimRow(r, nowMs)
    case Interrupts(target, error, cost, usage, nowMs, timing) =>
      InterruptRow(r, target, error, cost, usage, nowMs, timing)
    case Aborts(error, nowSec) => AbortRow(r, error, nowSec)
    case Completes(ex, nowSec) => CompleteRow(r, ex, nowSec)
    case Fails(target, error, ex, nowSec) =>
      TelemetryOf(r, ex).(state := target, error := Some(error),
                          reply := if ex.reply == "" then r.reply else Some(ex.reply),
                          failureKind := FailureKindOf(ex.failureKind), settled := Some(nowSec))
    case Snapshots(u) => SnapshotRow(r, u)
    case Confirms(id) => r.(providerSession := Some(id))
    case Inserts(_, _, _, _, _) => r
    case OldInserts(_, _) => r
    case OldUpdates(w) => OldRow(r, w)
  }

  /** One statement on one row, triggers included; the clock stamps a settlement
      the statement left out. */
  function Execute(turns: map<Key, TurnRow>, k: Key, s: Statement, provider: string, clock: int): map<Key, TurnRow> {
    if k !in turns then
      match s
      case Inserts(prompt, p, atUnix, audit, snapshot) => turns[k := QueuedRow(prompt, p, atUnix, audit, snapshot)]
      case OldInserts(prompt, atUnix) => turns[k := OldQueuedRow(prompt, provider, atUnix)]
      case _ => turns
    else if !Selects(s, turns[k]) then turns
    else if !SetsState(s) then turns[k := Written(s, turns[k])]
    else if ClaimFenceAborts(turns[k], Written(s, turns[k])) then turns
    else turns[k := SettlementStamp(OldTerminalProvenance(Written(s, turns[k])), clock)]
  }

  /** What the newer generation relies on. */
  predicate Fenced(r: TurnRow) {
    && (r.state == Queued ==> r.claimVersion == 0)
    && (r.state == Running && r.protectionState == Enforced ==> r.claimVersion >= 1)
    && ((r.state == Failed || r.state == Killed) && r.claimVersion == 0 ==> r.failureKind != NoFailure)
    && (r.state.Terminal() ==> r.settled.Some?)
  }

  ghost predicate AllFenced(turns: map<Key, TurnRow>) { forall k | k in turns :: Fenced(turns[k]) }

  lemma TriggersFence(r: TurnRow, s: Statement, clock: int)
    requires Fenced(r) && Selects(s, r) && SetsState(s) && !ClaimFenceAborts(r, Written(s, r))
    ensures Fenced(SettlementStamp(OldTerminalProvenance(Written(s, r)), clock))
  {
  }

  lemma StatementKeepsFence(turns: map<Key, TurnRow>, k: Key, s: Statement, provider: string, clock: int)
    requires AllFenced(turns)
    ensures AllFenced(Execute(turns, k, s, provider, clock))
  {
    if k in turns && Selects(s, turns[k]) && SetsState(s) && !ClaimFenceAborts(turns[k], Written(s, turns[k])) {
      TriggersFence(turns[k], s, clock);
    } else if k in turns {
      assert Fenced(turns[k]);
    }
  }

  datatype Step = Step(k: Key, s: Statement, provider: string, clock: int)

  function Runs(turns: map<Key, TurnRow>, steps: seq<Step>): map<Key, TurnRow>
    decreases |steps|
  {
    if steps == [] then turns
    else Runs(Execute(turns, steps[0].k, steps[0].s, steps[0].provider, steps[0].clock), steps[1..])
  }

  /** In any interleaving of current and older writers an enforced turn runs only
      under a claimant that knows of its ceiling, no version-zero failure passes
      for one the new writer classified, and every settled turn has a time. */
  lemma {:induction false} MixedWritersKeepTheFence(turns: map<Key, TurnRow>, steps: seq<Step>)
    requires AllFenced(turns)
    ensures AllFenced(Runs(turns, steps))
    decreases |steps|
  {
    if steps != [] {
      StatementKeepsFence(turns, steps[0].k, steps[0].s, steps[0].provider, steps[0].clock);
      MixedWritersKeepTheFence(Execute(turns, steps[0].k, steps[0].s, steps[0].provider, steps[0].clock), steps[1..]);
    }
  }

  /** An older claim takes effect exactly on the queued turns that carry no ceiling. */
  lemma OldClaimsAreFencedIff(
    turns: map<Key, TurnRow>, k: Key, w: OldWrite, provider: string, clock: int)
    requires AllFenced(turns) && k in turns && turns[k].state == Queued && w.state == Running
    ensures Execute(turns, k, OldUpdates(w), provider, clock)[k].state == Running <==>
            turns[k].protectionState != Enforced
    ensures turns[k].protectionState == Enforced ==> Execute(turns, k, OldUpdates(w), provider, clock) == turns
  {
    assert Fenced(turns[k]);
  }

  /** The triggers leave what current writers write alone: the same statements
      with triggers are the table functions the protocol is made of. */
  lemma TriggersSpareCurrentWriters(db: Db, k: Key, provider: string, clock: int)
    requires AllFenced(db.turns)
    ensures forall nowMs :: Execute(db.turns, k, Claims(nowMs), provider, clock) == ClaimTurn(db, k, nowMs).turns
    ensures forall error, nowSec ::
              Execute(db.turns, k, Aborts(error, nowSec), provider, clock) == AbortTurn(db, k, error, nowSec).turns
    ensures forall u :: Execute(db.turns, k, Snapshots(u), provider, clock) == RecordUsage(db, k, u).turns
  {
  }

  lemma TriggersSpareInterruptions(
    db: Db, registry: Registry, k: Key, target: TurnState, error: string, nowMs: int,
    timing: Timing, provider: string, clock: int)
    requires AllFenced(db.turns) && target.Terminal()
    ensures Execute(db.turns, k, Interrupts(target, error, UnavailableCost(db, registry, k.agent),
                                            UnavailableUsage(db, registry, k.agent), nowMs, timing), provider, clock)
         == Interrupt(db, registry, k, target, error, nowMs, timing).turns
  {
  }

  lemma TriggersSpareCompletion(db: Db, k: Key, ex: Exchange, nowSec: int, provider: string, clock: int)
    requires AllFenced(db.turns) && CostsNonNegative(db)
    ensures Execute(db.turns, k, Completes(ex, nowSec), provider, clock) == CompleteTurn(db, k, ex, nowSec).turns
  {
  }

  lemma TriggersMakeTheFailedRow(r: TurnRow, target: TurnState, error: string, ex: Exchange, nowSec: int, clock: int)
    ensures SettlementStamp(OldTerminalProvenance(Written(Fails(target, error, ex, nowSec), r)), clock)
         == FailRow(r, target, error, ex, nowSec)
  {
  }

  lemma TriggersSpareFailure(
    db: Db, k: Key, target: TurnState, error: string, ex: Exchange, nowSec: int, provider: string, clock: int)
    requires CostsNonNegative(db) && target.Terminal()
    ensures Execute(db.turns, k, Fails(target, error, ex, nowSec), provider, clock)
         == FailExchange(db, k, target, error, ex, nowSec).turns
  {
    if k in db.turns {
      TriggersMakeTheFailedRow(db.turns[k], target, error, ex, nowSec, clock);
    }
  }
}
