/** What every statement leaves in the columns, told from the row it found, the
    agent's backend and what the provider reported. */
module Columns {
  import opened Types
  import opened Capability
  import opened Limits
  import opened Rows
  import opened Database

  /** Only turn `k` is written, and no agent. */
  predicate WritesOnly(before: Db, after: Db, k: Key) {
    && after.agents == before.agents && after.turns.Keys == before.turns.Keys
    && forall j | j in before.turns && j != k :: after.turns[j] == before.turns[j]
  }

  /** What a turn was asked to do, and when it was asked and claimed. */
  predicate SameTurn(r: TurnRow, s: TurnRow) {
    && s.prompt == r.prompt && s.provider == r.provider && s.atUnix == r.atUnix
    && s.admissionOverride == r.admissionOverride
    && s.protectionState == r.protectionState && s.protection == r.protection
    && s.claimedMs == r.claimedMs && s.claimVersion == r.claimVersion
  }

  /** It is known that no provider was asked: nothing spent, nothing used. */
  predicate NeverRan(r: TurnRow) {
    && r.cost == 0 && r.costState == CostReported && r.costComplete
    && r.tokens == Tokens(0, 0, 0) && r.usageState == UsageReported && r.usageComplete
    && r.providerTurns == Some(0) && r.elapsedState == NotAttempted && r.failureKind == FailureNotAttempted
  }

  predicate SettledAs(r: TurnRow, state: TurnState, error: Option<string>, nowSec: int) {
    r.state == state && r.error == error && r.settled == Some(nowSec)
  }

  /** A backend linked here, for the definition its agent has now. */
  predicate Linked(db: Db, registry: Registry, a: string) { a in db.agents && db.agents[a].def.provider in registry }

  /** A turn cut short while it ran: its cost is lost, or was never going to be
      told; its tokens are those streamed, or lost, or were never going to be told. */
  predicate CutShort(db: Db, registry: Registry, a: string, before: TurnRow, r: TurnRow) {
    var linked := Linked(db, registry, a);
    && r.cost == 0 && !r.costComplete && !r.usageComplete && r.providerTurns == None
    && r.failureKind == ReportedFailureKind
    && (r.costState == CostNotPriced <==> linked && !registry[db.agents[a].def.provider].reportsCost)
    && (r.costState == CostUnreported <==> linked ==> registry[db.agents[a].def.provider].reportsCost)
    && if before.usageState == UsageReported then r.usageState == UsageReported && r.tokens == before.tokens
       else
         && r.tokens == Tokens(0, 0, 0)
         && (r.usageState == UsageNotTracked <==> linked && !registry[db.agents[a].def.provider].reportsTokenUsage)
         && (r.usageState == UsageUnreported <==> linked ==> registry[db.agents[a].def.provider].reportsTokenUsage)
  }

  /** The time since the claim when it is known, at least; measured only by the
      process that was there. */
  predicate Timed(before: TurnRow, r: TurnRow, nowMs: int, timing: Timing) {
    && (r.elapsedState == ElapsedUnknown <==> before.claimedMs == None)
    && (r.elapsedState == Measured <==> before.claimedMs.Some? && timing == Live)
    && (r.elapsedState == UpperBound <==> before.claimedMs.Some? && timing == Recovery)
    && r.elapsedMs >= before.elapsedMs && r.elapsedMs >= 0
    && (before.claimedMs.Some? ==> r.elapsedMs >= nowMs - before.claimedMs.value)
    && (r.elapsedMs in {before.elapsedMs, 0}
        || (before.claimedMs.Some? && r.elapsedMs == nowMs - before.claimedMs.value))
  }

  lemma RunningRowColumns(
    db: Db, registry: Registry, a: string, before: TurnRow, target: TurnState, error: string, nowMs: int,
    timing: Timing)
    requires before.state == Running
    ensures var r := InterruptRow(before, target, error, UnavailableCost(db, registry, a),
                                  UnavailableUsage(db, registry, a), nowMs, timing);
            && SameTurn(before, r) && SettledAs(r, target, Some(error), nowMs / 1000)
            && r.reply == before.reply && r.providerSession == before.providerSession
            && CutShort(db, registry, a, before, r) && Timed(before, r, nowMs, timing)
  {
  }

  lemma QueuedRowColumns(
    db: Db, registry: Registry, a: string, before: TurnRow, target: TurnState, error: string, nowMs: int,
    timing: Timing)
    requires before.state == Queued
    ensures var r := InterruptRow(before, target, error, UnavailableCost(db, registry, a),
                                  UnavailableUsage(db, registry, a), nowMs, timing);
            && SameTurn(before, r) && SettledAs(r, target, Some(error), nowMs / 1000) && NeverRan(r)
            && r.reply == before.reply && r.providerSession == before.providerSession
  {
  }

  /** A kill or a recovery ends what it finds running with everything it cannot
      know marked as such; a kill ends what it finds queued as never run; and
      neither changes anything else. */
  lemma InterruptionColumns(
    db: Db, registry: Registry, k: Key, target: TurnState, error: string, nowMs: int, timing: Timing)
    requires k in db.turns
    ensures var after := Interrupt(db, registry, k, target, error, nowMs, timing);
            && WritesOnly(db, after, k)
            && var before, r := db.turns[k], after.turns[k];
               match before.state
               case Running =>
                 && SameTurn(before, r) && SettledAs(r, target, Some(error), nowMs / 1000)
                 && r.reply == before.reply && r.providerSession == before.providerSession
                 && CutShort(db, registry, k.agent, before, r) && Timed(before, r, nowMs, timing)
               case Queued =>
                 if timing == Recovery then r == before
                 else
                   && SameTurn(before, r) && SettledAs(r, target, Some(error), nowMs / 1000) && NeverRan(r)
                   && r.reply == before.reply && r.providerSession == before.providerSession
               case _ => r == before
  {
    if db.turns[k].state == Running {
      RunningRowColumns(db, registry, k.agent, db.turns[k], target, error, nowMs, timing);
    } else if db.turns[k].state == Queued {
      QueuedRowColumns(db, registry, k.agent, db.turns[k], target, error, nowMs, timing);
    }
  }

  /** A claim starts a queued turn under this version's fence, and nothing else. */
  lemma ClaimColumns(db: Db, k: Key, nowMs: int)
    requires k in db.turns
    ensures var after := ClaimTurn(db, k, nowMs);
            && WritesOnly(db, after, k)
            && var before, r := db.turns[k], after.turns[k];
               if before.state != Queued then r == before
               else
                 && r.state == Running && r.claimedMs == Some(nowMs) && r.claimVersion == 1
                 && r.(state := Queued, claimedMs := before.claimedMs, claimVersion := before.claimVersion) == before
  {
  }

  /** An abort ends a running turn as one that never ran. */
  lemma AbortColumns(db: Db, k: Key, error: string, nowSec: int)
    requires k in db.turns
    ensures var after := AbortTurn(db, k, error, nowSec);
            && WritesOnly(db, after, k)
            && var before, r := db.turns[k], after.turns[k];
               if before.state != Running then r == before
               else
                 && SameTurn(before, r) && SettledAs(r, Failed, Some(error), nowSec) && NeverRan(r) && r.elapsedMs == 0
                 && r.reply == before.reply && r.providerSession == before.providerSession
  {
  }

  predicate HoldsTokens(t: Tokens, u: TokenUsage) {
    && t.input == Min(u.input, I64_MAX) && t.output == Min(u.output, I64_MAX) && t.cached == Min(u.cached, I64_MAX)
  }

  /** A late or streamed snapshot stands as a partial report on a running turn, or
      on a killed one that had been claimed. */
  lemma SnapshotColumns(db: Db, k: Key, u: TokenUsage)
    requires k in db.turns
    ensures var after := RecordUsage(db, k, u);
            && WritesOnly(db, after, k)
            && var before, r := db.turns[k], after.turns[k];
               if before.state == Running || (before.state == Killed && before.claimedMs != None) then
                 && HoldsTokens(r.tokens, u) && r.usageState == UsageReported && !r.usageComplete
                 && r.(tokens := before.tokens, usageState := before.usageState,
                       usageComplete := before.usageComplete) == before
               else r == before
  {
  }

  // ---- Finished exchanges ----

  /** The row says of the cost what the exchange says. */
  predicate TellsCost(r: TurnRow, ex: Exchange) {
    match ex.cost
    case Reported(microUsd) =>
      r.costState == CostReported && r.cost == Min(microUsd, I64_MAX) && r.costComplete == ex.costComplete
    case Unreported => r.costState == CostUnreported && r.cost == 0 && !r.costComplete
    case NotPriced => r.costState == CostNotPriced && r.cost == 0 && !r.costComplete
  }

  /** And of the tokens: what was streamed stands only while the exchange has
      nothing to say. */
  predicate TellsUsage(before: TurnRow, r: TurnRow, ex: Exchange) {
    match ex.usage
    case Tracked(tokens) =>
      r.usageState == UsageReported && HoldsTokens(r.tokens, tokens) && r.usageComplete == ex.usageComplete
    case _ =>
      && !r.usageComplete
      && if before.usageState == UsageReported then r.usageState == UsageReported && r.tokens == before.tokens
         else
           && r.tokens == Tokens(0, 0, 0)
           && r.usageState == if ex.usage.Missing? then UsageUnreported else UsageNotTracked
  }

  predicate TellsExchange(before: TurnRow, r: TurnRow, ex: Exchange) {
    && SameTurn(before, r) && TellsCost(r, ex) && TellsUsage(before, r, ex)
    && r.elapsedState == Measured && r.elapsedMs == Min(ex.elapsedMs, I64_MAX)
    && r.providerTurns == ex.providerTurns
    && r.providerSession == (if ex.session.Some? then ex.session else before.providerSession)
  }

  /** The agent's money and conversation after one of its turns settled: it is
      billed what the row says; a conversation begins with the turn that names a
      new one or opens the one chosen for it. */
  predicate Billed(before: AgentRow, r: AgentRow, ex: Exchange, cost: int, seqNo: nat) {
    && r.cost == Min(before.cost + cost, I64_MAX)
    && r.def == before.def && r.retired == before.retired && r.spawnedBy == before.spawnedBy
    && match ex.session
       case None => r.session == before.session && r.startedSeq == before.startedSeq
       case Some(id) =>
         && r.session == Some(id)
         && r.startedSeq == if before.session == Some(id) && before.startedSeq != 0 then before.startedSeq else seqNo
  }

  /** One turn is written and at most its agent, as the exchange has it. */
  ghost predicate Settles(before: Db, after: Db, k: Key, ex: Exchange)
    requires k in before.turns && k in after.turns
  {
    && after.turns.Keys == before.turns.Keys && after.agents.Keys == before.agents.Keys
    && (forall j | j in before.turns && j != k :: after.turns[j] == before.turns[j])
    && (forall a | a in before.agents && a != k.agent :: after.agents[a] == before.agents[a])
    && TellsExchange(before.turns[k], after.turns[k], ex)
    && (k.agent in before.agents ==>
          Billed(before.agents[k.agent], after.agents[k.agent], ex, after.turns[k].cost, k.seqNo))
  }

  lemma TelemetryTells(r: TurnRow, ex: Exchange)
    ensures TellsExchange(r, TelemetryOf(r, ex), ex)
  {
  }

  /** A completed exchange settles the turn while it runs, with its reply, and
      otherwise changes nothing. */
  lemma CompletionColumns(db: Db, k: Key, ex: Exchange, nowSec: int)
    requires CostsNonNegative(db) && k in db.turns
    ensures var after := CompleteTurn(db, k, ex, nowSec);
            if db.turns[k].state != Running then after == db
            else
              && k in after.turns && Settles(db, after, k, ex)
              && var r := after.turns[k];
                 && SettledAs(r, Ok, db.turns[k].error, nowSec)
                 && r.reply == Some(ex.reply) && r.failureKind == NoFailure
  {
    TelemetryTells(db.turns[k], ex);
  }

  predicate FailsAs(before: TurnRow, r: TurnRow, target: TurnState, error: string, ex: Exchange, nowSec: int) {
    && SettledAs(r, target, Some(error), nowSec) && r.reply == (if ex.reply == "" then before.reply else Some(ex.reply))
    && (r.failureKind == LimitFailureKind <==> ex.failureKind == Some(LimitFailure))
    && (r.failureKind == ReportedFailureKind <==> ex.failureKind == Some(ReportedFailure))
    && (r.failureKind == FailureLegacy <==> ex.failureKind == None && target != Ok && before.claimVersion == 0)
  }

  lemma FailureTells(r: TurnRow, target: TurnState, error: string, ex: Exchange, nowSec: int)
    requires target.Terminal()
    ensures TellsExchange(r, FailRow(r, target, error, ex, nowSec), ex)
    ensures FailsAs(r, FailRow(r, target, error, ex, nowSec), target, error, ex, nowSec)
    ensures FailRow(r, target, error, ex, nowSec).cost == BankedCost(ex)
  {
    TelemetryTells(r, ex);
  }

  /** A failed one settles it while it is in flight, keeping the error, its kind
      and a reply if there was one. */
  lemma FailureColumns(db: Db, k: Key, target: TurnState, error: string, ex: Exchange, nowSec: int)
    requires CostsNonNegative(db) && k in db.turns && target.Terminal()
    ensures var after := FailExchange(db, k, target, error, ex, nowSec);
            if db.turns[k].state.Terminal() then after == db
            else
              && k in after.turns && Settles(db, after, k, ex)
              && FailsAs(db.turns[k], after.turns[k], target, error, ex, nowSec)
  {
    if !db.turns[k].state.Terminal() {
      FailureTells(db.turns[k], target, error, ex, nowSec);
      var row := FailRow(db.turns[k], target, error, ex, nowSec);
      assert FailExchange(db, k, target, error, ex, nowSec).turns == db.turns[k := row];
    }
  }

  // ---- Sessions and agents ----

  /** A name the provider confirms becomes the agent's conversation, begun by this
      turn unless it was open already, and stays with the turn. */
  lemma ConfirmationColumns(db: Db, k: Key, id: string)
    ensures var after := RecordProviderSession(db, k, id);
            && after.agents.Keys == db.agents.Keys && after.turns.Keys == db.turns.Keys
            && (forall j | j in db.turns ::
                  after.turns[j] == if j == k then db.turns[j].(providerSession := Some(id)) else db.turns[j])
            && (forall a | a in db.agents && a != k.agent :: after.agents[a] == db.agents[a])
            && (k.agent in db.agents ==>
                  var before, r := db.agents[k.agent], after.agents[k.agent];
                  && r == before.(session := r.session, startedSeq := r.startedSeq)
                  && r.session == Some(id)
                  && (r.startedSeq == before.startedSeq || r.startedSeq == k.seqNo)
                  && (before.session == Some(id) && before.startedSeq > 0 ==> r.startedSeq == before.startedSeq)
                  && (before.session != Some(id) || before.startedSeq == 0 ==> r.startedSeq == k.seqNo))
  {
  }

  /** An agent retires exactly when it is active and none of its turns is waiting
      or running, and keeps everything else. */
  lemma RetirementColumns(db: Db, a: string)
    ensures var after := Retire(db, a);
            && after.turns == db.turns && after.agents.Keys == db.agents.Keys
            && (forall b | b in db.agents && b != a :: after.agents[b] == db.agents[b])
            && (a in db.agents ==>
                  && after.agents[a].(retired := db.agents[a].retired) == db.agents[a]
                  && (after.agents[a].retired <==>
                        || db.agents[a].retired
                        || forall k | k in db.turns && k.agent == a :: db.turns[k].state.Terminal()))
  {
    assert HasInFlight(db, a) <==> exists k | k in db.turns :: k.agent == a && db.turns[k].state.InFlight();
  }

  /** A new agent is active, free of cost, and has a conversation nobody opened. */
  lemma CreationColumns(db: Db, a: string, def: AgentDef, session: string, spawnedBy: Option<string>)
    requires a !in db.agents
    ensures var after := CreateAgent(db, a, def, session, spawnedBy);
            && after.turns == db.turns && after.agents.Keys == db.agents.Keys + {a}
            && (forall b | b in db.agents :: after.agents[b] == db.agents[b])
            && var r := after.agents[a];
               && r.def == def && r.session == Some(session) && r.startedSeq == 0
               && r.cost == 0 && !r.retired && r.spawnedBy == spawnedBy
  {
  }

  /** A definition may be replaced while it stays with its backend or before the
      first turn is recorded, and then nothing else of the agent changes. */
  lemma RedefinitionColumns(db: Db, a: string, def: AgentDef)
    ensures MayRedefine(db, a, def) <==>
            || (a in db.agents ==> db.agents[a].def.provider == def.provider)
            || {} == set k | k in db.turns && k.agent == a
    ensures var after := UpdateDef(db, a, def);
            && after.turns == db.turns && after.agents.Keys == db.agents.Keys
            && (forall b | b in db.agents ::
                  after.agents[b].(def := db.agents[b].def) == db.agents[b]
                  && after.agents[b].def == if b == a then def else db.agents[b].def)
  {
    var own := set k | k in db.turns && k.agent == a;
    if !MayRedefine(db, a, def) {
      var k :| k in db.turns && k.agent == a;
      assert k in own;
    }
    if own != {} {
      var k :| k in own;
    }
  }

  /** A stored definition is sealed or sandboxed when it asks to be, or does not
      say and the server is; it has its own home when it asks for one or the
      server keeps one for that backend; the rest is as asked. */
  lemma StoredDefinition(runtime: Runtime, request: DefRequest)
    ensures var def := NormalizedDef(runtime, request);
            && (def.wants.sealed <==> request.hermetic == Some(true) || (request.hermetic == None && runtime.hermetic))
            && (def.wants.sandboxed <==> request.sandbox == Some(true) || (request.sandbox == None && runtime.sandbox))
            && (def.wants.ownConfigHome <==>
                  || request.wants.ownConfigHome
                  || (def.provider == "codex" && runtime.codexHome)
                  || (def.provider != "codex" && runtime.claudeHome))
            && (request.provider == None ==> def.provider == runtime.defaultProvider)
            && (request.provider != None ==> request.provider == Some(def.provider))
            && def.rotateAfter == request.rotateAfter
            && def.wants == request.wants.(sealed := def.wants.sealed, sandboxed := def.wants.sandboxed,
                                           ownConfigHome := def.wants.ownConfigHome)
  {
  }
}
