/** One Claude turn from its stream to the row: the result is selected, turned
    into an exchange and settled, and no observed token is lost or added twice. */
module ClaudeTurn {
  import opened Types
  import opened Capability
  import opened Rows
  import opened ClaudeStream

  /** How the child's stream ended. */
  datatype StreamEnd = Closed | Broke(message: string, launched: bool)

  datatype TurnFailure = TurnFailure(message: string, kind: ExchangeFailure)

  datatype Outcome = Outcome(
    reply: string, resume: Option<string>, cost: Cost, usage: Usage, providerTurns: Option<nat>,
    failure: Option<TurnFailure>)

  /** What is known of a run that ended without a result. */
  datatype Partial = Partial(resume: Option<string>, usage: Option<TokenUsage>, elapsedMs: u64)

  datatype Run = Answered(outcome: Outcome) | Errored(message: string, partial: Option<Partial>)

  /** `result_failure`: a limit the caller set, or anything else. */
  function ResultFailure(r: QueryResult): TurnFailure {
    var message :=
      if Trim(r.reply) != "" then Trim(r.reply)
      else if r.errors != [] && r.errors[0].Some? then r.errors[0].value
      else "claude reported an error";
    if r.subtype == Some("error_max_turns") || r.subtype == Some("error_max_budget_usd")
    then TurnFailure(Lower(message), LimitFailure)
    else TurnFailure(message, ReportedFailure)
  }

  /** `from_query_result` */
  function FromQueryResult(r: QueryResult): Outcome {
    Outcome(
      Trim(r.reply),
      if r.session != "" then Some(r.session) else None,
      if r.costMicroUsd.Some? then Reported(r.costMicroUsd.value) else Unreported,
      if ReportedUsage(r).Some? then Tracked(ReportedUsage(r).value) else Missing,
      r.providerTurns,
      if r.isError then Some(ResultFailure(r)) else None)
  }

  /** `from_stream_result`: the result first, then what the stream had shown. */
  function FromStreamResult(r: QueryResult, cumulative: Option<TokenUsage>, fallback: Option<string>): Outcome {
    var outcome := FromQueryResult(r);
    var measured :=
      if outcome.usage == Missing && cumulative.Some? then outcome.(usage := Tracked(cumulative.value)) else outcome;
    if measured.resume.None? then measured.(resume := fallback) else measured
  }

  function LastResult(events: seq<StreamEvent>): Option<QueryResult> {
    if events == [] then None
    else
      var e := events[|events| - 1];
      if e.body.Terminal? then Some(e.body.result) else LastResult(events[..|events| - 1])
  }

  function LastError(events: seq<StreamEvent>): Option<string> {
    if events == [] then None
    else
      var e := events[|events| - 1];
      if e.body.Malformed? then Some(e.body.error) else LastError(events[..|events| - 1])
  }

  function LastSession(events: seq<StreamEvent>): Option<string> {
    if events == [] then None else OrElse(events[|events| - 1].session, LastSession(events[..|events| - 1]))
  }

  /** What the stream as a whole says the turn was. */
  ghost function RunOf(events: seq<StreamEvent>, end: StreamEnd, intended: Option<string>, elapsedMs: u64): Run {
    if LastResult(events).Some? then
      Answered(FromStreamResult(LastResult(events).value, Cumulative(events), OrElse(LastSession(events), intended)))
    else
      var partial := Some(Partial(LastSession(events), Cumulative(events), elapsedMs));
      if LastError(events).Some? then Errored(LastError(events).value, partial)
      else match end
        case Closed => Errored("claude stream ended without a result event", partial)
        case Broke(message, launched) => Errored(message, if launched then partial else None)
  }

  /** The conversation the adapter announces before it returns. */
  function Announced(run: Run, observed: Option<string>): Option<string> {
    match run
    case Answered(outcome) => outcome.resume
    case Errored(_, _) => observed
  }

  /** `run_turn_with_client`: feed every event, hand over every snapshot, then
      select the result. */
  method RunTurn(events: seq<StreamEvent>, end: StreamEnd, intended: Option<string>, elapsedMs: u64)
    returns (published: seq<TokenUsage>, announced: Option<string>, run: Run)
    ensures published == Published(events)
    ensures run == RunOf(events, end, intended, elapsedMs)
    ensures announced == Announced(run, LastSession(events))
  {
    var observations := new StreamObservations();
    published := [];
    for i := 0 to |events|
      invariant fresh(observations) && observations.Valid() && observations.events == events[..i]
      invariant published == Published(events[..i])
      invariant observations.terminal == LastResult(events[..i])
      invariant observations.parseError == LastError(events[..i])
      invariant observations.resume == LastSession(events[..i])
    {
      ghost var seen := events[..i + 1];
      assert seen[..i] == events[..i] && seen == events[..i] + [events[i]];
      var snapshot := observations.Observe(events[i]);
      if snapshot.Some? {
        published := published + [snapshot.value];
      }
    }
    assert events[..|events|] == events;
    var resume, usage := observations.resume, observations.cumulative;
    if observations.terminal.Some? {
      var outcome := FromStreamResult(observations.terminal.value, usage, OrElse(resume, intended));
      return published, outcome.resume, Answered(outcome);
    }
    announced := resume;
    var partial := Some(Partial(resume, usage, elapsedMs));
    if observations.parseError.Some? {
      return published, announced, Errored(observations.parseError.value, partial);
    }
    match end {
      case Closed => run := Errored("claude stream ended without a result event", partial);
      case Broke(message, launched) => run := Errored(message, if launched then partial else None);
    }
  }

  // ---- The exchange ----

  /** `exchange_from` */
  function ExchangeFrom(o: Outcome, elapsedMs: u64): Exchange {
    Exchange(o.reply, o.resume, o.cost, o.cost.Reported?, o.usage, o.usage.Tracked?, o.providerTurns, elapsedMs,
             if o.failure.Some? then Some(o.failure.value.message) else None,
             if o.failure.Some? then Some(o.failure.value.kind) else None)
  }

  /** `partial_exchange`: what a broken run is recorded as. */
  function PartialExchange(message: string, p: Partial, caps: Capabilities): Exchange {
    Exchange("", p.resume, if caps.reportsCost then Unreported else NotPriced, false,
             if p.usage.Some? then Tracked(p.usage.value) else if caps.reportsTokenUsage then Missing else NotTracked,
             false, None, p.elapsedMs, Some(message), Some(ReportedFailure))
  }

  /** `None` when the turn did not happen at all. */
  function ExchangeOf(run: Run, caps: Capabilities, elapsedMs: u64): Option<Exchange> {
    match run
    case Answered(outcome) => Some(ExchangeFrom(outcome, elapsedMs))
    case Errored(message, partial) =>
      if partial.Some? then Some(PartialExchange(message, partial.value, caps)) else None
  }

  /** How an exchange settles a running row. */
  function SettledRow(r: TurnRow, ex: Exchange, nowSec: int): TurnRow {
    if ex.error.Some? then FailRow(r, Failed, ex.error.value, ex, nowSec) else CompleteRow(r, ex, nowSec)
  }

  /** The row as the detached writer left it after the snapshots it was handed. */
  predicate HoldsSnapshots(r: TurnRow, published: seq<TokenUsage>) {
    if published == [] then r.usageState != UsageReported
    else r.usageState == UsageReported && r.tokens == Clamped(published[|published| - 1])
  }

  /** The same, in terms of the accumulator. */
  predicate HoldsUsage(r: TurnRow, cumulative: Option<TokenUsage>) {
    if cumulative.None? then r.usageState != UsageReported
    else r.usageState == UsageReported && r.tokens == Clamped(cumulative.value)
  }

  lemma AnsweredRow(
    r: TurnRow, result: QueryResult, cumulative: Option<TokenUsage>, fallback: Option<string>, elapsedMs: u64,
    nowSec: int)
    requires HoldsUsage(r, cumulative)
    ensures var row := SettledRow(r, ExchangeFrom(FromStreamResult(result, cumulative, fallback), elapsedMs), nowSec);
            var usage := OrElse(ReportedUsage(result), cumulative);
            if usage.Some?
            then row.tokens == Clamped(usage.value) && row.usageState == UsageReported && row.usageComplete
            else row.tokens == ZERO_TOKENS && row.usageState == UsageUnreported && !row.usageComplete
  {
    var ex := ExchangeFrom(FromStreamResult(result, cumulative, fallback), elapsedMs);
    var usage := OrElse(ReportedUsage(result), cumulative);
    assert ex.usage == if usage.Some? then Tracked(usage.value) else Missing;
    TelemetryDecidesTokens(r, ex, nowSec);
  }

  /** Both settlements leave the tokens to the telemetry columns. */
  lemma TelemetryDecidesTokens(r: TurnRow, ex: Exchange, nowSec: int)
    ensures var row := SettledRow(r, ex, nowSec);
            var telemetry := TelemetryOf(r, ex);
            && row.tokens == telemetry.tokens && row.usageState == telemetry.usageState
            && row.usageComplete == telemetry.usageComplete && row.costComplete == telemetry.costComplete
            && row.state == if ex.error.Some? then Failed else Ok
  {
  }

  lemma ErroredRow(
    r: TurnRow, message: string, p: Partial, caps: Capabilities, nowSec: int)
    requires HoldsUsage(r, p.usage)
    ensures var row := SettledRow(r, PartialExchange(message, p, caps), nowSec);
            && row.state == Failed && !row.usageComplete && !row.costComplete
            && if p.usage.Some? then row.tokens == Clamped(p.usage.value) && row.usageState == UsageReported
               else row.tokens == ZERO_TOKENS && row.usageState != UsageReported
  {
    TelemetryDecidesTokens(r, PartialExchange(message, p, caps), nowSec);
  }

  // ---- The row a stream settles to ----

  /** The last result of the stream. */
  predicate LastResultIs(events: seq<StreamEvent>, r: QueryResult) {
    exists i | 0 <= i < |events| ::
      events[i].body == Terminal(r) && forall j | i < j < |events| :: !events[j].body.Terminal?
  }

  predicate NoResult(events: seq<StreamEvent>) { forall e | e in events :: !e.body.Terminal? }

  /** The conversation the stream named last. */
  predicate LastNameIs(events: seq<StreamEvent>, id: string) {
    exists i | 0 <= i < |events| ::
      events[i].session == Some(id) && forall j | i < j < |events| :: events[j].session == None
  }

  predicate NoName(events: seq<StreamEvent>) { forall e | e in events :: e.session == None }

  /** The complaint about a result that could not be read, the last one. */
  predicate LastComplaintIs(events: seq<StreamEvent>, error: string) {
    exists i | 0 <= i < |events| ::
      events[i].body == Malformed(error) && forall j | i < j < |events| :: !events[j].body.Malformed?
  }

  lemma {:induction false} LastResultFound(events: seq<StreamEvent>)
    ensures LastResult(events).Some? ==> LastResultIs(events, LastResult(events).value)
    ensures LastResult(events).None? <==> NoResult(events)
    ensures forall r :: LastResultIs(events, r) ==> LastResult(events) == Some(r)
  {
    if events != [] {
      var n := |events| - 1;
      assert events == events[..n] + [events[n]] && events[n] in events;
      if !events[n].body.Terminal? {
        LastResultFound(events[..n]);
        forall r ensures LastResultIs(events, r) <==> LastResultIs(events[..n], r) {
          ResultIsEarlier(events, r);
        }
      }
    }
  }

  lemma ResultIsEarlier(events: seq<StreamEvent>, r: QueryResult)
    requires events != [] && !events[|events| - 1].body.Terminal?
    ensures LastResultIs(events, r) <==> LastResultIs(events[..|events| - 1], r)
  {
    var init := events[..|events| - 1];
    assert forall i | 0 <= i < |init| :: init[i] == events[i];
  }

  lemma {:induction false} LastNameFound(events: seq<StreamEvent>)
    ensures LastSession(events).Some? ==> LastNameIs(events, LastSession(events).value)
    ensures LastSession(events).None? <==> NoName(events)
    ensures forall id :: LastNameIs(events, id) ==> LastSession(events) == Some(id)
  {
    if events != [] {
      var n := |events| - 1;
      assert events == events[..n] + [events[n]] && events[n] in events;
      if events[n].session == None {
        LastNameFound(events[..n]);
        forall id ensures LastNameIs(events, id) <==> LastNameIs(events[..n], id) {
          NameIsEarlier(events, id);
        }
      }
    }
  }

  lemma NameIsEarlier(events: seq<StreamEvent>, id: string)
    requires events != [] && events[|events| - 1].session == None
    ensures LastNameIs(events, id) <==> LastNameIs(events[..|events| - 1], id)
  {
    var init := events[..|events| - 1];
    assert forall i | 0 <= i < |init| :: init[i] == events[i];
  }

  lemma {:induction false} LastComplaintFound(events: seq<StreamEvent>)
    ensures LastError(events).Some? ==> LastComplaintIs(events, LastError(events).value)
    ensures forall error :: LastComplaintIs(events, error) ==> LastError(events) == Some(error)
  {
    if events != [] {
      var n := |events| - 1;
      if !events[n].body.Malformed? {
        LastComplaintFound(events[..n]);
        forall error ensures LastComplaintIs(events, error) <==> LastComplaintIs(events[..n], error) {
          ComplaintIsEarlier(events, error);
        }
      }
    }
  }

  lemma ComplaintIsEarlier(events: seq<StreamEvent>, error: string)
    requires events != [] && !events[|events| - 1].body.Malformed?
    ensures LastComplaintIs(events, error) <==> LastComplaintIs(events[..|events| - 1], error)
  {
    var init := events[..|events| - 1];
    assert forall i | 0 <= i < |init| :: init[i] == events[i];
  }

  /** A result that says it is an error, of a limit the caller set or any other. */
  predicate LimitHit(r: QueryResult) {
    r.isError && r.subtype in {Some("error_max_turns"), Some("error_max_budget_usd")}
  }

  /** What the result complains of: its reply, else its first error, else a fixed
      text; in lower case for a limit. */
  ghost predicate Complains(r: QueryResult, message: string) {
    if !Blank(r.reply) then exists t :: Trims(r.reply, t) && message == if LimitHit(r) then Lower(t) else t
    else
      var text := if r.errors != [] && r.errors[0] != None then r.errors[0].value else "claude reported an error";
      message == if LimitHit(r) then Lower(text) else text
  }

  /** How a result reads in the row it settles: its verdict, its words, its price. */
  ghost predicate ReadsAs(before: TurnRow, row: TurnRow, r: QueryResult) {
    && (row.state == Ok <==> !r.isError) && (row.state == Failed <==> r.isError)
    && (row.failureKind == LimitFailureKind <==> LimitHit(r))
    && (row.failureKind == ReportedFailureKind <==> r.isError && !LimitHit(r))
    && (if r.isError then row.error.Some? && Complains(r, row.error.value) else row.error == before.error)
    && (if r.isError && Blank(r.reply) then row.reply == before.reply
        else row.reply.Some? && Trims(r.reply, row.reply.value))
    && row.providerTurns == r.providerTurns
    && match r.costMicroUsd
       case Some(microUsd) => row.costState == CostReported && row.cost == Min(microUsd, I64_MAX) && row.costComplete
       case None => row.costState == CostUnreported && row.cost == 0 && !row.costComplete
  }

  /** The conversation the row keeps: the result's, else the one last named in the
      stream, else the one that was asked for, else the one it had. */
  predicate KeepsName(
    before: TurnRow, row: TurnRow, own: string, events: seq<StreamEvent>, intended: Option<string>)
  {
    if own != "" then row.providerSession == Some(own)
    else if NoName(events) then
      row.providerSession == if intended != None then intended else before.providerSession
    else row.providerSession.Some? && LastNameIs(events, row.providerSession.value)
  }

  lemma ErrorReads(r: TurnRow, ex: Exchange, nowSec: int, result: QueryResult)
    requires result.isError && ex.reply == Trim(result.reply)
    requires ex.error == Some(ResultFailure(result).message) && ex.failureKind == Some(ResultFailure(result).kind)
    ensures var row := SettledRow(r, ex, nowSec);
            && row.state == Failed && row.error.Some? && Complains(result, row.error.value)
            && row.failureKind == (if LimitHit(result) then LimitFailureKind else ReportedFailureKind)
            && if Blank(result.reply) then row.reply == r.reply
               else row.reply.Some? && Trims(result.reply, row.reply.value)
  {
    TrimCutsBothEnds(result.reply);
    TrimKeepsBlankness(result.reply);
  }

  lemma SuccessReads(r: TurnRow, ex: Exchange, nowSec: int, result: QueryResult)
    requires !result.isError && ex.reply == Trim(result.reply) && ex.error == None
    ensures var row := SettledRow(r, ex, nowSec);
            && row.state == Ok && row.error == r.error && row.failureKind == NoFailure
            && row.reply.Some? && Trims(result.reply, row.reply.value)
  {
    TrimCutsBothEnds(result.reply);
  }

  lemma PriceReads(r: TurnRow, ex: Exchange, nowSec: int)
    ensures var row := SettledRow(r, ex, nowSec);
            && row.providerTurns == ex.providerTurns
            && row.cost == SaturatedI64(ex.cost.MicroUsdOrZero()) && row.costState == CostStateOf(ex.cost)
            && row.costComplete == (ex.cost.Reported? && ex.costComplete)
            && row.elapsedState == Measured && row.elapsedMs == Min(ex.elapsedMs, I64_MAX)
            && row.settled == Some(nowSec)
            && row.providerSession == OrElse(ex.session, r.providerSession)
  {
  }

  lemma ResultReads(
    r: TurnRow, result: QueryResult, cumulative: Option<TokenUsage>, fallback: Option<string>, elapsedMs: u64,
    nowSec: int)
    ensures ReadsAs(r, SettledRow(r, ExchangeFrom(FromStreamResult(result, cumulative, fallback), elapsedMs), nowSec),
                    result)
  {
    var ex := ExchangeFrom(FromStreamResult(result, cumulative, fallback), elapsedMs);
    PriceReads(r, ex, nowSec);
    if result.isError {
      ErrorReads(r, ex, nowSec, result);
    } else {
      SuccessReads(r, ex, nowSec, result);
    }
  }

  lemma NameIsKept(
    r: TurnRow, events: seq<StreamEvent>, intended: Option<string>, ex: Exchange, nowSec: int, own: string)
    requires ex.session == if own != "" then Some(own) else OrElse(LastSession(events), intended)
    ensures KeepsName(r, SettledRow(r, ex, nowSec), own, events, intended)
  {
    LastNameFound(events);
    PriceReads(r, ex, nowSec);
  }

  /** A turn whose stream held a result is settled by the last one: as its verdict,
      reply, price and name say, with the adapter announcing that same name. */
  lemma ResultSettlesTheRow(
    r: TurnRow, events: seq<StreamEvent>, end: StreamEnd, intended: Option<string>, caps: Capabilities,
    elapsedMs: u64, nowSec: int, result: QueryResult)
    requires LastResultIs(events, result)
    ensures var run := RunOf(events, end, intended, elapsedMs);
            var ex := ExchangeOf(run, caps, elapsedMs);
            && ex.Some? && Announced(run, LastSession(events)) == ex.value.session
            && var row := SettledRow(r, ex.value, nowSec);
               && ReadsAs(r, row, result) && KeepsName(r, row, result.session, events, intended)
               && row.elapsedState == Measured && row.elapsedMs == Min(elapsedMs, I64_MAX)
               && row.settled == Some(nowSec)
  {
    LastResultFound(events);
    var fallback := OrElse(LastSession(events), intended);
    var ex := ExchangeFrom(FromStreamResult(result, Cumulative(events), fallback), elapsedMs);
    ResultReads(r, result, Cumulative(events), fallback, elapsedMs, nowSec);
    NameIsKept(r, events, intended, ex, nowSec, result.session);
    PriceReads(r, ex, nowSec);
  }

  /** One that broke off without a result fails, with whatever the stream or its
      end complained of, its cost lost or never to be told, and the conversation it
      was in; only a process that never started leaves nothing to settle. */
  lemma BrokenRunSettlesTheRow(
    r: TurnRow, events: seq<StreamEvent>, end: StreamEnd, intended: Option<string>, caps: Capabilities,
    elapsedMs: u64, nowSec: int)
    requires NoResult(events)
    ensures var run := RunOf(events, end, intended, elapsedMs);
            var ex := ExchangeOf(run, caps, elapsedMs);
            && (ex.None? <==> end.Broke? && !end.launched && forall e | e in events :: !e.body.Malformed?)
            && (ex.Some? ==>
                  var row := SettledRow(r, ex.value, nowSec);
                  && Announced(run, LastSession(events)) == ex.value.session
                  && row.state == Failed && row.failureKind == ReportedFailureKind && row.reply == r.reply
                  && row.providerTurns == None && KeepsName(r, row, "", events, None)
                  && row.cost == 0 && !row.costComplete
                  && (row.costState == CostUnreported <==> caps.reportsCost)
                  && (row.costState == CostNotPriced <==> !caps.reportsCost)
                  && (r.usageState != UsageReported && Published(events) == [] ==>
                        row.usageState == if caps.reportsTokenUsage then UsageUnreported else UsageNotTracked)
                  && row.elapsedState == Measured && row.elapsedMs == Min(elapsedMs, I64_MAX)
                  && row.error.Some?
                  && (LastComplaintIs(events, row.error.value)
                      || ((forall e | e in events :: !e.body.Malformed?)
                          && row.error.value == if end.Broke? then end.message
                                                else "claude stream ended without a result event")))
  {
    LastResultFound(events);
    LastNameFound(events);
    LastComplaintFound(events);
    NoComplaint(events);
    LastSnapshotIsCumulative(events);
  }

  lemma {:induction false} NoComplaint(events: seq<StreamEvent>)
    ensures LastError(events).None? <==> forall e | e in events :: !e.body.Malformed?
  {
    if events != [] {
      var n := |events| - 1;
      assert events == events[..n] + [events[n]] && events[n] in events;
      NoComplaint(events[..n]);
    }
  }

  /** What a turn used, as far as its stream told: the result's own usage when it
      reported any, never that plus what was streamed; else the last snapshot. */
  ghost function UsedTokens(events: seq<StreamEvent>): Option<TokenUsage> {
    var last := LastResult(events);
    var streamed := if Published(events) == [] then None else Some(Published(events)[|Published(events)| - 1]);
    if last.Some? then OrElse(ReportedUsage(last.value), streamed) else streamed
  }

  /** The settled row holds exactly what the turn used; it is complete when a
      result said so, a lower bound when the run broke off, and nothing is
      reported when nothing was observed. */
  lemma ObservedUsageReachesTheRow(
    r: TurnRow, events: seq<StreamEvent>, end: StreamEnd, intended: Option<string>, caps: Capabilities,
    elapsedMs: u64, nowSec: int, ex: Exchange)
    requires HoldsSnapshots(r, Published(events))
    requires ExchangeOf(RunOf(events, end, intended, elapsedMs), caps, elapsedMs) == Some(ex)
    ensures var row := SettledRow(r, ex, nowSec);
            var used := UsedTokens(events);
            && (if used.Some? then row.tokens == Clamped(used.value) && row.usageState == UsageReported
                else row.tokens == ZERO_TOKENS && row.usageState != UsageReported)
            && (row.usageComplete <==> LastResult(events).Some? && used.Some?)
            && (LastResult(events).None? ==> row.state == Failed && !row.costComplete)
  {
    LastSnapshotIsCumulative(events);
    assert HoldsUsage(r, Cumulative(events));
    var run := RunOf(events, end, intended, elapsedMs);
    match run {
      case Answered(_) =>
        AnsweredRow(r, LastResult(events).value, Cumulative(events), OrElse(LastSession(events), intended),
                    elapsedMs, nowSec);
      case Errored(message, partial) =>
        ErroredRow(r, message, partial.value, caps, nowSec);
    }
  }

  /** A result that ends the stream says what the accumulator says. */
  lemma FinalResultAgreesWithTheStream(events: seq<StreamEvent>, r: QueryResult, fallback: Option<string>)
    requires events != [] && events[|events| - 1].body == Terminal(r)
    ensures Cumulative(events).Some? ==>
              FromStreamResult(r, Cumulative(events), fallback).usage == Tracked(Cumulative(events).value)
    ensures Cumulative(events).None? ==> FromStreamResult(r, Cumulative(events), fallback).usage == Missing
  {
    var init, e := events[..|events| - 1], events[|events| - 1];
    assert events == init + [e];
    if Reports(e) {
      AfterReport(init, e);
    }
  }
}
