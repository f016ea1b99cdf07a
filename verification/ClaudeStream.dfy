/** The Claude adapter's stream accumulator: event by event against what the
    whole stream means. */
module ClaudeStream {
  import opened Types
  import opened Capability
  import opened Rows

  // ---- What an event carries ----

  /** The token buckets of one message or result, as the CLI names them. */
  datatype Buckets = Buckets(
    input: Option<u64>, output: Option<u64>, cacheRead: Option<u64>, cacheWrite: Option<u64>, reasoning: Option<u64>)

  /** A terminal result; an element of its error list that is no text is `None`. */
  datatype QueryResult = QueryResult(
    reply: string, session: string, costMicroUsd: Option<u64>, buckets: Option<Buckets>, providerTurns: Option<nat>,
    isError: bool, subtype: Option<string>, errors: seq<Option<string>>)

  datatype Body =
    | Assistant(id: Option<string>, buckets: Option<Buckets>)
    | Terminal(result: QueryResult)
    | Malformed(error: string)
    | Other

  datatype StreamEvent = StreamEvent(session: Option<string>, body: Body)

  function OrZero(x: Option<u64>): u64 { if x.Some? then x.value else 0 }

  /** Input in all its buckets is one number, and cache reads are part of it. */
  function Normalized(b: Buckets): Option<TokenUsage> {
    if b.input.None? && b.output.None? && b.cacheRead.None? && b.cacheWrite.None? && b.reasoning.None? then None
    else Some(TokenUsage(
      SaturatingAdd(SaturatingAdd(OrZero(b.input), OrZero(b.cacheRead)), OrZero(b.cacheWrite)),
      SaturatingAdd(OrZero(b.output), OrZero(b.reasoning)),
      OrZero(b.cacheRead)))
  }

  function CountOf(x: Option<u64>): int { if x.Some? then x.value else 0 }

  /** Usage is reported when any bucket is; cache reads and writes are input,
      reasoning is output, and each total is the exact one clamped once. */
  lemma BucketsAddUp(b: Buckets)
    ensures Normalized(b).None? <==>
            {b.input, b.output, b.cacheRead, b.cacheWrite, b.reasoning} == {None}
    ensures Normalized(b).Some? ==>
              var u := Normalized(b).value;
              && u.input == Min(CountOf(b.input) + CountOf(b.cacheRead) + CountOf(b.cacheWrite), U64_MAX)
              && u.output == Min(CountOf(b.output) + CountOf(b.reasoning), U64_MAX)
              && u.cached == CountOf(b.cacheRead)
  {
    var all := {b.input, b.output, b.cacheRead, b.cacheWrite, b.reasoning};
    if Normalized(b).None? {
      assert all == {None};
    } else {
      assert b.input in all && b.output in all && b.cacheRead in all && b.cacheWrite in all && b.reasoning in all;
    }
  }

  /** `assistant_usage` */
  function AssistantUsage(e: StreamEvent): Option<TokenUsage> {
    if e.body.Assistant? && e.body.buckets.Some? then Normalized(e.body.buckets.value) else None
  }

  /** `reported_usage` */
  function ReportedUsage(r: QueryResult): Option<TokenUsage> {
    if r.buckets.Some? then Normalized(r.buckets.value) else None
  }

  function AddUsage(total: TokenUsage, next: TokenUsage): TokenUsage {
    TokenUsage(SaturatingAdd(total.input, next.input), SaturatingAdd(total.output, next.output),
               SaturatingAdd(total.cached, next.cached))
  }

  // ---- What a whole stream means ----

  predicate Names(e: StreamEvent, id: string) { AssistantUsage(e).Some? && e.body.id == Some(id) }

  /** The first usage-bearing message under its id; one without an id is its own. */
  predicate FirstSeen(events: seq<StreamEvent>, i: nat)
    requires i < |events|
  {
    && AssistantUsage(events[i]).Some?
    && (events[i].body.id.Some? ==> forall j | 0 <= j < i :: !Names(events[j], events[i].body.id.value))
  }

  predicate Reports(e: StreamEvent) { e.body.Terminal? && ReportedUsage(e.body.result).Some? }

  /** Exact, unbounded token counts. */
  datatype Count = Count(input: int, output: int, cached: int) {
    function Plus(u: TokenUsage): Count { Count(input + u.input, output + u.output, cached + u.cached) }

    function Clamped(): TokenUsage
      requires input >= 0 && output >= 0 && cached >= 0
    {
      TokenUsage(Min(input, U64_MAX), Min(output, U64_MAX), Min(cached, U64_MAX))
    }
  }

  /** Where counting last started over: just past the last usage-bearing result. */
  function Restart(events: seq<StreamEvent>): (m: nat)
    ensures m <= |events|
    ensures m > 0 ==> Reports(events[m - 1])
    ensures forall i | m <= i < |events| :: !Reports(events[i])
  {
    if events == [] then 0
    else if Reports(events[|events| - 1]) then |events|
    else Restart(events[..|events| - 1])
  }

  /** The usage counting starts from. */
  function Base(events: seq<StreamEvent>): Count {
    var m := Restart(events);
    if m == 0 then Count(0, 0, 0)
    else
      var u := ReportedUsage(events[m - 1].body.result).value;
      Count(u.input, u.output, u.cached)
  }

  /** The exact sum over the first-seen messages from `m` up to `n`. */
  function Messages(events: seq<StreamEvent>, m: nat, n: nat): Count
    requires m <= n <= |events|
  {
    if n == m then Base(events)
    else if FirstSeen(events, n - 1) then Messages(events, m, n - 1).Plus(AssistantUsage(events[n - 1]).value)
    else Messages(events, m, n - 1)
  }

  lemma {:induction false} MessagesNonNegative(events: seq<StreamEvent>, m: nat, n: nat)
    requires m <= n <= |events|
    ensures var c := Messages(events, m, n); c.input >= 0 && c.output >= 0 && c.cached >= 0
    ensures Messages(events, m, n).cached >= Base(events).cached
    decreases n
  {
    if n > m {
      MessagesNonNegative(events, m, n - 1);
    }
  }

  predicate Observed(events: seq<StreamEvent>) {
    Restart(events) > 0 || exists i: nat :: Restart(events) <= i < |events| && FirstSeen(events, i)
  }

  /** The cumulative usage after a stream: the last result's usage and every
      first-seen message since, summed exactly and clamped once. */
  ghost function Cumulative(events: seq<StreamEvent>): Option<TokenUsage> {
    MessagesNonNegative(events, Restart(events), |events|);
    if Observed(events) then Some(Messages(events, Restart(events), |events|).Clamped()) else None
  }

  // ---- One more event ----

  lemma {:induction false} MessagesOfPrefix(events: seq<StreamEvent>, e: StreamEvent, m: nat, n: nat)
    requires m <= n <= |events| && !Reports(e)
    ensures Restart(events + [e]) == Restart(events)
    ensures Messages(events + [e], m, n) == Messages(events, m, n)
    decreases n
  {
    var more := events + [e];
    assert more[..|more| - 1] == events;
    if n > m {
      MessagesOfPrefix(events, e, m, n - 1);
      assert FirstSeen(more, n - 1) == FirstSeen(events, n - 1);
    }
  }

  lemma ObservedOfPrefix(events: seq<StreamEvent>, e: StreamEvent)
    requires !Reports(e)
    ensures Observed(events + [e]) <==> Observed(events) || FirstSeen(events + [e], |events|)
  {
    var more := events + [e];
    MessagesOfPrefix(events, e, Restart(events), |events|);
    assert forall i: nat | i < |events| :: FirstSeen(more, i) == FirstSeen(events, i);
    if FirstSeen(more, |events|) {
      assert Observed(more);
    }
  }

  /** A first-seen message adds its usage; saturation commutes with clamping. */
  lemma AfterMessage(events: seq<StreamEvent>, e: StreamEvent)
    requires FirstSeen(events + [e], |events|)
    ensures Cumulative(events + [e]) ==
            Some(AddUsage(if Cumulative(events).Some? then Cumulative(events).value else NO_TOKENS,
                          AssistantUsage(e).value))
  {
    var more := events + [e];
    var m := Restart(events);
    assert !Reports(e);
    MessagesOfPrefix(events, e, m, |events|);
    ObservedOfPrefix(events, e);
    MessagesNonNegative(events, m, |events|);
    assert Messages(more, m, |more|) == Messages(events, m, |events|).Plus(AssistantUsage(e).value);
    if !Observed(events) {
      NothingObserved(events, |events|);
    }
  }

  lemma {:induction false} NothingObserved(events: seq<StreamEvent>, n: nat)
    requires !Observed(events) && n <= |events|
    ensures Messages(events, 0, n) == Count(0, 0, 0)
    decreases n
  {
    if n > 0 {
      NothingObserved(events, n - 1);
      assert !FirstSeen(events, n - 1);
    }
  }

  /** A usage-bearing result replaces whatever was counted. */
  lemma AfterReport(events: seq<StreamEvent>, e: StreamEvent)
    requires Reports(e)
    ensures Cumulative(events + [e]) == ReportedUsage(e.body.result)
  {
    var more := events + [e];
    assert Restart(more) == |more|;
  }

  /** Anything else changes nothing. */
  lemma AfterOther(events: seq<StreamEvent>, e: StreamEvent)
    requires !Reports(e) && !FirstSeen(events + [e], |events|)
    ensures Cumulative(events + [e]) == Cumulative(events)
  {
    var more := events + [e];
    var m := Restart(events);
    MessagesOfPrefix(events, e, m, |events|);
    ObservedOfPrefix(events, e);
    assert Messages(more, m, |more|) == Messages(more, m, |events|);
  }

  /** Cache reads never exceed the input they are part of. */
  lemma {:induction false} CachedIsPartOfInput(events: seq<StreamEvent>)
    ensures Cumulative(events).Some? ==> Cumulative(events).value.cached <= Cumulative(events).value.input
  {
    CachedCountIsPart(events, Restart(events), |events|);
  }

  lemma {:induction false} CachedCountIsPart(events: seq<StreamEvent>, m: nat, n: nat)
    requires m <= n <= |events|
    ensures Min(Messages(events, m, n).cached, U64_MAX) <= Min(Messages(events, m, n).input, U64_MAX)
    decreases n
  {
    MessagesNonNegative(events, m, n);
    if n > m {
      CachedCountIsPart(events, m, n - 1);
      MessagesNonNegative(events, m, n - 1);
    }
  }

  /** The snapshots a stream publishes: the cumulative value at every change. */
  ghost function Published(events: seq<StreamEvent>): seq<TokenUsage> {
    if events == [] then []
    else
      var n := |events| - 1;
      Published(events[..n])
      + if (FirstSeen(events, n) || Reports(events[n])) && Cumulative(events).Some?
        then [Cumulative(events).value] else []
  }

  /** The last snapshot published is the cumulative usage of the whole stream. */
  lemma {:induction false} LastSnapshotIsCumulative(events: seq<StreamEvent>)
    ensures Cumulative(events).Some? <==> Published(events) != []
    ensures Published(events) != [] ==> Published(events)[|Published(events)| - 1] == Cumulative(events).value
  {
    if events == [] {
      assert !Observed(events);
    } else {
      var init, e := events[..|events| - 1], events[|events| - 1];
      assert events == init + [e];
      LastSnapshotIsCumulative(init);
      if Reports(e) {
        AfterReport(init, e);
      } else if FirstSeen(events, |events| - 1) {
        AfterMessage(init, e);
      } else {
        AfterOther(init, e);
      }
    }
  }

  // ---- The accumulator ----

  class StreamObservations {
    var terminal: Option<QueryResult>
    var parseError: Option<string>
    var cumulative: Option<TokenUsage>
    var seen: set<string>
    var resume: Option<string>
    ghost var events: seq<StreamEvent>

    ghost predicate Valid()
      reads this
    {
      && cumulative == Cumulative(events)
      && (forall id :: id in seen <==> exists i :: 0 <= i < |events| && Names(events[i], id))
    }

    constructor ()
      ensures Valid() && events == [] && terminal.None? && parseError.None? && resume.None?
    {
      terminal, parseError, cumulative, seen, resume := None, None, None, {}, None;
      events := [];
    }

    /** Record one event; return the cumulative usage when the event changed it. */
    method Observe(e: StreamEvent) returns (snapshot: Option<TokenUsage>)
      requires Valid()
      modifies this
      ensures Valid() && events == old(events) + [e]
      ensures snapshot.Some? <==> FirstSeen(events, |old(events)|) || Reports(e)
      ensures snapshot.Some? ==> snapshot == cumulative
      ensures resume == OrElse(e.session, old(resume))
      ensures terminal == if e.body.Terminal? then Some(e.body.result) else old(terminal)
      ensures parseError == if e.body.Malformed? then Some(e.body.error) else old(parseError)
    {
      ghost var before := events;
      events := events + [e];
      assert events[|before|] == e && forall i | 0 <= i < |before| :: events[i] == before[i];
      if e.session.Some? {
        resume := e.session;
      }
      match e.body {
        case Assistant(id, buckets) =>
          var usage := AssistantUsage(e);
          if usage.Some? && (id.None? || id.value !in seen) {
            assert FirstSeen(events, |before|);
            AfterMessage(before, e);
            if id.Some? {
              seen := seen + {id.value};
            }
            cumulative := Some(AddUsage(if cumulative.Some? then cumulative.value else NO_TOKENS, usage.value));
            return cumulative;
          }
          AfterOther(before, e);
          return None;
        case Terminal(result) =>
          terminal := Some(result);
          var reported := ReportedUsage(result);
          if reported.Some? {
            AfterReport(before, e);
            cumulative := reported;
            return cumulative;
          }
          AfterOther(before, e);
          return None;
        case Malformed(error) =>
          AfterOther(before, e);
          parseError := Some(error);
          return None;
        case Other =>
          AfterOther(before, e);
          return None;
      }
    }
  }
}
