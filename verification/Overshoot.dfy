/** The overshoot bound: admission looks only at what has been reported, yet the
    window's spend never passes the stop by more than what was in flight. */
module Overshoot {
  import opened Types
  import opened Sums
  import opened Capability
  import opened Limits
  import opened Rows
  import opened Database
  import opened Telemetry
  import opened Admission
  import opened Protocol
  import opened Kept
  import opened Claims
  import opened Kills
  import opened KillSafety
  import opened Money
  import opened Window
  import opened Verdict
  import opened Frozen

  function Since(w: World): int { NowSec(w) - ROLLING_WINDOW_SECS }

  function InFlightKeys(db: Db): set<Key> { set k | k in db.turns && db.turns[k].state.InFlight() }

  function ActiveAgents(db: Db): set<string> { set a | a in db.agents && !db.agents[a].retired }

  /** Reported spend of the rolling day plus a reserve of `c` for every turn in
      flight stays below the stop plus `c` for every agent. */
  ghost predicate Bounded(w: World, stop: int, c: nat, n: nat) {
    SpendSince(w.db, Since(w)) + c * |InFlightKeys(w.db)| <= stop - 1 + n * c
  }

  // ---- One row at a time ----

  predicate SameMoney(r: TurnRow, s: TurnRow) {
    && s.cost == r.cost && s.settled == r.settled && s.atUnix == r.atUnix
    && s.state.InFlight() == r.state.InFlight()
  }

  ghost predicate NoMoneyMoves(before: Db, after: Db) {
    before.turns.Keys == after.turns.Keys && forall k | k in before.turns :: SameMoney(before.turns[k], after.turns[k])
  }

  lemma QuietMoney(before: Db, after: Db, since: int)
    requires NoMoneyMoves(before, after)
    ensures SpendSince(after, since) == SpendSince(before, since) && InFlightKeys(after) == InFlightKeys(before)
  {
    assert forall k | k in before.turns :: SameMoney(before.turns[k], after.turns[k]);
    assert SpendOf(after.turns, since) == SpendOf(before.turns, since);
  }

  /** One turn leaves flight for at most `c`. */
  ghost predicate OneSettles(before: Db, after: Db, k: Key, c: nat) {
    && InFlight(before, k) && k in after.turns
    && after.turns == before.turns[k := after.turns[k]]
    && after.turns[k].state.Terminal() && 0 <= after.turns[k].cost <= c
  }

  lemma SettlementMoney(before: Db, after: Db, k: Key, c: nat, since: int)
    requires OneSettles(before, after, k, c)
    ensures SpendSince(after, since) <= SpendSince(before, since) + c
    ensures |InFlightKeys(after)| == |InFlightKeys(before)| - 1
  {
    var spent := SpendOf(before.turns, since);
    assert k !in spent;
    if SpentSince(after.turns[k], since) {
      assert SpendOf(after.turns, since) == spent[k := after.turns[k].cost as int];
      SumUpdate(spent, k, after.turns[k].cost);
    } else {
      assert SpendOf(after.turns, since) == spent;
    }
    assert InFlightKeys(after) == InFlightKeys(before) - {k};
  }

  lemma InsertionMoney(before: Db, k: Key, r: TurnRow, since: int)
    requires k !in before.turns && r.state == Queued
    ensures SpendSince(Put(before, k, r), since) == SpendSince(before, since)
    ensures |InFlightKeys(Put(before, k, r))| == |InFlightKeys(before)| + 1
  {
    QueuedSpendsNothing(before.turns, k, r, since);
    OneMoreInFlight(before, k, r);
  }

  lemma OneMoreInFlight(before: Db, k: Key, r: TurnRow)
    requires k !in before.turns && r.state == Queued
    ensures |InFlightKeys(Put(before, k, r))| == |InFlightKeys(before)| + 1
  {
    assert InFlightKeys(Put(before, k, r)) == InFlightKeys(before) + {k};
  }

  lemma QueuedSpendsNothing(turns: map<Key, TurnRow>, k: Key, r: TurnRow, since: int)
    requires k !in turns && r.state == Queued
    ensures SpendOf(turns[k := r], since) == SpendOf(turns, since)
  {
    var after := SpendOf(turns[k := r], since);
    assert after.Keys == SpendOf(turns, since).Keys;
    assert forall j | j in after :: j != k;
  }

  /** As the window moves on, spend only leaves it. */
  lemma WindowExpiry(db: Db, earlier: int, later: int)
    requires RowsValid(db) && earlier <= later
    ensures SpendSince(db, later) <= SpendSince(db, earlier)
  {
    assert forall k | k in db.turns :: RowInv(db.turns[k]);
    SumMonotone(SpendOf(db.turns, later), SpendOf(db.turns, earlier));
  }

  // ---- Admission ----

  /** Single flight: an idle active agent leaves room for its turn. */
  lemma RoomForOneMore(db: Db, a: string)
    requires Shape(db) && Insertable(db, a)
    ensures |InFlightKeys(db)| + 1 <= |ActiveAgents(db)|
  {
    forall k | k in InFlightKeys(db) ensures k.agent in ActiveAgents(db) - {a} {
      assert InFlight(db, k);
    }
    forall j, k | j in InFlightKeys(db) && k in InFlightKeys(db) && j.agent == k.agent ensures j == k {
      SingleFlight(db, j.agent);
      assert InFlight(db, j) && InFlight(db, k);
    }
    InjectiveSize(InFlightKeys(db), ActiveAgents(db) - {a}, (k: Key) => k.agent);
  }

  // ---- Steps ----

  /** How the server of an admission is configured. */
  predicate Configured(proc: Proc, stop: int) {
    proc.limits.Validated() && proc.limits.stopMicroUsd.Some? && proc.limits.stopMicroUsd.value <= stop
  }

  /** No provider answers with a cost above `c`, every server stops at `stop` or
      earlier, and admissions happen among at most `n` active agents. */
  predicate Tame(w: World, e: Event, stop: int, c: nat, n: nat) {
    match e
    case OnLedger(AdmitStep(p, _, _, _, _, _, _)) =>
      p in w.procs && Configured(w.procs[p], stop) && |ActiveAgents(w.db)| <= n
    case OnTask(_, ProviderReturns(Finished(ex))) => BankedCost(ex) <= c
    case _ => true
  }

  ghost predicate TameRun(w: World, events: seq<Event>, stop: int, c: nat, n: nat)
    decreases |events|
  {
    events == [] || (Enabled(w, events[0]) && Tame(w, events[0], stop, c, n)
                     && TameRun(Next(w, events[0]), events[1..], stop, c, n))
  }

  /** Answers on their way to the ledger cost at most `c`. */
  predicate Cheap(pc: Pc, c: nat) {
    pc.Settling? && pc.result.Finished? ==> BankedCost(pc.result.exchange) <= c
  }

  ghost predicate AllCheap(w: World, c: nat) { forall t: nat | t in w.tasks :: Cheap(w.tasks[t].pc, c) }

  lemma StepKeepsCheap(w: World, e: Event, stop: int, c: nat, n: nat)
    requires Named(w) && Enabled(w, e) && Tame(w, e, stop, c, n) && AllCheap(w, c)
    ensures AllCheap(Next(w, e), c)
  {
    var v := Next(w, e);
    forall t: nat | t in v.tasks ensures Cheap(v.tasks[t].pc, c) {
      if t !in w.tasks {
        NewTasksAreEarly(w, e, t);
      } else if e.OnTask? && e.t == t {
        OnlyAnAnswerSettles(w, t, e.step);
      } else {
        OtherTasksStand(w, e, t);
        assert Cheap(w.tasks[t].pc, c);
      }
    }
  }

  lemma OnlyAnAnswerSettles(w: World, t: nat, step: TaskStep)
    requires TaskEnabled(w, t, step) && t in TaskNext(w, t, step).tasks
    ensures var pc := TaskNext(w, t, step).tasks[t].pc;
            pc.Settling? ==> step.ProviderReturns? && pc.result == step.result
  {
  }

  lemma BelowMeansBounded(spend: int, inFlight: nat, stop: int, c: nat, n: nat)
    requires spend <= stop - 1 && inFlight <= n
    ensures spend + c * inFlight <= stop - 1 + n * c
  {
    assert c * inFlight <= c * n;
  }

  /** Admission found the window below the stop and the agent idle. */
  lemma AdmittedHasRoom(w: World, e: LedgerStep, stop: int, c: nat, n: nat, decision: Decision)
    requires DbInv(w.db)
    requires e.AdmitStep? && LedgerEnabled(w, e) && Tame(w, OnLedger(e), stop, c, n)
    requires decision == Decide(w.db, w.procs[e.p].registry, w.procs[e.p].limits, e.authority, e.a, e.prompt, e.source,
                                e.checkedUnix, e.order)
    requires decision.Admitted?
    ensures Insertable(w.db, e.a) && decision.row.state == Queued
    ensures SpendSince(w.db, Since(w)) <= stop - 1 && |InFlightKeys(w.db)| + 1 <= n
  {
    var proc := w.procs[e.p];
    AdmittedBelowStop(w.db, proc.registry, proc.limits, e.authority, e.a, e.prompt, e.source, e.checkedUnix, e.order);
    AdmissionFreezesPolicy(w.db, proc.registry, proc.limits, e.authority, e.a, e.prompt, e.source,
                           e.checkedUnix, e.order, decision);
    WindowExpiry(w.db, DayBefore(e.checkedUnix), Since(w));
    RoomForOneMore(w.db, e.a);
  }

  lemma InsertionStaysBounded(w: World, v: World, a: string, r: TurnRow, stop: int, c: nat, n: nat)
    requires Shape(w.db) && Insertable(w.db, a) && r.state == Queued
    requires v.now == w.now && v.db == GuardedInsert(w.db, a, r)
    requires SpendSince(w.db, Since(w)) <= stop - 1 && |InFlightKeys(w.db)| + 1 <= n
    ensures Bounded(v, stop, c, n)
  {
    InsertKeepsShape(w.db, a, r);
    InsertionMoney(w.db, NextKey(w.db, a), r, Since(w));
    BelowMeansBounded(SpendSince(w.db, Since(w)), |InFlightKeys(w.db)| + 1, stop, c, n);
  }

  lemma AdmissionStaysBounded(w: World, e: LedgerStep, stop: int, c: nat, n: nat)
    requires DbInv(w.db) && Bounded(w, stop, c, n)
    requires e.AdmitStep? && LedgerEnabled(w, e) && Tame(w, OnLedger(e), stop, c, n)
    ensures Bounded(DoAdmit(w, e), stop, c, n)
  {
    var proc := w.procs[e.p];
    var decision :=
      Decide(w.db, proc.registry, proc.limits, e.authority, e.a, e.prompt, e.source, e.checkedUnix, e.order);
    if decision.Admitted? {
      AdmittedHasRoom(w, e, stop, c, n, decision);
      InsertionStaysBounded(w, DoAdmit(w, e), e.a, decision.row, stop, c, n);
    }
  }

  lemma QuietStaysBounded(w: World, v: World, stop: int, c: nat, n: nat)
    requires Bounded(w, stop, c, n) && v.now == w.now && NoMoneyMoves(w.db, v.db)
    ensures Bounded(v, stop, c, n)
  {
    QuietMoney(w.db, v.db, Since(w));
  }

  lemma SettlementStaysBounded(w: World, v: World, k: Key, stop: int, c: nat, n: nat)
    requires Bounded(w, stop, c, n) && v.now == w.now && OneSettles(w.db, v.db, k, c)
    ensures Bounded(v, stop, c, n)
  {
    SettlementMoney(w.db, v.db, k, c, Since(w));
    assert c * (|InFlightKeys(w.db)| - 1) == c * |InFlightKeys(w.db)| - c;
  }

  /** An interruption costs nothing. */
  lemma InterruptionMoney(
    db: Db, registry: Registry, k: Key, target: TurnState, error: string, nowMs: int, timing: Timing, c: nat)
    requires target.Terminal()
    ensures var after := Interrupt(db, registry, k, target, error, nowMs, timing);
            NoMoneyMoves(db, after) || OneSettles(db, after, k, c)
  {
  }

  lemma ExchangeMoney(db: Db, k: Key, ex: Exchange, nowSec: int, c: nat)
    requires CostsNonNegative(db) && BankedCost(ex) <= c
    ensures var after := if ex.error.Some? then FailExchange(db, k, Failed, ex.error.value, ex, nowSec)
                         else CompleteTurn(db, k, ex, nowSec);
            NoMoneyMoves(db, after) || OneSettles(db, after, k, c)
  {
  }

  lemma AbortMoney(db: Db, k: Key, error: string, nowSec: int, c: nat)
    ensures var after := AbortTurn(db, k, error, nowSec);
            NoMoneyMoves(db, after) || OneSettles(db, after, k, c)
  {
  }

  lemma SettleMoney(w: World, t: nat, c: nat)
    requires TaskEnabled(w, t, Settle) && Cheap(w.tasks[t].pc, c)
    ensures NoMoneyMoves(w.db, SettledDb(w, t)) || OneSettles(w.db, SettledDb(w, t), w.tasks[t].key, c)
  {
    match w.tasks[t].pc.result {
      case NotRun(error) => AbortMoney(w.db, w.tasks[t].key, error, NowSec(w), c);
      case Finished(ex) => ExchangeMoney(w.db, w.tasks[t].key, ex, NowSec(w), c);
    }
  }

  lemma LedgerStepStaysBounded(w: World, e: LedgerStep, stop: int, c: nat, n: nat)
    requires DbInv(w.db) && Bounded(w, stop, c, n)
    requires LedgerEnabled(w, e) && Tame(w, OnLedger(e), stop, c, n)
    ensures Bounded(LedgerNext(w, e), stop, c, n)
  {
    var v := LedgerNext(w, e);
    match e {
      case AdmitStep(_, _, _, _, _, _, _) => AdmissionStaysBounded(w, e, stop, c, n);
      case KillRecord(p, k, error) =>
        InterruptionMoney(w.db, w.procs[p].registry, k, Killed, error, w.now, Live, c);
        MoneyStaysBounded(w, v, k, stop, c, n);
      case RecoverStep(p, k, error) =>
        InterruptionMoney(w.db, w.procs[p].registry, k, Failed, error, w.now, Recovery, c);
        MoneyStaysBounded(w, v, k, stop, c, n);
      case WriteUsage(t) => QuietStaysBounded(w, v, stop, c, n);
      case _ =>
        assert v.db.turns == w.db.turns;
        QuietStaysBounded(w, v, stop, c, n);
    }
  }

  lemma MoneyStaysBounded(w: World, v: World, k: Key, stop: int, c: nat, n: nat)
    requires Bounded(w, stop, c, n) && v.now == w.now
    requires NoMoneyMoves(w.db, v.db) || OneSettles(w.db, v.db, k, c)
    ensures Bounded(v, stop, c, n)
  {
    if NoMoneyMoves(w.db, v.db) {
      QuietStaysBounded(w, v, stop, c, n);
    } else {
      SettlementStaysBounded(w, v, k, stop, c, n);
    }
  }

  lemma TaskStepMoney(w: World, t: nat, step: TaskStep, c: nat)
    requires TaskEnabled(w, t, step) && !step.Settle?
    ensures NoMoneyMoves(w.db, TaskNext(w, t, step).db) || OneSettles(w.db, TaskNext(w, t, step).db, w.tasks[t].key, c)
  {
  }

  lemma TaskStepStaysBounded(w: World, t: nat, step: TaskStep, stop: int, c: nat, n: nat)
    requires DbInv(w.db) && Bounded(w, stop, c, n) && AllCheap(w, c) && TaskEnabled(w, t, step)
    ensures Bounded(TaskNext(w, t, step), stop, c, n)
  {
    TaskStepIsLocal(w, t, step);
    if step.Settle? {
      SettleMoney(w, t, c);
    } else {
      TaskStepMoney(w, t, step, c);
    }
    MoneyStaysBounded(w, TaskNext(w, t, step), w.tasks[t].key, stop, c, n);
  }

  lemma ServerStepStaysBounded(w: World, e: ServerStep, stop: int, c: nat, n: nat)
    requires DbInv(w.db) && Bounded(w, stop, c, n) && ServerEnabled(w, e)
    ensures Bounded(ServerNext(w, e), stop, c, n)
  {
    if e.Tick? {
      WindowExpiry(w.db, Since(w), Since(ServerNext(w, e)));
    } else {
      QuietStaysBounded(w, ServerNext(w, e), stop, c, n);
    }
  }

  lemma StepStaysBounded(w: World, e: Event, stop: int, c: nat, n: nat)
    requires DbInv(w.db) && Bounded(w, stop, c, n) && AllCheap(w, c) && Enabled(w, e) && Tame(w, e, stop, c, n)
    ensures Bounded(Next(w, e), stop, c, n)
  {
    match e {
      case OnLedger(step) => LedgerStepStaysBounded(w, step, stop, c, n);
      case OnServer(step) => ServerStepStaysBounded(w, step, stop, c, n);
      case OnTask(t, step) => TaskStepStaysBounded(w, t, step, stop, c, n);
    }
  }

  /** In every state of every run the rolling spend plus a reserve for what is in
      flight is bounded, through admissions (supervised ones too), settlements,
      kills, recoveries, retirements, crashes and the window moving on. */
  lemma {:induction false} OvershootIsBounded(
    before: World, events: seq<Event>, after: World, stop: int, c: nat, n: nat)
    requires DbInv(before.db) && ClaimInv(before) && AllCheap(before, c) && Bounded(before, stop, c, n)
    requires Reaches(before, events, after) && TameRun(before, events, stop, c, n)
    ensures Bounded(after, stop, c, n)
    ensures SpendSince(after.db, Since(after)) <= stop - 1 + n * c
    decreases |events|
  {
    if events != [] {
      StepKeepsDb(before, events[0]);
      StepKeepsClaims(before, events[0]);
      StepStaysBounded(before, events[0], stop, c, n);
      StepKeepsCheap(before, events[0], stop, c, n);
      OvershootIsBounded(Next(before, events[0]), events[1..], after, stop, c, n);
    }
  }

  /** A ledger that starts empty is bounded. */
  lemma EmptyLedgerIsBounded(w: World, stop: int, c: nat, n: nat)
    requires Initial(w) && w.db.turns == map[] && stop >= 1
    ensures Bounded(w, stop, c, n) && AllCheap(w, c)
  {
    SumEmpty(SpendOf(w.db.turns, Since(w)));
    assert InFlightKeys(w.db) == {};
  }
}
