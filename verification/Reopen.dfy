/** One server, one agent, two turns, and a kill that is recorded while the
    first turn's provider still runs. Twice the second turn opens a conversation
    that provider has already named. */
module Reopen {
  import opened Types
  import opened Sums
  import opened Capability
  import opened Limits
  import opened Rows
  import opened Database
  import opened Telemetry
  import opened Admission
  import opened Protocol
  import opened Claims
  import opened Kills
  import opened KillSafety
  import opened Told
  import opened Sessions
  import opened Walks
  import opened CrossKill

  const PLAN := Plan("claude", PLAIN, Some(ClientAssigned("s1")), None, 0, AGENT)
  const K2 := Key("agent", 2)
  const ROW2 := QueuedRow("again", "claude", 0, None, UnboundedSnapshot("claude"))

  // ---- The first turn is running when its kill is recorded ----

  function Single(p0: Proc): World {
    START.(procs := map[0 := p0], tasks := map[0 := Task(0, K, Buffered)], nextProc := 1, nextTask := 1,
           h := START.h.(homes := {(K, Owner(0, 0))}))
  }

  lemma ServerStarts()
    ensures var w1 := START.(procs := map[0 := PARKED], nextProc := 1);
            && Steps(START, OnServer(Boot(Hand, NO_STOPS, REGISTRY, NO_HOMES)), w1)
            && Steps(w1, OnServer(Redeliver(0, K)), Single(PARKED))
    ensures Steps(Single(PARKED), OnServer(Open(0)), Single(OPENED))
    ensures Steps(Single(OPENED), OnServer(Start(0)), Single(SERVING))
  {
  }

  lemma ServerServes() returns (events: seq<Event>)
    ensures Reaches(START, events, Single(SERVING))
  {
    ServerStarts();
    var w1 := START.(procs := map[0 := PARKED], nextProc := 1);
    events := Take(START, [], START, OnServer(Boot(Hand, NO_STOPS, REGISTRY, NO_HOMES)), w1);
    events := Take(START, events, w1, OnServer(Redeliver(0, K)), Single(PARKED));
    events := Take(START, events, Single(PARKED), OnServer(Open(0)), Single(OPENED));
    events := Take(START, events, Single(OPENED), OnServer(Start(0)), Single(SERVING));
  }

  lemma PlanIsAccepted()
    ensures Accepts(REGISTRY, PLAN)
  {
    GateIsExact(CAPS, IntentOf(PLAN));
  }

  /** A killed first turn whose provider runs on, everything else at rest. */
  predicate FirstRunsOn(w: World) {
    && w.now == 0 && w.db.agents == map["agent" := AGENT]
    && w.db.turns.Keys == {K} && KilledWhileRunning(w.db.turns[K])
    && w.tasks == map[0 := Task(0, K, InProvider(PLAN))] && w.nextTask == 1
    && w.sinks == map[0 := Sink(0, K, [], 0, false)]
    && w.procs == map[0 := SERVING.(inflight := 1, kills := map[K := 0])]
    && w.h.issued == map["s1" := "agent"] && w.h.told == [] && w.h.confirms == [] && w.h.lost == {}
  }

  predicate KilledWhileRunning(r: TurnRow) {
    && r.state == Killed && r.settled == Some(0) && r.cost == 0
    && r.tokens == ZERO_TOKENS && r.usageState == UsageUnreported
  }

  /** The first turn's provider has just been called. */
  predicate InFirstCall(w: World) {
    && w.now == 0 && w.procs == map[0 := SERVING.(inflight := 1, kills := map[K := 0])]
    && w.tasks == map[0 := Task(0, K, InProvider(PLAN))] && w.nextTask == 1
    && w.sinks == map[0 := Sink(0, K, [], 0, false)]
    && w.db == Db(map["agent" := AGENT], map[K := ClaimRow(ROW, 0)])
    && w.h.issued == map["s1" := "agent"] && w.h.told == [] && w.h.confirms == [] && w.h.lost == {}
  }

  lemma KillIsRecorded(w: World) returns (v: World)
    requires InFirstCall(w)
    ensures Steps(w, OnLedger(KillRecord(0, K, "stop")), v) && FirstRunsOn(v)
  {
    v := Next(w, OnLedger(KillRecord(0, K, "stop")));
  }

  lemma FirstIsWaiting()
    ensures Waiting(Single(SERVING), 0)
    ensures PastRecheck(Single(SERVING), 0).db == Db(map["agent" := AGENT], map[K := ClaimRow(ROW, 0)])
  {
  }

  lemma PlanIsLoaded(db: Db)
    requires K in db.turns && db.turns[K] == ClaimRow(ROW, 0)
    ensures LoadPlan(db, REGISTRY, K, AGENT, 0, true) == Loads(PLAN)
  {
  }

  lemma FirstIsLoadable()
    ensures Waiting(Single(SERVING), 0) && Loadable(PastRecheck(Single(SERVING), 0), 0, PLAN)
  {
    FirstIsWaiting();
    PlanIsLoaded(PastRecheck(Single(SERVING), 0).db);
  }

  lemma CalledState(w: World)
    requires w == InCall(SetPc(PastRecheck(Single(SERVING), 0), 0, Ready(PLAN)), 0, PLAN)
    ensures InFirstCall(w)
  {
    FirstIsWaiting();
  }

  lemma FirstTurnIsCalled() returns (events: seq<Event>, w: World)
    ensures Reaches(START, events, w) && InFirstCall(w)
  {
    events := ServerServes();
    FirstIsLoadable();
    PlanIsAccepted();
    events, w := WalkToCall(START, events, Single(SERVING), 0, PLAN);
    CalledState(w);
  }

  lemma FirstTurnIsRecordedKilled() returns (events: seq<Event>, w: World)
    ensures Reaches(START, events, w) && FirstRunsOn(w)
  {
    var called;
    events, called := FirstTurnIsCalled();
    w := KillIsRecorded(called);
    events := Take(START, events, called, OnLedger(KillRecord(0, K, "stop")), w);
  }

  // ---- The second turn is admitted and gets to its last gate ----

  /** The killed turn is the window, and the agent is free again. */
  predicate AgentIsFree(w: World) {
    && w.now == 0 && "agent" in w.db.agents && w.db.agents["agent"] == AGENT
    && w.db.agents.Keys == {"agent"} && w.db.turns.Keys == {K} && KilledWhileRunning(w.db.turns[K])
    && 0 in w.procs && w.procs[0].registry == REGISTRY && w.procs[0].limits == NO_STOPS
    && w.procs[0].kind == Hand && w.procs[0].dispatch == Dispatching && !w.procs[0].stopping
    && w.nextTask !in w.tasks && w.nextTask !in w.procs[0].cancelled && w.h.confirms == []
  }

  lemma SecondTurnIsEligible(w: World)
    requires AgentIsFree(w)
    ensures Insertable(w.db, "agent") && NextKey(w.db, "agent") == K2 && Eligible(w.db, REGISTRY, "agent")
  {
    assert !HasInFlight(w.db, "agent");
    var m := MaxSeq(w.db.turns, "agent");
    assert K in w.db.turns && K.seqNo <= m;
    assert m > 0 ==> Key("agent", m) in w.db.turns.Keys;
  }

  lemma WindowIsTheKilledTurn(w: World)
    requires AgentIsFree(w)
    ensures WindowOrder(w.db, 0, [K]) && !Unsafe(WindowRowOf(w.db, K))
  {
    assert WindowKeys(w.db, 0 - ROLLING_WINDOW_SECS) == {K};
  }

  /** The world once the second turn is queued. */
  function Admitted2(w: World): World {
    AddTask(w, Task(0, K2, Accepted)).(
      db := Put(w.db, K2, ROW2), h := w.h.(homes := w.h.homes + {(K2, Owner(w.nextTask, 0))}))
  }

  lemma SecondTurnIsAdmitted(w: World)
    requires AgentIsFree(w)
    ensures Steps(w, OnLedger(AdmitStep(0, "agent", Automatic, "again", "user", 0, [K])), Admitted2(w))
  {
    SecondTurnIsEligible(w);
    WindowIsTheKilledTurn(w);
    UnlimitedAdmission(w.db, REGISTRY, "agent", "again", "user", 0, [K]);
    Admitting(w, AdmitStep(0, "agent", Automatic, "again", "user", 0, [K]), ROW2, K2);
  }

  /** The second delivery at its last gate. */
  function Ready2(w: World): World
    requires AgentIsFree(w)
  {
    var t := w.nextTask;
    SetPc(PastRecheck(SetPc(Admitted2(w), t, Buffered), t), t, Ready(PLAN))
  }

  lemma SecondTurnIsReady(events: seq<Event>, w: World) returns (more: seq<Event>)
    requires Reaches(START, events, w) && AgentIsFree(w)
    ensures Reaches(START, more, Ready2(w))
  {
    var t := w.nextTask;
    SecondTurnIsAdmitted(w);
    more := Take(START, events, w, OnLedger(AdmitStep(0, "agent", Automatic, "again", "user", 0, [K])), Admitted2(w));
    var buffered := SetPc(Admitted2(w), t, Buffered);
    Submitting(w);
    more := Take(START, more, Admitted2(w), OnTask(t, Submit), buffered);
    more := WalkPastRecheck(START, more, buffered, t);
    SecondIsLoadable(w);
    more := WalkToReady(START, more, PastRecheck(buffered, t), t, PLAN);
  }

  lemma Submitting(w: World)
    requires AgentIsFree(w)
    ensures Steps(Admitted2(w), OnTask(w.nextTask, Submit), SetPc(Admitted2(w), w.nextTask, Buffered))
  {
  }

  lemma SecondIsLoadable(w: World)
    requires AgentIsFree(w)
    ensures Loadable(PastRecheck(SetPc(Admitted2(w), w.nextTask, Buffered), w.nextTask), w.nextTask, PLAN)
  {
  }

  // ---- A confirmation between load and launch ----

  lemma LateConfirmation(w: World) returns (v: World)
    requires 0 in w.tasks && w.tasks[0] == Task(0, K, InProvider(PLAN)) && 0 in w.procs && 0 !in w.procs[0].cancelled
    requires w.h.issued == map["s1" := "agent"]
    ensures Steps(w, OnTask(0, ConfirmSession("s1")), v)
    ensures v == w.(db := v.db, h := NoteHeard(NoteTold(w.h, "s1", K), "s1", K))
  {
    v := Next(w, OnTask(0, ConfirmSession("s1")));
  }

  /** The launch that opens "s1" although its provider has named it. */
  ghost predicate ReopenedIn(w: World, l: Launch) {
    && l in w.h.launches && l.at.told <= |w.h.told| && Reopens(w.h, l, "s1") && IntentOf(l.plan).instructions
  }

  lemma SecondTurnReopens(w: World, t: nat) returns (v: World, l: Launch)
    requires Alive(w, t) && w.tasks[t].pc == Ready(PLAN) && !Signalled(w, t)
    requires w.procs[w.tasks[t].proc].registry == REGISTRY && w.h.told == [Confirm("s1", K)]
    ensures Steps(w, OnTask(t, CallProvider), v) && ReopenedIn(v, l)
    ensures l.at == NowKnown(w) && v.h.told == w.h.told && v.h.confirms == w.h.confirms
  {
    PlanIsAccepted();
    Calling(w, t, PLAN);
    v := InCall(w, t, PLAN);
    l := v.h.launches[|w.h.launches|];
    assert w.h.told[..1][0] == Confirm("s1", K);
  }

  lemma StartIsRemembered()
    ensures Initial(START) && Remembered(START)
  {
    StartIsInitial();
    assert SessionKnown(START.h, "agent", AGENT);
    assert OnTheWay(START.tasks) == {};
  }

  /** The killed first delivery beside the second at its last gate. */
  lemma BesideTheFirst(w: World)
    requires FirstRunsOn(w)
    ensures AgentIsFree(w)
    ensures var u := Ready2(w);
            && u.tasks == map[0 := Task(0, K, InProvider(PLAN)), 1 := Task(0, K2, Ready(PLAN))]
            && 0 in u.procs && u.procs[0].cancelled == {} && u.procs[0].registry == REGISTRY
            && u.h.issued == map["s1" := "agent"] && u.h.told == [] && u.h.confirms == [] && u.h.lost == {}
  {
  }

  lemma NothingUnheard(w: World)
    requires w.tasks == map[0 := Task(0, K, InProvider(PLAN)), 1 := Task(0, K2, Ready(PLAN))] && w.h.lost == {}
    ensures NowKnown(w).unheard == {}
  {
  }

  /** The killed provider confirms after the second turn has loaded the agent. */
  lemma ConfirmedConversationCanBeReopened() returns (events: seq<Event>, w: World, l: Launch)
    ensures Initial(START) && Remembered(START) && Reaches(START, events, w)
    ensures ReopenedIn(w, l) && w.h.confirms == [Confirm("s1", K)] && l.at.unheard == {}
  {
    StartIsRemembered();
    events, w := FirstTurnIsRecordedKilled();
    BesideTheFirst(w);
    events := SecondTurnIsReady(events, w);
    var ready := Ready2(w);
    events, w, l := LateConfirmationReopens(events, ready);
  }

  lemma LateConfirmationReopens(events: seq<Event>, ready: World) returns (more: seq<Event>, w: World, l: Launch)
    requires Reaches(START, events, ready)
    requires ready.tasks == map[0 := Task(0, K, InProvider(PLAN)), 1 := Task(0, K2, Ready(PLAN))]
    requires 0 in ready.procs && ready.procs[0].cancelled == {} && ready.procs[0].registry == REGISTRY
    requires ready.h.issued == map["s1" := "agent"]
    requires ready.h.told == [] && ready.h.confirms == [] && ready.h.lost == {}
    ensures Reaches(START, more, w) && ReopenedIn(w, l)
    ensures w.h.confirms == [Confirm("s1", K)] && l.at.unheard == {}
  {
    var v := LateConfirmation(ready);
    more := Take(START, events, ready, OnTask(0, ConfirmSession("s1")), v);
    NothingUnheard(v);
    w, l := SecondTurnReopens(v, 1);
    more := Take(START, more, v, OnTask(1, CallProvider), w);
  }

  // ---- An answer whose settlement is refused ----

  const ANSWER := Exchange("done", Some("s1"), Unreported, false, Missing, false, None, 0, None, None)

  /** The killed provider's answer has come back and is about to be settled. */
  predicate Answered(v: World) {
    && v.tasks == map[0 := Task(0, K, Settling(PLAN, Finished(ANSWER)))] && v.nextTask == 1
    && v.sinks == map[0 := Sink(0, K, [], 0, false)] && v.now == 0
    && v.db.agents == map["agent" := AGENT] && v.db.turns.Keys == {K} && KilledWhileRunning(v.db.turns[K])
    && v.procs == map[0 := SERVING.(inflight := 1, kills := map[K := 0])]
    && v.h.told == [Confirm("s1", K)] && v.h.confirms == [] && v.h.lost == {}
  }

  lemma AnswerComesBack(w: World) returns (v: World)
    requires FirstRunsOn(w)
    ensures Steps(w, OnTask(0, ProviderReturns(Finished(ANSWER))), v) && Answered(v)
  {
    v := DoReturn(w, 0, Finished(ANSWER));
    assert v == Next(w, OnTask(0, ProviderReturns(Finished(ANSWER))));
  }

  /** The ledger refused the answer: the turn is settled as killed. */
  predicate Refused(u: World) {
    AgentIsFree(u) && u.nextTask == 1 && u.h.told == [Confirm("s1", K)] && u.h.lost == {Confirm("s1", K)}
  }

  lemma RefusedDb(v: World)
    requires Alive(v, 0) && v.tasks[0] == Task(0, K, Settling(PLAN, Finished(ANSWER)))
    requires CostsNonNegative(v.db) && InState(v.db, K, Killed)
    ensures SettledDb(v, 0) == v.db && !Records(v, 0)
  {
  }

  lemma RefusedIsFree(v: World, u: World)
    requires Answered(v) && u == EndTask(v, 0).(h := Lose(v.h, v.tasks[0]))
    ensures Refused(u)
  {
    assert u.tasks == map[] && u.h.lost == {Confirm("s1", K)};
  }

  lemma RefusalSteps(v: World) returns (u: World)
    requires Alive(v, 0) && v.tasks[0] == Task(0, K, Settling(PLAN, Finished(ANSWER)))
    requires 0 in v.sinks && v.sinks[0] == Sink(0, K, [], 0, false) && 0 !in v.procs[0].cancelled
    requires CostsNonNegative(v.db) && InState(v.db, K, Killed)
    ensures Steps(v, OnTask(0, Settle), u) && u == EndTask(v, 0).(h := Lose(v.h, v.tasks[0]))
  {
    RefusedDb(v);
    u := EndTask(v, 0).(h := Lose(v.h, v.tasks[0]));
    assert u == DoSettle(v, 0);
  }

  lemma AnswerIsRefused(v: World) returns (u: World)
    requires Answered(v)
    ensures Steps(v, OnTask(0, Settle), u) && Refused(u)
  {
    u := RefusalSteps(v);
    RefusedIsFree(v, u);
  }

  /** The killed provider's answer was refused before the second turn was even
      admitted, so however late it loads it opens the same conversation. */
  lemma RefusedAnswerIsReopened() returns (events: seq<Event>, w: World, l: Launch)
    ensures Initial(START) && Remembered(START) && Reaches(START, events, w)
    ensures ReopenedIn(w, l) && !Seen(w.h.confirms, "s1") && Confirm("s1", K) in l.at.unheard
  {
    StartIsRemembered();
    var first;
    events, first := FirstTurnIsRecordedKilled();
    var v := AnswerComesBack(first);
    events := Take(START, events, first, OnTask(0, ProviderReturns(Finished(ANSWER))), v);
    var u := AnswerIsRefused(v);
    events := Take(START, events, v, OnTask(0, Settle), u);
    events := SecondTurnIsReady(events, u);
    var ready := Ready2(u);
    w, l := SecondTurnReopens(ready, 1);
    events := Take(START, events, ready, OnTask(1, CallProvider), w);
  }
}
