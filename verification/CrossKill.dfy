/** A kill issued through a server that does not hold the delivery: both halves
    complete, and the turn's provider can still be called afterwards. */
module CrossKill {
  import opened Types
  import opened Sums
  import opened Capability
  import opened Limits
  import opened Rows
  import opened Database
  import opened Admission
  import opened Protocol
  import opened Kept
  import opened Claims
  import opened Kills
  import opened KillSafety
  import opened Walks

  const K := Key("agent", 1)
  const CAPS := Capabilities(true, true, true, true, true, true, true, true, true, None, true, true)
  const REGISTRY: Registry := map["claude" := CAPS]
  const ROW := QueuedRow("hello", "claude", 0, None, UnboundedSnapshot("claude"))
  const AGENT := AgentRow(AgentDef("claude", None, PLAIN), Some("s1"), 0, 0, false, None)
  const DB := Db(map["agent" := AGENT], map[K := ROW])

  /** One agent with one queued turn, and no server yet. */
  const START := World(0, DB, map[], map[], map[], {}, 0, 0,
                       History(map[], {}, [], [], [], {}, map["s1" := "agent"], {}, {}, {}, {}))

  lemma StartIsInitial()
    ensures Initial(START)
  {
    assert CostsOf(DB.turns, "agent") == map[K := 0];
    SumOfZeros(CostsOf(DB.turns, "agent"));
  }

  const PARKED := Proc(Hand, NO_STOPS, REGISTRY, NO_HOMES, false, Parked, false, 0, map[], {})
  const OPENED := PARKED.(open := true)
  const SERVING := OPENED.(dispatch := Dispatching)

  /** Both servers as `p0` and `p1`, with what recovery resubmitted to each. */
  function Pair(p0: Proc, p1: Proc): World {
    START.(procs := map[0 := p0, 1 := p1], tasks := map[0 := Task(0, K, Buffered), 1 := Task(1, K, Buffered)],
           nextProc := 2, nextTask := 2,
           h := START.h.(homes := {(K, Owner(0, 0)), (K, Owner(1, 1))}))
  }

  lemma ServersBoot()
    ensures var w1 := START.(procs := map[0 := PARKED], nextProc := 1);
            var w2 := w1.(procs := map[0 := PARKED, 1 := PARKED], nextProc := 2);
            && Steps(START, OnServer(Boot(Hand, NO_STOPS, REGISTRY, NO_HOMES)), w1)
            && Steps(w1, OnServer(Boot(Hand, NO_STOPS, REGISTRY, NO_HOMES)), w2)
  {
  }

  /** Recovery finds nothing running and resubmits the queued turn, twice over. */
  lemma ServersRecover()
    ensures var w2 := START.(procs := map[0 := PARKED, 1 := PARKED], nextProc := 2);
            var w3 := w2.(tasks := map[0 := Task(0, K, Buffered)], nextTask := 1,
                          h := START.h.(homes := {(K, Owner(0, 0))}));
            && Steps(w2, OnServer(Redeliver(0, K)), w3)
            && Steps(w3, OnServer(Redeliver(1, K)), Pair(PARKED, PARKED))
  {
  }

  lemma GateOpens(p1: Proc)
    requires p1 == PARKED || p1 == OPENED || p1 == SERVING
    ensures Steps(Pair(PARKED, p1), OnServer(Open(0)), Pair(OPENED, p1))
    ensures Steps(Pair(OPENED, p1), OnServer(Start(0)), Pair(SERVING, p1))
  {
  }

  lemma OtherGateOpens()
    ensures Steps(Pair(SERVING, PARKED), OnServer(Open(1)), Pair(SERVING, OPENED))
    ensures Steps(Pair(SERVING, OPENED), OnServer(Start(1)), Pair(SERVING, SERVING))
  {
  }

  lemma BothServe() returns (events: seq<Event>)
    ensures Reaches(START, events, Pair(SERVING, SERVING))
  {
    ServersBoot();
    ServersRecover();
    GateOpens(PARKED);
    OtherGateOpens();
    var w1 := START.(procs := map[0 := PARKED], nextProc := 1);
    var w2 := w1.(procs := map[0 := PARKED, 1 := PARKED], nextProc := 2);
    var w3 := w2.(tasks := map[0 := Task(0, K, Buffered)], nextTask := 1,
                  h := START.h.(homes := {(K, Owner(0, 0))}));
    var boot := OnServer(Boot(Hand, NO_STOPS, REGISTRY, NO_HOMES));
    events := Take(START, [], START, boot, w1);
    events := Take(START, events, w1, boot, w2);
    events := Take(START, events, w2, OnServer(Redeliver(0, K)), w3);
    events := Take(START, events, w3, OnServer(Redeliver(1, K)), Pair(PARKED, PARKED));
    events := Take(START, events, Pair(PARKED, PARKED), OnServer(Open(0)), Pair(OPENED, PARKED));
    events := Take(START, events, Pair(OPENED, PARKED), OnServer(Start(0)), Pair(SERVING, PARKED));
    events := Take(START, events, Pair(SERVING, PARKED), OnServer(Open(1)), Pair(SERVING, OPENED));
    events := Take(START, events, Pair(SERVING, OPENED), OnServer(Start(1)), Pair(SERVING, SERVING));
  }

  /** The second server kills the turn: it records, then finds no token to signal. */
  lemma KillCompletes(w: World) returns (v: World, u: World)
    requires 1 in w.procs && 1 !in w.procs[1].cancelled && K !in w.procs[1].kills && InState(w.db, K, Running)
    ensures Steps(w, OnLedger(KillRecord(1, K, "stop")), v) && Steps(v, OnServer(KillSignal(1, K)), u)
    ensures (1, K) in u.h.killed && InState(u.db, K, Killed)
    ensures u.tasks == w.tasks && u.procs == w.procs && u.edits == w.edits && u.db.agents == w.db.agents
    ensures Evolves(w.db.turns[K], u.db.turns[K])
  {
    v := Next(w, OnLedger(KillRecord(1, K, "stop")));
    u := Next(v, OnServer(KillSignal(1, K)));
  }

  lemma CheckedIsCapable(u: World)
    requires 0 in u.tasks && u.tasks[0] == Task(0, K, Checked) && 0 in u.procs && u.procs[0].registry == REGISTRY
    requires 0 !in u.procs[0].cancelled && K in u.db.turns && Evolves(ClaimRow(ROW, 0), u.db.turns[K])
    requires "agent" in u.db.agents && u.db.agents["agent"] == AGENT
    ensures CanLaunch(u, 0, K)
  {
  }

  lemma KilledTurnIsLaunchable(start: World, events: seq<Event>, w: World, p: nat, t: nat, k: Key)
    requires Initial(start) && Reaches(start, events, w) && (p, k) in w.h.killed && CanLaunch(w, t, k)
    ensures Launchable(w, k)
  {
    InitialHasProtocol(start);
    RunKeepsProtocol(start, events, w);
    SettledTurnLaunchesIff(w, k);
  }

  lemma KillArrives() returns (events: seq<Event>, w: World)
    ensures Reaches(START, events, w)
    ensures (1, K) in w.h.killed && InState(w.db, K, Killed) && CanLaunch(w, 0, K)
  {
    events := BothServe();
    var both := Pair(SERVING, SERVING);
    events := WalkPastRecheck(START, events, both, 0);
    var checked := PastRecheck(both, 0);
    var v;
    v, w := KillCompletes(checked);
    events := Take(START, events, checked, OnLedger(KillRecord(1, K, "stop")), v);
    events := Take(START, events, v, OnServer(KillSignal(1, K)), w);
    CheckedIsCapable(w);
  }

  /** In a run from rest, in which both servers recovered and opened their gates,
      a kill completes, record then signal, and a later step still launches the
      turn it killed. */
  lemma CompletedKillCanMiss() returns (events: seq<Event>, w: World)
    ensures Initial(START) && Reaches(START, events, w)
    ensures (1, K) in w.h.killed && InState(w.db, K, Killed) && Launchable(w, K)
  {
    StartIsInitial();
    events, w := KillArrives();
    KilledTurnIsLaunchable(START, events, w, 1, 0, K);
  }
}
