/** Recovery's two loops, over the ledger and into the executor's channel. */
module Recoverer {
  import opened Types
  import opened Sums
  import opened Capability
  import opened Limits
  import opened Rows
  import opened Database
  import opened Protocol
  import opened Store
  import opened Restart
  import opened Executor

  datatype RecoveryReport = RecoveryReport(orphaned: nat, orphansKilled: nat, orphansUnverified: nat, resubmitted: nat)

  /** What looking for a turn's surviving provider processes found. */
  datatype Scan = Scan(killed: nat, searched: bool)

  /** The error a crashed turn is settled with says whether its processes were
      verified dead and whether its conversation survived. */
  function OrphanMessage(searched: bool, resumable: bool): string {
    match (searched, resumable)
    case (true, true) => "orphaned; session kept"
    case (true, false) => "orphaned; no session"
    case (false, true) => "orphaned, unverified; session kept"
    case (false, false) => "orphaned, unverified; no session"
  }

  predicate Resumable(db: Db, k: Key) { k.agent in db.agents && db.agents[k.agent].session.Some? }

  /** A backend that is not linked in cannot be searched for. */
  predicate Searched(db: Db, registry: Registry, scans: Key -> Scan, k: Key) {
    k.agent in db.agents && db.agents[k.agent].def.provider in registry && scans(k).searched
  }

  function Reasons(db: Db, registry: Registry, scans: Key -> Scan): Key -> string {
    (k: Key) => OrphanMessage(Searched(db, registry, scans, k), Resumable(db, k))
  }

  /** How many of the running turns could not be verified dead. */
  function Unverified(db: Db, registry: Registry, scans: Key -> Scan, order: seq<Key>): nat {
    if order == [] then 0
    else Unverified(db, registry, scans, order[..|order| - 1])
         + if Searched(db, registry, scans, order[|order| - 1]) then 0 else 1
  }

  /** The running turns whose processes nobody could look for. */
  ghost function Unsearched(db: Db, registry: Registry, scans: Key -> Scan): set<Key> {
    set k | k in RunningKeys(db)
            && !(k.agent in db.agents && db.agents[k.agent].def.provider in registry && scans(k).searched)
  }

  lemma {:induction false} UnverifiedIsSize(
    db: Db, registry: Registry, scans: Key -> Scan, order: seq<Key>, keys: set<Key>)
    requires Enumerates(order, keys) && keys <= RunningKeys(db)
    ensures Unverified(db, registry, scans, order) == |Unsearched(db, registry, scans) * keys|
    decreases |order|
  {
    var lost := Unsearched(db, registry, scans);
    EmptyEnumeration(order, keys);
    if order == [] {
      assert lost * keys == {};
    } else {
      var n := |order| - 1;
      EnumeratesWithout(order, keys, n);
      assert Without(order, n) == order[..n] && order[n] in order;
      UnverifiedIsSize(db, registry, scans, order[..n], keys - {order[n]});
      assert lost * (keys - {order[n]}) == lost * keys - {order[n]};
    }
  }

  /** How many surviving processes the scans of the running turns killed. */
  function Reaped(db: Db, registry: Registry, scans: Key -> Scan, order: seq<Key>): nat {
    if order == [] then 0
    else Reaped(db, registry, scans, order[..|order| - 1]) + ReapedBy(db, registry, scans, order[|order| - 1])
  }

  /** No scan runs for a backend that is not linked in. */
  function ReapedBy(db: Db, registry: Registry, scans: Key -> Scan, k: Key): nat {
    if k.agent in db.agents && db.agents[k.agent].def.provider in registry then scans(k).killed else 0
  }

  /** One orphan: look for its processes, settle its row, count it. */
  method SettleOrphan(ledger: Ledger, scans: Key -> Scan, k: Key, nowMs: int, before: RecoveryReport)
    returns (report: RecoveryReport)
    requires ledger.Valid()
    modifies ledger`turns
    ensures ledger.Valid() && ledger.agents == old(ledger.agents)
    ensures var searched := Searched(old(ledger.Tables()), ledger.providers, scans, k);
            ledger.Tables() == Interrupt(old(ledger.Tables()), ledger.providers, k, Failed,
                                         OrphanMessage(searched, Resumable(old(ledger.Tables()), k)), nowMs, Recovery)
    ensures report.orphaned == before.orphaned + 1 && report.resubmitted == before.resubmitted
    ensures report.orphansUnverified ==
            before.orphansUnverified + if Searched(old(ledger.Tables()), ledger.providers, scans, k) then 0 else 1
    ensures report.orphansKilled == before.orphansKilled + ReapedBy(old(ledger.Tables()), ledger.providers, scans, k)
  {
    var resumable := k.agent in ledger.agents && ledger.agents[k.agent].session.Some?;
    var scan := Scan(0, false);
    if k.agent in ledger.agents && ledger.agents[k.agent].def.provider in ledger.providers {
      scan := scans(k);
    }
    var settled := ledger.RecoverTurn(k, OrphanMessage(scan.searched, resumable), nowMs);
    report := before.(orphaned := before.orphaned + 1, orphansKilled := before.orphansKilled + scan.killed,
                      orphansUnverified := before.orphansUnverified + if scan.searched then 0 else 1);
  }

  lemma ReasonsDependOnAgents(db: Db, other: Db, registry: Registry, scans: Key -> Scan, k: Key)
    requires db.agents == other.agents
    ensures Reasons(db, registry, scans)(k) == OrphanMessage(Searched(other, registry, scans, k), Resumable(other, k))
    ensures Searched(db, registry, scans, k) == Searched(other, registry, scans, k)
    ensures ReapedBy(db, registry, scans, k) == ReapedBy(other, registry, scans, k)
  {
  }

  lemma RecoverOneMore(db: Db, registry: Registry, order: seq<Key>, i: nat, why: Key -> string, nowMs: int)
    requires i < |order|
    ensures Recover(db, registry, order[..i + 1], why, nowMs) ==
            Interrupt(Recover(db, registry, order[..i], why, nowMs), registry, order[i], Failed, why(order[i]),
                      nowMs, Recovery)
  {
    assert order[..i + 1][..i] == order[..i];
  }

  lemma UnverifiedOneMore(db: Db, registry: Registry, scans: Key -> Scan, order: seq<Key>, i: nat)
    requires i < |order|
    ensures Unverified(db, registry, scans, order[..i + 1]) ==
            Unverified(db, registry, scans, order[..i]) + if Searched(db, registry, scans, order[i]) then 0 else 1
    ensures Reaped(db, registry, scans, order[..i + 1]) ==
            Reaped(db, registry, scans, order[..i]) + ReapedBy(db, registry, scans, order[i])
  {
    assert order[..i + 1][..i] == order[..i];
  }

  /** The first loop of `recover`: settle every running row. */
  method SettleOrphans(ledger: Ledger, scans: Key -> Scan, nowMs: int)
    returns (report: RecoveryReport, ghost order: seq<Key>)
    requires ledger.Valid()
    modifies ledger`turns
    ensures ledger.Valid()
    ensures Enumerates(order, RunningKeys(old(ledger.Tables())))
    ensures ledger.Tables() == Recover(old(ledger.Tables()), ledger.providers, order,
                                       Reasons(old(ledger.Tables()), ledger.providers, scans), nowMs)
    ensures report.orphaned == |order| && report.resubmitted == 0
    ensures report.orphansUnverified == Unverified(old(ledger.Tables()), ledger.providers, scans, order)
    ensures report.orphansUnverified == |Unsearched(old(ledger.Tables()), ledger.providers, scans)|
    ensures report.orphansKilled == Reaped(old(ledger.Tables()), ledger.providers, scans, order)
  {
    ghost var start, registry := ledger.Tables(), ledger.providers;
    ghost var why := Reasons(start, registry, scans);
    report := RecoveryReport(0, 0, 0, 0);
    var running := Ledger.Select(RunningKeys(ledger.Tables()));
    order := running;
    for i := 0 to |running|
      invariant ledger.Valid() && ledger.agents == start.agents
      invariant ledger.Tables() == Recover(start, registry, running[..i], why, nowMs)
      invariant report.orphaned == i && report.resubmitted == 0
      invariant report.orphansUnverified == Unverified(start, registry, scans, running[..i])
      invariant report.orphansKilled == Reaped(start, registry, scans, running[..i])
    {
      ReasonsDependOnAgents(start, ledger.Tables(), registry, scans, running[i]);
      RecoverOneMore(start, registry, running, i, why, nowMs);
      UnverifiedOneMore(start, registry, scans, running, i);
      report := SettleOrphan(ledger, scans, running[i], nowMs, report);
    }
    assert running[..|running|] == running;
    UnverifiedIsSize(start, registry, scans, running, RunningKeys(start));
    assert Unsearched(start, registry, scans) * RunningKeys(start) == Unsearched(start, registry, scans);
  }

  /** A recovered turn's error says that its processes were verified dead exactly
      when its backend is linked in and could be searched, and that its session was
      kept exactly when its agent has one. */
  lemma OrphanIsExplained(
    db: Db, registry: Registry, scans: Key -> Scan, order: seq<Key>, nowMs: int, k: Key)
    requires Enumerates(order, RunningKeys(db)) && InState(db, k, Running)
    ensures var after := Recover(db, registry, order, Reasons(db, registry, scans), nowMs);
            && k in after.turns && after.turns[k].error.Some?
            && var why := after.turns[k].error.value;
               && (why in {"orphaned; session kept", "orphaned; no session"} <==>
                     k.agent in db.agents && db.agents[k.agent].def.provider in registry && scans(k).searched)
               && (why in {"orphaned; session kept", "orphaned, unverified; session kept"} <==>
                     k.agent in db.agents && db.agents[k.agent].session != None)
               && why in {"orphaned; session kept", "orphaned; no session",
                          "orphaned, unverified; session kept", "orphaned, unverified; no session"}
  {
    RecoverSettlesTheList(db, registry, order, Reasons(db, registry, scans), nowMs);
    assert k in RunningKeys(db) && k in order;
  }

  /** The second loop: hand every queued row to the executor again. */
  method Resubmit(exec: HandExecutor, pending: seq<Key>, before: RecoveryReport) returns (report: RecoveryReport)
    modifies exec`queue
    ensures exec.queue == old(exec.queue) + pending
    ensures report == before.(resubmitted := before.resubmitted + |pending|)
  {
    report := before;
    for i := 0 to |pending|
      invariant exec.queue == old(exec.queue) + pending[..i]
      invariant report == before.(resubmitted := before.resubmitted + i)
    {
      exec.Submit(pending[i]);
      report := report.(resubmitted := report.resubmitted + 1);
      assert pending[..i + 1] == pending[..i] + [pending[i]];
    }
    assert pending[..|pending|] == pending;
  }

  /** `recover`: settle what was running, resubmit what was queued. */
  method RecoverAll(ledger: Ledger, exec: HandExecutor, scans: Key -> Scan, nowMs: int)
    returns (report: RecoveryReport, ghost running: seq<Key>, ghost queued: seq<Key>)
    requires ledger.Valid()
    modifies ledger`turns, exec`queue
    ensures ledger.Valid()
    ensures Enumerates(running, RunningKeys(old(ledger.Tables())))
    ensures Enumerates(queued, QueuedKeys(old(ledger.Tables())))
    ensures ledger.Tables() == Recover(old(ledger.Tables()), ledger.providers, running,
                                       Reasons(old(ledger.Tables()), ledger.providers, scans), nowMs)
    ensures RunningKeys(ledger.Tables()) == {} && QueuedKeys(ledger.Tables()) == QueuedKeys(old(ledger.Tables()))
    ensures exec.queue == old(exec.queue) + queued
    ensures report.orphaned == |running| && report.resubmitted == |queued|
  {
    ghost var start := ledger.Tables();
    report, running := SettleOrphans(ledger, scans, nowMs);
    RecoveryIsComplete(start, ledger.providers, running, Reasons(start, ledger.providers, scans), nowMs);
    var pending := Ledger.Select(QueuedKeys(ledger.Tables()));
    queued := pending;
    report := Resubmit(exec, pending, report);
  }
}
