/**
 The lifecycle as the daemon writes it: methods over the shared table, the store
 and the respawn queue. Each method, run by itself, does what the steps of its task
 do one after the other in `World`; the interleavings are studied there.
 */
module Lifecycle {
  import opened Wrappers
  import opened ProcessTables
  import opened StateStore
  import opened World
  import opened WorldFrames
  import opened WorldBoot

  // ----- a task run to its end ----------------------------------------------

  function ReaperLeft(r: Reaper): nat {
    match r
    case Waiting(_) => 4
    case Looking(_, _) => 3
    case Charging(_, _, _) => 2
    case Marking(_, _, _, _, _) => 1
    case GivingUp(_) => 1
  }

  lemma ReaperNearsItsEnd(w: World, pid: Pid)
    requires pid in w.reapers
    ensures pid in DoReap(w, pid).reapers ==> ReaperLeft(DoReap(w, pid).reapers[pid]) < ReaperLeft(w.reapers[pid])
  {
    hide MarkedFailed; hide DoCheck; hide DoCharge; hide DoMark;
    match w.reapers[pid]
    case Waiting(k) => CheckNears(w, pid, k);
    case Looking(_, _) =>
    case GivingUp(_) =>
    case Charging(k, spec, cap) => ChargeNears(w, pid, k, spec, cap);
    case Marking(k, spec, cap, count, stamp) => MarkIsLast(w, pid, k, spec, cap, count, stamp);
  }

  lemma CheckNears(w: World, pid: Pid, k: Key)
    ensures pid in DoCheck(w, pid, k).reapers ==> DoCheck(w, pid, k).reapers[pid].Looking?
  {
  }

  lemma ChargeNears(w: World, pid: Pid, k: Key, spec: Spec, cap: nat)
    ensures var v := DoCharge(w, pid, k, spec, cap); pid in v.reapers ==> v.reapers[pid].Marking?
  {
    hide Charged; hide ChargedRow;
  }

  lemma MarkIsLast(w: World, pid: Pid, k: Key, spec: Spec, cap: nat, count: nat, stamp: int)
    ensures pid !in DoMark(w, pid, k, spec, cap, count, stamp).reapers
  {
    hide MarkedExhausted; hide MarkedRestarting; hide Ours;
  }

  // The reaper of `pid` until it is done, with the attempts at the trip write if it tripped.
  function RunReaper(w: World, pid: Pid, disk: seq<bool>): World
    requires |disk| == 3
    decreases if pid in w.reapers then ReaperLeft(w.reapers[pid]) else 0
  {
    if pid !in w.reapers then w
    else
      var r, v := w.reapers[pid], DoReap(w, pid);
      ReaperNearsItsEnd(w, pid);
      if r.Marking? && Trip(r.key, r.cap, 3) in v.writes then Attempts(v, r.key, r.cap, disk)
      else RunReaper(v, pid, disk)
  }

  lemma ReaperStandsDown(w: World, pid: Pid, k: Key, disk: seq<bool>)
    requires |disk| == 3 && w.reapers == map[pid := Waiting(k)] && !OwnsRow(w.table, k, pid)
    ensures var v := RunReaper(w, pid, disk); v.table == w.table && v.store == w.store && v.queue == w.queue
  {
    assert pid !in DoReap(w, pid).reapers;
  }

  lemma ReaperGivesUp(w: World, pid: Pid, k: Key, disk: seq<bool>)
    requires |disk| == 3 && w.reapers == map[pid := Waiting(k)]
    requires OwnsRow(w.table, k, pid) && !Respawnable(w.store, k, w.table[k].userFlagged)
    ensures var v := RunReaper(w, pid, disk);
      v.table == MarkedFailed(w.table, k, pid) && v.store == w.store && v.queue == w.queue
  {
    hide RunReaper;
    var w1 := DoReap(w, pid);
    assert w1.reapers[pid] == Looking(k, w.table[k].userFlagged);
    var w2 := DoReap(w1, pid);
    assert w2.reapers[pid] == GivingUp(k);
    var w3 := DoReap(w2, pid);
    ReaperGoesOn(w, pid, disk);
    ReaperGoesOn(w1, pid, disk);
    ReaperGoesOn(w2, pid, disk);
    assert RunReaper(w3, pid, disk) == w3 by { ReaperIsDone(w3, pid, disk); }
  }

  lemma ReaperGoesOn(w: World, pid: Pid, disk: seq<bool>)
    requires |disk| == 3 && pid in w.reapers && !w.reapers[pid].Marking?
    ensures RunReaper(w, pid, disk) == RunReaper(DoReap(w, pid), pid, disk)
  {
    hide DoReap;
  }

  lemma ReaperIsDone(w: World, pid: Pid, disk: seq<bool>)
    requires |disk| == 3 && pid !in w.reapers
    ensures RunReaper(w, pid, disk) == w
  {
  }

  lemma ReaperLooks(w: World, pid: Pid, k: Key)
    requires w.reapers == map[pid := Waiting(k)]
    requires OwnsRow(w.table, k, pid) && Respawnable(w.store, k, w.table[k].userFlagged)
    ensures DoReap(w, pid) == w.(reapers := map[pid := Looking(k, w.table[k].userFlagged)])
    ensures DoReap(DoReap(w, pid), pid) ==
            w.(reapers := map[pid := Charging(k, w.store[k].spec, w.store[k].maxRestarts)])
  {
    var looking, charging := Looking(k, w.table[k].userFlagged), Charging(k, w.store[k].spec, w.store[k].maxRestarts);
    assert map[pid := Waiting(k)][pid := looking] == map[pid := looking];
    assert map[pid := looking][pid := charging] == map[pid := charging];
  }

  lemma ReaperPays(w: World, pid: Pid, k: Key, spec: Spec, cap: nat)
    requires w.reapers == map[pid := Charging(k, spec, cap)] && k in w.table
    ensures var row := ChargedRow(w.table[k], w.now);
      DoReap(w, pid) == w.(table := w.table[k := row], charges := w.charges[k := Log(w.charges, k) + [w.now]],
                           reapers := map[pid := Marking(k, spec, cap, row.restartCount, w.now)])
  {
    hide ChargedRow;
    var marking := Marking(k, spec, cap, ChargedRow(w.table[k], w.now).restartCount, w.now);
    assert map[pid := Charging(k, spec, cap)][pid := marking] == map[pid := marking];
  }

  lemma ReaperCharges(w: World, pid: Pid, k: Key, disk: seq<bool>)
    requires |disk| == 3 && w.reapers == map[pid := Waiting(k)] && w.writes == multiset{}
    requires OwnsRow(w.table, k, pid) && Respawnable(w.store, k, w.table[k].userFlagged)
    ensures var row, stored := ChargedRow(w.table[k], w.now), w.store[k];
      var w2 := w.(table := w.table[k := row], charges := w.charges[k := Log(w.charges, k) + [w.now]],
                   reapers := map[pid := Marking(k, stored.spec, stored.maxRestarts, row.restartCount, w.now)]);
      RunReaper(w, pid, disk) == RunReaper(w2, pid, disk)
  {
    hide ChargedRow; hide DoReap; hide RunReaper;
    ReaperLooks(w, pid, k);
    var w0 := DoReap(w, pid);
    var w1 := DoReap(w0, pid);
    ReaperPays(w1, pid, k, w.store[k].spec, w.store[k].maxRestarts);
    ReaperGoesOn(w, pid, disk);
    ReaperGoesOn(w0, pid, disk);
    ReaperGoesOn(w1, pid, disk);
  }

  lemma ReaperMarks(w: World, pid: Pid, k: Key, spec: Spec, cap: nat, count: nat, stamp: int, disk: seq<bool>)
    requires |disk| == 3 && w.reapers == map[pid := Marking(k, spec, cap, count, stamp)] && w.writes == multiset{}
    requires k in w.store && ValidKey(k)
    ensures var v, mine := RunReaper(w, pid, disk), Ours(w.table, k, pid);
      && v.table == (if count >= cap then MarkedExhausted(w.table, k, pid) else MarkedRestarting(w.table, k, pid))
      && v.store == (if mine && count >= cap && true in disk then Tripped(w.store, k, cap) else w.store)
      && v.queue == (if mine && count < cap then w.queue + [spec] else w.queue)
  {
    var w1 := DoReap(w, pid);
    assert pid !in w1.reapers;
    if Ours(w.table, k, pid) && count >= cap {
      assert Trip(k, cap, 3) in w1.writes;
      AttemptsReachDisk(w1, k, cap, disk);
      hide Attempts;
    } else {
      assert w1.writes == multiset{};
    }
  }

  // A load has at most five steps left: spawn, read, place, look, settle.
  function LoadOnce(w: World, pid: Pid, spawned: bool): World {
    if pid in w.loads then DoLoad(w, pid, spawned) else w
  }

  function RunLoad(w: World, pid: Pid, spawned: bool): World {
    LoadOnce(LoadOnce(LoadOnce(LoadOnce(LoadOnce(w, pid, spawned), pid, spawned), pid, spawned), pid, spawned),
             pid, spawned)
  }

  // A judge has at most four steps left: find, kill, read, land with the tally reset of a verified `ready`.
  function JudgeOnce(w: World, seat: Seat, finding: Finding, disk: bool): World {
    if seat !in w.judges then w
    else
      var j, v := w.judges[seat], DoJudge(w, seat, finding);
      if j.Landing? && j.verdict.Ready? then DoPersist(v, Zero(j.spec.modelName), disk) else v
  }

  function RunJudge(w: World, seat: Seat, finding: Finding, disk: bool): World {
    JudgeOnce(JudgeOnce(JudgeOnce(JudgeOnce(w, seat, finding, disk), seat, finding, disk), seat, finding, disk),
              seat, finding, disk)
  }

  lemma LoadFails(w: World, pid: Pid, spec: Spec)
    requires w.loads == map[pid := Calling(spec, Operator)]
    ensures var v := RunLoad(w, pid, false); v.table == w.table && v.store == w.store && v.queue == w.queue
  {
    assert LoadOnce(w, pid, false) == DoAbandon(w, pid);
  }

  lemma SpawnStep(w: World, pid: Pid, spec: Spec)
    requires w.loads == map[pid := Calling(spec, Operator)]
    ensures var v := LoadOnce(w, pid, true);
      && v.loads == map[pid := Reading(spec, Operator)]
      && v.table == w.table && v.store == w.store && v.queue == w.queue && v.now == w.now
  {
  }

  lemma ReadStep(w: World, pid: Pid, spec: Spec)
    requires w.loads == map[pid := Reading(spec, Operator)]
    ensures var v := LoadOnce(w, pid, true);
      && v.loads == map[pid := Placing(spec, Operator, Get(w.table, spec.modelName))]
      && v.table == w.table && v.store == w.store && v.queue == w.queue && v.now == w.now
  {
  }

  lemma PlaceStep(w: World, pid: Pid, spec: Spec, prev: Option<Row>)
    requires w.loads == map[pid := Placing(spec, Operator, prev)]
    ensures var v := LoadOnce(w, pid, true);
      && v.table == w.table[spec.modelName := EntryFor(spec, pid, Starting, Inherits(prev), prev, w.now)]
      && v.store == w.store && v.queue == w.queue && v.now == w.now
      && v.loads == if spec.Gated() then map[] else map[pid := Settling(spec, Operator, Inherits(prev), prev, false)]
  {
    assert map[pid := Placing(spec, Operator, prev)] - {pid} == map[];
  }

  lemma ConfirmStep(w: World, pid: Pid, spec: Spec, inherit: bool, prev: Option<Row>)
    requires w.loads == map[pid := Settling(spec, Operator, inherit, prev, false)]
      && OwnsRow(w.table, spec.modelName, pid)
    ensures var v := LoadOnce(w, pid, true);
      && v.loads == map[pid := Settling(spec, Operator, inherit, prev, true)]
      && v.table == w.table && v.store == w.store && v.queue == w.queue && v.now == w.now
  {
    assert map[pid := Settling(spec, Operator, inherit, prev, false)]
              [pid := Settling(spec, Operator, inherit, prev, true)]
           == map[pid := Settling(spec, Operator, inherit, prev, true)];
  }

  lemma SettleStep(w: World, pid: Pid, spec: Spec, inherit: bool, prev: Option<Row>)
    requires w.loads == map[pid := Settling(spec, Operator, inherit, prev, true)]
    ensures var v := LoadOnce(w, pid, true);
      && v.table == w.table[spec.modelName := EntryFor(spec, pid, Ready, inherit, prev, w.now)]
      && v.store == w.store && v.queue == w.queue
  {
  }

  lemma LoadPlaces(w: World, pid: Pid, spec: Spec)
    requires w.loads == map[pid := Calling(spec, Operator)]
    ensures var v, prev := RunLoad(w, pid, true), Get(w.table, spec.modelName);
      && v.store == w.store && v.queue == w.queue
      && v.table == w.table[spec.modelName :=
           EntryFor(spec, pid, if spec.Gated() then Starting else Ready, Inherits(prev), prev, w.now)]
  {
    hide DoLoad;
    var prev := Get(w.table, spec.modelName);
    SpawnStep(w, pid, spec);
    ReadStep(LoadOnce(w, pid, true), pid, spec);
    var w1 := LoadOnce(LoadOnce(w, pid, true), pid, true);
    PlaceStep(w1, pid, spec, prev);
    if !spec.Gated() {
      var w2 := LoadOnce(w1, pid, true);
      EntryIsFor(spec, pid, Inherits(prev), prev, w.now);
      ConfirmStep(w2, pid, spec, Inherits(prev), prev);
      SettleStep(LoadOnce(w2, pid, true), pid, spec, Inherits(prev), prev);
    }
  }

  lemma EntryIsFor(spec: Spec, pid: Pid, inherit: bool, prev: Option<Row>, now: int)
    ensures forall status: Status ::
      var e := EntryFor(spec, pid, status, inherit, prev, now); e.spec == spec && e.pid == pid
  {
  }

  // A decision of a judge whose row is still its own, and one whose row is not.
  lemma DecideOnce(w: World, seat: Seat, finding: Finding, next: Judge, disk: bool)
    requires seat in w.judges && !w.judges[seat].Landing? && DoJudge(w, seat, finding) == Decide(w, seat, next)
    ensures OwnsStartingRow(w.table, next.spec.modelName, seat.pid) ==>
              JudgeOnce(w, seat, finding, disk) == w.(judges := w.judges[seat := next])
    ensures !OwnsStartingRow(w.table, next.spec.modelName, seat.pid) ==>
              JudgeOnce(w, seat, finding, disk) == w.(judges := w.judges - {seat})
  {
  }

  // A judge that has passed its check reads the row.
  lemma PassOnce(w: World, seat: Seat, finding: Finding, spec: Spec, inherit: bool, verdict: Status, disk: bool)
    requires seat in w.judges && w.judges[seat] == Passed(spec, inherit, verdict)
    ensures JudgeOnce(w, seat, finding, disk) ==
            w.(judges := w.judges[seat := Landing(spec, inherit, verdict, Get(w.table, spec.modelName))])
  {
  }

  lemma LandFacts(w: World, seat: Seat, spec: Spec, inherit: bool, verdict: Status, prev: Option<Row>, disk: bool)
    requires forall q :: q in w.store ==> ValidKey(q)
    ensures var v, k := Land(w, seat, spec, inherit, verdict, prev), spec.modelName;
      && v.judges == w.judges - {seat} && v.queue == w.queue && v.store == w.store
      && v.table == w.table[k := EntryFor(spec, seat.pid, verdict, inherit, prev, w.now)]
    ensures var k := spec.modelName;
      var v := DoPersist(Land(w, seat, spec, inherit, verdict, prev), Zero(k), disk);
      && v.judges == w.judges - {seat} && v.queue == w.queue
      && v.store == (if disk then Zeroed(w.store, k) else w.store)
      && v.table == w.table[k := EntryFor(spec, seat.pid, verdict, inherit, prev, w.now)]
  {
    var k, v := spec.modelName, Land(w, seat, spec, inherit, verdict, prev);
    LandAlone(w, seat, spec, inherit, verdict, prev);
    PersistFrame(v, Zero(k), disk);
    ZeroReaches(w.store, k);
    hide EntryFor; hide Land; hide DoPersist; hide Readable; hide Revision; hide Committed; hide Zeroed;
  }

  lemma LandAlone(w: World, seat: Seat, spec: Spec, inherit: bool, verdict: Status, prev: Option<Row>)
    ensures var v, k := Land(w, seat, spec, inherit, verdict, prev), spec.modelName;
      && v.judges == w.judges - {seat} && v.queue == w.queue && v.store == w.store
      && v.table == w.table[k := EntryFor(spec, seat.pid, verdict, inherit, prev, w.now)]
  {
    hide EntryFor; hide ChargesAfter;
  }

  lemma ZeroReaches(store: Manifests, k: Key)
    requires forall q :: q in store ==> ValidKey(q)
    ensures (if Readable(store, Zero(k)) then Committed(store, Draft(Zero(k), Revision(store, Zero(k)))) else store)
            == Zeroed(store, k)
  {
    hide ValidKey;
  }

  lemma LandOnce(w: World, seat: Seat, finding: Finding, spec: Spec, inherit: bool, verdict: Status, prev: Option<Row>,
                 disk: bool)
    requires seat in w.judges && w.judges[seat] == Landing(spec, inherit, verdict, prev)
    requires forall q :: q in w.store ==> ValidKey(q)
    ensures var v, k := JudgeOnce(w, seat, finding, disk), spec.modelName;
      && seat !in v.judges && v.queue == w.queue
      && v.table == w.table[k := EntryFor(spec, seat.pid, verdict, inherit, prev, w.now)]
      && v.store == if verdict.Ready? && disk then Zeroed(w.store, k) else w.store
  {
    LandFacts(w, seat, spec, inherit, verdict, prev, disk);
    hide Land; hide DoPersist; hide EntryFor; hide Zeroed; hide ValidKey;
  }

  // From its check on, a judge needs two steps.
  lemma ReadsAndLands(w: World, seat: Seat, finding: Finding, spec: Spec, inherit: bool, verdict: Status, disk: bool)
    requires seat in w.judges && w.judges[seat] == Passed(spec, inherit, verdict)
    requires forall q :: q in w.store ==> ValidKey(q)
    ensures var v, k := JudgeOnce(JudgeOnce(w, seat, finding, disk), seat, finding, disk), spec.modelName;
      && seat !in v.judges && v.queue == w.queue
      && v.table == w.table[k := EntryFor(spec, seat.pid, verdict, inherit, Get(w.table, k), w.now)]
      && v.store == if verdict.Ready? && disk then Zeroed(w.store, k) else w.store
  {
    hide JudgeOnce; hide EntryFor; hide Zeroed; hide ValidKey;
    PassOnce(w, seat, finding, spec, inherit, verdict, disk);
    LandOnce(JudgeOnce(w, seat, finding, disk), seat, finding, spec, inherit, verdict, Get(w.table, spec.modelName),
             disk);
  }

  lemma JudgePasses(w: World, seat: Seat, spec: Spec, inherit: bool, since: int, disk: bool)
    requires w.judges == map[seat := Polling(spec, inherit, since)] && forall q :: q in w.store ==> ValidKey(q)
    ensures var v, k, own := RunJudge(w, seat, Healthy, disk), spec.modelName,
      OwnsStartingRow(w.table, spec.modelName, seat.pid);
      && v.queue == w.queue
      && v.table == (if own then w.table[k := EntryFor(spec, seat.pid, Ready, false, Get(w.table, k), w.now)]
                     else w.table)
      && v.store == (if own && disk then Zeroed(w.store, k) else w.store)
  {
    var next := Passed(spec, false, Ready);
    DecideOnce(w, seat, Healthy, next, disk);
    if OwnsStartingRow(w.table, spec.modelName, seat.pid) {
      ReadsAndLands(w.(judges := w.judges[seat := next]), seat, Healthy, spec, false, Ready, disk);
    }
    hide DoJudge; hide DoPersist; hide EntryFor;
  }

  lemma JudgeExpires(w: World, seat: Seat, spec: Spec, inherit: bool, since: int, disk: bool)
    requires w.judges == map[seat := Polling(spec, inherit, since)] && forall q :: q in w.store ==> ValidKey(q)
    ensures var v, k, own := RunJudge(w, seat, TimedOut, disk), spec.modelName,
      OwnsStartingRow(w.table, spec.modelName, seat.pid);
      && v.queue == w.queue && v.store == w.store
      && v.table == (if own then w.table[k := EntryFor(spec, seat.pid, Failed, inherit, Get(w.table, k), w.now)]
                     else w.table)
  {
    var kill, fail := Killing(spec, inherit), Passed(spec, inherit, Failed);
    DecideOnce(w, seat, TimedOut, kill, disk);
    if OwnsStartingRow(w.table, spec.modelName, seat.pid) {
      var w1 := w.(judges := w.judges[seat := kill]);
      DecideOnce(w1, seat, TimedOut, fail, disk);
      ReadsAndLands(w1.(judges := w1.judges[seat := fail]), seat, TimedOut, spec, inherit, Failed, disk);
    }
    hide DoJudge; hide DoPersist; hide EntryFor;
  }

  lemma JudgeHearsNothing(w: World, seat: Seat, spec: Spec, inherit: bool, since: int, disk: bool)
    requires w.judges == map[seat := Polling(spec, inherit, since)]
    ensures var v := RunJudge(w, seat, NoAnswer, disk); v.table == w.table && v.store == w.store && v.queue == w.queue
  {
    assert JudgeOnce(w, seat, NoAnswer, disk).judges == map[];
  }

  // What the tasks share: the table, the manifests and the respawn queue.
  datatype Shared = Shared(table: map<Key, Row>, store: Manifests, queue: seq<Spec>)

  function After(w: World): Shared { Shared(w.table, w.store, w.queue) }

  // The shared state with nothing but these tasks about to run.
  function Around(s: Shared, loads: map<Pid, Load>, judges: map<Seat, Judge>, reapers: map<Pid, Reaper>,
                  now: int): World {
    World(s.table, s.store, s.queue, loads, judges, reapers, multiset{}, multiset{}, Sweep([], None, {}),
          {}, map[], now, map[], [], [])
  }

  function JudgeAlone(s: Shared, seat: Seat, spec: Spec, inherit: bool, since: int, finding: Finding, now: int,
                      disk: bool): Shared {
    After(RunJudge(Around(s, map[], map[seat := Polling(spec, inherit, since)], map[], now), seat, finding, disk))
  }

  // One row of the reconciler's snapshot: too young rows and gate-less ones are
  // skipped, age is judged before health.
  function ReconcileRow(s: Shared, row: Row, healthy: bool, now: int, disk: bool): Shared {
    var age := now - row.startedAt;
    if !row.status.Starting? || !row.spec.Gated() || age < GRACE_MS then s
    else JudgeAlone(s, Seat(Recon, row.pid), row.spec, false, row.startedAt,
                    if age > Deadline(row.spec) then TimedOut else if healthy then Healthy else NoAnswer, now, disk)
  }

  function ReconcileRows(s: Shared, snapshot: seq<Row>, healthy: seq<bool>, now: int, disk: seq<bool>): Shared
    requires |snapshot| == |healthy| == |disk|
  {
    if snapshot == [] then s
    else
      var n := |snapshot| - 1;
      ReconcileRow(ReconcileRows(s, snapshot[..n], healthy[..n], now, disk[..n]), snapshot[n], healthy[n], now, disk[n])
  }

  // The manifests a boot sweep loads, in order. `alive` are the pids that answer.
  function Swept(manifests: seq<Stored>, table: map<Key, Row>, alive: set<Pid>): seq<Stored> {
    if manifests == [] then []
    else
      var n := |manifests| - 1;
      Swept(manifests[..n], table, alive) + if Wanted(manifests[n], table, alive) then [manifests[n]] else []
  }

  predicate Wanted(s: Stored, table: map<Key, Row>, alive: set<Pid>) {
    Replayable(s) && !(s.spec.modelName in table && table[s.spec.modelName].pid in alive)
  }

  /** A swept manifest is one of the listing that is wanted, and every wanted one is swept. */
  lemma {:induction false} SweptExactly(manifests: seq<Stored>, table: map<Key, Row>, alive: set<Pid>, s: Stored)
    ensures s in Swept(manifests, table, alive) <==>
      && s in manifests && s.desired && !s.userFlagged && s.persistedRestartCount < s.maxRestarts
      && !(s.spec.modelName in table && table[s.spec.modelName].pid in alive)
  {
    if manifests != [] {
      var n := |manifests| - 1;
      SweptExactly(manifests[..n], table, alive, s);
      assert manifests == manifests[..n] + [manifests[n]];
    }
  }

  /** The sweep takes the manifests in the order of the listing. */
  lemma {:induction false} SweptInOrder(a: seq<Stored>, b: seq<Stored>, table: map<Key, Row>, alive: set<Pid>)
    ensures Swept(a + b, table, alive) == Swept(a, table, alive) + Swept(b, table, alive)
  {
    if b == [] {
      assert a + b == a;
    } else {
      var n := |b| - 1;
      assert (a + b)[..|a + b| - 1] == a + b[..n];
      SweptInOrder(a, b[..n], table, alive);
    }
  }

  // ----- the class ----------------------------------------------------------

  class TamadLifecycle {
    const table: ProcessTable
    const store: Store
    var queue: seq<Spec>

    constructor (table: ProcessTable, store: Store)
      ensures this.table == table && this.store == store && queue == []
    {
      this.table, this.store, queue := table, store, [];
    }

    function Now(): Shared
      reads this, table, store
    {
      Shared(table.inner, store.entries, queue)
    }

    /** Runs when the child `pid` of model `k` has exited. */
    method ReapDeadPid(k: Key, pid: Pid, now: int, disk: seq<bool>)
      requires |disk| == 3 && forall q :: q in store.entries ==> ValidKey(q)
      modifies this, table, store
      ensures Now() == After(RunReaper(Around(old(Now()), map[], map[], map[pid := Waiting(k)], now), pid, disk))
    {
      hide RunReaper; hide ChargedRow;
      ghost var w := Around(Now(), map[], map[], map[pid := Waiting(k)], now);
      if k !in table.inner || table.inner[k].pid != pid {
        ReaperStandsDown(w, pid, k, disk);
        return;
      }
      var row := table.inner[k];
      var respawn := k in store.entries && store.entries[k].desired && !store.entries[k].userFlagged
                     && !row.userFlagged;
      if !respawn {
        ReaperGivesUp(w, pid, k, disk);
        table.MarkFailed(k, pid);
        return;
      }
      ReaperCharges(w, pid, k, disk);
      var stored := store.entries[k];
      var count := table.RecordRestartWindow(k, now);
      if count.None? {
        return;
      }
      ReaperMarks(w.(table := table.inner, charges := map[k := [now]],
                     reapers := map[pid := Marking(k, stored.spec, stored.maxRestarts, count.value, now)]),
                  pid, k, stored.spec, stored.maxRestarts, count.value, now, disk);
      assert Log(w.charges, k) + [now] == [now];
      if count.value >= stored.maxRestarts {
        var moved := table.MarkBudgetExhausted(k, pid);
        if moved {
          var _ := store.PersistTripped(k, stored.maxRestarts, disk);
        }
        return;
      }
      var moved := table.MarkRestarting(k, pid);
      if moved {
        queue := queue + [stored.spec];
      }
    }

    /** Spawn the process and place its row; without a gate, settle it on the spot. */
    method Load(spec: Spec, pid: Pid, spawned: bool, now: int) returns (answer: Option<Status>)
      modifies table
      ensures Now() ==
              After(RunLoad(Around(old(Now()), map[pid := Calling(spec, Operator)], map[], map[], now), pid, spawned))
      ensures answer == if !spawned then None else if spec.Gated() then Some(Starting) else Some(Ready)
    {
      hide RunLoad; hide EntryFor;
      ghost var w := Around(Now(), map[pid := Calling(spec, Operator)], map[], map[], now);
      if !spawned {
        LoadFails(w, pid, spec);
        return None;
      }
      var k := spec.modelName;
      var prev := Get(table.inner, k);
      var inherit := prev.Some? && prev.value.status.Restarting?;
      EntryIsFor(spec, pid, inherit, prev, now);
      table.Insert(EntryFor(spec, pid, Starting, inherit, prev, now));
      LoadPlaces(w, pid, spec);
      if spec.Gated() {
        return Some(Starting);
      }
      if k in table.inner && table.inner[k].pid == pid {
        table.Insert(EntryFor(spec, pid, Ready, inherit, prev, now));
      }
      answer := Some(Ready);
    }

    // A judge of either kind, once it knows what it found. It checks the row before
    // it kills and again before it writes; run alone, both checks see the same row.
    method Judge(seat: Seat, spec: Spec, inherit: bool, since: int, finding: Finding, now: int, diskTakes: bool)
      requires forall q :: q in store.entries ==> ValidKey(q)
      modifies table, store
      ensures Now() == JudgeAlone(old(Now()), seat, spec, inherit, since, finding, now, diskTakes)
      ensures forall q :: q in store.entries ==> ValidKey(q)
    {
      hide RunJudge;
      ghost var w := Around(Now(), map[], map[seat := Polling(spec, inherit, since)], map[], now);
      JudgePasses(w, seat, spec, inherit, since, diskTakes);
      JudgeExpires(w, seat, spec, inherit, since, diskTakes);
      JudgeHearsNothing(w, seat, spec, inherit, since, diskTakes);
      var k := spec.modelName;
      var mine := k in table.inner && table.inner[k].pid == seat.pid && table.inner[k].status.Starting?;
      if mine && finding.Healthy? {
        table.Insert(EntryFor(spec, seat.pid, Ready, false, Get(table.inner, k), now));
        var _ := store.ZeroPersistedRestartCount(k, diskTakes);
      } else if mine && finding.TimedOut? {
        table.Insert(EntryFor(spec, seat.pid, Failed, inherit, Get(table.inner, k), now));
      }
    }

    /** The detached gate of a spawn, once the backend answered or the timeout passed. */
    method SettleGate(spec: Spec, pid: Pid, inherit: bool, healthy: bool, now: int, diskTakes: bool)
      requires forall q :: q in store.entries ==> ValidKey(q)
      modifies table, store
      ensures Now() == JudgeAlone(old(Now()), Seat(Gate, pid), spec, inherit, now,
                                  if healthy then Healthy else TimedOut, now, diskTakes)
    {
      Judge(Seat(Gate, pid), spec, inherit, now, if healthy then Healthy else TimedOut, now, diskTakes);
    }

    /** One pass over a snapshot of the rows; `healthy` and `diskTakes` are the outcomes, row by row. */
    method ReconcileOnce(snapshot: seq<Row>, healthy: seq<bool>, now: int, diskTakes: seq<bool>)
      requires |snapshot| == |healthy| == |diskTakes|
      requires forall q :: q in store.entries ==> ValidKey(q)
      modifies table, store
      ensures Now() == ReconcileRows(old(Now()), snapshot, healthy, now, diskTakes)
    {
      hide JudgeAlone;
      ghost var s := Now();
      var i := 0;
      while i < |snapshot|
        invariant 0 <= i <= |snapshot|
        invariant forall q :: q in store.entries ==> ValidKey(q)
        invariant Now() == ReconcileRows(s, snapshot[..i], healthy[..i], now, diskTakes[..i])
      {
        var row := snapshot[i];
        assert snapshot[..i + 1][..i] == snapshot[..i];
        assert healthy[..i + 1][..i] == healthy[..i] && diskTakes[..i + 1][..i] == diskTakes[..i];
        var age := now - row.startedAt;
        if row.status.Starting? && row.spec.healthUrl != "" && row.spec.healthTimeoutMs != 0 && age >= GRACE_MS {
          var finding := if age > Deadline(row.spec) then TimedOut else if healthy[i] then Healthy else NoAnswer;
          Judge(Seat(Recon, row.pid), row.spec, false, row.startedAt, finding, now, diskTakes[i]);
        }
        i := i + 1;
      }
      assert snapshot[..i] == snapshot && healthy[..i] == healthy && diskTakes[..i] == diskTakes;
    }

    /** Remove the row; the process goes down afterwards. Unknown models are an error. */
    method Unload(k: Key) returns (known: bool)
      modifies table
      ensures known == (k in old(table.inner))
      ensures Now() == old(Now()).(table := old(table.inner) - {k})
    {
      var row := table.Remove(k);
      known := row.Some?;
    }

    /** The loads a boot sweep starts, in order. */
    method ReplayDesired(enabled: bool, manifests: seq<Stored>, alive: set<Pid>) returns (launched: seq<Stored>)
      ensures launched == if enabled then Swept(manifests, table.inner, alive) else []
    {
      launched := [];
      if !enabled {
        return;
      }
      var i := 0;
      while i < |manifests|
        invariant 0 <= i <= |manifests|
        invariant launched == Swept(manifests[..i], table.inner, alive)
      {
        var s := manifests[i];
        assert manifests[..i + 1][..i] == manifests[..i];
        i := i + 1;
        if !s.desired || s.userFlagged || s.persistedRestartCount >= s.maxRestarts {
          continue;
        }
        if s.spec.modelName in table.inner && table.inner[s.spec.modelName].pid in alive {
          continue;
        }
        launched := launched + [s];
      }
      assert manifests[..i] == manifests;
    }
  }
}
