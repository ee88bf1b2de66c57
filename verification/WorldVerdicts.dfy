/**
 One verdict per process: the status a table row shows for one process only moves
 starting -> ready -> {failed, restarting, budget_exhausted}, and a process whose row
 is gone never has one again, exactly while no insert comes too late.

 The checks are made before the inserts they guard, so an insert can be late. What
 matters is what the row holds when the insert is made.
 */
module WorldVerdicts {
  import opened Wrappers
  import opened ProcessTables
  import opened StateStore
  import opened World
  import opened WorldFrames
  import opened WorldIds

  function Rank(s: Status): nat {
    match s
    case Starting => 0
    case Ready => 1
    case _ => 2
  }

  predicate Moves(s: Status, t: Status) { Rank(s) < Rank(t) || s == t }

  // What one step may do to the row of `k`, seen from process `p`.
  predicate RowMoves(table: map<Key, Row>, table': map<Key, Row>, k: Key, p: Pid) {
    OwnsRow(table', k, p) ==> OwnsRow(table, k, p) && Moves(table[k].status, table'[k].status)
  }

  // The row of `k` is still that of `p`, and `s` is no step back for it.
  predicate InOrder(table: map<Key, Row>, k: Key, p: Pid, s: Status) {
    OwnsRow(table, k, p) && Moves(table[k].status, s)
  }

  // The first row of a process: nobody else can have moved it.
  predicate Places(w: World, a: Act)
    requires Enabled(w, a)
  {
    a.LoadStep? && w.loads[a.pid].Placing?
  }

  /** The step does not insert too late into the row of `k`: what its check found then still allows the insert now. */
  predicate Timely(w: World, a: Act, k: Key)
    requires Enabled(w, a)
  {
    var i := InsertOf(w, a);
    i.Some? && i.value.spec.modelName == k && !Places(w, a) ==>
      InOrder(w.table, k, i.value.pid, i.value.status)
  }

  // ----- one step -----------------------------------------------------------

  lemma StillMoves(table: map<Key, Row>, q: Key, k: Key, p: Pid)
    ensures RowMoves(table, table, k, p) && RowMoves(table, table - {q}, k, p) && RowMoves(table, map[], k, p)
  {
  }

  // An insert into the row of `q` for `pid` moves rows forward exactly if it is in order.
  lemma InsertMoves(table: map<Key, Row>, q: Key, row: Row, k: Key, p: Pid)
    requires q == k ==> InOrder(table, k, row.pid, row.status)
    ensures RowMoves(table, table[q := row], k, p)
  {
  }

  lemma InsertBreaks(table: map<Key, Row>, k: Key, row: Row)
    requires !InOrder(table, k, row.pid, row.status)
    ensures !RowMoves(table, table[k := row], k, row.pid)
  {
  }

  lemma MarksMove(table: map<Key, Row>, q: Key, pid: Pid, now: int, k: Key, p: Pid)
    ensures RowMoves(table, MarkedFailed(table, q, pid), k, p) && RowMoves(table, Charged(table, q, now), k, p)
    ensures RowMoves(table, MarkedExhausted(table, q, pid), k, p)
      && RowMoves(table, MarkedRestarting(table, q, pid), k, p)
  {
    hide Since;
  }

  lemma LoadMoves(w: World, pid: Pid, spawned: bool, k: Key, p: Pid)
    requires Ids(w) && pid in w.loads && !Unplaced(w.loads, w.home, p) && Timely(w, LoadStep(pid, spawned), k)
    ensures RowMoves(w.table, DoLoad(w, pid, spawned).table, k, p)
  {
    hide RowMoves; hide InOrder; hide DoLoad; hide EntryFor;
    StillMoves(w.table, k, k, p);
    LoadEffect(w, pid, spawned);
    var l, i := w.loads[pid], LoadInsert(w.loads[pid], pid);
    if i.Some? {
      EntryShows(i.value, w.now);
      if l.Placing? {
        assert p != pid;
        FreshMoves(w.table, l.spec.modelName, Entry(i.value, w.now), k, p);
      } else {
        InsertMoves(w.table, l.spec.modelName, Entry(i.value, w.now), k, p);
      }
    }
  }

  lemma EntryShows(i: Insertion, now: int)
    ensures Entry(i, now).pid == i.pid && Entry(i, now).status == i.status
  {
  }

  lemma FreshMoves(table: map<Key, Row>, q: Key, row: Row, k: Key, p: Pid)
    requires p != row.pid
    ensures RowMoves(table, table[q := row], k, p)
  {
  }

  lemma JudgeMoves(w: World, seat: Seat, finding: Finding, k: Key, p: Pid)
    requires seat in w.judges && Enabled(w, JudgeStep(seat, finding)) && Timely(w, JudgeStep(seat, finding), k)
    ensures RowMoves(w.table, DoJudge(w, seat, finding).table, k, p)
  {
    hide RowMoves; hide InOrder; hide DoJudge; hide EntryFor;
    StillMoves(w.table, k, k, p);
    JudgeEffect(w, seat, finding);
    var i := JudgeInsert(w.judges[seat], seat.pid);
    if i.Some? {
      EntryShows(i.value, w.now);
      InsertMoves(w.table, i.value.spec.modelName, Entry(i.value, w.now), k, p);
    }
  }

  lemma ReapMoves(w: World, pid: Pid, k: Key, p: Pid)
    requires pid in w.reapers
    ensures RowMoves(w.table, DoReap(w, pid).table, k, p)
  {
    hide RowMoves; hide DoReap;
    StillMoves(w.table, k, k, p);
    ReapEffect(w, pid);
    MarksMove(w.table, w.reapers[pid].key, pid, w.now, k, p);
  }

  lemma StepMoves(w: World, a: Act, k: Key, p: Pid)
    requires Ids(w) && Enabled(w, a) && Timely(w, a, k) && !Unplaced(w.loads, w.home, p)
    ensures RowMoves(w.table, Do(w, a).table, k, p)
  {
    hide Ids; hide Unplaced; hide RowMoves; hide Timely; hide DoLoad; hide DoJudge; hide DoReap; hide DoFetch;
    hide DoCommit;
    StillMoves(w.table, k, k, p);
    match a
    case LoadStep(pid, spawned) => LoadMoves(w, pid, spawned, k, p);
    case JudgeStep(seat, finding) => JudgeMoves(w, seat, finding, k, p);
    case ReapStep(pid) => ReapMoves(w, pid, k, p);
    case Unload(q, _) => StillMoves(w.table, q, k, p);
    case Restart(q, _) => StillMoves(w.table, q, k, p);
    case Fetch(write) => FetchFrame(w, write);
    case Commit(draft, ok) => CommitFrame(w, draft, ok);
    case _ =>
  }

  // A late insert moves the row of its own process back, or gives it a row again.
  lemma LateInsertBreaks(w: World, a: Act, k: Key) returns (p: Pid)
    requires Ids(w) && Enabled(w, a) && !Timely(w, a, k)
    ensures !Unplaced(w.loads, w.home, p) && !RowMoves(w.table, Do(w, a).table, k, p)
  {
    hide RowMoves; hide InOrder; hide DoLoad; hide DoJudge; hide EntryFor;
    var i := InsertOf(w, a).value;
    p := i.pid;
    EntryShows(i, w.now);
    InsertBreaks(w.table, k, Entry(i, w.now));
    match a
    case LoadStep(pid, spawned) => LoadEffect(w, pid, spawned);
    case JudgeStep(seat, finding) => JudgeEffect(w, seat, finding);
  }

  /**
   The exact step: no process is moved back in the row of `k`, or given that row again,
   if and only if the step does not insert too late.
   */
  lemma StepMovesExactly(w: World, a: Act, k: Key)
    requires Ids(w) && Enabled(w, a)
    ensures (forall p :: !Unplaced(w.loads, w.home, p) ==> RowMoves(w.table, Do(w, a).table, k, p)) <==> Timely(w, a, k)
  {
    hide Ids; hide Unplaced; hide RowMoves; hide Timely; hide Do;
    if Timely(w, a, k) {
      forall p | !Unplaced(w.loads, w.home, p) ensures RowMoves(w.table, Do(w, a).table, k, p) {
        StepMoves(w, a, k, p);
      }
    } else {
      var p := LateInsertBreaks(w, a, k);
    }
  }

  // A pid stays placed while loads only begin with fresh pids, go on, or end.
  lemma LoadStays(w: World, pid: Pid, spawned: bool, p: Pid)
    requires Ids(w) && pid in w.loads && !Unplaced(w.loads, w.home, p)
    ensures !Unplaced(DoLoad(w, pid, spawned).loads, w.home, p)
  {
    hide Unplaced; hide Ids; hide DoSpawn; hide DoAbandon; hide DoPlace; hide DoConfirm; hide DoSettle;
    GoneStays(w, pid, p);
    match w.loads[pid]
    case Calling(spec, origin) =>
      PhaseStays(w, pid, Reading(spec, origin), p);
      SpawnLoads(w, pid, spec, origin);
    case Reading(spec, origin) => PhaseStays(w, pid, Placing(spec, origin, Get(w.table, spec.modelName)), p);
    case Placing(spec, origin, prev) =>
      PhaseStays(w, pid, Settling(spec, origin, Inherits(prev), prev, false), p);
      PlaceEffect(w, pid, spec, origin, prev);
    case Settling(spec, origin, inherit, prev, _) =>
      PhaseStays(w, pid, Settling(spec, origin, inherit, prev, true), p);
      SettleEffect(w, pid, spec, origin, inherit, prev);
  }

  lemma SpawnLoads(w: World, pid: Pid, spec: Spec, origin: Origin)
    ensures DoSpawn(w, pid, spec, origin).loads == w.loads[pid := Reading(spec, origin)]
    ensures DoAbandon(w, pid).loads == w.loads - {pid}
  {
  }

  lemma GoneStays(w: World, pid: Pid, p: Pid)
    requires !Unplaced(w.loads, w.home, p)
    ensures !Unplaced(w.loads - {pid}, w.home, p)
  {
  }

  lemma PhaseStays(w: World, pid: Pid, l: Load, p: Pid)
    requires pid in w.loads && !Unplaced(w.loads, w.home, p) && (w.loads[pid].Settling? ==> l.Settling?)
    ensures !Unplaced(w.loads[pid := l], w.home, p)
  {
  }

  lemma BeginStays(w: World, pid: Pid, spec: Spec, origin: Origin, p: Pid)
    requires pid !in w.home && !Unplaced(w.loads, w.home, p)
    ensures !Unplaced(Begin(w, pid, spec, origin).loads, Begin(w, pid, spec, origin).home, p)
  {
  }

  lemma StaysPlaced(w: World, a: Act, p: Pid)
    requires Ids(w) && Enabled(w, a) && !Unplaced(w.loads, w.home, p)
    ensures !Unplaced(Do(w, a).loads, Do(w, a).home, p)
  {
    hide Ids; hide DoReap; hide DoJudge; hide DoFetch; hide DoCommit;
    assert !Unplaced(map[], w.home, p);
    hide Unplaced;
    match a
    case LoadStep(pid, spawned) => LoadFrame(w, pid, spawned); LoadStays(w, pid, spawned, p); hide DoLoad;
    case JudgeStep(seat, finding) => JudgeFrame(w, seat, finding);
    case ReapStep(pid) => ReapFrame(w, pid);
    case RpcLoad(spec, pid, _) => BeginStays(w, pid, spec, Rpc, p);
    case Restart(k, pid) => BeginStays(w, pid, w.table[k].spec, Operator, p);
    case Dispatch(pid) => BeginStays(w, pid, w.queue[0], Supervisor, p);
    case SweepLaunches(pid) => BeginStays(w, pid, w.sweep.held.value.spec, Boot, p);
    case Fetch(write) => FetchFrame(w, write);
    case Commit(draft, ok) => CommitFrame(w, draft, ok);
    case _ =>
  }

  // ----- whole runs ---------------------------------------------------------

  lemma {:induction false} RunsKnowIds(ws: seq<World>, acts: seq<Act>, i: nat)
    requires Run(ws, acts) && Booted(ws[0]) && i <= |acts|
    ensures Ids(ws[i])
  {
    hide Do; hide Enabled;
    if i > 0 {
      RunsKnowIds(ws, acts, i - 1);
      hide Ids;
      IdsKept(ws[i - 1], acts[i - 1]);
    }
  }

  ghost predicate TimelyFrom(ws: seq<World>, acts: seq<Act>, k: Key, i: nat, j: nat)
    requires Run(ws, acts) && i <= j <= |acts|
  {
    forall m :: i <= m < j ==> Timely(ws[m], acts[m], k)
  }

  /**
   The one verdict, in every run in which no insert into the row of `k` is late: if the
   row shows process `p` at two moments, it showed it all the time in between, and its
   status only moved forward; `failed`, `restarting` and `budget_exhausted` are final.
   */
  lemma {:induction false} OneVerdictPerProcess(ws: seq<World>, acts: seq<Act>, k: Key, p: Pid, i: nat, j: nat)
    requires Run(ws, acts) && Booted(ws[0]) && i <= j <= |acts| && TimelyFrom(ws, acts, k, i, j)
    requires OwnsRow(ws[i].table, k, p)
    ensures OwnsRow(ws[j].table, k, p) ==> Moves(ws[i].table[k].status, ws[j].table[k].status)
    ensures forall m :: i <= m <= j && OwnsRow(ws[j].table, k, p) ==> OwnsRow(ws[m].table, k, p)
    ensures !Unplaced(ws[j].loads, ws[j].home, p)
  {
    hide Do; hide Enabled; hide Booted; hide Timely;
    RunsKnowIds(ws, acts, i);
    if i < j {
      OneVerdictPerProcess(ws, acts, k, p, i, j - 1);
      RunsKnowIds(ws, acts, j - 1);
      hide Ids; hide Unplaced;
      StepMoves(ws[j - 1], acts[j - 1], k, p);
      StaysPlaced(ws[j - 1], acts[j - 1], p);
    }
  }

  /** In every run: statuses of `k` only move forward over a stretch if and only if no insert in it is late. */
  lemma VerdictsMoveForwardExactly(ws: seq<World>, acts: seq<Act>, k: Key, i: nat, j: nat)
    requires Run(ws, acts) && Booted(ws[0]) && i <= j <= |acts|
    ensures (forall m, p :: i <= m < j && !Unplaced(ws[m].loads, ws[m].home, p) ==>
               RowMoves(ws[m].table, ws[m + 1].table, k, p)) <==> TimelyFrom(ws, acts, k, i, j)
  {
    hide Do; hide Enabled; hide Booted; hide Timely; hide RowMoves; hide Unplaced; hide Ids;
    forall m | i <= m < j
      ensures (forall p :: !Unplaced(ws[m].loads, ws[m].home, p) ==> RowMoves(ws[m].table, ws[m + 1].table, k, p))
              <==> Timely(ws[m], acts[m], k)
    {
      RunsKnowIds(ws, acts, m);
      StepMovesExactly(ws[m], acts[m], k);
    }
  }

  // ----- landings -----------------------------------------------------------

  // A judge lands its verdict on process `p`.
  predicate Lands(w: World, a: Act, p: Pid)
    requires Enabled(w, a)
  {
    a.JudgeStep? && a.seat.pid == p && w.judges[a.seat].Landing?
  }

  // The guard of a landing, read when it is made and not when it was checked.
  predicate LandsInTime(w: World, a: Act)
    requires Enabled(w, a)
  {
    a.JudgeStep? && w.judges[a.seat].Landing? ==> OwnsStartingRow(w.table, w.judges[a.seat].spec.modelName, a.seat.pid)
  }

  predicate Final(judges: map<Seat, Judge>) {
    forall s :: s in judges && (judges[s].Passed? || judges[s].Landing?) ==>
      judges[s].verdict.Ready? || judges[s].verdict.Failed?
  }

  // A row that waits for its verdict is one whose process has had none.
  predicate Judged(verdicts: seq<Pid>, table: map<Key, Row>) {
    forall k :: k in table && table[k].status.Starting? ==> table[k].pid !in verdicts
  }

  predicate Heard(w: World) { Final(w.judges) && Judged(w.verdicts, w.table) }

  // A row that is rewritten is not `starting`, or is of a process nobody has judged.
  lemma JudgedInsert(verdicts: seq<Pid>, table: map<Key, Row>, k: Key, row: Row)
    requires Judged(verdicts, table) && (row.status.Starting? ==> row.pid !in verdicts)
    ensures Judged(verdicts, table[k := row])
  {
  }

  lemma JudgedLoad(w: World, pid: Pid, spawned: bool)
    requires Ids(w) && Judged(w.verdicts, w.table) && pid in w.loads
    ensures Judged(w.verdicts, DoLoad(w, pid, spawned).table)
  {
    var i := LoadInsert(w.loads[pid], pid);
    assert w.loads[pid].Placing? ==> pid !in w.verdicts;
    hide Ids; hide Judged; hide DoLoad; hide EntryFor;
    LoadEffect(w, pid, spawned);
    if i.Some? {
      EntryShows(i.value, w.now);
      JudgedInsert(w.verdicts, w.table, i.value.spec.modelName, Entry(i.value, w.now));
    }
  }

  lemma JudgedReap(w: World, pid: Pid)
    requires Judged(w.verdicts, w.table) && pid in w.reapers
    ensures Judged(w.verdicts, DoReap(w, pid).table)
  {
    hide Judged; hide DoReap;
    ReapEffect(w, pid);
    JudgedMarks(w.verdicts, w.table, w.reapers[pid].key, pid, w.now);
  }

  lemma JudgedMarks(verdicts: seq<Pid>, table: map<Key, Row>, k: Key, pid: Pid, now: int)
    requires Judged(verdicts, table)
    ensures Judged(verdicts, MarkedFailed(table, k, pid)) && Judged(verdicts, Charged(table, k, now))
    ensures Judged(verdicts, MarkedExhausted(table, k, pid)) && Judged(verdicts, MarkedRestarting(table, k, pid))
  {
    hide Since;
  }

  lemma HeardLand(w: World, seat: Seat, spec: Spec, inherit: bool, verdict: Status, prev: Option<Row>)
    requires Ids(w) && Heard(w) && seat in w.judges && w.judges[seat] == Landing(spec, inherit, verdict, prev)
    ensures Heard(Land(w, seat, spec, inherit, verdict, prev))
  {
    hide LoadsKnown; hide ReapersKnown; hide VerdictsKnown; hide ChargesAfter; hide Unplaced;
  }

  lemma HeardDecide(judges: map<Seat, Judge>, seat: Seat, next: Judge)
    requires Final(judges) && (next.Passed? || next.Landing? ==> next.verdict.Ready? || next.verdict.Failed?)
    ensures Final(judges[seat := next]) && Final(judges - {seat})
  {
  }

  lemma HeardDecided(w: World, seat: Seat, next: Judge)
    requires Final(w.judges) && (next.Passed? || next.Landing? ==> next.verdict.Ready? || next.verdict.Failed?)
    ensures Final(Decide(w, seat, next).judges)
  {
    hide Final; hide OwnsStartingRow;
    HeardDecide(w.judges, seat, next);
  }

  lemma FinalWait(w: World, seat: Seat, finding: Finding)
    requires Final(w.judges) && seat in w.judges && !w.judges[seat].Landing?
    ensures Final(DoJudge(w, seat, finding).judges)
  {
    var j := w.judges[seat];
    assert j.Passed? ==> j.verdict.Ready? || j.verdict.Failed?;
    hide Final; hide Decide;
    match j
    case Polling(spec, inherit, _) =>
      HeardDecided(w, seat, Passed(spec, false, Ready));
      HeardDecided(w, seat, Killing(spec, inherit));
      HeardDecide(w.judges, seat, Killing(spec, inherit));
    case Killing(spec, inherit) => HeardDecided(w, seat, Passed(spec, inherit, Failed));
    case Passed(spec, inherit, verdict) =>
      HeardDecide(w.judges, seat, Landing(spec, inherit, verdict, Get(w.table, spec.modelName)));
  }

  lemma HeardWait(w: World, seat: Seat, finding: Finding)
    requires Heard(w) && seat in w.judges && !w.judges[seat].Landing?
    ensures Heard(DoJudge(w, seat, finding)) && DoJudge(w, seat, finding).verdicts == w.verdicts
  {
    hide Final; hide Judged; hide DoJudge;
    FinalWait(w, seat, finding);
    JudgeFrame(w, seat, finding);
  }

  // The rest touches neither a judge's verdict nor a `starting` row, except to take rows away.
  lemma HeardRest(w: World, a: Act)
    requires Heard(w) && Enabled(w, a) && Other(a)
    ensures Heard(Do(w, a)) && Do(w, a).verdicts == w.verdicts
  {
    hide Do; hide OtherBegins;
    OtherFrame(w, a);
  }

  lemma FinalPlace(w: World, pid: Pid, spawned: bool)
    requires Final(w.judges) && pid in w.loads
    ensures Final(DoLoad(w, pid, spawned).judges)
  {
    hide DoLoad; hide Final;
    LoadEffect(w, pid, spawned);
    var l := w.loads[pid];
    if l.Placing? { HeardDecide(w.judges, Seat(Gate, pid), Polling(l.spec, Inherits(l.prev), w.now)); }
  }

  lemma HeardKept(w: World, a: Act)
    requires Ids(w) && Heard(w) && Enabled(w, a)
    ensures Heard(Do(w, a))
    ensures Do(w, a).verdicts == w.verdicts + if a.JudgeStep? && w.judges[a.seat].Landing? then [a.seat.pid] else []
  {
    hide Ids; hide Final; hide Judged; hide DoLoad; hide DoReap; hide DoFetch; hide DoCommit;
    match a
    case LoadStep(pid, spawned) =>
      JudgedLoad(w, pid, spawned);
      FinalPlace(w, pid, spawned);
      LoadFrame(w, pid, spawned);
    case JudgeStep(seat, finding) =>
      var j := w.judges[seat];
      if j.Landing? { HeardLand(w, seat, j.spec, j.inherit, j.verdict, j.prev); }
      else { HeardWait(w, seat, finding); hide DoJudge; }
    case ReapStep(pid) =>
      JudgedReap(w, pid);
      ReapFrame(w, pid);
    case _ => HeardRest(w, a); hide Do;
  }

  lemma {:induction false} RunsAreHeard(ws: seq<World>, acts: seq<Act>, i: nat)
    requires Run(ws, acts) && Booted(ws[0]) && i <= |acts|
    ensures Ids(ws[i]) && Heard(ws[i])
  {
    hide Do; hide Enabled;
    RunsKnowIds(ws, acts, i);
    if i > 0 {
      RunsAreHeard(ws, acts, i - 1);
      hide Ids; hide Heard;
      HeardKept(ws[i - 1], acts[i - 1]);
    }
  }

  lemma {:induction false} VerdictsOnlyGrow(ws: seq<World>, acts: seq<Act>, i: nat, j: nat)
    requires Run(ws, acts) && Booted(ws[0]) && i <= j <= |acts|
    ensures ws[i].verdicts <= ws[j].verdicts
  {
    hide Do; hide Enabled;
    if i < j {
      VerdictsOnlyGrow(ws, acts, i, j - 1);
      RunsAreHeard(ws, acts, j - 1);
      hide Ids; hide Heard;
      HeardKept(ws[j - 1], acts[j - 1]);
    }
  }

  /** In every run, a second verdict on a process lands on a row that is no longer its `starting` row. */
  lemma SecondLandingIsLate(ws: seq<World>, acts: seq<Act>, x: nat, y: nat, p: Pid)
    requires Run(ws, acts) && Booted(ws[0]) && x < y < |acts| && Lands(ws[x], acts[x], p) && Lands(ws[y], acts[y], p)
    ensures !LandsInTime(ws[y], acts[y])
  {
    hide Do; hide Enabled; hide Ids; hide Final;
    RunsAreHeard(ws, acts, x);
    HeardKept(ws[x], acts[x]);
    RunsAreHeard(ws, acts, y);
    VerdictsOnlyGrow(ws, acts, x + 1, y);
    assert ws[x + 1].verdicts[|ws[x].verdicts|] == p;
    assert p in ws[y].verdicts;
  }

  /** Gate and reconciler together land at most one verdict on a process, in every run whose landings are in time. */
  lemma {:induction false} AtMostOneLanding(ws: seq<World>, acts: seq<Act>, i: nat, x: nat, y: nat)
    requires Run(ws, acts) && Booted(ws[0]) && i <= |acts|
    requires forall m :: 0 <= m < i ==> LandsInTime(ws[m], acts[m])
    requires x < y < |ws[i].verdicts|
    ensures ws[i].verdicts[x] != ws[i].verdicts[y]
  {
    hide Do; hide Enabled; hide Ids; hide Final;
    if i > 0 {
      RunsAreHeard(ws, acts, i - 1);
      HeardKept(ws[i - 1], acts[i - 1]);
      if y < |ws[i - 1].verdicts| {
        AtMostOneLanding(ws, acts, i - 1, x, y);
      }
    }
  }
}
