/** Who is who: pids are never reused, and every part of the state agrees on which key and pid it is about. */
module WorldIds {
  import opened Wrappers
  import opened ProcessTables
  import opened StateStore
  import opened World
  import opened WorldFrames

  // A process whose pid has not reached the table yet: nothing else can know it.
  predicate Unplaced(loads: map<Pid, Load>, home: map<Pid, Key>, p: Pid) {
    p !in home || (p in loads && !loads[p].Settling?)
  }

  predicate RowsKnown(table: map<Key, Row>, loads: map<Pid, Load>, home: map<Pid, Key>) {
    forall k :: k in table ==>
      && table[k].spec.modelName == k && !Unplaced(loads, home, table[k].pid) && home[table[k].pid] == k
      && (table[k].spec.Gated() ==> table[k].pid !in loads)
  }

  // Only gated rows are judged, and only ungated loads settle by themselves.
  predicate LoadsKnown(loads: map<Pid, Load>, home: map<Pid, Key>) {
    forall p :: p in loads ==>
      p in home && loads[p].spec.modelName == home[p] && (loads[p].Settling? ==> !loads[p].spec.Gated())
  }

  predicate JudgesKnown(judges: map<Seat, Judge>, loads: map<Pid, Load>, home: map<Pid, Key>) {
    forall s :: s in judges ==>
      judges[s].spec.Gated() && s.pid in home && judges[s].spec.modelName == home[s.pid] && s.pid !in loads
  }

  predicate ReapersKnown(reapers: map<Pid, Reaper>, loads: map<Pid, Load>, home: map<Pid, Key>) {
    forall p :: p in reapers ==>
      p in home && reapers[p].key == home[p] && (!reapers[p].Waiting? ==> !Unplaced(loads, home, p))
  }

  predicate VerdictsKnown(verdicts: seq<Pid>, loads: map<Pid, Load>, home: map<Pid, Key>) {
    forall p :: p in verdicts ==> !Unplaced(loads, home, p)
  }

  predicate Ids(w: World) {
    && RowsKnown(w.table, w.loads, w.home)
    && LoadsKnown(w.loads, w.home)
    && JudgesKnown(w.judges, w.loads, w.home)
    && ReapersKnown(w.reapers, w.loads, w.home)
    && VerdictsKnown(w.verdicts, w.loads, w.home)
  }

  lemma IdsBegin(w: World, pid: Pid, spec: Spec, origin: Origin)
    requires Ids(w) && pid !in w.home
    ensures Ids(Begin(w, pid, spec, origin))
  {
  }

  lemma IdsSpawn(w: World, pid: Pid, spec: Spec, origin: Origin)
    requires Ids(w) && pid in w.loads && w.loads[pid] == Calling(spec, origin)
    ensures Ids(DoSpawn(w, pid, spec, origin))
  {
  }

  lemma IdsRead(w: World, pid: Pid, spec: Spec, origin: Origin)
    requires Ids(w) && pid in w.loads && w.loads[pid] == Reading(spec, origin)
    ensures Ids(w.(loads := w.loads[pid := Placing(spec, origin, Get(w.table, spec.modelName))]))
  {
  }

  lemma IdsPlace(w: World, pid: Pid, spec: Spec, origin: Origin, prev: Option<Row>)
    requires Ids(w) && pid in w.loads && w.loads[pid] == Placing(spec, origin, prev)
    ensures Ids(DoPlace(w, pid, spec, origin, prev))
  {
    PlaceRows(w, pid, spec, origin, prev);
    PlaceOthers(w, pid, spec, origin, prev);
    hide RowsKnown; hide LoadsKnown; hide JudgesKnown; hide ReapersKnown; hide VerdictsKnown; hide DoPlace;
  }

  lemma PlaceRows(w: World, pid: Pid, spec: Spec, origin: Origin, prev: Option<Row>)
    requires Ids(w) && pid in w.loads && w.loads[pid] == Placing(spec, origin, prev)
    ensures var v := DoPlace(w, pid, spec, origin, prev);
      RowsKnown(v.table, v.loads, v.home) && LoadsKnown(v.loads, v.home)
  {
    hide JudgesKnown; hide ReapersKnown; hide VerdictsKnown; hide ChargesAfter; hide Affirmed; hide Freed;
  }

  lemma PlaceOthers(w: World, pid: Pid, spec: Spec, origin: Origin, prev: Option<Row>)
    requires Ids(w) && pid in w.loads && w.loads[pid] == Placing(spec, origin, prev)
    ensures var v := DoPlace(w, pid, spec, origin, prev);
      JudgesKnown(v.judges, v.loads, v.home) && ReapersKnown(v.reapers, v.loads, v.home)
      && VerdictsKnown(v.verdicts, v.loads, v.home)
  {
    hide RowsKnown; hide ChargesAfter; hide Affirmed; hide Freed; hide EntryFor;
  }

  lemma IdsReturned(w: World, pid: Pid)
    requires Ids(w) && pid in w.loads && w.loads[pid].Settling?
    ensures Ids(w.(loads := w.loads - {pid}))
  {
  }

  lemma IdsConfirmed(w: World, pid: Pid, spec: Spec, origin: Origin, inherit: bool, prev: Option<Row>)
    requires Ids(w) && pid in w.loads && w.loads[pid] == Settling(spec, origin, inherit, prev, false)
    ensures Ids(w.(loads := w.loads[pid := Settling(spec, origin, inherit, prev, true)]))
  {
  }

  lemma IdsConfirm(w: World, pid: Pid, spec: Spec, origin: Origin, inherit: bool, prev: Option<Row>)
    requires Ids(w) && pid in w.loads && w.loads[pid] == Settling(spec, origin, inherit, prev, false)
    ensures Ids(DoConfirm(w, pid, spec, origin, inherit, prev))
  {
    IdsReturned(w, pid);
    IdsConfirmed(w, pid, spec, origin, inherit, prev);
    hide RowsKnown; hide LoadsKnown; hide JudgesKnown; hide ReapersKnown; hide VerdictsKnown; hide OwnsRow;
    hide Freed; hide Affirmed;
  }

  lemma IdsSettle(w: World, pid: Pid, spec: Spec, origin: Origin, inherit: bool, prev: Option<Row>)
    requires Ids(w) && pid in w.loads && w.loads[pid] == Settling(spec, origin, inherit, prev, true)
    ensures Ids(DoSettle(w, pid, spec, origin, inherit, prev))
  {
    hide Freed; hide Affirmed; hide ChargesAfter;
  }

  lemma IdsDecide(w: World, seat: Seat, next: Judge)
    requires Ids(w) && seat in w.judges && next.spec == w.judges[seat].spec
    ensures Ids(Decide(w, seat, next))
  {
  }

  lemma IdsPass(w: World, seat: Seat, next: Judge)
    requires Ids(w) && seat in w.judges && next.spec == w.judges[seat].spec
    ensures Ids(w.(judges := w.judges[seat := next]))
  {
  }

  lemma IdsLand(w: World, seat: Seat, spec: Spec, inherit: bool, verdict: Status, prev: Option<Row>)
    requires Ids(w) && seat in w.judges && w.judges[seat] == Landing(spec, inherit, verdict, prev)
    ensures Ids(Land(w, seat, spec, inherit, verdict, prev))
  {
  }

  lemma IdsCheck(w: World, pid: Pid, k: Key)
    requires Ids(w) && pid in w.reapers && w.reapers[pid] == Waiting(k)
    ensures Ids(DoCheck(w, pid, k))
  {
  }

  lemma IdsLook(w: World, pid: Pid, k: Key, flagged: bool)
    requires Ids(w) && pid in w.reapers && w.reapers[pid] == Looking(k, flagged)
    ensures Ids(w.(reapers := w.reapers[pid := CheckedReaper(w.store, k, flagged)]))
  {
  }

  lemma IdsCharge(w: World, pid: Pid, k: Key, spec: Spec, cap: nat)
    requires Ids(w) && pid in w.reapers && w.reapers[pid] == Charging(k, spec, cap)
    ensures Ids(DoCharge(w, pid, k, spec, cap))
  {
  }

  lemma IdsMark(w: World, pid: Pid, k: Key, spec: Spec, cap: nat, count: nat, stamp: int)
    requires Ids(w) && pid in w.reapers && w.reapers[pid] == Marking(k, spec, cap, count, stamp)
    ensures Ids(DoMark(w, pid, k, spec, cap, count, stamp))
  {
  }

  lemma IdsLoad(w: World, pid: Pid, spawned: bool)
    requires Ids(w) && pid in w.loads
    ensures Ids(DoLoad(w, pid, spawned))
  {
    hide Ids;
    match w.loads[pid]
    case Calling(spec, origin) =>
      if spawned { IdsSpawn(w, pid, spec, origin); } else { IdsAbandon(w, pid); }
    case Reading(spec, origin) => IdsRead(w, pid, spec, origin);
    case Placing(spec, origin, prev) => IdsPlace(w, pid, spec, origin, prev);
    case Settling(spec, origin, inherit, prev, checked) =>
      if checked { IdsSettle(w, pid, spec, origin, inherit, prev); }
      else { IdsConfirm(w, pid, spec, origin, inherit, prev); }
  }

  lemma IdsAbandon(w: World, pid: Pid)
    requires Ids(w) && pid in w.loads && w.loads[pid].Calling?
    ensures Ids(DoAbandon(w, pid))
  {
  }

  lemma IdsJudge(w: World, seat: Seat, finding: Finding)
    requires Ids(w) && seat in w.judges
    ensures Ids(DoJudge(w, seat, finding))
  {
    hide Ids;
    match w.judges[seat]
    case Polling(spec, inherit, _) =>
      IdsDecide(w, seat, Passed(spec, false, Ready));
      IdsDecide(w, seat, Killing(spec, inherit));
      IdsDrop(w, seat);
    case Killing(spec, inherit) => IdsDecide(w, seat, Passed(spec, inherit, Failed));
    case Passed(spec, inherit, verdict) =>
      IdsPass(w, seat, Landing(spec, inherit, verdict, Get(w.table, spec.modelName)));
    case Landing(spec, inherit, verdict, prev) => IdsLand(w, seat, spec, inherit, verdict, prev);
  }

  lemma IdsDrop(w: World, seat: Seat)
    requires Ids(w)
    ensures Ids(w.(judges := w.judges - {seat}))
  {
  }

  lemma IdsGiveUp(w: World, pid: Pid, k: Key)
    requires Ids(w)
    ensures Ids(w.(table := MarkedFailed(w.table, k, pid), reapers := w.reapers - {pid}))
  {
  }

  lemma IdsReap(w: World, pid: Pid)
    requires Ids(w) && pid in w.reapers
    ensures Ids(DoReap(w, pid))
  {
    hide Ids;
    match w.reapers[pid]
    case Waiting(k) => IdsCheck(w, pid, k);
    case Looking(k, flagged) => IdsLook(w, pid, k, flagged);
    case GivingUp(k) => IdsGiveUp(w, pid, k);
    case Charging(k, spec, cap) => IdsCharge(w, pid, k, spec, cap);
    case Marking(k, spec, cap, count, stamp) => IdsMark(w, pid, k, spec, cap, count, stamp);
  }

  // Steps that only change what Ids does not look at, or take rows and tasks away.
  lemma IdsRest(w: World, a: Act)
    requires Ids(w) && Enabled(w, a)
    requires a.Tick? || a.Die? || a.Unload? || a.ReconSees? || a.Fetch? || a.Commit? || a.Crash? || a.SweepExamines?
    ensures Ids(Do(w, a))
  {
    hide RowsKnown; hide LoadsKnown; hide JudgesKnown; hide ReapersKnown; hide VerdictsKnown;
    hide DoFetch; hide DoCommit; hide DoLoad; hide DoJudge; hide DoReap;
    match a
    case Unload(k, _) => IdsGone(w, k);
    case ReconSees(k) => IdsSeen(w, k);
    case Crash(_) => IdsLost(w);
    case Fetch(write) => FetchFrame(w, write); hide DoFetch;
    case Commit(draft, ok) => CommitFrame(w, draft, ok); hide DoCommit;
    case _ =>
  }

  lemma IdsGone(w: World, k: Key)
    requires Ids(w)
    ensures RowsKnown(w.table - {k}, w.loads, w.home)
  {
  }

  lemma IdsSeen(w: World, k: Key)
    requires Ids(w) && k in w.table && w.table[k].status.Starting? && w.table[k].spec.Gated()
    ensures var row := w.table[k];
      JudgesKnown(w.judges[Seat(Recon, row.pid) := Polling(row.spec, false, row.startedAt)], w.loads, w.home)
  {
    hide LoadsKnown; hide ReapersKnown; hide VerdictsKnown;
  }

  lemma IdsLost(w: World)
    requires VerdictsKnown(w.verdicts, w.loads, w.home)
    ensures RowsKnown(map[], map[], w.home) && LoadsKnown(map[], w.home) && JudgesKnown(map[], map[], w.home)
    ensures ReapersKnown(map[], map[], w.home) && VerdictsKnown(w.verdicts, map[], w.home)
  {
  }

  lemma IdsAnswered(w: World, spec: Spec, pid: Pid, seenAlive: bool)
    requires Ids(w) && Answered(w.table, spec.modelName, seenAlive)
    ensures Ids(DoRpcLoad(w, spec, pid, seenAlive))
  {
  }

  // A load begins, and the queue, the sweep or the unloaded row is cut short.
  lemma IdsBegun(w: World, pid: Pid, spec: Spec, origin: Origin, k: Key, queue: seq<Spec>, sweep: Sweep)
    requires Ids(w) && pid !in w.home
    ensures Ids(Begin(w, pid, spec, origin).(queue := queue))
    ensures Ids(Begin(w, pid, spec, origin).(sweep := sweep))
    ensures Ids(Begin(w, pid, spec, origin).(table := w.table - {k}))
  {
    IdsBegin(w, pid, spec, origin);
    var b := Begin(w, pid, spec, origin);
    assert RowsKnown(w.table - {k}, b.loads, b.home);
  }

  lemma IdsKept(w: World, a: Act)
    requires Ids(w) && Enabled(w, a)
    ensures Ids(Do(w, a))
  {
    hide Ids;
    match a
    case LoadStep(pid, spawned) => IdsLoad(w, pid, spawned);
    case JudgeStep(seat, finding) => IdsJudge(w, seat, finding);
    case ReapStep(pid) => IdsReap(w, pid);
    case RpcLoad(spec, pid, seenAlive) =>
      if Answered(w.table, spec.modelName, seenAlive) { IdsAnswered(w, spec, pid, seenAlive); }
      else { IdsBegin(w, pid, spec, Rpc); }
    case Restart(k, pid) => IdsBegun(w, pid, w.table[k].spec, Operator, k, [], w.sweep);
    case Dispatch(pid) => IdsBegun(w, pid, w.queue[0], Supervisor, "", w.queue[1..], w.sweep);
    case SweepLaunches(pid) =>
      IdsBegun(w, pid, w.sweep.held.value.spec, Boot, "", [], Do(w, a).sweep);
    case _ => IdsRest(w, a);
  }
}
