/**
 The crash loop is bounded: while nobody but the reaper restarts a model and no
 health check vouches for it, any 300 s span holds fewer respawns than the cap.

 The proof follows one key through its phases: nothing is starting, a respawn is
 queued, or a respawn is being placed.
 */
module WorldBudget {
  import opened Wrappers
  import opened ProcessTables
  import opened StateStore
  import opened World
  import opened WorldFrames
  import opened WorldIds
  import opened WorldKeys
  import opened WorldVerdicts
  import opened WorldWindow

  // ----- where the key stands -----------------------------------------------

  function Queued(queue: seq<Spec>, k: Key): nat {
    if queue == [] then 0
    else (if queue[0].modelName == k then 1 else 0) + Queued(queue[1..], k)
  }

  // A load that has yet to place its row.
  predicate Launching(l: Load, k: Key) { l.spec.modelName == k && !l.Settling? }

  predicate NoLaunch(loads: map<Pid, Load>, k: Key) {
    forall p :: p in loads ==> !Launching(loads[p], k)
  }

  predicate OnlyLaunch(loads: map<Pid, Load>, k: Key, p: Pid) {
    && p in loads && Launching(loads[p], k)
    && forall q :: q in loads && Launching(loads[q], k) ==> q == p
  }

  // A load that still settles was a respawn, and writes what it inherited.
  predicate SettleInherited(loads: map<Pid, Load>, k: Key) {
    forall p :: p in loads && loads[p].Settling? && loads[p].spec.modelName == k ==>
      loads[p].inherit && loads[p].prev.Some?
  }

  predicate PastCheck(r: Reaper, k: Key) { (r.Looking? || r.Charging? || r.Marking?) && r.key == k }

  predicate OwnedReapers(reapers: map<Pid, Reaper>, table: map<Key, Row>, k: Key) {
    forall p :: p in reapers && PastCheck(reapers[p], k) ==> OwnsRow(table, k, p)
  }

  // The row waits for its respawn, and its own reaper is done.
  predicate Reaped(table: map<Key, Row>, reapers: map<Pid, Reaper>, k: Key) {
    && k in table && table[k].status.Restarting? && table[k].pid !in reapers
    && forall p :: p in reapers ==> !PastCheck(reapers[p], k)
  }

  // A load that is about to place its row read one that waits for its respawn.
  predicate ReadRestarting(l: Load) { l.Placing? ==> Inherits(l.prev) }

  predicate NoneMarking(reapers: map<Pid, Reaper>, k: Key) {
    forall p :: p in reapers && PastCheck(reapers[p], k) ==> !reapers[p].Marking?
  }

  datatype Phase = Idle | Waits | Starts(pid: Pid)

  predicate InPhase(ph: Phase, table: map<Key, Row>, queue: seq<Spec>, loads: map<Pid, Load>,
                    reapers: map<Pid, Reaper>, k: Key)
  {
    SettleInherited(loads, k) &&
      match ph
      case Idle => Queued(queue, k) == 0 && NoLaunch(loads, k) && OwnedReapers(reapers, table, k)
      case Waits => Queued(queue, k) == 1 && NoLaunch(loads, k) && Reaped(table, reapers, k)
      case Starts(p) =>
        Queued(queue, k) == 0 && OnlyLaunch(loads, k, p) && Reaped(table, reapers, k) && ReadRestarting(loads[p])
  }

  // ----- what is counted ----------------------------------------------------

  function StampsOf(rs: seq<Respawn>, k: Key): seq<int> {
    if rs == [] then []
    else
      var r := rs[|rs| - 1];
      StampsOf(rs[..|rs| - 1], k) + if r.key == k then [r.stamp] else []
  }

  // In every window the log has at least as many charges as there are respawns.
  ghost predicate Dominates(log: seq<int>, stamps: seq<int>) {
    forall c :: |Since(stamps, c)| <= |Since(log, c)|
  }

  /** The respawn at `i`, together with those of `k` in the 300 s before it, is below its cap. */
  predicate WithinCap(rs: seq<Respawn>, k: Key, i: nat)
    requires i < |rs|
  {
    |Since(StampsOf(rs[..i + 1], k), rs[i].stamp - RESTART_WINDOW_MS)| < rs[i].cap
  }

  predicate AllWithin(rs: seq<Respawn>, k: Key) {
    forall i :: 0 <= i < |rs| && rs[i].key == k ==> WithinCap(rs, k, i)
  }

  // While the row can still be respawned, its log covers the respawns so far; a
  // charge that waits for its mark is the last of the log and not yet answered.
  ghost predicate Covered(table: map<Key, Row>, log: seq<int>, reapers: map<Pid, Reaper>, stamps: seq<int>, k: Key) {
    k in table && !table[k].status.Failed? && !table[k].status.BudgetExhausted? ==>
      var p := table[k].pid;
      if p in reapers && reapers[p].Marking? then
        && log != [] && log[|log| - 1] == reapers[p].stamp && reapers[p].count == |Recent(log)|
        && Dominates(log[..|log| - 1], stamps)
      else Dominates(log, stamps)
  }

  // Every respawn of `k` is asked for after the death it answers and before the next one it answers.
  predicate InTurn(rs: seq<Respawn>, k: Key) {
    && (forall i :: 0 <= i < |rs| && rs[i].key == k ==> rs[i].stamp <= rs[i].at)
    && forall i, j :: 0 <= i < j < |rs| && rs[i].key == k && rs[j].key == k ==> rs[i].at <= rs[j].stamp
  }

  // All respawns of `k` so far were asked for by `t`.
  predicate AskedBy(rs: seq<Respawn>, k: Key, t: int) { forall r :: r in rs && r.key == k ==> r.at <= t }

  predicate Punctual(rs: seq<Respawn>, reapers: map<Pid, Reaper>, k: Key, now: int) {
    && InTurn(rs, k) && AskedBy(rs, k, now)
    && forall p :: p in reapers && reapers[p].Marking? && reapers[p].key == k ==>
         AskedBy(rs, k, reapers[p].stamp) && reapers[p].stamp <= now
  }

  ghost predicate Bounded(w: World, k: Key, from: nat, ph: Phase) {
    && from <= |w.respawns| && AllWithin(w.respawns[from..], k)
    && Punctual(w.respawns[from..], w.reapers, k, w.now)
    && InPhase(ph, w.table, w.queue, w.loads, w.reapers, k)
    && Covered(w.table, Log(w.charges, k), w.reapers, StampsOf(w.respawns[from..], k), k)
  }

  // ----- counting lemmas ----------------------------------------------------

  lemma {:induction false} QueuedAppend(queue: seq<Spec>, spec: Spec, k: Key)
    ensures Queued(queue + [spec], k) == Queued(queue, k) + if spec.modelName == k then 1 else 0
  {
    if queue == [] {
      assert queue + [spec] == [spec];
    } else {
      QueuedAppend(queue[1..], spec, k);
      assert (queue + [spec])[1..] == queue[1..] + [spec];
    }
  }

  lemma SinceAppend(stamps: seq<int>, t: int, c: int)
    ensures Since(stamps + [t], c) == Since(stamps, c) + if t >= c then [t] else []
  {
    assert (stamps + [t])[..|stamps|] == stamps;
  }

  lemma DominatesAppend(log: seq<int>, stamps: seq<int>, t: int)
    requires Dominates(log, stamps)
    ensures Dominates(log + [t], stamps) && Dominates(log + [t], stamps + [t])
  {
    forall c ensures |Since(stamps, c)| <= |Since(log + [t], c)| && |Since(stamps + [t], c)| <= |Since(log + [t], c)| {
      SinceAppend(log, t, c);
      SinceAppend(stamps, t, c);
    }
  }

  // A new respawn of another key changes nothing for `k`; one of `k` must be within its cap.
  lemma RespawnAppend(rs: seq<Respawn>, r: Respawn, k: Key)
    requires AllWithin(rs, k)
    requires r.key == k ==> |Since(StampsOf(rs, k) + [r.stamp], r.stamp - RESTART_WINDOW_MS)| < r.cap
    ensures AllWithin(rs + [r], k)
    ensures StampsOf(rs + [r], k) == StampsOf(rs, k) + if r.key == k then [r.stamp] else []
  {
    var rs' := rs + [r];
    assert rs'[..|rs|] == rs && rs'[..|rs'|] == rs';
    forall i | 0 <= i < |rs'| && rs'[i].key == k ensures WithinCap(rs', k, i) {
      if i < |rs| {
        assert rs'[..i + 1] == rs[..i + 1];
        assert WithinCap(rs, k, i);
      }
    }
  }

  lemma InTurnAppend(rs: seq<Respawn>, r: Respawn, k: Key)
    requires InTurn(rs, k) && (r.key == k ==> AskedBy(rs, k, r.stamp) && r.stamp <= r.at)
    ensures InTurn(rs + [r], k)
  {
    var rs' := rs + [r];
    forall i | 0 <= i < |rs'| && rs'[i].key == k ensures rs'[i].stamp <= rs'[i].at {
      if i < |rs| { assert rs'[i] == rs[i]; }
    }
    forall i, j | 0 <= i < j < |rs'| && rs'[i].key == k && rs'[j].key == k ensures rs'[i].at <= rs'[j].stamp {
      assert rs'[i] == rs[i] && rs[i] in rs;
      if j < |rs| { assert rs'[j] == rs[j]; }
    }
  }

  // ----- phases, step by step -----------------------------------------------

  lemma PhaseSpawn(w: World, pid: Pid, spec: Spec, origin: Origin, k: Key, ph: Phase)
    requires Ids(w) && pid in w.loads && w.loads[pid] == Calling(spec, origin)
    requires InPhase(ph, w.table, w.queue, w.loads, w.reapers, k)
    ensures var v := DoSpawn(w, pid, spec, origin); InPhase(ph, v.table, v.queue, v.loads, v.reapers, k)
  {
  }

  lemma PhaseAbandon(w: World, pid: Pid, k: Key, ph: Phase) returns (ph': Phase)
    requires pid in w.loads && w.loads[pid].Calling?
    requires InPhase(ph, w.table, w.queue, w.loads, w.reapers, k)
    ensures InPhase(ph', w.table, w.queue, w.loads - {pid}, w.reapers, k)
  {
    ph' := if ph == Starts(pid) then Idle else ph;
  }

  lemma PhaseRead(w: World, pid: Pid, spec: Spec, origin: Origin, k: Key, ph: Phase)
    requires pid in w.loads && w.loads[pid] == Reading(spec, origin)
    requires InPhase(ph, w.table, w.queue, w.loads, w.reapers, k)
    ensures var loads := w.loads[pid := Placing(spec, origin, Get(w.table, spec.modelName))];
      InPhase(ph, w.table, w.queue, loads, w.reapers, k)
  {
    hide Queued;
    assert spec.modelName == k <==> Launching(w.loads[pid], k);
  }

  lemma PhasePlace(w: World, pid: Pid, spec: Spec, origin: Origin, prev: Option<Row>, k: Key, ph: Phase)
      returns (ph': Phase)
    requires pid in w.loads && w.loads[pid] == Placing(spec, origin, prev)
    requires InPhase(ph, w.table, w.queue, w.loads, w.reapers, k)
    ensures var v := DoPlace(w, pid, spec, origin, prev); InPhase(ph', v.table, v.queue, v.loads, v.reapers, k)
    ensures spec.modelName == k ==> ph == Starts(pid) && Inherits(prev)
  {
    hide ChargesAfter; hide Affirmed; hide Freed; hide Queued;
    ph' := if ph == Starts(pid) then Idle else ph;
    assert spec.modelName == k <==> Launching(w.loads[pid], k);
    if ph != Starts(pid) {
      hide EntryFor;
    }
  }

  // A load that is done settling, or that is told it may write.
  lemma PhaseReturned(loads: map<Pid, Load>, pid: Pid, l: Load, table: map<Key, Row>, queue: seq<Spec>,
                      reapers: map<Pid, Reaper>, k: Key, ph: Phase)
    requires pid in loads && loads[pid].Settling? && l == loads[pid].(checked := true)
    requires InPhase(ph, table, queue, loads, reapers, k)
    ensures InPhase(ph, table, queue, loads - {pid}, reapers, k)
      && InPhase(ph, table, queue, loads[pid := l], reapers, k)
  {
  }

  // An insert for the process that owns the row and is not on its way out of it.
  lemma PhaseInsert(ph: Phase, table: map<Key, Row>, queue: seq<Spec>, loads: map<Pid, Load>,
                    reapers: map<Pid, Reaper>, k: Key, q: Key, row: Row)
    requires InPhase(ph, table, queue, loads, reapers, k)
    requires q == k ==> InOrder(table, k, row.pid, row.status) && !row.status.Restarting?
    ensures InPhase(ph, table[q := row], queue, loads, reapers, k)
  {
  }

  lemma PhaseCheck(w: World, pid: Pid, q: Key, k: Key, ph: Phase)
    requires pid in w.reapers && w.reapers[pid] == Waiting(q)
    requires InPhase(ph, w.table, w.queue, w.loads, w.reapers, k)
    ensures var v := DoCheck(w, pid, q); InPhase(ph, v.table, v.queue, v.loads, v.reapers, k)
  {
  }

  lemma PhaseLook(w: World, pid: Pid, q: Key, flagged: bool, k: Key, ph: Phase)
    requires pid in w.reapers && w.reapers[pid] == Looking(q, flagged)
    requires InPhase(ph, w.table, w.queue, w.loads, w.reapers, k)
    ensures InPhase(ph, w.table, w.queue, w.loads, w.reapers[pid := CheckedReaper(w.store, q, flagged)], k)
  {
  }

  lemma PhaseGiveUp(w: World, pid: Pid, q: Key, k: Key, ph: Phase)
    requires pid in w.reapers && w.reapers[pid] == GivingUp(q)
    requires InPhase(ph, w.table, w.queue, w.loads, w.reapers, k)
    ensures InPhase(ph, MarkedFailed(w.table, q, pid), w.queue, w.loads, w.reapers - {pid}, k)
  {
  }

  lemma PhaseCharge(w: World, pid: Pid, q: Key, spec: Spec, cap: nat, k: Key, ph: Phase)
    requires pid in w.reapers && w.reapers[pid] == Charging(q, spec, cap)
    requires InPhase(ph, w.table, w.queue, w.loads, w.reapers, k)
    ensures var v := DoCharge(w, pid, q, spec, cap); InPhase(ph, v.table, v.queue, v.loads, v.reapers, k)
  {
    hide Since;
  }

  lemma PhaseMark(w: World, pid: Pid, q: Key, spec: Spec, cap: nat, count: nat, stamp: int, k: Key, ph: Phase)
    returns (ph': Phase)
    requires Ids(w) && pid in w.reapers && w.reapers[pid] == Marking(q, spec, cap, count, stamp) && spec.modelName == q
    requires InPhase(ph, w.table, w.queue, w.loads, w.reapers, k)
    ensures var v := DoMark(w, pid, q, spec, cap, count, stamp); InPhase(ph', v.table, v.queue, v.loads, v.reapers, k)
    ensures q == k ==> OwnsRow(w.table, k, pid) && forall p :: p in w.reapers && PastCheck(w.reapers[p], k) ==> p == pid
  {
    hide LoadsKnown; hide JudgesKnown; hide VerdictsKnown; hide RowsKnown; hide Queued; hide Unplaced; hide Launching;
    var respawns := Ours(w.table, q, pid) && count < cap;
    QueuedAppend(w.queue, spec, k);
    ph' := if respawns && q == k then Waits else ph;
    assert q == k ==> PastCheck(w.reapers[pid], k);
  }

  // ----- coverage, step by step ---------------------------------------------

  lemma CoveredPlace(w: World, pid: Pid, spec: Spec, origin: Origin, prev: Option<Row>, k: Key, ph: Phase,
                     stamps: seq<int>)
    requires Ids(w) && pid in w.loads && w.loads[pid] == Placing(spec, origin, prev)
    requires InPhase(ph, w.table, w.queue, w.loads, w.reapers, k)
    requires spec.modelName == k ==> ph == Starts(pid) && Inherits(prev)
    requires Covered(w.table, Log(w.charges, k), w.reapers, stamps, k)
    ensures var v := DoPlace(w, pid, spec, origin, prev); Covered(v.table, Log(v.charges, k), v.reapers, stamps, k)
  {
    hide Dominates; hide Affirmed; hide Freed; hide Recent;
  }

  lemma CoveredSettle(w: World, pid: Pid, spec: Spec, origin: Origin, inherit: bool, prev: Option<Row>, k: Key,
                      stamps: seq<int>)
    requires spec.modelName == k ==> InOrder(w.table, k, pid, Ready) && inherit && prev.Some?
    requires Covered(w.table, Log(w.charges, k), w.reapers, stamps, k)
    ensures var v := DoSettle(w, pid, spec, origin, inherit, prev);
      Covered(v.table, Log(v.charges, k), v.reapers, stamps, k)
  {
    hide Dominates; hide Recent; hide Affirmed; hide Freed;
  }

  lemma CoveredLand(w: World, seat: Seat, spec: Spec, inherit: bool, verdict: Status, prev: Option<Row>, k: Key,
                    stamps: seq<int>)
    requires spec.modelName == k ==> verdict.Failed?
    requires Covered(w.table, Log(w.charges, k), w.reapers, stamps, k)
    ensures var v := Land(w, seat, spec, inherit, verdict, prev);
      Covered(v.table, Log(v.charges, k), v.reapers, stamps, k)
  {
    hide Dominates; hide Recent;
  }

  lemma CoveredCheck(w: World, pid: Pid, q: Key, k: Key, stamps: seq<int>)
    requires pid in w.reapers && w.reapers[pid] == Waiting(q)
    requires Covered(w.table, Log(w.charges, k), w.reapers, stamps, k)
    ensures Covered(w.table, Log(w.charges, k), DoCheck(w, pid, q).reapers, stamps, k)
  {
    hide Dominates;
  }

  lemma CoveredLook(w: World, pid: Pid, q: Key, flagged: bool, k: Key, stamps: seq<int>)
    requires pid in w.reapers && w.reapers[pid] == Looking(q, flagged)
    requires Covered(w.table, Log(w.charges, k), w.reapers, stamps, k)
    ensures Covered(w.table, Log(w.charges, k), w.reapers[pid := CheckedReaper(w.store, q, flagged)], stamps, k)
  {
    hide Dominates;
  }

  lemma CoveredGiveUp(w: World, pid: Pid, q: Key, k: Key, stamps: seq<int>)
    requires pid in w.reapers && w.reapers[pid] == GivingUp(q)
    requires Covered(w.table, Log(w.charges, k), w.reapers, stamps, k)
    ensures Covered(MarkedFailed(w.table, q, pid), Log(w.charges, k), w.reapers - {pid}, stamps, k)
  {
    hide Dominates;
  }

  lemma CoveredCharge(w: World, pid: Pid, q: Key, spec: Spec, cap: nat, k: Key, ph: Phase, stamps: seq<int>)
    requires Ids(w) && BooksRight(w.table, w.charges, k) && InThePast(w.charges, w.now)
    requires pid in w.reapers && w.reapers[pid] == Charging(q, spec, cap)
    requires InPhase(ph, w.table, w.queue, w.loads, w.reapers, k)
    requires Covered(w.table, Log(w.charges, k), w.reapers, stamps, k)
    ensures var v := DoCharge(w, pid, q, spec, cap); Covered(v.table, Log(v.charges, k), v.reapers, stamps, k)
  {
    hide Dominates; hide ChargedRow; hide Recent; hide JudgesKnown; hide VerdictsKnown; hide LoadsKnown; hide NoLaunch;
    hide OnlyLaunch; hide SettleInherited; hide Queued; hide Log; hide BooksRight; hide InThePast;
    if q == k && k in w.table {
      var log := Log(w.charges, k);
      assert PastCheck(w.reapers[pid], k);
      ChargeLogged(w, pid, q, spec, cap);
      assert (log + [w.now])[..|log|] == log;
    } else {
      ChargeElsewhere(w, pid, q, spec, cap, k);
    }
  }

  lemma ChargeLogged(w: World, pid: Pid, k: Key, spec: Spec, cap: nat)
    requires k in w.table && BooksRight(w.table, w.charges, k) && InThePast(w.charges, w.now)
    ensures Log(DoCharge(w, pid, k, spec, cap).charges, k) == Log(w.charges, k) + [w.now]
    ensures ChargedRow(w.table[k], w.now).restartCount == |Recent(Log(w.charges, k) + [w.now])|
    ensures var row := ChargedRow(w.table[k], w.now); row.status == w.table[k].status && row.pid == w.table[k].pid
  {
    ChargeMatches(w.table[k], Log(w.charges, k), w.now);
    hide Recent;
  }

  lemma ChargeElsewhere(w: World, pid: Pid, q: Key, spec: Spec, cap: nat, k: Key)
    requires q != k || k !in w.table
    ensures Log(DoCharge(w, pid, q, spec, cap).charges, k) == Log(w.charges, k)
  {
    hide ChargedRow;
  }

  lemma DominatesAt(log: seq<int>, stamps: seq<int>, c: int)
    requires Dominates(log, stamps)
    ensures |Since(stamps, c)| <= |Since(log, c)|
  {
  }

  // The charge that waits is the last of the log, so a respawn that is granted was counted.
  lemma Granted(log: seq<int>, stamps: seq<int>, stamp: int, count: nat, cap: nat)
    requires log != [] && log[|log| - 1] == stamp && count == |Recent(log)| && Dominates(log[..|log| - 1], stamps)
    ensures Dominates(log, stamps) && Dominates(log, stamps + [stamp])
    ensures |Since(stamps + [stamp], stamp - RESTART_WINDOW_MS)| <= count
  {
    hide Since; hide Dominates;
    assert log == log[..|log| - 1] + [stamp];
    DominatesAppend(log[..|log| - 1], stamps, stamp);
    DominatesAt(log, stamps + [stamp], stamp - RESTART_WINDOW_MS);
  }

  lemma CoveredMarkElsewhere(w: World, pid: Pid, q: Key, spec: Spec, cap: nat, count: nat, stamp: int, k: Key,
                             stamps: seq<int>)
    requires Ids(w) && q != k && pid in w.reapers && w.reapers[pid].key == q
    requires Covered(w.table, Log(w.charges, k), w.reapers, stamps, k)
    ensures Covered(DoMark(w, pid, q, spec, cap, count, stamp).table, Log(w.charges, k), w.reapers - {pid}, stamps, k)
  {
    hide Dominates;
  }

  lemma CoveredMark(w: World, pid: Pid, spec: Spec, cap: nat, count: nat, stamp: int, k: Key, stamps: seq<int>)
    requires pid in w.reapers && w.reapers[pid] == Marking(k, spec, cap, count, stamp) && OwnsRow(w.table, k, pid)
    requires Covered(w.table, Log(w.charges, k), w.reapers, stamps, k)
    ensures Covered(DoMark(w, pid, k, spec, cap, count, stamp).table, Log(w.charges, k), w.reapers - {pid},
                    if Ours(w.table, k, pid) && count < cap then stamps + [stamp] else stamps, k)
    ensures Ours(w.table, k, pid) && count < cap ==> |Since(stamps + [stamp], stamp - RESTART_WINDOW_MS)| < cap
  {
    if !w.table[k].status.Failed? && !w.table[k].status.BudgetExhausted? {
      Granted(Log(w.charges, k), stamps, stamp, count, cap);
    }
    hide Dominates;
    hide Recent;
  }

  // ----- punctuality, step by step ------------------------------------------

  lemma PunctualSteps(rs: seq<Respawn>, reapers: map<Pid, Reaper>, k: Key, now: int, pid: Pid, r: Reaper)
    requires Punctual(rs, reapers, k, now) && (r.Marking? && r.key == k ==> r.stamp == now)
    ensures Punctual(rs, reapers - {pid}, k, now) && Punctual(rs, reapers[pid := r], k, now)
  {
  }

  lemma PunctualLater(rs: seq<Respawn>, reapers: map<Pid, Reaper>, k: Key, now: int, ms: nat)
    requires Punctual(rs, reapers, k, now)
    ensures Punctual(rs, reapers, k, now + ms)
  {
  }

  lemma PunctualRespawn(rs: seq<Respawn>, reapers: map<Pid, Reaper>, k: Key, now: int, pid: Pid, r: Respawn)
    requires Punctual(rs, reapers, k, now) && pid in reapers && reapers[pid].Marking? && reapers[pid].key == r.key
    requires r.stamp == reapers[pid].stamp && r.at == now
    requires r.key == k ==> forall p :: p in reapers && PastCheck(reapers[p], k) ==> p == pid
    ensures Punctual(rs + [r], reapers - {pid}, k, now)
  {
    InTurnAppend(rs, r, k);
    hide InTurn;
    assert forall x :: x in rs + [r] <==> x in rs || x == r;
    assert forall p :: p in reapers && reapers[p].Marking? && reapers[p].key == k ==> PastCheck(reapers[p], k);
  }

  // ----- all together -------------------------------------------------------

  /** Nobody but the reaper restarts `k` in this step, and no health check vouches for it. */
  predicate LeavesAlone(w: World, a: Act, k: Key)
    requires Enabled(w, a)
  {
    match a
    case RpcLoad(spec, _, _) => spec.modelName != k
    case Restart(q, _) => q != k
    case Unload(q, _) => q != k
    case SweepLaunches(_) => w.sweep.held.value.spec.modelName != k
    case JudgeStep(seat, _) =>
      w.judges[seat].Landing? && w.judges[seat].verdict.Ready? ==> w.judges[seat].spec.modelName != k
    case Crash(_) => false
    case _ => true
  }

  /** Besides, the step makes no late insert into the row of `k` and inserts no old books. */
  predicate Undisturbed(w: World, a: Act, k: Key)
    requires Enabled(w, a)
  {
    LeavesAlone(w, a, k) && Timely(w, a, k) && !Rebooks(w, a, k)
  }

  // What every run keeps, and what this key's books need.
  ghost predicate Sound(w: World, k: Key) {
    && Ids(w) && Keyed(w) && Final(w.judges) && InThePast(w.charges, w.now)
    && BooksRight(w.table, w.charges, k)
  }

  lemma MarkRespawns(w: World, pid: Pid, q: Key, spec: Spec, cap: nat, count: nat, stamp: int)
    ensures var v := DoMark(w, pid, q, spec, cap, count, stamp);
      && v.respawns == w.respawns
         + (if Ours(w.table, q, pid) && count < cap then [Respawn(q, stamp, cap, w.now)] else [])
      && v.charges == w.charges && v.reapers == w.reapers - {pid} && v.now == w.now
  {
  }

  lemma BoundedMark(w: World, pid: Pid, q: Key, spec: Spec, cap: nat, count: nat, stamp: int, k: Key, from: nat,
                    ph: Phase)
    returns (ph': Phase)
    requires Ids(w) && Bounded(w, k, from, ph)
    requires pid in w.reapers && w.reapers[pid] == Marking(q, spec, cap, count, stamp) && spec.modelName == q
    ensures Bounded(DoMark(w, pid, q, spec, cap, count, stamp), k, from, ph')
  {
    hide Ids; hide InPhase; hide Covered; hide AllWithin; hide DoMark; hide StampsOf; hide Punctual;
    hide Since; hide Log; hide Ours; hide OwnsRow; hide PastCheck;
    var rs, r := w.respawns[from..], Respawn(q, stamp, cap, w.now);
    var v := DoMark(w, pid, q, spec, cap, count, stamp);
    ph' := PhaseMark(w, pid, q, spec, cap, count, stamp, k, ph);
    MarkRespawns(w, pid, q, spec, cap, count, stamp);
    PunctualSteps(rs, w.reapers, k, w.now, pid, Waiting(q));
    if q == k {
      CoveredMark(w, pid, spec, cap, count, stamp, k, StampsOf(rs, k));
    } else {
      CoveredMarkElsewhere(w, pid, q, spec, cap, count, stamp, k, StampsOf(rs, k));
    }
    if Ours(w.table, q, pid) && count < cap {
      RespawnAppend(rs, r, k);
      PunctualRespawn(rs, w.reapers, k, w.now, pid, r);
      assert v.respawns[from..] == rs + [r];
      assert StampsOf(rs, k) + [] == StampsOf(rs, k);
    } else {
      assert v.respawns[from..] == rs;
    }
  }

  lemma BoundedCheck(w: World, pid: Pid, q: Key, k: Key, from: nat, ph: Phase)
    requires Bounded(w, k, from, ph) && pid in w.reapers && w.reapers[pid] == Waiting(q)
    ensures Bounded(DoCheck(w, pid, q), k, from, ph)
  {
    hide InPhase; hide Covered; hide AllWithin; hide Punctual; hide OwnsRow;
    PhaseCheck(w, pid, q, k, ph);
    CoveredCheck(w, pid, q, k, StampsOf(w.respawns[from..], k));
    PunctualSteps(w.respawns[from..], w.reapers, k, w.now, pid, Looking(q, k in w.table && w.table[k].userFlagged));
    PunctualSteps(w.respawns[from..], w.reapers, k, w.now, pid, Looking(q, q in w.table && w.table[q].userFlagged));
    assert OwnsRow(w.table, q, pid) ==> q in w.table by { Owned(w.table, q, pid); }
  }

  lemma Owned(table: map<Key, Row>, k: Key, pid: Pid)
    ensures OwnsRow(table, k, pid) ==> k in table
  {
  }

  lemma BoundedLook(w: World, pid: Pid, q: Key, flagged: bool, k: Key, from: nat, ph: Phase)
    requires Bounded(w, k, from, ph) && pid in w.reapers && w.reapers[pid] == Looking(q, flagged)
    ensures Bounded(w.(reapers := w.reapers[pid := CheckedReaper(w.store, q, flagged)]), k, from, ph)
  {
    hide InPhase; hide Covered; hide AllWithin; hide Punctual;
    PhaseLook(w, pid, q, flagged, k, ph);
    CoveredLook(w, pid, q, flagged, k, StampsOf(w.respawns[from..], k));
    PunctualSteps(w.respawns[from..], w.reapers, k, w.now, pid, CheckedReaper(w.store, q, flagged));
  }

  lemma BoundedGiveUp(w: World, pid: Pid, q: Key, k: Key, from: nat, ph: Phase)
    requires Bounded(w, k, from, ph) && pid in w.reapers && w.reapers[pid] == GivingUp(q)
    ensures Bounded(w.(table := MarkedFailed(w.table, q, pid), reapers := w.reapers - {pid}), k, from, ph)
  {
    hide InPhase; hide Covered; hide AllWithin; hide Punctual;
    PhaseGiveUp(w, pid, q, k, ph);
    CoveredGiveUp(w, pid, q, k, StampsOf(w.respawns[from..], k));
    PunctualSteps(w.respawns[from..], w.reapers, k, w.now, pid, Waiting(q));
  }

  lemma BoundedCharge(w: World, pid: Pid, q: Key, spec: Spec, cap: nat, k: Key, from: nat, ph: Phase)
    requires Sound(w, k) && Bounded(w, k, from, ph)
    requires pid in w.reapers && w.reapers[pid] == Charging(q, spec, cap)
    ensures Bounded(DoCharge(w, pid, q, spec, cap), k, from, ph)
  {
    hide InPhase; hide Covered; hide AllWithin; hide Ids; hide Punctual; hide ChargedRow; hide Charged;
    PhaseCharge(w, pid, q, spec, cap, k, ph);
    CoveredCharge(w, pid, q, spec, cap, k, ph, StampsOf(w.respawns[from..], k));
    PunctualSteps(w.respawns[from..], w.reapers, k, w.now, pid, Waiting(q));
    if q in w.table {
      PunctualSteps(w.respawns[from..], w.reapers, k, w.now, pid,
                    Marking(q, spec, cap, ChargedRow(w.table[q], w.now).restartCount, w.now));
    }
  }

  lemma BoundedReap(w: World, pid: Pid, k: Key, from: nat, ph: Phase) returns (ph': Phase)
    requires Sound(w, k) && Bounded(w, k, from, ph) && pid in w.reapers
    ensures Bounded(DoReap(w, pid), k, from, ph')
  {
    hide Bounded; hide Ids; hide InThePast; hide BooksRight; hide Final; hide DoCheck; hide DoCharge;
    hide DoMark; hide MarkedFailed;
    ph' := ph;
    match w.reapers[pid]
    case Waiting(q) => BoundedCheck(w, pid, q, k, from, ph);
    case Looking(q, flagged) => BoundedLook(w, pid, q, flagged, k, from, ph);
    case GivingUp(q) => BoundedGiveUp(w, pid, q, k, from, ph);
    case Charging(q, spec, cap) => BoundedCharge(w, pid, q, spec, cap, k, from, ph);
    case Marking(q, spec, cap, count, stamp) =>
      ph' := BoundedMark(w, pid, q, spec, cap, count, stamp, k, from, ph);
  }

  lemma BoundedSpawn(w: World, pid: Pid, spec: Spec, origin: Origin, spawned: bool, k: Key, from: nat, ph: Phase)
      returns (ph': Phase)
    requires Ids(w) && Bounded(w, k, from, ph) && pid in w.loads && w.loads[pid] == Calling(spec, origin)
    ensures Bounded(if spawned then DoSpawn(w, pid, spec, origin) else DoAbandon(w, pid), k, from, ph')
  {
    hide InPhase; hide Covered; hide AllWithin; hide Punctual; hide Ids;
    var rs := w.respawns[from..];
    ph' := ph;
    PunctualSteps(rs, w.reapers, k, w.now, pid, Waiting(spec.modelName));
    if spawned {
      PhaseSpawn(w, pid, spec, origin, k, ph);
      CoveredSpawn(w, pid, spec, k, StampsOf(rs, k));
    } else {
      ph' := PhaseAbandon(w, pid, k, ph);
    }
  }

  lemma BoundedRead(w: World, pid: Pid, spec: Spec, origin: Origin, k: Key, from: nat, ph: Phase)
    requires Bounded(w, k, from, ph) && pid in w.loads && w.loads[pid] == Reading(spec, origin)
    ensures Bounded(w.(loads := w.loads[pid := Placing(spec, origin, Get(w.table, spec.modelName))]), k, from, ph)
  {
    hide InPhase; hide Covered; hide AllWithin; hide Punctual;
    PhaseRead(w, pid, spec, origin, k, ph);
  }

  lemma BoundedPlace(w: World, pid: Pid, spec: Spec, origin: Origin, prev: Option<Row>, k: Key, from: nat, ph: Phase)
      returns (ph': Phase)
    requires Ids(w) && Bounded(w, k, from, ph) && pid in w.loads && w.loads[pid] == Placing(spec, origin, prev)
    ensures Bounded(DoPlace(w, pid, spec, origin, prev), k, from, ph')
  {
    hide InPhase; hide Covered; hide AllWithin; hide Punctual; hide Ids; hide EntryFor; hide ChargesAfter;
    hide Affirmed; hide Freed;
    ph' := PhasePlace(w, pid, spec, origin, prev, k, ph);
    CoveredPlace(w, pid, spec, origin, prev, k, ph, StampsOf(w.respawns[from..], k));
  }

  lemma ConfirmKeeps(w: World, pid: Pid, spec: Spec, origin: Origin, inherit: bool, prev: Option<Row>)
    ensures var v := DoConfirm(w, pid, spec, origin, inherit, prev);
      && v.table == w.table && v.queue == w.queue && v.reapers == w.reapers && v.charges == w.charges
      && v.respawns == w.respawns && v.now == w.now
      && (v.loads == w.loads - {pid} || v.loads == w.loads[pid := Settling(spec, origin, inherit, prev, true)])
  {
    hide OwnsRow; hide Affirmed; hide Freed;
  }

  lemma BoundedConfirm(w: World, pid: Pid, spec: Spec, origin: Origin, inherit: bool, prev: Option<Row>, k: Key,
                       from: nat, ph: Phase)
    requires Bounded(w, k, from, ph) && pid in w.loads && w.loads[pid] == Settling(spec, origin, inherit, prev, false)
    ensures Bounded(DoConfirm(w, pid, spec, origin, inherit, prev), k, from, ph)
  {
    hide InPhase; hide Covered; hide AllWithin; hide Punctual; hide OwnsRow; hide Affirmed; hide Freed;
    hide StampsOf; hide Log;
    ConfirmKeeps(w, pid, spec, origin, inherit, prev);
    hide DoConfirm;
    PhaseReturned(w.loads, pid, Settling(spec, origin, inherit, prev, true), w.table, w.queue, w.reapers, k, ph);
  }

  lemma BoundedSettle(w: World, pid: Pid, spec: Spec, origin: Origin, inherit: bool, prev: Option<Row>, k: Key,
                      from: nat, ph: Phase)
    requires Bounded(w, k, from, ph) && pid in w.loads && w.loads[pid] == Settling(spec, origin, inherit, prev, true)
    requires spec.modelName == k ==> InOrder(w.table, k, pid, Ready)
    ensures Bounded(DoSettle(w, pid, spec, origin, inherit, prev), k, from, ph)
  {
    hide Covered; hide AllWithin; hide Punctual; hide Affirmed; hide Freed; hide ChargesAfter; hide EntryFor;
    hide InOrder;
    hide Queued; hide NoLaunch; hide OnlyLaunch; hide OwnedReapers; hide Reaped; hide StampsOf; hide Log;
    assert spec.modelName == k ==> inherit && prev.Some?;
    hide InPhase;
    var row := EntryFor(spec, pid, Ready, inherit, prev, w.now);
    EntryShows(Insertion(spec, pid, Ready, inherit, prev), w.now);
    PhaseReturned(w.loads, pid, Settling(spec, origin, inherit, prev, true), w.table, w.queue, w.reapers, k, ph);
    PhaseInsert(ph, w.table, w.queue, w.loads - {pid}, w.reapers, k, spec.modelName, row);
    CoveredSettle(w, pid, spec, origin, inherit, prev, k, StampsOf(w.respawns[from..], k));
  }

  lemma BoundedLoad(w: World, pid: Pid, spawned: bool, k: Key, from: nat, ph: Phase) returns (ph': Phase)
    requires Ids(w) && Bounded(w, k, from, ph) && pid in w.loads && Timely(w, LoadStep(pid, spawned), k)
    ensures Bounded(DoLoad(w, pid, spawned), k, from, ph')
  {
    hide Bounded; hide Ids; hide InOrder; hide DoSpawn; hide DoAbandon; hide DoPlace; hide DoConfirm; hide DoSettle;
    ph' := ph;
    match w.loads[pid]
    case Calling(spec, origin) => ph' := BoundedSpawn(w, pid, spec, origin, spawned, k, from, ph);
    case Reading(spec, origin) => BoundedRead(w, pid, spec, origin, k, from, ph);
    case Placing(spec, origin, prev) => ph' := BoundedPlace(w, pid, spec, origin, prev, k, from, ph);
    case Settling(spec, origin, inherit, prev, checked) =>
      if checked { BoundedSettle(w, pid, spec, origin, inherit, prev, k, from, ph); }
      else { BoundedConfirm(w, pid, spec, origin, inherit, prev, k, from, ph); }
  }

  lemma CoveredSpawn(w: World, pid: Pid, spec: Spec, k: Key, stamps: seq<int>)
    requires Ids(w) && pid in w.loads && w.loads[pid].Calling?
    requires Covered(w.table, Log(w.charges, k), w.reapers, stamps, k)
    ensures Covered(w.table, Log(w.charges, k), w.reapers[pid := Waiting(spec.modelName)], stamps, k)
  {
    hide Dominates;
  }

  lemma BoundedJudge(w: World, seat: Seat, finding: Finding, k: Key, from: nat, ph: Phase)
    requires Final(w.judges) && Bounded(w, k, from, ph) && seat in w.judges
    requires Enabled(w, JudgeStep(seat, finding)) && Timely(w, JudgeStep(seat, finding), k)
    requires w.judges[seat].Landing? && w.judges[seat].verdict.Ready? ==> w.judges[seat].spec.modelName != k
    ensures Bounded(DoJudge(w, seat, finding), k, from, ph)
  {
    JudgeFrame(w, seat, finding);
    var j := w.judges[seat];
    assert j.Landing? ==> j.verdict.Ready? || j.verdict.Failed?;
    hide AllWithin; hide StampsOf; hide InPhase; hide Covered; hide Punctual; hide Final; hide InOrder; hide EntryFor;
    hide ChargesAfter; hide Decide;
    if j.Landing? {
      var q := j.spec.modelName;
      var i := Insertion(j.spec, seat.pid, j.verdict, j.inherit, j.prev);
      EntryShows(i, w.now);
      PhaseInsert(ph, w.table, w.queue, w.loads, w.reapers, k, q, Entry(i, w.now));
      CoveredLand(w, seat, j.spec, j.inherit, j.verdict, j.prev, k, StampsOf(w.respawns[from..], k));
    }
  }

  lemma PhaseBegun(w: World, pid: Pid, spec: Spec, origin: Origin, k: Key, ph: Phase)
    requires Ids(w) && pid !in w.home && spec.modelName != k
    requires InPhase(ph, w.table, w.queue, w.loads, w.reapers, k)
    ensures InPhase(ph, w.table, w.queue, w.loads[pid := Calling(spec, origin)], w.reapers, k)
  {
  }

  lemma PhaseDispatch(w: World, pid: Pid, k: Key, ph: Phase) returns (ph': Phase)
    requires Ids(w) && pid !in w.home && w.queue != []
    requires InPhase(ph, w.table, w.queue, w.loads, w.reapers, k)
    ensures InPhase(ph', w.table, w.queue[1..], w.loads[pid := Calling(w.queue[0], Supervisor)], w.reapers, k)
  {
    ph' := if w.queue[0].modelName == k then Starts(pid) else ph;
  }

  lemma PhaseGone(w: World, q: Key, k: Key, ph: Phase)
    requires q != k && InPhase(ph, w.table, w.queue, w.loads, w.reapers, k)
    ensures InPhase(ph, w.table - {q}, w.queue, w.loads, w.reapers, k)
  {
  }

  lemma CoveredGone(table: map<Key, Row>, q: Key, log: seq<int>, reapers: map<Pid, Reaper>, stamps: seq<int>, k: Key)
    requires q != k && Covered(table, log, reapers, stamps, k)
    ensures Covered(table - {q}, log, reapers, stamps, k)
  {
    hide Dominates;
  }

  lemma RowFiled(w: World, k: Key)
    requires Ids(w) && k in w.table
    ensures w.table[k].spec.modelName == k
  {
  }

  lemma BoundedBegun(w: World, a: Act, k: Key, from: nat, ph: Phase) returns (ph': Phase)
    requires Ids(w) && Bounded(w, k, from, ph) && Enabled(w, a) && LeavesAlone(w, a, k)
    requires a.RpcLoad? || a.Restart? || a.Dispatch? || a.SweepLaunches? || a.Unload?
    ensures Bounded(Do(w, a), k, from, ph')
  {
    hide InPhase; hide Covered; hide AllWithin; hide StampsOf; hide Ids; hide Punctual;
    ph' := ph;
    var stamps := StampsOf(w.respawns[from..], k);
    match a
    case RpcLoad(spec, pid, _) => PhaseBegun(w, pid, spec, Rpc, k, ph);
    case SweepLaunches(pid) => PhaseBegun(w, pid, w.sweep.held.value.spec, Boot, k, ph);
    case Dispatch(pid) => ph' := PhaseDispatch(w, pid, k, ph);
    case Restart(q, pid) =>
      RowFiled(w, q);
      PhaseBegun(w, pid, w.table[q].spec, Operator, k, ph);
      PhaseGone(Do(w, a).(table := w.table), q, k, ph);
      CoveredGone(w.table, q, Log(w.charges, k), w.reapers, stamps, k);
    case Unload(q, _) =>
      PhaseGone(w, q, k, ph);
      CoveredGone(w.table, q, Log(w.charges, k), w.reapers, stamps, k);
  }

  lemma BoundedIdle(w: World, a: Act, k: Key, from: nat, ph: Phase)
    requires Bounded(w, k, from, ph) && Enabled(w, a)
    requires a.Tick? || a.Die? || a.ReconSees? || a.Fetch? || a.Commit? || a.SweepExamines?
    ensures Bounded(Do(w, a), k, from, ph)
  {
    hide InPhase; hide Covered; hide AllWithin; hide Punctual; hide DoFetch; hide DoCommit;
    match a
    case Tick(ms) => PunctualLater(w.respawns[from..], w.reapers, k, w.now, ms);
    case Fetch(write) => FetchFrame(w, write);
    case Commit(draft, ok) => CommitFrame(w, draft, ok);
    case _ =>
  }

  lemma BoundedKept(w: World, a: Act, k: Key, from: nat, ph: Phase) returns (ph': Phase)
    requires Sound(w, k) && Bounded(w, k, from, ph) && Enabled(w, a) && Undisturbed(w, a, k)
    ensures Bounded(Do(w, a), k, from, ph')
  {
    hide Bounded; hide Timely; hide Rebooks; hide DoLoad; hide DoJudge; hide DoReap; hide Ids; hide Keyed;
    hide Final; hide InThePast;
    hide BooksRight;
    ph' := ph;
    match a
    case LoadStep(pid, spawned) => ph' := BoundedLoad(w, pid, spawned, k, from, ph);
    case JudgeStep(seat, finding) => BoundedJudge(w, seat, finding, k, from, ph);
    case ReapStep(pid) => ph' := BoundedReap(w, pid, k, from, ph);
    case RpcLoad(_, _, _) => ph' := BoundedBegun(w, a, k, from, ph); hide Do;
    case Restart(_, _) => ph' := BoundedBegun(w, a, k, from, ph); hide Do;
    case Dispatch(_) => ph' := BoundedBegun(w, a, k, from, ph); hide Do;
    case SweepLaunches(_) => ph' := BoundedBegun(w, a, k, from, ph); hide Do;
    case Unload(_, _) => ph' := BoundedBegun(w, a, k, from, ph); hide Do;
    case _ => BoundedIdle(w, a, k, from, ph); hide Do;
  }

  lemma SoundKept(w: World, a: Act, k: Key)
    requires Sound(w, k) && Heard(w) && Enabled(w, a) && !Rebooks(w, a, k)
    ensures Sound(Do(w, a), k)
  {
    hide Ids; hide Keyed; hide Heard; hide InThePast; hide BooksRight; hide Do; hide Rebooks;
    IdsKept(w, a);
    KeyedKept(w, a);
    HeardKept(w, a);
    PastKept(w, a);
    BooksStayExactly(w, a, k);
    HeardIs(Do(w, a));
  }

  lemma HeardIs(w: World)
    requires Heard(w)
    ensures Final(w.judges)
  {
  }

  // ----- whole runs ---------------------------------------------------------

  // From here on the key is left to itself: it has no load in flight, no reaper is at
  // work on it, and its row shows what was charged to it.
  predicate LeftAlone(w: World, k: Key) {
    && InPhase(Idle, w.table, w.queue, w.loads, w.reapers, k)
    && NoneMarking(w.reapers, k) && BooksRight(w.table, w.charges, k)
  }

  ghost predicate UndisturbedFrom(ws: seq<World>, acts: seq<Act>, k: Key, m: nat) {
    && Run(ws, acts) && m <= |acts| && LeftAlone(ws[m], k)
    && forall i :: m <= i < |acts| ==> Undisturbed(ws[i], acts[i], k)
  }

  lemma {:induction false} RunsAreKeyed(ws: seq<World>, acts: seq<Act>, i: nat)
    requires Run(ws, acts) && Booted(ws[0]) && i <= |acts|
    ensures Keyed(ws[i])
  {
    hide Do; hide Enabled;
    if i > 0 {
      RunsAreKeyed(ws, acts, i - 1);
      hide Keyed;
      KeyedKept(ws[i - 1], acts[i - 1]);
    }
  }

  lemma {:induction false} RunsAreSound(ws: seq<World>, acts: seq<Act>, k: Key, m: nat, i: nat)
    requires UndisturbedFrom(ws, acts, k, m) && Booted(ws[0]) && m <= i <= |acts|
    ensures Sound(ws[i], k)
  {
    hide Do; hide Enabled; hide Ids; hide Keyed; hide InThePast; hide BooksRight; hide LeavesAlone; hide Timely;
    hide Rebooks; hide Booted;
    RunsAreHeard(ws, acts, i);
    RunsAreKeyed(ws, acts, i);
    ChargesArePast(ws, acts, i);
    HeardIs(ws[i]);
    hide Heard; hide Final;
    if i > m {
      RunsAreSound(ws, acts, k, m, i - 1);
      BooksStayExactly(ws[i - 1], acts[i - 1], k);
    }
  }

  lemma StartsBounded(w: World, k: Key)
    requires Ids(w) && LeftAlone(w, k)
    ensures Bounded(w, k, |w.respawns|, Idle)
  {
    assert w.respawns[|w.respawns|..] == [];
    assert forall p :: p in w.reapers && w.reapers[p].Marking? && w.reapers[p].key == k ==> PastCheck(w.reapers[p], k);
    assert forall p :: p in w.reapers ==> w.reapers[p].key == w.home[p];
  }

  lemma {:induction false} BoundedRun(ws: seq<World>, acts: seq<Act>, k: Key, m: nat, i: nat) returns (ph: Phase)
    requires UndisturbedFrom(ws, acts, k, m) && Booted(ws[0]) && m <= i <= |acts|
    ensures Bounded(ws[i], k, |ws[m].respawns|, ph)
  {
    hide Do; hide Enabled; hide Bounded; hide Undisturbed; hide Booted;
    if i == m {
      RunsKnowIds(ws, acts, m);
      hide Ids;
      StartsBounded(ws[m], k);
      ph := Idle;
    } else {
      ph := BoundedRun(ws, acts, k, m, i - 1);
      RunsAreSound(ws, acts, k, m, i - 1);
      hide Sound;
      ph := BoundedKept(ws[i - 1], acts[i - 1], k, |ws[m].respawns|, ph);
    }
  }

  // How many respawns of `k` answer a death in the 300 s that begin at `t`.
  function InSpan(rs: seq<Respawn>, k: Key, t: int): nat {
    if rs == [] then 0
    else
      var r := rs[|rs| - 1];
      InSpan(rs[..|rs| - 1], k, t) + if r.key == k && t <= r.stamp <= t + RESTART_WINDOW_MS then 1 else 0
  }

  lemma {:induction false} SpanInWindow(rs: seq<Respawn>, k: Key, t: int, c: int)
    requires c <= t
    ensures InSpan(rs, k, t) <= |Since(StampsOf(rs, k), c)|
  {
    if rs != [] {
      var init, r := rs[..|rs| - 1], rs[|rs| - 1];
      SpanInWindow(init, k, t, c);
      SinceAppend(StampsOf(init, k), r.stamp, c);
      assert StampsOf(init, k) + [] == StampsOf(init, k);
    }
  }

  predicate Capped(rs: seq<Respawn>, k: Key, cap: nat) {
    forall i :: 0 <= i < |rs| && rs[i].key == k ==> rs[i].cap <= cap
  }

  lemma {:induction false} SpanBelowCap(rs: seq<Respawn>, k: Key, t: int, cap: nat)
    requires AllWithin(rs, k) && Capped(rs, k, cap)
    ensures InSpan(rs, k, t) == 0 || InSpan(rs, k, t) < cap
  {
    if rs != [] {
      var init, r := rs[..|rs| - 1], rs[|rs| - 1];
      if r.key == k && t <= r.stamp <= t + RESTART_WINDOW_MS {
        assert rs[..|rs| - 1 + 1] == rs && WithinCap(rs, k, |rs| - 1);
        SpanInWindow(rs, k, t, r.stamp - RESTART_WINDOW_MS);
      } else {
        forall i | 0 <= i < |init| && init[i].key == k ensures WithinCap(init, k, i) {
          assert init[..i + 1] == rs[..i + 1] && WithinCap(rs, k, i);
        }
        SpanBelowCap(init, k, t, cap);
      }
    }
  }

  // How many respawns of `k` are asked for in the 300 s that begin at `t`.
  function AskedInSpan(rs: seq<Respawn>, k: Key, t: int): nat {
    if rs == [] then 0
    else
      var r := rs[|rs| - 1];
      AskedInSpan(rs[..|rs| - 1], k, t) + if r.key == k && t <= r.at <= t + RESTART_WINDOW_MS then 1 else 0
  }

  lemma {:induction false} NoneAsked(rs: seq<Respawn>, k: Key, t: int)
    requires forall r :: r in rs && r.key == k ==> r.at < t
    ensures AskedInSpan(rs, k, t) == 0
  {
    if rs != [] {
      assert rs[|rs| - 1] in rs && forall r :: r in rs[..|rs| - 1] ==> r in rs;
      NoneAsked(rs[..|rs| - 1], k, t);
    }
  }

  // Of the respawns asked for in a span, all but the first answer a death in it.
  lemma {:induction false} AskedOneMore(rs: seq<Respawn>, k: Key, t: int)
    requires InTurn(rs, k)
    ensures AskedInSpan(rs, k, t) <= InSpan(rs, k, t) + 1
  {
    if rs != [] {
      var init, r := rs[..|rs| - 1], rs[|rs| - 1];
      assert InTurn(init, k);
      if r.key == k && r.stamp < t {
        forall x | x in init && x.key == k ensures x.at < t {
          var i :| 0 <= i < |init| && init[i] == x;
          assert rs[i] == x && rs[i].at <= rs[|rs| - 1].stamp;
        }
        NoneAsked(init, k, t);
      } else {
        assert r.key == k ==> rs[|rs| - 1].stamp <= rs[|rs| - 1].at;
        AskedOneMore(init, k, t);
      }
    }
  }

  lemma NoneUnderZero(rs: seq<Respawn>, k: Key, t: int)
    requires AllWithin(rs, k) && Capped(rs, k, 0)
    ensures AskedInSpan(rs, k, t) == 0
  {
    assert forall r :: r in rs ==> r.key != k;
    NoneAsked(rs, k, t);
  }

  /**
   The crash loop is bounded, in every run in which from some moment on `k` is left to
   the reaper and no insert into its row is late, whatever happens to the other models:
   each respawn is below the cap its manifest had; the respawns that answer the deaths of
   any 300 s are fewer than the cap, and no more than the cap are asked for in any 300 s.
   */
  lemma CrashLoopIsBounded(ws: seq<World>, acts: seq<Act>, k: Key, m: nat, i: nat, t: int, cap: nat)
    requires UndisturbedFrom(ws, acts, k, m) && Booted(ws[0]) && m <= i <= |acts|
    ensures |ws[m].respawns| <= |ws[i].respawns|
    ensures var mine := ws[i].respawns[|ws[m].respawns|..];
      && AllWithin(mine, k)
      && (Capped(mine, k, cap) ==> InSpan(mine, k, t) == 0 || InSpan(mine, k, t) < cap)
      && (Capped(mine, k, cap) ==> AskedInSpan(mine, k, t) <= cap)
  {
    hide Do; hide Enabled; hide Undisturbed; hide Booted;
    var ph := BoundedRun(ws, acts, k, m, i);
    var mine := ws[i].respawns[|ws[m].respawns|..];
    hide InPhase; hide Covered; hide InTurn; hide AllWithin; hide InSpan; hide AskedInSpan; hide Capped;
    AskedOneMore(mine, k, t);
    if Capped(mine, k, cap) {
      SpanBelowCap(mine, k, t, cap);
      if cap == 0 { NoneUnderZero(mine, k, t); }
    }
  }

  /**
   The reaper's verdict is about the log: when it marks the row of a key left alone,
   the row is exhausted, flagged and the trip sent to disk exactly if the charges of
   the last 300 s reach the cap, and respawned exactly if they do not.
   */
  lemma VerdictIsAboutTheLog(ws: seq<World>, acts: seq<Act>, k: Key, m: nat, i: nat, pid: Pid)
    requires UndisturbedFrom(ws, acts, k, m) && Booted(ws[0]) && m <= i < |acts|
    requires acts[i] == ReapStep(pid) && ws[i].reapers[pid].Marking? && ws[i].reapers[pid].key == k
    requires Ours(ws[i].table, k, pid)
    ensures var w, v := ws[i], ws[i + 1];
      var deaths := |Recent(Log(w.charges, k))|;
      var cap := w.reapers[pid].cap;
      && (v.table[k].status.BudgetExhausted? <==> deaths >= cap)
      && (deaths >= cap ==> v.table[k].userFlagged && Trip(k, cap, 3) in v.writes && v.queue == w.queue)
      && (v.table[k].status.Restarting? <==> deaths < cap)
      && (deaths < cap ==> v.queue == w.queue + [w.reapers[pid].spec])
  {
    var ph := BoundedRun(ws, acts, k, m, i);
    var r := ws[i].reapers[pid];
    assert ws[i + 1] == DoMark(ws[i], pid, k, r.spec, r.cap, r.count, r.stamp);
    assert r.count == |Recent(Log(ws[i].charges, k))|;
  }
}
