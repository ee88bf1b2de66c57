/**
 What a task leaves behind when nobody comes in between, field by field: the row it
 writes, the manifest, the queue.
 */
module TaskOutcomes {
  import opened Wrappers
  import opened ProcessTables
  import opened StateStore
  import opened World
  import opened WorldFrames
  import opened WorldBoot
  import opened Lifecycle

  /** A load: its row, which takes the bookkeeping over from a row that waits for its respawn, and the mark from any. */
  lemma LoadLeaves(s: Shared, spec: Spec, pid: Pid, spawned: bool, now: int)
    ensures var k := spec.modelName;
      var v := After(RunLoad(Around(s, map[pid := Calling(spec, Operator)], map[], map[], now), pid, spawned));
      && v.store == s.store && v.queue == s.queue
      && if !spawned then v.table == s.table
         else
           var status := if spec.healthUrl != "" && spec.healthTimeoutMs != 0 then Starting else Ready;
           if k in s.table && s.table[k].status == Restarting then
             var was := s.table[k];
             v.table == s.table[k := Row(pid, status, now, spec, was.restartCount, was.windowStarts, was.userFlagged)]
           else
             v.table == s.table[k := Row(pid, status, now, spec, 0, [], k in s.table && s.table[k].userFlagged)]
  {
    hide RunLoad;
    var w := Around(s, map[pid := Calling(spec, Operator)], map[], map[], now);
    if spawned { LoadPlaces(w, pid, spec); } else { LoadFails(w, pid, spec); }
  }

  /** A gate whose backend answered: the row is `ready` with a clean record, and the persisted tally is gone. */
  lemma GatePasses(s: Shared, seat: Seat, spec: Spec, inherit: bool, since: int, now: int, disk: bool)
    requires forall q :: q in s.store ==> ValidKey(q)
    ensures var k, v := spec.modelName, JudgeAlone(s, seat, spec, inherit, since, Healthy, now, disk);
      && v.queue == s.queue
      && if k in s.table && s.table[k].pid == seat.pid && s.table[k].status == Starting then
           && v.table == s.table[k := Row(seat.pid, Ready, now, spec, 0, [], s.table[k].userFlagged)]
           && v.store == (if disk && k in s.store then
                            var was := s.store[k];
                            s.store[k := Stored(was.spec, was.desired, was.userFlagged, was.maxRestarts, 0)]
                          else s.store)
         else v.table == s.table && v.store == s.store
  {
    hide RunJudge; hide ValidKey;
    var w := Around(s, map[], map[seat := Polling(spec, inherit, since)], map[], now);
    JudgePasses(w, seat, spec, inherit, since, disk);
  }

  /** A gate that ran out of time: the row is `failed`, with its record if it was a restart, and clean if not. */
  lemma GateExpires(s: Shared, seat: Seat, spec: Spec, inherit: bool, since: int, now: int, disk: bool)
    requires forall q :: q in s.store ==> ValidKey(q)
    ensures var k, v := spec.modelName, JudgeAlone(s, seat, spec, inherit, since, TimedOut, now, disk);
      && v.queue == s.queue && v.store == s.store
      && if k in s.table && s.table[k].pid == seat.pid && s.table[k].status == Starting then
           var was := s.table[k];
           v.table == s.table[k := Row(seat.pid, Failed, now, spec, if inherit then was.restartCount else 0,
                                       if inherit then was.windowStarts else [], was.userFlagged)]
         else v.table == s.table
  {
    hide RunJudge; hide ValidKey;
    var w := Around(s, map[], map[seat := Polling(spec, inherit, since)], map[], now);
    JudgeExpires(w, seat, spec, inherit, since, disk);
  }

  /**
   The reconciler on one row of its snapshot. It looks only at gated rows that have been
   `starting` for 10 s, fails those older than 120 s and than twice their timeout, and of
   the others adopts those that answer; and only a row that is still that process's.
   */
  lemma ReconcilesRow(s: Shared, row: Row, healthy: bool, now: int, disk: bool)
    requires forall q :: q in s.store ==> ValidKey(q)
    ensures var k, age := row.spec.modelName, now - row.startedAt;
      var v := ReconcileRow(s, row, healthy, now, disk);
      var gated := row.spec.healthUrl != "" && row.spec.healthTimeoutMs != 0;
      var judged := row.status == Starting && gated && age >= 10_000;
      var mine := k in s.table && s.table[k].pid == row.pid && s.table[k].status == Starting;
      var expired := age > 120_000 && age > 2 * row.spec.healthTimeoutMs;
      if !judged || !mine || (!expired && !healthy) then v == s
      else if expired then
        v == s.(table := s.table[k := Row(row.pid, Failed, now, row.spec, 0, [], s.table[k].userFlagged)])
      else
        && v.queue == s.queue
        && v.table == s.table[k := Row(row.pid, Ready, now, row.spec, 0, [], s.table[k].userFlagged)]
        && v.store == if disk && k in s.store then
                        var was := s.store[k];
                        s.store[k := Stored(was.spec, was.desired, was.userFlagged, was.maxRestarts, 0)]
                      else s.store
  {
    hide RunJudge; hide ValidKey;
    var seat, spec, since := Seat(Recon, row.pid), row.spec, row.startedAt;
    GatePasses(s, seat, spec, false, since, now, disk);
    GateExpires(s, seat, spec, false, since, now, disk);
    hide JudgeAlone;
    SilentAlone(s, seat, spec, since, now, disk);
  }

  lemma SilentAlone(s: Shared, seat: Seat, spec: Spec, since: int, now: int, disk: bool)
    ensures JudgeAlone(s, seat, spec, false, since, NoAnswer, now, disk) == s
  {
    hide RunJudge;
    var w := Around(s, map[], map[seat := Polling(spec, false, since)], map[], now);
    JudgeHearsNothing(w, seat, spec, false, since, disk);
  }

  /**
   The reaper of a dead process. A row that is another process's is left alone. Without a
   manifest that wants the model back, or with a mark on row or manifest, the row is
   `failed` if it was still open. Otherwise the death is charged; if the deaths of the last
   300 s have reached the cap the row is exhausted and marked, and so is the manifest if the
   disk takes one of three attempts; if not, the row waits and the respawn is queued.
   */
  lemma ReaperLeaves(s: Shared, k: Key, pid: Pid, now: int, disk: seq<bool>)
    requires |disk| == 3 && forall q :: q in s.store ==> ValidKey(q)
    ensures var v := After(RunReaper(Around(s, map[], map[], map[pid := Waiting(k)], now), pid, disk));
      if k !in s.table || s.table[k].pid != pid then v == s
      else
        var was := s.table[k];
        var open := was.status == Starting || was.status == Ready;
        if k !in s.store || !s.store[k].desired || s.store[k].userFlagged || was.userFlagged then
          v == s.(table := if open then s.table[k := was.(status := Failed)] else s.table)
        else
          && k in v.table && v.table == s.table[k := v.table[k]]
          && var row, stored := v.table[k], s.store[k];
          && ChargedOnce(was, row.(status := was.status, userFlagged := was.userFlagged), now)
          && if !open then row.status == was.status && !row.userFlagged && v.store == s.store && v.queue == s.queue
             else if row.restartCount >= stored.maxRestarts then
               && row.status == BudgetExhausted && row.userFlagged && v.queue == s.queue
               && v.store == if disk == [false, false, false] then s.store
                             else s.store[k := Stored(stored.spec, true, true, stored.maxRestarts, stored.maxRestarts)]
             else
               row.status == Restarting && !row.userFlagged && v.store == s.store && v.queue == s.queue + [stored.spec]
  {
    hide RunReaper; hide ValidKey; hide ChargedRow; hide ChargedOnce;
    var w := Around(s, map[], map[], map[pid := Waiting(k)], now);
    if k !in s.table || s.table[k].pid != pid {
      ReaperStandsDown(w, pid, k, disk);
    } else if k !in s.store || !s.store[k].desired || s.store[k].userFlagged || s.table[k].userFlagged {
      ReaperGivesUp(w, pid, k, disk);
    } else {
      ReaperPaysUp(s, k, pid, now, disk);
    }
  }

  lemma ReaperPaysUp(s: Shared, k: Key, pid: Pid, now: int, disk: seq<bool>)
    requires |disk| == 3 && forall q :: q in s.store ==> ValidKey(q)
    requires k in s.table && s.table[k].pid == pid && !s.table[k].userFlagged
    requires k in s.store && s.store[k].desired && !s.store[k].userFlagged
    ensures var v := After(RunReaper(Around(s, map[], map[], map[pid := Waiting(k)], now), pid, disk));
      var was, stored := s.table[k], s.store[k];
      var paid := ChargedRow(was, now);
      var open := was.status == Starting || was.status == Ready;
      && ChargedOnce(was, paid, now) && paid.status == was.status && paid.userFlagged == was.userFlagged
      && if !open then v == s.(table := s.table[k := paid])
         else if paid.restartCount >= stored.maxRestarts then
           && v.queue == s.queue
           && v.table == s.table[k := paid.(status := BudgetExhausted, userFlagged := true)]
           && v.store == if disk == [false, false, false] then s.store
                         else s.store[k := Stored(stored.spec, true, true, stored.maxRestarts, stored.maxRestarts)]
         else v == Shared(s.table[k := paid.(status := Restarting)], s.store, s.queue + [stored.spec])
  {
    hide RunReaper; hide ValidKey; hide ChargedOnce;
    var w := Around(s, map[], map[], map[pid := Waiting(k)], now);
    var was, stored := s.table[k], s.store[k];
    ChargesOnce(was, now);
    PaidShows(was, now);
    hide ChargedRow;
    var paid := ChargedRow(was, now);
    ReaperCharges(w, pid, k, disk);
    var w2 := w.(table := w.table[k := paid], charges := w.charges[k := Log(w.charges, k) + [now]],
                 reapers := map[pid := Marking(k, stored.spec, stored.maxRestarts, paid.restartCount, now)]);
    ReaperMarks(w2, pid, k, stored.spec, stored.maxRestarts, paid.restartCount, now, disk);
    NoneTaken(disk);
  }

  lemma PaidShows(r: Row, now: int)
    ensures ChargedRow(r, now).status == r.status && ChargedRow(r, now).userFlagged == r.userFlagged
    ensures ChargedRow(r, now).pid == r.pid
  {
    hide Since;
  }

  lemma NoneTaken(disk: seq<bool>)
    requires |disk| == 3
    ensures true !in disk <==> disk == [false, false, false]
  {
    if true !in disk {
      assert !disk[0] && !disk[1] && !disk[2];
    } else {
      var i :| 0 <= i < 3 && disk[i];
      assert [false, false, false][i] == false;
    }
  }
}
