/**
 The in-memory process table: one row per model, rewritten in place.

 The row functions say what each table method does to one row; the class does it
 to the shared map, one method per lock.
 */
module ProcessTables {
  import opened Wrappers

  type Key = string
  type Pid = nat

  datatype Status = Starting | Ready | Restarting | Failed | BudgetExhausted | Unloading

  // The launch request. `launch` stands for the wire fields that no lifecycle
  // decision looks at.
  datatype Spec = Spec(
    modelName: Key, providerName: string, healthUrl: string, healthTimeoutMs: int,
    dockerConfig: string, launch: string)
  {
    predicate Gated() { healthUrl != "" && healthTimeoutMs != 0 }
    predicate Native() { dockerConfig == "" }
  }

  datatype Row = Row(
    pid: Pid, status: Status, startedAt: int, spec: Spec,
    restartCount: nat, windowStarts: seq<int>, userFlagged: bool)

  // The sliding restart window, in milliseconds.
  const RESTART_WINDOW_MS: int := 300_000

  predicate CanMoveDownstream(s: Status) { s.Starting? || s.Ready? }

  // What the restart window keeps of a list of stamps.
  function Since(stamps: seq<int>, cutoff: int): seq<int> {
    if stamps == [] then []
    else
      var last := stamps[|stamps| - 1];
      Since(stamps[..|stamps| - 1], cutoff) + if last >= cutoff then [last] else []
  }

  function ChargedRow(r: Row, now: int): Row {
    var kept := Since(r.windowStarts + [now], now - RESTART_WINDOW_MS);
    r.(windowStarts := kept, restartCount := |kept|)
  }

  // What one death does to a row: every stamp of the last 300 s stays as often as it was
  // there, the new one is last, no other stamp stays, and the count is their number.
  ghost predicate ChargedOnce(was: Row, row: Row, now: int) {
    && row == was.(windowStarts := row.windowStarts, restartCount := |row.windowStarts|)
    && row.windowStarts != [] && row.windowStarts[|row.windowStarts| - 1] == now
    && (forall t :: multiset(row.windowStarts)[t] ==
                    if t >= now - 300_000 then multiset(was.windowStarts + [now])[t] else 0)
  }

  lemma {:induction false} SinceCounts(stamps: seq<int>, cutoff: int, t: int)
    ensures multiset(Since(stamps, cutoff))[t] == if t >= cutoff then multiset(stamps)[t] else 0
  {
    if stamps != [] {
      var init, last := stamps[..|stamps| - 1], stamps[|stamps| - 1];
      SinceCounts(init, cutoff, t);
      assert stamps == init + [last];
    }
  }

  lemma ChargesOnce(r: Row, now: int)
    ensures ChargedOnce(r, ChargedRow(r, now), now)
  {
    var all := r.windowStarts + [now];
    assert all[..|all| - 1] == r.windowStarts;
    forall t
      ensures multiset(ChargedRow(r, now).windowStarts)[t] == if t >= now - 300_000 then multiset(all)[t] else 0
    {
      SinceCounts(all, now - RESTART_WINDOW_MS, t);
    }
  }

  predicate Ours(table: map<Key, Row>, k: Key, pid: Pid) {
    k in table && table[k].pid == pid && CanMoveDownstream(table[k].status)
  }

  function MarkedFailed(table: map<Key, Row>, k: Key, pid: Pid): map<Key, Row> {
    if Ours(table, k, pid) then table[k := table[k].(status := Failed)] else table
  }

  function Charged(table: map<Key, Row>, k: Key, now: int): map<Key, Row> {
    if k in table then table[k := ChargedRow(table[k], now)] else table
  }

  function MarkedRestarting(table: map<Key, Row>, k: Key, pid: Pid): map<Key, Row> {
    if Ours(table, k, pid) then table[k := table[k].(status := Restarting)] else table
  }

  function MarkedExhausted(table: map<Key, Row>, k: Key, pid: Pid): map<Key, Row> {
    if Ours(table, k, pid) then table[k := table[k].(status := BudgetExhausted, userFlagged := true)]
    else table
  }

  class ProcessTable {
    var inner: map<Key, Row>

    constructor ()
      ensures inner == map[]
    {
      inner := map[];
    }

    // Every row carries the model name it is stored under.
    method Insert(row: Row)
      modifies this
      ensures inner == old(inner)[row.spec.modelName := row]
    {
      inner := inner[row.spec.modelName := row];
    }

    method Remove(k: Key) returns (row: Option<Row>)
      modifies this
      ensures row == Get(old(inner), k)
      ensures inner == old(inner) - {k}
    {
      row := Get(inner, k);
      inner := inner - {k};
    }

    method MarkFailed(k: Key, pid: Pid)
      modifies this
      ensures inner == MarkedFailed(old(inner), k, pid)
      ensures inner == if k in old(inner) && old(inner)[k].pid == pid
                          && (old(inner)[k].status.Starting? || old(inner)[k].status.Ready?)
                       then old(inner)[k := old(inner)[k].(status := Failed)] else old(inner)
    {
      if k in inner {
        var row := inner[k];
        if row.pid == pid && CanMoveDownstream(row.status) {
          inner := inner[k := row.(status := Failed)];
        }
      }
    }

    /** Charge one death to the row and forget the stamps that left the window. */
    method RecordRestartWindow(k: Key, now: int) returns (count: Option<nat>)
      modifies this
      ensures inner == Charged(old(inner), k, now)
      ensures count == if k in old(inner) then Some(inner[k].restartCount) else None
      ensures inner.Keys == old(inner).Keys && forall q :: q in inner && q != k ==> inner[q] == old(inner)[q]
      ensures k in old(inner) ==> ChargedOnce(old(inner)[k], inner[k], now)
    {
      if k !in inner {
        return None;
      }
      var cutoff := now - RESTART_WINDOW_MS;
      var row := inner[k];
      var stamps := row.windowStarts + [now];
      var kept := [];
      var i := 0;
      while i < |stamps|
        invariant 0 <= i <= |stamps|
        invariant kept == Since(stamps[..i], cutoff)
      {
        assert stamps[..i + 1][..i] == stamps[..i];
        if stamps[i] >= cutoff {
          kept := kept + [stamps[i]];
        }
        i := i + 1;
      }
      assert stamps[..i] == stamps;
      row := row.(windowStarts := kept, restartCount := |kept|);
      ChargesOnce(inner[k], now);
      inner := inner[k := row];
      count := Some(|kept|);
    }

    method MarkRestarting(k: Key, pid: Pid) returns (moved: bool)
      modifies this
      ensures moved == Ours(old(inner), k, pid)
      ensures inner == MarkedRestarting(old(inner), k, pid)
      ensures moved == (k in old(inner) && old(inner)[k].pid == pid
                        && (old(inner)[k].status.Starting? || old(inner)[k].status.Ready?))
      ensures inner == if moved then old(inner)[k := old(inner)[k].(status := Restarting)] else old(inner)
    {
      moved := false;
      if k in inner {
        var row := inner[k];
        if row.pid == pid && CanMoveDownstream(row.status) {
          inner := inner[k := row.(status := Restarting)];
          moved := true;
        }
      }
    }

    method MarkBudgetExhausted(k: Key, pid: Pid) returns (moved: bool)
      modifies this
      ensures moved == Ours(old(inner), k, pid)
      ensures inner == MarkedExhausted(old(inner), k, pid)
      ensures moved == (k in old(inner) && old(inner)[k].pid == pid
                        && (old(inner)[k].status.Starting? || old(inner)[k].status.Ready?))
      ensures inner == if moved then old(inner)[k := old(inner)[k].(status := BudgetExhausted, userFlagged := true)]
                       else old(inner)
    {
      moved := false;
      if k in inner {
        var row := inner[k];
        if row.pid == pid && CanMoveDownstream(row.status) {
          inner := inner[k := row.(status := BudgetExhausted, userFlagged := true)];
          moved := true;
        }
      }
    }
  }
}
