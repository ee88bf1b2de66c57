/** The transaction of a whole migration: every table or none, then the identity sequences. */
module MigrateRun {
  import opened Wrappers
  import opened Migrate

  // Parents before their children.
  const TABLES: seq<string> := [
    "app_compaction", "app_general", "app_langfuse", "app_lifecycle", "app_proxy",
    "model_configs", "model_files", "model_pulls", "model_aliases",
    "provider_configs", "provider_registry", "api_keys", "pull_log", "pull_queue", "tamad_registry",
    "benchmarks", "sampling_templates", "tts_configs", "provider_installations", "update_checks",
    "system_metrics_history"]

  predicate Identity(t: string) { t != "tamad_registry" }

  const I64_MAX: int := 9_223_372_036_854_775_807

  // The old database, the new schema and the two functions that stand for the engines.
  datatype Migration = Migration(sources: map<string, Source>, schema: map<string, Schema>, convert: Converter,
                                 judge: Judge)

  predicate Sound(plan: Migration) { forall t :: t in plan.sources ==> Tabular(plan.sources[t]) }

  function Meta(plan: Migration, t: string): Schema { if t in plan.schema then plan.schema[t] else map[] }

  // A table fails if its schema drifted, or in the middle if it cannot be read to its end.
  predicate Breaks(plan: Migration, t: string) {
    t in plan.sources && (Drifted(Meta(plan, t), plan.sources[t]) || plan.sources[t].torn)
  }

  // Tables copied row by row, one after the other; `counts` is what each reports.
  datatype Tally = Tally(db: Db, skipped: seq<Skip>, counts: seq<int>)

  function CopyNext(before: Tally, plan: Migration, t: string): Tally
    requires Sound(plan)
  {
    if t !in plan.sources then before.(counts := before.counts + [0])
    else if Drifted(Meta(plan, t), plan.sources[t]) then before
    else
      var rs := Readings(t, plan.sources[t], Meta(plan, t), plan.convert);
      if plan.sources[t].torn then
        var torn := TornCopy(before.db, t, rs, plan.judge);
        before.(db := torn.db, skipped := before.skipped + torn.skipped)
      else
        var copy := RowByRow(before.db, t, rs, plan.judge);
        Tally(copy.db, before.skipped + copy.skipped,
              before.counts + [Reported(before.db, t, GoodRows(rs), plan.judge)])
  }

  function CopiedTo(db: Db, plan: Migration, tables: seq<string>): Tally
    requires Sound(plan)
  {
    if tables == [] then Tally(db, [], [])
    else CopyNext(CopiedTo(db, plan, tables[..|tables| - 1]), plan, tables[|tables| - 1])
  }

  // COALESCE(MAX(id), 0): the largest integer id, or 0 if there is none.
  function MaxId(rows: seq<Row>): Option<int> {
    if rows == [] then None
    else
      var before, id := MaxId(rows[..|rows| - 1]), rows[|rows| - 1].id;
      if id.I64? && id.i.Some? && (before.None? || before.value < id.i.value) then id.i else before
  }

  function NextId(rows: seq<Row>): int { (if MaxId(rows).Some? then MaxId(rows).value else 0) + 1 }

  predicate HasId(rows: seq<Row>, n: int) { exists r :: r in rows && r.id == I64(Some(n)) }

  lemma {:induction false} MaxIdIsLargest(rows: seq<Row>, n: int)
    requires HasId(rows, n)
    ensures MaxId(rows).Some? && n <= MaxId(rows).value
  {
    var init, last := rows[..|rows| - 1], rows[|rows| - 1];
    if HasId(init, n) {
      MaxIdIsLargest(init, n);
    } else {
      var r :| r in rows && r.id == I64(Some(n));
      assert r == last;
    }
  }

  // A sequence takes no value below 1 or above its type.
  predicate Settable(db: Db, t: string) { Identity(t) ==> 1 <= NextId(RowsOf(db, t)) <= I64_MAX }

  predicate AnyBreaks(plan: Migration, tables: seq<string>) { exists t :: t in tables && Breaks(plan, t) }

  predicate AllSettable(db: Db, tables: seq<string>) { forall t :: t in tables ==> Settable(db, t) }

  // Every identity sequence of these tables is past every id there is.
  predicate Ahead(db: Db, next: map<string, int>, tables: seq<string>) {
    forall t :: t in tables && Identity(t) ==> t in next && next[t] == NextId(RowsOf(db, t))
  }

  lemma OneMoreTable(plan: Migration, tables: seq<string>, t: string)
    requires Sound(plan)
    ensures AnyBreaks(plan, tables + [t]) <==> AnyBreaks(plan, tables) || Breaks(plan, t)
    ensures forall db: Db :: CopiedTo(db, plan, tables + [t]) == CopyNext(CopiedTo(db, plan, tables), plan, t)
  {
    hide Breaks; hide CopyNext;
    assert (tables + [t])[..|tables|] == tables;
    assert t in tables + [t];
    assert forall u :: u in tables ==> u in tables + [t];
  }

  method CopyTables(tx: Transaction, plan: Migration) returns (failed: bool, inserted: seq<nat>, skipped: seq<Skip>)
    requires Sound(plan) && !tx.poisoned
    modifies tx
    ensures !tx.poisoned && (failed <==> AnyBreaks(plan, TABLES))
    ensures var all := CopiedTo(old(tx.db), plan, TABLES);
      tx.db == all.db && multiset(skipped) == multiset(all.skipped) && inserted == all.counts
  {
    hide AnyBreaks; hide Drifted; hide RowByRow; hide Readings; hide GoodRows; hide Reported; hide TornCopy;
    failed, inserted, skipped := false, [], [];
    NoTables(old(tx.db), plan);
    assert TABLES[..0] == [];
    for i := 0 to |TABLES|
      invariant !tx.poisoned && (failed <==> AnyBreaks(plan, TABLES[..i]))
      invariant var all := CopiedTo(old(tx.db), plan, TABLES[..i]);
        tx.db == all.db && multiset(skipped) == multiset(all.skipped) && inserted == all.counts
    {
      var t := TABLES[i];
      OneMoreTable(plan, TABLES[..i], t);
      assert TABLES[..i + 1] == TABLES[..i] + [t];
      hide CopiedTo;
      if t !in plan.sources {
        inserted := inserted + [0];
      } else {
        var ok, n;
        ok, n, skipped := CopyTable(tx, t, plan.sources[t], Meta(plan, t), plan.convert, plan.judge, skipped);
        if ok {
          inserted := inserted + [n];
        } else {
          failed := true;
        }
      }
    }
    assert TABLES[..|TABLES|] == TABLES;
  }

  lemma NoTables(db: Db, plan: Migration)
    requires Sound(plan)
    ensures !AnyBreaks(plan, []) && CopiedTo(db, plan, []) == Tally(db, [], [])
  {
  }

  method AdvanceSequences(tables: seq<string>, db: Db, next: map<string, int>)
      returns (ok: bool, values: map<string, int>)
    ensures ok <==> AllSettable(db, tables)
    ensures ok ==> Ahead(db, values, tables)
  {
    hide NextId;
    ok, values := true, next;
    for i := 0 to |tables|
      invariant ok && AllSettable(db, tables[..i]) && Ahead(db, values, tables[..i])
    {
      var t := tables[i];
      assert tables[..i + 1] == tables[..i] + [t];
      if t != "tamad_registry" {
        if !(1 <= NextId(RowsOf(db, t)) <= I64_MAX) {
          assert t in tables && !Settable(db, t);
          return false, values;
        }
        values := values[t := NextId(RowsOf(db, t))];
      }
    }
    assert tables[..|tables|] == tables;
  }

  class Target {
    var db: Db
    // The value each identity sequence hands out next.
    var next: map<string, int>

    constructor (db: Db, next: map<string, int>)
      ensures this.db == db && this.next == next
    {
      this.db, this.next := db, next;
    }

    /**
     All or nothing. It commits exactly if no table breaks, every sequence can be set and
     the server takes the commit; otherwise the target is as it was. What it commits are
     the row-by-row copies. The report is written before the last two are known: it
     claims a commit exactly if no table broke.
     */
    method Migrate(plan: Migration, commits: bool)
        returns (committed: bool, claimed: bool, inserted: seq<nat>, skipped: seq<Skip>)
      requires Sound(plan)
      modifies this
      ensures var all := CopiedTo(old(db), plan, TABLES);
        && (claimed <==> !AnyBreaks(plan, TABLES))
        && (committed <==> claimed && AllSettable(all.db, TABLES) && commits)
        && (committed ==> db == all.db && Ahead(db, next, TABLES))
        && (!committed ==> db == old(db) && next == old(next))
        && inserted == (if claimed then all.counts else []) && multiset(skipped) == multiset(all.skipped)
    {
      hide AnyBreaks; hide AllSettable; hide Ahead; hide CopiedTo;
      var tx := new Transaction(db);
      var failed;
      failed, inserted, skipped := CopyTables(tx, plan);
      if failed {
        return false, false, [], skipped;
      }
      claimed := true;
      var ok, values := AdvanceSequences(TABLES, tx.db, next);
      committed := ok && commits;
      if committed {
        db, next := tx.db, values;
      }
    }
  }

  /** The next id is one past the largest integer id, or 1 if there is none. */
  lemma {:induction false} NextIdExactly(rows: seq<Row>)
    ensures (forall r :: r in rows && r.id.I64? && r.id.i.Some? ==> r.id.i.value < NextId(rows))
    ensures if exists r :: r in rows && r.id.I64? && r.id.i.Some? then HasId(rows, NextId(rows) - 1)
            else NextId(rows) == 1
  {
    forall r | r in rows && r.id.I64? && r.id.i.Some? ensures r.id.i.value < NextId(rows) {
      MaxIdIsLargest(rows, r.id.i.value);
    }
    MaxIdIsThere(rows);
    if r :| r in rows && r.id.I64? && r.id.i.Some? {
      MaxIdIsLargest(rows, r.id.i.value);
    }
  }

  lemma {:induction false} MaxIdIsThere(rows: seq<Row>)
    ensures MaxId(rows).Some? ==> HasId(rows, MaxId(rows).value)
  {
    if rows != [] {
      var init, last := rows[..|rows| - 1], rows[|rows| - 1];
      MaxIdIsThere(init);
      assert last in rows && forall r :: r in init ==> r in rows;
    }
  }

  /**
   When the sequences can be set, exactly: of every table but `tamad_registry`, which has
   none, the next id must be one a 64-bit sequence can take.
   */
  lemma SettableExactly(db: Db)
    ensures AllSettable(db, TABLES) <==>
      forall t :: t in TABLES && t != "tamad_registry" ==> 1 <= NextId(RowsOf(db, t)) <= 9_223_372_036_854_775_807
  {
    hide TABLES; hide NextId;
  }

  /** After a commit no identity sequence hands out an id that exists. */
  lemma NextIdIsFresh(db: Db, next: map<string, int>, t: string, n: int)
    requires Ahead(db, next, TABLES) && t in TABLES && t != "tamad_registry" && HasId(RowsOf(db, t), n)
    ensures t in next && n < next[t]
  {
    MaxIdIsLargest(RowsOf(db, t), n);
  }
}
