/** What the counts of a migrated table add up to. */
module MigrateAccounts {
  import opened Wrappers
  import opened Migrate
  import opened MigrateRun

  // Conflicting rows in batches that went through, and in batches that were retried row by row.
  function Silent(db: Db, t: string, rows: seq<Row>, judge: Judge): nat
    decreases |rows|
  {
    var n := if |rows| <= BATCH_SIZE then |rows| else BATCH_SIZE;
    var here := if Failures(db, t, rows[..n], judge) == [] then Conflicting(db, t, rows[..n], judge) else 0;
    if |rows| <= BATCH_SIZE then here
    else here + Silent(PutAll(db, t, rows[..n], judge), t, rows[n..], judge)
  }

  function Overcounted(db: Db, t: string, rows: seq<Row>, judge: Judge): nat
    decreases |rows|
  {
    var n := if |rows| <= BATCH_SIZE then |rows| else BATCH_SIZE;
    var here := if Failures(db, t, rows[..n], judge) == [] then 0 else Conflicting(db, t, rows[..n], judge);
    if |rows| <= BATCH_SIZE then here
    else here + Overcounted(PutAll(db, t, rows[..n], judge), t, rows[n..], judge)
  }

  /**
   The count a table reports is the rows it inserted, plus the rows that were already
   there in batches that had to be retried; the rows neither reported nor skipped are
   those that were already there in batches that went through.
   */
  lemma {:induction false} ReportedExactly(db: Db, t: string, rows: seq<Row>, judge: Judge)
    ensures Reported(db, t, rows, judge) == Inserted(db, t, rows, judge) + Overcounted(db, t, rows, judge)
    ensures |rows| == Reported(db, t, rows, judge) + |Failures(db, t, rows, judge)| + Silent(db, t, rows, judge)
    decreases |rows|
  {
    if |rows| <= BATCH_SIZE {
      EveryRowCounts(db, t, rows, judge);
      assert rows[..|rows|] == rows;
    } else {
      var a, b := rows[..BATCH_SIZE], rows[BATCH_SIZE..];
      EveryRowCounts(db, t, a, judge);
      InTwoParts(db, t, a, b, judge);
      assert rows == a + b;
      ReportedExactly(PutAll(db, t, a, judge), t, b, judge);
      hide PutAll; hide Inserted; hide Failures; hide Conflicting;
    }
  }

  /**
   The count by batches of 500: a batch without a failure reports the rows it inserted, one with
   failures all its rows but those; and what comes after 500 rows is the next batch.
   */
  lemma ReportedByBatches(db: Db, t: string, rows: seq<Row>, judge: Judge)
    ensures |rows| <= 500 ==>
      Reported(db, t, rows, judge) ==
        if Failures(db, t, rows, judge) == [] then Inserted(db, t, rows, judge)
        else |rows| - |Failures(db, t, rows, judge)|
    ensures |rows| > 500 ==>
      Reported(db, t, rows, judge) ==
        Reported(db, t, rows[..500], judge) + Reported(PutAll(db, t, rows[..500], judge), t, rows[500..], judge)
  {
    hide Failures; hide Inserted; hide PutAll;
  }

  lemma {:induction false} ConflictsBound(db: Db, t: string, rows: seq<Row>, judge: Judge)
    ensures Silent(db, t, rows, judge) + Overcounted(db, t, rows, judge) == Conflicting(db, t, rows, judge)
    decreases |rows|
  {
    if |rows| <= BATCH_SIZE {
      assert rows[..|rows|] == rows;
    } else {
      var a, b := rows[..BATCH_SIZE], rows[BATCH_SIZE..];
      InTwoParts(db, t, a, b, judge);
      assert rows == a + b;
      ConflictsBound(PutAll(db, t, a, judge), t, b, judge);
      hide PutAll; hide Failures; hide Conflicting;
    }
  }

  predicate Taken(db: Db, t: string, id: Val) { exists r :: r in RowsOf(db, t) && r.id == id }

  // The engine reports a conflict only for an id that is taken.
  ghost predicate Honest(judge: Judge) {
    forall db: Db, t: string, row: Row :: judge(db, t, row).Conflicts? ==> Taken(db, t, row.id)
  }

  predicate Distinct(rows: seq<Row>) { forall i, j :: 0 <= i < j < |rows| ==> rows[i].id != rows[j].id }

  predicate NoneTaken(db: Db, t: string, rows: seq<Row>) { forall row :: row in rows ==> !Taken(db, t, row.id) }

  lemma {:induction false} OnlyTheseAreTaken(db: Db, t: string, rows: seq<Row>, judge: Judge, id: Val)
    requires Taken(PutAll(db, t, rows, judge), t, id)
    ensures Taken(db, t, id) || exists row :: row in rows && row.id == id
  {
    if rows != [] {
      var init, last := rows[..|rows| - 1], rows[|rows| - 1];
      var mid := PutAll(db, t, init, judge);
      assert last in rows && forall r :: r in init ==> r in rows;
      if Taken(mid, t, id) {
        OnlyTheseAreTaken(db, t, init, judge, id);
      } else {
        var r :| r in RowsOf(Put(mid, t, last, judge), t) && r.id == id;
        assert r == last;
      }
    }
  }

  lemma {:induction false} FreshRowsNeverConflict(db: Db, t: string, rows: seq<Row>, judge: Judge)
    requires Honest(judge) && Distinct(rows) && NoneTaken(db, t, rows)
    ensures Conflicting(db, t, rows, judge) == 0
  {
    if rows != [] {
      var init, last := rows[..|rows| - 1], rows[|rows| - 1];
      assert last in rows && forall r :: r in init ==> r in rows;
      FreshRowsNeverConflict(db, t, init, judge);
      var mid := PutAll(db, t, init, judge);
      assert forall i :: 0 <= i < |init| ==> init[i] == rows[i] && rows[i].id != rows[|rows| - 1].id;
      if Taken(mid, t, last.id) {
        OnlyTheseAreTaken(db, t, init, judge, last.id);
        assert false;
      }
      assert !judge(mid, t, last).Conflicts?;
    }
  }

  /**
   On a target table that has none of the source's ids, with distinct ids, every row
   read is accounted for: it was inserted and counted, or it is in the skip report.
   */
  lemma ReadIsInsertedPlusSkipped(db: Db, t: string, s: Source, meta: Schema, convert: Converter, judge: Judge)
    requires Tabular(s) && !Drifted(meta, s) && Honest(judge)
    requires var rows := GoodRows(Readings(t, s, meta, convert)); Distinct(rows) && NoneTaken(db, t, rows)
    ensures var rs := Readings(t, s, meta, convert);
      && |s.rows| == Reported(db, t, GoodRows(rs), judge) + |RowByRow(db, t, rs, judge).skipped|
      && Reported(db, t, GoodRows(rs), judge) == Inserted(db, t, GoodRows(rs), judge)
  {
    var rs := Readings(t, s, meta, convert);
    var rows := GoodRows(rs);
    FreshRowsNeverConflict(db, t, rows, judge);
    ConflictsBound(db, t, rows, judge);
    ReportedExactly(db, t, rows, judge);
    RowByRowSplits(db, t, rs, judge);
    var skips := RowByRow(db, t, rs, judge).skipped;
    assert |multiset(skips)| == |skips|;
    assert |multiset(BadSkips(rs) + Failures(db, t, rows, judge))| == |BadSkips(rs) + Failures(db, t, rows, judge)|;
    hide *;
  }

  // ----- every table of a run -----------------------------------------------

  function SkipsOf(skips: seq<Skip>, t: string): seq<Skip> {
    if skips == [] then []
    else
      var last := skips[|skips| - 1];
      SkipsOf(skips[..|skips| - 1], t) + if last.table == t then [last] else []
  }

  lemma {:induction false} SkipsOfConcat(a: seq<Skip>, b: seq<Skip>, t: string)
    ensures SkipsOf(a + b, t) == SkipsOf(a, t) + SkipsOf(b, t)
  {
    if b == [] {
      assert a + b == a;
    } else {
      assert (a + b)[..|a + b| - 1] == a + b[..|b| - 1];
      SkipsOfConcat(a, b[..|b| - 1], t);
    }
  }

  lemma OneIsLocal(c: Copy, t: string, r: Reading, judge: Judge, u: string)
    requires r.Bad? ==> r.skip.table == t
    ensures var d := CopyOne(c, t, r, judge);
      && (u != t ==> RowsOf(d.db, u) == RowsOf(c.db, u) && SkipsOf(d.skipped, u) == SkipsOf(c.skipped, u))
      && (SkipsOf(c.skipped, t) == c.skipped ==> SkipsOf(d.skipped, t) == d.skipped)
  {
    var d := CopyOne(c, t, r, judge);
    if d.skipped != c.skipped { assert d.skipped[..|c.skipped|] == c.skipped; }
  }

  // Copying a table touches no other and names no other in the report.
  lemma {:induction false} CopyIsLocal(db: Db, t: string, rs: seq<Reading>, judge: Judge, u: string)
    requires forall r :: r in rs && r.Bad? ==> r.skip.table == t
    ensures var c := RowByRow(db, t, rs, judge);
      && (u != t ==> RowsOf(c.db, u) == RowsOf(db, u) && SkipsOf(c.skipped, u) == [])
      && SkipsOf(c.skipped, t) == c.skipped
  {
    hide CopyOne; hide RowsOf;
    if rs != [] {
      var init, last := rs[..|rs| - 1], rs[|rs| - 1];
      CopyIsLocal(db, t, init, judge, u);
      assert last in rs;
      hide SkipsOf; hide RowByRow;
      OneIsLocal(RowByRow(db, t, init, judge), t, last, judge, u);
      RowByRowStep(db, t, rs, judge);
    }
  }

  lemma RowByRowStep(db: Db, t: string, rs: seq<Reading>, judge: Judge)
    requires rs != []
    ensures RowByRow(db, t, rs, judge) == CopyOne(RowByRow(db, t, rs[..|rs| - 1], judge), t, rs[|rs| - 1], judge)
  {
  }

  lemma {:induction false} TableGrows(db: Db, t: string, rows: seq<Row>, judge: Judge)
    ensures |RowsOf(PutAll(db, t, rows, judge), t)| == |RowsOf(db, t)| + Inserted(db, t, rows, judge)
  {
    if rows != [] { TableGrows(db, t, rows[..|rows| - 1], judge); }
  }

  lemma ReadingsNameTheirTable(t: string, s: Source, meta: Schema, convert: Converter)
    requires Tabular(s) && !Drifted(meta, s)
    ensures forall r :: r in Readings(t, s, meta, convert) && r.Bad? ==> r.skip.table == t
  {
    hide ConvertedVals; hide Position; hide Drifted;
  }

  // The good rows of a table in the old database.
  function RowsRead(plan: Migration, t: string): seq<Row>
    requires Sound(plan) && t in plan.sources && !Breaks(plan, t)
  {
    GoodRows(Readings(t, plan.sources[t], Meta(plan, t), plan.convert))
  }

  // What the copy of one table does to the books of table `u`.
  lemma NextTable(before: Tally, plan: Migration, t: string, u: string)
    requires Sound(plan) && !Breaks(plan, t)
    ensures var after := CopyNext(before, plan, t);
      && before.counts <= after.counts && |after.counts| == |before.counts| + 1
      && (u != t || t !in plan.sources ==> RowsOf(after.db, u) == RowsOf(before.db, u)
                                           && SkipsOf(after.skipped, u) == SkipsOf(before.skipped, u))
      && (t !in plan.sources ==> after.counts[|before.counts|] == 0)
  {
    hide RowByRow; hide Readings; hide GoodRows; hide Reported; hide Drifted; hide SkipsOf;
    if t in plan.sources {
      var rs := Readings(t, plan.sources[t], Meta(plan, t), plan.convert);
      ReadingsNameTheirTable(t, plan.sources[t], Meta(plan, t), plan.convert);
      CopyIsLocal(before.db, t, rs, plan.judge, u);
      SkipsOfConcat(before.skipped, RowByRow(before.db, t, rs, plan.judge).skipped, u);
    }
  }

  lemma OwnTable(before: Tally, plan: Migration, t: string)
    requires Sound(plan) && t in plan.sources && !Breaks(plan, t)
    ensures var after, rows := CopyNext(before, plan, t), RowsRead(plan, t);
      && |after.counts| == |before.counts| + 1
      && |RowsOf(after.db, t)| + Overcounted(before.db, t, rows, plan.judge)
         == |RowsOf(before.db, t)| + after.counts[|before.counts|]
      && |plan.sources[t].rows| + |SkipsOf(before.skipped, t)|
         == after.counts[|before.counts|] + |SkipsOf(after.skipped, t)| + Silent(before.db, t, rows, plan.judge)
  {
    hide RowByRow; hide Readings; hide GoodRows; hide Reported; hide Drifted; hide SkipsOf; hide PutAll; hide Failures;
    hide Inserted; hide Silent; hide Overcounted; hide BadSkips;
    var rs := Readings(t, plan.sources[t], Meta(plan, t), plan.convert);
    var rows, skips := GoodRows(rs), RowByRow(before.db, t, rs, plan.judge).skipped;
    ReadingsNameTheirTable(t, plan.sources[t], Meta(plan, t), plan.convert);
    CopyIsLocal(before.db, t, rs, plan.judge, t);
    SkipsOfConcat(before.skipped, skips, t);
    ReportedExactly(before.db, t, rows, plan.judge);
    TableGrows(before.db, t, rows, plan.judge);
    RowByRowSplits(before.db, t, rs, plan.judge);
    assert |multiset(skips)| == |skips|;
    var failed := Failures(before.db, t, rows, plan.judge);
    assert |multiset(BadSkips(rs) + failed)| == |BadSkips(rs)| + |failed|;
  }

  predicate NoRepeats(tables: seq<string>) { forall i, j :: 0 <= i < j < |tables| ==> tables[i] != tables[j] }

  // A table whose turn has not come is as it was, and no skip names it.
  lemma {:induction false} NotYetCopied(db: Db, plan: Migration, tables: seq<string>, u: string)
    requires Sound(plan) && !AnyBreaks(plan, tables)
    ensures var all := CopiedTo(db, plan, tables);
      && |all.counts| == |tables|
      && (u !in tables ==> RowsOf(all.db, u) == RowsOf(db, u) && SkipsOf(all.skipped, u) == [])
  {
    hide CopyNext; hide Breaks;
    if tables != [] {
      var init, t := tables[..|tables| - 1], tables[|tables| - 1];
      assert t in tables && forall x :: x in init ==> x in tables;
      NotYetCopied(db, plan, init, u);
      NextTable(CopiedTo(db, plan, init), plan, t, u);
    }
  }

  // The database as the copy of table `i` finds it.
  function Found(db: Db, plan: Migration, tables: seq<string>, i: nat): Db
    requires Sound(plan) && i < |tables|
  {
    CopiedTo(db, plan, tables[..i]).db
  }

  // What one count says: the rows the table gained and the conflicts in its retried batches.
  ghost predicate Accounted(db: Db, plan: Migration, t: string, here: Db, count: int, all: Tally)
    requires Sound(plan) && !Breaks(plan, t)
  {
    if t in plan.sources then
      && |RowsOf(all.db, t)| + Overcounted(here, t, RowsRead(plan, t), plan.judge) == |RowsOf(db, t)| + count
      && |plan.sources[t].rows| == count + |SkipsOf(all.skipped, t)| + Silent(here, t, RowsRead(plan, t), plan.judge)
    else count == 0 && RowsOf(all.db, t) == RowsOf(db, t) && SkipsOf(all.skipped, t) == []
  }

  /**
   The books of a whole run, table by table: its count is the rows the table gained plus
   the conflicts in its retried batches; the rows read from it are its count, the skips
   that name it, and the conflicts in its batches that went through.
   */
  lemma {:induction false} EveryTableIsAccounted(db: Db, plan: Migration, tables: seq<string>, i: nat)
    requires Sound(plan) && NoRepeats(tables) && !AnyBreaks(plan, tables) && i < |tables|
    ensures !Breaks(plan, tables[i]) && |CopiedTo(db, plan, tables).counts| == |tables|
    ensures var all := CopiedTo(db, plan, tables);
      && Accounted(db, plan, tables[i], Found(db, plan, tables, i), all.counts[i], all)
      && RowsOf(Found(db, plan, tables, i), tables[i]) == RowsOf(db, tables[i])
  {
    hide CopyNext; hide Breaks; hide RowsRead; hide Silent; hide Overcounted; hide SkipsOf; hide RowsOf; hide Accounted;
    var init, last := tables[..|tables| - 1], tables[|tables| - 1];
    assert last in tables && tables[i] in tables && forall x :: x in init ==> x in tables;
    NotYetCopied(db, plan, tables, "");
    if i == |tables| - 1 {
      assert init == tables[..i];
      LastIsAccounted(db, plan, init, last);
    } else {
      assert init[i] == tables[i] && init[..i] == tables[..i];
      EveryTableIsAccounted(db, plan, init, i);
      EarlierStays(db, plan, CopiedTo(db, plan, init), last, tables[i], Found(db, plan, tables, i), i);
    }
  }

  lemma LastIsAccounted(db: Db, plan: Migration, init: seq<string>, t: string)
    requires Sound(plan) && !AnyBreaks(plan, init) && !Breaks(plan, t) && t !in init
    ensures var before := CopiedTo(db, plan, init);
      var all := CopyNext(before, plan, t);
      && |all.counts| == |init| + 1 && RowsOf(before.db, t) == RowsOf(db, t)
      && Accounted(db, plan, t, before.db, all.counts[|init|], all)
  {
    hide CopyNext; hide Breaks; hide RowsRead; hide Silent; hide Overcounted; hide SkipsOf; hide CopiedTo;
    hide AnyBreaks;
    var before := CopiedTo(db, plan, init);
    NotYetCopied(db, plan, init, t);
    NextTable(before, plan, t, t);
    if t in plan.sources { OwnTable(before, plan, t); }
  }

  lemma EarlierStays(db: Db, plan: Migration, before: Tally, t: string, u: string, here: Db, i: nat)
    requires Sound(plan) && !Breaks(plan, t) && !Breaks(plan, u) && u != t && i < |before.counts|
    requires Accounted(db, plan, u, here, before.counts[i], before)
    ensures var all := CopyNext(before, plan, t);
      |all.counts| == |before.counts| + 1 && Accounted(db, plan, u, here, all.counts[i], all)
  {
    hide CopyNext; hide Breaks; hide RowsRead; hide Silent; hide Overcounted; hide SkipsOf; hide RowsOf;
    NextTable(before, plan, t, u);
    assert CopyNext(before, plan, t).counts[i] == before.counts[i];
  }

  // The length and the eighth letter tell the tables apart.
  function Key(t: string): int
    requires |t| > 7
  {
    1_000 * |t| + t[7] as int
  }

  const KEYS: seq<int> := [14_112, 11_101, 12_103, 13_101, 9_120, 13_111, 11_105, 11_117, 13_108, 16_114, 17_114,
                           8_115, 8_103, 10_101, 14_101, 10_114, 18_103, 11_102, 22_114, 13_099, 22_109]

  lemma KeysOfTables()
    ensures |KEYS| == |TABLES| && forall i :: 0 <= i < |TABLES| ==> |TABLES[i]| > 7 && Key(TABLES[i]) == KEYS[i]
  {
  }

  lemma KeysDiffer()
    ensures forall i, j :: 0 <= i < j < |KEYS| ==> KEYS[i] != KEYS[j]
  {
  }

  lemma NoTableTwice()
    ensures NoRepeats(TABLES)
  {
    hide KEYS; hide TABLES; hide Key;
    KeysOfTables();
    KeysDiffer();
  }

  /**
   A run that breaks no table, on tables that have none of the source's ids: every row of
   every table was inserted and counted, or the report names it. Nothing is lost in silence.
   */
  lemma EveryRowOfARun(db: Db, plan: Migration, i: nat)
    requires Sound(plan) && !AnyBreaks(plan, TABLES) && Honest(plan.judge)
    requires i < |TABLES| && TABLES[i] in plan.sources && !Breaks(plan, TABLES[i])
    requires Distinct(RowsRead(plan, TABLES[i])) && NoneTaken(db, TABLES[i], RowsRead(plan, TABLES[i]))
    ensures var t, all := TABLES[i], CopiedTo(db, plan, TABLES);
      && |all.counts| == |TABLES|
      && |RowsOf(all.db, t)| == |RowsOf(db, t)| + all.counts[i]
      && |plan.sources[t].rows| == all.counts[i] + |SkipsOf(all.skipped, t)|
  {
    hide CopiedTo; hide RowsRead; hide Silent; hide Overcounted; hide SkipsOf; hide Breaks; hide NoRepeats; hide Honest;
    var t := TABLES[i];
    var here := Found(db, plan, TABLES, i);
    NoTableTwice();
    EveryTableIsAccounted(db, plan, TABLES, i);
    FreshRowsNeverConflict(here, t, RowsRead(plan, t), plan.judge);
    ConflictsBound(here, t, RowsRead(plan, t), plan.judge);
  }
}
