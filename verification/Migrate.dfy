/**
 Copying a table of the old database into the new one: batched inserts under
 savepoints, retried row by row when a batch fails.

 The target engine is a parameter, `judge`: what it says of one row against the
 database as it stands. A batch is the same rows one after the other, all or
 nothing. `convert` is the value conversion.
 */
module Migrate {
  import opened Wrappers

  const BATCH_SIZE: nat := 500

  datatype Value = Null | Integer(n: int) | Real(r: real) | Text(s: string) | Blob
  datatype Val = I64(i: Option<int>) | F64(f: Option<real>) | Bool(b: Option<bool>)
               | Str(t: Option<string>) | Time(at: Option<string>)
  datatype Row = Row(id: Val, vals: seq<Val>)
  datatype Skip = Skip(table: string, id: Val, error: string)

  // Every table with its rows, oldest first.
  type Db = map<string, seq<Row>>

  // `Conflicts`: the id is taken, so the insert does nothing.
  datatype Verdict = Inserts | Conflicts | Fails(error: string)
  type Judge = (Db, string, Row) -> Verdict

  datatype Column = Column(dataType: string, nullable: bool)
  datatype Conversion = Converted(val: Val) | Unconvertible(error: string)
  type Converter = (Value, Column) -> Conversion

  function RowsOf(db: Db, t: string): seq<Row> { if t in db then db[t] else [] }

  function Put(db: Db, t: string, row: Row, judge: Judge): Db {
    if judge(db, t, row).Inserts? then db[t := RowsOf(db, t) + [row]] else db
  }

  // The rows one after the other, leaving out each that fails.
  function PutAll(db: Db, t: string, rows: seq<Row>, judge: Judge): Db {
    if rows == [] then db
    else Put(PutAll(db, t, rows[..|rows| - 1], judge), t, rows[|rows| - 1], judge)
  }

  function LastVerdict(db: Db, t: string, rows: seq<Row>, judge: Judge): Verdict
    requires rows != []
  {
    judge(PutAll(db, t, rows[..|rows| - 1], judge), t, rows[|rows| - 1])
  }

  function Failures(db: Db, t: string, rows: seq<Row>, judge: Judge): seq<Skip> {
    if rows == [] then []
    else
      var last, v := rows[|rows| - 1], LastVerdict(db, t, rows, judge);
      Failures(db, t, rows[..|rows| - 1], judge) + if v.Fails? then [Skip(t, last.id, v.error)] else []
  }

  function Inserted(db: Db, t: string, rows: seq<Row>, judge: Judge): nat {
    if rows == [] then 0
    else Inserted(db, t, rows[..|rows| - 1], judge) + if LastVerdict(db, t, rows, judge).Inserts? then 1 else 0
  }

  function Conflicting(db: Db, t: string, rows: seq<Row>, judge: Judge): nat {
    if rows == [] then 0
    else Conflicting(db, t, rows[..|rows| - 1], judge) + if LastVerdict(db, t, rows, judge).Conflicts? then 1 else 0
  }

  lemma {:induction false} EveryRowCounts(db: Db, t: string, rows: seq<Row>, judge: Judge)
    ensures |rows| == Inserted(db, t, rows, judge) + Conflicting(db, t, rows, judge) + |Failures(db, t, rows, judge)|
  {
    if rows != [] {
      EveryRowCounts(db, t, rows[..|rows| - 1], judge);
    }
  }

  /** One row: inserted, it is the last of its table; already there or failing, nothing changes. */
  lemma PutAnswers(db: Db, t: string, row: Row, judge: Judge)
    ensures var v := Put(db, t, row, judge);
      match judge(db, t, row)
      case Inserts => v == db[t := (if t in db then db[t] else []) + [row]]
      case Conflicts => v == db
      case Fails(_) => v == db
  {
  }

  lemma NothingPut(db: Db, t: string, judge: Judge)
    ensures PutAll(db, t, [], judge) == db && Failures(db, t, [], judge) == [] && Inserted(db, t, [], judge) == 0
  {
  }

  lemma OneMoreRow(db: Db, t: string, rows: seq<Row>, row: Row, judge: Judge)
    ensures var mid := PutAll(db, t, rows, judge); var v, all := judge(mid, t, row), rows + [row];
      && PutAll(db, t, all, judge) == Put(mid, t, row, judge)
      && Failures(db, t, all, judge) == Failures(db, t, rows, judge)
         + (if v.Fails? then [Skip(t, row.id, v.error)] else [])
      && Inserted(db, t, all, judge) == Inserted(db, t, rows, judge) + (if v.Inserts? then 1 else 0)
  {
    assert (rows + [row])[..|rows|] == rows;
  }

  lemma {:induction false} InTwoParts(db: Db, t: string, a: seq<Row>, b: seq<Row>, judge: Judge)
    ensures var mid := PutAll(db, t, a, judge);
      && PutAll(db, t, a + b, judge) == PutAll(mid, t, b, judge)
      && Failures(db, t, a + b, judge) == Failures(db, t, a, judge) + Failures(mid, t, b, judge)
      && Inserted(db, t, a + b, judge) == Inserted(db, t, a, judge) + Inserted(mid, t, b, judge)
      && Conflicting(db, t, a + b, judge) == Conflicting(db, t, a, judge) + Conflicting(mid, t, b, judge)
  {
    if b == [] {
      assert a + b == a;
    } else {
      assert (a + b)[..|a + b| - 1] == a + b[..|b| - 1];
      InTwoParts(db, t, a, b[..|b| - 1], judge);
    }
  }

  // A row that fails makes the statement fail, with its error if it is the only one.
  lemma FailsAt(db: Db, t: string, rows: seq<Row>, i: nat, judge: Judge)
    requires i < |rows| && judge(PutAll(db, t, rows[..i], judge), t, rows[i]).Fails?
    ensures Failures(db, t, rows, judge) != []
    ensures |rows| == 1 ==> judge(db, t, rows[0]) == judge(PutAll(db, t, rows[..i], judge), t, rows[i])
  {
    hide Failures; hide PutAll; hide Inserted; hide Conflicting;
    OneMoreRow(db, t, rows[..i], rows[i], judge);
    assert rows[..i + 1] == rows[..i] + [rows[i]];
    InTwoParts(db, t, rows[..i + 1], rows[i + 1..], judge);
    assert rows == rows[..i + 1] + rows[i + 1..];
    NothingPut(db, t, judge);
    assert rows[..0] == [];
  }

  // ----- the target connection ----------------------------------------------

  /** One transaction of the target. A failed statement poisons it until it is rolled back to a savepoint. */
  class Transaction {
    var db: Db
    var poisoned: bool

    constructor (start: Db)
      ensures db == start && !poisoned
    {
      db, poisoned := start, false;
    }

    // One statement; it stops at the first row the engine rejects.
    method BuildInsert(t: string, rows: seq<Row>, judge: Judge) returns (ok: bool, n: nat, error: string)
      requires !poisoned
      modifies this
      ensures ok <==> Failures(old(db), t, rows, judge) == []
      ensures ok ==> !poisoned && db == PutAll(old(db), t, rows, judge) && n == Inserted(old(db), t, rows, judge)
      ensures !ok ==> poisoned
      ensures !ok && |rows| == 1 ==> judge(old(db), t, rows[0]) == Fails(error)
    {
      hide Failures; hide PutAll; hide Inserted;
      ok, n, error := true, 0, "";
      NothingPut(db, t, judge);
      assert rows[..0] == [];
      for i := 0 to |rows|
        invariant !poisoned && db == PutAll(old(db), t, rows[..i], judge)
        invariant n == Inserted(old(db), t, rows[..i], judge) && Failures(old(db), t, rows[..i], judge) == []
      {
        assert rows[..i + 1] == rows[..i] + [rows[i]];
        OneMoreRow(old(db), t, rows[..i], rows[i], judge);
        var v := judge(db, t, rows[i]);
        if v.Fails? {
          poisoned := true;
          FailsAt(old(db), t, rows, i, judge);
          return false, 0, v.error;
        }
        if v.Inserts? {
          db := db[t := RowsOf(db, t) + [rows[i]]];
          n := n + 1;
        }
      }
      assert rows[..|rows|] == rows;
    }

    method RollbackTo(savepoint: Db)
      modifies this
      ensures db == savepoint && !poisoned
    {
      db, poisoned := savepoint, false;
    }
  }

  // What a flush reports: the rows affected, or after a failed batch the rows that did not fail.
  function FlushCount(db: Db, t: string, batch: seq<Row>, judge: Judge): (n: int) {
    if Failures(db, t, batch, judge) == [] then Inserted(db, t, batch, judge)
    else |batch| - |Failures(db, t, batch, judge)|
  }

  /** A batch lands as if its rows were inserted one by one; the transaction stays usable. */
  method FlushBatch(tx: Transaction, t: string, batch: seq<Row>, judge: Judge, skipped: seq<Skip>)
      returns (n: nat, skipped': seq<Skip>)
    requires !tx.poisoned
    modifies tx
    ensures !tx.poisoned && tx.db == PutAll(old(tx.db), t, batch, judge)
    ensures skipped' == skipped + Failures(old(tx.db), t, batch, judge)
    ensures n == FlushCount(old(tx.db), t, batch, judge)
  {
    var savepoint := tx.db;
    var ok, affected, error := tx.BuildInsert(t, batch, judge);
    if ok {
      return affected, skipped;
    }
    tx.RollbackTo(savepoint);
    n, skipped' := 0, skipped;
    for i := 0 to |batch|
      invariant !tx.poisoned && tx.db == PutAll(savepoint, t, batch[..i], judge)
      invariant skipped' == skipped + Failures(savepoint, t, batch[..i], judge)
      invariant n == i - |Failures(savepoint, t, batch[..i], judge)|
    {
      assert batch[..i + 1][..i] == batch[..i];
      assert [batch[i]][..0] == [];
      var here := tx.db;
      ok, affected, error := tx.BuildInsert(t, [batch[i]], judge);
      assert PutAll(here, t, [batch[i]], judge) == Put(here, t, batch[i], judge);
      if ok {
        n := n + 1;
      } else {
        tx.RollbackTo(here);
        skipped' := skipped' + [Skip(t, batch[i].id, error)];
      }
    }
    assert batch[..|batch|] == batch;
  }

  // ----- one table ----------------------------------------------------------

  // The rows that can be read; if `torn`, reading the next one is an error.
  datatype Source = Source(columns: seq<string>, rows: seq<seq<Value>>, torn: bool)

  predicate Tabular(s: Source) { forall row :: row in s.rows ==> |row| == |s.columns| }

  const PK: string := "id"

  type Schema = map<string, Column>

  // What stops a table before its first row.
  predicate Drifted(meta: Schema, s: Source) {
    meta == map[] || (exists c :: c in s.columns && c !in meta) || PK !in s.columns
  }

  lemma DriftedMeans(meta: Schema, s: Source)
    ensures !Drifted(meta, s) <==> meta != map[] && "id" in s.columns && forall c :: c in s.columns ==> c in meta
  {
  }

  function IdVal(v: Value): Val {
    match v
    case Integer(n) => I64(Some(n))
    case Text(s) => Str(Some(s))
    case Real(r) => F64(Some(r))
    case Null => I64(None)
    case Blob => Str(Some("<blob>"))
  }

  function Position(columns: seq<string>, c: string): (i: nat)
    requires c in columns
    ensures i < |columns| && columns[i] == c
  {
    if columns[0] == c then 0 else 1 + Position(columns[1..], c)
  }

  datatype Reading = Good(row: Row) | Bad(skip: Skip)

  // The values up to the first that does not convert.
  function ConvertedVals(row: seq<Value>, columns: seq<string>, meta: Schema, convert: Converter)
      : (seq<Val>, Option<string>)
    requires |row| <= |columns| && forall c :: c in columns ==> c in meta
  {
    if row == [] then ([], None)
    else
      var n := |row| - 1;
      var before := ConvertedVals(row[..n], columns, meta, convert);
      if before.1.Some? then before
      else match convert(row[n], meta[columns[n]])
        case Converted(v) => (before.0 + [v], None)
        case Unconvertible(e) => (before.0, Some(e))
  }

  lemma {:induction false} AllConverted(row: seq<Value>, columns: seq<string>, meta: Schema, convert: Converter)
    requires |row| <= |columns| && forall c :: c in columns ==> c in meta
    ensures var r := ConvertedVals(row, columns, meta, convert);
      && |r.0| <= |row| && (r.1.None? <==> |r.0| == |row|)
      && (forall i :: 0 <= i < |r.0| ==> convert(row[i], meta[columns[i]]) == Converted(r.0[i]))
      && (r.1.Some? ==> convert(row[|r.0|], meta[columns[|r.0|]]) == Unconvertible(r.1.value))
  {
    if row != [] {
      AllConverted(row[..|row| - 1], columns, meta, convert);
    }
  }

  function ReadRow(t: string, row: seq<Value>, columns: seq<string>, meta: Schema, convert: Converter): Reading
    requires |row| == |columns| && PK in columns && forall c :: c in columns ==> c in meta
  {
    AllConverted(row, columns, meta, convert);
    var r, pk := ConvertedVals(row, columns, meta, convert), Position(columns, PK);
    if r.1.Some? then Bad(Skip(t, IdVal(row[pk]), r.1.value)) else Good(Row(r.0[pk], r.0))
  }

  /**
   What becomes of a source row: if every value converts, the row of the converted values under
   its converted id; if not, a skip that names the raw id and the first value's error.
   */
  lemma ReadRowAnswers(t: string, row: seq<Value>, columns: seq<string>, meta: Schema, convert: Converter)
      returns (pk: nat)
    requires |row| == |columns| && "id" in columns && forall c :: c in columns ==> c in meta
    ensures pk < |columns| && columns[pk] == "id"
    ensures match ReadRow(t, row, columns, meta, convert)
      case Good(r) =>
        && |r.vals| == |row| && r.id == r.vals[pk]
        && forall i :: 0 <= i < |row| ==> convert(row[i], meta[columns[i]]) == Converted(r.vals[i])
      case Bad(skip) =>
        && skip.table == t
        && (row[pk].Integer? ==> skip.id == I64(Some(row[pk].n))) && (row[pk].Text? ==> skip.id == Str(Some(row[pk].s)))
        && (row[pk].Real? ==> skip.id == F64(Some(row[pk].r))) && (row[pk].Null? ==> skip.id == I64(None))
        && (row[pk].Blob? ==> skip.id == Str(Some("<blob>")))
        && exists i :: 0 <= i < |row| && convert(row[i], meta[columns[i]]) == Unconvertible(skip.error)
                       && forall j :: 0 <= j < i ==> convert(row[j], meta[columns[j]]).Converted?
  {
    AllConverted(row, columns, meta, convert);
    pk := Position(columns, PK);
  }

  function Readings(t: string, s: Source, meta: Schema, convert: Converter): (rs: seq<Reading>)
    requires Tabular(s) && !Drifted(meta, s)
    ensures |rs| == |s.rows|
  {
    seq(|s.rows|, i requires 0 <= i < |s.rows| =>
      assert s.rows[i] in s.rows; ReadRow(t, s.rows[i], s.columns, meta, convert))
  }

  // The simple form: row by row, each that does not convert or insert is skipped on the spot.
  datatype Copy = Copy(db: Db, skipped: seq<Skip>)

  function CopyOne(c: Copy, t: string, r: Reading, judge: Judge): Copy {
    match r
    case Bad(skip) => c.(skipped := c.skipped + [skip])
    case Good(row) =>
      match judge(c.db, t, row)
      case Inserts => c.(db := c.db[t := RowsOf(c.db, t) + [row]])
      case Conflicts => c
      case Fails(e) => c.(skipped := c.skipped + [Skip(t, row.id, e)])
  }

  function RowByRow(db: Db, t: string, rs: seq<Reading>, judge: Judge): Copy {
    if rs == [] then Copy(db, [])
    else CopyOne(RowByRow(db, t, rs[..|rs| - 1], judge), t, rs[|rs| - 1], judge)
  }

  function GoodRows(rs: seq<Reading>): seq<Row> {
    if rs == [] then []
    else GoodRows(rs[..|rs| - 1]) + match rs[|rs| - 1] case Good(row) => [row] case Bad(_) => []
  }

  function BadSkips(rs: seq<Reading>): seq<Skip> {
    if rs == [] then []
    else BadSkips(rs[..|rs| - 1]) + match rs[|rs| - 1] case Good(_) => [] case Bad(skip) => [skip]
  }

  lemma CopyOneGood(c: Copy, t: string, row: Row, judge: Judge, bad: seq<Skip>, failed: seq<Skip>)
    requires multiset(c.skipped) == multiset(bad + failed)
    ensures var v, d := judge(c.db, t, row), CopyOne(c, t, Good(row), judge);
      && d.db == Put(c.db, t, row, judge)
      && multiset(d.skipped) == multiset(bad + (failed + if v.Fails? then [Skip(t, row.id, v.error)] else []))
  {
    var v := judge(c.db, t, row);
    var more := if v.Fails? then [Skip(t, row.id, v.error)] else [];
    assert bad + (failed + more) == bad + failed + more;
  }

  lemma CopyOneBad(c: Copy, t: string, skip: Skip, judge: Judge, bad: seq<Skip>, failed: seq<Skip>)
    requires multiset(c.skipped) == multiset(bad + failed)
    ensures var d := CopyOne(c, t, Bad(skip), judge);
      d.db == c.db && multiset(d.skipped) == multiset(bad + [skip] + failed)
  {
    assert multiset(bad + [skip] + failed) == multiset(bad + failed + [skip]);
  }

  lemma {:induction false} RowByRowSplits(db: Db, t: string, rs: seq<Reading>, judge: Judge)
    ensures var r := RowByRow(db, t, rs, judge);
      && r.db == PutAll(db, t, GoodRows(rs), judge)
      && multiset(r.skipped) == multiset(BadSkips(rs) + Failures(db, t, GoodRows(rs), judge))
      && |rs| == |GoodRows(rs)| + |BadSkips(rs)|
  {
    hide PutAll; hide Failures; hide CopyOne;
    if rs == [] {
      NothingPut(db, t, judge);
    } else {
      var init, last := rs[..|rs| - 1], rs[|rs| - 1];
      RowByRowSplits(db, t, init, judge);
      var c, good, bad := RowByRow(db, t, init, judge), GoodRows(init), BadSkips(init);
      match last {
        case Good(row) =>
          OneMoreRow(db, t, good, row, judge);
          CopyOneGood(c, t, row, judge, bad, Failures(db, t, good, judge));
          assert GoodRows(rs) == good + [row] && BadSkips(rs) == bad + [] == bad;
        case Bad(skip) =>
          CopyOneBad(c, t, skip, judge, bad, Failures(db, t, good, judge));
          assert GoodRows(rs) == good + [] == good && BadSkips(rs) == bad + [skip];
      }
    }
  }

  // What the batches of a table report together.
  function Reported(db: Db, t: string, rows: seq<Row>, judge: Judge): int
    decreases |rows|
  {
    if |rows| <= BATCH_SIZE then FlushCount(db, t, rows, judge)
    else FlushCount(db, t, rows[..BATCH_SIZE], judge)
         + Reported(PutAll(db, t, rows[..BATCH_SIZE], judge), t, rows[BATCH_SIZE..], judge)
  }

  // Whole batches flushed so far, and one more.
  lemma {:induction false} ReportedAppend(db: Db, t: string, a: seq<Row>, b: seq<Row>, judge: Judge)
    requires |a| % BATCH_SIZE == 0 && 0 < |b| <= BATCH_SIZE
    ensures Reported(db, t, a + b, judge) ==
            (if a == [] then 0 else Reported(db, t, a, judge)) + FlushCount(PutAll(db, t, a, judge), t, b, judge)
    decreases |a|
  {
    hide FlushCount; hide PutAll;
    if a == [] {
      assert a + b == b && PutAll(db, t, a, judge) == db by { NothingPut(db, t, judge); }
    } else {
      var head, rest := a[..BATCH_SIZE], a[BATCH_SIZE..];
      var mid := PutAll(db, t, head, judge);
      ReportedAppend(mid, t, rest, b, judge);
      assert (a + b)[..BATCH_SIZE] == head && (a + b)[BATCH_SIZE..] == rest + b;
      InTwoParts(db, t, head, rest, judge);
      assert a == head + rest;
      if rest == [] { assert a == head; }
    }
  }

  method ConvertRow(row: seq<Value>, columns: seq<string>, meta: Schema, convert: Converter)
      returns (vals: seq<Val>, rowErr: Option<string>)
    requires |row| == |columns| && forall c :: c in columns ==> c in meta
    ensures (vals, rowErr) == ConvertedVals(row, columns, meta, convert)
  {
    vals, rowErr := [], None;
    var i := 0;
    while i < |row| && rowErr.None?
      invariant i <= |row| && (vals, rowErr) == ConvertedVals(row[..i], columns, meta, convert)
    {
      assert row[..i + 1][..i] == row[..i];
      match convert(row[i], meta[columns[i]]) {
        case Converted(v) => vals := vals + [v];
        case Unconvertible(e) => rowErr := Some(e);
      }
      i := i + 1;
    }
    assert row[..|row|] == row;
    if rowErr.Some? { StaysBad(row, i, columns, meta, convert); }
  }

  method ReadSource(t: string, s: Source, i: nat, meta: Schema, convert: Converter) returns (r: Reading)
    requires Tabular(s) && !Drifted(meta, s) && i < |s.rows|
    ensures r == Readings(t, s, meta, convert)[i]
  {
    var row, pk := s.rows[i], Position(s.columns, PK);
    assert row in s.rows;
    AllConverted(row, s.columns, meta, convert);
    var vals, rowErr := ConvertRow(row, s.columns, meta, convert);
    if rowErr.Some? {
      r := Bad(Skip(t, IdVal(row[pk]), rowErr.value));
    } else {
      r := Good(Row(vals[pk], vals));
    }
  }

  lemma {:induction false} StaysBad(row: seq<Value>, i: nat, columns: seq<string>, meta: Schema, convert: Converter)
    requires i <= |row| <= |columns| && forall c :: c in columns ==> c in meta
    requires ConvertedVals(row[..i], columns, meta, convert).1.Some?
    ensures ConvertedVals(row, columns, meta, convert) == ConvertedVals(row[..i], columns, meta, convert)
  {
    if i == |row| {
      assert row[..i] == row;
    } else {
      assert row[..|row| - 1][..i] == row[..i];
      StaysBad(row[..|row| - 1], i, columns, meta, convert);
    }
  }

  // How far a copy is: the good rows read are those flushed and those in the batch.
  ghost predicate Copying(start: Db, t: string, rs: seq<Reading>, flushed: seq<Row>, batch: seq<Row>, judge: Judge,
                          db: Db, before: seq<Skip>, skipped: seq<Skip>, inserted: int)
  {
    && |flushed| % BATCH_SIZE == 0 && |batch| < BATCH_SIZE && GoodRows(rs) == flushed + batch
    && db == PutAll(start, t, flushed, judge)
    && multiset(skipped) == multiset(before + BadSkips(rs) + Failures(start, t, flushed, judge))
    && inserted == if flushed == [] then 0 else Reported(start, t, flushed, judge)
  }

  lemma CopiedBad(start: Db, t: string, rs: seq<Reading>, flushed: seq<Row>, batch: seq<Row>, judge: Judge,
                  db: Db, before: seq<Skip>, skipped: seq<Skip>, inserted: int, skip: Skip)
    requires Copying(start, t, rs, flushed, batch, judge, db, before, skipped, inserted)
    ensures Copying(start, t, rs + [Bad(skip)], flushed, batch, judge, db, before, skipped + [skip], inserted)
  {
    var all := rs + [Bad(skip)];
    assert all[..|rs|] == rs && all[|all| - 1] == Bad(skip);
    assert GoodRows(all) == GoodRows(rs) + [] == GoodRows(rs);
    assert BadSkips(all) == BadSkips(rs) + [skip];
    var fails := Failures(start, t, flushed, judge);
    hide BadSkips; hide GoodRows; hide PutAll; hide Failures; hide Reported;
    assert multiset(before + (BadSkips(rs) + [skip]) + fails) == multiset(before + BadSkips(rs) + fails + [skip]);
  }

  lemma OneMoreGood(rs: seq<Reading>, row: Row)
    ensures GoodRows(rs + [Good(row)]) == GoodRows(rs) + [row] && BadSkips(rs + [Good(row)]) == BadSkips(rs)
  {
    assert (rs + [Good(row)])[..|rs|] == rs;
  }

  lemma CopiedGood(start: Db, t: string, rs: seq<Reading>, flushed: seq<Row>, batch: seq<Row>, judge: Judge,
                   db: Db, before: seq<Skip>, skipped: seq<Skip>, inserted: int, row: Row)
    requires Copying(start, t, rs, flushed, batch, judge, db, before, skipped, inserted) && |batch| + 1 < BATCH_SIZE
    ensures Copying(start, t, rs + [Good(row)], flushed, batch + [row], judge, db, before, skipped, inserted)
  {
    OneMoreGood(rs, row);
    hide BadSkips; hide GoodRows; hide PutAll; hide Failures; hide Reported;
    assert flushed + batch + [row] == flushed + (batch + [row]);
  }

  lemma MoreSkips(before: seq<Skip>, old': seq<Skip>, new': seq<Skip>, skipped: seq<Skip>)
    requires multiset(skipped) == multiset(before + old')
    ensures multiset(skipped + new') == multiset(before + (old' + new'))
  {
    assert before + (old' + new') == before + old' + new';
  }

  // A full batch is flushed: what the flush added to the skips and the count is what it should have.
  lemma CopiedFull(start: Db, t: string, rs: seq<Reading>, flushed: seq<Row>, batch: seq<Row>, judge: Judge,
                   before: seq<Skip>, skipped: seq<Skip>, inserted: int, row: Row)
    requires Copying(start, t, rs, flushed, batch, judge, PutAll(start, t, flushed, judge), before, skipped, inserted)
    requires |batch| + 1 == BATCH_SIZE
    ensures var mid, full := PutAll(start, t, flushed, judge), batch + [row];
      Copying(start, t, rs + [Good(row)], flushed + full, [], judge, PutAll(mid, t, full, judge), before,
              skipped + Failures(mid, t, full, judge), inserted + FlushCount(mid, t, full, judge))
  {
    hide BadSkips; hide GoodRows; hide PutAll; hide Failures; hide Reported; hide FlushCount;
    OneMoreGood(rs, row);
    CopiedBatch(start, t, flushed, batch + [row], judge, inserted);
    var mid, full := PutAll(start, t, flushed, judge), batch + [row];
    MoreSkips(before + BadSkips(rs), Failures(start, t, flushed, judge), Failures(mid, t, full, judge), skipped);
    assert flushed + full + [] == flushed + batch + [row];
    assert |flushed + full| == |flushed| + BATCH_SIZE;
  }

  lemma CopiedBatch(start: Db, t: string, flushed: seq<Row>, batch: seq<Row>, judge: Judge, inserted: int)
    requires |flushed| % BATCH_SIZE == 0 && 0 < |batch| <= BATCH_SIZE
    requires inserted == if flushed == [] then 0 else Reported(start, t, flushed, judge)
    ensures var mid := PutAll(start, t, flushed, judge);
      && PutAll(mid, t, batch, judge) == PutAll(start, t, flushed + batch, judge)
      && Failures(start, t, flushed + batch, judge) == Failures(start, t, flushed, judge)
         + Failures(mid, t, batch, judge)
      && inserted + FlushCount(mid, t, batch, judge) == Reported(start, t, flushed + batch, judge)
  {
    InTwoParts(start, t, flushed, batch, judge);
    ReportedAppend(start, t, flushed, batch, judge);
  }

  lemma AllFlushed(start: Db, t: string, rs: seq<Reading>, judge: Judge, before: seq<Skip>, skipped: seq<Skip>)
    requires multiset(skipped) == multiset(before + BadSkips(rs) + Failures(start, t, GoodRows(rs), judge))
    ensures PutAll(start, t, GoodRows(rs), judge) == RowByRow(start, t, rs, judge).db
    ensures multiset(skipped) == multiset(before + RowByRow(start, t, rs, judge).skipped)
  {
    hide BadSkips; hide GoodRows; hide PutAll; hide Failures; hide RowByRow;
    RowByRowSplits(start, t, rs, judge);
    var bad, failed := BadSkips(rs), Failures(start, t, GoodRows(rs), judge);
    assert before + bad + failed == before + (bad + failed);
  }

  // After the last flush the copy is the row-by-row copy.
  lemma CopyEnds(start: Db, t: string, rs: seq<Reading>, flushed: seq<Row>, batch: seq<Row>, judge: Judge,
                 before: seq<Skip>, skipped: seq<Skip>, inserted: int)
    requires Copying(start, t, rs, flushed, batch, judge, PutAll(start, t, flushed, judge), before, skipped, inserted)
    ensures var mid := PutAll(start, t, flushed, judge);
      var all, n := if batch == [] then skipped else skipped + Failures(mid, t, batch, judge),
                    if batch == [] then inserted else inserted + FlushCount(mid, t, batch, judge);
      && (if batch == [] then mid else PutAll(mid, t, batch, judge)) == RowByRow(start, t, rs, judge).db
      && multiset(all) == multiset(before + RowByRow(start, t, rs, judge).skipped)
      && n == Reported(start, t, GoodRows(rs), judge)
  {
    hide BadSkips; hide GoodRows; hide PutAll; hide Failures; hide Reported; hide FlushCount; hide RowByRow;
    var mid := PutAll(start, t, flushed, judge);
    if batch == [] {
      assert flushed + batch == flushed;
      if flushed == [] { NothingReported(start, t, judge); }
      AllFlushed(start, t, rs, judge, before, skipped);
    } else {
      CopiedBatch(start, t, flushed, batch, judge, inserted);
      MoreSkips(before + BadSkips(rs), Failures(start, t, flushed, judge), Failures(mid, t, batch, judge), skipped);
      AllFlushed(start, t, rs, judge, before, skipped + Failures(mid, t, batch, judge));
    }
  }

  lemma NothingReported(db: Db, t: string, judge: Judge)
    ensures Reported(db, t, [], judge) == 0
  {
  }

  // The rows in full batches: of a torn table, no other row is inserted.
  function WholeBatches(rows: seq<Row>): seq<Row> { rows[..|rows| - |rows| % BATCH_SIZE] }

  // What a copy has done when reading fails: the open batch is lost.
  function TornCopy(db: Db, t: string, rs: seq<Reading>, judge: Judge): Copy {
    var rows := WholeBatches(GoodRows(rs));
    Copy(PutAll(db, t, rows, judge), BadSkips(rs) + Failures(db, t, rows, judge))
  }

  lemma CopyTears(start: Db, t: string, rs: seq<Reading>, flushed: seq<Row>, batch: seq<Row>, judge: Judge,
                  db: Db, before: seq<Skip>, skipped: seq<Skip>, inserted: int)
    requires Copying(start, t, rs, flushed, batch, judge, db, before, skipped, inserted)
    ensures db == TornCopy(start, t, rs, judge).db
    ensures multiset(skipped) == multiset(before + TornCopy(start, t, rs, judge).skipped)
  {
    hide BadSkips; hide PutAll; hide Failures; hide Reported; hide GoodRows;
    assert WholeBatches(GoodRows(rs)) == flushed;
    var bad, failed := BadSkips(rs), Failures(start, t, flushed, judge);
    assert before + bad + failed == before + (bad + failed);
  }

  /**
   The batched copy leaves the table the row-by-row copy leaves, and skips the same rows.
   A drifted table is refused untouched; a torn one fails with its full batches inserted,
   which is why a failing table must cost the whole transaction.
   */
  method CopyTable(tx: Transaction, t: string, s: Source, meta: Schema, convert: Converter, judge: Judge,
                   skipped: seq<Skip>)
      returns (ok: bool, inserted: nat, skipped': seq<Skip>)
    requires !tx.poisoned && Tabular(s)
    modifies tx
    ensures !tx.poisoned && ok == (!Drifted(meta, s) && !s.torn)
    ensures ok <==> meta != map[] && "id" in s.columns && (forall c :: c in s.columns ==> c in meta) && !s.torn
    ensures Drifted(meta, s) ==> tx.db == old(tx.db) && skipped' == skipped
    ensures !Drifted(meta, s) && s.torn ==>
      var torn := TornCopy(old(tx.db), t, Readings(t, s, meta, convert), judge);
      tx.db == torn.db && multiset(skipped') == multiset(skipped + torn.skipped)
    ensures ok ==>
      var rs := Readings(t, s, meta, convert);
      && tx.db == RowByRow(old(tx.db), t, rs, judge).db
      && multiset(skipped') == multiset(skipped + RowByRow(old(tx.db), t, rs, judge).skipped)
      && inserted == Reported(old(tx.db), t, GoodRows(rs), judge)
  {
    hide Readings; hide PutAll; hide Failures; hide Reported; hide FlushCount; hide GoodRows; hide BadSkips;
    hide RowByRow;
    hide Drifted; hide Copying; hide TornCopy;
    DriftedMeans(meta, s);
    ok, inserted, skipped' := false, 0, skipped;
    if Drifted(meta, s) {
      return;
    }
    var batch: seq<Row> := [];
    ghost var start, rs, flushed: seq<Row> := tx.db, Readings(t, s, meta, convert), [];
    CopyBegins(start, t, judge, skipped);
    assert rs[..0] == [];
    for i := 0 to |s.rows|
      invariant !tx.poisoned && |batch| < BATCH_SIZE && tx.db == PutAll(start, t, flushed, judge)
      invariant Copying(start, t, rs[..i], flushed, batch, judge, tx.db, skipped, skipped', inserted)
    {
      assert rs[..i + 1] == rs[..i] + [rs[i]];
      var reading := ReadSource(t, s, i, meta, convert);
      if reading.Bad? {
        CopiedBad(start, t, rs[..i], flushed, batch, judge, tx.db, skipped, skipped', inserted, reading.skip);
        skipped' := skipped' + [reading.skip];
        continue;
      }
      if |batch| + 1 == BATCH_SIZE {
        CopiedFull(start, t, rs[..i], flushed, batch, judge, skipped, skipped', inserted, reading.row);
      } else {
        CopiedGood(start, t, rs[..i], flushed, batch, judge, tx.db, skipped, skipped', inserted, reading.row);
      }
      batch := batch + [reading.row];
      if |batch| == BATCH_SIZE {
        InTwoParts(start, t, flushed, batch, judge);
        var n: nat;
        n, skipped' := FlushBatch(tx, t, batch, judge, skipped');
        inserted := inserted + n;
        flushed, batch := flushed + batch, [];
      }
    }
    assert rs[..|rs|] == rs;
    if s.torn {
      CopyTears(start, t, rs, flushed, batch, judge, tx.db, skipped, skipped', inserted);
      return;
    }
    ok := true;
    CopyEnds(start, t, rs, flushed, batch, judge, skipped, skipped', inserted);
    if batch != [] {
      var n: nat;
      n, skipped' := FlushBatch(tx, t, batch, judge, skipped');
      inserted := inserted + n;
    }
  }

  lemma CopyBegins(start: Db, t: string, judge: Judge, skipped: seq<Skip>)
    ensures PutAll(start, t, [], judge) == start
    ensures Copying(start, t, [], [], [], judge, start, skipped, skipped, 0)
  {
    assert skipped + [] + [] == skipped;
  }
}
