/**
 The sliding window refines the full log: a row keeps only trimmed stamps, trims
 them at each death and copies them from process to process, and still holds
 exactly the deaths of the last 300 s out of all that were charged.
 */
module WorldWindow {
  import opened Wrappers
  import opened ProcessTables
  import opened StateStore
  import opened World
  import opened WorldFrames

  /** The part of a full log that is within the window at its last entry. */
  function Recent(log: seq<int>): seq<int> {
    if log == [] then [] else Since(log, log[|log| - 1] - RESTART_WINDOW_MS)
  }

  predicate BooksMatch(r: Row, log: seq<int>) {
    r.restartCount == |r.windowStarts| && r.windowStarts == Recent(log)
  }

  predicate BooksRight(table: map<Key, Row>, charges: map<Key, seq<int>>, k: Key) {
    k in table ==> BooksMatch(table[k], Log(charges, k))
  }

  predicate InThePast(charges: map<Key, seq<int>>, now: int) {
    forall k :: k in charges && charges[k] != [] ==> charges[k][|charges[k]| - 1] <= now
  }

  // An insert that inherits bookkeeping which is no longer that of the record.
  predicate OldBooks(i: Option<Insertion>, charges: map<Key, seq<int>>, k: Key) {
    && i.Some? && i.value.spec.modelName == k && i.value.inherit && i.value.prev.Some?
    && !BooksMatch(i.value.prev.value, Log(charges, k))
  }

  /** The step inserts a row with the books of one it read earlier, and a death was charged in between. */
  predicate Rebooks(w: World, a: Act, k: Key)
    requires Enabled(w, a)
  {
    OldBooks(InsertOf(w, a), w.charges, k)
  }

  lemma {:induction false} SinceSince(stamps: seq<int>, c: int, d: int)
    requires c <= d
    ensures Since(Since(stamps, c), d) == Since(stamps, d)
  {
    if stamps != [] {
      var init, last := stamps[..|stamps| - 1], stamps[|stamps| - 1];
      SinceSince(init, c, d);
      if last >= c {
        assert Since(stamps, c) == Since(init, c) + [last];
        assert (Since(init, c) + [last])[..|Since(init, c)|] == Since(init, c);
      } else {
        assert Since(stamps, c) == Since(init, c);
      }
    }
  }

  /** Trimming at every charge loses nothing that a later window could ask for. */
  lemma ChargeMatches(r: Row, log: seq<int>, now: int)
    requires BooksMatch(r, log) && (log != [] ==> log[|log| - 1] <= now)
    ensures BooksMatch(ChargedRow(r, now), log + [now])
  {
    var cutoff := now - RESTART_WINDOW_MS;
    var window := r.windowStarts;
    assert (window + [now])[..|window|] == window && (log + [now])[..|log|] == log;
    if log != [] {
      SinceSince(log, log[|log| - 1] - RESTART_WINDOW_MS, cutoff);
    }
  }

  // ----- one step -----------------------------------------------------------

  // A row that inherits shows what the row before it showed; one that does not starts a clean record.
  lemma EntryBooks(i: Insertion, now: int, charges: map<Key, seq<int>>)
    ensures var k := i.spec.modelName;
      BooksMatch(Entry(i, now), Log(InsertCharges(charges, Some(i)), k))
      <==> !OldBooks(Some(i), charges, k)
  {
  }

  lemma OtherBooks(table: map<Key, Row>, charges: map<Key, seq<int>>, i: Insertion, now: int, k: Key)
    requires i.spec.modelName != k
    ensures BooksRight(InsertTable(table, Some(i), now), InsertCharges(charges, Some(i)), k) <==>
            BooksRight(table, charges, k)
  {
    hide EntryFor; hide BooksMatch;
  }

  lemma OwnBooks(table: map<Key, Row>, charges: map<Key, seq<int>>, i: Insertion, now: int)
    ensures var k := i.spec.modelName;
      BooksRight(InsertTable(table, Some(i), now), charges, k) <==> BooksMatch(Entry(i, now), Log(charges, k))
  {
    hide EntryFor; hide BooksMatch;
  }

  lemma BooksInsert(table: map<Key, Row>, charges: map<Key, seq<int>>, i: Option<Insertion>, now: int, k: Key)
    requires BooksRight(table, charges, k)
    ensures BooksRight(InsertTable(table, i, now), InsertCharges(charges, i), k) <==> !OldBooks(i, charges, k)
  {
    if i.Some? {
      if i.value.spec.modelName == k {
        OwnBooks(table, InsertCharges(charges, i), i.value, now);
        EntryBooks(i.value, now, charges);
      } else {
        OtherBooks(table, charges, i.value, now, k);
      }
      hide BooksRight; hide BooksMatch; hide Log;
    }
  }

  lemma PastAfter(charges: map<Key, seq<int>>, i: Option<Insertion>, now: int)
    requires InThePast(charges, now)
    ensures InThePast(InsertCharges(charges, i), now)
  {
  }

  // A mark leaves the books of every row alone.
  lemma BooksMarked(table: map<Key, Row>, charges: map<Key, seq<int>>, q: Key, pid: Pid, k: Key)
    requires BooksRight(table, charges, k)
    ensures BooksRight(MarkedFailed(table, q, pid), charges, k)
    ensures BooksRight(MarkedExhausted(table, q, pid), charges, k)
      && BooksRight(MarkedRestarting(table, q, pid), charges, k)
  {
    hide Log; hide Recent;
  }

  lemma BooksCharge(w: World, pid: Pid, q: Key, spec: Spec, cap: nat, k: Key)
    requires InThePast(w.charges, w.now) && BooksRight(w.table, w.charges, k)
    ensures var v := DoCharge(w, pid, q, spec, cap); BooksRight(v.table, v.charges, k)
  {
    hide BooksMatch; hide ChargedRow; hide Recent;
    if q == k && k in w.table {
      ChargeMatches(w.table[k], Log(w.charges, k), w.now);
    }
  }

  lemma BooksReap(w: World, pid: Pid, k: Key)
    requires pid in w.reapers && InThePast(w.charges, w.now) && BooksRight(w.table, w.charges, k)
    ensures var v := DoReap(w, pid); BooksRight(v.table, v.charges, k)
  {
    hide InThePast; hide BooksRight; hide DoCharge; hide MarkedFailed; hide MarkedExhausted;
    hide MarkedRestarting; hide Ours;
    var r := w.reapers[pid];
    BooksMarked(w.table, w.charges, r.key, pid, k);
    if r.Charging? { BooksCharge(w, pid, r.key, r.spec, r.cap, k); }
  }

  /**
   The exact step: books that were right stay right if and only if the step does not
   write back bookkeeping from before a charge.
   */
  lemma BooksStayExactly(w: World, a: Act, k: Key)
    requires Enabled(w, a) && InThePast(w.charges, w.now) && BooksRight(w.table, w.charges, k)
    ensures BooksRight(Do(w, a).table, Do(w, a).charges, k) <==> !Rebooks(w, a, k)
  {
    hide DoLoad; hide DoJudge; hide DoReap; hide OldBooks; hide BooksRight; hide InThePast; hide OtherBegins;
    hide InsertTable; hide InsertCharges; hide LoadInsert; hide JudgeInsert;
    NoBooks(w.table, w.charges, k, if a.Unload? || a.Restart? then a.key else "");
    BooksInsert(w.table, w.charges, InsertOf(w, a), w.now, k);
    NothingOld(w.charges, k);
    match a
    case LoadStep(pid, spawned) => LoadEffect(w, pid, spawned);
    case JudgeStep(seat, finding) => JudgeEffect(w, seat, finding);
    case ReapStep(pid) => BooksReap(w, pid, k);
    case _ => OtherFrame(w, a); hide Do;
  }

  lemma NothingOld(charges: map<Key, seq<int>>, k: Key)
    ensures !OldBooks(None, charges, k)
  {
  }

  lemma NoBooks(table: map<Key, Row>, charges: map<Key, seq<int>>, k: Key, q: Key)
    requires BooksRight(table, charges, k)
    ensures BooksRight(table - {q}, charges, k) && BooksRight(map[], map[], k)
  {
  }

  // The record never holds a death that is still to come.
  lemma PastKept(w: World, a: Act)
    requires Enabled(w, a) && InThePast(w.charges, w.now)
    ensures InThePast(Do(w, a).charges, Do(w, a).now)
  {
    hide DoLoad; hide DoJudge; hide DoReap; hide InThePast; hide OtherBegins; hide InsertTable; hide InsertCharges;
    NothingPast(w.charges, w.now);
    PastAfter(w.charges, InsertOf(w, a), w.now);
    match a
    case Tick(ms) => LaterStill(w.charges, w.now, w.now + ms);
    case LoadStep(pid, spawned) => LoadFrame(w, pid, spawned); LoadEffect(w, pid, spawned);
    case JudgeStep(seat, finding) => JudgeFrame(w, seat, finding); JudgeEffect(w, seat, finding);
    case ReapStep(pid) => ReapFrame(w, pid); PastReap(w, pid);
    case _ => OtherFrame(w, a); hide Do;
  }

  lemma LaterStill(charges: map<Key, seq<int>>, now: int, later: int)
    requires InThePast(charges, now) && now <= later
    ensures InThePast(charges, later)
  {
  }

  lemma NothingPast(charges: map<Key, seq<int>>, now: int)
    ensures InThePast(map[], now)
  {
  }

  lemma PastReap(w: World, pid: Pid)
    requires pid in w.reapers && InThePast(w.charges, w.now)
    ensures InThePast(DoReap(w, pid).charges, w.now)
  {
    hide ChargedRow; hide MarkedFailed; hide MarkedExhausted; hide MarkedRestarting; hide Ours; hide CheckedReaper;
    var r := w.reapers[pid];
    if r.Charging? { PastCharge(w, pid, r.key, r.spec, r.cap); }
    hide InThePast; hide DoCharge;
  }

  lemma PastCharge(w: World, pid: Pid, k: Key, spec: Spec, cap: nat)
    requires InThePast(w.charges, w.now)
    ensures InThePast(DoCharge(w, pid, k, spec, cap).charges, w.now)
  {
    hide ChargedRow;
  }

  // ----- whole runs ---------------------------------------------------------

  ghost predicate NeverRebooked(ws: seq<World>, acts: seq<Act>, k: Key, i: nat, j: nat)
    requires Run(ws, acts) && i <= j <= |acts|
  {
    forall m :: i <= m < j ==> !Rebooks(ws[m], acts[m], k)
  }

  lemma {:induction false} ChargesArePast(ws: seq<World>, acts: seq<Act>, i: nat)
    requires Run(ws, acts) && Booted(ws[0]) && i <= |acts|
    ensures InThePast(ws[i].charges, ws[i].now)
  {
    hide Do; hide Enabled;
    if i > 0 {
      ChargesArePast(ws, acts, i - 1);
      hide InThePast;
      PastKept(ws[i - 1], acts[i - 1]);
    }
  }

  /**
   In every run in which no insert writes back old books, the row of `k` shows the
   deaths of the last 300 s and their number.
   */
  lemma {:induction false} WindowRefinesLog(ws: seq<World>, acts: seq<Act>, i: nat, k: Key)
    requires Run(ws, acts) && Booted(ws[0]) && i <= |acts| && NeverRebooked(ws, acts, k, 0, i)
    ensures k in ws[i].table ==>
      && ws[i].table[k].windowStarts == Recent(Log(ws[i].charges, k))
      && ws[i].table[k].restartCount == |Recent(Log(ws[i].charges, k))|
  {
    hide Do; hide Enabled; hide Rebooks; hide Recent; hide Log;
    if i > 0 {
      WindowRefinesLog(ws, acts, i - 1, k);
      ChargesArePast(ws, acts, i - 1);
      hide InThePast;
      BooksStayExactly(ws[i - 1], acts[i - 1], k);
    }
  }

  /** And the first insert that does write them back makes the row wrong. */
  lemma WindowIsLostExactly(ws: seq<World>, acts: seq<Act>, i: nat, k: Key)
    requires Run(ws, acts) && Booted(ws[0]) && i < |acts| && NeverRebooked(ws, acts, k, 0, i)
    ensures BooksRight(ws[i + 1].table, ws[i + 1].charges, k) <==> !Rebooks(ws[i], acts[i], k)
  {
    hide Do; hide Enabled; hide Rebooks; hide Recent; hide Log; hide InThePast;
    WindowRefinesLog(ws, acts, i, k);
    ChargesArePast(ws, acts, i);
    BooksStayExactly(ws[i], acts[i], k);
  }
}
