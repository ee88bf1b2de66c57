/**
 The operator's mark: on a row it stops every later respawn for as long as the row
 exists, and on disk it keeps the boot sweep and the reaper away across crashes.
 */
module WorldTrip {
  import opened Wrappers
  import opened ProcessTables
  import opened StateStore
  import opened World
  import opened WorldFrames
  import opened WorldIds
  import opened WorldVerdicts
  import opened WorldKeys
  import opened WorldBudget

  // ----- the mark on a row --------------------------------------------------

  // The row of `k` keeps its mark, if it stays.
  predicate MarkKept(table: map<Key, Row>, table': map<Key, Row>, k: Key) {
    k in table && k in table' && table[k].userFlagged ==> table'[k].userFlagged
  }

  // An insert computed from a row without the mark.
  predicate Unmarked(i: Option<Insertion>, k: Key) {
    i.Some? && i.value.spec.modelName == k && !(i.value.prev.Some? && i.value.prev.value.userFlagged)
  }

  /** The step inserts over a marked row one that was computed from a row without the mark. */
  predicate Unmarks(w: World, a: Act, k: Key)
    requires Enabled(w, a)
  {
    k in w.table && w.table[k].userFlagged && Unmarked(InsertOf(w, a), k)
  }

  lemma MarkKeptInsert(table: map<Key, Row>, i: Option<Insertion>, now: int, k: Key)
    ensures MarkKept(table, InsertTable(table, i, now), k) <==>
            !(k in table && table[k].userFlagged && Unmarked(i, k))
  {
  }

  lemma MarkKeptReap(w: World, pid: Pid, k: Key)
    requires pid in w.reapers
    ensures MarkKept(w.table, DoReap(w, pid).table, k)
  {
    hide DoReap; hide Since;
    ReapEffect(w, pid);
  }

  lemma MarkKeptRest(w: World, a: Act, k: Key)
    requires Enabled(w, a) && Other(a)
    ensures MarkKept(w.table, Do(w, a).table, k)
  {
    hide Do; hide OtherBegins;
    OtherFrame(w, a);
  }

  /** The exact step: the row of `k` keeps its mark if and only if no insert is computed from a row without it. */
  lemma MarkStaysExactly(w: World, a: Act, k: Key)
    requires Enabled(w, a)
    ensures MarkKept(w.table, Do(w, a).table, k) <==> !Unmarks(w, a, k)
  {
    hide MarkKept; hide DoLoad; hide DoJudge; hide DoReap; hide InsertTable; hide LoadInsert; hide JudgeInsert;
    MarkKeptInsert(w.table, InsertOf(w, a), w.now, k);
    match a
    case LoadStep(pid, spawned) => LoadEffect(w, pid, spawned);
    case JudgeStep(seat, finding) => JudgeEffect(w, seat, finding);
    case ReapStep(pid) => MarkKeptReap(w, pid, k);
    case _ => MarkKeptRest(w, a, k); hide Do;
  }

  // ----- who may still respawn it -------------------------------------------

  // A reaper that has seen an unmarked row.
  predicate Eager(r: Reaper, k: Key) {
    r.key == k && ((r.Looking? && !r.flagged) || r.Charging? || r.Marking?)
  }

  predicate Spared(reapers: map<Pid, Reaper>, table: map<Key, Row>, k: Key) {
    forall p :: p in reapers && Eager(reapers[p], k) && OwnsRow(table, k, p) ==> !table[k].userFlagged
  }

  predicate FoundMark(l: Load, k: Key) {
    l.Settling? && l.spec.modelName == k && l.prev.Some? && l.prev.value.userFlagged
  }

  // A load that found a mark placed a marked row, and it still is.
  predicate PlacedMarked(loads: map<Pid, Load>, table: map<Key, Row>, k: Key) {
    forall p :: p in loads && FoundMark(loads[p], k) && OwnsRow(table, k, p) ==> table[k].userFlagged
  }

  // What a judge about to land read is what its row still shows, or its row has been exhausted since.
  predicate ReadMark(prev: Option<Row>, row: Row) {
    && prev.Some? && (prev.value.userFlagged ==> row.userFlagged)
    && (row.userFlagged && !row.status.BudgetExhausted? ==> prev.value.userFlagged)
  }

  predicate LandsMarked(judges: map<Seat, Judge>, table: map<Key, Row>, k: Key) {
    forall s :: s in judges && judges[s].Landing? && judges[s].spec.modelName == k && OwnsRow(table, k, s.pid) ==>
      ReadMark(judges[s].prev, table[k])
  }

  predicate Barring(w: World, k: Key) {
    Spared(w.reapers, w.table, k) && PlacedMarked(w.loads, w.table, k) && LandsMarked(w.judges, w.table, k)
  }

  lemma BarringSpawn(w: World, pid: Pid, spec: Spec, origin: Origin, k: Key)
    requires Ids(w) && Barring(w, k) && pid in w.loads && w.loads[pid] == Calling(spec, origin)
    ensures Barring(DoSpawn(w, pid, spec, origin), k) && Barring(DoAbandon(w, pid), k)
  {
    hide Ids; hide LandsMarked;
  }

  lemma BarringRead(w: World, pid: Pid, spec: Spec, origin: Origin, k: Key)
    requires Barring(w, k) && pid in w.loads && w.loads[pid] == Reading(spec, origin)
    ensures Barring(w.(loads := w.loads[pid := Placing(spec, origin, Get(w.table, spec.modelName))]), k)
  {
    hide LandsMarked; hide Spared;
  }

  lemma BarringPlace(w: World, pid: Pid, spec: Spec, origin: Origin, prev: Option<Row>, k: Key)
    requires Ids(w) && Barring(w, k) && pid in w.loads && w.loads[pid] == Placing(spec, origin, prev)
    ensures Barring(DoPlace(w, pid, spec, origin, prev), k)
  {
    hide Ids; hide Barring; hide DoPlace; hide Spared; hide PlacedMarked; hide LandsMarked; hide EntryFor;
    PlaceEffect(w, pid, spec, origin, prev);
    JustWaiting(w, pid);
    IsBarring(w, k);
    SparedByPlace(w, pid, spec, origin, prev, k);
    LandsElsewhere(w, pid, Insertion(spec, pid, Starting, Inherits(prev), prev), Polling(spec, Inherits(prev), w.now),
                   k);
    IsBarring(DoPlace(w, pid, spec, origin, prev), k);
  }

  lemma IsBarring(w: World, k: Key)
    ensures Barring(w, k) <==>
      Spared(w.reapers, w.table, k) && PlacedMarked(w.loads, w.table, k) && LandsMarked(w.judges, w.table, k)
  {
  }

  // The reaper of a pid whose row is yet to be placed waits for its exit.
  lemma JustWaiting(w: World, pid: Pid)
    requires Ids(w) && pid in w.loads && w.loads[pid].Placing?
    ensures pid in w.reapers ==> w.reapers[pid].Waiting?
  {
  }

  lemma SparedByPlace(w: World, pid: Pid, spec: Spec, origin: Origin, prev: Option<Row>, k: Key)
    requires Barring(w, k) && (pid in w.reapers ==> w.reapers[pid].Waiting?)
    ensures var table := InsertTable(w.table, Some(Insertion(spec, pid, Starting, Inherits(prev), prev)), w.now);
      && Spared(w.reapers, table, k) && PlacedMarked(w.loads - {pid}, table, k)
      && PlacedMarked(w.loads[pid := Settling(spec, origin, Inherits(prev), prev, false)], table, k)
  {
    hide LandsMarked;
  }

  // The row of a load that is still in flight is nobody's to judge.
  lemma LandsElsewhere(w: World, pid: Pid, i: Insertion, gate: Judge, k: Key)
    requires Ids(w) && LandsMarked(w.judges, w.table, k) && pid in w.loads && i.pid == pid
    ensures LandsMarked(w.judges, InsertTable(w.table, Some(i), w.now), k)
    ensures gate.Polling? ==> LandsMarked(w.judges[Seat(Gate, pid) := gate], InsertTable(w.table, Some(i), w.now), k)
  {
    hide RowsKnown; hide LoadsKnown; hide ReapersKnown; hide VerdictsKnown; hide ReadMark;
  }

  lemma BarringConfirm(w: World, pid: Pid, spec: Spec, origin: Origin, inherit: bool, prev: Option<Row>, k: Key)
    requires Barring(w, k) && pid in w.loads && w.loads[pid] == Settling(spec, origin, inherit, prev, false)
    ensures Barring(DoConfirm(w, pid, spec, origin, inherit, prev), k)
  {
    hide Affirmed; hide Freed; hide LandsMarked; hide Spared;
  }

  lemma BarringSettle(w: World, pid: Pid, spec: Spec, origin: Origin, inherit: bool, prev: Option<Row>, k: Key)
    requires Ids(w) && Barring(w, k) && pid in w.loads && w.loads[pid] == Settling(spec, origin, inherit, prev, true)
    requires spec.modelName == k ==> OwnsRow(w.table, k, pid)
    ensures Barring(DoSettle(w, pid, spec, origin, inherit, prev), k)
  {
    hide Ids; hide LandsMarked; hide DoSettle;
    SettleEffect(w, pid, spec, origin, inherit, prev);
    LandsElsewhere(w, pid, Insertion(spec, pid, Ready, inherit, prev), Polling(spec, inherit, 0), k);
  }

  lemma BarringLoad(w: World, pid: Pid, spawned: bool, k: Key)
    requires Ids(w) && Barring(w, k) && pid in w.loads && Timely(w, LoadStep(pid, spawned), k)
    ensures Barring(DoLoad(w, pid, spawned), k)
  {
    hide Ids; hide Barring; hide DoSpawn; hide DoAbandon; hide DoPlace; hide DoConfirm; hide DoSettle; hide Moves;
    match w.loads[pid]
    case Calling(spec, origin) => BarringSpawn(w, pid, spec, origin, k);
    case Reading(spec, origin) => BarringRead(w, pid, spec, origin, k);
    case Placing(spec, origin, prev) => BarringPlace(w, pid, spec, origin, prev, k);
    case Settling(spec, origin, inherit, prev, checked) =>
      if checked { BarringSettle(w, pid, spec, origin, inherit, prev, k); }
      else { BarringConfirm(w, pid, spec, origin, inherit, prev, k); }
  }

  lemma BarringDecide(w: World, seat: Seat, next: Judge, k: Key)
    requires Barring(w, k) && !next.Landing?
    ensures Barring(Decide(w, seat, next), k) && Barring(w.(judges := w.judges - {seat}), k)
  {
    hide Spared; hide PlacedMarked; hide OwnsStartingRow; hide ReadMark;
  }

  lemma BarringPass(w: World, seat: Seat, spec: Spec, inherit: bool, verdict: Status, k: Key)
    requires Barring(w, k)
    ensures Barring(w.(judges := w.judges[seat := Landing(spec, inherit, verdict, Get(w.table, spec.modelName))]), k)
  {
    hide Spared; hide PlacedMarked;
  }

  // A landing in time writes the mark its row has.
  lemma LandKeepsMark(w: World, seat: Seat, spec: Spec, inherit: bool, verdict: Status, prev: Option<Row>, k: Key)
    requires Barring(w, k) && seat in w.judges && w.judges[seat] == Landing(spec, inherit, verdict, prev)
    requires spec.modelName == k && InOrder(w.table, k, seat.pid, verdict) && (verdict.Ready? || verdict.Failed?)
    ensures !w.table[k].status.BudgetExhausted? && prev.Some? && prev.value.userFlagged == w.table[k].userFlagged
  {
    hide Spared; hide PlacedMarked;
  }

  lemma BarringLand(w: World, seat: Seat, spec: Spec, inherit: bool, verdict: Status, prev: Option<Row>, k: Key)
    requires Barring(w, k) && seat in w.judges && w.judges[seat] == Landing(spec, inherit, verdict, prev)
    requires spec.modelName == k ==> InOrder(w.table, k, seat.pid, verdict) && (verdict.Ready? || verdict.Failed?)
    ensures Barring(Land(w, seat, spec, inherit, verdict, prev), k)
  {
    hide Land; hide InOrder;
    LandEffect(w, seat, spec, inherit, verdict, prev);
    LandFrame(w, seat, spec, inherit, verdict, prev);
    if spec.modelName == k {
      LandKeepsMark(w, seat, spec, inherit, verdict, prev, k);
      assert OwnsRow(w.table, k, seat.pid) by { InOrderOwns(w.table, k, seat.pid, verdict); }
    }
  }

  lemma InOrderOwns(table: map<Key, Row>, k: Key, p: Pid, s: Status)
    requires InOrder(table, k, p, s)
    ensures OwnsRow(table, k, p)
  {
  }

  lemma FinalVerdict(judges: map<Seat, Judge>, seat: Seat)
    requires Final(judges) && seat in judges && judges[seat].Landing?
    ensures judges[seat].verdict.Ready? || judges[seat].verdict.Failed?
  {
  }

  lemma BarringJudge(w: World, seat: Seat, finding: Finding, k: Key)
    requires Final(w.judges) && Barring(w, k)
    requires Enabled(w, JudgeStep(seat, finding)) && Timely(w, JudgeStep(seat, finding), k)
    ensures Barring(DoJudge(w, seat, finding), k)
  {
    hide Barring; hide Decide; hide Land; hide Final; hide InOrder;
    if w.judges[seat].Landing? { FinalVerdict(w.judges, seat); }
    match w.judges[seat]
    case Polling(spec, inherit, _) =>
      BarringDecide(w, seat, Passed(spec, false, Ready), k);
      BarringDecide(w, seat, Killing(spec, inherit), k);
    case Killing(spec, inherit) => BarringDecide(w, seat, Passed(spec, inherit, Failed), k);
    case Passed(spec, inherit, verdict) => BarringPass(w, seat, spec, inherit, verdict, k);
    case Landing(spec, inherit, verdict, prev) => BarringLand(w, seat, spec, inherit, verdict, prev, k);
  }

  lemma BarringCheck(w: World, pid: Pid, q: Key, flagged: bool, k: Key)
    requires Barring(w, k) && pid in w.reapers
    ensures Barring(DoCheck(w, pid, q), k)
    ensures w.reapers[pid] == Looking(q, flagged)
      ==> Barring(w.(reapers := w.reapers[pid := CheckedReaper(w.store, q, flagged)]), k)
  {
  }

  lemma BarringGiveUp(w: World, pid: Pid, q: Key, k: Key)
    requires Barring(w, k) && pid in w.reapers
    ensures Barring(w.(table := MarkedFailed(w.table, q, pid), reapers := w.reapers - {pid}), k)
  {
  }

  lemma BarringCharge(w: World, pid: Pid, q: Key, spec: Spec, cap: nat, k: Key)
    requires Barring(w, k) && pid in w.reapers && w.reapers[pid] == Charging(q, spec, cap)
    ensures Barring(DoCharge(w, pid, q, spec, cap), k)
  {
    hide Since;
  }

  lemma BarringMark(w: World, pid: Pid, q: Key, spec: Spec, cap: nat, count: nat, stamp: int, k: Key)
    requires Barring(w, k) && pid in w.reapers && w.reapers[pid] == Marking(q, spec, cap, count, stamp)
    ensures var v := DoMark(w, pid, q, spec, cap, count, stamp);
      && Barring(v, k)
      && (q == k && k in w.table && w.table[k].userFlagged ==> v.respawns == w.respawns)
      && (v.respawns == w.respawns || v.respawns == w.respawns + [Respawn(q, stamp, cap, w.now)])
  {
  }

  // The step asks for no respawn of a marked row of `k`.
  predicate Spares(w: World, v: World, k: Key) {
    && w.respawns <= v.respawns
    && (k in w.table && w.table[k].userFlagged ==>
          forall i :: |w.respawns| <= i < |v.respawns| ==> v.respawns[i].key != k)
  }

  lemma BarringReap(w: World, pid: Pid, k: Key)
    requires Barring(w, k) && pid in w.reapers
    ensures Barring(DoReap(w, pid), k) && Spares(w, DoReap(w, pid), k)
  {
    hide Barring; hide MarkedFailed; hide DoMark; hide Charged;
    match w.reapers[pid]
    case Waiting(q) => BarringCheck(w, pid, q, false, k);
    case Looking(q, flagged) => BarringCheck(w, pid, q, flagged, k);
    case GivingUp(q) => BarringGiveUp(w, pid, q, k);
    case Charging(q, spec, cap) => BarringCharge(w, pid, q, spec, cap, k);
    case Marking(q, spec, cap, count, stamp) => BarringMark(w, pid, q, spec, cap, count, stamp, k);
  }

  lemma BarringRest(w: World, a: Act, k: Key)
    requires Barring(w, k) && Enabled(w, a) && Other(a)
    ensures Barring(Do(w, a), k) && Spares(w, Do(w, a), k)
  {
    hide Do;
    OtherFrame(w, a);
  }

  lemma BarringKept(w: World, a: Act, k: Key)
    requires Ids(w) && Final(w.judges) && Barring(w, k) && Enabled(w, a) && Timely(w, a, k)
    ensures Barring(Do(w, a), k) && Spares(w, Do(w, a), k)
  {
    hide Ids; hide Final; hide Barring; hide Timely; hide DoLoad; hide DoJudge; hide DoReap;
    match a
    case LoadStep(pid, spawned) => BarringLoad(w, pid, spawned, k); LoadFrame(w, pid, spawned);
    case JudgeStep(seat, finding) => BarringJudge(w, seat, finding, k); JudgeFrame(w, seat, finding);
    case ReapStep(pid) => BarringReap(w, pid, k);
    case _ => BarringRest(w, a, k); hide Do;
  }

  lemma {:induction false} BarringRun(ws: seq<World>, acts: seq<Act>, k: Key, i: nat)
    requires Run(ws, acts) && Booted(ws[0]) && i <= |acts| && TimelyFrom(ws, acts, k, 0, i)
    ensures Barring(ws[i], k)
  {
    hide Do; hide Enabled; hide Timely;
    if i > 0 {
      BarringRun(ws, acts, k, i - 1);
      RunsAreHeard(ws, acts, i - 1);
      HeardIs(ws[i - 1]);
      hide Ids; hide Heard; hide Final; hide Barring;
      BarringKept(ws[i - 1], acts[i - 1], k);
    }
  }

  // The row of `k` is there, and no insert takes its mark off.
  ghost predicate StaysMarked(ws: seq<World>, acts: seq<Act>, k: Key, i: nat, j: nat)
    requires Run(ws, acts) && i <= j <= |acts|
  {
    (forall m :: i <= m <= j ==> k in ws[m].table) && forall m :: i <= m < j ==> !Unmarks(ws[m], acts[m], k)
  }

  /**
   A marked row stays marked, in every run, while it exists and no insert was computed from
   a row without the mark, whoever loads the model and however often: every new row takes
   the mark over from the row it was computed from.
   */
  lemma {:induction false} MarkStays(ws: seq<World>, acts: seq<Act>, k: Key, i: nat, j: nat)
    requires Run(ws, acts) && i <= j <= |acts| && StaysMarked(ws, acts, k, i, j)
    requires k in ws[i].table && ws[i].table[k].userFlagged
    ensures k in ws[j].table && ws[j].table[k].userFlagged
  {
    hide Do; hide Enabled; hide Unmarks;
    if i < j {
      MarkStays(ws, acts, k, i, j - 1);
      MarkStaysExactly(ws[j - 1], acts[j - 1], k);
    }
  }

  /** And if no insert into its row came too late either, its model is never respawned. */
  lemma {:induction false} MarkStopsRespawns(ws: seq<World>, acts: seq<Act>, k: Key, i: nat, j: nat)
    requires Run(ws, acts) && Booted(ws[0]) && i <= j <= |acts| && StaysMarked(ws, acts, k, i, j)
    requires TimelyFrom(ws, acts, k, 0, j)
    requires k in ws[i].table && ws[i].table[k].userFlagged
    ensures k in ws[j].table && ws[j].table[k].userFlagged
    ensures ws[i].respawns <= ws[j].respawns
    ensures forall x :: |ws[i].respawns| <= x < |ws[j].respawns| ==> ws[j].respawns[x].key != k
  {
    hide Do; hide Enabled; hide Unmarks; hide Timely; hide Booted;
    MarkStays(ws, acts, k, i, j);
    if i < j {
      MarkStopsRespawns(ws, acts, k, i, j - 1);
      BarringRun(ws, acts, k, j - 1);
      RunsAreHeard(ws, acts, j - 1);
      HeardIs(ws[j - 1]);
      hide Ids; hide Heard; hide Final; hide Barring;
      BarringKept(ws[j - 1], acts[j - 1], k);
      SparesOn(ws[i].respawns, ws[j - 1], ws[j], k);
    }
  }

  lemma SparesOn(rs: seq<Respawn>, w: World, v: World, k: Key)
    requires Spares(w, v, k) && k in w.table && w.table[k].userFlagged
    requires rs <= w.respawns && forall x :: |rs| <= x < |w.respawns| ==> w.respawns[x].key != k
    ensures rs <= v.respawns && forall x :: |rs| <= x < |v.respawns| ==> v.respawns[x].key != k
  {
  }

  // ----- the mark on disk ---------------------------------------------------

  predicate Bars(s: Stored) { s.userFlagged || s.persistedRestartCount >= s.maxRestarts }

  // The manifest of `k` is one the boot sweep will not replay.
  predicate Barred(store: Manifests, k: Key) { k in store && Bars(store[k]) }

  // A write to `k` reaches the disk that leaves no barred manifest behind.
  predicate Unbars(a: Act, k: Key) {
    a.Commit? && a.ok && a.draft.write.key == k && !(a.draft.manifest.Some? && Bars(a.draft.manifest.value))
  }

  /** The exact step: a barred manifest stays barred if and only if no such write reaches the disk. */
  lemma BarStaysExactly(w: World, a: Act, k: Key)
    requires Enabled(w, a) && Barred(w.store, k)
    ensures Barred(Do(w, a).store, k) <==> !Unbars(a, k)
  {
    hide DoLoad; hide DoJudge; hide DoReap; hide Bars; hide OtherBegins;
    match a
    case LoadStep(pid, spawned) => LoadFrame(w, pid, spawned);
    case JudgeStep(seat, finding) => JudgeFrame(w, seat, finding);
    case ReapStep(pid) => ReapFrame(w, pid);
    case Commit(draft, ok) => BarCommit(w, draft, ok, k); hide DoCommit;
    case _ => OtherFrame(w, a); hide Do;
  }

  lemma BarCommit(w: World, draft: Draft, ok: bool, k: Key)
    requires Barred(w.store, k)
    ensures Barred(DoCommit(w, draft, ok).store, k) <==> !Unbars(Commit(draft, ok), k)
  {
    hide Bars;
  }

  // The two writes that are meant to lift a bar: forgetting the model, and the
  // verified-ready reset of a tally that has no mark beside it.
  predicate Lifting(d: Draft) {
    d.write.Forget? || (d.write.Zero? && d.manifest.Some? && !d.manifest.value.userFlagged)
  }

  predicate Lifts(a: Act, k: Key) { a.Commit? && a.ok && a.draft.write.key == k && Lifting(a.draft) }

  // The other writes under way have read the barred manifest.
  predicate DraftsBar(drafts: multiset<Draft>, k: Key) {
    forall d :: d in drafts && d.write.key == k && !Lifting(d) ==> d.manifest.Some? && Bars(d.manifest.value)
  }

  predicate DraftsMarked(drafts: multiset<Draft>, k: Key) {
    forall d :: d in drafts && d.write.key == k && !d.write.Forget? ==> d.manifest.Some? && d.manifest.value.userFlagged
  }

  // What is left of the sweep will not load `k`.
  predicate SweepRefuses(todo: seq<Stored>, held: Option<Stored>, k: Key) {
    && (forall s :: s in todo && s.spec.modelName == k ==> !Replayable(s))
    && (held.Some? ==> held.value.spec.modelName != k)
  }

  predicate Shut(w: World, k: Key) {
    Barred(w.store, k) && DraftsBar(w.drafts, k) && SweepRefuses(w.sweep.todo, w.sweep.held, k)
  }

  predicate Marked(w: World, k: Key) { k in w.store && w.store[k].userFlagged && DraftsMarked(w.drafts, k) }

  lemma ShutFetch(w: World, write: StoreWrite, k: Key)
    requires Barred(w.store, k)
    ensures DraftsBar(w.drafts, k) ==> DraftsBar(DoFetch(w, write).drafts, k)
    ensures Marked(w, k) ==> DraftsMarked(DoFetch(w, write).drafts, k)
  {
  }

  lemma ShutCommit(w: World, draft: Draft, ok: bool, k: Key)
    requires draft in w.drafts && !Lifts(Commit(draft, ok), k)
    ensures Barred(w.store, k) && DraftsBar(w.drafts, k) ==>
      Barred(DoCommit(w, draft, ok).store, k) && DraftsBar(DoCommit(w, draft, ok).drafts, k)
    ensures Marked(w, k) ==> Marked(DoCommit(w, draft, ok), k)
  {
    hide Bars;
  }

  lemma ShutCrash(store: Manifests, listing: seq<Stored>, k: Key)
    requires Barred(store, k) && IsListing(listing, store)
    ensures SweepRefuses(listing, None, k) && DraftsBar(multiset{}, k) && DraftsMarked(multiset{}, k)
  {
  }

  lemma ShutExamine(w: World, seenAlive: bool, k: Key)
    requires SweepRefuses(w.sweep.todo, w.sweep.held, k) && w.sweep.todo != []
    ensures var v := DoExamine(w, seenAlive); SweepRefuses(v.sweep.todo, v.sweep.held, k)
  {
  }

  lemma ShutLaunch(todo: seq<Stored>, held: Option<Stored>, k: Key)
    requires SweepRefuses(todo, held, k)
    ensures SweepRefuses(todo, None, k) && (held.Some? ==> held.value.spec.modelName != k)
  {
  }

  lemma ShutBoot(w: World, a: Act, k: Key)
    requires Shut(w, k) && Enabled(w, a) && (a.Crash? || a.SweepExamines? || a.SweepLaunches?)
    ensures Shut(Do(w, a), k)
    ensures Marked(w, k) ==> Marked(Do(w, a), k)
    ensures a.SweepLaunches? ==> w.sweep.held.value.spec.modelName != k
  {
    hide Barred; hide DraftsBar; hide DraftsMarked; hide SweepRefuses; hide IsListing;
    hide DoLoad; hide DoJudge; hide DoReap; hide DoFetch; hide DoCommit; hide DoRpcLoad; hide DoExamine;
    match a
    case Crash(listing) => ShutCrash(w.store, listing, k);
    case SweepExamines(seenAlive) => ShutExamine(w, seenAlive, k); ExamineFrame(w, seenAlive);
    case SweepLaunches(_) => ShutLaunch(w.sweep.todo, w.sweep.held, k);
  }

  lemma ExamineFrame(w: World, seenAlive: bool)
    requires w.sweep.todo != []
    ensures DoExamine(w, seenAlive).store == w.store && DoExamine(w, seenAlive).drafts == w.drafts
  {
  }

  lemma ShutWrite(w: World, a: Act, k: Key)
    requires Shut(w, k) && Enabled(w, a) && !Lifts(a, k) && (a.Fetch? || a.Commit?)
    ensures Shut(Do(w, a), k)
    ensures Marked(w, k) ==> Marked(Do(w, a), k)
  {
    hide Lifts; hide Barred; hide DraftsBar; hide DraftsMarked; hide SweepRefuses; hide DoFetch; hide DoCommit;
    hide DoLoad; hide DoJudge; hide DoReap; hide DoRpcLoad; hide DoLaunch; hide DoExamine;
    match a
    case Fetch(write) => FetchFrame(w, write); ShutFetch(w, write, k);
    case Commit(draft, ok) => CommitFrame(w, draft, ok); ShutCommit(w, draft, ok, k);
  }

  lemma ShutKept(w: World, a: Act, k: Key)
    requires Shut(w, k) && Enabled(w, a) && !Lifts(a, k)
    ensures Shut(Do(w, a), k)
    ensures Marked(w, k) ==> Marked(Do(w, a), k)
    ensures a.SweepLaunches? ==> w.sweep.held.value.spec.modelName != k
  {
    hide Lifts; hide Barred; hide DraftsBar; hide DraftsMarked; hide SweepRefuses; hide DoLoad; hide DoJudge;
    hide DoReap;
    hide OtherBegins;
    match a
    case LoadStep(pid, spawned) => LoadFrame(w, pid, spawned);
    case JudgeStep(seat, finding) => JudgeFrame(w, seat, finding);
    case ReapStep(pid) => ReapFrame(w, pid);
    case Fetch(_) => ShutWrite(w, a, k); hide Do;
    case Commit(_, _) => ShutWrite(w, a, k); hide Do;
    case Crash(_) => ShutBoot(w, a, k); hide Do;
    case SweepExamines(_) => ShutBoot(w, a, k); hide Do;
    case SweepLaunches(_) => ShutBoot(w, a, k); hide Do;
    case _ => OtherFrame(w, a); hide Do;
  }

  // No reaper has passed the look at the manifest.
  predicate NoneCharged(reapers: map<Pid, Reaper>, k: Key) {
    forall p :: p in reapers && reapers[p].key == k ==> !reapers[p].Charging? && !reapers[p].Marking?
  }

  // A reaper that fires after the crash finds the manifest flagged and gives up.
  lemma NoneChargedKept(w: World, a: Act, k: Key)
    requires NoneCharged(w.reapers, k) && k in w.store && w.store[k].userFlagged && Enabled(w, a)
    ensures NoneCharged(Do(w, a).reapers, k)
    ensures w.respawns <= Do(w, a).respawns
    ensures forall x :: |w.respawns| <= x < |Do(w, a).respawns| ==> Do(w, a).respawns[x].key != k
  {
    hide DoLoad; hide DoReap; hide DoJudge; hide NoneCharged; hide OtherBegins;
    NobodyCharged(k);
    match a
    case LoadStep(pid, spawned) => NoneChargedLoad(w, pid, spawned, k);
    case JudgeStep(seat, finding) => JudgeFrame(w, seat, finding);
    case ReapStep(pid) => NoneChargedReap(w, pid, k);
    case _ => OtherFrame(w, a); hide Do;
  }

  lemma NobodyCharged(k: Key)
    ensures NoneCharged(map[], k)
  {
  }

  lemma NoneChargedSpawn(w: World, pid: Pid, spec: Spec, k: Key)
    requires NoneCharged(w.reapers, k)
    ensures NoneCharged(w.reapers[pid := Waiting(spec.modelName)], k)
  {
  }

  lemma NoneChargedLoad(w: World, pid: Pid, spawned: bool, k: Key)
    requires NoneCharged(w.reapers, k) && pid in w.loads
    ensures var v := DoLoad(w, pid, spawned); NoneCharged(v.reapers, k) && v.respawns == w.respawns
  {
    hide NoneCharged; hide OwnsRow; hide EntryFor; hide ChargesAfter; hide Affirmed; hide Freed;
    LoadFrame(w, pid, spawned);
    NoneChargedSpawn(w, pid, w.loads[pid].spec, k);
  }

  lemma NoneChargedStep(reapers: map<Pid, Reaper>, pid: Pid, r: Reaper, k: Key)
    requires NoneCharged(reapers, k) && (r.key == k ==> !r.Charging? && !r.Marking?)
    ensures NoneCharged(reapers[pid := r], k) && NoneCharged(reapers - {pid}, k)
  {
  }

  lemma NoneChargedReap(w: World, pid: Pid, k: Key)
    requires NoneCharged(w.reapers, k) && k in w.store && w.store[k].userFlagged && pid in w.reapers
    ensures var v := DoReap(w, pid); NoneCharged(v.reapers, k) && w.respawns <= v.respawns
    ensures var v := DoReap(w, pid); forall x :: |w.respawns| <= x < |v.respawns| ==> v.respawns[x].key != k
  {
    hide NoneCharged; hide DoCheck; hide DoCharge; hide DoMark;
    ReaperOther(w.reapers, pid, k);
    NoneChargedStep(w.reapers, pid, Waiting(k), k);
    match w.reapers[pid]
    case Waiting(q) => NoneChargedCheck(w, pid, q, k);
    case Looking(q, flagged) => NoneChargedStep(w.reapers, pid, CheckedReaper(w.store, q, flagged), k);
    case GivingUp(_) =>
    case Charging(q, spec, cap) => NoneChargedCharge(w, pid, q, spec, cap, k);
    case Marking(q, spec, cap, count, stamp) =>
      MarkRespawns(w, pid, q, spec, cap, count, stamp);
      MarkEnds(w, pid, q, spec, cap, count, stamp);
  }

  lemma ReaperOther(reapers: map<Pid, Reaper>, pid: Pid, k: Key)
    requires NoneCharged(reapers, k) && pid in reapers
    ensures reapers[pid].Charging? || reapers[pid].Marking? ==> reapers[pid].key != k
  {
  }

  lemma NoneChargedCheck(w: World, pid: Pid, q: Key, k: Key)
    requires NoneCharged(w.reapers, k)
    ensures NoneCharged(DoCheck(w, pid, q).reapers, k) && DoCheck(w, pid, q).respawns == w.respawns
  {
  }

  lemma NoneChargedCharge(w: World, pid: Pid, q: Key, spec: Spec, cap: nat, k: Key)
    requires NoneCharged(w.reapers, k) && q != k
    ensures NoneCharged(DoCharge(w, pid, q, spec, cap).reapers, k)
    ensures DoCharge(w, pid, q, spec, cap).respawns == w.respawns
  {
    hide Charged; hide ChargedRow;
  }

  lemma MarkEnds(w: World, pid: Pid, q: Key, spec: Spec, cap: nat, count: nat, stamp: int)
    ensures DoMark(w, pid, q, spec, cap, count, stamp).reapers == w.reapers - {pid}
  {
    hide MarkedExhausted; hide MarkedRestarting; hide Ours;
  }

  ghost predicate NeverLifted(acts: seq<Act>, k: Key, c: nat, j: nat)
    requires c <= j <= |acts|
  {
    forall m :: c <= m < j ==> !Lifts(acts[m], k)
  }

  /**
   The boot sweep never re-arms a tripped model. Once the trip mark is on disk, or
   only its at-cap tally, no boot sweep after the next crash loads the model, in every
   run and over any number of further crashes, until the model is forgotten or the
   tally reset by a verified `ready`.
   */
  lemma {:induction false} TripSurvivesCrash(ws: seq<World>, acts: seq<Act>, k: Key, c: nat, j: nat)
    requires Run(ws, acts) && c < j <= |acts|
    requires acts[c].Crash? && Barred(ws[c].store, k) && NeverLifted(acts, k, c, j)
    ensures Shut(ws[j], k)
    ensures acts[j - 1].SweepLaunches? ==> ws[j - 1].sweep.held.value.spec.modelName != k
  {
    hide Do; hide Enabled; hide Lifts; hide Shut; hide Barred;
    if j - 1 == c {
      ShutAtCrash(ws[c], acts[c], k);
    } else {
      TripSurvivesCrash(ws, acts, k, c, j - 1);
      ShutKept(ws[j - 1], acts[j - 1], k);
    }
  }

  lemma ShutAtCrash(w: World, a: Act, k: Key)
    requires a.Crash? && Enabled(w, a) && Barred(w.store, k)
    ensures Shut(Do(w, a), k) && NoneCharged(Do(w, a).reapers, k)
    ensures w.store[k].userFlagged ==> Marked(Do(w, a), k)
    ensures Do(w, a).store == w.store && Do(w, a).respawns == w.respawns
  {
    ShutCrash(w.store, a.listing, k);
  }

  /** With the mark itself on disk, the reaper does not respawn the model either, even after an operator's load. */
  lemma {:induction false} MarkSurvivesCrash(ws: seq<World>, acts: seq<Act>, k: Key, c: nat, j: nat)
    requires Run(ws, acts) && c < j <= |acts|
    requires acts[c].Crash? && k in ws[c].store && ws[c].store[k].userFlagged && NeverLifted(acts, k, c, j)
    ensures Shut(ws[j], k) && NoneCharged(ws[j].reapers, k) && Marked(ws[j], k)
    ensures ws[c].respawns <= ws[j].respawns
    ensures forall x :: |ws[c].respawns| <= x < |ws[j].respawns| ==> ws[j].respawns[x].key != k
  {
    hide Do; hide Enabled; hide Lifts; hide Shut; hide NoneCharged; hide DraftsMarked;
    if j - 1 == c {
      ShutAtCrash(ws[c], acts[c], k);
    } else {
      MarkSurvivesCrash(ws, acts, k, c, j - 1);
      ShutKept(ws[j - 1], acts[j - 1], k);
      NoneChargedKept(ws[j - 1], acts[j - 1], k);
    }
  }
}
