/**
 What the next boot finds on disk. A write reads what it keeps of the old manifest
 first and goes to disk later, so the last write to arrive decides, and it may have
 read the manifest before the one it replaces was written.
 */
module WorldDisk {
  import opened Wrappers
  import opened ProcessTables
  import opened StateStore
  import opened World
  import opened WorldFrames

  // The last write to `k` that reached the disk in the steps from `i` to `j`.
  function LastCommit(acts: seq<Act>, k: Key, i: nat, j: nat): Option<Draft>
    requires i <= j <= |acts|
    decreases j
  {
    if i == j then None
    else
      var a := acts[j - 1];
      if a.Commit? && a.ok && a.draft.write.key == k then Some(a.draft) else LastCommit(acts, k, i, j - 1)
  }

  lemma StoreStep(w: World, a: Act, k: Key)
    requires Enabled(w, a)
    ensures Get(Do(w, a).store, k) ==
      if a.Commit? && a.ok && a.draft.write.key == k then a.draft.manifest else Get(w.store, k)
  {
    hide DoLoad; hide DoJudge; hide DoReap; hide OtherBegins;
    match a
    case LoadStep(pid, spawned) => LoadFrame(w, pid, spawned);
    case JudgeStep(seat, finding) => JudgeFrame(w, seat, finding);
    case ReapStep(pid) => ReapFrame(w, pid);
    case Commit(_, _) =>
    case _ => OtherFrame(w, a); hide Do;
  }

  /** In every run a manifest is what the last write to it left, across any number of crashes. */
  lemma {:induction false} StoreIsLastCommit(ws: seq<World>, acts: seq<Act>, k: Key, i: nat, j: nat)
    requires Run(ws, acts) && i <= j <= |acts|
    ensures var last := LastCommit(acts, k, i, j);
      Get(ws[j].store, k) == if last.Some? then last.value.manifest else Get(ws[i].store, k)
  {
    hide Do; hide Enabled;
    if i < j {
      StoreIsLastCommit(ws, acts, k, i, j - 1);
      StoreStep(ws[j - 1], acts[j - 1], k);
    }
  }

  // ----- the trip -----------------------------------------------------------

  // The reaper exhausts the budget of `k`: it marks the row and owes the disk a trip.
  predicate Exhausts(w: World, a: Act, k: Key)
    requires Enabled(w, a)
  {
    a.ReapStep? &&
      var r := w.reapers[a.pid];
      r.Marking? && r.key == k && Ours(w.table, k, a.pid) && r.count >= r.cap
  }

  predicate TripsMark(drafts: multiset<Draft>) {
    forall d :: d in drafts && d.write.Trip? ==> d.manifest.Some? && d.manifest.value.userFlagged
  }

  lemma TripsMarkWrites(w: World, write: StoreWrite, draft: Draft, ok: bool)
    requires TripsMark(w.drafts)
    ensures TripsMark(DoFetch(w, write).drafts) && TripsMark(DoCommit(w, draft, ok).drafts)
  {
  }

  lemma TripsMarkKept(w: World, a: Act)
    requires Enabled(w, a) && TripsMark(w.drafts)
    ensures TripsMark(Do(w, a).drafts)
  {
    hide DoLoad; hide DoJudge; hide DoReap; hide TripsMark; hide DoFetch; hide DoCommit;
    assert TripsMark(multiset{}) by { NothingToMark(); }
    match a
    case LoadStep(pid, spawned) => LoadFrame(w, pid, spawned);
    case JudgeStep(seat, finding) => JudgeFrame(w, seat, finding);
    case ReapStep(pid) => ReapFrame(w, pid);
    case Fetch(write) => TripsMarkWrites(w, write, Draft(write, None), true);
    case Commit(draft, ok) => TripsMarkWrites(w, draft.write, draft, ok);
    case _ => OtherFrame(w, a); hide Do;
  }

  lemma NothingToMark()
    ensures TripsMark(multiset{})
  {
  }

  lemma {:induction false} TripsAlwaysMark(ws: seq<World>, acts: seq<Act>, i: nat)
    requires Run(ws, acts) && Booted(ws[0]) && i <= |acts|
    ensures TripsMark(ws[i].drafts)
  {
    hide Do; hide Enabled;
    if i > 0 {
      TripsAlwaysMark(ws, acts, i - 1);
      TripsMarkKept(ws[i - 1], acts[i - 1]);
    }
  }

  // All writes to `k` that reach the disk between `i` and `j` are attempts at a trip.
  predicate OnlyTrips(acts: seq<Act>, k: Key, i: nat, j: nat)
    requires i <= j <= |acts|
  {
    forall m :: i <= m < j && acts[m].Commit? && acts[m].ok && acts[m].draft.write.key == k ==>
      acts[m].draft.write.Trip?
  }

  lemma {:induction false} LastIsTrip(ws: seq<World>, acts: seq<Act>, k: Key, i: nat, j: nat)
    requires Run(ws, acts) && Booted(ws[0]) && i <= j <= |acts| && OnlyTrips(acts, k, i, j)
    ensures var last := LastCommit(acts, k, i, j);
      last.Some? ==> last.value.manifest.Some? && last.value.manifest.value.userFlagged
  {
    hide Do;
    if i < j {
      LastIsTrip(ws, acts, k, i, j - 1);
      TripsAlwaysMark(ws, acts, j - 1);
    }
  }

  /**
   What the next boot makes of a model, in every run: the manifest it finds is the one
   the last write before the crash left.
   */
  lemma BootFindsLastCommit(ws: seq<World>, acts: seq<Act>, k: Key, i: nat, c: nat, s: Stored)
    requires Run(ws, acts) && i <= c < |acts| && acts[c].Crash? && s in acts[c].listing && s.spec.modelName == k
    ensures var last := LastCommit(acts, k, i, c);
      Some(s) == if last.Some? then last.value.manifest else Get(ws[i].store, k)
  {
    StoreIsLastCommit(ws, acts, k, i, c);
    hide Do;
  }

  /**
   When a trip bars the sweep, exactly: in every run, of a model that the sweep would have
   replayed when its budget ran out, and to which nothing but the trip was written until the
   crash, the manifest the next boot finds is replayable if and only if no attempt at the
   trip had reached the disk by then. The mark and the tally are one write, so a trip that
   did not reach the disk leaves no tally behind for the at-cap check either.
   */
  lemma TripBarsBootIffWritten(ws: seq<World>, acts: seq<Act>, k: Key, i: nat, c: nat, s: Stored)
    requires Run(ws, acts) && Booted(ws[0]) && i < c < |acts| && Exhausts(ws[i], acts[i], k)
    requires k in ws[i].store && Replayable(ws[i].store[k]) && OnlyTrips(acts, k, i + 1, c)
    requires acts[c].Crash? && s in acts[c].listing && s.spec.modelName == k
    ensures Trip(k, ws[i].reapers[acts[i].pid].cap, 3) in ws[i + 1].writes
    ensures Replayable(s) <==> LastCommit(acts, k, i + 1, c).None?
  {
    ReapFrame(ws[i], acts[i].pid);
    TripOwed(ws[i], acts[i], k);
    BootFindsLastCommit(ws, acts, k, i + 1, c, s);
    LastIsTrip(ws, acts, k, i + 1, c);
    hide DoReap; hide Exhausts; hide LastCommit;
  }

  lemma TripOwed(w: World, a: Act, k: Key)
    requires Enabled(w, a) && Exhausts(w, a, k)
    ensures Trip(k, w.reapers[a.pid].cap, 3) in DoReap(w, a.pid).writes
  {
    hide MarkedExhausted;
  }
}
