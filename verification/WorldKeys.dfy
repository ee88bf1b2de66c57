/** Manifests, pending writes and reapers are filed under the model they are about. */
module WorldKeys {
  import opened Wrappers
  import opened ProcessTables
  import opened StateStore
  import opened World
  import opened WorldFrames

  predicate StoreKeyed(store: Manifests) { forall k :: k in store ==> store[k].spec.modelName == k }

  predicate WritesKeyed(writes: multiset<StoreWrite>) {
    forall x :: x in writes && x.Desire? ==> x.spec.modelName == x.key
  }

  predicate ReapersKeyed(reapers: map<Pid, Reaper>) {
    forall p :: p in reapers && (reapers[p].Charging? || reapers[p].Marking?) ==>
      reapers[p].spec.modelName == reapers[p].key
  }

  predicate DraftsKeyed(drafts: multiset<Draft>) {
    forall d :: d in drafts && d.manifest.Some? ==> d.manifest.value.spec.modelName == d.write.key
  }

  predicate Keyed(w: World) {
    StoreKeyed(w.store) && WritesKeyed(w.writes) && DraftsKeyed(w.drafts) && ReapersKeyed(w.reapers)
  }

  lemma KeyedLoad(w: World, pid: Pid, spawned: bool)
    requires Keyed(w) && pid in w.loads
    ensures Keyed(DoLoad(w, pid, spawned))
  {
    hide Keyed; hide DoSpawn; hide DoAbandon; hide DoPlace; hide DoConfirm; hide DoSettle;
    match w.loads[pid]
    case Calling(spec, origin) => KeyedSpawn(w, pid, spec, origin);
    case Reading(spec, origin) => KeyedRead(w, pid, Placing(spec, origin, Get(w.table, spec.modelName)));
    case Placing(spec, origin, prev) => KeyedPlace(w, pid, spec, origin, prev);
    case Settling(spec, origin, inherit, prev, _) => KeyedSettle(w, pid, spec, origin, inherit, prev);
  }

  lemma KeyedSpawn(w: World, pid: Pid, spec: Spec, origin: Origin)
    requires Keyed(w)
    ensures Keyed(DoSpawn(w, pid, spec, origin)) && Keyed(DoAbandon(w, pid))
  {
  }

  lemma KeyedRead(w: World, pid: Pid, l: Load)
    requires Keyed(w)
    ensures Keyed(w.(loads := w.loads[pid := l]))
  {
  }

  lemma KeyedPlace(w: World, pid: Pid, spec: Spec, origin: Origin, prev: Option<Row>)
    requires Keyed(w)
    ensures Keyed(DoPlace(w, pid, spec, origin, prev))
  {
    hide EntryFor; hide ChargesAfter; hide Freed; hide StoreKeyed; hide DraftsKeyed; hide ReapersKeyed;
  }

  lemma KeyedSettle(w: World, pid: Pid, spec: Spec, origin: Origin, inherit: bool, prev: Option<Row>)
    requires Keyed(w)
    ensures Keyed(DoSettle(w, pid, spec, origin, inherit, prev))
    ensures Keyed(DoConfirm(w, pid, spec, origin, inherit, prev))
  {
    hide EntryFor; hide ChargesAfter; hide Freed; hide OwnsRow; hide StoreKeyed; hide DraftsKeyed; hide ReapersKeyed;
  }

  lemma KeyedJudge(w: World, seat: Seat, finding: Finding)
    requires Keyed(w) && seat in w.judges
    ensures Keyed(DoJudge(w, seat, finding))
  {
    var j := w.judges[seat];
    JudgeFrame(w, seat, finding);
    if j.Landing? {
      assert Keyed(Land(w, seat, j.spec, j.inherit, j.verdict, j.prev));
      hide Keyed;
    }
  }

  lemma KeyedCheck(w: World, pid: Pid, k: Key)
    requires Keyed(w)
    ensures Keyed(DoCheck(w, pid, k))
  {
  }

  lemma KeyedLook(w: World, pid: Pid, k: Key, flagged: bool)
    requires Keyed(w)
    ensures ReapersKeyed(w.reapers[pid := CheckedReaper(w.store, k, flagged)])
  {
  }

  lemma KeyedCharge(w: World, pid: Pid, k: Key, spec: Spec, cap: nat)
    requires Keyed(w) && spec.modelName == k
    ensures Keyed(DoCharge(w, pid, k, spec, cap))
  {
  }

  lemma KeyedMark(w: World, pid: Pid, k: Key, spec: Spec, cap: nat, count: nat, stamp: int)
    requires Keyed(w)
    ensures Keyed(DoMark(w, pid, k, spec, cap, count, stamp))
  {
  }

  lemma KeyedReap(w: World, pid: Pid)
    requires Keyed(w) && pid in w.reapers
    ensures Keyed(DoReap(w, pid))
  {
    match w.reapers[pid]
    case Waiting(k) => KeyedCheck(w, pid, k); hide Keyed;
    case Looking(k, flagged) => KeyedLook(w, pid, k, flagged); hide ReapersKeyed;
    case GivingUp(k) =>
    case Charging(k, spec, cap) => KeyedCharge(w, pid, k, spec, cap); hide Keyed;
    case Marking(k, spec, cap, count, stamp) => KeyedMark(w, pid, k, spec, cap, count, stamp); hide Keyed;
  }

  lemma KeyedFetch(w: World, write: StoreWrite)
    requires Keyed(w) && write in w.writes
    ensures Keyed(DoFetch(w, write))
  {
    hide ReapersKeyed; hide ValidKey;
    if Readable(w.store, write) {
      RevisionKeyed(w.store, w.writes, write);
      hide Revision;
    }
    assert DraftsKeyed(w.drafts + Drafted(w.store, write));
  }

  lemma RevisionKeyed(store: Manifests, writes: multiset<StoreWrite>, write: StoreWrite)
    requires StoreKeyed(store) && WritesKeyed(writes) && write in writes && Readable(store, write)
    ensures Revision(store, write).Some? ==> Revision(store, write).value.spec.modelName == write.key
  {
  }

  lemma KeyedCommit(w: World, draft: Draft, ok: bool)
    requires Keyed(w) && draft in w.drafts
    ensures Keyed(DoCommit(w, draft, ok))
  {
  }

  lemma OneMoreKeyed(writes: multiset<StoreWrite>, write: StoreWrite)
    requires WritesKeyed(writes) && WritesKeyed(multiset{write})
    ensures WritesKeyed(writes + multiset{write})
  {
  }

  lemma OtherKeyed(w: World, a: Act)
    requires Keyed(w)
    ensures WritesKeyed(OtherWrites(w, a))
  {
    hide StoreKeyed; hide DraftsKeyed; hide ReapersKeyed; hide Answered;
    match a
    case RpcLoad(spec, _, _) => OneMoreKeyed(w.writes, Desire(spec.modelName, spec));
    case Unload(k, _) => OneMoreKeyed(w.writes, Forget(k));
    case _ =>
  }

  lemma KeyedRest(w: World, a: Act)
    requires Keyed(w) && Enabled(w, a) && Other(a) && !a.Fetch? && !a.Commit?
    ensures Keyed(Do(w, a))
  {
    assert ReapersKeyed(map[]) && DraftsKeyed(multiset{});
    hide Do; hide OtherBegins; hide OtherWrites; hide StoreKeyed; hide DraftsKeyed; hide ReapersKeyed; hide WritesKeyed;
    OtherFrame(w, a);
    OtherKeyed(w, a);
  }

  lemma KeyedKept(w: World, a: Act)
    requires Keyed(w) && Enabled(w, a)
    ensures Keyed(Do(w, a))
  {
    hide Keyed;
    match a
    case LoadStep(pid, spawned) => KeyedLoad(w, pid, spawned);
    case JudgeStep(seat, finding) => KeyedJudge(w, seat, finding);
    case ReapStep(pid) => KeyedReap(w, pid);
    case Fetch(write) => KeyedFetch(w, write);
    case Commit(draft, ok) => KeyedCommit(w, draft, ok);
    case _ => KeyedRest(w, a);
  }
}
