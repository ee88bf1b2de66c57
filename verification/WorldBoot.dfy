/** The boot sweep: what it may load, how many loads it has in flight, and the attempts at a trip write. */
module WorldBoot {
  import opened Wrappers
  import opened ProcessTables
  import opened StateStore
  import opened World
  import opened WorldFrames

  // Every boot load in flight holds a permit, and there are two.
  predicate Permits(loads: map<Pid, Load>, running: set<Pid>) {
    |running| <= 2 && forall p :: p in loads && loads[p].origin.Boot? ==> p in running
  }

  function BootLoads(w: World): set<Pid> {
    set p | p in w.loads && w.loads[p].origin.Boot?
  }

  predicate Metered(w: World) {
    Permits(w.loads, w.sweep.running) && (w.sweep.held.Some? ==> Replayable(w.sweep.held.value))
  }

  lemma PermitReturned(running: set<Pid>, p: Pid)
    ensures |running - {p}| <= |running|
  {
    if p in running {
      assert running == (running - {p}) + {p};
    } else {
      assert running - {p} == running;
    }
  }

  lemma PermitKept(loads: map<Pid, Load>, running: set<Pid>, pid: Pid, l: Load)
    requires Permits(loads, running) && pid in loads && l.origin == loads[pid].origin
    ensures Permits(loads[pid := l], running) && Permits(loads - {pid}, running - {pid})
  {
    PermitReturned(running, pid);
  }

  lemma MeteredPlace(w: World, pid: Pid, spec: Spec, origin: Origin, prev: Option<Row>)
    requires Metered(w) && pid in w.loads && w.loads[pid] == Placing(spec, origin, prev)
    ensures var v := DoPlace(w, pid, spec, origin, prev); Permits(v.loads, v.sweep.running)
  {
    hide Permits; hide EntryFor; hide ChargesAfter; hide Affirmed;
    PermitKept(w.loads, w.sweep.running, pid, Settling(spec, origin, Inherits(prev), prev, false));
  }

  lemma MeteredSettle(w: World, pid: Pid, spec: Spec, origin: Origin, inherit: bool, prev: Option<Row>)
    requires Metered(w) && pid in w.loads && w.loads[pid].Settling? && w.loads[pid].origin == origin
    ensures var v := DoSettle(w, pid, spec, origin, inherit, prev); Permits(v.loads, v.sweep.running)
    ensures var v := DoConfirm(w, pid, spec, origin, inherit, prev); Permits(v.loads, v.sweep.running)
  {
    hide Permits; hide EntryFor; hide ChargesAfter; hide Affirmed; hide OwnsRow;
    PermitKept(w.loads, w.sweep.running, pid, Settling(spec, origin, inherit, prev, true));
  }

  lemma MeteredLoad(w: World, pid: Pid, spawned: bool)
    requires Metered(w) && pid in w.loads
    ensures Permits(DoLoad(w, pid, spawned).loads, DoLoad(w, pid, spawned).sweep.running)
  {
    hide Permits; hide DoPlace; hide DoSettle; hide DoConfirm;
    match w.loads[pid]
    case Calling(spec, origin) => PermitKept(w.loads, w.sweep.running, pid, Reading(spec, origin));
    case Reading(spec, origin) =>
      PermitKept(w.loads, w.sweep.running, pid, Placing(spec, origin, Get(w.table, spec.modelName)));
    case Placing(spec, origin, prev) => MeteredPlace(w, pid, spec, origin, prev);
    case Settling(spec, origin, inherit, prev, _) => MeteredSettle(w, pid, spec, origin, inherit, prev);
  }

  lemma MeteredLaunch(w: World, pid: Pid)
    requires Metered(w) && w.sweep.held.Some? && |w.sweep.running| < 2
    ensures Permits(DoLaunch(w, pid).loads, DoLaunch(w, pid).sweep.running)
  {
  }

  lemma MeteredBegin(w: World, pid: Pid, spec: Spec, origin: Origin)
    requires Permits(w.loads, w.sweep.running) && !origin.Boot?
    ensures Permits(w.loads[pid := Calling(spec, origin)], w.sweep.running)
  {
  }

  lemma MeteredKept(w: World, a: Act)
    requires Metered(w) && Enabled(w, a)
    ensures Metered(Do(w, a))
  {
    hide Permits; hide Replayable; hide DoLoad; hide DoJudge; hide DoReap;
    match a
    case LoadStep(pid, spawned) => LoadFrame(w, pid, spawned); MeteredLoad(w, pid, spawned);
    case JudgeStep(seat, finding) => JudgeFrame(w, seat, finding);
    case ReapStep(pid) => ReapFrame(w, pid);
    case RpcLoad(spec, pid, _) => MeteredBegin(w, pid, spec, Rpc);
    case Restart(k, pid) => MeteredBegin(w, pid, w.table[k].spec, Operator);
    case Dispatch(pid) => MeteredBegin(w, pid, w.queue[0], Supervisor);
    case SweepLaunches(pid) => MeteredLaunch(w, pid);
    case Crash(_) => NothingInFlight();
    case SweepExamines(_) =>
    case _ => OtherFrame(w, a); hide Do;
  }

  lemma NothingInFlight()
    ensures Permits(map[], {})
  {
  }

  lemma {:induction false} MeteredRun(ws: seq<World>, acts: seq<Act>, i: nat)
    requires Run(ws, acts) && Booted(ws[0]) && i <= |acts|
    ensures Metered(ws[i])
  {
    if i > 0 {
      MeteredRun(ws, acts, i - 1);
      MeteredKept(ws[i - 1], acts[i - 1]);
    }
  }

  /**
   In every run at most two boot loads are in flight, from before their spawn until
   they return, and the sweep launches only manifests that are desired, unmarked and
   below their cap.
   */
  lemma AtMostTwoBootLoads(ws: seq<World>, acts: seq<Act>, i: nat)
    requires Run(ws, acts) && Booted(ws[0]) && i <= |acts|
    ensures |BootLoads(ws[i])| <= 2
    ensures i < |acts| && acts[i].SweepLaunches? ==>
      var s := ws[i].sweep.held.value; s.desired && !s.userFlagged && s.persistedRestartCount < s.maxRestarts
  {
    MeteredRun(ws, acts, i);
    Subset(BootLoads(ws[i]), ws[i].sweep.running);
  }

  // The examination that put the held manifest aside: since then nothing took its place.
  lemma {:induction false} HeldSince(ws: seq<World>, acts: seq<Act>, i: nat) returns (m: nat)
    requires Run(ws, acts) && Booted(ws[0]) && i <= |acts| && ws[i].sweep.held.Some?
    ensures m < i && acts[m].SweepExamines? && ws[m + 1].sweep.held == ws[i].sweep.held
    ensures var k := ws[i].sweep.held.value.spec.modelName;
      !(k in ws[m].table && acts[m].seenAlive) && !HoldsLive(ws[m], k)
  {
    hide Do; hide Enabled;
    HeldStep(ws[i - 1], acts[i - 1]);
    if acts[i - 1].SweepExamines? {
      m := i - 1;
    } else {
      m := HeldSince(ws, acts, i - 1);
    }
  }

  lemma HeldStep(w: World, a: Act)
    requires Enabled(w, a)
    ensures var h := Do(w, a).sweep.held;
      if a.SweepExamines? then h.Some? ==>
        var k := h.value.spec.modelName; !(k in w.table && a.seenAlive) && !HoldsLive(w, k)
      else h.Some? ==> h == w.sweep.held
  {
    hide DoLoad; hide DoJudge; hide DoReap; hide Replayable; hide OtherBegins;
    match a
    case LoadStep(pid, spawned) => LoadFrame(w, pid, spawned);
    case JudgeStep(seat, finding) => JudgeFrame(w, seat, finding);
    case ReapStep(pid) => ReapFrame(w, pid);
    case Crash(_) =>
    case SweepExamines(_) =>
    case SweepLaunches(_) =>
    case _ => OtherFrame(w, a); hide Do;
  }

  /**
   In every run, each manifest the sweep launches was examined before, and then its model
   had no live process. Between the examination and the permit it may get one: the
   sweep does not look again.
   */
  lemma LaunchedWasNotAlive(ws: seq<World>, acts: seq<Act>, i: nat) returns (m: nat)
    requires Run(ws, acts) && Booted(ws[0]) && i < |acts| && acts[i].SweepLaunches?
    ensures m < i && acts[m].SweepExamines? && ws[m + 1].sweep.held == ws[i].sweep.held && ws[i].sweep.held.Some?
    ensures !HoldsLive(ws[m], ws[i].sweep.held.value.spec.modelName)
  {
    m := HeldSince(ws, acts, i);
  }

  lemma {:induction false} Subset(a: set<Pid>, b: set<Pid>)
    requires a <= b
    ensures |a| <= |b|
  {
    if a != {} {
      var x :| x in a;
      Subset(a - {x}, b - {x});
    }
  }

  // The attempts at a pending trip write, ended by the first that the disk takes.
  function Attempts(w: World, k: Key, tally: nat, disk: seq<bool>): World
    requires disk != [] && Trip(k, tally, |disk|) in w.writes
    decreases |disk|
  {
    var v := DoPersist(w, Trip(k, tally, |disk|), disk[0]);
    if (disk[0] && ValidKey(k) && k in w.store) || |disk| == 1 then v
    else
      Retried(w, k, tally, |disk|, disk[0]);
      Attempts(v, k, tally, disk[1..])
  }

  lemma Retried(w: World, k: Key, tally: nat, tries: nat, ok: bool)
    requires Trip(k, tally, tries) in w.writes
    ensures var v := DoPersist(w, Trip(k, tally, tries), ok);
      && v.table == w.table && v.queue == w.queue
      && v.store == (if ok && ValidKey(k) then Tripped(w.store, k, tally) else w.store)
      && (tries > 1 && !(ok && ValidKey(k) && k in w.store) ==> Trip(k, tally, tries - 1) in v.writes)
  {
    hide ValidKey;
    var write := Trip(k, tally, tries);
    PersistFrame(w, write, ok);
    hide DoPersist;
  }

  lemma {:induction false} AttemptsReachDisk(w: World, k: Key, tally: nat, disk: seq<bool>)
    requires disk != [] && Trip(k, tally, |disk|) in w.writes
    requires ValidKey(k) && k in w.store
    ensures var v := Attempts(w, k, tally, disk);
      && v.table == w.table && v.queue == w.queue
      && v.store == if true in disk then Tripped(w.store, k, tally) else w.store
    decreases |disk|
  {
    Retried(w, k, tally, |disk|, disk[0]);
    assert disk == [disk[0]] + disk[1..];
    if !disk[0] && |disk| > 1 {
      AttemptsReachDisk(DoPersist(w, Trip(k, tally, |disk|), disk[0]), k, tally, disk[1..]);
    }
    hide DoPersist; hide Tripped; hide ValidKey;
  }
}
