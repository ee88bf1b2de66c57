/**
 What each step of the transition system does, spelled out: which row is left with
 which status, what is queued, what goes to disk, who is let in. And over runs: no
 reaper goes away from an open row, and permits are held by boot loads only.
 */
module WorldAnswers {
  import opened Wrappers
  import opened ProcessTables
  import opened StateStore
  import opened World
  import opened WorldFrames
  import opened WorldIds
  import opened WorldVerdicts

  // ----- the reaper ---------------------------------------------------------

  /** It stands down exactly if the row is not its process's, and else takes along whether the row is marked. */
  lemma CheckAnswers(w: World, pid: Pid, k: Key)
    requires Enabled(w, ReapStep(pid)) && w.reapers[pid] == Waiting(k)
    ensures var v := Do(w, ReapStep(pid));
      && v.table == w.table && v.store == w.store && v.queue == w.queue && v.writes == w.writes
      && v.reapers == if k in w.table && w.table[k].pid == pid
                      then w.reapers[pid := Looking(k, w.table[k].userFlagged)] else w.reapers - {pid}
  {
  }

  /** It goes on to respawn exactly if a manifest wants the model and neither it nor the row is marked. */
  lemma LookAnswers(w: World, pid: Pid, k: Key, flagged: bool)
    requires Enabled(w, ReapStep(pid)) && w.reapers[pid] == Looking(k, flagged)
    ensures var v := Do(w, ReapStep(pid));
      && v.table == w.table && v.store == w.store && v.queue == w.queue && v.writes == w.writes
      && v.reapers == w.reapers[pid :=
           if k in w.store && w.store[k].desired && !w.store[k].userFlagged && !flagged
           then Charging(k, w.store[k].spec, w.store[k].maxRestarts) else GivingUp(k)]
  {
  }

  /** Giving up fails the row if it is still this process's and open, and changes nothing else. */
  lemma GiveUpAnswers(w: World, pid: Pid, k: Key)
    requires Enabled(w, ReapStep(pid)) && w.reapers[pid] == GivingUp(k)
    ensures var v := Do(w, ReapStep(pid));
      && v.store == w.store && v.queue == w.queue && v.writes == w.writes && v.reapers == w.reapers - {pid}
      && if k in w.table && w.table[k].pid == pid && (w.table[k].status == Starting || w.table[k].status == Ready) then
           var r := w.table[k];
           v.table == w.table[k := Row(pid, Failed, r.startedAt, r.spec, r.restartCount, r.windowStarts, r.userFlagged)]
         else v.table == w.table
  {
  }

  /** A death is charged to whatever row the model has, once, and to no other; without a row the reaper is done. */
  lemma ChargeAnswers(w: World, pid: Pid, k: Key, spec: Spec, cap: nat)
    requires Enabled(w, ReapStep(pid)) && w.reapers[pid] == Charging(k, spec, cap)
    ensures var v := Do(w, ReapStep(pid));
      && v.store == w.store && v.queue == w.queue && v.writes == w.writes
      && if k in w.table then
           && k in v.table && v.table == w.table[k := v.table[k]] && ChargedOnce(w.table[k], v.table[k], w.now)
           && v.charges == w.charges[k := (if k in w.charges then w.charges[k] else []) + [w.now]]
           && v.reapers == w.reapers[pid := Marking(k, spec, cap, v.table[k].restartCount, w.now)]
         else v.table == w.table && v.charges == w.charges && v.reapers == w.reapers - {pid}
  {
    hide ChargedRow;
    if k in w.table { ChargesOnce(w.table[k], w.now); }
  }

  /**
   The verdict on an open row of this process: at the cap it is exhausted and marked, and the
   trip goes to disk with three attempts; below the cap it waits and its respawn is queued. A
   row that is another's, or not open, is left as it is and nothing is asked for.
   */
  lemma MarkAnswers(w: World, pid: Pid, k: Key, spec: Spec, cap: nat, count: nat, stamp: int)
    requires Enabled(w, ReapStep(pid)) && w.reapers[pid] == Marking(k, spec, cap, count, stamp)
    ensures var v := Do(w, ReapStep(pid));
      && v.store == w.store && v.charges == w.charges && v.reapers == w.reapers - {pid}
      && if k in w.table && w.table[k].pid == pid && (w.table[k].status == Starting || w.table[k].status == Ready) then
           var r := w.table[k];
           if count >= cap then
             && v.table == w.table[k := Row(pid, BudgetExhausted, r.startedAt, r.spec, r.restartCount, r.windowStarts,
                                            true)]
             && v.queue == w.queue && v.respawns == w.respawns && v.writes == w.writes + multiset{Trip(k, cap, 3)}
           else
             && v.table == w.table[k := Row(pid, Restarting, r.startedAt, r.spec, r.restartCount, r.windowStarts,
                                            r.userFlagged)]
             && v.queue == w.queue + [spec] && v.respawns == w.respawns + [Respawn(k, stamp, cap, w.now)]
             && v.writes == w.writes
         else v.table == w.table && v.queue == w.queue && v.respawns == w.respawns && v.writes == w.writes
  {
  }

  // No row shows this process as running.
  predicate NoneOpen(table: map<Key, Row>, pid: Pid) {
    forall q :: q in table && table[q].pid == pid ==> table[q].status != Starting && table[q].status != Ready
  }

  lemma ExitLeavesNone(w: World, pid: Pid)
    requires Ids(w) && pid in w.reapers && Enabled(w, ReapStep(pid)) && pid !in Do(w, ReapStep(pid)).reapers
    ensures NoneOpen(Do(w, ReapStep(pid)).table, pid)
  {
    hide Do; hide Ids; hide ChargedOnce; hide Enabled;
    var k := w.reapers[pid].key;
    RowOfItsModel(w, pid);
    match w.reapers[pid]
    case Waiting(_) => CheckAnswers(w, pid, k);
    case Looking(_, flagged) => LookAnswers(w, pid, k, flagged);
    case GivingUp(_) => GiveUpAnswers(w, pid, k);
    case Charging(_, spec, cap) => ChargeAnswers(w, pid, k, spec, cap);
    case Marking(_, spec, cap, count, stamp) => MarkAnswers(w, pid, k, spec, cap, count, stamp);
  }

  lemma ReapsAReaper(w: World, pid: Pid)
    requires Enabled(w, ReapStep(pid))
    ensures pid in w.reapers
  {
  }

  // A row of the dead process is that of its model.
  lemma RowOfItsModel(w: World, pid: Pid)
    requires Ids(w) && pid in w.reapers
    ensures forall q :: q in w.table && w.table[q].pid == pid ==> q == w.reapers[pid].key
  {
  }

  /**
   In every run, whichever way a reaper goes (it stands down, gives up, finds no row to
   charge, or marks), it leaves behind no row that shows its dead process as running.
   */
  lemma ReaperLeavesNoOpenRow(ws: seq<World>, acts: seq<Act>, i: nat, pid: Pid, q: Key)
    requires Run(ws, acts) && Booted(ws[0]) && i < |acts| && acts[i] == ReapStep(pid)
    requires pid !in ws[i + 1].reapers && q in ws[i + 1].table && ws[i + 1].table[q].pid == pid
    ensures ws[i + 1].table[q].status != Starting && ws[i + 1].table[q].status != Ready
  {
    hide Do; hide Enabled; hide Booted; hide Ids;
    RunsKnowIds(ws, acts, i);
    assert pid in ws[i].reapers by { ReapsAReaper(ws[i], pid); }
    ExitLeavesNone(ws[i], pid);
  }

  // ----- who asks for a load ------------------------------------------------

  /** The RPC is answered without a spawn exactly if the model has a live row that has not failed. */
  lemma AskAnswers(w: World, spec: Spec, pid: Pid, seenAlive: bool)
    requires Enabled(w, RpcLoad(spec, pid, seenAlive))
    ensures var v, k := Do(w, RpcLoad(spec, pid, seenAlive)), spec.modelName;
      && v.table == w.table && v.queue == w.queue
      && if k in w.table && w.table[k].status != Failed && seenAlive then
           v.loads == w.loads && v.writes == w.writes + multiset{Desire(k, spec)}
         else v.loads == w.loads[pid := Calling(spec, Rpc)] && v.writes == w.writes
  {
    hide DoLoad; hide DoJudge; hide DoReap; hide DoRpcLoad; hide HoldsLive;
    if Answered(w.table, spec.modelName, seenAlive) {
      AnsweredAtOnce(w, spec, pid, seenAlive);
    } else {
      BeginsFrame(w, spec, pid, seenAlive);
    }
  }

  lemma AnsweredAtOnce(w: World, spec: Spec, pid: Pid, seenAlive: bool)
    requires Answered(w.table, spec.modelName, seenAlive)
    ensures DoRpcLoad(w, spec, pid, seenAlive) == w.(writes := w.writes + multiset{Desire(spec.modelName, spec)})
  {
  }

  /** `restart` takes the row out and loads its spec again; `unload` takes it out, and may forget the model. */
  lemma TakeOutAnswers(w: World, k: Key, pid: Pid, forget: bool)
    requires k in w.table && pid !in w.home
    ensures Enabled(w, Restart(k, pid)) && Enabled(w, Unload(k, forget))
    ensures var v := Do(w, Restart(k, pid));
      v.table == w.table - {k} && v.loads == w.loads[pid := Calling(w.table[k].spec, Operator)] && v.writes == w.writes
    ensures var v := Do(w, Unload(k, forget));
      && v.table == w.table - {k} && v.loads == w.loads
      && v.writes == w.writes + if forget then multiset{Forget(k)} else multiset{}
  {
  }

  /** The supervisor takes the oldest respawn asked for. */
  lemma DispatchAnswers(w: World, pid: Pid)
    requires Enabled(w, Dispatch(pid))
    ensures var v := Do(w, Dispatch(pid));
      && w.queue == [w.queue[0]] + v.queue && v.loads == w.loads[pid := Calling(w.queue[0], Supervisor)]
      && v.table == w.table && v.writes == w.writes
  {
  }

  // ----- a load -------------------------------------------------------------

  /** A spawn that works lives, and has a reaper if it is no container; one that does not ends the load. */
  lemma SpawnAnswers(w: World, pid: Pid, spec: Spec, origin: Origin, spawned: bool)
    requires Enabled(w, LoadStep(pid, spawned)) && w.loads[pid] == Calling(spec, origin)
    ensures var v := Do(w, LoadStep(pid, spawned));
      && v.table == w.table && v.writes == w.writes
      && if spawned then
           && pid in v.live && v.loads == w.loads[pid := Reading(spec, origin)]
           && v.reapers == if spec.dockerConfig == "" then w.reapers[pid := Waiting(spec.modelName)] else w.reapers
         else v.loads == w.loads - {pid} && v.live == w.live && v.reapers == w.reapers
  {
  }

  // What a load that comes back leaves to be written: an RPC's model is wanted from now on.
  function Wanting(w: World, origin: Origin, spec: Spec): multiset<StoreWrite> {
    w.writes + if origin == Rpc then multiset{Desire(spec.modelName, spec)} else multiset{}
  }

  /**
   A placement: the row shows the new process `starting` since now, with the record of the row
   that was read if that one waited for its respawn, and with its mark in any case. A gated
   load comes back, leaving a gate; an ungated one goes on.
   */
  lemma PlaceAnswers(w: World, pid: Pid, spec: Spec, origin: Origin, prev: Option<Row>)
    requires Enabled(w, LoadStep(pid, true)) && w.loads[pid] == Placing(spec, origin, prev)
    ensures var v, k := Do(w, LoadStep(pid, true)), spec.modelName;
      var again := prev.Some? && prev.value.status == Restarting;
      && v.table == w.table[k := Row(pid, Starting, w.now, spec, if again then prev.value.restartCount else 0,
                                     if again then prev.value.windowStarts else [],
                                     prev.Some? && prev.value.userFlagged)]
      && v.reapers == w.reapers && v.queue == w.queue
      && if spec.healthUrl != "" && spec.healthTimeoutMs != 0 then
           && v.loads == w.loads - {pid} && v.writes == Wanting(w, origin, spec)
           && v.judges == w.judges[Seat(Gate, pid) := Polling(spec, again, w.now)]
         else
           && v.loads == w.loads[pid := Settling(spec, origin, again, prev, false)] && v.writes == w.writes
           && v.judges == w.judges
  {
    hide Freed;
  }

  /** An ungated load that still owns its row goes on to write it; one that does not comes back all the same. */
  lemma ConfirmAnswers(w: World, pid: Pid, spec: Spec, origin: Origin, inherit: bool, prev: Option<Row>)
    requires Enabled(w, LoadStep(pid, true)) && w.loads[pid] == Settling(spec, origin, inherit, prev, false)
    ensures var v, k := Do(w, LoadStep(pid, true)), spec.modelName;
      && v.table == w.table
      && if k in w.table && w.table[k].pid == pid then
           v.loads == w.loads[pid := Settling(spec, origin, inherit, prev, true)] && v.writes == w.writes
         else v.loads == w.loads - {pid} && v.writes == Wanting(w, origin, spec)
  {
    hide Freed;
  }

  /** The instant `ready`: the row as it was placed, with the record and the mark that were read before. */
  lemma SettleAnswers(w: World, pid: Pid, spec: Spec, origin: Origin, inherit: bool, prev: Option<Row>)
    requires Enabled(w, LoadStep(pid, true)) && w.loads[pid] == Settling(spec, origin, inherit, prev, true)
    ensures var v, k := Do(w, LoadStep(pid, true)), spec.modelName;
      var old' := inherit && prev.Some?;
      && v.table == w.table[k := Row(pid, Ready, w.now, spec, if old' then prev.value.restartCount else 0,
                                     if old' then prev.value.windowStarts else [],
                                     prev.Some? && prev.value.userFlagged)]
      && v.loads == w.loads - {pid} && v.writes == Wanting(w, origin, spec)
  {
    hide Freed;
  }

  // ----- a judge ------------------------------------------------------------

  /** The reconciler takes up exactly the gated rows `starting` for 10 s that it is not at work on. */
  lemma SeesExactly(w: World, k: Key)
    ensures Enabled(w, ReconSees(k)) <==>
      && k in w.table && w.table[k].status == Starting
      && w.table[k].spec.healthUrl != "" && w.table[k].spec.healthTimeoutMs != 0
      && w.now - w.table[k].startedAt >= 10_000 && Seat(Recon, w.table[k].pid) !in w.judges
    ensures Enabled(w, ReconSees(k)) ==>
      var r := w.table[k];
      Do(w, ReconSees(k)).judges == w.judges[Seat(Recon, r.pid) := Polling(r.spec, false, r.startedAt)]
  {
  }

  /** The reconciler lets a row time out only after 120 s, and after twice its timeout; a gate never hears nothing. */
  lemma FindsExactly(w: World, seat: Seat, finding: Finding)
    requires seat in w.judges && w.judges[seat].Polling?
    ensures Enabled(w, JudgeStep(seat, finding)) <==>
      if seat.bench == Gate then finding != NoAnswer
      else
        var age := w.now - w.judges[seat].since;
        finding == TimedOut ==> age > 120_000 && age > 2 * w.judges[seat].spec.healthTimeoutMs
  {
  }

  /**
   What a judge does with what it found. It goes on only while the `starting` row is its own:
   a healthy one to write `ready` with a clean record, one out of time to kill and then to
   write `failed` with the record it came with. Silence ends the reconciler's work.
   */
  lemma JudgeAnswers(w: World, seat: Seat, finding: Finding)
    requires Enabled(w, JudgeStep(seat, finding)) && !w.judges[seat].Landing?
    ensures var v, j := Do(w, JudgeStep(seat, finding)), w.judges[seat];
      var k := j.spec.modelName;
      var mine := k in w.table && w.table[k].pid == seat.pid && w.table[k].status == Starting;
      && v.table == w.table && v.writes == w.writes && v.store == w.store
      && (j.Passed? ==>
            v.judges == w.judges[seat := Landing(j.spec, j.inherit, j.verdict,
                                                 if k in w.table then Some(w.table[k]) else None)])
      && (j.Polling? && finding == NoAnswer ==> v.judges == w.judges - {seat})
      && (j.Polling? && finding == Healthy ==>
            v.judges == if mine then w.judges[seat := Passed(j.spec, false, Ready)] else w.judges - {seat})
      && (j.Polling? && finding == TimedOut ==>
            v.judges == if mine then w.judges[seat := Killing(j.spec, j.inherit)] else w.judges - {seat})
      && (j.Killing? ==>
            v.judges == if mine then w.judges[seat := Passed(j.spec, j.inherit, Failed)] else w.judges - {seat})
  {
  }

  /** A verdict lands: the row with what was read of it, and for a `ready` the persisted tally is to go. */
  lemma LandAnswers(w: World, seat: Seat, finding: Finding)
    requires Enabled(w, JudgeStep(seat, finding)) && w.judges[seat].Landing?
    ensures var v, j := Do(w, JudgeStep(seat, finding)), w.judges[seat];
      var k, kept := j.spec.modelName, j.inherit && j.prev.Some?;
      && v.judges == w.judges - {seat} && v.store == w.store
      && v.table == w.table[k := Row(seat.pid, j.verdict, w.now, j.spec, if kept then j.prev.value.restartCount else 0,
                                     if kept then j.prev.value.windowStarts else [],
                                     j.prev.Some? && j.prev.value.userFlagged)]
      && v.writes == w.writes + if j.verdict == Ready then multiset{Zero(k)} else multiset{}
  {
  }

  // ----- the disk -----------------------------------------------------------

  // The next attempt at a write, if it is worth one.
  function Retry(write: StoreWrite): multiset<StoreWrite> {
    if write.Trip? && write.tries > 1 then multiset{Trip(write.key, write.tally, write.tries - 1)} else multiset{}
  }

  /**
   A write reads what it keeps of the manifest. It goes no further with a key that is no file
   name, nor, for a trip or a reset, without a manifest; of these only the trip tries again.
   */
  lemma FetchAnswers(w: World, write: StoreWrite)
    requires Enabled(w, Fetch(write))
    ensures var v, k := Do(w, Fetch(write)), write.key;
      var goes := ValidKey(k) && (write.Desire? || write.Forget? || k in w.store);
      && v.store == w.store && v.table == w.table
      && (!goes ==> v.drafts == w.drafts)
      && (!goes ==> v.writes == w.writes - multiset{write} + Retry(write))
      && (goes ==> v.writes == w.writes - multiset{write})
      && (goes && write.Desire? && k in w.store ==>
            var was := w.store[k];
            v.drafts == w.drafts + multiset{Draft(write, Some(Stored(write.spec, true, was.userFlagged, was.maxRestarts,
                                                                     was.persistedRestartCount)))})
      && (goes && write.Desire? && k !in w.store ==>
            v.drafts == w.drafts + multiset{Draft(write, Some(Stored(write.spec, true, false, 10, 0)))})
      && (goes && write.Forget? ==> v.drafts == w.drafts + multiset{Draft(write, None)})
      && (goes && write.Zero? ==>
            var was := w.store[k];
            v.drafts == w.drafts + multiset{Draft(write, Some(Stored(was.spec, was.desired, was.userFlagged,
                                                                     was.maxRestarts, 0)))})
      && (goes && write.Trip? ==>
            var was := w.store[k];
            v.drafts == w.drafts + multiset{Draft(write, Some(Stored(was.spec, was.desired, true, was.maxRestarts,
                                                                     write.tally)))})
  {
    hide ValidKey;
  }

  /** It puts what it read on disk; if the disk refuses, only a trip with attempts left tries again. */
  lemma CommitAnswers(w: World, draft: Draft, ok: bool)
    requires Enabled(w, Commit(draft, ok))
    ensures var v, k := Do(w, Commit(draft, ok)), draft.write.key;
      && v.drafts == w.drafts - multiset{draft} && v.table == w.table
      && v.store == (if !ok then w.store
                     else if draft.manifest.Some? then w.store[k := draft.manifest.value] else w.store - {k})
      && v.writes == w.writes +
                      if ok then multiset{} else Retry(draft.write)
  {
  }

  /** A crash takes everything but the manifests, all of which the next boot looks at, once each. */
  lemma CrashAnswers(w: World, listing: seq<Stored>)
    requires Enabled(w, Crash(listing))
    ensures var v := Do(w, Crash(listing));
      && v.store == w.store && v.table == map[] && v.queue == [] && v.loads == map[] && v.judges == map[]
      && v.reapers == map[] && v.writes == multiset{} && v.drafts == multiset{}
      && v.sweep == Sweep(listing, None, {})
      && (forall k :: k in w.store ==> w.store[k] in listing)
      && (forall i, j :: 0 <= i < j < |listing| ==> listing[i] != listing[j])
  {
  }

  // ----- the boot sweep -----------------------------------------------------

  /** The sweep waits to load the next manifest exactly if it is desired, unmarked, below its cap and not alive. */
  lemma ExamineAnswers(w: World, seenAlive: bool)
    requires Enabled(w, SweepExamines(seenAlive))
    ensures var v, s := Do(w, SweepExamines(seenAlive)), w.sweep.todo[0];
      && w.sweep.todo == [s] + v.sweep.todo && v.sweep.running == w.sweep.running && v.loads == w.loads
      && v.sweep.held == if s.desired && !s.userFlagged && s.persistedRestartCount < s.maxRestarts
                            && !(s.spec.modelName in w.table && seenAlive) then Some(s) else None
  {
  }

  /** With a permit it loads that manifest's spec; there are two permits. */
  lemma LaunchAnswers(w: World, pid: Pid)
    requires w.sweep.held.Some? && pid !in w.home
    ensures Enabled(w, SweepLaunches(pid)) <==> |w.sweep.running| < 2
    ensures Enabled(w, SweepLaunches(pid)) ==>
      var v := Do(w, SweepLaunches(pid));
      && v.sweep == Sweep(w.sweep.todo, None, w.sweep.running + {pid})
      && v.loads == w.loads[pid := Calling(w.sweep.held.value.spec, Boot)]
  {
  }

  // Permits are held by the boot loads in flight, and by nobody else.
  predicate Held(loads: map<Pid, Load>, running: set<Pid>) {
    && (forall p :: p in running ==> p in loads && loads[p].origin == Boot)
    && (forall p :: p in loads && loads[p].origin == Boot ==> p in running)
  }

  lemma HeldOn(loads: map<Pid, Load>, running: set<Pid>, pid: Pid, l: Load)
    requires Held(loads, running) && pid in loads && l.origin == loads[pid].origin
    ensures Held(loads[pid := l], running) && Held(loads - {pid}, running - {pid})
  {
  }

  lemma HeldLoad(w: World, pid: Pid, spawned: bool)
    requires Held(w.loads, w.sweep.running) && pid in w.loads
    ensures Held(DoLoad(w, pid, spawned).loads, DoLoad(w, pid, spawned).sweep.running)
  {
    hide Held; hide EntryFor; hide ChargesAfter; hide Affirmed; hide OwnsRow;
    match w.loads[pid]
    case Calling(spec, origin) => HeldOn(w.loads, w.sweep.running, pid, Reading(spec, origin));
    case Reading(spec, origin) =>
      HeldOn(w.loads, w.sweep.running, pid, Placing(spec, origin, Get(w.table, spec.modelName)));
    case Placing(spec, origin, prev) =>
      HeldOn(w.loads, w.sweep.running, pid, Settling(spec, origin, Inherits(prev), prev, false));
    case Settling(spec, origin, inherit, prev, _) =>
      HeldOn(w.loads, w.sweep.running, pid, Settling(spec, origin, inherit, prev, true));
  }

  lemma HeldBegins(loads: map<Pid, Load>, running: set<Pid>, pid: Pid, l: Load)
    requires Held(loads, running) && pid !in loads
    ensures if l.origin == Boot then Held(loads[pid := l], running + {pid}) else Held(loads[pid := l], running)
  {
  }

  lemma HeldKept(w: World, a: Act)
    requires LoadsKnown(w.loads, w.home) && Held(w.loads, w.sweep.running) && Enabled(w, a)
    ensures Held(Do(w, a).loads, Do(w, a).sweep.running)
  {
    assert forall p :: p !in w.home ==> p !in w.loads;
    hide Held; hide LoadsKnown; hide DoLoad; hide DoJudge; hide DoReap; hide Replayable; hide HoldsLive;
    match a
    case LoadStep(pid, spawned) => HeldLoad(w, pid, spawned);
    case JudgeStep(seat, finding) => JudgeFrame(w, seat, finding);
    case ReapStep(pid) => ReapFrame(w, pid);
    case RpcLoad(spec, pid, _) => HeldBegins(w.loads, w.sweep.running, pid, Calling(spec, Rpc));
    case Restart(k, pid) => HeldBegins(w.loads, w.sweep.running, pid, Calling(w.table[k].spec, Operator));
    case Dispatch(pid) => HeldBegins(w.loads, w.sweep.running, pid, Calling(w.queue[0], Supervisor));
    case SweepLaunches(pid) => HeldBegins(w.loads, w.sweep.running, pid, Calling(w.sweep.held.value.spec, Boot));
    case Crash(_) => NoneHeld();
    case SweepExamines(_) =>
    case _ => OtherFrame(w, a); hide Do;
  }

  lemma NoneHeld()
    ensures Held(map[], {})
  {
  }

  /** In every run a permit is held exactly by each boot load in flight: none is lost, so the sweep is never stuck. */
  lemma {:induction false} PermitsAreHeldExactly(ws: seq<World>, acts: seq<Act>, i: nat, p: Pid)
    requires Run(ws, acts) && Booted(ws[0]) && i <= |acts|
    ensures Held(ws[i].loads, ws[i].sweep.running)
    ensures p in ws[i].sweep.running <==> p in ws[i].loads && ws[i].loads[p].origin == Boot
  {
    hide Do; hide Enabled;
    if i > 0 {
      PermitsAreHeldExactly(ws, acts, i - 1, p);
      RunsKnowIds(ws, acts, i - 1);
      IdsKnowLoads(ws[i - 1]);
      hide Ids; hide LoadsKnown;
      HeldKept(ws[i - 1], acts[i - 1]);
    }
  }

  lemma IdsKnowLoads(w: World)
    requires Ids(w)
    ensures LoadsKnown(w.loads, w.home)
  {
  }
}
