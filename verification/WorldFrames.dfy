/** What each family of steps leaves alone. */
module WorldFrames {
  import opened Wrappers
  import opened ProcessTables
  import opened StateStore
  import opened World

  predicate JudgeKeeps(w: World, v: World) {
    && v.loads == w.loads && v.home == w.home && v.store == w.store && v.drafts == w.drafts
    && v.sweep == w.sweep && v.queue == w.queue
    && v.reapers == w.reapers && v.respawns == w.respawns && v.now == w.now && v.live == w.live
  }

  predicate WaitKeeps(w: World, v: World) {
    v.table == w.table && v.charges == w.charges && v.verdicts == w.verdicts && v.writes == w.writes
  }

  predicate ReapKeeps(w: World, v: World) {
    && v.loads == w.loads && v.home == w.home && v.store == w.store && v.drafts == w.drafts && v.sweep == w.sweep
    && v.judges == w.judges && v.now == w.now && v.live == w.live && v.verdicts == w.verdicts
  }

  predicate LoadKeeps(w: World, v: World) {
    && v.home == w.home && v.store == w.store && v.drafts == w.drafts && v.queue == w.queue && v.respawns == w.respawns
    && v.now == w.now && v.verdicts == w.verdicts
    && v.sweep.todo == w.sweep.todo && v.sweep.held == w.sweep.held
  }

  lemma DecideFrame(w: World, seat: Seat, next: Judge)
    ensures JudgeKeeps(w, Decide(w, seat, next)) && WaitKeeps(w, Decide(w, seat, next))
  {
  }

  lemma LandFrame(w: World, seat: Seat, spec: Spec, inherit: bool, verdict: Status, prev: Option<Row>)
    ensures JudgeKeeps(w, Land(w, seat, spec, inherit, verdict, prev))
  {
  }

  lemma StandDownFrame(w: World, seat: Seat)
    ensures JudgeKeeps(w, w.(judges := w.judges - {seat})) && WaitKeeps(w, w.(judges := w.judges - {seat}))
  {
  }

  lemma PassFrame(w: World, seat: Seat, next: Judge)
    ensures JudgeKeeps(w, w.(judges := w.judges[seat := next])) && WaitKeeps(w, w.(judges := w.judges[seat := next]))
  {
  }

  lemma JudgeFrame(w: World, seat: Seat, finding: Finding)
    requires seat in w.judges
    ensures JudgeKeeps(w, DoJudge(w, seat, finding))
    ensures !w.judges[seat].Landing? ==> WaitKeeps(w, DoJudge(w, seat, finding))
  {
    hide JudgeKeeps; hide WaitKeeps; hide Decide; hide Land;
    match w.judges[seat]
    case Polling(spec, inherit, _) =>
      DecideFrame(w, seat, Passed(spec, false, Ready));
      DecideFrame(w, seat, Killing(spec, inherit));
      StandDownFrame(w, seat);
    case Killing(spec, inherit) => DecideFrame(w, seat, Passed(spec, inherit, Failed));
    case Passed(spec, inherit, verdict) =>
      PassFrame(w, seat, Landing(spec, inherit, verdict, Get(w.table, spec.modelName)));
    case Landing(spec, inherit, verdict, prev) => LandFrame(w, seat, spec, inherit, verdict, prev);
  }

  lemma LandEffect(w: World, seat: Seat, spec: Spec, inherit: bool, verdict: Status, prev: Option<Row>)
    ensures var v := Land(w, seat, spec, inherit, verdict, prev);
      var i := Some(Insertion(spec, seat.pid, verdict, inherit, prev));
      && v.table == InsertTable(w.table, i, w.now) && v.charges == InsertCharges(w.charges, i)
      && v.judges == w.judges - {seat} && v.verdicts == w.verdicts + [seat.pid]
  {
    hide EntryFor; hide ChargesAfter;
  }

  /** A step of a judge changes table and charges only by its insert. */
  lemma JudgeEffect(w: World, seat: Seat, finding: Finding)
    requires seat in w.judges
    ensures var v, i := DoJudge(w, seat, finding), JudgeInsert(w.judges[seat], seat.pid);
      v.table == InsertTable(w.table, i, w.now) && v.charges == InsertCharges(w.charges, i)
  {
    hide Land; hide Decide; hide DoJudge; hide EntryFor; hide ChargesAfter;
    JudgeFrame(w, seat, finding);
    match w.judges[seat]
    case Landing(spec, inherit, verdict, prev) =>
      LandStep(w, seat, finding);
      LandEffect(w, seat, spec, inherit, verdict, prev);
    case _ =>
  }

  lemma LandStep(w: World, seat: Seat, finding: Finding)
    requires seat in w.judges && w.judges[seat].Landing?
    ensures var j := w.judges[seat]; DoJudge(w, seat, finding) == Land(w, seat, j.spec, j.inherit, j.verdict, j.prev)
  {
    hide Land; hide Decide;
  }

  lemma MarkFrame(w: World, pid: Pid, k: Key, spec: Spec, cap: nat, count: nat, stamp: int)
    ensures ReapKeeps(w, DoMark(w, pid, k, spec, cap, count, stamp))
  {
  }

  lemma CheckFrame(w: World, pid: Pid, k: Key, flagged: bool)
    ensures ReapKeeps(w, DoCheck(w, pid, k))
    ensures ReapKeeps(w, w.(reapers := w.reapers[pid := CheckedReaper(w.store, k, flagged)]))
  {
  }

  lemma GiveUpFrame(w: World, pid: Pid, k: Key)
    ensures ReapKeeps(w, w.(table := MarkedFailed(w.table, k, pid), reapers := w.reapers - {pid}))
  {
  }

  lemma ChargeFrame(w: World, pid: Pid, k: Key, spec: Spec, cap: nat)
    ensures ReapKeeps(w, DoCharge(w, pid, k, spec, cap))
  {
  }

  lemma ReapFrame(w: World, pid: Pid)
    requires pid in w.reapers
    ensures ReapKeeps(w, DoReap(w, pid))
  {
    hide ReapKeeps; hide DoCheck; hide DoCharge; hide DoMark;
    match w.reapers[pid]
    case Waiting(k) => CheckFrame(w, pid, k, false);
    case Looking(k, flagged) => CheckFrame(w, pid, k, flagged);
    case GivingUp(k) => GiveUpFrame(w, pid, k);
    case Charging(k, spec, cap) => ChargeFrame(w, pid, k, spec, cap);
    case Marking(k, spec, cap, count, stamp) => MarkFrame(w, pid, k, spec, cap, count, stamp);
  }

  // A store write touches the manifests and the writes under way, nothing else.
  predicate StoreKeeps(w: World, v: World) {
    && v.table == w.table && v.queue == w.queue && v.loads == w.loads && v.judges == w.judges && v.reapers == w.reapers
    && v.sweep == w.sweep && v.live == w.live && v.home == w.home && v.now == w.now
    && v.charges == w.charges && v.respawns == w.respawns && v.verdicts == w.verdicts
  }

  lemma FetchFrame(w: World, write: StoreWrite)
    ensures StoreKeeps(w, DoFetch(w, write)) && DoFetch(w, write).store == w.store
  {
  }

  lemma CommitFrame(w: World, draft: Draft, ok: bool)
    ensures StoreKeeps(w, DoCommit(w, draft, ok))
  {
  }

  lemma PlaceFrame(w: World, pid: Pid, spec: Spec, origin: Origin, prev: Option<Row>)
    ensures LoadKeeps(w, DoPlace(w, pid, spec, origin, prev))
  {
  }

  lemma SpawnFrame(w: World, pid: Pid, spec: Spec, origin: Origin)
    ensures LoadKeeps(w, DoSpawn(w, pid, spec, origin)) && LoadKeeps(w, DoAbandon(w, pid))
  {
  }

  lemma PhaseFrame(w: World, pid: Pid, l: Load)
    ensures LoadKeeps(w, w.(loads := w.loads[pid := l]))
  {
  }

  lemma SettleFrame(w: World, pid: Pid, spec: Spec, origin: Origin, inherit: bool, prev: Option<Row>)
    ensures LoadKeeps(w, DoSettle(w, pid, spec, origin, inherit, prev))
    ensures LoadKeeps(w, DoConfirm(w, pid, spec, origin, inherit, prev))
  {
  }

  lemma LoadFrame(w: World, pid: Pid, spawned: bool)
    requires pid in w.loads
    ensures LoadKeeps(w, DoLoad(w, pid, spawned))
  {
    hide LoadKeeps; hide DoSpawn; hide DoAbandon; hide DoPlace; hide DoConfirm; hide DoSettle;
    match w.loads[pid]
    case Calling(spec, origin) => SpawnFrame(w, pid, spec, origin);
    case Reading(spec, origin) => PhaseFrame(w, pid, Placing(spec, origin, Get(w.table, spec.modelName)));
    case Placing(spec, origin, prev) => PlaceFrame(w, pid, spec, origin, prev);
    case Settling(spec, origin, inherit, prev, _) => SettleFrame(w, pid, spec, origin, inherit, prev);
  }

  lemma FetchWrites(w: World, write: StoreWrite)
    ensures DoFetch(w, write).writes ==
      w.writes - multiset{write} + if Readable(w.store, write) then multiset{} else Again(write)
  {
    hide Readable; hide Again;
  }

  lemma CommitWrites(w: World, draft: Draft, ok: bool)
    ensures DoCommit(w, draft, ok).writes == if ok then w.writes else w.writes + Again(draft.write)
    ensures DoCommit(w, draft, ok).store == if ok then Committed(w.store, draft) else w.store
  {
    hide Committed; hide Again;
  }

  // A write with nobody in between.
  lemma PersistFrame(w: World, write: StoreWrite, ok: bool)
    ensures StoreKeeps(w, DoPersist(w, write, ok))
    ensures DoPersist(w, write, ok).store ==
      if ok && Readable(w.store, write) then Committed(w.store, Draft(write, Revision(w.store, write))) else w.store
    ensures DoPersist(w, write, ok).writes ==
      w.writes - multiset{write} + if ok && Readable(w.store, write) then multiset{} else Again(write)
  {
    hide Readable; hide Revision; hide Committed; hide DoFetch; hide DoCommit; hide Again;
    FetchFrame(w, write);
    FetchWrites(w, write);
    if Readable(w.store, write) {
      var draft := Draft(write, Revision(w.store, write));
      CommitFrame(DoFetch(w, write), draft, ok);
      CommitWrites(DoFetch(w, write), draft, ok);
    }
  }

  lemma SpawnEffect(w: World, pid: Pid, spec: Spec, origin: Origin)
    ensures var v := DoSpawn(w, pid, spec, origin); v.table == w.table && v.judges == w.judges && v.charges == w.charges
    ensures var v := DoAbandon(w, pid); v.table == w.table && v.judges == w.judges && v.charges == w.charges
  {
  }

  lemma PlaceEffect(w: World, pid: Pid, spec: Spec, origin: Origin, prev: Option<Row>)
    ensures var v, i := DoPlace(w, pid, spec, origin, prev), Some(Insertion(spec, pid, Starting, Inherits(prev), prev));
      && v.table == InsertTable(w.table, i, w.now) && v.charges == InsertCharges(w.charges, i)
      && v.judges == (if spec.Gated() then w.judges[Seat(Gate, pid) := Polling(spec, Inherits(prev), w.now)]
                      else w.judges)
      && v.loads == (if spec.Gated() then w.loads - {pid}
                     else w.loads[pid := Settling(spec, origin, Inherits(prev), prev, false)])
      && v.reapers == w.reapers
  {
    hide EntryFor; hide Freed; hide Affirmed; hide ChargesAfter;
  }

  lemma SettleEffect(w: World, pid: Pid, spec: Spec, origin: Origin, inherit: bool, prev: Option<Row>)
    ensures var v, i := DoSettle(w, pid, spec, origin, inherit, prev), Some(Insertion(spec, pid, Ready, inherit, prev));
      && v.judges == w.judges && v.loads == w.loads - {pid} && v.reapers == w.reapers
      && v.table == InsertTable(w.table, i, w.now) && v.charges == InsertCharges(w.charges, i)
    ensures var v := DoConfirm(w, pid, spec, origin, inherit, prev);
      && v.table == w.table && v.judges == w.judges && v.charges == w.charges
      && (v.loads == w.loads - {pid} || v.loads == w.loads[pid := Settling(spec, origin, inherit, prev, true)])
  {
    hide EntryFor; hide Freed; hide Affirmed; hide ChargesAfter;
  }

  /** A step of a load changes table and charges only by its insert, and sets up a gate when it places a gated row. */
  lemma LoadEffect(w: World, pid: Pid, spawned: bool)
    requires pid in w.loads
    ensures var v, l, i := DoLoad(w, pid, spawned), w.loads[pid], LoadInsert(w.loads[pid], pid);
      && v.table == InsertTable(w.table, i, w.now) && v.charges == InsertCharges(w.charges, i)
      && v.judges == (if l.Placing? && l.spec.Gated()
                      then w.judges[Seat(Gate, pid) := Polling(l.spec, Inherits(l.prev), w.now)]
                      else w.judges)
  {
    hide EntryFor; hide ChargesAfter; hide DoSpawn; hide DoAbandon; hide DoPlace; hide DoConfirm; hide DoSettle;
    match w.loads[pid]
    case Calling(spec, origin) => SpawnEffect(w, pid, spec, origin);
    case Reading(_, _) =>
    case Placing(spec, origin, prev) => PlaceEffect(w, pid, spec, origin, prev);
    case Settling(spec, origin, inherit, prev, _) => SettleEffect(w, pid, spec, origin, inherit, prev);
  }

  // The table after a step of a reaper.
  function ReapTable(w: World, pid: Pid): map<Key, Row>
    requires pid in w.reapers
  {
    match w.reapers[pid]
    case Waiting(_) => w.table
    case Looking(_, _) => w.table
    case GivingUp(k) => MarkedFailed(w.table, k, pid)
    case Charging(k, _, _) => Charged(w.table, k, w.now)
    case Marking(k, _, cap, count, _) =>
      if count >= cap then MarkedExhausted(w.table, k, pid) else MarkedRestarting(w.table, k, pid)
  }

  lemma CheckEffect(w: World, pid: Pid, k: Key)
    ensures DoCheck(w, pid, k).table == w.table
  {
  }

  lemma ChargeEffect(w: World, pid: Pid, k: Key, spec: Spec, cap: nat)
    ensures DoCharge(w, pid, k, spec, cap).table == Charged(w.table, k, w.now)
  {
    hide Charged;
  }

  lemma MarkEffect(w: World, pid: Pid, k: Key, spec: Spec, cap: nat, count: nat, stamp: int)
    ensures DoMark(w, pid, k, spec, cap, count, stamp).table ==
            if count >= cap then MarkedExhausted(w.table, k, pid) else MarkedRestarting(w.table, k, pid)
  {
    hide MarkedExhausted; hide MarkedRestarting; hide Ours;
  }

  lemma ReapEffect(w: World, pid: Pid)
    requires pid in w.reapers
    ensures DoReap(w, pid).table == ReapTable(w, pid)
  {
    hide MarkedFailed; hide Charged; hide MarkedExhausted; hide MarkedRestarting; hide DoCheck; hide DoCharge;
    hide DoMark;
    match w.reapers[pid]
    case Waiting(k) => CheckEffect(w, pid, k);
    case Looking(_, _) =>
    case GivingUp(_) =>
    case Charging(k, spec, cap) => ChargeEffect(w, pid, k, spec, cap);
    case Marking(k, spec, cap, count, stamp) => MarkEffect(w, pid, k, spec, cap, count, stamp);
  }

  // ----- the other steps ----------------------------------------------------

  predicate Other(a: Act) { !a.LoadStep? && !a.JudgeStep? && !a.ReapStep? }

  // The load the step begins, if it does: its pid and its first phase.
  function Beginning(w: World, a: Act): Option<(Pid, Load)>
    requires Enabled(w, a)
  {
    match a
    case RpcLoad(spec, pid, seenAlive) =>
      if Answered(w.table, spec.modelName, seenAlive) then None else Some((pid, Calling(spec, Rpc)))
    case Restart(k, pid) => Some((pid, Calling(w.table[k].spec, Operator)))
    case Dispatch(pid) => Some((pid, Calling(w.queue[0], Supervisor)))
    case SweepLaunches(pid) => Some((pid, Calling(w.sweep.held.value.spec, Boot)))
    case _ => None
  }

  // The writes under way after the step, if it is not half of a write itself.
  function OtherWrites(w: World, a: Act): multiset<StoreWrite> {
    match a
    case RpcLoad(spec, _, seenAlive) =>
      if Answered(w.table, spec.modelName, seenAlive) then w.writes + multiset{Desire(spec.modelName, spec)}
      else w.writes
    case Unload(k, forget) => if forget then w.writes + multiset{Forget(k)} else w.writes
    case Crash(_) => multiset{}
    case _ => w.writes
  }

  // What the other steps do to the table and to the running tasks: rows only leave it.
  predicate OtherKeeps(w: World, a: Act, v: World)
    requires Enabled(w, a)
  {
    && v.respawns == w.respawns && v.verdicts == w.verdicts
    && (a.Tick? || v.now == w.now) && (a.Commit? || v.store == w.store)
    && (a.Crash? || a.SweepExamines? || a.SweepLaunches? || v.sweep == w.sweep)
    && (a.Fetch? || a.Commit? || v.writes == OtherWrites(w, a))
    && (a.Fetch? || a.Commit? || v.drafts == if a.Crash? then multiset{} else w.drafts)
    && v.table == (if a.Crash? then map[] else if a.Unload? || a.Restart? then w.table - {a.key} else w.table)
    && v.reapers == (if a.Crash? then map[] else w.reapers)
    && v.charges == (if a.Crash? then map[] else w.charges)
    && v.judges == (if a.Crash? then map[]
                    else if a.ReconSees? then
                      var row := w.table[a.key];
                      w.judges[Seat(Recon, row.pid) := Polling(row.spec, false, row.startedAt)]
                    else w.judges)
  }

  // Loads only begin, each under a new pid.
  predicate OtherBegins(w: World, a: Act, v: World)
    requires Enabled(w, a)
  {
    var begins := Beginning(w, a);
    if begins.Some? then
      begins.value.0 !in w.home && begins.value.1.Calling? && v.loads == w.loads[begins.value.0 := begins.value.1]
    else v.loads == if a.Crash? then map[] else w.loads
  }

  lemma RpcLoadFrame(w: World, a: Act)
    requires Enabled(w, a) && a.RpcLoad?
    ensures OtherKeeps(w, a, Do(w, a)) && OtherBegins(w, a, Do(w, a))
  {
    hide DoLoad; hide DoJudge; hide DoReap; hide DoRpcLoad; hide Answered; hide HoldsLive; hide Begin;
    if Answered(w.table, a.spec.modelName, a.seenAlive) {
      AnsweredFrame(w, a.spec, a.pid, a.seenAlive);
    } else {
      BeginsFrame(w, a.spec, a.pid, a.seenAlive);
      BeginFrame(w, a.pid, a.spec, Rpc);
    }
  }

  lemma BeginsFrame(w: World, spec: Spec, pid: Pid, seenAlive: bool)
    requires !Answered(w.table, spec.modelName, seenAlive)
    ensures DoRpcLoad(w, spec, pid, seenAlive) == Begin(w, pid, spec, Rpc)
  {
    hide Begin;
  }

  lemma AnsweredFrame(w: World, spec: Spec, pid: Pid, seenAlive: bool)
    requires Answered(w.table, spec.modelName, seenAlive)
    ensures BeginKeeps(w.(writes := w.writes + multiset{Desire(spec.modelName, spec)}),
                       DoRpcLoad(w, spec, pid, seenAlive))
    ensures DoRpcLoad(w, spec, pid, seenAlive).loads == w.loads
  {
  }

  predicate BeginKeeps(w: World, v: World) {
    && v.table == w.table && v.reapers == w.reapers && v.judges == w.judges && v.charges == w.charges
    && v.store == w.store && v.drafts == w.drafts && v.respawns == w.respawns && v.verdicts == w.verdicts
    && v.now == w.now && v.sweep == w.sweep && v.writes == w.writes
  }

  lemma BeginFrame(w: World, pid: Pid, spec: Spec, origin: Origin)
    ensures BeginKeeps(w, Begin(w, pid, spec, origin))
    ensures Begin(w, pid, spec, origin).loads == w.loads[pid := Calling(spec, origin)]
  {
  }

  lemma LaunchFrame(w: World, a: Act)
    requires Enabled(w, a) && (a.Dispatch? || a.SweepLaunches?)
    ensures OtherKeeps(w, a, Do(w, a)) && OtherBegins(w, a, Do(w, a))
  {
    hide DoFetch; hide DoCommit; hide DoLoad; hide DoJudge; hide DoReap; hide DoCrash; hide DoExamine; hide DoRpcLoad;
  }

  lemma RestartFrame(w: World, a: Act)
    requires Enabled(w, a) && a.Restart?
    ensures OtherKeeps(w, a, Do(w, a)) && OtherBegins(w, a, Do(w, a))
  {
    hide DoFetch; hide DoCommit; hide DoLoad; hide DoJudge; hide DoReap; hide DoCrash; hide DoExamine;
    hide DoRpcLoad; hide DoLaunch;
  }

  lemma CrashFrame(w: World, a: Act)
    requires Enabled(w, a) && a.Crash?
    ensures OtherKeeps(w, a, Do(w, a)) && OtherBegins(w, a, Do(w, a))
  {
    hide DoLoad; hide DoJudge; hide DoReap; hide DoRpcLoad; hide DoLaunch; hide Begin; hide IsListing;
  }

  lemma TimeFrame(w: World, a: Act)
    requires Enabled(w, a) && (a.Tick? || a.Die? || a.SweepExamines?)
    ensures OtherKeeps(w, a, Do(w, a)) && OtherBegins(w, a, Do(w, a))
  {
    hide DoLoad; hide DoJudge; hide DoReap; hide DoRpcLoad; hide DoLaunch; hide Begin; hide HoldsLive; hide Replayable;
  }

  lemma UnloadFrame(w: World, a: Act)
    requires Enabled(w, a) && a.Unload?
    ensures OtherKeeps(w, a, Do(w, a)) && OtherBegins(w, a, Do(w, a))
  {
    hide DoLoad; hide DoJudge; hide DoReap; hide DoRpcLoad; hide DoLaunch; hide Begin; hide DoExamine;
  }

  lemma SnapshotFrame(w: World, a: Act)
    requires Enabled(w, a) && a.ReconSees?
    ensures OtherKeeps(w, a, Do(w, a)) && OtherBegins(w, a, Do(w, a))
  {
    hide DoLoad; hide DoJudge; hide DoReap; hide DoRpcLoad; hide DoLaunch; hide Begin; hide DoExamine;
  }

  lemma WriteFrame(w: World, a: Act)
    requires Enabled(w, a) && (a.Fetch? || a.Commit?)
    ensures OtherKeeps(w, a, Do(w, a)) && OtherBegins(w, a, Do(w, a))
  {
    hide DoLoad; hide DoJudge; hide DoReap; hide DoFetch; hide DoCommit; hide Begin;
    match a
    case Fetch(write) => FetchFrame(w, write);
    case Commit(draft, ok) => CommitFrame(w, draft, ok);
  }

  lemma OtherFrame(w: World, a: Act)
    requires Enabled(w, a) && Other(a)
    ensures OtherKeeps(w, a, Do(w, a)) && OtherBegins(w, a, Do(w, a))
  {
    hide Do; hide OtherKeeps; hide OtherBegins;
    match a
    case RpcLoad(_, _, _) => RpcLoadFrame(w, a);
    case Restart(_, _) => RestartFrame(w, a);
    case Dispatch(_) => LaunchFrame(w, a);
    case SweepLaunches(_) => LaunchFrame(w, a);
    case Crash(_) => CrashFrame(w, a);
    case Fetch(_) => WriteFrame(w, a);
    case Commit(_, _) => WriteFrame(w, a);
    case Unload(_, _) => UnloadFrame(w, a);
    case ReconSees(_) => SnapshotFrame(w, a);
    case _ => TimeFrame(w, a);
  }
}
