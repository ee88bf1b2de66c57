/**
 The lifecycle as a transition system.

 Every task of the daemon is cut where it takes a lock: a step is one critical
 section of one task, and what the task still has to do is kept as data
 (`loads`, `judges`, `reapers`, `writes`, `drafts`, `sweep`). Checks and the writes
 they guard are separate steps, and so are reading the row of a model and inserting
 the row computed from it, and the read and the write of a manifest, so other tasks
 run in between. What is not cut is the read and the removal of a row by `restart`.

 Outcomes of the world outside (a pid, a probe, a disk write, an exit, the
 clock) are parameters of the step that observes them.
 */
module World {
  import opened Wrappers
  import opened ProcessTables
  import opened StateStore

  // Who asked for a load: the RPC, `restart`, the respawn supervisor, the boot sweep.
  datatype Origin = Rpc | Operator | Supervisor | Boot

  // One call of `load`, under the pid its process will get. Once spawned it reads the row
  // it will replace, then places its own. An ungated load that has placed its row looks
  // whether the row is still its own, and then writes it again.
  datatype Load =
    | Calling(spec: Spec, origin: Origin)
    | Reading(spec: Spec, origin: Origin)
    | Placing(spec: Spec, origin: Origin, prev: Option<Row>)
    | Settling(spec: Spec, origin: Origin, inherit: bool, prev: Option<Row>, checked: bool)

  // A detached writer that owes a `starting` row its verdict: the health gate of
  // a spawn, or the reconciler's work on one row of its snapshot. One that has passed its
  // check reads the row, then lands its verdict on it.
  datatype Bench = Gate | Recon
  datatype Seat = Seat(bench: Bench, pid: Pid)
  datatype Judge =
    | Polling(spec: Spec, inherit: bool, since: int)
    | Killing(spec: Spec, inherit: bool)
    | Passed(spec: Spec, inherit: bool, verdict: Status)
    | Landing(spec: Spec, inherit: bool, verdict: Status, prev: Option<Row>)
  datatype Finding = Healthy | TimedOut | NoAnswer

  datatype Reaper =
    | Waiting(key: Key)
    | Looking(key: Key, flagged: bool)
    | GivingUp(key: Key)
    | Charging(key: Key, spec: Spec, cap: nat)
    | Marking(key: Key, spec: Spec, cap: nat, count: nat, stamp: int)

  datatype StoreWrite =
    | Desire(key: Key, spec: Spec)
    | Forget(key: Key)
    | Zero(key: Key)
    | Trip(key: Key, tally: nat, tries: nat)

  // A write that has read what it keeps of the old manifest and goes to disk next; None deletes.
  datatype Draft = Draft(write: StoreWrite, manifest: Option<Stored>)

  // The boot sweep: manifests still to look at, the one waiting for a permit,
  // the loads that hold one.
  datatype Sweep = Sweep(todo: seq<Stored>, held: Option<Stored>, running: set<Pid>)

  // A respawn the reaper asked for: the death it answers, the cap in force, when it was asked for.
  datatype Respawn = Respawn(key: Key, stamp: int, cap: nat, at: int)

  // `home` is every pid handed out so far, with the model it was for.
  // `charges`, `respawns` and `verdicts` record what happened; no step reads them.
  datatype World = World(
    table: map<Key, Row>, store: Manifests, queue: seq<Spec>,
    loads: map<Pid, Load>, judges: map<Seat, Judge>, reapers: map<Pid, Reaper>,
    writes: multiset<StoreWrite>, drafts: multiset<Draft>, sweep: Sweep,
    live: set<Pid>, home: map<Pid, Key>, now: int,
    charges: map<Key, seq<int>>, respawns: seq<Respawn>, verdicts: seq<Pid>)

  // A load, a judge and a reaper each have one next step, which their phase says.
  datatype Act =
    | Tick(ms: nat)
    | Die(pid: Pid)
    | RpcLoad(spec: Spec, pid: Pid, seenAlive: bool)
    | Restart(key: Key, pid: Pid)
    | Unload(key: Key, forget: bool)
    | Dispatch(pid: Pid)
    | LoadStep(pid: Pid, spawned: bool)
    | ReconSees(key: Key)
    | JudgeStep(seat: Seat, finding: Finding)
    | ReapStep(pid: Pid)
    | Fetch(write: StoreWrite)
    | Commit(draft: Draft, ok: bool)
    | Crash(listing: seq<Stored>)
    | SweepExamines(seenAlive: bool)
    | SweepLaunches(pid: Pid)

  const GRACE_MS: int := 10_000
  const MIN_DEADLINE_MS: int := 120_000

  function Deadline(spec: Spec): int {
    var doubled := 2 * if spec.healthTimeoutMs > 0 then spec.healthTimeoutMs else 0;
    if doubled > MIN_DEADLINE_MS then doubled else MIN_DEADLINE_MS
  }

  /** The one builder of rows: bookkeeping is inherited or starts clean, the operator's mark always stays. */
  function EntryFor(spec: Spec, pid: Pid, status: Status, inherit: bool, prev: Option<Row>, now: int): Row {
    if inherit && prev.Some? then
      Row(pid, status, now, spec, prev.value.restartCount, prev.value.windowStarts, prev.value.userFlagged)
    else
      Row(pid, status, now, spec, 0, [], prev.Some? && prev.value.userFlagged)
  }

  predicate OwnsRow(table: map<Key, Row>, k: Key, pid: Pid) {
    k in table && table[k].pid == pid
  }

  predicate OwnsStartingRow(table: map<Key, Row>, k: Key, pid: Pid) {
    OwnsRow(table, k, pid) && table[k].status.Starting?
  }

  predicate Inherits(prev: Option<Row>) { prev.Some? && prev.value.status.Restarting? }

  predicate Respawnable(store: Manifests, k: Key, flagged: bool) {
    k in store && store[k].desired && !store[k].userFlagged && !flagged
  }

  // The manifests as `list` hands them out: each one once, in some order.
  predicate IsListing(listing: seq<Stored>, m: Manifests) {
    && (forall k :: k in m ==> m[k] in listing)
    && (forall s :: s in listing ==> s.spec.modelName in m && m[s.spec.modelName] == s)
    && (forall i, j :: 0 <= i < j < |listing| ==> listing[i] != listing[j])
  }

  // The deaths charged to `k` since its bookkeeping last started clean.
  function Log(charges: map<Key, seq<int>>, k: Key): seq<int> {
    if k in charges then charges[k] else []
  }

  predicate HoldsLive(w: World, k: Key) { k in w.table && w.table[k].pid in w.live }

  // ----- which steps can happen ---------------------------------------------

  predicate Enabled(w: World, a: Act) {
    match a
    case Tick(_) => true
    case Die(pid) => pid in w.live
    case RpcLoad(spec, pid, seenAlive) => pid !in w.home && (HoldsLive(w, spec.modelName) ==> seenAlive)
    case Restart(k, pid) => k in w.table && pid !in w.home
    case Unload(k, _) => k in w.table
    case Dispatch(pid) => w.queue != [] && pid !in w.home
    case LoadStep(pid, _) => pid in w.loads
    case ReconSees(k) =>
      && k in w.table && w.table[k].status.Starting? && w.table[k].spec.Gated()
      && w.now - w.table[k].startedAt >= GRACE_MS && Seat(Recon, w.table[k].pid) !in w.judges
    case JudgeStep(seat, finding) => seat in w.judges && CanFind(w, seat, finding)
    case ReapStep(pid) => pid in w.reapers && (w.reapers[pid].Waiting? ==> pid !in w.live)
    case Fetch(write) => write in w.writes
    case Commit(draft, _) => draft in w.drafts
    case Crash(listing) => IsListing(listing, w.store)
    case SweepExamines(seenAlive) =>
      w.sweep.todo != [] && w.sweep.held.None? && (HoldsLive(w, w.sweep.todo[0].spec.modelName) ==> seenAlive)
    case SweepLaunches(pid) => w.sweep.held.Some? && |w.sweep.running| < 2 && pid !in w.home
  }

  // A gate polls until an answer or the timeout; the reconciler judges by age first, then probes once.
  predicate CanFind(w: World, seat: Seat, finding: Finding)
    requires seat in w.judges
  {
    var j := w.judges[seat];
    j.Polling? ==>
      match seat.bench
      case Gate => !finding.NoAnswer?
      case Recon => finding.TimedOut? ==> w.now - j.since > Deadline(j.spec)
  }

  // ----- what they do -------------------------------------------------------

  function Do(w: World, a: Act): World
    requires Enabled(w, a)
  {
    match a
    case Tick(ms) => w.(now := w.now + ms)
    case Die(pid) => w.(live := w.live - {pid})
    case RpcLoad(spec, pid, seenAlive) => DoRpcLoad(w, spec, pid, seenAlive)
    case Restart(k, pid) => Begin(w, pid, w.table[k].spec, Operator).(table := w.table - {k})
    case Unload(k, forget) =>
      w.(table := w.table - {k}, writes := if forget then w.writes + multiset{Forget(k)} else w.writes)
    case Dispatch(pid) => Begin(w, pid, w.queue[0], Supervisor).(queue := w.queue[1..])
    case LoadStep(pid, spawned) => DoLoad(w, pid, spawned)
    case ReconSees(k) =>
      var row := w.table[k];
      w.(judges := w.judges[Seat(Recon, row.pid) := Polling(row.spec, false, row.startedAt)])
    case JudgeStep(seat, finding) => DoJudge(w, seat, finding)
    case ReapStep(pid) => DoReap(w, pid)
    case Fetch(write) => DoFetch(w, write)
    case Commit(draft, ok) => DoCommit(w, draft, ok)
    case Crash(listing) => DoCrash(w, listing)
    case SweepExamines(seenAlive) => DoExamine(w, seenAlive)
    case SweepLaunches(pid) => DoLaunch(w, pid)
  }

  function Begin(w: World, pid: Pid, spec: Spec, origin: Origin): World {
    w.(loads := w.loads[pid := Calling(spec, origin)], home := w.home[pid := spec.modelName])
  }

  // A live row of the model is answered as it stands; the RPC only affirms that it is wanted.
  function DoRpcLoad(w: World, spec: Spec, pid: Pid, seenAlive: bool): World {
    if Answered(w.table, spec.modelName, seenAlive)
    then w.(writes := w.writes + multiset{Desire(spec.modelName, spec)})
    else Begin(w, pid, spec, Rpc)
  }

  predicate Answered(table: map<Key, Row>, k: Key, seenAlive: bool) {
    k in table && !table[k].status.Failed? && seenAlive
  }

  function DoLoad(w: World, pid: Pid, spawned: bool): World
    requires pid in w.loads
  {
    match w.loads[pid]
    case Calling(spec, origin) => if spawned then DoSpawn(w, pid, spec, origin) else DoAbandon(w, pid)
    case Reading(spec, origin) =>
      w.(loads := w.loads[pid := Placing(spec, origin, Get(w.table, spec.modelName))])
    case Placing(spec, origin, prev) => DoPlace(w, pid, spec, origin, prev)
    case Settling(spec, origin, inherit, prev, checked) =>
      if checked then DoSettle(w, pid, spec, origin, inherit, prev) else DoConfirm(w, pid, spec, origin, inherit, prev)
  }

  // The reaper of a native child exists before its row does; a container has none.
  function DoSpawn(w: World, pid: Pid, spec: Spec, origin: Origin): World {
    w.(loads := w.loads[pid := Reading(spec, origin)], live := w.live + {pid},
       reapers := if spec.Native() then w.reapers[pid := Waiting(spec.modelName)] else w.reapers)
  }

  function DoAbandon(w: World, pid: Pid): World {
    w.(loads := w.loads - {pid}, sweep := Freed(w.sweep, pid))
  }

  // With a gate the load returns and leaves a judge; without one it settles the row itself.
  function DoPlace(w: World, pid: Pid, spec: Spec, origin: Origin, prev: Option<Row>): World {
    var inherit := Inherits(prev);
    w.(table := w.table[spec.modelName := EntryFor(spec, pid, Starting, inherit, prev, w.now)],
       charges := ChargesAfter(w.charges, spec.modelName, inherit, prev),
       judges := if spec.Gated() then w.judges[Seat(Gate, pid) := Polling(spec, inherit, w.now)] else w.judges,
       loads := if spec.Gated() then w.loads - {pid} else w.loads[pid := Settling(spec, origin, inherit, prev, false)],
       sweep := if spec.Gated() then Freed(w.sweep, pid) else w.sweep,
       writes := if spec.Gated() then Affirmed(w.writes, origin, spec) else w.writes)
  }

  // Before the instant `ready` only the pid is checked; a load that lost its row returns all the same.
  function DoConfirm(w: World, pid: Pid, spec: Spec, origin: Origin, inherit: bool, prev: Option<Row>): World {
    var mine := OwnsRow(w.table, spec.modelName, pid);
    w.(loads := if mine then w.loads[pid := Settling(spec, origin, inherit, prev, true)] else w.loads - {pid},
       sweep := if mine then w.sweep else Freed(w.sweep, pid),
       writes := if mine then w.writes else Affirmed(w.writes, origin, spec))
  }

  // The bookkeeping it writes is the one read before the placement.
  function DoSettle(w: World, pid: Pid, spec: Spec, origin: Origin, inherit: bool, prev: Option<Row>): World {
    w.(table := w.table[spec.modelName := EntryFor(spec, pid, Ready, inherit, prev, w.now)],
       charges := ChargesAfter(w.charges, spec.modelName, inherit, prev),
       loads := w.loads - {pid}, sweep := Freed(w.sweep, pid), writes := Affirmed(w.writes, origin, spec))
  }

  // A boot load that returns gives its permit back.
  function Freed(sweep: Sweep, pid: Pid): Sweep { sweep.(running := sweep.running - {pid}) }

  // After a load that went well, the RPC records that the model is wanted.
  function Affirmed(writes: multiset<StoreWrite>, origin: Origin, spec: Spec): multiset<StoreWrite> {
    if origin.Rpc? then writes + multiset{Desire(spec.modelName, spec)} else writes
  }

  // A row that starts clean starts a new record of charges.
  function ChargesAfter(charges: map<Key, seq<int>>, k: Key, inherit: bool, prev: Option<Row>): map<Key, seq<int>> {
    if inherit && prev.Some? then charges else charges[k := []]
  }

  function DoJudge(w: World, seat: Seat, finding: Finding): World
    requires seat in w.judges
  {
    match w.judges[seat]
    case Polling(spec, inherit, _) =>
      (match finding
       case Healthy => Decide(w, seat, Passed(spec, false, Ready))
       case TimedOut => Decide(w, seat, Killing(spec, inherit))
       case NoAnswer => w.(judges := w.judges - {seat}))
    case Killing(spec, inherit) => Decide(w, seat, Passed(spec, inherit, Failed))
    case Passed(spec, inherit, verdict) =>
      w.(judges := w.judges[seat := Landing(spec, inherit, verdict, Get(w.table, spec.modelName))])
    case Landing(spec, inherit, verdict, prev) => Land(w, seat, spec, inherit, verdict, prev)
  }

  // A judge goes on to `next` if it still owns the starting row, and stands down if not.
  function Decide(w: World, seat: Seat, next: Judge): World {
    w.(judges := if OwnsStartingRow(w.table, next.spec.modelName, seat.pid) then w.judges[seat := next]
                 else w.judges - {seat})
  }

  function Land(w: World, seat: Seat, spec: Spec, inherit: bool, verdict: Status, prev: Option<Row>): World {
    w.(judges := w.judges - {seat},
       table := w.table[spec.modelName := EntryFor(spec, seat.pid, verdict, inherit, prev, w.now)],
       charges := ChargesAfter(w.charges, spec.modelName, inherit, prev),
       verdicts := w.verdicts + [seat.pid],
       writes := if verdict.Ready? then w.writes + multiset{Zero(spec.modelName)} else w.writes)
  }

  function DoReap(w: World, pid: Pid): World
    requires pid in w.reapers
  {
    match w.reapers[pid]
    case Waiting(k) => DoCheck(w, pid, k)
    case Looking(k, flagged) => w.(reapers := w.reapers[pid := CheckedReaper(w.store, k, flagged)])
    case GivingUp(k) => w.(table := MarkedFailed(w.table, k, pid), reapers := w.reapers - {pid})
    case Charging(k, spec, cap) => DoCharge(w, pid, k, spec, cap)
    case Marking(k, spec, cap, count, stamp) => DoMark(w, pid, k, spec, cap, count, stamp)
  }

  function DoCheck(w: World, pid: Pid, k: Key): World {
    w.(reapers := if OwnsRow(w.table, k, pid) then w.reapers[pid := Looking(k, w.table[k].userFlagged)]
                  else w.reapers - {pid})
  }

  function CheckedReaper(store: Manifests, k: Key, flagged: bool): Reaper {
    if Respawnable(store, k, flagged) then Charging(k, store[k].spec, store[k].maxRestarts) else GivingUp(k)
  }

  // The charge goes to whatever row the key has now; only the marks below look at the pid.
  function DoCharge(w: World, pid: Pid, k: Key, spec: Spec, cap: nat): World {
    w.(table := Charged(w.table, k, w.now),
       charges := if k in w.table then w.charges[k := Log(w.charges, k) + [w.now]] else w.charges,
       reapers := if k in w.table
                  then w.reapers[pid := Marking(k, spec, cap, ChargedRow(w.table[k], w.now).restartCount, w.now)]
                  else w.reapers - {pid})
  }

  function DoMark(w: World, pid: Pid, k: Key, spec: Spec, cap: nat, count: nat, stamp: int): World {
    var mine := Ours(w.table, k, pid);
    w.(reapers := w.reapers - {pid},
       table := if count >= cap then MarkedExhausted(w.table, k, pid) else MarkedRestarting(w.table, k, pid),
       writes := if mine && count >= cap then w.writes + multiset{Trip(k, cap, 3)} else w.writes,
       queue := if mine && count < cap then w.queue + [spec] else w.queue,
       respawns := if mine && count < cap then w.respawns + [Respawn(k, stamp, cap, w.now)] else w.respawns)
  }

  // Whether a write gets past its read: the key is valid, and there is a manifest where one is needed.
  predicate Readable(store: Manifests, write: StoreWrite) {
    ValidKey(write.key) && (write.Zero? || write.Trip? ==> write.key in store)
  }

  function Revision(store: Manifests, write: StoreWrite): Option<Stored>
    requires Readable(store, write)
  {
    match write
    case Desire(k, spec) => Some(Inserted(store, k, spec, true)[k])
    case Forget(k) => None
    case Zero(k) => Some(Zeroed(store, k)[k])
    case Trip(k, tally, _) => Some(Tripped(store, k, tally)[k])
  }

  function DoFetch(w: World, write: StoreWrite): World {
    w.(drafts := w.drafts + Drafted(w.store, write),
       writes := w.writes - multiset{write} + if Readable(w.store, write) then multiset{} else Again(write))
  }

  function Drafted(store: Manifests, write: StoreWrite): multiset<Draft> {
    if Readable(store, write) then multiset{Draft(write, Revision(store, write))} else multiset{}
  }

  function DoCommit(w: World, draft: Draft, ok: bool): World {
    w.(drafts := w.drafts - multiset{draft},
       store := if ok then Committed(w.store, draft) else w.store,
       writes := if ok then w.writes else w.writes + Again(draft.write))
  }

  function Committed(store: Manifests, draft: Draft): Manifests {
    if draft.manifest.Some? then store[draft.write.key := draft.manifest.value] else store - {draft.write.key}
  }

  // Only the trip mark is worth a second attempt.
  function Again(write: StoreWrite): multiset<StoreWrite> {
    match write
    case Trip(k, tally, tries) => if tries > 1 then multiset{Trip(k, tally, tries - 1)} else multiset{}
    case _ => multiset{}
  }

  // Both halves of a write with nobody in between.
  function DoPersist(w: World, write: StoreWrite, ok: bool): World {
    if Readable(w.store, write) then DoCommit(DoFetch(w, write), Draft(write, Revision(w.store, write)), ok)
    else DoFetch(w, write)
  }

  // Everything in memory is lost; the next boot sweeps the manifests it finds.
  function DoCrash(w: World, listing: seq<Stored>): World {
    w.(table := map[], queue := [], loads := map[], judges := map[], reapers := map[],
       writes := multiset{}, drafts := multiset{}, charges := map[], sweep := Sweep(listing, None, {}))
  }

  function DoExamine(w: World, seenAlive: bool): World
    requires w.sweep.todo != []
  {
    var s := w.sweep.todo[0];
    var skip := !Replayable(s) || (s.spec.modelName in w.table && seenAlive);
    w.(sweep := Sweep(w.sweep.todo[1..], if skip then None else Some(s), w.sweep.running))
  }

  function DoLaunch(w: World, pid: Pid): World
    requires w.sweep.held.Some?
  {
    Begin(w, pid, w.sweep.held.value.spec, Boot).(
      sweep := Sweep(w.sweep.todo, None, w.sweep.running + {pid}))
  }

  // ----- inserts ------------------------------------------------------------

  // The row a step inserts, and the row it was computed from.
  datatype Insertion = Insertion(spec: Spec, pid: Pid, status: Status, inherit: bool, prev: Option<Row>)

  function LoadInsert(l: Load, pid: Pid): Option<Insertion> {
    match l
    case Placing(spec, _, prev) => Some(Insertion(spec, pid, Starting, Inherits(prev), prev))
    case Settling(spec, _, inherit, prev, checked) =>
      if checked then Some(Insertion(spec, pid, Ready, inherit, prev)) else None
    case _ => None
  }

  function JudgeInsert(j: Judge, pid: Pid): Option<Insertion> {
    match j
    case Landing(spec, inherit, verdict, prev) => Some(Insertion(spec, pid, verdict, inherit, prev))
    case _ => None
  }

  function InsertOf(w: World, a: Act): Option<Insertion>
    requires Enabled(w, a)
  {
    match a
    case LoadStep(pid, _) => LoadInsert(w.loads[pid], pid)
    case JudgeStep(seat, _) => JudgeInsert(w.judges[seat], seat.pid)
    case _ => None
  }

  function Entry(i: Insertion, now: int): Row { EntryFor(i.spec, i.pid, i.status, i.inherit, i.prev, now) }

  // What an insert does to the table and to the record of charges.
  function InsertTable(table: map<Key, Row>, i: Option<Insertion>, now: int): map<Key, Row> {
    if i.None? then table else table[i.value.spec.modelName := Entry(i.value, now)]
  }

  function InsertCharges(charges: map<Key, seq<int>>, i: Option<Insertion>): map<Key, seq<int>> {
    if i.None? then charges else ChargesAfter(charges, i.value.spec.modelName, i.value.inherit, i.value.prev)
  }

  // ----- runs ---------------------------------------------------------------

  ghost predicate Run(ws: seq<World>, acts: seq<Act>) {
    && |ws| == |acts| + 1
    && forall i :: 0 <= i < |acts| ==> Enabled(ws[i], acts[i]) && ws[i + 1] == Do(ws[i], acts[i])
  }

  // A daemon that has just booted over these manifests.
  predicate Booted(w: World) {
    && w.table == map[] && w.queue == [] && w.loads == map[] && w.judges == map[] && w.reapers == map[]
    && w.writes == multiset{} && w.drafts == multiset{} && w.live == {} && w.home == map[]
    && w.charges == map[] && w.respawns == [] && w.verdicts == []
    && w.sweep.held.None? && w.sweep.running == {} && IsListing(w.sweep.todo, w.store)
    && forall k :: k in w.store ==> w.store[k].spec.modelName == k
  }
}
