/**
 The job registry as a transition system.

 A step is one critical section of one call, so the calls of any number of
 runners and clients interleave: `start` is four sections, `finish` and `cancel`
 are two each. What a call still has to do is kept as data (`starting`,
 `finishing`, `firing`). Subscribing and asking for a token only read.

 `sent` is the whole broadcast; a receiver made when it had length `n` is handed
 exactly the events from position `n` on. Ids are fresh and reach nobody before
 `start` returns.
 */
module Jobs {
  import opened Wrappers

  type Id = string

  datatype Status = Running | Succeeded | Failed | Cancelled

  datatype Job = Job(kind: string, progress: int, message: string, status: Status,
                     result: Option<string>, error: Option<string>,
                     bytes: int, total: int, endedAt: Option<int>)

  datatype Event = Event(id: Id, kind: string, progress: int, message: string, status: Status,
                         result: string, error: string, bytes: int, total: int)

  const HISTORY_CAPACITY: nat := 512
  const PRUNE_AGE_MS: int := 3_600_000

  function OrEmpty(s: Option<string>): string { if s.Some? then s.value else "" }

  function ToEvent(id: Id, job: Job): Event {
    Event(id, job.kind, job.progress, job.message, job.status,
          OrEmpty(job.result), OrEmpty(job.error), job.bytes, job.total)
  }

  // What a runner or its handle hands to `finish`.
  datatype Outcome = Outcome(id: Id, success: bool, result: Option<string>, error: Option<string>)

  // Where a call of `start` stands; `live` are the ids it saw under the jobs lock.
  datatype Start = PruningTokens(live: set<Id>) | PruningHistory(live: set<Id>) | Minting

  datatype Registry = Registry(
    jobs: map<Id, Job>, history: map<Id, seq<Event>>, tokens: set<Id>, sent: seq<Event>,
    fired: set<Id>, known: set<Id>,
    starting: map<Id, Start>, finishing: multiset<Outcome>, firing: set<Id>, now: int)

  datatype Act =
    | Tick(ms: nat)
    | Begin(id: Id, kind: string)
    | StartStep(id: Id)
    | Report(id: Id, progress: int, message: string, bytes: int, total: int)
    | TakeToken(outcome: Outcome)
    | Finish(outcome: Outcome)
    | Cancel(id: Id)
    | Fire(id: Id)

  // The newest `n` elements.
  function Newest<T>(s: seq<T>, n: nat): seq<T> {
    if |s| <= n then s else s[|s| - n..]
  }

  // The events of one job, in the order they were sent.
  function Of(sent: seq<Event>, id: Id): seq<Event> {
    if sent == [] then []
    else
      var e := sent[|sent| - 1];
      Of(sent[..|sent| - 1], id) + if e.id == id then [e] else []
  }

  function Ring(history: map<Id, seq<Event>>, id: Id): seq<Event> {
    if id in history then history[id] else []
  }

  predicate Active(jobs: map<Id, Job>, id: Id) { id in jobs && jobs[id].status.Running? }

  // A handle exists once `start` has spawned the runner.
  predicate HasHandle(r: Registry, id: Id) { id in r.known && id !in r.starting }

  predicate Enabled(r: Registry, a: Act) {
    match a
    case Tick(_) => true
    case Begin(id, _) => id !in r.known
    case StartStep(id) => id in r.starting
    case Report(id, _, _, _, _) => HasHandle(r, id)
    case TakeToken(o) => HasHandle(r, o.id)
    case Finish(o) => o in r.finishing
    case Cancel(id) => id !in r.starting
    case Fire(id) => id in r.firing
  }

  function Do(r: Registry, a: Act): Registry
    requires Enabled(r, a)
  {
    match a
    case Tick(ms) => r.(now := r.now + ms)
    case Begin(id, kind) => DoBegin(r, id, kind)
    case StartStep(id) => DoStart(r, id)
    case Report(id, progress, message, bytes, total) =>
      if Active(r.jobs, id) then Emit(r, id, Reported(r.jobs[id], progress, message, bytes, total)) else r
    case TakeToken(o) => r.(tokens := r.tokens - {o.id}, finishing := r.finishing + multiset{o})
    case Finish(o) => DoFinish(r, o).(finishing := r.finishing - multiset{o})
    case Cancel(id) =>
      if Active(r.jobs, id) then Emit(r, id, CancelledJob(r.jobs[id], r.now)).(firing := r.firing + {id}) else r
    case Fire(id) =>
      r.(tokens := r.tokens - {id}, firing := r.firing - {id},
         fired := if id in r.tokens then r.fired + {id} else r.fired)
  }

  // Store the job, keep its event for late subscribers, broadcast it: one section.
  function Emit(r: Registry, id: Id, job: Job): Registry {
    var e := ToEvent(id, job);
    r.(jobs := r.jobs[id := job],
       history := r.history[id := Newest(Ring(r.history, id) + [e], HISTORY_CAPACITY)],
       sent := r.sent + [e])
  }

  predicate Kept(job: Job, now: int) {
    job.status.Running? || (job.endedAt.Some? && now - job.endedAt.value < PRUNE_AGE_MS)
  }

  function Pruned(jobs: map<Id, Job>, now: int): map<Id, Job> {
    map id | id in jobs && Kept(jobs[id], now) :: jobs[id]
  }

  function Fresh(kind: string): Job { Job(kind, 0, "started", Status.Running, None, None, 0, 0, None) }

  function Clamped(progress: int): int { if progress < 0 then 0 else if progress > 100 then 100 else progress }

  function Reported(job: Job, progress: int, message: string, bytes: int, total: int): Job {
    job.(progress := Clamped(progress), message := message,
         bytes := if bytes > 0 then bytes else 0,
         total := if total > 0 then total else job.total)
  }

  function CancelledJob(job: Job, now: int): Job { job.(status := Cancelled, endedAt := Some(now)) }

  function Finished(job: Job, o: Outcome, now: int): Job {
    job.(status := if o.success then Succeeded else Failed,
         progress := if o.success then 100 else job.progress,
         result := o.result, error := o.error, endedAt := Some(now))
  }

  function DoBegin(r: Registry, id: Id, kind: string): Registry {
    var kept := Pruned(r.jobs, r.now);
    Emit(r.(jobs := kept), id, Fresh(kind)).(
      known := r.known + {id}, starting := r.starting[id := PruningTokens(kept.Keys + {id})])
  }

  function DoStart(r: Registry, id: Id): Registry
    requires id in r.starting
  {
    match r.starting[id]
    case PruningTokens(live) => r.(tokens := r.tokens * live, starting := r.starting[id := PruningHistory(live)])
    case PruningHistory(live) => r.(history := Retained(r.history, live), starting := r.starting[id := Minting])
    case Minting => r.(tokens := r.tokens + {id}, starting := r.starting - {id})
  }

  function Retained(history: map<Id, seq<Event>>, live: set<Id>): map<Id, seq<Event>> {
    map id | id in history && id in live :: history[id]
  }

  function DoFinish(r: Registry, o: Outcome): Registry {
    if Active(r.jobs, o.id) then Emit(r, o.id, Finished(r.jobs[o.id], o, r.now)) else r
  }

  ghost predicate Run(rs: seq<Registry>, acts: seq<Act>) {
    && |rs| == |acts| + 1
    && forall i :: 0 <= i < |acts| ==> Enabled(rs[i], acts[i]) && rs[i + 1] == Do(rs[i], acts[i])
  }

  predicate New(r: Registry) {
    r.jobs == map[] && r.history == map[] && r.tokens == {} && r.sent == [] && r.fired == {} && r.known == {}
    && r.starting == map[] && r.finishing == multiset{} && r.firing == {}
  }

  // A prune whose snapshot of the live ids lacks `id`.
  predicate DropsRing(r: Registry, a: Act, id: Id)
    requires Enabled(r, a)
  {
    a.StartStep? && r.starting[a.id].PruningHistory? && id !in r.starting[a.id].live
  }

  predicate DropsToken(r: Registry, a: Act, id: Id)
    requires Enabled(r, a)
  {
    a.StartStep? && r.starting[a.id].PruningTokens? && id !in r.starting[a.id].live
  }

  // No `start` begins while another one is between its sections.
  predicate StartsAlone(r: Registry, a: Act) { a.Begin? ==> r.starting == map[] }
}
