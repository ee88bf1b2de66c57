/**
 What each call on a job records and broadcasts, field by field, and what its closing
 event says in every run.
 */
module JobAnswers {
  import opened Wrappers
  import opened Jobs
  import opened JobEvents

  /** A new job is running, at 0 percent, and says so; nothing else on record changes but what is pruned. */
  lemma BeginAnswers(r: Registry, id: Id, kind: string)
    requires Enabled(r, Begin(id, kind))
    ensures var s := Do(r, Begin(id, kind));
      && id in s.jobs && s.jobs[id] == Job(kind, 0, "started", Status.Running, None, None, 0, 0, None)
      && s.sent == r.sent + [Event(id, kind, 0, "started", Status.Running, "", "", 0, 0)]
      && (forall k :: k in s.jobs && k != id ==> k in r.jobs && s.jobs[k] == r.jobs[k])
  {
    hide Newest; hide Kept;
  }

  /**
   Progress of a running job: clamped to 0..100, the byte counter never negative, the total
   kept unless a positive one comes. A job that has ended, or that is unknown, is left alone.
   */
  lemma ReportAnswers(r: Registry, id: Id, progress: int, message: string, bytes: int, total: int)
    requires Enabled(r, Report(id, progress, message, bytes, total))
    ensures var s := Do(r, Report(id, progress, message, bytes, total));
      if id in r.jobs && r.jobs[id].status == Status.Running then
        var was, job := r.jobs[id], s.jobs[id];
        && s.jobs == r.jobs[id := job] && 0 <= job.progress <= 100
        && (0 <= progress <= 100 ==> job.progress == progress)
        && (progress < 0 ==> job.progress == 0) && (progress > 100 ==> job.progress == 100)
        && job.message == message && job.kind == was.kind && job.status == Status.Running
        && job.result == was.result && job.error == was.error && job.endedAt == was.endedAt
        && (bytes >= 0 ==> job.bytes == bytes) && (bytes < 0 ==> job.bytes == 0)
        && (total > 0 ==> job.total == total) && (total <= 0 ==> job.total == was.total)
        && s.sent == r.sent + [Event(id, job.kind, job.progress, message, Status.Running,
                                     Text(job.result), Text(job.error), job.bytes, job.total)]
      else s == r
  {
    hide Newest;
  }

  // How an optional text goes over the wire.
  function Text(t: Option<string>): string {
    match t case Some(s) => s case None => ""
  }

  /**
   The end of a running job by its runner: succeeded if and only if the runner said so, then
   at 100 percent; result and error as they were handed in; the end is now. A job that has
   ended keeps what it has.
   */
  lemma FinishAnswers(r: Registry, o: Outcome)
    requires Enabled(r, Finish(o))
    ensures var s, id := Do(r, Finish(o)), o.id;
      if id in r.jobs && r.jobs[id].status == Status.Running then
        var was, job := r.jobs[id], s.jobs[id];
        && s.jobs == r.jobs[id := job]
        && (job.status == Succeeded <==> o.success) && (job.status == Failed <==> !o.success)
        && job.progress == (if o.success then 100 else was.progress)
        && job.result == o.result && job.error == o.error && job.endedAt == Some(r.now)
        && job.kind == was.kind && job.message == was.message && job.bytes == was.bytes && job.total == was.total
        && s.sent == r.sent + [Event(id, was.kind, job.progress, was.message, job.status,
                                     Text(o.result), Text(o.error), was.bytes, was.total)]
      else s.jobs == r.jobs && s.sent == r.sent && s.history == r.history
  {
    hide Newest;
  }

  /** The end of a running job by a client: cancelled, now, and nothing else of it changes. */
  lemma CancelAnswers(r: Registry, id: Id)
    requires Enabled(r, Cancel(id))
    ensures var s := Do(r, Cancel(id));
      if id in r.jobs && r.jobs[id].status == Status.Running then
        var was := r.jobs[id];
        && s.jobs == r.jobs[id := Job(was.kind, was.progress, was.message, Cancelled, was.result, was.error,
                                      was.bytes, was.total, Some(r.now))]
        && s.sent == r.sent + [Event(id, was.kind, was.progress, was.message, Cancelled,
                                     Text(was.result), Text(was.error), was.bytes, was.total)]
      else s == r
  {
    hide Newest;
  }

  /**
   What a job's record and its last event say for good, in every run: succeeded, failed or
   cancelled, by the call that ended it and by what its runner said.
   */
  lemma EndsAsItWasEnded(rs: seq<Registry>, acts: seq<Act>, i: nat, j: nat, k: Id)
    requires Run(rs, acts) && New(rs[0]) && i < j <= |acts|
    requires k in rs[i].jobs && rs[i].jobs[k].status == Status.Running
    requires acts[i] == Cancel(k) || (acts[i].Finish? && acts[i].outcome.id == k)
    ensures var es, was := Of(rs[j].sent, k), rs[i].jobs[k];
      && es != [] && es[..|es| - 1] == Of(rs[i].sent, k)
      && var e := es[|es| - 1];
         && (e.status == Cancelled <==> acts[i].Cancel?)
         && (e.status == Succeeded <==> acts[i].Finish? && acts[i].outcome.success)
         && (e.status == Failed <==> acts[i].Finish? && !acts[i].outcome.success)
         && e.progress == (if acts[i].Finish? && acts[i].outcome.success then 100 else was.progress)
         && e.result == Text(if acts[i].Finish? then acts[i].outcome.result else was.result)
         && e.error == Text(if acts[i].Finish? then acts[i].outcome.error else was.error)
         && (k in rs[j].jobs ==>
              && rs[j].jobs[k].status == e.status && rs[j].jobs[k].progress == e.progress
              && rs[j].jobs[k].endedAt == Some(rs[i].now))
  {
    hide Do; hide Of; hide New; hide Enabled; hide Closed;
    FirstEndWins(rs, acts, i, j, k);
    var last := EndOf(rs[i].jobs[k], acts[i], rs[i].now);
    var es := Of(rs[j].sent, k);
    assert es == Of(rs[i].sent, k) + [ToEvent(k, last)];
  }
}
