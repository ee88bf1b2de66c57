/** Cancellation: who owns a token, and which calls of `cancelled()` a cancel wakes. */
module JobTokens {
  import opened Wrappers
  import opened Jobs
  import opened JobEvents

  // A finish of `k` is between taking the token and taking the jobs lock.
  ghost predicate Finishing(r: Registry, k: Id) { exists o :: o in r.finishing && o.id == k }

  // Calls in flight are about jobs whose `start` is through, and only an ended job is being fired.
  ghost predicate Tidy(r: Registry) {
    && r.jobs.Keys <= r.known && r.starting.Keys <= r.known && r.tokens <= r.known
    && (forall o :: o in r.finishing ==> HasHandle(r, o.id))
    && (forall k :: k in r.firing || k in r.fired ==> HasHandle(r, k) && !Active(r.jobs, k))
    && (forall k :: k in r.starting ==> Active(r.jobs, k) && k !in r.tokens)
    && r.firing !! r.fired
  }

  lemma TidyEmit(r: Registry, id: Id, job: Job)
    requires Tidy(r) && Active(r.jobs, id) && (id in r.starting ==> job.status.Running?)
    ensures Tidy(Emit(r, id, job))
  {
    assert Emit(r, id, job).jobs.Keys == r.jobs.Keys;
  }

  lemma TidyBegin(r: Registry, id: Id, kind: string)
    requires Tidy(r) && id !in r.known
    ensures Tidy(DoBegin(r, id, kind))
  {
    hide Newest; hide Of;
  }

  lemma TidyEnd(r: Registry, id: Id, job: Job)
    requires Tidy(r) && Active(r.jobs, id) && id !in r.starting && !job.status.Running?
    ensures Tidy(Emit(r, id, job).(firing := r.firing + {id}))
  {
    TidyEmit(r, id, job);
  }

  lemma TidyFinish(r: Registry, o: Outcome)
    requires Tidy(r) && o in r.finishing
    ensures Tidy(DoFinish(r, o).(finishing := r.finishing - multiset{o}))
  {
    if Active(r.jobs, o.id) { TidyEmit(r, o.id, Finished(r.jobs[o.id], o, r.now)); }
    hide Emit;
    var s := DoFinish(r, o);
    assert Tidy(s);
    assert forall p :: p in s.finishing - multiset{o} ==> p in s.finishing;
  }

  lemma TidyTake(r: Registry, o: Outcome)
    requires Tidy(r) && HasHandle(r, o.id)
    ensures Tidy(r.(tokens := r.tokens - {o.id}, finishing := r.finishing + multiset{o}))
  {
  }

  lemma TidyKept(r: Registry, a: Act)
    requires Tidy(r) && Enabled(r, a)
    ensures Tidy(Do(r, a))
  {
    match a
    case Tick(_) =>
    case Begin(id, kind) => TidyBegin(r, id, kind);
    case StartStep(id) =>
    case Report(id, progress, message, bytes, total) =>
      if Active(r.jobs, id) { TidyEmit(r, id, Reported(r.jobs[id], progress, message, bytes, total)); }
      hide Tidy; hide Emit;
    case TakeToken(o) => TidyTake(r, o); hide Tidy; hide Emit;
    case Finish(o) => TidyFinish(r, o); hide Tidy; hide Emit;
    case Cancel(id) =>
      if Active(r.jobs, id) { TidyEnd(r, id, CancelledJob(r.jobs[id], r.now)); }
      hide Tidy; hide Emit;
    case Fire(id) =>
  }

  lemma {:induction false} RunsAreTidy(rs: seq<Registry>, acts: seq<Act>, i: nat)
    requires Run(rs, acts) && New(rs[0]) && i <= |acts|
    ensures Tidy(rs[i])
  {
    if i > 0 {
      RunsAreTidy(rs, acts, i - 1);
      TidyKept(rs[i - 1], acts[i - 1]);
    }
  }

  // The step takes the token of `k` away without firing it.
  predicate Loses(r: Registry, a: Act, k: Id)
    requires Enabled(r, a)
  {
    (a.TakeToken? && a.outcome.id == k) || DropsToken(r, a, k)
  }

  lemma EmitFrame(r: Registry, id: Id, job: Job)
    ensures Emit(r, id, job).tokens == r.tokens && Emit(r, id, job).fired == r.fired
  {
    hide Newest; hide ToEvent;
  }

  lemma TokenMoves(r: Registry, a: Act, k: Id)
    requires Tidy(r) && Enabled(r, a) && HasHandle(r, k)
    ensures var s := Do(r, a);
      && (k in s.tokens <==> k in r.tokens && !Loses(r, a, k) && a != Fire(k))
      && (k in s.fired <==> k in r.fired || (k in r.tokens && a == Fire(k)))
  {
    hide Emit; hide Pruned; hide Retained; hide Reported; hide CancelledJob; hide Finished;
    match a
    case Begin(id, kind) => EmitFrame(r.(jobs := Pruned(r.jobs, r.now)), id, Fresh(kind));
    case Report(id, progress, message, bytes, total) =>
      if Active(r.jobs, id) { EmitFrame(r, id, Reported(r.jobs[id], progress, message, bytes, total)); }
    case Finish(o) => if Active(r.jobs, o.id) { EmitFrame(r, o.id, Finished(r.jobs[o.id], o, r.now)); }
    case Cancel(id) => if Active(r.jobs, id) { EmitFrame(r, id, CancelledJob(r.jobs[id], r.now)); }
    case _ =>
  }

  lemma HandleStays(r: Registry, a: Act, k: Id)
    requires Enabled(r, a) && HasHandle(r, k)
    ensures HasHandle(Do(r, a), k)
  {
    hide Pruned; hide Retained; hide ToEvent; hide Newest; hide Reported; hide CancelledJob; hide Finished;
  }

  lemma FiringStep(r: Registry, a: Act, k: Id)
    requires Enabled(r, a)
    ensures k in Do(r, a).firing ==> k in r.firing || !Active(Do(r, a).jobs, k)
  {
    hide Pruned; hide Retained; hide ToEvent; hide Newest; hide Reported; hide Finished;
  }

  lemma TokenStep(r: Registry, a: Act, k: Id)
    requires Tidy(r) && Enabled(r, a) && HasHandle(r, k)
    ensures var s := Do(r, a);
      && HasHandle(s, k)
      && (k in s.tokens <==> k in r.tokens && !Loses(r, a, k) && a != Fire(k))
      && (k in s.fired <==> k in r.fired || (k in r.tokens && a == Fire(k)))
      && (k in s.firing ==> k in r.firing || !Active(s.jobs, k))
  {
    hide Do; hide Tidy; hide Loses;
    HandleStays(r, a, k);
    TokenMoves(r, a, k);
    FiringStep(r, a, k);
  }

  // ----- a finish under way -------------------------------------------------

  lemma FinishingStep(r: Registry, a: Act, k: Id)
    requires Enabled(r, a) && !(a.Finish? && a.outcome.id == k)
    ensures Finishing(Do(r, a), k) <==> Finishing(r, k) || (a.TakeToken? && a.outcome.id == k)
  {
    var s := Do(r, a);
    match a
    case TakeToken(o) =>
      assert o in s.finishing;
      assert forall p: Outcome :: p in s.finishing <==> p in r.finishing || p == o;
    case Finish(o) =>
      assert forall p: Outcome :: p.id == k ==> (p in s.finishing <==> p in r.finishing);
    case _ =>
      assert s.finishing == r.finishing;
  }

  // ----- a running job owns a token -----------------------------------------

  // A prune has dropped the token of `k` since there is a handle of it.
  ghost predicate DroppedBefore(rs: seq<Registry>, acts: seq<Act>, i: nat, k: Id)
    requires Run(rs, acts) && i <= |acts|
  {
    exists m :: 0 <= m < i && HasHandle(rs[m], k) && DropsToken(rs[m], acts[m], k)
  }

  lemma DroppedLater(rs: seq<Registry>, acts: seq<Act>, i: nat, k: Id)
    requires Run(rs, acts) && i < |acts|
    ensures DroppedBefore(rs, acts, i + 1, k) <==>
      DroppedBefore(rs, acts, i, k) || (HasHandle(rs[i], k) && DropsToken(rs[i], acts[i], k))
  {
  }

  lemma HandleIsNew(rs: seq<Registry>, acts: seq<Act>, i: nat, k: Id)
    requires Run(rs, acts) && New(rs[0]) && i <= |acts| && !HasHandle(rs[i], k)
    ensures !DroppedBefore(rs, acts, i, k)
  {
    hide Do; hide Enabled; hide DropsToken;
    forall m | 0 <= m < i ensures !HasHandle(rs[m], k) {
      if HasHandle(rs[m], k) { TokenLife(rs, acts, m, i, k); }
    }
  }

  // The step hands out the handle, and the token with it.
  lemma OwnedAtFirst(r: Registry, a: Act, k: Id)
    requires Tidy(r) && Enabled(r, a) && !HasHandle(r, k) && HasHandle(Do(r, a), k)
    ensures k in Do(r, a).tokens && !Finishing(Do(r, a), k)
  {
    hide Finishing; hide Of; hide Newest; hide Pruned; hide Retained; hide Kept;
    Recorded(r, a, k);
    assert a == StartStep(k) && r.starting[k].Minting?;
    FinishingStep(r, a, k);
    assert Finishing(r, k) ==> HasHandle(r, k) by { HandleOfFinishing(r, k); }
  }

  lemma HandleOfFinishing(r: Registry, k: Id)
    requires Tidy(r)
    ensures Finishing(r, k) ==> HasHandle(r, k)
  {
  }

  lemma OwnedOn(r: Registry, a: Act, k: Id)
    requires Tidy(r) && Enabled(r, a) && HasHandle(r, k) && Active(Do(r, a).jobs, k)
    ensures Active(r.jobs, k)
    ensures k in Do(r, a).tokens <==> k in r.tokens && !Loses(r, a, k)
    ensures Finishing(Do(r, a), k) <==> Finishing(r, k) || (a.TakeToken? && a.outcome.id == k)
  {
    hide Do; hide Finishing; hide Tidy;
    StillActive(r, a, k);
    FinishingStep(r, a, k);
    TokenStep(r, a, k);
  }

  lemma StillActive(r: Registry, a: Act, k: Id)
    requires Tidy(r) && Enabled(r, a) && HasHandle(r, k) && Active(Do(r, a).jobs, k)
    ensures Active(r.jobs, k) && a != Fire(k) && !(a.Finish? && a.outcome.id == k)
  {
    hide Do; hide Finishing; hide Of;
    Recorded(r, a, k);
  }

  /**
   A running job owns its token exactly while no finish of it is under way and no prune
   has dropped the token behind the job's back; and its token has not been fired. So only
   such a prune makes `cancelled()` resolve before its job is over.
   */
  lemma {:induction false} RunningJobOwnsToken(rs: seq<Registry>, acts: seq<Act>, i: nat, k: Id)
    requires Run(rs, acts) && New(rs[0]) && i <= |acts| && Active(rs[i].jobs, k)
    ensures HasHandle(rs[i], k) ==>
      (k in rs[i].tokens <==> !Finishing(rs[i], k) && !DroppedBefore(rs, acts, i, k))
    ensures k !in rs[i].fired
  {
    hide Do; hide Enabled; hide Finishing; hide DroppedBefore; hide DropsToken;
    RunsAreTidy(rs, acts, i);
    if i > 0 && HasHandle(rs[i], k) {
      RunsAreTidy(rs, acts, i - 1);
      DroppedLater(rs, acts, i - 1, k);
      if HasHandle(rs[i - 1], k) {
        OwnedOn(rs[i - 1], acts[i - 1], k);
        RunningJobOwnsToken(rs, acts, i - 1, k);
      } else {
        OwnedAtFirst(rs[i - 1], acts[i - 1], k);
        HandleIsNew(rs, acts, i - 1, k);
      }
    }
  }

  /** Starts that do not overlap drop no token of a job on record. */
  lemma LoneStartsDropNoToken(rs: seq<Registry>, acts: seq<Act>, i: nat, k: Id)
    requires RunOfLoneStarts(rs, acts) && New(rs[0]) && i < |acts| && k in rs[i].jobs
    ensures !DropsToken(rs[i], acts[i], k)
  {
    LoneStartsCover(rs, acts, i);
  }

  // ----- who is woken -------------------------------------------------------

  // A call of `cancelled()` made now holds a clone of the token, or returns at once if there is none.
  predicate Waits(r: Registry, k: Id) { k in r.tokens }

  ghost predicate LostBetween(rs: seq<Registry>, acts: seq<Act>, i: nat, m: nat, k: Id)
    requires Run(rs, acts) && i <= m <= |acts|
  {
    exists x :: i <= x < m && Loses(rs[x], acts[x], k)
  }

  // What is there is what was there and nobody took; what is gone stays as it went.
  lemma {:induction false} TokenLife(rs: seq<Registry>, acts: seq<Act>, i: nat, m: nat, k: Id)
    requires Run(rs, acts) && New(rs[0]) && i <= m <= |acts| && HasHandle(rs[i], k)
    ensures HasHandle(rs[m], k) && (k in rs[i].fired ==> k in rs[m].fired)
    ensures k !in rs[i].tokens ==> k !in rs[m].tokens && (k in rs[m].fired <==> k in rs[i].fired)
    ensures k in rs[i].tokens && k !in rs[m].fired ==> (k in rs[m].tokens <==> !LostBetween(rs, acts, i, m, k))
  {
    if i < m {
      TokenLife(rs, acts, i, m - 1, k);
      RunsAreTidy(rs, acts, m - 1);
      TokenStep(rs[m - 1], acts[m - 1], k);
      LostLater(rs, acts, i, m, k);
      hide Do; hide LostBetween; hide Loses;
    }
  }

  lemma LostLater(rs: seq<Registry>, acts: seq<Act>, i: nat, m: nat, k: Id)
    requires Run(rs, acts) && i < m <= |acts|
    ensures LostBetween(rs, acts, i, m, k) <==>
      LostBetween(rs, acts, i, m - 1, k) || Loses(rs[m - 1], acts[m - 1], k)
  {
  }

  /** Once a cancel has returned true, every later call of `cancelled()` returns at once. */
  lemma AfterACancelNoneWaits(rs: seq<Registry>, acts: seq<Act>, m: nat, j: nat, k: Id)
    requires Run(rs, acts) && New(rs[0]) && m < j <= |acts| && acts[m] == Fire(k)
    ensures !Waits(rs[j], k)
  {
    RunsAreTidy(rs, acts, m);
    TokenStep(rs[m], acts[m], k);
    TokenLife(rs, acts, m + 1, j, k);
  }

  /**
   Whom a cancel wakes: a call of `cancelled()` that was waiting when it fired is woken
   exactly if, between the call and the firing, no finish took the token and no prune
   dropped it.
   */
  lemma WhomACancelWakes(rs: seq<Registry>, acts: seq<Act>, i: nat, m: nat, j: nat, k: Id)
    requires Run(rs, acts) && New(rs[0]) && i <= m < j <= |acts| && acts[m] == Fire(k)
    requires HasHandle(rs[i], k) && Waits(rs[i], k)
    ensures k in rs[j].fired <==> !LostBetween(rs, acts, i, m, k)
  {
    RunsAreTidy(rs, acts, m);
    TokenLife(rs, acts, i, m, k);
    TokenStep(rs[m], acts[m], k);
    TokenLife(rs, acts, m + 1, j, k);
  }
}
