/** What every run of the registry tells about one job, and what a subscriber gets of it. */
module JobEvents {
  import opened Wrappers
  import opened Jobs

  lemma {:induction false} OfConcat(a: seq<Event>, b: seq<Event>, k: Id)
    ensures Of(a + b, k) == Of(a, k) + Of(b, k)
  {
    if b == [] {
      assert a + b == a;
    } else {
      OfConcat(a, b[..|b| - 1], k);
      assert (a + b)[..|a + b| - 1] == a + b[..|b| - 1];
    }
  }

  lemma OfAppend(a: seq<Event>, e: Event, k: Id)
    ensures Of(a + [e], k) == Of(a, k) + if e.id == k then [e] else []
  {
    assert (a + [e])[..|a + [e]| - 1] == a;
  }

  // The job a step puts on record, if it does: each such step sends one event.
  function Written(r: Registry, a: Act): Option<(Id, Job)>
    requires Enabled(r, a)
  {
    match a
    case Begin(id, kind) => Some((id, Fresh(kind)))
    case Report(id, progress, message, bytes, total) =>
      if Active(r.jobs, id) then Some((id, Reported(r.jobs[id], progress, message, bytes, total))) else None
    case Finish(o) => if Active(r.jobs, o.id) then Some((o.id, Finished(r.jobs[o.id], o, r.now))) else None
    case Cancel(id) => if Active(r.jobs, id) then Some((id, CancelledJob(r.jobs[id], r.now))) else None
    case _ => None
  }

  // The events of `k` a step sends: one or none.
  function News(r: Registry, a: Act, k: Id): seq<Event>
    requires Enabled(r, a)
  {
    var w := Written(r, a);
    if w.Some? && w.value.0 == k then [ToEvent(k, w.value.1)] else []
  }

  lemma EmitSends(r: Registry, id: Id, job: Job)
    ensures Emit(r, id, job).sent == r.sent + [ToEvent(id, job)]
  {
    hide Newest; hide ToEvent;
  }

  lemma Sends(r: Registry, a: Act)
    requires Enabled(r, a)
    ensures var w := Written(r, a);
      Do(r, a).sent == r.sent + if w.Some? then [ToEvent(w.value.0, w.value.1)] else []
  {
    hide Emit; hide ToEvent; hide Fresh; hide Reported; hide CancelledJob; hide Finished; hide Pruned; hide Retained;
    var w := Written(r, a);
    if w.Some? {
      EmitSends(if a.Begin? then r.(jobs := Pruned(r.jobs, r.now)) else r, w.value.0, w.value.1);
    }
  }

  lemma Heard(r: Registry, a: Act, k: Id)
    requires Enabled(r, a)
    ensures Of(Do(r, a).sent, k) == Of(r.sent, k) + News(r, a, k)
    ensures r.sent <= Do(r, a).sent
  {
    hide Of; hide Do; hide ToEvent; hide Written;
    Sends(r, a);
    var w := Written(r, a);
    if w.Some? {
      OfAppend(r.sent, ToEvent(w.value.0, w.value.1), k);
      SentTo(w.value.0, w.value.1);
    } else {
      assert r.sent + [] == r.sent;
    }
  }

  lemma SentTo(id: Id, job: Job)
    ensures ToEvent(id, job).id == id
  {
  }

  lemma Kept512(r: Registry, a: Act, k: Id)
    requires Enabled(r, a)
    ensures Ring(Do(r, a).history, k) ==
      if DropsRing(r, a, k) then []
      else if News(r, a, k) == [] then Ring(r.history, k)
      else Newest(Ring(r.history, k) + News(r, a, k), HISTORY_CAPACITY)
  {
    hide Newest; hide Emit; hide Pruned; hide Fresh; hide Reported; hide CancelledJob; hide Finished; hide ToEvent;
    var w := Written(r, a);
    if w.Some? {
      EmitRings(if a.Begin? then r.(jobs := Pruned(r.jobs, r.now)) else r, w.value.0, w.value.1, k);
    }
  }

  lemma EmitRings(r: Registry, id: Id, job: Job, k: Id)
    ensures Ring(Emit(r, id, job).history, k) ==
      if k == id then Newest(Ring(r.history, k) + [ToEvent(id, job)], HISTORY_CAPACITY) else Ring(r.history, k)
  {
    hide Newest; hide ToEvent;
  }

  lemma RecordedBegin(r: Registry, id: Id, kind: string, k: Id)
    requires id !in r.known
    ensures var s := DoBegin(r, id, kind);
      && (k in s.jobs <==> k == id || (k in r.jobs && Kept(r.jobs[k], r.now)))
      && (k in s.jobs ==> s.jobs[k] == if k == id then Fresh(kind) else r.jobs[k])
  {
    hide Of; hide Newest; hide Kept; hide Fresh;
  }

  lemma Recorded(r: Registry, a: Act, k: Id)
    requires Enabled(r, a)
    ensures var s, w := Do(r, a), Written(r, a);
      && (k in s.jobs <==> (w.Some? && w.value.0 == k) || (k in r.jobs && (a.Begin? ==> Kept(r.jobs[k], r.now))))
      && (k in s.jobs ==> s.jobs[k] == if w.Some? && w.value.0 == k then w.value.1 else r.jobs[k])
      && (k in s.known <==> k in r.known || (a.Begin? && a.id == k))
  {
    hide Of; hide Newest; hide Kept; hide Fresh; hide Reported; hide CancelledJob; hide Finished; hide Pruned;
    hide Retained;
    if a.Begin? { RecordedBegin(r, a.id, a.kind, k); }
  }

  predicate Closed(e: Event) { !e.status.Running? }

  /**
   What the broadcast says about `k`: nothing before it was started, then running
   events, the newest of them always the state on record; once it has ended, one
   closing event, which is the last.
   */
  predicate Told(jobs: map<Id, Job>, known: set<Id>, es: seq<Event>, k: Id) {
    if k !in known then es == [] && k !in jobs
    else
      && es != []
      && (forall i :: 0 <= i < |es| - 1 ==> !Closed(es[i]))
      && (k in jobs ==> es[|es| - 1] == ToEvent(k, jobs[k]))
      && (k !in jobs ==> Closed(es[|es| - 1]))
  }

  predicate Dated(jobs: map<Id, Job>, now: int) {
    forall k :: k in jobs ==>
      if jobs[k].status.Running? then jobs[k].endedAt.None?
      else jobs[k].endedAt.Some? && jobs[k].endedAt.value <= now
  }

  predicate Sound(r: Registry, k: Id) {
    Told(r.jobs, r.known, Of(r.sent, k), k) && Dated(r.jobs, r.now) && r.jobs.Keys <= r.known
  }

  lemma ToldKept(r: Registry, a: Act, k: Id)
    requires Sound(r, k) && Enabled(r, a)
    ensures Told(Do(r, a).jobs, Do(r, a).known, Of(Do(r, a).sent, k), k)
  {
    hide Do; hide Of; hide Newest; hide Dated;
    Heard(r, a, k);
    Recorded(r, a, k);
  }

  lemma DatedKept(r: Registry, a: Act)
    requires Dated(r.jobs, r.now) && Enabled(r, a)
    ensures Dated(Do(r, a).jobs, Do(r, a).now)
  {
    hide Do; hide Of;
    TimeMovesOn(r, a);
    forall k | k in Do(r, a).jobs { Recorded(r, a, k); }
  }

  lemma TimeMovesOn(r: Registry, a: Act)
    requires Enabled(r, a)
    ensures Do(r, a).now >= r.now
  {
    hide Of; hide Newest; hide Pruned; hide Retained;
  }

  lemma SoundKept(r: Registry, a: Act, k: Id)
    requires Sound(r, k) && Enabled(r, a)
    ensures Sound(Do(r, a), k)
  {
    ToldKept(r, a, k);
    DatedKept(r, a);
    forall j | j in Do(r, a).jobs { Recorded(r, a, j); }
    hide Do; hide Of; hide Told; hide Dated;
  }

  lemma {:induction false} RunsAreSound(rs: seq<Registry>, acts: seq<Act>, i: nat, k: Id)
    requires Run(rs, acts) && New(rs[0]) && i <= |acts|
    ensures Sound(rs[i], k)
  {
    if i > 0 {
      RunsAreSound(rs, acts, i - 1, k);
      SoundKept(rs[i - 1], acts[i - 1], k);
    }
  }

  // ----- the end of a job ---------------------------------------------------

  predicate Ends(a: Act, k: Id) { a == Cancel(k) || (a.Finish? && a.outcome.id == k) }

  function EndOf(job: Job, a: Act, now: int): Job
    requires a.Cancel? || a.Finish?
  {
    if a.Cancel? then CancelledJob(job, now) else Finished(job, a.outcome, now)
  }

  predicate Over(r: Registry, k: Id) { k in r.known && !Active(r.jobs, k) }

  lemma OverKept(r: Registry, a: Act, k: Id)
    requires Over(r, k) && Enabled(r, a)
    ensures var s := Do(r, a);
      && Over(s, k) && Of(s.sent, k) == Of(r.sent, k)
      && (k in s.jobs ==> k in r.jobs && s.jobs[k] == r.jobs[k])
      && (Ring(r.history, k) == [] ==> Ring(s.history, k) == [])
  {
    Heard(r, a, k);
    Recorded(r, a, k);
    Kept512(r, a, k);
    hide Do; hide Of;
    assert News(r, a, k) == [];
  }

  /** A job that has ended stays as it ended until it is pruned, is then gone for good, and is never heard of again. */
  lemma {:induction false} OverForGood(rs: seq<Registry>, acts: seq<Act>, i: nat, j: nat, k: Id)
    requires Run(rs, acts) && i <= j <= |acts| && Over(rs[i], k)
    ensures Over(rs[j], k) && Of(rs[j].sent, k) == Of(rs[i].sent, k)
    ensures k in rs[j].jobs ==> k in rs[i].jobs && rs[j].jobs[k] == rs[i].jobs[k]
    ensures Ring(rs[i].history, k) == [] ==> Ring(rs[j].history, k) == []
  {
    hide Do; hide Of; hide Over; hide Enabled; hide Ring;
    if i < j {
      OverForGood(rs, acts, i, j - 1, k);
      OverKept(rs[j - 1], acts[j - 1], k);
    }
  }

  lemma EndStep(r: Registry, a: Act, k: Id)
    requires Enabled(r, a) && Active(r.jobs, k) && k in r.known
    ensures var s := Do(r, a);
      && (Ends(a, k) <==> !Active(s.jobs, k)) && k in s.known
      && (Ends(a, k) ==> k in s.jobs && s.jobs[k] == EndOf(r.jobs[k], a, r.now)
                         && Of(s.sent, k) == Of(r.sent, k) + [ToEvent(k, s.jobs[k])])
  {
    hide Do; hide Of;
    Heard(r, a, k);
    Recorded(r, a, k);
  }

  /**
   The first end wins: a running job ends at the first cancel or finish that reaches
   it and at no other step; what that step wrote is its record from then on, and its
   event is the one closing event and the last the job ever has.
   */
  lemma FirstEndWins(rs: seq<Registry>, acts: seq<Act>, i: nat, j: nat, k: Id)
    requires Run(rs, acts) && New(rs[0]) && i < j <= |acts| && Active(rs[i].jobs, k)
    ensures Ends(acts[i], k) <==> !Active(rs[i + 1].jobs, k)
    ensures Ends(acts[i], k) ==>
      var last := EndOf(rs[i].jobs[k], acts[i], rs[i].now);
      && (k in rs[j].jobs ==> rs[j].jobs[k] == last)
      && Of(rs[j].sent, k) == Of(rs[i].sent, k) + [ToEvent(k, last)]
      && Closed(ToEvent(k, last)) && (forall e :: e in Of(rs[i].sent, k) ==> !Closed(e))
  {
    RunsAreSound(rs, acts, i, k);
    EndStep(rs[i], acts[i], k);
    if Ends(acts[i], k) { OverForGood(rs, acts, i + 1, j, k); }
  }

  /** `start` prunes exactly the jobs that ended at least an hour ago, and nothing else ever removes one. */
  lemma PrunedExactlyWhenOld(rs: seq<Registry>, acts: seq<Act>, i: nat, k: Id)
    requires Run(rs, acts) && New(rs[0]) && i < |acts| && k in rs[i].jobs
    ensures var job := rs[i].jobs[k];
      k !in rs[i + 1].jobs <==>
        acts[i].Begin? && !job.status.Running? && (job.endedAt.Some? ==> rs[i].now - job.endedAt.value >= 3_600_000)
    ensures !rs[i].jobs[k].status.Running? ==> rs[i].jobs[k].endedAt.Some? && rs[i].jobs[k].endedAt.value <= rs[i].now
  {
    RunsAreSound(rs, acts, i, k);
    Recorded(rs[i], acts[i], k);
    hide Do; hide Told; hide Of;
  }

  // ----- the ring -----------------------------------------------------------

  // How many events of `k` had been sent when a prune last dropped its ring.
  ghost function Cut(rs: seq<Registry>, acts: seq<Act>, i: nat, k: Id): nat
    requires Run(rs, acts) && i <= |acts|
  {
    if i == 0 then 0
    else if DropsRing(rs[i - 1], acts[i - 1], k) then |Of(rs[i - 1].sent, k)|
    else Cut(rs, acts, i - 1, k)
  }

  predicate Holds(ring: seq<Event>, es: seq<Event>, cut: nat) {
    cut <= |es| && ring == Newest(es[cut..], HISTORY_CAPACITY)
  }

  lemma HoldsAppend(ring: seq<Event>, es: seq<Event>, cut: nat, e: Event)
    requires Holds(ring, es, cut)
    ensures Holds(Newest(ring + [e], HISTORY_CAPACITY), es + [e], cut)
  {
    assert (es + [e])[cut..] == es[cut..] + [e];
  }

  lemma HoldsKept(r: Registry, a: Act, k: Id, cut: nat)
    requires Enabled(r, a) && Holds(Ring(r.history, k), Of(r.sent, k), cut)
    ensures var s := Do(r, a);
      Holds(Ring(s.history, k), Of(s.sent, k), if DropsRing(r, a, k) then |Of(r.sent, k)| else cut)
  {
    Heard(r, a, k);
    Kept512(r, a, k);
    hide Do; hide Of; hide Ring;
    if News(r, a, k) != [] { HoldsAppend(Ring(r.history, k), Of(r.sent, k), cut, News(r, a, k)[0]); }
  }

  /**
   In every run a ring is exactly the newest 512 of the job's events sent since the
   last prune whose snapshot lacked the job; all of them if there was none.
   */
  lemma {:induction false} RingIsTheTail(rs: seq<Registry>, acts: seq<Act>, i: nat, k: Id)
    requires Run(rs, acts) && New(rs[0]) && i <= |acts|
    ensures Holds(Ring(rs[i].history, k), Of(rs[i].sent, k), Cut(rs, acts, i, k))
    ensures |Ring(rs[i].history, k)| <= 512
  {
    if i > 0 {
      RingIsTheTail(rs, acts, i - 1, k);
      HoldsKept(rs[i - 1], acts[i - 1], k, Cut(rs, acts, i - 1, k));
    }
  }

  /**
   The documented promise is that a ring is the newest 512 of the job's events. It holds
   exactly if no prune has dropped the ring after an event was sent, or 512 more have been
   sent since.
   */
  lemma RingIsWholeExactly(rs: seq<Registry>, acts: seq<Act>, i: nat, k: Id)
    requires Run(rs, acts) && New(rs[0]) && i <= |acts|
    ensures var es, cut := Of(rs[i].sent, k), Cut(rs, acts, i, k);
      Ring(rs[i].history, k) == Newest(es, 512) <==> cut == 0 || |es| >= cut + 512
  {
    hide Do; hide Of; hide Enabled; hide Cut; hide Ring;
    RingIsTheTail(rs, acts, i, k);
    NewestOfTail(Of(rs[i].sent, k), Cut(rs, acts, i, k), HISTORY_CAPACITY);
  }

  lemma NewestOfTail(es: seq<Event>, cut: nat, n: nat)
    requires cut <= |es|
    ensures Newest(es[cut..], n) == Newest(es, n) <==> cut == 0 || |es| >= cut + n
  {
    if cut == 0 {
      assert es[0..] == es;
    } else if |es| >= cut + n {
      assert Newest(es[cut..], n) == es[|es| - n..];
    } else {
      assert |Newest(es[cut..], n)| < |Newest(es, n)|;
    }
  }

  // ----- a subscription -----------------------------------------------------

  lemma PrefixOfPrefix(a: seq<Event>, b: seq<Event>, c: seq<Event>)
    requires a <= b <= c
    ensures a <= c
  {
  }

  lemma SentGrows(rs: seq<Registry>, acts: seq<Act>, j: nat)
    requires Run(rs, acts) && j < |acts|
    ensures rs[j].sent <= rs[j + 1].sent
  {
    hide Do; hide Of; hide Enabled; hide News;
    Heard(rs[j], acts[j], "");
  }

  lemma {:induction false} SentOnlyGrows(rs: seq<Registry>, acts: seq<Act>, i: nat, j: nat)
    requires Run(rs, acts) && i <= j <= |acts|
    ensures rs[i].sent <= rs[j].sent
  {
    hide Do; hide Enabled;
    if i < j {
      SentOnlyGrows(rs, acts, i, j - 1);
      SentGrows(rs, acts, j - 1);
      PrefixOfPrefix(rs[i].sent, rs[j - 1].sent, rs[j].sent);
    }
  }

  // What a receiver made at step `i` has been handed by step `j`, filtered by id.
  ghost function Live(rs: seq<Registry>, i: nat, j: nat, k: Id): seq<Event>
    requires i <= j < |rs| && rs[i].sent <= rs[j].sent
  {
    Of(rs[j].sent[|rs[i].sent|..], k)
  }

  lemma SentSplits(rs: seq<Registry>, acts: seq<Act>, i: nat, j: nat, k: Id)
    requires Run(rs, acts) && i <= j <= |acts|
    ensures rs[i].sent <= rs[j].sent
    ensures Of(rs[j].sent, k) == Of(rs[i].sent, k) + Live(rs, i, j, k)
  {
    SentOnlyGrows(rs, acts, i, j);
    OfConcat(rs[i].sent, rs[j].sent[|rs[i].sent|..], k);
    assert rs[i].sent + rs[j].sent[|rs[i].sent|..] == rs[j].sent;
  }

  function Missed(before: nat, cut: nat): nat
    requires cut <= before
  {
    if before - cut <= HISTORY_CAPACITY then cut else before - HISTORY_CAPACITY
  }

  lemma RingGoesOn(ring: seq<Event>, es: seq<Event>, cut: nat, live: seq<Event>)
    requires Holds(ring, es, cut)
    ensures ring + live == (es + live)[Missed(|es|, cut)..]
  {
    assert ring == es[Missed(|es|, cut)..];
  }

  /**
   The snapshot taken at step `i` and the live events until step `j` are, in this
   order, one unbroken stretch of the job's events, from the last prune that missed
   it or 512 events back to the newest: no gap between the two and no event twice.
   */
  lemma StreamPartition(rs: seq<Registry>, acts: seq<Act>, i: nat, j: nat, k: Id)
    requires Run(rs, acts) && New(rs[0]) && i <= j <= |acts|
    ensures rs[i].sent <= rs[j].sent && Cut(rs, acts, i, k) <= |Of(rs[i].sent, k)|
    ensures Of(rs[j].sent, k) == Of(rs[i].sent, k) + Live(rs, i, j, k)
    ensures Ring(rs[i].history, k) + Live(rs, i, j, k) ==
            Of(rs[j].sent, k)[Missed(|Of(rs[i].sent, k)|, Cut(rs, acts, i, k))..]
  {
    RingIsTheTail(rs, acts, i, k);
    SentSplits(rs, acts, i, j, k);
    RingGoesOn(Ring(rs[i].history, k), Of(rs[i].sent, k), Cut(rs, acts, i, k), Live(rs, i, j, k));
    hide *;
  }

  // ----- starts that do not overlap -----------------------------------------

  // Nothing on record is missing from the snapshot of a `start` that is still pruning.
  predicate Covered(r: Registry) {
    && (forall s :: s in r.starting ==> r.starting.Keys == {s})
    && (forall s :: s in r.starting && !r.starting[s].Minting? ==> r.jobs.Keys <= r.starting[s].live)
  }

  ghost predicate RunOfLoneStarts(rs: seq<Registry>, acts: seq<Act>) {
    Run(rs, acts) && forall i :: 0 <= i < |acts| ==> StartsAlone(rs[i], acts[i])
  }

  lemma CoveredKept(r: Registry, a: Act)
    requires Enabled(r, a) && Covered(r) && StartsAlone(r, a)
    ensures Covered(Do(r, a))
  {
  }

  lemma {:induction false} LoneStartsCover(rs: seq<Registry>, acts: seq<Act>, i: nat)
    requires RunOfLoneStarts(rs, acts) && New(rs[0]) && i <= |acts|
    ensures Covered(rs[i])
  {
    if i > 0 {
      LoneStartsCover(rs, acts, i - 1);
      CoveredKept(rs[i - 1], acts[i - 1]);
    }
  }

  lemma {:induction false} LoneStartsCutNothing(rs: seq<Registry>, acts: seq<Act>, i: nat, k: Id)
    requires RunOfLoneStarts(rs, acts) && New(rs[0]) && i <= |acts|
    ensures k in rs[i].jobs ==> Cut(rs, acts, i, k) == 0
    ensures k !in rs[i].known ==> Cut(rs, acts, i, k) == 0
  {
    hide Do; hide Of;
    if i > 0 {
      LoneStartsCutNothing(rs, acts, i - 1, k);
      LoneStartsCover(rs, acts, i - 1);
      RunsAreSound(rs, acts, i - 1, k);
      Recorded(rs[i - 1], acts[i - 1], k);
    }
  }

  /** When starts do not overlap the documented promise holds: the ring of a job is the newest 512 of its events. */
  lemma LoneStartsKeepRings(rs: seq<Registry>, acts: seq<Act>, i: nat, k: Id)
    requires RunOfLoneStarts(rs, acts) && New(rs[0]) && i <= |acts| && k in rs[i].jobs
    ensures Ring(rs[i].history, k) == Newest(Of(rs[i].sent, k), 512)
  {
    RingIsTheTail(rs, acts, i, k);
    LoneStartsCutNothing(rs, acts, i, k);
    assert Of(rs[i].sent, k)[0..] == Of(rs[i].sent, k);
  }

  // ----- nothing left behind ------------------------------------------------

  predicate SnapshotLacks(starting: map<Id, Start>, s: Id, k: Id) {
    s in starting && !starting[s].Minting? && k !in starting[s].live
  }

  // A ring without a job is one that some `start` is about to drop.
  ghost predicate Leftover(r: Registry) {
    && r.history.Keys <= r.known
    && forall k :: k in r.history && k !in r.jobs ==> exists s :: SnapshotLacks(r.starting, s, k)
  }

  lemma LeftoverBegin(r: Registry, id: Id, kind: string)
    requires id !in r.known && Leftover(r) && r.jobs.Keys <= r.known && r.starting.Keys <= r.known
    ensures Leftover(DoBegin(r, id, kind))
  {
    hide Newest; hide ToEvent; hide Fresh; hide Kept;
    var s := DoBegin(r, id, kind);
    forall k | k in s.history && k !in s.jobs ensures exists t :: SnapshotLacks(s.starting, t, k) {
      if k in r.jobs {
        assert SnapshotLacks(s.starting, id, k);
      } else {
        var t :| SnapshotLacks(r.starting, t, k);
        assert SnapshotLacks(s.starting, t, k);
      }
    }
  }

  lemma LeftoverStart(r: Registry, id: Id)
    requires id in r.starting && Leftover(r)
    ensures Leftover(DoStart(r, id))
  {
    var s := DoStart(r, id);
    forall k | k in s.history && k !in s.jobs ensures exists t :: SnapshotLacks(s.starting, t, k) {
      var t :| SnapshotLacks(r.starting, t, k);
      assert SnapshotLacks(s.starting, t, k);
    }
  }

  lemma LeftoverEmit(r: Registry, id: Id, job: Job)
    requires Leftover(r) && id in r.jobs && id in r.known
    ensures Leftover(Emit(r, id, job))
  {
    hide Newest; hide ToEvent;
  }

  lemma LeftoverKept(r: Registry, a: Act)
    requires Enabled(r, a) && Leftover(r) && r.jobs.Keys <= r.known && r.starting.Keys <= r.known
    ensures Leftover(Do(r, a))
  {
    hide Leftover; hide DoBegin; hide DoStart; hide Emit;
    match a
    case Begin(id, kind) => LeftoverBegin(r, id, kind);
    case StartStep(id) => LeftoverStart(r, id);
    case Report(id, progress, message, bytes, total) =>
      if Active(r.jobs, id) { LeftoverEmit(r, id, Reported(r.jobs[id], progress, message, bytes, total)); }
    case Finish(o) =>
      if Active(r.jobs, o.id) { LeftoverEmit(r, o.id, Finished(r.jobs[o.id], o, r.now)); }
      LeftoverSame(DoFinish(r, o), Do(r, a));
    case Cancel(id) =>
      if Active(r.jobs, id) {
        var job := CancelledJob(r.jobs[id], r.now);
        LeftoverEmit(r, id, job);
        LeftoverSame(Emit(r, id, job), Do(r, a));
      }
    case _ => LeftoverSame(r, Do(r, a));
  }

  lemma LeftoverSame(r: Registry, s: Registry)
    requires Leftover(r) && s.history == r.history && s.jobs == r.jobs && s.known == r.known && s.starting == r.starting
    ensures Leftover(s)
  {
  }

  lemma StartingKnown(r: Registry, a: Act)
    requires Enabled(r, a) && r.starting.Keys <= r.known
    ensures Do(r, a).starting.Keys <= Do(r, a).known
  {
    hide Pruned; hide Retained; hide Newest; hide ToEvent; hide Reported; hide CancelledJob; hide Finished;
  }

  lemma {:induction false} LeftoversArePending(rs: seq<Registry>, acts: seq<Act>, i: nat)
    requires Run(rs, acts) && New(rs[0]) && i <= |acts|
    ensures Leftover(rs[i]) && rs[i].starting.Keys <= rs[i].known
  {
    hide Do; hide Enabled;
    if i > 0 {
      LeftoversArePending(rs, acts, i - 1);
      RunsAreSound(rs, acts, i - 1, "");
      LeftoverKept(rs[i - 1], acts[i - 1]);
      StartingKnown(rs[i - 1], acts[i - 1]);
    }
  }

  /** Memory stays bounded: whenever no `start` is under way, only jobs on record have a ring, of at most 512 events. */
  lemma RingsAtRest(rs: seq<Registry>, acts: seq<Act>, i: nat)
    requires Run(rs, acts) && New(rs[0]) && i <= |acts| && rs[i].starting == map[]
    ensures rs[i].history.Keys <= rs[i].jobs.Keys
    ensures forall k :: k in rs[i].history ==> |rs[i].history[k]| <= 512
  {
    LeftoversArePending(rs, acts, i);
    forall k | k in rs[i].history ensures k in rs[i].jobs && |rs[i].history[k]| <= HISTORY_CAPACITY {
      RingIsTheTail(rs, acts, i, k);
    }
  }
}
