/**
 The job registry as the daemon runs it: three maps and a broadcast, updated in
 place. Every critical section is one method and one step of `Jobs`; the calls
 themselves are sequences of sections.
 */
module JobRegistries {
  import opened Wrappers
  import opened Jobs

  lemma Begun(r: Registry, id: Id, kind: string)
    requires id !in r.known && id !in r.history
    ensures var s, e := DoBegin(r, id, kind), ToEvent(id, Fresh(kind));
      && s.jobs == Pruned(r.jobs, r.now)[id := Fresh(kind)] && s.history == r.history[id := [e]]
      && s.sent == r.sent + [e] && s.known == r.known + {id} && s.starting[id] == PruningTokens(s.jobs.Keys)
  {
    assert [] + [ToEvent(id, Fresh(kind))] == [ToEvent(id, Fresh(kind))];
  }

  lemma RetainedNew(history: map<Id, seq<Event>>, id: Id, ring: seq<Event>, live: set<Id>)
    requires id in live
    ensures Retained(history[id := ring], live) == Retained(history, live)[id := ring]
  {
  }

  class JobRegistry {
    var jobs: map<Id, Job>
    var history: map<Id, seq<Event>>
    var tokens: set<Id>
    var sent: seq<Event>
    var fired: set<Id>
    // The same registry with its calls in flight, in the terms of the transition system.
    ghost var state: Registry

    ghost predicate Valid()
      reads this
    {
      && state.jobs == jobs && state.history == history && state.tokens == tokens
      && state.sent == sent && state.fired == fired
      && forall id :: id in history ==> |history[id]| <= HISTORY_CAPACITY
    }

    constructor ()
      ensures Valid() && New(state)
    {
      jobs, history, tokens, sent, fired := map[], map[], {}, [], {};
      state := Registry(map[], map[], {}, [], {}, {}, map[], multiset{}, {}, 0);
    }

    method PushHistory(id: Id, event: Event)
      requires forall k :: k in history ==> |history[k]| <= HISTORY_CAPACITY
      modifies `history
      ensures history == old(history)[id := Newest(Ring(old(history), id) + [event], HISTORY_CAPACITY)]
    {
      var entry := if id in history then history[id] else [];
      ghost var was := entry;
      if |entry| >= HISTORY_CAPACITY {
        entry := entry[1..];
      }
      entry := entry + [event];
      assert entry == Newest(was + [event], HISTORY_CAPACITY);
      history := history[id := entry];
    }

    // ----- start --------------------------------------------------------------

    method Begin(id: Id, kind: string, now: int) returns (live: set<Id>)
      requires Valid() && id !in state.known && now == state.now
      modifies this
      ensures Valid() && state == Do(old(state), Act.Begin(id, kind))
      ensures state.starting[id] == PruningTokens(live)
    {
      var kept := Pruned(jobs, now);
      jobs := kept[id := Job(kind, 0, "started", Status.Running, None, None, 0, 0, None)];
      var started := Event(id, kind, 0, "started", Status.Running, "", "", 0, 0);
      PushHistory(id, started);
      sent := sent + [started];
      live := jobs.Keys;
      assert live == kept.Keys + {id};
      state := Do(state, Act.Begin(id, kind));
      hide Pruned; hide Newest;
    }

    method PruneTokens(id: Id, live: set<Id>)
      requires Valid() && id in state.starting && state.starting[id] == PruningTokens(live)
      modifies this
      ensures Valid() && state == Do(old(state), StartStep(id))
    {
      tokens := set k | k in tokens && k in live;
      assert tokens == state.tokens * live;
      state := Do(state, StartStep(id));
    }

    method PruneHistory(id: Id, live: set<Id>)
      requires Valid() && id in state.starting && state.starting[id] == PruningHistory(live)
      modifies this
      ensures Valid() && state == Do(old(state), StartStep(id))
    {
      history := map k | k in history && k in live :: history[k];
      state := Do(state, StartStep(id));
    }

    method MintToken(id: Id)
      requires Valid() && id in state.starting && state.starting[id].Minting?
      modifies this
      ensures Valid() && state == Do(old(state), StartStep(id))
    {
      tokens := tokens + {id};
      state := Do(state, StartStep(id));
    }

    /** Start a job: uninterrupted, it leaves a running job with a token and its first event to replay. */
    method Start(id: Id, kind: string, now: int)
      requires Valid() && id !in state.known && id !in history && now == state.now
      modifies this
      ensures Valid() && HasHandle(state, id) && id in tokens
      ensures jobs == Pruned(old(jobs), now)[id := Fresh(kind)]
      ensures history == Retained(old(history), jobs.Keys)[id := [ToEvent(id, Fresh(kind))]]
      ensures sent == old(sent) + [ToEvent(id, Fresh(kind))]
    {
      var live := Begin(id, kind, now);
      Begun(old(state), id, kind);
      hide Pruned; hide DoBegin;
      assert live == jobs.Keys;
      PruneTokens(id, live);
      PruneHistory(id, live);
      MintToken(id);
      hide *;
      RetainedNew(old(history), id, [ToEvent(id, Fresh(kind))], live);
    }

    // ----- a runner's calls ---------------------------------------------------

    method Report(id: Id, progress: int, message: string, bytes: int, total: int)
      requires Valid() && HasHandle(state, id)
      modifies this
      ensures Valid() && state == Do(old(state), Act.Report(id, progress, message, bytes, total))
    {
      ghost var act := Act.Report(id, progress, message, bytes, total);
      if id in jobs && jobs[id].status.Running? {
        var job := jobs[id];
        job := job.(progress := if progress < 0 then 0 else if progress > 100 then 100 else progress,
                    message := message, bytes := if bytes > 0 then bytes else 0);
        if total > 0 {
          job := job.(total := total);
        }
        jobs := jobs[id := job];
        var event := ToEvent(id, job);
        PushHistory(id, event);
        sent := sent + [event];
      }
      state := Do(state, act);
    }

    method TakeToken(outcome: Outcome)
      requires Valid() && HasHandle(state, outcome.id)
      modifies this
      ensures Valid() && state == Do(old(state), Act.TakeToken(outcome))
    {
      tokens := tokens - {outcome.id};
      state := Do(state, Act.TakeToken(outcome));
    }

    method Land(outcome: Outcome, now: int)
      requires Valid() && outcome in state.finishing && now == state.now
      modifies this
      ensures Valid() && state == Do(old(state), Act.Finish(outcome))
    {
      var id := outcome.id;
      if id in jobs && jobs[id].status.Running? {
        var job := jobs[id].(status := if outcome.success then Succeeded else Failed);
        if outcome.success {
          job := job.(progress := 100);
        }
        job := job.(result := outcome.result, error := outcome.error, endedAt := Some(now));
        jobs := jobs[id := job];
        var event := ToEvent(id, job);
        PushHistory(id, event);
        sent := sent + [event];
      }
      state := Do(state, Act.Finish(outcome));
    }

    /** Apply a terminal state; a job that has one already keeps it and sends nothing more. */
    method Finish(outcome: Outcome, now: int)
      requires Valid() && HasHandle(state, outcome.id) && now == state.now
      modifies this
      ensures Valid() && tokens == old(tokens) - {outcome.id} && fired == old(fired)
      ensures var id := outcome.id;
        if Active(old(jobs), id)
        then var job := Finished(old(jobs)[id], outcome, now);
             && jobs == old(jobs)[id := job] && sent == old(sent) + [ToEvent(id, job)]
             && history == old(history)[id := Newest(Ring(old(history), id) + [ToEvent(id, job)], HISTORY_CAPACITY)]
             && (job.status == Succeeded <==> outcome.success) && (job.status == Failed <==> !outcome.success)
             && job.progress == (if outcome.success then 100 else old(jobs)[id].progress)
             && job.result == outcome.result && job.error == outcome.error && job.endedAt == Some(now)
        else jobs == old(jobs) && sent == old(sent) && history == old(history)
    {
      TakeToken(outcome);
      Land(outcome, now);
    }

    // ----- a client's calls ---------------------------------------------------

    method EndAsCancelled(id: Id, now: int) returns (ended: bool)
      requires Valid() && id !in state.starting && now == state.now
      modifies this
      ensures Valid() && state == Do(old(state), Act.Cancel(id)) && ended == Active(old(jobs), id)
    {
      ended := id in jobs && jobs[id].status.Running?;
      if ended {
        var job := jobs[id].(status := Cancelled, endedAt := Some(now));
        jobs := jobs[id := job];
        var event := ToEvent(id, job);
        PushHistory(id, event);
        sent := sent + [event];
      }
      state := Do(state, Act.Cancel(id));
    }

    method FireToken(id: Id)
      requires Valid() && id in state.firing
      modifies this
      ensures Valid() && state == Do(old(state), Act.Fire(id))
    {
      if id in tokens {
        tokens := tokens - {id};
        fired := fired + {id};
      }
      assert tokens == state.tokens - {id};
      state := Do(state, Act.Fire(id));
    }

    /** Cancel a running job and wake whoever holds its token; any other id is refused and nothing changes. */
    method Cancel(id: Id, now: int) returns (done: bool)
      requires Valid() && id !in state.starting && now == state.now
      modifies this
      ensures Valid() && done == Active(old(jobs), id)
      ensures if done
        then && jobs == old(jobs)[id := CancelledJob(old(jobs)[id], now)]
             && jobs[id].status == Cancelled && jobs[id].endedAt == Some(now)
             && sent == old(sent) + [ToEvent(id, jobs[id])]
             && history == old(history)[id := Newest(Ring(old(history), id) + [ToEvent(id, jobs[id])],
                                                     HISTORY_CAPACITY)]
             && tokens == old(tokens) - {id}
             && fired == if id in old(tokens) then old(fired) + {id} else old(fired)
        else && jobs == old(jobs) && sent == old(sent) && history == old(history)
             && tokens == old(tokens) && fired == old(fired)
    {
      done := EndAsCancelled(id, now);
      if done {
        FireToken(id);
      }
    }

    /** The replay and the point of the broadcast from which the receiver reads on. */
    method Subscribe(id: Id) returns (found: bool, snapshot: seq<Event>, from: nat)
      requires Valid()
      ensures found <==> id in jobs
      ensures found ==> snapshot == Ring(history, id) && from == |sent|
    {
      found, snapshot, from := id in jobs, [], 0;
      if found {
        snapshot := if id in history then history[id] else [];
        from := |sent|;
      }
    }
  }
}
