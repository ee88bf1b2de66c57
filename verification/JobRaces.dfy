/** Runs in which the registry does less than its documentation says. */
module JobRaces {
  import opened Wrappers
  import opened Jobs
  import opened JobEvents
  import opened JobTokens

  function Empty(): (r: Registry)
    ensures New(r)
  {
    Registry(map[], map[], {}, [], {}, {}, map[], multiset{}, {}, 0)
  }

  predicate Leads(r: Registry, a: Act, s: Registry) { Enabled(r, a) && s == Do(r, a) }

  lemma Longer(rs: seq<Registry>, acts: seq<Act>, a: Act, s: Registry)
    requires Run(rs, acts) && Leads(rs[|acts|], a, s)
    ensures Run(rs + [s], acts + [a])
  {
  }

  lemma FirstStart(k: Id, kind: string) returns (r: Registry)
    ensures Leads(Empty(), Begin(k, kind), r)
    ensures r.jobs == map[k := Fresh(kind)] && r.known == {k} && r.sent == [ToEvent(k, Fresh(kind))]
    ensures r.starting == map[k := PruningTokens({k})] && r.tokens == {} && r.finishing == multiset{} && r.now == 0
    ensures r.firing == {} && r.fired == {}
  {
    r := Do(Empty(), Begin(k, kind));
    assert Pruned(Empty().jobs, 0) == map[];
    assert Empty().jobs.Keys + {k} == {k};
  }

  lemma SecondStart(r: Registry, a: Id, b: Id, kind: string) returns (s: Registry)
    requires a != b && r.jobs == map[a := Fresh(kind)] && r.known == {a} && r.sent == [ToEvent(a, Fresh(kind))]
    requires r.starting == map[a := PruningTokens({a})]
    ensures Leads(r, Begin(b, kind), s)
    ensures s.jobs == r.jobs[b := Fresh(kind)] && s.known == {a, b} && s.tokens == r.tokens
    ensures s.starting == map[a := PruningTokens({a}), b := PruningTokens({a, b})]
    ensures s.finishing == r.finishing && Of(s.sent, b) == [ToEvent(b, Fresh(kind))]
  {
    s := Do(r, Begin(b, kind));
    assert Pruned(r.jobs, r.now) == r.jobs;
    assert r.jobs.Keys + {b} == {a, b};
    OfAppend(r.sent, ToEvent(b, Fresh(kind)), b);
    OfAppend([], ToEvent(a, Fresh(kind)), b);
    assert [] + [ToEvent(a, Fresh(kind))] == r.sent;
  }

  // `start` of `k` runs to its end, by itself.
  lemma StartEnds(r: Registry, k: Id, live: set<Id>) returns (s: Registry, t: Registry, u: Registry)
    requires k in r.starting && r.starting[k] == PruningTokens(live)
    ensures Leads(r, StartStep(k), s) && Leads(s, StartStep(k), t) && Leads(t, StartStep(k), u)
    ensures u == r.(tokens := r.tokens * live + {k}, history := Retained(r.history, live), starting := r.starting - {k})
  {
    s := Do(r, StartStep(k));
    t := Do(s, StartStep(k));
    u := Do(t, StartStep(k));
    assert u.starting == r.starting - {k};
  }

  lemma StartsOn(rs: seq<Registry>, acts: seq<Act>, k: Id, live: set<Id>) returns (ss: seq<Registry>, bs: seq<Act>)
    requires Run(rs, acts) && New(rs[0])
    requires k in rs[|acts|].starting && rs[|acts|].starting[k] == PruningTokens(live)
    ensures Run(ss, bs) && |bs| == |acts| + 3 && ss[0] == rs[0]
    ensures var r := rs[|acts|];
      ss[|bs|] == r.(tokens := r.tokens * live + {k}, history := Retained(r.history, live),
                     starting := r.starting - {k})
  {
    var s, t, u := StartEnds(rs[|acts|], k, live);
    hide *;
    Longer(rs, acts, StartStep(k), s);
    Longer(rs + [s], acts + [StartStep(k)], StartStep(k), t);
    Longer(rs + [s] + [t], acts + [StartStep(k)] + [StartStep(k)], StartStep(k), u);
    ss := rs + [s] + [t] + [u];
    bs := acts + [StartStep(k)] + [StartStep(k)] + [StartStep(k)];
  }

  // Two starts whose first sections are through, the second one before the first goes on.
  lemma TwoBegun(a: Id, b: Id, kind: string) returns (rs: seq<Registry>, acts: seq<Act>)
    requires a != b
    ensures Run(rs, acts) && New(rs[0])
    ensures var r := rs[|acts|];
      && r.jobs == map[a := Fresh(kind)][b := Fresh(kind)] && r.known == {a, b} && r.finishing == multiset{}
      && r.starting == map[a := PruningTokens({a}), b := PruningTokens({a, b})]
      && Of(r.sent, b) == [ToEvent(b, Fresh(kind))]
  {
    hide Do; hide Of; hide Enabled; hide Fresh; hide ToEvent;
    var r1 := FirstStart(a, kind);
    var r2 := SecondStart(r1, a, b, kind);
    rs, acts := [Empty(), r1, r2], [Begin(a, kind), Begin(b, kind)];
  }

  /**
   Two starts that overlap: the later job is running and subscribable, no finish of it
   is under way, and yet its `started` event is in no replay and `cancelled()` returns
   at once, because the earlier start prunes with a snapshot from before the later job.
   */
  lemma OverlappingStartsLoseRingAndToken(a: Id, b: Id, kind: string) returns (rs: seq<Registry>, acts: seq<Act>)
    requires a != b
    ensures Run(rs, acts) && New(rs[0])
    ensures var r := rs[|acts|];
      && Active(r.jobs, b) && HasHandle(r, b) && !Finishing(r, b)
      && Of(r.sent, b) == [ToEvent(b, Fresh(kind))] && Ring(r.history, b) == []
      && !Waits(r, b)
  {
    hide Run; hide Of; hide ToEvent;
    rs, acts := TwoBegun(a, b, kind);
    rs, acts := StartsOn(rs, acts, b, {a, b});
    rs, acts := StartsOn(rs, acts, a, {a});
  }

  /**
   A finish that has taken the token but not yet the jobs lock, overtaken by a cancel:
   the cancel ends the job and returns true, and the call that was waiting is never woken.
   */
  lemma OvertakenFinishLosesWaiter(k: Id, kind: string, o: Outcome) returns (rs: seq<Registry>, acts: seq<Act>)
    requires o.id == k
    ensures Run(rs, acts) && New(rs[0]) && |acts| == 7 && acts[6] == Fire(k)
    ensures Waits(rs[4], k) && HasHandle(rs[4], k)
    ensures k in rs[7].jobs && rs[7].jobs[k].status == Cancelled && k !in rs[7].fired
  {
    var r1 := FirstStart(k, kind);
    assert Run([Empty(), r1], [Begin(k, kind)]);
    rs, acts := StartsOn([Empty(), r1], [Begin(k, kind)], k, {k});
    hide Run; hide Of; hide Newest;
    var r4 := rs[4];
    var r5 := r4.(tokens := r4.tokens - {k}, finishing := r4.finishing + multiset{o});
    Longer(rs, acts, TakeToken(o), r5);
    var r6 := Do(r5, Cancel(k));
    Longer(rs + [r5], acts + [TakeToken(o)], Cancel(k), r6);
    var r7 := Do(r6, Fire(k));
    Longer(rs + [r5] + [r6], acts + [TakeToken(o)] + [Cancel(k)], Fire(k), r7);
    rs, acts := rs + [r5] + [r6] + [r7], acts + [TakeToken(o)] + [Cancel(k)] + [Fire(k)];
  }
}
