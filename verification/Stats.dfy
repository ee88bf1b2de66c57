/**
 The scrape loop of the stats collector: which endpoints a tick visits, what it
 remembers of them, and what it stamps on the processes. Clocks are in
 milliseconds; `now` is monotonic, `nowMs` is the wall clock. An HTTP exchange is a
 `Reply`: how long it took, how long until it was parsed, and what came of it.
 */
module Stats {
  import opened Wrappers
  import opened EngineMetrics
  import opened Windows

  const STALE_MS: int := 30_000
  const PER_SCRAPE_TIMEOUT: int := 2_000
  const TICK_SCRAPE_BUDGET: int := 3_000

  datatype Outcome = Failed | Unknown | Parsed(kind: Kind, counters: Counters)
  datatype Reply = Reply(elapsed: nat, settling: nat, outcome: Outcome)

  datatype EngineState = EngineState(prev: Option<Counters>, kind: Option<Kind>, lastScrape: Option<int>,
                                     lastParse: Option<int>, lastObs: Option<Window>, lastObsMs: int)

  const DEFAULT: EngineState := EngineState(None, None, None, None, None, 0)

  datatype ProcessInfo = ProcessInfo(modelName: string, status: string, alive: bool, metricsUrl: Option<string>,
                                     tps: Option<real>, promptTps: Option<real>, cacheHitPct: Option<real>,
                                     specAcceptPct: Option<real>, specActive: bool, lastObsMs: Option<int>)

  predicate Serving(p: ProcessInfo) { p.status == "ready" && p.alive }

  function Own(engine: map<string, EngineState>, m: string): EngineState {
    if m in engine then engine[m] else DEFAULT
  }

  // How far a tick has come: what is known, the time spent scraping, the clock.
  datatype Progress = Progress(engine: map<string, EngineState>, elapsed: int, clock: int)

  // What a tick is given: the processes, a reply for each, its two clock readings.
  datatype Tick = Tick(processes: seq<ProcessInfo>, replies: seq<Reply>, now: int, nowMs: int)

  predicate Proper(t: Tick) { |t.replies| == |t.processes| }

  predicate Throttled(s: EngineState, now: int, interval: int) {
    s.lastScrape.Some? && interval > 0 && now - s.lastScrape.value < interval
  }

  // A scrape is started only if its full timeout still fits the budget.
  predicate Admits(w: Progress, p: ProcessInfo, now: int, interval: int) {
    Serving(p) && !Throttled(Own(w.engine, p.modelName), now, interval)
    && w.elapsed + PER_SCRAPE_TIMEOUT < TICK_SCRAPE_BUDGET && p.metricsUrl.Some?
  }

  // The span since the last successful parse, in seconds.
  function Span(s: EngineState, at: int): real {
    if s.lastParse.Some? then (at - s.lastParse.value) as real / 1000.0 else 1.0
  }

  // The window a reply completes, if it does.
  function WindowOf(s: EngineState, r: Reply, clock: int): Option<Window> {
    if r.outcome.Parsed? then Observe(s.prev, r.outcome.counters, Span(s, clock + r.elapsed + r.settling)) else None
  }

  function Visited(s: EngineState, r: Reply, clock: int, nowMs: int): EngineState {
    var tried := s.(lastScrape := Some(clock + r.elapsed));
    match r.outcome
    case Failed => tried
    case Unknown => tried.(kind := None)
    case Parsed(kind, counters) =>
      var w := WindowOf(s, r, clock);
      tried.(kind := Some(kind), prev := Some(counters), lastParse := Some(clock + r.elapsed + r.settling),
             lastObs := if w.Some? then w else s.lastObs, lastObsMs := if w.Some? then nowMs else s.lastObsMs)
  }

  function Step(w: Progress, p: ProcessInfo, r: Reply, now: int, nowMs: int, interval: int): Progress {
    if Admits(w, p, now, interval) then
      Progress(w.engine[p.modelName := Visited(Own(w.engine, p.modelName), r, w.clock, nowMs)],
               w.elapsed + r.elapsed, w.clock + r.elapsed + r.settling)
    else w
  }

  // The tick over its first `n` processes.
  function Upto(engine: map<string, EngineState>, t: Tick, interval: int, n: nat): Progress
    requires Proper(t) && n <= |t.processes|
  {
    if n == 0 then Progress(engine, 0, t.now)
    else Step(Upto(engine, t, interval, n - 1), t.processes[n - 1], t.replies[n - 1], t.now, t.nowMs, interval)
  }

  function Names(ps: seq<ProcessInfo>): set<string> { set i | 0 <= i < |ps| :: ps[i].modelName }

  function After(engine: map<string, EngineState>, t: Tick, interval: int): map<string, EngineState>
    requires Proper(t)
  {
    var all := Upto(engine, t, interval, |t.processes|).engine;
    map m | m in all && m in Names(t.processes) :: all[m]
  }

  predicate Fresh(s: EngineState, nowMs: int) { nowMs - s.lastObsMs <= STALE_MS }

  function Stamped(engine: map<string, EngineState>, p: ProcessInfo, nowMs: int): ProcessInfo {
    if !Serving(p) || p.modelName !in engine then p
    else
      var s := engine[p.modelName];
      if Fresh(s, nowMs) then
        if s.lastObs.Some? then
          var o := s.lastObs.value;
          p.(tps := o.tps, promptTps := o.promptTps, cacheHitPct := o.cacheHitPct, specAcceptPct := o.specAcceptPct,
             specActive := o.specActive, lastObsMs := Some(s.lastObsMs))
        else Blank(p).(lastObsMs := Some(s.lastObsMs))
      else Blank(p)
  }

  function Blank(p: ProcessInfo): ProcessInfo {
    p.(tps := None, promptTps := None, cacheHitPct := None, specAcceptPct := None, specActive := false,
       lastObsMs := None)
  }

  class StatsCollector {
    var engine: map<string, EngineState>
    var scrapeInterval: int

    constructor (interval: int)
      ensures engine == map[] && scrapeInterval == interval
    {
      engine, scrapeInterval := map[], interval;
    }

    /** One tick's scrape; without an HTTP client it does nothing. */
    method ScrapeSpec(processes: array<ProcessInfo>, t: Tick, client: bool) returns (elapsed: int)
      requires Proper(t) && t.processes == processes[..]
      modifies `engine, processes
      ensures !client ==> engine == old(engine) && processes[..] == old(processes[..]) && elapsed == 0
      ensures client ==>
        && engine == After(old(engine), t, scrapeInterval)
        && elapsed == Upto(old(engine), t, scrapeInterval, |t.processes|).elapsed
        && forall i :: 0 <= i < processes.Length ==> processes[i] == Stamped(engine, t.processes[i], t.nowMs)
    {
      elapsed := 0;
      if !client {
        return;
      }
      var clock := t.now;
      ghost var was := engine;
      for i := 0 to processes.Length
        invariant processes[..] == t.processes
        invariant Progress(engine, elapsed, clock) == Upto(was, t, scrapeInterval, i)
      {
        var p := processes[i];
        if p.status != "ready" || !p.alive {
          continue;
        }
        var prevParse := if p.modelName in engine then engine[p.modelName].lastParse else None;
        var throttled := p.modelName in engine && engine[p.modelName].lastScrape.Some? && scrapeInterval > 0
                         && t.now - engine[p.modelName].lastScrape.value < scrapeInterval;
        if throttled || elapsed + PER_SCRAPE_TIMEOUT >= TICK_SCRAPE_BUDGET {
          continue;
        }
        if p.metricsUrl.None? {
          continue;
        }
        var reply := t.replies[i];
        elapsed := elapsed + reply.elapsed;
        var s := if p.modelName in engine then engine[p.modelName] else DEFAULT;
        s := s.(lastScrape := Some(clock + reply.elapsed));
        clock := clock + reply.elapsed + reply.settling;
        match reply.outcome {
          case Failed =>
          case Unknown => s := s.(kind := None);
          case Parsed(kind, cur) =>
            var dt := if prevParse.Some? then (clock - prevParse.value) as real / 1000.0 else 1.0;
            var obs := Observe(s.prev, cur, dt);
            s := s.(kind := Some(kind));
            if obs.Some? {
              s := s.(lastObsMs := t.nowMs, lastObs := obs);
            }
            s := s.(lastParse := Some(clock), prev := Some(cur));
        }
        engine := engine[p.modelName := s];
      }
      var current := set i | 0 <= i < processes.Length :: processes[i].modelName;
      assert current == Names(t.processes) by {
        assert forall i :: 0 <= i < processes.Length ==> processes[i] == t.processes[i];
      }
      engine := map m | m in engine && m in current :: engine[m];
      Emit(processes, t.nowMs);
    }

    method Emit(processes: array<ProcessInfo>, nowMs: int)
      modifies processes
      ensures forall i :: 0 <= i < processes.Length ==> processes[i] == Stamped(engine, old(processes[i]), nowMs)
    {
      for i := 0 to processes.Length
        invariant forall j :: 0 <= j < i ==> processes[j] == Stamped(engine, old(processes[j]), nowMs)
        invariant forall j :: i <= j < processes.Length ==> processes[j] == old(processes[j])
      {
        var p := processes[i];
        if p.status != "ready" || !p.alive || p.modelName !in engine {
          continue;
        }
        var s := engine[p.modelName];
        var recent := nowMs - s.lastObsMs <= STALE_MS;
        var o := s.lastObs;
        p := p.(tps := if recent && o.Some? then o.value.tps else None);
        p := p.(promptTps := if recent && o.Some? then o.value.promptTps else None);
        p := p.(cacheHitPct := if recent && o.Some? then o.value.cacheHitPct else None);
        p := p.(specAcceptPct := if recent && o.Some? then o.value.specAcceptPct else None);
        p := p.(specActive := recent && o.Some? && o.value.specActive);
        p := p.(lastObsMs := if recent then Some(s.lastObsMs) else None);
        processes[i] := p;
      }
    }
  }

  // ----- on time ------------------------------------------------------------

  /** A tick never overshoots: if no scrape outlasts its timeout, all of them together stay below the budget. */
  lemma {:induction false} TickStaysInBudget(engine: map<string, EngineState>, t: Tick, interval: int, n: nat)
    requires Proper(t) && n <= |t.processes|
    requires forall r :: r in t.replies ==> r.elapsed <= 2_000
    ensures 0 <= Upto(engine, t, interval, n).elapsed < 3_000
  {
    if n > 0 {
      TickStaysInBudget(engine, t, interval, n - 1);
    }
  }

  // ----- one visit ----------------------------------------------------------

  /**
   What the tick does at one process, spelled out. It scrapes exactly those that are ready and
   alive, have an address, were not tried within the interval, and whose full timeout of 2 s
   still fits the 3 s of the tick. A failed scrape counts as tried; an unknown body forgets
   the engine; a parsed one is remembered, with the window it completes if it does.
   */
  lemma StepAnswers(w: Progress, p: ProcessInfo, r: Reply, now: int, nowMs: int, interval: int)
    ensures var v, m := Step(w, p, r, now, nowMs, interval), p.modelName;
      var s := if m in w.engine then w.engine[m] else EngineState(None, None, None, None, None, 0);
      if p.status == "ready" && p.alive && p.metricsUrl.Some? && w.elapsed + 2_000 < 3_000
         && !(s.lastScrape.Some? && interval > 0 && now - s.lastScrape.value < interval) then
        var tried, parsed := w.clock + r.elapsed, w.clock + r.elapsed + r.settling;
        && v.elapsed == w.elapsed + r.elapsed && v.clock == parsed && v.engine == w.engine[m := v.engine[m]]
        && v.engine[m].lastScrape == Some(tried)
        && match r.outcome
           case Failed => v.engine[m] == s.(lastScrape := Some(tried))
           case Unknown => v.engine[m] == s.(lastScrape := Some(tried), kind := None)
           case Parsed(kind, counters) =>
             var span := if s.lastParse.Some? then (parsed - s.lastParse.value) as real / 1000.0 else 1.0;
             var seen := Observe(s.prev, counters, span);
             v.engine[m] == EngineState(Some(counters), Some(kind), Some(tried), Some(parsed),
                                        if seen.Some? then seen else s.lastObs,
                                        if seen.Some? then nowMs else s.lastObsMs)
      else v == w
  {
    hide Observe;
  }

  /** After the tick exactly the models still listed are remembered, as the tick left them. */
  lemma AfterAnswers(engine: map<string, EngineState>, t: Tick, interval: int, m: string)
    requires Proper(t)
    ensures var all, kept := Upto(engine, t, interval, |t.processes|).engine, After(engine, t, interval);
      && (m in kept <==> m in all && exists p :: p in t.processes && p.modelName == m)
      && (m in kept ==> kept[m] == all[m])
  {
    hide Upto; hide Observe;
    if m in Names(t.processes) {
      var i :| 0 <= i < |t.processes| && t.processes[i].modelName == m;
      assert t.processes[i] in t.processes;
    }
  }

  // ----- one model over a run -----------------------------------------------

  // The process list is built from a table keyed by model, so a name occurs once.
  predicate Listing(ps: seq<ProcessInfo>) {
    forall i, j :: 0 <= i < j < |ps| ==> ps[i].modelName != ps[j].modelName
  }

  ghost predicate Run(es: seq<map<string, EngineState>>, ts: seq<Tick>, interval: int) {
    && |es| == |ts| + 1
    && forall i :: 0 <= i < |ts| ==>
      Proper(ts[i]) && Listing(ts[i].processes) && es[i + 1] == After(es[i], ts[i], interval)
  }

  predicate Lists(t: Tick, m: string) { m in Names(t.processes) }

  // The one visit a tick pays to `m`, if it does: the reply and the clock it started at.
  datatype Visit = Visit(reply: Reply, clock: int)

  function Turn(engine: map<string, EngineState>, t: Tick, interval: int, n: nat, m: string): Option<Visit>
    requires Proper(t) && n <= |t.processes|
  {
    if n == 0 then None
    else
      var w, p := Upto(engine, t, interval, n - 1), t.processes[n - 1];
      if p.modelName == m && Admits(w, p, t.now, interval) then Some(Visit(t.replies[n - 1], w.clock))
      else Turn(engine, t, interval, n - 1, m)
  }

  function VisitOf(engine: map<string, EngineState>, t: Tick, interval: int, m: string): Option<Visit>
    requires Proper(t)
  {
    Turn(engine, t, interval, |t.processes|, m)
  }

  lemma {:induction false} NotYet(engine: map<string, EngineState>, t: Tick, interval: int, n: nat, m: string)
    requires Proper(t) && n <= |t.processes| && forall i :: 0 <= i < n ==> t.processes[i].modelName != m
    ensures Turn(engine, t, interval, n, m) == None
    ensures Own(Upto(engine, t, interval, n).engine, m) == Own(engine, m)
  {
    if n > 0 {
      NotYet(engine, t, interval, n - 1, m);
      hide Observe;
    }
  }

  lemma {:induction false} OwnUpto(engine: map<string, EngineState>, t: Tick, interval: int, n: nat, m: string)
    requires Proper(t) && n <= |t.processes| && Listing(t.processes)
    ensures var v := Turn(engine, t, interval, n, m);
      Own(Upto(engine, t, interval, n).engine, m) ==
        if v.Some? then Visited(Own(engine, m), v.value.reply, v.value.clock, t.nowMs) else Own(engine, m)
  {
    if n > 0 {
      OwnUpto(engine, t, interval, n - 1, m);
      if t.processes[n - 1].modelName == m { NotYet(engine, t, interval, n - 1, m); }
      hide Visited; hide Observe;
    }
  }

  /** What a tick does to a model it lists: nothing, or one visit. */
  lemma OwnAfter(engine: map<string, EngineState>, t: Tick, interval: int, m: string)
    requires Proper(t) && Listing(t.processes) && Lists(t, m)
    ensures var v := VisitOf(engine, t, interval, m);
      Own(After(engine, t, interval), m) ==
        if v.Some? then Visited(Own(engine, m), v.value.reply, v.value.clock, t.nowMs) else Own(engine, m)
  {
    OwnUpto(engine, t, interval, |t.processes|, m);
    hide Visited; hide Observe; hide Upto; hide Turn;
  }

  // The window tick `i` of a run completes for `m`.
  function Completes(engine: map<string, EngineState>, t: Tick, interval: int, m: string): Option<Window>
    requires Proper(t)
  {
    var v := VisitOf(engine, t, interval, m);
    if v.Some? then WindowOf(Own(engine, m), v.value.reply, v.value.clock) else None
  }

  ghost predicate ListedFrom(ts: seq<Tick>, i: nat, j: nat, m: string)
    requires i <= j <= |ts|
  {
    forall x :: i <= x < j ==> Lists(ts[x], m)
  }

  // Tick `x` completed exactly this window, and `m` has been listed ever since.
  ghost predicate Source(es: seq<map<string, EngineState>>, ts: seq<Tick>, interval: int, m: string, x: nat, j: nat,
                         o: Window)
    requires Run(es, ts, interval) && j <= |ts|
  {
    x < j && Completes(es[x], ts[x], interval, m) == Some(o) && ListedFrom(ts, x, j, m)
  }

  lemma Unlisted(engine: map<string, EngineState>, t: Tick, interval: int, m: string)
    requires Proper(t) && !Lists(t, m)
    ensures Own(After(engine, t, interval), m) == DEFAULT
  {
  }

  // The last observation of a model is the newest window of its current stay in the list.
  lemma {:induction false} ObservationHasSource(es: seq<map<string, EngineState>>, ts: seq<Tick>, interval: int,
                                                m: string, j: nat)
      returns (x: nat)
    requires Run(es, ts, interval) && es[0] == map[] && j <= |ts|
    requires Own(es[j], m).lastObs.Some?
    ensures Source(es, ts, interval, m, x, j, Own(es[j], m).lastObs.value)
    ensures Own(es[j], m).lastObsMs == ts[x].nowMs
  {
    var t := ts[j - 1];
    if !Lists(t, m) {
      Unlisted(es[j - 1], t, interval, m);
    } else {
      OwnAfter(es[j - 1], t, interval, m);
      if Completes(es[j - 1], t, interval, m).Some? {
        x := j - 1;
      } else {
        x := ObservationHasSource(es, ts, interval, m, j - 1);
      }
    }
    hide After; hide Observe; hide Turn; hide Run;
  }

  // A model nothing was observed of in its current stay has no observation time either.
  lemma {:induction false} NoObservationNoTime(es: seq<map<string, EngineState>>, ts: seq<Tick>, interval: int,
                                               m: string, j: nat)
    requires Run(es, ts, interval) && es[0] == map[] && j <= |ts|
    ensures Own(es[j], m).lastObs.None? ==> Own(es[j], m).lastObsMs == 0
  {
    if j > 0 {
      NoObservationNoTime(es, ts, interval, m, j - 1);
      if Lists(ts[j - 1], m) {
        OwnAfter(es[j - 1], ts[j - 1], interval, m);
      } else {
        Unlisted(es[j - 1], ts[j - 1], interval, m);
      }
      hide After; hide Observe; hide Turn; hide Run; hide Span;
    }
  }

  // What is stamped in full, and what is blanked.
  predicate ShowsWindow(q: ProcessInfo, o: Window) {
    && q.tps == o.tps && q.promptTps == o.promptTps && q.cacheHitPct == o.cacheHitPct
    && q.specAcceptPct == o.specAcceptPct && q.specActive == o.specActive
  }

  predicate ShowsNothing(q: ProcessInfo) {
    q.tps == None && q.promptTps == None && q.cacheHitPct == None && q.specAcceptPct == None && !q.specActive
  }

  /**
   When a serving process is stamped, exactly, in every run of ticks: by the wall clock its
   last observation is at most 30 s old, and a model never observed in its current stay
   counts as observed at time 0. So a wall clock that reads 0, as it does before the
   epoch, makes everything fresh: the rates of an observation however old, and the
   observation time of a model that has none.
   */
  lemma StampedExactly(es: seq<map<string, EngineState>>, ts: seq<Tick>, interval: int, j: nat, p: ProcessInfo)
      returns (x: nat)
    requires Run(es, ts, interval) && es[0] == map[] && j < |ts| && p in ts[j].processes
    requires Serving(p) && p.modelName in es[j + 1]
    ensures var o, q := Own(es[j + 1], p.modelName).lastObs, Stamped(es[j + 1], p, ts[j].nowMs);
      if o.Some? then
        && Source(es, ts, interval, p.modelName, x, j + 1, o.value)
        && (q.lastObsMs == if ts[j].nowMs - ts[x].nowMs <= 30_000 then Some(ts[x].nowMs) else None)
        && (if ts[j].nowMs - ts[x].nowMs <= 30_000 then ShowsWindow(q, o.value) else ShowsNothing(q))
      else
        ShowsNothing(q) && (q.lastObsMs == if ts[j].nowMs <= 30_000 then Some(0) else None)
  {
    x := 0;
    NoObservationNoTime(es, ts, interval, p.modelName, j + 1);
    if Own(es[j + 1], p.modelName).lastObs.Some? {
      x := ObservationHasSource(es, ts, interval, p.modelName, j + 1);
    }
    hide Run; hide Source; hide After;
  }

  /** A stamp writes the six observed fields only; a process that does not serve, or is unknown, is left as it is. */
  lemma StampAnswers(engine: map<string, EngineState>, p: ProcessInfo, nowMs: int)
    ensures var q := Stamped(engine, p, nowMs);
      && (p.status != "ready" || !p.alive || p.modelName !in engine ==> q == p)
      && q.modelName == p.modelName && q.status == p.status && q.alive == p.alive && q.metricsUrl == p.metricsUrl
  {
  }

  // ----- before the epoch ---------------------------------------------------

  const P: ProcessInfo := ProcessInfo("m", "ready", true, Some("u"), None, None, None, None, false, None)

  function Decoded(n: real): Counters { Counters(Some(n), None, None, None, None, None) }

  function Alone(outcome: Outcome, now: int, nowMs: int): Tick { Tick([P], [Reply(0, 0, outcome)], now, nowMs) }

  lemma TickOfOne(engine: map<string, EngineState>, outcome: Outcome, now: int, nowMs: int, interval: int)
    requires engine.Keys <= {"m"} && !Throttled(Own(engine, "m"), now, interval)
    ensures var t := Alone(outcome, now, nowMs);
      && Proper(t) && Listing(t.processes)
      && After(engine, t, interval) == map["m" := Visited(Own(engine, "m"), Reply(0, 0, outcome), now, nowMs)]
  {
    hide Visited;
    var t := Alone(outcome, now, nowMs);
    var w := Progress(engine, 0, now);
    assert Upto(engine, t, interval, 0) == w && Admits(w, P, now, interval);
    assert t.processes[0] == P && Names(t.processes) == {"m"};
    var all := Upto(engine, t, interval, 1).engine;
    assert all == engine["m" := Visited(Own(engine, "m"), Reply(0, 0, outcome), now, nowMs)];
    assert all.Keys == {"m"};
  }

  lemma TenTokens()
    ensures Observe(Some(Decoded(0.0)), Decoded(10.0), 10.0) == Some(Window(Some(1.0), None, None, None, false, true))
  {
  }

  // Three ticks of that process alone: a first count, a second one, a failing scrape.
  const T0: Tick := Alone(Parsed(Vllm, Decoded(0.0)), 0, 0)
  const T1: Tick := Alone(Parsed(Vllm, Decoded(10.0)), 10_000, 1_000_000)
  const T2: Tick := Alone(Failed, 3_610_000, 0)

  const S1: EngineState := EngineState(Some(Decoded(0.0)), Some(Vllm), Some(0), Some(0), None, 0)
  const S2: EngineState := EngineState(Some(Decoded(10.0)), Some(Vllm), Some(10_000), Some(10_000),
                                       Some(Window(Some(1.0), None, None, None, false, true)), 1_000_000)

  lemma FirstTick()
    ensures Listing(T0.processes) && After(map[], T0, 10_000) == map["m" := S1]
  {
    TickOfOne(map[], T0.replies[0].outcome, 0, 0, 10_000);
    hide After;
  }

  lemma SecondTick()
    ensures Listing(T1.processes) && After(map["m" := S1], T1, 10_000) == map["m" := S2]
  {
    hide After; hide Observe;
    TickOfOne(map["m" := S1], T1.replies[0].outcome, 10_000, 1_000_000, 10_000);
    TenTokens();
    assert Span(S1, 10_000) == 10.0;
  }

  lemma ThirdTick()
    ensures Listing(T2.processes) && After(map["m" := S2], T2, 10_000) == map["m" := S2.(lastScrape := Some(3_610_000))]
    ensures Completes(map["m" := S2], T2, 10_000, "m").None?
  {
    hide After; hide Observe; hide Completes;
    TickOfOne(map["m" := S2], Failed, 3_610_000, 0, 10_000);
    FailsToComplete(map["m" := S2], T2, 10_000);
  }

  /**
   Both failures in one run. At the first tick the clock reads 0 and a model that was never
   observed gets an observation time; at the third it reads 0 again, and the rate of a
   window that ended an hour before is stamped.
   */
  lemma EpochMakesFresh() returns (es: seq<map<string, EngineState>>, ts: seq<Tick>)
    ensures |ts| == 3 && Run(es, ts, 10_000) && es[0] == map[] && ts[0].nowMs == 0 && ts[2].nowMs == 0
    ensures ts[2].now - ts[1].now == 3_600_000 && forall t :: t in ts ==> t.processes == [P]
    ensures "m" in es[1] && es[1]["m"].lastObs.None? && Stamped(es[1], P, ts[0].nowMs).lastObsMs == Some(0)
    ensures "m" in es[3] && Completes(es[2], ts[2], 10_000, "m").None?
    ensures Stamped(es[3], P, ts[2].nowMs).tps == Some(1.0)
  {
    hide After; hide Completes; hide Listing;
    FirstTick();
    SecondTick();
    ThirdTick();
    es := [map[], map["m" := S1], map["m" := S2], map["m" := S2.(lastScrape := Some(3_610_000))]];
    ts := [T0, T1, T2];
  }

  lemma FailsToComplete(engine: map<string, EngineState>, t: Tick, interval: int)
    requires Proper(t) && |t.processes| == 1 && t.replies[0].outcome == Failed
    ensures Completes(engine, t, interval, "m") == None
  {
    assert Turn(engine, t, interval, 0, "m") == None;
    hide Observe; hide Upto;
  }

  // ----- no token is lost ---------------------------------------------------

  // The tokens a tick's window of `m` accounts for: its rate times its span.
  function Tokens(engine: map<string, EngineState>, t: Tick, interval: int, m: string): real
    requires Proper(t)
  {
    var v, w := VisitOf(engine, t, interval, m), Completes(engine, t, interval, m);
    if w.Some? && w.value.tps.Some?
    then w.value.tps.value * Span(Own(engine, m), v.value.clock + v.value.reply.elapsed + v.value.reply.settling)
    else 0.0
  }

  ghost function Ledger(es: seq<map<string, EngineState>>, ts: seq<Tick>, interval: int, m: string, i: nat,
                        j: nat): real
    requires Run(es, ts, interval) && i <= j <= |ts|
  {
    if i == j then 0.0 else Ledger(es, ts, interval, m, i, j - 1) + Tokens(es[j - 1], ts[j - 1], interval, m)
  }

  // The engine behaves: a parsed body has the decode counter, no counter fell, and time passed.
  predicate Regular(s: EngineState, v: Option<Visit>) {
    v.Some? && v.value.reply.outcome.Parsed? && s.prev.Some? ==>
      && v.value.reply.outcome.counters.decode.Some?
      && Steady(s.prev.value, v.value.reply.outcome.counters)
      && Span(s, v.value.clock + v.value.reply.elapsed + v.value.reply.settling) > 0.0
  }

  lemma TokensOfVisit(engine: map<string, EngineState>, t: Tick, interval: int, m: string)
    requires Proper(t) && Listing(t.processes) && Lists(t, m)
    requires Own(engine, m).prev.Some? && Own(engine, m).prev.value.decode.Some?
    requires Regular(Own(engine, m), VisitOf(engine, t, interval, m))
    ensures var s := Own(After(engine, t, interval), m);
      && s.prev.Some? && s.prev.value.decode.Some?
      && Tokens(engine, t, interval, m) == s.prev.value.decode.value - Own(engine, m).prev.value.decode.value
  {
    OwnAfter(engine, t, interval, m);
    var s, v := Own(engine, m), VisitOf(engine, t, interval, m);
    if v.Some? && v.value.reply.outcome.Parsed? {
      var cur, dt := v.value.reply.outcome.counters,
          Span(s, v.value.clock + v.value.reply.elapsed + v.value.reply.settling);
      ObservesExactly(s.prev, cur, dt);
      if Observe(s.prev, cur, dt).Some? {
        RatesAreSane(s.prev, cur, dt);
      } else {
        assert At(cur, Decode) == cur.decode && At(s.prev.value, Decode) == s.prev.value.decode;
        assert !Rose(Delta(At(s.prev.value, Decode), At(cur, Decode)));
      }
    }
    hide Observe; hide After; hide Turn; hide Steady; hide Busy;
  }

  /**
   Tokens are conserved: for a model listed in every tick, rate times span summed over all
   windows is the last parsed count less the first. Failed scrapes, unknown bodies,
   skipped visits and idle windows change nothing.
   */
  lemma {:induction false} TokensAreConserved(es: seq<map<string, EngineState>>, ts: seq<Tick>, interval: int,
                                              m: string, i: nat, j: nat)
    requires Run(es, ts, interval) && i <= j <= |ts| && ListedFrom(ts, i, j, m)
    requires Own(es[i], m).prev.Some? && Own(es[i], m).prev.value.decode.Some?
    requires forall x :: i <= x < j ==> Regular(Own(es[x], m), VisitOf(es[x], ts[x], interval, m))
    ensures Own(es[j], m).prev.Some? && Own(es[j], m).prev.value.decode.Some?
    ensures Ledger(es, ts, interval, m, i, j) ==
            Own(es[j], m).prev.value.decode.value - Own(es[i], m).prev.value.decode.value
  {
    if i < j {
      TokensAreConserved(es, ts, interval, m, i, j - 1);
      TokensOfVisit(es[j - 1], ts[j - 1], interval, m);
      hide After; hide Tokens; hide VisitOf;
    }
  }
}
