/**
 Runs in which the daemon does less than its documentation says. Its checks and the
 writes they guard take the lock separately, so these runs exist.
 */
module WorldRaces {
  import opened Wrappers
  import opened ProcessTables
  import opened StateStore
  import opened World
  import opened WorldVerdicts
  import opened WorldWindow
  import opened WorldBudget
  import opened WorldTrip
  import opened WorldDisk

  function Fresh(store: Manifests, listing: seq<Stored>): World {
    World(map[], store, [], map[], map[], map[], multiset{}, multiset{}, Sweep(listing, None, {}), {}, map[], 0,
          map[], [], [])
  }

  lemma RunExtends(ws: seq<World>, acts: seq<Act>, a: Act, v: World)
    requires Run(ws, acts) && Enabled(ws[|acts|], a) && v == Do(ws[|acts|], a)
    ensures Run(ws + [v], acts + [a])
  {
    hide Enabled; hide Do;
  }

  lemma Extended(ws: seq<World>, acts: seq<Act>, a: Act, v: World) returns (ws': seq<World>, acts': seq<Act>)
    requires Run(ws, acts) && Enabled(ws[|acts|], a) && v == Do(ws[|acts|], a)
    ensures Run(ws', acts') && ws' == ws + [v] && acts' == acts + [a]
  {
    hide Enabled; hide Do;
    RunExtends(ws, acts, a, v);
    ws', acts' := ws + [v], acts + [a];
  }

  const MODEL: Key := "m"
  const GATED: Spec := Spec("m", "llama.cpp", "http://127.0.0.1:1/health", 1000, "", "")

  // ----- a verdict that comes too late --------------------------------------

  const STARTED: Row := Row(1, Starting, 0, GATED, 0, [], false)
  const GATE: Seat := Seat(Gate, 1)
  const RECON: Seat := Seat(Recon, 1)
  const ASK: Act := RpcLoad(GATED, 1, false)
  const LOAD: Act := LoadStep(1, true)
  const PASS: Act := JudgeStep(GATE, Healthy)
  const ADOPT: Act := JudgeStep(RECON, Healthy)
  const REAP: Act := ReapStep(1)

  const POLLING: Judge := Polling(GATED, false, 0)
  const CHECKED: Judge := Passed(GATED, false, Ready)
  const LATE: Judge := Landing(GATED, false, Ready, Some(STARTED))

  // The gated model with these manifests on disk.
  function Loading(ms: seq<Stored>, l: Load): World {
    Fresh(Filed(ms), ms).(loads := map[1 := l], home := map[1 := MODEL])
  }

  function Filed(ms: seq<Stored>): Manifests { if ms == [] then map[] else map[MODEL := ms[0]] }

  function Spawned(ms: seq<Stored>, l: Load): World {
    Loading(ms, l).(reapers := map[1 := Waiting(MODEL)], live := {1})
  }

  function Polled(ms: seq<Stored>, judges: map<Seat, Judge>): World {
    Spawned(ms, Calling(GATED, Rpc)).(
      table := map[MODEL := STARTED], loads := map[], judges := judges,
      writes := multiset{Desire(MODEL, GATED)}, charges := map[MODEL := []])
  }

  lemma Launched(ms: seq<Stored>)
    ensures var w, v := Fresh(Filed(ms), ms), Loading(ms, Calling(GATED, Rpc));
      Enabled(w, ASK) && Do(w, ASK) == v
  {
  }

  lemma SpawnedNext(ms: seq<Stored>)
    ensures var w := Loading(ms, Calling(GATED, Rpc));
      Enabled(w, LOAD) && Do(w, LOAD) == Spawned(ms, Reading(GATED, Rpc))
  {
    assert map[1 := Calling(GATED, Rpc)][1 := Reading(GATED, Rpc)] == map[1 := Reading(GATED, Rpc)];
  }

  lemma ReadNext(ms: seq<Stored>)
    ensures var w := Spawned(ms, Reading(GATED, Rpc));
      Enabled(w, LOAD) && Do(w, LOAD) == Spawned(ms, Placing(GATED, Rpc, None))
  {
    assert map[1 := Reading(GATED, Rpc)][1 := Placing(GATED, Rpc, None)] == map[1 := Placing(GATED, Rpc, None)];
  }

  lemma PlacedNext(ms: seq<Stored>)
    ensures var w := Spawned(ms, Placing(GATED, Rpc, None));
      Enabled(w, LOAD) && Do(w, LOAD) == Polled(ms, map[GATE := POLLING])
  {
    assert GATED.Gated();
    assert map[1 := Placing(GATED, Rpc, None)] - {1} == map[];
  }

  // The model is placed and its gate polls.
  lemma Starts(ms: seq<Stored>) returns (ws: seq<World>, acts: seq<Act>)
    requires ms == [] || (|ms| == 1 && ms[0].spec.modelName == MODEL)
    ensures Run(ws, acts) && Booted(ws[0]) && |acts| == 4 && ws[4] == Polled(ms, map[GATE := POLLING])
  {
    hide Do; hide Enabled; hide Loading; hide Spawned; hide Polled; hide Booted; hide Fresh;
    BootsFresh(ms);
    Launched(ms);
    SpawnedNext(ms);
    ReadNext(ms);
    PlacedNext(ms);
    ws, acts := [Fresh(Filed(ms), ms)], [];
    ws, acts := Extended(ws, acts, ASK, Loading(ms, Calling(GATED, Rpc)));
    ws, acts := Extended(ws, acts, LOAD, Spawned(ms, Reading(GATED, Rpc)));
    ws, acts := Extended(ws, acts, LOAD, Spawned(ms, Placing(GATED, Rpc, None)));
    ws, acts := Extended(ws, acts, LOAD, Polled(ms, map[GATE := POLLING]));
  }

  lemma BootsFresh(ms: seq<Stored>)
    requires ms == [] || (|ms| == 1 && ms[0].spec.modelName == MODEL)
    ensures Booted(Fresh(Filed(ms), ms))
  {
  }

  // The gate has passed its check, and read the row.
  lemma PassedNext(ms: seq<Stored>)
    ensures var w, v := Polled(ms, map[GATE := POLLING]), Polled(ms, map[GATE := CHECKED]);
      Enabled(w, PASS) && Do(w, PASS) == v
    ensures var w, v := Polled(ms, map[GATE := CHECKED]), Polled(ms, map[GATE := LATE]);
      Enabled(w, PASS) && Do(w, PASS) == v
  {
    assert map[GATE := POLLING][GATE := CHECKED] == map[GATE := CHECKED];
    assert map[GATE := CHECKED][GATE := LATE] == map[GATE := LATE];
  }

  function Dead(ms: seq<Stored>, table: map<Key, Row>, charges: map<Key, seq<int>>, reapers: map<Pid, Reaper>): World {
    Polled(ms, map[GATE := LATE]).(live := {}, table := table, charges := charges, reapers := reapers)
  }

  const PLACED: map<Key, Row> := map[MODEL := STARTED]
  const CLEAN: map<Key, seq<int>> := map[MODEL := []]

  lemma DiedNext(ms: seq<Stored>)
    ensures var w, v := Polled(ms, map[GATE := LATE]), Dead(ms, PLACED, CLEAN, map[1 := Waiting(MODEL)]);
      Enabled(w, Die(1)) && Do(w, Die(1)) == v
  {
  }

  lemma CheckedNext(ms: seq<Stored>)
    ensures var w, v := Dead(ms, PLACED, CLEAN, map[1 := Waiting(MODEL)]),
                        Dead(ms, PLACED, CLEAN, map[1 := Looking(MODEL, false)]);
      Enabled(w, REAP) && Do(w, REAP) == v
  {
    hide DoLoad; hide DoJudge; hide DoFetch; hide DoCommit; hide DoRpcLoad; hide DoCrash; hide DoExamine; hide DoLaunch;
    hide DoCharge; hide DoMark;
    assert map[1 := Waiting(MODEL)][1 := Looking(MODEL, false)] == map[1 := Looking(MODEL, false)];
  }

  // The gate is about to write, its process has died, and the reaper is at work.
  lemma DiesUnderTheGate(ms: seq<Stored>) returns (ws: seq<World>, acts: seq<Act>)
    requires ms == [] || (|ms| == 1 && ms[0].spec.modelName == MODEL)
    ensures Run(ws, acts) && Booted(ws[0]) && |acts| == 8
    ensures ws[8] == Dead(ms, PLACED, CLEAN, map[1 := Looking(MODEL, false)])
  {
    hide Do; hide Enabled; hide Dead; hide Polled;
    ws, acts := Starts(ms);
    PassedNext(ms);
    ws, acts := Extended(ws, acts, PASS, Polled(ms, map[GATE := CHECKED]));
    ws, acts := Extended(ws, acts, PASS, Polled(ms, map[GATE := LATE]));
    DiedNext(ms);
    ws, acts := Extended(ws, acts, Die(1), Dead(ms, PLACED, CLEAN, map[1 := Waiting(MODEL)]));
    CheckedNext(ms);
    ws, acts := Extended(ws, acts, REAP, Dead(ms, PLACED, CLEAN, map[1 := Looking(MODEL, false)]));
  }

  const DONE: map<Key, Row> := map[MODEL := STARTED.(status := Failed)]

  lemma FoundUnwanted()
    ensures var w, v := Dead([], PLACED, CLEAN, map[1 := Looking(MODEL, false)]),
                        Dead([], PLACED, CLEAN, map[1 := GivingUp(MODEL)]);
      Enabled(w, REAP) && Do(w, REAP) == v
  {
    hide DoLoad; hide DoJudge; hide DoFetch; hide DoCommit; hide DoRpcLoad; hide DoCrash; hide DoExamine; hide DoLaunch;
    hide DoCheck; hide DoCharge; hide DoMark;
    assert map[1 := Looking(MODEL, false)][1 := GivingUp(MODEL)] == map[1 := GivingUp(MODEL)];
  }

  lemma GivenUp()
    ensures var w, v := Dead([], PLACED, CLEAN, map[1 := GivingUp(MODEL)]), Dead([], DONE, CLEAN, map[]);
      Enabled(w, REAP) && Do(w, REAP) == v
  {
    hide DoLoad; hide DoJudge; hide DoFetch; hide DoCommit; hide DoRpcLoad; hide DoCrash; hide DoExamine; hide DoLaunch;
    hide DoCheck; hide DoCharge; hide DoMark;
    assert map[1 := GivingUp(MODEL)] - {1} == map[];
    var failed := STARTED.(status := Failed);
    assert map[MODEL := STARTED][MODEL := failed] == map[MODEL := failed];
  }

  // The gate writes over whatever is there.
  lemma LandsAnyway(w: World)
    requires GATE in w.judges && w.judges[GATE] == LATE && w.now == 0
    ensures Enabled(w, PASS) && Do(w, PASS).live == w.live
    ensures Do(w, PASS).table == w.table[MODEL := STARTED.(status := Ready)]
  {
  }

  /**
   A gate that has checked its row and not yet written it overwrites what the reaper
   wrote in between: a process reported `failed` is reported `ready` again.
   */
  lemma StaleGateRevivesRow() returns (ws: seq<World>, acts: seq<Act>)
    ensures Run(ws, acts) && Booted(ws[0]) && |acts| == 11
    ensures OwnsRow(ws[10].table, MODEL, 1) && OwnsRow(ws[11].table, MODEL, 1)
    ensures !Moves(ws[10].table[MODEL].status, ws[11].table[MODEL].status)
    ensures ws[10].table[MODEL].status.Failed? && ws[11].table[MODEL].status.Ready? && 1 !in ws[11].live
  {
    hide Do; hide Enabled; hide Dead;
    ws, acts := DiesUnderTheGate([]);
    FoundUnwanted();
    GivenUp();
    var w9, w10 := Dead([], PLACED, CLEAN, map[1 := GivingUp(MODEL)]), Dead([], DONE, CLEAN, map[]);
    ws, acts := Extended(ws, acts, REAP, w9);
    ws, acts := Extended(ws, acts, REAP, w10);
    DeadShows([], DONE, CLEAN);
    LandsAnyway(w10);
    ws, acts := Extended(ws, acts, PASS, Do(w10, PASS));
  }

  lemma DeadShows(ms: seq<Stored>, table: map<Key, Row>, charges: map<Key, seq<int>>)
    ensures var w := Dead(ms, table, charges, map[]);
      w.table == table && w.judges == map[GATE := LATE] && w.now == 0 && w.live == {}
  {
  }

  // ----- a verdict that takes the mark off ----------------------------------

  const TIGHT: Stored := Stored(GATED, true, false, 0, 0)
  const CHARGED: map<Key, Row> := map[MODEL := STARTED.(restartCount := 1, windowStarts := [0])]
  const ONCE: map<Key, seq<int>> := map[MODEL := [0]]
  const SPENT: map<Key, Row> :=
    map[MODEL := STARTED.(restartCount := 1, windowStarts := [0], status := BudgetExhausted, userFlagged := true)]

  lemma LookedNext()
    ensures var w, v := Dead([TIGHT], PLACED, CLEAN, map[1 := Looking(MODEL, false)]),
                        Dead([TIGHT], PLACED, CLEAN, map[1 := Charging(MODEL, GATED, 0)]);
      Enabled(w, REAP) && Do(w, REAP) == v
  {
    hide DoLoad; hide DoJudge; hide DoFetch; hide DoCommit; hide DoRpcLoad; hide DoCrash; hide DoExamine; hide DoLaunch;
    hide DoCheck; hide DoCharge; hide DoMark;
    assert map[1 := Looking(MODEL, false)][1 := Charging(MODEL, GATED, 0)] == map[1 := Charging(MODEL, GATED, 0)];
  }

  lemma ChargedNext()
    ensures var w, v := Dead([TIGHT], PLACED, CLEAN, map[1 := Charging(MODEL, GATED, 0)]),
                        Dead([TIGHT], CHARGED, ONCE, map[1 := Marking(MODEL, GATED, 0, 1, 0)]);
      Enabled(w, REAP) && Do(w, REAP) == v
  {
    var row := STARTED.(restartCount := 1, windowStarts := [0]);
    assert ChargedRow(STARTED, 0) == row by {
      OneNow();
      assert [] + [0] == [0];
    }
    hide ChargedRow;
    var marking := Marking(MODEL, GATED, 0, 1, 0);
    assert map[1 := Charging(MODEL, GATED, 0)][1 := marking] == map[1 := marking];
    assert map[MODEL := STARTED][MODEL := row] == map[MODEL := row];
    var log: seq<int> := [];
    assert map[MODEL := log][MODEL := log + [0]] == map[MODEL := [0]];
  }

  lemma SpentNext()
    ensures var w := Dead([TIGHT], CHARGED, ONCE, map[1 := Marking(MODEL, GATED, 0, 1, 0)]);
      && Enabled(w, REAP)
      && Do(w, REAP) == Dead([TIGHT], SPENT, ONCE, map[]).(
                          writes := multiset{Desire(MODEL, GATED)} + multiset{Trip(MODEL, 0, 3)})
  {
    hide DoLoad; hide DoJudge; hide DoFetch; hide DoCommit; hide DoRpcLoad; hide DoCrash; hide DoExamine; hide DoLaunch;
    hide DoCheck; hide DoCharge;
    assert map[1 := Marking(MODEL, GATED, 0, 1, 0)] - {1} == map[];
    var row := STARTED.(restartCount := 1, windowStarts := [0]);
    assert map[MODEL := row][MODEL := row.(status := BudgetExhausted, userFlagged := true)] == SPENT;
  }

  /**
   A mark set between the read and the insert of a verdict is gone: the model exhausts its
   budget and is flagged, and the gate then writes the row it read before, unmarked, with a
   clean record and `ready`.
   */
  lemma GateTakesMarkOff() returns (ws: seq<World>, acts: seq<Act>)
    ensures Run(ws, acts) && Booted(ws[0]) && |acts| == 12
    ensures MODEL in ws[11].table && ws[11].table[MODEL].userFlagged && ws[11].table[MODEL].status.BudgetExhausted?
    ensures Unmarks(ws[11], acts[11], MODEL)
    ensures MODEL in ws[12].table && !ws[12].table[MODEL].userFlagged && ws[12].table[MODEL].status.Ready?
  {
    hide Do; hide Enabled; hide Dead; hide MarkKept; hide Unmarks;
    ws, acts := DiesUnderTheGate([TIGHT]);
    LookedNext();
    ChargedNext();
    SpentNext();
    var w9 := Dead([TIGHT], PLACED, CLEAN, map[1 := Charging(MODEL, GATED, 0)]);
    var w10 := Dead([TIGHT], CHARGED, ONCE, map[1 := Marking(MODEL, GATED, 0, 1, 0)]);
    var w11 := Dead([TIGHT], SPENT, ONCE, map[]).(
                 writes := multiset{Desire(MODEL, GATED)} + multiset{Trip(MODEL, 0, 3)});
    ws, acts := Extended(ws, acts, REAP, w9);
    ws, acts := Extended(ws, acts, REAP, w10);
    ws, acts := Extended(ws, acts, REAP, w11);
    DeadShows([TIGHT], SPENT, ONCE);
    LandsAnyway(w11);
    ws, acts := Extended(ws, acts, PASS, Do(w11, PASS));
    TakesMarkOff(w11);
  }

  lemma TakesMarkOff(w: World)
    requires GATE in w.judges && w.judges[GATE] == LATE && w.table == SPENT
    ensures Enabled(w, PASS) && Unmarks(w, PASS, MODEL)
  {
  }

  // ----- two verdicts on one process ----------------------------------------

  // Ten seconds on, gate and reconciler are this far with the one row.
  function Judged(gate: Judge, recon: Judge): World {
    Polled([], map[GATE := gate, RECON := recon]).(now := 10_000)
  }

  lemma Snapshot()
    ensures var w, v := Polled([], map[GATE := POLLING]), Polled([], map[GATE := POLLING]).(now := 10_000);
      && Enabled(w, Tick(10_000)) && Do(w, Tick(10_000)) == v
      && Enabled(v, ReconSees(MODEL)) && Do(v, ReconSees(MODEL)) == Judged(POLLING, POLLING)
  {
    assert GATED.Gated();
    assert map[GATE := POLLING][RECON := POLLING] == map[GATE := POLLING, RECON := POLLING];
  }

  lemma GateFinds()
    ensures Enabled(Judged(POLLING, POLLING), PASS) && Do(Judged(POLLING, POLLING), PASS) == Judged(CHECKED, POLLING)
  {
    assert map[GATE := POLLING, RECON := POLLING][GATE := CHECKED] == map[GATE := CHECKED, RECON := POLLING];
  }

  lemma ReconcilerFinds()
    ensures Enabled(Judged(CHECKED, POLLING), ADOPT) && Do(Judged(CHECKED, POLLING), ADOPT) == Judged(CHECKED, CHECKED)
  {
    assert map[GATE := CHECKED, RECON := POLLING][RECON := CHECKED] == map[GATE := CHECKED, RECON := CHECKED];
  }

  lemma GateReads()
    ensures Enabled(Judged(CHECKED, CHECKED), PASS) && Do(Judged(CHECKED, CHECKED), PASS) == Judged(LATE, CHECKED)
  {
    assert map[GATE := CHECKED, RECON := CHECKED][GATE := LATE] == map[GATE := LATE, RECON := CHECKED];
  }

  lemma ReconcilerReads()
    ensures Enabled(Judged(LATE, CHECKED), ADOPT) && Do(Judged(LATE, CHECKED), ADOPT) == Judged(LATE, LATE)
  {
    assert map[GATE := LATE, RECON := CHECKED][RECON := LATE] == map[GATE := LATE, RECON := LATE];
  }

  lemma BothLand()
    ensures var w := Judged(LATE, LATE);
      && Enabled(w, PASS) && Enabled(Do(w, PASS), ADOPT)
      && Do(w, PASS).verdicts == [1] && Do(Do(w, PASS), ADOPT).verdicts == [1, 1]
  {
  }

  /**
   The gate and the reconciler both find the backend healthy, both check that the row is
   still `starting`, and both land a verdict on the same process.
   */
  lemma GateAndReconcilerBothLand() returns (ws: seq<World>, acts: seq<Act>)
    ensures Run(ws, acts) && Booted(ws[0]) && |acts| == 12 && ws[12].verdicts == [1, 1]
  {
    hide Do; hide Enabled; hide Judged; hide Polled;
    ws, acts := Starts([]);
    Snapshot();
    GateFinds();
    ReconcilerFinds();
    GateReads();
    ReconcilerReads();
    BothLand();
    var w5, w6 := Polled([], map[GATE := POLLING]).(now := 10_000), Judged(POLLING, POLLING);
    var w7, w8 := Judged(CHECKED, POLLING), Judged(CHECKED, CHECKED);
    var w9, w10 := Judged(LATE, CHECKED), Judged(LATE, LATE);
    ws, acts := Extended(ws, acts, Tick(10_000), w5);
    ws, acts := Extended(ws, acts, ReconSees(MODEL), w6);
    ws, acts := Extended(ws, acts, PASS, w7);
    ws, acts := Extended(ws, acts, ADOPT, w8);
    ws, acts := Extended(ws, acts, PASS, w9);
    ws, acts := Extended(ws, acts, ADOPT, w10);
    ws, acts := Extended(ws, acts, PASS, Do(w10, PASS));
    ws, acts := Extended(ws, acts, ADOPT, Do(Do(w10, PASS), ADOPT));
  }

  // ----- one ungated model, at one instant ----------------------------------

  const SPEC: Spec := Spec("m", "llama.cpp", "", 0, "", "")

  function Manifest(cap: nat): Stored { Stored(SPEC, true, false, cap, 0) }

  function Shown(pid: Pid, status: Status, window: seq<int>): Row {
    Row(pid, status, 0, SPEC, |window|, window, false)
  }

  // What these runs follow: the row and the tasks of the one model, all at time 0, with
  // pids up to `p` handed out. Store writes under way are left open.
  predicate Is(w: World, p: nat, row: Row, queue: seq<Spec>, loads: map<Pid, Load>, reapers: map<Pid, Reaper>,
               live: set<Pid>, log: seq<int>, rs: seq<Respawn>, cap: nat)
  {
    && w.table == map[MODEL := row] && w.store == map[MODEL := Manifest(cap)] && w.queue == queue
    && w.loads == loads && w.judges == map[] && w.reapers == reapers && w.live == live && w.now == 0
    && (forall q :: q in w.home ==> q <= p) && Log(w.charges, MODEL) == log && w.respawns == rs
  }

  // Only store writes differ.
  predicate SameWrites(w: World, v: World) { v.writes == w.writes && v.drafts == w.drafts }

  lemma Dies(w: World, p: nat, row: Row, loads: map<Pid, Load>, log: seq<int>, rs: seq<Respawn>, cap: nat)
    requires Is(w, p, row, [], loads, map[p := Waiting(MODEL)], {p}, log, rs, cap)
    ensures Enabled(w, Die(p)) && SameWrites(w, Do(w, Die(p)))
    ensures Is(Do(w, Die(p)), p, row, [], loads, map[p := Waiting(MODEL)], {}, log, rs, cap)
  {
    assert {p} - {p} == {};
  }

  lemma Checks(w: World, p: nat, row: Row, loads: map<Pid, Load>, log: seq<int>, rs: seq<Respawn>, cap: nat)
    requires row.pid == p && Is(w, p, row, [], loads, map[p := Waiting(MODEL)], {}, log, rs, cap)
    ensures Enabled(w, ReapStep(p)) && SameWrites(w, Do(w, ReapStep(p)))
    ensures Is(Do(w, ReapStep(p)), p, row, [], loads, map[p := Looking(MODEL, row.userFlagged)], {}, log, rs, cap)
  {
    assert DoReap(w, p) == DoCheck(w, p, MODEL);
    assert map[p := Waiting(MODEL)][p := Looking(MODEL, row.userFlagged)] == map[p := Looking(MODEL, row.userFlagged)];
  }

  lemma Looks(w: World, p: nat, row: Row, loads: map<Pid, Load>, log: seq<int>, rs: seq<Respawn>, cap: nat)
    requires Is(w, p, row, [], loads, map[p := Looking(MODEL, false)], {}, log, rs, cap)
    ensures Enabled(w, ReapStep(p)) && SameWrites(w, Do(w, ReapStep(p)))
    ensures Is(Do(w, ReapStep(p)), p, row, [], loads, map[p := Charging(MODEL, SPEC, cap)], {}, log, rs, cap)
  {
    assert map[p := Looking(MODEL, false)][p := Charging(MODEL, SPEC, cap)] == map[p := Charging(MODEL, SPEC, cap)];
  }

  lemma ChargesZero(p: nat, status: Status, window: seq<int>)
    requires window == [] || window == [0]
    ensures ChargedRow(Shown(p, status, window), 0) == Shown(p, status, window + [0])
  {
    assert (window + [0])[..|window|] == window;
    assert Since([], -300_000) == [] && Since([0], -300_000) == [0];
    assert Since(window, -300_000) == window;
  }

  lemma Charges(w: World, p: nat, status: Status, window: seq<int>, loads: map<Pid, Load>, rs: seq<Respawn>, cap: nat)
    requires window == [] || window == [0]
    requires Is(w, p, Shown(p, status, window), [], loads, map[p := Charging(MODEL, SPEC, cap)], {}, window, rs, cap)
    ensures Enabled(w, ReapStep(p)) && SameWrites(w, Do(w, ReapStep(p)))
    ensures Is(Do(w, ReapStep(p)), p, Shown(p, status, window + [0]), [], loads,
               map[p := Marking(MODEL, SPEC, cap, |window| + 1, 0)], {}, window + [0], rs, cap)
  {
    hide Since; hide ChargedRow;
    ChargesZero(p, status, window);
    var row := Shown(p, status, window + [0]);
    assert map[MODEL := Shown(p, status, window)][MODEL := row] == map[MODEL := row];
    var m := Marking(MODEL, SPEC, cap, |window| + 1, 0);
    assert map[p := Charging(MODEL, SPEC, cap)][p := m] == map[p := m];
    assert DoReap(w, p) == DoCharge(w, p, MODEL, SPEC, cap);
  }

  lemma Marks(w: World, p: nat, status: Status, window: seq<int>, loads: map<Pid, Load>, rs: seq<Respawn>, cap: nat)
    requires |window| < cap && CanMoveDownstream(status)
    requires Is(w, p, Shown(p, status, window), [], loads, map[p := Marking(MODEL, SPEC, cap, |window|, 0)], {}, window,
                rs, cap)
    ensures Enabled(w, ReapStep(p)) && SameWrites(w, Do(w, ReapStep(p)))
    ensures Is(Do(w, ReapStep(p)), p, Shown(p, Restarting, window), [SPEC], loads, map[], {}, window,
               rs + [Respawn(MODEL, 0, cap, 0)], cap)
  {
    var m := Marking(MODEL, SPEC, cap, |window|, 0);
    assert map[p := m] - {p} == map[];
    var row := Shown(p, Restarting, window);
    assert map[MODEL := Shown(p, status, window)][MODEL := row] == map[MODEL := row];
    assert DoReap(w, p) == DoMark(w, p, MODEL, SPEC, cap, |window|, 0);
    assert [] + [SPEC] == [SPEC];
  }

  lemma Trips(w: World, p: nat, status: Status, window: seq<int>, loads: map<Pid, Load>, rs: seq<Respawn>, cap: nat)
    requires |window| >= cap && CanMoveDownstream(status)
    requires Is(w, p, Shown(p, status, window), [], loads, map[p := Marking(MODEL, SPEC, cap, |window|, 0)], {}, window,
                rs, cap)
    ensures Enabled(w, ReapStep(p)) && Exhausts(w, ReapStep(p), MODEL)
    ensures var v := Do(w, ReapStep(p));
      && Is(v, p, Shown(p, BudgetExhausted, window).(userFlagged := true), [], loads, map[], {}, window, rs, cap)
      && v.writes == w.writes + multiset{Trip(MODEL, cap, 3)} && v.drafts == w.drafts
  {
    var m := Marking(MODEL, SPEC, cap, |window|, 0);
    assert map[p := m] - {p} == map[];
    var row := Shown(p, BudgetExhausted, window).(userFlagged := true);
    assert map[MODEL := Shown(p, status, window)][MODEL := row] == map[MODEL := row];
    assert DoReap(w, p) == DoMark(w, p, MODEL, SPEC, cap, |window|, 0);
  }

  lemma Dispatches(w: World, p: nat, row: Row, log: seq<int>, rs: seq<Respawn>, cap: nat)
    requires Is(w, p, row, [SPEC], map[], map[], {}, log, rs, cap)
    ensures Enabled(w, Dispatch(p + 1))
    ensures Is(Do(w, Dispatch(p + 1)), p + 1, row, [], map[p + 1 := Calling(SPEC, Supervisor)], map[], {}, log, rs, cap)
  {
    assert [SPEC][1..] == [];
  }

  // An operator's load of a model whose process is gone.
  lemma Asks(w: World, p: nat, row: Row, log: seq<int>, rs: seq<Respawn>, cap: nat)
    requires Is(w, p, row, [], map[], map[], {}, log, rs, cap)
    ensures Enabled(w, RpcLoad(SPEC, p + 1, false))
    ensures Is(Do(w, RpcLoad(SPEC, p + 1, false)), p + 1, row, [], map[p + 1 := Calling(SPEC, Rpc)], map[], {}, log, rs,
               cap)
  {
  }

  lemma Spawns(w: World, p: nat, row: Row, origin: Origin, log: seq<int>, rs: seq<Respawn>, cap: nat)
    requires Is(w, p, row, [], map[p := Calling(SPEC, origin)], map[], {}, log, rs, cap)
    ensures Enabled(w, LoadStep(p, true))
    ensures Is(Do(w, LoadStep(p, true)), p, row, [], map[p := Reading(SPEC, origin)], map[p := Waiting(MODEL)], {p},
               log, rs, cap)
  {
    assert map[p := Calling(SPEC, origin)][p := Reading(SPEC, origin)] == map[p := Reading(SPEC, origin)];
  }

  lemma Reads(w: World, p: nat, row: Row, origin: Origin, log: seq<int>, rs: seq<Respawn>, cap: nat)
    requires Is(w, p, row, [], map[p := Reading(SPEC, origin)], map[p := Waiting(MODEL)], {p}, log, rs, cap)
    ensures Enabled(w, LoadStep(p, true))
    ensures Is(Do(w, LoadStep(p, true)), p, row, [], map[p := Placing(SPEC, origin, Some(row))],
               map[p := Waiting(MODEL)], {p}, log, rs, cap)
  {
    var l := Placing(SPEC, origin, Some(row));
    assert map[p := Reading(SPEC, origin)][p := l] == map[p := l];
  }

  lemma Places(w: World, p: nat, prev: Row, origin: Origin, log: seq<int>, rs: seq<Respawn>, cap: nat)
    requires !prev.userFlagged && prev.restartCount == |prev.windowStarts|
    requires Is(w, p, prev, [], map[p := Placing(SPEC, origin, Some(prev))], map[p := Waiting(MODEL)], {p}, log, rs,
                cap)
    ensures Enabled(w, LoadStep(p, true))
    ensures var inherit := prev.status.Restarting?;
      Is(Do(w, LoadStep(p, true)), p, Shown(p, Starting, if inherit then prev.windowStarts else []), [],
         map[p := Settling(SPEC, origin, inherit, Some(prev), false)], map[p := Waiting(MODEL)], {p},
         if inherit then log else [], rs, cap)
  {
    var inherit := prev.status.Restarting?;
    var l := Settling(SPEC, origin, inherit, Some(prev), false);
    assert !SPEC.Gated();
    assert map[p := Placing(SPEC, origin, Some(prev))][p := l] == map[p := l];
    var row := Shown(p, Starting, if inherit then prev.windowStarts else []);
    assert map[MODEL := prev][MODEL := row] == map[MODEL := row];
    hide Affirmed; hide Freed;
  }

  // The load looks at the row while it is still its own.
  lemma Confirms(w: World, p: nat, row: Row, l: Load, log: seq<int>, rs: seq<Respawn>, cap: nat)
    requires row.pid == p && l.Settling? && !l.checked && l.spec == SPEC
    requires Is(w, p, row, [], map[p := l], map[p := Waiting(MODEL)], {p}, log, rs, cap)
    ensures Enabled(w, LoadStep(p, true))
    ensures Is(Do(w, LoadStep(p, true)), p, row, [], map[p := l.(checked := true)], map[p := Waiting(MODEL)], {p}, log,
               rs, cap)
  {
    assert map[p := l][p := l.(checked := true)] == map[p := l.(checked := true)];
    hide Affirmed; hide Freed;
  }

  // The instant `ready` writes the bookkeeping of `prev`, whatever the row holds by now.
  lemma Settles(w: World, p: nat, row: Row, queue: seq<Spec>, origin: Origin, inherit: bool, prev: Row,
                reapers: map<Pid, Reaper>, live: set<Pid>, log: seq<int>, rs: seq<Respawn>, cap: nat)
    requires !prev.userFlagged && prev.restartCount == |prev.windowStarts|
    requires Is(w, p, row, queue, map[p := Settling(SPEC, origin, inherit, Some(prev), true)], reapers, live, log, rs,
                cap)
    ensures Enabled(w, LoadStep(p, true))
    ensures Is(Do(w, LoadStep(p, true)), p, Shown(p, Ready, if inherit then prev.windowStarts else []), queue, map[],
               reapers, live, if inherit then log else [], rs, cap)
    ensures Unmarks(w, LoadStep(p, true), MODEL) <==> row.userFlagged
  {
    var l := Settling(SPEC, origin, inherit, Some(prev), true);
    assert map[p := l] - {p} == map[];
    var row' := Shown(p, Ready, if inherit then prev.windowStarts else []);
    assert map[MODEL := row][MODEL := row'] == map[MODEL := row'];
    hide Affirmed; hide Freed;
  }

  // ----- runs of it ---------------------------------------------------------

  // A run that ends in `v`. From step 7 on the model has a row, and if `alone`, nobody but
  // the reaper restarts it.
  ghost predicate Reaches(ws: seq<World>, acts: seq<Act>, v: World, alone: bool) {
    && Run(ws, acts) && ws[|acts|] == v && |acts| >= 7
    && Booted(ws[0]) && LeftAlone(ws[7], MODEL) && ws[7].respawns == []
    && (forall i :: 7 <= i <= |acts| ==> MODEL in ws[i].table)
    && (alone ==> forall i :: 7 <= i < |acts| ==> LeavesAlone(ws[i], acts[i], MODEL))
  }

  lemma GoesOn(ws: seq<World>, acts: seq<Act>, a: Act, alone: bool) returns (ws': seq<World>, acts': seq<Act>)
    requires Run(ws, acts) && Reaches(ws, acts, ws[|acts|], alone) && Enabled(ws[|acts|], a)
    requires MODEL in Do(ws[|acts|], a).table
    requires alone ==> a.Die? || a.ReapStep? || a.LoadStep? || a.Dispatch?
    ensures ws' == ws + [Do(ws[|acts|], a)] && acts' == acts + [a]
    ensures Reaches(ws', acts', Do(ws[|acts|], a), alone)
  {
    hide Enabled; hide Do; hide Booted; hide LeftAlone;
    var v := Do(ws[|acts|], a);
    ws', acts' := ws + [v], acts + [a];
    RunExtends(ws, acts, a, v);
    forall i | 7 <= i <= |acts'| ensures MODEL in ws'[i].table { if i <= |acts| { assert ws'[i] == ws[i]; } }
    if alone {
      forall i | 7 <= i < |acts'| ensures LeavesAlone(ws'[i], acts'[i], MODEL) {
        if i < |acts| { assert ws'[i] == ws[i] && acts'[i] == acts[i]; }
      }
    }
  }

  // A row is there.
  lemma Rows(w: World, p: nat, row: Row, queue: seq<Spec>, loads: map<Pid, Load>, reapers: map<Pid, Reaper>,
             live: set<Pid>, log: seq<int>, rs: seq<Respawn>, cap: nat)
    requires Is(w, p, row, queue, loads, reapers, live, log, rs, cap)
    ensures MODEL in w.table && w.table[MODEL] == row && w.respawns == rs && Log(w.charges, MODEL) == log
  {
  }

  // A death of `p` that finds `window` on its row gets as far as its mark.
  lemma DiesAndIsCharged(ws: seq<World>, acts: seq<Act>, alone: bool, p: nat, status: Status, window: seq<int>,
                         loads: map<Pid, Load>, rs: seq<Respawn>, cap: nat)
      returns (ws': seq<World>, acts': seq<Act>)
    requires window == [] || window == [0]
    requires Run(ws, acts) && Reaches(ws, acts, ws[|acts|], alone)
    requires Is(ws[|acts|], p, Shown(p, status, window), [], loads, map[p := Waiting(MODEL)], {p}, window, rs, cap)
    ensures Run(ws', acts') && Reaches(ws', acts', ws'[|acts'|], alone) && ws <= ws' && acts <= acts'
    ensures |acts'| == |acts| + 4 && SameWrites(ws[|acts|], ws'[|acts'|])
    ensures Is(ws'[|acts'|], p, Shown(p, status, window + [0]), [], loads,
               map[p := Marking(MODEL, SPEC, cap, |window| + 1, 0)], {}, window + [0], rs, cap)
  {
    hide Enabled; hide Do; hide Reaches; hide Is; hide Run;
    var row := Shown(p, status, window);
    ReachesRun(ws, acts, alone);
    Dies(ws[|acts|], p, row, loads, window, rs, cap);
    ws', acts' := Stepped(ws, acts, Die(p), alone, p, row, [], loads, map[p := Waiting(MODEL)], {}, window, rs, cap);
    Checks(ws'[|acts'|], p, row, loads, window, rs, cap);
    ws', acts' := Stepped(ws', acts', ReapStep(p), alone, p, row, [], loads, map[p := Looking(MODEL, false)],
                          {}, window, rs, cap);
    Looks(ws'[|acts'|], p, row, loads, window, rs, cap);
    ws', acts' := Stepped(ws', acts', ReapStep(p), alone, p, row, [], loads, map[p := Charging(MODEL, SPEC, cap)], {},
                          window, rs, cap);
    Charges(ws'[|acts'|], p, status, window, loads, rs, cap);
    ws', acts' := Stepped(ws', acts', ReapStep(p), alone, p, Shown(p, status, window + [0]), [], loads,
                          map[p := Marking(MODEL, SPEC, cap, |window| + 1, 0)], {}, window + [0], rs, cap);
  }

  lemma ReachesRun(ws: seq<World>, acts: seq<Act>, alone: bool)
    requires Run(ws, acts) && Reaches(ws, acts, ws[|acts|], alone)
    ensures |ws| == |acts| + 1
  {
  }

  // One step, by what is known of the world it leads to.
  lemma Stepped(ws: seq<World>, acts: seq<Act>, a: Act, alone: bool, p: nat, row: Row, queue: seq<Spec>,
                loads: map<Pid, Load>, reapers: map<Pid, Reaper>, live: set<Pid>, log: seq<int>, rs: seq<Respawn>,
                cap: nat)
      returns (ws': seq<World>, acts': seq<Act>)
    requires Run(ws, acts) && Reaches(ws, acts, ws[|acts|], alone) && Enabled(ws[|acts|], a)
    requires alone ==> a.Die? || a.ReapStep? || a.LoadStep? || a.Dispatch?
    requires Is(Do(ws[|acts|], a), p, row, queue, loads, reapers, live, log, rs, cap)
    ensures ws' == ws + [Do(ws[|acts|], a)] && acts' == acts + [a] && |ws'| == |acts'| + 1
    ensures Run(ws', acts') && Reaches(ws', acts', ws'[|acts'|], alone)
    ensures Is(ws'[|acts'|], p, row, queue, loads, reapers, live, log, rs, cap)
  {
    hide Enabled; hide Do; hide Is;
    Rows(Do(ws[|acts|], a), p, row, queue, loads, reapers, live, log, rs, cap);
    ws', acts' := GoesOn(ws, acts, a, alone);
    hide Booted; hide LeftAlone;
  }

  lemma DiesAndRespawns(ws: seq<World>, acts: seq<Act>, alone: bool, p: nat, status: Status, window: seq<int>,
                        loads: map<Pid, Load>, rs: seq<Respawn>, cap: nat)
      returns (ws': seq<World>, acts': seq<Act>)
    requires (window == [] || window == [0]) && |window| + 1 < cap && CanMoveDownstream(status)
    requires Run(ws, acts) && Reaches(ws, acts, ws[|acts|], alone)
    requires Is(ws[|acts|], p, Shown(p, status, window), [], loads, map[p := Waiting(MODEL)], {p}, window, rs, cap)
    ensures Run(ws', acts') && Reaches(ws', acts', ws'[|acts'|], alone) && ws <= ws' && acts <= acts'
    ensures Is(ws'[|acts'|], p, Shown(p, Restarting, window + [0]), [SPEC], loads, map[], {}, window + [0],
               rs + [Respawn(MODEL, 0, cap, 0)], cap)
  {
    hide Enabled; hide Do; hide Reaches; hide Is; hide Run;
    ws', acts' := DiesAndIsCharged(ws, acts, alone, p, status, window, loads, rs, cap);
    ReachesRun(ws', acts', alone);
    Marks(ws'[|acts'|], p, status, window + [0], loads, rs, cap);
    ws', acts' := Stepped(ws', acts', ReapStep(p), alone, p, Shown(p, Restarting, window + [0]), [SPEC], loads, map[],
                          {}, window + [0], rs + [Respawn(MODEL, 0, cap, 0)], cap);
  }

  lemma DiesAndTrips(ws: seq<World>, acts: seq<Act>, alone: bool, p: nat, status: Status, window: seq<int>,
                     loads: map<Pid, Load>, rs: seq<Respawn>, cap: nat)
      returns (ws': seq<World>, acts': seq<Act>)
    requires (window == [] || window == [0]) && |window| + 1 >= cap && CanMoveDownstream(status)
    requires Run(ws, acts) && Reaches(ws, acts, ws[|acts|], alone)
    requires Is(ws[|acts|], p, Shown(p, status, window), [], loads, map[p := Waiting(MODEL)], {p}, window, rs, cap)
    ensures Run(ws', acts') && Reaches(ws', acts', ws'[|acts'|], alone) && ws <= ws' && acts <= acts'
    ensures |acts'| == |acts| + 5 && Exhausts(ws'[|acts'| - 1], acts'[|acts'| - 1], MODEL)
    ensures Is(ws'[|acts'|], p, Shown(p, BudgetExhausted, window + [0]).(userFlagged := true), [], loads, map[], {},
               window + [0], rs, cap)
    ensures var v := ws'[|acts'|];
      v.writes == ws[|acts|].writes + multiset{Trip(MODEL, cap, 3)} && v.drafts == ws[|acts|].drafts
  {
    hide Enabled; hide Do; hide Reaches; hide Is; hide Run; hide Exhausts;
    ws', acts' := DiesAndIsCharged(ws, acts, alone, p, status, window, loads, rs, cap);
    ReachesRun(ws', acts', alone);
    var w := ws'[|acts'|];
    Trips(w, p, status, window + [0], loads, rs, cap);
    ws', acts' := Stepped(ws', acts', ReapStep(p), alone, p,
                          Shown(p, BudgetExhausted, window + [0]).(userFlagged := true),
                          [], loads, map[], {}, window + [0], rs, cap);
    assert ws'[|acts'| - 1] == w && acts'[|acts'| - 1] == ReapStep(p);
  }

  // A load goes from its call to its `starting` row.
  lemma IsPlaced(ws: seq<World>, acts: seq<Act>, alone: bool, p: nat, prev: Row, origin: Origin, log: seq<int>,
                 rs: seq<Respawn>, cap: nat)
      returns (ws': seq<World>, acts': seq<Act>)
    requires !prev.userFlagged && prev.restartCount == |prev.windowStarts|
    requires Run(ws, acts) && Reaches(ws, acts, ws[|acts|], alone)
    requires Is(ws[|acts|], p, prev, [], map[p := Calling(SPEC, origin)], map[], {}, log, rs, cap)
    ensures Run(ws', acts') && Reaches(ws', acts', ws'[|acts'|], alone) && ws <= ws' && acts <= acts'
    ensures var inherit := prev.status.Restarting?;
      Is(ws'[|acts'|], p, Shown(p, Starting, if inherit then prev.windowStarts else []), [],
         map[p := Settling(SPEC, origin, inherit, Some(prev), false)], map[p := Waiting(MODEL)], {p},
         if inherit then log else [], rs, cap)
  {
    hide Enabled; hide Do; hide Reaches; hide Is; hide Run;
    ReachesRun(ws, acts, alone);
    Spawns(ws[|acts|], p, prev, origin, log, rs, cap);
    ws', acts' := Stepped(ws, acts, LoadStep(p, true), alone, p, prev, [], map[p := Reading(SPEC, origin)],
                          map[p := Waiting(MODEL)], {p}, log, rs, cap);
    Reads(ws'[|acts'|], p, prev, origin, log, rs, cap);
    ws', acts' := Stepped(ws', acts', LoadStep(p, true), alone, p, prev, [],
                          map[p := Placing(SPEC, origin, Some(prev))], map[p := Waiting(MODEL)], {p}, log, rs, cap);
    Places(ws'[|acts'|], p, prev, origin, log, rs, cap);
    var inherit := prev.status.Restarting?;
    ws', acts' := Stepped(ws', acts', LoadStep(p, true), alone, p,
                          Shown(p, Starting, if inherit then prev.windowStarts else []), [],
                          map[p := Settling(SPEC, origin, inherit, Some(prev), false)], map[p := Waiting(MODEL)], {p},
                          if inherit then log else [], rs, cap);
  }

  // The supervisor takes the queued respawn as far as the look before its `ready` insert.
  lemma Relaunches(ws: seq<World>, acts: seq<Act>, alone: bool, p: nat, prev: Row, log: seq<int>, rs: seq<Respawn>,
                   cap: nat)
      returns (ws': seq<World>, acts': seq<Act>)
    requires !prev.userFlagged && prev.restartCount == |prev.windowStarts|
    requires Run(ws, acts) && Reaches(ws, acts, ws[|acts|], alone)
    requires Is(ws[|acts|], p, prev, [SPEC], map[], map[], {}, log, rs, cap)
    ensures Run(ws', acts') && Reaches(ws', acts', ws'[|acts'|], alone) && ws <= ws' && acts <= acts'
    ensures var q, inherit := p + 1, prev.status.Restarting?;
      Is(ws'[|acts'|], q, Shown(q, Starting, if inherit then prev.windowStarts else []), [],
         map[q := Settling(SPEC, Supervisor, inherit, Some(prev), true)], map[q := Waiting(MODEL)], {q},
         if inherit then log else [], rs, cap)
  {
    hide Enabled; hide Do; hide Reaches; hide Is; hide Run;
    var q, inherit := p + 1, prev.status.Restarting?;
    ReachesRun(ws, acts, alone);
    Dispatches(ws[|acts|], p, prev, log, rs, cap);
    ws', acts' := Stepped(ws, acts, Dispatch(q), alone, q, prev, [], map[q := Calling(SPEC, Supervisor)],
                          map[], {}, log, rs, cap);
    ws', acts' := IsPlaced(ws', acts', alone, q, prev, Supervisor, log, rs, cap);
    ReachesRun(ws', acts', alone);
    var row, l := Shown(q, Starting, if inherit then prev.windowStarts else []),
                  Settling(SPEC, Supervisor, inherit, Some(prev), false);
    var log' := if inherit then log else [];
    Confirms(ws'[|acts'|], q, row, l, log', rs, cap);
    ws', acts' := Stepped(ws', acts', LoadStep(q, true), alone, q, row, [], map[q := l.(checked := true)],
                          map[q := Waiting(MODEL)], {q}, log', rs, cap);
  }

  function Respawned(n: nat, cap: nat): seq<Respawn> {
    if n == 0 then [] else Respawned(n - 1, cap) + [Respawn(MODEL, 0, cap, 0)]
  }

  // The model is ready under pid `p` with a clean record, `n` respawns after it was left alone.
  predicate Rested(w: World, p: nat, n: nat, cap: nat) {
    Is(w, p, Shown(p, Ready, []), [], map[], map[p := Waiting(MODEL)], {p}, [], Respawned(n, cap), cap)
  }

  /**
   Two respawns, after which the record is clean again: the second one is charged and
   granted between the look and the `ready` insert of the first, and the `ready` row
   neither shows `restarting` nor the second charge.
   */
  lemma Cycle(ws: seq<World>, acts: seq<Act>, p: nat, n: nat, cap: nat) returns (ws': seq<World>, acts': seq<Act>)
    requires cap >= 3 && Run(ws, acts) && Reaches(ws, acts, ws[|acts|], true) && Rested(ws[|acts|], p, n, cap)
    ensures Run(ws', acts') && Reaches(ws', acts', ws'[|acts'|], true) && Rested(ws'[|acts'|], p + 2, n + 2, cap)
  {
    hide Enabled; hide Do; hide Reaches; hide Is; hide Run;
    var rs, r := Respawned(n, cap), Respawn(MODEL, 0, cap, 0);
    var q, s := p + 1, p + 2;
    assert [] + [0] == [0];
    ws', acts' := DiesAndRespawns(ws, acts, true, p, Ready, [], map[], rs, cap);
    var prev := Shown(p, Restarting, [0]);
    ws', acts' := Relaunches(ws', acts', true, p, prev, [0], rs + [r], cap);
    var settling := map[q := Settling(SPEC, Supervisor, true, Some(prev), true)];
    ws', acts' := DiesAndRespawns(ws', acts', true, q, Starting, [0], settling, rs + [r], cap);
    assert Respawned(n + 2, cap) == rs + [r] + [r];
    ReachesRun(ws', acts', true);
    var row, stale, log := Shown(q, Restarting, [0] + [0]), Shown(q, Ready, [0]), [0] + [0];
    Settles(ws'[|acts'|], q, row, [SPEC], Supervisor, true, prev, map[], {}, log, rs + [r] + [r], cap);
    ws', acts' := Stepped(ws', acts', LoadStep(q, true), true, q, stale, [SPEC], map[], map[], {}, log,
                          rs + [r] + [r], cap);
    ws', acts' := Relaunches(ws', acts', true, q, stale, log, rs + [r] + [r], cap);
    ReachesRun(ws', acts', true);
    Settles(ws'[|acts'|], s, Shown(s, Starting, []), [], Supervisor, false, stale, map[s := Waiting(MODEL)], {s}, [],
            rs + [r] + [r], cap);
    ws', acts' := Stepped(ws', acts', LoadStep(s, true), true, s, Shown(s, Ready, []), [], map[],
                          map[s := Waiting(MODEL)], {s}, [], rs + [r] + [r], cap);
  }

  // ----- from the boot on ---------------------------------------------------

  function Booting(cap: nat): World { Fresh(map[MODEL := Manifest(cap)], [Manifest(cap)]) }

  function BootLoad(cap: nat, load: Load): World {
    Booting(cap).(sweep := Sweep([], None, {1}), loads := map[1 := load], home := map[1 := MODEL])
  }

  function BootSpawned(cap: nat, load: Load): World {
    BootLoad(cap, load).(live := {1}, reapers := map[1 := Waiting(MODEL)])
  }

  const FIRST: Load := Settling(SPEC, Boot, false, None, false)
  const SURE: Load := Settling(SPEC, Boot, false, None, true)

  function BootPlaced(cap: nat, load: Load): World {
    BootSpawned(cap, load).(table := map[MODEL := Shown(1, Starting, [])], charges := map[MODEL := []])
  }

  function BootRested(cap: nat): World {
    BootPlaced(cap, SURE).(table := map[MODEL := Shown(1, Ready, [])], loads := map[], sweep := Sweep([], None, {}))
  }

  lemma BootSweeps(cap: nat)
    requires cap >= 1
    ensures Booted(Booting(cap))
    ensures var w, v := Booting(cap), Booting(cap).(sweep := Sweep([], Some(Manifest(cap)), {}));
      && Enabled(w, SweepExamines(false)) && Do(w, SweepExamines(false)) == v
      && Enabled(v, SweepLaunches(1)) && Do(v, SweepLaunches(1)) == BootLoad(cap, Calling(SPEC, Boot))
  {
    assert Replayable(Manifest(cap));
    assert [Manifest(cap)][1..] == [];
    assert {} + {1} == {1};
  }

  lemma BootSpawns(cap: nat)
    ensures var w := BootLoad(cap, Calling(SPEC, Boot));
      Enabled(w, LoadStep(1, true)) && Do(w, LoadStep(1, true)) == BootSpawned(cap, Reading(SPEC, Boot))
  {
    assert map[1 := Calling(SPEC, Boot)][1 := Reading(SPEC, Boot)] == map[1 := Reading(SPEC, Boot)];
    assert {} + {1} == {1};
  }

  lemma BootReads(cap: nat)
    ensures var w := BootSpawned(cap, Reading(SPEC, Boot));
      Enabled(w, LoadStep(1, true)) && Do(w, LoadStep(1, true)) == BootSpawned(cap, Placing(SPEC, Boot, None))
  {
    assert map[1 := Reading(SPEC, Boot)][1 := Placing(SPEC, Boot, None)] == map[1 := Placing(SPEC, Boot, None)];
  }

  lemma BootPlaces(cap: nat)
    ensures var w := BootSpawned(cap, Placing(SPEC, Boot, None));
      Enabled(w, LoadStep(1, true)) && Do(w, LoadStep(1, true)) == BootPlaced(cap, FIRST)
    ensures var w := BootPlaced(cap, FIRST);
      Enabled(w, LoadStep(1, true)) && Do(w, LoadStep(1, true)) == BootPlaced(cap, SURE)
  {
    assert !SPEC.Gated();
    assert map[1 := Placing(SPEC, Boot, None)][1 := FIRST] == map[1 := FIRST];
    assert map[1 := FIRST][1 := SURE] == map[1 := SURE];
  }

  lemma BootSettles(cap: nat)
    ensures var w := BootPlaced(cap, SURE);
      Enabled(w, LoadStep(1, true)) && Do(w, LoadStep(1, true)) == BootRested(cap)
  {
    assert map[1 := SURE] - {1} == map[];
    assert {1} - {1} == {};
    assert map[MODEL := Shown(1, Starting, [])][MODEL := Shown(1, Ready, [])] == map[MODEL := Shown(1, Ready, [])];
    var log: seq<int> := [];
    assert map[MODEL := log][MODEL := log] == map[MODEL := log];
  }

  lemma RestsAlone(cap: nat)
    ensures LeftAlone(BootRested(cap), MODEL) && BootRested(cap).respawns == [] && MODEL in BootRested(cap).table
    ensures Rested(BootRested(cap), 1, 0, cap)
  {
  }

  lemma Begins(cap: nat) returns (ws: seq<World>, acts: seq<Act>)
    requires cap >= 1
    ensures Run(ws, acts) && |acts| == 7 && Reaches(ws, acts, ws[|acts|], true) && Rested(ws[|acts|], 1, 0, cap)
  {
    hide Enabled; hide Do; hide Booted; hide LeftAlone; hide Booting; hide BootLoad; hide BootSpawned; hide BootPlaced;
    hide BootRested; hide Rested;
    var examine, launch, load := SweepExamines(false), SweepLaunches(1), LoadStep(1, true);
    var w0, w1 := Booting(cap), Booting(cap).(sweep := Sweep([], Some(Manifest(cap)), {}));
    var w2, w3 := BootLoad(cap, Calling(SPEC, Boot)), BootSpawned(cap, Reading(SPEC, Boot));
    var w4, w5 := BootSpawned(cap, Placing(SPEC, Boot, None)), BootPlaced(cap, FIRST);
    var w6, w7 := BootPlaced(cap, SURE), BootRested(cap);
    BootSweeps(cap);
    BootSpawns(cap);
    BootReads(cap);
    BootPlaces(cap);
    BootSettles(cap);
    RestsAlone(cap);
    ws, acts := [w0], [];
    ws, acts := Extended(ws, acts, examine, w1);
    ws, acts := Extended(ws, acts, launch, w2);
    ws, acts := Extended(ws, acts, load, w3);
    ws, acts := Extended(ws, acts, load, w4);
    ws, acts := Extended(ws, acts, load, w5);
    ws, acts := Extended(ws, acts, load, w6);
    ws, acts := Extended(ws, acts, load, w7);
  }

  lemma {:induction false} RespawnedInSpan(n: nat, cap: nat)
    ensures InSpan(Respawned(n, cap), MODEL, 0) == n
    ensures forall i :: 0 <= i < |Respawned(n, cap)| ==> Respawned(n, cap)[i].cap == cap
  {
    if n > 0 {
      RespawnedInSpan(n - 1, cap);
      assert Respawned(n, cap)[..|Respawned(n, cap)| - 1] == Respawned(n - 1, cap);
    }
  }

  lemma {:induction false} Loops(n: nat, cap: nat) returns (ws: seq<World>, acts: seq<Act>)
    requires cap >= 3
    ensures Run(ws, acts) && Reaches(ws, acts, ws[|acts|], true) && Rested(ws[|acts|], 2 * n + 1, 2 * n, cap)
  {
    hide Reaches; hide Rested; hide Run;
    if n == 0 {
      ws, acts := Begins(cap);
    } else {
      ws, acts := Loops(n - 1, cap);
      ws, acts := Cycle(ws, acts, 2 * (n - 1) + 1, 2 * (n - 1), cap);
    }
  }

  /**
   With late inserts the crash loop has no bound: for every cap of at least 3 and every
   `n`, a run in which only the reaper restarts one ungated model respawns it `2n`
   times at a single instant. Compare `WorldBudget.CrashLoopIsBounded`.
   */
  lemma UncountedCrashLoop(n: nat, cap: nat) returns (ws: seq<World>, acts: seq<Act>)
    requires cap >= 3
    ensures Run(ws, acts) && |acts| >= 7 && Booted(ws[0]) && LeftAlone(ws[7], MODEL)
    ensures forall i :: 7 <= i < |acts| ==> LeavesAlone(ws[i], acts[i], MODEL)
    ensures ws[7].respawns == [] && InSpan(ws[|acts|].respawns, MODEL, 0) == 2 * n
    ensures forall r :: r in ws[|acts|].respawns ==> r.cap == cap
  {
    hide Enabled; hide Do; hide Booted; hide LeftAlone; hide LeavesAlone; hide Respawned; hide InSpan; hide Is;
    ws, acts := Loops(n, cap);
    RespawnedInSpan(2 * n, cap);
    var p := 2 * n + 1;
    Rows(ws[|acts|], p, Shown(p, Ready, []), [], map[], map[p := Waiting(MODEL)], {p}, [], Respawned(2 * n, cap), cap);
  }

  // ----- a mark that is lost ------------------------------------------------

  /**
   A model exhausts its budget and is marked between the look and the `ready` insert of
   an ungated load, which writes the row back as it was: the mark is gone, the books are
   wrong, and after an operator's load the next death is answered with a respawn, all
   while the row exists.
   */
  lemma MarkIsLost() returns (ws: seq<World>, acts: seq<Act>, i: nat)
    ensures Run(ws, acts) && Booted(ws[0]) && i + 1 < |acts|
    ensures forall m :: i <= m <= |acts| ==> MODEL in ws[m].table
    ensures ws[i].table[MODEL].userFlagged && Unmarks(ws[i], acts[i], MODEL) && !ws[i + 1].table[MODEL].userFlagged
    ensures !BooksRight(ws[i + 1].table, ws[i + 1].charges, MODEL)
    ensures |ws[|acts|].respawns| == |ws[i].respawns| + 1 && ws[|acts|].respawns[|ws[i].respawns|].key == MODEL
  {
    hide Enabled; hide Do; hide Reaches; hide Is; hide Run; hide BooksRight; hide Unmarks;
    var cap := 2;
    var r := Respawn(MODEL, 0, cap, 0);
    assert [] + [0] == [0] && [] + [r] == [r];
    ws, acts := Begins(cap);
    Lonely(ws, acts);
    ws, acts := DiesAndRespawns(ws, acts, false, 1, Ready, [], map[], [], cap);
    var prev := Shown(1, Restarting, [0]);
    ws, acts := Relaunches(ws, acts, false, 1, prev, [0], [r], cap);
    var settling := map[2 := Settling(SPEC, Supervisor, true, Some(prev), true)];
    ws, acts := DiesAndTrips(ws, acts, false, 2, Starting, [0], settling, [r], cap);
    ReachesRun(ws, acts, false);
    i := |acts|;
    var flagged, ready := Shown(2, BudgetExhausted, [0] + [0]).(userFlagged := true), Shown(2, Ready, [0]);
    Rows(ws[i], 2, flagged, [], settling, map[], {}, [0] + [0], [r], cap);
    Settles(ws[i], 2, flagged, [], Supervisor, true, prev, map[], {}, [0] + [0], [r], cap);
    var wi := ws[i];
    ws, acts := Stepped(ws, acts, LoadStep(2, true), false, 2, ready, [], map[], map[], {}, [0] + [0], [r], cap);
    Rows(ws[i + 1], 2, ready, [], map[], map[], {}, [0] + [0], [r], cap);
    ShowsOldBooks(ws[i + 1]);
    var wj := ws[i + 1];
    ws, acts := LostAndRespawned(ws, acts, i, ready, r, cap);
    assert ws[i] == wi && acts[i] == LoadStep(2, true) && ws[i + 1] == wj;
    KeepsRows(ws, acts);
  }

  // The rest of it: an operator's load, a death, a respawn.
  lemma LostAndRespawned(ws: seq<World>, acts: seq<Act>, i: nat, ready: Row, r: Respawn, cap: nat)
      returns (ws': seq<World>, acts': seq<Act>)
    requires cap == 2 && ready == Shown(2, Ready, [0]) && r == Respawn(MODEL, 0, cap, 0)
    requires Run(ws, acts) && Reaches(ws, acts, ws[|acts|], false)
    requires Is(ws[|acts|], 2, ready, [], map[], map[], {}, [0] + [0], [r], cap)
    ensures Run(ws', acts') && Reaches(ws', acts', ws'[|acts'|], false) && ws <= ws' && acts <= acts'
    ensures |ws'| == |acts'| + 1 && ws'[|acts'|].respawns == [r, r]
  {
    hide Enabled; hide Do; hide Reaches; hide Is; hide Run;
    ReachesRun(ws, acts, false);
    Asks(ws[|acts|], 2, ready, [0] + [0], [r], cap);
    ws', acts' := Stepped(ws, acts, RpcLoad(SPEC, 3, false), false, 3, ready, [], map[3 := Calling(SPEC, Rpc)], map[],
                          {}, [0] + [0], [r], cap);
    ws', acts' := IsPlaced(ws', acts', false, 3, ready, Rpc, [0] + [0], [r], cap);
    var placed := map[3 := Settling(SPEC, Rpc, false, Some(ready), false)];
    ws', acts' := DiesAndRespawns(ws', acts', false, 3, Starting, [], placed, [r], cap);
    ReachesRun(ws', acts', false);
    Rows(ws'[|acts'|], 3, Shown(3, Restarting, [] + [0]), [SPEC], placed, map[], {}, [] + [0], [r] + [r], cap);
    assert [r] + [r] == [r, r];
  }

  lemma Lonely(ws: seq<World>, acts: seq<Act>)
    requires Run(ws, acts) && Reaches(ws, acts, ws[|acts|], true)
    ensures Reaches(ws, acts, ws[|acts|], false)
  {
  }

  lemma KeepsRows(ws: seq<World>, acts: seq<Act>)
    requires Run(ws, acts) && Reaches(ws, acts, ws[|acts|], false)
    ensures Booted(ws[0]) && |ws| == |acts| + 1 && forall m :: 7 <= m <= |acts| ==> MODEL in ws[m].table
  {
  }

  lemma ShowsOldBooks(w: World)
    requires MODEL in w.table && w.table[MODEL] == Shown(2, Ready, [0]) && Log(w.charges, MODEL) == [0] + [0]
    ensures !BooksRight(w.table, w.charges, MODEL)
  {
    hide Recent; hide Log;
    TwoNow();
  }

  lemma TwoNow()
    ensures |Recent([0] + [0])| == 2
  {
    var log := [0] + [0];
    assert log[..1] == [0] && log[|log| - 1] == 0;
    OneNow();
    assert Since(log, -300_000) == Since([0], -300_000) + [0];
  }

  lemma OneNow()
    ensures Since([0], -300_000) == [0]
  {
    assert [0][..0] == [];
  }

  // ----- a trip that is overwritten -----------------------------------------

  const AFFIRM: StoreWrite := Desire(MODEL, SPEC)
  const OLD: Draft := Draft(AFFIRM, Some(Manifest(1)))
  const TRIP: Draft := Draft(Trip(MODEL, 1, 3), Some(Manifest(1).(userFlagged := true, persistedRestartCount := 1)))

  // An operator re-issues the load of a live model, and the write that affirms it has read the manifest.
  lemma Affirms(w: World, log: seq<int>, rs: seq<Respawn>)
    requires Is(w, 1, Shown(1, Ready, []), [], map[], map[1 := Waiting(MODEL)], {1}, log, rs, 1)
    ensures var a := RpcLoad(SPEC, 2, true); var v := Do(w, a);
      && Enabled(w, a) && Is(v, 1, Shown(1, Ready, []), [], map[], map[1 := Waiting(MODEL)], {1}, log, rs, 1)
      && Enabled(v, Fetch(AFFIRM)) && OLD in Do(v, Fetch(AFFIRM)).drafts
      && Is(Do(v, Fetch(AFFIRM)), 1, Shown(1, Ready, []), [], map[], map[1 := Waiting(MODEL)], {1}, log, rs, 1)
  {
    assert ValidKey(MODEL);
    assert Inserted(w.store, MODEL, SPEC, true)[MODEL] == Manifest(1);
  }

  lemma TripIsRead(w: World)
    requires w.store == map[MODEL := Manifest(1)] && Trip(MODEL, 1, 3) in w.writes && OLD in w.drafts
    ensures Enabled(w, Fetch(Trip(MODEL, 1, 3)))
    ensures var v := Do(w, Fetch(Trip(MODEL, 1, 3))); v.store == w.store && TRIP in v.drafts && OLD in v.drafts
  {
    assert ValidKey(MODEL);
    assert Tripped(w.store, MODEL, 1)[MODEL] == TRIP.manifest.value;
    assert Revision(w.store, Trip(MODEL, 1, 3)) == TRIP.manifest;
    hide Revision; hide ValidKey; hide Tripped;
  }

  lemma DraftArrives(w: World, d: Draft, old': Draft)
    requires d in w.drafts && old' in w.drafts && d != old' && d.write.key == MODEL && d.manifest.Some?
    requires w.store.Keys == {MODEL}
    ensures Enabled(w, Commit(d, true))
    ensures var v := Do(w, Commit(d, true)); v.store == map[MODEL := d.manifest.value] && old' in v.drafts
  {
    assert w.store[MODEL := d.manifest.value] == map[MODEL := d.manifest.value];
  }

  // The trip goes to disk, and after it the older draft.
  lemma Overwrites(w: World)
    requires w.store == map[MODEL := Manifest(1)] && Trip(MODEL, 1, 3) in w.writes && OLD in w.drafts
    ensures Enabled(w, Fetch(Trip(MODEL, 1, 3)))
    ensures var w1 := Do(w, Fetch(Trip(MODEL, 1, 3)));
      && Enabled(w1, Commit(TRIP, true))
      && var w2 := Do(w1, Commit(TRIP, true));
        && Barred(w2.store, MODEL) && Enabled(w2, Commit(OLD, true))
        && Do(w2, Commit(OLD, true)).store == map[MODEL := Manifest(1)]
  {
    hide Do; hide Enabled;
    assert OLD != TRIP;
    TripIsRead(w);
    var w1 := Do(w, Fetch(Trip(MODEL, 1, 3)));
    DraftArrives(w1, TRIP, OLD);
    var w2 := Do(w1, Commit(TRIP, true));
    LastArrives(w2, OLD);
  }

  lemma LastArrives(w: World, d: Draft)
    requires d in w.drafts && d.write.key == MODEL && d.manifest.Some? && w.store.Keys == {MODEL}
    ensures Enabled(w, Commit(d, true)) && Do(w, Commit(d, true)).store == map[MODEL := d.manifest.value]
  {
    assert w.store[MODEL := d.manifest.value] == map[MODEL := d.manifest.value];
  }

  lemma CrashFinds(w: World)
    requires w.store == map[MODEL := Manifest(1)]
    ensures Enabled(w, Crash([Manifest(1)]))
  {
  }

  /**
   The trip reaches the disk, and is then overwritten by a load's `desired` write that had
   read the manifest before: the next boot finds the model as if it had never tripped.
   */
  lemma StaleInsertLosesTrip() returns (ws: seq<World>, acts: seq<Act>, i: nat, m: nat)
    ensures Run(ws, acts) && Booted(ws[0]) && i < m < |acts| - 2 && Exhausts(ws[i], acts[i], MODEL)
    ensures acts[m] == Commit(TRIP, true) && Barred(ws[m + 1].store, MODEL)
    ensures acts[m + 1] == Commit(OLD, true)
    ensures acts[|acts| - 1] == Crash([Manifest(1)]) && Replayable(Manifest(1))
  {
    hide Enabled; hide Do; hide Reaches; hide Is; hide Run; hide Exhausts; hide Barred;
    assert [] + [0] == [0];
    ws, acts := Begins(1);
    Lonely(ws, acts);
    ReachesRun(ws, acts, false);
    Affirms(ws[|acts|], [], []);
    var row := Shown(1, Ready, []);
    ws, acts := Stepped(ws, acts, RpcLoad(SPEC, 2, true), false, 1, row, [], map[], map[1 := Waiting(MODEL)], {1}, [],
                        [], 1);
    ws, acts := Stepped(ws, acts, Fetch(AFFIRM), false, 1, row, [], map[], map[1 := Waiting(MODEL)], {1}, [], [], 1);
    ws, acts := DiesAndTrips(ws, acts, false, 1, Ready, [], map[], [], 1);
    ReachesRun(ws, acts, false);
    i := |acts| - 1;
    Stored1(ws[|acts|], Shown(1, BudgetExhausted, [] + [0]).(userFlagged := true));
    ws, acts, m := Overwritten(ws, acts, i);
  }

  lemma Stored1(w: World, row: Row)
    requires Is(w, 1, row, [], map[], map[], {}, [] + [0], [], 1)
    ensures w.store == map[MODEL := Manifest(1)]
  {
  }

  lemma Overwritten(ws: seq<World>, acts: seq<Act>, i: nat) returns (ws': seq<World>, acts': seq<Act>, m: nat)
    requires Run(ws, acts) && Reaches(ws, acts, ws[|acts|], false) && i == |acts| - 1 && Exhausts(ws[i], acts[i], MODEL)
    requires var w := ws[|acts|];
      w.store == map[MODEL := Manifest(1)] && Trip(MODEL, 1, 3) in w.writes && OLD in w.drafts
    ensures Run(ws', acts') && Booted(ws'[0]) && i < m < |acts'| - 2 && Exhausts(ws'[i], acts'[i], MODEL)
    ensures acts'[m] == Commit(TRIP, true) && Barred(ws'[m + 1].store, MODEL)
    ensures acts'[m + 1] == Commit(OLD, true)
    ensures acts'[|acts'| - 1] == Crash([Manifest(1)]) && Replayable(Manifest(1))
  {
    hide Enabled; hide Do; hide Exhausts; hide Barred; hide LeftAlone;
    var a0, a1, a2, a3 := Fetch(Trip(MODEL, 1, 3)), Commit(TRIP, true), Commit(OLD, true), Crash([Manifest(1)]);
    var w0 := ws[|acts|];
    Overwrites(w0);
    var w1 := Do(w0, a0);
    var w2 := Do(w1, a1);
    var w3 := Do(w2, a2);
    CrashFinds(w3);
    RunExtends(ws, acts, a0, w1);
    RunExtends(ws + [w1], acts + [a0], a1, w2);
    RunExtends(ws + [w1] + [w2], acts + [a0] + [a1], a2, w3);
    RunExtends(ws + [w1] + [w2] + [w3], acts + [a0] + [a1] + [a2], a3, Do(w3, a3));
    ws' := ws + [w1] + [w2] + [w3] + [Do(w3, a3)];
    acts' := acts + [a0] + [a1] + [a2] + [a3];
    m := |acts| + 1;
    assert ws'[i] == ws[i] && acts'[i] == acts[i] && ws'[m + 1] == w2;
  }
}
