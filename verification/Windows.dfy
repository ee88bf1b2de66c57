/** One scrape window: the rates between two successive sets of counters, over exact arithmetic. */
module Windows {
  import opened Wrappers
  import opened EngineMetrics

  datatype Window = Window(tps: Option<real>, promptTps: Option<real>, cacheHitPct: Option<real>,
                           specAcceptPct: Option<real>, specActive: bool, hadTraffic: bool)

  // How far a counter moved that both sets have.
  function Delta(prev: Option<real>, cur: Option<real>): Option<real> {
    if prev.Some? && cur.Some? then Some(cur.value - prev.value) else None
  }

  predicate Fell(prev: Option<real>, cur: Option<real>) { prev.Some? && cur.Some? && cur.value < prev.value }

  predicate Rose(d: Option<real>) { d.Some? && d.value > 0.0 }

  function Per(d: Option<real>, dt: real): Option<real>
    requires dt > 0.0
  {
    if d.Some? then Some(d.value / dt) else None
  }

  function Percentage(part: real, whole: real): real
    requires whole > 0.0
  {
    100.0 * part / whole
  }

  function Observe(before: Option<Counters>, cur: Counters, dt: real): Option<Window> {
    if before.None? || dt <= 0.0 then None
    else
      var prev := before.value;
      if Fell(prev.decode, cur.decode) || Fell(prev.computed, cur.computed) || Fell(prev.cached, cur.cached)
         || Fell(prev.drafts, cur.drafts) || Fell(prev.draftTokens, cur.draftTokens)
         || Fell(prev.accepted, cur.accepted) then None
      else
        var decode, computed, cached := Delta(prev.decode, cur.decode), Delta(prev.computed, cur.computed),
                                        Delta(prev.cached, cur.cached);
        var drafted, accepted := Delta(prev.draftTokens, cur.draftTokens), Delta(prev.accepted, cur.accepted);
        if !(Rose(decode) || Rose(computed) || Rose(cached) || Rose(drafted) || Rose(accepted)) then None
        else Some(Window(
          Per(decode, dt), Per(computed, dt),
          if cached.Some? && computed.Some? && cached.value + computed.value > 0.0
          then Some(Percentage(cached.value, cached.value + computed.value)) else None,
          if accepted.Some? && drafted.Some? && drafted.value > 0.0
          then Some(Percentage(accepted.value, drafted.value)) else None,
          Rose(drafted), true))
  }

  // No counter that both sets have is lower now than it was.
  predicate Steady(prev: Counters, cur: Counters) {
    forall slot: Slot :: At(prev, slot).Some? && At(cur, slot).Some? ==> At(prev, slot).value <= At(cur, slot).value
  }

  // Something a rate is made of moved; the number of drafts is not one of these.
  predicate Busy(prev: Counters, cur: Counters) {
    exists slot: Slot :: slot != Drafts && At(prev, slot).Some? && At(cur, slot).Some?
                         && At(prev, slot).value < At(cur, slot).value
  }

  /** When there is an observation: a previous scrape, a positive span, no counter reset, some traffic. */
  lemma ObservesExactly(before: Option<Counters>, cur: Counters, dt: real)
    ensures Observe(before, cur, dt).Some? <==>
      before.Some? && dt > 0.0 && Steady(before.value, cur) && Busy(before.value, cur)
  {
    if before.Some? {
      var prev := before.value;
      assert At(prev, Decode) == prev.decode && At(prev, Computed) == prev.computed && At(prev, Cached) == prev.cached;
      assert At(prev, Drafts) == prev.drafts && At(prev, DraftTokens) == prev.draftTokens;
      assert At(prev, Accepted) == prev.accepted;
    }
  }

  lemma ProductsCompare(a: real, b: real, c: real)
    requires 0.0 < c
    ensures a <= b <==> a * c <= b * c
  {
    if a <= b {
      assert (b - a) * c >= 0.0;
    } else {
      assert (a - b) * c > 0.0;
    }
  }

  // `rate`, taken `n` times, is the amount.
  predicate Times(rate: real, n: real, amount: real) { rate * n == amount }

  lemma QuotientGivesBack(a: real, b: real)
    requires 0.0 < b
    ensures Times(a / b, b, a) && (0.0 <= a / b <==> 0.0 <= a)
  {
    ProductsCompare(0.0, a / b, b);
  }

  lemma PerGivesBack(d: Option<real>, dt: real)
    requires 0.0 < dt && d.Some?
    ensures Per(d, dt).Some? && Times(Per(d, dt).value, dt, d.value) && (0.0 <= Per(d, dt).value <==> 0.0 <= d.value)
  {
    QuotientGivesBack(d.value, dt);
  }

  // A share scaled back is a hundred times the part, so it is a percentage when the part is in the whole.
  lemma PercentageGivesBack(part: real, whole: real)
    requires 0.0 <= part && 0.0 < whole
    ensures Times(Percentage(part, whole), whole, 100.0 * part) && 0.0 <= Percentage(part, whole)
    ensures Percentage(part, whole) <= 100.0 <==> part <= whole
  {
    hide Times;
    QuotientGivesBack(100.0 * part, whole);
    AtMostAHundred(Percentage(part, whole), part, whole);
  }

  lemma AtMostAHundred(share: real, part: real, whole: real)
    requires 0.0 < whole && Times(share, whole, 100.0 * part)
    ensures share <= 100.0 <==> part <= whole
  {
    ProductsCompare(share, 100.0, whole);
  }

  // How far a counter moved, or 0 if it is not in both sets.
  function Moved(prev: Option<real>, cur: Option<real>): real {
    if prev.Some? && cur.Some? then cur.value - prev.value else 0.0
  }

  lemma RatesGiveBack(before: Option<Counters>, cur: Counters, dt: real)
    requires Observe(before, cur, dt).Some?
    ensures var w, prev := Observe(before, cur, dt).value, before.value;
      && (w.tps.Some? ==> w.tps.value >= 0.0 && Times(w.tps.value, dt, Moved(prev.decode, cur.decode)))
      && (w.promptTps.Some? ==> w.promptTps.value >= 0.0
                                && Times(w.promptTps.value, dt, Moved(prev.computed, cur.computed)))
  {
    hide Percentage; hide Times;
    var prev := before.value;
    var decode, computed := Delta(prev.decode, cur.decode), Delta(prev.computed, cur.computed);
    if decode.Some? { PerGivesBack(decode, dt); }
    if computed.Some? { PerGivesBack(computed, dt); }
  }

  lemma PercentagesGiveBack(before: Option<Counters>, cur: Counters, dt: real)
    requires Observe(before, cur, dt).Some?
    ensures var w, prev := Observe(before, cur, dt).value, before.value;
      var computed, cached := Moved(prev.computed, cur.computed), Moved(prev.cached, cur.cached);
      var drafted, accepted := Moved(prev.draftTokens, cur.draftTokens), Moved(prev.accepted, cur.accepted);
      && (w.cacheHitPct.Some? ==> 0.0 <= w.cacheHitPct.value <= 100.0
                                  && Times(w.cacheHitPct.value, cached + computed, 100.0 * cached))
      && (w.specAcceptPct.Some? ==> 0.0 <= w.specAcceptPct.value
                                    && Times(w.specAcceptPct.value, drafted, 100.0 * accepted)
                                    && (w.specAcceptPct.value <= 100.0 <==> accepted <= drafted))
  {
    hide Percentage; hide Times;
    var prev := before.value;
    var computed, cached := Delta(prev.computed, cur.computed), Delta(prev.cached, cur.cached);
    var drafted, accepted := Delta(prev.draftTokens, cur.draftTokens), Delta(prev.accepted, cur.accepted);
    if computed.Some? && cached.Some? && cached.value + computed.value > 0.0 {
      PercentageGivesBack(cached.value, cached.value + computed.value);
    }
    if accepted.Some? && drafted.Some? && drafted.value > 0.0 {
      PercentageGivesBack(accepted.value, drafted.value);
    }
  }

  /**
   What an observation may be relied on for: rates that are never negative and give the
   counted difference back over the span; a cache share between 0 and 100 percent; an
   acceptance share that is above 100 only if more was accepted than drafted.
   */
  lemma RatesAreSane(before: Option<Counters>, cur: Counters, dt: real)
    requires Observe(before, cur, dt).Some?
    ensures var w, prev := Observe(before, cur, dt).value, before.value;
      var computed, cached := Moved(prev.computed, cur.computed), Moved(prev.cached, cur.cached);
      var drafted, accepted := Moved(prev.draftTokens, cur.draftTokens), Moved(prev.accepted, cur.accepted);
      && (w.tps.Some? <==> prev.decode.Some? && cur.decode.Some?)
      && (w.tps.Some? ==> w.tps.value >= 0.0 && Times(w.tps.value, dt, cur.decode.value - prev.decode.value))
      && (w.promptTps.Some? <==> prev.computed.Some? && cur.computed.Some?)
      && (w.promptTps.Some? ==> w.promptTps.value >= 0.0 && Times(w.promptTps.value, dt, computed))
      && (w.cacheHitPct.Some? <==>
            && prev.cached.Some? && cur.cached.Some? && prev.computed.Some? && cur.computed.Some?
            && (cur.cached.value - prev.cached.value) + (cur.computed.value - prev.computed.value) > 0.0)
      && (w.cacheHitPct.Some? ==> 0.0 <= w.cacheHitPct.value <= 100.0
                                  && Times(w.cacheHitPct.value, cached + computed, 100.0 * cached))
      && (w.specAcceptPct.Some? <==>
            && prev.accepted.Some? && cur.accepted.Some? && prev.draftTokens.Some? && cur.draftTokens.Some?
            && cur.draftTokens.value > prev.draftTokens.value)
      && (w.specAcceptPct.Some? ==> 0.0 <= w.specAcceptPct.value
                                    && Times(w.specAcceptPct.value, drafted, 100.0 * accepted)
                                    && (w.specAcceptPct.value <= 100.0 <==> accepted <= drafted))
      && (w.specActive <==>
            prev.draftTokens.Some? && cur.draftTokens.Some? && cur.draftTokens.value > prev.draftTokens.value)
      && w.hadTraffic
  {
    hide Percentage; hide Times;
    RatesGiveBack(before, cur, dt);
    PercentagesGiveBack(before, cur, dt);
  }
}
