/** The counters of a scraped metrics body, over exact arithmetic. */
module EngineMetrics {
  import opened Wrappers
  import opened SourceLabel
  import opened MetricLine

  datatype Kind = Vllm | Llamacpp
  datatype Slot = Decode | Computed | Cached | Drafts | DraftTokens | Accepted

  datatype Counters = Counters(decode: Option<real>, computed: Option<real>, cached: Option<real>,
                               drafts: Option<real>, draftTokens: Option<real>, accepted: Option<real>)

  function At(c: Counters, slot: Slot): Option<real> {
    match slot
    case Decode => c.decode
    case Computed => c.computed
    case Cached => c.cached
    case Drafts => c.drafts
    case DraftTokens => c.draftTokens
    case Accepted => c.accepted
  }

  // ----- what one line counts -----------------------------------------------

  function TrimStart(line: string): string {
    if line != "" && (Whitespace(line[0]) || line[0] == '\U{0B}') then TrimStart(line[1..]) else line
  }

  datatype Reading = Reading(name: string, value: real, source: Option<string>)

  function SourceIn(labels: Option<string>): Option<string> {
    if labels.None? then None
    else match SourceOf(labels.value) case Value(v) => Some(v) case _ => None
  }

  function Read(line: string, parse: Parser): Option<Reading> {
    var t := TrimStart(line);
    if t == "" || t[0] == '#' then None
    else match Split(t, parse)
      case Some(s) => Some(Reading(s.name, s.value, SourceIn(s.labels)))
      case None => None
  }

  // The counters of the two tables, by their exact names.
  datatype Counter =
    | VGenerated | VPrompt | VDrafts | VDraftTokens | VAccepted
    | LPredicted | LPrompt | LCached | LDrafts | LDraftTokens | LAccepted

  function CounterNamed(name: string): Option<Counter> {
    if name == "vllm:generation_tokens_total" then Some(VGenerated)
    else if name == "vllm:prompt_tokens_by_source_total" then Some(VPrompt)
    else if name == "vllm:spec_decode_num_drafts_total" then Some(VDrafts)
    else if name == "vllm:spec_decode_num_draft_tokens_total" then Some(VDraftTokens)
    else if name == "vllm:spec_decode_num_accepted_tokens_total" then Some(VAccepted)
    else if name == "llamacpp:tokens_predicted_total" then Some(LPredicted)
    else if name == "llamacpp:prompt_tokens_total" then Some(LPrompt)
    else if name == "llamacpp:prompt_tokens_cached_total" then Some(LCached)
    else if name == "llamacpp:spec_decode_num_drafts_total" then Some(LDrafts)
    else if name == "llamacpp:spec_decode_num_draft_tokens_total" then Some(LDraftTokens)
    else if name == "llamacpp:spec_decode_num_accepted_tokens_total" then Some(LAccepted)
    else None
  }

  function Family(counter: Option<Counter>): Option<Kind> {
    match counter
    case None => None
    case Some(c) =>
      if c.VGenerated? || c.VPrompt? || c.VDrafts? || c.VDraftTokens? || c.VAccepted? then Some(Vllm)
      else Some(Llamacpp)
  }

  // Which slot a reading adds to; the prompt counter of vLLM goes by its source.
  function SlotOf(counter: Option<Counter>, source: Option<string>): Option<Slot> {
    match counter
    case None => None
    case Some(c) =>
      match c
      case VGenerated => Some(Decode)
      case LPredicted => Some(Decode)
      case VPrompt => PromptSlot(source)
      case LPrompt => Some(Computed)
      case LCached => Some(Cached)
      case VDrafts => Some(Drafts)
      case LDrafts => Some(Drafts)
      case VDraftTokens => Some(DraftTokens)
      case LDraftTokens => Some(DraftTokens)
      case VAccepted => Some(Accepted)
      case LAccepted => Some(Accepted)
  }

  function PromptSlot(source: Option<string>): Option<Slot> {
    if source == Some("local_compute") then Some(Computed)
    else if source == Some("local_cache_hit") then Some(Cached)
    else None
  }

  function Share(line: string, parse: Parser, slot: Slot): Option<real> {
    match Read(line, parse)
    case Some(r) => if SlotOf(CounterNamed(r.name), r.source) == Some(slot) then Some(r.value) else None
    case None => None
  }

  predicate Carries(line: string, parse: Parser, kind: Kind) {
    var r := Read(line, parse);
    r.Some? && Family(CounterNamed(r.value.name)) == Some(kind)
  }

  // ----- what a body counts -------------------------------------------------

  function Plus(a: Option<real>, b: Option<real>): Option<real> {
    if a.None? then b else if b.None? then a else Some(a.value + b.value)
  }

  // The optional sum of one slot over all lines.
  function Total(lines: seq<string>, parse: Parser, slot: Slot): Option<real> {
    if lines == [] then None
    else Plus(Total(lines[..|lines| - 1], parse, slot), Share(lines[|lines| - 1], parse, slot))
  }

  predicate AnyCarries(lines: seq<string>, parse: Parser, kind: Kind) {
    exists line :: line in lines && Carries(line, parse, kind)
  }

  predicate TotalsAre(c: Counters, lines: seq<string>, parse: Parser) {
    forall slot: Slot :: At(c, slot) == Total(lines, parse, slot)
  }

  predicate Seen(flags: seq<bool>) { exists i :: 0 <= i < |flags| && flags[i] }

  function Mark(flags: seq<bool>, i: nat): (r: seq<bool>)
    requires i < |flags|
    ensures Seen(r) && |r| == |flags|
  {
    assert flags[i := true][i];
    flags[i := true]
  }

  /**
   The body is vLLM's exactly if some counted line carries a vLLM name, else llama.cpp's
   exactly if some carries one of its names; each slot is the sum over the lines that name it.
   */
  method ParseEngineMetrics(lines: seq<string>, parse: Parser) returns (kind: Option<Kind>, c: Counters)
    ensures TotalsAre(c, lines, parse)
    ensures kind == if AnyCarries(lines, parse, Vllm) then Some(Vllm)
                    else if AnyCarries(lines, parse, Llamacpp) then Some(Llamacpp)
                    else None
  {
    c := Counters(None, None, None, None, None, None);
    var vllmSeen := [false, false, false, false, false];
    var lmcppSeen := [false, false, false, false, false, false];
    for n := 0 to |lines|
      invariant |vllmSeen| == 5 && |lmcppSeen| == 6
      invariant TotalsAre(c, lines[..n], parse)
      invariant Seen(vllmSeen) <==> AnyCarries(lines[..n], parse, Vllm)
      invariant Seen(lmcppSeen) <==> AnyCarries(lines[..n], parse, Llamacpp)
    {
      ghost var before, vllmBefore, lmcppBefore := c, vllmSeen, lmcppSeen;
      var line := TrimStart(lines[n]);
      if line != "" && line[0] != '#' {
        var sample := SplitMetricLine(line, parse);
        if sample.Some? {
          var counter := CounterNamed(sample.value.name);
          var source := SourceOfSample(line, parse, sample.value);
          c, vllmSeen, lmcppSeen := Count(c, vllmSeen, lmcppSeen, counter, sample.value.value, source);
        }
      }
      OneMore(lines, n, parse, before, c, vllmBefore, vllmSeen, lmcppBefore, lmcppSeen);
    }
    assert lines[..|lines|] == lines;
    kind := if Seen(vllmSeen) then Some(Vllm) else if Seen(lmcppSeen) then Some(Llamacpp) else None;
  }

  // The `source` of a line that was split: the scan never runs past the end of its label text.
  method SourceOfSample(line: string, parse: Parser, sample: Sample) returns (source: Option<string>)
    requires Split(line, parse) == Some(sample)
    ensures source == SourceIn(sample.labels)
  {
    source := None;
    if sample.labels.Some? {
      SplitNeverOverruns(line, parse);
      var found := SourceLabelValue(sample.labels.value);
      assert found != Overrun;
      if found.Value? {
        source := Some(found.text);
      }
    }
  }

  function Add(slot: Option<real>, value: real): Option<real> {
    Some((if slot.Some? then slot.value else 0.0) + value)
  }

  // What one reading adds to one slot.
  function Gain(counter: Option<Counter>, value: real, source: Option<string>, slot: Slot): Option<real> {
    if SlotOf(counter, source) == Some(slot) then Some(value) else None
  }

  predicate Counts(before: Counters, after: Counters, counter: Option<Counter>, value: real, source: Option<string>) {
    && after.decode == Plus(before.decode, Gain(counter, value, source, Decode))
    && after.computed == Plus(before.computed, Gain(counter, value, source, Computed))
    && after.cached == Plus(before.cached, Gain(counter, value, source, Cached))
    && after.drafts == Plus(before.drafts, Gain(counter, value, source, Drafts))
    && after.draftTokens == Plus(before.draftTokens, Gain(counter, value, source, DraftTokens))
    && after.accepted == Plus(before.accepted, Gain(counter, value, source, Accepted))
  }

  lemma CountsAtEachSlot(before: Counters, after: Counters, counter: Option<Counter>, value: real,
                         source: Option<string>)
    requires Counts(before, after, counter, value, source)
    ensures forall slot: Slot :: At(after, slot) == Plus(At(before, slot), Gain(counter, value, source, slot))
  {
    hide Gain; hide Plus;
    forall slot: Slot ensures At(after, slot) == Plus(At(before, slot), Gain(counter, value, source, slot)) {
      match slot case Decode => case Computed => case Cached => case Drafts => case DraftTokens => case Accepted =>
    }
  }

  // One arm for each name of the two tables.
  method Count(before: Counters, vllmBefore: seq<bool>, lmcppBefore: seq<bool>, counter: Option<Counter>, value: real,
               source: Option<string>)
      returns (c: Counters, vllm: seq<bool>, lmcpp: seq<bool>)
    requires |vllmBefore| == 5 && |lmcppBefore| == 6
    ensures |vllm| == 5 && |lmcpp| == 6
    ensures Counts(before, c, counter, value, source)
    ensures Seen(vllm) <==> Seen(vllmBefore) || Family(counter) == Some(Vllm)
    ensures Seen(lmcpp) <==> Seen(lmcppBefore) || Family(counter) == Some(Llamacpp)
  {
    hide Seen;
    c, vllm, lmcpp := before, vllmBefore, lmcppBefore;
    match counter {
      case None =>
      case Some(VGenerated) =>
        vllm := Mark(vllm, 0);
        c := c.(decode := Add(c.decode, value));
      case Some(VPrompt) =>
        vllm := Mark(vllm, 1);
        if source == Some("local_compute") {
          c := c.(computed := Add(c.computed, value));
        } else if source == Some("local_cache_hit") {
          c := c.(cached := Add(c.cached, value));
        }
      case Some(VDrafts) =>
        vllm := Mark(vllm, 2);
        c := c.(drafts := Add(c.drafts, value));
      case Some(VDraftTokens) =>
        vllm := Mark(vllm, 3);
        c := c.(draftTokens := Add(c.draftTokens, value));
      case Some(VAccepted) =>
        vllm := Mark(vllm, 4);
        c := c.(accepted := Add(c.accepted, value));
      case Some(LPredicted) =>
        lmcpp := Mark(lmcpp, 0);
        c := c.(decode := Add(c.decode, value));
      case Some(LPrompt) =>
        lmcpp := Mark(lmcpp, 1);
        c := c.(computed := Add(c.computed, value));
      case Some(LCached) =>
        lmcpp := Mark(lmcpp, 2);
        c := c.(cached := Add(c.cached, value));
      case Some(LDrafts) =>
        lmcpp := Mark(lmcpp, 3);
        c := c.(drafts := Add(c.drafts, value));
      case Some(LDraftTokens) =>
        lmcpp := Mark(lmcpp, 4);
        c := c.(draftTokens := Add(c.draftTokens, value));
      case Some(LAccepted) =>
        lmcpp := Mark(lmcpp, 5);
        c := c.(accepted := Add(c.accepted, value));
    }
  }

  lemma OneMore(lines: seq<string>, n: nat, parse: Parser, before: Counters, after: Counters,
                vllmBefore: seq<bool>, vllm: seq<bool>, lmcppBefore: seq<bool>, lmcpp: seq<bool>)
    requires n < |lines| && TotalsAre(before, lines[..n], parse)
    requires Seen(vllmBefore) <==> AnyCarries(lines[..n], parse, Vllm)
    requires Seen(lmcppBefore) <==> AnyCarries(lines[..n], parse, Llamacpp)
    requires var r := Read(lines[n], parse);
      if r.None? then after == before && vllm == vllmBefore && lmcpp == lmcppBefore
      else
        var counter := CounterNamed(r.value.name);
        && Counts(before, after, counter, r.value.value, r.value.source)
        && (Seen(vllm) <==> Seen(vllmBefore) || Family(counter) == Some(Vllm))
        && (Seen(lmcpp) <==> Seen(lmcppBefore) || Family(counter) == Some(Llamacpp))
    ensures TotalsAre(after, lines[..n + 1], parse)
    ensures Seen(vllm) <==> AnyCarries(lines[..n + 1], parse, Vllm)
    ensures Seen(lmcpp) <==> AnyCarries(lines[..n + 1], parse, Llamacpp)
  {
    hide Read; hide CounterNamed; hide Family; hide SlotOf; hide Seen; hide PromptSlot;
    var all, r := lines[..n + 1], Read(lines[n], parse);
    if r.Some? { CountsAtEachSlot(before, after, CounterNamed(r.value.name), r.value.value, r.value.source); }
    hide Counts; hide At;
    assert all == lines[..n] + [lines[n]] && all[..n] == lines[..n] && all[|all| - 1] == lines[n];
    CarriesOneMore(lines[..n], lines[n], parse, Vllm);
    CarriesOneMore(lines[..n], lines[n], parse, Llamacpp);
    hide AnyCarries;
  }

  lemma CarriesOneMore(lines: seq<string>, line: string, parse: Parser, kind: Kind)
    ensures AnyCarries(lines + [line], parse, kind) <==> AnyCarries(lines, parse, kind) || Carries(line, parse, kind)
  {
    hide Carries;
    if AnyCarries(lines, parse, kind) {
      var l :| l in lines && Carries(l, parse, kind);
      assert l in lines + [line];
    }
    assert line in lines + [line];
  }

  // ----- a body is its lines, in any order ----------------------------------

  lemma {:induction false} TotalConcat(a: seq<string>, b: seq<string>, parse: Parser, slot: Slot)
    ensures Total(a + b, parse, slot) == Plus(Total(a, parse, slot), Total(b, parse, slot))
  {
    hide Share;
    if b == [] {
      assert a + b == a;
    } else {
      var s, last := a + b, b[|b| - 1];
      assert s[..|s| - 1] == a + b[..|b| - 1] && s[|s| - 1] == last;
      TotalConcat(a, b[..|b| - 1], parse, slot);
      PlusIsAssociative(Total(a, parse, slot), Total(b[..|b| - 1], parse, slot), Share(last, parse, slot));
    }
  }

  lemma PlusIsAssociative(a: Option<real>, b: Option<real>, c: Option<real>)
    ensures Plus(Plus(a, b), c) == Plus(a, Plus(b, c))
  {
  }

  lemma Taken<T>(s: seq<T>, t: seq<T>, x: T) returns (l: seq<T>, r: seq<T>)
    requires multiset(s + [x]) == multiset(t)
    ensures t == l + [x] + r && multiset(l + r) == multiset(s)
  {
    assert x in multiset(t);
    var i :| 0 <= i < |t| && t[i] == x;
    l, r := t[..i], t[i + 1..];
    assert t == l + [x] + r;
    assert multiset(t) == multiset(l) + multiset{x} + multiset(r);
    assert multiset(s + [x]) == multiset(s) + multiset{x};
    assert multiset(l + r) == multiset(l) + multiset(r);
    assert multiset(l + r) == multiset(t) - multiset{x};
    assert multiset(s) == multiset(t) - multiset{x};
  }

  lemma TotalMoved(l: seq<string>, x: string, r: seq<string>, parse: Parser, slot: Slot)
    ensures Total(l + [x] + r, parse, slot) == Total(l + r + [x], parse, slot)
  {
    TotalConcat(l + [x], r, parse, slot);
    TotalConcat(l, [x], parse, slot);
    TotalConcat(l, r, parse, slot);
    TotalConcat(l + r, [x], parse, slot);
    hide Total;
  }

  /** The order of the lines never matters. */
  lemma {:induction false} OrderNeverMatters(a: seq<string>, b: seq<string>, parse: Parser, slot: Slot)
    requires multiset(a) == multiset(b)
    ensures Total(a, parse, slot) == Total(b, parse, slot)
  {
    hide Share;
    if a == [] {
      assert multiset(b) == multiset{};
      assert b == [];
    } else {
      var init, x := a[..|a| - 1], a[|a| - 1];
      assert a == init + [x];
      var l, r := Taken(init, b, x);
      OrderNeverMatters(init, l + r, parse, slot);
      TotalMoved(l, x, r, parse, slot);
      TotalConcat(l + r, [x], parse, slot);
      TotalConcat(init, [x], parse, slot);
      hide Total;
    }
  }

  // ----- joined bodies ------------------------------------------------------

  function Eol(s: string): (n: nat)
    ensures n <= |s| && (n < |s| ==> s[n] == '\n')
  {
    if s == "" || s[0] == '\n' then 0 else 1 + Eol(s[1..])
  }

  function Chomped(s: string): string {
    if s != "" && s[|s| - 1] == '\r' then s[..|s| - 1] else s
  }

  // The lines of a body: a line feed ends a line and takes a carriage return before it along.
  function Lines(body: string): seq<string>
    decreases |body|
  {
    if body == "" then []
    else if Eol(body) == |body| then [body]
    else [Chomped(body[..Eol(body)])] + Lines(body[Eol(body) + 1..])
  }

  lemma {:induction false} TrimsBefore(s: string, c: char)
    requires Whitespace(c)
    ensures TrimStart(s + [c]) == if TrimStart(s) == "" then "" else TrimStart(s) + [c]
  {
    if s == "" {
      assert s + [c] == [c] && [c][1..] == "";
    } else if Whitespace(s[0]) || s[0] == '\U{0B}' {
      assert (s + [c])[1..] == s[1..] + [c];
      TrimsBefore(s[1..], c);
    }
  }

  // A carriage return that stays on a line changes nothing it counts.
  lemma ReturnIsNothing(s: string, parse: Parser)
    ensures Read(Chomped(s), parse) == Read(s, parse)
  {
    if Chomped(s) != s {
      var t := Chomped(s);
      assert s == t + ['\r'];
      TrimsBefore(t, '\r');
      var u := TrimStart(t);
      TokensSplit(u, '\r', "");
      assert u + ['\r'] + "" == u + ['\r'];
      assert Tokens(u) + [] == Tokens(u);
    }
  }

  lemma {:induction false} EolJoined(a: string, b: string)
    ensures Eol(a + ("\n" + b)) == Eol(a)
  {
    if a == "" {
      assert a + ("\n" + b) == "\n" + b;
    } else {
      assert (a + ("\n" + b))[1..] == a[1..] + ("\n" + b);
      EolJoined(a[1..], b);
    }
  }

  lemma OneLine(line: string, parse: Parser, slot: Slot)
    ensures Total([line], parse, slot) == Share(line, parse, slot)
  {
    assert [line][..0] == [];
  }

  lemma LinesUnfold(s: string)
    ensures Lines(s) == if s == "" then []
                        else if Eol(s) == |s| then [s]
                        else [Chomped(s[..Eol(s)])] + Lines(s[Eol(s) + 1..])
  {
    hide Eol; hide Chomped;
  }

  lemma SplitAfter(a: string, t: string, n: nat)
    requires n <= |a| && |t| > 0
    ensures (a + t)[..n] == a[..n] && n < |a + t|
    ensures (a + t)[n + 1..] == if n < |a| then a[n + 1..] + t else t[1..]
  {
  }

  lemma LinesOfJoined(a: string, b: string)
    ensures var n := Eol(a);
      Lines(a + ("\n" + b)) == [Chomped(a[..n])] + if n < |a| then Lines(a[n + 1..] + ("\n" + b)) else Lines(b)
  {
    hide Lines; hide Eol; hide Chomped;
    var s, n := a + ("\n" + b), Eol(a);
    EolJoined(a, b);
    SplitAfter(a, "\n" + b, n);
    assert ("\n" + b)[1..] == b;
    LinesUnfold(s);
  }

  lemma CarriesConcat(a: seq<string>, b: seq<string>, parse: Parser, kind: Kind)
    ensures AnyCarries(a + b, parse, kind) <==> AnyCarries(a, parse, kind) || AnyCarries(b, parse, kind)
  {
    hide Carries;
    assert forall l :: l in a + b <==> l in a || l in b;
  }

  lemma OneCarries(line: string, parse: Parser, kind: Kind)
    ensures AnyCarries([line], parse, kind) <==> Carries(line, parse, kind)
  {
    hide Carries;
    assert line in [line];
  }

  // The first line of a body, as it stands or as the split leaves it, counts the same.
  lemma FirstLine(a: string, parse: Parser, slot: Slot, kind: Kind)
    ensures var n := Eol(a); var first, rest := Chomped(a[..n]), if n < |a| then Lines(a[n + 1..]) else [];
      && Total(Lines(a), parse, slot) == Plus(Share(first, parse, slot), Total(rest, parse, slot))
      && (AnyCarries(Lines(a), parse, kind) <==> Carries(first, parse, kind) || AnyCarries(rest, parse, kind))
  {
    hide Lines; hide Eol; hide Read; hide Chomped; hide Total; hide AnyCarries;
    var n := Eol(a);
    var first := Chomped(a[..n]);
    LinesUnfold(a);
    ReturnIsNothing(a[..n], parse);
    NothingRead(parse, slot, kind);
    if n == |a| {
      assert a[..n] == a;
      OneLine(a, parse, slot);
      OneCarries(a, parse, kind);
    } else {
      TotalConcat([first], Lines(a[n + 1..]), parse, slot);
      OneLine(first, parse, slot);
      CarriesConcat([first], Lines(a[n + 1..]), parse, kind);
      OneCarries(first, parse, kind);
    }
  }

  lemma NothingRead(parse: Parser, slot: Slot, kind: Kind)
    ensures Chomped("") == "" && Share("", parse, slot) == None && !Carries("", parse, kind)
    ensures Total([], parse, slot) == None && !AnyCarries([], parse, kind)
  {
  }

  /**
   Parsing is a homomorphism: joining two bodies adds them up slot by slot, and the
   joined body carries the names that either carries.
   */
  lemma {:induction false} JoinedBodiesAddUp(a: string, b: string, parse: Parser, slot: Slot, kind: Kind)
    ensures Total(Lines(a + ("\n" + b)), parse, slot) ==
            Plus(Total(Lines(a), parse, slot), Total(Lines(b), parse, slot))
    ensures AnyCarries(Lines(a + ("\n" + b)), parse, kind) <==>
            AnyCarries(Lines(a), parse, kind) || AnyCarries(Lines(b), parse, kind)
    decreases |a|
  {
    hide Lines; hide Eol; hide Read; hide Chomped; hide Total; hide AnyCarries; hide Carries; hide Share;
    var n := Eol(a);
    var first := Chomped(a[..n]);
    LinesOfJoined(a, b);
    FirstLine(a, parse, slot, kind);
    OneLine(first, parse, slot);
    OneCarries(first, parse, kind);
    NothingRead(parse, slot, kind);
    var rest := if n < |a| then Lines(a[n + 1..] + ("\n" + b)) else Lines(b);
    TotalConcat([first], rest, parse, slot);
    CarriesConcat([first], rest, parse, kind);
    if n < |a| {
      JoinedBodiesAddUp(a[n + 1..], b, parse, slot, kind);
      PlusIsAssociative(Share(first, parse, slot), Total(Lines(a[n + 1..]), parse, slot), Total(Lines(b), parse, slot));
    }
  }
}
