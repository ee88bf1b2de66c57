/**
 From a written line to the counter it adds to, name by name: the table of the two
 engines, as the lines of a body show it.
 */
module CounterTable {
  import opened Wrappers
  import opened SourceLabel
  import opened MetricLine
  import opened LineBlanks
  import opened EngineMetrics

  // Appending `line` to `lines` adds `v` to this slot and to no other, and shows this engine and no other.
  ghost predicate Adds(lines: seq<string>, line: string, parse: Parser, v: real, to: Option<Slot>, shows: Option<Kind>)
  {
    && (forall slot: Slot ::
          var before, after := Total(lines, parse, slot), Total(lines + [line], parse, slot);
          if to == Some(slot) then after == Some((if before.Some? then before.value else 0.0) + v) else after == before)
    && (forall kind: Kind ::
          AnyCarries(lines + [line], parse, kind) <==> shows == Some(kind) || AnyCarries(lines, parse, kind))
  }

  /** An empty body counts nothing and shows no engine. */
  lemma NothingCounted(parse: Parser, slot: Slot, kind: Kind)
    ensures Total([], parse, slot) == None && !AnyCarries([], parse, kind)
  {
  }

  const NAMES: seq<string> := [
    "vllm:generation_tokens_total", "vllm:prompt_tokens_by_source_total", "vllm:spec_decode_num_drafts_total",
    "vllm:spec_decode_num_draft_tokens_total", "vllm:spec_decode_num_accepted_tokens_total",
    "llamacpp:tokens_predicted_total", "llamacpp:prompt_tokens_total", "llamacpp:prompt_tokens_cached_total",
    "llamacpp:spec_decode_num_drafts_total", "llamacpp:spec_decode_num_draft_tokens_total",
    "llamacpp:spec_decode_num_accepted_tokens_total"]

  // A written line of a metric with a finite value, whose name no trimming touches.
  ghost predicate Written(m: Metric, parse: Parser) {
    && Renderable(m) && Sensible(parse) && parse(m.value).Finite?
    && m.name[0] != '#' && m.name[0] != '\U{0B}'
  }

  // The source the line is read to have: that of its first `source` label, blanks squeezed.
  function SourceAsRead(m: Metric): Option<string> {
    if m.labels.None? then None
    else match FirstSource(SqueezedLabels(m.labels.value)) case Value(v) => Some(v) case _ => None
  }

  lemma WrittenIsRead(m: Metric, parse: Parser)
    requires Written(m, parse)
    ensures Read(Text(m), parse) == Some(Reading(m.name, parse(m.value).value, SourceAsRead(m)))
  {
    hide Split; hide Sensible; hide Render; hide SqueezedLabels; hide FirstSource; hide SourceOf; hide Tokens;
    assert Text(m)[0] == m.name[0] && m.name[0] in m.name;
    LineReads(m, parse);
    if m.labels.Some? { SourceOfAnyLine(m, parse); }
  }

  // What a line that is read adds, one line after the others.
  lemma AddsOne(lines: seq<string>, line: string, parse: Parser, r: Reading, to: Option<Slot>, shows: Option<Kind>)
    requires Read(line, parse) == Some(r)
    requires SlotOf(CounterNamed(r.name), r.source) == to && Family(CounterNamed(r.name)) == shows
    ensures Adds(lines, line, parse, r.value, to, shows)
  {
    hide Read; hide SlotOf; hide CounterNamed; hide Family;
    var all := lines + [line];
    assert all[..|all| - 1] == lines && all[|all| - 1] == line;
    forall kind: Kind
      ensures AnyCarries(all, parse, kind) <==> shows == Some(kind) || AnyCarries(lines, parse, kind)
    {
      CarriesOneMore(lines, line, parse, kind);
    }
  }

  /** Every name but vLLM's prompt counter: the counter it adds to and the engine it shows, whatever its labels say. */
  lemma NamesCount(lines: seq<string>, m: Metric, parse: Parser)
    requires Written(m, parse)
    ensures var v := parse(m.value).value;
      && (m.name == "vllm:generation_tokens_total" ==> Adds(lines, Text(m), parse, v, Some(Decode), Some(Vllm)))
      && (m.name == "vllm:spec_decode_num_drafts_total" ==> Adds(lines, Text(m), parse, v, Some(Drafts), Some(Vllm)))
      && (m.name == "vllm:spec_decode_num_draft_tokens_total" ==>
            Adds(lines, Text(m), parse, v, Some(DraftTokens), Some(Vllm)))
      && (m.name == "vllm:spec_decode_num_accepted_tokens_total" ==>
            Adds(lines, Text(m), parse, v, Some(Accepted), Some(Vllm)))
      && (m.name == "llamacpp:tokens_predicted_total" ==> Adds(lines, Text(m), parse, v, Some(Decode), Some(Llamacpp)))
      && (m.name == "llamacpp:prompt_tokens_total" ==> Adds(lines, Text(m), parse, v, Some(Computed), Some(Llamacpp)))
      && (m.name == "llamacpp:prompt_tokens_cached_total" ==>
            Adds(lines, Text(m), parse, v, Some(Cached), Some(Llamacpp)))
      && (m.name == "llamacpp:spec_decode_num_drafts_total" ==>
            Adds(lines, Text(m), parse, v, Some(Drafts), Some(Llamacpp)))
      && (m.name == "llamacpp:spec_decode_num_draft_tokens_total" ==>
            Adds(lines, Text(m), parse, v, Some(DraftTokens), Some(Llamacpp)))
      && (m.name == "llamacpp:spec_decode_num_accepted_tokens_total" ==>
            Adds(lines, Text(m), parse, v, Some(Accepted), Some(Llamacpp)))
      && (m.name !in NAMES ==> Adds(lines, Text(m), parse, v, None, None))
  {
    hide Adds; hide Read; hide Text; hide Renderable; hide Sensible;
    WrittenIsRead(m, parse);
    var r, counter := Reading(m.name, parse(m.value).value, SourceAsRead(m)), CounterNamed(m.name);
    hide SourceAsRead;
    NotNamed(m.name);
    AddsOne(lines, Text(m), parse, r, SlotOf(counter, r.source), Family(counter));
  }

  lemma NotNamed(name: string)
    ensures CounterNamed(name).None? <==> name !in NAMES
  {
  }

  /** vLLM's prompt counter goes by its source: computed here, found in the cache here, or neither. */
  lemma PromptsCountBySource(lines: seq<string>, m: Metric, parse: Parser)
    requires Written(m, parse) && m.name == "vllm:prompt_tokens_by_source_total"
    ensures var v := parse(m.value).value;
      && (SourceAsRead(m) == Some("local_compute") ==> Adds(lines, Text(m), parse, v, Some(Computed), Some(Vllm)))
      && (SourceAsRead(m) == Some("local_cache_hit") ==> Adds(lines, Text(m), parse, v, Some(Cached), Some(Vllm)))
      && (SourceAsRead(m) != Some("local_compute") && SourceAsRead(m) != Some("local_cache_hit") ==>
            Adds(lines, Text(m), parse, v, None, Some(Vllm)))
  {
    hide Adds; hide Read; hide Text; hide Renderable; hide Sensible;
    WrittenIsRead(m, parse);
    var r, counter := Reading(m.name, parse(m.value).value, SourceAsRead(m)), CounterNamed(m.name);
    hide SourceAsRead;
    AddsOne(lines, Text(m), parse, r, SlotOf(counter, r.source), Family(counter));
  }

  /** A line that is blank or a comment counts nothing. */
  lemma CommentsCountNothing(lines: seq<string>, blanks: string, rest: string, parse: Parser)
    requires forall c :: c in blanks ==> Whitespace(c)
    requires rest == "" || rest[0] == '#'
    ensures Adds(lines, blanks + rest, parse, 0.0, None, None)
  {
    TrimsBlanks(blanks, rest);
    var line := blanks + rest;
    var all := lines + [line];
    assert all[..|all| - 1] == lines && all[|all| - 1] == line;
    assert Read(line, parse) == None;
    hide Read;
    forall kind: Kind ensures AnyCarries(all, parse, kind) <==> AnyCarries(lines, parse, kind) {
      CarriesOneMore(lines, line, parse, kind);
    }
  }

  lemma {:induction false} TrimsBlanks(blanks: string, rest: string)
    requires forall c :: c in blanks ==> Whitespace(c)
    requires rest == "" || rest[0] == '#'
    ensures TrimStart(blanks + rest) == rest
  {
    if blanks == "" {
      assert blanks + rest == rest;
    } else {
      assert blanks[0] in blanks && forall c :: c in blanks[1..] ==> c in blanks;
      assert (blanks + rest)[1..] == blanks[1..] + rest;
      TrimsBlanks(blanks[1..], rest);
    }
  }
}
