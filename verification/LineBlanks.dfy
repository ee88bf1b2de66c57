/**
 What becomes of the blanks in a label value. Rejoining the tokens of a line leaves one
 blank for each stretch of whitespace, inside quotes too, so a line reads as if its
 values had been written that way.
 */
module LineBlanks {
  import opened Wrappers
  import opened QuoteScanner
  import opened SourceLabel
  import opened MetricLine

  // One blank for each stretch of whitespace; `after` says that a stretch is going on.
  function Squeezed(s: string, after: bool): string {
    if s == "" then ""
    else if Whitespace(s[0]) then (if after then "" else " ") + Squeezed(s[1..], true)
    else [s[0]] + Squeezed(s[1..], false)
  }

  predicate EndsBlank(s: string, after: bool) { if s == "" then after else Whitespace(s[|s| - 1]) }

  lemma {:induction false} SqueezedConcat(a: string, b: string, after: bool)
    ensures Squeezed(a + b, after) == Squeezed(a, after) + Squeezed(b, EndsBlank(a, after))
  {
    hide Whitespace;
    if a == "" {
      assert a + b == b;
    } else {
      assert (a + b)[1..] == a[1..] + b;
      SqueezedConcat(a[1..], b, Whitespace(a[0]));
    }
  }

  lemma {:induction false} WordStays(w: string, after: bool)
    requires Wordy(w)
    ensures Squeezed(w, after) == w
  {
    if w != "" {
      assert w[0] in w && forall c :: c in w[1..] ==> c in w;
      WordStays(w[1..], false);
    }
  }

  // ----- the tokens, rejoined -----------------------------------------------

  // A text without whitespace at its ends is a word, or a word, some blanks and such a text.
  predicate Trim(s: string) { s != "" && !Whitespace(s[0]) && !Whitespace(s[|s| - 1]) }

  lemma {:induction false} SkipBlanks(s: string) returns (rest: string)
    requires s != "" && !Whitespace(s[|s| - 1])
    ensures Trim(rest) && |rest| <= |s|
    ensures Tokens(s) == Tokens(rest) && Squeezed(s, true) == Squeezed(rest, false)
  {
    rest := s;
    if Whitespace(s[0]) { rest := SkipBlanks(s[1..]); }
  }

  lemma {:induction false} CollapsedIsSqueezed(s: string)
    requires Trim(s)
    ensures Collapsed(s) == Squeezed(s, false)
    decreases |s|
  {
    hide Tokens; hide Whitespace; hide Squeezed;
    var w, rest := FirstWord(s);
    if rest == "" {
      TokensOfWord(w);
      WordStays(w, false);
      assert w == s;
    } else {
      TokensAfterWord(w, rest);
      SqueezedConcat(w, rest, false);
      WordStays(w, false);
      BlanksThenRest(s, w, rest);
      TokensAfterBlank(rest);
      var next := SkipBlanks(rest[1..]);
      TokensAreWords(next);
      CollapsedIsSqueezed(next);
      assert ([w] + Tokens(next))[1..] == Tokens(next);
    }
  }

  lemma BlanksThenRest(s: string, w: string, rest: string)
    requires Trim(s) && s == w + rest && Word(w) && rest != "" && Whitespace(rest[0])
    ensures |rest| > 1 && !Whitespace(rest[1..][|rest| - 2]) && !EndsBlank(w, false)
    ensures Squeezed(rest, false) == " " + Squeezed(rest[1..], true)
  {
    assert s[|s| - 1] == rest[|rest| - 1];
    assert w[|w| - 1] in w;
  }

  lemma {:induction false} TokensOfJoin(ts: seq<string>)
    requires Words(ts)
    ensures Tokens(Join(ts)) == ts
  {
    hide Tokens; hide Word;
    if ts == [] {
      NoTokens();
    } else {
      assert ts[0] in ts && forall t :: t in ts[1..] ==> t in ts;
      if |ts| == 1 {
        TokensOfWord(ts[0]);
      } else {
        TokensOfJoin(ts[1..]);
        TokensOfWord(ts[0]);
        TokensSplit(ts[0], ' ', Join(ts[1..]));
      }
    }
  }

  // ----- a label set --------------------------------------------------------

  // A newline is escaped, so it is no whitespace of the line.
  predicate Blank(c: char) { c != '\n' && Whitespace(c) }

  // The value as it is read.
  function SqueezedValue(v: string, after: bool): string {
    if v == "" then ""
    else if Blank(v[0]) then (if after then "" else " ") + SqueezedValue(v[1..], true)
    else [v[0]] + SqueezedValue(v[1..], false)
  }

  function SqueezedLabels(ls: seq<Label>): seq<Label> {
    if ls == [] then []
    else [Label(ls[0].key, SqueezedValue(ls[0].value, false))] + SqueezedLabels(ls[1..])
  }

  function AsRead(m: Metric): Metric {
    m.(labels := if m.labels.Some? then Some(SqueezedLabels(m.labels.value)) else None)
  }

  function EscapedChar(c: char): string {
    if c == '\\' then "\\\\" else if c == '"' then "\\\"" else if c == '\n' then "\\n" else [c]
  }

  lemma EscapeCons(c: char, v: string)
    ensures Escape([c] + v) == EscapedChar(c) + Escape(v)
  {
    assert ([c] + v)[1..] == v;
  }

  lemma CharSqueezes(c: char, after: bool)
    ensures var e := EscapedChar(c);
      if Blank(c) then EndsBlank(e, after) && Squeezed(e, after) == if after then "" else " "
      else !EndsBlank(e, after) && Squeezed(e, after) == e
  {
    var e := EscapedChar(c);
    if !Blank(c) {
      assert forall d :: d in e ==> !Whitespace(d);
      WordStays(e, after);
    }
  }

  lemma {:induction false} EscapeSqueezes(v: string, after: bool)
    ensures Squeezed(Escape(v), after) == Escape(SqueezedValue(v, after))
  {
    hide Squeezed; hide Escape; hide EscapedChar; hide Blank; hide EndsBlank;
    if v == "" {
      EmptyEscape(after);
    } else {
      var c, rest := v[0], v[1..];
      assert v == [c] + rest;
      EscapeCons(c, rest);
      EscapeCons(' ', SqueezedValue(rest, true));
      EscapeCons(c, SqueezedValue(rest, false));
      BlankEscape();
      assert "" + SqueezedValue(rest, true) == SqueezedValue(rest, true);
      CharSqueezes(c, after);
      SqueezedConcat(EscapedChar(c), Escape(rest), after);
      EscapeSqueezes(rest, EndsBlank(EscapedChar(c), after));
    }
  }

  lemma EmptyEscape(after: bool)
    ensures Squeezed(Escape(""), after) == "" && Escape("") == ""
  {
  }

  lemma BlankEscape()
    ensures EscapedChar(' ') == " "
  {
  }

  // A label keeps its shape: neither key nor quotes hold whitespace.
  lemma LabelSqueezes(l: Label)
    requires Named(l)
    ensures Squeezed(RenderLabel(l), false) == RenderLabel(Label(l.key, SqueezedValue(l.value, false)))
    ensures !EndsBlank(RenderLabel(l), false)
  {
    hide Squeezed; hide Escape;
    var front := l.key + "=" + "\"";
    assert forall c :: c in front ==> c in l.key || c == '=' || c == '"';
    WordStays(front, false);
    EscapeSqueezes(l.value, false);
    SqueezedConcat(front, Escape(l.value), false);
    SqueezedConcat(front + Escape(l.value), "\"", false);
    WordStays("\"", EndsBlank(front + Escape(l.value), false));
    assert !EndsBlank(front, false) by { assert front[|front| - 1] == '"'; }
  }

  lemma {:induction false} LabelsSqueeze(ls: seq<Label>)
    requires forall l :: l in ls ==> Named(l)
    ensures Squeezed(Render(ls), false) == Render(SqueezedLabels(ls))
    ensures |SqueezedLabels(ls)| == |ls| && forall l :: l in SqueezedLabels(ls) ==> Named(l)
    ensures !EndsBlank(Render(ls), false)
  {
    hide Squeezed; hide RenderLabel; hide Whitespace; hide KeyChar;
    if ls == [] {
      NothingSqueezed();
    } else {
      LabelSqueezes(ls[0]);
      LabelsSqueeze(ls[1..]);
      if |ls| > 1 {
        var head, tail := RenderLabel(ls[0]), Render(ls[1..]);
        CommaStays();
        SqueezedConcat(head, ",", false);
        SqueezedConcat(head + ",", tail, false);
        assert Render(ls) == head + "," + tail;
        RenderEnds(head, tail, ls[1..]);
      }
    }
  }

  lemma NothingSqueezed()
    ensures Squeezed("", false) == ""
  {
  }

  lemma CommaStays()
    ensures Squeezed(",", false) == "," && forall s: string, after :: !EndsBlank(s + ",", after)
  {
    WordStays(",", false);
  }

  lemma RenderEnds(head: string, tail: string, ls: seq<Label>)
    requires !EndsBlank(tail, false)
    ensures !EndsBlank(head + "," + tail, false)
  {
    if tail == "" { assert head + "," + tail == head + ","; }
  }

  // ----- a line -------------------------------------------------------------

  lemma RegionSqueezes(m: Metric)
    requires Renderable(m)
    ensures Renderable(AsRead(m)) && Trim(Region(m)) && Squeezed(Region(m), false) == Region(AsRead(m))
  {
    hide Squeezed; hide Render; hide SqueezedLabels; hide PlainInt;
    assert m.name[0] in m.name && m.name[|m.name| - 1] in m.name;
    if m.labels.Some? {
      var text, front := Render(m.labels.value), m.name + "{";
      assert forall c :: c in front ==> c in m.name || c == '{';
      LabelsSqueeze(m.labels.value);
      WordStays(front, false);
      SqueezedConcat(front, text, false);
      SqueezedConcat(front + text, "}", false);
      WordStays("}", EndsBlank(front + text, false));
      assert front[|front| - 1] == '{';
      assert Region(m) == front + text + "}";
      assert Region(AsRead(m)) == front + Render(SqueezedLabels(m.labels.value)) + "}";
    } else {
      WordStays(m.name, false);
    }
  }

  lemma LabelsAreSingle(m: Metric)
    requires m.labels.Some? && Neat(Region(m))
    ensures Single(Render(m.labels.value))
  {
    hide Render; hide Single;
    var s, n := Region(m), |m.name|;
    SingleSlice(s, n + 1, |s| - 1);
    assert s[n + 1..|s| - 1] == Render(m.labels.value);
  }

  lemma SameTokens(m: Metric)
    requires Renderable(m)
    ensures Renderable(AsRead(m)) && Tokens(Text(AsRead(m))) == Tokens(Text(m))
    ensures AsRead(m).labels.Some? ==> Single(Render(AsRead(m).labels.value))
  {
    hide Tokens; hide Text; hide Region; hide Join; hide Single; hide Squeezed; hide Render;
    RegionSqueezes(m);
    CollapsedIsSqueezed(Region(m));
    CollapsedIsNeat(Region(m));
    TokensAreWords(Region(m));
    TokensOfJoin(Tokens(Region(m)));
    TokensOfText(m);
    TokensOfText(AsRead(m));
    if AsRead(m).labels.Some? { LabelsAreSingle(AsRead(m)); }
  }

  /** The round trip of any line: it reads as if its label values had been written with their blanks squeezed. */
  lemma LineReads(m: Metric, parse: Parser)
    requires Renderable(m) && Sensible(parse) && parse(m.value) != Bad
    ensures Split(Text(m), parse) == ReadsAs(AsRead(m), parse)
  {
    hide Tokens; hide Text; hide Render; hide Single; hide Sensible; hide Renderable; hide SplitTokens; hide ReadsAs;
    SameTokens(m);
    LineRoundTrip(AsRead(m), parse);
  }

  predicate BlankBefore(v: string, i: nat, after: bool)
    requires i < |v|
  {
    if i == 0 then after else Blank(v[i - 1])
  }

  // Blanks are single.
  predicate Spaced(v: string, after: bool) {
    forall i :: 0 <= i < |v| && Blank(v[i]) ==> v[i] == ' ' && !BlankBefore(v, i, after)
  }

  lemma {:induction false} SpacedStaysExactly(v: string, after: bool)
    ensures SqueezedValue(v, after) == v <==> Spaced(v, after)
    ensures |SqueezedValue(v, after)| <= |v|
  {
    if v != "" {
      var rest, s := v[1..], SqueezedValue(v, after);
      SpacedStaysExactly(rest, Blank(v[0]));
      assert s == v <==> s != "" && s[0] == v[0] && s[1..] == rest && |s| == |v|;
      hide Spaced;
      if Spaced(v, after) {
        SpacedTail(v, after);
      } else if (Blank(v[0]) ==> v[0] == ' ' && !after) && Spaced(rest, Blank(v[0])) {
        SpacedCons(v, after);
        assert false;
      }
    }
  }

  lemma SpacedTail(v: string, after: bool)
    requires v != "" && Spaced(v, after)
    ensures (Blank(v[0]) ==> v[0] == ' ' && !after) && Spaced(v[1..], Blank(v[0]))
  {
    hide Blank;
    var rest := v[1..];
    assert Blank(v[0]) ==> !BlankBefore(v, 0, after);
    forall i | 0 <= i < |rest| && Blank(rest[i]) ensures rest[i] == ' ' && !BlankBefore(rest, i, Blank(v[0])) {
      assert v[i + 1] == rest[i] && !BlankBefore(v, i + 1, after);
    }
  }

  lemma SpacedCons(v: string, after: bool)
    requires v != "" && (Blank(v[0]) ==> v[0] == ' ' && !after) && Spaced(v[1..], Blank(v[0]))
    ensures Spaced(v, after)
  {
    hide Blank;
    var rest := v[1..];
    forall i | 0 <= i < |v| && Blank(v[i]) ensures v[i] == ' ' && !BlankBefore(v, i, after) {
      if i > 0 { assert rest[i - 1] == v[i] && !BlankBefore(rest, i - 1, Blank(v[0])); }
    }
  }

  lemma {:induction false} EscapeIsInjective(a: string, b: string)
    requires Escape(a) == Escape(b)
    ensures a == b
  {
    if a != "" && b != "" {
      var x, y := EscapedChar(a[0]), EscapedChar(b[0]);
      assert Escape(a)[0] == x[0] && Escape(b)[0] == y[0];
      if |x| == 2 { assert Escape(a)[1] == x[1]; }
      if |y| == 2 { assert Escape(b)[1] == y[1]; }
      assert Escape(a)[|x|..] == Escape(a[1..]) && Escape(b)[|y|..] == Escape(b[1..]);
      EscapeIsInjective(a[1..], b[1..]);
    }
  }

  lemma {:induction false} SourceSqueezes(ls: seq<Label>)
    ensures FirstSource(SqueezedLabels(ls)) == FirstSource(ls) <==> SourceIsSpaced(ls)
  {
    hide Escape; hide SqueezedValue; hide Spaced;
    if ls != [] {
      var v := ls[0].value;
      if ls[0].key == "source" {
        SpacedStaysExactly(v, false);
        if Escape(SqueezedValue(v, false)) == Escape(v) { EscapeIsInjective(SqueezedValue(v, false), v); }
      } else {
        SourceSqueezes(ls[1..]);
      }
    }
  }

  // The label that counts, if there is one, has single blanks only.
  predicate SourceIsSpaced(ls: seq<Label>) {
    ls == [] || if ls[0].key == "source" then Spaced(ls[0].value, false) else SourceIsSpaced(ls[1..])
  }

  /**
   From any written line to the counted source: it is that of the first label named exactly
   `source`, with its blanks squeezed, or none; so it is as written if and only if the blanks
   of that one value are single, whatever the other labels hold.
   */
  lemma SourceOfAnyLine(m: Metric, parse: Parser)
    requires Renderable(m) && Sensible(parse) && parse(m.value).Finite? && m.labels.Some?
    ensures var s := Split(Text(m), parse);
      && s.Some? && s.value.labels.Some?
      && SourceOf(s.value.labels.value) == FirstSource(SqueezedLabels(m.labels.value))
      && (SourceOf(s.value.labels.value) == FirstSource(m.labels.value) <==> SourceIsSpaced(m.labels.value))
  {
    hide Tokens; hide Text; hide Sensible; hide SplitTokens; hide SourceOf; hide Render; hide FirstSource;
    LineReads(m, parse);
    RegionSqueezes(m);
    SourceRoundTrip(SqueezedLabels(m.labels.value));
    SourceSqueezes(m.labels.value);
  }
}
