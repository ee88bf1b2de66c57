/** One line of a metrics body: its tokens, its value, its name and its raw label text. */
module MetricLine {
  import opened Wrappers
  import opened QuoteScanner
  import opened SourceLabel

  // ----- tokens -------------------------------------------------------------

  predicate Wordy(s: string) { forall c :: c in s ==> !Whitespace(c) }

  predicate Word(s: string) { s != "" && Wordy(s) }

  function WordEnd(s: string): (n: nat)
    ensures n <= |s| && Wordy(s[..n]) && (n < |s| ==> Whitespace(s[n]))
  {
    if s == "" || Whitespace(s[0]) then 0 else
      var n := 1 + WordEnd(s[1..]);
      assert s[..n] == [s[0]] + s[1..][..n - 1];
      n
  }

  function Tokens(s: string): seq<string>
    decreases |s|
  {
    if s == "" then []
    else if Whitespace(s[0]) then Tokens(s[1..])
    else [s[..WordEnd(s)]] + Tokens(s[WordEnd(s)..])
  }

  function Join(ts: seq<string>): string {
    if ts == [] then "" else if |ts| == 1 then ts[0] else ts[0] + " " + Join(ts[1..])
  }

  lemma {:induction false} WordEndConcat(a: string, b: string)
    requires Wordy(a)
    ensures WordEnd(a + b) == |a| + WordEnd(b)
  {
    if a == "" {
      assert a + b == b;
    } else {
      assert a[0] in a && forall c :: c in a[1..] ==> c in a;
      assert (a + b)[1..] == a[1..] + b;
      WordEndConcat(a[1..], b);
    }
  }

  // A word that ends there is the first token.
  lemma TokensAfterWord(w: string, rest: string)
    requires Word(w) && (rest != "" ==> Whitespace(rest[0]))
    ensures Tokens(w + rest) == [w] + Tokens(rest)
  {
    assert (w + rest)[0] == w[0] && w[0] in w;
    WordEndConcat(w, rest);
    assert (w + rest)[..|w|] == w && (w + rest)[|w|..] == rest;
  }

  lemma TokensOfWord(w: string)
    requires Word(w)
    ensures Tokens(w) == [w]
  {
    TokensAfterWord(w, "");
    assert w + "" == w;
  }

  lemma FirstWord(a: string) returns (w: string, rest: string)
    requires a != "" && !Whitespace(a[0])
    ensures a == w + rest && Word(w) && (rest != "" ==> Whitespace(rest[0]))
  {
    w, rest := a[..WordEnd(a)], a[WordEnd(a)..];
  }

  // Both sides of a word taken off the front.
  lemma WordOff(w: string, rest: string, c: char, b: string)
    requires Word(w) && (rest != "" ==> Whitespace(rest[0])) && Whitespace(c)
    ensures Tokens(w + rest) == [w] + Tokens(rest)
    ensures Tokens(w + rest + [c] + b) == [w] + Tokens(rest + [c] + b)
  {
    hide Tokens;
    TokensAfterWord(w, rest);
    TokensAfterWord(w, rest + [c] + b);
    assert w + rest + [c] + b == w + (rest + [c] + b);
  }

  lemma TokensAfterBlank(a: string)
    requires a != "" && Whitespace(a[0])
    ensures Tokens(a) == Tokens(a[1..])
  {
  }

  lemma {:induction false} TokensSplit(a: string, c: char, b: string)
    requires Whitespace(c)
    ensures Tokens(a + [c] + b) == Tokens(a) + Tokens(b)
    decreases |a|
  {
    hide Tokens; hide WordEnd; hide Word; hide Whitespace;
    var s := a + [c] + b;
    if a == "" {
      TokensAfterBlank(s);
      assert s[1..] == b;
      assert Tokens(a) == [] by { NoTokens(); }
    } else if Whitespace(a[0]) {
      TokensAfterBlank(s);
      TokensAfterBlank(a);
      assert s[1..] == a[1..] + [c] + b;
      TokensSplit(a[1..], c, b);
    } else {
      var w, rest := FirstWord(a);
      TokensSplit(rest, c, b);
      WordOff(w, rest, c, b);
      assert [w] + (Tokens(rest) + Tokens(b)) == [w] + Tokens(rest) + Tokens(b);
    }
  }

  lemma NoTokens()
    ensures Tokens("") == []
  {
  }

  predicate Words(ts: seq<string>) { forall t :: t in ts ==> Word(t) }

  lemma {:induction false} TokensAreWords(s: string)
    ensures Words(Tokens(s)) && (s != "" && !Whitespace(s[0]) ==> Tokens(s) != [])
    decreases |s|
  {
    if s == "" {
    } else if Whitespace(s[0]) {
      TokensAreWords(s[1..]);
    } else {
      TokensAreWords(s[WordEnd(s)..]);
    }
  }

  // Whitespace is single blanks, one at a time.
  predicate Single(s: string) {
    forall i :: 0 <= i < |s| && Whitespace(s[i]) ==> s[i] == ' ' && (i == 0 || !Whitespace(s[i - 1]))
  }

  predicate Neat(s: string) { s != "" && Single(s) && !Whitespace(s[0]) && !Whitespace(s[|s| - 1]) }

  lemma {:induction false} JoinIsNeat(ts: seq<string>)
    requires Words(ts) && ts != []
    ensures Neat(Join(ts))
  {
    assert ts[0] in ts;
    if |ts| > 1 {
      assert forall t :: t in ts[1..] ==> t in ts;
      JoinIsNeat(ts[1..]);
      var a, b := ts[0], Join(ts[1..]);
      var s := a + " " + b;
      forall i | 0 <= i < |s| && Whitespace(s[i]) ensures s[i] == ' ' && (i == 0 || !Whitespace(s[i - 1])) {
        assert forall j :: 0 <= j < |a| ==> s[j] in a;
        if i > |a| {
          assert s[i] == b[i - |a| - 1];
          assert i > |a| + 1 ==> s[i - 1] == b[i - |a| - 2];
        }
      }
      assert s[0] in a && s[|s| - 1] == b[|b| - 1];
    } else {
      assert forall i :: 0 <= i < |ts[0]| ==> ts[0][i] in ts[0];
    }
  }

  // The text with its whitespace collapsed, as rejoining the tokens leaves it.
  function Collapsed(s: string): string { Join(Tokens(s)) }

  // A neat text is one word, or a word, a blank and a neat text.
  lemma NeatParts(s: string) returns (w: string, rest: string)
    requires Neat(s)
    ensures Word(w) && if rest == "" then s == w else s == w + ([' '] + rest) && Neat(rest)
  {
    var n := WordEnd(s);
    w, rest := s[..n], if n == |s| then "" else s[n + 1..];
    hide WordEnd;
    if n < |s| {
      assert s[n] == ' ' && n + 1 < |s| && !Whitespace(s[n + 1]);
      SingleSlice(s, n + 1, |s|);
      assert s[n + 1..|s|] == rest && rest[|rest| - 1] == s[|s| - 1];
      hide Single;
    }
  }

  lemma {:induction false} NeatStays(s: string)
    requires Neat(s)
    ensures Collapsed(s) == s
    decreases |s|
  {
    hide Tokens; hide Neat; hide Word; hide Whitespace;
    var w, rest := NeatParts(s);
    if rest == "" {
      TokensOfWord(w);
    } else {
      BlankWord(w, rest);
      NeatStays(rest);
      assert w + " " + rest == s;
    }
  }

  lemma BlankWord(w: string, rest: string)
    requires Word(w) && Neat(rest)
    ensures Tokens(w + ([' '] + rest)) == [w] + Tokens(rest) && Tokens(rest) != []
  {
    hide Tokens;
    TokensAfterWord(w, [' '] + rest);
    TokensAfterBlank([' '] + rest);
    assert ([' '] + rest)[1..] == rest;
    TokensAreWords(rest);
  }

  lemma CollapsedIsNeat(s: string)
    requires s != "" && !Whitespace(s[0])
    ensures Neat(Collapsed(s))
  {
    TokensAreWords(s);
    JoinIsNeat(Tokens(s));
  }

  // A leading word survives collapsing, whatever follows it.
  lemma LeadingWordStays(a: string, b: string)
    requires Word(a)
    ensures a <= Collapsed(a + b)
  {
    var s := a + b;
    assert s[0] in a;
    WordEndConcat(a, b);
    assert a <= s[..WordEnd(s)];
  }

  // ----- the split ----------------------------------------------------------

  // What reading a token as a 64-bit float gives.
  datatype Number = Bad | NonFinite | Finite(value: real)
  type Parser = string -> Number

  datatype Sample = Sample(name: string, value: real, labels: Option<string>)

  predicate Digit(c: char) { '0' <= c <= '9' }

  predicate PlainInt(t: string) {
    var digits := if "-" <= t then t[1..] else t;
    digits != "" && forall c :: c in digits ==> Digit(c)
  }

  predicate Decimal(s: string) { |s| > 0 && forall i :: 0 <= i < |s| ==> '0' <= s[i] <= '9' }

  /** A timestamp is at least one digit, after a minus or not. */
  lemma PlainIntMeans(t: string)
    ensures PlainInt(t) <==> Decimal(t) || (|t| > 0 && t[0] == '-' && Decimal(t[1..]))
  {
    var digits := if "-" <= t then t[1..] else t;
    assert "-" <= t <==> |t| > 0 && t[0] == '-';
    AllDigits(digits);
    assert Decimal(t) ==> '0' <= t[0] <= '9';
  }

  lemma AllDigits(s: string)
    ensures Decimal(s) <==> s != "" && forall c :: c in s ==> Digit(c)
  {
    if Decimal(s) {
      forall c | c in s ensures Digit(c) {
        var i :| 0 <= i < |s| && s[i] == c;
      }
    } else if s != "" {
      var i :| 0 <= i < |s| && !('0' <= s[i] <= '9');
      assert s[i] in s && !Digit(s[i]);
    }
  }

  function Brace(s: string): (n: nat)
    ensures n <= |s| && '{' !in s[..n] && (n < |s| ==> s[n] == '{')
  {
    if s == "" || s[0] == '{' then 0 else
      var n := 1 + Brace(s[1..]);
      assert s[..n] == [s[0]] + s[1..][..n - 1];
      n
  }

  function NameOf(region: string): string { region[..Brace(region)] }

  // The text between the first `{` and the first unquoted `}` after it.
  function LabelsOf(region: string): Option<string> {
    var i := Brace(region);
    if i == |region| then None
    else
      var after := region[i + 1..];
      var j := First(after, Plain, Plain, '}');
      if j < |after| then Some(after[..j]) else None
  }

  // A plain integer after a finite value is a timestamp.
  function ValueIndex(ts: seq<string>, parse: Parser): (k: nat)
    requires |ts| >= 2
    ensures 0 < k < |ts|
  {
    if |ts| >= 3 && PlainInt(ts[|ts| - 1]) && parse(ts[|ts| - 2]).Finite? then |ts| - 2 else |ts| - 1
  }

  function SplitTokens(ts: seq<string>, parse: Parser): Option<Sample> {
    if |ts| < 2 then None
    else
      var k := ValueIndex(ts, parse);
      match parse(ts[k])
      case Finite(v) => Some(Sample(NameOf(Join(ts[..k])), v, LabelsOf(Join(ts[..k]))))
      case _ => None
  }

  function Split(line: string, parse: Parser): Option<Sample> { SplitTokens(Tokens(line), parse) }

  method SplitMetricLine(line: string, parse: Parser) returns (sample: Option<Sample>)
    ensures sample == Split(line, parse)
  {
    var tokens := Tokens(line);
    var n := |tokens|;
    if n < 2 {
      return None;
    }
    var valueIdx := n - 1;
    if n >= 3 && PlainInt(tokens[n - 1]) && parse(tokens[n - 2]).Finite? {
      valueIdx := n - 2;
    }
    var value := parse(tokens[valueIdx]);
    if !value.Finite? {
      return None;
    }
    var rejoined := Join(tokens[..valueIdx]);
    var i := Brace(rejoined);
    var labels := None;
    if i < |rejoined| {
      var after := rejoined[i + 1..];
      var end := FindUnquoted(after, '}');
      if end < |after| {
        labels := Some(after[..end]);
      }
    }
    sample := Some(Sample(rejoined[..i], value.value, labels));
  }

  // ----- safety across the two functions ------------------------------------

  lemma LabelsAreClosed(region: string)
    ensures LabelsOf(region).Some? ==> End(LabelsOf(region).value, Plain) == Plain
  {
    var i := Brace(region);
    if i < |region| {
      var after := region[i + 1..];
      var j := First(after, Plain, Plain, '}');
      if j < |after| { FirstMeans(after, Plain, Plain, '}', j); }
    }
  }

  /** No line whatever makes the label scan read past the end: the text it is given ends outside quotes. */
  lemma SplitNeverOverruns(line: string, parse: Parser)
    ensures var s := Split(line, parse);
      s.Some? && s.value.labels.Some? ==> SourceOf(s.value.labels.value) != Overrun
  {
    var s, ts := Split(line, parse), Tokens(line);
    if s.Some? && s.value.labels.Some? {
      LabelsAreClosed(Join(ts[..ValueIndex(ts, parse)]));
      OverrunsExactly(s.value.labels.value);
    }
  }

  // ----- round trip ---------------------------------------------------------

  datatype Metric = Metric(name: string, labels: Option<seq<Label>>, value: string, stamp: Option<string>)

  // Braces are in no number.
  ghost predicate Sensible(parse: Parser) { forall t: string :: '{' in t || '}' in t ==> parse(t) == Bad }

  predicate Renderable(m: Metric) {
    && Word(m.name) && '{' !in m.name && Word(m.value)
    && (m.labels.Some? ==> forall l :: l in m.labels.value ==> Named(l))
    && (m.stamp.Some? ==> Word(m.stamp.value) && PlainInt(m.stamp.value))
  }

  function LabelText(m: Metric): Option<string> {
    if m.labels.Some? then Some(Render(m.labels.value)) else None
  }

  function Region(m: Metric): string {
    if m.labels.Some? then m.name + ("{" + Render(m.labels.value) + "}") else m.name
  }

  function Text(m: Metric): string {
    Region(m) + " " + m.value + if m.stamp.Some? then " " + m.stamp.value else ""
  }

  lemma {:induction false} BraceAfter(name: string, rest: string)
    requires '{' !in name
    ensures Brace(name + ("{" + rest)) == |name|
  {
    if name == "" {
      assert name + ("{" + rest) == "{" + rest;
    } else {
      assert name[0] in name && forall c :: c in name[1..] ==> c in name;
      assert (name + ("{" + rest))[1..] == name[1..] + ("{" + rest);
      BraceAfter(name[1..], rest);
    }
  }

  lemma NoBrace(s: string)
    requires '{' !in s
    ensures Brace(s) == |s|
  {
  }

  // Name and label text are where they were put, whatever comes after a label set.
  lemma RegionReads(m: Metric, tail: string)
    requires Renderable(m) && (m.labels.None? ==> '{' !in tail)
    ensures NameOf(Region(m) + tail) == if m.labels.Some? then m.name else m.name + tail
    ensures LabelsOf(Region(m) + tail) == LabelText(m)
  {
    hide Brace; hide First; hide Render; hide End;
    var s := Region(m) + tail;
    if m.labels.Some? {
      var text := Render(m.labels.value);
      var after := text + ("}" + tail);
      assert s == m.name + ("{" + after);
      BraceAfter(m.name, after);
      assert s[..|m.name|] == m.name && s[|m.name| + 1..] == after;
      RenderIsClosed(m.labels.value);
      FirstConcat(text, "}" + tail, Plain, Plain, '}');
      StopsAtOnce(tail);
      assert after[..|text|] == text;
    } else {
      NoBrace(s);
      assert s[..|s|] == s;
    }
  }

  // A closing brace outside quotes.
  predicate ClosesAt(after: string, j: nat) { j < |after| && after[j] == '}' && End(after[..j], Plain) == Plain }

  /**
   On any text: the name is what stands before the first `{`; the label text is what stands
   between it and the first `}` outside quotes after it, and there is none without both.
   */
  lemma LabelsExactly(name: string, after: string, j: nat)
    requires '{' !in name
    ensures NameOf(name) == name && LabelsOf(name) == None
    ensures NameOf(name + ("{" + after)) == name
    ensures ClosesAt(after, j) && (forall i: nat :: i < j ==> !ClosesAt(after, i)) ==>
      LabelsOf(name + ("{" + after)) == Some(after[..j])
    ensures (forall i: nat :: !ClosesAt(after, i)) ==> LabelsOf(name + ("{" + after)) == None
  {
    hide Brace; hide First; hide End;
    NoBrace(name);
    BraceAfter(name, after);
    var s, n := name + ("{" + after), First(after, Plain, Plain, '}');
    assert name[..|name|] == name && s[..|name|] == name && s[|name| + 1..] == after;
    if n < |after| {
      FirstMeans(after, Plain, Plain, '}', n);
      assert ClosesAt(after, n);
    }
    if j < |after| { FirstMeans(after, Plain, Plain, '}', j); }
  }

  lemma StopsAtOnce(tail: string)
    ensures First("}" + tail, Plain, Plain, '}') == 0
  {
  }

  lemma {:induction false} LastOfTokens(s: string, c: char)
    requires !Whitespace(c)
    ensures var ts := Tokens(s + [c]); ts != [] && c in ts[|ts| - 1]
    decreases |s|
  {
    var t := s + [c];
    if s == "" {
      TokensOfWord([c]);
      assert t == [c];
    } else if Whitespace(s[0]) {
      assert t[1..] == s[1..] + [c];
      LastOfTokens(s[1..], c);
    } else {
      var n := WordEnd(t);
      if n == |t| {
        assert t[..n] == t && t[n..] == "" && Tokens(t[n..]) == [];
        assert t[|t| - 1] in t;
      } else {
        assert t[n..] == s[n..] + [c];
        LastOfTokens(s[n..], c);
      }
    }
  }

  lemma TokensOfRegion(m: Metric)
    requires Renderable(m)
    ensures Tokens(Region(m)) != []
    ensures m.labels.None? ==> Tokens(Region(m)) == [m.name]
    ensures m.labels.Some? ==> '}' in Tokens(Region(m))[|Tokens(Region(m))| - 1]
  {
    hide Tokens; hide Render;
    if m.labels.Some? {
      var front := m.name + ("{" + Render(m.labels.value));
      assert Region(m) == front + ['}'];
      LastOfTokens(front, '}');
    } else {
      TokensOfWord(m.name);
    }
  }

  lemma TokensOfText(m: Metric)
    requires Renderable(m)
    ensures Tokens(Text(m)) == Tokens(Region(m)) + [m.value] + if m.stamp.Some? then [m.stamp.value] else []
    ensures Tokens(Region(m)) != []
    ensures m.labels.None? ==> Tokens(Region(m)) == [m.name]
    ensures m.labels.Some? ==> '}' in Tokens(Region(m))[|Tokens(Region(m))| - 1]
  {
    hide Tokens; hide Region; hide Word; hide PlainInt;
    var head := Region(m) + " " + m.value;
    TokensOfRegion(m);
    TokensSplit(Region(m), ' ', m.value);
    TokensOfWord(m.value);
    if m.stamp.Some? {
      assert Text(m) == head + " " + m.stamp.value;
      TokensSplit(head, ' ', m.stamp.value);
      TokensOfWord(m.stamp.value);
    } else {
      assert Text(m) == head;
    }
  }

  // Where the value is looked for: at the value, unless that is not finite and a timestamp follows it.
  lemma ValuePlace(m: Metric, parse: Parser)
    requires Renderable(m) && Sensible(parse)
    ensures |Tokens(Text(m))| >= 2
    ensures var ts, r := Tokens(Text(m)), |Tokens(Region(m))|;
      ValueIndex(ts, parse) == if m.stamp.Some? && !parse(m.value).Finite? then r + 1 else r
  {
    hide Tokens; hide Text; hide Region; hide Single; hide Whitespace;
    TokensOfText(m);
  }

  /**
   What a rendered line reads as. A finite value is read with or without a timestamp.
   Without a timestamp any other value drops the line; with one, the timestamp itself
   is read as the value (and an unlabelled name grows a blank, so it matches no counter).
   */
  function ReadsAs(m: Metric, parse: Parser): Option<Sample> {
    if parse(m.value).Finite? then Some(Sample(m.name, parse(m.value).value, LabelText(m)))
    else if m.stamp.Some? && parse(m.stamp.value).Finite? then
      Some(Sample(if m.labels.Some? then m.name else m.name + " " + m.value, parse(m.stamp.value).value, LabelText(m)))
    else None
  }

  lemma RegionIsNeat(m: Metric)
    requires Renderable(m) && (m.labels.Some? ==> Single(Render(m.labels.value)))
    ensures Neat(Region(m))
  {
    var s := Region(m);
    assert s[0] in m.name;
    if m.labels.Some? {
      var text, n := Render(m.labels.value), |m.name|;
      forall i | 0 <= i < |s| && Whitespace(s[i]) ensures s[i] == ' ' && (i == 0 || !Whitespace(s[i - 1])) {
        assert forall j :: 0 <= j < n ==> s[j] in m.name;
        assert s[n] == '{' && s[|s| - 1] == '}';
        assert s[i] == text[i - n - 1];
        assert i - n - 1 > 0 ==> s[i - 1] == text[i - n - 2];
      }
    } else {
      assert forall i :: 0 <= i < |s| ==> s[i] in m.name;
    }
  }

  lemma RejoinedRegion(m: Metric)
    requires Renderable(m) && (m.labels.Some? ==> Single(Render(m.labels.value)))
    ensures Join(Tokens(Region(m))) == Region(m)
    ensures Tokens(Region(m)) != []
    ensures Join(Tokens(Region(m)) + [m.value]) == Region(m) + (" " + m.value)
  {
    RegionIsNeat(m);
    NeatStays(Region(m));
    TokensOfText(m);
    JoinAppend(Tokens(Region(m)), m.value);
    assert Region(m) + " " + m.value == Region(m) + (" " + m.value);
  }

  /** Round trip: name, value and label text come back exactly as they were written. */
  lemma LineRoundTrip(m: Metric, parse: Parser)
    requires Renderable(m) && Sensible(parse) && parse(m.value) != Bad
    requires m.labels.Some? ==> Single(Render(m.labels.value))
    ensures Split(Text(m), parse) == ReadsAs(m, parse)
  {
    var ts, region := Tokens(Text(m)), Tokens(Region(m));
    TokensOfText(m);
    ValuePlace(m, parse);
    RejoinedRegion(m);
    RegionReads(m, "");
    RegionReads(m, " " + m.value);
    assert Region(m) + "" == Region(m);
    hide Tokens; hide Text; hide Region; hide NameOf; hide LabelsOf; hide Join; hide Neat; hide Render;
    hide Sensible; hide ValueIndex; hide PlainInt; hide LabelText; hide Single;
    assert ts[..|region|] == region && ts[|region|] == m.value;
    assert m.stamp.Some? ==> ts[..|region| + 1] == region + [m.value] && ts[|region| + 1] == m.stamp.value;
  }

  lemma {:induction false} JoinAppend(ts: seq<string>, t: string)
    requires ts != []
    ensures Join(ts + [t]) == Join(ts) + " " + t
  {
    if |ts| == 1 {
      assert (ts + [t])[1..] == [t];
    } else {
      assert (ts + [t])[1..] == ts[1..] + [t];
      JoinAppend(ts[1..], t);
    }
  }

  lemma SingleSlice(s: string, i: nat, j: nat)
    requires Single(s) && i <= j <= |s|
    ensures Single(s[i..j])
  {
    var t := s[i..j];
    forall x | 0 <= x < |t| && Whitespace(t[x]) ensures t[x] == ' ' && (x == 0 || !Whitespace(t[x - 1])) {
      assert t[x] == s[i + x];
      if x > 0 { assert t[x - 1] == s[i + x - 1]; }
    }
  }

  lemma LabelsAreASlice(region: string)
    requires Single(region) && LabelsOf(region).Some?
    ensures Single(LabelsOf(region).value)
  {
    var i := Brace(region);
    var after := region[i + 1..];
    var j := First(after, Plain, Plain, '}');
    assert after[..j] == region[i + 1..i + 1 + j];
    SingleSlice(region, i + 1, i + 1 + j);
  }

  lemma NameStays(m: Metric)
    requires Renderable(m) && m.labels.Some?
    ensures NameOf(Collapsed(Region(m))) == m.name && Neat(Collapsed(Region(m)))
  {
    hide Tokens; hide Join; hide Render; hide Single; hide Brace; hide PlainInt;
    var a, rest := m.name + "{", Render(m.labels.value) + "}";
    assert Region(m) == a + rest;
    assert forall c :: c in a ==> c in m.name || c == '{';
    LeadingWordStays(a, rest);
    assert m.name[0] in m.name && Region(m)[0] == m.name[0];
    CollapsedIsNeat(Region(m));
    var s := Collapsed(Region(m));
    assert s == a + s[|a|..] == m.name + ("{" + s[|a|..]);
    BraceAfter(m.name, s[|a|..]);
  }

  /**
   The value and the name of a labelled line come back whatever its labels hold; the
   label text comes back exactly if its whitespace is single blanks.
   */
  lemma LabelsComeBackExactly(m: Metric, parse: Parser)
    requires Renderable(m) && Sensible(parse) && parse(m.value).Finite? && m.labels.Some?
    ensures var s := Split(Text(m), parse);
      && s.Some? && s.value.name == m.name && s.value.value == parse(m.value).value
      && (s.value.labels == LabelText(m) <==> Single(Render(m.labels.value)))
  {
    hide Tokens; hide Text; hide Region; hide NameOf; hide LabelsOf; hide Join; hide Render; hide Single;
    hide Sensible; hide PlainInt; hide Renderable; hide ValueIndex; hide Split;
    FiniteReads(m, parse);
    NameStays(m);
    var c := Collapsed(Region(m));
    if Single(Render(m.labels.value)) { LineRoundTrip(m, parse); }
    if LabelsOf(c).Some? { LabelsAreASlice(c); }
  }

  // With a finite value the name and the labels are looked for in all that stands before it.
  lemma FiniteReads(m: Metric, parse: Parser)
    requires Renderable(m) && Sensible(parse) && parse(m.value).Finite?
    ensures var c := Collapsed(Region(m));
      Split(Text(m), parse) == Some(Sample(NameOf(c), parse(m.value).value, LabelsOf(c)))
  {
    hide Tokens; hide Text; hide Region; hide NameOf; hide LabelsOf; hide Join; hide Render; hide Single;
    hide Sensible; hide PlainInt; hide Renderable; hide ValueIndex;
    var ts, region := Tokens(Text(m)), Tokens(Region(m));
    TokensBefore(m);
    ValuePlace(m, parse);
  }

  lemma TokensBefore(m: Metric)
    requires Renderable(m)
    ensures var ts, region := Tokens(Text(m)), Tokens(Region(m));
      |region| < |ts| && ts[..|region|] == region && ts[|region|] == m.value
  {
    hide Tokens; hide Text; hide Region; hide Renderable;
    TokensOfText(m);
  }
}
