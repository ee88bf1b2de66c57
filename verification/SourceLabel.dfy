/** Reading one label out of a raw label set, `k1="v1",k2="v2"`. */
module SourceLabel {
  import opened Wrappers
  import opened QuoteScanner

  // `Overrun`: the scan would read past the end of the text.
  datatype Found = Value(text: string) | Absent | Overrun

  const KEY: string := "source="

  predicate Whitespace(c: char) { c == ' ' || c == '\t' || c == '\n' || c == '\r' || c == '\U{0C}' }

  // The first comma or whitespace of an unquoted value, or the length.
  function FirstBreak(s: string): (n: nat)
    ensures n <= |s|
    ensures forall j :: 0 <= j < n ==> s[j] != ',' && !Whitespace(s[j])
    ensures n < |s| ==> s[n] == ',' || Whitespace(s[n])
  {
    if s == "" || s[0] == ',' || Whitespace(s[0]) then 0 else 1 + FirstBreak(s[1..])
  }

  // What follows `=`: a quoted value up to its closing quote, or an unquoted one that something ends.
  function ValueAt(s: string): Option<string> {
    if "\"" <= s then
      var n := First(s[1..], Quoted, Quoted, '"');
      if n < |s| - 1 then Some(s[1..][..n]) else None
    else if FirstBreak(s) < |s| then Some(s[..FirstBreak(s)])
    else None
  }

  // A candidate key starts the text or follows an unquoted comma.
  function SourceOf(labels: string): Found
    decreases |labels|
  {
    if KEY <= labels then
      match ValueAt(labels[|KEY|..])
      case Some(v) => Value(v)
      case None => Absent
    else
      var n := First(labels, Plain, Plain, ',');
      if n < |labels| then SourceOf(labels[n + 1..])
      else if End(labels, Plain) == Escaped then Overrun
      else Absent
  }

  method ReadLabelValue(s: string) returns (v: Option<string>)
    ensures v == ValueAt(s)
  {
    if "\"" <= s {
      var found, end := ClosingQuote(s[1..]);
      v := if found then Some(s[1..][..end]) else None;
    } else {
      var end := FirstBreak(s);
      v := if end < |s| then Some(s[..end]) else None;
    }
  }

  method SourceLabelValue(labels: string) returns (found: Found)
    ensures found == SourceOf(labels)
  {
    var pos := 0;
    while true
      invariant pos <= |labels|
      invariant SourceOf(labels) == SourceOf(labels[pos..])
      decreases |labels| - pos
    {
      var rest := labels[pos..];
      if KEY <= rest {
        var v := ReadLabelValue(rest[|KEY|..]);
        return if v.Some? then Value(v.value) else Absent;
      }
      var i := FindUnquoted(rest, ',');
      if i == |rest| {
        return Absent;
      }
      if i > |rest| {
        return Overrun;
      }
      assert rest[i + 1..] == labels[pos + i + 1..];
      pos := pos + (i + 1);
    }
  }

  // ----- safety -------------------------------------------------------------

  // Some candidate key is `source`, so the scan ends there.
  predicate HasSource(labels: string)
    decreases |labels|
  {
    KEY <= labels ||
      var n := First(labels, Plain, Plain, ',');
      n < |labels| && HasSource(labels[n + 1..])
  }

  lemma EndAfterStop(a: string, b: string)
    requires End(a, Plain) == Plain
    ensures End(a + ("," + b), Plain) == End(b, Plain)
  {
    EndConcat(a, "," + b, Plain);
    assert ("," + b)[1..] == b;
  }

  lemma EndAfterComma(labels: string)
    requires First(labels, Plain, Plain, ',') < |labels|
    ensures End(labels, Plain) == End(labels[First(labels, Plain, Plain, ',') + 1..], Plain)
  {
    hide First; hide End;
    var n := First(labels, Plain, Plain, ',');
    FirstMeans(labels, Plain, Plain, ',', n);
    EndAfterStop(labels[..n], labels[n + 1..]);
    assert labels == labels[..n] + ("," + labels[n + 1..]);
  }

  /** The scan of arbitrary text overruns exactly if the text ends in a dangling escape and no key is `source`. */
  lemma {:induction false} OverrunsExactly(labels: string)
    ensures SourceOf(labels) == Overrun <==> End(labels, Plain) == Escaped && !HasSource(labels)
    decreases |labels|
  {
    var n := First(labels, Plain, Plain, ',');
    if !(KEY <= labels) && n < |labels| {
      EndAfterComma(labels);
      OverrunsExactly(labels[n + 1..]);
    }
  }

  // ----- round trip ---------------------------------------------------------

  datatype Label = Label(key: string, value: string)

  predicate KeyChar(c: char) { c != '"' && c != ',' && c != '=' && c != '{' && c != '}' && !Whitespace(c) }

  predicate Named(l: Label) { forall c :: c in l.key ==> KeyChar(c) }

  function RenderLabel(l: Label): string { l.key + "=" + "\"" + Escape(l.value) + "\"" }

  // A label set as the text format writes it.
  function Render(ls: seq<Label>): string {
    if ls == [] then ""
    else if |ls| == 1 then RenderLabel(ls[0])
    else RenderLabel(ls[0]) + "," + Render(ls[1..])
  }

  function FirstSource(ls: seq<Label>): Found {
    if ls == [] then Absent
    else if ls[0].key == "source" then Value(Escape(ls[0].value))
    else FirstSource(ls[1..])
  }

  lemma {:induction false} KeyIsPlain(key: string, stop: char)
    requires (forall c :: c in key ==> KeyChar(c)) && (stop == ',' || stop == '}')
    ensures End(key, Plain) == Plain && First(key, Plain, Plain, stop) == |key|
  {
    if key != "" {
      assert key[0] in key;
      assert forall c :: c in key[1..] ==> c in key;
      KeyIsPlain(key[1..], stop);
    }
  }

  // Unquoted, a rendered label has neither a comma nor a closing brace, and it ends unquoted.
  lemma LabelIsClosed(l: Label, stop: char)
    requires Named(l) && (stop == ',' || stop == '}')
    ensures End(RenderLabel(l), Plain) == Plain && First(RenderLabel(l), Plain, Plain, stop) == |RenderLabel(l)|
  {
    var a, b, c := l.key, "=" + "\"", Escape(l.value);
    KeyIsPlain(a, stop);
    EscapeStaysQuoted(l.value, Plain, stop);
    assert RenderLabel(l) == a + (b + (c + "\""));
    EndConcat(a, b + (c + "\""), Plain);
    EndConcat(b, c + "\"", Plain);
    EndConcat(c, "\"", Quoted);
    FirstConcat(a, b + (c + "\""), Plain, Plain, stop);
    FirstConcat(b, c + "\"", Plain, Plain, stop);
    FirstConcat(c, "\"", Quoted, Plain, stop);
    assert b[1..] == "\"" && b[1..][1..] == "";
    assert "\""[1..] == "";
  }

  // Whatever follows the rendered label, its key is `source` exactly if it says so.
  lemma KeyIsRead(l: Label, rest: string)
    requires Named(l)
    ensures KEY <= RenderLabel(l) + rest <==> l.key == "source"
  {
    var s := RenderLabel(l) + rest;
    assert s[..|l.key|] == l.key && s[|l.key|] == '=';
    assert forall j :: 0 <= j < |l.key| ==> s[j] != '=' by {
      assert forall j :: 0 <= j < |l.key| ==> s[j] in l.key;
    }
    if KEY <= s {
      assert forall j :: 0 <= j < 7 ==> s[j] == KEY[j];
      assert KEY[6] == '=' && forall j :: 0 <= j < 6 ==> KEY[j] != '=';
      assert |l.key| == 6 by {
        assert s[|l.key|] == '=' && s[6] == '=';
      }
      assert l.key == s[..6] == KEY[..6] == "source";
    }
  }

  lemma ValueIsRead(l: Label, rest: string)
    requires l.key == "source"
    ensures ValueAt((RenderLabel(l) + rest)[|KEY|..]) == Some(Escape(l.value))
  {
    var s, e := (RenderLabel(l) + rest)[|KEY|..], Escape(l.value);
    assert s == "\"" + (e + ("\"" + rest));
    assert s[1..] == e + ("\"" + rest);
    EscapeStaysQuoted(l.value, Quoted, '"');
    FirstConcat(e, "\"" + rest, Quoted, Quoted, '"');
    assert First("\"" + rest, Quoted, Quoted, '"') == 0;
    assert s[1..][..|e|] == e;
  }

  /**
   Reading `source` back from a rendered label set gives the first label with exactly that key, as
   written, or none.
   */
  lemma {:induction false} SourceRoundTrip(ls: seq<Label>)
    requires forall l :: l in ls ==> Named(l)
    ensures SourceOf(Render(ls)) == FirstSource(ls)
  {
    if ls == [] {
    } else {
      var head := RenderLabel(ls[0]);
      var tail := if |ls| == 1 then "" else "," + Render(ls[1..]);
      assert Render(ls) == head + tail;
      KeyIsRead(ls[0], tail);
      if ls[0].key == "source" {
        ValueIsRead(ls[0], tail);
      } else {
        LabelIsClosed(ls[0], ',');
        FirstConcat(head, tail, Plain, Plain, ',');
        EndConcat(head, tail, Plain);
        if |ls| == 1 {
          assert ls[1..] == [];
        } else {
          assert forall l :: l in ls[1..] ==> l in ls;
          assert Render(ls)[|head| + 1..] == Render(ls[1..]);
          SourceRoundTrip(ls[1..]);
        }
      }
    }
  }

  /** A rendered label set holds no unquoted closing brace and ends outside quotes. */
  lemma {:induction false} RenderIsClosed(ls: seq<Label>)
    requires forall l :: l in ls ==> Named(l)
    ensures End(Render(ls), Plain) == Plain && First(Render(ls), Plain, Plain, '}') == |Render(ls)|
  {
    if ls != [] {
      var head := RenderLabel(ls[0]);
      LabelIsClosed(ls[0], '}');
      if |ls| > 1 {
        var tail := "," + Render(ls[1..]);
        assert Render(ls) == head + tail;
        assert tail[1..] == Render(ls[1..]);
        EndConcat(head, tail, Plain);
        FirstConcat(head, tail, Plain, Plain, '}');
        assert forall l :: l in ls[1..] ==> l in ls;
        RenderIsClosed(ls[1..]);
      }
    }
  }

  // ----- unquoted values ----------------------------------------------------

  /**
   An unquoted value is what stands before the first comma or whitespace (blank, tab, line
   feed, carriage return or form feed); with neither, there is no value.
   */
  lemma {:induction false} UnquotedIsRead(word: string, rest: string)
    requires forall c :: c in word ==> c !in ", \t\n\r\U{0C}"
    requires word == "" || word[0] != '"'
    requires rest == "" || rest[0] in ", \t\n\r\U{0C}"
    ensures SourceOf("source=" + (word + rest)) == if rest == "" then Absent else Value(word)
  {
    BreakAfter(word, rest);
    var s := "source=" + (word + rest);
    assert KEY <= s && s[|KEY|..] == word + rest;
    assert (word + rest)[..|word|] == word;
  }

  lemma {:induction false} BreakAfter(word: string, rest: string)
    requires forall c :: c in word ==> c !in ", \t\n\r\U{0C}"
    requires rest == "" || rest[0] in ", \t\n\r\U{0C}"
    ensures FirstBreak(word + rest) == |word|
  {
    if word == "" {
      assert word + rest == rest;
    } else {
      assert word[0] in word && forall c :: c in word[1..] ==> c in word;
      assert (word + rest)[1..] == word[1..] + rest;
      BreakAfter(word[1..], rest);
    }
  }
}
