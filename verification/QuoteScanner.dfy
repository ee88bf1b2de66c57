/**
 Scanning text with quoted values. Text is a sequence of bytes; a `\` inside quotes
 makes the next byte literal. The two scanners of the metrics parser walk by index
 and jump two bytes at an escape; the automaton here says what they look for.
 */
module QuoteScanner {
  datatype Mode = Plain | Quoted | Escaped

  function Next(m: Mode, c: char): Mode {
    match m
    case Plain => if c == '"' then Quoted else Plain
    case Quoted => if c == '\\' then Escaped else if c == '"' then Plain else Quoted
    case Escaped => Quoted
  }

  // The mode after the whole of `s`.
  function End(s: string, m: Mode): Mode {
    if s == "" then m else End(s[1..], Next(m, s[0]))
  }

  // The first `stop` read in mode `at`, or the length of `s`.
  function First(s: string, m: Mode, at: Mode, stop: char): (n: nat)
    ensures n <= |s|
  {
    if s == "" || (m == at && s[0] == stop) then 0 else 1 + First(s[1..], Next(m, s[0]), at, stop)
  }

  /** `First` is what its name says: a hit in the right mode, and none before it. */
  lemma {:induction false} FirstMeans(s: string, m: Mode, at: Mode, stop: char, j: nat)
    requires j < |s|
    ensures var n := First(s, m, at, stop);
      && (j < n ==> !(s[j] == stop && End(s[..j], m) == at))
      && (j == n ==> s[j] == stop && End(s[..j], m) == at)
  {
    if j > 0 && !(m == at && s[0] == stop) {
      FirstMeans(s[1..], Next(m, s[0]), at, stop, j - 1);
      assert s[..j][1..] == s[1..][..j - 1];
    }
  }

  lemma {:induction false} EndConcat(a: string, b: string, m: Mode)
    ensures End(a + b, m) == End(b, End(a, m))
  {
    if a == "" {
      assert a + b == b;
    } else {
      assert (a + b)[1..] == a[1..] + b;
      EndConcat(a[1..], b, Next(m, a[0]));
    }
  }

  lemma {:induction false} FirstConcat(a: string, b: string, m: Mode, at: Mode, stop: char)
    ensures First(a + b, m, at, stop) ==
      if First(a, m, at, stop) < |a| then First(a, m, at, stop) else |a| + First(b, End(a, m), at, stop)
  {
    if a == "" {
      assert a + b == b;
    } else {
      assert (a + b)[1..] == a[1..] + b;
      FirstConcat(a[1..], b, Next(m, a[0]), at, stop);
    }
  }

  /**
   The index loop of `split_metric_line` (stop `}`) and of `source_label_value`
   (stop `,`). It stops one past the end exactly if the text ends right after an
   escaping `\` and has no unquoted `stop`.
   */
  method FindUnquoted(s: string, stop: char) returns (i: nat)
    requires stop != '"'
    ensures First(s, Plain, Plain, stop) < |s| ==> i == First(s, Plain, Plain, stop)
    ensures First(s, Plain, Plain, stop) == |s| ==> i == if End(s, Plain) == Escaped then |s| + 1 else |s|
  {
    i := 0;
    var inQuotes := false;
    while i < |s|
      invariant i <= |s| + 1
      invariant i <= |s| ==>
        First(s, Plain, Plain, stop) == i + First(s[i..], if inQuotes then Quoted else Plain, Plain, stop)
      invariant i <= |s| ==> End(s, Plain) == End(s[i..], if inQuotes then Quoted else Plain)
      invariant i == |s| + 1 ==> First(s, Plain, Plain, stop) == |s| && End(s, Plain) == Escaped
    {
      var b := s[i];
      assert s[i..][1..] == s[i + 1..];
      if inQuotes {
        if b == '\\' {
          if i + 1 < |s| { assert s[i..][1..][1..] == s[i + 2..]; }
          i := i + 2;
          continue;
        }
        if b == '"' {
          inQuotes := false;
        }
      } else if b == '"' {
        inQuotes := true;
      } else if b == stop {
        return;
      }
      i := i + 1;
    }
  }

  /** The first unescaped quote of `v`, which is read as the inside of a quoted value. */
  method ClosingQuote(v: string) returns (found: bool, i: nat)
    ensures found <==> First(v, Quoted, Quoted, '"') < |v|
    ensures found ==> i == First(v, Quoted, Quoted, '"')
  {
    i := 0;
    while i < |v|
      invariant i <= |v| + 1
      invariant i <= |v| ==> First(v, Quoted, Quoted, '"') == i + First(v[i..], Quoted, Quoted, '"')
      invariant i == |v| + 1 ==> First(v, Quoted, Quoted, '"') == |v|
    {
      var b := v[i];
      assert v[i..][1..] == v[i + 1..];
      if b == '\\' {
        if i + 1 < |v| { assert v[i..][1..][1..] == v[i + 2..]; }
        i := i + 2;
        continue;
      }
      if b == '"' {
        return true, i;
      }
      i := i + 1;
    }
    found := false;
  }

  // What the text format writes for a label value.
  function Escape(v: string): string {
    if v == "" then ""
    else (if v[0] == '\\' then "\\\\" else if v[0] == '"' then "\\\"" else if v[0] == '\n' then "\\n" else [v[0]])
         + Escape(v[1..])
  }

  /** An escaped value stays inside its quotes: it has no closing quote and no unquoted byte, whatever it holds. */
  lemma {:induction false} EscapeStaysQuoted(v: string, at: Mode, stop: char)
    requires at == Plain || (at == Quoted && stop == '"')
    ensures End(Escape(v), Quoted) == Quoted && First(Escape(v), Quoted, at, stop) == |Escape(v)|
  {
    if v != "" {
      EscapeStaysQuoted(v[1..], at, stop);
      var head := Escape(v)[..|Escape(v)| - |Escape(v[1..])|];
      assert Escape(v) == head + Escape(v[1..]);
      EndConcat(head, Escape(v[1..]), Quoted);
      FirstConcat(head, Escape(v[1..]), Quoted, at, stop);
      assert head[1..] == "" || head[1..][1..] == "";
    }
  }
}
