/** The T-SQL printers of collect/grants.go, which the scanner of collect/queryset.go reads back. */
module Quoting {
  import opened Scanner

  /** strings.ReplaceAll(s, q, qq). */
  function Double(s: string, q: char): (d: string)
    ensures |s| <= |d| && (s == [] ==> d == [])
  {
    if s == [] then [] else (if s[0] == q then [q, q] else [s[0]]) + Double(s[1..], q)
  }

  function QuoteIdent(s: string): string { "[" + Double(s, ']') + "]" }

  function QuoteLiteral(s: string): string { "'" + Double(s, '\'') + "'" }

  /** strings.ReplaceAll(s, "''", "'"), left to right and without overlap. */
  function Unescape(s: string): string
    decreases |s|
  {
    if s == [] then []
    else if Pair(s, '\'', '\'') then ['\''] + Unescape(s[2..])
    else [s[0]] + Unescape(s[1..])
  }

  lemma {:induction false} UnescapeDouble(s: string)
    ensures Unescape(Double(s, '\'')) == s
  {
    if s == [] { return; }
    UnescapeDouble(s[1..]);
    var d := Double(s, '\'');
    if s[0] == '\'' {
      assert d[2..] == Double(s[1..], '\'');
    } else {
      assert d[1..] == Double(s[1..], '\'');
    }
  }

  /** The delimited states and what closes each. */
  predicate Closes(st: State, q: char) {
    (st == BracketId && q == ']') || (st == QuotedId && q == '"') || (st == Literal && q == '\'')
  }

  function ContentClass(st: State): Class { if st == Literal then ClsLiteral else ClsCode }

  // ----- Scanning a text piece by piece -----

  /** Before `rest`, the scan from `st` reads `p` in these states, with these classes, and
      goes on from `next`. */
  ghost predicate Reads(st: State, p: string, rest: string, states: seq<State>, cls: seq<Class>, next: State) {
    && |p| == |states| == |cls|
    && Trace(st, p + rest) == states + Trace(next, rest)
    && Classify(st, p + rest) == cls + Classify(next, rest)
  }

  lemma ReadsToken(st: State, p: string, rest: string)
    requires p != [] && |p| == Step(st, p + rest).width
    ensures var tok := Step(st, p + rest); Reads(st, p, rest, Run(st, |p|), Run(tok.cls, |p|), tok.next)
  {
    hide Step;
    assert (p + rest)[|p|..] == rest;
  }

  lemma ReadsThen(st: State, p: string, q: string, rest: string, mid: State, next: State,
                  s1: seq<State>, c1: seq<Class>, s2: seq<State>, c2: seq<Class>)
    requires Reads(st, p, q + rest, s1, c1, mid) && Reads(mid, q, rest, s2, c2, next)
    ensures Reads(st, p + q, rest, s1 + s2, c1 + c2, next)
  {
    hide Trace, Classify;
    assert (p + q) + rest == p + (q + rest);
    assert s1 + (s2 + Trace(next, rest)) == (s1 + s2) + Trace(next, rest);
    assert c1 + (c2 + Classify(next, rest)) == (c1 + c2) + Classify(next, rest);
  }

  lemma ReadsRun(st: State, p: string, q: string, rest: string, next: State, x: State, c: Class)
    requires Reads(st, p, q + rest, Run(x, |p|), Run(c, |p|), st) && Reads(st, q, rest, Run(x, |q|), Run(c, |q|), next)
    ensures Reads(st, p + q, rest, Run(x, |p + q|), Run(c, |p + q|), next)
  {
    hide Trace, Classify;
    ReadsThen(st, p, q, rest, st, next, Run(x, |p|), Run(c, |p|), Run(x, |q|), Run(c, |q|));
    assert Run(x, |p|) + Run(x, |q|) == Run(x, |p + q|) && Run(c, |p|) + Run(c, |q|) == Run(c, |p + q|);
  }

  /** Doubled contents never leave the delimited state, whatever follows them. */
  lemma {:induction false} ScanDoubled(st: State, q: char, s: string, rest: string)
    requires Closes(st, q)
    ensures var d := Double(s, q); Reads(st, d, rest, Run(st, |d|), Run(ContentClass(st), |d|), st)
  {
    hide Trace, Classify;
    var d := Double(s, q);
    if s == [] {
      assert d + rest == rest;
      return;
    }
    var head, tail := if s[0] == q then [q, q] else [s[0]], Double(s[1..], q);
    ScanDoubled(st, q, s[1..], rest);
    assert Step(st, head + (tail + rest)) == Token(st, |head|, ContentClass(st));
    ReadsToken(st, head, tail + rest);
    ReadsRun(st, head, tail, rest, st, st, ContentClass(st));
  }

  /** What follows the closing delimiter decides what it is: alone, it ends the state at
      once; before another one it is the first half of an escape. */
  lemma ScanClosing(st: State, q: char, rest: string)
    requires Closes(st, q)
    ensures if rest != [] && rest[0] == q
      then Reads(st, [q, q], rest[1..], Run(st, 2), Run(ContentClass(st), 2), st)
      else Reads(st, [q], rest, Run(st, 1), Run(ClsCode, 1), Code)
  {
    hide Trace, Classify;
    if rest != [] && rest[0] == q {
      ReadsToken(st, [q, q], rest[1..]);
    } else {
      ReadsToken(st, [q], rest);
    }
  }

  /** A delimited text, opened from code. It is read inside its state to its last byte and the
      scan is back in code right after it, unless the same delimiter follows. */
  lemma ScanDelimited(open: char, st: State, q: char, s: string, rest: string)
    requires Closes(st, q) && (st == BracketId <==> open == '[') && (st == Literal ==> open == '\'') && st != QuotedId
    ensures var d := Double(s, q);
      if rest != [] && rest[0] == q
      then Reads(Code, [open] + d + [q, q], rest[1..], [Code] + Run(st, |d| + 2), [ClsCode] + Run(ContentClass(st), |d| + 2), st)
      else Reads(Code, [open] + d + [q], rest, [Code] + Run(st, |d| + 1), [ClsCode] + Run(ContentClass(st), |d|) + [ClsCode], Code)
  {
    hide Trace, Classify, Reads, Double;
    var d, c := Double(s, q), ContentClass(st);
    ScanClosing(st, q, rest);
    if rest != [] && rest[0] == q {
      var tail := rest[1..];
      ScanDoubled(st, q, s, [q, q] + tail);
      ReadsRun(st, d, [q, q], tail, st, st, c);
      ReadsToken(Code, [open], d + [q, q] + tail);
      ReadsThen(Code, [open], d + [q, q], tail, st, st, Run(Code, 1), Run(ClsCode, 1), Run(st, |d| + 2), Run(c, |d| + 2));
      assert [open] + (d + [q, q]) == [open] + d + [q, q];
      assert Run(Code, 1) == [Code] && Run(ClsCode, 1) == [ClsCode];
    } else {
      ScanDoubled(st, q, s, [q] + rest);
      ReadsThen(st, d, [q], rest, st, Code, Run(st, |d|), Run(c, |d|), Run(st, 1), Run(ClsCode, 1));
      assert Run(st, |d|) + Run(st, 1) == Run(st, |d| + 1);
      ReadsToken(Code, [open], d + [q] + rest);
      ReadsThen(Code, [open], d + [q], rest, st, Code, Run(Code, 1), Run(ClsCode, 1),
                Run(st, |d| + 1), Run(c, |d|) + Run(ClsCode, 1));
      assert [open] + (d + [q]) == [open] + d + [q];
      assert Run(Code, 1) == [Code] && Run(ClsCode, 1) == [ClsCode];
      assert [ClsCode] + (Run(c, |d|) + [ClsCode]) == [ClsCode] + Run(c, |d|) + [ClsCode];
    }
  }

  /** A quoted name is one bracketed identifier: every byte after the opening bracket is read
      inside it, and the scan is back in code exactly after the last one, unless another
      closing bracket follows, which joins the name's own to keep the identifier open. */
  lemma QuoteIdentScans(s: string, rest: string)
    ensures var q := QuoteIdent(s);
      Trace(Code, q + rest) ==
      if rest != [] && rest[0] == ']'
      then [Code] + Run(BracketId, |q|) + Trace(BracketId, rest[1..])
      else [Code] + Run(BracketId, |q| - 1) + Trace(Code, rest)
  {
    hide Trace, Classify;
    var d := Double(s, ']');
    ScanDelimited('[', BracketId, ']', s, rest);
    if rest != [] && rest[0] == ']' {
      assert QuoteIdent(s) + rest == ("[" + d + "]]") + rest[1..];
    }
  }

  /** The same for a quoted literal, whose bytes between the delimiters are literal ones. */
  lemma QuoteLiteralScans(s: string, rest: string)
    ensures var q := QuoteLiteral(s);
      if rest != [] && rest[0] == '\'' then
        && Trace(Code, q + rest) == [Code] + Run(Literal, |q|) + Trace(Literal, rest[1..])
        && Classify(Code, q + rest) == [ClsCode] + Run(ClsLiteral, |q|) + Classify(Literal, rest[1..])
      else
        && Trace(Code, q + rest) == [Code] + Run(Literal, |q| - 1) + Trace(Code, rest)
        && Classify(Code, q + rest) == [ClsCode] + Run(ClsLiteral, |q| - 2) + [ClsCode] + Classify(Code, rest)
  {
    hide Trace, Classify;
    var d := Double(s, '\'');
    ScanDelimited('\'', Literal, '\'', s, rest);
    if rest != [] && rest[0] == '\'' {
      assert QuoteLiteral(s) + rest == ("'" + d + "''") + rest[1..];
    }
  }

  /** Code without a byte that opens or closes anything. */
  predicate Plain(s: string) {
    forall i :: 0 <= i < |s| ==> !Structural(s[i]) || LineBreak(s[i])
  }

  lemma {:induction false} ScanPlain(p: string, rest: string)
    requires Plain(p)
    ensures Reads(Code, p, rest, Run(Code, |p|), Run(ClsCode, |p|), Code)
  {
    hide Trace, Classify;
    if p == [] {
      assert p + rest == rest;
      return;
    }
    ScanPlain(p[1..], rest);
    assert Step(Code, [p[0]] + (p[1..] + rest)) == Token(Code, 1, ClsCode);
    ReadsToken(Code, [p[0]], p[1..] + rest);
    ReadsRun(Code, [p[0]], p[1..], rest, Code, Code, ClsCode);
    assert [p[0]] + p[1..] == p;
  }
}
