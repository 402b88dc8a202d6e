/** The programs of collect/hintlint.go over the scan of HintScan. */
module HintLint {
  import opened HintScan
  import Scanner
  import Lint

  /** scanDataStatements: one pass over the text. */
  method ScanDataStatements(code: string) returns (out: seq<Stmt>, orphans: seq<nat>)
    ensures out == Scan(code).out && orphans == Scan(code).orphans
    ensures Ordered(code, out, |code|)
  {
    hide Ordered, EndsAtHint, WordStep;
    GoodStart(code);
    ScanKeepsOrder(code, START);
    var m := START;
    while m.i < |code|
      invariant Good(code, m) && ScanFrom(code, m) == Scan(code)
      decreases |code| - m.i
    {
      GoodStep(code, m);
      var c := code[m.i];
      if c == '[' {
        var j := SkipBracketed(code, m.i);
        m := m.(i := j);
      } else if c == '"' || c == '\'' {
        var j := m.i + 1;
        while j < |code| && code[j] != c
          invariant m.i < j <= |code|
          invariant QuoteEnd(code, j, c) == QuoteEnd(code, m.i + 1, c)
        {
          j := j + 1;
        }
        m := m.(i := if j < |code| then j + 1 else |code|);
      } else if c == '(' {
        m := m.(depth := m.depth + 1, i := m.i + 1);
      } else if c == ')' {
        if m.depth > 0 {
          m := m.(depth := m.depth - 1);
        }
        m := m.(i := m.i + 1);
      } else if c == ';' && m.depth == 0 {
        m := CloseAt(m, m.i).(prev0 := "", prev1 := "", i := m.i + 1);
      } else if WordByte(c) {
        m := ScanToken(code, m);
      } else {
        m := m.(i := m.i + 1);
      }
    }
    m := CloseAt(m, |code|);
    out, orphans := m.out, m.orphans;
  }

  /** The bracketed name at `i`, whose doubled closing brackets are escapes. */
  method SkipBracketed(code: string, i: nat) returns (e: nat)
    requires i < |code|
    ensures e == BracketEnd(code, i + 1)
  {
    var j := i + 1;
    while j < |code| && (code[j] != ']' || (j + 1 < |code| && code[j + 1] == ']'))
      invariant i < j <= |code| && BracketEnd(code, j) == BracketEnd(code, i + 1)
    {
      if code[j] == ']' {
        j := j + 1;
      }
      j := j + 1;
    }
    e := j + 1;
  }

  /** The word or number at the scan's position, and what it does. */
  method ScanToken(code: string, m: Machine) returns (r: Machine)
    requires m.i < |code| && WordByte(code[m.i])
    ensures r == WordStep(code, m)
  {
    hide ScanWord, KeyOf, AssignOp, NameStep, InnerStep, OptionStep, KeywordStep, OptionAt, Upper;
    var c, j := code[m.i], m.i;
    var s := m;
    if '0' <= c <= '9' {
      var hex := HexAt(code, m.i);
      j := if hex then j + 2 else j + 1;
      ghost var from := j;
      while j < |code| && (Digit(code[j]) || code[j] == '.' || (hex && HexDigit(code[j])))
        invariant from <= j <= |code| && DigitsEnd(code, j, hex) == DigitsEnd(code, from, hex)
      {
        j := j + 1;
      }
      s := s.(numberEnd := j);
    } else {
      while j < |code| && WordByte(code[j])
        invariant m.i <= j <= |code| && WordEnd(code, j) == WordEnd(code, m.i)
      {
        j := j + 1;
      }
    }
    var word := Upper(code[m.i..j]);
    var qualified := m.i > 0 && code[m.i - 1] == '.' && m.i != s.numberEnd;
    if c == '@' || c == '#' || qualified || '0' <= c <= '9' {
      return NameStep(code, s, j);
    }
    if s.depth > 0 {
      return InnerStep(s, word, j);
    }
    if word == "OPTION" && OptionAt(code, s.i).Some? {
      return OptionStep(code, s, j);
    }
    return KeywordStep(s, word, j);
  }

  /** Every statement that can read rows carries the hint, and no subquery stands where no
      statement could carry it. */
  predicate Accepted(code: string) {
    var m := Scan(code);
    (forall k :: 0 <= k < |m.out| && m.out[k].Reads() ==> m.out[k].hinted) && m.orphans == []
  }

  /** hintLint accepts a text exactly when every statement that can read rows carries the hint
      and no subquery stands where no statement could carry it; otherwise it names the first
      statement that offends, or the first such subquery. */
  method CheckHints(code: string) returns (accepted: bool, stmts: seq<Stmt>, at: nat)
    ensures stmts == Scan(code).out
    ensures accepted <==> Accepted(code)
    ensures !accepted ==>
      || (at in Scan(code).orphans && forall k :: 0 <= k < |stmts| && stmts[k].Reads() ==> stmts[k].hinted)
      || (exists k :: 0 <= k < |stmts| && stmts[k].start == at && stmts[k].Reads() && !stmts[k].hinted
            && forall l :: 0 <= l < k && stmts[l].Reads() ==> stmts[l].hinted)
  {
    hide Scan, Ordered;
    var orphans;
    at := 0;
    stmts, orphans := ScanDataStatements(code);
    for i := 0 to |stmts|
      invariant forall k :: 0 <= k < i && stmts[k].Reads() ==> stmts[k].hinted
    {
      if stmts[i].Reads() && !stmts[i].hinted {
        return false, stmts, stmts[i].start;
      }
    }
    if orphans != [] {
      return false, stmts, orphans[0];
    }
    accepted := true;
  }

  /** The text the scanner is given: comments stripped, separators made spaces, literals blanked. */
  function CodeOf(sql: string, wide: char -> bool): string {
    Scanner.BlankLiterals(Lint.Prepare(sql, wide))
  }

  function EmittedBy(code: string, stmts: seq<Stmt>): seq<string>
    requires forall k :: 0 <= k < |stmts| ==> InSpan(stmts[k], code)
  {
    if stmts == [] then []
    else
      var last := stmts[|stmts| - 1];
      assert InSpan(last, code);
      EmittedBy(code, stmts[..|stmts| - 1]) + (if last.Emits() then [code[last.start..last.end]] else [])
  }

  /** EmittingStatements: the texts of the statements that return rows, in order. */
  method EmittingStatements(sql: string, wide: char -> bool) returns (out: seq<string>)
    ensures Ordered(CodeOf(sql, wide), Scan(CodeOf(sql, wide)).out, |CodeOf(sql, wide)|)
    ensures out == EmittedBy(CodeOf(sql, wide), Scan(CodeOf(sql, wide)).out)
  {
    hide Scan, EndsAtHint;
    var stripped := Scanner.RewriteSQL(sql, true, false);
    var normal := Lint.NormalizeSeparators(stripped, wide);
    var code := Scanner.RewriteSQL(normal, false, true);
    var stmts, _ := ScanDataStatements(code);
    out := [];
    for i := 0 to |stmts|
      invariant out == EmittedBy(code, stmts[..i])
    {
      assert stmts[..i + 1][..i] == stmts[..i];
      if stmts[i].Emits() {
        out := out + [code[stmts[i].start..stmts[i].end]];
      }
    }
    assert stmts[..|stmts|] == stmts;
  }
}
