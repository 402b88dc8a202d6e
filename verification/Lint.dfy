/**
 The statement lint of collect/statementlint.go: the literals a script executes, and the
 recursion into them. The word lists of scanStatements are not modelled; the rules are a
 function from blanked code to a message, "" when they accept.
 */
module Lint {
  import opened Scanner
  import opened Quoting

  // ----- Separators -----

  /** What the server reads as a token separator. Among ASCII these are the control
      characters, a space being one already; `wide` decides the others. */
  predicate Separator(c: char, wide: char -> bool) {
    if c as int < 0x80 then c as int < 0x20 || c as int == 0x7f else wide(c)
  }

  function NormalChar(c: char, wide: char -> bool): char {
    if c in {'\n', '\r', '\t'} then c else if Separator(c, wide) then ' ' else c
  }

  function Normalize(s: string, wide: char -> bool): (r: string)
    ensures |r| == |s|
  {
    seq(|s|, i requires 0 <= i < |s| => NormalChar(s[i], wide))
  }

  /** normalizeSeparators, appending to a buffer. */
  method NormalizeSeparators(s: string, wide: char -> bool) returns (b: string)
    ensures b == Normalize(s, wide)
  {
    b := "";
    for i := 0 to |s|
      invariant b == Normalize(s, wide)[..i]
    {
      if s[i] == '\n' || s[i] == '\r' || s[i] == '\t' {
        b := b + [s[i]];
      } else if Separator(s[i], wide) {
        b := b + [' '];
      } else {
        b := b + [s[i]];
      }
    }
  }

  /** What every level of the lint makes its text into before any rule reads it. */
  function Prepare(sql: string, wide: char -> bool): (r: string)
    ensures |r| == |sql|
  {
    Normalize(Strip(sql), wide)
  }

  // ----- Which literals are executed -----

  function TrimRight(s: string, cut: set<char>): (r: string)
    ensures |r| <= |s| && r == s[..|r|]
    ensures r == [] || r[|r| - 1] !in cut
  {
    if s != [] && s[|s| - 1] in cut then TrimRight(s[..|s| - 1], cut) else s
  }

  const BLANKS := {' ', '\t', '\r', '\n'}
  const SPACES := {' ', '\t', '\r', '\n', '\U{000C}'}

  function Upper(c: char): char { if 'a' <= c <= 'z' then c - 'a' + 'A' else c }

  predicate WordChar(c: char) { 'a' <= c <= 'z' || 'A' <= c <= 'Z' || '0' <= c <= '9' || c == '_' }

  /** `code` ends with `word`, whatever its case, at a word boundary. */
  predicate EndsWithWord(code: string, word: string) {
    && |code| >= |word|
    && SameWord(code[|code| - |word|..], word)
    && (|code| > |word| ==> !WordChar(code[|code| - |word| - 1]))
  }

  predicate SameWord(s: string, word: string)
    requires |s| == |word|
  {
    forall i :: 0 <= i < |word| ==> Upper(s[i]) == word[i]
  }

  /** The two forms of dynamic execution, read backwards from the opening quote. */
  predicate OpensExecution(code: string) {
    var trimmed := TrimRight(code, BLANKS);
    var before := if trimmed != [] && trimmed[|trimmed| - 1] in {'N', 'n'}
                  then TrimRight(trimmed[..|trimmed| - 1], BLANKS) else trimmed;
    EndsWithWord(before, "SP_EXECUTESQL") || OpensExec(before)
  }

  predicate OpensExec(code: string) {
    var paren := TrimRight(code, SPACES);
    && paren != [] && paren[|paren| - 1] == '('
    && var word := TrimRight(paren[..|paren| - 1], SPACES);
       EndsWithWord(word, "EXEC") || EndsWithWord(word, "EXECUTE")
  }

  predicate IsExecuted(sql: string, start: nat)
    requires start <= |sql|
  {
    start > 0 && sql[start - 1] == '\'' && OpensExecution(sql[..start - 1])
  }

  /** Where the literal bytes that hold at `i` end. */
  function LiteralEnd(cls: seq<Class>, i: nat): (e: nat)
    requires i <= |cls|
    ensures i <= e <= |cls| && (forall k :: i <= k < e ==> cls[k] == ClsLiteral)
    ensures e < |cls| ==> cls[e] != ClsLiteral
    decreases |cls| - i
  {
    if i < |cls| && cls[i] == ClsLiteral then LiteralEnd(cls, i + 1) else i
  }

  function ExecutedFrom(sql: string, cls: seq<Class>, i: nat): seq<string>
    requires |cls| == |sql|
    decreases |sql| - i
  {
    if i >= |sql| then []
    else if cls[i] != ClsLiteral then ExecutedFrom(sql, cls, i + 1)
    else
      var e := LiteralEnd(cls, i);
      (if IsExecuted(sql, i) then [Unescape(sql[i..e])] else []) + ExecutedFrom(sql, cls, e + 1)
  }

  function Executed(sql: string): seq<string> { ExecutedFrom(sql, Classify(Code, sql), 0) }

  /** executedLiterals: one pass over the classes, collecting the contents that are executed. */
  method ExecutedLiterals(sql: string) returns (out: seq<string>)
    ensures out == Executed(sql)
  {
    hide Classify, OpensExecution, Unescape;
    var classes := ClassifySQL(sql);
    var cls := classes[..];
    out := [];
    var i := 0;
    while i < |sql|
      invariant Executed(sql) == out + ExecutedFrom(sql, cls, i)
    {
      if cls[i] != ClsLiteral {
        i := i + 1;
        continue;
      }
      var start := i;
      while i < |sql| && cls[i] == ClsLiteral
        invariant start <= i <= |sql|
        invariant LiteralEnd(cls, start) == LiteralEnd(cls, i)
      {
        i := i + 1;
      }
      if IsExecuted(sql, start) {
        out := out + [Unescape(sql[start..i])];
      }
      i := i + 1;
    }
  }

  // ----- The recursion -----

  const MAX_DYNAMIC_DEPTH := 3
  const TOO_DEEP := "dynamic SQL nested more than three deep"
  const INSIDE := " - inside the dynamic SQL this file executes"

  /** The rules and the separators, neither of which the lint looks into. */
  datatype Setting = Setting(rules: string -> string, wide: char -> bool)

  /** statementLintDepth: the message of the first refusal, "" when the text is accepted. */
  function LintDepth(sql: string, depth: nat, env: Setting): string
    decreases if depth <= MAX_DYNAMIC_DEPTH then MAX_DYNAMIC_DEPTH - depth else 0, 1, 0
  {
    var text := Prepare(sql, env.wide);
    var msg := env.rules(BlankLiterals(text));
    if msg != "" then msg
    else if Executed(text) != [] && depth >= MAX_DYNAMIC_DEPTH then TOO_DEEP
    else LintAll(Executed(text), depth, env)
  }

  function LintAll(lits: seq<string>, depth: nat, env: Setting): string
    requires lits != [] ==> depth < MAX_DYNAMIC_DEPTH
    decreases if depth <= MAX_DYNAMIC_DEPTH then MAX_DYNAMIC_DEPTH - depth else 0, 0, |lits|
  {
    if lits == [] then ""
    else
      var msg := LintDepth(lits[0], depth + 1, env);
      if msg != "" then msg + INSIDE else LintAll(lits[1..], depth, env)
  }

  function StatementLint(sql: string, env: Setting): string { LintDepth(sql, 0, env) }

  /** `inner` is executed by `sql`, `level` literals deep. */
  ghost predicate Embedded(sql: string, inner: string, level: nat, env: Setting)
    decreases level
  {
    if level == 0 then inner == sql
    else exists lit :: lit in Executed(Prepare(sql, env.wide)) && Embedded(lit, inner, level - 1, env)
  }

  predicate RulesAccept(sql: string, env: Setting) {
    env.rules(BlankLiterals(Prepare(sql, env.wide))) == ""
  }

  ghost predicate AllAccepted(sql: string, depth: nat, env: Setting) {
    forall inner, level: nat :: Embedded(sql, inner, level, env) ==>
      RulesAccept(inner, env) && depth + level <= MAX_DYNAMIC_DEPTH
  }

  lemma EmbeddedBelow(sql: string, lit: string, inner: string, level: nat, env: Setting)
    requires lit in Executed(Prepare(sql, env.wide)) && Embedded(lit, inner, level, env)
    ensures Embedded(sql, inner, level + 1, env)
  {}

  lemma {:induction false} LintAllMeaning(lits: seq<string>, depth: nat, env: Setting)
    requires lits != [] ==> depth < MAX_DYNAMIC_DEPTH
    ensures LintAll(lits, depth, env) == "" <==> forall lit :: lit in lits ==> LintDepth(lit, depth + 1, env) == ""
  {
    if lits == [] {
      assert LintAll(lits, depth, env) == "";
      return;
    }
    LintAllMeaning(lits[1..], depth, env);
    assert LintAll(lits, depth, env) == "" <==> LintDepth(lits[0], depth + 1, env) == "" && LintAll(lits[1..], depth, env) == "";
    assert lits[0] in lits && forall lit :: lit in lits[1..] ==> lit in lits;
    forall lit | lit in lits && LintAll(lits, depth, env) == ""
      ensures LintDepth(lit, depth + 1, env) == ""
    {
      assert lit == lits[0] || lit in lits[1..];
    }
  }

  /** The lint accepts a text exactly when its rules accept every text it executes, at every
      level, and none lies more than three levels down. */
  lemma {:induction false} AcceptedMeaning(sql: string, depth: nat, env: Setting)
    requires depth <= MAX_DYNAMIC_DEPTH
    ensures LintDepth(sql, depth, env) == "" <==> AllAccepted(sql, depth, env)
    decreases MAX_DYNAMIC_DEPTH - depth
  {
    hide LintAll, Executed, Prepare;
    var lits := Executed(Prepare(sql, env.wide));
    assert Embedded(sql, sql, 0, env);
    if lits != [] && depth == MAX_DYNAMIC_DEPTH {
      assert lits[0] in lits && Embedded(lits[0], lits[0], 0, env);
      EmbeddedBelow(sql, lits[0], lits[0], 0, env);
      return;
    }
    LintAllMeaning(lits, depth, env);
    forall lit | lit in lits ensures LintDepth(lit, depth + 1, env) == "" <==> AllAccepted(lit, depth + 1, env) {
      AcceptedMeaning(lit, depth + 1, env);
    }
    if AllAccepted(sql, depth, env) {
      forall lit, inner, level: nat | lit in lits && Embedded(lit, inner, level, env)
        ensures RulesAccept(inner, env) && depth + 1 + level <= MAX_DYNAMIC_DEPTH
      {
        EmbeddedBelow(sql, lit, inner, level, env);
      }
    }
    if RulesAccept(sql, env) && forall lit :: lit in lits ==> AllAccepted(lit, depth + 1, env) {
      forall inner, level: nat | Embedded(sql, inner, level, env)
        ensures RulesAccept(inner, env) && depth + level <= MAX_DYNAMIC_DEPTH
      {
        if level > 0 {
          var lit :| lit in lits && Embedded(lit, inner, level - 1, env);
        }
      }
    }
  }

  // ----- Executing a quoted literal -----

  lemma {:induction false} NothingExecuted(sql: string, cls: seq<Class>, i: nat)
    requires |cls| == |sql| && forall k :: i <= k < |sql| ==> cls[k] != ClsLiteral
    ensures ExecutedFrom(sql, cls, i) == []
    decreases |sql| - i
  {
    if i < |sql| { NothingExecuted(sql, cls, i + 1); }
  }

  lemma {:induction false} SkipCode(sql: string, cls: seq<Class>, i: nat, j: nat)
    requires |cls| == |sql| && i <= j <= |sql| && forall k :: i <= k < j ==> cls[k] != ClsLiteral
    ensures ExecutedFrom(sql, cls, i) == ExecutedFrom(sql, cls, j)
    decreases j - i
  {
    if i < j { SkipCode(sql, cls, i + 1, j); }
  }

  /** A quoted literal among plain code: executed exactly when the code before it opens an
      execution, and then read back as the very string that was quoted. Nothing is executed
      for an empty string, whose literal has no contents. */
  lemma ExecutedQuoted(pre: string, s: string, post: string)
    requires Plain(pre) && Plain(post)
    ensures Executed(pre + QuoteLiteral(s) + post) ==
      if s != "" && OpensExecution(pre) then [s] else []
  {
    hide Trace, Classify, OpensExecution, Reads, Double, Unescape;
    var sql, d := pre + QuoteLiteral(s) + post, Double(s, '\'');
    var cls := QuotedClasses(pre, s, post);
    var start, end := |pre| + 1, |pre| + 1 + |d|;
    assert sql[start..end] == d && sql[start - 1] == '\'' && sql[..start - 1] == pre;
    SkipCode(sql, cls, 0, start);
    if s == "" {
      NothingExecuted(sql, cls, 0);
    } else {
      assert cls[start] == ClsLiteral && cls[end] == ClsCode;
      assert LiteralEnd(cls, start) == end;
      NothingExecuted(sql, cls, end + 1);
      UnescapeDouble(s);
    }
  }

  lemma QuotedClasses(pre: string, s: string, post: string) returns (cls: seq<Class>)
    requires Plain(pre) && Plain(post)
    ensures cls == Classify(Code, pre + QuoteLiteral(s) + post)
    ensures cls == Run(ClsCode, |pre| + 1) + Run(ClsLiteral, |Double(s, '\'')|) + Run(ClsCode, 1 + |post|)
  {
    hide Trace, Classify, Double;
    cls := Classify(Code, pre + QuoteLiteral(s) + post);
    PlainClasses(pre, QuoteLiteral(s) + post);
    QuoteLiteralScans(s, post);
    PlainClasses(post, "");
    assert pre + QuoteLiteral(s) + post == pre + (QuoteLiteral(s) + post);
  }

  lemma PlainClasses(p: string, rest: string)
    requires Plain(p)
    ensures Classify(Code, p + rest) == Run(ClsCode, |p|) + Classify(Code, rest)
    ensures Classify(Code, p) == Run(ClsCode, |p|)
  {
    ScanPlain(p, rest);
    ScanPlain(p, "");
    assert p + "" == p;
  }
}
