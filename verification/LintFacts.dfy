/** What no edit outside the executed text can change in the lint's verdict, and how deep it goes. */
module LintFacts {
  import opened Scanner
  import opened Quoting
  import opened Lint

  // ----- The prepared text -----

  lemma NormalizeKeepsClasses(s: string, wide: char -> bool)
    ensures Classify(Code, Normalize(s, wide)) == Classify(Code, s)
  {
    hide Classify;
    Rescan(Code, s, Normalize(s, wide), false);
    assert Erase(Classify(Code, s), false) == Classify(Code, s);
  }

  lemma PrepareKeepsClasses(s: string, wide: char -> bool)
    ensures Classify(Code, Prepare(s, wide)) == Erase(Classify(Code, s), true)
  {
    hide Classify;
    NormalizeKeepsClasses(Strip(s), wide);
    RewriteKeepsClasses(s, true, false);
  }

  lemma PrepareTwice(s: string, wide: char -> bool)
    ensures Prepare(Prepare(s, wide), wide) == Prepare(s, wide) == Prepare(Strip(s), wide)
  {
    hide Classify;
    PrepareKeepsClasses(s, wide);
    StripNoComment(Prepare(s, wide));
    StripAndBlankCommute(s);
  }

  /** Stripping the comments of a script, or turning its separators into spaces, changes
      nothing in the verdict, at any depth. */
  lemma CommentsDoNotMatter(sql: string, depth: nat, env: Setting)
    ensures LintDepth(Strip(sql), depth, env) == LintDepth(sql, depth, env)
    ensures LintDepth(Prepare(sql, env.wide), depth, env) == LintDepth(sql, depth, env)
  {
    hide Strip, Prepare, BlankLiterals, Executed, LintAll;
    PrepareTwice(sql, env.wide);
  }

  // ----- The opening of an execution is read no further back than the last quote -----

  lemma {:induction false} TrimLocal(p: string, x: string, cut: set<char>)
    requires x != [] && x[0] !in cut
    ensures TrimRight(p + x, cut) == p + TrimRight(x, cut)
    ensures TrimRight(x, cut) != [] && TrimRight(x, cut)[0] == x[0]
  {
    if x[|x| - 1] in cut {
      TrimLocal(p, x[..|x| - 1], cut);
      assert (p + x)[..|p + x| - 1] == p + x[..|x| - 1];
    }
  }

  lemma EndsLocal(p: string, x: string, word: string)
    requires x != [] && x[0] == '\'' && word != [] && '\'' !in word
    ensures EndsWithWord(p + x, word) == EndsWithWord(x, word)
  {
    if |word| <= |x| {
      assert (p + x)[|p + x| - |word|..] == x[|x| - |word|..];
    }
    if |word| >= |x| && |word| <= |p + x| {
      var tail := (p + x)[|p + x| - |word|..];
      assert tail[|word| - |x|] == '\'' == Upper('\'');
      assert word[|word| - |x|] in word;
    }
  }

  lemma OpensExecLocal(p: string, x: string)
    requires x != [] && x[0] == '\''
    ensures OpensExec(p + x) == OpensExec(x)
  {
    hide TrimRight, EndsWithWord;
    TrimLocal(p, x, SPACES);
    var paren := TrimRight(x, SPACES);
    if paren[|paren| - 1] == '(' {
      assert (p + paren)[..|p + paren| - 1] == p + paren[..|paren| - 1];
      TrimLocal(p, paren[..|paren| - 1], SPACES);
      var word := TrimRight(paren[..|paren| - 1], SPACES);
      EndsLocal(p, word, "EXEC");
      EndsLocal(p, word, "EXECUTE");
    }
  }

  lemma OpensLocal(p: string, x: string)
    requires x != [] && x[0] == '\''
    ensures OpensExecution(p + x) == OpensExecution(x)
  {
    hide TrimRight, EndsWithWord, OpensExec;
    TrimLocal(p, x, BLANKS);
    var trimmed := TrimRight(x, BLANKS);
    var cut := trimmed[|trimmed| - 1] in {'N', 'n'};
    if cut {
      assert (p + trimmed)[..|p + trimmed| - 1] == p + trimmed[..|trimmed| - 1];
      TrimLocal(p, trimmed[..|trimmed| - 1], BLANKS);
    }
    var before := if cut then TrimRight(trimmed[..|trimmed| - 1], BLANKS) else trimmed;
    EndsLocal(p, before, "SP_EXECUTESQL");
    OpensExecLocal(p, before);
  }

  /** A run of literal bytes ends at its closing quote, and no other run begins right there. */
  lemma {:induction false} LiteralCloses(st: State, s: string, m: nat)
    requires m + 1 < |s| && Classify(st, s)[m] == ClsLiteral && Classify(st, s)[m + 1] != ClsLiteral
    ensures s[m + 1] == '\'' && (m + 2 < |s| ==> Classify(st, s)[m + 2] != ClsLiteral)
    decreases |s|
  {
    hide Step, Classify;
    var cls, tok := Classify(st, s), Step(st, s);
    var w, rest := tok.width, s[tok.width..];
    ClassifyStep(st, s);
    StepLiteral(st, s);
    assert cls[w..] == Classify(tok.next, rest);
    if m >= w {
      assert cls[w..][m - w] == cls[m] && cls[w..][m + 1 - w] == cls[m + 1];
      LiteralCloses(tok.next, rest, m - w);
      assert m + 2 < |s| ==> cls[w..][m + 2 - w] == cls[m + 2];
    } else {
      assert forall k :: 0 <= k < w ==> cls[k] == cls[..w][k] == tok.cls;
      assert m + 1 == w && cls[w..][0] == cls[m + 1];
      LiteralEndsHere(rest);
      assert m + 2 < |s| ==> cls[w..][1] == cls[m + 2];
    }
  }

  lemma StepLiteral(st: State, s: string)
    requires s != []
    ensures Step(st, s).cls == ClsLiteral ==> Step(st, s).next == Literal
    ensures Step(Literal, s).cls != ClsLiteral ==> s[0] == '\'' && Step(Literal, s) == Token(Code, 1, ClsCode)
    ensures Step(Code, s).cls != ClsLiteral
  {}

  lemma LiteralEndsHere(s: string)
    requires s != [] && Classify(Literal, s)[0] != ClsLiteral
    ensures s[0] == '\'' && (|s| > 1 ==> Classify(Literal, s)[1] != ClsLiteral)
  {
    hide Step;
    ClassifyStep(Literal, s);
    StepLiteral(Literal, s);
    assert Classify(Literal, s)[0] == Classify(Literal, s)[..Step(Literal, s).width][0];
    if |s| > 1 {
      ClassifyStep(Code, s[1..]);
      StepLiteral(Code, s[1..]);
      assert Classify(Code, s[1..])[0] == Classify(Code, s[1..])[..Step(Code, s[1..]).width][0];
    }
  }

  // ----- Blanking what is not executed -----

  function RunStart(cls: seq<Class>, i: nat): (j: nat)
    requires i < |cls|
    ensures j <= i && (j > 0 ==> cls[j - 1] != ClsLiteral)
  {
    if i > 0 && cls[i - 1] == ClsLiteral then RunStart(cls, i - 1) else i
  }

  function UnexecutedByte(sql: string, cls: seq<Class>, i: nat): char
    requires i < |sql| == |cls|
  {
    if cls[i] == ClsLiteral && !IsExecuted(sql, RunStart(cls, i)) then Blank(sql[i]) else sql[i]
  }

  /** The text with the contents of every literal that is not executed turned to spaces. */
  function BlankUnexecuted(sql: string): (r: string)
    ensures |r| == |sql|
  {
    var cls := Classify(Code, sql);
    seq(|sql|, i requires 0 <= i < |sql| => UnexecutedByte(sql, cls, i))
  }

  lemma BlankUnexecutedClasses(sql: string)
    ensures Classify(Code, BlankUnexecuted(sql)) == Classify(Code, sql)
  {
    hide Classify, IsExecuted, Erase;
    Rescan(Code, sql, BlankUnexecuted(sql), false);
    EraseNothing(Classify(Code, sql));
  }

  lemma EraseNothing(cls: seq<Class>)
    ensures Erase(cls, false) == cls
  {}

  /** The code before the byte `j` reads the same in both texts from `n` on, and before that
      the last quote is reached, or the start of the text. */
  lemma {:induction false} SameOpening(sql: string, t: string, j: nat, n: nat)
    requires n <= j < |sql| == |t| && t == BlankUnexecuted(sql)
    requires Classify(Code, sql)[j] != ClsLiteral && j + 1 < |sql| && Classify(Code, sql)[j + 1] == ClsLiteral
    requires forall k :: n <= k <= j ==> Classify(Code, sql)[k] != ClsLiteral
    ensures OpensExecution(sql[..j]) == OpensExecution(t[..j])
    decreases n
  {
    hide Classify, OpensExecution, IsExecuted;
    var cls := Classify(Code, sql);
    assert forall k :: n <= k < j ==> t[k] == sql[k];
    if n == 0 {
      assert sql[..j] == t[..j];
    } else if cls[n - 1] != ClsLiteral {
      SameOpening(sql, t, j, n - 1);
    } else {
      LiteralCloses(Code, sql, n - 1);
      assert n < j;
      assert sql[n..j] == t[n..j];
      assert sql[..j] == sql[..n] + sql[n..j] && t[..j] == t[..n] + t[n..j];
      OpensLocal(sql[..n], sql[n..j]);
      OpensLocal(t[..n], t[n..j]);
    }
  }

  lemma SameExecution(sql: string, i: nat)
    requires i < |sql| && Classify(Code, sql)[i] == ClsLiteral
    requires i > 0 ==> Classify(Code, sql)[i - 1] != ClsLiteral
    ensures IsExecuted(BlankUnexecuted(sql), i) == IsExecuted(sql, i)
  {
    hide Classify, OpensExecution;
    if i > 0 { SameOpening(sql, BlankUnexecuted(sql), i - 1, i - 1); }
  }

  lemma {:induction false} RunOf(cls: seq<Class>, i: nat, k: nat)
    requires i <= k < |cls| && (i > 0 ==> cls[i - 1] != ClsLiteral)
    requires forall m :: i <= m <= k ==> cls[m] == ClsLiteral
    ensures RunStart(cls, k) == i
    decreases k
  {
    if k > i { RunOf(cls, i, k - 1); }
  }

  lemma {:induction false} SameExecuted(sql: string, i: nat)
    requires 0 < i < |sql| ==> Classify(Code, sql)[i - 1] != ClsLiteral
    ensures ExecutedFrom(BlankUnexecuted(sql), Classify(Code, sql), i) == ExecutedFrom(sql, Classify(Code, sql), i)
    decreases |sql| - i
  {
    hide Classify, IsExecuted, Unescape;
    var cls, t := Classify(Code, sql), BlankUnexecuted(sql);
    if i >= |sql| { return; }
    if cls[i] != ClsLiteral {
      SameExecuted(sql, i + 1);
    } else {
      var e := LiteralEnd(cls, i);
      SameExecution(sql, i);
      forall k | i <= k < e ensures IsExecuted(sql, i) ==> t[k] == sql[k] { RunOf(cls, i, k); }
      assert IsExecuted(sql, i) ==> t[i..e] == sql[i..e];
      SameExecuted(sql, e + 1);
    }
  }

  lemma PreparedTextIsPlain(sql: string, wide: char -> bool)
    requires Prepare(sql, wide) == sql
    ensures Prepare(BlankUnexecuted(sql), wide) == BlankUnexecuted(sql)
  {
    hide Classify, IsExecuted;
    var t := BlankUnexecuted(sql);
    BlankUnexecutedClasses(sql);
    PrepareKeepsClasses(sql, wide);
    StripNoComment(t);
    StripNoComment(sql);
    forall i | 0 <= i < |sql| ensures NormalChar(t[i], wide) == t[i] {
      assert Normalize(sql, wide)[i] == sql[i];
    }
  }

  /** Whatever an unexecuted literal holds, the verdict is the same. */
  lemma UnexecutedLiteralsDoNotMatter(sql: string, depth: nat, env: Setting)
    requires Prepare(sql, env.wide) == sql
    ensures LintDepth(BlankUnexecuted(sql), depth, env) == LintDepth(sql, depth, env)
  {
    hide Classify, Prepare, ExecutedFrom, LintAll, IsExecuted;
    var t := BlankUnexecuted(sql);
    BlankUnexecutedClasses(sql);
    PreparedTextIsPlain(sql, env.wide);
    SameExecuted(sql, 0);
    assert BlankLiterals(t) == BlankLiterals(sql);
  }

  // ----- Nested dynamic SQL -----

  /** `s` handed to EXEC, n times over. */
  function Nest(n: nat, s: string): string {
    if n == 0 then s else "EXEC(" + QuoteLiteral(Nest(n - 1, s)) + ")"
  }

  lemma NormalizeConcat(a: string, b: string, wide: char -> bool)
    ensures Normalize(a + b, wide) == Normalize(a, wide) + Normalize(b, wide)
  {}

  lemma {:induction false} NormalizeDouble(s: string, wide: char -> bool)
    ensures Normalize(Double(s, '\''), wide) == Double(Normalize(s, wide), '\'')
  {
    if s == [] { return; }
    NormalizeDouble(s[1..], wide);
    var head := if s[0] == '\'' then "''" else [s[0]];
    NormalizeConcat(head, Double(s[1..], '\''), wide);
    assert Normalize(s, wide)[1..] == Normalize(s[1..], wide);
    assert Normalize(s, wide)[0] == NormalChar(s[0], wide);
    assert Normalize(head, wide) == if s[0] == '\'' then "''" else [NormalChar(s[0], wide)];
  }

  /** What one level of EXEC executes is the text below it, its separators normalised. */
  lemma NestExecutes(s: string, wide: char -> bool)
    ensures Executed(Prepare("EXEC(" + QuoteLiteral(s) + ")", wide)) == if s == "" then [] else [Normalize(s, wide)]
  {
    hide Classify, ExecutedFrom, Double, Trace;
    var sql := "EXEC(" + QuoteLiteral(s) + ")";
    var cls := QuotedClasses("EXEC(", s, ")");
    StripNoComment(sql);
    NormalizeDouble(s, wide);
    var t := "EXEC(" + QuoteLiteral(Normalize(s, wide)) + ")";
    assert Prepare(sql, wide) == t;
    ExecutedQuoted("EXEC(", Normalize(s, wide), ")");
    ExecOpens();
  }

  lemma TrimNothing(s: string, cut: set<char>)
    requires s != [] && s[|s| - 1] !in cut
    ensures TrimRight(s, cut) == s
  {}

  lemma ExecOpens()
    ensures OpensExecution("EXEC(") && Plain("EXEC(") && Plain(")")
  {
    hide TrimRight, EndsWithWord;
    TrimNothing("EXEC(", BLANKS);
    TrimNothing("EXEC(", SPACES);
    TrimNothing("EXEC", SPACES);
    assert "EXEC("[..4] == "EXEC";
    ExecIsExec();
  }

  lemma ExecIsExec()
    ensures EndsWithWord("EXEC", "EXEC")
  {
    assert "EXEC"[0..] == "EXEC";
  }

  lemma NormalizeExec(wide: char -> bool)
    ensures Normalize("EXEC('", wide) == "EXEC('" && Normalize("')", wide) == "')"
  {}

  lemma {:induction false} NormalizeNest(n: nat, s: string, wide: char -> bool)
    ensures Normalize(Nest(n, s), wide) == Nest(n, Normalize(s, wide))
  {
    hide Normalize, Double;
    if n > 0 {
      NormalizeNest(n - 1, s, wide);
      NormalizeDouble(Nest(n - 1, s), wide);
      var d := Double(Nest(n - 1, s), '\'');
      NormalizeConcat("EXEC('" + d, "')", wide);
      NormalizeConcat("EXEC('", d, wide);
      NormalizeExec(wide);
      ExecText(Nest(n - 1, s));
      ExecText(Nest(n - 1, Normalize(s, wide)));
    }
  }

  lemma ExecText(s: string)
    ensures "EXEC(" + QuoteLiteral(s) + ")" == "EXEC('" + Double(s, '\'') + "')"
  {
    hide Double;
  }

  /** More than three levels of EXEC are refused, whatever the rules accept and whatever is
      executed at the bottom. */
  lemma {:induction false} DeepNestingRefused(n: nat, s: string, depth: nat, env: Setting)
    requires s != "" && depth <= MAX_DYNAMIC_DEPTH && depth + n > MAX_DYNAMIC_DEPTH
    ensures LintDepth(Nest(n, s), depth, env) != ""
    decreases n
  {
    hide Executed, Prepare, Normalize, QuoteLiteral, BlankLiterals;
    var below := Nest(n - 1, s);
    assert below != "";
    NestExecutes(below, env.wide);
    NormalizeNest(n - 1, s, env.wide);
    if depth < MAX_DYNAMIC_DEPTH {
      DeepNestingRefused(n - 1, Normalize(s, env.wide), depth + 1, env);
      LintAllMeaning(Executed(Prepare(Nest(n, s), env.wide)), depth, env);
      assert Normalize(below, env.wide) in Executed(Prepare(Nest(n, s), env.wide));
    }
  }
}
