/**
 The lint of a script as a whole, from collect/queryset.go: the statement rules, then the hint
 contract in the code and in every text the script executes, then the count of result sets.
 */
module ContractLint {
  import Scanner
  import opened Lint
  import LintFacts
  import HintScan
  import HintLint

  predicate HintedText(sql: string, wide: char -> bool) { HintLint.Accepted(HintLint.CodeOf(sql, wide)) }

  // ----- Dynamic SQL -----

  /** Deeper than the limit nothing is looked at. */
  predicate DynamicHints(lit: string, depth: nat, env: Setting)
    decreases if depth <= MAX_DYNAMIC_DEPTH then MAX_DYNAMIC_DEPTH + 1 - depth else 0
  {
    depth > MAX_DYNAMIC_DEPTH
    || (HintedText(lit, env.wide)
        && forall k :: 0 <= k < |Executed(Prepare(lit, env.wide))| ==> DynamicHints(Executed(Prepare(lit, env.wide))[k], depth + 1, env))
  }

  /** Every text executed by `sql`, itself included, down to the limit. */
  ghost predicate HintedBelow(sql: string, depth: nat, env: Setting) {
    forall inner, level: nat :: Embedded(sql, inner, level, env) && depth + level <= MAX_DYNAMIC_DEPTH ==> HintedText(inner, env.wide)
  }

  lemma {:induction false} DynamicMeaning(sql: string, depth: nat, env: Setting)
    ensures DynamicHints(sql, depth, env) <==> HintedBelow(sql, depth, env)
    decreases if depth <= MAX_DYNAMIC_DEPTH then MAX_DYNAMIC_DEPTH + 1 - depth else 0
  {
    hide HintedText, Executed, Prepare;
    if depth > MAX_DYNAMIC_DEPTH { return; }
    var lits := Executed(Prepare(sql, env.wide));
    forall k | 0 <= k < |lits|
      ensures DynamicHints(lits[k], depth + 1, env) <==> HintedBelow(lits[k], depth + 1, env)
    {
      DynamicMeaning(lits[k], depth + 1, env);
    }
    BelowEach(sql, depth, env);
  }

  /** What holds of a text and all below it holds of it and of all below each text it executes. */
  lemma BelowEach(sql: string, depth: nat, env: Setting)
    requires depth <= MAX_DYNAMIC_DEPTH
    ensures var lits := Executed(Prepare(sql, env.wide));
      HintedBelow(sql, depth, env) <==>
        HintedText(sql, env.wide) && forall k :: 0 <= k < |lits| ==> HintedBelow(lits[k], depth + 1, env)
  {
    hide HintedText, Executed, Prepare;
    var lits := Executed(Prepare(sql, env.wide));
    assert Embedded(sql, sql, 0, env);
    if HintedBelow(sql, depth, env) {
      forall k, inner, level: nat | 0 <= k < |lits| && Embedded(lits[k], inner, level, env) && depth + 1 + level <= MAX_DYNAMIC_DEPTH
        ensures HintedText(inner, env.wide)
      {
        EmbeddedBelow(sql, lits[k], inner, level, env);
      }
    }
    if HintedText(sql, env.wide) && forall k :: 0 <= k < |lits| ==> HintedBelow(lits[k], depth + 1, env) {
      forall inner, level: nat | Embedded(sql, inner, level, env) && depth + level <= MAX_DYNAMIC_DEPTH
        ensures HintedText(inner, env.wide)
      {
        if level > 0 {
          var lit :| lit in lits && Embedded(lit, inner, level - 1, env);
          var k :| 0 <= k < |lits| && lits[k] == lit;
          assert HintedBelow(lits[k], depth + 1, env);
        }
      }
    }
  }

  method DynamicHintLint(lit: string, depth: nat, env: Setting) returns (accepted: bool)
    ensures accepted == DynamicHints(lit, depth, env)
    decreases if depth <= MAX_DYNAMIC_DEPTH then MAX_DYNAMIC_DEPTH + 1 - depth else 0
  {
    hide Executed, HintScan.Scan, HintLint.Accepted, HintLint.CodeOf, Prepare;
    if depth > MAX_DYNAMIC_DEPTH { return true; }
    var hinted, _, _ := HintLint.CheckHints(HintLint.CodeOf(lit, env.wide));
    if !hinted { return false; }
    var sql := Prepare(lit, env.wide);
    var lits := ExecutedLiterals(sql);
    for i := 0 to |lits|
      invariant forall k :: 0 <= k < i ==> DynamicHints(lits[k], depth + 1, env)
    {
      var inner := DynamicHintLint(lits[i], depth + 1, env);
      if !inner { return false; }
    }
    return true;
  }

  // ----- The whole lint -----

  function Emitting(stmts: seq<HintScan.Stmt>): nat {
    if stmts == [] then 0 else Emitting(stmts[..|stmts| - 1]) + if stmts[|stmts| - 1].Emits() then 1 else 0
  }

  /** How many statements of a script return rows to the client. */
  function Returns(sql: string, wide: char -> bool): nat { Emitting(HintScan.Scan(HintLint.CodeOf(sql, wide)).out) }

  /** The hint rules and the count, on text whose comments are already stripped. `head` stands
      for the settings every script must begin with. */
  method CheckContract(sql: string, declared: nat, head: string -> bool, env: Setting) returns (accepted: bool)
    requires Scanner.Strip(sql) == sql
    ensures accepted <==> head(sql) && DynamicHints(sql, 0, env) && Returns(sql, env.wide) == declared
  {
    hide Executed, HintScan.Scan, Scanner.Strip;
    if !head(sql) { return false; }
    var normal := NormalizeSeparators(sql, env.wide);
    var code := Scanner.RewriteSQL(normal, false, true);
    assert normal == Prepare(sql, env.wide) && code == HintLint.CodeOf(sql, env.wide);
    var hinted, stmts, _ := HintLint.CheckHints(code);
    if !hinted { return false; }
    var lits := ExecutedLiterals(normal);
    for i := 0 to |lits|
      invariant forall k :: 0 <= k < i ==> DynamicHints(lits[k], 1, env)
    {
      var inner := DynamicHintLint(lits[i], 1, env);
      if !inner { return false; }
    }
    var emit := 0;
    for i := 0 to |stmts|
      invariant emit == Emitting(stmts[..i])
    {
      assert stmts[..i + 1][..i] == stmts[..i];
      if stmts[i].Emits() { emit := emit + 1; }
    }
    assert stmts[..|stmts|] == stmts;
    return emit == declared;
  }

  /** What the lint promises of a script it accepts. */
  ghost predicate Contract(sql: string, declared: nat, head: string -> bool, env: Setting) {
    && declared > 0 && head(Scanner.Strip(sql))
    && (forall inner, level: nat :: Embedded(sql, inner, level, env) ==>
          level <= MAX_DYNAMIC_DEPTH && RulesAccept(inner, env) && HintedText(inner, env.wide))
    && Returns(sql, env.wide) == declared
  }

  /** lint: a script is accepted exactly when the script and every text it executes, however
      deeply, obeys the statement rules and the hint contract, and it returns as many result
      sets as it declares. The depth at which the hint rules stop looking hides nothing. */
  method LintScript(sql: string, declared: nat, head: string -> bool, env: Setting) returns (accepted: bool)
    ensures accepted <==> Contract(sql, declared, head, env)
  {
    hide HintScan.Scan, Executed, LintDepth, DynamicHints, HintedText, Emitting, RulesAccept;
    var stripped := Scanner.RewriteSQL(sql, true, false);
    assert stripped == Scanner.Strip(sql);
    Scanner.StripAndBlankCommute(sql);
    LintFacts.CommentsDoNotMatter(sql, 0, env);
    LintFacts.PrepareTwice(sql, env.wide);
    AcceptedMeaning(sql, 0, env);
    DynamicMeaning(stripped, 0, env);
    SameBelow(sql, env);
    if declared == 0 { return false; }
    if StatementLint(stripped, env) != "" {
      assert !AllAccepted(sql, 0, env);
      return false;
    }
    accepted := CheckContract(stripped, declared, head, env);
    assert HintLint.CodeOf(stripped, env.wide) == HintLint.CodeOf(sql, env.wide);
  }

  /** Comments of the script make no difference to what is hinted in it. */
  lemma SameBelow(sql: string, env: Setting)
    ensures HintedBelow(Scanner.Strip(sql), 0, env) <==> HintedBelow(sql, 0, env)
  {
    hide Executed, Scanner.Strip, Prepare;
    LintFacts.PrepareTwice(sql, env.wide);
    BelowEach(sql, 0, env);
    BelowEach(Scanner.Strip(sql), 0, env);
    assert HintLint.CodeOf(Scanner.Strip(sql), env.wide) == HintLint.CodeOf(sql, env.wide);
  }
}
