/**
 The statement scanner of collect/hintlint.go. It walks code whose comments are stripped and
 whose literals are blanked, tells the data statements apart, and credits each one with the
 query hint that ends it.
 */
module HintScan {
  import opened Options

  datatype Kind = KindCTE | KindSelect | KindInsert | KindUpdate | KindDelete | KindMerge

  datatype Source = NoSource | FromSelect | FromValues | FromExec

  /** One data statement: `start` and `end` are its offsets in the scanned text. */
  datatype Stmt = Stmt(kind: Kind, start: nat, end: nat, hinted: bool, otherHint: bool,
                       assigns: bool, into: bool, from: bool, subquery: bool, source: Source,
                       output: bool, outputInto: bool, cursor: bool, leading: bool)
  {
    /** The statement returns rows to the client. */
    predicate Emits() {
      match kind
      case KindSelect => !assigns && !into && !cursor
      case KindCTE => false
      case _ => output && !outputInto
    }

    /** The statement can read rows, and so must carry the hint. */
    predicate Reads() {
      match kind
      case KindSelect => from || subquery || Emits()
      case KindInsert => source == FromSelect || subquery
      case KindCTE => false
      case _ => true
    }
  }

  function NewStmt(kind: Kind, at: nat): Stmt {
    Stmt(kind, at, at, false, false, false, false, false, false, NoSource, false, false, false, false)
  }

  /** The variables of the scan. `prev0` and `prev1` are the last two words at depth 0. */
  datatype Machine = Machine(i: nat, cur: Option<Stmt>, depth: nat, caseDepth: nat, prev0: string, prev1: string,
                             numberEnd: int, out: seq<Stmt>, orphans: seq<nat>)

  const START := Machine(0, None, 0, 0, "", "", -1, [], [])

  // ----- Words -----

  predicate Digit(c: char) { '0' <= c <= '9' }

  predicate WordByte(c: char) {
    c in {'_', '@', '#', '$'} || 'a' <= c <= 'z' || 'A' <= c <= 'Z' || Digit(c) || c as int >= 0x80
  }

  predicate Space(c: char) { c in {' ', '\t', '\r', '\n', '\U{000C}'} }

  function UpperChar(c: char): char { if 'a' <= c <= 'z' then c - 'a' + 'A' else c }

  function Upper(s: string): (r: string)
    ensures |r| == |s| && forall k :: 0 <= k < |s| ==> r[k] == UpperChar(s[k])
  {
    seq(|s|, k requires 0 <= k < |s| => UpperChar(s[k]))
  }

  function WordEnd(code: string, i: nat): (j: nat)
    requires i <= |code|
    ensures i <= j <= |code| && (forall k :: i <= k < j ==> WordByte(code[k])) && (j < |code| ==> !WordByte(code[j]))
    decreases |code| - i
  {
    if i < |code| && WordByte(code[i]) then WordEnd(code, i + 1) else i
  }

  predicate HexAt(code: string, i: nat) {
    i + 1 < |code| && code[i] == '0' && code[i + 1] in {'x', 'X'}
  }

  predicate HexDigit(c: char) { 'a' <= c <= 'f' || 'A' <= c <= 'F' }

  function DigitsEnd(code: string, i: nat, hex: bool): (j: nat)
    requires i <= |code|
    ensures i <= j <= |code|
    decreases |code| - i
  {
    if i < |code| && (Digit(code[i]) || code[i] == '.' || (hex && HexDigit(code[i]))) then DigitsEnd(code, i + 1, hex) else i
  }

  function NumberEnd(code: string, i: nat): (j: nat)
    requires i < |code| && Digit(code[i])
    ensures i < j <= |code|
  {
    if HexAt(code, i) then DigitsEnd(code, i + 2, true) else DigitsEnd(code, i + 1, false)
  }

  /** Past the name that `[` opened; `]]` is an escaped bracket. One past the end of the text
      when nothing closes it. */
  function BracketEnd(code: string, j: nat): (e: nat)
    ensures e > j
    decreases |code| - j
  {
    if j >= |code| then j + 1
    else if code[j] != ']' then BracketEnd(code, j + 1)
    else if j + 1 < |code| && code[j + 1] == ']' then BracketEnd(code, j + 2)
    else j + 1
  }

  /** Past the next `q`, or the end of the text. */
  function QuoteEnd(code: string, j: nat, q: char): (e: nat)
    requires j <= |code|
    ensures j <= e <= |code|
    decreases |code| - j
  {
    if j == |code| then j else if code[j] == q then j + 1 else QuoteEnd(code, j + 1, q)
  }

  /** Past the parenthesis that closes `depth` open ones. */
  function SkipParens(code: string, i: nat, depth: nat): (e: nat)
    requires i <= |code|
    ensures i <= e <= |code|
    decreases |code| - i
  {
    if i == |code| then i
    else if code[i] == '(' then SkipParens(code, i + 1, depth + 1)
    else if code[i] == ')' then (if depth <= 1 then i + 1 else SkipParens(code, i + 1, depth - 1))
    else SkipParens(code, i + 1, depth)
  }

  // ----- The OPTION clause -----

  function SkipSpace(code: string, i: nat): (j: nat)
    requires i <= |code|
    ensures i <= j <= |code|
    decreases |code| - i
  {
    if i < |code| && Space(code[i]) then SkipSpace(code, i + 1) else i
  }

  /** Past `word` at `i`, or None. */
  function Token(code: string, i: nat, word: string): (r: Option<nat>)
    requires i <= |code|
    ensures r.Some? ==> r.value == i + |word| && r.value <= |code|
  {
    if i + |word| <= |code| && Upper(code[i..i + |word|]) == word then Some(i + |word|) else None
  }

  /** The words in turn, with any white space before each but the first. */
  function Tokens(code: string, i: nat, words: seq<string>): (r: Option<nat>)
    requires i <= |code|
    ensures r.Some? ==> i <= r.value <= |code| && (words != [] ==> i + |words[0]| <= r.value)
    decreases |words|
  {
    if words == [] then Some(i)
    else
      var t := Token(code, i, words[0]);
      if t.None? then None
      else if |words| == 1 then t
      else Tokens(code, SkipSpace(code, t.value), words[1..])
  }

  predicate SpaceAt(code: string, i: nat) { i < |code| && Space(code[i]) }

  /** Where an OPTION clause of any content has opened its parenthesis. */
  function OptionAt(code: string, i: nat): (r: Option<nat>)
    requires i <= |code|
    ensures r.Some? ==> i < r.value <= |code|
  {
    Tokens(code, i, ["OPTION", "("])
  }

  /** Past a USE HINT ('...') written after a comma. */
  function UseHintAt(code: string, i: nat): (r: Option<nat>)
    requires i <= |code|
    ensures r.Some? ==> i <= r.value <= |code|
  {
    var use := Tokens(code, i, [",", "USE"]);
    if use.None? || !SpaceAt(code, use.value) then None
    else
      var open := Tokens(code, SkipSpace(code, use.value), ["HINT", "(", "'"]);
      if open.None? then None
      else
        var close := QuoteEnd(code, open.value, '\'');
        if close == open.value || code[close - 1] != '\'' then None
        else Token(code, SkipSpace(code, close), ")")
  }

  /** Past the contract's own clause, OPTION (RECOMPILE, MAXDOP 1), with or without the one
      addition it allows, or None. */
  function HintAt(code: string, i: nat): (r: Option<nat>)
    requires i <= |code|
    ensures r.Some? ==> i < r.value <= |code|
  {
    var maxdop := Tokens(code, i, ["OPTION", "(", "RECOMPILE", ",", "MAXDOP"]);
    if maxdop.None? || !SpaceAt(code, maxdop.value) then None
    else
      var one := Token(code, SkipSpace(code, maxdop.value), "1");
      if one.None? then None
      else
        var at := SkipSpace(code, one.value);
        var use := UseHintAt(code, at);
        Token(code, if use.Some? then SkipSpace(code, use.value) else at, ")")
  }

  /** What may stand before the first item of a SELECT's list. */
  predicate Modifier(word: string) { word in {"SELECT", "DISTINCT", "ALL", "TOP", "PERCENT", "WITH", "TIES"} }

  /** Words that, at depth 0, can only begin a new statement. */
  predicate Closer(word: string) {
    word in {"DECLARE", "IF", "WHILE", "BEGIN", "PRINT", "RAISERROR", "THROW", "RETURN", "CREATE", "DROP", "TRUNCATE",
             "GO", "OPEN", "CLOSE", "DEALLOCATE", "BREAK", "CONTINUE", "WAITFOR", "COMMIT", "ROLLBACK", "DBCC"}
  }

  /** What follows the variable of SELECT @x = ..., compound assignments included. */
  predicate AssignOp(code: string, j: nat)
    requires j <= |code|
  {
    var k := SkipSpace(code, j);
    k < |code| && (code[k] == '=' ||
                   (code[k] in {'-', '+', '*', '/', '%', '&', '|', '^'} && k + 1 < |code| && code[k + 1] == '='))
  }

  // ----- One step of the scan -----

  function CloseAt(m: Machine, end: nat): Machine {
    if m.cur.Some? then m.(out := m.out + [m.cur.value.(end := end)], cur := None, caseDepth := 0)
    else m.(caseDepth := 0)
  }

  function Open(m: Machine, s: Stmt): Machine { CloseAt(m, s.start).(cur := Some(s)) }

  function WithCur(m: Machine, s: Stmt): Machine { m.(cur := Some(s)) }

  /** What scanWord does with a word. */
  datatype Key = SelectKey | DmlKey(kind: Kind) | WithKey | ValuesKey | ExecKey | FromKey | IntoKey | OutputKey | SetKey
               | CaseKey | EndKey | ElseKey | CloserKey | NoKey

  function KeyOf(word: string): Key {
    match word
    case "SELECT" => SelectKey
    case "INSERT" => DmlKey(KindInsert)
    case "UPDATE" => DmlKey(KindUpdate)
    case "DELETE" => DmlKey(KindDelete)
    case "MERGE" => DmlKey(KindMerge)
    case "WITH" => WithKey
    case "VALUES" => ValuesKey
    case "EXEC" => ExecKey
    case "EXECUTE" => ExecKey
    case "FROM" => FromKey
    case "INTO" => IntoKey
    case "OUTPUT" => OutputKey
    case "SET" => SetKey
    case "CASE" => CaseKey
    case "END" => EndKey
    case "ELSE" => ElseKey
    case _ => if Closer(word) then CloserKey else NoKey
  }

  predicate NextBranch(m: Machine) {
    m.prev0 in {"UNION", "EXCEPT", "INTERSECT"} || (m.prev0 == "ALL" && m.prev1 == "UNION")
  }

  /** A word that applies to the statement being scanned, or closes it. */
  function ScanClause(key: Key, at: nat, m: Machine, s: Stmt): Machine {
    match key
    case ValuesKey => if s.kind == KindInsert && s.source == NoSource then WithCur(m, s.(source := FromValues)) else m
    case ExecKey => if s.kind == KindInsert && s.source == NoSource then WithCur(m, s.(source := FromExec)) else CloseAt(m, at)
    case FromKey => WithCur(m, s.(from := true))
    case IntoKey => if s.kind == KindSelect then WithCur(m, s.(into := true))
                    else if s.output then WithCur(m, s.(outputInto := true)) else m
    case OutputKey => if s.kind != KindSelect && s.kind != KindCTE && s.source == NoSource
                      then WithCur(m, s.(output := true)) else m
    case SetKey => if s.kind != KindUpdate && s.kind != KindMerge then CloseAt(m, at) else m
    case CaseKey => m.(caseDepth := m.caseDepth + 1)
    case EndKey => if m.caseDepth > 0 then m.(caseDepth := m.caseDepth - 1) else CloseAt(m, at)
    case ElseKey => if m.caseDepth == 0 then CloseAt(m, at) else m
    case CloserKey => CloseAt(m, at)
    case _ => m
  }

  /** scanWord: one depth-0 keyword. */
  function ScanWord(key: Key, at: nat, m: Machine): Machine {
    match key
    case SelectKey =>
      if NextBranch(m) then m
      else if m.cur.Some? && m.cur.value.kind == KindCTE then WithCur(m, m.cur.value.(kind := KindSelect, leading := true))
      else if m.cur.Some? && m.cur.value.kind == KindInsert && m.cur.value.source == NoSource
      then WithCur(m, m.cur.value.(source := FromSelect))
      else Open(m, NewStmt(KindSelect, at).(leading := true, cursor := m.prev0 == "FOR"))
    case DmlKey(kind) =>
      if m.cur.Some? && m.cur.value.kind == KindCTE then WithCur(m, m.cur.value.(kind := kind))
      else if m.cur.Some? && m.cur.value.kind == KindMerge then m
      else Open(m, NewStmt(kind, at))
    case WithKey =>
      if m.cur.None? then Open(m, NewStmt(KindCTE, at)) else m
    case _ =>
      if m.cur.Some? then ScanClause(key, at, m, m.cur.value)
      else if key in {ExecKey, EndKey, ElseKey, CloserKey} then m.(caseDepth := 0)
      else m
  }

  function Remember(m: Machine, word: string, j: nat): Machine {
    m.(prev0 := word, prev1 := m.prev0, i := j)
  }

  /** A variable, a temporary name, a number, or a name after a dot. */
  function NameStep(code: string, m: Machine, j: nat): (r: Machine)
    requires m.i < j <= |code|
  {
    var named := if m.depth == 0 && m.cur.Some? && m.cur.value.leading && code[m.i] == '@'
                 then WithCur(m, m.cur.value.(assigns := AssignOp(code, j), leading := false)) else m;
    if m.depth == 0 then Remember(named, Upper(code[m.i..j]), j) else named.(i := j)
  }

  /** A word inside parentheses, where only a subquery counts. */
  function InnerStep(m: Machine, word: string, j: nat): Machine {
    if word != "SELECT" then m.(i := j)
    else if m.cur.None? then m.(orphans := m.orphans + [m.i], i := j)
    else WithCur(m, m.cur.value.(subquery := true)).(i := j)
  }

  /** An OPTION clause, which ends the statement that owns it. */
  function OptionStep(code: string, m: Machine, j: nat): (r: Machine)
    requires m.i < j <= |code| && OptionAt(code, m.i).Some?
  {
    if m.cur.None? then m.(i := j)
    else
      var hint := HintAt(code, m.i);
      var e := if hint.Some? then hint.value else SkipParens(code, OptionAt(code, m.i).value, 1);
      var s := if hint.Some? then m.cur.value.(hinted := true) else m.cur.value.(otherHint := true);
      CloseAt(WithCur(m, s), e).(prev0 := "", prev1 := "", i := e)
  }

  function KeywordStep(m: Machine, word: string, j: nat): Machine {
    var led := if m.cur.Some? && m.cur.value.leading && !Modifier(word)
               then WithCur(m, m.cur.value.(leading := false)) else m;
    Remember(ScanWord(KeyOf(word), m.i, led), word, j)
  }

  function WordStep(code: string, m: Machine): Machine
    requires m.i < |code| && WordByte(code[m.i])
  {
    var c := code[m.i];
    var j := if Digit(c) then NumberEnd(code, m.i) else WordEnd(code, m.i);
    var counted := if Digit(c) then m.(numberEnd := j) else m;
    var qualified := m.i > 0 && code[m.i - 1] == '.' && m.i != counted.numberEnd;
    if c == '@' || c == '#' || qualified || Digit(c) then NameStep(code, counted, j)
    else
      var word := Upper(code[m.i..j]);
      if m.depth > 0 then InnerStep(m, word, j)
      else if word == "OPTION" && OptionAt(code, m.i).Some? then OptionStep(code, m, j)
      else KeywordStep(m, word, j)
  }

  function Step(code: string, m: Machine): Machine
    requires m.i < |code|
  {
    var c := code[m.i];
    if c == '[' then m.(i := BracketEnd(code, m.i + 1))
    else if c == '"' || c == '\'' then m.(i := QuoteEnd(code, m.i + 1, c))
    else if c == '(' then m.(depth := m.depth + 1, i := m.i + 1)
    else if c == ')' then m.(depth := if m.depth > 0 then m.depth - 1 else 0, i := m.i + 1)
    else if c == ';' && m.depth == 0 then CloseAt(m, m.i).(prev0 := "", prev1 := "", i := m.i + 1)
    else if WordByte(c) then WordStep(code, m)
    else m.(i := m.i + 1)
  }

  // ----- What every step keeps -----

  /** The statement ends exactly at an OPTION clause of its own. */
  ghost predicate EndsAtHint(code: string, s: Stmt) {
    exists p: nat :: s.start < p < |code| && HintAt(code, p) == Some(s.end)
  }

  predicate InSpan(s: Stmt, code: string) { s.start < s.end <= |code| }

  /** The spans are in bounds, non-empty, in order and disjoint, none reaching past `limit`. */
  ghost predicate Ordered(code: string, out: seq<Stmt>, limit: nat) {
    && (forall k :: 0 <= k < |out| ==> InSpan(out[k], code) && out[k].end <= limit)
    && (forall k, l :: 0 <= k < l < |out| ==> out[k].end <= out[l].start)
    && (forall k :: 0 <= k < |out| && out[k].hinted ==> EndsAtHint(code, out[k]) && !out[k].otherHint)
  }

  ghost predicate Good(code: string, m: Machine) {
    match m.cur
    case None => Ordered(code, m.out, m.i)
    case Some(s) => s.start < m.i && s.start < |code| && Unmarked(s) && Ordered(code, m.out, s.start)
  }

  predicate Unmarked(s: Stmt) { !s.hinted && !s.otherHint }

  /** What a word may do to the statements: go on with the current one, its start and its marks
      unchanged, or close it at `at`, where another may open. */
  ghost predicate Moves(m: Machine, r: Machine, at: nat) {
    if r.cur.Some? && r.out == m.out && m.cur.Some? then
      Unmarked(r.cur.value) && r.cur.value.start == m.cur.value.start
    else
      && (if m.cur.None? then r.out == m.out
          else exists s :: r.out == m.out + [s] && s.start == m.cur.value.start && s.end == at && Unmarked(s))
      && (r.cur.Some? ==> r.cur.value.start == at && Unmarked(r.cur.value))
  }

  lemma ClosesAt(m: Machine, at: nat)
    requires m.cur.Some? ==> Unmarked(m.cur.value)
    ensures Moves(m, CloseAt(m, at), at)
  {
    if m.cur.Some? { assert CloseAt(m, at).out == m.out + [m.cur.value.(end := at)]; }
  }

  lemma OpensAt(m: Machine, s: Stmt)
    requires (m.cur.Some? ==> Unmarked(m.cur.value)) && Unmarked(s)
    ensures Moves(m, Open(m, s), s.start)
  {
    ClosesAt(m, s.start);
  }

  lemma Stays(m: Machine, r: Machine, at: nat)
    requires m.cur.Some? == r.cur.Some? && r.out == m.out
    requires m.cur.Some? ==> Unmarked(r.cur.value) && r.cur.value.start == m.cur.value.start
    ensures Moves(m, r, at)
  {}

  /** A word inside a statement closes it or leaves it open. */
  lemma ClauseResult(key: Key, at: nat, m: Machine, s: Stmt)
    requires m.cur == Some(s) && Unmarked(s)
    ensures var r := ScanClause(key, at, m, s);
      || r == CloseAt(m, at)
      || (r.cur.Some? && Unmarked(r.cur.value) && r.cur.value.start == s.start && r.out == m.out && r.i == m.i && r.depth == m.depth)
  {
    hide CloseAt;
  }

  lemma ScanClauseMoves(key: Key, at: nat, m: Machine)
    requires m.cur.Some? && Unmarked(m.cur.value)
    ensures var r := ScanClause(key, at, m, m.cur.value);
      Moves(m, r, at) && r.i == m.i && r.depth == m.depth
  {
    hide Moves, ScanClause, Unmarked;
    var r := ScanClause(key, at, m, m.cur.value);
    ClauseResult(key, at, m, m.cur.value);
    if r == CloseAt(m, at) { ClosesAt(m, at); } else { Stays(m, r, at); }
  }

  lemma SelectMoves(at: nat, m: Machine)
    requires m.cur.Some? ==> Unmarked(m.cur.value)
    ensures var r := ScanWord(SelectKey, at, m);
      Moves(m, r, at) && r.i == m.i && r.depth == m.depth
  {
    hide NextBranch, Moves;
    if NextBranch(m) {
      Stays(m, m, at);
    } else if m.cur.Some? && m.cur.value.kind == KindCTE {
      Stays(m, WithCur(m, m.cur.value.(kind := KindSelect, leading := true)), at);
    } else if m.cur.Some? && m.cur.value.kind == KindInsert && m.cur.value.source == NoSource {
      Stays(m, WithCur(m, m.cur.value.(source := FromSelect)), at);
    } else {
      OpensAt(m, NewStmt(KindSelect, at).(leading := true, cursor := m.prev0 == "FOR"));
    }
  }

  lemma DmlMoves(kind: Kind, at: nat, m: Machine)
    requires m.cur.Some? ==> Unmarked(m.cur.value)
    ensures var r := ScanWord(DmlKey(kind), at, m);
      Moves(m, r, at) && r.i == m.i && r.depth == m.depth
  {
    hide Moves;
    if m.cur.Some? && m.cur.value.kind == KindCTE {
      Stays(m, WithCur(m, m.cur.value.(kind := kind)), at);
    } else if m.cur.Some? && m.cur.value.kind == KindMerge {
      Stays(m, m, at);
    } else {
      OpensAt(m, NewStmt(kind, at));
    }
  }

  lemma ScanWordMoves(key: Key, at: nat, m: Machine)
    requires m.cur.Some? ==> Unmarked(m.cur.value)
    ensures var r := ScanWord(key, at, m);
      Moves(m, r, at) && r.i == m.i && r.depth == m.depth
  {
    hide NextBranch, ScanClause, Moves;
    match key {
      case SelectKey => SelectMoves(at, m);
      case DmlKey(kind) => DmlMoves(kind, at, m);
      case WithKey => WithMoves(at, m);
      case _ => ClauseMoves(key, at, m);
    }
  }

  lemma WithMoves(at: nat, m: Machine)
    requires m.cur.Some? ==> Unmarked(m.cur.value)
    ensures var r := ScanWord(WithKey, at, m);
      Moves(m, r, at) && r.i == m.i && r.depth == m.depth
  {
    hide Moves;
    if m.cur.None? { OpensAt(m, NewStmt(KindCTE, at)); } else { Stays(m, m, at); }
  }

  lemma ClauseMoves(key: Key, at: nat, m: Machine)
    requires m.cur.Some? ==> Unmarked(m.cur.value)
    requires !key.SelectKey? && !key.DmlKey? && !key.WithKey?
    ensures var r := ScanWord(key, at, m);
      Moves(m, r, at) && r.i == m.i && r.depth == m.depth
  {
    hide Moves, ScanClause;
    if m.cur.Some? { ScanClauseMoves(key, at, m); } else { Stays(m, ScanWord(key, at, m), at); }
  }

  lemma OrderedClose(code: string, out: seq<Stmt>, s: Stmt)
    requires Ordered(code, out, s.start) && InSpan(s, code)
    requires s.hinted ==> EndsAtHint(code, s) && !s.otherHint
    ensures Ordered(code, out + [s], s.end)
  {
    hide EndsAtHint;
    assert forall k :: 0 <= k < |out + [s]| ==> (out + [s])[k] == if k < |out| then out[k] else s;
  }

  lemma OrderedLater(code: string, out: seq<Stmt>, a: nat, b: nat)
    requires Ordered(code, out, a) && a <= b
    ensures Ordered(code, out, b)
  {}

  lemma GoodMoves(code: string, m: Machine, r: Machine)
    requires Good(code, m) && m.i < |code| && Moves(m, r, m.i) && r.i > m.i
    ensures Good(code, r)
  {
    hide Ordered, EndsAtHint;
    if r.cur.Some? && r.out == m.out && m.cur.Some? { return; }
    if m.cur.Some? {
      var s :| r.out == m.out + [s] && s.start == m.cur.value.start && s.end == m.i && Unmarked(s);
      OrderedClose(code, m.out, s);
    }
    OrderedLater(code, r.out, m.i, r.i);
  }

  lemma HintEnds(code: string, s: Stmt, p: nat)
    requires s.start < p < |code| && HintAt(code, p) == Some(s.end)
    ensures EndsAtHint(code, s)
  {}

  lemma GoodOption(code: string, m: Machine, j: nat)
    requires Good(code, m) && m.i < j <= |code| && OptionAt(code, m.i).Some?
    ensures Good(code, OptionStep(code, m, j)) && OptionStep(code, m, j).i > m.i
  {
    hide HintAt, OptionAt, SkipParens, Ordered, EndsAtHint;
    if m.cur.Some? {
      GoodHint(code, m, j);
    } else {
      OrderedLater(code, m.out, m.i, j);
    }
  }

  lemma GoodHint(code: string, m: Machine, j: nat)
    requires Good(code, m) && m.cur.Some? && m.i < j <= |code| && OptionAt(code, m.i).Some?
    ensures Good(code, OptionStep(code, m, j)) && OptionStep(code, m, j).i > m.i
  {
    hide HintAt, OptionAt, SkipParens, Ordered, EndsAtHint;
    var r := OptionStep(code, m, j);
    var s := r.out[|m.out|];
    assert r.out == m.out + [s] && r.cur.None?;
    if s.hinted { HintEnds(code, s, m.i); }
    OrderedClose(code, m.out, s);
  }

  lemma GoodWord(code: string, m: Machine)
    requires Good(code, m) && m.i < |code| && WordByte(code[m.i])
    ensures Good(code, WordStep(code, m)) && WordStep(code, m).i > m.i
  {
    hide ScanWord, KeyOf, Modifier, OptionAt, OptionStep, Ordered, EndsAtHint, Upper, AssignOp, NumberEnd, WordEnd;
    var c := code[m.i];
    var j := if Digit(c) then NumberEnd(code, m.i) else WordEnd(code, m.i);
    var r := WordStep(code, m);
    var word := Upper(code[m.i..j]);
    assert j > m.i;
    if m.depth == 0 && word == "OPTION" && OptionAt(code, m.i).Some? && r == OptionStep(code, m, j) {
      GoodOption(code, m, j);
    } else {
      KeywordMoves(m, word, j);
      if m.cur.None? && r != KeywordStep(m, word, j) {
        OrderedKept(code, m, r);
      } else {
        GoodMoves(code, m, r);
      }
    }
  }

  lemma KeywordMoves(m: Machine, word: string, j: nat)
    requires m.cur.Some? ==> Unmarked(m.cur.value)
    ensures Moves(m, KeywordStep(m, word, j), m.i) && KeywordStep(m, word, j).i == j
  {
    hide ScanWord, KeyOf, Modifier;
    var led := if m.cur.Some? && m.cur.value.leading && !Modifier(word)
               then WithCur(m, m.cur.value.(leading := false)) else m;
    ScanWordMoves(KeyOf(word), m.i, led);
  }

  lemma OrderedKept(code: string, m: Machine, r: Machine)
    requires Good(code, m) && m.cur.None? && r.cur.None? && r.out == m.out && r.i > m.i
    ensures Good(code, r)
  {
    OrderedLater(code, m.out, m.i, r.i);
  }

  /** Every step moves forward and keeps the spans in order. */
  lemma GoodStep(code: string, m: Machine)
    requires Good(code, m) && m.i < |code|
    ensures Good(code, Step(code, m)) && Step(code, m).i > m.i
  {
    hide Ordered, EndsAtHint, WordStep;
    var c, r := code[m.i], Step(code, m);
    if c == ';' && m.depth == 0 {
      GoodMoves(code, m, r);
    } else if WordByte(c) {
      GoodWord(code, m);
    } else if m.cur.None? {
      OrderedKept(code, m, r);
    }
  }

  // ----- The whole scan -----

  function ScanFrom(code: string, m: Machine): Machine
    requires Good(code, m)
    decreases |code| - m.i
  {
    if m.i >= |code| then CloseAt(m, |code|)
    else
      GoodStep(code, m);
      ScanFrom(code, Step(code, m))
  }

  lemma GoodStart(code: string)
    ensures Good(code, START)
  {}

  function Scan(code: string): Machine {
    GoodStart(code);
    ScanFrom(code, START)
  }

  /** For any text, the statements found have spans that are non-empty, in bounds, in order and
      disjoint, and a hinted one ends exactly at its own OPTION clause: no hint is credited to
      an earlier statement or a later one. */
  lemma {:induction false} ScanKeepsOrder(code: string, m: Machine)
    requires Good(code, m)
    ensures Ordered(code, ScanFrom(code, m).out, |code|)
    decreases |code| - m.i
  {
    hide Step, EndsAtHint;
    if m.i >= |code| {
      if m.cur.Some? {
        OrderedClose(code, m.out, m.cur.value.(end := |code|));
      } else {
        assert forall k :: 0 <= k < |m.out| ==> InSpan(m.out[k], code);
      }
    } else {
      GoodStep(code, m);
      ScanKeepsOrder(code, Step(code, m));
    }
  }
}
