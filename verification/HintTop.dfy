/** A printed item at parenthesis depth 0, and the steps of the scanner over its text. */
module HintTop {
  import opened Options
  import opened HintScan
  import opened HintPrint
  import opened HintTokens
  import opened HintParens
  import Quoting

  // ----- Depth 0 -----

  /** No set operator waits for its query. */
  predicate PrevOk(m: Machine) { !SetWord(m.prev0) && !(m.prev0 == "ALL" && m.prev1 == "UNION") }

  /** The scan stands at depth 0, in a statement or outside any. */
  ghost predicate AtTop(code: string, m: Machine) {
    && Good(code, m) && m.depth == 0 && Clear(code, m.i) && m.numberEnd <= m.i && PrevOk(m)
    && (m.cur.None? ==> m.caseDepth == 0)
  }

  /** `n` bytes were scanned with this effect on the statement, these stray subqueries, and this
      word read last. */
  ghost predicate Applies(code: string, m: Machine, r: Machine, n: nat, cur: Option<Stmt>, strays: seq<nat>, last: string) {
    && Reaches(code, m, r) && AtTop(code, r) && r.i == m.i + n && r.cur == cur && r.prev0 == last
    && r.out == m.out && r.caseDepth == m.caseDepth && r.orphans == m.orphans + strays
  }

  lemma TopThen(code: string, m: Machine, r: Machine, t: Machine, n: nat, k: nat, cur: Option<Stmt>, next: Option<Stmt>,
                a: seq<nat>, b: seq<nat>, word: string, last: string)
    requires Applies(code, m, r, n, cur, a, word) && Applies(code, r, t, k, next, b, last)
    ensures Applies(code, m, t, n + k, next, a + b, last)
  {
    hide Reaches, AtTop;
    Then(code, m, r, t);
    assert (m.orphans + a) + b == m.orphans + (a + b);
  }

  // ----- Words -----

  /** A word at depth 0 and the space after it. */
  lemma TopKeyword(code: string, m: Machine, w: string) returns (r: Machine)
    requires Good(code, m) && m.depth == 0 && Clear(code, m.i) && At(code, m.i, w + " ") && Name(w) && Upper(w) != "OPTION"
    ensures Reaches(code, m, r) && r == KeywordStep(m, Upper(w), m.i + |w|).(i := m.i + |w| + 1) && Good(code, r)
    ensures Clear(code, r.i)
  {
    hide Step, Upper, Good, ScanFrom, At, Name, Clear, Reaches, ScanWord, KeyOf, Modifier;
    WordStepAt(code, m, w, ' ');
    OneStep(code, m);
    var mid := Step(code, m);
    ReachesGood(code, m, mid);
    SkipByte(code, mid, ' ');
    r := mid.(i := mid.i + 1);
    Then(code, m, mid, r);
    ReachesGood(code, mid, r);
  }

  lemma LeadEffect(m: Machine, s: Stmt, modifier: bool)
    requires m.cur == Some(s)
    ensures (if s.leading && !modifier then WithCur(m, s.(leading := false)) else m)
      == WithCur(m, s.(leading := s.leading && modifier))
  {}

  // What Apply says, key by key.

  lemma SaysFrom(s: Stmt)
    ensures Apply(s, FromKey) == s.(from := true)
  {}

  lemma SaysInto(s: Stmt)
    ensures Apply(s, IntoKey) == if s.kind == KindSelect then s.(into := true) else if s.output then s.(outputInto := true) else s
  {}

  lemma SaysOutput(s: Stmt)
    ensures Apply(s, OutputKey) ==
      if s.kind != KindSelect && s.kind != KindCTE && s.source == NoSource then s.(output := true) else s
  {}

  lemma SaysSource(s: Stmt, key: Key)
    requires IsSource(key)
    ensures Apply(s, key) == if s.kind == KindInsert && s.source == NoSource then s.(source := SourceOf(key)) else s
  {}

  lemma SaysNothing(s: Stmt, key: Key)
    requires key.DmlKey? || key in {WithKey, SetKey, NoKey}
    ensures Apply(s, key) == s
  {}

  lemma ClauseEffect(m: Machine, s: Stmt, key: Key, at: nat)
    requires m.cur == Some(s) && Belongs(s, key) && !key.SelectKey? && !key.DmlKey? && !key.WithKey?
    ensures ScanClause(key, at, m, s) == WithCur(m, Apply(s, key))
  {
    hide Apply;
    match key {
      case FromKey => SaysFrom(s);
      case IntoKey => SaysInto(s);
      case OutputKey => SaysOutput(s);
      case ValuesKey => SaysSource(s, key);
      case ExecKey => SaysSource(s, key);
      case SetKey => SaysNothing(s, key);
      case NoKey => SaysNothing(s, key);
    }
  }

  /** A word that belongs to the statement says what Apply says, and ends nothing. */
  lemma ScanWordEffect(m: Machine, s: Stmt, key: Key, at: nat)
    requires m.cur == Some(s) && Belongs(s, key) && PrevOk(m)
    ensures ScanWord(key, at, m) == WithCur(m, Apply(s, key))
  {
    hide ScanClause, Apply;
    if key == SelectKey {
      assert !NextBranch(m);
      SaysSource(s, key);
    } else if key.DmlKey? || key.WithKey? {
      SaysNothing(s, key);
    } else {
      ClauseEffect(m, s, key, at);
    }
  }

  /** The state after a word: the statement, and the words remembered. */
  function Worded(m: Machine, cur: Option<Stmt>, w: string, i: nat): Machine {
    m.(cur := cur, prev0 := w, prev1 := m.prev0, i := i)
  }

  lemma KeywordEffect(m: Machine, w: string, j: nat)
    requires WordFits(m.cur, w) && PrevOk(m) && (m.cur.None? ==> m.caseDepth == 0)
    ensures KeywordStep(m, Upper(w), j) == Worded(m, Effect(m.cur, Word(w)), Upper(w), j)
  {
    hide KeyOf, Upper, Modifier, ScanWord, Apply;
    if m.cur.None? {
      NothingOpened(m, KeyOf(Upper(w)), m.i);
    } else {
      var s, modifier := m.cur.value, Modifier(Upper(w));
      LeadEffect(m, s, modifier);
      var led := s.(leading := s.leading && modifier);
      ScanWordEffect(WithCur(m, led), led, KeyOf(Upper(w)), m.i);
    }
  }

  lemma NothingOpened(m: Machine, key: Key, at: nat)
    requires m.cur.None? && m.caseDepth == 0 && OpensNothing(key)
    ensures ScanWord(key, at, m) == m
  {}

  lemma TopWord(code: string, m: Machine, w: string) returns (r: Machine)
    requires AtTop(code, m) && At(code, m.i, w + " ") && Name(w) && WordFits(m.cur, w)
    ensures Applies(code, m, r, |w| + 1, Effect(m.cur, Word(w)), [], Upper(w))
  {
    hide Step, Upper, Good, ScanFrom, At, Name, Clear, Effect, KeyOf, KeywordStep, Reaches;
    r := TopKeyword(code, m, w);
    KeywordEffect(m, w, m.i + |w|);
    assert m.orphans + [] == m.orphans;
  }

  // ----- Names and numbers -----

  /** A name that begins with a variable's or temporary's mark, or a number, is no word. */
  lemma NoSetWord(w: string)
    requires w != "" && (w[0] in {'@', '#'} || Digit(w[0]))
    ensures !SetWord(Upper(w)) && Upper(w) != "ALL"
  {
    assert Upper(w)[0] == w[0];
  }

  /** What a variable decides when it comes first in a SELECT's list. */
  function Decided(cur: Option<Stmt>, assigns: bool): Option<Stmt> {
    if cur.Some? && cur.value.leading then Some(cur.value.(assigns := assigns, leading := false)) else cur
  }

  lemma NameEffect(code: string, m: Machine, w: string, j: nat)
    requires m.depth == 0 && m.i < j <= |code| && code[m.i..j] == w && code[m.i] == w[0]
    ensures NameStep(code, m, j) == Worded(m, if w[0] == '@' then Decided(m.cur, AssignOp(code, j)) else m.cur, Upper(w), j)
  {
    hide AssignOp, Upper;
  }

  /** After the step of such a name, the space. */
  lemma TopStepped(code: string, m: Machine, mid: Machine, n: nat, cur: Option<Stmt>) returns (r: Machine)
    requires AtTop(code, m) && Reaches(code, m, mid) && At(code, mid.i, " ") && mid.i + 1 == m.i + n
    requires mid.cur == cur && (cur.None? ==> m.cur.None?) && mid.depth == 0 && mid.numberEnd <= mid.i && PrevOk(mid)
    requires mid.out == m.out && mid.caseDepth == m.caseDepth && mid.orphans == m.orphans
    ensures Applies(code, m, r, n, cur, [], mid.prev0)
    ensures r == mid.(i := mid.i + 1)
  {
    hide Good, ScanFrom, At, Clear, Reaches;
    ReachesGood(code, m, mid);
    SkipByte(code, mid, ' ');
    r := mid.(i := mid.i + 1);
    Then(code, m, mid, r);
    ReachesGood(code, mid, r);
    assert m.orphans + [] == m.orphans;
  }

  lemma TopTemp(code: string, m: Machine, name: string) returns (r: Machine)
    requires AtTop(code, m) && At(code, m.i, "#" + name + " ") && WordText(name)
    ensures Applies(code, m, r, |name| + 2, m.cur, [], Upper("#" + name))
  {
    hide Step, Upper, Good, ScanFrom, At, Clear, Reaches, SetWord, WordText, NameStep;
    var w := "#" + name;
    AtSignIsWord(name);
    NoSetWord(w);
    NameStepAt(code, m, w);
    NameEffect(code, m, w, m.i + |w|);
    OneStep(code, m);
    r := TopStepped(code, m, Step(code, m), |name| + 2, m.cur);
  }

  lemma TopNumber(code: string, m: Machine, t: string) returns (r: Machine)
    requires AtTop(code, m) && At(code, m.i, t + " ") && Numeral(t)
    ensures Applies(code, m, r, |t| + 1, m.cur, [], Upper(t))
  {
    hide Step, Upper, Good, ScanFrom, At, Clear, Reaches, SetWord, NameStep, HexAt;
    NoSetWord(t);
    NumberStepAt(code, m, t);
    NameEffect(code, m.(numberEnd := m.i + |t|), t, m.i + |t|);
    OneStep(code, m);
    r := TopStepped(code, m, Step(code, m), |t| + 1, m.cur);
  }

  lemma TopVariable(code: string, m: Machine, name: string) returns (r: Machine)
    requires AtTop(code, m) && At(code, m.i, "@" + name + " ") && WordText(name) && NoAssign(code, m.i + |name| + 2)
    ensures Applies(code, m, r, |name| + 2, Effect(m.cur, Variable(name)), [], Upper("@" + name))
  {
    hide Step, Upper, Good, ScanFrom, At, Clear, Reaches, SetWord, WordText, NameStep, AssignOp;
    var w := "@" + name;
    AtSignIsWord(name);
    NoSetWord(w);
    NameStepAt(code, m, w);
    NoAssignSpace(code, m.i + |w|);
    NameEffect(code, m, w, m.i + |w|);
    OneStep(code, m);
    VariableEffect(m.cur, name);
    r := TopStepped(code, m, Step(code, m), |name| + 2, Effect(m.cur, Variable(name)));
  }

  lemma VariableEffect(cur: Option<Stmt>, name: string)
    ensures Effect(cur, Variable(name)) == Decided(cur, false)
    ensures forall op :: Effect(cur, Assign(name, op)) == Decided(cur, true)
  {}

  lemma TopAssign(code: string, m: Machine, name: string, op: string) returns (r: Machine)
    requires AtTop(code, m) && At(code, m.i, Text(Assign(name, op))) && WordText(name) && AssignText(op)
    ensures Applies(code, m, r, |Text(Assign(name, op))|, Effect(m.cur, Assign(name, op)), [], Upper("@" + name))
  {
    hide Step, Upper, Good, ScanFrom, At, Clear, Reaches, SetWord, WordText, NameStep, AssignOp, Inert;
    var w, tail := "@" + name, " " + op;
    assert Text(Assign(name, op)) == (w + " ") + (op + " ") == w + (tail + " ") == w + (" " + op + " ");
    AtParts(code, m.i, w + " ", op + " ");
    AtParts(code, m.i, w, tail + " ");
    AtParts(code, m.i + |w|, tail, " ");
    AtSignIsWord(name);
    NoSetWord(w);
    NameStepAt(code, m, w);
    AssignOpAt(code, m.i + |w|, op);
    NameEffect(code, m, w, m.i + |w|);
    OneStep(code, m);
    var mid := Step(code, m);
    ReachesGood(code, m, mid);
    AssignIsInert(op);
    SkipText(code, mid, tail);
    var last := mid.(i := mid.i + |tail|);
    Then(code, m, mid, last);
    VariableEffect(m.cur, name);
    r := TopStepped(code, m, last, |Text(Assign(name, op))|, Effect(m.cur, Assign(name, op)));
  }

  lemma AssignIsInert(op: string)
    requires AssignText(op)
    ensures forall k :: 0 <= k < |" " + op| ==> Inert((" " + op)[k])
  {}

  lemma TopDotted(code: string, m: Machine, w: string, name: string) returns (r: Machine)
    requires AtTop(code, m) && At(code, m.i, Text(Dotted(w, name))) && Fits(m.cur, Dotted(w, name), false)
    ensures Applies(code, m, r, |Text(Dotted(w, name))|, Effect(m.cur, Dotted(w, name)), [], Upper(name))
  {
    hide Step, Upper, Good, ScanFrom, At, Name, Clear, Reaches, SetWord, NameStep, KeywordStep, WordEffect, AssignOp, Belongs, OpensNothing;
    assert Text(Dotted(w, name)) == (w + ['.']) + (name + " ");
    AtParts(code, m.i, w + ['.'], name + " ");
    NameIsSome(w);
    NameIsSome(name);
    WordStepAt(code, m, w, '.');
    KeywordEffect(m, w, m.i + |w|);
    OneStep(code, m);
    var a := Step(code, m);
    ReachesGood(code, m, a);
    SkipByte(code, a, '.');
    AtChar(code, a.i, '.');
    var b := a.(i := a.i + 1);
    ReachesGood(code, a, b);
    Then(code, m, a, b);
    QualifiedAt(code, b, name);
    NameEffect(code, b, name, b.i + |name|);
    OneStep(code, b);
    var c := Step(code, b);
    Then(code, m, b, c);
    UnionIsSetWord();
    r := TopStepped(code, m, c, |Text(Dotted(w, name))|, Effect(m.cur, Dotted(w, name)));
  }

  lemma UnionIsSetWord()
    ensures SetWord("UNION")
  {}

  lemma TopSymbol(code: string, m: Machine, c: char) returns (r: Machine)
    requires AtTop(code, m) && At(code, m.i, [c] + " ") && Inert(c)
    ensures Applies(code, m, r, 2, m.cur, [], m.prev0)
  {
    hide Good, ScanFrom, At, Clear, Reaches, Inert;
    AtParts(code, m.i, [c], " ");
    SkipByte(code, m, c);
    r := TopStepped(code, m, m.(i := m.i + 1), 2, m.cur);
  }

  lemma TopDelimited(code: string, m: Machine, item: Item) returns (r: Machine)
    requires AtTop(code, m) && At(code, m.i, Text(item)) && Spelled(item) && (item.Bracketed? || item.Quoted?)
    ensures Applies(code, m, r, |Text(item)|, m.cur, [], m.prev0)
  {
    hide Good, ScanFrom, At, Clear, Reaches, Text, Spelled;
    DelimitedStep(code, m, item);
    r := TopStepped(code, m, m.(i := m.i + |Text(item)| - 1), |Text(item)|, m.cur);
  }

  lemma {:induction false} SelectsAnywhere(items: seq<Item>, a: nat, b: nat)
    ensures SelectsIn(items, a) != [] <==> SelectsIn(items, b) != []
    decreases items, 1
  {
    hide Selects, Text;
    if items != [] {
      SelectsOf(items[0], a, b);
      SelectsAnywhere(items[1..], a + |Text(items[0])|, b + |Text(items[0])|);
    }
  }

  lemma SelectsOf(item: Item, a: nat, b: nat)
    ensures Selects(item, a) != [] <==> Selects(item, b) != []
    decreases item, 0
  {
    match item {
      case Group(items) => SelectsAnywhere(items, a + 1, b + 1);
      case Case(items) => SelectsAnywhere(items, a + 5, b + 5);
      case _ =>
    }
  }

  /** The stray subqueries of a piece: none inside a statement. */
  function StraysFor(cur: Option<Stmt>, item: Item, at: nat): seq<nat> { if cur.Some? then [] else Strays(item, at) }

  function StraysForAll(cur: Option<Stmt>, items: seq<Item>, at: nat): seq<nat> { if cur.Some? then [] else StraysIn(items, at) }

  lemma TopGroup(code: string, m: Machine, items: seq<Item>) returns (r: Machine)
    requires AtTop(code, m) && At(code, m.i, Text(Group(items))) && Spelled(Group(items))
    ensures Applies(code, m, r, |Text(Group(items))|, Effect(m.cur, Group(items)), StraysFor(m.cur, Group(items), m.i), m.prev0)
  {
    hide Good, ScanFrom, At, Clear, Reaches, SelectsIn, Text, Spelled;
    r := GroupAt(code, m, items);
    ReachesGood(code, m, r);
    SelectsAnywhere(items, 0, m.i + 1);
    assert m.orphans + [] == m.orphans;
  }

  // ----- CASE ... ELSE ... END -----

  lemma CaseWords()
    ensures KeyOf("CASE") == CaseKey && KeyOf("ELSE") == ElseKey && KeyOf("END") == EndKey
    ensures !Modifier("CASE") && !Modifier("ELSE") && !Modifier("END")
    ensures !SetWord("CASE") && !SetWord("ELSE") && !SetWord("END") && "CASE" != "ALL" && "ELSE" != "ALL" && "END" != "ALL"
    ensures "CASE" != "OPTION" && "ELSE" != "OPTION" && "END" != "OPTION"
  {}

  lemma CaseEffect(m: Machine, j: nat)
    ensures KeywordStep(m, "CASE", j) == Worded(m, Led(m.cur), "CASE", j).(caseDepth := if m.cur.Some? then m.caseDepth + 1 else m.caseDepth)
  {
    hide KeyOf, Modifier;
    CaseWords();
  }

  lemma EndEffect(m: Machine, j: nat)
    requires if m.cur.Some? then m.caseDepth > 0 else m.caseDepth == 0
    ensures KeywordStep(m, "END", j) == Worded(m, Led(m.cur), "END", j).(caseDepth := if m.cur.Some? then m.caseDepth - 1 else 0)
  {
    hide KeyOf, Modifier;
    CaseWords();
  }

  lemma ElseEffect(m: Machine, j: nat)
    requires if m.cur.Some? then m.caseDepth > 0 else m.caseDepth == 0
    ensures KeywordStep(m, "ELSE", j) == Worded(m, Led(m.cur), "ELSE", j)
  {
    hide KeyOf, Modifier;
    CaseWords();
  }

  lemma TopElse(code: string, m: Machine) returns (r: Machine)
    requires AtTop(code, m) && At(code, m.i, Text(Else)) && (m.cur.Some? ==> m.caseDepth > 0)
    ensures Applies(code, m, r, 5, Led(m.cur), [], "ELSE")
  {
    hide Good, ScanFrom, At, Clear, Reaches, KeywordStep, Upper, Name, SetWord, KeyOf;
    KnownWords();
    KnownUppers();
    CaseWords();
    r := TopKeyword(code, m, "ELSE");
    ElseEffect(m, m.i + 4);
    assert m.orphans + [] == m.orphans;
  }

  /** Into a case: its depth is one more, and the words in it may say ELSE. */
  lemma CaseOpens(code: string, m: Machine) returns (r: Machine)
    requires AtTop(code, m) && At(code, m.i, "CASE" + " ")
    ensures Reaches(code, m, r) && AtTop(code, r) && r.i == m.i + 5 && r.cur == Led(m.cur) && r.prev0 == "CASE"
    ensures r.out == m.out && r.orphans == m.orphans && r.caseDepth == if m.cur.Some? then m.caseDepth + 1 else m.caseDepth
  {
    hide Good, ScanFrom, At, Clear, Reaches, KeywordStep, Upper, Name, SetWord, KeyOf;
    KnownWords();
    KnownUppers();
    CaseWords();
    r := TopKeyword(code, m, "CASE");
    CaseEffect(m, m.i + 4);
  }

  lemma CaseCloses(code: string, m: Machine) returns (r: Machine)
    requires AtTop(code, m) && At(code, m.i, "END" + " ") && (m.cur.Some? ==> m.caseDepth > 0)
    ensures Reaches(code, m, r) && AtTop(code, r) && r.i == m.i + 4 && r.cur == Led(m.cur) && r.prev0 == "END"
    ensures r.out == m.out && r.orphans == m.orphans && r.caseDepth == if m.cur.Some? then m.caseDepth - 1 else m.caseDepth
  {
    hide Good, ScanFrom, At, Clear, Reaches, KeywordStep, Upper, Name, SetWord, KeyOf;
    KnownWords();
    KnownUppers();
    CaseWords();
    r := TopKeyword(code, m, "END");
    EndEffect(m, m.i + 3);
  }

  lemma TopCase(code: string, m: Machine, items: seq<Item>) returns (r: Machine)
    requires AtTop(code, m) && At(code, m.i, Text(Case(items))) && AllFit(Led(m.cur), items, true)
    ensures Applies(code, m, r, |Text(Case(items))|, Effect(m.cur, Case(items)), StraysFor(m.cur, Case(items), m.i), "END")
    decreases items, 1
  {
    hide AtTop, At, Reaches, Texts, StraysIn, Effects, AllFit, NoAssign;
    var body := Texts(items);
    AtParts(code, m.i, "CASE" + " ", body + ("END" + " "));
    AtParts(code, m.i + 5, body, "END" + " ");
    var a := CaseOpens(code, m);
    EndNoAssign(code, a.i + |body|);
    var b := TopItems(code, a, items, true);
    r := CaseCloses(code, b);
    Then(code, m, a, b);
    Then(code, m, b, r);
    assert m.orphans + [] == m.orphans;
  }

  lemma EndNoAssign(code: string, i: nat)
    requires At(code, i, "END" + " ")
    ensures NoAssign(code, i)
  {
    AtEach(code, i, "END" + " ");
    WordStartsNoAssign(code, i);
  }

  // ----- UNION, EXCEPT and INTERSECT -----

  lemma SetWords()
    ensures KeyOf("UNION") == KeyOf("ALL") == KeyOf("EXCEPT") == KeyOf("INTERSECT") == NoKey && KeyOf("SELECT") == SelectKey
    ensures !Modifier("UNION") && !Modifier("EXCEPT") && !Modifier("INTERSECT") && Modifier("ALL") && Modifier("SELECT")
    ensures !SetWord("SELECT") && !SetWord("ALL") && SetWord("UNION") && SetWord("EXCEPT") && SetWord("INTERSECT")
    ensures "SELECT" != "ALL" && "SELECT" != "OPTION" && "UNION" != "OPTION" && "ALL" != "OPTION" && "EXCEPT" != "OPTION" && "INTERSECT" != "OPTION"
  {}

  lemma SetWordEffect(m: Machine, w: string, j: nat)
    requires m.cur.Some? && KeyOf(w) == NoKey && !Modifier(w)
    ensures KeywordStep(m, w, j) == Worded(m, Led(m.cur), w, j)
  {
    hide KeyOf, Modifier;
  }

  /** With a set operator before it, SELECT opens nothing. */
  lemma BranchEffect(m: Machine, w: string, j: nat)
    requires m.cur.Some? && Modifier(w) && (KeyOf(w) == NoKey || (KeyOf(w) == SelectKey && NextBranch(m)))
    ensures KeywordStep(m, w, j) == Worded(m, m.cur, w, j)
  {
    hide KeyOf, Modifier, NextBranch;
  }

  lemma OneSetWord(code: string, m: Machine, w: string) returns (r: Machine)
    requires AtTop(code, m) && At(code, m.i, w + " ") && m.cur.Some? && w in {"UNION", "EXCEPT", "INTERSECT"}
    ensures Reaches(code, m, r) && r == Worded(m, Led(m.cur), w, m.i + |w| + 1) && Good(code, r) && Clear(code, r.i)
  {
    hide Good, ScanFrom, At, Clear, Reaches, KeywordStep, Upper, Name, KeyOf, Modifier, SetWord;
    KnownWords();
    KnownUppers();
    SetWords();
    r := TopKeyword(code, m, w);
    SetWordEffect(m, w, m.i + |w|);
  }

  lemma OpAt(code: string, m: Machine, op: SetOp) returns (r: Machine)
    requires AtTop(code, m) && At(code, m.i, OpText(op)) && m.cur.Some?
    ensures Reaches(code, m, r) && Good(code, r) && Clear(code, r.i) && NextBranch(r)
    ensures r == m.(cur := Led(m.cur), prev0 := r.prev0, prev1 := r.prev1, i := m.i + |OpText(op)|)
  {
    hide Good, ScanFrom, At, Clear, Reaches, KeywordStep, Upper, Name, KeyOf, Modifier, AtTop;
    TopGood(code, m);
    match op {
      case Union => r := OneSetWord(code, m, "UNION");
      case UnionAll =>
        AtParts(code, m.i, "UNION" + " ", "ALL" + " ");
        var a := OneSetWord(code, m, "UNION");
        KnownWords();
        KnownUppers();
        SetWords();
        r := TopKeyword(code, a, "ALL");
        BranchEffect(a, "ALL", a.i + 3);
        Then(code, m, a, r);
      case Except => r := OneSetWord(code, m, "EXCEPT");
      case Intersect => r := OneSetWord(code, m, "INTERSECT");
    }
  }

  lemma TopGood(code: string, m: Machine)
    requires AtTop(code, m)
    ensures Good(code, m) && m.depth == 0 && Clear(code, m.i)
  {}

  lemma TopBranch(code: string, m: Machine, op: SetOp) returns (r: Machine)
    requires AtTop(code, m) && At(code, m.i, Text(Branch(op))) && m.cur.Some?
    ensures Applies(code, m, r, |Text(Branch(op))|, Led(m.cur), [], "SELECT")
  {
    hide Good, ScanFrom, At, Clear, Reaches, KeywordStep, Upper, Name, KeyOf, Modifier, NextBranch, SetWord;
    AtParts(code, m.i, OpText(op), "SELECT" + " ");
    var a := OpAt(code, m, op);
    KnownWords();
    KnownUppers();
    SetWords();
    r := TopKeyword(code, a, "SELECT");
    BranchEffect(a, "SELECT", a.i + 6);
    Then(code, m, a, r);
    assert m.orphans + [] == m.orphans;
  }

  // ----- Every piece -----

  lemma TopItem(code: string, m: Machine, item: Item, inCase: bool) returns (r: Machine)
    requires AtTop(code, m) && At(code, m.i, Text(item)) && Fits(m.cur, item, inCase)
    requires inCase && m.cur.Some? ==> m.caseDepth > 0
    requires item.Variable? ==> NoAssign(code, m.i + |Text(item)|)
    ensures Applies(code, m, r, |Text(item)|, Effect(m.cur, item), StraysFor(m.cur, item, m.i), LastWord(item, m.prev0))
    decreases item, 0
  {
    hide AtTop, At, Applies, Texts, StraysIn, SelectsIn, Effects, AllFit, Upper, Name, WordText, Numeral, Inert, WordFits, WordEffect, NoAssign, Quoting.Double;
    match item {
      case Word(w) => r := TopWord(code, m, w);
      case Dotted(w, name) => r := TopDotted(code, m, w, name);
      case Assign(name, op) => r := TopAssign(code, m, name, op);
      case Variable(name) => r := TopVariable(code, m, name);
      case Temp(name) => r := TopTemp(code, m, name);
      case Number(text) => r := TopNumber(code, m, text);
      case Bracketed(_) => r := TopDelimited(code, m, item);
      case Quoted(_, _) => r := TopDelimited(code, m, item);
      case Symbol(c) => r := TopSymbol(code, m, c);
      case Group(items) => r := TopGroup(code, m, items);
      case Case(items) => r := TopCase(code, m, items);
      case Else => r := TopElse(code, m);
      case Branch(op) => r := TopBranch(code, m, op);
    }
  }

  /** Any text that fits is scanned to its end, with the effects its pieces have. */
  lemma {:induction false} TopItems(code: string, m: Machine, items: seq<Item>, inCase: bool) returns (r: Machine)
    requires AtTop(code, m) && At(code, m.i, Texts(items)) && AllFit(m.cur, items, inCase)
    requires inCase && m.cur.Some? ==> m.caseDepth > 0
    requires NoAssign(code, m.i + |Texts(items)|)
    ensures Applies(code, m, r, |Texts(items)|, Effects(m.cur, items), StraysForAll(m.cur, items, m.i), LastOf(items, m.prev0))
    decreases items, 0
  {
    hide AtTop, At, Applies, Fits, Text, Strays, Effect, NoAssign, LastWord, Spelled;
    if items == [] {
      TopHere(code, m);
      return m;
    }
    var item, rest, n := items[0], items[1..], |Text(items[0])|;
    AtParts(code, m.i, Text(item), Texts(rest));
    if item.Variable? { RestNoAssign(code, m.i + n, rest, Effect(m.cur, item), inCase); }
    var mid := TopItem(code, m, item, inCase);
    TopEnds(code, m, mid, n, Effect(m.cur, item), StraysFor(m.cur, item, m.i), LastWord(item, m.prev0));
    r := TopItems(code, mid, rest, inCase);
    TopThen(code, m, mid, r, n, |Texts(rest)|, Effect(m.cur, item), Effects(m.cur, items),
            StraysFor(m.cur, item, m.i), StraysForAll(mid.cur, rest, mid.i), LastWord(item, m.prev0), LastOf(items, m.prev0));
    var none: seq<nat> := [];
    assert none + none == none;
  }

  lemma TopHere(code: string, m: Machine)
    requires AtTop(code, m)
    ensures Applies(code, m, m, 0, m.cur, [], m.prev0)
  {
    Here(code, m);
    assert m.orphans + [] == m.orphans;
  }

  lemma TopEnds(code: string, m: Machine, r: Machine, n: nat, cur: Option<Stmt>, strays: seq<nat>, last: string)
    requires Applies(code, m, r, n, cur, strays, last)
    ensures AtTop(code, r) && r.i == m.i + n && r.cur == cur && r.prev0 == last && r.caseDepth == m.caseDepth
  {}

  lemma RestNoAssign(code: string, i: nat, items: seq<Item>, cur: Option<Stmt>, inCase: bool)
    requires At(code, i, Texts(items)) && AllFit(cur, items, inCase) && NoAssign(code, i + |Texts(items)|)
    requires items != [] ==> items[0] != Symbol('=')
    ensures NoAssign(code, i)
  {
    hide At, NoAssign, Effect, Text;
    if items != [] {
      AtParts(code, i, Text(items[0]), Texts(items[1..]));
      ItemNoAssign(code, i, items[0]);
    }
  }
}
