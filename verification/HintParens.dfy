/** Inside parentheses the scanner of collect/hintlint.go finds subqueries and nothing else. */
module HintParens {
  import opened Options
  import opened HintScan
  import opened HintPrint
  import opened HintTokens
  import Quoting

  ghost predicate InParens(code: string, m: Machine) {
    Good(code, m) && m.depth > 0 && Clear(code, m.i) && m.numberEnd <= m.i
  }

  function Subquery(cur: Option<Stmt>, selects: seq<nat>): Option<Stmt> {
    if cur.Some? then Some(cur.value.(subquery := cur.value.subquery || selects != [])) else None
  }

  /** `n` bytes were scanned, and nothing came of them but these SELECTs. */
  ghost predicate Inner(code: string, m: Machine, r: Machine, n: nat, selects: seq<nat>) {
    && Reaches(code, m, r) && InParens(code, r)
    && r == m.(i := m.i + n, cur := Subquery(m.cur, selects), numberEnd := r.numberEnd,
               orphans := if m.cur.None? then m.orphans + selects else m.orphans)
  }

  lemma InnerThen(code: string, m: Machine, r: Machine, t: Machine, n: nat, k: nat, a: seq<nat>, b: seq<nat>)
    requires Inner(code, m, r, n, a) && Inner(code, r, t, k, b)
    ensures Inner(code, m, t, n + k, a + b)
  {
    hide Reaches, InParens;
    Then(code, m, r, t);
    assert (m.orphans + a) + b == m.orphans + (a + b);
    assert a + b != [] <==> a != [] || b != [];
  }

  lemma InnerHere(code: string, m: Machine)
    requires InParens(code, m)
    ensures Inner(code, m, m, 0, [])
  {
    Here(code, m);
    assert m.orphans + [] == m.orphans;
  }

  lemma InnerWord(code: string, m: Machine, w: string) returns (r: Machine)
    requires InParens(code, m) && At(code, m.i, w + " ") && Name(w)
    ensures Inner(code, m, r, |w| + 1, if Upper(w) == "SELECT" then [m.i] else [])
  {
    hide Step, Upper, Good, ScanFrom, At, Name, Clear;
    WordStepAt(code, m, w, ' ');
    NameIsSome(w);
    r := InnerStepped(code, m, w);
  }

  /** After the step of a word, the space. */
  lemma InnerStepped(code: string, m: Machine, w: string) returns (r: Machine)
    requires InParens(code, m) && m.i < |code| && At(code, m.i + |w|, " ") && w != ""
    requires Step(code, m) == InnerStep(m, Upper(w), m.i + |w|)
    ensures Inner(code, m, r, |w| + 1, if Upper(w) == "SELECT" then [m.i] else [])
  {
    hide Step, Upper, Good, ScanFrom, At, Clear, Reaches;
    OneStep(code, m);
    var mid := Step(code, m);
    ReachesGood(code, m, mid);
    SkipByte(code, mid, ' ');
    r := mid.(i := mid.i + 1);
    Then(code, m, mid, r);
    ReachesGood(code, mid, r);
    assert m.orphans + [] == m.orphans;
  }

  /** A token the scan only steps over, and the space after it. */
  lemma InnerSkipped(code: string, m: Machine, mid: Machine) returns (r: Machine)
    requires InParens(code, m) && Reaches(code, m, mid) && At(code, mid.i, " ")
    requires mid.i >= m.i && mid == m.(i := mid.i, numberEnd := mid.numberEnd) && mid.numberEnd <= mid.i
    ensures Inner(code, m, r, mid.i + 1 - m.i, [])
  {
    hide Good, ScanFrom, At, Clear, Reaches;
    ReachesGood(code, m, mid);
    SkipByte(code, mid, ' ');
    r := mid.(i := mid.i + 1);
    Then(code, m, mid, r);
    ReachesGood(code, mid, r);
    assert m.orphans + [] == m.orphans;
  }

  lemma InnerName(code: string, m: Machine, w: string) returns (r: Machine)
    requires InParens(code, m) && At(code, m.i, w + " ") && WordText(w) && w != "" && w[0] in {'@', '#'}
    ensures Inner(code, m, r, |w| + 1, [])
  {
    hide Step, Good, ScanFrom, At, Clear, Reaches;
    NameStepAt(code, m, w);
    OneStep(code, m);
    r := InnerSkipped(code, m, Step(code, m));
  }

  lemma InnerNumber(code: string, m: Machine, t: string) returns (r: Machine)
    requires InParens(code, m) && At(code, m.i, t + " ") && Numeral(t)
    ensures Inner(code, m, r, |t| + 1, [])
  {
    hide Step, Good, ScanFrom, At, Clear, Reaches;
    NumberStepAt(code, m, t);
    OneStep(code, m);
    r := InnerSkipped(code, m, Step(code, m));
  }

  lemma InnerSymbol(code: string, m: Machine, c: char) returns (r: Machine)
    requires InParens(code, m) && At(code, m.i, [c] + " ") && Inert(c)
    ensures Inner(code, m, r, 2, [])
  {
    hide Good, ScanFrom, At, Clear, Reaches, Inert;
    AtParts(code, m.i, [c], " ");
    SkipByte(code, m, c);
    r := InnerSkipped(code, m, m.(i := m.i + 1));
  }

  lemma {:induction false} InnerSymbols(code: string, m: Machine, op: string) returns (r: Machine)
    requires InParens(code, m) && At(code, m.i, op + " ") && AssignText(op)
    ensures Inner(code, m, r, |op| + 1, [])
  {
    hide Good, ScanFrom, At, Clear, Reaches, Inert;
    if |op| == 1 {
      assert op == [op[0]];
      EqualsIsInert(op[0]);
      r := InnerSymbol(code, m, op[0]);
    } else {
      assert op + " " == [op[0]] + ([op[1]] + " ");
      AtParts(code, m.i, [op[0]], [op[1]] + " ");
      AtParts(code, m.i + 1, [op[1]], " ");
      EqualsIsInert(op[0]);
      EqualsIsInert(op[1]);
      SkipByte(code, m, op[0]);
      var mid := m.(i := m.i + 1);
      ReachesGood(code, m, mid);
      SkipByte(code, mid, op[1]);
      Then(code, m, mid, mid.(i := mid.i + 1));
      r := InnerSkipped(code, m, mid.(i := mid.i + 1));
    }
  }

  lemma EqualsIsInert(c: char)
    requires c == '=' || Operator(c)
    ensures Inert(c)
  {}

  /** A qualified name: the word, the dot, and a name that is no word. */
  lemma InnerDotted(code: string, m: Machine, w: string, name: string) returns (r: Machine)
    requires InParens(code, m) && At(code, m.i, Text(Dotted(w, name))) && Name(w) && Name(name)
    ensures Inner(code, m, r, |Text(Dotted(w, name))|, if Upper(w) == "SELECT" then [m.i] else [])
  {
    hide Step, Upper, Good, ScanFrom, At, Name, Clear, Reaches;
    assert Text(Dotted(w, name)) == (w + ['.']) + (name + " ");
    AtParts(code, m.i, w + ['.'], name + " ");
    NameIsSome(w);
    WordStepAt(code, m, w, '.');
    OneStep(code, m);
    var a := Step(code, m);
    ReachesGood(code, m, a);
    SkipByte(code, a, '.');
    AtChar(code, a.i, '.');
    var b := a.(i := a.i + 1);
    ReachesGood(code, a, b);
    Then(code, m, a, b);
    QualifiedAt(code, b, name);
    OneStep(code, b);
    var c := Step(code, b);
    NameIsSome(name);
    Then(code, m, b, c);
    ReachesGood(code, b, c);
    SkipByte(code, c, ' ');
    r := c.(i := c.i + 1);
    Then(code, m, c, r);
    ReachesGood(code, c, r);
    assert m.orphans + [] == m.orphans;
  }

  lemma NameIsSome(w: string)
    requires Name(w)
    ensures w != "" && w[0] != '@' && w[0] != '#'
  {}

  lemma InnerAssign(code: string, m: Machine, name: string, op: string) returns (r: Machine)
    requires InParens(code, m) && At(code, m.i, Text(Assign(name, op))) && WordText(name) && AssignText(op)
    ensures Inner(code, m, r, |Text(Assign(name, op))|, [])
  {
    hide At, Inner, InParens, WordText;
    var w := "@" + name;
    assert Text(Assign(name, op)) == (w + " ") + (op + " ");
    AtParts(code, m.i, w + " ", op + " ");
    AtSignIsWord(name);
    var mid := InnerName(code, m, w);
    InnerEnds(code, m, mid, |w| + 1, []);
    r := InnerSymbols(code, mid, op);
    InnerThen(code, m, mid, r, |w| + 1, |op| + 1, [], []);
    var none: seq<nat> := [];
    assert none + none == none;
  }

  lemma AtSignIsWord(name: string)
    requires WordText(name)
    ensures WordText("@" + name) && WordText("#" + name)
  {}

  lemma InnerEnds(code: string, m: Machine, r: Machine, n: nat, selects: seq<nat>)
    requires Inner(code, m, r, n, selects)
    ensures InParens(code, r) && r.i == m.i + n && r.depth == m.depth
  {}

  /** The words of a set operator and of the cases are spelled as words. */
  lemma KnownWords()
    ensures Name("UNION") && Name("ALL") && Name("EXCEPT") && Name("INTERSECT") && Name("SELECT") && Name("CASE") && Name("END") && Name("ELSE")
  {}

  lemma KnownUppers()
    ensures Upper("UNION") == "UNION" && Upper("ALL") == "ALL" && Upper("EXCEPT") == "EXCEPT" && Upper("INTERSECT") == "INTERSECT"
    ensures Upper("SELECT") == "SELECT" && Upper("CASE") == "CASE" && Upper("END") == "END" && Upper("ELSE") == "ELSE"
  {}

  lemma InnerBranch(code: string, m: Machine, op: SetOp) returns (r: Machine)
    requires InParens(code, m) && At(code, m.i, Text(Branch(op)))
    ensures Inner(code, m, r, |Text(Branch(op))|, [m.i + |OpText(op)|])
  {
    hide At, Inner, InParens, Upper, Name;
    KnownWords();
    KnownUppers();
    AtParts(code, m.i, OpText(op), "SELECT" + " ");
    var mid := InnerOp(code, m, op);
    InnerEnds(code, m, mid, |OpText(op)|, []);
    r := InnerWord(code, mid, "SELECT");
    InnerThen(code, m, mid, r, |OpText(op)|, 7, [], [mid.i]);
    assert [] + [mid.i] == [mid.i];
  }

  lemma InnerOp(code: string, m: Machine, op: SetOp) returns (r: Machine)
    requires InParens(code, m) && At(code, m.i, OpText(op))
    ensures Inner(code, m, r, |OpText(op)|, [])
  {
    hide At, Inner, InParens, Upper, Name;
    KnownWords();
    KnownUppers();
    match op {
      case Union => r := InnerWord(code, m, "UNION");
      case UnionAll =>
        AtParts(code, m.i, "UNION" + " ", "ALL" + " ");
        var mid := InnerWord(code, m, "UNION");
        InnerEnds(code, m, mid, 6, []);
        r := InnerWord(code, mid, "ALL");
        InnerThen(code, m, mid, r, 6, 4, [], []);
        var none: seq<nat> := [];
        assert none + none == none;
      case Except => r := InnerWord(code, m, "EXCEPT");
      case Intersect => r := InnerWord(code, m, "INTERSECT");
    }
  }

  /** A parenthesised group, at any depth, leaves nothing behind but the subqueries it holds. */
  lemma GroupAt(code: string, m: Machine, items: seq<Item>) returns (r: Machine)
    requires Good(code, m) && m.numberEnd <= m.i && At(code, m.i, Text(Group(items))) && Spelled(Group(items))
    ensures var n, selects := |Text(Group(items))|, SelectsIn(items, m.i + 1);
      && Reaches(code, m, r) && Clear(code, r.i) && r.numberEnd <= r.i
      && r == m.(i := m.i + n, cur := Subquery(m.cur, selects), numberEnd := r.numberEnd,
                 orphans := if m.cur.None? then m.orphans + selects else m.orphans)
    decreases items, 1
  {
    hide Good, ScanFrom, At, Clear, Reaches, SelectsIn, Texts;
    var body := Texts(items);
    assert Text(Group(items)) == "(" + (body + (")" + " "));
    AtParts(code, m.i, "(", body + (")" + " "));
    AtParts(code, m.i + 1, body, ")" + " ");
    AtParts(code, m.i + 1 + |body|, ")", " ");
    ParenAt(code, m, '(');
    var a := m.(i := m.i + 1, depth := m.depth + 1);
    ReachesGood(code, m, a);
    var b := InnerItems(code, a, items);
    ReachesGood(code, a, b);
    ParenAt(code, b, ')');
    var c := b.(i := b.i + 1, depth := m.depth);
    ReachesGood(code, b, c);
    SkipByte(code, c, ' ');
    r := c.(i := c.i + 1);
    Then(code, m, a, b);
    Then(code, m, b, c);
    Then(code, m, c, r);
  }

  lemma InnerGroup(code: string, m: Machine, items: seq<Item>) returns (r: Machine)
    requires InParens(code, m) && At(code, m.i, Text(Group(items))) && Spelled(Group(items))
    ensures Inner(code, m, r, |Text(Group(items))|, SelectsIn(items, m.i + 1))
    decreases items, 2
  {
    hide Good, ScanFrom, At, Clear, Reaches, SelectsIn, Texts, Text;
    r := GroupAt(code, m, items);
    ReachesGood(code, m, r);
  }

  lemma InnerCase(code: string, m: Machine, items: seq<Item>) returns (r: Machine)
    requires InParens(code, m) && At(code, m.i, Text(Case(items))) && Spelled(Case(items))
    ensures Inner(code, m, r, |Text(Case(items))|, SelectsIn(items, m.i + 5))
    decreases items, 1
  {
    hide At, Inner, InParens, Upper, Name, Texts, SelectsIn;
    KnownWords();
    KnownUppers();
    var body := Texts(items);
    assert Text(Case(items)) == ("CASE" + " ") + (body + ("END" + " "));
    AtParts(code, m.i, "CASE" + " ", body + ("END" + " "));
    AtParts(code, m.i + 5, body, "END" + " ");
    var a := InnerWord(code, m, "CASE");
    InnerEnds(code, m, a, 5, []);
    var b := InnerItems(code, a, items);
    InnerEnds(code, a, b, |body|, SelectsIn(items, a.i));
    r := InnerWord(code, b, "END");
    InnerThen(code, m, a, b, 5, |body|, [], SelectsIn(items, a.i));
    InnerThen(code, m, b, r, 5 + |body|, 4, [] + SelectsIn(items, a.i), []);
    assert ([] + SelectsIn(items, a.i)) + [] == SelectsIn(items, a.i);
  }

  lemma InnerItem(code: string, m: Machine, item: Item) returns (r: Machine)
    requires InParens(code, m) && At(code, m.i, Text(item)) && Spelled(item)
    ensures Inner(code, m, r, |Text(item)|, Selects(item, m.i))
    decreases item, 0
  {
    hide At, Inner, InParens, Upper, Name, Texts, SelectsIn, WordText, Numeral, Inert;
    match item {
      case Word(w) => r := InnerWord(code, m, w);
      case Dotted(w, name) => r := InnerDotted(code, m, w, name);
      case Assign(name, op) => r := InnerAssign(code, m, name, op);
      case Variable(name) => AtSignIsWord(name); r := InnerName(code, m, "@" + name);
      case Temp(name) => AtSignIsWord(name); r := InnerName(code, m, "#" + name);
      case Number(text) => r := InnerNumber(code, m, text);
      case Bracketed(_) => r := InnerDelimited(code, m, item);
      case Quoted(_, _) => r := InnerDelimited(code, m, item);
      case Symbol(c) => r := InnerSymbol(code, m, c);
      case Group(items) => r := InnerGroup(code, m, items);
      case Case(items) => r := InnerCase(code, m, items);
      case Else => KnownWords(); KnownUppers(); r := InnerWord(code, m, "ELSE");
      case Branch(op) => r := InnerBranch(code, m, op);
    }
  }

  /** The step over a delimited name, at any depth. */
  lemma DelimitedStep(code: string, m: Machine, item: Item)
    requires Good(code, m) && At(code, m.i, Text(item)) && Spelled(item) && (item.Bracketed? || item.Quoted?)
    ensures var n := |Text(item)| - 1; n > 0 && At(code, m.i + n, " ") && Reaches(code, m, m.(i := m.i + n))
  {
    hide Good, At, Reaches, Step, Quoting.Double;
    if item.Bracketed? { BracketedStepAt(code, m, item.name); } else { QuotedStepAt(code, m, item.q, item.text); }
    OneStep(code, m);
  }

  lemma InnerDelimited(code: string, m: Machine, item: Item) returns (r: Machine)
    requires InParens(code, m) && At(code, m.i, Text(item)) && Spelled(item) && (item.Bracketed? || item.Quoted?)
    ensures Inner(code, m, r, |Text(item)|, [])
  {
    hide Good, At, Reaches, Clear, Text, Spelled;
    DelimitedStep(code, m, item);
    r := InnerSkipped(code, m, m.(i := m.i + |Text(item)| - 1));
  }

  lemma {:induction false} InnerItems(code: string, m: Machine, items: seq<Item>) returns (r: Machine)
    requires InParens(code, m) && At(code, m.i, Texts(items)) && forall x :: x in items ==> Spelled(x)
    ensures Inner(code, m, r, |Texts(items)|, SelectsIn(items, m.i))
    decreases items, 0
  {
    hide At, Inner, InParens, Spelled, Text, Selects;
    if items == [] {
      InnerHere(code, m);
      return m;
    }
    var n := |Text(items[0])|;
    AtParts(code, m.i, Text(items[0]), Texts(items[1..]));
    var mid := InnerItem(code, m, items[0]);
    InnerEnds(code, m, mid, n, Selects(items[0], m.i));
    r := InnerItems(code, mid, items[1..]);
    InnerThen(code, m, mid, r, n, |Texts(items[1..])|, Selects(items[0], m.i), SelectsIn(items[1..], mid.i));
  }
}
