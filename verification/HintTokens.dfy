/** The scanner of collect/hintlint.go one token at a time: where each ends and what its step is. */
module HintTokens {
  import opened HintScan
  import opened HintPrint
  import Quoting

  /** The scan from `m` is the scan from `r`. */
  ghost predicate Reaches(code: string, m: Machine, r: Machine) {
    Good(code, m) && Good(code, r) && ScanFrom(code, m) == ScanFrom(code, r)
  }

  lemma OneStep(code: string, m: Machine)
    requires Good(code, m) && m.i < |code|
    ensures Reaches(code, m, Step(code, m))
  {
    hide Step, Ordered;
    GoodStep(code, m);
  }

  lemma Then(code: string, m: Machine, r: Machine, t: Machine)
    requires Reaches(code, m, r) && Reaches(code, r, t)
    ensures Reaches(code, m, t)
  {}

  lemma Here(code: string, m: Machine)
    requires Good(code, m)
    ensures Reaches(code, m, m)
  {}

  lemma ReachesGood(code: string, m: Machine, r: Machine)
    requires Reaches(code, m, r)
    ensures Good(code, r)
  {}

  // ----- Where a text stands -----

  /** `text` stands in `code` at `i`. */
  predicate At(code: string, i: nat, text: string) {
    i + |text| <= |code| && code[i..i + |text|] == text
  }

  lemma AtParts(code: string, i: nat, a: string, b: string)
    requires At(code, i, a + b)
    ensures At(code, i, a) && At(code, i + |a|, b)
  {
    assert code[i..i + |a|] == (a + b)[..|a|];
    assert code[i + |a|..i + |a| + |b|] == (a + b)[|a|..];
  }

  lemma AtChar(code: string, i: nat, c: char)
    requires At(code, i, [c])
    ensures i < |code| && code[i] == c
  {
    assert code[i..i + 1][0] == c;
  }

  /** The characters of a text that stands in `code`. */
  lemma AtEach(code: string, i: nat, text: string)
    requires At(code, i, text)
    ensures i + |text| <= |code| && forall k :: 0 <= k < |text| ==> code[i + k] == text[k]
  {
    assert text == code[i..i + |text|];
  }

  /** The byte before is no dot, so a word here is not qualified. */
  predicate Clear(code: string, i: nat) { i == 0 || (i <= |code| && code[i - 1] != '.') }

  /** A byte that only moves the scan on. */
  lemma SkipByte(code: string, m: Machine, c: char)
    requires Good(code, m) && At(code, m.i, [c]) && Inert(c)
    ensures Reaches(code, m, m.(i := m.i + 1)) && (c != '.' ==> Clear(code, m.i + 1))
  {
    hide Good, ScanFrom, At;
    AtChar(code, m.i, c);
    OneStep(code, m);
  }

  lemma {:induction false} SkipText(code: string, m: Machine, text: string)
    requires Good(code, m) && At(code, m.i, text) && forall k :: 0 <= k < |text| ==> Inert(text[k])
    ensures Reaches(code, m, m.(i := m.i + |text|))
    decreases |text|
  {
    hide Good, ScanFrom, At, Reaches, Inert;
    if text == "" {
      Here(code, m);
    } else {
      assert text == [text[0]] + text[1..];
      AtParts(code, m.i, [text[0]], text[1..]);
      SkipByte(code, m, text[0]);
      var r := m.(i := m.i + 1);
      ReachesGood(code, m, r);
      SkipText(code, r, text[1..]);
      Then(code, m, r, m.(i := m.i + |text|));
    }
  }

  // ----- Words and numbers -----

  lemma {:induction false} WordEndAt(code: string, i: nat, j: nat)
    requires i <= j < |code| && (forall k :: i <= k < j ==> WordByte(code[k])) && !WordByte(code[j])
    ensures WordEnd(code, i) == j
    decreases j - i
  {
    hide WordByte;
    if i < j { WordEndAt(code, i + 1, j); }
  }

  /** A word, whatever it begins with, and the byte that ends it. */
  lemma WordAt(code: string, i: nat, w: string, c: char)
    requires At(code, i, w + [c]) && w != [] && WordText(w) && !WordByte(c)
    ensures WordEnd(code, i) == i + |w| && code[i] == w[0] && code[i..i + |w|] == w && code[i + |w|] == c && At(code, i + |w|, [c])
  {
    hide WordByte;
    AtParts(code, i, w, [c]);
    AtChar(code, i + |w|, c);
    AtEach(code, i, w);
    WordEndAt(code, i, i + |w|);
  }

  /** A plain word: its step is the one for its depth. */
  lemma WordStepAt(code: string, m: Machine, w: string, c: char)
    requires At(code, m.i, w + [c]) && Name(w) && Clear(code, m.i) && !WordByte(c)
    ensures m.i < |code| && At(code, m.i + |w|, [c])
    ensures Step(code, m) ==
      if m.depth > 0 then InnerStep(m, Upper(w), m.i + |w|)
      else if Upper(w) == "OPTION" && OptionAt(code, m.i).Some? then OptionStep(code, m, m.i + |w|)
      else KeywordStep(m, Upper(w), m.i + |w|)
  {
    hide WordEnd, OptionStep, KeywordStep, NameStep, InnerStep, Upper, OptionAt, NumberEnd, At;
    WordAt(code, m.i, w, c);
    assert WordByte(code[m.i]) && !Digit(code[m.i]);
  }

  /** A variable or a temporary name, at any depth. */
  lemma NameStepAt(code: string, m: Machine, w: string)
    requires At(code, m.i, w + " ") && WordText(w) && w != [] && w[0] in {'@', '#'}
    ensures m.i + |w| < |code| && At(code, m.i + |w|, " ") && code[m.i] == w[0] && code[m.i..m.i + |w|] == w
    ensures Step(code, m) == NameStep(code, m, m.i + |w|)
  {
    hide WordEnd, NameStep, Upper, OptionAt, NumberEnd, At;
    WordAt(code, m.i, w, ' ');
    assert WordByte(code[m.i]) && !Digit(code[m.i]);
    AtChar(code, m.i + |w|, ' ');
  }

  /** A name after a dot. */
  lemma QualifiedAt(code: string, m: Machine, name: string)
    requires At(code, m.i, name + " ") && Name(name) && m.i > 0 && m.i <= |code| && code[m.i - 1] == '.' && m.numberEnd < m.i
    ensures m.i + |name| < |code| && At(code, m.i + |name|, " ") && code[m.i] == name[0] && code[m.i..m.i + |name|] == name
    ensures Step(code, m) == NameStep(code, m, m.i + |name|)
  {
    hide WordEnd, NameStep, Upper, OptionAt, NumberEnd, At;
    WordAt(code, m.i, name, ' ');
    assert WordByte(code[m.i]) && !Digit(code[m.i]);
    AtChar(code, m.i + |name|, ' ');
  }

  lemma {:induction false} DigitsEndAt(code: string, i: nat, j: nat, hex: bool)
    requires i <= j < |code| && code[j] == ' '
    requires forall k :: i <= k < j ==> Digit(code[k]) || code[k] == '.' || (hex && HexDigit(code[k]))
    ensures DigitsEnd(code, i, hex) == j
    decreases j - i
  {
    hide HexDigit;
    if i < j { DigitsEndAt(code, i + 1, j, hex); } else { SpaceIsNoHex(); }
  }

  lemma SpaceIsNoHex()
    ensures !HexDigit(' ') && !Digit(' ')
  {}

  lemma NumberAt(code: string, i: nat, t: string)
    requires At(code, i, t + " ") && Numeral(t)
    ensures At(code, i + |t|, " ") && i < |code| && code[i] == t[0] && NumberEnd(code, i) == i + |t|
  {
    hide HexDigit, DigitsEnd;
    AtParts(code, i, t, " ");
    AtEach(code, i, t);
    AtChar(code, i + |t|, ' ');
    SpaceIsNoHex();
    var hex := HexAt(t, 0);
    assert HexAt(code, i) == hex;
    DigitsEndAt(code, if hex then i + 2 else i + 1, i + |t|, hex);
  }

  /** A number's step remembers where it ended. */
  lemma NumberStepAt(code: string, m: Machine, t: string)
    requires At(code, m.i, t + " ") && Numeral(t)
    ensures m.i + |t| < |code| && At(code, m.i + |t|, " ") && code[m.i] == t[0] && code[m.i..m.i + |t|] == t
    ensures Step(code, m) == NameStep(code, m.(numberEnd := m.i + |t|), m.i + |t|)
  {
    hide WordEnd, NameStep, Upper, OptionAt, NumberEnd, At, HexAt;
    NumberAt(code, m.i, t);
    AtText(code, m.i, t, " ");
    assert WordByte(code[m.i]) && Digit(code[m.i]);
    AtChar(code, m.i + |t|, ' ');
  }

  lemma AtText(code: string, i: nat, a: string, b: string)
    requires At(code, i, a + b)
    ensures i + |a| <= |code| && code[i..i + |a|] == a
  {
    AtParts(code, i, a, b);
  }

  // ----- Names between delimiters -----

  /** One escaped or plain character of a bracketed name. */
  lemma BracketStep(code: string, i: nat, c: char)
    requires At(code, i, if c == ']' then "]]" else [c])
    ensures BracketEnd(code, i) == BracketEnd(code, i + if c == ']' then 2 else 1)
  {
    AtEach(code, i, if c == ']' then "]]" else [c]);
  }

  lemma BracketCloses(code: string, i: nat)
    requires At(code, i, "] ")
    ensures BracketEnd(code, i) == i + 1
  {
    AtEach(code, i, "] ");
  }

  lemma {:induction false} BracketEndAt(code: string, i: nat, name: string)
    requires At(code, i, Quoting.Double(name, ']') + "] ")
    ensures BracketEnd(code, i) == i + |Quoting.Double(name, ']')| + 1
    decreases |name|
  {
    hide At, BracketEnd;
    if name == "" {
      assert Quoting.Double(name, ']') + "] " == "] ";
      BracketCloses(code, i);
      return;
    }
    var head, rest := if name[0] == ']' then "]]" else [name[0]], Quoting.Double(name[1..], ']');
    assert Quoting.Double(name, ']') + "] " == head + (rest + "] ");
    AtParts(code, i, head, rest + "] ");
    BracketStep(code, i, name[0]);
    BracketEndAt(code, i + |head|, name[1..]);
  }

  lemma BracketedStepAt(code: string, m: Machine, name: string)
    requires At(code, m.i, Text(Bracketed(name)))
    ensures m.i < |code| && At(code, m.i + |Text(Bracketed(name))| - 1, " ")
    ensures Step(code, m) == m.(i := m.i + |Text(Bracketed(name))| - 1)
  {
    hide BracketEnd, Quoting.Double, At;
    var d := Quoting.Double(name, ']');
    assert Text(Bracketed(name)) == "[" + (d + "] ") == ("[" + d + "]") + " ";
    AtParts(code, m.i, "[" + d + "]", " ");
    AtParts(code, m.i, "[", d + "] ");
    AtChar(code, m.i, '[');
    BracketEndAt(code, m.i + 1, name);
  }

  lemma {:induction false} QuoteEndAt(code: string, i: nat, j: nat, q: char)
    requires i <= j < |code| && code[j] == q && forall k :: i <= k < j ==> code[k] != q
    ensures QuoteEnd(code, i, q) == j + 1
    decreases j - i
  {
    if i < j { QuoteEndAt(code, i + 1, j, q); }
  }

  lemma QuotedStepAt(code: string, m: Machine, q: char, text: string)
    requires At(code, m.i, Text(Quoted(q, text))) && Spelled(Quoted(q, text))
    ensures m.i < |code| && At(code, m.i + |text| + 2, " ")
    ensures Step(code, m) == m.(i := m.i + |text| + 2)
  {
    hide QuoteEnd, At;
    assert Text(Quoted(q, text)) == [q] + (text + ([q] + " "));
    AtParts(code, m.i, [q], text + ([q] + " "));
    AtParts(code, m.i + 1, text, [q] + " ");
    AtParts(code, m.i + 1 + |text|, [q], " ");
    AtChar(code, m.i, q);
    AtChar(code, m.i + 1 + |text|, q);
    AtEach(code, m.i + 1, text);
    QuoteEndAt(code, m.i + 1, m.i + 1 + |text|, q);
  }

  lemma ParenAt(code: string, m: Machine, c: char)
    requires Good(code, m) && At(code, m.i, [c]) && c in {'(', ')'} && (c == ')' ==> m.depth > 0)
    ensures Reaches(code, m, m.(i := m.i + 1, depth := if c == '(' then m.depth + 1 else m.depth - 1))
    ensures Clear(code, m.i + 1)
  {
    hide Good, ScanFrom, At;
    AtChar(code, m.i, c);
    OneStep(code, m);
  }

  // ----- Assignments -----

  lemma SkipOne(code: string, j: nat)
    requires j + 1 < |code| && Space(code[j]) && !Space(code[j + 1])
    ensures SkipSpace(code, j) == j + 1
  {
    assert SkipSpace(code, j + 1) == j + 1;
  }

  lemma AssignOpAt(code: string, j: nat, op: string)
    requires At(code, j, " " + op + " ") && AssignText(op)
    ensures AssignOp(code, j)
  {
    hide At, SkipSpace;
    var text := " " + op + " ";
    AtEach(code, j, text);
    assert text[0] == ' ' && text[1] == op[0] && (|op| == 2 ==> text[2] == op[1]);
    assert code[j + 0] == text[0] && code[j + 1] == text[1];
    SkipOne(code, j);
    if |op| == 2 { assert code[j + 2] == text[2]; }
  }

  /** What stands after a space is no assignment. */
  predicate NoAssign(code: string, i: nat) { i <= |code| && !AssignOp(code, i) }

  lemma NoAssignSpace(code: string, i: nat)
    requires At(code, i, " ") && NoAssign(code, i + 1)
    ensures NoAssign(code, i)
  {
    AtChar(code, i, ' ');
  }

  lemma NoAssignChar(code: string, i: nat)
    requires i < |code| && !Space(code[i]) && code[i] != '=' && (Operator(code[i]) ==> i + 1 < |code| && code[i + 1] != '=')
    ensures NoAssign(code, i)
  {}

  lemma WordStartsNoAssign(code: string, i: nat)
    requires i < |code| && (WordByte(code[i]) || code[i] in {'[', '(', '"', '\'', ';'})
    ensures NoAssign(code, i)
  {
    NoAssignChar(code, i);
  }

  lemma SymbolNoAssign(code: string, i: nat, c: char)
    requires At(code, i, [c] + " ") && !Space(c) && c != '='
    ensures NoAssign(code, i)
  {
    AtEach(code, i, [c] + " ");
    NoAssignChar(code, i);
  }

  /** No piece but an equals sign makes an assignment of the variable before it. */
  lemma ItemNoAssign(code: string, i: nat, item: Item)
    requires At(code, i, Text(item)) && Spelled(item) && item != Symbol('=')
    ensures NoAssign(code, i)
  {
    hide At, NoAssign, Space, AssignOp;
    if item.Symbol? {
      SymbolNoAssign(code, i, item.c);
    } else {
      AtEach(code, i, Text(item));
      ItemStarts(item);
      WordStartsNoAssign(code, i);
    }
  }

  lemma ItemStarts(item: Item)
    requires Spelled(item) && !item.Symbol?
    ensures Text(item) != "" && var c := Text(item)[0]; WordByte(c) || c in {'[', '(', '"', '\''}
  {
    match item {
      case Word(w) =>
      case Dotted(w, name) =>
      case Assign(_, _) =>
      case Variable(_) =>
      case Temp(_) =>
      case Number(t) => assert Text(item)[0] == t[0];
      case Branch(op) => assert op.UnionAll? ==> Text(item)[0] == OpText(op)[0] == ("UNION" + " ")[0];
      case _ =>
    }
  }
}
