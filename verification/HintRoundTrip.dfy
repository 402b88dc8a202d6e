/**
 Printing a list of statements and scanning it: the scanner of collect/hintlint.go gets back
 the statements that were printed, their spans, their hints and what they emit, and the
 subqueries that stand outside them.
 */
module HintRoundTrip {
  import opened Options
  import opened HintScan
  import opened HintPrint
  import opened HintTokens
  import opened HintTop
  import opened HintClause

  // ----- Opening a statement -----

  /** The scan stands between statements. */
  ghost predicate Between(code: string, m: Machine) { AtTop(code, m) && m.cur.None? && m.prev0 == "" }

  lemma KeywordIsName(kind: Kind)
    ensures Name(Keyword(kind)) && Upper(Keyword(kind)) == Keyword(kind) && Keyword(kind) != "OPTION"
    ensures !SetWord(Keyword(kind)) && Keyword(kind) != "ALL"
  {}

  lemma KeywordKey(kind: Kind)
    ensures KeyOf(Keyword(kind)) ==
      if kind == KindSelect then SelectKey else if kind == KindCTE then WithKey else DmlKey(kind)
    ensures Modifier(Keyword(kind)) == (kind == KindSelect || kind == KindCTE)
  {}

  lemma OpensEffect(m: Machine, kind: Kind, j: nat)
    requires m.cur.None? && PrevOk(m) && m.caseDepth == 0
    ensures KeywordStep(m, Keyword(kind), j) == Worded(m, Some(Opened(kind, m.i, m.prev0)), Keyword(kind), j)
  {
    hide KeyOf, Modifier, Keyword, SetWord;
    KeywordKey(kind);
    assert !NextBranch(m) by { SetWordsAll(); }
  }

  lemma SetWordsAll()
    ensures SetWord("UNION") && SetWord("EXCEPT") && SetWord("INTERSECT")
  {}

  lemma HandsEffect(m: Machine, kind: Kind, j: nat)
    requires m.cur.Some? && m.cur.value.kind == KindCTE && PrevOk(m) && kind != KindCTE
    ensures KeywordStep(m, Keyword(kind), j) == Worded(m, Some(Handed(m.cur.value, kind)), Keyword(kind), j)
  {
    hide KeyOf, Modifier, Keyword, SetWord;
    KeywordKey(kind);
    assert !NextBranch(m) by { SetWordsAll(); }
  }

  lemma Opens(code: string, m: Machine, kind: Kind) returns (r: Machine)
    requires AtTop(code, m) && m.cur.None? && At(code, m.i, Keyword(kind) + " ")
    ensures Applies(code, m, r, |Keyword(kind)| + 1, Some(Opened(kind, m.i, m.prev0)), [], Keyword(kind))
  {
    hide Good, ScanFrom, At, Clear, Reaches, KeywordStep, Upper, Name, SetWord, Keyword, Opened;
    KeywordIsName(kind);
    r := TopKeyword(code, m, Keyword(kind));
    OpensEffect(m, kind, m.i + |Keyword(kind)|);
    assert m.orphans + [] == m.orphans;
  }

  lemma Hands(code: string, m: Machine, kind: Kind) returns (r: Machine)
    requires AtTop(code, m) && m.cur.Some? && m.cur.value.kind == KindCTE && kind != KindCTE && At(code, m.i, Keyword(kind) + " ")
    ensures Applies(code, m, r, |Keyword(kind)| + 1, Some(Handed(m.cur.value, kind)), [], Keyword(kind))
  {
    hide Good, ScanFrom, At, Clear, Reaches, KeywordStep, Upper, Name, SetWord, Keyword, Handed;
    KeywordIsName(kind);
    r := TopKeyword(code, m, Keyword(kind));
    HandsEffect(m, kind, m.i + |Keyword(kind)|);
    assert m.orphans + [] == m.orphans;
  }

  // ----- Where a statement stands makes no difference -----

  function Moved(cur: Option<Stmt>, at: nat): Option<Stmt> {
    if cur.Some? then Some(cur.value.(start := at, end := at)) else None
  }

  lemma WordMoves(cur: Option<Stmt>, at: nat, w: string)
    ensures WordFits(Moved(cur, at), w) == WordFits(cur, w)
    ensures Effect(Moved(cur, at), Word(w)) == Moved(Effect(cur, Word(w)), at)
  {
    hide KeyOf, Upper, SetWord, Modifier;
  }

  lemma DottedMoves(cur: Option<Stmt>, at: nat, item: Item)
    requires item.Dotted?
    ensures forall inCase :: Fits(Moved(cur, at), item, inCase) == Fits(cur, item, inCase)
    ensures Effect(Moved(cur, at), item) == Moved(Effect(cur, item), at)
  {
    hide Upper, WordFits, WordEffect, Spelled, SetWord;
    WordMoves(cur, at, item.text);
  }

  lemma CaseMoves(cur: Option<Stmt>, at: nat, items: seq<Item>, inCase: bool)
    ensures Fits(Moved(cur, at), Case(items), inCase) == Fits(cur, Case(items), inCase)
    ensures Effect(Moved(cur, at), Case(items)) == Moved(Effect(cur, Case(items)), at)
    decreases items, 2
  {
    hide Upper, WordFits, WordEffect, Spelled, HasSelect, SetWord, AllFit, Effects;
    assert Led(Moved(cur, at)) == Moved(Led(cur), at);
    ItemsMove(Led(cur), at, items, true);
  }

  lemma LeafMoves(cur: Option<Stmt>, at: nat, item: Item, inCase: bool)
    requires !item.Word? && !item.Dotted? && !item.Case?
    ensures Fits(Moved(cur, at), item, inCase) == Fits(cur, item, inCase)
    ensures Effect(Moved(cur, at), item) == Moved(Effect(cur, item), at)
  {
    hide Upper, WordFits, WordEffect, Spelled, HasSelect, SetWord, AllFit, Effects;
  }

  lemma ItemMoves(cur: Option<Stmt>, at: nat, item: Item, inCase: bool)
    ensures Fits(Moved(cur, at), item, inCase) == Fits(cur, item, inCase)
    ensures Effect(Moved(cur, at), item) == Moved(Effect(cur, item), at)
    decreases item, 0
  {
    match item {
      case Word(w) => WordMoves(cur, at, w);
      case Dotted(w, _) => DottedMoves(cur, at, item);
      case Case(items) => CaseMoves(cur, at, items, inCase);
      case _ => LeafMoves(cur, at, item, inCase);
    }
  }

  lemma {:induction false} ItemsMove(cur: Option<Stmt>, at: nat, items: seq<Item>, inCase: bool)
    ensures AllFit(Moved(cur, at), items, inCase) == AllFit(cur, items, inCase)
    ensures Effects(Moved(cur, at), items) == Moved(Effects(cur, items), at)
    decreases items, 1
  {
    hide Fits, Effect, Moved;
    if items != [] {
      ItemMoves(cur, at, items[0], inCase);
      ItemsMove(Effect(cur, items[0]), at, items[1..], inCase);
    }
  }

  lemma {:induction false} KindStays(cur: Option<Stmt>, items: seq<Item>)
    requires cur.Some?
    ensures Effects(cur, items).value.kind == cur.value.kind && Effects(cur, items).value.cursor == cur.value.cursor
    decreases items, 1
  {
    hide Effect;
    if items != [] {
      ItemKeepsKind(cur, items[0]);
      KindStays(Effect(cur, items[0]), items[1..]);
    }
  }

  lemma ItemKeepsKind(cur: Option<Stmt>, item: Item)
    requires cur.Some?
    ensures Effect(cur, item).value.kind == cur.value.kind && Effect(cur, item).value.cursor == cur.value.cursor
    decreases item, 0
  {
    hide KeyOf, Upper, Modifier, HasSelect, Effects;
    if item.Case? { KindStays(Led(cur), item.items); }
  }

  // ----- The end of a statement -----

  /** The statement as it is recorded. */
  function Ended(cur: Option<Stmt>, hinted: bool, end: nat): seq<Stmt> {
    if cur.Some? then [cur.value.(hinted := hinted, end := end)] else []
  }

  lemma SemicolonCloses(code: string, m: Machine) returns (r: Machine)
    requires AtTop(code, m) && At(code, m.i, ";")
    ensures Reaches(code, m, r) && Between(code, r) && r.i == m.i + 1 && r.orphans == m.orphans
    ensures r.out == m.out + Ended(m.cur, false, m.i)
  {
    hide ScanFrom, At, Ordered;
    AtChar(code, m.i, ';');
    OneStep(code, m);
    r := Step(code, m);
    ReachesGood(code, m, r);
    assert m.out + [] == m.out;
  }

  /** The printed hint ends the statement at its own last byte. */
  lemma HintCloses(code: string, m: Machine, tail: char) returns (r: Machine)
    requires AtTop(code, m) && m.cur.Some? && At(code, m.i, HINT + [tail]) && tail in {';', ' '}
    ensures Reaches(code, m, r) && Between(code, r) && r.i == m.i + |HINT| + 1 && r.orphans == m.orphans
    ensures r.out == m.out + Ended(m.cur, true, m.i + |HINT|)
  {
    hide Step, Good, ScanFrom, At, Clear, HintAt, OptionAt, SkipParens, KeywordStep, SetWord, Reaches, AtTop;
    TopGood(code, m);
    AtParts(code, m.i, HINT, [tail]);
    HintStep(code, m);
    var mid := CloseAt(m.(cur := Some(m.cur.value.(hinted := true))), m.i + |HINT|).(prev0 := "", prev1 := "", i := m.i + |HINT|);
    AfterHint(code, m, mid);
    if tail == ';' {
      r := SemicolonCloses(code, mid);
      assert mid.out + [] == mid.out;
    } else {
      ReachesGood(code, m, mid);
      SkipByte(code, mid, ' ');
      r := mid.(i := mid.i + 1);
      ReachesGood(code, mid, r);
      SpaceBetween(code, mid, r);
    }
    Then(code, m, mid, r);
  }

  lemma HintStep(code: string, m: Machine)
    requires Good(code, m) && m.depth == 0 && Clear(code, m.i) && m.cur.Some? && At(code, m.i, HINT)
    ensures var e := m.i + |HINT|;
      Reaches(code, m, CloseAt(m.(cur := Some(m.cur.value.(hinted := true))), e).(prev0 := "", prev1 := "", i := e))
  {
    hide Step, Good, ScanFrom, At, Clear, HintAt, OptionAt, SkipParens, KeywordStep;
    HintBegins();
    AtParts(code, m.i, "OPTION" + [' '], HINT[7..]);
    OptionIsAName();
    WordStepAt(code, m, "OPTION", ' ');
    HintAtHint(code, m.i);
    OneStep(code, m);
  }

  lemma HintBegins()
    ensures HINT == ("OPTION" + [' ']) + HINT[7..]
  {
    var word := "OPTION" + [' '];
    assert |HINT| == 28 && HINT[0] == 'O' && HINT[1] == 'P' && HINT[2] == 'T' && HINT[3] == 'I' && HINT[4] == 'O' && HINT[5] == 'N' && HINT[6] == ' ';
    assert forall k :: 0 <= k < 7 ==> word[k] == HINT[k];
    assert HINT[..7] == word;
  }

  lemma OptionIsAName()
    ensures Name("OPTION") && Upper("OPTION") == "OPTION"
  {}

  /** Right after the hint the scan stands between statements, but for the byte before it. */
  lemma AfterHint(code: string, m: Machine, mid: Machine)
    requires AtTop(code, m) && m.cur.Some? && At(code, m.i, HINT) && Reaches(code, m, mid)
    requires mid == CloseAt(m.(cur := Some(m.cur.value.(hinted := true))), m.i + |HINT|).(prev0 := "", prev1 := "", i := m.i + |HINT|)
    ensures Between(code, mid)
  {
    hide Good, ScanFrom, At, SetWord;
    LastByte(code, m.i);
    NoWord();
  }

  lemma NoWord()
    ensures !SetWord("")
  {}

  lemma SpaceBetween(code: string, m: Machine, r: Machine)
    requires Between(code, m) && r == m.(i := m.i + 1) && Good(code, r) && Clear(code, r.i)
    ensures Between(code, r)
  {
    hide Good, Clear;
  }

  // ----- Whole statements -----

  lemma KeywordNoAssign(code: string, i: nat, kind: Kind)
    requires At(code, i, Keyword(kind) + " ")
    ensures NoAssign(code, i)
  {
    AtEach(code, i, Keyword(kind) + " ");
    WordStartsNoAssign(code, i);
  }

  /** Up to where the statement's own keyword has been read. */
  lemma BegunScans(code: string, m: Machine, d: Data, rest: string) returns (r: Machine)
    requires AtTop(code, m) && m.cur.None? && d.kind != KindCTE
    requires At(code, m.i, HeadText(d.head) + (Keyword(d.kind) + " " + rest))
    requires d.head.Some? ==> AllFit(Some(Opened(KindCTE, 0, m.prev0)), d.head.value, false)
    ensures At(code, r.i, rest)
    ensures Applies(code, m, r, |HeadText(d.head)| + |Keyword(d.kind)| + 1, Some(Begun(d, m.i, m.prev0)), [], Keyword(d.kind))
  {
    hide AtTop, At, Applies, Keyword, Texts, AllFit, Effects, NoAssign, Opened;
    var word := Keyword(d.kind) + " ";
    AtParts(code, m.i, HeadText(d.head), word + rest);
    AtParts(code, m.i + |HeadText(d.head)|, word, rest);
    if d.head.None? {
      r := Opens(code, m, d.kind);
      TopEnds(code, m, r, |word|, Some(Opened(d.kind, m.i, m.prev0)), [], Keyword(d.kind));
      return;
    }
    var head, with := d.head.value, Keyword(KindCTE) + " ";
    AtParts(code, m.i, with, Texts(head));
    var a := Opens(code, m, KindCTE);
    var cte := Some(Opened(KindCTE, m.i, m.prev0));
    TopEnds(code, m, a, |with|, cte, [], Keyword(KindCTE));
    MovedOpened(KindCTE, m.i, m.prev0);
    ItemsMove(Some(Opened(KindCTE, 0, m.prev0)), m.i, head, false);
    KeywordNoAssign(code, a.i + |Texts(head)|, d.kind);
    var b := TopItems(code, a, head, false);
    var last := LastOf(head, Keyword(KindCTE));
    TopEnds(code, a, b, |Texts(head)|, Effects(cte, head), [], last);
    KindStays(cte, head);
    OpenedKind(KindCTE, m.i, m.prev0);
    r := Hands(code, b, d.kind);
    TopThen(code, m, a, b, |with|, |Texts(head)|, cte, Effects(cte, head), [], [], Keyword(KindCTE), last);
    var none: seq<nat> := [];
    assert none + none == none;
    TopThen(code, m, b, r, |HeadText(d.head)|, |word|, Effects(cte, head), Some(Begun(d, m.i, m.prev0)), [], [], last, Keyword(d.kind));
    TopEnds(code, b, r, |word|, Some(Begun(d, m.i, m.prev0)), [], Keyword(d.kind));
  }

  lemma MovedOpened(kind: Kind, at: nat, last: string)
    ensures Moved(Some(Opened(kind, 0, last)), at) == Some(Opened(kind, at, last))
  {}

  lemma OpenedKind(kind: Kind, at: nat, last: string)
    ensures Opened(kind, at, last).kind == kind
  {}

  /** Where the statement stands changes nothing in what it has begun as. */
  lemma BegunMoves(d: Data, at: nat, last: string)
    ensures Some(Begun(d, at, last)) == Moved(Some(Begun(d, 0, last)), at)
  {
    hide Opened, Effects;
    if d.head.None? {
      MovedOpened(d.kind, at, last);
    } else {
      MovedOpened(KindCTE, at, last);
      ItemsMove(Some(Opened(KindCTE, 0, last)), at, d.head.value, false);
    }
  }

  lemma DataScans(code: string, m: Machine, d: Data) returns (r: Machine)
    requires AtTop(code, m) && m.cur.None? && DataFits(d, m.prev0)
    requires At(code, m.i, DataText(d) + if d.semicolon then ";" else " ")
    ensures Reaches(code, m, r) && Between(code, r) && r.i == m.i + |DataText(d)| + 1 && r.orphans == m.orphans
    ensures r.out == m.out + Ended(Effects(Some(Begun(d, m.i, m.prev0)), d.items), d.hinted, m.i + |DataText(d)|)
  {
    hide AtTop, At, Keyword, Texts, AllFit, Effects, NoAssign, Begun, Reaches, HeadText, Between;
    var body, hint, tail := Texts(d.items), if d.hinted then HINT else "", if d.semicolon then ";" else " ";
    assert DataText(d) + tail == HeadText(d.head) + (Keyword(d.kind) + " " + (body + (hint + tail)));
    var a := BegunScans(code, m, d, body + (hint + tail));
    var begun := Some(Begun(d, m.i, m.prev0));
    TopEnds(code, m, a, |HeadText(d.head)| + |Keyword(d.kind)| + 1, begun, [], Keyword(d.kind));
    AtParts(code, a.i, body, hint + tail);
    BegunMoves(d, m.i, m.prev0);
    ItemsMove(Some(Begun(d, 0, m.prev0)), m.i, d.items, false);
    TailNoAssign(code, a.i + |body|, d.hinted, tail);
    var b := TopItems(code, a, d.items, false);
    TopEnds(code, a, b, |body|, Effects(begun, d.items), [], LastOf(d.items, a.prev0));
    Then(code, m, a, b);
    assert m.orphans + [] == m.orphans;
    r := DataCloses(code, b, d.hinted, tail);
    Then(code, m, b, r);
  }

  /** The end of a data statement: its hint, or its semicolon. */
  lemma DataCloses(code: string, m: Machine, hinted: bool, tail: string) returns (r: Machine)
    requires AtTop(code, m) && m.cur.Some? && (tail == ";" || (hinted && tail == " "))
    requires At(code, m.i, (if hinted then HINT else "") + tail)
    ensures Reaches(code, m, r) && Between(code, r) && r.orphans == m.orphans
    ensures r.i == m.i + |if hinted then HINT else ""| + 1 && r.out == m.out + Ended(m.cur, hinted, r.i - 1)
  {
    hide AtTop, At, Reaches, Between;
    if hinted {
      assert HINT + tail == HINT + [tail[0]];
      r := HintCloses(code, m, tail[0]);
    } else {
      assert "" + tail == ";";
      r := SemicolonCloses(code, m);
    }
  }

  lemma TailNoAssign(code: string, i: nat, hinted: bool, tail: string)
    requires At(code, i, (if hinted then HINT else "") + tail) && (hinted || tail == ";")
    ensures NoAssign(code, i)
  {
    var text := (if hinted then HINT else "") + tail;
    AtEach(code, i, text);
    assert text[0] == if hinted then 'O' else ';';
    WordStartsNoAssign(code, i);
  }

  lemma StatementScans(code: string, m: Machine, p: Printed) returns (r: Machine)
    requires Between(code, m) && At(code, m.i, Print(p)) && Printable(p)
    ensures Reaches(code, m, r) && Between(code, r) && r.i == m.i + |Print(p)|
    ensures r.out == m.out + Expected(p, m.i) && r.orphans == m.orphans + StraysIn(p.prefix, m.i)
  {
    hide AtTop, At, Texts, AllFit, Effects, NoAssign, Begun, Reaches, DataText;
    var prefix, rest := Texts(p.prefix), (if p.data.Some? then DataText(p.data.value) else "") + EndText(p);
    AtParts(code, m.i, prefix, rest);
    RestNoAssignAt(code, m.i + |prefix|, p);
    var a := TopItems(code, m, p.prefix, false);
    var last := LastOf(p.prefix, "");
    EffectsOfNone(p.prefix);
    TopEnds(code, m, a, |prefix|, None, StraysIn(p.prefix, m.i), last);
    if p.data.Some? {
      r := DataScans(code, a, p.data.value);
    } else {
      assert rest == ";";
      r := SemicolonCloses(code, a);
    }
    Then(code, m, a, r);
    assert m.out + [] == m.out;
  }

  lemma EffectsOfNone(items: seq<Item>)
    ensures Effects(None, items) == None
  {}

  /** A statement starts with a keyword. */
  lemma DataStarts(code: string, i: nat, d: Data, tail: string)
    requires At(code, i, DataText(d) + tail)
    ensures NoAssign(code, i)
  {
    hide NoAssign, Keyword, Texts, At;
    var kind := if d.head.Some? then KindCTE else d.kind;
    var body := Keyword(d.kind) + " " + (Texts(d.items) + if d.hinted then HINT else "");
    AtParts(code, i, DataText(d), tail);
    AtParts(code, i, HeadText(d.head), body);
    if d.head.Some? {
      AtParts(code, i, Keyword(KindCTE) + " ", Texts(d.head.value));
    } else {
      AtParts(code, i, Keyword(d.kind) + " ", Texts(d.items) + if d.hinted then HINT else "");
    }
    KeywordNoAssign(code, i, kind);
  }

  /** After the prefix comes a keyword or the semicolon. */
  lemma RestNoAssignAt(code: string, i: nat, p: Printed)
    requires At(code, i, (if p.data.Some? then DataText(p.data.value) else "") + EndText(p))
    ensures NoAssign(code, i)
  {
    hide NoAssign, DataText, At;
    if p.data.Some? {
      DataStarts(code, i, p.data.value, EndText(p));
    } else {
      assert "" + EndText(p) == ";" == [';'];
      AtChar(code, i, ';');
      WordStartsNoAssign(code, i);
    }
  }

  lemma {:induction false} StatementsScan(code: string, m: Machine, ps: seq<Printed>)
    requires Between(code, m) && At(code, m.i, PrintAll(ps)) && m.i + |PrintAll(ps)| == |code|
    requires forall p :: p in ps ==> Printable(p)
    ensures ScanFrom(code, m).out == m.out + ExpectedAll(ps, m.i) && ScanFrom(code, m).orphans == m.orphans + StraysAll(ps, m.i)
    decreases |ps|
  {
    hide Good, At, Print, Printable, Expected, Step, StraysIn;
    if ps == [] {
      assert m.out + [] == m.out && m.orphans + [] == m.orphans;
      return;
    }
    AtParts(code, m.i, Print(ps[0]), PrintAll(ps[1..]));
    var r := StatementScans(code, m, ps[0]);
    StatementsScan(code, r, ps[1..]);
    var out, strays := Expected(ps[0], m.i), StraysIn(ps[0].prefix, m.i);
    assert m.out + (out + ExpectedAll(ps[1..], r.i)) == (m.out + out) + ExpectedAll(ps[1..], r.i);
    assert m.orphans + (strays + StraysAll(ps[1..], r.i)) == (m.orphans + strays) + StraysAll(ps[1..], r.i);
  }

  /** Printing statements and scanning the text gives the statements back, in order, each with
      its kind, its span, its hint and what its body says, and finds exactly the subqueries that
      stand outside them. */
  lemma PrintThenScan(ps: seq<Printed>)
    requires forall p :: p in ps ==> Printable(p)
    ensures Scan(PrintAll(ps)).out == ExpectedAll(ps, 0) && Scan(PrintAll(ps)).orphans == StraysAll(ps, 0)
  {
    hide ScanFrom, Printable, ExpectedAll, StraysAll;
    var code := PrintAll(ps);
    GoodStart(code);
    assert At(code, 0, code);
    NoWord();
    StatementsScan(code, START, ps);
    var none: seq<Stmt> := [];
    assert none + ExpectedAll(ps, 0) == ExpectedAll(ps, 0);
    var nowhere: seq<nat> := [];
    assert nowhere + StraysAll(ps, 0) == StraysAll(ps, 0);
  }
}
