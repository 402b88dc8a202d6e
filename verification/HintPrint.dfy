/**
 Statements as they are written, the other way round from the scanner of collect/hintlint.go:
 their grammar, their text, and what the scanner should say of each.
 */
module HintPrint {
  import opened Options
  import opened HintScan
  import Quoting

  /** What joins two queries at parenthesis depth 0. */
  datatype SetOp = Union | UnionAll | Except | Intersect

  /** A piece of a statement. Groups are parenthesised, a case runs from CASE to END, and a
      branch is the set operator with the SELECT of the next query. */
  datatype Item =
    | Word(text: string)
    | Dotted(text: string, name: string)
    | Assign(name: string, op: string)
    | Variable(name: string)
    | Temp(name: string)
    | Number(text: string)
    | Bracketed(name: string)
    | Quoted(q: char, text: string)
    | Symbol(c: char)
    | Group(items: seq<Item>)
    | Case(items: seq<Item>)
    | Else
    | Branch(setOp: SetOp)

  /** A data statement: the common table expressions before it, if any, its keyword, the rest of
      it, the hint and the semicolon. */
  datatype Data = Data(head: Option<seq<Item>>, kind: Kind, items: seq<Item>, hinted: bool, semicolon: bool)

  /** What stands before a semicolon: text that is no data statement, such as DECLARE, SET, IF or
      BEGIN and what follows them, and the data statement it leads up to, if any. */
  datatype Printed = Printed(prefix: seq<Item>, data: Option<Data>)

  const HINT := "OPTION (RECOMPILE, MAXDOP 1)"

  // ----- The text -----

  function OpText(op: SetOp): string {
    match op
    case Union => "UNION" + " "
    case UnionAll => ("UNION" + " ") + ("ALL" + " ")
    case Except => "EXCEPT" + " "
    case Intersect => "INTERSECT" + " "
  }

  function Text(item: Item): string
    decreases item, 0
  {
    match item
    case Word(w) => w + " "
    case Dotted(w, name) => w + "." + name + " "
    case Assign(name, op) => "@" + name + " " + op + " "
    case Variable(name) => "@" + name + " "
    case Temp(name) => "#" + name + " "
    case Number(text) => text + " "
    case Bracketed(name) => "[" + Quoting.Double(name, ']') + "] "
    case Quoted(q, text) => [q] + text + [q] + " "
    case Symbol(c) => [c] + " "
    case Group(items) => "(" + Texts(items) + ") "
    case Case(items) => ("CASE" + " ") + (Texts(items) + ("END" + " "))
    case Else => "ELSE" + " "
    case Branch(op) => OpText(op) + ("SELECT" + " ")
  }

  function Texts(items: seq<Item>): string
    decreases items, 1
  {
    if items == [] then "" else Text(items[0]) + Texts(items[1..])
  }

  function Keyword(kind: Kind): string {
    match kind
    case KindCTE => "WITH"
    case KindSelect => "SELECT"
    case KindInsert => "INSERT"
    case KindUpdate => "UPDATE"
    case KindDelete => "DELETE"
    case KindMerge => "MERGE"
  }

  function HeadText(head: Option<seq<Item>>): string {
    if head.Some? then Keyword(KindCTE) + " " + Texts(head.value) else ""
  }

  function DataText(d: Data): string {
    HeadText(d.head) + (Keyword(d.kind) + " " + (Texts(d.items) + if d.hinted then HINT else ""))
  }

  function EndText(p: Printed): string { if p.data.Some? && !p.data.value.semicolon then " " else ";" }

  function Print(p: Printed): string {
    Texts(p.prefix) + ((if p.data.Some? then DataText(p.data.value) else "") + EndText(p))
  }

  function PrintAll(ps: seq<Printed>): string {
    if ps == [] then "" else Print(ps[0]) + PrintAll(ps[1..])
  }

  // ----- Spelling -----

  predicate WordText(w: string) { forall k :: 0 <= k < |w| ==> WordByte(w[k]) }

  predicate Name(w: string) { w != [] && WordText(w) && !Digit(w[0]) && w[0] !in {'@', '#'} }

  predicate Inert(c: char) { !WordByte(c) && c !in {'[', '"', '\'', '(', ')', ';'} }

  predicate Operator(c: char) { c in {'-', '+', '*', '/', '%', '&', '|', '^'} }

  predicate AssignText(op: string) { op == "=" || (|op| == 2 && Operator(op[0]) && op[1] == '=') }

  /** A decimal or hexadecimal number. */
  predicate Numeral(t: string) {
    && t != [] && Digit(t[0])
    && if HexAt(t, 0) then forall k :: 2 <= k < |t| ==> Digit(t[k]) || t[k] == '.' || HexDigit(t[k])
       else forall k :: 0 <= k < |t| ==> Digit(t[k]) || t[k] == '.'
  }

  /** Each token is written so that it is one token. Inside parentheses nothing more is asked. */
  predicate Spelled(item: Item)
    decreases item
  {
    match item
    case Word(w) => Name(w)
    case Dotted(w, name) => Name(w) && Name(name)
    case Assign(name, op) => WordText(name) && AssignText(op)
    case Variable(name) => WordText(name)
    case Temp(name) => WordText(name)
    case Number(text) => Numeral(text)
    case Bracketed(_) => true
    case Quoted(q, text) => q in {'"', '\''} && q !in text
    case Symbol(c) => Inert(c) && !Space(c)
    case Group(items) => forall x :: x in items ==> Spelled(x)
    case Case(items) => forall x :: x in items ==> Spelled(x)
    case Else => true
    case Branch(_) => true
  }

  // ----- What may stand at depth 0 -----

  /** The words that promise another query. */
  predicate SetWord(w: string) { w in {"UNION", "EXCEPT", "INTERSECT"} }

  /** The words a statement may hold without ending: its own clauses, the second keywords it is
      known for, and every word the scanner does not know. */
  predicate Belongs(s: Stmt, key: Key) {
    || key in {FromKey, IntoKey, OutputKey, ValuesKey, WithKey, NoKey}
    || ((key == SelectKey || key == ExecKey) && s.kind == KindInsert && s.source == NoSource)
    || (key == SetKey && s.kind in {KindUpdate, KindMerge})
    || (key.DmlKey? && s.kind == KindMerge)
  }

  /** Outside a statement, any word that opens none. */
  predicate OpensNothing(key: Key) { !key.SelectKey? && !key.DmlKey? && !key.WithKey? }

  predicate WordFits(cur: Option<Stmt>, w: string) {
    && !SetWord(Upper(w)) && Upper(w) != "OPTION"
    && if cur.Some? then Belongs(cur.value, KeyOf(Upper(w))) else OpensNothing(KeyOf(Upper(w)))
  }

  predicate Fits(cur: Option<Stmt>, item: Item, inCase: bool)
    decreases item, 0
  {
    && Spelled(item)
    && match item
       case Word(w) => WordFits(cur, w)
       case Dotted(w, name) => WordFits(cur, w) && !SetWord(Upper(name))
       case Case(items) => AllFit(Led(cur), items, true)
       case Else => cur.None? || inCase
       case Branch(_) => cur.Some?
       case _ => true
  }

  /** A variable with an equals sign after it is written as an assignment. */
  predicate AllFit(cur: Option<Stmt>, items: seq<Item>, inCase: bool)
    decreases items, 1
  {
    items == []
    || (Fits(cur, items[0], inCase)
        && (items[0].Variable? && |items| > 1 ==> items[1] != Symbol('='))
        && AllFit(Effect(cur, items[0]), items[1..], inCase))
  }

  // ----- What a piece says about the statement -----

  /** Past the first item of a SELECT's list. */
  function Led(cur: Option<Stmt>): Option<Stmt> { if cur.Some? then Some(cur.value.(leading := false)) else None }

  predicate IsSource(key: Key) { key == SelectKey || key == ValuesKey || key == ExecKey }

  function SourceOf(key: Key): Source {
    if key == SelectKey then FromSelect else if key == ValuesKey then FromValues else if key == ExecKey then FromExec else NoSource
  }

  function Apply(s: Stmt, key: Key): Stmt {
    s.(from := s.from || key == FromKey,
       into := s.into || (key == IntoKey && s.kind == KindSelect),
       outputInto := s.outputInto || (key == IntoKey && s.kind != KindSelect && s.output),
       output := s.output || (key == OutputKey && s.kind != KindSelect && s.kind != KindCTE && s.source == NoSource),
       source := if IsSource(key) && s.kind == KindInsert && s.source == NoSource then SourceOf(key) else s.source)
  }

  function WordEffect(s: Stmt, w: string): Stmt {
    Apply(s.(leading := s.leading && Modifier(Upper(w))), KeyOf(Upper(w)))
  }

  /** The scan is still before the first item of a SELECT's list after this one. */
  predicate Passed(item: Item) {
    match item
    case Word(w) => Modifier(Upper(w))
    case Dotted(w, _) => Modifier(Upper(w))
    case Assign(_, _) => false
    case Variable(_) => false
    case Case(_) => false
    case Else => false
    case Branch(_) => false
    case _ => true
  }

  /** The first item assigns when it is a variable with an assignment after it. */
  predicate Assigns(s: Stmt, item: Item) { if s.leading && (item.Assign? || item.Variable?) then item.Assign? else s.assigns }

  /** What an item does that is neither a word nor a case. */
  function LeafEffect(s: Stmt, item: Item): Stmt {
    s.(leading := s.leading && Passed(item), assigns := Assigns(s, item),
       subquery := s.subquery || (item.Group? && HasSelect(item.items)))
  }

  function Effect(cur: Option<Stmt>, item: Item): (r: Option<Stmt>)
    ensures r.Some? == cur.Some?
    decreases item, 0
  {
    if cur.None? then None
    else
      var s := cur.value;
      match item
      case Word(w) => Some(WordEffect(s, w))
      case Dotted(w, _) => Some(WordEffect(s, w))
      case Case(items) => Led(Effects(Led(cur), items))
      case _ => Some(LeafEffect(s, item))
  }

  function Effects(cur: Option<Stmt>, items: seq<Item>): (r: Option<Stmt>)
    ensures r.Some? == cur.Some?
    decreases items, 1
  {
    if items == [] then cur else Effects(Effect(cur, items[0]), items[1..])
  }

  /** Where the SELECTs stand in this text, parentheses or not. */
  function Selects(item: Item, at: nat): seq<nat>
    decreases item, 0
  {
    match item
    case Word(w) => if Upper(w) == "SELECT" then [at] else []
    case Dotted(w, _) => if Upper(w) == "SELECT" then [at] else []
    case Group(items) => SelectsIn(items, at + 1)
    case Case(items) => SelectsIn(items, at + 5)
    case Branch(op) => [at + |OpText(op)|]
    case _ => []
  }

  function SelectsIn(items: seq<Item>, at: nat): seq<nat>
    decreases items, 1
  {
    if items == [] then [] else Selects(items[0], at) + SelectsIn(items[1..], at + |Text(items[0])|)
  }

  predicate HasSelect(items: seq<Item>) { SelectsIn(items, 0) != [] }

  /** The subqueries that stand in parentheses outside any statement. */
  function Strays(item: Item, at: nat): seq<nat>
    decreases item, 0
  {
    match item
    case Group(items) => SelectsIn(items, at + 1)
    case Case(items) => StraysIn(items, at + 5)
    case _ => []
  }

  function StraysIn(items: seq<Item>, at: nat): seq<nat>
    decreases items, 1
  {
    if items == [] then [] else Strays(items[0], at) + StraysIn(items[1..], at + |Text(items[0])|)
  }

  /** The last word at depth 0. */
  function LastWord(item: Item, before: string): string {
    match item
    case Word(w) => Upper(w)
    case Dotted(_, name) => Upper(name)
    case Assign(name, _) => Upper("@" + name)
    case Variable(name) => Upper("@" + name)
    case Temp(name) => Upper("#" + name)
    case Number(text) => Upper(text)
    case Case(_) => "END"
    case Else => "ELSE"
    case Branch(_) => "SELECT"
    case _ => before
  }

  function LastOf(items: seq<Item>, before: string): string {
    if items == [] then before else LastOf(items[1..], LastWord(items[0], before))
  }

  // ----- What the scanner should find -----

  /** A statement of this keyword, just opened. A cursor's SELECT is told by the FOR before it. */
  function Opened(kind: Kind, at: nat, last: string): Stmt {
    NewStmt(kind, at).(leading := kind == KindSelect, cursor := kind == KindSelect && last == "FOR")
  }

  /** The main statement takes over from its common table expressions. */
  function Handed(s: Stmt, kind: Kind): Stmt { s.(kind := kind, leading := kind == KindSelect) }

  /** The statement where its own keyword has been read, `last` being the word before it all. */
  function Begun(d: Data, at: nat, last: string): Stmt {
    if d.head.None? then Opened(d.kind, at, last)
    else Handed(Effects(Some(Opened(KindCTE, at, last)), d.head.value).value, d.kind)
  }

  /** Of a known kind, hinted or ended by a semicolon, and of pieces that belong to it. */
  predicate DataFits(d: Data, last: string) {
    && d.kind != KindCTE && (d.hinted || d.semicolon)
    && (d.head.Some? ==> AllFit(Some(Opened(KindCTE, 0, last)), d.head.value, false))
    && AllFit(Some(Begun(d, 0, last)), d.items, false)
  }

  predicate Printable(p: Printed) {
    AllFit(None, p.prefix, false) && (p.data.Some? ==> DataFits(p.data.value, LastOf(p.prefix, "")))
  }

  /** The statement the scanner should find when `p` is printed at `at`, if it is one. */
  function Expected(p: Printed, at: nat): (r: seq<Stmt>)
    ensures |r| == if p.data.None? then 0 else 1
  {
    if p.data.None? then []
    else
      var begun := Begun(p.data.value, at + |Texts(p.prefix)|, LastOf(p.prefix, ""));
      [Effects(Some(begun), p.data.value.items).value.(hinted := p.data.value.hinted, end := at + |Print(p)| - 1)]
  }

  function ExpectedAll(ps: seq<Printed>, at: nat): seq<Stmt> {
    if ps == [] then [] else Expected(ps[0], at) + ExpectedAll(ps[1..], at + |Print(ps[0])|)
  }

  function StraysAll(ps: seq<Printed>, at: nat): seq<nat> {
    if ps == [] then [] else StraysIn(ps[0].prefix, at) + StraysAll(ps[1..], at + |Print(ps[0])|)
  }
}
