/**
 What the scanner's findings mean in terms of the statement as it is written: which statements
 return rows, which ones read, and which scripts hintLint accepts.
 */
module HintMeaning {
  import opened Options
  import opened HintScan
  import opened HintPrint
  import HintLint
  import HintRoundTrip
  import HintTop

  // ----- The words at depth 0 -----

  function KeysOf(item: Item): seq<Key>
    decreases item, 0
  {
    match item
    case Word(w) => [KeyOf(Upper(w))]
    case Dotted(w, _) => [KeyOf(Upper(w))]
    case Case(items) => Keys(items)
    case _ => []
  }

  /** The words at parenthesis depth 0, in order. */
  function Keys(items: seq<Item>): seq<Key>
    decreases items, 1
  {
    if items == [] then [] else KeysOf(items[0]) + Keys(items[1..])
  }

  function ApplyAll(s: Stmt, keys: seq<Key>): Stmt
    decreases |keys|
  {
    if keys == [] then s else ApplyAll(Apply(s, keys[0]), keys[1..])
  }

  lemma {:induction false} ApplyJoin(s: Stmt, a: seq<Key>, b: seq<Key>)
    ensures ApplyAll(s, a + b) == ApplyAll(ApplyAll(s, a), b)
    decreases |a|
  {
    if a == [] {
      assert a + b == b;
    } else {
      assert (a + b)[0] == a[0] && (a + b)[1..] == a[1..] + b;
      ApplyJoin(Apply(s, a[0]), a[1..], b);
    }
  }

  /** A statement but for its select list's first item and the parentheses in it. */
  function Bare(s: Stmt): Stmt { s.(leading := false, assigns := false, subquery := false) }

  lemma WordApplies(s: Stmt, w: string)
    ensures Bare(WordEffect(s, w)) == ApplyAll(Bare(s), [KeyOf(Upper(w))])
  {
    hide KeyOf, Upper, Modifier;
    var key := KeyOf(Upper(w));
    assert ApplyAll(Bare(s), [key]) == ApplyAll(Apply(Bare(s), key), []);
  }

  lemma LeafApplies(s: Stmt, item: Item)
    requires !item.Word? && !item.Dotted? && !item.Case?
    ensures Bare(Effect(Some(s), item).value) == Bare(s) && KeysOf(item) == []
  {
    hide WordEffect, HasSelect, Effects, Keys;
  }

  lemma CaseIs(s: Stmt, items: seq<Item>)
    ensures Effect(Some(s), Case(items)) == Led(Effects(Some(s.(leading := false)), items))
  {
    hide Effects;
  }

  lemma BareLed(cur: Option<Stmt>)
    requires cur.Some?
    ensures Led(cur).Some? && Bare(Led(cur).value) == Bare(cur.value)
  {}

  lemma CaseApplies(s: Stmt, items: seq<Item>)
    ensures Bare(Effect(Some(s), Case(items)).value) == ApplyAll(Bare(s), Keys(items))
    decreases items, 2
  {
    hide Effect, Effects, Led, ApplyAll, Keys;
    var t := s.(leading := false);
    CaseIs(s, items);
    BareLed(Effects(Some(t), items));
    assert Bare(t) == Bare(s);
    ItemsApply(t, items);
  }

  lemma ItemApplies(s: Stmt, item: Item)
    ensures Bare(Effect(Some(s), item).value) == ApplyAll(Bare(s), KeysOf(item))
    decreases item, 0
  {
    hide KeyOf, Upper, WordEffect, LeafEffect, ApplyAll, Keys, Effects, Bare;
    match item {
      case Word(w) => WordApplies(s, w);
      case Dotted(w, _) => WordApplies(s, w);
      case Case(items) => CaseApplies(s, items);
      case _ =>
        LeafApplies(s, item);
        NoKeys(Bare(s));
    }
  }

  lemma NoKeys(s: Stmt)
    ensures ApplyAll(s, []) == s
  {}

  lemma {:induction false} ItemsApply(s: Stmt, items: seq<Item>)
    ensures Bare(Effects(Some(s), items).value) == ApplyAll(Bare(s), Keys(items))
    decreases items, 1
  {
    hide Effect, KeysOf, Bare;
    if items != [] {
      ItemApplies(s, items[0]);
      ItemsApply(Effect(Some(s), items[0]).value, items[1..]);
      ApplyJoin(Bare(s), KeysOf(items[0]), Keys(items[1..]));
    }
  }

  // ----- FROM, INTO and OUTPUT -----

  /** OUTPUT stands at `j`, before an INSERT has said where its rows come from. */
  ghost predicate OutputAt(kind: Kind, keys: seq<Key>, j: int) {
    0 <= j < |keys| && keys[j] == OutputKey && (kind == KindInsert ==> forall i :: 0 <= i < j ==> !IsSource(keys[i]))
  }

  ghost predicate HasOutput(kind: Kind, keys: seq<Key>) { exists j :: OutputAt(kind, keys, j) }

  /** What OUTPUT gives goes into a table. */
  ghost predicate OutputIsKept(kind: Kind, keys: seq<Key>) {
    exists j, k :: OutputAt(kind, keys, j) && j < k < |keys| && keys[k] == IntoKey
  }

  lemma {:induction false} SelectKeys(s: Stmt, keys: seq<Key>)
    requires s.kind == KindSelect
    ensures ApplyAll(s, keys).into == (s.into || IntoKey in keys) && ApplyAll(s, keys).kind == KindSelect
    decreases |keys|
  {
    if keys != [] { SelectKeys(Apply(s, keys[0]), keys[1..]); }
  }

  lemma {:induction false} FromKeys(s: Stmt, keys: seq<Key>)
    ensures ApplyAll(s, keys).from == (s.from || FromKey in keys)
    decreases |keys|
  {
    if keys != [] { FromKeys(Apply(s, keys[0]), keys[1..]); }
  }

  /** Once OUTPUT has been read only an INTO matters. */
  lemma {:induction false} AfterOutput(s: Stmt, keys: seq<Key>)
    requires s.kind != KindSelect && s.output
    ensures ApplyAll(s, keys).output && ApplyAll(s, keys).outputInto == (s.outputInto || IntoKey in keys)
    decreases |keys|
  {
    if keys != [] { AfterOutput(Apply(s, keys[0]), keys[1..]); }
  }

  /** Once an INSERT has said where its rows come from, an OUTPUT says nothing. */
  lemma {:induction false} AfterSource(s: Stmt, keys: seq<Key>)
    requires s.kind != KindSelect && !s.output && s.source != NoSource
    ensures !ApplyAll(s, keys).output && ApplyAll(s, keys).outputInto == s.outputInto
    decreases |keys|
  {
    if keys != [] { AfterSource(Apply(s, keys[0]), keys[1..]); }
  }

  lemma OutputIn(kind: Kind, keys: seq<Key>)
    ensures forall j :: OutputAt(kind, keys, j) ==> 0 <= j < |keys|
  {}

  lemma OutputShifts(kind: Kind, keys: seq<Key>, j: int)
    requires keys != [] && keys[0] != OutputKey && (kind == KindInsert ==> !IsSource(keys[0]))
    ensures OutputAt(kind, keys, j) <==> OutputAt(kind, keys[1..], j - 1)
  {
    hide IsSource;
    if OutputAt(kind, keys[1..], j - 1) {
      forall i | kind == KindInsert && 0 <= i < j ensures !IsSource(keys[i]) {
        if i > 0 { assert keys[i] == keys[1..][i - 1]; }
      }
    }
    if OutputAt(kind, keys, j) {
      forall i | kind == KindInsert && 0 <= i < j - 1 ensures !IsSource(keys[1..][i]) {
        assert keys[1..][i] == keys[i + 1];
      }
    }
  }

  /** What one more word does before any OUTPUT and any source. */
  lemma FreshApply(s: Stmt, key: Key)
    requires s.kind != KindSelect && s.kind != KindCTE && !s.output && !s.outputInto && s.source == NoSource
    ensures var t := Apply(s, key);
      && t.kind == s.kind && !t.outputInto && t.output == (key == OutputKey)
      && (t.source == NoSource <==> !(s.kind == KindInsert && IsSource(key)))
  {}

  lemma {:induction false} ModifyKeys(s: Stmt, keys: seq<Key>)
    requires s.kind != KindSelect && s.kind != KindCTE && !s.output && !s.outputInto && s.source == NoSource
    ensures ApplyAll(s, keys).output <==> HasOutput(s.kind, keys)
    ensures ApplyAll(s, keys).outputInto <==> OutputIsKept(s.kind, keys)
    decreases |keys|
  {
    hide HasOutput, OutputIsKept, Apply, IsSource;
    if keys == [] {
      NoOutput(s.kind, keys);
      return;
    }
    var t := Apply(s, keys[0]);
    FreshApply(s, keys[0]);
    if keys[0] == OutputKey {
      AfterOutput(t, keys[1..]);
      OutputFirst(s.kind, keys);
    } else if s.kind == KindInsert && IsSource(keys[0]) {
      AfterSource(t, keys[1..]);
      NoOutput(s.kind, keys);
    } else {
      ModifyKeys(t, keys[1..]);
      OutputLater(s.kind, keys);
    }
  }

  lemma NoOutput(kind: Kind, keys: seq<Key>)
    requires keys == [] || (kind == KindInsert && IsSource(keys[0]))
    ensures !HasOutput(kind, keys) && !OutputIsKept(kind, keys)
  {}

  lemma OutputFirst(kind: Kind, keys: seq<Key>)
    requires keys != [] && keys[0] == OutputKey
    ensures HasOutput(kind, keys) && (OutputIsKept(kind, keys) <==> IntoKey in keys[1..])
  {
    assert OutputAt(kind, keys, 0);
    if IntoKey in keys[1..] {
      var k :| 0 <= k < |keys[1..]| && keys[1..][k] == IntoKey;
      assert keys[k + 1] == IntoKey;
    }
    if OutputIsKept(kind, keys) {
      var j, k :| OutputAt(kind, keys, j) && j < k < |keys| && keys[k] == IntoKey;
      assert keys[1..][k - 1] == IntoKey;
    }
  }

  lemma OutputLater(kind: Kind, keys: seq<Key>)
    requires keys != [] && keys[0] != OutputKey && (kind == KindInsert ==> !IsSource(keys[0]))
    ensures HasOutput(kind, keys) == HasOutput(kind, keys[1..]) && OutputIsKept(kind, keys) == OutputIsKept(kind, keys[1..])
  {
    hide IsSource, OutputAt;
    forall j ensures OutputAt(kind, keys, j) <==> OutputAt(kind, keys[1..], j - 1) {
      OutputShifts(kind, keys, j);
    }
    OutputIn(kind, keys);
    OutputIn(kind, keys[1..]);
    if HasOutput(kind, keys[1..]) {
      var j :| OutputAt(kind, keys[1..], j);
      assert OutputAt(kind, keys[1..], (j + 1) - 1);
      assert OutputAt(kind, keys, j + 1);
    }
    if OutputIsKept(kind, keys[1..]) {
      var j, k :| OutputAt(kind, keys[1..], j) && j < k < |keys[1..]| && keys[1..][k] == IntoKey;
      assert OutputAt(kind, keys[1..], (j + 1) - 1);
      assert OutputAt(kind, keys, j + 1) && keys[k + 1] == IntoKey;
    }
    if HasOutput(kind, keys) {
      var j :| OutputAt(kind, keys, j);
      assert OutputAt(kind, keys[1..], j - 1);
    }
    if OutputIsKept(kind, keys) {
      var j, k :| OutputAt(kind, keys, j) && j < k < |keys| && keys[k] == IntoKey;
      assert OutputAt(kind, keys[1..], j - 1) && keys[1..][k - 1] == IntoKey;
    }
  }

  // ----- The first item of a select list -----

  /** The list's first item assigns to a variable. */
  ghost predicate AssignsFirst(items: seq<Item>) {
    exists k :: 0 <= k < |items| && items[k].Assign? && forall j :: 0 <= j < k ==> Passed(items[j])
  }

  lemma {:induction false} Settled(s: Stmt, items: seq<Item>)
    requires !s.leading
    ensures !Effects(Some(s), items).value.leading && Effects(Some(s), items).value.assigns == s.assigns
    decreases items, 1
  {
    hide Effect;
    if items != [] {
      ItemSettled(s, items[0]);
      Settled(Effect(Some(s), items[0]).value, items[1..]);
    }
  }

  lemma WordKeepsFirst(s: Stmt, w: string)
    ensures WordEffect(s, w).leading == (s.leading && Modifier(Upper(w)))
    ensures WordEffect(s, w).assigns == s.assigns && WordEffect(s, w).subquery == s.subquery
  {
    hide KeyOf, Upper, Modifier;
  }

  lemma LeafSettled(s: Stmt, item: Item)
    requires !s.leading && !item.Word? && !item.Dotted? && !item.Case?
    ensures !Effect(Some(s), item).value.leading && Effect(Some(s), item).value.assigns == s.assigns
  {
    hide WordEffect, HasSelect, Effects;
  }

  lemma ItemSettled(s: Stmt, item: Item)
    requires !s.leading
    ensures !Effect(Some(s), item).value.leading && Effect(Some(s), item).value.assigns == s.assigns
    decreases item, 0
  {
    match item {
      case Case(items) => Settled(s, items);
      case Word(w) => WordKeepsFirst(s, w);
      case Dotted(w, _) => WordKeepsFirst(s, w);
      case _ => LeafSettled(s, item);
    }
  }

  lemma ItemDecides(s: Stmt, item: Item)
    requires s.leading && !s.assigns
    ensures Effect(Some(s), item).value.leading == Passed(item) && Effect(Some(s), item).value.assigns == item.Assign?
  {
    match item {
      case Case(items) => Settled(s.(leading := false), items);
      case Word(w) => WordKeepsFirst(s, w);
      case Dotted(w, _) => WordKeepsFirst(s, w);
      case _ => LeafDecides(s, item);
    }
  }

  lemma LeafDecides(s: Stmt, item: Item)
    requires s.leading && !s.assigns && !item.Word? && !item.Dotted? && !item.Case?
    ensures Effect(Some(s), item).value.leading == Passed(item) && Effect(Some(s), item).value.assigns == item.Assign?
  {
    hide WordEffect, HasSelect, Effects;
  }

  lemma {:induction false} FirstDecides(s: Stmt, items: seq<Item>)
    requires s.leading && !s.assigns
    ensures Effects(Some(s), items).value.assigns <==> AssignsFirst(items)
    decreases items
  {
    hide Effect, Passed;
    if items == [] { return; }
    var t := Effect(Some(s), items[0]).value;
    ItemDecides(s, items[0]);
    if Passed(items[0]) {
      assert !items[0].Assign? by { FirstIsNoAssign(items[0]); }
      FirstDecides(t, items[1..]);
      AssignsLater(items);
    } else {
      Settled(t, items[1..]);
      if items[0].Assign? {
        assert AssignsFirst(items);
      }
    }
  }

  lemma FirstIsNoAssign(item: Item)
    requires Passed(item)
    ensures !item.Assign?
  {}

  lemma AssignsLater(items: seq<Item>)
    requires items != [] && Passed(items[0]) && !items[0].Assign?
    ensures AssignsFirst(items) == AssignsFirst(items[1..])
  {
    hide Passed;
    if AssignsFirst(items) {
      var k :| 0 <= k < |items| && items[k].Assign? && forall j :: 0 <= j < k ==> Passed(items[j]);
      assert items[1..][k - 1].Assign? && forall j :: 0 <= j < k - 1 ==> Passed(items[1..][j]);
    }
    if AssignsFirst(items[1..]) {
      var k :| 0 <= k < |items[1..]| && items[1..][k].Assign? && forall j :: 0 <= j < k ==> Passed(items[1..][j]);
      forall j | 0 <= j < k + 1 ensures Passed(items[j]) {
        if j > 0 { assert items[j] == items[1..][j - 1]; }
      }
      assert items[k + 1].Assign?;
    }
  }

  // ----- Subqueries -----

  /** A SELECT stands in parentheses. */
  predicate HasSubquery(item: Item)
    decreases item, 0
  {
    match item
    case Group(items) => HasSelect(items)
    case Case(items) => AnySubquery(items)
    case _ => false
  }

  predicate AnySubquery(items: seq<Item>)
    decreases items, 1
  {
    items != [] && (HasSubquery(items[0]) || AnySubquery(items[1..]))
  }

  lemma LeafSubquery(s: Stmt, item: Item)
    requires !item.Word? && !item.Dotted? && !item.Case?
    ensures Effect(Some(s), item).value.subquery == (s.subquery || HasSubquery(item))
  {
    hide WordEffect, HasSelect, Effects, AnySubquery;
  }

  lemma ItemSubquery(s: Stmt, item: Item)
    ensures Effect(Some(s), item).value.subquery == (s.subquery || HasSubquery(item))
    decreases item, 0
  {
    match item {
      case Case(items) => ItemsSubquery(s.(leading := false), items);
      case Word(w) => WordKeepsFirst(s, w);
      case Dotted(w, _) => WordKeepsFirst(s, w);
      case _ => LeafSubquery(s, item);
    }
  }

  lemma {:induction false} ItemsSubquery(s: Stmt, items: seq<Item>)
    ensures Effects(Some(s), items).value.subquery == (s.subquery || AnySubquery(items))
    decreases items, 1
  {
    hide Effect, HasSubquery;
    if items != [] {
      ItemSubquery(s, items[0]);
      ItemsSubquery(Effect(Some(s), items[0]).value, items[1..]);
    }
  }

  // ----- A statement as it begins -----

  function HeadOf(d: Data): seq<Item> { if d.head.Some? then d.head.value else [] }

  /** Common table expressions leave nothing behind but what they read. */
  lemma {:induction false} CteKeys(s: Stmt, keys: seq<Key>)
    requires s.kind == KindCTE && !s.output
    ensures ApplyAll(s, keys) == s.(from := s.from || FromKey in keys)
    decreases |keys|
  {
    if keys != [] { CteKeys(Apply(s, keys[0]), keys[1..]); }
  }

  lemma NoItems()
    ensures Keys([]) == [] && !AnySubquery([])
  {}

  lemma BegunAs(d: Data, at: nat, last: string)
    requires d.kind != KindCTE
    ensures var s := Begun(d, at, last);
      && s.kind == d.kind && s.leading == (d.kind == KindSelect) && !s.assigns && !s.into && !s.output && !s.outputInto
      && s.source == NoSource && s.cursor == (d.head.None? && d.kind == KindSelect && last == "FOR")
      && s.from == (FromKey in Keys(HeadOf(d))) && s.subquery == AnySubquery(HeadOf(d))
  {
    hide KeyOf, Upper, Modifier, HasSelect, Effects, Keys, AnySubquery;
    if d.head.Some? {
      var cte := Opened(KindCTE, at, last);
      var s := Effects(Some(cte), d.head.value).value;
      ItemsApply(cte, d.head.value);
      CteKeys(Bare(cte), Keys(d.head.value));
      Settled(cte, d.head.value);
      ItemsSubquery(cte, d.head.value);
      assert Bare(s) == Bare(cte).(from := FromKey in Keys(d.head.value));
    } else {
      NoItems();
    }
  }

  /** The statement as it ends. */
  function Whole(d: Data, at: nat, last: string): Stmt { Effects(Some(Begun(d, at, last)), d.items).value }

  lemma WholeIs(d: Data, at: nat, last: string)
    requires d.kind != KindCTE
    ensures Bare(Whole(d, at, last)) == ApplyAll(Bare(Begun(d, at, last)), Keys(d.items))
    ensures d.kind == KindSelect ==> (Whole(d, at, last).assigns <==> AssignsFirst(d.items))
    ensures Whole(d, at, last).kind == d.kind && Whole(d, at, last).cursor == (d.head.None? && d.kind == KindSelect && last == "FOR")
    ensures Whole(d, at, last).from <==> FromKey in Keys(HeadOf(d)) + Keys(d.items)
    ensures Whole(d, at, last).subquery <==> AnySubquery(HeadOf(d)) || AnySubquery(d.items)
  {
    hide Begun, Effects, Keys, AnySubquery, AssignsFirst, ApplyAll;
    var s := Begun(d, at, last);
    BegunAs(d, at, last);
    ItemsApply(s, d.items);
    FromKeys(Bare(s), Keys(d.items));
    ItemsSubquery(s, d.items);
    HintRoundTrip.KindStays(Some(s), d.items);
    if d.kind == KindSelect { FirstDecides(s, d.items); }
  }

  // ----- Which statements return rows, and which ones read -----

  /** The statement returns rows to the client: a SELECT unless it has an INTO, its list begins
      with an assignment, or a cursor is declared for it and no common table expression stands
      between; any other statement when it has an OUTPUT, for an INSERT one before the source of
      its rows, and no INTO after such an OUTPUT. */
  ghost predicate Returns(p: Printed) {
    p.data.Some? &&
    var d := p.data.value;
    match d.kind
    case KindSelect => IntoKey !in Keys(d.items) && !AssignsFirst(d.items) && !(d.head.None? && OfCursor(p))
    case _ => HasOutput(d.kind, Keys(d.items)) && !OutputIsKept(d.kind, Keys(d.items))
  }

  /** The rows of this statement go to a cursor. */
  predicate OfCursor(p: Printed) {
    p.data.Some? && p.data.value.kind == KindSelect && LastOf(p.prefix, "") == "FOR"
  }

  lemma EmitsMeaning(p: Printed, at: nat)
    requires p.data.Some? && p.data.value.kind != KindCTE
    ensures Expected(p, at)[0].Emits() <==> Returns(p)
  {
    hide Effects, Begun, Keys, ApplyAll, HasOutput, OutputIsKept, AssignsFirst;
    var d, start, last := p.data.value, at + |Texts(p.prefix)|, LastOf(p.prefix, "");
    BegunAs(d, start, last);
    WholeIs(d, start, last);
    var s := Bare(Begun(d, start, last));
    if d.kind == KindSelect {
      SelectKeys(s, Keys(d.items));
    } else {
      ModifyKeys(s, Keys(d.items));
    }
  }

  /** A cursor's SELECT is told from others exactly when no common table expression precedes it. */
  lemma CursorNoticed(p: Printed, at: nat)
    requires p.data.Some? && p.data.value.kind != KindCTE
    ensures (Expected(p, at)[0].cursor <==> OfCursor(p)) <==> !(OfCursor(p) && p.data.value.head.Some?)
  {
    hide Effects, Begun, Texts, Print, LastOf;
    var d, start, last := p.data.value, at + |Texts(p.prefix)|, LastOf(p.prefix, "");
    WholeIs(d, start, last);
  }

  function FirstSource(keys: seq<Key>): Source
    decreases |keys|
  {
    if keys == [] then NoSource else if IsSource(keys[0]) then SourceOf(keys[0]) else FirstSource(keys[1..])
  }

  /** An INSERT gets its rows from the first of SELECT, VALUES and EXEC that it holds. */
  lemma {:induction false} InsertSource(s: Stmt, keys: seq<Key>)
    requires s.kind == KindInsert
    ensures ApplyAll(s, keys).source == if s.source != NoSource then s.source else FirstSource(keys)
    decreases |keys|
  {
    if keys != [] { InsertSource(Apply(s, keys[0]), keys[1..]); }
  }

  /** The statement can read rows: a SELECT when it names a table, holds a subquery or returns
      rows; an INSERT when a SELECT feeds it or it holds a subquery; every other one always. */
  ghost predicate CanRead(p: Printed) {
    p.data.Some? &&
    var d := p.data.value;
    match d.kind
    case KindSelect => FromKey in Keys(HeadOf(d)) + Keys(d.items) || AnySubquery(HeadOf(d) + d.items) || Returns(p)
    case KindInsert => FirstSource(Keys(d.items)) == FromSelect || AnySubquery(HeadOf(d) + d.items)
    case _ => true
  }

  lemma {:induction false} SubqueryJoin(a: seq<Item>, b: seq<Item>)
    ensures AnySubquery(a + b) <==> AnySubquery(a) || AnySubquery(b)
  {
    hide HasSubquery;
    if a == [] {
      assert a + b == b;
    } else {
      assert (a + b)[0] == a[0] && (a + b)[1..] == a[1..] + b;
      SubqueryJoin(a[1..], b);
    }
  }

  lemma ReadsMeaning(p: Printed, at: nat)
    requires p.data.Some? && p.data.value.kind != KindCTE
    ensures Expected(p, at)[0].Reads() <==> CanRead(p)
  {
    hide Effects, Begun, Keys, ApplyAll, AnySubquery, FirstSource, Returns;
    var d, start, last := p.data.value, at + |Texts(p.prefix)|, LastOf(p.prefix, "");
    BegunAs(d, start, last);
    WholeIs(d, start, last);
    EmitsMeaning(p, at);
    SubqueryJoin(HeadOf(d), d.items);
    if d.kind == KindInsert { InsertSource(Bare(Begun(d, start, last)), Keys(d.items)); }
  }

  // ----- Which scripts are accepted -----

  lemma ItemStrays(item: Item, at: nat)
    ensures Strays(item, at) == [] <==> !HasSubquery(item)
    decreases item, 0
  {
    match item {
      case Group(items) => HintTop.SelectsAnywhere(items, at + 1, 0);
      case Case(items) => ItemsStray(items, at + 5);
      case _ =>
    }
  }

  lemma {:induction false} ItemsStray(items: seq<Item>, at: nat)
    ensures StraysIn(items, at) == [] <==> !AnySubquery(items)
    decreases items, 1
  {
    hide Strays, HasSubquery;
    if items != [] {
      ItemStrays(items[0], at);
      ItemsStray(items[1..], at + |Text(items[0])|);
    }
  }

  /** Hinted when it reads, and with no subquery before the statement it leads up to. */
  ghost predicate Complies(p: Printed) {
    (CanRead(p) ==> p.data.value.hinted) && !AnySubquery(p.prefix)
  }

  ghost predicate AllHinted(found: seq<Stmt>) { forall s :: s in found ==> s.Reads() ==> s.hinted }

  lemma StatementComplies(p: Printed, at: nat)
    requires p.data.Some? ==> p.data.value.kind != KindCTE
    ensures AllHinted(Expected(p, at)) && StraysIn(p.prefix, at) == [] <==> Complies(p)
  {
    hide CanRead, AnySubquery, StraysIn, Effects, Begun;
    ItemsStray(p.prefix, at);
    if p.data.Some? {
      ReadsMeaning(p, at);
      assert Expected(p, at) == [Expected(p, at)[0]];
    } else {
      NothingReads(p);
    }
  }

  lemma NothingReads(p: Printed)
    requires p.data.None?
    ensures !CanRead(p)
  {}

  lemma {:induction false} AllComply(ps: seq<Printed>, at: nat)
    requires forall p :: p in ps ==> p.data.Some? ==> p.data.value.kind != KindCTE
    ensures AllHinted(ExpectedAll(ps, at)) && StraysAll(ps, at) == [] <==> forall p :: p in ps ==> Complies(p)
    decreases |ps|
  {
    hide Expected, Complies, StraysIn, Print;
    if ps != [] {
      StatementComplies(ps[0], at);
      AllComply(ps[1..], at + |Print(ps[0])|);
      assert forall p :: p in ps <==> p == ps[0] || p in ps[1..];
      var a, b := Expected(ps[0], at), ExpectedAll(ps[1..], at + |Print(ps[0])|);
      assert forall s :: s in a + b <==> s in a || s in b;
    }
  }

  /** hintLint accepts a printed script exactly when every statement that can read rows is
      printed with the hint and no subquery stands outside the statements. */
  lemma PrintedAccepted(ps: seq<Printed>)
    requires forall p :: p in ps ==> Printable(p)
    ensures HintLint.Accepted(PrintAll(ps)) <==> forall p :: p in ps ==> Complies(p)
  {
    hide Scan, ExpectedAll, StraysAll, Complies, PrintAll, AllFit;
    HintRoundTrip.PrintThenScan(ps);
    AllComply(ps, 0);
    var out := Scan(PrintAll(ps)).out;
    assert AllHinted(out) <==> forall k :: 0 <= k < |out| && out[k].Reads() ==> out[k].hinted;
  }

  // ----- A cursor over a common table expression -----

  /** DECLARE C CURSOR FOR SELECT A FROM X, with and without a common table expression. */
  function Declared(head: Option<seq<Item>>): Printed {
    Printed([Word("DECLARE"), Word("C"), Word("CURSOR"), Word("FOR")],
            Some(Data(head, KindSelect, [Word("A"), Word("FROM"), Word("X")], true, true)))
  }

  function Table(): seq<Item> { [Word("X"), Word("AS"), Group([Word("SELECT"), Word("A"), Word("FROM"), Word("T")])] }

  /** A word that any SELECT may hold, or parentheses. */
  predicate Plain(item: Item) {
    && Spelled(item)
    && match item
       case Word(w) => !SetWord(Upper(w)) && Upper(w) != "OPTION" && KeyOf(Upper(w)) in {NoKey, FromKey, CloserKey}
       case Group(_) => true
       case _ => false
  }

  predicate Closes(item: Item) { item.Word? && KeyOf(Upper(item.text)) == CloserKey }

  lemma {:induction false} PlainFits(cur: Option<Stmt>, items: seq<Item>)
    requires forall item :: item in items ==> Plain(item) && (cur.Some? ==> !Closes(item))
    ensures AllFit(cur, items, false) && forall key :: key in Keys(items) ==> key in {NoKey, FromKey, CloserKey}
    decreases items
  {
    hide Plain, Closes, Fits, KeysOf, Effect;
    if items != [] {
      assert items[0] in items;
      PlainItem(cur, items[0]);
      PlainFits(Effect(cur, items[0]), items[1..]);
    }
  }

  lemma PlainItem(cur: Option<Stmt>, item: Item)
    requires Plain(item) && (cur.Some? ==> !Closes(item))
    ensures Fits(cur, item, false) && !item.Variable? && forall key :: key in KeysOf(item) ==> key in {NoKey, FromKey, CloserKey}
  {
    hide Upper, KeyOf;
  }

  lemma KnownWord(w: string)
    requires w in {"DECLARE", "CURSOR", "FOR", "FROM", "AS", "A", "C", "X"}
    ensures Plain(Word(w)) && Upper(w) == w && (Closes(Word(w)) <==> w == "DECLARE")
  {
    hide Upper, KeyOf, Name;
    KnownUpper(w);
    KnownKey(w);
  }

  lemma KnownUpper(w: string)
    requires w in {"DECLARE", "CURSOR", "FOR", "FROM", "AS", "A", "C", "X"}
    ensures Upper(w) == w && Name(w) && !SetWord(w) && w != "OPTION"
  {}

  lemma KnownKey(w: string)
    requires w in {"DECLARE", "CURSOR", "FOR", "FROM", "AS", "A", "C", "X"}
    ensures KeyOf(w) in {NoKey, FromKey, CloserKey} && (KeyOf(w) == CloserKey <==> w == "DECLARE")
  {}

  lemma DeclaredPlain(head: Option<seq<Item>>)
    requires head == None || head == Some(Table())
    ensures var p := Declared(head); forall item :: item in p.prefix ==> Plain(item)
    ensures var p := Declared(head); forall item :: item in p.data.value.items + HeadOf(p.data.value) ==> Plain(item) && !Closes(item)
  {
    hide Plain, Closes;
    KnownWord("DECLARE");
    KnownWord("C");
    KnownWord("CURSOR");
    KnownWord("FOR");
    KnownWord("A");
    KnownWord("FROM");
    KnownWord("X");
    KnownWord("AS");
    TablePlain();
  }

  lemma TablePlain()
    ensures Plain(Table()[2]) && !Closes(Table()[2])
  {
    hide KeyOf;
    assert Name("SELECT") && Name("A") && Name("FROM") && Name("T");
  }

  lemma LastIsFor(p: Printed)
    requires p.prefix == [Word("DECLARE"), Word("C"), Word("CURSOR"), Word("FOR")]
    ensures LastOf(p.prefix, "") == "FOR"
  {
    hide Upper;
    KnownWord("FOR");
    var more := p.prefix[1..];
    var rest := more[1..];
    assert rest[1..][1..] == [];
    assert LastOf(rest[1..], Upper("CURSOR")) == "FOR";
    assert LastOf(rest, Upper("C")) == "FOR";
    assert LastOf(more, Upper("DECLARE")) == "FOR";
  }

  lemma DeclaredPrints(head: Option<seq<Item>>)
    requires head == None || head == Some(Table())
    ensures Printable(Declared(head)) && (Returns(Declared(head)) <==> head.Some?)
  {
    hide Upper, KeyOf, Plain, Closes, AllFit, Keys, LastOf, Opened, Begun, Table;
    var p := Declared(head);
    var d := p.data.value;
    DeclaredPlain(head);
    LastIsFor(p);
    PlainFits(None, p.prefix);
    PlainFits(Some(Opened(KindCTE, 0, "FOR")), HeadOf(d));
    PlainFits(Some(Begun(d, 0, "FOR")), d.items);
    assert !AssignsFirst(d.items);
  }

  lemma DeclaredScans(head: Option<seq<Item>>)
    requires head == None || head == Some(Table())
    ensures var found := Scan(PrintAll([Declared(head)])).out; |found| == 1 && (found[0].Emits() <==> head.Some?)
  {
    hide Printable, Expected, Returns, StraysAll, Print, Scan;
    var p := Declared(head);
    DeclaredPrints(head);
    HintRoundTrip.PrintThenScan([p]);
    EmitsMeaning(p, 0);
    assert ExpectedAll([p], 0) == Expected(p, 0) + [];
  }

  /** The rows of a cursor come back through FETCH, and its SELECT is not counted as returning
      any; write it over a common table expression and it is. */
  lemma CursorOverTableExpression()
    ensures var plain := Scan(PrintAll([Declared(None)])).out; |plain| == 1 && !plain[0].Emits()
    ensures var over := Scan(PrintAll([Declared(Some(Table()))])).out; |over| == 1 && over[0].Emits()
  {
    hide Scan;
    DeclaredScans(None);
    DeclaredScans(Some(Table()));
  }
}
