/**
 The ordered JSON tree of collect/encode.go: columns whose aliases hold dots are expanded into
 nested objects, in SELECT order. The formatting of a value is not modelled; a leaf holds the
 value itself.
 */
module Encode {
  import opened Options
  import Text

  /** An object keeps its properties in the order they were set. */
  datatype Node<V> = Node(fields: seq<Field<V>>)
  datatype Field<V> = Field(key: string, value: Value<V>)
  datatype Value<V> = Raw(raw: V) | Object(node: Node<V>)

  /** A column: its alias as a path, and its value. */
  datatype Column<V> = Column(path: seq<string>, raw: V)

  function Keys<V>(n: Node<V>): (r: seq<string>)
    ensures |r| == |n.fields| && forall k :: 0 <= k < |r| ==> r[k] == n.fields[k].key
  {
    seq(|n.fields|, k requires 0 <= k < |n.fields| => n.fields[k].key)
  }

  /** The place of a property, or the number of properties. */
  function Find<V>(n: Node<V>, key: string): (i: nat)
    ensures i <= |n.fields| && (i < |n.fields| ==> n.fields[i].key == key)
    ensures forall k :: 0 <= k < i ==> n.fields[k].key != key
    decreases |n.fields|
  {
    if n.fields == [] then 0
    else if n.fields[0].key == key then 0
    else 1 + Find(Node(n.fields[1..]), key)
  }

  // ----- Aliases -----

  /** An alias between doubled brackets is one name, dots and all. */
  predicate Literal(col: string) { |col| >= 4 && col[..2] == "[[" && col[|col| - 2..] == "]]" }

  /** splitAlias: on dots, except in an alias written between doubled brackets. */
  function SplitAlias(col: string): (parts: seq<string>)
    ensures parts != []
  {
    if Literal(col) then [col[2..|col| - 2]] else Text.Split(col, '.')
  }

  /** Any other alias is its parts joined by dots, none of which holds a dot. */
  lemma AliasParts(col: string, name: string)
    ensures Literal("[[" + name + "]]") && SplitAlias("[[" + name + "]]") == [name]
    ensures Literal(col) ==> |SplitAlias(col)| == 1 && col == "[[" + SplitAlias(col)[0] + "]]"
    ensures !Literal(col) ==> Text.Join(SplitAlias(col), '.') == col && Text.Free(SplitAlias(col), '.')
    ensures !Literal(col) && '.' !in col ==> SplitAlias(col) == [col]
  {
    var bracketed := "[[" + name + "]]";
    assert bracketed[..2] == "[[" && bracketed[|bracketed| - 2..] == "]]" && bracketed[2..|bracketed| - 2] == name;
    if Literal(col) { assert col == col[..2] + col[2..|col| - 2] + col[|col| - 2..]; }
    Text.SplitThenJoin(col, '.');
    if '.' !in col { Text.JoinThenSplit([col], '.'); }
  }

  // ----- Setting one column -----

  /** The child objects of the alias, then the value: node.child along the path and node.set at
      its end. None is the error of a name used twice, or as both a value and an object. */
  function Insert<V>(n: Node<V>, path: seq<string>, raw: V): Option<Node<V>>
    requires path != []
    decreases |path|
  {
    var i := Find(n, path[0]);
    if |path| == 1 then
      if i < |n.fields| then None else Some(Node(n.fields + [Field(path[0], Raw(raw))]))
    else if i == |n.fields| then
      var child := Insert(Node([]), path[1..], raw);
      if child.None? then None else Some(Node(n.fields + [Field(path[0], Object(child.value))]))
    else
      match n.fields[i].value
      case Raw(_) => None
      case Object(c) =>
        var child := Insert(c, path[1..], raw);
        if child.None? then None else Some(Node(n.fields[i := Field(path[0], Object(child.value))]))
  }

  // ----- What a row should be -----

  predicate Paths<V>(cols: seq<Column<V>>) { forall k :: 0 <= k < |cols| ==> cols[k].path != [] }

  /** No path equals another or is a prefix of it. */
  predicate Apart(a: seq<string>, b: seq<string>) { !(a <= b) && !(b <= a) }

  predicate PrefixFree<V>(cols: seq<Column<V>>) {
    forall i, j :: 0 <= i < j < |cols| ==> Apart(cols[i].path, cols[j].path)
  }

  /** The first names of the paths, each once, in order of first appearance. */
  function Heads<V>(cols: seq<Column<V>>): (r: seq<string>)
    requires Paths(cols)
    ensures forall k :: k in r <==> exists i :: 0 <= i < |cols| && cols[i].path[0] == k
  {
    if cols == [] then []
    else
      var before, last := Heads(cols[..|cols| - 1]), cols[|cols| - 1];
      assert cols == cols[..|cols| - 1] + [last];
      if last.path[0] in before then before else before + [last.path[0]]
  }

  /** The columns below a name, without it. */
  function Below<V>(cols: seq<Column<V>>, key: string): (r: seq<Column<V>>)
    requires Paths(cols)
    ensures |r| <= |cols|
  {
    if cols == [] then []
    else
      var before, last := Below(cols[..|cols| - 1], key), cols[|cols| - 1];
      if last.path[0] == key then before + [Column(last.path[1..], last.raw)] else before
  }

  /** The object of these columns: its properties are the first names in order of first
      appearance, each standing for the columns below it. */
  ghost predicate Represents<V>(n: Node<V>, cols: seq<Column<V>>)
    requires Paths(cols)
    decreases n
  {
    && Keys(n) == Heads(cols)
    && forall k :: 0 <= k < |n.fields| ==> StandsFor(n.fields[k].value, Below(cols, n.fields[k].key))
  }

  /** The value of the one column that ends here, or the object of all that go on. */
  ghost predicate StandsFor<V>(v: Value<V>, below: seq<Column<V>>)
    decreases v
  {
    match v
    case Raw(raw) => below == [Column([], raw)]
    case Object(c) => below != [] && Paths(below) && Represents(c, below)
  }

  lemma HeadsMore<V>(cols: seq<Column<V>>, c: Column<V>)
    requires Paths(cols) && c.path != []
    ensures Paths(cols + [c])
    ensures Heads(cols + [c]) == if c.path[0] in Heads(cols) then Heads(cols) else Heads(cols) + [c.path[0]]
  {
    assert forall k :: 0 <= k < |cols| ==> (cols + [c])[k] == cols[k];
    assert (cols + [c])[..|cols|] == cols;
  }

  lemma BelowMore<V>(cols: seq<Column<V>>, c: Column<V>, key: string)
    requires Paths(cols) && c.path != []
    ensures c.path[0] == key ==> Below(cols + [c], key) == Below(cols, key) + [Column(c.path[1..], c.raw)]
    ensures c.path[0] != key ==> Below(cols + [c], key) == Below(cols, key)
  {
    assert (cols + [c])[..|cols|] == cols;
  }

  lemma {:induction false} BelowOf<V>(cols: seq<Column<V>>, key: string, t: Column<V>)
    requires Paths(cols)
    ensures t in Below(cols, key) <==> exists i :: 0 <= i < |cols| && cols[i] == Column([key] + t.path, t.raw)
  {
    if cols != [] {
      var before, last := cols[..|cols| - 1], cols[|cols| - 1];
      BelowOf(before, key, t);
      assert cols == before + [last];
      assert last.path == [last.path[0]] + last.path[1..];
    }
  }

  lemma {:induction false} NothingBelow<V>(cols: seq<Column<V>>, key: string)
    requires Paths(cols)
    ensures Below(cols, key) == [] <==> key !in Heads(cols)
  {
    if cols != [] { NothingBelow(cols[..|cols| - 1], key); }
  }

  /** Distinct first names. */
  lemma {:induction false} HeadsOnce<V>(cols: seq<Column<V>>)
    requires Paths(cols)
    ensures forall i, j :: 0 <= i < j < |Heads(cols)| ==> Heads(cols)[i] != Heads(cols)[j]
  {
    if cols != [] { HeadsOnce(cols[..|cols| - 1]); }
  }

  // ----- Inserting keeps the row the object of its columns -----

  /** The path meets none of these. */
  predicate Fits<V>(cols: seq<Column<V>>, path: seq<string>) {
    forall i :: 0 <= i < |cols| ==> Apart(cols[i].path, path)
  }

  lemma ApartBelow(key: string, a: seq<string>, b: seq<string>)
    ensures Apart([key] + a, [key] + b) == Apart(a, b)
  {
    assert ([key] + a)[1..] == a && ([key] + b)[1..] == b;
    if a <= b { assert [key] + a <= [key] + b; }
    if b <= a { assert [key] + b <= [key] + a; }
  }

  lemma FitsBelow<V>(cols: seq<Column<V>>, path: seq<string>)
    requires Paths(cols) && path != []
    ensures Fits(cols, path) <==> forall t :: t in Below(cols, path[0]) ==> Apart(t.path, path[1..])
  {
    assert path == [path[0]] + path[1..];
    forall i | 0 <= i < |cols|
      ensures cols[i].path[0] != path[0] ==> Apart(cols[i].path, path)
      ensures cols[i].path[0] == path[0] ==>
        var t := Column(cols[i].path[1..], cols[i].raw); t in Below(cols, path[0]) && Apart(cols[i].path, path) == Apart(t.path, path[1..])
    {
      var t := Column(cols[i].path[1..], cols[i].raw);
      assert cols[i].path == [cols[i].path[0]] + t.path;
      BelowOf(cols, path[0], t);
      ApartBelow(path[0], t.path, path[1..]);
    }
    forall t | t in Below(cols, path[0])
      ensures exists i :: 0 <= i < |cols| && cols[i] == Column([path[0]] + t.path, t.raw)
      ensures Fits(cols, path) ==> Apart(t.path, path[1..])
    {
      BelowOf(cols, path[0], t);
      ApartBelow(path[0], t.path, path[1..]);
    }
  }

  /** One step of Insert: the value the first name gets, if it can have one. */
  lemma InsertStep<V>(n: Node<V>, path: seq<string>, raw: V)
    requires path != []
    ensures var i := Find(n, path[0]);
      Insert(n, path, raw) ==
        if |path| == 1 then
          if i < |n.fields| then None else Some(Node(n.fields + [Field(path[0], Raw(raw))]))
        else if i < |n.fields| && n.fields[i].value.Raw? then None
        else
          var child := Insert(if i < |n.fields| then n.fields[i].value.node else Node([]), path[1..], raw);
          if child.None? then None
          else if i < |n.fields| then Some(Node(n.fields[i := Field(path[0], Object(child.value))]))
          else Some(Node(n.fields + [Field(path[0], Object(child.value))]))
  {
  }

  lemma AppendField<V>(n: Node<V>, cols: seq<Column<V>>, c: Column<V>, v: Value<V>)
    requires Paths(cols) && c.path != [] && Represents(n, cols) && c.path[0] !in Keys(n)
    requires StandsFor(v, [Column(c.path[1..], c.raw)])
    ensures Paths(cols + [c]) && Represents(Node(n.fields + [Field(c.path[0], v)]), cols + [c])
  {
    hide StandsFor, Heads, Below;
    var r := Node(n.fields + [Field(c.path[0], v)]);
    HeadsMore(cols, c);
    NothingBelow(cols, c.path[0]);
    assert Keys(r) == Keys(n) + [c.path[0]];
    forall k | 0 <= k < |r.fields|
      ensures StandsFor(r.fields[k].value, Below(cols + [c], r.fields[k].key))
    {
      BelowMore(cols, c, r.fields[k].key);
      if k < |n.fields| {
        assert r.fields[k] == n.fields[k] && n.fields[k].key == Keys(n)[k];
      } else {
        assert [] + [Column(c.path[1..], c.raw)] == [Column(c.path[1..], c.raw)];
      }
    }
  }

  lemma ReplaceField<V>(n: Node<V>, cols: seq<Column<V>>, c: Column<V>, i: nat, v: Value<V>)
    requires Paths(cols) && c.path != [] && Represents(n, cols) && i < |n.fields| && n.fields[i].key == c.path[0]
    requires StandsFor(v, Below(cols, c.path[0]) + [Column(c.path[1..], c.raw)])
    ensures Paths(cols + [c]) && Represents(Node(n.fields[i := Field(c.path[0], v)]), cols + [c])
  {
    hide StandsFor, Heads, Below;
    var r := Node(n.fields[i := Field(c.path[0], v)]);
    HeadsMore(cols, c);
    HeadsOnce(cols);
    assert Keys(r) == Keys(n);
    assert Keys(n)[i] == c.path[0];
    forall k | 0 <= k < |r.fields|
      ensures StandsFor(r.fields[k].value, Below(cols + [c], r.fields[k].key))
    {
      BelowMore(cols, c, r.fields[k].key);
      assert Keys(r)[k] == r.fields[k].key;
    }
  }

  lemma NothingYet<V>(path: seq<string>)
    ensures Represents<V>(Node([]), []) && Fits<V>([], path)
  {
  }

  lemma NotApart(a: seq<string>, b: seq<string>)
    requires a == [] || b == []
    ensures !Apart(a, b)
  {
  }

  lemma FitsEach<V>(cols: seq<Column<V>>, path: seq<string>)
    ensures Fits(cols, path) <==> forall t :: t in cols ==> Apart(t.path, path)
  {
  }

  /** A column goes in exactly when its path meets no other, and the row is then the object of
      one column more. */
  lemma {:induction false} InsertMeaning<V>(n: Node<V>, cols: seq<Column<V>>, path: seq<string>, raw: V)
    requires Paths(cols) && path != [] && Represents(n, cols)
    ensures Insert(n, path, raw).Some? <==> Fits(cols, path)
    ensures Insert(n, path, raw).Some? ==> Represents(Insert(n, path, raw).value, cols + [Column(path, raw)])
    decreases |path|
  {
    hide Insert, Below, Heads, Fits, Apart, Find;
    var c, key := Column(path, raw), path[0];
    var i, below := Find(n, key), Below(cols, key);
    InsertStep(n, path, raw);
    NothingBelow(cols, key);
    FitsBelow(cols, path);
    if i == |n.fields| {
      assert key !in Keys(n);
      if |path| == 1 {
        AppendField(n, cols, c, Raw(raw));
      } else {
        NothingYet<V>(path[1..]);
        InsertMeaning(Node([]), [], path[1..], raw);
        assert [] + [Column(path[1..], raw)] == [Column(path[1..], raw)];
        AppendField(n, cols, c, Object(Insert(Node([]), path[1..], raw).value));
      }
    } else {
      assert Keys(n)[i] == key;
      assert StandsFor(n.fields[i].value, below) && below[0] in below;
      if n.fields[i].value.Raw? || |path| == 1 {
        NotApart(below[0].path, path[1..]);
      } else {
        var inner := n.fields[i].value.node;
        InsertMeaning(inner, below, path[1..], raw);
        FitsEach(below, path[1..]);
        var child := Insert(inner, path[1..], raw);
        if child.Some? { ReplaceField(n, cols, c, i, Object(child.value)); }
      }
    }
  }

  // ----- The leaves -----

  function Prefixed<V>(key: string, cols: seq<Column<V>>): (r: seq<Column<V>>)
    ensures |r| == |cols|
  {
    seq(|cols|, k requires 0 <= k < |cols| => Column([key] + cols[k].path, cols[k].raw))
  }

  /** The leaves of one property, and of all, with their paths and in document order. */
  function LeavesOf<V>(f: Field<V>): seq<Column<V>>
    decreases f, 0
  {
    match f.value
    case Raw(raw) => [Column([f.key], raw)]
    case Object(c) => Prefixed(f.key, Leaves(c.fields))
  }

  function Leaves<V>(fields: seq<Field<V>>): seq<Column<V>>
    decreases fields, 1
  {
    if fields == [] then [] else LeavesOf(fields[0]) + Leaves(fields[1..])
  }

  lemma {:induction false} LeavesConcat<V>(a: seq<Field<V>>, b: seq<Field<V>>)
    ensures Leaves(a + b) == Leaves(a) + Leaves(b)
  {
    hide LeavesOf;
    if a == [] {
      assert a + b == b;
    } else {
      LeavesConcat(a[1..], b);
      assert (a + b)[0] == a[0] && (a + b)[1..] == a[1..] + b;
      var x, y, z := LeavesOf(a[0]), Leaves(a[1..]), Leaves(b);
      assert x + (y + z) == (x + y) + z;
    }
  }

  function Under<V>(key: string, c: Column<V>): Column<V> { Column([key] + c.path, c.raw) }

  /** Below a name the columns are the same columns, however they are ordered. */
  lemma {:induction false} PrefixedCount<V>(key: string, s: seq<Column<V>>, c: Column<V>)
    ensures multiset(Prefixed(key, s))[Under(key, c)] == multiset(s)[c]
  {
    if s != [] {
      var rest, last := s[..|s| - 1], s[|s| - 1];
      PrefixedCount(key, rest, c);
      assert s == rest + [last];
      assert Prefixed(key, s) == Prefixed(key, rest) + [Under(key, last)];
      assert Under(key, c).path[1..] == c.path && Under(key, last).path[1..] == last.path;
    }
  }

  lemma PrefixedMore<V>(key: string, s: seq<Column<V>>, t: seq<Column<V>>, c: Column<V>)
    requires multiset(t) == multiset(s) + multiset{c}
    ensures multiset(Prefixed(key, t)) == multiset(Prefixed(key, s)) + multiset{Under(key, c)}
  {
    var a, b := multiset(Prefixed(key, t)), multiset(Prefixed(key, s)) + multiset{Under(key, c)};
    forall x: Column<V>
      ensures a[x] == b[x]
    {
      if x.path != [] && x.path[0] == key {
        var y := Column(x.path[1..], x.raw);
        assert Under(key, y) == x;
        PrefixedCount(key, s, y);
        PrefixedCount(key, t, y);
        assert Under(key, c).path[1..] == c.path;
      } else {
        assert x !in Prefixed(key, t) && x !in Prefixed(key, s);
      }
    }
  }

  /** Inserting adds exactly the one leaf. */
  lemma {:induction false} InsertLeaves<V>(n: Node<V>, path: seq<string>, raw: V)
    requires path != [] && Insert(n, path, raw).Some?
    ensures multiset(Leaves(Insert(n, path, raw).value.fields)) == multiset(Leaves(n.fields)) + multiset{Column(path, raw)}
    decreases |path|
  {
    hide Insert, Prefixed, Find;
    InsertStep(n, path, raw);
    var i := Find(n, path[0]);
    assert path == [path[0]] + path[1..];
    var inner: Node<V> := if i < |n.fields| then n.fields[i].value.node else Node([]);
    if |path| == 1 {
      assert path == [path[0]];
      OneMore(n.fields, Field(path[0], Raw(raw)));
    } else {
      InsertLeaves(inner, path[1..], raw);
      var child := Insert(inner, path[1..], raw).value;
      PrefixedMore(path[0], Leaves(inner.fields), Leaves(child.fields), Column(path[1..], raw));
      var f := Field(path[0], Object(child));
      if i < |n.fields| {
        assert LeavesOf(n.fields[i]) == Prefixed(path[0], Leaves(inner.fields));
        OneReplaced(n.fields, i, f, Column(path, raw));
      } else {
        OneMore(n.fields, f);
        assert multiset(LeavesOf(f)) == multiset{Column(path, raw)} by { NothingPrefixed<V>(path[0]); }
      }
    }
  }

  lemma NothingPrefixed<V>(key: string)
    ensures Prefixed<V>(key, Leaves([])) == []
  {
  }

  lemma OneMore<V>(fields: seq<Field<V>>, f: Field<V>)
    ensures multiset(Leaves(fields + [f])) == multiset(Leaves(fields)) + multiset(LeavesOf(f))
  {
    LeavesConcat(fields, [f]);
    assert [f][1..] == [] && LeavesOf(f) + [] == LeavesOf(f);
  }

  lemma OneReplaced<V>(fields: seq<Field<V>>, i: nat, f: Field<V>, c: Column<V>)
    requires i < |fields| && multiset(LeavesOf(f)) == multiset(LeavesOf(fields[i])) + multiset{c}
    ensures multiset(Leaves(fields[i := f])) == multiset(Leaves(fields)) + multiset{c}
  {
    var a, b := fields[..i], fields[i + 1..];
    assert fields == (a + [fields[i]]) + b && fields[i := f] == (a + [f]) + b;
    LeavesConcat(a + [fields[i]], b);
    LeavesConcat(a + [f], b);
    OneMore(a, f);
    OneMore(a, fields[i]);
  }

  // ----- A row -----

  /** The columns set one after another, stopping at the first that does not fit. */
  function Build<V>(cols: seq<Column<V>>): Option<Node<V>>
    requires Paths(cols)
  {
    if cols == [] then Some(Node([]))
    else
      var before, last := Build(cols[..|cols| - 1]), cols[|cols| - 1];
      if before.None? then None else Insert(before.value, last.path, last.raw)
  }

  /** A row is built exactly when no path equals another or is a prefix of it. It is then the
      object of its columns, and its leaves are a permutation of them. */
  lemma {:induction false} BuildMeaning<V>(cols: seq<Column<V>>)
    requires Paths(cols)
    ensures Build(cols).Some? <==> PrefixFree(cols)
    ensures Build(cols).Some? ==> Represents(Build(cols).value, cols)
    ensures Build(cols).Some? ==> multiset(Leaves(Build(cols).value.fields)) == multiset(cols)
  {
    hide Insert, Represents, Leaves;
    if cols == [] {
      NothingYet<V>([]);
      OneMoreThanNothing<V>();
    } else {
      var before, last := cols[..|cols| - 1], cols[|cols| - 1];
      BuildMeaning(before);
      assert cols == before + [last];
      if Build(before).Some? {
        InsertMeaning(Build(before).value, before, last.path, last.raw);
        assert last == Column(last.path, last.raw);
        if Build(cols).Some? { InsertLeaves(Build(before).value, last.path, last.raw); }
      } else {
        assert !PrefixFree(cols);
      }
    }
  }

  lemma OneMoreThanNothing<V>()
    ensures Leaves<V>([]) == []
  {
  }

  /** No object, at any depth, has a property twice. */
  ghost predicate KeysOnce<V>(n: Node<V>)
    decreases n
  {
    && (forall i, j :: 0 <= i < j < |n.fields| ==> n.fields[i].key != n.fields[j].key)
    && forall k :: 0 <= k < |n.fields| && n.fields[k].value.Object? ==> KeysOnce(n.fields[k].value.node)
  }

  lemma {:induction false} RepresentsOnce<V>(n: Node<V>, cols: seq<Column<V>>)
    requires Paths(cols) && Represents(n, cols)
    ensures KeysOnce(n)
    decreases n
  {
    hide Heads, Below;
    HeadsOnce(cols);
    assert forall k :: 0 <= k < |n.fields| ==> Keys(n)[k] == n.fields[k].key;
    forall k | 0 <= k < |n.fields| && n.fields[k].value.Object?
      ensures KeysOnce(n.fields[k].value.node)
    {
      RepresentsOnce(n.fields[k].value.node, Below(cols, n.fields[k].key));
    }
  }

  lemma EndsHere<V>(v: Value<V>, below: seq<Column<V>>)
    requires StandsFor(v, below)
    ensures below != [] && (v.Raw? <==> below[0].path == [])
  {
  }

  /** The columns determine the object, order and all. */
  lemma {:induction false} RepresentsUnique<V>(a: Node<V>, b: Node<V>, cols: seq<Column<V>>)
    requires Paths(cols) && Represents(a, cols) && Represents(b, cols)
    ensures a == b
    decreases a
  {
    hide Heads, Below;
    assert |a.fields| == |Keys(a)| == |b.fields|;
    forall k | 0 <= k < |a.fields|
      ensures a.fields[k] == b.fields[k]
    {
      assert a.fields[k].key == Keys(a)[k] == Keys(b)[k] == b.fields[k].key;
      var below := Below(cols, a.fields[k].key);
      assert StandsFor(a.fields[k].value, below) && StandsFor(b.fields[k].value, below);
      EndsHere(a.fields[k].value, below);
      EndsHere(b.fields[k].value, below);
      if a.fields[k].value.Object? {
        RepresentsUnique(a.fields[k].value.node, b.fields[k].value.node, below);
      }
    }
    assert a.fields == b.fields;
  }

  lemma NotPrefixFree<V>(cols: seq<Column<V>>, n: nat)
    requires n <= |cols|
    ensures PrefixFree(cols) ==> PrefixFree(cols[..n])
  {
  }

  function AsColumns<V>(columns: seq<string>, values: seq<V>): (r: seq<Column<V>>)
    ensures Paths(r)
  {
    var n := if |columns| <= |values| then |columns| else |values|;
    seq(n, k requires 0 <= k < n => Column(SplitAlias(columns[k]), values[k]))
  }
}
