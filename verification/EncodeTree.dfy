/**
 The node of collect/encode.go as it is built: objects that hold their keys in order and their
 values in a map, some of them other nodes, changed in place as the columns of a row are set.
 */
module EncodeTree {
  import opened Options
  import opened Encode

  datatype Slot<V> = Leaf(raw: V) | Sub(tree: Tree<V>)

  class Tree<V> {
    var keys: seq<string>
    var vals: map<string, Slot<V>>
    ghost var Repr: set<object>

    /** The map holds exactly the keys, each once, and the trees below share nothing. */
    ghost predicate Valid()
      reads this, Repr
      decreases Repr
    {
      && this in Repr
      && Listed(keys, vals)
      && (forall k :: k in vals && vals[k].Sub? ==>
            vals[k].tree in Repr && vals[k].tree.Repr < Repr && this !in vals[k].tree.Repr && vals[k].tree.Valid())
      && (forall j, k :: j in vals && k in vals && j != k && vals[j].Sub? && vals[k].Sub? ==>
            vals[j].tree.Repr !! vals[k].tree.Repr)
    }

    /** The tree as a value. */
    function View(): (n: Node<V>)
      requires Valid()
      reads this, Repr
      ensures |n.fields| == |keys|
      ensures forall i :: 0 <= i < |keys| ==> n.fields[i].key == keys[i] && n.fields[i].value == ViewAt(keys[i])
      decreases Repr, 1
    {
      Node(seq(|keys|, i requires 0 <= i < |keys| && Valid() reads this, Repr => Field(keys[i], ViewAt(keys[i]))))
    }

    function ViewAt(k: string): Value<V>
      requires Valid() && k in vals
      reads this, Repr
      decreases Repr, 0
    {
      match vals[k]
      case Leaf(raw) => Raw(raw)
      case Sub(t) => Object(t.View())
    }

    constructor ()
      ensures Valid() && fresh(Repr) && View() == Node([])
    {
      keys, vals, Repr := [], map[], {this};
    }

    /** set: a new property, refused when the name is taken. */
    method Set(key: string, raw: V) returns (ok: bool)
      requires Valid()
      modifies this
      ensures Valid() && Repr == old(Repr)
      ensures ok <==> key !in old(vals)
      ensures View() == if ok then Node(old(View()).fields + [Field(key, Raw(raw))]) else old(View())
    {
      if key in vals { return false; }
      keys, vals := keys + [key], vals[key := Leaf(raw)];
      ok := true;
    }

    /** child: the object of that name, made when nothing has the name. */
    method Child(key: string) returns (c: Option<Tree<V>>)
      requires Valid()
      modifies this
      ensures Valid() && fresh(Repr - old(Repr))
      ensures c.None? <==> key in old(vals) && old(vals)[key].Leaf?
      ensures c.Some? ==> key in vals && vals[key] == Sub(c.value)
      ensures key in old(vals) ==> keys == old(keys) && vals == old(vals) && Repr == old(Repr) && View() == old(View())
      ensures key !in old(vals) ==> View() == Node(old(View()).fields + [Field(key, Object(Node([])))])
    {
      if key in vals {
        return match vals[key] case Leaf(_) => None case Sub(t) => Some(t);
      }
      var t := NewChild(key);
      return Some(t);
    }

    method NewChild(key: string) returns (t: Tree<V>)
      requires Valid() && key !in vals
      modifies this
      ensures Valid() && fresh(Repr - old(Repr)) && key in vals && vals[key] == Sub(t)
      ensures View() == Node(old(View()).fields + [Field(key, Object(Node([])))])
    {
      hide Listed;
      t := new Tree<V>();
      ListedMore(keys, vals, key, Sub(t));
      keys, vals := keys + [key], vals[key := Sub(t)];
      Repr := Repr + t.Repr;
    }

    /** A column's value at its path: the objects along it, then the value. */
    method Put(path: seq<string>, raw: V) returns (ok: bool)
      requires Valid() && path != []
      modifies Repr
      ensures Valid() && fresh(Repr - old(Repr))
      ensures ok <==> Insert(old(View()), path, raw).Some?
      ensures ok ==> View() == Insert(old(View()), path, raw).value
      decreases |path|, 1
    {
      hide Insert;
      ghost var was := View();
      PlaceOf(was, path[0]);
      if |path| == 1 {
        InsertLeaf(was, path, raw);
        ok := Set(path[0], raw);
        return;
      }
      InsertBelow(was, path, raw);
      var c := Child(path[0]);
      if c.None? { return false; }
      ghost var i := Find(was, path[0]);
      ok := PutBelow(path[1..], raw, c.value, path[0], i);
      if ok && i == |was.fields| { LastReplaced(was.fields, Field(path[0], Object(Node([]))), View().fields[i]); }
    }

    /** The rest of the path, below a child that is there: only the child's property changes. */
    method PutBelow(path: seq<string>, raw: V, t: Tree<V>, key: string, ghost i: nat) returns (ok: bool)
      requires Valid() && path != [] && i < |keys| && keys[i] == key && key in vals && vals[key] == Sub(t)
      modifies Repr
      ensures Valid() && fresh(Repr - old(Repr)) && t.Valid()
      ensures ok <==> Insert(old(t.View()), path, raw).Some?
      ensures ok ==> t.View() == Insert(old(t.View()), path, raw).value
      ensures View() == Node(old(View()).fields[i := Field(key, Object(t.View()))])
      decreases |path|, 2
    {
      hide Insert, Listed;
      ghost var was := View();
      ok := t.Put(path, raw);
      Repr := Repr + t.Repr;
      forall k | k in vals && k != key && vals[k].Sub?
        ensures k in old(vals) && vals[k].tree.Valid() && vals[k].tree.Repr == old(vals[k].tree.Repr) && vals[k].tree.View() == old(vals[k].tree.View())
      {
        assert old(vals[k].tree.Repr) !! old(t.Repr);
      }
      ListedMeans(keys, vals);
      Replaced(was, View(), i, key);
    }
  }

  lemma LastReplaced<T>(s: seq<T>, x: T, y: T)
    ensures (s + [x])[|s| := y] == s + [y]
  {
  }

  lemma InsertLeaf<V>(n: Node<V>, path: seq<string>, raw: V)
    requires |path| == 1
    ensures Find(n, path[0]) < |n.fields| ==> Insert(n, path, raw).None?
    ensures Find(n, path[0]) == |n.fields| ==> Insert(n, path, raw) == Some(Node(n.fields + [Field(path[0], Raw(raw))]))
  {
  }

  ghost predicate Below<V>(n: Node<V>, path: seq<string>, raw: V, i: nat, inner: Node<V>)
    requires |path| > 1
  {
    && (Insert(n, path, raw).Some? <==> Insert(inner, path[1..], raw).Some?)
    && (Insert(n, path, raw).Some? ==>
          var f := Field(path[0], Object(Insert(inner, path[1..], raw).value));
          Insert(n, path, raw).value == Node(if i < |n.fields| then n.fields[i := f] else n.fields + [f]))
  }

  lemma InsertBelow<V>(n: Node<V>, path: seq<string>, raw: V)
    requires |path| > 1
    ensures var i := Find(n, path[0]);
      if i < |n.fields| && n.fields[i].value.Raw? then Insert(n, path, raw).None?
      else Below(n, path, raw, i, if i < |n.fields| then n.fields[i].value.node else Node([]))
  {
  }

  /** Where a name is found, or that it is nowhere. */
  lemma PlaceOf<V>(n: Node<V>, key: string)
    ensures Find(n, key) == |n.fields| <==> forall k :: 0 <= k < |n.fields| ==> n.fields[k].key != key
  {
  }

  lemma Replaced<V>(a: Node<V>, b: Node<V>, i: nat, key: string)
    requires |a.fields| == |b.fields| && i < |a.fields| && a.fields[i].key == key
    requires forall k :: 0 <= k < |a.fields| && k != i ==> a.fields[k] == b.fields[k]
    ensures b == Node(a.fields[i := b.fields[i]])
  {
    assert b.fields == a.fields[i := b.fields[i]];
  }

  lemma ListedMeans<V>(keys: seq<string>, vals: map<string, Slot<V>>)
    requires Listed(keys, vals)
    ensures (forall k :: 0 <= k < |keys| ==> keys[k] in vals) && forall i, j :: 0 <= i < j < |keys| ==> keys[i] != keys[j]
  {
  }

  lemma ListedMore<V>(keys: seq<string>, vals: map<string, Slot<V>>, key: string, x: Slot<V>)
    requires Listed(keys, vals) && key !in vals
    ensures Listed(keys + [key], vals[key := x]) && forall k :: k in keys ==> k in vals
  {
  }

  ghost predicate Listed<V>(keys: seq<string>, vals: map<string, Slot<V>>) {
    && (forall k :: k in vals <==> k in keys)
    && forall i, j :: 0 <= i < j < |keys| ==> keys[i] != keys[j]
  }

  /** buildRow: one pass over the columns, each set at its path in the tree. A row comes out
      exactly when there is a value per column and no path equals or prefixes another; it is the
      object of its columns, and its leaves are a permutation of them. */
  method BuildRow<V>(columns: seq<string>, values: seq<V>) returns (row: Option<Tree<V>>)
    ensures row.Some? <==> |columns| == |values| && PrefixFree(AsColumns(columns, values))
    ensures row.Some? ==> fresh(row.value) && row.value.Valid() && Build(AsColumns(columns, values)) == Some(row.value.View())
  {
    hide PrefixFree, Insert, Represents, Leaves;
    if |columns| != |values| { return None; }
    ghost var cols := AsColumns(columns, values);
    var root := new Tree<V>();
    assert cols[..0] == [];
    for i := 0 to |columns|
      invariant fresh(root) && root.Valid() && fresh(root.Repr)
      invariant Build(cols[..i]) == Some(root.View())
    {
      assert cols[..i + 1][..i] == cols[..i];
      var ok := root.Put(SplitAlias(columns[i]), values[i]);
      if !ok {
        BuildMeaning(cols[..i + 1]);
        NotPrefixFree(cols, i + 1);
        return None;
      }
    }
    assert cols[..|columns|] == cols;
    BuildMeaning(cols);
    return Some(root);
  }
}
