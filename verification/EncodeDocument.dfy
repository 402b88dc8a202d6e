/**
 The document of collect/encode.go: several result sets under their names, the root set's own
 properties beside them.
 */
module EncodeDocument {
  import opened Options
  import opened Encode
  import opened EncodeTree

  // ----- The document -----

  datatype Shape = ObjectShape | ArrayShape
  datatype ResultSet<V> = ResultSet(name: string, shape: Shape, columns: seq<string>, rows: seq<seq<V>>)

  /** A property of the document: null, a row, an array of rows, or a property of the root set. */
  datatype Body<V> = Null | One(row: Node<V>) | Many(rows: seq<Node<V>>) | Merged(value: Value<V>)
  datatype Entry<V> = Entry(key: string, body: Body<V>)

  const ROOT := "root"

  predicate RowSound<V>(columns: seq<string>, row: seq<V>) {
    |columns| == |row| && PrefixFree(AsColumns(columns, row))
  }

  predicate Sound<V>(rs: ResultSet<V>) {
    && (rs.name == ROOT ==> rs.shape == ObjectShape)
    && (rs.shape == ObjectShape ==> |rs.rows| <= 1)
    && forall k :: 0 <= k < |rs.rows| ==> RowSound(rs.columns, rs.rows[k])
  }

  /** The object of a row, which BuildMeaning describes. */
  function RowNode<V>(columns: seq<string>, row: seq<V>): (n: Node<V>)
    requires RowSound(columns, row)
    ensures Represents(n, AsColumns(columns, row))
  {
    BuildMeaning(AsColumns(columns, row));
    Build(AsColumns(columns, row)).value
  }

  function RowNodes<V>(columns: seq<string>, rows: seq<seq<V>>): (ns: seq<Node<V>>)
    requires forall k :: 0 <= k < |rows| ==> RowSound(columns, rows[k])
    ensures |ns| == |rows|
  {
    seq(|rows|, k requires 0 <= k < |rows| => RowNode(columns, rows[k]))
  }

  function AtTheTop<V>(n: Node<V>): (r: seq<Entry<V>>)
    ensures |r| == |n.fields| && forall k :: 0 <= k < |r| ==> r[k].key == n.fields[k].key
  {
    seq(|n.fields|, k requires 0 <= k < |n.fields| => Entry(n.fields[k].key, Merged(n.fields[k].value)))
  }

  /** What one result set puts at the top level: null for an object without a row, the row's own
      properties for the root set. */
  function Entries<V>(rs: ResultSet<V>): seq<Entry<V>>
    requires Sound(rs)
  {
    if rs.shape == ArrayShape then [Entry(rs.name, Many(RowNodes(rs.columns, rs.rows)))]
    else if rs.rows == [] then (if rs.name == ROOT then [] else [Entry(rs.name, Null)])
    else
      var row := RowNode(rs.columns, rs.rows[0]);
      if rs.name == ROOT then AtTheTop(row) else [Entry(rs.name, One(row))]
  }

  predicate AllSound<V>(sets: seq<ResultSet<V>>) { forall k :: 0 <= k < |sets| ==> Sound(sets[k]) }

  function Document<V>(sets: seq<ResultSet<V>>): seq<Entry<V>>
    requires AllSound(sets)
  {
    if sets == [] then [] else Document(sets[..|sets| - 1]) + Entries(sets[|sets| - 1])
  }

  predicate NamesOnce<V>(doc: seq<Entry<V>>) {
    forall i, j :: 0 <= i < j < |doc| ==> doc[i].key != doc[j].key
  }

  method BuildRows<V>(columns: seq<string>, rows: seq<seq<V>>) returns (r: Option<seq<Node<V>>>)
    ensures r.Some? <==> forall k :: 0 <= k < |rows| ==> RowSound(columns, rows[k])
    ensures r.Some? ==> r.value == RowNodes(columns, rows)
  {
    hide Represents, KeysOnce, PrefixFree, Leaves, AsColumns;
    var items := [];
    for i := 0 to |rows|
      invariant forall k :: 0 <= k < i ==> RowSound(columns, rows[k])
      invariant items == RowNodes(columns, rows[..i])
    {
      var row := BuildRow(columns, rows[i]);
      if row.None? { return None; }
      items := items + [row.value.View()];
    }
    assert rows[..|rows|] == rows;
    return Some(items);
  }

  /** One result set: refused exactly when it is not sound. */
  method EncodeSet<V>(rs: ResultSet<V>) returns (r: Option<seq<Entry<V>>>)
    ensures r.Some? <==> Sound(rs)
    ensures r.Some? ==> r.value == Entries(rs)
  {
    hide RowSound, Represents;
    if rs.name == ROOT && rs.shape != ObjectShape { return None; }
    if rs.shape == ArrayShape {
      var items := BuildRows(rs.columns, rs.rows);
      if items.None? { return None; }
      return Some([Entry(rs.name, Many(items.value))]);
    }
    if |rs.rows| > 1 { return None; }
    if |rs.rows| == 0 { return Some(if rs.name == ROOT then [] else [Entry(rs.name, Null)]); }
    var items := BuildRows(rs.columns, rs.rows);
    if items.None? { return None; }
    var row := items.value[0];
    return Some(if rs.name == ROOT then AtTheTop(row) else [Entry(rs.name, One(row))]);
  }

  /** node.set and node.merge at the top: every new name must be new. */
  method Merge<V>(doc: seq<Entry<V>>, entries: seq<Entry<V>>) returns (r: Option<seq<Entry<V>>>)
    requires NamesOnce(doc)
    ensures r.Some? <==> NamesOnce(doc + entries)
    ensures r.Some? ==> r.value == doc + entries
  {
    var out := doc;
    for i := 0 to |entries|
      invariant out == doc + entries[..i] && NamesOnce(out)
    {
      if exists k :: 0 <= k < |out| && out[k].key == entries[i].key {
        ghost var k :| 0 <= k < |out| && out[k].key == entries[i].key;
        assert out[k] == (doc + entries)[k] && entries[i] == (doc + entries)[|doc| + i];
        return None;
      }
      out := out + [entries[i]];
      assert entries[..i + 1] == entries[..i] + [entries[i]];
    }
    assert entries[..|entries|] == entries;
    return Some(out);
  }

  /** Encode: a document comes out exactly when every result set is sound and no two names at
      the top level are the same; it then holds, set after set, what each set puts there. */
  method EncodeSets<V>(sets: seq<ResultSet<V>>) returns (doc: Option<seq<Entry<V>>>)
    ensures doc.Some? <==> AllSound(sets) && NamesOnce(Document(sets))
    ensures doc.Some? ==> doc.value == Document(sets)
  {
    hide Sound, Entries, NamesOnce;
    var root: seq<Entry<V>> := [];
    NoNames<V>();
    for i := 0 to |sets|
      invariant AllSound(sets[..i]) && root == Document(sets[..i]) && NamesOnce(root)
    {
      var entries := EncodeSet(sets[i]);
      if entries.None? {
        assert !Sound(sets[i]);
        return None;
      }
      var more := Merge(root, entries.value);
      assert sets[..i + 1] == sets[..i] + [sets[i]] && sets[..i + 1][..i] == sets[..i];
      if more.None? {
        NamesOfMore(sets, i + 1);
        return None;
      }
      root := more.value;
    }
    assert sets[..|sets|] == sets;
    return Some(root);
  }

  lemma NoNames<V>()
    ensures NamesOnce<V>([])
  {}

  /** A name that is there twice stays twice. */
  lemma {:induction false} NamesOfMore<V>(sets: seq<ResultSet<V>>, i: nat)
    requires i <= |sets| && AllSound(sets[..i]) && !NamesOnce(Document(sets[..i]))
    ensures AllSound(sets) ==> !NamesOnce(Document(sets))
    decreases |sets|
  {
    hide Sound, Entries;
    if i == |sets| {
      assert sets[..i] == sets;
    } else if AllSound(sets) {
      var front := sets[..|sets| - 1];
      assert front[..i] == sets[..i];
      NamesOfMore(front, i);
      FrontOnce(Document(front), Entries(sets[|sets| - 1]));
    }
  }

  lemma FrontOnce<V>(a: seq<Entry<V>>, b: seq<Entry<V>>)
    ensures NamesOnce(a + b) ==> NamesOnce(a)
  {
    assert forall k :: 0 <= k < |a| ==> (a + b)[k] == a[k];
  }
}
