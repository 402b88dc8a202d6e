/** Splitting text on a separator, as strings.Split does. */
module Text {
  function Split(s: string, sep: char): (parts: seq<string>)
    ensures parts != []
  {
    if s == "" then [""] else Put(s[0], Split(s[1..], sep), sep)
  }

  /** One character in front: a separator begins a new part. */
  function Put(c: char, parts: seq<string>, sep: char): (r: seq<string>)
    requires parts != []
    ensures r != []
  {
    if c == sep then [""] + parts else [[c] + parts[0]] + parts[1..]
  }

  function Join(parts: seq<string>, sep: char): string
    requires parts != []
  {
    if |parts| == 1 then parts[0] else parts[0] + [sep] + Join(parts[1..], sep)
  }

  ghost predicate Free(parts: seq<string>, sep: char) { forall k :: 0 <= k < |parts| ==> sep !in parts[k] }

  lemma JoinPut(c: char, parts: seq<string>, sep: char)
    requires parts != []
    ensures Join(Put(c, parts, sep), sep) == [c] + Join(parts, sep)
  {
    if c == sep {
      assert ([""] + parts)[1..] == parts;
      assert "" + [sep] + Join(parts, sep) == [sep] + Join(parts, sep);
    } else {
      assert ([[c] + parts[0]] + parts[1..])[1..] == parts[1..];
      if |parts| > 1 {
        assert ([c] + parts[0]) + [sep] + Join(parts[1..], sep) == [c] + (parts[0] + [sep] + Join(parts[1..], sep));
      }
    }
  }

  lemma FreePut(c: char, parts: seq<string>, sep: char)
    requires parts != [] && Free(parts, sep)
    ensures Free(Put(c, parts, sep), sep)
  {}

  lemma {:induction false} SplitThenJoin(s: string, sep: char)
    ensures Join(Split(s, sep), sep) == s && Free(Split(s, sep), sep)
  {
    if s == "" { return; }
    hide Put, Join, Free;
    SplitThenJoin(s[1..], sep);
    JoinPut(s[0], Split(s[1..], sep), sep);
    FreePut(s[0], Split(s[1..], sep), sep);
    assert s == [s[0]] + s[1..];
  }

  lemma {:induction false} JoinThenSplit(parts: seq<string>, sep: char)
    requires parts != [] && Free(parts, sep)
    ensures Split(Join(parts, sep), sep) == parts
    decreases |parts|, |parts[0]|
  {
    if parts[0] == "" && |parts| == 1 { return; }
    hide Join;
    var c, rest := FrontPut(parts, sep);
    JoinThenSplit(rest, sep);
    JoinPut(c, rest, sep);
    assert ([c] + Join(rest, sep))[1..] == Join(rest, sep);
  }

  /** The parts as one character put in front of smaller ones. */
  lemma FrontPut(parts: seq<string>, sep: char) returns (c: char, rest: seq<string>)
    requires parts != [] && Free(parts, sep) && (parts[0] != "" || |parts| > 1)
    ensures rest != [] && Free(rest, sep) && Put(c, rest, sep) == parts
    ensures |rest| < |parts| || (|rest| == |parts| && |rest[0]| < |parts[0]|)
  {
    if parts[0] == "" {
      c, rest := sep, parts[1..];
      assert [""] + rest == parts;
    } else {
      c, rest := parts[0][0], [parts[0][1..]] + parts[1..];
      assert c in parts[0] && forall k :: 0 < k < |parts| ==> rest[k] == parts[k];
      assert [c] + rest[0] == parts[0] && [parts[0]] + rest[1..] == parts;
    }
  }

  lemma PutConcat(c: char, a: seq<string>, b: seq<string>, sep: char)
    requires a != []
    ensures Put(c, a + b, sep) == Put(c, a, sep) + b
  {
    assert (a + b)[0] == a[0] && (a + b)[1..] == a[1..] + b;
  }

  lemma {:induction false} SplitConcat(a: string, b: string, sep: char)
    ensures Split(a + [sep] + b, sep) == Split(a, sep) + Split(b, sep)
  {
    hide Put;
    var s := a + [sep] + b;
    if a == "" {
      assert s[0] == sep && s[1..] == b;
      PutSeparator(Split(b, sep), sep);
    } else {
      SplitConcat(a[1..], b, sep);
      assert s[0] == a[0] && s[1..] == a[1..] + [sep] + b;
      PutConcat(a[0], Split(a[1..], sep), Split(b, sep), sep);
    }
  }

  lemma PutSeparator(parts: seq<string>, sep: char)
    requires parts != []
    ensures Put(sep, parts, sep) == [""] + parts
  {}

  // ----- The order of strings -----

  predicate Less(a: string, b: string) {
    b != "" && (a == "" || a[0] < b[0] || (a[0] == b[0] && Less(a[1..], b[1..])))
  }

  lemma {:induction false} LessIsTotal(a: string, b: string)
    ensures Less(a, b) || a == b || Less(b, a)
    ensures !(Less(a, b) && Less(b, a)) && !Less(a, a)
  {
    if a != "" { LessIsTotal(a[1..], a[1..]); }
    if a != "" && b != "" {
      LessIsTotal(a[1..], b[1..]);
      assert a == [a[0]] + a[1..] && b == [b[0]] + b[1..];
    }
  }

  lemma {:induction false} LessIsTransitive(a: string, b: string, c: string)
    requires Less(a, b) && Less(b, c)
    ensures Less(a, c)
  {
    if a != "" && a[0] == b[0] == c[0] { LessIsTransitive(a[1..], b[1..], c[1..]); }
  }

  ghost predicate Sorted(keys: seq<string>) { forall i, j :: 0 <= i < j < |keys| ==> Less(keys[i], keys[j]) }

  method First(keys: set<string>) returns (least: string)
    requires keys != {}
    ensures least in keys && forall k :: k in keys && k != least ==> Less(least, k)
  {
    hide Less;
    least :| least in keys;
    var rest := keys - {least};
    while rest != {}
      invariant rest <= keys && least in keys - rest
      invariant forall k :: k in keys - rest && k != least ==> Less(least, k)
      decreases |rest|
    {
      var k :| k in rest;
      LessIsTotal(k, least);
      if Less(k, least) {
        forall x | x in keys - rest && x != least ensures Less(k, x) { LessIsTransitive(k, least, x); }
        least := k;
      }
      rest := rest - {k};
    }
  }

  method Sort(keys: set<string>) returns (sorted: seq<string>)
    ensures Sorted(sorted) && forall k :: k in sorted <==> k in keys
  {
    hide Less;
    var rest := keys;
    sorted := [];
    while rest != {}
      invariant rest <= keys && Sorted(sorted)
      invariant forall k :: k in sorted <==> k in keys - rest
      invariant forall k, x :: k in sorted && x in rest ==> Less(k, x)
      decreases |rest|
    {
      var k := First(rest);
      sorted := sorted + [k];
      rest := rest - {k};
    }
  }
}
