/**
 The .env reader and editor of collect/config.go: ParseDotEnv and the text part of UpdateDotEnv.
 */
module DotEnv {
  import opened Options
  import Text

  // ----- Space -----

  /** The white space of strings.TrimSpace. */
  predicate IsSpace(c: char) {
    || '\t' <= c <= '\r' || c == ' ' || c == '\U{0085}' || c == '\U{00A0}' || c == '\U{1680}'
    || '\U{2000}' <= c <= '\U{200A}' || c == '\U{2028}' || c == '\U{2029}' || c == '\U{202F}'
    || c == '\U{205F}' || c == '\U{3000}'
  }

  predicate AllSpace(s: string) { forall k :: 0 <= k < |s| ==> IsSpace(s[k]) }

  /** Neither starts nor ends with space. */
  predicate Solid(s: string) { s != "" ==> !IsSpace(s[0]) && !IsSpace(s[|s| - 1]) }

  function TrimLeft(s: string): string {
    if s == "" || !IsSpace(s[0]) then s else TrimLeft(s[1..])
  }

  function TrimRight(s: string): string {
    if s == "" || !IsSpace(s[|s| - 1]) then s else TrimRight(s[..|s| - 1])
  }

  function Trim(s: string): string { TrimRight(TrimLeft(s)) }

  lemma {:induction false} LeftParts(s: string) returns (l: string)
    ensures s == l + TrimLeft(s) && AllSpace(l) && (TrimLeft(s) != "" ==> !IsSpace(TrimLeft(s)[0]))
  {
    hide IsSpace;
    if s == "" || !IsSpace(s[0]) {
      l := "";
    } else {
      var m := LeftParts(s[1..]);
      l := [s[0]] + m;
      assert TrimLeft(s) == TrimLeft(s[1..]);
      hide TrimLeft;
      assert s == [s[0]] + (m + TrimLeft(s)) == l + TrimLeft(s);
      assert forall k :: 0 <= k < |l| ==> l[k] == if k == 0 then s[0] else m[k - 1];
    }
  }

  lemma {:induction false} RightParts(s: string) returns (r: string)
    ensures s == TrimRight(s) + r && AllSpace(r) && (TrimRight(s) != "" ==> !IsSpace(TrimRight(s)[|TrimRight(s)| - 1]))
  {
    hide IsSpace;
    if s == "" || !IsSpace(s[|s| - 1]) {
      r := "";
    } else {
      var m := RightParts(s[..|s| - 1]);
      r := m + [s[|s| - 1]];
      assert TrimRight(s) == TrimRight(s[..|s| - 1]);
      hide TrimRight;
      assert s == (TrimRight(s) + m) + [s[|s| - 1]] == TrimRight(s) + r;
      assert forall k :: 0 <= k < |r| ==> r[k] == if k < |m| then m[k] else s[|s| - 1];
    }
  }

  /** Trim takes away the space at both ends, and nothing else. */
  lemma TrimParts(s: string) returns (l: string, r: string)
    ensures s == l + Trim(s) + r && AllSpace(l) && AllSpace(r) && Solid(Trim(s))
  {
    hide IsSpace, AllSpace, TrimLeft, TrimRight;
    l := LeftParts(s);
    var t := TrimLeft(s);
    r := RightParts(t);
    var c := TrimRight(t);
    assert l + (c + r) == l + c + r;
    if c != "" { assert c[0] == t[0]; }
  }

  lemma {:induction false} SkipLeft(l: string, x: string)
    requires AllSpace(l) && (x != "" ==> !IsSpace(x[0]))
    ensures TrimLeft(l + x) == x
  {
    hide IsSpace;
    if l == "" {
      assert l + x == x;
    } else {
      assert (l + x)[1..] == l[1..] + x && IsSpace(l[0]);
      SkipLeft(l[1..], x);
    }
  }

  lemma {:induction false} SkipRight(x: string, r: string)
    requires AllSpace(r) && (x != "" ==> !IsSpace(x[|x| - 1]))
    ensures TrimRight(x + r) == x
  {
    hide IsSpace;
    if r == "" {
      assert x + r == x;
    } else {
      assert (x + r)[..|x + r| - 1] == x + r[..|r| - 1] && IsSpace(r[|r| - 1]);
      SkipRight(x, r[..|r| - 1]);
    }
  }

  lemma TrimUnique(l: string, c: string, r: string)
    requires AllSpace(l) && AllSpace(r) && Solid(c)
    ensures Trim(l + c + r) == c
  {
    hide IsSpace, TrimLeft, TrimRight;
    if c == "" {
      SkipLeft(l + r, "");
      assert l + c + r == l + r + "";
      SkipRight("", "");
      assert "" + "" == "";
    } else {
      SkipLeft(l, c + r);
      assert l + c + r == l + (c + r);
      SkipRight(c, r);
    }
  }

  lemma Starts(s: string, l: string, c: string, r: string)
    requires s == l + c + r && AllSpace(l) && AllSpace(r) && s != "" && !IsSpace(s[0])
    ensures l == "" && c != "" && c[0] == s[0]
  {
    hide IsSpace;
    assert forall k :: 0 <= k < |l| ==> s[k] == l[k];
    assert forall k :: 0 <= k < |r| ==> s[|l + c| + k] == r[k];
  }

  // ----- Searching -----

  function Find(s: string, c: char): (i: nat)
    ensures i <= |s| && (forall k :: 0 <= k < i ==> s[k] != c) && (i < |s| ==> s[i] == c)
  {
    if s == "" || s[0] == c then 0 else 1 + Find(s[1..], c)
  }

  predicate CommentAt(s: string, k: int) { 0 <= k && k + 1 < |s| && s[k] == ' ' && s[k + 1] == '#' }

  /** Where " #" starts, or the length. */
  function FindComment(s: string): (i: nat)
    ensures i <= |s| && (i < |s| ==> CommentAt(s, i))
    ensures forall k :: 0 <= k < i ==> !CommentAt(s, k)
  {
    if s == "" || CommentAt(s, 0) then 0
    else
      var i := FindComment(s[1..]);
      assert forall k :: 1 <= k ==> CommentAt(s, k) == CommentAt(s[1..], k - 1);
      1 + i
  }

  predicate IsQuote(c: char) { c == '"' || c == '\'' }

  predicate Quoted(val: string) { val != "" && IsQuote(val[0]) }

  // ----- Reading -----

  const EXPORT := "export "

  function TrimExport(s: string): string { if EXPORT <= s then s[|EXPORT|..] else s }

  /** The value as written, without its quotes or its trailing comment. */
  function Unquote(val: string): string {
    if Quoted(val) then
      var end := Find(val[1..], val[0]);
      if end < |val| - 1 then val[1..end + 1] else val
    else
      var i := FindComment(val);
      if i < |val| then Trim(val[..i]) else val
  }

  datatype Line = Nothing | Malformed | Setting(key: string, value: string)

  function ParseLine(raw: string): Line {
    var s := Trim(raw);
    if s == "" || s[0] == '#' then Nothing
    else
      var t := TrimExport(s);
      var eq := Find(t, '=');
      if eq == |t| then Malformed else Setting(Trim(t[..eq]), Unquote(Trim(t[eq + 1..])))
  }

  function ParseFrom(m: map<string, string>, lines: seq<string>): Option<map<string, string>>
    decreases |lines|
  {
    if lines == [] then Some(m)
    else
      match ParseLine(lines[0])
      case Nothing => ParseFrom(m, lines[1..])
      case Malformed => None
      case Setting(k, v) => ParseFrom(m[k := v], lines[1..])
  }

  function Parse(text: string): Option<map<string, string>> { ParseFrom(map[], Text.Split(text, '\n')) }

  method ParseDotEnv(text: string) returns (settings: Option<map<string, string>>)
    ensures settings == Parse(text)
  {
    hide ParseLine, Text.Split;
    var lines := Text.Split(text, '\n');
    var out: map<string, string> := map[];
    for i := 0 to |lines|
      invariant ParseFrom(out, lines[i..]) == Parse(text)
    {
      assert lines[i..][1..] == lines[i + 1..];
      match ParseLine(lines[i])
      case Nothing =>
      case Malformed => return None;
      case Setting(k, v) => out := out[k := v];
    }
    return Some(out);
  }

  lemma {:induction false} ParseConcat(m: map<string, string>, a: seq<string>, b: seq<string>)
    ensures ParseFrom(m, a + b) == match ParseFrom(m, a) case None => None case Some(n) => ParseFrom(n, b)
    decreases |a|
  {
    hide ParseLine;
    if a == [] {
      assert a + b == b;
    } else {
      assert (a + b)[1..] == a[1..] + b;
      match ParseLine(a[0])
      case Nothing => ParseConcat(m, a[1..], b);
      case Malformed =>
      case Setting(k, v) => ParseConcat(m[k := v], a[1..], b);
    }
  }

  // ----- Editing one line -----

  /** The key a line would set, comments not yet skipped. */
  function KeyOf(raw: string): Option<string> {
    var t := TrimExport(Trim(raw));
    var eq := Find(t, '=');
    if eq == |t| then None else Some(Trim(t[..eq]))
  }

  /** The run of spaces and tabs in front. */
  function Indent(s: string): (n: nat)
    ensures n <= |s| && AllSpace(s[..n])
  {
    if s == "" || (s[0] != ' ' && s[0] != '\t') then 0 else 1 + Indent(s[1..])
  }

  /** What follows the old value: the text after its closing quote, or its comment. */
  function Suffix(value: string): string {
    var val := Trim(value);
    if Quoted(val) then
      var end := Find(val[1..], val[0]);
      if end < |val| - 1 then val[end + 2..] else ""
    else value[FindComment(value)..]
  }

  /** The new value in the style of the old one. */
  function Styled(value: string, v: string): string {
    var val := Trim(value);
    if Quoted(val) && val[0] !in v then [val[0]] + v + [val[0]] else v
  }

  function NewTail(value: string, v: string): string { value[..Indent(value)] + Styled(value, v) + Suffix(value) }

  function UpdateLine(raw: string, settings: map<string, string>): string {
    var key := KeyOf(raw);
    if key.None? || key.value !in settings then raw
    else
      var eq := Find(raw, '=');
      if eq == |raw| then raw else raw[..eq + 1] + NewTail(raw[eq + 1..], settings[key.value])
  }

  // ----- A line with an equals sign -----

  predicate Front(l: string, p: string, k: string) {
    && AllSpace(l) && '=' !in k
    && (p == EXPORT || (p == "" && !(EXPORT <= k)))
    && !IsSpace((p + k + "=")[0])
  }

  predicate Shaped(raw: string, l: string, p: string, k: string, tail: string) {
    Front(l, p, k) && raw == l + p + k + "=" + tail
  }

  lemma HasShape(raw: string) returns (l: string, p: string, k: string, tail: string)
    requires KeyOf(raw).Some?
    ensures Shaped(raw, l, p, k, tail)
  {
    hide IsSpace, Trim;
    var r;
    l, r := TrimParts(raw);
    var s := Trim(raw);
    var t := TrimExport(s);
    p := if EXPORT <= s then EXPORT else "";
    var eq := Find(t, '=');
    k, tail := t[..eq], t[eq + 1..] + r;
    assert t == k + "=" + t[eq + 1..] && '=' !in k;
    assert s == p + t;
    Uncut(s, t, p, k, t[eq + 1..]);
    Regroup(l, s, r, p, k, t[eq + 1..]);
  }

  lemma Regroup(l: string, s: string, r: string, p: string, k: string, c: string)
    requires s == p + k + "=" + c
    ensures l + s + r == l + p + k + "=" + (c + r)
  {
  }

  lemma Uncut(s: string, t: string, p: string, k: string, c: string)
    requires s == p + t && t == k + "=" + c && Solid(s)
    requires p == EXPORT || (p == "" && !(EXPORT <= s))
    ensures s == p + k + "=" + c && !IsSpace((p + k + "=")[0])
    ensures p == "" ==> !(EXPORT <= k)
  {
    assert s[0] == (p + k + "=")[0];
    assert p == "" && EXPORT <= k ==> EXPORT <= s by { assert k == t[..|k|]; }
  }

  lemma FrontOf(p: string, k: string, c: string)
    ensures p + (k + "=" + c) == p + k + "=" + c && (p + k + "=")[0] == (p + k + "=" + c)[0]
    ensures k <= k + "=" + c
  {
  }

  lemma ShapedReads(raw: string, l: string, p: string, k: string, tail: string)
    requires Shaped(raw, l, p, k, tail)
    ensures KeyOf(raw) == Some(Trim(k))
    ensures ParseLine(raw) == if (p + k + "=")[0] == '#' then Nothing else Setting(Trim(k), Unquote(Trim(tail)))
  {
    hide IsSpace, Trim, Unquote, Find, TrimRight;
    var r := RightParts(tail);
    var c := TrimRight(tail);
    var t := k + "=" + c;
    var s := p + t;
    assert tail == c + r && raw == l + s + r;
    FrontOf(p, k, c);
    assert Solid(s) by { LastOf(p + k, c); }
    TrimUnique(l, s, r);
    NoExport(p, k, c);
    FirstEquals(k, c);
    TrimTail(c, r);
  }

  lemma ShapedSplits(raw: string, l: string, p: string, k: string, tail: string)
    requires Shaped(raw, l, p, k, tail)
    ensures var eq := Find(raw, '=');
      eq < |raw| && raw[..eq + 1] == l + p + k + "=" && raw[eq + 1..] == tail
  {
    hide Find;
    assert '=' !in l + p + k by {
      assert !IsSpace('=');
      assert '=' !in EXPORT;
    }
    FirstEquals(l + p + k, tail);
  }

  lemma LastOf(a: string, c: string)
    requires c != "" ==> !IsSpace(c[|c| - 1])
    ensures var s := a + "=" + c; !IsSpace(s[|s| - 1])
  {
  }

  lemma NoExport(p: string, k: string, c: string)
    requires p == EXPORT || (p == "" && !(EXPORT <= k))
    ensures TrimExport(p + (k + "=" + c)) == k + "=" + c
  {
    var t := k + "=" + c;
    assert p == "" && EXPORT <= t ==> |EXPORT| <= |k| by { assert t[|k|] == '='; assert '=' !in EXPORT; }
    assert k == t[..|k|];
  }

  lemma FirstEquals(k: string, c: string)
    requires '=' !in k
    ensures Find(k + "=" + c, '=') == |k| && (k + "=" + c)[..|k|] == k && (k + "=" + c)[|k| + 1..] == c
  {
    var s := k + "=" + c;
    assert s[|k|] == '=';
    assert forall i :: 0 <= i < |k| ==> s[i] == k[i];
    assert forall i :: 0 <= i < Find(s, '=') ==> s[i] == s[..Find(s, '=')][i];
  }

  lemma TrimTail(c: string, r: string)
    requires AllSpace(r)
    ensures Trim(c + r) == Trim(c)
  {
    var x, y := TrimParts(c);
    assert c + r == x + Trim(c) + (y + r);
    TrimUnique(x, Trim(c), y + r);
  }

  // ----- Reading back what was written -----

  /** A value with no quotes, line breaks, " #" or outer space. */
  predicate Plain(v: string) {
    && '"' !in v && '\'' !in v && '\n' !in v
    && Solid(v)
    && forall k :: 0 <= k < |v| ==> !CommentAt(v, k)
  }

  predicate ValidKey(k: string) {
    k != "" && Solid(k) && '=' !in k && '\n' !in k && k[0] != '#' && !(EXPORT <= k)
  }

  /** The old value stands bare in front of a comment. */
  predicate Commented(value: string) {
    !Quoted(Trim(value)) && FindComment(value) < |value|
  }

  lemma PlainUnquotes(v: string)
    requires Plain(v)
    ensures Trim(v) == v && Unquote(v) == v
  {
    hide IsSpace, Trim;
    TrimUnique("", v, "");
    assert "" + v + "" == v;
  }

  lemma QuotedUnquotes(q: char, v: string, c: string)
    requires IsQuote(q) && q !in v
    ensures Unquote([q] + v + [q] + c) == v
  {
    hide Trim;
    var s := [q] + v + [q] + c;
    var i := Find(s[1..], q);
    assert s[1..][|v|] == q;
    assert forall k :: 0 <= k < |v| ==> s[1..][k] == v[k];
    assert forall k :: 0 <= k < i ==> s[1..][k] == s[1..][..i][k];
    assert s[1..|v| + 1] == v;
  }

  lemma CommentUnquotes(v: string, c: string)
    requires Plain(v) && v != "" && CommentAt(c, 0)
    ensures Unquote(v + c) == v
  {
    hide Trim;
    var s := v + c;
    assert CommentAt(s, |v|);
    forall k | 0 <= k < |v|
      ensures !CommentAt(s, k)
    {
      assert s[k] == v[k] && !CommentAt(v, k);
      assert k + 1 < |v| ==> s[k + 1] == v[k + 1];
      assert !IsSpace(v[|v| - 1]);
    }
    assert FindComment(s) == |v| && s[..|v|] == v && s[0] == v[0];
    PlainUnquotes(v);
  }

  lemma HashUnquotes(s: string)
    requires s != "" && s[0] == '#'
    ensures Unquote(s) != ""
  {
    hide Trim;
    var i := FindComment(s);
    if i < |s| {
      assert CommentAt(s, i);
      var l, r := TrimParts(s[..i]);
      Starts(s[..i], l, Trim(s[..i]), r);
    }
  }

  /** Space around the new value does not matter, nor does the end of a comment. */
  lemma TailTrims(value: string, mid: string) returns (c: string)
    requires mid != "" && Solid(mid)
    ensures Trim(value[..Indent(value)] + mid + Suffix(value)) == mid + c
    ensures c <= Suffix(value) && (CommentAt(Suffix(value), 0) ==> CommentAt(c, 0)) && (Suffix(value) == "" ==> c == "")
  {
    hide IsSpace, Trim, Suffix, TrimRight, Indent;
    var suffix := Suffix(value);
    var r := RightParts(suffix);
    c := TrimRight(suffix);
    assert value[..Indent(value)] + mid + suffix == value[..Indent(value)] + (mid + c) + r;
    assert Solid(mid + c);
    TrimUnique(value[..Indent(value)], mid + c, r);
    if CommentAt(suffix, 0) { HashIsNoSpace(c, r); }
  }

  lemma HashIsNoSpace(c: string, r: string)
    requires CommentAt(c + r, 0) && AllSpace(r)
    ensures CommentAt(c, 0)
  {
    assert |c| < 2 ==> r[1 - |c|] == '#' && IsSpace('#');
  }

  lemma SuffixStarts(value: string)
    requires !Quoted(Trim(value))
    ensures if Commented(value) then CommentAt(Suffix(value), 0) else Suffix(value) == ""
  {
    hide Trim;
  }

  /** The new value is read back, but for an empty one in front of a comment: there the comment
      is taken for the value. */
  lemma NewTailReads(value: string, v: string)
    requires Plain(v)
    ensures Unquote(Trim(NewTail(value, v))) == v <==> !(v == "" && Commented(value))
  {
    hide IsSpace, Trim, Unquote, Suffix, Indent, CommentAt, Plain;
    var val := Trim(value);
    if Quoted(val) {
      assert val[0] !in v by { NoQuotes(v, val[0]); }
      var mid := [val[0]] + v + [val[0]];
      assert Solid(mid) by { QuoteIsNoSpace(val[0]); }
      var c := TailTrims(value, mid);
      QuotedUnquotes(val[0], v, c);
    } else {
      SuffixStarts(value);
      if v != "" {
        assert Solid(v) by { PlainIsSolid(v); }
        var c := TailTrims(value, v);
        if Commented(value) {
          CommentUnquotes(v, c);
        } else {
          assert v + c == v;
          PlainUnquotes(v);
        }
      } else if Commented(value) {
        CommentTaken(value);
      } else {
        var spaces := value[..Indent(value)];
        TrimUnique(spaces, "", "");
        assert NewTail(value, v) == spaces + "" + "";
        PlainUnquotes("") by { PlainIsEmpty(); }
      }
    }
  }

  lemma NoQuotes(v: string, q: char)
    requires Plain(v) && IsQuote(q)
    ensures q !in v
  {
  }

  lemma QuoteIsNoSpace(q: char)
    requires IsQuote(q)
    ensures !IsSpace(q)
  {
  }

  lemma PlainIsSolid(v: string)
    requires Plain(v)
    ensures Solid(v)
  {
  }

  lemma PlainIsEmpty()
    ensures Plain("")
  {
  }

  lemma CommentTaken(value: string)
    requires Commented(value)
    ensures Unquote(Trim(NewTail(value, ""))) != ""
  {
    hide Trim, Unquote, Indent;
    var suffix := Suffix(value);
    assert suffix[0] == ' ' && suffix[1] == '#';
    var r := RightParts(suffix[1..]);
    var c := TrimRight(suffix[1..]);
    Starts(suffix[1..], "", c, r);
    var l := value[..Indent(value)] + " ";
    assert NewTail(value, "") == l + c + r;
    TrimUnique(l, c, r);
    HashUnquotes(c);
  }

  /** A line setting one of these keys then sets it to the new value, if it is not an empty value
      in front of a comment; any other line stays as it is. */
  lemma UpdatedLineReads(raw: string, settings: map<string, string>)
    requires forall k :: k in settings ==> ValidKey(k) && Plain(settings[k])
    ensures var key := KeyOf(raw);
      if key.None? || key.value !in settings then UpdateLine(raw, settings) == raw
      else
        exists was, now ::
          && ParseLine(raw) == Setting(key.value, was)
          && ParseLine(UpdateLine(raw, settings)) == Setting(key.value, now)
          && (now == settings[key.value] <==> !(settings[key.value] == "" && LineCommented(raw)))
  {
    hide IsSpace, Trim, Unquote, NewTail, Find, Front, ParseLine;
    var key := KeyOf(raw);
    if key.Some? && key.value in settings {
      var l, p, k, tail := HasShape(raw);
      var v := settings[key.value];
      ShapedSplits(raw, l, p, k, tail);
      ShapedReads(raw, l, p, k, tail);
      var now := NewTail(tail, v);
      assert UpdateLine(raw, settings) == l + p + k + "=" + now;
      ShapedReads(UpdateLine(raw, settings), l, p, k, now);
      NewTailReads(tail, v);
      KeyIsNoComment(l, p, k);
    }
  }

  predicate LineCommented(raw: string) {
    var eq := Find(raw, '=');
    eq < |raw| && Commented(raw[eq + 1..])
  }

  lemma KeyIsNoComment(l: string, p: string, k: string)
    requires ValidKey(Trim(k)) && Front(l, p, k)
    ensures (p + k + "=")[0] != '#'
  {
    hide IsSpace, Trim;
    if p == "" {
      var x, y := TrimParts(k);
      assert k != "" && (p + k + "=")[0] == k[0];
      Starts(k, x, Trim(k), y);
    }
  }

  // ----- Editing the lines -----

  function UpdateLines(lines: seq<string>, settings: map<string, string>): (r: seq<string>)
    ensures |r| == |lines| && forall i :: 0 <= i < |lines| ==> r[i] == UpdateLine(lines[i], settings)
  {
    seq(|lines|, i requires 0 <= i < |lines| => UpdateLine(lines[i], settings))
  }

  /** What may be written: keys that read back as keys, and plain values. */
  predicate Writable(settings: map<string, string>) {
    forall k :: k in settings ==> ValidKey(k) && Plain(settings[k])
  }

  predicate Sets(raw: string, key: string) { KeyOf(raw) == Some(key) }

  predicate Mentions(lines: seq<string>, key: string) { exists i :: 0 <= i < |lines| && Sets(lines[i], key) }

  /** The last line of this key has its value bare in front of a comment. */
  predicate LastCommented(lines: seq<string>, key: string) {
    lines != [] &&
      if Sets(lines[|lines| - 1], key) then LineCommented(lines[|lines| - 1]) else LastCommented(lines[..|lines| - 1], key)
  }

  /** An empty value is lost in front of a comment, when no later line sets the key again. */
  predicate Lost(lines: seq<string>, settings: map<string, string>, key: string)
    requires key in settings
  {
    settings[key] == "" && LastCommented(lines, key)
  }

  /** n is m after the edit of these lines, but for the keys nobody mentions. */
  ghost predicate Edited(lines: seq<string>, settings: map<string, string>, m: map<string, string>, n: map<string, string>) {
    && n.Keys == m.Keys
    && (forall k :: k in settings ==> (k in m <==> Mentions(lines, k)))
    && (forall k :: k in m && k !in settings ==> n[k] == m[k])
    && (forall k :: k in m && k in settings ==> (n[k] == settings[k] <==> !Lost(lines, settings, k)))
  }

  lemma LineSets(raw: string)
    ensures ParseLine(raw).Setting? ==> KeyOf(raw) == Some(ParseLine(raw).key)
  {
    hide Trim, Unquote;
  }

  lemma ParseLast(lines: seq<string>, last: string)
    ensures ParseFrom(map[], lines + [last]) ==
      match ParseFrom(map[], lines)
      case None => None
      case Some(m) =>
        match ParseLine(last)
        case Nothing => Some(m)
        case Malformed => None
        case Setting(k, v) => Some(m[k := v])
  {
    hide ParseLine;
    ParseConcat(map[], lines, [last]);
    assert [last][1..] == [];
  }

  lemma {:induction false} LinesEdited(lines: seq<string>, settings: map<string, string>)
    requires Writable(settings)
    ensures var was, now := ParseFrom(map[], lines), ParseFrom(map[], UpdateLines(lines, settings));
      (was.None? <==> now.None?) && (was.Some? ==> Edited(lines, settings, was.value, now.value))
  {
    hide ParseLine, ParseFrom, UpdateLine, KeyOf, LineCommented, Writable;
    if lines == [] {
      NothingRead();
    } else {
      var front, last := lines[..|lines| - 1], lines[|lines| - 1];
      LinesEdited(front, settings);
      assert lines == front + [last];
      assert UpdateLines(lines, settings) == UpdateLines(front, settings) + [UpdateLine(last, settings)];
      ParseLast(front, last);
      ParseLast(UpdateLines(front, settings), UpdateLine(last, settings));
      if ParseFrom(map[], front).Some? {
        OneMoreEdited(front, last, settings, ParseFrom(map[], front).value, ParseFrom(map[], UpdateLines(front, settings)).value);
      }
    }
  }

  lemma NothingRead()
    ensures ParseFrom(map[], []) == Some(map[])
  {
  }

  function Read(m: map<string, string>, line: Line): Option<map<string, string>> {
    match line
    case Nothing => Some(m)
    case Malformed => None
    case Setting(k, v) => Some(m[k := v])
  }

  lemma OneMoreEdited(front: seq<string>, last: string, settings: map<string, string>, m: map<string, string>, n: map<string, string>)
    requires Writable(settings) && Edited(front, settings, m, n)
    ensures var was, now := Read(m, ParseLine(last)), Read(n, ParseLine(UpdateLine(last, settings)));
      (was.None? <==> now.None?) && (was.Some? ==> Edited(front + [last], settings, was.value, now.value))
  {
    hide ParseLine, UpdateLine, KeyOf, LineCommented, ValidKey, Plain, Mentions, LastCommented;
    UpdatedLineReads(last, settings);
    LineSets(last);
    forall k
      ensures Mentions(front + [last], k) <==> Mentions(front, k) || Sets(last, k)
      ensures LastCommented(front + [last], k) <==> if Sets(last, k) then LineCommented(last) else LastCommented(front, k)
    {
      MentionsMore(front, last, k);
      LastMore(front, last, k);
    }
  }

  lemma LastMore(front: seq<string>, last: string, k: string)
    ensures LastCommented(front + [last], k) <==> if Sets(last, k) then LineCommented(last) else LastCommented(front, k)
  {
    hide Sets, LineCommented;
    assert (front + [last])[..|front|] == front;
  }

  lemma MentionsMore(front: seq<string>, last: string, k: string)
    ensures Mentions(front + [last], k) <==> Mentions(front, k) || Sets(last, k)
  {
    hide Sets;
    assert (front + [last])[|front|] == last;
    assert forall i :: 0 <= i < |front| ==> (front + [last])[i] == front[i];
  }

  // ----- Editing the text -----

  const BREAK := "\n"
  /** In two parts: as one literal it is longer than the verifier reads a literal to. */
  const HEADER := "# Run sql-auditor env init " + "for the annotated template."

  predicate Terminated(text: string) { text != "" ==> text[|text| - 1] == '\n' }

  /** The text with a line break at its end. */
  function Terminate(text: string): (r: string)
    ensures Terminated(r)
  {
    if Terminated(text) then text else text + BREAK
  }

  lemma OneLine(line: string)
    requires '\n' !in line
    ensures Text.Split(line, '\n') == [line]
  {
    Text.JoinThenSplit([line], '\n');
  }

  lemma BlankLast(lines: seq<string>)
    ensures ParseFrom(map[], lines + [""]) == ParseFrom(map[], lines)
  {
    ParseLast(lines, "");
  }

  lemma TerminateReads(text: string)
    ensures Parse(Terminate(text)) == Parse(text)
  {
    hide ParseFrom, Text.Split;
    if !Terminated(text) {
      Text.SplitConcat(text, "", '\n');
      assert text + ['\n'] + "" == text + BREAK;
      OneLine("");
      BlankLast(Text.Split(text, '\n'));
    }
  }

  lemma AppendReads(text: string, line: string)
    requires Terminated(text) && '\n' !in line
    ensures Parse(text + line + BREAK) == if Parse(text).None? then None else Read(Parse(text).value, ParseLine(line))
  {
    hide ParseFrom, ParseLine, Text.Split;
    OneLine(line);
    OneLine("");
    Text.SplitConcat(line, "", '\n');
    assert line + ['\n'] + "" == line + BREAK;
    BlankLast([line]);
    if text == "" {
      assert text + line + BREAK == line + BREAK;
      BlankLast([]);
      ParseLast([], line);
      assert [] + [line] == [line] && [] + [""] == [""];
      NothingRead();
    } else {
      var t := text[..|text| - 1];
      var lines := Text.Split(t, '\n');
      Text.SplitConcat(t, "", '\n');
      assert t + ['\n'] + "" == text;
      BlankLast(lines);
      Text.SplitConcat(t, line + BREAK, '\n');
      assert t + ['\n'] + (line + BREAK) == text + line + BREAK;
      assert lines + ([line] + [""]) == (lines + [line]) + [""];
      BlankLast(lines + [line]);
      ParseLast(lines, line);
    }
  }

  lemma HeaderReads(text: string)
    ensures Parse(HEADER + BREAK + text) == Parse(text)
  {
    hide ParseFrom, ParseLine, Text.Split;
    Text.SplitConcat(HEADER, text, '\n');
    HeaderIsComment();
    OneLine(HEADER);
    ParseConcat(map[], [HEADER], Text.Split(text, '\n'));
    ParseLast([], HEADER);
    assert [] + [HEADER] == [HEADER];
    NothingRead();
  }

  lemma HeaderIsComment()
    ensures ParseLine(HEADER) == Nothing && '\n' !in HEADER
  {
    hide Trim, IsSpace;
    var l, r := TrimParts(HEADER);
    assert HEADER[0] == '#' && !IsSpace('#') by { HashNoSpace(); }
    Starts(HEADER, l, Trim(HEADER), r);
  }

  lemma HashNoSpace()
    ensures !IsSpace('#')
  {
  }

  lemma NewLineReads(k: string, v: string)
    requires ValidKey(k) && Plain(v)
    ensures ParseLine(k + "=" + v) == Setting(k, v) && '\n' !in k + "=" + v
  {
    hide Trim, Unquote;
    PlainUnquotes(v);
    KeyShape(k, v);
    ShapedReads(k + "=" + v, "", "", k, v);
  }

  lemma NoBreaks(raw: string, settings: map<string, string>)
    requires Writable(settings) && '\n' !in raw
    ensures '\n' !in UpdateLine(raw, settings)
  {
    hide KeyOf, IsSpace, ValidKey, NewTail;
    var eq := Find(raw, '=');
    var key := KeyOf(raw);
    if key.Some? && key.value in settings && eq < |raw| {
      assert Plain(settings[key.value]);
      NoBreakInTail(raw[eq + 1..], settings[key.value]);
    }
  }

  lemma NoBreakInTail(value: string, v: string)
    requires '\n' !in value && '\n' !in v
    ensures '\n' !in NewTail(value, v)
  {
    hide Trim, Indent;
    var l, r := TrimParts(value);
    var val := Trim(value);
    assert forall k :: 0 <= k < |val| ==> val[k] == value[|l| + k];
    assert '\n' !in val;
    assert '\n' !in Suffix(value);
    assert '\n' !in Styled(value, v);
  }

  function Appended(keys: seq<string>, settings: map<string, string>): string
    requires forall k :: k in keys ==> k in settings
  {
    if keys == [] then "" else Appended(keys[..|keys| - 1], settings) + keys[|keys| - 1] + "=" + settings[keys[|keys| - 1]] + BREAK
  }

  /** The lines of the given keys are rewritten in place, and the keys found are noted. */
  method RewriteLines(lines: array<string>, settings: map<string, string>) returns (found: map<string, bool>)
    modifies lines
    ensures lines[..] == UpdateLines(old(lines[..]), settings)
    ensures forall k :: k in found <==> k in settings && Mentions(old(lines[..]), k)
  {
    hide UpdateLine, Mentions, KeyOf;
    ghost var parts := lines[..];
    found := map[];
    MentionsNone();
    for i := 0 to lines.Length
      invariant forall j :: 0 <= j < i ==> lines[j] == UpdateLine(parts[j], settings)
      invariant forall j :: i <= j < |parts| ==> lines[j] == parts[j]
      invariant forall k :: k in found <==> k in settings && Mentions(parts[..i], k)
    {
      var key := KeyOf(lines[i]);
      MentionsEach(parts, i);
      if key.Some? && key.value in settings {
        lines[i] := UpdateLine(lines[i], settings);
        found := found[key.value := true];
      } else {
        Unwanted(parts[i], settings);
      }
    }
    assert parts[..|parts|] == parts;
  }

  lemma Unwanted(raw: string, settings: map<string, string>)
    requires KeyOf(raw).None? || KeyOf(raw).value !in settings
    ensures UpdateLine(raw, settings) == raw
  {
  }

  lemma MentionsNone()
    ensures forall k :: !Mentions([], k)
  {
  }

  method AppendSettings(body: string, keys: seq<string>, settings: map<string, string>) returns (result: string)
    requires forall k :: k in keys ==> k in settings
    ensures result == body + Appended(keys, settings)
  {
    result := body;
    for i := 0 to |keys|
      invariant result == body + Appended(keys[..i], settings)
    {
      result := result + keys[i] + "=" + settings[keys[i]] + BREAK;
      assert keys[..i + 1][..i] == keys[..i];
    }
    assert keys[..|keys|] == keys;
  }

  /** UpdateDotEnv: the lines of the given keys rewritten in place, the others kept as they are,
      and the keys nobody mentioned added at the end in order. Read back, the text holds the
      settings it held, overridden by the new ones, exactly when no new value is lost. */
  method UpdateDotEnv(text: string, missing: bool, settings: map<string, string>) returns (result: string, ghost added: seq<string>)
    requires Writable(settings) && (missing ==> text == "")
    ensures Text.Sorted(added)
    ensures forall k :: k in added <==> k in settings && !Mentions(Text.Split(text, '\n'), k)
    ensures result == (if missing then HEADER + BREAK else "")
      + Terminate(Text.Join(UpdateLines(Text.Split(text, '\n'), settings), '\n')) + Appended(added, settings)
    ensures Parse(text).None? <==> Parse(result).None?
    ensures Parse(text).Some? ==>
      (Parse(result).value == Parse(text).value + settings <==> forall k :: k in settings ==> !Lost(Text.Split(text, '\n'), settings, k))
  {
    hide UpdateLines, Mentions, LastCommented, Writable, Parse, Terminated, Terminate, Appended, Text.Join, Text.Split;
    var parts := Text.Split(text, '\n');
    var lines := new string[|parts|](i requires 0 <= i < |parts| => parts[i]);
    assert lines[..] == parts;
    var found := RewriteLines(lines, settings);
    var body := Terminate(Text.Join(lines[..], '\n'));
    var unwritten := Text.Sort(settings.Keys - found.Keys);
    result := AppendSettings(body, unwritten, settings);
    added := unwritten;
    UpdateReads(text, settings, body, added);
    if missing {
      HeaderReads(result);
      assert HEADER + BREAK + result == (HEADER + BREAK) + body + Appended(added, settings);
      result := HEADER + BREAK + result;
    } else {
      assert result == "" + body + Appended(added, settings);
    }
  }

  lemma MentionsEach(parts: seq<string>, i: nat)
    requires i < |parts|
    ensures forall k :: Mentions(parts[..i + 1], k) <==> Mentions(parts[..i], k) || KeyOf(parts[i]) == Some(k)
  {
    forall k
      ensures Mentions(parts[..i + 1], k) <==> Mentions(parts[..i], k) || Sets(parts[i], k)
    {
      assert parts[..i + 1] == parts[..i] + [parts[i]];
      MentionsMore(parts[..i], parts[i], k);
    }
  }

  function Chosen(keys: seq<string>, settings: map<string, string>): map<string, string>
    requires forall k :: k in keys ==> k in settings
  {
    map k | k in keys :: settings[k]
  }

  lemma ChosenMore(n: map<string, string>, front: seq<string>, k: string, settings: map<string, string>)
    requires k in settings && forall x :: x in front ==> x in settings
    ensures n + Chosen(front + [k], settings) == (n + Chosen(front, settings))[k := settings[k]]
  {
    assert forall x :: x in front + [k] <==> x in front || x == k;
  }

  /** The settings added at the end are read on top of the others. */
  lemma {:induction false} AppendedReads(body: string, added: seq<string>, settings: map<string, string>)
    requires Writable(settings) && Terminated(body)
    requires forall k :: k in added ==> k in settings
    ensures Terminated(body + Appended(added, settings))
    ensures Parse(body + Appended(added, settings)) ==
      if Parse(body).None? then None else Some(Parse(body).value + Chosen(added, settings))
  {
    hide Parse, ParseLine, ValidKey, Plain;
    if added == [] {
      assert body + "" == body;
      if Parse(body).Some? { assert Parse(body).value + Chosen([], settings) == Parse(body).value; }
    } else {
      var front, k := added[..|added| - 1], added[|added| - 1];
      AppendedReads(body, front, settings);
      var line := k + "=" + settings[k];
      var before := body + Appended(front, settings);
      assert body + Appended(added, settings) == before + line + BREAK;
      NewLineReads(k, settings[k]);
      AppendReads(before, line);
      assert added == front + [k];
      if Parse(body).Some? { ChosenMore(Parse(body).value, front, k, settings); }
    }
  }

  lemma Overridden(lines: seq<string>, settings: map<string, string>, m: map<string, string>, n: map<string, string>, added: seq<string>)
    requires Edited(lines, settings, m, n)
    requires forall k :: k in added <==> k in settings && !Mentions(lines, k)
    requires forall k :: k in settings && !Mentions(lines, k) ==> !Lost(lines, settings, k)
    ensures n + Chosen(added, settings) == m + settings <==> forall k :: k in settings ==> !Lost(lines, settings, k)
  {
    hide Mentions, Lost;
    var x, y := n + Chosen(added, settings), m + settings;
    assert x.Keys == y.Keys;
    assert forall k :: k in x && k !in settings ==> x[k] == y[k];
    assert forall k :: k in settings ==> (x[k] == y[k] <==> !Lost(lines, settings, k));
    if forall k :: k in settings ==> !Lost(lines, settings, k) { assert x == y; }
  }

  lemma {:induction false} NeverSet(lines: seq<string>, key: string)
    requires !Mentions(lines, key)
    ensures !LastCommented(lines, key)
  {
    hide Sets, LineCommented;
    if lines != [] {
      assert lines == lines[..|lines| - 1] + [lines[|lines| - 1]];
      MentionsMore(lines[..|lines| - 1], lines[|lines| - 1], key);
      NeverSet(lines[..|lines| - 1], key);
    }
  }

  lemma UpdateReads(text: string, settings: map<string, string>, body: string, added: seq<string>)
    requires Writable(settings)
    requires body == Terminate(Text.Join(UpdateLines(Text.Split(text, '\n'), settings), '\n'))
    requires forall k :: k in added <==> k in settings && !Mentions(Text.Split(text, '\n'), k)
    ensures Parse(text).None? <==> Parse(body + Appended(added, settings)).None?
    ensures Parse(text).Some? ==> (Parse(body + Appended(added, settings)).value == Parse(text).value + settings
      <==> forall k :: k in settings ==> !Lost(Text.Split(text, '\n'), settings, k))
  {
    hide ParseFrom, UpdateLine, Mentions, LastCommented, Writable, KeyOf, Text.Join, Text.Split, Terminated;
    var parts := Text.Split(text, '\n');
    var updated := UpdateLines(parts, settings);
    Text.SplitThenJoin(text, '\n');
    forall i | 0 <= i < |parts| ensures '\n' !in updated[i] { NoBreaks(parts[i], settings); }
    Text.JoinThenSplit(updated, '\n');
    TerminateReads(Text.Join(updated, '\n'));
    LinesEdited(parts, settings);
    AppendedReads(body, added, settings);
    if Parse(text).Some? {
      forall k | k in settings && !Mentions(parts, k) ensures !Lost(parts, settings, k) { NeverSet(parts, k); }
      Overridden(parts, settings, Parse(text).value, Parse(body).value, added);
    }
  }

  /** A setting emptied in front of a comment: the comment is read back as its value. */
  lemma EmptyValueTakesTheComment(key: string, v: string, c: string)
    requires ValidKey(key) && Plain(v) && v != "" && '\n' !in c
    ensures var text, settings := key + "=" + (v + " #" + c), map[key := ""];
      Parse(text).Some? && Writable(settings) && Lost(Text.Split(text, '\n'), settings, key)
  {
    hide Trim, Unquote, ValidKey;
    var value := v + " #" + c;
    var raw := key + "=" + value;
    CommentFound(v, c);
    KeyShape(key, value);
    ShapedReads(raw, "", "", key, value);
    ShapedSplits(raw, "", "", key, value);
    OneLine(raw);
    ParseLast([], raw);
    assert [] + [raw] == [raw] && [raw][..0] == [];
    NothingRead();
    PlainIsEmpty();
  }

  lemma KeyShape(key: string, value: string)
    requires ValidKey(key)
    ensures Shaped(key + "=" + value, "", "", key, value) && Trim(key) == key && ("" + key + "=")[0] != '#' && '\n' !in key
  {
    hide Trim, IsSpace;
    assert ("" + key + "=")[0] == key[0];
    assert "" + "" + key + "=" + value == key + "=" + value;
    TrimUnique("", key, "");
    assert "" + key + "" == key;
  }

  lemma CommentFound(v: string, c: string)
    requires Plain(v) && v != ""
    ensures Commented(v + " #" + c)
  {
    hide IsSpace, Trim;
    var value := v + " #" + c;
    assert CommentAt(value, |v|);
    var l, r := TrimParts(value);
    assert value[0] == v[0];
    Starts(value, l, Trim(value), r);
  }
}
