/**
 The six-state T-SQL scanner of collect/queryset.go and the rewriters built on it.

 A text is a `string` whose elements stand for the bytes the scanner walks. Everything
 the scanner compares with is an ASCII byte.
 */
module Scanner {

  /** The states classifySQL moves through. Block comments nest, so theirs counts. */
  datatype State = Code | LineComment | BlockComment(depth: nat) | Literal | BracketId | QuotedId

  /** The class given to every byte of a script. */
  datatype Class = ClsCode | ClsComment | ClsLiteral

  /** One step of the scan: it consumes `width` bytes, all of one class. */
  datatype Token = Token(next: State, width: nat, cls: Class)

  predicate Pair(s: string, a: char, b: char) {
    |s| > 1 && s[0] == a && s[1] == b
  }

  function Step(st: State, s: string): (t: Token)
    requires s != []
    ensures 1 <= t.width <= 2 && t.width <= |s|
    ensures t.width == 2 && t.cls == ClsLiteral ==> s[0] == s[1] == '\''
  {
    var c := s[0];
    match st
    case Code =>
      if Pair(s, '-', '-') then Token(LineComment, 2, ClsComment)
      else if Pair(s, '/', '*') then Token(BlockComment(1), 2, ClsComment)
      else if c == '\'' then Token(Literal, 1, ClsCode)
      else if c == '[' then Token(BracketId, 1, ClsCode)
      else if c == '"' then Token(QuotedId, 1, ClsCode)
      else Token(Code, 1, ClsCode)
    case BracketId =>
      if Pair(s, ']', ']') then Token(BracketId, 2, ClsCode)
      else Token(if c == ']' then Code else BracketId, 1, ClsCode)
    case QuotedId =>
      if Pair(s, '"', '"') then Token(QuotedId, 2, ClsCode)
      else Token(if c == '"' then Code else QuotedId, 1, ClsCode)
    case LineComment =>
      if LineBreak(c) then Token(Code, 1, ClsCode) else Token(LineComment, 1, ClsComment)
    case BlockComment(depth) =>
      if Pair(s, '/', '*') then Token(BlockComment(depth + 1), 2, ClsComment)
      else if Pair(s, '*', '/') then Token(if depth <= 1 then Code else BlockComment(depth - 1), 2, ClsComment)
      else Token(st, 1, ClsComment)
    case Literal =>
      if Pair(s, '\'', '\'') then Token(Literal, 2, ClsLiteral)
      else if c == '\'' then Token(Code, 1, ClsCode)
      else Token(Literal, 1, ClsLiteral)
  }

  function Run<T>(x: T, n: nat): (r: seq<T>)
    ensures |r| == n && forall i :: 0 <= i < n ==> r[i] == x
  {
    seq(n, _ => x)
  }

  /** The class of every byte of `s`, scanned from state `st`. */
  function Classify(st: State, s: string): (cls: seq<Class>)
    ensures |cls| == |s|
    decreases |s|
  {
    if s == [] then []
    else var t := Step(st, s); Run(t.cls, t.width) + Classify(t.next, s[t.width..])
  }

  /** The state every byte of `s` is read in, which tells a quoted identifier from code. */
  function Trace(st: State, s: string): (states: seq<State>)
    ensures |states| == |s|
    decreases |s|
  {
    if s == [] then []
    else var t := Step(st, s); Run(st, t.width) + Trace(t.next, s[t.width..])
  }

  predicate LineBreak(c: char) { c == '\n' || c == '\r' }

  /** What a rewriter writes over a byte it removes. */
  function Blank(c: char): char { if LineBreak(c) then c else ' ' }

  /** A byte that can change the scanner's state. */
  predicate Structural(c: char) {
    c in {'-', '/', '*', '\'', '[', ']', '"', '\n', '\r'}
  }

  // ----- Rescanning an edited text -----

  /** A text edited at one byte without the scanner being able to tell. With `dropped`,
      every comment byte has become a space or a line break. */
  predicate Unnoticed(cls: Class, c: char, d: char, dropped: bool) {
    if cls == ClsComment && dropped then d == ' ' || (LineBreak(d) && c == d)
    else d == c || (!Structural(d) && (cls == ClsLiteral || !Structural(c)))
  }

  /** The pairs of quotes inside a literal are kept or removed as pairs. */
  predicate PairsKept(cls: seq<Class>, s: string, t: string)
    requires |cls| == |s| == |t|
  {
    forall i :: 0 <= i < |s| - 1 && cls[i] == cls[i + 1] == ClsLiteral && s[i] == s[i + 1] == '\'' ==>
      (t[i] == '\'' <==> t[i + 1] == '\'')
  }

  predicate EditedUnnoticed(cls: seq<Class>, s: string, t: string, dropped: bool) {
    && |cls| == |s| == |t|
    && (forall i :: 0 <= i < |s| ==> Unnoticed(cls[i], s[i], t[i], dropped))
    && PairsKept(cls, s, t)
  }

  function EraseClass(c: Class, dropped: bool): Class {
    if dropped && c == ClsComment then ClsCode else c
  }

  /** The classes after the comments became code. */
  function Erase(cls: seq<Class>, dropped: bool): (r: seq<Class>)
    ensures |r| == |cls|
  {
    seq(|cls|, i requires 0 <= i < |cls| => EraseClass(cls[i], dropped))
  }

  function EraseState(st: State, dropped: bool): State {
    if dropped && (st.LineComment? || st.BlockComment?) then Code else st
  }

  lemma EraseConcat(a: seq<Class>, b: seq<Class>, dropped: bool)
    ensures Erase(a + b, dropped) == Erase(a, dropped) + Erase(b, dropped)
  {}

  /** A scan of non-empty text is its first step and the scan of the rest. */
  lemma ClassifyStep(st: State, s: string)
    requires s != []
    ensures var t := Step(st, s);
      && Classify(st, s)[..t.width] == Run(t.cls, t.width)
      && Classify(st, s)[t.width..] == Classify(t.next, s[t.width..])
  {}

  /** One step over the original text is one or two steps over the edited text, to the
      same state and with the same classes. */
  lemma RescanStep(st: State, s: string, t: string, dropped: bool)
    requires s != [] && |t| == |s|
    requires var tok := Step(st, s);
      && Unnoticed(tok.cls, s[0], t[0], dropped)
      && (tok.width == 2 ==> Unnoticed(tok.cls, s[1], t[1], dropped))
      && (tok.width == 2 && tok.cls == ClsLiteral ==> (t[0] == '\'' <==> t[1] == '\''))
    requires |s| > 1 && Structural(t[1]) ==> t[1] == s[1]
    ensures var tok, first := Step(st, s), Step(EraseState(st, dropped), t);
      && first.cls == EraseClass(tok.cls, dropped)
      && (first.width == tok.width ==> first.next == EraseState(tok.next, dropped))
      && (first.width != tok.width ==>
            && first.width == 1 && tok.width == 2
            && Step(first.next, t[1..]) == Token(EraseState(tok.next, dropped), 1, first.cls))
  {
    var est := EraseState(st, dropped);
    if st == Literal || est != st || (dropped && st == Code) {
    } else {
      assert EraseState(Step(st, s).next, dropped) == Step(st, s).next;
    }
  }

  lemma RescanHead(st: State, s: string, t: string, dropped: bool)
    requires s != [] && EditedUnnoticed(Classify(st, s), s, t, dropped)
    ensures var tok := Step(st, s);
      Classify(EraseState(st, dropped), t)
      == Run(EraseClass(tok.cls, dropped), tok.width) + Classify(EraseState(tok.next, dropped), t[tok.width..])
  {
    hide Step;
    var cls, tok, est := Classify(st, s), Step(st, s), EraseState(st, dropped);
    ClassifyStep(st, s);
    assert cls[0] == cls[..tok.width][0] && cls[tok.width - 1] == cls[..tok.width][tok.width - 1];
    if |s| > 1 { assert Unnoticed(cls[1], s[1], t[1], dropped); }
    RescanStep(st, s, t, dropped);
    ClassifyStep(est, t);
    var first := Step(est, t);
    if first.width != tok.width {
      ClassifyStep(first.next, t[1..]);
      assert t[1..][1..] == t[2..];
    }
  }

  /** The simulation: rescanning a text edited without notice gives the first scan's
      classes, with the dropped comments as code. */
  lemma {:induction false} Rescan(st: State, s: string, t: string, dropped: bool)
    requires EditedUnnoticed(Classify(st, s), s, t, dropped)
    ensures Classify(EraseState(st, dropped), t) == Erase(Classify(st, s), dropped)
    decreases |s|
  {
    hide Step;
    if s == [] { return; }
    var cls, tok := Classify(st, s), Step(st, s);
    var w := tok.width;
    ClassifyStep(st, s);
    assert cls == cls[..w] + cls[w..];
    EraseConcat(cls[..w], cls[w..], dropped);
    RescanHead(st, s, t, dropped);
    RescanRest(cls, s, t, dropped, w);
    Rescan(tok.next, s[w..], t[w..], dropped);
    assert Erase(cls[..w], dropped) == Run(EraseClass(tok.cls, dropped), w);
  }

  lemma RescanRest(cls: seq<Class>, s: string, t: string, dropped: bool, w: nat)
    requires EditedUnnoticed(cls, s, t, dropped) && w <= |s|
    ensures EditedUnnoticed(cls[w..], s[w..], t[w..], dropped)
  {
    forall i | 0 <= i < |s| - w
      ensures Unnoticed(cls[w..][i], s[w..][i], t[w..][i], dropped)
    {
      assert Unnoticed(cls[w + i], s[w + i], t[w + i], dropped);
    }
  }

  // ----- The two rewriters -----

  function RewriteByte(cls: Class, c: char, dropComments: bool, blankLiterals: bool): char {
    if (cls == ClsComment && dropComments) || (cls == ClsLiteral && blankLiterals) then Blank(c) else c
  }

  function Rewrite(s: string, dropComments: bool, blankLiterals: bool): (r: string)
    ensures |r| == |s|
  {
    var cls := Classify(Code, s);
    seq(|s|, i requires 0 <= i < |s| => RewriteByte(cls[i], s[i], dropComments, blankLiterals))
  }

  function Strip(s: string): (r: string)
    ensures |r| == |s|
  {
    Rewrite(s, true, false)
  }

  function BlankLiterals(s: string): (r: string)
    ensures |r| == |s|
  {
    Rewrite(s, false, true)
  }

  /** Rescanning rewritten text gives the original classes, the dropped comments as code. */
  lemma RewriteKeepsClasses(s: string, dropComments: bool, blankLiterals: bool)
    ensures Classify(Code, Rewrite(s, dropComments, blankLiterals)) == Erase(Classify(Code, s), dropComments)
  {
    Rescan(Code, s, Rewrite(s, dropComments, blankLiterals), dropComments);
  }

  /** Two rewrites are the one that does what either does: stripping and blanking are
      idempotent, commute, and together equal the single combined pass. */
  lemma RewriteTwice(s: string, d1: bool, b1: bool, d2: bool, b2: bool)
    ensures Rewrite(Rewrite(s, d1, b1), d2, b2) == Rewrite(s, d1 || d2, b1 || b2)
  {
    RewriteKeepsClasses(s, d1, b1);
  }

  lemma StripAndBlankCommute(s: string)
    ensures Strip(BlankLiterals(s)) == BlankLiterals(Strip(s)) == Rewrite(s, true, true)
    ensures Strip(Strip(s)) == Strip(s) && BlankLiterals(BlankLiterals(s)) == BlankLiterals(s)
  {
    RewriteTwice(s, false, true, true, false);
    RewriteTwice(s, true, false, false, true);
    RewriteTwice(s, true, false, true, false);
    RewriteTwice(s, false, true, false, true);
  }

  /** Stripped text holds no comment and is its own stripping; blanked text holds nothing
      but spaces and line breaks in its literals. */
  lemma RewriteLeavesNothing(s: string)
    ensures forall i :: 0 <= i < |s| ==> Classify(Code, Strip(s))[i] != ClsComment
    ensures forall i :: 0 <= i < |s| && Classify(Code, BlankLiterals(s))[i] == ClsLiteral ==>
      BlankLiterals(s)[i] == ' ' || LineBreak(BlankLiterals(s)[i])
  {
    RewriteKeepsClasses(s, true, false);
    RewriteKeepsClasses(s, false, true);
  }

  /** A rewriter moves no byte and adds or removes no line break. */
  lemma RewriteKeepsLines(s: string, dropComments: bool, blankLiterals: bool, i: nat)
    requires i < |s|
    ensures LineBreak(Rewrite(s, dropComments, blankLiterals)[i]) <==> LineBreak(s[i])
    ensures LineBreak(s[i]) ==> Rewrite(s, dropComments, blankLiterals)[i] == s[i]
  {}

  /** Text without a comment is untouched by stripping. */
  lemma StripNoComment(s: string)
    requires forall i :: 0 <= i < |s| ==> Classify(Code, s)[i] != ClsComment
    ensures Strip(s) == s
  {}

  // ----- The programs -----

  lemma SpecStep(sql: string, spec: seq<Class>, state: State, i: nat)
    requires i < |sql| == |spec| && Classify(state, sql[i..]) == spec[i..]
    ensures var tok := Step(state, sql[i..]);
      && spec[i] == spec[i + tok.width - 1] == tok.cls
      && Classify(tok.next, sql[i + tok.width..]) == spec[i + tok.width..]
  {
    hide Step;
    var tok := Step(state, sql[i..]);
    ClassifyStep(state, sql[i..]);
    assert sql[i..][tok.width..] == sql[i + tok.width..];
    assert spec[i] == spec[i..][..tok.width][0] && spec[i + tok.width - 1] == spec[i..][..tok.width][tok.width - 1];
  }

  /** The body of classifySQL's loop: the byte at `i` read in `state`, its class and that of
      the second byte of a pair written in place. */
  method ScanByte(sql: string, i: nat, state: State, cls: array<Class>) returns (next: State, last: nat)
    requires i < |sql| == cls.Length
    requires forall k :: i <= k < |sql| ==> cls[k] == ClsCode
    modifies cls
    ensures var tok := Step(state, sql[i..]);
      && next == tok.next && last == i + tok.width - 1
      && cls[i] == cls[last] == tok.cls
    ensures forall k :: 0 <= k < |sql| && k != i && k != last ==> cls[k] == old(cls[k])
  {
    ghost var rest := sql[i..];
    assert rest[0] == sql[i] && (|rest| > 1 ==> rest[1] == sql[i + 1]);
    var c := sql[i];
    var d := if i + 1 < |sql| then sql[i + 1] else ' ';
    next, last := state, i;
    match state {
      case Code =>
        if c == '-' && d == '-' {
          cls[i], cls[i + 1] := ClsComment, ClsComment;
          next, last := LineComment, i + 1;
        } else if c == '/' && d == '*' {
          cls[i], cls[i + 1] := ClsComment, ClsComment;
          next, last := BlockComment(1), i + 1;
        } else if c == '\'' {
          next := Literal;
        } else if c == '[' {
          next := BracketId;
        } else if c == '"' {
          next := QuotedId;
        }
      case BracketId =>
        if c == ']' {
          if d == ']' {
            last := i + 1;
          } else {
            next := Code;
          }
        }
      case QuotedId =>
        if c == '"' {
          if d == '"' {
            last := i + 1;
          } else {
            next := Code;
          }
        }
      case LineComment =>
        if c == '\n' || c == '\r' {
          next := Code;
        } else {
          cls[i] := ClsComment;
        }
      case BlockComment(depth) =>
        cls[i] := ClsComment;
        if c == '/' && d == '*' {
          cls[i + 1] := ClsComment;
          next, last := BlockComment(depth + 1), i + 1;
        } else if c == '*' && d == '/' {
          cls[i + 1] := ClsComment;
          next, last := if depth <= 1 then Code else BlockComment(depth - 1), i + 1;
        }
      case Literal =>
        if c == '\'' {
          if d == '\'' {
            cls[i], cls[i + 1] := ClsLiteral, ClsLiteral;
            last := i + 1;
          } else {
            next := Code;
          }
        } else {
          cls[i] := ClsLiteral;
        }
    }
  }

  /** classifySQL: one pass over the bytes, writing the class array in place. */
  method ClassifySQL(sql: string) returns (cls: array<Class>)
    ensures fresh(cls)
    ensures cls[..] == Classify(Code, sql)
  {
    hide Step;
    cls := new Class[|sql|](_ => ClsCode);
    ghost var spec := Classify(Code, sql);
    var state, i := Code, 0;
    while i < |sql|
      invariant 0 <= i <= |sql|
      invariant forall k :: 0 <= k < i ==> cls[k] == spec[k]
      invariant forall k :: i <= k < |sql| ==> cls[k] == ClsCode
      invariant Classify(state, sql[i..]) == spec[i..]
    {
      SpecStep(sql, spec, state, i);
      var last;
      state, last := ScanByte(sql, i, state, cls);
      i := last + 1;
    }
  }

  /** rewriteSQL: the classes of one scan, then one byte out per byte in. */
  method RewriteSQL(sql: string, dropComments: bool, blankLiterals: bool) returns (b: string)
    ensures b == Rewrite(sql, dropComments, blankLiterals)
  {
    hide Step, Classify;
    var cls := ClassifySQL(sql);
    b := "";
    for i := 0 to |sql|
      invariant |b| == i && forall k :: 0 <= k < i ==> b[k] == Rewrite(sql, dropComments, blankLiterals)[k]
      invariant forall k :: 0 <= k < |sql| ==> cls[k] == Classify(Code, sql)[k]
    {
      if cls[i] == ClsComment && dropComments {
        b := b + [if sql[i] == '\n' || sql[i] == '\r' then sql[i] else ' '];
      } else if cls[i] == ClsLiteral && blankLiterals {
        b := b + [if sql[i] == '\n' || sql[i] == '\r' then sql[i] else ' '];
      } else {
        b := b + [sql[i]];
      }
    }
  }
}
