/**
 Folder and file names: SafeFolderName and ResolveDatabaseFolders of collect/output.go, and
 moduleFileName of collect/modules.go. Names are compared upper-cased, character by character.
 */
module Naming {
  import opened Decimal

  // ----- Upper case -----

  /** ASCII letters are folded as such; what becomes of the rest is left to `wide`. */
  function UpperChar(c: char, wide: char -> char): char {
    if 'a' <= c <= 'z' then (c as int - 32) as char else if c < '\U{0080}' then c else wide(c)
  }

  function Upper(s: string, wide: char -> char): (r: string)
    ensures |r| == |s| && forall k :: 0 <= k < |s| ==> r[k] == UpperChar(s[k], wide)
  {
    seq(|s|, k requires 0 <= k < |s| => UpperChar(s[k], wide))
  }

  lemma UpperConcat(a: string, b: string, wide: char -> char)
    ensures Upper(a + b, wide) == Upper(a, wide) + Upper(b, wide)
  {
  }

  // ----- Safe names -----

  const INVALID := "<>:\"/\\|?*,"

  predicate Forbidden(c: char) { c < ' ' || c in INVALID }

  function Stem(s: string): (r: string)
    ensures r <= s && '.' !in r && (r == s || s[|r|] == '.')
  {
    if s == "" || s[0] == '.' then "" else [s[0]] + Stem(s[1..])
  }

  predicate Numbered(s: string, port: string) {
    |s| == 4 && s[..3] == port && '1' <= s[3] <= '9'
  }

  /** The Windows device names, upper-cased. */
  predicate Device(s: string) {
    s == "CON" || s == "PRN" || s == "AUX" || s == "NUL" || Numbered(s, "COM") || Numbered(s, "LPT")
  }

  predicate Reserved(s: string, wide: char -> char) { Device(Upper(Stem(s), wide)) }

  predicate Allowed(s: string) { forall k :: 0 <= k < |s| ==> !Forbidden(s[k]) }

  predicate EndsWell(s: string) { s != "" && s[|s| - 1] != '.' && s[|s| - 1] != ' ' }

  /** A name that can be made on Windows. */
  predicate Safe(s: string, wide: char -> char) { Allowed(s) && EndsWell(s) && !Reserved(s, wide) }

  function Cleaned(name: string): (r: string)
    ensures |r| == |name| && Allowed(r)
    ensures forall k :: 0 <= k < |r| ==> r[k] == if Forbidden(name[k]) then '_' else name[k]
  {
    seq(|name|, k requires 0 <= k < |name| => if Forbidden(name[k]) then '_' else name[k])
  }

  /** Without the dots and spaces at the end. */
  function TrimEnd(s: string): (r: string)
    ensures r <= s && (r != "" ==> EndsWell(r))
  {
    if s == "" || (s[|s| - 1] != '.' && s[|s| - 1] != ' ') then s else TrimEnd(s[..|s| - 1])
  }

  const LONGEST := 100

  function SafeName(name: string, wide: char -> char): string {
    var s := Tidy(name);
    if Reserved(s, wide) then Stem(s) + "_" + s[|Stem(s)|..] else s
  }

  lemma NoDeviceEndsWith(s: string, c: char)
    requires c == '_' || c == '~'
    ensures !Device(s + [c])
  {
    assert (s + [c])[|s|] == c;
  }

  lemma StemOf(a: string, b: string)
    requires '.' !in a && (b == "" || b[0] == '.')
    ensures Stem(a + b) == a
  {
    var s := Stem(a + b);
    assert s == (a + b)[..|s|] && a == (a + b)[..|a|];
    assert forall k :: 0 <= k < |s| ==> s[k] == (a + b)[k];
    assert forall k :: 0 <= k < |a| ==> a[k] == (a + b)[k];
  }

  lemma AllowedJoin(a: string, b: string)
    requires Allowed(a) && Allowed(b)
    ensures Allowed(a + b)
  {
    hide Forbidden;
  }

  lemma UnderscoreAllowed()
    ensures Allowed("_") && EndsWell("_")
  {
  }

  /** The name without its forbidden characters and its end, before device names are looked at. */
  function Tidy(name: string): (s: string)
    ensures Allowed(s) && EndsWell(s) && |s| <= LONGEST
  {
    var runes := Cleaned(name);
    var trimmed := TrimEnd(if |runes| > LONGEST then runes[..LONGEST] else runes);
    if trimmed == "" then UnderscoreAllowed(); "_" else trimmed
  }

  /** Whatever the name, its folder can be made. */
  lemma SafeNameIsSafe(name: string, wide: char -> char)
    ensures Safe(SafeName(name, wide), wide) && |SafeName(name, wide)| <= LONGEST + 1
  {
    hide Device, Stem, Upper, Forbidden, Tidy;
    var s := Tidy(name);
    if Reserved(s, wide) {
      var stem, rest := Stem(s), s[|Stem(s)|..];
      UnderscoreAllowed();
      assert Allowed(stem) && Allowed(rest);
      AllowedJoin(stem, "_");
      AllowedJoin(stem + "_", rest);
      StemOf(stem + "_", rest);
      UpperConcat(stem, "_", wide);
      assert Upper("_", wide) == ['_'];
      NoDeviceEndsWith(Upper(stem, wide), '_');
    }
  }

  method SafeFolderName(name: string, wide: char -> char) returns (s: string)
    ensures s == SafeName(name, wide) && Safe(s, wide)
  {
    hide Safe, Device, Upper, Stem;
    var runes := "";
    for i := 0 to |name|
      invariant runes == Cleaned(name[..i])
    {
      if name[i] < ' ' || name[i] in INVALID {
        runes := runes + "_";
      } else {
        runes := runes + [name[i]];
      }
    }
    assert name[..|name|] == name;
    SafeNameIsSafe(name, wide);
    if |runes| > LONGEST { runes := runes[..LONGEST]; }
    s := TrimEnd(runes);
    if s == "" { s := "_"; }
    var stem := Stem(s);
    if Device(Upper(stem, wide)) { s := stem + "_" + s[|stem|..]; }
  }

  // ----- Suffixes -----

  /** The stem itself, then the stem with ~2, ~3 and so on. */
  function Candidate(stem: string, i: nat): string { if i < 2 then stem else stem + "~" + Digits(i) }

  lemma CandidatesDiffer(stem: string, i: nat, j: nat, wide: char -> char)
    requires 1 <= i < j
    ensures Upper(Candidate(stem, i), wide) != Upper(Candidate(stem, j), wide)
  {
    hide Digits;
    var a, b := Upper(Candidate(stem, i), wide), Upper(Candidate(stem, j), wide);
    if a == b {
      assert |Candidate(stem, j)| > |stem| && i >= 2;
      assert |Digits(i)| == |Digits(j)|;
      forall k | 0 <= k < |Digits(i)|
        ensures Digits(i)[k] == Digits(j)[k]
      {
        assert a[|stem| + 1 + k] == UpperChar(Digits(i)[k], wide) && b[|stem| + 1 + k] == UpperChar(Digits(j)[k], wide);
      }
      DigitsDiffer(i, j);
    }
  }

  lemma SuffixIsSafe(n: nat)
    ensures var s := "~" + Digits(n); Allowed(s) && EndsWell(s) && '.' !in s
  {
    hide Digits;
  }

  /** Text after a safe name keeps it safe, unless it makes the stem longer. */
  lemma Lengthened(a: string, b: string, wide: char -> char)
    requires Safe(a, wide) && Allowed(b) && EndsWell(b)
    requires b[0] == '.' || (b[0] == '~' && '.' !in b)
    ensures Safe(a + b, wide)
  {
    hide Device, Stem, Upper, Forbidden;
    AllowedJoin(a, b);
    var head, rest := Stem(a), a[|Stem(a)|..];
    if rest != "" || b[0] == '.' {
      assert a + b == head + (rest + b);
      StemOf(head, rest + b);
    } else {
      assert '.' !in a + b && (a + b) + "" == a + b;
      StemOf(a + b, "");
      assert Upper(a + b, wide)[|a|] == '~';
      NoDeviceHolds(Upper(a + b, wide), |a|);
    }
  }

  /** A generated name is as safe as the name it was made from. */
  lemma CandidateIsSafe(stem: string, i: nat, wide: char -> char)
    requires Safe(stem, wide)
    ensures Safe(Candidate(stem, i), wide)
  {
    hide Safe, Allowed, EndsWell, Digits;
    if i >= 2 {
      SuffixIsSafe(i);
      Lengthened(stem, "~" + Digits(i), wide);
      assert Candidate(stem, i) == stem + ("~" + Digits(i));
    }
  }

  lemma NoDeviceHolds(s: string, k: nat)
    requires k < |s| && s[k] == '~'
    ensures !Device(s)
  {
  }

  /** f is the first candidate that is not taken. */
  ghost predicate FirstFree(f: string, stem: string, taken: set<string>, wide: char -> char) {
    exists i :: 1 <= i <= |taken| + 1 && IsFirst(f, stem, taken, wide, i)
  }

  ghost predicate IsFirst(f: string, stem: string, taken: set<string>, wide: char -> char, i: nat) {
    && f == Candidate(stem, i) && Upper(f, wide) !in taken
    && forall j :: 1 <= j < i ==> Upper(Candidate(stem, j), wide) in taken
  }

  /** The open-ended search for a free suffix ends, within one try more than there are names
      taken. */
  method Unused(stem: string, taken: set<string>, wide: char -> char) returns (f: string)
    ensures FirstFree(f, stem, taken, wide)
  {
    hide Candidate, Upper;
    f := stem;
    var i := 2;
    ghost var tried: set<string> := {};
    assert f == Candidate(stem, 1) by { FirstCandidate(stem); }
    while Upper(f, wide) in taken
      invariant 2 <= i && f == Candidate(stem, i - 1)
      invariant tried <= taken && |tried| == i - 2
      invariant forall j :: 1 <= j < i - 1 ==> Upper(Candidate(stem, j), wide) in tried
      invariant Upper(f, wide) !in tried
      invariant forall x :: x in tried ==> exists j :: 1 <= j < i - 1 && x == Upper(Candidate(stem, j), wide)
      decreases |taken| - |tried|
    {
      Smaller(tried, taken, Upper(f, wide));
      tried := tried + {Upper(f, wide)};
      forall j | 1 <= j < i ensures Upper(Candidate(stem, j), wide) != Upper(Candidate(stem, i), wide) {
        CandidatesDiffer(stem, j, i, wide);
      }
      f := Generated(stem, i);
      i := i + 1;
    }
    Within(tried, taken);
    assert IsFirst(f, stem, taken, wide, i - 1);
  }

  lemma FirstFreeIsSafe(f: string, stem: string, taken: set<string>, wide: char -> char)
    requires Safe(stem, wide) && FirstFree(f, stem, taken, wide)
    ensures Safe(f, wide) && Upper(f, wide) !in taken
  {
    hide Safe;
    var i :| 1 <= i <= |taken| + 1 && IsFirst(f, stem, taken, wide, i);
    CandidateIsSafe(stem, i, wide);
  }

  lemma FirstCandidate(stem: string)
    ensures Candidate(stem, 1) == stem
  {
  }

  function Generated(stem: string, i: nat): (f: string)
    requires i >= 2
    ensures f == Candidate(stem, i)
  {
    stem + "~" + Digits(i)
  }

  lemma Smaller(tried: set<string>, taken: set<string>, x: string)
    requires tried <= taken && x in taken && x !in tried
    ensures |tried + {x}| == |tried| + 1 && |tried| < |taken|
  {
    Within(tried + {x}, taken);
  }

  lemma {:induction false} Within(a: set<string>, b: set<string>)
    requires a <= b
    ensures |a| <= |b|
    decreases a
  {
    if a != {} {
      var x :| x in a;
      Within(a - {x}, b - {x});
    }
  }

  // ----- Databases -----

  datatype DatabaseFolder = DatabaseFolder(name: string, folder: string)

  function Uppers(names: seq<string>, wide: char -> char): (r: set<string>)
    ensures forall k :: 0 <= k < |names| ==> Upper(names[k], wide) in r
  {
    set k | 0 <= k < |names| :: Upper(names[k], wide)
  }

  ghost predicate DistinctIgnoringCase(names: seq<string>, wide: char -> char) {
    forall i, j :: 0 <= i < j < |names| ==> Upper(names[i], wide) != Upper(names[j], wide)
  }

  function FoldersOf(out: seq<DatabaseFolder>): (r: seq<string>)
    ensures |r| == |out| && forall k :: 0 <= k < |r| ==> r[k] == out[k].folder
  {
    seq(|out|, k requires 0 <= k < |out| => out[k].folder)
  }

  /** One folder per database, in order, each the first free form of its safe name and distinct
      from every other ignoring case. */
  method ResolveDatabaseFolders(names: seq<string>, wide: char -> char) returns (out: seq<DatabaseFolder>)
    ensures |out| == |names| && forall k :: 0 <= k < |out| ==> out[k].name == names[k]
    ensures DistinctIgnoringCase(FoldersOf(out), wide)
    ensures forall k :: 0 <= k < |out| ==> Safe(out[k].folder, wide)
    ensures forall k :: 0 <= k < |out| ==> FirstFree(out[k].folder, SafeName(names[k], wide), Uppers(FoldersOf(out[..k]), wide), wide)
  {
    hide Safe, Upper, SafeName, FirstFree;
    var taken: set<string> := {};
    out := [];
    for i := 0 to |names|
      invariant |out| == i && forall k :: 0 <= k < i ==> out[k].name == names[k]
      invariant taken == Uppers(FoldersOf(out), wide) && DistinctIgnoringCase(FoldersOf(out), wide)
      invariant forall k :: 0 <= k < i ==> Safe(out[k].folder, wide)
      invariant forall k :: 0 <= k < i ==> FirstFree(out[k].folder, SafeName(names[k], wide), Uppers(FoldersOf(out[..k]), wide), wide)
    {
      var base := SafeFolderName(names[i], wide);
      var f := Unused(base, taken, wide);
      FirstFreeIsSafe(f, base, taken, wide);
      taken := taken + {Upper(f, wide)};
      ghost var before := out;
      out := out + [DatabaseFolder(names[i], f)];
      OneMoreName(FoldersOf(before), f, wide);
      assert FoldersOf(out) == FoldersOf(before) + [f];
      assert out[..i] == before && forall k :: 0 <= k < i ==> out[..k] == before[..k];
    }
  }

  lemma OneMoreName(names: seq<string>, f: string, wide: char -> char)
    ensures Uppers(names + [f], wide) == Uppers(names, wide) + {Upper(f, wide)}
    ensures DistinctIgnoringCase(names, wide) && Upper(f, wide) !in Uppers(names, wide) ==> DistinctIgnoringCase(names + [f], wide)
  {
    hide Upper;
    var more := names + [f];
    assert more[|names|] == f && forall k :: 0 <= k < |names| ==> more[k] == names[k];
    forall x | x in Uppers(names, wide) + {Upper(f, wide)}
      ensures x in Uppers(more, wide)
    {
      if x != Upper(f, wide) {
        var k :| 0 <= k < |names| && x == Upper(names[k], wide);
        assert x == Upper(more[k], wide);
      }
    }
  }

  // ----- Modules -----

  const EXTENSION := ".sql"

  predicate Handed(f: string, file: string, used: map<string, nat>, after: map<string, nat>, wide: char -> char) {
    file == f + EXTENSION && after == used[Upper(f, wide) := 1]
  }

  /** The name is free and remembered; `used` counts the names handed out, upper-cased. */
  method ModuleFileName(schema: string, name: string, used: map<string, nat>, wide: char -> char)
      returns (file: string, after: map<string, nat>)
    requires forall k :: k in used ==> used[k] > 0
    ensures exists f :: Handed(f, file, used, after, wide) && FirstFree(f, SafeName(schema, wide) + "." + SafeName(name, wide), used.Keys, wide)
    ensures Safe(file, wide) && Upper(file, wide) !in ExtendedNames(used.Keys, wide)
  {
    hide Safe, Upper, SafeName, FirstFree;
    var s := SafeFolderName(schema, wide);
    var n := SafeFolderName(name, wide);
    var f := Unused(s + "." + n, used.Keys, wide);
    after := used[Upper(f, wide) := 1];
    file := f + EXTENSION;
    assert Handed(f, file, used, after, wide);
    JoinedIsSafe(s, n, wide);
    FirstFreeIsSafe(f, s + "." + n, used.Keys, wide);
    ExtensionIsSafe(f, wide);
    ExtensionDiffers(f, used.Keys, wide);
  }

  function ExtendedNames(names: set<string>, wide: char -> char): set<string> {
    set x | x in names :: x + Upper(EXTENSION, wide)
  }

  lemma ExtensionDiffers(f: string, names: set<string>, wide: char -> char)
    requires Upper(f, wide) !in names
    ensures Upper(f + EXTENSION, wide) !in ExtendedNames(names, wide)
  {
    hide Upper;
    UpperConcat(f, EXTENSION, wide);
    var e := Upper(EXTENSION, wide);
    assert forall x :: x in names && x + e == Upper(f, wide) + e ==> (x + e)[..|x|] == (Upper(f, wide) + e)[..|x|];
  }

  lemma JoinedIsSafe(a: string, b: string, wide: char -> char)
    requires Safe(a, wide) && Safe(b, wide)
    ensures Safe(a + "." + b, wide)
  {
    hide Reserved, Forbidden;
    assert a + "." + b == a + ("." + b) && ("." + b)[|b|] == b[|b| - 1];
    assert Allowed(".") by { DotAllowed(); }
    AllowedJoin(".", b);
    Lengthened(a, "." + b, wide);
  }

  lemma DotAllowed()
    ensures Allowed(".") && Allowed(EXTENSION)
  {
  }

  lemma ExtensionIsSafe(a: string, wide: char -> char)
    requires Safe(a, wide)
    ensures Safe(a + EXTENSION, wide)
  {
    hide Safe, Forbidden;
    DotAllowed();
    Lengthened(a, EXTENSION, wide);
  }

  datatype Module = Module(schema: string, name: string)

  /** The writer's loop: every module gets a file of its own. */
  method ModuleFiles(modules: seq<Module>, wide: char -> char) returns (files: seq<string>)
    ensures |files| == |modules| && DistinctIgnoringCase(files, wide)
    ensures forall k :: 0 <= k < |files| ==> Safe(files[k], wide)
  {
    hide Safe, Upper, SafeName, FirstFree;
    var used: map<string, nat> := map[];
    files := [];
    for i := 0 to |modules|
      invariant |files| == i && forall k :: k in used ==> used[k] > 0
      invariant Uppers(files, wide) == ExtendedNames(used.Keys, wide) && DistinctIgnoringCase(files, wide)
      invariant forall k :: 0 <= k < i ==> Safe(files[k], wide)
    {
      var file, after := ModuleFileName(modules[i].schema, modules[i].name, used, wide);
      ghost var f :| Handed(f, file, used, after, wide);
      UpperConcat(f, EXTENSION, wide);
      assert ExtendedNames(after.Keys, wide) == ExtendedNames(used.Keys, wide) + {Upper(file, wide)} by {
        ExtendedMore(used.Keys, Upper(f, wide), wide);
        assert after.Keys == used.Keys + {Upper(f, wide)};
      }
      OneMoreName(files, file, wide);
      files := files + [file];
      used := after;
    }
  }

  lemma ExtendedMore(names: set<string>, x: string, wide: char -> char)
    ensures ExtendedNames(names + {x}, wide) == ExtendedNames(names, wide) + {x + Upper(EXTENSION, wide)}
  {
  }
}
