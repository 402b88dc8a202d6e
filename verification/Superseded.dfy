/**
 When a same-day rerun may delete the run it replaced, and what any history of reruns keeps:
 settleRun, previousRunLost and prepareRunFolder of collect/collect.go.
 */
module Superseded {
  import opened Options
  import opened Scope
  import opened Target
  import opened Window

  // ----- Coverage -----

  /** The run holds the unit's result, or the collector's result for the whole instance. */
  predicate Holds(s: RunScope, u: Unit) {
    u in s.results || Unit(u.script, "") in s.results
  }

  predicate KeepsValues(prev: map<string, string>, cur: map<string, string>, env: Setting) {
    && KeepsCount(Get(prev, "query_store_top"), Get(cur, "query_store_top"), env)
    && Get(prev, "query_store_compare_at") in {"", Get(cur, "query_store_compare_at")}
  }

  /** `cur` holds everything `prev` collected, as many queries of it and around the same
      instant, and was narrowed by nothing `prev` was not. */
  ghost predicate Covers(cur: RunScope, prev: RunScope, env: Setting) {
    && (forall u :: u in prev.results && u.script != "" ==> Holds(cur, u))
    && (forall n :: n in env.optIns && On(prev, n) ==> On(cur, n))
    && (forall n :: n in env.optOuts && On(cur, n) ==> On(prev, n))
    && (forall db :: db in prev.databases ==> Read(cur, db))
    && (cur.profile != "" ==> cur.profile == prev.profile)
    && !IncludeLost(prev.config, cur.config)
    && KeepsValues(prev.config, cur.config, env)
  }

  lemma CoversThrough(a: RunScope, b: RunScope, c: RunScope, env: Setting)
    requires Covers(b, a, env) && Covers(c, b, env)
    ensures Covers(c, a, env)
  {
    forall u | u in a.results && u.script != "" ensures Holds(c, u) {
      assert Holds(b, u);
      if u in b.results { assert Holds(c, u); } else { assert Holds(c, Unit(u.script, "")); }
    }
  }

  // ----- The gate -----

  /** scopeLost found nothing. */
  ghost predicate NothingLost(prev: RunScope, cur: RunScope, env: Setting) {
    && (forall l :: !IsLoss(l, prev, cur, env))
    && (forall u :: !UnitLost(prev, cur, {}, u, env))
  }

  /** The method's empty answer is exactly that. */
  lemma NothingNamed(prev: RunScope, cur: RunScope, env: Setting, lost: seq<Loss>, collectors: map<Line, seq<string>>)
    requires forall l :: l in lost <==> IsLoss(l, prev, cur, env)
    requires Names(collectors, prev, cur, set db | db in prev.databases && Gone(prev, cur, db),
                   (set u | u in prev.results) + (set u | u in prev.errors), env)
    ensures lost == [] && collectors == map[] <==> NothingLost(prev, cur, env)
  {
    hide SkipLoses, Dropped, SkipOf, SettingsLost;
    EmptyList(lost);
    var gone := set db | db in prev.databases && Gone(prev, cur, db);
    var seen := (set u | u in prev.results) + (set u | u in prev.errors);
    if lost == [] || (forall l :: !IsLoss(l, prev, cur, env)) {
      forall db | db in prev.databases ensures !Gone(prev, cur, db) {
        assert !IsLoss(LostDatabase(db, Read(cur, db)), prev, cur, env);
      }
      assert gone == {};
      if collectors == map[] {
        forall u ensures !UnitLost(prev, cur, {}, u, env) {
          assert u !in seen ==> !UnitLost(prev, cur, {}, u, env);
        }
      } else {
        var l :| l in collectors;
        var u :| u in seen && UnitLost(prev, cur, gone, u, env) && LineOf(cur, u) == l;
      }
    }
  }

  lemma EmptyList(lost: seq<Loss>)
    ensures lost == [] <==> forall l :: l !in lost
  {
    if lost != [] { assert lost[0] in lost; }
  }

  /** A skip of a unit the earlier run had a result for loses it, unless its reason is the
      Query Store narrowing, which is compared by the setting alone. */
  lemma EverySkipLoses(prev: RunScope, cur: RunScope, reason: Reason, env: Setting)
    requires forall l :: !IsLoss(l, prev, cur, env)
    ensures SkipLoses(reason, prev, cur, env) <==> reason != NotInQueryStoreInclude
  {
    assert !IsLoss(LostProfile(cur.profile), prev, cur, env);
    if reason.FlagOff? { assert !IsLoss(LostOption(reason.flag), prev, cur, env); }
    if reason.OptedOut? { assert !IsLoss(LostByOptOut(reason.flag), prev, cur, env); }
  }

  /** The setting compared: nothing lost means the later run's pattern list is empty or the same. */
  lemma IncludeKept(prev: RunScope, cur: RunScope, env: Setting)
    requires forall l :: !IsLoss(l, prev, cur, env)
    ensures !IncludeLost(prev.config, cur.config)
  {
    if IncludeLost(prev.config, cur.config) { IncludeNamed(prev, cur, env); }
  }

  lemma IncludeNamed(prev: RunScope, cur: RunScope, env: Setting)
    requires IncludeLost(prev.config, cur.config)
    ensures IsLoss(LostInclude(Get(cur.config, INCLUDE)), prev, cur, env)
  {
    hide CountLost, WindowLost, CompareLost;
    assert SettingsLost(prev.config, cur.config, env)[0] == LostInclude(Get(cur.config, INCLUDE));
  }

  /** The settings with a value, after a comparison that named nothing: the count of queries and
      the comparison instant are kept, and so is the window, by its length when both runs let it
      slide and by its ends when either fixed it. */
  lemma GateKeepsValues(prev: RunScope, cur: RunScope, env: Setting)
    requires forall l :: !IsLoss(l, prev, cur, env)
    ensures KeepsValues(prev.config, cur.config, env) && KeepsWindow(prev.config, cur.config, env)
  {
    NoSettingLost(prev, cur, env);
  }

  lemma NoSettingLost(prev: RunScope, cur: RunScope, env: Setting)
    requires forall l :: !IsLoss(l, prev, cur, env)
    ensures !CountLost(Get(prev.config, "query_store_top"), Get(cur.config, "query_store_top"), env)
    ensures !WindowLost(prev.config, cur.config, env) && !CompareLost(prev.config, cur.config)
  {
    hide CountLost, WindowLost, CompareLost, IncludeLost;
    var lost := SettingsLost(prev.config, cur.config, env);
    SettingsOnly(prev.config, cur.config, env);
    assert forall l :: l in lost ==> IsLoss(l, prev, cur, env);
    EmptyList(lost);
    NoneNamed(prev.config, cur.config, env);
  }

  lemma NoneNamed(prev: map<string, string>, cur: map<string, string>, env: Setting)
    ensures SettingsLost(prev, cur, env) == [] ==>
      !CountLost(Get(prev, "query_store_top"), Get(cur, "query_store_top"), env) && !WindowLost(prev, cur, env) && !CompareLost(prev, cur)
  {
    hide CountLost, WindowLost, CompareLost, IncludeLost;
  }

  /** What the gate leaves open: a result of the earlier run that this one set aside for the
      Query Store narrowing and does not hold. */
  predicate NarrowedAway(prev: RunScope, cur: RunScope, u: Unit) {
    u in prev.results && u.script != "" && SkipOf(cur, u) == Some(NotInQueryStoreInclude) && !Holds(cur, u)
  }

  /** The deletion gate, exactly: after a run without errors that lost nothing by name, the
      later run covers the earlier one if and only if it narrowed none of its results away. */
  lemma GateExact(prev: RunScope, cur: RunScope, env: Setting)
    requires NothingLost(prev, cur, env) && cur.errors == []
    ensures Covers(cur, prev, env) <==> forall u :: !NarrowedAway(prev, cur, u)
  {
    hide SkipOf, SkipLoses, SettingsLost, Dropped, IncludeLost, KeepsValues, KeepsWindow;
    forall u | u in prev.results && u.script != "" && !NarrowedAway(prev, cur, u) ensures Holds(cur, u) {
      assert !UnitLost(prev, cur, {}, u, env);
      var skip := SkipOf(cur, u);
      if skip.Some? { EverySkipLoses(prev, cur, skip.value, env); }
    }
    forall n | n in env.optIns && On(prev, n) ensures On(cur, n) { assert !IsLoss(LostOption(n), prev, cur, env); }
    forall n | n in env.optOuts && On(cur, n) ensures On(prev, n) { assert !IsLoss(LostByOptOut(n), prev, cur, env); }
    forall db | db in prev.databases ensures Read(cur, db) { assert !IsLoss(LostDatabase(db, Read(cur, db)), prev, cur, env); }
    assert !IsLoss(LostProfile(cur.profile), prev, cur, env);
    IncludeKept(prev, cur, env);
    GateKeepsValues(prev, cur, env);
  }

  /** What the planner guarantees of a run: the Query Store narrowing drops only databases of a
      script it narrows that the pattern list does not match, and the script runs on no such
      database. `narrowed` says which scripts it narrows. */
  ghost predicate ObeysInclude(s: RunScope, narrowed: string -> bool, matches: (string, string) -> bool) {
    var pattern := Get(s.config, INCLUDE);
    && (forall k :: 0 <= k < |s.skipped| && s.skipped[k].reason == NotInQueryStoreInclude ==>
          s.skipped[k].target != "" && pattern != "" && narrowed(s.skipped[k].script) && !matches(pattern, s.skipped[k].target))
    && (forall u :: u in s.results && narrowed(u.script) && pattern != "" ==> matches(pattern, u.target))
  }

  lemma {:induction false} LastReasonIsASkip(skipped: seq<Skip>, script: string, target: string)
    requires LastReason(skipped, script, target).Some?
    ensures exists k :: 0 <= k < |skipped| && skipped[k] == Skip(script, target, LastReason(skipped, script, target).value)
  {
    var last := skipped[|skipped| - 1];
    if last.script != script || last.target != target {
      LastReasonIsASkip(skipped[..|skipped| - 1], script, target);
    }
  }

  /** With the same scripts narrowed in both runs, nothing is narrowed away and the gate is sound. */
  lemma GateSound(prev: RunScope, cur: RunScope, narrowed: string -> bool, matches: (string, string) -> bool, env: Setting)
    requires NothingLost(prev, cur, env) && cur.errors == []
    requires ObeysInclude(prev, narrowed, matches) && ObeysInclude(cur, narrowed, matches)
    ensures Covers(cur, prev, env)
  {
    hide SkipLoses, UnitLost, SettingsLost, LastReason, Covers;
    IncludeKept(prev, cur, env);
    forall u ensures !NarrowedAway(prev, cur, u) {
      if NarrowedAway(prev, cur, u) {
        var own := LastReason(cur.skipped, u.script, u.target);
        var target := if own.Some? then u.target else "";
        LastReasonIsASkip(cur.skipped, u.script, target);
      }
    }
    GateExact(prev, cur, env);
  }

  /** Without that hypothesis it is not. A script that became narrowed between two runs under
      the same pattern list loses its result on a database the list does not match, and the
      comparison names nothing. */
  lemma GateMissesANewlyNarrowedScript(env: Setting)
    requires env.count("").None? && env.instant("").None?
    ensures var config := map[INCLUDE := "Sales%"];
      var prev := RunScope(config, "", ["Stock"], [Unit("021", "Stock")], [], []);
      var cur := RunScope(config, "", ["Stock"], [], [], [Skip("021", "Stock", NotInQueryStoreInclude)]);
      NothingLost(prev, cur, env) && cur.errors == [] && !Covers(cur, prev, env)
  {
    hide Covers;
    var config := map[INCLUDE := "Sales%"];
    var prev := RunScope(config, "", ["Stock"], [Unit("021", "Stock")], [], []);
    var cur := RunScope(config, "", ["Stock"], [], [], [Skip("021", "Stock", NotInQueryStoreInclude)]);
    NothingInSettings(config, env);
    forall l ensures !IsLoss(l, prev, cur, env) {}
    forall u ensures !UnitLost(prev, cur, {}, u, env) {
      if u.script == "021" && u.target == "Stock" { LastOfOne("021", "Stock"); }
    }
    LastOfOne("021", "Stock");
    assert NarrowedAway(prev, cur, Unit("021", "Stock"));
    GateExact(prev, cur, env);
  }

  lemma NothingInSettings(config: map<string, string>, env: Setting)
    requires config == map[INCLUDE := "Sales%"] && env.count("").None? && env.instant("").None?
    ensures SettingsLost(config, config, env) == []
  {
    assert Get(config, "query_store_from") == "" && Get(config, "query_store_top") == "";
    assert Get(config, "query_store_compare_at") == "";
  }

  lemma LastOfOne(script: string, target: string)
    ensures LastReason([Skip(script, target, NotInQueryStoreInclude)], script, target) == Some(NotInQueryStoreInclude)
  {}

  // ----- Any history of reruns -----

  /** settleRun: the run's exit code, and whether the run it replaced may now go. */
  function SettleRun(exit: nat, cutShort: bool): (r: (nat, bool))
    ensures r.1 ==> r.0 == 0 && exit == 0 && !cutShort
    ensures cutShort ==> r.0 != 0
  {
    var code := if cutShort && exit == 0 then 2 else exit;
    (code, code == 0)
  }

  /** One run as it lies on disk. An unreadable manifest leaves nothing to compare. */
  datatype Stored = Stored(scope: RunScope, readable: bool, server: Server)

  /** The run under each name, and the runs set aside beside them. */
  datatype Disk = Disk(named: map<string, Stored>, aside: set<Stored>)

  /** One collection: where it is filed, what it left, how its loop ended. `archived` is false
      for a run that died before its archive was written. */
  datatype Collection = Collection(name: string, keep: bool, left: Stored, exit: nat, cutShort: bool, archived: bool)

  /** previousRunLost found nothing to keep the replaced run for. */
  ghost predicate MayReplace(prev: Stored, cur: Stored, env: Setting) {
    prev.readable && OtherServer(prev.server, cur.server, env.texts) == Same && NothingLost(prev.scope, cur.scope, env)
  }

  /** Why the run that was replaced is kept. */
  datatype Kept = NothingToCompare | OfAnother(verdict: Verdict) | NotCollected(lost: seq<Loss>, collectors: map<Line, seq<string>>)

  /** previousRunLost, asked of a run that completed: None when there was no run to replace, or
      when it may go. */
  method PreviousRunLost(prev: Option<Stored>, cur: Stored, env: Setting) returns (why: Option<Kept>)
    ensures why.None? <==> prev.None? || MayReplace(prev.value, cur, env)
    ensures why == Some(NothingToCompare) <==> prev.Some? && !prev.value.readable
    ensures why.Some? && why.value.OfAnother? ==> why.value.verdict == OtherServer(prev.value.server, cur.server, env.texts) != Same
    ensures why.Some? && why.value.NotCollected? ==> OtherServer(prev.value.server, cur.server, env.texts) == Same
    ensures why.Some? && why.value.NotCollected? ==>
      var p, c := prev.value.scope, cur.scope;
      && (forall l :: l in why.value.lost <==> IsLoss(l, p, c, env))
      && Names(why.value.collectors, p, c, set db | db in p.databases && Gone(p, c, db), (set u | u in p.results) + (set u | u in p.errors), env)
  {
    hide NothingLost, Names, OtherServer, IsLoss;
    if prev.None? {
      return None;
    }
    if !prev.value.readable {
      return Some(NothingToCompare);
    }
    var verdict := OtherServer(prev.value.server, cur.server, env.texts);
    if verdict != Same {
      return Some(OfAnother(verdict));
    }
    var lost, collectors := ScopeLost(prev.value.scope, cur.scope, env);
    NothingNamed(prev.value.scope, cur.scope, env, lost, collectors);
    if lost == [] && collectors == map[] {
      return None;
    }
    why := Some(NotCollected(lost, collectors));
  }

  ghost predicate Discards(c: Collection, prev: Stored, env: Setting) {
    c.archived && SettleRun(c.exit, c.cutShort).1 && MayReplace(prev, c.left, env)
  }

  /** What a collection does to the disk: with --keep it never lands on a name in use; without,
      the run of that name is set aside, and deleted only at the end, by the gate. */
  ghost function Collect(d: Disk, c: Collection, env: Setting): Disk {
    if c.name in d.named then
      if c.keep then d
      else
        var prev := d.named[c.name];
        Disk(d.named[c.name := c.left], if Discards(c, prev, env) then d.aside else d.aside + {prev})
    else Disk(d.named[c.name := c.left], d.aside)
  }

  ghost predicate Lands(d: Disk, c: Collection) { !(c.keep && c.name in d.named) }

  ghost function History(cs: seq<Collection>, env: Setting): Disk {
    if cs == [] then Disk(map[], {}) else Collect(History(cs[..|cs| - 1], env), cs[|cs| - 1], env)
  }

  ghost predicate OnDisk(d: Disk, s: Stored) { s in d.aside || exists name :: name in d.named && d.named[name] == s }

  /** What is known of the Query Store windows of a history: nothing; that each was recorded as
      its run resolved it; or besides that no sliding one replaces a sliding one. */
  datatype Windows = AnyWindow | AsRecorded | NeverTwice

  /** What the runs of a history have in common: the scripts their planner narrows and how it
      matches a pattern, whether each one records its address, and their windows. */
  datatype Practice = Practice(narrowed: string -> bool, matches: (string, string) -> bool, located: bool, windows: Windows)

  ghost predicate Follows(s: Stored, p: Practice, env: Setting) {
    && ObeysInclude(s.scope, p.narrowed, p.matches)
    && (p.located ==> Located(s.server))
    && (p.windows != AnyWindow ==> Exact(s.scope.config, env))
  }

  /** Whether one may be deleted for the other, as far as their windows go. */
  predicate Replaceable(prev: Stored, cur: Stored, p: Practice) {
    p.windows == NeverTwice ==> !(Sliding(prev.scope.config) && Sliding(cur.scope.config))
  }

  /** A collection whose loop exits 0 recorded no error, and it left what the practice says. */
  ghost predicate Honest(c: Collection, p: Practice, env: Setting) {
    && (SettleRun(c.exit, c.cutShort).1 ==> c.left.scope.errors == [])
    && Follows(c.left, p, env)
  }

  /** `t` is a run of the server that `s` is of: by name, and by address and database too when
      every run records them. A run without a server's name is only ever itself. */
  ghost predicate SameServer(t: Stored, s: Stored, p: Practice, env: Setting) {
    t == s || (SameName(s.server, t.server, env.texts) && (p.located ==> OtherServer(s.server, t.server, env.texts) == Same))
  }

  /** `t` is `s`, or a run of the server `s` names that covers it: with every address recorded,
      of the same address and database too; with windows as recorded, of one that is not shorter,
      and that holds it when no sliding one replaced a sliding one. */
  ghost predicate StandsFor(t: Stored, s: Stored, p: Practice, env: Setting) {
    || t == s
    || (&& Covers(t.scope, s.scope, env)
        && SameServer(t, s, p, env)
        && (p.windows != AnyWindow ==> NotShorter(s.scope.config, t.scope.config, env))
        && (p.windows == NeverTwice ==> Nests(s.scope.config, t.scope.config, env)))
  }

  ghost predicate CoveredOn(d: Disk, s: Stored, p: Practice, env: Setting) {
    exists t :: OnDisk(d, t) && StandsFor(t, s, p, env)
  }

  /** The collection deletes no run that the practice says it never does. */
  ghost predicate Lawful(d: Disk, c: Collection, p: Practice, env: Setting) {
    c.name in d.named && Discards(c, d.named[c.name], env) ==> Replaceable(d.named[c.name], c.left, p)
  }

  ghost predicate AllLawful(cs: seq<Collection>, p: Practice, env: Setting) {
    forall i :: 0 <= i < |cs| ==> Lawful(History(cs[..i], env), cs[i], p, env)
  }

  lemma LawfulSoFar(cs: seq<Collection>, n: nat, p: Practice, env: Setting)
    requires AllLawful(cs, p, env) && n < |cs|
    ensures AllLawful(cs[..n], p, env) && Lawful(History(cs[..n], env), cs[n], p, env)
  {
    hide Lawful, History;
    assert forall i :: 0 <= i < n ==> cs[..n][..i] == cs[..i] && cs[..n][i] == cs[i];
  }

  /** Everything on disk was left by an honest collection. */
  ghost predicate AllFollow(d: Disk, p: Practice, env: Setting) {
    forall s :: OnDisk(d, s) ==> Follows(s, p, env)
  }

  /** In terms of the comparison: it keeps the window when both slide, and always when no sliding
      window replaced a sliding one. */
  lemma StandsKeepsWindow(t: Stored, s: Stored, p: Practice, env: Setting)
    requires StandsFor(t, s, p, env) && Follows(s, p, env) && Follows(t, p, env) && p.windows != AnyWindow
    requires p.windows == NeverTwice || (Sliding(s.scope.config) && Sliding(t.scope.config))
    ensures KeepsWindow(s.scope.config, t.scope.config, env)
  {
    hide Covers, SameServer, ObeysInclude, Exact, Sliding, KeepsWindow;
    KeptIs(s.scope.config, t.scope.config, env);
    if t == s { KeptByItself(s.scope.config, env); }
  }

  lemma KeptByItself(c: map<string, string>, env: Setting)
    ensures KeepsWindow(c, c, env)
  {}

  /** Standing for a run passes through the gate. */
  lemma StandsThrough(s: Stored, prev: Stored, cur: Stored, p: Practice, env: Setting)
    requires Follows(s, p, env) && Follows(prev, p, env) && Follows(cur, p, env) && Replaceable(prev, cur, p)
    requires p.located ==> CaseBlind(env.texts)
    requires StandsFor(prev, s, p, env) && MayReplace(prev, cur, env) && cur.scope.errors == []
    ensures StandsFor(cur, s, p, env)
  {
    hide Covers, ObeysInclude, NothingLost, KeepsWindow, Sliding, CaseBlind, SamePlace, Exact, NotShorter, Nests;
    GateSound(prev.scope, cur.scope, p.narrowed, p.matches, env);
    GateWindow(prev.scope, cur.scope, env);
    if p.windows != AnyWindow { KeptIs(prev.scope.config, cur.scope.config, env); }
    if prev != s {
      CoversThrough(s.scope, prev.scope, cur.scope, env);
      if p.located { SameThrough(s.server, prev.server, cur.server, env.texts); }
      WindowsThrough(s.scope.config, prev.scope.config, cur.scope.config, env);
    }
  }

  lemma WindowsThrough(a: map<string, string>, b: map<string, string>, c: map<string, string>, env: Setting)
    ensures NotShorter(a, b, env) && NotShorter(b, c, env) ==> NotShorter(a, c, env)
    ensures Nests(a, b, env) && Nests(b, c, env) ==> Nests(a, c, env)
  {}

  lemma GateWindow(prev: RunScope, cur: RunScope, env: Setting)
    requires NothingLost(prev, cur, env)
    ensures KeepsWindow(prev.config, cur.config, env)
  {
    hide IsLoss, UnitLost, KeepsWindow, KeepsValues;
    GateKeepsValues(prev, cur, env);
  }

  /** A collection deletes nothing but the run it replaced, through the gate. */
  lemma OnlyTheGateDeletes(d: Disk, c: Collection, t: Stored, env: Setting)
    requires OnDisk(d, t) && !OnDisk(Collect(d, c, env), t)
    ensures c.name in d.named && t == d.named[c.name] && Discards(c, t, env)
  {
    hide Discards;
    if t !in d.aside {
      var name :| name in d.named && d.named[name] == t;
      if name != c.name { OtherNamesStay(d, c, name, env); }
    }
  }

  lemma OtherNamesStay(d: Disk, c: Collection, name: string, env: Setting)
    requires name in d.named && name != c.name
    ensures OnDisk(Collect(d, c, env), d.named[name])
  {
    hide Discards;
    assert Collect(d, c, env).named[name] == d.named[name];
  }

  /** One more collection takes the cover of no run away. */
  lemma CollectKeepsCover(d: Disk, c: Collection, s: Stored, p: Practice, env: Setting)
    requires AllFollow(d, p, env) && Honest(c, p, env) && Follows(s, p, env) && CoveredOn(d, s, p, env)
    requires p.located ==> CaseBlind(env.texts)
    requires Lawful(d, c, p, env)
    ensures CoveredOn(Collect(d, c, env), s, p, env)
  {
    hide StandsFor, Follows, MayReplace, SettleRun, CaseBlind;
    var e := Collect(d, c, env);
    var t :| OnDisk(d, t) && StandsFor(t, s, p, env);
    if OnDisk(e, t) { return; }
    OnlyTheGateDeletes(d, c, t, env);
    StandsThrough(s, t, c.left, p, env);
    assert e.named[c.name] == c.left && OnDisk(e, c.left);
  }

  lemma CollectKeepsFollowing(d: Disk, c: Collection, p: Practice, env: Setting)
    requires AllFollow(d, p, env) && Honest(c, p, env)
    ensures AllFollow(Collect(d, c, env), p, env)
  {
    hide Follows, Discards;
    var e := Collect(d, c, env);
    forall s | OnDisk(e, s) ensures Follows(s, p, env) {
      if s in e.aside && s !in d.aside { assert OnDisk(d, s); }
      if s !in e.aside {
        var name :| name in e.named && e.named[name] == s;
        assert s == c.left || OnDisk(d, s);
      }
    }
  }

  /** Over any history of collections, complete or partial, stopped, cut or dead, with --keep or
      without, for every run that was ever written a run still on disk stands: of the same
      server, with its results, its databases, its options and its settings. */
  lemma {:induction false} NothingIsEverLost(cs: seq<Collection>, p: Practice, env: Setting)
    requires forall c :: c in cs ==> Honest(c, p, env)
    requires p.located ==> CaseBlind(env.texts)
    requires AllLawful(cs, p, env)
    ensures AllFollow(History(cs, env), p, env)
    ensures forall i :: 0 <= i < |cs| && Lands(History(cs[..i], env), cs[i]) ==>
      CoveredOn(History(cs, env), cs[i].left, p, env)
  {
    hide Follows, CoveredOn, Collect, Lands, AllFollow, CaseBlind, SettleRun, Lawful, AllLawful;
    if cs == [] {
      NothingToFollow(p, env);
      return;
    }
    var n := |cs| - 1;
    var before, c := cs[..n], cs[n];
    assert Honest(c, p, env) && forall d :: d in before ==> Honest(d, p, env);
    LawfulSoFar(cs, n, p, env);
    NothingIsEverLost(before, p, env);
    CollectKeepsFollowing(History(before, env), c, p, env);
    forall i | 0 <= i < |cs| && Lands(History(cs[..i], env), cs[i])
      ensures CoveredOn(History(cs, env), cs[i].left, p, env)
    {
      if i < n {
        assert before[..i] == cs[..i] && before[i] == cs[i] && cs[i] in cs;
        CollectKeepsCover(History(before, env), c, cs[i].left, p, env);
      } else {
        JustWritten(History(before, env), c, p, env);
      }
    }
  }

  lemma NothingToFollow(p: Practice, env: Setting)
    ensures AllFollow(Disk(map[], {}), p, env)
  {}

  lemma JustWritten(d: Disk, c: Collection, p: Practice, env: Setting)
    requires Lands(d, c)
    ensures CoveredOn(Collect(d, c, env), c.left, p, env)
  {
    hide Covers;
    var e := Collect(d, c, env);
    assert e.named[c.name] == c.left && OnDisk(e, c.left);
  }

  /** In the terms of a unit: whatever any run recorded as a result, a run of the same server on
      disk holds, on the same target or for the whole instance. */
  lemma EveryResultSurvives(cs: seq<Collection>, p: Practice, env: Setting, i: nat, u: Unit)
    requires forall c :: c in cs ==> Honest(c, p, env)
    requires p.located ==> CaseBlind(env.texts)
    requires AllLawful(cs, p, env)
    requires i < |cs| && Lands(History(cs[..i], env), cs[i])
    requires u in cs[i].left.scope.results && u.script != ""
    ensures exists t :: OnDisk(History(cs, env), t) && Holds(t.scope, u) && SameServer(t, cs[i].left, p, env)
  {
    hide Honest, OnDisk, History, Lands, CaseBlind, AllLawful;
    NothingIsEverLost(cs, p, env);
    assert CoveredOn(History(cs, env), cs[i].left, p, env);
  }

  // ----- Without an address the place does not pass along -----

  lemma RerunLosesNothing(s: RunScope, env: Setting)
    requires s.skipped == []
    ensures NothingLost(s, s, env)
  {
    hide KeepsCount;
    var none: seq<Loss> := [];
    assert SettingsLost(s.config, s.config, env) == none;
  }

  /** One complete rerun: the run of that name is replaced and gone. */
  lemma Replaced(d: Disk, c: Collection, env: Setting)
    requires c.name in d.named && !c.keep && c.archived && SettleRun(c.exit, c.cutShort).1 && MayReplace(d.named[c.name], c.left, env)
    ensures Collect(d, c, env) == Disk(d.named[c.name := c.left], d.aside)
  {}

  lemma ReplacedOnce(a: Collection, b: Collection, env: Setting)
    requires a.name == b.name && !b.keep && b.archived && SettleRun(b.exit, b.cutShort).1 && MayReplace(a.left, b.left, env)
    ensures History([a, b], env) == Disk(map[a.name := b.left], {})
  {
    hide MayReplace, SettleRun;
    assert [a, b][..1] == [a] && [a][..0] == [];
    var none, one := History([a][..0], env), History([a], env);
    assert none == Disk(map[], {});
    assert one == Collect(none, a, env) == Disk(map[a.name := a.left], {});
    Replaced(one, b, env);
    assert one.named[a.name := b.left] == map[a.name := b.left];
  }

  /** Three complete collections under one name, each of which may replace the one before. */
  lemma ReplacedTwice(a: Collection, b: Collection, c: Collection, env: Setting)
    requires a.name == b.name == c.name && !b.keep && !c.keep && b.archived && c.archived
    requires SettleRun(b.exit, b.cutShort).1 && SettleRun(c.exit, c.cutShort).1
    requires MayReplace(a.left, b.left, env) && MayReplace(b.left, c.left, env)
    ensures History([a, b, c], env) == Disk(map[a.name := c.left], {})
  {
    hide MayReplace, SettleRun;
    assert [a, b, c][..2] == [a, b];
    ReplacedOnce(a, b, env);
    var two := History([a, b], env);
    Replaced(two, c, env);
    assert two.named[a.name := c.left] == map[a.name := c.left];
  }

  function OneRun(address: string): Collection {
    Collection("SALES", false,
               Stored(RunScope(map[], "", ["SALESDB"], [Unit("010", "SALESDB")], [], []), true, Server(Some("SALES"), Some(address), None)),
               0, false, true)
  }

  /** Two servers of one name, told apart by their addresses, and between their runs one whose
      address was withheld: only the last server's run is left. */
  lemma WithheldAddressLosesAServer(env: Setting)
    requires !SameAddress("SQL01", "SQL02", env.texts)
    ensures History([OneRun("SQL01"), OneRun(""), OneRun("SQL02")], env) == Disk(map["SALES" := OneRun("SQL02").left], {})
    ensures OtherServer(OneRun("SQL01").left.server, OneRun("SQL02").left.server, env.texts) == OtherPlace
  {
    hide NothingLost;
    WithheldAddressPasses(env.texts);
    RerunLosesNothing(OneRun("").left.scope, env);
    ReplacedTwice(OneRun("SQL01"), OneRun(""), OneRun("SQL02"), env);
  }

  // ----- Results that could not read all of their database -----

  /** A run, and the areas its documents say they could not read: its manifest counts them and
      the comparison does not ask. */
  datatype Documents = Documents(run: Stored, unread: map<Unit, set<string>>)

  predicate Whole(d: Documents, u: Unit) { u in d.run.scope.results && (u in d.unread ==> d.unread[u] == {}) }

  /** What `prev` read whole, `cur` read whole, on the target or on the whole instance. */
  ghost predicate KeepsWhole(prev: Documents, cur: Documents) {
    forall u :: Whole(prev, u) && u.script != "" ==> Whole(cur, u) || Whole(cur, Unit(u.script, ""))
  }

  /** The documents with an area that could not be read, as the manifest counts them. */
  ghost function InPart(d: Documents): set<Unit> { set u | u in d.run.scope.results && !Whole(d, u) }

  function Units(s: RunScope): set<Unit> { set u | u in s.results }

  /** A collector runs on databases or once for the instance, never both. */
  ghost predicate OneScope(s: RunScope) { forall u :: u in s.results && u.target != "" ==> Unit(u.script, "") !in s.results }

  /** Whatever areas the documents of two such runs report, so many of the later run's in part. */
  ghost predicate AlwaysWhole(prev: Stored, cur: Stored, count: nat) {
    forall p: Documents, c: Documents :: p.run == prev && c.run == cur && |InPart(c)| == count ==> KeepsWhole(p, c)
  }

  lemma WholeUnlessInPart(prev: Documents, cur: Documents)
    requires forall u :: u in prev.run.scope.results && u.script != "" ==> Holds(cur.run.scope, u)
    requires InPart(cur) == {}
    ensures KeepsWhole(prev, cur)
  {
    hide Whole;
    forall u | Whole(prev, u) && u.script != "" ensures Whole(cur, u) || Whole(cur, Unit(u.script, "")) {
      WholeIsResult(prev, u);
      assert u !in InPart(cur) && Unit(u.script, "") !in InPart(cur);
    }
  }

  lemma WholeIsResult(d: Documents, u: Unit)
    requires Whole(d, u)
    ensures u in d.run.scope.results
  {}

  lemma {:induction false} SomeOf(all: set<Unit>, u: Unit, n: nat) returns (some: set<Unit>)
    requires u in all && 0 < n <= |all|
    ensures u in some && some <= all && |some| == n
    decreases |all|
  {
    if n == |all| {
      some := all;
    } else {
      assert |all - {u}| == |all| - 1;
      var v :| v in all - {u};
      some := SomeOf(all - {v}, u, n);
    }
  }

  /** Documents in part are these, and the others are whole. */
  lemma PartOf(run: Stored, some: set<Unit>) returns (d: Documents)
    requires forall u :: u in some ==> u in run.scope.results
    ensures d.run == run && InPart(d) == some && forall u :: u in run.scope.results ==> (Whole(d, u) <==> u !in some)
  {
    d := Documents(run, map u | u in some :: {"area"});
    assert "area" in {"area"};
  }

  /** Through the gate: whatever the documents report, whole results stay whole exactly when the
      count that the later manifest has of documents in part is 0. */
  lemma GateKeepsWholeExactly(prev: Stored, cur: Stored, count: nat, p: Practice, env: Setting)
    requires MayReplace(prev, cur, env) && cur.scope.errors == []
    requires ObeysInclude(prev.scope, p.narrowed, p.matches) && ObeysInclude(cur.scope, p.narrowed, p.matches)
    requires OneScope(cur.scope) && count <= |Units(cur.scope)|
    requires exists u :: u in prev.scope.results && u.script != ""
    ensures AlwaysWhole(prev, cur, count) <==> count == 0
  {
    hide NothingLost, ObeysInclude, Whole, InPart, KeepsWhole;
    GateSound(prev.scope, cur.scope, p.narrowed, p.matches, env);
    if count == 0 {
      forall a: Documents, b: Documents | a.run == prev && b.run == cur && |InPart(b)| == 0 ensures KeepsWhole(a, b) {
        WholeUnlessInPart(a, b);
      }
    } else {
      var u :| u in prev.scope.results && u.script != "";
      assert Holds(cur.scope, u);
      var held := if u in cur.scope.results then u else Unit(u.script, "");
      var some := SomeOf(Units(cur.scope), held, count);
      var a := PartOf(prev, {});
      var b := PartOf(cur, some);
      NotKept(a, b, u, held);
    }
  }

  lemma NotKept(prev: Documents, cur: Documents, u: Unit, held: Unit)
    requires Whole(prev, u) && u.script != "" && OneScope(cur.run.scope)
    requires held in cur.run.scope.results && !Whole(cur, held) && held == if u in cur.run.scope.results then u else Unit(u.script, "")
    ensures !KeepsWhole(prev, cur)
  {}

  /** Two complete runs of one server: in the second a lock kept an area of the only document
      from being read. It exits 0, and the whole document is gone. */
  lemma PartReplacesTheWhole(area: string, env: Setting)
    ensures var run := OneRun("SQL01");
      && History([run, run], env) == Disk(map["SALES" := run.left], {})
      && !KeepsWhole(Documents(run.left, map[]), Documents(run.left, map[Unit("010", "SALESDB") := {area}]))
  {
    hide NothingLost;
    var run := OneRun("SQL01");
    RerunLosesNothing(run.left.scope, env);
    ReplacedOnce(run, run, env);
    assert Whole(Documents(run.left, map[]), Unit("010", "SALESDB"));
    assert area in {area};
  }

  // ----- A window that slips between three runs -----

  const WINDOW_KEYS := {"query_store_days", "query_store_from", "query_store_to", "query_store_from_requested", "query_store_to_requested"}

  lemma OnlyWindowKeys(r: Request)
    ensures Recorded(r).Keys <= WINDOW_KEYS
  {}

  /** Two records that differ in a window the later one keeps lose nothing by the comparison. */
  lemma KeptWindowLosesNothing(a: RunScope, b: RunScope, r: Request, q: Request, env: Setting)
    requires a.config == Recorded(r) && b == a.(config := Recorded(q)) && a.skipped == [] && Keeps(r, q, env)
    requires forall n :: n in env.optIns || n in env.optOuts ==> n !in WINDOW_KEYS
    ensures NothingLost(a, b, env)
  {
    hide Recorded, ResolveWindow;
    OnlyWindowKeys(r);
    OnlyWindowKeys(q);
    var none: seq<Loss> := [];
    assert SettingsLost(a.config, b.config, env) == none;
  }

  /** A run of one server over one database, with this window. */
  function Windowed(r: Request): Collection {
    Collection("SALES", false,
               Stored(RunScope(Recorded(r), "", ["SALESDB"], [Unit("021", "SALESDB")], [], []), true, Server(Some("SALES"), Some("SQL01"), None)),
               0, false, true)
  }

  /** Three complete runs of one day, each of which keeps the window of the one before: the last
      is all that is left, and the first window's beginning is in it no longer. */
  lemma WindowLostInAHistory(z: Zone, from: string, env: Setting)
    requires Bound(z, from) && Reads(env, z)
    requires forall n :: n in env.optIns || n in env.optOuts ==> n !in WINDOW_KEYS
    ensures var (a, b, c) := FirstMinuteLost(z, from);
      && History([Windowed(a), Windowed(b), Windowed(c)], env) == Disk(map["SALES" := Windowed(c).left], {})
      && !Keeps(a, c, env)
  {
    hide NothingLost, Recorded, Keeps, Reads, Bound;
    var (a, b, c) := FirstMinuteLost(z, from);
    FirstMinuteIsLost(z, from, env);
    var rs := [a, b, c];
    assert Keeps(rs[0], rs[1], env) && Keeps(rs[1], rs[2], env);
    KeptWindowLosesNothing(Windowed(a).left.scope, Windowed(b).left.scope, a, b, env);
    KeptWindowLosesNothing(Windowed(b).left.scope, Windowed(c).left.scope, b, c, env);
    ReplacedTwice(Windowed(a), Windowed(b), Windowed(c), env);
  }
}
