/**
 What a rerun must have collected before the run it replaced may be deleted: scopeLost and the
 functions under it in collect/collect.go.
 */
module Scope {
  import opened Options
  import Target

  /** One collector on one target; the target is empty for an instance collector. */
  datatype Unit = Unit(script: string, target: string)

  /** Why a planned unit was not run. The source tells them apart by comparing sentences, each
      built in one place. */
  datatype Reason =
    | NotInProfile(profile: string)
    | FlagOff(flag: string)
    | OptedOut(flag: string)
    | NotInQueryStoreInclude
    | DroppedDuringRun
    | HeldBack(collector: string)
    | MaxDurationReached
    | Other(text: string)

  datatype Skip = Skip(script: string, target: string, reason: Reason)

  /** What a run set out to collect, as its manifest records it. */
  datatype RunScope = RunScope(config: map<string, string>, profile: string, databases: seq<string>,
                               results: seq<Unit>, errors: seq<Unit>, skipped: seq<Skip>)

  /** The closed vocabularies of options, and how numbers, instants and names are read from a
      manifest. */
  datatype Setting = Setting(optIns: seq<string>, optOuts: seq<string>,
                             count: string -> Option<int>, instant: string -> Option<int>, texts: Target.Texts)

  function Get(config: map<string, string>, key: string): string { if key in config then config[key] else "" }

  predicate On(s: RunScope, flag: string) { Get(s.config, flag) == "true" }

  const INCLUDE := "query_store_db_include"

  // ----- Settings with a value -----

  predicate CountLost(prev: string, cur: string, env: Setting) {
    env.count(prev).Some? && (env.count(cur).None? || env.count(cur).value < env.count(prev).value)
  }

  predicate Sliding(c: map<string, string>) {
    Get(c, "query_store_from_requested") == "" && Get(c, "query_store_to_requested") == ""
  }

  predicate WindowLost(prev: map<string, string>, cur: map<string, string>, env: Setting) {
    var pFrom, pTo := env.instant(Get(prev, "query_store_from")), env.instant(Get(prev, "query_store_to"));
    var cFrom, cTo := env.instant(Get(cur, "query_store_from")), env.instant(Get(cur, "query_store_to"));
    && pFrom.Some? && pTo.Some?
    && (if Sliding(prev) && Sliding(cur) then CountLost(Get(prev, "query_store_days"), Get(cur, "query_store_days"), env)
        else cFrom.None? || cTo.None? || cFrom.value > pFrom.value || cTo.value < pTo.value)
  }

  predicate IncludeLost(prev: map<string, string>, cur: map<string, string>) {
    Get(cur, INCLUDE) != "" && Get(prev, INCLUDE) != Get(cur, INCLUDE)
  }

  predicate CompareLost(prev: map<string, string>, cur: map<string, string>) {
    Get(prev, "query_store_compare_at") != "" && Get(cur, "query_store_compare_at") != Get(prev, "query_store_compare_at")
  }

  datatype Loss =
    | LostOption(flag: string)
    | LostByOptOut(flag: string)
    | LostProfile(profile: string)
    | LostInclude(patterns: string)
    | LostTop(top: string)
    | LostWindow(from: string, to: string)
    | LostCompare(at: string)
    | LostDatabase(name: string, dropped: bool)

  function SettingsLost(prev: map<string, string>, cur: map<string, string>, env: Setting): seq<Loss> {
    (if IncludeLost(prev, cur) then [LostInclude(Get(cur, INCLUDE))] else [])
    + (if CountLost(Get(prev, "query_store_top"), Get(cur, "query_store_top"), env)
       then [LostTop(Get(cur, "query_store_top"))] else [])
    + (if WindowLost(prev, cur, env) then [LostWindow(Get(prev, "query_store_from"), Get(prev, "query_store_to"))] else [])
    + (if CompareLost(prev, cur) then [LostCompare(Get(prev, "query_store_compare_at"))] else [])
  }

  // ----- Collectors -----

  /** The run has an outcome for the unit, or one for the collector on the whole instance. */
  predicate Ran(s: RunScope, u: Unit) { u in s.results || u in s.errors }

  predicate RanWhole(s: RunScope, script: string) { Ran(s, Unit(script, "")) }

  function LastReason(skipped: seq<Skip>, script: string, target: string): Option<Reason> {
    if skipped == [] then None
    else
      var last := skipped[|skipped| - 1];
      if last.script == script && last.target == target then Some(last.reason)
      else LastReason(skipped[..|skipped| - 1], script, target)
  }

  /** The reason recorded for the unit, or for its collector on every target. */
  function SkipOf(s: RunScope, u: Unit): Option<Reason> {
    var own := LastReason(s.skipped, u.script, u.target);
    if own.Some? then own else LastReason(s.skipped, u.script, "")
  }

  /** Whether a skip in `cur` of a unit `prev` had a result for loses that result, rather than
      restating a narrowing already named. */
  predicate SkipLoses(reason: Reason, prev: RunScope, cur: RunScope, env: Setting) {
    if cur.profile != "" && reason == NotInProfile(cur.profile) then prev.profile == cur.profile
    else match reason
      case NotInQueryStoreInclude => false
      case FlagOff(n) => n in env.optIns ==> !(On(prev, n) && !On(cur, n))
      case OptedOut(n) => n in env.optOuts ==> !(!On(prev, n) && On(cur, n))
      case _ => true
  }

  /** A unit `prev` ran that `cur` neither ran nor set aside for a reason named elsewhere. */
  predicate UnitLost(prev: RunScope, cur: RunScope, gone: set<string>, u: Unit, env: Setting) {
    && u.script != "" && !Ran(cur, u) && !RanWhole(cur, u.script) && u.target !in gone
    && match SkipOf(cur, u)
       case None => u in prev.results || u in prev.errors
       case Some(r) => u in prev.results && SkipLoses(r, prev, cur, env)
  }

  /** One line of the report: a collector lost for one reason. */
  datatype Line = Line(script: string, reason: Option<Reason>)

  function LineOf(cur: RunScope, u: Unit): Line { Line(u.script, SkipOf(cur, u)) }

  /** The lines name the lost units of `seen`, and nothing else. */
  ghost predicate Names(lines: map<Line, seq<string>>, prev: RunScope, cur: RunScope, gone: set<string>,
                        seen: set<Unit>, env: Setting) {
    && (forall u :: u in seen && UnitLost(prev, cur, gone, u, env) ==>
          LineOf(cur, u) in lines && (u.target != "" ==> u.target in lines[LineOf(cur, u)]))
    && (forall l :: l in lines ==> exists u :: u in seen && UnitLost(prev, cur, gone, u, env) && LineOf(cur, u) == l)
    && (forall l, t :: l in lines && t in lines[l] ==>
          Unit(l.script, t) in seen && UnitLost(prev, cur, gone, Unit(l.script, t), env)
          && LineOf(cur, Unit(l.script, t)) == l && t != "")
  }

  function AddTarget(lines: map<Line, seq<string>>, l: Line, target: string): map<Line, seq<string>> {
    var dbs := if l in lines then lines[l] else [];
    lines[l := if target != "" then dbs + [target] else dbs]
  }

  lemma NamesMore(lines: map<Line, seq<string>>, prev: RunScope, cur: RunScope, gone: set<string>,
                  seen: set<Unit>, u: Unit, env: Setting, more: map<Line, seq<string>>)
    requires Names(lines, prev, cur, gone, seen, env)
    requires more == if UnitLost(prev, cur, gone, u, env) then AddTarget(lines, LineOf(cur, u), u.target) else lines
    ensures Names(more, prev, cur, gone, seen + {u}, env)
  {
    hide UnitLost, SkipOf;
    forall l | l in more ensures exists v :: v in seen + {u} && UnitLost(prev, cur, gone, v, env) && LineOf(cur, v) == l {
      if l in lines {
        var v :| v in seen && UnitLost(prev, cur, gone, v, env) && LineOf(cur, v) == l;
        assert v in seen + {u};
      } else {
        assert u in seen + {u};
      }
    }
  }

  function ReasonMap(skipped: seq<Skip>): (m: map<Unit, Reason>)
    ensures forall u :: u in m <==> LastReason(skipped, u.script, u.target).Some?
    ensures forall u :: u in m ==> LastReason(skipped, u.script, u.target) == Some(m[u])
  {
    if skipped == [] then map[]
    else
      var last := skipped[|skipped| - 1];
      ReasonMap(skipped[..|skipped| - 1])[Unit(last.script, last.target) := last.reason]
  }

  /** collectorsLost: the report of the collectors `cur` lost, one line per collector and reason
      with the databases it was lost on. */
  method CollectorsLost(prev: RunScope, cur: RunScope, gone: set<string>, env: Setting) returns (missing: map<Line, seq<string>>)
    ensures Names(missing, prev, cur, gone, (set u | u in prev.results) + (set u | u in prev.errors), env)
  {
    hide LastReason, SkipLoses, UnitLost, Names, SkipOf;
    var ran := (set u | u in cur.results) + (set u | u in cur.errors);
    var skipped := ReasonMap(cur.skipped);
    missing := map[];
    var seen: set<Unit> := {};
    var list := prev.results + prev.errors;
    ghost var judged: set<Unit> := {};
    assert Names(missing, prev, cur, gone, judged, env) by { NamesNothing(prev, cur, gone, env); }
    for i := 0 to |list|
      invariant judged == (set u | u in list[..i])
      invariant forall u :: u in judged && !PassedOver(cur, gone, u) ==> u in seen
      invariant seen <= judged
      invariant Names(missing, prev, cur, gone, judged, env)
    {
      var u, produced := list[i], i < |prev.results|;
      assert list[..i + 1] == list[..i] + [u];
      if u.script == "" || u in seen || u in ran || Unit(u.script, "") in ran || u.target in gone {
        if u !in seen { PassedOverIsKept(prev, cur, gone, u, env); }
        AlreadyJudged(missing, prev, cur, gone, judged, u, env);
        judged := judged + {u};
        continue;
      }
      ResultComesFirst(list, prev, i);
      seen := seen + {u};
      var reason := ReasonIn(skipped, u);
      ReasonInIsSkipOf(cur, u);
      WhenLost(prev, cur, gone, u, env);
      ghost var before := missing;
      if reason.None? || (produced && SkipLoses(reason.value, prev, cur, env)) {
        var line := Line(u.script, reason);
        var dbs := if line in missing then missing[line] else [];
        if u.target != "" {
          dbs := dbs + [u.target];
        }
        missing := missing[line := dbs];
      }
      NamesMore(before, prev, cur, gone, judged, u, env, missing);
      judged := judged + {u};
    }
    assert list[..|list|] == list;
    assert judged == (set u | u in prev.results) + (set u | u in prev.errors);
  }

  /** Looked up by unit first, then by collector. */
  function ReasonIn(skipped: map<Unit, Reason>, u: Unit): Option<Reason> {
    if u in skipped then Some(skipped[u])
    else if Unit(u.script, "") in skipped then Some(skipped[Unit(u.script, "")])
    else None
  }

  lemma ReasonInIsSkipOf(s: RunScope, u: Unit)
    ensures ReasonIn(ReasonMap(s.skipped), u) == SkipOf(s, u)
  {
    hide LastReason;
  }

  predicate PassedOver(cur: RunScope, gone: set<string>, u: Unit) {
    u.script == "" || Ran(cur, u) || RanWhole(cur, u.script) || u.target in gone
  }

  lemma PassedOverIsKept(prev: RunScope, cur: RunScope, gone: set<string>, u: Unit, env: Setting)
    requires PassedOver(cur, gone, u)
    ensures !UnitLost(prev, cur, gone, u, env)
  {}

  lemma WhenLost(prev: RunScope, cur: RunScope, gone: set<string>, u: Unit, env: Setting)
    requires !PassedOver(cur, gone, u) && (u in prev.results || u in prev.errors)
    ensures UnitLost(prev, cur, gone, u, env) <==>
      SkipOf(cur, u).None? || (u in prev.results && SkipLoses(SkipOf(cur, u).value, prev, cur, env))
  {}

  lemma NamesNothing(prev: RunScope, cur: RunScope, gone: set<string>, env: Setting)
    ensures Names(map[], prev, cur, gone, {}, env)
  {}

  lemma AlreadyJudged(lines: map<Line, seq<string>>, prev: RunScope, cur: RunScope, gone: set<string>,
                      judged: set<Unit>, u: Unit, env: Setting)
    requires Names(lines, prev, cur, gone, judged, env)
    requires UnitLost(prev, cur, gone, u, env) ==> u in judged
    ensures Names(lines, prev, cur, gone, judged + {u}, env)
  {
    hide UnitLost, LineOf;
    forall l | l in lines ensures exists v :: v in judged + {u} && UnitLost(prev, cur, gone, v, env) && LineOf(cur, v) == l {
      var v :| v in judged && UnitLost(prev, cur, gone, v, env) && LineOf(cur, v) == l;
      assert v in judged + {u};
    }
  }

  /** Results are judged first: a unit met for the first time among the errors has no result. */
  lemma ResultComesFirst(list: seq<Unit>, prev: RunScope, i: nat)
    requires list == prev.results + prev.errors && i < |list|
    requires list[i] !in list[..i]
    ensures list[i] in prev.results <==> i < |prev.results|
    ensures list[i] in prev.results || list[i] in prev.errors
  {
    assert i >= |prev.results| ==> prev.results == list[..i][..|prev.results|];
    assert i >= |prev.results| ==> list[i] == prev.errors[i - |prev.results|];
  }

  // ----- The whole comparison -----

  predicate Read(s: RunScope, db: string) { db in s.databases }

  predicate Dropped(s: RunScope, db: string) {
    exists k :: 0 <= k < |s.skipped| && s.skipped[k].reason == DroppedDuringRun && s.skipped[k].target == db
  }

  /** The databases of the earlier run that this one did not read, or lost on the way. */
  predicate Gone(prev: RunScope, cur: RunScope, db: string) {
    db in prev.databases && (!Read(cur, db) || Dropped(cur, db))
  }

  /** Everything scopeLost names, apart from the collectors. */
  predicate IsLoss(l: Loss, prev: RunScope, cur: RunScope, env: Setting) {
    match l
    case LostOption(n) => n in env.optIns && On(prev, n) && !On(cur, n)
    case LostByOptOut(n) => n in env.optOuts && !On(prev, n) && On(cur, n)
    case LostProfile(p) => p == cur.profile && cur.profile != "" && prev.profile != cur.profile
    case LostDatabase(db, dropped) => Gone(prev, cur, db) && dropped == Read(cur, db)
    case _ => l in SettingsLost(prev.config, cur.config, env)
  }

  /** scopeLost: what `prev` collected that `cur` did not. Both parts empty means `cur` covers
      `prev`, and `prev` can go. */
  method ScopeLost(prev: RunScope, cur: RunScope, env: Setting)
    returns (lost: seq<Loss>, collectors: map<Line, seq<string>>)
    ensures forall l :: l in lost <==> IsLoss(l, prev, cur, env)
    ensures Names(collectors, prev, cur, set db | db in prev.databases && Gone(prev, cur, db),
                  (set u | u in prev.results) + (set u | u in prev.errors), env)
  {
    hide SettingsLost, Names, Dropped;
    var options: seq<Loss> := [];
    for i := 0 to |env.optIns|
      invariant forall l :: l in options <==> l.LostOption? && l.flag in env.optIns[..i] && IsLoss(l, prev, cur, env)
    {
      var n := env.optIns[i];
      assert env.optIns[..i + 1] == env.optIns[..i] + [n];
      if On(prev, n) && !On(cur, n) {
        options := options + [LostOption(n)];
      }
    }
    var optOuts: seq<Loss> := [];
    for i := 0 to |env.optOuts|
      invariant forall l :: l in optOuts <==> l.LostByOptOut? && l.flag in env.optOuts[..i] && IsLoss(l, prev, cur, env)
    {
      var n := env.optOuts[i];
      assert env.optOuts[..i + 1] == env.optOuts[..i] + [n];
      if !On(prev, n) && On(cur, n) {
        optOuts := optOuts + [LostByOptOut(n)];
      }
    }
    assert env.optIns[..|env.optIns|] == env.optIns && env.optOuts[..|env.optOuts|] == env.optOuts;
    var profile := if cur.profile != "" && prev.profile != cur.profile then [LostProfile(cur.profile)] else [];
    var databases, gone := DatabasesLost(prev, cur, env);
    lost := options + optOuts + profile + SettingsLost(prev.config, cur.config, env) + databases;
    SettingsOnly(prev.config, cur.config, env);
    collectors := CollectorsLost(prev, cur, gone, env);
  }

  lemma SettingsOnly(prev: map<string, string>, cur: map<string, string>, env: Setting)
    ensures forall l :: l in SettingsLost(prev, cur, env) ==> l.LostInclude? || l.LostTop? || l.LostWindow? || l.LostCompare?
  {
    hide IncludeLost, CountLost, WindowLost, CompareLost;
  }

  method DatabasesLost(prev: RunScope, cur: RunScope, env: Setting) returns (lost: seq<Loss>, gone: set<string>)
    ensures forall l :: l in lost <==> l.LostDatabase? && IsLoss(l, prev, cur, env)
    ensures gone == set db | db in prev.databases && Gone(prev, cur, db)
  {
    var read := set db | db in cur.databases;
    var dropped: set<string> := {};
    for i := 0 to |cur.skipped|
      invariant forall db :: db in dropped <==>
        exists k :: 0 <= k < i && cur.skipped[k].reason == DroppedDuringRun && cur.skipped[k].target == db
    {
      if cur.skipped[i].reason == DroppedDuringRun {
        dropped := dropped + {cur.skipped[i].target};
      }
    }
    assert forall db :: db in dropped <==> Dropped(cur, db);
    hide Dropped;
    lost, gone := [], {};
    for i := 0 to |prev.databases|
      invariant forall l :: l in lost <==> l.LostDatabase? && l.name in prev.databases[..i] && IsLoss(l, prev, cur, env)
      invariant gone == set db | db in prev.databases[..i] && Gone(prev, cur, db)
    {
      var db := prev.databases[i];
      assert prev.databases[..i + 1] == prev.databases[..i] + [db];
      if db !in read {
        gone := gone + {db};
        lost := lost + [LostDatabase(db, false)];
      } else if db in dropped {
        gone := gone + {db};
        lost := lost + [LostDatabase(db, true)];
      }
    }
    assert prev.databases[..|prev.databases|] == prev.databases;
  }
}
