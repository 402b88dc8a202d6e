/**
 The plan of a run: which collector runs on which database, in which order, and how long it can
 take. planUnits and eligibleFolders of collect/observer.go, queryStoreUnits of
 collect/collect.go, PlannedDuration of collect/duration.go.
 */
module Plan {
  import opened Options
  import opened Scope
  import Superseded

  datatype Script = Script(path: string, perDatabase: bool, timeoutSec: int, requiresFlag: string, widened: string,
                           writer: string, lintError: string)

  /** A script and the decision already taken about it: a reason to skip it, or none. */
  datatype Planned = Planned(script: Script, skip: Option<Reason>)

  /** A selected database. `purpose` is empty unless the selection brought it back in for one. */
  datatype Folder = Folder(name: string, purpose: string)

  const NO_FOLDER := Folder("", "")

  datatype PlanUnit = PlanUnit(script: Script, target: Folder)

  datatype Config = Config(pattern: string, matches: (string, string) -> bool, costFlags: set<string>,
                           compareFlag: string, queryTimeout: nat)

  // ----- Which databases -----

  predicate Eligible(f: Folder, widened: string) { f.purpose == "" || f.purpose == widened }

  function Filter<T(!new)>(xs: seq<T>, keep: T -> bool): (r: seq<T>)
    ensures forall x :: x in r <==> x in xs && keep(x)
  {
    if xs == [] then []
    else
      var last := xs[|xs| - 1];
      var r := Filter(xs[..|xs| - 1], keep);
      assert xs == xs[..|xs| - 1] + [last];
      if keep(last) then r + [last] else r
  }

  lemma {:induction false} FilterAll<T(!new)>(xs: seq<T>, keep: T -> bool)
    requires forall x :: x in xs ==> keep(x)
    ensures Filter(xs, keep) == xs
  {
    if xs != [] {
      assert forall x :: x in xs[..|xs| - 1] ==> x in xs;
      FilterAll(xs[..|xs| - 1], keep);
      assert xs == xs[..|xs| - 1] + [xs[|xs| - 1]];
    }
  }

  function EligibleFor(widened: string): Folder -> bool { f => Eligible(f, widened) }

  function EligibleFolders(folders: seq<Folder>, widened: string): seq<Folder> {
    Filter(folders, EligibleFor(widened))
  }

  /** eligibleFolders: the caller's own list when nothing was widened, and a filtered one otherwise. */
  method OfferedFolders(folders: seq<Folder>, widened: string) returns (r: seq<Folder>)
    ensures r == EligibleFolders(folders, widened)
  {
    var widenedAny := false;
    var i := 0;
    while i < |folders| && !widenedAny
      invariant 0 <= i <= |folders|
      invariant !widenedAny ==> forall k :: 0 <= k < i ==> folders[k].purpose == ""
    {
      if folders[i].purpose != "" {
        widenedAny := true;
      }
      i := i + 1;
    }
    if !widenedAny {
      FilterAll(folders, EligibleFor(widened));
      return folders;
    }
    r := [];
    for k := 0 to |folders|
      invariant r == EligibleFolders(folders[..k], widened)
    {
      assert folders[..k + 1][..k] == folders[..k];
      if folders[k].purpose == "" || folders[k].purpose == widened {
        r := r + [folders[k]];
      }
    }
    assert folders[..|folders|] == folders;
  }

  /** The scripts QUERY_STORE_DB_INCLUDE narrows. */
  predicate Narrows(s: Script, cfg: Config) { s.writer != "" || s.requiresFlag == cfg.compareFlag }

  predicate Kept(s: Script, cfg: Config, f: Folder) {
    !Narrows(s, cfg) || cfg.pattern == "" || cfg.matches(cfg.pattern, f.name)
  }

  function KeptBy(s: Script, cfg: Config): Folder -> bool { f => Kept(s, cfg, f) }

  function DroppedBy(s: Script, cfg: Config): Folder -> bool { f => !Kept(s, cfg, f) }

  function Targets(s: Script, folders: seq<Folder>, cfg: Config): seq<Folder> {
    if s.perDatabase then Filter(EligibleFolders(folders, s.widened), KeptBy(s, cfg)) else [NO_FOLDER]
  }

  function Dropped(s: Script, folders: seq<Folder>, cfg: Config): seq<Folder> {
    if s.perDatabase then Filter(EligibleFolders(folders, s.widened), DroppedBy(s, cfg)) else []
  }

  function SkipFor(s: Script, f: Folder): Skip { Skip(s.path, f.name, NotInQueryStoreInclude) }

  function Map<T, U>(xs: seq<T>, f: T -> U): (r: seq<U>)
    ensures |r| == |xs| && forall k :: 0 <= k < |xs| ==> r[k] == f(xs[k])
  {
    seq(|xs|, k requires 0 <= k < |xs| => f(xs[k]))
  }

  /** queryStoreUnits: the databases the pattern list keeps, and a skip naming each it removes. */
  method QueryStoreUnits(cfg: Config, s: Script, folders: seq<Folder>) returns (kept: seq<Folder>, skipped: seq<Skip>)
    ensures kept == Filter(folders, KeptBy(s, cfg))
    ensures skipped == Map(Filter(folders, DroppedBy(s, cfg)), f => SkipFor(s, f))
  {
    if (s.writer == "" && s.requiresFlag != cfg.compareFlag) || cfg.pattern == "" {
      FilterAll(folders, KeptBy(s, cfg));
      FilterNone(folders, DroppedBy(s, cfg));
      return folders, [];
    }
    kept, skipped := [], [];
    for k := 0 to |folders|
      invariant kept == Filter(folders[..k], KeptBy(s, cfg))
      invariant skipped == Map(Filter(folders[..k], DroppedBy(s, cfg)), f => SkipFor(s, f))
    {
      assert folders[..k + 1][..k] == folders[..k];
      if cfg.matches(cfg.pattern, folders[k].name) {
        kept := kept + [folders[k]];
      } else {
        skipped := skipped + [Skip(s.path, folders[k].name, NotInQueryStoreInclude)];
      }
    }
    assert folders[..|folders|] == folders;
  }

  lemma {:induction false} FilterNone<T(!new)>(xs: seq<T>, keep: T -> bool)
    requires forall x :: x in xs ==> !keep(x)
    ensures Filter(xs, keep) == []
  {
    if xs != [] {
      assert forall x :: x in xs[..|xs| - 1] ==> x in xs;
      assert xs[|xs| - 1] in xs;
      FilterNone(xs[..|xs| - 1], keep);
    }
  }

  // ----- The plan unfolded -----

  predicate Runs(p: Planned) { p.script.lintError == "" && p.skip.None? }

  function UnitsOf(p: Planned, folders: seq<Folder>, cfg: Config): seq<PlanUnit> {
    if Runs(p) then Map(Targets(p.script, folders, cfg), t => PlanUnit(p.script, t)) else []
  }

  function SkipsOf(p: Planned, folders: seq<Folder>, cfg: Config): seq<Skip> {
    if p.script.lintError != "" then []
    else if p.skip.Some? then [Skip(p.script.path, "", p.skip.value)]
    else Map(Dropped(p.script, folders, cfg), f => SkipFor(p.script, f))
  }

  function InPlanOrder(plan: seq<Planned>, folders: seq<Folder>, cfg: Config): seq<PlanUnit> {
    if plan == [] then [] else InPlanOrder(plan[..|plan| - 1], folders, cfg) + UnitsOf(plan[|plan| - 1], folders, cfg)
  }

  function PlanSkips(plan: seq<Planned>, folders: seq<Folder>, cfg: Config): seq<Skip> {
    if plan == [] then [] else PlanSkips(plan[..|plan| - 1], folders, cfg) + SkipsOf(plan[|plan| - 1], folders, cfg)
  }

  function PlanErrors(plan: seq<Planned>): seq<Unit> {
    if plan == [] then []
    else PlanErrors(plan[..|plan| - 1]) +
         if plan[|plan| - 1].script.lintError != "" then [Unit(plan[|plan| - 1].script.path, "")] else []
  }

  predicate Costly(u: PlanUnit, cfg: Config) { u.script.requiresFlag in cfg.costFlags }

  function CostlyIn(cfg: Config): PlanUnit -> bool { u => Costly(u, cfg) }

  function CheapIn(cfg: Config): PlanUnit -> bool { u => !Costly(u, cfg) }

  /** What slices.SortStableFunc promises for the comparison planUnits gives it: costly units
      last, and the order among equals unchanged. */
  ghost predicate StablySorted(sorted: seq<PlanUnit>, units: seq<PlanUnit>, cfg: Config) {
    && (forall i, j :: 0 <= i < j < |sorted| && Costly(sorted[i], cfg) ==> Costly(sorted[j], cfg))
    && Filter(sorted, CheapIn(cfg)) == Filter(units, CheapIn(cfg))
    && Filter(sorted, CostlyIn(cfg)) == Filter(units, CostlyIn(cfg))
  }

  /** The order of the run: everything that is not costly, then everything that is. */
  function CostlyLast(units: seq<PlanUnit>, cfg: Config): seq<PlanUnit> {
    Filter(units, CheapIn(cfg)) + Filter(units, CostlyIn(cfg))
  }

  lemma {:induction false} FilterConcat<T(!new)>(a: seq<T>, b: seq<T>, keep: T -> bool)
    ensures Filter(a + b, keep) == Filter(a, keep) + Filter(b, keep)
  {
    if b == [] {
      assert a + b == a;
    } else {
      FilterConcat(a, b[..|b| - 1], keep);
      assert (a + b)[..|a + b| - 1] == a + b[..|b| - 1];
    }
  }

  /** Any stable sort is that split, so the order is the only one there is. */
  lemma {:induction false} StableSortIsTheSplit(sorted: seq<PlanUnit>, units: seq<PlanUnit>, cfg: Config)
    requires StablySorted(sorted, units, cfg)
    ensures sorted == CostlyLast(units, cfg)
  {
    hide Filter, Costly;
    var n := FirstCostly(sorted, cfg);
    var a, b := sorted[..n], sorted[n..];
    assert sorted == a + b;
    assert forall u :: u in b ==> exists k :: n <= k < |sorted| && sorted[k] == u;
    assert forall u :: u in a ==> exists k :: 0 <= k < n && sorted[k] == u;
    SegmentsFilter(a, b, cfg);
  }

  /** The filters of a cheap segment followed by a costly one are the segments. */
  lemma SegmentsFilter(a: seq<PlanUnit>, b: seq<PlanUnit>, cfg: Config)
    requires (forall u :: u in a ==> !Costly(u, cfg)) && (forall u :: u in b ==> Costly(u, cfg))
    ensures Filter(a + b, CheapIn(cfg)) == a && Filter(a + b, CostlyIn(cfg)) == b
  {
    hide Filter, Costly;
    FilterConcat(a, b, CheapIn(cfg));
    FilterConcat(a, b, CostlyIn(cfg));
    FilterAll(a, CheapIn(cfg));
    FilterNone(b, CheapIn(cfg));
    FilterNone(a, CostlyIn(cfg));
    FilterAll(b, CostlyIn(cfg));
  }

  function FirstCostly(units: seq<PlanUnit>, cfg: Config): (n: nat)
    ensures n <= |units| && (forall k :: 0 <= k < n ==> !Costly(units[k], cfg)) && (n < |units| ==> Costly(units[n], cfg))
  {
    if units == [] then 0
    else
      var n := FirstCostly(units[..|units| - 1], cfg);
      if n < |units| - 1 then n else if Costly(units[|units| - 1], cfg) then n else n + 1
  }

  lemma SplitIsStable(units: seq<PlanUnit>, cfg: Config)
    ensures StablySorted(CostlyLast(units, cfg), units, cfg)
  {
    hide Filter, Costly;
    var a, b := Filter(units, CheapIn(cfg)), Filter(units, CostlyIn(cfg));
    SegmentsFilter(a, b, cfg);
    assert forall k :: 0 <= k < |a| ==> a[k] in a;
    assert forall k :: 0 <= k < |b| ==> b[k] in b;
  }

  /** A stable sort by that comparison. */
  method SortCostlyLast(units: seq<PlanUnit>, cfg: Config) returns (sorted: seq<PlanUnit>)
    ensures StablySorted(sorted, units, cfg)
  {
    var first, last := [], [];
    for k := 0 to |units|
      invariant first == Filter(units[..k], CheapIn(cfg))
      invariant last == Filter(units[..k], CostlyIn(cfg))
    {
      assert units[..k + 1][..k] == units[..k];
      if Costly(units[k], cfg) {
        last := last + [units[k]];
      } else {
        first := first + [units[k]];
      }
    }
    assert units[..|units|] == units;
    sorted := first + last;
    SplitIsStable(units, cfg);
  }

  /** One runnable script of planUnits' loop: its databases, or the instance. */
  method UnfoldScript(p: Planned, folders: seq<Folder>, cfg: Config) returns (units: seq<PlanUnit>, narrowed: seq<Skip>)
    requires Runs(p)
    ensures units == UnitsOf(p, folders, cfg) && narrowed == SkipsOf(p, folders, cfg)
  {
    hide Filter;
    var s := p.script;
    var targets := [NO_FOLDER];
    narrowed := [];
    if s.perDatabase {
      var offered := OfferedFolders(folders, s.widened);
      targets, narrowed := QueryStoreUnits(cfg, s, offered);
    }
    units := [];
    for t := 0 to |targets|
      invariant units == Map(targets[..t], x => PlanUnit(s, x))
    {
      units := units + [PlanUnit(s, targets[t])];
    }
    assert targets[..|targets|] == targets;
  }

  /** planUnits: the units of the run in the order they run, the skips and the lint errors in
      plan order. */
  method PlanUnits(plan: seq<Planned>, folders: seq<Folder>, cfg: Config)
    returns (units: seq<PlanUnit>, skipped: seq<Skip>, errs: seq<Unit>)
    ensures units == CostlyLast(InPlanOrder(plan, folders, cfg), cfg)
    ensures skipped == PlanSkips(plan, folders, cfg)
    ensures errs == PlanErrors(plan)
  {
    hide CostlyLast, StablySorted, Targets, Dropped, Map;
    units, skipped, errs := [], [], [];
    for i := 0 to |plan|
      invariant units == InPlanOrder(plan[..i], folders, cfg)
      invariant skipped == PlanSkips(plan[..i], folders, cfg)
      invariant errs == PlanErrors(plan[..i])
    {
      var p := plan[i];
      assert plan[..i + 1][..i] == plan[..i];
      if p.script.lintError != "" {
        errs := errs + [Unit(p.script.path, "")];
        continue;
      }
      if p.skip.Some? {
        skipped := skipped + [Skip(p.script.path, "", p.skip.value)];
        continue;
      }
      var more, narrowed := UnfoldScript(p, folders, cfg);
      skipped := skipped + narrowed;
      units := units + more;
    }
    assert plan[..|plan|] == plan;
    ghost var inOrder := units;
    units := SortCostlyLast(units, cfg);
    StableSortIsTheSplit(units, inOrder, cfg);
  }

  // ----- What the plan promises -----

  lemma {:induction false} FilterSplits<T(!new)>(xs: seq<T>, keep: T -> bool, drop: T -> bool)
    requires forall x :: keep(x) != drop(x)
    ensures multiset(Filter(xs, keep)) + multiset(Filter(xs, drop)) == multiset(xs)
  {
    if xs != [] {
      FilterSplits(xs[..|xs| - 1], keep, drop);
      assert xs == xs[..|xs| - 1] + [xs[|xs| - 1]];
    }
  }

  /** A collector that runs on databases pairs or skips each eligible one exactly once, and
      none that was widened in for another purpose; one that does not runs exactly once. */
  lemma EveryDatabaseOnce(s: Script, folders: seq<Folder>, cfg: Config)
    ensures s.perDatabase ==>
      multiset(Targets(s, folders, cfg)) + multiset(Dropped(s, folders, cfg)) == multiset(EligibleFolders(folders, s.widened))
    ensures !s.perDatabase ==> Targets(s, folders, cfg) == [NO_FOLDER] && Dropped(s, folders, cfg) == []
    ensures s.perDatabase ==> forall f :: f in Targets(s, folders, cfg) || f in Dropped(s, folders, cfg) ==>
      f in folders && Eligible(f, s.widened)
  {
    if s.perDatabase {
      FilterSplits(EligibleFolders(folders, s.widened), KeptBy(s, cfg), DroppedBy(s, cfg));
    }
  }

  lemma {:induction false} UnitsComeFromThePlan(plan: seq<Planned>, folders: seq<Folder>, cfg: Config, u: PlanUnit)
    ensures u in InPlanOrder(plan, folders, cfg) <==>
      exists p :: p in plan && Runs(p) && p.script == u.script && u.target in Targets(p.script, folders, cfg)
  {
    hide Targets;
    if plan != [] {
      var last := plan[|plan| - 1];
      assert plan == plan[..|plan| - 1] + [last];
      UnitsComeFromThePlan(plan[..|plan| - 1], folders, cfg, u);
      UnitOfPlanned(last, folders, cfg, u);
    }
  }

  lemma UnitOfPlanned(p: Planned, folders: seq<Folder>, cfg: Config, u: PlanUnit)
    ensures u in UnitsOf(p, folders, cfg) <==> Runs(p) && p.script == u.script && u.target in Targets(p.script, folders, cfg)
  {
    hide Targets;
    if Runs(p) && p.script == u.script && u.target in Targets(p.script, folders, cfg) {
      var k :| 0 <= k < |Targets(p.script, folders, cfg)| && Targets(p.script, folders, cfg)[k] == u.target;
      assert UnitsOf(p, folders, cfg)[k] == u;
    }
  }

  /** The planned script runs, and the skip is for a database the pattern list took from it. */
  ghost predicate DropsFor(p: Planned, folders: seq<Folder>, cfg: Config, k: Skip) {
    Runs(p) && p.script.path == k.script && exists f :: f in Dropped(p.script, folders, cfg) && f.name == k.target
  }

  lemma {:induction false} SkipsComeFromThePlan(plan: seq<Planned>, folders: seq<Folder>, cfg: Config, k: Skip)
    requires k in PlanSkips(plan, folders, cfg) && k.reason == NotInQueryStoreInclude
    requires forall p :: p in plan ==> p.skip != Some(NotInQueryStoreInclude)
    ensures exists p :: p in plan && DropsFor(p, folders, cfg, k)
  {
    hide Dropped;
    if plan != [] {
      var last := plan[|plan| - 1];
      assert plan == plan[..|plan| - 1] + [last];
      if k in SkipsOf(last, folders, cfg) {
        assert last in plan && Runs(last);
        var i :| 0 <= i < |SkipsOf(last, folders, cfg)| && SkipsOf(last, folders, cfg)[i] == k;
        assert Dropped(last.script, folders, cfg)[i] in Dropped(last.script, folders, cfg);
      } else {
        SkipsComeFromThePlan(plan[..|plan| - 1], folders, cfg, k);
      }
    }
  }

  /** The hypothesis of the deletion gate, met by every run of a plan: its Query Store skips are
      of databases the pattern list does not match, and it has no result on such a database. */
  lemma PlanObeysInclude(plan: seq<Planned>, folders: seq<Folder>, cfg: Config, s: RunScope, narrowed: string -> bool)
    requires Get(s.config, INCLUDE) == cfg.pattern
    requires forall p :: p in plan ==> p.skip != Some(NotInQueryStoreInclude)
    requires forall p :: p in plan ==> narrowed(p.script.path) == (p.script.perDatabase && Narrows(p.script, cfg))
    requires forall f :: f in folders ==> f.name != ""
    requires forall r :: r in s.results ==> exists u :: u in InPlanOrder(plan, folders, cfg) && r == Unit(u.script.path, u.target.name)
    requires forall k :: k in s.skipped && k.reason == NotInQueryStoreInclude ==> k in PlanSkips(plan, folders, cfg)
    ensures Superseded.ObeysInclude(s, narrowed, cfg.matches)
  {
    hide InPlanOrder, PlanSkips;
    forall i | 0 <= i < |s.skipped| && s.skipped[i].reason == NotInQueryStoreInclude
      ensures var k := s.skipped[i]; k.target != "" && cfg.pattern != "" && narrowed(k.script) && !cfg.matches(cfg.pattern, k.target)
    {
      SkipsComeFromThePlan(plan, folders, cfg, s.skipped[i]);
    }
    forall r | r in s.results && narrowed(r.script) && cfg.pattern != "" ensures cfg.matches(cfg.pattern, r.target) {
      var u :| u in InPlanOrder(plan, folders, cfg) && r == Unit(u.script.path, u.target.name);
      UnitsComeFromThePlan(plan, folders, cfg, u);
    }
  }

  // ----- How long it can take -----

  /** unitTimeout, in seconds: the limit the run gives a unit, and the one the ceiling prices. */
  function UnitTimeout(s: Script, cfg: Config): nat {
    if s.timeoutSec > 0 then s.timeoutSec else cfg.queryTimeout
  }

  function Total(units: seq<PlanUnit>, cfg: Config): nat {
    if units == [] then 0 else Total(units[..|units| - 1], cfg) + UnitTimeout(units[|units| - 1].script, cfg)
  }

  datatype DurationBound = DurationBound(units: nat, ceiling: nat, costly: seq<string>, costlyUnits: nat, costlyCeiling: nat)

  /** Each collector of a costly unit is named, once, and no other. */
  ghost predicate NamesCostly(costly: seq<string>, units: seq<PlanUnit>, cfg: Config) {
    && (forall path :: path in costly <==> exists u :: u in units && Costly(u, cfg) && u.script.path == path)
    && forall i, j :: 0 <= i < j < |costly| ==> costly[i] != costly[j]
  }

  function WithName(costly: seq<string>, path: string): seq<string> { if path in costly then costly else costly + [path] }

  lemma NamesOneMore(costly: seq<string>, units: seq<PlanUnit>, u: PlanUnit, cfg: Config)
    requires NamesCostly(costly, units, cfg)
    ensures NamesCostly(if Costly(u, cfg) then WithName(costly, u.script.path) else costly, units + [u], cfg)
  {
    hide Costly;
    assert forall x :: x in units + [u] <==> x in units || x == u;
  }

  lemma PricedMore(units: seq<PlanUnit>, u: PlanUnit, cfg: Config)
    ensures Total(units + [u], cfg) == Total(units, cfg) + UnitTimeout(u.script, cfg)
    ensures Filter(units + [u], CostlyIn(cfg)) == Filter(units, CostlyIn(cfg)) + if Costly(u, cfg) then [u] else []
  {
    hide UnitTimeout, Costly;
    assert (units + [u])[..|units|] == units;
  }

  /** PlannedDuration's loop over the units of the plan. */
  method PriceUnits(units: seq<PlanUnit>, cfg: Config) returns (b: DurationBound)
    ensures b.units == |units| && b.ceiling == Total(units, cfg)
    ensures b.costlyUnits == |Filter(units, CostlyIn(cfg))|
    ensures b.costlyCeiling == Total(Filter(units, CostlyIn(cfg)), cfg)
    ensures NamesCostly(b.costly, units, cfg)
  {
    hide Total, Filter, Costly, UnitTimeout, NamesCostly, CostlyIn;
    var ceiling, costlyUnits, costlyCeiling := 0, 0, 0;
    var costly: seq<string> := [];
    NothingPriced(cfg);
    for k := 0 to |units|
      invariant ceiling == Total(units[..k], cfg)
      invariant costlyUnits == |Filter(units[..k], CostlyIn(cfg))|
      invariant costlyCeiling == Total(Filter(units[..k], CostlyIn(cfg)), cfg)
      invariant NamesCostly(costly, units[..k], cfg)
    {
      var u := units[k];
      assert units[..k + 1] == units[..k] + [u];
      PricedMore(units[..k], u, cfg);
      NamesOneMore(costly, units[..k], u, cfg);
      var d := UnitTimeout(u.script, cfg);
      ceiling := ceiling + d;
      if !Costly(u, cfg) {
        assert Filter(units[..k], CostlyIn(cfg)) + [] == Filter(units[..k], CostlyIn(cfg));
        continue;
      }
      PricedMore(Filter(units[..k], CostlyIn(cfg)), u, cfg);
      costlyUnits := costlyUnits + 1;
      costlyCeiling := costlyCeiling + d;
      if u.script.path !in costly {
        costly := costly + [u.script.path];
      }
    }
    assert units[..|units|] == units;
    b := DurationBound(|units|, ceiling, costly, costlyUnits, costlyCeiling);
  }

  lemma NothingPriced(cfg: Config)
    ensures Total([], cfg) == 0 && Filter([], CostlyIn(cfg)) == [] && NamesCostly([], [], cfg)
  {}

  lemma {:induction false} TotalConcat(a: seq<PlanUnit>, b: seq<PlanUnit>, cfg: Config)
    ensures Total(a + b, cfg) == Total(a, cfg) + Total(b, cfg)
  {
    if b == [] {
      assert a + b == a;
    } else {
      TotalConcat(a, b[..|b| - 1], cfg);
      assert (a + b)[..|a + b| - 1] == a + b[..|b| - 1];
    }
  }

  /** The two figures `check` prints are the totals of the two segments the run walks: the
      costly ceiling is that of the last units, the rest that of the units before them. */
  lemma CeilingsAreTheSegments(inOrder: seq<PlanUnit>, cfg: Config)
    ensures var units := CostlyLast(inOrder, cfg);
      var n := |units| - |Filter(units, CostlyIn(cfg))|;
      && 0 <= n
      && (forall k :: 0 <= k < n ==> !Costly(units[k], cfg)) && (forall k :: n <= k < |units| ==> Costly(units[k], cfg))
      && Total(Filter(units, CostlyIn(cfg)), cfg) == Total(units[n..], cfg)
      && Total(units, cfg) - Total(Filter(units, CostlyIn(cfg)), cfg) == Total(units[..n], cfg)
  {
    SplitIsStable(inOrder, cfg);
    var a, b := Filter(inOrder, CheapIn(cfg)), Filter(inOrder, CostlyIn(cfg));
    assert forall k :: 0 <= k < |a| ==> a[k] in a;
    assert forall k :: 0 <= k < |b| ==> b[k] in b;
    TotalConcat(a, b, cfg);
  }

  // ----- Against the maximum duration -----

  datatype Verdict = UnderBound | CostlyRunLast(before: int, ceiling: int, under: bool) | AboveBound

  function Against(b: DurationBound, limit: nat): Verdict {
    if b.ceiling <= limit then UnderBound
    else if b.costly != [] then CostlyRunLast(b.units - b.costlyUnits, b.ceiling - b.costlyCeiling, b.ceiling - b.costlyCeiling <= limit)
    else AboveBound
  }

  /** The figures of a list of units, as PriceUnits gives them. */
  ghost predicate Priced(b: DurationBound, units: seq<PlanUnit>, cfg: Config) {
    && b.units == |units| && b.ceiling == Total(units, cfg)
    && b.costlyUnits == |Filter(units, CostlyIn(cfg))|
    && b.costlyCeiling == Total(Filter(units, CostlyIn(cfg)), cfg)
    && forall path :: path in b.costly <==> exists u :: u in units && Costly(u, cfg) && u.script.path == path
  }

  /** What `check` says about the bound is true of the order the run follows: the units it says
      run before the costly ones are the first of the run, none of them costly and all the rest
      costly, and their ceiling is the sum of their own timeouts. */
  lemma AgainstIsTrue(inOrder: seq<PlanUnit>, cfg: Config, b: DurationBound, limit: nat)
    requires Priced(b, CostlyLast(inOrder, cfg), cfg)
    ensures var units := CostlyLast(inOrder, cfg);
      match Against(b, limit)
      case UnderBound => Total(units, cfg) <= limit
      case AboveBound => Total(units, cfg) > limit && forall u :: u in units ==> !Costly(u, cfg)
      case CostlyRunLast(n, ceiling, under) =>
        && 0 <= n < |units| && ceiling == Total(units[..n], cfg) && (under <==> ceiling <= limit) && Total(units, cfg) > limit
        && (forall k :: 0 <= k < n ==> !Costly(units[k], cfg)) && (forall k :: n <= k < |units| ==> Costly(units[k], cfg))
  {
    hide Filter, Costly, CostlyLast, Total;
    var units := CostlyLast(inOrder, cfg);
    CeilingsAreTheSegments(inOrder, cfg);
    if b.costly != [] {
      assert b.costly[0] in b.costly;
      var u :| u in units && Costly(u, cfg);
      assert u in Filter(units, CostlyIn(cfg));
    } else {
      forall u | u in units ensures !Costly(u, cfg) { assert Costly(u, cfg) ==> u.script.path in b.costly; }
    }
  }
}
