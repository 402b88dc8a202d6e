/**
 One whole run of collect/collect.go, from its plan to the record it leaves on disk, and what a
 history of such runs keeps.
 */
module Collecting {
  import opened Options
  import opened Causes
  import opened Scope
  import Target
  import Plan
  import RunLoop
  import Superseded
  import Window

  /** What a run is given: the plan, the selected databases, its settings, where it is filed. */
  datatype Job = Job(plan: seq<Plan.Planned>, folders: seq<Plan.Folder>, cfg: Plan.Config,
                     config: map<string, string>, profile: string, server: Target.Server,
                     name: string, keep: bool, readable: bool, archived: bool)

  /** The manifest records the pattern list that was used; databases have names; and only the
      narrowing itself skips for the narrowing. */
  ghost predicate Sound(job: Job) {
    && Get(job.config, INCLUDE) == job.cfg.pattern
    && (forall f :: f in job.folders ==> f.name != "")
    && (forall p :: p in job.plan ==> p.skip != Some(NotInQueryStoreInclude))
  }

  function Order(job: Job): seq<Plan.PlanUnit> {
    Plan.CostlyLast(Plan.InPlanOrder(job.plan, job.folders, job.cfg), job.cfg)
  }

  function Named(u: Plan.PlanUnit): Unit { Unit(u.script.path, u.target.name) }

  function Names(units: seq<Plan.PlanUnit>): (r: seq<Unit>)
    ensures |r| == |units| && forall k :: 0 <= k < |r| ==> r[k] == Named(units[k])
  {
    seq(|units|, k requires 0 <= k < |units| => Named(units[k]))
  }

  function Scripts(errs: seq<Unit>): seq<string> { seq(|errs|, k requires 0 <= k < |errs| => errs[k].script) }

  function Databases(folders: seq<Plan.Folder>): seq<string> { seq(|folders|, k requires 0 <= k < |folders| => folders[k].name) }

  function Units(job: Job): seq<Unit> { Names(Order(job)) }

  function Lint(job: Job): seq<string> { Scripts(Plan.PlanErrors(job.plan)) }

  // ----- The record a run leaves -----

  /** The results: of the units that ended ok, and what the others managed to write. */
  function Results(units: seq<Unit>, t: RunLoop.Loop): seq<Unit>
    requires RunLoop.AtMostOnce(t, |units|)
  {
    InRange(t, |units|);
    Pick(units, t.ok) + Pick(units, t.partial)
  }

  function Pick(units: seq<Unit>, ks: seq<nat>): (r: seq<Unit>)
    requires forall k :: 0 <= k < |ks| ==> ks[k] < |units|
    ensures |r| == |ks| && forall k :: 0 <= k < |ks| ==> r[k] == units[ks[k]]
    ensures forall u :: u in r ==> u in units
  {
    seq(|ks|, k requires 0 <= k < |ks| => units[ks[k]])
  }

  lemma InRange(t: RunLoop.Loop, n: nat)
    requires RunLoop.AtMostOnce(t, n)
    ensures forall k :: 0 <= k < |t.ok| ==> t.ok[k] < n
    ensures forall k :: 0 <= k < |t.partial| ==> t.partial[k] < n
    ensures forall k :: 0 <= k < |t.skipped| ==> t.skipped[k].0 < n
  {
    forall k | 0 <= k < |t.ok| ensures t.ok[k] < n {
      assert t.ok[k] in multiset(t.ok);
      assert t.ok[k] in multiset(RunLoop.Upto(n));
      assert t.ok[k] in RunLoop.Upto(n);
    }
    forall k | 0 <= k < |t.partial| ensures t.partial[k] < n {
      assert t.partial[k] in t.partial;
    }
    SkippedAreUnits(t.skipped);
    forall k | 0 <= k < |t.skipped| ensures t.skipped[k].0 < n {
      var u := RunLoop.SkippedUnits(t.skipped)[k];
      assert u in multiset(RunLoop.SkippedUnits(t.skipped));
      assert u in multiset(RunLoop.Upto(n));
      assert u in RunLoop.Upto(n);
    }
  }

  lemma {:induction false} SkippedAreUnits(skipped: seq<(nat, Reason)>)
    ensures forall k :: 0 <= k < |skipped| ==> RunLoop.SkippedUnits(skipped)[k] == skipped[k].0
  {
    if skipped != [] { SkippedAreUnits(skipped[..|skipped| - 1]); }
  }

  /** The skips of the loop, after those of the plan. */
  function LoopSkips(units: seq<Unit>, t: RunLoop.Loop): seq<Skip>
    requires RunLoop.AtMostOnce(t, |units|)
  {
    InRange(t, |units|);
    seq(|t.skipped|, k requires 0 <= k < |t.skipped| => Skip(units[t.skipped[k].0].script, units[t.skipped[k].0].target, t.skipped[k].1))
  }

  function ScopeOf(job: Job, t: RunLoop.Loop): RunScope
    requires RunLoop.AtMostOnce(t, |Units(job)|)
  {
    RunScope(job.config, job.profile, Databases(job.folders), Results(Units(job), t),
             RunLoop.ManifestErrors(t, Units(job), Lint(job)), Plan.PlanSkips(job.plan, job.folders, job.cfg) + LoopSkips(Units(job), t))
  }

  /** The collection as it is filed. A run that died exits 1 before anything is settled. */
  function Left(job: Job, t: RunLoop.Loop): Superseded.Collection
    requires RunLoop.AtMostOnce(t, |Units(job)|)
  {
    Superseded.Collection(job.name, job.keep, Superseded.Stored(ScopeOf(job, t), job.readable, job.server),
                          if t.status == RunLoop.Fatal then 1 else t.exit, t.cancelled || t.maxReached, job.archived)
  }

  /** How the loop can have ended. */
  ghost predicate Finished(job: Job, t: RunLoop.Loop) {
    && RunLoop.AtMostOnce(t, |Units(job)|)
    && (forall x :: x in t.skipped ==> RunLoop.LoopReason(x.1))
    && (t.status != RunLoop.Fatal && Superseded.SettleRun(t.exit, t.cancelled || t.maxReached).1 ==>
          RunLoop.ManifestErrors(t, Units(job), Lint(job)) == [])
  }

  /** The run: the plan is unfolded, every unit is run, and the outcome is settled. What each
      unit meets is the environment's. */
  method Collect(h: Events, job: Job, meetings: nat -> RunLoop.Meeting) returns (t: RunLoop.Loop, code: nat, discard: bool)
    ensures Finished(job, t)
    ensures t.status != RunLoop.Fatal ==> (code, discard) == Superseded.SettleRun(t.exit, t.cancelled || t.maxReached)
    ensures t.status == RunLoop.Fatal ==> code == 1 && !discard
    ensures code == 0 ==> multiset(t.ok) + multiset(RunLoop.SkippedUnits(t.skipped)) == multiset(RunLoop.Upto(|Units(job)|))
  {
    hide RunLoop.LeftAlone, RunLoop.ForBound, RunLoop.ManifestErrors, RunLoop.AtMostOnce, RunLoop.Upto;
    hide Stopped, BoundReached, Plan.CostlyLast, Plan.InPlanOrder, Plan.PlanSkips, Plan.PlanErrors, Names, Scripts;
    var units, _, errs := Plan.PlanUnits(job.plan, job.folders, job.cfg);
    var names, lint := Names(units), Scripts(errs);
    var all := seq(|names|, k requires 0 <= k < |names| => meetings(k));
    ghost var held;
    t, code, discard, held := RunLoop.RunUnits(h, names, all, lint);
  }

  // ----- What the record promises -----

  /** The practice that this job follows. */
  ghost predicate Practises(job: Job, p: Superseded.Practice, env: Setting) {
    && p.matches == job.cfg.matches
    && (forall s :: s in job.plan ==> p.narrowed(s.script.path) == (s.script.perDatabase && Plan.Narrows(s.script, job.cfg)))
    && (p.located ==> Target.Located(job.server))
    && (p.windows != Superseded.AnyWindow ==> Window.Exact(job.config, env))
  }

  lemma UnitIsPlanned(job: Job, u: Unit)
    requires u in Units(job)
    ensures exists x :: x in Plan.InPlanOrder(job.plan, job.folders, job.cfg) && u == Named(x)
  {
    hide Plan.InPlanOrder;
    var k :| 0 <= k < |Units(job)| && Units(job)[k] == u;
    var x := Order(job)[k];
    assert x in Order(job) && u == Named(x);
  }

  lemma LoopSkipsAreTheLoops(units: seq<Unit>, t: RunLoop.Loop)
    requires RunLoop.AtMostOnce(t, |units|) && forall x :: x in t.skipped ==> RunLoop.LoopReason(x.1)
    ensures forall k :: k in LoopSkips(units, t) ==> RunLoop.LoopReason(k.reason)
  {
    InRange(t, |units|);
    assert forall i :: 0 <= i < |t.skipped| ==> t.skipped[i] in t.skipped;
  }

  lemma LeftObeys(job: Job, t: RunLoop.Loop, p: Superseded.Practice, env: Setting)
    requires Sound(job) && Finished(job, t) && Practises(job, p, env)
    ensures Superseded.ObeysInclude(ScopeOf(job, t), p.narrowed, p.matches)
  {
    hide Plan.InPlanOrder, Plan.PlanSkips, RunLoop.ManifestErrors, Superseded.ObeysInclude, LoopSkips;
    var s := ScopeOf(job, t);
    InRange(t, |Units(job)|);
    forall r | r in s.results ensures exists u :: u in Plan.InPlanOrder(job.plan, job.folders, job.cfg) && r == Unit(u.script.path, u.target.name) {
      UnitIsPlanned(job, r);
    }
    LoopSkipsAreTheLoops(Units(job), t);
    Plan.PlanObeysInclude(job.plan, job.folders, job.cfg, s, p.narrowed);
  }

  /** What the deletion gate is told to take for granted holds of every run of every plan. */
  lemma CollectionsAreHonest(job: Job, t: RunLoop.Loop, p: Superseded.Practice, env: Setting)
    requires Sound(job) && Finished(job, t) && Practises(job, p, env)
    ensures Superseded.Honest(Left(job, t), p, env)
  {
    hide Superseded.ObeysInclude, RunLoop.ManifestErrors, Plan.PlanSkips, Results, LoopSkips;
    LeftObeys(job, t, p, env);
  }

  // ----- A history of runs -----

  /** A run: what it was given and how its loop ended. */
  datatype Run = Run(job: Job, t: RunLoop.Loop)

  ghost predicate Real(r: Run, p: Superseded.Practice, env: Setting) {
    Sound(r.job) && Finished(r.job, r.t) && Practises(r.job, p, env)
  }

  ghost predicate AllWithin(runs: seq<Run>) {
    forall k :: 0 <= k < |runs| ==> RunLoop.AtMostOnce(runs[k].t, |Units(runs[k].job)|)
  }

  ghost predicate AllReal(runs: seq<Run>, p: Superseded.Practice, env: Setting): (r: bool)
    ensures r ==> AllWithin(runs)
  {
    AllWithin(runs) && forall k :: 0 <= k < |runs| ==> Real(runs[k], p, env)
  }

  ghost function Filed(runs: seq<Run>): (cs: seq<Superseded.Collection>)
    requires AllWithin(runs)
    ensures |cs| == |runs| && forall k :: 0 <= k < |runs| ==> cs[k] == Left(runs[k].job, runs[k].t)
  {
    seq(|runs|, k requires 0 <= k < |runs| => Left(runs[k].job, runs[k].t))
  }

  lemma FiledAreHonest(runs: seq<Run>, p: Superseded.Practice, env: Setting)
    requires AllReal(runs, p, env)
    ensures forall c :: c in Filed(runs) ==> Superseded.Honest(c, p, env)
  {
    hide Superseded.Honest, Left;
    forall c | c in Filed(runs) ensures Superseded.Honest(c, p, env) {
      var k :| 0 <= k < |runs| && Filed(runs)[k] == c;
      assert Real(runs[k], p, env);
      CollectionsAreHonest(runs[k].job, runs[k].t, p, env);
    }
  }

  /** Over any history of runs of this program, each with its own plan and its own luck: a unit
      that ended ok in any of them has its result in a run still on disk, of the same server. */
  lemma NoResultIsEverLost(runs: seq<Run>, p: Superseded.Practice, env: Setting, i: nat, n: nat)
    requires AllReal(runs, p, env)
    requires p.located ==> Target.CaseBlind(env.texts)
    requires Superseded.AllLawful(Filed(runs), p, env)
    requires i < |runs| && Superseded.Lands(Superseded.History(Filed(runs)[..i], env), Filed(runs)[i])
    requires n in runs[i].t.ok
    ensures n < |Units(runs[i].job)|
    ensures var u := Units(runs[i].job)[n];
      u.script != "" ==> exists s :: && Superseded.OnDisk(Superseded.History(Filed(runs), env), s) && Superseded.Holds(s.scope, u)
                                     && Superseded.SameServer(s, Filed(runs)[i].left, p, env)
  {
    hide Superseded.Honest, Superseded.History, Superseded.Lands, Superseded.OnDisk, Superseded.Holds, Superseded.SameServer, Superseded.AllLawful, Target.CaseBlind;
    var cs, job, t := Filed(runs), runs[i].job, runs[i].t;
    FiledAreHonest(runs, p, env);
    InRange(t, |Units(job)|);
    var k :| 0 <= k < |t.ok| && t.ok[k] == n;
    assert Results(Units(job), t)[k] == Units(job)[n];
    assert Units(job)[n] in cs[i].left.scope.results;
    if Units(job)[n].script != "" {
      Superseded.EveryResultSurvives(cs, p, env, i, Units(job)[n]);
    }
  }
}
