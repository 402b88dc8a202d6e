/**
 The Query Store window of a run: how it is resolved and recorded, and when a later run's window
 keeps an earlier one's. resolveWindow and windowLost of collect/collect.go, and the days of
 collect/config.go.
 */
module Window {
  import opened Options
  import opened Scope
  import Decimal

  // ----- What a comparison keeps -----

  predicate KeepsCount(prev: string, cur: string, env: Setting) {
    env.count(prev).Some? ==> env.count(cur).Some? && env.count(cur).value >= env.count(prev).value
  }

  predicate Resolved(c: map<string, string>, env: Setting) {
    env.instant(Get(c, "query_store_from")).Some? && env.instant(Get(c, "query_store_to")).Some?
  }

  /** The window is kept by its length when both runs let it slide, and by its ends when either
      fixed it. One that was not resolved read nothing. */
  predicate KeepsWindow(prev: map<string, string>, cur: map<string, string>, env: Setting) {
    Resolved(prev, env) ==>
      if Sliding(prev) && Sliding(cur)
      then KeepsCount(Get(prev, "query_store_days"), Get(cur, "query_store_days"), env)
      else && Resolved(cur, env)
           && env.instant(Get(cur, "query_store_from")).value <= env.instant(Get(prev, "query_store_from")).value
           && env.instant(Get(cur, "query_store_to")).value >= env.instant(Get(prev, "query_store_to")).value
  }

  // ----- The window of one run -----

  const DAY := 86400
  const DEFAULT_DAYS := 7
  const MOST_DAYS := 3650

  /** The three settings as they were typed; a bound that was not typed is empty. */
  datatype Typed = Typed(days: Option<nat>, from: string, to: string)

  /** A count of days outside this range is refused before a run starts. */
  predicate Accepted(t: Typed) { t.days.Some? ==> 1 <= t.days.value <= MOST_DAYS }

  predicate Slides(t: Typed) { t.from == "" && t.to == "" }

  /** The days the settings come to: none beside a bound, unless they were typed. */
  function Days(t: Typed): nat {
    if t.days.Some? then t.days.value else if Slides(t) then DEFAULT_DAYS else 0
  }

  predicate Conflicts(t: Typed) { t.days.Some? && !Slides(t) }

  /** How the server's wall clock is read, and how an instant is written in its zone. */
  datatype Zone = Zone(local: string -> Option<int>, format: int -> string)

  /** One run's settings, and the instant it started at, in seconds. */
  datatype Request = Request(typed: Typed, now: int, zone: Zone)

  /** A window is refused when it is empty or ends in the future. */
  function Checked(from: int, to: int, now: int): Option<(int, int)> {
    if from >= to || (if from > to then from else to) > now then None else Some((from, to))
  }

  /** resolveWindow: None for every window it refuses. */
  function ResolveWindow(r: Request): Option<(int, int)> {
    var t := r.typed;
    if Conflicts(t) then None
    else if Days(t) > 0 then Checked(r.now - Days(t) * DAY, r.now, r.now)
    else
      var to := if t.to != "" then r.zone.local(t.to) else Some(r.now);
      var from := if t.from != "" then r.zone.local(t.from) else if to.Some? then Some(to.value - DEFAULT_DAYS * DAY) else None;
      if from.None? || to.None? then None else Checked(from.value, to.value, r.now)
  }

  const NOT_RESOLVED := "not resolved"

  /** What the manifest records of it: the days, the bounds as typed, and the bounds as resolved. */
  function Recorded(r: Request): map<string, string> {
    var w := ResolveWindow(r);
    map["query_store_days" := Decimal.Print(Days(r.typed)),
        "query_store_from" := if w.Some? then r.zone.format(w.value.0) else NOT_RESOLVED,
        "query_store_to" := if w.Some? then r.zone.format(w.value.1) else NOT_RESOLVED]
    + (if r.typed.from != "" then map["query_store_from_requested" := r.typed.from] else map[])
    + (if r.typed.to != "" then map["query_store_to_requested" := r.typed.to] else map[])
  }

  /** The years of four digits in seconds, but for a day at each end: written in a zone ahead of
      or behind UTC, the last and the first hours have a year of another length. */
  const FIRST := -62167219200 + DAY
  const LAST := 253402300800 - DAY

  /** A manifest's numbers and instants are read back as they were written. */
  ghost predicate Reads(env: Setting, z: Zone) {
    && (forall i :: FIRST <= i < LAST ==> env.instant(z.format(i)) == Some(i))
    && (forall n: nat :: n <= MOST_DAYS ==> env.count(Decimal.Print(n)) == Some(n))
    && env.instant(NOT_RESOLVED) == None
  }

  ghost predicate Dated(r: Request) {
    ResolveWindow(r).Some? ==> FIRST <= ResolveWindow(r).value.0 && ResolveWindow(r).value.1 < LAST
  }

  /** A run that can be: its days were accepted, its window has dates, and its record can be read. */
  ghost predicate Possible(r: Request, env: Setting) { Accepted(r.typed) && Dated(r) && Reads(env, r.zone) }

  ghost predicate Keeps(prev: Request, cur: Request, env: Setting) { KeepsWindow(Recorded(prev), Recorded(cur), env) }

  /** A window that slides is resolved, ends now and is exactly its days long. */
  lemma SlidingWindow(r: Request)
    requires Accepted(r.typed) && Slides(r.typed)
    ensures Days(r.typed) > 0 && ResolveWindow(r) == Some((r.now - Days(r.typed) * DAY, r.now))
  {}

  lemma RecordedReads(r: Request, env: Setting)
    requires Possible(r, env)
    ensures var c, w := Recorded(r), ResolveWindow(r);
      && Sliding(c) == Slides(r.typed) && env.count(Get(c, "query_store_days")) == Some(Days(r.typed))
      && env.instant(Get(c, "query_store_from")) == (if w.Some? then Some(w.value.0) else None)
      && env.instant(Get(c, "query_store_to")) == (if w.Some? then Some(w.value.1) else None)
  {
    hide Decimal.Print;
  }

  /** The comparison in terms of the windows themselves. */
  lemma KeepsMeaning(prev: Request, cur: Request, env: Setting)
    requires Possible(prev, env) && Possible(cur, env)
    ensures var p, c := ResolveWindow(prev), ResolveWindow(cur);
      Keeps(prev, cur, env) <==>
        (p.Some? ==> if Slides(prev.typed) && Slides(cur.typed) then Days(prev.typed) <= Days(cur.typed)
                     else c.Some? && c.value.0 <= p.value.0 && p.value.1 <= c.value.1)
  {
    hide ResolveWindow, Recorded, Possible, Sliding, Days;
    RecordedReads(prev, env);
    RecordedReads(cur, env);
  }

  // ----- What a kept window is made of -----

  function Span(c: map<string, string>, env: Setting): int
    requires Resolved(c, env)
  {
    env.instant(Get(c, "query_store_to")).value - env.instant(Get(c, "query_store_from")).value
  }

  /** A window that slides is resolved and exactly its days long. */
  predicate Exact(c: map<string, string>, env: Setting) {
    Sliding(c) ==> Resolved(c, env) && env.count(Get(c, "query_store_days")).Some? && Span(c, env) == env.count(Get(c, "query_store_days")).value * DAY
  }

  lemma RecordedIsExact(r: Request, env: Setting)
    requires Possible(r, env)
    ensures Exact(Recorded(r), env)
  {
    hide ResolveWindow, Recorded, Possible, Sliding, Days;
    RecordedReads(r, env);
    if Slides(r.typed) { SlidingIf(r, env); }
  }

  lemma SlidingIf(r: Request, env: Setting)
    requires Possible(r, env) && Slides(r.typed)
    ensures ResolveWindow(r) == Some((r.now - Days(r.typed) * DAY, r.now))
  {
    SlidingWindow(r);
  }

  predicate NotShorter(prev: map<string, string>, cur: map<string, string>, env: Setting) {
    Resolved(prev, env) ==> Resolved(cur, env) && Span(prev, env) <= Span(cur, env)
  }

  predicate Nests(prev: map<string, string>, cur: map<string, string>, env: Setting) {
    Resolved(prev, env) ==>
      && Resolved(cur, env)
      && env.instant(Get(cur, "query_store_from")).value <= env.instant(Get(prev, "query_store_from")).value
      && env.instant(Get(cur, "query_store_to")).value >= env.instant(Get(prev, "query_store_to")).value
  }

  /** A window is kept when it lies in the later one, or when both slide and the later one is not
      shorter; and a kept one is never shortened. */
  lemma KeptIs(prev: map<string, string>, cur: map<string, string>, env: Setting)
    requires Exact(prev, env) && Exact(cur, env)
    ensures KeepsWindow(prev, cur, env) ==> NotShorter(prev, cur, env)
    ensures KeepsWindow(prev, cur, env) <==> if Sliding(prev) && Sliding(cur) then NotShorter(prev, cur, env) else Nests(prev, cur, env)
  {
    hide Sliding;
  }

  // ----- A chain of runs -----

  /** Runs one after another, each of which keeps the window of the one before it. */
  ghost predicate Chain(rs: seq<Request>, env: Setting) {
    && rs != [] && (forall k :: 0 <= k < |rs| ==> Possible(rs[k], env))
    && (forall k :: 0 < k < |rs| ==> rs[k - 1].now <= rs[k].now && Keeps(rs[k - 1], rs[k], env))
  }

  ghost predicate Like(rs: seq<Request>, slides: seq<bool>) {
    |rs| == |slides| && forall k :: 0 <= k < |rs| ==> Slides(rs[k].typed) == slides[k]
  }

  /** No two neighbours slide. */
  ghost predicate Apart(slides: seq<bool>) { forall k :: 0 < k < |slides| ==> !(slides[k - 1] && slides[k]) }

  ghost predicate WindowPasses(slides: seq<bool>, env: Setting) {
    forall rs :: Chain(rs, env) && Like(rs, slides) ==> Keeps(rs[0], rs[|rs| - 1], env)
  }

  lemma RecordSlides(r: Request)
    ensures Sliding(Recorded(r)) == Slides(r.typed)
  {}

  lemma {:induction false} NeverShorter(rs: seq<Request>, k: nat, env: Setting)
    requires Chain(rs, env) && k < |rs|
    ensures NotShorter(Recorded(rs[0]), Recorded(rs[k]), env)
  {
    hide Recorded, Possible, KeepsWindow, Exact;
    if k > 0 {
      NeverShorter(rs, k - 1, env);
      RecordedIsExact(rs[k - 1], env);
      RecordedIsExact(rs[k], env);
      KeptIs(Recorded(rs[k - 1]), Recorded(rs[k]), env);
    }
  }

  lemma {:induction false} AllNest(rs: seq<Request>, slides: seq<bool>, k: nat, env: Setting)
    requires Chain(rs, env) && Like(rs, slides) && Apart(slides) && k < |rs|
    ensures Nests(Recorded(rs[0]), Recorded(rs[k]), env)
  {
    hide Recorded, Possible, KeepsWindow, Exact, Sliding, NotShorter;
    if k > 0 {
      AllNest(rs, slides, k - 1, env);
      RecordedIsExact(rs[k - 1], env);
      RecordedIsExact(rs[k], env);
      KeptIs(Recorded(rs[k - 1]), Recorded(rs[k]), env);
      RecordSlides(rs[k - 1]);
      RecordSlides(rs[k]);
    }
  }

  /** The first window is kept by the last one when both slide, or when no two neighbours do. */
  lemma WindowThrough(rs: seq<Request>, slides: seq<bool>, env: Setting)
    requires Chain(rs, env) && Like(rs, slides)
    requires (slides[0] && slides[|slides| - 1]) || Apart(slides)
    ensures Keeps(rs[0], rs[|rs| - 1], env)
  {
    hide Recorded, Possible, KeepsWindow, Exact, Sliding, Apart, Nests, NotShorter;
    var last := |rs| - 1;
    RecordedIsExact(rs[0], env);
    RecordedIsExact(rs[last], env);
    RecordSlides(rs[0]);
    RecordSlides(rs[last]);
    NeverShorter(rs, last, env);
    if Apart(slides) { AllNest(rs, slides, last, env); }
    KeptIs(Recorded(rs[0]), Recorded(rs[last]), env);
  }

  function Weekly(now: int, z: Zone): Request { Request(Typed(None, "", ""), now, z) }

  function Since(from: string, now: int, z: Zone): Request { Request(Typed(None, from, ""), now, z) }

  /** A bound that can be typed, with room for the windows around it. */
  predicate Bound(z: Zone, from: string) {
    from != "" && z.local(from).Some? && FIRST + DAY <= z.local(from).value && z.local(from).value + 8 * DAY < LAST
  }

  /** Two weekly windows, the second a minute later, and a window since the second one's start. */
  function FirstMinuteLost(z: Zone, from: string): (r: (Request, Request, Request))
    requires Bound(z, from)
  {
    var end := z.local(from).value + 7 * DAY;
    (Weekly(end - 60, z), Weekly(end, z), Since(from, end + 60, z))
  }

  lemma FirstMinuteIsLost(z: Zone, from: string, env: Setting)
    requires Bound(z, from) && Reads(env, z)
    ensures var (a, b, c) := FirstMinuteLost(z, from); Chain([a, b, c], env) && !Keeps(a, c, env)
  {
    hide Keeps, Reads;
    var (a, b, c) := FirstMinuteLost(z, from);
    KeepsMeaning(a, b, env);
    KeepsMeaning(b, c, env);
    KeepsMeaning(a, c, env);
  }

  // ----- Exactly those chains -----

  /** A week from the bound, as a window that slides or as one that was typed. */
  function Week(z: Zone, from: string, slides: bool): Request
    requires Bound(z, from)
  {
    var end := z.local(from).value + 7 * DAY;
    if slides then Weekly(end, z) else Since(from, end, z)
  }

  lemma WeekIs(z: Zone, from: string, slides: bool, env: Setting)
    requires Bound(z, from) && Reads(env, z)
    ensures var r, start := Week(z, from, slides), z.local(from).value;
      && Possible(r, env) && Slides(r.typed) == slides && r.now == start + 7 * DAY
      && ResolveWindow(r) == Some((start, start + 7 * DAY)) && (slides ==> Days(r.typed) == 7)
  {
    hide Reads;
  }

  /** Weeks from one bound up to here, and weeks from the next bound after. */
  function Weeks(z: Zone, from: string, next: string, slides: seq<bool>, cut: nat): (rs: seq<Request>)
    requires Bound(z, from) && Bound(z, next)
    ensures |rs| == |slides| && forall k :: 0 <= k < |rs| ==> rs[k] == Week(z, if k <= cut then from else next, slides[k])
  {
    seq(|slides|, k requires 0 <= k < |slides| => Week(z, if k <= cut then from else next, slides[k]))
  }

  /** Two weeks from one bound are kept by each other; one from a later bound keeps one from an
      earlier exactly when both slide. */
  lemma WeekKeeps(z: Zone, from: string, next: string, a: bool, b: bool, env: Setting)
    requires Bound(z, from) && Bound(z, next) && Reads(env, z) && z.local(from).value <= z.local(next).value
    ensures Keeps(Week(z, from, a), Week(z, next, b), env) <==> (a && b) || z.local(from).value == z.local(next).value
  {
    hide Bound, Week, Possible, Keeps, Days, ResolveWindow, Reads;
    WeekIs(z, from, a, env);
    WeekIs(z, next, b, env);
    KeepsMeaning(Week(z, from, a), Week(z, next, b), env);
  }

  lemma WeeksChain(z: Zone, from: string, next: string, slides: seq<bool>, cut: nat, env: Setting)
    requires Bound(z, from) && Bound(z, next) && Reads(env, z) && z.local(from).value <= z.local(next).value
    requires cut + 1 < |slides| && slides[cut] && slides[cut + 1]
    ensures Chain(Weeks(z, from, next, slides, cut), env) && Like(Weeks(z, from, next, slides, cut), slides)
  {
    hide Bound, Week, Possible, Keeps, Reads;
    var rs := Weeks(z, from, next, slides, cut);
    forall k | 0 <= k < |rs| ensures Possible(rs[k], env) && Slides(rs[k].typed) == slides[k] {
      WeekIs(z, if k <= cut then from else next, slides[k], env);
    }
    forall k | 0 < k < |rs| ensures rs[k - 1].now <= rs[k].now && Keeps(rs[k - 1], rs[k], env) {
      var f, g := if k - 1 <= cut then from else next, if k <= cut then from else next;
      WeekIs(z, f, slides[k - 1], env);
      WeekIs(z, g, slides[k], env);
      WeekKeeps(z, f, g, slides[k - 1], slides[k], env);
    }
  }

  /** In a chain of any length the last run keeps the window of the first, whatever they were
      asked, exactly when the first and the last slide, or no two neighbours do. `from` and
      `next` are any two bounds that can be typed, one before the other. */
  lemma WindowPassesExactly(slides: seq<bool>, z: Zone, from: string, next: string, env: Setting)
    requires slides != [] && Bound(z, from) && Bound(z, next) && Reads(env, z) && z.local(from).value < z.local(next).value
    ensures WindowPasses(slides, env) <==> (slides[0] && slides[|slides| - 1]) || Apart(slides)
  {
    hide Keeps, Chain, Reads, Bound, Week;
    var last := |slides| - 1;
    if (slides[0] && slides[last]) || Apart(slides) {
      forall rs | Chain(rs, env) && Like(rs, slides) ensures Keeps(rs[0], rs[|rs| - 1], env) {
        WindowThrough(rs, slides, env);
      }
    } else {
      var k :| 0 < k < |slides| && slides[k - 1] && slides[k];
      var rs := Weeks(z, from, next, slides, k - 1);
      WeeksChain(z, from, next, slides, k - 1, env);
      WeekKeeps(z, from, next, slides[0], slides[last], env);
      assert rs[0] == Week(z, from, slides[0]) && rs[last] == Week(z, next, slides[last]);
    }
  }
}
