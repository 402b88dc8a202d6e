/**
 The loop over the planned units in collect/collect.go, and what a unit's run is classified as.
 The server, the driver and everything that can cancel a context are the environment: what
 each call answers, and which events land before each question the loop asks.
 */
module RunLoop {
  import opened Options
  import opened Causes
  import opened Scope
  import Superseded

  // ----- One unit -----

  /** One server call: what lands while it runs, and the error it returns, if any. */
  datatype Call = Call(lands: Events, error: Option<nat>)

  /** Writing the unit's document: done, refused before a byte, or failed after some. */
  datatype Write = Written | NothingWritten | PartlyWritten

  /** What one unit meets. `lands(p)` is what happens just before the loop's question `p`. */
  datatype Meeting = Meeting(reset: Call, use: Call, query: Call, read: Call, write: Write, lands: nat -> Events,
                             closed: bool, reopens: bool, gone: bool, alive: bool, reconnects: bool, recycles: bool)

  /** What runUnit returns, and the result it recorded. */
  datatype Ran = Ran(h: Events, cut: bool, error: Option<Failure>, stored: Write)

  predicate IsBlocked(error: Option<Failure>) { error.Some? && error.value.words == BlockedByWatch }

  function FailedCall(h: Events, unit: nat, call: nat, c: Call, query: bool): Ran
    requires c.error.Some?
  {
    var ctx := CallCtx(unit, call);
    var f := Failure(c.error.value, AsReturned);
    var worded := if query then OutOfTime(h, ctx, f) else MaxDurationOr(h, ctx, f);
    Ran(h, Cause(h, ctx) == Some(Bound), Some(BlockedOr(h, unit, worded)), NothingWritten)
  }

  /** runUnit: the reset, USE on a database, the query, the rows, the document. The first reset
      comes before the watch is armed, and its error is never the watch's. */
  function RunUnit(h: Events, unit: nat, u: Unit, m: Meeting): Ran {
    var h1 := h + m.reset.lands;
    if m.reset.error.Some? then
      var ctx := CallCtx(unit, 0);
      Ran(h1, Cause(h1, ctx) == Some(Bound),
          Some(MaxDurationOr(h1, ctx, Failure(m.reset.error.value, AsReturned))), NothingWritten)
    else
      var h2 := if u.target != "" then h1 + m.use.lands else h1;
      if u.target != "" && m.use.error.Some? then FailedCall(h2, unit, 1, m.use, false)
      else
        var h3 := h2 + m.query.lands;
        if m.query.error.Some? then FailedCall(h3, unit, 2, m.query, true)
        else
          var h4 := h3 + m.read.lands;
          if m.read.error.Some? then FailedCall(h4, unit, 2, m.read, true)
          else Ran(h4, false, if m.write == Written then None else Some(Failure(0, AsReturned)), m.write)
  }

  /** A unit the bound cut is never one the watch cancelled, whatever came in which order. */
  lemma CutUnitIsNotBlocked(h: Events, unit: nat, u: Unit, m: Meeting)
    ensures var r := RunUnit(h, unit, u, m); r.cut ==> !IsBlocked(r.error) && BoundReached(r.h) && r.error.Some?
    ensures h <= RunUnit(h, unit, u, m).h
    ensures RunUnit(h, unit, u, m).error.None? <==> RunUnit(h, unit, u, m).stored == Written
    ensures RunUnit(h, unit, u, m).stored == PartlyWritten ==> RunUnit(h, unit, u, m).error == Some(Failure(0, AsReturned))
  {
    hide Cause;
    var r := RunUnit(h, unit, u, m);
    CauseOfParent(r.h, unit, 0);
    CauseOfParent(r.h, unit, 1);
    CauseOfParent(r.h, unit, 2);
  }

  // ----- The loop's state -----

  /** How the loop stands. A fatal loop returns before settleRun. */
  datatype Status = Running | StoppedByOperator | Fatal

  /** The variables of the loop and the lists of the manifest. Units are named by their place
      in the plan; `lint` counts the scripts that failed the lint, `runErrors` the errors that
      name no unit. */
  datatype Loop = Loop(h: Events, status: Status, lint: nat, exit: nat, earned: nat, cancelled: bool, maxReached: bool,
                       notStarted: nat, stoppedByBound: bool, collected: nat, runErrors: nat,
                       cancelledOn: map<string, string>, droppedOn: set<string>,
                       ok: seq<nat>, partial: seq<nat>, failed: seq<nat>, skipped: seq<(nat, Reason)>, done: seq<nat>)

  function Upto(n: nat): (r: seq<nat>)
    ensures |r| == n && forall k :: 0 <= k < n ==> r[k] == k
  {
    seq(n, k => k)
  }

  function SkippedUnits(skipped: seq<(nat, Reason)>): (r: seq<nat>)
    ensures |r| == |skipped|
  {
    if skipped == [] then [] else SkippedUnits(skipped[..|skipped| - 1]) + [skipped[|skipped| - 1].0]
  }

  function ForBound(skipped: seq<(nat, Reason)>): nat {
    if skipped == [] then 0
    else ForBound(skipped[..|skipped| - 1]) + if skipped[|skipped| - 1].1 == MaxDurationReached then 1 else 0
  }

  /** Each of the first `n` units has ended, as exactly one of a result, an error or a skip. */
  ghost predicate Outcomes(s: Loop, n: nat) {
    && multiset(s.ok) + multiset(s.failed) + multiset(SkippedUnits(s.skipped)) == multiset(Upto(n))
    && forall k :: k in s.partial ==> k < n
  }

  /** No unit has ended twice, none past the first `n` has ended at all, and none has left half a
      result. */
  ghost predicate AtMostOnce(s: Loop, n: nat) {
    && multiset(s.ok) + multiset(s.failed) + multiset(SkippedUnits(s.skipped)) <= multiset(Upto(n))
    && forall k :: k in s.partial ==> k < n
  }

  /** What the loop itself sets a unit aside for. */
  predicate LoopReason(reason: Reason) { reason.HeldBack? || reason == DroppedDuringRun || reason == MaxDurationReached }

  /** The facts that need no outcome: what the flags, the codes and the counts mean. */
  ghost predicate Flags(s: Loop) {
    && (s.maxReached ==> BoundReached(s.h))
    && (s.cancelled ==> Stopped(s.h))
    && (s.maxReached <==> s.notStarted > 0 || s.stoppedByBound)
    && (s.status == StoppedByOperator <==> s.cancelled)
    && s.exit == s.earned && (s.exit == 0 || s.exit == 2)
    && (s.lint > 0 ==> s.exit == 2)
    && (s.exit == 0 && !s.maxReached && !s.cancelled ==> s.failed == [] && s.partial == [])
    && s.collected == |s.ok|
    && s.notStarted == ForBound(s.skipped)
    && forall x :: x in s.skipped ==> LoopReason(x.1)
  }

  /** Before the unit `n`, with the loop running. */
  ghost predicate Accounted(s: Loop, n: nat) {
    s.status == Running && Flags(s) && s.runErrors == 0 && Outcomes(s, n) && s.done == Upto(n)
  }

  /** After it, however it ended. The instance is given up only while nobody stopped the run and
      the bound has not been reached. */
  ghost predicate Ended(s: Loop, n: nat) {
    AtMostOnce(s, n + 1) && (forall x :: x in s.skipped ==> LoopReason(x.1)) &&
    match s.status
    case Running => Accounted(s, n + 1)
    case StoppedByOperator => Flags(s) && s.runErrors == 0
    case Fatal => s.runErrors > 0 && !Stopped(s.h) && !BoundReached(s.h)
  }

  lemma LaterEvents(s: Loop, h: Events)
    requires Flags(s) && s.h <= h
    ensures Flags(s.(h := h))
  {
    hide Cause, ForBound;
    var more := h[|s.h|..];
    assert h == s.h + more;
    if s.maxReached { CauseStays(s.h, more, BoundCtx); }
    if s.cancelled { CauseStays(s.h, more, RunCtx); }
  }

  lemma OneMore(n: nat)
    ensures Upto(n + 1) == Upto(n) + [n]
    ensures multiset(Upto(n + 1)) == multiset(Upto(n)) + multiset{n}
  {}

  // ----- Leaving a unit -----

  datatype Next = GoOn | StopRun | GiveUp

  /** Asked when a step on the connection failed: the stop first, then the bound, and only then
      is the failure the instance's. */
  function AfterFailedStep(h: Events): Next {
    if Stopped(h) then StopRun else if BoundReached(h) then GoOn else GiveUp
  }

  /** What is known where the loop leaves a unit. A run is stopped only by its operator, goes on
      only when the connection is good or the bound is reached, and gives the instance up exactly
      when the connection is not good and nobody stopped the run and the bound was not reached. */
  ghost predicate Blamed(h: Events, next: Next, good: bool) {
    && (next == StopRun ==> Stopped(h))
    && (next == GoOn ==> good || BoundReached(h))
    && (next == GiveUp <==> !good && !Stopped(h) && !BoundReached(h))
  }

  /** Neither the stop nor the bound is ever undone. */
  lemma NotEarlier(h: Events, more: Events)
    ensures Stopped(h) ==> Stopped(h + more)
    ensures BoundReached(h) ==> BoundReached(h + more)
  {
    if Stopped(h) { CauseStays(h, more, RunCtx); }
    if BoundReached(h) { CauseStays(h, more, BoundCtx); }
  }

  /** Recycling the session after a unit. */
  method Recycle(h: Events, m: Meeting, p: nat) returns (h': Events, next: Next)
    ensures h <= h' && Blamed(h', next, m.recycles)
    ensures m.recycles ==> next == GoOn
    ensures !m.recycles && Stopped(h') ==> next == StopRun
  {
    hide Stopped, BoundReached;
    h' := h + m.lands(p);
    if m.recycles {
      return h', GoOn;
    }
    h' := h' + m.lands(p + 1);
    next := AfterFailedStep(h');
  }

  /** After a unit that left no error: the stop, then the bound, then the recycling. A stop that
      has landed ends the run at once, and a bound leaves the connection alone. */
  method AfterSuccess(h: Events, m: Meeting) returns (h': Events, next: Next)
    ensures h <= h' && Blamed(h', next, m.recycles)
    ensures Stopped(h + m.lands(10)) ==> next == StopRun && h' == h + m.lands(10)
    ensures !Stopped(h + m.lands(10)) && BoundReached(h + m.lands(10)) ==> next == GoOn && h' == h + m.lands(10) + m.lands(11)
  {
    hide Stopped, BoundReached;
    h' := h + m.lands(10);
    if Stopped(h') {
      return h', StopRun;
    }
    NotEarlier(h', m.lands(11));
    h' := h' + m.lands(11);
    if BoundReached(h') {
      return h', GoOn;
    }
    h', next := Recycle(h', m, 12);
  }

  /** The connection still answers and can be reset, or a new one can be had. */
  predicate Good(m: Meeting) { if m.alive then m.recycles else m.reconnects }

  /** After a recorded failure: the stop, the bound, then the ping and one reconnect, with the
      stop and the bound asked again about every step that fails. */
  method AfterFailure(h: Events, m: Meeting) returns (h': Events, next: Next)
    ensures h <= h' && Blamed(h', next, Good(m))
    ensures Stopped(h + m.lands(20)) ==> next == StopRun && h' == h + m.lands(20)
    ensures !Stopped(h + m.lands(20)) && BoundReached(h + m.lands(20)) ==> next == GoOn && h' == h + m.lands(20) + m.lands(21)
    ensures var asked := h + m.lands(20) + m.lands(21) + m.lands(22);
      Stopped(asked) && !Stopped(h + m.lands(20)) && !BoundReached(h + m.lands(20) + m.lands(21)) && !m.alive ==> next == StopRun && h' == asked
  {
    hide Stopped, BoundReached;
    h' := h + m.lands(20);
    if Stopped(h') {
      return h', StopRun;
    }
    NotEarlier(h', m.lands(21));
    h' := h' + m.lands(21);
    if BoundReached(h') {
      return h', GoOn;
    }
    h' := h' + m.lands(22);
    if m.alive {
      h', next := Recycle(h', m, 23);
      return;
    }
    if Stopped(h') {
      return h', StopRun;
    }
    h' := h' + m.lands(25);
    if BoundReached(h') {
      return h', GoOn;
    }
    h' := h' + m.lands(26);
    if m.reconnects {
      return h', GoOn;
    }
    next := AfterFailedStep(h');
  }

  /** What `next` makes of the loop. */
  function Leave(s: Loop, h: Events, next: Next): Loop {
    match next
    case GoOn => s.(h := h)
    case StopRun => s.(h := h, cancelled := true, status := StoppedByOperator)
    case GiveUp => s.(h := h, runErrors := s.runErrors + 1, status := Fatal)
  }

  lemma LeaveEnds(s: Loop, n: nat, h: Events, next: Next)
    requires s.status == Running && Flags(s) && s.runErrors == 0 && s.h <= h
    requires next == StopRun ==> Stopped(h)
    requires next == GiveUp ==> !Stopped(h) && !BoundReached(h)
    requires AtMostOnce(s, n + 1)
    requires next == GoOn ==> Outcomes(s, n + 1) && s.done == Upto(n + 1)
    ensures Ended(Leave(s, h, next), n)
  {
    hide BoundReached, Stopped, Upto, SkippedUnits, ForBound;
    LaterEvents(s, h);
  }

  // ----- Before a unit -----

  /** skipBefore: a database where the watch cancelled a collector, one found dropped, then the
      bound. A unit held back is never claimed for the bound. */
  function SkipBefore(cancelledOn: map<string, string>, droppedOn: set<string>, h: Events, target: string): (r: Option<Reason>)
    ensures target != "" && target in cancelledOn ==> r == Some(HeldBack(cancelledOn[target]))
    ensures r == Some(MaxDurationReached) <==> BoundReached(h) && (target == "" || (target !in cancelledOn && target !in droppedOn))
    ensures r.None? ==> !BoundReached(h) && (target == "" || (target !in cancelledOn && target !in droppedOn))
    ensures r.Some? ==> LoopReason(r.value)
    ensures target != "" && target !in cancelledOn && target in droppedOn ==> r == Some(DroppedDuringRun)
  {
    if target != "" && target in cancelledOn then Some(HeldBack(cancelledOn[target]))
    else if target != "" && target in droppedOn then Some(DroppedDuringRun)
    else if BoundReached(h) then Some(MaxDurationReached)
    else None
  }

  method SkipUnit(s: Loop, n: nat, h: Events, reason: Reason) returns (t: Loop)
    requires Accounted(s, n) && s.h <= h
    requires reason == MaxDurationReached ==> BoundReached(h)
    requires LoopReason(reason)
    ensures Accounted(t, n + 1) && t.h == h && t.lint == s.lint
    ensures t.skipped == s.skipped + [(n, reason)] && t.ok == s.ok && t.failed == s.failed
    ensures t.cancelledOn == s.cancelledOn && t.droppedOn == s.droppedOn
  {
    hide BoundReached, Outcomes, ForBound, Upto, Stopped;
    LaterEvents(s, h);
    OneMore(n);
    OneSkipMore(s, n, reason);
    t := s.(h := h, skipped := s.skipped + [(n, reason)], done := s.done + [n]);
    if reason == MaxDurationReached {
      t := t.(maxReached := true, notStarted := t.notStarted + 1);
    }
    SameOutcomes(s.(skipped := s.skipped + [(n, reason)]), t, n + 1);
  }

  lemma SkipAppended(skipped: seq<(nat, Reason)>, n: nat, reason: Reason)
    ensures SkippedUnits(skipped + [(n, reason)]) == SkippedUnits(skipped) + [n]
    ensures ForBound(skipped + [(n, reason)]) == ForBound(skipped) + if reason == MaxDurationReached then 1 else 0
  {
    assert (skipped + [(n, reason)])[..|skipped|] == skipped;
  }

  lemma OneSkipMore(s: Loop, n: nat, reason: Reason)
    requires Outcomes(s, n)
    ensures Outcomes(s.(skipped := s.skipped + [(n, reason)]), n + 1)
    ensures ForBound(s.skipped + [(n, reason)]) == ForBound(s.skipped) + if reason == MaxDurationReached then 1 else 0
  {
    hide ForBound, Upto, SkippedUnits;
    OneMore(n);
    SkipAppended(s.skipped, n, reason);
  }

  lemma SameOutcomes(s: Loop, t: Loop, n: nat)
    requires Outcomes(s, n) && t.ok == s.ok && t.failed == s.failed && t.skipped == s.skipped
    requires forall k :: k in t.partial ==> k in s.partial || k < n
    ensures Outcomes(t, n)
  {}

  // ----- A unit -----

  /** databaseDropped: the name no longer resolves, and the catalog says the database is gone. */
  predicate DatabaseDropped(error: Option<Failure>, u: Unit, m: Meeting) {
    error.Some? && error.value.number == 911 && u.target != "" && m.gone
  }

  /** recordUnitFailure and noteDropped: what the unit's outcome is written down as, before
      the observer is told it is done. */
  method Record(s: Loop, n: nat, u: Unit, r: Ran, m: Meeting) returns (t: Loop, error: bool)
    requires Accounted(s, n)
    requires (r.error.None? <==> r.stored == Written) && (r.stored == PartlyWritten ==> r.error == Some(Failure(0, AsReturned)))
    requires r.cut ==> BoundReached(s.h) && r.error.Some?
    ensures s.h <= t.h && t.runErrors == 0 && Flags(t) && t.status != Fatal && t.lint == s.lint
    ensures t.status == Running ==> Outcomes(t, n + 1)
    ensures AtMostOnce(t, n + 1)
    ensures t.done == s.done + [n]
    ensures t.ok == s.ok + (if r.error.None? then [n] else [])
    ensures t.cancelledOn == if IsBlocked(r.error) && u.target != "" then s.cancelledOn[u.target := u.script] else s.cancelledOn
    ensures s.skipped <= t.skipped && s.droppedOn <= t.droppedOn
  {
    hide BoundReached, Stopped, Outcomes, AtMostOnce, ForBound, Upto, IsBlocked;
    error := r.error.Some?;
    var blocked := IsBlocked(r.error) && u.target != "";
    var h := s.h + m.lands(5);
    NotEarlier(s.h, m.lands(5));
    var marked := Marked(s, r.cut, if blocked then s.cancelledOn[u.target := u.script] else s.cancelledOn, n);
    SameOutcomes(s, marked, n);
    if error && !Stopped(h) && DatabaseDropped(r.error, u, m) {
      t := NoteDropped(marked, n, h, u.target);
      EndedAtMostOnce(t, n + 1);
      return t, false;
    }
    if !error {
      t := NoteOk(marked, n, h);
      EndedAtMostOnce(t, n + 1);
      return;
    }
    NotEarlier(h, m.lands(6));
    t := NoteFailure(marked, n, h + m.lands(6), r);
  }

  /** The unit told to the observer, with what the bound and the watch did to it marked first. */
  function Marked(s: Loop, cut: bool, cancelledOn: map<string, string>, n: nat): Loop {
    s.(maxReached := s.maxReached || cut, stoppedByBound := s.stoppedByBound || cut,
       cancelledOn := cancelledOn, done := s.done + [n])
  }

  method NoteDropped(s: Loop, n: nat, h: Events, db: string) returns (t: Loop)
    requires s.status == Running && Flags(s) && Outcomes(s, n) && s.h <= h
    ensures t.status == Running && Flags(t) && Outcomes(t, n + 1) && t.h == h
    ensures t == s.(h := h, droppedOn := s.droppedOn + {db}, skipped := s.skipped + [(n, DroppedDuringRun)])
  {
    hide BoundReached, Stopped, Outcomes, ForBound;
    LaterEvents(s, h);
    OneSkipMore(s, n, DroppedDuringRun);
    t := s.(h := h, droppedOn := s.droppedOn + {db}, skipped := s.skipped + [(n, DroppedDuringRun)]);
    SameOutcomes(s.(skipped := s.skipped + [(n, DroppedDuringRun)]), t, n + 1);
  }

  method NoteOk(s: Loop, n: nat, h: Events) returns (t: Loop)
    requires s.status == Running && Flags(s) && Outcomes(s, n) && s.h <= h
    ensures t.status == Running && Flags(t) && Outcomes(t, n + 1)
    ensures t == s.(h := h, collected := s.collected + 1, ok := s.ok + [n])
  {
    hide BoundReached, Stopped, Outcomes, ForBound;
    LaterEvents(s, h);
    OneOkMore(s, n);
    t := s.(h := h, collected := s.collected + 1, ok := s.ok + [n]);
    SameOutcomes(s.(ok := s.ok + [n]), t, n + 1);
  }

  /** recordUnitFailure asks the run's context before a word is written: a stopped run drops the
      error. A unit the bound cut is recorded, and is not a failure of the run's own. */
  method NoteFailure(s: Loop, n: nat, h: Events, r: Ran) returns (t: Loop)
    requires s.status == Running && Flags(s) && Outcomes(s, n) && s.h <= h && (r.cut ==> s.maxReached)
    ensures Flags(t) && t.h == h && t.runErrors == s.runErrors && t.lint == s.lint && AtMostOnce(t, n + 1)
    ensures Stopped(h) ==> t.status == StoppedByOperator && t.cancelled && t.failed == s.failed && t.exit == s.exit && t.earned == s.earned
    ensures !Stopped(h) ==> t.status == Running && t.cancelled == s.cancelled && t.failed == s.failed + [n] && Outcomes(t, n + 1)
    ensures !Stopped(h) && r.cut ==> t.exit == s.exit && t.earned == s.earned
    ensures !Stopped(h) && !r.cut ==> t.exit == t.earned == 2
    ensures t.partial == if r.stored == PartlyWritten then s.partial + [n] else s.partial
    ensures t.ok == s.ok && t.done == s.done && t.skipped == s.skipped
    ensures t.cancelledOn == s.cancelledOn && t.droppedOn == s.droppedOn && t.maxReached == s.maxReached && t.notStarted == s.notStarted
  {
    hide BoundReached, Stopped, Outcomes, AtMostOnce, ForBound;
    LaterEvents(s, h);
    var partial := if r.stored == PartlyWritten then s.partial + [n] else s.partial;
    if Stopped(h) {
      t := s.(h := h, partial := partial, cancelled := true, status := StoppedByOperator);
      NotYetEnded(s, t, n);
      return;
    }
    OneFailedMore(s, n);
    var exit, earned := if r.cut then s.exit else 2, if r.cut then s.earned else 2;
    t := s.(h := h, partial := partial, failed := s.failed + [n], exit := exit, earned := earned);
    SameOutcomes(s.(failed := s.failed + [n]), t, n + 1);
    EndedAtMostOnce(t, n + 1);
  }

  lemma OnlyLoopReasons(s: Loop)
    requires Flags(s)
    ensures forall x :: x in s.skipped ==> LoopReason(x.1)
  {}

  lemma EndedAtMostOnce(s: Loop, n: nat)
    requires Outcomes(s, n)
    ensures AtMostOnce(s, n)
  {}

  /** A unit that is left without an outcome. */
  lemma NotYetEnded(s: Loop, t: Loop, n: nat)
    requires Outcomes(s, n) && t.ok == s.ok && t.failed == s.failed && t.skipped == s.skipped
    requires forall k :: k in t.partial ==> k in s.partial || k == n
    ensures AtMostOnce(t, n + 1)
  {
    OneMore(n);
  }

  lemma OneOkMore(s: Loop, n: nat)
    requires Outcomes(s, n)
    ensures Outcomes(s.(ok := s.ok + [n]), n + 1)
  {
    OneMore(n);
  }

  lemma OneFailedMore(s: Loop, n: nat)
    requires Outcomes(s, n)
    ensures Outcomes(s.(failed := s.failed + [n]), n + 1)
  {
    OneMore(n);
  }

  /** A unit that closed its connection gets a new one, unless a stop or the bound has landed:
      nothing uses it then. */
  method Reopen(h: Events, m: Meeting) returns (h': Events, next: Next)
    ensures h <= h' && (BoundReached(h) ==> BoundReached(h'))
    ensures Blamed(h', next, !m.closed || m.reopens || Stopped(h + m.lands(1)))
    ensures Stopped(h + m.lands(1)) || BoundReached(h + m.lands(1)) ==> h' == h + m.lands(1) && next == GoOn
  {
    hide Stopped, BoundReached;
    NotEarlier(h, m.lands(1));
    h', next := h + m.lands(1), GoOn;
    if m.closed && !Stopped(h') && !BoundReached(h') {
      h' := h' + m.lands(2);
      if !m.reopens {
        next := AfterFailedStep(h');
      }
    }
  }

  /** One turn of the loop. On a database where the watch cancelled a collector, or one found
      dropped, nothing runs. */
  method RunOne(s: Loop, n: nat, u: Unit, m: Meeting) returns (t: Loop)
    requires Accounted(s, n)
    ensures Ended(t, n) && t.lint == s.lint
    ensures u.target != "" && u.target in s.cancelledOn ==>
      t.ok == s.ok && t.failed == s.failed && t.skipped == s.skipped + [(n, HeldBack(s.cancelledOn[u.target]))]
    ensures u.target != "" && u.target !in s.cancelledOn && u.target in s.droppedOn ==>
      t.ok == s.ok && t.failed == s.failed && t.skipped == s.skipped + [(n, DroppedDuringRun)]
    ensures s.skipped <= t.skipped && s.cancelledOn.Keys <= t.cancelledOn.Keys && s.droppedOn <= t.droppedOn
  {
    hide BoundReached, Stopped, Outcomes, AtMostOnce, ForBound, Flags, Upto, RunUnit, IsBlocked, LoopReason;
    var h := s.h + m.lands(0);
    var reason := SkipBefore(s.cancelledOn, s.droppedOn, h, u.target);
    if reason.Some? {
      t := SkipUnit(s, n, h, reason.value);
      EndedAtMostOnce(t, n + 1);
      OnlyLoopReasons(t);
      return;
    }
    var r := RunUnit(h, n, u, m);
    CutUnitIsNotBlocked(h, n, u, m);
    var next;
    h, next := Reopen(r.h, m);
    if next != GoOn {
      NotYetEnded(s, s, n);
      t := Leave(s, h, next);
      LeaveEnds(s, n, h, next);
      return;
    }
    LaterEvents(s, h);
    SameOutcomes(s, s.(h := h), n);
    var error;
    t, error := Record(s.(h := h), n, u, r, m);
    OnlyLoopReasons(t);
    if t.status == Running {
      OneMore(n);
      t := LeaveUnit(t, n, error, m);
    }
  }

  /** The end of a turn: what comes between this unit and the next. */
  method LeaveUnit(s: Loop, n: nat, error: bool, m: Meeting) returns (t: Loop)
    requires s.status == Running && Flags(s) && s.runErrors == 0 && Outcomes(s, n + 1) && s.done == Upto(n + 1)
    ensures Ended(t, n) && t.lint == s.lint && t.skipped == s.skipped && t.cancelledOn == s.cancelledOn && t.droppedOn == s.droppedOn
  {
    hide BoundReached, Stopped, Outcomes, AtMostOnce, Flags;
    EndedAtMostOnce(s, n + 1);
    var h, next;
    if error {
      h, next := AfterFailure(s.h, m);
    } else {
      h, next := AfterSuccess(s.h, m);
    }
    t := Leave(s, h, next);
    LeaveEnds(s, n, h, next);
  }

  function Start(h: Events, lint: nat): Loop {
    var exit := if lint > 0 then 2 else 0;
    Loop(h, Running, lint, exit, exit, false, false, 0, false, 0, 0, map[], {}, [], [], [], [], [])
  }

  lemma StartAccounted(h: Events, lint: nat)
    ensures Accounted(Start(h, lint), 0)
  {}

  /** The databases on which nothing more runs: where the watch cancelled a collector, and those
      found dropped. */
  datatype Closed = Closed(blocked: set<string>, dropped: set<string>)

  function ClosedTo(t: Loop): Closed { Closed(t.cancelledOn.Keys, t.droppedOn) }

  predicate Within(a: Closed, b: Closed) { a.blocked <= b.blocked && a.dropped <= b.dropped }

  /** The databases closed before each unit stay closed, and a unit on one of them was set aside
      for that reason, the watch's before the drop's. */
  ghost predicate LeftAlone(t: Loop, units: seq<Unit>, held: seq<Closed>) {
    && |held| <= |units|
    && (forall i, j :: 0 <= i <= j < |held| ==> Within(held[i], held[j]))
    && (forall i :: 0 <= i < |held| ==> Within(held[i], ClosedTo(t)))
    && (forall n :: 0 <= n < |held| && units[n].target != "" && units[n].target in held[n].blocked ==>
          exists collector :: (n, HeldBack(collector)) in t.skipped)
    && (forall n :: 0 <= n < |held| && units[n].target != "" && units[n].target in held[n].dropped - held[n].blocked ==>
          (n, DroppedDuringRun) in t.skipped)
  }

  lemma MoreLeftAlone(s: Loop, t: Loop, units: seq<Unit>, held: seq<Closed>)
    requires LeftAlone(s, units, held) && |held| < |units|
    requires s.skipped <= t.skipped && Within(ClosedTo(s), ClosedTo(t))
    requires var u := units[|held|]; u.target != "" && u.target in s.cancelledOn ==> t.skipped == s.skipped + [(|held|, HeldBack(s.cancelledOn[u.target]))]
    requires var u := units[|held|]; u.target != "" && u.target !in s.cancelledOn && u.target in s.droppedOn ==> t.skipped == s.skipped + [(|held|, DroppedDuringRun)]
    ensures LeftAlone(t, units, held + [ClosedTo(s)])
  {
    var more, n := held + [ClosedTo(s)], |held|;
    assert forall x :: x in s.skipped ==> x in t.skipped;
    if units[n].target != "" && units[n].target in s.cancelledOn {
      assert (n, HeldBack(s.cancelledOn[units[n].target])) in t.skipped;
    }
    assert forall i :: 0 <= i < n ==> more[i] == held[i];
  }

  /** No error, no stop, no cut. */
  ghost predicate Clean(t: Loop) {
    t.failed == [] && t.partial == [] && t.runErrors == 0 && !t.cancelled && !t.maxReached
  }

  /** The errors of the manifest: the scripts that failed the lint, the failed units, and the
      errors that name no collector. */
  function ManifestErrors(t: Loop, units: seq<Unit>, lint: seq<string>): seq<Unit> {
    seq(|lint|, k requires 0 <= k < |lint| => Unit(lint[k], ""))
    + seq(|t.failed|, k requires 0 <= k < |t.failed| => if t.failed[k] < |units| then units[t.failed[k]] else Unit("", ""))
    + seq(t.runErrors, k => Unit("", ""))
  }

  /** The loop over the plan, and settleRun. A run that nobody stopped and that did not die
      reported every planned unit done once, and each of them ended as one of a result, an error
      or a skip; no run ends a unit twice. A run that exits 0 has no error of any kind, no stop
      and no cut. A run exits 1 only when it died, and then nobody had stopped it and the bound
      had not been reached. As many units were not started as were skipped for the bound, and
      the bound's flag is up exactly when it skipped a unit or cut one. */
  method RunUnits(h: Events, units: seq<Unit>, meetings: seq<Meeting>, lint: seq<string>)
      returns (t: Loop, code: nat, discard: bool, ghost held: seq<Closed>)
    requires |meetings| == |units|
    ensures LeftAlone(t, units, held)
    ensures AtMostOnce(t, |units|) && forall x :: x in t.skipped ==> LoopReason(x.1)
    ensures code == 1 <==> t.status == Fatal
    ensures t.status == Fatal ==> !discard && !Stopped(t.h) && !BoundReached(t.h)
    ensures t.status != Fatal ==> Flags(t) && (code, discard) == Superseded.SettleRun(t.exit, t.cancelled || t.maxReached)
    ensures t.status == Running ==> Outcomes(t, |units|) && t.done == Upto(|units|)
    ensures code == 0 ==> Clean(t) && t.done == Upto(|units|) && ManifestErrors(t, units, lint) == []
    ensures t.status != Fatal ==>
      t.notStarted == ForBound(t.skipped) <= |t.skipped| && (t.maxReached <==> ForBound(t.skipped) > 0 || t.stoppedByBound)
    ensures t.cancelled && t.maxReached && t.status != Fatal ==> BoundReached(t.h) && Stopped(t.h)
    ensures discard ==> code == 0
  {
    hide BoundReached, Stopped, Outcomes, AtMostOnce, ForBound, Upto;
    t := Start(h, |lint|);
    StartAccounted(h, |lint|);
    EndedAtMostOnce(t, 0);
    held := [];
    var n := 0;
    while n < |units|
      invariant 0 <= n <= |units| && Accounted(t, n) && AtMostOnce(t, n) && t.lint == |lint|
      invariant |held| == n && LeftAlone(t, units, held)
    {
      hide Accounted, Flags, LeftAlone;
      var was := t;
      t := RunOne(t, n, units[n], meetings[n]);
      MoreLeftAlone(was, t, units, held);
      held := held + [ClosedTo(was)];
      MoreUnits(t, n + 1, |units|);
      if t.status == Fatal {
        return t, 1, false, held;
      }
      if t.status == StoppedByOperator {
        break;
      }
      n := n + 1;
    }
    var settled := Superseded.SettleRun(t.exit, t.cancelled || t.maxReached);
    code, discard := settled.0, settled.1;
    ForBoundAtMost(t.skipped);
  }

  lemma {:induction false} MoreUnits(t: Loop, n: nat, all: nat)
    requires AtMostOnce(t, n) && n <= all
    ensures AtMostOnce(t, all)
    decreases all - n
  {
    if n < all {
      OneMore(n);
      MoreUnits(t, n + 1, all);
    }
  }

  lemma {:induction false} ForBoundAtMost(skipped: seq<(nat, Reason)>)
    ensures ForBound(skipped) <= |skipped|
  {
    if skipped != [] { ForBoundAtMost(skipped[..|skipped| - 1]); }
  }

  // ----- What the run's manifest says -----

  /** A manifest with both flags set is one the bound cut first and the operator stopped after. */
  lemma BothFlagsMeanTheBoundFirst(t: Loop)
    requires Flags(t) && t.cancelled && t.maxReached
    ensures exists i, j :: 0 <= i < j < |t.h| && t.h[i] == Bound && t.h[j] == Stop && Stop !in t.h[..i]
  {
    hide ForBound;
    BoundBeforeStop(t.h);
    var i :| 0 <= i < |t.h| && t.h[i] == Bound && Stop !in t.h[..i];
    var j :| 0 <= j < |t.h| && t.h[j] == Stop;
    assert forall k :: 0 <= k < i ==> t.h[..i][k] == t.h[k];
  }
}
