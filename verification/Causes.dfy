/**
 Who stopped what. A context keeps the first cause it was cancelled with, so every question of
 collect/maxduration.go, collect/cancel.go and collect/watch.go about a stop is a question about
 the first event, of those that reach a context, in the order things happened.
 */
module Causes {
  import opened Options

  /** What can cancel a context: the operator, the collection's maximum duration, the blocking
      watch on one unit, and the deadline of one server call. */
  datatype Event = Stop | Bound | Watch(unit: nat) | Expired(unit: nat, call: nat)

  type Events = seq<Event>

  /** The contexts, each the parent of the next. */
  datatype Context = RunCtx | BoundCtx | UnitCtx(unit: nat) | CallCtx(unit: nat, call: nat)

  predicate Cancels(e: Event, c: Context) {
    match c
    case RunCtx => e == Stop
    case BoundCtx => e == Stop || e == Bound
    case UnitCtx(u) => e == Stop || e == Bound || e == Watch(u)
    case CallCtx(u, k) => e == Stop || e == Bound || e == Watch(u) || e == Expired(u, k)
  }

  /** context.Cause. */
  function Cause(h: Events, c: Context): Option<Event> {
    if h == [] then None else if Cancels(h[0], c) then Some(h[0]) else Cause(h[1..], c)
  }

  predicate Stopped(h: Events) { Cause(h, RunCtx).Some? }

  /** boundReached: the bound fired before anything else cancelled its context. */
  predicate BoundReached(h: Events) { Cause(h, BoundCtx) == Some(Bound) }

  lemma {:induction false} CauseStays(h: Events, more: Events, c: Context)
    requires Cause(h, c).Some?
    ensures Cause(h + more, c) == Cause(h, c)
  {
    if !Cancels(h[0], c) {
      CauseStays(h[1..], more, c);
      assert (h + more)[1..] == h[1..] + more;
    }
  }

  /** A cause that reaches a context from outside is the cause of the contexts around it. */
  lemma {:induction false} CauseOfParent(h: Events, unit: nat, call: nat)
    ensures Cause(h, CallCtx(unit, call)) == Some(Bound) ==> Cause(h, UnitCtx(unit)) == Some(Bound)
    ensures Cause(h, UnitCtx(unit)) == Some(Bound) ==> BoundReached(h)
    ensures Cause(h, UnitCtx(unit)) == Some(Watch(unit)) ==>
      Cause(h, CallCtx(unit, call)) == Some(Watch(unit)) || Cause(h, CallCtx(unit, call)) == Some(Expired(unit, call))
  {
    if h != [] { CauseOfParent(h[1..], unit, call); }
  }

  /** The bound and the stop: whichever comes first keeps the bound's context. */
  lemma {:induction false} BoundBeforeStop(h: Events)
    ensures BoundReached(h) <==> exists i :: 0 <= i < |h| && h[i] == Bound && Stop !in h[..i]
    ensures Stopped(h) <==> Stop in h
  {
    if h == [] { return; }
    BoundBeforeStop(h[1..]);
    if h[0] == Bound {
      assert Stop !in h[..0];
    } else if h[0] != Stop {
      if BoundReached(h[1..]) {
        var i :| 0 <= i < |h| - 1 && h[1..][i] == Bound && Stop !in h[1..][..i];
        assert h[..i + 1] == [h[0]] + h[1..][..i] && h[i + 1] == Bound;
      }
      if i :| 0 <= i < |h| && h[i] == Bound && Stop !in h[..i] {
        assert h[1..][..i - 1] == h[..i][1..] && h[1..][i - 1] == Bound;
      }
    } else {
      assert forall i :: 0 < i <= |h| ==> h[..i][0] == Stop;
    }
  }

  // ----- What a failed call is reported as -----

  /** `number` is the SQL Server error number, 0 for a failure that is not the server's own. */
  datatype Words = AsReturned | StoppedByBound | StillRunning | BlockedByWatch

  datatype Failure = Failure(number: nat, words: Words)

  /** maxDurationOr, for the steps whose own deadline has no sentence. */
  function MaxDurationOr(h: Events, call: Context, f: Failure): Failure {
    if Stopped(h) || Cause(h, call) != Some(Bound) || f.number != 0 then f else f.(words := StoppedByBound)
  }

  /** outOfTime, for a unit's query: the context's error is a deadline's exactly when its cause is. */
  function OutOfTime(h: Events, call: Context, f: Failure): Failure {
    var cause := Cause(h, call);
    if Stopped(h) || cause.None? || cause.value == Stop || cause.value.Watch? || f.number != 0 then f
    else if cause.value == Bound then f.(words := StoppedByBound)
    else f.(words := StillRunning)
  }

  /** blockedOr: the watch's own error when the watch cancelled the unit. */
  function BlockedOr(h: Events, unit: nat, f: Failure): Failure {
    if Cause(h, UnitCtx(unit)) == Some(Watch(unit)) then Failure(0, BlockedByWatch) else f
  }

  /** A call the bound stopped is never also reported as the watch's doing, however the stop,
      the bound, the watch and the call's own deadline fall, and whatever lands afterwards. */
  lemma CutIsNotBlocked(h: Events, more: Events, unit: nat, call: nat, f: Failure)
    requires Cause(h, CallCtx(unit, call)) == Some(Bound)
    ensures BlockedOr(h + more, unit, f) == f
    ensures BoundReached(h + more)
  {
    CauseOfParent(h, unit, call);
    CauseStays(h, more, UnitCtx(unit));
    CauseStays(h, more, BoundCtx);
  }

  /** A sentence naming the bound is only ever written about a call the bound stopped while the
      run went on, and a SQL Server error keeps its own words. */
  lemma BoundIsNotBlamedWrongly(h: Events, unit: nat, call: nat, f: Failure)
    requires f.words == AsReturned
    ensures var ctx := CallCtx(unit, call);
      var r := BlockedOr(h, unit, OutOfTime(h, ctx, f));
      && (r.words == StoppedByBound ==> BoundReached(h) && Stop !in h && f.number == 0)
      && (r.words == StillRunning ==> Cause(h, ctx) == Some(Expired(unit, call)) && f.number == 0)
      && (r.words == BlockedByWatch <==> Cause(h, UnitCtx(unit)) == Some(Watch(unit)))
  {
    CauseOfParent(h, unit, call);
    BoundBeforeStop(h);
    CauseCancels(h, CallCtx(unit, call));
  }

  lemma {:induction false} CauseCancels(h: Events, c: Context)
    ensures Cause(h, c).Some? ==> Cancels(Cause(h, c).value, c)
  {
    if h != [] { CauseCancels(h[1..], c); }
  }
}
