/**
 The blockingWatch of collect/watch.go as an object: each method is one critical section, and
 does to the fields what the step of the same name in Watch does to its state.
 */
module WatchProgram {
  import opened Options
  import opened Watch

  class BlockingWatch {
    const lim: Limits

    var armed: bool
    var spid: int
    var worst: Sample
    var fired: bool
    var waiters: map<int, Identity>
    var stopped: bool

    /** Where the goroutine is, and what happened so far. */
    ghost var phase: Phase
    ghost var spids: seq<int>
    ghost var credits: seq<Credit>
    ghost var lookups: nat
    ghost var cancels: seq<Credit>

    ghost function State(): Watch.State
      reads this
    {
      Watch.State(armed, spid, worst, fired, waiters, stopped, phase, spids, credits, lookups, cancels)
    }

    constructor (lim: Limits)
      ensures State() == Watch.START && this.lim == lim
    {
      this.lim := lim;
      armed, spid, worst, fired, waiters, stopped := false, 0, NOBODY, false, map[], false;
      phase, spids, credits, lookups, cancels := Idle, [], [], 0, [];
    }

    /** arm: watch a session on behalf of a unit. */
    method Arm(id: int)
      modifies this
      ensures State() == Watch.Arm(old(State()), id)
    {
      armed, spid := true, id;
      worst, fired := NOBODY, false;
      waiters := map[];
      spids, lookups := spids + [id], 0;
    }

    /** disarmed: end the unit's watch, and say what it saw. */
    method Disarmed() returns (longest: Sample, seen: nat, who: Option<Identity>, hasFired: bool)
      modifies this
      ensures State() == Disarm(old(State()))
      ensures longest == worst && seen == |waiters| && hasFired == fired
      ensures who == if worst.session in waiters then Some(waiters[worst.session]) else None
    {
      armed := false;
      longest, seen, hasFired := worst, |waiters|, fired;
      who := if worst.session in waiters then Some(waiters[worst.session]) else None;
    }

    /** The start of tick: read under the lock whether a unit is armed, and for which session. */
    method BeginTick() returns (poll: bool, id: int)
      requires phase == Idle
      modifies this`phase
      ensures State() == Begin(old(State()))
      ensures poll <==> phase.Polling?
      ensures poll ==> id == phase.polled
    {
      poll, id := armed, spid;
      if poll {
        phase := Polling(id, |spids|, 0);
      }
    }

    /** A poll that failed: retried a bounded number of times, then the watch is over. */
    method PollFailed(failures: nat) returns (goOn: bool)
      requires phase.Polling? && phase.failures == failures
      modifies this
      ensures State() == PollFails(old(State()), lim)
      ensures goOn <==> phase.Polling?
    {
      goOn := failures < lim.retries;
      if goOn {
        phase := phase.(failures := failures + 1);
      } else {
        stopped := true;
        phase := Over;
      }
    }

    /** The rest of tick, up to the identity read. `identify` tells the goroutine to release the
        lock for one. */
    method PollAnswered(id: int, s: Sample) returns (identify: bool)
      requires phase.Polling? && phase.polled == id
      modifies this
      ensures State() == PollAnswers(old(State()), s, lim)
      ensures identify <==> phase.Identifying?
    {
      identify := false;
      if !armed || spid != id || !Seen(s) {
        phase := Idle;
        return;
      }
      ghost var credit := Credit(|spids|, s, id, phase.since);
      credits := credits + [credit];
      if s.waited > worst.waited {
        worst := s;
      }
      if s.waited >= lim.after && !fired {
        fired := true;
        cancels := cancels + [credit];
      }
      assert State() == CreditTo(old(State()), s, lim);
      identify := NameWaiter(id, s.session);
    }

    /** The start of identifyLocked, and the test before it: a session is named the first time it
        is seen, unless the unit has read enough. */
    method NameWaiter(id: int, session: int) returns (identify: bool)
      requires phase.Polling? && phase.polled == id
      modifies this`phase, this`waiters, this`lookups
      ensures State() == Name(old(State()), session, lim)
      ensures identify <==> phase.Identifying?
    {
      identify := false;
      if session in waiters {
        phase := Idle;
      } else if !lim.canIdentify || |waiters| >= lim.identifyMax {
        waiters := waiters[session := NotAttempted];
        phase := Idle;
      } else {
        identify := true;
        lookups := lookups + 1;
        phase := Identifying(session, id, |spids|);
      }
    }

    /** The lock is held again with an identity in hand: the unit may have finished meanwhile. */
    method IdentityRead(id: int, waiter: int, who: Identity)
      requires phase.Identifying? && phase.polled == id && phase.waiter == waiter
      modifies this
      ensures State() == Identified(old(State()), who)
    {
      if armed && spid == id {
        waiters := waiters[waiter := who];
      }
      phase := Idle;
    }
  }
}
