/**
 The blocking watch of collect/watch.go: the run loop and one goroutine share a mutex. Every
 step below is one critical section of one of the two, so a run of the program is a sequence
 of steps in any order, whatever the polls and the identity reads answer and however late.
 */
module Watch {
  /** One waiter as a poll saw it; session 0 when nobody waits. */
  datatype Sample = Sample(session: int, waited: int)

  const NOBODY := Sample(0, 0)

  predicate Seen(s: Sample) { s.session != 0 }

  /** What the record of a waiter says of its identity. */
  datatype Identity = NotAttempted | NoSession | Failed | Known

  /** Where the watch's goroutine is, the lock released: between ticks, waiting for a poll's
      answer, or waiting for an identity. Each remembers the session id it read when the tick
      began; the arming then current is `since`, the one the identity is read for `during`. `failures` counts the polls of one tick that failed. */
  datatype Phase =
    | Idle
    | Polling(polled: int, since: nat, failures: nat)
    | Identifying(waiter: int, polled: int, during: nat)
    | Over

  /** A sample credited to an arming, polled for a session id during some arming. */
  datatype Credit = Credit(arming: nat, sample: Sample, polled: int, since: nat)

  /** The watch's fields, and what happened so far: the session ids of the armings (arming `a`
      watched `spids[a - 1]`), the credited samples, the identity reads started in the current
      arming, and the credits that cancelled a unit. */
  datatype State = State(armed: bool, spid: int, worst: Sample, fired: bool, waiters: map<int, Identity>, stopped: bool,
                         phase: Phase, spids: seq<int>, credits: seq<Credit>, lookups: nat, cancels: seq<Credit>)

  /** The limits: how long a wait cancels, how many identities an arming may read, whether it
      can read any, and how often a failed poll is retried. */
  datatype Limits = Limits(after: int, identifyMax: nat, canIdentify: bool, retries: nat)

  const START := State(false, 0, NOBODY, false, map[], false, Idle, [], [], 0, [])

  function Arming(s: State): nat { |s.spids| }

  // ----- The steps -----

  function Arm(s: State, spid: int): State {
    s.(armed := true, spid := spid, worst := NOBODY, fired := false, waiters := map[], spids := s.spids + [spid], lookups := 0)
  }

  function Disarm(s: State): State { s.(armed := false) }

  /** The tick begins: without an armed unit there is nothing to poll. */
  function Begin(s: State): State {
    if s.phase == Idle && s.armed then s.(phase := Polling(s.spid, Arming(s), 0)) else s
  }

  /** A failed poll is retried a bounded number of times, then the watch stops for good. */
  function PollFails(s: State, lim: Limits): State {
    if !s.phase.Polling? then s
    else if s.phase.failures >= lim.retries then s.(phase := Over, stopped := true)
    else s.(phase := s.phase.(failures := s.phase.failures + 1))
  }

  /** The run is ending: the watch goes without a word, between ticks or between two polls. An
      identity read is waited for. */
  function Quit(s: State): State { if s.phase.Identifying? then s else s.(phase := Over) }

  /** The sample is about the session armed now. */
  predicate Current(s: State, polled: int, sample: Sample) { s.armed && s.spid == polled && Seen(sample) }

  function Raised(worst: Sample, sample: Sample): Sample { if sample.waited > worst.waited then sample else worst }

  function Fires(s: State, sample: Sample, lim: Limits): bool { sample.waited >= lim.after && !s.fired }

  function CreditOf(s: State, sample: Sample): Credit
    requires s.phase.Polling?
  {
    Credit(Arming(s), sample, s.phase.polled, s.phase.since)
  }

  /** The cancel comes first, whatever else the sample leads to. */
  function CreditTo(s: State, sample: Sample, lim: Limits): State
    requires s.phase.Polling?
  {
    var c := CreditOf(s, sample);
    s.(worst := Raised(s.worst, sample), credits := s.credits + [c],
       fired := s.fired || Fires(s, sample, lim),
       cancels := if Fires(s, sample, lim) then s.cancels + [c] else s.cancels)
  }

  /** A session is named the first time it is seen waiting, unless the arming has read enough. */
  function Name(s: State, waiter: int, lim: Limits): State
    requires s.phase.Polling?
  {
    if waiter in s.waiters then s.(phase := Idle)
    else if !lim.canIdentify || |s.waiters| >= lim.identifyMax
    then s.(phase := Idle, waiters := s.waiters[waiter := NotAttempted])
    else s.(phase := Identifying(waiter, s.phase.polled, Arming(s)), lookups := s.lookups + 1)
  }

  function PollAnswers(s: State, sample: Sample, lim: Limits): State {
    if !s.phase.Polling? then s
    else if !Current(s, s.phase.polled, sample) then s.(phase := Idle)
    else Name(CreditTo(s, sample, lim), sample.session, lim)
  }

  /** The identity arrives, perhaps after the unit was disarmed. */
  function Identified(s: State, who: Identity): State {
    if !s.phase.Identifying? then s
    else if s.armed && s.spid == s.phase.polled then s.(phase := Idle, waiters := s.waiters[s.phase.waiter := who])
    else s.(phase := Idle)
  }

  datatype Step = ArmStep(spid: int) | DisarmStep | BeginStep | FailStep | QuitStep | AnswerStep(sample: Sample) | IdentityStep(who: Identity)

  function Next(s: State, e: Step, lim: Limits): State {
    match e
    case ArmStep(spid) => Arm(s, spid)
    case DisarmStep => Disarm(s)
    case BeginStep => Begin(s)
    case FailStep => PollFails(s, lim)
    case QuitStep => Quit(s)
    case AnswerStep(sample) => PollAnswers(s, sample, lim)
    case IdentityStep(who) => Identified(s, who)
  }

  function Play(es: seq<Step>, lim: Limits): State {
    if es == [] then START else Next(Play(es[..|es| - 1], lim), es[|es| - 1], lim)
  }

  // ----- What every interleaving keeps -----

  /** The longest wait credited to an arming, 0 when nobody waited. */
  function Longest(credits: seq<Credit>, arming: nat): int {
    if credits == [] then 0
    else
      var last, before := credits[|credits| - 1], Longest(credits[..|credits| - 1], arming);
      if last.arming == arming && last.sample.waited > before then last.sample.waited else before
  }

  /** A credit is for a session id its own arming watched, polled when an arming watched it. */
  predicate Sound(spids: seq<int>, c: Credit) {
    && 0 < c.arming <= |spids| && 0 < c.since <= |spids|
    && spids[c.arming - 1] == c.polled == spids[c.since - 1] && Seen(c.sample)
  }

  ghost predicate Credits(s: State, lim: Limits) {
    && (forall c :: c in s.credits ==> Sound(s.spids, c))
    && (forall c :: c in s.cancels ==> c in s.credits && c.sample.waited >= lim.after)
    && (forall i, j :: 0 <= i < j < |s.cancels| ==> s.cancels[i].arming < s.cancels[j].arming)
  }

  ghost predicate Firing(s: State, lim: Limits) {
    && s.worst.waited == Longest(s.credits, Arming(s))
    && (s.fired <==> s.worst.waited >= lim.after)
    && (s.fired <==> exists c :: c in s.cancels && c.arming == Arming(s))
  }

  ghost predicate Phases(s: State) {
    && (s.armed ==> s.spids != [] && s.spid == s.spids[|s.spids| - 1])
    && (s.phase.Polling? ==> 0 < s.phase.since <= |s.spids| && s.spids[s.phase.since - 1] == s.phase.polled)
    && (s.phase.Identifying? ==> 0 < s.phase.during <= |s.spids| && s.spids[s.phase.during - 1] == s.phase.polled)
  }

  /** The identity read that is under way for the current arming. */
  function Pending(s: State): nat { if s.phase.Identifying? && s.phase.during == Arming(s) then 1 else 0 }

  ghost predicate Reading(s: State, lim: Limits) {
    && s.lookups <= lim.identifyMax
    && (s.armed ==> s.lookups <= |s.waiters| + Pending(s))
    && (s.phase.Identifying? && s.armed ==> s.phase.waiter !in s.waiters)
  }

  ghost predicate Inv(s: State, lim: Limits) {
    Credits(s, lim) && Firing(s, lim) && Phases(s) && Reading(s, lim)
  }

  lemma {:induction false} LongestOfLater(credits: seq<Credit>, arming: nat)
    requires forall c :: c in credits ==> c.arming < arming
    ensures Longest(credits, arming) == 0
  {
    if credits != [] {
      assert forall c :: c in credits[..|credits| - 1] ==> c in credits;
      assert credits[|credits| - 1] in credits;
      LongestOfLater(credits[..|credits| - 1], arming);
    }
  }

  lemma ArmKeeps(s: State, spid: int, lim: Limits)
    requires Inv(s, lim) && lim.after > 0
    ensures Inv(Arm(s, spid), lim)
  {
    var t := Arm(s, spid);
    forall c | c in t.credits ensures Sound(t.spids, c) { assert Sound(s.spids, c); }
    LongestOfLater(s.credits, Arming(t));
    assert forall c :: c in t.cancels ==> c in s.credits && c.arming < Arming(t);
  }

  lemma CreditIsSound(s: State, sample: Sample)
    requires Phases(s) && s.phase.Polling? && Current(s, s.phase.polled, sample)
    ensures Sound(s.spids, CreditOf(s, sample))
  {}

  /** A watch that has not fired in this arming has cancelled nothing in it. */
  lemma NoCancelYet(s: State, lim: Limits)
    requires Credits(s, lim) && Firing(s, lim) && !s.fired
    ensures forall i :: 0 <= i < |s.cancels| ==> s.cancels[i].arming < Arming(s)
  {
    hide Longest;
    forall i | 0 <= i < |s.cancels| ensures s.cancels[i].arming < Arming(s) {
      assert s.cancels[i] in s.cancels && s.cancels[i] in s.credits && Sound(s.spids, s.cancels[i]);
    }
  }

  lemma CreditsMore(s: State, sample: Sample, lim: Limits)
    requires Credits(s, lim) && Firing(s, lim) && s.phase.Polling? && Sound(s.spids, CreditOf(s, sample))
    ensures Credits(CreditTo(s, sample, lim), lim)
  {
    hide Sound, Longest, Firing, Raised;
    var t, c := CreditTo(s, sample, lim), CreditOf(s, sample);
    assert forall x :: x in t.credits <==> x in s.credits || x == c;
    if Fires(s, sample, lim) {
      NoCancelYet(s, lim);
      assert t.cancels == s.cancels + [c];
    } else {
      assert t.cancels == s.cancels;
    }
  }

  lemma FiringMore(s: State, sample: Sample, lim: Limits)
    requires Firing(s, lim) && s.phase.Polling?
    ensures Firing(CreditTo(s, sample, lim), lim)
  {
    hide Sound;
    var t, c := CreditTo(s, sample, lim), CreditOf(s, sample);
    assert t.credits[..|s.credits|] == s.credits && t.credits[|s.credits|] == c;
    LongestMore(s.credits, c);
    hide Longest;
    if Fires(s, sample, lim) {
      assert t.cancels[|s.cancels|] == c && c in t.cancels && c.arming == Arming(t);
    } else {
      assert t.cancels == s.cancels;
    }
  }

  lemma LongestMore(credits: seq<Credit>, c: Credit)
    ensures Longest(credits + [c], c.arming) == if c.sample.waited > Longest(credits, c.arming) then c.sample.waited else Longest(credits, c.arming)
  {
    assert (credits + [c])[..|credits|] == credits;
  }

  lemma CreditKeeps(s: State, sample: Sample, lim: Limits)
    requires Inv(s, lim) && s.phase.Polling? && Current(s, s.phase.polled, sample)
    ensures Credits(CreditTo(s, sample, lim), lim) && Firing(CreditTo(s, sample, lim), lim)
  {
    hide Credits, Firing, Sound, Reading, CreditTo;
    CreditIsSound(s, sample);
    CreditsMore(s, sample, lim);
    FiringMore(s, sample, lim);
  }

  lemma NameKeeps(s: State, waiter: int, lim: Limits)
    requires Credits(s, lim) && Firing(s, lim) && Phases(s) && Reading(s, lim) && s.phase.Polling? && s.armed
    requires s.spid == s.phase.polled
    ensures Inv(Name(s, waiter, lim), lim)
  {
    hide Sound, Longest;
  }

  /** The steps that credit nothing. */
  lemma QuietKeeps(s: State, e: Step, lim: Limits)
    requires Inv(s, lim) && (e.DisarmStep? || e.BeginStep? || e.FailStep? || e.QuitStep?)
    ensures Inv(Next(s, e, lim), lim)
  {
    hide Credits, Firing, Phases, Reading;
    SameFiring(s, Next(s, e, lim), lim);
    match e {
      case DisarmStep => QuietPhase(s, Disarm(s), lim);
      case BeginStep => BeginKeeps(s, lim);
      case FailStep => FailKeeps(s, lim);
      case QuitStep => QuietPhase(s, Quit(s), lim);
    }
  }

  /** Between ticks, over, or as it was, armed or no longer. */
  lemma QuietPhase(s: State, t: State, lim: Limits)
    requires Phases(s) && Reading(s, lim)
    requires t.spids == s.spids && t.spid == s.spid && t.lookups == s.lookups && t.waiters == s.waiters && (t.armed ==> s.armed)
    requires t.phase == s.phase || (t.phase == Over && !s.phase.Identifying?)
    ensures Phases(t) && Reading(t, lim)
  {}

  lemma BeginKeeps(s: State, lim: Limits)
    requires Phases(s) && Reading(s, lim)
    ensures Phases(Begin(s)) && Reading(Begin(s), lim)
  {}

  lemma FailKeeps(s: State, lim: Limits)
    requires Phases(s) && Reading(s, lim)
    ensures Phases(PollFails(s, lim)) && Reading(PollFails(s, lim), lim)
  {}

  lemma IdentityKeeps(s: State, who: Identity, lim: Limits)
    requires Inv(s, lim)
    ensures Inv(Identified(s, who), lim)
  {
    hide Credits, Firing;
    SameFiring(s, Identified(s, who), lim);
  }

  lemma SameFiring(s: State, t: State, lim: Limits)
    requires Credits(s, lim) && Firing(s, lim)
    requires t.credits == s.credits && t.cancels == s.cancels && t.spids == s.spids && t.worst == s.worst && t.fired == s.fired
    ensures Credits(t, lim) && Firing(t, lim)
  {
  }

  lemma AnswerKeeps(s: State, sample: Sample, lim: Limits)
    requires Inv(s, lim)
    ensures Inv(PollAnswers(s, sample, lim), lim)
  {
    hide Sound, Longest, Credits, Firing, Name, Raised;
    if s.phase.Polling? && Current(s, s.phase.polled, sample) {
      CreditKeeps(s, sample, lim);
      NameKeeps(CreditTo(s, sample, lim), sample.session, lim);
    } else {
      SameFiring(s, PollAnswers(s, sample, lim), lim);
    }
  }

  /** Every step keeps the invariant. */
  lemma StepKeeps(s: State, e: Step, lim: Limits)
    requires Inv(s, lim) && lim.after > 0
    ensures Inv(Next(s, e, lim), lim)
  {
    hide Inv;
    match e {
      case ArmStep(spid) => ArmKeeps(s, spid, lim);
      case AnswerStep(sample) => AnswerKeeps(s, sample, lim);
      case IdentityStep(who) => IdentityKeeps(s, who, lim);
      case _ => QuietKeeps(s, e, lim);
    }
  }

  lemma {:induction false} PlayKeeps(es: seq<Step>, lim: Limits)
    requires lim.after > 0
    ensures Inv(Play(es, lim), lim)
  {
    if es != [] {
      PlayKeeps(es[..|es| - 1], lim);
      StepKeeps(Play(es[..|es| - 1], lim), es[|es| - 1], lim);
    }
  }

  /** Whatever the interleaving: a unit is cancelled at most once, on a sample polled for its own
      session id that had waited the limit; the watch has fired exactly when the longest wait
      credited to the current unit has; and no more identities than the limit are read for it. */
  lemma WatchIsSafe(es: seq<Step>, lim: Limits)
    requires lim.after > 0
    ensures var s := Play(es, lim);
      && (forall i, j :: 0 <= i < j < |s.cancels| ==> s.cancels[i].arming != s.cancels[j].arming)
      && (forall c :: c in s.cancels ==> 0 < c.arming <= |s.spids| && s.spids[c.arming - 1] == c.polled && c.sample.waited >= lim.after)
      && (s.fired <==> Longest(s.credits, Arming(s)) >= lim.after)
      && s.lookups <= lim.identifyMax
  {
    hide Play, Longest;
    PlayKeeps(es, lim);
    var s := Play(es, lim);
    forall c | c in s.cancels ensures 0 < c.arming <= |s.spids| && s.spids[c.arming - 1] == c.polled {
      assert Sound(s.spids, c);
    }
  }

  /** Only the unit armed at that moment is ever cancelled, and only by the answer to a poll. */
  lemma CancelsTheCurrentUnit(s: State, e: Step, lim: Limits)
    ensures var t := Next(s, e, lim);
      t.cancels != s.cancels ==>
        && e.AnswerStep? && s.armed && !s.fired && t.fired
        && t.cancels == s.cancels + [Credit(Arming(s), e.sample, s.spid, s.phase.since)]
  {}

  predicate Distinct(ids: seq<int>) { forall i, j :: 0 <= i < |ids| && 0 <= j < |ids| && ids[i] == ids[j] ==> i == j }

  /** When every arming watches a session id of its own, a sample polled during one arming is
      credited to no other. */
  lemma DistinctIdsKeepUnitsApart(es: seq<Step>, lim: Limits)
    requires lim.after > 0
    requires Distinct(Play(es, lim).spids)
    ensures forall c :: c in Play(es, lim).credits ==> c.arming == c.since
  {
    hide Play;
    PlayKeeps(es, lim);
    var ids := Play(es, lim).spids;
    forall c | c in Play(es, lim).credits ensures c.arming == c.since {
      assert Sound(ids, c) && ids[c.arming - 1] == ids[c.since - 1];
    }
  }

  /** It is needed: the session id is all the watch compares. A poll begun for one unit whose
      answer arrives once the next is armed under the same id cancels the next unit. */
  lemma SameIdLetsASampleThrough(spid: int, waiter: int, lim: Limits)
    requires waiter != 0 && lim.after > 0
    ensures var es := [ArmStep(spid), BeginStep, DisarmStep, ArmStep(spid), AnswerStep(Sample(waiter, lim.after))];
      Play(es, lim).cancels == [Credit(2, Sample(waiter, lim.after), spid, 1)]
  {
    var one, two := [ArmStep(spid)], [ArmStep(spid), BeginStep];
    var three, four := two + [DisarmStep], two + [DisarmStep] + [ArmStep(spid)];
    assert [] + [ArmStep(spid)] == one && one + [BeginStep] == two;
    PlayOne([], ArmStep(spid), lim);
    PlayOne(one, BeginStep, lim);
    PlayOne(two, DisarmStep, lim);
    PlayOne(three, ArmStep(spid), lim);
    PlayOne(four, AnswerStep(Sample(waiter, lim.after)), lim);
    assert four + [AnswerStep(Sample(waiter, lim.after))]
      == [ArmStep(spid), BeginStep, DisarmStep, ArmStep(spid), AnswerStep(Sample(waiter, lim.after))];
  }

  lemma PlayOne(es: seq<Step>, e: Step, lim: Limits)
    ensures Play(es + [e], lim) == Next(Play(es, lim), e, lim)
  {
    assert (es + [e])[..|es|] == es;
  }

  // ----- Whom a unit's record names -----

  predicate CreditedTo(s: State, arming: nat, waiter: int) {
    exists c :: c in s.credits && c.arming == arming && c.sample.session == waiter
  }

  /** Every session recorded for the last unit armed was seen waiting on it. */
  ghost predicate WaitersCredited(s: State) { forall w :: w in s.waiters ==> CreditedTo(s, Arming(s), w) }

  /** The identity being read is of a session seen waiting on the unit it is read for. */
  ghost predicate Named(s: State) {
    WaitersCredited(s) && (s.phase.Identifying? ==> CreditedTo(s, s.phase.during, s.phase.waiter))
  }

  lemma IdsGrow(s: State, e: Step, lim: Limits)
    ensures s.spids <= Next(s, e, lim).spids
  {}

  lemma StillCredited(s: State, t: State, arming: nat, waiter: int)
    requires CreditedTo(s, arming, waiter) && s.credits <= t.credits
    ensures CreditedTo(t, arming, waiter)
  {
    var c :| c in s.credits && c.arming == arming && c.sample.session == waiter;
    assert c in t.credits;
  }

  lemma SameNames(s: State, t: State)
    requires Named(s) && t.credits == s.credits && t.spids == s.spids && t.waiters == s.waiters
    requires t.phase == s.phase || !t.phase.Identifying?
    ensures Named(t)
  {
    forall w | w in t.waiters ensures CreditedTo(t, Arming(t), w) { StillCredited(s, t, Arming(s), w); }
    if t.phase.Identifying? { StillCredited(s, t, s.phase.during, s.phase.waiter); }
  }

  lemma AnswerNames(s: State, sample: Sample, lim: Limits)
    requires Named(s) && s.phase.Polling? && Current(s, s.phase.polled, sample)
    ensures Named(PollAnswers(s, sample, lim))
  {
    hide Named, CreditedTo, Raised;
    var c, t := CreditTo(s, sample, lim), PollAnswers(s, sample, lim);
    NewlyCredited(s, sample, lim);
    NamesMore(s, c, t, sample.session, lim);
  }

  lemma NewlyCredited(s: State, sample: Sample, lim: Limits)
    requires s.phase.Polling?
    ensures CreditedTo(CreditTo(s, sample, lim), Arming(s), sample.session) && s.credits <= CreditTo(s, sample, lim).credits
  {
    assert CreditOf(s, sample) in CreditTo(s, sample, lim).credits;
  }

  lemma NamesMore(s: State, c: State, t: State, waiter: int, lim: Limits)
    requires Named(s) && s.credits <= c.credits && c.waiters == s.waiters && c.spids == s.spids && c.phase.Polling?
    requires CreditedTo(c, Arming(c), waiter) && t == Name(c, waiter, lim)
    ensures Named(t)
  {
    hide CreditedTo;
    forall w | w in t.waiters ensures CreditedTo(t, Arming(t), w) {
      if w in s.waiters {
        StillCredited(s, t, Arming(s), w);
      } else {
        StillCredited(c, t, Arming(c), w);
      }
    }
    StillCredited(c, t, Arming(c), waiter);
  }

  /** With an id per arming, an identity that is filed is filed under the unit it was read for. */
  lemma IdentityNames(s: State, who: Identity)
    requires Named(s) && Phases(s) && Distinct(s.spids)
    ensures Named(Identified(s, who))
  {
    hide CreditedTo;
    var t := Identified(s, who);
    if s.phase.Identifying? && s.armed && s.spid == s.phase.polled {
      assert s.phase.during - 1 == |s.spids| - 1;
      forall w | w in t.waiters ensures CreditedTo(t, Arming(t), w) { StillCredited(s, t, Arming(s), w); }
    } else {
      SameNames(s, t);
    }
  }

  lemma StepNames(s: State, e: Step, lim: Limits)
    requires Named(s) && Phases(s) && Distinct(s.spids)
    ensures Named(Next(s, e, lim))
  {
    hide Named, Phases, Distinct;
    var t := Next(s, e, lim);
    match e {
      case ArmStep(spid) => ArmNames(s, spid);
      case AnswerStep(sample) =>
        if s.phase.Polling? && Current(s, s.phase.polled, sample) { AnswerNames(s, sample, lim); } else { SameNames(s, t); }
      case IdentityStep(who) => IdentityNames(s, who);
      case _ => SameNames(s, t);
    }
  }

  lemma ArmNames(s: State, spid: int)
    requires Named(s)
    ensures Named(Arm(s, spid))
  {
    hide CreditedTo;
    if s.phase.Identifying? { StillCredited(s, Arm(s, spid), s.phase.during, s.phase.waiter); }
  }

  /** When every arming watches a session id of its own, the record of a unit holds only sessions
      that were seen waiting on it, at every moment. */
  lemma {:induction false} DistinctIdsNameTheirWaiters(es: seq<Step>, lim: Limits)
    requires lim.after > 0 && Distinct(Play(es, lim).spids)
    ensures Named(Play(es, lim))
  {
    hide Named;
    if es == [] {
      NothingNamed();
      return;
    }
    var front := es[..|es| - 1];
    IdsGrow(Play(front, lim), es[|es| - 1], lim);
    assert Play(front, lim).spids == Play(es, lim).spids[..|Play(front, lim).spids|];
    DistinctIdsNameTheirWaiters(front, lim);
    PlayKeeps(front, lim);
    StepNames(Play(front, lim), es[|es| - 1], lim);
  }

  lemma NothingNamed()
    ensures Named(START)
  {}

  /** It is needed here too: an identity read for one unit that arrives once the next is armed
      under the same id is filed under a unit that nobody waited on. */
  lemma SameIdFilesAnIdentity(spid: int, waiter: int, lim: Limits)
    requires waiter != 0 && lim.after > 0 && lim.canIdentify && lim.identifyMax > 0
    ensures var es := [ArmStep(spid), BeginStep, AnswerStep(Sample(waiter, 1)), DisarmStep, ArmStep(spid), IdentityStep(Known)];
      Play(es, lim).waiters == map[waiter := Known] && Play(es, lim).credits == [Credit(1, Sample(waiter, 1), spid, 1)]
  {
    var e := [ArmStep(spid), BeginStep, AnswerStep(Sample(waiter, 1)), DisarmStep, ArmStep(spid), IdentityStep(Known)];
    assert e[..0] == [] && e[..6] == e;
    forall k | 0 <= k < 6 ensures e[..k + 1] == e[..k] + [e[k]] {}
    PlayOne(e[..0], e[0], lim);
    PlayOne(e[..1], e[1], lim);
    PlayOne(e[..2], e[2], lim);
    PlayOne(e[..3], e[3], lim);
    PlayOne(e[..4], e[4], lim);
    PlayOne(e[..5], e[5], lim);
  }

  // ----- Exactly the distinct ids -----

  /** The run loop disarms a unit before it arms the next. */
  ghost predicate Orderly(es: seq<Step>, lim: Limits) {
    forall k :: 0 <= k < |es| && es[k].ArmStep? ==> !Play(es[..k], lim).armed
  }

  lemma OrderlyOne(es: seq<Step>, e: Step, lim: Limits)
    requires Orderly(es, lim) && (e.ArmStep? ==> !Play(es, lim).armed)
    ensures Orderly(es + [e], lim)
  {
    hide Play;
    forall k | 0 <= k < |es + [e]| && (es + [e])[k].ArmStep? ensures !Play((es + [e])[..k], lim).armed {
      assert (es + [e])[..k] == es[..k];
      if k == |es| { assert es[..k] == es; }
    }
  }

  /** Units are armed under these ids one after another, whatever is under way. */
  lemma {:induction false} ArmOn(es: seq<Step>, ids: seq<int>, lim: Limits) returns (d: seq<Step>)
    requires Orderly(es, lim)
    ensures Orderly(d, lim)
    ensures var s, t := Play(es, lim), Play(d, lim);
      && t.spids == s.spids + ids && t.phase == s.phase && t.credits == s.credits
      && (ids != [] ==> t.armed && t.spid == ids[|ids| - 1] && t.waiters == map[])
  {
    hide Play, Orderly;
    if ids == [] {
      d := es;
      return;
    }
    var front, last := ids[..|ids| - 1], ids[|ids| - 1];
    var b := ArmOn(es, front, lim);
    OrderlyOne(b, DisarmStep, lim);
    PlayOne(b, DisarmStep, lim);
    OrderlyOne(b + [DisarmStep], ArmStep(last), lim);
    PlayOne(b + [DisarmStep], ArmStep(last), lim);
    d := b + [DisarmStep] + [ArmStep(last)];
    assert front + [last] == ids;
  }

  lemma PlayNothing(lim: Limits)
    ensures Play([], lim) == START && Orderly([], lim)
  {
  }

  /** The units are armed and the last of them is being polled. */
  lemma PollBegun(ids: seq<int>, lim: Limits) returns (d: seq<Step>)
    requires ids != []
    ensures Orderly(d, lim)
    ensures var s := Play(d, lim);
      s.spids == ids && s.armed && s.spid == ids[|ids| - 1] && s.waiters == map[] && s.credits == [] && s.phase == Polling(s.spid, |ids|, 0)
  {
    hide Play, Orderly;
    PlayNothing(lim);
    var b := ArmOn([], ids, lim);
    assert START.spids + ids == ids;
    OrderlyOne(b, BeginStep, lim);
    PlayOne(b, BeginStep, lim);
    d := b + [BeginStep];
  }

  /** In every run of the loop that watches units under these ids, a sample polled during one unit
      is credited to no other. */
  ghost predicate KeptApart(ids: seq<int>, lim: Limits) {
    forall es :: Orderly(es, lim) && Play(es, lim).spids == ids ==> forall c :: c in Play(es, lim).credits ==> c.arming == c.since
  }

  /** And, at every moment of it, the record of a unit holds only sessions seen waiting on it. */
  ghost predicate NamedApart(ids: seq<int>, lim: Limits) {
    forall es :: Orderly(es, lim) && Play(es, lim).spids <= ids ==> WaitersCredited(Play(es, lim))
  }

  lemma AnswerCredits(s: State, sample: Sample, lim: Limits)
    requires s.phase.Polling? && Current(s, s.phase.polled, sample)
    ensures PollAnswers(s, sample, lim).credits == s.credits + [Credit(Arming(s), sample, s.phase.polled, s.phase.since)]
    ensures PollAnswers(s, sample, lim).spids == s.spids
  {
  }

  /** A run in which the poll begun for one arming answers during a later one under the same id. */
  lemma SampleCrosses(ids: seq<int>, i: nat, j: nat, lim: Limits) returns (es: seq<Step>)
    requires i < j < |ids| && ids[i] == ids[j]
    ensures Orderly(es, lim) && Play(es, lim).spids == ids && exists c :: c in Play(es, lim).credits && c.arming != c.since
  {
    hide Play, PollAnswers, Orderly;
    var before, between, after := ids[..i + 1], ids[i + 1..j + 1], ids[j + 1..];
    assert ids == (before + between) + after;
    var polling := PollBegun(before, lim);
    var armed := ArmOn(polling, between, lim);
    var t, sample := Play(armed, lim), Sample(1, 1);
    AnswerCredits(t, sample, lim);
    OrderlyOne(armed, AnswerStep(sample), lim);
    PlayOne(armed, AnswerStep(sample), lim);
    es := ArmOn(armed + [AnswerStep(sample)], after, lim);
    var crossed := Credit(j + 1, sample, ids[i], i + 1);
    assert crossed in t.credits + [crossed];
  }

  /** A sample polled during one unit stays with that unit, in every interleaving, exactly when no
      two units are watched under one session id. */
  lemma KeptApartExactly(ids: seq<int>, lim: Limits)
    requires lim.after > 0
    ensures KeptApart(ids, lim) <==> Distinct(ids)
  {
    hide Play, Orderly;
    if Distinct(ids) {
      forall es | Play(es, lim).spids == ids
        ensures forall c :: c in Play(es, lim).credits ==> c.arming == c.since
      {
        DistinctIdsKeepUnitsApart(es, lim);
      }
    } else {
      var i, j :| 0 <= i < |ids| && 0 <= j < |ids| && ids[i] == ids[j] && i != j;
      var es := SampleCrosses(ids, if i < j then i else j, if i < j then j else i, lim);
    }
  }

  lemma IdentityBegun(s: State, waiter: int, lim: Limits)
    requires s.phase.Polling? && Current(s, s.phase.polled, Sample(waiter, 1)) && s.waiters == map[]
    requires lim.canIdentify && lim.identifyMax > 0
    ensures var t := PollAnswers(s, Sample(waiter, 1), lim);
      t.phase == Identifying(waiter, s.phase.polled, Arming(s)) && t.spids == s.spids
      && t.credits == s.credits + [Credit(Arming(s), Sample(waiter, 1), s.phase.polled, s.phase.since)]
  {}

  /** A run in which the identity read for one arming is filed under a later one. */
  lemma IdentityCrosses(ids: seq<int>, i: nat, j: nat, lim: Limits) returns (es: seq<Step>)
    requires i < j < |ids| && ids[i] == ids[j] && lim.canIdentify && lim.identifyMax > 0
    ensures Orderly(es, lim) && Play(es, lim).spids <= ids && !WaitersCredited(Play(es, lim))
  {
    hide Play, PollAnswers, Orderly;
    var before, between := ids[..i + 1], ids[i + 1..j + 1];
    assert ids[..j + 1] == before + between;
    var polling := PollBegun(before, lim);
    var s := Play(polling, lim);
    IdentityBegun(s, 1, lim);
    OrderlyOne(polling, AnswerStep(Sample(1, 1)), lim);
    PlayOne(polling, AnswerStep(Sample(1, 1)), lim);
    var armed := ArmOn(polling + [AnswerStep(Sample(1, 1))], between, lim);
    OrderlyOne(armed, IdentityStep(Known), lim);
    PlayOne(armed, IdentityStep(Known), lim);
    es := armed + [IdentityStep(Known)];
    assert 1 in Play(es, lim).waiters && forall c :: c in Play(es, lim).credits ==> c.arming == i + 1;
  }

  /** A unit's record holds only sessions seen waiting on it, in every interleaving, exactly when
      no two units are watched under one session id, or no identity is ever read. */
  lemma NamedApartExactly(ids: seq<int>, lim: Limits)
    requires lim.after > 0
    ensures NamedApart(ids, lim) <==> Distinct(ids) || !lim.canIdentify || lim.identifyMax == 0
  {
    hide Play, Orderly;
    if Distinct(ids) {
      forall es | Play(es, lim).spids <= ids ensures WaitersCredited(Play(es, lim)) {
        assert forall k :: 0 <= k < |Play(es, lim).spids| ==> Play(es, lim).spids[k] == ids[k];
        DistinctIdsNameTheirWaiters(es, lim);
      }
    } else if lim.canIdentify && lim.identifyMax > 0 {
      var i, j :| 0 <= i < |ids| && 0 <= j < |ids| && ids[i] == ids[j] && i != j;
      var es := IdentityCrosses(ids, if i < j then i else j, if i < j then j else i, lim);
    } else {
      forall es ensures WaitersCredited(Play(es, lim)) { NothingReadNames(es, lim); }
    }
  }

  lemma {:induction false} NothingReadNames(es: seq<Step>, lim: Limits)
    requires !lim.canIdentify || lim.identifyMax == 0
    ensures Named(Play(es, lim)) && !Play(es, lim).phase.Identifying?
  {
    hide Named;
    if es == [] {
      NothingNamed();
      return;
    }
    var s, e := Play(es[..|es| - 1], lim), es[|es| - 1];
    NothingReadNames(es[..|es| - 1], lim);
    match e {
      case ArmStep(spid) => ArmNames(s, spid);
      case AnswerStep(sample) =>
        if s.phase.Polling? && Current(s, s.phase.polled, sample) { AnswerNames(s, sample, lim); } else { SameNames(s, Next(s, e, lim)); }
      case _ => SameNames(s, Next(s, e, lim));
    }
  }
}
