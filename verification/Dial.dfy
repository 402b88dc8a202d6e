/**
 The sockets of one connection attempt, from collect/dial.go and connWithin of collect/watch.go.
 Class Attempt is the program; the machine below it lets dials, the login and the deadline
 happen in any order. A socket is known by its number.
 */
module Dial {
  import opened Options

  // ----- What an attempt remembers -----

  datatype Book = Book(conns: seq<nat>, abandoned: bool)

  function Added(b: Book, id: nat): Book {
    if b.abandoned then b else b.(conns := b.conns + [id])
  }

  function Left(b: Book): Book { Book([], true) }

  class Socket {
    const id: nat
    var open: bool

    constructor (id: nat)
      ensures this.id == id && open
    {
      this.id, open := id, true;
    }

    method Close()
      modifies this
      ensures !open
    {
      open := false;
    }
  }

  class Attempt {
    var conns: seq<Socket>
    var abandoned: bool

    constructor ()
      ensures View() == Book([], false)
    {
      conns, abandoned := [], false;
    }

    function View(): Book
      reads this
    {
      Book(seq(|conns|, k requires 0 <= k < |conns| reads this => conns[k].id), abandoned)
    }

    method Add(c: Socket) returns (ok: bool)
      modifies this
      ensures ok == !old(abandoned) && View() == Added(old(View()), c.id)
      ensures conns == if ok then old(conns) + [c] else old(conns)
    {
      if abandoned { return false; }
      conns := conns + [c];
      assert View().conns == old(View()).conns + [c.id];
      return true;
    }

    /** Every socket recorded so far is closed, and none will be recorded again. */
    method Abandon()
      modifies this, conns
      ensures View() == Left(old(View()))
      ensures forall c :: c in old(conns) ==> !c.open
    {
      abandoned := true;
      for i := 0 to |conns|
        invariant conns == old(conns) && abandoned
        invariant forall k :: 0 <= k < i ==> !conns[k].open
      {
        conns[i].Close();
      }
      conns := [];
    }

    /** The dialer's end of a dial that came through: the socket is recorded, or closed and
        refused. */
    method Dialed(c: Socket) returns (ok: bool)
      modifies this, c
      ensures ok == !old(abandoned) && View() == Added(old(View()), c.id)
      ensures c.open == (ok && old(c.open))
    {
      ok := Add(c);
      if !ok { c.Close(); }
    }
  }

  // ----- Every interleaving -----

  /** Where the caller of connWithin is. */
  datatype Caller = Waiting | Leaving | Returned(conn: Option<nat>) | GivenUp

  /** dialed: every socket ever dialed for the attempt; dialing: those not yet shown to Add;
      got: what the worker left in the channel; sent: what it ever sent; released: the late
      connections closed; swept: the sockets closed by Abandon. */
  datatype State = State(book: Book, dialed: set<nat>, dialing: set<nat>, open: set<nat>, refused: set<nat>,
    sent: Option<Option<nat>>, got: Option<Option<nat>>, caller: Caller, released: set<nat>, swept: set<nat>)

  const START := State(Book([], false), {}, {}, {}, {}, None, None, Waiting, {}, {})

  /** Hangup: the driver or the server closes a socket. Send: the worker's db.Conn is done, with
      a connection or an error. Leave: the deadline is chosen, Abandon not yet called. Drain: the
      late result is taken from the channel. */
  datatype Step = Dial(id: nat) | Record(id: nat) | Hangup(id: nat) | Send(conn: Option<nat>) | Take | Leave | Abandon | Drain

  /** A connection the worker sends is one whose dial was accepted, or an idle one of the pool. */
  predicate Enabled(s: State, step: Step) {
    match step
    case Dial(id) => id !in s.dialed
    case Record(id) => id in s.dialing
    case Hangup(id) => id in s.dialed - s.dialing
    case Send(conn) => s.sent.None? && (conn.Some? ==> conn.value !in s.dialing && conn.value !in s.refused)
    case Take => s.got.Some? && s.caller.Waiting?
    case Leave => s.caller.Waiting?
    case Abandon => s.caller.Leaving?
    case Drain => s.got.Some? && s.caller.GivenUp?
  }

  function Next(s: State, step: Step): State
    requires Enabled(s, step)
  {
    match step
    case Dial(id) => s.(dialed := s.dialed + {id}, dialing := s.dialing + {id}, open := s.open + {id})
    case Record(id) =>
      var no := s.book.abandoned;
      s.(book := Added(s.book, id), dialing := s.dialing - {id},
         open := s.open - (if no then {id} else {}), refused := s.refused + (if no then {id} else {}))
    case Hangup(id) => s.(open := s.open - {id})
    case Send(conn) => s.(sent := Some(conn), got := Some(conn))
    case Take => s.(caller := Returned(s.got.value), got := None)
    case Leave => s.(caller := Leaving)
    case Abandon =>
      s.(book := Left(s.book), open := s.open - Recorded(s), swept := s.swept + Recorded(s), caller := GivenUp)
    case Drain => s.(released := s.released + Ids(s.got.value), got := None)
  }

  function Recorded(s: State): set<nat> { set x | x in s.book.conns }

  function Ids(conn: Option<nat>): set<nat> { if conn.Some? then {conn.value} else {} }

  ghost predicate Inv(s: State) {
    && s.dialing <= s.dialed && s.refused <= s.dialed - s.dialing
    && Recorded(s) <= s.dialed - s.dialing - s.refused
    && s.open <= s.dialing + Recorded(s)
    && s.book.abandoned == s.caller.GivenUp?
    && (s.caller.GivenUp? ==> s.book.conns == [])
    && (!s.caller.GivenUp? ==> s.swept == {} && s.refused == {} && s.released == {})
    && (s.got.Some? ==> s.got == s.sent && !s.caller.Returned?)
    && (s.caller.Returned? ==> s.sent == Some(s.caller.conn))
    && (s.sent.Some? && s.got.None? ==> s.caller.Returned? || (s.caller.GivenUp? && Ids(s.sent.value) <= s.released))
  }

  lemma StepKeeps(s: State, step: Step)
    requires Inv(s) && Enabled(s, step)
    ensures Inv(Next(s, step))
  {
    match step
    case Record(id) =>
      assert forall x :: x in s.book.conns + [id] <==> x in s.book.conns || x == id;
    case _ =>
  }

  /** The state after these steps, when each can be taken in turn. */
  function Play(s: State, steps: seq<Step>): Option<State>
    decreases |steps|
  {
    if steps == [] then Some(s)
    else if Enabled(s, steps[0]) then Play(Next(s, steps[0]), steps[1..])
    else None
  }

  lemma {:induction false} PlayKeeps(s: State, steps: seq<Step>)
    requires Inv(s) && Play(s, steps).Some?
    ensures Inv(Play(s, steps).value)
    decreases |steps|
  {
    hide Inv, Next, Enabled;
    if steps != [] {
      StepKeeps(s, steps[0]);
      PlayKeeps(Next(s, steps[0]), steps[1..]);
    }
  }

  /** Once given up, the only sockets still open are dials in flight. When one of those comes
      through it is closed and refused, and when all have, nothing is open. */
  lemma AbandonedLeavesNothingOpen(steps: seq<Step>)
    requires Play(START, steps).Some? && Play(START, steps).value.caller.GivenUp?
    ensures var s := Play(START, steps).value;
      && s.open <= s.dialing
      && (s.dialing == {} ==> s.open == {})
      && forall id :: id in s.dialing ==>
        id !in Next(s, Record(id)).open && id in Next(s, Record(id)).refused && Next(s, Record(id)).book == s.book
  {
    PlayKeeps(START, steps);
  }

  /** A connection the worker sends is returned, waiting in the channel, or closed: once given up
      with the channel drained, a late one has been closed. */
  lemma NoConnectionIsLost(steps: seq<Step>)
    requires Play(START, steps).Some?
    ensures var s := Play(START, steps).value;
      s.sent.Some? ==> s.caller == Returned(s.sent.value) || s.got == s.sent || (s.caller.GivenUp? && Ids(s.sent.value) <= s.released)
  {
    hide Play;
    PlayKeeps(START, steps);
  }

  /** Given up stays given up: every later dial is refused when it comes through. */
  lemma {:induction false} GivenUpForGood(s: State, steps: seq<Step>)
    requires Inv(s) && s.caller.GivenUp? && Play(s, steps).Some?
    ensures Play(s, steps).value.caller.GivenUp? && Play(s, steps).value.swept == s.swept
    ensures var t := Play(s, steps).value; t.dialed - s.dialed <= t.dialing + t.refused
    ensures s.refused <= Play(s, steps).value.refused && s.dialing <= Play(s, steps).value.dialing + Play(s, steps).value.refused
    decreases |steps|
  {
    hide Inv;
    if steps != [] {
      StepKeeps(s, steps[0]);
      assert s.book.abandoned by { Abandoned(s); }
      GivenUpForGood(Next(s, steps[0]), steps[1..]);
    }
  }

  lemma Abandoned(s: State)
    requires Inv(s)
    ensures s.book.abandoned == s.caller.GivenUp?
  {
  }

  /** A connection that was returned stays returned, nothing is ever swept after it, and its
      socket stays open until the driver or the server closes it. */
  lemma {:induction false} ReturnedIsNeverSwept(s: State, steps: seq<Step>)
    requires Inv(s) && s.caller.Returned? && Play(s, steps).Some?
    ensures Play(s, steps).value.caller == s.caller && Play(s, steps).value.swept == {}
    ensures forall id :: id in s.open && Hangup(id) !in steps ==> id in Play(s, steps).value.open
    decreases |steps|
  {
    hide Inv;
    assert s.swept == {} && !s.book.abandoned by { NothingSwept(s); }
    if steps != [] {
      StepKeeps(s, steps[0]);
      ReturnedIsNeverSwept(Next(s, steps[0]), steps[1..]);
    }
  }

  lemma NothingSwept(s: State)
    requires Inv(s) && s.caller.Returned?
    ensures s.swept == {} && !s.book.abandoned
  {
  }

  /** Over a whole run: whatever happens after giving up, every socket open is a dial still in
      flight, and every dial since then is in flight or was refused. */
  lemma NothingOpensAgain(before: seq<Step>, after: seq<Step>)
    requires Play(START, before).Some? && Play(START, before).value.caller.GivenUp?
    requires Play(Play(START, before).value, after).Some?
    ensures var s, t := Play(START, before).value, Play(Play(START, before).value, after).value;
      t.open <= t.dialing && t.dialed - s.dialed <= t.dialing + t.refused && t.swept == s.swept
  {
    hide Play;
    var s := Play(START, before).value;
    PlayKeeps(START, before);
    GivenUpForGood(s, after);
    PlayKeeps(s, after);
  }
}
