/**
 groupEpisodes of collect/blockedprocess.go: reports of the same blocked session, transaction,
 blocker and resource become one episode, and the episodes are numbered by their longest wait.
 */
module Episodes {
  import opened Options
  import Decimal
  import Text

  /** A report. A wait the capture does not hold reads as 0. */
  datatype Row = Row(blocked: Blocked, at: string, wait: int, loop: Option<int>,
    lockMode: string, status: string, trancount: Option<int>)

  /** Who waits, in which transaction, behind whom and for what. */
  datatype Blocked = Blocked(spid: Option<int>, owner: Option<int>, blocker: Option<int>, resource: string)

  // ----- The key -----

  function Part(p: Option<int>): string { if p.None? then "-" else Decimal.Print(p.value) }

  function Joined(b: Blocked): string {
    Part(b.spid) + ("|" + (Part(b.owner) + ("|" + (Part(b.blocker) + ("|" + b.resource)))))
  }

  function Key(r: Row): string { Joined(r.blocked) }

  lemma PartDiffers(p: Option<int>, q: Option<int>)
    ensures '|' !in Part(p) && (Part(p) == Part(q) ==> p == q)
  {
    hide Decimal.Digits;
    if p.Some? { NoDash(p.value); }
    if q.Some? { NoDash(q.value); }
    if p.Some? && q.Some? && Part(p) == Part(q) { Decimal.PrintDiffers(p.value, q.value); }
  }

  lemma NoDash(n: int)
    ensures Decimal.Print(n) != "-"
  {
    hide Decimal.Digits;
    if n < 0 { assert |Decimal.Print(n)| >= 2; } else { assert '0' <= Decimal.Print(n)[0]; }
  }

  lemma BarSplits(a: string, b: string, x: string, y: string)
    requires '|' !in a && '|' !in b && a + ("|" + x) == b + ("|" + y)
    ensures a == b && x == y
  {
    var s := a + ("|" + x);
    assert s[|a|] == '|' && s[|b|] == '|';
    assert forall k :: 0 <= k < |a| ==> s[k] == a[k];
    assert forall k :: 0 <= k < |b| ==> s[k] == b[k];
    assert s[..|a|] == a && s[..|b|] == b;
    assert s[|a| + 1..] == x && s[|b| + 1..] == y;
  }

  /** The joined key tells any two apart, whatever the resource is called. */
  lemma JoinedIsInjective(a: Blocked, b: Blocked)
    ensures Joined(a) == Joined(b) <==> a == b
  {
    hide Part;
    PartDiffers(a.spid, b.spid);
    PartDiffers(b.spid, a.spid);
    PartDiffers(a.owner, b.owner);
    PartDiffers(b.owner, a.owner);
    PartDiffers(a.blocker, b.blocker);
    PartDiffers(b.blocker, a.blocker);
    if Joined(a) == Joined(b) {
      var a3, b3 := Part(a.blocker) + ("|" + a.resource), Part(b.blocker) + ("|" + b.resource);
      var a2, b2 := Part(a.owner) + ("|" + a3), Part(b.owner) + ("|" + b3);
      BarSplits(Part(a.spid), Part(b.spid), a2, b2);
      BarSplits(Part(a.owner), Part(b.owner), a3, b3);
      BarSplits(Part(a.blocker), Part(b.blocker), a.resource, b.resource);
    }
  }

  // ----- One episode -----

  /** What an episode holds. The last three are those of its longest report. */
  datatype Group = Group(reports: nat, firstSeen: string, lastSeen: string, firstLoop: Option<int>, lastLoop: Option<int>,
    maxWait: int, lockMode: string, status: string, trancount: Option<int>)

  function Fresh(r: Row): Group { Group(0, r.at, r.at, None, None, -1, "", "", None) }

  function Lower(a: Option<int>, b: Option<int>): Option<int> {
    if b.Some? && (a.None? || b.value < a.value) then b else a
  }

  function Higher(a: Option<int>, b: Option<int>): Option<int> {
    if b.Some? && (a.None? || b.value > a.value) then b else a
  }

  function Fed(g: Group, r: Row): Group {
    var longer := r.wait > g.maxWait;
    Group(g.reports + 1,
      if Text.Less(r.at, g.firstSeen) then r.at else g.firstSeen,
      if Text.Less(g.lastSeen, r.at) then r.at else g.lastSeen,
      Lower(g.firstLoop, r.loop), Higher(g.lastLoop, r.loop),
      if longer then r.wait else g.maxWait,
      if longer then r.lockMode else g.lockMode,
      if longer then r.status else g.status,
      if longer then r.trancount else g.trancount)
  }

  /** An episode while the rows are read. Its number is set once all are known. */
  class Episode {
    const blocked: Blocked
    var reports: nat
    var firstSeen: string
    var lastSeen: string
    var firstLoop: Option<int>
    var lastLoop: Option<int>
    var maxWait: int
    var lockMode: string
    var status: string
    var trancount: Option<int>
    var number: nat

    function View(): Group
      reads this
    {
      Group(reports, firstSeen, lastSeen, firstLoop, lastLoop, maxWait, lockMode, status, trancount)
    }

    constructor (r: Row)
      ensures View() == Fresh(r) && blocked == r.blocked
    {
      blocked := r.blocked;
      reports, firstSeen, lastSeen, firstLoop, lastLoop := 0, r.at, r.at, None, None;
      maxWait, lockMode, status, trancount := -1, "", "", None;
    }

    method FeedLoop(l: Option<int>)
      modifies `firstLoop, `lastLoop
      ensures firstLoop == Lower(old(firstLoop), l) && lastLoop == Higher(old(lastLoop), l)
    {
      if l.Some? {
        if firstLoop.None? || l.value < firstLoop.value { firstLoop := l; }
        if lastLoop.None? || l.value > lastLoop.value { lastLoop := l; }
      }
    }

    method FeedTime(at: string)
      modifies `firstSeen, `lastSeen
      ensures firstSeen == if Text.Less(at, old(firstSeen)) then at else old(firstSeen)
      ensures lastSeen == if Text.Less(old(lastSeen), at) then at else old(lastSeen)
    {
      hide Text.Less;
      if Text.Less(at, firstSeen) { firstSeen := at; }
      if Text.Less(lastSeen, at) { lastSeen := at; }
    }

    method Feed(r: Row)
      modifies this
      ensures View() == Fed(old(View()), r)
    {
      hide Text.Less, Lower, Higher;
      reports := reports + 1;
      FeedLoop(r.loop);
      FeedTime(r.at);
      if r.wait > maxWait {
        maxWait, lockMode, status, trancount := r.wait, r.lockMode, r.status, r.trancount;
      }
    }

    /** Its place in the list; a wait nobody measured prints as 0. */
    method Number(n: nat)
      modifies this
      ensures number == n && View() == Printed(old(View()))
    {
      number := n;
      if maxWait < 0 { maxWait := 0; }
    }
  }

  function Printed(g: Group): Group { g.(maxWait := if g.maxWait < 0 then 0 else g.maxWait) }

  // ----- What an episode should hold -----

  function Members(rows: seq<Row>, key: string): (r: seq<Row>)
    ensures forall m :: m in r ==> m in rows && Key(m) == key
  {
    if rows == [] then []
    else
      var last := rows[|rows| - 1];
      Members(rows[..|rows| - 1], key) + if Key(last) == key then [last] else []
  }

  function Summary(ms: seq<Row>): Group
    requires ms != []
  {
    var last := ms[|ms| - 1];
    Fed(if |ms| == 1 then Fresh(last) else Summary(ms[..|ms| - 1]), last)
  }

  ghost predicate Earliest(at: string, ms: seq<Row>) {
    (exists m :: m in ms && m.at == at) && forall m :: m in ms ==> !Text.Less(m.at, at)
  }

  ghost predicate Latest(at: string, ms: seq<Row>) {
    (exists m :: m in ms && m.at == at) && forall m :: m in ms ==> !Text.Less(at, m.at)
  }

  ghost predicate LowestLoop(l: Option<int>, ms: seq<Row>) {
    if l.None? then forall m :: m in ms ==> m.loop.None?
    else (exists m :: m in ms && m.loop == l) && forall m :: m in ms && m.loop.Some? ==> l.value <= m.loop.value
  }

  ghost predicate HighestLoop(l: Option<int>, ms: seq<Row>) {
    if l.None? then forall m :: m in ms ==> m.loop.None?
    else (exists m :: m in ms && m.loop == l) && forall m :: m in ms && m.loop.Some? ==> m.loop.value <= l.value
  }

  /** k is the first of the longest waits, and not negative. */
  ghost predicate LongestAt(ms: seq<Row>, k: nat) {
    && k < |ms| && 0 <= ms[k].wait
    && (forall j :: 0 <= j < k ==> ms[j].wait < ms[k].wait)
    && forall j :: k <= j < |ms| ==> ms[j].wait <= ms[k].wait
  }

  predicate Described(g: Group, r: Row) {
    g.lockMode == r.lockMode && g.status == r.status && g.trancount == r.trancount
  }

  ghost predicate FromLongest(g: Group, ms: seq<Row>) {
    if forall m :: m in ms ==> m.wait < 0 then g.maxWait == -1
    else exists k: nat :: LongestAt(ms, k) && g.maxWait == ms[k].wait && Described(g, ms[k])
  }

  /** The fields of an episode are the extremes of its rows. */
  lemma {:induction false} SummaryMeaning(ms: seq<Row>)
    requires ms != []
    ensures var g := Summary(ms);
      && g.reports == |ms| && Earliest(g.firstSeen, ms) && Latest(g.lastSeen, ms)
      && LowestLoop(g.firstLoop, ms) && HighestLoop(g.lastLoop, ms) && FromLongest(g, ms)
  {
    hide Text.Less, Earliest, Latest, LowestLoop, HighestLoop, FromLongest;
    var front, last := ms[..|ms| - 1], ms[|ms| - 1];
    assert ms == front + [last];
    if front == [] {
      assert ms == [last];
      OneRow(last);
    } else {
      SummaryMeaning(front);
      SeenMore(Summary(front), front, last);
      LoopsMore(Summary(front), front, last);
      WaitMore(Summary(front), front, last);
    }
  }

  lemma OneRow(r: Row)
    ensures var g, ms := Fed(Fresh(r), r), [r];
      && Earliest(g.firstSeen, ms) && Latest(g.lastSeen, ms)
      && LowestLoop(g.firstLoop, ms) && HighestLoop(g.lastLoop, ms) && FromLongest(g, ms)
  {
    hide Text.Less;
    Text.LessIsTotal(r.at, r.at);
    assert [r][0] == r;
    if r.wait >= 0 { assert LongestAt([r], 0); }
  }

  lemma SeenMore(g: Group, ms: seq<Row>, r: Row)
    requires Earliest(g.firstSeen, ms) && Latest(g.lastSeen, ms)
    ensures Earliest(Fed(g, r).firstSeen, ms + [r]) && Latest(Fed(g, r).lastSeen, ms + [r])
  {
    hide Text.Less;
    var more := ms + [r];
    assert forall m :: m in more <==> m in ms || m == r;
    Text.LessIsTotal(r.at, r.at);
    forall m | m in ms
      ensures Text.Less(r.at, g.firstSeen) ==> !Text.Less(m.at, r.at)
      ensures Text.Less(g.lastSeen, r.at) ==> !Text.Less(r.at, m.at)
    {
      if Text.Less(r.at, g.firstSeen) && Text.Less(m.at, r.at) { Text.LessIsTransitive(m.at, r.at, g.firstSeen); }
      if Text.Less(g.lastSeen, r.at) && Text.Less(r.at, m.at) { Text.LessIsTransitive(g.lastSeen, r.at, m.at); }
    }
  }

  lemma LoopsMore(g: Group, ms: seq<Row>, r: Row)
    requires LowestLoop(g.firstLoop, ms) && HighestLoop(g.lastLoop, ms)
    ensures LowestLoop(Fed(g, r).firstLoop, ms + [r]) && HighestLoop(Fed(g, r).lastLoop, ms + [r])
  {
    hide Text.Less;
    assert forall m :: m in ms + [r] <==> m in ms || m == r;
  }

  lemma WaitMore(g: Group, ms: seq<Row>, r: Row)
    requires FromLongest(g, ms)
    ensures FromLongest(Fed(g, r), ms + [r])
  {
    hide Text.Less;
    var more := ms + [r];
    assert more[|ms|] == r && forall k :: 0 <= k < |ms| ==> more[k] == ms[k];
    if forall m :: m in ms ==> m.wait < 0 {
      if r.wait >= 0 { assert LongestAt(more, |ms|); }
    } else {
      var k: nat :| LongestAt(ms, k) && g.maxWait == ms[k].wait && Described(g, ms[k]);
      assert more[k] in more;
      if r.wait > g.maxWait { assert LongestAt(more, |ms|); } else { assert LongestAt(more, k); }
    }
  }

  // ----- The order -----

  ghost predicate Permutation(perm: seq<nat>, n: nat) {
    && |perm| == n && (forall i :: 0 <= i < n ==> perm[i] < n)
    && (forall i, j :: 0 <= i < j < n ==> perm[i] != perm[j])
    && forall x: nat :: x < n ==> x in perm
  }

  predicate Before(waits: seq<int>, a: nat, b: nat)
    requires a < |waits| && b < |waits|
  {
    waits[a] > waits[b] || (waits[a] == waits[b] && a < b)
  }

  /** Longest first, and of equal waits the first seen first. */
  ghost predicate InOrder(waits: seq<int>, perm: seq<nat>) {
    && (forall i :: 0 <= i < |perm| ==> perm[i] < |waits|)
    && forall i, j :: 0 <= i < j < |perm| ==> Before(waits, perm[i], perm[j])
  }

  /** sort.SliceStable, by insertion. */
  method StableSort(waits: seq<int>) returns (perm: seq<nat>)
    ensures Permutation(perm, |waits|) && InOrder(waits, perm)
  {
    perm := [];
    for n := 0 to |waits|
      invariant Permutation(perm, n) && InOrder(waits, perm)
    {
      var p := n;
      while p > 0 && waits[perm[p - 1]] < waits[n]
        invariant 0 <= p <= n
        invariant forall k :: p <= k < n ==> waits[perm[k]] < waits[n]
      {
        p := p - 1;
      }
      Inserted(waits, perm, p);
      perm := perm[..p] + [n] + perm[p..];
    }
  }

  lemma Inserted(waits: seq<int>, perm: seq<nat>, p: nat)
    requires p <= |perm| < |waits| && Permutation(perm, |perm|) && InOrder(waits, perm)
    requires p > 0 ==> waits[perm[p - 1]] >= waits[|perm|]
    requires forall k :: p <= k < |perm| ==> waits[perm[k]] < waits[|perm|]
    ensures var more := perm[..p] + [|perm|] + perm[p..]; Permutation(more, |perm| + 1) && InOrder(waits, more)
  {
    var n := |perm|;
    var more := perm[..p] + [n] + perm[p..];
    PlacedPermutation(perm, p, more);
    forall k | 0 <= k < p
      ensures Before(waits, perm[k], n)
    {
      if k < p - 1 { assert Before(waits, perm[k], perm[p - 1]); }
    }
    PlacedInOrder(waits, perm, p, more);
  }

  predicate Placed(perm: seq<nat>, p: nat, more: seq<nat>)
    requires p <= |perm|
  {
    && |more| == |perm| + 1 && more[p] == |perm|
    && (forall k :: 0 <= k < p ==> more[k] == perm[k])
    && (forall k :: p < k < |more| ==> more[k] == perm[k - 1])
  }

  lemma PlacedPermutation(perm: seq<nat>, p: nat, more: seq<nat>)
    requires p <= |perm| && Permutation(perm, |perm|) && more == perm[..p] + [|perm|] + perm[p..]
    ensures Placed(perm, p, more) && Permutation(more, |perm| + 1)
  {
    var n := |perm|;
    forall x: nat | x < n + 1
      ensures x in more
    {
      if x < n {
        assert x in perm;
        assert perm == perm[..p] + perm[p..];
      }
    }
  }

  lemma PlacedInOrder(waits: seq<int>, perm: seq<nat>, p: nat, more: seq<nat>)
    requires p <= |perm| < |waits| && InOrder(waits, perm) && Placed(perm, p, more)
    requires forall k :: 0 <= k < p ==> Before(waits, perm[k], |perm|)
    requires forall k :: p <= k < |perm| ==> Before(waits, |perm|, perm[k])
    ensures InOrder(waits, more)
  {
    hide Before;
    forall i, j | 0 <= i < j < |more|
      ensures Before(waits, more[i], more[j])
    {
    }
  }

  // ----- All rows -----

  /** The keys, each once, in order of first appearance. */
  function Keys(rows: seq<Row>): (r: seq<string>)
    ensures forall i, j :: 0 <= i < j < |r| ==> r[i] != r[j]
    ensures forall k :: k in r <==> exists i :: 0 <= i < |rows| && Key(rows[i]) == k
  {
    if rows == [] then []
    else
      var before, last := Keys(rows[..|rows| - 1]), Key(rows[|rows| - 1]);
      assert rows == rows[..|rows| - 1] + [rows[|rows| - 1]];
      if last in before then before else before + [last]
  }

  lemma {:induction false} KeyHasMembers(rows: seq<Row>, key: string)
    ensures key in Keys(rows) <==> Members(rows, key) != []
  {
    hide Key;
    if rows != [] { KeyHasMembers(rows[..|rows| - 1], key); }
  }

  function SummaryOf(rows: seq<Row>, key: string): Group
    requires key in Keys(rows)
  {
    KeyHasMembers(rows, key);
    Summary(Members(rows, key))
  }

  function Waits(rows: seq<Row>): (r: seq<int>)
    ensures |r| == |Keys(rows)|
  {
    seq(|Keys(rows)|, j requires 0 <= j < |Keys(rows)| => SummaryOf(rows, Keys(rows)[j]).maxWait)
  }

  lemma {:induction false} MembersMore(rows: seq<Row>, r: Row, key: string)
    ensures Members(rows + [r], key) == if Key(r) == key then Members(rows, key) + [r] else Members(rows, key)
  {
    assert (rows + [r])[..|rows|] == rows;
  }

  lemma KeysMore(rows: seq<Row>, r: Row)
    ensures Keys(rows + [r]) == if Key(r) in Keys(rows) then Keys(rows) else Keys(rows) + [Key(r)]
  {
    assert (rows + [r])[..|rows|] == rows;
  }

  /** One row more changes the episode of its key, and no other. */
  lemma SummaryMore(rows: seq<Row>, r: Row, key: string)
    requires key in Keys(rows + [r])
    ensures if Key(r) != key then key in Keys(rows) && SummaryOf(rows + [r], key) == SummaryOf(rows, key)
      else SummaryOf(rows + [r], key) == Fed(if key in Keys(rows) then SummaryOf(rows, key) else Fresh(r), r)
  {
    hide Key, Keys, Members, Fed;
    MembersMore(rows, r, key);
    KeysMore(rows, r);
    KeyHasMembers(rows, key);
    KeyHasMembers(rows + [r], key);
    assert (Members(rows, key) + [r])[..|Members(rows, key)|] == Members(rows, key);
  }

  // ----- The grouping -----

  /** The objects stand for the episodes of these rows, in order of first appearance. */
  ghost predicate Gathered(rows: seq<Row>, order: seq<Episode>, byKey: map<string, Episode>)
    reads order
  {
    && Held(Keys(rows), order, byKey)
    && forall j :: 0 <= j < |order| ==> order[j].View() == SummaryOf(rows, Keys(rows)[j])
  }

  ghost predicate Held(keys: seq<string>, order: seq<Episode>, byKey: map<string, Episode>) {
    && |order| == |keys|
    && (forall i, j :: 0 <= i < j < |order| ==> order[i] != order[j])
    && (forall k :: k in byKey <==> k in keys)
    && forall j :: 0 <= j < |order| ==> byKey[keys[j]] == order[j] && Joined(order[j].blocked) == keys[j]
  }

  /** What one more row makes of the episode of a key. */
  predicate Advanced(g: Group, rows: seq<Row>, row: Row, key: string) {
    if key == Key(row) then g == Fed(if key in Keys(rows) then SummaryOf(rows, key) else Fresh(row), row)
    else key in Keys(rows) && g == SummaryOf(rows, key)
  }

  lemma GatheredMore(rows: seq<Row>, row: Row, order: seq<Episode>, byKey: map<string, Episode>)
    requires Held(Keys(rows + [row]), order, byKey)
    requires forall j :: 0 <= j < |order| ==> Advanced(order[j].View(), rows, row, Keys(rows + [row])[j])
    ensures Gathered(rows + [row], order, byKey)
  {
    hide SummaryOf, Keys, Fed, Fresh, Key, Held;
    assert |order| == |Keys(rows + [row])| by { HeldLength(Keys(rows + [row]), order, byKey); }
    forall j | 0 <= j < |order|
      ensures order[j].View() == SummaryOf(rows + [row], Keys(rows + [row])[j])
    {
      SummaryMore(rows, row, Keys(rows + [row])[j]);
    }
  }

  lemma HeldLength(keys: seq<string>, order: seq<Episode>, byKey: map<string, Episode>)
    requires Held(keys, order, byKey)
    ensures |order| == |keys| && forall k :: k in byKey <==> k in keys
  {}

  lemma HeldMore(keys: seq<string>, order: seq<Episode>, byKey: map<string, Episode>, k: string, e: Episode)
    requires Held(keys, order, byKey) && k !in keys && e !in order && Joined(e.blocked) == k
    ensures Held(keys + [k], order + [e], byKey[k := e])
  {
    hide Joined;
  }

  /** The first row of its key starts an episode. */
  method StartEpisode(ghost rows: seq<Row>, row: Row, order: seq<Episode>, byKey: map<string, Episode>)
      returns (order': seq<Episode>, byKey': map<string, Episode>)
    requires Gathered(rows, order, byKey) && Key(row) !in byKey
    ensures Gathered(rows + [row], order', byKey')
    ensures forall j :: 0 <= j < |order'| ==> order'[j] in order || fresh(order'[j])
  {
    hide SummaryOf, Keys, Fed, Fresh, Joined, Held;
    var e := new Episode(row);
    e.Feed(row);
    order', byKey' := order + [e], byKey[Key(row) := e];
    HeldLength(Keys(rows), order, byKey);
    KeysMore(rows, row);
    HeldMore(Keys(rows), order, byKey, Key(row), e);
    forall j | 0 <= j < |order'|
      ensures Advanced(order'[j].View(), rows, row, Keys(rows + [row])[j])
    {
      if j < |order| { assert order'[j].View() == SummaryOf(rows, Keys(rows)[j]); }
    }
    GatheredMore(rows, row, order', byKey');
  }

  /** A later row feeds the episode of its key, and no other. */
  method FeedEpisode(ghost rows: seq<Row>, row: Row, order: seq<Episode>, byKey: map<string, Episode>)
    requires Gathered(rows, order, byKey) && Key(row) in byKey
    modifies order
    ensures Gathered(rows + [row], order, byKey)
  {
    hide SummaryOf, Keys, Fed, Fresh, Joined;
    var k := Key(row);
    ghost var j := Place(Keys(rows), k);
    assert byKey[k] == order[j];
    byKey[k].Feed(row);
    KeysMore(rows, row);
    GatheredMore(rows, row, order, byKey);
  }

  /** One row: it feeds the episode of its key, or starts one. */
  method FeedRow(ghost rows: seq<Row>, row: Row, order: seq<Episode>, byKey: map<string, Episode>)
      returns (order': seq<Episode>, byKey': map<string, Episode>)
    requires Gathered(rows, order, byKey)
    modifies order
    ensures Gathered(rows + [row], order', byKey')
    ensures forall j :: 0 <= j < |order'| ==> order'[j] in order || fresh(order'[j])
  {
    hide SummaryOf, Keys, Gathered, Joined;
    if Key(row) !in byKey {
      order', byKey' := StartEpisode(rows, row, order, byKey);
    } else {
      FeedEpisode(rows, row, order, byKey);
      order', byKey' := order, byKey;
    }
  }

  method Gather(rows: seq<Row>) returns (order: seq<Episode>, byKey: map<string, Episode>)
    ensures Gathered(rows, order, byKey) && forall j :: 0 <= j < |order| ==> fresh(order[j])
  {
    hide SummaryOf, Keys, Held;
    byKey, order := map[], [];
    NothingHeld();
    for r := 0 to |rows|
      invariant Gathered(rows[..r], order, byKey) && forall j :: 0 <= j < |order| ==> fresh(order[j])
    {
      assert rows[..r + 1] == rows[..r] + [rows[r]];
      order, byKey := FeedRow(rows[..r], rows[r], order, byKey);
    }
    assert rows[..|rows|] == rows;
  }

  lemma NothingHeld()
    ensures Held(Keys([]), [], map[])
  {
  }

  /** An episode as it is listed. */
  datatype Listed = Listed(number: nat, blocked: Blocked, group: Group)

  ghost predicate IsListed(l: Listed, rows: seq<Row>, perm: seq<nat>, i: nat)
    requires i < |perm| && perm[i] < |Keys(rows)|
  {
    var key := Keys(rows)[perm[i]];
    l.number == i + 1 && Joined(l.blocked) == key && l.group == Printed(SummaryOf(rows, key))
  }

  ghost predicate Numbered(rows: seq<Row>, order: seq<Episode>, byKey: map<string, Episode>, episodes: seq<Listed>, perm: seq<nat>)
    reads order
  {
    && Held(Keys(rows), order, byKey) && Permutation(perm, |order|) && |episodes| == |order|
    && forall i :: 0 <= i < |order| ==> IsListed(episodes[i], rows, perm, i) && order[perm[i]].number == i + 1
  }

  lemma NumberedMeans(rows: seq<Row>, order: seq<Episode>, byKey: map<string, Episode>, episodes: seq<Listed>, perm: seq<nat>)
    requires Numbered(rows, order, byKey, episodes, perm)
    ensures |episodes| == |perm| == |order| == |Keys(rows)| && Permutation(perm, |order|)
    ensures forall i :: 0 <= i < |perm| ==> IsListed(episodes[i], rows, perm, i)
  {
    hide IsListed, Keys;
  }

  /** The sorted episodes get their numbers, through the same objects the keys lead to. */
  method NumberEpisodes(ghost rows: seq<Row>, order: seq<Episode>, ghost byKey: map<string, Episode>, perm: seq<nat>)
      returns (episodes: seq<Listed>)
    requires Gathered(rows, order, byKey) && Permutation(perm, |order|)
    modifies order
    ensures Numbered(rows, order, byKey, episodes, perm)
  {
    hide SummaryOf, Keys, Joined, Printed, IsListed;
    episodes := [];
    for i := 0 to |perm|
      invariant |episodes| == i
      invariant forall k :: 0 <= k < i ==> IsListed(episodes[k], rows, perm, k) && order[perm[k]].number == k + 1
      invariant forall k :: i <= k < |perm| ==> order[perm[k]].View() == SummaryOf(rows, Keys(rows)[perm[k]])
    {
      var e := order[perm[i]];
      assert forall k :: 0 <= k < |perm| && k != i ==> order[perm[k]] != e;
      e.Number(i + 1);
      var l := Listed(e.number, e.blocked, e.View());
      Lists(l, rows, perm, i);
      episodes := episodes + [l];
    }
  }

  lemma Lists(l: Listed, rows: seq<Row>, perm: seq<nat>, i: nat)
    requires i < |perm| && perm[i] < |Keys(rows)|
    requires l.number == i + 1 && Joined(l.blocked) == Keys(rows)[perm[i]]
    requires l.group == Printed(SummaryOf(rows, Keys(rows)[perm[i]]))
    ensures IsListed(l, rows, perm, i)
  {
  }

  lemma OwnNumber(rows: seq<Row>, row: Row, order: seq<Episode>, byKey: map<string, Episode>, episodes: seq<Listed>, perm: seq<nat>)
    requires row in rows && Numbered(rows, order, byKey, episodes, perm)
    ensures Key(row) in byKey
    ensures var n := byKey[Key(row)].number; 1 <= n <= |episodes| && episodes[n - 1].blocked == row.blocked
  {
    hide SummaryOf, Keys, Joined, IsListed, Permutation;
    PermutationMeans(perm, |order|);
    assert Key(row) in Keys(rows);
    var j := Place(Keys(rows), Key(row));
    var i := Place(perm, j);
    assert byKey[Key(row)] == order[perm[i]];
    ListedAs(episodes[i], rows, perm, i);
    JoinedIsInjective(episodes[i].blocked, row.blocked);
  }

  /** The number of every row's episode, found by its key. */
  method Positions(rows: seq<Row>, ghost order: seq<Episode>, byKey: map<string, Episode>, ghost episodes: seq<Listed>, ghost perm: seq<nat>)
      returns (position: seq<nat>)
    requires Numbered(rows, order, byKey, episodes, perm)
    ensures |position| == |rows|
    ensures forall r :: 0 <= r < |rows| ==> 1 <= position[r] <= |episodes| && episodes[position[r] - 1].blocked == rows[r].blocked
    ensures forall r, q :: 0 <= r < |rows| && 0 <= q < |rows| && Key(rows[r]) == Key(rows[q]) ==> position[r] == position[q]
  {
    hide Numbered, Key;
    position := [];
    for r := 0 to |rows|
      invariant |position| == r
      invariant forall q :: 0 <= q < r ==> 1 <= position[q] <= |episodes| && episodes[position[q] - 1].blocked == rows[q].blocked
      invariant forall q :: 0 <= q < r ==> Key(rows[q]) in byKey && position[q] == byKey[Key(rows[q])].number
    {
      OwnNumber(rows, rows[r], order, byKey, episodes, perm);
      position := position + [byKey[Key(rows[r])].number];
    }
  }

  method ReadWaits(ghost rows: seq<Row>, order: seq<Episode>, ghost byKey: map<string, Episode>) returns (waits: seq<int>)
    requires Gathered(rows, order, byKey)
    ensures waits == Waits(rows)
  {
    hide SummaryOf, Keys;
    waits := seq(|order|, j requires 0 <= j < |order| reads order => order[j].maxWait);
    assert forall j :: 0 <= j < |order| ==> order[j].View().maxWait == order[j].maxWait;
  }

  lemma GatheredMeans(rows: seq<Row>, order: seq<Episode>, byKey: map<string, Episode>)
    requires Gathered(rows, order, byKey)
    ensures |order| == |Keys(rows)| == |Waits(rows)|
  {
    hide SummaryOf, Keys;
  }

  lemma SameKeys(rows: seq<Row>)
    ensures forall r, q :: 0 <= r < |rows| && 0 <= q < |rows| && rows[r].blocked == rows[q].blocked ==> Key(rows[r]) == Key(rows[q])
  {
    hide Joined;
  }

  /** groupEpisodes. The list holds one episode per key, longest wait first and then first seen
      first, each the summary of its rows; and each row is given the number of its own. */
  method GroupEpisodes(rows: seq<Row>) returns (episodes: seq<Listed>, position: seq<nat>, ghost perm: seq<nat>)
    ensures Permutation(perm, |Keys(rows)|) && InOrder(Waits(rows), perm)
    ensures |episodes| == |perm| && forall i :: 0 <= i < |perm| ==> IsListed(episodes[i], rows, perm, i)
    ensures |position| == |rows|
    ensures forall r :: 0 <= r < |rows| ==> 1 <= position[r] <= |episodes| && episodes[position[r] - 1].blocked == rows[r].blocked
    ensures forall r, q :: 0 <= r < |rows| && 0 <= q < |rows| ==> (position[r] == position[q] <==> rows[r].blocked == rows[q].blocked)
  {
    hide *;
    var order, byKey := Gather(rows);
    var waits := ReadWaits(rows, order, byKey);
    var sorted := StableSort(waits);
    perm := sorted;
    GatheredMeans(rows, order, byKey);
    episodes := NumberEpisodes(rows, order, byKey, sorted);
    NumberedMeans(rows, order, byKey, episodes, perm);
    position := Positions(rows, order, byKey, episodes, perm);
    SameKeys(rows);
  }

  lemma Place<T>(s: seq<T>, x: T) returns (i: nat)
    requires x in s
    ensures i < |s| && s[i] == x
  {
    i :| i < |s| && s[i] == x;
  }

  lemma PermutationMeans(perm: seq<nat>, n: nat)
    requires Permutation(perm, n)
    ensures |perm| == n && (forall x: nat :: x < n ==> x in perm) && forall i :: 0 <= i < n ==> perm[i] < n
  {
  }

  lemma ListedAs(l: Listed, rows: seq<Row>, perm: seq<nat>, i: nat)
    requires i < |perm| && perm[i] < |Keys(rows)| && IsListed(l, rows, perm, i)
    ensures l.number == i + 1 && Joined(l.blocked) == Keys(rows)[perm[i]]
  {
  }

  // ----- What the list says -----

  function Sum(s: seq<nat>): nat {
    if s == [] then 0 else Sum(s[..|s| - 1]) + s[|s| - 1]
  }

  function Counts(rows: seq<Row>, keys: seq<string>): (r: seq<nat>)
    ensures |r| == |keys|
  {
    seq(|keys|, j requires 0 <= j < |keys| => |Members(rows, keys[j])|)
  }

  lemma {:induction false} CountsMore(rows: seq<Row>, r: Row, keys: seq<string>)
    requires forall i, j :: 0 <= i < j < |keys| ==> keys[i] != keys[j]
    ensures Sum(Counts(rows + [r], keys)) == Sum(Counts(rows, keys)) + if Key(r) in keys then 1 else 0
  {
    hide Members, Counts, Key;
    if keys == [] {
      assert Key(r) !in keys;
      return;
    }
    var front, last := keys[..|keys| - 1], keys[|keys| - 1];
    CountsMore(rows, r, front);
    MembersMore(rows, r, last);
    assert keys == front + [last];
    CountsLast(rows, front, last);
    CountsLast(rows + [r], front, last);
    assert last !in front;
  }

  lemma CountsLast(rows: seq<Row>, front: seq<string>, last: string)
    ensures Sum(Counts(rows, front + [last])) == Sum(Counts(rows, front)) + |Members(rows, last)|
  {
    hide Members;
    assert Counts(rows, front + [last])[..|front|] == Counts(rows, front);
  }

  /** Every row is counted in exactly one episode. */
  lemma {:induction false} RowsAddUp(rows: seq<Row>)
    ensures Sum(Counts(rows, Keys(rows))) == |rows|
  {
    hide Members, Key;
    if rows != [] {
      var front, last := rows[..|rows| - 1], rows[|rows| - 1];
      RowsAddUp(front);
      assert rows == front + [last];
      KeysMore(front, last);
      CountsMore(front, last, Keys(rows));
      if Key(last) !in Keys(front) {
        KeyHasMembers(front, Key(last));
        assert Counts(front, Keys(rows))[..|Keys(front)|] == Counts(front, Keys(front));
      }
    }
  }

  function Picked(s: seq<nat>, perm: seq<nat>): (r: seq<nat>)
    requires forall i :: 0 <= i < |perm| ==> perm[i] < |s|
    ensures |r| == |perm| && forall i :: 0 <= i < |perm| ==> r[i] == s[perm[i]]
  {
    seq(|perm|, i requires 0 <= i < |perm| => s[perm[i]])
  }

  lemma {:induction false} SumWithout(s: seq<nat>, k: nat)
    requires k < |s|
    ensures Sum(s) == Sum(s[..k] + s[k + 1..]) + s[k]
  {
    var rest := s[..k] + s[k + 1..];
    if k == |s| - 1 {
      assert rest == s[..k];
    } else {
      var t := s[..|s| - 1];
      SumWithout(t, k);
      assert rest[..|rest| - 1] == t[..k] + t[k + 1..] && rest[|rest| - 1] == s[|s| - 1];
    }
  }

  lemma {:induction false} SumPermuted(s: seq<nat>, perm: seq<nat>)
    requires Permutation(perm, |s|)
    ensures Sum(Picked(s, perm)) == Sum(s)
    decreases |s|
  {
    hide Permutation;
    PermutationMeans(perm, |s|);
    if s != [] {
      var n := |s| - 1;
      var k := Place(perm, n);
      var rest := perm[..k] + perm[k + 1..];
      WithoutLast(perm, k, rest);
      PermutationMeans(rest, n);
      SumPermuted(s[..n], rest);
      SumWithout(Picked(s, perm), k);
      PickedWithout(s, perm, k, rest);
    }
  }

  lemma PickedWithout(s: seq<nat>, perm: seq<nat>, k: nat, rest: seq<nat>)
    requires k < |perm| && s != [] && rest == perm[..k] + perm[k + 1..]
    requires forall i :: 0 <= i < |perm| ==> perm[i] < |s|
    requires forall i :: 0 <= i < |rest| ==> rest[i] < |s| - 1
    ensures Picked(s, perm)[..k] + Picked(s, perm)[k + 1..] == Picked(s[..|s| - 1], rest)
  {
  }

  lemma WithoutLast(perm: seq<nat>, k: nat, rest: seq<nat>)
    requires k < |perm| && Permutation(perm, |perm|) && perm[k] == |perm| - 1 && rest == perm[..k] + perm[k + 1..]
    ensures Permutation(rest, |perm| - 1)
  {
    assert forall i :: 0 <= i < |rest| ==> rest[i] == perm[if i < k then i else i + 1];
    forall x: nat | x < |perm| - 1
      ensures x in rest
    {
      assert x in perm;
      assert perm == perm[..k] + [perm[k]] + perm[k + 1..];
    }
  }

  function Reports(episodes: seq<Listed>): (r: seq<nat>)
    ensures |r| == |episodes|
  {
    seq(|episodes|, i requires 0 <= i < |episodes| => episodes[i].group.reports)
  }

  /** The reports of the listed episodes add up to the rows. */
  lemma ReportsAddUp(rows: seq<Row>, episodes: seq<Listed>, perm: seq<nat>)
    requires Permutation(perm, |Keys(rows)|) && |episodes| == |perm|
    requires forall i :: 0 <= i < |perm| ==> IsListed(episodes[i], rows, perm, i)
    ensures Sum(Reports(episodes)) == |rows|
  {
    hide Sum, Members, Summary, Keys;
    var counts := Counts(rows, Keys(rows));
    RowsAddUp(rows);
    SumPermuted(counts, perm);
    forall i | 0 <= i < |perm|
      ensures Reports(episodes)[i] == Picked(counts, perm)[i]
    {
      KeyHasMembers(rows, Keys(rows)[perm[i]]);
      assert IsListed(episodes[i], rows, perm, i);
      SummaryMeaning(Members(rows, Keys(rows)[perm[i]]));
    }
    assert Reports(episodes) == Picked(counts, perm);
  }

  function Shown(wait: int): int { if wait < 0 then 0 else wait }

  ghost predicate AllNegative(rows: seq<Row>, key: string) { forall m :: m in Members(rows, key) ==> m.wait < 0 }

  /** The longest wait of its reports is 0. */
  ghost predicate LongestIsZero(rows: seq<Row>, key: string) {
    (exists m :: m in Members(rows, key) && m.wait == 0) && forall m :: m in Members(rows, key) ==> m.wait <= 0
  }

  lemma WaitsFromMinusOne(rows: seq<Row>, j: nat)
    requires j < |Keys(rows)|
    ensures Waits(rows)[j] >= -1
    ensures Waits(rows)[j] == -1 <==> AllNegative(rows, Keys(rows)[j])
    ensures Waits(rows)[j] == 0 <==> LongestIsZero(rows, Keys(rows)[j])
  {
    hide Summary, Keys, Members;
    KeyHasMembers(rows, Keys(rows)[j]);
    SummaryMeaning(Members(rows, Keys(rows)[j]));
    LongestIs(Members(rows, Keys(rows)[j]), Waits(rows)[j], Summary(Members(rows, Keys(rows)[j])));
  }

  lemma LongestIs(ms: seq<Row>, wait: int, g: Group)
    requires FromLongest(g, ms) && g.maxWait == wait
    ensures wait >= -1 && (wait == -1 <==> forall m :: m in ms ==> m.wait < 0)
    ensures wait == 0 <==> (exists m :: m in ms && m.wait == 0) && forall m :: m in ms ==> m.wait <= 0
  {
    if exists m :: m in ms && m.wait >= 0 {
      var k: nat :| LongestAt(ms, k) && g.maxWait == ms[k].wait;
      assert ms[k] in ms;
      assert forall j :: 0 <= j < |ms| ==> ms[j].wait <= ms[k].wait;
    }
  }

  ghost predicate TiesFirstSeen(waits: seq<int>, perm: seq<nat>)
    requires forall i :: 0 <= i < |perm| ==> perm[i] < |waits|
  {
    forall i, j :: 0 <= i < j < |perm| && Shown(waits[perm[i]]) == Shown(waits[perm[j]]) ==> perm[i] < perm[j]
  }

  lemma SortedTies(waits: seq<int>, perm: seq<nat>)
    requires Permutation(perm, |waits|) && InOrder(waits, perm)
    requires forall j :: 0 <= j < |waits| ==> waits[j] >= -1
    ensures forall i, j :: 0 <= i < j < |perm| ==> Shown(waits[perm[i]]) >= Shown(waits[perm[j]])
    ensures TiesFirstSeen(waits, perm) <==> !(exists a, b :: 0 <= a < b < |waits| && waits[a] == -1 && waits[b] == 0)
  {
    assert forall i, j :: 0 <= i < j < |perm| ==> Before(waits, perm[i], perm[j]);
    if exists a, b :: 0 <= a < b < |waits| && waits[a] == -1 && waits[b] == 0 {
      var a, b :| 0 <= a < b < |waits| && waits[a] == -1 && waits[b] == 0;
      assert a in perm && b in perm;
      var i: nat, j: nat :| i < |perm| && j < |perm| && perm[i] == b && perm[j] == a;
      assert i != j && !Before(waits, a, b);
      assert i < j && Shown(waits[perm[i]]) == Shown(waits[perm[j]]);
    }
  }

  /** The waits as printed never grow along the list of these rows. Equal ones are in the order
      they were first seen exactly when no episode of negative waits alone was seen before one
      whose longest wait is 0: the two print the same wait, but the sort still told them apart. */
  lemma ListOrder(rows: seq<Row>, perm: seq<nat>)
    requires Permutation(perm, |Keys(rows)|) && InOrder(Waits(rows), perm)
    ensures forall i, j :: 0 <= i < j < |perm| ==> Shown(Waits(rows)[perm[i]]) >= Shown(Waits(rows)[perm[j]])
    ensures TiesFirstSeen(Waits(rows), perm) <==>
      !(exists a, b :: 0 <= a < b < |Keys(rows)| && AllNegative(rows, Keys(rows)[a]) && LongestIsZero(rows, Keys(rows)[b]))
  {
    hide Keys, Waits, AllNegative, LongestIsZero, Shown, TiesFirstSeen, Permutation, InOrder;
    forall j | 0 <= j < |Keys(rows)|
      ensures Waits(rows)[j] >= -1 && (Waits(rows)[j] == -1 <==> AllNegative(rows, Keys(rows)[j]))
      ensures Waits(rows)[j] == 0 <==> LongestIsZero(rows, Keys(rows)[j])
    {
      WaitsFromMinusOne(rows, j);
    }
    SortedTies(Waits(rows), perm);
  }

  /** A report of a session waiting so long, and nothing else known. */
  function Waiting(spid: int, wait: int): Row {
    Row(Blocked(Some(spid), None, None, ""), "", wait, None, "", "", None)
  }

  /** The reports of two sessions, the first with a wait of -5 and the second with one of 0, are
      listed the other way round and print the same wait. */
  lemma NegativeWaitsSortLast(episodes: seq<Listed>, perm: seq<nat>)
    requires var rows := [Waiting(51, -5), Waiting(52, 0)];
      && Permutation(perm, |Keys(rows)|) && InOrder(Waits(rows), perm)
      && |episodes| == |perm| && forall i :: 0 <= i < |perm| ==> IsListed(episodes[i], rows, perm, i)
    ensures |episodes| == 2 && episodes[0].blocked == Waiting(52, 0).blocked && episodes[1].blocked == Waiting(51, -5).blocked
    ensures episodes[0].group.maxWait == episodes[1].group.maxWait == 0
  {
    hide Permutation, InOrder, Joined;
    var first, second := Waiting(51, -5), Waiting(52, 0);
    var rows := [first, second];
    JoinedIsInjective(first.blocked, second.blocked);
    TwoSessions(first, second);
    PermutationMeans(perm, 2);
    OnlyOrder(Waits(rows), perm);
    JoinedIsInjective(episodes[0].blocked, second.blocked);
    JoinedIsInjective(episodes[1].blocked, first.blocked);
  }

  lemma OnlyOrder(waits: seq<int>, perm: seq<nat>)
    requires |waits| == 2 && waits[0] < waits[1] && Permutation(perm, 2) && InOrder(waits, perm)
    ensures perm == [1, 0]
  {
    assert Before(waits, perm[0], perm[1]);
  }

  lemma TwoSessions(first: Row, second: Row)
    requires Key(first) != Key(second) && first.wait < 0 && second.wait == 0
    ensures var rows := [first, second];
      Keys(rows) == [Key(first), Key(second)] && Waits(rows) == [-1, 0]
  {
    hide Key, Keys, Members, Summary, Waits;
    var rows := [first, second];
    TwoKeys(first, second);
    TwoMembers(first, second);
    WaitsFromMinusOne(rows, 0);
    WaitsFromMinusOne(rows, 1);
    assert second in Members(rows, Key(second));
  }

  lemma TwoKeys(first: Row, second: Row)
    requires Key(first) != Key(second)
    ensures Keys([first, second]) == [Key(first), Key(second)]
  {
    hide Key;
    assert [first, second] == [first] + [second] && [first] == [] + [first];
    KeysMore([], first);
    KeysMore([first], second);
  }

  lemma TwoMembers(first: Row, second: Row)
    requires Key(first) != Key(second)
    ensures Members([first, second], Key(first)) == [first] && Members([first, second], Key(second)) == [second]
  {
    hide Key;
    assert [first, second] == [first] + [second] && [first] == [] + [first];
    MembersMore([], first, Key(first));
    MembersMore([], first, Key(second));
    MembersMore([first], second, Key(first));
    MembersMore([first], second, Key(second));
  }
}
