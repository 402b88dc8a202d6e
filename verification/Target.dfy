/**
 Whether a run set aside belongs to another server than the run that replaced it: otherServer,
 sameAddress and sameDatabase of collect/collect.go.
 */
module Target {
  import opened Options

  /** What a manifest records of the server: each is None in a manifest older than its key. An
      empty address is one that was withheld. */
  datatype Server = Server(name: Option<string>, address: Option<string>, database: Option<string>)

  /** The standard library's part in it: two texts differ in case alone exactly when they fold to
      the same, `trim` drops the white space around, and `parse` splits an address into its host
      and its instance, or fails. */
  datatype Texts = Texts(fold: string -> string, trim: string -> string, parse: string -> Option<(string, string)>)

  function Or(o: Option<string>): string { if o.Some? then o.value else "" }

  predicate SameAddress(a: string, b: string, t: Texts) {
    var p, q := t.parse(a), t.parse(b);
    if p.None? || q.None? then t.fold(t.trim(a)) == t.fold(t.trim(b))
    else t.fold(p.value.0) == t.fold(q.value.0) && t.fold(p.value.1) == t.fold(q.value.1)
  }

  /** The session lands in master without a database, as it does in master. */
  function Landing(database: string, t: Texts): string {
    var d := t.trim(database);
    if t.fold(d) == t.fold("master") then "" else d
  }

  predicate SameDatabase(a: string, b: string, t: Texts) { t.fold(Landing(a, t)) == t.fold(Landing(b, t)) }

  predicate SamePlace(a: Server, b: Server, t: Texts) {
    SameAddress(Or(a.address), Or(b.address), t) && SameDatabase(Or(a.database), Or(b.database), t)
  }

  /** The run records where it connected to. */
  predicate Located(s: Server) { Or(s.address) != "" }

  datatype Verdict = Same | NoName | OtherName | OtherPlace

  /** otherServer: Same when nothing shows that the two runs are of different targets. */
  function OtherServer(prev: Server, cur: Server, t: Texts): Verdict {
    if prev.name.None? then NoName
    else if t.fold(prev.name.value) != t.fold(Or(cur.name)) then OtherName
    else if !Located(prev) || !Located(cur) then Same
    else if SamePlace(prev, cur, t) then Same
    else OtherPlace
  }

  predicate SameName(a: Server, b: Server, t: Texts) { a.name.Some? && t.fold(a.name.value) == t.fold(Or(b.name)) }

  /** Case and the white space around decide neither whether an address can be read nor what it
      names. */
  ghost predicate CaseBlind(t: Texts) {
    forall a, b :: t.fold(t.trim(a)) == t.fold(t.trim(b)) ==>
      match (t.parse(a), t.parse(b))
      case (Some(p), Some(q)) => t.fold(p.0) == t.fold(q.0) && t.fold(p.1) == t.fold(q.1)
      case (None, None) => true
      case _ => false
  }

  /** Being the same address passes along a chain of runs. */
  lemma SameAddressThrough(a: string, b: string, c: string, t: Texts)
    requires CaseBlind(t) && SameAddress(a, b, t) && SameAddress(b, c, t)
    ensures SameAddress(a, c, t)
  {}

  /** So does being the same target, as long as every run on the way records where it connected
      to; the name passes along in any case. */
  lemma SameThrough(a: Server, b: Server, c: Server, t: Texts)
    requires OtherServer(a, b, t) == Same && OtherServer(b, c, t) == Same
    ensures SameName(a, c, t)
    ensures CaseBlind(t) && Located(b) ==> OtherServer(a, c, t) == Same
  {
    hide SameAddress, CaseBlind;
    if CaseBlind(t) && Located(a) && Located(b) && Located(c) {
      SameAddressThrough(Or(a.address), Or(b.address), Or(c.address), t);
    }
  }

  /** Being the same target passes through this run, whatever the runs before and after it. */
  ghost predicate Passes(b: Server, t: Texts) {
    forall a, c :: OtherServer(a, b, t) == Same && OtherServer(b, c, t) == Same ==> OtherServer(a, c, t) == Same
  }

  /** It does exactly when the run records its address, as long as there are two addresses that
      are not the same. */
  lemma PassesExactly(b: Server, x: string, y: string, t: Texts)
    requires CaseBlind(t) && b.name.Some? && x != "" && y != "" && !SameAddress(x, y, t)
    ensures Passes(b, t) <==> Located(b)
  {
    hide SameAddress, SameDatabase, CaseBlind;
    if Located(b) {
      forall a, c | OtherServer(a, b, t) == Same && OtherServer(b, c, t) == Same ensures OtherServer(a, c, t) == Same {
        SameThrough(a, b, c, t);
      }
    } else {
      var a, c := Server(b.name, Some(x), None), Server(b.name, Some(y), None);
      assert OtherServer(a, b, t) == Same && OtherServer(b, c, t) == Same && OtherServer(a, c, t) == OtherPlace;
    }
  }

  /** A run whose address was withheld passes for a run of two targets that are not the same. */
  lemma WithheldAddressPasses(t: Texts)
    requires !SameAddress("SQL01", "SQL02", t)
    ensures var a, b, c := Server(Some("SALES"), Some("SQL01"), None), Server(Some("SALES"), Some(""), None), Server(Some("SALES"), Some("SQL02"), None);
      OtherServer(a, b, t) == Same && OtherServer(b, c, t) == Same && OtherServer(a, c, t) == OtherPlace
  {}
}
