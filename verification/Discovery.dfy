/** Finding the primary orchestrator among several hosts that are asked concurrently. */
module Discovery {

  datatype Check = Unreachable | Reached(isPrimary: bool)

  datatype Result = Result(host: string, isPrimary: bool, failed: bool)

  /** The result a host's check produces; a failed check is never primary. */
  function ResultOf(host: string, check: Check): Result {
    match check
    case Unreachable => Result(host, false, true)
    case Reached(isPrimary) => Result(host, isPrimary, false)
  }

  /** One result per place in the list: a host that is listed twice is asked twice. */
  function ResultsOf(hosts: seq<string>, checks: seq<Check>): seq<Result>
    requires |checks| == |hosts|
  {
    if hosts == [] then [] else [ResultOf(hosts[0], checks[0])] + ResultsOf(hosts[1..], checks[1..])
  }

  datatype Outcome = Primary(host: string) | SplitBrain | NotFound | NoPool

  /** The code's loop: the first non-empty primary is remembered, any later primary is a split brain. */
  function Scan(results: seq<Result>, primary: string): Outcome {
    if results == [] then (if primary == "" then NotFound else Primary(primary))
    else if !results[0].isPrimary then Scan(results[1..], primary)
    else if primary != "" then SplitBrain
    else Scan(results[1..], results[0].host)
  }

  predicate Named(r: Result) {
    r.isPrimary && r.host != ""
  }

  predicate Nameless(r: Result) {
    r.isPrimary && r.host == ""
  }

  function Select(results: seq<Result>, p: Result -> bool): (r: seq<Result>)
    ensures forall x <- r :: p(x)
  {
    if results == [] then [] else (if p(results[0]) then [results[0]] else []) + Select(results[1..], p)
  }

  /** The primary results with a host name, in order. */
  function Primaries(results: seq<Result>): seq<Result> {
    Select(results, Named)
  }

  // ---------- the loop by counting ----------

  lemma {:induction false} ScanRemembering(results: seq<Result>, primary: string)
    requires primary != ""
    ensures Scan(results, primary) ==
              if Primaries(results) == [] && Select(results, Nameless) == [] then Primary(primary) else SplitBrain
  {
    if results != [] {
      ScanRemembering(results[1..], primary);
    }
  }

  lemma {:induction false} ScanFresh(results: seq<Result>)
    ensures Primaries(results) == [] ==> Scan(results, "") == NotFound
    ensures |Primaries(results)| >= 2 ==> Scan(results, "") == SplitBrain
    ensures |Primaries(results)| == 1 && Select(results, Nameless) == [] ==>
              Scan(results, "") == Primary(Primaries(results)[0].host)
  {
    if results != [] {
      if Named(results[0]) {
        ScanRemembering(results[1..], results[0].host);
      } else {
        ScanFresh(results[1..]);
      }
    }
  }

  // ---------- order ----------

  lemma {:induction false} SelectMultiset(results: seq<Result>, p: Result -> bool)
    ensures forall x :: multiset(Select(results, p))[x] == if p(x) then multiset(results)[x] else 0
  {
    if results == [] {
    } else {
      SelectMultiset(results[1..], p);
      assert results == [results[0]] + results[1..];
    }
  }

  lemma SelectPermuted(a: seq<Result>, b: seq<Result>, p: Result -> bool)
    requires multiset(a) == multiset(b)
    ensures multiset(Select(a, p)) == multiset(Select(b, p)) && |Select(a, p)| == |Select(b, p)|
  {
    SelectMultiset(a, p);
    SelectMultiset(b, p);
    assert |multiset(Select(a, p))| == |Select(a, p)| && |multiset(Select(b, p))| == |Select(b, p)|;
  }

  /** Exactly one host primary and a nameless one besides: the only case in which the order of completion shows. */
  predicate OrderShows(results: seq<Result>) {
    |Primaries(results)| == 1 && Select(results, Nameless) != []
  }

  lemma SameSingleton(a: seq<Result>, b: seq<Result>)
    requires multiset(a) == multiset(b) && |a| == 1 && |b| == 1
    ensures a[0] == b[0]
  {
    assert a == [a[0]] && b == [b[0]];
    assert multiset([a[0]])[a[0]] == 1 && multiset([b[0]])[b[0]] == 1;
  }

  lemma ScanOfPermutation(a: seq<Result>, b: seq<Result>)
    requires multiset(a) == multiset(b) && !OrderShows(a)
    ensures Scan(a, "") == Scan(b, "")
  {
    hide Select, Scan, Named, Nameless;
    SelectPermuted(a, b, Named);
    SelectPermuted(a, b, Nameless);
    ScanFresh(a);
    ScanFresh(b);
    if |Primaries(a)| == 1 {
      SameSingleton(Primaries(a), Primaries(b));
    }
  }

  lemma {:induction false} SelectAppend(a: seq<Result>, b: seq<Result>, p: Result -> bool)
    ensures Select(a + b, p) == Select(a, p) + Select(b, p)
  {
    if a == [] {
      assert a + b == b;
    } else {
      assert (a + b)[1..] == a[1..] + b;
      SelectAppend(a[1..], b, p);
    }
  }

  lemma {:induction false} ScanSkips(a: seq<Result>, b: seq<Result>)
    requires forall x <- a :: !Named(x)
    ensures Scan(a + b, "") == Scan(b, "")
  {
    if a == [] {
      assert a + b == b;
    } else {
      assert a[0] in a && (a + b)[1..] == a[1..] + b;
      ScanSkips(a[1..], b);
    }
  }

  function Secondary(r: Result): bool {
    !r.isPrimary
  }

  lemma {:induction false} Partition(a: seq<Result>)
    ensures multiset(Select(a, Named)) + multiset(Select(a, Nameless)) + multiset(Select(a, Secondary)) == multiset(a)
  {
    if a != [] {
      Partition(a[1..]);
      assert a == [a[0]] + a[1..];
    }
  }

  lemma NamelessFirst(a: seq<Result>)
    requires OrderShows(a)
    ensures Scan(Select(a, Nameless) + Select(a, Secondary) + Primaries(a), "").Primary?
  {
    var n := Primaries(a);
    hide Select;
    ScanSkips(Select(a, Nameless) + Select(a, Secondary), n);
    assert Named(n[0]) && n[1..] == [];
  }

  lemma NamelessLast(a: seq<Result>)
    requires OrderShows(a)
    ensures Scan(Primaries(a) + (Select(a, Nameless) + Select(a, Secondary)), "") == SplitBrain
  {
    var n, e, s := Primaries(a), Select(a, Nameless), Select(a, Secondary);
    var c := n + (e + s);
    assert Named(n[0]) && c[0] == n[0] && c[1..] == e + s;
    ScanRemembering(e + s, n[0].host);
    SelectAppend(e, s, Nameless);
    assert e[0] in e && Nameless(e[0]);
    assert Select(e, Nameless) != [];
  }

  /** When the order shows, one order finds the primary and another calls it a split brain. */
  lemma OrderShowsBothWays(a: seq<Result>) returns (b: seq<Result>, c: seq<Result>)
    requires OrderShows(a)
    ensures multiset(b) == multiset(a) == multiset(c)
    ensures Scan(b, "").Primary? && Scan(c, "") == SplitBrain
  {
    var n, e, s := Primaries(a), Select(a, Nameless), Select(a, Secondary);
    b := e + s + n;
    c := n + (e + s);
    Partition(a);
    NamelessFirst(a);
    NamelessLast(a);
    hide Select, Scan;
  }

  /** The outcome depends on the collected results alone, not on their order, exactly when the order does not show. */
  lemma OrderIsIrrelevantIff(a: seq<Result>)
    ensures (forall b :: multiset(b) == multiset(a) ==> Scan(b, "") == Scan(a, "")) <==> !OrderShows(a)
  {
    if OrderShows(a) {
      var b, c := OrderShowsBothWays(a);
      assert Scan(b, "") != Scan(c, "");
    } else {
      forall b | multiset(b) == multiset(a) ensures Scan(b, "") == Scan(a, "") {
        ScanOfPermutation(a, b);
      }
    }
  }

  lemma {:induction false} NamedHostsShowNoOrder(hosts: seq<string>, checks: seq<Check>)
    requires |checks| == |hosts| && forall h <- hosts :: h != ""
    ensures Select(ResultsOf(hosts, checks), Nameless) == []
  {
    if hosts != [] {
      assert hosts[0] in hosts && forall h <- hosts[1..] :: h in hosts;
      NamedHostsShowNoOrder(hosts[1..], checks[1..]);
    }
  }

  /** The hosts whose check reached them and found a primary, once per such check. */
  function PrimaryHosts(hosts: seq<string>, checks: seq<Check>): seq<string>
    requires |checks| == |hosts|
  {
    if hosts == [] then [] else
      (if checks[0] == Reached(true) then [hosts[0]] else []) + PrimaryHosts(hosts[1..], checks[1..])
  }

  function HostsOf(results: seq<Result>): (r: seq<string>)
    ensures |r| == |results| && (r != [] ==> r[0] == results[0].host)
  {
    if results == [] then [] else [results[0].host] + HostsOf(results[1..])
  }

  lemma {:induction false} PrimariesAreHosts(hosts: seq<string>, checks: seq<Check>)
    requires |checks| == |hosts| && forall h <- hosts :: h != ""
    ensures HostsOf(Primaries(ResultsOf(hosts, checks))) == PrimaryHosts(hosts, checks)
  {
    if hosts != [] {
      var host, rest := hosts[0], hosts[1..];
      assert host in hosts && forall h <- rest :: h in hosts;
      PrimariesAreHosts(rest, checks[1..]);
      var r, more := ResultOf(host, checks[0]), ResultsOf(rest, checks[1..]);
      assert ([r] + more)[1..] == more && Named(r) == (checks[0] == Reached(true)) && r.host == host;
      hide ResultOf, Named;
      assert Primaries([r] + more) == (if Named(r) then [r] else []) + Primaries(more);
      assert ([r] + Primaries(more))[1..] == Primaries(more) && [] + Primaries(more) == Primaries(more);
      assert [] + PrimaryHosts(rest, checks[1..]) == PrimaryHosts(rest, checks[1..]);
    }
  }

  class Service {
    var hosts: seq<string>

    /**
     * results is what the pool hands back: every host's result, in any order. For a non-empty list of non-empty
     * hosts the outcome is decided by which checks succeeded with primary: one, several or none.
     */
    method FetchPrimary(hosts: seq<string>, checks: seq<Check>, results: seq<Result>) returns (outcome: Outcome)
      requires |checks| == |hosts| && multiset(results) == multiset(ResultsOf(hosts, checks))
      modifies this
      ensures this.hosts == hosts
      ensures hosts == [] ==> outcome == NoPool
      ensures hosts != [] ==> outcome == Scan(results, "")
      ensures hosts != [] && (forall h <- hosts :: h != "") ==>
                var p := PrimaryHosts(hosts, checks);
                outcome == if p == [] then NotFound else if |p| == 1 then Primary(p[0]) else SplitBrain
    {
      if this.hosts != hosts {
        this.hosts := hosts;
      }
      if hosts == [] {
        return NoPool;
      }
      var primary := "";
      var i := 0;
      while i < |results|
        invariant 0 <= i <= |results| && this.hosts == hosts
        invariant Scan(results[i..], primary) == Scan(results, "")
      {
        assert results[i..][1..] == results[i + 1..];
        if results[i].isPrimary {
          if primary != "" {
            outcome := SplitBrain;
            ByCount(hosts, checks, results);
            return;
          }
          primary := results[i].host;
        }
        i := i + 1;
      }
      ByCount(hosts, checks, results);
      outcome := if primary == "" then NotFound else Primary(primary);
    }
  }

  lemma ByCount(hosts: seq<string>, checks: seq<Check>, results: seq<Result>)
    requires |checks| == |hosts| && multiset(results) == multiset(ResultsOf(hosts, checks))
    ensures (forall h <- hosts :: h != "") ==>
              var p := PrimaryHosts(hosts, checks);
              Scan(results, "") == if p == [] then NotFound else if |p| == 1 then Primary(p[0]) else SplitBrain
  {
    if forall h <- hosts :: h != "" {
      var all := ResultsOf(hosts, checks);
      NamedHostsShowNoOrder(hosts, checks);
      ScanOfPermutation(all, results);
      ScanFresh(all);
      PrimariesAreHosts(hosts, checks);
    }
  }
}
