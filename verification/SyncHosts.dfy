/** Refreshing the hosts file with the resolved orchestrator addresses. */
module SyncHosts {
  import opened Common
  import opened Text

  datatype HostPair = HostPair(fqdn: string, ip: string) {
    function Line(): string {
      ip + " " + fqdn
    }
  }

  /** The comment line above the generated entries. */
  function Marker(): string {
    "# SDWAN: generated section"
  }

  // ---------- looked-up pairs ----------

  /** Removes every occurrence of pat, scanning from the left. */
  function Erase(s: string, pat: string): string
    requires pat != ""
    decreases |s|
  {
    if |s| < |pat| then s
    else if pat <= s then Erase(s[|pat|..], pat)
    else [s[0]] + Erase(s[1..], pat)
  }

  function HostName(addr: string): string {
    Erase(Erase(addr, "http://"), "https://")
  }

  function PairsOf(name: string, ips: seq<string>): (r: seq<HostPair>)
    ensures |r| == |ips| && forall i | 0 <= i < |ips| :: r[i] == HostPair(name, ips[i])
  {
    if ips == [] then [] else [HostPair(name, ips[0])] + PairsOf(name, ips[1..])
  }

  /** All pairs in lookup order, unless a lookup fails. */
  function Resolve(addrs: seq<string>, lookup: string -> Option<seq<string>>): Option<seq<HostPair>> {
    if addrs == [] then Some([]) else
      var name := HostName(addrs[0]);
      match lookup(name)
      case None => None
      case Some(ips) =>
        match Resolve(addrs[1..], lookup)
        case None => None
        case Some(rest) => Some(PairsOf(name, ips) + rest)
  }

  /** The host name of an address is what follows its scheme. */
  lemma HostNameDropsTheScheme(host: string)
    requires ':' !in host
    ensures HostName("http://" + host) == HostName("https://" + host) == HostName(host) == host
  {
    ErasesNothing(host, "http://");
    ErasesNothing(host, "https://");
    ErasesPrefix("http://", host);
    ErasesPrefix("https://", host);
    SecureIsNoPlain(host);
  }

  lemma {:induction false} ErasesNothing(s: string, pat: string)
    requires ':' !in s && ':' in pat && pat != ""
    ensures Erase(s, pat) == s
    decreases |s|
  {
    if |s| >= |pat| {
      ErasesNothing(s[1..], pat);
      assert s == [s[0]] + s[1..];
    }
  }

  lemma ErasesPrefix(pat: string, host: string)
    requires ':' !in host && ':' in pat && pat != ""
    ensures Erase(pat + host, pat) == host
  {
    assert (pat + host)[|pat|..] == host;
    ErasesNothing(host, pat);
  }

  lemma SecureIsNoPlain(host: string)
    requires ':' !in host
    ensures Erase("https://" + host, "http://") == "https://" + host
  {
    var s := "https://" + host;
    SchemeLetters(host);
    assert s[8..] == host && s[0..] == s;
    hide Erase;
    NoPlainScheme(s, 0);
  }

  lemma SchemeLetters(host: string)
    ensures var s := "https://" + host;
            |s| >= 8 && s[4] != ':' && forall i | 1 <= i < 8 :: s[i] != 'h'
  {
    var s := "https://" + host;
    assert s[1] == 't' && s[2] == 't' && s[3] == 'p' && s[4] == 's';
    assert s[5] == ':' && s[6] == '/' && s[7] == '/';
  }

  /** The plain scheme starts nowhere in the secure one, so that is copied letter by letter. */
  lemma {:induction false} NoPlainScheme(s: string, k: nat)
    requires |s| >= 8 && k <= 8 && ':' !in s[8..] && s[4] != ':' && forall i | 1 <= i < 8 :: s[i] != 'h'
    ensures Erase(s[k..], "http://") == s[k..]
    decreases 8 - k
  {
    if k == 8 {
      ErasesNothing(s[8..], "http://");
    } else if |s[k..]| >= 7 {
      NoPlainScheme(s, k + 1);
      assert s[k..][0] == s[k] && s[k..][1..] == s[k + 1..] && s[k..] == [s[k]] + s[k + 1..];
      assert !("http://" <= s[k..]) by {
        if k == 0 {
          assert s[k..][4] == s[4];
        }
      }
    }
  }

  /** Resolving address after address: each contributes a pair for every address of its host, or fails the whole. */
  lemma ResolveAlone(addr: string, lookup: string -> Option<seq<string>>)
    ensures var ips, r := lookup(HostName(addr)), Resolve([addr], lookup);
            && (r.Some? <==> ips.Some?)
            && (r.Some? ==>
                  |r.value| == |ips.value| && forall i | 0 <= i < |ips.value| ::
                      r.value[i] == HostPair(HostName(addr), ips.value[i]))
  {
    hide HostName;
    assert [addr][1..] == [];
  }

  lemma {:induction false} ResolveAppend(a: seq<string>, b: seq<string>, lookup: string -> Option<seq<string>>)
    ensures var ra, rb := Resolve(a, lookup), Resolve(b, lookup);
            Resolve(a + b, lookup) == if ra.Some? && rb.Some? then Some(ra.value + rb.value) else None
  {
    hide HostName;
    if a == [] {
      assert a + b == b;
      assert Resolve(b, lookup).Some? ==> [] + Resolve(b, lookup).value == Resolve(b, lookup).value;
    } else {
      assert (a + b)[1..] == a[1..] + b;
      ResolveAppend(a[1..], b, lookup);
      var ra, rb := Resolve(a[1..], lookup), Resolve(b, lookup);
      var ips := lookup(HostName(a[0]));
      if ips.Some? && ra.Some? && rb.Some? {
        var first := PairsOf(HostName(a[0]), ips.value);
        assert first + (ra.value + rb.value) == (first + ra.value) + rb.value;
      }
    }
  }

  function Names(addrs: seq<string>): set<string> {
    set a | a in addrs :: HostName(a)
  }

  /** Looked-up pairs are for the names asked for, so clean names and addresses are all a lookup must give. */
  lemma {:induction false} ResolvedIsWellFormed(addrs: seq<string>, lookup: string -> Option<seq<string>>,
      names: set<string>)
    requires Names(addrs) <= names && (forall n <- names :: Clean(n))
    requires forall n <- names :: lookup(n).Some? ==> forall ip <- lookup(n).value :: Clean(ip)
    requires Resolve(addrs, lookup).Some?
    ensures WellFormed(names, Resolve(addrs, lookup).value)
  {
    hide HostName, Clean;
    if addrs != [] {
      var name := HostName(addrs[0]);
      assert name in Names(addrs);
      assert Names(addrs[1..]) <= Names(addrs);
      ResolvedIsWellFormed(addrs[1..], lookup, names);
    }
  }

  // ---------- lines of the file ----------

  /** The pair a trimmed line reads as: the first two fields between single blanks. */
  function Parse(line: string): Option<HostPair> {
    var parts := Split(line, ' ');
    if |parts| > 1 then Some(HostPair(Trim(parts[1]), Trim(parts[0]))) else None
  }

  predicate IsEntry(line: string, names: set<string>) {
    line != Marker() && Parse(line).Some? && Parse(line).value.fqdn in names
  }

  /** The trimmed lines a rewrite keeps: neither the marker nor an orchestrator entry. */
  function Kept(lines: seq<string>, names: set<string>): seq<string> {
    if lines == [] then [] else
      var line := Trim(lines[0]);
      (if line == Marker() || IsEntry(line, names) then [] else [line]) + Kept(lines[1..], names)
  }

  /** The orchestrator entries of the file. */
  function EntriesIn(lines: seq<string>, names: set<string>): set<HostPair> {
    set l | l in lines && IsEntry(Trim(l), names) :: Parse(Trim(l)).value
  }

  function Entries(content: string, names: set<string>): set<HostPair> {
    EntriesIn(Lines(content), names)
  }

  /** The same, as printed lines: the map the code compares by. */
  function KeysIn(lines: seq<string>, names: set<string>): set<string> {
    if lines == [] then {} else
      var line := Trim(lines[0]);
      (if IsEntry(line, names) then {Parse(line).value.Line()} else {}) + KeysIn(lines[1..], names)
  }

  function HostLines(pairs: seq<HostPair>): (r: seq<string>)
    ensures |r| == |pairs| && forall i | 0 <= i < |r| :: r[i] == pairs[i].Line()
  {
    if pairs == [] then [] else [pairs[0].Line()] + HostLines(pairs[1..])
  }

  // ---------- the whole operation ----------

  /** Whether the code finds a change: other counts, or an existing entry that was not looked up. */
  predicate HasChanges(content: string, names: set<string>, pairs: seq<HostPair>) {
    var keys := KeysIn(Lines(content), names);
    |keys| != |pairs| || exists k <- keys :: k !in HostLines(pairs)
  }

  function Rewritten(content: string, names: set<string>, pairs: seq<HostPair>): string {
    Unlines(Kept(Lines(content), names) + ["", Marker()] + HostLines(pairs))
  }

  function Synced(content: string, names: set<string>, pairs: seq<HostPair>): string {
    if HasChanges(content, names, pairs) then Rewritten(content, names, pairs) else content
  }

  /** What the looked-up pairs must be for a line to carry them: blank-free, and for names that were asked for. */
  predicate Clean(s: string) {
    s != "" && forall c <- s :: !IsSpace(c)
  }

  predicate WellFormed(names: set<string>, pairs: seq<HostPair>) {
    forall p <- pairs :: Clean(p.fqdn) && Clean(p.ip) && p.fqdn in names
  }

  // ---------- printing and parsing one line ----------

  lemma BlanksAreSpaces()
    ensures IsSpace(' ') && IsSpace('\n') && IsSpace('\r')
  {
  }

  lemma CleanIsTrimmed(s: string)
    requires Clean(s)
    ensures Trim(s) == s && ' ' !in s && '\n' !in s && !EndsInCR(s) && !IsSpace(s[0]) && !IsSpace(s[|s| - 1])
  {
    BlanksAreSpaces();
    assert s[0] in s && s[|s| - 1] in s;
    hide IsSpace;
    TrimIsTrimmed(s);
    hide Trim;
  }

  lemma NotTheMarker(p: HostPair)
    requires ' ' !in p.ip && ' ' !in p.fqdn
    ensures p.Line() != Marker()
  {
    if p.Line() == Marker() {
      SectionHasBlanks();
      IndexOfFirst(p.ip, ' ', p.fqdn);
      assert false;
    }
  }

  lemma SplitPair(a: string, b: string)
    requires ' ' !in a && ' ' !in b
    ensures Split(a + " " + b, ' ') == [a, b]
  {
    hide Split;
    assert Join([a, b], ' ') == a + " " + b;
    SplitJoin([a, b], ' ');
  }

  lemma TrimPair(a: string, b: string)
    requires a != "" && b != "" && !IsSpace(a[0]) && !IsSpace(b[|b| - 1])
    ensures Trim(a + " " + b) == a + " " + b
  {
    hide IsSpace, Trim;
    TrimIsTrimmed(a + " " + b);
  }

  lemma LineParses(p: HostPair)
    requires Clean(p.fqdn) && Clean(p.ip)
    ensures Trim(p.Line()) == p.Line() && Parse(p.Line()) == Some(p) && p.Line() != Marker()
    ensures '\n' !in p.Line() && !EndsInCR(p.Line())
  {
    hide IsSpace, Trim, Split, Marker;
    CleanIsTrimmed(p.ip);
    CleanIsTrimmed(p.fqdn);
    hide Clean;
    NotTheMarker(p);
    SplitPair(p.ip, p.fqdn);
    TrimPair(p.ip, p.fqdn);
    assert p.Line()[|p.Line()| - 1] == p.fqdn[|p.fqdn| - 1];
  }

  lemma SectionHasBlanks()
    ensures IndexOf(Marker(), ' ') == 1 && ' ' in Marker()[2..]
  {
    var m := Marker();
    MarkerLetters();
    hide Marker, IndexOf;
    assert m == [m[0]] + [' '] + m[2..];
    IndexOfFirst([m[0]], ' ', m[2..]);
    assert m[2..][6] == ' ';
  }

  lemma MarkerLetters()
    ensures |Marker()| > 8 && Marker()[0] != ' ' && Marker()[1] == ' ' && Marker()[8] == ' '
  {
    var m := "# SDWAN: generated section";
    assert Marker() == m;
    assert m[0] == '#';
    assert m[1] == ' ';
    assert m[8] == ' ';
  }

  /** What is parsed has no blank in its address, so printing does not confuse two pairs. */
  lemma ParsedIp(line: string)
    ensures Parse(line).Some? ==> ' ' !in Parse(line).value.ip
  {
    TrimIsTrimmed(Split(line, ' ')[0]);
  }

  lemma LineIsInjective(p: HostPair, q: HostPair)
    requires ' ' !in p.ip && ' ' !in q.ip && p.Line() == q.Line()
    ensures p == q
  {
    IndexOfFirst(p.ip, ' ', p.fqdn);
    IndexOfFirst(q.ip, ' ', q.fqdn);
    assert p.ip == p.Line()[..|p.ip|] && p.fqdn == p.Line()[|p.ip| + 1..];
    assert q.ip == q.Line()[..|q.ip|] && q.fqdn == q.Line()[|q.ip| + 1..];
  }

  // ---------- the write path ----------

  /** A line as a rewrite keeps it. */
  predicate KeptLine(l: string, names: set<string>) {
    Trim(l) == l && '\n' !in l && !EndsInCR(l) && l != Marker() && !IsEntry(l, names)
  }

  lemma TrimmedLine(l: string, names: set<string>)
    requires '\n' !in l && !(Trim(l) == Marker() || IsEntry(Trim(l), names))
    ensures KeptLine(Trim(l), names)
  {
    BlanksAreSpaces();
    hide IsSpace, Marker, IsEntry;
    TrimIsTrimmed(l);
    TrimIsTrimmed(Trim(l));
    hide Trim;
  }

  lemma {:induction false} KeptLines(lines: seq<string>, names: set<string>)
    requires forall l <- lines :: '\n' !in l
    ensures forall l <- Kept(lines, names) :: KeptLine(l, names)
  {
    hide Trim, IsEntry, Marker, KeptLine;
    if lines != [] {
      assert lines[0] in lines && forall l <- lines[1..] :: l in lines;
      var line := Trim(lines[0]);
      if !(line == Marker() || IsEntry(line, names)) {
        TrimmedLine(lines[0], names);
      }
      KeptLines(lines[1..], names);
    }
  }

  lemma {:induction false} KeptAppend(a: seq<string>, b: seq<string>, names: set<string>)
    ensures Kept(a + b, names) == Kept(a, names) + Kept(b, names)
  {
    hide Trim, Marker, IsEntry;
    if a == [] {
      assert a + b == b && [] + Kept(b, names) == Kept(b, names);
    } else {
      assert (a + b)[1..] == a[1..] + b;
      KeptAppend(a[1..], b, names);
      var line := Trim(a[0]);
      var first := if line == Marker() || IsEntry(line, names) then [] else [line];
      assert first + (Kept(a[1..], names) + Kept(b, names)) == (first + Kept(a[1..], names)) + Kept(b, names);
    }
  }

  lemma {:induction false} KeptAgain(lines: seq<string>, names: set<string>)
    requires forall l <- lines :: KeptLine(l, names)
    ensures Kept(lines, names) == lines
  {
    hide Marker, Trim, IsEntry, EndsInCR, KeptLine;
    if lines != [] {
      var l := lines[0];
      assert l in lines;
      assert Trim(l) == l && !(l == Marker() || IsEntry(l, names)) by {
        KeptLineMeans(l, names);
      }
      KeptAgain(lines[1..], names);
      assert lines == [l] + lines[1..];
    }
  }

  lemma KeptLineMeans(l: string, names: set<string>)
    ensures KeptLine(l, names) ==> Trim(l) == l && !(l == Marker() || IsEntry(l, names)) && IsLine(l)
  {
    hide Marker, Trim, IsEntry, EndsInCR;
  }

  lemma {:induction false} NoHostLineKept(pairs: seq<HostPair>, names: set<string>)
    requires WellFormed(names, pairs)
    ensures Kept(HostLines(pairs), names) == []
  {
    hide Marker, Trim, IsEntry, Clean, HostPair.Line;
    if pairs != [] {
      HostLineIsNotKept(pairs[0], names);
      NoHostLineKept(pairs[1..], names);
    }
  }

  lemma HostLineIsNotKept(p: HostPair, names: set<string>)
    requires Clean(p.fqdn) && Clean(p.ip) && p.fqdn in names
    ensures IsEntry(Trim(p.Line()), names)
  {
    hide Marker, Trim, Clean, Parse, HostPair.Line, EndsInCR;
    LineParses(p);
  }

  /** A line that survives printing and scanning. */
  predicate IsLine(l: string) {
    '\n' !in l && !EndsInCR(l)
  }

  lemma FixedLines()
    ensures IsLine(Marker()) && IsLine("")
  {
  }

  lemma HostLineIsLine(p: HostPair)
    requires Clean(p.fqdn) && Clean(p.ip)
    ensures IsLine(p.Line())
  {
    LineParses(p);
    hide Marker, Trim, Clean, EndsInCR, Parse;
  }

  lemma {:induction false} HostLinesAreLines(names: set<string>, pairs: seq<HostPair>)
    requires WellFormed(names, pairs)
    ensures forall l <- HostLines(pairs) :: IsLine(l)
  {
    hide Clean, IsLine, HostPair.Line;
    if pairs != [] {
      assert pairs[0] in pairs && forall p <- pairs[1..] :: p in pairs;
      HostLineIsLine(pairs[0]);
      HostLinesAreLines(names, pairs[1..]);
    }
  }

  lemma RewrittenLines(content: string, names: set<string>, pairs: seq<HostPair>)
    requires WellFormed(names, pairs)
    ensures Lines(Rewritten(content, names, pairs)) == Kept(Lines(content), names) + ["", Marker()] + HostLines(pairs)
  {
    hide Marker, Trim, IsEntry, Lines, Kept, EndsInCR, KeptLine, WellFormed, HostLines, IsLine;
    var kept := Kept(Lines(content), names);
    var lines := kept + ["", Marker()] + HostLines(pairs);
    KeptLines(Lines(content), names);
    HostLinesAreLines(names, pairs);
    FixedLines();
    forall l <- lines ensures IsLine(l) {
      if l in kept {
        KeptLineMeans(l, names);
      } else if l !in HostLines(pairs) {
        assert l == "" || l == Marker();
      }
    }
    LinesSurvive(lines);
  }

  lemma LinesSurvive(lines: seq<string>)
    requires forall l <- lines :: IsLine(l)
    ensures Lines(Unlines(lines)) == lines
  {
    hide EndsInCR, Unlines, Lines;
    assert forall l <- lines :: IsLine(l) && '\n' !in l && !EndsInCR(l);
    LinesOfUnlines(lines);
  }

  /**
   * Frame: a rewrite keeps the trimmed lines that are neither marker nor entry, in order, and adds one blank line,
   * the marker and the looked-up pairs in lookup order; seen from the file, just the blank line is new to what is kept.
   */
  lemma RewriteFrame(content: string, names: set<string>, pairs: seq<HostPair>)
    requires WellFormed(names, pairs)
    ensures Kept(Lines(Rewritten(content, names, pairs)), names) == Kept(Lines(content), names) + [""]
  {
    var kept := Kept(Lines(content), names);
    RewrittenLines(content, names, pairs);
    KeptLines(Lines(content), names);
    KeptAgain(kept, names);
    NoHostLineKept(pairs, names);
    KeptAppend(kept + ["", Marker()], HostLines(pairs), names);
    KeptAppend(kept, ["", Marker()], names);
    MarkerLines(names);
    hide Marker, Kept, Lines, Rewritten, HostLines, WellFormed;
  }

  /** The rewritten file line by line, the address of a pair standing before its name. */
  lemma RewriteLayout(content: string, names: set<string>, pairs: seq<HostPair>)
    requires WellFormed(names, pairs)
    ensures var kept, lines := Kept(Lines(content), names), Lines(Rewritten(content, names, pairs));
            && |lines| == |kept| + 2 + |pairs|
            && lines[..|kept|] == kept && lines[|kept|] == "" && lines[|kept| + 1] == "# SDWAN: generated section"
            && forall i | 0 <= i < |pairs| :: lines[|kept| + 2 + i] == pairs[i].ip + " " + pairs[i].fqdn
  {
    hide Marker, Kept, Lines, Rewritten, WellFormed;
    RewrittenLines(content, names, pairs);
    MarkerText();
  }

  lemma MarkerText()
    ensures Marker() == "# SDWAN: generated section"
  {
  }

  /** Reading a line: the address comes first, then the name. */
  lemma AddressComesFirst(ip: string, fqdn: string)
    requires Clean(ip) && Clean(fqdn)
    ensures Parse(ip + " " + fqdn) == Some(HostPair(fqdn, ip))
  {
    hide Parse, Clean, Trim, Marker, EndsInCR;
    LineParses(HostPair(fqdn, ip));
  }

  /** A line alone: it is dropped if, trimmed, it is the marker or names an orchestrator, and kept trimmed otherwise. */
  lemma KeptAlone(l: string, names: set<string>)
    ensures var t := Trim(l);
            var orchestrator := ' ' in t && Trim(Split(t, ' ')[1]) in names;
            Kept([l], names) == if t == "# SDWAN: generated section" || orchestrator then [] else [t]
  {
    hide Trim, Split, Marker;
    MarkerText();
    assert [l][1..] == [];
  }

  lemma MarkerLines(names: set<string>)
    ensures Kept(["", Marker()], names) == [""] && !IsEntry("", names) && !IsEntry(Marker(), names)
    ensures Trim("") == "" && Trim(Marker()) == Marker()
  {
    TrimIsTrimmed("");
    MarkerIsTrimmed();
    hide Marker, Trim;
    EmptyIsNoEntry(names);
    hide IsEntry;
    assert Kept([Marker()], names) == [];
    assert ["", Marker()][1..] == [Marker()];
  }

  lemma MarkerIsTrimmed()
    ensures Trim(Marker()) == Marker() && Marker() != ""
  {
    TrimIsTrimmed(Marker());
  }

  lemma EmptyIsNoEntry(names: set<string>)
    ensures !IsEntry("", names) && !IsEntry(Marker(), names)
  {
    hide Marker, Trim;
    assert Split("", ' ') == [""];
  }

  lemma HostLineIsEntry(names: set<string>, pairs: seq<HostPair>, i: nat)
    requires WellFormed(names, pairs) && i < |pairs|
    ensures var l := HostLines(pairs)[i];
            IsEntry(Trim(l), names) && Parse(Trim(l)).value == pairs[i]
  {
    hide Marker, Trim, Parse, Clean, EndsInCR;
    assert pairs[i] in pairs;
    LineParses(pairs[i]);
  }

  lemma RewrittenEntries(content: string, names: set<string>, pairs: seq<HostPair>)
    requires WellFormed(names, pairs)
    ensures Entries(Rewritten(content, names, pairs), names) == SetOf(pairs)
  {
    hide Marker, Trim, Parse, Lines, Kept, EndsInCR, KeptLine, WellFormed, Rewritten;
    var kept := Kept(Lines(content), names);
    var lines := kept + ["", Marker()] + HostLines(pairs);
    RewrittenLines(content, names, pairs);
    KeptLines(Lines(content), names);
    MarkerLines(names);
    forall p <- pairs ensures p in EntriesIn(lines, names) {
      var i :| 0 <= i < |pairs| && pairs[i] == p;
      HostLineIsEntry(names, pairs, i);
      assert HostLines(pairs)[i] in lines;
    }
    forall p <- EntriesIn(lines, names) ensures p in pairs {
      var l :| l in lines && IsEntry(Trim(l), names) && Parse(Trim(l)).value == p;
      if l in kept {
        KeptLineMeans(l, names);
      }
      var i :| 0 <= i < |pairs| && HostLines(pairs)[i] == l;
      HostLineIsEntry(names, pairs, i);
    }
  }

  // ---------- the change test ----------

  /** Counting: a set with as many elements as a list is long, all of them in the list, is the set of the list. */
  lemma {:induction false} SetOfIsSmall<T>(s: seq<T>)
    ensures |SetOf(s)| <= |s|
    ensures |SetOf(s)| == |s| <==> Distinct(s)
  {
    if s == [] {
      assert SetOf(s) == {};
    } else {
      var x, rest := s[0], s[1..];
      assert s == [x] + rest;
      SetOfIsSmall(rest);
      DistinctCons(x, rest);
      hide Distinct;
      assert SetOf(s) == {x} + SetOf(rest);
      if x in rest {
        assert SetOf(s) == SetOf(rest);
      }
    }
  }

  lemma DistinctCons<T>(x: T, s: seq<T>)
    ensures Distinct([x] + s) <==> x !in s && Distinct(s)
  {
    var t := [x] + s;
    if Distinct(t) {
      forall i | 0 <= i < |s| ensures s[i] != x {
        assert t[i + 1] == s[i] && t[0] == x;
      }
      forall i, j | 0 <= i < j < |s| ensures s[i] != s[j] {
        assert t[i + 1] == s[i] && t[j + 1] == s[j];
      }
    }
  }

  lemma {:induction false} SubsetSizes<T>(a: set<T>, b: set<T>)
    requires a <= b
    ensures |a| <= |b| && (|a| == |b| ==> a == b)
  {
    if a != {} {
      var x :| x in a;
      SubsetSizes(a - {x}, b - {x});
      assert a == a - {x} + {x} && b == b - {x} + {x};
    }
  }

  function LinesOf(entries: set<HostPair>): set<string> {
    set p | p in entries :: p.Line()
  }

  /** The keys the code collects are the printed entries of the file. */
  lemma {:induction false} KeysAreEntries(lines: seq<string>, names: set<string>)
    ensures KeysIn(lines, names) == LinesOf(EntriesIn(lines, names))
  {
    hide Trim, Parse, Marker;
    if lines == [] {
      assert EntriesIn(lines, names) == {};
    } else {
      KeysAreEntries(lines[1..], names);
      var l := Trim(lines[0]);
      assert lines == [lines[0]] + lines[1..];
      assert EntriesIn(lines, names) ==
          (if IsEntry(l, names) then {Parse(l).value} else {}) + EntriesIn(lines[1..], names);
    }
  }

  lemma HostLinesAreLinesOf(pairs: seq<HostPair>)
    ensures SetOf(HostLines(pairs)) == LinesOf(SetOf(pairs))
  {
    forall k <- LinesOf(SetOf(pairs)) ensures k in HostLines(pairs) {
      var p :| p in pairs && p.Line() == k;
      var i :| 0 <= i < |pairs| && pairs[i] == p;
      assert HostLines(pairs)[i] == k;
    }
    forall k <- HostLines(pairs) ensures k in LinesOf(SetOf(pairs)) {
      var i :| 0 <= i < |pairs| && HostLines(pairs)[i] == k;
      assert pairs[i] in SetOf(pairs);
    }
  }

  /** Addresses without blanks, so that printing is injective. */
  ghost predicate Printable(entries: set<HostPair>) {
    forall p <- entries :: ' ' !in p.ip
  }

  lemma LinesOfIsInjective(a: set<HostPair>, b: set<HostPair>)
    requires Printable(a) && Printable(b) && LinesOf(a) == LinesOf(b)
    ensures a == b
  {
    forall p <- a ensures p in b {
      assert p.Line() in LinesOf(b);
      var q :| q in b && q.Line() == p.Line();
      LineIsInjective(p, q);
    }
    forall p <- b ensures p in a {
      assert p.Line() in LinesOf(a);
      var q :| q in a && q.Line() == p.Line();
      LineIsInjective(p, q);
    }
  }

  lemma EntriesArePrintable(lines: seq<string>, names: set<string>)
    ensures Printable(EntriesIn(lines, names))
  {
    hide Trim, Marker, Parse;
    forall p <- EntriesIn(lines, names) ensures ' ' !in p.ip {
      var l :| l in lines && IsEntry(Trim(l), names) && Parse(Trim(l)).value == p;
      ParsedIp(Trim(l));
    }
  }

  lemma CleanIsPrintable(names: set<string>, pairs: seq<HostPair>)
    requires WellFormed(names, pairs)
    ensures Printable(SetOf(pairs))
  {
    hide IsSpace;
    BlanksAreSpaces();
  }

  /** Printing keeps different pairs different. */
  lemma DistinctLines(pairs: seq<HostPair>)
    requires Printable(SetOf(pairs))
    ensures Distinct(HostLines(pairs)) <==> Distinct(pairs)
  {
    hide HostPair.Line, Printable, HostLines;
    var lines := HostLines(pairs);
    forall i, j | 0 <= i < j < |pairs| ensures lines[i] == lines[j] <==> pairs[i] == pairs[j] {
      LinesDiffer(pairs, i, j);
      assert lines[i] == pairs[i].Line() && lines[j] == pairs[j].Line();
    }
  }

  lemma LinesDiffer(pairs: seq<HostPair>, i: nat, j: nat)
    requires Printable(SetOf(pairs)) && i < |pairs| && j < |pairs|
    ensures pairs[i].Line() == pairs[j].Line() ==> pairs[i] == pairs[j]
  {
    hide HostPair.Line;
    assert pairs[i] in SetOf(pairs) && pairs[j] in SetOf(pairs);
    if pairs[i].Line() == pairs[j].Line() {
      LineIsInjective(pairs[i], pairs[j]);
    }
  }

  /**
   * The change test decides exactly: nothing is written if and only if the entries of the file are the looked-up
   * pairs and no pair was looked up twice.
   */
  lemma ChangeTestIsExact(content: string, names: set<string>, pairs: seq<HostPair>)
    requires WellFormed(names, pairs)
    ensures !HasChanges(content, names, pairs) <==> Entries(content, names) == SetOf(pairs) && Distinct(pairs)
  {
    hide IsEntry, WellFormed, Marker, Trim, Parse, Lines, KeysIn, EntriesIn, Distinct;
    var keys := KeysIn(Lines(content), names);
    var lines := HostLines(pairs);
    KeysAreEntries(Lines(content), names);
    HostLinesAreLinesOf(pairs);
    EntriesArePrintable(Lines(content), names);
    CleanIsPrintable(names, pairs);
    DistinctLines(pairs);
    SetOfIsSmall(lines);
    hide HostPair.Line;
    if !HasChanges(content, names, pairs) {
      SubsetSizes(keys, SetOf(lines));
      LinesOfIsInjective(Entries(content, names), SetOf(pairs));
    }
    if Entries(content, names) == SetOf(pairs) && Distinct(pairs) {
      assert keys == SetOf(lines);
    }
  }

  // ---------- results ----------

  /**
   * Afterwards the entries of the file are the looked-up pairs, on the path that writes and on the one that does not.
   */
  lemma SyncedEntries(content: string, names: set<string>, pairs: seq<HostPair>)
    requires WellFormed(names, pairs)
    ensures Entries(Synced(content, names, pairs), names) == SetOf(pairs)
  {
    ChangeTestIsExact(content, names, pairs);
    RewrittenEntries(content, names, pairs);
    hide HasChanges, Rewritten, Entries, WellFormed;
  }

  lemma {:induction false} UnlinesLength(a: seq<string>, b: seq<string>)
    ensures |Unlines(a + [""] + b)| == |Unlines(a + b)| + 1
  {
    UnlinesAppend(a + [""], b);
    UnlinesAppend(a, [""]);
    UnlinesAppend(a, b);
    assert Unlines([""]) == "\n";
  }

  /**
   * Running it again with the same lookups leaves the file as it is exactly when no pair is looked up twice; with a
   * repeated pair every run rewrites the file and makes it one blank line longer.
   */
  lemma SyncIsIdempotentIff(content: string, names: set<string>, pairs: seq<HostPair>)
    requires WellFormed(names, pairs)
    ensures var once := Synced(content, names, pairs);
            var twice := Synced(once, names, pairs);
            && (twice == once <==> Distinct(pairs))
            && (!Distinct(pairs) ==> |twice| == |once| + 1)
  {
    hide IsEntry, HasChanges, Entries, WellFormed, Distinct, Lines, Kept, Trim, Marker;
    var once := Synced(content, names, pairs);
    SyncedEntries(content, names, pairs);
    ChangeTestIsExact(content, names, pairs);
    ChangeTestIsExact(once, names, pairs);
    if !Distinct(pairs) {
      assert once == Rewritten(content, names, pairs);
      RewriteFrame(content, names, pairs);
      var kept := Kept(Lines(content), names);
      UnlinesLength(kept, ["", Marker()] + HostLines(pairs));
      assert kept + [""] + (["", Marker()] + HostLines(pairs)) == kept + [""] + ["", Marker()] + HostLines(pairs);
      assert kept + (["", Marker()] + HostLines(pairs)) == kept + ["", Marker()] + HostLines(pairs);
    }
  }

  // ---------- the service ----------

  /** What reading the configuration gives: an error, no addresses to sync, or the orchestrator addresses. */
  datatype ConfigRead = Unreadable | NoAddresses | Addresses(addrs: seq<string>)

  /** Whether the system calls on the hosts file succeed. */
  datatype FileCalls = FileCalls(stat: bool, read: bool, write: bool)

  datatype SyncError = ConfigError | LookupError | FileError | ScanError

  /** Something was looked up, and every lookup succeeded. */
  predicate Asked(config: ConfigRead, lookup: string -> Option<seq<string>>) {
    config.Addresses? && Resolve(config.addrs, lookup).Some? && Resolve(config.addrs, lookup).value != []
  }

  class Service {
    var hosts: string

    /**
     * An error leaves the file alone; otherwise, with at least one looked-up pair, the file is the synced one.
     * The names asked for are those of the addresses.
     */
    method SyncHosts(config: ConfigRead, lookup: string -> Option<seq<string>>, calls: FileCalls)
      returns (err: Option<SyncError>)
      modifies this
      ensures err.Some? ==> hosts == old(hosts)
      ensures err.None? ==>
                !config.Unreadable? &&
                if config.NoAddresses? || config.addrs == [] then hosts == old(hosts)
                else Resolve(config.addrs, lookup).Some? &&
                     var pairs := Resolve(config.addrs, lookup).value;
                     hosts == if pairs == [] then old(hosts) else Synced(old(hosts), Names(config.addrs), pairs)
      ensures err == Some(ConfigError) <==> config.Unreadable?
      ensures err == Some(LookupError) <==> config.Addresses? && Resolve(config.addrs, lookup).None?
      ensures err == Some(ScanError) <==> Asked(config, lookup) && calls.stat && calls.read && TooLong(old(hosts))
      ensures err == Some(FileError) <==>
                Asked(config, lookup) &&
                (!(calls.stat && calls.read) ||
                 (!TooLong(old(hosts)) && !calls.write &&
                     HasChanges(old(hosts), Names(config.addrs), Resolve(config.addrs, lookup).value)))
    {
      assert Resolve([], lookup) == Some([]);
      hide Marker, Unlines, Kept, KeysIn, HostLines, Lines, TooLong, Resolve, Names, Parse, Trim;
      if config.Unreadable? {
        return Some(ConfigError);
      }
      if config.NoAddresses? || config.addrs == [] {
        return None;
      }

      var pairs, names := ResolveAll(config.addrs, lookup);
      if pairs.None? {
        return Some(LookupError);
      }
      if pairs.value == [] {
        return None;
      }

      // read the file
      if !calls.stat || !calls.read {
        return Some(FileError);
      }

      // collect what is kept and the existing entries
      var lines := Lines(hosts);
      var buf, existing := ScanLines(lines, names);
      if TooLong(hosts) {
        return Some(ScanError);
      }

      // search for changes
      var changed := |existing| != |pairs.value|;
      if !changed {
        var left := DeleteAll(existing, pairs.value);
        changed := left != {};
      }
      if !changed {
        return None;
      }

      buf := Append(buf, pairs.value);
      BufferIsRewritten(Kept(lines, names), HostLines(pairs.value));
      if !calls.write {
        return Some(FileError);
      }
      hosts := buf;
      return None;
    }
  }

  /** Looks up every address; the names are those asked for. */
  method ResolveAll(addrs: seq<string>, lookup: string -> Option<seq<string>>)
    returns (pairs: Option<seq<HostPair>>, names: set<string>)
    ensures pairs == Resolve(addrs, lookup)
    ensures pairs.Some? ==> names == Names(addrs)
  {
    hide HostName;
    var found: seq<HostPair> := [];
    names := {};
    assert addrs[0..] == addrs;
    assert forall rest: seq<HostPair> :: found + rest == rest;
    for i := 0 to |addrs|
      invariant names == Names(addrs[..i])
      invariant match Resolve(addrs[i..], lookup)
                case None => Resolve(addrs, lookup).None?
                case Some(rest) => Resolve(addrs, lookup) == Some(found + rest)
    {
      assert addrs[i..][1..] == addrs[i + 1..];
      var name := HostName(addrs[i]);
      var ips := lookup(name);
      if ips.None? {
        return None, names;
      }
      ghost var before := found;
      found := AppendPairs(found, name, ips.value);
      assert forall rest: seq<HostPair> :: before + (PairsOf(name, ips.value) + rest) == found + rest;
      names := names + {name};
      NamesGrow(addrs, i);
    }
    assert addrs[..|addrs|] == addrs && found + [] == found;
    pairs := Some(found);
  }

  /** Appends the marker section to the text that is kept. */
  method Append(kept: string, pairs: seq<HostPair>) returns (buf: string)
    ensures buf == kept + "\n" + Marker() + "\n" + Unlines(HostLines(pairs))
  {
    hide Marker;
    buf := kept + "\n" + Marker() + "\n";
    ghost var head := buf;
    for i := 0 to |pairs|
      invariant buf + Unlines(HostLines(pairs[i..])) == head + Unlines(HostLines(pairs))
    {
      assert pairs[i..][1..] == pairs[i + 1..];
      ghost var rest := Unlines(HostLines(pairs[i + 1..]));
      assert Unlines(HostLines(pairs[i..])) == pairs[i].Line() + "\n" + rest by {
        FirstHostLine(pairs[i..]);
      }
      assert buf + pairs[i].Line() + "\n" + rest == buf + (pairs[i].Line() + "\n" + rest);
      buf := buf + pairs[i].Line() + "\n";
    }
  }

  lemma FirstHostLine(pairs: seq<HostPair>)
    requires pairs != []
    ensures Unlines(HostLines(pairs)) == pairs[0].Line() + "\n" + Unlines(HostLines(pairs[1..]))
  {
    assert HostLines(pairs)[1..] == HostLines(pairs[1..]);
  }

  method AppendPairs(pairs: seq<HostPair>, name: string, ips: seq<string>) returns (r: seq<HostPair>)
    ensures r == pairs + PairsOf(name, ips)
  {
    r := pairs;
    for i := 0 to |ips|
      invariant r + PairsOf(name, ips[i..]) == pairs + PairsOf(name, ips)
    {
      assert ips[i..][1..] == ips[i + 1..];
      r := r + [HostPair(name, ips[i])];
    }
  }

  lemma NamesGrow(addrs: seq<string>, i: nat)
    requires i < |addrs|
    ensures Names(addrs[..i + 1]) == Names(addrs[..i]) + {HostName(addrs[i])}
  {
    hide HostName;
    assert addrs[..i + 1] == addrs[..i] + [addrs[i]];
  }

  /** The printed pair of an orchestrator entry. */
  method ReadEntry(line: string, names: set<string>) returns (key: Option<string>)
    requires line != Marker()
    ensures key == if IsEntry(line, names) then Some(Parse(line).value.Line()) else None
  {
    hide Trim, Marker;
    var parts := Split(line, ' ');
    if |parts| > 1 {
      var ip, fqdn := Trim(parts[0]), Trim(parts[1]);
      if fqdn in names {
        return Some(HostPair(fqdn, ip).Line());
      }
    }
    return None;
  }

  /** The scan loop: the text to keep, and the set of existing entries as printed lines. */
  method ScanLines(lines: seq<string>, names: set<string>) returns (buf: string, existing: set<string>)
    ensures buf == Unlines(Kept(lines, names)) && existing == KeysIn(lines, names)
  {
    hide Trim, Marker, Unlines, Kept, Parse, HostPair.Line;
    buf, existing := "", {};
    assert lines[0..] == lines && buf + Unlines(Kept(lines, names)) == Unlines(Kept(lines, names));
    for i := 0 to |lines|
      invariant buf + Unlines(Kept(lines[i..], names)) == Unlines(Kept(lines, names))
      invariant existing + KeysIn(lines[i..], names) == KeysIn(lines, names)
    {
      assert lines[i..][1..] == lines[i + 1..];
      var line := Trim(lines[i]);
      KeptFirst(lines[i..], names);
      ghost var rest := Unlines(Kept(lines[i + 1..], names));
      assert "" + rest == rest && buf + line + "\n" + rest == buf + (line + "\n" + rest);
      if line == Marker() {
        continue;
      }
      var key := ReadEntry(line, names);
      if key.Some? {
        existing := existing + {key.value};
        continue;
      }
      buf := buf + line + "\n";
    }
    NothingKept(names);
  }

  lemma NothingKept(names: set<string>)
    ensures Unlines(Kept([], names)) == ""
  {
  }

  lemma KeptFirst(lines: seq<string>, names: set<string>)
    requires lines != []
    ensures var line := Trim(lines[0]);
            Unlines(Kept(lines, names)) ==
              (if line == Marker() || IsEntry(line, names) then "" else line + "\n") + Unlines(Kept(lines[1..], names))
  {
    hide Trim, Marker, IsEntry;
    var rest := Kept(lines[1..], names);
    assert ([Trim(lines[0])] + rest)[1..] == rest && [] + rest == rest;
  }

  /** Deletes the printed pairs one by one. */
  method DeleteAll(existing: set<string>, pairs: seq<HostPair>) returns (left: set<string>)
    ensures left == existing - SetOf(HostLines(pairs))
    ensures left != {} <==> exists k <- existing :: k !in HostLines(pairs)
  {
    left := existing;
    for i := 0 to |pairs|
      invariant left == existing - SetOf(HostLines(pairs)[..i])
    {
      assert HostLines(pairs)[..i + 1] == HostLines(pairs)[..i] + [pairs[i].Line()];
      left := left - {pairs[i].Line()};
    }
    assert HostLines(pairs)[..|pairs|] == HostLines(pairs);
    if left != {} {
      var k :| k in left;
      assert k in existing && k !in HostLines(pairs);
    } else {
      forall k <- existing ensures k in HostLines(pairs) {
        assert k !in left;
      }
    }
  }

  lemma BufferIsRewritten(kept: seq<string>, lines: seq<string>)
    ensures Unlines(kept) + "\n" + Marker() + "\n" + Unlines(lines) == Unlines(kept + ["", Marker()] + lines)
  {
    hide Marker;
    UnlinesAppend(kept + ["", Marker()], lines);
    UnlinesAppend(kept, ["", Marker()]);
    assert ["", Marker()][1..] == [Marker()];
    assert Unlines([Marker()]) == Marker() + "\n";
    assert Unlines(["", Marker()]) == "\n" + Marker() + "\n";
  }
}
