/** The string and line functions of the Go standard library that the text-processing code relies on. */
module Text {

  /** White space as unicode.IsSpace has it. */
  predicate IsSpace(c: char) {
    var n := c as int;
    9 <= n <= 13 || 0x2000 <= n <= 0x200A || n in {0x20, 0x85, 0xA0, 0x1680, 0x2028, 0x2029, 0x202F, 0x205F, 0x3000}
  }

  function TrimLeft(s: string): (r: string)
    ensures |r| <= |s| && r == s[|s| - |r|..]
    ensures r != "" ==> !IsSpace(r[0])
    ensures s != "" && !IsSpace(s[0]) ==> r == s
  {
    if s != "" && IsSpace(s[0]) then TrimLeft(s[1..]) else s
  }

  function TrimRight(s: string): (r: string)
    ensures |r| <= |s| && r == s[..|r|]
    ensures r != "" ==> !IsSpace(r[|r| - 1])
    ensures s != "" && !IsSpace(s[|s| - 1]) ==> r == s
  {
    if s != "" && IsSpace(s[|s| - 1]) then TrimRight(s[..|s| - 1]) else s
  }

  function Trim(s: string): string {
    TrimRight(TrimLeft(s))
  }

  predicate Trimmed(s: string) {
    s == "" || (!IsSpace(s[0]) && !IsSpace(s[|s| - 1]))
  }

  lemma TrimIsTrimmed(s: string)
    ensures Trimmed(Trim(s)) && (Trimmed(s) ==> Trim(s) == s)
    ensures forall c <- Trim(s) :: c in s
  {
    var l := TrimLeft(s);
    var r := TrimRight(l);
    if r != "" {
      assert r[0] == l[0];
    }
    forall c <- r ensures c in s {
      assert c in l;
    }
  }

  /** The position of the first c, or the length of s. */
  function IndexOf(s: string, c: char): (i: nat)
    ensures i <= |s| && c !in s[..i] && (i < |s| ==> s[i] == c)
    ensures i == |s| <==> c !in s
  {
    if s == "" || s[0] == c then 0 else
      assert s == [s[0]] + s[1..];
      var i := IndexOf(s[1..], c);
      assert s[..i + 1] == [s[0]] + s[1..][..i];
      i + 1
  }

  lemma {:induction false} IndexOfFirst(a: string, c: char, b: string)
    requires c !in a
    ensures IndexOf(a + [c] + b, c) == |a|
  {
    var s := a + [c] + b;
    assert s[|a|] == c && s[..|a|] == a;
    if a != "" {
      assert s[1..] == a[1..] + [c] + b;
      IndexOfFirst(a[1..], c, b);
    }
  }

  function Split(s: string, c: char): (parts: seq<string>)
    ensures |parts| >= 1
    ensures |parts| > 1 <==> c in s
    ensures forall p <- parts :: c !in p
    decreases |s|
  {
    var i := IndexOf(s, c);
    if i == |s| then [s] else [s[..i]] + Split(s[i + 1..], c)
  }

  function Join(parts: seq<string>, c: char): string
    requires parts != []
  {
    if |parts| == 1 then parts[0] else parts[0] + [c] + Join(parts[1..], c)
  }

  lemma SplitFirst(a: string, c: char, b: string)
    requires c !in a
    ensures Split(a + [c] + b, c) == [a] + Split(b, c)
  {
    var s := a + [c] + b;
    IndexOfFirst(a, c, b);
    hide IndexOf;
    assert s[..|a|] == a && s[|a| + 1..] == b;
  }

  lemma {:induction false} SplitJoin(parts: seq<string>, c: char)
    requires parts != [] && forall p <- parts :: c !in p
    ensures Split(Join(parts, c), c) == parts
  {
    assert parts[0] in parts;
    if |parts| > 1 {
      hide Split;
      SplitFirst(parts[0], c, Join(parts[1..], c));
      SplitJoin(parts[1..], c);
      assert [parts[0]] + parts[1..] == parts;
    }
  }

  // ---------- lines ----------

  /** The text between line feeds; nothing after a final one. */
  function Segments(s: string): (lines: seq<string>)
    ensures forall l <- lines :: '\n' !in l
    decreases |s|
  {
    if s == "" then [] else
      var i := IndexOf(s, '\n');
      if i == |s| then [s] else [s[..i]] + Segments(s[i + 1..])
  }

  function DropCR(l: string): string {
    if l != "" && l[|l| - 1] == '\r' then l[..|l| - 1] else l
  }

  function DropCRs(lines: seq<string>): (r: seq<string>)
    ensures |r| == |lines| && forall i | 0 <= i < |r| :: r[i] == DropCR(lines[i])
  {
    if lines == [] then [] else [DropCR(lines[0])] + DropCRs(lines[1..])
  }

  /** The lines a line scanner delivers. */
  function Lines(s: string): (lines: seq<string>)
    ensures forall l <- lines :: '\n' !in l
  {
    var segments := Segments(s);
    var lines := DropCRs(segments);
    assert forall l <- lines :: '\n' !in l by {
      forall i | 0 <= i < |lines| ensures '\n' !in lines[i] {
        assert '\n' !in segments[i];
      }
    }
    lines
  }

  /** The scanner gives up on a line that does not fit its buffer. */
  const MAX_TOKEN := 65536

  predicate TooLong(s: string) {
    exists l <- Segments(s) :: |l| >= MAX_TOKEN
  }

  /** The segments before the first one that does not fit. */
  function Fitting(segments: seq<string>): (r: seq<string>)
    ensures r <= segments
    ensures r == segments <==> forall l <- segments :: |l| < MAX_TOKEN
  {
    if segments == [] || |segments[0]| >= MAX_TOKEN then
      assert segments != [] ==> segments[0] in segments;
      []
    else
      assert segments == [segments[0]] + segments[1..];
      [segments[0]] + Fitting(segments[1..])
  }

  /** The lines delivered before the scanner gives up, all of them if it does not. */
  function Scanned(s: string): seq<string> {
    DropCRs(Fitting(Segments(s)))
  }

  function Unlines(lines: seq<string>): string {
    if lines == [] then "" else lines[0] + "\n" + Unlines(lines[1..])
  }

  lemma {:induction false} UnlinesAppend(a: seq<string>, b: seq<string>)
    ensures Unlines(a + b) == Unlines(a) + Unlines(b)
  {
    if a == [] {
      assert a + b == b;
    } else {
      assert (a + b)[1..] == a[1..] + b;
      UnlinesAppend(a[1..], b);
    }
  }

  lemma {:induction false} SegmentsOfUnlines(lines: seq<string>)
    requires forall l <- lines :: '\n' !in l
    ensures Segments(Unlines(lines)) == lines
  {
    if lines != [] {
      var rest := Unlines(lines[1..]);
      IndexOfFirst(lines[0], '\n', rest);
      var s := lines[0] + "\n" + rest;
      assert s[..|lines[0]|] == lines[0] && s[|lines[0]| + 1..] == rest;
      SegmentsOfUnlines(lines[1..]);
    }
  }

  predicate EndsInCR(l: string) {
    l != "" && l[|l| - 1] == '\r'
  }

  lemma {:induction false} DropCRsIdle(lines: seq<string>)
    requires forall l <- lines :: !EndsInCR(l)
    ensures DropCRs(lines) == lines
  {
    if lines != [] {
      assert lines[0] in lines;
      assert DropCR(lines[0]) == lines[0];
      DropCRsIdle(lines[1..]);
      assert lines == [lines[0]] + lines[1..];
    }
  }

  /** Writing lines and scanning them again. */
  lemma LinesOfUnlines(lines: seq<string>)
    requires forall l <- lines :: '\n' !in l
    ensures Lines(Unlines(lines)) == DropCRs(lines)
    ensures (forall l <- lines :: !EndsInCR(l)) ==> Lines(Unlines(lines)) == lines
  {
    hide DropCRs, Segments, Unlines, EndsInCR;
    SegmentsOfUnlines(lines);
    if forall l <- lines :: !EndsInCR(l) {
      DropCRsIdle(lines);
    }
  }
}
