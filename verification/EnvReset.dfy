/** Blanking the device id and the endpoint in the environment file when a device is reset. */
module EnvReset {
  import opened Common
  import opened Configs
  import opened Text
  import opened Handlers
  import opened Boots

  function Endpoint(): string {
    "AGENT_ENDPOINT"
  }

  function AgentId(): string {
    "AGENT_ID"
  }

  function Blanked(name: string): string {
    name + "=\"\""
  }

  /** The trimmed text before the first equals sign. */
  function Key(line: string): Option<string> {
    var i := IndexOf(line, '=');
    if i == |line| then None else Some(Trim(line[..i]))
  }

  predicate Targets(line: string, name: string) {
    Key(line).Some? && name <= Key(line).value
  }

  function RewriteLine(line: string): string {
    if Targets(line, Endpoint()) then Blanked(Endpoint())
    else if Targets(line, AgentId()) then Blanked(AgentId())
    else line
  }

  /** Every non-empty line, rewritten, in order. */
  function RewriteLines(lines: seq<string>): seq<string> {
    if lines == [] then [] else
      (if lines[0] == "" then [] else [RewriteLine(lines[0])]) + RewriteLines(lines[1..])
  }

  function Rewrite(content: string): string {
    Unlines(RewriteLines(Lines(content)))
  }

  // ---------- one line ----------

  lemma NamesAreTrimmed()
    ensures '=' !in Endpoint() && '=' !in AgentId() && Trimmed(Endpoint()) && Trimmed(AgentId())
  {
    assert Endpoint()[0] == 'A' && Endpoint()[13] == 'T' && AgentId()[0] == 'A' && AgentId()[7] == 'D';
  }

  lemma BlankedIsALine(name: string)
    requires '\n' !in name
    ensures '\n' !in Blanked(name) && !EndsInCR(Blanked(name)) && Blanked(name) != ""
  {
    assert Blanked(name)[|name| + 2] == '"';
  }

  lemma NamesDiffer()
    ensures !(Endpoint() <= AgentId()) && Endpoint() <= Endpoint() && AgentId() <= AgentId()
    ensures '\n' !in Endpoint() && '\n' !in AgentId()
  {
    assert Endpoint()[6] == 'E' && AgentId()[6] == 'I';
  }

  lemma NamesAreKeys()
    ensures Key(Blanked(Endpoint())) == Some(Endpoint()) && Key(Blanked(AgentId())) == Some(AgentId())
    ensures !(Endpoint() <= AgentId()) && Endpoint() <= Endpoint() && AgentId() <= AgentId()
    ensures '\n' !in Blanked(Endpoint()) && '\n' !in Blanked(AgentId())
    ensures !EndsInCR(Blanked(Endpoint())) && !EndsInCR(Blanked(AgentId()))
    ensures Blanked(Endpoint()) != "" && Blanked(AgentId()) != ""
  {
    hide Endpoint, AgentId, Blanked, Key, Trimmed;
    NamesAreTrimmed();
    NamesDiffer();
    BlankedKey(Endpoint());
    BlankedKey(AgentId());
    BlankedIsALine(Endpoint());
    BlankedIsALine(AgentId());
  }

  lemma BlankedKey(name: string)
    requires '=' !in name && Trimmed(name)
    ensures Key(Blanked(name)) == Some(name)
  {
    IndexOfFirst(name, '=', "\"\"");
    assert Blanked(name) == name + ['='] + "\"\"";
    assert Blanked(name)[..|name|] == name;
    TrimIsTrimmed(name);
  }

  lemma RewriteLineTwice(line: string)
    requires line != ""
    ensures RewriteLine(RewriteLine(line)) == RewriteLine(line) && RewriteLine(line) != ""
    ensures '\n' !in line ==> '\n' !in RewriteLine(line)
    ensures EndsInCR(RewriteLine(line)) ==> RewriteLine(line) == line
  {
    NamesAreKeys();
    hide Key, Endpoint, AgentId, Blanked;
  }

  /** A carriage return at the end is no part of what decides about a line. */
  lemma KeyWithoutCR(line: string)
    requires EndsInCR(line)
    ensures Key(DropCR(line)) == Key(line)
  {
    var l := DropCR(line);
    assert line == l + "\r";
    var i := IndexOf(l, '=');
    if i < |l| {
      assert line == l[..i] + ['='] + line[i + 1..];
      IndexOfFirst(l[..i], '=', line[i + 1..]);
      assert line[..i] == l[..i];
    }
  }

  lemma RewriteLineWithoutCR(line: string)
    requires EndsInCR(line) && RewriteLine(line) == line
    ensures RewriteLine(DropCR(line)) == DropCR(line)
  {
    NamesAreKeys();
    KeyWithoutCR(line);
    hide Key, Endpoint, AgentId, Blanked;
  }

  // ---------- all lines ----------

  /** What a rewrite has left: each line in its final form. */
  predicate Final(line: string) {
    line != "" && '\n' !in line && RewriteLine(line) == line
  }

  lemma {:induction false} RewriteLinesFinal(lines: seq<string>)
    requires forall l <- lines :: '\n' !in l
    ensures forall l <- RewriteLines(lines) :: Final(l)
  {
    hide RewriteLine;
    if lines != [] {
      assert lines[0] in lines;
      if lines[0] != "" {
        RewriteLineTwice(lines[0]);
      }
      RewriteLinesFinal(lines[1..]);
    }
  }

  function NonEmpty(lines: seq<string>): seq<string> {
    if lines == [] then [] else (if lines[0] == "" then [] else [lines[0]]) + NonEmpty(lines[1..])
  }

  /** The line is an assignment, and what stands before its first equals sign starts, trimmed, with the prefix. */
  ghost predicate Assigns(line: string, prefix: string) {
    exists left, right :: line == left + "=" + right && '=' !in left && prefix <= Trim(left)
  }

  lemma TargetsIff(line: string, name: string)
    ensures Targets(line, name) <==> Assigns(line, name)
  {
    hide Trim, IndexOf;
    if Targets(line, name) {
      var i := IndexOf(line, '=');
      var left, right := line[..i], line[i + 1..];
      assert line == left + "=" + right && '=' !in left && name <= Trim(left);
    }
    if Assigns(line, name) {
      var left, right :| line == left + "=" + right && '=' !in left && name <= Trim(left);
      IndexOfFirst(left, '=', right);
      assert line == left + ['='] + right;
      assert IndexOf(line, '=') == |left| && line[..|left|] == left;
    }
  }

  /** Blanked if the variable is assigned, else the same. */
  ghost predicate IsRewriteOf(line: string, r: string) {
    var endpoint, id := Assigns(line, "AGENT_ENDPOINT"), Assigns(line, "AGENT_ID");
    r == if endpoint then "AGENT_ENDPOINT=\"\"" else if id then "AGENT_ID=\"\"" else line
  }

  /** Line by line: the non-empty lines stay in place, and exactly the targeted assignments among them are blanked. */
  lemma {:induction false} RewriteIsPointwise(lines: seq<string>)
    ensures var kept, r := NonEmpty(lines), RewriteLines(lines);
            |r| == |kept| && forall i | 0 <= i < |r| :: IsRewriteOf(kept[i], r[i])
  {
    hide IsRewriteOf, RewriteLine;
    if lines != [] {
      var kept, rest := NonEmpty(lines[1..]), RewriteLines(lines[1..]);
      if lines[0] == "" {
        assert [] + kept == kept && [] + rest == rest;
        assert NonEmpty(lines) == kept && RewriteLines(lines) == rest;
        hide NonEmpty, RewriteLines;
        RewriteIsPointwise(lines[1..]);
      } else {
        assert NonEmpty(lines) == [lines[0]] + kept && RewriteLines(lines) == [RewriteLine(lines[0])] + rest;
        hide NonEmpty, RewriteLines;
        RewriteIsPointwise(lines[1..]);
        LineIsRewritten(lines[0]);
        Prepend(lines[0], RewriteLine(lines[0]), kept, rest);
      }
    }
  }

  lemma Prepend(line: string, r: string, lines: seq<string>, rs: seq<string>)
    requires IsRewriteOf(line, r) && |rs| == |lines| && forall i | 0 <= i < |rs| :: IsRewriteOf(lines[i], rs[i])
    ensures forall i | 0 <= i < |[r] + rs| :: IsRewriteOf(([line] + lines)[i], ([r] + rs)[i])
  {
    hide IsRewriteOf;
  }

  lemma LineIsRewritten(line: string)
    ensures IsRewriteOf(line, RewriteLine(line))
  {
    hide Targets, Assigns;
    TargetsIff(line, "AGENT_ENDPOINT");
    TargetsIff(line, "AGENT_ID");
    BlankedText();
    hide Blanked;
  }

  lemma BlankedText()
    ensures Blanked("AGENT_ENDPOINT") == "AGENT_ENDPOINT=\"\"" && Blanked("AGENT_ID") == "AGENT_ID=\"\""
  {
  }

  /** What is not targeted is the same before and after, in order; empty lines go. */
  lemma {:induction false} RewriteKeepsTheRest(lines: seq<string>)
    ensures Untargeted(RewriteLines(lines)) == Untargeted(lines)
  {
    NamesAreKeys();
    hide Key, Endpoint, AgentId, Blanked;
    if lines != [] {
      RewriteKeepsTheRest(lines[1..]);
      var rest := RewriteLines(lines[1..]);
      assert ([RewriteLine(lines[0])] + rest)[1..] == rest && [] + rest == rest;
    }
  }

  /** The non-empty lines that assign neither variable. */
  function Untargeted(lines: seq<string>): seq<string> {
    if lines == [] then [] else
      var line := lines[0];
      var kept := if line == "" || Targets(line, Endpoint()) || Targets(line, AgentId()) then [] else [line];
      kept + Untargeted(lines[1..])
  }

  lemma FinalLineAgain(l: string)
    requires Final(l)
    ensures RewriteLine(DropCR(l)) == DropCR(l) && |DropCR(l)| == |l| - (if EndsInCR(l) then 1 else 0)
    ensures l != "" && (!EndsInCR(l) ==> DropCR(l) == l)
  {
    hide RewriteLine;
    if EndsInCR(l) {
      RewriteLineWithoutCR(l);
    }
  }

  /** The rewrite of one more scanned line. */
  lemma RewriteCons(l: string, lines: seq<string>)
    requires RewriteLine(DropCR(l)) == DropCR(l)
    ensures RewriteLines(DropCRs([l] + lines)) ==
              (if DropCR(l) == "" then [] else [DropCR(l)]) + RewriteLines(DropCRs(lines))
    ensures |Unlines(RewriteLines(DropCRs([l] + lines)))| ==
              (if DropCR(l) == "" then 0 else |DropCR(l)| + 1) + |Unlines(RewriteLines(DropCRs(lines)))|
  {
    hide RewriteLine, DropCR;
    assert ([l] + lines)[1..] == lines;
    assert DropCRs([l] + lines) == [DropCR(l)] + DropCRs(lines);
    assert ([DropCR(l)] + DropCRs(lines))[1..] == DropCRs(lines);
    var rest := RewriteLines(DropCRs(lines));
    assert ([DropCR(l)] + rest)[1..] == rest && [] + rest == rest;
  }

  lemma {:induction false} RewriteFinalAgain(lines: seq<string>)
    requires forall l <- lines :: Final(l)
    ensures var again := RewriteLines(DropCRs(lines));
            && |Unlines(again)| <= |Unlines(lines)|
            && ((forall l <- lines :: !EndsInCR(l)) ==> again == lines)
            && ((exists l <- lines :: EndsInCR(l)) ==> |Unlines(again)| < |Unlines(lines)|)
  {
    hide RewriteLine, Final, DropCR, EndsInCR, RewriteLines, DropCRs;
    if lines == [] {
      NothingRewritten();
      assert DropCRs(lines) == [];
    } else {
      var l, rest := lines[0], lines[1..];
      assert l in lines && forall x <- rest :: x in lines;
      assert lines == [l] + rest;
      assert |Unlines(lines)| == |l| + 1 + |Unlines(rest)|;
      hide Unlines;
      FinalLineAgain(l);
      RewriteCons(l, rest);
      RewriteFinalAgain(rest);
    }
  }

  /** Of the rewritten lines, only those kept as they are can end in a carriage return. */
  lemma {:induction false} KeptReturns(lines: seq<string>)
    ensures (forall l <- RewriteLines(lines) :: !EndsInCR(l)) <==> forall l <- Untargeted(lines) :: !EndsInCR(l)
  {
    if lines != [] {
      KeptReturns(lines[1..]);
      LineReturns(lines[0]);
      hide RewriteLine, Targets, EndsInCR, Endpoint, AgentId;
    }
  }

  lemma LineReturns(line: string)
    ensures Targets(line, Endpoint()) || Targets(line, AgentId()) ==> !EndsInCR(RewriteLine(line))
    ensures !(Targets(line, Endpoint()) || Targets(line, AgentId())) ==> RewriteLine(line) == line
  {
    NamesAreKeys();
    hide Targets, Key, Endpoint, AgentId, Blanked;
  }

  /**
   * Rewriting twice is rewriting once exactly when no scanned line that is kept as it is still ends in a carriage
   * return, that is, when no such line of the file ended in more than one.
   */
  lemma RewriteIsIdempotentIff(content: string)
    ensures Rewrite(Rewrite(content)) == Rewrite(content) <==> forall l <- Untargeted(Lines(content)) :: !EndsInCR(l)
  {
    var lines := RewriteLines(Lines(content));
    RewriteLinesFinal(Lines(content));
    assert forall l <- lines :: '\n' !in l by {
      hide RewriteLine;
    }
    hide RewriteLine, Lines, EndsInCR, Final, DropCRs, Unlines, RewriteLines, Untargeted;
    KeptReturns(Lines(content));
    LinesOfUnlines(lines);
    RewriteFinalAgain(lines);
  }

  // ---------- reading the file back ----------

  function Unquote(s: string): string {
    if |s| >= 2 && s[0] == '"' && s[|s| - 1] == '"' then s[1..|s| - 1] else s
  }

  /** The value of a variable for the next process: its last assignment, or nothing. */
  function ReadVar(lines: seq<string>, name: string): string {
    if lines == [] then ""
    else
      var last := lines[|lines| - 1];
      if Key(last) == Some(name) then Unquote(Trim(last[IndexOf(last, '=') + 1..]))
      else ReadVar(lines[..|lines| - 1], name)
  }

  lemma BlankedValue(name: string)
    requires '=' !in name && Trimmed(name)
    ensures IndexOf(Blanked(name), '=') == |name|
    ensures Unquote(Trim(Blanked(name)[|name| + 1..])) == ""
  {
    hide IndexOf, Trim, Trimmed;
    IndexOfFirst(name, '=', "\"\"");
    assert Blanked(name) == name + ['='] + "\"\"";
    assert Blanked(name)[|name| + 1..] == "\"\"";
    QuotesAreTrimmed();
  }

  lemma QuotesAreTrimmed()
    ensures Trim("\"\"") == "\"\""
  {
    TrimIsTrimmed("\"\"");
  }

  lemma IdIsBlank(line: string)
    requires Final(line) && Key(DropCR(line)) == Some(AgentId())
    ensures DropCR(line) == Blanked(AgentId())
  {
    NamesAreKeys();
    if EndsInCR(line) {
      KeyWithoutCR(line);
    }
    hide Key, Endpoint, AgentId, Blanked;
  }

  lemma {:induction false} FinalHasNoId(lines: seq<string>)
    requires forall l <- lines :: Final(l)
    ensures ReadVar(DropCRs(lines), AgentId()) == ""
    decreases |lines|
  {
    hide Key, AgentId, Blanked, RewriteLine, Trim, Trimmed, Final, DropCR, DropCRs, Unquote, IndexOf;
    if lines != [] {
      var n := |lines| - 1;
      assert lines[n] in lines && forall l <- lines[..n] :: l in lines;
      assert DropCRs(lines)[..n] == DropCRs(lines[..n]);
      FinalHasNoId(lines[..n]);
      if Key(DropCR(lines[n])) == Some(AgentId()) {
        IdIsBlank(lines[n]);
        NamesAreTrimmed();
        BlankedValue(AgentId());
      }
    }
  }

  /** After a reset the next process reads an empty device id, so a boot into init stays there instead of migrating. */
  lemma ResetEndsMigration(content: string, cfg: Config)
    requires StoredState(cfg) == Init
    ensures var id := ReadVar(Lines(Rewrite(content)), AgentId());
            id == "" && !Migrates(id) && Destination(id, cfg) == Init
  {
    var lines := RewriteLines(Lines(content));
    RewriteLinesFinal(Lines(content));
    assert forall l <- lines :: '\n' !in l by {
      hide RewriteLine;
    }
    hide RewriteLine, Lines, EndsInCR, Final, DropCRs, Unlines, RewriteLines, ReadVar, AgentId;
    LinesOfUnlines(lines);
    FinalHasNoId(lines);
  }

  // ---------- the operation ----------

  class EnvFile {
    var content: string

    /** Rewrites the file; an error leaves it alone. */
    method TryReset(stat: bool, read: bool, write: bool) returns (ok: bool)
      modifies this
      ensures ok ==> content == Rewrite(old(content))
      ensures !ok ==> content == old(content)
      ensures ok <==> stat && read && write && !TooLong(old(content))
    {
      hide RewriteLine, RewriteLines, Unlines;
      if !stat || !read {
        return false;
      }
      var lines := Lines(content);
      var sb := "";
      assert lines[0..] == lines && sb + Unlines(RewriteLines(lines)) == Unlines(RewriteLines(lines));
      for i := 0 to |lines|
        invariant content == old(content)
        invariant sb + Unlines(RewriteLines(lines[i..])) == Unlines(RewriteLines(lines))
      {
        var line := lines[i];
        ghost var rest := Unlines(RewriteLines(lines[i + 1..]));
        FirstRewritten(lines[i..]);
        assert lines[i..][1..] == lines[i + 1..];
        assert "" + rest == rest && sb + RewriteLine(line) + "\n" + rest == sb + (RewriteLine(line) + "\n" + rest);
        if line == "" {
          continue;
        }
        var text := RewriteOne(line);
        sb := sb + text + "\n";
      }
      assert lines[|lines|..] == [];
      NothingRewritten();
      assert sb + "" == sb;
      if TooLong(content) || !write {
        return false;
      }
      content := sb;
      return true;
    }
  }

  method RewriteOne(line: string) returns (text: string)
    ensures text == RewriteLine(line)
  {
    hide Endpoint, AgentId, Blanked, Trim;
    var at := IndexOf(line, '=');
    if at == |line| {
      return line;
    }
    var left := Trim(line[..at]);
    if Endpoint() <= left {
      text := Blanked(Endpoint());
    } else if AgentId() <= left {
      text := Blanked(AgentId());
    } else {
      text := line;
    }
  }

  lemma NothingRewritten()
    ensures RewriteLines([]) == [] && Unlines(RewriteLines([])) == ""
  {
  }

  lemma FirstRewritten(lines: seq<string>)
    requires lines != []
    ensures Unlines(RewriteLines(lines)) ==
              (if lines[0] == "" then "" else RewriteLine(lines[0]) + "\n") + Unlines(RewriteLines(lines[1..]))
  {
    hide RewriteLine;
    var rest := RewriteLines(lines[1..]);
    assert ([RewriteLine(lines[0])] + rest)[1..] == rest && [] + rest == rest;
  }
}
