/** Formatting the lease list of the DHCP server as numbered table rows. */
module Dhcp {
  import opened Common
  import opened Text

  const KEYS := {"#", "MAC", "IP", "HOSTNAME", "BEGIN", "END", "MANUFACTURER"}

  /** Is the word a header keyword? */
  predicate IsKey(word: string) {
    word in KEYS
  }

  function Legend(): string {
    "To get manufacturer"
  }

  /** The values between keywords; buf holds the words of the value being read. */
  function Fields(words: seq<string>, buf: string): seq<string> {
    if words == [] then (if buf != "" then [buf] else [])
    else if IsKey(words[0]) then (if buf != "" then [buf] else []) + Fields(words[1..], "")
    else Fields(words[1..], if buf != "" then buf + " " + words[0] else words[0])
  }

  function FieldsOf(line: string): seq<string> {
    Fields(Split(line, ' '), "")
  }

  /** The trimmed lines that are read: neither blank nor the legend. */
  function Leases(lines: seq<string>): seq<string> {
    if lines == [] then [] else
      var line := Trim(lines[0]);
      (if line == "" || Legend() <= line then [] else [line]) + Leases(lines[1..])
  }

  /** Whether an address belongs to the link: None when the link or the address cannot be parsed. */
  type Filter = Option<string -> Option<bool>>

  /** A row is left out only if its address is known not to belong to the link. */
  predicate Excluded(fields: seq<string>, filter: Filter)
    requires |fields| >= 2
  {
    filter.Some? && filter.value(Trim(fields[1])) == Some(false)
  }

  datatype Row = Row(number: nat, fields: seq<string>)

  /** The rows of some leases, numbered from n; None if a lease has no address, which the code cannot survive. */
  function Rows(leases: seq<string>, filter: Filter, n: nat): Option<seq<Row>> {
    if leases == [] then Some([]) else
      var fields := FieldsOf(leases[0]);
      if |fields| < 2 then None
      else if Excluded(fields, filter) then Rows(leases[1..], filter, n)
      else
        match Rows(leases[1..], filter, n + 1)
        case None => None
        case Some(rest) => Some([Row(n, fields)] + rest)
  }

  // ---------- numbering ----------

  /** The fields of the leases that are not excluded, in order. */
  function KeptFields(leases: seq<string>, filter: Filter): seq<seq<string>> {
    if leases == [] then [] else
      var fields := FieldsOf(leases[0]);
      (if |fields| >= 2 && !Excluded(fields, filter) then [fields] else []) + KeptFields(leases[1..], filter)
  }

  /** Rows are numbered without gaps and are exactly the leases the link does not exclude, in order. */
  lemma {:induction false} RowsAreNumbered(leases: seq<string>, filter: Filter, n: nat)
    requires Rows(leases, filter, n).Some?
    ensures var rows := Rows(leases, filter, n).value;
            && |rows| == |KeptFields(leases, filter)|
            && (forall i | 0 <= i < |rows| :: rows[i] == Row(n + i, KeptFields(leases, filter)[i]))
    decreases |leases|
  {
    hide FieldsOf, Excluded;
    if leases != [] {
      var fields := FieldsOf(leases[0]);
      RowsAreNumbered(leases[1..], filter, if Excluded(fields, filter) then n else n + 1);
    }
  }

  lemma {:induction false} RowsExistIff(leases: seq<string>, filter: Filter, n: nat)
    ensures Rows(leases, filter, n).Some? <==> forall l <- leases :: |FieldsOf(l)| >= 2
    decreases |leases|
  {
    hide FieldsOf, Excluded;
    if leases != [] {
      var fields := FieldsOf(leases[0]);
      assert leases == [leases[0]] + leases[1..];
      RowsExistIff(leases[1..], filter, n);
      RowsExistIff(leases[1..], filter, n + 1);
    }
  }

  // ---------- reading what was printed ----------

  /** A keyword and its value, as words. */
  datatype Entry = Entry(key: string, value: seq<string>)

  /** A word as it appears in a value: no blanks and no keyword. */
  predicate Plain(word: string) {
    word != "" && !IsKey(word) && forall c <- word :: !IsSpace(c)
  }

  predicate Printable(e: Entry) {
    IsKey(e.key) && e.value != [] && forall w <- e.value :: Plain(w)
  }

  function WordsOf(entries: seq<Entry>): seq<string> {
    if entries == [] then [] else [entries[0].key] + entries[0].value + WordsOf(entries[1..])
  }

  /** The lease line: keywords and values joined by single blanks. */
  function Print(entries: seq<Entry>): string
    requires entries != []
  {
    Join(WordsOf(entries), ' ')
  }

  function Values(entries: seq<Entry>): (r: seq<string>)
    requires forall e <- entries :: Printable(e)
    ensures |r| == |entries|
  {
    if entries == [] then [] else
      assert entries[0] in entries && Printable(entries[0]) && forall e <- entries[1..] :: e in entries;
      [Join(entries[0].value, ' ')] + Values(entries[1..])
  }

  lemma {:induction false} JoinIsNotEmpty(words: seq<string>)
    requires words != [] && words[0] != ""
    ensures Join(words, ' ') != ""
  {
  }

  lemma {:induction false} ReadOn(words: seq<string>, rest: seq<string>, buf: string)
    requires buf != "" && forall w <- words :: Plain(w)
    ensures Fields(words + rest, buf) == Fields(rest, Join([buf] + words, ' '))
    decreases |words|
  {
    hide IsSpace, Plain, IsKey;
    if words == [] {
      assert words + rest == rest;
    } else {
      assert words[0] in words;
      assert !IsKey(words[0]) by {
        PlainIsNoKey(words[0]);
      }
      assert (words + rest)[1..] == words[1..] + rest;
      ReadOn(words[1..], rest, buf + " " + words[0]);
      JoinMerges(buf, words);
    }
  }

  lemma PlainIsNoKey(word: string)
    requires Plain(word)
    ensures !IsKey(word) && word != ""
  {
    hide IsSpace, IsKey;
  }

  lemma JoinCons(word: string, words: seq<string>)
    requires words != []
    ensures Join([word] + words, ' ') == word + " " + Join(words, ' ')
  {
    assert ([word] + words)[1..] == words;
  }

  lemma JoinMerges(buf: string, words: seq<string>)
    requires words != []
    ensures Join([buf + " " + words[0]] + words[1..], ' ') == Join([buf] + words, ' ')
  {
    JoinCons(buf, words);
    if |words| == 1 {
      assert words == [words[0]] && words[1..] == [];
      assert Join(words, ' ') == words[0] && Join([buf + " " + words[0]], ' ') == buf + " " + words[0];
    } else {
      hide Join;
      JoinCons(buf + " " + words[0], words[1..]);
      JoinCons(words[0], words[1..]);
      assert [words[0]] + words[1..] == words;
      Associates(buf, words[0], Join(words[1..], ' '));
    }
  }

  lemma Associates(a: string, b: string, c: string)
    ensures a + " " + b + " " + c == a + " " + (b + " " + c)
  {
  }

  lemma ReadValue(words: seq<string>, rest: seq<string>)
    requires words != [] && forall w <- words :: Plain(w)
    ensures Fields(words + rest, "") == Fields(rest, Join(words, ' ')) && Join(words, ' ') != ""
  {
    hide IsSpace, IsKey, Plain, Join;
    var w, more := words[0], words[1..];
    assert w in words && words == [w] + more;
    PlainIsNoKey(w);
    JoinIsNotEmpty(words);
    TakeWord(w, more + rest);
    assert words + rest == [w] + (more + rest);
    hide Fields;
    assert forall x <- more :: x in words;
    ReadOn(more, rest, w);
  }

  lemma TakeWord(word: string, words: seq<string>)
    requires !IsKey(word)
    ensures Fields([word] + words, "") == Fields(words, word)
  {
    hide IsKey;
    assert ([word] + words)[1..] == words;
  }

  /** Reading the words of printed entries gives their values; a value still in the buffer comes first. */
  lemma {:induction false} FieldsOfEntries(entries: seq<Entry>, buf: string)
    requires forall e <- entries :: Printable(e)
    ensures Fields(WordsOf(entries), buf) == (if buf != "" then [buf] else []) + Values(entries)
    decreases |entries|
  {
    hide IsSpace, IsKey, Plain;
    if entries != [] {
      var e := entries[0];
      assert e in entries && Printable(e) && forall x <- entries[1..] :: x in entries;
      var rest := WordsOf(entries[1..]);
      var words := WordsOf(entries);
      assert words[1..] == e.value + rest;
      ReadValue(e.value, rest);
      FieldsOfEntries(entries[1..], Join(e.value, ' '));
      assert Values(entries) == [Join(e.value, ' ')] + Values(entries[1..]);
    }
  }

  lemma KeysAreWords(word: string)
    requires IsKey(word)
    ensures word != "" && ' ' !in word && !IsSpace(word[0]) && word[0] != 'T'
  {
  }

  lemma PlainIsWord(word: string)
    requires Plain(word)
    ensures word != "" && ' ' !in word && !IsSpace(word[|word| - 1])
  {
    hide IsKey;
    assert IsSpace(' ') && word[|word| - 1] in word;
  }

  lemma {:induction false} WordsAreWords(entries: seq<Entry>)
    requires forall e <- entries :: Printable(e)
    ensures forall w <- WordsOf(entries) :: ' ' !in w
    ensures entries != [] ==> WordsOf(entries) != [] && WordsOf(entries)[0] == entries[0].key
    ensures entries != [] ==> exists w :: Plain(w) && w == WordsOf(entries)[|WordsOf(entries)| - 1]
    decreases |entries|
  {
    hide IsSpace, IsKey, Plain;
    if entries != [] {
      var e := entries[0];
      assert e in entries && Printable(e) && forall x <- entries[1..] :: x in entries;
      KeysAreWords(e.key);
      forall w <- e.value ensures ' ' !in w {
        PlainIsWord(w);
      }
      WordsAreWords(entries[1..]);
      var last := e.value[|e.value| - 1];
      assert last in e.value;
    }
  }

  lemma {:induction false} JoinEnds(words: seq<string>)
    requires words != [] && words[0] != "" && words[|words| - 1] != ""
    ensures var s := Join(words, ' ');
            s != "" && s[0] == words[0][0] && s[|s| - 1] == words[|words| - 1][|words[|words| - 1]| - 1]
  {
    if |words| > 1 {
      var t := words[1..];
      JoinTail(words[|words| - 1], t);
    }
  }

  lemma {:induction false} JoinTail(last: string, words: seq<string>)
    requires words != [] && words[|words| - 1] == last && last != ""
    ensures var s := Join(words, ' ');
            s != "" && s[|s| - 1] == last[|last| - 1]
  {
    if |words| > 1 {
      JoinTail(last, words[1..]);
    }
  }

  /**
   * Parsing inverts printing: a lease line made of keywords and keyword-free values joined by single blanks is read
   * as one lease, and its row holds exactly the values, in order.
   */
  lemma ParsingInvertsPrinting(entries: seq<Entry>)
    requires entries != [] && forall e <- entries :: Printable(e)
    ensures FieldsOf(Print(entries)) == Values(entries)
    ensures Leases([Print(entries)]) == [Print(entries)]
  {
    hide IsSpace, IsKey, Plain, Join, Split, Trim, Printable;
    var words := WordsOf(entries);
    var line := Print(entries);
    WordsAreWords(entries);
    SplitJoin(words, ' ');
    FieldsOfEntries(entries, "");
    PrintedLine(entries);
    assert [line][1..] == [];
  }

  lemma PrintedLine(entries: seq<Entry>)
    requires entries != [] && forall e <- entries :: Printable(e)
    ensures var line := Print(entries);
            Trim(line) == line && line != "" && !(Legend() <= line)
  {
    hide IsSpace, IsKey, Plain, Join, Trim;
    var words := WordsOf(entries);
    var line := Print(entries);
    assert entries[0] in entries && Printable(entries[0]);
    WordsAreWords(entries);
    KeysAreWords(entries[0].key);
    PlainIsWord(words[|words| - 1]);
    JoinEnds(words);
    TrimIsTrimmed(line);
    assert Legend()[0] == 'T';
  }

  /**
   * A printed lease has a row unless its address, the value of the second keyword, is known not to belong to the link.
   */
  lemma AddressDecides(entries: seq<Entry>, filter: Filter, n: nat)
    requires |entries| >= 2 && forall e <- entries :: Printable(e)
    ensures var foreign := filter.Some? && filter.value(Trim(Values(entries)[1])) == Some(false);
            Rows([Print(entries)], filter, n) == Some(if foreign then [] else [Row(n, Values(entries))])
  {
    ParsingInvertsPrinting(entries);
    hide IsSpace, IsKey, Plain, Join, Split, Trim, FieldsOf, Print, Printable, Values;
    RowAlone(Print(entries), filter, n);
  }

  lemma RowAlone(line: string, filter: Filter, n: nat)
    requires |FieldsOf(line)| >= 2
    ensures var fields := FieldsOf(line);
            var foreign := filter.Some? && filter.value(Trim(fields[1])) == Some(false);
            Rows([line], filter, n) == Some(if foreign then [] else [Row(n, fields)])
  {
    hide FieldsOf, Trim;
    RowsOfFirst(line, [], filter, n);
    assert [line] + [] == [line] && Rows([], filter, n + 1) == Some([]) &&
        [Row(n, FieldsOf(line))] + [] == [Row(n, FieldsOf(line))];
  }

  /** Line by line: blank lines and the legend are left out, and the others are read trimmed. */
  lemma LeaseAlone(l: string)
    ensures Leases([l]) == if Trim(l) == "" || "To get manufacturer" <= Trim(l) then [] else [Trim(l)]
  {
    hide Trim;
    assert [l][1..] == [];
  }

  lemma {:induction false} LeasesAppend(a: seq<string>, b: seq<string>)
    ensures Leases(a + b) == Leases(a) + Leases(b)
  {
    hide Trim, Legend;
    if a == [] {
      assert a + b == b && [] + Leases(b) == Leases(b);
    } else {
      assert (a + b)[1..] == a[1..] + b;
      LeasesAppend(a[1..], b);
      var line := Trim(a[0]);
      var first := if line == "" || Legend() <= line then [] else [line];
      assert first + (Leases(a[1..]) + Leases(b)) == (first + Leases(a[1..])) + Leases(b);
    }
  }

  /** The header keywords. */
  lemma Keywords(word: string)
    ensures IsKey(word) <==>
            word == "#" || word == "MAC" || word == "IP" || word == "HOSTNAME" || word == "BEGIN" || word == "END" ||
            word == "MANUFACTURER"
  {
  }

  // ---------- the operation ----------

  datatype Table = Table(rows: seq<Row>) | TooLongLine | NoAddress

  method ReadFields(line: string) returns (row: seq<string>)
    ensures row == FieldsOf(line)
  {
    hide IsKey, Split;
    row := [];
    var buf := "";
    var values := Split(line, ' ');
    assert values[0..] == values;
    for i := 0 to |values|
      invariant row + Fields(values[i..], buf) == Fields(values, "")
    {
      assert values[i..][1..] == values[i + 1..];
      var value := values[i];
      if !IsKey(value) {
        buf := if buf != "" then buf + " " + value else value;
        continue;
      }
      if buf != "" {
        row := row + [buf];
        buf := "";
      }
    }
    if buf != "" {
      row := row + [buf];
    }
  }

  /**
   * NoAddress is the crash of a lease without an address; the scanner's error is found only after the lines before
   * it.
   */
  method Format(input: string, filter: Filter) returns (table: Table)
    ensures var rows := Rows(Leases(Scanned(input)), filter, 1);
            table == if rows.None? then NoAddress else if TooLong(input) then TooLongLine else Table(rows.value)
  {
    hide Legend, Trim, FieldsOf, Excluded, Scanned, TooLong, Rows, Leases;
    var rows: seq<Row> := [];
    var rowNumber: nat := 1;
    var lines := Scanned(input);
    ghost var all := Rows(Leases(lines), filter, 1);
    assert lines[0..] == lines;
    assert forall rest: seq<Row> :: rows + rest == rest;
    for i := 0 to |lines|
      invariant match Rows(Leases(lines[i..]), filter, rowNumber)
                case None => all.None?
                case Some(rest) => all == Some(rows + rest)
    {
      assert lines[i..][1..] == lines[i + 1..];
      FirstLease(lines[i..]);
      var line := Trim(lines[i]);
      if line == "" || Legend() <= line {
        continue;
      }
      var row := ReadFields(line);
      RowsOfFirst(line, Leases(lines[i + 1..]), filter, rowNumber);
      if |row| < 2 {
        return NoAddress;
      }
      if !Excluded(row, filter) {
        ghost var before := rows;
        rows := rows + [Row(rowNumber, row)];
        assert forall rest: seq<Row> :: before + ([Row(rowNumber, row)] + rest) == rows + rest;
        rowNumber := rowNumber + 1;
      }
    }
    NoRows(lines[|lines|..], filter, rowNumber);
    assert rows + [] == rows;
    table := if TooLong(input) then TooLongLine else Table(rows);
  }

  lemma NoRows(lines: seq<string>, filter: Filter, n: nat)
    requires lines == []
    ensures Rows(Leases(lines), filter, n) == Some([])
  {
  }

  lemma FirstLease(lines: seq<string>)
    requires lines != []
    ensures var line := Trim(lines[0]);
            Leases(lines) == (if line == "" || Legend() <= line then [] else [line]) + Leases(lines[1..])
    ensures [] + Leases(lines[1..]) == Leases(lines[1..])
  {
  }

  lemma RowsOfFirst(line: string, leases: seq<string>, filter: Filter, n: nat)
    ensures var fields := FieldsOf(line);
            Rows([line] + leases, filter, n) ==
              if |fields| < 2 then None
              else if Excluded(fields, filter) then Rows(leases, filter, n)
              else match Rows(leases, filter, n + 1)
                   case None => None
                   case Some(rest) => Some([Row(n, fields)] + rest)
  {
    assert ([line] + leases)[1..] == leases;
  }
}
