/** `parseWGDump`: from the text of `wg show all dump` to interfaces and peers, without the
    private and preshared keys that the dump contains. */
module Wireguard {
  import opened Common
  import opened Decimals

  datatype Peer = Peer(
    publicKey: string, endpoint: string, allowedIPs: string,
    latestHandshake: int, rxBytes: int, txBytes: int, keepalive: int)

  datatype Interface = Interface(
    name: string, publicKey: string, listenPort: int, fwmark: string, peers: seq<Peer>)

  datatype Failure = InterfaceKey | PeerKey | ColumnCount(n: nat)

  /** A crash is the nil dereference of the current interface. */
  datatype Outcome = Ok(out: seq<Interface>) | Fail(out: seq<Interface>, why: Failure) | Crash

  type Row = r: seq<string> | |r| > 0 witness [""]

  // ---------------------------------------------------------------- text

  /** `strings.Split`: the pieces between separators, at least one. */
  function Split(s: string, sep: char): Row
  {
    if |s| == 0 then [""]
    else
      var rest := Split(s[..|s| - 1], sep);
      var c := s[|s| - 1];
      if c == sep then rest + [""] else rest[|rest| - 1 := rest[|rest| - 1] + [c]]
  }

  function Join(parts: seq<string>, sep: char): string
    requires |parts| > 0
  {
    if |parts| == 1 then parts[0] else Join(parts[..|parts| - 1], sep) + [sep] + parts[|parts| - 1]
  }

  /** A scanned line loses one carriage return at its end. */
  function Chomp(line: string): string {
    if |line| > 0 && line[|line| - 1] == '\r' then line[..|line| - 1] else line
  }

  /** The rows of a dump: its non-empty lines, split at tabs. */
  function RowsOf(lines: seq<string>): seq<Row> {
    if |lines| == 0 then []
    else
      var line := Chomp(lines[|lines| - 1]);
      RowsOf(lines[..|lines| - 1]) + if line == "" then [] else [Split(line, '\t')]
  }

  function Rows(dump: string): seq<Row> {
    RowsOf(Split(dump, '\n'))
  }

  predicate IsBase64(c: char) {
    'A' <= c <= 'Z' || 'a' <= c <= 'z' || '0' <= c <= '9' || c == '+' || c == '/'
  }

  /** ^[A-Za-z0-9+/]{42,43}=?$ */
  predicate IsPublicKey(s: string) {
    IsBody(if |s| > 0 && s[|s| - 1] == '=' then s[..|s| - 1] else s)
  }

  predicate IsBody(s: string) {
    42 <= |s| <= 43 && forall i :: 0 <= i < |s| ==> IsBase64(s[i])
  }

  /** A code point of the alphabet of section 4 of RFC 4648. */
  predicate InAlphabet(c: int) {
    65 <= c <= 90 || 97 <= c <= 122 || 48 <= c <= 57 || c == 43 || c == 47
  }

  lemma LetterByCode(c: char)
    ensures IsBase64(c) <==> InAlphabet(c as int)
  {
    assert c == (c as int) as char;
  }

  /** What looks like a key: 42 or 43 letters of the alphabet, or 42 or 43 and the padding. */
  lemma KeyShape(s: string)
    ensures IsPublicKey(s) <==>
            && 42 <= |s| <= 44
            && (forall i :: 0 <= i < |s| - 1 ==> InAlphabet(s[i] as int))
            && (s[|s| - 1] == '=' || InAlphabet(s[|s| - 1] as int))
            && (|s| == 42 ==> s[41] != '=') && (|s| == 44 ==> s[43] == '=')
  {
    forall i | 0 <= i < |s| ensures IsBase64(s[i]) <==> InAlphabet(s[i] as int) {
      LetterByCode(s[i]);
    }
    if |s| > 0 && s[|s| - 1] == '=' {
      assert IsPublicKey(s) <==> IsBody(s[..|s| - 1]);
    }
  }

  function IntOr0(s: string): int {
    var n := Atoi(s);
    if n.Some? then n.value else 0
  }

  function Unless(s: string, none: string): string {
    if s == none then "" else s
  }

  // ---------------------------------------------------------------- rows

  function PeerOf(row: Row): Peer
    requires |row| == 9
  {
    Peer(row[1], Unless(row[3], "(none)"), Unless(row[4], "(none)"),
         IntOr0(row[5]), IntOr0(row[6]), IntOr0(row[7]), if row[8] == "off" then 0 else IntOr0(row[8]))
  }

  /** A header row overwrites the key, and the port and mark only when it carries them. */
  function WithHeader(i: Interface, row: Row): Interface
    requires |row| == 5
  {
    var port := Atoi(row[3]);
    i.(publicKey := row[2],
       listenPort := if port.Some? then port.value else i.listenPort,
       fwmark := if row[4] == "off" then i.fwmark else row[4])
  }

  /** The loop's variables, or how it ended early. */
  datatype Parser =
    | Reading(done: seq<Interface>, name: string, current: Option<Interface>)
    | Stopped(outcome: Outcome)

  const START := Reading([], "", None)

  function Switch(p: Parser, name: string): Parser
    requires p.Reading?
  {
    if p.name == name then p
    else
      var done := if p.current.Some? then p.done + [p.current.value] else p.done;
      Reading(done, name, Some(Interface(name, "", 0, "", [])))
  }

  function Step(p: Parser, row: Row): Parser {
    if p.Stopped? then p
    else
      var q := Switch(p, row[0]);
      if |row| == 5 then
        if !IsPublicKey(row[2]) then Stopped(Fail(q.done, InterfaceKey))
        else if q.current.None? then Stopped(Crash)
        else q.(current := Some(WithHeader(q.current.value, row)))
      else if |row| == 9 then
        if !IsPublicKey(row[1]) then Stopped(Fail(q.done, PeerKey))
        else if q.current.None? then Stopped(Crash)
        else
          var i := q.current.value;
          q.(current := Some(i.(peers := i.peers + [PeerOf(row)])))
      else Stopped(Fail(q.done, ColumnCount(|row|)))
  }

  function ReadRows(rows: seq<Row>): Parser {
    if |rows| == 0 then START else Step(ReadRows(rows[..|rows| - 1]), rows[|rows| - 1])
  }

  function Finish(p: Parser): Outcome {
    if p.Stopped? then p.outcome
    else Ok(if p.current.Some? then p.done + [p.current.value] else p.done)
  }

  function ParseDump(dump: string): Outcome {
    Finish(ReadRows(Rows(dump)))
  }

  // ---------------------------------------------------------------- the loop

  /** The loop's body: one row. */
  method ReadRow(p: Parser, fields: Row) returns (q: Parser)
    requires p.Reading?
    ensures q == Step(p, fields)
  {
    var done, currentName, current := p.done, p.name, p.current;
    if currentName != fields[0] {
      if current.Some? {
        done := done + [current.value];
      }
      currentName := fields[0];
      current := Some(Interface(fields[0], "", 0, "", []));
    }
    if |fields| == 5 {
      if !IsPublicKey(fields[2]) {
        return Stopped(Fail(done, InterfaceKey));
      }
      if current.None? {
        return Stopped(Crash);
      }
      current := Some(WithHeader(current.value, fields));
    } else if |fields| == 9 {
      if !IsPublicKey(fields[1]) {
        return Stopped(Fail(done, PeerKey));
      }
      if current.None? {
        return Stopped(Crash);
      }
      current := Some(current.value.(peers := current.value.peers + [PeerOf(fields)]));
    } else {
      return Stopped(Fail(done, ColumnCount(|fields|)));
    }
    return Reading(done, currentName, current);
  }

  method ParseWGDump(dump: string) returns (r: Outcome)
    ensures r == ParseDump(dump)
  {
    var p := START;
    var lines := Split(dump, '\n');
    for n := 0 to |lines|
      invariant p.Reading? && p == ReadRows(RowsOf(lines[..n]))
    {
      NextLine(lines, n);
      var line := Chomp(lines[n]);
      if line == "" {
        continue;
      }
      p := ReadRow(p, Split(line, '\t'));
      if p.Stopped? {
        RestIsIgnored(lines, n + 1);
        return p.outcome;
      }
    }
    assert lines[..|lines|] == lines;
    return Finish(p);
  }

  /** What one more line does. */
  lemma NextLine(lines: seq<string>, n: nat)
    requires n < |lines|
    ensures var line, p := Chomp(lines[n]), ReadRows(RowsOf(lines[..n]));
            ReadRows(RowsOf(lines[..n + 1])) == if line == "" then p else Step(p, Split(line, '\t'))
  {
    assert lines[..n + 1][..n] == lines[..n];
    var line, rows := Chomp(lines[n]), RowsOf(lines[..n]);
    if line == "" {
      assert RowsOf(lines[..n + 1]) == rows;
    } else {
      ReadRowsAppend(rows, Split(line, '\t'));
    }
  }

  lemma ReadRowsAppend(rows: seq<Row>, row: Row)
    ensures ReadRows(rows + [row]) == Step(ReadRows(rows), row)
  {
    assert (rows + [row])[..|rows|] == rows;
  }

  lemma {:induction false} RowsPrefix(lines: seq<string>, n: nat)
    requires n <= |lines|
    ensures RowsOf(lines[..n]) <= RowsOf(lines)
    decreases |lines|
  {
    if n == |lines| {
      assert lines[..n] == lines;
    } else {
      assert lines[..|lines| - 1][..n] == lines[..n];
      RowsPrefix(lines[..|lines| - 1], n);
    }
  }

  lemma {:induction false} StoppedStays(before: seq<Row>, rows: seq<Row>)
    requires before <= rows && ReadRows(before).Stopped?
    ensures ReadRows(rows) == ReadRows(before)
    decreases |rows|
  {
    if |before| < |rows| {
      StoppedStays(before, rows[..|rows| - 1]);
    } else {
      assert before == rows;
    }
  }

  /** Once the parser has stopped, no later line matters. */
  lemma RestIsIgnored(lines: seq<string>, n: nat)
    requires n <= |lines| && ReadRows(RowsOf(lines[..n])).Stopped?
    ensures ReadRows(RowsOf(lines)) == ReadRows(RowsOf(lines[..n]))
  {
    RowsPrefix(lines, n);
    StoppedStays(RowsOf(lines[..n]), RowsOf(lines));
  }

  // ---------------------------------------------------------------- secrets

  /** A row with the column that holds a secret blanked: the private key of an interface row,
      the preshared key of a peer row. */
  function Public(row: Row): Row {
    if |row| == 5 then row[1 := ""]
    else if |row| == 9 then row[2 := ""]
    else row
  }

  /** Two lists of rows that differ in secret columns only. */
  predicate SameButSecrets(a: seq<Row>, b: seq<Row>) {
    |a| == |b| && forall i :: 0 <= i < |a| ==> Public(a[i]) == Public(b[i])
  }

  lemma StepIgnoresSecrets(p: Parser, a: Row, b: Row)
    requires Public(a) == Public(b)
    ensures Step(p, a) == Step(p, b)
  {
    var u, v := Public(a), Public(b);
    assert |a| == |u| == |v| == |b|;
    if |a| == 5 {
      assert forall i :: 0 <= i < 5 && i != 1 ==> a[i] == u[i] && b[i] == v[i];
    } else if |a| == 9 {
      assert forall i :: 0 <= i < 9 && i != 2 ==> a[i] == u[i] && b[i] == v[i];
    }
  }

  lemma {:induction false} RowsIgnoreSecrets(a: seq<Row>, b: seq<Row>)
    requires SameButSecrets(a, b)
    ensures ReadRows(a) == ReadRows(b)
    decreases |a|
  {
    if |a| > 0 {
      var n := |a| - 1;
      RowsIgnoreSecrets(a[..n], b[..n]);
      StepIgnoresSecrets(ReadRows(a[..n]), a[n], b[n]);
    }
  }

  /** Noninterference: dumps that differ in secret columns only give the same result, be it a
      success, a failure with its partial output, or a crash. */
  lemma SecretsNeverCross(d1: string, d2: string)
    requires SameButSecrets(Rows(d1), Rows(d2))
    ensures ParseDump(d1) == ParseDump(d2)
  {
    RowsIgnoreSecrets(Rows(d1), Rows(d2));
  }

  // ---- the same statement on text

  predicate Clean(s: string) {
    '\t' !in s && '\n' !in s && '\r' !in s
  }

  predicate CleanRow(row: Row) {
    row != [""] && forall i :: 0 <= i < |row| ==> Clean(row[i])
  }

  /** The text of a list of rows. */
  function Render(rows: seq<Row>): string {
    if |rows| == 0 then "" else Render(rows[..|rows| - 1]) + Join(rows[|rows| - 1], '\t') + "\n"
  }

  /** Pieces whose last one goes on. */
  function Extend(a: Row, t: string): Row {
    a[|a| - 1 := a[|a| - 1] + t]
  }

  lemma ExtendNothing(a: Row, t: string)
    requires t == ""
    ensures Extend(a, t) == a
  {
    var last := a[|a| - 1];
    assert last + t == last;
    assert Extend(a, t) == a[|a| - 1 := last];
  }

  lemma ExtendTwice(a: Row, t: string, u: string)
    ensures Extend(Extend(a, t), u) == Extend(a, t + u)
  {
    assert a[|a| - 1] + t + u == a[|a| - 1] + (t + u);
  }

  lemma SplitChar(s: string, c: char, sep: char)
    ensures Split(s + [c], sep) == if c == sep then Split(s, sep) + [""] else Extend(Split(s, sep), [c])
  {
    assert (s + [c])[..|s|] == s;
  }

  /** Whatever splits character by character goes on with the last piece. */
  lemma {:induction false} GoesOn(split: string -> Row, s: string, t: string, sep: char)
    requires sep !in t
    requires forall u: string, c: char :: c != sep ==> split(u + [c]) == Extend(split(u), [c])
    ensures split(s + t) == Extend(split(s), t)
    decreases |t|
  {
    if |t| == 0 {
      assert s + t == s;
      ExtendNothing(split(s), t);
    } else {
      var front, c := t[..|t| - 1], t[|t| - 1];
      GoesOn(split, s, front, sep);
      LastChar(s, t);
      GoesOneFurther(split(s), split(s + front), split(s + front + [c]), front, c);
    }
  }

  lemma LastChar(s: string, t: string)
    requires |t| > 0
    ensures var front, c := t[..|t| - 1], t[|t| - 1]; s + t == s + front + [c] && front + [c] == t
  {
  }

  lemma GoesOneFurther(a: Row, b: Row, d: Row, front: string, c: char)
    requires b == Extend(a, front) && d == Extend(b, [c])
    ensures d == Extend(a, front + [c])
  {
    ExtendTwice(a, front, [c]);
  }

  /** Text without a separator goes on with the last piece. */
  lemma SplitPlain(s: string, t: string, sep: char)
    requires sep !in t
    ensures Split(s + t, sep) == Extend(Split(s, sep), t)
  {
    var split := (u: string) => Split(u, sep);
    forall u: string, c: char | c != sep ensures split(u + [c]) == Extend(split(u), [c]) {
      SplitChar(u, c, sep);
    }
    GoesOn(split, s, t, sep);
  }

  /** One more piece of text is one more piece. */
  lemma SplitMore(s: string, last: string, sep: char)
    requires sep !in last
    ensures Split(s + [sep] + last, sep) == Split(s, sep) + [last]
  {
    SplitChar(s, sep, sep);
    SplitPlain(s + [sep], last, sep);
    assert "" + last == last;
  }

  /** Whatever splits piece by piece undoes joining. */
  lemma {:induction false} UndoesJoin(split: string -> Row, parts: Row, sep: char)
    requires forall i :: 0 <= i < |parts| ==> sep !in parts[i]
    requires forall last: string :: sep !in last ==> split(last) == [last]
    requires forall s: string, last: string :: sep !in last ==> split(s + [sep] + last) == split(s) + [last]
    ensures split(Join(parts, sep)) == parts
    decreases |parts|
  {
    if |parts| > 1 {
      var front, last := parts[..|parts| - 1], parts[|parts| - 1];
      UndoesJoin(split, front, sep);
      assert Join(parts, sep) == Join(front, sep) + [sep] + last;
    }
  }

  lemma SplitJoin(parts: Row, sep: char)
    requires forall i :: 0 <= i < |parts| ==> sep !in parts[i]
    ensures Split(Join(parts, sep), sep) == parts
  {
    var split := (s: string) => Split(s, sep);
    forall last: string | sep !in last ensures split(last) == [last] {
      SplitPlain("", last, sep);
      assert "" + last == last;
    }
    forall s: string, last: string | sep !in last ensures split(s + [sep] + last) == split(s) + [last] {
      SplitMore(s, last, sep);
    }
    UndoesJoin(split, parts, sep);
  }

  lemma {:induction false} JoinClean(row: Row, c: char)
    requires c != '\t' && forall i :: 0 <= i < |row| ==> c !in row[i]
    ensures c !in Join(row, '\t')
    decreases |row|
  {
    if |row| > 1 {
      JoinClean(row[..|row| - 1], c);
    }
  }

  lemma JoinNotEmpty(row: Row)
    requires row != [""]
    ensures Join(row, '\t') != ""
  {
  }

  /** One more line of text is one more line. */
  lemma SplitLine(before: string, line: string)
    requires '\n' !in line && var a := Split(before, '\n'); a[|a| - 1] == ""
    ensures var a := Split(before, '\n');
            Split(before + line + "\n", '\n') == a[..|a| - 1] + [line] + [""]
  {
    var a := Split(before, '\n');
    SplitPlain(before, line, '\n');
    SplitChar(before + line, '\n', '\n');
    assert "" + line == line;
    assert Extend(a, line) == a[..|a| - 1] + [line];
  }

  /** A clean row's text is one row's worth of a line. */
  lemma RowOfLine(lines: seq<string>, row: Row)
    requires CleanRow(row)
    ensures var line := Join(row, '\t');
            '\n' !in line && RowsOf(lines + [line]) == RowsOf(lines) + [row]
  {
    var line := Join(row, '\t');
    JoinClean(row, '\n');
    JoinClean(row, '\r');
    JoinNotEmpty(row);
    SplitJoin(row, '\t');
    assert line[|line| - 1] in line;
    assert (lines + [line])[..|lines|] == lines;
  }

  /** The text consists of the lines of these rows, each with its end. */
  ghost predicate Lists(text: string, rows: seq<Row>) {
    var lines := Split(text, '\n');
    lines[|lines| - 1] == "" && RowsOf(lines[..|lines| - 1]) == rows
  }

  lemma ListsMore(before: string, rows: seq<Row>, row: Row)
    requires CleanRow(row) && Lists(before, rows)
    ensures Lists(before + Join(row, '\t') + "\n", rows + [row])
  {
    var lines, line := Split(before, '\n'), Join(row, '\t');
    RowOfLine(lines[..|lines| - 1], row);
    SplitLine(before, line);
    var all := lines[..|lines| - 1] + [line];
    assert (all + [""])[..|all|] == all;
  }

  lemma {:induction false} RenderedLines(rows: seq<Row>)
    requires forall i :: 0 <= i < |rows| ==> CleanRow(rows[i])
    ensures Lists(Render(rows), rows)
    decreases |rows|
  {
    if |rows| > 0 {
      var front, last := rows[..|rows| - 1], rows[|rows| - 1];
      RenderedLines(front);
      ListsMore(Render(front), front, last);
      assert front + [last] == rows;
    }
  }

  /** An empty line at the end is no row. */
  lemma LastEmpty(lines: seq<string>)
    requires |lines| > 0 && lines[|lines| - 1] == ""
    ensures RowsOf(lines) == RowsOf(lines[..|lines| - 1])
  {
    assert Chomp("") == "";
  }

  lemma ListedRows(text: string, rows: seq<Row>)
    requires Lists(text, rows)
    ensures Rows(text) == rows
  {
    LastEmpty(Split(text, '\n'));
  }

  /** The rows of a rendered dump are the rows it was rendered from. */
  lemma RenderRoundTrip(rows: seq<Row>)
    requires forall i :: 0 <= i < |rows| ==> CleanRow(rows[i])
    ensures Rows(Render(rows)) == rows
  {
    RenderedLines(rows);
    ListedRows(Render(rows), rows);
  }

  // ---- line ends and blank lines

  lemma RowOfCRLine(lines: seq<string>, row: Row)
    requires CleanRow(row)
    ensures var line := Join(row, '\t') + "\r";
            '\n' !in line && RowsOf(lines + [line]) == RowsOf(lines) + [row]
  {
    var line := Join(row, '\t') + "\r";
    JoinClean(row, '\n');
    JoinNotEmpty(row);
    SplitJoin(row, '\t');
    assert line[..|line| - 1] == Join(row, '\t') && line[|line| - 1] == '\r';
    assert (lines + [line])[..|lines|] == lines;
  }

  /** One more line of text, of no matter what. */
  lemma ListsLine(before: string, rows: seq<Row>, line: string, more: seq<Row>)
    requires Lists(before, rows) && '\n' !in line
    requires forall lines :: RowsOf(lines + [line]) == RowsOf(lines) + more
    ensures Lists(before + line + "\n", rows + more)
  {
    var lines := Split(before, '\n');
    SplitLine(before, line);
    var all := lines[..|lines| - 1] + [line];
    assert (all + [""])[..|all|] == all;
  }

  lemma BlankLine(lines: seq<string>, line: string)
    requires line == "" || line == "\r"
    ensures RowsOf(lines + [line]) == RowsOf(lines) + []
  {
    assert (lines + [line])[..|lines|] == lines && Chomp(line) == "";
  }

  /** A line that ends in a carriage return, and a blank line, before a line feed. */
  lemma ListsNoise(before: string, rows: seq<Row>, row: Row)
    requires CleanRow(row) && Lists(before, rows)
    ensures Lists(before + (Join(row, '\t') + "\r") + "\n", rows + [row])
    ensures Lists(before + "" + "\n", rows + []) && Lists(before + "\r" + "\n", rows + [])
  {
    forall lines ensures RowsOf(lines + [Join(row, '\t') + "\r"]) == RowsOf(lines) + [row] {
      RowOfCRLine(lines, row);
    }
    RowOfCRLine([], row);
    ListsLine(before, rows, Join(row, '\t') + "\r", [row]);
    forall lines ensures RowsOf(lines + [""]) == RowsOf(lines) + [] && RowsOf(lines + ["\r"]) == RowsOf(lines) + [] {
      BlankLine(lines, "");
      BlankLine(lines, "\r");
    }
    ListsLine(before, rows, "", []);
    ListsLine(before, rows, "\r", []);
  }

  /** How a row is set: after a blank line or not, and with which line end. */
  datatype Setting = Setting(blankBefore: bool, crlf: bool)

  function Spaced(before: string, how: Setting): string {
    if !how.blankBefore then before else before + (if how.crlf then "\r" else "") + "\n"
  }

  lemma SpacedLists(before: string, rows: seq<Row>, row: Row, how: Setting)
    requires CleanRow(row) && Lists(before, rows)
    ensures Lists(Spaced(before, how), rows)
  {
    ListsNoise(before, rows, row);
    assert rows + [] == rows;
  }

  function RenderSet(rows: seq<Row>, how: nat -> Setting): string {
    if |rows| == 0 then ""
    else
      var n := |rows| - 1;
      var before, line := RenderSet(rows[..n], how), Join(rows[n], '\t');
      Spaced(before, how(n)) + (if how(n).crlf then line + "\r" else line) + "\n"
  }

  lemma {:induction false} SetLines(rows: seq<Row>, how: nat -> Setting)
    requires forall i :: 0 <= i < |rows| ==> CleanRow(rows[i])
    ensures Lists(RenderSet(rows, how), rows)
    decreases |rows|
  {
    if |rows| > 0 {
      var n := |rows| - 1;
      var front, last := rows[..n], rows[n];
      SetLines(front, how);
      assert front + [last] == rows;
      SpacedLists(RenderSet(front, how), front, last, how(n));
      var spaced := Spaced(RenderSet(front, how), how(n));
      ListsMore(spaced, front, last);
      ListsNoise(spaced, front, last);
    }
  }

  /** Line ends and blank lines do not matter: a dump with carriage returns, or with empty lines in
      between, has the rows it was rendered from. */
  lemma SettingIsIgnored(rows: seq<Row>, how: nat -> Setting)
    requires forall i :: 0 <= i < |rows| ==> CleanRow(rows[i])
    ensures Rows(RenderSet(rows, how)) == rows && ParseDump(RenderSet(rows, how)) == ParseDump(Render(rows))
  {
    SetLines(rows, how);
    ListedRows(RenderSet(rows, how), rows);
    RenderRoundTrip(rows);
  }

  /** Noninterference on text: whatever keys stand in the secret columns of a dump, the
      outcome is the same. */
  lemma SecretTextNeverCrosses(a: seq<Row>, b: seq<Row>)
    requires SameButSecrets(a, b)
    requires forall i :: 0 <= i < |a| ==> CleanRow(a[i])
    requires forall i :: 0 <= i < |b| ==> CleanRow(b[i])
    ensures ParseDump(Render(a)) == ParseDump(Render(b))
  {
    RenderRoundTrip(a);
    RenderRoundTrip(b);
    SecretsNeverCross(Render(a), Render(b));
  }

  // ---------------------------------------------------------------- what success means

  predicate GoodRow(row: Row) {
    (|row| == 5 && IsPublicKey(row[2])) || (|row| == 9 && IsPublicKey(row[1]))
  }

  predicate PeerRow(row: Row) {
    |row| == 9
  }

  function CountPeerRows(rows: seq<Row>): nat {
    if |rows| == 0 then 0
    else CountPeerRows(rows[..|rows| - 1]) + (if PeerRow(rows[|rows| - 1]) then 1 else 0)
  }

  function CountPeers(ifs: seq<Interface>): nat {
    if |ifs| == 0 then 0 else CountPeers(ifs[..|ifs| - 1]) + |ifs[|ifs| - 1].peers|
  }

  /** The names of the maximal runs of equal interface names, in order. */
  function RunNames(rows: seq<Row>): seq<string> {
    if |rows| == 0 then []
    else
      var n := |rows| - 1;
      RunNames(rows[..n]) + if n > 0 && rows[n - 1][0] == rows[n][0] then [] else [rows[n][0]]
  }

  function NamesOf(ifs: seq<Interface>): seq<string> {
    seq(|ifs|, i requires 0 <= i < |ifs| => ifs[i].name)
  }

  /** What the interfaces read so far amount to. */
  function SoFar(p: Parser): seq<Interface>
    requires p.Reading?
  {
    if p.current.Some? then p.done + [p.current.value] else p.done
  }

  /** While reading: every row was good, and the interfaces so far account for all of them. */
  ghost predicate ReadingInv(rows: seq<Row>, p: Parser)
    requires p.Reading?
  {
    && (forall i :: 0 <= i < |rows| ==> GoodRow(rows[i]))
    && (|rows| == 0 ==> p == START)
    && (|rows| > 0 ==> rows[0][0] != "" && p.name == rows[|rows| - 1][0] && p.current.Some?)
    && (p.current.Some? ==> p.current.value.name == p.name)
    && NamesOf(SoFar(p)) == RunNames(rows)
    && CountPeers(SoFar(p)) == CountPeerRows(rows)
  }

  /** When stopped: there is a row to blame, and a crash blames the first. */
  ghost predicate StoppedInv(rows: seq<Row>, o: Outcome) {
    && !o.Ok? && |rows| > 0
    && ((exists i :: 0 <= i < |rows| && !GoodRow(rows[i])) || rows[0][0] == "")
    && (o.Crash? <==> rows[0][0] == "" && GoodRow(rows[0]))
  }

  ghost predicate ReadInv(rows: seq<Row>, p: Parser) {
    if p.Reading? then ReadingInv(rows, p) else StoppedInv(rows, p.outcome)
  }

  lemma CountPeersAppend(ifs: seq<Interface>, i: Interface)
    ensures CountPeers(ifs + [i]) == CountPeers(ifs) + |i.peers|
  {
    assert (ifs + [i])[..|ifs|] == ifs;
  }

  lemma RowsAppend(rows: seq<Row>, row: Row)
    ensures RunNames(rows + [row]) ==
            RunNames(rows) + if |rows| > 0 && rows[|rows| - 1][0] == row[0] then [] else [row[0]]
    ensures CountPeerRows(rows + [row]) == CountPeerRows(rows) + if PeerRow(row) then 1 else 0
  {
    assert (rows + [row])[..|rows|] == rows;
  }

  /** A row that is read is good, and its interface is current afterwards: the one before, if the
      name is the same, or a new one after all those so far. */
  lemma StepSoFar(p: Parser, row: Row)
    requires p.Reading? && Step(p, row).Reading?
    requires p.current.Some? ==> p.current.value.name == p.name
    ensures var t := Step(p, row);
            && GoodRow(row) && t.name == row[0] && t.current.Some? && t.current.value.name == t.name
            && (p.current.None? ==> row[0] != p.name)
            && (if p.name == row[0] then
                  t.done == p.done && |t.current.value.peers| == |p.current.value.peers| + (if PeerRow(row) then 1 else 0)
                else t.done == SoFar(p) && |t.current.value.peers| == (if PeerRow(row) then 1 else 0))
  {
  }

  lemma NamesAppend(ifs: seq<Interface>, i: Interface)
    ensures NamesOf(ifs + [i]) == NamesOf(ifs) + [i.name]
  {
  }

  /** What a row that is read adds: a name if it starts a new run, a peer if it is a peer row. */
  lemma StepAdds(p: Parser, row: Row)
    requires p.Reading? && Step(p, row).Reading?
    requires p.current.Some? ==> p.current.value.name == p.name
    ensures var t := Step(p, row);
            && NamesOf(SoFar(t)) == NamesOf(SoFar(p)) + (if p.name == row[0] then [] else [row[0]])
            && CountPeers(SoFar(t)) == CountPeers(SoFar(p)) + (if PeerRow(row) then 1 else 0)
  {
    var t := Step(p, row);
    StepSoFar(p, row);
    CountPeersAppend(t.done, t.current.value);
    NamesAppend(t.done, t.current.value);
    if p.name == row[0] {
      CountPeersAppend(p.done, p.current.value);
      NamesAppend(p.done, p.current.value);
    }
  }

  lemma StepReads(rows: seq<Row>, p: Parser, row: Row)
    requires p.Reading? && ReadingInv(rows, p) && Step(p, row).Reading?
    ensures ReadingInv(rows + [row], Step(p, row))
  {
    StepSoFar(p, row);
    StepAdds(p, row);
    RowsAppend(rows, row);
  }

  /** A row that stops the parser is bad, or is the first one and names no interface. */
  lemma StepStops(p: Parser, row: Row)
    requires p.Reading? && Step(p, row).Stopped?
    ensures var o := Step(p, row).outcome;
            && !o.Ok?
            && (o.Crash? <==> GoodRow(row))
            && (o.Crash? ==> p.current.None? && row[0] == p.name)
            && (p.current.None? && row[0] == p.name && GoodRow(row) ==> o.Crash?)
  {
  }

  lemma StepInv(rows: seq<Row>, p: Parser, row: Row)
    requires ReadInv(rows, p)
    ensures ReadInv(rows + [row], Step(p, row))
  {
    var all := rows + [row];
    if p.Stopped? {
      assert all[0] == rows[0];
      if i :| 0 <= i < |rows| && !GoodRow(rows[i]) {
        assert !GoodRow(all[i]);
      }
    } else if Step(p, row).Reading? {
      StepReads(rows, p, row);
    } else {
      StepStops(p, row);
      assert all[|rows|] == row && (|rows| > 0 ==> all[0] == rows[0]);
    }
  }

  lemma {:induction false} ReadRowsInv(rows: seq<Row>)
    ensures ReadInv(rows, ReadRows(rows))
  {
    if |rows| > 0 {
      var n := |rows| - 1;
      ReadRowsInv(rows[..n]);
      StepInv(rows[..n], ReadRows(rows[..n]), rows[n]);
      assert rows[..n] + [rows[n]] == rows;
    } else {
      assert NamesOf(SoFar(START)) == [];
    }
  }

  /** On success the interfaces are the maximal runs of equal names, in order, and hold one
      peer per nine-column row. */
  lemma SuccessIsComplete(dump: string)
    requires ParseDump(dump).Ok?
    ensures NamesOf(ParseDump(dump).out) == RunNames(Rows(dump))
    ensures CountPeers(ParseDump(dump).out) == CountPeerRows(Rows(dump))
  {
    ReadRowsInv(Rows(dump));
  }

  /** Exactly when a dump is accepted: every row has one of the two shapes with a well-formed
      public key, and the first row names its interface. */
  lemma AcceptedIff(dump: string)
    ensures var rows := Rows(dump);
            ParseDump(dump).Ok? <==>
            (forall i :: 0 <= i < |rows| ==> GoodRow(rows[i])) && (|rows| > 0 ==> rows[0][0] != "")
  {
    ReadRowsInv(Rows(dump));
  }

  /** The row at which the parser stops. */
  lemma {:induction false} StopsAt(rows: seq<Row>) returns (i: nat)
    requires ReadRows(rows).Stopped?
    ensures i < |rows| && ReadRows(rows[..i]).Reading? && Step(ReadRows(rows[..i]), rows[i]) == ReadRows(rows)
    decreases |rows|
  {
    var n := |rows| - 1;
    if ReadRows(rows[..n]).Reading? {
      i := n;
    } else {
      i := StopsAt(rows[..n]);
      assert rows[..n][..i] == rows[..i];
    }
  }

  /** What a failed row leaves and says: the interfaces before the one it belongs to, and which of its
      parts is wrong. */
  lemma FailedRow(rows: seq<Row>, p: Parser, row: Row)
    requires p.Reading? && ReadingInv(rows, p) && Step(p, row).Stopped? && Step(p, row).outcome.Fail?
    ensures var o := Step(p, row).outcome;
            && !GoodRow(row)
            && NamesOf(o.out) + [row[0]] == RunNames(rows + [row])
            && o.why == if |row| == 5 then InterfaceKey else if |row| == 9 then PeerKey else ColumnCount(|row|)
  {
    RowsAppend(rows, row);
    if p.current.Some? {
      NamesAppend(p.done, p.current.value);
    }
  }

  lemma FailedAfter(before: seq<Row>, row: Row, o: Outcome)
    requires ReadRows(before).Reading? && Step(ReadRows(before), row) == Stopped(o) && o.Fail?
    ensures !GoodRow(row) && forall j :: 0 <= j < |before| ==> GoodRow(before[j])
    ensures NamesOf(o.out) + [row[0]] == RunNames(before + [row])
    ensures o.why == if |row| == 5 then InterfaceKey else if |row| == 9 then PeerKey else ColumnCount(|row|)
  {
    ReadRowsInv(before);
    FailedRow(before, ReadRows(before), row);
  }

  lemma FailedRowAt(rows: seq<Row>, o: Outcome) returns (i: nat, before: seq<Row>, row: Row)
    requires ReadRows(rows) == Stopped(o) && o.Fail?
    ensures i < |rows| && before == rows[..i] && row == rows[i]
    ensures !GoodRow(row) && forall j :: 0 <= j < |before| ==> GoodRow(before[j])
    ensures NamesOf(o.out) + [row[0]] == RunNames(before + [row])
    ensures o.why == if |row| == 5 then InterfaceKey else if |row| == 9 then PeerKey else ColumnCount(|row|)
  {
    i := StopsAt(rows);
    before, row := rows[..i], rows[i];
    FailedAfter(before, row, o);
  }

  lemma FirstBad(rows: seq<Row>, i: nat, before: seq<Row>, row: Row)
    requires i < |rows| && before == rows[..i] && row == rows[i]
    ensures before + [row] == rows[..i + 1]
    ensures (forall j :: 0 <= j < |before| ==> GoodRow(before[j])) ==> forall j :: 0 <= j < i ==> GoodRow(rows[j])
  {
    assert forall j :: 0 <= j < i ==> before[j] == rows[j];
  }

  /** A failure is that of the first row that is not good: it says whether an interface row's key, a
      peer row's key or the number of columns is wrong, and the output is all interfaces but the
      one that row belongs to. */
  lemma FailsAtTheFirstBadRow(dump: string) returns (i: nat)
    requires ParseDump(dump).Fail?
    ensures var rows, o := Rows(dump), ParseDump(dump);
            && i < |rows| && !GoodRow(rows[i]) && (forall j :: 0 <= j < i ==> GoodRow(rows[j]))
            && NamesOf(o.out) + [rows[i][0]] == RunNames(rows[..i + 1])
            && o.why == (if |rows[i]| == 5 then InterfaceKey else if |rows[i]| == 9 then PeerKey else ColumnCount(|rows[i]|))
  {
    i := FirstBadRow(Rows(dump), ReadRows(Rows(dump)).outcome);
  }

  lemma FirstBadRow(rows: seq<Row>, o: Outcome) returns (i: nat)
    requires ReadRows(rows) == Stopped(o) && o.Fail?
    ensures i < |rows| && !GoodRow(rows[i]) && (forall j :: 0 <= j < i ==> GoodRow(rows[j]))
    ensures NamesOf(o.out) + [rows[i][0]] == RunNames(rows[..i + 1])
    ensures o.why == (if |rows[i]| == 5 then InterfaceKey else if |rows[i]| == 9 then PeerKey else ColumnCount(|rows[i]|))
  {
    var before, row;
    i, before, row := FailedRowAt(rows, o);
    FirstBad(rows, i, before, row);
  }

  /** A number that cannot be read is zero in a peer, and leaves an interface's port as it was. */
  lemma UnreadableNumbers(row: Row, i: Interface)
    ensures |row| == 9 ==>
              var p := PeerOf(row);
              && (Atoi(row[5]).None? ==> p.latestHandshake == 0) && (Atoi(row[6]).None? ==> p.rxBytes == 0)
              && (Atoi(row[7]).None? ==> p.txBytes == 0) && (Atoi(row[8]).None? ==> p.keepalive == 0)
    ensures |row| == 5 && Atoi(row[3]).None? ==> WithHeader(i, row).listenPort == i.listenPort
    ensures |row| == 5 && row[4] == "off" ==> WithHeader(i, row).fwmark == i.fwmark
  {
  }

  /** Exactly when the parser dereferences nil: a first row that is well formed except that its
      interface name is empty. */
  lemma CrashesIff(dump: string)
    ensures var rows := Rows(dump);
            ParseDump(dump).Crash? <==> |rows| > 0 && rows[0][0] == "" && GoodRow(rows[0])
  {
    ReadRowsInv(Rows(dump));
  }

  /** 43 characters, as a WireGuard key has. */
  function SomeKey(): string {
    seq(43, _ => 'A')
  }

  /** An interface row without a name. */
  function NamelessRow(): Row {
    ["", "secret", SomeKey(), "51820", "off"]
  }

  lemma NamelessIsClean()
    ensures CleanRow(NamelessRow()) && GoodRow(NamelessRow())
  {
    assert Clean("") && Clean("secret") && Clean(SomeKey()) && Clean("51820") && Clean("off");
    var k := SomeKey();
    assert |k| == 43 && k[42] == 'A' && forall i :: 0 <= i < |k| ==> IsBase64(k[i]);
    assert NamelessRow()[2] == k;
  }

  /** The text of one good row without a name crashes. */
  lemma NamelessCrashes(row: Row)
    requires CleanRow(row) && GoodRow(row) && row[0] == ""
    ensures ParseDump(Render([row])) == Crash
  {
    var rows: seq<Row> := [row];
    RenderRoundTrip(rows);
    CrashesIff(Render(rows));
  }

  /** An input that crashes: the text of that one row. */
  lemma EmptyNameCrashes()
    ensures ParseDump(Render([NamelessRow()])) == Crash
  {
    NamelessIsClean();
    NamelessCrashes(NamelessRow());
  }

  // ---------------------------------------------------------------- reading back a dump

  function OrElse(s: string, none: string): string {
    if s == "" then none else s
  }

  /** The row `wg show all dump` prints for an interface, with its private key. */
  function HeaderRow(i: Interface, privateKey: string): Row
    requires i.listenPort >= 0
  {
    [i.name, privateKey, i.publicKey, Decimal(i.listenPort), OrElse(i.fwmark, "off")]
  }

  /** The row for one of its peers, with the preshared key. */
  function RowOfPeer(name: string, p: Peer, presharedKey: string): Row
    requires p.latestHandshake >= 0 && p.rxBytes >= 0 && p.txBytes >= 0 && p.keepalive >= 0
  {
    [name, p.publicKey, presharedKey, OrElse(p.endpoint, "(none)"), OrElse(p.allowedIPs, "(none)"),
     Decimal(p.latestHandshake), Decimal(p.rxBytes), Decimal(p.txBytes),
     if p.keepalive == 0 then "off" else Decimal(p.keepalive)]
  }

  predicate IsCount(n: int) {
    0 <= n < INT_LIMIT
  }

  predicate RealPeer(p: Peer) {
    && IsPublicKey(p.publicKey) && p.endpoint != "(none)" && p.allowedIPs != "(none)"
    && IsCount(p.latestHandshake) && IsCount(p.rxBytes) && IsCount(p.txBytes) && IsCount(p.keepalive)
  }

  /** What an interface of a host can be. */
  predicate RealInterface(i: Interface) {
    && i.name != "" && IsPublicKey(i.publicKey) && IsCount(i.listenPort) && i.fwmark != "off"
    && forall j :: 0 <= j < |i.peers| ==> RealPeer(i.peers[j])
  }

  /** A host's interfaces: real ones, no two neighbours of one name. */
  ghost predicate RealHost(ifs: seq<Interface>) {
    && (forall i :: 0 <= i < |ifs| ==> RealInterface(ifs[i]))
    && (forall i, j :: 0 <= i < j < |ifs| && j == i + 1 ==> ifs[i].name != ifs[j].name)
  }

  /** The rows of an interface's peers; secret(j + 1) is the preshared key of peer j. */
  function PeerRows(i: Interface, secret: nat -> string): seq<Row>
    requires RealInterface(i)
  {
    seq(|i.peers|, j requires 0 <= j < |i.peers| => RowOfPeer(i.name, i.peers[j], secret(j + 1)))
  }

  function SecretsOf(secret: (nat, nat) -> string, n: nat): nat -> string {
    (j: nat) => secret(n, j)
  }

  function InterfaceRows(i: Interface, secret: nat -> string): seq<Row>
    requires RealInterface(i)
  {
    [HeaderRow(i, secret(0))] + PeerRows(i, secret)
  }

  lemma CountRoundTrip(n: int)
    requires IsCount(n)
    ensures IntOr0(Decimal(n)) == n && Decimal(n) != "off"
  {
    AtoiDecimal(n);
  }

  lemma PeerRoundTrip(name: string, p: Peer, presharedKey: string)
    requires RealPeer(p)
    ensures PeerOf(RowOfPeer(name, p, presharedKey)) == p
  {
    var row := RowOfPeer(name, p, presharedKey);
    var q := PeerOf(row);
    assert q.publicKey == p.publicKey && q.endpoint == p.endpoint && q.allowedIPs == p.allowedIPs;
    assert q.latestHandshake == p.latestHandshake by { CountRoundTrip(p.latestHandshake); }
    assert q.rxBytes == p.rxBytes by { CountRoundTrip(p.rxBytes); }
    assert q.txBytes == p.txBytes by { CountRoundTrip(p.txBytes); }
    assert q.keepalive == p.keepalive by { CountRoundTrip(p.keepalive); }
  }

  lemma HeaderRoundTrip(i: Interface, privateKey: string)
    requires RealInterface(i)
    ensures WithHeader(Interface(i.name, "", 0, "", []), HeaderRow(i, privateKey)) == i.(peers := [])
  {
    AtoiDecimal(i.listenPort);
  }

  /** A row that carries what there is to know of a peer. */
  predicate PeerIn(row: Row, name: string, p: Peer) {
    |row| == 9 && row[0] == name && IsPublicKey(row[1]) && PeerOf(row) == p
  }

  predicate HeaderIn(row: Row, i: Interface) {
    && |row| == 5 && row[0] == i.name && IsPublicKey(row[2])
    && WithHeader(Interface(i.name, "", 0, "", []), row) == i.(peers := [])
  }

  /** The first rows carry the first peers, one each. */
  predicate PeersIn(rows: seq<Row>, name: string, peers: seq<Peer>)
    requires |rows| <= |peers|
  {
    |rows| == 0 ||
    (PeersIn(rows[..|rows| - 1], name, peers) && PeerIn(rows[|rows| - 1], name, peers[|rows| - 1]))
  }

  lemma RowCarriesPeer(i: Interface, secret: nat -> string, n: nat)
    requires RealInterface(i) && n < |i.peers|
    ensures PeerIn(PeerRows(i, secret)[n], i.name, i.peers[n])
  {
    PeerRoundTrip(i.name, i.peers[n], secret(n + 1));
  }

  lemma OneMorePeer(rows: seq<Row>, name: string, peers: seq<Peer>, n: nat)
    requires n < |rows| <= |peers| && PeersIn(rows[..n], name, peers) && PeerIn(rows[n], name, peers[n])
    ensures PeersIn(rows[..n + 1], name, peers)
  {
    assert rows[..n + 1][..n] == rows[..n];
  }

  lemma {:induction false} RowsCarryPeers(i: Interface, secret: nat -> string, n: nat)
    requires RealInterface(i) && n <= |i.peers|
    ensures PeersIn(PeerRows(i, secret)[..n], i.name, i.peers)
    decreases n
  {
    if n > 0 {
      RowsCarryPeers(i, secret, n - 1);
      RowCarriesPeer(i, secret, n - 1);
      OneMorePeer(PeerRows(i, secret), i.name, i.peers, n - 1);
    }
  }

  /** The parser after the header of an interface and its first n peers. */
  function AfterPeers(done: seq<Interface>, i: Interface, n: nat): Parser
    requires n <= |i.peers|
  {
    Reading(done, i.name, Some(i.(peers := i.peers[..n])))
  }

  lemma HeaderStep(p: Parser, i: Interface, row: Row)
    requires p.Reading? && p.name != i.name && HeaderIn(row, i)
    ensures Step(p, row) == AfterPeers(SoFar(p), i, 0)
  {
  }

  lemma PeerStep(done: seq<Interface>, i: Interface, n: nat, row: Row)
    requires n < |i.peers| && PeerIn(row, i.name, i.peers[n])
    ensures Step(AfterPeers(done, i, n), row) == AfterPeers(done, i, n + 1)
  {
    assert i.peers[..n] + [i.peers[n]] == i.peers[..n + 1];
  }

  lemma PeerRead(before: seq<Row>, done: seq<Interface>, i: Interface, n: nat, row: Row)
    requires n < |i.peers| && PeerIn(row, i.name, i.peers[n]) && ReadRows(before) == AfterPeers(done, i, n)
    ensures ReadRows(before + [row]) == AfterPeers(done, i, n + 1)
  {
    ReadRowsAppend(before, row);
    PeerStep(done, i, n, row);
  }

  /** Rows that each move a reader from one state to the next move it from the first to the last. */
  lemma {:induction false} ReadsAlong(read: seq<Row> -> Parser, before: seq<Row>, rows: seq<Row>, at: nat -> Parser)
    requires read(before) == at(0)
    requires forall r: seq<Row>, n: nat :: n < |rows| && read(r) == at(n) ==> read(r + [rows[n]]) == at(n + 1)
    ensures read(before + rows) == at(|rows|)
    decreases |rows|
  {
    var n := |rows| - 1;
    if n < 0 {
      assert before + rows == before;
    } else {
      ReadsAlong(read, before, rows[..n], at);
      assert before + rows == before + rows[..n] + [rows[n]];
    }
  }

  lemma {:induction false} PeersInAt(rows: seq<Row>, name: string, peers: seq<Peer>, n: nat)
    requires n < |rows| <= |peers| && PeersIn(rows, name, peers)
    ensures PeerIn(rows[n], name, peers[n])
    decreases |rows|
  {
    if n < |rows| - 1 {
      PeersInAt(rows[..|rows| - 1], name, peers, n);
    }
  }

  function PeerPoint(done: seq<Interface>, i: Interface): nat -> Parser {
    (n: nat) => if n <= |i.peers| then AfterPeers(done, i, n) else START
  }

  lemma PeerRowRead(before: seq<Row>, done: seq<Interface>, i: Interface, rows: seq<Row>, n: nat)
    requires n < |rows| == |i.peers| && PeersIn(rows, i.name, i.peers)
    requires ReadRows(before) == AfterPeers(done, i, n)
    ensures ReadRows(before + [rows[n]]) == AfterPeers(done, i, n + 1)
  {
    PeersInAt(rows, i.name, i.peers, n);
    PeerRead(before, done, i, n, rows[n]);
  }

  lemma ReaderReads(rows: seq<Row>)
    ensures Reader()(rows) == ReadRows(rows)
  {
  }

  lemma PeerPointRead(before: seq<Row>, done: seq<Interface>, i: Interface, rows: seq<Row>, n: nat)
    requires n < |rows| == |i.peers| && PeersIn(rows, i.name, i.peers)
    requires Reader()(before) == PeerPoint(done, i)(n)
    ensures Reader()(before + [rows[n]]) == PeerPoint(done, i)(n + 1)
  {
    var next := before + [rows[n]];
    ReaderReads(before);
    ReaderReads(next);
    PeerRowRead(before, done, i, rows, n);
  }

  lemma PeerPointsRead(before: seq<Row>, done: seq<Interface>, i: Interface, rows: seq<Row>)
    requires |rows| == |i.peers| && PeersIn(rows, i.name, i.peers)
    requires Reader()(before) == PeerPoint(done, i)(0)
    ensures Reader()(before + rows) == PeerPoint(done, i)(|rows|)
  {
    forall r: seq<Row>, n: nat | n < |rows| && Reader()(r) == PeerPoint(done, i)(n)
      ensures Reader()(r + [rows[n]]) == PeerPoint(done, i)(n + 1)
    {
      PeerPointRead(r, done, i, rows, n);
    }
    ReadsAlong(Reader(), before, rows, PeerPoint(done, i));
  }

  /** Reading the peers of an interface, row by row. */
  lemma PeersRead(before: seq<Row>, done: seq<Interface>, i: Interface, rows: seq<Row>)
    requires |rows| == |i.peers| && ReadRows(before) == AfterPeers(done, i, 0)
    requires PeersIn(rows, i.name, i.peers)
    ensures ReadRows(before + rows) == AfterPeers(done, i, |rows|)
  {
    PeerPointsRead(before, done, i, rows);
  }

  /** Rows that carry what there is to know of an interface. */
  predicate InterfaceIn(piece: seq<Row>, i: Interface) {
    |piece| == 1 + |i.peers| && HeaderIn(piece[0], i) && PeersIn(piece[1..], i.name, i.peers)
  }

  lemma RowsCarryInterface(i: Interface, secret: nat -> string)
    requires RealInterface(i)
    ensures InterfaceIn(InterfaceRows(i, secret), i)
  {
    HeaderRoundTrip(i, secret(0));
    RowsCarryPeers(i, secret, |i.peers|);
    assert PeerRows(i, secret)[..|i.peers|] == PeerRows(i, secret) == InterfaceRows(i, secret)[1..];
  }

  lemma WholeInterfaceRead(before: seq<Row>, i: Interface, piece: seq<Row>)
    requires InterfaceIn(piece, i) && ReadRows(before).Reading? && ReadRows(before).name != i.name
    ensures ReadRows(before + piece) == Reading(SoFar(ReadRows(before)), i.name, Some(i))
  {
    FirstRow(before, piece);
    HeaderReadThenPeers(before, i, piece[0], piece[1..]);
  }

  lemma FirstRow(before: seq<Row>, piece: seq<Row>)
    requires |piece| > 0
    ensures before + [piece[0]] + piece[1..] == before + piece
  {
  }

  lemma HeaderReadThenPeers(before: seq<Row>, i: Interface, header: Row, rows: seq<Row>)
    requires ReadRows(before).Reading? && ReadRows(before).name != i.name
    requires HeaderIn(header, i) && |rows| == |i.peers| && PeersIn(rows, i.name, i.peers)
    ensures ReadRows(before + [header] + rows) == Reading(SoFar(ReadRows(before)), i.name, Some(i))
  {
    HeaderStep(ReadRows(before), i, header);
    ReadRowsAppend(before, header);
    PeersRead(before + [header], SoFar(ReadRows(before)), i, rows);
    assert i.peers[..|rows|] == i.peers;
  }

  /** What the parser has when it has read the rows of the first n interfaces. */
  function AfterHost(ifs: seq<Interface>, n: nat): Parser
    requires n <= |ifs|
  {
    if n == 0 then START else Reading(ifs[..n - 1], ifs[n - 1].name, Some(ifs[n - 1]))
  }

  lemma AfterHostHolds(ifs: seq<Interface>, n: nat)
    requires n <= |ifs|
    ensures AfterHost(ifs, n).Reading? && SoFar(AfterHost(ifs, n)) == ifs[..n]
  {
  }

  /** No two neighbours have the same name, and none is nameless. */
  ghost predicate Named(ifs: seq<Interface>) {
    && (forall i :: 0 <= i < |ifs| ==> ifs[i].name != "")
    && (forall i, j :: 0 <= i < j < |ifs| && j == i + 1 ==> ifs[i].name != ifs[j].name)
  }

  /** One more interface. */
  lemma HostStep(rows: seq<Row>, ifs: seq<Interface>, n: nat, piece: seq<Row>)
    requires Named(ifs) && n < |ifs| && InterfaceIn(piece, ifs[n]) && ReadRows(rows) == AfterHost(ifs, n)
    ensures ReadRows(rows + piece) == AfterHost(ifs, n + 1)
  {
    AfterHostHolds(ifs, n);
    assert n > 0 ==> ifs[n - 1].name != ifs[n].name;
    WholeInterfaceRead(rows, ifs[n], piece);
  }

  /** Rows in pieces, one after the other. */
  ghost function Pieces(piece: nat -> seq<Row>, n: nat): seq<Row> {
    if n == 0 then [] else Pieces(piece, n - 1) + piece(n - 1)
  }

  /** A reader that is at a point goes on to the next when it has read the next piece. */
  ghost predicate Carries(read: seq<Row> -> Parser, piece: nat -> seq<Row>, at: nat -> Parser, n: nat) {
    read(Pieces(piece, n)) == at(n) ==> read(Pieces(piece, n) + piece(n)) == at(n + 1)
  }

  lemma {:induction false} ReadsPieces(read: seq<Row> -> Parser, piece: nat -> seq<Row>, at: nat -> Parser, n: nat)
    requires read([]) == at(0) && forall k :: 0 <= k < n ==> Carries(read, piece, at, k)
    ensures read(Pieces(piece, n)) == at(n)
  {
    if n > 0 {
      ReadsPieces(read, piece, at, n - 1);
      assert Carries(read, piece, at, n - 1);
    }
  }

  ghost function InterfacePiece(ifs: seq<Interface>, secret: (nat, nat) -> string): nat -> seq<Row>
    requires RealHost(ifs)
  {
    (n: nat) => if n < |ifs| then InterfaceRows(ifs[n], SecretsOf(secret, n)) else []
  }

  /** The rows of a host: secret(n, 0) is the private key of interface n. */
  ghost function DumpRows(ifs: seq<Interface>, secret: (nat, nat) -> string): seq<Row>
    requires RealHost(ifs)
  {
    Pieces(InterfacePiece(ifs, secret), |ifs|)
  }

  function HostPoint(ifs: seq<Interface>): nat -> Parser {
    (n: nat) => if n <= |ifs| then AfterHost(ifs, n) else START
  }

  function Reader(): seq<Row> -> Parser {
    (rows: seq<Row>) => ReadRows(rows)
  }

  lemma HostCarries(ifs: seq<Interface>, piece: nat -> seq<Row>, n: nat)
    requires Named(ifs) && n < |ifs| && InterfaceIn(piece(n), ifs[n])
    ensures Carries(Reader(), piece, HostPoint(ifs), n)
  {
    if ReadRows(Pieces(piece, n)) == AfterHost(ifs, n) {
      HostStep(Pieces(piece, n), ifs, n, piece(n));
    }
  }

  /** Pieces that carry a host's interfaces are read as that host. */
  lemma PiecesRead(ifs: seq<Interface>, piece: nat -> seq<Row>)
    requires Named(ifs) && forall n :: 0 <= n < |ifs| ==> InterfaceIn(piece(n), ifs[n])
    ensures ReadRows(Pieces(piece, |ifs|)) == AfterHost(ifs, |ifs|)
  {
    var read, at := Reader(), HostPoint(ifs);
    forall n | 0 <= n < |ifs| ensures Carries(read, piece, at, n) {
      HostCarries(ifs, piece, n);
    }
    ReadsPieces(read, piece, at, |ifs|);
  }

  lemma HostRead(ifs: seq<Interface>, secret: (nat, nat) -> string)
    requires RealHost(ifs)
    ensures ReadRows(DumpRows(ifs, secret)) == AfterHost(ifs, |ifs|)
  {
    var piece := InterfacePiece(ifs, secret);
    forall n | 0 <= n < |ifs| ensures InterfaceIn(piece(n), ifs[n]) {
      RowsCarryInterface(ifs[n], SecretsOf(secret, n));
    }
    PiecesRead(ifs, piece);
  }

  lemma HostRecovered(ifs: seq<Interface>, p: Parser)
    requires p == AfterHost(ifs, |ifs|)
    ensures Finish(p) == Ok(ifs)
  {
    AfterHostHolds(ifs, |ifs|);
    assert ifs[..|ifs|] == ifs;
  }

  /** Reading back a dump: the parser recovers every field of every interface and peer that is
      not a secret, whatever the secrets are. */
  lemma DumpRoundTrip(ifs: seq<Interface>, secret: (nat, nat) -> string)
    requires RealHost(ifs)
    ensures var rows := DumpRows(ifs, secret);
            && Finish(ReadRows(rows)) == Ok(ifs)
            && ((forall i :: 0 <= i < |rows| ==> CleanRow(rows[i])) ==> ParseDump(Render(rows)) == Ok(ifs))
  {
    HostRead(ifs, secret);
    var rows := DumpRows(ifs, secret);
    HostRecovered(ifs, ReadRows(rows));
    if forall i :: 0 <= i < |rows| ==> CleanRow(rows[i]) {
      RenderRoundTrip(rows);
    }
  }
}
