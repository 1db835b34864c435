/** The text of results.jsonl: what the worker tallies line by line, what the API yields line by line,
    and what a client makes of it. */
module Results {
  import opened Wrappers
  import opened Jsonl
  import opened Predictor

  // ---- Writing ----

  function TextOrNull(text: Option<string>): Value {
    if text.None? then Null else Text(text.value)
  }

  function OutMembers(row: OutRow): Members {
    [("id", Text(row.id)), ("prompt", Text(row.prompt)), ("response", TextOrNull(row.response)),
     ("finish_reason", TextOrNull(row.finishReason)), ("prompt_tokens", Number(row.promptTokens)),
     ("completion_tokens", Number(row.completionTokens)), ("error", TextOrNull(row.error))]
  }

  function EncodeOut(row: OutRow): string {
    ObjectOnto(OutMembers(row), [])
  }

  /** The whole text of a results file with these rows. */
  function EncodeResults(rows: seq<OutRow>): string {
    if rows == [] then [] else EncodeOut(rows[0]) + ['\n'] + EncodeResults(rows[1..])
  }

  function ObjectsOf(rows: seq<OutRow>): (objects: seq<Members>)
    ensures |objects| == |rows|
  {
    seq(|rows|, i requires 0 <= i < |rows| => OutMembers(rows[i]))
  }

  // ---- Lines of a text file ----

  /** What reading in text mode makes of a file: carriage returns, alone or before a newline, become newlines. */
  function Translated(s: string): string {
    if s == [] then []
    else if s[0] != '\r' then [s[0]] + Translated(s[1..])
    else if |s| > 1 && s[1] == '\n' then ['\n'] + Translated(s[2..])
    else ['\n'] + Translated(s[1..])
  }

  predicate HoldsNoLineEnd(line: string) {
    forall i | 0 <= i < |line| :: line[i] != '\n' && line[i] != '\r'
  }

  lemma HeadAndTail(line: string, rest: string)
    requires line != []
    ensures line + rest == [line[0]] + (line[1..] + rest)
  {
  }

  /** Text mode turns each of the three line ends into one newline and leaves all else. */
  lemma {:induction false} LineEndTranslated(line: string, end: string, rest: string)
    requires HoldsNoLineEnd(line) && (end == "\n" || end == "\r" || end == "\r\n")
    requires end == "\r" && rest != [] ==> rest[0] != '\n'
    ensures Translated(line + (end + rest)) == line + (['\n'] + Translated(rest))
  {
    if line == [] {
      assert line + (end + rest) == end + rest && line + (['\n'] + Translated(rest)) == ['\n'] + Translated(rest);
      assert (end + rest)[|end|..] == rest;
    } else {
      LineEndTranslated(line[1..], end, rest);
      TailOfConcat(line, end + rest);
      HeadAndTail(line, ['\n'] + Translated(rest));
    }
  }

  lemma {:induction false} NoLineEndTranslated(line: string)
    requires HoldsNoLineEnd(line)
    ensures Translated(line) == line
  {
    if line != [] {
      NoLineEndTranslated(line[1..]);
    }
  }

  /** The length of the first line with its newline. */
  function LineLength(s: string): (n: nat)
    requires s != []
    ensures 0 < n <= |s|
  {
    if s[0] == '\n' || |s| == 1 then 1 else 1 + LineLength(s[1..])
  }

  /** The lines iterating over a file gives, newlines included. */
  function FileLines(s: string): seq<string>
    decreases |s|
  {
    if s == [] then [] else [s[..LineLength(s)]] + FileLines(s[LineLength(s)..])
  }

  function Joined(lines: seq<string>): string {
    if lines == [] then [] else lines[0] + Joined(lines[1..])
  }

  lemma JoinedMore(line: string, lines: seq<string>)
    ensures Joined([line] + lines) == line + Joined(lines)
  {
    assert ([line] + lines)[1..] == lines;
  }

  lemma JoinedCut(s: string, n: nat, lines: seq<string>)
    requires n <= |s| && Joined(lines) == s[n..]
    ensures Joined([s[..n]] + lines) == s
  {
    JoinedMore(s[..n], lines);
    assert s == s[..n] + s[n..];
  }

  /** The lines are the text, cut after newlines. */
  lemma {:induction false} LinesJoin(s: string)
    ensures Joined(FileLines(s)) == s
    decreases |s|
  {
    if s != [] {
      var n := LineLength(s);
      LinesJoin(s[n..]);
      JoinedCut(s, n, FileLines(s[n..]));
    }
  }

  /** A line has no newline before its last character. */
  predicate IsLine(line: string) {
    line != [] && forall i | 0 <= i < |line| - 1 :: line[i] != '\n'
  }

  lemma {:induction false} FirstIsLine(s: string)
    requires s != []
    ensures IsLine(s[..LineLength(s)])
    ensures LineLength(s) < |s| ==> s[LineLength(s) - 1] == '\n'
  {
    if s[0] != '\n' && |s| > 1 {
      var n := LineLength(s[1..]);
      FirstIsLine(s[1..]);
      forall i | 0 <= i < n ensures s[i] != '\n' {
        if i > 0 { assert s[i] == s[1..][..n][i - 1]; }
      }
    }
  }

  /** The lines are lines, and only the last may lack its newline. */
  ghost predicate AreLines(lines: seq<string>) {
    && (forall k | 0 <= k < |lines| :: IsLine(lines[k]))
    && (forall k | 0 <= k < |lines| - 1 :: lines[k][|lines[k]| - 1] == '\n')
  }

  lemma OneMoreLine(line: string, lines: seq<string>)
    requires IsLine(line) && AreLines(lines) && (lines != [] ==> line[|line| - 1] == '\n')
    ensures AreLines([line] + lines)
  {
  }

  lemma {:induction false} FileLinesAreLines(s: string)
    ensures AreLines(FileLines(s))
    decreases |s|
  {
    if s != [] {
      var n := LineLength(s);
      FirstIsLine(s);
      FileLinesAreLines(s[n..]);
      OneMoreLine(s[..n], FileLines(s[n..]));
    }
  }

  // ---- Reading ----

  /** White space to Python's `str.strip`. */
  predicate IsSpace(c: char) {
    var n := c as int;
    || 0x09 <= n <= 0x0D || 0x1C <= n <= 0x20 || n == 0x85 || n == 0xA0 || n == 0x1680
    || 0x2000 <= n <= 0x200A || n == 0x2028 || n == 0x2029 || n == 0x202F || n == 0x205F || n == 0x3000
  }

  /** The white space of Unicode: the controls 9 to 13 and 28 to 31, and the space characters. */
  lemma IsSpaceIs(c: char)
    ensures IsSpace(c) <==>
              c as int in {0x09, 0x0A, 0x0B, 0x0C, 0x0D, 0x1C, 0x1D, 0x1E, 0x1F, 0x20, 0x85, 0xA0, 0x1680, 0x2000, 0x2001,
                           0x2002, 0x2003, 0x2004, 0x2005, 0x2006, 0x2007, 0x2008, 0x2009, 0x200A, 0x2028, 0x2029,
                           0x202F, 0x205F, 0x3000}
  {
  }

  predicate Blank(line: string) {
    forall i | 0 <= i < |line| :: IsSpace(line[i])
  }

  /** One more line before others: a blank one is left out, a malformed one spoils them all. */
  function WithLine(line: string, others: Option<seq<Members>>): Option<seq<Members>> {
    if Blank(line) then others
    else if ParseObject(line).None? || others.None? then None
    else Some([ParseObject(line).value] + others.value)
  }

  /** The objects on the lines that are not blank; None when one of them is malformed. */
  function Objects(lines: seq<string>): Option<seq<Members>> {
    if lines == [] then Some([]) else WithLine(lines[0], Objects(lines[1..]))
  }

  function Both(left: Option<seq<Members>>, right: Option<seq<Members>>): Option<seq<Members>> {
    if left.None? || right.None? then None else Some(left.value + right.value)
  }

  lemma WithLineBoth(line: string, left: Option<seq<Members>>, right: Option<seq<Members>>)
    ensures WithLine(line, Both(left, right)) == Both(WithLine(line, left), right)
  {
    if left.Some? && right.Some? && ParseObject(line).Some? {
      var head := [ParseObject(line).value];
      assert head + (left.value + right.value) == (head + left.value) + right.value;
    }
  }

  lemma {:induction false} ObjectsConcat(left: seq<string>, right: seq<string>)
    ensures Objects(left + right) == Both(Objects(left), Objects(right))
  {
    if left == [] {
      assert left + right == right;
      assert Objects(right).Some? ==> [] + Objects(right).value == Objects(right).value;
    } else {
      ObjectsConcat(left[1..], right);
      assert (left + right)[1..] == left[1..] + right;
      WithLineBoth(left[0], Objects(left[1..]), Objects(right));
    }
  }

  lemma ObjectsOfLineAnd(line: string, lines: seq<string>)
    ensures Objects([line] + lines) == WithLine(line, Objects(lines))
  {
    assert ([line] + lines)[1..] == lines;
  }

  lemma ObjectsOfOne(line: string)
    ensures Objects([line]) == WithLine(line, Some([]))
  {
    ObjectsOfLineAnd(line, []);
    assert [line] + [] == [line];
  }

  lemma SplitAt(lines: seq<string>, k: nat)
    requires k < |lines|
    ensures lines[..k + 1] == lines[..k] + [lines[k]]
    ensures lines == lines[..k + 1] + lines[k + 1..]
  {
  }

  /** Reading the lines from the first on: what line `k` adds, and that a malformed one is never made good. */
  lemma ObjectsOneMore(lines: seq<string>, k: nat)
    requires k < |lines|
    ensures Objects(lines[..k + 1]) == Both(Objects(lines[..k]), WithLine(lines[k], Some([])))
    ensures Objects(lines[..k + 1]).None? ==> Objects(lines).None?
  {
    SplitAt(lines, k);
    ObjectsOfOne(lines[k]);
    ObjectsConcat(lines[..k], [lines[k]]);
    ObjectsConcat(lines[..k + 1], lines[k + 1..]);
  }

  /** `if row.get("error")`. */
  predicate HasError(members: Members) {
    match Lookup(members, "error")
    case None => false
    case Some(Text(text)) => text != []
    case Some(Number(n)) => n != 0
    case Some(Null) => false
  }

  /** Truth of an error member: a nonempty text or a number other than zero. */
  lemma HasErrorIs(members: Members)
    ensures HasError(members) <==>
              || (exists text :: Lookup(members, "error") == Some(Text(text)) && |text| > 0)
              || (exists n :: Lookup(members, "error") == Some(Number(n)) && (n < 0 || n > 0))
  {
    var value := Lookup(members, "error");
    if value.Some? && value.value.Text? {
      assert value == Some(Text(value.value.text));
    } else if value.Some? && value.value.Number? {
      assert value == Some(Number(value.value.number));
    }
  }

  function Failures(objects: seq<Members>): (n: nat)
    ensures n <= |objects|
  {
    if objects == [] then 0
    else
      var last := |objects| - 1;
      Failures(objects[..last]) + (if HasError(objects[last]) then 1 else 0)
  }

  lemma FailuresMore(objects: seq<Members>, o: Members)
    ensures Failures(objects + [o]) == Failures(objects) + (if HasError(o) then 1 else 0)
  {
    assert (objects + [o])[..|objects|] == objects;
  }

  /** The tally's view of a file's text. */
  function FileObjects(text: string): Option<seq<Members>> {
    Objects(FileLines(Translated(text)))
  }

  const MALFORMED := "malformed line"

  /** The tally of the objects so far. */
  predicate Tallies(lines: seq<string>, k: nat, completed: nat, failures: nat)
    requires k <= |lines|
  {
    var objects := Objects(lines[..k]);
    objects.Some? && failures == Failures(objects.value) && completed == |objects.value| - failures
  }

  lemma TallyBlank(lines: seq<string>, k: nat, completed: nat, failures: nat)
    requires k < |lines| && Tallies(lines, k, completed, failures) && Blank(lines[k])
    ensures Tallies(lines, k + 1, completed, failures)
  {
    ObjectsOneMore(lines, k);
    assert Objects(lines[..k]).value + [] == Objects(lines[..k]).value;
  }

  lemma TallyMore(lines: seq<string>, k: nat, completed: nat, failures: nat)
    requires k < |lines| && Tallies(lines, k, completed, failures) && !Blank(lines[k])
    ensures ParseObject(lines[k]).None? ==> Objects(lines).None?
    ensures ParseObject(lines[k]).Some? ==>
              var failed := if HasError(ParseObject(lines[k]).value) then 1 else 0;
              Tallies(lines, k + 1, completed + 1 - failed, failures + failed)
  {
    ObjectsOneMore(lines, k);
    if ParseObject(lines[k]).Some? {
      FailuresMore(Objects(lines[..k]).value, ParseObject(lines[k]).value);
    }
  }

  /** The worker's tally over any text: it raises exactly if some line that is not blank is malformed. */
  method TallyText(text: string) returns (r: Result<(nat, nat), string>)
    ensures r.Err? <==> FileObjects(text).None?
    ensures r.Ok? ==> var objects := FileObjects(text).value;
                      r.value == (|objects| - Failures(objects), Failures(objects))
  {
    var completed, failures := 0, 0;
    var lines := FileLines(Translated(text));
    for k := 0 to |lines|
      invariant Tallies(lines, k, completed, failures)
    {
      if Blank(lines[k]) {
        TallyBlank(lines, k, completed, failures);
      } else {
        TallyMore(lines, k, completed, failures);
        var row := ParseObject(lines[k]);
        if row.None? {
          return Err(MALFORMED);
        }
        if HasError(row.value) {
          failures := failures + 1;
        } else {
          completed := completed + 1;
        }
      }
    }
    assert lines[..|lines|] == lines;
    r := Ok((completed, failures));
  }

  lemma TakeLine(lines: seq<string>, rest: string, all: seq<string>)
    requires rest != [] && lines + FileLines(rest) == all
    ensures (lines + [rest[..LineLength(rest)]]) + FileLines(rest[LineLength(rest)..]) == all
  {
  }

  /** Cutting a text into its lines, one at a time. */
  method CutLines(text: string) returns (lines: seq<string>)
    ensures lines == FileLines(text)
  {
    var rest := text;
    lines := [];
    ghost var all := FileLines(text);
    while rest != []
      invariant lines + FileLines(rest) == all
      decreases |rest|
    {
      TakeLine(lines, rest, all);
      var n := LineLength(rest);
      lines := lines + [rest[..n]];
      rest := rest[n..];
    }
  }

  /** The lines of a file, one at a time: lines indeed, and together the text as text mode reads it. */
  method IterLines(text: string) returns (lines: seq<string>)
    ensures lines == FileLines(Translated(text))
    ensures Joined(lines) == Translated(text) && AreLines(lines)
  {
    lines := CutLines(Translated(text));
    LinesJoin(Translated(text));
    FileLinesAreLines(Translated(text));
  }

  // ---- The client ----

  function TextOf(value: Option<Value>): Option<Option<string>> {
    match value
    case None => None
    case Some(Text(text)) => Some(Some(text))
    case Some(Number(_)) => None
    case Some(Null) => Some(None)
  }

  function OutOf(members: Members): Option<OutRow> {
    var id, prompt := TextOf(Lookup(members, "id")), TextOf(Lookup(members, "prompt"));
    var response, reason := TextOf(Lookup(members, "response")), TextOf(Lookup(members, "finish_reason"));
    var error := TextOf(Lookup(members, "error"));
    match (Lookup(members, "prompt_tokens"), Lookup(members, "completion_tokens"))
    case (Some(Number(p)), Some(Number(c))) =>
      if id.Some? && id.value.Some? && prompt.Some? && prompt.value.Some? && response.Some? && reason.Some? && error.Some?
      then Some(OutRow(id.value.value, prompt.value.value, response.value, reason.value, p, c, error.value))
      else None
    case _ => None
  }

  function OutRows(objects: seq<Members>): Option<seq<OutRow>> {
    if objects == [] then Some([])
    else if OutOf(objects[0]).None? || OutRows(objects[1..]).None? then None
    else Some([OutOf(objects[0]).value] + OutRows(objects[1..]).value)
  }

  /** What a client gets from a body that it cuts with `splitlines`, leaving out blank lines. */
  function ClientRows(body: string): Option<seq<OutRow>> {
    var objects := Objects(Lines(body));
    if objects.None? then None else OutRows(objects.value)
  }

  // ---- Round trip ----

  /** Seven members under seven keys are found under those keys. */
  lemma LookupSeven(a: Value, b: Value, c: Value, d: Value, e: Value, f: Value, g: Value)
    ensures var m := [("id", a), ("prompt", b), ("response", c), ("finish_reason", d), ("prompt_tokens", e),
                      ("completion_tokens", f), ("error", g)];
            && Lookup(m, "id") == Some(a) && Lookup(m, "prompt") == Some(b) && Lookup(m, "response") == Some(c)
            && Lookup(m, "finish_reason") == Some(d) && Lookup(m, "prompt_tokens") == Some(e)
            && Lookup(m, "completion_tokens") == Some(f) && Lookup(m, "error") == Some(g)
  {
    var m := [("id", a), ("prompt", b), ("response", c), ("finish_reason", d), ("prompt_tokens", e),
              ("completion_tokens", f), ("error", g)];
    LookupAt(m, 6);
    LookupAt(m, 5);
    LookupAt(m, 4);
    LookupAt(m, 3);
    LookupAt(m, 2);
    LookupAt(m, 1);
    LookupAt(m, 0);
  }

  /** A member is found under its key if no later one has that key. */
  lemma {:induction false} LookupAt(members: Members, k: nat)
    requires k < |members| && forall i | k < i < |members| :: members[i].0 != members[k].0
    ensures Lookup(members, members[k].0) == Some(members[k].1)
    decreases |members|
  {
    var last := |members| - 1;
    if k < last {
      LookupAt(members[..last], k);
    }
  }

  /** The seven members of a result line, by key. */
  lemma OutMembersAre(row: OutRow)
    ensures |OutMembers(row)| == 7
    ensures var m := OutMembers(row);
            && Lookup(m, "id") == Some(Text(row.id)) && Lookup(m, "prompt") == Some(Text(row.prompt))
            && Lookup(m, "response") == Some(if row.response.Some? then Text(row.response.value) else Null)
            && Lookup(m, "finish_reason") == Some(if row.finishReason.Some? then Text(row.finishReason.value) else Null)
            && Lookup(m, "prompt_tokens") == Some(Number(row.promptTokens))
            && Lookup(m, "completion_tokens") == Some(Number(row.completionTokens))
            && Lookup(m, "error") == Some(if row.error.Some? then Text(row.error.value) else Null)
  {
    LookupSeven(Text(row.id), Text(row.prompt), TextOrNull(row.response), TextOrNull(row.finishReason),
                Number(row.promptTokens), Number(row.completionTokens), TextOrNull(row.error));
  }

  lemma OutRoundTrip(row: OutRow)
    ensures OutOf(OutMembers(row)) == Some(row)
    ensures HasError(OutMembers(row)) <==> CountsAsFailed(row)
  {
    LookupSeven(Text(row.id), Text(row.prompt), TextOrNull(row.response), TextOrNull(row.finishReason),
                Number(row.promptTokens), Number(row.completionTokens), TextOrNull(row.error));
  }

  lemma {:induction false} OutRowsRoundTrip(rows: seq<OutRow>)
    ensures OutRows(ObjectsOf(rows)) == Some(rows)
  {
    if rows != [] {
      OutRoundTrip(rows[0]);
      OutRowsRoundTrip(rows[1..]);
      assert ObjectsOf(rows)[1..] == ObjectsOf(rows[1..]);
      assert rows == [rows[0]] + rows[1..];
    }
  }

  lemma {:induction false} FailuresOfRows(rows: seq<OutRow>)
    ensures Failures(ObjectsOf(rows)) == FailedCount(rows)
  {
    if rows != [] {
      var last := |rows| - 1;
      FailuresOfRows(rows[..last]);
      OutRoundTrip(rows[last]);
      assert ObjectsOf(rows)[..last] == ObjectsOf(rows[..last]);
      FailedCountConcat(rows[..last], [rows[last]]);
      assert rows == rows[..last] + [rows[last]];
    }
  }

  /** A line that holds an object, with or without its newline. */
  lemma OutLine(row: OutRow)
    ensures ParseObject(EncodeOut(row)) == Some(OutMembers(row))
    ensures ParseObject(EncodeOut(row) + ['\n']) == Some(OutMembers(row))
    ensures !Blank(EncodeOut(row)) && !Blank(EncodeOut(row) + ['\n'])
  {
    ObjectRoundTrip(OutMembers(row), []);
    ObjectRoundTrip(OutMembers(row), ['\n']);
    ObjectThen(OutMembers(row), ['\n']);
    assert EncodeOut(row)[0] == '{' && (EncodeOut(row) + ['\n'])[0] == '{';
  }

  lemma {:induction false} TranslatedLine(line: string, rest: string)
    requires forall c | c in line :: !IsLineBoundary(c)
    ensures Translated(line + ['\n'] + rest) == line + ['\n'] + Translated(rest)
  {
    if line == [] {
      assert line + ['\n'] + rest == ['\n'] + rest;
    } else {
      assert line[0] in line;
      TranslatedLine(line[1..], rest);
      assert (line + ['\n'] + rest)[1..] == line[1..] + ['\n'] + rest;
    }
  }

  lemma {:induction false} FirstLine(line: string, rest: string)
    requires forall c | c in line :: !IsLineBoundary(c)
    ensures LineLength(line + ['\n'] + rest) == |line| + 1
  {
    if line != [] {
      assert line[0] in line;
      FirstLine(line[1..], rest);
      assert (line + ['\n'] + rest)[1..] == line[1..] + ['\n'] + rest;
    }
  }

  lemma FileLinesOfFirst(line: string, rest: string)
    requires forall c | c in line :: !IsLineBoundary(c)
    ensures FileLines(line + ['\n'] + rest) == [line + ['\n']] + FileLines(rest)
  {
    var text := line + ['\n'] + rest;
    FirstLine(line, rest);
    assert text[..|line| + 1] == line + ['\n'] && text[|line| + 1..] == rest;
  }

  lemma ObjectsOfMore(rows: seq<OutRow>)
    requires rows != []
    ensures ObjectsOf(rows) == [OutMembers(rows[0])] + ObjectsOf(rows[1..])
  {
  }

  lemma ObjectsOfFirst(rows: seq<OutRow>, line: string, lines: seq<string>)
    requires rows != [] && ParseObject(line) == Some(OutMembers(rows[0])) && !Blank(line)
    requires Objects(lines) == Some(ObjectsOf(rows[1..]))
    ensures Objects([line] + lines) == Some(ObjectsOf(rows))
  {
    ObjectsOfLineAnd(line, lines);
    ObjectsOfMore(rows);
  }

  /** The encoded file survives text mode. */
  lemma {:induction false} ResultsTranslated(rows: seq<OutRow>)
    ensures Translated(EncodeResults(rows)) == EncodeResults(rows)
  {
    if rows != [] {
      ResultsTranslated(rows[1..]);
      EncodedObjectIsOneLine(OutMembers(rows[0]));
      TranslatedLine(EncodeOut(rows[0]), EncodeResults(rows[1..]));
    }
  }

  /** The worker finds the objects on its lines. */
  lemma {:induction false} ResultsFileLines(rows: seq<OutRow>)
    ensures Objects(FileLines(EncodeResults(rows))) == Some(ObjectsOf(rows))
    ensures |FileLines(EncodeResults(rows))| == |rows|
  {
    if rows != [] {
      var line, rest := EncodeOut(rows[0]), EncodeResults(rows[1..]);
      ResultsFileLines(rows[1..]);
      OutLine(rows[0]);
      EncodedObjectIsOneLine(OutMembers(rows[0]));
      FileLinesOfFirst(line, rest);
      ObjectsOfFirst(rows, line + ['\n'], FileLines(rest));
    }
  }

  /** A client finds them on the lines that `splitlines` gives. */
  lemma {:induction false} ResultsLines(rows: seq<OutRow>)
    ensures Objects(Lines(EncodeResults(rows))) == Some(ObjectsOf(rows))
  {
    if rows != [] {
      var line, rest := EncodeOut(rows[0]), EncodeResults(rows[1..]);
      ResultsLines(rows[1..]);
      OutLine(rows[0]);
      EncodedObjectIsOneLine(OutMembers(rows[0]));
      LinesOfFirst(line, rest);
      ObjectsOfFirst(rows, line, Lines(rest));
    }
  }

  /** From rows to text to what each reader makes of it: a client gets the rows back, and the tally of
      the text is the count of the rows. */
  lemma ResultsRoundTrip(rows: seq<OutRow>)
    ensures Translated(EncodeResults(rows)) == EncodeResults(rows)
    ensures ClientRows(EncodeResults(rows)) == Some(rows)
    ensures FileObjects(EncodeResults(rows)).Some?
    ensures var objects := FileObjects(EncodeResults(rows)).value;
            |objects| == |rows| && Failures(objects) == FailedCount(rows)
    ensures |FileLines(EncodeResults(rows))| == |rows|
  {
    ResultsTranslated(rows);
    ResultsFileLines(rows);
    ResultsLines(rows);
    OutRowsRoundTrip(rows);
    FailuresOfRows(rows);
  }

  /** The tally of a results file. */
  method TallyFile(rows: seq<OutRow>) returns (completed: nat, failures: nat)
    ensures completed == CompletedCount(rows) && failures == FailedCount(rows)
  {
    ResultsRoundTrip(rows);
    var counts := TallyText(EncodeResults(rows));
    completed, failures := counts.value.0, counts.value.1;
  }
}
