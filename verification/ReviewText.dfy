/** The unified diff text of a captured review: printing it, and parsing it back. */
module ReviewText {
  import opened Text
  import opened Regions
  import opened Matcher
  import opened Review

  const MAX_ROWS := 0x10_0000

  const MAX_POSITION := 0x4000_0000

  datatype ReviewFile = ReviewFile(
    beforePath: string, afterPath: string, diff: string,
    incomplete: string, directory: bool, binary: bool)

  // Quoting a path belongs to the standard library; its result stays on one line.
  type Quote = string -> string

  ghost predicate Quotes(quote: Quote) { forall s :: '\n' !in quote(s) }

  function Action(file: ReviewFile): string
  {
    if file.beforePath == "" then "add"
    else if file.afterPath == "" then "delete"
    else if file.beforePath != file.afterPath then "move"
    else "update"
  }

  function ReviewPath(quote: Quote, path: string): string
  {
    if path == "" then "/dev/null" else quote(path)
  }

  function OperationLine(file: ReviewFile, quote: Quote): string
  {
    Action(file) + " " + quote(file.beforePath) + " -> " + quote(file.afterPath) + "\n"
  }

  function HeaderLines(file: ReviewFile, quote: Quote): seq<string>
  {
    ["--- " + ReviewPath(quote, file.beforePath) + "\n", "+++ " + ReviewPath(quote, file.afterPath) + "\n"]
  }

  // The diff without its operation line, when the header says as much.
  function UnifiedDiff(file: ReviewFile, quote: Quote): string
  {
    var (_, rest, ok) := Cut(file.diff, '\n');
    if ok && Join(HeaderLines(file, quote)) <= rest then rest else file.diff
  }

  // ----- Printing

  function ReviewRange(start: int, end: int): string
  {
    if start == end then Itoa(start) + ",0" else Itoa(start + 1) + "," + Itoa(end - start)
  }

  function Marker(): string { "\\ No newline at end of file\n" }

  // A row, and the marker that it lacks its newline.
  function PrintRow(row: Row): seq<string>
  {
    if EndsLine(row.text) then [[row.kind] + row.text] else [[row.kind] + row.text + "\n", Marker()]
  }

  function PrintRows(rows: seq<Row>): seq<string>
  {
    if rows == [] then [] else PrintRow(rows[0]) + PrintRows(rows[1..])
  }

  // A hunk header's ranges on both sides.
  function RangeLine(i1: int, i2: int, j1: int, j2: int): string
  {
    Spaced(["@@", ['-'] + ReviewRange(i1, i2), ['+'] + ReviewRange(j1, j2), "@@"])
  }

  function HunkLine(h: Hunk): string
  {
    var r := HunkRegion(h);
    RangeLine(r.beforeStart, r.BeforeEnd(), r.afterStart, r.AfterEnd())
  }

  function PrintHunks(hunks: seq<Hunk>): seq<string>
  {
    if hunks == [] then [] else [HunkLine(hunks[0])] + PrintRows(hunks[0].rows) + PrintHunks(hunks[1..])
  }

  // ----- Parsing

  datatype ParseError = BadHeader | BadRange | BadCoordinates | BadMarker | BadRow | TooManyRows | BadCounts

  function ParseReviewRange(text: string, prefix: char): Option<(int, int)>
  {
    if |text| < 2 || text[0] != prefix then None
    else
      var (startText, countText, explicit) := Cut(text[1..], ',');
      match Atoi(startText)
      case None => None
      case Some(start) =>
        if start < 0 || start > MAX_POSITION then None
        else if !explicit then (if start == 0 then None else Some((start - 1, 1)))
        else
          match Atoi(countText)
          case None => None
          case Some(count) =>
            if count < 0 || count > MAX_ROWS then None
            else if count == 0 then Some((start, 0))
            else if start == 0 then None
            else Some((start - 1, count))
  }

  // The old and new ranges of a hunk header.
  function ParseHeader(line: string): Result<((int, int), (int, int)), ParseError>
  {
    var fields := Fields(line);
    if |fields| != 4 || fields[0] != "@@" || fields[3] != "@@" then Err(BadHeader)
    else match (ParseReviewRange(fields[1], '-'), ParseReviewRange(fields[2], '+'))
      case (Some(o), Some(n)) => Ok((o, n))
      case _ => Err(BadRange)
  }

  predicate IsHunkLine(line: string) { "@@ " <= line }

  function WithoutNewline(row: Row): Row
    requires EndsLine(row.text)
  {
    row.(text := row.text[..|row.text| - 1])
  }

  /** The rows up to the next hunk header or the end, and the lines that follow. */
  function ParseBody(lines: seq<string>, body: seq<Row>, rowCount: nat): Result<(seq<Row>, seq<string>), ParseError>
    ensures var r := ParseBody(lines, body, rowCount); r.Ok? ==> |r.value.1| <= |lines|
    decreases |lines|
  {
    if lines == [] || IsHunkLine(lines[0]) then Ok((body, lines))
    else
      var text, rest := lines[0], lines[1..];
      if text == "" && rest == [] then Ok((body, rest))
      else if text == Marker() then
        if body == [] || !EndsLine(body[|body| - 1].text) then Err(BadMarker)
        else
          ParseBody(rest, body[..|body| - 1] + [WithoutNewline(body[|body| - 1])], rowCount)
      else if text == "" || !IsKind(text[0]) then Err(BadRow)
      else if rowCount + 1 > MAX_ROWS then Err(TooManyRows)
      else ParseBody(rest, body + [Row(text[0], text[1..])], rowCount + 1)
  }

  // How far the first changed row is from the start of the rows, or zero.
  function FirstChange(rows: seq<Row>): nat
  {
    if forall k :: 0 <= k < |rows| ==> rows[k].kind == ' ' then 0 else LeadingContext(rows)
  }

  function LeadingContext(rows: seq<Row>): (n: nat)
    ensures n <= |rows| && (forall k :: 0 <= k < n ==> rows[k].kind == ' ') && (n < |rows| ==> rows[n].kind != ' ')
  {
    if rows == [] || rows[0].kind != ' ' then 0 else 1 + LeadingContext(rows[1..])
  }

  // What the parser carries from one hunk to the next.
  datatype Progress = Progress(oldEnd: int, newEnd: int, shift: int, rows: nat)

  /** One hunk, and the progress behind it. */
  function ParseHunk(header: string, body: seq<Row>, complete: bool, at: Progress): Result<(Hunk, Progress), ParseError>
  {
    match ParseHeader(header)
    case Err(e) => Err(e)
    case Ok(((oldStart, oldCount), (newStart, newCount))) =>
      if |OldSide(body)| != oldCount || |NewSide(body)| != newCount then Err(BadCounts)
      else Ok((Hunk(oldStart, newStart, newStart + FirstChange(body), body),
               Progress(oldStart + oldCount, newStart + newCount, at.shift + newCount - oldCount, at.rows + |body|)))
  }

  // Whether a header may follow the hunks read so far.
  function CheckHeader(header: string, complete: bool, at: Progress): Option<ParseError>
  {
    match ParseHeader(header)
    case Err(e) => Some(e)
    case Ok(((oldStart, _), (newStart, _))) =>
      if oldStart < at.oldEnd || newStart < at.newEnd || (complete && newStart != oldStart + at.shift) then Some(BadCoordinates) else None
  }

  // The hunk at the start of the lines, the progress behind it, and the lines that follow it.
  function ParseOne(lines: seq<string>, complete: bool, at: Progress): (r: Result<(Hunk, Progress, seq<string>), ParseError>)
    requires lines != []
    ensures r.Ok? ==> |r.value.2| < |lines|
  {
    match CheckHeader(lines[0], complete, at)
    case Some(e) => Err(e)
    case None =>
      match ParseBody(lines[1..], [], at.rows)
      case Err(e) => Err(e)
      case Ok((body, rest)) =>
        match ParseHunk(lines[0], body, complete, at)
        case Err(e) => Err(e)
        case Ok((hunk, next)) => Ok((hunk, next, rest))
  }

  function ParseFrom(lines: seq<string>, complete: bool, at: Progress): Result<seq<Hunk>, ParseError>
    decreases |lines|
  {
    if lines == [] then Ok([])
    else if !IsHunkLine(lines[0]) then ParseFrom(lines[1..], complete, at)
    else match ParseOne(lines, complete, at)
      case Err(e) => Err(e)
      case Ok((hunk, next, rest)) => Prepend([hunk], ParseFrom(rest, complete, next))
  }

  function Prepend(hunks: seq<Hunk>, r: Result<seq<Hunk>, ParseError>): Result<seq<Hunk>, ParseError>
  {
    if r.Ok? then Ok(hunks + r.value) else r
  }

  function ParseHunks(file: ReviewFile, quote: Quote, complete: bool): Result<seq<Hunk>, ParseError>
  {
    ParseFrom(SplitAfter(UnifiedDiff(file, quote)), complete, Progress(0, 0, 0, 0))
  }

  // ----- The parser

  /** Reads the rows from line `start` up to the next hunk header or the end. */
  method ReadBody(lines: seq<string>, start: nat, rows: nat) returns (r: Result<(seq<Row>, nat), ParseError>)
    requires start <= |lines|
    ensures var p := ParseBody(lines[start..], [], rows);
            if r.Ok? then start <= r.value.1 <= |lines| && p == Ok((r.value.0, lines[r.value.1..])) else p == Err(r.error)
  {
    hide *;
    var i := start;
    var body: seq<Row> := [];
    var rowCount: nat := rows;
    while i < |lines| && !IsHunkLine(lines[i])
      invariant start <= i <= |lines|
      invariant ParseBody(lines[start..], [], rows) == ParseBody(lines[i..], body, rowCount)
    {
      var text := lines[i];
      BodyStep(lines[i..], body, rowCount);
      assert lines[i..][0] == text && lines[i..][1..] == lines[i + 1..];
      i := i + 1;
      if text == "" && i == |lines| {
        return Ok((body, i));
      }
      if text == Marker() {
        if body == [] || !EndsLine(body[|body| - 1].text) {
          return Err(BadMarker);
        }
        body := body[..|body| - 1] + [WithoutNewline(body[|body| - 1])];
        continue;
      }
      if text == "" || !IsKind(text[0]) {
        return Err(BadRow);
      }
      body := body + [Row(text[0], text[1..])];
      rowCount := rowCount + 1;
      if rowCount > MAX_ROWS {
        return Err(TooManyRows);
      }
    }
    BodyStop(lines[i..], body, rowCount);
    r := Ok((body, i));
  }

  lemma BodyStep(lines: seq<string>, body: seq<Row>, rowCount: nat)
    requires lines != [] && !IsHunkLine(lines[0])
    ensures var text, rest := lines[0], lines[1..];
            ParseBody(lines, body, rowCount) ==
            if text == "" && rest == [] then Ok((body, rest))
            else if text == Marker() then
              if body == [] || !EndsLine(body[|body| - 1].text) then Err(BadMarker)
              else ParseBody(rest, body[..|body| - 1] + [WithoutNewline(body[|body| - 1])], rowCount)
            else if text == "" || !IsKind(text[0]) then Err(BadRow)
            else if rowCount + 1 > MAX_ROWS then Err(TooManyRows)
            else ParseBody(rest, body + [Row(text[0], text[1..])], rowCount + 1)
  {
    hide Marker, IsHunkLine;
  }

  lemma BodyStop(lines: seq<string>, body: seq<Row>, rowCount: nat)
    requires lines == [] || IsHunkLine(lines[0])
    ensures ParseBody(lines, body, rowCount) == Ok((body, lines))
  {
  }

  /** Reads a captured review back into hunks, or says what is wrong with it. */
  method ParseReviewHunks(file: ReviewFile, quote: Quote, complete: bool) returns (r: Result<seq<Hunk>, ParseError>)
    ensures r == ParseHunks(file, quote, complete)
    ensures r.Ok? ==> Ordered(r.value, complete)
  {
    ParsedOrdered(file, quote, complete);
    hide *;
    var lines := SplitAfter(UnifiedDiff(file, quote));
    var hunks: seq<Hunk> := [];
    var at := Progress(0, 0, 0, 0);
    var i := 0;
    ParseStart(file, quote, complete);
    while i < |lines|
      invariant 0 <= i <= |lines|
      invariant ParseHunks(file, quote, complete) == Prepend(hunks, ParseFrom(lines[i..], complete, at))
    {
      var line := lines[i];
      assert lines[i..][0] == line && lines[i..][1..] == lines[i + 1..];
      LineStep(lines[i..], complete, at, hunks);
      OneStep(lines[i..], complete, at);
      i := i + 1;
      if !IsHunkLine(line) {
        continue;
      }
      var wrong := CheckHeader(line, complete, at);
      if wrong.Some? {
        return Err(wrong.value);
      }
      var body := ReadBody(lines, i, at.rows);
      if body.Err? {
        return Err(body.error);
      }
      var parsed := ParseHunk(line, body.value.0, complete, at);
      if parsed.Err? {
        return Err(parsed.error);
      }
      hunks, at := hunks + [parsed.value.0], parsed.value.1;
      i := body.value.1;
    }
    ParseEnd(lines[i..], complete, at, hunks);
    r := Ok(hunks);
  }

  lemma ParseStart(file: ReviewFile, quote: Quote, complete: bool)
    ensures var lines := SplitAfter(UnifiedDiff(file, quote));
            ParseHunks(file, quote, complete) == Prepend([], ParseFrom(lines[0..], complete, Progress(0, 0, 0, 0)))
  {
    var lines := SplitAfter(UnifiedDiff(file, quote));
    assert lines[0..] == lines;
    hide ParseFrom, SplitAfter, UnifiedDiff;
    var r := ParseFrom(lines, complete, Progress(0, 0, 0, 0));
    assert r.Ok? ==> [] + r.value == r.value;
  }

  lemma ParseEnd(lines: seq<string>, complete: bool, at: Progress, hunks: seq<Hunk>)
    requires lines == []
    ensures Prepend(hunks, ParseFrom(lines, complete, at)) == Ok(hunks)
  {
    assert hunks + [] == hunks;
  }

  lemma LineStep(lines: seq<string>, complete: bool, at: Progress, hunks: seq<Hunk>)
    requires lines != []
    ensures var p := Prepend(hunks, ParseFrom(lines, complete, at));
            if !IsHunkLine(lines[0]) then p == Prepend(hunks, ParseFrom(lines[1..], complete, at))
            else
              var one := ParseOne(lines, complete, at);
              if one.Err? then p == Err(one.error)
              else p == Prepend(hunks + [one.value.0], ParseFrom(one.value.2, complete, one.value.1))
  {
    hide ParseOne, IsHunkLine;
    if IsHunkLine(lines[0]) && ParseOne(lines, complete, at).Ok? {
      var (hunk, next, rest) := ParseOne(lines, complete, at).value;
      var tail := ParseFrom(rest, complete, next);
      assert tail.Ok? ==> hunks + ([hunk] + tail.value) == hunks + [hunk] + tail.value;
    }
  }

  lemma OneStep(lines: seq<string>, complete: bool, at: Progress)
    requires lines != []
    ensures var one, wrong, body := ParseOne(lines, complete, at), CheckHeader(lines[0], complete, at), ParseBody(lines[1..], [], at.rows);
            && (wrong.Some? ==> one == Err(wrong.value))
            && (wrong.None? && body.Err? ==> one == Err(body.error))
            && (wrong.None? && body.Ok? ==>
                  var parsed := ParseHunk(lines[0], body.value.0, complete, at);
                  one == if parsed.Err? then Err(parsed.error) else Ok((parsed.value.0, parsed.value.1, body.value.1)))
  {
    hide CheckHeader, ParseBody, ParseHunk;
  }

  // ----- What parsing promises

  // Hunks that may follow the given progress: in order, and explained by the shift so far.
  ghost predicate Follows(hunks: seq<Hunk>, complete: bool, at: Progress)
  {
    && (forall k :: 0 <= k < |hunks| ==> at.oldEnd <= hunks[k].beforeStart && at.newEnd <= hunks[k].afterStart && ValidKinds(hunks[k].rows))
    && (forall k, l :: 0 <= k < l < |hunks| ==>
          && HunkRegion(hunks[k]).BeforeEnd() <= hunks[l].beforeStart
          && HunkRegion(hunks[k]).AfterEnd() <= hunks[l].afterStart)
    && (complete ==> forall k :: 0 <= k < |hunks| ==> hunks[k].afterStart == hunks[k].beforeStart + at.shift + Growth(HunkRegions(hunks)[..k]))
  }

  lemma {:induction false} BodyKinds(lines: seq<string>, body: seq<Row>, rowCount: nat)
    requires ValidKinds(body)
    ensures var r := ParseBody(lines, body, rowCount); r.Ok? ==> ValidKinds(r.value.0)
    decreases |lines|
  {
    hide Marker;
    if lines != [] && !IsHunkLine(lines[0]) {
      var text, rest := lines[0], lines[1..];
      if text == Marker() && body != [] && EndsLine(body[|body| - 1].text) {
        BodyKinds(rest, body[..|body| - 1] + [WithoutNewline(body[|body| - 1])], rowCount);
      } else if text != "" && IsKind(text[0]) && rowCount + 1 <= MAX_ROWS {
        BodyKinds(rest, body + [Row(text[0], text[1..])], rowCount + 1);
      }
    }
  }

  /** Whatever text is parsed, the hunks come out in order and do not overlap on either side;
      for a complete capture, every shift between the sides is explained by earlier hunks. */
  lemma {:induction false} ParseFollows(lines: seq<string>, complete: bool, at: Progress)
    ensures var r := ParseFrom(lines, complete, at); r.Ok? ==> Follows(r.value, complete, at)
    decreases |lines|
  {
    if lines != [] {
      if !IsHunkLine(lines[0]) {
        ParseFollows(lines[1..], complete, at);
      } else if ParseOne(lines, complete, at).Ok? {
        var (hunk, next, rest) := ParseOne(lines, complete, at).value;
        BodyKinds(lines[1..], [], at.rows);
        if ParseFrom(rest, complete, next).Ok? {
          ParseFollows(rest, complete, next);
          FollowsNext(hunk, ParseFrom(rest, complete, next).value, complete, at, next);
        }
      }
    }
  }

  lemma FollowsNext(hunk: Hunk, hunks: seq<Hunk>, complete: bool, at: Progress, next: Progress)
    requires Follows(hunks, complete, next) && ValidKinds(hunk.rows)
    requires at.oldEnd <= hunk.beforeStart && at.newEnd <= hunk.afterStart
    requires next.oldEnd == HunkRegion(hunk).BeforeEnd() && next.newEnd == HunkRegion(hunk).AfterEnd()
    requires next.shift == at.shift + |NewSide(hunk.rows)| - |OldSide(hunk.rows)|
    requires complete ==> hunk.afterStart == hunk.beforeStart + at.shift
    ensures Follows([hunk] + hunks, complete, at)
  {
    hide OldSide, NewSide;
    var all := [hunk] + hunks;
    forall k | 0 <= k < |all| ensures HunkRegions(all)[..k] == if k == 0 then [] else [HunkRegion(hunk)] + HunkRegions(hunks)[..k - 1] {}
    forall k | complete && 0 <= k < |all| ensures all[k].afterStart == all[k].beforeStart + at.shift + Growth(HunkRegions(all)[..k]) {
      if k > 0 {
        var head, tail := HunkRegion(hunk), HunkRegions(hunks)[..k - 1];
        assert all[k] == hunks[k - 1];
        assert ([head] + tail)[0] == head && ([head] + tail)[1..] == tail;
      }
    }
  }

  lemma ParsedOrdered(file: ReviewFile, quote: Quote, complete: bool)
    ensures var r := ParseHunks(file, quote, complete); r.Ok? ==> Ordered(r.value, complete)
  {
    ParseFollows(SplitAfter(UnifiedDiff(file, quote)), complete, Progress(0, 0, 0, 0));
  }

  // ----- Printing and parsing are inverse

  predicate Printable(rows: seq<Row>)
  {
    forall k :: 0 <= k < |rows| ==> IsKind(rows[k].kind) && OneLine(rows[k].text)
  }

  // Where a body ends: at the end of the text, or at the next hunk.
  predicate BodyEnds(rest: seq<string>)
  {
    rest == [""] || (rest != [] && IsHunkLine(rest[0]))
  }

  lemma MarkerFacts()
    ensures FullLine(Marker()) && Marker()[0] == '\\'
  {
  }

  lemma NotHunkLine(line: string)
    requires line == "" || line[0] != '@'
    ensures !IsHunkLine(line)
  {
  }

  lemma ParseMarker(body: seq<Row>, row: Row, rest: seq<string>, rowCount: nat)
    requires rest != []
    ensures ParseBody([Marker()] + rest, body + [row.(text := row.text + "\n")], rowCount) == ParseBody(rest, body + [row], rowCount)
  {
    var lines, open := [Marker()] + rest, body + [row.(text := row.text + "\n")];
    MarkerFacts();
    NotHunkLine(Marker());
    hide Marker, IsHunkLine;
    assert lines[0] == Marker() && lines[1..] == rest;
    assert open[..|open| - 1] == body;
    assert (row.text + "\n")[..|row.text + "\n"| - 1] == row.text;
  }

  lemma ParseRowLine(kind: char, text: string, rest: seq<string>, body: seq<Row>, rowCount: nat)
    requires IsKind(kind) && rowCount + 1 <= MAX_ROWS
    ensures ParseBody([[kind] + text] + rest, body, rowCount) == ParseBody(rest, body + [Row(kind, text)], rowCount + 1)
  {
    var lines := [[kind] + text] + rest;
    MarkerFacts();
    NotHunkLine([kind] + text);
    hide Marker, IsHunkLine;
    assert lines[0] == [kind] + text && lines[1..] == rest && lines[0][0] == kind && lines[0][1..] == text;
  }

  lemma ParsePrintedRow(row: Row, rest: seq<string>, body: seq<Row>, rowCount: nat)
    requires IsKind(row.kind) && rowCount + 1 <= MAX_ROWS && rest != []
    ensures ParseBody(PrintRow(row) + rest, body, rowCount) == ParseBody(rest, body + [row], rowCount + 1)
  {
    hide Marker, ParseBody;
    if EndsLine(row.text) {
      ParseRowLine(row.kind, row.text, rest, body, rowCount);
    } else {
      assert PrintRow(row) + rest == [[row.kind] + (row.text + "\n")] + ([Marker()] + rest) by {
        assert [row.kind] + row.text + "\n" == [row.kind] + (row.text + "\n");
      }
      ParseRowLine(row.kind, row.text + "\n", [Marker()] + rest, body, rowCount);
      ParseMarker(body, row, rest, rowCount + 1);
    }
  }

  lemma {:induction false} ParsePrintedRows(rows: seq<Row>, rest: seq<string>, body: seq<Row>, rowCount: nat)
    requires Printable(rows) && rowCount + |rows| <= MAX_ROWS && rest != []
    ensures ParseBody(PrintRows(rows) + rest, body, rowCount) == ParseBody(rest, body + rows, rowCount + |rows|)
  {
    hide *;
    PrintableRows(rows, rest);
    if rows == [] {
      assert body + rows == body;
    } else {
      ParsePrintedRow(rows[0], PrintRows(rows[1..]) + rest, body, rowCount);
      ParsePrintedRows(rows[1..], rest, body + [rows[0]], rowCount + 1);
      assert body + [rows[0]] + rows[1..] == body + rows;
    }
  }

  // More rows than the format holds are refused.
  lemma {:induction false} RowsRefused(rows: seq<Row>, rest: seq<string>, body: seq<Row>, rowCount: nat)
    requires Printable(rows) && rowCount <= MAX_ROWS < rowCount + |rows| && rest != []
    ensures ParseBody(PrintRows(rows) + rest, body, rowCount).Err?
  {
    hide *;
    PrintableRows(rows, rest);
    if rowCount == MAX_ROWS {
      RowRefused(rows[0], PrintRows(rows[1..]) + rest, body, rowCount);
    } else {
      ParsePrintedRow(rows[0], PrintRows(rows[1..]) + rest, body, rowCount);
      RowsRefused(rows[1..], rest, body + [rows[0]], rowCount + 1);
    }
  }

  lemma RowRefused(row: Row, rest: seq<string>, body: seq<Row>, rowCount: nat)
    requires IsKind(row.kind) && rowCount == MAX_ROWS
    ensures ParseBody(PrintRow(row) + rest, body, rowCount).Err?
  {
    var lines := PrintRow(row) + rest;
    MarkerFacts();
    NotHunkLine(lines[0]);
    hide Marker, IsHunkLine;
    assert lines[0][0] == row.kind;
  }

  lemma PrintableRows(rows: seq<Row>, rest: seq<string>)
    requires Printable(rows)
    ensures rows == [] ==> PrintRows(rows) + rest == rest
    ensures rows != [] ==>
              && IsKind(rows[0].kind) && Printable(rows[1..])
              && PrintRows(rows) + rest == PrintRow(rows[0]) + (PrintRows(rows[1..]) + rest)
  {
    hide OneLine, PrintRow;
  }

  // Ranges the format can hold.
  predicate Representable(start: int, count: nat)
  {
    0 <= start && count <= MAX_ROWS && (if count == 0 then start else start + 1) <= MAX_POSITION
  }

  lemma RangeToken(start: nat, count: nat, prefix: char)
    requires prefix == '-' || prefix == '+'
    ensures Token([prefix] + ReviewRange(start, start + count))
  {
    var s := [prefix] + ReviewRange(start, start + count);
    forall k | 0 <= k < |s| ensures s[k] == prefix || s[k] == ',' || '0' <= s[k] <= '9' {}
  }

  /** A printed range reads back, exactly if the format can hold it. */
  lemma RangeRoundTrip(start: nat, count: nat, prefix: char)
    ensures ParseReviewRange([prefix] + ReviewRange(start, start + count), prefix) == if Representable(start, count) then Some((start, count)) else None
  {
    var text := [prefix] + ReviewRange(start, start + count);
    var first, second := Itoa(if count == 0 then start else start + 1), Itoa(count);
    assert second == "0" || count > 0;
    assert text[1..] == first + [','] + second;
    assert forall k :: 0 <= k < |first| ==> first[k] != ',';
    CutAt(first, ',', second);
    AtoiRoundTrip(if count == 0 then start else start + 1);
    AtoiRoundTrip(count);
  }

  predicate HunkRepresentable(h: Hunk)
  {
    Representable(h.beforeStart, |OldSide(h.rows)|) && Representable(h.afterStart, |NewSide(h.rows)|)
  }

  lemma ParseFields(line: string, a: string, b: string)
    requires Fields(line) == ["@@", a, b, "@@"]
    ensures ParseHeader(line) == match (ParseReviewRange(a, '-'), ParseReviewRange(b, '+'))
                                 case (Some(o), Some(n)) => Ok((o, n))
                                 case _ => Err(BadRange)
  {
    hide Fields, ParseReviewRange;
  }

  lemma SpacedHunkLine(words: seq<string>)
    requires |words| > 1 && words[0] == "@@"
    ensures IsHunkLine(Spaced(words))
  {
    var rest := Spaced(words[1..]);
    hide Spaced;
    assert "@@ " <= "@@" + [' '] + rest;
  }

  lemma HeaderRoundTrip(h: Hunk)
    requires 0 <= h.beforeStart && 0 <= h.afterStart
    ensures IsHunkLine(HunkLine(h))
    ensures if HunkRepresentable(h) then ParseHeader(HunkLine(h)) == Ok(((h.beforeStart, |OldSide(h.rows)|), (h.afterStart, |NewSide(h.rows)|)))
            else ParseHeader(HunkLine(h)).Err?
  {
    hide *;
    var o, n := |OldSide(h.rows)|, |NewSide(h.rows)|;
    var a, b := ['-'] + ReviewRange(h.beforeStart, h.beforeStart + o), ['+'] + ReviewRange(h.afterStart, h.afterStart + n);
    HunkLineWords(h);
    RangeToken(h.beforeStart, o, '-');
    RangeToken(h.afterStart, n, '+');
    RangeRoundTrip(h.beforeStart, o, '-');
    RangeRoundTrip(h.afterStart, n, '+');
    HeaderWords(a, b);
    ParseFields(HunkLine(h), a, b);
  }

  lemma HunkLineWords(h: Hunk)
    requires 0 <= h.beforeStart && 0 <= h.afterStart
    ensures var o, n := |OldSide(h.rows)|, |NewSide(h.rows)|;
            && HunkLine(h) == Spaced(["@@", ['-'] + ReviewRange(h.beforeStart, h.beforeStart + o), ['+'] + ReviewRange(h.afterStart, h.afterStart + n), "@@"])
            && (HunkRepresentable(h) <==> Representable(h.beforeStart, o) && Representable(h.afterStart, n))
  {
    hide Spaced, ReviewRange, OldSide, NewSide;
  }

  lemma HeaderWords(a: string, b: string)
    requires Token(a) && Token(b)
    ensures Fields(Spaced(["@@", a, b, "@@"])) == ["@@", a, b, "@@"]
    ensures IsHunkLine(Spaced(["@@", a, b, "@@"]))
  {
    var words := ["@@", a, b, "@@"];
    assert Token("@@");
    hide Spaced, Fields, IsHunkLine, Token;
    FieldsSpaced(words);
    SpacedHunkLine(words);
  }

  function TotalRows(hunks: seq<Hunk>): nat
  {
    if hunks == [] then 0 else |hunks[0].rows| + TotalRows(hunks[1..])
  }

  // Hunks whose rows the format can print without losing anything.
  ghost predicate Plain(hunks: seq<Hunk>)
  {
    forall k :: 0 <= k < |hunks| ==>
      && Printable(hunks[k].rows) && 0 <= hunks[k].beforeStart && 0 <= hunks[k].afterStart
      && hunks[k].changedStart == hunks[k].afterStart + FirstChange(hunks[k].rows)
  }

  // The format's limits: positions, hunk lengths and the number of rows, of which n are there already.
  ghost predicate FitsBehind(hunks: seq<Hunk>, n: nat)
  {
    (forall k :: 0 <= k < |hunks| ==> HunkRepresentable(hunks[k])) && n + TotalRows(hunks) <= MAX_ROWS
  }

  ghost predicate FitsFormat(hunks: seq<Hunk>) { FitsBehind(hunks, 0) }

  function After(h: Hunk, at: Progress): Progress
  {
    Progress(HunkRegion(h).BeforeEnd(), HunkRegion(h).AfterEnd(), at.shift + |NewSide(h.rows)| - |OldSide(h.rows)|, at.rows + |h.rows|)
  }

  lemma GrowthTail(hunks: seq<Hunk>, k: nat)
    requires k < |hunks|
    ensures Growth(HunkRegions(hunks)[..k + 1]) == |NewSide(hunks[0].rows)| - |OldSide(hunks[0].rows)| + Growth(HunkRegions(hunks[1..])[..k])
  {
    hide OldSide, NewSide;
    var rs, rs' := HunkRegions(hunks), HunkRegions(hunks[1..]);
    assert rs[..k + 1] == [rs[0]] + rs'[..k];
    GrowthCons(rs[0], rs'[..k]);
  }

  lemma FollowsTail(hunks: seq<Hunk>, complete: bool, at: Progress)
    requires hunks != [] && Follows(hunks, complete, at)
    ensures Follows(hunks[1..], complete, After(hunks[0], at))
    ensures complete ==> hunks[0].afterStart == hunks[0].beforeStart + at.shift
  {
    hide OldSide, NewSide, Growth, ValidKinds;
    var rest := hunks[1..];
    assert HunkRegions(hunks)[..0] == [] && Growth([]) == 0 by { NoGrowth(); }
    forall k | complete && 0 <= k < |rest|
      ensures rest[k].afterStart == rest[k].beforeStart + After(hunks[0], at).shift + Growth(HunkRegions(rest)[..k])
    {
      GrowthTail(hunks, k);
      assert hunks[k + 1] == rest[k];
    }
  }

  lemma NoGrowth()
    ensures Growth([]) == 0
  {
  }

  lemma BodyAtEnd(rest: seq<string>, body: seq<Row>, rowCount: nat)
    requires BodyEnds(rest)
    ensures ParseBody(rest, body, rowCount) == Ok((body, if rest == [""] then [] else rest))
  {
  }

  lemma ParseOneHunk(h: Hunk, rest: seq<string>, complete: bool, at: Progress)
    requires Printable(h.rows) && HunkRepresentable(h) && h.changedStart == h.afterStart + FirstChange(h.rows)
    requires 0 <= h.beforeStart && 0 <= h.afterStart && at.rows + |h.rows| <= MAX_ROWS && BodyEnds(rest)
    requires at.oldEnd <= h.beforeStart && at.newEnd <= h.afterStart && (complete ==> h.afterStart == h.beforeStart + at.shift)
    ensures var tail := ParseFrom(if rest == [""] then [] else rest, complete, After(h, at));
            ParseFrom([HunkLine(h)] + PrintRows(h.rows) + rest, complete, at) == if tail.Ok? then Ok([h] + tail.value) else tail
  {
    var lines := [HunkLine(h)] + PrintRows(h.rows) + rest;
    hide ParseHeader, ParseBody, PrintRows, HunkLine, IsHunkLine, OldSide, NewSide, FirstChange, Printable, HunkRepresentable, ParseFrom;
    assert lines[0] == HunkLine(h) && lines[1..] == PrintRows(h.rows) + rest;
    assert [] + h.rows == h.rows;
    HeaderRoundTrip(h);
    ParsePrintedRows(h.rows, rest, [], at.rows) by { assert rest != []; }
    BodyAtEnd(rest, h.rows, at.rows + |h.rows|);
    assert ParseHunk(lines[0], h.rows, complete, at) == Ok((h, After(h, at)));
    assert CheckHeader(lines[0], complete, at) == None;
    ParseNextHunk(lines, complete, at, h.rows, if rest == [""] then [] else rest, h, After(h, at));
  }

  // A hunk the format cannot hold is refused.
  lemma HunkRefused(h: Hunk, rest: seq<string>, complete: bool, at: Progress)
    requires Printable(h.rows) && 0 <= h.beforeStart && 0 <= h.afterStart && rest != [] && at.rows <= MAX_ROWS
    requires !HunkRepresentable(h) || at.rows + |h.rows| > MAX_ROWS
    ensures ParseFrom([HunkLine(h)] + PrintRows(h.rows) + rest, complete, at).Err?
  {
    hide *;
    var lines := [HunkLine(h)] + PrintRows(h.rows) + rest;
    assert lines[0] == HunkLine(h) && lines[1..] == PrintRows(h.rows) + rest;
    HeaderRoundTrip(h);
    if at.rows + |h.rows| > MAX_ROWS {
      RowsRefused(h.rows, rest, [], at.rows);
    }
    HeaderChecked(lines[0], complete, at);
    OneStep(lines, complete, at);
    LineStep(lines, complete, at, []);
    PrependFails([], ParseFrom(lines, complete, at));
  }

  lemma HeaderChecked(header: string, complete: bool, at: Progress)
    ensures ParseHeader(header).Err? ==> CheckHeader(header, complete, at).Some?
  {
    hide ParseHeader;
  }

  lemma PrependFails(hunks: seq<Hunk>, r: Result<seq<Hunk>, ParseError>)
    ensures Prepend(hunks, r).Err? <==> r.Err?
  {
  }

  lemma ParseNextHunk(lines: seq<string>, complete: bool, at: Progress, body: seq<Row>, rest: seq<string>, h: Hunk, next: Progress)
    requires lines != [] && IsHunkLine(lines[0]) && CheckHeader(lines[0], complete, at) == None
    requires ParseBody(lines[1..], [], at.rows) == Ok((body, rest)) && ParseHunk(lines[0], body, complete, at) == Ok((h, next))
    ensures ParseFrom(lines, complete, at) == (var tail := ParseFrom(rest, complete, next); if tail.Ok? then Ok([h] + tail.value) else tail)
  {
    OneStep(lines, complete, at);
    hide ParseOne, CheckHeader, ParseBody, ParseHunk, IsHunkLine;
  }

  lemma PrintFirst(h: Hunk, tail: seq<Hunk>)
    ensures PrintHunks([h] + tail) + [""] == [HunkLine(h)] + PrintRows(h.rows) + (PrintHunks(tail) + [""])
  {
    assert ([h] + tail)[1..] == tail;
    hide HunkLine, PrintRows;
  }

  lemma ParsePrintedStep(h: Hunk, tail: seq<Hunk>, complete: bool, at: Progress)
    requires Printable(h.rows) && 0 <= h.beforeStart && 0 <= h.afterStart && h.changedStart == h.afterStart + FirstChange(h.rows) && at.rows <= MAX_ROWS
    requires at.oldEnd <= h.beforeStart && at.newEnd <= h.afterStart && (complete ==> h.afterStart == h.beforeStart + at.shift)
    requires BodyEnds(PrintHunks(tail) + [""]) && (PrintHunks(tail) + [""] == [""] <==> tail == [])
    requires HunkRepresentable(h) && at.rows + |h.rows| <= MAX_ROWS ==>
               var r := ParseFrom(if tail == [] then [] else PrintHunks(tail) + [""], complete, After(h, at));
               if FitsBehind(tail, at.rows + |h.rows|) then r == Ok(tail) else r.Err?
    ensures var r := ParseFrom(PrintHunks([h] + tail) + [""], complete, at);
            if HunkRepresentable(h) && at.rows + |h.rows| <= MAX_ROWS && FitsBehind(tail, at.rows + |h.rows|) then r == Ok([h] + tail) else r.Err?
  {
    hide *;
    PrintFirst(h, tail);
    if HunkRepresentable(h) && at.rows + |h.rows| <= MAX_ROWS {
      ParseOneHunk(h, PrintHunks(tail) + [""], complete, at);
    } else {
      HunkRefused(h, PrintHunks(tail) + [""], complete, at);
    }
  }

  /** Parsing printed hunks gives back the same hunks, rows, line endings and zero-based coordinates
      on both sides, if the format can hold them; if not, they are refused. */
  lemma {:induction false} ParsePrinted(hunks: seq<Hunk>, complete: bool, at: Progress)
    requires Plain(hunks) && Follows(hunks, complete, at) && at.rows <= MAX_ROWS
    ensures var r := ParseFrom(if hunks == [] then [] else PrintHunks(hunks) + [""], complete, at);
            if FitsBehind(hunks, at.rows) then r == Ok(hunks) else r.Err?
    decreases |hunks|
  {
    hide *;
    if hunks != [] {
      var h, tail := hunks[0], hunks[1..];
      PlainHead(hunks, complete, at);
      FollowsTail(hunks, complete, at);
      PrintedEnds(tail);
      AfterRows(h, at);
      if at.rows + |h.rows| <= MAX_ROWS {
        ParsePrinted(tail, complete, After(h, at));
      }
      ParsePrintedStep(h, tail, complete, at);
      FitsStep(hunks, at.rows);
      assert [h] + tail == hunks;
    } else {
      NothingParsed(complete, at);
      NothingFits(at.rows);
    }
  }

  lemma NothingParsed(complete: bool, at: Progress)
    ensures ParseFrom([], complete, at) == Ok([])
  {
  }

  lemma NothingFits(n: nat)
    requires n <= MAX_ROWS
    ensures FitsBehind([], n)
  {
  }

  lemma AfterRows(h: Hunk, at: Progress)
    ensures After(h, at).rows == at.rows + |h.rows|
  {
    hide OldSide, NewSide;
  }

  lemma FitsStep(hunks: seq<Hunk>, n: nat)
    requires hunks != []
    ensures FitsBehind(hunks, n) <==> HunkRepresentable(hunks[0]) && n + |hunks[0].rows| <= MAX_ROWS && FitsBehind(hunks[1..], n + |hunks[0].rows|)
  {
    hide HunkRepresentable;
    assert forall k :: 0 < k < |hunks| ==> hunks[k] == hunks[1..][k - 1];
    assert hunks == [hunks[0]] + hunks[1..];
    if FitsBehind(hunks[1..], n + |hunks[0].rows|) && HunkRepresentable(hunks[0]) {
      forall k | 0 <= k < |hunks| ensures HunkRepresentable(hunks[k]) {
        if k > 0 {
          assert HunkRepresentable(hunks[1..][k - 1]);
        }
      }
    }
  }

  lemma PlainHead(hunks: seq<Hunk>, complete: bool, at: Progress)
    requires hunks != [] && Plain(hunks) && Follows(hunks, complete, at)
    ensures var h := hunks[0];
            && Printable(h.rows) && 0 <= h.beforeStart && 0 <= h.afterStart && h.changedStart == h.afterStart + FirstChange(h.rows)
            && at.oldEnd <= h.beforeStart && at.newEnd <= h.afterStart
    ensures Plain(hunks[1..])
  {
    hide Printable, FirstChange;
  }

  lemma PrintedEnds(hunks: seq<Hunk>)
    requires Plain(hunks)
    ensures BodyEnds(PrintHunks(hunks) + [""])
    ensures PrintHunks(hunks) + [""] == [""] <==> hunks == []
  {
    if hunks != [] {
      HeaderRoundTrip(hunks[0]);
      assert (PrintHunks(hunks) + [""])[0] == HunkLine(hunks[0]);
    }
  }

  // ----- A rendered file

  function RenderedLines(file: ReviewFile, quote: Quote, hunks: seq<Hunk>): seq<string>
  {
    if hunks == [] then [] else HeaderLines(file, quote) + PrintHunks(hunks)
  }

  // The operation, the header if there are hunks, and the hunks.
  function RenderedDiff(file: ReviewFile, quote: Quote, hunks: seq<Hunk>): string
  {
    OperationLine(file, quote) + Join(RenderedLines(file, quote, hunks))
  }

  lemma HunkLineFull(h: Hunk)
    requires 0 <= h.beforeStart && 0 <= h.afterStart
    ensures FullLine(HunkLine(h))
  {
    hide *;
    var o, n := |OldSide(h.rows)|, |NewSide(h.rows)|;
    HunkLineWords(h);
    RangeToken(h.beforeStart, o, '-');
    RangeToken(h.afterStart, n, '+');
    SpacedWords(['-'] + ReviewRange(h.beforeStart, h.beforeStart + o), ['+'] + ReviewRange(h.afterStart, h.afterStart + n));
  }

  lemma SpacedWords(a: string, b: string)
    requires Token(a) && Token(b)
    ensures FullLine(Spaced(["@@", a, b, "@@"]))
  {
    assert Token("@@");
    hide Spaced, Token, FullLine;
    SpacedFullLine(["@@", a, b, "@@"]);
  }

  lemma PrintRowFull(row: Row)
    requires IsKind(row.kind) && OneLine(row.text)
    ensures forall k :: 0 <= k < |PrintRow(row)| ==> FullLine(PrintRow(row)[k])
  {
    MarkerFacts();
    hide Marker;
    assert !EndsLine(row.text) ==> forall k :: 0 <= k < |row.text| ==> row.text[k] != '\n';
  }

  lemma {:induction false} PrintRowsFull(rows: seq<Row>)
    requires Printable(rows)
    ensures forall k :: 0 <= k < |PrintRows(rows)| ==> FullLine(PrintRows(rows)[k])
  {
    if rows != [] {
      hide FullLine, PrintRow;
      PrintRowFull(rows[0]);
      PrintRowsFull(rows[1..]);
    }
  }

  lemma {:induction false} PrintHunksFull(hunks: seq<Hunk>)
    requires Plain(hunks)
    ensures forall k :: 0 <= k < |PrintHunks(hunks)| ==> FullLine(PrintHunks(hunks)[k])
  {
    if hunks != [] {
      HunkLineFull(hunks[0]);
      PrintRowsFull(hunks[0].rows);
      PrintHunksFull(hunks[1..]);
      hide FullLine, HunkLine, PrintRows;
    }
  }

  lemma HeaderFull(file: ReviewFile, quote: Quote)
    requires Quotes(quote)
    ensures var h := HeaderLines(file, quote); |h| == 2 && FullLine(h[0]) && FullLine(h[1]) && !IsHunkLine(h[0]) && !IsHunkLine(h[1])
  {
    var h := HeaderLines(file, quote);
    assert '\n' !in ReviewPath(quote, file.beforePath) && '\n' !in ReviewPath(quote, file.afterPath);
    assert h[0][0] == '-' && h[1][0] == '+';
  }

  lemma OperationFull(file: ReviewFile, quote: Quote) returns (op: string)
    requires Quotes(quote)
    ensures OperationLine(file, quote) == op + ['\n'] && '\n' !in op && !IsHunkLine(OperationLine(file, quote)) && FullLine(OperationLine(file, quote))
  {
    op := Action(file) + " " + quote(file.beforePath) + " -> " + quote(file.afterPath);
    assert '\n' !in quote(file.beforePath) && '\n' !in quote(file.afterPath);
    assert OperationLine(file, quote)[0] == Action(file)[0];
  }

  lemma SkipLine(line: string, rest: seq<string>, complete: bool, at: Progress)
    requires !IsHunkLine(line)
    ensures ParseFrom([line] + rest, complete, at) == ParseFrom(rest, complete, at)
  {
    assert ([line] + rest)[1..] == rest;
  }

  /** Printing hunks into a review file and parsing the file gives the hunks back, if the format can
      hold them; if not, the file is refused. */
  lemma ParseRendered(file: ReviewFile, quote: Quote, hunks: seq<Hunk>, complete: bool)
    requires Quotes(quote) && file.diff == RenderedDiff(file, quote, hunks)
    requires Plain(hunks) && Follows(hunks, complete, Progress(0, 0, 0, 0))
    ensures var r := ParseHunks(file, quote, complete); if FitsFormat(hunks) then r == Ok(hunks) else r.Err?
  {
    var op := OperationFull(file, quote);
    HeaderFull(file, quote);
    RenderedSplit(file, quote, hunks);
    hide ParseFrom, PrintHunks, Follows, UnifiedDiff, OperationLine, HeaderLines, IsHunkLine, FullLine, Plain, FitsBehind, SplitAfter, RenderedDiff, Quotes;
    ParseRenderedLines(OperationLine(file, quote), HeaderLines(file, quote), hunks, complete, Progress(0, 0, 0, 0));
  }

  lemma ParseRenderedLines(op: string, h: seq<string>, hunks: seq<Hunk>, complete: bool, at: Progress)
    requires !IsHunkLine(op) && |h| == 2 && !IsHunkLine(h[0]) && !IsHunkLine(h[1])
    requires Plain(hunks) && Follows(hunks, complete, at) && at.rows <= MAX_ROWS
    ensures var r := ParseFrom(if hunks == [] then [op, ""] else h + PrintHunks(hunks) + [""], complete, at);
            if FitsBehind(hunks, at.rows) then r == Ok(hunks) else r.Err?
  {
    hide ParseFrom, PrintHunks, Follows, IsHunkLine, Plain, FitsBehind;
    ParsePrinted(hunks, complete, at);
    if hunks == [] {
      NothingFits(at.rows);
      SkipOperation(op, complete, at);
    } else {
      SkipHeader(h, PrintHunks(hunks) + [""], complete, at);
      assert h + PrintHunks(hunks) + [""] == h + (PrintHunks(hunks) + [""]);
    }
  }

  lemma SkipOperation(op: string, complete: bool, at: Progress)
    requires !IsHunkLine(op)
    ensures ParseFrom([op, ""], complete, at) == Ok([])
  {
    NotHunkLine("");
    assert [op] + [""] == [op, ""] && [""] + [] == [""];
    hide IsHunkLine;
    SkipLine(op, [""], complete, at);
    SkipLine("", [], complete, at);
  }

  lemma SkipHeader(h: seq<string>, lines: seq<string>, complete: bool, at: Progress)
    requires |h| == 2 && !IsHunkLine(h[0]) && !IsHunkLine(h[1])
    ensures ParseFrom(h + lines, complete, at) == ParseFrom(lines, complete, at)
  {
    assert h + lines == [h[0]] + ([h[1]] + lines);
    hide IsHunkLine, ParseFrom;
    SkipLine(h[0], [h[1]] + lines, complete, at);
    SkipLine(h[1], lines, complete, at);
  }

  // Past the operation, a diff that starts with its header is the whole diff.
  lemma PastOperation(file: ReviewFile, quote: Quote, rest: string)
    requires Quotes(quote) && file.diff == OperationLine(file, quote) + rest
    ensures UnifiedDiff(file, quote) == if Join(HeaderLines(file, quote)) <= rest then rest else file.diff
  {
    var op := OperationFull(file, quote);
    hide *;
    assert file.diff == op + ['\n'] + rest;
    CutAt(op, '\n', rest);
    UnifiedCut(file, quote, op, rest);
  }

  lemma UnifiedCut(file: ReviewFile, quote: Quote, op: string, rest: string)
    requires Cut(file.diff, '\n') == (op, rest, true)
    ensures UnifiedDiff(file, quote) == if Join(HeaderLines(file, quote)) <= rest then rest else file.diff
  {
    hide Cut, HeaderLines, Join;
  }

  lemma OnlyOperation(file: ReviewFile, quote: Quote)
    requires Quotes(quote) && file.diff == RenderedDiff(file, quote, [])
    ensures UnifiedDiff(file, quote) == OperationLine(file, quote)
  {
    HeaderFull(file, quote);
    HeaderText(HeaderLines(file, quote));
    PastOperation(file, quote, "");
  }

  lemma HeaderText(h: seq<string>)
    requires |h| == 2 && FullLine(h[0])
    ensures Join(h) != "" && Join([]) == ""
  {
    assert Join(h) == h[0] + Join(h[1..]);
  }

  lemma WithHunks(file: ReviewFile, quote: Quote, hunks: seq<Hunk>)
    requires Quotes(quote) && hunks != [] && file.diff == RenderedDiff(file, quote, hunks)
    ensures UnifiedDiff(file, quote) == Join(HeaderLines(file, quote) + PrintHunks(hunks))
  {
    JoinConcat(HeaderLines(file, quote), PrintHunks(hunks));
    hide Join, PrintHunks, HeaderLines;
    PastOperation(file, quote, Join(HeaderLines(file, quote) + PrintHunks(hunks)));
  }

  // The lines the parser sees.
  lemma RenderedSplit(file: ReviewFile, quote: Quote, hunks: seq<Hunk>)
    requires Quotes(quote) && file.diff == RenderedDiff(file, quote, hunks) && Plain(hunks)
    ensures SplitAfter(UnifiedDiff(file, quote)) ==
            if hunks == [] then [OperationLine(file, quote), ""] else HeaderLines(file, quote) + PrintHunks(hunks) + [""]
  {
    hide *;
    if hunks == [] {
      OnlyOperation(file, quote);
      var op := OperationFull(file, quote);
      SplitLine(OperationLine(file, quote), "");
      EmptySplit();
      assert OperationLine(file, quote) + "" == OperationLine(file, quote);
    } else {
      WithHunks(file, quote, hunks);
      HeaderFull(file, quote);
      PrintHunksFull(hunks);
      var lines := HeaderLines(file, quote) + PrintHunks(hunks);
      SplitJoin(lines, "");
      EmptySplit();
      assert Join(lines) + "" == Join(lines);
    }
  }

  lemma EmptySplit()
    ensures SplitAfter("") == [""]
  {
  }
}
