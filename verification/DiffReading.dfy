/** The review format in so many words: what is printed, character for character, and what a text that
    is accepted must have said. */
module DiffReading {
  import opened Text
  import opened Regions
  import opened Matcher
  import opened Review
  import opened ReviewText
  import opened ReviewRender
  import opened MergeSteps

  // ----- Numbers and words

  /** A numeral is worth its digits in base ten, whatever zeros it starts with; a sign may stand in front. */
  lemma NumeralMeans(digits: string, c: char)
    requires '0' <= c <= '9'
    ensures ParseDigits([c]) == Some((c - '0') as int)
    ensures ParseDigits(digits).Some? ==> ParseDigits(digits + [c]) == Some(10 * ParseDigits(digits).value + (c - '0') as int)
    ensures ParseDigits(digits).Some? ==> Atoi(digits) == Atoi("+" + digits) == ParseDigits(digits) && Atoi("-" + digits) == Some(-ParseDigits(digits).value)
  {
    assert (digits + [c])[..|digits|] == digits;
    DigitsOnly(digits);
  }

  // Nothing else is a numeral.
  lemma {:induction false} DigitsOnly(s: string)
    ensures ParseDigits(s).Some? <==> s != "" && forall k :: 0 <= k < |s| ==> '0' <= s[k] <= '9'
    decreases |s|
  {
    if |s| > 1 {
      var n := |s| - 1;
      DigitsOnly(s[..n]);
      assert forall k :: 0 <= k < n ==> s[..n][k] == s[k];
    }
  }

  lemma NumeralsOnly(s: string)
    ensures Atoi(s).Some? <==>
              var digits := if s != "" && s[0] in "+-" then s[1..] else s; digits != "" && forall k :: 0 <= k < |digits| ==> '0' <= digits[k] <= '9'
  {
    DigitsOnly(s);
    if s != "" {
      DigitsOnly(s[1..]);
    }
  }

  /** Words are read whatever white space stands around them. */
  lemma {:induction false} WordsRead(spaces: string, word: string, rest: string)
    requires (forall k :: 0 <= k < |spaces| ==> IsSpace(spaces[k])) && Token(word) && (rest != "" ==> IsSpace(rest[0]))
    ensures Fields(spaces + word + rest) == [word] + Fields(rest)
    decreases |spaces|
  {
    var s := spaces + word + rest;
    TrimAll(spaces, word + rest);
    assert s == spaces + (word + rest);
    SpanWord(word, rest);
    assert (word + rest)[|word|..] == rest && (word + rest)[..|word|] == word;
  }

  lemma {:induction false} TrimAll(spaces: string, rest: string)
    requires (forall k :: 0 <= k < |spaces| ==> IsSpace(spaces[k])) && rest != "" && !IsSpace(rest[0])
    ensures TrimSpace(spaces + rest) == rest
    decreases |spaces|
  {
    hide IsSpace;
    var s, n := spaces + rest, SpanLength(spaces + rest, true);
    assert forall k :: 0 <= k < |spaces| ==> s[k] == spaces[k];
    assert s[|spaces|] == rest[0];
    assert n == |spaces|;
  }

  lemma SpanWord(word: string, rest: string)
    requires Token(word) && (rest != "" ==> IsSpace(rest[0]))
    ensures SpanLength(word + rest, false) == |word|
  {
    hide IsSpace;
    var s, n := word + rest, SpanLength(word + rest, false);
    assert forall k :: 0 <= k < |word| ==> s[k] == word[k];
    if rest != "" {
      assert s[|word|] == rest[0];
    }
  }

  lemma SpacesOnly(s: string)
    requires forall k :: 0 <= k < |s| ==> IsSpace(s[k])
    ensures Fields(s) == []
  {
    hide IsSpace;
    var n := SpanLength(s, true);
    assert n == |s|;
  }

  /** A range is its sign, a line and a length; without a length it is one line long.  An empty one says
      behind which line it stands. */
  lemma RangeGrammar(prefix: char, first: string, second: string)
    requires ',' !in first
    ensures ParseReviewRange([prefix] + first, prefix) ==
              if Atoi(first).Some? && 1 <= Atoi(first).value <= 0x4000_0000 then Some((Atoi(first).value - 1, 1)) else None
    ensures ParseReviewRange([prefix] + first + "," + second, prefix) ==
              if Atoi(first).Some? && 0 <= Atoi(first).value <= 0x4000_0000 && Atoi(second).Some? && 0 <= Atoi(second).value <= 0x10_0000
                 && (Atoi(first).value == 0 ==> Atoi(second).value == 0)
              then Some((if Atoi(second).value == 0 then Atoi(first).value else Atoi(first).value - 1, Atoi(second).value)) else None
  {
    hide Atoi, Cut;
    var whole := [prefix] + first + "," + second;
    assert whole[1..] == first + [','] + second && ([prefix] + first)[1..] == first;
    CutAt(first, ',', second);
    CutNone(first, ',');
    if first == "" {
      NothingNumbered();
    }
  }

  lemma NothingNumbered()
    ensures Atoi("") == None
  {
  }

  lemma OtherSign(text: string, prefix: char)
    requires text == "" || text[0] != prefix
    ensures ParseReviewRange(text, prefix) == None
  {
  }

  lemma {:induction false} CutNone(s: string, c: char)
    requires c !in s
    ensures Cut(s, c) == (s, "", false)
  {
    if s != "" {
      CutNone(s[1..], c);
    }
  }

  lemma LimitsMean()
    ensures MAX_ROWS == 1048576 && MAX_POSITION == 1073741824
  {
  }

  lemma KindMeans(c: char)
    ensures IsKind(c) <==> c == ' ' || c == '+' || c == '-'
  {
  }

  lemma HeaderMeans(line: string)
    ensures IsHunkLine(line) <==> |line| >= 3 && line[0] == line[1] == '@' && line[2] == ' '
  {
  }

  /** The first line is left out exactly if the path lines follow it. */
  lemma UnifiedMeans(file: ReviewFile, quote: Quote, first: string, rest: string)
    requires '\n' !in first
    ensures file.diff == first ==> UnifiedDiff(file, quote) == file.diff
    ensures file.diff == first + "\n" + rest ==>
              var paths := "--- " + Side(quote, file.beforePath) + "\n" + "+++ " + Side(quote, file.afterPath) + "\n";
              UnifiedDiff(file, quote) == if paths <= rest then rest else file.diff
  {
    CutNone(first, '\n');
    CutAt(first, '\n', rest);
    HeadersJoin(file, quote);
    hide HeaderLines, Join, Side;
    assert first + ['\n'] + rest == first + "\n" + rest;
  }

  // ----- What is printed

  /** A range is its first line and its length; an empty one names the line before it. */
  lemma RangeWording(start: nat, count: nat)
    ensures ReviewRange(start, start + count) == if count == 0 then Itoa(start) + ",0" else Itoa(start + 1) + "," + Itoa(count)
  {
  }

  lemma HunkWording(h: Hunk)
    ensures HunkLine(h) ==
              "@@ -" + ReviewRange(h.beforeStart, h.beforeStart + |OldSide(h.rows)|)
              + " +" + ReviewRange(h.afterStart, h.afterStart + |NewSide(h.rows)|) + " @@\n"
  {
    hide OldSide, NewSide, ReviewRange;
    var a, b := "-" + ReviewRange(h.beforeStart, h.beforeStart + |OldSide(h.rows)|), "+" + ReviewRange(h.afterStart, h.afterStart + |NewSide(h.rows)|);
    SpacedFour(a, b);
    assert HunkLine(h) == Spaced(["@@", a, b, "@@"]);
  }

  lemma SpacedFour(a: string, b: string)
    ensures Spaced(["@@", a, b, "@@"]) == "@@ " + a + " " + b + " @@\n"
  {
    assert ["@@", a, b, "@@"][1..] == [a, b, "@@"] && [a, b, "@@"][1..] == [b, "@@"] && [b, "@@"][1..] == ["@@"];
    assert Spaced(["@@"]) == "@@\n";
    assert Spaced([b, "@@"]) == b + " @@\n";
    assert Spaced([a, b, "@@"]) == a + " " + b + " @@\n";
  }

  /** Every row is a line behind its kind, and one that lacks its newline says so. */
  lemma RowWording(row: Row)
    ensures Join(PrintRow(row)) == if row.text != "" && row.text[|row.text| - 1] == '\n' then [row.kind] + row.text
                                   else [row.kind] + row.text + "\n\\ No newline at end of file\n"
  {
    JoinOne([row.kind] + row.text);
    JoinTwo([row.kind] + row.text + "\n", Marker());
    assert [row.kind] + row.text + "\n\\ No newline at end of file\n" == [row.kind] + row.text + "\n" + Marker();
  }

  lemma JoinOne(a: string)
    ensures Join([a]) == a
  {
    assert [a][1..] == [] && Join([]) == "" && a + "" == a;
  }

  lemma JoinTwo(a: string, b: string)
    ensures Join([a, b]) == a + b
  {
    JoinOne(b);
    assert [a, b][1..] == [b];
  }

  function Side(quote: Quote, path: string): string { if path == "" then "/dev/null" else quote(path) }

  /** A rendered diff: what happens to the file, named by its paths; if anything changes in it, its old
      path and its new one; and the hunks. */
  lemma DiffWording(file: ReviewFile, quote: Quote, hunks: seq<Hunk>)
    ensures var before, after := file.beforePath, file.afterPath;
            var word := if before == "" then "add" else if after == "" then "delete" else if before == after then "update" else "move";
            RenderedDiff(file, quote, hunks) ==
              word + " " + quote(before) + " -> " + quote(after) + "\n"
              + if hunks == [] then "" else "--- " + Side(quote, before) + "\n" + "+++ " + Side(quote, after) + "\n" + Join(PrintHunks(hunks))
  {
    hide *;
    OperationWording(file, quote);
    RenderedJoin(file, quote, hunks);
  }

  lemma OperationWording(file: ReviewFile, quote: Quote)
    ensures var before, after := file.beforePath, file.afterPath;
            var word := if before == "" then "add" else if after == "" then "delete" else if before == after then "update" else "move";
            OperationLine(file, quote) == word + " " + quote(before) + " -> " + quote(after) + "\n"
  {
  }

  lemma RenderedJoin(file: ReviewFile, quote: Quote, hunks: seq<Hunk>)
    ensures RenderedDiff(file, quote, hunks) ==
              OperationLine(file, quote)
              + if hunks == [] then "" else "--- " + Side(quote, file.beforePath) + "\n" + "+++ " + Side(quote, file.afterPath) + "\n" + Join(PrintHunks(hunks))
  {
    hide PrintHunks, OperationLine;
    HeadersJoin(file, quote);
    hide HeaderLines;
    if hunks != [] {
      JoinConcat(HeaderLines(file, quote), PrintHunks(hunks));
    }
  }

  lemma HeadersJoin(file: ReviewFile, quote: Quote)
    ensures Join(HeaderLines(file, quote)) == "--- " + Side(quote, file.beforePath) + "\n" + "+++ " + Side(quote, file.afterPath) + "\n"
  {
    var minus, plus := "--- " + ReviewPath(quote, file.beforePath) + "\n", "+++ " + ReviewPath(quote, file.afterPath) + "\n";
    JoinTwo(minus, plus);
    assert minus + plus == "--- " + Side(quote, file.beforePath) + "\n" + "+++ " + Side(quote, file.afterPath) + "\n";
  }

  /** A changed opcode is printed as what it removes, then what it adds; an equal one as context. */
  lemma OpWording(op: OpCode, a: seq<Line>, b: seq<Line>)
    requires OpFits(op, a, b)
    ensures op.tag == Equal ==> OpRows(op, a, b) == KindRows(' ', a[op.i1..op.i2])
    ensures op.tag == Delete ==> OpRows(op, a, b) == KindRows('-', a[op.i1..op.i2])
    ensures op.tag == Insert ==> OpRows(op, a, b) == KindRows('+', b[op.j1..op.j2])
    ensures op.tag == Replace ==> OpRows(op, a, b) == KindRows('-', a[op.i1..op.i2]) + KindRows('+', b[op.j1..op.j2])
  {
  }

  // ----- Changes in a hunk

  /** The first changed row, or the first row if none is. */
  lemma FirstChangeMeans(rows: seq<Row>, k: nat)
    requires k < |rows| && rows[k].kind != ' ' && forall j :: 0 <= j < k ==> rows[j].kind == ' '
    ensures FirstChange(rows) == k
  {
    var n := LeadingContext(rows);
  }

  lemma NoChangeMeans(rows: seq<Row>)
    requires forall j :: 0 <= j < |rows| ==> rows[j].kind == ' '
    ensures FirstChange(rows) == 0
  {
  }

  // ----- Rejected hunks

  /** The text of a rejected hunk says everything the hunk says: behind an operation and the path lines it
      is a diff with just that hunk. */
  lemma RejectedReads(file: ReviewFile, quote: Quote, h: Hunk)
    requires Quotes(quote) && Plain([h]) && FitsFormat([h]) && ValidKinds(h.rows)
    requires file.diff == OperationLine(file, quote) + Join(HeaderLines(file, quote)) + HunkText(h)
    ensures ParseHunks(file, quote, false) == Ok([h])
  {
    hide *;
    OneRendered(file, quote, h);
    OneFollows(h);
    ParseRendered(file, quote, [h], false);
  }

  lemma OneRendered(file: ReviewFile, quote: Quote, h: Hunk)
    ensures RenderedDiff(file, quote, [h]) == OperationLine(file, quote) + Join(HeaderLines(file, quote)) + HunkText(h)
  {
    var lines := [HunkLine(h)] + PrintRows(h.rows);
    hide HunkLine, PrintRows, HeaderLines, OperationLine;
    assert [h][1..] == [] && PrintHunks([h]) == lines + PrintHunks([]);
    assert PrintHunks([]) == [] && lines + [] == lines;
    JoinConcat(HeaderLines(file, quote), lines);
  }

  lemma OneFollows(h: Hunk)
    requires ValidKinds(h.rows) && Plain([h])
    ensures Follows([h], false, Progress(0, 0, 0, 0))
  {
    hide ValidKinds, HunkRegion;
    assert [h][0] == h;
  }

  // ----- What an accepted text says

  // Lines that all end, but for an empty one behind the last.
  predicate Ended(lines: seq<string>)
  {
    forall k :: 0 <= k < |lines| ==> FullLine(lines[k]) || (lines[k] == "" && k == |lines| - 1)
  }

  predicate Stops(lines: seq<string>) { lines == [] || lines == [""] || IsHunkLine(lines[0]) }

  /** The lines say what the hunks are: each stands behind a header with its two ranges, row for row. */
  ghost predicate Written(lines: seq<string>, hunks: seq<Hunk>)
    decreases |lines|
  {
    if lines == [] then hunks == []
    else if !IsHunkLine(lines[0]) then Written(lines[1..], hunks)
    else
      && hunks != []
      && var h, n := hunks[0], |PrintRows(hunks[0].rows)|;
         && ParseHeader(lines[0]) == Ok(((h.beforeStart, |OldSide(h.rows)|), (h.afterStart, |NewSide(h.rows)|)))
         && n < |lines| && lines[1..n + 1] == PrintRows(h.rows) && Stops(lines[n + 1..]) && Written(lines[n + 1..], hunks[1..])
  }

  // The rows read so far, printed, are the lines they were read from.
  predicate RowsClean(rows: seq<Row>) { forall k :: 0 <= k < |rows| ==> RowClean(rows[k]) }

  predicate RowClean(row: Row) { FullLine(row.text) || (forall j :: 0 <= j < |row.text| ==> row.text[j] != '\n') }

  lemma {:induction false} PrintConcat(p: seq<Row>, q: seq<Row>)
    ensures PrintRows(p + q) == PrintRows(p) + PrintRows(q)
    decreases |p|
  {
    hide PrintRow;
    if p == [] {
      assert p + q == q;
    } else {
      PrintConcat(p[1..], q);
      assert (p + q)[1..] == p[1..] + q;
    }
  }

  lemma PrintOne(row: Row)
    ensures PrintRows([row]) == PrintRow(row)
  {
    hide PrintRow;
    assert [row][1..] == [] && PrintRows([]) == [];
  }

  lemma MarkedRow(row: Row)
    requires FullLine(row.text)
    ensures RowClean(WithoutNewline(row)) && PrintRow(WithoutNewline(row)) == PrintRow(row) + [Marker()]
  {
    var text := row.text[..|row.text| - 1];
    assert text + "\n" == row.text;
    assert [row.kind] + text + "\n" == [row.kind] + row.text;
  }

  lemma ReadRow(line: string)
    requires FullLine(line) && IsKind(line[0])
    ensures RowClean(Row(line[0], line[1..])) && PrintRow(Row(line[0], line[1..])) == [line]
  {
    var row := Row(line[0], line[1..]);
    assert |line| != 1;
    assert FullLine(row.text);
    assert [row.kind] + row.text == line;
  }

  lemma {:induction false} BodyWritten(lines: seq<string>, body: seq<Row>, rowCount: nat)
    requires Ended(lines) && RowsClean(body) && ParseBody(lines, body, rowCount).Ok?
    ensures var (rows, rest) := ParseBody(lines, body, rowCount).value;
            && RowsClean(rows) && Ended(rest) && |rest| <= |lines| && Stops(rest)
            && (PrintRows(rows) + rest == PrintRows(body) + lines || (rest == [] && PrintRows(rows) + [""] == PrintRows(body) + lines))
    decreases |lines|
  {
    hide *;
    StopsIs(lines);
    if lines == [] || IsHunkLine(lines[0]) {
      BodyStop(lines, body, rowCount);
    } else {
      var text, rest := lines[0], lines[1..];
      BodyStep(lines, body, rowCount);
      EndedRest(lines);
      assert lines == [text] + rest;
      if text == "" && rest == [] {
        StopsIs([]);
        assert lines == [""];
      } else if text == Marker() {
        var n := |body| - 1;
        var last := body[n];
        CleanLast(body);
        MarkedRow(last);
        RowsCleanAdd(body[..n], WithoutNewline(last));
        BodyWritten(rest, body[..n] + [WithoutNewline(last)], rowCount);
        assert body == body[..n] + [last];
        PrintConcat(body[..n], [last]);
        PrintConcat(body[..n], [WithoutNewline(last)]);
        PrintOne(last);
        PrintOne(WithoutNewline(last));
        assert PrintRows(body[..n]) + (PrintRow(last) + [Marker()]) + rest == PrintRows(body[..n]) + PrintRow(last) + ([text] + rest);
      } else {
        var row := Row(text[0], text[1..]);
        ReadRow(text);
        RowsCleanAdd(body, row);
        BodyWritten(rest, body + [row], rowCount + 1);
        PrintConcat(body, [row]);
        PrintOne(row);
        assert PrintRows(body) + [text] + rest == PrintRows(body) + ([text] + rest);
      }
    }
  }

  lemma StopsIs(lines: seq<string>)
    ensures Stops(lines) <==> lines == [] || lines == [""] || IsHunkLine(lines[0])
  {
  }

  lemma EndedRest(lines: seq<string>)
    requires Ended(lines) && lines != []
    ensures Ended(lines[1..]) && (lines[0] == "" ==> lines[1..] == []) && (lines[0] != "" ==> FullLine(lines[0]))
  {
  }

  lemma CleanLast(body: seq<Row>)
    requires RowsClean(body) && body != []
    ensures RowsClean(body[..|body| - 1]) && (EndsLine(body[|body| - 1].text) ==> FullLine(body[|body| - 1].text))
  {
    assert RowClean(body[|body| - 1]);
  }

  lemma RowsCleanAdd(body: seq<Row>, row: Row)
    requires RowsClean(body) && RowClean(row)
    ensures RowsClean(body + [row])
  {
    hide RowClean;
  }

  lemma {:induction false} ParseWritten(lines: seq<string>, complete: bool, at: Progress)
    requires Ended(lines) && ParseFrom(lines, complete, at).Ok?
    ensures Written(lines, ParseFrom(lines, complete, at).value)
    decreases |lines|
  {
    hide *;
    WrittenIs(lines, if ParseFrom(lines, complete, at).Ok? then ParseFrom(lines, complete, at).value else []);
    FromStep(lines, complete, at);
    if lines != [] {
      EndedRest(lines);
      if !IsHunkLine(lines[0]) {
        ParseWritten(lines[1..], complete, at);
      } else {
        var hunks := ParseFrom(lines, complete, at).value;
        var body, next, rest := OneStep(lines, complete, at);
        NothingClean();
        BodyWritten(lines[1..], [], at.rows);
        ParseWritten(rest, complete, next);
        var n := |PrintRows(body)|;
        if PrintRows(body) + rest == PrintRows([]) + lines[1..] {
          assert lines[1..] == PrintRows(body) + rest;
          assert lines[1..n + 1] == PrintRows(body) && lines[n + 1..] == rest;
        } else {
          assert lines[1..] == PrintRows(body) + [""];
          assert lines[1..n + 1] == PrintRows(body) && lines[n + 1..] == [""];
          StopsIs([""]);
          LastWritten(hunks[1..]);
          NothingParsed(complete, next);
        }
        assert hunks[0].rows == body;
      }
    }
  }

  lemma LastWritten(hunks: seq<Hunk>)
    ensures Written([], hunks) <==> hunks == []
    ensures Written([""], hunks) <==> hunks == []
  {
    assert [""][1..] == [];
  }

  lemma NothingParsed(complete: bool, at: Progress)
    ensures ParseFrom([], complete, at) == Ok([])
  {
  }

  lemma NothingClean()
    ensures RowsClean([]) && PrintRows([]) == []
  {
  }

  lemma WrittenIs(lines: seq<string>, hunks: seq<Hunk>)
    ensures Written(lines, hunks) <==>
              if lines == [] then hunks == []
              else if !IsHunkLine(lines[0]) then Written(lines[1..], hunks)
              else
                && hunks != []
                && var h, n := hunks[0], |PrintRows(hunks[0].rows)|;
                   && ParseHeader(lines[0]) == Ok(((h.beforeStart, |OldSide(h.rows)|), (h.afterStart, |NewSide(h.rows)|)))
                   && n < |lines| && lines[1..n + 1] == PrintRows(h.rows) && Stops(lines[n + 1..]) && Written(lines[n + 1..], hunks[1..])
  {
    hide ParseHeader, PrintRows, OldSide, NewSide, IsHunkLine, Stops;
  }

  lemma FromStep(lines: seq<string>, complete: bool, at: Progress)
    ensures ParseFrom(lines, complete, at) ==
              if lines == [] then Ok([])
              else if !IsHunkLine(lines[0]) then ParseFrom(lines[1..], complete, at)
              else match ParseOne(lines, complete, at)
                case Err(e) => Err(e)
                case Ok((hunk, next, rest)) => Prepend([hunk], ParseFrom(rest, complete, next))
  {
    hide IsHunkLine, ParseOne, Prepend;
  }

  lemma OneStep(lines: seq<string>, complete: bool, at: Progress) returns (body: seq<Row>, next: Progress, rest: seq<string>)
    requires lines != [] && IsHunkLine(lines[0]) && ParseFrom(lines, complete, at).Ok?
    ensures ParseBody(lines[1..], [], at.rows) == Ok((body, rest)) && |rest| < |lines| && ParseFrom(rest, complete, next).Ok?
    ensures var hunks := ParseFrom(lines, complete, at).value;
            && hunks != [] && hunks[1..] == ParseFrom(rest, complete, next).value && hunks[0].rows == body
            && ParseHeader(lines[0]) == Ok(((hunks[0].beforeStart, |OldSide(body)|), (hunks[0].afterStart, |NewSide(body)|)))
  {
    hide ParseBody, ParseHeader, IsHunkLine, OldSide, NewSide, FirstChange;
    var one := ParseOne(lines, complete, at).value;
    body, next, rest := one.0.rows, one.1, one.2;
    assert ParseFrom(lines, complete, at) == Prepend([one.0], ParseFrom(rest, complete, next));
  }

  /** Nothing is accepted but what is there: of a diff that ends its last line, the hunks are exactly
      those that are written in it. */
  lemma ParsedWritten(file: ReviewFile, quote: Quote, complete: bool)
    requires ParseHunks(file, quote, complete).Ok? && Ended(SplitAfter(UnifiedDiff(file, quote)))
    ensures Written(SplitAfter(UnifiedDiff(file, quote)), ParseHunks(file, quote, complete).value)
  {
    ParseWritten(SplitAfter(UnifiedDiff(file, quote)), complete, Progress(0, 0, 0, 0));
  }
}
