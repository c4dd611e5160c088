/** How many lines a review file adds and removes. */
module LineCounts {
  import opened Text
  import opened Regions
  import opened Review
  import opened ReviewText

  // The lines among hunks that start with the mark.
  function CountOf(lines: seq<string>, mark: char, inHunk: bool): nat
  {
    if lines == [] then 0
    else if IsHunkLine(lines[0]) then CountOf(lines[1..], mark, true)
    else (if inHunk && lines[0] != "" && lines[0][0] == mark then 1 else 0) + CountOf(lines[1..], mark, inHunk)
  }

  method CountLines(file: ReviewFile) returns (added: int, removed: int)
    ensures if file.incomplete != "" || file.directory then added == removed == -1
            else added == CountOf(SplitAfter(file.diff), '+', false) && removed == CountOf(SplitAfter(file.diff), '-', false)
  {
    if file.incomplete != "" || file.directory {
      return -1, -1;
    }
    var lines := SplitAfter(file.diff);
    added, removed := 0, 0;
    var inHunk := false;
    assert lines[0..] == lines;
    for k := 0 to |lines|
      invariant added + CountOf(lines[k..], '+', inHunk) == CountOf(lines, '+', false)
      invariant removed + CountOf(lines[k..], '-', inHunk) == CountOf(lines, '-', false)
    {
      assert lines[k..][0] == lines[k] && lines[k..][1..] == lines[k + 1..];
      if IsHunkLine(lines[k]) {
        inHunk := true;
      } else if inHunk && "+" <= lines[k] {
        added := added + 1;
      } else if inHunk && "-" <= lines[k] {
        removed := removed + 1;
      }
    }
  }

  // The rows of this kind.
  function RowsOf(rows: seq<Row>, kind: char): nat
  {
    if rows == [] then 0 else (if rows[0].kind == kind then 1 else 0) + RowsOf(rows[1..], kind)
  }

  function AllRowsOf(hunks: seq<Hunk>, kind: char): nat
  {
    if hunks == [] then 0 else RowsOf(hunks[0].rows, kind) + AllRowsOf(hunks[1..], kind)
  }

  lemma CountNext(line: string, rest: seq<string>, mark: char, inHunk: bool)
    ensures CountOf([line] + rest, mark, inHunk) ==
              if IsHunkLine(line) then CountOf(rest, mark, true)
              else (if inHunk && line != "" && line[0] == mark then 1 else 0) + CountOf(rest, mark, inHunk)
  {
    assert ([line] + rest)[1..] == rest;
  }

  lemma {:induction false} RowsNext(rows: seq<Row>, row: Row, kind: char)
    ensures RowsOf(rows + [row], kind) == RowsOf(rows, kind) + if row.kind == kind then 1 else 0
  {
    if rows != [] {
      assert (rows + [row])[1..] == rows[1..] + [row];
      RowsNext(rows[1..], row, kind);
    } else {
      assert [] + [row] == [row] && [row][1..] == [];
    }
  }

  // What stripping a newline leaves counts the same.
  lemma LastStripped(body: seq<Row>, kind: char)
    requires body != [] && EndsLine(body[|body| - 1].text)
    ensures RowsOf(body[..|body| - 1] + [WithoutNewline(body[|body| - 1])], kind) == RowsOf(body, kind)
  {
    var rest, last := body[..|body| - 1], body[|body| - 1];
    assert rest + [last] == body;
    RowsNext(rest, last, kind);
    RowsNext(rest, WithoutNewline(last), kind);
  }

  // Every line of a hunk's body is one row, but for the markers.
  lemma {:induction false} BodyCounts(lines: seq<string>, body: seq<Row>, rowCount: nat, mark: char)
    requires (mark == '+' || mark == '-') && ParseBody(lines, body, rowCount).Ok?
    ensures var (rows, rest) := ParseBody(lines, body, rowCount).value;
            && RowsOf(rows, mark) + CountOf(rest, mark, true) == RowsOf(body, mark) + CountOf(lines, mark, true)
            && (rest == [] || IsHunkLine(rest[0]))
    decreases |lines|
  {
    hide *;
    if lines == [] || IsHunkLine(lines[0]) {
      BodyStop(lines, body, rowCount);
    } else {
      var text, rest := lines[0], lines[1..];
      assert lines == [text] + rest;
      BodyStep(lines, body, rowCount);
      CountNext(text, rest, mark, true);
      MarkerFacts();
      if text == "" && rest == [] {
      } else if text == Marker() {
        LastStripped(body, mark);
        BodyCounts(rest, body[..|body| - 1] + [WithoutNewline(body[|body| - 1])], rowCount, mark);
      } else {
        RowsNext(body, Row(text[0], text[1..]), mark);
        BodyCounts(rest, body + [Row(text[0], text[1..])], rowCount + 1, mark);
      }
    }
  }

  lemma OneCounts(lines: seq<string>, complete: bool, at: Progress, mark: char)
    requires lines != [] && IsHunkLine(lines[0]) && ParseOne(lines, complete, at).Ok? && (mark == '+' || mark == '-')
    ensures var (h, _, rest) := ParseOne(lines, complete, at).value;
            forall inHunk :: CountOf(lines, mark, inHunk) == RowsOf(h.rows, mark) + CountOf(rest, mark, true)
    ensures var (_, _, rest) := ParseOne(lines, complete, at).value; rest == [] || IsHunkLine(rest[0])
  {
    hide ParseBody, ParseHeader, RowsOf, OldSide, NewSide, FirstChange, IsHunkLine, CountOf;
    BodyCounts(lines[1..], [], at.rows, mark);
    assert lines == [lines[0]] + lines[1..];
    forall inHunk ensures CountOf(lines, mark, inHunk) == CountOf(lines[1..], mark, true) {
      CountNext(lines[0], lines[1..], mark, inHunk);
    }
    NoRowsOf(mark);
  }

  lemma NoRowsOf(kind: char)
    ensures RowsOf([], kind) == 0 && AllRowsOf([], kind) == 0 && CountOf([], kind, true) == CountOf([], kind, false) == 0
  {
  }

  // In front of the hunks nothing is counted, and behind a hunk comes the next one.
  lemma {:induction false} FromCounts(lines: seq<string>, complete: bool, at: Progress, mark: char, inHunk: bool)
    requires (mark == '+' || mark == '-') && ParseFrom(lines, complete, at).Ok?
    requires inHunk ==> lines == [] || IsHunkLine(lines[0])
    ensures CountOf(lines, mark, inHunk) == AllRowsOf(ParseFrom(lines, complete, at).value, mark)
    decreases |lines|
  {
    hide *;
    NoRowsOf(mark);
    if lines == [] {
      ParseEnd(lines, complete, at, []);
      PrependNone(ParseFrom(lines, complete, at));
    } else {
      LineStep(lines, complete, at, []);
      PrependNone(ParseFrom(lines, complete, at));
      assert lines == [lines[0]] + lines[1..];
      if !IsHunkLine(lines[0]) {
        PrependNone(ParseFrom(lines[1..], complete, at));
        CountNext(lines[0], lines[1..], mark, false);
        FromCounts(lines[1..], complete, at, mark, false);
      } else {
        var (h, next, rest) := ParseOne(lines, complete, at).value;
        OneCounts(lines, complete, at, mark);
        PrependOne(h, ParseFrom(rest, complete, next));
        FromCounts(rest, complete, next, mark, true);
        HunksFirst(h, ParseFrom(rest, complete, next).value, mark);
      }
    }
  }

  lemma PrependNone(r: Result<seq<Hunk>, ParseError>)
    ensures Prepend([], r) == r
  {
    assert r.Ok? ==> [] + r.value == r.value;
  }

  lemma PrependOne(h: Hunk, r: Result<seq<Hunk>, ParseError>)
    ensures Prepend([] + [h], r) == if r.Ok? then Ok([h] + r.value) else r
  {
    assert [] + [h] == [h];
  }

  lemma HunksFirst(h: Hunk, hunks: seq<Hunk>, kind: char)
    ensures AllRowsOf([h] + hunks, kind) == RowsOf(h.rows, kind) + AllRowsOf(hunks, kind)
  {
    assert ([h] + hunks)[1..] == hunks && ([h] + hunks)[0] == h;
  }

  // The diff's first line is taken for its operation, although it is a hunk's header.
  predicate Misled(file: ReviewFile, quote: Quote) { IsHunkLine(file.diff) && UnifiedDiff(file, quote) != file.diff }

  /** Of any diff that parses, the lines counted are exactly the rows it parses to, of either kind,
      unless its first line is taken both for the operation and for a hunk's header: then the
      path lines behind it are counted too. */
  lemma CountsRows(file: ReviewFile, quote: Quote, complete: bool, mark: char)
    requires Quotes(quote) && ParseHunks(file, quote, complete).Ok? && (mark == '+' || mark == '-')
    ensures CountOf(SplitAfter(file.diff), mark, false) == AllRowsOf(ParseHunks(file, quote, complete).value, mark) <==> !Misled(file, quote)
  {
    hide *;
    ParsesUnified(file, quote, complete);
    var lines := SplitAfter(UnifiedDiff(file, quote));
    FromCounts(lines, complete, Progress(0, 0, 0, 0), mark, false);
    MisledIs(file, quote);
    if UnifiedDiff(file, quote) != file.diff {
      var op, rest := OperationCut(file, quote);
      CountNext(op, lines, mark, false);
      if IsHunkLine(op) {
        PathsCounted(HeaderLines(file, quote), rest, mark);
      }
    }
  }

  /** Such a diff: it has no rows, and yet one line counts as added, and one as removed. */
  lemma PathLinesCounted(file: ReviewFile, quote: Quote, complete: bool, mark: char)
    requires Quotes(quote) && file.diff == "@@ \n" + Join(HeaderLines(file, quote)) && (mark == '+' || mark == '-')
    ensures ParseHunks(file, quote, complete) == Ok([]) && CountOf(SplitAfter(file.diff), mark, false) == 1
  {
    hide *;
    HunkStart();
    var h := HeaderLines(file, quote);
    HeaderFull(file, quote);
    HeaderMarks(file, quote);
    OperationDropped(file, quote);
    ParsesUnified(file, quote, complete);
    SplitJoin(h, "");
    EmptySplit();
    assert Join(h) + "" == Join(h) && h + [""] == [h[0]] + ([h[1]] + ([""] + []));
    NewlineEnds("@@ ");
    SplitLine("@@ " + "\n", Join(h));
    NoRowsOf(mark);
    CountNext("@@ " + "\n", h + [""], mark, false);
    CountNext(h[0], [h[1]] + ([""] + []), mark, true);
    CountNext(h[1], [""] + [], mark, true);
    CountNext("", [], mark, true);
    SkipLine(h[0], [h[1]] + ([""] + []), complete, Progress(0, 0, 0, 0));
    SkipLine(h[1], [""] + [], complete, Progress(0, 0, 0, 0));
    SkipLine("", [], complete, Progress(0, 0, 0, 0));
    ParseEnd([], complete, Progress(0, 0, 0, 0), []);
    PrependNone(ParseFrom([], complete, Progress(0, 0, 0, 0)));
  }

  lemma HunkStart()
    ensures IsHunkLine("@@ " + "\n") && "@@ " + "\n" == "@@ \n" && '\n' !in "@@ " && !IsHunkLine("")
  {
  }

  lemma OperationDropped(file: ReviewFile, quote: Quote)
    requires file.diff == "@@ \n" + Join(HeaderLines(file, quote))
    ensures UnifiedDiff(file, quote) == Join(HeaderLines(file, quote))
  {
    CutAt("@@ ", '\n', Join(HeaderLines(file, quote)));
    hide Cut, HeaderLines, Join;
    assert "@@ " + ['\n'] + Join(HeaderLines(file, quote)) == file.diff;
  }

  lemma ParsesUnified(file: ReviewFile, quote: Quote, complete: bool)
    ensures ParseHunks(file, quote, complete) == ParseFrom(SplitAfter(UnifiedDiff(file, quote)), complete, Progress(0, 0, 0, 0))
  {
    hide ParseFrom;
  }

  lemma MisledIs(file: ReviewFile, quote: Quote)
    ensures Misled(file, quote) <==> IsHunkLine(file.diff) && UnifiedDiff(file, quote) != file.diff
  {
    hide UnifiedDiff;
  }

  // What is left out in front: the operation line, with the path lines behind it.
  lemma OperationCut(file: ReviewFile, quote: Quote) returns (op: string, rest: seq<string>)
    requires Quotes(quote) && UnifiedDiff(file, quote) != file.diff
    ensures SplitAfter(file.diff) == [op] + SplitAfter(UnifiedDiff(file, quote)) && (IsHunkLine(op) <==> IsHunkLine(file.diff))
    ensures SplitAfter(UnifiedDiff(file, quote)) == HeaderLines(file, quote) + rest && |HeaderLines(file, quote)| == 2
    ensures var h := HeaderLines(file, quote); h[0] != "" && h[0][0] == '-' && h[1] != "" && h[1][0] == '+' && !IsHunkLine(h[0]) && !IsHunkLine(h[1])
  {
    hide *;
    var tail;
    op, tail := FirstLine(file, quote);
    SplitLine(op, tail);
    OpStart(op, tail);
    HeaderFull(file, quote);
    HeaderMarks(file, quote);
    var h := HeaderLines(file, quote);
    var more := tail[|Join(h)|..];
    assert tail == Join(h) + more;
    SplitJoin(h, more);
    rest := SplitAfter(more);
  }

  lemma FirstLine(file: ReviewFile, quote: Quote) returns (op: string, tail: string)
    requires UnifiedDiff(file, quote) != file.diff
    ensures FullLine(op) && file.diff == op + tail && UnifiedDiff(file, quote) == tail && Join(HeaderLines(file, quote)) <= tail
  {
    var (first, rest, ok) := Cut(file.diff, '\n');
    hide HeaderLines, Join;
    assert ok && UnifiedDiff(file, quote) == rest && Join(HeaderLines(file, quote)) <= rest;
    hide *;
    CutIs(file.diff, '\n');
    op, tail := first + "\n", rest;
    NewlineEnds(first);
  }

  lemma NewlineEnds(first: string)
    requires '\n' !in first
    ensures FullLine(first + "\n")
  {
  }

  lemma HeaderMarks(file: ReviewFile, quote: Quote)
    ensures var h := HeaderLines(file, quote); |h| == 2 && h[0] != "" && h[0][0] == '-' && h[1] != "" && h[1][0] == '+'
  {
    hide ReviewPath;
  }

  // A line's start is the text's.
  lemma OpStart(line: string, rest: string)
    requires FullLine(line)
    ensures IsHunkLine(line) <==> IsHunkLine(line + rest)
  {
    if |line| < 3 {
      assert (line + rest)[|line| - 1] == '\n';
    }
  }

  // Among hunks, the path lines are counted, one of each kind.
  lemma PathsCounted(h: seq<string>, rest: seq<string>, mark: char)
    requires |h| == 2 && h[0] != "" && h[0][0] == '-' && h[1] != "" && h[1][0] == '+' && !IsHunkLine(h[0]) && !IsHunkLine(h[1])
    requires mark == '+' || mark == '-'
    ensures CountOf(h + rest, mark, true) > CountOf(h + rest, mark, false)
  {
    hide *;
    assert h + rest == [h[0]] + ([h[1]] + rest);
    CountNext(h[1], rest, mark, true);
    CountNext(h[0], [h[1]] + rest, mark, true);
    CountNext(h[1], rest, mark, false);
    CountNext(h[0], [h[1]] + rest, mark, false);
    CountMore(rest, mark);
  }

  lemma {:induction false} CountMore(lines: seq<string>, mark: char)
    ensures CountOf(lines, mark, false) <= CountOf(lines, mark, true)
  {
    if lines != [] && !IsHunkLine(lines[0]) {
      CountMore(lines[1..], mark);
    }
  }

  lemma {:induction false} CutIs(s: string, c: char)
    ensures var (before, after, ok) := Cut(s, c); ok ==> c !in before && s == before + [c] + after
  {
    if s != [] && s[0] != c {
      CutIs(s[1..], c);
    }
  }

  /** The counts of a rendered diff are those of the rows it was rendered from. */
  lemma CountsRendered(file: ReviewFile, quote: Quote, hunks: seq<Hunk>, mark: char)
    requires Quotes(quote) && file.diff == RenderedDiff(file, quote, hunks) && (mark == '+' || mark == '-')
    requires Plain(hunks) && FitsFormat(hunks) && Follows(hunks, false, Progress(0, 0, 0, 0))
    ensures CountOf(SplitAfter(file.diff), mark, false) == AllRowsOf(hunks, mark)
  {
    hide *;
    ParseRendered(file, quote, hunks, false);
    CountsRows(file, quote, false, mark);
    OperationFirst(file, quote, hunks);
    MisledIs(file, quote);
  }

  lemma OperationFirst(file: ReviewFile, quote: Quote, hunks: seq<Hunk>)
    ensures !IsHunkLine(RenderedDiff(file, quote, hunks))
  {
    var op := OperationLine(file, quote);
    assert op[0] in {'a', 'd', 'm', 'u'} && RenderedDiff(file, quote, hunks)[0] == op[0];
  }
}
