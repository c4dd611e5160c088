/** Rendering two texts as a review, and the guarantee that the review says exactly how to
    get from one to the other. */
module ReviewRender {
  import opened Text
  import opened Regions
  import opened Matcher
  import opened Review
  import opened ReviewText

  // ----- Rows of a group

  function KindRows(kind: char, lines: seq<Line>): (rows: seq<Row>)
    ensures |rows| == |lines|
  {
    seq(|lines|, k requires 0 <= k < |lines| => Row(kind, lines[k]))
  }

  function OpRows(op: OpCode, a: seq<Line>, b: seq<Line>): seq<Row>
    requires OpFits(op, a, b)
  {
    match op.tag
    case Equal => KindRows(' ', a[op.i1..op.i2])
    case Delete => KindRows('-', a[op.i1..op.i2])
    case Insert => KindRows('+', b[op.j1..op.j2])
    case Replace => KindRows('-', a[op.i1..op.i2]) + KindRows('+', b[op.j1..op.j2])
  }

  function GroupRows(ops: seq<OpCode>, a: seq<Line>, b: seq<Line>): seq<Row>
    requires forall k :: 0 <= k < |ops| ==> OpFits(ops[k], a, b)
  {
    if ops == [] then [] else OpRows(ops[0], a, b) + GroupRows(ops[1..], a, b)
  }

  lemma SidesNone(p: seq<Row>, q: seq<Row>)
    ensures OldSide(p) == OldUpTo(p, |p|) == OldSide(p) + OldUpTo(q, 0) && NewSide(p) == NewUpTo(p, |p|) == NewSide(p) + NewUpTo(q, 0)
  {
  }

  lemma {:induction false} SidesConcat(p: seq<Row>, q: seq<Row>, n: nat)
    requires n <= |q|
    ensures OldUpTo(p + q, |p| + n) == OldSide(p) + OldUpTo(q, n)
    ensures NewUpTo(p + q, |p| + n) == NewSide(p) + NewUpTo(q, n)
  {
    hide *;
    if n == 0 {
      SidesPrefix(p, q, |p|);
      SidesNone(p, q);
    } else {
      SidesConcat(p, q, n - 1);
      NextSides(p + q, |p| + n - 1);
      NextSides(q, n - 1);
      assert (p + q)[|p| + n - 1] == q[n - 1];
    }
  }

  lemma {:induction false} SidesPrefix(p: seq<Row>, q: seq<Row>, n: nat)
    requires n <= |p|
    ensures OldUpTo(p + q, n) == OldUpTo(p, n) && NewUpTo(p + q, n) == NewUpTo(p, n)
  {
    if n > 0 {
      SidesPrefix(p, q, n - 1);
    }
  }

  lemma {:induction false} KindSides(kind: char, lines: seq<Line>, n: nat)
    requires IsKind(kind) && n <= |lines|
    ensures OldUpTo(KindRows(kind, lines), n) == if kind == '+' then [] else lines[..n]
    ensures NewUpTo(KindRows(kind, lines), n) == if kind == '-' then [] else lines[..n]
  {
    hide *;
    var rows := KindRows(kind, lines);
    if n > 0 {
      KindSides(kind, lines, n - 1);
      NextSides(rows, n - 1);
      KindRowAt(kind, lines, n - 1);
      assert lines[..n] == lines[..n - 1] + [lines[n - 1]];
    } else {
      SidesStart(rows);
      assert lines[..0] == [];
    }
  }

  lemma KindRowAt(kind: char, lines: seq<Line>, k: nat)
    requires k < |lines|
    ensures |KindRows(kind, lines)| == |lines| && var row := KindRows(kind, lines)[k];
            OldRow(row) == (if kind == '+' then [] else [lines[k]]) && NewRow(row) == if kind == '-' then [] else [lines[k]]
  {
  }

  lemma SidesStart(rows: seq<Row>)
    ensures OldUpTo(rows, 0) == [] && NewUpTo(rows, 0) == []
  {
  }

  lemma SideConcat(p: seq<Row>, q: seq<Row>)
    ensures OldSide(p + q) == OldSide(p) + OldSide(q) && NewSide(p + q) == NewSide(p) + NewSide(q)
  {
    SidesConcat(p, q, |q|);
  }

  lemma KindSide(kind: char, lines: seq<Line>)
    requires IsKind(kind)
    ensures OldSide(KindRows(kind, lines)) == if kind == '+' then [] else lines
    ensures NewSide(KindRows(kind, lines)) == if kind == '-' then [] else lines
  {
    KindSides(kind, lines, |lines|);
    assert lines[..|lines|] == lines;
  }

  lemma OpSides(op: OpCode, a: seq<Line>, b: seq<Line>)
    requires OpFits(op, a, b)
    ensures OldSide(OpRows(op, a, b)) == a[op.i1..op.i2] && NewSide(OpRows(op, a, b)) == b[op.j1..op.j2]
  {
    hide OldSide, NewSide, KindRows;
    var x, y := a[op.i1..op.i2], b[op.j1..op.j2];
    match op.tag
    case Equal => KindSide(' ', x);
    case Delete => KindSide('-', x);
    case Insert => KindSide('+', y);
    case Replace =>
      KindSide('-', x);
      KindSide('+', y);
      SideConcat(KindRows('-', x), KindRows('+', y));
  }

  lemma {:induction false} TilesFit(ops: seq<OpCode>, a: seq<Line>, b: seq<Line>, i: int, j: int, i2: int, j2: int)
    requires Tiles(ops, a, b, i, j, i2, j2)
    ensures forall k :: 0 <= k < |ops| ==> OpFits(ops[k], a, b)
  {
    if ops != [] {
      TilesFit(ops[1..], a, b, ops[0].i2, ops[0].j2, i2, j2);
      assert ops == [ops[0]] + ops[1..];
    }
  }

  /** The rows of a tiling read as the old text with the additions left out, and as the new
      text with the removals left out. */
  lemma {:induction false} GroupSides(ops: seq<OpCode>, a: seq<Line>, b: seq<Line>, i: int, j: int, i2: int, j2: int)
    requires Tiles(ops, a, b, i, j, i2, j2) && 0 <= i <= |a| && 0 <= j <= |b|
    requires forall k :: 0 <= k < |ops| ==> OpFits(ops[k], a, b)
    ensures i <= i2 <= |a| && j <= j2 <= |b|
    ensures OldSide(GroupRows(ops, a, b)) == a[i..i2] && NewSide(GroupRows(ops, a, b)) == b[j..j2]
  {
    if ops == [] {
      assert a[i..i2] == [] && b[j..j2] == [];
    } else {
      var op := ops[0];
      TilesBounds(ops[1..], a, b, op.i2, op.j2, i2, j2);
      GroupSides(ops[1..], a, b, op.i2, op.j2, i2, j2);
      OpSides(op, a, b);
      hide OldSide, NewSide, OpRows, Tiles;
      SideConcat(OpRows(op, a, b), GroupRows(ops[1..], a, b));
      Halves(a, i, op.i2, i2);
      Halves(b, j, op.j2, j2);
    }
  }

  lemma Halves<T>(s: seq<T>, i: int, k: int, n: int)
    requires 0 <= i <= k <= n <= |s|
    ensures s[i..k] + s[k..n] == s[i..n]
  {
  }

  // ----- Hunks of a rendering

  function GroupHunk(group: seq<OpCode>, a: seq<Line>, b: seq<Line>, beforeOffset: int, afterOffset: int): Hunk
    requires GroupFits(group, a, b)
  {
    TilesFit(group, a, b, First(group).i1, First(group).j1, Last(group).i2, Last(group).j2);
    var rows := GroupRows(group, a, b);
    var start := afterOffset + First(group).j1;
    Hunk(beforeOffset + First(group).i1, start, start + FirstChange(rows), rows)
  }

  function GroupHunks(groups: seq<seq<OpCode>>, a: seq<Line>, b: seq<Line>, beforeOffset: int, afterOffset: int): seq<Hunk>
    requires forall k :: 0 <= k < |groups| ==> GroupFits(groups[k], a, b)
  {
    seq(|groups|, k requires 0 <= k < |groups| => GroupHunk(groups[k], a, b, beforeOffset, afterOffset))
  }

  // The hunks a capture is rendered from, with ten lines of context.
  function WideHunks(grouper: Grouper, a: seq<Line>, b: seq<Line>): seq<Hunk>
    requires GroupsFit(grouper(a, b, 10), a, b)
  {
    GroupHunks(grouper(a, b, 10), a, b, 0, 0)
  }

  lemma GroupHunkRegion(group: seq<OpCode>, a: seq<Line>, b: seq<Line>, beforeOffset: int, afterOffset: int)
    requires GroupFits(group, a, b)
    ensures var r := GroupRegion(group, a, b);
            HunkRegion(GroupHunk(group, a, b, beforeOffset, afterOffset)) == r.(beforeStart := r.beforeStart + beforeOffset, afterStart := r.afterStart + afterOffset)
  {
    TilesFit(group, a, b, First(group).i1, First(group).j1, Last(group).i2, Last(group).j2);
    GroupSides(group, a, b, First(group).i1, First(group).j1, Last(group).i2, Last(group).j2);
  }

  /** A rendering's hunks carry the old text to the new one: nothing is lost between them,
      and both sides of each read as the texts do. */
  lemma RenderCarries(groups: seq<seq<OpCode>>, a: seq<Line>, b: seq<Line>)
    requires GroupsFit(groups, a, b)
    ensures Carries(HunkRegions(GroupHunks(groups, a, b, 0, 0)), a, b)
  {
    var hunks := GroupHunks(groups, a, b, 0, 0);
    forall k | 0 <= k < |groups| ensures HunkRegions(hunks)[k] == GroupRegions(groups, a, b)[k] {
      GroupHunkRegion(groups[k], a, b, 0, 0);
    }
    assert HunkRegions(hunks) == GroupRegions(groups, a, b);
  }

  // ----- Rendered hunks survive the text

  predicate LinesOk(lines: seq<Line>) { forall k :: 0 <= k < |lines| ==> OneLine(lines[k]) }

  lemma {:induction false} GroupPrintable(ops: seq<OpCode>, a: seq<Line>, b: seq<Line>)
    requires forall k :: 0 <= k < |ops| ==> OpFits(ops[k], a, b)
    requires LinesOk(a) && LinesOk(b)
    ensures Printable(GroupRows(ops, a, b))
  {
    if ops != [] {
      GroupPrintable(ops[1..], a, b);
      var rows := OpRows(ops[0], a, b);
      assert Printable(rows);
    }
  }

  lemma RenderPlain(groups: seq<seq<OpCode>>, a: seq<Line>, b: seq<Line>, beforeOffset: nat, afterOffset: nat)
    requires GroupsFit(groups, a, b) && LinesOk(a) && LinesOk(b)
    ensures Plain(GroupHunks(groups, a, b, beforeOffset, afterOffset))
  {
    var hunks := GroupHunks(groups, a, b, beforeOffset, afterOffset);
    RunBounds(GroupRegions(groups, a, b), a, b, 0, 0, |a|, |b|);
    forall k | 0 <= k < |hunks| ensures Printable(hunks[k].rows) && 0 <= hunks[k].beforeStart && 0 <= hunks[k].afterStart {
      assert GroupRegions(groups, a, b)[k] == GroupRegion(groups[k], a, b);
      TilesFit(groups[k], a, b, First(groups[k]).i1, First(groups[k]).j1, Last(groups[k]).i2, Last(groups[k]).j2);
      GroupPrintable(groups[k], a, b);
    }
  }

  lemma RenderFollows(groups: seq<seq<OpCode>>, a: seq<Line>, b: seq<Line>, beforeOffset: nat, afterOffset: nat, complete: bool)
    requires GroupsFit(groups, a, b) && LinesOk(a) && LinesOk(b)
    requires complete ==> beforeOffset == afterOffset == 0
    ensures Follows(GroupHunks(groups, a, b, beforeOffset, afterOffset), complete, Progress(0, 0, 0, 0))
  {
    var hunks := GroupHunks(groups, a, b, beforeOffset, afterOffset);
    RenderPlain(groups, a, b, beforeOffset, afterOffset);
    RunBounds(GroupRegions(groups, a, b), a, b, 0, 0, |a|, |b|);
    hide Printable;
    forall k | 0 <= k < |groups| ensures HunkRegion(hunks[k]) == GroupRegions(groups, a, b)[k].(beforeStart := First(groups[k]).i1 + beforeOffset, afterStart := First(groups[k]).j1 + afterOffset)
    ensures ValidKinds(hunks[k].rows)
    {
      GroupHunkRegion(groups[k], a, b, beforeOffset, afterOffset);
      assert Printable(hunks[k].rows) ==> ValidKinds(hunks[k].rows) by { PrintableKinds(hunks[k].rows); }
    }
    if complete {
      RenderCarries(groups, a, b);
      CarriesPlaced(HunkRegions(hunks), a, b);
    }
  }

  lemma PrintableKinds(rows: seq<Row>)
    ensures Printable(rows) ==> ValidKinds(rows)
  {
  }

  /** The full round trip: a rendering, read back as text, gives the rendered hunks, if the format
      can hold them, and is refused if not. */
  lemma RenderParses(file: ReviewFile, quote: Quote, groups: seq<seq<OpCode>>, a: seq<Line>, b: seq<Line>, beforeOffset: nat, afterOffset: nat, complete: bool)
    requires GroupsFit(groups, a, b) && LinesOk(a) && LinesOk(b) && Quotes(quote)
    requires file.diff == RenderedDiff(file, quote, GroupHunks(groups, a, b, beforeOffset, afterOffset))
    requires complete ==> beforeOffset == afterOffset == 0
    ensures var r, hunks := ParseHunks(file, quote, complete), GroupHunks(groups, a, b, beforeOffset, afterOffset);
            if FitsFormat(hunks) then r == Ok(hunks) else r.Err?
  {
    RenderPlain(groups, a, b, beforeOffset, afterOffset);
    RenderFollows(groups, a, b, beforeOffset, afterOffset, complete);
    hide *;
    ParseRendered(file, quote, GroupHunks(groups, a, b, beforeOffset, afterOffset), complete);
  }

  // ----- The renderer

  lemma {:induction false} PrintConcat(p: seq<Row>, q: seq<Row>)
    ensures PrintRows(p + q) == PrintRows(p) + PrintRows(q)
  {
    if p == [] {
      assert p + q == q;
    } else {
      assert (p + q)[1..] == p[1..] + q && (p + q)[0] == p[0];
      PrintConcat(p[1..], q);
    }
  }

  // The builder's content, as the lines written to it.
  method WriteReviewLines(output: seq<string>, prefix: char, lines: seq<Line>) returns (written: seq<string>)
    ensures written == output + PrintRows(KindRows(prefix, lines))
  {
    written := output;
    var i := 0;
    ghost var rows := KindRows(prefix, lines);
    assert rows[..0] == [];
    while i < |lines|
      invariant 0 <= i <= |lines|
      invariant written == output + PrintRows(rows[..i])
    {
      var line := lines[i];
      PrintNext(rows, i);
      if EndsLine(line) {
        written := written + [[prefix] + line];
      } else {
        written := written + [[prefix] + line + "\n", Marker()];
      }
      i := i + 1;
    }
    assert rows[..i] == rows;
  }

  lemma PrintNext(rows: seq<Row>, i: nat)
    requires i < |rows|
    ensures PrintRows(rows[..i + 1]) == PrintRows(rows[..i]) + PrintRow(rows[i])
  {
    hide PrintRow;
    assert rows[..i + 1] == rows[..i] + [rows[i]];
    PrintConcat(rows[..i], [rows[i]]);
    assert [rows[i]][1..] == [] && PrintRows([rows[i]]) == PrintRow(rows[i]) + [];
  }

  // One hunk: its ranges, then the rows of every opcode.
  method RenderGroup(output: seq<string>, group: seq<OpCode>, a: seq<Line>, b: seq<Line>, beforeOffset: int, afterOffset: int) returns (written: seq<string>)
    requires GroupFits(group, a, b)
    ensures var h := GroupHunk(group, a, b, beforeOffset, afterOffset); written == output + [HunkLine(h)] + PrintRows(h.rows)
  {
    hide *;
    GroupHunkPrint(group, a, b, beforeOffset, afterOffset);
    var first, last := First(group), Last(group);
    written := output + [RangeLine(beforeOffset + first.i1, beforeOffset + last.i2, afterOffset + first.j1, afterOffset + last.j2)];
    written := WriteOps(written, group, a, b);
  }

  lemma GroupHunkPrint(group: seq<OpCode>, a: seq<Line>, b: seq<Line>, beforeOffset: int, afterOffset: int)
    requires GroupFits(group, a, b)
    ensures group != [] && forall k :: 0 <= k < |group| ==> OpFits(group[k], a, b)
    ensures var h := GroupHunk(group, a, b, beforeOffset, afterOffset);
            && HunkLine(h) == RangeLine(beforeOffset + First(group).i1, beforeOffset + Last(group).i2, afterOffset + First(group).j1, afterOffset + Last(group).j2)
            && h.rows == GroupRows(group, a, b)
  {
    TilesFit(group, a, b, First(group).i1, First(group).j1, Last(group).i2, Last(group).j2);
    GroupHunkRegion(group, a, b, beforeOffset, afterOffset);
  }

  lemma NoRows(group: seq<OpCode>, a: seq<Line>, b: seq<Line>)
    ensures PrintRows(GroupRows(group[..0], a, b)) == []
  {
    assert group[..0] == [];
  }

  method WriteOps(output: seq<string>, group: seq<OpCode>, a: seq<Line>, b: seq<Line>) returns (written: seq<string>)
    requires forall k :: 0 <= k < |group| ==> OpFits(group[k], a, b)
    ensures written == output + PrintRows(GroupRows(group, a, b))
  {
    hide *;
    written := output;
    var i := 0;
    NoRows(group, a, b);
    while i < |group|
      invariant 0 <= i <= |group|
      invariant written == output + PrintRows(GroupRows(group[..i], a, b))
    {
      GroupRowsNext(group, i, a, b);
      written := WriteOp(written, group[i], a, b);
      i := i + 1;
    }
    assert group[..i] == group;
  }

  method WriteOp(output: seq<string>, op: OpCode, a: seq<Line>, b: seq<Line>) returns (written: seq<string>)
    requires OpFits(op, a, b)
    ensures written == output + PrintRows(OpRows(op, a, b))
  {
    hide PrintRows, KindRows;
    written := output;
    if op.tag == Equal {
      written := WriteReviewLines(written, ' ', a[op.i1..op.i2]);
    }
    if op.tag == Replace || op.tag == Delete {
      written := WriteReviewLines(written, '-', a[op.i1..op.i2]);
    }
    if op.tag == Replace || op.tag == Insert {
      written := WriteReviewLines(written, '+', b[op.j1..op.j2]);
    }
    PrintConcat(KindRows('-', a[op.i1..op.i2]), KindRows('+', b[op.j1..op.j2]));
  }

  lemma GroupRowsNext(group: seq<OpCode>, i: nat, a: seq<Line>, b: seq<Line>)
    requires i < |group| && forall k :: 0 <= k < |group| ==> OpFits(group[k], a, b)
    ensures PrintRows(GroupRows(group[..i + 1], a, b)) == PrintRows(GroupRows(group[..i], a, b)) + PrintRows(OpRows(group[i], a, b))
  {
    hide PrintRows, OpRows, GroupRows;
    GroupRowsSnoc(group[..i], group[i], a, b);
    assert group[..i] + [group[i]] == group[..i + 1];
    PrintConcat(GroupRows(group[..i], a, b), OpRows(group[i], a, b));
  }

  lemma {:induction false} GroupRowsSnoc(ops: seq<OpCode>, op: OpCode, a: seq<Line>, b: seq<Line>)
    requires OpFits(op, a, b) && forall k :: 0 <= k < |ops| ==> OpFits(ops[k], a, b)
    ensures GroupRows(ops + [op], a, b) == GroupRows(ops, a, b) + OpRows(op, a, b)
  {
    hide OpRows;
    if ops == [] {
      assert (ops + [op])[1..] == [];
    } else {
      assert (ops + [op])[1..] == ops[1..] + [op];
      GroupRowsSnoc(ops[1..], op, a, b);
    }
  }

  /** Prints the groups of a matching as a review file. */
  method RenderReviewGroups(file: ReviewFile, quote: Quote, a: seq<Line>, b: seq<Line>, beforeOffset: int, afterOffset: int, groups: seq<seq<OpCode>>)
    returns (rendered: ReviewFile)
    requires forall k :: 0 <= k < |groups| ==> GroupFits(groups[k], a, b)
    ensures rendered == file.(diff := RenderedDiff(file, quote, GroupHunks(groups, a, b, beforeOffset, afterOffset)))
  {
    hide *;
    var output := if groups != [] then HeaderLines(file, quote) else [];
    ghost var hunks, start := GroupHunks(groups, a, b, beforeOffset, afterOffset), output;
    RenderStart(file, quote, groups, a, b, beforeOffset, afterOffset, start);
    var i := 0;
    while i < |groups|
      invariant 0 <= i <= |groups|
      invariant output == start + PrintHunks(hunks[..i])
    {
      output := RenderGroup(output, groups[i], a, b, beforeOffset, afterOffset);
      PrintHunksNext(hunks, i);
      i := i + 1;
    }
    assert hunks[..i] == hunks;
    rendered := file.(diff := OperationLine(file, quote) + Join(output));
  }

  lemma RenderStart(file: ReviewFile, quote: Quote, groups: seq<seq<OpCode>>, a: seq<Line>, b: seq<Line>, beforeOffset: int, afterOffset: int, start: seq<string>)
    requires forall k :: 0 <= k < |groups| ==> GroupFits(groups[k], a, b)
    requires start == if groups != [] then HeaderLines(file, quote) else []
    ensures var hunks := GroupHunks(groups, a, b, beforeOffset, afterOffset);
            && |hunks| == |groups| && (forall k :: 0 <= k < |groups| ==> hunks[k] == GroupHunk(groups[k], a, b, beforeOffset, afterOffset))
            && PrintHunks(hunks[..0]) == []
            && RenderedDiff(file, quote, hunks) == OperationLine(file, quote) + Join(start + PrintHunks(hunks))
  {
    var hunks := GroupHunks(groups, a, b, beforeOffset, afterOffset);
    hide GroupHunk, HunkLine, PrintRows, HeaderLines, OperationLine, Join, GroupFits;
    assert hunks[..0] == [];
    assert hunks == [] ==> start + PrintHunks(hunks) == [];
  }

  lemma PrintHunksNext(hunks: seq<Hunk>, i: nat)
    requires i < |hunks|
    ensures PrintHunks(hunks[..i + 1]) == PrintHunks(hunks[..i]) + [HunkLine(hunks[i])] + PrintRows(hunks[i].rows)
  {
    hide *;
    PrintHunksSnoc(hunks[..i], hunks[i]);
    assert hunks[..i + 1] == hunks[..i] + [hunks[i]];
  }

  lemma {:induction false} PrintHunksSnoc(hunks: seq<Hunk>, h: Hunk)
    ensures PrintHunks(hunks + [h]) == PrintHunks(hunks) + [HunkLine(h)] + PrintRows(h.rows)
  {
    hide HunkLine, PrintRows;
    if hunks == [] {
      assert (hunks + [h])[1..] == [];
    } else {
      assert (hunks + [h])[1..] == hunks[1..] + [h] && (hunks + [h])[0] == hunks[0];
      PrintHunksSnoc(hunks[1..], h);
    }
  }
}
