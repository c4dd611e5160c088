/** Captured reviews as data: files, hunks and rows. */
module Review {
  import opened Regions

  datatype Row = Row(kind: char, text: Line)

  datatype Hunk = Hunk(beforeStart: int, afterStart: int, changedStart: int, rows: seq<Row>)

  // What a row contributes to the text before, and to the text after.
  function OldRow(row: Row): seq<Line> { if row.kind == '+' then [] else [row.text] }

  function NewRow(row: Row): seq<Line> { if row.kind == '-' then [] else [row.text] }

  // The text before, and the text after, of the first n rows.
  function OldUpTo(rows: seq<Row>, n: nat): seq<Line>
    requires n <= |rows|
  {
    if n == 0 then [] else OldUpTo(rows, n - 1) + OldRow(rows[n - 1])
  }

  function NewUpTo(rows: seq<Row>, n: nat): seq<Line>
    requires n <= |rows|
  {
    if n == 0 then [] else NewUpTo(rows, n - 1) + NewRow(rows[n - 1])
  }

  function OldSide(rows: seq<Row>): seq<Line> { OldUpTo(rows, |rows|) }

  function NewSide(rows: seq<Row>): seq<Line> { NewUpTo(rows, |rows|) }

  // A hunk, context included, as a replacement.
  function HunkRegion(h: Hunk): Region
  {
    Region(h.beforeStart, h.afterStart, OldSide(h.rows), NewSide(h.rows), false, false)
  }

  function HunkRegions(hunks: seq<Hunk>): (rs: seq<Region>)
    ensures |rs| == |hunks|
    ensures forall k :: 0 <= k < |rs| ==> rs[k] == HunkRegion(hunks[k])
  {
    seq(|hunks|, k requires 0 <= k < |hunks| => HunkRegion(hunks[k]))
  }

  // Context, removal or addition.
  predicate IsKind(c: char) { c == ' ' || c == '-' || c == '+' }

  predicate ValidKinds(rows: seq<Row>)
  {
    forall k :: 0 <= k < |rows| ==> IsKind(rows[k].kind)
  }

  // What the parser promises about coordinates: in order, without overlap, and, for a whole
  // file's capture, with new positions explained by the hunks before.
  ghost predicate Ordered(hunks: seq<Hunk>, complete: bool)
  {
    && (forall k :: 0 <= k < |hunks| ==> 0 <= hunks[k].beforeStart && 0 <= hunks[k].afterStart && ValidKinds(hunks[k].rows))
    && (forall k, l :: 0 <= k < l < |hunks| ==>
          && HunkRegion(hunks[k]).BeforeEnd() <= hunks[l].beforeStart
          && HunkRegion(hunks[k]).AfterEnd() <= hunks[l].afterStart)
    && (complete ==> Placed(HunkRegions(hunks)))
  }

  // ----- The edits inside a hunk

  /** Adds a row at old position `i` and new position `j` to the edits found so far: context
      adds nothing, a changed row grows the edit just before it or opens a new one. */
  function AddRow(es: seq<Region>, row: Row, adjacent: bool, i: int, j: int): seq<Region>
    requires adjacent ==> es != []
  {
    if row.kind == ' ' then es
    else if adjacent then es[..|es| - 1] + [Grown(es[|es| - 1], OldRow(row), NewRow(row))]
    else es + [Region(i, j, OldRow(row), NewRow(row), false, false)]
  }

  predicate EndsChanged(rows: seq<Row>, n: nat)
    requires n <= |rows|
  {
    n > 0 && rows[n - 1].kind != ' '
  }

  // The maximal runs of changed rows among the first n, the first row standing at old position `b` and new position `a`.
  function EditsUpTo(rows: seq<Row>, n: nat, b: int, a: int): (es: seq<Region>)
    requires n <= |rows|
    ensures EndsChanged(rows, n) ==> es != []
  {
    if n == 0 then []
    else AddRow(EditsUpTo(rows, n - 1, b, a), rows[n - 1], EndsChanged(rows, n - 1), b + |OldUpTo(rows, n - 1)|, a + |NewUpTo(rows, n - 1)|)
  }

  function HunkEditsUpTo(hunks: seq<Hunk>, n: nat): seq<Region>
    requires n <= |hunks|
  {
    if n == 0 then []
    else HunkEditsUpTo(hunks, n - 1) + EditsUpTo(hunks[n - 1].rows, |hunks[n - 1].rows|, hunks[n - 1].beforeStart, hunks[n - 1].afterStart)
  }

  function HunkEdits(hunks: seq<Hunk>): seq<Region> { HunkEditsUpTo(hunks, |hunks|) }

  predicate Reads(s: seq<Line>, at: int, text: seq<Line>)
  {
    0 <= at && at + |text| <= |s| && s[at..at + |text|] == text
  }

  lemma AddRowRun(es: seq<Region>, row: Row, adjacent: bool, base: seq<Line>, cur: seq<Line>, b: int, a: int, i: int, j: int, i2: int, j2: int)
    requires Run(es, base, cur, b, a, i, j)
    requires adjacent ==> EndsAt(es, i, j)
    requires Reads(base, i, OldRow(row)) && Reads(cur, j, NewRow(row))
    requires i2 == i + |OldRow(row)| && j2 == j + |NewRow(row)|
    ensures Run(AddRow(es, row, adjacent, i, j), base, cur, b, a, i2, j2)
    ensures row.kind != ' ' ==> EndsAt(AddRow(es, row, adjacent, i, j), i2, j2)
  {
    hide Run;
    if row.kind == ' ' {
      RunExtend(es, base, cur, b, a, i, j, 1);
    } else if adjacent {
      RunGrowLast(es, base, cur, b, a, i, j, OldRow(row), NewRow(row));
    } else {
      RunSnoc(es, Region(i, j, OldRow(row), NewRow(row), false, false), base, cur, b, a);
    }
  }

  predicate EndsAt(es: seq<Region>, i: int, j: int)
  {
    es != [] && es[|es| - 1].BeforeEnd() == i && es[|es| - 1].AfterEnd() == j
  }

  lemma NextRow(rows: seq<Row>, n: nat, b: int, a: int, base: seq<Line>, cur: seq<Line>, i: int, j: int, i2: int, j2: int)
    requires n < |rows| && i == b + |OldUpTo(rows, n)| && j == a + |NewUpTo(rows, n)|
    requires i2 == i + |OldRow(rows[n])| && j2 == j + |NewRow(rows[n])|
    requires Run(EditsUpTo(rows, n, b, a), base, cur, b, a, i, j)
    requires EndsChanged(rows, n) ==> EndsAt(EditsUpTo(rows, n, b, a), i, j)
    requires Reads(base, i, OldRow(rows[n])) && Reads(cur, j, NewRow(rows[n]))
    ensures Run(EditsUpTo(rows, n + 1, b, a), base, cur, b, a, i2, j2)
    ensures EndsChanged(rows, n + 1) ==> EndsAt(EditsUpTo(rows, n + 1, b, a), i2, j2)
  {
    hide Run;
    AddRowRun(EditsUpTo(rows, n, b, a), rows[n], EndsChanged(rows, n), base, cur, b, a, i, j, i2, j2);
  }

  /** A hunk's edits say what the hunk says, with the context taken out. */
  lemma {:induction false} RowEditsRun(rows: seq<Row>, n: nat, b: int, a: int, base: seq<Line>, cur: seq<Line>, i: int, j: int)
    requires n <= |rows| && Reads(base, b, OldUpTo(rows, n)) && Reads(cur, a, NewUpTo(rows, n))
    requires i == b + |OldUpTo(rows, n)| && j == a + |NewUpTo(rows, n)|
    ensures Run(EditsUpTo(rows, n, b, a), base, cur, b, a, i, j)
    ensures EndsChanged(rows, n) ==> EndsAt(EditsUpTo(rows, n, b, a), i, j)
  {
    hide *;
    if n == 0 {
      NoEdits(rows, b, a, base, cur);
    } else {
      var m := n - 1;
      NextSides(rows, m);
      PrefixReads(base, b, OldUpTo(rows, n), OldUpTo(rows, m), OldRow(rows[m]));
      PrefixReads(cur, a, NewUpTo(rows, n), NewUpTo(rows, m), NewRow(rows[m]));
      var i', j' := b + |OldUpTo(rows, m)|, a + |NewUpTo(rows, m)|;
      RowEditsRun(rows, m, b, a, base, cur, i', j');
      NextRow(rows, m, b, a, base, cur, i', j', i, j);
    }
  }

  lemma NextSides(rows: seq<Row>, n: nat)
    requires n < |rows|
    ensures OldUpTo(rows, n + 1) == OldUpTo(rows, n) + OldRow(rows[n]) && NewUpTo(rows, n + 1) == NewUpTo(rows, n) + NewRow(rows[n])
  {
  }

  lemma NoEdits(rows: seq<Row>, b: int, a: int, base: seq<Line>, cur: seq<Line>)
    requires Reads(base, b, OldUpTo(rows, 0)) && Reads(cur, a, NewUpTo(rows, 0))
    ensures |OldUpTo(rows, 0)| == |NewUpTo(rows, 0)| == 0 && !EndsChanged(rows, 0) && Run(EditsUpTo(rows, 0, b, a), base, cur, b, a, b, a)
  {
    assert base[b..b] == cur[a..a];
  }

  lemma PrefixReads(s: seq<Line>, b: int, whole: seq<Line>, p: seq<Line>, q: seq<Line>)
    requires Reads(s, b, whole) && whole == p + q
    ensures |whole| == |p| + |q| && Reads(s, b, p) && Reads(s, b + |p|, q)
  {
    SliceSlice(s, b, |p| + |q|, 0, |p|);
    SliceSlice(s, b, |p| + |q|, |p|, |p| + |q|);
    assert (p + q)[0..|p|] == p && (p + q)[|p|..|p| + |q|] == q;
  }

  /** Taken together, a capture's edits carry one file to the other exactly as its hunks do. */
  lemma {:induction false} HunkEditsRun(hunks: seq<Hunk>, n: nat, base: seq<Line>, cur: seq<Line>, i2: int, j2: int)
    requires n <= |hunks| && Run(HunkRegions(hunks)[..n], base, cur, 0, 0, i2, j2)
    ensures Run(HunkEditsUpTo(hunks, n), base, cur, 0, 0, i2, j2)
  {
    if n > 0 {
      hide Run, HunkEditsUpTo, HunkRegion;
      var rs := HunkRegions(hunks);
      var r := rs[n - 1];
      RunLast(rs[..n], base, cur, 0, 0, i2, j2);
      assert rs[..n][..n - 1] == rs[..n - 1];
      HunkEditsRun(hunks, n - 1, base, cur, r.beforeStart, r.afterStart);
      NextHunk(hunks, n - 1, r, base, cur, i2, j2);
    }
  }

  lemma NextHunk(hunks: seq<Hunk>, n: nat, r: Region, base: seq<Line>, cur: seq<Line>, i2: int, j2: int)
    requires n < |hunks| && r == HunkRegion(hunks[n])
    requires Run(HunkEditsUpTo(hunks, n), base, cur, 0, 0, r.beforeStart, r.afterStart)
    requires 0 <= r.beforeStart && r.BeforeEnd() <= |base| && base[r.beforeStart..r.BeforeEnd()] == r.before
    requires 0 <= r.afterStart && r.AfterEnd() <= |cur| && cur[r.afterStart..r.AfterEnd()] == r.after
    requires Run([], base, cur, r.BeforeEnd(), r.AfterEnd(), i2, j2)
    ensures Run(HunkEditsUpTo(hunks, n + 1), base, cur, 0, 0, i2, j2)
  {
    var h := hunks[n];
    hide Run, EditsUpTo, OldSide, NewSide;
    WholeHunk(h, r, base, cur);
    JoinRuns(HunkEditsUpTo(hunks, n), EditsUpTo(h.rows, |h.rows|, h.beforeStart, h.afterStart), base, cur, r.beforeStart, r.afterStart, r.BeforeEnd(), r.AfterEnd(), i2, j2);
  }

  lemma WholeHunk(h: Hunk, r: Region, base: seq<Line>, cur: seq<Line>)
    requires r == HunkRegion(h)
    requires 0 <= r.beforeStart && r.BeforeEnd() <= |base| && base[r.beforeStart..r.BeforeEnd()] == r.before
    requires 0 <= r.afterStart && r.AfterEnd() <= |cur| && cur[r.afterStart..r.AfterEnd()] == r.after
    ensures Run(EditsUpTo(h.rows, |h.rows|, h.beforeStart, h.afterStart), base, cur, r.beforeStart, r.afterStart, r.BeforeEnd(), r.AfterEnd())
  {
    hide Run, OldUpTo, NewUpTo, EditsUpTo;
    RowEditsRun(h.rows, |h.rows|, h.beforeStart, h.afterStart, base, cur, r.BeforeEnd(), r.AfterEnd());
  }

  lemma JoinRuns(ps: seq<Region>, qs: seq<Region>, base: seq<Line>, cur: seq<Line>, m: int, n: int, m2: int, n2: int, i2: int, j2: int)
    requires Run(ps, base, cur, 0, 0, m, n) && Run(qs, base, cur, m, n, m2, n2) && Run([], base, cur, m2, n2, i2, j2)
    ensures Run(ps + qs, base, cur, 0, 0, i2, j2)
  {
    hide Run;
    RunConcat(ps, qs, base, cur, 0, 0, m, n, m2, n2);
    RunConcat(ps + qs, [], base, cur, 0, 0, m2, n2, i2, j2);
    assert ps + qs + [] == ps + qs;
  }
}
