/** What a capture's context teaches a composition, and why the lesson is consistent: there
    is always a pair of files that agrees with everything remembered. */
module Learning {
  import opened Text
  import opened Regions
  import opened RegionEdits
  import opened Review
  import opened ReviewText
  import opened Recall
  import opened CompositionFacts

  // Changing one line that no region covers, in both files.
  lemma CarriesPoked(rs: seq<Region>, base: seq<Line>, cur: seq<Line>, k: nat, position: int, o: int, text: Line)
    requires Carries(rs, base, cur) && k <= |rs| && 0 <= position < |cur|
    requires k > 0 ==> rs[k - 1].AfterEnd() <= position
    requires k < |rs| ==> position < rs[k].afterStart
    requires o == if k < |rs| then position + rs[k].beforeStart - rs[k].afterStart else position + |base| - |cur|
    ensures 0 <= o < |base| && Carries(rs, base[o := text], cur[position := text])
  {
    hide *;
    CarriesRun(rs, base, cur);
    var m := RunCutAt(rs, base, cur, 0, 0, |base|, |cur|, k, position);
    RunRange(rs[..k], base, cur, 0, 0, o, position);
    assert k < |rs| ==> rs[k..][0] == rs[k];
    RunFirst(rs[k..], base, cur, o, position, |base|, |cur|);
    RunAdvance(rs[k..], base, cur, o, position, |base|, |cur|);
    PokedJoin(rs[..k], rs[k..], base, cur, o, position, text);
    assert rs[..k] + rs[k..] == rs;
  }

  lemma PokedJoin(ps: seq<Region>, qs: seq<Region>, base: seq<Line>, cur: seq<Line>, o: int, position: int, text: Line)
    requires 0 <= o < |base| && 0 <= position < |cur| && Run(ps, base, cur, 0, 0, o, position) && Run(qs, base, cur, o + 1, position + 1, |base|, |cur|)
    ensures Carries(ps + qs, base[o := text], cur[position := text])
  {
    hide *;
    var base', cur' := base[o := text], cur[position := text];
    PokedHead(ps, base, cur, position, o, text);
    PokedTail(qs, base, cur, position, o, text);
    RunConcat(ps, qs, base', cur', 0, 0, o + 1, position + 1, |base|, |cur|);
    CarriesWhole(ps + qs, base', cur');
  }

  lemma CarriesWhole(rs: seq<Region>, base: seq<Line>, cur: seq<Line>)
    requires Run(rs, base, cur, 0, 0, |base|, |cur|)
    ensures Carries(rs, base, cur)
  {
  }

  lemma PokedHead(rs: seq<Region>, base: seq<Line>, cur: seq<Line>, position: int, o: int, text: Line)
    requires 0 <= position < |cur| && 0 <= o < |base| && Run(rs, base, cur, 0, 0, o, position)
    ensures Run(rs, base[o := text], cur[position := text], 0, 0, o + 1, position + 1)
  {
    hide Run;
    var base', cur' := base[o := text], cur[position := text];
    RunRebased(rs, base, base', cur, 0, 0, o, position);
    RunUnmoved(rs, base', cur, cur', 0, 0, o, position);
    assert base'[o..o + 1] == [text] == cur'[position..position + 1];
    RunExtend(rs, base', cur', 0, 0, o, position, 1);
  }

  lemma PokedTail(rs: seq<Region>, base: seq<Line>, cur: seq<Line>, position: int, o: int, text: Line)
    requires 0 <= position < |cur| && 0 <= o < |base| && Run(rs, base, cur, o + 1, position + 1, |base|, |cur|)
    ensures Run(rs, base[o := text], cur[position := text], o + 1, position + 1, |base|, |cur|)
  {
    hide Run;
    var base', cur' := base[o := text], cur[position := text];
    RunRebased(rs, base, base', cur, o + 1, position + 1, |base|, |cur|);
    RunUnmoved(rs, base', cur, cur', o + 1, position + 1, |base|, |cur|);
  }

  // Both files may go on with the same lines.
  lemma CarriesLonger(rs: seq<Region>, base: seq<Line>, cur: seq<Line>, tail: seq<Line>)
    requires Carries(rs, base, cur)
    ensures Carries(rs, base + tail, cur + tail)
  {
    RunRebased(rs, base, base + tail, cur, 0, 0, |base|, |cur|);
    RunUnmoved(rs, base + tail, cur, cur + tail, 0, 0, |base|, |cur|);
    assert (base + tail)[|base|..|base| + |tail|] == tail == (cur + tail)[|cur|..|cur| + |tail|];
    RunExtend(rs, base + tail, cur + tail, 0, 0, |base|, |cur|, |tail|);
  }

  lemma DescribeLonger(rs: seq<Region>, original: map<int, Line>, current: map<int, Line>, base: seq<Line>, cur: seq<Line>, tail: seq<Line>)
    requires Describe(rs, original, current, base, cur)
    ensures Describe(rs, original, current, base + tail, cur + tail)
  {
    hide Run;
    CarriesLonger(rs, base, cur, tail);
    hide Carries, Sound, Captured, Recalled;
    forall p | p in original ensures 0 <= p < |base + tail| && (base + tail)[p] == original[p] {}
    forall p | p in current ensures 0 <= p < |cur + tail| && (cur + tail)[p] == current[p] {}
  }

  // A region covers only captured lines, so an unknown position has an original.
  lemma Uncovered(rs: seq<Region>, current: map<int, Line>, position: int, passed: nat, ok: bool)
    requires Captured(rs, current) && Walked(rs, position, passed, ok) && position !in current
    ensures ok
  {
  }

  ghost function Noted(lines: map<int, Line>, ok: bool, p: int, text: Line): map<int, Line>
  {
    if ok then lines[p := text] else lines
  }

  /** One row of context or removed text at a position.  Unless it contradicts what is
      remembered, some pair of files agrees with everything remembered and with the row; and
      the pair stays the same if it agreed already. */
  lemma RowLearned(rs: seq<Region>, original: map<int, Line>, current: map<int, Line>, base: seq<Line>, cur: seq<Line>,
                   position: int, text: Line, passed: nat, ok: bool, o: int) returns (base': seq<Line>, cur': seq<Line>)
    requires Describe(rs, original, current, base, cur) && 0 <= position <= |cur|
    requires Walked(rs, position, passed, ok) && (ok ==> o == position - Growth(rs[..passed]))
    requires position in current ==> current[position] == text
    requires ok && o in original ==> original[o] == text
    ensures Describe(rs, original, current, base', cur')
    ensures Describe(rs, Noted(original, ok, o, text), current[position := text], base', cur')
    ensures |cur| <= |cur'| && position < |cur'| && cur'[position] == text
    ensures position < |cur| && cur[position] == text ==> base' == base && cur' == cur
  {
    if position == |cur| {
      base', cur' := base + [text], cur + [text];
      DescribeLonger(rs, original, current, base, cur, [text]);
    } else if cur[position] == text {
      base', cur' := base, cur;
    } else {
      Uncovered(rs, current, position, passed, ok);
      var o' := OriginalText(rs, base, cur, passed, position);
      CarriesPoked(rs, base, cur, passed, position, o, text);
      base', cur' := base[o := text], cur[position := text];
    }
    RowNoted(rs, original, current, base', cur', position, text, passed, ok, o);
  }

  lemma RowNoted(rs: seq<Region>, original: map<int, Line>, current: map<int, Line>, base: seq<Line>, cur: seq<Line>,
                 position: int, text: Line, passed: nat, ok: bool, o: int)
    requires Describe(rs, original, current, base, cur) && 0 <= position < |cur| && cur[position] == text
    requires Walked(rs, position, passed, ok) && (ok ==> o == position - Growth(rs[..passed]))
    ensures Describe(rs, Noted(original, ok, o, text), current[position := text], base, cur)
  {
    if ok {
      var o' := OriginalText(rs, base, cur, passed, position);
    }
    RowRecalled(rs, base, cur, original, Noted(original, ok, o, text), current, position, text, passed, ok, o);
    hide Carries, Sound, Recalled;
  }

  // ----- Rows and hunks

  function ToEdits(rs: seq<Region>): (es: seq<Edit>)
    ensures |es| == |rs|
  {
    seq(|rs|, k requires 0 <= k < |rs| => Edit(rs[k].beforeStart, rs[k].before, rs[k].after))
  }

  // A changed row at a position grows the open edit, or opens one.
  function AddToEdits(edits: seq<Edit>, row: Row, open: bool, position: int): seq<Edit>
    requires open ==> edits != []
  {
    if row.kind == ' ' then edits
    else if open then
      var e := edits[|edits| - 1];
      edits[..|edits| - 1] + [e.(before := e.before + OldRow(row), after := e.after + NewRow(row))]
    else edits + [Edit(position, OldRow(row), NewRow(row))]
  }

  lemma ToEditsAdd(head: seq<Edit>, es: seq<Region>, row: Row, open: bool, i: int, j: int)
    requires open ==> es != []
    ensures AddToEdits(head + ToEdits(es), row, open, i) == head + ToEdits(AddRow(es, row, open, i, j))
  {
    var edits, es' := head + ToEdits(es), AddRow(es, row, open, i, j);
    if row.kind != ' ' {
      if open {
        assert edits[|edits| - 1] == ToEdits(es)[|es| - 1];
        assert edits[..|edits| - 1] == head + ToEdits(es)[..|es| - 1];
        assert ToEdits(es') == ToEdits(es)[..|es| - 1] + [ToEdits(es')[|es| - 1]];
      } else {
        assert ToEdits(es') == ToEdits(es) + [Edit(i, OldRow(row), NewRow(row))];
      }
    }
  }

  lemma ToEditsConcat(ps: seq<Region>, qs: seq<Region>)
    ensures ToEdits(ps + qs) == ToEdits(ps) + ToEdits(qs)
  {
  }

  lemma {:induction false} OldPrefix(rows: seq<Row>, n: nat, m: nat)
    requires n <= m <= |rows|
    ensures OldUpTo(rows, n) <= OldUpTo(rows, m)
    decreases m
  {
    if n < m {
      OldPrefix(rows, n, m - 1);
    }
  }

  lemma OldAt(rows: seq<Row>, n: nat)
    requires n < |rows| && rows[n].kind != '+'
    ensures var i := |OldUpTo(rows, n)|; i < |OldSide(rows)| && OldSide(rows)[i] == rows[n].text
  {
    OldPrefix(rows, n + 1, |rows|);
  }

  // The old sides of the first h hunks are remembered, and the file is long enough to hold their starts.
  ghost predicate Learned(hunks: seq<Hunk>, h: nat, current: map<int, Line>, cur: seq<Line>)
    requires h <= |hunks|
  {
    forall m :: 0 <= m < h ==> ReadsAs(current, hunks[m].beforeStart, OldSide(hunks[m].rows)) && hunks[m].beforeStart <= |cur|
  }

  lemma LearnedKept(hunks: seq<Hunk>, h: nat, current: map<int, Line>, cur: seq<Line>, cur': seq<Line>, position: int, text: Line)
    requires h <= |hunks| && Learned(hunks, h, current, cur) && |cur| <= |cur'|
    requires forall m :: 0 <= m < h ==> HunkRegion(hunks[m]).BeforeEnd() <= position
    ensures Learned(hunks, h, current[position := text], cur')
  {
    hide OldSide;
  }

  lemma LearnedNext(hunks: seq<Hunk>, h: nat, current: map<int, Line>, cur: seq<Line>)
    requires h < |hunks| && Learned(hunks, h, current, cur)
    requires ReadsAs(current, hunks[h].beforeStart, OldSide(hunks[h].rows)) && hunks[h].beforeStart <= |cur|
    ensures Learned(hunks, h + 1, current, cur)
  {
    hide OldSide, ReadsAs;
  }

  lemma ReadsAsNext(current: map<int, Line>, at: int, text: seq<Line>, line: Line)
    requires ReadsAs(current, at, text)
    ensures ReadsAs(current[at + |text| := line], at, text + [line])
  {
  }

  /** Once every hunk has been learned, the capture fits the file. */
  lemma LearnedFits(hunks: seq<Hunk>, current: map<int, Line>, cur: seq<Line>, complete: bool)
    requires Ordered(hunks, complete) && Learned(hunks, |hunks|, current, cur) && Knows(current, cur)
    ensures Fits(HunkRegions(hunks), cur)
  {
    hide OldSide, NewSide, ReadsAs, Knows;
    forall k | 0 <= k < |hunks| ensures Reads(cur, hunks[k].beforeStart, OldSide(hunks[k].rows)) {
      KnownText(current, cur, hunks[k].beforeStart, OldSide(hunks[k].rows));
    }
  }

  // What one row adds to a hunk's old side and to its edits.
  lemma RowStep(rows: seq<Row>, n: nat, b: int, a: int, head: seq<Edit>)
    requires n < |rows|
    ensures |OldUpTo(rows, n + 1)| == |OldUpTo(rows, n)| + if rows[n].kind == '+' then 0 else 1
    ensures rows[n].kind == '+' ==> OldUpTo(rows, n + 1) == OldUpTo(rows, n)
    ensures EndsChanged(rows, n + 1) == (rows[n].kind != ' ')
    ensures EndsChanged(rows, n) ==> head + ToEdits(EditsUpTo(rows, n, b, a)) != []
    ensures AddToEdits(head + ToEdits(EditsUpTo(rows, n, b, a)), rows[n], EndsChanged(rows, n), b + |OldUpTo(rows, n)|)
            == head + ToEdits(EditsUpTo(rows, n + 1, b, a))
  {
    ToEditsAdd(head, EditsUpTo(rows, n, b, a), rows[n], EndsChanged(rows, n), b + |OldUpTo(rows, n)|, a + |NewUpTo(rows, n)|);
  }

  lemma RowStart(rows: seq<Row>, b: int, a: int, head: seq<Edit>, current: map<int, Line>)
    ensures OldUpTo(rows, 0) == [] && !EndsChanged(rows, 0) && head == head + ToEdits(EditsUpTo(rows, 0, b, a))
    ensures ReadsAs(current, b, OldUpTo(rows, 0))
  {
  }

  // If the hunk's old side is in the file, every row of it is.
  lemma RowReads(rows: seq<Row>, n: nat, b: int, cur: seq<Line>)
    requires n < |rows| && rows[n].kind != '+' && Reads(cur, b, OldSide(rows))
    ensures var p := b + |OldUpTo(rows, n)|; 0 <= p < |cur| && cur[p] == rows[n].text
  {
    OldAt(rows, n);
    hide OldUpTo;
    var i, whole := |OldUpTo(rows, n)|, OldSide(rows);
    assert cur[b..b + |whole|][i] == cur[b + i];
  }

  lemma HunkLearned(hunks: seq<Hunk>, h: nat, current: map<int, Line>, cur: seq<Line>, edits: seq<Edit>)
    requires h < |hunks| && Learned(hunks, h, current, cur) && hunks[h].beforeStart <= |cur|
    requires ReadsAs(current, hunks[h].beforeStart, OldUpTo(hunks[h].rows, |hunks[h].rows|))
    requires edits == ToEdits(HunkEditsUpTo(hunks, h)) + ToEdits(EditsUpTo(hunks[h].rows, |hunks[h].rows|, hunks[h].beforeStart, hunks[h].afterStart))
    ensures Learned(hunks, h + 1, current, cur) && edits == ToEdits(HunkEditsUpTo(hunks, h + 1))
  {
    ToEditsConcat(HunkEditsUpTo(hunks, h), EditsUpTo(hunks[h].rows, |hunks[h].rows|, hunks[h].beforeStart, hunks[h].afterStart));
    LearnedNext(hunks, h, current, cur);
  }

  lemma LearnedLonger(hunks: seq<Hunk>, h: nat, current: map<int, Line>, cur: seq<Line>, cur': seq<Line>)
    requires h <= |hunks| && Learned(hunks, h, current, cur) && |cur| <= |cur'|
    ensures Learned(hunks, h, current, cur')
  {
    hide ReadsAs, OldSide;
  }

  // A row of a hunk that is not an addition, learned.
  lemma RowKept(hunks: seq<Hunk>, h: nat, n: nat, current: map<int, Line>, cur: seq<Line>, cur': seq<Line>, position: int)
    requires h < |hunks| && n < |hunks[h].rows| && Ordered(hunks, true) && hunks[h].rows[n].kind != '+'
    requires Learned(hunks, h, current, cur) && |cur| <= |cur'| && position == hunks[h].beforeStart + |OldUpTo(hunks[h].rows, n)|
    requires ReadsAs(current, hunks[h].beforeStart, OldUpTo(hunks[h].rows, n))
    ensures Learned(hunks, h, current[position := hunks[h].rows[n].text], cur')
    ensures ReadsAs(current[position := hunks[h].rows[n].text], hunks[h].beforeStart, OldUpTo(hunks[h].rows, n + 1))
  {
    LearnedKept(hunks, h, current, cur, cur', position, hunks[h].rows[n].text);
    ReadsAsNext(current, hunks[h].beforeStart, OldUpTo(hunks[h].rows, n), hunks[h].rows[n].text);
  }

  lemma DescribeNarrow(rs: seq<Region>, was: map<int, Line>, wasCurrent: map<int, Line>, original: map<int, Line>, current: map<int, Line>,
                       base: seq<Line>, cur: seq<Line>, base': seq<Line>, cur': seq<Line>)
    requires Describe(rs, was, wasCurrent, base, cur) && Describe(rs, original, current, base', cur')
    requires Narrower(was, original) && Narrower(wasCurrent, current)
    ensures Describe(rs, was, wasCurrent, base', cur')
  {
    hide Carries, Sound, Captured, Recalled;
  }

  // Nothing remembered has been forgotten or changed.
  ghost predicate Narrower(was: map<int, Line>, now: map<int, Line>)
  {
    forall p :: p in was ==> p in now && now[p] == was[p]
  }

  lemma NarrowerSelf(m: map<int, Line>)
    ensures Narrower(m, m)
  {
  }

  lemma NarrowerJoin(a: map<int, Line>, b: map<int, Line>, c: map<int, Line>)
    requires Narrower(a, b) && Narrower(b, c)
    ensures Narrower(a, c)
  {
  }

  // ----- Applying the edits, last one first

  // Every edit replaces captured lines.
  ghost predicate EditsIn(edits: seq<Edit>, k: nat, current: map<int, Line>)
    requires k <= |edits|
  {
    forall m :: 0 <= m < k ==> AllIn(current, edits[m].start, edits[m].End())
  }

  lemma FitsReads(hunks: seq<Hunk>, h: nat, cur: seq<Line>)
    requires h < |hunks| && Fits(HunkRegions(hunks), cur)
    ensures Reads(cur, hunks[h].beforeStart, OldSide(hunks[h].rows))
  {
    hide OldSide, NewSide;
    assert HunkRegions(hunks)[h] == HunkRegion(hunks[h]);
  }

  // The lines these edits remove are remembered, and none lies before b.
  ghost predicate Within(es: seq<Region>, current: map<int, Line>, b: int)
  {
    forall m :: 0 <= m < |es| ==> AllIn(current, es[m].beforeStart, es[m].BeforeEnd()) && b <= es[m].beforeStart
  }

  predicate LastEnds(es: seq<Region>, i: int) { es != [] && es[|es| - 1].BeforeEnd() == i }

  lemma AddRowWithin(es: seq<Region>, row: Row, adjacent: bool, i: int, j: int, current: map<int, Line>, b: int)
    requires Within(es, current, b) && b <= i && AllIn(current, i, i + |OldRow(row)|)
    requires adjacent ==> LastEnds(es, i)
    ensures Within(AddRow(es, row, adjacent, i, j), current, b)
    ensures row.kind != ' ' ==> LastEnds(AddRow(es, row, adjacent, i, j), i + |OldRow(row)|)
  {
    var es' := AddRow(es, row, adjacent, i, j);
    if row.kind != ' ' && adjacent {
      var last := es[|es| - 1];
      assert es'[|es| - 1] == Grown(last, OldRow(row), NewRow(row));
      assert AllIn(current, last.beforeStart, i) && AllIn(current, i, i + |OldRow(row)|);
      assert AllIn(current, last.beforeStart, i + |OldRow(row)|);
    }
  }

  // The lines a hunk's edits remove are among its old side.
  lemma {:induction false} EditsReadAs(rows: seq<Row>, n: nat, b: int, a: int, current: map<int, Line>, i: int)
    requires n <= |rows| && i == b + |OldUpTo(rows, n)| && AllIn(current, b, i)
    ensures Within(EditsUpTo(rows, n, b, a), current, b)
    ensures EndsChanged(rows, n) ==> LastEnds(EditsUpTo(rows, n, b, a), i)
  {
    if n > 0 {
      hide *;
      var m := OldStep(rows, n, b, i);
      AllInSplit(current, b, m, i);
      EditsReadAs(rows, n - 1, b, a, current, m);
      NextWithin(rows, n - 1, b, a, current, m, i);
    }
  }

  lemma OldStep(rows: seq<Row>, n: nat, b: int, i: int) returns (m: int)
    requires 0 < n <= |rows| && i == b + |OldUpTo(rows, n)|
    ensures m == b + |OldUpTo(rows, n - 1)| && b <= m <= i == m + |OldRow(rows[n - 1])|
  {
    m := b + |OldUpTo(rows, n - 1)|;
  }

  lemma NextWithin(rows: seq<Row>, n: nat, b: int, a: int, current: map<int, Line>, i: int, i2: int)
    requires n < |rows| && i == b + |OldUpTo(rows, n)| && i2 == i + |OldRow(rows[n])| && AllIn(current, i, i2)
    requires Within(EditsUpTo(rows, n, b, a), current, b)
    requires EndsChanged(rows, n) ==> LastEnds(EditsUpTo(rows, n, b, a), i)
    ensures Within(EditsUpTo(rows, n + 1, b, a), current, b)
    ensures EndsChanged(rows, n + 1) ==> LastEnds(EditsUpTo(rows, n + 1, b, a), i2)
  {
    hide Within, LastEnds, AllIn, OldUpTo;
    AddRowWithin(EditsUpTo(rows, n, b, a), rows[n], EndsChanged(rows, n), i, a + |NewUpTo(rows, n)|, current, b);
  }

  lemma AllInSplit(lines: map<int, Line>, lo: int, mid: int, hi: int)
    requires lo <= mid <= hi && AllIn(lines, lo, hi)
    ensures AllIn(lines, lo, mid) && AllIn(lines, mid, hi)
  {
  }

  lemma {:induction false} LearnedEdits(hunks: seq<Hunk>, n: nat, current: map<int, Line>, cur: seq<Line>)
    requires n <= |hunks| && Learned(hunks, |hunks|, current, cur)
    ensures EditsIn(ToEdits(HunkEditsUpTo(hunks, n)), |HunkEditsUpTo(hunks, n)|, current)
  {
    if n > 0 {
      hide *;
      var h := hunks[n - 1];
      LearnedEdits(hunks, n - 1, current, cur);
      LearnedHunk(hunks, n - 1, current, cur);
      EditsReadAs(h.rows, |h.rows|, h.beforeStart, h.afterStart, current, h.beforeStart + |OldUpTo(h.rows, |h.rows|)|);
      JoinEditsIn(HunkEditsUpTo(hunks, n - 1), EditsUpTo(h.rows, |h.rows|, h.beforeStart, h.afterStart), current, h.beforeStart);
      UnfoldHunkEdits(hunks, n);
    } else {
      assert HunkEditsUpTo(hunks, 0) == [];
    }
  }

  lemma LearnedHunk(hunks: seq<Hunk>, h: nat, current: map<int, Line>, cur: seq<Line>)
    requires h < |hunks| && Learned(hunks, |hunks|, current, cur)
    ensures AllIn(current, hunks[h].beforeStart, hunks[h].beforeStart + |OldUpTo(hunks[h].rows, |hunks[h].rows|)|)
  {
    hide OldUpTo;
    assert ReadsAs(current, hunks[h].beforeStart, OldSide(hunks[h].rows));
  }

  lemma UnfoldHunkEdits(hunks: seq<Hunk>, n: nat)
    requires 0 < n <= |hunks|
    ensures var h := hunks[n - 1]; HunkEditsUpTo(hunks, n) == HunkEditsUpTo(hunks, n - 1) + EditsUpTo(h.rows, |h.rows|, h.beforeStart, h.afterStart)
  {
  }

  lemma JoinEditsIn(ps: seq<Region>, qs: seq<Region>, current: map<int, Line>, b: int)
    requires EditsIn(ToEdits(ps), |ps|, current) && Within(qs, current, b)
    ensures EditsIn(ToEdits(ps + qs), |ps + qs|, current)
  {
    hide AllIn;
    forall m | 0 <= m < |ps + qs| ensures AllIn(current, ToEdits(ps + qs)[m].start, ToEdits(ps + qs)[m].End()) {
      if m < |ps| {
        assert ToEdits(ps + qs)[m] == ToEdits(ps)[m];
      } else {
        assert (ps + qs)[m] == qs[m - |ps|];
      }
    }
  }

  // Edits before the one applied keep their captured lines.
  lemma EditsKept(rs: seq<Region>, k: nat, was: map<int, Line>, now: map<int, Line>, edit: Edit)
    requires k < |rs| && EditsIn(ToEdits(rs), k + 1, was) && Remembered(was, now, edit)
    requires forall m :: 0 <= m < k ==> rs[m].BeforeEnd() <= edit.start
    ensures EditsIn(ToEdits(rs), k, now)
  {
    forall m | 0 <= m < k ensures AllIn(now, ToEdits(rs)[m].start, ToEdits(rs)[m].End()) {
      assert AllIn(was, ToEdits(rs)[m].start, ToEdits(rs)[m].End());
      forall p | ToEdits(rs)[m].start <= p < ToEdits(rs)[m].End() ensures p in now {
        assert p in was && RememberedAt(was, edit, p);
      }
    }
  }

  // One step of the descent: the last edit fits, and leads to a file the other edits carry on from.
  lemma Descend(rs: seq<Region>, k: nat, mid: seq<Line>, goal: seq<Line>) returns (next: seq<Line>)
    requires 0 < k <= |rs| && Carries(rs[..k], mid, goal)
    ensures var e := ToEdits(rs)[k - 1];
            && 0 <= e.start <= |mid| && EditFits(e, mid) && next == Spliced(mid, e.start, e.End(), e.after)
            && (forall m :: 0 <= m < k - 1 ==> rs[m].BeforeEnd() <= e.start)
    ensures Carries(rs[..k - 1], next, goal)
  {
    RunBounds(rs[..k], mid, goal, 0, 0, |mid|, |goal|);
    assert rs[..k][..k - 1] == rs[..k - 1] && rs[..k][k - 1] == rs[k - 1];
    hide Run, Carries;
    forall m | 0 <= m < k - 1 ensures rs[m].BeforeEnd() <= rs[k - 1].beforeStart {
      assert rs[..k][m] == rs[m];
    }
    next := PeelLast(rs[..k], mid, goal);
  }

  /** Everything learned, the capture leads to its patch, and so do its edits, which replace
      only captured lines. */
  lemma LearnedGoal(hunks: seq<Hunk>, edits: seq<Edit>, current: map<int, Line>, cur: seq<Line>) returns (goal: seq<Line>)
    requires Ordered(hunks, true) && Learned(hunks, |hunks|, current, cur) && Knows(current, cur)
    requires edits == ToEdits(HunkEditsUpTo(hunks, |hunks|))
    ensures Fits(HunkRegions(hunks), cur) && goal == Patched(HunkRegions(hunks), cur)
    ensures edits == ToEdits(HunkEdits(hunks)) && EditsIn(edits, |HunkEdits(hunks)|, current)
    ensures Carries(HunkEdits(hunks), cur, goal)
  {
    LearnedFits(hunks, current, cur, true);
    LearnedEdits(hunks, |hunks|, current, cur);
    goal := PatchedHunks(hunks, cur);
  }

  lemma PatchedHunks(hunks: seq<Hunk>, cur: seq<Line>) returns (goal: seq<Line>)
    requires Ordered(hunks, true) && Fits(HunkRegions(hunks), cur)
    ensures goal == Patched(HunkRegions(hunks), cur) && Carries(HunkEdits(hunks), cur, goal)
  {
    var rs := HunkRegions(hunks);
    goal := Patched(rs, cur);
    hide Run, Patched, Fits, HunkEditsUpTo;
    PatchCarries(rs, cur);
    assert rs[..|hunks|] == rs;
    HunkEditsRun(hunks, |hunks|, cur, goal, |cur|, |goal|);
  }

  // Between edits k - 1 and k, the later ones applied.
  ghost predicate AtEdit(rs: seq<Region>, k: nat, current: map<int, Line>, mid: seq<Line>, goal: seq<Line>)
  {
    k <= |rs| && Carries(rs[..k], mid, goal) && EditsIn(ToEdits(rs), k, current)
  }

  lemma EditsStart(rs: seq<Region>, current: map<int, Line>, cur: seq<Line>, goal: seq<Line>)
    requires Carries(rs, cur, goal) && EditsIn(ToEdits(rs), |rs|, current)
    ensures AtEdit(rs, |rs|, current, cur, goal)
  {
    assert rs[..|rs|] == rs;
  }

  lemma EditsEnd(rs: seq<Region>, current: map<int, Line>, mid: seq<Line>, goal: seq<Line>)
    requires AtEdit(rs, 0, current, mid, goal)
    ensures mid == goal
  {
    assert mid[0..|mid|] == mid && goal[0..|goal|] == goal;
  }

  lemma EditsStep(rs: seq<Region>, k: nat, current: map<int, Line>, mid: seq<Line>, goal: seq<Line>) returns (next: seq<Line>)
    requires k < |rs| && AtEdit(rs, k + 1, current, mid, goal)
    ensures var e := ToEdits(rs)[k];
            && 0 <= e.start <= |mid| && EditFits(e, mid) && AllIn(current, e.start, e.End())
            && next == Spliced(mid, e.start, e.End(), e.after) && |mid| + e.Shift() == |next|
            && (forall now :: Remembered(current, now, e) ==> AtEdit(rs, k, now, next, goal))
  {
    next := Descend(rs, k + 1, mid, goal);
    hide Carries, Remembered;
    var e := ToEdits(rs)[k];
    forall now | Remembered(current, now, e) ensures AtEdit(rs, k, now, next, goal) {
      EditsKept(rs, k, current, now, e);
    }
  }

  // ----- Display flags

  predicate AllHidden(rs: seq<Region>) { forall k :: 0 <= k < |rs| ==> rs[k].hidden }

  predicate NoneHighlighted(rs: seq<Region>) { forall k :: 0 <= k < |rs| ==> !rs[k].highlighted }

  lemma RewrittenFlags(was: seq<Region>, now: seq<Region>, edit: Edit, hidden: bool, highlighted: bool, lo: nat, hi: nat, net: seq<Region>)
    requires Rewritten(was, now, edit, hidden, highlighted, lo, hi, net)
    ensures hidden && AllHidden(was) ==> AllHidden(now)
    ensures !highlighted && NoneHighlighted(was) ==> NoneHighlighted(now)
  {
    hide Cuts;
    assert lo <= hi <= |was| by { CutsSpan(was, edit.start, edit.End(), lo, hi); }
    forall k | 0 <= k < |now|
      ensures hidden && AllHidden(was) ==> now[k].hidden
      ensures !highlighted && NoneHighlighted(was) ==> !now[k].highlighted
    {
      if k >= lo + |net| {
        assert now[k] == was[hi..][k - lo - |net|].Shifted(edit.Shift());
      }
    }
  }

  lemma ShownFlags(was: seq<Region>, now: seq<Region>)
    requires forall k :: 0 <= k < |now| ==> Shown(now[k], was)
    ensures AllHidden(was) ==> AllHidden(now)
    ensures NoneHighlighted(was) ==> NoneHighlighted(now)
  {
    hide Touches;
    forall k | 0 <= k < |now| ensures AllHidden(was) ==> now[k].hidden ensures NoneHighlighted(was) ==> !now[k].highlighted {
      assert Shown(now[k], was);
    }
  }
}
