/** How much a composition has to remember.  Its only limits are on remembered lines: whatever a
    region holds is remembered, so that no region is larger than what is remembered of either file. */
module Capacity {
  import opened Text
  import opened Regions
  import opened RegionEdits
  import opened Recall
  import opened Review
  import opened ReviewText
  import opened CompositionFacts
  import opened Learning

  // ----- Counting

  lemma {:induction false} SpanSize(lines: map<int, Line>, lo: int, hi: int)
    requires AllIn(lines, lo, hi)
    ensures hi - lo <= |lines|
    decreases hi - lo
  {
    if lo < hi {
      var rest := lines - {lo};
      assert lines.Keys == rest.Keys + {lo};
      SpanSize(rest, lo + 1, hi);
    }
  }

  lemma {:induction false} RangeSize(s: set<int>, lo: int, n: nat)
    requires forall p :: p in s ==> lo <= p < lo + n
    ensures |s| <= n
  {
    if n > 0 {
      var last := lo + n - 1;
      RangeSize(s - {last}, lo, n - 1);
      assert |s| <= |s - {last}| + 1 by { assert s <= s - {last} + {last}; SubsetSize(s, s - {last} + {last}); }
    } else if s != {} {
      var p := Member(s);
      assert false;
    }
  }

  lemma {:induction false} SubsetSize<T>(a: set<T>, b: set<T>)
    requires a <= b
    ensures |a| <= |b|
  {
    assert b == a + (b - a) && a !! b - a;
  }

  function Shifted(s: set<int>, d: int): set<int> { set p | p in s :: p + d }

  lemma {:induction false} ShiftedSize(s: set<int>, d: int)
    ensures |Shifted(s, d)| == |s|
    decreases |s|
  {
    if s != {} {
      var x := Member(s);
      var rest := s - {x};
      ShiftedSize(rest, d);
      assert s == rest + {x} && x + d !in Shifted(rest, d);
      forall q | q in Shifted(s, d) ensures q in Shifted(rest, d) + {x + d} {
        assert q == x + d || q - d in rest;
      }
      assert Shifted(s, d) == Shifted(rest, d) + {x + d};
    }
  }

  lemma Member<T>(s: set<T>) returns (p: T)
    requires s != {}
    ensures p in s
  {
    p :| p in s;
  }

  // The n positions from lo on.
  function Span(lo: int, n: nat): (s: set<int>)
    ensures |s| == n && forall p :: p in s <==> lo <= p < lo + n
  {
    if n == 0 then {} else Span(lo, n - 1) + {lo + n - 1}
  }

  // The remembered positions below n, and those from n on.
  function Below(lines: map<int, Line>, n: int): set<int> { set p | p in lines && p < n }

  function From(lines: map<int, Line>, n: int): set<int> { set p | p in lines && n <= p }

  /** An edit of remembered lines changes their number by its own growth. */
  lemma UpdatedSize(was: map<int, Line>, now: map<int, Line>, edit: Edit)
    requires Remembered(was, now, edit) && AllIn(was, edit.start, edit.End())
    ensures |now| == |was| + edit.Shift()
  {
    hide *;
    var low, high := Below(was, edit.start), From(was, edit.End());
    WasKeys(was, edit);
    NowKeys(was, now, edit);
    ShiftedSize(high, edit.Shift());
    ThreeSizes(low, Span(edit.start, |edit.before|), high);
    ThreeSizes(low, Span(edit.start, |edit.after|), Shifted(high, edit.Shift()));
    KeysSize(was);
    KeysSize(now);
    ShiftIs(edit);
  }

  lemma KeysSize(lines: map<int, Line>)
    ensures |lines| == |lines.Keys|
  {
  }

  lemma ShiftIs(edit: Edit)
    ensures edit.Shift() == |edit.after| - |edit.before|
  {
  }

  lemma ThreeSizes(a: set<int>, b: set<int>, c: set<int>)
    requires a !! b && a !! c && b !! c
    ensures |a + b + c| == |a| + |b| + |c|
  {
    assert a + b !! c && |a + b| == |a| + |b|;
  }

  lemma WasKeys(was: map<int, Line>, edit: Edit)
    requires AllIn(was, edit.start, edit.End())
    ensures var low, mid, high := Below(was, edit.start), Span(edit.start, |edit.before|), From(was, edit.End());
            was.Keys == low + mid + high && low !! mid && low !! high && mid !! high
  {
    var low, mid, high := Below(was, edit.start), Span(edit.start, |edit.before|), From(was, edit.End());
    forall p ensures p in was <==> p in low + mid + high {
    }
  }

  lemma NowKeys(was: map<int, Line>, now: map<int, Line>, edit: Edit)
    requires Remembered(was, now, edit)
    ensures var low, mid, high := Below(was, edit.start), Span(edit.start, |edit.after|), Shifted(From(was, edit.End()), edit.Shift());
            now.Keys == low + mid + high && low !! mid && low !! high && mid !! high
  {
    hide *;
    var low, mid, high := Below(was, edit.start), Span(edit.start, |edit.after|), Shifted(From(was, edit.End()), edit.Shift());
    forall p
      ensures p in now <==> p in low + mid + high
      ensures !(p in low && p in mid) && !(p in low && p in high) && !(p in mid && p in high)
    {
      NowHas(was, now, edit, p);
    }
  }

  lemma NowHas(was: map<int, Line>, now: map<int, Line>, edit: Edit, p: int)
    requires Remembered(was, now, edit)
    ensures var a, b, c := p in Below(was, edit.start), p in Span(edit.start, |edit.after|), p in Shifted(From(was, edit.End()), edit.Shift());
            (p in now <==> a || b || c) && !(a && b) && !(a && c) && !(b && c)
  {
    InShifted(From(was, edit.End()), edit.Shift(), p);
    assert p in now <==> RememberedAt(was, edit, p);
    hide Shifted, Remembered;
  }

  lemma InShifted(s: set<int>, d: int, p: int)
    ensures p in Shifted(s, d) <==> p - d in s
  {
  }

  /** The stretch an edit rewrites is no longer than what is remembered of either file. */
  lemma StretchSize(rs: seq<Region>, original: map<int, Line>, current: map<int, Line>, base: seq<Line>, cur: seq<Line>, edit: Edit,
                    left: int, right: int, lo: nat, hi: nat, m: int, m2: int)
    requires Describe(rs, original, current, base, cur) && Stretch(rs, base, cur, edit, left, right, lo, hi, m, m2) && AllIn(current, left, right)
    requires Cuts(rs, edit.start, edit.End(), lo, hi) && left == Left(rs, edit.start, lo, hi) && right == Right(rs, edit.End(), lo, hi)
    ensures m2 - m <= |original| && right - left <= |current|
  {
    hide *;
    DescribeParts(rs, original, current, base, cur);
    StretchAround(rs, base, cur, edit, left, right, lo, hi, m, m2);
    InIs(current, left, right);
    forall q | m <= q < m2 ensures q in original {
      StretchRecalled(rs, original, current, lo, hi, m, left, m2, right, q);
    }
    InIs(original, m, m2);
    SpanSize(original, m, m2);
    SpanSize(current, left, right);
  }

  // ----- Lengths while editing

  // How many there are of n lines once the edits from the i-th on are applied.
  function LengthAfter(n: int, edits: seq<Edit>, i: nat): int
    requires i <= |edits|
    decreases |edits| - i
  {
    if i == |edits| then n else LengthAfter(n, edits, i + 1) + edits[i].Shift()
  }

  // There are too many, before, between or after the edits.
  ghost predicate TooLong(n: int, edits: seq<Edit>)
  {
    exists i :: 0 <= i <= |edits| && LengthAfter(n, edits, i) > MAX_ROWS
  }

  lemma LengthNext(n: int, edits: seq<Edit>, i: nat)
    requires i < |edits|
    ensures LengthAfter(n, edits, i) == LengthAfter(n, edits, i + 1) + edits[i].Shift() && LengthAfter(n, edits, |edits|) == n
    ensures LengthAfter(n, edits, i) > MAX_ROWS || LengthAfter(n, edits, i + 1) > MAX_ROWS ==> TooLong(n, edits)
  {
  }

  lemma {:induction false} LengthGrows(n: int, more: int, edits: seq<Edit>, i: nat)
    requires n <= more && i <= |edits|
    ensures LengthAfter(more, edits, i) == LengthAfter(n, edits, i) + more - n
    decreases |edits| - i
  {
    if i < |edits| {
      LengthGrows(n, more, edits, i + 1);
    }
  }

  lemma TooLongGrows(n: int, more: int, edits: seq<Edit>)
    requires n <= more
    ensures TooLong(n, edits) ==> TooLong(more, edits)
    ensures LengthAfter(n, edits, 0) <= LengthAfter(more, edits, 0)
    ensures LengthAfter(n, edits, 0) > MAX_ROWS ==> TooLong(n, edits)
  {
    forall i | 0 <= i <= |edits| ensures LengthAfter(more, edits, i) == LengthAfter(n, edits, i) + more - n {
      LengthGrows(n, more, edits, i);
    }
  }

  // ----- What a capture adds

  // The newer positions of the capture's old sides.
  function OldPositions(hunks: seq<Hunk>): set<int>
  {
    if hunks == [] then {} else Span(hunks[0].beforeStart, |OldSide(hunks[0].rows)|) + OldPositions(hunks[1..])
  }

  lemma {:induction false} InOldPositions(hunks: seq<Hunk>, h: nat, p: int)
    requires h < |hunks| && hunks[h].beforeStart <= p < hunks[h].beforeStart + |OldSide(hunks[h].rows)|
    ensures p in OldPositions(hunks)
  {
    hide OldSide;
    if h > 0 {
      InOldPositions(hunks[1..], h - 1, p);
    }
  }

  // Where the line at a newer position stood in the older file, if no region covers it.
  function OriginFrom(rs: seq<Region>, position: int, k: nat): (int, bool)
    requires k <= |rs|
    decreases |rs| - k
  {
    if k == |rs| || position < rs[k].afterStart then (position - Growth(rs[..k]), true)
    else if position < rs[k].AfterEnd() then (0, false)
    else OriginFrom(rs, position, k + 1)
  }

  function OriginOf(rs: seq<Region>, position: int): (int, bool) { OriginFrom(rs, position, 0) }

  lemma OriginNext(rs: seq<Region>, position: int, k: nat)
    requires k <= |rs|
    ensures k == |rs| || position < rs[k].afterStart ==> OriginFrom(rs, position, k) == (position - Growth(rs[..k]), true)
    ensures k < |rs| && rs[k].afterStart <= position < rs[k].AfterEnd() ==> OriginFrom(rs, position, k) == (0, false)
    ensures k < |rs| && rs[k].AfterEnd() <= position ==> OriginFrom(rs, position, k) == OriginFrom(rs, position, k + 1)
  {
  }

  ghost function Origins(rs: seq<Region>, positions: set<int>): set<int>
  {
    set p | p in positions && OriginOf(rs, p).1 :: OriginOf(rs, p).0
  }

  // Which lines are remembered of the older, and of the newer file once the capture is learned.
  ghost function LearnedOriginal(rs: seq<Region>, original: map<int, Line>, hunks: seq<Hunk>): set<int>
  {
    original.Keys + Origins(rs, OldPositions(hunks))
  }

  ghost function LearnedCurrent(current: map<int, Line>, hunks: seq<Hunk>): set<int>
  {
    current.Keys + OldPositions(hunks)
  }

  /** More has to be remembered than a composition may: of the older file, or of the newer one before,
      between or after the capture's edits. */
  ghost predicate Oversized(rs: seq<Region>, original: map<int, Line>, current: map<int, Line>, hunks: seq<Hunk>)
  {
    |LearnedOriginal(rs, original, hunks)| > MAX_ROWS || TooLong(|LearnedCurrent(current, hunks)|, ToEdits(HunkEdits(hunks)))
  }

  // What has been learned is of the capture's old sides, or was known.
  ghost predicate Enlarged(rs: seq<Region>, original: map<int, Line>, current: map<int, Line>, original': map<int, Line>, current': map<int, Line>, hunks: seq<Hunk>)
  {
    original'.Keys <= LearnedOriginal(rs, original, hunks) && current'.Keys <= LearnedCurrent(current, hunks)
  }

  lemma EnlargedSelf(rs: seq<Region>, original: map<int, Line>, current: map<int, Line>, hunks: seq<Hunk>)
    ensures Enlarged(rs, original, current, original, current, hunks)
  {
  }

  lemma EnlargedJoin(rs: seq<Region>, original: map<int, Line>, current: map<int, Line>, o: map<int, Line>, c: map<int, Line>, original': map<int, Line>, current': map<int, Line>, hunks: seq<Hunk>)
    requires Enlarged(rs, original, current, o, c, hunks) && Enlarged(rs, o, c, original', current', hunks)
    ensures Enlarged(rs, original, current, original', current', hunks)
  {
    hide OldPositions, Origins;
  }

  lemma RowEnlarged(rs: seq<Region>, original: map<int, Line>, current: map<int, Line>, original': map<int, Line>, current': map<int, Line>, hunks: seq<Hunk>, h: nat, n: nat, position: int)
    requires h < |hunks| && n < |hunks[h].rows| && hunks[h].rows[n].kind != '+' && position == hunks[h].beforeStart + |OldUpTo(hunks[h].rows, n)|
    requires current'.Keys == current.Keys + {position} && original'.Keys == original.Keys + if OriginOf(rs, position).1 then {OriginOf(rs, position).0} else {}
    ensures Enlarged(rs, original, current, original', current', hunks)
  {
    OldAt(hunks[h].rows, n);
    hide OldSide, OldUpTo;
    InOldPositions(hunks, h, position);
    hide OldPositions, OriginOf;
    if OriginOf(rs, position).1 {
      assert OriginOf(rs, position).0 in Origins(rs, OldPositions(hunks));
    }
  }

  /** Once a capture is learned, more than the capacity is remembered only if it is oversized; and what
      is remembered in the end is no more than what was learned, and the growth of its edits. */
  lemma LearnedSizes(rs: seq<Region>, original: map<int, Line>, current: map<int, Line>, original': map<int, Line>, current': map<int, Line>, hunks: seq<Hunk>)
    requires Enlarged(rs, original, current, original', current', hunks)
    ensures var edits := ToEdits(HunkEdits(hunks));
            && |original'| <= |LearnedOriginal(rs, original, hunks)|
            && LengthAfter(|current'|, edits, 0) <= LengthAfter(|LearnedCurrent(current, hunks)|, edits, 0)
            && (|original'| > MAX_ROWS || TooLong(|current'|, edits) || LengthAfter(|current'|, edits, 0) > MAX_ROWS ==> Oversized(rs, original, current, hunks))
  {
    SubsetSize(original'.Keys, LearnedOriginal(rs, original, hunks));
    SubsetSize(current'.Keys, LearnedCurrent(current, hunks));
    hide LearnedOriginal, LearnedCurrent, TooLong, LengthAfter, ToEdits, HunkEdits;
    assert |original'| == |original'.Keys| && |current'| == |current'.Keys|;
    TooLongGrows(|current'|, |LearnedCurrent(current, hunks)|, ToEdits(HunkEdits(hunks)));
  }

  // ----- Captures that fit

  lemma {:induction false} PositionsSize(hunks: seq<Hunk>)
    ensures |OldPositions(hunks)| <= OldLines(hunks)
  {
    hide OldSide;
    if hunks != [] {
      PositionsSize(hunks[1..]);
      UnionSize(Span(hunks[0].beforeStart, |OldSide(hunks[0].rows)|), OldPositions(hunks[1..]));
    }
  }

  lemma UnionSize<T>(a: set<T>, b: set<T>)
    ensures |a + b| <= |a| + |b|
  {
    assert a + b == a + (b - a);
    SubsetSize(b - a, b);
  }

  // The lines of the hunks' old sides, and those the edits add.
  function OldLines(hunks: seq<Hunk>): nat
  {
    if hunks == [] then 0 else |OldSide(hunks[0].rows)| + OldLines(hunks[1..])
  }

  function NewLines(rs: seq<Region>): nat
  {
    if rs == [] then 0 else NewLines(rs[..|rs| - 1]) + |rs[|rs| - 1].after|
  }

  lemma {:induction false} NewLinesConcat(ps: seq<Region>, qs: seq<Region>)
    ensures NewLines(ps + qs) == NewLines(ps) + NewLines(qs)
    decreases |qs|
  {
    if qs == [] {
      assert ps + qs == ps;
    } else {
      assert (ps + qs)[..|ps + qs| - 1] == ps + qs[..|qs| - 1];
      NewLinesConcat(ps, qs[..|qs| - 1]);
    }
  }

  // Every row is of an old side, or adds one line.
  lemma {:induction false} RowLines(rows: seq<Row>, n: nat, b: int, a: int)
    requires n <= |rows| && ValidKinds(rows)
    ensures |OldUpTo(rows, n)| + NewLines(EditsUpTo(rows, n, b, a)) <= n
  {
    if n > 0 {
      var es, row := EditsUpTo(rows, n - 1, b, a), rows[n - 1];
      RowLines(rows, n - 1, b, a);
      AddRowLines(es, row, EndsChanged(rows, n - 1), b + |OldUpTo(rows, n - 1)|, a + |NewUpTo(rows, n - 1)|);
    }
  }

  lemma AddRowLines(es: seq<Region>, row: Row, adjacent: bool, i: int, j: int)
    requires (adjacent ==> es != []) && IsKind(row.kind)
    ensures |OldRow(row)| + NewLines(AddRow(es, row, adjacent, i, j)) <= NewLines(es) + 1
  {
    var now := AddRow(es, row, adjacent, i, j);
    if row.kind != ' ' {
      if adjacent {
        assert now[..|now| - 1] == es[..|es| - 1];
      } else {
        assert now[..|now| - 1] == es;
      }
    }
  }

  predicate AllKinds(hunks: seq<Hunk>) { forall k :: 0 <= k < |hunks| ==> ValidKinds(hunks[k].rows) }

  lemma KindsLast(hunks: seq<Hunk>)
    requires hunks != [] && AllKinds(hunks)
    ensures AllKinds(hunks[..|hunks| - 1]) && ValidKinds(hunks[|hunks| - 1].rows)
  {
  }

  lemma {:induction false} CaptureLines(hunks: seq<Hunk>)
    requires AllKinds(hunks)
    ensures OldLines(hunks) + NewLines(HunkEdits(hunks)) <= TotalRows(hunks)
  {
    hide *;
    var n := |hunks| - 1;
    if hunks != [] {
      var h := hunks[n];
      KindsLast(hunks);
      CaptureLines(hunks[..n]);
      RowLines(h.rows, |h.rows|, h.beforeStart, h.afterStart);
      LastEdits(hunks);
      NewLinesConcat(HunkEdits(hunks[..n]), EditsUpTo(h.rows, |h.rows|, h.beforeStart, h.afterStart));
      LinesSnoc(hunks[..n], h);
      assert hunks == hunks[..n] + [h];
    } else {
      NoLines();
    }
  }

  lemma NoLines()
    ensures OldLines([]) == TotalRows([]) == NewLines(HunkEdits([])) == 0
  {
  }

  lemma LastEdits(hunks: seq<Hunk>)
    requires hunks != []
    ensures var n, h := |hunks| - 1, hunks[|hunks| - 1];
            HunkEdits(hunks) == HunkEdits(hunks[..n]) + EditsUpTo(h.rows, |h.rows|, h.beforeStart, h.afterStart) && OldSide(h.rows) == OldUpTo(h.rows, |h.rows|)
  {
    SameEdits(hunks, |hunks| - 1, |hunks| - 1);
    hide EditsUpTo, OldUpTo;
  }

  lemma {:induction false} SameEdits(hunks: seq<Hunk>, n: nat, m: nat)
    requires n <= m <= |hunks|
    ensures HunkEditsUpTo(hunks[..m], n) == HunkEditsUpTo(hunks, n)
  {
    if n > 0 {
      SameEdits(hunks, n - 1, m);
    }
  }

  lemma {:induction false} LinesSnoc(hunks: seq<Hunk>, h: Hunk)
    ensures OldLines(hunks + [h]) == OldLines(hunks) + |OldSide(h.rows)| && TotalRows(hunks + [h]) == TotalRows(hunks) + |h.rows|
  {
    hide OldSide;
    var all := hunks + [h];
    if hunks != [] {
      assert all[1..] == hunks[1..] + [h] && all[0] == hunks[0];
      LinesSnoc(hunks[1..], h);
    } else {
      assert all[1..] == [] && all[0] == h;
    }
  }

  lemma {:induction false} LengthBound(n: int, rs: seq<Region>, i: nat)
    requires i <= |rs|
    ensures LengthAfter(n, ToEdits(rs), i) <= n + NewLines(rs[i..])
    decreases |rs| - i
  {
    if i < |rs| {
      LengthBound(n, rs, i + 1);
      assert rs[i..] == [rs[i]] + rs[i + 1..];
      NewLinesConcat([rs[i]], rs[i + 1..]);
      assert NewLines([rs[i]]) == |rs[i].after| by { assert [rs[i]][..0] == []; }
    }
  }

  lemma {:induction false} LaterLines(rs: seq<Region>, i: nat)
    requires i <= |rs|
    ensures NewLines(rs[i..]) <= NewLines(rs)
  {
    assert rs == rs[..i] + rs[i..];
    NewLinesConcat(rs[..i], rs[i..]);
  }

  lemma {:induction false} OriginsSize(rs: seq<Region>, positions: set<int>)
    ensures |Origins(rs, positions)| <= |positions|
    decreases |positions|
  {
    hide OriginOf;
    if positions != {} {
      var p := Member(positions);
      var rest := positions - {p};
      OriginsSize(rs, rest);
      assert positions == rest + {p};
      assert Origins(rs, positions) <= Origins(rs, rest) + {OriginOf(rs, p).0};
      SubsetSize(Origins(rs, positions), Origins(rs, rest) + {OriginOf(rs, p).0});
      UnionSize(Origins(rs, rest), {OriginOf(rs, p).0});
    } else {
      assert Origins(rs, positions) == {};
    }
  }

  /** A composition of captures of together n rows remembers no more than n lines of either file, and
      so has room for what is captured within the capacity. */
  lemma RowsFit(rs: seq<Region>, original: map<int, Line>, current: map<int, Line>, hunks: seq<Hunk>, n: nat)
    requires |original| <= n && |current| <= n && AllKinds(hunks)
    ensures |LearnedOriginal(rs, original, hunks)| <= n + TotalRows(hunks)
    ensures LengthAfter(|LearnedCurrent(current, hunks)|, ToEdits(HunkEdits(hunks)), 0) <= n + TotalRows(hunks)
    ensures n + TotalRows(hunks) <= MAX_ROWS ==> !Oversized(rs, original, current, hunks)
  {
    hide *;
    CaptureLines(hunks);
    PositionsSize(hunks);
    OriginsSize(rs, OldPositions(hunks));
    LearnedAre(rs, original, current, hunks);
    UnionSize(original.Keys, Origins(rs, OldPositions(hunks)));
    UnionSize(current.Keys, OldPositions(hunks));
    KeysSize(original);
    KeysSize(current);
    EditsFit(|LearnedCurrent(current, hunks)|, HunkEdits(hunks));
  }

  lemma LearnedAre(rs: seq<Region>, original: map<int, Line>, current: map<int, Line>, hunks: seq<Hunk>)
    ensures LearnedOriginal(rs, original, hunks) == original.Keys + Origins(rs, OldPositions(hunks)) && LearnedCurrent(current, hunks) == current.Keys + OldPositions(hunks)
    ensures Oversized(rs, original, current, hunks) <==>
              |LearnedOriginal(rs, original, hunks)| > MAX_ROWS || TooLong(|LearnedCurrent(current, hunks)|, ToEdits(HunkEdits(hunks)))
  {
    hide OldPositions, Origins, TooLong;
  }

  lemma EditsFit(n: nat, rs: seq<Region>)
    ensures LengthAfter(n, ToEdits(rs), 0) <= n + NewLines(rs)
    ensures n + NewLines(rs) <= MAX_ROWS ==> !TooLong(n, ToEdits(rs))
  {
    forall i | 0 <= i <= |rs| ensures LengthAfter(n, ToEdits(rs), i) <= n + NewLines(rs) {
      LengthBound(n, rs, i);
      LaterLines(rs, i);
    }
  }

  // ----- Files that fit

  lemma {:induction false} OriginWalked(rs: seq<Region>, position: int, k: nat) returns (passed: nat)
    requires k <= |rs| && OriginFrom(rs, position, k).1 && forall j :: 0 <= j < k ==> rs[j].AfterEnd() <= position
    ensures Walked(rs, position, passed, true) && OriginFrom(rs, position, k).0 == position - Growth(rs[..passed])
    decreases |rs| - k
  {
    hide Growth;
    if k == |rs| || position < rs[k].afterStart {
      passed := k;
    } else {
      passed := OriginWalked(rs, position, k + 1);
    }
  }

  lemma OriginInFile(rs: seq<Region>, base: seq<Line>, cur: seq<Line>, position: int)
    requires Carries(rs, base, cur) && 0 <= position < |cur| && OriginOf(rs, position).1
    ensures 0 <= OriginOf(rs, position).0 < |base|
  {
    var passed := OriginWalked(rs, position, 0);
    var o := OriginalText(rs, base, cur, passed, position);
  }

  lemma {:induction false} PositionsInFile(hunks: seq<Hunk>, cur: seq<Line>)
    requires Fits(HunkRegions(hunks), cur)
    ensures forall p :: p in OldPositions(hunks) ==> 0 <= p < |cur|
  {
    if hunks != [] {
      var rs := HunkRegions(hunks);
      assert rs[1..] == HunkRegions(hunks[1..]);
      assert forall k :: 0 <= k < |rs[1..]| ==> rs[1..][k] == rs[k + 1];
      PositionsInFile(hunks[1..], cur);
      assert rs[0] == HunkRegion(hunks[0]);
      hide OldSide, NewSide;
    }
  }

  /** Nor does it remember more of a file than the file holds. */
  lemma FilesFit(rs: seq<Region>, original: map<int, Line>, current: map<int, Line>, hunks: seq<Hunk>, base: seq<Line>, cur: seq<Line>)
    requires Describe(rs, original, current, base, cur) && Fits(HunkRegions(hunks), cur)
    requires |base| <= MAX_ROWS && !TooLong(|cur|, ToEdits(HunkEdits(hunks)))
    ensures !Oversized(rs, original, current, hunks)
  {
    hide *;
    DescribeParts(rs, original, current, base, cur);
    DescribeKnows(rs, original, current, base, cur);
    PositionsInFile(hunks, cur);
    LearnedAre(rs, original, current, hunks);
    KnownRange(original, base);
    KnownRange(current, cur);
    forall o | o in Origins(rs, OldPositions(hunks)) ensures 0 <= o < |base| {
      var p := OriginAt(rs, OldPositions(hunks), o);
      OriginInFile(rs, base, cur, p);
    }
    RangeSize(LearnedOriginal(rs, original, hunks), 0, |base|);
    RangeSize(LearnedCurrent(current, hunks), 0, |cur|);
    TooLongGrows(|LearnedCurrent(current, hunks)|, |cur|, ToEdits(HunkEdits(hunks)));
  }

  lemma KnownRange(lines: map<int, Line>, file: seq<Line>)
    requires Knows(lines, file)
    ensures forall p :: p in lines.Keys ==> 0 <= p < |file|
  {
  }

  lemma OriginAt(rs: seq<Region>, positions: set<int>, o: int) returns (p: int)
    requires o in Origins(rs, positions)
    ensures p in positions && OriginOf(rs, p) == (o, true)
  {
    hide OriginOf;
    p :| p in positions && OriginOf(rs, p).1 && OriginOf(rs, p).0 == o;
  }
}
