/** Whole histories of one file: a chain of captures, each saying how one version became the
    next, composed from the first to the last. */
module Chain {
  import opened Text
  import opened Regions
  import opened RegionEdits
  import opened Review
  import opened Matcher
  import opened ReviewText
  import opened ReviewRender
  import opened Recall
  import opened CompositionFacts
  import opened Learning
  import opened Capacity
  import opened DisplayFacts
  import opened Sizes
  import opened Composing
  import opened Composition

  // One recorded capture, and how it is to be displayed.
  datatype Capture = Capture(file: ReviewFile, hidden: bool, highlighted: bool)

  // The capture says exactly how `from` became `to`.
  ghost predicate Step(file: ReviewFile, quote: Quote, from: seq<Line>, to: seq<Line>)
  {
    && !file.directory && file.incomplete == ""
    && var parsed := ParseHunks(file, quote, true);
       parsed.Ok? && Fits(HunkRegions(parsed.value), from) && Patched(HunkRegions(parsed.value), from) == to
  }

  // The i-th capture changes the path, the last of the first n to do so.
  predicate LastRename(captures: seq<Capture>, i: int, n: nat)
  {
    && 0 <= i < n <= |captures| && captures[i].file.beforePath != captures[i].file.afterPath
    && forall j :: i < j < n ==> captures[j].file.beforePath == captures[j].file.afterPath
  }

  // Each capture takes one version to the next, under a name that continues the one before.
  ghost predicate History(captures: seq<Capture>, quote: Quote, versions: seq<seq<Line>>)
  {
    && |versions| == |captures| + 1
    && (forall i :: 0 <= i < |captures| ==> Step(captures[i].file, quote, versions[i], versions[i + 1]))
    && (forall i :: 0 < i < |captures| ==> captures[i].file.beforePath == captures[i - 1].file.afterPath)
  }

  // The rows of the first n captures.
  function CapturedRows(captures: seq<Capture>, quote: Quote, n: nat): nat
    requires n <= |captures|
  {
    if n == 0 then 0
    else
      var parsed := ParseHunks(captures[n - 1].file, quote, true);
      CapturedRows(captures, quote, n - 1) + if parsed.Ok? then TotalRows(parsed.value) else 0
  }

  // The captures up to the i-th have few rows, or the files it is about are small.
  ghost predicate Roomy(captures: seq<Capture>, quote: Quote, versions: seq<seq<Line>>, i: nat)
    requires i < |captures| && |versions| == |captures| + 1
  {
    var parsed := ParseHunks(captures[i].file, quote, true);
    || CapturedRows(captures, quote, i + 1) <= MAX_ROWS
    || (|versions[0]| <= MAX_ROWS && parsed.Ok? && !TooLong(|versions[i]|, ToEdits(HunkEdits(parsed.value))))
  }

  // There is room for every capture: for its rows with those before it, or for the files in full.
  ghost predicate WithinCapacity(captures: seq<Capture>, quote: Quote, versions: seq<seq<Line>>)
  {
    |versions| == |captures| + 1 && forall i :: 0 <= i < |captures| ==> Roomy(captures, quote, versions, i)
  }

  /** A capture rendered from two texts is such a step exactly if the format can hold it, as it can if
      the texts are small. */
  lemma RenderedStep(file: ReviewFile, quote: Quote, grouper: Grouper, before: string, after: string)
    requires Groups(grouper) && Quotes(quote) && !file.directory && file.incomplete == ""
    requires GroupsFit(grouper(ReviewLines(before), ReviewLines(after), 10), ReviewLines(before), ReviewLines(after))
    requires var a, b := ReviewLines(before), ReviewLines(after); file.diff == RenderedDiff(file, quote, WideHunks(grouper, a, b))
    ensures var a, b := ReviewLines(before), ReviewLines(after);
            && (Step(file, quote, a, b) <==> FitsFormat(WideHunks(grouper, a, b)))
            && (|a| + |b| <= MAX_ROWS ==> FitsFormat(WideHunks(grouper, a, b)))
  {
    var a, b := ReviewLines(before), ReviewLines(after);
    var groups, hunks := grouper(a, b, 10), WideHunks(grouper, a, b);
    LinesJoin(before);
    LinesJoin(after);
    hide *;
    TextLinesOk(a);
    TextLinesOk(b);
    if |a| + |b| <= MAX_ROWS {
      WideFits(groups, a, b);
    }
    WideAre(grouper, a, b);
    RenderParses(file, quote, groups, a, b, 0, 0, true);
    RenderCarries(groups, a, b);
    CarriesPatches(HunkRegions(hunks), a, b);
    StepIs(file, quote, hunks, a, b);
  }

  lemma WideAre(grouper: Grouper, a: seq<Line>, b: seq<Line>)
    requires GroupsFit(grouper(a, b, 10), a, b)
    ensures WideHunks(grouper, a, b) == GroupHunks(grouper(a, b, 10), a, b, 0, 0)
  {
    hide GroupsFit, GroupHunks;
  }

  lemma TextLinesOk(lines: seq<Line>)
    requires TextLines(lines)
    ensures LinesOk(lines)
  {
  }

  lemma StepIs(file: ReviewFile, quote: Quote, hunks: seq<Hunk>, from: seq<Line>, to: seq<Line>)
    requires !file.directory && file.incomplete == "" && Fits(HunkRegions(hunks), from) && Patched(HunkRegions(hunks), from) == to
    ensures ParseHunks(file, quote, true) == Ok(hunks) ==> Step(file, quote, from, to)
    ensures ParseHunks(file, quote, true).Err? ==> !Step(file, quote, from, to)
  {
    hide Patched, Fits, ParseHunks, HunkRegions;
  }

  /** The composition after each capture, from an empty one on: each is what composing the capture
      makes of the one before. */
  ghost predicate Trail(captures: seq<Capture>, quote: Quote, differ: Differ, versions: seq<seq<Line>>, trail: seq<Snapshot>)
  {
    && |versions| == |captures| + 1 && 0 < |trail| <= |captures| + 1 && trail[0] == Snapshot([], map[], map[])
    && forall i :: 0 <= i < |trail| - 1 ==> TrailStep(captures, quote, differ, versions, trail, i)
  }

  ghost predicate TrailStep(captures: seq<Capture>, quote: Quote, differ: Differ, versions: seq<seq<Line>>, trail: seq<Snapshot>, i: nat)
    requires |versions| == |captures| + 1 && |trail| <= |captures| + 1 && i + 1 < |trail|
  {
    var hunks := ParseHunks(captures[i].file, quote, true);
    hunks.Ok? && Composes(trail[i], trail[i + 1], hunks.value, differ, captures[i].hidden, captures[i].highlighted && !captures[i].hidden, versions[0], versions[i])
  }

  lemma TrailNext(captures: seq<Capture>, quote: Quote, differ: Differ, versions: seq<seq<Line>>, trail: seq<Snapshot>, now: Snapshot)
    requires Trail(captures, quote, differ, versions, trail) && |trail| <= |captures|
    requires var i := |trail| - 1; var hunks := ParseHunks(captures[i].file, quote, true);
             hunks.Ok? && Composes(trail[i], now, hunks.value, differ, captures[i].hidden, captures[i].highlighted && !captures[i].hidden, versions[0], versions[i])
    ensures Trail(captures, quote, differ, versions, trail + [now])
  {
    hide Composes, ParseHunks;
    var next := trail + [now];
    forall i | 0 <= i < |next| - 1 ensures TrailStep(captures, quote, differ, versions, next, i) {
      if i < |trail| - 1 {
        assert TrailStep(captures, quote, differ, versions, trail, i);
      }
    }
  }

  // The composition of the first n captures.
  ghost predicate ComposedTo(c: ReviewComposition, captures: seq<Capture>, quote: Quote, versions: seq<seq<Line>>, n: nat)
    requires n <= |captures| && |versions| == |captures| + 1
    reads c
  {
    && c.Valid() && c.Describes(versions[0], versions[n])
    && |c.original| <= CapturedRows(captures, quote, n) && |c.current| <= CapturedRows(captures, quote, n)
    && (n > 0 ==> c.started && c.afterPath == captures[n - 1].file.afterPath && c.beforePath == captures[0].file.beforePath)
    && (n == 0 ==> !c.started && c.Snap() == Snapshot([], map[], map[]))
  }

  lemma NextAccepted(c: ReviewComposition, captures: seq<Capture>, quote: Quote, versions: seq<seq<Line>>, n: nat)
    requires n < |captures| && History(captures, quote, versions) && WithinCapacity(captures, quote, versions)
    requires ComposedTo(c, captures, quote, versions, n)
    ensures c.Valid() && c.Describes(versions[0], versions[n]) && c.Refusal(captures[n].file, quote) == None
    ensures var parsed := ParseHunks(captures[n].file, quote, true);
            && parsed.Ok? && Fits(HunkRegions(parsed.value), versions[n])
            && Patched(HunkRegions(parsed.value), versions[n]) == versions[n + 1]
            && !Oversized(c.regions, c.original, c.current, parsed.value)
            && |LearnedOriginal(c.regions, c.original, parsed.value)| <= CapturedRows(captures, quote, n + 1)
            && LengthAfter(|LearnedCurrent(c.current, parsed.value)|, ToEdits(HunkEdits(parsed.value)), 0) <= CapturedRows(captures, quote, n + 1)
  {
    hide *;
    HistoryLength(captures, quote, versions);
    NextStep(c, captures, quote, versions, n);
    var hunks := ParseHunks(captures[n].file, quote, true).value;
    ParsedKinds(captures[n].file, quote);
    RowsFit(c.regions, c.original, c.current, hunks, CapturedRows(captures, quote, n));
    if CapturedRows(captures, quote, n + 1) > MAX_ROWS {
      FilesFit(c.regions, c.original, c.current, hunks, versions[0], versions[n]);
    }
  }

  lemma NextStep(c: ReviewComposition, captures: seq<Capture>, quote: Quote, versions: seq<seq<Line>>, n: nat)
    requires n < |captures| && History(captures, quote, versions) && WithinCapacity(captures, quote, versions)
    requires ComposedTo(c, captures, quote, versions, n)
    ensures c.Valid() && c.Describes(versions[0], versions[n]) && c.Refusal(captures[n].file, quote) == None
    ensures Describe(c.regions, c.original, c.current, versions[0], versions[n])
    ensures |c.original| <= CapturedRows(captures, quote, n) && |c.current| <= CapturedRows(captures, quote, n)
    ensures var parsed := ParseHunks(captures[n].file, quote, true);
            && parsed.Ok? && Fits(HunkRegions(parsed.value), versions[n])
            && Patched(HunkRegions(parsed.value), versions[n]) == versions[n + 1]
            && CapturedRows(captures, quote, n + 1) == CapturedRows(captures, quote, n) + TotalRows(parsed.value)
            && (CapturedRows(captures, quote, n + 1) > MAX_ROWS ==> |versions[0]| <= MAX_ROWS && !TooLong(|versions[n]|, ToEdits(HunkEdits(parsed.value))))
  {
    hide ParseHunks, HunkRegions, Fits, Patched, Describe, TooLong, HunkEdits, ToEdits, TotalRows;
    assert Step(captures[n].file, quote, versions[n], versions[n + 1]) && Roomy(captures, quote, versions, n);
  }

  lemma ParsedKinds(file: ReviewFile, quote: Quote)
    ensures var parsed := ParseHunks(file, quote, true); parsed.Ok? ==> AllKinds(parsed.value)
  {
    ParsedOrdered(file, quote, true);
    hide ParseHunks, ValidKinds;
  }

  /** Composes a history.  Every capture of a genuine one is accepted, and what is left are the
      net regions between its ends: they fit the first version, and patching them into it gives the
      last version.  If every capture is hidden, every region is, and if none is highlighted, no
      region is. */
  method Compose(captures: seq<Capture>, quote: Quote, differ: Differ, ghost versions: seq<seq<Line>>) returns (c: ReviewComposition, ghost trail: seq<Snapshot>)
    requires History(captures, quote, versions) && WithinCapacity(captures, quote, versions) && Matches(differ)
    ensures fresh(c) && c.Describes(versions[0], versions[|captures|])
    ensures Trail(captures, quote, differ, versions, trail) && |trail| == |captures| + 1 && c.Snap() == trail[|captures|]
    ensures Fits(c.regions, versions[0]) && Patched(c.regions, versions[0]) == versions[|captures|] && Placed(c.regions)
    ensures captures != [] ==> c.started && c.beforePath == captures[0].file.beforePath && c.afterPath == captures[|captures| - 1].file.afterPath
    ensures forall i :: 0 <= i < |captures| && LastRename(captures, i, |captures|) ==> c.pathHidden == captures[i].hidden && c.pathHighlighted == (captures[i].highlighted && !captures[i].hidden)
    ensures (forall i :: 0 <= i < |captures| ==> captures[i].hidden) ==> AllHidden(c.regions)
    ensures (forall i :: 0 <= i < |captures| ==> captures[i].hidden || !captures[i].highlighted) ==> NoneHighlighted(c.regions)
  {
    hide *;
    c := new ReviewComposition();
    trail := [Snapshot([], map[], map[])];
    HistoryLength(captures, quote, versions);
    NothingComposed(c, captures, quote, differ, versions);
    NothingRenamed(captures);
    var i := 0;
    while i < |captures|
      invariant 0 <= i <= |captures| && fresh(c) && ComposedTo(c, captures, quote, versions, i)
      invariant Trail(captures, quote, differ, versions, trail) && |trail| == i + 1 && c.Snap() == trail[i]
      invariant forall k :: 0 <= k < i && LastRename(captures, k, i) ==> c.pathHidden == captures[k].hidden && c.pathHighlighted == (captures[k].highlighted && !captures[k].hidden)
      invariant (forall k :: 0 <= k < i ==> captures[k].hidden) ==> AllHidden(c.regions)
      invariant (forall k :: 0 <= k < i ==> captures[k].hidden || !captures[k].highlighted) ==> NoneHighlighted(c.regions)
    {
      NextAccepted(c, captures, quote, versions, i);
      StartedAs(c, captures, quote, versions, i);
      var capture := captures[i];
      ghost var was := c.Snapped();
      ghost var base, cur;
      var err;
      err, base, cur := c.ApplyWithHighlight(capture.file, quote, differ, capture.hidden, capture.highlighted, versions[0], versions[i]);
      ghost var now := c.Snapped();
      SizedIs(was, now, ParseHunks(capture.file, quote, true).value);
      TrailNext(captures, quote, differ, versions, trail, now);
      RenameNext(captures, i, i + 1);
      trail := trail + [now];
      i := i + 1;
      MakeComposedTo(c, captures, quote, versions, i);
    }
    ComposedAs(c, captures, quote, versions);
    Composed(c.regions, c.original, c.current, versions[0], versions[|captures|]);
  }

  lemma RenameNext(captures: seq<Capture>, n: nat, m: nat)
    requires n < |captures| && m == n + 1
    ensures forall k :: 0 <= k <= n && LastRename(captures, k, m) ==> k == n || LastRename(captures, k, n)
    ensures forall k :: 0 <= k < n && LastRename(captures, k, m) ==> captures[n].file.beforePath == captures[n].file.afterPath
    ensures LastRename(captures, n, m) <==> captures[n].file.beforePath != captures[n].file.afterPath
  {
  }

  lemma NothingRenamed(captures: seq<Capture>)
    ensures forall k :: !LastRename(captures, k, 0)
  {
  }

  lemma NothingComposed(c: ReviewComposition, captures: seq<Capture>, quote: Quote, differ: Differ, versions: seq<seq<Line>>)
    requires |versions| == |captures| + 1 && c.Valid() && !c.started && forall file: seq<Line> :: c.Describes(file, file)
    ensures ComposedTo(c, captures, quote, versions, 0) && c.Snap() == Snapshot([], map[], map[]) && AllHidden(c.regions) && NoneHighlighted(c.regions)
    ensures Trail(captures, quote, differ, versions, [Snapshot([], map[], map[])])
  {
    hide Describe;
  }

  lemma StartedAs(c: ReviewComposition, captures: seq<Capture>, quote: Quote, versions: seq<seq<Line>>, n: nat)
    requires n <= |captures| && |versions| == |captures| + 1 && ComposedTo(c, captures, quote, versions, n)
    ensures c.started <==> n > 0
    ensures n > 0 ==> c.beforePath == captures[0].file.beforePath
  {
    hide ReviewComposition.Describes;
  }

  lemma SizedIs(was: Snapshot, now: Snapshot, hunks: seq<Hunk>)
    requires Sized(was, now, hunks)
    ensures |now.original| <= |LearnedOriginal(was.regions, was.original, hunks)|
    ensures |now.current| <= LengthAfter(|LearnedCurrent(was.current, hunks)|, ToEdits(HunkEdits(hunks)), 0)
  {
    hide LearnedOriginal, LearnedCurrent, LengthAfter;
  }

  lemma MakeComposedTo(c: ReviewComposition, captures: seq<Capture>, quote: Quote, versions: seq<seq<Line>>, n: nat)
    requires 0 < n <= |captures| && |versions| == |captures| + 1 && c.Valid() && c.Describes(versions[0], versions[n])
    requires |c.original| <= CapturedRows(captures, quote, n) && |c.current| <= CapturedRows(captures, quote, n)
    requires c.started && c.afterPath == captures[n - 1].file.afterPath && c.beforePath == captures[0].file.beforePath
    ensures ComposedTo(c, captures, quote, versions, n)
  {
    hide ReviewComposition.Describes, CapturedRows;
  }

  lemma ComposedAs(c: ReviewComposition, captures: seq<Capture>, quote: Quote, versions: seq<seq<Line>>)
    requires |versions| == |captures| + 1 && ComposedTo(c, captures, quote, versions, |captures|)
    ensures c.Describes(versions[0], versions[|captures|]) && Describe(c.regions, c.original, c.current, versions[0], versions[|captures|])
    ensures captures != [] ==> c.started && c.beforePath == captures[0].file.beforePath && c.afterPath == captures[|captures| - 1].file.afterPath
  {
    hide Describe;
  }

  lemma HistoryLength(captures: seq<Capture>, quote: Quote, versions: seq<seq<Line>>)
    requires History(captures, quote, versions)
    ensures |versions| == |captures| + 1
  {
  }

  lemma Composed(rs: seq<Region>, original: map<int, Line>, current: map<int, Line>, base: seq<Line>, cur: seq<Line>)
    requires Describe(rs, original, current, base, cur)
    ensures Fits(rs, base) && Patched(rs, base) == cur && Placed(rs)
  {
    CarriesPatches(rs, base, cur);
    CarriesPlaced(rs, base, cur);
  }

  /** Composes a history and displays it.  The displayed fragments show every visible change, once,
      as it is in both versions; if they can be read back as text, and they can if the versions are
      small, then applied to the first version they make exactly those changes, and if none is hidden
      they give the last version. */
  method Project(captures: seq<Capture>, quote: Quote, differ: Differ, grouper: Grouper, ghost versions: seq<seq<Line>>)
    returns (c: ReviewComposition, files: seq<HighlightedFile>, ghost shown: seq<Region>)
    requires History(captures, quote, versions) && WithinCapacity(captures, quote, versions) && Matches(differ) && Groups(grouper) && Quotes(quote)
    requires LinesOk(versions[0]) && LinesOk(versions[|captures|])
    ensures c.Describes(versions[0], versions[|captures|])
    ensures var base, cur, joined := versions[0], versions[|captures|], JoinedAll(c.regions);
            && SameShown(joined, c.regions, base, cur) && NoneAdjacent(joined)
            && Fragments(shown, Visible(joined), base, cur) && Contextual(shown, joined, |joined|, c.original, c.current)
            && if shown == [] then files == c.PathFiles(quote) else Shows(files, c.Header(), shown, Visible(joined), quote, grouper)
    ensures forall k :: 0 <= k < |files| ==> files[k].file.beforePath == c.beforePath && files[k].file.afterPath == c.afterPath
    ensures shown == [] ==> |files| <= 1 && (files != [] <==> c.started && !c.pathHidden && c.beforePath != c.afterPath) && (files != [] ==> files[0].highlighted == c.pathHighlighted)
    ensures captures != [] ==> c.started && c.beforePath == captures[0].file.beforePath && c.afterPath == captures[|captures| - 1].file.afterPath
    ensures forall i :: 0 <= i < |captures| && LastRename(captures, i, |captures|) ==> c.pathHidden == captures[i].hidden && c.pathHighlighted == (captures[i].highlighted && !captures[i].hidden)
    ensures Readable(files, quote) ==>
              var hunks := HunkRegions(ReadBack(files, quote)); Fits(hunks, versions[0]) && Patched(hunks, versions[0]) == ShownText(c.regions, versions[0])
    ensures |versions[0]| + |versions[|captures|]| <= MAX_ROWS ==> Readable(files, quote)
    ensures (forall k :: 0 <= k < |c.regions| ==> !c.regions[k].hidden) ==> ShownText(c.regions, versions[0]) == versions[|captures|]
  {
    hide *;
    ghost var trail;
    c, trail := Compose(captures, quote, differ, versions);
    HistoryLength(captures, quote, versions);
    ghost var base, cur := versions[0], versions[|captures|];
    c.Describing(base, cur);
    DenotesAs(c.regions, c.original, c.current, base, cur);
    ShownEnds(c.regions, base, cur);
    files, shown := c.Files(quote, grouper, base, cur);
    ghost var joined := JoinedAll(c.regions);
    SameShownIs(joined, c.regions, base, cur);
    if shown == [] {
      PathsReadBack(c, files, quote, joined, grouper, base, cur);
    } else {
      ShowsReadable(files, c.Header(), shown, Visible(joined), quote, grouper, base, cur);
      if |base| + |cur| <= MAX_ROWS {
        ShownSmall(shown, Visible(joined), grouper, base, cur);
      }
      if Readable(files, quote) {
        DisplayedPatch(files, c.Header(), shown, joined, quote, grouper, base, cur);
      }
    }
  }

  lemma DenotesAs(rs: seq<Region>, original: map<int, Line>, current: map<int, Line>, base: seq<Line>, cur: seq<Line>)
    requires Describe(rs, original, current, base, cur)
    ensures Denotes(rs, original, current, base, cur) && Carries(rs, base, cur)
  {
    hide Carries, Captured, Sound, Recalled, Knows;
  }

  lemma SameShownIs(xs: seq<Region>, rs: seq<Region>, base: seq<Line>, cur: seq<Line>)
    ensures SameShown(xs, rs, base, cur) ==> ShownText(xs, base) == ShownText(rs, base)
  {
    hide Carries, ShownText;
  }

  // The format holds every fragment of files it could hold.
  lemma ShownSmall(shown: seq<Region>, visible: seq<Region>, grouper: Grouper, base: seq<Line>, cur: seq<Line>)
    requires Groups(grouper) && |base| + |cur| <= MAX_ROWS && Fragments(shown, visible, base, cur)
    ensures forall k :: 0 <= k < |shown| ==> FitsFormat(FragmentHunks(shown[k], grouper))
  {
    hide FitsFormat, FragmentHunks, Groups;
    forall k | 0 <= k < |shown| ensures FitsFormat(FragmentHunks(shown[k], grouper)) {
      SmallFits(shown[k], grouper);
    }
  }

  // A changed path alone changes no text.
  lemma PathsReadBack(c: ReviewComposition, files: seq<HighlightedFile>, quote: Quote, joined: seq<Region>, grouper: Grouper, base: seq<Line>, cur: seq<Line>)
    requires Quotes(quote) && files == c.PathFiles(quote) && Fragments([], Visible(joined), base, cur)
    ensures var hunks := HunkRegions(ReadBack(files, quote)); Fits(hunks, base) && Patched(hunks, base) == ShownText(joined, base)
    ensures Readable(files, quote)
  {
    hide *;
    NoFragments(Visible(joined), base, cur);
    NothingShown(joined, base);
    if files != [] {
      var header := OnlyPaths(c, files, quote);
      PlainNone();
      ParseRendered(files[0].file, quote, [], false);
      OneRead(files, quote);
    } else {
      NoneRead(files, quote);
    }
  }

  lemma NoFragments(rs: seq<Region>, base: seq<Line>, cur: seq<Line>)
    requires Fragments([], rs, base, cur)
    ensures rs == []
  {
  }

  lemma NothingShown(joined: seq<Region>, base: seq<Line>)
    requires Visible(joined) == []
    ensures HunkRegions([]) == [] && Fits([], base) && Patched([], base) == ShownText(joined, base) == base
  {
    NothingPatched(base);
  }

  lemma OnlyPaths(c: ReviewComposition, files: seq<HighlightedFile>, quote: Quote) returns (header: ReviewFile)
    requires files != [] && files == c.PathFiles(quote)
    ensures |files| == 1 && files[0].file.diff == RenderedDiff(files[0].file, quote, [])
  {
    header := c.Header();
  }

  lemma PlainNone()
    ensures Plain([]) && FitsFormat([]) && Follows([], false, Progress(0, 0, 0, 0))
  {
  }

  lemma OneRead(files: seq<HighlightedFile>, quote: Quote)
    requires |files| == 1 && ParseHunks(files[0].file, quote, false) == Ok([])
    ensures ReadBack(files, quote) == [] && Readable(files, quote)
  {
    hide ParseHunks;
    assert files[..0] == [];
  }

  lemma NoneRead(files: seq<HighlightedFile>, quote: Quote)
    requires files == []
    ensures ReadBack(files, quote) == [] && Readable(files, quote)
  {
    hide ParseHunks;
  }
}
