/** Replaying or undoing a captured review on current content. */
module Merge {
  import opened Text
  import opened Regions
  import opened Matcher
  import opened Review
  import opened ReviewText
  import opened ReviewRender
  import opened DisplayFacts
  import opened Diff3
  import opened Anchors
  import opened MergeFacts
  import opened MergePlan
  import opened MergeSteps

  datatype MergeError = DirectoryContents | IncompleteHistory | BinaryContent | Malformed(error: ParseError)

  datatype ReviewMerge = ReviewMerge(content: string, conflicts: nat, satisfied: nat, rejected: seq<string>)

  /** What a hunk looks for, what it puts there instead, and the line it was taken down at. */
  method Sides(h: Hunk, reverse: bool) returns (from: seq<Line>, to: seq<Line>, start: int)
    ensures from == From(h, reverse) && to == To(h, reverse) && start == Start(h, reverse)
  {
    var before, after := [], [];
    for i := 0 to |h.rows|
      invariant before == OldUpTo(h.rows, i) && after == NewUpTo(h.rows, i)
    {
      var row := h.rows[i];
      if row.kind != '+' {
        before := before + [row.text];
      }
      if row.kind != '-' {
        after := after + [row.text];
      }
    }
    if reverse {
      return after, before, h.afterStart;
    }
    return before, after, h.beforeStart;
  }

  method ContextRuns(rows: seq<Row>) returns (lead: nat, trail: nat)
    ensures ContextOf(rows, lead, trail)
  {
    hide LeadOf, TrailOf;
    lead, trail := 0, 0;
    while lead < |rows| && rows[lead].kind == ' '
      invariant lead <= |rows| && forall k :: 0 <= k < lead ==> rows[k].kind == ' '
    {
      lead := lead + 1;
    }
    LeadIs(rows, lead);
    ghost var rest := rows[lead..];
    while trail < |rows| - lead && rows[|rows| - 1 - trail].kind == ' '
      invariant lead + trail <= |rows| && forall k :: |rest| - trail <= k < |rest| ==> rest[k].kind == ' '
    {
      trail := trail + 1;
    }
    TrailIs(rest, trail);
  }

  /** Replays one hunk: exactly where it is found nearest to its recorded place, else merged into
      the region its context anchors, else as already present, else not at all. */
  method ReplayHunk(h: Hunk, reverse: bool, lines: seq<Line>, name: string, blocker: Blocker, was: State) returns (now: State, ghost outcome: Outcome)
    requires Blocks(blocker) && 0 <= was.cursor <= |lines|
    ensures Step(h, reverse, lines, name, blocker, was, outcome, now)
  {
    hide *;
    var from, to, start := Sides(h, reverse);
    var expected := if was.cursor > start + was.offset then was.cursor else start + was.offset;
    ExpectedAt(h, reverse, was);
    var atEnd := |to| != 0 && !EndsLine(to[|to| - 1]);
    IsOpenEnded(to);
    var found := NearestReviewRun(lines, from, was.cursor, expected);
    ExactWhen(h, reverse, lines, was, found);
    if found.Some? && (!atEnd || found.value + |from| == |lines|) {
      var at := found.value;
      ExactReads(h, reverse, lines, was, at);
      now := was.(output := was.output + lines[was.cursor..at] + to, cursor := at + |from|, offset := at - start);
      outcome := Replaced(at);
      StepReplaced(h, reverse, lines, name, blocker, was, at, now);
      return;
    }
    var s := HunkSearch(h, reverse, lines, was, from, expected);
    var best := AnchorReviewRegion(s);
    if best.Some? {
      var b := best.value;
      RegionReads(h, reverse, lines, was, b);
      Region3Cut(h, reverse, lines, was, b);
      var theirs := to[b.l.1..|to| - (|from| - b.t.0)];
      var merged, conflicts := MergeReviewLines(blocker, from[b.l.1..b.t.0], lines[b.first..b.last], theirs, name);
      now := State(was.output + lines[was.cursor..b.first] + merged, b.last, b.first - b.l.1 - start, was.conflicts + conflicts,
                   was.satisfied + (if lines[b.first..b.last] == theirs then 1 else 0), was.rejected);
      outcome := MergedAt(b);
      StepMerged(h, reverse, lines, name, blocker, was, b, merged, conflicts, now);
      return;
    }
    found := NearestReviewRun(lines, to, was.cursor, expected);
    PresentWhen(h, reverse, lines, was, found);
    if found.Some? && |to| != 0 && Distance(found.value, expected) <= |to| {
      var end := found.value + |to|;
      PresentReads(h, reverse, lines, was, found.value);
      now := was.(output := was.output + lines[was.cursor..end], cursor := end, offset := found.value - start, satisfied := was.satisfied + 1);
      outcome := Present(found.value);
      StepPresent(h, reverse, lines, name, blocker, was, found.value, now);
      return;
    }
    now := was.(rejected := was.rejected + [HunkText(h)]);
    outcome := Rejected;
    StepRejected(h, reverse, lines, name, blocker, was, now);
  }

  lemma ExpectedAt(h: Hunk, reverse: bool, was: State)
    ensures Expected(h, reverse, was) == if was.cursor > Start(h, reverse) + was.offset then was.cursor else Start(h, reverse) + was.offset
  {
  }

  lemma IsOpenEnded(to: seq<Line>)
    ensures OpenEnded(to) <==> |to| != 0 && !EndsLine(to[|to| - 1])
  {
  }

  lemma ExactWhen(h: Hunk, reverse: bool, lines: seq<Line>, was: State, found: Option<int>)
    requires Nearest(lines, From(h, reverse), was.cursor, Expected(h, reverse, was), found)
    ensures forall at :: ExactAt(h, reverse, lines, was, at) <==> found == Some(at) && (OpenEnded(To(h, reverse)) ==> at + |From(h, reverse)| == |lines|)
  {
    hide Nearest, From, To, OpenEnded, Expected;
    forall at | Nearest(lines, From(h, reverse), was.cursor, Expected(h, reverse, was), Some(at)) ensures found == Some(at) {
      NearestOnce(lines, From(h, reverse), was.cursor, Expected(h, reverse, was), found, Some(at));
    }
  }

  lemma PresentWhen(h: Hunk, reverse: bool, lines: seq<Line>, was: State, found: Option<int>)
    requires Nearest(lines, To(h, reverse), was.cursor, Expected(h, reverse, was), found)
    ensures forall at :: PresentAt(h, reverse, lines, was, at) <==> found == Some(at) && To(h, reverse) != [] && Distance(at, Expected(h, reverse, was)) <= |To(h, reverse)|
  {
    hide Nearest, From, To, Expected, Distance;
    forall at | Nearest(lines, To(h, reverse), was.cursor, Expected(h, reverse, was), Some(at)) ensures found == Some(at) {
      NearestOnce(lines, To(h, reverse), was.cursor, Expected(h, reverse, was), found, Some(at));
    }
  }

  method HunkSearch(h: Hunk, reverse: bool, lines: seq<Line>, was: State, from: seq<Line>, expected: int) returns (s: Search)
    requires 0 <= was.cursor <= |lines| && from == From(h, reverse) && expected == Expected(h, reverse, was)
    ensures s == ContextSearch(h, reverse, lines, was) && s.Valid()
  {
    hide *;
    var lead, trail := ContextRuns(h.rows);
    s := Search(lines, from, lead, trail, was.cursor, expected + lead);
    SearchIs(h, reverse, lines, was, lead, trail);
    SearchFits(h, reverse, lines, was);
  }

  // The three texts of the region are cut out within bounds.
  lemma Region3Cut(h: Hunk, reverse: bool, lines: seq<Line>, was: State, b: Best)
    requires 0 <= was.cursor <= |lines|
    requires Region3(ContextSearch(h, reverse, lines, was), b, To(h, reverse), BaseText(h, reverse, b), OursText(lines, b), TheirsText(h, reverse, b))
    ensures var from, to := From(h, reverse), To(h, reverse);
            && 0 <= b.l.1 <= b.t.0 <= |from| && b.l.1 <= |to| - (|from| - b.t.0) <= |to|
            && BaseText(h, reverse, b) == from[b.l.1..b.t.0] && TheirsText(h, reverse, b) == to[b.l.1..|to| - (|from| - b.t.0)]
  {
    SearchFits(h, reverse, lines, was);
    hide ContextSearch, From, To, OursText;
  }

  lemma StepReplaced(h: Hunk, reverse: bool, lines: seq<Line>, name: string, blocker: Blocker, was: State, at: int, now: State)
    requires Blocks(blocker) && ExactAt(h, reverse, lines, was, at) && 0 <= was.cursor <= at <= |lines|
    requires now == was.(output := was.output + lines[was.cursor..at] + To(h, reverse), cursor := at + |From(h, reverse)|, offset := at - Start(h, reverse))
    ensures Step(h, reverse, lines, name, blocker, was, Replaced(at), now)
  {
    hide ExactAt, From, To, Start, Blocks;
  }

  lemma StepMerged(h: Hunk, reverse: bool, lines: seq<Line>, name: string, blocker: Blocker, was: State, b: Best, merged: seq<Line>, conflicts: nat, now: State)
    requires Blocks(blocker) && (forall at :: !ExactAt(h, reverse, lines, was, at)) && Chosen(ContextSearch(h, reverse, lines, was), Some(b))
    requires 0 <= was.cursor <= b.first <= b.last <= |lines|
    requires (merged, conflicts) == MergeOf(blocker, BaseText(h, reverse, b), OursText(lines, b), TheirsText(h, reverse, b), name)
    requires now == State(was.output + lines[was.cursor..b.first] + merged, b.last, b.first - b.l.1 - Start(h, reverse), was.conflicts + conflicts,
                          was.satisfied + (if OursText(lines, b) == TheirsText(h, reverse, b) then 1 else 0), was.rejected)
    ensures Step(h, reverse, lines, name, blocker, was, MergedAt(b), now)
  {
    hide ExactAt, From, To, Start, Blocks, Chosen, ContextSearch, MergeOf, BaseText, OursText, TheirsText;
  }

  lemma StepPresent(h: Hunk, reverse: bool, lines: seq<Line>, name: string, blocker: Blocker, was: State, at: int, now: State)
    requires Blocks(blocker) && (forall x :: !ExactAt(h, reverse, lines, was, x)) && Chosen(ContextSearch(h, reverse, lines, was), None)
    requires PresentAt(h, reverse, lines, was, at) && 0 <= was.cursor <= at + |To(h, reverse)| <= |lines|
    requires now == was.(output := was.output + lines[was.cursor..at + |To(h, reverse)|], cursor := at + |To(h, reverse)|, offset := at - Start(h, reverse), satisfied := was.satisfied + 1)
    ensures Step(h, reverse, lines, name, blocker, was, Present(at), now)
  {
    hide ExactAt, PresentAt, From, To, Start, Blocks, Chosen, ContextSearch;
  }

  lemma StepRejected(h: Hunk, reverse: bool, lines: seq<Line>, name: string, blocker: Blocker, was: State, now: State)
    requires Blocks(blocker) && (forall at :: !ExactAt(h, reverse, lines, was, at)) && Chosen(ContextSearch(h, reverse, lines, was), None)
    requires (forall at :: !PresentAt(h, reverse, lines, was, at)) && now == was.(rejected := was.rejected + [HunkText(h)])
    ensures Step(h, reverse, lines, name, blocker, was, Rejected, now)
  {
    hide ExactAt, PresentAt, From, To, Start, Blocks, Chosen, ContextSearch, HunkText;
  }

  // ----- All hunks

  /** Replays the hunks in order, step by step. */
  method Replay(hunks: seq<Hunk>, reverse: bool, lines: seq<Line>, name: string, blocker: Blocker)
    returns (st: State, output: seq<Line>, ghost outcomes: seq<Outcome>, ghost states: seq<State>)
    requires Blocks(blocker)
    ensures Traced(hunks, reverse, lines, name, blocker, outcomes, states) && |outcomes| == |hunks| && st == states[|hunks|]
    ensures 0 <= st.cursor <= |lines| && output == st.output + lines[st.cursor..]
  {
    hide *;
    st := State([], 0, 0, 0, 0, []);
    outcomes, states := [], [st];
    TraceNone(hunks, reverse, lines, name, blocker);
    var i := 0;
    while i < |hunks|
      invariant 0 <= i <= |hunks| && 0 <= st.cursor <= |lines|
      invariant Traced(hunks, reverse, lines, name, blocker, outcomes, states) && |outcomes| == i && |states| == i + 1 && st == states[i]
    {
      ghost var outcome;
      ghost var was := st;
      st, outcome := ReplayHunk(hunks[i], reverse, lines, name, blocker, st);
      TraceMore(hunks, reverse, lines, name, blocker, outcomes, states, outcome, st);
      outcomes, states := outcomes + [outcome], states + [st];
      TraceWindows(hunks, reverse, lines, name, blocker, outcomes, states, i + 1);
      i := i + 1;
    }
    output := st.output + lines[st.cursor..];
  }

  lemma TraceNone(hunks: seq<Hunk>, reverse: bool, lines: seq<Line>, name: string, blocker: Blocker)
    requires Blocks(blocker)
    ensures Traced(hunks, reverse, lines, name, blocker, [], [State([], 0, 0, 0, 0, [])])
  {
  }

  lemma TraceMore(hunks: seq<Hunk>, reverse: bool, lines: seq<Line>, name: string, blocker: Blocker, outcomes: seq<Outcome>, states: seq<State>, outcome: Outcome, now: State)
    requires Blocks(blocker) && Traced(hunks, reverse, lines, name, blocker, outcomes, states) && |outcomes| < |hunks|
    requires |states| == |outcomes| + 1 && Step(hunks[|outcomes|], reverse, lines, name, blocker, states[|outcomes|], outcome, now)
    ensures Traced(hunks, reverse, lines, name, blocker, outcomes + [outcome], states + [now])
  {
    hide Step;
    forall k | 0 <= k <= |outcomes| ensures StepAt(hunks, reverse, lines, name, blocker, outcomes + [outcome], states + [now], k) {
      if k < |outcomes| {
        assert StepAt(hunks, reverse, lines, name, blocker, outcomes, states, k);
      }
    }
  }

  // The whole output of a trace: what it has written, and the text from its cursor on.
  function OutputOf(lines: seq<Line>, st: State): seq<Line> { st.output + if 0 <= st.cursor <= |lines| then lines[st.cursor..] else [] }

  /** A trace's output is the text with its windows rewritten, at most one for every hunk that was
      not rejected: every line outside them survives, in order; of texts it is a text. */
  lemma TraceOutput(hunks: seq<Hunk>, reverse: bool, lines: seq<Line>, name: string, blocker: Blocker, outcomes: seq<Outcome>, states: seq<State>)
    requires Blocks(blocker) && Traced(hunks, reverse, lines, name, blocker, outcomes, states) && |outcomes| == |hunks|
    ensures |states| == |hunks| + 1
    ensures var n := |hunks|; var rs := WindowsOf(hunks, reverse, lines, name, blocker, outcomes, states, n);
            && Carries(rs, lines, OutputOf(lines, states[n])) && |rs| + |states[n].rejected| <= n
            && (TextHunks(hunks, reverse, lines, name) ==> TextLines(OutputOf(lines, states[n])))
  {
    hide *;
    var n := |hunks|;
    TraceStart(hunks, reverse, lines, name, blocker, outcomes, states);
    TraceWindows(hunks, reverse, lines, name, blocker, outcomes, states, n);
    OutputIs(lines, states[n]);
    WindowsDone(WindowsOf(hunks, reverse, lines, name, blocker, outcomes, states, n), lines, states[n].output, states[n].cursor);
    if TextHunks(hunks, reverse, lines, name) {
      TraceText(hunks, reverse, lines, name, blocker, outcomes, states, n);
      HunksText(hunks, reverse, lines, name);
      SettledEnd(lines, states[n].output, states[n].cursor);
    }
  }

  lemma OutputIs(lines: seq<Line>, st: State)
    requires 0 <= st.cursor <= |lines|
    ensures OutputOf(lines, st) == st.output + lines[st.cursor..]
  {
  }

  lemma HunksText(hunks: seq<Hunk>, reverse: bool, lines: seq<Line>, name: string)
    requires TextHunks(hunks, reverse, lines, name)
    ensures TextLines(lines)
  {
  }

  lemma SettledEnd(lines: seq<Line>, output: seq<Line>, cursor: int)
    requires Settled(lines, output, cursor) && TextLines(lines)
    ensures TextLines(output + lines[cursor..])
  {
    SettledCopy(lines, output, cursor, |lines|);
    assert lines[cursor..|lines|] == lines[cursor..];
  }

  // ----- A whole review

  /** The captured hunks, each rendered again with compact context. */
  method Compact(file: ReviewFile, wide: seq<Hunk>, quote: Quote, grouper: Grouper) returns (r: Result<seq<Hunk>, ParseError>)
    requires Groups(grouper)
    ensures r == CompactUpTo(file, wide, |wide|, quote, grouper)
  {
    hide *;
    var hunks := [];
    NoneCompact(file, wide, quote, grouper);
    var i := 0;
    while i < |wide|
      invariant 0 <= i <= |wide| && CompactUpTo(file, wide, i, quote, grouper) == Ok(hunks)
    {
      var before, after, start := Sides(wide[i], false);
      var f := Region(wide[i].beforeStart, wide[i].afterStart, before, after, false, false);
      HunkSides(wide[i], f);
      CompactNext(file, wide, i, quote, grouper);
      CompactParse(file, wide[i], quote, grouper);
      var parsed := ParseReviewHunks(FragmentFile(file, f, quote, grouper), quote, false);
      if parsed.Err? {
        CompactFails(file, wide, i + 1, |wide|, quote, grouper);
        return parsed;
      }
      hunks := hunks + parsed.value;
      i := i + 1;
    }
    r := Ok(hunks);
  }

  lemma NoneCompact(file: ReviewFile, wide: seq<Hunk>, quote: Quote, grouper: Grouper)
    requires Groups(grouper)
    ensures CompactUpTo(file, wide, 0, quote, grouper) == Ok([])
  {
  }

  lemma HunkSides(h: Hunk, f: Region)
    requires f == Region(h.beforeStart, h.afterStart, From(h, false), To(h, false), false, false)
    ensures f == HunkRegion(h)
  {
  }

  lemma CompactParse(file: ReviewFile, h: Hunk, quote: Quote, grouper: Grouper)
    requires Groups(grouper)
    ensures CompactHunk(file, h, quote, grouper) == ParseHunks(FragmentFile(file, HunkRegion(h), quote, grouper), quote, false)
  {
  }

  lemma {:induction false} CompactFails(file: ReviewFile, wide: seq<Hunk>, n: nat, m: nat, quote: Quote, grouper: Grouper)
    requires Groups(grouper) && n <= m <= |wide| && CompactUpTo(file, wide, n, quote, grouper).Err?
    ensures CompactUpTo(file, wide, m, quote, grouper) == CompactUpTo(file, wide, n, quote, grouper)
    decreases m
  {
    hide *;
    if n < m {
      CompactFails(file, wide, n, m - 1, quote, grouper);
      CompactNext(file, wide, m - 1, quote, grouper);
    }
  }

  // Why a capture cannot be replayed at all.
  function Unmergeable(file: ReviewFile, quote: Quote, grouper: Grouper): Option<MergeError>
    requires Groups(grouper)
  {
    if file.directory then Some(DirectoryContents)
    else if file.incomplete != "" then Some(IncompleteHistory)
    else if file.binary then Some(BinaryContent)
    else
      var wide := ParseHunks(file, quote, false);
      if wide.Err? then Some(Malformed(wide.error))
      else
        var hunks := CompactUpTo(file, wide.value, |wide.value|, quote, grouper);
        if hunks.Err? then Some(Malformed(hunks.error)) else None
  }

  lemma UnmergeableMeans(file: ReviewFile, quote: Quote, grouper: Grouper)
    requires Groups(grouper)
    ensures Unmergeable(file, quote, grouper) == Some(DirectoryContents) <==> file.directory
    ensures Unmergeable(file, quote, grouper) == Some(IncompleteHistory) <==> !file.directory && file.incomplete != ""
    ensures Unmergeable(file, quote, grouper) == Some(BinaryContent) <==> !file.directory && file.incomplete == "" && file.binary
    ensures Unmergeable(file, quote, grouper) == None ==> !file.directory && file.incomplete == "" && !file.binary && ParseHunks(file, quote, false).Ok?
    ensures forall e :: !file.directory && file.incomplete == "" && !file.binary && ParseHunks(file, quote, false) == Err(e) ==> Unmergeable(file, quote, grouper) == Some(Malformed(e))
  {
    hide ParseHunks, CompactUpTo;
  }

  // The hunks that are replayed: the captured ones, each cut into compact ones.
  function ReplayedHunks(file: ReviewFile, quote: Quote, grouper: Grouper): seq<Hunk>
    requires Groups(grouper)
  {
    var wide := ParseHunks(file, quote, false);
    if wide.Err? then [] else
      var hunks := CompactUpTo(file, wide.value, |wide.value|, quote, grouper);
      if hunks.Err? then [] else hunks.value
  }

  /** Replays a captured review on current content, or undoes it, and reports what the text decides
      for every hunk.  A capture rendered from one text to another is accepted exactly if the format
      can hold it; then replaying it on the first gives the second and undoing it on the second gives
      the first, without conflicts or rejections. */
  method MergeReview(file: ReviewFile, current: string, reverse: bool, name: string, quote: Quote, grouper: Grouper, blocker: Blocker)
    returns (r: Result<ReviewMerge, MergeError>, ghost outcomes: seq<Outcome>, ghost states: seq<State>)
    requires Groups(grouper) && Blocks(blocker)
    ensures if Unmergeable(file, quote, grouper).Some? then r == Err(Unmergeable(file, quote, grouper).value) else r.Ok?
    ensures r.Ok? ==> var hunks, lines := ReplayedHunks(file, quote, grouper), ReviewLines(current);
              && Traced(hunks, reverse, lines, name, blocker, outcomes, states) && |outcomes| == |hunks| && |states| == |hunks| + 1
              && var st := states[|hunks|]; r.value == ReviewMerge(Join(OutputOf(lines, st)), st.conflicts, st.satisfied, st.rejected)
    ensures r.Ok? && |r.value.rejected| == |ReplayedHunks(file, quote, grouper)| ==> r.value.content == current
    ensures forall a, b :: Rendered(file, quote, grouper, a, b) ==>
              && GroupsFit(grouper(a, b, 10), a, b) && (r.Ok? <==> Mergeable(grouper, a, b)) && (|a| + |b| <= MAX_ROWS ==> r.Ok?)
              && (r.Ok? && ReviewLines(current) == (if reverse then b else a) ==> r.value == ReviewMerge(Join(if reverse then a else b), 0, 0, []))
              && (r.Ok? && '\n' !in name ==> ReviewLines(r.value.content) == OutputOf(ReviewLines(current), states[|states| - 1]))
  {
    hide *;
    outcomes, states := [], [];
    UnmergeableSteps(file, quote, grouper);
    MergeableRendered(file, quote, grouper);
    if file.directory {
      return Err(DirectoryContents), outcomes, states;
    }
    if file.incomplete != "" {
      return Err(IncompleteHistory), outcomes, states;
    }
    if file.binary {
      return Err(BinaryContent), outcomes, states;
    }
    var wide := ParseReviewHunks(file, quote, false);
    if wide.Err? {
      return Err(Malformed(wide.error)), outcomes, states;
    }
    var hunks := Compact(file, wide.value, quote, grouper);
    if hunks.Err? {
      return Err(Malformed(hunks.error)), outcomes, states;
    }
    ReplayedIs(file, quote, grouper);
    var lines := ReviewLines(current);
    LinesJoin(current);
    var st, merged;
    st, merged, outcomes, states := Replay(hunks.value, reverse, lines, name, blocker);
    OutputIs(lines, st);
    r := Ok(ReviewMerge(Join(merged), st.conflicts, st.satisfied, st.rejected));
    TraceOutput(hunks.value, reverse, lines, name, blocker, outcomes, states);
    MergedWindows(WindowsOf(hunks.value, reverse, lines, name, blocker, outcomes, states, |hunks.value|), current, merged);
    forall a, b | Rendered(file, quote, grouper, a, b)
      ensures lines == (if reverse then b else a) ==> r.value == ReviewMerge(Join(if reverse then a else b), 0, 0, [])
      ensures '\n' !in name ==> ReviewLines(r.value.content) == OutputOf(lines, st)
    {
      RenderedMerge(file, quote, grouper, a, b, lines, reverse, name, blocker, outcomes, states);
    }
  }

  lemma UnmergeableSteps(file: ReviewFile, quote: Quote, grouper: Grouper)
    requires Groups(grouper)
    ensures var u, wide := Unmergeable(file, quote, grouper), ParseHunks(file, quote, false);
            && (file.directory ==> u == Some(DirectoryContents))
            && (!file.directory && file.incomplete != "" ==> u == Some(IncompleteHistory))
            && (!file.directory && file.incomplete == "" && file.binary ==> u == Some(BinaryContent))
            && (!file.directory && file.incomplete == "" && !file.binary ==>
                  && (wide.Err? ==> u == Some(Malformed(wide.error)))
                  && (wide.Ok? ==>
                        var hunks := CompactUpTo(file, wide.value, |wide.value|, quote, grouper);
                        u == if hunks.Err? then Some(Malformed(hunks.error)) else None))
  {
    hide ParseHunks, CompactUpTo, Groups;
  }

  lemma MergeableRendered(file: ReviewFile, quote: Quote, grouper: Grouper)
    requires Groups(grouper)
    ensures forall a, b :: Rendered(file, quote, grouper, a, b) ==>
              && GroupsFit(grouper(a, b, 10), a, b) && (Unmergeable(file, quote, grouper).None? <==> Mergeable(grouper, a, b))
              && (|a| + |b| <= MAX_ROWS ==> Mergeable(grouper, a, b))
  {
    forall a, b | Rendered(file, quote, grouper, a, b)
      ensures GroupsFit(grouper(a, b, 10), a, b) && (Unmergeable(file, quote, grouper).None? <==> Mergeable(grouper, a, b))
      ensures |a| + |b| <= MAX_ROWS ==> Mergeable(grouper, a, b)
    {
      RenderedMergeable(file, quote, grouper, a, b);
    }
  }

  lemma RenderedMergeable(file: ReviewFile, quote: Quote, grouper: Grouper, a: seq<Line>, b: seq<Line>)
    requires Groups(grouper) && Rendered(file, quote, grouper, a, b)
    ensures GroupsFit(grouper(a, b, 10), a, b) && (Unmergeable(file, quote, grouper).None? <==> Mergeable(grouper, a, b))
    ensures |a| + |b| <= MAX_ROWS ==> Mergeable(grouper, a, b)
  {
    hide *;
    var wide, hunks := RenderedPlan(file, quote, grouper, a, b);
    RenderedWhole(file, quote, grouper, a, b);
    UnmergeableSteps(file, quote, grouper);
    if |a| + |b| <= MAX_ROWS {
      SmallMergeable(grouper, a, b);
    }
  }

  lemma RenderedWhole(file: ReviewFile, quote: Quote, grouper: Grouper, a: seq<Line>, b: seq<Line>)
    requires Rendered(file, quote, grouper, a, b)
    ensures !file.directory && file.incomplete == "" && !file.binary
  {
    hide Groups, GroupsFit, Quotes, TextLines, RenderedDiff;
  }

  lemma ReplayedIs(file: ReviewFile, quote: Quote, grouper: Grouper)
    requires Groups(grouper)
    ensures var wide := ParseHunks(file, quote, false);
            wide.Ok? && CompactUpTo(file, wide.value, |wide.value|, quote, grouper).Ok? ==>
              ReplayedHunks(file, quote, grouper) == CompactUpTo(file, wide.value, |wide.value|, quote, grouper).value
  {
    hide ParseHunks, CompactUpTo, Groups;
  }

  /** A rendered capture, replayed where it was rendered from, or undone where it was rendered to,
      fits exactly; anywhere it keeps the lines of texts apart. */
  lemma RenderedMerge(file: ReviewFile, quote: Quote, grouper: Grouper, a: seq<Line>, b: seq<Line>, lines: seq<Line>, reverse: bool, name: string, blocker: Blocker,
                      outcomes: seq<Outcome>, states: seq<State>)
    requires Groups(grouper) && Blocks(blocker) && Rendered(file, quote, grouper, a, b) && TextLines(lines)
    requires Unmergeable(file, quote, grouper).None?
    requires var hunks := ReplayedHunks(file, quote, grouper);
             Traced(hunks, reverse, lines, name, blocker, outcomes, states) && |outcomes| == |hunks| && |states| == |hunks| + 1
    ensures var n := |ReplayedHunks(file, quote, grouper)|;
            && (lines == (if reverse then b else a) ==>
                  && OutputOf(lines, states[n]) == (if reverse then a else b)
                  && states[n].conflicts == states[n].satisfied == 0 && states[n].rejected == [])
            && ('\n' !in name ==> ReviewLines(Join(OutputOf(lines, states[n]))) == OutputOf(lines, states[n]))
  {
    hide *;
    var wide, hunks := RenderedPlan(file, quote, grouper, a, b);
    RenderedMergeable(file, quote, grouper, a, b);
    ReplayedIs(file, quote, grouper);
    var n := |hunks|;
    if '\n' !in name {
      PlannedText(hunks, a, b, lines, reverse, name);
      TraceOutput(hunks, reverse, lines, name, blocker, outcomes, states);
      JoinLines(OutputOf(lines, states[n]));
    }
    if lines == (if reverse then b else a) {
      var goal := if reverse then a else b;
      TraceExact(hunks, reverse, lines, name, blocker, goal, outcomes, states, n);
      PlanDone(hunks, reverse, lines, goal, states[n].output, states[n].cursor);
      OutputIs(lines, states[n]);
      StartIs();
    }
  }

  lemma StartIs()
    ensures START.conflicts == START.satisfied == 0 && START.rejected == []
  {
  }

  lemma MergedWindows(rs: seq<Region>, current: string, output: seq<Line>)
    requires Carries(rs, ReviewLines(current), output)
    ensures rs == [] ==> Join(output) == current
  {
    LinesJoin(current);
    var lines := ReviewLines(current);
    if rs == [] {
      assert lines[0..|lines|] == lines && output[0..|output|] == output;
    }
  }

  // The sides of a plan between two texts are texts.
  lemma PlannedText(hunks: seq<Hunk>, a: seq<Line>, b: seq<Line>, lines: seq<Line>, reverse: bool, name: string)
    requires TextLines(lines) && Planned(hunks, false, a, b) && Planned(hunks, true, b, a) && (|hunks| <= 1 || (a != [] && b != [])) && '\n' !in name
    ensures TextHunks(hunks, reverse, lines, name)
  {
    var rs := Plans(hunks, false);
    RunBounds(rs, a, b, 0, 0, |a|, |b|);
    hide Run, TextLines, OldSide, NewSide, ReviewLines;
    forall k | 0 <= k < |hunks| ensures TextHunk(hunks[k], reverse) && (From(hunks[k], reverse) == [] ==> |hunks| == 1) {
      TextPart(a, rs[k].beforeStart, rs[k].BeforeEnd());
      TextPart(b, rs[k].afterStart, rs[k].AfterEnd());
      assert SidesKept(hunks[k], false, a, b) && SidesKept(hunks[k], true, b, a);
    }
  }
}
