/** What replaying a review on current content has to do: hunk by hunk, which of its outcomes is
    the right one, and what it does to the text. */
module MergeSteps {
  import opened Text
  import opened Regions
  import opened Review
  import opened ReviewText
  import opened Diff3
  import opened Anchors
  import opened MergeFacts

  // What the replay carries from hunk to hunk.
  datatype State = State(output: seq<Line>, cursor: int, offset: int, conflicts: nat, satisfied: nat, rejected: seq<string>)

  const START := State([], 0, 0, 0, 0, [])

  // Where a hunk goes: in place of an exact occurrence, into a region its context anchors,
  // nowhere because its result is there already, or nowhere at all.
  datatype Outcome = Replaced(at: int) | MergedAt(best: Best) | Present(at: int) | Rejected

  // A hunk in review format.
  function HunkText(h: Hunk): string { Join([HunkLine(h)] + PrintRows(h.rows)) }

  // ----- Where a hunk belongs

  // Where the hunk is looked for: where it was recorded, as far as the last one had moved, and
  // never behind what is done.
  function Expected(h: Hunk, reverse: bool, was: State): int
  {
    var start := Start(h, reverse) + was.offset;
    if was.cursor > start then was.cursor else start
  }

  /** The hunk's old side stands here; none is nearer.  A new side that ends the file may only
      replace the end of the file. */
  ghost predicate ExactAt(h: Hunk, reverse: bool, lines: seq<Line>, was: State, at: int)
  {
    && Nearest(lines, From(h, reverse), was.cursor, Expected(h, reverse, was), Some(at))
    && (OpenEnded(To(h, reverse)) ==> at + |From(h, reverse)| == |lines|)
  }

  /** The hunk's new side stands here, within its own length of where it is expected. */
  ghost predicate PresentAt(h: Hunk, reverse: bool, lines: seq<Line>, was: State, at: int)
  {
    && Nearest(lines, To(h, reverse), was.cursor, Expected(h, reverse, was), Some(at))
    && To(h, reverse) != [] && Distance(at, Expected(h, reverse, was)) <= |To(h, reverse)|
  }

  // What the hunk's context asks of the text.
  function ContextSearch(h: Hunk, reverse: bool, lines: seq<Line>, was: State): Search
  {
    var lead := LeadOf(h.rows);
    Search(lines, From(h, reverse), lead, TrailOf(h.rows[lead..]), if was.cursor >= 0 then was.cursor else 0, Expected(h, reverse, was) + lead)
  }

  /** Which outcome a hunk has: each only if none before it is possible. */
  ghost predicate Decided(h: Hunk, reverse: bool, lines: seq<Line>, was: State, outcome: Outcome)
  {
    var s := ContextSearch(h, reverse, lines, was);
    if outcome.Replaced? then ExactAt(h, reverse, lines, was, outcome.at)
    else
      && (forall at :: !ExactAt(h, reverse, lines, was, at))
      && if outcome.MergedAt? then Chosen(s, Some(outcome.best))
         else
           && Chosen(s, None)
           && if outcome.Present? then PresentAt(h, reverse, lines, was, outcome.at)
              else forall at :: !PresentAt(h, reverse, lines, was, at)
  }

  /** The text decides the outcome. */
  lemma DecidedOnce(h: Hunk, reverse: bool, lines: seq<Line>, was: State, a: Outcome, b: Outcome)
    requires Decided(h, reverse, lines, was, a) && Decided(h, reverse, lines, was, b)
    ensures a == b
  {
    var s, expected := ContextSearch(h, reverse, lines, was), Expected(h, reverse, was);
    hide Nearest, Chosen, From, To, OpenEnded, ContextSearch, Expected, Distance;
    if a.Replaced? && b.Replaced? {
      NearestOnce(lines, From(h, reverse), was.cursor, expected, Some(a.at), Some(b.at));
    } else if !a.Replaced? && !b.Replaced? {
      ChosenOnce(s, if a.MergedAt? then Some(a.best) else None, if b.MergedAt? then Some(b.best) else None);
      if a.Present? && b.Present? {
        NearestOnce(lines, To(h, reverse), was.cursor, expected, Some(a.at), Some(b.at));
      }
    }
  }

  // ----- What the outcome does

  // The region's lines as the hunk recorded them, as they are, and as the hunk wants them.
  function BaseText(h: Hunk, reverse: bool, b: Best): seq<Line> { Slice(From(h, reverse), b.l.1, b.t.0) }

  function OursText(lines: seq<Line>, b: Best): seq<Line> { Slice(lines, b.first, b.last) }

  function TheirsText(h: Hunk, reverse: bool, b: Best): seq<Line>
  {
    Slice(To(h, reverse), b.l.1, |To(h, reverse)| - (|From(h, reverse)| - b.t.0))
  }

  function RegionMerge(h: Hunk, reverse: bool, lines: seq<Line>, name: string, blocker: Blocker, b: Best): (seq<Line>, nat)
    requires Blocks(blocker)
  {
    MergeOf(blocker, BaseText(h, reverse, b), OursText(lines, b), TheirsText(h, reverse, b), name)
  }

  // Copies the text up to `at`, puts `mid` there, and goes on at `end`.
  function Advanced(lines: seq<Line>, was: State, at: int, mid: seq<Line>, end: int, offset: int): State
  {
    was.(output := was.output + Slice(lines, was.cursor, at) + mid, cursor := end, offset := offset)
  }

  function After(h: Hunk, reverse: bool, lines: seq<Line>, name: string, blocker: Blocker, was: State, outcome: Outcome): State
    requires Blocks(blocker)
  {
    var from, to, start := From(h, reverse), To(h, reverse), Start(h, reverse);
    match outcome
    case Replaced(at) => Advanced(lines, was, at, to, at + |from|, at - start)
    case MergedAt(b) =>
      var (merged, conflicts) := RegionMerge(h, reverse, lines, name, blocker, b);
      Advanced(lines, was, b.first, merged, b.last, b.first - b.l.1 - start)
        .(conflicts := was.conflicts + conflicts,
          satisfied := was.satisfied + if OursText(lines, b) == TheirsText(h, reverse, b) then 1 else 0)
    case Present(at) => Advanced(lines, was, at + |to|, [], at + |to|, at - start).(satisfied := was.satisfied + 1)
    case Rejected => was.(rejected := was.rejected + [HunkText(h)])
  }

  ghost predicate Step(h: Hunk, reverse: bool, lines: seq<Line>, name: string, blocker: Blocker, was: State, outcome: Outcome, now: State)
    requires Blocks(blocker)
  {
    Decided(h, reverse, lines, was, outcome) && now == After(h, reverse, lines, name, blocker, was, outcome)
  }

  // The window of the text the outcome rewrites, if any.
  function WindowAt(h: Hunk, reverse: bool, lines: seq<Line>, name: string, blocker: Blocker, was: State, outcome: Outcome): seq<Region>
    requires Blocks(blocker)
  {
    match outcome
    case Replaced(at) => [Region(at, |was.output| + at - was.cursor, From(h, reverse), To(h, reverse), false, false)]
    case MergedAt(b) =>
      [Region(b.first, |was.output| + b.first - was.cursor, OursText(lines, b), RegionMerge(h, reverse, lines, name, blocker, b).0, false, false)]
    case _ => []
  }

  // ----- What a step keeps

  lemma SearchFits(h: Hunk, reverse: bool, lines: seq<Line>, was: State)
    requires 0 <= was.cursor <= |lines|
    ensures ContextSearch(h, reverse, lines, was).Valid()
    ensures var s := ContextSearch(h, reverse, lines, was);
            s.lead + s.trail <= |To(h, reverse)| && s.from[..s.lead] == To(h, reverse)[..s.lead]
    ensures var s := ContextSearch(h, reverse, lines, was); s.lines == lines && s.from == From(h, reverse) && s.cursor == was.cursor
  {
    ContextShared(h.rows, LeadOf(h.rows), TrailOf(h.rows[LeadOf(h.rows)..]));
    hide LeadOf, TrailOf, OldSide, NewSide;
  }

  lemma SearchIs(h: Hunk, reverse: bool, lines: seq<Line>, was: State, lead: nat, trail: nat)
    requires ContextOf(h.rows, lead, trail) && 0 <= was.cursor
    ensures ContextSearch(h, reverse, lines, was) == Search(lines, From(h, reverse), lead, trail, was.cursor, Expected(h, reverse, was) + lead)
  {
    hide LeadOf, TrailOf;
  }

  lemma ExactReads(h: Hunk, reverse: bool, lines: seq<Line>, was: State, at: int)
    requires 0 <= was.cursor <= |lines| && ExactAt(h, reverse, lines, was, at)
    ensures was.cursor <= at <= at + |From(h, reverse)| <= |lines| && Reads(lines, at, From(h, reverse)) && lines[at..at + |From(h, reverse)|] == From(h, reverse)
    ensures OpenEnded(To(h, reverse)) ==> at + |From(h, reverse)| == |lines|
    ensures From(h, reverse) == [] ==> at == was.cursor
  {
    hide From, To, OpenEnded, Expected;
    NearestReads(lines, From(h, reverse), was.cursor, Expected(h, reverse, was), Some(at));
  }

  lemma PresentReads(h: Hunk, reverse: bool, lines: seq<Line>, was: State, at: int)
    requires 0 <= was.cursor <= |lines| && PresentAt(h, reverse, lines, was, at)
    ensures was.cursor <= at <= at + |To(h, reverse)| <= |lines| && Reads(lines, at, To(h, reverse))
  {
    hide From, To, Expected, Distance;
    NearestReads(lines, To(h, reverse), was.cursor, Expected(h, reverse, was), Some(at));
  }

  lemma RegionReads(h: Hunk, reverse: bool, lines: seq<Line>, was: State, b: Best)
    requires 0 <= was.cursor <= |lines| && Chosen(ContextSearch(h, reverse, lines, was), Some(b))
    ensures was.cursor <= b.first <= b.last <= |lines| && OursText(lines, b) == lines[b.first..b.last]
    ensures ContextSearch(h, reverse, lines, was).Valid() && Found(ContextSearch(h, reverse, lines, was), Some(b))
    ensures Region3(ContextSearch(h, reverse, lines, was), b, To(h, reverse), BaseText(h, reverse, b), OursText(lines, b), TheirsText(h, reverse, b))
  {
    hide *;
    var s := ContextSearch(h, reverse, lines, was);
    SearchFits(h, reverse, lines, was);
    IsChosen(s, Some(b));
    ChosenValid(s, Some(b));
    RegionFound(s, Some(b));
    RegionTexts(s, h, reverse, lines, b);
  }

  lemma ChosenValid(s: Search, best: Option<Best>)
    requires Chosen(s, best)
    ensures s.Valid() && Found(s, best) && s.lead + s.trail <= |s.from|
  {
    hide Found, BeatsLevels;
  }

  lemma RegionTexts(s: Search, h: Hunk, reverse: bool, lines: seq<Line>, b: Best)
    requires s.from == From(h, reverse) && s.lines == lines && s.lead + s.trail <= |s.from| && s.lead + s.trail <= |To(h, reverse)|
    requires 0 <= b.l.1 <= s.lead && |s.from| - s.trail <= b.t.0 <= |s.from| && 0 <= b.first <= b.last <= |lines|
    ensures OursText(lines, b) == lines[b.first..b.last]
    ensures Region3(s, b, To(h, reverse), BaseText(h, reverse, b), OursText(lines, b), TheirsText(h, reverse, b))
  {
    hide From, To;
  }

  lemma DecidedFacts(h: Hunk, reverse: bool, lines: seq<Line>, was: State, outcome: Outcome)
    requires Decided(h, reverse, lines, was, outcome)
    ensures outcome.Replaced? ==> ExactAt(h, reverse, lines, was, outcome.at)
    ensures outcome.MergedAt? ==> Chosen(ContextSearch(h, reverse, lines, was), Some(outcome.best))
    ensures outcome.Present? ==> PresentAt(h, reverse, lines, was, outcome.at)
  {
    hide ExactAt, Chosen, PresentAt, ContextSearch;
  }

  lemma StepParts(h: Hunk, reverse: bool, lines: seq<Line>, name: string, blocker: Blocker, was: State, outcome: Outcome, now: State)
    requires Blocks(blocker)
    ensures Step(h, reverse, lines, name, blocker, was, outcome, now) <==>
              Decided(h, reverse, lines, was, outcome) && now == After(h, reverse, lines, name, blocker, was, outcome)
  {
    hide Decided, After;
  }

  // Copying, then rewriting what stands between at and end, is one more window.
  lemma WindowsAdvance(rs: seq<Region>, lines: seq<Line>, was: State, at: int, mid: seq<Line>, end: int, offset: int)
    requires Windows(rs, lines, was.output, was.cursor) && was.cursor <= at <= end <= |lines|
    ensures var now := Advanced(lines, was, at, mid, end, offset);
            Windows(rs + [Region(at, |was.output| + at - was.cursor, lines[at..end], mid, false, false)], lines, now.output, now.cursor)
  {
    hide *;
    WindowsBounds(rs, lines, was.output, was.cursor);
    AdvancedIs(lines, was, at, mid, end, offset);
    WindowsCopy(rs, lines, was.output, was.cursor, at);
    var next := WindowsRewrite(rs, lines, was.output + lines[was.cursor..at], at, end, mid);
  }

  lemma AdvancedIs(lines: seq<Line>, was: State, at: int, mid: seq<Line>, end: int, offset: int)
    requires 0 <= was.cursor <= at <= |lines|
    ensures var now := Advanced(lines, was, at, mid, end, offset); now.output == was.output + lines[was.cursor..at] + mid && now.cursor == end
  {
  }

  lemma WindowsPresent(rs: seq<Region>, lines: seq<Line>, was: State, end: int, offset: int)
    requires Windows(rs, lines, was.output, was.cursor) && was.cursor <= end <= |lines|
    ensures var now := Advanced(lines, was, end, [], end, offset); Windows(rs, lines, now.output, now.cursor)
  {
    hide *;
    WindowsBounds(rs, lines, was.output, was.cursor);
    AdvancedIs(lines, was, end, [], end, offset);
    WindowsCopy(rs, lines, was.output, was.cursor, end);
    assert was.output + lines[was.cursor..end] + [] == was.output + lines[was.cursor..end];
  }

  lemma WindowReplaced(h: Hunk, reverse: bool, lines: seq<Line>, name: string, blocker: Blocker, was: State, at: int, rs: seq<Region>)
    requires Blocks(blocker) && Windows(rs, lines, was.output, was.cursor) && ExactAt(h, reverse, lines, was, at)
    ensures var now := After(h, reverse, lines, name, blocker, was, Replaced(at));
            Windows(rs + WindowAt(h, reverse, lines, name, blocker, was, Replaced(at)), lines, now.output, now.cursor)
  {
    hide Windows, ExactAt, From, To, Start, Advanced;
    WindowsBounds(rs, lines, was.output, was.cursor);
    ExactReads(h, reverse, lines, was, at);
    WindowsAdvance(rs, lines, was, at, To(h, reverse), at + |From(h, reverse)|, at - Start(h, reverse));
  }

  lemma WindowMerged(h: Hunk, reverse: bool, lines: seq<Line>, name: string, blocker: Blocker, was: State, b: Best, rs: seq<Region>)
    requires Blocks(blocker) && Windows(rs, lines, was.output, was.cursor) && Chosen(ContextSearch(h, reverse, lines, was), Some(b))
    ensures var now := After(h, reverse, lines, name, blocker, was, MergedAt(b));
            Windows(rs + WindowAt(h, reverse, lines, name, blocker, was, MergedAt(b)), lines, now.output, now.cursor)
  {
    hide Windows, Chosen, ContextSearch, From, To, Start, Advanced, RegionMerge, OursText, TheirsText, Blocks;
    WindowsBounds(rs, lines, was.output, was.cursor);
    RegionReads(h, reverse, lines, was, b);
    WindowsAdvance(rs, lines, was, b.first, RegionMerge(h, reverse, lines, name, blocker, b).0, b.last, b.first - b.l.1 - Start(h, reverse));
  }

  lemma WindowPresent(h: Hunk, reverse: bool, lines: seq<Line>, name: string, blocker: Blocker, was: State, at: int, rs: seq<Region>)
    requires Blocks(blocker) && Windows(rs, lines, was.output, was.cursor) && PresentAt(h, reverse, lines, was, at)
    ensures var now := After(h, reverse, lines, name, blocker, was, Present(at));
            Windows(rs + WindowAt(h, reverse, lines, name, blocker, was, Present(at)), lines, now.output, now.cursor)
  {
    hide Windows, PresentAt, From, To, Start, Advanced;
    WindowsBounds(rs, lines, was.output, was.cursor);
    PresentReads(h, reverse, lines, was, at);
    WindowsPresent(rs, lines, was, at + |To(h, reverse)|, at - Start(h, reverse));
    assert rs + [] == rs;
  }

  lemma WindowRejected(h: Hunk, reverse: bool, lines: seq<Line>, name: string, blocker: Blocker, was: State, rs: seq<Region>)
    requires Blocks(blocker) && Windows(rs, lines, was.output, was.cursor)
    ensures var now := After(h, reverse, lines, name, blocker, was, Rejected);
            Windows(rs + WindowAt(h, reverse, lines, name, blocker, was, Rejected), lines, now.output, now.cursor)
  {
    hide Windows, From, To, Start, HunkText;
    assert rs + [] == rs;
  }

  /** A step rewrites its window, and copies the text in front of it. */
  lemma StepWindows(h: Hunk, reverse: bool, lines: seq<Line>, name: string, blocker: Blocker, was: State, outcome: Outcome, now: State, rs: seq<Region>)
    requires Blocks(blocker) && Windows(rs, lines, was.output, was.cursor) && Step(h, reverse, lines, name, blocker, was, outcome, now)
    ensures Windows(rs + WindowAt(h, reverse, lines, name, blocker, was, outcome), lines, now.output, now.cursor)
  {
    hide *;
    StepParts(h, reverse, lines, name, blocker, was, outcome, now);
    DecidedFacts(h, reverse, lines, was, outcome);
    match outcome
    case Replaced(at) => WindowReplaced(h, reverse, lines, name, blocker, was, at, rs);
    case MergedAt(b) => WindowMerged(h, reverse, lines, name, blocker, was, b, rs);
    case Present(at) => WindowPresent(h, reverse, lines, name, blocker, was, at, rs);
    case Rejected => WindowRejected(h, reverse, lines, name, blocker, was, rs);
  }

  // ----- Newlines

  // The output is a text, and full where more may follow.
  ghost predicate Terminal(lines: seq<Line>, st: State)
  {
    Settled(lines, st.output, st.cursor) && (lines == [] ==> FullLines(st.output))
  }

  ghost predicate TextHunk(h: Hunk, reverse: bool)
  {
    TextLines(From(h, reverse)) && TextLines(To(h, reverse))
  }

  // What a step keeps of the newlines.
  ghost predicate KeepsText(h: Hunk, reverse: bool, lines: seq<Line>, now: State)
  {
    Settled(lines, now.output, now.cursor) && (From(h, reverse) != [] ==> Terminal(lines, now))
  }

  // In an empty text nothing is found in place of lines.
  lemma SettledSomewhere(h: Hunk, reverse: bool, lines: seq<Line>, now: State, at: int)
    requires Settled(lines, now.output, now.cursor)
    requires 0 <= at && at + |From(h, reverse)| <= |lines|
    ensures KeepsText(h, reverse, lines, now)
  {
    hide Settled;
  }

  lemma ReplacedText(h: Hunk, reverse: bool, lines: seq<Line>, was: State, at: int)
    requires TextLines(lines) && TextHunk(h, reverse) && Terminal(lines, was) && (From(h, reverse) == [] ==> was.output == [])
    requires 0 <= was.cursor <= |lines| && ExactAt(h, reverse, lines, was, at)
    ensures KeepsText(h, reverse, lines, Advanced(lines, was, at, To(h, reverse), at + |From(h, reverse)|, at - Start(h, reverse)))
  {
    ExactReads(h, reverse, lines, was, at);
    hide Settled, TextLines, From, To, ExactAt, Reads, FullLines, OpenEnded, Start;
    SettledExact(lines, was.output, was.cursor, at, From(h, reverse), To(h, reverse));
    var now := Advanced(lines, was, at, To(h, reverse), at + |From(h, reverse)|, at - Start(h, reverse));
    AdvancedIs(lines, was, at, To(h, reverse), at + |From(h, reverse)|, at - Start(h, reverse));
    SettledSomewhere(h, reverse, lines, now, at);
  }

  lemma PresentText(h: Hunk, reverse: bool, lines: seq<Line>, was: State, at: int, offset: int)
    requires TextLines(lines) && TextHunk(h, reverse) && Terminal(lines, was)
    requires 0 <= was.cursor <= |lines| && PresentAt(h, reverse, lines, was, at)
    ensures KeepsText(h, reverse, lines, Advanced(lines, was, at + |To(h, reverse)|, [], at + |To(h, reverse)|, offset))
  {
    PresentReads(h, reverse, lines, was, at);
    assert To(h, reverse) != [];
    hide Settled, TextLines, From, To, PresentAt, Reads, FullLines;
    var end := at + |To(h, reverse)|;
    SettledPresent(lines, was.output, was.cursor, at, To(h, reverse));
    AdvancedIs(lines, was, end, [], end, offset);
    assert was.output + lines[was.cursor..end] + [] == was.output + lines[was.cursor..end];
  }

  lemma MergedAtText(h: Hunk, reverse: bool, lines: seq<Line>, name: string, blocker: Blocker, was: State, b: Best, offset: int)
    requires Blocks(blocker) && TextLines(lines) && '\n' !in name && TextHunk(h, reverse) && Terminal(lines, was)
    requires 0 <= was.cursor <= |lines| && Chosen(ContextSearch(h, reverse, lines, was), Some(b))
    ensures KeepsText(h, reverse, lines, Advanced(lines, was, b.first, RegionMerge(h, reverse, lines, name, blocker, b).0, b.last, offset))
  {
    var s := ContextSearch(h, reverse, lines, was);
    SearchFits(h, reverse, lines, was);
    RegionReads(h, reverse, lines, was, b);
    var base, ours, theirs := BaseText(h, reverse, b), OursText(lines, b), TheirsText(h, reverse, b);
    var (merged, conflicts) := MergeOf(blocker, base, ours, theirs, name);
    MergedIs(blocker, base, ours, theirs, merged, conflicts, name);
    hide Settled, TextLines, From, To, FullLines, Chosen, Found, Region3, Search.Valid, ContextSearch, BaseText, OursText, TheirsText, MergeOf, MatchesOf, Merged, Blocks;
    SettledMerge(s, b, To(h, reverse), was.output, base, ours, theirs, merged, conflicts, MatchesOf(blocker, base, ours), MatchesOf(blocker, base, theirs), name);
    AdvancedIs(lines, was, b.first, merged, b.last, offset);
  }

  /** A step keeps texts: no line but the last lacks its newline. */
  lemma StepText(h: Hunk, reverse: bool, lines: seq<Line>, name: string, blocker: Blocker, was: State, outcome: Outcome, now: State)
    requires Blocks(blocker) && 0 <= was.cursor <= |lines| && Step(h, reverse, lines, name, blocker, was, outcome, now)
    requires TextLines(lines) && '\n' !in name && TextHunk(h, reverse) && Terminal(lines, was) && (From(h, reverse) == [] ==> was.output == [])
    ensures KeepsText(h, reverse, lines, now)
  {
    StepParts(h, reverse, lines, name, blocker, was, outcome, now);
    DecidedFacts(h, reverse, lines, was, outcome);
    hide Step, Decided, ExactAt, PresentAt, Chosen, From, To, Start, RegionMerge, BaseText, OursText, TheirsText, HunkText, Advanced, ContextSearch, Blocks, Settled, TextLines, FullLines, TextHunk;
    match outcome
    case Replaced(at) => ReplacedText(h, reverse, lines, was, at);
    case MergedAt(b) => MergedAtText(h, reverse, lines, name, blocker, was, b, b.first - b.l.1 - Start(h, reverse)); SameText(h, reverse, lines, Advanced(lines, was, b.first, RegionMerge(h, reverse, lines, name, blocker, b).0, b.last, b.first - b.l.1 - Start(h, reverse)), now);
    case Present(at) => PresentText(h, reverse, lines, was, at, at - Start(h, reverse)); SameText(h, reverse, lines, Advanced(lines, was, at + |To(h, reverse)|, [], at + |To(h, reverse)|, at - Start(h, reverse)), now);
    case Rejected => SameText(h, reverse, lines, was, now);
  }

  lemma SameText(h: Hunk, reverse: bool, lines: seq<Line>, a: State, b: State)
    requires a.output == b.output && a.cursor == b.cursor && (KeepsText(h, reverse, lines, a) || Terminal(lines, a))
    ensures KeepsText(h, reverse, lines, b)
  {
    hide Settled, FullLines;
  }

  // ----- A hunk that fits where it was recorded

  lemma StepExact(h: Hunk, reverse: bool, lines: seq<Line>, name: string, blocker: Blocker, was: State, outcome: Outcome, now: State)
    requires Blocks(blocker) && 0 <= was.cursor <= |lines| && Step(h, reverse, lines, name, blocker, was, outcome, now)
    requires Exact(h, reverse, lines, was.cursor) && was.offset == 0
    ensures var at := Start(h, reverse);
            was.cursor <= at <= |lines| && now == was.(output := was.output + lines[was.cursor..at] + To(h, reverse), cursor := at + |From(h, reverse)|)
  {
    var at, from := Start(h, reverse), From(h, reverse);
    assert Expected(h, reverse, was) == at;
    NearestThere(lines, from, was.cursor, at);
    hide Nearest, From, To, OpenEnded, Chosen, PresentAt, ContextSearch, RegionMerge, HunkText, OursText, TheirsText;
    assert ExactAt(h, reverse, lines, was, at);
    if outcome.Replaced? {
      NearestOnce(lines, from, was.cursor, at, Some(at), Some(outcome.at));
    }
  }

  lemma NearestThere(lines: seq<Line>, run: seq<Line>, cursor: int, at: int)
    requires 0 <= cursor <= at && Reads(lines, at, run) && (run == [] ==> cursor == |lines|)
    ensures Nearest(lines, run, cursor, at, Some(at))
  {
  }

  // ----- All hunks

  /** The outcomes of the hunks, and the states between them, from an empty output on. */
  ghost predicate Traced(hunks: seq<Hunk>, reverse: bool, lines: seq<Line>, name: string, blocker: Blocker, outcomes: seq<Outcome>, states: seq<State>)
    requires Blocks(blocker)
  {
    && |outcomes| <= |hunks| && |states| == |outcomes| + 1 && states[0] == START
    && forall k :: 0 <= k < |outcomes| ==> StepAt(hunks, reverse, lines, name, blocker, outcomes, states, k)
  }

  ghost predicate StepAt(hunks: seq<Hunk>, reverse: bool, lines: seq<Line>, name: string, blocker: Blocker, outcomes: seq<Outcome>, states: seq<State>, k: nat)
    requires Blocks(blocker) && k < |hunks| && k < |outcomes| && k + 1 < |states|
  {
    Step(hunks[k], reverse, lines, name, blocker, states[k], outcomes[k], states[k + 1])
  }

  // The windows the first n steps rewrite.
  function WindowsOf(hunks: seq<Hunk>, reverse: bool, lines: seq<Line>, name: string, blocker: Blocker, outcomes: seq<Outcome>, states: seq<State>, n: nat): seq<Region>
    requires Blocks(blocker) && n <= |outcomes| <= |hunks| && |outcomes| < |states|
  {
    if n == 0 then [] else
      WindowsOf(hunks, reverse, lines, name, blocker, outcomes, states, n - 1)
        + WindowAt(hunks[n - 1], reverse, lines, name, blocker, states[n - 1], outcomes[n - 1])
  }

  /** The text decides the whole trace, step by step. */
  lemma {:induction false} TracedOnce(hunks: seq<Hunk>, reverse: bool, lines: seq<Line>, name: string, blocker: Blocker,
                                      outcomes: seq<Outcome>, states: seq<State>, outcomes': seq<Outcome>, states': seq<State>, n: nat)
    requires Blocks(blocker) && Traced(hunks, reverse, lines, name, blocker, outcomes, states) && Traced(hunks, reverse, lines, name, blocker, outcomes', states')
    requires n <= |outcomes| && n <= |outcomes'|
    ensures |states| == |outcomes| + 1 && |states'| == |outcomes'| + 1
    ensures states[n] == states'[n] && (n > 0 ==> outcomes[n - 1] == outcomes'[n - 1])
  {
    hide *;
    TraceStart(hunks, reverse, lines, name, blocker, outcomes, states);
    TraceStart(hunks, reverse, lines, name, blocker, outcomes', states');
    if n > 0 {
      var k := n - 1;
      TracedOnce(hunks, reverse, lines, name, blocker, outcomes, states, outcomes', states', k);
      TraceStep(hunks, reverse, lines, name, blocker, outcomes, states, k);
      TraceStep(hunks, reverse, lines, name, blocker, outcomes', states', k);
      StepParts(hunks[k], reverse, lines, name, blocker, states[k], outcomes[k], states[n]);
      StepParts(hunks[k], reverse, lines, name, blocker, states[k], outcomes'[k], states'[n]);
      DecidedOnce(hunks[k], reverse, lines, states[k], outcomes[k], outcomes'[k]);
    }
  }

  /** Every step so far rewrote its window, and nothing else. */
  lemma {:induction false} TraceWindows(hunks: seq<Hunk>, reverse: bool, lines: seq<Line>, name: string, blocker: Blocker, outcomes: seq<Outcome>, states: seq<State>, n: nat)
    requires Blocks(blocker) && Traced(hunks, reverse, lines, name, blocker, outcomes, states) && n <= |outcomes|
    ensures Windows(WindowsOf(hunks, reverse, lines, name, blocker, outcomes, states, n), lines, states[n].output, states[n].cursor)
    ensures 0 <= states[n].cursor <= |lines|
    ensures |WindowsOf(hunks, reverse, lines, name, blocker, outcomes, states, n)| + |states[n].rejected| <= n
  {
    hide *;
    TraceStart(hunks, reverse, lines, name, blocker, outcomes, states);
    if n == 0 {
      WindowsStart(lines);
    } else {
      TraceWindows(hunks, reverse, lines, name, blocker, outcomes, states, n - 1);
      var rs := WindowsOf(hunks, reverse, lines, name, blocker, outcomes, states, n - 1);
      TraceStep(hunks, reverse, lines, name, blocker, outcomes, states, n - 1);
      StepWindows(hunks[n - 1], reverse, lines, name, blocker, states[n - 1], outcomes[n - 1], states[n], rs);
      OneOutcome(hunks[n - 1], reverse, lines, name, blocker, states[n - 1], outcomes[n - 1], states[n]);
      WindowsBounds(WindowsOf(hunks, reverse, lines, name, blocker, outcomes, states, n), lines, states[n].output, states[n].cursor);
    }
  }

  lemma TraceStart(hunks: seq<Hunk>, reverse: bool, lines: seq<Line>, name: string, blocker: Blocker, outcomes: seq<Outcome>, states: seq<State>)
    requires Blocks(blocker) && Traced(hunks, reverse, lines, name, blocker, outcomes, states)
    ensures |outcomes| <= |hunks| && |states| == |outcomes| + 1
    ensures states[0] == START && START.output == [] && START.rejected == [] && START.cursor == START.offset == START.conflicts == START.satisfied == 0
    ensures WindowsOf(hunks, reverse, lines, name, blocker, outcomes, states, 0) == []
  {
    hide StepAt;
  }

  lemma TraceStep(hunks: seq<Hunk>, reverse: bool, lines: seq<Line>, name: string, blocker: Blocker, outcomes: seq<Outcome>, states: seq<State>, k: nat)
    requires Blocks(blocker) && Traced(hunks, reverse, lines, name, blocker, outcomes, states) && k < |outcomes|
    ensures |outcomes| <= |hunks| && |states| == |outcomes| + 1
    ensures Step(hunks[k], reverse, lines, name, blocker, states[k], outcomes[k], states[k + 1])
    ensures WindowsOf(hunks, reverse, lines, name, blocker, outcomes, states, k + 1) ==
              WindowsOf(hunks, reverse, lines, name, blocker, outcomes, states, k) + WindowAt(hunks[k], reverse, lines, name, blocker, states[k], outcomes[k])
  {
    hide Step, WindowAt;
    assert StepAt(hunks, reverse, lines, name, blocker, outcomes, states, k);
  }

  // A hunk is rejected or rewrites one window, or neither.
  lemma OneOutcome(h: Hunk, reverse: bool, lines: seq<Line>, name: string, blocker: Blocker, was: State, outcome: Outcome, now: State)
    requires Blocks(blocker) && Step(h, reverse, lines, name, blocker, was, outcome, now)
    ensures |WindowAt(h, reverse, lines, name, blocker, was, outcome)| + |now.rejected| - |was.rejected| <= 1
    ensures 0 <= |now.rejected| - |was.rejected|
  {
    hide Decided, From, To, Start, RegionMerge, OursText, TheirsText, HunkText, Slice;
  }

  // The texts are texts, and only a lone hunk may have nothing to find.
  ghost predicate TextHunks(hunks: seq<Hunk>, reverse: bool, lines: seq<Line>, name: string)
  {
    && TextLines(lines) && '\n' !in name
    && (forall k :: 0 <= k < |hunks| ==> TextHunk(hunks[k], reverse) && (From(hunks[k], reverse) == [] ==> |hunks| == 1))
  }

  lemma {:induction false} TraceText(hunks: seq<Hunk>, reverse: bool, lines: seq<Line>, name: string, blocker: Blocker, outcomes: seq<Outcome>, states: seq<State>, n: nat)
    requires Blocks(blocker) && Traced(hunks, reverse, lines, name, blocker, outcomes, states) && n <= |outcomes|
    requires TextHunks(hunks, reverse, lines, name)
    ensures Settled(lines, states[n].output, states[n].cursor) && (n < |hunks| ==> Terminal(lines, states[n]))
  {
    hide *;
    TraceStart(hunks, reverse, lines, name, blocker, outcomes, states);
    if n == 0 {
      NothingSettled(lines, states[0]);
    } else {
      TraceText(hunks, reverse, lines, name, blocker, outcomes, states, n - 1);
      TraceStep(hunks, reverse, lines, name, blocker, outcomes, states, n - 1);
      TraceWindows(hunks, reverse, lines, name, blocker, outcomes, states, n - 1);
      TextHunkAt(hunks, reverse, lines, name, n - 1);
      StepText(hunks[n - 1], reverse, lines, name, blocker, states[n - 1], outcomes[n - 1], states[n]);
      KeptText(hunks[n - 1], reverse, lines, states[n]);
    }
  }

  lemma NothingSettled(lines: seq<Line>, st: State)
    requires st.output == [] && st.cursor == 0
    ensures Terminal(lines, st) && Settled(lines, st.output, st.cursor)
  {
  }

  lemma KeptText(h: Hunk, reverse: bool, lines: seq<Line>, now: State)
    requires KeepsText(h, reverse, lines, now)
    ensures Settled(lines, now.output, now.cursor) && (From(h, reverse) != [] ==> Terminal(lines, now))
  {
    hide Settled, Terminal;
  }

  lemma TextHunkAt(hunks: seq<Hunk>, reverse: bool, lines: seq<Line>, name: string, k: nat)
    requires TextHunks(hunks, reverse, lines, name) && k < |hunks|
    ensures TextLines(lines) && '\n' !in name && TextHunk(hunks[k], reverse) && (From(hunks[k], reverse) == [] ==> |hunks| == 1)
  {
    hide TextLines, TextHunk, From;
  }

  /** Hunks that say exactly how the text becomes the goal do make it the goal. */
  lemma {:induction false} TraceExact(hunks: seq<Hunk>, reverse: bool, lines: seq<Line>, name: string, blocker: Blocker, goal: seq<Line>,
                                      outcomes: seq<Outcome>, states: seq<State>, n: nat)
    requires Blocks(blocker) && Traced(hunks, reverse, lines, name, blocker, outcomes, states) && n <= |outcomes|
    requires Planned(hunks, reverse, lines, goal)
    ensures AtPlan(hunks, reverse, n, lines, goal, states[n].output, states[n].cursor)
    ensures states[n] == START.(output := states[n].output, cursor := states[n].cursor)
  {
    hide *;
    TraceStart(hunks, reverse, lines, name, blocker, outcomes, states);
    if n == 0 {
      PlanStart(hunks, reverse, lines, goal);
    } else {
      var k := n - 1;
      TraceExact(hunks, reverse, lines, name, blocker, goal, outcomes, states, k);
      TraceStep(hunks, reverse, lines, name, blocker, outcomes, states, k);
      TraceWindows(hunks, reverse, lines, name, blocker, outcomes, states, k);
      PlanStep(hunks, reverse, k, lines, goal, states[k].output, states[k].cursor);
      StepExact(hunks[k], reverse, lines, name, blocker, states[k], outcomes[k], states[n]);
    }
  }
}
