/** What a merge says to whoever reads its output: where the three texts are cut, which side every
    chunk is taken from, and what stands between the markers of a conflict. */
module MergeReading {
  import opened Text
  import opened Regions
  import opened Diff3

  // ----- Matches

  /** A line's partner is the one its block gives it, and only a line in no block has none. */
  lemma MatchesExactly(blocker: Blocker, a: seq<Line>, b: seq<Line>, k: nat)
    requires Blocks(blocker) && k < |a|
    ensures var m, blocks := MatchesOf(blocker, a, b), blocker(a, b);
            && |m| == |a| && (m[k] == -1 <==> forall n :: 0 <= n < |blocks| ==> !(blocks[n].a <= k < blocks[n].a + blocks[n].size))
            && forall n :: 0 <= n < |blocks| && blocks[n].a <= k < blocks[n].a + blocks[n].size ==> m[k] == blocks[n].b + (k - blocks[n].a)
  {
    var m, blocks := MatchesOf(blocker, a, b), blocker(a, b);
    assert BlocksFit(blocks, a, b);
    if m[k] != -1 {
      PartnerCovers(blocks, |blocks|, k);
    }
    forall n | 0 <= n < |blocks| && Covers(blocks[n], k) ensures m[k] == Partner(blocks[n], k) && m[k] >= 0 {
      BlockFound(blocks, a, b, n, |blocks|, k);
      assert BlockFits(blocks[n], a, b);
    }
  }

  lemma {:induction false} BlockFound(blocks: seq<Block>, a: seq<Line>, b: seq<Line>, n: nat, m: nat, k: nat)
    requires BlocksFit(blocks, a, b) && n < m <= |blocks| && Covers(blocks[n], k)
    ensures PartnerUpTo(blocks, m, k) == Partner(blocks[n], k)
  {
    if n < m - 1 {
      assert !Covers(blocks[m - 1], k);
      BlockFound(blocks, a, b, n, m - 1, k);
    }
  }

  // ----- Where the texts are cut

  // Every stable line is matched on both sides, at these places, and no line inside a change is.
  ghost predicate Cut(cs: seq<Chunk>, mo: seq<int>, mt: seq<int>, b: nat, o: nat, t: nat)
    requires |mo| == |mt|
    decreases |cs|
  {
    cs != [] ==>
      if cs[0].Stable? then b < |mo| && mo[b] == o && mt[b] == t && Cut(cs[1..], mo, mt, b + 1, o + 1, t + 1)
      else
        && (forall k :: b <= k < b + |cs[0].base| && k < |mo| ==> mo[k] < 0 || mt[k] < 0)
        && (|cs| > 1 ==> cs[1].Stable?) && |cs[0].base| + |cs[0].ours| + |cs[0].theirs| > 0
        && Cut(cs[1..], mo, mt, b + |cs[0].base|, o + |cs[0].ours|, t + |cs[0].theirs|)
  }

  /** The merge keeps apart what the matcher allows to: a line of the base is a chunk of its own
      exactly if it is matched on both sides, and changes lie between such lines. */
  lemma MergeCut(blocker: Blocker, base: seq<Line>, ours: seq<Line>, theirs: seq<Line>)
    requires Blocks(blocker)
    ensures var mo, mt := MatchesOf(blocker, base, ours), MatchesOf(blocker, base, theirs);
            |mo| == |mt| && Cut(ChunksOf(blocker, base, ours, theirs), mo, mt, 0, 0, 0)
  {
    AlignedStart(blocker, base, ours);
    AlignedStart(blocker, base, theirs);
    ChunksCut(base, ours, theirs, MatchesOf(blocker, base, ours), MatchesOf(blocker, base, theirs), 0, 0, 0);
  }

  lemma {:induction false} ChunksCut(base: seq<Line>, ours: seq<Line>, theirs: seq<Line>, mo: seq<int>, mt: seq<int>, b: nat, o: nat, t: nat)
    requires Aligned(base, ours, mo, b, o) && Aligned(base, theirs, mt, b, t)
    ensures |mo| == |mt| == |base|
    ensures var cs := Chunks(base, ours, theirs, mo, mt, b, o, t);
            Cut(cs, mo, mt, b, o, t) && (b < |base| && mo[b] == o && mt[b] == t ==> cs != [] && cs[0].Stable?) && (b == |base| && o == |ours| && t == |theirs| ==> cs == [])
    decreases |base| - b + |ours| - o + |theirs| - t
  {
    hide *;
    AlignedLength(base, ours, mo, b, o);
    AlignedLength(base, theirs, mt, b, t);
    if !(b == |base| && o == |ours| && t == |theirs|) {
      var c, b', o', t' := ChunksStep(base, ours, theirs, mo, mt, b, o, t);
      ChunksCut(base, ours, theirs, mo, mt, b', o', t');
      CutNext(c, Chunks(base, ours, theirs, mo, mt, b', o', t'), mo, mt, b, o, t, |ours|, |theirs|, b', o', t');
    } else {
      NothingChunked(base, ours, theirs, mo, mt);
    }
  }

  lemma {:induction false} NothingChunked(base: seq<Line>, ours: seq<Line>, theirs: seq<Line>, mo: seq<int>, mt: seq<int>)
    requires Aligned(base, ours, mo, |base|, |ours|) && Aligned(base, theirs, mt, |base|, |theirs|)
    ensures |mo| == |mt| == |base| && Chunks(base, ours, theirs, mo, mt, |base|, |ours|, |theirs|) == [] && Cut([], mo, mt, |base|, |ours|, |theirs|)
  {
    hide *;
    AlignedLength(base, ours, mo, |base|, |ours|);
    AlignedLength(base, theirs, mt, |base|, |theirs|);
    NoChunks(base, ours, theirs, mo, mt, "");
    CutNone(mo, mt, |base|, |ours|, |theirs|);
  }

  lemma CutNone(mo: seq<int>, mt: seq<int>, b: nat, o: nat, t: nat)
    requires |mo| == |mt|
    ensures Cut([], mo, mt, b, o, t)
  {
  }

  lemma CutNext(c: Chunk, rest: seq<Chunk>, mo: seq<int>, mt: seq<int>, b: nat, o: nat, t: nat, n: nat, m: nat, b': nat, o': nat, t': nat)
    requires |mo| == |mt| && b <= b' <= |mo| && o <= o' <= n && t <= t' <= m && b + o + t < b' + o' + t'
    requires Cut(rest, mo, mt, b', o', t')
    requires if c.Stable? then b < |mo| && mo[b] == o && mt[b] == t && b' == b + 1 && o' == o + 1 && t' == t + 1
             else |c.base| == b' - b && |c.ours| == o' - o && |c.theirs| == t' - t && b' == NextStable(mo, mt, b)
                  && (b' < |mo| ==> mo[b'] == o' && mt[b'] == t') && (b' == |mo| ==> rest == [])
    requires b' < |mo| && mo[b'] == o' && mt[b'] == t' ==> rest != [] && rest[0].Stable?
    ensures Cut([c] + rest, mo, mt, b, o, t)
  {
    assert ([c] + rest)[1..] == rest;
  }

  // ----- What becomes of a chunk

  // The line with a newline behind it, if it lacks one.
  function Lined(line: Line): Line { if line != "" && line[|line| - 1] == '\n' then line else line + "\n" }

  // The lines stand in the text from i on, the last one with a newline.
  predicate StandsAt(text: seq<Line>, i: nat, lines: seq<Line>)
  {
    i + |lines| <= |text| && forall k :: 0 <= k < |lines| ==> text[i + k] == if k == |lines| - 1 then Lined(lines[k]) else lines[k]
  }

  lemma TerminatedStands(lines: seq<Line>)
    ensures |Terminated(lines)| == |lines| && StandsAt(Terminated(lines), 0, lines)
  {
  }

  /** What only one side changes is taken from that side, what both change alike is taken once, and what
      they change differently stands between markers: the workspace's lines first. */
  lemma ResolvedMeans(c: Chunk, name: string)
    ensures c.Stable? ==> Resolved(c, name) == [c.line]
    ensures c.Changed? && c.ours == c.base ==> Resolved(c, name) == c.theirs
    ensures c.Changed? && (c.theirs == c.base || c.ours == c.theirs) ==> Resolved(c, name) == c.ours
    ensures c.Changed? && c.ours != c.base && c.theirs != c.base && c.ours != c.theirs ==>
              var lines, n, m := Resolved(c, name), |c.ours|, |c.theirs|;
              && |lines| == n + m + 3
              && lines[0] == "<<<<<<< workspace\n" && StandsAt(lines, 1, c.ours)
              && lines[n + 1] == "=======\n" && StandsAt(lines, n + 2, c.theirs)
              && lines[n + m + 2] == ">>>>>>> " + name + "\n"
    ensures Conflicting(c) <==> c.Changed? && c.ours != c.base && c.theirs != c.base && c.ours != c.theirs
  {
    hide *;
    ResolvedPlain(c, name);
    if Conflicting(c) {
      TerminatedStands(c.ours);
      TerminatedStands(c.theirs);
      Sandwich("<<<<<<< workspace\n", Terminated(c.ours), "=======\n", Terminated(c.theirs), ">>>>>>> " + name + "\n", c.ours, c.theirs);
    }
  }

  lemma ResolvedPlain(c: Chunk, name: string)
    ensures c.Stable? ==> Resolved(c, name) == [c.line]
    ensures c.Changed? && c.ours == c.base ==> Resolved(c, name) == c.theirs
    ensures c.Changed? && (c.theirs == c.base || c.ours == c.theirs) ==> Resolved(c, name) == c.ours
    ensures c.Changed? && c.ours != c.base && c.theirs != c.base && c.ours != c.theirs ==>
              Resolved(c, name) == ["<<<<<<< workspace\n"] + Terminated(c.ours) + ["=======\n"] + Terminated(c.theirs) + [">>>>>>> " + name + "\n"]
    ensures Conflicting(c) <==> c.Changed? && c.ours != c.base && c.theirs != c.base && c.ours != c.theirs
  {
    hide Terminated;
  }

  lemma Sandwich(a: Line, p: seq<Line>, b: Line, q: seq<Line>, c: Line, ours: seq<Line>, theirs: seq<Line>)
    requires |p| == |ours| && |q| == |theirs| && StandsAt(p, 0, ours) && StandsAt(q, 0, theirs)
    ensures var lines, n, m := [a] + p + [b] + q + [c], |p|, |q|;
            lines[0] == a && StandsAt(lines, 1, ours) && lines[n + 1] == b && StandsAt(lines, n + 2, theirs) && lines[n + m + 2] == c
  {
    hide Lined;
    var lines, n := [a] + p + [b] + q + [c], |p|;
    assert forall k :: 0 <= k < n ==> lines[1 + k] == p[k];
    assert forall k :: 0 <= k < |q| ==> lines[n + 2 + k] == q[k];
  }

  // ----- Reading one side off the output

  datatype Place = Outside | First | Second

  // A line that a reader may take for a marker, with a newline or once it gets one.
  predicate Marks(line: Line) { line == "<<<<<<< workspace\n" || line == "=======\n" || ">>>>>>> " <= line }

  predicate Unmarked(lines: seq<Line>) { forall k :: 0 <= k < |lines| ==> !Marks(lines[k]) && !Marks(lines[k] + "\n") }

  // Whether a line at this place belongs to the side that is read.
  predicate Belongs(place: Place, first: bool) { place == Outside || (place == First) == first }

  /** Reads one side of every marked block, going by the lines alone. */
  function Read(lines: seq<Line>, place: Place, first: bool): seq<Line>
  {
    if lines == [] then []
    else if place == Outside && lines[0] == "<<<<<<< workspace\n" then Read(lines[1..], First, first)
    else if place == First && lines[0] == "=======\n" then Read(lines[1..], Second, first)
    else if place == Second && ">>>>>>> " <= lines[0] then Read(lines[1..], Outside, first)
    else (if Belongs(place, first) then [lines[0]] else []) + Read(lines[1..], place, first)
  }

  // A chunk with one side preferred where they conflict.
  function Preferring(c: Chunk, first: bool): seq<Line>
  {
    if c.Stable? then [c.line]
    else if c.ours == c.base then c.theirs
    else if c.theirs == c.base then c.ours
    else if first then (if c.ours == c.theirs then c.ours else Terminated(c.ours))
    else if c.ours == c.theirs then c.theirs else Terminated(c.theirs)
  }

  function PreferringAll(cs: seq<Chunk>, first: bool): seq<Line>
  {
    if cs == [] then [] else Preferring(cs[0], first) + PreferringAll(cs[1..], first)
  }

  lemma ReadMarker(line: Line, rest: seq<Line>, first: bool)
    ensures line == OursMarker() ==> Read([line] + rest, Outside, first) == Read(rest, First, first)
    ensures line == Separator() ==> Read([line] + rest, First, first) == Read(rest, Second, first)
    ensures ">>>>>>> " <= line ==> Read([line] + rest, Second, first) == Read(rest, Outside, first)
  {
    assert ([line] + rest)[1..] == rest;
  }

  lemma ReadLine(line: Line, rest: seq<Line>, place: Place, first: bool)
    requires !Marks(line)
    ensures Read([line] + rest, place, first) == (if Belongs(place, first) then [line] else []) + Read(rest, place, first)
  {
    assert ([line] + rest)[1..] == rest;
  }

  lemma {:induction false} ReadLines(lines: seq<Line>, rest: seq<Line>, place: Place, first: bool)
    requires forall k :: 0 <= k < |lines| ==> !Marks(lines[k])
    ensures Read(lines + rest, place, first) == (if Belongs(place, first) then lines else []) + Read(rest, place, first)
    decreases |lines|
  {
    hide *;
    if lines == [] {
      assert [] + rest == rest && [] + Read(rest, place, first) == Read(rest, place, first);
    } else {
      assert lines == [lines[0]] + lines[1..] && lines + rest == [lines[0]] + (lines[1..] + rest);
      ReadLine(lines[0], lines[1..] + rest, place, first);
      ReadLines(lines[1..], rest, place, first);
    }
  }

  lemma TerminatedUnmarked(lines: seq<Line>)
    requires Unmarked(lines)
    ensures forall k :: 0 <= k < |Terminated(lines)| ==> !Marks(Terminated(lines)[k])
  {
    hide Marks;
  }

  predicate ChunkUnmarked(c: Chunk) { if c.Stable? then Unmarked([c.line]) else Unmarked(c.ours) && Unmarked(c.theirs) }

  lemma ReadChunk(c: Chunk, name: string, rest: seq<Line>, first: bool)
    requires ChunkUnmarked(c)
    ensures Read(Resolved(c, name) + rest, Outside, first) == Preferring(c, first) + Read(rest, Outside, first)
  {
    hide *;
    ResolvedMeans(c, name);
    PreferringIs(c, first);
    ChunkLines(c);
    BelongIs(first);
    if Conflicting(c) {
      var p, q := Terminated(c.ours), Terminated(c.theirs);
      ConflictIs(c, name);
      var last := [TheirsMarker(name)] + rest;
      assert Resolved(c, name) + rest == [OursMarker()] + (p + ([Separator()] + (q + last)));
      ReadMarker(OursMarker(), p + ([Separator()] + (q + last)), first);
      ReadLines(p, [Separator()] + (q + last), First, first);
      ReadMarker(Separator(), q + last, first);
      ReadLines(q, last, Second, first);
      ReadMarker(TheirsMarker(name), rest, first);
      NothingBefore(p, q, Read(rest, Outside, first));
    } else {
      ReadLines(Resolved(c, name), rest, Outside, first);
    }
  }

  lemma NothingBefore(p: seq<Line>, q: seq<Line>, r: seq<Line>)
    ensures p + ([] + r) == p + r && [] + (q + r) == q + r
  {
  }

  lemma BelongIs(first: bool)
    ensures Belongs(Outside, first) && Belongs(First, first) == first && Belongs(Second, first) == !first
  {
  }

  lemma ConflictIs(c: Chunk, name: string)
    requires Conflicting(c)
    ensures Resolved(c, name) == [OursMarker()] + Terminated(c.ours) + [Separator()] + Terminated(c.theirs) + [TheirsMarker(name)]
    ensures ">>>>>>> " <= TheirsMarker(name)
  {
  }

  lemma PreferringIs(c: Chunk, first: bool)
    ensures Conflicting(c) ==> Preferring(c, first) == if first then Terminated(c.ours) else Terminated(c.theirs)
    ensures c.Stable? ==> Preferring(c, first) == [c.line]
    ensures c.Changed? && c.ours == c.base ==> Preferring(c, first) == c.theirs
    ensures c.Changed? && (c.theirs == c.base || c.ours == c.theirs) ==> Preferring(c, first) == c.ours
  {
  }

  lemma ChunkLines(c: Chunk)
    requires ChunkUnmarked(c)
    ensures c.Stable? ==> !Marks(c.line)
    ensures c.Changed? ==>
              && (forall k :: 0 <= k < |c.ours| ==> !Marks(c.ours[k])) && (forall k :: 0 <= k < |c.theirs| ==> !Marks(c.theirs[k]))
              && (forall k :: 0 <= k < |Terminated(c.ours)| ==> !Marks(Terminated(c.ours)[k]))
              && (forall k :: 0 <= k < |Terminated(c.theirs)| ==> !Marks(Terminated(c.theirs)[k]))
  {
    hide Marks, Terminated;
    if c.Changed? {
      TerminatedUnmarked(c.ours);
      TerminatedUnmarked(c.theirs);
    } else {
      assert [c.line][0] == c.line;
    }
  }

  lemma {:induction false} ReadAll(cs: seq<Chunk>, name: string, first: bool)
    requires Unmarked(OursOf(cs)) && Unmarked(TheirsOf(cs))
    ensures Read(ResolvedAll(cs, name), Outside, first) == PreferringAll(cs, first)
  {
    hide *;
    if cs == [] {
      NothingRead(name, first);
    } else {
      FirstChunk(cs, name, first);
      ReadChunk(cs[0], name, ResolvedAll(cs[1..], name), first);
      ReadAll(cs[1..], name, first);
    }
  }

  lemma NothingRead(name: string, first: bool)
    ensures Read(ResolvedAll([], name), Outside, first) == PreferringAll([], first)
  {
  }

  lemma FirstChunk(cs: seq<Chunk>, name: string, first: bool)
    requires cs != [] && Unmarked(OursOf(cs)) && Unmarked(TheirsOf(cs))
    ensures ChunkUnmarked(cs[0]) && Unmarked(OursOf(cs[1..])) && Unmarked(TheirsOf(cs[1..]))
    ensures ResolvedAll(cs, name) == Resolved(cs[0], name) + ResolvedAll(cs[1..], name)
    ensures PreferringAll(cs, first) == Preferring(cs[0], first) + PreferringAll(cs[1..], first)
  {
    var c := cs[0];
    UnmarkedParts(if c.Stable? then [c.line] else c.ours, OursOf(cs[1..]));
    UnmarkedParts(if c.Stable? then [c.line] else c.theirs, TheirsOf(cs[1..]));
    hide Unmarked, Resolved, Preferring;
  }

  lemma UnmarkedParts(p: seq<Line>, q: seq<Line>)
    requires Unmarked(p + q)
    ensures Unmarked(p) && Unmarked(q)
  {
    hide Marks;
    assert forall k :: 0 <= k < |p| ==> (p + q)[k] == p[k];
    assert forall k :: 0 <= k < |q| ==> (p + q)[|p| + k] == q[k];
  }

  /** Whoever goes by the markers of a merge, of sides that have no markers of their own, and keeps the
      first side of every conflict has the merge that prefers the workspace; whoever keeps the second, the
      one that prefers the other side. */
  lemma MergeRead(blocker: Blocker, base: seq<Line>, ours: seq<Line>, theirs: seq<Line>, name: string, first: bool)
    requires Blocks(blocker) && Unmarked(ours) && Unmarked(theirs)
    ensures Read(MergeOf(blocker, base, ours, theirs, name).0, Outside, first) == PreferringAll(ChunksOf(blocker, base, ours, theirs), first)
  {
    MergeTiles(blocker, base, ours, theirs);
    hide Unmarked, Read, PreferringAll, ResolvedAll, OursOf, TheirsOf, BaseOf, Chunks, ChunksOf;
    ReadAll(ChunksOf(blocker, base, ours, theirs), name, first);
  }

  // How many blocks a reader sees begin.
  function Marked(lines: seq<Line>): nat
  {
    if lines == [] then 0 else (if lines[0] == "<<<<<<< workspace\n" then 1 else 0) + Marked(lines[1..])
  }

  lemma {:induction false} MarkedConcat(p: seq<Line>, q: seq<Line>)
    ensures Marked(p + q) == Marked(p) + Marked(q)
    ensures (forall k :: 0 <= k < |p| ==> p[k] != "<<<<<<< workspace\n") ==> Marked(p) == 0
    decreases |p|
  {
    if p == [] {
      assert p + q == q;
    } else {
      MarkedConcat(p[1..], q);
      assert (p + q)[1..] == p[1..] + q;
    }
  }

  lemma MarkedChunk(c: Chunk, name: string)
    requires ChunkUnmarked(c)
    ensures Marked(Resolved(c, name)) == if Conflicting(c) then 1 else 0
  {
    hide *;
    ResolvedMeans(c, name);
    ChunkLines(c);
    MarksAre();
    if Conflicting(c) {
      var p, q, lines := Terminated(c.ours), Terminated(c.theirs), Resolved(c, name);
      ConflictIs(c, name);
      OneMarked(name);
      MarkedConcat(p, []);
      MarkedConcat(q, []);
      MarkedConcat([OursMarker()] + p + [Separator()] + q, [TheirsMarker(name)]);
      MarkedConcat([OursMarker()] + p + [Separator()], q);
      MarkedConcat([OursMarker()] + p, [Separator()]);
      MarkedConcat([OursMarker()], p);
    } else {
      MarkedConcat(Resolved(c, name), []);
    }
  }

  lemma MarksAre()
    ensures forall line :: line == "<<<<<<< workspace\n" ==> Marks(line)
  {
  }

  lemma OneMarked(name: string)
    ensures Marked([OursMarker()]) == 1 && Marked([Separator()]) == 0 && Marked([TheirsMarker(name)]) == 0
  {
    assert [OursMarker()][1..] == [] && [Separator()][1..] == [] && [TheirsMarker(name)][1..] == [];
    assert OursMarker()[0] == '<' && TheirsMarker(name)[0] == '>' && Separator()[0] == '=';
  }

  lemma {:induction false} MarkedAll(cs: seq<Chunk>, name: string)
    requires Unmarked(OursOf(cs)) && Unmarked(TheirsOf(cs))
    ensures Marked(ResolvedAll(cs, name)) == Conflicts(cs)
  {
    hide *;
    if cs == [] {
      NothingMarked(name);
    } else {
      FirstChunk(cs, name, true);
      FirstCounted(cs);
      MarkedChunk(cs[0], name);
      MarkedConcat(Resolved(cs[0], name), ResolvedAll(cs[1..], name));
      MarkedAll(cs[1..], name);
    }
  }

  lemma NothingMarked(name: string)
    ensures Marked(ResolvedAll([], name)) == Conflicts([])
  {
  }

  lemma FirstCounted(cs: seq<Chunk>)
    requires cs != []
    ensures Conflicts(cs) == (if Conflicting(cs[0]) then 1 else 0) + Conflicts(cs[1..])
  {
  }

  /** A reader of such a merge sees as many blocks begin as conflicts are reported. */
  lemma ConflictsMarked(blocker: Blocker, base: seq<Line>, ours: seq<Line>, theirs: seq<Line>, name: string)
    requires Blocks(blocker) && Unmarked(ours) && Unmarked(theirs)
    ensures Marked(MergeOf(blocker, base, ours, theirs, name).0) == MergeOf(blocker, base, ours, theirs, name).1
  {
    MergeTiles(blocker, base, ours, theirs);
    hide Unmarked, Marked, ResolvedAll, OursOf, TheirsOf, BaseOf, Chunks, ChunksOf, Conflicts;
    MarkedAll(ChunksOf(blocker, base, ours, theirs), name);
  }

  /** Where both sides change every chunk differently, or not at all, that is the side itself. */
  lemma {:induction false} PreferredSide(cs: seq<Chunk>, first: bool)
    requires forall k :: 0 <= k < |cs| ==> cs[k].Stable? || Conflicting(cs[k])
    requires forall k :: 0 <= k < |cs| && cs[k].Changed? ==> Terminated(cs[k].ours) == cs[k].ours && Terminated(cs[k].theirs) == cs[k].theirs
    ensures PreferringAll(cs, first) == if first then OursOf(cs) else TheirsOf(cs)
  {
    if cs != [] {
      PreferredSide(cs[1..], first);
    }
  }
}
