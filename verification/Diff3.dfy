/** Merging three versions of a text line by line. */
module Diff3 {
  import opened Text
  import opened Regions

  // ----- Matches

  datatype Block = Block(a: int, b: int, size: int)

  type Blocker = (seq<Line>, seq<Line>) -> seq<Block>

  predicate Covers(block: Block, k: int) { block.a <= k < block.a + block.size }

  function Partner(block: Block, k: int): int { block.b + k - block.a }

  // Each matched line of `a` has an equal partner in `b`, and partners come in order.
  ghost predicate Matched(m: seq<int>, a: seq<Line>, b: seq<Line>)
  {
    && |m| == |a|
    && (forall k :: 0 <= k < |m| ==> -1 <= m[k] < |b| && (m[k] >= 0 ==> b[m[k]] == a[k]))
    && (forall k, l :: 0 <= k < l < |m| && m[k] >= 0 && m[l] >= 0 ==> m[k] < m[l])
  }

  // The matcher's blocks: equal text, in order and apart on both sides.
  ghost predicate BlocksFit(blocks: seq<Block>, a: seq<Line>, b: seq<Line>)
  {
    && (forall n :: 0 <= n < |blocks| ==> BlockFits(blocks[n], a, b))
    && (forall n, l :: 0 <= n < l < |blocks| ==> blocks[n].a + blocks[n].size <= blocks[l].a && blocks[n].b + blocks[n].size <= blocks[l].b)
  }

  predicate BlockFits(block: Block, a: seq<Line>, b: seq<Line>)
  {
    && 0 <= block.size && 0 <= block.a && block.a + block.size <= |a| && 0 <= block.b && block.b + block.size <= |b|
    && a[block.a..block.a + block.size] == b[block.b..block.b + block.size]
  }

  ghost predicate Blocks(blocker: Blocker)
  {
    forall a: seq<Line>, b: seq<Line> :: BlocksFit(blocker(a, b), a, b)
  }

  function WholeBlocks(a: seq<Line>, b: seq<Line>): seq<Block>
  {
    if a == b then [Block(0, 0, |a|)] else []
  }

  // The coarsest matcher, showing that the contract can be met.
  lemma WholeBlocksFit(text: seq<Line>)
    ensures Blocks(WholeBlocks) && MatchesSelf(WholeBlocks, text)
  {
    if text != [] {
      assert forall k :: 0 <= k < |text| ==> PartnerUpTo(WholeBlocks(text, text), 1, k) == k;
    }
  }

  // The partner of line k in the last of the first n blocks that covers it, or -1.
  function PartnerUpTo(blocks: seq<Block>, n: nat, k: int): int
    requires n <= |blocks|
  {
    if n == 0 then -1 else if Covers(blocks[n - 1], k) then Partner(blocks[n - 1], k) else PartnerUpTo(blocks, n - 1, k)
  }

  function PartnersUpTo(blocks: seq<Block>, n: nat, size: nat): (m: seq<int>)
    requires n <= |blocks|
    ensures |m| == size && forall k :: 0 <= k < size ==> m[k] == PartnerUpTo(blocks, n, k)
  {
    seq(size, k requires 0 <= k < size => PartnerUpTo(blocks, n, k))
  }

  // The partner of every line of `a`, or -1.
  function MatchesOf(blocker: Blocker, a: seq<Line>, b: seq<Line>): seq<int>
  {
    PartnersUpTo(blocker(a, b), |blocker(a, b)|, |a|)
  }

  lemma {:induction false} PartnerCovers(blocks: seq<Block>, n: nat, k: int)
    requires n <= |blocks| && PartnerUpTo(blocks, n, k) != -1
    ensures exists l :: 0 <= l < n && Covers(blocks[l], k) && PartnerUpTo(blocks, n, k) == Partner(blocks[l], k)
  {
    if !Covers(blocks[n - 1], k) {
      PartnerCovers(blocks, n - 1, k);
    } else {
      assert PartnerUpTo(blocks, n, k) == Partner(blocks[n - 1], k);
    }
  }

  lemma CoveredText(block: Block, a: seq<Line>, b: seq<Line>, k: int)
    requires BlockFits(block, a, b) && Covers(block, k)
    ensures 0 <= k < |a| && 0 <= Partner(block, k) < |b| && b[Partner(block, k)] == a[k]
  {
    var x, y, i := a[block.a..block.a + block.size], b[block.b..block.b + block.size], k - block.a;
    assert 0 <= i < |x| && x[i] == a[k] && y[i] == b[block.b + i];
  }

  lemma PartnerText(blocks: seq<Block>, a: seq<Line>, b: seq<Line>, k: int)
    requires BlocksFit(blocks, a, b) && PartnerUpTo(blocks, |blocks|, k) != -1
    ensures 0 <= k < |a| && 0 <= PartnerUpTo(blocks, |blocks|, k) < |b| && b[PartnerUpTo(blocks, |blocks|, k)] == a[k]
  {
    PartnerCovers(blocks, |blocks|, k);
    hide PartnerUpTo, Covers, Partner;
    var l :| 0 <= l < |blocks| && Covers(blocks[l], k) && PartnerUpTo(blocks, |blocks|, k) == Partner(blocks[l], k);
    CoveredText(blocks[l], a, b, k);
  }

  lemma PartnersOrdered(blocks: seq<Block>, a: seq<Line>, b: seq<Line>, k: int, n: int)
    requires BlocksFit(blocks, a, b) && k < n && PartnerUpTo(blocks, |blocks|, k) != -1 && PartnerUpTo(blocks, |blocks|, n) != -1
    ensures PartnerUpTo(blocks, |blocks|, k) < PartnerUpTo(blocks, |blocks|, n)
  {
    PartnerCovers(blocks, |blocks|, k);
    PartnerCovers(blocks, |blocks|, n);
    hide PartnerUpTo;
    var l :| 0 <= l < |blocks| && Covers(blocks[l], k) && PartnerUpTo(blocks, |blocks|, k) == Partner(blocks[l], k);
    var l' :| 0 <= l' < |blocks| && Covers(blocks[l'], n) && PartnerUpTo(blocks, |blocks|, n) == Partner(blocks[l'], n);
    assert BlockFits(blocks[l], a, b) && BlockFits(blocks[l'], a, b);
  }

  /** A matcher's blocks give partners of equal text, in order. */
  lemma MatchesFit(blocker: Blocker, a: seq<Line>, b: seq<Line>)
    requires Blocks(blocker)
    ensures Matched(MatchesOf(blocker, a, b), a, b)
  {
    var blocks, m := blocker(a, b), MatchesOf(blocker, a, b);
    assert BlocksFit(blocks, a, b);
    hide Blocks, BlocksFit, PartnerUpTo;
    forall k | 0 <= k < |m| && m[k] != -1 ensures 0 <= m[k] < |b| && b[m[k]] == a[k] {
      PartnerText(blocks, a, b, k);
    }
    forall k, n | 0 <= k < n < |m| && m[k] != -1 && m[n] != -1 ensures m[k] < m[n] {
      PartnersOrdered(blocks, a, b, k, n);
    }
  }

  // Every line is its own partner.
  predicate Identity(m: seq<int>) { forall k :: 0 <= k < |m| ==> m[k] == k }

  // The matcher finds the text in itself.
  predicate MatchesSelf(blocker: Blocker, text: seq<Line>) { Identity(MatchesOf(blocker, text, text)) }

  /** The partner of every line, or -1. */
  method ReviewMatches(blocker: Blocker, a: seq<Line>, b: seq<Line>) returns (m: seq<int>)
    requires Blocks(blocker)
    ensures m == MatchesOf(blocker, a, b) && Matched(m, a, b)
  {
    var blocks := blocker(a, b);
    assert BlocksFit(blocks, a, b);
    MatchesFit(blocker, a, b);
    var matches := new int[|a|](_ => -1);
    hide Blocks, BlocksFit, Matched;
    var n := 0;
    while n < |blocks|
      invariant 0 <= n <= |blocks| && forall k :: 0 <= k < |a| ==> matches[k] == PartnerUpTo(blocks, n, k)
    {
      var block := blocks[n];
      BlockBounds(blocks, n, a, b);
      ghost var was := matches[..];
      for k := 0 to block.size
        invariant forall i :: 0 <= i < |a| ==> matches[i] == if block.a <= i < block.a + k then block.b + i - block.a else was[i]
      {
        matches[block.a + k] := block.b + k;
      }
      n := n + 1;
    }
    m := matches[..];
  }

  lemma BlockBounds(blocks: seq<Block>, n: nat, a: seq<Line>, b: seq<Line>)
    requires n < |blocks| && BlocksFit(blocks, a, b)
    ensures 0 <= blocks[n].a && 0 <= blocks[n].size && blocks[n].a + blocks[n].size <= |a|
  {
  }

  // ----- Chunks

  datatype Chunk = Stable(line: Line) | Changed(base: seq<Line>, ours: seq<Line>, theirs: seq<Line>)

  // From base line b on, the first line matched on both sides.
  function NextStable(mo: seq<int>, mt: seq<int>, b: nat): (next: nat)
    requires |mo| == |mt| && b <= |mo|
    ensures b <= next <= |mo| && (next < |mo| ==> mo[next] >= 0 && mt[next] >= 0)
    ensures forall k :: b <= k < next ==> mo[k] < 0 || mt[k] < 0
    decreases |mo| - b
  {
    if b == |mo| || (mo[b] >= 0 && mt[b] >= 0) then b else NextStable(mo, mt, b + 1)
  }

  // What is matched from base line b on lies at or behind o.
  predicate Ahead(m: seq<int>, b: nat, o: nat)
  {
    forall k :: b <= k < |m| && m[k] >= 0 ==> o <= m[k]
  }

  ghost predicate Aligned(base: seq<Line>, side: seq<Line>, m: seq<int>, b: nat, o: nat)
  {
    Matched(m, base, side) && b <= |base| && o <= |side| && Ahead(m, b, o)
  }

  /** The three texts from b, o and t on as one list of chunks: a line all three share where
      they are matched to each other, or what lies between two such lines. */
  function Chunks(base: seq<Line>, ours: seq<Line>, theirs: seq<Line>, mo: seq<int>, mt: seq<int>, b: nat, o: nat, t: nat): seq<Chunk>
    requires Aligned(base, ours, mo, b, o) && Aligned(base, theirs, mt, b, t)
    decreases |base| - b + |ours| - o + |theirs| - t
  {
    if b < |base| && mo[b] == o && mt[b] == t then
      [Stable(base[b])] + Chunks(base, ours, theirs, mo, mt, b + 1, o + 1, t + 1)
    else if b == |base| && o == |ours| && t == |theirs| then []
    else
      var next := NextStable(mo, mt, b);
      var nextOurs := if next < |base| then mo[next] else |ours|;
      var nextTheirs := if next < |base| then mt[next] else |theirs|;
      [Changed(base[b..next], ours[o..nextOurs], theirs[t..nextTheirs])]
        + Chunks(base, ours, theirs, mo, mt, next, nextOurs, nextTheirs)
  }

  function Conflicting(c: Chunk): bool
  {
    c.Changed? && c.ours != c.base && c.theirs != c.base && c.ours != c.theirs
  }

  // The lines with a newline put behind the last, if it lacks one.
  function Terminated(lines: seq<Line>): seq<Line>
  {
    if lines == [] || EndsLine(lines[|lines| - 1]) then lines
    else lines[..|lines| - 1] + [lines[|lines| - 1] + "\n"]
  }

  function Resolved(c: Chunk, name: string): seq<Line>
  {
    if c.Stable? then [c.line]
    else if c.ours == c.base then c.theirs
    else if c.theirs == c.base || c.ours == c.theirs then c.ours
    else [OursMarker()] + Terminated(c.ours) + [Separator()] + Terminated(c.theirs) + [TheirsMarker(name)]
  }

  function OursMarker(): string { "<<<<<<< workspace\n" }

  function Separator(): string { "=======\n" }

  function TheirsMarker(name: string): string { ">>>>>>> " + name + "\n" }

  function ResolvedAll(cs: seq<Chunk>, name: string): seq<Line>
  {
    if cs == [] then [] else Resolved(cs[0], name) + ResolvedAll(cs[1..], name)
  }

  function Conflicts(cs: seq<Chunk>): nat
  {
    if cs == [] then 0 else (if Conflicting(cs[0]) then 1 else 0) + Conflicts(cs[1..])
  }

  // ----- Laws

  function BaseOf(cs: seq<Chunk>): seq<Line>
  {
    if cs == [] then [] else (if cs[0].Stable? then [cs[0].line] else cs[0].base) + BaseOf(cs[1..])
  }

  function OursOf(cs: seq<Chunk>): seq<Line>
  {
    if cs == [] then [] else (if cs[0].Stable? then [cs[0].line] else cs[0].ours) + OursOf(cs[1..])
  }

  function TheirsOf(cs: seq<Chunk>): seq<Line>
  {
    if cs == [] then [] else (if cs[0].Stable? then [cs[0].line] else cs[0].theirs) + TheirsOf(cs[1..])
  }

  lemma ChunksStep(base: seq<Line>, ours: seq<Line>, theirs: seq<Line>, mo: seq<int>, mt: seq<int>, b: nat, o: nat, t: nat)
    returns (c: Chunk, b': nat, o': nat, t': nat)
    requires Aligned(base, ours, mo, b, o) && Aligned(base, theirs, mt, b, t)
    requires !(b == |base| && o == |ours| && t == |theirs|)
    ensures b <= b' <= |base| && o <= o' <= |ours| && t <= t' <= |theirs| && b + o + t < b' + o' + t'
    ensures Aligned(base, ours, mo, b', o') && Aligned(base, theirs, mt, b', t')
    ensures Chunks(base, ours, theirs, mo, mt, b, o, t) == [c] + Chunks(base, ours, theirs, mo, mt, b', o', t')
    ensures if b < |base| && mo[b] == o && mt[b] == t then
              c == Stable(base[b]) && b' == b + 1 && o' == o + 1 && t' == t + 1 && ours[o] == base[b] == theirs[t]
            else
              && c == Changed(base[b..b'], ours[o..o'], theirs[t..t'])
              && b' == NextStable(mo, mt, b)
              && o' == (if b' < |base| then mo[b'] else |ours|) && t' == if b' < |base| then mt[b'] else |theirs|
  {
    hide *;
    if IsStable(mo, mt, b, o, t) {
      StableIs(base, ours, theirs, mo, mt, b, o, t);
      AlignedOne(base, ours, mo, b, o);
      AlignedOne(base, theirs, mt, b, t);
      StableChunk(base, ours, theirs, mo, mt, b, o, t);
      c, b', o', t' := Stable(base[b]), b + 1, o + 1, t + 1;
    } else {
      StableIs(base, ours, theirs, mo, mt, b, o, t);
      AlignedLength(base, ours, mo, b, o);
      AlignedLength(base, theirs, mt, b, t);
      b' := NextStable(mo, mt, b);
      o', t' := if b' < |base| then mo[b'] else |ours|, if b' < |base| then mt[b'] else |theirs|;
      AlignedNext(base, ours, mo, b, o, b');
      AlignedNext(base, theirs, mt, b, t, b');
      ChangedChunk(base, ours, theirs, mo, mt, b, o, t);
      ChangedMoves(base, ours, theirs, mo, mt, b, o, t);
      c := Changed(base[b..b'], ours[o..o'], theirs[t..t']);
    }
  }

  lemma StableIs(base: seq<Line>, ours: seq<Line>, theirs: seq<Line>, mo: seq<int>, mt: seq<int>, b: nat, o: nat, t: nat)
    requires Aligned(base, ours, mo, b, o) && Aligned(base, theirs, mt, b, t)
    ensures |mo| == |mt| == |base|
    ensures IsStable(mo, mt, b, o, t) <==> b < |base| && mo[b] == o && mt[b] == t
  {
    hide Ahead;
  }

  // A matched line is passed on both sides.
  lemma AlignedOne(base: seq<Line>, side: seq<Line>, m: seq<int>, b: nat, o: nat)
    requires Aligned(base, side, m, b, o) && b < |base| && b < |m| && m[b] == o
    ensures o < |side| && side[o] == base[b] && Aligned(base, side, m, b + 1, o + 1)
  {
  }

  // Everything up to the next line matched on both sides is passed.
  lemma AlignedNext(base: seq<Line>, side: seq<Line>, m: seq<int>, b: nat, o: nat, b': nat)
    requires Aligned(base, side, m, b, o) && b <= b' <= |base| && |m| == |base| && (b' < |base| ==> m[b'] >= 0)
    ensures var o' := if b' < |base| then m[b'] else |side|; o <= o' <= |side| && Aligned(base, side, m, b', o')
  {
  }

  lemma StableChunk(base: seq<Line>, ours: seq<Line>, theirs: seq<Line>, mo: seq<int>, mt: seq<int>, b: nat, o: nat, t: nat)
    requires Aligned(base, ours, mo, b, o) && Aligned(base, theirs, mt, b, t) && IsStable(mo, mt, b, o, t)
    requires Aligned(base, ours, mo, b + 1, o + 1) && Aligned(base, theirs, mt, b + 1, t + 1)
    ensures Chunks(base, ours, theirs, mo, mt, b, o, t) == [Stable(base[b])] + Chunks(base, ours, theirs, mo, mt, b + 1, o + 1, t + 1)
  {
    hide Aligned;
  }

  lemma ChangedChunk(base: seq<Line>, ours: seq<Line>, theirs: seq<Line>, mo: seq<int>, mt: seq<int>, b: nat, o: nat, t: nat)
    requires Aligned(base, ours, mo, b, o) && Aligned(base, theirs, mt, b, t) && |mo| == |mt| == |base| && b <= |base|
    requires !IsStable(mo, mt, b, o, t) && !(b == |base| && o == |ours| && t == |theirs|)
    ensures var b' := NextStable(mo, mt, b);
            var o', t' := if b' < |base| then mo[b'] else |ours|, if b' < |base| then mt[b'] else |theirs|;
            && o <= o' <= |ours| && t <= t' <= |theirs| && Aligned(base, ours, mo, b', o') && Aligned(base, theirs, mt, b', t')
            && Chunks(base, ours, theirs, mo, mt, b, o, t) == [Changed(base[b..b'], ours[o..o'], theirs[t..t'])] + Chunks(base, ours, theirs, mo, mt, b', o', t')
  {
    AlignedNext(base, ours, mo, b, o, NextStable(mo, mt, b));
    AlignedNext(base, theirs, mt, b, t, NextStable(mo, mt, b));
    hide Aligned, NextStable;
  }

  lemma ChangedMoves(base: seq<Line>, ours: seq<Line>, theirs: seq<Line>, mo: seq<int>, mt: seq<int>, b: nat, o: nat, t: nat)
    requires |mo| == |mt| == |base| && b <= |base| && o <= |ours| && t <= |theirs|
    requires !IsStable(mo, mt, b, o, t) && !(b == |base| && o == |ours| && t == |theirs|)
    requires var b' := NextStable(mo, mt, b); b' < |base| ==> o <= mo[b'] && t <= mt[b']
    ensures var b' := NextStable(mo, mt, b);
            b + o + t < b' + (if b' < |base| then mo[b'] else |ours|) + if b' < |base| then mt[b'] else |theirs|
  {
    hide NextStable;
  }

  lemma Cons(c: Chunk, cs: seq<Chunk>, name: string)
    ensures ResolvedAll([c] + cs, name) == Resolved(c, name) + ResolvedAll(cs, name)
    ensures Conflicts([c] + cs) == (if Conflicting(c) then 1 else 0) + Conflicts(cs)
    ensures BaseOf([c] + cs) == (if c.Stable? then [c.line] else c.base) + BaseOf(cs)
    ensures OursOf([c] + cs) == (if c.Stable? then [c.line] else c.ours) + OursOf(cs)
    ensures TheirsOf([c] + cs) == (if c.Stable? then [c.line] else c.theirs) + TheirsOf(cs)
  {
    assert ([c] + cs)[1..] == cs;
  }

  lemma SliceJoin(s: seq<Line>, i: int, j: int)
    requires 0 <= i <= j <= |s|
    ensures s[i..] == s[i..j] + s[j..]
  {
  }

  /** The chunks tile all three texts: nothing is lost, repeated or reordered. */
  lemma {:induction false} ChunksTile(base: seq<Line>, ours: seq<Line>, theirs: seq<Line>, mo: seq<int>, mt: seq<int>, b: nat, o: nat, t: nat)
    requires Aligned(base, ours, mo, b, o) && Aligned(base, theirs, mt, b, t)
    ensures var cs := Chunks(base, ours, theirs, mo, mt, b, o, t);
            BaseOf(cs) == base[b..] && OursOf(cs) == ours[o..] && TheirsOf(cs) == theirs[t..]
    decreases |base| - b + |ours| - o + |theirs| - t
  {
    hide *;
    if !(b == |base| && o == |ours| && t == |theirs|) {
      var c, b', o', t' := ChunksStep(base, ours, theirs, mo, mt, b, o, t);
      ChunksTile(base, ours, theirs, mo, mt, b', o', t');
      Cons(c, Chunks(base, ours, theirs, mo, mt, b', o', t'), "");
      SliceJoin(base, b, b');
      SliceJoin(ours, o, o');
      SliceJoin(theirs, t, t');
    } else {
      NoChunks(base, ours, theirs, mo, mt, "");
      assert base[b..] == [] && ours[o..] == [] && theirs[t..] == [];
    }
  }

  /** Identical changes are taken once. */
  lemma {:induction false} MergeSame(base: seq<Line>, side: seq<Line>, m: seq<int>, b: nat, o: nat, name: string)
    requires Aligned(base, side, m, b, o)
    ensures var cs := Chunks(base, side, side, m, m, b, o, o); ResolvedAll(cs, name) == side[o..] && Conflicts(cs) == 0
    decreases |base| - b + |side| - o
  {
    hide *;
    if !(b == |base| && o == |side|) {
      var c, b', o', t' := ChunksStep(base, side, side, m, m, b, o, o);
      MergeSame(base, side, m, b', o', name);
      Cons(c, Chunks(base, side, side, m, m, b', o', o'), name);
      ChunkMeaning(c, name);
      SliceJoin(side, o, o');
    } else {
      NoChunks(base, side, side, m, m, name);
      assert side[o..] == [];
    }
  }

  /** A side equal to the base, and matched to it line by line, yields to the other side. */
  lemma {:induction false} MergeUnchangedOurs(base: seq<Line>, theirs: seq<Line>, mo: seq<int>, mt: seq<int>, b: nat, t: nat, name: string)
    requires Identity(mo) && Aligned(base, base, mo, b, b) && Aligned(base, theirs, mt, b, t)
    ensures var cs := Chunks(base, base, theirs, mo, mt, b, b, t); ResolvedAll(cs, name) == theirs[t..] && Conflicts(cs) == 0
    decreases |base| - b + |theirs| - t
  {
    hide *;
    if !(b == |base| && t == |theirs|) {
      AlignedLength(base, base, mo, b, b);
      var c, b', o', t' := ChunksStep(base, base, theirs, mo, mt, b, b, t);
      IdentityAt(mo, b, b');
      MergeUnchangedOurs(base, theirs, mo, mt, b', t', name);
      Cons(c, Chunks(base, base, theirs, mo, mt, b', b', t'), name);
      ChunkMeaning(c, name);
      SliceJoin(theirs, t, t');
    } else {
      NoChunks(base, base, theirs, mo, mt, name);
      assert theirs[t..] == [];
    }
  }

  lemma {:induction false} MergeUnchangedTheirs(base: seq<Line>, ours: seq<Line>, mo: seq<int>, mt: seq<int>, b: nat, o: nat, name: string)
    requires Identity(mt) && Aligned(base, ours, mo, b, o) && Aligned(base, base, mt, b, b)
    ensures var cs := Chunks(base, ours, base, mo, mt, b, o, b); ResolvedAll(cs, name) == ours[o..] && Conflicts(cs) == 0
    decreases |base| - b + |ours| - o
  {
    hide *;
    if !(b == |base| && o == |ours|) {
      AlignedLength(base, base, mt, b, b);
      var c, b', o', t' := ChunksStep(base, ours, base, mo, mt, b, o, b);
      IdentityAt(mt, b, b');
      MergeUnchangedTheirs(base, ours, mo, mt, b', o', name);
      Cons(c, Chunks(base, ours, base, mo, mt, b', o', b'), name);
      ChunkMeaning(c, name);
      SliceJoin(ours, o, o');
    } else {
      NoChunks(base, ours, base, mo, mt, name);
      assert ours[o..] == [];
    }
  }

  lemma IdentityAt(m: seq<int>, b: nat, b': nat)
    requires Identity(m)
    ensures b < |m| ==> m[b] == b
    ensures b' < |m| ==> m[b'] == b'
  {
  }

  lemma ChunkMeaning(c: Chunk, name: string)
    ensures c.Stable? ==> Resolved(c, name) == [c.line] && !Conflicting(c)
    ensures c.Changed? && (c.ours == c.theirs || c.theirs == c.base) ==> Resolved(c, name) == c.ours && !Conflicting(c)
    ensures c.Changed? && c.ours == c.base ==> Resolved(c, name) == c.theirs && !Conflicting(c)
  {
  }

  lemma AlignedLength(base: seq<Line>, side: seq<Line>, m: seq<int>, b: nat, o: nat)
    requires Aligned(base, side, m, b, o)
    ensures |m| == |base| && b <= |base| && o <= |side|
  {
  }

  /** Swapping the sides keeps the number of conflicts, and, without conflicts, the output. */
  lemma {:induction false} MergeSwapped(base: seq<Line>, ours: seq<Line>, theirs: seq<Line>, mo: seq<int>, mt: seq<int>, b: nat, o: nat, t: nat, name: string)
    requires Aligned(base, ours, mo, b, o) && Aligned(base, theirs, mt, b, t)
    ensures var cs, ds := Chunks(base, ours, theirs, mo, mt, b, o, t), Chunks(base, theirs, ours, mt, mo, b, t, o);
            Conflicts(ds) == Conflicts(cs) && (Conflicts(cs) == 0 ==> ResolvedAll(ds, name) == ResolvedAll(cs, name))
    decreases |base| - b + |ours| - o + |theirs| - t
  {
    hide *;
    if !(b == |base| && o == |ours| && t == |theirs|) {
      AlignedLength(base, ours, mo, b, o);
      AlignedLength(base, theirs, mt, b, t);
      NextSwapped(mo, mt, b);
      var c, b', o', t' := ChunksStep(base, ours, theirs, mo, mt, b, o, t);
      var d, b2, t2, o2 := ChunksStep(base, theirs, ours, mt, mo, b, t, o);
      SwappedChunk(c, d, name);
      MergeSwapped(base, ours, theirs, mo, mt, b', o', t', name);
      Cons(c, Chunks(base, ours, theirs, mo, mt, b', o', t'), name);
      Cons(d, Chunks(base, theirs, ours, mt, mo, b', t', o'), name);
    } else {
      NoChunks(base, ours, theirs, mo, mt, name);
      NoChunks(base, theirs, ours, mt, mo, name);
    }
  }

  lemma SwappedChunk(c: Chunk, d: Chunk, name: string)
    requires (c.Stable? && d == c) || (c.Changed? && d == Changed(c.base, c.theirs, c.ours))
    ensures Conflicting(d) == Conflicting(c) && (!Conflicting(c) ==> Resolved(d, name) == Resolved(c, name))
  {
  }

  lemma {:induction false} NextSwapped(mo: seq<int>, mt: seq<int>, b: nat)
    requires |mo| == |mt| && b <= |mo|
    ensures NextStable(mt, mo, b) == NextStable(mo, mt, b)
    decreases |mo| - b
  {
    if b < |mo| {
      NextSwapped(mo, mt, b + 1);
    }
  }

  // ----- The merge

  method AppendTerminated(output: seq<Line>, lines: seq<Line>) returns (appended: seq<Line>)
    ensures appended == output + Terminated(lines)
  {
    appended := output + lines;
    if |lines| != 0 && !EndsLine(lines[|lines| - 1]) {
      appended := appended[..|appended| - 1] + [appended[|appended| - 1] + "\n"];
    }
  }

  // What is done, and what is to come, make up the whole merge.
  ghost predicate Merging(base: seq<Line>, ours: seq<Line>, theirs: seq<Line>, mo: seq<int>, mt: seq<int>, b: nat, o: nat, t: nat,
                          output: seq<Line>, conflicts: nat, name: string)
  {
    && Aligned(base, ours, mo, 0, 0) && Aligned(base, theirs, mt, 0, 0)
    && Aligned(base, ours, mo, b, o) && Aligned(base, theirs, mt, b, t)
    && var all, rest := Chunks(base, ours, theirs, mo, mt, 0, 0, 0), Chunks(base, ours, theirs, mo, mt, b, o, t);
       ResolvedAll(all, name) == output + ResolvedAll(rest, name) && Conflicts(all) == conflicts + Conflicts(rest)
  }

  lemma MergingStep(base: seq<Line>, ours: seq<Line>, theirs: seq<Line>, mo: seq<int>, mt: seq<int>, b: nat, o: nat, t: nat,
                    output: seq<Line>, conflicts: nat, name: string) returns (c: Chunk, b': nat, o': nat, t': nat)
    requires Merging(base, ours, theirs, mo, mt, b, o, t, output, conflicts, name)
    requires !(b == |base| && o == |ours| && t == |theirs|)
    ensures |mo| == |mt| == |base| && b <= b' <= |base| && o <= o' <= |ours| && t <= t' <= |theirs| && b + o + t < b' + o' + t'
    ensures if b < |base| && mo[b] == o && mt[b] == t then c == Stable(base[b]) && b' == b + 1 && o' == o + 1 && t' == t + 1
            else
              && c == Changed(base[b..b'], ours[o..o'], theirs[t..t'])
              && b' == NextStable(mo, mt, b)
              && o' == (if b' < |base| then mo[b'] else |ours|) && t' == if b' < |base| then mt[b'] else |theirs|
    ensures Merging(base, ours, theirs, mo, mt, b', o', t', output + Resolved(c, name), conflicts + if Conflicting(c) then 1 else 0, name)
  {
    hide *;
    MergingParts(base, ours, theirs, mo, mt, b, o, t, output, conflicts, name);
    MergingLengths(base, ours, theirs, mo, mt, b, o, t, output, conflicts, name);
    c, b', o', t' := ChunksStep(base, ours, theirs, mo, mt, b, o, t);
    var rest := Chunks(base, ours, theirs, mo, mt, b', o', t');
    Cons(c, rest, name);
    assert output + (Resolved(c, name) + ResolvedAll(rest, name)) == output + Resolved(c, name) + ResolvedAll(rest, name);
    MakeMerging(base, ours, theirs, mo, mt, b', o', t', output + Resolved(c, name), conflicts + if Conflicting(c) then 1 else 0, name);
  }

  lemma MergingParts(base: seq<Line>, ours: seq<Line>, theirs: seq<Line>, mo: seq<int>, mt: seq<int>, b: nat, o: nat, t: nat,
                     output: seq<Line>, conflicts: nat, name: string)
    requires Merging(base, ours, theirs, mo, mt, b, o, t, output, conflicts, name)
    ensures Aligned(base, ours, mo, 0, 0) && Aligned(base, theirs, mt, 0, 0) && Aligned(base, ours, mo, b, o) && Aligned(base, theirs, mt, b, t)
    ensures var all, rest := Chunks(base, ours, theirs, mo, mt, 0, 0, 0), Chunks(base, ours, theirs, mo, mt, b, o, t);
            ResolvedAll(all, name) == output + ResolvedAll(rest, name) && Conflicts(all) == conflicts + Conflicts(rest)
  {
    hide Aligned, Chunks, ResolvedAll, Conflicts;
  }

  lemma MakeMerging(base: seq<Line>, ours: seq<Line>, theirs: seq<Line>, mo: seq<int>, mt: seq<int>, b: nat, o: nat, t: nat,
                    output: seq<Line>, conflicts: nat, name: string)
    requires Aligned(base, ours, mo, 0, 0) && Aligned(base, theirs, mt, 0, 0) && Aligned(base, ours, mo, b, o) && Aligned(base, theirs, mt, b, t)
    requires var all, rest := Chunks(base, ours, theirs, mo, mt, 0, 0, 0), Chunks(base, ours, theirs, mo, mt, b, o, t);
             ResolvedAll(all, name) == output + ResolvedAll(rest, name) && Conflicts(all) == conflicts + Conflicts(rest)
    ensures Merging(base, ours, theirs, mo, mt, b, o, t, output, conflicts, name)
  {
    hide Aligned, Chunks, ResolvedAll, Conflicts;
  }

  lemma MergingDone(base: seq<Line>, ours: seq<Line>, theirs: seq<Line>, mo: seq<int>, mt: seq<int>, output: seq<Line>, conflicts: nat, name: string)
    requires Merging(base, ours, theirs, mo, mt, |base|, |ours|, |theirs|, output, conflicts, name)
    ensures Merged(base, ours, theirs, mo, mt, output, conflicts, name)
  {
  }

  // The output and conflicts of merging the chunks one by one.
  ghost predicate Merged(base: seq<Line>, ours: seq<Line>, theirs: seq<Line>, mo: seq<int>, mt: seq<int>, output: seq<Line>, conflicts: nat, name: string)
  {
    && Aligned(base, ours, mo, 0, 0) && Aligned(base, theirs, mt, 0, 0)
    && var cs := Chunks(base, ours, theirs, mo, mt, 0, 0, 0); output == ResolvedAll(cs, name) && conflicts == Conflicts(cs)
  }

  lemma MergedStart(base: seq<Line>, ours: seq<Line>, theirs: seq<Line>, mo: seq<int>, mt: seq<int>, name: string)
    requires Matched(mo, base, ours) && Matched(mt, base, theirs)
    ensures Merging(base, ours, theirs, mo, mt, 0, 0, 0, [], 0, name)
  {
    hide Chunks, ResolvedAll, Conflicts;
    assert [] + ResolvedAll(Chunks(base, ours, theirs, mo, mt, 0, 0, 0), name) == ResolvedAll(Chunks(base, ours, theirs, mo, mt, 0, 0, 0), name);
  }

  // The chunks a matcher cuts three texts into.
  function ChunksOf(blocker: Blocker, base: seq<Line>, ours: seq<Line>, theirs: seq<Line>): seq<Chunk>
    requires Blocks(blocker)
  {
    AlignedStart(blocker, base, ours);
    AlignedStart(blocker, base, theirs);
    Chunks(base, ours, theirs, MatchesOf(blocker, base, ours), MatchesOf(blocker, base, theirs), 0, 0, 0)
  }

  lemma AlignedStart(blocker: Blocker, base: seq<Line>, side: seq<Line>)
    requires Blocks(blocker)
    ensures Aligned(base, side, MatchesOf(blocker, base, side), 0, 0)
  {
    MatchesFit(blocker, base, side);
  }

  // The merged lines and the number of conflicts among them.
  function MergeOf(blocker: Blocker, base: seq<Line>, ours: seq<Line>, theirs: seq<Line>, name: string): (seq<Line>, nat)
    requires Blocks(blocker)
  {
    (ResolvedAll(ChunksOf(blocker, base, ours, theirs), name), Conflicts(ChunksOf(blocker, base, ours, theirs)))
  }

  lemma MergedIs(blocker: Blocker, base: seq<Line>, ours: seq<Line>, theirs: seq<Line>, output: seq<Line>, conflicts: nat, name: string)
    requires Blocks(blocker)
    ensures (output, conflicts) == MergeOf(blocker, base, ours, theirs, name) <==>
              Merged(base, ours, theirs, MatchesOf(blocker, base, ours), MatchesOf(blocker, base, theirs), output, conflicts, name)
  {
    AlignedStart(blocker, base, ours);
    AlignedStart(blocker, base, theirs);
    hide Aligned, Chunks, ResolvedAll, Conflicts, MatchesOf;
  }

  /** A merge tiles the three texts: every line of each is in exactly one chunk, in order. */
  lemma MergeTiles(blocker: Blocker, base: seq<Line>, ours: seq<Line>, theirs: seq<Line>)
    requires Blocks(blocker)
    ensures var cs := ChunksOf(blocker, base, ours, theirs); BaseOf(cs) == base && OursOf(cs) == ours && TheirsOf(cs) == theirs
  {
    AlignedStart(blocker, base, ours);
    AlignedStart(blocker, base, theirs);
    ChunksTile(base, ours, theirs, MatchesOf(blocker, base, ours), MatchesOf(blocker, base, theirs), 0, 0, 0);
  }

  /** Merging the sides the other way round gives as many conflicts, and, without conflicts, the same text. */
  lemma MergeOfSwapped(blocker: Blocker, base: seq<Line>, ours: seq<Line>, theirs: seq<Line>, name: string)
    requires Blocks(blocker)
    ensures var (output, conflicts), (output', conflicts') := MergeOf(blocker, base, ours, theirs, name), MergeOf(blocker, base, theirs, ours, name);
            conflicts' == conflicts && (conflicts == 0 ==> output' == output)
  {
    AlignedStart(blocker, base, ours);
    AlignedStart(blocker, base, theirs);
    MergeSwapped(base, ours, theirs, MatchesOf(blocker, base, ours), MatchesOf(blocker, base, theirs), 0, 0, 0, name);
  }

  /** Identical sides give themselves.  Where the matcher finds the base in itself, a side equal
      to it gives the other. */
  lemma MergeLaws(blocker: Blocker, base: seq<Line>, ours: seq<Line>, theirs: seq<Line>, name: string)
    requires Blocks(blocker)
    ensures ours == theirs ==> MergeOf(blocker, base, ours, theirs, name) == (ours, 0)
    ensures MatchesSelf(blocker, base) && ours == base ==> MergeOf(blocker, base, ours, theirs, name) == (theirs, 0)
    ensures MatchesSelf(blocker, base) && theirs == base ==> MergeOf(blocker, base, ours, theirs, name) == (ours, 0)
  {
    AlignedStart(blocker, base, ours);
    AlignedStart(blocker, base, theirs);
    var mo, mt := MatchesOf(blocker, base, ours), MatchesOf(blocker, base, theirs);
    hide Chunks, ResolvedAll, Conflicts, Identity, Aligned, MatchesOf;
    if ours == theirs {
      MergeSame(base, ours, mo, 0, 0, name);
    }
    if MatchesSelf(blocker, base) && ours == base {
      MergeUnchangedOurs(base, theirs, mo, mt, 0, 0, name);
    }
    if MatchesSelf(blocker, base) && theirs == base {
      MergeUnchangedTheirs(base, ours, mo, mt, 0, 0, name);
    }
  }

  // Lines that all end in a newline.
  predicate FullLines(lines: seq<Line>) { forall k :: 0 <= k < |lines| ==> FullLine(lines[k]) }

  lemma FullText(p: seq<Line>, q: seq<Line>)
    requires FullLines(p) && TextLines(q)
    ensures TextLines(p + q)
  {
    hide OneLine;
    FullParts(p);
  }

  lemma FullParts(p: seq<Line>)
    requires FullLines(p)
    ensures forall k :: 0 <= k < |p| ==> p[k] != "" && OneLine(p[k]) && EndsLine(p[k])
  {
  }

  // A stretch of a text is a text, and full when the text goes on behind it.
  lemma TextPart(s: seq<Line>, i: int, j: int)
    requires TextLines(s) && 0 <= i <= j <= |s|
    ensures TextLines(s[i..j]) && (j < |s| ==> FullLines(s[i..j]))
  {
    hide OneLine;
    if j < |s| {
      forall k | 0 <= k < j - i ensures FullLine(s[i..j][k]) {
        assert s[i..j][k] == s[i + k];
        IsFull(s[i + k]);
      }
    }
  }

  lemma IsFull(line: Line)
    requires line != "" && OneLine(line) && EndsLine(line)
    ensures FullLine(line)
  {
  }

  lemma TerminatedFull(lines: seq<Line>)
    requires TextLines(lines)
    ensures FullLines(Terminated(lines))
  {
    forall k | 0 <= k < |lines| ensures FullLine(Terminated(lines)[k]) {
      assert k < |lines| - 1 ==> EndsLine(lines[k]);
    }
  }

  lemma MarkersFull(name: string)
    requires '\n' !in name
    ensures FullLine(OursMarker()) && FullLine(Separator()) && FullLine(TheirsMarker(name))
  {
  }

  lemma ConflictFull(c: Chunk, name: string)
    requires Conflicting(c) && TextLines(c.ours) && TextLines(c.theirs) && '\n' !in name
    ensures FullLines(Resolved(c, name))
  {
    TerminatedFull(c.ours);
    TerminatedFull(c.theirs);
    MarkersFull(name);
    hide FullLine, OursMarker, Separator, TheirsMarker, Terminated;
  }

  /** A merge of texts is a text: only its last line may lack its newline. */
  lemma {:induction false} MergedText(base: seq<Line>, ours: seq<Line>, theirs: seq<Line>, mo: seq<int>, mt: seq<int>, b: nat, o: nat, t: nat, name: string)
    requires Aligned(base, ours, mo, b, o) && Aligned(base, theirs, mt, b, t)
    requires TextLines(base) && TextLines(ours) && TextLines(theirs) && '\n' !in name
    ensures TextLines(ResolvedAll(Chunks(base, ours, theirs, mo, mt, b, o, t), name))
    decreases |base| - b + |ours| - o + |theirs| - t
  {
    hide *;
    if !(b == |base| && o == |ours| && t == |theirs|) {
      AlignedLength(base, ours, mo, b, o);
      AlignedLength(base, theirs, mt, b, t);
      var c, b', o', t' := ChunksStep(base, ours, theirs, mo, mt, b, o, t);
      MergedText(base, ours, theirs, mo, mt, b', o', t', name);
      var rest := Chunks(base, ours, theirs, mo, mt, b', o', t');
      Cons(c, rest, name);
      TextPart(ours, o, o');
      TextPart(theirs, t, t');
      TextPart(base, b, b');
      if c.Stable? {
        assert base[b..b'] == [c.line] && ours[o..o'] == [c.line] && theirs[t..t'] == [c.line];
      }
      if b' == |base| && o' == |ours| && t' == |theirs| {
        NoChunks(base, ours, theirs, mo, mt, name);
        ResolvedText(c, name);
        assert Resolved(c, name) + [] == Resolved(c, name);
      } else {
        PartnerBounds(base, ours, mo, b, o, b');
        PartnerBounds(base, theirs, mt, b, t, b');
        ResolvedFull(c, name);
        FullText(Resolved(c, name), ResolvedAll(rest, name));
      }
    } else {
      NoChunks(base, ours, theirs, mo, mt, name);
    }
  }

  lemma NoChunks(base: seq<Line>, ours: seq<Line>, theirs: seq<Line>, mo: seq<int>, mt: seq<int>, name: string)
    requires Aligned(base, ours, mo, |base|, |ours|) && Aligned(base, theirs, mt, |base|, |theirs|)
    ensures var cs := Chunks(base, ours, theirs, mo, mt, |base|, |ours|, |theirs|);
            && cs == [] && ResolvedAll(cs, name) == [] && Conflicts(cs) == 0 && BaseOf(cs) == OursOf(cs) == TheirsOf(cs) == []
    ensures TextLines([])
  {
  }

  lemma PartnerBounds(base: seq<Line>, side: seq<Line>, m: seq<int>, b: nat, o: nat, k: nat)
    requires Aligned(base, side, m, b, o)
    ensures |m| == |base| && (k < |base| ==> m[k] < |side|)
  {
  }

  lemma ResolvedText(c: Chunk, name: string)
    requires if c.Stable? then TextLines([c.line]) else TextLines(c.ours) && TextLines(c.theirs)
    requires '\n' !in name
    ensures TextLines(Resolved(c, name))
  {
    if Conflicting(c) {
      ConflictFull(c, name);
      FullText(Resolved(c, name), []);
      assert Resolved(c, name) + [] == Resolved(c, name);
    }
  }

  lemma ResolvedFull(c: Chunk, name: string)
    requires if c.Stable? then FullLines([c.line]) else TextLines(c.ours) && TextLines(c.theirs) && FullLines(c.ours) && FullLines(c.theirs)
    requires '\n' !in name
    ensures FullLines(Resolved(c, name))
  {
    if Conflicting(c) {
      ConflictFull(c, name);
    }
  }

  /** A line-level three-way merge. */
  method MergeReviewLines(blocker: Blocker, base: seq<Line>, ours: seq<Line>, theirs: seq<Line>, name: string)
    returns (output: seq<Line>, conflicts: nat)
    requires Blocks(blocker)
    ensures (output, conflicts) == MergeOf(blocker, base, ours, theirs, name)
  {
    var mo := ReviewMatches(blocker, base, ours);
    var mt := ReviewMatches(blocker, base, theirs);
    output, conflicts := [], 0;
    MergedStart(base, ours, theirs, mo, mt, name);
    hide *;
    var b, o, t := 0, 0, 0;
    while true
      invariant 0 <= b <= |base| && 0 <= o <= |ours| && 0 <= t <= |theirs|
      invariant Merging(base, ours, theirs, mo, mt, b, o, t, output, conflicts, name)
      decreases |base| - b + |ours| - o + |theirs| - t
    {
      b, o, t, output := StableRun(base, ours, theirs, mo, mt, b, o, t, output, conflicts, name);
      if b == |base| && o == |ours| && t == |theirs| {
        break;
      }
      b, o, t, output, conflicts := MergeChunk(base, ours, theirs, mo, mt, b, o, t, output, conflicts, name);
    }
    MergingDone(base, ours, theirs, mo, mt, output, conflicts, name);
    MergedIs(blocker, base, ours, theirs, output, conflicts, name);
  }

  // Copies the lines all three texts share at b, o and t.
  method StableRun(base: seq<Line>, ours: seq<Line>, theirs: seq<Line>, mo: seq<int>, mt: seq<int>, b0: nat, o0: nat, t0: nat,
                   before: seq<Line>, ghost conflicts: nat, name: string)
    returns (b: nat, o: nat, t: nat, output: seq<Line>)
    requires Merging(base, ours, theirs, mo, mt, b0, o0, t0, before, conflicts, name)
    ensures b0 <= b <= |base| && o0 <= o <= |ours| && t0 <= t <= |theirs|
    ensures Merging(base, ours, theirs, mo, mt, b, o, t, output, conflicts, name)
    ensures !IsStable(mo, mt, b, o, t)
  {
    hide *;
    MergingLengths(base, ours, theirs, mo, mt, b0, o0, t0, before, conflicts, name);
    b, o, t, output := b0, o0, t0, before;
    while IsStable(mo, mt, b, o, t)
      invariant b0 <= b <= |base| && o0 <= o <= |ours| && t0 <= t <= |theirs|
      invariant Merging(base, ours, theirs, mo, mt, b, o, t, output, conflicts, name)
      decreases |base| - b
    {
      StableStep(base, ours, theirs, mo, mt, b, o, t, output, conflicts, name);
      output := output + [base[b]];
      b, o, t := b + 1, o + 1, t + 1;
    }
  }

  // Merges what lies before the next line matched on both sides.
  method MergeChunk(base: seq<Line>, ours: seq<Line>, theirs: seq<Line>, mo: seq<int>, mt: seq<int>, b: nat, o: nat, t: nat,
                    before: seq<Line>, count: nat, name: string)
    returns (next: nat, nextOurs: nat, nextTheirs: nat, output: seq<Line>, conflicts: nat)
    requires Merging(base, ours, theirs, mo, mt, b, o, t, before, count, name)
    requires b <= |base| && o <= |ours| && t <= |theirs| && !(b == |base| && o == |ours| && t == |theirs|)
    requires !IsStable(mo, mt, b, o, t)
    ensures b <= next <= |base| && o <= nextOurs <= |ours| && t <= nextTheirs <= |theirs| && b + o + t < next + nextOurs + nextTheirs
    ensures Merging(base, ours, theirs, mo, mt, next, nextOurs, nextTheirs, output, conflicts, name)
  {
    hide *;
    MergingLengths(base, ours, theirs, mo, mt, b, o, t, before, count, name);
    NotStable(mo, mt, b, o, t);
    ghost var c, b', o', t' := MergingStep(base, ours, theirs, mo, mt, b, o, t, before, count, name);
    next := FindNext(mo, mt, b);
    nextOurs, nextTheirs := |ours|, |theirs|;
    if next < |base| {
      nextOurs, nextTheirs := mo[next], mt[next];
    }
    output, conflicts := AppendResolved(before, count, base[b..next], ours[o..nextOurs], theirs[t..nextTheirs], name);
  }

  lemma MergingLengths(base: seq<Line>, ours: seq<Line>, theirs: seq<Line>, mo: seq<int>, mt: seq<int>, b: nat, o: nat, t: nat,
                       output: seq<Line>, conflicts: nat, name: string)
    requires Merging(base, ours, theirs, mo, mt, b, o, t, output, conflicts, name)
    ensures |mo| == |mt| == |base| && b <= |base| && o <= |ours| && t <= |theirs|
  {
    hide Chunks, ResolvedAll, Conflicts;
  }

  lemma StableStep(base: seq<Line>, ours: seq<Line>, theirs: seq<Line>, mo: seq<int>, mt: seq<int>, b: nat, o: nat, t: nat,
                   output: seq<Line>, conflicts: nat, name: string)
    requires Merging(base, ours, theirs, mo, mt, b, o, t, output, conflicts, name)
    requires IsStable(mo, mt, b, o, t)
    ensures b < |base| && o < |ours| && t < |theirs|
    ensures Merging(base, ours, theirs, mo, mt, b + 1, o + 1, t + 1, output + [base[b]], conflicts, name)
  {
    MergingLengths(base, ours, theirs, mo, mt, b, o, t, output, conflicts, name);
    hide Merging;
    var c, b', o', t' := MergingStep(base, ours, theirs, mo, mt, b, o, t, output, conflicts, name);
  }

  lemma NotStable(mo: seq<int>, mt: seq<int>, b: nat, o: nat, t: nat)
    requires |mo| == |mt| && !IsStable(mo, mt, b, o, t)
    ensures b < |mo| ==> !(mo[b] == o && mt[b] == t)
  {
  }

  // Base line b is matched to lines o and t.
  predicate IsStable(mo: seq<int>, mt: seq<int>, b: nat, o: nat, t: nat)
  {
    b < |mo| && b < |mt| && mo[b] == o && mt[b] == t
  }

  method FindNext(mo: seq<int>, mt: seq<int>, b: nat) returns (next: nat)
    requires |mo| == |mt| && b <= |mo|
    ensures next == NextStable(mo, mt, b)
  {
    hide NextStable;
    next := b;
    while next < |mo| && (mo[next] < 0 || mt[next] < 0)
      invariant b <= next <= |mo| && NextStable(mo, mt, next) == NextStable(mo, mt, b)
    {
      NextUnstable(mo, mt, next);
      next := next + 1;
    }
    NextStop(mo, mt, next);
  }

  method AppendResolved(before: seq<Line>, count: nat, baseChunk: seq<Line>, oursChunk: seq<Line>, theirsChunk: seq<Line>, name: string)
    returns (output: seq<Line>, conflicts: nat)
    ensures var c := Changed(baseChunk, oursChunk, theirsChunk);
            output == before + Resolved(c, name) && conflicts == count + if Conflicting(c) then 1 else 0
  {
    hide OursMarker, Separator, TheirsMarker, Terminated;
    conflicts := count;
    if oursChunk == baseChunk {
      return before + theirsChunk, count;
    }
    if theirsChunk == baseChunk || oursChunk == theirsChunk {
      return before + oursChunk, count;
    }
    conflicts := conflicts + 1;
    output := before + [OursMarker()];
    output := AppendTerminated(output, oursChunk);
    output := output + [Separator()];
    output := AppendTerminated(output, theirsChunk);
    output := output + [TheirsMarker(name)];
    assert output == before + ([OursMarker()] + Terminated(oursChunk) + [Separator()] + Terminated(theirsChunk) + [TheirsMarker(name)]);
  }

  lemma NextUnstable(mo: seq<int>, mt: seq<int>, b: nat)
    requires |mo| == |mt| && b < |mo| && (mo[b] < 0 || mt[b] < 0)
    ensures NextStable(mo, mt, b) == NextStable(mo, mt, b + 1)
  {
  }

  lemma NextStop(mo: seq<int>, mt: seq<int>, b: nat)
    requires |mo| == |mt| && b <= |mo| && (b < |mo| ==> mo[b] >= 0 && mt[b] >= 0)
    ensures NextStable(mo, mt, b) == b
  {
  }
}
