/** The line matcher the review code calls.  Its algorithm belongs to an external library;
    what the review code relies on is that the opcodes tile both texts, and that equal opcodes
    cover equal text.  That a text matches itself line by line is asked only where it matters. */
module Matcher {
  import opened Regions

  datatype Tag = Equal | Replace | Delete | Insert

  datatype OpCode = OpCode(tag: Tag, i1: int, i2: int, j1: int, j2: int)

  type Differ = (seq<Line>, seq<Line>) -> seq<OpCode>

  predicate OpFits(op: OpCode, a: seq<Line>, b: seq<Line>)
  {
    && 0 <= op.i1 <= op.i2 <= |a|
    && 0 <= op.j1 <= op.j2 <= |b|
    && match op.tag
       case Equal => op.i1 < op.i2 && a[op.i1..op.i2] == b[op.j1..op.j2]
       case Replace => op.i1 < op.i2 && op.j1 < op.j2
       case Delete => op.i1 < op.i2 && op.j1 == op.j2
       case Insert => op.i1 == op.i2 && op.j1 < op.j2
  }

  // The opcodes cover a[i..i2] and b[j..j2] without gaps, equal and changed stretches taking turns.
  predicate Tiles(ops: seq<OpCode>, a: seq<Line>, b: seq<Line>, i: int, j: int, i2: int, j2: int)
  {
    if ops == [] then i == i2 && j == j2
    else
      && OpFits(ops[0], a, b) && ops[0].i1 == i && ops[0].j1 == j
      && (|ops| > 1 ==> (ops[0].tag == Equal) != (ops[1].tag == Equal))
      && Tiles(ops[1..], a, b, ops[0].i2, ops[0].j2, i2, j2)
  }

  predicate AllEqual(ops: seq<OpCode>) { forall k :: 0 <= k < |ops| ==> ops[k].tag == Equal }

  ghost predicate Matches(differ: Differ)
  {
    forall a: seq<Line>, b: seq<Line> :: Tiles(differ(a, b), a, b, 0, 0, |a|, |b|)
  }

  // The matcher finds no change between the text and itself.
  predicate FindsSelf(differ: Differ, text: seq<Line>) { AllEqual(differ(text, text)) }

  // The coarsest matcher, showing that the contract can be met.
  function WholeDiffer(a: seq<Line>, b: seq<Line>): seq<OpCode>
  {
    if a == b then (if a == [] then [] else [OpCode(Equal, 0, |a|, 0, |b|)])
    else [OpCode(if a == [] then Insert else if b == [] then Delete else Replace, 0, |a|, 0, |b|)]
  }

  lemma WholeDifferMatches()
    ensures Matches(WholeDiffer) && forall text: seq<Line> :: FindsSelf(WholeDiffer, text)
  {
    forall a: seq<Line>, b: seq<Line> ensures Tiles(WholeDiffer(a, b), a, b, 0, 0, |a|, |b|) {
      var ops := WholeDiffer(a, b);
      if a == b && a != [] {
        assert a[0..|a|] == b[0..|b|];
      }
      assert ops != [] ==> ops[1..] == [];
    }
  }

  lemma {:induction false} TilesBounds(ops: seq<OpCode>, a: seq<Line>, b: seq<Line>, i: int, j: int, i2: int, j2: int)
    requires Tiles(ops, a, b, i, j, i2, j2)
    ensures i <= i2 && j <= j2
    ensures ops != [] ==> 0 <= i && 0 <= j && i2 <= |a| && j2 <= |b|
  {
    if ops != [] {
      TilesBounds(ops[1..], a, b, ops[0].i2, ops[0].j2, i2, j2);
    }
  }

  // ----- Groups of opcodes, each with some context

  type Grouper = (seq<Line>, seq<Line>, nat) -> seq<seq<OpCode>>

  function First(group: seq<OpCode>): OpCode
    requires group != []
  {
    group[0]
  }

  function Last(group: seq<OpCode>): OpCode
    requires group != []
  {
    group[|group| - 1]
  }

  predicate GroupFits(group: seq<OpCode>, a: seq<Line>, b: seq<Line>)
  {
    && group != []
    && 0 <= First(group).i1 <= Last(group).i2 <= |a| && 0 <= First(group).j1 <= Last(group).j2 <= |b|
    && Tiles(group, a, b, First(group).i1, First(group).j1, Last(group).i2, Last(group).j2)
  }

  // A group as one replacement, its context included.
  function GroupRegion(group: seq<OpCode>, a: seq<Line>, b: seq<Line>): Region
    requires GroupFits(group, a, b)
  {
    Region(First(group).i1, First(group).j1, a[First(group).i1..Last(group).i2], b[First(group).j1..Last(group).j2], false, false)
  }

  function GroupRegions(groups: seq<seq<OpCode>>, a: seq<Line>, b: seq<Line>): (rs: seq<Region>)
    requires forall k :: 0 <= k < |groups| ==> GroupFits(groups[k], a, b)
  {
    seq(|groups|, k requires 0 <= k < |groups| => GroupRegion(groups[k], a, b))
  }

  /** What grouping promises: the groups hold every change, what lies between them is equal
      text, a group has a line of context, or is a change, on every side that has lines, and an
      empty side leaves a single change. */
  ghost predicate GroupsFit(groups: seq<seq<OpCode>>, a: seq<Line>, b: seq<Line>)
  {
    && (forall k :: 0 <= k < |groups| ==> GroupFits(groups[k], a, b))
    && Carries(GroupRegions(groups, a, b), a, b)
    && (forall k :: 0 <= k < |groups| ==>
          && (a != [] ==> First(groups[k]).i1 < Last(groups[k]).i2)
          && (b != [] ==> First(groups[k]).j1 < Last(groups[k]).j2))
    && (a == [] || b == [] ==> |groups| <= 1)
  }

  ghost predicate Groups(grouper: Grouper)
  {
    forall a: seq<Line>, b: seq<Line>, n: nat :: n > 0 ==> GroupsFit(grouper(a, b, n), a, b)
  }

  // Again the coarsest choice: the whole texts as one group, unless they are equal.
  function WholeGroups(a: seq<Line>, b: seq<Line>, n: nat): seq<seq<OpCode>>
  {
    if a == b then [] else [WholeDiffer(a, b)]
  }

  lemma WholeGroupsFit()
    ensures Groups(WholeGroups)
  {
    forall a: seq<Line>, b: seq<Line>, n: nat | n > 0 ensures GroupsFit(WholeGroups(a, b, n), a, b) {
      var groups := WholeGroups(a, b, n);
      assert a[0..|a|] == a && b[0..|b|] == b;
      if a != b {
        var group := WholeDiffer(a, b);
        assert group[1..] == [];
        assert GroupFits(group, a, b);
        var rs := GroupRegions(groups, a, b);
        assert rs == [GroupRegion(group, a, b)];
        RunOne(rs[0], a, b);
      }
    }
  }
}
