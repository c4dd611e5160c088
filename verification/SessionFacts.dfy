/** The history tree of one connection, and the ledger that shows no submitted steer is lost or
    used twice. */
module SessionFacts {
  import opened Text
  import opened SessionItems

  /** One response of the conversation: what it added to its parent's conversation.  Nodes refer
      to each other by their place in the session's list. */
  datatype HistoryNode = HistoryNode(parent: Option<nat>, input: seq<Item>, output: seq<Item>, provider: Fingerprint, settings: map<string, string>)

  datatype Steer = Steer(id: string, parent: string, input: seq<Item>)

  predicate Linked(nodes: seq<HistoryNode>)
  {
    forall n :: 0 <= n < |nodes| && nodes[n].parent.Some? ==> nodes[n].parent.value < n
  }

  // The conversation up to and with node n.
  function Items(nodes: seq<HistoryNode>, n: nat): seq<Item>
    requires Linked(nodes) && n < |nodes|
    decreases n
  {
    (if nodes[n].parent.Some? then Items(nodes, nodes[n].parent.value) else []) + nodes[n].input + nodes[n].output
  }

  // One node may have changed, but not what it continues.
  predicate OnlyNode(was: seq<HistoryNode>, now: seq<HistoryNode>, n: nat)
  {
    |now| == |was| && n < |was| && now[n].parent == was[n].parent && now[n].settings == was[n].settings && forall k :: 0 <= k < |was| && k != n ==> now[k] == was[k]
  }

  // What a node continues.
  function Before(nodes: seq<HistoryNode>, parent: Option<nat>): seq<Item>
    requires Linked(nodes) && (parent.Some? ==> parent.value < |nodes|)
  {
    if parent.Some? then Items(nodes, parent.value) else []
  }

  // Later nodes do not matter to a node's conversation.
  lemma {:induction false} ItemsKept(was: seq<HistoryNode>, now: seq<HistoryNode>, n: nat)
    requires Linked(was) && Linked(now) && n < |was| && n < |now|
    requires forall k :: 0 <= k <= n ==> now[k].parent == was[k].parent && now[k].input == was[k].input && now[k].output == was[k].output
    ensures Items(now, n) == Items(was, n)
    decreases n
  {
    if was[n].parent.Some? {
      ItemsKept(was, now, was[n].parent.value);
    }
  }

  // ----- Steering

  predicate Matches(steer: Steer, parent: string) { steer.id != "" && steer.parent == parent }

  /** Of the steers in front of one more, what is acknowledged for the parent and what is not stays; it
      joins the one if it has a name and this parent, and the other if not. */
  lemma {:induction false} AckedMeans(steers: seq<Steer>, steer: Steer, parent: string)
    ensures var mine := steer.id != "" && steer.parent == parent;
            && Acked(steers + [steer], parent) == Acked(steers, parent) + (if mine then steer.input else [])
            && Others(steers + [steer], parent) == Others(steers, parent) + (if mine then [] else [steer])
    decreases |steers|
  {
    if steers == [] {
      assert ([] + [steer])[1..] == [] && ([] + [steer])[0] == steer;
    } else {
      assert (steers + [steer])[1..] == steers[1..] + [steer] && (steers + [steer])[0] == steers[0];
      AckedMeans(steers[1..], steer, parent);
    }
  }

  // The acknowledged steers for a parent, in order.
  function Acked(steers: seq<Steer>, parent: string): seq<Item>
  {
    if steers == [] then [] else (if Matches(steers[0], parent) then steers[0].input else []) + Acked(steers[1..], parent)
  }

  function Others(steers: seq<Steer>, parent: string): seq<Steer>
  {
    if steers == [] then [] else (if Matches(steers[0], parent) then [] else [steers[0]]) + Others(steers[1..], parent)
  }

  lemma {:induction false} AckedNext(steers: seq<Steer>, parent: string, n: nat)
    requires n < |steers|
    ensures Acked(steers[..n + 1], parent) == Acked(steers[..n], parent) + if Matches(steers[n], parent) then steers[n].input else []
    ensures Others(steers[..n + 1], parent) == Others(steers[..n], parent) + if Matches(steers[n], parent) then [] else [steers[n]]
  {
    if n > 0 {
      AckedNext(steers[1..], parent, n - 1);
      assert steers[1..][..n] == steers[..n + 1][1..] && steers[1..][..n - 1] == steers[..n][1..];
    }
  }

  // Committed steers are gone: nothing acknowledged is left for that parent.
  lemma {:induction false} NoneLeft(steers: seq<Steer>, parent: string)
    ensures Acked(Others(steers, parent), parent) == []
  {
    if steers != [] {
      NoneLeft(steers[1..], parent);
      var rest := Others(steers[1..], parent);
      if !Matches(steers[0], parent) {
        assert Others(steers, parent) == [steers[0]] + rest && ([steers[0]] + rest)[1..] == rest;
      } else {
        assert Others(steers, parent) == rest;
      }
    }
  }

  // What became of a submitted steer.
  datatype Fate = Waiting | Failed | Taken(node: nat)

  /** Every steer ever submitted, in order, and what became of it: the waiting ones in order, and
      for each node the ones its input starts with and its own input behind them. */
  datatype Ledger = Ledger(submitted: seq<seq<Item>>, fates: seq<Fate>, waiting: seq<nat>, taken: seq<seq<nat>>, own: seq<seq<Item>>)

  function Inputs(submitted: seq<seq<Item>>, which: seq<nat>): seq<Item>
    requires forall k :: 0 <= k < |which| ==> which[k] < |submitted|
  {
    if which == [] then [] else submitted[which[0]] + Inputs(submitted, which[1..])
  }

  predicate Distinct(s: seq<nat>) { forall k, l :: 0 <= k < l < |s| ==> s[k] != s[l] }

  ghost predicate WaitingFits(l: Ledger, steers: seq<Steer>)
  {
    && |l.fates| == |l.submitted| && |l.waiting| == |steers|
    && (forall k :: 0 <= k < |steers| ==> l.waiting[k] < |l.submitted| && steers[k].input == l.submitted[l.waiting[k]])
    && (forall k, m :: 0 <= k < m < |l.waiting| ==> l.waiting[k] < l.waiting[m])
    && (forall j :: 0 <= j < |l.fates| ==> (l.fates[j] == Waiting <==> j in l.waiting))
  }

  ghost predicate TakenFits(l: Ledger, nodes: seq<HistoryNode>)
  {
    && |l.fates| == |l.submitted| && |l.taken| == |l.own| == |nodes|
    && (forall n :: 0 <= n < |nodes| ==> NodeFits(l, nodes, n))
    && (forall j :: 0 <= j < |l.fates| && l.fates[j].Taken? ==> l.fates[j].node < |nodes| && j in l.taken[l.fates[j].node])
  }

  ghost predicate NodeFits(l: Ledger, nodes: seq<HistoryNode>, n: nat)
    requires |l.fates| == |l.submitted| && n < |l.taken| == |l.own| == |nodes|
  {
    && (forall k :: 0 <= k < |l.taken[n]| ==> l.taken[n][k] < |l.submitted| && l.fates[l.taken[n][k]] == Taken(n))
    && Distinct(l.taken[n])
    && nodes[n].input == Inputs(l.submitted, l.taken[n]) + l.own[n]
  }

  /** Conservation: each submitted steer is waiting, failed, or in the input of exactly one node,
      exactly once. */
  ghost predicate Conserved(l: Ledger, nodes: seq<HistoryNode>, steers: seq<Steer>)
  {
    WaitingFits(l, steers) && TakenFits(l, nodes)
  }

  lemma ConservedSubmit(l: Ledger, nodes: seq<HistoryNode>, steers: seq<Steer>, steer: Steer) returns (next: Ledger)
    requires Conserved(l, nodes, steers)
    ensures next == l.(submitted := l.submitted + [steer.input], fates := l.fates + [Waiting], waiting := l.waiting + [|l.submitted|])
    ensures Conserved(next, nodes, steers + [steer])
  {
    next := l.(submitted := l.submitted + [steer.input], fates := l.fates + [Waiting], waiting := l.waiting + [|l.submitted|]);
    forall n | 0 <= n < |nodes| ensures NodeFits(next, nodes, n) {
      assert NodeFits(l, nodes, n);
      InputsKept(l.submitted, next.submitted, l.taken[n]);
    }
    assert forall j :: 0 <= j < |l.fates| ==> (j in next.waiting <==> j in l.waiting);
  }

  lemma {:induction false} InputsKept(was: seq<seq<Item>>, now: seq<seq<Item>>, which: seq<nat>)
    requires was <= now && forall k :: 0 <= k < |which| ==> which[k] < |was|
    ensures Inputs(now, which) == Inputs(was, which)
  {
    if which != [] {
      InputsKept(was, now, which[1..]);
    }
  }

  lemma ConservedAck(l: Ledger, nodes: seq<HistoryNode>, steers: seq<Steer>, k: nat, id: string)
    requires Conserved(l, nodes, steers) && k < |steers|
    ensures Conserved(l, nodes, steers[k := steers[k].(id := id)])
  {
  }

  function Without<T>(s: seq<T>, k: nat): seq<T>
    requires k < |s|
  {
    s[..k] + s[k + 1..]
  }

  lemma WaitingWithout(l: Ledger, steers: seq<Steer>, k: nat, fate: Fate)
    requires WaitingFits(l, steers) && k < |steers| && fate != Waiting
    ensures WaitingFits(l.(fates := l.fates[l.waiting[k] := fate], waiting := Without(l.waiting, k)), Without(steers, k))
  {
    var next := l.(fates := l.fates[l.waiting[k] := fate], waiting := Without(l.waiting, k));
    forall i | 0 <= i < |l.fates| ensures next.fates[i] == Waiting <==> i in next.waiting {
      InWithout(l.waiting, k, i);
      assert l.fates[i] == Waiting <==> i in l.waiting;
    }
  }

  lemma InWithout(s: seq<nat>, k: nat, x: nat)
    requires k < |s| && forall i, j :: 0 <= i < j < |s| ==> s[i] < s[j]
    ensures x in Without(s, k) <==> x in s && x != s[k]
  {
    if x in s && x != s[k] {
      var m :| 0 <= m < |s| && s[m] == x;
      assert Without(s, k)[if m < k then m else m - 1] == x;
    }
  }

  lemma ConservedFail(l: Ledger, nodes: seq<HistoryNode>, steers: seq<Steer>, k: nat) returns (next: Ledger)
    requires Conserved(l, nodes, steers) && k < |steers|
    ensures next == l.(fates := l.fates[l.waiting[k] := Failed], waiting := Without(l.waiting, k))
    ensures Conserved(next, nodes, Without(steers, k))
  {
    next := l.(fates := l.fates[l.waiting[k] := Failed], waiting := Without(l.waiting, k));
    WaitingWithout(l, steers, k, Failed);
    var j := l.waiting[k];
    assert l.fates[j] == Waiting by { assert j in l.waiting; }
    forall n | 0 <= n < |nodes| ensures NodeFits(next, nodes, n) {
      assert NodeFits(l, nodes, n);
    }
  }

  // A node that takes a waiting steer still holds what it took, and so do the others.
  lemma TakeFits(l: Ledger, nodes: seq<HistoryNode>, j: nat, n: nat, waiting: seq<nat>, i: nat, input: seq<Item>)
    requires |l.fates| == |l.submitted| && |l.taken| == |l.own| == |nodes|
    requires n < |nodes| && i < |nodes| && j < |l.fates| && l.fates[j] == Waiting && l.submitted[j] == input && NodeFits(l, nodes, i)
    ensures NodeFits(l.(fates := l.fates[j := Taken(n)], waiting := waiting, taken := l.taken[n := [j] + l.taken[n]]), nodes[n := nodes[n].(input := input + nodes[n].input)], i)
  {
    if i == n {
      var now := [j] + l.taken[n];
      assert now[1..] == l.taken[n];
      assert Inputs(l.submitted, now) == l.submitted[j] + Inputs(l.submitted, l.taken[n]);
      assert forall m :: 0 <= m < |l.taken[n]| ==> l.fates[l.taken[n][m]] != Waiting;
    }
  }

  // One waiting steer goes to the front of a node's input.
  lemma ConservedTake(l: Ledger, nodes: seq<HistoryNode>, steers: seq<Steer>, k: nat, n: nat) returns (next: Ledger)
    requires Conserved(l, nodes, steers) && k < |steers| && n < |nodes|
    ensures next == l.(fates := l.fates[l.waiting[k] := Taken(n)], waiting := Without(l.waiting, k), taken := l.taken[n := [l.waiting[k]] + l.taken[n]])
    ensures Conserved(next, nodes[n := nodes[n].(input := steers[k].input + nodes[n].input)], Without(steers, k))
  {
    var j := l.waiting[k];
    next := l.(fates := l.fates[j := Taken(n)], waiting := Without(l.waiting, k), taken := l.taken[n := [j] + l.taken[n]]);
    var now := nodes[n := nodes[n].(input := steers[k].input + nodes[n].input)];
    WaitingWithout(l, steers, k, Taken(n));
    assert l.fates[j] == Waiting by { assert j in l.waiting; }
    forall i | 0 <= i < |now| ensures NodeFits(next, now, i) {
      TakeFits(l, nodes, j, n, Without(l.waiting, k), i, steers[k].input);
    }
    forall i | 0 <= i < |next.fates| && next.fates[i].Taken? ensures next.fates[i].node < |now| && i in next.taken[next.fates[i].node] {
      if i == j {
        assert next.taken[n][0] == j;
      } else {
        assert i in l.taken[l.fates[i].node];
      }
    }
  }

  // Where the steers acknowledged for a parent stand in the ledger, in order.
  function AckedOf(steers: seq<Steer>, waiting: seq<nat>, parent: string): seq<nat>
    requires |steers| <= |waiting|
  {
    if steers == [] then [] else (if Matches(steers[0], parent) then [waiting[0]] else []) + AckedOf(steers[1..], waiting[1..], parent)
  }

  /** Everything acknowledged for a parent is taken by a node, in order, in front of what it has. */
  ghost predicate Committed(was: Ledger, now: Ledger, steers: seq<Steer>, n: nat, parent: string, m: nat)
  {
    && m <= |steers| <= |was.waiting| && n < |was.taken| && |now.fates| == |was.fates|
    && var which := AckedOf(steers[m..], was.waiting[m..], parent);
       && now.submitted == was.submitted && now.own == was.own && now.taken == was.taken[n := which + was.taken[n]]
       && m <= |now.waiting| && now.waiting[..m] == was.waiting[..m]
       && forall j :: 0 <= j < |was.fates| ==> now.fates[j] == if j in which then Taken(n) else was.fates[j]
  }

  /** Committing every acknowledged steer of a parent, in order, to the front of a node's input. */
  lemma {:induction false} ConservedCommit(l: Ledger, nodes: seq<HistoryNode>, steers: seq<Steer>, n: nat, parent: string, m: nat) returns (next: Ledger)
    requires Conserved(l, nodes, steers) && n < |nodes| && m <= |steers|
    ensures Committed(l, next, steers, n, parent, m)
    ensures Conserved(next, nodes[n := nodes[n].(input := Acked(steers[m..], parent) + nodes[n].input)], steers[..m] + Others(steers[m..], parent))
    decreases |steers| - m
  {
    hide *;
    LedgerLengths(l, nodes, steers);
    if m == |steers| {
      next := l;
      NoneToCommit(l, nodes, steers, n, parent);
    } else {
      next := ConservedCommit(l, nodes, steers, n, parent, m + 1);
      CommitStep(nodes, steers, n, parent, m);
      var was := nodes[n := nodes[n].(input := Acked(steers[m + 1..], parent) + nodes[n].input)];
      var list := steers[..m + 1] + Others(steers[m + 1..], parent);
      var skipped := next;
      LedgerLengths(skipped, was, list);
      if Matches(steers[m], parent) {
        assert list[m] == steers[m] && m < |list|;
        next := ConservedTake(skipped, was, list, m, n);
      }
      CommittedStep(l, skipped, next, steers, n, parent, m);
    }
  }

  lemma NoneToCommit(l: Ledger, nodes: seq<HistoryNode>, steers: seq<Steer>, n: nat, parent: string)
    requires Conserved(l, nodes, steers) && n < |nodes|
    ensures var m := |steers|;
            && Committed(l, l, steers, n, parent, m)
            && nodes[n := nodes[n].(input := Acked(steers[m..], parent) + nodes[n].input)] == nodes && steers[..m] + Others(steers[m..], parent) == steers
  {
    assert steers[|steers|..] == [] && [] + nodes[n].input == nodes[n].input && [] + l.taken[n] == l.taken[n];
  }

  // What committing one more steer adds to the node's input, and leaves of the steers.
  lemma CommitStep(nodes: seq<HistoryNode>, steers: seq<Steer>, n: nat, parent: string, m: nat)
    requires n < |nodes| && m < |steers|
    ensures var was := nodes[n := nodes[n].(input := Acked(steers[m + 1..], parent) + nodes[n].input)];
            var list, left := steers[..m + 1] + Others(steers[m + 1..], parent), steers[..m] + Others(steers[m..], parent);
            var now := nodes[n := nodes[n].(input := Acked(steers[m..], parent) + nodes[n].input)];
            if Matches(steers[m], parent) then
              m < |list| && left == Without(list, m) && now == was[n := was[n].(input := list[m].input + was[n].input)]
            else left == list && now == was
  {
    var tail, rest := steers[m..], steers[m + 1..];
    assert tail[0] == steers[m] && tail[1..] == rest;
    hide Linked;
    if Matches(steers[m], parent) {
      assert steers[m].input + (Acked(rest, parent) + nodes[n].input) == Acked(tail, parent) + nodes[n].input;
    } else {
      assert Acked(tail, parent) == Acked(rest, parent) && Others(tail, parent) == [steers[m]] + Others(rest, parent);
    }
  }

  lemma CommittedStep(l: Ledger, skipped: Ledger, next: Ledger, steers: seq<Steer>, n: nat, parent: string, m: nat)
    requires m < |steers| && Committed(l, skipped, steers, n, parent, m + 1)
    requires if Matches(steers[m], parent) then
               && l.waiting[m] < |l.fates| && m < |skipped.waiting| && skipped.waiting[m] < |skipped.fates| && n < |skipped.taken|
               && next == skipped.(fates := skipped.fates[skipped.waiting[m] := Taken(n)], waiting := Without(skipped.waiting, m), taken := skipped.taken[n := [skipped.waiting[m]] + skipped.taken[n]])
             else next == skipped
    ensures Committed(l, next, steers, n, parent, m)
  {
    var tail, rest := steers[m..], steers[m + 1..];
    var ids := l.waiting[m + 1..];
    assert tail[0] == steers[m] && tail[1..] == rest && l.waiting[m..][0] == l.waiting[m] && l.waiting[m..][1..] == ids;
    assert skipped.waiting[..m + 1][m] == l.waiting[..m + 1][m] && skipped.waiting[..m + 1][..m] == l.waiting[..m + 1][..m];
    var which := AckedOf(rest, ids, parent);
    if Matches(steers[m], parent) {
      assert AckedOf(tail, l.waiting[m..], parent) == [l.waiting[m]] + which;
      assert [l.waiting[m]] + which + l.taken[n] == [l.waiting[m]] + (which + l.taken[n]);
      assert next.waiting[..m] == skipped.waiting[..m];
    } else {
      assert AckedOf(tail, l.waiting[m..], parent) == which;
    }
  }

  // A new node starts with its own input, and no steers.
  lemma ConservedNode(l: Ledger, nodes: seq<HistoryNode>, steers: seq<Steer>, node: HistoryNode) returns (next: Ledger)
    requires Conserved(l, nodes, steers)
    ensures next == l.(taken := l.taken + [[]], own := l.own + [node.input])
    ensures Conserved(next, nodes + [node], steers)
  {
    next := l.(taken := l.taken + [[]], own := l.own + [node.input]);
    forall n | 0 <= n < |nodes + [node]| ensures NodeFits(next, nodes + [node], n) {
      if n < |nodes| {
        assert NodeFits(l, nodes, n);
      }
    }
  }

  // Output and fingerprints are not steering's business.
  lemma ConservedOutput(l: Ledger, nodes: seq<HistoryNode>, steers: seq<Steer>, n: nat, node: HistoryNode)
    requires Conserved(l, nodes, steers) && n < |nodes| && node.input == nodes[n].input
    ensures Conserved(l, nodes[n := node], steers)
  {
    var now := nodes[n := node];
    forall i | 0 <= i < |nodes| ensures NodeFits(l, now, i) {
      assert NodeFits(l, nodes, i);
    }
  }

  /** What conservation says of any one steer. */
  lemma OnePlace(l: Ledger, nodes: seq<HistoryNode>, steers: seq<Steer>, j: nat)
    requires Conserved(l, nodes, steers) && j < |l.submitted|
    ensures l.fates[j] == Waiting <==> j in l.waiting
    ensures forall n :: 0 <= n < |l.taken| ==> Distinct(l.taken[n]) && (l.fates[j] == Taken(n) <==> j in l.taken[n])
    ensures l.fates[j].Taken? ==> l.fates[j].node < |nodes|
  {
    forall n | 0 <= n < |l.taken| ensures Distinct(l.taken[n]) && (l.fates[j] == Taken(n) <==> j in l.taken[n]) {
      assert NodeFits(l, nodes, n);
    }
  }

  lemma LedgerLengths(l: Ledger, nodes: seq<HistoryNode>, steers: seq<Steer>)
    requires Conserved(l, nodes, steers)
    ensures |l.waiting| == |steers| && |l.taken| == |l.own| == |nodes| && forall k :: 0 <= k < |steers| ==> l.waiting[k] < |l.fates|
  {
  }

  // A node may change anything but its parent.
  lemma NodeLinked(nodes: seq<HistoryNode>, n: nat, node: HistoryNode)
    requires Linked(nodes) && n < |nodes| && node.parent == nodes[n].parent
    ensures Linked(nodes[n := node])
  {
  }

  // The nodes' pieces, the last one first.
  function Chain(nodes: seq<HistoryNode>, ancestry: seq<nat>): seq<Item>
    requires forall k :: 0 <= k < |ancestry| ==> ancestry[k] < |nodes|
  {
    if ancestry == [] then [] else Chain(nodes, ancestry[1..]) + nodes[ancestry[0]].input + nodes[ancestry[0]].output
  }

  lemma {:induction false} ChainSnoc(nodes: seq<HistoryNode>, ancestry: seq<nat>, n: nat)
    requires n < |nodes| && forall k :: 0 <= k < |ancestry| ==> ancestry[k] < |nodes|
    ensures Chain(nodes, ancestry + [n]) == nodes[n].input + nodes[n].output + Chain(nodes, ancestry)
  {
    hide *;
    ChainFirst(nodes, ancestry + [n], 0);
    assert (ancestry + [n])[0..] == ancestry + [n];
    if ancestry == [] {
      ChainEnds(nodes, []);
    } else {
      ChainFirst(nodes, ancestry, 0);
      assert ancestry[0..] == ancestry;
      ChainSnoc(nodes, ancestry[1..], n);
      assert (ancestry + [n])[1..] == ancestry[1..] + [n];
      var p, q, rest := nodes[n].input + nodes[n].output, nodes[ancestry[0]].input, Chain(nodes, ancestry[1..]);
      assert p + rest + q + nodes[ancestry[0]].output == p + (rest + q + nodes[ancestry[0]].output);
    }
  }

  lemma ChainStart(nodes: seq<HistoryNode>, n: nat)
    requires Linked(nodes) && n < |nodes|
    ensures Items(nodes, n) == Before(nodes, Some(n)) + Chain(nodes, [])
  {
  }

  lemma ChainStep(nodes: seq<HistoryNode>, ancestry: seq<nat>, m: nat, all: seq<Item>)
    requires Linked(nodes) && m < |nodes| && forall k :: 0 <= k < |ancestry| ==> ancestry[k] < |nodes|
    requires all == Before(nodes, Some(m)) + Chain(nodes, ancestry)
    ensures nodes[m].parent.Some? ==> nodes[m].parent.value < m
    ensures all == Before(nodes, nodes[m].parent) + Chain(nodes, ancestry + [m])
  {
    hide *;
    BeforeStep(nodes, m);
    ChainSnoc(nodes, ancestry, m);
    var rest, piece := Before(nodes, nodes[m].parent), nodes[m].input + nodes[m].output;
    assert rest + nodes[m].input + nodes[m].output == rest + piece;
    assert rest + piece + Chain(nodes, ancestry) == rest + (piece + Chain(nodes, ancestry));
  }

  lemma BeforeStep(nodes: seq<HistoryNode>, m: nat)
    requires Linked(nodes) && m < |nodes|
    ensures nodes[m].parent.Some? ==> nodes[m].parent.value < m
    ensures Before(nodes, Some(m)) == Before(nodes, nodes[m].parent) + nodes[m].input + nodes[m].output
  {
  }

  lemma ChainEnds(nodes: seq<HistoryNode>, ancestry: seq<nat>)
    requires forall k :: 0 <= k < |ancestry| ==> ancestry[k] < |nodes|
    ensures ancestry[|ancestry|..] == [] && Chain(nodes, ancestry[|ancestry|..]) == []
    ensures Linked(nodes) ==> Before(nodes, None) == []
  {
  }

  lemma ChainFirst(nodes: seq<HistoryNode>, ancestry: seq<nat>, i: nat)
    requires i < |ancestry| && forall k :: 0 <= k < |ancestry| ==> ancestry[k] < |nodes|
    ensures Chain(nodes, ancestry[i..]) == Chain(nodes, ancestry[i + 1..]) + nodes[ancestry[i]].input + nodes[ancestry[i]].output
  {
    assert ancestry[i..][1..] == ancestry[i + 1..];
  }

  lemma NoSteers(steers: seq<Steer>, parent: string)
    ensures Acked(steers[..0], parent) == [] && Others(steers[..0], parent) == []
  {
  }
}
