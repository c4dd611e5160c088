/** The items a session exchanges with its provider: their identity, their fingerprints, and
    how streamed output is reconciled with a terminal snapshot. */
module SessionItems {
  import opened Text

  // A decoded item: its identity, empty if it has none, and its encoding.
  datatype Item = Item(id: string, raw: string)

  // ----- Fingerprints

  // An item's encoding with the order of its fields normalized.
  type Normalizer = Item -> string

  function Normal(normal: Normalizer, items: seq<Item>): (r: seq<string>)
    ensures |r| == |items|
    ensures forall k :: 0 <= k < |items| ==> r[k] == normal(items[k])
  {
    if items == [] then [] else Normal(normal, items[..|items| - 1]) + [normal(items[|items| - 1])]
  }

  lemma NormalConcat(normal: Normalizer, p: seq<Item>, q: seq<Item>)
    ensures Normal(normal, p + q) == Normal(normal, p) + Normal(normal, q)
  {
  }

  /** What a provider is known to hold.  The cumulative digest is taken to identify the
      normalized items it was computed from. */
  datatype Fingerprint = Fingerprint(items: seq<string>, confirmed: bool)

  const EMPTY := Fingerprint([], false)

  method Append(normal: Normalizer, was: Fingerprint, input: seq<Item>) returns (now: Fingerprint)
    ensures now == was.(items := was.items + Normal(normal, input))
  {
    now := was;
    assert input[..0] == [];
    for i := 0 to |input|
      invariant now == was.(items := was.items + Normal(normal, input[..i]))
    {
      assert input[..i + 1] == input[..i] + [input[i]];
      NormalConcat(normal, input[..i], [input[i]]);
      assert Normal(normal, [input[i]]) == [normal(input[i])];
      now := now.(items := now.items + [normal(input[i])]);
    }
    assert input[..|input|] == input;
  }

  function Size(items: seq<Item>): nat
  {
    if items == [] then 0 else Size(items[..|items| - 1]) + |items[|items| - 1].raw|
  }

  // ----- Streamed output against a terminal snapshot

  datatype Key = ById(id: string) | ByText(raw: string)

  // Items without an identity are only the same if their encodings are.
  function KeyOf(item: Item): Key { if item.id != "" then ById(item.id) else ByText(item.raw) }

  lemma KeyMeans(a: Item, b: Item)
    ensures KeyOf(a) == KeyOf(b) <==> a.id == b.id && (a.id == "" ==> a.raw == b.raw)
  {
  }

  // The last place of the key, or -1.
  function LastAt(items: seq<Item>, key: Key): (at: int)
    ensures -1 <= at < |items|
    ensures at >= 0 ==> KeyOf(items[at]) == key
    ensures forall k :: at < k < |items| ==> KeyOf(items[k]) != key
  {
    if items == [] then -1
    else if KeyOf(items[|items| - 1]) == key then |items| - 1
    else LastAt(items[..|items| - 1], key)
  }

  lemma SizeNext(items: seq<Item>, item: Item)
    ensures Size(items + [item]) == Size(items) + |item.raw|
  {
    assert (items + [item])[..|items|] == items;
  }

  lemma {:induction false} SizeUpdate(items: seq<Item>, at: nat, item: Item)
    requires at < |items|
    ensures Size(items[at := item]) == Size(items) - |items[at].raw| + |item.raw|
    ensures |items[at].raw| <= Size(items)
  {
    var n := |items| - 1;
    if at < n {
      SizeUpdate(items[..n], at, item);
      assert items[at := item][..n] == items[..n][at := item];
    } else {
      assert items[at := item][..n] == items[..n];
    }
  }

  // One terminal item takes the last place of its key, or a new one.
  function Put(output: seq<Item>, item: Item): seq<Item>
  {
    var at := LastAt(output, KeyOf(item));
    if at >= 0 then output[at := item] else output + [item]
  }

  function Merged(streamed: seq<Item>, terminal: seq<Item>): seq<Item>
  {
    if terminal == [] then streamed else Put(Merged(streamed, terminal[..|terminal| - 1]), terminal[|terminal| - 1])
  }

  // Merging adds no more than the terminal items.
  lemma {:induction false} MergedSize(streamed: seq<Item>, terminal: seq<Item>)
    ensures Size(Merged(streamed, terminal)) <= Size(streamed) + Size(terminal)
  {
    if terminal != [] {
      var n := |terminal| - 1;
      MergedSize(streamed, terminal[..n]);
      PutSize(Merged(streamed, terminal[..n]), terminal[n]);
    }
  }

  lemma PutSize(output: seq<Item>, item: Item)
    ensures Size(Put(output, item)) <= Size(output) + |item.raw|
  {
    var at := LastAt(output, KeyOf(item));
    if at >= 0 {
      SizeUpdate(output, at, item);
    } else {
      SizeNext(output, item);
    }
  }

  // The same identities in the same places, then more.
  predicate Extends(now: seq<Item>, was: seq<Item>)
  {
    |was| <= |now| && forall k :: 0 <= k < |was| ==> KeyOf(now[k]) == KeyOf(was[k])
  }

  lemma LastKept(now: seq<Item>, was: seq<Item>, key: Key)
    requires Extends(now, was) && |now| == |was|
    ensures LastAt(now, key) == LastAt(was, key)
  {
    var a, b := LastAt(now, key), LastAt(was, key);
    assert a >= 0 ==> KeyOf(was[a]) == key;
    assert b >= 0 ==> KeyOf(now[b]) == key;
  }

  lemma PutPlaces(output: seq<Item>, item: Item)
    ensures var now := Put(output, item);
            && Extends(now, output) && |now| <= |output| + 1
            && LastAt(now, KeyOf(item)) >= 0 && now[LastAt(now, KeyOf(item))] == item
            && forall key :: key != KeyOf(item) ==> LastAt(now, key) == LastAt(output, key) && (LastAt(output, key) >= 0 ==> now[LastAt(output, key)] == output[LastAt(output, key)])
  {
    var now := Put(output, item);
    var at := LastAt(output, KeyOf(item));
    if at >= 0 {
      LastKept(now, output, KeyOf(item));
      forall key | key != KeyOf(item) ensures LastAt(now, key) == LastAt(output, key) {
        LastKept(now, output, key);
      }
    } else {
      assert now[..|now| - 1] == output;
    }
  }

  // The last terminal item with the key, if any.
  function LastItem(terminal: seq<Item>, key: Key): Option<Item>
  {
    var at := LastAt(terminal, key);
    if at >= 0 then Some(terminal[at]) else None
  }

  lemma LastItemNext(terminal: seq<Item>, key: Key)
    requires terminal != []
    ensures var item, rest := terminal[|terminal| - 1], terminal[..|terminal| - 1];
            LastItem(terminal, key) == if KeyOf(item) == key then Some(item) else LastItem(rest, key)
  {
  }

  /** Reconciliation keeps the delivered order: every streamed item keeps its place and
      identity; and every identity the snapshot names is present with its final item. */
  lemma {:induction false} MergeKeeps(streamed: seq<Item>, terminal: seq<Item>, key: Key)
    ensures var now := Merged(streamed, terminal);
            && Extends(now, streamed)
            && (LastItem(terminal, key).Some? ==> LastAt(now, key) >= 0 && now[LastAt(now, key)] == LastItem(terminal, key).value)
            && (LastItem(terminal, key).None? ==>
                  && LastAt(now, key) == LastAt(streamed, key)
                  && (LastAt(streamed, key) >= 0 ==> now[LastAt(streamed, key)] == streamed[LastAt(streamed, key)]))
  {
    if terminal != [] {
      var n := |terminal| - 1;
      MergeKeeps(streamed, terminal[..n], key);
      PutPlaces(Merged(streamed, terminal[..n]), terminal[n]);
      LastItemNext(terminal, key);
      hide LastAt, Put, LastItem;
    }
  }

  predicate IsLast(items: seq<Item>, k: nat)
    requires k < |items|
  {
    k == LastAt(items, KeyOf(items[k]))
  }

  // Only the last place of a key is ever rewritten, and known identities add no places.
  lemma {:induction false} MergePlaces(streamed: seq<Item>, terminal: seq<Item>)
    ensures var now := Merged(streamed, terminal);
            && Extends(now, streamed)
            && (forall k :: 0 <= k < |streamed| && !IsLast(streamed, k) ==> now[k] == streamed[k])
            && (forall key :: LastAt(streamed, key) >= 0 ==> LastAt(now, key) == LastAt(streamed, key))
            && ((forall m :: 0 <= m < |terminal| ==> LastAt(streamed, KeyOf(terminal[m])) >= 0) ==> |now| == |streamed|)
  {
    if terminal != [] {
      var n := |terminal| - 1;
      MergePlaces(streamed, terminal[..n]);
      var was := Merged(streamed, terminal[..n]);
      PutPlaces(was, terminal[n]);
      PutOnce(was, terminal[n]);
      LastPlaces(was, streamed);
      hide LastAt, Merged;
      assert Merged(streamed, terminal) == Put(was, terminal[n]) by { MergedStep(streamed, terminal); }
    }
  }

  lemma MergedStep(streamed: seq<Item>, terminal: seq<Item>)
    requires terminal != []
    ensures Merged(streamed, terminal) == Put(Merged(streamed, terminal[..|terminal| - 1]), terminal[|terminal| - 1])
  {
  }

  lemma PutOnce(output: seq<Item>, item: Item)
    ensures var now := Put(output, item);
            && (forall k :: 0 <= k < |output| && k != LastAt(output, KeyOf(item)) ==> now[k] == output[k])
            && (forall key :: LastAt(output, key) >= 0 ==> LastAt(now, key) == LastAt(output, key))
            && (LastAt(output, KeyOf(item)) >= 0 ==> |now| == |output|)
  {
    PutPlaces(output, item);
    var now := Put(output, item);
    if LastAt(output, KeyOf(item)) >= 0 {
      LastKept(now, output, KeyOf(item));
    }
  }

  lemma LastPlaces(was: seq<Item>, streamed: seq<Item>)
    requires Extends(was, streamed) && forall key :: LastAt(streamed, key) >= 0 ==> LastAt(was, key) == LastAt(streamed, key)
    ensures forall k :: 0 <= k < |streamed| && !IsLast(streamed, k) ==> !IsLast(was, k)
  {
    forall k | 0 <= k < |streamed| && !IsLast(streamed, k) ensures !IsLast(was, k) {
      var key := KeyOf(streamed[k]);
      assert LastAt(streamed, key) > k;
    }
  }

  /** Reconciling twice with the same snapshot is reconciling once. */
  lemma MergeIdempotent(streamed: seq<Item>, terminal: seq<Item>)
    ensures Merged(Merged(streamed, terminal), terminal) == Merged(streamed, terminal)
  {
    var once := Merged(streamed, terminal);
    var twice := Merged(once, terminal);
    MergePlaces(once, terminal);
    forall m | 0 <= m < |terminal| ensures LastAt(once, KeyOf(terminal[m])) >= 0 {
      assert LastItem(terminal, KeyOf(terminal[m])).Some?;
      MergeKeeps(streamed, terminal, KeyOf(terminal[m]));
    }
    forall k | 0 <= k < |once| ensures twice[k] == once[k] {
      var key := KeyOf(once[k]);
      MergeKeeps(streamed, terminal, key);
      MergeKeeps(once, terminal, key);
      hide LastAt, LastItem, Merged;
      if IsLast(once, k) {
        assert LastAt(twice, key) == k;
      }
    }
  }

  /** Reconciles streamed items with the terminal snapshot. */
  method MergeOutput(streamed: seq<Item>, terminal: seq<Item>) returns (output: seq<Item>)
    ensures output == Merged(streamed, terminal)
  {
    output := streamed;
    var positions: map<Key, nat> := map[];
    for index := 0 to |streamed|
      invariant Indexed(positions, streamed[..index])
    {
      assert streamed[..index + 1] == streamed[..index] + [streamed[index]];
      IndexNext(positions, streamed[..index], streamed[index]);
      positions := positions[KeyOf(streamed[index]) := index];
    }
    assert streamed[..|streamed|] == streamed && terminal[..0] == [];
    for n := 0 to |terminal|
      invariant output == Merged(streamed, terminal[..n]) && Indexed(positions, output)
    {
      var item := terminal[n];
      assert terminal[..n + 1][..n] == terminal[..n];
      MergedStep(streamed, terminal[..n + 1]);
      var identity := KeyOf(item);
      if identity in positions {
        PutIndexed(positions, output, item);
        output := output[positions[identity] := item];
      } else {
        IndexNext(positions, output, item);
        NotIndexed(positions, output, identity);
        positions := positions[identity := |output|];
        output := output + [item];
      }
    }
    assert terminal[..|terminal|] == terminal;
  }

  // Each key's last place.
  ghost predicate Indexed(positions: map<Key, nat>, items: seq<Item>)
  {
    forall key :: if key in positions then positions[key] == LastAt(items, key) else LastAt(items, key) == -1
  }

  lemma IndexNext(positions: map<Key, nat>, items: seq<Item>, item: Item)
    requires Indexed(positions, items)
    ensures Indexed(positions[KeyOf(item) := |items|], items + [item])
  {
    var now := items + [item];
    assert now[..|now| - 1] == items;
    var next := positions[KeyOf(item) := |items|];
    forall key ensures if key in next then next[key] == LastAt(now, key) else LastAt(now, key) == -1 {
      assert if key in positions then positions[key] == LastAt(items, key) else LastAt(items, key) == -1;
    }
  }

  lemma PutIndexed(positions: map<Key, nat>, items: seq<Item>, item: Item)
    requires Indexed(positions, items) && KeyOf(item) in positions
    ensures positions[KeyOf(item)] < |items| && Put(items, item) == items[positions[KeyOf(item)] := item]
    ensures Indexed(positions, Put(items, item))
  {
    var now := Put(items, item);
    assert positions[KeyOf(item)] == LastAt(items, KeyOf(item));
    forall key ensures if key in positions then positions[key] == LastAt(now, key) else LastAt(now, key) == -1 {
      LastKept(now, items, key);
    }
  }

  lemma NotIndexed(positions: map<Key, nat>, items: seq<Item>, key: Key)
    requires Indexed(positions, items) && key !in positions
    ensures LastAt(items, key) == -1
  {
  }
}
