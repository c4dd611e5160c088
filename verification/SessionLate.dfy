/** Turns that are not in time: the response is created after a steer was acknowledged that its
    request was prepared without, and that belongs to no conversation the provider was sent on
    top of.  Either there is no parent, or the parent is not confirmed. */
module SessionLate {
  import opened Text
  import opened SessionItems
  import opened SessionFacts
  import opened Session
  import opened SessionRun

  // A turn without input, with a steer for its parent acknowledged before its response is created.
  function LateTurn(parent: string, item: Item, steer: string, id: string): Turn
  {
    Turn([], Empty(parent), [Submitted(parent, Some([item])), Controlled(Control.Accepted(steer, parent))], [], Ended(Completed, id, []))
  }

  function Empty(parent: string): Command { Create(true, map[], parent, Some([]), 0) }

  // A turn whose response fails.
  function FailedTurn(id: string): Turn { Turn([], Empty(""), [], [], Ended(Unsuccessful, id, [])) }

  lemma LateSizes(s: SessionHistory, parent: string, item: Item, steer: string, id: string)
    ensures var turn := LateTurn(parent, item, steer, id);
            && SidesSize(turn.early) == 0 && s.Needs(turn.command) == 0 && SidesSize(turn.late[..1]) == SidesSize(turn.late) == |item.raw|
            && TurnSize(s, turn) == |item.raw|
  {
    var late := LateTurn(parent, item, steer, id).late;
    SizeNext([], item);
    assert [] + [item] == [item];
    assert late[..1] == [late[0]] && late[..1][..0] == [];
  }

  lemma LateSteers(s: SessionHistory, parent: string, item: Item, steer: string, id: string)
    requires s.steers == [] && s.retainedBytes + |item.raw| <= s.budget && steer != ""
    ensures var turn := LateTurn(parent, item, steer, id); Prepared(s, turn) == [] && Admitted(s, turn) == [item]
  {
    var turn := LateTurn(parent, item, steer, id);
    LateSizes(s, parent, item, steer, id);
    SteersIs(s, turn);
    var late := turn.late;
    assert late[..1] == [late[0]] && late[..1][..0] == [];
    hide SidesSize, Size;
    assert [] + [Steer("", parent, [item])] == [Steer("", parent, [item])];
    assert AfterSides([], s.retainedBytes, s.budget, late[..1]) == [Steer("", parent, [item])];
    assert Meant(Steer("", parent, [item]), late[1].control);
    assert AfterSides([], s.retainedBytes, s.budget, late) == [Steer(steer, parent, [item])];
    assert [] + [item] == [item];
  }

  lemma LateShape(s: SessionHistory, parent: string, item: Item, steer: string, id: string)
    ensures var turn := LateTurn(parent, item, steer, id);
            && turn.end.Ended? && turn.end.id == id && turn.end.output == [] && turn.during == [] && turn.command == Empty(parent)
            && turn.end.end.Successful() && turn.end.end.Terminal() && turn.command.Create? && turn.command.valid && !turn.command.Multiplexed()
            && s.InputOf(turn.command) == Some([]) && s.ParentID(turn.command) == parent && !turn.command.Automatic?
  {
  }

  // Nothing is sent of the steer, and nothing is known of the parent.
  lemma LateTold(s: SessionHistory, parent: string, item: Item, steer: string, id: string)
    requires s.Valid() && s.steers == [] && s.retainedBytes + |item.raw| <= s.budget && steer != ""
    requires (parent == "" || parent in s.histories) && s.ParentItems(Empty(parent)) == [] && !Evidence(s, Empty(parent)).confirmed
    ensures var turn := LateTurn(parent, item, steer, id);
            && turn.end.Ended? && turn.end.id == id && turn.end.output == [] && turn.during == [] && turn.command == Empty(parent)
            && turn.end.end.Successful() && turn.end.end.Terminal()
            && s.InputOf(turn.command) == Some([]) && Admitted(s, turn) == [item] && TurnSize(s, turn) == |item.raw|
            && WireFor(s, turn, x => x) == Wire([], "") && ToldFor(s, turn, x => x) == [] && Certain(s, turn, x => x)
            && Dispatchable(s, turn.command, x => x, (fields, input) => true, Prepared(s, turn), s.retainedBytes + SidesSize(turn.early))
    ensures !InTime(s, LateTurn(parent, item, steer, id))
  {
    hide *;
    var turn := LateTurn(parent, item, steer, id);
    LateShape(s, parent, item, steer, id);
    LateSizes(s, parent, item, steer, id);
    LateSteers(s, parent, item, steer, id);
    SentInFull(s, turn);
    Ready(s, turn);
    OneSteer(s, turn, item);
  }

  lemma SentInFull(s: SessionHistory, turn: Turn)
    requires s.Valid() && s.InputOf(turn.command) == Some([]) && Prepared(s, turn) == [] && s.ParentItems(turn.command) == []
    requires !Evidence(s, turn.command).confirmed && !turn.command.Automatic?
    ensures WireFor(s, turn, x => x) == Wire([], "") && ToldFor(s, turn, x => x) == [] && Certain(s, turn, x => x)
  {
    hide SessionHistory.Valid, Prepared, Admitted, Evidence, Before;
    var none: seq<Item> := [];
    assert none + none + none == none && Normal(s.normal, none) == [];
  }

  lemma Ready(s: SessionHistory, turn: Turn)
    requires s.Valid() && s.InputOf(turn.command) == Some([]) && turn.command.Create? && turn.command.valid && !turn.command.Multiplexed()
    requires (s.ParentID(turn.command) == "" || s.ParentID(turn.command) in s.histories) && s.retainedBytes <= s.budget && s.Needs(turn.command) == 0 && SidesSize(turn.early) == 0
    ensures Dispatchable(s, turn.command, x => x, (fields, input) => true, Prepared(s, turn), s.retainedBytes + SidesSize(turn.early))
  {
    hide SessionHistory.Valid, Prepared, Evidence, Before, SidesSize;
  }

  lemma OneSteer(s: SessionHistory, turn: Turn, item: Item)
    requires s.Valid() && Prepared(s, turn) == [] && Admitted(s, turn) == [item] && !Evidence(s, turn.command).confirmed
    ensures !InTime(s, turn)
  {
    hide SessionHistory.Valid, Prepared, Admitted, Evidence;
    assert |Normal(s.normal, [item])| == 1 && |Normal(s.normal, [])| == 0;
  }

  lemma NewFaithful(s: SessionHistory)
    requires s.Valid() && s.nodes == [] && s.histories == map[] && s.doubtful == {}
    ensures Faithful(s) && s.ParentItems(Empty("")) == [] && !Evidence(s, Empty("")).confirmed
  {
    ValidParts(s);
    hide SessionHistory.Valid;
  }

  lemma LateConversation(normal: Normalizer, item: Item)
    ensures [] + [item] + [] + Merged(ItemsIn([]), []) == [item] && [] + Normal(normal, Merged(ItemsIn([]), [])) == []
  {
  }

  lemma LateWhole(s: SessionHistory, item: Item, id: string)
    requires Linked(s.nodes) && id in s.histories && s.histories[id] < |s.nodes|
    requires Items(s.nodes, s.histories[id]) == [item] && s.nodes[s.histories[id]].provider == Fingerprint([], true)
    ensures !Faithful(s)
  {
    hide Linked, Items, Faithful;
    assert |Normal(s.normal, [item])| == 1;
    Unfaithful(s, id);
  }

  /** A first turn: the session takes the steer into the response's conversation, but the provider was
      told nothing of it, so that what it has confirmed is not what the session would replay. */
  method SteeredAside(normal: Normalizer, budget: nat, item: Item, steer: string, id: string) returns (s: SessionHistory)
    requires |item.raw| <= budget && steer != "" && id != ""
    ensures s.Valid() && Linked(s.nodes) && s.histories.Keys == {id} && s.histories[id] < |s.nodes|
    ensures Items(s.nodes, s.histories[id]) == [item] && s.held == map[id := []] && s.nodes[s.histories[id]].provider == Fingerprint([], true)
    ensures !Faithful(s)
  {
    hide *;
    s := new SessionHistory(normal, budget);
    NewFaithful(s);
    LateTold(s, "", item, steer, id);
    LateConversation(normal, item);
    var ok := TakeTurn(s, LateTurn("", item, steer, id), x => x, (fields, input) => true);
    ValidParts(s);
    LateWhole(s, item, id);
  }

  // The failed response has no conversation, and is not confirmed.
  lemma FailedTold(s: SessionHistory, id: string)
    requires s.Valid() && s.steers == [] && s.retainedBytes <= s.budget && s.ParentItems(Empty("")) == [] && s.nodes == [] && s.histories == map[]
    ensures var turn := FailedTurn(id);
            && turn.end.Ended? && turn.end.id == id && turn.end.output == [] && turn.during == [] && !turn.end.end.Successful() && turn.end.end.Terminal() && turn.command == Empty("")
            && s.InputOf(turn.command) == Some([]) && Admitted(s, turn) == [] && TurnSize(s, turn) == 0 && Left(s, turn) == []
            && Dispatchable(s, turn.command, x => x, (fields, input) => true, Prepared(s, turn), s.retainedBytes + SidesSize(turn.early))
  {
    hide SessionHistory.Valid;
  }

  lemma FailedConversation(s: SessionHistory, failed: string)
    requires s.Valid() && Linked(s.nodes) && |s.nodes| == 1 && s.histories == map[failed := 0] && s.nodes[0].provider == EMPTY
    requires Items(s.nodes, 0) == [] + [] + [] + Merged(ItemsIn([]), [])
    ensures s.ParentItems(Empty(failed)) == [] && !Evidence(s, Empty(failed)).confirmed
  {
    EvidenceIs(s, Empty(failed));
    hide SessionHistory.Valid, Linked, Items, Evidence;
  }

  /** A second turn, on top of a response that failed: it is sent in full, and the steer for the
      failed response is not part of it. */
  method SteeredAstray(normal: Normalizer, budget: nat, item: Item, steer: string, failed: string, id: string) returns (s: SessionHistory)
    requires |item.raw| <= budget && steer != "" && failed != "" && id != "" && id != failed
    ensures s.Valid() && Linked(s.nodes) && s.histories.Keys == {failed, id} && s.histories[id] < |s.nodes|
    ensures Items(s.nodes, s.histories[id]) == [item] && s.held == map[id := []] && s.nodes[s.histories[id]].provider == Fingerprint([], true)
    ensures !Faithful(s)
  {
    hide *;
    s := new SessionHistory(normal, budget);
    NewFaithful(s);
    FailedTold(s, failed);
    var ok := TakeTurn(s, FailedTurn(failed), x => x, (fields, input) => true);
    ValidParts(s);
    FailedConversation(s, failed);
    LateTold(s, failed, item, steer, id);
    LateConversation(normal, item);
    ok := TakeTurn(s, LateTurn(failed, item, steer, id), x => x, (fields, input) => true);
    ValidParts(s);
    LateWhole(s, item, id);
  }
}
