/** Whole conversations of one connection: turns, with steers submitted, acknowledged and refused
    at any moment of them. */
module SessionRun {
  import opened Text
  import opened SessionItems
  import opened SessionFacts
  import opened Session

  // What may happen beside a turn.
  datatype Side = Submitted(parent: string, input: Option<seq<Item>>) | Controlled(control: Control)

  // What may happen once a response was created.
  datatype Happening = Produced(item: Item) | Beside(side: Side)

  /** One turn: what happens before it is prepared, before the response is created, and until it
      ends. */
  datatype Turn = Turn(early: seq<Side>, command: Command, late: seq<Side>, during: seq<Happening>, end: Event)

  function ItemsIn(happenings: seq<Happening>): seq<Item>
  {
    if happenings == [] then []
    else ItemsIn(happenings[..|happenings| - 1]) + match happenings[|happenings| - 1] case Produced(item) => [item] case Beside(_) => []
  }

  lemma ItemsNext(happenings: seq<Happening>, k: nat)
    requires k < |happenings|
    ensures ItemsIn(happenings[..k + 1]) == ItemsIn(happenings[..k]) + match happenings[k] case Produced(item) => [item] case Beside(_) => []
  {
    assert happenings[..k + 1][..k] == happenings[..k];
  }

  // What happens beside a turn takes of the budget.
  function SideSize(side: Side): nat
  {
    match side
    case Submitted(_, input) => if input.Some? then Size(input.value) else 0
    case Controlled(_) => 0
  }

  function SidesSize(sides: seq<Side>): nat
  {
    if sides == [] then 0 else SidesSize(sides[..|sides| - 1]) + SideSize(sides[|sides| - 1])
  }

  // An item is retained as the provider's and as the session's own.
  function DuringSize(happenings: seq<Happening>): nat
  {
    if happenings == [] then 0
    else DuringSize(happenings[..|happenings| - 1]) + match happenings[|happenings| - 1] case Produced(item) => 2 * |item.raw| case Beside(side) => SideSize(side)
  }

  lemma DuringNext(happenings: seq<Happening>, k: nat)
    requires k < |happenings|
    ensures DuringSize(happenings[..k + 1]) == DuringSize(happenings[..k]) + match happenings[k] case Produced(item) => 2 * |item.raw| case Beside(side) => SideSize(side)
  {
    assert happenings[..k + 1][..k] == happenings[..k];
  }

  lemma {:induction false} DuringGrows(happenings: seq<Happening>, k: nat)
    requires k <= |happenings|
    ensures DuringSize(happenings[..k]) <= DuringSize(happenings)
  {
    var n := |happenings| - 1;
    if k <= n {
      DuringGrows(happenings[..n], k);
      assert happenings[..n][..k] == happenings[..k];
    } else {
      assert happenings[..k] == happenings;
    }
  }

  function TurnSize(s: SessionHistory, turn: Turn): nat
    requires turn.end.Ended?
  {
    SidesSize(turn.early) + s.Needs(turn.command) + SidesSize(turn.late) + DuringSize(turn.during) + Size(turn.end.output)
  }

  // What becomes of the steers: a submitted one waits if there is room for it, and the provider
  // names or refuses the first one it can mean.
  function AfterSide(steers: seq<Steer>, side: Side, room: bool): seq<Steer>
  {
    match side
    case Submitted(parent, input) => if input.Some? && room then steers + [Steer("", parent, input.value)] else steers
    case Controlled(control) =>
      var k := FirstMeant(steers, control);
      if k == |steers| then steers
      else if control.Accepted? then steers[k := steers[k].(id := control.id)]
      else Without(steers, k)
  }

  function AfterSides(steers: seq<Steer>, retained: int, budget: int, sides: seq<Side>): seq<Steer>
  {
    if sides == [] then steers
    else AfterSide(AfterSides(steers, retained, budget, sides[..|sides| - 1]), sides[|sides| - 1], retained + SidesSize(sides) <= budget)
  }

  function AfterDuring(steers: seq<Steer>, retained: int, budget: int, happenings: seq<Happening>): seq<Steer>
  {
    if happenings == [] then steers
    else
      var was := AfterDuring(steers, retained, budget, happenings[..|happenings| - 1]);
      match happenings[|happenings| - 1]
      case Produced(_) => was
      case Beside(side) => AfterSide(was, side, retained + DuringSize(happenings) <= budget)
  }

  lemma AfterNext(steers: seq<Steer>, retained: int, budget: int, happenings: seq<Happening>, k: nat)
    requires k < |happenings|
    ensures var was, now := AfterDuring(steers, retained, budget, happenings[..k]), AfterDuring(steers, retained, budget, happenings[..k + 1]);
            now == match happenings[k] case Produced(_) => was case Beside(side) => AfterSide(was, side, retained + DuringSize(happenings[..k + 1]) <= budget)
    ensures AfterDuring(steers, retained, budget, []) == steers
  {
    assert happenings[..k + 1][..k] == happenings[..k];
    hide AfterSide, DuringSize;
  }

  // The steers left when the turn is over.
  function Left(s: SessionHistory, turn: Turn): seq<Steer>
    reads s
  {
    var steers, retained := AfterSides(s.steers, s.retainedBytes, s.budget, turn.early), s.retainedBytes + SidesSize(turn.early) + s.Needs(turn.command);
    AfterDuring(Others(AfterSides(steers, retained, s.budget, turn.late), s.ParentID(turn.command)), retained + SidesSize(turn.late), s.budget, turn.during)
  }

  // The steers acknowledged for the turn's parent when its request is prepared, and when its
  // response is created.
  function Prepared(s: SessionHistory, turn: Turn): seq<Item>
    reads s
  {
    Acked(AfterSides(s.steers, s.retainedBytes, s.budget, turn.early), s.ParentID(turn.command))
  }

  function Admitted(s: SessionHistory, turn: Turn): seq<Item>
    reads s
  {
    var steers := AfterSides(s.steers, s.retainedBytes, s.budget, turn.early);
    Acked(AfterSides(steers, s.retainedBytes + SidesSize(turn.early) + s.Needs(turn.command), s.budget, turn.late), s.ParentID(turn.command))
  }

  method Aside(s: SessionHistory, side: Side)
    requires s.Valid()
    modifies s`steers, s`ledger, s`retainedBytes
    ensures s.Valid() && s.retainedBytes == old(s.retainedBytes) + SideSize(side)
    ensures s.steers == AfterSide(old(s.steers), side, s.retainedBytes <= s.budget)
  {
    match side
    case Submitted(parent, input) =>
      var _ := s.AddSteering(parent, input);
    case Controlled(control) =>
      s.ObserveControl(control);
  }

  method Asides(s: SessionHistory, sides: seq<Side>)
    requires s.Valid()
    modifies s`steers, s`ledger, s`retainedBytes
    ensures s.Valid() && s.retainedBytes == old(s.retainedBytes) + SidesSize(sides)
    ensures s.steers == AfterSides(old(s.steers), old(s.retainedBytes), s.budget, sides)
  {
    hide SessionHistory.Valid, AfterSide, SideSize;
    for k := 0 to |sides|
      invariant s.Valid() && s.retainedBytes == old(s.retainedBytes) + SidesSize(sides[..k])
      invariant s.steers == AfterSides(old(s.steers), old(s.retainedBytes), s.budget, sides[..k])
    {
      assert sides[..k + 1][..k] == sides[..k];
      Aside(s, sides[k]);
    }
    assert sides[..|sides|] == sides;
  }

  // A turn goes on beside steering.
  method Meanwhile(s: SessionHistory, e: SessionExchange, sides: seq<Side>)
    requires e.session == s && e.Ready()
    modifies s`steers, s`ledger, s`retainedBytes
    ensures e.Ready() && s.retainedBytes == old(s.retainedBytes) + SidesSize(sides)
    ensures s.steers == AfterSides(old(s.steers), old(s.retainedBytes), s.budget, sides)
  {
    hide Conserved, Linked;
    assert s.Valid() && (e.Parent().Some? ==> e.Parent().value < |s.nodes|);
    hide SessionHistory.Valid;
    Asides(s, sides);
  }

  /** The response is created: what it continues, the steers acknowledged by now, and its own
      input are the node's conversation, and what the provider was told of. */
  method Admit(s: SessionHistory, e: SessionExchange)
    requires e.session == s && e.Ready() && !e.admitted && e.providerOutput == []
    modifies e, s
    ensures e.Ready() && s.held == old(s.held) && s.histories == old(s.histories) && s.lastID == old(s.lastID) && s.doubtful == old(s.doubtful)
    ensures e.providerOutput == [] && s.retainedBytes == old(s.retainedBytes) && s.steers == Others(old(s.steers), e.parentID)
    ensures e.providerInput.confirmed == (!e.providerUsesParent || e.providerBase.confirmed)
    ensures e.providerUsesParent == old(e.providerUsesParent) && e.providerBase == old(e.providerBase) && e.providerSuffix == old(e.providerSuffix)
    ensures e.conversation == Told(s.held, s.normal, e.Sent(), Acked(old(s.steers), e.parentID), e.automatic)
    ensures s.nodes == old(s.nodes)[e.node := old(s.nodes)[e.node].(input := Acked(old(s.steers), e.parentID) + e.own)]
    ensures old(s.nodes[e.node].output == [] && s.nodes[e.node].provider == EMPTY) ==> Underway(s, e, Acked(old(s.steers), e.parentID) + e.own, [])
  {
    hide Conserved, Committed, Linked, Acked, Others, Normal, Merged, SessionHistory.Valid, SessionHistory.Confirms, SessionExchange.Evident;
    var _ := e.ObserveProvider(Created);
    var _ := e.ObserveOutput(Created);
  }

  // Under way: the node holds its input and what was produced so far, which is also what the
  // provider has produced, and nothing of it is confirmed.
  ghost predicate Underway(s: SessionHistory, e: SessionExchange, input: seq<Item>, produced: seq<Item>)
    reads s, e
  {
    && e.session == s && e.Ready() && e.providerOutput == produced
    && s.nodes[e.node].input == input && s.nodes[e.node].output == produced && s.nodes[e.node].provider == EMPTY
  }

  // What is filed, and what the provider holds.
  ghost function Files(s: SessionHistory): (map<string, nat>, string, map<string, seq<string>>, set<string>)
    reads s
  {
    (s.histories, s.lastID, s.held, s.doubtful)
  }

  method Produce(s: SessionHistory, e: SessionExchange, item: Item, ghost input: seq<Item>, ghost produced: seq<Item>) returns (ok: bool)
    requires Underway(s, e, input, produced)
    modifies e, s
    ensures ok ==> Underway(s, e, input, produced + [item]) && s.retainedBytes == old(s.retainedBytes) + 2 * |item.raw| && s.steers == old(s.steers)
    ensures old(s.retainedBytes) + 2 * |item.raw| <= s.budget ==> ok
    ensures ok ==> e.conversation == old(e.conversation) && e.providerInput == old(e.providerInput) && e.providerUsesParent == old(e.providerUsesParent)
    ensures s.Valid() && OnlyNode(old(s.nodes), s.nodes, e.node) && Files(s) == old(Files(s))
  {
    hide Conserved, Committed, Linked, Acked, Others, Normal, Merged, SessionHistory.Valid, SessionHistory.Confirms, SessionExchange.Evident;
    e.ReadyParts();
    var err := e.ObserveProvider(ItemDone(Some(item)));
    e.ReadyParts();
    if err.Some? {
      return false;
    }
    err := e.ObserveOutput(ItemDone(Some(item)));
    ok := err.None?;
  }

  // Everything that happens until the response ends.
  method Stream(s: SessionHistory, e: SessionExchange, during: seq<Happening>, ghost input: seq<Item>) returns (ok: bool)
    requires Underway(s, e, input, [])
    modifies e, s
    ensures ok ==> Underway(s, e, input, ItemsIn(during)) && s.retainedBytes == old(s.retainedBytes) + DuringSize(during)
    ensures ok ==> s.steers == AfterDuring(old(s.steers), old(s.retainedBytes), s.budget, during)
    ensures old(s.retainedBytes) + DuringSize(during) <= s.budget ==> ok
    ensures ok ==> e.conversation == old(e.conversation) && e.providerInput == old(e.providerInput) && e.providerUsesParent == old(e.providerUsesParent)
    ensures s.Valid() && OnlyNode(old(s.nodes), s.nodes, e.node) && Files(s) == old(Files(s))
  {
    hide Conserved, Committed, Linked, Acked, Others, Normal, Merged, SessionHistory.Valid, SessionHistory.Confirms, SessionExchange.Evident;
    e.ReadyParts();
    hide AfterSide, AfterDuring;
    NothingDuring(s.steers, s.retainedBytes, s.budget);
    for k := 0 to |during|
      invariant Underway(s, e, input, ItemsIn(during[..k])) && s.Valid()
      invariant OnlyNode(old(s.nodes), s.nodes, e.node) && Files(s) == old(Files(s))
      invariant s.retainedBytes == old(s.retainedBytes) + DuringSize(during[..k])
      invariant s.steers == AfterDuring(old(s.steers), old(s.retainedBytes), s.budget, during[..k])
      invariant e.conversation == old(e.conversation) && e.providerInput == old(e.providerInput) && e.providerUsesParent == old(e.providerUsesParent)
    {
      ItemsNext(during, k);
      DuringNext(during, k);
      AfterNext(old(s.steers), old(s.retainedBytes), s.budget, during, k);
      DuringGrows(during, k + 1);
      match during[k]
      case Produced(item) =>
        ok := Produce(s, e, item, input, ItemsIn(during[..k]));
        if !ok {
          return;
        }
      case Beside(side) =>
        OneSide(s.steers, s.retainedBytes, s.budget, side);
        Meanwhile(s, e, [side]);
      e.ReadyParts();
    }
    assert during[..|during|] == during;
    return true;
  }

  lemma NothingDuring(steers: seq<Steer>, retained: int, budget: int)
    ensures AfterDuring(steers, retained, budget, []) == steers
  {
  }

  lemma OneSide(steers: seq<Steer>, retained: int, budget: int, side: Side)
    ensures SidesSize([side]) == SideSize(side) && AfterSides(steers, retained, budget, [side]) == AfterSide(steers, side, retained + SideSize(side) <= budget)
  {
    assert [side][..0] == [];
    hide AfterSide, SideSize;
  }

  // Nothing more is in doubt than an identity that was given away again.
  ghost predicate Reused(was: set<string>, now: set<string>, histories: map<string, nat>, id: string)
  {
    now == was || (id in histories && now == was + {id})
  }

  // The response ends: the provider and the session file it.
  method Finish(s: SessionHistory, e: SessionExchange, end: Event, ghost input: seq<Item>, ghost produced: seq<Item>) returns (ok: bool)
    requires Underway(s, e, input, produced) && end.Ended? && e.providerInput.confirmed
    modifies e, s
    ensures s.Valid() && OnlyNode(old(s.nodes), s.nodes, e.node)
    ensures !ok ==> s.histories == old(s.histories) && s.lastID == old(s.lastID) && Reused(old(s.doubtful), s.doubtful, s.histories, end.id)
    ensures old(s.retainedBytes) + Size(end.output) <= s.budget && (end.end.Terminal() ==> end.id != "") ==> ok
    ensures ok ==> s.retainedBytes <= old(s.retainedBytes) + Size(end.output) && (end.end.Terminal() ==> end.id != "") && s.steers == old(s.steers)
    ensures ok ==>
              var output := Merged(produced, end.output);
              && s.histories == (if end.end.Terminal() then old(s.histories)[end.id := e.node] else old(s.histories))
              && s.lastID == (if end.end.Terminal() then end.id else old(s.lastID))
              && s.held == (if end.end.Successful() then old(s.held)[end.id := old(e.conversation) + Normal(s.normal, output)] else old(s.held))
              && s.nodes[e.node].input == input && s.nodes[e.node].output == (if end.end.Terminal() then output else produced)
              && (if !end.end.Successful() then s.nodes[e.node].provider == EMPTY
                  else s.nodes[e.node].provider.confirmed && (old(e.Sure()) ==> s.nodes[e.node].provider.items == old(e.conversation) + Normal(s.normal, output)))
              && (old(e.Sure()) || !end.end.Successful() ==> s.doubtful == old(s.doubtful) - if end.end.Terminal() then {end.id} else {})
  {
    hide Conserved, Committed, Linked, Acked, Others, Normal, Merged, SessionHistory.Valid, SessionExchange.Evident;
    e.ReadyParts();
    MergedSize(produced, end.output);
    hide Size;
    var err := e.ObserveProvider(end);
    e.ReadyParts();
    if err.Some? {
      return false;
    }
    err := e.ObserveOutput(end);
    ok := err.None?;
  }

  lemma NodeItems(nodes: seq<HistoryNode>, was: seq<HistoryNode>, n: nat, parent: Option<nat>, acked: seq<Item>, own: seq<Item>, output: seq<Item>)
    requires Linked(nodes) && Linked(was) && n == |was| && n < |nodes| && was <= nodes && (parent.Some? ==> parent.value < n)
    requires nodes[n].parent == parent && nodes[n].input == acked + own && nodes[n].output == output
    ensures Items(nodes, n) == Before(was, parent) + acked + own + output
  {
    BeforeStep(nodes, n);
    if parent.Some? {
      ItemsKept(was, nodes, parent.value);
    }
    hide Items, Linked;
    assert Before(nodes, parent) + (acked + own) + output == Before(was, parent) + acked + own + output;
  }

  // ----- What is sent

  // What is known of what the provider holds for the response a command continues.
  ghost function Evidence(s: SessionHistory, command: Command): Fingerprint
    requires s.Valid()
    reads s
  {
    var id := s.ParentID(command);
    if id in s.histories then s.nodes[s.histories[id]].provider else EMPTY
  }

  // The projected request starts with what is confirmed and the steers; one that was already sent
  // is that.
  predicate Covers(normal: Normalizer, evidence: Fingerprint, steering: seq<Item>, projected: seq<Item>, automatic: bool)
  {
    var n := |evidence.items| + |steering|;
    && evidence.confirmed && n <= |projected| && (automatic ==> n == |projected|)
    && Normal(normal, projected[..n]) == evidence.items + Normal(normal, steering)
  }

  /** What is sent: the rest, under the parent's name, or everything. */
  function WireOf(normal: Normalizer, evidence: Fingerprint, id: string, steering: seq<Item>, projected: seq<Item>, automatic: bool): Wire
  {
    if Covers(normal, evidence, steering, projected, automatic) then Wire(projected[|evidence.items| + |steering|..], id)
    else Wire(projected, "")
  }

  /** The provider makes the projected request of it, if it acknowledged what the request was
      prepared with, or is sent everything: only a response it has started by itself must be
      covered. */
  lemma WireHeard(normal: Normalizer, held: map<string, seq<string>>, evidence: Fingerprint, id: string, steering: seq<Item>, projected: seq<Item>, automatic: bool,
                  acked: seq<Item>)
    requires var wire := WireOf(normal, evidence, id, steering, projected, automatic); acked == steering || wire.previous == ""
    requires automatic ==> Covers(normal, evidence, steering, projected, automatic)
    requires Covers(normal, evidence, steering, projected, automatic) ==> id != "" && id in held && held[id] == evidence.items
    ensures Told(held, normal, WireOf(normal, evidence, id, steering, projected, automatic), acked, automatic) == Normal(normal, projected)
  {
    hide Normal;
    assert [] + Normal(normal, projected) == Normal(normal, projected);
    if Covers(normal, evidence, steering, projected, automatic) {
      var n := |evidence.items| + |steering|;
      NormalConcat(normal, projected[..n], projected[n..]);
      assert projected[..n] + projected[n..] == projected && (automatic ==> projected[n..] == []);
    }
  }

  /** On true evidence an unprojected request is sent as its own input, and what the provider makes
      of it is the conversation, whatever was acknowledged. */
  lemma WireOnTop(normal: Normalizer, held: map<string, seq<string>>, evidence: Fingerprint, id: string, parent: seq<Item>, steering: seq<Item>, acked: seq<Item>,
                  own: seq<Item>, automatic: bool)
    requires evidence == Fingerprint(Normal(normal, parent), true) && id != "" && id in held && held[id] == evidence.items && (automatic ==> own == [])
    ensures Covers(normal, evidence, steering, parent + steering + own, automatic)
    ensures WireOf(normal, evidence, id, steering, parent + steering + own, automatic) == Wire(own, id)
    ensures Told(held, normal, Wire(own, id), acked, automatic) == Normal(normal, parent + acked + own)
  {
    var projected, n := parent + steering + own, |parent| + |steering|;
    assert projected[n..] == own && projected[..n] == parent + steering;
    NormalConcat(normal, parent, steering);
    NormalConcat(normal, parent, acked);
    NormalConcat(normal, parent + acked, own);
    hide Normal;
    assert Normal(normal, parent) + Normal(normal, acked) + Normal(normal, own) == Normal(normal, parent + acked + own);
  }

  // The whole conversation a command's request is prepared with.
  ghost function Requested(s: SessionHistory, command: Command, steering: seq<Item>): seq<Item>
    requires s.Valid() && s.InputOf(command).Some?
    reads s
  {
    s.ParentItems(command) + steering + s.InputOf(command).value
  }

  /** The command is accepted and can be sent: a response the provider has started by itself only
      if its projected request is covered. */
  ghost predicate Dispatchable(s: SessionHistory, command: Command, project: seq<Item> -> seq<Item>, encodable: Encoding, steering: seq<Item>, retained: int)
    requires s.Valid()
    reads s
  {
    && s.Refusal(command).None? && s.InputOf(command).Some? && retained + s.Needs(command) <= s.budget
    && encodable(s.FieldsOf(command), Requested(s, command, steering))
    && (command.Automatic? ==> Covers(s.normal, Evidence(s, command), steering, project(Requested(s, command, steering)), true))
  }

  // Prepares a turn's request, and sends what it is projected to.
  method Dispatch(s: SessionHistory, command: Command, project: seq<Item> -> seq<Item>, encodable: Encoding)
    returns (sent: Option<SessionExchange>, ghost wire: Wire)
    requires s.Valid()
    modifies s`retainedBytes, s`nodes, s`ledger, s`open
    ensures s.Valid() && old(s.nodes) <= s.nodes
    ensures sent.Some? ==> s.retainedBytes == old(s.retainedBytes) + s.Needs(command)
    ensures sent.Some? <==> old(Dispatchable(s, command, project, encodable, Acked(s.steers, s.ParentID(command)), s.retainedBytes))
    ensures sent.Some? ==>
              var e, id, steering := sent.value, s.ParentID(command), Acked(s.steers, s.ParentID(command));
              && fresh(e) && e.session == s && e.Ready() && !e.admitted && e.providerOutput == [] && s.InputOf(command) == Some(e.own)
              && e.node == |old(s.nodes)| && e.parentID == id && e.automatic == command.Automatic?
              && s.nodes == old(s.nodes) + [HistoryNode(s.ParentOf(id), e.own, [], EMPTY, old(s.SettingsOf(command)))]
              && wire == WireOf(s.normal, old(Evidence(s, command)), id, steering, project(old(Requested(s, command, steering))), e.automatic)
              && (!e.providerUsesParent || e.providerBase.confirmed)
              && e.providerUsesParent == (wire.previous != "") && (e.providerUsesParent ==> wire.previous == id) && e.providerSuffix == (if e.automatic then [] else wire.input)
  {
    hide Settled, Asked, Conserved, Linked, Acked, Normal, Told, Items, Before, SessionHistory.Valid, SessionHistory.Confirms, SessionExchange.Evident, SessionExchange.Sure,
         SessionExchange.Heard, SessionExchange.Cached, SessionExchange.CachedPrefix, Covers, Evidence;
    sent, wire := None, Wire([], "");
    ghost var steering, evidence := Acked(s.steers, s.ParentID(command)), Evidence(s, command);
    EvidenceIs(s, command);
    var prepared := s.Prepare(command, encodable);
    if prepared.Err? {
      return;
    }
    var (e, request) := prepared.value;
    e.ReadyParts();
    var sending := request.(input := project(request.input));
    CachedIs(e, sending, evidence);
    var r := e.Send(sending, true);
    e.ReadyParts();
    if r.Err? {
      return;
    }
    wire := r.value.1;
    sent := Some(e);
  }

  lemma EvidenceIs(s: SessionHistory, command: Command)
    requires s.Valid()
    ensures var id := s.ParentID(command);
            if s.ParentOf(id).Some? then s.ParentOf(id).value < |s.nodes| && Evidence(s, command) == s.nodes[s.ParentOf(id).value].provider
            else Evidence(s, command) == EMPTY
    ensures "" !in s.histories
  {
    hide Conserved, Linked;
  }

  lemma CachedIs(e: SessionExchange, request: Request, evidence: Fingerprint)
    requires e.Ready() && request.previous == e.parentID && e.node < |e.session.nodes| && (e.parentID == "" ==> e.Parent().None?)
    requires if e.Parent().Some? then e.Parent().value < |e.session.nodes| && evidence == e.session.nodes[e.Parent().value].provider else evidence == EMPTY
    ensures e.CachedPrefix(request) <==> Covers(e.session.normal, evidence, e.steering, request.input, e.automatic)
    ensures e.CachedPrefix(request) ==> |e.Cached(request).items| == |evidence.items| + |e.steering|
  {
    hide SessionExchange.Ready, SessionHistory.Valid, Normal;
  }

  // What happens before the response is created, and its creation.
  method AdmitAfter(s: SessionHistory, e: SessionExchange, late: seq<Side>)
    requires e.session == s && e.Ready() && !e.admitted && e.providerOutput == [] && e.node < |s.nodes|
    requires s.nodes[e.node].output == [] && s.nodes[e.node].provider == EMPTY
    modifies e, s
    ensures s.Valid() && Files(s) == old(Files(s)) && s.retainedBytes == old(s.retainedBytes) + SidesSize(late)
    ensures var steers := AfterSides(old(s.steers), old(s.retainedBytes), s.budget, late); var acked := Acked(steers, e.parentID);
            && Underway(s, e, acked + e.own, []) && s.steers == Others(steers, e.parentID)
            && s.nodes == old(s.nodes)[e.node := old(s.nodes)[e.node].(input := acked + e.own)]
            && e.conversation == Told(s.held, s.normal, e.Sent(), acked, e.automatic)
    ensures e.providerInput.confirmed == (!e.providerUsesParent || e.providerBase.confirmed)
    ensures e.providerUsesParent == old(e.providerUsesParent) && e.providerBase == old(e.providerBase) && e.providerSuffix == old(e.providerSuffix)
  {
    hide Conserved, Committed, Linked, Acked, Others, Normal, Told, SessionHistory.Valid, SessionHistory.Confirms, SessionExchange.Ready, Underway, AfterSides, SidesSize;
    Meanwhile(s, e, late);
    e.ReadyParts();
    Admit(s, e);
    e.ReadyParts();
  }

  // The response is created, and what the provider was told of by then.
  method Begin(s: SessionHistory, turn: Turn, project: seq<Item> -> seq<Item>, encodable: Encoding)
    returns (begun: Option<SessionExchange>, ghost wire: Wire, ghost own: seq<Item>)
    requires s.Valid()
    modifies s
    ensures s.Valid() && old(s.nodes) <= s.nodes && Files(s) == old(Files(s))
    ensures begun.Some? ==> s.retainedBytes == old(s.retainedBytes) + SidesSize(turn.early) + s.Needs(turn.command) + SidesSize(turn.late)
    ensures begun.Some? <==> old(Dispatchable(s, turn.command, project, encodable, Prepared(s, turn), s.retainedBytes + SidesSize(turn.early)))
    ensures begun.Some? ==>
              var e, steering, acked, id := begun.value, old(Prepared(s, turn)), old(Admitted(s, turn)), s.ParentID(turn.command);
              && fresh(e) && Underway(s, e, acked + own, []) && e.providerInput.confirmed && s.InputOf(turn.command) == Some(own)
              && e.node == |old(s.nodes)| && s.nodes == old(s.nodes) + [HistoryNode(s.ParentOf(id), acked + own, [], EMPTY, old(s.SettingsOf(turn.command)))]
              && wire == WireOf(s.normal, old(Evidence(s, turn.command)), id, steering, project(old(Requested(s, turn.command, steering))), turn.command.Automatic?)
              && e.conversation == Told(s.held, s.normal, wire, acked, turn.command.Automatic?)
              && (e.Sure() <==> wire.previous == "" || id !in s.doubtful)
              && old(Left(s, turn)) == AfterDuring(s.steers, s.retainedBytes, s.budget, turn.during)
  {
    hide Settled, Asked, Conserved, Committed, Linked, Acked, Others, Normal, Merged, Items, Before, Told, SessionHistory.Valid, SessionHistory.Confirms, SessionExchange.Evident,
         SessionExchange.Heard, WireOf, Covers;
    hide Underway, AfterSides, AfterDuring, Prepared, Admitted, Left, SidesSize;
    begun, wire, own := None, Wire([], ""), [];
    SteersIs(s, turn);
    EvidenceIs(s, turn.command);
    Asides(s, turn.early);
    EvidenceIs(s, turn.command);
    var sent;
    sent, wire := Dispatch(s, turn.command, project, encodable);
    if sent.None? {
      return;
    }
    var e := sent.value;
    own := e.own;
    e.ReadyParts();
    AdmitAfter(s, e, turn.late);
    ToldAs(s.held, s.normal, e.Sent(), wire, old(Admitted(s, turn)), e.automatic);
    begun := Some(e);
  }

  lemma SteersIs(s: SessionHistory, turn: Turn)
    ensures var steers := AfterSides(s.steers, s.retainedBytes, s.budget, turn.early);
            && Prepared(s, turn) == Acked(steers, s.ParentID(turn.command))
            && var retained, id := s.retainedBytes + SidesSize(turn.early) + s.Needs(turn.command), s.ParentID(turn.command);
               var late := AfterSides(steers, retained, s.budget, turn.late);
               && Admitted(s, turn) == Acked(late, id)
               && Left(s, turn) == AfterDuring(Others(late, id), retained + SidesSize(turn.late), s.budget, turn.during)
  {
    hide Acked, Others, AfterSides, AfterDuring;
  }

  // A response started by the provider itself has no input, whatever the wire says.
  lemma ToldAs(held: map<string, seq<string>>, normal: Normalizer, sent: Wire, wire: Wire, steering: seq<Item>, automatic: bool)
    requires (sent.previous == "" <==> wire.previous == "") && (sent.previous != "" ==> sent.previous == wire.previous) && (automatic || sent.input == wire.input)
    ensures Told(held, normal, sent, steering, automatic) == Told(held, normal, wire, steering, automatic)
  {
  }

  // What a turn sends, and what the provider makes of it once the response is created.
  ghost function WireFor(s: SessionHistory, turn: Turn, project: seq<Item> -> seq<Item>): Wire
    requires s.Valid() && s.InputOf(turn.command).Some?
    reads s
  {
    WireOf(s.normal, Evidence(s, turn.command), s.ParentID(turn.command), Prepared(s, turn),
           project(Requested(s, turn.command, Prepared(s, turn))), turn.command.Automatic?)
  }

  ghost function ToldFor(s: SessionHistory, turn: Turn, project: seq<Item> -> seq<Item>): seq<string>
    requires s.Valid() && s.InputOf(turn.command).Some?
    reads s
  {
    Told(s.held, s.normal, WireFor(s, turn, project), Admitted(s, turn), turn.command.Automatic?)
  }

  // What the provider holds of what the turn is sent on top of is not in doubt.
  ghost predicate Certain(s: SessionHistory, turn: Turn, project: seq<Item> -> seq<Item>)
    requires s.Valid() && s.InputOf(turn.command).Some?
    reads s
  {
    WireFor(s, turn, project).previous == "" || s.ParentID(turn.command) !in s.doubtful
  }

  /** One turn, its request projected before it is sent, and however its response ends.  The session
      remembers the conversation it continues, the steers acknowledged when the response was
      created, and the turn's own input and output.  The provider holds what it was told, and the
      output, if the response ended well; and only then is the response confirmed to hold that. */
  method TakeTurn(s: SessionHistory, turn: Turn, project: seq<Item> -> seq<Item>, encodable: Encoding) returns (ok: bool)
    requires s.Valid() && turn.end.Ended?
    modifies s
    ensures s.Valid() && old(s.nodes) <= s.nodes
    ensures !ok ==> s.histories == old(s.histories) && s.lastID == old(s.lastID) && Reused(old(s.doubtful), s.doubtful, s.histories, turn.end.id)
    ensures (old(Dispatchable(s, turn.command, project, encodable, Prepared(s, turn), s.retainedBytes + SidesSize(turn.early)) &&
                 s.retainedBytes + TurnSize(s, turn) <= s.budget) && (turn.end.end.Terminal() ==> turn.end.id != "")) ==> ok
    ensures ok ==> s.retainedBytes <= old(s.retainedBytes) + TurnSize(s, turn) && (turn.end.end.Terminal() ==> turn.end.id != "")
    ensures ok ==> old(Dispatchable(s, turn.command, project, encodable, Prepared(s, turn), s.retainedBytes + SidesSize(turn.early)))
    ensures ok ==>
              var n, id, end := |old(s.nodes)|, turn.end.id, turn.end.end;
              var produced, output := ItemsIn(turn.during), Merged(ItemsIn(turn.during), turn.end.output);
              var told := old(ToldFor(s, turn, project));
              && s.histories == (if end.Terminal() then old(s.histories)[id := n] else old(s.histories))
              && s.lastID == (if end.Terminal() then id else old(s.lastID))
              && |s.nodes| == n + 1 && s.steers == old(Left(s, turn))
              && Items(s.nodes, n) == old(s.ParentItems(turn.command)) + old(Admitted(s, turn)) + s.InputOf(turn.command).value + (if end.Terminal() then output else produced)
              && s.held == (if end.Successful() then old(s.held)[id := told + Normal(s.normal, output)] else old(s.held))
              && s.nodes[n].settings == old(s.SettingsOf(turn.command))
              && (if !end.Successful() then s.nodes[n].provider == EMPTY
                  else s.nodes[n].provider.confirmed && (old(Certain(s, turn, project)) ==> s.nodes[n].provider.items == told + Normal(s.normal, output)))
              && (old(Certain(s, turn, project)) || !end.Successful() ==> s.doubtful == old(s.doubtful) - if end.Terminal() then {id} else {})
  {
    hide Settled, Asked, Conserved, Committed, Linked, Acked, Others, Normal, Merged, Items, Before, Told, SessionHistory.Valid, SessionHistory.Confirms, SessionExchange.Evident,
         SessionExchange.Heard, Covers, WireOf, Prepared, Admitted, Left, AfterDuring, Evidence;
    ghost var was, parentOf := s.nodes, s.ParentOf(s.ParentID(turn.command));
    ValidParts(s);
    ok := false;
    var begun;
    ghost var wire, own;
    begun, wire, own := Begin(s, turn, project, encodable);
    if begun.None? {
      return;
    }
    var e := begun.value;
    e.ReadyParts();
    ok := Follow(s, e, turn, old(Admitted(s, turn)) + own);
    if ok {
      ValidParts(s);
      NodeItems(s.nodes, was, e.node, parentOf, old(Admitted(s, turn)), own, s.nodes[e.node].output);
    }
  }

  // What follows the creation of a response.
  method Follow(s: SessionHistory, e: SessionExchange, turn: Turn, ghost input: seq<Item>) returns (ok: bool)
    requires Underway(s, e, input, []) && turn.end.Ended? && e.providerInput.confirmed
    modifies e, s
    ensures s.Valid() && OnlyNode(old(s.nodes), s.nodes, e.node)
    ensures !ok ==> s.histories == old(s.histories) && s.lastID == old(s.lastID) && Reused(old(s.doubtful), s.doubtful, s.histories, turn.end.id)
    ensures old(s.retainedBytes) + DuringSize(turn.during) + Size(turn.end.output) <= s.budget && (turn.end.end.Terminal() ==> turn.end.id != "") ==> ok
    ensures ok ==> s.retainedBytes <= old(s.retainedBytes) + DuringSize(turn.during) + Size(turn.end.output) && (turn.end.end.Terminal() ==> turn.end.id != "")
    ensures ok ==> s.steers == AfterDuring(old(s.steers), old(s.retainedBytes), s.budget, turn.during)
    ensures ok ==>
              var end, id, produced, output := turn.end.end, turn.end.id, ItemsIn(turn.during), Merged(ItemsIn(turn.during), turn.end.output);
              && s.histories == (if end.Terminal() then old(s.histories)[id := e.node] else old(s.histories))
              && s.lastID == (if end.Terminal() then id else old(s.lastID))
              && s.held == (if end.Successful() then old(s.held)[id := old(e.conversation) + Normal(s.normal, output)] else old(s.held))
              && s.nodes[e.node].input == input && s.nodes[e.node].output == (if end.Terminal() then output else produced)
              && (if !end.Successful() then s.nodes[e.node].provider == EMPTY
                  else s.nodes[e.node].provider.confirmed && (old(e.Sure()) ==> s.nodes[e.node].provider.items == old(e.conversation) + Normal(s.normal, output)))
              && (old(e.Sure()) || !end.Successful() ==> s.doubtful == old(s.doubtful) - if end.Terminal() then {id} else {})
  {
    hide Conserved, Committed, Linked, Acked, Others, Normal, Merged, SessionHistory.Valid, SessionHistory.Confirms, SessionExchange.Ready, Underway, DuringSize, Size, AfterDuring, ItemsIn;
    ok := Stream(s, e, turn.during, input);
    if ok {
      ok := Finish(s, e, turn.end, input, ItemsIn(turn.during));
    }
  }

  lemma ValidParts(s: SessionHistory)
    requires s.Valid()
    ensures Linked(s.nodes) && forall id :: id in s.histories ==> s.histories[id] < |s.nodes|
  {
    hide Conserved, Linked;
  }

  // ----- Faithful sessions

  // What a response is confirmed to hold is its whole conversation.
  ghost predicate Whole(normal: Normalizer, nodes: seq<HistoryNode>, n: nat)
    requires Linked(nodes)
  {
    n < |nodes| && (nodes[n].provider.confirmed ==> nodes[n].provider.items == Normal(normal, Items(nodes, n)))
  }

  lemma WholeKept(normal: Normalizer, was: seq<HistoryNode>, now: seq<HistoryNode>, n: nat)
    requires Linked(was) && Linked(now) && was <= now && Whole(normal, was, n)
    ensures Whole(normal, now, n)
  {
    ItemsKept(was, now, n);
  }

  /** Every response confirmed is confirmed to hold its whole conversation, and does. */
  ghost predicate Faithful(s: SessionHistory)
    reads s
  {
    s.Valid() && Linked(s.nodes) && s.doubtful == {} && forall id :: id in s.histories ==> Whole(s.normal, s.nodes, s.histories[id])
  }

  lemma FaithfulParts(s: SessionHistory)
    requires Faithful(s)
    ensures s.Valid() && Linked(s.nodes) && s.doubtful == {} && forall id :: id in s.histories ==> Whole(s.normal, s.nodes, s.histories[id])
  {
    hide Linked, Whole, SessionHistory.Valid;
  }

  lemma MakeFaithful(s: SessionHistory, was: seq<HistoryNode>, histories: map<string, nat>)
    requires s.Valid() && s.doubtful == {} && Linked(was) && was <= s.nodes && forall id :: id in histories ==> Whole(s.normal, was, histories[id])
    requires forall id :: id in s.histories ==> (id in histories && s.histories[id] == histories[id]) || (Linked(s.nodes) && Whole(s.normal, s.nodes, s.histories[id]))
    ensures Faithful(s)
  {
    ValidParts(s);
    hide Linked, Whole, SessionHistory.Valid;
    forall id | id in s.histories ensures Whole(s.normal, s.nodes, s.histories[id]) {
      if id in histories && s.histories[id] == histories[id] {
        WholeKept(s.normal, was, s.nodes, histories[id]);
      }
    }
  }

  lemma Unfaithful(s: SessionHistory, id: string)
    requires Linked(s.nodes) && id in s.histories && !Whole(s.normal, s.nodes, s.histories[id])
    ensures !Faithful(s)
  {
    hide Linked, Whole, SessionHistory.Valid;
  }

  /** What is confirmed, the provider holds: for every confirmed response, exactly the conversation
      the session would replay in full.  Whatever is sent on top of it, with whatever steers
      acknowledged, is heard as if the whole conversation had been sent. */
  lemma FaithfulHeld(s: SessionHistory, id: string)
    requires Faithful(s) && id in s.histories
    ensures s.histories[id] < |s.nodes| && Linked(s.nodes)
    ensures s.nodes[s.histories[id]].provider.confirmed ==>
              && id in s.held && s.held[id] == Normal(s.normal, Items(s.nodes, s.histories[id]))
              && forall acked, input ::
                   Told(s.held, s.normal, Wire(input, id), acked, false) == Told(map[], s.normal, Wire(Items(s.nodes, s.histories[id]) + acked + input, ""), [], false)
  {
    HeldWhole(s, id);
    hide Conserved, Linked, Normal, Items, Faithful, SessionHistory.Valid;
    var items := Items(s.nodes, s.histories[id]);
    if s.nodes[s.histories[id]].provider.confirmed {
      forall acked, input ensures Told(s.held, s.normal, Wire(input, id), acked, false) == Told(map[], s.normal, Wire(items + acked + input, ""), [], false) {
        NormalConcat(s.normal, items, acked);
        NormalConcat(s.normal, items + acked, input);
        assert [] + Normal(s.normal, items + acked + input) == Normal(s.normal, items + acked + input);
      }
    }
  }

  lemma HeldWhole(s: SessionHistory, id: string)
    requires Faithful(s) && id in s.histories
    ensures id != "" && s.histories[id] < |s.nodes| && Linked(s.nodes)
    ensures var provider := s.nodes[s.histories[id]].provider;
            provider.confirmed ==> provider.items == Normal(s.normal, Items(s.nodes, s.histories[id])) && id in s.held && s.held[id] == provider.items
  {
    hide Conserved, Linked, Normal, Items;
    assert s.Confirms(s.nodes[s.histories[id]], id);
  }

  // What is known of the parent is its conversation, if anything.
  lemma FaithfulEvidence(s: SessionHistory, command: Command)
    requires Faithful(s) && s.Valid()
    ensures var id, evidence := s.ParentID(command), Evidence(s, command);
            evidence.confirmed ==> id != "" && evidence == Fingerprint(Normal(s.normal, s.ParentItems(command)), true) && id in s.held && s.held[id] == evidence.items
  {
    EvidenceIs(s, command);
    if s.ParentID(command) in s.histories {
      HeldWhole(s, s.ParentID(command));
    }
    hide Faithful, Normal, Items, SessionHistory.Valid;
  }

  /** The turn continues a confirmed response, or what is acknowledged when its own is created is
      what its request was prepared with. */
  ghost predicate InTime(s: SessionHistory, turn: Turn)
    requires s.Valid()
    reads s
  {
    Evidence(s, turn.command).confirmed || Normal(s.normal, Admitted(s, turn)) == Normal(s.normal, Prepared(s, turn))
  }

  // The response's conversation is whole if the provider was told of it.
  lemma TurnWhole(normal: Normalizer, nodes: seq<HistoryNode>, n: nat, text: seq<Item>, output: seq<Item>, told: seq<string>)
    requires Linked(nodes) && n < |nodes| && Items(nodes, n) == text + output
    requires nodes[n].provider == Fingerprint(told + Normal(normal, output), true)
    ensures Whole(normal, nodes, n) <==> told == Normal(normal, text)
  {
    NormalConcat(normal, text, output);
    var given := Normal(normal, text);
    hide Normal, Items;
    if told + Normal(normal, output) == given + Normal(normal, output) {
      assert |told| == |given|;
      assert (told + Normal(normal, output))[..|told|] == told && (given + Normal(normal, output))[..|given|] == given;
    }
  }

  // Steers in the middle of a conversation make exactly the difference they make alone.
  lemma SteersBetween(normal: Normalizer, parent: seq<Item>, a: seq<Item>, b: seq<Item>, own: seq<Item>)
    ensures Normal(normal, parent + a + own) == Normal(normal, parent + b + own) <==> Normal(normal, a) == Normal(normal, b)
  {
    NormalConcat(normal, parent, a);
    NormalConcat(normal, parent + a, own);
    NormalConcat(normal, parent, b);
    NormalConcat(normal, parent + b, own);
    var p, x, y, q := Normal(normal, parent), Normal(normal, a), Normal(normal, b), Normal(normal, own);
    hide Normal;
    if p + x + q == p + y + q {
      assert |x| == |y|;
      assert (p + x + q)[|p|..|p| + |x|] == x && (p + y + q)[|p|..|p| + |y|] == y;
    }
  }

  /** What an unprojected turn of a faithful session tells the provider is the conversation the
      session remembers exactly if it is in time. */
  lemma ToldWhole(s: SessionHistory, turn: Turn, encodable: Encoding, retained: int)
    requires Faithful(s) && s.Valid() && Dispatchable(s, turn.command, x => x, encodable, Prepared(s, turn), retained)
    ensures Certain(s, turn, x => x)
    ensures ToldFor(s, turn, x => x) == Normal(s.normal, s.ParentItems(turn.command) + Admitted(s, turn) + s.InputOf(turn.command).value) <==> InTime(s, turn)
  {
    FaithfulParts(s);
    FaithfulEvidence(s, turn.command);
    hide Faithful, SessionHistory.Valid, Normal, Items, Told, Prepared, Admitted, Before, Acked;
    var parent, own := s.ParentItems(turn.command), s.InputOf(turn.command).value;
    var steering, acked := Prepared(s, turn), Admitted(s, turn);
    var id, evidence := s.ParentID(turn.command), Evidence(s, turn.command);
    hide Evidence;
    if evidence.confirmed {
      WireOnTop(s.normal, s.held, evidence, id, parent, steering, acked, own, turn.command.Automatic?);
    } else {
      WireHeard(s.normal, s.held, evidence, id, steering, parent + steering + own, turn.command.Automatic?, acked);
      SteersBetween(s.normal, parent, acked, steering, own);
    }
  }

  // ----- Scripts

  // What of a session decides which turns may follow: the responses it knows, those that are
  // confirmed, and the last one.
  datatype Script = Script(known: set<string>, confirmed: set<string>, last: string)

  ghost function ScriptOf(s: SessionHistory): Script
    requires s.Valid()
    reads s
  {
    Script(s.histories.Keys, (set id | id in s.histories && s.nodes[s.histories[id]].provider.confirmed), s.lastID)
  }

  function Next(script: Script, turn: Turn): Script
    requires turn.end.Ended?
  {
    var id := turn.end.id;
    if !turn.end.end.Terminal() then script
    else Script(script.known + {id}, if turn.end.end.Successful() then script.confirmed + {id} else script.confirmed - {id}, id)
  }

  function Continued(script: Script, command: Command): string
  {
    if command.Automatic? && command.previous == "" then script.last else command.previous
  }

  // The command is well formed, and continues a response, or begins anew; a response the provider
  // starts by itself continues a confirmed one.
  predicate Sensible(script: Script, turn: Turn)
    requires turn.end.Ended?
  {
    var id := Continued(script, turn.command);
    && (id == "" || id in script.known) && (turn.end.end.Terminal() ==> turn.end.id != "")
    && (if turn.command.Create? then turn.command.valid && !turn.command.Multiplexed() && turn.command.input.Some? else id in script.confirmed)
  }

  // The turn continues a confirmed response, or nothing goes on between its request and its response.
  predicate Timely(script: Script, turn: Turn) { turn.late == [] || Continued(script, turn.command) in script.confirmed }

  lemma TimelyInTime(s: SessionHistory, turn: Turn)
    requires s.Valid() && Timely(ScriptOf(s), turn)
    ensures InTime(s, turn)
  {
    EvidenceIs(s, turn.command);
    hide Normal, Acked, Evidence, SessionHistory.Valid;
  }

  lemma SensibleDispatchable(s: SessionHistory, turn: Turn, encodable: Encoding)
    requires Faithful(s) && s.Valid() && turn.end.Ended? && Sensible(ScriptOf(s), turn) && (forall fields, input :: encodable(fields, input))
    requires s.retainedBytes + TurnSize(s, turn) <= s.budget
    ensures Dispatchable(s, turn.command, x => x, encodable, Prepared(s, turn), s.retainedBytes + SidesSize(turn.early))
    ensures turn.end.end.Terminal() ==> turn.end.id != ""
  {
    EvidenceIs(s, turn.command);
    FaithfulEvidence(s, turn.command);
    hide Normal, Acked, Evidence, Faithful, SessionHistory.Valid, Prepared, Before, Items, Covers, SidesSize, DuringSize, Size;
    if turn.command.Automatic? {
      var evidence, id := Evidence(s, turn.command), s.ParentID(turn.command);
      WireOnTop(s.normal, s.held, evidence, id, s.ParentItems(turn.command), Prepared(s, turn), [], [], true);
    }
  }

  lemma DispatchableInput(s: SessionHistory, command: Command, project: seq<Item> -> seq<Item>, encodable: Encoding, steering: seq<Item>, retained: int)
    requires s.Valid() && Dispatchable(s, command, project, encodable, steering, retained)
    ensures s.InputOf(command).Some?
  {
    hide SessionHistory.Valid, Covers;
  }

  // What filing a turn makes of a faithful session.
  lemma TurnFiled(s: SessionHistory, n: nat, text: seq<Item>, turn: Turn, told: seq<string>, was: seq<HistoryNode>, histories: map<string, nat>)
    requires s.Valid() && Linked(s.nodes) && s.doubtful == {} && turn.end.Ended?
    requires Linked(was) && was <= s.nodes && |s.nodes| == n + 1 && forall id :: id in histories ==> Whole(s.normal, was, histories[id])
    requires s.histories == if turn.end.end.Terminal() then histories[turn.end.id := n] else histories
    requires var output := Merged(ItemsIn(turn.during), turn.end.output);
             if turn.end.end.Successful() then Items(s.nodes, n) == text + output && s.nodes[n].provider == Fingerprint(told + Normal(s.normal, output), true)
             else s.nodes[n].provider == EMPTY
    ensures Faithful(s) <==> !turn.end.end.Successful() || told == Normal(s.normal, text)
  {
    hide Faithful, Whole, Items, Normal, Merged, Linked, ItemsIn, SessionHistory.Valid;
    if turn.end.end.Successful() {
      TurnWhole(s.normal, s.nodes, n, text, Merged(ItemsIn(turn.during), turn.end.output), told);
    } else {
      Unconfirmed(s.normal, s.nodes, n);
    }
    if Whole(s.normal, s.nodes, n) {
      MakeFaithful(s, was, histories);
    } else {
      Unfaithful(s, turn.end.id);
    }
  }

  lemma Unconfirmed(normal: Normalizer, nodes: seq<HistoryNode>, n: nat)
    requires Linked(nodes) && n < |nodes| && nodes[n].provider == EMPTY
    ensures Whole(normal, nodes, n)
  {
  }

  lemma ScriptNext(s: SessionHistory, n: nat, was: seq<HistoryNode>, histories: map<string, nat>, script: Script, turn: Turn)
    requires s.Valid() && turn.end.Ended? && was <= s.nodes && n == |was| < |s.nodes| && forall id :: id in histories ==> histories[id] < |was|
    requires script == Script(histories.Keys, (set id | id in histories && was[histories[id]].provider.confirmed), script.last)
    requires s.histories == if turn.end.end.Terminal() then histories[turn.end.id := n] else histories
    requires s.lastID == if turn.end.end.Terminal() then turn.end.id else script.last
    requires s.nodes[n].provider.confirmed == turn.end.end.Successful()
    ensures ScriptOf(s) == Next(script, turn)
  {
    ValidParts(s);
    hide SessionHistory.Valid;
    assert forall id :: id in histories ==> s.nodes[histories[id]] == was[histories[id]];
  }

  /** One unprojected turn of a faithful session.  If its response ends well, the session stays
      faithful exactly if the turn is in time; if it ends otherwise, it does in any case; and if
      the turn fails, it does unless the provider gave an old identity away again. */
  method FaithfulTurn(s: SessionHistory, turn: Turn, encodable: Encoding) returns (ok: bool)
    requires Faithful(s) && s.Valid() && turn.end.Ended?
    modifies s
    ensures s.Valid()
    ensures ok ==> (Faithful(s) <==> !turn.end.end.Successful() || old(InTime(s, turn)))
    ensures !ok && turn.end.id !in s.histories ==> Faithful(s)
    ensures ok ==> ScriptOf(s) == Next(old(ScriptOf(s)), turn) && s.retainedBytes <= old(s.retainedBytes) + TurnSize(s, turn)
    ensures !ok ==> s.histories == old(s.histories)
    ensures (old(Sensible(ScriptOf(s), turn)) && (forall fields, input :: encodable(fields, input)) && old(s.retainedBytes) + TurnSize(s, turn) <= s.budget) ==> ok
  {
    hide Faithful, Whole, Items, Normal, Merged, Linked, ItemsIn, Before, TurnSize, Acked, AfterSides, Prepared, Admitted, SessionHistory.Valid,
         Dispatchable, ToldFor, WireFor, Certain, InTime, Evidence, Sensible, Next;
    FaithfulParts(s);
    ValidParts(s);
    ghost var was, histories, n, script := s.nodes, s.histories, |s.nodes|, ScriptOf(s);
    ghost var dispatchable := Dispatchable(s, turn.command, x => x, encodable, Prepared(s, turn), s.retainedBytes + SidesSize(turn.early));
    if dispatchable {
      ToldWhole(s, turn, encodable, s.retainedBytes + SidesSize(turn.early));
      DispatchableInput(s, turn.command, x => x, encodable, Prepared(s, turn), s.retainedBytes + SidesSize(turn.early));
    }
    if Sensible(ScriptOf(s), turn) && (forall fields, input :: encodable(fields, input)) && s.retainedBytes + TurnSize(s, turn) <= s.budget {
      SensibleDispatchable(s, turn, encodable);
    }
    ok := TakeTurn(s, turn, x => x, encodable);
    ValidParts(s);
    if ok {
      ghost var text := old(s.ParentItems(turn.command)) + old(Admitted(s, turn)) + s.InputOf(turn.command).value;
      TurnFiled(s, n, text, turn, old(ToldFor(s, turn, x => x)), was, histories);
      ScriptNext(s, n, was, histories, script, turn);
    } else if turn.end.id !in s.histories {
      MakeFaithful(s, was, histories);
    }
  }

  // ----- Whole conversations

  // What a conversation takes of the budget, at most.
  function TurnsSize(s: SessionHistory, turns: seq<Turn>): nat
    requires AllEnd(turns)
  {
    if turns == [] then 0 else TurnSize(s, turns[0]) + TurnsSize(s, turns[1..])
  }

  predicate AllEnd(turns: seq<Turn>) { forall k :: 0 <= k < |turns| ==> turns[k].end.Ended? }

  // Every turn is timely if the ones before it succeed.
  predicate AllTimely(script: Script, turns: seq<Turn>)
    requires AllEnd(turns)
    decreases |turns|
  {
    turns != [] ==> Timely(script, turns[0]) && AllTimely(Next(script, turns[0]), turns[1..])
  }

  predicate AllSensible(script: Script, turns: seq<Turn>)
    requires AllEnd(turns)
    decreases |turns|
  {
    turns != [] ==> Sensible(script, turns[0]) && AllSensible(Next(script, turns[0]), turns[1..])
  }

  // What can be checked before a conversation is begun.
  ghost predicate Playable(s: SessionHistory, script: Script, turns: seq<Turn>, encodable: Encoding)
    requires AllEnd(turns)
    reads s
  {
    AllSensible(script, turns) && (forall fields, input :: encodable(fields, input)) && s.retainedBytes + TurnsSize(s, turns) <= s.budget
  }

  /** A whole conversation: turn after turn, as long as none fails, however their responses end, and
      whatever is submitted, acknowledged and refused in between.  Timely turns keep the session
      faithful, if the last one did not fail on an identity given away again; and a sensible
      conversation that fits the budget is carried through. */
  method Converse(s: SessionHistory, turns: seq<Turn>, encodable: Encoding) returns (done: nat)
    requires Faithful(s) && s.Valid() && AllEnd(turns) && AllTimely(ScriptOf(s), turns)
    modifies s
    ensures s.Valid() && done <= |turns|
    ensures done == |turns| || turns[done].end.id !in s.histories ==> Faithful(s)
    ensures old(Playable(s, ScriptOf(s), turns, encodable)) ==> done == |turns| && Faithful(s)
  {
    hide Faithful, TurnSize, TurnsSize, Timely, Sensible, AllTimely, AllSensible, InTime, Next, ScriptOf, SessionHistory.Valid;
    done := 0;
    ghost var playable := Playable(s, ScriptOf(s), turns, encodable);
    assert turns[0..] == turns;
    while done < |turns|
      invariant Faithful(s) && s.Valid() && done <= |turns|
      invariant AllTimely(ScriptOf(s), turns[done..])
      invariant playable ==> Playable(s, ScriptOf(s), turns[done..], encodable)
    {
      ScriptFirst(s, ScriptOf(s), turns, done);
      TimelyInTime(s, turns[done]);
      var ok := FaithfulTurn(s, turns[done], encodable);
      if !ok {
        return;
      }
      done := done + 1;
    }
  }

  lemma ScriptFirst(s: SessionHistory, script: Script, turns: seq<Turn>, k: nat)
    requires k < |turns| && AllEnd(turns)
    ensures AllTimely(script, turns[k..]) ==> Timely(script, turns[k]) && AllTimely(Next(script, turns[k]), turns[k + 1..])
    ensures AllSensible(script, turns[k..]) ==> Sensible(script, turns[k]) && AllSensible(Next(script, turns[k]), turns[k + 1..])
    ensures TurnsSize(s, turns[k..]) == TurnSize(s, turns[k]) + TurnsSize(s, turns[k + 1..])
  {
    hide TurnSize, Timely, Sensible, Next;
    assert turns[k..][1..] == turns[k + 1..] && turns[k..][0] == turns[k];
  }
}
