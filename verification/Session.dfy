/** One connection's history with its provider.  The provider keeps each response's
    conversation; the session keeps evidence of it, and sends only what the provider lacks. */
module Session {
  import opened Text
  import opened SessionItems
  import opened SessionFacts

  datatype SessionError =
    | InvalidCreate | MultiplexedLanes | UnretainedParent | UnretainedAutomatic | InvalidInput
    | OverBudget | Unencodable
    | AutomaticChanged | InvalidBoundary | NoResponseId

  // A decoded command: an explicit create, of some size, or a response the provider already started.
  datatype Command =
    | Create(valid: bool, fields: map<string, string>, previous: string, input: Option<seq<Item>>, size: nat)
    | Automatic(previous: string)
  {
    predicate Multiplexed() { Create? && "stream_id" in fields && fields["stream_id"] != "null" }
  }

  // Whether a request of these fields and this input can be written and read.
  type Encoding = (map<string, string>, seq<Item>) -> bool

  // The settings among a command's fields, which hold for what the provider starts by itself after
  // it; asking for no response is not one of them.
  function Lasting(fields: map<string, string>): map<string, string>
  {
    fields - {"type", "input", "previous_response_id", "generate"}
  }

  function Settled(command: Command, inherited: map<string, string>): map<string, string>
  {
    Lasting(if command.Create? then command.fields else inherited)
  }

  // A stream, and whether to generate at all.
  function Asked(command: Command, settings: map<string, string>): map<string, string>
  {
    (if command.Create? && "generate" in command.fields then settings["generate" := command.fields["generate"]] else settings)["stream" := "true"]
  }

  /** An explicit command goes by what it says, whatever it continues: its request has its own fields, and
      asks for a stream; its response keeps them, except that none was asked for. */
  ghost predicate GoesBy(command: Command, settings: map<string, string>, fields: map<string, string>)
    requires command.Create?
  {
    && (forall k :: k in fields <==> k == "stream" || (k in command.fields && k !in {"type", "input", "previous_response_id"}))
    && (forall k :: k in fields ==> fields[k] == if k == "stream" then "true" else command.fields[k])
    && (forall k :: k in settings <==> k in command.fields && k !in {"type", "input", "previous_response_id", "generate"})
    && (forall k :: k in settings ==> settings[k] == command.fields[k])
  }

  datatype Request = Request(fields: map<string, string>, input: seq<Item>, previous: string, cachedInput: nat, rebaseInput: bool)

  // What is written to the provider.
  datatype Wire = Wire(input: seq<Item>, previous: string)

  datatype Reason = StatelessProvider | MatchingPrefix | ChangedPrefix | ShortenedPrefix | UnconfirmedProvider | FullRequest

  datatype Control = Accepted(id: string, parent: string) | Rejected(id: string, parent: string) | OtherControl

  // How an exchange ends.  An error ends it without a terminal of its response.
  datatype End = Completed | Steered | Interrupted | Unsuccessful | ProviderError
  {
    predicate Terminal() { !ProviderError? }

    // The response can be continued.
    predicate Successful() { Completed? || Steered? || Interrupted? }
  }

  /** A response is over unless an error cut it off, and it can be continued if it ran to its end or was
      stopped on purpose. */
  lemma EndMeans(end: End)
    ensures end.Terminal() <==> end != ProviderError
    ensures end.Successful() <==> end in {Completed, Steered, Interrupted}
  {
  }

  datatype Event = Created | ItemDone(item: Option<Item>) | Ended(end: End, id: string, output: seq<Item>) | OtherEvent

  // Whether the provider can mean this steer.
  predicate Meant(steer: Steer, control: Control)
  {
    match control
    case Accepted(_, parent) => steer.id == "" && steer.parent == parent
    case Rejected(id, parent) => (id != "" && steer.id == id) || (id == "" && steer.id == "" && steer.parent == parent)
    case OtherControl => false
  }

  function FirstMeant(steers: seq<Steer>, control: Control): (k: nat)
    ensures k <= |steers|
  {
    if steers == [] || Meant(steers[0], control) then 0 else 1 + FirstMeant(steers[1..], control)
  }

  /** An acknowledgement is for the oldest steer of its parent that has no name yet.  A refusal that
      names a steer is for that steer, whatever its parent; one that does not is for the oldest steer of
      its parent without a name.  Nothing else is for any. */
  lemma {:induction false} MeantIs(steers: seq<Steer>, control: Control)
    ensures var k := FirstMeant(steers, control);
            match control
            case Accepted(_, parent) => First(steers, k, (s: Steer) => s.id == "" && s.parent == parent)
            case Rejected(id, parent) => if id == "" then First(steers, k, (s: Steer) => s.id == "" && s.parent == parent) else First(steers, k, (s: Steer) => s.id == id)
            case OtherControl => k == |steers|
  {
    if steers != [] && !Meant(steers[0], control) {
      MeantIs(steers[1..], control);
      var k := FirstMeant(steers[1..], control);
      assert forall j :: 0 < j < |steers| ==> steers[j] == steers[1..][j - 1];
    }
  }

  // The k-th is the first of the kind, or there is none.
  predicate First(steers: seq<Steer>, k: nat, kind: Steer -> bool)
  {
    k <= |steers| && (k < |steers| ==> kind(steers[k])) && forall j :: 0 <= j < k ==> !kind(steers[j])
  }

  lemma MeantNext(steers: seq<Steer>, control: Control, k: nat)
    requires k < |steers|
    ensures FirstMeant(steers[k..], control) == if Meant(steers[k], control) then 0 else 1 + FirstMeant(steers[k + 1..], control)
  {
    assert steers[k..][1..] == steers[k + 1..];
  }

  /** The wire form of the cache decision: the confirmed prefix is left out, and a rebased
      request does not name its parent. */
  function IncrementalBody(request: Request, useCache: bool): Result<Wire, SessionError>
  {
    if (request.cachedInput == 0 && !request.rebaseInput) || !useCache then Ok(Wire(request.input, request.previous))
    else if request.cachedInput > |request.input| then Err(InvalidBoundary)
    else Ok(Wire(request.input[request.cachedInput..], if request.rebaseInput then "" else request.previous))
  }

  /** What a provider makes of what it is sent: if a parent is named, the conversation it holds
      for it and the steers it has acknowledged, and then the input.  A response it started by
      itself has no input of its own. */
  function Told(held: map<string, seq<string>>, normal: Normalizer, wire: Wire, steering: seq<Item>, automatic: bool): seq<string>
  {
    (if wire.previous == "" then []
     else (if wire.previous in held then held[wire.previous] else []) + Normal(normal, steering))
      + Normal(normal, if automatic then [] else wire.input)
  }

  lemma NothingMerged(output: seq<Item>)
    ensures Merged(output, []) == output
  {
  }

  class SessionHistory {
    const normal: Normalizer
    const budget: nat

    var nodes: seq<HistoryNode>
    var histories: map<string, nat>
    var lastID: string
    var steers: seq<Steer>
    var retainedBytes: int

    // The conversation the provider holds for each of its responses, and what became of every steer.
    ghost var held: map<string, seq<string>>
    ghost var ledger: Ledger
    // Identities the provider has given away again, or that were delivered in place of its own.
    ghost var doubtful: set<string>
    // The node whose exchange is under way.
    ghost var open: Option<nat>

    // A confirmed fingerprint is what the provider holds under that identity.
    ghost predicate Confirms(node: HistoryNode, id: string)
      reads this
    {
      node.provider.confirmed ==> id in held && held[id] == node.provider.items
    }

    ghost predicate Valid()
      reads this
    {
      && Linked(nodes) && Conserved(ledger, nodes, steers)
      && (open.Some? ==> open.value < |nodes|)
      && "" !in histories
      && (forall id :: id in histories ==> histories[id] < |nodes| && (open.Some? ==> histories[id] < open.value))
      && (forall id :: id in histories && id !in doubtful ==> Confirms(nodes[histories[id]], id))
    }

    constructor (normal: Normalizer, budget: nat)
      ensures Valid() && nodes == [] && histories == map[] && steers == [] && held == map[] && doubtful == {} && open == None && retainedBytes == 0
      ensures this.normal == normal && this.budget == budget
    {
      this.normal, this.budget := normal, budget;
      nodes, histories, lastID, steers, retainedBytes := [], map[], "", [], 0;
      held, ledger, doubtful, open := map[], Ledger([], [], [], [], []), {}, None;
    }

    method Retain(items: seq<Item>) returns (err: Option<SessionError>)
      modifies `retainedBytes
      ensures retainedBytes == old(retainedBytes) + Size(items)
      ensures err == if retainedBytes > budget then Some(OverBudget) else None
    {
      assert items[..0] == [];
      for i := 0 to |items|
        invariant retainedBytes == old(retainedBytes) + Size(items[..i])
      {
        assert items[..i + 1][..i] == items[..i];
        retainedBytes := retainedBytes + |items[i].raw|;
      }
      assert items[..|items|] == items;
      err := if retainedBytes > budget then Some(OverBudget) else None;
    }

    // Retains more, on a valid session.
    method Charge(items: seq<Item>) returns (err: Option<SessionError>)
      requires Valid()
      modifies `retainedBytes
      ensures Valid() && retainedBytes == old(retainedBytes) + Size(items) && (err.None? <==> retainedBytes <= budget)
    {
      hide Conserved, Linked, Size;
      err := Retain(items);
    }

    // What was retained item by item is given back, once the whole fits as well.
    method Exchange(streamed: seq<Item>, output: seq<Item>) returns (err: Option<SessionError>)
      requires Valid()
      modifies `retainedBytes
      ensures Valid() && (err.None? <==> old(retainedBytes) - Size(streamed) + Size(output) <= budget)
      ensures err.None? ==> retainedBytes == old(retainedBytes) - Size(streamed)
    {
      hide Conserved, Linked, Size;
      Release(streamed);
      err := Retain(output);
      if err.Some? {
        return;
      }
      Release(output);
    }

    // Gives back what was retained.
    method Release(items: seq<Item>)
      modifies `retainedBytes
      ensures retainedBytes == old(retainedBytes) - Size(items)
    {
      assert items[..0] == [];
      for i := 0 to |items|
        invariant retainedBytes == old(retainedBytes) - Size(items[..i])
      {
        assert items[..i + 1][..i] == items[..i];
        retainedBytes := retainedBytes - |items[i].raw|;
      }
      assert items[..|items|] == items;
    }

    /** A submitted steer waits, before the caller writes it upstream. */
    method AddSteering(parent: string, input: Option<seq<Item>>) returns (err: Option<SessionError>)
      requires Valid()
      modifies `retainedBytes, `steers, `ledger
      ensures Valid()
      ensures retainedBytes == old(retainedBytes) + if input.None? then 0 else Size(input.value)
      ensures err.None? <==> input.Some? && retainedBytes <= budget
      ensures err.Some? ==> steers == old(steers) && ledger == old(ledger)
      ensures err.None? ==> input.Some? && steers == old(steers) + [Steer("", parent, input.value)]
      ensures err.None? ==> ledger == old(ledger).(submitted := old(ledger.submitted) + [input.value], fates := old(ledger.fates) + [Waiting],
                                                   waiting := old(ledger.waiting) + [|old(ledger.submitted)|])
    {
      if input.None? {
        return Some(InvalidInput);
      }
      err := Retain(input.value);
      if err.Some? {
        return;
      }
      hide Conserved, Linked;
      ledger := ConservedSubmit(ledger, nodes, steers, Steer("", parent, input.value));
      steers := steers + [Steer("", parent, input.value)];
    }

    /** The provider acknowledges or refuses a steer: the first one it can mean. */
    method ObserveControl(control: Control)
      requires Valid()
      modifies `steers, `ledger
      ensures Valid()
      ensures var k := FirstMeant(old(steers), control);
              if k == |old(steers)| then steers == old(steers) && ledger == old(ledger)
              else if control.Accepted? then steers == old(steers)[k := old(steers)[k].(id := control.id)] && ledger == old(ledger)
              else steers == Without(old(steers), k) && k < |old(ledger.waiting)| && old(ledger.waiting)[k] < |old(ledger.fates)|
                   && ledger == old(ledger).(fates := old(ledger.fates)[old(ledger.waiting)[k] := Failed], waiting := Without(old(ledger.waiting), k))
    {
      hide Conserved, Linked, Meant;
      LedgerLengths(ledger, nodes, steers);
      var index := 0;
      while index < |steers|
        invariant 0 <= index <= |steers| && unchanged(this)
        invariant FirstMeant(steers[index..], control) + index == FirstMeant(steers, control)
      {
        MeantNext(steers, control, index);
        if Meant(steers[index], control) {
          if control.Accepted? {
            ConservedAck(ledger, nodes, steers, index, control.id);
            steers := steers[index := steers[index].(id := control.id)];
          } else {
            ledger := ConservedFail(ledger, nodes, steers, index);
            steers := steers[..index] + steers[index + 1..];
          }
          return;
        }
        index := index + 1;
      }
    }

    // The conversation up to and with node n.
    method ItemsOf(n: nat) returns (items: seq<Item>)
      requires Linked(nodes) && n < |nodes|
      ensures items == Items(nodes, n)
    {
      hide *;
      var ancestry: seq<nat> := [];
      var node: Option<nat> := Some(n);
      ChainStart(nodes, n);
      while node.Some?
        invariant (node.Some? ==> node.value < |nodes|) && forall k :: 0 <= k < |ancestry| ==> ancestry[k] < |nodes|
        invariant Items(nodes, n) == Before(nodes, node) + Chain(nodes, ancestry)
        decreases if node.Some? then node.value + 1 else 0
      {
        ChainStep(nodes, ancestry, node.value, Items(nodes, n));
        ancestry := ancestry + [node.value];
        node := nodes[node.value].parent;
      }
      items := [];
      var i := |ancestry|;
      ChainEnds(nodes, ancestry);
      while i > 0
        invariant 0 <= i <= |ancestry| && items == Chain(nodes, ancestry[i..])
      {
        i := i - 1;
        ChainFirst(nodes, ancestry, i);
        items := items + nodes[ancestry[i]].input;
        items := items + nodes[ancestry[i]].output;
      }
      assert ancestry[0..] == ancestry && [] + Chain(nodes, ancestry) == Chain(nodes, ancestry);
    }

    // The acknowledged steers for a parent.
    method AckedFor(parent: string) returns (steering: seq<Item>)
      ensures steering == Acked(steers, parent)
    {
      steering := [];
      assert steers[..0] == [];
      for k := 0 to |steers|
        invariant steering == Acked(steers[..k], parent)
      {
        AckedNext(steers, parent, k);
        if steers[k].id != "" && steers[k].parent == parent {
          steering := steering + steers[k].input;
        }
      }
      assert steers[..|steers|] == steers;
    }

    /** Moves a parent's acknowledged steers to the front of a node's input, for good. */
    method CommitSteering(n: nat, parent: string)
      requires Valid() && n < |nodes| && open == Some(n)
      modifies `steers, `nodes, `ledger
      ensures Valid() && Committed(old(ledger), ledger, old(steers), n, parent, 0)
      ensures steers == Others(old(steers), parent) && Acked(steers, parent) == []
      ensures nodes == old(nodes)[n := old(nodes)[n].(input := Acked(old(steers), parent) + old(nodes)[n].input)]
    {
      hide Conserved, Committed, Linked, Acked, Others;
      var committed, remaining := [], [];
      NoSteers(steers, parent);
      for k := 0 to |steers|
        invariant unchanged(this)
        invariant committed == Acked(steers[..k], parent) && remaining == Others(steers[..k], parent)
      {
        AckedNext(steers, parent, k);
        if steers[k].id == "" || steers[k].parent != parent {
          remaining := remaining + [steers[k]];
        } else {
          committed := committed + steers[k].input;
        }
      }
      assert steers[..|steers|] == steers && steers[0..] == steers;
      ledger := ConservedCommit(ledger, nodes, steers, n, parent, 0);
      assert [] + Others(steers, parent) == Others(steers, parent);
      NoneLeft(steers, parent);
      NodeLinked(nodes, n, nodes[n].(input := committed + nodes[n].input));
      steers := remaining;
      nodes := nodes[n := nodes[n].(input := committed + nodes[n].input)];
    }

    // Why a command is refused before its input is looked at, if it is.
    function Refusal(command: Command): Option<SessionError>
      reads this
    {
      var parent := ParentID(command);
      if command.Create? && !command.valid then Some(InvalidCreate)
      else if command.Multiplexed() then Some(MultiplexedLanes)
      else if parent != "" && parent !in histories then Some(if command.Create? then UnretainedParent else UnretainedAutomatic)
      else None
    }

    // The response a command continues; one the provider started may leave it to the last.
    function ParentID(command: Command): string
      reads this
    {
      if command.Automatic? && command.previous == "" then lastID else command.previous
    }

    function ParentOf(id: string): Option<nat>
      reads this
    {
      if id in histories then Some(histories[id]) else None
    }

    function InputOf(command: Command): Option<seq<Item>>
    {
      if command.Create? then command.input else Some([])
    }

    // The settings of a command's response: its own, or those of the response the provider goes
    // on from by itself.
    function SettingsOf(command: Command): map<string, string>
      requires Valid()
      reads this
    {
      var parent := ParentOf(ParentID(command));
      Settled(command, if parent.Some? then nodes[parent.value].settings else map[])
    }

    /** A response the provider starts by itself has the settings of the command it goes back to,
        however many others lie in between; it does not inherit that none was asked for. */
    lemma SettingsInherited(command: Command, fields: map<string, string>)
      requires Valid() && command.Automatic? && ParentOf(ParentID(command)).Some?
      requires ParentOf(ParentID(command)).value < |nodes| && nodes[ParentOf(ParentID(command)).value].settings == Lasting(fields)
      ensures SettingsOf(command) == Lasting(fields) && "generate" !in FieldsOf(command)
    {
      hide Conserved, Linked;
    }

    // What is asked of the provider besides input.
    function FieldsOf(command: Command): map<string, string>
      requires Valid()
      reads this
    {
      Asked(command, SettingsOf(command))
    }

    // What a command takes of the budget.
    function Needs(command: Command): nat
    {
      (if command.Create? then command.size else 0) + if InputOf(command).Some? then Size(InputOf(command).value) else 0
    }

    // A command is charged as it was written, and for its input once more; what the provider starts by
    // itself is free.
    lemma NeedsMean(command: Command)
      ensures command.Automatic? ==> Needs(command) == 0
      ensures command.Create? && command.input.Some? ==> Needs(command) == command.size + Size(command.input.value)
      ensures command.Create? && command.input.None? ==> Needs(command) == command.size
    {
      assert Size([]) == 0;
    }

    // The conversation a command continues.
    ghost function ParentItems(command: Command): seq<Item>
      requires Valid()
      reads this
    {
      Before(nodes, ParentOf(ParentID(command)))
    }

    // A command is retained as it was written, and its input once more, item by item.
    method RetainCommand(command: Command) returns (r: Result<seq<Item>, SessionError>)
      requires Valid()
      modifies `retainedBytes
      ensures Valid()
      ensures r.Ok? <==> InputOf(command).Some? && old(retainedBytes) + Needs(command) <= budget
      ensures r.Ok? ==> InputOf(command) == Some(r.value) && retainedBytes == old(retainedBytes) + Needs(command)
      ensures r.Ok? && command.Create? ==> old(retainedBytes) + command.size <= budget
      ensures r.Err? ==> r.error == if (command.Create? && old(retainedBytes) + command.size > budget) || InputOf(command).Some? then OverBudget else InvalidInput
    {
      hide Conserved, Linked;
      if command.Create? {
        retainedBytes := retainedBytes + command.size;
        if retainedBytes > budget {
          return Err(OverBudget);
        }
      }
      var input := InputOf(command);
      if input.None? {
        return Err(InvalidInput);
      }
      var err := Retain(input.value);
      r := if err.Some? then Err(err.value) else Ok(input.value);
    }

    lemma SettingsMean(command: Command, settings: map<string, string>, fields: map<string, string>)
      requires fields == Asked(command, settings) && exists inherited :: settings == Settled(command, inherited)
      ensures command.Create? ==> GoesBy(command, settings, fields)
    {
    }

    /** What is refused: an explicit command that is malformed, else one for a lane of its own, else any
        that continues a response not known here. */
    lemma RefusalMeans(command: Command)
      ensures Refusal(command) == Some(InvalidCreate) <==> command.Create? && !command.valid
      ensures Refusal(command) == Some(MultiplexedLanes) <==> command.Create? && command.valid && "stream_id" in command.fields && command.fields["stream_id"] != "null"
      ensures var id := if command.Automatic? && command.previous == "" then lastID else command.previous;
              && (Refusal(command) == Some(UnretainedAutomatic) <==> command.Automatic? && id != "" && id !in histories)
              && (Refusal(command) == Some(UnretainedParent) ==> command.Create? && id != "" && id !in histories)
              && (Refusal(command) == None ==> id == "" || id in histories)
    {
    }

    // The settings a response keeps, and what is asked of the provider besides input.
    method Configure(command: Command, parent: Option<nat>) returns (settings: map<string, string>, fields: map<string, string>)
      requires parent.Some? ==> parent.value < |nodes|
      ensures settings == Settled(command, if parent.Some? then nodes[parent.value].settings else map[]) && fields == Asked(command, settings)
    {
      settings := map[];
      if command.Automatic? && parent.Some? {
        settings := nodes[parent.value].settings;
      }
      settings := Lasting(settings + if command.Create? then command.fields else map["previous_response_id" := ParentID(command)]);
      fields := settings;
      if command.Create? && "generate" in command.fields {
        fields := fields["generate" := command.fields["generate"]];
      }
      fields := fields["stream" := "true"];
    }

    /** Reconstructs the whole conversation an explicit command, or a response the provider has
        started, continues: what its parent holds, the steers acknowledged for the parent, and
        its own input.  A response the provider has started keeps its parent's settings. */
    method Prepare(command: Command, encodable: Encoding) returns (r: Result<(SessionExchange, Request), SessionError>)
      requires Valid()
      modifies `retainedBytes, `nodes, `ledger, `open
      ensures Valid()
      ensures old(Refusal(command)).Some? ==> r == Err(old(Refusal(command)).value)
      ensures r.Err? ==> nodes == old(nodes) && ledger == old(ledger) && open == old(open)
      ensures r.Err? && old(Refusal(command)).None? ==>
                r.error == if command.Create? && old(retainedBytes) + command.size > budget then OverBudget
                           else if InputOf(command).None? then InvalidInput else if old(retainedBytes) + Needs(command) > budget then OverBudget else Unencodable
      ensures r.Ok? && command.Create? ==> nodes != [] && GoesBy(command, nodes[|nodes| - 1].settings, r.value.1.fields)
      ensures r.Ok? ==> retainedBytes == old(retainedBytes) + Needs(command) <= budget
      ensures r.Ok? <==> old(Refusal(command)).None? && InputOf(command).Some? && old(retainedBytes) + Needs(command) <= budget
                         && encodable(old(FieldsOf(command)), old(ParentItems(command)) + Acked(steers, old(ParentID(command))) + InputOf(command).value)
      ensures r.Ok? ==>
                var (e, request) := r.value;
                && fresh(e) && e.session == this && e.node == |old(nodes)| && e.automatic == command.Automatic?
                && e.parentID == old(ParentID(command)) && e.steering == Acked(steers, e.parentID) && InputOf(command) == Some(e.own)
                && nodes == old(nodes) + [HistoryNode(old(ParentOf(ParentID(command))), e.own, [], EMPTY, old(SettingsOf(command)))]
                && ledger == old(ledger).(taken := old(ledger.taken) + [[]], own := old(ledger.own) + [e.own])
                && e.Ready() && !e.admitted
                && request == Request(old(FieldsOf(command)), old(ParentItems(command)) + e.steering + e.own, e.parentID, 0, false)
    {
      hide Conserved, Acked, Items, Linked, Asked, Settled, Size, Needs, GoesBy;
      if command.Create? && !command.valid {
        return Err(InvalidCreate);
      }
      if command.Multiplexed() {
        return Err(MultiplexedLanes);
      }
      var parentID := if command.Automatic? && command.previous == "" then lastID else command.previous;
      var parent: Option<nat> := None;
      if parentID != "" {
        if parentID !in histories {
          return Err(if command.Create? then UnretainedParent else UnretainedAutomatic);
        }
        parent := Some(histories[parentID]);
      }
      var input := RetainCommand(command);
      if input.Err? {
        return Err(input.error);
      }
      var steering := AckedFor(parentID);
      var fullInput := [];
      if parent.Some? {
        fullInput := ItemsOf(parent.value);
      }
      fullInput := fullInput + steering;
      fullInput := fullInput + input.value;
      var settings, fields := Configure(command, parent);
      SettingsMean(command, settings, fields);
      if !encodable(fields, fullInput) {
        return Err(Unencodable);
      }
      var e := Open(parent, input.value, settings, parentID, steering, command.Automatic?);
      r := Ok((e, Request(fields, fullInput, parentID, 0, false)));
    }

    // The provider holds a conversation under an identity, perhaps one it has given away before; a
    // node may be confirmed to hold it.
    method Hold(n: nat, id: string, provider: Fingerprint, ghost conversation: seq<string>)
      requires Valid() && n < |nodes| && open == Some(n)
      modifies `nodes, `held, `doubtful
      ensures Valid() && held == old(held)[id := conversation] && doubtful == old(doubtful) + if id in histories then {id} else {}
      ensures nodes == old(nodes)[n := old(nodes)[n].(provider := provider)]
    {
      hide Conserved, Linked;
      ConservedOutput(ledger, nodes, steers, n, nodes[n].(provider := provider));
      NodeLinked(nodes, n, nodes[n].(provider := provider));
      held := held[id := conversation];
      doubtful := doubtful + if id in histories then {id} else {};
      nodes := nodes[n := nodes[n].(provider := provider)];
    }

    method SetOutput(n: nat, output: seq<Item>)
      requires Valid() && n < |nodes| && open == Some(n)
      modifies `nodes
      ensures Valid() && nodes == old(nodes)[n := old(nodes)[n].(output := output)]
    {
      hide Conserved, Linked;
      ConservedOutput(ledger, nodes, steers, n, nodes[n].(output := output));
      NodeLinked(nodes, n, nodes[n].(output := output));
      nodes := nodes[n := nodes[n].(output := output)];
    }

    // Retains one output in place of another, or leaves the account as it was.
    method Replace(was: seq<Item>, now: seq<Item>) returns (err: Option<SessionError>)
      requires Valid()
      modifies `retainedBytes
      ensures Valid() && retainedBytes == if err.None? then old(retainedBytes) - Size(was) + Size(now) else old(retainedBytes)
      ensures err.None? <==> old(retainedBytes) - Size(was) + Size(now) <= budget
    {
      hide Conserved, Linked, Size;
      var retained := retainedBytes;
      Release(was);
      err := Retain(now);
      if err.Some? {
        retainedBytes := retained;
      }
    }

    // Files the node under a response's identity; its exchange is over.  What was in doubt of the
    // identity no longer is, if the node holds what it is confirmed to hold.
    method File(n: nat, id: string)
      requires Valid() && n < |nodes| && open == Some(n) && id != ""
      modifies `histories, `lastID, `open, `doubtful
      ensures Valid() && open == None && lastID == id && histories == old(histories)[id := n]
      ensures doubtful == if old(Confirms(nodes[n], id)) then old(doubtful) - {id} else old(doubtful) + {id}
    {
      hide Conserved, Linked;
      doubtful := if Confirms(nodes[n], id) then doubtful - {id} else doubtful + {id};
      histories := histories[id := n];
      lastID := id;
      open := None;
    }

    // What a node has been confirmed to hold no longer counts.
    method Forget(n: nat)
      requires Valid() && n < |nodes| && open == Some(n)
      modifies `nodes
      ensures Valid() && nodes == old(nodes)[n := old(nodes)[n].(provider := EMPTY)]
    {
      hide Conserved, Linked;
      ConservedOutput(ledger, nodes, steers, n, nodes[n].(provider := EMPTY));
      NodeLinked(nodes, n, nodes[n].(provider := EMPTY));
      nodes := nodes[n := nodes[n].(provider := EMPTY)];
    }

    // A new node under the parent, and its exchange.
    method Open(parent: Option<nat>, input: seq<Item>, settings: map<string, string>, parentID: string, steering: seq<Item>, automatic: bool) returns (e: SessionExchange)
      requires Valid() && parent == ParentOf(parentID) && (parentID != "" ==> parent.Some?)
      modifies `nodes, `ledger, `open
      ensures Valid() && fresh(e) && e.session == this && e.node == |old(nodes)| && e.automatic == automatic
      ensures e.parentID == parentID && e.steering == steering && e.own == input
      ensures nodes == old(nodes) + [HistoryNode(parent, input, [], EMPTY, settings)]
      ensures ledger == old(ledger).(taken := old(ledger.taken) + [[]], own := old(ledger.own) + [input])
      ensures e.Ready() && !e.admitted
    {
      hide Conserved;
      var node := HistoryNode(parent, input, [], EMPTY, settings);
      ledger := ConservedNode(ledger, nodes, steers, node);
      nodes, open := nodes + [node], Some(|nodes|);
      e := new SessionExchange(this, |nodes| - 1, automatic, parentID, steering, input);
    }
  }

  class SessionExchange {
    const session: SessionHistory
    const node: nat
    const automatic: bool
    const parentID: string
    const steering: seq<Item>
    // The command's own input.
    ghost const own: seq<Item>

    var providerInput: Fingerprint
    var providerBase: Fingerprint
    var providerSuffix: seq<Item>
    var providerUsesParent: bool
    var providerOutput: seq<Item>

    // The conversation as the provider has it, and whether its creation has been delivered.
    ghost var conversation: seq<string>
    ghost var admitted: bool

    constructor (session: SessionHistory, node: nat, automatic: bool, parentID: string, steering: seq<Item>, ghost own: seq<Item>)
      ensures this.session == session && this.node == node && this.automatic == automatic
      ensures this.parentID == parentID && this.steering == steering && this.own == own
      ensures providerInput == providerBase == EMPTY && providerSuffix == providerOutput == [] && !providerUsesParent
      ensures !admitted
    {
      this.session, this.node, this.automatic, this.parentID, this.steering, this.own := session, node, automatic, parentID, steering, own;
      providerInput, providerBase, providerSuffix, providerOutput, providerUsesParent := EMPTY, EMPTY, [], [], false;
      conversation, admitted := [], false;
    }

    function Parent(): Option<nat>
      requires node < |session.nodes|
      reads session
    {
      session.nodes[node].parent
    }

    // The exchange is the one under way, on top of its parent.
    ghost predicate Grounded()
      reads `admitted, session
    {
      && session.Valid() && session.open == Some(node) && node < |session.nodes|
      && Parent() == session.ParentOf(parentID) && (parentID != "" ==> parentID in session.histories)
      && (Parent().Some? ==> Parent().value < node)
      && (!admitted ==> session.nodes[node].input == own)
    }

    // What the provider holds for the parent is not in doubt, or does not matter.
    ghost predicate Sure()
      reads this, session
    {
      providerUsesParent ==> parentID !in session.doubtful
    }

    // A confirmed fingerprint of what was sent is the conversation as the provider has it.
    ghost predicate Evident()
      reads this, session
    {
      && (!providerUsesParent ==> providerBase == EMPTY) && (automatic ==> providerSuffix == [])
      && (providerUsesParent && providerBase.confirmed && Sure() ==> parentID != "" && parentID in session.held && session.held[parentID] == providerBase.items)
      && (providerInput.confirmed && Sure() ==> providerInput.items == conversation)
    }

    /** The exchange is the one under way, and its evidence is true. */
    ghost predicate Ready()
      reads this, session
    {
      Grounded() && Evident()
    }

    // What was sent, as far as it is remembered.
    function Sent(): Wire
      reads this
    {
      Wire(providerSuffix, if providerUsesParent then parentID else "")
    }

    // The conversation as the provider has it, given the steers it has acknowledged.
    ghost function Heard(steering: seq<Item>): seq<string>
      reads this, session
    {
      Told(session.held, session.normal, Sent(), steering, automatic)
    }

    // What is known to be cached for a request: the parent's confirmed conversation and the steers.
    ghost function Cached(request: Request): Fingerprint
      requires Ready()
      reads this, session
    {
      if request.previous == "" || Parent().None? || request.previous != parentID then EMPTY
      else
        var parent := session.nodes[Parent().value].provider;
        if parent.confirmed then parent.(items := parent.items + Normal(session.normal, steering)) else parent
    }

    // The projected input starts with what is known to be cached; one that was already sent is that.
    ghost predicate CachedPrefix(request: Request)
      requires Ready()
      reads this, session
    {
      var cached := Cached(request);
      var n := |cached.items|;
      && cached.confirmed && n <= |request.input| && (automatic ==> n == |request.input|)
      && Normal(session.normal, request.input[..n]) == cached.items
    }

    /** Decides how much of the projected input the provider already has. */
    method Reconcile(request: Request, stateful: bool) returns (r: Result<(Reason, Request), SessionError>)
      requires Ready()
      ensures !stateful ==> r == Ok((StatelessProvider, request.(cachedInput := 0, rebaseInput := false)))
      ensures stateful ==>
                var cached := Cached(request);
                var n := |cached.items|;
                var matching := cached.confirmed && n <= |request.input| && Normal(session.normal, request.input[..n]) == cached.items;
                if matching && (automatic ==> n == |request.input|) then r == Ok((MatchingPrefix, request.(cachedInput := n, rebaseInput := false)))
                else if automatic then r == Err(AutomaticChanged)
                else if request.previous == "" then r == Ok((FullRequest, request.(cachedInput := 0, rebaseInput := false)))
                else r == Ok((if !cached.confirmed then UnconfirmedProvider else if n <= |request.input| then ChangedPrefix else ShortenedPrefix,
                              request.(cachedInput := 0, rebaseInput := true)))
    {
      hide Conserved, Linked;
      if !stateful {
        return Ok((StatelessProvider, request.(cachedInput := 0, rebaseInput := false)));
      }
      var cached := EMPTY;
      if request.previous != "" && Parent().Some? && request.previous == parentID {
        cached := session.nodes[Parent().value].provider;
      }
      if cached.confirmed {
        cached := Append(session.normal, cached, steering);
      }
      var reason := UnconfirmedProvider;
      if cached.confirmed && |cached.items| <= |request.input| {
        var prefix := Append(session.normal, EMPTY, request.input[..|cached.items|]);
        if prefix.items == cached.items {
          if !automatic || |cached.items| == |request.input| {
            return Ok((MatchingPrefix, request.(cachedInput := |cached.items|, rebaseInput := false)));
          }
        }
        reason := ChangedPrefix;
      } else if cached.confirmed {
        reason := ShortenedPrefix;
      }
      if automatic {
        return Err(AutomaticChanged);
      }
      if request.previous != "" {
        return Ok((reason, request.(cachedInput := 0, rebaseInput := true)));
      }
      return Ok((FullRequest, request.(cachedInput := 0, rebaseInput := false)));
    }

    // What was sent, fingerprinted on top of the parent's evidence.
    method SetProviderInput(steering: seq<Item>)
      requires session.Valid()
      modifies `providerInput
      ensures providerInput.confirmed == (!providerUsesParent || providerBase.confirmed)
      ensures providerInput.items == (if providerUsesParent then providerBase.items + Normal(session.normal, steering) else providerBase.items) + Normal(session.normal, providerSuffix)
    {
      var base := providerBase;
      if providerUsesParent {
        base := Append(session.normal, base, steering);
      }
      base := Append(session.normal, base, providerSuffix);
      providerInput := base.(confirmed := !providerUsesParent || providerBase.confirmed);
    }

    // What the node has been confirmed to hold no longer counts.
    method Forget()
      requires Grounded()
      modifies session`nodes
      ensures Grounded() && session.nodes == old(session.nodes)[node := old(session.nodes)[node].(provider := EMPTY)]
    {
      hide Conserved, Linked;
      assert Parent().Some? ==> Parent().value < |session.nodes|;
      hide SessionHistory.Valid;
      session.Forget(node);
    }

    // What is submitted, and the parent's evidence it rests on.
    method BaseOn(wire: Wire)
      requires node < |session.nodes| && (Parent().Some? ==> Parent().value < |session.nodes|)
      modifies `providerOutput, `providerBase, `providerUsesParent, `providerSuffix
      ensures providerOutput == [] && providerUsesParent == (wire.previous != "") && providerSuffix == (if automatic then [] else wire.input)
      ensures providerBase == if providerUsesParent && Parent().Some? then session.nodes[Parent().value].provider else EMPTY
    {
      providerOutput := [];
      providerBase := EMPTY;
      providerUsesParent := wire.previous != "";
      if providerUsesParent && Parent().Some? {
        providerBase := session.nodes[Parent().value].provider;
      }
      providerSuffix := wire.input;
      if automatic {
        providerSuffix := [];
      }
    }

    // Takes down what is submitted, on top of the parent's evidence.
    method Submit(wire: Wire)
      requires Grounded()
      modifies this
      ensures Ready() && admitted == old(admitted) && providerOutput == []
      ensures providerUsesParent == (wire.previous != "") && providerSuffix == (if automatic then [] else wire.input)
      ensures conversation == Heard(steering) && providerInput.confirmed == (!providerUsesParent || providerBase.confirmed)
      ensures providerBase == if providerUsesParent && Parent().Some? then session.nodes[Parent().value].provider else EMPTY
    {
      GroundedParent();
      hide Grounded, Evident, Heard, Normal, Parent, SessionHistory.Valid, SessionHistory.Confirms, Told, Conserved, Linked, Sent;
      BaseOn(wire);
      SetProviderInput(steering);
      conversation := Heard(steering);
      SubmittedEvident();
    }

    lemma ReadyParts()
      ensures Ready() ==> session.Valid() && node < |session.nodes| && (Parent().Some? ==> Parent().value < |session.nodes|)
    {
      hide Conserved, Linked;
    }

    lemma GroundedParent()
      requires Grounded()
      ensures session.Valid() && node < |session.nodes| && (Parent().Some? ==> Parent().value < |session.nodes|)
    {
      hide Conserved, Linked;
    }

    lemma SubmittedEvident()
      requires Grounded() && (Parent().Some? ==> Parent().value < |session.nodes|)
      requires providerBase == if providerUsesParent && Parent().Some? then session.nodes[Parent().value].provider else EMPTY
      requires providerInput.confirmed == (!providerUsesParent || providerBase.confirmed)
      requires providerInput.items == (if providerUsesParent then providerBase.items + Normal(session.normal, steering) else providerBase.items) + Normal(session.normal, providerSuffix)
      requires conversation == Heard(steering) && (automatic ==> providerSuffix == [])
      ensures Evident()
    {
      ParentConfirmed();
      hide SessionHistory.Valid, Normal;
    }

    // What the parent is confirmed to hold, it holds, unless its identity is in doubt.
    lemma ParentConfirmed()
      requires Grounded()
      ensures Parent().Some? <==> parentID != ""
      ensures parentID != "" ==> Parent().value < |session.nodes| && (parentID !in session.doubtful ==> session.Confirms(session.nodes[Parent().value], parentID))
    {
      hide Conserved, Linked;
    }

    /** Records what is submitted.  Nothing is confirmed until the provider's terminal. */
    method BeginProvider(wire: Wire)
      requires Ready()
      modifies this, session`nodes
      ensures Ready() && admitted == old(admitted) && providerOutput == []
      ensures providerUsesParent == (wire.previous != "") && providerSuffix == (if automatic then [] else wire.input)
      ensures conversation == Heard(steering) && providerInput.confirmed == (!providerUsesParent || providerBase.confirmed)
      ensures providerBase == if providerUsesParent && Parent().Some? then session.nodes[Parent().value].provider else EMPTY
      ensures session.nodes == old(session.nodes)[node := old(session.nodes)[node].(provider := EMPTY)]
    {
      hide SessionHistory.Valid, SessionHistory.Confirms, Evident, Heard;
      Forget();
      Submit(wire);
    }

    // Sent on top of its parent's confirmed conversation, or in full, the request is heard in full.
    lemma HeardInFull(request: Request, decided: Request, reason: Reason)
      requires Ready() && IncrementalBody(decided, true).Ok?
      requires var wire := IncrementalBody(decided, true).value;
               providerUsesParent == (wire.previous != "") && providerSuffix == (if automatic then [] else wire.input)
      requires if reason == MatchingPrefix then
                 var cached := Cached(request);
                 && cached.confirmed && |cached.items| <= |request.input| && (automatic ==> |cached.items| == |request.input|)
                 && Normal(session.normal, request.input[..|cached.items|]) == cached.items
                 && decided == request.(cachedInput := |cached.items|, rebaseInput := false)
               else !automatic && decided == request.(cachedInput := 0, rebaseInput := (request.previous != ""))
      ensures Sure() ==> Heard(steering) == Normal(session.normal, request.input)
      ensures providerUsesParent ==> Parent().Some? && session.nodes[Parent().value].provider.confirmed
    {
      ParentConfirmed();
      hide Conserved, Linked, Normal, SessionHistory.Valid;
      if reason == MatchingPrefix {
        var n := |Cached(request).items|;
        assert request.input == request.input[..n] + request.input[n..];
        NormalConcat(session.normal, request.input[..n], request.input[n..]);
        assert n == 0 ==> request.input[n..] == request.input;
        assert automatic ==> request.input[n..] == [];
      } else {
        assert request.input[0..] == request.input;
        assert [] + Normal(session.normal, request.input) == Normal(session.normal, request.input);
      }
    }

    /** Sends a projected request.  A stateful provider that has a prefix of it confirmed gets the
        rest, under the parent's name; any other gets the whole input.  Either way, and unless it
        has given the parent's identity away, it hears what it would have heard had the whole
        input been sent. */
    method Send(request: Request, stateful: bool) returns (r: Result<(Reason, Wire), SessionError>)
      requires Ready()
      modifies this, session`nodes
      ensures Ready() && admitted == old(admitted)
      ensures r.Err? <==> stateful && automatic && !old(CachedPrefix(request))
      ensures r.Err? ==> r == Err(AutomaticChanged) && session.nodes == old(session.nodes)
      ensures r.Ok? ==> session.nodes == old(session.nodes)[node := old(session.nodes)[node].(provider := EMPTY)] && providerOutput == []
      ensures r.Ok? && !stateful ==> r.value == (StatelessProvider, Wire(request.input, request.previous))
      ensures r.Ok? && stateful ==>
                var (reason, wire) := r.value;
                && (if old(CachedPrefix(request)) then
                      var n := |old(Cached(request)).items|;
                      n <= |request.input| && reason == MatchingPrefix && wire == Wire(request.input[n..], request.previous)
                    else reason != MatchingPrefix && wire == Wire(request.input, ""))
                && (Sure() ==> Told(session.held, session.normal, wire, steering, automatic) == conversation == Normal(session.normal, request.input))
                && conversation == Heard(steering) && providerInput.confirmed && (!providerUsesParent || providerBase.confirmed)
                && providerUsesParent == (wire.previous != "") && providerSuffix == (if automatic then [] else wire.input)
                && (providerUsesParent ==> wire.previous == parentID)
    {
      hide Conserved, Linked, Normal, SessionHistory.Valid;
      var decided := Reconcile(request, stateful);
      if decided.Err? {
        return Err(decided.error);
      }
      var (reason, sent) := decided.value;
      // The decided prefix is never longer than the input.
      var wire := IncrementalBody(sent, stateful);
      BeginProvider(wire.value);
      if stateful {
        HeardInFull(request, sent, reason);
      }
      r := Ok((reason, wire.value));
    }

    /** Observes a raw event of the provider.  At creation the steers acknowledged by then are part
        of the conversation; only a successful terminal confirms what the provider now holds. */
    method ObserveProvider(event: Event) returns (err: Option<SessionError>)
      requires Ready()
      modifies this, session`nodes, session`retainedBytes, session`held, session`doubtful
      ensures Ready() && admitted == old(admitted)
      ensures session.nodes == old(session.nodes)[node := old(session.nodes)[node].(provider := session.nodes[node].provider)]
      ensures !event.Ended? ==> session.retainedBytes == old(session.retainedBytes) + if event.ItemDone? && event.item.Some? then |event.item.value.raw| else 0
      ensures event.Ended? && err.None? ==> session.retainedBytes == old(session.retainedBytes) - Size(old(providerOutput))
      ensures event.ItemDone? ==> (err.None? <==> event.item.None? || session.retainedBytes <= session.budget)
      ensures event.Ended? ==> (err.None? <==> old(session.retainedBytes) - Size(old(providerOutput)) + Size(Merged(old(providerOutput), event.output)) <= session.budget)
      ensures event.Created? ==> err.None? && conversation == Heard(Acked(session.steers, parentID)) && providerInput.confirmed == (!providerUsesParent || providerBase.confirmed)
      ensures !event.Created? ==> conversation == old(conversation) && providerInput == old(providerInput)
      ensures !event.Ended? ==>
                && providerSuffix == old(providerSuffix) && providerUsesParent == old(providerUsesParent) && providerBase == old(providerBase)
                && session.nodes == old(session.nodes) && session.held == old(session.held) && session.doubtful == old(session.doubtful)
                && (err.None? ==> providerOutput == old(providerOutput) + if event.ItemDone? && event.item.Some? then [event.item.value] else [])
      ensures event.Ended? && event.end.Successful() && event.id != "" && err.None? ==> Holds(event.id, Merged(old(providerOutput), event.output), old(session.held), old(session.doubtful), old(session.nodes), old(Sure()))
      ensures event.Ended? && (!event.end.Successful() || event.id == "" || err.Some?) ==>
                session.nodes == old(session.nodes) && session.held == old(session.held) && session.doubtful == old(session.doubtful)
    {
      hide Conserved, Linked, Acked, Merged, Normal, SessionHistory.Valid, Told;
      err := None;
      if event.Created? {
        var acked := session.AckedFor(parentID);
        Readmit(acked);
        return;
      }
      if event.ItemDone? && event.item.Some? {
        err := session.Charge([event.item.value]);
        if err.Some? {
          return;
        }
        providerOutput := providerOutput + [event.item.value];
      }
      if event.Ended? {
        err := ObserveEnd(event);
      }
    }

    // The conversation with the steers acknowledged by now.
    method Readmit(acked: seq<Item>)
      requires Ready()
      modifies `providerInput, `conversation
      ensures Ready() && conversation == Heard(acked) && providerInput.confirmed == (!providerUsesParent || providerBase.confirmed)
    {
      hide Conserved, Linked, Normal, SessionHistory.Valid;
      SetProviderInput(acked);
      conversation := Heard(acked);
    }

    // The provider holds the conversation and the output under the identity; the node is confirmed
    // to hold the same, if what was submitted is known.
    ghost predicate Holds(id: string, output: seq<Item>, held: map<string, seq<string>>, doubtful: set<string>, nodes: seq<HistoryNode>, sure: bool)
      reads this, session
    {
      var out := Normal(session.normal, output);
      && session.held == held[id := conversation + out] && session.doubtful == doubtful + (if id in session.histories then {id} else {})
      && node < |nodes|
      && session.nodes == nodes[node := nodes[node].(provider := if providerInput.confirmed then Fingerprint(providerInput.items + out, true) else nodes[node].provider)]
      && (sure && providerInput.confirmed ==> providerInput.items == conversation)
    }

    method ObserveEnd(event: Event) returns (err: Option<SessionError>)
      requires event.Ended? && Ready()
      modifies this, session`nodes, session`retainedBytes, session`held, session`doubtful
      ensures Ready() && admitted == old(admitted) && conversation == old(conversation) && providerInput == old(providerInput)
      ensures session.nodes == old(session.nodes)[node := old(session.nodes)[node].(provider := session.nodes[node].provider)]
      ensures event.end.Successful() && event.id != "" && err.None? ==> Holds(event.id, Merged(old(providerOutput), event.output), old(session.held), old(session.doubtful), old(session.nodes), old(Sure()))
      ensures !event.end.Successful() || event.id == "" || err.Some? ==> session.nodes == old(session.nodes) && session.held == old(session.held) && session.doubtful == old(session.doubtful)
      ensures err.None? <==> old(session.retainedBytes) - Size(old(providerOutput)) + Size(Merged(old(providerOutput), event.output)) <= session.budget
      ensures err.None? ==> session.retainedBytes == old(session.retainedBytes) - Size(old(providerOutput))
    {
      hide Conserved, Linked, Acked, Merged, Normal, Told;
      var output := MergeOutput(providerOutput, event.output);
      err := session.Exchange(providerOutput, output);
      if err.Some? {
        return;
      }
      providerOutput := [];
      providerSuffix := [];
      if event.id == "" || !event.end.Successful() {
        return;
      }
      Confirm(event.id, output);
    }

    // The provider holds the conversation and its output; what was confirmed of the input is of both.
    method Confirm(id: string, output: seq<Item>)
      requires Ready()
      modifies session`nodes, session`held, session`doubtful
      ensures Ready()
      ensures session.nodes == old(session.nodes)[node := old(session.nodes)[node].(provider := session.nodes[node].provider)]
      ensures Holds(id, output, old(session.held), old(session.doubtful), old(session.nodes), old(Sure()))
    {
      hide Conserved, Linked, Normal;
      ghost var now := conversation + Normal(session.normal, output);
      if !providerInput.confirmed {
        session.Hold(node, id, session.nodes[node].provider, now);
        return;
      }
      var state := Append(session.normal, providerInput, output);
      session.Hold(node, id, state, now);
    }

    /** Observes an event as it is delivered.  Creation commits the steers acknowledged by then,
        for good; a terminal files the response under its identity. */
    method ObserveOutput(event: Event) returns (err: Option<SessionError>)
      requires Ready()
      modifies `admitted, session
      ensures session.Valid() && session.held == old(session.held)
      ensures !(event.Ended? && event.end.Terminal()) ==>
                Ready() && session.histories == old(session.histories) && session.lastID == old(session.lastID) && session.doubtful == old(session.doubtful)
      ensures !event.Created? ==> session.steers == old(session.steers) && session.ledger == old(session.ledger) && admitted == old(admitted)
      ensures event.Created? ==>
                && err.None? && session.steers == Others(old(session.steers), parentID) && Acked(session.steers, parentID) == []
                && session.nodes == old(session.nodes)[node := old(session.nodes)[node].(input := Acked(old(session.steers), parentID) + old(session.nodes)[node].input)]
                && Committed(old(session.ledger), session.ledger, old(session.steers), node, parentID, 0)
      ensures !event.Created? && !event.Ended? && err.None? ==>
                session.nodes == old(session.nodes)[node := old(session.nodes)[node].(
                  output := old(session.nodes)[node].output + if event.ItemDone? && event.item.Some? then [event.item.value] else [])]
      ensures !event.Ended? ==> session.retainedBytes == old(session.retainedBytes) + if event.ItemDone? && event.item.Some? then |event.item.value.raw| else 0
      ensures event.ItemDone? ==> (err.None? <==> event.item.None? || session.retainedBytes <= session.budget)
      ensures event.Ended? && !event.end.Terminal() ==> err.None? && session.nodes == old(session.nodes) && session.retainedBytes == old(session.retainedBytes)
      ensures event.Ended? && event.end.Terminal() && event.id != "" ==>
                var retained := old(session.retainedBytes) - Size(old(session.nodes)[node].output) + Size(Merged(old(session.nodes)[node].output, event.output));
                (retained <= session.budget ==> err.None?) && (err.None? ==> session.retainedBytes == retained)
      ensures event.Ended? && event.end.Terminal() && event.id == "" ==> err == Some(NoResponseId)
      ensures OnlyNode(old(session.nodes), session.nodes, node)
      ensures err.Some? ==> session.histories == old(session.histories) && session.lastID == old(session.lastID) && session.doubtful == old(session.doubtful)
      ensures event.Ended? && event.end.Terminal() && err.None? ==>
                && session.open == None && session.lastID == event.id
                && session.histories == old(session.histories)[event.id := node]
                && session.nodes == old(session.nodes)[node := old(session.nodes)[node].(output := Merged(old(session.nodes)[node].output, event.output))]
                && session.doubtful == if old(session.Confirms(session.nodes[node], event.id)) then old(session.doubtful) - {event.id} else old(session.doubtful) + {event.id}
    {
      hide Conserved, Committed, Linked, Acked, Others, Merged;
      assert session.nodes[node].output + [] == session.nodes[node].output && session.nodes[node := session.nodes[node]] == session.nodes;
      err := None;
      if event.ItemDone? && event.item.Some? {
        err := session.Charge([event.item.value]);
        if err.Some? {
          return;
        }
        session.SetOutput(node, session.nodes[node].output + [event.item.value]);
      }
      if event.Created? {
        admitted := true;
        session.CommitSteering(node, parentID);
      }
      if event.Ended? && event.end.Terminal() {
        if event.id == "" {
          return Some(NoResponseId);
        }
        NothingMerged(session.nodes[node].output);
        if event.output != [] {
          var output := MergeOutput(session.nodes[node].output, event.output);
          err := session.Replace(session.nodes[node].output, output);
          if err.Some? {
            return;
          }
          session.SetOutput(node, output);
        }
        session.File(node, event.id);
      }
    }
  }
}
