/** The events a translated response is told in, and the client that reads them.  The client is
    the specification: it knows nothing of the provider's stream, only of the lifecycle. */
module StreamEvents {
  import opened Text

  // ----- Items and events

  // What a text belongs to.
  datatype Voice = Summary | Spoken | Refused

  datatype Part = Part(voice: Voice, text: string)

  // A reasoning item without a summary has an empty one.
  datatype StreamItem =
    | Reasoning(id: nat, summary: string, sealed: Option<string>)
    | Message(id: nat, completed: bool, commentary: bool, content: seq<Part>)
    | Call(id: nat, callId: string, tool: Tool, input: string, completed: bool)

  datatype Tool = Tool(name: string, namespace: string, custom: bool)

  datatype Status = InProgress | Completed | Incomplete | Failed

  datatype Reason = NoReason | MaxOutputTokens | Filtered | Faulted

  // What a response cost.
  datatype Tokens = Tokens(input: int, output: int, total: int, cached: int, written: int, reasoning: int)

  datatype Response = Response(status: Status, reason: Reason, model: string, usage: Option<Tokens>, output: seq<StreamItem>)

  datatype Event =
    | Created(response: Response)
    | Progress
    | ItemAdded(index: nat, item: StreamItem)
    | PartAdded(id: nat, index: nat, part: Part)
    | Delta(id: nat, index: nat, voice: Voice, delta: string)
    | TextDone(id: nat, index: nat, voice: Voice, text: string)
    | PartDone(id: nat, index: nat, part: Part)
    | InputDone(id: nat, index: nat, callId: string, tool: Tool, input: string)
    | ItemDone(index: nat, item: StreamItem)
    | Ended(response: Response)

  // ----- The client

  // How far the one item in progress is.
  datatype Stage =
    | Idle
    | Opened(item: StreamItem)
    | Writing(item: StreamItem, part: Part)
    | Written(item: StreamItem, part: Part)
    | Parted(item: StreamItem, part: Part)
    | Filled(item: StreamItem)

  datatype Client = Start | Live(done: seq<StreamItem>, stage: Stage) | Over(done: seq<StreamItem>, status: Status) | Stuck

  predicate AllReasoning(items: seq<StreamItem>) { forall k :: 0 <= k < |items| ==> items[k].Reasoning? }

  predicate NoCalls(items: seq<StreamItem>) { forall k :: 0 <= k < |items| ==> !items[k].Call? }

  /** An item may be opened: a message once, after nothing but reasoning; calls at the end, and
      without input. */
  predicate MayOpen(done: seq<StreamItem>, item: StreamItem)
  {
    match item
    case Reasoning(_, _, _) => NoCalls(done)
    case Message(_, completed, commentary, content) => AllReasoning(done) && !completed && !commentary && content == []
    case Call(_, _, _, input, completed) => input == "" && !completed
  }

  // Parts are added empty; reasoning is told in parts only before the message.
  predicate MayTell(done: seq<StreamItem>, item: StreamItem, part: Part)
  {
    match item
    case Reasoning(_, summary, sealed) => AllReasoning(done) && summary == "" && sealed.None? && part == Part(Summary, "")
    case Message(_, _, _, _) => part.voice != Summary && part.text == ""
    case Call(_, _, _, _, _) => false
  }

  // The finished item is the one that was begun, and holds exactly the text that was told.
  predicate Finishes(begun: StreamItem, part: Part, item: StreamItem)
  {
    match item
    case Reasoning(id, summary, _) => begun.Reasoning? && begun.id == id && summary in {"", part.text}
    case Message(id, completed, _, content) => begun.Message? && begun.id == id && completed && content == [part]
    case Call(_, _, _, _, _) => false
  }

  function OnItem(done: seq<StreamItem>, stage: Stage, event: Event): Client
  {
    match event
    case ItemAdded(index, item) =>
      if stage.Idle? && index == |done| && MayOpen(done, item) then Live(done, Opened(item)) else Stuck
    case PartAdded(id, index, part) =>
      if stage.Opened? && id == stage.item.id && index == |done| && MayTell(done, stage.item, part)
      then Live(done, Writing(stage.item, part)) else Stuck
    case Delta(id, index, voice, delta) =>
      if stage.Writing? && id == stage.item.id && index == |done| && voice == stage.part.voice && delta != ""
      then Live(done, Writing(stage.item, Part(voice, stage.part.text + delta))) else Stuck
    case TextDone(id, index, voice, text) =>
      if stage.Writing? && id == stage.item.id && index == |done| && stage.part == Part(voice, text)
      then Live(done, Written(stage.item, stage.part)) else Stuck
    case PartDone(id, index, part) =>
      if stage.Written? && id == stage.item.id && index == |done| && part == stage.part
      then Live(done, Parted(stage.item, part)) else Stuck
    case InputDone(id, index, callId, tool, input) =>
      if stage.Opened? && stage.item == Call(id, callId, tool, "", false) && index == |done|
      then Live(done, Filled(Call(id, callId, tool, input, true))) else Stuck
    case ItemDone(index, item) =>
      if index == |done| && ((stage.Parted? && Finishes(stage.item, stage.part, item))
        || (stage.Filled? && item == stage.item) || (stage.Opened? && item.Reasoning? && item == stage.item))
      then Live(done + [item], Idle) else Stuck
    case _ => Stuck
  }

  /** A response lists exactly the items that were done; only a failed one may leave an item
      unfinished. */
  function OnEvent(client: Client, event: Event): Client
  {
    match client
    case Start => if event.Created? && event.response.status == InProgress && event.response.output == [] then Live([], Idle) else Stuck
    case Live(done, stage) =>
      if event.Progress? then client
      else if event.Ended? then
        if event.response.output == done && event.response.status != InProgress && (stage.Idle? || event.response.status == Failed)
        then Over(done, event.response.status) else Stuck
      else OnItem(done, stage, event)
    case _ => Stuck
  }

  function Reads(log: seq<Event>): Client
  {
    if log == [] then Start else OnEvent(Reads(log[..|log| - 1]), log[|log| - 1])
  }

  lemma LiveWritten(log: seq<Event>)
    requires Reads(log).Live?
    ensures log != []
  {
  }

  lemma ReadsNext(log: seq<Event>, event: Event)
    ensures Reads(log + [event]) == OnEvent(Reads(log), event)
  {
    assert (log + [event])[..|log|] == log;
  }

  // ----- The stages of one item

  lemma Opens(done: seq<StreamItem>, item: StreamItem)
    requires MayOpen(done, item)
    ensures OnEvent(Live(done, Idle), ItemAdded(|done|, item)) == Live(done, Opened(item))
  {
  }

  lemma AddsPart(done: seq<StreamItem>, item: StreamItem, part: Part)
    requires MayTell(done, item, part)
    ensures OnEvent(Live(done, Opened(item)), PartAdded(item.id, |done|, part)) == Live(done, Writing(item, part))
  {
  }

  lemma Writes(done: seq<StreamItem>, item: StreamItem, part: Part, delta: string)
    requires delta != ""
    ensures OnEvent(Live(done, Writing(item, part)), Delta(item.id, |done|, part.voice, delta)) == Live(done, Writing(item, Part(part.voice, part.text + delta)))
  {
  }

  lemma EndsText(done: seq<StreamItem>, item: StreamItem, part: Part)
    ensures OnEvent(Live(done, Writing(item, part)), TextDone(item.id, |done|, part.voice, part.text)) == Live(done, Written(item, part))
  {
  }

  lemma EndsPart(done: seq<StreamItem>, item: StreamItem, part: Part)
    ensures OnEvent(Live(done, Written(item, part)), PartDone(item.id, |done|, part)) == Live(done, Parted(item, part))
  {
  }

  lemma Ends(done: seq<StreamItem>, begun: StreamItem, part: Part, item: StreamItem)
    requires Finishes(begun, part, item)
    ensures OnEvent(Live(done, Parted(begun, part)), ItemDone(|done|, item)) == Live(done + [item], Idle)
  {
  }

  lemma EndsAtOnce(done: seq<StreamItem>, item: StreamItem)
    requires item.Reasoning?
    ensures OnEvent(Live(done, Opened(item)), ItemDone(|done|, item)) == Live(done + [item], Idle)
  {
  }

  lemma EndsInput(done: seq<StreamItem>, id: nat, callId: string, tool: Tool, input: string)
    ensures OnEvent(Live(done, Opened(Call(id, callId, tool, "", false))), InputDone(id, |done|, callId, tool, input)) == Live(done, Filled(Call(id, callId, tool, input, true)))
    ensures OnEvent(Live(done, Filled(Call(id, callId, tool, input, true))), ItemDone(|done|, Call(id, callId, tool, input, true))) == Live(done + [Call(id, callId, tool, input, true)], Idle)
  {
  }

  lemma Closes(done: seq<StreamItem>, stage: Stage, response: Response)
    requires response.output == done && response.status != InProgress && (stage.Idle? || response.status == Failed)
    ensures OnEvent(Live(done, stage), Ended(response)) == Over(done, response.status)
  {
  }

  lemma Progresses(done: seq<StreamItem>, stage: Stage)
    ensures OnEvent(Live(done, stage), Progress) == Live(done, stage)
  {
  }

  // ----- What the client can rely on

  lemma {:induction false} StuckStays(log: seq<Event>, more: seq<Event>)
    requires Reads(log).Stuck?
    ensures Reads(log + more).Stuck?
    decreases |more|
  {
    if more == [] {
      assert log + more == log;
    } else {
      var last := |more| - 1;
      StuckStays(log, more[..last]);
      assert log + more == (log + more[..last]) + [more[last]];
      ReadsNext(log + more[..last], more[last]);
    }
  }

  // The items finished so far, in order.
  function DoneItems(log: seq<Event>): seq<StreamItem>
  {
    if log == [] then [] else
      var last := log[|log| - 1];
      DoneItems(log[..|log| - 1]) + if last.ItemDone? then [last.item] else []
  }

  // The indices of the items finished so far, in order.
  function DoneIndices(log: seq<Event>): seq<nat>
  {
    if log == [] then [] else
      var last := log[|log| - 1];
      DoneIndices(log[..|log| - 1]) + if last.ItemDone? then [last.index] else []
  }

  /** In an accepted log, finished items are numbered 0, 1, 2, …; only the first event creates
      the response; only the last ends it, and then it lists exactly the finished items. */
  lemma {:induction false} Lifecycle(log: seq<Event>)
    requires !Reads(log).Stuck?
    ensures var client := Reads(log);
            && (client.Live? || client.Over? ==> client.done == DoneItems(log))
            && |DoneIndices(log)| == |DoneItems(log)|
            && (forall k :: 0 <= k < |DoneIndices(log)| ==> DoneIndices(log)[k] == k)
            && (client.Start? <==> log == [])
            && (forall k :: 0 <= k < |log| ==> (log[k].Created? <==> k == 0))
            && (forall k :: 0 <= k < |log| && log[k].Ended? ==> k == |log| - 1 && log[k].response.output == DoneItems(log))
            && (client.Over? <==> log != [] && log[|log| - 1].Ended?)
  {
    if log != [] {
      var last := |log| - 1;
      var event := log[last];
      if Reads(log[..last]).Stuck? {
        assert false;
      }
      Lifecycle(log[..last]);
      forall k | 0 <= k < last ensures !log[k].Ended? && (log[k].Created? <==> k == 0) {
        assert log[..last][k] == log[k];
      }
    } else {
      assert DoneIndices(log) == [] && DoneItems(log) == [];
    }
  }

  /** What is told of the open item: the text of its deltas since it was opened. */
  function Told(log: seq<Event>): string
  {
    if log == [] then "" else
      var last := log[|log| - 1];
      if last.ItemAdded? then "" else Told(log[..|log| - 1]) + if last.Delta? then last.delta else ""
  }

  /** The deltas of an item make up its finished text, and its finished part. */
  lemma {:induction false} DeltasMakeText(log: seq<Event>)
    requires !Reads(log).Stuck?
    ensures Reads(log).Live? && (Reads(log).stage.Opened? || Reads(log).stage.Filled?) ==> Told(log) == ""
    ensures Reads(log).Live? && Reads(log).stage.Filled? ==> Reads(log).stage.item.Call?
    ensures Reads(log).Live? && (Reads(log).stage.Writing? || Reads(log).stage.Written? || Reads(log).stage.Parted?)
            ==> Told(log) == Reads(log).stage.part.text
    ensures log != [] && log[|log| - 1].TextDone? ==> log[|log| - 1].text == Told(log)
    ensures log != [] && log[|log| - 1].PartDone? ==> log[|log| - 1].part.text == Told(log)
    ensures log != [] && log[|log| - 1].ItemDone? && log[|log| - 1].item.Message? ==>
              log[|log| - 1].item.content != [] && log[|log| - 1].item.content[0].text == Told(log)
  {
    if log != [] {
      DeltasMakeText(log[..|log| - 1]);
    }
  }

  // Reasoning told before the message, the message, reasoning held back, then calls.
  predicate InOrder(items: seq<StreamItem>)
  {
    && (forall j, k :: 0 <= j < k < |items| && items[j].Call? ==> items[k].Call?)
    && (forall j, k :: 0 <= j < k < |items| && items[k].Message? ==> items[j].Reasoning?)
  }

  // The item in progress may follow those finished.
  predicate Fits(done: seq<StreamItem>, stage: Stage)
  {
    stage.Idle? || ((stage.item.Reasoning? ==> NoCalls(done)) && (stage.item.Message? ==> AllReasoning(done)))
  }

  lemma {:induction false} Ordered(log: seq<Event>)
    requires !Reads(log).Stuck?
    ensures InOrder(DoneItems(log))
    ensures Reads(log).Live? ==> Fits(DoneItems(log), Reads(log).stage)
  {
    if log != [] {
      Ordered(log[..|log| - 1]);
      Lifecycle(log[..|log| - 1]);
    }
  }

  predicate OfCall(event: Event)
  {
    event.InputDone? || ((event.ItemAdded? || event.ItemDone?) && event.item.Call?)
  }

  // No call was exposed.
  predicate Quiet(log: seq<Event>) { forall k :: 0 <= k < |log| ==> !OfCall(log[k]) }

  lemma QuietNext(log: seq<Event>, event: Event)
    ensures Quiet(log + [event]) <==> Quiet(log) && !OfCall(event)
  {
    var now := log + [event];
    assert now[|log|] == event && forall k :: 0 <= k < |log| ==> now[k] == log[k];
  }
}
