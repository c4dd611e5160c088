/** The translation of one provider stream into the lifecycle of one response. */
module Stream {
  import opened Text
  import opened StreamEvents
  import opened StreamChunks

  datatype Fault =
    | WriteFault | Unreadable | ProviderFault(payload: string) | InvalidReasoning
    | ManyChoices | DataAfterEnd | MixedVoices | CallBudget | IdentityChanged
    | NoFinishReason | MissingCalls | IncompleteCalls
    | CallIndices | UnavailableTool | CallIdentity | CallArguments | CustomShape | CustomType

  // A block of reasoning; an open one is the item in progress.
  datatype Thinking = Thinking(id: nat, text: string, open: bool, index: nat)

  function ThoughtOf(thinking: Option<Thinking>): string { if thinking.Some? then thinking.value.text else "" }

  function Voiced(refused: bool): Voice { if refused then Refused else Spoken }

  function NewReasoning(id: nat): StreamItem { Reasoning(id, "", None) }

  function NewMessage(id: nat): StreamItem { Message(id, false, false, []) }

  function StageOf(thinking: Option<Thinking>, started: bool, id: nat, refused: bool, text: string): Stage
  {
    if started then Writing(NewMessage(id), Part(Voiced(refused), text))
    else if thinking.Some? && thinking.value.open then Writing(NewReasoning(thinking.value.id), Part(Summary, thinking.value.text))
    else Idle
  }

  function Summaries(items: seq<StreamItem>): string
  {
    if items == [] then "" else
      var last := items[|items| - 1];
      Summaries(items[..|items| - 1]) + if last.Reasoning? then last.summary else ""
  }

  lemma SummariesNext(items: seq<StreamItem>, item: StreamItem)
    ensures Summaries(items + [item]) == Summaries(items) + if item.Reasoning? then item.summary else ""
  {
    assert (items + [item])[..|items|] == items;
  }

  // The sealed items, as they are replayed.
  function Sealed(items: seq<StreamItem>): seq<Seal>
  {
    if items == [] then [] else
      var last := items[|items| - 1];
      Sealed(items[..|items| - 1]) + if last.Reasoning? && last.sealed.Some? then [Seal(last.summary, last.sealed.value)] else []
  }

  // Reasoning that is not sealed shows nothing.
  predicate Bare(items: seq<StreamItem>)
  {
    forall k :: 0 <= k < |items| ==> items[k].Reasoning? && items[k].sealed.None? ==> items[k].summary == ""
  }

  predicate AllSealed(items: seq<StreamItem>) { forall k :: 0 <= k < |items| ==> items[k].Reasoning? && items[k].sealed.Some? }

  lemma SealedNext(items: seq<StreamItem>, item: StreamItem)
    requires item.Reasoning?
    ensures Sealed(items + [item]) == Sealed(items) + if item.sealed.Some? then [Seal(item.summary, item.sealed.value)] else []
    ensures Bare(items) && (item.sealed.Some? || item.summary == "") ==> Bare(items + [item])
    ensures AllSealed(items) && item.sealed.Some? ==> AllSealed(items + [item])
  {
    assert (items + [item])[..|items|] == items;
  }

  lemma MoreReasoning(items: seq<StreamItem>, item: StreamItem)
    requires AllReasoning(items) && item.Reasoning?
    ensures AllReasoning(items + [item])
  {
  }

  lemma ReasoningFinishes(item: StreamItem, part: Part)
    requires item.Reasoning? && item.summary in {"", part.text}
    ensures Finishes(NewReasoning(item.id), part, item)
  {
  }

  lemma ReasoningOpens(done: seq<StreamItem>, id: nat)
    requires AllReasoning(done)
    ensures MayOpen(done, NewReasoning(id)) && MayTell(done, NewReasoning(id), Part(Summary, ""))
  {
  }

  lemma MessageOpens(done: seq<StreamItem>, id: nat, voice: Voice)
    requires AllReasoning(done) && voice != Summary
    ensures MayOpen(done, NewMessage(id)) && MayTell(done, NewMessage(id), Part(voice, ""))
  {
  }

  lemma NoSummaries(items: seq<StreamItem>)
    requires forall k :: 0 <= k < |items| ==> !items[k].Reasoning?
    ensures Summaries(items) == ""
  {
  }

  // ----- Identities

  /** The items told, those held back and the one in progress all have identities of their own, and
      the next is free. */
  ghost predicate Numbered(output: seq<StreamItem>, held: seq<StreamItem>, current: Option<nat>, next: nat)
  {
    && 0 < next && Below(output, next) && Below(held, next) && OwnIds(output + held)
    && (current.Some? ==> 0 < current.value < next && !HasId(output, current.value) && !HasId(held, current.value))
  }

  predicate Below(items: seq<StreamItem>, next: nat) { forall k :: 0 <= k < |items| ==> 0 < items[k].id < next }

  predicate HasId(items: seq<StreamItem>, id: nat) { exists k :: 0 <= k < |items| && items[k].id == id }

  predicate OwnIds(items: seq<StreamItem>) { forall j, k :: 0 <= j < k < |items| ==> items[j].id != items[k].id }

  lemma NoneNumbered()
    ensures Numbered([], [], None, 1)
  {
  }

  lemma NumberNext(output: seq<StreamItem>, held: seq<StreamItem>, next: nat)
    requires Numbered(output, held, None, next)
    ensures Numbered(output, held, Some(next), next + 1)
  {
    hide OwnIds;
  }

  lemma NumberTold(output: seq<StreamItem>, held: seq<StreamItem>, item: StreamItem, next: nat)
    requires Numbered(output, held, Some(item.id), next)
    ensures Numbered(output + [item], held, None, next)
  {
    var was, now, n := output + held, output + [item] + held, |output|;
    assert forall k :: 0 <= k < |now| && k != n ==> now[k] == was[if k < n then k else k - 1] && (if k < n then now[k] == output[k] else now[k] == held[k - n - 1]);
  }

  lemma NumberHeld(output: seq<StreamItem>, held: seq<StreamItem>, item: StreamItem, next: nat)
    requires Numbered(output, held, Some(item.id), next)
    ensures Numbered(output, held + [item], None, next)
  {
    var was, now := output + held, output + (held + [item]);
    assert now == was + [item];
    assert forall k :: 0 <= k < |was| ==> was[k] == if k < |output| then output[k] else held[k - |output|];
  }

  lemma NumberDropped(output: seq<StreamItem>, held: seq<StreamItem>, current: Option<nat>, next: nat)
    requires Numbered(output, held, current, next)
    ensures Numbered(output, held, None, next)
  {
  }

  // What follows the reasoning told: a message under the identity 0, the reasoning held, and calls
  // under identities not given away before.
  lemma NumberAll(told: seq<StreamItem>, message: seq<StreamItem>, held: seq<StreamItem>, called: seq<StreamItem>, current: Option<nat>, next: nat)
    requires Numbered(told, held, current, next) && |message| <= 1 && (message != [] ==> message[0].id == 0)
    requires OwnIds(called) && forall k :: 0 <= k < |called| ==> next <= called[k].id
    ensures OwnIds(told + message + held + called)
  {
    var all, n, m, h := told + message + held + called, |told|, |told| + |message|, |told| + |message| + |held|;
    forall j, k | 0 <= j < k < |all| ensures all[j].id != all[k].id {
      NumberedAt(told, message, held, called, next, j);
      NumberedAt(told, message, held, called, next, k);
      if j >= h {
        assert called[j - h].id != called[k - h].id;
      } else if k < h && !(n <= j < m) && !(n <= k < m) {
        var was := told + held;
        assert was[if j < n then j else j - |message|].id != was[if k < n then k else k - |message|].id;
      }
    }
  }

  lemma NumberedAt(told: seq<StreamItem>, message: seq<StreamItem>, held: seq<StreamItem>, called: seq<StreamItem>, next: nat, k: nat)
    requires Below(told, next) && Below(held, next) && |message| <= 1 && (message != [] ==> message[0].id == 0)
    requires forall k :: 0 <= k < |called| ==> next <= called[k].id
    requires k < |told + message + held + called| && 0 < next
    ensures var all, n, m, h := told + message + held + called, |told|, |told| + |message|, |told| + |message| + |held|;
            && (k < n ==> all[k] == told[k] && 0 < all[k].id < next) && (n <= k < m ==> k == n && all[k].id == 0)
            && (m <= k < h ==> all[k] == held[k - m] && 0 < all[k].id < next) && (h <= k ==> all[k] == called[k - h] && next <= all[k].id)
  {
  }

  // What a finished call's input is, if its arguments fit the tool.
  function InputOf(tool: Tool, arguments: string, decoded: Arguments): Result<string, Fault>
  {
    match decoded
    case Malformed => Err(CallArguments)
    case OtherShape => if tool.custom then Err(CustomShape) else Ok(arguments)
    case OneField(input) => if !tool.custom then Ok(arguments) else if input.Some? then Ok(input.value) else Err(CustomType)
  }

  /** A custom tool gets the one text its arguments hold, any other tool its arguments as they stand. */
  lemma InputMeans(tool: Tool, arguments: string, decoded: Arguments)
    ensures forall input :: InputOf(tool, arguments, decoded) == Ok(input) <==>
              !decoded.Malformed? && if tool.custom then decoded == OneField(Some(input)) else input == arguments
    ensures forall fault :: InputOf(tool, arguments, decoded) == Err(fault) ==>
              fault == if decoded.Malformed? then CallArguments else if decoded.OneField? then CustomType else CustomShape
  {
  }

  /** The choices cannot stand together, for this reason. */
  predicate Unsound(choices: seq<Choice>, fault: Fault)
  {
    match fault
    case ManyChoices => exists k :: 0 <= k < |choices| && choices[k].index != 0
    case DataAfterEnd => exists k :: 0 <= k < |choices| - 1 && choices[k].finish != NoFinish
    case MixedVoices => !OneVoice(choices)
    case CallBudget => OutOfRange(Parts(choices))
    case IdentityChanged => Contradictory(Parts(choices))
    case _ => false
  }

  // Which of them there is after sound choices.
  lemma UnsoundNext(choices: seq<Choice>, choice: Choice)
    requires Sound(choices)
    ensures choice.index != 0 ==> Unsound(choices + [choice], ManyChoices)
    ensures FinishOf(choices) != NoFinish ==> Unsound(choices + [choice], DataAfterEnd)
    ensures !((choice.refusal != "" ==> choice.content == "" && (Said(choices) == "" || Refuses(choices))) && (choice.content != "" ==> !Refuses(choices))) ==> Unsound(choices + [choice], MixedVoices)
    ensures OutOfRange(Parts(choices) + choice.parts) ==> Unsound(choices + [choice], CallBudget)
    ensures Contradictory(Parts(choices) + choice.parts) ==> Unsound(choices + [choice], IdentityChanged)
  {
    ChoiceNext(choices, choice);
    VoiceFollows(choices, choice);
    hide Said, Refuses, Parts, OutOfRange, Contradictory, OneVoice;
    var now, n := choices + [choice], |choices|;
    assert now[n] == choice && (n > 0 ==> now[n - 1] == choices[n - 1]);
  }

  lemma UnsoundStays(choices: seq<Choice>, more: seq<Choice>, fault: Fault)
    requires Unsound(choices, fault)
    ensures Unsound(choices + more, fault)
  {
    var all := choices + more;
    assert forall k :: 0 <= k < |choices| ==> all[k] == choices[k];
    SayConcat(choices, more);
    var p, q := Parts(choices), Parts(more);
    assert forall k :: 0 <= k < |p| ==> (p + q)[k] == p[k];
    hide Parts;
  }

  class Stream {
    const tools: map<string, Tool>
    // Seals retained reasoning, where the route replays it.
    const seal: Option<string -> string>
    const decode: string -> Arguments
    // Whether the last event of a log is written.
    const accepts: seq<Event> -> bool
    const described: Fault -> bool
    const name: string
    // Whether the provider counts reasoning as part of the completion.
    const inclusive: bool

    var log: seq<Event>
    var failed: bool
    var output: seq<StreamItem>
    var thinking: Option<Thinking>
    var held: seq<StreamItem>
    var text: string
    var refused: bool
    var started: bool
    var messageId: nat
    var messageIndex: nat
    var calls: map<int, StreamCall>
    var finish: Finish
    var model: string
    var usage: Option<Tokens>
    var nextId: nat
    ghost var heard: seq<Choice>

    constructor (name: string, tools: map<string, Tool>, seal: Option<string -> string>, decode: string -> Arguments, accepts: seq<Event> -> bool, described: Fault -> bool, inclusive: bool)
      ensures this.tools == tools && this.seal == seal && this.decode == decode && this.accepts == accepts && this.described == described
      ensures this.name == name && this.inclusive == inclusive
    {
      this.tools, this.seal, this.decode, this.accepts, this.described := tools, seal, decode, accepts, described;
      this.name, this.inclusive := name, inclusive;
    }

    /** The client follows: it has the finished items, and the open one as far as it was told. */
    ghost predicate Following()
      reads this
    {
      && (if failed then !Reads(log).Stuck? else Reads(log) == Live(output, StageOf(thinking, started, messageId, refused, text)))
      && Quiet(log) && AllReasoning(output) && AllReasoning(held)
      && (thinking.Some? ==> thinking.value.open == !started)
      && (thinking.Some? && !started ==> thinking.value.index == |output|)
      && (if started then messageIndex == |output| else text == "")
    }

    /** What was taken in of the stream: nothing is lost on the way to the client. */
    ghost predicate Recorded()
      reads this
    {
      && Sound(heard)
      && text == Said(heard) && started == (text != "") && refused == Refuses(heard)
      && finish == FinishOf(heard)
      && CallsRecord(calls, Parts(heard))
      && ReasoningKept() && Tidy()
    }

    // Without sealing, all reasoning is shown, in order.
    ghost predicate ReasoningKept()
      reads this
    {
      seal.None? ==> Shown() == Reasoned(heard) && (!started ==> held == [])
    }

    // The reasoning as it is shown so far, and as it will be.
    function Shown(): string
      reads `output, `held, `thinking
    {
      Summaries(output) + Summaries(held) + ThoughtOf(thinking)
    }

    // What is replayed so far, and what waits for the provider's next item.
    ghost function Replay(): Kept
      reads `output, `held, `thinking, `started
    {
      Kept(Sealed(output), Sealed(held), ThoughtOf(thinking), started)
    }

    // Identities are apart, a block of reasoning has text; where reasoning is replayed, only sealed items show any.
    ghost predicate Tidy()
      reads `output, `held, `thinking, `nextId, `messageId
    {
      && (thinking.Some? ==> thinking.value.text != "")
      && (seal.Some? ==> Bare(output) && AllSealed(held))
      && Numbering()
    }

    ghost predicate Numbering()
      reads `output, `held, `thinking, `nextId, `messageId
    {
      messageId == 0 && Numbered(output, held, if thinking.Some? then Some(thinking.value.id) else None, nextId)
    }

    // The first event.
    function Opening(): Event { Created(Response(InProgress, NoReason, name, None, [])) }

    // Only the last write may have failed.
    ghost predicate Delivered()
      reads this`log, this`failed
    {
      && (log != [] ==> log[0] == Opening())
      && (forall k :: 1 <= k <= |log| - (if failed then 1 else 0) ==> accepts(log[..k]))
      && (failed ==> log != [] && !accepts(log))
    }

    method Emit(event: Event) returns (ok: bool)
      requires !failed && Delivered() && (Reads(log).Live? || event == Opening())
      modifies this`log, this`failed
      ensures log == old(log) + [event] && ok == !failed && Delivered()
      ensures Reads(log) == OnEvent(old(Reads(log)), event)
      ensures Quiet(log) == (old(Quiet(log)) && !OfCall(event))
    {
      ReadsNext(log, event);
      QuietNext(log, event);
      if Reads(log).Live? {
        LiveWritten(log);
      }
      hide Reads, Quiet, OnEvent;
      ghost var was := log;
      log := log + [event];
      assert forall k :: 0 <= k <= |was| ==> log[..k] == was[..k];
      assert log[..|log|] == log;
      failed := !accepts(log);
      ok := !failed;
    }

    method NextId() returns (id: nat)
      modifies this`nextId
      ensures id == old(nextId) && nextId == id + 1
    {
      id := nextId;
      nextId := nextId + 1;
    }

    // An open block finishes as an item that shows what was told of it, or nothing.
    method FinishReasoning(item: StreamItem) returns (ok: bool)
      requires !failed && Delivered() && Following() && thinking.Some? && thinking.value.open
      requires item.Reasoning? && item.id == thinking.value.id && item.summary in {"", thinking.value.text}
      modifies this`log, this`failed, this`output, this`thinking
      ensures Delivered() && Following() && ok == !failed && thinking == None && output == old(output) + [item]
    {
      hide Reads, Quiet, OnEvent, OnItem, Finishes, MayOpen, MayTell, AllReasoning, Summaries, Delivered;
      var block := thinking.value;
      thinking := None;
      MoreReasoning(output, item);
      var told := Part(Summary, block.text);
      ghost var done, begun := output, NewReasoning(block.id);
      EndsText(done, begun, told);
      EndsPart(done, begun, told);
      ReasoningFinishes(item, told);
      Ends(done, begun, told, item);
      output := output + [item];
      ok := Emit(TextDone(block.id, block.index, Summary, told.text));
      if ok {
        ok := Emit(PartDone(block.id, block.index, told));
      }
      if ok {
        ok := Emit(ItemDone(block.index, item));
      }
    }

    /** Ends the block of reasoning.  An open one finishes as an item; another is held back for
        the end, unless it shows nothing. */
    method CloseReasoning(retained: Option<string>) returns (ok: bool)
      requires !failed && Delivered() && Following()
      requires retained.Some? ==> seal.Some?
      modifies this`log, this`failed, this`output, this`thinking, this`held, this`nextId
      ensures Delivered() && Following() && ok == !failed && thinking == None
      ensures seal.None? && (!started ==> old(held) == []) ==> Shown() == old(Shown()) && (!started ==> held == [])
      ensures old(Tidy()) ==> Tidy()
      ensures old(Tidy()) ==> Replay() == if retained.Some? then KeepRetained(old(Replay()), seal.value(retained.value)) else old(Replay()).(waiting := "")
    {
      hide Reads, Quiet, OnEvent, OnItem, AllReasoning, Summaries, Delivered, Sealed, Bare, AllSealed, Numbered;
      var block := thinking;
      if retained.None? && block.None? {
        return true;
      }
      var id;
      if block.Some? {
        id := block.value.id;
      } else {
        id := NextId();
      }
      var summary := if block.Some? && (seal.None? || retained.Some?) then block.value.text else "";
      var item := Reasoning(id, summary, if retained.Some? then Some(seal.value(retained.value)) else None);
      if block.None? || !block.value.open {
        ghost var next := nextId;
        if old(Tidy()) && block.None? {
          NumberNext(output, held, old(nextId));
        }
        thinking := None;
        if old(Tidy()) {
          NumberDropped(output, held, Some(id), next);
          NumberHeld(output, held, item, next);
        }
        if item.summary != "" || item.sealed.Some? {
          SummariesNext(held, item);
          SealedNext(held, item);
          MoreReasoning(held, item);
          held := held + [item];
        }
        return true;
      }
      SummariesNext(output, item);
      SealedNext(output, item);
      NoSummaries([]);
      if old(Tidy()) {
        NumberTold(output, held, item, nextId);
      }
      ok := FinishReasoning(item);
    }

    // A new block is opened unless the message started.
    method BeginReasoning() returns (ok: bool)
      requires !failed && Delivered() && Following() && thinking.None?
      modifies this`log, this`failed, this`thinking, this`nextId
      ensures Delivered() && Following() && ok == !failed && thinking.Some? && thinking.value.text == "" && (started ==> log == old(log))
      ensures old(Numbering()) ==> Numbering()
    {
      hide Reads, Quiet, OnEvent, OnItem, Finishes, MayOpen, MayTell, AllReasoning, Delivered, Numbered;
      var id := NextId();
      if old(Numbering()) {
        NumberNext(output, held, id);
      }
      thinking := Some(Thinking(id, "", !started, |output|));
      ok := true;
      if !started {
        ReasoningOpens(output, id);
        Opens(output, NewReasoning(id));
        AddsPart(output, NewReasoning(id), Part(Summary, ""));
        ok := Emit(ItemAdded(|output|, NewReasoning(id)));
        if ok {
          ok := Emit(PartAdded(id, |output|, Part(Summary, "")));
        }
      }
    }

    // Reasoning is told until the message starts, and kept from then on.
    method HearReasoning(delta: string) returns (ok: bool, told: bool)
      requires !failed && Delivered() && Following() && delta != ""
      modifies this`log, this`failed, this`thinking, this`nextId
      ensures Delivered() && Following() && ok == !failed && told == !started
      ensures if told && ok then log != [] && log[|log| - 1].Delta? else !told ==> log == old(log)
      ensures Shown() == old(Shown()) + delta
      ensures old(Tidy()) ==> Tidy()
      ensures var was := old(Replay()); Replay() == was.(waiting := was.waiting + delta)
    {
      hide Reads, Quiet, OnEvent, OnItem, Finishes, MayOpen, MayTell, AllReasoning, Summaries, Delivered, Sealed, Bare, AllSealed, Numbered;
      told := !started;
      ok := true;
      if thinking.None? {
        ok := BeginReasoning();
      }
      var block := thinking.value;
      thinking := Some(block.(text := block.text + delta));
      if told && ok {
        Writes(output, NewReasoning(block.id), Part(Summary, block.text), delta);
        ok := Emit(Delta(block.id, block.index, Summary, delta));
      }
    }

    // Opens the message, once reasoning is closed.
    method StartMessage() returns (ok: bool)
      requires !failed && Delivered() && Following() && !started
      modifies this`log, this`failed, this`output, this`thinking, this`held, this`nextId, this`started, this`messageIndex
      ensures Delivered() && Following() && ok == !failed && started
      ensures seal.None? && old(held) == [] ==> Shown() == old(Shown())
      ensures old(Tidy()) ==> Tidy() && Replay() == old(Replay()).(waiting := "", started := true)
    {
      hide Reads, Quiet, OnEvent, OnItem, Finishes, MayOpen, MayTell, AllReasoning, Summaries, Delivered, Sealed, Bare, AllSealed, Numbered;
      ok := true;
      if thinking.Some? && thinking.value.open {
        ok := CloseReasoning(None);
      }
      messageIndex := |output|;
      started := true;
      if ok {
        var part := Part(Voiced(refused), "");
        MessageOpens(output, messageId, part.voice);
        Opens(output, NewMessage(messageId));
        AddsPart(output, NewMessage(messageId), part);
        ok := Emit(ItemAdded(messageIndex, NewMessage(messageId)));
        if ok {
          ok := Emit(PartAdded(messageId, messageIndex, part));
        }
      }
    }

    // The message starts with its first text.
    method HearText(value: string) returns (ok: bool)
      requires !failed && Delivered() && Following() && value != ""
      modifies this`log, this`failed, this`output, this`thinking, this`held, this`nextId, this`started, this`messageIndex, this`text
      ensures Delivered() && Following() && ok == !failed
      ensures started && text == old(text) + value && (ok ==> log != [] && log[|log| - 1].Delta?)
      ensures seal.None? && (!old(started) ==> old(held) == []) ==> Shown() == old(Shown())
      ensures old(Tidy()) ==> Tidy() && Replay() == KeepValue(old(Replay()), value)
    {
      hide Reads, Quiet, OnEvent, OnItem, Finishes, MayOpen, MayTell, AllReasoning, Summaries, Delivered, Shown, Sealed, Bare, AllSealed, Numbered;
      ok := true;
      if !started {
        ok := StartMessage();
      }
      Writes(output, NewMessage(messageId), Part(Voiced(refused), text), value);
      text := text + value;
      if ok {
        ok := Emit(Delta(messageId, messageIndex, Voiced(refused), value));
      }
    }

    // Fragments grow the calls they name.
    method HearParts(parts: seq<CallPart>) returns (fault: Option<Fault>)
      requires CallsRecord(calls, Parts(heard)) && PartsSound(Parts(heard))
      modifies this`calls
      ensures fault.None? <==> PartsSound(Parts(heard) + parts)
      ensures fault.None? ==> CallsRecord(calls, Parts(heard) + parts)
      ensures fault.Some? ==>
                || (fault == Some(CallBudget) && OutOfRange(Parts(heard) + parts))
                || (fault == Some(IdentityChanged) && Contradictory(Parts(heard) + parts))
    {
      hide CallsRecord, PartsSound, Indices, IdOf, NameOf, ArgumentsOf;
      ghost var before := Parts(heard);
      assert before + parts[..0] == before;
      for i := 0 to |parts|
        invariant CallsRecord(calls, before + parts[..i]) && PartsSound(before + parts[..i])
      {
        var part := parts[i];
        ghost var was := before + parts[..i];
        assert before + parts[..i + 1] == was + [part];
        assert before + parts == (was + [part]) + parts[i + 1..];
        PartAdmitted(was, part);
        RecordAt(calls, was, part.index);
        PartRecorded(calls, was, part);
        if PartsSound(before + parts) {
          SoundPrefix(was + [part], parts[i + 1..]);
        }
        if part.index < 0 || part.index > MAX_CALL {
          OutOfRangeAt(was, part, parts[i + 1..]);
          return Some(CallBudget);
        }
        var call := if part.index in calls then calls[part.index] else StreamCall("", "", "");
        if part.id != "" && call.id != "" && call.id != part.id {
          ContradictsAt(was, part, parts[i + 1..]);
          return Some(IdentityChanged);
        }
        calls := calls[part.index := Grown(call, part)];
      }
      assert before + parts[..|parts|] == before + parts;
      return None;
    }

    /** The stream keeps to one voice. */
    method HearValue(content: string, refusal: string) returns (fault: Option<Fault>, told: bool)
      requires !failed && Delivered() && Following() && (refused ==> started)
      modifies this`log, this`failed, this`output, this`thinking, this`held, this`nextId, this`started, this`messageIndex, this`text, this`refused
      ensures Delivered() && Following()
      ensures fault.None? <==> !failed && (refusal != "" ==> content == "" && (!old(started) || old(refused))) && (content != "" ==> !old(refused))
      ensures failed <==> fault == Some(WriteFault)
      ensures fault.Some? && !failed ==> fault == Some(MixedVoices)
      ensures fault.None? ==> told == (refusal != "" || content != "") && if told then log != [] && log[|log| - 1].Delta? else log == old(log)
      ensures fault.None? ==>
                && text == old(text) + (if refusal != "" then refusal else content)
                && started == (old(started) || refusal != "" || content != "") && refused == (old(refused) || refusal != "")
      ensures seal.None? && (!old(started) ==> old(held) == []) ==>
                Shown() == old(Shown()) && (!started ==> held == [])
      ensures fault.None? && old(Tidy()) ==> Tidy() && Replay() == KeepValue(old(Replay()), if refusal != "" then refusal else content)
    {
      hide Reads, Quiet, OnEvent, OnItem, AllReasoning, Summaries, Delivered, Tidy;
      told := false;
      var value := content;
      if refusal != "" {
        if value != "" || (started && !refused) {
          return Some(MixedVoices), told;
        }
        refused := true;
        value := refusal;
      } else if value != "" && refused {
        return Some(MixedVoices), told;
      }
      fault := None;
      if value != "" {
        var ok := HearText(value);
        told := true;
        if !ok {
          fault := Some(WriteFault);
        }
      }
    }

    // What a choice reasons, then says.
    method HearWords(choice: Choice) returns (fault: Option<Fault>, told: bool)
      requires !failed && Delivered() && Following() && (refused ==> started)
      modifies this`log, this`failed, this`output, this`thinking, this`held, this`nextId, this`started, this`messageIndex, this`text, this`refused
      ensures Delivered() && Following()
      ensures fault.None? <==> !failed && (choice.refusal != "" ==> choice.content == "" && (!old(started) || old(refused))) && (choice.content != "" ==> !old(refused))
      ensures failed <==> fault == Some(WriteFault)
      ensures fault.Some? && !failed ==> fault == Some(MixedVoices)
      ensures fault.None? ==> told == (Value(choice) != "" || (choice.reasoning != "" && !old(started)))
      ensures fault.None? ==> if told then log != [] && log[|log| - 1].Delta? else log == old(log)
      ensures fault.None? ==>
                && text == old(text) + Value(choice)
                && started == (old(started) || Value(choice) != "") && refused == (old(refused) || choice.refusal != "")
                && (seal.None? && (!old(started) ==> old(held) == []) ==> Shown() == old(Shown()) + choice.reasoning && (!started ==> held == []))
      ensures fault.None? && old(Tidy()) ==> Tidy() && Replay() == KeepChoice(old(Replay()), choice)
    {
      hide Reads, Quiet, OnEvent, OnItem, AllReasoning, Summaries, Delivered, StageOf, Shown, Tidy;
      told := false;
      if choice.reasoning != "" {
        var ok;
        ok, told := HearReasoning(choice.reasoning);
        if !ok {
          return Some(WriteFault), told;
        }
      }
      assert Shown() == old(Shown()) + choice.reasoning;
      var spoke;
      fault, spoke := HearValue(choice.content, choice.refusal);
      told := told || spoke;
    }

    /** Takes in one choice.  A fault means it may not follow what was heard, or was not written. */
    method HearChoice(choice: Choice) returns (fault: Option<Fault>, told: bool)
      requires !failed && Delivered() && Following() && Recorded()
      modifies this`log, this`failed, this`output, this`thinking, this`held, this`nextId, this`started, this`messageIndex, this`text, this`refused, this`finish, this`calls, this`heard
      ensures Delivered() && Following()
      ensures fault.None? ==> !failed && Recorded() && heard == old(heard) + [choice]
      ensures fault.None? ==> Replay() == KeepChoice(old(Replay()), choice)
      ensures fault.Some? ==> failed || (!Sound(old(heard) + [choice]) && Unsound(old(heard) + [choice], fault.value))
      ensures failed <==> fault == Some(WriteFault)
      ensures fault == Some(ManyChoices) <==> choice.index != 0
      ensures fault == Some(DataAfterEnd) <==> choice.index == 0 && FinishOf(old(heard)) != NoFinish
      ensures fault.None? ==> told == (Value(choice) != "" || (choice.reasoning != "" && !old(started)))
      ensures fault.None? ==> if told then log != [] && log[|log| - 1].Delta? else log == old(log)
    {
      hide Reads, Quiet, OnEvent, OnItem, AllReasoning, Summaries, Delivered, Sound, CallsRecord, PartsSound, Refuses, FinishOf, Said, Reasoned, Parts, StageOf, MayFollow, Shown, Tidy, Replay, KeepChoice, Unsound, Value;
      told := false;
      SoundNext(heard, choice);
      UnsoundNext(heard, choice);
      FollowIs(heard, choice);
      ChoiceNext(heard, choice);
      SoundIs(heard);
      RefusalSaid(heard);
      if choice.index != 0 {
        return Some(ManyChoices), told;
      }
      if finish != NoFinish {
        return Some(DataAfterEnd), told;
      }
      if choice.finish != NoFinish {
        finish := choice.finish;
      }
      fault, told := HearWords(choice);
      if fault.Some? {
        return;
      }
      fault := HearParts(choice.parts);
      if fault.None? {
        heard := heard + [choice];
      }
    }

    lemma ReplayStarted()
      ensures Replay().started == started
    {
    }

    method HearChoices(choices: seq<Choice>) returns (fault: Option<Fault>, told: bool)
      requires !failed && Delivered() && Following() && Recorded()
      modifies this`log, this`failed, this`output, this`thinking, this`held, this`nextId, this`started, this`messageIndex, this`text, this`refused, this`finish, this`calls, this`heard
      ensures Delivered() && Following()
      ensures fault.None? ==> !failed && Recorded() && heard == old(heard) + choices
      ensures fault.None? ==> Replay() == KeepChoices(old(Replay()), choices)
      ensures fault.Some? ==> failed || (!Sound(old(heard) + choices) && Unsound(old(heard) + choices, fault.value))
      ensures failed <==> fault == Some(WriteFault)
      ensures fault.None? ==> told == Loud(old(started), choices)
      ensures fault.None? ==> if told then log != [] && log[|log| - 1].Delta? else log == old(log)
    {
      hide *;
      told := false;
      fault := None;
      assert choices[..0] == [] && heard + [] == heard;
      ghost var was := Replay();
      NoChoicesKept(was);
      NothingLoud(was.started);
      ReplayStarted();
      for i := 0 to |choices|
        invariant !failed && Delivered() && Following() && Recorded() && fault == None
        invariant heard == old(heard) + choices[..i] && Replay() == KeepChoices(was, choices[..i])
        invariant started == Replay().started && told == Loud(was.started, choices[..i])
        invariant if told then log != [] && log[|log| - 1].Delta? else log == old(log)
      {
        LoudNext(was, choices[..i], choices[i]);
        KeepChoicesNext(was, choices[..i], choices[i]);
        assert choices[..i + 1] == choices[..i] + [choices[i]];
        assert old(heard) + choices == (heard + [choices[i]]) + choices[i + 1..];
        if Sound(old(heard) + choices) {
          SoundSoFar(heard + [choices[i]], choices[i + 1..]);
        }
        ghost var so := heard;
        var spoke;
        fault, spoke := HearChoice(choices[i]);
        if fault.Some? {
          if !failed {
            UnsoundStays(so + [choices[i]], choices[i + 1..], fault.value);
          }
          return;
        }
        ReplayStarted();
        told := told || spoke;
      }
      assert choices[..|choices|] == choices;
    }

    // A retained item of the provider's own closes the block it belongs to.
    method HearRetained(retained: string) returns (ok: bool)
      requires !failed && Delivered() && Following() && Recorded() && seal.Some?
      modifies this`log, this`failed, this`output, this`thinking, this`held, this`nextId
      ensures Delivered() && Following() && ok == !failed && Recorded() && started == old(started)
      ensures Replay() == KeepRetained(old(Replay()), seal.value(retained))
    {
      hide Reads, Quiet, OnEvent, OnItem, AllReasoning, Summaries, Delivered, Sound, CallsRecord, Refuses, FinishOf, Said, Reasoned, Parts, StageOf, Tidy, Replay, KeepRetained;
      ok := CloseReasoning(Some(retained));
    }

    method Report() returns (ok: bool)
      requires !failed && Delivered() && Following() && Recorded()
      modifies this`log, this`failed
      ensures Delivered() && Following() && ok == !failed && Recorded() && Replay() == old(Replay())
      ensures log == old(log) + [Progress]
    {
      hide Reads, Quiet, OnEvent, OnItem, AllReasoning, Summaries, Delivered, Sound, CallsRecord, Refuses, FinishOf, Said, Reasoned, Parts, StageOf, Tidy;
      Progresses(output, StageOf(thinking, started, messageId, refused, text));
      ok := Emit(Progress);
    }

    // Why a chunk is refused by itself.
    predicate Unhealthy(chunk: Chunk, fault: Fault)
    {
      if chunk.error.Some? then fault == ProviderFault(chunk.error.value) else seal.Some? && chunk.retained == Undecodable && fault == InvalidReasoning
    }

    predicate Healthy(chunk: Chunk) { chunk.error.None? && (seal.Some? ==> chunk.retained != Undecodable) }

    /** Takes in one chunk, and reports progress if it told no text. */
    method Consume(chunk: Chunk) returns (fault: Option<Fault>)
      requires !failed && Delivered() && Following() && Recorded()
      modifies this`log, this`failed, this`output, this`thinking, this`held, this`nextId, this`started, this`messageIndex, this`text, this`refused, this`finish, this`calls, this`heard, this`model, this`usage
      ensures Delivered() && Following()
      ensures fault.None? ==> !failed && Recorded() && heard == old(heard) + chunk.choices && Healthy(chunk)
      ensures fault.None? ==> Replay() == KeepChunk(seal, old(Replay()), chunk)
      ensures !failed ==> model == (if Healthy(chunk) && chunk.model != "" then chunk.model else old(model))
      ensures !failed ==> usage == if Healthy(chunk) && chunk.usage.Some? then Some(Counted(chunk.usage.value, inclusive)) else old(usage)
      ensures fault.None? ==> log != [] && if Loud(old(started), chunk.choices) then log[|log| - 1].Delta? else log[|log| - 1].Progress?
      ensures fault.Some? ==> failed || !Healthy(chunk) || !Sound(old(heard) + chunk.choices)
      ensures fault.Some? && !failed ==> if Healthy(chunk) then Unsound(old(heard) + chunk.choices, fault.value) else Unhealthy(chunk, fault.value)
      ensures failed <==> fault == Some(WriteFault)
    {
      hide Following, Recorded, Delivered, Sound, KeepRetained, KeepChoices, Counted, Replay, Unsound, Loud;
      if chunk.error.Some? {
        return Some(ProviderFault(chunk.error.value));
      }
      if seal.Some? && chunk.retained != NoRetained {
        if chunk.retained == Undecodable {
          return Some(InvalidReasoning);
        }
        var ok := HearRetained(chunk.retained.raw);
        if !ok {
          return Some(WriteFault);
        }
      }
      ghost var begun := started;
      Note(chunk.model, chunk.usage);
      var textEmitted;
      fault, textEmitted := HearChoices(chunk.choices);
      if fault.None? && !textEmitted {
        var ok := Report();
        if !ok {
          return Some(WriteFault);
        }
      }
    }

    // A later name and a later count replace what was reported before.
    method Note(name: string, report: Option<Usage>)
      requires Following() && Recorded()
      modifies this`model, this`usage
      ensures Following() && Recorded() && Replay() == old(Replay())
      ensures model == if name != "" then name else old(model)
      ensures usage == if report.Some? then Some(Counted(report.value, inclusive)) else old(usage)
    {
      hide Reads, Quiet, AllReasoning, Summaries, Sound, CallsRecord, Refuses, FinishOf, Said, Reasoned, Parts, StageOf, Tidy, Counted;
      if name != "" {
        model := name;
      }
      if report.Some? {
        usage := Some(Counted(report.value, inclusive));
      }
    }

    /** The text of the message is finished as it was told; calls make it a commentary. */
    method FinishMessage() returns (ok: bool)
      requires !failed && Delivered() && Following() && thinking.None?
      modifies this`log, this`failed, this`output
      ensures Delivered() && ok == !failed && Quiet(log)
      ensures if failed then !Reads(log).Stuck? else Reads(log) == Live(output, Idle)
      ensures output == old(output) + if started then [Message(messageId, true, calls != map[], [Part(Voiced(refused), text)])] else []
    {
      hide Reads, Quiet, OnEvent, OnItem, AllReasoning, Delivered, Finishes;
      ok := true;
      if started {
        var part := Part(Voiced(refused), text);
        var item := Message(messageId, true, calls != map[], [part]);
        ghost var done, begun := output, NewMessage(messageId);
        EndsText(done, begun, part);
        EndsPart(done, begun, part);
        MessageFinishes(item, part);
        Ends(done, begun, part, item);
        output := output + [item];
        ok := Emit(TextDone(messageId, messageIndex, part.voice, text));
        if ok {
          ok := Emit(PartDone(messageId, messageIndex, part));
        }
        if ok {
          ok := Emit(ItemDone(messageIndex, item));
        }
      }
    }

    /** Reasoning held back follows the message, each item at once. */
    method TellHeld() returns (ok: bool)
      requires !failed && Delivered() && Quiet(log) && Reads(log) == Live(output, Idle) && NoCalls(output) && AllReasoning(held)
      modifies this`log, this`failed, this`output
      ensures Delivered() && ok == !failed && Quiet(log)
      ensures if failed then !Reads(log).Stuck? else Reads(log) == Live(output, Idle)
      ensures !failed ==> output == old(output) + held && NoCalls(output)
    {
      hide Reads, Quiet, OnEvent, OnItem, Delivered;
      ghost var before := output;
      for i := 0 to |held|
        invariant !failed && Delivered() && Quiet(log) && Reads(log) == Live(output, Idle)
        invariant output == before + held[..i] && NoCalls(output)
      {
        var item := held[i];
        Opens(output, item);
        EndsAtOnce(output, item);
        var index := |output|;
        output := output + [item];
        ok := Emit(ItemAdded(index, item));
        if ok {
          ok := Emit(ItemDone(index, item));
        }
        if !ok {
          return;
        }
      }
      return true;
    }

    // The provider's call can be passed on.
    predicate Callable(call: StreamCall)
    {
      call.name in tools && call.id != "" && InputOf(tools[call.name], call.arguments, decode(call.arguments)).Ok?
    }

    predicate CallsValid(calls: map<int, StreamCall>)
    {
      && (forall k :: 0 <= k < |calls| ==> k in calls && Callable(calls[k]))
      && (forall j, k :: 0 <= j < k < |calls| ==> j in calls && k in calls && calls[j].id != calls[k].id)
    }

    predicate Passes(item: StreamItem, call: StreamCall)
    {
      && Callable(call)
      && item.Call? && item.completed && item.callId == call.id && item.tool == tools[call.name]
      && InputOf(tools[call.name], call.arguments, decode(call.arguments)) == Ok(item.input)
    }

    // One item per call, in order.
    predicate PassesAll(items: seq<StreamItem>, calls: map<int, StreamCall>)
    {
      |items| == |calls| && forall k :: 0 <= k < |items| ==> k in calls && Passes(items[k], calls[k])
    }

    // A call that can be passed on after the ones in front of it.
    predicate Admissible(calls: map<int, StreamCall>, k: nat)
    {
      k in calls && Callable(calls[k]) && forall j :: 0 <= j < k && j in calls ==> calls[j].id != calls[k].id
    }

    // What is wrong with a call first.
    predicate CallRefused(calls: map<int, StreamCall>, k: nat, fault: Fault)
    {
      if k !in calls then fault == CallIndices
      else if calls[k].name !in tools then fault == UnavailableTool
      else if calls[k].id == "" || exists j :: 0 <= j < k && j in calls && calls[j].id == calls[k].id then fault == CallIdentity
      else InputOf(tools[calls[k].name], calls[k].arguments, decode(calls[k].arguments)) == Err(fault)
    }

    // The first call that is refused.
    ghost predicate CallsRefused(calls: map<int, StreamCall>, fault: Fault)
    {
      exists k :: 0 <= k < |calls| && CallRefused(calls, k, fault) && forall j :: 0 <= j < k ==> Admissible(calls, j)
    }

    /** Validates all calls before any is exposed. */
    method ValidateCalls() returns (r: Result<seq<StreamItem>, Fault>)
      modifies this`nextId
      ensures r.Ok? <==> CallsValid(calls)
      ensures r.Ok? ==> PassesAll(r.value, calls) && OwnIds(r.value) && forall k :: 0 <= k < |r.value| ==> old(nextId) <= r.value[k].id
      ensures r.Err? ==> r != Err(WriteFault) && CallsRefused(calls, r.error)
    {
      hide InputOf, CallsValid, CallsRefused;
      var items: seq<StreamItem>, seen: set<string> := [], {};
      for index := 0 to |calls|
        invariant forall k :: 0 <= k < index ==> Admissible(calls, k) && k in calls
        invariant |items| == index && forall k :: 0 <= k < index ==> Passes(items[k], calls[k])
        invariant seen == set k | 0 <= k < index :: calls[k].id
        invariant OwnIds(items) && old(nextId) <= nextId && forall k :: 0 <= k < index ==> old(nextId) <= items[k].id < nextId
      {
        if index !in calls {
          RefusedAt(index, CallIndices);
          return Err(CallIndices);
        }
        var call := calls[index];
        if call.name !in tools {
          RefusedAt(index, UnavailableTool);
          return Err(UnavailableTool);
        }
        var tool := tools[call.name];
        if call.id == "" || call.id in seen {
          RefusedAt(index, CallIdentity);
          return Err(CallIdentity);
        }
        seen := seen + {call.id};
        var input := InputOf(tool, call.arguments, decode(call.arguments));
        if input.Err? {
          InputMeans(tool, call.arguments, decode(call.arguments));
          RefusedAt(index, input.error);
          return Err(input.error);
        }
        var id := NextId();
        items := items + [Call(id, call.id, tool, input.value, true)];
      }
      AllAdmissible();
      return Ok(items);
    }

    lemma RefusedAt(k: nat, fault: Fault)
      requires k < |calls| && CallRefused(calls, k, fault) && forall j :: 0 <= j < k ==> Admissible(calls, j)
      ensures CallsRefused(calls, fault) && !CallsValid(calls)
    {
      hide InputOf;
    }

    lemma AllAdmissible()
      requires forall k :: 0 <= k < |calls| ==> Admissible(calls, k)
      ensures CallsValid(calls)
    {
      hide Callable;
      forall k | 0 <= k < |calls| ensures k in calls && Callable(calls[k]) {
        assert Admissible(calls, k);
      }
      forall j, k | 0 <= j < k < |calls| ensures j in calls && k in calls && calls[j].id != calls[k].id {
        assert Admissible(calls, j) && Admissible(calls, k);
      }
    }

    method TellCalls(items: seq<StreamItem>) returns (ok: bool)
      requires !failed && Delivered() && Reads(log) == Live(output, Idle)
      requires forall k :: 0 <= k < |items| ==> items[k].Call? && items[k].completed
      modifies this`log, this`failed, this`output
      ensures Delivered() && ok == !failed
      ensures if failed then !Reads(log).Stuck? else Reads(log) == Live(output, Idle)
      ensures !failed ==> output == old(output) + items
    {
      hide Reads, Quiet, OnEvent, OnItem, Delivered;
      ghost var before := output;
      for i := 0 to |items|
        invariant !failed && Delivered() && Reads(log) == Live(output, Idle)
        invariant output == before + items[..i]
      {
        var item := items[i];
        var added := item.(completed := false, input := "");
        Opens(output, added);
        EndsInput(output, item.id, item.callId, item.tool, item.input);
        var index := |output|;
        output := output + [item];
        ok := Emit(ItemAdded(index, added));
        if ok {
          ok := Emit(InputDone(item.id, index, item.callId, item.tool, item.input));
        }
        if ok {
          ok := Emit(ItemDone(index, item));
        }
        if !ok {
          return;
        }
      }
      return true;
    }

    /** The stream can be finished: for a supported reason, with calls exactly if it says so,
        and all of them valid. */
    ghost predicate Finishable(choices: seq<Choice>)
    {
      var calls := CallMap(Parts(choices));
      && StatusOf(FinishOf(choices)).Some?
      && (FinishOf(choices) == ToolCalls <==> calls != map[])
      && CallsValid(calls)
    }

    // Why a stream that ended cannot be finished.
    ghost predicate Unfinished(choices: seq<Choice>, fault: Fault)
    {
      var finish, calls := FinishOf(choices), CallMap(Parts(choices));
      if StatusOf(finish).None? then fault == NoFinishReason
      else if finish == ToolCalls && calls == map[] then fault == MissingCalls
      else if finish != ToolCalls && calls != map[] then fault == IncompleteCalls
      else CallsRefused(calls, fault)
    }

    /** Everything the stream said, once: its reasoning, its one message, the reasoning held
        back, and its calls.  What the provider wants back is sealed, item for item; elsewhere
        all reasoning is shown. */
    ghost predicate Answer(output: seq<StreamItem>, choices: seq<Choice>, kept: Kept, told: seq<StreamItem>, message: seq<StreamItem>, held: seq<StreamItem>, called: seq<StreamItem>)
    {
      && output == told + message + held + called
      && AllReasoning(told) && AllReasoning(held)
      && Sealed(told) == kept.told && Sealed(held) == kept.held
      && (if seal.Some? then Bare(told) && AllSealed(held) else Summaries(told) + Summaries(held) == Reasoned(choices))
      && (if Said(choices) == "" then message == [] else |message| == 1 && Tells(message[0], Part(if Refuses(choices) then Refused else Spoken, Said(choices)), called != []))
      && PassesAll(called, CallMap(Parts(choices))) && OwnIds(output)
    }

    predicate Tells(item: StreamItem, part: Part, commentary: bool)
    {
      item.Message? && item.completed && item.commentary == commentary && item.content == [part]
    }

    ghost predicate Answered(output: seq<StreamItem>, choices: seq<Choice>, kept: Kept)
    {
      exists told, message, held, called :: Answer(output, choices, kept, told, message, held, called)
    }

    /** Finishes what was heard. */
    method FinishStream() returns (r: Result<Response, Fault>)
      requires !failed && Delivered() && Following() && Recorded()
      modifies this`log, this`failed, this`output, this`thinking, this`held, this`nextId
      ensures Delivered()
      ensures r.Ok? <==> !failed && Finishable(heard)
      ensures failed <==> r == Err(WriteFault)
      ensures r.Err? && !failed ==> Unfinished(heard, r.error)
      ensures r.Ok? ==> log != [] && log[|log| - 1] == Ended(r.value)
      ensures r.Ok? ==> Some(r.value.status) == StatusOf(FinishOf(heard)) && r.value.reason == ReasonOf(FinishOf(heard)) && r.value.model == model && r.value.usage == usage
      ensures r.Ok? ==> Answered(r.value.output, heard, old(Replay())) && Reads(log) == Over(r.value.output, r.value.status)
      ensures !Finishable(heard) ==> Quiet(log)
      ensures r.Err? ==> if failed then !Reads(log).Stuck? else Reads(log).Live? && Reads(log).done == output
    {
      hide Reads, Quiet, OnEvent, OnItem, Delivered, Sound, AllReasoning, Summaries, PassesAll, CallsValid, CallMap, Said, Refuses, Reasoned, Parts, FinishOf, Replay, Tidy, CallsRefused;
      assert finish == FinishOf(heard) && calls == CallMap(Parts(heard));
      var status := StatusOf(finish);
      if status.None? {
        return Err(NoFinishReason);
      }
      if finish == ToolCalls && calls == map[] {
        return Err(MissingCalls);
      }
      if calls != map[] && finish != ToolCalls {
        return Err(IncompleteCalls);
      }
      r := TellRest(status.value);
    }

    // Closes what is open, and tells what is left, if the calls are valid.
    method TellRest(status: Status) returns (r: Result<Response, Fault>)
      requires !failed && Delivered() && Following() && Recorded() && Some(status) == StatusOf(finish)
      modifies this`log, this`failed, this`output, this`thinking, this`held, this`nextId
      ensures Delivered()
      ensures r.Ok? <==> !failed && CallsValid(calls)
      ensures failed <==> r == Err(WriteFault)
      ensures r.Err? && !failed ==> CallsRefused(calls, r.error)
      ensures r.Ok? ==> log != [] && log[|log| - 1] == Ended(r.value)
      ensures r.Ok? ==> r.value.status == status && r.value.reason == ReasonOf(finish) && r.value.model == model && r.value.usage == usage
      ensures r.Ok? ==> Answered(r.value.output, heard, old(Replay())) && Reads(log) == Over(r.value.output, r.value.status)
      ensures !CallsValid(calls) ==> Quiet(log)
      ensures r.Err? ==> if failed then !Reads(log).Stuck? else Reads(log).Live? && Reads(log).done == output
    {
      hide Reads, Quiet, OnEvent, OnItem, Delivered, Sound, AllReasoning, Summaries, PassesAll, CallsValid, CallMap, Said, Refuses, Reasoned, Parts, FinishOf, Answer, Sealed, Bare, AllSealed, Numbered, OwnIds, CallsRefused;
      NoSummaries([]);
      ghost var kept := Replay();
      var ok := CloseReasoning(None);
      if !ok {
        return Err(WriteFault);
      }
      ghost var told, next := output, nextId;
      ok := FinishMessage();
      if !ok {
        return Err(WriteFault);
      }
      ghost var message := output[|told|..];
      assert output == told + message;
      var items := ValidateCalls();
      if items.Err? {
        return Err(items.error);
      }
      StillNoCalls(told, message);
      NumberAll(told, message, held, items.value, None, next);
      r := TellLast(status, items.value);
      if r.Ok? {
        PassedCalls(items.value);
        MakeAnswer(heard, kept, told, message, held, items.value, messageId);
      }
    }

    // What follows the message.
    method TellLast(status: Status, items: seq<StreamItem>) returns (r: Result<Response, Fault>)
      requires !failed && Delivered() && Quiet(log) && Reads(log) == Live(output, Idle) && NoCalls(output) && AllReasoning(held)
      requires PassesAll(items, calls) && status != InProgress
      modifies this`log, this`failed, this`output
      ensures Delivered() && (r.Ok? <==> !failed) && (failed <==> r == Err(WriteFault))
      ensures r.Ok? ==> r.value == Response(status, ReasonOf(finish), model, usage, old(output) + held + items)
      ensures r.Ok? ==> Reads(log) == Over(r.value.output, status) && log != [] && log[|log| - 1] == Ended(r.value)
      ensures failed ==> !Reads(log).Stuck?
    {
      hide *;
      var ok := TellHeld();
      if !ok {
        return Err(WriteFault);
      }
      PassedCalls(items);
      ok := TellCalls(items);
      if !ok {
        return Err(WriteFault);
      }
      r := Conclude(Response(status, ReasonOf(finish), model, usage, output));
    }

    // The last event.
    method Conclude(response: Response) returns (r: Result<Response, Fault>)
      requires !failed && Delivered() && Reads(log) == Live(response.output, Idle) && response.status != InProgress
      modifies this`log, this`failed
      ensures Delivered() && r == (if failed then Err(WriteFault) else Ok(response))
      ensures Reads(log) == Over(response.output, response.status) && log == old(log) + [Ended(response)]
    {
      hide Reads, Quiet, OnEvent, Delivered;
      Closes(response.output, Idle, response);
      var ok := Emit(Ended(response));
      r := if ok then Ok(response) else Err(WriteFault);
    }

    lemma MakeAnswer(choices: seq<Choice>, kept: Kept, told: seq<StreamItem>, message: seq<StreamItem>, held: seq<StreamItem>, called: seq<StreamItem>, id: nat)
      requires AllReasoning(told) && AllReasoning(held) && Sealed(told) == kept.told && Sealed(held) == kept.held
      requires if seal.Some? then Bare(told) && AllSealed(held) else Summaries(told) + Summaries(held) == Reasoned(choices)
      requires message == if Said(choices) != "" then [Message(id, true, called != [], [Part(Voiced(Refuses(choices)), Said(choices))])] else []
      requires PassesAll(called, CallMap(Parts(choices))) && OwnIds(told + message + held + called)
      ensures Answered(told + message + held + called, choices, kept)
    {
      hide AllReasoning, Summaries, PassesAll, CallMap, Said, Refuses, Reasoned, Parts, Sealed, Bare, AllSealed, OwnIds;
      assert Answer(told + message + held + called, choices, kept, told, message, held, called);
    }

    /** The stream is one choice in one voice that ended well, and its calls are valid. */
    ghost predicate Translatable(chunks: seq<Chunk>, ending: Option<Fault>)
    {
      && ending.None?
      && (forall k :: 0 <= k < |chunks| ==> Healthy(chunks[k]))
      && Sound(Choices(chunks)) && Finishable(Choices(chunks))
    }

    /** Where and why a stream is given up: at the first chunk that cannot follow those before it, or at
        its end. */
    ghost predicate Stopped(chunks: seq<Chunk>, ending: Option<Fault>, at: nat, fault: Fault)
    {
      && at <= |chunks| && (forall j :: 0 <= j < at ==> Healthy(chunks[j])) && Sound(Choices(chunks[..at]))
      && if at == |chunks| then (if ending.Some? then ending == Some(fault) else Unfinished(Choices(chunks), fault))
         else if Healthy(chunks[at]) then Unsound(Choices(chunks[..at + 1]), fault) else Unhealthy(chunks[at], fault)
    }

    // The chunks whose reports count: that of a chunk which is refused for its choices does.
    function Noted(chunks: seq<Chunk>, at: nat): seq<Chunk>
      requires at <= |chunks|
    {
      chunks[..if at < |chunks| && Healthy(chunks[at]) then at + 1 else at]
    }

    /** Takes in the chunks the endpoint sends, until it ends or one is refused. */
    method ReadStream(chunks: seq<Chunk>, ending: Option<Fault>) returns (fault: Option<Fault>, ghost at: nat)
      requires !failed && Delivered() && Following() && Recorded() && heard == [] && ending != Some(WriteFault)
      requires Replay() == KEPT_NOTHING && model == name && usage == None
      modifies this`log, this`failed, this`output, this`thinking, this`held, this`nextId, this`started, this`messageIndex, this`text, this`refused, this`finish, this`calls, this`heard, this`model, this`usage
      ensures Delivered() && Following()
      ensures fault.None? ==> !failed && ending.None? && Recorded() && Sound(heard) && heard == Choices(chunks) && forall k :: 0 <= k < |chunks| ==> Healthy(chunks[k])
      ensures fault.None? ==> Replay() == KeptOf(seal, chunks) && model == ModelOf(name, chunks) && usage == CountedOf(chunks, inclusive)
      ensures at <= |chunks| && (!failed ==> model == ModelOf(name, Noted(chunks, at)) && usage == CountedOf(Noted(chunks, at), inclusive))
      ensures fault.Some? ==> failed || (!Translatable(chunks, ending) && Stopped(chunks, ending, at, fault.value))
      ensures fault.None? ==> at == |chunks|
      ensures failed <==> fault == Some(WriteFault)
    {
      hide Reads, Quiet, OnEvent, OnItem, AllReasoning, Summaries, Delivered, Sound, CallsRecord, Refuses, FinishOf, Said, Reasoned, Parts, StageOf, Finishable, Following, Recorded, Choices, Replay, Unsound, Unhealthy, Loud, KeptOf, KeepChunk, ModelOf, CountedOf, Counted;
      assert chunks[..0] == [];
      NoChoices();
      NothingKept(seal);
      NoReports(name, inclusive);
      at := 0;
      for i := 0 to |chunks|
        invariant !failed && Delivered() && Following() && Recorded() && at == i
        invariant Replay() == KeptOf(seal, chunks[..i]) && model == ModelOf(name, chunks[..i]) && usage == CountedOf(chunks[..i], inclusive)
        invariant heard == Choices(chunks[..i]) && forall k :: 0 <= k < i ==> Healthy(chunks[k])
      {
        assert chunks[..i + 1] == chunks[..i] + [chunks[i]];
        ChoicesNext(chunks[..i], chunks[i]);
        KeptNext(seal, chunks[..i], chunks[i]);
        ReportsNext(name, chunks[..i], chunks[i], inclusive);
        assert chunks == chunks[..i + 1] + chunks[i + 1..];
        ChoicesConcat(chunks[..i + 1], chunks[i + 1..]);
        if Sound(Choices(chunks)) {
          SoundSoFar(Choices(chunks[..i + 1]), Choices(chunks[i + 1..]));
        }
        RecordedSound();
        fault := Consume(chunks[i]);
        if fault.Some? {
          return;
        }
        at := at + 1;
      }
      assert chunks[..|chunks|] == chunks;
      RecordedSound();
      NotedAll(chunks);
      if ending.Some? {
        StoppedAtEnd(chunks, ending, ending.value);
      }
      return ending, at;
    }

    method Reset()
      modifies this
      ensures log == [] && !failed && output == [] && thinking == None && held == [] && text == "" && !refused && !started
      ensures nextId == 1 && messageId == 0
      ensures calls == map[] && finish == NoFinish && heard == []
      ensures model == name && usage == None
    {
      hide *;
      log := [];
      failed := false;
      output := [];
      thinking := None;
      held := [];
      nextId := 1;
      ResetMessage();
      ResetReports();
    }

    method ResetMessage()
      modifies this`text, this`refused, this`started, this`messageId, this`messageIndex
      ensures text == "" && !refused && !started && messageId == 0
    {
      text, refused, started, messageId, messageIndex := "", false, false, 0, 0;
    }

    method ResetReports()
      modifies this`calls, this`finish, this`heard, this`model, this`usage
      ensures calls == map[] && finish == NoFinish && heard == [] && model == name && usage == None
    {
      calls, finish, heard, model, usage := map[], NoFinish, [], name, None;
    }

    method Begin() returns (ok: bool)
      modifies this
      ensures Delivered() && Following() && Recorded() && ok == !failed && heard == []
      ensures Replay() == KEPT_NOTHING && model == name && usage == None
    {
      hide Reads, Quiet, OnEvent, OnItem, AllReasoning, Summaries, Sound, StageOf, CallsRecord, Said, Reasoned, Refuses, FinishOf, Parts, Delivered, Sealed, Bare, AllSealed, Numbered;
      NoneNumbered();
      Reset();
      var created := Response(InProgress, NoReason, model, usage, []);
      Begins(created);
      NothingHeard(messageId);
      NothingWritten();
      ok := Emit(Created(created));
    }

    lemma NothingWritten()
      requires log == [] && !failed
      ensures Delivered()
    {
    }

    lemma NotedAll(chunks: seq<Chunk>)
      ensures Noted(chunks, |chunks|) == chunks
    {
    }

    lemma StoppedAtEnd(chunks: seq<Chunk>, ending: Option<Fault>, fault: Fault)
      requires (forall k :: 0 <= k < |chunks| ==> Healthy(chunks[k])) && Sound(Choices(chunks))
      requires if ending.Some? then ending == Some(fault) else Unfinished(Choices(chunks), fault)
      ensures Stopped(chunks, ending, |chunks|, fault)
    {
      assert chunks[..|chunks|] == chunks;
    }

    lemma RecordedSound()
      requires Recorded()
      ensures Sound(heard)
    {
    }

    lemma FollowingIs()
      requires Following()
      ensures !Reads(log).Stuck? && Quiet(log) && (!failed ==> Reads(log).Live? && Reads(log).done == output)
    {
    }

    /** Translates one stream.  Whatever it holds, and wherever writing stops, the client follows;
        the response completes exactly if the stream is translatable and all was written, and
        then answers all of it; a failed one lists exactly the items finished; no call is exposed
        unless all are valid; nothing is written after a failed write. */
    method Read(chunks: seq<Chunk>, ending: Option<Fault>) returns (r: Result<Response, Fault>, ghost at: nat)
      requires ending != Some(WriteFault)
      modifies this
      ensures Delivered() && !Reads(log).Stuck?
      ensures r.Ok? <==> !failed && Translatable(chunks, ending)
      ensures r.Ok? ==> Reads(log) == Over(r.value.output, r.value.status) && Some(r.value.status) == StatusOf(FinishOf(Choices(chunks)))
      ensures r.Ok? ==> r.value.reason == ReasonOf(FinishOf(Choices(chunks))) && Answered(r.value.output, Choices(chunks), KeptOf(seal, chunks))
      ensures r.Ok? ==> r.value.model == ModelOf(name, chunks) && r.value.usage == CountedOf(chunks, inclusive)
      ensures log != [] && log[0] == Created(Response(InProgress, NoReason, name, None, []))
      ensures r.Ok? ==> log != [] && log[|log| - 1] == Ended(r.value)
      ensures r.Err? && !failed ==> Stopped(chunks, ending, at, r.error)
      ensures r.Err? && !failed && !described(r.error) ==> Reads(log).Live?
      ensures r.Err? && !failed && described(r.error) ==>
                && Reads(log) == Over(DoneItems(log), Failed) && log != []
                && log[|log| - 1] == Ended(Response(Failed, Faulted, ModelOf(name, Noted(chunks, at)), CountedOf(Noted(chunks, at), inclusive), DoneItems(log)))
      ensures !Translatable(chunks, ending) ==> Quiet(log)
    {
      hide Following, Recorded, Delivered, Reads, Quiet, OnEvent, OnItem, AllReasoning, Sound, Finishable, Choices, Healthy, KeptOf, ModelOf, CountedOf, Replay, Answered, Noted, Unsound, Unhealthy, Unfinished;
      at := 0;
      var ok := Begin();
      FollowingIs();
      if !ok {
        Begun();
        return Err(WriteFault), at;
      }
      var fault;
      fault, at := ReadStream(chunks, ending);
      FollowingIs();
      if fault.Some? {
        r := Err(fault.value);
      } else {
        NotedAll(chunks);
        r := FinishStream();
        if r.Err? && !failed {
          StoppedAtEnd(chunks, ending, r.error);
        }
      }
      if r.Err? && !failed && described(r.error) {
        var response := Response(Failed, Faulted, model, usage, output);
        Closes(output, Reads(log).stage, response);
        ok := Emit(Ended(response));
        Lifecycle(log);
      }
      Begun();
    }

    lemma Begun()
      requires Delivered() && (failed || !Reads(log).Start?)
      ensures log != [] && log[0] == Created(Response(InProgress, NoReason, name, None, []))
    {
      assert Reads([]).Start?;
      hide Reads;
    }

    lemma PassedCalls(items: seq<StreamItem>)
      requires PassesAll(items, calls)
      ensures forall k :: 0 <= k < |items| ==> items[k].Call? && items[k].completed
      ensures items != [] <==> calls != map[]
    {
    }
  }

  lemma StillNoCalls(told: seq<StreamItem>, message: seq<StreamItem>)
    requires AllReasoning(told) && forall k :: 0 <= k < |message| ==> message[k].Message?
    ensures NoCalls(told + message)
  {
  }

  lemma NothingHeard(id: nat)
    ensures Sound([]) && Said([]) == "" && Reasoned([]) == "" && !Refuses([]) && FinishOf([]) == NoFinish && CallsRecord(map[], Parts([]))
    ensures AllReasoning([]) && Bare([]) && AllSealed([]) && Sealed([]) == [] && Summaries([]) == "" && StageOf(None, false, id, false, "") == Idle
  {
    assert Indices([]) == {};
    assert Parts([]) == [];
  }

  lemma Begins(response: Response)
    requires response.status == InProgress && response.output == []
    ensures Reads([]) == Start && Quiet([]) && OnEvent(Start, Created(response)) == Live([], Idle)
  {
  }

  lemma MessageFinishes(item: StreamItem, part: Part)
    requires item.Message? && item.completed && item.content == [part]
    ensures Finishes(NewMessage(item.id), part, item)
  {
  }

  lemma RecordAt(calls: map<int, StreamCall>, parts: seq<CallPart>, index: int)
    requires CallsRecord(calls, parts)
    ensures IdOf(parts, index) == if index in calls then calls[index].id else ""
  {
    if index !in calls {
      Unmentioned(parts, index);
    }
  }
}
