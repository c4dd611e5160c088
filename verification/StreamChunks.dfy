/** What a provider streams, and what it means as a whole: who speaks, what was said and
    reasoned, and which calls its fragments make up. */
module StreamChunks {
  import opened Text
  import opened StreamEvents

  datatype Finish = NoFinish | Stop | ToolCalls | Length | ContentFilter | OtherFinish

  datatype CallPart = CallPart(index: int, id: string, name: string, arguments: string)

  datatype Choice = Choice(index: int, finish: Finish, reasoning: string, content: string, refusal: string, parts: seq<CallPart>)

  datatype Retained = NoRetained | Undecodable | Decoded(raw: string)

  // What a provider reports; the reasoning stands in one of two places.
  datatype Usage = Usage(prompt: int, completion: int, reasoning: int, detailed: int, cached: int, written: int)

  datatype Chunk = Chunk(error: Option<string>, retained: Retained, model: string, usage: Option<Usage>, choices: seq<Choice>)

  // What a call's decoded arguments are: an object of one field may be a custom tool's input.
  datatype Arguments = Malformed | OtherShape | OneField(input: Option<string>)

  function StatusOf(finish: Finish): Option<Status>
  {
    match finish
    case Stop => Some(Completed)
    case ToolCalls => Some(Completed)
    case Length => Some(Incomplete)
    case ContentFilter => Some(Incomplete)
    case _ => None
  }

  function ReasonOf(finish: Finish): Reason
  {
    match finish
    case Length => MaxOutputTokens
    case ContentFilter => Filtered
    case _ => NoReason
  }

  /** A finish says that the answer is whole, or why it is not; an unknown one says neither. */
  lemma FinishMeans(finish: Finish)
    ensures StatusOf(finish) == Some(Completed) <==> finish in {Stop, ToolCalls}
    ensures StatusOf(finish) == Some(Incomplete) <==> finish in {Length, ContentFilter}
    ensures StatusOf(finish) in {None, Some(Completed), Some(Incomplete)}
    ensures ReasonOf(finish) == MaxOutputTokens <==> finish == Length
    ensures ReasonOf(finish) == Filtered <==> finish == ContentFilter
    ensures ReasonOf(finish) == NoReason <==> StatusOf(finish) != Some(Incomplete)
  {
  }

  // ----- The stream as a whole

  function Choices(chunks: seq<Chunk>): seq<Choice>
  {
    if chunks == [] then [] else Choices(chunks[..|chunks| - 1]) + chunks[|chunks| - 1].choices
  }

  lemma NoChoices()
    ensures Choices([]) == []
  {
  }

  lemma ChoicesNext(chunks: seq<Chunk>, chunk: Chunk)
    ensures Choices(chunks + [chunk]) == Choices(chunks) + chunk.choices
  {
    assert (chunks + [chunk])[..|chunks|] == chunks;
  }

  lemma {:induction false} ChoicesConcat(p: seq<Chunk>, q: seq<Chunk>)
    ensures Choices(p + q) == Choices(p) + Choices(q)
    decreases |q|
  {
    hide *;
    NoChoices();
    if q == [] {
      assert p + q == p && Choices(p) + [] == Choices(p);
    } else {
      var rest, last := q[..|q| - 1], q[|q| - 1];
      ChoicesConcat(p, rest);
      ChoicesNext(p + rest, last);
      ChoicesNext(rest, last);
      assert q == rest + [last] && p + q == (p + rest) + [last];
      assert Choices(p) + (Choices(rest) + last.choices) == Choices(p) + Choices(rest) + last.choices;
    }
  }

  // Some providers count reasoning apart from the completion; a response includes it.
  function Counted(usage: Usage, inclusive: bool): Tokens
  {
    var reasoning := if usage.detailed == 0 then usage.reasoning else usage.detailed;
    var output := usage.completion + if inclusive then 0 else reasoning;
    Tokens(usage.prompt, output, usage.prompt + output, usage.cached, usage.written, reasoning)
  }

  /** The output is the completion with its reasoning in it, once; the total leaves nothing out. */
  lemma CountedMeans(usage: Usage, inclusive: bool)
    ensures var tokens := Counted(usage, inclusive);
            && tokens.total - tokens.output == tokens.input == usage.prompt
            && (if inclusive then tokens.output == usage.completion else tokens.output - tokens.reasoning == usage.completion)
            && (usage.detailed != 0 ==> tokens.reasoning == usage.detailed) && (usage.detailed == 0 ==> tokens.reasoning == usage.reasoning)
            && tokens.cached == usage.cached && tokens.written == usage.written
  {
  }

  // The last report stands.
  function UsageOf(chunks: seq<Chunk>): Option<Usage>
  {
    if chunks == [] then None else
      var last := chunks[|chunks| - 1];
      if last.usage.Some? then last.usage else UsageOf(chunks[..|chunks| - 1])
  }

  // The last name given stands.
  function ModelOf(name: string, chunks: seq<Chunk>): string
  {
    if chunks == [] then name else
      var last := chunks[|chunks| - 1];
      if last.model != "" then last.model else ModelOf(name, chunks[..|chunks| - 1])
  }

  function CountedOf(chunks: seq<Chunk>, inclusive: bool): Option<Tokens>
  {
    var usage := UsageOf(chunks);
    if usage.Some? then Some(Counted(usage.value, inclusive)) else None
  }

  lemma ReportsNext(name: string, chunks: seq<Chunk>, chunk: Chunk, inclusive: bool)
    ensures ModelOf(name, chunks + [chunk]) == if chunk.model != "" then chunk.model else ModelOf(name, chunks)
    ensures CountedOf(chunks + [chunk], inclusive) == if chunk.usage.Some? then Some(Counted(chunk.usage.value, inclusive)) else CountedOf(chunks, inclusive)
  {
    hide Counted;
    assert (chunks + [chunk])[..|chunks|] == chunks;
  }

  /** The last name and the last count given are the ones that stand. */
  lemma {:induction false} LastReports(name: string, p: seq<Chunk>, chunk: Chunk, q: seq<Chunk>, inclusive: bool)
    ensures chunk.model != "" && (forall k :: 0 <= k < |q| ==> q[k].model == "") ==> ModelOf(name, p + [chunk] + q) == chunk.model
    ensures chunk.usage.Some? && (forall k :: 0 <= k < |q| ==> q[k].usage.None?) ==> CountedOf(p + [chunk] + q, inclusive) == Some(Counted(chunk.usage.value, inclusive))
    decreases |q|
  {
    hide *;
    if q == [] {
      assert p + [chunk] + q == p + [chunk];
      ReportsNext(name, p, chunk, inclusive);
    } else {
      var rest, last := q[..|q| - 1], q[|q| - 1];
      LastReports(name, p, chunk, rest, inclusive);
      ReportsNext(name, p + [chunk] + rest, last, inclusive);
      assert p + [chunk] + q == (p + [chunk] + rest) + [last];
      assert forall k :: 0 <= k < |rest| ==> rest[k] == q[k];
    }
  }

  lemma NoReports(name: string, inclusive: bool)
    ensures ModelOf(name, []) == name && CountedOf([], inclusive) == None
  {
  }

  // ----- Reasoning the provider wants back

  // A retained item as it is replayed, with the reasoning it was shown with.
  datatype Seal = Seal(summary: string, content: string)

  /** The retained items: those that closed a block the client was reading, those kept for the
      end, and the reasoning that waits for the next. */
  datatype Kept = Kept(told: seq<Seal>, held: seq<Seal>, waiting: string, started: bool)

  const KEPT_NOTHING := Kept([], [], "", false)

  function KeepRetained(kept: Kept, content: string): Kept
  {
    var item := Seal(kept.waiting, content);
    if kept.waiting != "" && !kept.started then kept.(told := kept.told + [item], waiting := "")
    else kept.(held := kept.held + [item], waiting := "")
  }

  // The message ends the block that precedes it.
  function KeepValue(kept: Kept, value: string): Kept
  {
    if kept.started || value == "" then kept else kept.(waiting := "", started := true)
  }

  function KeepChoice(kept: Kept, choice: Choice): Kept
  {
    KeepValue(kept.(waiting := kept.waiting + choice.reasoning), Value(choice))
  }

  function KeepChoices(kept: Kept, choices: seq<Choice>): Kept
  {
    if choices == [] then kept else KeepChoice(KeepChoices(kept, choices[..|choices| - 1]), choices[|choices| - 1])
  }

  function KeepChunk(seal: Option<string -> string>, kept: Kept, chunk: Chunk): Kept
  {
    KeepChoices(if seal.Some? && chunk.retained.Decoded? then KeepRetained(kept, seal.value(chunk.retained.raw)) else kept, chunk.choices)
  }

  function KeptOf(seal: Option<string -> string>, chunks: seq<Chunk>): Kept
  {
    if chunks == [] then KEPT_NOTHING else KeepChunk(seal, KeptOf(seal, chunks[..|chunks| - 1]), chunks[|chunks| - 1])
  }

  lemma KeepChoicesNext(kept: Kept, choices: seq<Choice>, choice: Choice)
    ensures KeepChoices(kept, choices + [choice]) == KeepChoice(KeepChoices(kept, choices), choice)
  {
    assert (choices + [choice])[..|choices|] == choices;
  }

  lemma NoChoicesKept(kept: Kept)
    ensures KeepChoices(kept, []) == kept
  {
  }

  lemma KeptNext(seal: Option<string -> string>, chunks: seq<Chunk>, chunk: Chunk)
    ensures KeptOf(seal, chunks + [chunk]) == KeepChunk(seal, KeptOf(seal, chunks), chunk)
  {
    assert (chunks + [chunk])[..|chunks|] == chunks;
  }

  // The choices take nothing of what waits, unless a message starts.
  lemma {:induction false} ChoicesWait(kept: Kept, choices: seq<Choice>)
    requires kept.started || Said(choices) == ""
    ensures KeepChoices(kept, choices) == kept.(waiting := kept.waiting + Reasoned(choices))
    decreases |choices|
  {
    hide *;
    NothingReasoned();
    if choices == [] {
      NoChoicesKept(kept);
      assert kept.waiting + "" == kept.waiting;
    } else {
      var rest, last := choices[..|choices| - 1], choices[|choices| - 1];
      assert choices == rest + [last];
      ChoiceNext(rest, last);
      KeepChoicesNext(kept, rest, last);
      if Said(choices) == "" {
        assert |Said(rest) + Value(last)| == 0;
      }
      ChoicesWait(kept, rest);
      ChoiceWaits(KeepChoices(kept, rest), last);
      AddLast(kept.waiting, Reasoned(rest), last.reasoning);
    }
  }

  lemma ChoiceWaits(kept: Kept, choice: Choice)
    requires kept.started || Value(choice) == ""
    ensures KeepChoice(kept, choice) == kept.(waiting := kept.waiting + choice.reasoning)
  {
  }

  lemma {:induction false} ChunksWait(seal: Option<string -> string>, chunks: seq<Chunk>, between: seq<Chunk>)
    requires KeptOf(seal, chunks).started || Said(Choices(between)) == ""
    requires forall k :: 0 <= k < |between| ==> !between[k].retained.Decoded?
    ensures var kept := KeptOf(seal, chunks); KeptOf(seal, chunks + between) == kept.(waiting := kept.waiting + Reasoned(Choices(between)))
    decreases |between|
  {
    hide *;
    NoChoices();
    var kept := KeptOf(seal, chunks);
    if between == [] {
      assert chunks + between == chunks;
      NothingReasoned();
      assert kept.waiting + "" == kept.waiting;
    } else {
      var rest, last := between[..|between| - 1], between[|between| - 1];
      assert between == rest + [last] && chunks + between == (chunks + rest) + [last];
      ChoicesNext(rest, last);
      SayConcat(Choices(rest), last.choices);
      if Said(Choices(between)) == "" {
        assert |Said(Choices(rest)) + Said(last.choices)| == 0;
      }
      ChunksWait(seal, chunks, rest);
      KeptNext(seal, chunks + rest, last);
      ChunkWaits(seal, KeptOf(seal, chunks + rest), last);
      AddLast(kept.waiting, Reasoned(Choices(rest)), Reasoned(last.choices));
    }
  }

  lemma ChunkWaits(seal: Option<string -> string>, kept: Kept, chunk: Chunk)
    requires !chunk.retained.Decoded? && (kept.started || Said(chunk.choices) == "")
    ensures KeepChunk(seal, kept, chunk) == kept.(waiting := kept.waiting + Reasoned(chunk.choices))
  {
    ChoicesWait(kept, chunk.choices);
  }

  /** A retained item is shown with all the reasoning since the last one, or since the message started:
      among the items told if the client was reading it, and among those held otherwise. */
  lemma SealedWith(seal: string -> string, chunks: seq<Chunk>, between: seq<Chunk>, last: Chunk)
    requires KeptOf(Some(seal), chunks).waiting == "" && (KeptOf(Some(seal), chunks).started || Said(Choices(between)) == "")
    requires (forall k :: 0 <= k < |between| ==> !between[k].retained.Decoded?) && last.retained.Decoded? && last.choices == []
    ensures var was, now, text := KeptOf(Some(seal), chunks), KeptOf(Some(seal), chunks + between + [last]), Reasoned(Choices(between));
            var item := Seal(text, seal(last.retained.raw));
            && now.waiting == "" && now.started == was.started
            && (if text != "" && !was.started then now.told == was.told + [item] && now.held == was.held
                else now.told == was.told && now.held == was.held + [item])
  {
    hide *;
    ChunksWait(Some(seal), chunks, between);
    KeptNext(Some(seal), chunks + between, last);
    LastKept(seal, KeptOf(Some(seal), chunks + between), last);
    assert "" + Reasoned(Choices(between)) == Reasoned(Choices(between));
  }

  lemma LastKept(seal: string -> string, kept: Kept, last: Chunk)
    requires last.retained.Decoded? && last.choices == []
    ensures var now, item := KeepChunk(Some(seal), kept, last), Seal(kept.waiting, seal(last.retained.raw));
            && now.waiting == "" && now.started == kept.started
            && (if kept.waiting != "" && !kept.started then now.told == kept.told + [item] && now.held == kept.held
                else now.told == kept.told && now.held == kept.held + [item])
  {
  }

  lemma NothingKept(seal: Option<string -> string>)
    ensures KeptOf(seal, []) == KEPT_NOTHING
  {
  }

  // What there is to replay, however it is shown.
  function Contents(items: seq<Seal>): (contents: multiset<string>)
  {
    if items == [] then multiset{} else Contents(items[..|items| - 1]) + multiset{items[|items| - 1].content}
  }

  function Sealings(seal: string -> string, chunks: seq<Chunk>): multiset<string>
  {
    if chunks == [] then multiset{} else
      var last := chunks[|chunks| - 1].retained;
      Sealings(seal, chunks[..|chunks| - 1]) + if last.Decoded? then multiset{seal(last.raw)} else multiset{}
  }

  lemma ContentsNext(items: seq<Seal>, item: Seal)
    ensures Contents(items + [item]) == Contents(items) + multiset{item.content}
  {
    assert (items + [item])[..|items|] == items;
  }

  lemma {:induction false} ChoicesKeep(kept: Kept, choices: seq<Choice>)
    ensures KeepChoices(kept, choices).told == kept.told && KeepChoices(kept, choices).held == kept.held
    decreases |choices|
  {
    if choices != [] {
      ChoicesKeep(kept, choices[..|choices| - 1]);
    }
  }

  /** Each retained item is replayed exactly once, told or held. */
  lemma {:induction false} KeptOnce(seal: string -> string, chunks: seq<Chunk>)
    ensures var kept := KeptOf(Some(seal), chunks); Contents(kept.told) + Contents(kept.held) == Sealings(seal, chunks)
    decreases |chunks|
  {
    if chunks != [] {
      var rest, last := chunks[..|chunks| - 1], chunks[|chunks| - 1];
      var before := KeptOf(Some(seal), rest);
      KeptOnce(seal, rest);
      if last.retained.Decoded? {
        var item := Seal(before.waiting, seal(last.retained.raw));
        ContentsNext(before.told, item);
        ContentsNext(before.held, item);
        ChoicesKeep(KeepRetained(before, item.content), last.choices);
      } else {
        ChoicesKeep(before, last.choices);
      }
    }
  }

  function Value(choice: Choice): string { if choice.refusal != "" then choice.refusal else choice.content }

  function Said(choices: seq<Choice>): string
  {
    if choices == [] then "" else Said(choices[..|choices| - 1]) + Value(choices[|choices| - 1])
  }

  function Reasoned(choices: seq<Choice>): string
  {
    if choices == [] then "" else Reasoned(choices[..|choices| - 1]) + choices[|choices| - 1].reasoning
  }

  function Parts(choices: seq<Choice>): seq<CallPart>
  {
    if choices == [] then [] else Parts(choices[..|choices| - 1]) + choices[|choices| - 1].parts
  }

  function FinishOf(choices: seq<Choice>): Finish
  {
    if choices == [] then NoFinish else choices[|choices| - 1].finish
  }

  lemma NothingReasoned()
    ensures Reasoned([]) == "" && Said([]) == "" && Parts([]) == []
  {
  }

  /** What is said, reasoned and called by one choice after another is said, reasoned and called. */
  lemma {:induction false} SayConcat(p: seq<Choice>, q: seq<Choice>)
    ensures Said(p + q) == Said(p) + Said(q) && Reasoned(p + q) == Reasoned(p) + Reasoned(q) && Parts(p + q) == Parts(p) + Parts(q)
    decreases |q|
  {
    hide *;
    NothingReasoned();
    if q == [] {
      assert p + q == p && Said(p) + "" == Said(p) && Reasoned(p) + "" == Reasoned(p) && Parts(p) + [] == Parts(p);
    } else {
      var rest, last := q[..|q| - 1], q[|q| - 1];
      assert q == rest + [last] && p + q == (p + rest) + [last];
      SayConcat(p, rest);
      ChoiceNext(rest, last);
      ChoiceNext(p + rest, last);
      AddLast(Said(p), Said(rest), Value(last));
      AddLast(Reasoned(p), Reasoned(rest), last.reasoning);
      AddLast(Parts(p), Parts(rest), last.parts);
    }
  }

  lemma AddLast<T>(p: seq<T>, q: seq<T>, r: seq<T>)
    ensures p + q + r == p + (q + r)
  {
  }

  lemma SayOne(choice: Choice)
    ensures Said([choice]) == (if choice.refusal != "" then choice.refusal else choice.content)
    ensures Reasoned([choice]) == choice.reasoning && Parts([choice]) == choice.parts
  {
    ChoiceNext([], choice);
    assert [] + [choice] == [choice];
  }

  predicate Refuses(choices: seq<Choice>) { exists k :: 0 <= k < |choices| && choices[k].refusal != "" }

  // One choice, which nothing follows once it finished.
  predicate OneChoice(choices: seq<Choice>)
  {
    && (forall k :: 0 <= k < |choices| ==> choices[k].index == 0)
    && (forall k :: 0 <= k < |choices| - 1 ==> choices[k].finish == NoFinish)
  }

  // Text or refusal, never both.
  predicate OneVoice(choices: seq<Choice>)
  {
    forall j, k :: 0 <= j < |choices| && 0 <= k < |choices| && choices[j].content != "" ==> choices[k].refusal == ""
  }

  const MAX_CALL := 1023

  predicate PartsSound(parts: seq<CallPart>)
  {
    && (forall k :: 0 <= k < |parts| ==> 0 <= parts[k].index <= MAX_CALL)
    && forall j, k :: 0 <= j < |parts| && 0 <= k < |parts| && parts[j].index == parts[k].index && parts[j].id != "" && parts[k].id != "" ==>
         parts[j].id == parts[k].id
  }

  predicate OutOfRange(parts: seq<CallPart>) { exists k :: 0 <= k < |parts| && !(0 <= parts[k].index <= 1023) }

  // A call is given two identities.
  predicate Contradictory(parts: seq<CallPart>)
  {
    exists j, k :: 0 <= j < |parts| && 0 <= k < |parts| && parts[j].index == parts[k].index && parts[j].id != "" && parts[k].id != "" && parts[j].id != parts[k].id
  }

  lemma OutOfRangeAt(parts: seq<CallPart>, part: CallPart, more: seq<CallPart>)
    requires !(0 <= part.index <= MAX_CALL)
    ensures OutOfRange(parts + [part] + more)
  {
    assert (parts + [part] + more)[|parts|] == part;
  }

  lemma ContradictsAt(parts: seq<CallPart>, part: CallPart, more: seq<CallPart>)
    requires part.id != "" && IdOf(parts, part.index) !in {"", part.id}
    ensures Contradictory(parts + [part] + more)
  {
    var all := parts + [part] + more;
    Identified(parts, part.index);
    var k :| 0 <= k < |parts| && parts[k].index == part.index && parts[k].id == IdOf(parts, part.index);
    assert all[k] == parts[k] && all[|parts|] == part;
  }

  // ----- Text told at once

  // There is text to tell: some said, or reasoning before any is.
  predicate Loud(started: bool, choices: seq<Choice>)
  {
    exists k :: 0 <= k < |choices| && (Value(choices[k]) != "" || (choices[k].reasoning != "" && !Spoke(started, choices[..k])))
  }

  predicate Spoke(started: bool, choices: seq<Choice>) { started || exists k :: 0 <= k < |choices| && Value(choices[k]) != "" }

  lemma NothingLoud(started: bool)
    ensures !Loud(started, [])
  {
  }

  lemma {:induction false} KeepsSpoke(kept: Kept, choices: seq<Choice>)
    ensures KeepChoices(kept, choices).started == Spoke(kept.started, choices)
    decreases |choices|
  {
    if choices != [] {
      var rest, last := choices[..|choices| - 1], choices[|choices| - 1];
      KeepsSpoke(kept, rest);
      assert forall k :: 0 <= k < |rest| ==> rest[k] == choices[k];
      hide Value;
    }
  }

  lemma LoudNext(kept: Kept, choices: seq<Choice>, choice: Choice)
    ensures Loud(kept.started, choices + [choice]) <==>
              Loud(kept.started, choices) || Value(choice) != "" || (choice.reasoning != "" && !KeepChoices(kept, choices).started)
  {
    KeepsSpoke(kept, choices);
    hide Value, KeepChoices, Spoke;
    var now, n := choices + [choice], |choices|;
    assert now[n] == choice && now[..n] == choices;
    assert forall k :: 0 <= k < n ==> now[k] == choices[k] && now[..k] == choices[..k];
  }

  predicate Sound(choices: seq<Choice>) { OneChoice(choices) && OneVoice(choices) && PartsSound(Parts(choices)) }

  // ----- Calls from fragments

  function Indices(parts: seq<CallPart>): set<int> { set k | 0 <= k < |parts| :: parts[k].index }

  function IdOf(parts: seq<CallPart>, index: int): string
  {
    if parts == [] then "" else
      var last := parts[|parts| - 1];
      if last.index == index && last.id != "" then last.id else IdOf(parts[..|parts| - 1], index)
  }

  function NameOf(parts: seq<CallPart>, index: int): string
  {
    if parts == [] then "" else
      var last := parts[|parts| - 1];
      NameOf(parts[..|parts| - 1], index) + if last.index == index then last.name else ""
  }

  function ArgumentsOf(parts: seq<CallPart>, index: int): string
  {
    if parts == [] then "" else
      var last := parts[|parts| - 1];
      ArgumentsOf(parts[..|parts| - 1], index) + if last.index == index then last.arguments else ""
  }

  // A call as far as it was streamed.
  datatype StreamCall = StreamCall(id: string, name: string, arguments: string)

  function CallAt(parts: seq<CallPart>, index: int): StreamCall { StreamCall(IdOf(parts, index), NameOf(parts, index), ArgumentsOf(parts, index)) }

  /** Fragments of a call add up, and the last identity given stands. */
  lemma {:induction false} CallConcat(p: seq<CallPart>, q: seq<CallPart>, index: int)
    ensures NameOf(p + q, index) == NameOf(p, index) + NameOf(q, index) && ArgumentsOf(p + q, index) == ArgumentsOf(p, index) + ArgumentsOf(q, index)
    ensures IdOf(p + q, index) == if IdOf(q, index) != "" then IdOf(q, index) else IdOf(p, index)
    decreases |q|
  {
    hide *;
    NoFragments(index);
    if q == [] {
      assert p + q == p && NameOf(p, index) + "" == NameOf(p, index) && ArgumentsOf(p, index) + "" == ArgumentsOf(p, index);
    } else {
      var rest, last := q[..|q| - 1], q[|q| - 1];
      assert q == rest + [last] && p + q == (p + rest) + [last];
      CallConcat(p, rest, index);
      FragmentNext(rest, last, index);
      FragmentNext(p + rest, last, index);
      AddLast(NameOf(p, index), NameOf(rest, index), if last.index == index then last.name else "");
      AddLast(ArgumentsOf(p, index), ArgumentsOf(rest, index), if last.index == index then last.arguments else "");
    }
  }

  lemma FragmentNext(parts: seq<CallPart>, part: CallPart, index: int)
    ensures IdOf(parts + [part], index) == if part.index == index && part.id != "" then part.id else IdOf(parts, index)
    ensures NameOf(parts + [part], index) == NameOf(parts, index) + if part.index == index then part.name else ""
    ensures ArgumentsOf(parts + [part], index) == ArgumentsOf(parts, index) + if part.index == index then part.arguments else ""
  {
    assert (parts + [part])[..|parts|] == parts;
  }

  lemma NoFragments(index: int)
    ensures IdOf([], index) == "" && NameOf([], index) == "" && ArgumentsOf([], index) == ""
  {
  }

  // One fragment is all of its call, and of no other.
  lemma CallOne(part: CallPart, index: int)
    ensures CallAt([part], index) == if part.index == index then StreamCall(part.id, part.name, part.arguments) else StreamCall("", "", "")
  {
    FragmentNext([], part, index);
    assert [] + [part] == [part];
  }

  // The calls the fragments make up.
  function CallMap(parts: seq<CallPart>): map<int, StreamCall> { map i | i in Indices(parts) :: CallAt(parts, i) }

  predicate CallsRecord(calls: map<int, StreamCall>, parts: seq<CallPart>) { calls == CallMap(parts) }

  function Grown(call: StreamCall, part: CallPart): StreamCall
  {
    StreamCall(if part.id != "" then part.id else call.id, call.name + part.name, call.arguments + part.arguments)
  }

  lemma {:induction false} Unmentioned(parts: seq<CallPart>, index: int)
    requires index !in Indices(parts)
    ensures IdOf(parts, index) == "" && NameOf(parts, index) == "" && ArgumentsOf(parts, index) == ""
  {
    if parts != [] {
      var last := |parts| - 1;
      assert parts[last].index in Indices(parts);
      forall k | 0 <= k < last ensures parts[..last][k].index in Indices(parts) {
        assert parts[..last][k] == parts[k];
      }
      Unmentioned(parts[..last], index);
    }
  }

  // A nonempty identity is one some fragment gave; none is left out.
  lemma {:induction false} Identified(parts: seq<CallPart>, index: int)
    ensures IdOf(parts, index) != "" ==> exists k :: 0 <= k < |parts| && parts[k].index == index && parts[k].id == IdOf(parts, index)
    ensures IdOf(parts, index) == "" ==> forall k :: 0 <= k < |parts| && parts[k].index == index ==> parts[k].id == ""
  {
    if parts != [] {
      var last := |parts| - 1;
      Identified(parts[..last], index);
      if IdOf(parts, index) == IdOf(parts[..last], index) && IdOf(parts, index) != "" {
        var k :| 0 <= k < last && parts[..last][k].index == index && parts[..last][k].id == IdOf(parts, index);
        assert parts[k].index == index;
      }
      forall k | IdOf(parts, index) == "" && 0 <= k < last && parts[k].index == index ensures parts[k].id == "" {
        assert parts[..last][k] == parts[k];
      }
    }
  }

  lemma IndicesNext(parts: seq<CallPart>, part: CallPart)
    ensures Indices(parts + [part]) == Indices(parts) + {part.index}
  {
    var now := parts + [part];
    forall i | i in Indices(parts) + {part.index} ensures i in Indices(now) {
      if i == part.index {
        assert now[|parts|].index == i;
      } else {
        var k :| 0 <= k < |parts| && parts[k].index == i;
        assert now[k].index == i;
      }
    }
    forall i | i in Indices(now) ensures i in Indices(parts) + {part.index} {
      var k :| 0 <= k < |now| && now[k].index == i;
      if k < |parts| {
        assert parts[k].index == i;
      }
    }
  }

  /** A fragment is admissible exactly if its index is in range and it does not change its
      call's identity. */
  lemma PartAdmitted(parts: seq<CallPart>, part: CallPart)
    requires PartsSound(parts)
    ensures PartsSound(parts + [part]) <==>
              0 <= part.index <= MAX_CALL && (part.id != "" && IdOf(parts, part.index) != "" ==> IdOf(parts, part.index) == part.id)
  {
    var now := parts + [part];
    var id := IdOf(parts, part.index);
    Identified(parts, part.index);
    assert now[|parts|] == part;
    assert forall k :: 0 <= k < |parts| ==> now[k] == parts[k];
    if id != "" {
      var k :| 0 <= k < |parts| && parts[k].index == part.index && parts[k].id == id;
      assert now[k].id == id;
    }
  }

  lemma CallNext(parts: seq<CallPart>, part: CallPart, index: int)
    ensures CallAt(parts + [part], index) == if index == part.index then Grown(CallAt(parts, index), part) else CallAt(parts, index)
  {
    assert (parts + [part])[..|parts|] == parts;
  }

  lemma PartRecorded(calls: map<int, StreamCall>, parts: seq<CallPart>, part: CallPart)
    requires CallsRecord(calls, parts)
    ensures CallsRecord(calls[part.index := Grown(if part.index in calls then calls[part.index] else StreamCall("", "", ""), part)], parts + [part])
  {
    hide IdOf, NameOf, ArgumentsOf, Indices, Grown;
    IndicesNext(parts, part);
    if part.index !in calls {
      Unmentioned(parts, part.index);
    }
    forall i ensures CallAt(parts + [part], i) == if i == part.index then Grown(CallAt(parts, i), part) else CallAt(parts, i) {
      CallNext(parts, part, i);
    }
  }

  lemma {:induction false} SoundPrefix(parts: seq<CallPart>, more: seq<CallPart>)
    requires PartsSound(parts + more)
    ensures PartsSound(parts)
  {
    assert forall k :: 0 <= k < |parts| ==> (parts + more)[k] == parts[k];
  }

  // ----- One choice more

  lemma ChoiceNext(choices: seq<Choice>, choice: Choice)
    ensures var now := choices + [choice];
            && Said(now) == Said(choices) + Value(choice)
            && Reasoned(now) == Reasoned(choices) + choice.reasoning
            && Parts(now) == Parts(choices) + choice.parts
            && FinishOf(now) == choice.finish
            && (Refuses(now) <==> Refuses(choices) || choice.refusal != "")
  {
    var now := choices + [choice];
    assert now[..|choices|] == choices;
    if Refuses(choices) {
      var k :| 0 <= k < |choices| && choices[k].refusal != "";
      assert now[k].refusal != "";
    }
    if choice.refusal != "" {
      assert now[|choices|].refusal != "";
    }
  }

  lemma {:induction false} SaidNothing(choices: seq<Choice>)
    ensures Said(choices) == "" <==> forall k :: 0 <= k < |choices| ==> Value(choices[k]) == ""
    decreases |choices|
  {
    hide *;
    NothingReasoned();
    if choices != [] {
      var rest, last := choices[..|choices| - 1], choices[|choices| - 1];
      assert choices == rest + [last];
      SaidNothing(rest);
      ChoiceNext(rest, last);
      assert |Said(rest) + Value(last)| == |Said(rest)| + |Value(last)|;
      assert forall k :: 0 <= k < |rest| ==> rest[k] == choices[k];
    }
  }

  lemma RefusalSaid(choices: seq<Choice>)
    ensures Refuses(choices) ==> Said(choices) != ""
  {
    SaidNothing(choices);
    if Refuses(choices) {
      var k :| 0 <= k < |choices| && choices[k].refusal != "";
      assert Value(choices[k]) != "";
    }
  }

  /** A choice is admissible after sound ones exactly if it is the one choice, nothing
      finished, and it keeps to the voice already heard. */
  predicate MayFollow(choices: seq<Choice>, choice: Choice)
  {
    && choice.index == 0 && FinishOf(choices) == NoFinish
    && (choice.refusal != "" ==> choice.content == "" && (Said(choices) == "" || Refuses(choices)))
    && (choice.content != "" ==> !Refuses(choices))
  }

  predicate Speaks(choices: seq<Choice>) { exists k :: 0 <= k < |choices| && choices[k].content != "" }

  lemma OneVoiceIs(choices: seq<Choice>)
    ensures OneVoice(choices) <==> !(Speaks(choices) && Refuses(choices))
    ensures Said(choices) != "" <==> Speaks(choices) || Refuses(choices)
  {
    SaidNothing(choices);
    hide Said;
    if Said(choices) == "" {
      assert forall k :: 0 <= k < |choices| ==> Value(choices[k]) == "";
    } else {
      var k :| 0 <= k < |choices| && Value(choices[k]) != "";
      assert choices[k].refusal != "" || choices[k].content != "";
    }
    if Refuses(choices) {
      var k :| 0 <= k < |choices| && choices[k].refusal != "";
      assert Value(choices[k]) != "";
    }
    if Speaks(choices) {
      var k :| 0 <= k < |choices| && choices[k].content != "";
      assert Value(choices[k]) != "";
    }
  }

  lemma SpeaksNext(choices: seq<Choice>, choice: Choice)
    ensures Speaks(choices + [choice]) <==> Speaks(choices) || choice.content != ""
  {
    var now := choices + [choice];
    assert now[|choices|] == choice;
    if Speaks(choices) {
      var k :| 0 <= k < |choices| && choices[k].content != "";
      assert now[k].content != "";
    }
  }

  lemma VoiceFollows(choices: seq<Choice>, choice: Choice)
    requires OneVoice(choices)
    ensures OneVoice(choices + [choice]) <==>
              (choice.refusal != "" ==> choice.content == "" && (Said(choices) == "" || Refuses(choices))) && (choice.content != "" ==> !Refuses(choices))
  {
    hide *;
    OneVoiceIs(choices);
    OneVoiceIs(choices + [choice]);
    SpeaksNext(choices, choice);
    ChoiceNext(choices, choice);
  }

  lemma ChoiceFollows(choices: seq<Choice>, choice: Choice)
    requires OneChoice(choices)
    ensures OneChoice(choices + [choice]) <==> choice.index == 0 && FinishOf(choices) == NoFinish
  {
    var now := choices + [choice];
    var n := |choices|;
    assert now[n] == choice;
    assert forall k :: 0 <= k < n ==> now[k] == choices[k];
    if n > 0 && OneChoice(now) {
      assert now[n - 1].finish == NoFinish;
    }
  }

  lemma SoundNext(choices: seq<Choice>, choice: Choice)
    requires Sound(choices)
    ensures Sound(choices + [choice]) <==> MayFollow(choices, choice) && PartsSound(Parts(choices) + choice.parts)
  {
    hide *;
    assert OneChoice(choices) && OneVoice(choices) by { SoundIs(choices); }
    ChoiceFollows(choices, choice);
    VoiceFollows(choices, choice);
    ChoiceNext(choices, choice);
    SoundIs(choices + [choice]);
    FollowIs(choices, choice);
  }

  lemma SoundIs(choices: seq<Choice>)
    ensures Sound(choices) <==> OneChoice(choices) && OneVoice(choices) && PartsSound(Parts(choices))
  {
  }

  lemma FollowIs(choices: seq<Choice>, choice: Choice)
    ensures MayFollow(choices, choice) <==>
              && choice.index == 0 && FinishOf(choices) == NoFinish
              && (choice.refusal != "" ==> choice.content == "" && (Said(choices) == "" || Refuses(choices)))
              && (choice.content != "" ==> !Refuses(choices))
  {
  }

  // Unsound stays unsound.
  lemma SoundSoFar(choices: seq<Choice>, more: seq<Choice>)
    requires Sound(choices + more)
    ensures Sound(choices)
  {
    var all := choices + more;
    assert forall k :: 0 <= k < |choices| ==> all[k] == choices[k];
    SayConcat(choices, more);
    SoundPrefix(Parts(choices), Parts(more));
  }
}
