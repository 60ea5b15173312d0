/**
 From the normalized messages, whose content blocks every provider understands, to the OpenAI
 chat format, and back.
 */
module Translation {
  import opened Prelude
  import opened StreamAssembly

  datatype Role = User | Assistant

  datatype Block<J> =
    | TextBlock(text: string)
    | ToolUse(id: string, name: string, input: J)
    | ToolResult(toolUseId: string, output: string)

  datatype Content<J> = Plain(text: string) | Blocks(blocks: seq<Block<J>>)

  datatype Message<J> = Message(role: Role, content: Content<J>)

  /** A message in the OpenAI format; an entry without tool calls has no `tool_calls` key. */
  datatype Wire = Wire(role: string, content: Option<string>, toolCalls: seq<WireCall>, toolCallId: Option<string>)

  function RoleName(r: Role): string {
    if r.User? then "user" else "assistant"
  }

  function Texts<J>(blocks: seq<Block<J>>): string {
    if blocks == [] then ""
    else (if blocks[0].TextBlock? then blocks[0].text else "") + Texts(blocks[1..])
  }

  function Uses<J>(blocks: seq<Block<J>>, dumps: J -> string): seq<WireCall> {
    if blocks == [] then []
    else if blocks[0].ToolUse? then
      [WireCall(blocks[0].id, blocks[0].name, dumps(blocks[0].input))] + Uses(blocks[1..], dumps)
    else Uses(blocks[1..], dumps)
  }

  function ToolMessage(id: string, output: string): Wire {
    Wire("tool", Some(output), [], Some(id))
  }

  function Results<J>(blocks: seq<Block<J>>): seq<Wire> {
    if blocks == [] then []
    else if blocks[0].ToolResult? then [ToolMessage(blocks[0].toolUseId, blocks[0].output)] + Results(blocks[1..])
    else Results(blocks[1..])
  }

  function TranslateOne<J>(m: Message<J>, dumps: J -> string): seq<Wire> {
    match m.content
    case Plain(text) => [Wire(RoleName(m.role), Some(text), [], None)]
    case Blocks(blocks) =>
      if m.role.Assistant? then
        [Wire("assistant", if Texts(blocks) == "" then None else Some(Texts(blocks)), Uses(blocks, dumps), None)]
      else Results(blocks)
  }

  function TranslateAll<J>(ms: seq<Message<J>>, dumps: J -> string): seq<Wire> {
    if ms == [] then [] else TranslateOne(ms[0], dumps) + TranslateAll(ms[1..], dumps)
  }

  function SystemPart(system: Option<string>): seq<Wire> {
    if system.Some? && system.value != "" then [Wire("system", system, [], None)] else []
  }

  /** `_translate_messages`. */
  method TranslateMessages<J>(messages: seq<Message<J>>, system: Option<string>, dumps: J -> string)
    returns (result: seq<Wire>)
    ensures result == SystemPart(system) + TranslateAll(messages, dumps)
    ensures system == None || system == Some("") ==> result == TranslateAll(messages, dumps)
    ensures system.Some? && system.value != "" ==>
              result == [Wire("system", system, [], None)] + TranslateAll(messages, dumps)
  {
    result := [];
    if system.Some? && system.value != "" {
      result := result + [Wire("system", system, [], None)];
    }
    var i := 0;
    while i < |messages|
      invariant 0 <= i <= |messages|
      invariant result + TranslateAll(messages[i..], dumps) == SystemPart(system) + TranslateAll(messages, dumps)
    {
      var m := messages[i];
      assert messages[i..][1..] == messages[i + 1..];
      Assoc(result, TranslateOne(m, dumps), TranslateAll(messages[i + 1..], dumps));
      match m.content {
        case Plain(text) =>
          result := result + [Wire(RoleName(m.role), Some(text), [], None)];
        case Blocks(blocks) =>
          if m.role.Assistant? {
            var text, calls := Texts(blocks), Uses(blocks, dumps);
            result := result + [Wire("assistant", if text == "" then None else Some(text), calls, None)];
          } else {
            result := AppendResults(result, blocks);
          }
      }
      i := i + 1;
    }
    assert messages[i..] == [] && result + [] == result;
  }

  method AppendResults<J>(result0: seq<Wire>, blocks: seq<Block<J>>) returns (result: seq<Wire>)
    ensures result == result0 + Results(blocks)
  {
    result := result0;
    var i := 0;
    while i < |blocks|
      invariant 0 <= i <= |blocks|
      invariant result + Results(blocks[i..]) == result0 + Results(blocks)
    {
      assert blocks[i..][1..] == blocks[i + 1..];
      if blocks[i].ToolResult? {
        var tool := ToolMessage(blocks[i].toolUseId, blocks[i].output);
        Assoc(result, [tool], Results(blocks[i + 1..]));
        result := result + [tool];
      }
      i := i + 1;
    }
    assert blocks[i..] == [] && result + [] == result;
  }

  // The messages of an agent conversation.

  /** One tool round of the agent: what the model said, the calls it made, and their outputs in order. */
  datatype Round<J> = Round(text: string, calls: seq<ToolCall<J>>, outputs: seq<string>) {
    predicate Valid() {
      |calls| == |outputs| > 0
    }
  }

  function UseBlocks<J>(calls: seq<ToolCall<J>>): seq<Block<J>> {
    if calls == [] then [] else [ToolUse(calls[0].id, calls[0].name, calls[0].arguments)] + UseBlocks(calls[1..])
  }

  function ResultBlocks<J>(calls: seq<ToolCall<J>>, outputs: seq<string>): seq<Block<J>>
    requires |calls| == |outputs|
  {
    if calls == [] then [] else [ToolResult(calls[0].id, outputs[0])] + ResultBlocks(calls[1..], outputs[1..])
  }

  /** `_assistant_turn`. */
  function AssistantTurn<J>(text: string, calls: seq<ToolCall<J>>): Message<J> {
    Message(Assistant, Blocks((if text == "" then [] else [TextBlock(text)]) + UseBlocks(calls)))
  }

  function ToolTurn<J>(r: Round<J>): Message<J>
    requires r.Valid()
  {
    Message(User, Blocks(ResultBlocks(r.calls, r.outputs)))
  }

  function RoundMessages<J>(rounds: seq<Round<J>>): seq<Message<J>>
    requires forall i :: 0 <= i < |rounds| ==> rounds[i].Valid()
  {
    if rounds == [] then []
    else [AssistantTurn(rounds[0].text, rounds[0].calls), ToolTurn(rounds[0])] + RoundMessages(rounds[1..])
  }

  /** An assistant turn: its text, if there is one, and then its calls in order. */
  ghost predicate TurnSays<J>(m: Message<J>, text: string, calls: seq<ToolCall<J>>) {
    var skip := if text == "" then 0 else 1;
    && m.role.Assistant? && m.content.Blocks? && |m.content.blocks| == skip + |calls|
    && (text != "" ==> m.content.blocks[0] == TextBlock(text))
    && forall k :: 0 <= k < |calls| ==>
         m.content.blocks[skip + k] == ToolUse(calls[k].id, calls[k].name, calls[k].arguments)
  }

  /** The answer to it: each output under the id of its call. */
  ghost predicate ToolsSay<J>(m: Message<J>, calls: seq<ToolCall<J>>, outputs: seq<string>) {
    && m.role.User? && m.content.Blocks? && |m.content.blocks| == |calls| == |outputs|
    && forall k :: 0 <= k < |calls| ==> m.content.blocks[k] == ToolResult(calls[k].id, outputs[k])
  }

  lemma {:induction false} UseBlocksAre<J>(calls: seq<ToolCall<J>>)
    ensures |UseBlocks(calls)| == |calls|
    ensures forall k :: 0 <= k < |calls| ==> UseBlocks(calls)[k] == ToolUse(calls[k].id, calls[k].name, calls[k].arguments)
  {
    if calls != [] {
      UseBlocksAre(calls[1..]);
    }
  }

  lemma {:induction false} ResultBlocksAre<J>(calls: seq<ToolCall<J>>, outputs: seq<string>)
    requires |calls| == |outputs|
    ensures |ResultBlocks(calls, outputs)| == |calls|
    ensures forall k :: 0 <= k < |calls| ==> ResultBlocks(calls, outputs)[k] == ToolResult(calls[k].id, outputs[k])
  {
    if calls != [] {
      ResultBlocksAre(calls[1..], outputs[1..]);
    }
  }

  /** Each round is two messages: the turn that calls the tools, and what they answered. */
  lemma {:induction false} RoundMessagesSay<J>(rounds: seq<Round<J>>, j: nat)
    requires j < |rounds| && forall i :: 0 <= i < |rounds| ==> rounds[i].Valid()
    ensures var ms, r := RoundMessages(rounds), rounds[j];
            && |ms| == 2 * |rounds|
            && TurnSays(ms[2 * j], r.text, r.calls) && ToolsSay(ms[2 * j + 1], r.calls, r.outputs)
  {
    RoundMessagesCount(rounds);
    if j > 0 {
      RoundMessagesSay(rounds[1..], j - 1);
    } else {
      UseBlocksAre(rounds[0].calls);
      ResultBlocksAre(rounds[0].calls, rounds[0].outputs);
    }
  }

  lemma {:induction false} RoundMessagesCount<J>(rounds: seq<Round<J>>)
    requires forall i :: 0 <= i < |rounds| ==> rounds[i].Valid()
    ensures |RoundMessages(rounds)| == 2 * |rounds|
  {
    if rounds != [] {
      RoundMessagesCount(rounds[1..]);
    }
  }

  ghost predicate PlainText<J>(history: seq<Message<J>>) {
    forall i :: 0 <= i < |history| ==> history[i].content.Plain?
  }

  // Reading the wire format back.

  function WireCallsBack<J>(calls: seq<WireCall>, loads: string -> J): seq<Block<J>> {
    if calls == [] then []
    else [ToolUse(calls[0].id, calls[0].name, loads(calls[0].arguments))] + WireCallsBack(calls[1..], loads)
  }

  function ToolRun(ws: seq<Wire>): (n: nat)
    ensures n <= |ws|
  {
    if ws == [] || ws[0].role != "tool" then 0 else 1 + ToolRun(ws[1..])
  }

  function ResultsBack<J>(ws: seq<Wire>): seq<Block<J>> {
    if ws == [] then []
    else [ToolResult(Or(ws[0].toolCallId, ""), Or(ws[0].content, ""))] + ResultsBack(ws[1..])
  }

  function Decode<J>(ws: seq<Wire>, loads: string -> J): seq<Message<J>>
    decreases |ws|
  {
    if ws == [] then []
    else
      var w, rest := ws[0], ws[1..];
      if w.role == "system" then Decode(rest, loads)
      else if w.toolCalls != [] then
        var n := ToolRun(rest);
        var text := Or(w.content, "");
        [Message(Assistant, Blocks((if text == "" then [] else [TextBlock(text)]) + WireCallsBack(w.toolCalls, loads))),
         Message(User, Blocks(ResultsBack(rest[..n])))] + Decode(rest[n..], loads)
      else
        [Message(if w.role == "user" then User else Assistant, Plain(Or(w.content, "")))] + Decode(rest, loads)
  }

  /** Every list of tool calls is followed at once by exactly its tool messages, with the same ids in the
      same order; and there are no other tool messages. */
  ghost predicate Paired(ws: seq<Wire>)
    decreases |ws|
  {
    if ws == [] then true
    else
      var calls, rest := ws[0].toolCalls, ws[1..];
      && ws[0].role != "tool"
      && Answers(calls, rest)
      && Paired(rest[|calls|..])
  }

  ghost predicate Answers(calls: seq<WireCall>, rest: seq<Wire>) {
    && |calls| <= |rest|
    && forall j :: 0 <= j < |calls| ==>
         rest[j].role == "tool" && rest[j].toolCallId == Some(calls[j].id) && rest[j].toolCalls == []
  }

  ghost predicate Inverse<J(!new)>(dumps: J -> string, loads: string -> J) {
    forall j :: loads(dumps(j)) == j
  }

  /** How the messages of a conversation look on the wire: plain text under its role; an assistant turn as one
      message whose content is null if it says nothing; and each output as a message of its own under the id of its
      call. */
  lemma OnTheWire<J>(text: string, r: Round<J>, dumps: J -> string)
    requires r.Valid()
    ensures TranslateOne(Message(User, Plain(text)), dumps) == [Wire("user", Some(text), [], None)]
    ensures TranslateOne(Message(Assistant, Plain(text)), dumps) == [Wire("assistant", Some(text), [], None)]
    ensures var turn := TranslateOne(AssistantTurn(r.text, r.calls), dumps);
            && |turn| == 1 && turn[0].role == "assistant" && turn[0].toolCallId == None
            && turn[0].content == (if r.text == "" then None else Some(r.text))
            && |turn[0].toolCalls| == |r.calls|
            && forall i :: 0 <= i < |r.calls| ==>
                 turn[0].toolCalls[i] == WireCall(r.calls[i].id, r.calls[i].name, dumps(r.calls[i].arguments))
    ensures var tools := TranslateOne(ToolTurn(r), dumps);
            && |tools| == |r.calls|
            && forall i :: 0 <= i < |r.calls| ==> tools[i] == Wire("tool", Some(r.outputs[i]), [], Some(r.calls[i].id))
  {
    UsesOfTurn(r.text, r.calls, dumps);
    UsesAre(r.calls, dumps);
    ResultsAre(r.calls, r.outputs);
  }

  lemma {:induction false} UsesAre<J>(calls: seq<ToolCall<J>>, dumps: J -> string)
    ensures var uses := Uses(UseBlocks(calls), dumps);
            && |uses| == |calls|
            && forall i :: 0 <= i < |calls| ==> uses[i] == WireCall(calls[i].id, calls[i].name, dumps(calls[i].arguments))
  {
    if calls != [] {
      UsesAre(calls[1..], dumps);
      assert UseBlocks(calls)[1..] == UseBlocks(calls[1..]);
    }
  }

  lemma {:induction false} ResultsAre<J>(calls: seq<ToolCall<J>>, outputs: seq<string>)
    requires |calls| == |outputs|
    ensures var results := Results(ResultBlocks(calls, outputs));
            && |results| == |calls|
            && forall i :: 0 <= i < |calls| ==> results[i] == Wire("tool", Some(outputs[i]), [], Some(calls[i].id))
  {
    if calls != [] {
      ResultsAre(calls[1..], outputs[1..]);
      assert ResultBlocks(calls, outputs)[1..] == ResultBlocks(calls[1..], outputs[1..]);
    }
  }

  lemma {:induction false} UsesOfTurn<J>(text: string, calls: seq<ToolCall<J>>, dumps: J -> string)
    ensures var blocks := AssistantTurn(text, calls).content.blocks;
            Texts(blocks) == text && Uses(blocks, dumps) == Uses(UseBlocks(calls), dumps)
  {
    NoTexts(calls);
    var uses := UseBlocks(calls);
    if text == "" {
      assert [] + uses == uses;
    } else {
      assert ([TextBlock(text)] + uses)[1..] == uses;
      assert text + "" == text;
    }
  }

  lemma {:induction false} NoTexts<J>(calls: seq<ToolCall<J>>)
    ensures Texts(UseBlocks(calls)) == ""
  {
    if calls != [] {
      NoTexts(calls[1..]);
      assert UseBlocks(calls)[1..] == UseBlocks(calls[1..]);
    }
  }

  lemma {:induction false} CallsRoundTrip<J(!new)>(calls: seq<ToolCall<J>>, dumps: J -> string, loads: string -> J)
    requires Inverse(dumps, loads)
    ensures var uses := Uses(UseBlocks(calls), dumps);
            && |uses| == |calls|
            && (forall i :: 0 <= i < |calls| ==> uses[i].id == calls[i].id)
            && WireCallsBack(uses, loads) == UseBlocks(calls)
  {
    if calls != [] {
      CallsRoundTrip(calls[1..], dumps, loads);
      assert UseBlocks(calls)[1..] == UseBlocks(calls[1..]);
      var uses := Uses(UseBlocks(calls), dumps);
      assert uses[1..] == Uses(UseBlocks(calls[1..]), dumps);
    }
  }

  /** The tool messages of a round, followed by something that is not one. */
  lemma {:induction false} ResultsRoundTrip<J>(calls: seq<ToolCall<J>>, outputs: seq<string>, tail: seq<Wire>)
    requires |calls| == |outputs| && (tail == [] || tail[0].role != "tool")
    ensures var blocks := ResultBlocks(calls, outputs);
            && |Results(blocks)| == |calls|
            && (forall i :: 0 <= i < |calls| ==> Results(blocks)[i] == ToolMessage(calls[i].id, outputs[i]))
            && ToolRun(Results(blocks) + tail) == |calls|
            && ResultsBack<J>(Results(blocks)) == blocks
  {
    if calls == [] {
      assert Results<J>([]) + tail == tail;
    } else {
      ResultsRoundTrip(calls[1..], outputs[1..], tail);
      var blocks, rest := ResultBlocks(calls, outputs), ResultBlocks(calls[1..], outputs[1..]);
      assert blocks[1..] == rest;
      assert Results(blocks)[1..] == Results(rest);
      assert (Results(blocks) + tail)[1..] == Results(rest) + tail;
    }
  }

  /** One round, whatever follows it. */
  lemma DecodeRound<J(!new)>(r: Round<J>, tail: seq<Wire>, dumps: J -> string, loads: string -> J)
    requires r.Valid() && Inverse(dumps, loads) && (tail == [] || tail[0].role != "tool")
    ensures var turn := AssistantTurn(r.text, r.calls);
            var ws := TranslateOne(turn, dumps) + (TranslateOne(ToolTurn(r), dumps) + tail);
            && Decode(ws, loads) == [turn, ToolTurn(r)] + Decode(tail, loads)
            && (Paired(tail) ==> Paired(ws)) && ws[0].role == "assistant"
  {
    var turn := AssistantTurn(r.text, r.calls);
    UsesOfTurn(r.text, r.calls, dumps);
    CallsRoundTrip(r.calls, dumps, loads);
    ResultsRoundTrip(r.calls, r.outputs, tail);
    var results := TranslateOne(ToolTurn(r), dumps);
    var ws := TranslateOne(turn, dumps) + (results + tail);
    assert ws[1..] == results + tail;
    assert (results + tail)[..|r.calls|] == results && (results + tail)[|r.calls|..] == tail;
  }

  lemma TranslateCons<J>(m: Message<J>, ms: seq<Message<J>>, dumps: J -> string)
    ensures TranslateAll([m] + ms, dumps) == TranslateOne(m, dumps) + TranslateAll(ms, dumps)
  {
    assert ([m] + ms)[1..] == ms;
  }

  lemma DecodePlain<J>(m: Message<J>, tail: seq<Wire>, dumps: J -> string, loads: string -> J)
    requires m.content.Plain?
    ensures var ws := TranslateOne(m, dumps) + tail;
            Decode(ws, loads) == [m] + Decode(tail, loads) && (Paired(tail) ==> Paired(ws))
  {
    var ws := TranslateOne(m, dumps) + tail;
    assert ws[1..] == tail && tail[0..] == tail;
  }

  lemma TranslateRound<J>(turn: Message<J>, tools: Message<J>, more: seq<Message<J>>, dumps: J -> string)
    ensures TranslateAll([turn, tools] + more, dumps) ==
            TranslateOne(turn, dumps) + (TranslateOne(tools, dumps) + TranslateAll(more, dumps))
  {
    assert [turn, tools] + more == [turn] + ([tools] + more);
    TranslateCons(turn, [tools] + more, dumps);
    TranslateCons(tools, more, dumps);
  }

  /** The wire messages are read back as ms, and are paired. */
  ghost predicate ReadsAs<J(!new)>(ws: seq<Wire>, ms: seq<Message<J>>, loads: string -> J) {
    Decode(ws, loads) == ms && Paired(ws)
  }

  lemma {:induction false} DecodeRounds<J(!new)>(rounds: seq<Round<J>>, dumps: J -> string, loads: string -> J)
    requires Inverse(dumps, loads) && forall i :: 0 <= i < |rounds| ==> rounds[i].Valid()
    ensures ReadsAs(TranslateAll(RoundMessages(rounds), dumps), RoundMessages(rounds), loads)
  {
    if rounds != [] {
      DecodeRounds(rounds[1..], dumps, loads);
      var r, more := rounds[0], RoundMessages(rounds[1..]);
      var tail := TranslateAll(more, dumps);
      DecodeRound(r, tail, dumps, loads);
      TranslateRound(AssistantTurn(r.text, r.calls), ToolTurn(r), more, dumps);
    }
  }

  /** Translation loses nothing of an agent conversation: from the wire messages one reads back the
      plain history and the rounds, and calls and results are paired. */
  lemma {:induction false} TranslationInvertible<J(!new)>(history: seq<Message<J>>, rounds: seq<Round<J>>,
                                                          dumps: J -> string, loads: string -> J)
    requires Inverse(dumps, loads) && PlainText(history)
    requires forall i :: 0 <= i < |rounds| ==> rounds[i].Valid()
    ensures var ms := history + RoundMessages(rounds);
            ReadsAs(TranslateAll(ms, dumps), ms, loads)
    decreases |history|
  {
    if history == [] {
      assert history + RoundMessages(rounds) == RoundMessages(rounds);
      DecodeRounds(rounds, dumps, loads);
    } else {
      TranslationInvertible(history[1..], rounds, dumps, loads);
      var m, rest := history[0], history[1..] + RoundMessages(rounds);
      assert history + RoundMessages(rounds) == [m] + rest;
      TranslateCons(m, rest, dumps);
      DecodePlain(m, TranslateAll(rest, dumps), dumps, loads);
    }
  }

  /** The same with the system prompt in front, as `_translate_messages` sends it. */
  lemma SystemPromptIsDropped<J>(system: Option<string>, ws: seq<Wire>, loads: string -> J)
    ensures Decode(SystemPart(system) + ws, loads) == Decode(ws, loads)
    ensures Paired(SystemPart(system) + ws) <==> Paired(ws)
  {
    var head := SystemPart(system);
    if head == [] {
      assert head + ws == ws;
    } else {
      assert (head + ws)[1..] == ws && ws[0..] == ws;
    }
  }
}
