/**
 What holds of every run of the agent, whatever the provider, the tools and the client do.
 */
module AgentRuns {
  import opened Prelude
  import opened StreamAssembly
  import opened Translation
  import opened UsageRows
  import opened UsageTracking
  import opened Dashboard
  import opened AgentTools
  import opened Agent

  /** The rows of chat calls; embedding a search query leaves a row of another feature. */
  function ChatRows(rows: seq<Row>): seq<Row> {
    if rows == [] then []
    else
      var n := |rows| - 1;
      if rows[n].feature == "ingestion" then ChatRows(rows[..n]) else ChatRows(rows[..n]) + [rows[n]]
  }

  lemma ChatRowsSnoc(rows: seq<Row>, row: Row)
    ensures ChatRows(rows + [row]) == if row.feature == "ingestion" then ChatRows(rows) else ChatRows(rows) + [row]
  {
    assert (rows + [row])[..|rows|] == rows;
  }

  function DeltaText<J>(events: seq<Event<J>>): string {
    if events == [] then ""
    else
      var n := |events| - 1;
      if events[n].Delta? then DeltaText(events[..n]) + events[n].text else DeltaText(events[..n])
  }

  lemma DeltaTextSnoc<J>(events: seq<Event<J>>, e: Event<J>)
    ensures DeltaText(events + [e]) == if e.Delta? then DeltaText(events) + e.text else DeltaText(events)
  {
    assert (events + [e])[..|events|] == events;
  }

  lemma {:induction false} DeltaTextDeltas<J>(events: seq<Event<J>>, texts: seq<string>)
    ensures DeltaText(events + DeltaEvents(texts)) == DeltaText(events) + Flatten(texts)
  {
    if texts == [] {
      assert events + DeltaEvents([]) == events;
    } else {
      var n := |texts| - 1;
      var start, last := texts[..n], texts[n];
      DeltaTextDeltas(events, start);
      assert DeltaEvents<J>(texts) == DeltaEvents(start) + [Delta(last)];
      Assoc(events, DeltaEvents(start), [Delta(last)]);
      DeltaTextSnoc(events + DeltaEvents(start), Delta(last));
      assert start + [last] == texts;
      FlattenSnoc(start, last);
      Assoc(DeltaText(events), Flatten(start), last);
    }
  }

  /** What tool calls leave alone. */
  lemma {:induction false} ToolsKeep<J>(s: Script<J>, patience: nat, st: State<J>, c: Completion<J>,
                                        outputs: seq<string>)
    requires Going(patience, st) && CallsTools(c) && |outputs| <= |c.toolCalls|
    ensures var next := ToolsFrom(s, patience, st, c, outputs);
            && next.requests == st.requests && next.tokens == st.tokens && ChatRows(next.rows) == ChatRows(st.rows)
            && (next.end.None? || next.end.value.Final? || next.end.value.LeftAtTool? || next.end.value.ToolRaised?)
    decreases |c.toolCalls| - |outputs|
  {
    var j := |outputs|;
    if j < |c.toolCalls| {
      var call := c.toolCalls[j];
      var effect := ExecuteEffect(s.tooling, call, s.worlds(|st.rounds|, j));
      if effect.rows == [] {
        assert st.rows + effect.rows == st.rows;
      } else {
        assert effect.rows == [effect.rows[0]];
        ChatRowsSnoc(st.rows, effect.rows[0]);
      }
      var called := Called(s, st, call, j);
      if |called.events| <= patience && effect.answer.Output? {
        ToolsKeep(s, patience, called, c, outputs + [effect.answer.text]);
      }
    }
  }

  /** What they add to the rounds. */
  lemma {:induction false} ToolsKeepRounds<J>(s: Script<J>, patience: nat, st: State<J>, c: Completion<J>,
                                              outputs: seq<string>)
    requires Going(patience, st) && CallsTools(c) && |outputs| <= |c.toolCalls|
    ensures var next := ToolsFrom(s, patience, st, c, outputs);
            if next.end.None? || next.end.value.Final? then
              && OneMore(st.rounds, next.rounds, c.text)
              && (next.end.Some? <==> |next.rounds| == MAX_TOOL_ROUNDS) && (next.end.Some? ==> next.end.value.text == c.text)
            else next.rounds == st.rounds
    decreases |c.toolCalls| - |outputs|
  {
    var j := |outputs|;
    if j < |c.toolCalls| {
      var called := Called(s, st, c.toolCalls[j], j);
      var answer := ExecuteEffect(s.tooling, c.toolCalls[j], s.worlds(|st.rounds|, j)).answer;
      if |called.events| <= patience && answer.Output? {
        ToolsKeepRounds(s, patience, called, c, outputs + [answer.text]);
      }
    }
  }

  lemma {:induction false} ToolsKeepText<J>(s: Script<J>, patience: nat, st: State<J>, c: Completion<J>,
                                            outputs: seq<string>)
    requires Going(patience, st) && CallsTools(c) && |outputs| <= |c.toolCalls|
    ensures DeltaText(ToolsFrom(s, patience, st, c, outputs).events) == DeltaText(st.events)
    decreases |c.toolCalls| - |outputs|
  {
    var j := |outputs|;
    if j < |c.toolCalls| {
      var call := c.toolCalls[j];
      DeltaTextSnoc(st.events, ToolUseShown(call.name, call.arguments));
      var called := Called(s, st, call, j);
      var answer := ExecuteEffect(s.tooling, call, s.worlds(|st.rounds|, j)).answer;
      if |called.events| <= patience && answer.Output? {
        ToolsKeepText(s, patience, called, c, outputs + [answer.text]);
      }
    }
  }

  lemma ChatRowsOfStream<J>(s: Script<J>, rows: seq<Row>, inner: Inner<J>, left: nat)
    ensures ChatRows(rows + RowsWithin(Feature(s), inner, left)) == ChatRows(rows) + RowsWithin(Feature(s), inner, left)
  {
    var more := RowsWithin(Feature(s), inner, left);
    if more == [] {
      assert rows + more == rows;
    } else {
      assert more == [more[0]];
      ChatRowsSnoc(rows, more[0]);
    }
  }

  /** Each request carries the conversation and all the tool rounds before it; there are at most four. */
  ghost predicate RequestsGrow<J>(s: Script<J>, st: State<J>) {
    && |st.requests| <= 4
    && |st.requests| == |st.rounds| + (if st.end.None? || |st.rounds| == MAX_TOOL_ROUNDS then 0 else 1)
    && forall i :: 0 <= i < |st.requests| ==> RequestIs(s, st, i)
  }

  ghost predicate RequestIs<J>(s: Script<J>, st: State<J>, i: nat)
    requires i < |st.requests|
  {
    && i <= |st.rounds| && (forall j :: 0 <= j < i ==> st.rounds[j].Valid())
    && st.requests[i] == s.history + RoundMessages(st.rounds[..i])
  }

  function OkTokens(rows: seq<Row>): int {
    if rows == [] then 0
    else
      var n := |rows| - 1;
      OkTokens(rows[..n]) + if rows[n].status == Ok then rows[n].usage.input + rows[n].usage.output else 0
  }

  lemma OkTokensSnoc(rows: seq<Row>, row: Row)
    ensures OkTokens(rows + [row]) == OkTokens(rows) + if row.status == Ok then row.usage.input + row.usage.output else 0
  {
    assert (rows + [row])[..|rows|] == rows;
  }

  predicate Interrupted<J>(st: State<J>) {
    st.end.Some? && (st.end.value.LeftMidStream? || st.end.value.ProviderRaised?)
  }

  /** The row of a round whose stream ended, with the usage reported. */
  ghost predicate ReportedRow<J>(s: Script<J>, i: nat, row: Row) {
    && s.inner(i).ending.Ends?
    && row == Row(Feature(s), s.inner(i).ending.model, Ok, s.inner(i).ending.completion.usage)
  }

  /** No delta since the last tool call, or since the start: what comes next is a new stream's. */
  predicate AtTool<J>(events: seq<Event<J>>) {
    events == [] || events[|events| - 1].ToolUseShown?
  }

  /** The row of the stream that the client left: estimated from the deltas that it got, which are all the events since
      the last tool call. */
  ghost predicate LeftRow<J>(s: Script<J>, st: State<J>, i: nat, row: Row) {
    exists k :: 0 < k <= |s.inner(i).deltas| && k <= |st.events| && LeftAfter(s, st, i, row, k)
  }

  ghost predicate LeftAfter<J>(s: Script<J>, st: State<J>, i: nat, row: Row, k: nat)
    requires 0 < k <= |s.inner(i).deltas| && k <= |st.events|
  {
    && AtTool(st.events[..|st.events| - k])
    && st.events[|st.events| - k..] == DeltaEvents(s.inner(i).deltas[..k])
    && row == PartialRow(Feature(s), s.inner(i).deltas[..k], Disconnected)
  }

  /** There is only one such row. */
  lemma LeftRowDetermined<J>(s: Script<J>, st: State<J>, i: nat, row: Row, other: Row)
    requires LeftRow(s, st, i, row) && LeftRow(s, st, i, other)
    ensures row == other
  {
    var k :| 0 < k <= |s.inner(i).deltas| && k <= |st.events| && LeftAfter(s, st, i, row, k);
    var l :| 0 < l <= |s.inner(i).deltas| && l <= |st.events| && LeftAfter(s, st, i, other, l);
    AllSinceTool(s, st, i, row, k, other, l);
    AllSinceTool(s, st, i, other, l, row, k);
  }

  lemma AllSinceTool<J>(s: Script<J>, st: State<J>, i: nat, row: Row, k: nat, other: Row, l: nat)
    requires 0 < k <= |s.inner(i).deltas| && k <= |st.events| && LeftAfter(s, st, i, row, k)
    requires 0 < l <= |s.inner(i).deltas| && l <= |st.events| && LeftAfter(s, st, i, other, l)
    ensures l <= k
  {
  }

  ghost predicate Reported<J>(s: Script<J>, chat: seq<Row>, m: int) {
    m <= |chat| && forall i :: 0 <= i < m ==> ReportedRow(s, i, chat[i])
  }

  /** The row of the last round, if its stream was cut short. */
  ghost predicate CutShort<J>(s: Script<J>, st: State<J>, i: nat, row: Row) {
    if st.end == Some(LeftMidStream) then LeftRow(s, st, i, row)
    else row == PartialRow(Feature(s), s.inner(i).deltas, Error)
  }

  /** Every round that was started has left exactly one row, unless its stream ended without StreamEnd or error. */
  ghost predicate OneRowPerRound<J>(s: Script<J>, st: State<J>) {
    RowsAre(s, st, ChatRows(st.rows), |st.requests|)
  }

  ghost predicate RowsAre<J>(s: Script<J>, st: State<J>, chat: seq<Row>, n: nat) {
    && |chat| == n - (if st.end == Some(NoStreamEnd) then 1 else 0)
    && (if Interrupted(st) then n > 0 && Reported(s, chat, n - 1) && CutShort(s, st, n - 1, chat[n - 1])
        else Reported(s, chat, |chat|))
    && st.tokens == OkTokens(chat)
    && (st.end.None? ==> AtTool(st.events))
    && (n == 0 || (n == 1 && st.end == Some(NoStreamEnd)) ==> st.rows == [])
  }

  /** What follows a stream adds to the accounts. */
  lemma AfterAccounts<J>(s: Script<J>, patience: nat, st: State<J>, result: StreamResult<J>)
    requires Between(patience, st, result)
    ensures var next := AfterStream(s, patience, st, result);
            && next.requests == st.requests && ChatRows(next.rows) == ChatRows(st.rows)
            && next.tokens == st.tokens + TokensOf(result)
            && EndsBy(result, next.end)
            && (!result.Completed? ==> next.events == st.events && next.rows == st.rows)
  {
    if result.Completed? && CallsTools(result.completion) {
      ToolsKeep(s, patience, Counted(st, result.completion), result.completion, []);
    }
  }

  function TokensOf<J>(result: StreamResult<J>): int {
    if result.Completed? then result.completion.usage.input + result.completion.usage.output else 0
  }

  ghost predicate EndsBy<J>(result: StreamResult<J>, end: Option<RunEnd>) {
    && (result.Left? <==> end == Some(LeftMidStream))
    && (result.Broke? <==> end.Some? && end.value.ProviderRaised?)
    && (result.Stopped? <==> end == Some(NoStreamEnd))
    && (end.None? || end.value.Final? ==> result.Completed?)
  }

  /** What follows a stream adds to the conversation. */
  lemma AfterTalk<J>(s: Script<J>, patience: nat, st: State<J>, result: StreamResult<J>)
    requires Between(patience, st, result)
    ensures Talked(st.rounds, AfterStream(s, patience, st, result), result)
  {
    if result.Completed? && CallsTools(result.completion) {
      ToolsKeepRounds(s, patience, Counted(st, result.completion), result.completion, []);
    }
  }

  /** Either the run ends without another round, or a round is added; then it goes on unless that was the fourth. */
  ghost predicate Talked<J>(before: seq<Round<J>>, next: State<J>, result: StreamResult<J>) {
    && (next.rounds != before ==> result.Completed? && CallsTools(result.completion))
    && (next.rounds != before ==> OneMore(before, next.rounds, result.completion.text))
    && (next.rounds != before ==> (next.end.Some? <==> |next.rounds| == MAX_TOOL_ROUNDS))
    && (next.rounds == before ==> next.end.Some?)
    && (next.end.Some? && next.end.value.Final? ==> result.Completed? && next.end.value.text == result.completion.text)
    && (next.rounds != before && next.end.Some? ==> next.end.value.Final?)
    && (next.rounds == before && next.end.value.Final? ==> !CallsTools(result.completion))
  }

  lemma AfterText<J>(s: Script<J>, patience: nat, st: State<J>, result: StreamResult<J>)
    requires Between(patience, st, result)
    ensures DeltaText(AfterStream(s, patience, st, result).events) == DeltaText(st.events)
  {
    if result.Completed? && CallsTools(result.completion) {
      ToolsKeepText(s, patience, Counted(st, result.completion), result.completion, []);
    }
  }

  ghost predicate OneMore<J>(before: seq<Round<J>>, rounds: seq<Round<J>>, text: string) {
    |rounds| == |before| + 1 && rounds[..|before|] == before && rounds[|before|].text == text
  }

  lemma StepTalks<J>(s: Script<J>, patience: nat, st: State<J>, next: State<J>)
    requires Going(patience, st) && next == RoundStep(s, patience, st)
    ensures next.requests == st.requests + [s.history + RoundMessages(st.rounds)]
    ensures Talked(st.rounds, next, ResultWithin(s.inner(|st.rounds|), patience - |st.events|))
  {
    var streamed, result := Streamed(s, patience, st), ResultWithin(s.inner(|st.rounds|), patience - |st.events|);
    AfterAccounts(s, patience, streamed, result);
    AfterTalk(s, patience, streamed, result);
  }

  lemma StepKeepsRequests<J>(s: Script<J>, patience: nat, st: State<J>, next: State<J>)
    requires Going(patience, st) && next == RoundStep(s, patience, st) && RequestsGrow(s, st)
    ensures RequestsGrow(s, next)
  {
    StepTalks(s, patience, st, next);
    forall i: nat | i < |next.requests| ensures RequestIs(s, next, i) {
      OldRequest(s, st, next, i);
    }
  }

  lemma OldRequest<J>(s: Script<J>, st: State<J>, next: State<J>, i: nat)
    requires RequestsGrow(s, st) && |st.requests| == |st.rounds| && i <= |st.rounds|
    requires forall j :: 0 <= j < |st.rounds| ==> st.rounds[j].Valid()
    requires next.requests == st.requests + [s.history + RoundMessages(st.rounds)]
    requires |next.rounds| >= |st.rounds| && next.rounds[..|st.rounds|] == st.rounds
    ensures RequestIs(s, next, i)
  {
    assert next.rounds[..i] == st.rounds[..i];
    if i < |st.requests| {
      assert RequestIs(s, st, i);
    } else {
      assert st.rounds[..i] == st.rounds;
    }
    forall j | 0 <= j < i ensures next.rounds[j].Valid() {
      assert next.rounds[j] == st.rounds[j];
    }
  }

  /** The accounts after a round are those before it and what its stream came to. */
  ghost predicate Follows<J>(s: Script<J>, st: State<J>, next: State<J>, inner: Inner<J>, left: nat,
                             result: StreamResult<J>) {
    && |next.requests| == |st.requests| + 1
    && ChatRows(next.rows) == ChatRows(st.rows) + RowsWithin(Feature(s), inner, left)
    && next.tokens == st.tokens + TokensOf(result)
    && EndsBy(result, next.end)
    && (result.Left? ==> next.events == st.events + DeltaEvents(TakenWithin(inner, left)))
    && (result.Stopped? ==> next.rows == st.rows)
    && (next.end.None? ==> AtTool(next.events))
  }

  lemma {:induction false} ToolsEndAtTool<J>(s: Script<J>, patience: nat, st: State<J>, c: Completion<J>,
                                             outputs: seq<string>)
    requires Going(patience, st) && CallsTools(c) && |outputs| <= |c.toolCalls|
    requires outputs != [] ==> AtTool(st.events)
    ensures var next := ToolsFrom(s, patience, st, c, outputs); next.end.None? ==> AtTool(next.events)
    decreases |c.toolCalls| - |outputs|
  {
    var j := |outputs|;
    if j < |c.toolCalls| {
      var called := Called(s, st, c.toolCalls[j], j);
      var answer := ExecuteEffect(s.tooling, c.toolCalls[j], s.worlds(|st.rounds|, j)).answer;
      if |called.events| <= patience && answer.Output? {
        ToolsEndAtTool(s, patience, called, c, outputs + [answer.text]);
      }
    }
  }

  lemma AfterStreamAtTool<J>(s: Script<J>, patience: nat, st: State<J>, result: StreamResult<J>)
    requires Between(patience, st, result)
    ensures var next := AfterStream(s, patience, st, result); next.end.None? ==> AtTool(next.events)
  {
    if result.Completed? && CallsTools(result.completion) {
      ToolsEndAtTool(s, patience, Counted(st, result.completion), result.completion, []);
    }
  }

  lemma StepFollows<J>(s: Script<J>, patience: nat, st: State<J>, inner: Inner<J>, left: nat)
    requires Going(patience, st) && inner == s.inner(|st.rounds|) && left == patience - |st.events|
    ensures Follows(s, st, RoundStep(s, patience, st), inner, left, ResultWithin(inner, left))
  {
    var result := ResultWithin(inner, left);
    AfterAccounts(s, patience, Streamed(s, patience, st), result);
    AfterStreamAtTool(s, patience, Streamed(s, patience, st), result);
    ChatRowsOfStream(s, st.rows, inner, left);
    if result.Stopped? {
      assert st.rows + [] == st.rows;
    }
  }

  lemma LeftRowOf<J>(s: Script<J>, events: seq<Event<J>>, next: State<J>, i: nat, row: Row, k: nat)
    requires 0 < k <= |s.inner(i).deltas| && row == PartialRow(Feature(s), s.inner(i).deltas[..k], Disconnected)
    requires AtTool(events) && next.events == events + DeltaEvents(s.inner(i).deltas[..k])
    ensures LeftRow(s, next, i, row)
  {
    assert next.events[|next.events| - k..] == DeltaEvents(s.inner(i).deltas[..k]);
    assert next.events[..|next.events| - k] == events;
    assert LeftAfter(s, next, i, row, k);
  }

  lemma ReportedSnoc<J>(s: Script<J>, chat: seq<Row>, row: Row)
    requires Reported(s, chat, |chat|)
    ensures Reported(s, chat + [row], |chat|)
    ensures ReportedRow(s, |chat|, row) ==> Reported(s, chat + [row], |chat| + 1)
  {
  }

  /** One more row, given what the stream of round i came to. */
  lemma RowOfStep<J>(s: Script<J>, st: State<J>, next: State<J>, i: nat, left: nat)
    requires OneRowPerRound(s, st) && st.end.None? && |st.requests| == i
    requires Follows(s, st, next, s.inner(i), left, ResultWithin(s.inner(i), left))
    ensures OneRowPerRound(s, next)
  {
    var chat, inner := ChatRows(st.rows), s.inner(i);
    if ResultWithin(inner, left).Stopped? {
      assert chat + [] == chat;
    } else {
      OneRowPerStream(Feature(s), inner, left);
      AddRow(s, st, next, i, left, chat, RowsWithin(Feature(s), inner, left)[0]);
    }
  }

  lemma AddRow<J>(s: Script<J>, st: State<J>, next: State<J>, i: nat, left: nat, chat: seq<Row>, row: Row)
    requires |chat| == i && Reported(s, chat, i) && st.tokens == OkTokens(chat) && AtTool(st.events)
    requires [row] == RowsWithin(Feature(s), s.inner(i), left) && !ResultWithin(s.inner(i), left).Stopped?
    requires EndsBy(ResultWithin(s.inner(i), left), next.end)
    requires var result := ResultWithin(s.inner(i), left);
             && next.tokens == st.tokens + TokensOf(result)
             && (result.Left? ==> next.events == st.events + DeltaEvents(TakenWithin(s.inner(i), left)))
             && (next.end.None? ==> AtTool(next.events))
    ensures RowsAre(s, next, chat + [row], i + 1)
  {
    ReportedSnoc(s, chat, row);
    OkTokensSnoc(chat, row);
    if ResultWithin(s.inner(i), left).Left? {
      LeftRowOf(s, st.events, next, i, row, left + 1);
    }
  }

  /** Usage accounting over a whole run: at most four requests, each with the conversation and the tool
      rounds so far; one row for each of them; and the tokens counted for the rate limiter are those of
      the rows with status ok. */
  lemma {:induction false} EveryRunAccounts<J>(s: Script<J>, patience: nat, st: State<J>)
    requires (Going(patience, st) || Ended(st)) && RequestsGrow(s, st) && OneRowPerRound(s, st)
    ensures RequestsGrow(s, RunFrom(s, patience, st)) && OneRowPerRound(s, RunFrom(s, patience, st))
    decreases if st.end.None? then 1 else 0, MAX_TOOL_ROUNDS - |st.rounds|
  {
    if st.end.None? {
      var next := RoundStep(s, patience, st);
      StepKeepsRequests(s, patience, st, next);
      StepFollows(s, patience, st, s.inner(|st.rounds|), patience - |st.events|);
      RowOfStep(s, st, next, |st.rounds|, patience - |st.events|);
      EveryRunAccounts(s, patience, next);
    }
  }

  lemma RunAccounts<J>(s: Script<J>, patience: nat)
    ensures RequestsGrow(s, Run(s, patience)) && OneRowPerRound(s, Run(s, patience))
  {
    EveryRunAccounts(s, patience, Start());
  }

  /** Every request can be read back from what is sent to the provider in the OpenAI format, with calls and
      results paired. */
  lemma RequestsTranslate<J(!new)>(s: Script<J>, patience: nat, i: nat, dumps: J -> string, loads: string -> J)
    requires Inverse(dumps, loads) && PlainText(s.history) && i < |Run(s, patience).requests|
    ensures var request := Run(s, patience).requests[i];
            ReadsAs(TranslateAll(request, dumps), request, loads)
  {
    var last := Run(s, patience);
    RunAccounts(s, patience);
    assert RequestIs(s, last, i);
    TranslationInvertible(s.history, last.rounds[..i], dumps, loads);
  }

  // What survives.

  lemma {:induction false} ChatRowAmong(rows: seq<Row>, i: nat)
    requires i < |ChatRows(rows)|
    ensures ChatRows(rows)[i] in rows
  {
    var n := |rows| - 1;
    assert rows[..n] + [rows[n]] == rows;
    if i < |ChatRows(rows[..n])| {
      ChatRowAmong(rows[..n], i);
    }
  }

  lemma SomeOkRow<J>(s: Script<J>, patience: nat)
    requires ChatRows(Run(s, patience).rows) != [] && !Interrupted(Run(s, patience))
    ensures exists row :: row in Run(s, patience).rows && row.status == Ok
  {
    RunAccounts(s, patience);
    var rows := Run(s, patience).rows;
    var row := ChatRows(rows)[0];
    assert ReportedRow(s, 0, row);
    ChatRowAmong(rows, 0);
    assert row in rows && row.status == Ok;
  }

  /** Which rows survive, by how the run ended: those of a run that ends within a provider's stream or with the answer.
      If the client closes at a tool_use event, or a tool raises, all rows of the run are lost, and one at least
      holds usage that had been reported. */
  lemma RowsSurviveIff<J>(s: Script<J>, patience: nat, before: seq<Row>)
    ensures var last := Run(s, patience);
            && (RowsAfter(before, last) == before + last.rows <==>
                  !(last.end.value.LeftAtTool? || last.end.value.ToolRaised? ||
                    (last.end.value.NoStreamEnd? && |last.requests| > 1)))
            && (RowsAfter(before, last) != before + last.rows ==>
                  RowsAfter(before, last) == before && exists row :: row in last.rows && row.status == Ok)
  {
    var last := Run(s, patience);
    RunAccounts(s, patience);
    if Keeps(last.end.value) {
    } else if last.end.value.NoStreamEnd? && |last.requests| <= 1 {
      assert before + [] == before;
    } else {
      SomeOkRow(s, patience);
      assert |before + last.rows| > |before|;
    }
  }

  /** A client that closes at the first tool_use event: the whole first stream is paid for, and its row is lost. */
  lemma ClosingAtToolUse<J>(s: Script<J>, before: seq<Row>)
    requires s.inner(0).ending.Ends? && CallsTools(s.inner(0).ending.completion)
    ensures var end := s.inner(0).ending;
            var last := Run(s, |s.inner(0).deltas|);
            && last.rows == [Row(Feature(s), end.model, Ok, end.completion.usage)]
            && RowsAfter(before, last) == before
  {
    var st: State<J> := Start();
    var patience := |s.inner(0).deltas|;
    var after := Streamed(s, patience, st);
    var c := s.inner(0).ending.completion;
    var next := RoundStep(s, patience, st);
    assert next == ToolsFrom(s, patience, Counted(after, c), c, []);
    assert next.end == Some(LeftAtTool);
    assert Run(s, patience) == next;
  }

  /** A first stream after which no tool is called is the whole run. */
  lemma OneRoundRun<J>(s: Script<J>, patience: nat, before: seq<Row>)
    requires !(s.inner(0).ending.Ends? && CallsTools(s.inner(0).ending.completion))
    ensures RowsAfter(before, Run(s, patience)) == before + Run(s, patience).rows
  {
    var result := ResultWithin(s.inner(0), patience);
    StepFollows(s, patience, Start(), s.inner(0), patience);
    StepTalks(s, patience, Start(), RoundStep(s, patience, Start()));
    RunAccounts(s, patience);
    RowsSurviveIff(s, patience, before);
  }

  /** The repository's README (lines 188-190) and the router (lines 98-100) say that usage rows survive an interrupted
      response. They survive every client exactly if the first completion calls no tool. */
  lemma RowsSurviveEveryClientIff<J>(s: Script<J>, before: seq<Row>)
    ensures (forall patience: nat :: RowsAfter(before, Run(s, patience)) == before + Run(s, patience).rows) <==>
            !(s.inner(0).ending.Ends? && CallsTools(s.inner(0).ending.completion))
  {
    if s.inner(0).ending.Ends? && CallsTools(s.inner(0).ending.completion) {
      ClosingAtToolUse(s, before);
      var last := Run(s, |s.inner(0).deltas|);
      assert |before + last.rows| > |before|;
    } else {
      forall patience: nat ensures RowsAfter(before, Run(s, patience)) == before + Run(s, patience).rows {
        OneRoundRun(s, patience, before);
      }
    }
  }

  // What it costs.

  ghost predicate OnlyOkHasModel(rows: seq<Row>) {
    forall i :: 0 <= i < |rows| ==> rows[i].status == Ok || rows[i].model == UNKNOWN
  }

  lemma {:induction false} ToolsKeepModels<J>(s: Script<J>, patience: nat, st: State<J>, c: Completion<J>,
                                              outputs: seq<string>)
    requires Going(patience, st) && CallsTools(c) && |outputs| <= |c.toolCalls| && OnlyOkHasModel(st.rows)
    ensures OnlyOkHasModel(ToolsFrom(s, patience, st, c, outputs).rows)
    decreases |c.toolCalls| - |outputs|
  {
    var j := |outputs|;
    if j < |c.toolCalls| {
      var called := Called(s, st, c.toolCalls[j], j);
      var answer := ExecuteEffect(s.tooling, c.toolCalls[j], s.worlds(|st.rounds|, j)).answer;
      if |called.events| <= patience && answer.Output? {
        ToolsKeepModels(s, patience, called, c, outputs + [answer.text]);
      }
    }
  }

  lemma {:induction false} RunKeepsModels<J>(s: Script<J>, patience: nat, st: State<J>)
    requires (Going(patience, st) || Ended(st)) && OnlyOkHasModel(st.rows)
    ensures OnlyOkHasModel(RunFrom(s, patience, st).rows)
    decreases if st.end.None? then 1 else 0, MAX_TOOL_ROUNDS - |st.rounds|
  {
    if st.end.None? {
      var result := ResultWithin(s.inner(|st.rounds|), patience - |st.events|);
      if result.Completed? && CallsTools(result.completion) {
        var c := result.completion;
        ToolsKeepModels(s, patience, Counted(Streamed(s, patience, st), c), c, []);
      }
      RunKeepsModels(s, patience, RoundStep(s, patience, st));
    }
  }

  /** The rows of interrupted calls are there because the provider bills them all the same, but they carry no price: in
      every run, a row whose status is not ok costs 0. */
  lemma InterruptedCallsAreFree<J>(s: Script<J>, patience: nat, i: nat)
    requires i < |Run(s, patience).rows| && Run(s, patience).rows[i].status != Ok
    ensures Cost(Run(s, patience).rows[i]) == 0
  {
    RunKeepsModels(s, patience, Start());
    UnknownIsFree(Run(s, patience).rows[i]);
  }

  /** The exact price of the usage in the rows with status ok, which is what the providers reported. */
  function ReportedCost(rows: seq<Row>): int {
    if rows == [] then 0 else (if rows[0].status == Ok then ExactCost(rows[0]) else 0) + ReportedCost(rows[1..])
  }

  function OkCalls(rows: seq<Row>): nat {
    if rows == [] then 0 else (if rows[0].status == Ok then 1 else 0) + OkCalls(rows[1..])
  }

  ghost predicate Entered(entries: seq<Entry>, rows: seq<Row>, tenant: int, start: int, end: int) {
    && |entries| == |rows| && Priced(entries)
    && forall i :: 0 <= i < |rows| ==>
         entries[i].row == rows[i] && entries[i].tenant == tenant && start <= entries[i].createdAt < end
  }

  lemma {:induction false} OnlyReportedCosts(entries: seq<Entry>, rows: seq<Row>, tenant: int, start: int, end: int)
    requires Entered(entries, rows, tenant, start, end) && OnlyOkHasModel(rows)
    ensures ExactCosts(entries) == ReportedCost(rows) && PricedCalls(entries) <= OkCalls(rows)
  {
    if rows != [] {
      assert Entered(entries[1..], rows[1..], tenant, start, end) by {
        assert forall i :: 0 <= i < |rows| - 1 ==> entries[1..][i] == entries[i + 1] && rows[1..][i] == rows[i + 1];
      }
      OnlyReportedCosts(entries[1..], rows[1..], tenant, start, end);
      if rows[0].status != Ok {
        UnknownIsFree(rows[0]);
        CostNearExact(rows[0]);
      }
    }
  }

  /** What the dashboard's total gains by a chat turn, whatever else is in the table: the exact price of the
      usage reported for the rows that the turn leaves, within half a micro-dollar for each of them. Interrupted
      calls add nothing, and neither does a turn whose rows are lost. */
  lemma DashboardGain<J>(s: Script<J>, patience: nat, table: seq<Entry>, entries: seq<Entry>, tenant: int, start: int,
                         end: int)
    requires Entered(entries, RowsAfter([], Run(s, patience)), tenant, start, end)
    ensures var left := RowsAfter([], Run(s, patience));
            var gain := TotalCost(table + entries, tenant, start, end) - TotalCost(table, tenant, start, end);
            -500 * OkCalls(left) <= 1000 * gain - ReportedCost(left) <= 500 * OkCalls(left)
  {
    var rows := Run(s, patience).rows;
    RunKeepsModels(s, patience, Start());
    assert [] + rows == rows;
    OnlyReportedCosts(entries, RowsAfter([], Run(s, patience)), tenant, start, end);
    TotalCostAppend(table, entries, tenant, start, end);
    SumNearExact(entries);
  }

  // What the client sees.

  ghost predicate PlainEvents<J>(patience: nat, st: State<J>) {
    && (forall i :: 0 <= i < |st.events| ==> st.events[i].Delta? || st.events[i].ToolUseShown?)
    && |st.events| <= patience + 1
    && (|st.events| == patience + 1 <==> st.end.Some? && (st.end.value.LeftMidStream? || st.end.value.LeftAtTool?))
  }

  lemma {:induction false} ToolsKeepEvents<J>(s: Script<J>, patience: nat, st: State<J>, c: Completion<J>,
                                              outputs: seq<string>)
    requires Going(patience, st) && CallsTools(c) && |outputs| <= |c.toolCalls| && PlainEvents(patience, st)
    ensures PlainEvents(patience, ToolsFrom(s, patience, st, c, outputs))
    decreases |c.toolCalls| - |outputs|
  {
    var j := |outputs|;
    if j < |c.toolCalls| {
      var called := Called(s, st, c.toolCalls[j], j);
      var answer := ExecuteEffect(s.tooling, c.toolCalls[j], s.worlds(|st.rounds|, j)).answer;
      if |called.events| <= patience && answer.Output? {
        ToolsKeepEvents(s, patience, called, c, outputs + [answer.text]);
      }
    }
  }

  lemma StepKeepsEvents<J>(s: Script<J>, patience: nat, st: State<J>)
    requires Going(patience, st) && PlainEvents(patience, st)
    ensures PlainEvents(patience, RoundStep(s, patience, st))
  {
    var result := ResultWithin(s.inner(|st.rounds|), patience - |st.events|);
    if result.Completed? && CallsTools(result.completion) {
      var c := result.completion;
      ToolsKeepEvents(s, patience, Counted(Streamed(s, patience, st), c), c, []);
    }
  }

  lemma {:induction false} RunKeepsEvents<J>(s: Script<J>, patience: nat, st: State<J>)
    requires (Going(patience, st) || Ended(st)) && PlainEvents(patience, st)
    ensures PlainEvents(patience, RunFrom(s, patience, st))
    decreases if st.end.None? then 1 else 0, MAX_TOOL_ROUNDS - |st.rounds|
  {
    if st.end.None? {
      StepKeepsEvents(s, patience, st);
      RunKeepsEvents(s, patience, RoundStep(s, patience, st));
    }
  }

  /** The response holds a done event iff the run has an answer, and an error event iff it ended with an LLMError;
      either comes once and last. A client that closes gets nothing after the event at which it does. */
  lemma LastEventIsLast<J>(s: Script<J>, patience: nat, i: nat)
    requires i < |Run(s, patience).events + LastEvent(Run(s, patience))|
    ensures var last := Run(s, patience);
            var all := last.events + LastEvent(last);
            && (all[i].Done? <==> last.end.value.Final? && i == |all| - 1)
            && (all[i].Done? ==> all[i].citations == Cite([], last.hits))
            && (all[i].Failed? <==>
                  i == |all| - 1 && (last.end.value == ProviderRaised(true) || last.end.value == ToolRaised(true)))
            && (last.end.value.LeftMidStream? || last.end.value.LeftAtTool? <==> |last.events| == patience + 1)
            && (last.end.value.LeftMidStream? || last.end.value.LeftAtTool? ==> |all| == patience + 1)
  {
    RunKeepsEvents(s, patience, Start());
  }

  /** The deltas of a stream concatenate to the text of its completion (as `StreamAssembly.Stream` ensures). */
  ghost predicate Faithful<J>(s: Script<J>) {
    forall i: nat :: s.inner(i).ending.Ends? ==> Flatten(s.inner(i).deltas) == s.inner(i).ending.completion.text
  }

  function RoundTexts<J>(rounds: seq<Round<J>>): string {
    if rounds == [] then "" else RoundTexts(rounds[..|rounds| - 1]) + rounds[|rounds| - 1].text
  }

  /** The tool rounds before the last request. */
  function EarlierRounds<J>(st: State<J>): seq<Round<J>> {
    if 0 < |st.requests| <= |st.rounds| then st.rounds[..|st.requests| - 1] else st.rounds
  }

  ghost predicate TextShown<J>(st: State<J>) {
    && (st.end.None? ==> DeltaText(st.events) == RoundTexts(st.rounds))
    && (st.end.Some? && st.end.value.Final? ==> DeltaText(st.events) == RoundTexts(EarlierRounds(st)) + st.end.value.text)
  }

  lemma StepKeepsText<J>(s: Script<J>, patience: nat, st: State<J>, next: State<J>)
    requires Faithful(s) && Going(patience, st) && next == RoundStep(s, patience, st) && RequestsGrow(s, st) && TextShown(st)
    ensures TextShown(next)
  {
    var inner, left := s.inner(|st.rounds|), patience - |st.events|;
    StepTalks(s, patience, st, next);
    AfterText(s, patience, Streamed(s, patience, st), ResultWithin(inner, left));
    DeltaTextDeltas(st.events, TakenWithin(inner, left));
    if next.rounds != st.rounds {
      assert next.rounds[..|next.rounds| - 1] == st.rounds;
    }
  }

  lemma {:induction false} RunKeepsText<J>(s: Script<J>, patience: nat, st: State<J>)
    requires Faithful(s) && (Going(patience, st) || Ended(st)) && RequestsGrow(s, st) && TextShown(st)
    ensures TextShown(RunFrom(s, patience, st))
    decreases if st.end.None? then 1 else 0, MAX_TOOL_ROUNDS - |st.rounds|
  {
    if st.end.None? {
      var next := RoundStep(s, patience, st);
      StepKeepsRequests(s, patience, st, next);
      StepKeepsText(s, patience, st, next);
      RunKeepsText(s, patience, next);
    }
  }

  /** The rounds are those of the script, and each called tools. */
  ghost predicate RoundsRead<J>(s: Script<J>, rounds: seq<Round<J>>) {
    forall i :: 0 <= i < |rounds| ==> RoundReads(s, i, rounds[i])
  }

  ghost predicate RoundReads<J>(s: Script<J>, i: nat, r: Round<J>) {
    s.inner(i).ending.Ends? && CallsTools(s.inner(i).ending.completion) && r.text == s.inner(i).ending.completion.text
  }

  lemma OneMoreRead<J>(s: Script<J>, before: seq<Round<J>>, rounds: seq<Round<J>>, text: string)
    requires RoundsRead(s, before) && OneMore(before, rounds, text) && RoundReads(s, |before|, rounds[|before|])
    ensures RoundsRead(s, rounds)
  {
    forall i | 0 <= i < |rounds| ensures RoundReads(s, i, rounds[i]) {
      if i < |before| {
        assert rounds[i] == before[i];
      }
    }
  }

  lemma {:induction false} RunReads<J>(s: Script<J>, patience: nat, st: State<J>)
    requires (Going(patience, st) || Ended(st)) && RoundsRead(s, st.rounds)
    ensures RoundsRead(s, RunFrom(s, patience, st).rounds) && |RunFrom(s, patience, st).rounds| >= |st.rounds|
    decreases if st.end.None? then 1 else 0, MAX_TOOL_ROUNDS - |st.rounds|
  {
    if st.end.None? {
      var next := RoundStep(s, patience, st);
      StepTalks(s, patience, st, next);
      if next.rounds != st.rounds {
        OneMoreRead(s, st.rounds, next.rounds, s.inner(|st.rounds|).ending.completion.text);
      }
      RunReads(s, patience, next);
    }
  }

  lemma {:induction false} TextsEmpty<J>(rounds: seq<Round<J>>)
    ensures RoundTexts(rounds) == "" <==> forall i :: 0 <= i < |rounds| ==> rounds[i].text == ""
  {
    if rounds != [] {
      var n := |rounds| - 1;
      TextsEmpty(rounds[..n]);
      assert RoundTexts(rounds) == "" <==> RoundTexts(rounds[..n]) == "" && rounds[n].text == "";
      assert (forall i :: 0 <= i < n ==> rounds[..n][i].text == "") <==> (forall i :: 0 <= i < n ==> rounds[i].text == "");
    }
  }

  /** The completion of round i has text. */
  ghost predicate Speaks<J>(s: Script<J>, i: nat) {
    s.inner(i).ending.Ends? && s.inner(i).ending.completion.text != ""
  }

  /** What the client has read when the answer is complete, and what is stored as the assistant's message: the
      stored text is the end of the text read, and they are the same iff no completion before the last one
      asked for has text. */
  lemma ReadVersusStored<J>(s: Script<J>, patience: nat)
    requires Faithful(s) && Run(s, patience).end.value.Final?
    ensures var last := Run(s, patience);
            var earlier, stored := RoundTexts(EarlierRounds(last)), last.end.value.text;
            && DeltaText(last.events) == earlier + stored
            && (DeltaText(last.events) == stored <==> forall i :: 0 <= i < |last.requests| - 1 ==> !Speaks(s, i))
  {
    RunKeepsText(s, patience, Start());
    RunReads(s, patience, Start());
    RunAccounts(s, patience);
    var last := Run(s, patience);
    var earlier := EarlierRounds(last);
    assert |DeltaText(last.events)| == |RoundTexts(earlier)| + |last.end.value.text|;
    TextsEmpty(earlier);
    assert |earlier| == |last.requests| - 1;
    forall i | 0 <= i < |earlier| ensures earlier[i].text == "" <==> !Speaks(s, i) {
      assert RoundReads(s, i, last.rounds[i]);
    }
  }

  /** Whenever the first completion calls tools and has text, an answer is stored that is not what was streamed. */
  lemma StoredIsNotWhatWasRead<J>(s: Script<J>, patience: nat)
    requires Faithful(s) && Run(s, patience).end.value.Final?
    requires Speaks(s, 0) && CallsTools(s.inner(0).ending.completion)
    ensures DeltaText(Run(s, patience).events) != Run(s, patience).end.value.text
  {
    ReadVersusStored(s, patience);
    MoreThanOneRequest(s, patience);
  }

  lemma MoreThanOneRequest<J>(s: Script<J>, patience: nat)
    requires Run(s, patience).end.value.Final?
    requires s.inner(0).ending.Ends? && CallsTools(s.inner(0).ending.completion)
    ensures |Run(s, patience).requests| > 1
  {
    var next := RoundStep(s, patience, Start());
    StepTalks(s, patience, Start(), next);
    RunAccounts(s, patience);
    if next.rounds != [] {
      OneMoreRead(s, [], next.rounds, next.rounds[0].text);
      RunReads(s, patience, next);
    }
  }
}
