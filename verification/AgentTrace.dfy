/**
 A run of the agent in closed form: what each way of ending has sent, recorded and found, from the script
 alone and not step by step.
 */
module AgentTrace {
  import opened Prelude
  import opened StreamAssembly
  import opened Translation
  import opened UsageRows
  import opened UsageTracking
  import opened AgentTools
  import opened Agent
  import AgentRuns

  /** Events sent, rows recorded, hits found. */
  datatype Log<J> = Log(events: seq<Event<J>>, rows: seq<Row>, hits: seq<Citation>)

  function LogOf<J>(st: State<J>): Log<J> {
    Log(st.events, st.rows, st.hits)
  }

  function Plus<J>(a: Log<J>, b: Log<J>): Log<J> {
    Log(a.events + b.events, a.rows + b.rows, a.hits + b.hits)
  }

  lemma PlusAssoc<J>(a: Log<J>, b: Log<J>, c: Log<J>)
    ensures Plus(a, Plus(b, c)) == Plus(Plus(a, b), c)
  {
    Assoc(a.events, b.events, c.events);
    Assoc(a.rows, b.rows, c.rows);
    Assoc(a.hits, b.hits, c.hits);
  }

  lemma PlusNothing<J>(a: Log<J>)
    ensures Plus(a, Log([], [], [])) == a
  {
  }

  function ChatFeature<J>(s: Script<J>): string {
    if s.rag then "rag" else "chat"
  }

  /** The j-th tool call of round i: its event, and what executing it records and finds. */
  function CallLog<J>(s: Script<J>, i: nat, calls: seq<ToolCall<J>>, j: nat): Log<J>
    requires j < |calls|
  {
    var effect := ExecuteEffect(s.tooling, calls[j], s.worlds(i, j));
    Log([ToolUseShown(calls[j].name, calls[j].arguments)], effect.rows, effect.hits)
  }

  /** The first m tool calls of round i, in order. */
  function CallsLog<J>(s: Script<J>, i: nat, calls: seq<ToolCall<J>>, m: nat): Log<J>
    requires m <= |calls|
  {
    if m == 0 then Log([], [], []) else Plus(CallsLog(s, i, calls, m - 1), CallLog(s, i, calls, m - 1))
  }

  /** The stream of round i, read to its StreamEnd: all deltas, and a row with the usage reported. */
  function StreamLog<J>(s: Script<J>, i: nat): Log<J>
    requires s.inner(i).ending.Ends?
  {
    var end := s.inner(i).ending;
    Log(DeltaEvents(s.inner(i).deltas), [Row(ChatFeature(s), end.model, Ok, end.completion.usage)], [])
  }

  /** The stream of round i, cut short after these deltas. */
  function CutLog<J>(s: Script<J>, deltas: seq<string>, status: CallStatus): Log<J> {
    Log(DeltaEvents(deltas), [Row(ChatFeature(s), "unknown", status, Usage(0, |Flatten(deltas)| / 4, 0, 0))], [])
  }

  /** Tool round i: the model asked for tools, and each call was answered by executing that very call. */
  ghost predicate RoundTrue<J>(s: Script<J>, i: nat, r: Round<J>) {
    && s.inner(i).ending.Ends?
    && var c := s.inner(i).ending.completion;
       && c.stopReason == "tool_use" && c.toolCalls != []
       && r.text == c.text && r.calls == c.toolCalls && |r.outputs| == |r.calls|
       && forall j :: 0 <= j < |r.calls| ==> AnswerTrue(s, i, r.calls, r.outputs, j)
  }

  ghost predicate AnswerTrue<J>(s: Script<J>, i: nat, calls: seq<ToolCall<J>>, outputs: seq<string>, j: nat)
    requires j < |calls| && j < |outputs|
  {
    ExecuteEffect(s.tooling, calls[j], s.worlds(i, j)).answer == Output(outputs[j])
  }

  ghost predicate RoundsTrue<J>(s: Script<J>, rounds: seq<Round<J>>) {
    forall i :: 0 <= i < |rounds| ==> RoundTrue(s, i, rounds[i])
  }

  /** All of the first n tool rounds. */
  function RoundsLog<J>(s: Script<J>, n: nat): Log<J> {
    if n == 0 then Log([], [], [])
    else if !s.inner(n - 1).ending.Ends? then RoundsLog(s, n - 1)
    else
      var calls := s.inner(n - 1).ending.completion.toolCalls;
      Plus(Plus(RoundsLog(s, n - 1), StreamLog(s, n - 1)), CallsLog(s, n - 1, calls, |calls|))
  }

  /** The tools of round k, up to the j-th call: `asked` says whether that one was executed too. */
  ghost predicate AtCall<J>(s: Script<J>, k: nat, log: Log<J>, j: nat, executed: bool)
    requires s.inner(k).ending.Ends? && j < |s.inner(k).ending.completion.toolCalls|
  {
    var calls := s.inner(k).ending.completion.toolCalls;
    var call := CallLog(s, k, calls, j);
    log == Plus(Plus(Plus(RoundsLog(s, k), StreamLog(s, k)), CallsLog(s, k, calls, j)),
                if executed then call else Log(call.events, [], []))
  }

  ghost predicate LeftAt<J>(s: Script<J>, k: nat, log: Log<J>) {
    && s.inner(k).ending.Ends?
    && exists j :: 0 <= j < |s.inner(k).ending.completion.toolCalls| && AtCall(s, k, log, j, false)
  }

  ghost predicate RaisedAt<J>(s: Script<J>, k: nat, log: Log<J>, llm: bool) {
    && s.inner(k).ending.Ends?
    && exists j :: 0 <= j < |s.inner(k).ending.completion.toolCalls| && AtCall(s, k, log, j, true) &&
         ExecuteEffect(s.tooling, s.inner(k).ending.completion.toolCalls[j], s.worlds(k, j)).answer == ToolRaises(llm)
  }

  /** What has happened when a run ends in its round k. */
  ghost predicate EndsTrue<J>(s: Script<J>, patience: nat, k: nat, log: Log<J>, end: RunEnd) {
    var inner := s.inner(k);
    match end
    case Final(text) =>
      && inner.ending.Ends? && text == inner.ending.completion.text
      && (if inner.ending.completion.stopReason == "tool_use" && inner.ending.completion.toolCalls != [] then
            k == 3 && log == RoundsLog(s, 4)
          else log == Plus(RoundsLog(s, k), StreamLog(s, k)))
    case LeftMidStream =>
      && |RoundsLog(s, k).events| <= patience < |RoundsLog(s, k).events| + |inner.deltas|
      && log == Plus(RoundsLog(s, k), CutLog(s, inner.deltas[..patience - |RoundsLog(s, k).events| + 1], Disconnected))
    case ProviderRaised(llm) => inner.ending == Fails(llm) && log == Plus(RoundsLog(s, k), CutLog(s, inner.deltas, Error))
    case NoStreamEnd => inner.ending.Stops? && log == Plus(RoundsLog(s, k), Log(DeltaEvents(inner.deltas), [], []))
    case LeftAtTool => LeftAt(s, k, log)
    case ToolRaised(llm) => RaisedAt(s, k, log, llm)
  }

  ghost predicate Traced<J>(s: Script<J>, patience: nat, st: State<J>) {
    && RoundsTrue(s, st.rounds)
    && match st.end
       case None => LogOf(st) == RoundsLog(s, |st.rounds|) && |st.requests| == |st.rounds|
       case Some(end) => |st.requests| > 0 && EndsTrue(s, patience, |st.requests| - 1, LogOf(st), end)
  }

  // The tools of a round.

  ghost predicate Answered<J>(s: Script<J>, i: nat, calls: seq<ToolCall<J>>, outputs: seq<string>) {
    |outputs| <= |calls| && forall j :: 0 <= j < |outputs| ==> AnswerTrue(s, i, calls, outputs, j)
  }

  lemma AnsweredSnoc<J>(s: Script<J>, i: nat, calls: seq<ToolCall<J>>, outputs: seq<string>, text: string)
    requires Answered(s, i, calls, outputs) && |outputs| < |calls|
    requires ExecuteEffect(s.tooling, calls[|outputs|], s.worlds(i, |outputs|)).answer == Output(text)
    ensures Answered(s, i, calls, outputs + [text])
  {
    var more := outputs + [text];
    forall j | 0 <= j < |more| ensures AnswerTrue(s, i, calls, more, j) {
      if j < |outputs| {
        assert AnswerTrue(s, i, calls, outputs, j);
      }
    }
  }

  /** How the tools of round i end, with what came before them in `base`. */
  ghost predicate ToolsTrue<J>(s: Script<J>, i: nat, base: Log<J>, c: Completion<J>, rounds: seq<Round<J>>, next: State<J>) {
    if next.end.None? || next.end.value.Final? then
      && |next.rounds| == |rounds| + 1 && next.rounds[..|rounds|] == rounds
      && var r := next.rounds[|rounds|];
         && r.text == c.text && r.calls == c.toolCalls
         && |r.outputs| == |r.calls| && Answered(s, i, r.calls, r.outputs)
         && LogOf(next) == Plus(base, CallsLog(s, i, c.toolCalls, |c.toolCalls|))
         && (next.end.Some? ==> next.end.value.text == c.text && |next.rounds| == 4)
    else
      next.rounds == rounds && exists j :: 0 <= j < |c.toolCalls| && StopsAt(s, i, base, c.toolCalls, next, j)
  }

  ghost predicate StopsAt<J>(s: Script<J>, i: nat, base: Log<J>, calls: seq<ToolCall<J>>, next: State<J>, j: nat)
    requires j < |calls| && next.end.Some?
  {
    var call := CallLog(s, i, calls, j);
    var before := Plus(base, CallsLog(s, i, calls, j));
    match next.end.value
    case LeftAtTool => LogOf(next) == Plus(before, Log(call.events, [], []))
    case ToolRaised(llm) =>
      && LogOf(next) == Plus(before, call)
      && ExecuteEffect(s.tooling, calls[j], s.worlds(i, j)).answer == ToolRaises(llm)
    case _ => false
  }

  lemma {:induction false} ToolsTrace<J>(s: Script<J>, patience: nat, st: State<J>, c: Completion<J>, outputs: seq<string>,
                                         base: Log<J>)
    requires Going(patience, st) && CallsTools(c) && Answered(s, |st.rounds|, c.toolCalls, outputs)
    requires LogOf(st) == Plus(base, CallsLog(s, |st.rounds|, c.toolCalls, |outputs|))
    ensures ToolsTrue(s, |st.rounds|, base, c, st.rounds, ToolsFrom(s, patience, st, c, outputs))
    decreases |c.toolCalls| - |outputs|
  {
    var i, j := |st.rounds|, |outputs|;
    if j < |c.toolCalls| {
      var call := c.toolCalls[j];
      var called := Called(s, st, call, j);
      var answer := ExecuteEffect(s.tooling, call, s.worlds(i, j)).answer;
      CallTrace(s, patience, st, c, j, base);
      if |called.events| <= patience && answer.Output? {
        AnsweredSnoc(s, i, c.toolCalls, outputs, answer.text);
        ToolsTrace(s, patience, called, c, outputs + [answer.text], base);
      } else {
        assert StopsAt(s, i, base, c.toolCalls, ToolsFrom(s, patience, st, c, outputs), j);
      }
    }
  }

  lemma CallTrace<J>(s: Script<J>, patience: nat, st: State<J>, c: Completion<J>, j: nat, base: Log<J>)
    requires j < |c.toolCalls| && LogOf(st) == Plus(base, CallsLog(s, |st.rounds|, c.toolCalls, j))
    ensures var i, call := |st.rounds|, CallLog(s, |st.rounds|, c.toolCalls, j);
            var before := Plus(base, CallsLog(s, i, c.toolCalls, j));
            && LogOf(Called(s, st, c.toolCalls[j], j)) == Plus(before, call)
            && Plus(before, call) == Plus(base, CallsLog(s, i, c.toolCalls, j + 1))
            && Log(st.events + call.events, st.rows, st.hits) == Plus(before, Log(call.events, [], []))
  {
    PlusAssoc(base, CallsLog(s, |st.rounds|, c.toolCalls, j), CallLog(s, |st.rounds|, c.toolCalls, j));
    assert st.rows + [] == st.rows && st.hits + [] == st.hits;
  }

  // A round, and a run.

  lemma StreamTrace<J>(s: Script<J>, patience: nat, st: State<J>)
    requires Going(patience, st)
    ensures var inner, left := s.inner(|st.rounds|), patience - |st.events|;
            var log := LogOf(Streamed(s, patience, st));
            match ResultWithin(inner, left)
            case Left => log == Plus(LogOf(st), CutLog(s, inner.deltas[..left + 1], Disconnected))
            case Broke(_) => log == Plus(LogOf(st), CutLog(s, inner.deltas, Error))
            case Stopped => log == Plus(LogOf(st), Log(DeltaEvents(inner.deltas), [], []))
            case Completed(_) => log == Plus(LogOf(st), StreamLog(s, |st.rounds|))
  {
    assert st.hits + [] == st.hits;
  }

  lemma RoundAdded<J>(s: Script<J>, rounds: seq<Round<J>>, more: seq<Round<J>>)
    requires RoundsTrue(s, rounds) && |more| == |rounds| + 1 && more[..|rounds|] == rounds
    requires RoundTrue(s, |rounds|, more[|rounds|])
    ensures RoundsTrue(s, more)
  {
    forall i | 0 <= i < |more| ensures RoundTrue(s, i, more[i]) {
      if i < |rounds| {
        assert more[i] == rounds[i];
      }
    }
  }

  /** The tools of a round leave the run as the trace says. */
  lemma ToolsTraced<J>(s: Script<J>, patience: nat, st: State<J>, i: nat, next: State<J>)
    requires i == |st.rounds| && RoundsTrue(s, st.rounds) && |next.requests| == i + 1 && s.inner(i).ending.Ends?
    requires CallsTools(s.inner(i).ending.completion)
    requires ToolsTrue(s, i, Plus(RoundsLog(s, i), StreamLog(s, i)), s.inner(i).ending.completion, st.rounds, next)
    ensures Traced(s, patience, next)
  {
    var c := s.inner(i).ending.completion;
    if next.end.None? || next.end.value.Final? {
      RoundAdded(s, st.rounds, next.rounds);
      assert LogOf(next) == RoundsLog(s, i + 1);
    } else {
      var j :| 0 <= j < |c.toolCalls| && StopsAt(s, i, Plus(RoundsLog(s, i), StreamLog(s, i)), c.toolCalls, next, j);
      assert AtCall(s, i, LogOf(next), j, next.end.value.ToolRaised?);
    }
  }

  lemma StepTraced<J>(s: Script<J>, patience: nat, st: State<J>)
    requires Going(patience, st) && Traced(s, patience, st)
    ensures Traced(s, patience, RoundStep(s, patience, st))
  {
    var result := ResultWithin(s.inner(|st.rounds|), patience - |st.events|);
    if result.Completed? && CallsTools(result.completion) {
      ToolRoundTraced(s, patience, st, result.completion);
    } else {
      EndTraced(s, patience, st, RoundStep(s, patience, st));
    }
  }

  lemma EndTraced<J>(s: Script<J>, patience: nat, st: State<J>, next: State<J>)
    requires Going(patience, st) && Traced(s, patience, st) && next == RoundStep(s, patience, st)
    requires var result := ResultWithin(s.inner(|st.rounds|), patience - |st.events|);
             !(result.Completed? && CallsTools(result.completion))
    ensures Traced(s, patience, next)
  {
    var result := ResultWithin(s.inner(|st.rounds|), patience - |st.events|);
    StreamTrace(s, patience, st);
    assert next.rounds == st.rounds && |next.requests| == |st.rounds| + 1;
    match result
    case Left => assert next.end == Some(LeftMidStream);
    case Broke(llm) => assert next.end == Some(ProviderRaised(llm));
    case Stopped => assert next.end == Some(NoStreamEnd);
    case Completed(c) => assert next.end == Some(Final(c.text));
  }

  lemma ToolRoundTraced<J>(s: Script<J>, patience: nat, st: State<J>, c: Completion<J>)
    requires Going(patience, st) && Traced(s, patience, st) && CallsTools(c)
    requires ResultWithin(s.inner(|st.rounds|), patience - |st.events|) == Completed(c)
    ensures Traced(s, patience, RoundStep(s, patience, st))
  {
    var streamed := Streamed(s, patience, st);
    StreamTrace(s, patience, st);
    PlusNothing(LogOf(streamed));
    ToolsTrace(s, patience, Counted(streamed, c), c, [], LogOf(streamed));
    ToolsSameRequests(s, patience, Counted(streamed, c), c, []);
    ToolsTraced(s, patience, st, |st.rounds|, RoundStep(s, patience, st));
  }

  lemma {:induction false} ToolsSameRequests<J>(s: Script<J>, patience: nat, st: State<J>, c: Completion<J>,
                                                outputs: seq<string>)
    requires Going(patience, st) && CallsTools(c) && |outputs| <= |c.toolCalls|
    ensures ToolsFrom(s, patience, st, c, outputs).requests == st.requests
    decreases |c.toolCalls| - |outputs|
  {
    var j := |outputs|;
    if j < |c.toolCalls| {
      var called := Called(s, st, c.toolCalls[j], j);
      var answer := ExecuteEffect(s.tooling, c.toolCalls[j], s.worlds(|st.rounds|, j)).answer;
      if |called.events| <= patience && answer.Output? {
        ToolsSameRequests(s, patience, called, c, outputs + [answer.text]);
      }
    }
  }

  lemma {:induction false} TracedFrom<J>(s: Script<J>, patience: nat, st: State<J>)
    requires (Going(patience, st) || Ended(st)) && Traced(s, patience, st)
    ensures Traced(s, patience, RunFrom(s, patience, st))
    decreases if st.end.None? then 1 else 0, MAX_TOOL_ROUNDS - |st.rounds|
  {
    if st.end.None? {
      StepTraced(s, patience, st);
      TracedFrom(s, patience, RoundStep(s, patience, st));
    }
  }

  /** Every run of the agent: in each tool round every call is paired with the output of executing that call; and
      whichever way the run ends, the events sent, the rows recorded and the hits found are those of the rounds
      before, in order, and of the last one as far as it came. An answer is given when the model asks for no tool, or
      after the fourth round. */
  lemma RunTraced<J>(s: Script<J>, patience: nat)
    ensures var last := Run(s, patience);
            && RoundsTrue(s, last.rounds) && |last.requests| > 0
            && EndsTrue(s, patience, |last.requests| - 1, LogOf(last), last.end.value)
  {
    TracedFrom(s, patience, Start());
  }

  /** The messages of tool round j: the model's own turn, and under the id of each of its calls what executing that
      call gave. */
  ghost predicate RoundSent<J>(s: Script<J>, j: nat, turn: Message<J>, tools: Message<J>) {
    && s.inner(j).ending.Ends?
    && var c := s.inner(j).ending.completion;
       && TurnSays(turn, c.text, c.toolCalls)
       && tools.role.User? && tools.content.Blocks? && |tools.content.blocks| == |c.toolCalls|
       && forall k :: 0 <= k < |c.toolCalls| ==> AnswerSent(s, j, c.toolCalls, tools.content.blocks, k)
  }

  ghost predicate AnswerSent<J>(s: Script<J>, j: nat, calls: seq<ToolCall<J>>, blocks: seq<Block<J>>, k: nat)
    requires k < |calls| && k < |blocks|
  {
    && blocks[k].ToolResult? && blocks[k].toolUseId == calls[k].id
    && ExecuteEffect(s.tooling, calls[k], s.worlds(j, k)).answer == Output(blocks[k].output)
  }

  /** What the provider is asked in its i-th request: the conversation, and then the tool rounds before it, in order. */
  lemma RequestSent<J>(s: Script<J>, patience: nat, i: nat, j: nat)
    requires i < |Run(s, patience).requests| && j < i
    ensures var request, n := Run(s, patience).requests[i], |s.history|;
            && |request| == n + 2 * i && request[..n] == s.history
            && RoundSent(s, j, request[n + 2 * j], request[n + 2 * j + 1])
  {
    var last := Run(s, patience);
    AgentRuns.RunAccounts(s, patience);
    RunTraced(s, patience);
    assert AgentRuns.RequestIs(s, last, i);
    RoundMessagesSay(last.rounds[..i], j);
    assert RoundTrue(s, j, last.rounds[j]);
    SentIfTrue(s, j, last.rounds[j], RoundMessages(last.rounds[..i])[2 * j], RoundMessages(last.rounds[..i])[2 * j + 1]);
  }

  lemma SentIfTrue<J>(s: Script<J>, j: nat, r: Round<J>, turn: Message<J>, tools: Message<J>)
    requires RoundTrue(s, j, r) && TurnSays(turn, r.text, r.calls) && ToolsSay(tools, r.calls, r.outputs)
    ensures RoundSent(s, j, turn, tools)
  {
    forall k | 0 <= k < |r.calls| ensures AnswerSent(s, j, r.calls, tools.content.blocks, k) {
      assert AnswerTrue(s, j, r.calls, r.outputs, k);
    }
  }

  /** The first request is the conversation alone. */
  lemma FirstRequest<J>(s: Script<J>, patience: nat)
    ensures |Run(s, patience).requests| > 0 && Run(s, patience).requests[0] == s.history
  {
    AgentRuns.RunAccounts(s, patience);
    RunTraced(s, patience);
    assert AgentRuns.RequestIs(s, Run(s, patience), 0);
  }
}
