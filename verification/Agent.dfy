/**
 The streamed agent loop: bounded tool rounds, each over a tracked stream, and the response that the
 router makes of it. A client may close the response at any yield.
 */
module Agent {
  import opened Prelude
  import opened StreamAssembly
  import opened Translation
  import opened UsageRows
  import opened Database
  import opened UsageTracking
  import opened AgentTools

  const MAX_TOOL_ROUNDS := 4

  datatype Event<J> =
    | Delta(text: string)
    | ToolUseShown(name: string, input: J)
    | Done(citations: seq<Citation>)
    | Failed

  /** Everything that a run meets: the conversation so far, the provider's stream in each round, and what the outside
      makes of the j-th tool call of round i. */
  datatype Script<!J> = Script(
    history: seq<Message<J>>, rag: bool, inner: nat -> Inner<J>, worlds: (nat, nat) -> World, tooling: Tooling<J>)

  function Feature<J>(s: Script<J>): string {
    if s.rag then "rag" else "chat"
  }

  datatype RunEnd =
    | Final(text: string)
    | LeftMidStream
    | ProviderRaised(llm: bool)
    | NoStreamEnd
    | LeftAtTool
    | ToolRaised(llm: bool)

  /** Where a run stands between rounds. */
  datatype State<J> = State(
    rounds: seq<Round<J>>, requests: seq<seq<Message<J>>>, rows: seq<Row>, events: seq<Event<J>>,
    hits: seq<Citation>, tokens: int, end: Option<RunEnd>)

  function Start<J>(): State<J> {
    State([], [], [], [], [], 0, None)
  }

  predicate Going<J>(patience: nat, st: State<J>) {
    && st.end.None? && |st.rounds| < MAX_TOOL_ROUNDS && |st.events| <= patience
    && forall i :: 0 <= i < |st.rounds| ==> st.rounds[i].Valid()
  }

  predicate Ended<J>(st: State<J>) {
    st.end.Some? && forall i :: 0 <= i < |st.rounds| ==> st.rounds[i].Valid()
  }

  function DeltaEvents<J>(texts: seq<string>): (events: seq<Event<J>>)
    ensures |events| == |texts|
    ensures forall i :: 0 <= i < |events| ==> events[i] == Delta(texts[i])
  {
    seq(|texts|, i requires 0 <= i < |texts| => Delta(texts[i]))
  }

  // What a run does, round by round.

  /** The stream of the next round, as far as the client follows it. */
  function Streamed<J>(s: Script<J>, patience: nat, st: State<J>): State<J>
    requires Going(patience, st)
  {
    var inner, left := s.inner(|st.rounds|), patience - |st.events|;
    st.(requests := st.requests + [s.history + RoundMessages(st.rounds)],
        events := st.events + DeltaEvents(TakenWithin(inner, left)),
        rows := st.rows + RowsWithin(Feature(s), inner, left))
  }

  predicate CallsTools<J>(c: Completion<J>) {
    c.stopReason == "tool_use" && c.toolCalls != []
  }

  function RoundStep<J>(s: Script<J>, patience: nat, st: State<J>): (next: State<J>)
    requires Going(patience, st)
    ensures Ended(next) || (Going(patience, next) && |next.rounds| == |st.rounds| + 1)
  {
    AfterStream(s, patience, Streamed(s, patience, st), ResultWithin(s.inner(|st.rounds|), patience - |st.events|))
  }

  predicate Between<J>(patience: nat, st: State<J>, result: StreamResult<J>) {
    && st.end.None? && |st.rounds| < MAX_TOOL_ROUNDS && (result.Completed? ==> |st.events| <= patience)
    && forall i :: 0 <= i < |st.rounds| ==> st.rounds[i].Valid()
  }

  /** What follows a stream. */
  function AfterStream<J>(s: Script<J>, patience: nat, st: State<J>, result: StreamResult<J>): (next: State<J>)
    requires Between(patience, st, result)
    ensures Ended(next) || (Going(patience, next) && |next.rounds| == |st.rounds| + 1)
  {
    match result
    case Left => st.(end := Some(LeftMidStream))
    case Broke(llm) => st.(end := Some(ProviderRaised(llm)))
    case Stopped => st.(end := Some(NoStreamEnd))
    case Completed(c) =>
      if CallsTools(c) then ToolsFrom(s, patience, Counted(st, c), c, []) else Counted(st, c).(end := Some(Final(c.text)))
  }

  function Counted<J>(st: State<J>, c: Completion<J>): State<J> {
    st.(tokens := st.tokens + c.usage.input + c.usage.output)
  }

  /** The rest of the tool calls, once those before have answered. */
  function ToolsFrom<J>(s: Script<J>, patience: nat, st: State<J>, c: Completion<J>,
                        outputs: seq<string>): (next: State<J>)
    requires Going(patience, st) && CallsTools(c) && |outputs| <= |c.toolCalls|
    ensures Ended(next) || (Going(patience, next) && |next.rounds| == |st.rounds| + 1)
    decreases |c.toolCalls| - |outputs|
  {
    var j := |outputs|;
    if j == |c.toolCalls| then WithRound(st, Round(c.text, c.toolCalls, outputs))
    else
      var called := Called(s, st, c.toolCalls[j], j);
      if |called.events| > patience then st.(events := called.events, end := Some(LeftAtTool))
      else
        match ExecuteEffect(s.tooling, c.toolCalls[j], s.worlds(|st.rounds|, j)).answer
        case ToolRaises(llm) => called.(end := Some(ToolRaised(llm)))
        case Output(text) => ToolsFrom(s, patience, called, c, outputs + [text])
  }

  /** The event of a tool call, and what executing it records. */
  function Called<J>(s: Script<J>, st: State<J>, call: ToolCall<J>, j: nat): State<J> {
    var effect := ExecuteEffect(s.tooling, call, s.worlds(|st.rounds|, j));
    st.(events := st.events + [ToolUseShown(call.name, call.arguments)],
        rows := st.rows + effect.rows, hits := st.hits + effect.hits)
  }

  /** After the last round allowed, the text of its completion is the answer. */
  function WithRound<J>(st: State<J>, r: Round<J>): State<J> {
    st.(rounds := st.rounds + [r], end := if |st.rounds| + 1 == MAX_TOOL_ROUNDS then Some(Final(r.text)) else None)
  }

  function RunFrom<J>(s: Script<J>, patience: nat, st: State<J>): (last: State<J>)
    requires Going(patience, st) || Ended(st)
    ensures Ended(last)
    decreases if st.end.None? then 1 else 0, MAX_TOOL_ROUNDS - |st.rounds|
  {
    if st.end.Some? then st else RunFrom(s, patience, RoundStep(s, patience, st))
  }

  function Run<J>(s: Script<J>, patience: nat): State<J> {
    RunFrom(s, patience, Start())
  }

  /** The run ends in a step that commits the session. */
  predicate Keeps(end: RunEnd) {
    end.Final? || end.LeftMidStream? || end.ProviderRaised?
  }

  /** The usage rows in the database after the request, given those before it. */
  function RowsAfter<J>(before: seq<Row>, last: State<J>): seq<Row>
    requires last.end.Some?
  {
    if Keeps(last.end.value) then before + last.rows else before
  }

  function LastEvent<J>(st: State<J>): seq<Event<J>>
    requires st.end.Some?
  {
    match st.end.value
    case Final(_) => [Event.Done(Cite([], st.hits))]
    case ProviderRaised(llm) => if llm then [Failed] else []
    case ToolRaised(llm) => if llm then [Failed] else []
    case _ => []
  }

  // The code.

  /** Whoever reads the response: it goes on after the first `patience` yields, and closes at the next. */
  class Client<J> {
    const patience: nat
    var received: seq<Event<J>>

    constructor (patience: nat)
      ensures this.patience == patience && received == []
    {
      this.patience, received := patience, [];
    }

    method Yield(e: Event<J>) returns (closed: bool)
      modifies this
      ensures received == old(received) + [e]
      ensures closed <==> |received| > patience
    {
      received := received + [e];
      closed := |received| > patience;
    }
  }

  /** The inner loop of `run_agent`. */
  method Consume<J>(inner: Inner<J>, feature: string, session: Session<Store<Reply>>, client: Client<J>)
    returns (result: StreamResult<J>)
    requires |client.received| <= client.patience
    modifies session, client
    ensures result == ResultWithin(inner, client.patience - |old(client.received)|)
    ensures client.received == old(client.received) + DeltaEvents(TakenWithin(inner, client.patience - |old(client.received)|))
    ensures session.working == old(session.working).(rows := old(session.working.rows) +
              RowsWithin(feature, inner, client.patience - |old(client.received)|))
    ensures session.committed == if result.Left? || result.Broke? then session.working else old(session.committed)
  {
    var stream := new TrackedStream(inner, feature, session);
    var completion: Option<Completion<J>> := None;
    while true
      invariant fresh(stream) && stream.Valid()
      invariant stream.inner == inner && stream.feature == feature && stream.session == session
      invariant stream.pos <= client.patience - |old(client.received)|
      invariant client.received == old(client.received) + DeltaEvents(inner.deltas[..stream.pos])
      invariant session.committed == old(session.committed)
      invariant session.working == old(session.working).(rows := old(session.working.rows) +
                  if stream.recorded then EndRow(feature, inner, false) else [])
      invariant stream.recorded ==> completion == Some(inner.ending.completion)
      invariant !stream.recorded ==> completion == None
      decreases |inner.deltas| - stream.pos, if stream.recorded then 0 else 1
    {
      var item := stream.Next();
      match item {
        case TextDelta(text) =>
          assert DeltaEvents<J>(inner.deltas[..stream.pos]) == DeltaEvents(inner.deltas[..stream.pos - 1]) + [Delta(text)];
          var closed := client.Yield(Delta(text));
          if closed {
            stream.Close();
            return Left;
          }
        case StreamEnd(end) =>
          completion := Some(end);
        case Exhausted =>
          assert inner.deltas[..stream.pos] == inner.deltas;
          return if completion.Some? then Completed(completion.value) else Stopped;
        case Raised(llm) =>
          assert inner.deltas[..stream.pos] == inner.deltas;
          return Broke(llm);
      }
    }
  }

  /** The objects of a request are where the state says. */
  ghost predicate Mirrors<J>(st: State<J>, base: Store<Reply>, session: Session<Store<Reply>>, toolbox: AgentToolbox<J>,
                             client: Client<J>)
    reads session, toolbox, client
  {
    && session.working == base.(rows := base.rows + st.rows)
    && toolbox.citations == Cite([], st.hits)
    && client.received == st.events
    && session.committed == if st.end.Some? && !st.end.value.Final? && Keeps(st.end.value) then session.working else base
  }

  /** The tool calls of one round of `run_agent`. */
  method RunTools<J>(s: Script<J>, c: Completion<J>, session: Session<Store<Reply>>, toolbox: AgentToolbox<J>,
                     client: Client<J>,
                     i: nat, ghost base: Store<Reply>, ghost st: State<J>)
    returns (stop: Option<RunEnd>, outputs: seq<string>)
    requires Going(client.patience, st) && CallsTools(c) && |st.rounds| == i
    requires toolbox.session == session && toolbox.tooling == s.tooling
    requires Mirrors(st, base, session, toolbox, client)
    modifies session, toolbox, client
    ensures var after := ToolsFrom(s, client.patience, st, c, []);
            && Mirrors(after, base, session, toolbox, client)
            && (stop.Some? ==> after.end == stop)
            && (stop.None? ==> |outputs| == |c.toolCalls| && after.rounds == st.rounds + [Round(c.text, c.toolCalls, outputs)])
            && (stop.None? ==> after.end == if i + 1 == MAX_TOOL_ROUNDS then Some(Final(c.text)) else None)
            && after.requests == st.requests && after.tokens == st.tokens
  {
    outputs := [];
    ghost var now := st;
    var j := 0;
    while j < |c.toolCalls|
      invariant j == |outputs| <= |c.toolCalls|
      invariant Going(client.patience, now) && now.rounds == st.rounds && now.requests == st.requests && now.tokens == st.tokens
      invariant ToolsFrom(s, client.patience, st, c, []) == ToolsFrom(s, client.patience, now, c, outputs)
      invariant Mirrors(now, base, session, toolbox, client)
    {
      var call := c.toolCalls[j];
      var closed := client.Yield(ToolUseShown(call.name, call.arguments));
      if closed {
        return Some(LeftAtTool), outputs;
      }
      ghost var effect := ExecuteEffect(s.tooling, call, s.worlds(i, j));
      CiteAppend([], now.hits, effect.hits);
      Assoc(base.rows, now.rows, effect.rows);
      var answer := toolbox.Execute(call, s.worlds(i, j));
      now := Called(s, now, call, j);
      if answer.ToolRaises? {
        return Some(ToolRaised(answer.llm)), outputs;
      }
      outputs := outputs + [answer.text];
      j := j + 1;
    }
    return None, outputs;
  }

  lemma {:induction false} RoundMessagesAppend<J>(a: seq<Round<J>>, b: seq<Round<J>>)
    requires forall i :: 0 <= i < |a| ==> a[i].Valid()
    requires forall i :: 0 <= i < |b| ==> b[i].Valid()
    ensures RoundMessages(a + b) == RoundMessages(a) + RoundMessages(b)
  {
    if a == [] {
      assert a + b == b;
    } else {
      RoundMessagesAppend(a[1..], b);
      assert (a + b)[1..] == a[1..] + b;
      Assoc([AssistantTurn(a[0].text, a[0].calls), ToolTurn(a[0])], RoundMessages(a[1..]), RoundMessages(b));
    }
  }

  /** The two messages appended after a tool round. */
  lemma NextMessages<J>(history: seq<Message<J>>, rounds: seq<Round<J>>, r: Round<J>)
    requires r.Valid() && forall i :: 0 <= i < |rounds| ==> rounds[i].Valid()
    ensures history + RoundMessages(rounds + [r]) ==
            (history + RoundMessages(rounds)) + [AssistantTurn(r.text, r.calls), ToolTurn(r)]
  {
    RoundMessagesAppend(rounds, [r]);
    OneRound(r);
    Assoc(history, RoundMessages(rounds), [AssistantTurn(r.text, r.calls), ToolTurn(r)]);
  }

  lemma OneRound<J>(r: Round<J>)
    requires r.Valid()
    ensures RoundMessages([r]) == [AssistantTurn(r.text, r.calls), ToolTurn(r)]
  {
    assert [r][1..] == [];
  }

  /** Once the stream is over, the objects of a request are where the state says. */
  ghost predicate MirrorsStream<J>(st: State<J>, result: StreamResult<J>, base: Store<Reply>,
                                   session: Session<Store<Reply>>,
                                   toolbox: AgentToolbox<J>, client: Client<J>)
    reads session, toolbox, client
  {
    && session.working == base.(rows := base.rows + st.rows)
    && toolbox.citations == Cite([], st.hits)
    && client.received == st.events
    && session.committed == if result.Left? || result.Broke? then session.working else base
  }

  /** One round of the loop of `run_agent`. Without an end, the loop goes on with the messages. */
  method RunRound<J>(s: Script<J>, messages0: seq<Message<J>>, tokens0: int, session: Session<Store<Reply>>,
                     toolbox: AgentToolbox<J>,
                     client: Client<J>, i: nat, ghost base: Store<Reply>, ghost st: State<J>)
    returns (end: Option<RunEnd>, messages: seq<Message<J>>, tokens: int, text: string)
    requires Going(client.patience, st) && |st.rounds| == i
    requires messages0 == s.history + RoundMessages(st.rounds) && tokens0 == st.tokens
    requires toolbox.session == session && toolbox.tooling == s.tooling
    requires Mirrors(st, base, session, toolbox, client)
    modifies session, toolbox, client
    ensures var next := RoundStep(s, client.patience, st);
            && Mirrors(next, base, session, toolbox, client) && tokens == next.tokens
            && next.requests == st.requests + [messages0]
            && (end.Some? ==> next.end == end)
            && (end.None? ==> |next.rounds| == i + 1 && messages == s.history + RoundMessages(next.rounds))
            && (end.None? ==> next.end == if i + 1 == MAX_TOOL_ROUNDS then Some(Final(text)) else None)
  {
    Assoc(base.rows, st.rows, RowsWithin(Feature(s), s.inner(i), client.patience - |st.events|));
    var result := Consume(s.inner(i), Feature(s), session, client);
    end, messages, tokens, text :=
      Proceed(s, result, messages0, tokens0, session, toolbox, client, i, base, Streamed(s, client.patience, st));
  }

  /** The rest of a round, after its stream. */
  method Proceed<J>(s: Script<J>, result: StreamResult<J>, messages0: seq<Message<J>>, tokens0: int,
                    session: Session<Store<Reply>>,
                    toolbox: AgentToolbox<J>, client: Client<J>, i: nat, ghost base: Store<Reply>, ghost st: State<J>)
    returns (end: Option<RunEnd>, messages: seq<Message<J>>, tokens: int, text: string)
    requires Between(client.patience, st, result) && |st.rounds| == i
    requires messages0 == s.history + RoundMessages(st.rounds) && tokens0 == st.tokens
    requires toolbox.session == session && toolbox.tooling == s.tooling
    requires MirrorsStream(st, result, base, session, toolbox, client)
    modifies session, toolbox, client
    ensures var next := AfterStream(s, client.patience, st, result);
            && Mirrors(next, base, session, toolbox, client) && tokens == next.tokens && next.requests == st.requests
            && (end.Some? ==> next.end == end)
            && (end.None? ==> |next.rounds| == i + 1 && messages == s.history + RoundMessages(next.rounds))
            && (end.None? ==> next.end == if i + 1 == MAX_TOOL_ROUNDS then Some(Final(text)) else None)
  {
    messages, tokens, text := messages0, tokens0, "";
    match result {
      case Left => end := Some(LeftMidStream);
      case Broke(llm) => end := Some(ProviderRaised(llm));
      case Stopped => end := Some(NoStreamEnd);
      case Completed(c) =>
        tokens := tokens + c.usage.input + c.usage.output;
        text := c.text;
        if c.stopReason != "tool_use" || c.toolCalls == [] {
          return Some(Final(text)), messages, tokens, text;
        }
        var outputs;
        end, outputs := RunTools(s, c, session, toolbox, client, i, base, Counted(st, c));
        if end.Some? {
          return;
        }
        var round := Round(c.text, c.toolCalls, outputs);
        NextMessages(s.history, st.rounds, round);
        messages := messages + [AssistantTurn(c.text, c.toolCalls), ToolTurn(round)];
    }
  }

  /** `run_agent`: the requests it sends to the provider, the tokens it counts, and how it ends. */
  method RunAgent<J>(s: Script<J>, session: Session<Store<Reply>>, toolbox: AgentToolbox<J>, client: Client<J>)
    returns (end: RunEnd, requests: seq<seq<Message<J>>>, tokens: int)
    requires session.working == session.committed && toolbox.citations == [] && client.received == []
    requires toolbox.session == session && toolbox.tooling == s.tooling
    modifies session, toolbox, client
    ensures var last := Run(s, client.patience);
            && Mirrors(last, old(session.committed), session, toolbox, client)
            && last.end == Some(end) && requests == last.requests && tokens == last.tokens
  {
    ghost var base := session.committed;
    ghost var st: State<J> := Start();
    var messages := s.history;
    var text := "";
    requests, tokens := [], 0;
    var i := 0;
    assert s.history + [] == s.history;
    while i < MAX_TOOL_ROUNDS
      invariant i == |st.rounds| <= MAX_TOOL_ROUNDS
      invariant if i < MAX_TOOL_ROUNDS then Going(client.patience, st) else Ended(st) && st.end == Some(Final(text))
      invariant Run(s, client.patience) == RunFrom(s, client.patience, st)
      invariant Mirrors(st, base, session, toolbox, client)
      invariant i < MAX_TOOL_ROUNDS ==> messages == s.history + RoundMessages(st.rounds)
      invariant requests == st.requests && tokens == st.tokens
    {
      requests := requests + [messages];
      var stop;
      stop, messages, tokens, text := RunRound(s, messages, tokens, session, toolbox, client, i, base, st);
      st := RoundStep(s, client.patience, st);
      if stop.Some? {
        return stop.value, requests, tokens;
      }
      i := i + 1;
    }
    return Final(text), requests, tokens;
  }

  method AddReply(session: Session<Store<Reply>>, reply: Reply)
    modifies session`working
    ensures session.working == old(session.working).(replies := old(session.working.replies) + [reply])
  {
    session.working := session.working.(replies := session.working.replies + [reply]);
  }

  /** `event_stream` and the end of its request. `reported` is what the rate limiter is told, if it is. */
  method EventStream<J>(s: Script<J>, session: Session<Store<Reply>>, client: Client<J>) returns (reported: Option<int>)
    requires session.working == session.committed && client.received == []
    modifies session, client
    ensures var last := Run(s, client.patience);
            var before := old(session.committed);
            && client.received == last.events + LastEvent(last)
            && session.committed.rows == RowsAfter(before.rows, last)
            && session.committed.replies == before.replies +
                 (if last.end.value.Final? then [Reply(last.end.value.text, Cite([], last.hits))] else [])
            && reported == (if last.end.value.Final? then Some(last.tokens) else None)
    ensures session.working == session.committed
  {
    reported := None;
    var toolbox := new AgentToolbox(s.tooling, session);
    var end, requests, tokens := RunAgent(s, session, toolbox, client);
    match end {
      case Final(text) =>
        AddReply(session, Reply(text, toolbox.citations));
        reported := Some(tokens);
        session.Commit();
        var _ := client.Yield(Event.Done(toolbox.citations));
      case ProviderRaised(llm) =>
        if llm {
          var _ := client.Yield(Failed);
        }
      case ToolRaised(llm) =>
        if llm {
          var _ := client.Yield(Failed);
        }
      case _ =>
    }
    session.Rollback();
  }
}
