/**
 The tools that the model may call during a chat turn, and the citations they collect.
 */
module AgentTools {
  import opened Prelude
  import opened StreamAssembly
  import opened UsageRows
  import opened Database
  import opened UsageTracking

  const CITATION_MIN_SCORE := 0.3

  datatype Citation = Citation(
    document: int, name: string, page: Option<int>, snippet: string, content: string, score: real)

  /** The assistant message that is stored at the end of a turn. */
  datatype Reply = Reply(text: string, citations: seq<Citation>)

  predicate SameSource(a: Citation, b: Citation) {
    a.document == b.document && a.page == b.page && a.snippet == b.snippet
  }

  predicate Cites(cited: seq<Citation>, c: Citation) {
    exists i :: 0 <= i < |cited| && SameSource(cited[i], c)
  }

  /** The citations after some more hits. */
  function Cite(cited: seq<Citation>, hits: seq<Citation>): seq<Citation> {
    if hits == [] then cited
    else
      var n := |hits| - 1;
      var before := Cite(cited, hits[..n]);
      if hits[n].score < CITATION_MIN_SCORE || Cites(before, hits[n]) then before else before + [hits[n]]
  }

  lemma {:induction false} CiteAppend(cited: seq<Citation>, a: seq<Citation>, b: seq<Citation>)
    ensures Cite(cited, a + b) == Cite(Cite(cited, a), b)
  {
    if b == [] {
      assert a + b == a;
    } else {
      var n := |b| - 1;
      CiteAppend(cited, a, b[..n]);
      assert (a + b)[..|a| + n] == a + b[..n];
    }
  }

  /** The first hit of its source that scores well enough. */
  ghost predicate FirstGood(hits: seq<Citation>, i: nat) {
    && i < |hits| && hits[i].score >= 0.3
    && forall j :: 0 <= j < i && hits[j].score >= 0.3 ==> !SameSource(hits[j], hits[i])
  }

  /** cited lists, in their order, exactly the hits at the positions idx, and these are the first good ones. */
  ghost predicate Picks(cited: seq<Citation>, hits: seq<Citation>, idx: seq<nat>) {
    && |idx| == |cited|
    && (forall k :: 0 <= k < |idx| ==> FirstGood(hits, idx[k]) && cited[k] == hits[idx[k]])
    && (forall j, k :: 0 <= j < k < |idx| ==> idx[j] < idx[k])
    && (forall i: nat :: FirstGood(hits, i) ==> i in idx)
  }

  lemma FirstGoodOfPrefix(hits: seq<Citation>, n: nat, i: nat)
    requires n <= |hits| && i < n
    ensures FirstGood(hits[..n], i) <==> FirstGood(hits, i)
  {
  }

  /** A good hit is cited already iff it is not the first of its source. */
  lemma CitedIffSeen(cited: seq<Citation>, hits: seq<Citation>, n: nat, idx: seq<nat>)
    requires n < |hits| && Picks(cited, hits[..n], idx) && hits[n].score >= CITATION_MIN_SCORE
    ensures FirstGood(hits, n) <==> !Cites(cited, hits[n])
  {
    if !FirstGood(hits, n) {
      var j :| 0 <= j < n && hits[j].score >= CITATION_MIN_SCORE && SameSource(hits[j], hits[n]);
      var i := FirstOfSource(hits[..n], j);
      var k :| 0 <= k < |idx| && idx[k] == i;
      assert SameSource(cited[k], hits[n]);
    }
  }

  lemma {:induction false} FirstOfSource(hits: seq<Citation>, j: nat) returns (i: nat)
    requires j < |hits| && hits[j].score >= CITATION_MIN_SCORE
    ensures FirstGood(hits, i) && SameSource(hits[i], hits[j])
    decreases j
  {
    if FirstGood(hits, j) {
      i := j;
    } else {
      var earlier :| 0 <= earlier < j && hits[earlier].score >= CITATION_MIN_SCORE && SameSource(hits[earlier], hits[j]);
      i := FirstOfSource(hits, earlier);
    }
  }

  /** The citations of a turn are exactly the first good hit of each source, in the order of the hits. */
  lemma {:induction false} CitedAreFirstGoodHits(hits: seq<Citation>) returns (idx: seq<nat>)
    ensures Picks(Cite([], hits), hits, idx)
  {
    if hits == [] {
      idx := [];
    } else {
      var n := |hits| - 1;
      idx := CitedAreFirstGoodHits(hits[..n]);
      PicksOneMore(hits, n, Cite([], hits[..n]), idx);
      if hits[n].score >= CITATION_MIN_SCORE && !Cites(Cite([], hits[..n]), hits[n]) {
        idx := idx + [n];
      }
    }
  }

  lemma PicksOneMore(hits: seq<Citation>, n: nat, cited: seq<Citation>, idx: seq<nat>)
    requires n == |hits| - 1 && Picks(cited, hits[..n], idx)
    ensures var drop := hits[n].score < CITATION_MIN_SCORE || Cites(cited, hits[n]);
            if drop then Picks(cited, hits, idx) else Picks(cited + [hits[n]], hits, idx + [n])
  {
    forall i: nat | i < n ensures FirstGood(hits[..n], i) <==> FirstGood(hits, i) {
      FirstGoodOfPrefix(hits, n, i);
    }
    if hits[n].score >= CITATION_MIN_SCORE {
      CitedIffSeen(cited, hits, n, idx);
    }
    if !(hits[n].score < CITATION_MIN_SCORE || Cites(cited, hits[n])) {
      var more := idx + [n];
      forall i: nat | FirstGood(hits, i) ensures i in more {
        if i == n {
          assert more[|idx|] == n;
        } else {
          assert i in idx;
        }
      }
    }
  }

  // The toolbox.

  /** What the outside makes of one tool call, should it get there: embedding the query fails (with an LLMError or not),
      the search after it fails, or it finds hits; and the counts for the statistics, if they can be read. */
  datatype Lookup =
    | EmbeddingFails(llm: bool)
    | SearchFails(model: string, tokens: int)
    | Finds(model: string, tokens: int, hits: seq<Citation>)

  datatype World = World(lookup: Lookup, stats: Option<string>)

  /** How the toolbox is set up: whether there is a retrieval service; the query argument of a call; json.dumps
      of hits. */
  datatype Tooling<!J> = Tooling(retrieval: bool, queryOf: J -> string, dumps: seq<Citation> -> string)

  datatype Answer = Output(text: string) | ToolRaises(llm: bool)

  datatype Effect = Effect(answer: Answer, rows: seq<Row>, hits: seq<Citation>)

  function SearchEffect(retrieval: bool, query: string, lookup: Lookup, dumps: seq<Citation> -> string): Effect {
    if !retrieval then Effect(Output("Document search is not configured."), [], [])
    else if query == "" then Effect(Output("Empty query."), [], [])
    else
      match lookup
      case EmbeddingFails(llm) => Effect(ToolRaises(llm), [], [])
      case SearchFails(model, tokens) => Effect(ToolRaises(false), [EmbeddingRow(model, tokens)], [])
      case Finds(model, tokens, hits) =>
        Effect(Output(if hits == [] then "No matching content found in the documents." else dumps(hits)),
               [EmbeddingRow(model, tokens)], hits)
  }

  function ExecuteEffect<J>(tooling: Tooling<J>, call: ToolCall<J>, world: World): Effect {
    if call.name == "search_documents" then
      SearchEffect(tooling.retrieval, tooling.queryOf(call.arguments), world.lookup, tooling.dumps)
    else if call.name == "get_workspace_stats" then
      Effect(if world.stats.Some? then Output(world.stats.value) else ToolRaises(false), [], [])
    else Effect(Output("Unknown tool: " + call.name), [], [])
  }

  /** The query of the call reaches the embedding provider. */
  predicate Embeds<J>(tooling: Tooling<J>, call: ToolCall<J>) {
    call.name == "search_documents" && tooling.retrieval && tooling.queryOf(call.arguments) != ""
  }

  /** What a call comes to. It leaves a row exactly if a query was embedded, and it raises exactly if the embedding,
      the search after it or the statistics fail; only an LLMError of the embedding is one of the tool. */
  lemma CallEffects<J>(tooling: Tooling<J>, call: ToolCall<J>, world: World)
    ensures var e := ExecuteEffect(tooling, call, world);
            var paid := Embeds(tooling, call) && !world.lookup.EmbeddingFails?;
            && (paid ==> e.rows == [Row("ingestion", world.lookup.model, Ok, Usage(world.lookup.tokens, 0, 0, 0))])
            && (!paid ==> e.rows == [])
            && (paid && world.lookup.Finds? ==> e.hits == world.lookup.hits)
            && (!(paid && world.lookup.Finds?) ==> e.hits == [])
            && (e.answer.ToolRaises? <==>
                  (Embeds(tooling, call) && !world.lookup.Finds?) || (call.name == "get_workspace_stats" && world.stats.None?))
            && (e.answer == ToolRaises(true) <==> Embeds(tooling, call) && world.lookup == EmbeddingFails(true))
  {
  }

  /** What the model is told. */
  lemma CallAnswers<J>(tooling: Tooling<J>, call: ToolCall<J>, world: World)
    requires ExecuteEffect(tooling, call, world).answer.Output?
    ensures var text := ExecuteEffect(tooling, call, world).answer.text;
            if Embeds(tooling, call) then
              var hits := world.lookup.hits;
              text == if hits == [] then "No matching content found in the documents." else tooling.dumps(hits)
            else if call.name == "search_documents" then
              text == if tooling.retrieval then "Empty query." else "Document search is not configured."
            else if call.name == "get_workspace_stats" then Some(text) == world.stats
            else text == "Unknown tool: " + call.name
  {
  }

  class AgentToolbox<!J> {
    const tooling: Tooling<J>
    const session: Session<Store<Reply>>
    var citations: seq<Citation>

    constructor (tooling: Tooling<J>, session: Session<Store<Reply>>)
      ensures citations == [] && this.tooling == tooling && this.session == session
    {
      this.tooling, this.session, citations := tooling, session, [];
    }

    method Execute(call: ToolCall<J>, world: World) returns (answer: Answer)
      modifies `citations, session
      ensures answer == ExecuteEffect(tooling, call, world).answer
      ensures citations == Cite(old(citations), ExecuteEffect(tooling, call, world).hits)
      ensures session.committed == old(session.committed)
      ensures session.working ==
              old(session.working).(rows := old(session.working.rows) + ExecuteEffect(tooling, call, world).rows)
    {
      if call.name == "search_documents" {
        answer := Search(tooling.queryOf(call.arguments), world.lookup);
      } else if call.name == "get_workspace_stats" {
        answer := if world.stats.Some? then Output(world.stats.value) else ToolRaises(false);
      } else {
        answer := Output("Unknown tool: " + call.name);
      }
    }

    method Search(query: string, lookup: Lookup) returns (answer: Answer)
      modifies `citations, session
      ensures answer == SearchEffect(tooling.retrieval, query, lookup, tooling.dumps).answer
      ensures citations == Cite(old(citations), SearchEffect(tooling.retrieval, query, lookup, tooling.dumps).hits)
      ensures session.committed == old(session.committed)
      ensures session.working == old(session.working).(rows := old(session.working.rows) +
                SearchEffect(tooling.retrieval, query, lookup, tooling.dumps).rows)
    {
      if !tooling.retrieval {
        return Output("Document search is not configured.");
      }
      if query == "" {
        return Output("Empty query.");
      }
      if lookup.EmbeddingFails? {
        return ToolRaises(lookup.llm);
      }
      Record(session, EmbeddingRow(lookup.model, lookup.tokens), false);
      if lookup.SearchFails? {
        return ToolRaises(false);
      }
      AddCitations(lookup.hits);
      if lookup.hits == [] {
        return Output("No matching content found in the documents.");
      }
      return Output(tooling.dumps(lookup.hits));
    }

    method AddCitations(hits: seq<Citation>)
      modifies `citations
      ensures citations == Cite(old(citations), hits)
    {
      var i := 0;
      while i < |hits|
        invariant 0 <= i <= |hits|
        invariant citations == Cite(old(citations), hits[..i])
      {
        assert hits[..i + 1][..i] == hits[..i];
        if hits[i].score >= CITATION_MIN_SCORE && !Cites(citations, hits[i]) {
          citations := citations + [hits[i]];
        }
        i := i + 1;
      }
      assert hits[..i] == hits;
    }
  }
}
