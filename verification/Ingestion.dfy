/**
 Ingesting a document as a transaction machine: a session with working and committed state, a
 pipeline that may fail at every step, and runs that are retried.
 */
module Ingestion {
  import opened Prelude
  import opened StreamAssembly
  import opened UsageRows
  import opened Database
  import C = Chunking

  const BATCH := 100

  type Embedding = seq<real>

  datatype Status = Uploaded | Processing | Ready | Failed

  datatype Document = Document(status: Status, error: Option<string>, metadata: Option<string>)

  datatype ChunkRow = ChunkRow(document: int, page: Option<int>, position: nat, content: string, embedding: Embedding)

  /** One document, the chunk rows of all documents, the usage rows. */
  datatype Db = Db(doc: Option<Document>, rows: seq<ChunkRow>, usage: seq<Row>)

  /** What embedding one batch comes to: the provider raises; it answers but recording its usage raises; it
      answers with so many vectors. */
  datatype BatchFate =
    | EmbedFails(error: string)
    | RecordFails(error: string, model: string, tokens: int)
    | Embedded(vectors: seq<Embedding>, model: string, tokens: int)

  /** Metadata extraction: not configured; the provider raises; it answers, with or without usable JSON; it
      answers, but flushing the usage row raises. That error is swallowed, and raised again by the commit. */
  datatype MetadataFate =
    | NotConfigured
    | ProviderRaises
    | Answers(model: string, usage: Usage, metadata: Option<string>)
    | FlushFails(error: string)

  /** One run: the pages, or the error of loading or parsing; whether deleting the old chunks raises;
      the fate of each batch; metadata. */
  datatype Run = Run(
    pages: Option<seq<C.Page>>, loadError: string, deleteError: Option<string>, batches: nat -> BatchFate, metadata: MetadataFate)

  function ChunksOf(run: Run): seq<C.Chunk> {
    if run.pages.None? then [] else C.Rendered(C.Expected(C.DEFAULT, run.pages.value))
  }

  function BatchEnd(n: nat, start: nat): nat {
    if start + BATCH < n then start + BATCH else n
  }

  // What a run does, without states.

  /** Why the batches from `start` on fail, if they do. */
  function BatchError(n: nat, start: nat, batches: nat -> BatchFate): Option<string>
    decreases n - start
  {
    if start >= n then None
    else
      match batches(start / BATCH)
      case EmbedFails(e) => Some(e)
      case RecordFails(e, _, _) => Some(e)
      case Embedded(vs, _, _) =>
        if |vs| != BatchEnd(n, start) - start then Some("zip") else BatchError(n, start + BATCH, batches)
  }

  function RunError(run: Run): Option<string> {
    if run.pages.None? then Some(run.loadError)
    else if ChunksOf(run) == [] then Some("No text content found in the document")
    else if run.deleteError.Some? then run.deleteError
    else
      match BatchError(|ChunksOf(run)|, 0, run.batches)
      case Some(e) => Some(e)
      case None => if run.metadata.FlushFails? then Some(run.metadata.error) else None
  }

  predicate Succeeds(run: Run) {
    RunError(run).None?
  }

  predicate VectorFor(batches: nat -> BatchFate, i: nat) {
    batches(i / BATCH).Embedded? && i % BATCH < |batches(i / BATCH).vectors|
  }

  /** The i-th chunk with the i % 100-th vector of batch i / 100. */
  function RowAt(doc: int, chunks: seq<C.Chunk>, batches: nat -> BatchFate, i: nat): ChunkRow
    requires i < |chunks| && VectorFor(batches, i)
  {
    var c := chunks[i];
    ChunkRow(doc, c.page, c.position, c.content, batches(i / BATCH).vectors[i % BATCH])
  }

  lemma {:induction false} EveryChunkHasItsVector(n: nat, start: nat, batches: nat -> BatchFate, i: nat)
    requires BatchError(n, start, batches).None? && start % BATCH == 0 && start <= i < n
    ensures VectorFor(batches, i)
    decreases n - start
  {
    if i < start + BATCH {
      assert i / BATCH == start / BATCH && i % BATCH == i - start;
    } else {
      EveryChunkHasItsVector(n, start + BATCH, batches, i);
    }
  }

  /** The rows that the batches of a run add, if none fails. */
  function NewRows(doc: int, run: Run): (rows: seq<ChunkRow>)
    requires BatchError(|ChunksOf(run)|, 0, run.batches).None?
    ensures |rows| == |ChunksOf(run)|
    ensures forall i :: 0 <= i < |rows| ==> VectorFor(run.batches, i) && rows[i] == RowAt(doc, ChunksOf(run), run.batches, i)
  {
    forall i: nat | i < |ChunksOf(run)| ensures VectorFor(run.batches, i) {
      EveryChunkHasItsVector(|ChunksOf(run)|, 0, run.batches, i);
    }
    seq(|ChunksOf(run)|, i requires 0 <= i < |ChunksOf(run)| => RowAt(doc, ChunksOf(run), run.batches, i))
  }

  /** Usage of the embedding calls that the provider answered, and billed. */
  function Paid(n: nat, start: nat, batches: nat -> BatchFate): seq<Row>
    decreases n - start
  {
    if start >= n then []
    else
      match batches(start / BATCH)
      case EmbedFails(_) => []
      case RecordFails(_, m, t) => [EmbeddingRow(m, t)]
      case Embedded(vs, m, t) =>
        [EmbeddingRow(m, t)] + if |vs| != BatchEnd(n, start) - start then [] else Paid(n, start + BATCH, batches)
  }

  function PaidBy(run: Run): seq<Row> {
    if run.pages.None? || run.deleteError.Some? then [] else Paid(|ChunksOf(run)|, 0, run.batches)
  }

  function Others(rows: seq<ChunkRow>, doc: int): seq<ChunkRow> {
    if rows == [] then []
    else if rows[|rows| - 1].document != doc then Others(rows[..|rows| - 1], doc) + [rows[|rows| - 1]]
    else Others(rows[..|rows| - 1], doc)
  }

  function RowsOf(rows: seq<ChunkRow>, doc: int): seq<ChunkRow> {
    if rows == [] then []
    else if rows[|rows| - 1].document == doc then RowsOf(rows[..|rows| - 1], doc) + [rows[|rows| - 1]]
    else RowsOf(rows[..|rows| - 1], doc)
  }

  function WithStatus(db: Db, status: Status, error: Option<string>): Db
    requires db.doc.Some?
  {
    db.(doc := Some(db.doc.value.(status := status, error := error)))
  }

  /** What metadata extraction leaves in a run that stores its rows. */
  datatype Extraction = NoExtraction | FailedExtraction | Extracted(row: Row, metadata: Option<string>)

  const FAILED_EXTRACTION := Row("extraction", UNKNOWN, Error, NO_USAGE)

  /** What the pipeline of a run comes to: it raises, or it stores rows and records usage. */
  datatype Result = Raises(error: string) | Stores(rows: seq<ChunkRow>, paid: seq<Row>, extraction: Extraction)

  function ExtractionOf(fate: MetadataFate): Extraction
    requires !fate.FlushFails?
  {
    match fate
    case NotConfigured => NoExtraction
    case ProviderRaises => FailedExtraction
    case Answers(model, usage, metadata) => Extracted(Row("extraction", model, Ok, usage), metadata)
  }

  function ResultOf(doc: int, run: Run): Result {
    match RunError(run)
    case Some(e) => Raises(e)
    case None => Stores(NewRows(doc, run), PaidBy(run), ExtractionOf(run.metadata))
  }

  /** Every state that a run commits, in order. */
  function Commits(doc: int, db: Db, r: Result): seq<Db> {
    if db.doc.None? then []
    else
      var started := WithStatus(db, Processing, None);
      match r
      case Raises(e) => [started, WithStatus(started, Failed, Some(e))]
      case Stores(rows, paid, extraction) => [started] + Finish(Stored(doc, started, rows, paid), extraction)
  }

  function Stored(doc: int, db: Db, rows: seq<ChunkRow>, paid: seq<Row>): Db {
    db.(rows := Others(db.rows, doc) + rows, usage := db.usage + paid)
  }

  /** The states committed once the chunks are stored: the last one, and before it what a failed extraction commits. */
  function Finish(db: Db, extraction: Extraction): (states: seq<Db>)
    requires db.doc.Some?
  {
    match extraction
    case NoExtraction => [WithStatus(db, Ready, db.doc.value.error)]
    case FailedExtraction =>
      var failed := db.(usage := db.usage + [FAILED_EXTRACTION]);
      [failed, WithStatus(failed, Ready, db.doc.value.error)]
    case Extracted(row, metadata) =>
      [WithStatus(WithMetadata(db.(usage := db.usage + [row]), metadata), Ready, db.doc.value.error)]
  }

  function WithMetadata(db: Db, metadata: Option<string>): Db
    requires db.doc.Some?
  {
    if metadata.Some? then db.(doc := Some(db.doc.value.(metadata := metadata))) else db
  }

  function Final(doc: int, db: Db, r: Result): Db {
    var states := Commits(doc, db, r);
    if states == [] then db else states[|states| - 1]
  }

  // The code that drives the session.

  method DeleteForDocument(session: Session<Db>, doc: int)
    modifies session`working
    ensures session.working == old(session.working).(rows := Others(old(session.working.rows), doc))
  {
    session.working := session.working.(rows := Others(session.working.rows, doc));
  }

  /** After the rows before come those of the chunks from start to stop, each with its vector. */
  ghost predicate Added(doc: int, chunks: seq<C.Chunk>, start: nat, stop: nat, vectors: seq<Embedding>, before: seq<ChunkRow>,
                        rows: seq<ChunkRow>)
    requires start <= stop <= |chunks| && |vectors| == stop - start
  {
    && |rows| == |before| + stop - start && before <= rows
    && forall i :: start <= i < stop ==>
         rows[|before| + i - start] == ChunkRow(doc, chunks[i].page, chunks[i].position, chunks[i].content, vectors[i - start])
  }

  /** `zip(batch, result.embeddings, strict=True)`: the pairs are added before a difference in length raises. */
  method AddBatch(session: Session<Db>, doc: int, chunks: seq<C.Chunk>, start: nat, stop: nat, vectors: seq<Embedding>)
    returns (ok: bool)
    requires start <= stop <= |chunks|
    modifies session`working
    ensures ok <==> |vectors| == stop - start
    ensures session.working == old(session.working).(rows := session.working.rows)
    ensures ok ==> Added(doc, chunks, start, stop, vectors, old(session.working.rows), session.working.rows)
  {
    ghost var before := session.working.rows;
    var i := start;
    while i < stop && i - start < |vectors|
      invariant start <= i <= stop && i - start <= |vectors|
      invariant session.working == old(session.working).(rows := session.working.rows)
      invariant |session.working.rows| == |before| + i - start && before <= session.working.rows
      invariant forall j :: start <= j < i ==>
                  session.working.rows[|before| + j - start] ==
                  ChunkRow(doc, chunks[j].page, chunks[j].position, chunks[j].content, vectors[j - start])
    {
      var c := chunks[i];
      session.working := session.working.(rows := session.working.rows +
        [ChunkRow(doc, c.page, c.position, c.content, vectors[i - start])]);
      i := i + 1;
    }
    ok := i == stop && |vectors| == stop - start;
  }

  /** The state after the batches before `start`, and what has been paid for them. */
  ghost predicate StoredSoFar(doc: int, run: Run, base: Db, start: nat, now: Db)
  {
    var chunks := ChunksOf(run);
    && now == base.(rows := now.rows, usage := now.usage)
    && start % BATCH == 0
    && |now.rows| == |base.rows| + (if start < |chunks| then start else |chunks|)
    && base.rows <= now.rows
    && (forall i :: 0 <= i < |now.rows| - |base.rows| ==>
          VectorFor(run.batches, i) && now.rows[|base.rows| + i] == RowAt(doc, chunks, run.batches, i))
    && now.usage + Paid(|chunks|, start, run.batches) == base.usage + Paid(|chunks|, 0, run.batches)
    && BatchError(|chunks|, start, run.batches) == BatchError(|chunks|, 0, run.batches)
  }

  function BatchRow(fate: BatchFate): Row
    requires fate.Embedded?
  {
    EmbeddingRow(fate.model, fate.tokens)
  }

  lemma EmbeddedStep(doc: int, run: Run, base: Db, start: nat, before: Db, now: Db)
    requires StoredSoFar(doc, run, base, start, before) && start < |ChunksOf(run)|
    requires run.batches(start / BATCH).Embedded?
    requires var vs := run.batches(start / BATCH).vectors;
             var stop := BatchEnd(|ChunksOf(run)|, start);
             && |vs| == stop - start
             && now == before.(rows := now.rows, usage := before.usage + [BatchRow(run.batches(start / BATCH))])
             && Added(doc, ChunksOf(run), start, stop, vs, before.rows, now.rows)
    ensures StoredSoFar(doc, run, base, start + BATCH, now)
  {
    var chunks := ChunksOf(run);
    var n := |base.rows|;
    forall i | 0 <= i < |now.rows| - n
      ensures VectorFor(run.batches, i) && now.rows[n + i] == RowAt(doc, chunks, run.batches, i)
    {
      if i < start {
        assert now.rows[n + i] == before.rows[n + i];
      } else {
        assert i / BATCH == start / BATCH && i % BATCH == i - start;
      }
    }
    Assoc(before.usage, [BatchRow(run.batches(start / BATCH))], Paid(|chunks|, start + BATCH, run.batches));
  }

  /** The batch loop of `_run_pipeline`. */
  method EmbedAll(session: Session<Db>, doc: int, run: Run, chunks: seq<C.Chunk>) returns (error: Option<string>)
    requires run.pages.Some? && run.deleteError.None? && chunks == ChunksOf(run) != []
    modifies session`working
    ensures error == BatchError(|chunks|, 0, run.batches)
    ensures error.None? ==>
              var w := old(session.working);
              session.working == w.(rows := w.rows + NewRows(doc, run), usage := w.usage + PaidBy(run))
  {
    ghost var base := session.working;
    var start := 0;
    while start < |chunks|
      invariant StoredSoFar(doc, run, base, start, session.working)
    {
      ghost var before := session.working;
      var stop := BatchEnd(|chunks|, start);
      assert BatchError(|chunks|, 0, run.batches) == BatchError(|chunks|, start, run.batches);
      match run.batches(start / BATCH) {
        case EmbedFails(e) => return Some(e);
        case RecordFails(e, _, _) => return Some(e);
        case Embedded(vectors, model, tokens) =>
          session.working := session.working.(usage := session.working.usage + [EmbeddingRow(model, tokens)]);
          var ok := AddBatch(session, doc, chunks, start, stop, vectors);
          if !ok {
            return Some("zip");
          }
          EmbeddedStep(doc, run, base, start, before, session.working);
      }
      start := start + BATCH;
    }
    AllStored(doc, run, base, start, session.working);
    return None;
  }

  /** `_run_pipeline`: Some(e) stands for raising e. */
  method RunPipeline(session: Session<Db>, doc: int, run: Run) returns (error: Option<string>)
    requires session.working.doc.Some? && session.working == session.committed
    requires session.working == WithStatus(session.working, Processing, None)
    modifies session
    ensures error == RunError(run)
    ensures error.Some? ==> session.committed == old(session.committed) && session.trail == old(session.trail)
    ensures error.None? ==>
              && session.trail == old(session.trail) + Commits(doc, old(session.committed), ResultOf(doc, run))[1..]
              && session.committed == session.working == session.trail[|session.trail| - 1]
  {
    if run.pages.None? {
      return Some(run.loadError);
    }
    var chunks := C.ChunkPages(C.DEFAULT, run.pages.value);
    if chunks == [] {
      return Some("No text content found in the document");
    }
    if run.deleteError.Some? {
      return run.deleteError;
    }
    DeleteForDocument(session, doc);
    error := EmbedAll(session, doc, run, chunks);
    if error.Some? {
      return;
    }
    var flushError: Option<string> := None;
    if run.metadata != NotConfigured {
      flushError := ExtractMetadata(session, run.metadata);
    }
    session.working := session.working.(doc := Some(session.working.doc.value.(status := Ready)));
    if flushError.Some? {
      return flushError;
    }
    session.Commit();
    return None;
  }

  lemma AllStored(doc: int, run: Run, base: Db, start: nat, now: Db)
    requires run.pages.Some? && ChunksOf(run) != [] && run.deleteError.None?
    requires StoredSoFar(doc, run, base, start, now) && start >= |ChunksOf(run)|
    ensures BatchError(|ChunksOf(run)|, 0, run.batches).None?
    ensures now == base.(rows := base.rows + NewRows(doc, run), usage := base.usage + PaidBy(run))
  {
    assert now.rows == base.rows + NewRows(doc, run);
    assert now.usage + [] == now.usage;
  }

  /** `_extract_metadata`, which never raises. When the provider does, the usage row is committed at once, and with it
      everything that the run has done so far. When the row of a successful call cannot be flushed, the session is
      broken, and its next commit raises the error returned here. */
  method ExtractMetadata(session: Session<Db>, fate: MetadataFate) returns (flushError: Option<string>)
    requires session.working.doc.Some? && fate != NotConfigured
    modifies session
    ensures flushError == if fate.FlushFails? then Some(fate.error) else None
    ensures fate.ProviderRaises? ==>
              && session.working == old(session.working).(usage := old(session.working).usage + [FAILED_EXTRACTION])
              && session.committed == session.working && session.trail == old(session.trail) + [session.working]
    ensures !fate.ProviderRaises? ==> session.committed == old(session.committed) && session.trail == old(session.trail)
    ensures fate.FlushFails? ==> session.working == old(session.working)
    ensures fate.Answers? ==>
              var w := old(session.working);
              session.working ==
              WithMetadata(w.(usage := w.usage + [Row("extraction", fate.model, Ok, fate.usage)]), fate.metadata)
  {
    flushError := None;
    match fate {
      case ProviderRaises =>
        session.working := session.working.(usage := session.working.usage + [FAILED_EXTRACTION]);
        session.Commit();
      case FlushFails(error) =>
        flushError := Some(error);
      case Answers(model, usage, metadata) =>
        session.working := session.working.(usage := session.working.usage + [Row("extraction", model, Ok, usage)]);
        if metadata.Some? {
          session.working := session.working.(doc := Some(session.working.doc.value.(metadata := metadata)));
        }
    }
  }

  lemma CommitsHead(doc: int, db: Db, r: Result)
    requires db.doc.Some?
    ensures var started := WithStatus(db, Processing, None);
            Commits(doc, db, r) == [started] + Commits(doc, started, r)[1..]
  {
    var started := WithStatus(db, Processing, None);
    assert WithStatus(started, Processing, None) == started;
    assert Commits(doc, db, r)[0] == started;
  }

  /** `ingest_document`: true stands for returning, false for raising. */
  method IngestDocument(session: Session<Db>, doc: int, run: Run) returns (ok: bool)
    requires session.working == session.committed
    modifies session
    ensures session.trail == old(session.trail) + Commits(doc, old(session.committed), ResultOf(doc, run))
    ensures session.working == session.committed
    ensures session.committed == Final(doc, old(session.committed), ResultOf(doc, run))
    ensures ok <==> old(session.committed).doc.None? || Succeeds(run)
  {
    if session.working.doc.None? {
      return true;
    }
    CommitsHead(doc, session.committed, ResultOf(doc, run));
    session.working := WithStatus(session.working, Processing, None);
    session.Commit();
    ghost var started := session.committed;
    var error := RunPipeline(session, doc, run);
    Assoc(old(session.trail), [started], Commits(doc, started, ResultOf(doc, run))[1..]);
    if error.Some? {
      session.Rollback();
      session.working := WithStatus(session.working, Failed, error);
      session.Commit();
      return false;
    }
    return true;
  }

  // What is committed, over all runs.

  lemma {:induction false} SplitRows(xs: seq<ChunkRow>, ys: seq<ChunkRow>, doc: int)
    ensures RowsOf(xs + ys, doc) == RowsOf(xs, doc) + RowsOf(ys, doc)
    ensures Others(xs + ys, doc) == Others(xs, doc) + Others(ys, doc)
  {
    if ys == [] {
      assert xs + ys == xs;
    } else {
      var n := |ys| - 1;
      SplitRows(xs, ys[..n], doc);
      assert (xs + ys)[..|xs| + n] == xs + ys[..n];
      Assoc(RowsOf(xs, doc), RowsOf(ys[..n], doc), [ys[n]]);
      Assoc(Others(xs, doc), Others(ys[..n], doc), [ys[n]]);
    }
  }

  lemma {:induction false} OthersHaveNone(rows: seq<ChunkRow>, doc: int)
    ensures RowsOf(Others(rows, doc), doc) == [] && Others(Others(rows, doc), doc) == Others(rows, doc)
  {
    if rows != [] {
      var n := |rows| - 1;
      OthersHaveNone(rows[..n], doc);
      if rows[n].document != doc {
        var kept := Others(rows[..n], doc);
        assert (kept + [rows[n]])[..|kept|] == kept;
      }
    }
  }

  lemma {:induction false} AllOwn(rows: seq<ChunkRow>, doc: int)
    requires forall i :: 0 <= i < |rows| ==> rows[i].document == doc
    ensures RowsOf(rows, doc) == rows && Others(rows, doc) == []
  {
    if rows != [] {
      AllOwn(rows[..|rows| - 1], doc);
    }
  }

  ghost predicate OwnRows(doc: int, r: Result) {
    r.Stores? ==> forall i :: 0 <= i < |r.rows| ==> r.rows[i].document == doc
  }

  /** Each state that a run commits. READY appears only as the last one of a successful run; a run that
      raises never touches the rows; delete-then-add leaves the document exactly the new rows; other
      documents' rows never change. */
  lemma CommittedState(doc: int, db: Db, r: Result, i: nat)
    requires db.doc.Some? && OwnRows(doc, r) && i < |Commits(doc, db, r)|
    ensures var d := Commits(doc, db, r)[i];
            && d.doc.Some?
            && (d.doc.value.status.Ready? <==> r.Stores? && i == |Commits(doc, db, r)| - 1)
            && RowsOf(d.rows, doc) == (if r.Stores? && i > 0 then r.rows else RowsOf(db.rows, doc))
            && Others(d.rows, doc) == Others(db.rows, doc)
  {
    if r.Stores? && i > 0 {
      StoredRows(doc, db.rows, r.rows);
      FinishKeepsRows(Stored(doc, WithStatus(db, Processing, None), r.rows, r.paid), r.extraction, i - 1);
    }
  }

  lemma StoredRows(doc: int, before: seq<ChunkRow>, rows: seq<ChunkRow>)
    requires forall i :: 0 <= i < |rows| ==> rows[i].document == doc
    ensures RowsOf(Others(before, doc) + rows, doc) == rows
    ensures Others(Others(before, doc) + rows, doc) == Others(before, doc)
  {
    SplitRows(Others(before, doc), rows, doc);
    OthersHaveNone(before, doc);
    AllOwn(rows, doc);
  }

  lemma FinishKeepsRows(db: Db, extraction: Extraction, i: nat)
    requires db.doc.Some? && !db.doc.value.status.Ready? && i < |Finish(db, extraction)|
    ensures var d := Finish(db, extraction)[i];
            && d.rows == db.rows && d.doc.Some?
            && (d.doc.value.status.Ready? <==> i == |Finish(db, extraction)| - 1)
  {
  }

  lemma NewRowsAreOwn(doc: int, run: Run)
    ensures OwnRows(doc, ResultOf(doc, run))
  {
  }

  /** A run, and how many of its commits it gets to before its process is killed; what it has not committed is lost. */
  datatype Try = Try(run: Run, commits: nat)

  function Reached(doc: int, db: Db, r: Result, commits: nat): Db {
    var states := Commits(doc, db, r);
    if commits == 0 || states == [] then db
    else if commits < |states| then states[commits - 1]
    else states[|states| - 1]
  }

  function AfterTries(doc: int, db: Db, tries: seq<Try>): Db {
    if tries == [] then db
    else
      var n := |tries| - 1;
      Reached(doc, AfterTries(doc, db, tries[..n]), ResultOf(doc, tries[n].run), tries[n].commits)
  }

  /** The rows of the last run that got to commit its rows, or those there were before. */
  function LastGood(doc: int, before: seq<ChunkRow>, tries: seq<Try>): seq<ChunkRow> {
    if tries == [] then before
    else
      var n := |tries| - 1;
      match ResultOf(doc, tries[n].run)
      case Stores(rows, _, _) => if tries[n].commits >= 2 then rows else LastGood(doc, before, tries[..n])
      case Raises(_) => LastGood(doc, before, tries[..n])
  }

  /** READY is the mark of a run that got to all its commits, and lasts until the next one starts. */
  function MarkedReady(doc: int, before: bool, tries: seq<Try>): bool {
    if tries == [] then before
    else
      var n := |tries| - 1;
      var r := ResultOf(doc, tries[n].run);
      if tries[n].commits == 0 then MarkedReady(doc, before, tries[..n])
      else r.Stores? && tries[n].commits >= if r.extraction.FailedExtraction? then 3 else 2
  }

  predicate IsReady(db: Db) {
    db.doc.Some? && db.doc.value.status.Ready?
  }

  /** Atomicity and idempotence over any sequence of runs, each of which may fail at any step or be killed between any
      two commits: the document's rows are those of the last run that committed its rows, all of them; a failed
      or killed run leaves what there was and a repeated one replaces it. */
  lemma {:induction false} RowsAfterTries(doc: int, db: Db, tries: seq<Try>)
    requires db.doc.Some?
    ensures var d := AfterTries(doc, db, tries);
            && d.doc.Some?
            && RowsOf(d.rows, doc) == LastGood(doc, RowsOf(db.rows, doc), tries)
            && Others(d.rows, doc) == Others(db.rows, doc)
            && (IsReady(d) <==> MarkedReady(doc, IsReady(db), tries))
  {
    if tries != [] {
      var n := |tries| - 1;
      RowsAfterTries(doc, db, tries[..n]);
      NewRowsAreOwn(doc, tries[n].run);
      ReachedState(doc, AfterTries(doc, db, tries[..n]), ResultOf(doc, tries[n].run), tries[n].commits);
    }
  }

  lemma ReachedState(doc: int, db: Db, r: Result, commits: nat)
    requires db.doc.Some? && OwnRows(doc, r)
    ensures var d := Reached(doc, db, r, commits);
            && d.doc.Some?
            && (IsReady(d) <==>
                  if commits == 0 then IsReady(db)
                  else r.Stores? && commits >= if r.extraction.FailedExtraction? then 3 else 2)
            && RowsOf(d.rows, doc) == (if r.Stores? && commits >= 2 then r.rows else RowsOf(db.rows, doc))
            && Others(d.rows, doc) == Others(db.rows, doc)
  {
    if commits > 0 {
      var n := |Commits(doc, db, r)|;
      CommittedState(doc, db, r, if commits < n then commits - 1 else n - 1);
    }
  }

  /** Every state committed by a run after any others: if it says READY, its rows are exactly the run's
      chunks, each with its own vector (NewRows); otherwise they are the rows of the last run that committed
      rows before it, or already those of the run. */
  lemma EveryCommittedState(doc: int, db: Db, tries: seq<Try>, before: Db, run: Run, r: Result, i: nat)
    requires db.doc.Some? && before == AfterTries(doc, db, tries) && r == ResultOf(doc, run)
    requires i < |Commits(doc, before, r)|
    ensures var d := Commits(doc, before, r)[i];
            && d.doc.Some?
            && (IsReady(d) ==> r.Stores? && RowsOf(d.rows, doc) == r.rows)
            && (RowsOf(d.rows, doc) == LastGood(doc, RowsOf(db.rows, doc), tries) ||
                (r.Stores? && RowsOf(d.rows, doc) == r.rows))
  {
    RowsAfterTries(doc, db, tries);
    NewRowsAreOwn(doc, run);
    CommittedRows(doc, LastGood(doc, RowsOf(db.rows, doc), tries), before, r, i);
  }

  lemma CommittedRows(doc: int, good: seq<ChunkRow>, before: Db, r: Result, i: nat)
    requires before.doc.Some? && OwnRows(doc, r) && good == RowsOf(before.rows, doc)
    requires i < |Commits(doc, before, r)|
    ensures var d := Commits(doc, before, r)[i];
            && d.doc.Some?
            && (IsReady(d) ==> r.Stores? && RowsOf(d.rows, doc) == r.rows)
            && (RowsOf(d.rows, doc) == good || (r.Stores? && RowsOf(d.rows, doc) == r.rows))
  {
    CommittedState(doc, before, r, i);
  }

  // Why a run fails, and what the document then says.

  /** A batch of a hundred chunks, or of the rest, comes back with a vector for each. */
  ghost predicate BatchEmbedded(n: nat, batches: nat -> BatchFate, b: nat)
    requires 100 * b < n
  {
    batches(b).Embedded? && |batches(b).vectors| == if 100 * b + 100 < n then 100 else n - 100 * b
  }

  lemma {:induction false} BatchesFrom(n: nat, b: nat, batches: nat -> BatchFate)
    ensures BatchError(n, 100 * b, batches).None? <==>
            forall c: nat :: b <= c && 100 * c < n ==> BatchEmbedded(n, batches, c)
    decreases n - 100 * b
  {
    if 100 * b < n {
      assert (100 * b) / BATCH == b;
      BatchesFrom(n, b + 1, batches);
      if BatchError(n, 100 * b, batches).None? {
        forall c: nat | b <= c && 100 * c < n ensures BatchEmbedded(n, batches, c) {
          if c > b {
            assert b + 1 <= c;
          }
        }
      } else if BatchEmbedded(n, batches, b) {
        var c: nat :| b + 1 <= c && 100 * c < n && !BatchEmbedded(n, batches, c);
      }
    }
  }

  ghost predicate HasText(run: Run) {
    run.pages.Some? && exists i :: 0 <= i < |run.pages.value| && C.Words(run.pages.value[i].text) != []
  }

  lemma ChunksIffText(run: Run)
    ensures ChunksOf(run) != [] <==> HasText(run)
  {
    if run.pages.Some? {
      C.ChunksIffWords(C.DEFAULT, run.pages.value);
      assert |ChunksOf(run)| == |C.Expected(C.DEFAULT, run.pages.value)|;
    }
  }

  /** A run succeeds exactly if the document loads and has text, its old chunks can be deleted, every batch of a
      hundred chunks is embedded and recorded with one vector for each chunk, and the usage of the metadata call can
      be flushed. */
  lemma SucceedsIff(run: Run)
    ensures Succeeds(run) <==>
            && HasText(run) && run.deleteError.None? && !run.metadata.FlushFails?
            && (forall b: nat :: 100 * b < |ChunksOf(run)| ==> BatchEmbedded(|ChunksOf(run)|, run.batches, b))
  {
    ChunksIffText(run);
    BatchesFrom(|ChunksOf(run)|, 0, run.batches);
  }

  /** What the failure of a batch is called; the lengths differ where `zip` is strict. */
  ghost predicate FailsAs(fate: BatchFate, error: string) {
    match fate
    case EmbedFails(e) => error == e
    case RecordFails(e, _, _) => error == e
    case Embedded(_, _, _) => error == "zip"
  }

  /** The first batch that is not embedded is the one that is told, and it is paid for if the provider answered. */
  lemma {:induction false} FailsFrom(n: nat, b: nat, batches: nat -> BatchFate, first: nat)
    requires b <= first && 100 * first < n && !BatchEmbedded(n, batches, first)
    requires forall c: nat :: b <= c < first ==> BatchEmbedded(n, batches, c)
    ensures BatchError(n, 100 * b, batches).Some? && FailsAs(batches(first), BatchError(n, 100 * b, batches).value)
    ensures |Paid(n, 100 * b, batches)| == first - b + if batches(first).EmbedFails? then 0 else 1
    decreases first - b
  {
    assert (100 * b) / BATCH == b;
    if b < first {
      assert BatchEmbedded(n, batches, b);
      FailsFrom(n, b + 1, batches, first);
    }
  }

  /** Why a run fails before or after its batches. */
  lemma WhyItFails(run: Run)
    ensures run.pages.None? ==> RunError(run) == Some(run.loadError)
    ensures run.pages.Some? && !HasText(run) ==> RunError(run) == Some("No text content found in the document")
    ensures HasText(run) && run.deleteError.Some? ==> RunError(run) == run.deleteError
    ensures HasText(run) && run.deleteError.None? && EmbeddedUpTo(run, |ChunksOf(run)|) && run.metadata.FlushFails? ==>
              RunError(run) == Some(run.metadata.error)
  {
    ChunksIffText(run);
    BatchesFrom(|ChunksOf(run)|, 0, run.batches);
  }

  ghost predicate EmbeddedUpTo(run: Run, end: nat) {
    forall b: nat :: b < end && 100 * b < |ChunksOf(run)| ==> BatchEmbedded(|ChunksOf(run)|, run.batches, b)
  }

  /** Otherwise the first batch that is not embedded says why. */
  lemma FirstFailureIsTold(run: Run, first: nat)
    requires HasText(run) && run.deleteError.None? && EmbeddedUpTo(run, first)
    requires 100 * first < |ChunksOf(run)| && !BatchEmbedded(|ChunksOf(run)|, run.batches, first)
    ensures RunError(run).Some? && FailsAs(run.batches(first), RunError(run).value)
    ensures |PaidBy(run)| == first + if run.batches(first).EmbedFails? then 0 else 1
  {
    ChunksIffText(run);
    FailsFrom(|ChunksOf(run)|, 0, run.batches, first);
  }

  /** The i-th row that a run stores: the i-th chunk, with the vector i % 100 of batch i / 100. */
  lemma RowStored(doc: int, run: Run, i: nat)
    requires Succeeds(run) && i < |ChunksOf(run)|
    ensures var c, fate := ChunksOf(run)[i], run.batches(i / 100);
            && fate.Embedded? && i % 100 < |fate.vectors|
            && NewRows(doc, run)[i] == ChunkRow(doc, c.page, c.position, c.content, fate.vectors[i % 100])
  {
    EveryChunkHasItsVector(|ChunksOf(run)|, 0, run.batches, i);
  }

  /** The usage that a run records for its batches: a row each, in order, with the tokens that the provider counted. */
  lemma {:induction false} PaidFrom(n: nat, b: nat, batches: nat -> BatchFate, i: nat)
    requires BatchError(n, 100 * b, batches).None? && i < |Paid(n, 100 * b, batches)|
    ensures batches(b + i).Embedded? && 100 * (b + i) < n
    ensures Paid(n, 100 * b, batches)[i] ==
            Row("ingestion", batches(b + i).model, Ok, Usage(batches(b + i).tokens, 0, 0, 0))
    decreases n - 100 * b
  {
    assert (100 * b) / BATCH == b;
    if i > 0 {
      PaidFrom(n, b + 1, batches, i - 1);
    }
  }

  lemma {:induction false} PaidCount(n: nat, b: nat, batches: nat -> BatchFate)
    requires BatchError(n, 100 * b, batches).None?
    ensures var k := |Paid(n, 100 * b, batches)|; if n <= 100 * b then k == 0 else 100 * (b + k - 1) < n <= 100 * (b + k)
    decreases n - 100 * b
  {
    if 100 * b < n {
      assert (100 * b) / BATCH == b;
      PaidCount(n, b + 1, batches);
    }
  }

  /** The document after a run that got to so many commits. */
  function Marked(before: Document, t: Try): Document {
    var last := if t.run.metadata.ProviderRaises? then 3 else 2;
    if t.commits == 0 then before
    else
      match RunError(t.run)
      case Some(e) =>
        if t.commits == 1 then Document(Processing, None, before.metadata) else Document(Failed, Some(e), before.metadata)
      case None =>
        if t.commits < last then Document(Processing, None, before.metadata)
        else if t.run.metadata.Answers? && t.run.metadata.metadata.Some? then Document(Ready, None, t.run.metadata.metadata)
        else Document(Ready, None, before.metadata)
  }

  /** What a run makes of its document: PROCESSING without an error from its first commit on; at its last, FAILED
      with the error if it fails, and READY without one if it succeeds. The metadata changes only then, and only if
      the provider gave some. */
  lemma ReachedDocument(doc: int, db: Db, t: Try)
    requires db.doc.Some?
    ensures Reached(doc, db, ResultOf(doc, t.run), t.commits).doc == Some(Marked(db.doc.value, t))
  {
    if Succeeds(t.run) {
      ReachedStored(doc, db, t);
    }
  }

  lemma ReachedStored(doc: int, db: Db, t: Try)
    requires db.doc.Some? && Succeeds(t.run)
    ensures Reached(doc, db, ResultOf(doc, t.run), t.commits).doc == Some(Marked(db.doc.value, t))
  {
    StoredStates(doc, db, t.run);
  }

  lemma StoredStates(doc: int, db: Db, run: Run)
    requires db.doc.Some? && Succeeds(run)
    ensures var states := Commits(doc, db, ResultOf(doc, run));
            var kept := db.doc.value.metadata;
            && |states| == (if run.metadata.ProviderRaises? then 3 else 2)
            && (forall i :: 0 <= i < |states| - 1 ==> states[i].doc == Some(Document(Processing, None, kept)))
            && states[|states| - 1].doc == Some(Document(Ready, None,
                 if run.metadata.Answers? && run.metadata.metadata.Some? then run.metadata.metadata else kept))
  {
  }

  /** The last run that got to a commit. */
  function LastActive(tries: seq<Try>): Option<Try> {
    if tries == [] then None
    else if tries[|tries| - 1].commits > 0 then Some(tries[|tries| - 1])
    else LastActive(tries[..|tries| - 1])
  }

  lemma {:induction false} KeepsDocument(doc: int, db: Db, tries: seq<Try>)
    requires db.doc.Some?
    ensures var d := AfterTries(doc, db, tries).doc; d.Some? && SaysLast(db.doc.value, d.value, LastActive(tries))
  {
    if tries != [] {
      var n := |tries| - 1;
      KeepsDocument(doc, db, tries[..n]);
      ReachedDocument(doc, AfterTries(doc, db, tries[..n]), tries[n]);
    }
  }

  ghost predicate SaysLast(original: Document, d: Document, last: Option<Try>) {
    if last.None? then d == original
    else var m := Marked(d, last.value); d.status == m.status && d.error == m.error
  }

  /** Over any runs that fail anywhere or are killed between any two commits: the document is FAILED exactly if the
      last run that got to a commit fails and got to its second one, and then the error is that run's; READY exactly
      if that run succeeds and got to its last commit. */
  lemma StatusAfterTries(doc: int, db: Db, tries: seq<Try>)
    requires db.doc.Some? && LastActive(tries).Some?
    ensures var t, d := LastActive(tries).value, AfterTries(doc, db, tries);
            && d.doc.Some?
            && (d.doc.value.status.Failed? <==> !Succeeds(t.run) && t.commits >= 2)
            && (d.doc.value.status.Failed? ==> d.doc.value.error == RunError(t.run))
            && (d.doc.value.status.Ready? <==>
                  Succeeds(t.run) && t.commits >= if t.run.metadata.ProviderRaises? then 3 else 2)
            && (!d.doc.value.status.Failed? ==> d.doc.value.error == None)
            && (d.doc.value.status.Failed? || d.doc.value.status.Ready? || d.doc.value.status.Processing?)
  {
    KeepsDocument(doc, db, tries);
    LastActiveActs(tries);
  }

  lemma {:induction false} LastActiveActs(tries: seq<Try>)
    ensures LastActive(tries).Some? ==> LastActive(tries).value.commits > 0
  {
    if tries != [] {
      LastActiveActs(tries[..|tries| - 1]);
    }
  }

  // What is paid and what is kept.

  function ExtractionRows(e: Extraction): seq<Row> {
    match e
    case NoExtraction => []
    case FailedExtraction => [FAILED_EXTRACTION]
    case Extracted(row, _) => [row]
  }

  lemma UsageAfter(doc: int, db: Db, r: Result)
    requires db.doc.Some?
    ensures Final(doc, db, r).usage == if r.Stores? then db.usage + r.paid + ExtractionRows(r.extraction) else db.usage
  {
    if r.Stores? && r.extraction.NoExtraction? {
      assert db.usage + r.paid + [] == db.usage + r.paid;
    }
  }

  /** The rows in the usage table after a run that were not there before it. */
  function Recorded(doc: int, db: Db, run: Run): seq<Row>
    requires db.usage <= Final(doc, db, ResultOf(doc, run)).usage
  {
    Final(doc, db, ResultOf(doc, run)).usage[|db.usage|..]
  }

  lemma AfterPrefix<T>(xs: seq<T>, ys: seq<T>, zs: seq<T>)
    ensures (xs + ys + zs)[|xs|..] == ys + zs && ys <= ys + zs
  {
    Assoc(xs, ys, zs);
  }

  /** The repository's README (lines 188-190) says that usage rows survive failure. Here they do exactly if the run
      succeeds, or nothing was paid: the rows of earlier batches are only flushed, and a failing
      run rolls them back. */
  lemma PaidUsageSurvivesIff(doc: int, db: Db, run: Run)
    requires db.doc.Some?
    ensures db.usage <= Final(doc, db, ResultOf(doc, run)).usage
    ensures Succeeds(run) ==>
              Recorded(doc, db, run) == PaidBy(run) +
                match run.metadata
                case ProviderRaises => [Row("extraction", "unknown", Error, Usage(0, 0, 0, 0))]
                case Answers(model, usage, _) => [Row("extraction", model, Ok, usage)]
                case _ => []
    ensures !Succeeds(run) ==> Recorded(doc, db, run) == []
    ensures PaidBy(run) <= Recorded(doc, db, run) <==> Succeeds(run) || PaidBy(run) == []
  {
    var r := ResultOf(doc, run);
    UsageAfter(doc, db, r);
    if r.Stores? {
      AfterPrefix(db.usage, r.paid, ExtractionRows(r.extraction));
    }
  }

  /** A run whose second batch fails has paid for the first and keeps no row of it. */
  lemma PaidUsageLost(doc: int, db: Db, run: Run)
    requires db.doc.Some? && run.pages.Some? && run.deleteError.None? && |ChunksOf(run)| > BATCH
    requires run.batches(0).Embedded? && |run.batches(0).vectors| == BATCH && run.batches(1).EmbedFails?
    ensures PaidBy(run) == [BatchRow(run.batches(0))] && Final(doc, db, ResultOf(doc, run)).usage == db.usage
  {
    var n := |ChunksOf(run)|;
    assert Paid(n, BATCH, run.batches) == [] && BatchError(n, BATCH, run.batches) == Some(run.batches(1).error);
    UsageAfter(doc, db, ResultOf(doc, run));
  }
}
