/**
 One usage row per provider call: how rows are recorded, and the generator
 `tracked_stream` that wraps a provider's stream.
 */
module UsageTracking {
  import opened Prelude
  import opened StreamAssembly
  import opened UsageRows
  import opened Database

  const CHARS_PER_TOKEN := 4

  /** The row of a call whose usage never arrived. */
  function PartialRow(feature: string, streamed: seq<string>, status: CallStatus): Row {
    Row(feature, UNKNOWN, status, Usage(0, |Flatten(streamed)| / CHARS_PER_TOKEN, 0, 0))
  }

  /** What the transaction of a chat turn sees: usage rows and assistant replies (R). */
  datatype Store<R> = Store(rows: seq<Row>, replies: seq<R>)

  /** `_record`: the row is flushed, or the whole session is committed. */
  method Record<R>(session: Session<Store<R>>, row: Row, commit: bool)
    modifies session
    ensures session.working == old(session.working).(rows := old(session.working.rows) + [row])
    ensures session.committed == if commit then session.working else old(session.committed)
  {
    session.working := session.working.(rows := session.working.rows + [row]);
    if commit {
      session.Commit();
    }
  }

  /** How the provider's stream ends: with a StreamEnd, with an exception (an LLMError or another one), or just so. */
  datatype Ending<J> = Ends(model: string, completion: Completion<J>) | Fails(llm: bool) | Stops

  datatype Inner<J> = Inner(deltas: seq<string>, ending: Ending<J>)

  datatype Item<J> = TextDelta(text: string) | StreamEnd(completion: Completion<J>) | Exhausted | Raised(llm: bool)

  /** `tracked_stream` as the generator object: Next resumes it, Close throws GeneratorExit into it. */
  class TrackedStream<J, R> {
    const inner: Inner<J>
    const feature: string
    const session: Session<Store<R>>
    var pos: nat
    var streamedChars: nat
    var recorded: bool

    ghost predicate Valid()
      reads this
    {
      && pos <= |inner.deltas|
      && streamedChars == |Flatten(inner.deltas[..pos])|
      && (recorded ==> pos == |inner.deltas| && inner.ending.Ends?)
    }

    /** The row of a call that is cut short here. */
    ghost function Partial(status: CallStatus): Row
      reads this
      requires pos <= |inner.deltas|
    {
      PartialRow(feature, inner.deltas[..pos], status)
    }

    constructor (inner: Inner<J>, feature: string, session: Session<Store<R>>)
      ensures Valid() && pos == 0 && !recorded
      ensures this.inner == inner && this.feature == feature && this.session == session
    {
      this.inner, this.feature, this.session := inner, feature, session;
      pos, streamedChars, recorded := 0, 0, false;
    }

    method Next() returns (item: Item<J>)
      requires Valid()
      modifies this, session
      ensures Valid()
      ensures old(pos) < |inner.deltas| ==>
                && item == TextDelta(inner.deltas[old(pos)]) && pos == old(pos) + 1 && recorded == old(recorded)
                && session.working == old(session.working) && session.committed == old(session.committed)
      ensures old(pos) == |inner.deltas| ==>
                && pos == old(pos)
                && item == (match inner.ending
                            case Ends(_, completion) => if old(recorded) then Exhausted else StreamEnd(completion)
                            case Fails(llm) => Raised(llm)
                            case Stops => Exhausted)
                && (recorded <==> inner.ending.Ends?)
                && session.committed == (if inner.ending.Fails? then session.working else old(session.committed))
                && session.working ==
                   old(session.working).(rows := old(session.working.rows) + EndRow(feature, inner, old(recorded)))
    {
      if pos < |inner.deltas| {
        var text := inner.deltas[pos];
        FlattenSnoc(inner.deltas[..pos], text);
        assert inner.deltas[..pos] + [text] == inner.deltas[..pos + 1];
        streamedChars := streamedChars + |text|;
        pos := pos + 1;
        return TextDelta(text);
      }
      assert inner.deltas[..pos] == inner.deltas;
      match inner.ending {
        case Ends(model, completion) =>
          if recorded {
            return Exhausted;
          }
          Record(session, Row(feature, model, Ok, completion.usage), false);
          recorded := true;
          return StreamEnd(completion);
        case Fails(llm) =>
          RecordPartial(Error);
          return Raised(llm);
        case Stops =>
          return Exhausted;
      }
    }

    method Close()
      requires Valid()
      modifies session
      ensures !recorded ==>
                && session.committed == session.working
                && session.working ==
                   old(session.working).(rows := old(session.working.rows) + [Partial(Disconnected)])
      ensures recorded ==> session.working == old(session.working) && session.committed == old(session.committed)
    {
      if !recorded {
        RecordPartial(Disconnected);
      }
    }

    method RecordPartial(status: CallStatus)
      requires Valid()
      modifies session
      ensures session.working ==
              old(session.working).(rows := old(session.working.rows) + [Partial(status)])
      ensures session.committed == session.working
    {
      var estimated := Usage(0, streamedChars / CHARS_PER_TOKEN, 0, 0);
      Record(session, Row(feature, UNKNOWN, status, estimated), true);
    }
  }

  /** The row, if any, written at the end of the inner stream. */
  function EndRow<J>(feature: string, inner: Inner<J>, recorded: bool): seq<Row> {
    match inner.ending
    case Ends(model, completion) => if recorded then [] else [Row(feature, model, Ok, completion.usage)]
    case Fails(_) => [PartialRow(feature, inner.deltas, Error)]
    case Stops => []
  }

  // A consumer that takes the stream to its end, or closes it at a delta.

  /** The stream's consumer: it resumes the generator at the first `left` yields, and closes it at the next one. */
  datatype StreamResult<J> = Completed(completion: Completion<J>) | Broke(llm: bool) | Stopped | Left

  function ResultWithin<J>(inner: Inner<J>, left: nat): StreamResult<J> {
    if left < |inner.deltas| then Left
    else
      match inner.ending
      case Ends(_, completion) => Completed(completion)
      case Fails(llm) => Broke(llm)
      case Stops => Stopped
  }

  function TakenWithin<J>(inner: Inner<J>, left: nat): seq<string> {
    if left < |inner.deltas| then inner.deltas[..left + 1] else inner.deltas
  }

  function RowsWithin<J>(feature: string, inner: Inner<J>, left: nat): seq<Row> {
    if left < |inner.deltas| then [PartialRow(feature, inner.deltas[..left + 1], Disconnected)]
    else EndRow(feature, inner, false)
  }

  /** A stream that ends with a StreamEnd or an error leaves exactly one row wherever its consumer
      stops: the reported usage if it got so far, and otherwise a quarter of the characters taken. */
  lemma OneRowPerStream<J>(feature: string, inner: Inner<J>, left: nat)
    ensures var rows := RowsWithin(feature, inner, left);
            && (|rows| == 1 <==> !ResultWithin(inner, left).Stopped?)
            && (ResultWithin(inner, left).Completed? ==>
                  rows[0].status == Ok && rows[0].usage == ResultWithin(inner, left).completion.usage)
            && (ResultWithin(inner, left).Left? || ResultWithin(inner, left).Broke? ==>
                  rows[0].status != Ok && rows[0].usage == Usage(0, |Flatten(TakenWithin(inner, left))| / 4, 0, 0))
  {
  }
}
