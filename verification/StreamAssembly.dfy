/**
 Reading a completion from the OpenAI chat API, whole (`complete`) and streamed (`stream`). The
 streamed form reassembles text and tool calls from deltas keyed by the call's index.
 JSON values are the parameter type J, and `loads` is what json.loads makes of a text.
 */
module StreamAssembly {
  import opened Prelude

  datatype Usage = Usage(input: int, output: int, cacheRead: int, cacheWrite: int)

  const NO_USAGE := Usage(0, 0, 0, 0)

  /** The `usage` object on the wire; absent entries read as 0. */
  datatype WireUsage = WireUsage(prompt: int, completion: int, cached: int)

  function MapUsage(u: WireUsage): Usage {
    Usage(u.prompt - u.cached, u.completion, u.cached, 0)
  }

  function FinishReason(wire: string): string {
    match wire
    case "stop" => "end_turn"
    case "tool_calls" => "tool_use"
    case "length" => "max_tokens"
    case "content_filter" => "refusal"
    case _ => "end_turn"
  }

  datatype ToolCall<J> = ToolCall(id: string, name: string, arguments: J)

  /** The model's name is left out: `complete` reads it from the response, `stream` does not. */
  datatype Completion<J> = Completion(text: string, stopReason: string, usage: Usage, toolCalls: seq<ToolCall<J>>)

  function ParseArguments<J>(text: string, loads: string -> J): J {
    loads(if text == "" then "{}" else text)
  }

  // The whole response.

  datatype WireCall = WireCall(id: string, name: string, arguments: string)

  datatype Response = Response(
    content: Option<string>, toolCalls: seq<WireCall>, finish: Option<string>, usage: Option<WireUsage>)

  function Calls<J>(calls: seq<WireCall>, loads: string -> J): (r: seq<ToolCall<J>>)
    ensures |r| == |calls|
    ensures forall i :: 0 <= i < |r| ==> r[i] == ToolCall(calls[i].id, calls[i].name, ParseArguments(calls[i].arguments, loads))
  {
    seq(|calls|, i requires 0 <= i < |calls| => ToolCall(calls[i].id, calls[i].name, ParseArguments(calls[i].arguments, loads)))
  }

  function Or<T>(o: Option<T>, default: T): T {
    if o.Some? then o.value else default
  }

  function Complete<J>(r: Response, loads: string -> J): Completion<J> {
    Completion(Or(r.content, ""), FinishReason(Or(r.finish, "")),
               if r.usage.Some? then MapUsage(r.usage.value) else NO_USAGE,
               Calls(r.toolCalls, loads))
  }

  // The streamed response.

  datatype CallDelta = CallDelta(index: int, id: Option<string>, name: Option<string>, arguments: Option<string>)

  datatype Choice = Choice(content: Option<string>, calls: seq<CallDelta>, finish: Option<string>)

  datatype Chunk = Chunk(usage: Option<WireUsage>, choice: Option<Choice>)

  /** A line of the body: `data: [DONE]`, a chunk, or anything else. */
  datatype Line = Done | Data(chunk: Chunk) | Other

  /** A slot of the accumulator: id, name and arguments so far. */
  type Slot = WireCall

  const EMPTY_SLOT := WireCall("", "", "")

  function Merge(slot: Slot, d: CallDelta): Slot {
    WireCall(if Or(d.id, "") != "" then d.id.value else slot.id,
             slot.name + Or(d.name, ""),
             slot.arguments + Or(d.arguments, ""))
  }

  /** The chunks that are read: those before the first `[DONE]`. */
  function Chunks(lines: seq<Line>): seq<Chunk> {
    if lines == [] || lines[0].Done? then []
    else if lines[0].Data? then [lines[0].chunk] + Chunks(lines[1..])
    else Chunks(lines[1..])
  }

  function Content(c: Chunk): string {
    if c.choice.Some? then Or(c.choice.value.content, "") else ""
  }

  function Deltas(c: Chunk): seq<CallDelta> {
    if c.choice.Some? then c.choice.value.calls else []
  }

  function Finish(c: Chunk): string {
    if c.choice.Some? then Or(c.choice.value.finish, "") else ""
  }

  function AllContent(cs: seq<Chunk>): string {
    if cs == [] then "" else AllContent(cs[..|cs| - 1]) + Content(cs[|cs| - 1])
  }

  function AllDeltas(cs: seq<Chunk>): seq<CallDelta> {
    if cs == [] then [] else AllDeltas(cs[..|cs| - 1]) + Deltas(cs[|cs| - 1])
  }

  /** The last finish reason that is not empty, and the last usage. */
  function LastFinish(cs: seq<Chunk>): string {
    if cs == [] then ""
    else if Finish(cs[|cs| - 1]) != "" then Finish(cs[|cs| - 1])
    else LastFinish(cs[..|cs| - 1])
  }

  function LastUsage(cs: seq<Chunk>): Option<WireUsage> {
    if cs == [] then None
    else if cs[|cs| - 1].usage.Some? then cs[|cs| - 1].usage
    else LastUsage(cs[..|cs| - 1])
  }

  /** Deltas of one call, in order. */
  function OfIndex(ds: seq<CallDelta>, index: int): seq<CallDelta> {
    if ds == [] then []
    else
      var n := |ds| - 1;
      if ds[n].index == index then OfIndex(ds[..n], index) + [ds[n]] else OfIndex(ds[..n], index)
  }

  function Assembled(ds: seq<CallDelta>): Slot {
    if ds == [] then EMPTY_SLOT else Merge(Assembled(ds[..|ds| - 1]), ds[|ds| - 1])
  }

  /** The accumulator holds, for each index seen, what the deltas of that index assemble to. */
  ghost predicate Accumulates(acc: map<int, Slot>, ds: seq<CallDelta>) {
    forall k :: Holds(acc, ds, k)
  }

  ghost predicate Holds(acc: map<int, Slot>, ds: seq<CallDelta>, k: int) {
    var mine := OfIndex(ds, k);
    if mine == [] then k !in acc else k in acc && acc[k] == Assembled(mine)
  }

  lemma OfIndexSnoc(ds: seq<CallDelta>, d: CallDelta, k: int)
    ensures OfIndex(ds + [d], k) == if d.index == k then OfIndex(ds, k) + [d] else OfIndex(ds, k)
  {
    assert (ds + [d])[..|ds|] == ds;
  }

  lemma AssembledSnoc(ds: seq<CallDelta>, d: CallDelta)
    ensures Assembled(ds + [d]) == Merge(Assembled(ds), d)
  {
    assert (ds + [d])[..|ds|] == ds;
  }

  /** `setdefault` and the three assignments to the slot. */
  lemma AccumulateOne(acc: map<int, Slot>, ds: seq<CallDelta>, d: CallDelta, slot: Slot)
    requires Accumulates(acc, ds)
    requires slot == if d.index in acc then acc[d.index] else EMPTY_SLOT
    ensures Accumulates(acc[d.index := Merge(slot, d)], ds + [d])
  {
    var after := acc[d.index := Merge(slot, d)];
    forall k ensures Holds(after, ds + [d], k) {
      AccumulateAt(acc, ds, d, slot, k);
    }
  }

  lemma AccumulateAt(acc: map<int, Slot>, ds: seq<CallDelta>, d: CallDelta, slot: Slot, k: int)
    requires Holds(acc, ds, k) && Holds(acc, ds, d.index)
    requires slot == if d.index in acc then acc[d.index] else EMPTY_SLOT
    ensures Holds(acc[d.index := Merge(slot, d)], ds + [d], k)
  {
    var mine := OfIndex(ds, k);
    OfIndexSnoc(ds, d, k);
    if k == d.index {
      AssembledSnoc(mine, d);
      assert slot == Assembled(mine);
    }
  }

  /** `sorted(keys)`. */
  function Sorted(keys: set<int>): (s: seq<int>)
    ensures Increasing(s)
    ensures forall k :: k in s <==> k in keys
  {
    if keys == {} then []
    else
      var m := Smallest(keys);
      var rest := Sorted(keys - {m});
      assert forall k :: k in rest ==> m < k;
      [m] + rest
  }

  ghost predicate Increasing(s: seq<int>) {
    forall i, j :: 0 <= i < j < |s| ==> s[i] < s[j]
  }

  function Smallest(keys: set<int>): (m: int)
    requires keys != {}
    ensures m in keys && forall k :: k in keys ==> m <= k
  {
    SmallestExists(keys);
    var m :| m in keys && forall k :: k in keys ==> m <= k;
    m
  }

  lemma {:induction false} SmallestExists(keys: set<int>)
    requires keys != {}
    ensures exists m :: m in keys && forall k :: k in keys ==> m <= k
    decreases |keys|
  {
    assert (forall k :: k !in keys) ==> keys == {};
    var x :| x in keys;
    var rest := keys - {x};
    assert forall k :: k in keys ==> k == x || k in rest;
    if rest != {} {
      SmallestExists(rest);
      var y :| y in rest && forall k :: k in rest ==> y <= k;
      var m := if x <= y then x else y;
      assert m in keys && forall k :: k in keys ==> m <= k;
    }
  }

  /** What the stream ends with, from the chunks alone. */
  function Assemble<J>(cs: seq<Chunk>, loads: string -> J): Completion<J> {
    var ds := AllDeltas(cs);
    var u := LastUsage(cs);
    Completion(AllContent(cs), FinishReason(LastFinish(cs)),
               if u.Some? then MapUsage(u.value) else NO_USAGE,
               Calls(Slots(ds, Sorted(Indices(ds))), loads))
  }

  function Indices(ds: seq<CallDelta>): set<int> {
    set d | d in ds :: d.index
  }

  function Slots(ds: seq<CallDelta>, indices: seq<int>): (r: seq<Slot>)
    ensures |r| == |indices|
    ensures forall i :: 0 <= i < |r| ==> r[i] == Assembled(OfIndex(ds, indices[i]))
  {
    seq(|indices|, i requires 0 <= i < |indices| => Assembled(OfIndex(ds, indices[i])))
  }

  // `stream` as the loop that it is.

  class Accumulator {
    var textParts: seq<string>
    var slots: map<int, Slot>
    var finishReason: string
    var usage: Usage
    ghost var read: seq<Chunk>

    ghost predicate Valid()
      reads this
    {
      && Flatten(textParts) == AllContent(read)
      && Accumulates(slots, AllDeltas(read))
      && finishReason == LastFinish(read)
      && usage == (if LastUsage(read).Some? then MapUsage(LastUsage(read).value) else NO_USAGE)
    }

    constructor ()
      ensures Valid() && read == [] && textParts == []
    {
      textParts, slots, finishReason, usage, read := [], map[], "", NO_USAGE, [];
    }

    /** One chunk; the delta, if any, is what the generator yields for it. */
    method Read(c: Chunk) returns (yielded: seq<string>)
      requires Valid()
      modifies this
      ensures Valid() && read == old(read) + [c]
      ensures textParts == old(textParts) + yielded
      ensures forall i :: 0 <= i < |yielded| ==> yielded[i] != ""
    {
      yielded := TextOf(c);
      TextRead(textParts, yielded, read, c);
      textParts := textParts + yielded;
      if c.usage.Some? {
        usage := MapUsage(c.usage.value);
      }
      if c.choice.Some? {
        slots, finishReason := ReadChoice(slots, finishReason, c, read);
      }
      read := read + [c];
    }

    /** The completion of the StreamEnd. */
    method End<J>(loads: string -> J) returns (end: Completion<J>)
      requires Valid()
      ensures end == Assemble(read, loads)
    {
      var indices := Sorted(slots.Keys);
      var calls := InOrder(slots, indices, AllDeltas(read));
      end := Completion(Flatten(textParts), FinishReason(finishReason), usage, Calls(calls, loads));
    }
  }

  method InOrder(slots: map<int, Slot>, indices: seq<int>, ghost ds: seq<CallDelta>) returns (calls: seq<Slot>)
    requires Accumulates(slots, ds) && indices == Sorted(slots.Keys)
    ensures calls == Slots(ds, indices) && indices == Sorted(Indices(ds))
  {
    IndicesSeen(ds, slots);
    calls := seq(|indices|, i requires 0 <= i < |indices| => slots[indices[i]]);
  }

  lemma TextRead(parts: seq<string>, yielded: seq<string>, read: seq<Chunk>, c: Chunk)
    requires Flatten(parts) == AllContent(read) && Flatten(yielded) == Content(c)
    ensures Flatten(parts + yielded) == AllContent(read + [c])
    ensures LastUsage(read + [c]) == if c.usage.Some? then c.usage else LastUsage(read)
    ensures c.choice.None? ==> AllDeltas(read + [c]) == AllDeltas(read) && LastFinish(read + [c]) == LastFinish(read)
  {
    FlattenAppend(parts, yielded);
    ReadOne(read, c);
  }

  /** The tool calls and the finish reason of a chunk. */
  method ReadChoice(slots0: map<int, Slot>, finish0: string, c: Chunk, ghost read: seq<Chunk>)
    returns (slots: map<int, Slot>, finish: string)
    requires c.choice.Some? && Accumulates(slots0, AllDeltas(read)) && finish0 == LastFinish(read)
    ensures Accumulates(slots, AllDeltas(read + [c])) && finish == LastFinish(read + [c])
  {
    ReadOne(read, c);
    slots := AddCalls(slots0, c.choice.value.calls, AllDeltas(read));
    finish := finish0;
    if Or(c.choice.value.finish, "") != "" {
      finish := c.choice.value.finish.value;
    }
  }

  /** The non-empty content of a chunk, which is yielded as a delta. */
  method TextOf(c: Chunk) returns (yielded: seq<string>)
    ensures Flatten(yielded) == Content(c)
    ensures forall i :: 0 <= i < |yielded| ==> yielded[i] != ""
  {
    yielded := [];
    if c.choice.Some? {
      var content := Or(c.choice.value.content, "");
      if content != "" {
        yielded := [content];
        assert [content][1..] == [] && content + "" == content;
      }
    }
  }

  lemma ReadOne(cs: seq<Chunk>, c: Chunk)
    ensures AllContent(cs + [c]) == AllContent(cs) + Content(c)
    ensures AllDeltas(cs + [c]) == AllDeltas(cs) + Deltas(c)
    ensures Content(c) == "" ==> AllContent(cs + [c]) == AllContent(cs)
    ensures Deltas(c) == [] ==> AllDeltas(cs + [c]) == AllDeltas(cs)
    ensures LastFinish(cs + [c]) == if Finish(c) != "" then Finish(c) else LastFinish(cs)
    ensures LastUsage(cs + [c]) == if c.usage.Some? then c.usage else LastUsage(cs)
  {
    assert (cs + [c])[..|cs|] == cs;
  }

  method AddCalls(slots0: map<int, Slot>, calls: seq<CallDelta>, ghost before: seq<CallDelta>)
    returns (slots: map<int, Slot>)
    requires Accumulates(slots0, before)
    ensures Accumulates(slots, before + calls)
  {
    slots := slots0;
    var i := 0;
    assert before + calls[..0] == before;
    while i < |calls|
      invariant 0 <= i <= |calls| && Accumulates(slots, before + calls[..i])
    {
      var call := calls[i];
      var slot := if call.index in slots then slots[call.index] else EMPTY_SLOT;
      AccumulateOne(slots, before + calls[..i], call, slot);
      assert before + calls[..i] + [call] == before + calls[..i + 1];
      slots := slots[call.index := Merge(slot, call)];
      i := i + 1;
    }
    assert calls[..|calls|] == calls;
  }

  /** `stream`: the text deltas it yields, in order, and the completion of its StreamEnd. */
  method Stream<J>(lines: seq<Line>, loads: string -> J) returns (deltas: seq<string>, end: Completion<J>)
    ensures end == Assemble(Chunks(lines), loads)
    ensures Flatten(deltas) == end.text
    ensures forall i :: 0 <= i < |deltas| ==> deltas[i] != ""
  {
    var acc := new Accumulator();
    deltas := [];
    var i := 0;
    while i < |lines| && !lines[i].Done?
      invariant 0 <= i <= |lines| && acc.Valid() && fresh(acc)
      invariant deltas == acc.textParts
      invariant forall i :: 0 <= i < |deltas| ==> deltas[i] != ""
      invariant acc.read + Chunks(lines[i..]) == Chunks(lines)
    {
      assert lines[i..][1..] == lines[i + 1..];
      if lines[i].Data? {
        ghost var before := acc.read;
        var yielded := acc.Read(lines[i].chunk);
        Assoc(before, [lines[i].chunk], Chunks(lines[i + 1..]));
        deltas := deltas + yielded;
      }
      i := i + 1;
    }
    assert Chunks(lines[i..]) == [];
    assert acc.read == Chunks(lines);
    end := acc.End(loads);
  }

  lemma IndicesSeen(ds: seq<CallDelta>, acc: map<int, Slot>)
    requires Accumulates(acc, ds)
    ensures acc.Keys == Indices(ds)
    ensures forall k :: k in acc ==> acc[k] == Assembled(OfIndex(ds, k))
  {
    forall k ensures k in acc.Keys <==> k in Indices(ds) {
      assert Holds(acc, ds, k);
      OfIndexSome(ds, k);
    }
    forall k | k in acc ensures acc[k] == Assembled(OfIndex(ds, k)) {
      assert Holds(acc, ds, k);
    }
  }

  lemma {:induction false} OfIndexSome(ds: seq<CallDelta>, k: int)
    ensures OfIndex(ds, k) != [] <==> k in Indices(ds)
  {
    if ds != [] {
      var n := |ds| - 1;
      OfIndexSome(ds[..n], k);
      assert ds == ds[..n] + [ds[n]];
      assert Indices(ds) == Indices(ds[..n]) + {ds[n].index};
    }
  }

  // Streaming gives what the whole response gives.

  /** The deltas of one call carry the call: names and arguments concatenate to it, and its id comes
      once at least and never another one. */
  ghost predicate Carries(ds: seq<CallDelta>, call: WireCall) {
    && ds != []
    && Names(ds) == call.name
    && Arguments(ds) == call.arguments
    && OnlyId(ds, call.id) && HasId(ds, call.id)
  }

  function Names(ds: seq<CallDelta>): string {
    if ds == [] then "" else Names(ds[..|ds| - 1]) + Or(ds[|ds| - 1].name, "")
  }

  function Arguments(ds: seq<CallDelta>): string {
    if ds == [] then "" else Arguments(ds[..|ds| - 1]) + Or(ds[|ds| - 1].arguments, "")
  }

  /** The chunks are a fragmentation of the response: deltas of different calls may interleave in any
      way, and only the order within one index counts. Indices grow with the position of the call. */
  ghost predicate Fragments(cs: seq<Chunk>, indices: seq<int>, r: Response) {
    && AllContent(cs) == Or(r.content, "")
    && LastFinish(cs) == Or(r.finish, "")
    && LastUsage(cs) == r.usage
    && |indices| == |r.toolCalls| && Increasing(indices)
    && (forall d :: d in AllDeltas(cs) ==> d.index in indices)
    && (forall i :: 0 <= i < |indices| ==> Carries(OfIndex(AllDeltas(cs), indices[i]), r.toolCalls[i]))
  }

  ghost predicate OnlyId(ds: seq<CallDelta>, id: string) {
    forall i :: 0 <= i < |ds| ==> Or(ds[i].id, "") == "" || Or(ds[i].id, "") == id
  }

  ghost predicate HasId(ds: seq<CallDelta>, id: string) {
    exists i :: 0 <= i < |ds| && Or(ds[i].id, "") == id
  }

  lemma {:induction false} AssembledCarries(ds: seq<CallDelta>, id: string)
    ensures Assembled(ds).name == Names(ds) && Assembled(ds).arguments == Arguments(ds)
    ensures OnlyId(ds, id) ==> Assembled(ds).id == if HasId(ds, id) then id else ""
  {
    if ds != [] {
      var n := |ds| - 1;
      AssembledCarries(ds[..n], id);
      if OnlyId(ds, id) {
        assert HasId(ds, id) <==> HasId(ds[..n], id) || Or(ds[n].id, "") == id by {
          if HasId(ds[..n], id) {
            var i :| 0 <= i < n && Or(ds[..n][i].id, "") == id;
            assert Or(ds[i].id, "") == id;
          }
        }
      }
    }
  }

  /** Should a call be given several ids, the last one counts. */
  lemma {:induction false} LastIdCounts(ds: seq<CallDelta>, k: nat)
    requires k < |ds| && Or(ds[k].id, "") != "" && forall i :: k < i < |ds| ==> Or(ds[i].id, "") == ""
    ensures Some(Assembled(ds).id) == ds[k].id
  {
    var n := |ds| - 1;
    if k < n {
      LastIdCounts(ds[..n], k);
    }
  }

  lemma EmptyTogether(a: seq<int>, b: seq<int>)
    requires forall k :: k in a <==> k in b
    ensures |a| > 0 <==> |b| > 0
  {
    if |a| > 0 {
      var x: int := a[0];
      assert x in a && x in b;
    }
    if |b| > 0 {
      var x: int := b[0];
      assert x in b && x in a;
    }
  }

  lemma {:induction false} SortedUnique(a: seq<int>, b: seq<int>)
    requires Increasing(a) && Increasing(b) && forall k :: k in a <==> k in b
    ensures a == b
  {
    EmptyTogether(a, b);
    if |a| > 0 {
      assert a[0] in b && b[0] in a;
      assert a[0] == b[0];
      assert forall k :: k in a[1..] <==> k in a && k != a[0];
      assert forall k :: k in b[1..] <==> k in b && k != b[0];
      SortedUnique(a[1..], b[1..]);
    }
  }

  /** What a completion says of the response it was read from. Cached tokens are part of the prompt on the wire and
      counted apart here; a call without arguments has the empty object. */
  ghost predicate Reads<J>(c: Completion<J>, r: Response, loads: string -> J) {
    && c.text == (match r.content case None => "" case Some(text) => text)
    && StopsFor(c.stopReason, r.finish)
    && (r.usage.None? ==> c.usage == Usage(0, 0, 0, 0))
    && (r.usage.Some? ==> Counts(c.usage, r.usage.value))
    && |c.toolCalls| == |r.toolCalls|
    && (forall i :: 0 <= i < |r.toolCalls| ==> ReadsCall(c.toolCalls[i], r.toolCalls[i], loads))
  }

  ghost predicate StopsFor(stopReason: string, finish: Option<string>) {
    && (finish == Some("tool_calls") <==> stopReason == "tool_use")
    && (finish == Some("length") <==> stopReason == "max_tokens")
    && (finish == Some("content_filter") <==> stopReason == "refusal")
    && (finish !in [Some("tool_calls"), Some("length"), Some("content_filter")] <==> stopReason == "end_turn")
  }

  ghost predicate Counts(u: Usage, wire: WireUsage) {
    u.input + u.cacheRead == wire.prompt && u.cacheRead == wire.cached && u.output == wire.completion && u.cacheWrite == 0
  }

  ghost predicate ReadsCall<J>(call: ToolCall<J>, wire: WireCall, loads: string -> J) {
    && call.id == wire.id && call.name == wire.name
    && (wire.arguments == "" ==> call.arguments == loads("{}"))
    && (wire.arguments != "" ==> call.arguments == loads(wire.arguments))
  }

  lemma CompleteReads<J>(r: Response, loads: string -> J)
    ensures Reads(Complete(r, loads), r, loads)
  {
    var c := Complete(r, loads);
    forall i | 0 <= i < |r.toolCalls| ensures ReadsCall(c.toolCalls[i], r.toolCalls[i], loads) {
      assert c.toolCalls[i] == Calls(r.toolCalls, loads)[i];
    }
  }

  lemma IndicesAre(ds: seq<CallDelta>, indices: seq<int>)
    requires Increasing(indices)
    requires forall d :: d in ds ==> d.index in indices
    requires forall i :: 0 <= i < |indices| ==> OfIndex(ds, indices[i]) != []
    ensures Sorted(Indices(ds)) == indices
  {
    forall k ensures k in Sorted(Indices(ds)) <==> k in indices {
      OfIndexSome(ds, k);
    }
    SortedUnique(Sorted(Indices(ds)), indices);
  }

  lemma SlotIsCall(ds: seq<CallDelta>, call: WireCall)
    requires Carries(ds, call)
    ensures Assembled(ds) == call
  {
    AssembledCarries(ds, call.id);
  }

  lemma SlotsAreCalls(cs: seq<Chunk>, indices: seq<int>, r: Response)
    requires Fragments(cs, indices, r)
    ensures Slots(AllDeltas(cs), Sorted(Indices(AllDeltas(cs)))) == r.toolCalls
  {
    var ds := AllDeltas(cs);
    IndicesAre(ds, indices);
    forall i | 0 <= i < |indices| ensures Slots(ds, indices)[i] == r.toolCalls[i] {
      SlotIsCall(OfIndex(ds, indices[i]), r.toolCalls[i]);
    }
  }

  /** For every fragmentation of a response, the stream ends with the completion that `complete`
      builds from the response, and that completion says of the response what it should. */
  lemma StreamingIsComplete<J>(cs: seq<Chunk>, indices: seq<int>, r: Response, loads: string -> J)
    requires Fragments(cs, indices, r)
    ensures Assemble(cs, loads) == Complete(r, loads)
    ensures Reads(Assemble(cs, loads), r, loads)
  {
    SlotsAreCalls(cs, indices, r);
    CompleteReads(r, loads);
  }

  // Fragmentations exist, and may be cut further.

  function WholeCalls(calls: seq<WireCall>): (ds: seq<CallDelta>)
    ensures |ds| == |calls|
    ensures forall i :: 0 <= i < |ds| ==> ds[i] == CallDelta(i, Some(calls[i].id), Some(calls[i].name), Some(calls[i].arguments))
  {
    seq(|calls|, i requires 0 <= i < |calls| => CallDelta(i, Some(calls[i].id), Some(calls[i].name), Some(calls[i].arguments)))
  }

  function WholeChunk(r: Response): Chunk {
    Chunk(r.usage, Some(Choice(r.content, WholeCalls(r.toolCalls), r.finish)))
  }

  /** Every response can be streamed: at the least as one chunk that holds everything. */
  lemma WholeFragments(r: Response)
    ensures Fragments([WholeChunk(r)], seq(|r.toolCalls|, i => i), r)
  {
    var c, ds, indices := WholeChunk(r), WholeCalls(r.toolCalls), seq(|r.toolCalls|, i => i);
    ReadOne([], c);
    assert [] + [c] == [c] && AllDeltas([]) + ds == ds && AllContent([]) + Content(c) == Content(c);
    forall i | 0 <= i < |indices| ensures Carries(OfIndex(ds, indices[i]), r.toolCalls[i]) && ds[i].index == indices[i] {
      CarriesWhole(ds, i, r.toolCalls[i]);
    }
  }

  lemma {:induction false} OnlyOne(ds: seq<CallDelta>, k: nat)
    requires forall i :: 0 <= i < |ds| ==> ds[i].index == i
    ensures OfIndex(ds, k) == if k < |ds| then [ds[k]] else []
  {
    if ds != [] {
      OnlyOne(ds[..|ds| - 1], k);
    }
  }

  lemma CarriesWhole(ds: seq<CallDelta>, k: nat, call: WireCall)
    requires k < |ds| && forall i :: 0 <= i < |ds| ==> ds[i].index == i
    requires ds[k] == CallDelta(k, Some(call.id), Some(call.name), Some(call.arguments))
    ensures Carries(OfIndex(ds, k), call)
  {
    OnlyOne(ds, k);
    var d := [ds[k]];
    assert d[..0] == [] && "" + call.name == call.name && "" + call.arguments == call.arguments;
    assert Or(d[0].id, "") == call.id;
  }

  /** A chunk of text may be cut anywhere. */
  lemma CutText(before: seq<Chunk>, a: string, b: string, after: seq<Chunk>, indices: seq<int>, r: Response)
    requires Fragments(before + [TextChunk(a + b)] + after, indices, r)
    ensures Fragments(before + [TextChunk(a), TextChunk(b)] + after, indices, r)
  {
    CutAlike(before, a, b);
    forall xs, ys, c | Alike(xs, ys) ensures Alike(xs + [c], ys + [c]) {
      AlikeSnoc(xs, ys, c);
    }
    KeptByAppend((xs, ys) => Alike(xs, ys), before + [TextChunk(a + b)], before + [TextChunk(a), TextChunk(b)], after);
    FragmentsAlike(before + [TextChunk(a + b)] + after, before + [TextChunk(a), TextChunk(b)] + after, indices, r);
  }

  /** After cs, that text more has been read. */
  ghost predicate ReadMore(cs: seq<Chunk>, text: string, next: seq<Chunk>) {
    && AllContent(next) == AllContent(cs) + text && AllDeltas(next) == AllDeltas(cs)
    && LastFinish(next) == LastFinish(cs) && LastUsage(next) == LastUsage(cs)
  }

  lemma ReadText(cs: seq<Chunk>, text: string)
    ensures ReadMore(cs, text, cs + [TextChunk(text)])
  {
    ReadOne(cs, TextChunk(text));
  }

  lemma CutAlike(before: seq<Chunk>, a: string, b: string)
    ensures Alike(before + [TextChunk(a + b)], before + [TextChunk(a), TextChunk(b)])
  {
    ReadText(before, a + b);
    ReadText(before, a);
    ReadText(before + [TextChunk(a)], b);
    Assoc(AllContent(before), a, b);
    assert before + [TextChunk(a), TextChunk(b)] == before + [TextChunk(a)] + [TextChunk(b)];
  }

  lemma FragmentsAlike(xs: seq<Chunk>, ys: seq<Chunk>, indices: seq<int>, r: Response)
    requires Fragments(xs, indices, r) && Alike(xs, ys)
    ensures Fragments(ys, indices, r)
  {
  }

  function TextChunk(text: string): Chunk {
    Chunk(None, Some(Choice(Some(text), [], None)))
  }

  ghost predicate Alike(xs: seq<Chunk>, ys: seq<Chunk>) {
    && AllContent(xs) == AllContent(ys) && AllDeltas(xs) == AllDeltas(ys)
    && LastFinish(xs) == LastFinish(ys) && LastUsage(xs) == LastUsage(ys)
  }

  lemma AlikeSnoc(xs: seq<Chunk>, ys: seq<Chunk>, c: Chunk)
    requires Alike(xs, ys)
    ensures Alike(xs + [c], ys + [c])
  {
    ReadOne(xs, c);
    ReadOne(ys, c);
  }

  // Which lines are read.

  function Sent(cs: seq<Chunk>): seq<Line> {
    if cs == [] then [] else [Data(cs[0])] + Sent(cs[1..])
  }

  /** All chunks that are sent are read, and nothing after `[DONE]`. */
  lemma {:induction false} ReadsWhatIsSent(cs: seq<Chunk>, after: seq<Line>)
    ensures Chunks(Sent(cs)) == cs && Chunks(Sent(cs) + [Done] + after) == cs
  {
    if cs == [] {
      assert Sent(cs) + [Done] + after == [Done] + after;
    } else {
      ReadsWhatIsSent(cs[1..], after);
      assert Sent(cs)[1..] == Sent(cs[1..]);
      assert (Sent(cs) + [Done] + after)[1..] == Sent(cs[1..]) + [Done] + after;
    }
  }

  /** Lines that are no data do not matter. */
  lemma {:induction false} OtherLinesDoNotMatter(before: seq<Line>, after: seq<Line>)
    ensures Chunks(before + [Other] + after) == Chunks(before + after)
  {
    if before == [] {
      assert before + [Other] + after == [Other] + after && before + after == after;
      assert ([Other] + after)[1..] == after;
    } else {
      OtherLinesDoNotMatter(before[1..], after);
      assert (before + [Other] + after)[1..] == before[1..] + [Other] + after;
      assert (before + after)[1..] == before[1..] + after;
    }
  }
}
