/**
 The chat stream on the wire: the server prints each event as one `data:` frame ended by
 an empty line, and the browser reassembles frames from reads cut at arbitrary places.
 The framing is a subset of section 9.2 of the WHATWG HTML Living Standard.
 */
module SseFraming {
  import opened Prelude

  const DATA := "data: "

  /** The two-character separator starts at index i. */
  predicate BlankAt(s: string, i: nat) {
    i + 2 <= |s| && s[i] == '\n' && s[i + 1] == '\n'
  }

  function FindBlank(s: string, from: nat): (r: Option<nat>)
    requires from <= |s|
    ensures r.Some? ==> from <= r.value && BlankAt(s, r.value)
    ensures r.Some? ==> forall j: nat :: from <= j < r.value ==> !BlankAt(s, j)
    ensures r.None? ==> forall j: nat :: from <= j ==> !BlankAt(s, j)
    decreases |s| - from
  {
    if BlankAt(s, from) then Some(from)
    else if from == |s| then None
    else FindBlank(s, from + 1)
  }

  /** `s.split("\n\n")`: leftmost, non-overlapping separators. */
  function Split(s: string): (parts: seq<string>)
    ensures |parts| >= 1
  {
    match FindBlank(s, 0)
    case None => [s]
    case Some(i) => [s[..i]] + Split(s[i + 2..])
  }

  function Init<T>(s: seq<T>): seq<T>
    requires s != []
  {
    s[..|s| - 1]
  }

  function Last<T>(s: seq<T>): T
    requires s != []
  {
    s[|s| - 1]
  }

  function LineEnd(s: string): (n: nat)
    ensures n <= |s| && '\n' !in s[..n]
    ensures n < |s| ==> s[n] == '\n'
  {
    if s == [] || s[0] == '\n' then 0 else 1 + LineEnd(s[1..])
  }

  /** Payload of the first line of the frame that starts with `data: `, if there is one. */
  function Payload(frame: string): Option<string> {
    var n := LineEnd(frame);
    if DATA <= frame[..n] then Some(frame[|DATA|..n])
    else if n == |frame| then None
    else Payload(frame[n + 1..])
  }

  function Payloads(frames: seq<string>): seq<string> {
    if frames == [] then []
    else One(frames[0]) + Payloads(frames[1..])
  }

  function One(frame: string): seq<string> {
    match Payload(frame)
    case Some(p) => [p]
    case None => []
  }

  /** What the consumer saw: the events yielded, and whether `JSON.parse` threw. */
  datatype Delivery<E> = Delivery(events: seq<E>, failed: bool)

  function Deliver<E>(payloads: seq<string>, parse: string -> Option<E>): Delivery<E> {
    if payloads == [] then Delivery([], false)
    else match parse(payloads[0])
         case None => Delivery([], true)
         case Some(e) =>
           var rest := Deliver(payloads[1..], parse);
           Delivery([e] + rest.events, rest.failed)
  }

  /** The whole client, as a function of the text alone: no mention of reads. */
  function Received<E>(text: string, parse: string -> Option<E>): Delivery<E> {
    Deliver(Payloads(Init(Split(text))), parse)
  }

  /** The client's read loop. Its result depends on the text and not on the cuts. */
  method StreamChatMessage<E>(pieces: seq<string>, parse: string -> Option<E>) returns (got: Delivery<E>)
    ensures got == Received(Flatten(pieces), parse)
  {
    var buffer := "";
    got := Delivery([], false);
    var i := 0;
    while i < |pieces|
      invariant 0 <= i <= |pieces|
      invariant buffer == Last(Split(Flatten(pieces[..i])))
      invariant !got.failed && got == Received(Flatten(pieces[..i]), parse)
    {
      buffer := buffer + pieces[i];
      var frames := Split(buffer);
      ReadResumes(pieces, i, parse);
      buffer := Last(frames);
      got := YieldFrames(Init(frames), got.events, parse);
      i := i + 1;
      if got.failed {
        LaterReadsChangeNothing(pieces, i, parse);
        return;
      }
    }
    assert pieces[..|pieces|] == pieces;
  }

  /** The inner loop over the finished frames of one read. */
  method YieldFrames<E>(frames: seq<string>, already: seq<E>, parse: string -> Option<E>)
    returns (got: Delivery<E>)
    ensures got == After(already, Deliver(Payloads(frames), parse))
  {
    got := Delivery(already, false);
    var k := 0;
    while k < |frames|
      invariant 0 <= k <= |frames| && !got.failed
      invariant After(got.events, Deliver(Payloads(frames[k..]), parse)) == After(already, Deliver(Payloads(frames), parse))
    {
      assert frames[k..][1..] == frames[k + 1..] && frames[k..][0] == frames[k];
      DeliverStep(got.events, frames[k..], parse);
      match Payload(frames[k]) {
        case None =>
        case Some(p) =>
          match parse(p) {
            case None => return Delivery(got.events, true);
            case Some(e) => got := Delivery(got.events + [e], false);
          }
      }
      k := k + 1;
    }
    assert frames[k..] == [];
  }

  function After<E>(already: seq<E>, d: Delivery<E>): Delivery<E> {
    Delivery(already + d.events, d.failed)
  }

  lemma DeliverStep<E>(already: seq<E>, frames: seq<string>, parse: string -> Option<E>)
    requires frames != []
    ensures After(already, Deliver(Payloads(frames), parse)) ==
            match Payload(frames[0])
            case None => After(already, Deliver(Payloads(frames[1..]), parse))
            case Some(p) =>
              match parse(p)
              case None => Delivery(already, true)
              case Some(e) => After(already + [e], Deliver(Payloads(frames[1..]), parse))
  {
    var rest := Payloads(frames[1..]);
    match Payload(frames[0]) {
      case None => assert [] + rest == rest;
      case Some(p) =>
        assert ([p] + rest)[1..] == rest;
        if parse(p).Some? {
          Assoc(already, [parse(p).value], Deliver(rest, parse).events);
        }
    }
  }

  /** One more read: only the unfinished frame and the new text matter. */
  lemma ReadResumes<E>(pieces: seq<string>, i: nat, parse: string -> Option<E>)
    requires i < |pieces| && !Received(Flatten(pieces[..i]), parse).failed
    ensures var frames := Split(Last(Split(Flatten(pieces[..i]))) + pieces[i]);
            && Last(Split(Flatten(pieces[..i + 1]))) == Last(frames)
            && Received(Flatten(pieces[..i + 1]), parse) ==
               After(Received(Flatten(pieces[..i]), parse).events, Deliver(Payloads(Init(frames)), parse))
  {
    assert pieces[..i + 1] == pieces[..i] + [pieces[i]];
    FlattenSnoc(pieces[..i], pieces[i]);
    var x := Flatten(pieces[..i]);
    SplitResumes(x, pieces[i]);
    var seen, frames := Init(Split(x)), Split(Last(Split(x)) + pieces[i]);
    assert Init(Split(x + pieces[i])) == seen + Init(frames);
    PayloadsAppend(seen, Init(frames));
    DeliverAppend(Payloads(seen), Payloads(Init(frames)), parse);
  }

  /** Cutting the text anywhere: the finished frames of the left part stay as they are, and the
      unfinished one is continued by the right part. Covers a separator that straddles the cut
      and runs of three or more newlines. */
  lemma {:induction false} SplitResumes(x: string, y: string)
    ensures Split(x + y) == Init(Split(x)) + Split(Last(Split(x)) + y)
    decreases |x|
  {
    match FindBlank(x, 0) {
      case None =>
      case Some(i) =>
        SameFirstBlank(x, y, i);
        assert (x + y)[i + 2..] == x[i + 2..] + y;
        SplitResumes(x[i + 2..], y);
        var tail := Split(x[i + 2..]);
        assert (x + y)[..i] == x[..i];
        InitAfter(x[..i], tail, Split(Last(tail) + y));
    }
  }

  lemma InitAfter<T>(head: T, tail: seq<T>, more: seq<T>)
    requires tail != []
    ensures Last([head] + tail) == Last(tail)
    ensures Init([head] + tail) + more == [head] + (Init(tail) + more)
  {
    assert Init([head] + tail) == [head] + Init(tail);
  }

  lemma SameFirstBlank(x: string, y: string, i: nat)
    requires FindBlank(x, 0) == Some(i)
    ensures FindBlank(x + y, 0) == Some(i)
  {
    assert BlankAt(x + y, i);
    assert forall j: nat :: j < i ==> BlankAt(x + y, j) ==> BlankAt(x, j);
  }

  lemma {:induction false} PayloadsAppend(fs: seq<string>, gs: seq<string>)
    ensures Payloads(fs + gs) == Payloads(fs) + Payloads(gs)
  {
    if fs == [] {
      assert fs + gs == gs;
    } else {
      PayloadsAppend(fs[1..], gs);
      assert (fs + gs)[1..] == fs[1..] + gs;
      Assoc(One(fs[0]), Payloads(fs[1..]), Payloads(gs));
    }
  }

  lemma {:induction false} DeliverAppend<E>(ps: seq<string>, qs: seq<string>, parse: string -> Option<E>)
    ensures Deliver(ps, parse).failed ==> Deliver(ps + qs, parse) == Deliver(ps, parse)
    ensures !Deliver(ps, parse).failed ==>
              && Deliver(ps + qs, parse).failed == Deliver(qs, parse).failed
              && Deliver(ps + qs, parse).events == Deliver(ps, parse).events + Deliver(qs, parse).events
  {
    if ps == [] {
      assert ps + qs == qs;
    } else if parse(ps[0]).Some? {
      DeliverAppend(ps[1..], qs, parse);
      assert (ps + qs)[1..] == ps[1..] + qs;
      var head, mid, tail := [parse(ps[0]).value], Deliver(ps[1..], parse), Deliver(qs, parse);
      Assoc(head, mid.events, tail.events);
    }
  }

  lemma DeliverAppendFrames<E>(fs: seq<string>, gs: seq<string>, parse: string -> Option<E>)
    requires Deliver(Payloads(fs), parse).failed
    ensures Deliver(Payloads(fs + gs), parse) == Deliver(Payloads(fs), parse)
  {
    PayloadsAppend(fs, gs);
    DeliverAppend(Payloads(fs), Payloads(gs), parse);
  }

  /** Once `JSON.parse` has thrown, later text changes nothing. */
  lemma FailureIsFinal<E>(x: string, y: string, parse: string -> Option<E>)
    requires Received(x, parse).failed
    ensures Received(x + y, parse) == Received(x, parse)
  {
    SplitResumes(x, y);
    var seen, more := Init(Split(x)), Init(Split(Last(Split(x)) + y));
    assert Init(Split(x + y)) == seen + more;
    DeliverAppendFrames(seen, more, parse);
  }

  lemma LaterReadsChangeNothing<E>(pieces: seq<string>, n: nat, parse: string -> Option<E>)
    requires n <= |pieces| && Received(Flatten(pieces[..n]), parse).failed
    ensures Received(Flatten(pieces), parse) == Received(Flatten(pieces[..n]), parse)
  {
    assert pieces == pieces[..n] + pieces[n..];
    FlattenAppend(pieces[..n], pieces[n..]);
    FailureIsFinal(Flatten(pieces[..n]), Flatten(pieces[n..]), parse);
  }

  // What the two splits mean.

  /** A text that ends at the next separator: none starts inside it, not even one that the separator completes. */
  ghost predicate IsFrame(frame: string) {
    forall j: nat :: j < |frame| ==> !BlankAt(frame + "\n\n", j)
  }

  function Framed(frames: seq<string>): string {
    if frames == [] then "" else frames[0] + "\n\n" + Framed(frames[1..])
  }

  /** Splitting undoes joining by empty lines, whatever unfinished text follows. */
  lemma {:induction false} SplitIs(frames: seq<string>, rest: string)
    requires forall i :: 0 <= i < |frames| ==> IsFrame(frames[i])
    requires forall j: nat :: !BlankAt(rest, j)
    ensures Split(Framed(frames) + rest) == frames + [rest]
  {
    if frames == [] {
      assert Framed(frames) + rest == rest;
    } else {
      SplitIs(frames[1..], rest);
      var frame, more := frames[0], Framed(frames[1..]) + rest;
      assert Framed(frames) + rest == frame + "\n\n" + more;
      SplitOne(frame, more);
    }
  }

  lemma SplitOne(frame: string, more: string)
    requires IsFrame(frame)
    ensures Split(frame + "\n\n" + more) == [frame] + Split(more)
  {
    var text := frame + "\n\n" + more;
    assert BlankAt(text, |frame|);
    forall j: nat | j < |frame| ensures !BlankAt(text, j) {
      assert !BlankAt(frame + "\n\n", j);
    }
    assert FindBlank(text, 0) == Some(|frame|);
    assert text[..|frame|] == frame && text[|frame| + 2..] == more;
  }

  function Lines(lines: seq<string>): string
    requires lines != []
  {
    if |lines| == 1 then lines[0] else lines[0] + "\n" + Lines(lines[1..])
  }

  /** The payload is what follows `data: ` in the first line that starts so, wherever that line stands. */
  lemma {:induction false} PayloadIs(lines: seq<string>, k: nat)
    requires lines != [] && k <= |lines| && forall i :: 0 <= i < |lines| ==> '\n' !in lines[i]
    requires forall i :: 0 <= i < k ==> !("data: " <= lines[i])
    requires k < |lines| ==> "data: " <= lines[k]
    ensures Payload(Lines(lines)) == if k < |lines| then Some(lines[k][6..]) else None
  {
    var frame := Lines(lines);
    FirstLine(lines);
    if k > 0 && |lines| > 1 {
      PayloadIs(lines[1..], k - 1);
      assert frame[LineEnd(frame) + 1..] == Lines(lines[1..]);
    }
  }

  lemma FirstLine(lines: seq<string>)
    requires lines != [] && forall i :: 0 <= i < |lines| ==> '\n' !in lines[i]
    ensures LineEnd(Lines(lines)) == |lines[0]| && Lines(lines)[..|lines[0]|] == lines[0]
  {
    var frame, n := Lines(lines), |lines[0]|;
    assert forall j :: 0 <= j < n ==> frame[j] == lines[0][j] && frame[j] in lines[0];
    assert forall m :: n < m <= |frame| ==> frame[..m][n] == '\n';
  }

  // The server side.

  function Sse(json: string): string {
    DATA + json + "\n\n"
  }

  /** The concatenated output of `_sse` over a list of events. */
  function Print<E>(events: seq<E>, dumps: E -> string): string {
    if events == [] then "" else Sse(dumps(events[0])) + Print(events[1..], dumps)
  }

  /** What `json.dumps` and `JSON.parse` guarantee: one line, and inverses. */
  ghost predicate Codec<E(!new)>(dumps: E -> string, parse: string -> Option<E>) {
    forall e :: '\n' !in dumps(e) && parse(dumps(e)) == Some(e)
  }

  lemma SplitFrame(json: string, rest: string)
    requires '\n' !in json
    ensures Split(Sse(json) + rest) == [DATA + json] + Split(rest)
    ensures Payload(DATA + json) == Some(json)
  {
    var frame := DATA + json;
    assert forall j :: 0 <= j < |frame| ==> (frame + "\n\n")[j] == frame[j] != '\n';
    SplitOne(frame, rest);
    assert Lines([frame]) == frame && '\n' !in frame;
    PayloadIs([frame], 0);
  }

  /** Printed events followed by an unfinished rest: exactly the events are delivered. */
  lemma {:induction false} PrintThenRest<E(!new)>(events: seq<E>, rest: string, dumps: E -> string,
                                                  parse: string -> Option<E>)
    requires Codec(dumps, parse)
    requires forall j: nat :: !BlankAt(rest, j)
    ensures Received(Print(events, dumps) + rest, parse) == Delivery(events, false)
  {
    if events == [] {
      assert Print(events, dumps) + rest == rest;
      assert Split(rest) == [rest];
    } else {
      var json, more := dumps(events[0]), Print(events[1..], dumps) + rest;
      assert Print(events, dumps) + rest == Sse(json) + more;
      SplitFrame(json, more);
      PrintThenRest(events[1..], rest, dumps, parse);
      FirstFrame(events[0], Split(more), dumps, parse);
    }
  }

  /** A frame in front of others delivers its event first. */
  lemma FirstFrame<E(!new)>(e: E, frames: seq<string>, dumps: E -> string, parse: string -> Option<E>)
    requires Codec(dumps, parse) && frames != [] && Payload(DATA + dumps(e)) == Some(dumps(e))
    ensures var rest := Deliver(Payloads(Init(frames)), parse);
            Deliver(Payloads(Init([DATA + dumps(e)] + frames)), parse) == Delivery([e] + rest.events, rest.failed)
  {
    var frame, fs := DATA + dumps(e), Init(frames);
    assert Init([frame] + frames) == [frame] + fs;
    assert ([frame] + fs)[1..] == fs;
    assert Payloads([frame] + fs) == [dumps(e)] + Payloads(fs);
    assert ([dumps(e)] + Payloads(fs))[1..] == Payloads(fs);
  }

  /** Round trip: however the printed events are cut into reads, the client yields those events. */
  lemma RoundTrip<E(!new)>(events: seq<E>, pieces: seq<string>, dumps: E -> string, parse: string -> Option<E>)
    requires Codec(dumps, parse) && Flatten(pieces) == Print(events, dumps)
    ensures Received(Flatten(pieces), parse) == Delivery(events, false)
  {
    PrintThenRest(events, "", dumps, parse);
    assert Print(events, dumps) + "" == Print(events, dumps);
  }

  /** A connection lost at any point: the client has yielded exactly the events whose frame,
      separator included, had arrived. */
  lemma {:induction false} TruncatedRoundTrip<E(!new)>(events: seq<E>, text: string, dumps: E -> string,
                                                       parse: string -> Option<E>)
    returns (k: nat)
    requires Codec(dumps, parse) && text <= Print(events, dumps)
    ensures k <= |events| && Print(events[..k], dumps) <= text
    ensures k < |events| ==> |text| < |Print(events[..k + 1], dumps)|
    ensures Received(text, parse) == Delivery(events[..k], false)
  {
    k := 0;
    assert Print(events[..0], dumps) == "";
    while k < |events| && |Print(events[..k + 1], dumps)| <= |text|
      invariant k <= |events| && Print(events[..k], dumps) <= text
    {
      PrintPrefix(events, k + 1, dumps);
      k := k + 1;
    }
    PrintPrefix(events, k, dumps);
    var head := Print(events[..k], dumps);
    var rest := text[|head|..];
    assert text == head + rest;
    if k == |events| {
      assert rest == "";
    } else {
      var frame := Sse(dumps(events[k]));
      PrintSnoc(events, k, dumps);
      PrintPrefix(events, k + 1, dumps);
      assert rest == frame[..|rest|];
      assert forall j: nat :: j < |frame| - 2 ==> frame[j] != '\n';
    }
    PrintThenRest(events[..k], rest, dumps, parse);
  }

  /** Each event is printed as one `data: ` line and an empty line. */
  lemma PrintSnoc<E>(events: seq<E>, k: nat, dumps: E -> string)
    requires k < |events|
    ensures Print(events[..k + 1], dumps) == Print(events[..k], dumps) + ("data: " + dumps(events[k]) + "\n\n")
  {
    var e := events[k];
    assert events[..k + 1][..k] == events[..k] && events[..k + 1][k..] == [e];
    PrintPrefix(events[..k + 1], k, dumps);
    assert Print([e], dumps) == Sse(dumps(e)) + Print([e][1..], dumps);
  }

  lemma {:induction false} PrintPrefix<E>(events: seq<E>, k: nat, dumps: E -> string)
    requires k <= |events|
    ensures Print(events, dumps) == Print(events[..k], dumps) + Print(events[k..], dumps)
  {
    if k == 0 {
      assert events[..0] == [] && events[0..] == events;
    } else {
      PrintPrefix(events[1..], k - 1, dumps);
      var frame := Sse(dumps(events[0]));
      var mid, tail := Print(events[1..][..k - 1], dumps), Print(events[k..], dumps);
      assert events[1..][k - 1..] == events[k..];
      assert Print(events[..k], dumps) == frame + mid by {
        assert events[..k][1..] == events[1..][..k - 1];
      }
      Assoc(frame, mid, tail);
    }
  }
}
