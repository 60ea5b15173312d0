/**
 Splitting a document into overlapping chunks of words. `ChunkPages` is the loop over
 `start`; `Expected` says what it produces without mentioning `start` or the tail rule.
 */
module Chunking {
  import opened Prelude

  type Word = seq<char>

  /** The characters Python's `str.split()` treats as white space. */
  predicate IsSpace(c: char) {
    || '\t' <= c <= '\r'
    || '\U{1c}' <= c <= ' '
    || c == '\U{85}' || c == '\U{a0}' || c == '\U{1680}'
    || '\U{2000}' <= c <= '\U{200a}'
    || c == '\U{2028}' || c == '\U{2029}' || c == '\U{202f}' || c == '\U{205f}' || c == '\U{3000}'
  }

  ghost predicate IsWord(w: Word) {
    w != [] && forall i :: 0 <= i < |w| ==> !IsSpace(w[i])
  }

  ghost predicate AllWords(ws: seq<Word>) {
    forall i :: 0 <= i < |ws| ==> IsWord(ws[i])
  }

  /** Length of the longest prefix of `text` without white space. */
  function WordEnd(text: string): (n: nat)
    ensures n <= |text|
    ensures forall i :: 0 <= i < n ==> !IsSpace(text[i])
    ensures n < |text| ==> IsSpace(text[n])
  {
    if text == [] || IsSpace(text[0]) then 0 else 1 + WordEnd(text[1..])
  }

  /** `text.split()`. */
  function Words(text: string): (ws: seq<Word>)
    ensures AllWords(ws)
    decreases |text|
  {
    if text == [] then []
    else if IsSpace(text[0]) then Words(text[1..])
    else
      var n := WordEnd(text);
      [text[..n]] + Words(text[n..])
  }

  /** `" ".join(ws)`. */
  function Join(ws: seq<Word>): string {
    if ws == [] then []
    else if |ws| == 1 then ws[0]
    else ws[0] + " " + Join(ws[1..])
  }

  /** White space by its code points (`str.isspace`). */
  predicate Blank(code: int) {
    || 9 <= code <= 13 || 28 <= code <= 32 || code == 133 || code == 160 || code == 5760 || 8192 <= code <= 8202
    || code == 8232 || code == 8233 || code == 8239 || code == 8287 || code == 12288
  }

  function Unspaced(text: string): string {
    if text == [] then []
    else (if Blank(text[0] as int) then [] else [text[0]]) + Unspaced(text[1..])
  }

  /** The words hold every character but the white space, in order. */
  lemma {:induction false} WordsHoldTheRest(text: string)
    ensures Flatten(Words(text)) == Unspaced(text)
    decreases |text|
  {
    if text == [] {
    } else if IsSpace(text[0]) {
      WordsHoldTheRest(text[1..]);
      FirstSpace(text);
    } else {
      var n := WordEnd(text);
      WordsHoldTheRest(text[n..]);
      FirstWord(text, n, Words(text[n..]));
    }
  }

  lemma FirstSpace(text: string)
    requires text != [] && IsSpace(text[0])
    ensures Unspaced(text) == Unspaced(text[1..])
  {
  }

  lemma FirstWord(text: string, n: nat, more: seq<Word>)
    requires n == WordEnd(text) && Flatten(more) == Unspaced(text[n..])
    ensures Flatten([text[..n]] + more) == Unspaced(text)
  {
    UnspacedWord(text, n);
    FlattenCons(text[..n], more);
  }

  lemma {:induction false} UnspacedWord(text: string, n: nat)
    requires n <= |text| && forall i :: 0 <= i < n ==> !IsSpace(text[i])
    ensures Unspaced(text) == text[..n] + Unspaced(text[n..])
  {
    if n > 0 {
      UnspacedWord(text[1..], n - 1);
      assert text[1..][n - 1..] == text[n..] && text[..n] == [text[0]] + text[1..][..n - 1];
    }
  }

  lemma WordThenSpace(w: Word, rest: string)
    requires IsWord(w) && (rest == [] || IsSpace(rest[0]))
    ensures Words(w + rest) == [w] + Words(rest)
  {
    var text := w + rest;
    var n := WordEnd(text);
    assert forall i :: 0 <= i < |w| ==> text[i] == w[i];
    assert rest != [] ==> text[|w|] == rest[0];
    assert text[..n] == w && text[n..] == rest;
    assert text[0] == w[0];
  }

  /** Splitting undoes joining, also when more text follows after a space. */
  lemma {:induction false} WordsOfJoin(ws: seq<Word>, rest: string)
    requires AllWords(ws) && ws != []
    requires rest == [] || IsSpace(rest[0])
    ensures Words(Join(ws) + rest) == ws + Words(rest)
  {
    var w := ws[0];
    if |ws| == 1 {
      WordThenSpace(w, rest);
    } else {
      var more := Join(ws[1..]) + rest;
      var spaced := " " + more;
      assert Join(ws) + rest == w + spaced;
      WordThenSpace(w, spaced);
      assert Words(spaced) == Words(more) by { assert spaced[1..] == more; }
      WordsOfJoin(ws[1..], rest);
      SplitHead(ws, Words(rest));
    }
  }

  lemma SplitHead(ws: seq<Word>, tail: seq<Word>)
    requires ws != []
    ensures [ws[0]] + (ws[1..] + tail) == ws + tail
  {
    assert [ws[0]] + ws[1..] == ws;
  }

  lemma WordsJoinRoundTrip(ws: seq<Word>)
    requires AllWords(ws)
    ensures Words(Join(ws)) == ws
  {
    if ws != [] {
      WordsOfJoin(ws, "");
      assert Join(ws) + "" == Join(ws);
    }
  }

  lemma {:induction false} JoinAppend(xs: seq<Word>, ys: seq<Word>)
    requires xs != [] && ys != []
    ensures Join(xs + ys) == Join(xs) + " " + Join(ys)
  {
    if |xs| == 1 {
      assert (xs + ys)[1..] == ys;
    } else {
      JoinAppend(xs[1..], ys);
      assert (xs + ys)[1..] == xs[1..] + ys;
      assert xs[0] + " " + (Join(xs[1..]) + " " + Join(ys)) == (xs[0] + " " + Join(xs[1..])) + " " + Join(ys);
    }
  }

  datatype Page = Page(number: Option<int>, text: string)
  datatype Chunk = Chunk(page: Option<int>, position: nat, content: string)

  /** TARGET_WORDS, OVERLAP_WORDS and MIN_CHUNK_WORDS. */
  datatype Sizes = Sizes(target: nat, overlap: nat, minimum: nat) {
    predicate Valid() {
      overlap < target && minimum <= overlap + 1
    }
  }

  const DEFAULT := Sizes(380, 48, 20)

  /** The windows of one page: `target` words at a time, each sharing `overlap` words with the one before. */
  function Windows(z: Sizes, words: seq<Word>): (ws: seq<seq<Word>>)
    requires z.Valid()
    ensures |ws| >= 1
    decreases |words|
  {
    if |words| <= z.target then [words]
    else [words[..z.target]] + Windows(z, words[z.target - z.overlap..])
  }

  /** A chunk before its words are joined. */
  datatype Piece = Piece(page: Option<int>, words: seq<Word>)

  function Pieces(page: Option<int>, windows: seq<seq<Word>>): (ps: seq<Piece>)
    ensures |ps| == |windows|
    ensures forall i :: 0 <= i < |ps| ==> ps[i] == Piece(page, windows[i])
  {
    seq(|windows|, i requires 0 <= i < |windows| => Piece(page, windows[i]))
  }

  /** A page of fewer than `minimum` words is merged whole into the last piece, if there is one;
      any other page contributes its windows; a page without words contributes nothing. */
  function AddPage(z: Sizes, pieces: seq<Piece>, page: Option<int>, words: seq<Word>): seq<Piece>
    requires z.Valid()
  {
    if words == [] then pieces
    else if pieces != [] && |words| < z.minimum then
      var last := pieces[|pieces| - 1];
      pieces[..|pieces| - 1] + [last.(words := last.words + words)]
    else pieces + Pieces(page, Windows(z, words))
  }

  function Expected(z: Sizes, pages: seq<Page>): seq<Piece>
    requires z.Valid()
  {
    if pages == [] then []
    else
      var n := |pages| - 1;
      AddPage(z, Expected(z, pages[..n]), pages[n].number, Words(pages[n].text))
  }

  function Rendered(pieces: seq<Piece>): (cs: seq<Chunk>)
    ensures |cs| == |pieces|
    ensures forall i :: 0 <= i < |cs| ==> cs[i] == Chunk(pieces[i].page, i, Join(pieces[i].words))
  {
    seq(|pieces|, i requires 0 <= i < |pieces| => Chunk(pieces[i].page, i, Join(pieces[i].words)))
  }

  lemma RenderedSnoc(pieces: seq<Piece>, q: Piece)
    ensures Rendered(pieces + [q]) == Rendered(pieces) + [Chunk(q.page, |pieces|, Join(q.words))]
  {
  }

  lemma RenderedMerge(pieces: seq<Piece>, words: seq<Word>)
    requires pieces != [] && pieces[|pieces| - 1].words != [] && words != []
    ensures var n := |pieces| - 1;
            var c := Rendered(pieces)[n];
            Rendered(pieces[..n] + [pieces[n].(words := pieces[n].words + words)]) ==
            Rendered(pieces)[..n] + [Chunk(c.page, c.position, c.content + " " + Join(words))]
  {
    var n := |pieces| - 1;
    RenderedSnoc(pieces[..n], pieces[n].(words := pieces[n].words + words));
    assert Rendered(pieces)[..n] == Rendered(pieces[..n]);
    JoinAppend(pieces[n].words, words);
  }

  /** `chunk_pages`: slide a window over each page; a tail of fewer than `minimum` words is merged
      into the last chunk. The loop checks the tail rule at every window, yet only whole pages
      are ever merged: a tail reached after a slide has more than `overlap` words. */
  method ChunkPages(z: Sizes, pages: seq<Page>) returns (chunks: seq<Chunk>)
    requires z.Valid()
    ensures chunks == Rendered(Expected(z, pages))
  {
    chunks := [];
    var position := 0;
    var p := 0;
    while p < |pages|
      invariant 0 <= p <= |pages|
      invariant chunks == Rendered(Expected(z, pages[..p])) && position == |chunks|
    {
      ExpectedSnoc(z, pages, p);
      PiecesHaveWords(z, pages[..p]);
      var words := Words(pages[p].text);
      if words != [] {
        chunks, position := ChunkPage(z, pages[p].number, words, chunks, position, Expected(z, pages[..p]));
      }
      p := p + 1;
    }
    assert pages[..|pages|] == pages;
  }

  lemma ExpectedSnoc(z: Sizes, pages: seq<Page>, p: nat)
    requires z.Valid() && p < |pages|
    ensures Expected(z, pages[..p + 1]) ==
            AddPage(z, Expected(z, pages[..p]), pages[p].number, Words(pages[p].text))
  {
    assert pages[..p + 1][..p] == pages[..p];
  }

  /** The loop over `start` for one page. */
  method ChunkPage(z: Sizes, page: Option<int>, words: seq<Word>, chunks0: seq<Chunk>, position0: nat,
                   ghost pieces: seq<Piece>)
    returns (chunks: seq<Chunk>, position: nat)
    requires z.Valid() && words != []
    requires chunks0 == Rendered(pieces) && position0 == |chunks0|
    requires forall i :: 0 <= i < |pieces| ==> pieces[i].words != []
    ensures chunks == Rendered(AddPage(z, pieces, page, words)) && position == |chunks|
  {
    chunks, position := chunks0, position0;
    var start := 0;
    ghost var e := 0;
    assert words[0..] == words && Emitted(z, pieces, page, words, 0) == pieces;
    while start < |words|
      invariant start < |words| && e <= |Windows(z, words)|
      invariant e == 0 <==> start == 0
      invariant start > 0 ==> z.overlap < |words| - start && z.target < |words|
      invariant chunks == Rendered(Emitted(z, pieces, page, words, e)) && position == |chunks|
      invariant Windows(z, words)[e..] == Windows(z, words[start..])
      decreases |words| - start
    {
      var stop := if start + z.target < |words| then start + z.target else |words|;
      var window := words[start..stop];
      var isTail := start + z.target >= |words|;
      if chunks != [] && isTail && |window| < z.minimum {
        assert start == 0 && window == words;
        var previous := chunks[|chunks| - 1];
        MergedPage(z, pieces, page, words);
        chunks := chunks[..|chunks| - 1] + [Chunk(previous.page, previous.position, previous.content + " " + Join(window))];
        return;
      }
      WindowAt(z, words, start, e);
      EmittedSnoc(z, pieces, page, words, e);
      chunks := chunks + [Chunk(page, position, Join(window))];
      position := position + 1;
      if isTail {
        LastWindow(z, pieces, page, words);
        return;
      }
      e := e + 1;
      start := start + (z.target - z.overlap);
    }
    assert false;
  }

  /** A short page after others is merged into the last chunk. */
  lemma MergedPage(z: Sizes, pieces: seq<Piece>, page: Option<int>, words: seq<Word>)
    requires z.Valid() && pieces != [] && words != [] && |words| < z.minimum && pieces[|pieces| - 1].words != []
    ensures var chunks := Rendered(pieces);
            var c := chunks[|pieces| - 1];
            Rendered(AddPage(z, pieces, page, words)) ==
            chunks[..|pieces| - 1] + [Chunk(c.page, c.position, c.content + " " + Join(words))]
  {
    RenderedMerge(pieces, words);
  }

  /** Any other page gives its windows. */
  lemma LastWindow(z: Sizes, pieces: seq<Piece>, page: Option<int>, words: seq<Word>)
    requires z.Valid() && words != [] && (pieces == [] || |words| >= z.minimum)
    ensures Emitted(z, pieces, page, words, |Windows(z, words)|) == AddPage(z, pieces, page, words)
  {
    AllEmitted(z, pieces, page, words);
  }

  /** The pieces after the first e windows of the page. */
  ghost function Emitted(z: Sizes, pieces: seq<Piece>, page: Option<int>, words: seq<Word>, e: nat): seq<Piece>
    requires z.Valid() && e <= |Windows(z, words)|
  {
    pieces + Pieces(page, Windows(z, words))[..e]
  }

  /** The window at `start` is the e-th window of the page, and the last one exactly when it is a tail. */
  lemma WindowAt(z: Sizes, words: seq<Word>, start: nat, e: nat)
    requires z.Valid() && start < |words| && e <= |Windows(z, words)|
    requires Windows(z, words)[e..] == Windows(z, words[start..])
    ensures e < |Windows(z, words)|
    ensures Windows(z, words)[e] == words[start..if start + z.target < |words| then start + z.target else |words|]
    ensures if start + z.target >= |words| then e + 1 == |Windows(z, words)|
            else Windows(z, words)[e + 1..] == Windows(z, words[start + (z.target - z.overlap)..])
  {
    var here := words[start..];
    assert Windows(z, words)[e] == Windows(z, words)[e..][0];
    if start + z.target < |words| {
      assert here[..z.target] == words[start..start + z.target];
      assert here[z.target - z.overlap..] == words[start + (z.target - z.overlap)..];
      assert Windows(z, words)[e + 1..] == Windows(z, words)[e..][1..];
    }
  }

  lemma EmittedSnoc(z: Sizes, pieces: seq<Piece>, page: Option<int>, words: seq<Word>, e: nat)
    requires z.Valid() && e < |Windows(z, words)|
    ensures var done := Emitted(z, pieces, page, words, e);
            Rendered(Emitted(z, pieces, page, words, e + 1)) ==
            Rendered(done) + [Chunk(page, |done|, Join(Windows(z, words)[e]))]
  {
    var all := Pieces(page, Windows(z, words));
    assert pieces + all[..e + 1] == pieces + all[..e] + [all[e]];
    RenderedSnoc(pieces + all[..e], all[e]);
  }

  lemma AllEmitted(z: Sizes, pieces: seq<Piece>, page: Option<int>, words: seq<Word>)
    requires z.Valid()
    ensures var ws := Windows(z, words);
            Emitted(z, pieces, page, words, |ws|) == pieces + Pieces(page, ws)
  {
    var all := Pieces(page, Windows(z, words));
    assert all[..|all|] == all;
  }

  lemma {:induction false} PiecesHaveWords(z: Sizes, pages: seq<Page>)
    requires z.Valid()
    ensures forall q :: q in Expected(z, pages) ==> q.words != [] && AllWords(q.words)
  {
    if pages != [] {
      var n := |pages| - 1;
      PiecesHaveWords(z, pages[..n]);
      var words := Words(pages[n].text);
      if words != [] {
        WindowsAreParts(z, words);
      }
    }
  }

  lemma {:induction false} WindowsAreParts(z: Sizes, words: seq<Word>)
    requires z.Valid() && words != [] && AllWords(words)
    ensures forall w :: w in Windows(z, words) ==> w != [] && AllWords(w)
    decreases |words|
  {
    if |words| > z.target {
      WindowsAreParts(z, words[z.target - z.overlap..]);
    }
  }

  // What the chunks mean.

  /** Size of every window, and their number k: one, or the k with
      (k - 1) * step < n - overlap <= k * step, which is ceil((n - overlap) / step). */
  lemma {:induction false} WindowSizes(z: Sizes, words: seq<Word>)
    requires z.Valid()
    ensures var ws := Windows(z, words);
            && (forall i :: 0 <= i < |ws| - 1 ==> |ws[i]| == z.target)
            && (|ws| > 1 ==> z.overlap < |ws[|ws| - 1]| <= z.target)
            && (|words| <= z.target ==> |ws| == 1)
            && (|words| > z.target ==>
                  (|ws| - 1) * (z.target - z.overlap) < |words| - z.overlap <= |ws| * (z.target - z.overlap))
    decreases |words|
  {
    if |words| > z.target {
      var step := z.target - z.overlap;
      var rest := Windows(z, words[step..]);
      WindowSizes(z, words[step..]);
      assert Windows(z, words) == [words[..z.target]] + rest;
      assert (|rest| - 1) * step + step == |rest| * step;
      assert |rest| * step + step == (|rest| + 1) * step;
    }
  }

  /** The e-th window starts e steps from the first. */
  function WindowStart(z: Sizes, e: nat): nat
    requires z.Valid()
  {
    if e == 0 then 0 else WindowStart(z, e - 1) + (z.target - z.overlap)
  }

  lemma {:induction false} DefaultStart(e: nat)
    ensures WindowStart(DEFAULT, e) == 332 * e
  {
    if e > 0 {
      DefaultStart(e - 1);
    }
  }

  /** So much of the text from `start` on as fits into a window. */
  function Cut(words: seq<Word>, start: nat, target: nat): seq<Word>
    requires start <= |words|
  {
    words[start..if start + target < |words| then start + target else |words|]
  }

  lemma CutOfRest(words: seq<Word>, step: nat, start: nat, target: nat)
    requires step + start <= |words|
    ensures Cut(words[step..], start, target) == Cut(words, step + start, target)
  {
  }

  /** Where each window lies. */
  lemma {:induction false} WindowLies(z: Sizes, words: seq<Word>, e: nat)
    requires z.Valid() && e < |Windows(z, words)|
    ensures WindowStart(z, e) <= |words| && Windows(z, words)[e] == Cut(words, WindowStart(z, e), z.target)
    decreases e
  {
    if |words| > z.target && e > 0 {
      var step := z.target - z.overlap;
      WindowLies(z, words[step..], e - 1);
      CutOfRest(words, step, WindowStart(z, e - 1), z.target);
    }
  }

  /** What a page adds with the shipped constants: nothing without words; its words, to the last chunk if there is one,
      if it has fewer than 20; and otherwise windows of 380 words every 332. */
  lemma DefaultPage(pieces: seq<Piece>, page: Option<int>, words: seq<Word>)
    ensures var after := AddPage(DEFAULT, pieces, page, words);
            if words == [] then after == pieces
            else if pieces != [] && |words| < 20 then
              var n := |pieces| - 1;
              after == pieces[..n] + [Piece(pieces[n].page, pieces[n].words + words)]
            else
              && pieces <= after
              && (forall e :: 0 <= e < |after| - |pieces| ==> after[|pieces| + e] == DefaultWindow(page, words, e))
              && 332 * (|after| - |pieces| - 1) < |words| <= 332 * (|after| - |pieces| - 1) + 380
  {
    if words != [] && !(pieces != [] && |words| < 20) {
      WindowSizes(DEFAULT, words);
      var ws := Windows(DEFAULT, words);
      forall e | 0 <= e < |ws| ensures Pieces(page, ws)[e] == DefaultWindow(page, words, e) {
        WindowLies(DEFAULT, words, e);
        DefaultStart(e);
      }
    }
  }

  /** The e-th window of a page, of words 332 * e up to 332 * e + 380 or the end. */
  function DefaultWindow(page: Option<int>, words: seq<Word>, e: int): Piece {
    if 0 <= 332 * e <= |words| then
      Piece(page, words[332 * e..if 332 * e + 380 < |words| then 332 * e + 380 else |words|])
    else Piece(page, [])
  }

  /** There are chunks exactly if some page has words. */
  lemma {:induction false} ChunksIffWords(z: Sizes, pages: seq<Page>)
    requires z.Valid()
    ensures Expected(z, pages) != [] <==> exists i :: 0 <= i < |pages| && Words(pages[i].text) != []
  {
    if pages != [] {
      var n := |pages| - 1;
      ChunksIffWords(z, pages[..n]);
      assert (exists i :: 0 <= i < n && Words(pages[..n][i].text) != []) <==>
             (exists i :: 0 <= i < n && Words(pages[i].text) != []);
      assert Words(pages[n].text) != [] ==> Expected(z, pages) != [];
    }
  }

  /** With the shipped constants, a page of n > 380 words gives ceil((n - 48) / 332) chunks. */
  lemma DefaultWindowCount(words: seq<Word>)
    requires |words| > 380
    ensures |Windows(DEFAULT, words)| == (|words| - 48 + 331) / 332
  {
    WindowSizes(DEFAULT, words);
  }

  /** Every chunk but the first has at least `minimum` words. */
  lemma {:induction false} NoTinyChunks(z: Sizes, pages: seq<Page>)
    requires z.Valid()
    ensures var cs := Rendered(Expected(z, pages));
            forall i :: 1 <= i < |cs| ==> |Words(cs[i].content)| >= z.minimum
  {
    NoTinyPieces(z, pages);
    PiecesHaveWords(z, pages);
    var ps := Expected(z, pages);
    forall i | 1 <= i < |ps| ensures |Words(Rendered(ps)[i].content)| >= z.minimum {
      WordsJoinRoundTrip(ps[i].words);
      assert |ps[i].words| >= z.minimum;
      assert Rendered(ps)[i].content == Join(ps[i].words);
    }
  }

  ghost predicate LongFrom(minimum: nat, ps: seq<Piece>, from: nat) {
    forall i :: from <= i < |ps| ==> |ps[i].words| >= minimum
  }

  lemma {:induction false} NoTinyPieces(z: Sizes, pages: seq<Page>)
    requires z.Valid()
    ensures LongFrom(z.minimum, Expected(z, pages), 1)
  {
    if pages != [] {
      var n := |pages| - 1;
      NoTinyPieces(z, pages[..n]);
      var words := Words(pages[n].text);
      NoTinyWindows(z, words);
      var before, ws := Expected(z, pages[..n]), Windows(z, words);
      if words != [] && (before == [] || |words| >= z.minimum) {
        var ps := before + Pieces(pages[n].number, ws);
        assert Expected(z, pages) == ps;
        forall i | 1 <= i < |ps| ensures |ps[i].words| >= z.minimum {
          if i >= |before| { assert ps[i].words == ws[i - |before|]; }
        }
      }
    }
  }

  ghost predicate NoneShorter(minimum: nat, ws: seq<seq<Word>>, from: nat) {
    forall i :: from <= i < |ws| ==> |ws[i]| >= minimum
  }

  lemma NoTinyWindows(z: Sizes, words: seq<Word>)
    requires z.Valid()
    ensures NoneShorter(z.minimum, Windows(z, words), if |words| >= z.minimum then 0 else 1)
  {
    WindowSizes(z, words);
    if |words| <= z.target {
      assert Windows(z, words) == [words];
    }
  }

  function Drop<T>(s: seq<T>, n: nat): seq<T> {
    if n <= |s| then s[n..] else []
  }

  /** The words a chunk of `page` adds: if the chunk before it (None at the start) is of the same
      page, its first `overlap` words repeat that one. */
  function Fresh(overlap: nat, before: Option<Option<int>>, page: Option<int>, words: seq<Word>): seq<Word> {
    if before == Some(page) then Drop(words, overlap) else words
  }

  /** Reading the document back from its chunks alone. */
  function Recover(overlap: nat, before: Option<Option<int>>, chunks: seq<Chunk>): seq<Word>
    decreases |chunks|
  {
    if chunks == [] then []
    else
      var c := chunks[0];
      Fresh(overlap, before, c.page, Words(c.content)) + Recover(overlap, Some(c.page), chunks[1..])
  }

  function RecoverPieces(overlap: nat, before: Option<Option<int>>, pieces: seq<Piece>): seq<Word>
    decreases |pieces|
  {
    if pieces == [] then []
    else
      var q := pieces[0];
      Fresh(overlap, before, q.page, q.words) + RecoverPieces(overlap, Some(q.page), pieces[1..])
  }

  function LastPage(before: Option<Option<int>>, pieces: seq<Piece>): Option<Option<int>> {
    if pieces == [] then before else Some(pieces[|pieces| - 1].page)
  }

  lemma RecoverHead(overlap: nat, before: Option<Option<int>>, q: Piece, rest: seq<Piece>)
    ensures RecoverPieces(overlap, before, [q] + rest) ==
            Fresh(overlap, before, q.page, q.words) + RecoverPieces(overlap, Some(q.page), rest)
    ensures LastPage(before, [q] + rest) == LastPage(Some(q.page), rest)
  {
    assert ([q] + rest)[1..] == rest;
  }

  lemma RecoverJoin(overlap: nat, before: Option<Option<int>>, q: Piece, rest: seq<Piece>, ys: seq<Piece>,
                    tail: seq<Word>)
    requires RecoverPieces(overlap, Some(q.page), rest + ys) == RecoverPieces(overlap, Some(q.page), rest) + tail
    ensures RecoverPieces(overlap, before, ([q] + rest) + ys) == RecoverPieces(overlap, before, [q] + rest) + tail
  {
    RecoverHead(overlap, before, q, rest);
    RecoverHead(overlap, before, q, rest + ys);
    Assoc([q], rest, ys);
    Assoc(Fresh(overlap, before, q.page, q.words), RecoverPieces(overlap, Some(q.page), rest), tail);
  }

  lemma {:induction false} RecoverAppend(overlap: nat, before: Option<Option<int>>, xs: seq<Piece>, ys: seq<Piece>)
    ensures RecoverPieces(overlap, before, xs + ys) ==
            RecoverPieces(overlap, before, xs) + RecoverPieces(overlap, LastPage(before, xs), ys)
    decreases |xs|
  {
    if xs == [] {
      assert xs + ys == ys;
    } else {
      var q, rest := xs[0], xs[1..];
      RecoverAppend(overlap, Some(q.page), rest, ys);
      RecoverHead(overlap, before, q, rest);
      RecoverJoin(overlap, before, q, rest, ys, RecoverPieces(overlap, LastPage(Some(q.page), rest), ys));
      assert [q] + rest == xs;
    }
  }

  lemma RecoverOne(overlap: nat, before: Option<Option<int>>, q: Piece)
    ensures RecoverPieces(overlap, before, [q]) == Fresh(overlap, before, q.page, q.words)
  {
    assert RecoverPieces(overlap, Some(q.page), [q][1..]) == [];
  }

  /** The windows of a page, read back, are the page (or the part of it not seen before). */
  lemma {:induction false} RecoverWindows(z: Sizes, before: Option<Option<int>>, page: Option<int>, words: seq<Word>)
    requires z.Valid()
    requires before == Some(page) ==> z.overlap <= |words|
    ensures RecoverPieces(z.overlap, before, Pieces(page, Windows(z, words))) == Fresh(z.overlap, before, page, words)
    decreases |words|
  {
    if |words| <= z.target {
      assert Pieces(page, Windows(z, words)) == [Piece(page, words)];
      RecoverOne(z.overlap, before, Piece(page, words));
    } else {
      var w, rest := words[..z.target], words[z.target - z.overlap..];
      RecoverWindows(z, Some(page), page, rest);
      assert Pieces(page, Windows(z, words))[1..] == Pieces(page, Windows(z, rest));
      FreshSplits(z, before, page, words);
    }
  }

  lemma FreshSplits(z: Sizes, before: Option<Option<int>>, page: Option<int>, words: seq<Word>)
    requires z.Valid() && |words| > z.target
    ensures Fresh(z.overlap, before, page, words) ==
            Fresh(z.overlap, before, page, words[..z.target]) +
            Fresh(z.overlap, Some(page), page, words[z.target - z.overlap..])
  {
    assert words[z.target - z.overlap..][z.overlap..] == words[z.target..];
    assert words == words[..z.target] + words[z.target..];
    assert words[z.overlap..] == words[..z.target][z.overlap..] + words[z.target..];
  }

  lemma RecoverSnoc(overlap: nat, xs: seq<Piece>, q: Piece)
    ensures RecoverPieces(overlap, None, xs + [q]) ==
            RecoverPieces(overlap, None, xs) + Fresh(overlap, LastPage(None, xs), q.page, q.words)
  {
    RecoverAppend(overlap, None, xs, [q]);
    RecoverOne(overlap, LastPage(None, xs), q);
  }

  lemma RecoverMerge(overlap: nat, pieces: seq<Piece>, words: seq<Word>)
    requires pieces != []
    requires var n := |pieces| - 1;
             n > 0 && pieces[n - 1].page == pieces[n].page ==> overlap <= |pieces[n].words|
    ensures var n := |pieces| - 1;
            RecoverPieces(overlap, None, pieces[..n] + [pieces[n].(words := pieces[n].words + words)]) ==
            RecoverPieces(overlap, None, pieces) + words
  {
    var n := |pieces| - 1;
    var q, xs := pieces[n], pieces[..n];
    var before := LastPage(None, xs);
    var longer := q.(words := q.words + words);
    RecoverSnoc(overlap, xs, longer);
    RecoverSnoc(overlap, xs, q);
    assert xs + [q] == pieces;
    assert overlap <= |q.words| ==> Drop(q.words + words, overlap) == Drop(q.words, overlap) + words;
    Assoc(RecoverPieces(overlap, None, xs), Fresh(overlap, before, q.page, q.words), words);
  }

  /** Pages are numbered apart, as both branches of `extract_pages` do. */
  ghost predicate NumberedApart(pages: seq<Page>) {
    forall i, j :: 0 <= i < j < |pages| ==> pages[i].number != pages[j].number
  }

  function AllPageWords(pages: seq<Page>): seq<Word> {
    if pages == [] then []
    else AllPageWords(pages[..|pages| - 1]) + Words(pages[|pages| - 1].text)
  }

  /** Every piece comes from a page, and a piece of the same page as the one before repeats `overlap` words. */
  ghost predicate Sound(z: Sizes, pages: seq<Page>, ps: seq<Piece>) {
    && (forall k :: 0 <= k < |ps| ==> exists i :: 0 <= i < |pages| && pages[i].number == ps[k].page)
    && (forall k :: 1 <= k < |ps| && ps[k - 1].page == ps[k].page ==> z.overlap <= |ps[k].words|)
  }

  /** What one page adds, given what the pieces before it satisfy. */
  lemma SoundPage(z: Sizes, pages: seq<Page>, n: nat, before: seq<Piece>, words: seq<Word>)
    requires z.Valid() && NumberedApart(pages) && |pages| == n + 1 && Sound(z, pages[..n], before)
    ensures Sound(z, pages, AddPage(z, before, pages[n].number, words))
    ensures before != [] ==> before[|before| - 1].page != pages[n].number
  {
    assert forall i :: 0 <= i < n ==> pages[..n][i] == pages[i];
    var ps := AddPage(z, before, pages[n].number, words);
    WindowSizes(z, words);
    forall k | 0 <= k < |ps| ensures exists i :: 0 <= i < |pages| && pages[i].number == ps[k].page {
      if k < |before| {
        var i :| 0 <= i < n && pages[..n][i].number == before[k].page;
        assert pages[i].number == ps[k].page;
      } else {
        assert pages[n].number == ps[k].page;
      }
    }
  }

  lemma {:induction false} RecoverExpected(z: Sizes, pages: seq<Page>)
    requires z.Valid() && NumberedApart(pages)
    ensures Sound(z, pages, Expected(z, pages))
    ensures RecoverPieces(z.overlap, None, Expected(z, pages)) == AllPageWords(pages)
  {
    if pages != [] {
      var n := |pages| - 1;
      RecoverExpected(z, pages[..n]);
      var before, words := Expected(z, pages[..n]), Words(pages[n].text);
      SoundPage(z, pages, n, before, words);
      if words == [] {
      } else if before != [] && |words| < z.minimum {
        RecoverMerge(z.overlap, before, words);
      } else {
        RecoverAppend(z.overlap, None, before, Pieces(pages[n].number, Windows(z, words)));
        RecoverWindows(z, LastPage(None, before), pages[n].number, words);
      }
    }
  }

  lemma {:induction false} RecoverRendered(overlap: nat, before: Option<Option<int>>, pieces: seq<Piece>,
                                           chunks: seq<Chunk>)
    requires |chunks| == |pieces|
    requires forall i :: 0 <= i < |pieces| ==> AllWords(pieces[i].words)
    requires forall i :: 0 <= i < |pieces| ==> chunks[i].page == pieces[i].page && chunks[i].content == Join(pieces[i].words)
    ensures Recover(overlap, before, chunks) == RecoverPieces(overlap, before, pieces)
    decreases |pieces|
  {
    if pieces != [] {
      WordsJoinRoundTrip(pieces[0].words);
      RecoverRendered(overlap, Some(pieces[0].page), pieces[1..], chunks[1..]);
    }
  }

  /** Nothing is lost, repeated or reordered: from the chunks alone one reads back the words of all
      pages, in order. */
  lemma ChunkingLosesNothing(z: Sizes, pages: seq<Page>)
    requires z.Valid() && NumberedApart(pages)
    ensures Recover(z.overlap, None, Rendered(Expected(z, pages))) == AllPageWords(pages)
  {
    var ps := Expected(z, pages);
    PiecesHaveWords(z, pages);
    assert forall i :: 0 <= i < |ps| ==> ps[i] in ps;
    RecoverExpected(z, pages);
    RecoverRendered(z.overlap, None, ps, Rendered(ps));
  }
}
