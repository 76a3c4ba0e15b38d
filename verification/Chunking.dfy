/** chunk_text: cut a text into overlapping windows that prefer to end at a line break. */
module Chunking {
  import opened Normalizing
  import opened Text
  import opened Wrappers

  const CHUNK_CHARS: nat := 1200
  const OVERLAP_CHARS: nat := 150

  datatype Chunk = Chunk(index: nat, content: string, sectionTitle: Option<string>)

  datatype ChunkResult = Chunks(chunks: seq<Chunk>) | BadSizes

  /** A half-open range of the normalised text. */
  datatype Window = Window(start: nat, end: nat)

  // ---- Headings -----------------------------------------------------------------------------

  function Heading(lines: seq<string>): Option<string> {
    if lines == [] then None
    else if lines[0] != [] && lines[0][0] == '#' then
      var title := Strip(WithoutHashes(lines[0]));
      if title == [] then None else Some(title)
    else Heading(lines[1..])
  }

  function WithoutHashes(s: string): string {
    if s != [] && (s[0] == '#' || s[0] == ' ') then WithoutHashes(s[1..]) else s
  }

  predicate IsHeading(line: string) {
    line != "" && line[0] == '#'
  }

  predicate IsMark(c: char) {
    c == '#' || c == ' '
  }

  /** The heading that a line starting with hashes carries: what is left between marks in front and
      white space around. */
  ghost predicate Titles(line: string, title: Option<string>) {
    exists n: nat ::
      && n <= |line| && (forall i | 0 <= i < n :: IsMark(line[i])) && (n < |line| ==> !IsMark(line[n]))
      && title == if Strip(line[n..]) == "" then None else Some(Strip(line[n..]))
  }

  lemma {:induction false} HashesCut(line: string) returns (n: nat)
    ensures n <= |line| && (forall i | 0 <= i < n :: IsMark(line[i])) && (n < |line| ==> !IsMark(line[n]))
    ensures WithoutHashes(line) == line[n..]
  {
    n := 0;
    if line != [] && IsMark(line[0]) {
      n := HashesCut(line[1..]);
      assert line[1..][n..] == line[n + 1..];
      n := n + 1;
    }
  }

  ghost predicate IsFirstHeading(lines: seq<string>, i: int) {
    0 <= i < |lines| && IsHeading(lines[i]) && forall j | 0 <= j < i :: !IsHeading(lines[j])
  }

  /** The section title is the first heading, if there is one. */
  lemma {:induction false} HeadingIsFirst(lines: seq<string>)
    ensures if exists i | 0 <= i < |lines| :: IsHeading(lines[i])
      then exists i :: IsFirstHeading(lines, i) && Titles(lines[i], Heading(lines))
      else Heading(lines) == None
  {
    if lines != [] {
      if IsHeading(lines[0]) {
        var n := HashesCut(lines[0]);
        assert IsFirstHeading(lines, 0) && Titles(lines[0], Heading(lines));
      } else {
        HeadingIsFirst(lines[1..]);
        assert forall i | 0 < i < |lines| :: lines[i] == lines[1..][i - 1];
        if i :| IsFirstHeading(lines[1..], i) && Titles(lines[1..][i], Heading(lines[1..])) {
          assert IsFirstHeading(lines, i + 1);
        }
      }
    }
  }

  // ---- Windows ------------------------------------------------------------------------------

  /** str.rfind("\n", lo, hi) */
  function LastBreak(text: string, lo: nat, hi: nat): (r: Option<nat>)
    requires hi <= |text|
    ensures match r
      case Some(b) => lo <= b < hi && text[b] == '\n' && forall i | b < i < hi :: text[i] != '\n'
      case None => forall i | lo <= i < hi :: text[i] != '\n'
    decreases hi
  {
    if hi <= lo then None
    else if text[hi - 1] == '\n' then Some(hi - 1)
    else LastBreak(text, lo, hi - 1)
  }

  function Min(a: nat, b: nat): nat {
    if a < b then a else b
  }

  function Max(a: int, b: int): int {
    if a < b then b else a
  }

  function WindowEnd(text: string, start: nat, size: nat, overlap: nat): (end: nat)
    requires start < |text| && overlap < size
    ensures start < end <= |text| && end <= start + size
  {
    var full := Min(start + size, |text|);
    if full == |text| then full
    else
      match LastBreak(text, start + overlap, full)
      case Some(b) => if b > start then b else full
      case None => full
  }

  function NextStart(start: nat, end: nat, overlap: nat): (next: nat)
    ensures next > start
  {
    Max(end - overlap, start + 1)
  }

  predicate WithinText(text: string, windows: seq<Window>) {
    forall i | 0 <= i < |windows| :: windows[i].start < windows[i].end <= |text|
  }

  /** The windows the loop visits from `start` on. */
  function Windows(text: string, start: nat, size: nat, overlap: nat): (windows: seq<Window>)
    requires overlap < size
    ensures WithinText(text, windows)
    ensures forall i | 0 <= i < |windows| :: windows[i].end <= windows[i].start + size
    decreases |text| - start
  {
    if start >= |text| then []
    else
      var end := WindowEnd(text, start, size, overlap);
      [Window(start, end)] +
        if end == |text| then [] else Windows(text, NextStart(start, end, overlap), size, overlap)
  }

  /** A stripped window and the first heading in it. */
  datatype Piece = Piece(content: string, sectionTitle: Option<string>)

  function PieceOf(text: string, window: Window): Piece
    requires window.start <= window.end <= |text|
  {
    var content := Strip(text[window.start..window.end]);
    Piece(content, Heading(Lines(content)))
  }

  function Pieces(text: string, windows: seq<Window>): (pieces: seq<Piece>)
    requires WithinText(text, windows)
    ensures |pieces| == |windows|
    ensures forall i | 0 <= i < |pieces| :: pieces[i] == PieceOf(text, windows[i])
  {
    if windows == [] then [] else [PieceOf(text, windows[0])] + Pieces(text, windows[1..])
  }

  /** The non-blank pieces, numbered from `index`. */
  function Numbered(pieces: seq<Piece>, index: nat): seq<Chunk> {
    if pieces == [] then []
    else if pieces[0].content == [] then Numbered(pieces[1..], index)
    else [Chunk(index, pieces[0].content, pieces[0].sectionTitle)] + Numbered(pieces[1..], index + 1)
  }

  function ChunksOf(text: string, size: nat, overlap: nat): seq<Chunk>
    requires overlap < size
  {
    Numbered(Pieces(text, Windows(text, 0, size, overlap)), 0)
  }

  lemma NumberedFirst(pieces: seq<Piece>, chunks: seq<Chunk>)
    requires pieces != []
    ensures var piece := pieces[0];
      var more := if piece.content == [] then chunks
                  else chunks + [Chunk(|chunks|, piece.content, piece.sectionTitle)];
      chunks + Numbered(pieces, |chunks|) == more + Numbered(pieces[1..], |more|)
  {
    var first := Chunk(|chunks|, pieces[0].content, pieces[0].sectionTitle);
    var rest := Numbered(pieces[1..], |chunks| + 1);
    assert chunks + ([first] + rest) == chunks + [first] + rest;
  }

  method FindEnd(text: string, start: nat, size: nat, overlap: nat) returns (end: nat)
    requires start < |text| && overlap < size
    ensures end == WindowEnd(text, start, size, overlap)
    ensures start < end <= |text| && end <= start + size
    ensures |text| <= start + size ==> end == |text|
    ensures start + size < |text| && end < start + size ==> text[end] == '\n' && start + overlap <= end
    ensures start + size < |text| ==>
      forall k | start < k && start + overlap <= k && end < k < start + size :: text[k] != '\n'
    ensures start + size < |text| && end == start + size ==>
      forall k | start < k && start + overlap <= k < start + size :: text[k] != '\n'
  {
    end := Min(start + size, |text|);
    if end < |text| {
      var boundary := LastBreak(text, start + overlap, end);
      if boundary.Some? && boundary.value > start {
        end := boundary.value;
      }
    }
  }

  /** The pieces still to come when the loop stands at `start`. */
  ghost function Ahead(text: string, start: nat, size: nat, overlap: nat): seq<Piece>
    requires overlap < size
  {
    Pieces(text, Windows(text, start, size, overlap))
  }

  lemma AheadUnrolled(text: string, start: nat, size: nat, overlap: nat)
    requires overlap < size && start < |text|
    ensures var end := WindowEnd(text, start, size, overlap);
      Ahead(text, start, size, overlap) == [PieceOf(text, Window(start, end))] +
        if end == |text| then [] else Ahead(text, NextStart(start, end, overlap), size, overlap)
  {
    var end := WindowEnd(text, start, size, overlap);
    var rest := if end == |text| then [] else Windows(text, NextStart(start, end, overlap), size, overlap);
    var windows := Windows(text, start, size, overlap);
    assert windows == [Window(start, end)] + rest && windows[1..] == rest;
  }

  /** The loop of chunk_text computes exactly the chunks of its windows. */
  method CutText(text: string, size: nat, overlap: nat) returns (chunks: seq<Chunk>)
    requires overlap < size
    ensures chunks == ChunksOf(text, size, overlap)
  {
    chunks := [];
    var start: nat := 0;
    ghost var ahead := Ahead(text, 0, size, overlap);
    while start < |text|
      invariant ahead == Ahead(text, start, size, overlap)
      invariant ChunksOf(text, size, overlap) == chunks + Numbered(ahead, |chunks|)
      decreases |text| - start
    {
      AheadUnrolled(text, start, size, overlap);
      NumberedFirst(ahead, chunks);
      var end := FindEnd(text, start, size, overlap);
      var piece := PieceOf(text, Window(start, end));
      assert ahead[0] == piece;
      if piece.content != [] {
        chunks := chunks + [Chunk(|chunks|, piece.content, piece.sectionTitle)];
      }
      ahead := ahead[1..];
      if end == |text| {
        assert ahead == [];
        break;
      }
      start := NextStart(start, end, overlap);
    }
    assert Numbered([], |chunks|) == [];
  }

  // ---- What the windows promise -------------------------------------------------------------

  /** The text behind a series of windows, with the part each one shares with its predecessor cut. */
  function Stitched(text: string, windows: seq<Window>, from: nat): string
    requires WithinText(text, windows)
  {
    if windows == [] then []
    else
      var w := windows[0];
      (if from <= w.end then text[Max(from, w.start)..w.end] else []) + Stitched(text, windows[1..], w.end)
  }

  /** Consecutive windows leave no gap, overlap by at most `overlap`, and never move back. */
  predicate Linked(windows: seq<Window>, overlap: nat) {
    forall i | 0 < i < |windows| ::
      && windows[i - 1].start < windows[i].start <= windows[i - 1].end <= windows[i].end
      && windows[i - 1].end - windows[i].start <= overlap
  }

  lemma NextWindow(text: string, start: nat, size: nat, overlap: nat)
    requires overlap < size && start < |text| && WindowEnd(text, start, size, overlap) < |text|
    ensures var end := WindowEnd(text, start, size, overlap);
      var next := NextStart(start, end, overlap);
      && next <= end && end - next <= overlap
      && end <= WindowEnd(text, next, size, overlap)
  {
  }

  lemma LinkFront(window: Window, windows: seq<Window>, overlap: nat)
    requires windows != [] && Linked(windows, overlap)
    requires window.start < windows[0].start <= window.end <= windows[0].end
    requires window.end - windows[0].start <= overlap
    ensures Linked([window] + windows, overlap)
  {
    var all := [window] + windows;
    assert forall i | 0 < i < |all| :: all[i] == windows[i - 1];
  }

  lemma {:induction false} WindowsAreLinked(text: string, start: nat, size: nat, overlap: nat)
    requires overlap < size && start < |text|
    ensures var windows := Windows(text, start, size, overlap);
      && windows != [] && windows[0] == Window(start, WindowEnd(text, start, size, overlap))
      && windows[|windows| - 1].end == |text|
      && Linked(windows, overlap)
    decreases |text| - start
  {
    var end := WindowEnd(text, start, size, overlap);
    if end < |text| {
      var next := NextStart(start, end, overlap);
      NextWindow(text, start, size, overlap);
      WindowsAreLinked(text, next, size, overlap);
      LinkFront(Window(start, end), Windows(text, next, size, overlap), overlap);
    }
  }

  /** Cutting the overlaps rebuilds the text from `from` on. */
  lemma {:induction false} WindowsRebuildText(text: string, start: nat, size: nat, overlap: nat, from: nat)
    requires overlap < size && start < |text|
    requires start <= from <= WindowEnd(text, start, size, overlap)
    ensures Stitched(text, Windows(text, start, size, overlap), from) == text[from..]
    decreases |text| - start
  {
    var end := WindowEnd(text, start, size, overlap);
    var windows := Windows(text, start, size, overlap);
    if end < |text| {
      var next := NextStart(start, end, overlap);
      NextWindow(text, start, size, overlap);
      WindowsRebuildText(text, next, size, overlap, end);
      assert windows[1..] == Windows(text, next, size, overlap);
      assert text[from..end] + text[end..] == text[from..];
    } else {
      assert windows[1..] == [];
    }
  }

  /** A window can end where its predecessor did, but never twice in a row. */
  lemma NoDoubleStall(text: string, start: nat, size: nat, overlap: nat)
    requires overlap < size && start < |text|
    requires WindowEnd(text, start, size, overlap) < |text|
    ensures var end := WindowEnd(text, start, size, overlap);
      var second := NextStart(start, end, overlap);
      var secondEnd := WindowEnd(text, second, size, overlap);
      secondEnd == end ==> WindowEnd(text, NextStart(second, secondEnd, overlap), size, overlap) > end
  {
    var end := WindowEnd(text, start, size, overlap);
    var second := NextStart(start, end, overlap);
    NextWindow(text, start, size, overlap);
    if WindowEnd(text, second, size, overlap) == end {
      NextWindow(text, second, size, overlap);
      assert second + overlap == end;
      assert NextStart(second, end, overlap) == second + 1;
    }
  }

  lemma {:induction false} EndsAdvance(text: string, start: nat, size: nat, overlap: nat)
    requires overlap < size && start < |text|
    ensures var windows := Windows(text, start, size, overlap);
      forall i | 2 <= i < |windows| :: windows[i - 2].end < windows[i].end
    decreases |text| - start
  {
    var windows := Windows(text, start, size, overlap);
    var end := WindowEnd(text, start, size, overlap);
    if end < |text| {
      var second := NextStart(start, end, overlap);
      NextWindow(text, start, size, overlap);
      EndsAdvance(text, second, size, overlap);
      assert windows[1..] == Windows(text, second, size, overlap);
      var secondEnd := WindowEnd(text, second, size, overlap);
      if secondEnd < |text| {
        NoDoubleStall(text, start, size, overlap);
        NextWindow(text, second, size, overlap);
        var third := NextStart(second, secondEnd, overlap);
        assert Windows(text, second, size, overlap)[1..] == Windows(text, third, size, overlap);
      }
      forall i | 2 <= i < |windows| ensures windows[i - 2].end < windows[i].end {
        if i > 2 {
          assert windows[i] == windows[1..][i - 1] && windows[i - 2] == windows[1..][i - 3];
        }
      }
    }
  }

  // ---- What the chunks promise --------------------------------------------------------------

  predicate SliceAt(text: string, slice: string, p: nat) {
    p + |slice| <= |text| && text[p..p + |slice|] == slice
  }

  /** A chunk holds position `i` of the text: it is a slice of the text around that position. */
  ghost predicate Holds(text: string, content: string, i: nat) {
    exists p: nat :: SliceAt(text, content, p) && p <= i < p + |content|
  }

  lemma PieceIsSlice(text: string, w: Window) returns (p: nat)
    requires w.start < w.end <= |text|
    ensures var content := PieceOf(text, w).content;
      && w.start <= p && p + |content| <= w.end && SliceAt(text, content, p)
      && (content != [] ==> !IsSpace(content[0]) && !IsSpace(content[|content| - 1]))
      && forall i | w.start <= i < w.end && !IsSpace(text[i]) :: p <= i < p + |content|
  {
    hide Heading, Lines, Strip, StripRight;
    var window := text[w.start..w.end];
    var lo, hi := StripIsSlice(window);
    p := w.start + lo;
    assert window[lo..hi] == text[p..w.start + hi];
    forall i | w.start <= i < w.end && !IsSpace(text[i]) ensures p <= i < w.start + hi {
      assert window[i - w.start] == text[i];
    }
  }

  /** Numbering keeps exactly the non-blank pieces. */
  lemma {:induction false} NumberedChunk(pieces: seq<Piece>, index: nat, k: nat) returns (j: nat)
    requires k < |Numbered(pieces, index)|
    ensures j < |pieces| && pieces[j].content != []
    ensures Numbered(pieces, index)[k] == Chunk(index + k, pieces[j].content, pieces[j].sectionTitle)
  {
    if pieces[0].content == [] {
      j := NumberedChunk(pieces[1..], index, k);
      j := j + 1;
    } else if k == 0 {
      j := 0;
    } else {
      j := NumberedChunk(pieces[1..], index + 1, k - 1);
      j := j + 1;
    }
  }

  lemma {:induction false} PieceIsNumbered(pieces: seq<Piece>, index: nat, j: nat) returns (k: nat)
    requires j < |pieces| && pieces[j].content != []
    ensures k < |Numbered(pieces, index)| && Numbered(pieces, index)[k].content == pieces[j].content
  {
    if pieces[0].content == [] {
      k := PieceIsNumbered(pieces[1..], index, j - 1);
    } else if j == 0 {
      k := 0;
    } else {
      k := PieceIsNumbered(pieces[1..], index + 1, j - 1);
      k := k + 1;
    }
  }

  lemma {:induction false} SomeWindowHolds(windows: seq<Window>, overlap: nat, last: nat, i: nat) returns (w: nat)
    requires last < |windows| && Linked(windows, overlap)
    requires windows[0].start <= i < windows[last].end
    ensures w < |windows| && windows[w].start <= i < windows[w].end
  {
    if last == 0 || i >= windows[last - 1].end {
      w := last;
    } else {
      w := SomeWindowHolds(windows, overlap, last - 1, i);
    }
  }

  predicate ChunkOk(chunk: Chunk, size: nat) {
    && 0 < |chunk.content| <= size
    && !IsSpace(chunk.content[0]) && !IsSpace(chunk.content[|chunk.content| - 1])
  }

  /** For every text and every legal pair of sizes: chunks are numbered from 0, non-empty, at most
      `size` long and stripped. */
  lemma ChunksAreSound(text: string, size: nat, overlap: nat, k: nat)
    requires overlap < size && k < |ChunksOf(text, size, overlap)|
    ensures ChunksOf(text, size, overlap)[k].index == k && ChunkOk(ChunksOf(text, size, overlap)[k], size)
    ensures ChunksOf(text, size, overlap)[k].sectionTitle == Heading(Lines(ChunksOf(text, size, overlap)[k].content))
  {
    hide Heading, Lines, Strip, Windows, Numbered;
    var windows := Windows(text, 0, size, overlap);
    var j := NumberedChunk(Pieces(text, windows), 0, k);
    var p := PieceIsSlice(text, windows[j]);
  }

  /** Every character that is not white space is in some chunk. */
  lemma ChunksCoverText(text: string, size: nat, overlap: nat, i: nat)
    requires overlap < size && i < |text| && !IsSpace(text[i])
    ensures exists k ::
      0 <= k < |ChunksOf(text, size, overlap)| && Holds(text, ChunksOf(text, size, overlap)[k].content, i)
  {
    hide Heading, Lines, Strip, Windows, Numbered;
    var windows := Windows(text, 0, size, overlap);
    WindowsAreLinked(text, 0, size, overlap);
    var w := SomeWindowHolds(windows, overlap, |windows| - 1, i);
    var p := PieceIsSlice(text, windows[w]);
    assert Holds(text, PieceOf(text, windows[w]).content, i);
    var k := PieceIsNumbered(Pieces(text, windows), 0, w);
    assert Holds(text, ChunksOf(text, size, overlap)[k].content, i);
  }

  /** For every text and every legal pair of sizes: the windows start at 0, end at the end, rebuild
      the text once overlaps are cut, overlap by at most `overlap`, and never stall twice. */
  lemma WindowsTileText(text: string, size: nat, overlap: nat)
    requires overlap < size && text != []
    ensures var windows := Windows(text, 0, size, overlap);
      && windows != [] && windows[0].start == 0 && windows[|windows| - 1].end == |text|
      && Linked(windows, overlap)
      && Stitched(text, windows, 0) == text
      && forall i | 2 <= i < |windows| :: windows[i - 2].end < windows[i].end
  {
    WindowsAreLinked(text, 0, size, overlap);
    WindowsRebuildText(text, 0, size, overlap, 0);
    EndsAdvance(text, 0, size, overlap);
    assert text[0..] == text;
  }

  // ---- The whole function -------------------------------------------------------------------

  /** The character of the document stands in a chunk, at the place of the normalised text where it
      ended up: as the same one of the characters that are not white space. */
  ghost predicate InChunks(content: string, i: nat, chunks: seq<Chunk>)
    requires i < |content|
  {
    var text := Normalized(content);
    exists j, k ::
      && 0 <= j < |text| && text[j] == content[i] && Rank(text, j) == Rank(content, i)
      && 0 <= k < |chunks| && Holds(text, chunks[k].content, j)
  }

  lemma ContentInChunks(content: string, size: nat, overlap: nat)
    requires overlap < size
    ensures var chunks := ChunksOf(Normalized(content), size, overlap);
      && (forall i | 0 <= i < |content| && !IsSpace(content[i]) :: InChunks(content, i, chunks))
      && (forall k | 0 <= k < |chunks| ::
            && chunks[k].index == k && ChunkOk(chunks[k], size)
            && chunks[k].sectionTitle == Heading(Lines(chunks[k].content)))
  {
    var text := Normalized(content);
    var chunks := ChunksOf(text, size, overlap);
    forall i: nat | i < |content| && !IsSpace(content[i]) ensures InChunks(content, i, chunks) {
      var j := NormalizedPosition(content, i);
      ChunksCoverText(text, size, overlap, j);
      var k :| 0 <= k < |chunks| && Holds(text, chunks[k].content, j);
    }
    forall k: nat | k < |chunks|
      ensures chunks[k].index == k && ChunkOk(chunks[k], size)
      ensures chunks[k].sectionTitle == Heading(Lines(chunks[k].content))
    {
      ChunksAreSound(text, size, overlap, k);
    }
  }

  lemma BlankContent(content: string)
    ensures Normalized(content) == [] <==> Blank(content)
  {
    NormalizedKeepsText(content);
    NormalizedIsStripped(content);
    if Normalized(content) != [] {
      SolidAt(Normalized(content), 0);
    }
    if Blank(content) {
      SolidBlank(content);
    } else {
      var i: nat :| i < |content| && !IsSpace(content[i]);
      SolidAt(content, i);
    }
  }

  /** chunk_text: normalise, check the sizes, cut. */
  method ChunkText(content: string, chunkChars: int := CHUNK_CHARS, overlapChars: int := OVERLAP_CHARS)
    returns (r: ChunkResult)
    ensures var text := Normalized(content);
      if text == [] then r == Chunks([])
      else if chunkChars <= overlapChars || overlapChars < 0 then r == BadSizes
      else r == Chunks(ChunksOf(text, chunkChars, overlapChars))
    ensures r == BadSizes <==> !Blank(content) && !(0 <= overlapChars < chunkChars)
    ensures r.Chunks? ==> forall i | 0 <= i < |content| && !IsSpace(content[i]) :: InChunks(content, i, r.chunks)
    ensures r.Chunks? ==> forall k | 0 <= k < |r.chunks| ::
      r.chunks[k].index == k && ChunkOk(r.chunks[k], chunkChars)
      && r.chunks[k].sectionTitle == Heading(Lines(r.chunks[k].content))
  {
    var text := Normalized(content);
    BlankContent(content);
    if text != [] && 0 <= overlapChars < chunkChars {
      ContentInChunks(content, chunkChars, overlapChars);
    }
    if text == [] {
      return Chunks([]);
    }
    if chunkChars <= overlapChars || overlapChars < 0 {
      return BadSizes;
    }
    var chunks := CutText(text, chunkChars, overlapChars);
    r := Chunks(chunks);
  }
}
