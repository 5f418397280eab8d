/**
 Cutting text into overlapping windows that prefer to end at a space, and turning the sections of a
 document into numbered chunks.
 */
module Chunking {
  import opened Options
  import Text

  // ---------------------------------------------------------------- the windows

  datatype Window = Window(from: nat, to: nat)

  datatype Settings = Settings(size: nat, overlap: nat)

  predicate Valid(c: Settings) {
    c.size >= 1 && c.overlap < c.size
  }

  function Min(a: int, b: int): int {
    if a < b then a else b
  }

  /** The last space in text[lo..hi], or -1. */
  function RFindSpace(text: string, lo: nat, hi: nat): (r: int)
    requires hi <= |text|
    ensures r == -1 || (lo <= r < hi && text[r] == ' ')
    ensures forall i :: lo <= i < hi && i > r ==> text[i] != ' '
  {
    if hi <= lo then -1 else if text[hi - 1] == ' ' then hi - 1 else RFindSpace(text, lo, hi - 1)
  }

  function WindowEnd(text: string, c: Settings, start: nat): (end: nat)
    requires Valid(c) && start < |text|
    ensures start < end <= |text| && end <= start + c.size
  {
    var end := Min(start + c.size, |text|);
    if end == |text| then end
    else
      var boundary := RFindSpace(text, start + c.size / 2, end);
      if boundary > start then boundary else end
  }

  function NextStart(c: Settings, start: nat, end: nat): nat {
    if end - c.overlap <= start then end else end - c.overlap
  }

  function Windows(text: string, c: Settings, start: nat): seq<Window>
    requires Valid(c)
    decreases |text| - start
  {
    if start >= |text| then []
    else
      var end := WindowEnd(text, c, start);
      [Window(start, end)] + if end == |text| then [] else Windows(text, c, NextStart(c, start, end))
  }

  function Piece(text: string, w: Window): string
    requires w.from <= w.to <= |text|
  {
    text[w.from..w.to]
  }

  predicate Inside(text: string, ws: seq<Window>) {
    forall w <- ws :: w.from <= w.to <= |text|
  }

  /** The pieces, stripped, without those that are blank. */
  function Chunks(text: string, ws: seq<Window>): seq<string>
    requires Inside(text, ws)
  {
    if ws == [] then [] else Kept(Piece(text, ws[0])) + Chunks(text, ws[1..])
  }

  /** A piece without the whitespace around it, or nothing if there is nothing else. */
  function Kept(piece: string): (chunks: seq<string>)
    ensures |chunks| <= 1
  {
    var chunk := Text.Strip(piece);
    if chunk == "" then [] else [chunk]
  }

  // ---------------------------------------------------------------- how the windows lie

  /** One window: not empty, inside the text, and cut at the last usable space of its second half if it has one. */
  predicate WellCut(text: string, c: Settings, w: Window) {
    && w.from < w.to <= |text| && w.to <= w.from + c.size
    && (w.to < |text| ==>
          if w.to < w.from + c.size then
            && text[w.to] == ' ' && w.from + c.size / 2 <= w.to
            && forall i :: w.to < i < w.from + c.size && i < |text| ==> text[i] != ' '
          else
            forall i :: w.from + c.size / 2 <= i < w.to && w.from < i ==> text[i] != ' ')
  }

  lemma WindowIsWellCut(text: string, c: Settings, start: nat)
    requires Valid(c) && start < |text|
    ensures WellCut(text, c, Window(start, WindowEnd(text, c, start)))
  {
  }

  /** How a window follows the one before it. */
  predicate Follows(c: Settings, v: Window, w: Window) {
    && (w.from == v.to || w.from + c.overlap == v.to)
    && v.from < w.from <= v.to <= w.to
  }

  /**
   The next window never ends before this one, although it starts earlier: if this window was cut at
   a space, that space is in the next window's second half or before it; if not, its second half has
   no space at all.
   */
  lemma EndsNeverRetreat(text: string, c: Settings, start: nat)
    requires Valid(c) && start < |text|
    requires WindowEnd(text, c, start) < |text|
    ensures
      var end := WindowEnd(text, c, start);
      var next := NextStart(c, start, end);
      start < next <= end <= WindowEnd(text, c, next)
  {
    var end := WindowEnd(text, c, start);
    var next := NextStart(c, start, end);
    WindowIsWellCut(text, c, start);
    WindowIsWellCut(text, c, next);
  }

  /** The next window ends where this one does: it is cut at the same space, and has no later one. */
  predicate EndsAgain(text: string, c: Settings, end: nat, next: nat) {
    && next < end < |text| && next + c.size / 2 <= end && next + c.size < |text|
    && text[end] == ' ' && forall i :: end < i < next + c.size ==> text[i] != ' '
  }

  /** Exactly then the next window lies inside this one; otherwise it ends later. */
  lemma NextWindowIsNested(text: string, c: Settings, start: nat)
    requires Valid(c) && start < |text|
    requires WindowEnd(text, c, start) < |text|
    ensures
      var end := WindowEnd(text, c, start);
      var next := NextStart(c, start, end);
      && (WindowEnd(text, c, next) == end <==> EndsAgain(text, c, end, next))
      && (c.overlap < c.size / 2 ==> end < WindowEnd(text, c, next))
  {
    var end := WindowEnd(text, c, start);
    var next := NextStart(c, start, end);
    EndsNeverRetreat(text, c, start);
    if EndsAgain(text, c, end, next) {
      var last := RFindSpace(text, next + c.size / 2, next + c.size);
      assert last >= end;
    }
  }

  /** With an overlap of half the size, the second window of this text lies inside the first. */
  lemma WindowInsideWindow()
    ensures
      var c := Settings(4, 2);
      Windows("aaa bbbbbb", c, 0)[..2] == [Window(0, 3), Window(1, 3)]
  {
    var text, c := "aaa bbbbbb", Settings(4, 2);
    assert text[3] == ' ' && text[2] == 'a' && text[4] == 'b';
    assert RFindSpace(text, 2, 4) == 3 && WindowEnd(text, c, 0) == 3;
    assert RFindSpace(text, 3, 5) == 3 && WindowEnd(text, c, 1) == 3;
    assert NextStart(c, 0, 3) == 1;
    assert Windows(text, c, 1)[0] == Window(1, 3);
    assert Windows(text, c, 0) == [Window(0, 3)] + Windows(text, c, 1);
  }

  predicate Tiles(text: string, c: Settings, ws: seq<Window>) {
    && (forall w <- ws :: WellCut(text, c, w))
    && (forall i :: 0 < i < |ws| ==> Follows(c, ws[i - 1], ws[i]))
    && (forall i :: 0 <= i < |ws| - 1 ==> ws[i].to < |text|)
  }

  lemma {:induction false} WindowsTileFrom(text: string, c: Settings, start: nat)
    requires Valid(c) && start < |text|
    ensures
      var ws := Windows(text, c, start);
      ws != [] && ws[0] == Window(start, WindowEnd(text, c, start)) && ws[|ws| - 1].to == |text| && Tiles(text, c, ws)
    decreases |text| - start
  {
    var end := WindowEnd(text, c, start);
    var ws := Windows(text, c, start);
    WindowIsWellCut(text, c, start);
    if end < |text| {
      EndsNeverRetreat(text, c, start);
      var next := NextStart(c, start, end);
      WindowsTileFrom(text, c, next);
      var rest := Windows(text, c, next);
      assert ws == [Window(start, end)] + rest;
      assert Follows(c, ws[0], ws[1]);
      forall i | 0 < i < |ws|
        ensures Follows(c, ws[i - 1], ws[i])
      {
        if i > 1 {
          assert Follows(c, rest[i - 2], rest[i - 1]);
        }
      }
    }
  }

  lemma {:induction false} WindowAfter(text: string, c: Settings, start: nat, i: nat)
    requires Valid(c) && start < |text| && i + 1 < |Windows(text, c, start)|
    ensures
      var v, w := Windows(text, c, start)[i], Windows(text, c, start)[i + 1];
      && v.from < |text| && v.to == WindowEnd(text, c, v.from) < |text|
      && w.from == NextStart(c, v.from, v.to) && w.from < |text| && w.to == WindowEnd(text, c, w.from)
    decreases |text| - start
  {
    var end := WindowEnd(text, c, start);
    var next := NextStart(c, start, end);
    WindowsTileFrom(text, c, next);
    if i > 0 {
      WindowAfter(text, c, next, i - 1);
    }
  }

  /**
   A window ends where the one before it does exactly when it is cut at the same space; that takes an
   overlap of at least half the size, and every other window ends later.
   */
  lemma NestedWindows(text: string, c: Settings, i: nat)
    requires Valid(c) && i + 1 < |Windows(text, c, 0)|
    ensures
      var v, w := Windows(text, c, 0)[i], Windows(text, c, 0)[i + 1];
      && v.to <= w.to
      && (v.to == w.to <==> EndsAgain(text, c, v.to, w.from))
      && (v.to == w.to ==> c.overlap >= c.size / 2)
  {
    WindowAfter(text, c, 0, i);
    EndsNeverRetreat(text, c, Windows(text, c, 0)[i].from);
    NextWindowIsNested(text, c, Windows(text, c, 0)[i].from);
  }

  /**
   The windows tile the text: they start at 0 and end at its end, each is well cut, consecutive ones
   overlap by exactly 0 or the overlap of the settings, and neither starts nor ends go back.
   */
  lemma WindowsTile(text: string, c: Settings)
    requires Valid(c)
    ensures Tiles(text, c, Windows(text, c, 0))
    ensures text == [] <==> Windows(text, c, 0) == []
    ensures text != [] ==>
      var ws := Windows(text, c, 0);
      ws[0].from == 0 && ws[|ws| - 1].to == |text|
  {
    if text != [] {
      WindowsTileFrom(text, c, 0);
    }
  }

  /** The pieces joined, each without what it shares with the piece before it. */
  function Rebuilt(text: string, ws: seq<Window>, reached: nat): string
    requires Inside(text, ws)
  {
    if ws == [] then []
    else
      var piece := Piece(text, ws[0]);
      var shared := reached - ws[0].from;
      (if 0 <= shared <= |piece| then piece[shared..] else piece) + Rebuilt(text, ws[1..], ws[0].to)
  }

  lemma {:induction false} RebuiltFrom(text: string, c: Settings, ws: seq<Window>, reached: nat)
    requires Tiles(text, c, ws) && Inside(text, ws)
    requires ws != [] && ws[0].from <= reached <= ws[0].to
    ensures ws[0].to <= ws[|ws| - 1].to
    ensures Rebuilt(text, ws, reached) == text[reached..ws[|ws| - 1].to]
    decreases |ws|
  {
    RestOfPiece(text, ws[0], reached);
    if |ws| > 1 {
      assert Follows(c, ws[0], ws[1]);
      TilesTail(text, c, ws);
      var rest := ws[1..];
      assert rest[0] == ws[1] && rest[|rest| - 1] == ws[|ws| - 1];
      RebuiltFrom(text, c, rest, ws[0].to);
      JoinSlices(text, reached, ws[0].to, ws[|ws| - 1].to);
    }
  }

  lemma JoinSlices(text: string, a: nat, b: nat, c: nat)
    requires a <= b <= c <= |text|
    ensures text[a..b] + text[b..c] == text[a..c]
  {
  }

  lemma RestOfPiece(text: string, w: Window, reached: nat)
    requires w.from <= reached <= w.to <= |text|
    ensures Piece(text, w)[reached - w.from..] == text[reached..w.to]
  {
  }

  lemma TilesTail(text: string, c: Settings, ws: seq<Window>)
    requires ws != [] && Tiles(text, c, ws)
    ensures Tiles(text, c, ws[1..])
  {
    forall i | 0 < i < |ws[1..]|
      ensures Follows(c, ws[1..][i - 1], ws[1..][i])
    {
      assert Follows(c, ws[i], ws[i + 1]);
    }
  }

  /** Nothing is lost and nothing is repeated once the overlaps are dropped. */
  lemma WindowsRebuildTheText(text: string, c: Settings)
    requires Valid(c)
    ensures Inside(text, Windows(text, c, 0)) && Rebuilt(text, Windows(text, c, 0), 0) == text
  {
    WindowsTile(text, c);
    var ws := Windows(text, c, 0);
    assert forall w <- ws :: WellCut(text, c, w);
    if text != [] {
      RebuiltFrom(text, c, ws, 0);
      assert text[0..|text|] == text;
    }
  }

  // ---------------------------------------------------------------- how many windows

  lemma {:induction false} AtMostOnePerPosition(text: string, c: Settings, start: nat)
    requires Valid(c) && start <= |text|
    ensures |Windows(text, c, start)| <= |text| - start
    decreases |text| - start
  {
    if start < |text| {
      var end := WindowEnd(text, c, start);
      if end < |text| {
        AtMostOnePerPosition(text, c, NextStart(c, start, end));
      }
    }
  }

  lemma WindowsAdvance(text: string, c: Settings, start: nat)
    requires Valid(c) && start < |text| && WindowEnd(text, c, start) < |text|
    ensures NextStart(c, start, WindowEnd(text, c, start)) >= start + c.size / 2 - c.overlap
  {
    WindowIsWellCut(text, c, start);
  }

  /** n steps of the same size. */
  function Steps(n: nat, step: nat): nat {
    if n == 0 then 0 else step + Steps(n - 1, step)
  }

  lemma {:induction false} StepsAddUp(text: string, c: Settings, start: nat, step: nat)
    requires Valid(c) && start < |text| && c.size / 2 - c.overlap == step
    ensures Windows(text, c, start) != []
    ensures start + Steps(|Windows(text, c, start)| - 1, step) <= |text| - 1
    decreases |text| - start
  {
    var end := WindowEnd(text, c, start);
    if end < |text| {
      var next := NextStart(c, start, end);
      WindowsAdvance(text, c, start);
      StepsAddUp(text, c, next, step);
      OneMoreWindow(text, c, start);
      OneMoreStep(|Windows(text, c, next)|, step);
    }
  }

  lemma OneMoreWindow(text: string, c: Settings, start: nat)
    requires Valid(c) && start < |text|
    ensures
      var end := WindowEnd(text, c, start);
      |Windows(text, c, start)| == if end == |text| then 1 else 1 + |Windows(text, c, NextStart(c, start, end))|
  {
  }

  lemma OneMoreStep(n: nat, step: nat)
    requires n > 0
    ensures Steps(n, step) == step + Steps(n - 1, step)
  {
  }

  lemma {:induction false} StepsMultiply(n: nat, step: nat)
    ensures Steps(n, step) == n * step
  {
    if n > 0 {
      StepsMultiply(n - 1, step);
      assert n * step == (n - 1) * step + step;
    }
  }

  lemma StepsDivide(n: nat, step: nat, total: nat)
    requires step > 0 && Steps(n, step) <= total
    ensures n <= total / step
  {
    StepsMultiply(n, step);
    Divides(n, step, total);
  }

  lemma Divides(n: nat, step: nat, total: nat)
    requires step > 0 && n * step <= total
    ensures n <= total / step
  {
    var most := total / step;
    if n > most {
      Scales(most + 1, n, step);
      assert false;
    }
  }

  lemma Scales(a: nat, b: nat, step: nat)
    requires a <= b
    ensures a * step <= b * step
  {
  }

  /** There are at most |text| windows, and far fewer when the overlap is less than half the size. */
  lemma WindowCount(text: string, c: Settings)
    requires Valid(c)
    ensures |Windows(text, c, 0)| <= |text|
    ensures var step := c.size / 2 - c.overlap;
            text != [] && step > 0 ==> |Windows(text, c, 0)| <= 1 + (|text| - 1) / step
  {
    AtMostOnePerPosition(text, c, 0);
    var step := c.size / 2 - c.overlap;
    if text != [] && step > 0 {
      FewWindows(text, c, step);
    }
  }

  lemma FewWindows(text: string, c: Settings, step: nat)
    requires Valid(c) && text != [] && c.size / 2 - c.overlap == step > 0
    ensures |Windows(text, c, 0)| <= 1 + (|text| - 1) / step
  {
    StepsAddUp(text, c, 0, step);
    StepsDivide(|Windows(text, c, 0)| - 1, step, |text| - 1);
  }

  // ---------------------------------------------------------------- what survives

  lemma WindowsAreInside(text: string, c: Settings, start: nat)
    requires Valid(c)
    ensures Inside(text, Windows(text, c, start))
  {
    if start < |text| {
      WindowsTileFrom(text, c, start);
      assert forall w <- Windows(text, c, start) :: WellCut(text, c, w);
    }
  }

  /** The chunks of the windows from start on, one window at a time. */
  function ChunksFrom(text: string, c: Settings, start: nat): seq<string>
    requires Valid(c)
    decreases |text| - start
  {
    if start >= |text| then []
    else
      var end := WindowEnd(text, c, start);
      Kept(text[start..end]) + (if end == |text| then [] else ChunksFrom(text, c, NextStart(c, start, end)))
  }

  lemma {:induction false} ChunksFromWindows(text: string, c: Settings, start: nat)
    requires Valid(c)
    ensures Inside(text, Windows(text, c, start))
    ensures Chunks(text, Windows(text, c, start)) == ChunksFrom(text, c, start)
    decreases |text| - start
  {
    WindowsAreInside(text, c, start);
    if start < |text| {
      var end := WindowEnd(text, c, start);
      var ws := Windows(text, c, start);
      assert ws[0] == Window(start, end) && Piece(text, ws[0]) == text[start..end];
      if end == |text| {
        assert ws[1..] == [];
      } else {
        assert ws[1..] == Windows(text, c, NextStart(c, start, end));
        ChunksFromWindows(text, c, NextStart(c, start, end));
      }
    }
  }

  /** The chunks of a text: those of its windows (ChunksFromWindows). */
  function SplitText(text: string, c: Settings): seq<string>
    requires Valid(c)
  {
    ChunksFrom(text, c, 0)
  }

  lemma {:induction false} SurvivesFrom(text: string, c: Settings, ws: seq<Window>, i: nat)
      returns (k: nat, p: nat, q: nat)
    requires Tiles(text, c, ws) && Inside(text, ws)
    requires ws != [] && ws[0].from <= i < ws[|ws| - 1].to && !Text.IsSpace(text[i])
    ensures k < |Chunks(text, ws)| && p <= i < q <= |text| && Chunks(text, ws)[k] == text[p..q]
    decreases |ws|
  {
    if i < ws[0].to {
      p, q := PieceSurvives(text, ws[0], i);
      k := 0;
    } else {
      assert Follows(c, ws[0], ws[1]);
      TilesTail(text, c, ws);
      assert ws[1..][|ws| - 2] == ws[|ws| - 1];
      k, p, q := SurvivesFrom(text, c, ws[1..], i);
      k := k + |Kept(Piece(text, ws[0]))|;
    }
  }

  lemma SliceOfSlice(text: string, a: nat, b: nat, from: nat, to: nat)
    requires a <= b <= |text| && from <= to <= b - a
    ensures text[a..b][from..to] == text[a + from..a + to]
  {
    var piece := text[a..b];
    forall k | 0 <= k < to - from
      ensures piece[from..to][k] == text[a + from..a + to][k]
    {
      assert piece[from + k] == text[a + from + k];
    }
  }

  lemma VisibleInside(s: string, from: nat, to: nat, j: nat)
    requires from <= to <= |s| && j < |s| && !Text.IsSpace(s[j])
    requires Text.Blank(s[..from]) && Text.Blank(s[to..])
    ensures from <= j < to
  {
    forall k | 0 <= k < from
      ensures Text.IsSpace(s[k])
    {
      assert s[..from][k] == s[k];
    }
    forall k | to <= k < |s|
      ensures Text.IsSpace(s[k])
    {
      assert s[to..][k - to] == s[k];
    }
  }

  lemma PieceSurvives(text: string, w: Window, i: nat) returns (p: nat, q: nat)
    requires w.from <= i < w.to <= |text| && !Text.IsSpace(text[i])
    ensures p <= i < q <= |text| && Kept(Piece(text, w)) == [text[p..q]]
  {
    var piece := Piece(text, w);
    var from, to := Text.StripIsSubstring(piece);
    assert piece[i - w.from] == text[i];
    VisibleInside(piece, from, to, i - w.from);
    p, q := w.from + from, w.from + to;
    SliceOfSlice(text, w.from, w.to, from, to);
  }

  /** Every character that is not whitespace is in some chunk. */
  lemma EveryCharacterSurvives(text: string, c: Settings, i: nat) returns (k: nat, p: nat, q: nat)
    requires Valid(c) && i < |text| && !Text.IsSpace(text[i])
    ensures k < |SplitText(text, c)| && p <= i < q <= |text| && SplitText(text, c)[k] == text[p..q]
  {
    WindowsTile(text, c);
    ChunksFromWindows(text, c, 0);
    k, p, q := SurvivesFrom(text, c, Windows(text, c, 0), i);
  }

  lemma {:induction false} ChunkIsCut(text: string, c: Settings, ws: seq<Window>, k: nat) returns (p: nat, q: nat)
    requires Inside(text, ws) && (forall w <- ws :: w.to - w.from <= c.size)
    requires k < |Chunks(text, ws)|
    ensures p < q <= |text| && q - p <= c.size && Chunks(text, ws)[k] == text[p..q]
    ensures Text.Strip(text[p..q]) == text[p..q]
    decreases |ws|
  {
    var kept := Kept(Piece(text, ws[0]));
    if k < |kept| {
      p, q := KeptIsCut(text, ws[0]);
    } else {
      p, q := ChunkIsCut(text, c, ws[1..], k - |kept|);
    }
  }

  lemma KeptIsCut(text: string, w: Window) returns (p: nat, q: nat)
    requires w.from <= w.to <= |text| && Kept(Piece(text, w)) != []
    ensures w.from <= p < q <= w.to && Kept(Piece(text, w)) == [text[p..q]] && Text.Strip(text[p..q]) == text[p..q]
  {
    var piece := Piece(text, w);
    var from, to := Text.StripIsSubstring(piece);
    p, q := w.from + from, w.from + to;
    SliceOfSlice(text, w.from, w.to, from, to);
    Text.StripFixed(Text.Strip(piece));
  }

  /** Every chunk is a substring of the text, stripped, of length 1 to the chunk size. */
  lemma ChunksAreStrippedSubstrings(text: string, c: Settings, k: nat) returns (p: nat, q: nat)
    requires Valid(c) && k < |SplitText(text, c)|
    ensures p < q <= |text| && q - p <= c.size
    ensures SplitText(text, c)[k] == text[p..q] == Text.Strip(text[p..q])
  {
    WindowsTile(text, c);
    ChunksFromWindows(text, c, 0);
    assert forall w <- Windows(text, c, 0) :: WellCut(text, c, w);
    p, q := ChunkIsCut(text, c, Windows(text, c, 0), k);
  }

  lemma JoinNext(before: seq<string>, text: string, c: Settings, start: nat, end: nat)
    requires Valid(c) && start < |text| && end == WindowEnd(text, c, start)
    ensures before + ChunksFrom(text, c, start) ==
      (before + Kept(text[start..end])) + (if end == |text| then [] else ChunksFrom(text, c, NextStart(c, start, end)))
  {
  }

  // ---------------------------------------------------------------- documents

  datatype Section = Section(text: string, page: Option<nat>)

  datatype SourceDocument = SourceDocument(id: string, sourcePath: string, fileName: string, checksum: string,
      sections: seq<Section>)

  datatype DocumentChunk = DocumentChunk(
    id: string,
    documentId: string,
    chunkIndex: nat,
    text: string,
    sourcePath: string,
    fileName: string,
    checksum: string,
    page: Option<nat>)

  function Decimal(n: nat): (s: string)
    ensures s != "" && ':' !in s
  {
    (if n < 10 then "" else Decimal(n / 10)) + [Digit(n % 10)]
  }

  function Digit(d: nat): char
    requires d < 10
  {
    (('0' as int) + d) as char
  }

  function Value(s: string): nat {
    if s == "" then 0
    else
      var c := s[|s| - 1];
      10 * Value(s[..|s| - 1]) + (if '0' <= c <= '9' then c as int - '0' as int else 0)
  }

  lemma {:induction false} DecimalReadsBack(n: nat)
    ensures Value(Decimal(n)) == n
  {
    var s := Decimal(n);
    assert s[..|s| - 1] == if n < 10 then "" else Decimal(n / 10);
    if n >= 10 {
      DecimalReadsBack(n / 10);
    }
  }

  /** The name a chunk id is derived from. */
  function ChunkName(documentId: string, checksum: string, index: nat): string {
    Text.Join([documentId, checksum, Decimal(index)], ':')
  }

  /** Ids and checksums are written without colons, so the name of a chunk determines all three. */
  lemma ChunkNameIsInjective(d: string, s: string, i: nat, e: string, t: string, j: nat)
    requires ':' !in d && ':' !in s && ':' !in e && ':' !in t
    requires ChunkName(d, s, i) == ChunkName(e, t, j)
    ensures d == e && s == t && i == j
  {
    var a, b := [d, s, Decimal(i)], [e, t, Decimal(j)];
    assert Text.Free(a, ':') && Text.Free(b, ':');
    Text.SplitOfJoin(a, ':');
    Text.SplitOfJoin(b, ':');
    assert a == b;
    assert a[0] == b[0] && a[1] == b[1] && a[2] == b[2];
    DecimalReadsBack(i);
    DecimalReadsBack(j);
  }

  /** The id of a chunk, from its document, the checksum of the content and its index. */
  type ChunkIds = (string, string, nat) -> string

  function ChunkOf(d: SourceDocument, page: Option<nat>, text: string, index: nat, ids: ChunkIds): DocumentChunk {
    DocumentChunk(ids(d.id, d.checksum, index), d.id, index, text, d.sourcePath, d.fileName, d.checksum, page)
  }

  function Numbered(d: SourceDocument, page: Option<nat>, texts: seq<string>, from: nat,
      ids: ChunkIds): seq<DocumentChunk> {
    if texts == [] then [] else [ChunkOf(d, page, texts[0], from, ids)] + Numbered(d, page, texts[1..], from + 1, ids)
  }

  /** How a text is cut, as a function of the text alone. */
  function Cutter(c: Settings): string -> seq<string>
    requires Valid(c)
  {
    (text: string) => SplitText(text, c)
  }

  /** The chunks of the sections from number i on, the first of them with number from. */
  function ChunksAhead(d: SourceDocument, cut: string -> seq<string>, i: nat, from: nat,
      ids: ChunkIds): seq<DocumentChunk>
    requires i <= |d.sections|
    decreases |d.sections| - i
  {
    if i == |d.sections| then []
    else
      var texts := cut(d.sections[i].text);
      Numbered(d, d.sections[i].page, texts, from, ids) + ChunksAhead(d, cut, i + 1, from + |texts|, ids)
  }

  /** The chunks of a document, numbered through all its sections. */
  function ChunksOf(d: SourceDocument, c: Settings, ids: ChunkIds): seq<DocumentChunk>
    requires Valid(c)
  {
    ChunksAhead(d, Cutter(c), 0, 0, ids)
  }

  /** The texts the sections from number i on are cut into. */
  function TextsAhead(d: SourceDocument, cut: string -> seq<string>, i: nat): seq<string>
    requires i <= |d.sections|
    decreases |d.sections| - i
  {
    if i == |d.sections| then [] else cut(d.sections[i].text) + TextsAhead(d, cut, i + 1)
  }

  /** For each of these texts, the page of the section it is cut from. */
  function PagesAhead(d: SourceDocument, cut: string -> seq<string>, i: nat): seq<Option<nat>>
    requires i <= |d.sections|
    decreases |d.sections| - i
  {
    if i == |d.sections| then []
    else seq(|cut(d.sections[i].text)|, _ => d.sections[i].page) + PagesAhead(d, cut, i + 1)
  }

  lemma {:induction false} NumberedAt(d: SourceDocument, page: Option<nat>, texts: seq<string>, from: nat,
      ids: ChunkIds, i: nat)
    ensures |Numbered(d, page, texts, from, ids)| == |texts|
    ensures i < |texts| ==> Numbered(d, page, texts, from, ids)[i] == ChunkOf(d, page, texts[i], from + i, ids)
    decreases |texts|
  {
    if texts != [] {
      NumberedAt(d, page, texts[1..], from + 1, ids, if i == 0 then 0 else i - 1);
    }
  }

  lemma {:induction false} ChunkAt(d: SourceDocument, cut: string -> seq<string>, i: nat, from: nat, ids: ChunkIds,
      k: nat)
    returns (page: Option<nat>)
    requires i <= |d.sections|
    ensures |ChunksAhead(d, cut, i, from, ids)| == |TextsAhead(d, cut, i)| == |PagesAhead(d, cut, i)|
    ensures k < |TextsAhead(d, cut, i)| ==>
      page == PagesAhead(d, cut, i)[k] &&
        ChunksAhead(d, cut, i, from, ids)[k] == ChunkOf(d, page, TextsAhead(d, cut, i)[k], from + k, ids)
    decreases |d.sections| - i
  {
    page := None;
    if i < |d.sections| {
      var texts := cut(d.sections[i].text);
      NumberedAt(d, d.sections[i].page, texts, from, ids, k);
      page := ChunkAt(d, cut, i + 1, from + |texts|, ids, if k < |texts| then 0 else k - |texts|);
      if k < |texts| {
        page := d.sections[i].page;
      }
    }
  }

  ghost predicate Injective(f: string -> string) {
    forall a, b :: f(a) == f(b) ==> a == b
  }

  /** Two chunks with the same id have the same document, checksum and index. */
  ghost predicate Distinguishes(ids: ChunkIds) {
    forall d, s, i: nat, e, t, j: nat ::
      ':' !in d && ':' !in s && ':' !in e && ':' !in t && ids(d, s, i) == ids(e, t, j) ==> d == e && s == t && i == j
  }

  /** How the chunker names its chunks, given the hash of a name. */
  function NamedIds(uuid: string -> string): ChunkIds {
    (d: string, s: string, i: nat) => uuid(ChunkName(d, s, i))
  }

  lemma NamedIdsDistinguish(uuid: string -> string)
    requires Injective(uuid)
    ensures Distinguishes(NamedIds(uuid))
  {
    var ids := NamedIds(uuid);
    forall d, s, i: nat, e, t, j: nat
      | ':' !in d && ':' !in s && ':' !in e && ':' !in t && ids(d, s, i) == ids(e, t, j)
      ensures d == e && s == t && i == j
    {
      ChunkNameIsInjective(d, s, i, e, t, j);
    }
  }

  /**
   Chunk i of a document carries index i, the text number i with the page of its section, and the data
   of the document, and the ids of the chunks of one document, or of two versions of it, never clash.
   */
  lemma ChunksAreNumbered(d: SourceDocument, c: Settings, ids: ChunkIds)
    requires Valid(c) && Distinguishes(ids) && ':' !in d.id && ':' !in d.checksum
    ensures
      var chunks := ChunksOf(d, c, ids);
      && |chunks| == |TextsAhead(d, Cutter(c), 0)|
      && |chunks| == |PagesAhead(d, Cutter(c), 0)|
      && (forall i :: 0 <= i < |chunks| ==>
           Carries(chunks[i], d, i, TextsAhead(d, Cutter(c), 0)[i], PagesAhead(d, Cutter(c), 0)[i]))
      && (forall i, j :: 0 <= i < |chunks| && 0 <= j < |chunks| && chunks[i].id == chunks[j].id ==> i == j)
  {
    CutsAreNumbered(d, Cutter(c), ids);
  }

  predicate Carries(chunk: DocumentChunk, d: SourceDocument, i: nat, text: string, page: Option<nat>) {
    && chunk.chunkIndex == i && chunk.text == text && chunk.page == page && chunk.documentId == d.id
    && chunk.sourcePath == d.sourcePath && chunk.fileName == d.fileName && chunk.checksum == d.checksum
  }

  lemma CutsAreNumbered(d: SourceDocument, cut: string -> seq<string>, ids: ChunkIds)
    requires Distinguishes(ids) && ':' !in d.id && ':' !in d.checksum
    ensures
      var chunks := ChunksAhead(d, cut, 0, 0, ids);
      && |chunks| == |TextsAhead(d, cut, 0)| == |PagesAhead(d, cut, 0)|
      && (forall i :: 0 <= i < |chunks| ==>
           Carries(chunks[i], d, i, TextsAhead(d, cut, 0)[i], PagesAhead(d, cut, 0)[i]))
      && (forall i, j :: 0 <= i < |chunks| && 0 <= j < |chunks| && chunks[i].id == chunks[j].id ==> i == j)
  {
    var chunks := ChunksAhead(d, cut, 0, 0, ids);
    var first := ChunkAt(d, cut, 0, 0, ids, 0);
    forall i | 0 <= i < |chunks|
      ensures Carries(chunks[i], d, i, TextsAhead(d, cut, 0)[i], PagesAhead(d, cut, 0)[i])
      ensures chunks[i].id == ids(d.id, d.checksum, i)
    {
      var page := ChunkAt(d, cut, 0, 0, ids, i);
    }
    forall i, j | 0 <= i < |chunks| && 0 <= j < |chunks| && chunks[i].id == chunks[j].id
      ensures i == j
    {
      assert ids(d.id, d.checksum, i) == ids(d.id, d.checksum, j);
    }
  }

  /** A text that fits into one window and has no whitespace around it is its own only chunk. */
  lemma ShortTextIsOneChunk(text: string, c: Settings)
    requires Valid(c) && text != "" && |text| <= c.size
    requires !Text.IsSpace(text[0]) && !Text.IsSpace(text[|text| - 1])
    ensures SplitText(text, c) == [text]
  {
    assert WindowEnd(text, c, 0) == |text| && text[0..|text|] == text;
    Text.StripFixed(text);
  }

  lemma CutterCuts(c: Settings, text: string)
    requires Valid(c)
    ensures Cutter(c)(text) == SplitText(text, c)
  {
  }

  lemma NextSection(d: SourceDocument, cut: string -> seq<string>, i: nat, from: nat, ids: ChunkIds,
      before: seq<DocumentChunk>, texts: seq<string>)
    requires i < |d.sections| && texts == cut(d.sections[i].text)
    ensures before + ChunksAhead(d, cut, i, from, ids) ==
      (before + Numbered(d, d.sections[i].page, texts, from, ids)) + ChunksAhead(d, cut, i + 1, from + |texts|, ids)
  {
    var more, rest := Numbered(d, d.sections[i].page, texts, from, ids),
      ChunksAhead(d, cut, i + 1, from + |texts|, ids);
    assert ChunksAhead(d, cut, i, from, ids) == more + rest;
    JoinPart(before, more, rest);
  }

  lemma NextNumbered(d: SourceDocument, page: Option<nat>, texts: seq<string>, k: nat, from: nat, ids: ChunkIds,
      before: seq<DocumentChunk>)
    requires k < |texts|
    ensures before + Numbered(d, page, texts[k..], from, ids) ==
      (before + [ChunkOf(d, page, texts[k], from, ids)]) + Numbered(d, page, texts[k + 1..], from + 1, ids)
  {
    assert texts[k..][0] == texts[k] && texts[k..][1..] == texts[k + 1..];
    JoinPart(before, [ChunkOf(d, page, texts[k], from, ids)], Numbered(d, page, texts[k + 1..], from + 1, ids));
  }

  lemma JoinPart(before: seq<DocumentChunk>, more: seq<DocumentChunk>, rest: seq<DocumentChunk>)
    ensures before + (more + rest) == (before + more) + rest
  {
  }

  // ---------------------------------------------------------------- the chunker

  class TextChunker {
    const chunkSize: nat
    const overlap: nat

    ghost function Given(): Settings {
      Settings(chunkSize, overlap)
    }

    constructor (c: Settings)
      requires Valid(c)
      ensures Given() == c
    {
      chunkSize, overlap := c.size, c.overlap;
    }

    /** The settings a caller may ask for, or what is wrong with them. */
    static method Create(chunkSize: int, overlap: int) returns (r: Option<TextChunker>, error: string)
      ensures r.Some? <==> chunkSize >= 1 && 0 <= overlap < chunkSize
      ensures r.Some? ==> Valid(r.value.Given()) && r.value.chunkSize == chunkSize && r.value.overlap == overlap
      ensures r.None? ==> error != ""
    {
      r, error := None, "";
      if chunkSize < 1 {
        error := "chunk_size must be greater than zero";
      } else if overlap < 0 {
        error := "overlap cannot be negative";
      } else if overlap >= chunkSize {
        error := "overlap must be smaller than chunk_size";
      } else {
        var c := new TextChunker(Settings(chunkSize, overlap));
        r := Some(c);
      }
    }

    /** Where the window from start ends: at the last space of its second half if there is one. */
    method FindEnd(text: string, start: nat) returns (end: nat)
      requires Valid(Given()) && start < |text|
      ensures end == WindowEnd(text, Given(), start)
    {
      end := Min(start + chunkSize, |text|);
      if end < |text| {
        var searchStart := start + chunkSize / 2;
        var boundary := RFindSpace(text, searchStart, end);
        if boundary > start {
          end := boundary;
        }
      }
    }

    method Cut(text: string) returns (chunks: seq<string>)
      requires Valid(Given())
      ensures chunks == SplitText(text, Given())
    {
      chunks := [];
      var start := 0;
      ghost var all := ChunksFrom(text, Given(), 0);
      assert all == SplitText(text, Given()) && [] + all == all;
      while start < |text|
        invariant all == chunks + ChunksFrom(text, Given(), start)
        decreases |text| - start
      {
        var end := FindEnd(text, start);
        var kept := Kept(text[start..end]);
        JoinNext(chunks, text, Given(), start, end);
        chunks := chunks + kept;
        if end >= |text| {
          return;
        }
        var nextStart := end - overlap;
        if nextStart <= start {
          nextStart := end;
        }
        assert nextStart == NextStart(Given(), start, end);
        start := nextStart;
      }
    }

    method Split(d: SourceDocument, ids: ChunkIds) returns (chunks: seq<DocumentChunk>)
      requires Valid(Given())
      ensures chunks == ChunksOf(d, Given(), ids)
    {
      chunks := [];
      var chunkIndex: nat := 0;
      ghost var all := ChunksOf(d, Given(), ids);
      assert [] + all == all;
      for i := 0 to |d.sections|
        invariant all == chunks + ChunksAhead(d, Cutter(Given()), i, chunkIndex, ids)
      {
        chunks, chunkIndex := AddSection(d, i, chunkIndex, ids, chunks);
      }
      assert chunks + [] == chunks;
    }

    /** Cuts one section and appends its chunks. */
    method AddSection(d: SourceDocument, i: nat, from: nat, ids: ChunkIds, before: seq<DocumentChunk>)
      returns (chunks: seq<DocumentChunk>, chunkIndex: nat)
      requires Valid(Given()) && i < |d.sections|
      ensures before + ChunksAhead(d, Cutter(Given()), i, from, ids) ==
        chunks + ChunksAhead(d, Cutter(Given()), i + 1, chunkIndex, ids)
    {
      var section := d.sections[i];
      var texts := Cut(section.text);
      var more := NumberChunks(d, section.page, texts, from, ids);
      CutterCuts(Given(), section.text);
      NextSection(d, Cutter(Given()), i, from, ids, before, texts);
      chunks, chunkIndex := before + more, from + |texts|;
    }

    /** The chunks of one section; the numbers go on from the section before. */
    method NumberChunks(d: SourceDocument, page: Option<nat>, texts: seq<string>, from: nat, ids: ChunkIds)
      returns (chunks: seq<DocumentChunk>)
      ensures chunks == Numbered(d, page, texts, from, ids)
    {
      chunks := [];
      var chunkIndex := from;
      assert texts[0..] == texts;
      for k := 0 to |texts|
        invariant chunkIndex == from + k
        invariant Numbered(d, page, texts, from, ids) == chunks + Numbered(d, page, texts[k..], chunkIndex, ids)
      {
        NextNumbered(d, page, texts, k, chunkIndex, ids, chunks);
        chunks := chunks + [ChunkOf(d, page, texts[k], chunkIndex, ids)];
        chunkIndex := chunkIndex + 1;
      }
    }
  }
}
