/** Boundary-aware, overlapping text chunking (rag/src/chunking.py). */
module Chunking {
  import opened Strings
  import opened Collections

  /** A window of a document: `text` is the document's slice `[startChar, endChar)`. */
  datatype Chunk = Chunk(text: string, startChar: nat, endChar: nat)

  /** Break markers in order of preference; the empty marker means "break anywhere". */
  const Separators: seq<string> := ["\n\n", "\n", ". ", "! ", "? ", "; ", ", ", " ", ""]

  /** How far back from a window's end a break marker is looked for. */
  const Lookback: nat := 100

  /** Start of the region searched for break markers in the window `[start, end)`. */
  function SearchStart(start: nat, end: nat): nat
  {
    Max(start, end - Lookback)
  }

  /** The break point `_find_break_point` chooses when trying the markers `seps` in turn. */
  function BreakPointWith(text: string, start: nat, end: nat, seps: seq<string>): (r: nat)
    requires start < end <= |text|
    ensures start < r <= end
  {
    if seps == [] || seps[0] == "" then end
    else
      var pos := RFind(text, seps[0], SearchStart(start, end), end);
      if pos != -1 && pos > start then pos + |seps[0]|
      else BreakPointWith(text, start, end, seps[1..])
  }

  /** `sep` occurs in the searched region of `[start, end)` at a position after `start`. */
  predicate FoundAfterStart(text: string, start: nat, end: nat, sep: string, p: int)
  {
    p > start && SearchStart(start, end) <= p && p + |sep| <= end && OccursAt(text, sep, p)
  }

  /** None of the first `i` markers is empty or occurs after `start` in the searched region. */
  ghost predicate NoneFoundBefore(text: string, start: nat, end: nat, seps: seq<string>, i: nat)
    requires i <= |seps|
  {
    && (forall j :: 0 <= j < i ==> seps[j] != "")
    && (forall j, p :: 0 <= j < i ==> !FoundAfterStart(text, start, end, seps[j], p))
  }

  /** `q` is the last position after `start` in the searched region where `sep` occurs. */
  ghost predicate LastFound(text: string, start: nat, end: nat, sep: string, q: int)
  {
    FoundAfterStart(text, start, end, sep, q)
    && forall p :: p > q ==> !FoundAfterStart(text, start, end, sep, p)
  }

  /** Marker `i` decides the break point `r`: none of the markers before it is empty or
      occurs; then `r` is `end` when there is no such marker or it is empty, and otherwise
      `r` ends the last occurrence of marker `i`. */
  ghost predicate DecidedBy(text: string, start: nat, end: nat, seps: seq<string>, r: int, i: int)
  {
    0 <= i <= |seps| && NoneFoundBefore(text, start, end, seps, i)
    && (if i == |seps| || seps[i] == "" then r == end
        else LastFound(text, start, end, seps[i], r - |seps[i]|))
  }

  /** The break point is decided by the first marker that is empty (break at `end`) or that
      occurs after `start` in the searched region (break just after its LAST occurrence);
      with no such marker it is `end`. */
  lemma {:induction false} BreakPointChoice(text: string, start: nat, end: nat, seps: seq<string>)
    requires start < end <= |text|
    ensures exists i :: DecidedBy(text, start, end, seps, BreakPointWith(text, start, end, seps), i)
  {
    var r := BreakPointWith(text, start, end, seps);
    if seps == [] || seps[0] == "" {
      assert DecidedBy(text, start, end, seps, r, 0);
    } else {
      var pos := RFind(text, seps[0], SearchStart(start, end), end);
      if pos != -1 && pos > start {
        assert LastFound(text, start, end, seps[0], r - |seps[0]|);
        assert DecidedBy(text, start, end, seps, r, 0);
      } else {
        assert r == BreakPointWith(text, start, end, seps[1..]);
        BreakPointChoice(text, start, end, seps[1..]);
        var i :| DecidedBy(text, start, end, seps[1..], r, i);
        DecidedShift(text, start, end, seps, r, i);
      }
    }
  }

  /** A first marker that is not empty and does not occur passes the decision on to the
      remaining markers. */
  lemma DecidedShift(text: string, start: nat, end: nat, seps: seq<string>, r: int, i: int)
    requires start < end <= |text| && seps != [] && seps[0] != ""
    requires RFind(text, seps[0], SearchStart(start, end), end) <= start
    requires DecidedBy(text, start, end, seps[1..], r, i)
    ensures DecidedBy(text, start, end, seps, r, i + 1)
  {
    assert forall p :: !FoundAfterStart(text, start, end, seps[0], p);
    NoneFoundShift(text, start, end, seps, i);
    if i < |seps[1..]| {
      assert seps[i + 1] == seps[1..][i];
    }
  }

  /** A first marker that is not empty and does not occur extends `NoneFoundBefore` of the
      remaining markers by one. */
  lemma NoneFoundShift(text: string, start: nat, end: nat, seps: seq<string>, i: nat)
    requires seps != [] && seps[0] != "" && i < |seps|
    requires forall p :: !FoundAfterStart(text, start, end, seps[0], p)
    requires NoneFoundBefore(text, start, end, seps[1..], i)
    ensures NoneFoundBefore(text, start, end, seps, i + 1)
  {
    forall j | 0 <= j < i + 1 ensures seps[j] != "" {
      if j > 0 { assert seps[j] == seps[1..][j - 1]; }
    }
    forall j, p | 0 <= j < i + 1 ensures !FoundAfterStart(text, start, end, seps[j], p) {
      if j > 0 {
        assert seps[j] == seps[1..][j - 1];
        assert !FoundAfterStart(text, start, end, seps[1..][j - 1], p);
      }
    }
  }

  /** The chunks `chunk` emits from cursor `start` on. */
  function ChunksFrom(text: string, size: nat, overlap: int, seps: seq<string>, start: nat): seq<Chunk>
    requires size > 0
    decreases |text| - start
  {
    if start >= |text| then []
    else if start + size >= |text| then [Chunk(text[start..], start, |text|)]
    else
      var e := BreakPointWith(text, start, start + size, seps);
      [Chunk(text[start..e], start, e)] + ChunksFrom(text, size, overlap, seps, NextStart(start, e, overlap))
  }

  /** What `chunk` returns for a chunker with the markers `seps`. */
  function ChunkTextWith(text: string, size: nat, overlap: int, seps: seq<string>): seq<Chunk>
    requires size > 0
  {
    if text == [] then [] else ChunksFrom(text, size, overlap, seps, 0)
  }

  /** What `chunk_text(text, size, overlap)` returns. */
  function ChunkText(text: string, size: nat, overlap: int): seq<Chunk>
    requires size > 0
  {
    ChunkTextWith(text, size, overlap, Separators)
  }

  /** Every chunk is a non-empty slice of at most `size` characters at its recorded offsets. */
  predicate WellFormed(text: string, size: nat, c: Chunk)
  {
    c.startChar < c.endChar <= |text| && c.endChar - c.startChar <= size
    && c.text == text[c.startChar..c.endChar]
  }

  /** The cursor after the window `[start, e)`: back by `overlap`, unless that would not move
      past `start`. */
  function NextStart(start: nat, e: nat, overlap: int): (next: nat)
    requires start < e
    ensures start < next && (next == e || next == e - overlap)
  {
    if e - overlap <= start then e else e - overlap
  }

  /** One step of `ChunksFrom` when the window does not reach the end of the text. */
  lemma ChunksFromStep(text: string, size: nat, overlap: int, seps: seq<string>, start: nat, e: nat)
    requires size > 0 && start + size < |text|
    requires e == BreakPointWith(text, start, start + size, seps)
    ensures start < e <= start + size
    ensures ChunksFrom(text, size, overlap, seps, start)
      == [Chunk(text[start..e], start, e)] + ChunksFrom(text, size, overlap, seps, NextStart(start, e, overlap))
  {
  }

  /** The window that reaches the end of the text is the last chunk. */
  lemma ChunksFromLast(text: string, size: nat, overlap: int, seps: seq<string>, start: nat)
    requires size > 0 && start < |text| <= start + size
    ensures ChunksFrom(text, size, overlap, seps, start) == [Chunk(text[start..], start, |text|)]
  {
  }

  /** Chunks from cursor `start` on are well-formed slices that start at or after `start`. */
  lemma {:induction false} ChunksFromWellFormed(text: string, size: nat, overlap: int, seps: seq<string>, start: nat)
    requires size > 0
    ensures var cs := ChunksFrom(text, size, overlap, seps, start);
      forall i :: 0 <= i < |cs| ==> WellFormed(text, size, cs[i]) && start <= cs[i].startChar
    decreases |text| - start
  {
    if start < |text| && start + size < |text| {
      var e := BreakPointWith(text, start, start + size, seps);
      ChunksFromStep(text, size, overlap, seps, start, e);
      ChunksFromWellFormed(text, size, overlap, seps, NextStart(start, e, overlap));
    }
  }

  /** There are chunks exactly when the cursor is inside the text; the first then starts at
      the cursor and, unless a negative overlap skips the tail, the last ends at the end of
      the text. */
  lemma {:induction false} ChunksFromEnds(text: string, size: nat, overlap: int, seps: seq<string>, start: nat)
    requires size > 0
    ensures var cs := ChunksFrom(text, size, overlap, seps, start);
      (cs == [] <==> start >= |text|)
      && (cs != [] ==> cs[0].startChar == start)
      && (cs != [] && overlap >= 0 ==> cs[|cs| - 1].endChar == |text|)
    decreases |text| - start
  {
    if start < |text| && start + size < |text| {
      var e := BreakPointWith(text, start, start + size, seps);
      var next := NextStart(start, e, overlap);
      ChunksFromStep(text, size, overlap, seps, start, e);
      ChunksFromEnds(text, size, overlap, seps, next);
    }
  }

  /** How chunk `b` follows chunk `a`: it starts later, either `overlap` characters before
      `a` ends or right at `a`'s end, so the two share at most `overlap` characters. */
  predicate Follows(a: Chunk, b: Chunk, overlap: int)
  {
    && a.startChar < b.startChar
    && (b.startChar == a.endChar - overlap || b.startChar == a.endChar)
    && a.endChar - b.startChar <= overlap
  }

  predicate Consecutive(cs: seq<Chunk>, overlap: int)
  {
    forall i :: 0 <= i < |cs| - 1 ==> Follows(cs[i], cs[i + 1], overlap)
  }

  lemma ConsecutiveCons(c: Chunk, rest: seq<Chunk>, overlap: int)
    requires Consecutive(rest, overlap)
    requires rest != [] ==> Follows(c, rest[0], overlap)
    ensures Consecutive([c] + rest, overlap)
  {
    var cs := [c] + rest;
    forall i | 0 <= i < |cs| - 1 ensures Follows(cs[i], cs[i + 1], overlap) {
      if i > 0 { assert cs[i] == rest[i - 1] && cs[i + 1] == rest[i]; }
    }
  }

  /** Every chunk follows the one before it (see `Follows`). */
  lemma {:induction false} ChunksFromSteps(text: string, size: nat, overlap: int, seps: seq<string>, start: nat)
    requires size > 0
    ensures Consecutive(ChunksFrom(text, size, overlap, seps, start), overlap)
    decreases |text| - start
  {
    if start < |text| && start + size < |text| {
      var e := BreakPointWith(text, start, start + size, seps);
      var next := NextStart(start, e, overlap);
      ChunksFromStep(text, size, overlap, seps, start, e);
      ChunksFromSteps(text, size, overlap, seps, next);
      ChunksFromEnds(text, size, overlap, seps, next);
      ConsecutiveCons(Chunk(text[start..e], start, e), ChunksFrom(text, size, overlap, seps, next), overlap);
    }
  }

  /** With a non-negative overlap there is no gap between consecutive chunks. */
  lemma NoGaps(text: string, size: nat, overlap: int, seps: seq<string>)
    requires size > 0 && overlap >= 0
    ensures var cs := ChunkTextWith(text, size, overlap, seps);
      forall i :: 0 <= i < |cs| - 1 ==> cs[i + 1].startChar <= cs[i].endChar
  {
    var cs := ChunkTextWith(text, size, overlap, seps);
    if text != [] {
      assert cs == ChunksFrom(text, size, overlap, seps, 0);
      ChunksFromSteps(text, size, overlap, seps, 0);
      forall i | 0 <= i < |cs| - 1 ensures cs[i + 1].startChar <= cs[i].endChar {
        assert Follows(cs[i], cs[i + 1], overlap);
      }
    }
  }

  /** Every position of the text lies in some chunk (when chunks overlap rather than skip). */
  lemma ChunkTextCovers(text: string, size: nat, overlap: int, seps: seq<string>, k: nat)
    requires size > 0 && overlap >= 0 && k < |text|
    ensures exists i :: (0 <= i < |ChunkTextWith(text, size, overlap, seps)|
                         && ChunkTextWith(text, size, overlap, seps)[i].startChar <= k < ChunkTextWith(text, size, overlap, seps)[i].endChar)
  {
    var cs := ChunkTextWith(text, size, overlap, seps);
    ChunksFromEnds(text, size, overlap, seps, 0);
    NoGaps(text, size, overlap, seps);
    CoversFrom(cs, k, 0);
  }

  /** Contiguous windows from `cs[i]` on cover every position from `cs[i].startChar` to the end. */
  lemma {:induction false} CoversFrom(cs: seq<Chunk>, k: nat, i: nat)
    requires i < |cs| && cs[i].startChar <= k < cs[|cs| - 1].endChar
    requires forall j :: 0 <= j < |cs| - 1 ==> cs[j + 1].startChar <= cs[j].endChar
    ensures exists j :: i <= j < |cs| && cs[j].startChar <= k < cs[j].endChar
    decreases |cs| - i
  {
    if k >= cs[i].endChar {
      CoversFrom(cs, k, i + 1);
    }
  }

  /** Empty text gives no chunks; text no longer than `size` gives the whole text as one chunk. */
  lemma ShortText(text: string, size: nat, overlap: int, seps: seq<string>)
    requires size > 0 && |text| <= size
    ensures ChunkTextWith(text, size, overlap, seps) == if text == [] then [] else [Chunk(text, 0, |text|)]
  {
  }

  /** The chunker of the source: its window size, overlap and marker list are fixed at
      construction. */
  class RecursiveChunker {
    const chunkSize: nat
    const overlap: int
    const separators: seq<string>

    constructor (chunkSize: nat, overlap: int)
      ensures this.chunkSize == chunkSize && this.overlap == overlap
      ensures separators == Separators
    {
      this.chunkSize := chunkSize;
      this.overlap := overlap;
      this.separators := Separators;
    }

    /** `_find_break_point`: tries each marker in turn and returns at the first that fits. */
    method FindBreakPoint(text: string, start: nat, end: nat) returns (r: nat)
      requires start < end <= |text|
      ensures r == BreakPointWith(text, start, end, separators)
    {
      var i := 0;
      while i < |separators|
        invariant 0 <= i <= |separators|
        invariant BreakPointWith(text, start, end, separators[i..]) == BreakPointWith(text, start, end, separators)
      {
        var separator := separators[i];
        assert separators[i..][1..] == separators[i + 1..];
        if separator == "" {
          return end;
        }
        var searchStart := Max(start, end - Lookback);
        var pos := RFind(text, separator, searchStart, end);
        if pos != -1 && pos > start {
          return pos + |separator|;
        }
        i := i + 1;
      }
      return end;
    }

    /** One pass of `chunk`'s loop when the window does not reach the end of the text: the
        chunk up to the break point, and the cursor for the next pass. */
    method NextWindow(text: string, start: nat) returns (c: Chunk, next: nat)
      requires chunkSize > 0 && start + chunkSize < |text|
      ensures start < next
      ensures ChunksFrom(text, chunkSize, overlap, separators, start)
        == [c] + ChunksFrom(text, chunkSize, overlap, separators, next)
    {
      var chunkEnd := FindBreakPoint(text, start, start + chunkSize);
      ChunksFromStep(text, chunkSize, overlap, separators, start, chunkEnd);
      c := Chunk(text[start..chunkEnd], start, chunkEnd);
      var cursor := chunkEnd - overlap;
      // the cursor must move past the start of the chunk just emitted
      if cursor <= c.startChar {
        cursor := chunkEnd;
      }
      assert cursor == NextStart(start, chunkEnd, overlap);
      next := cursor;
    }

    /** `chunk`: advances a cursor through the text, emitting one window per pass. */
    method ChunkDocument(text: string) returns (chunks: seq<Chunk>)
      requires chunkSize > 0
      ensures chunks == ChunkTextWith(text, chunkSize, overlap, separators)
    {
      if text == [] {
        return [];
      }
      ghost var all := ChunksFrom(text, chunkSize, overlap, separators, 0);
      ghost var rest := all;
      chunks := [];
      var start: nat := 0;
      while start < |text|
        invariant rest == ChunksFrom(text, chunkSize, overlap, separators, start)
        invariant chunks + rest == all
        decreases |text| - start
      {
        if start + chunkSize >= |text| {
          ChunksFromLast(text, chunkSize, overlap, separators, start);
          chunks := chunks + [Chunk(text[start..], start, |text|)];
          assert chunks == all;
          return;
        }
        var c, next := NextWindow(text, start);
        chunks := chunks + [c];
        rest := ChunksFrom(text, chunkSize, overlap, separators, next);
        start := next;
      }
      assert rest == [];
    }
  }

  /** `chunk_text`: a fresh chunker applied once. */
  method ChunkTextMethod(text: string, chunkSize: nat, overlap: int) returns (chunks: seq<Chunk>)
    requires chunkSize > 0
    ensures chunks == ChunkText(text, chunkSize, overlap)
  {
    var chunker := new RecursiveChunker(chunkSize, overlap);
    chunks := chunker.ChunkDocument(text);
  }
}
