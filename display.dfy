/** The display helper of the utility header: a fixed grid of `height` lines of
    `width` characters, each line followed by a terminator column, with up to
    `maxReserved` named ranges `(line, begin, end)`.  `update` blanks one range and
    copies a truncated string into it; `clear` blanks every visible cell; `draw`
    hands the whole grid over in one piece. */
module Displays {
  import opened Maths

  /** A `uint8_t`. */
  type UInt8 = x: int | 0 <= x < 256

  /** The truncating conversion of an `int` to `uint8_t`. */
  function ToUInt8(x: int): (b: UInt8)
    ensures 0 <= x < 256 ==> b == x
  {
    x % 256
  }

  /** A reserved range: cells `begin` to `end`, both inclusive, of line `line`. */
  datatype Range = Range(line: UInt8, begin: UInt8, end: UInt8)

  /** The grid as rows of cells; column `width` of each row is its terminator. */
  type Grid = seq<seq<char>>

  /** `strlen`: the characters of `s` before its first NUL, or all of them. */
  function CLength(s: string): (n: nat)
    ensures n <= |s|
    ensures forall i :: 0 <= i < n ==> s[i] != '\0'
    ensures n < |s| ==> s[n] == '\0'
    decreases |s|
  {
    if s == [] || s[0] == '\0' then 0 else 1 + CLength(s[1..])
  }

  function Spaces(n: nat): (t: string)
    ensures |t| == n
    ensures forall i :: 0 <= i < n ==> t[i] == ' '
  {
    seq(n, _ => ' ')
  }

  /** What a range `n` cells wide holds after `update` with `s`: the first
      `min(n, strlen(s))` characters of `s`, padded with spaces. */
  function Fit(s: string, n: nat): (t: string)
    ensures |t| == n
    ensures forall i :: 0 <= i < n ==> t[i] == if i < Min(n, CLength(s)) then s[i] else ' '
    ensures forall i :: 0 <= i < n ==> t[i] != '\0'
  {
    var k := Min(n, CLength(s));
    s[..k] + Spaces(n - k)
  }

  /** The width of a range. */
  function Span(r: Range): (n: int) {
    r.end - r.begin + 1
  }

  /** A range `update` may write: on a line of the grid, and within the visible columns. */
  predicate InBounds(r: Range, width: nat, height: nat) {
    r.line < height && r.begin <= r.end < width
  }

  /** Two ranges that share no cell. */
  predicate Disjoint(r1: Range, r2: Range) {
    r1.line != r2.line || r1.end < r2.begin || r2.end < r1.begin
  }

  /** A range fits in the grid `g`. */
  predicate FitsIn(r: Range, g: Grid) {
    r.line < |g| && r.begin <= r.end < |g[r.line]|
  }

  /** The cells of range `r` in `g`. */
  function Region(g: Grid, r: Range): (cells: string)
    requires FitsIn(r, g)
  {
    g[r.line][r.begin..r.end + 1]
  }

  /** The grid after `update` with `s` on range `r`: the range holds `Fit(s, Span(r))`
      and every other cell, the terminator column included, is as before. */
  function Overwrite(g: Grid, r: Range, s: string): (g': Grid)
    requires FitsIn(r, g)
    ensures |g'| == |g|
    ensures forall l :: 0 <= l < |g| ==> |g'[l]| == |g[l]|
    ensures forall l, c :: 0 <= l < |g| && 0 <= c < |g[l]| ==>
      g'[l][c] == if l == r.line && r.begin <= c <= r.end then Fit(s, Span(r))[c - r.begin] else g[l][c]
  {
    var row := g[r.line];
    g[r.line := row[..r.begin] + Fit(s, Span(r)) + row[r.end + 1..]]
  }

  /** The grid after `clear`: the first `width` cells of every row are spaces, the rest
      as before. */
  function Cleared(g: Grid, width: nat): (g': Grid)
    requires forall l :: 0 <= l < |g| ==> width <= |g[l]|
    ensures |g'| == |g|
    ensures forall l :: 0 <= l < |g| ==> |g'[l]| == |g[l]|
    ensures forall l, c :: 0 <= l < |g| && 0 <= c < |g[l]| ==>
      g'[l][c] == if c < width then ' ' else g[l][c]
  {
    var g' := seq(|g|, l requires 0 <= l < |g| => Spaces(width) + g[l][width..]);
    assert forall l :: 0 <= l < |g| ==> g'[l] == Spaces(width) + g[l][width..];
    g'
  }

  /** A string with no NUL is its own `strlen`. */
  lemma CLengthWithoutNul(s: string)
    requires forall i :: 0 <= i < |s| ==> s[i] != '\0'
    ensures CLength(s) == |s|
  {
  }

  /** A NUL-free text no longer than the range is copied whole and padded with spaces. */
  lemma FitShortText(s: string, n: nat)
    requires forall i :: 0 <= i < |s| ==> s[i] != '\0'
    requires |s| <= n
    ensures Fit(s, n) == s + Spaces(n - |s|)
  {
    CLengthWithoutNul(s);
    assert s[..|s|] == s;
  }

  /** A text at least as long as the range is cut to the range's width. */
  lemma FitTruncates(s: string, n: nat)
    requires n <= CLength(s)
    ensures Fit(s, n) == s[..n]
  {
  }

  /** A shorter text is padded with spaces to the range's width. */
  lemma FitPads(s: string, n: nat)
    requires CLength(s) <= n
    ensures Fit(s, n) == s[..CLength(s)] + Spaces(n - CLength(s))
  {
  }

  /** After `update`, the range reads exactly the fitted text. */
  lemma RegionAfterOverwrite(g: Grid, r: Range, s: string)
    requires FitsIn(r, g)
    ensures FitsIn(r, Overwrite(g, r, s))
    ensures Region(Overwrite(g, r, s), r) == Fit(s, Span(r))
  {
  }

  /** `update` never alters a range disjoint from the one it writes. */
  lemma OverwriteKeepsDisjointRegion(g: Grid, r: Range, other: Range, s: string)
    requires FitsIn(r, g) && FitsIn(other, g)
    requires Disjoint(r, other)
    ensures FitsIn(other, Overwrite(g, r, s))
    ensures Region(Overwrite(g, r, s), other) == Region(g, other)
  {
  }

  /** Two grids with the same shape and the same cells are equal. */
  lemma GridExt(g: Grid, h: Grid)
    requires |g| == |h|
    requires forall l :: 0 <= l < |g| ==> |g[l]| == |h[l]|
    requires forall l, c :: 0 <= l < |g| && 0 <= c < |g[l]| ==> g[l][c] == h[l][c]
    ensures g == h
  {
    assert forall l :: 0 <= l < |g| ==> g[l] == h[l];
  }

  /** Only the last `update` of a range counts; in particular `update` is idempotent. */
  lemma LastWriteWins(g: Grid, r: Range, s1: string, s2: string)
    requires FitsIn(r, g)
    ensures Overwrite(Overwrite(g, r, s1), r, s2) == Overwrite(g, r, s2)
  {
    GridExt(Overwrite(Overwrite(g, r, s1), r, s2), Overwrite(g, r, s2));
  }

  /** Updates of disjoint ranges commute: the composed grid does not depend on their order. */
  lemma DisjointUpdatesCommute(g: Grid, r1: Range, s1: string, r2: Range, s2: string)
    requires FitsIn(r1, g) && FitsIn(r2, g)
    requires Disjoint(r1, r2)
    ensures Overwrite(Overwrite(g, r1, s1), r2, s2) == Overwrite(Overwrite(g, r2, s2), r1, s1)
  {
    GridExt(Overwrite(Overwrite(g, r1, s1), r2, s2), Overwrite(Overwrite(g, r2, s2), r1, s1));
  }

  /** After `clear`, every range that `update` may write reads as spaces. */
  lemma ClearedBlanksEveryRange(g: Grid, width: nat, r: Range)
    requires forall l :: 0 <= l < |g| ==> width <= |g[l]|
    requires InBounds(r, width, |g|)
    ensures FitsIn(r, Cleared(g, width))
    ensures Region(Cleared(g, width), r) == Spaces(Span(r))
  {
  }

  /** `memset(&a[line][begin], ch, n)`, within one row. */
  method MemSet(a: array2<char>, line: nat, begin: nat, n: nat, ch: char)
    requires line < a.Length0 && begin + n <= a.Length1
    modifies a
    ensures forall l, c :: 0 <= l < a.Length0 && 0 <= c < a.Length1 ==>
      a[l, c] == if l == line && begin <= c < begin + n then ch else old(a[l, c])
  {
    forall c | begin <= c < begin + n {
      a[line, c] := ch;
    }
  }

  /** `strncpy(&a[line][begin], s, n)`: the first `n` cells get the characters of `s`,
      and NULs once `s` has ended. */
  method StrNCpy(a: array2<char>, line: nat, begin: nat, s: string, n: nat)
    requires line < a.Length0 && begin + n <= a.Length1
    modifies a
    ensures forall l, c :: 0 <= l < a.Length0 && 0 <= c < a.Length1 ==>
      a[l, c] == if l == line && begin <= c < begin + n
                 then (if c - begin < CLength(s) then s[c - begin] else '\0')
                 else old(a[l, c])
  {
    var len := CLength(s);
    forall c | begin <= c < begin + n {
      a[line, c] := if c - begin < len then s[c - begin] else '\0';
    }
  }

  class Display {
    const width: UInt8
    const height: UInt8
    const maxReserved: UInt8
    const ranges: array<Range>
    const state: array2<char>

    ghost predicate Valid() {
      ranges.Length == maxReserved && state.Length0 == height && state.Length1 == width + 1
    }

    /** The grid's current cells, row by row. */
    ghost function Cells(): (g: Grid)
      reads state
      ensures |g| == state.Length0
      ensures forall l :: 0 <= l < |g| ==> |g[l]| == state.Length1
      ensures forall l, c :: 0 <= l < state.Length0 && 0 <= c < state.Length1 ==> g[l][c] == state[l, c]
    {
      seq(state.Length0, l requires 0 <= l < state.Length0 reads state =>
        seq(state.Length1, c requires 0 <= c < state.Length1 reads state => state[l, c]))
    }

    /** Every range starts as line 0, cells 0 to 0; every visible cell is blank; every
        terminator but the very last byte is NUL (the initial fill stops one byte short,
        so that byte is left as it was). */
    constructor (width: UInt8, height: UInt8, maxReserved: UInt8)
      requires 1 <= height && 1 <= maxReserved
      ensures this.width == width && this.height == height && this.maxReserved == maxReserved
      ensures Valid() && fresh(ranges) && fresh(state)
      ensures forall i :: 0 <= i < maxReserved ==> ranges[i] == Range(0, 0, 0)
      ensures forall l, c :: 0 <= l < height && 0 <= c < width ==> state[l, c] == ' '
      ensures forall l :: 0 <= l < height - 1 ==> state[l, width] == '\0'
    {
      this.width := width;
      this.height := height;
      this.maxReserved := maxReserved;
      ranges := new Range[maxReserved](_ => Range(0, 0, 0));
      var cells := new char[height, width + 1];
      forall l, c | 0 <= l < height && 0 <= c <= width && !(l == height - 1 && c == width) {
        cells[l, c] := '\0';
      }
      state := cells;
      new;
      Clear();
    }

    /** Record range `id`; an `id` past the table is ignored.  Nothing is checked about
        the line or the columns. */
    method Reserve(id: UInt8, line: UInt8, begin: UInt8, end: UInt8)
      requires Valid()
      modifies ranges
      ensures id < maxReserved ==> ranges[..] == old(ranges[..])[id := Range(line, begin, end)]
      ensures id >= maxReserved ==> ranges[..] == old(ranges[..])
    {
      if id >= maxReserved {
        return;
      }
      ranges[id] := Range(line, begin, end);
    }

    /** Blank range `id`, then copy as much of `s` as fits into it. */
    method Update(id: UInt8, s: string)
      requires Valid()
      requires id < maxReserved
      requires InBounds(ranges[id], width, height)
      modifies state
      ensures Cells() == Overwrite(old(Cells()), ranges[id], s)
    {
      var r := ranges[id];
      var range := r.end - r.begin + 1;
      var size := ToUInt8(Min(range, CLength(s)));
      MemSet(state, r.line, r.begin, range, ' ');
      StrNCpy(state, r.line, r.begin, s, size);
      GridExt(Cells(), Overwrite(old(Cells()), r, s));
    }

    /** The whole grid, handed over in one piece with its width and height. */
    method Draw() returns (frame: Grid, w: UInt8, h: UInt8)
      requires Valid()
      ensures frame == Cells()
      ensures w == width && h == height
    {
      frame := seq(height, l requires 0 <= l < height reads state =>
        seq(width + 1, c requires 0 <= c <= width reads state => state[l, c]));
      w, h := width, height;
      GridExt(frame, Cells());
    }

    /** Blank the visible cells of every line, one line at a time. */
    method Clear()
      requires Valid()
      modifies state
      ensures Cells() == Cleared(old(Cells()), width)
    {
      var line := 0;
      while line < height
        invariant 0 <= line <= height
        invariant forall l, c :: 0 <= l < height && 0 <= c <= width ==>
          state[l, c] == if l < line && c < width then ' ' else old(state[l, c])
      {
        MemSet(state, line, 0, width, ' ');
        line := line + 1;
      }
      GridExt(Cells(), Cleared(old(Cells()), width));
    }
  }
}
