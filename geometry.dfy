/**
 * Integer geometry of the quadtree (quadtree.py): the depth search, the bounding box,
 * the enumeration of base-4 paths, the path-to-chunk-range mapping and the gathering of
 * the chunks a leaf tile needs.
 */
module Geometry {
  import opened Common

  /** One digit of a quadtree path: 0 top-left, 1 top-right, 2 bottom-left, 3 bottom-right. */
  type Quadrant = x: int | 0 <= x < 4

  type Path = seq<Quadrant>

  /** The processed world as the builder sees it: chunk extents and the chunk image index. */
  datatype World = World(mincol: int, maxcol: int, minrow: int, maxrow: int, chunkmap: map<(int, int), string>)

  /** The depth search tries p = 0, 1, ..., DepthLimit - 1. */
  const DepthLimit: nat := 15

  /** A tree of depth p, 2^p tiles wide and high, reaches every chunk of the world. */
  predicate Covers(w: World, p: nat) {
    && Pow2(p) >= w.maxcol
    && -Pow2(p) <= w.mincol
    && 2 * Pow2(p) >= w.maxrow
    && -(2 * Pow2(p)) <= w.minrow
  }

  /** The depth search of the constructor: the least p below DepthLimit that covers the world. */
  method SearchDepth(w: World) returns (r: Result<nat>)
    ensures r.Ok? ==> r.value < DepthLimit && Covers(w, r.value)
    ensures r.Ok? ==> forall q: nat :: q < r.value ==> !Covers(w, q)
    ensures r.Err? ==> r.error == MapTooBig
    ensures r.Err? ==> forall q: nat :: q < DepthLimit ==> !Covers(w, q)
  {
    var p := 0;
    while p < DepthLimit
      invariant p <= DepthLimit
      invariant forall q: nat :: q < p ==> !Covers(w, q)
    {
      if Covers(w, p) {
        return Ok(p);
      }
      p := p + 1;
    }
    return Err(MapTooBig);
  }

  /** A deeper tree covers whatever a shallower one covers, so the least covering depth is
      also the point from which every depth covers. */
  lemma {:induction false} CoversMonotone(w: World, p: nat, q: nat)
    requires Covers(w, p) && p <= q
    ensures Covers(w, q)
  {
    Pow2Monotone(p, q);
  }

  /** The bounding box fixed after the depth is chosen or overridden. */
  datatype Bounds = Bounds(p: nat, mincol: int, maxcol: int, minrow: int, maxrow: int)

  function BoundsFor(p: nat): Bounds {
    Bounds(p, -Pow2(p), Pow2(p), -(2 * Pow2(p)), 2 * Pow2(p))
  }

  // ---------------------------------------------------------------------------------------
  // iterate_base4

  /** The number a path spells in base 4, most significant digit first. */
  function Base4Value(q: Path): nat {
    if q == [] then 0 else 4 * Base4Value(q[..|q| - 1]) + q[|q| - 1]
  }

  /** iterate_base4(d): every d-digit path, in the order of itertools.product, which is
      counting in base 4: the i-th path spells i. */
  function Base4Paths(d: nat): (r: seq<Path>)
    ensures |r| == Pow4(d)
    ensures forall i :: 0 <= i < |r| ==> |r[i]| == d && Base4Value(r[i]) == i
  {
    if d == 0 then [[]]
    else
      var shorter := Base4Paths(d - 1);
      var r := seq(4 * |shorter|, i requires 0 <= i < 4 * |shorter| => shorter[i / 4] + [i % 4]);
      assert forall i :: 0 <= i < |r| ==> r[i][..|r[i]| - 1] == shorter[i / 4];
      r
  }

  lemma {:induction false} Base4ValueBound(q: Path)
    ensures Base4Value(q) < Pow4(|q|)
  {
    if q != [] {
      Base4ValueBound(q[..|q| - 1]);
    }
  }

  lemma {:induction false} Base4ValueInjective(q1: Path, q2: Path)
    requires |q1| == |q2| && Base4Value(q1) == Base4Value(q2)
    ensures q1 == q2
  {
    if q1 != [] {
      var n := |q1| - 1;
      Base4ValueInjective(q1[..n], q2[..n]);
      assert q1 == q1[..n] + [q1[n]] && q2 == q2[..n] + [q2[n]];
    }
  }

  /** Every d-digit path is enumerated, exactly once. */
  lemma Base4PathsExactlyOnce(d: nat, q: Path)
    requires |q| == d
    ensures q in Base4Paths(d)
    ensures forall i, j :: 0 <= i < j < |Base4Paths(d)| ==> Base4Paths(d)[i] != Base4Paths(d)[j]
  {
    var r := Base4Paths(d);
    Base4ValueBound(q);
    var v := Base4Value(q);
    Base4ValueInjective(q, r[v]);
  }

  // ---------------------------------------------------------------------------------------
  // _get_range_by_path

  /** Column of a path's tile among the 2^|q| columns of its level: digits 1 and 3 are the
      right halves. */
  function ColIndex(q: Path): nat {
    if q == [] then 0 else 2 * ColIndex(q[..|q| - 1]) + q[|q| - 1] % 2
  }

  /** Row of a path's tile among the 2^|q| rows of its level: digits 2 and 3 are the
      bottom halves. */
  function RowIndex(q: Path): nat {
    if q == [] then 0 else 2 * RowIndex(q[..|q| - 1]) + q[|q| - 1] / 2
  }

  /** _get_range_by_path: the top-left chunk (colstart, rowstart) of the rectangle a path
      selects. Each digit moves right by the current column step when it is 1 or 3 and down
      by the current row step when it is 2 or 3, then both steps halve. For a path no longer
      than the depth, the result is the path's column and row scaled by the tile size of
      its level. */
  method RangeByPath(b: Bounds, path: Path) returns (colstart: int, rowstart: int)
    requires b == BoundsFor(b.p)
    ensures |path| <= b.p ==> colstart == b.mincol + Pow2(b.p - |path| + 1) * ColIndex(path)
    ensures |path| <= b.p ==> rowstart == b.minrow + Pow2(b.p - |path| + 2) * RowIndex(path)
  {
    var x, y := b.mincol, b.minrow;
    var xsize, ysize := b.maxcol, b.maxrow;
    var i := 0;
    while i < |path|
      invariant i <= |path|
      invariant i <= b.p ==> xsize == Pow2(b.p - i) && ysize == 2 * Pow2(b.p - i)
      invariant i <= b.p ==> x == b.mincol + Pow2(b.p - i + 1) * ColIndex(path[..i])
      invariant i <= b.p ==> y == b.minrow + Pow2(b.p - i + 2) * RowIndex(path[..i])
    {
      var d := path[i];
      if d == 1 || d == 3 {
        x := x + xsize;
      }
      if d == 2 || d == 3 {
        y := y + ysize;
      }
      xsize := xsize / 2;
      ysize := ysize / 2;
      if i + 1 <= b.p {
        StepInvariant(b.p, i, path);
      }
      i := i + 1;
    }
    assert path[..i] == path;
    colstart, rowstart := x, y;
  }

  /** The arithmetic of one digit of RangeByPath. */
  lemma StepInvariant(p: nat, i: nat, path: Path)
    requires i < |path| && i + 1 <= p
    ensures Pow2(p - i) / 2 == Pow2(p - (i + 1))
    ensures 2 * Pow2(p - i) / 2 == 2 * Pow2(p - (i + 1))
    ensures Pow2(p - i + 1) * ColIndex(path[..i]) + (if path[i] == 1 || path[i] == 3 then Pow2(p - i) else 0)
         == Pow2(p - (i + 1) + 1) * ColIndex(path[..i + 1])
    ensures Pow2(p - i + 2) * RowIndex(path[..i]) + (if path[i] == 2 || path[i] == 3 then 2 * Pow2(p - i) else 0)
         == Pow2(p - (i + 1) + 2) * RowIndex(path[..i + 1])
  {
    var s := Pow2(p - i - 1);
    assert Pow2(p - i) == 2 * s;
    assert Pow2(p - i + 1) == 4 * s;
    assert Pow2(p - i + 2) == 8 * s;
    assert path[..i + 1][..i] == path[..i];
    var c := ColIndex(path[..i]);
    var r := RowIndex(path[..i]);
    var xbit := path[i] % 2;
    var ybit := path[i] / 2;
    assert ColIndex(path[..i + 1]) == 2 * c + xbit;
    assert RowIndex(path[..i + 1]) == 2 * r + ybit;
    assert (if path[i] == 1 || path[i] == 3 then 2 * s else 0) == xbit * (2 * s);
    assert (if path[i] == 2 || path[i] == 3 then 4 * s else 0) == ybit * (4 * s);
    Distribute(2 * s, c, xbit);
    Distribute(4 * s, r, ybit);
  }

  lemma Distribute(a: int, c: int, bit: int)
    ensures (2 * a) * c + bit * a == a * (2 * c + bit)
  {
  }

  /** Top-left chunk of the leaf tile at a full-depth path: what RangeByPath returns when
      |q| == p. */
  function LeafStart(b: Bounds, q: Path): (int, int) {
    (b.mincol + 2 * ColIndex(q), b.minrow + 4 * RowIndex(q))
  }

  lemma {:induction false} IndexBounds(q: Path)
    ensures ColIndex(q) < Pow2(|q|) && RowIndex(q) < Pow2(|q|)
  {
    if q != [] {
      IndexBounds(q[..|q| - 1]);
    }
  }

  lemma {:induction false} IndexInjective(q1: Path, q2: Path)
    requires |q1| == |q2|
    requires ColIndex(q1) == ColIndex(q2) && RowIndex(q1) == RowIndex(q2)
    ensures q1 == q2
  {
    if q1 != [] {
      var n := |q1| - 1;
      IndexInjective(q1[..n], q2[..n]);
      assert q1[n] == q1[n] % 2 + 2 * (q1[n] / 2);
      assert q1 == q1[..n] + [q1[n]] && q2 == q2[..n] + [q2[n]];
    }
  }

  /** The n-digit path in column i and row j of its level. */
  function PathAt(n: nat, i: nat, j: nat): (q: Path)
    requires i < Pow2(n) && j < Pow2(n)
    ensures |q| == n && ColIndex(q) == i && RowIndex(q) == j
  {
    if n == 0 then []
    else
      var q := PathAt(n - 1, i / 2, j / 2) + [i % 2 + 2 * (j % 2)];
      assert q[..n - 1] == PathAt(n - 1, i / 2, j / 2);
      q
  }

  /** The paths iterate_base4(p) yields are the cells of the 2^p by 2^p leaf grid: as many
      paths as cells, and every cell's path among them. */
  lemma LeafGrid(p: nat)
    ensures |Base4Paths(p)| == Pow2(p) * Pow2(p)
    ensures forall i: nat, j: nat :: i < Pow2(p) && j < Pow2(p) ==> PathAt(p, i, j) in Base4Paths(p)
  {
    Pow4IsSquare(p);
    forall i: nat, j: nat | i < Pow2(p) && j < Pow2(p)
      ensures PathAt(p, i, j) in Base4Paths(p)
    {
      Base4PathsExactlyOnce(p, PathAt(p, i, j));
    }
  }

  /** Leaf (col, row) cell membership: the half-open rectangle a full-depth path owns. */
  predicate InLeaf(b: Bounds, q: Path, col: int, row: int) {
    var (cs, rs) := LeafStart(b, q);
    cs <= col < cs + 2 && rs <= row < rs + 4
  }

  /** Every leaf rectangle lies inside the bounding box, on the grid of 2-column by 4-row
      cells that starts at its top-left corner. */
  lemma LeafInBounds(b: Bounds, q: Path)
    requires b == BoundsFor(b.p) && |q| == b.p
    ensures b.mincol <= LeafStart(b, q).0 && LeafStart(b, q).0 + 2 <= b.maxcol
    ensures b.minrow <= LeafStart(b, q).1 && LeafStart(b, q).1 + 4 <= b.maxrow
    ensures (LeafStart(b, q).0 - b.mincol) % 2 == 0 && (LeafStart(b, q).1 - b.minrow) % 4 == 0
  {
    IndexBounds(q);
    LeafArith(Pow2(b.p), ColIndex(q), RowIndex(q));
  }

  /** The arithmetic of LeafInBounds for a grid 2n columns and 4n rows across. */
  lemma LeafArith(n: int, c: int, r: int)
    requires 0 <= c < n && 0 <= r < n
    ensures -n <= -n + 2 * c && -n + 2 * c + 2 <= n && (2 * c) % 2 == 0
    ensures -(2 * n) <= -(2 * n) + 4 * r && -(2 * n) + 4 * r + 4 <= 2 * n && (4 * r) % 4 == 0
  {
  }

  /** Distinct full-depth paths own disjoint rectangles. */
  lemma LeavesDisjoint(b: Bounds, q1: Path, q2: Path, col: int, row: int)
    requires |q1| == |q2|
    requires InLeaf(b, q1, col, row) && InLeaf(b, q2, col, row)
    ensures q1 == q2
  {
    var c1, c2 := ColIndex(q1), ColIndex(q2);
    var r1, r2 := RowIndex(q1), RowIndex(q2);
    assert c1 == c2 by {
      assert b.mincol + 2 * c1 <= col < b.mincol + 2 * c1 + 2;
      assert b.mincol + 2 * c2 <= col < b.mincol + 2 * c2 + 2;
    }
    assert r1 == r2 by {
      assert b.minrow + 4 * r1 <= row < b.minrow + 4 * r1 + 4;
      assert b.minrow + 4 * r2 <= row < b.minrow + 4 * r2 + 4;
    }
    IndexInjective(q1, q2);
  }

  /** The full-depth path whose rectangle holds (col, row): the leaf rectangles tile the
      bounding box. */
  function LeafContaining(b: Bounds, col: int, row: int): (q: Path)
    requires b == BoundsFor(b.p)
    requires b.mincol <= col < b.maxcol && b.minrow <= row < b.maxrow
    ensures |q| == b.p && InLeaf(b, q, col, row)
  {
    var i := (col - b.mincol) / 2;
    var j := (row - b.minrow) / 4;
    PathAt(b.p, i, j)
  }

  // ---------------------------------------------------------------------------------------
  // _get_chunks_in_range

  datatype ChunkEntry = ChunkEntry(col: int, row: int, file: string)

  /** The entry for one grid cell: present when the chunk map holds a non-empty file name
      (an empty name is falsy in the source and skipped). */
  function CellChunk(m: map<(int, int), string>, col: int, row: int): seq<ChunkEntry> {
    if (col, row) in m && m[(col, row)] != "" then [ChunkEntry(col, row, m[(col, row)])] else []
  }

  /** Entries of one row, columns c0 .. c1 - 1, left to right. */
  function RowChunks(m: map<(int, int), string>, row: int, c0: int, c1: int): seq<ChunkEntry>
    decreases c1 - c0
  {
    if c1 <= c0 then [] else RowChunks(m, row, c0, c1 - 1) + CellChunk(m, c1 - 1, row)
  }

  /** Entries of rows r0 .. r1 - 1, columns colstart .. colend, row after row. */
  function WindowChunks(m: map<(int, int), string>, colstart: int, colend: int, r0: int, r1: int): seq<ChunkEntry>
    decreases r1 - r0
  {
    if r1 <= r0 then [] else WindowChunks(m, colstart, colend, r0, r1 - 1) + RowChunks(m, r1 - 1, colstart, colend + 1)
  }

  /** The chunk window of a leaf: columns colstart..colend and rows rowstart-16..rowend,
      both ends inclusive, so that content drawn up from lower rows is included. */
  predicate InWindow(e: ChunkEntry, colstart: int, colend: int, rowstart: int, rowend: int) {
    colstart <= e.col <= colend && rowstart - 16 <= e.row <= rowend
  }

  /** _get_chunks_in_range. */
  method ChunksInRange(m: map<(int, int), string>, colstart: int, colend: int, rowstart: int, rowend: int)
    returns (chunklist: seq<ChunkEntry>)
    ensures chunklist == WindowChunks(m, colstart, colend, rowstart - 16, rowend + 1)
  {
    chunklist := [];
    var row := rowstart - 16;
    while row < rowend + 1
      invariant row == rowstart - 16 || rowstart - 16 < row <= rowend + 1
      invariant chunklist == WindowChunks(m, colstart, colend, rowstart - 16, row)
    {
      var col := colstart;
      while col < colend + 1
        invariant col == colstart || colstart < col <= colend + 1
        invariant chunklist == WindowChunks(m, colstart, colend, rowstart - 16, row) + RowChunks(m, row, colstart, col)
      {
        var key := (col, row);
        if key in m && m[key] != "" {
          chunklist := chunklist + [ChunkEntry(col, row, m[key])];
        }
        col := col + 1;
      }
      row := row + 1;
    }
  }

  /** Row-major order: by ascending row, then ascending column. */
  predicate RowMajorBefore(a: ChunkEntry, b: ChunkEntry) {
    a.row < b.row || (a.row == b.row && a.col < b.col)
  }

  predicate RowMajorSorted(l: seq<ChunkEntry>) {
    forall i, j :: 0 <= i < j < |l| ==> RowMajorBefore(l[i], l[j])
  }

  /** A map entry that belongs in a chunk list. */
  predicate Listed(m: map<(int, int), string>, e: ChunkEntry) {
    (e.col, e.row) in m && m[(e.col, e.row)] == e.file && e.file != ""
  }

  lemma {:induction false} RowChunksSpec(m: map<(int, int), string>, row: int, c0: int, c1: int)
    ensures forall e :: e in RowChunks(m, row, c0, c1) <==> Listed(m, e) && e.row == row && c0 <= e.col < c1
    ensures RowMajorSorted(RowChunks(m, row, c0, c1))
    decreases c1 - c0
  {
    if c0 < c1 {
      RowChunksSpec(m, row, c0, c1 - 1);
    }
  }

  lemma {:induction false} WindowChunksSpec(m: map<(int, int), string>, colstart: int, colend: int, r0: int, r1: int)
    ensures forall e :: e in WindowChunks(m, colstart, colend, r0, r1) <==>
      Listed(m, e) && colstart <= e.col <= colend && r0 <= e.row < r1
    ensures RowMajorSorted(WindowChunks(m, colstart, colend, r0, r1))
    decreases r1 - r0
  {
    if r0 < r1 {
      var a := WindowChunks(m, colstart, colend, r0, r1 - 1);
      var b := RowChunks(m, r1 - 1, colstart, colend + 1);
      WindowChunksSpec(m, colstart, colend, r0, r1 - 1);
      RowChunksSpec(m, r1 - 1, colstart, colend + 1);
      forall i, j | 0 <= i < j < |a + b|
        ensures RowMajorBefore((a + b)[i], (a + b)[j])
      {
        if j < |a| {
        } else if i >= |a| {
          assert (a + b)[i] == b[i - |a|] && (a + b)[j] == b[j - |a|];
        } else {
          assert (a + b)[i] == a[i] && a[i] in a;
          assert (a + b)[j] == b[j - |a|] && b[j - |a|] in b;
        }
      }
    }
  }

  /** What _get_chunks_in_range returns: exactly the listed chunks of the leaf's window,
      in row-major order. */
  lemma ChunkListSpec(m: map<(int, int), string>, colstart: int, colend: int, rowstart: int, rowend: int)
    ensures forall e :: e in WindowChunks(m, colstart, colend, rowstart - 16, rowend + 1) <==>
      Listed(m, e) && InWindow(e, colstart, colend, rowstart, rowend)
    ensures RowMajorSorted(WindowChunks(m, colstart, colend, rowstart - 16, rowend + 1))
  {
    WindowChunksSpec(m, colstart, colend, rowstart - 16, rowend + 1);
  }

  /** No chunk of a covered world is missed: every chunk within the world's extents falls in
      the (inclusive) window of at least one leaf, because the half-open leaf rectangles tile
      the bounding box and each window reaches one column and one row past its rectangle. */
  lemma EveryChunkGathered(w: World, p: nat, col: int, row: int)
    requires Covers(w, p)
    requires w.mincol <= col <= w.maxcol && w.minrow <= row <= w.maxrow
    ensures exists q: Path ::
      && |q| == p
      && InWindow(ChunkEntry(col, row, ""), LeafStart(BoundsFor(p), q).0, LeafStart(BoundsFor(p), q).0 + 2,
                  LeafStart(BoundsFor(p), q).1, LeafStart(BoundsFor(p), q).1 + 4)
  {
    var b := BoundsFor(p);
    var c := if col == b.maxcol then col - 1 else col;
    var r := if row == b.maxrow then row - 1 else row;
    var q := LeafContaining(b, c, r);
    var (cs, rs) := LeafStart(b, q);
    assert InWindow(ChunkEntry(col, row, ""), cs, cs + 2, rs, rs + 4);
  }
}
