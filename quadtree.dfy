/**
 * The quadtree generator of quadtree.py: the QuadtreeGen object (depth and tile grid), the
 * depth changes it makes to an existing tile tree, and go(), which runs the whole build.
 * go() is proved equal to replaying its task schedule (resizes, every deepest tile, every
 * inner level from the deepest up, then the top tile) on the destination tree.
 */
module Quadtree {
  import opened Common
  import opened Geometry
  import opened TileStore
  import opened Resize
  import opened Render

  /** The tree with its tiles/ directory replaced. */
  function WithTiles(d: Dir, t: Dir): Dir {
    d.(subs := d.subs["tiles" := t])
  }

  lemma TilesExists(d: Dir)
    ensures DirExists(d, ["tiles"]) <==> "tiles" in d.subs
    ensures "tiles" in d.subs ==> Get(d, ["tiles"]) == Some(d.subs["tiles"])
  {
    GetIn(d, "tiles", []);
    assert ["tiles"] + [] == ["tiles"];
  }

  // ---------------------------------------------------------------------------------------
  // One iteration of _increase_depth, step by step

  /** tiles/ part way through moving quadrant k into the fresh directory new<k>: the image,
      the fingerprint and the directory of k have been moved as the flags say. */
  function Partial(t: Dir, k: Quadrant, png: bool, hash: bool, sub: bool): Dir {
    var n, c, nd := Name(k), Name(3 - k), TempName(k);
    var moved := Nested(t, k);
    Dir(if png then t.pngs - {n} else t.pngs,
        if hash then t.hashes - {n} else t.hashes,
        (if sub then t.subs - {n} else t.subs)[nd := Dir(if png then moved.pngs else map[],
                                                          if hash then moved.hashes else map[],
                                                          if sub then moved.subs else map[])])
  }

  lemma TempNameNotQuadrant(j: Quadrant, k: Quadrant)
    ensures TempName(j) != Name(k)
  {
    assert |TempName(j)| == 4 && |Name(k)| == 1;
  }

  /** os.mkdir(tiles/new<k>). */
  lemma GrowMkdir(d: Dir, k: Quadrant)
    requires "tiles" in d.subs
    ensures Update(d, ["tiles"] + [TempName(k)], EmptyDir) == WithTiles(d, Partial(d.subs["tiles"], k, false, false, false))
  {
    UpdateIn(d, "tiles", [TempName(k)], EmptyDir);
  }

  /** os.rename(tiles/k.png, tiles/new<k>/(3-k).png). */
  lemma GrowMovePng(d: Dir, t: Dir, k: Quadrant)
    requires "tiles" in d.subs && Name(k) in t.pngs
    ensures var d1 := WithTiles(d, Partial(t, k, false, false, false));
      var src, dst := Slot(["tiles"], Name(k)), Slot(["tiles", TempName(k)], Name(3 - k));
      && PngAt(d1, src) == Some(t.pngs[Name(k)]) && DirExists(d1, dst.dir) && PngAt(d1, dst).None?
      && DirExists(d1, src.dir) && DirExists(SetPng(d1, src, None), dst.dir)
      && SetPng(SetPng(d1, src, None), dst, PngAt(d1, src)) == WithTiles(d, Partial(t, k, true, false, false))
  {
    var n, c, nd := Name(k), Name(3 - k), TempName(k);
    TempNameNotQuadrant(k, k);
    var t1 := Partial(t, k, false, false, false);
    var d1 := WithTiles(d, t1);
    assert ["tiles"] == ["tiles"] + [] && ["tiles", nd] == ["tiles"] + [nd] && [nd] == [nd] + [];
    PngAtIn(d1, "tiles", Slot([], n));
    PngAtIn(d1, "tiles", Slot([nd], c));
    PngAtIn(t1, nd, Slot([], c));
    GetIn(t1, nd, []);
    SetPngIn(d1, "tiles", Slot([], n), None);
    var t2 := SetPng(t1, Slot([], n), None);
    var d2 := SetPng(d1, Slot(["tiles"], n), None);
    assert d2 == WithTiles(d, t2);
    GetIn(t2, nd, []);
    SetPngIn(d2, "tiles", Slot([nd], c), Some(t.pngs[n]));
    SetPngIn(t2, nd, Slot([], c), Some(t.pngs[n]));
    assert t2 == t1.(pngs := t1.pngs - {n});
    assert t2.subs[nd] == EmptyDir;
    assert SetPng(EmptyDir, Slot([], c), Some(t.pngs[n])) == Dir(map[c := t.pngs[n]], map[], map[]);
    var t3 := SetPng(t2, Slot([nd], c), Some(t.pngs[n]));
    assert t3 == Partial(t, k, true, false, false);
    assert SetPng(d2, Slot(["tiles", nd], c), Some(t.pngs[n])) == WithTiles(d, t3);
  }

  /** os.rename(tiles/k.hash, tiles/new<k>/(3-k).hash). */
  lemma GrowMoveHash(d: Dir, t: Dir, k: Quadrant)
    requires "tiles" in d.subs && Name(k) in t.hashes
    ensures var d1 := WithTiles(d, Partial(t, k, true, false, false));
      var src, dst := Slot(["tiles"], Name(k)), Slot(["tiles", TempName(k)], Name(3 - k));
      && HashAt(d1, src) == Some(t.hashes[Name(k)]) && DirExists(d1, dst.dir) && HashAt(d1, dst).None?
      && DirExists(d1, src.dir) && DirExists(SetHash(d1, src, None), dst.dir)
      && SetHash(SetHash(d1, src, None), dst, HashAt(d1, src)) == WithTiles(d, Partial(t, k, true, true, false))
  {
    var n, c, nd := Name(k), Name(3 - k), TempName(k);
    TempNameNotQuadrant(k, k);
    var t1 := Partial(t, k, true, false, false);
    var d1 := WithTiles(d, t1);
    assert ["tiles"] == ["tiles"] + [] && ["tiles", nd] == ["tiles"] + [nd] && [nd] == [nd] + [];
    HashAtIn(d1, "tiles", Slot([], n));
    HashAtIn(d1, "tiles", Slot([nd], c));
    HashAtIn(t1, nd, Slot([], c));
    GetIn(t1, nd, []);
    SetHashIn(d1, "tiles", Slot([], n), None);
    var t2 := SetHash(t1, Slot([], n), None);
    var d2 := SetHash(d1, Slot(["tiles"], n), None);
    assert d2 == WithTiles(d, t2);
    GetIn(t2, nd, []);
    SetHashIn(d2, "tiles", Slot([nd], c), Some(t.hashes[n]));
    SetHashIn(t2, nd, Slot([], c), Some(t.hashes[n]));
    assert t2 == t1.(hashes := t1.hashes - {n});
    var inner := t2.subs[nd];
    assert inner == Dir(Nested(t, k).pngs, map[], map[]);
    assert SetHash(inner, Slot([], c), Some(t.hashes[n])) == inner.(hashes := map[c := t.hashes[n]]);
    var t3 := SetHash(t2, Slot([nd], c), Some(t.hashes[n]));
    assert t3 == Partial(t, k, true, true, false);
  }

  /** os.rename(tiles/k, tiles/new<k>/(3-k)). */
  lemma GrowMoveDir(d: Dir, t: Dir, k: Quadrant)
    requires "tiles" in d.subs && Name(k) in t.subs
    ensures var d1 := WithTiles(d, Partial(t, k, true, true, false));
      var src, dst := ["tiles", Name(k)], ["tiles", TempName(k), Name(3 - k)];
      && DirExists(d1, src) && Get(d1, src) == Some(t.subs[Name(k)])
      && DirExists(Remove(d1, src), dst[..|dst| - 1]) && !DirExists(Remove(d1, src), dst)
      && Update(Remove(d1, src), dst, t.subs[Name(k)]) == WithTiles(d, Partial(t, k, true, true, true))
  {
    var n, c, nd := Name(k), Name(3 - k), TempName(k);
    TempNameNotQuadrant(k, k);
    var t1 := Partial(t, k, true, true, false);
    var d1 := WithTiles(d, t1);
    var src, dst := ["tiles", n], ["tiles", nd, c];
    assert src == ["tiles"] + [n] && dst == ["tiles"] + [nd, c] && dst[..|dst| - 1] == ["tiles"] + [nd];
    assert [nd, c] == [nd] + [c];
    GetIn(d1, "tiles", [n]);
    GetIn(t1, n, []);
    RemoveIn(d1, "tiles", [n]);
    var t2 := Remove(t1, [n]);
    var d2 := Remove(d1, src);
    assert d2 == WithTiles(d, t2);
    GetIn(d2, "tiles", [nd]);
    GetIn(d2, "tiles", [nd, c]);
    GetIn(t2, nd, [c]);
    GetIn(t2.subs[nd], c, []);
    UpdateIn(d2, "tiles", [nd, c], t.subs[n]);
    UpdateIn(t2, nd, [c], t.subs[n]);
    UpdateChild(t2.subs[nd], c, t.subs[n]);
    assert t2 == t1.(subs := t1.subs - {n});
    var inner := t2.subs[nd];
    assert inner == Dir(Nested(t, k).pngs, Nested(t, k).hashes, map[]);
    var t3 := Update(t2, [nd, c], t.subs[n]);
    assert t3 == t2.(subs := t2.subs[nd := inner.(subs := map[c := t.subs[n]])]);
    assert t3 == Partial(t, k, true, true, true);
  }

  /** os.rename(tiles/new<k>, tiles/k): quadrant k now holds the old quadrant one level down. */
  lemma GrowRenameBack(d: Dir, t: Dir, k: Quadrant)
    requires "tiles" in d.subs && TempName(k) !in t.subs
    ensures var d1 := WithTiles(d, Partial(t, k, true, true, true));
      var src, dst := ["tiles", TempName(k)], ["tiles", Name(k)];
      && DirExists(d1, src)
      && DirExists(Remove(d1, src), dst[..|dst| - 1]) && !DirExists(Remove(d1, src), dst)
      && Update(Remove(d1, src), dst, Get(d1, src).value) == WithTiles(d, GrowStep(t, k))
  {
    var n, nd := Name(k), TempName(k);
    TempNameNotQuadrant(k, k);
    var t1 := Partial(t, k, true, true, true);
    var d1 := WithTiles(d, t1);
    var src, dst := ["tiles", nd], ["tiles", n];
    assert src == ["tiles"] + [nd] && dst == ["tiles"] + [n] && dst[..|dst| - 1] == ["tiles"];
    GetIn(d1, "tiles", [nd]);
    GetIn(t1, nd, []);
    RemoveIn(d1, "tiles", [nd]);
    var t2 := Remove(t1, [nd]);
    var d2 := Remove(d1, src);
    assert d2 == WithTiles(d, t2);
    TilesExists(d2);
    GetIn(d2, "tiles", [n]);
    GetIn(t2, n, []);
    UpdateIn(d2, "tiles", [n], Nested(t, k));
    UpdateChild(t2, n, Nested(t, k));
    assert t2.subs[n := Nested(t, k)] == t.subs[n := Nested(t, k)];
  }

  /** Moving something that is not there changes nothing. */
  lemma PartialNoop(t: Dir, k: Quadrant)
    ensures Name(k) !in t.pngs ==> Partial(t, k, false, false, false) == Partial(t, k, true, false, false)
    ensures Name(k) !in t.hashes ==> Partial(t, k, true, false, false) == Partial(t, k, true, true, false)
    ensures Name(k) !in t.subs ==> Partial(t, k, true, true, false) == Partial(t, k, true, true, true)
  {
  }

  /** No temporary directory exists under tiles/. */
  lemma NoTempDirsIn(d: Dir, k: Quadrant)
    requires NoTempDirs(d) && "tiles" in d.subs
    ensures TempName(k) !in d.subs["tiles"].subs
    ensures !DirExists(d, ["tiles"] + [TempName(k)])
  {
    assert ["tiles", TempName(k)] == ["tiles"] + [TempName(k)];
    GetIn(d, "tiles", [TempName(k)]);
    GetIn(d.subs["tiles"], TempName(k), []);
  }

  // ---------------------------------------------------------------------------------------
  // One block of _decrease_depth, step by step

  /** tiles/ after os.rename(tiles/k/(3-k), tiles/new<k>). */
  function Detached(t: Dir, k: Quadrant): Dir
    requires Name(k) in t.subs && Name(3 - k) in t.subs[Name(k)].subs
  {
    var n, c := Name(k), Name(3 - k);
    var x := t.subs[n];
    t.(subs := t.subs[n := x.(subs := x.subs - {c})][TempName(k) := x.subs[c]])
  }

  /** os.rename(tiles/k/(3-k), tiles/new<k>). */
  lemma ShrinkDetach(d: Dir, k: Quadrant)
    requires "tiles" in d.subs
    requires var t := d.subs["tiles"]; Name(k) in t.subs && Name(3 - k) in t.subs[Name(k)].subs
    requires TempName(k) !in d.subs["tiles"].subs
    ensures var src, dst := ["tiles", Name(k), Name(3 - k)], ["tiles", TempName(k)];
      && DirExists(d, src)
      && DirExists(Remove(d, src), dst[..|dst| - 1]) && !DirExists(Remove(d, src), dst)
      && Update(Remove(d, src), dst, Get(d, src).value) == WithTiles(d, Detached(d.subs["tiles"], k))
  {
    var t := d.subs["tiles"];
    var n, c, nd := Name(k), Name(3 - k), TempName(k);
    TempNameNotQuadrant(k, k);
    var src, dst := ["tiles", n, c], ["tiles", nd];
    assert src == ["tiles"] + [n, c] && [n, c] == [n] + [c] && dst == ["tiles"] + [nd];
    assert dst[..|dst| - 1] == ["tiles"] == ["tiles"] + [];
    GetIn(d, "tiles", [n, c]);
    GetIn(t, n, [c]);
    GetIn(t.subs[n], c, []);
    RemoveIn(d, "tiles", [n, c]);
    RemoveIn(t, n, [c]);
    var t1 := Remove(t, [n, c]);
    assert t1 == t.(subs := t.subs[n := t.subs[n].(subs := t.subs[n].subs - {c})]);
    var d1 := Remove(d, src);
    assert d1 == WithTiles(d, t1);
    GetIn(d1, "tiles", []);
    GetIn(d1, "tiles", [nd]);
    GetIn(t1, nd, []);
    UpdateIn(d1, "tiles", [nd], t.subs[n].subs[c]);
    UpdateChild(t1, nd, t.subs[n].subs[c]);
  }

  /** shutil.rmtree(tiles/k). */
  lemma ShrinkRemove(d: Dir, t: Dir, k: Quadrant)
    requires "tiles" in d.subs && Name(k) in t.subs && Name(3 - k) in t.subs[Name(k)].subs
    ensures var d1, path := WithTiles(d, Detached(t, k)), ["tiles", Name(k)];
      && DirExists(d1, path)
      && Remove(d1, path) == WithTiles(d, Detached(t, k).(subs := Detached(t, k).subs - {Name(k)}))
  {
    var n := Name(k);
    var d1 := WithTiles(d, Detached(t, k));
    assert ["tiles", n] == ["tiles"] + [n];
    GetIn(d1, "tiles", [n]);
    GetIn(Detached(t, k), n, []);
    RemoveIn(d1, "tiles", [n]);
  }

  /** os.rename(tiles/new<k>, tiles/k): the old k/(3-k) is now quadrant k. */
  lemma ShrinkAttach(d: Dir, t: Dir, k: Quadrant)
    requires "tiles" in d.subs && Name(k) in t.subs && Name(3 - k) in t.subs[Name(k)].subs
    requires TempName(k) !in t.subs
    ensures var t1 := Detached(t, k).(subs := Detached(t, k).subs - {Name(k)});
      var d1, src, dst := WithTiles(d, t1), ["tiles", TempName(k)], ["tiles", Name(k)];
      && DirExists(d1, src)
      && DirExists(Remove(d1, src), dst[..|dst| - 1]) && !DirExists(Remove(d1, src), dst)
      && Update(Remove(d1, src), dst, Get(d1, src).value) == WithTiles(d, ShrinkStep(t, k))
  {
    var n, c, nd := Name(k), Name(3 - k), TempName(k);
    TempNameNotQuadrant(k, k);
    var t1 := Detached(t, k).(subs := Detached(t, k).subs - {n});
    var d1 := WithTiles(d, t1);
    var src, dst := ["tiles", nd], ["tiles", n];
    assert src == ["tiles"] + [nd] && dst == ["tiles"] + [n] && dst[..|dst| - 1] == ["tiles"] == ["tiles"] + [];
    GetIn(d1, "tiles", [nd]);
    GetIn(t1, nd, []);
    RemoveIn(d1, "tiles", [nd]);
    var t2 := Remove(t1, [nd]);
    var d2 := Remove(d1, src);
    assert d2 == WithTiles(d, t2);
    GetIn(d2, "tiles", []);
    GetIn(d2, "tiles", [n]);
    GetIn(t2, n, []);
    UpdateIn(d2, "tiles", [n], t.subs[n].subs[c]);
    UpdateChild(t2, n, t.subs[n].subs[c]);
    assert t2.subs[n := t.subs[n].subs[c]] == t.subs[n := t.subs[n].subs[c]];
  }

  // ---------------------------------------------------------------------------------------
  // Temporary directories

  lemma NoTempDirsTiles(d: Dir, t: Dir)
    ensures NoTempDirs(WithTiles(d, t)) <==> forall j: Quadrant :: TempName(j) !in t.subs
  {
    forall j: Quadrant
      ensures DirExists(WithTiles(d, t), ["tiles", TempName(j)]) <==> TempName(j) in t.subs
    {
      assert ["tiles", TempName(j)] == ["tiles"] + [TempName(j)];
      GetIn(WithTiles(d, t), "tiles", [TempName(j)]);
      GetIn(t, TempName(j), []);
    }
  }

  /** Growing and shrinking tiles/ create no temporary directory. */
  lemma ResizeKeepsNoTempDirs(d: Dir, k: Quadrant)
    requires NoTempDirs(d) && "tiles" in d.subs
    ensures NoTempDirs(WithTiles(d, GrowStep(d.subs["tiles"], k)))
    ensures NoTempDirs(WithTiles(d, ShrinkStep(d.subs["tiles"], k)))
  {
    var t := d.subs["tiles"];
    assert d == WithTiles(d, t);
    NoTempDirsTiles(d, t);
    NoTempDirsTiles(d, GrowStep(t, k));
    NoTempDirsTiles(d, ShrinkStep(t, k));
    forall j: Quadrant
      ensures TempName(j) !in GrowStep(t, k).subs
    {
      TempNameNotQuadrant(j, k);
    }
  }

  /** The same, with a tree that has no tiles/ left as it is. */
  lemma ResizeNoTempDirs(d: Dir, k: Quadrant)
    requires NoTempDirs(d)
    ensures NoTempDirs(if "tiles" in d.subs then WithTiles(d, ShrinkStep(d.subs["tiles"], k)) else d)
  {
    if "tiles" in d.subs {
      ResizeKeepsNoTempDirs(d, k);
    }
  }

  // ---------------------------------------------------------------------------------------
  // The schedule of go()

  /** One unit of work of go(). */
  datatype Task =
    | Grow                              // one call of _increase_depth
    | Shrink                            // one call of _decrease_depth
    | Leaf(q: Path)                     // render_worldtile for the deepest tile at path q
    | Inner(parent: Path, k: Quadrant)  // render_innertile(tiles/parent, k)
    | Top                               // render_innertile(tiles, "base")

  /** The effect of one task on the destination tree; m is the world's chunk map and b the
      tile grid. */
  function Step(d: Dir, task: Task, m: map<(int, int), string>, b: Bounds, md5: string -> Digest): (Outcome, Dir) {
    match task
    case Grow =>
      if "tiles" in d.subs then (Pass, WithTiles(d, Grown(d.subs["tiles"]))) else (Fail(NoSuchDirectory), d)
    case Shrink =>
      (Pass, if "tiles" in d.subs then WithTiles(d, Shrunk(d.subs["tiles"])) else d)
    case Leaf(q) =>
      LeafStep(d, q, m, b, md5)
    case Inner(parent, k) =>
      InnerTile(d, ["tiles"] + Names(parent), Name(k), md5)
    case Top =>
      InnerTile(d, ["tiles"], "base", md5)
  }

  /** render_worldtile for the deepest tile at q, whose chunk range starts at column
      colstart and row rowstart: two columns and four rows, with the chunks of the window
      that reaches 16 rows further up. */
  function LeafRender(d: Dir, q: Path, colstart: int, rowstart: int, m: map<(int, int), string>,
                      md5: string -> Digest): (Outcome, Dir) {
    WorldTile(d, WindowChunks(m, colstart, colstart + 2, rowstart - 16, rowstart + 4 + 1),
              colstart, colstart + 2, rowstart, rowstart + 4, ["tiles"] + Names(q), md5)
  }

  function LeafStep(d: Dir, q: Path, m: map<(int, int), string>, b: Bounds, md5: string -> Digest): (Outcome, Dir) {
    LeafRender(d, q, LeafStart(b, q).0, LeafStart(b, q).1, m, md5)
  }

  /** Running tasks in order; the first failure ends the run (result.get() re-raises it). */
  function Replay(d: Dir, tasks: seq<Task>, m: map<(int, int), string>, b: Bounds, md5: string -> Digest): (Outcome, Dir)
    decreases |tasks|
  {
    if tasks == [] then (Pass, d)
    else
      var (o, d1) := Step(d, tasks[0], m, b, md5);
      if o.Fail? then (o, d1) else Replay(d1, tasks[1..], m, b, md5)
  }

  /** The resizes go() makes before rendering; curdepth -1 means the old depth is unknown. */
  function ResizeTasks(p: nat, curdepth: int): seq<Task> {
    if curdepth == -1 then []
    else if p > curdepth then seq(p - curdepth, _ => Grow)
    else if p < curdepth then seq(curdepth - p, _ => Shrink)
    else []
  }

  /** The deepest level, in iterate_base4 order. */
  function LeafTasks(p: nat): seq<Task> {
    var paths := Base4Paths(p);
    seq(|paths|, i requires 0 <= i < |paths| => Leaf(paths[i]))
  }

  /** The inner tiles of paths of length z, in iterate_base4 order. */
  function LevelTasks(z: nat): seq<Task>
    requires z >= 1
  {
    var paths := Base4Paths(z);
    seq(|paths|, i requires 0 <= i < |paths| => Inner(paths[i][..z - 1], paths[i][z - 1]))
  }

  /** Levels hi, hi - 1, ..., lo + 1. */
  function InnerLevels(hi: int, lo: nat): seq<Task>
    decreases hi - lo
  {
    if hi <= lo then [] else LevelTasks(hi) + InnerLevels(hi - 1, lo)
  }

  /** Everything go() renders for depth p: the deepest level, the inner levels from the
      deepest up, then the top tile. */
  function RenderTasks(p: nat): seq<Task> {
    LeafTasks(p) + (InnerLevels(p - 1, 0) + [Top])
  }

  /** The whole run of go(). */
  function Schedule(p: nat, curdepth: int): seq<Task> {
    ResizeTasks(p, curdepth) + RenderTasks(p)
  }

  lemma {:induction false} ReplayAppend(d: Dir, xs: seq<Task>, ys: seq<Task>, m: map<(int, int), string>, b: Bounds,
                                        md5: string -> Digest)
    ensures Replay(d, xs + ys, m, b, md5) ==
      var (o, d1) := Replay(d, xs, m, b, md5);
      if o.Fail? then (o, d1) else Replay(d1, ys, m, b, md5)
    decreases |xs|
  {
    if xs == [] {
      assert xs + ys == ys;
    } else {
      assert (xs + ys)[0] == xs[0] && (xs + ys)[1..] == xs[1..] + ys;
      ReplayAppend(Step(d, xs[0], m, b, md5).1, xs[1..], ys, m, b, md5);
    }
  }

  lemma ReplayCons(d: Dir, t: Task, ys: seq<Task>, m: map<(int, int), string>, b: Bounds, md5: string -> Digest)
    ensures Replay(d, [t] + ys, m, b, md5) ==
      var (o, d1) := Step(d, t, m, b, md5);
      if o.Fail? then (o, d1) else Replay(d1, ys, m, b, md5)
  {
    assert ([t] + ys)[0] == t && ([t] + ys)[1..] == ys;
  }

  lemma ReplaySingle(d: Dir, t: Task, m: map<(int, int), string>, b: Bounds, md5: string -> Digest)
    ensures Replay(d, [t], m, b, md5) == Step(d, t, m, b, md5)
  {
    assert [t][1..] == [];
  }

  /** Nothing is left to replay after the last task. */
  lemma ReplayDone(d: Dir, tasks: seq<Task>, m: map<(int, int), string>, b: Bounds, md5: string -> Digest)
    ensures Replay(d, tasks[|tasks|..], m, b, md5) == (Pass, d)
  {
    assert tasks[|tasks|..] == [];
  }

  /** Replaying from task i: task i, then, unless it failed, the rest. */
  lemma ReplayAt(d: Dir, tasks: seq<Task>, i: nat, m: map<(int, int), string>, b: Bounds, md5: string -> Digest)
    requires i < |tasks|
    ensures Replay(d, tasks[i..], m, b, md5) ==
      var (o, d1) := Step(d, tasks[i], m, b, md5);
      if o.Fail? then (o, d1) else Replay(d1, tasks[i + 1..], m, b, md5)
  {
    assert tasks[i..][0] == tasks[i] && tasks[i..][1..] == tasks[i + 1..];
  }

  lemma StepLeaf(d: Dir, q: Path, m: map<(int, int), string>, b: Bounds, md5: string -> Digest)
    ensures Step(d, Leaf(q), m, b, md5) == LeafStep(d, q, m, b, md5)
  {
  }

  /** At full depth the range of _get_range_by_path is the leaf's own start. */
  lemma LeafRange(b: Bounds, q: Path)
    requires |q| == b.p
    ensures b.mincol + Pow2(b.p - |q| + 1) * ColIndex(q) == LeafStart(b, q).0
    ensures b.minrow + Pow2(b.p - |q| + 2) * RowIndex(q) == LeafStart(b, q).1
  {
    assert Pow2(1) == 2 && Pow2(2) == 4;
  }

  lemma LeafStepAt(d: Dir, q: Path, m: map<(int, int), string>, b: Bounds, md5: string -> Digest,
                   colstart: int, rowstart: int)
    requires colstart == LeafStart(b, q).0 && rowstart == LeafStart(b, q).1
    ensures LeafStep(d, q, m, b, md5) == LeafRender(d, q, colstart, rowstart, m, md5)
  {
  }

  lemma LeafRenderOf(d: Dir, q: Path, m: map<(int, int), string>, colstart: int, rowstart: int,
                     md5: string -> Digest, chunks: seq<ChunkEntry>)
    requires chunks == WindowChunks(m, colstart, colstart + 2, rowstart - 16, rowstart + 4 + 1)
    ensures WorldTile(d, chunks, colstart, colstart + 2, rowstart, rowstart + 4, ["tiles"] + Names(q), md5)
         == LeafRender(d, q, colstart, rowstart, m, md5)
  {
  }

  class QuadtreeGen {
    const world: World
    /** The depth of the tree: 2^p tiles across at the deepest level. */
    const p: nat
    const mincol: int
    const maxcol: int
    const minrow: int
    const maxrow: int
    /** The destination directory. */
    const fs: FileSystem
    /** hashlib.md5, as a function of everything fed to it. */
    const md5: string -> Digest

    /** The tile grid. */
    function Extent(): Bounds {
      Bounds(p, mincol, maxcol, minrow, maxrow)
    }

    /** The object with depth p: a grid 2^p columns either side of 0 and 2 * 2^p rows. */
    constructor (world: World, fs: FileSystem, md5: string -> Digest, p: nat)
      ensures this.world == world && this.fs == fs && this.md5 == md5 && this.p == p
      ensures Extent() == BoundsFor(p)
    {
      this.world := world;
      this.fs := fs;
      this.md5 := md5;
      this.p := p;
      mincol := -Pow2(p);
      maxcol := Pow2(p);
      minrow := -(2 * Pow2(p));
      maxrow := 2 * Pow2(p);
    }

    /** One iteration of the loop of _increase_depth: quadrant k moves down to k/(3-k).
        os.mkdir fails when tiles/ does not exist. */
    method GrowQuadrant(k: Quadrant) returns (o: Outcome)
      requires NoTempDirs(fs.root)
      modifies fs
      ensures "tiles" !in old(fs.root).subs ==> o == Fail(NoSuchDirectory) && fs.root == old(fs.root)
      ensures "tiles" in old(fs.root).subs ==>
        o == Pass && fs.root == WithTiles(old(fs.root), GrowStep(old(fs.root).subs["tiles"], k))
    {
      ghost var d := fs.root;
      TilesExists(d);
      var newdir := TempName(k);
      var n, c := Name(k), Name(3 - k);
      if "tiles" in d.subs {
        NoTempDirsIn(d, k);
      } else {
        GetIn(d, "tiles", [newdir]);
      }
      o := fs.MkDir(["tiles"], newdir);
      if o.Fail? {
        return;
      }
      ghost var t := d.subs["tiles"];
      GrowMkdir(d, k);
      MoveQuadrant(k, d, t);
      GrowRenameBack(d, t, k);
      fs.RenameDir(["tiles", newdir], ["tiles", n]);
    }

    /** The three renames of quadrant k's image, fingerprint and directory into new<k>. */
    method MoveQuadrant(k: Quadrant, ghost d: Dir, ghost t: Dir)
      requires "tiles" in d.subs && fs.root == WithTiles(d, Partial(t, k, false, false, false))
      modifies fs
      ensures fs.root == WithTiles(d, Partial(t, k, true, true, true))
    {
      MoveImage(k, d, t);
      MoveFingerprint(k, d, t);
      MoveDirectory(k, d, t);
    }

    /** os.rename(tiles/k.png, tiles/new<k>/(3-k).png) when the image exists. */
    method MoveImage(k: Quadrant, ghost d: Dir, ghost t: Dir)
      requires "tiles" in d.subs && fs.root == WithTiles(d, Partial(t, k, false, false, false))
      modifies fs
      ensures fs.root == WithTiles(d, Partial(t, k, true, false, false))
    {
      var n := Name(k);
      PartialNoop(t, k);
      PngAtIn(fs.root, "tiles", Slot([], n));
      assert ["tiles"] + [] == ["tiles"];
      var present := fs.PngExists(Slot(["tiles"], n));
      if present {
        GrowMovePng(d, t, k);
        fs.RenamePng(Slot(["tiles"], n), Slot(["tiles", TempName(k)], Name(3 - k)));
      }
    }

    /** os.rename(tiles/k.hash, tiles/new<k>/(3-k).hash) when the fingerprint exists. */
    method MoveFingerprint(k: Quadrant, ghost d: Dir, ghost t: Dir)
      requires "tiles" in d.subs && fs.root == WithTiles(d, Partial(t, k, true, false, false))
      modifies fs
      ensures fs.root == WithTiles(d, Partial(t, k, true, true, false))
    {
      var n := Name(k);
      PartialNoop(t, k);
      HashAtIn(fs.root, "tiles", Slot([], n));
      assert ["tiles"] + [] == ["tiles"];
      var present := fs.HashExists(Slot(["tiles"], n));
      if present {
        GrowMoveHash(d, t, k);
        fs.RenameHash(Slot(["tiles"], n), Slot(["tiles", TempName(k)], Name(3 - k)));
      }
    }

    /** os.rename(tiles/k, tiles/new<k>/(3-k)) when the directory exists. */
    method MoveDirectory(k: Quadrant, ghost d: Dir, ghost t: Dir)
      requires "tiles" in d.subs && fs.root == WithTiles(d, Partial(t, k, true, true, false))
      modifies fs
      ensures fs.root == WithTiles(d, Partial(t, k, true, true, true))
    {
      var n := Name(k);
      PartialNoop(t, k);
      GetIn(fs.root, "tiles", [n]);
      GetIn(Partial(t, k, true, true, false), n, []);
      var present := fs.IsDir(["tiles", n]);
      if present {
        GrowMoveDir(d, t, k);
        fs.RenameDir(["tiles", n], ["tiles", TempName(k), Name(3 - k)]);
      }
    }

    /** _increase_depth: every quadrant moves one level down, so the tree is one level
        deeper and the old tiles sit in the middle of the new top level. */
    method IncreaseDepth() returns (o: Outcome)
      requires NoTempDirs(fs.root)
      modifies fs
      ensures NoTempDirs(fs.root)
      ensures "tiles" !in old(fs.root).subs ==> o == Fail(NoSuchDirectory) && fs.root == old(fs.root)
      ensures "tiles" in old(fs.root).subs ==>
        o == Pass && fs.root == WithTiles(old(fs.root), Grown(old(fs.root).subs["tiles"]))
    {
      ghost var d := fs.root;
      o := Pass;
      for k := 0 to 4
        invariant NoTempDirs(fs.root) && o == Pass
        invariant "tiles" !in d.subs ==> k == 0 && fs.root == d
        invariant "tiles" in d.subs ==> fs.root == WithTiles(d, GrownUpTo(d.subs["tiles"], k))
      {
        ghost var before := fs.root;
        assert "tiles" in d.subs ==> "tiles" in before.subs;
        o := GrowQuadrant(k);
        if o.Fail? {
          return;
        }
        assert before == WithTiles(d, GrownUpTo(d.subs["tiles"], k));
        ResizeKeepsNoTempDirs(before, k);
      }
    }

    /** One block of _decrease_depth: when k/(3-k) exists it replaces quadrant k. */
    method PromoteQuadrant(k: Quadrant)
      requires NoTempDirs(fs.root)
      modifies fs
      ensures "tiles" !in old(fs.root).subs ==> fs.root == old(fs.root)
      ensures "tiles" in old(fs.root).subs ==>
        fs.root == WithTiles(old(fs.root), ShrinkStep(old(fs.root).subs["tiles"], k))
    {
      ghost var d := fs.root;
      var n, c := Name(k), Name(3 - k);
      assert ["tiles", n, c] == ["tiles"] + [n, c] && [n, c] == [n] + [c];
      GetIn(d, "tiles", [n, c]);
      if "tiles" in d.subs {
        GetIn(d.subs["tiles"], n, [c]);
        if n in d.subs["tiles"].subs {
          GetIn(d.subs["tiles"].subs[n], c, []);
        }
      }
      var present := fs.IsDir(["tiles", n, c]);
      if present {
        ghost var t := d.subs["tiles"];
        NoTempDirsIn(d, k);
        ShrinkDetach(d, k);
        fs.RenameDir(["tiles", n, c], ["tiles", TempName(k)]);
        ShrinkRemove(d, t, k);
        fs.RmTree(["tiles", n]);
        ShrinkAttach(d, t, k);
        fs.RenameDir(["tiles", TempName(k)], ["tiles", n]);
      } else if "tiles" in d.subs {
        assert d == WithTiles(d, ShrinkStep(d.subs["tiles"], k));
      }
    }

    /** _decrease_depth: the middle of the tree becomes the whole tree, one level shallower. */
    method DecreaseDepth()
      requires NoTempDirs(fs.root)
      modifies fs
      ensures NoTempDirs(fs.root)
      ensures "tiles" !in old(fs.root).subs ==> fs.root == old(fs.root)
      ensures "tiles" in old(fs.root).subs ==>
        fs.root == WithTiles(old(fs.root), Shrunk(old(fs.root).subs["tiles"]))
    {
      ghost var d0 := fs.root;
      PromoteQuadrant(0);
      ResizeNoTempDirs(d0, 0);
      ghost var d1 := fs.root;
      PromoteQuadrant(1);
      ResizeNoTempDirs(d1, 1);
      ghost var d2 := fs.root;
      PromoteQuadrant(2);
      ResizeNoTempDirs(d2, 2);
      ghost var d3 := fs.root;
      PromoteQuadrant(3);
      ResizeNoTempDirs(d3, 3);
      if "tiles" in d0.subs {
        var t := d0.subs["tiles"];
        assert d1 == WithTiles(d0, ShrinkStep(t, 0));
        assert d2 == WithTiles(d0, ShrinkStep(ShrinkStep(t, 0), 1));
        assert d3 == WithTiles(d0, ShrinkStep(ShrinkStep(ShrinkStep(t, 0), 1), 2));
      }
    }

    /** The resizes at the start of go(). */
    method Resize(curdepth: int) returns (o: Outcome)
      requires NoTempDirs(fs.root)
      modifies fs
      ensures (o, fs.root) == Replay(old(fs.root), ResizeTasks(p, curdepth), world.chunkmap, Extent(), md5)
    {
      ghost var tasks := ResizeTasks(p, curdepth);
      ghost var r := Replay(fs.root, tasks, world.chunkmap, Extent(), md5);
      o := Pass;
      if curdepth != -1 {
        if p > curdepth {
          for i := 0 to p - curdepth
            invariant NoTempDirs(fs.root) && o == Pass
            invariant r == Replay(fs.root, tasks[i..], world.chunkmap, Extent(), md5)
          {
            ReplayCons(fs.root, Grow, tasks[i + 1..], world.chunkmap, Extent(), md5);
            assert tasks[i..] == [Grow] + tasks[i + 1..];
            o := IncreaseDepth();
            if o.Fail? {
              return;
            }
          }
        } else if p < curdepth {
          for i := 0 to curdepth - p
            invariant NoTempDirs(fs.root) && o == Pass
            invariant r == Replay(fs.root, tasks[i..], world.chunkmap, Extent(), md5)
          {
            ReplayCons(fs.root, Shrink, tasks[i + 1..], world.chunkmap, Extent(), md5);
            assert tasks[i..] == [Shrink] + tasks[i + 1..];
            DecreaseDepth();
          }
        }
      }
      ReplayDone(fs.root, tasks, world.chunkmap, Extent(), md5);
    }

    /** One iteration of the first loop of go(): the chunk range of _get_range_by_path, the
        chunks of _get_chunks_in_range and render_worldtile for the deepest tile at path. */
    method RenderLeaf(path: Path) returns (o: Outcome)
      requires Extent() == BoundsFor(p) && |path| == p
      modifies fs
      ensures (o, fs.root) == LeafStep(old(fs.root), path, world.chunkmap, Extent(), md5)
    {
      ghost var d := fs.root;
      var colstart, rowstart := RangeByPath(Extent(), path);
      LeafRange(Extent(), path);
      var colend, rowend := colstart + 2, rowstart + 4;
      var dest := ["tiles"] + Names(path);
      var tilechunks := ChunksInRange(world.chunkmap, colstart, colend, rowstart, rowend);
      o := RenderWorldtile(fs, tilechunks, colstart, colend, rowstart, rowend, dest, md5);
      LeafStepAt(d, path, world.chunkmap, Extent(), md5, colstart, rowstart);
      LeafRenderOf(d, path, world.chunkmap, colstart, rowstart, md5, tilechunks);
    }

    /** The first loop of go(): every deepest tile in iterate_base4 order. */
    method RenderLeaves() returns (o: Outcome)
      requires Extent() == BoundsFor(p)
      modifies fs
      ensures (o, fs.root) == Replay(old(fs.root), LeafTasks(p), world.chunkmap, Extent(), md5)
    {
      ghost var tasks := LeafTasks(p);
      ghost var r := Replay(fs.root, tasks, world.chunkmap, Extent(), md5);
      var paths := Base4Paths(p);
      o := Pass;
      for i := 0 to |paths|
        invariant o == Pass
        invariant r == Replay(fs.root, tasks[i..], world.chunkmap, Extent(), md5)
      {
        o := RenderLeafTask(tasks, i, paths[i]);
        if o.Fail? {
          return;
        }
      }
      ReplayDone(fs.root, tasks, world.chunkmap, Extent(), md5);
    }

    /** Task i of a schedule, a deepest tile: the rest of the schedule replays from here. */
    method RenderLeafTask(ghost tasks: seq<Task>, i: nat, path: Path) returns (o: Outcome)
      requires Extent() == BoundsFor(p) && |path| == p && i < |tasks| && tasks[i] == Leaf(path)
      modifies fs
      ensures o.Fail? ==> Replay(old(fs.root), tasks[i..], world.chunkmap, Extent(), md5) == (o, fs.root)
      ensures o.Pass? ==>
        Replay(old(fs.root), tasks[i..], world.chunkmap, Extent(), md5)
          == Replay(fs.root, tasks[i + 1..], world.chunkmap, Extent(), md5)
    {
      ReplayAt(fs.root, tasks, i, world.chunkmap, Extent(), md5);
      StepLeaf(fs.root, path, world.chunkmap, Extent(), md5);
      o := RenderLeaf(path);
    }

    /** One iteration of the second loop of go(): render_innertile for every tile at depth
        zoom. */
    method RenderLevel(zoom: nat) returns (o: Outcome)
      requires zoom >= 1
      modifies fs
      ensures (o, fs.root) == Replay(old(fs.root), LevelTasks(zoom), world.chunkmap, Extent(), md5)
    {
      ghost var tasks := LevelTasks(zoom);
      ghost var r := Replay(fs.root, tasks, world.chunkmap, Extent(), md5);
      var paths := Base4Paths(zoom);
      o := Pass;
      for i := 0 to |paths|
        invariant o == Pass
        invariant r == Replay(fs.root, tasks[i..], world.chunkmap, Extent(), md5)
      {
        var path := paths[i];
        o := RenderInnerTask(tasks, i, path[..|path| - 1], path[|path| - 1]);
        if o.Fail? {
          return;
        }
      }
      ReplayDone(fs.root, tasks, world.chunkmap, Extent(), md5);
    }

    /** Task i of a schedule, the inner tile k under parent: render_innertile(tiles/parent, k). */
    method RenderInnerTask(ghost tasks: seq<Task>, i: nat, parent: Path, k: Quadrant) returns (o: Outcome)
      requires i < |tasks| && tasks[i] == Inner(parent, k)
      modifies fs
      ensures o.Fail? ==> Replay(old(fs.root), tasks[i..], world.chunkmap, Extent(), md5) == (o, fs.root)
      ensures o.Pass? ==>
        Replay(old(fs.root), tasks[i..], world.chunkmap, Extent(), md5)
          == Replay(fs.root, tasks[i + 1..], world.chunkmap, Extent(), md5)
    {
      ReplayAt(fs.root, tasks, i, world.chunkmap, Extent(), md5);
      o := RenderInnertile(fs, ["tiles"] + Names(parent), Name(k), md5);
    }

    /** The second loop of go(): levels p - 1 down to 1. */
    method RenderInnerLevels() returns (o: Outcome)
      modifies fs
      ensures (o, fs.root) == Replay(old(fs.root), InnerLevels(p - 1, 0), world.chunkmap, Extent(), md5)
    {
      ghost var d := fs.root;
      o := Pass;
      var zoom := p - 1;
      while zoom > 0
        invariant o == Pass
        invariant Replay(d, InnerLevels(p - 1, 0), world.chunkmap, Extent(), md5)
               == Replay(fs.root, InnerLevels(zoom, 0), world.chunkmap, Extent(), md5)
      {
        assert InnerLevels(zoom, 0) == LevelTasks(zoom) + InnerLevels(zoom - 1, 0);
        ReplayAppend(fs.root, LevelTasks(zoom), InnerLevels(zoom - 1, 0), world.chunkmap, Extent(), md5);
        o := RenderLevel(zoom);
        if o.Fail? {
          return;
        }
        zoom := zoom - 1;
      }
    }

    /** go(): resize the old tree when its depth is known and differs, render every deepest
        tile, every inner level from the deepest up, then the top tile; the first failure
        ends the run. */
    method Go(curdepth: int) returns (o: Outcome)
      requires curdepth >= -1
      requires Extent() == BoundsFor(p) && NoTempDirs(fs.root)
      modifies fs
      ensures (o, fs.root) == Replay(old(fs.root), Schedule(p, curdepth), world.chunkmap, Extent(), md5)
    {
      ReplayAppend(fs.root, ResizeTasks(p, curdepth), RenderTasks(p), world.chunkmap, Extent(), md5);
      o := Resize(curdepth);
      if o.Fail? {
        return;
      }
      o := RenderAll();
    }

    /** The rendering part of go(): the deepest level, the inner levels, the top tile. */
    method RenderAll() returns (o: Outcome)
      requires Extent() == BoundsFor(p)
      modifies fs
      ensures (o, fs.root) == Replay(old(fs.root), RenderTasks(p), world.chunkmap, Extent(), md5)
    {
      ghost var m, b := world.chunkmap, Extent();
      ghost var levels := InnerLevels(p - 1, 0);
      ReplayAppend(fs.root, LeafTasks(p), levels + [Top], m, b, md5);
      o := RenderLeaves();
      if o.Fail? {
        return;
      }
      ReplayAppend(fs.root, levels, [Top], m, b, md5);
      o := RenderInnerLevels();
      if o.Fail? {
        return;
      }
      ReplaySingle(fs.root, Top, m, b, md5);
      o := RenderTop();
    }

    /** The last call of go(): render_innertile(tiles, "base"). */
    method RenderTop() returns (o: Outcome)
      modifies fs
      ensures (o, fs.root) == Step(old(fs.root), Top, world.chunkmap, Extent(), md5)
    {
      o := RenderInnertile(fs, ["tiles"], "base", md5);
    }
  }

  /** QuadtreeGen(worldobj, destdir, depth): with no depth given, the least depth below
      DepthLimit whose grid covers the world, or MapTooBig. */
  method NewQuadtreeGen(world: World, fs: FileSystem, md5: string -> Digest, depth: Option<nat>)
    returns (r: Result<QuadtreeGen>)
    ensures r.Ok? ==> fresh(r.value) && r.value.world == world && r.value.fs == fs && r.value.md5 == md5
    ensures r.Ok? ==> r.value.Extent() == BoundsFor(r.value.p)
    ensures depth.Some? ==> r.Ok? && r.value.p == depth.value
    ensures depth.None? && r.Ok? ==> Covers(world, r.value.p) && forall q: nat :: q < r.value.p ==> !Covers(world, q)
    ensures depth.None? && r.Ok? ==> r.value.p < DepthLimit
    ensures depth.None? ==> (r.Err? <==> forall q: nat :: q < DepthLimit ==> !Covers(world, q))
    ensures depth.None? && r.Err? ==> r.error == MapTooBig
  {
    var p: nat;
    if depth.None? {
      var found := SearchDepth(world);
      if found.Err? {
        return Err(found.error);
      }
      p := found.value;
    } else {
      p := depth.value;
    }
    var gen := new QuadtreeGen(world, fs, md5, p);
    r := Ok(gen);
  }

  // ---------------------------------------------------------------------------------------
  // Properties of the schedule

  /** go() resizes only when the old depth is known, |p - curdepth| times in the direction
      of the new depth, and then renders. */
  lemma ScheduleResizes(p: nat, curdepth: int)
    requires curdepth >= -1
    ensures var s, n := Schedule(p, curdepth), if curdepth == -1 then 0 else if p >= curdepth then p - curdepth else curdepth - p;
      && n <= |s| && s[n..] == RenderTasks(p)
      && (forall i :: 0 <= i < n ==> s[i] == (if p > curdepth then Grow else Shrink))
  {
    var s, r := Schedule(p, curdepth), ResizeTasks(p, curdepth);
    assert s == r + RenderTasks(p);
    assert s[|r|..] == RenderTasks(p);
  }

  /** The tile at path q of a tree of depth p is drawn by this task: the deepest tiles from
      the chunks, the others from their four children, the empty path as the top tile. */
  function TileTask(q: Path, p: nat): Task
    requires |q| <= p
  {
    if |q| == p then Leaf(q) else if q == [] then Top else Inner(q[..|q| - 1], q[|q| - 1])
  }

  /** The i-th path of iterate_base4(|q|) is q for i = Base4Value(q). */
  lemma Base4At(q: Path)
    ensures Base4Value(q) < |Base4Paths(|q|)| && Base4Paths(|q|)[Base4Value(q)] == q
  {
    Base4ValueBound(q);
    Base4ValueInjective(q, Base4Paths(|q|)[Base4Value(q)]);
  }

  lemma {:induction false} InnerLevelsSplit(hi: int, mid: nat, lo: nat)
    requires lo <= mid <= hi
    ensures InnerLevels(hi, lo) == InnerLevels(hi, mid) + InnerLevels(mid, lo)
    decreases hi - mid
  {
    if hi > mid {
      InnerLevelsSplit(hi - 1, mid, lo);
      AppendAssoc(LevelTasks(hi), InnerLevels(hi - 1, mid), InnerLevels(mid, lo));
    } else {
      assert InnerLevels(hi, mid) == [];
    }
  }

  /** Where go() schedules the tile at q. */
  ghost function TaskIndex(q: Path, p: nat): nat
    requires |q| <= p
  {
    if |q| == p then Base4Value(q)
    else if q == [] then |RenderTasks(p)| - 1
    else Pow4(p) + |InnerLevels(p - 1, |q|)| + Base4Value(q)
  }

  /** Every tile of the tree is drawn by the task at TaskIndex. */
  lemma TaskAt(q: Path, p: nat)
    requires |q| <= p
    ensures TaskIndex(q, p) < |RenderTasks(p)| && RenderTasks(p)[TaskIndex(q, p)] == TileTask(q, p)
  {
    if |q| == p {
      LeafAt(q);
    } else if q != [] {
      InnerAt(q, p);
    }
  }

  lemma LeafAt(q: Path)
    ensures Base4Value(q) < |RenderTasks(|q|)| && RenderTasks(|q|)[Base4Value(q)] == Leaf(q)
  {
    var leaves := LeafTasks(|q|);
    Base4At(q);
    assert leaves[Base4Value(q)] == Leaf(q);
    assert RenderTasks(|q|)[Base4Value(q)] == leaves[Base4Value(q)];
  }

  lemma InnerAt(q: Path, p: nat)
    requires 0 < |q| < p
    ensures var i := Pow4(p) + |InnerLevels(p - 1, |q|)| + Base4Value(q);
      i < |RenderTasks(p)| && RenderTasks(p)[i] == Inner(q[..|q| - 1], q[|q| - 1])
  {
    InnerTaskAt(q, p);
    RenderInnerIndex(p, |InnerLevels(p - 1, |q|)| + Base4Value(q));
  }

  /** The inner levels follow the 4^p deepest tiles in the schedule. */
  lemma RenderInnerIndex(p: nat, j: nat)
    requires j < |InnerLevels(p - 1, 0)|
    ensures Pow4(p) + j < |RenderTasks(p)| && RenderTasks(p)[Pow4(p) + j] == InnerLevels(p - 1, 0)[j]
  {
    LeafTasksLength(p);
    IndexAfter(LeafTasks(p), InnerLevels(p - 1, 0), [Top], j);
  }

  lemma LeafTasksLength(p: nat)
    ensures |LeafTasks(p)| == Pow4(p)
  {
  }

  lemma IndexAfter(a: seq<Task>, b: seq<Task>, c: seq<Task>, j: nat)
    requires j < |b|
    ensures |a| + j < |a + (b + c)| && (a + (b + c))[|a| + j] == b[j]
  {
  }

  /** The inner tile at q sits in its level's block of the inner levels. */
  lemma InnerTaskAt(q: Path, p: nat)
    requires 0 < |q| < p
    ensures var i := |InnerLevels(p - 1, |q|)| + Base4Value(q);
      i < |InnerLevels(p - 1, 0)| && InnerLevels(p - 1, 0)[i] == Inner(q[..|q| - 1], q[|q| - 1])
  {
    var z := |q|;
    Base4At(q);
    InnerLevelsSplit(p - 1, z, 0);
    var above := InnerLevels(p - 1, z);
    assert InnerLevels(z, 0) == LevelTasks(z) + InnerLevels(z - 1, 0);
    assert InnerLevels(p - 1, 0) == above + LevelTasks(z) + InnerLevels(z - 1, 0);
    assert LevelTasks(z)[Base4Value(q)] == Inner(q[..z - 1], q[z - 1]);
  }

  /** A child's position in the schedule is below its parent's. */
  lemma ChildIndexBelow(q: Path, j: Quadrant, p: nat)
    requires |q| < p
    ensures TaskIndex(q + [j], p) < TaskIndex(q, p)
  {
    var c := q + [j];
    var z := |q|;
    Base4At(c);
    assert Base4Value(c) < Pow4(z + 1);
    var all := |InnerLevels(p - 1, 0)|;
    assert |RenderTasks(p)| == Pow4(p) + all + 1;
    if z + 1 < p {
      InnerLevelsSplit(p - 1, z + 1, z);
      assert InnerLevels(z + 1, z) == LevelTasks(z + 1) + InnerLevels(z, z);
      assert |InnerLevels(p - 1, z)| == |InnerLevels(p - 1, z + 1)| + Pow4(z + 1);
      if z == 0 {
        assert TaskIndex(q, p) == Pow4(p) + all;
      } else {
        assert TaskIndex(q, p) >= Pow4(p) + |InnerLevels(p - 1, z)|;
      }
    } else {
      assert TaskIndex(c, p) < Pow4(p);
      assert TaskIndex(q, p) >= Pow4(p);
    }
  }

  /** go() draws every tile after the four tiles it is made from: a child's task comes
      earlier in the schedule than its parent's. */
  lemma ChildrenFirst(q: Path, j: Quadrant, p: nat)
    requires |q| < p
    ensures TaskIndex(q + [j], p) < TaskIndex(q, p) < |RenderTasks(p)|
    ensures RenderTasks(p)[TaskIndex(q + [j], p)] == TileTask(q + [j], p)
    ensures RenderTasks(p)[TaskIndex(q, p)] == TileTask(q, p)
  {
    TaskAt(q, p);
    TaskAt(q + [j], p);
    ChildIndexBelow(q, j, p);
  }

  predicate Distinct(s: seq<Task>) {
    forall i, j :: 0 <= i < j < |s| ==> s[i] != s[j]
  }

  lemma DistinctAppend(a: seq<Task>, b: seq<Task>)
    requires Distinct(a) && Distinct(b)
    requires forall i, j :: 0 <= i < |a| && 0 <= j < |b| ==> a[i] != b[j]
    ensures Distinct(a + b)
  {
    forall i, j | 0 <= i < j < |a + b|
      ensures (a + b)[i] != (a + b)[j]
    {
      if j < |a| {
      } else if i >= |a| {
        assert (a + b)[i] == b[i - |a|] && (a + b)[j] == b[j - |a|];
      } else {
        assert (a + b)[j] == b[j - |a|];
      }
    }
  }

  /** Every task of the inner levels hi .. lo + 1 draws a tile at depth lo + 1 .. hi. */
  lemma {:induction false} InnerLevelsDepth(hi: int, lo: nat)
    ensures Distinct(InnerLevels(hi, lo))
    ensures forall i :: 0 <= i < |InnerLevels(hi, lo)| ==>
      InnerLevels(hi, lo)[i].Inner? && lo <= |InnerLevels(hi, lo)[i].parent| < hi
    decreases hi - lo
  {
    if hi > lo {
      var level, rest := LevelTasks(hi), InnerLevels(hi - 1, lo);
      InnerLevelsDepth(hi - 1, lo);
      var paths := Base4Paths(hi);
      forall i, j | 0 <= i < j < |level|
        ensures level[i] != level[j]
      {
        assert paths[i] == paths[i][..hi - 1] + [paths[i][hi - 1]];
        assert paths[j] == paths[j][..hi - 1] + [paths[j][hi - 1]];
      }
      DistinctAppend(level, rest);
    }
  }

  /** go() draws no tile twice: no task is scheduled twice. */
  lemma RenderTasksDistinct(p: nat)
    ensures Distinct(RenderTasks(p))
  {
    var leaves, levels := LeafTasks(p), InnerLevels(p - 1, 0);
    assert RenderTasks(p) == leaves + (levels + [Top]);
    InnerLevelsDepth(p - 1, 0);
    DistinctAppend(levels, [Top]);
    DistinctAppend(leaves, levels + [Top]);
  }

  /** Every tile of the tree has its task in the schedule. */
  lemma EveryTileScheduled(p: nat)
    ensures forall q: Path :: |q| <= p ==> TileTask(q, p) in RenderTasks(p)
  {
    forall q: Path | |q| <= p
      ensures TileTask(q, p) in RenderTasks(p)
    {
      TaskAt(q, p);
    }
  }

  /** The path of the tile a rendering task draws. */
  function TaskPath(t: Task): Path {
    match t
    case Leaf(q) => q
    case Inner(parent, k) => parent + [k]
    case _ => []
  }

  /** The task at position i of the rendering schedule draws the tile at its TaskPath. */
  lemma TaskTile(p: nat, i: nat)
    requires p >= 1 && i < |RenderTasks(p)|
    ensures var t := RenderTasks(p)[i]; |TaskPath(t)| <= p && t == TileTask(TaskPath(t), p)
  {
    var leaves, levels := LeafTasks(p), InnerLevels(p - 1, 0);
    var tasks := RenderTasks(p);
    assert tasks == leaves + (levels + [Top]);
    var t := tasks[i];
    if i < |leaves| {
      assert t == Leaf(Base4Paths(p)[i]);
    } else if i < |leaves| + |levels| {
      InnerLevelsDepth(p - 1, 0);
      assert t == levels[i - |leaves|];
      InnerTileOf(t, p);
    } else {
      assert t == Top;
    }
  }

  /** An inner task above the deepest level draws the tile at its parent's path plus k. */
  lemma InnerTileOf(t: Task, p: nat)
    requires t.Inner? && |t.parent| + 1 < p
    ensures |TaskPath(t)| <= p && t == TileTask(TaskPath(t), p)
  {
    var q := t.parent + [t.k];
    assert q[..|q| - 1] == t.parent;
  }

  /** For p >= 1 every task draws a tile of the tree, the one at its TaskPath. With p = 0
      the top tile task has no tile of its own (see ZeroDepth). */
  lemma EveryTaskATile(p: nat)
    requires p >= 1
    ensures forall t :: t in RenderTasks(p) ==> |TaskPath(t)| <= p && t == TileTask(TaskPath(t), p)
  {
    forall t | t in RenderTasks(p)
      ensures |TaskPath(t)| <= p && t == TileTask(TaskPath(t), p)
    {
      var i :| 0 <= i < |RenderTasks(p)| && RenderTasks(p)[i] == t;
      TaskTile(p, i);
    }
  }

  /** With depth 0 the only deepest tile has the empty path, so render_worldtile writes
      tiles.png in the destination directory itself, and the top tile is made from tiles/0
      .. tiles/3, which this run does not draw. */
  lemma ZeroDepth()
    ensures RenderTasks(0) == [Leaf([]), Top]
    ensures TileSlot(["tiles"] + Names([])) == Slot([], "tiles")
    ensures TileTask([], 0) == Leaf([])
  {
    assert Base4Paths(0) == [[]];
    assert LeafTasks(0) == [Leaf([])];
    assert Names([]) == [];
  }
}
