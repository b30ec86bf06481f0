/**
 * Why a second run of go() at the same depth changes nothing. Every rendering task writes
 * one tile of its own; an inner tile reads exactly the tiles its children's tasks write;
 * go() schedules each child before its parent. So after a successful run every task finds
 * its tile's stored fingerprint up to date and leaves the tree as it is.
 */
module Rerun {
  import opened Common
  import opened Geometry
  import opened TileStore
  import opened Resize
  import opened Render
  import opened Quadtree

  /** The tasks that draw a tile, as opposed to resizing the tree. */
  predicate Renders(t: Task) {
    t.Leaf? || t.Inner? || t.Top?
  }

  /** The directory render_innertile is given: tiles/parent, or tiles for the top tile. */
  function Dest(t: Task): seq<string> {
    match t
    case Inner(parent, _) => ["tiles"] + Names(parent)
    case _ => ["tiles"]
  }

  /** The tile name render_innertile is given. */
  function TileName(t: Task): string {
    match t
    case Inner(_, k) => Name(k)
    case _ => "base"
  }

  /** The tile whose .png and .hash a rendering task writes or deletes. */
  function WrittenSlot(t: Task): Slot {
    match t
    case Leaf(q) => TileSlot(["tiles"] + Names(q))
    case _ => Slot(Dest(t), TileName(t))
  }

  /** The four child tiles whose fingerprints and images an inner task reads. */
  function ReadSlots(t: Task): seq<Slot> {
    if t.Inner? || t.Top? then seq(4, j requires 0 <= j < 4 => ChildSlot(Dest(t), TileName(t), j)) else []
  }

  /** Every task draws a tile, no two tasks write the same tile, and no task writes a tile
      that an earlier task has read. */
  predicate CacheSafe(tasks: seq<Task>) {
    && (forall i :: 0 <= i < |tasks| ==> Renders(tasks[i]))
    && (forall i, j :: 0 <= i < j < |tasks| ==>
          WrittenSlot(tasks[i]) != WrittenSlot(tasks[j]) && WrittenSlot(tasks[j]) !in ReadSlots(tasks[i]))
  }

  // ---------------------------------------------------------------------------------------
  // Which tile each task writes and reads

  lemma NamesSnoc(q: Path, k: Quadrant)
    ensures Names(q + [k]) == Names(q) + [Name(k)]
  {
  }

  lemma TilesTail(q: Path)
    ensures (["tiles"] + Names(q))[1..] == Names(q)
  {
  }

  lemma {:induction false} NamesInjective(a: Path, b: Path)
    requires Names(a) == Names(b)
    ensures a == b
  {
    forall i | 0 <= i < |a|
      ensures a[i] == b[i]
    {
      NameInjective(a[i], b[i]);
    }
  }

  /** The task for a non-empty path writes the file named by the path's last digit, in the
      directory its other digits name. */
  lemma WrittenPath(q: Path, p: nat)
    requires 0 < |q| <= p
    ensures WrittenSlot(TileTask(q, p)) == Slot(["tiles"] + Names(q[..|q| - 1]), Name(q[|q| - 1]))
  {
    var n := |q| - 1;
    assert q == q[..n] + [q[n]];
    NamesSnoc(q[..n], q[n]);
    assert (["tiles"] + Names(q))[..n + 1] == ["tiles"] + Names(q[..n]);
  }

  /** The task for a path above the deepest level reads its children from the directory the
      path names. */
  lemma ReadDir(q: Path, p: nat)
    requires |q| < p
    ensures ChildDir(Dest(TileTask(q, p)), TileName(TileTask(q, p))) == ["tiles"] + Names(q)
  {
    if q != [] {
      var n := |q| - 1;
      assert q == q[..n] + [q[n]];
      NamesSnoc(q[..n], q[n]);
    }
  }

  /** The tile go() draws for child j of the tile at q is the one render_innertile reads as
      quadrant j of q. */
  lemma ChildSlotLink(q: Path, j: Quadrant, p: nat)
    requires |q| < p
    ensures WrittenSlot(TileTask(q + [j], p)) == ChildSlot(Dest(TileTask(q, p)), TileName(TileTask(q, p)), j)
    ensures WrittenSlot(TileTask(q + [j], p)) in ReadSlots(TileTask(q, p))
  {
    var c := q + [j];
    WrittenPath(c, p);
    assert c[..|c| - 1] == q;
    ReadDir(q, p);
    assert ReadSlots(TileTask(q, p))[j] == ChildSlot(Dest(TileTask(q, p)), TileName(TileTask(q, p)), j);
  }

  /** Distinct tiles of a tree of depth p >= 1 are written to distinct files. */
  lemma WrittenInjective(q1: Path, q2: Path, p: nat)
    requires p >= 1 && |q1| <= p && |q2| <= p
    requires WrittenSlot(TileTask(q1, p)) == WrittenSlot(TileTask(q2, p))
    ensures q1 == q2
  {
    if q1 != [] && q2 != [] {
      WrittenPath(q1, p);
      WrittenPath(q2, p);
      var n1, n2 := |q1| - 1, |q2| - 1;
      TilesTail(q1[..n1]);
      TilesTail(q2[..n2]);
      NamesInjective(q1[..n1], q2[..n2]);
      NameInjective(q1[n1], q2[n2]);
      assert q1 == q1[..n1] + [q1[n1]] && q2 == q2[..n2] + [q2[n2]];
    } else if q1 != [] {
      WrittenPath(q1, p);
      assert false;
    } else if q2 != [] {
      WrittenPath(q2, p);
      assert false;
    }
  }

  /** An inner task reads one-letter file names in the directory of its children. */
  lemma ReadSlotShape(t: Task, s: Slot)
    requires s in ReadSlots(t)
    ensures s.dir == ChildDir(Dest(t), TileName(t)) && |s.stem| == 1
  {
  }

  /** A tile an inner task reads is written only by the task for one of its children. */
  lemma ReadsChild(q1: Path, q2: Path, p: nat)
    requires p >= 1 && |q1| < p && |q2| <= p
    requires WrittenSlot(TileTask(q2, p)) in ReadSlots(TileTask(q1, p))
    ensures |q2| == |q1| + 1 && q2 == q1 + [q2[|q1|]]
  {
    var w := WrittenSlot(TileTask(q2, p));
    ReadSlotShape(TileTask(q1, p), w);
    ReadDir(q1, p);
    if q2 == [] {
      assert false;
    } else {
      var n := |q2| - 1;
      var init := q2[..n];
      WrittenPath(q2, p);
      assert ["tiles"] + Names(init) == ["tiles"] + Names(q1);
      TilesTail(init);
      TilesTail(q1);
      NamesInjective(init, q1);
      InitLast(q2);
    }
  }

  /** go()'s rendering schedule is safe for the cache: each tile is written once, and never
      after a task that reads it. */
  lemma CacheSafeRender(p: nat)
    ensures CacheSafe(RenderTasks(p))
  {
    var tasks := RenderTasks(p);
    if p == 0 {
      ZeroDepth();
    } else {
      RenderTasksDistinct(p);
      EveryTaskATile(p);
      forall i | 0 <= i < |tasks|
        ensures Renders(tasks[i])
      {
        assert tasks[i] in tasks;
      }
      forall i, j | 0 <= i < j < |tasks|
        ensures WrittenSlot(tasks[i]) != WrittenSlot(tasks[j]) && WrittenSlot(tasks[j]) !in ReadSlots(tasks[i])
      {
        var q1, q2 := TaskPath(tasks[i]), TaskPath(tasks[j]);
        assert tasks[i] in tasks && tasks[j] in tasks;
        if WrittenSlot(tasks[i]) == WrittenSlot(tasks[j]) {
          WrittenInjective(q1, q2, p);
        }
        if WrittenSlot(tasks[j]) in ReadSlots(tasks[i]) {
          ReadsChild(q1, q2, p);
          ChildrenFirst(q1, q2[|q1|], p);
          TaskAt(q1, p);
          assert false;
        }
      }
    }
  }

  // ---------------------------------------------------------------------------------------
  // What a task touches

  /** A rendering task changes no file outside its own tile and removes no directory. */
  lemma StepFrame(d: Dir, t: Task, m: map<(int, int), string>, b: Bounds, md5: string -> Digest,
                  s: Slot, x: seq<string>)
    requires Renders(t)
    ensures var d1 := Step(d, t, m, b, md5).1;
      && (s != WrittenSlot(t) ==> PngAt(d1, s) == PngAt(d, s) && HashAt(d1, s) == HashAt(d, s))
      && (DirExists(d, x) ==> DirExists(d1, x))
  {
    match t
    case Leaf(q) =>
      var (cs, rs) := LeafStart(b, q);
      var chunks := WindowChunks(m, cs, cs + 2, rs - 16, rs + 4 + 1);
      WorldTileEffect(d, chunks, cs, cs + 2, rs, rs + 4, ["tiles"] + Names(q), md5, s, x);
    case Inner(parent, k) =>
      InnerTileEffect(d, Dest(t), TileName(t), md5, s);
    case Top =>
      InnerTileEffect(d, ["tiles"], "base", md5, s);
  }

  /** Tasks that do not write a tile leave its files alone, and no directory goes away. */
  lemma {:induction false} ReplayFrame(d: Dir, tasks: seq<Task>, m: map<(int, int), string>, b: Bounds,
                                       md5: string -> Digest, s: Slot, x: seq<string>)
    requires forall i :: 0 <= i < |tasks| ==> Renders(tasks[i]) && WrittenSlot(tasks[i]) != s
    ensures var e := Replay(d, tasks, m, b, md5).1;
      && PngAt(e, s) == PngAt(d, s) && HashAt(e, s) == HashAt(d, s)
      && (DirExists(d, x) ==> DirExists(e, x))
    decreases |tasks|
  {
    if tasks != [] {
      StepFrame(d, tasks[0], m, b, md5, s, x);
      ReplayFrame(Step(d, tasks[0], m, b, md5).1, tasks[1..], m, b, md5, s, x);
    }
  }

  // ---------------------------------------------------------------------------------------
  // A second run

  /** A task that passed on tree d passes again and changes nothing on a later tree e that
      still holds the tile it wrote, still holds the children it read, and keeps every
      directory it had after the task. */
  lemma StepStable(d: Dir, e: Dir, t: Task, m: map<(int, int), string>, b: Bounds, md5: string -> Digest)
    requires Renders(t) && Step(d, t, m, b, md5).0 == Pass
    requires var d1, w := Step(d, t, m, b, md5).1, WrittenSlot(t);
      PngAt(e, w) == PngAt(d1, w) && HashAt(e, w) == HashAt(d1, w)
    requires forall s :: s in ReadSlots(t) ==> HashAt(e, s) == HashAt(d, s)
    requires forall x :: DirExists(Step(d, t, m, b, md5).1, x) ==> DirExists(e, x)
    ensures Step(e, t, m, b, md5) == (Pass, e)
  {
    var w := WrittenSlot(t);
    if t.Leaf? {
      var q := t.q;
      var (cs, rs) := LeafStart(b, q);
      var chunks := WindowChunks(m, cs, cs + 2, rs - 16, rs + 4 + 1);
      WorldTileEffect(d, chunks, cs, cs + 2, rs, rs + 4, ["tiles"] + Names(q), md5, w, []);
      if chunks != [] {
        MakeDirsSpec(e, w.dir, w);
      }
    } else {
      var dest, name := Dest(t), TileName(t);
      forall k: Quadrant
        ensures HashAt(e, ChildSlot(dest, name, k)) == HashAt(d, ChildSlot(dest, name, k))
      {
        assert ReadSlots(t)[k] == ChildSlot(dest, name, k);
      }
      SameChildren(d, e, dest, name, md5);
      PresentSpec(d, dest, name);
      InnerTileEffect(d, dest, name, md5, w);
    }
  }

  /** After a successful run of a cache-safe schedule, every one of its tasks passes on the
      final tree and leaves it unchanged. */
  lemma {:induction false} RerunStable(d: Dir, tasks: seq<Task>, m: map<(int, int), string>, b: Bounds,
                                       md5: string -> Digest)
    requires CacheSafe(tasks) && Replay(d, tasks, m, b, md5).0 == Pass
    ensures var e := Replay(d, tasks, m, b, md5).1;
      forall i :: 0 <= i < |tasks| ==> Step(e, tasks[i], m, b, md5) == (Pass, e)
    decreases |tasks|
  {
    if tasks != [] {
      var t, rest := tasks[0], tasks[1..];
      var d1 := Step(d, t, m, b, md5).1;
      var e := Replay(d1, rest, m, b, md5).1;
      assert forall i :: 0 <= i < |rest| ==> rest[i] == tasks[i + 1];
      RerunStable(d1, rest, m, b, md5);
      var w := WrittenSlot(t);
      ReplayFrame(d1, rest, m, b, md5, w, []);
      forall s | s in ReadSlots(t)
        ensures HashAt(e, s) == HashAt(d, s)
      {
        var j :| 0 <= j < 4 && ReadSlots(t)[j] == s;
        ChildSlotNotTile(Dest(t), TileName(t), j);
        StepFrame(d, t, m, b, md5, s, []);
        ReplayFrame(d1, rest, m, b, md5, s, []);
      }
      forall x | DirExists(d1, x)
        ensures DirExists(e, x)
      {
        ReplayFrame(d1, rest, m, b, md5, w, x);
      }
      StepStable(d, e, t, m, b, md5);
    }
  }

  /** Tasks that each leave a tree unchanged leave it unchanged together. */
  lemma {:induction false} ReplayFixed(e: Dir, tasks: seq<Task>, m: map<(int, int), string>, b: Bounds,
                                       md5: string -> Digest)
    requires forall i :: 0 <= i < |tasks| ==> Step(e, tasks[i], m, b, md5) == (Pass, e)
    ensures Replay(e, tasks, m, b, md5) == (Pass, e)
    decreases |tasks|
  {
    if tasks != [] {
      ReplayFixed(e, tasks[1..], m, b, md5);
    }
  }

  /** With the old depth equal to the new one, go() only renders. */
  lemma ScheduleSameDepth(p: nat)
    ensures Schedule(p, p) == RenderTasks(p)
  {
    assert ResizeTasks(p, p) == [];
  }

  /** The cache of the whole run: once go() has succeeded, running it again at the same
      depth (curdepth == p, so nothing is resized) passes and changes no file and no
      directory. */
  lemma RerunUnchanged(p: nat, curdepth: int, d: Dir, m: map<(int, int), string>, b: Bounds,
                       md5: string -> Digest)
    requires Replay(d, Schedule(p, curdepth), m, b, md5).0 == Pass
    ensures var e := Replay(d, Schedule(p, curdepth), m, b, md5).1;
      Replay(e, RenderTasks(p), m, b, md5) == (Pass, e) && Replay(e, Schedule(p, p), m, b, md5) == (Pass, e)
  {
    var resize, render := ResizeTasks(p, curdepth), RenderTasks(p);
    ReplayAppend(d, resize, render, m, b, md5);
    var d0 := Replay(d, resize, m, b, md5).1;
    assert Replay(d, resize, m, b, md5).0 == Pass;
    assert Replay(d, Schedule(p, curdepth), m, b, md5) == Replay(d0, render, m, b, md5);
    var e := Replay(d0, render, m, b, md5).1;
    CacheSafeRender(p);
    RerunStable(d0, render, m, b, md5);
    ReplayFixed(e, render, m, b, md5);
    ScheduleSameDepth(p);
  }
}
