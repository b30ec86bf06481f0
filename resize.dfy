/**
 * Depth resizing as tree surgery on the tiles/ directory (quadtree.py _increase_depth and
 * _decrease_depth), stated as pure transformations of that directory.
 */
module Resize {
  import opened Common
  import opened Geometry
  import opened TileStore

  /** The four top-level quadrant names. */
  const QuadrantNames: set<string> := {"0", "1", "2", "3"}

  lemma QuadrantNamesAre(k: Quadrant)
    ensures Name(k) in QuadrantNames && TempName(k) !in QuadrantNames
  {
  }

  /** The fresh directory that becomes quadrant k when the tree grows: it holds the old
      k.png, k.hash and k/ under the complement name 3 - k, where they existed. */
  function Nested(t: Dir, k: Quadrant): Dir {
    var n, c := Name(k), Name(3 - k);
    Dir(if n in t.pngs then map[c := t.pngs[n]] else map[],
        if n in t.hashes then map[c := t.hashes[n]] else map[],
        if n in t.subs then map[c := t.subs[n]] else map[])
  }

  /** One iteration of the loop of _increase_depth, for quadrant k. */
  function GrowStep(t: Dir, k: Quadrant): Dir {
    Dir(t.pngs - {Name(k)}, t.hashes - {Name(k)}, t.subs[Name(k) := Nested(t, k)])
  }

  /** The first k iterations of the loop of _increase_depth. */
  function GrownUpTo(t: Dir, k: nat): Dir
    requires k <= 4
  {
    if k == 0 then t else GrowStep(GrownUpTo(t, k - 1), k - 1)
  }

  /** tiles/ after _increase_depth. */
  function Grown(t: Dir): Dir {
    GrownUpTo(t, 4)
  }

  /** The body of _decrease_depth for quadrant k: k/(3-k) replaces k when it exists. */
  function ShrinkStep(t: Dir, k: Quadrant): Dir {
    var n, c := Name(k), Name(3 - k);
    if n in t.subs && c in t.subs[n].subs then t.(subs := t.subs[n := t.subs[n].subs[c]]) else t
  }

  /** tiles/ after _decrease_depth: quadrants 0, 1, 2, 3 in turn. */
  function Shrunk(t: Dir): Dir {
    ShrinkStep(ShrinkStep(ShrinkStep(ShrinkStep(t, 0), 1), 2), 3)
  }

  /** After k iterations of the increase loop, quadrants below k are nested and everything
      else is as it was. */
  lemma {:induction false} GrownUpToSpec(t: Dir, k: nat, j: Quadrant, n: string)
    requires k <= 4
    ensures j < k ==> Name(j) in GrownUpTo(t, k).subs && GrownUpTo(t, k).subs[Name(j)] == Nested(t, j)
    ensures j < k ==> Name(j) !in GrownUpTo(t, k).pngs && Name(j) !in GrownUpTo(t, k).hashes
    ensures j >= k ==> Nested(GrownUpTo(t, k), j) == Nested(t, j)
    ensures n !in QuadrantNames ==> (n in GrownUpTo(t, k).subs <==> n in t.subs)
    ensures n !in QuadrantNames && n in t.subs ==> GrownUpTo(t, k).subs[n] == t.subs[n]
    ensures n !in QuadrantNames ==> (n in GrownUpTo(t, k).pngs <==> n in t.pngs)
    ensures n !in QuadrantNames && n in t.pngs ==> GrownUpTo(t, k).pngs[n] == t.pngs[n]
    ensures n !in QuadrantNames ==> (n in GrownUpTo(t, k).hashes <==> n in t.hashes)
    ensures n !in QuadrantNames && n in t.hashes ==> GrownUpTo(t, k).hashes[n] == t.hashes[n]
  {
    QuadrantNamesAre(j);
    if k > 0 {
      var prev := GrownUpTo(t, k - 1);
      GrownUpToSpec(t, k - 1, j, n);
      GrownUpToSpec(t, k - 1, k - 1, n);
      QuadrantNamesAre(k - 1);
      NameInjective(j, k - 1);
      if j >= k {
        NameInjective(3 - j, 3 - (k - 1));
      }
    }
  }

  /** _increase_depth moves each top-level quadrant k one level down, to k/(3-k): its image,
      its fingerprint and its whole sub-directory. The top-level images and fingerprints of
      the quadrants are gone (the next build regenerates them); nothing else changes. */
  lemma GrowMovesQuadrant(t: Dir, k: Quadrant)
    ensures var g := Grown(t); var n, c := Name(k), Name(3 - k);
      && n in g.subs && n !in g.pngs && n !in g.hashes
      && (c in g.subs[n].pngs <==> n in t.pngs) && (n in t.pngs ==> g.subs[n].pngs[c] == t.pngs[n])
      && (c in g.subs[n].hashes <==> n in t.hashes) && (n in t.hashes ==> g.subs[n].hashes[c] == t.hashes[n])
      && (c in g.subs[n].subs <==> n in t.subs) && (n in t.subs ==> g.subs[n].subs[c] == t.subs[n])
      && g.subs[n].pngs.Keys <= {c} && g.subs[n].hashes.Keys <= {c} && g.subs[n].subs.Keys <= {c}
  {
    GrownUpToSpec(t, 4, k, "");
  }

  /** _increase_depth leaves every entry whose name is not a quadrant digit alone (base.png
      and base.hash among them). */
  lemma GrowKeepsRest(t: Dir, n: string)
    requires n !in QuadrantNames
    ensures (n in Grown(t).subs <==> n in t.subs) && (n in t.subs ==> Grown(t).subs[n] == t.subs[n])
    ensures (n in Grown(t).pngs <==> n in t.pngs) && (n in t.pngs ==> Grown(t).pngs[n] == t.pngs[n])
    ensures (n in Grown(t).hashes <==> n in t.hashes) && (n in t.hashes ==> Grown(t).hashes[n] == t.hashes[n])
  {
    GrownUpToSpec(t, 4, 0, n);
  }

  /** A shrink step for quadrant k leaves the files and every other sub-directory alone. */
  lemma ShrinkStepOther(t: Dir, k: Quadrant, n: string)
    requires n != Name(k)
    ensures ShrinkStep(t, k).pngs == t.pngs && ShrinkStep(t, k).hashes == t.hashes
    ensures (n in ShrinkStep(t, k).subs <==> n in t.subs) && (n in t.subs ==> ShrinkStep(t, k).subs[n] == t.subs[n])
  {
  }

  /** _decrease_depth promotes k/(3-k) to replace k/ whenever it exists, discarding the rest
      of k/, and leaves k/ untouched otherwise; top-level files and every other entry are
      unchanged. */
  lemma ShrinkPromotes(t: Dir, k: Quadrant)
    ensures var s := Shrunk(t); var n, c := Name(k), Name(3 - k);
      && s.pngs == t.pngs && s.hashes == t.hashes
      && (n in s.subs <==> n in t.subs)
      && (n in t.subs && c in t.subs[n].subs ==> s.subs[n] == t.subs[n].subs[c])
      && (n in t.subs && c !in t.subs[n].subs ==> s.subs[n] == t.subs[n])
  {
    var t0 := ShrinkStep(t, 0);
    var t1 := ShrinkStep(t0, 1);
    var t2 := ShrinkStep(t1, 2);
    var t3 := ShrinkStep(t2, 3);
    forall j: Quadrant | j != k
      ensures Name(k) != Name(j)
    {
      NameInjective(j, k);
    }
    if k == 0 {
      ShrinkStepOther(t0, 1, Name(k));
      ShrinkStepOther(t1, 2, Name(k));
      ShrinkStepOther(t2, 3, Name(k));
    } else if k == 1 {
      ShrinkStepOther(t, 0, Name(k));
      ShrinkStepOther(t1, 2, Name(k));
      ShrinkStepOther(t2, 3, Name(k));
    } else if k == 2 {
      ShrinkStepOther(t, 0, Name(k));
      ShrinkStepOther(t0, 1, Name(k));
      ShrinkStepOther(t2, 3, Name(k));
    } else {
      ShrinkStepOther(t, 0, Name(k));
      ShrinkStepOther(t0, 1, Name(k));
      ShrinkStepOther(t1, 2, Name(k));
    }
  }

  /** _decrease_depth leaves every sub-directory whose name is not a quadrant digit alone. */
  lemma ShrinkKeepsRest(t: Dir, n: string)
    requires n !in QuadrantNames
    ensures (n in Shrunk(t).subs <==> n in t.subs) && (n in t.subs ==> Shrunk(t).subs[n] == t.subs[n])
  {
    var t0 := ShrinkStep(t, 0);
    var t1 := ShrinkStep(t0, 1);
    var t2 := ShrinkStep(t1, 2);
    QuadrantNamesAre(0);
    QuadrantNamesAre(1);
    QuadrantNamesAre(2);
    QuadrantNamesAre(3);
    ShrinkStepOther(t, 0, n);
    ShrinkStepOther(t0, 1, n);
    ShrinkStepOther(t1, 2, n);
    ShrinkStepOther(t2, 3, n);
  }

  /** Shrinking right after growing gives every quadrant directory k/ that existed back
      exactly. A quadrant that had no directory keeps the fresh one, holding only the old
      top-level k.png and k.hash under the name 3-k. The top-level k.png and k.hash are not
      restored. */
  lemma ShrinkAfterGrow(t: Dir, k: Quadrant)
    ensures var r := Shrunk(Grown(t)); var n := Name(k);
      && n in r.subs && n !in r.pngs && n !in r.hashes
      && (n in t.subs ==> r.subs[n] == t.subs[n])
      && (n !in t.subs ==> r.subs[n] == Nested(t, k))
  {
    GrowMovesQuadrant(t, k);
    ShrinkPromotes(Grown(t), k);
  }

  /** Apart from the quadrant directories and files, shrinking after growing restores
      everything. */
  lemma ShrinkAfterGrowKeepsRest(t: Dir, n: string)
    requires n !in QuadrantNames
    ensures (n in Shrunk(Grown(t)).subs <==> n in t.subs) && (n in t.subs ==> Shrunk(Grown(t)).subs[n] == t.subs[n])
    ensures (n in Shrunk(Grown(t)).pngs <==> n in t.pngs) && (n in t.pngs ==> Shrunk(Grown(t)).pngs[n] == t.pngs[n])
    ensures (n in Shrunk(Grown(t)).hashes <==> n in t.hashes) && (n in t.hashes ==> Shrunk(Grown(t)).hashes[n] == t.hashes[n])
  {
    GrowKeepsRest(t, n);
    ShrinkKeepsRest(Grown(t), n);
    ShrinkPromotes(Grown(t), 0);
  }
}
