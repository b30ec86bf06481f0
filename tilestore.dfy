/**
 * The destination directory as the builder sees it: a tree of directories, each holding
 * tile images (stem.png) and fingerprints (stem.hash) and further directories, with the
 * file operations quadtree.py performs on it (os.path.exists, mkdir, makedirs, rename,
 * rmtree, unlink, Image.save, writing a .hash file).
 */
module TileStore {
  import opened Common
  import opened Geometry

  /** Contents of a .hash file: an md5 digest as a byte string. */
  type Digest = string

  datatype Rgba = Rgba(r: int, g: int, b: int, a: int)

  /** Fill of every new canvas: transparent blue, RGBA (38, 92, 255, 0). */
  const Tint := Rgba(38, 92, 255, 0)

  /** An image, described by how it was made rather than by its pixels. */
  datatype Image =
    | Canvas(width: int, height: int, fill: Rgba, pastes: seq<Paste>)  // Image.new, then pastes in order
    | ChunkImage(file: string)                                           // a chunk picture on disk

  /** One img.paste call: the picture's top-left corner lands at (x, y). */
  datatype Paste = Paste(x: int, y: int, picture: Picture)

  datatype Picture =
    | Thumbnail(source: Image)  // source.resize((192, 192), ANTIALIAS)
    | Masked(source: Image)     // source.convert("RGB") pasted through source's own alpha channel

  /** A directory: stem s maps to the file s.png in pngs and to s.hash in hashes; subs
      holds the sub-directories by name. */
  datatype Dir = Dir(pngs: map<string, Image>, hashes: map<string, Digest>, subs: map<string, Dir>)

  const EmptyDir := Dir(map[], map[], map[])

  /** Where one tile's pair of files lives: dir/stem.png and dir/stem.hash. */
  datatype Slot = Slot(dir: seq<string>, stem: string)

  /** Directory name of a quadrant digit: str(k). */
  function Name(k: Quadrant): (n: string)
    ensures |n| == 1
  {
    ["0", "1", "2", "3"][k]
  }

  lemma NameInjective(j: Quadrant, k: Quadrant)
    ensures Name(j) == Name(k) <==> j == k
  {
    assert Name(j)[0] == "0123"[j] && Name(k)[0] == "0123"[k];
  }

  /** The directory names of a path's digits. */
  function Names(q: Path): (r: seq<string>)
    ensures |r| == |q| && forall i :: 0 <= i < |q| ==> r[i] == Name(q[i])
  {
    seq(|q|, i requires 0 <= i < |q| => Name(q[i]))
  }

  // ---------------------------------------------------------------------------------------
  // Navigation

  /** The directory at a path, if every component exists. */
  function Get(d: Dir, path: seq<string>): Option<Dir>
    decreases |path|
  {
    if path == [] then Some(d)
    else if path[0] in d.subs then Get(d.subs[path[0]], path[1..])
    else None
  }

  predicate DirExists(d: Dir, path: seq<string>) {
    Get(d, path).Some?
  }

  /** The tree with the directory at path replaced by t; missing directories on the way are
      created empty (os.makedirs). */
  function Update(d: Dir, path: seq<string>, t: Dir): Dir
    decreases |path|
  {
    if path == [] then t
    else
      var child := if path[0] in d.subs then d.subs[path[0]] else EmptyDir;
      d.(subs := d.subs[path[0] := Update(child, path[1..], t)])
  }

  /** The tree without the entry at a non-empty path (shutil.rmtree, or the source side of a
      rename); unchanged when the path's parent is missing. */
  function Remove(d: Dir, path: seq<string>): Dir
    requires |path| > 0
    decreases |path|
  {
    if |path| == 1 then d.(subs := d.subs - {path[0]})
    else if path[0] in d.subs then d.(subs := d.subs[path[0] := Remove(d.subs[path[0]], path[1..])])
    else d
  }

  function PngAt(d: Dir, s: Slot): Option<Image> {
    match Get(d, s.dir)
    case None => None
    case Some(x) => if s.stem in x.pngs then Some(x.pngs[s.stem]) else None
  }

  function HashAt(d: Dir, s: Slot): Option<Digest> {
    match Get(d, s.dir)
    case None => None
    case Some(x) => if s.stem in x.hashes then Some(x.hashes[s.stem]) else None
  }

  // ---------------------------------------------------------------------------------------
  // File operations, as functions of the tree

  /** Image.save (Some) or os.unlink (None) of slot s's .png. */
  function SetPng(d: Dir, s: Slot, v: Option<Image>): Dir
    requires DirExists(d, s.dir)
  {
    var x := Get(d, s.dir).value;
    Update(d, s.dir, x.(pngs := if v.Some? then x.pngs[s.stem := v.value] else x.pngs - {s.stem}))
  }

  /** Writing (Some) or os.unlink (None) of slot s's .hash. */
  function SetHash(d: Dir, s: Slot, v: Option<Digest>): Dir
    requires DirExists(d, s.dir)
  {
    var x := Get(d, s.dir).value;
    Update(d, s.dir, x.(hashes := if v.Some? then x.hashes[s.stem := v.value] else x.hashes - {s.stem}))
  }

  /** os.makedirs: create every missing directory on the path. */
  function MakeDirs(d: Dir, path: seq<string>): Dir {
    Update(d, path, if DirExists(d, path) then Get(d, path).value else EmptyDir)
  }

  /** Unlink the .png and then the .hash of a slot where they exist. */
  function DeleteTile(d: Dir, s: Slot): Dir {
    var d1 := if PngAt(d, s).Some? then SetPng(d, s, None) else d;
    if HashAt(d1, s).Some? then SetHash(d1, s, None) else d1
  }

  /** Save the image, then the fingerprint. */
  function WriteTile(d: Dir, s: Slot, img: Image, h: Digest): Dir
    requires DirExists(d, s.dir)
  {
    SetPngSpec(d, s, Some(img), s);
    SetHash(SetPng(d, s, Some(img)), s, Some(h))
  }

  // ---------------------------------------------------------------------------------------
  // Lemmas about navigation

  lemma {:induction false} GetUpdateSame(d: Dir, path: seq<string>, t: Dir)
    ensures Get(Update(d, path, t), path) == Some(t)
    decreases |path|
  {
    if path != [] {
      var child := if path[0] in d.subs then d.subs[path[0]] else EmptyDir;
      GetUpdateSame(child, path[1..], t);
    }
  }

  /** Directories are nested: a path exists only if its parent does. */
  lemma {:induction false} GetParent(d: Dir, path: seq<string>, n: string)
    requires DirExists(d, path + [n])
    ensures DirExists(d, path)
    decreases |path|
  {
    if path != [] {
      assert (path + [n])[1..] == path[1..] + [n];
      GetParent(d.subs[path[0]], path[1..], n);
    }
  }

  lemma {:induction false} GetAppend(d: Dir, p: seq<string>, q: seq<string>)
    ensures Get(d, p + q) == (if DirExists(d, p) then Get(Get(d, p).value, q) else None)
    decreases |p|
  {
    if p != [] {
      assert (p + q)[0] == p[0] && (p + q)[1..] == p[1..] + q;
      if p[0] in d.subs {
        GetAppend(d.subs[p[0]], p[1..], q);
      }
    } else {
      assert p + q == q;
    }
  }

  lemma {:induction false} UpdateAppend(d: Dir, p: seq<string>, q: seq<string>, t: Dir)
    requires DirExists(d, p)
    ensures Update(d, p + q, t) == Update(d, p, Update(Get(d, p).value, q, t))
    decreases |p|
  {
    if p != [] {
      assert (p + q)[0] == p[0] && (p + q)[1..] == p[1..] + q;
      UpdateAppend(d.subs[p[0]], p[1..], q, t);
    } else {
      assert p + q == q;
    }
  }

  lemma {:induction false} RemoveAppend(d: Dir, p: seq<string>, q: seq<string>)
    requires DirExists(d, p) && |q| > 0
    ensures Remove(d, p + q) == Update(d, p, Remove(Get(d, p).value, q))
    decreases |p|
  {
    if p != [] {
      assert (p + q)[0] == p[0] && (p + q)[1..] == p[1..] + q;
      if |p| == 1 {
        assert p[1..] == [];
        assert p[1..] + q == q;
      }
      RemoveAppend(d.subs[p[0]], p[1..], q);
    } else {
      assert p + q == q;
    }
  }

  /** Replacing the directory at an existing path by one with the same sub-directories
      changes the files of that directory only. */
  lemma {:induction false} UpdateFiles(d: Dir, p: seq<string>, t: Dir, s: Slot)
    requires DirExists(d, p) && t.subs == Get(d, p).value.subs
    ensures s.dir != p ==> PngAt(Update(d, p, t), s) == PngAt(d, s) && HashAt(Update(d, p, t), s) == HashAt(d, s)
    ensures s.dir == p ==> PngAt(Update(d, p, t), s) == (if s.stem in t.pngs then Some(t.pngs[s.stem]) else None)
    ensures s.dir == p ==> HashAt(Update(d, p, t), s) == (if s.stem in t.hashes then Some(t.hashes[s.stem]) else None)
    ensures forall path :: DirExists(Update(d, p, t), path) == DirExists(d, path)
    decreases |p|
  {
    GetUpdateSame(d, p, t);
    if p == [] {
      forall path | true
        ensures DirExists(t, path) == DirExists(d, path)
      {
        if path != [] {
        }
      }
    } else {
      var c := d.subs[p[0]];
      var s' := Slot(if s.dir != [] then s.dir[1..] else [], s.stem);
      UpdateFiles(c, p[1..], t, s');
      if s.dir != [] && s.dir[0] == p[0] {
        assert s.dir != p <==> s.dir[1..] != p[1..] by {
          if s.dir[1..] == p[1..] {
            assert s.dir == [s.dir[0]] + s.dir[1..] && p == [p[0]] + p[1..];
          }
        }
      }
      forall path | true
        ensures DirExists(Update(d, p, t), path) == DirExists(d, path)
      {
        if path != [] && path[0] == p[0] {
          assert DirExists(Update(c, p[1..], t), path[1..]) == DirExists(c, path[1..]);
        }
      }
    }
  }

  /** os.makedirs creates the path and touches no file and no existing directory. */
  lemma {:induction false} MakeDirsSpec(d: Dir, p: seq<string>, s: Slot)
    ensures DirExists(MakeDirs(d, p), p)
    ensures PngAt(MakeDirs(d, p), s) == PngAt(d, s) && HashAt(MakeDirs(d, p), s) == HashAt(d, s)
    ensures DirExists(d, p) ==> MakeDirs(d, p) == d
    ensures forall path :: DirExists(d, path) ==> DirExists(MakeDirs(d, p), path)
    decreases |p|
  {
    GetUpdateSame(d, p, if DirExists(d, p) then Get(d, p).value else EmptyDir);
    if DirExists(d, p) {
      UpdateUnchanged(d, p);
    } else {
      MakeDirsFresh(d, p, s);
      MakeDirsKeepsDirs(d, p);
    }
  }

  lemma {:induction false} UpdateUnchanged(d: Dir, p: seq<string>)
    requires DirExists(d, p)
    ensures Update(d, p, Get(d, p).value) == d
    decreases |p|
  {
    if p != [] {
      UpdateUnchanged(d.subs[p[0]], p[1..]);
    }
  }

  lemma {:induction false} MakeDirsFresh(d: Dir, p: seq<string>, s: Slot)
    requires !DirExists(d, p)
    ensures PngAt(Update(d, p, EmptyDir), s) == PngAt(d, s) && HashAt(Update(d, p, EmptyDir), s) == HashAt(d, s)
    decreases |p|
  {
    var s' := Slot(if s.dir != [] then s.dir[1..] else [], s.stem);
    if p[0] in d.subs {
      MakeDirsFresh(d.subs[p[0]], p[1..], s');
    } else {
      EmptyGrows(p[1..], s');
    }
  }

  lemma {:induction false} MakeDirsKeepsDirs(d: Dir, p: seq<string>)
    requires !DirExists(d, p)
    ensures forall path :: DirExists(d, path) ==> DirExists(Update(d, p, EmptyDir), path)
    decreases |p|
  {
    var c := if p[0] in d.subs then d.subs[p[0]] else EmptyDir;
    if p[0] in d.subs {
      MakeDirsKeepsDirs(c, p[1..]);
    }
    forall path | DirExists(d, path)
      ensures DirExists(Update(d, p, EmptyDir), path)
    {
      if path != [] && path[0] == p[0] {
        assert DirExists(c, path[1..]);
      }
    }
  }

  /** os.makedirs creates no directory other than the path's own prefixes. */
  lemma {:induction false} MakeDirsOnlyPrefixes(d: Dir, p: seq<string>, x: seq<string>)
    requires DirExists(MakeDirs(d, p), x)
    ensures DirExists(d, x) || (|x| <= |p| && x == p[..|x|])
  {
    if DirExists(d, p) {
      UpdateUnchanged(d, p);
    } else {
      UpdateEmptyDirs(d, p, x);
    }
  }

  lemma {:induction false} UpdateEmptyDirs(d: Dir, p: seq<string>, x: seq<string>)
    requires DirExists(Update(d, p, EmptyDir), x)
    ensures DirExists(d, x) || (|x| <= |p| && x == p[..|x|])
    decreases |p|
  {
    if p != [] && x != [] && x[0] == p[0] {
      var child := if p[0] in d.subs then d.subs[p[0]] else EmptyDir;
      UpdateEmptyDirs(child, p[1..], x[1..]);
      if |x[1..]| <= |p[1..]| && x[1..] == p[1..][..|x[1..]|] {
        assert x == [x[0]] + x[1..] && p[..|x|] == [p[0]] + p[1..][..|x[1..]|];
      }
    }
  }

  /** A chain of new empty directories holds no file. */
  lemma {:induction false} EmptyGrows(p: seq<string>, s: Slot)
    ensures PngAt(Update(EmptyDir, p, EmptyDir), s) == None && HashAt(Update(EmptyDir, p, EmptyDir), s) == None
    decreases |p|
  {
    if p != [] {
      var s' := Slot(if s.dir != [] then s.dir[1..] else [], s.stem);
      EmptyGrows(p[1..], s');
    }
  }

  /** Writing or deleting one slot's files changes that slot and nothing else. */
  lemma SetPngSpec(d: Dir, s: Slot, v: Option<Image>, s2: Slot)
    requires DirExists(d, s.dir)
    ensures PngAt(SetPng(d, s, v), s2) == (if s2 == s then v else PngAt(d, s2))
    ensures HashAt(SetPng(d, s, v), s2) == HashAt(d, s2)
    ensures forall path :: DirExists(SetPng(d, s, v), path) == DirExists(d, path)
  {
    var x := Get(d, s.dir).value;
    UpdateFiles(d, s.dir, x.(pngs := if v.Some? then x.pngs[s.stem := v.value] else x.pngs - {s.stem}), s2);
  }

  lemma SetHashSpec(d: Dir, s: Slot, v: Option<Digest>, s2: Slot)
    requires DirExists(d, s.dir)
    ensures HashAt(SetHash(d, s, v), s2) == (if s2 == s then v else HashAt(d, s2))
    ensures PngAt(SetHash(d, s, v), s2) == PngAt(d, s2)
    ensures forall path :: DirExists(SetHash(d, s, v), path) == DirExists(d, path)
  {
    var x := Get(d, s.dir).value;
    UpdateFiles(d, s.dir, x.(hashes := if v.Some? then x.hashes[s.stem := v.value] else x.hashes - {s.stem}), s2);
  }

  /** After a WriteTile, the slot holds exactly the new pair; every other slot and every
      directory is as before. */
  lemma WriteTileSpec(d: Dir, s: Slot, img: Image, h: Digest, s2: Slot)
    requires DirExists(d, s.dir)
    ensures PngAt(WriteTile(d, s, img, h), s2) == (if s2 == s then Some(img) else PngAt(d, s2))
    ensures HashAt(WriteTile(d, s, img, h), s2) == (if s2 == s then Some(h) else HashAt(d, s2))
    ensures forall path :: DirExists(WriteTile(d, s, img, h), path) == DirExists(d, path)
  {
    SetPngSpec(d, s, Some(img), s2);
    SetPngSpec(d, s, Some(img), s);
    SetHashSpec(SetPng(d, s, Some(img)), s, Some(h), s2);
  }

  /** After a DeleteTile, the slot holds neither file; every other slot and every directory
      is as before. */
  lemma DeleteTileSpec(d: Dir, s: Slot, s2: Slot)
    ensures PngAt(DeleteTile(d, s), s2) == (if s2 == s then None else PngAt(d, s2))
    ensures HashAt(DeleteTile(d, s), s2) == (if s2 == s then None else HashAt(d, s2))
    ensures forall path :: DirExists(DeleteTile(d, s), path) == DirExists(d, path)
  {
    var d1 := if PngAt(d, s).Some? then SetPng(d, s, None) else d;
    if PngAt(d, s).Some? {
      SetPngSpec(d, s, None, s2);
      SetPngSpec(d, s, None, s);
    }
    if HashAt(d1, s).Some? {
      SetHashSpec(d1, s, None, s2);
    }
  }

  // ---------------------------------------------------------------------------------------
  // Operations inside a sub-directory

  /** Looking up a/path is looking up path in a. */
  lemma GetIn(d: Dir, a: string, path: seq<string>)
    ensures Get(d, [a] + path) == if a in d.subs then Get(d.subs[a], path) else None
  {
    assert ([a] + path)[0] == a && ([a] + path)[1..] == path;
  }

  lemma PngAtIn(d: Dir, a: string, s: Slot)
    ensures PngAt(d, Slot([a] + s.dir, s.stem)) == if a in d.subs then PngAt(d.subs[a], s) else None
  {
    GetIn(d, a, s.dir);
  }

  lemma HashAtIn(d: Dir, a: string, s: Slot)
    ensures HashAt(d, Slot([a] + s.dir, s.stem)) == if a in d.subs then HashAt(d.subs[a], s) else None
  {
    GetIn(d, a, s.dir);
  }

  /** Replacing a/path replaces path inside a. */
  lemma UpdateIn(d: Dir, a: string, path: seq<string>, x: Dir)
    requires a in d.subs
    ensures Update(d, [a] + path, x) == d.(subs := d.subs[a := Update(d.subs[a], path, x)])
  {
    assert ([a] + path)[0] == a && ([a] + path)[1..] == path;
  }

  /** Replacing a single-component path replaces that child. */
  lemma UpdateChild(d: Dir, a: string, x: Dir)
    ensures Update(d, [a], x) == d.(subs := d.subs[a := x])
  {
    assert [a][1..] == [];
  }

  lemma RemoveIn(d: Dir, a: string, path: seq<string>)
    requires a in d.subs && |path| > 0
    ensures Remove(d, [a] + path) == d.(subs := d.subs[a := Remove(d.subs[a], path)])
  {
    assert ([a] + path)[0] == a && ([a] + path)[1..] == path;
  }

  lemma SetPngIn(d: Dir, a: string, s: Slot, v: Option<Image>)
    requires a in d.subs && DirExists(d.subs[a], s.dir)
    ensures DirExists(d, [a] + s.dir)
    ensures SetPng(d, Slot([a] + s.dir, s.stem), v) == d.(subs := d.subs[a := SetPng(d.subs[a], s, v)])
  {
    GetIn(d, a, s.dir);
    var x := Get(d.subs[a], s.dir).value;
    UpdateIn(d, a, s.dir, x.(pngs := if v.Some? then x.pngs[s.stem := v.value] else x.pngs - {s.stem}));
  }

  lemma SetHashIn(d: Dir, a: string, s: Slot, v: Option<Digest>)
    requires a in d.subs && DirExists(d.subs[a], s.dir)
    ensures DirExists(d, [a] + s.dir)
    ensures SetHash(d, Slot([a] + s.dir, s.stem), v) == d.(subs := d.subs[a := SetHash(d.subs[a], s, v)])
  {
    GetIn(d, a, s.dir);
    var x := Get(d.subs[a], s.dir).value;
    UpdateIn(d, a, s.dir, x.(hashes := if v.Some? then x.hashes[s.stem := v.value] else x.hashes - {s.stem}));
  }

  // ---------------------------------------------------------------------------------------
  // The file system object

  /** The temporary directory names new0 .. new3 the resizer uses under tiles/. */
  function TempName(k: Quadrant): (n: string)
    ensures |n| == 4
  {
    "new" + Name(k)
  }

  /** No temporary directory is left under tiles/ (one would be left only by an interrupted
      resize, which this model does not enter). */
  predicate NoTempDirs(root: Dir) {
    forall k: Quadrant :: !DirExists(root, ["tiles", TempName(k)])
  }

  class FileSystem {
    /** The destination directory. */
    var root: Dir

    constructor (root: Dir)
      ensures this.root == root
    {
      this.root := root;
    }

    /** os.path.exists on a directory. */
    method IsDir(path: seq<string>) returns (b: bool)
      ensures b == DirExists(root, path)
    {
      b := Get(root, path).Some?;
    }

    /** os.path.exists on slot s's .png. */
    method PngExists(s: Slot) returns (b: bool)
      ensures b == PngAt(root, s).Some?
    {
      b := PngAt(root, s).Some?;
    }

    /** os.path.exists on slot s's .hash. */
    method HashExists(s: Slot) returns (b: bool)
      ensures b == HashAt(root, s).Some?
    {
      b := HashAt(root, s).Some?;
    }

    /** open(hashpath).read(). */
    method ReadHash(s: Slot) returns (h: Digest)
      requires HashAt(root, s).Some?
      ensures HashAt(root, s) == Some(h)
    {
      h := HashAt(root, s).value;
    }

    /** Image.open on slot s's .png: IOError when the file is missing. */
    method OpenImage(s: Slot) returns (r: Result<Image>)
      ensures PngAt(root, s).Some? ==> r == Ok(PngAt(root, s).value)
      ensures PngAt(root, s).None? ==> r == Err(MissingImage)
    {
      match PngAt(root, s)
      case Some(img) => r := Ok(img);
      case None => r := Err(MissingImage);
    }

    /** os.mkdir of a path that does not exist yet: ENOENT when its parent is missing. */
    method MkDir(parent: seq<string>, name: string) returns (o: Outcome)
      requires !DirExists(root, parent + [name])
      modifies this
      ensures DirExists(old(root), parent) ==> o == Pass && root == Update(old(root), parent + [name], EmptyDir)
      ensures !DirExists(old(root), parent) ==> o == Fail(NoSuchDirectory) && root == old(root)
    {
      if Get(root, parent).Some? {
        root := Update(root, parent + [name], EmptyDir);
        o := Pass;
      } else {
        o := Fail(NoSuchDirectory);
      }
    }

    /** os.makedirs. */
    method MakeDirectories(path: seq<string>)
      modifies this
      ensures root == MakeDirs(old(root), path)
    {
      root := MakeDirs(root, path);
    }

    /** os.rename of a directory onto a name that does not exist, in an existing directory. */
    method RenameDir(src: seq<string>, dst: seq<string>)
      requires |src| > 0 && |dst| > 0 && DirExists(root, src)
      requires DirExists(Remove(root, src), dst[..|dst| - 1]) && !DirExists(Remove(root, src), dst)
      modifies this
      ensures root == Update(Remove(old(root), src), dst, Get(old(root), src).value)
    {
      var moved := Get(root, src).value;
      root := Update(Remove(root, src), dst, moved);
    }

    /** os.rename of a .png onto a name that does not exist, in an existing directory. */
    method RenamePng(src: Slot, dst: Slot)
      requires PngAt(root, src).Some? && DirExists(root, dst.dir) && PngAt(root, dst).None?
      modifies this
      ensures DirExists(SetPng(old(root), src, None), dst.dir)
      ensures root == SetPng(SetPng(old(root), src, None), dst, PngAt(old(root), src))
    {
      var img := PngAt(root, src);
      SetPngSpec(root, src, None, src);
      root := SetPng(root, src, None);
      root := SetPng(root, dst, img);
    }

    /** os.rename of a .hash onto a name that does not exist, in an existing directory. */
    method RenameHash(src: Slot, dst: Slot)
      requires HashAt(root, src).Some? && DirExists(root, dst.dir) && HashAt(root, dst).None?
      modifies this
      ensures DirExists(SetHash(old(root), src, None), dst.dir)
      ensures root == SetHash(SetHash(old(root), src, None), dst, HashAt(old(root), src))
    {
      var h := HashAt(root, src);
      SetHashSpec(root, src, None, src);
      root := SetHash(root, src, None);
      root := SetHash(root, dst, h);
    }

    /** shutil.rmtree. */
    method RmTree(path: seq<string>)
      requires |path| > 0 && DirExists(root, path)
      modifies this
      ensures root == Remove(old(root), path)
    {
      root := Remove(root, path);
    }

    /** Image.save to slot s's .png. */
    method SavePng(s: Slot, img: Image)
      requires DirExists(root, s.dir)
      modifies this
      ensures root == SetPng(old(root), s, Some(img))
    {
      root := SetPng(root, s, Some(img));
    }

    /** Writing slot s's .hash. */
    method WriteHash(s: Slot, h: Digest)
      requires DirExists(root, s.dir)
      modifies this
      ensures root == SetHash(old(root), s, Some(h))
    {
      root := SetHash(root, s, Some(h));
    }

    /** os.unlink of slot s's .png. */
    method UnlinkPng(s: Slot)
      requires PngAt(root, s).Some?
      modifies this
      ensures root == SetPng(old(root), s, None)
    {
      root := SetPng(root, s, None);
    }

    /** os.unlink of slot s's .hash. */
    method UnlinkHash(s: Slot)
      requires HashAt(root, s).Some?
      modifies this
      ensures root == SetHash(old(root), s, None)
    {
      root := SetHash(root, s, None);
    }
  }
}
