/**
 * The two tile renderers of quadtree.py with their fingerprint cache: render_innertile
 * (a tile from its four children) and render_worldtile (a deepest tile from chunk images).
 * Each is a method over the file system, proved equal to a function of the tree it starts
 * from; the cache properties are lemmas about those functions.
 */
module Render {
  import opened Common
  import opened Geometry
  import opened TileStore
  import opened ChunkNames

  /** hashlib.md5 fed several pieces in turn digests their concatenation. */
  function Concat(pieces: seq<string>): string {
    if pieces == [] then [] else Concat(pieces[..|pieces| - 1]) + pieces[|pieces| - 1]
  }

  lemma ConcatSnoc(pieces: seq<string>, piece: string)
    ensures Concat(pieces + [piece]) == Concat(pieces) + piece
  {
    assert (pieces + [piece])[..|pieces|] == pieces;
  }

  /** Feeding four optional pieces in turn digests the concatenation of those present. */
  lemma ConcatPieces(a: seq<string>, b: seq<string>, c: seq<string>, e: seq<string>)
    requires |a| <= 1 && |b| <= 1 && |c| <= 1 && |e| <= 1
    ensures Concat(a + b + c + e) ==
      (if a == [] then "" else a[0]) + (if b == [] then "" else b[0]) +
      (if c == [] then "" else c[0]) + (if e == [] then "" else e[0])
  {
    ConcatAppend(a, b);
    ConcatAppend(a + b, c);
    ConcatAppend(a + b + c, e);
    ConcatOne(a);
    ConcatOne(b);
    ConcatOne(c);
    ConcatOne(e);
  }

  lemma ConcatOne(a: seq<string>)
    requires |a| <= 1
    ensures Concat(a) == if a == [] then "" else a[0]
  {
    if |a| == 1 {
      assert a[..0] == [];
    }
  }

  /** Feeding two batches of pieces digests the concatenation of both. */
  lemma {:induction false} ConcatAppend(xs: seq<string>, ys: seq<string>)
    ensures Concat(xs + ys) == Concat(xs) + Concat(ys)
    decreases |ys|
  {
    if ys == [] {
      assert xs + ys == xs;
    } else {
      var init := ys[..|ys| - 1];
      ConcatAppend(xs, init);
      assert (xs + ys)[..|xs + ys| - 1] == xs + init;
    }
  }

  // ---------------------------------------------------------------------------------------
  // Inner tiles

  /** The directory holding the children of tile dest/name: dest itself for the top-level
      tile "base", dest/name otherwise. */
  function ChildDir(dest: seq<string>, name: string): seq<string> {
    if name == "base" then dest else dest + [name]
  }

  function ChildSlot(dest: seq<string>, name: string, k: Quadrant): Slot {
    Slot(ChildDir(dest, name), Name(k))
  }

  /** A child counts as present when its .hash file exists. */
  predicate HasChild(d: Dir, dest: seq<string>, name: string, k: Quadrant) {
    HashAt(d, ChildSlot(dest, name, k)).Some?
  }

  /** Quadrant k if its child is present. */
  function PresentPiece(d: Dir, dest: seq<string>, name: string, k: Quadrant): seq<Quadrant> {
    if HasChild(d, dest, name, k) then [k] else []
  }

  /** The present children, in quadrant order. */
  function Present(d: Dir, dest: seq<string>, name: string): seq<Quadrant> {
    PresentPiece(d, dest, name, 0) + PresentPiece(d, dest, name, 1) +
    PresentPiece(d, dest, name, 2) + PresentPiece(d, dest, name, 3)
  }

  /** Quadrant k's stored fingerprint if its child is present. */
  function HashPiece(d: Dir, dest: seq<string>, name: string, k: Quadrant): seq<Digest> {
    if HasChild(d, dest, name, k) then [HashAt(d, ChildSlot(dest, name, k)).value] else []
  }

  /** The fingerprints render_innertile feeds to md5, in quadrant order. */
  function ChildHashes(d: Dir, dest: seq<string>, name: string): seq<Digest> {
    HashPiece(d, dest, name, 0) + HashPiece(d, dest, name, 1) +
    HashPiece(d, dest, name, 2) + HashPiece(d, dest, name, 3)
  }

  /** The new fingerprint of tile dest/name. */
  function InnerDigest(d: Dir, dest: seq<string>, name: string, md5: string -> Digest): Digest {
    md5(Concat(ChildHashes(d, dest, name)))
  }

  /** Where quadrant k's thumbnail goes on the 384 x 384 canvas. */
  function QuadrantOffset(k: Quadrant): (int, int) {
    (192 * (k % 2), 192 * (k / 2))
  }

  /** Every present child has its .png. */
  predicate ChildImagesPresent(d: Dir, dest: seq<string>, name: string) {
    forall k: Quadrant :: HasChild(d, dest, name, k) ==> PngAt(d, ChildSlot(dest, name, k)).Some?
  }

  /** Quadrant k's thumbnail at its corner, if its child is present. */
  function ThumbnailPiece(d: Dir, dest: seq<string>, name: string, k: Quadrant): seq<Paste>
    requires ChildImagesPresent(d, dest, name)
  {
    if HasChild(d, dest, name, k)
    then [Paste(QuadrantOffset(k).0, QuadrantOffset(k).1, Thumbnail(PngAt(d, ChildSlot(dest, name, k)).value))]
    else []
  }

  /** The pastes of render_innertile, in quadrant order. */
  function Thumbnails(d: Dir, dest: seq<string>, name: string): seq<Paste>
    requires ChildImagesPresent(d, dest, name)
  {
    ThumbnailPiece(d, dest, name, 0) + ThumbnailPiece(d, dest, name, 1) +
    ThumbnailPiece(d, dest, name, 2) + ThumbnailPiece(d, dest, name, 3)
  }

  lemma ChildDirParent(d: Dir, dest: seq<string>, name: string)
    requires DirExists(d, ChildDir(dest, name))
    ensures DirExists(d, dest)
  {
    if name != "base" {
      GetParent(d, dest, name);
    }
  }

  /** render_innertile(dest, name) on tree d: the outcome and the new tree. */
  function InnerTile(d: Dir, dest: seq<string>, name: string, md5: string -> Digest): (Outcome, Dir) {
    var tile := Slot(dest, name);
    var ks := Present(d, dest, name);
    if ks == [] then (Pass, DeleteTile(d, tile))
    else if HashAt(d, tile) == Some(InnerDigest(d, dest, name, md5)) then (Pass, d)
    else if !ChildImagesPresent(d, dest, name) then (Fail(MissingImage), d)
    else
      assert HasChild(d, dest, name, ks[0]);
      ChildDirParent(d, dest, name);
      (Pass, WriteTile(d, tile, Canvas(384, 384, Tint, Thumbnails(d, dest, name)), InnerDigest(d, dest, name, md5)))
  }

  /** The four existence checks of render_innertile: qk is whether quadrant k's .hash exists. */
  predicate Presence(d: Dir, dest: seq<string>, name: string, q0: bool, q1: bool, q2: bool, q3: bool) {
    q0 == HasChild(d, dest, name, 0) && q1 == HasChild(d, dest, name, 1) &&
    q2 == HasChild(d, dest, name, 2) && q3 == HasChild(d, dest, name, 3)
  }

  /** The child slots as render_innertile spells them. */
  lemma ChildSlots(dest: seq<string>, name: string, children: seq<string>)
    requires children == ChildDir(dest, name)
    ensures ChildSlot(dest, name, 0) == Slot(children, "0") && ChildSlot(dest, name, 1) == Slot(children, "1")
    ensures ChildSlot(dest, name, 2) == Slot(children, "2") && ChildSlot(dest, name, 3) == Slot(children, "3")
  {
  }

  /** Unlinks the tile's .png and then its .hash, each where it exists. */
  method DeleteTileFiles(fs: FileSystem, tile: Slot)
    modifies fs
    ensures fs.root == DeleteTile(old(fs.root), tile)
  {
    var present := fs.PngExists(tile);
    if present {
      fs.UnlinkPng(tile);
    }
    present := fs.HashExists(tile);
    if present {
      fs.UnlinkHash(tile);
    }
  }

  /** Saves the image, then writes the fingerprint. */
  method SaveTile(fs: FileSystem, tile: Slot, img: Image, h: Digest)
    requires DirExists(fs.root, tile.dir)
    modifies fs
    ensures fs.root == WriteTile(old(fs.root), tile, img, h)
  {
    SetPngSpec(fs.root, tile, Some(img), tile);
    fs.SavePng(tile, img);
    fs.WriteHash(tile, h);
  }

  /** The tile's stored fingerprint, if any. */
  method ReadOldHash(fs: FileSystem, tile: Slot) returns (oldhash: Option<Digest>)
    ensures oldhash == HashAt(fs.root, tile)
  {
    oldhash := None;
    var present := fs.HashExists(tile);
    if present {
      var h := fs.ReadHash(tile);
      oldhash := Some(h);
    }
  }

  /** The hashing part of render_innertile: the present children's fingerprints, fed in
      quadrant order. */
  method FeedChildHashes(fs: FileSystem, dest: seq<string>, name: string, children: seq<string>,
                         q0: bool, q1: bool, q2: bool, q3: bool)
    returns (fed: string)
    requires children == ChildDir(dest, name) && Presence(fs.root, dest, name, q0, q1, q2, q3)
    ensures fed == Concat(ChildHashes(fs.root, dest, name))
  {
    var h0, h1, h2, h3 := HashPiece(fs.root, dest, name, 0), HashPiece(fs.root, dest, name, 1),
                          HashPiece(fs.root, dest, name, 2), HashPiece(fs.root, dest, name, 3);
    fed := [];
    fed := FeedChildHash(fs, dest, name, children, 0, q0, fed);
    fed := FeedChildHash(fs, dest, name, children, 1, q1, fed);
    fed := FeedChildHash(fs, dest, name, children, 2, q2, fed);
    fed := FeedChildHash(fs, dest, name, children, 3, q3, fed);
    ConcatPieces(h0, h1, h2, h3);
    DropEmpty(if h0 == [] then "" else h0[0], if h1 == [] then "" else h1[0],
              if h2 == [] then "" else h2[0], if h3 == [] then "" else h3[0]);
  }

  lemma DropEmpty(a: string, b: string, c: string, e: string)
    ensures [] + a + b + c + e == a + b + c + e
  {
  }

  /** hash.update(open(children/k.hash).read()) when child k is present. */
  method FeedChildHash(fs: FileSystem, dest: seq<string>, name: string, children: seq<string>,
                       k: Quadrant, present: bool, fed: string)
    returns (fed': string)
    requires children == ChildDir(dest, name) && present == HasChild(fs.root, dest, name, k)
    ensures var piece := HashPiece(fs.root, dest, name, k);
      fed' == fed + (if piece == [] then "" else piece[0])
  {
    fed' := fed;
    if present {
      var h := fs.ReadHash(Slot(children, Name(k)));
      fed' := fed + h;
    }
  }

  /** The painting part of render_innertile: each present child's image, shrunk and placed
      at its quadrant's corner; IOError when a present child has no image. */
  method ChildThumbnails(fs: FileSystem, dest: seq<string>, name: string, children: seq<string>,
                         q0: bool, q1: bool, q2: bool, q3: bool)
    returns (r: Result<seq<Paste>>)
    requires children == ChildDir(dest, name) && Presence(fs.root, dest, name, q0, q1, q2, q3)
    ensures ChildImagesPresent(fs.root, dest, name) ==> r == Ok(Thumbnails(fs.root, dest, name))
    ensures !ChildImagesPresent(fs.root, dest, name) ==> r == Err(MissingImage)
  {
    ghost var d := fs.root;
    ChildSlots(dest, name, children);
    ghost var p0, p1, p2, p3: seq<Paste> := [], [], [], [];
    var pastes: seq<Paste> := [];
    if q0 {
      var img := fs.OpenImage(Slot(children, "0"));
      if img.Err? {
        return Err(img.error);
      }
      pastes := pastes + [Paste(0, 0, Thumbnail(img.value))];
      p0 := [Paste(0, 0, Thumbnail(img.value))];
    }
    assert pastes == p0;
    if q1 {
      var img := fs.OpenImage(Slot(children, "1"));
      if img.Err? {
        return Err(img.error);
      }
      pastes := pastes + [Paste(192, 0, Thumbnail(img.value))];
      p1 := [Paste(192, 0, Thumbnail(img.value))];
    }
    assert pastes == p0 + p1;
    if q2 {
      var img := fs.OpenImage(Slot(children, "2"));
      if img.Err? {
        return Err(img.error);
      }
      pastes := pastes + [Paste(0, 192, Thumbnail(img.value))];
      p2 := [Paste(0, 192, Thumbnail(img.value))];
    }
    assert pastes == p0 + p1 + p2;
    if q3 {
      var img := fs.OpenImage(Slot(children, "3"));
      if img.Err? {
        return Err(img.error);
      }
      pastes := pastes + [Paste(192, 192, Thumbnail(img.value))];
      p3 := [Paste(192, 192, Thumbnail(img.value))];
    }
    assert pastes == p0 + p1 + p2 + p3;
    assert ChildImagesPresent(d, dest, name);
    assert p0 == ThumbnailPiece(d, dest, name, 0) && p1 == ThumbnailPiece(d, dest, name, 1);
    assert p2 == ThumbnailPiece(d, dest, name, 2) && p3 == ThumbnailPiece(d, dest, name, 3);
    return Ok(pastes);
  }

  /** Present is empty exactly when no child's .hash exists. */
  lemma PresentEmpty(d: Dir, dest: seq<string>, name: string, q0: bool, q1: bool, q2: bool, q3: bool)
    requires Presence(d, dest, name, q0, q1, q2, q3)
    ensures Present(d, dest, name) == [] <==> !(q0 || q1 || q2 || q3)
    ensures Present(d, dest, name) != [] ==> HasChild(d, dest, name, Present(d, dest, name)[0])
  {
  }

  /** render_innertile. */
  method RenderInnertile(fs: FileSystem, dest: seq<string>, name: string, md5: string -> Digest)
    returns (o: Outcome)
    modifies fs
    ensures (o, fs.root) == InnerTile(old(fs.root), dest, name, md5)
  {
    ghost var d := fs.root;
    var tile := Slot(dest, name);
    var children := if name == "base" then dest else dest + [name];
    ChildSlots(dest, name, children);
    var q0 := fs.HashExists(Slot(children, "0"));
    var q1 := fs.HashExists(Slot(children, "1"));
    var q2 := fs.HashExists(Slot(children, "2"));
    var q3 := fs.HashExists(Slot(children, "3"));
    PresentEmpty(d, dest, name, q0, q1, q2, q3);

    if !(q0 || q1 || q2 || q3) {
      DeleteTileFiles(fs, tile);
      return Pass;
    }

    var fed := FeedChildHashes(fs, dest, name, children, q0, q1, q2, q3);
    var oldhash := ReadOldHash(fs, tile);
    var newhash := md5(fed);
    assert newhash == InnerDigest(d, dest, name, md5);
    if Some(newhash) == oldhash {
      return Pass;
    }

    var pastes := ChildThumbnails(fs, dest, name, children, q0, q1, q2, q3);
    if pastes.Err? {
      return Fail(pastes.error);
    }
    ChildDirParent(d, dest, name);
    SaveTile(fs, tile, Canvas(384, 384, Tint, pastes.value), newhash);
    return Pass;
  }

  // ---------------------------------------------------------------------------------------
  // World tiles

  /** The tile a path names: path.png and path.hash in path's parent directory. */
  function TileSlot(path: seq<string>): Slot
    requires |path| > 0
  {
    Slot(path[..|path| - 1], path[|path| - 1])
  }

  /** Every chunk file name has a fingerprint token. */
  predicate ChunkNamesValid(chunks: seq<ChunkEntry>) {
    forall i :: 0 <= i < |chunks| ==> ChunkToken(chunks[i].file).Some?
  }

  /** The tokens of the chunks, in list order: what render_worldtile feeds to md5. */
  function ChunkTokens(chunks: seq<ChunkEntry>): (ts: seq<string>)
    requires ChunkNamesValid(chunks)
    ensures |ts| == |chunks| && forall i :: 0 <= i < |chunks| ==> ChunkToken(chunks[i].file) == Some(ts[i])
  {
    seq(|chunks|, i requires 0 <= i < |chunks| => ChunkToken(chunks[i].file).value)
  }

  /** One chunk's paste: column colstart lands at x = -192, row rowstart at y = -96, and each
      further column (row) is 192 (96) pixels on; the chunk's own alpha is the mask. */
  function ChunkPaste(e: ChunkEntry, colstart: int, rowstart: int): Paste {
    Paste(-192 + (e.col - colstart) * 192, -96 + (e.row - rowstart) * 96, Masked(ChunkImage(e.file)))
  }

  /** The chunks' pastes, in list order. */
  function ChunkPastes(chunks: seq<ChunkEntry>, colstart: int, rowstart: int): (ps: seq<Paste>)
    ensures |ps| == |chunks| && forall i :: 0 <= i < |chunks| ==> ps[i] == ChunkPaste(chunks[i], colstart, rowstart)
  {
    seq(|chunks|, i requires 0 <= i < |chunks| => ChunkPaste(chunks[i], colstart, rowstart))
  }

  /** The image of a world tile: a canvas 192 pixels per column step and 96 per row step,
      the chunks pasted in list order. */
  function WorldTileImage(chunks: seq<ChunkEntry>, colstart: int, colend: int, rowstart: int, rowend: int): (img: Image)
    ensures img.Canvas? && |img.pastes| == |chunks| && img.fill == Tint
    ensures colend - colstart == 2 && rowend - rowstart == 4 ==> img.width == 384 && img.height == 384
  {
    Canvas(192 * (colend - colstart), 96 * (rowend - rowstart), Tint, ChunkPastes(chunks, colstart, rowstart))
  }

  /** The hashing loop of render_worldtile: what md5 has been fed once every chunk's token
      is read, or nothing when some chunk's name has no token. */
  method FeedTokens(chunks: seq<ChunkEntry>) returns (fed: Option<string>)
    ensures ChunkNamesValid(chunks) ==> fed == Some(Concat(ChunkTokens(chunks)))
    ensures !ChunkNamesValid(chunks) ==> fed == None
  {
    var acc: string := [];
    ghost var tokens: seq<string> := [];
    for i := 0 to |chunks|
      invariant |tokens| == i && forall j :: 0 <= j < i ==> ChunkToken(chunks[j].file) == Some(tokens[j])
      invariant acc == Concat(tokens)
    {
      var token := ChunkToken(chunks[i].file);
      if token.None? {
        return None;
      }
      assert (tokens + [token.value])[..i] == tokens;
      tokens := tokens + [token.value];
      acc := acc + token.value;
    }
    assert tokens == ChunkTokens(chunks);
    return Some(acc);
  }

  /** The painting loop of render_worldtile. */
  method PasteChunks(chunks: seq<ChunkEntry>, colstart: int, rowstart: int) returns (pastes: seq<Paste>)
    ensures pastes == ChunkPastes(chunks, colstart, rowstart)
  {
    pastes := [];
    for i := 0 to |chunks|
      invariant |pastes| == i && forall j :: 0 <= j < i ==> pastes[j] == ChunkPaste(chunks[j], colstart, rowstart)
    {
      var xpos := -192 + (chunks[i].col - colstart) * 192;
      var ypos := -96 + (chunks[i].row - rowstart) * 96;
      pastes := pastes + [Paste(xpos, ypos, Masked(ChunkImage(chunks[i].file)))];
    }
  }

  /** render_worldtile(chunks, colstart, colend, rowstart, rowend, path) on tree d. */
  function WorldTile(d: Dir, chunks: seq<ChunkEntry>, colstart: int, colend: int, rowstart: int, rowend: int,
                     path: seq<string>, md5: string -> Digest): (Outcome, Dir)
    requires |path| > 0
  {
    var tile := TileSlot(path);
    if chunks == [] then (Pass, DeleteTile(d, tile))
    else
      var d1 := MakeDirs(d, tile.dir);
      if !ChunkNamesValid(chunks) then (Fail(BadChunkName), d1)
      else
        var digest := md5(Concat(ChunkTokens(chunks)));
        if HashAt(d1, tile) == Some(digest) then (Pass, d1)
        else
          MakeDirsSpec(d, tile.dir, tile);
          (Pass, WriteTile(d1, tile, WorldTileImage(chunks, colstart, colend, rowstart, rowend), digest))
  }

  /** render_worldtile. */
  method RenderWorldtile(fs: FileSystem, chunks: seq<ChunkEntry>, colstart: int, colend: int, rowstart: int,
                         rowend: int, path: seq<string>, md5: string -> Digest)
    returns (o: Outcome)
    requires |path| > 0
    modifies fs
    ensures (o, fs.root) == WorldTile(old(fs.root), chunks, colstart, colend, rowstart, rowend, path, md5)
  {
    ghost var d := fs.root;
    var width := 192 * (colend - colstart);
    var height := 96 * (rowend - rowstart);
    var tile := TileSlot(path);

    if chunks == [] {
      DeleteTileFiles(fs, tile);
      return Pass;
    }

    var dirdest := tile.dir;
    var isdir := fs.IsDir(dirdest);
    MakeDirsSpec(d, dirdest, tile);
    if !isdir {
      fs.MakeDirectories(dirdest);
    }
    ghost var d1 := fs.root;

    var fed := FeedTokens(chunks);
    if fed.None? {
      return Fail(BadChunkName);
    }
    var digest := md5(fed.value);

    var oldhash := ReadOldHash(fs, tile);
    if Some(digest) == oldhash {
      return Pass;
    }

    var pastes := PasteChunks(chunks, colstart, rowstart);
    assert Canvas(width, height, Tint, pastes) == WorldTileImage(chunks, colstart, colend, rowstart, rowend);
    SaveTile(fs, tile, Canvas(width, height, Tint, pastes), digest);
    return Pass;
  }

  // ---------------------------------------------------------------------------------------
  // Cache properties

  /** The children of a tile are never the tile itself. */
  lemma ChildSlotNotTile(dest: seq<string>, name: string, k: Quadrant)
    ensures ChildSlot(dest, name, k) != Slot(dest, name)
  {
    if name == "base" {
      assert |Name(k)| == 1 && |name| == 4;
    } else {
      assert |ChildDir(dest, name)| == |dest| + 1;
    }
  }

  /** Strictly increasing quadrant lists. */
  predicate Increasing(s: seq<Quadrant>) {
    forall i, j :: 0 <= i < j < |s| ==> s[i] < s[j]
  }

  /** The quadrants k whose flag bk is set, in quadrant order. */
  function Flagged(b0: bool, b1: bool, b2: bool, b3: bool): seq<Quadrant> {
    (if b0 then [0] else []) + (if b1 then [1] else []) + (if b2 then [2] else []) + (if b3 then [3] else [])
  }

  /** Appending quadrant k, or nothing, to an increasing list of smaller quadrants. */
  lemma AppendPiece(a: seq<Quadrant>, p: seq<Quadrant>, k: Quadrant)
    requires Increasing(a) && forall i :: 0 <= i < |a| ==> a[i] < k
    requires p == [] || p == [k]
    ensures Increasing(a + p)
    ensures forall i :: 0 <= i < |a + p| ==> (a + p)[i] <= k
  {
  }

  lemma FlaggedIncreasing(b0: bool, b1: bool, b2: bool, b3: bool)
    ensures Increasing(Flagged(b0, b1, b2, b3))
  {
    var s0: seq<Quadrant>, s1: seq<Quadrant>, s2: seq<Quadrant>, s3: seq<Quadrant> :=
      if b0 then [0] else [], if b1 then [1] else [], if b2 then [2] else [], if b3 then [3] else [];
    AppendPiece([], s0, 0);
    AppendPiece(s0, s1, 1);
    AppendPiece(s0 + s1, s2, 2);
    AppendPiece(s0 + s1 + s2, s3, 3);
    assert Flagged(b0, b1, b2, b3) == s0 + s1 + s2 + s3;
  }

  lemma FlaggedMembers(b0: bool, b1: bool, b2: bool, b3: bool)
    ensures var s := Flagged(b0, b1, b2, b3);
      (0 in s <==> b0) && (1 in s <==> b1) && (2 in s <==> b2) && (3 in s <==> b3)
  {
  }

  /** Present lists exactly the quadrants whose .hash exists, in increasing order. */
  lemma PresentSpec(d: Dir, dest: seq<string>, name: string)
    ensures forall k: Quadrant :: k in Present(d, dest, name) <==> HasChild(d, dest, name, k)
    ensures Increasing(Present(d, dest, name))
  {
    var b0, b1, b2, b3 := HasChild(d, dest, name, 0), HasChild(d, dest, name, 1),
                          HasChild(d, dest, name, 2), HasChild(d, dest, name, 3);
    assert Present(d, dest, name) == Flagged(b0, b1, b2, b3);
    FlaggedIncreasing(b0, b1, b2, b3);
    FlaggedMembers(b0, b1, b2, b3);
  }

  /** The fingerprints fed to md5 are those of the present children, in the same order. */
  lemma ChildHashesSpec(d: Dir, dest: seq<string>, name: string)
    ensures |ChildHashes(d, dest, name)| == |Present(d, dest, name)|
    ensures forall i :: 0 <= i < |Present(d, dest, name)| ==>
      Some(ChildHashes(d, dest, name)[i]) == HashAt(d, ChildSlot(dest, name, Present(d, dest, name)[i]))
  {
    var p0, p1, p2, p3 := PresentPiece(d, dest, name, 0), PresentPiece(d, dest, name, 1),
                          PresentPiece(d, dest, name, 2), PresentPiece(d, dest, name, 3);
    var h0, h1, h2, h3 := HashPiece(d, dest, name, 0), HashPiece(d, dest, name, 1),
                          HashPiece(d, dest, name, 2), HashPiece(d, dest, name, 3);
    PiecesAlign(p0, h0, p1, h1, d, dest, name);
    PiecesAlign(p0 + p1, h0 + h1, p2, h2, d, dest, name);
    PiecesAlign(p0 + p1 + p2, h0 + h1 + h2, p3, h3, d, dest, name);
  }

  /** Quadrant lists and fingerprint lists that agree stay in agreement when extended. */
  lemma PiecesAlign(ks: seq<Quadrant>, hs: seq<Digest>, k1: seq<Quadrant>, h1: seq<Digest>,
                    d: Dir, dest: seq<string>, name: string)
    requires |ks| == |hs| && |k1| == |h1|
    requires forall i :: 0 <= i < |ks| ==> Some(hs[i]) == HashAt(d, ChildSlot(dest, name, ks[i]))
    requires forall i :: 0 <= i < |k1| ==> Some(h1[i]) == HashAt(d, ChildSlot(dest, name, k1[i]))
    ensures |ks + k1| == |hs + h1|
    ensures forall i :: 0 <= i < |ks + k1| ==> Some((hs + h1)[i]) == HashAt(d, ChildSlot(dest, name, (ks + k1)[i]))
  {
    forall i | 0 <= i < |ks + k1|
      ensures Some((hs + h1)[i]) == HashAt(d, ChildSlot(dest, name, (ks + k1)[i]))
    {
      if i >= |ks| {
        assert (hs + h1)[i] == h1[i - |ks|] && (ks + k1)[i] == k1[i - |ks|];
      }
    }
  }

  /** What one render_innertile call leaves behind. On failure nothing changes. On success
      the tile has a fingerprint exactly when some child has one, that fingerprint is the md5
      of the children's fingerprints, a tile without children has no image, a tile that
      was redrawn shows its children's thumbnails, and a stored fingerprint equal to the new
      digest leaves the whole tree as it was. No other file and no directory changes. */
  lemma InnerTileEffect(d: Dir, dest: seq<string>, name: string, md5: string -> Digest, s: Slot)
    ensures var (o, d') := InnerTile(d, dest, name, md5); var tile := Slot(dest, name);
      && (o.Fail? ==> o == Fail(MissingImage) && d' == d && Present(d, dest, name) != [] && !ChildImagesPresent(d, dest, name))
      && (o == Pass ==> (HashAt(d', tile).Some? <==> exists k: Quadrant :: HasChild(d, dest, name, k)))
      && (o == Pass && Present(d, dest, name) != [] ==> HashAt(d', tile) == Some(InnerDigest(d, dest, name, md5)))
      && (Present(d, dest, name) == [] ==> PngAt(d', tile).None?)
      && (o == Pass && Present(d, dest, name) != [] && HashAt(d, tile) != Some(InnerDigest(d, dest, name, md5)) ==>
            ChildImagesPresent(d, dest, name) && PngAt(d', tile) == Some(Canvas(384, 384, Tint, Thumbnails(d, dest, name))))
      && (Present(d, dest, name) != [] && HashAt(d, tile) == Some(InnerDigest(d, dest, name, md5)) ==> o == Pass && d' == d)
      && (s != tile ==> PngAt(d', s) == PngAt(d, s) && HashAt(d', s) == HashAt(d, s))
      && (forall path :: DirExists(d', path) == DirExists(d, path))
  {
    var tile := Slot(dest, name);
    PresentSpec(d, dest, name);
    var ks := Present(d, dest, name);
    DeleteTileSpec(d, tile, s);
    DeleteTileSpec(d, tile, tile);
    if ks != [] && HashAt(d, tile) != Some(InnerDigest(d, dest, name, md5)) && ChildImagesPresent(d, dest, name) {
      assert HasChild(d, dest, name, ks[0]);
      ChildDirParent(d, dest, name);
      var img := Canvas(384, 384, Tint, Thumbnails(d, dest, name));
      WriteTileSpec(d, tile, img, InnerDigest(d, dest, name, md5), s);
      WriteTileSpec(d, tile, img, InnerDigest(d, dest, name, md5), tile);
    }
  }

  /** Two trees that agree on a tile's children give the tile the same inputs. */
  lemma SameChildren(d: Dir, e: Dir, dest: seq<string>, name: string, md5: string -> Digest)
    requires forall k: Quadrant :: HashAt(e, ChildSlot(dest, name, k)) == HashAt(d, ChildSlot(dest, name, k))
    ensures Present(e, dest, name) == Present(d, dest, name)
    ensures InnerDigest(e, dest, name, md5) == InnerDigest(d, dest, name, md5)
  {
    assert HashPiece(e, dest, name, 0) == HashPiece(d, dest, name, 0);
    assert HashPiece(e, dest, name, 1) == HashPiece(d, dest, name, 1);
    assert HashPiece(e, dest, name, 2) == HashPiece(d, dest, name, 2);
    assert HashPiece(e, dest, name, 3) == HashPiece(d, dest, name, 3);
  }

  /** The cache works: rendering a tile again right after a successful render changes
      nothing. */
  lemma InnerTileIdempotent(d: Dir, dest: seq<string>, name: string, md5: string -> Digest)
    requires InnerTile(d, dest, name, md5).0 == Pass
    ensures var d' := InnerTile(d, dest, name, md5).1; InnerTile(d', dest, name, md5) == (Pass, d')
  {
    var d' := InnerTile(d, dest, name, md5).1;
    var tile := Slot(dest, name);
    forall k: Quadrant
      ensures HashAt(d', ChildSlot(dest, name, k)) == HashAt(d, ChildSlot(dest, name, k))
    {
      ChildSlotNotTile(dest, name, k);
      InnerTileEffect(d, dest, name, md5, ChildSlot(dest, name, k));
    }
    SameChildren(d, d', dest, name, md5);
    InnerTileEffect(d, dest, name, md5, tile);
  }

  /** What one render_worldtile call leaves behind. Without chunks the tile's files are gone.
      With chunks the tile's directory exists afterwards; a chunk name without a token fails
      with no file changed; otherwise the tile's fingerprint is the md5 of the chunks' tokens
      in list order, a tile that was redrawn holds the chunk image, and a stored fingerprint
      equal to the digest leaves the tile's image as it was, with only its directories made.
      No other file changes, and the only directories created are those on the way to the tile. */
  lemma WorldTileEffect(d: Dir, chunks: seq<ChunkEntry>, colstart: int, colend: int, rowstart: int, rowend: int,
                        path: seq<string>, md5: string -> Digest, s: Slot, x: seq<string>)
    requires |path| > 0
    ensures var (o, d') := WorldTile(d, chunks, colstart, colend, rowstart, rowend, path, md5); var tile := TileSlot(path);
      && (chunks == [] ==> o == Pass && PngAt(d', tile).None? && HashAt(d', tile).None?)
      && (chunks != [] ==> DirExists(d', tile.dir))
      && (o.Fail? <==> chunks != [] && !ChunkNamesValid(chunks))
      && (o.Fail? ==> o.error == BadChunkName && PngAt(d', s) == PngAt(d, s) && HashAt(d', s) == HashAt(d, s))
      && (o == Pass && chunks != [] ==> HashAt(d', tile) == Some(md5(Concat(ChunkTokens(chunks)))))
      && (o == Pass && chunks != [] && HashAt(d, tile) != Some(md5(Concat(ChunkTokens(chunks)))) ==>
            PngAt(d', tile) == Some(WorldTileImage(chunks, colstart, colend, rowstart, rowend)))
      && (chunks != [] && ChunkNamesValid(chunks) && HashAt(d, tile) == Some(md5(Concat(ChunkTokens(chunks)))) ==>
            o == Pass && d' == MakeDirs(d, tile.dir) && PngAt(d', tile) == PngAt(d, tile))
      && (s != tile ==> PngAt(d', s) == PngAt(d, s) && HashAt(d', s) == HashAt(d, s))
      && (DirExists(d, x) ==> DirExists(d', x))
      && (DirExists(d', x) ==> DirExists(d, x) || (|x| <= |tile.dir| && x == tile.dir[..|x|]))
  {
    var tile := TileSlot(path);
    var (o, d') := WorldTile(d, chunks, colstart, colend, rowstart, rowend, path, md5);
    DeleteTileSpec(d, tile, s);
    DeleteTileSpec(d, tile, tile);
    if chunks != [] {
      var d1 := MakeDirs(d, tile.dir);
      MakeDirsSpec(d, tile.dir, s);
      MakeDirsSpec(d, tile.dir, tile);
      if DirExists(d1, x) {
        MakeDirsOnlyPrefixes(d, tile.dir, x);
      }
      if ChunkNamesValid(chunks) {
        var digest := md5(Concat(ChunkTokens(chunks)));
        if HashAt(d1, tile) != Some(digest) {
          var img := WorldTileImage(chunks, colstart, colend, rowstart, rowend);
          WriteTileSpec(d1, tile, img, digest, s);
          WriteTileSpec(d1, tile, img, digest, tile);
        }
      }
    }
  }

  /** The cache works for world tiles too: rendering the same chunks again right after a
      successful render changes nothing. */
  lemma WorldTileIdempotent(d: Dir, chunks: seq<ChunkEntry>, colstart: int, colend: int, rowstart: int, rowend: int,
                            path: seq<string>, md5: string -> Digest)
    requires |path| > 0
    requires WorldTile(d, chunks, colstart, colend, rowstart, rowend, path, md5).0 == Pass
    ensures var d' := WorldTile(d, chunks, colstart, colend, rowstart, rowend, path, md5).1;
      WorldTile(d', chunks, colstart, colend, rowstart, rowend, path, md5) == (Pass, d')
  {
    var tile := TileSlot(path);
    var d' := WorldTile(d, chunks, colstart, colend, rowstart, rowend, path, md5).1;
    WorldTileEffect(d, chunks, colstart, colend, rowstart, rowend, path, md5, tile, []);
    if chunks != [] {
      MakeDirsSpec(d', tile.dir, tile);
    }
  }

  /** Chunks gathered in row-major order are painted top row first and, within a row, left
      to right, so a lower chunk overlaps the one above it. */
  lemma PaintOrder(chunks: seq<ChunkEntry>, colstart: int, rowstart: int, i: int, j: int)
    requires RowMajorSorted(chunks) && 0 <= i < j < |chunks|
    ensures var ps := ChunkPastes(chunks, colstart, rowstart);
      ps[i].y < ps[j].y || (ps[i].y == ps[j].y && ps[i].x < ps[j].x)
  {
    assert RowMajorBefore(chunks[i], chunks[j]);
    if chunks[i].row < chunks[j].row {
      assert (chunks[i].row - rowstart) * 96 < (chunks[j].row - rowstart) * 96;
    } else {
      assert (chunks[i].col - colstart) * 192 < (chunks[j].col - colstart) * 192;
    }
  }
}
