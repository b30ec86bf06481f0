# Quadtree builder of Minecraft-Overviewer, in Dafny

This project models `quadtree.py`, the part of Minecraft-Overviewer that builds the tile
pyramid a pan/zoom map viewer shows. It covers:

- the choice of the tree depth `p` and the bounding box of the tree;
- the base-4 enumeration of tile paths (`iterate_base4`);
- the chunk range of a deepest tile (`_get_range_by_path`) and the chunks it draws
  (`_get_chunks_in_range`);
- the directory surgery that makes the stored tree one level deeper (`_increase_depth`) or
  one level shallower (`_decrease_depth`);
- the fingerprint cache of `render_innertile` and `render_worldtile`, which skip a tile
  whose inputs have not changed;
- the whole run of `go`: resize, the deepest tiles, every inner level from the bottom up,
  then the top tile `base`.

The files are:

- `common.dfy`: powers of two and four, `Option`, `Result` and the error kinds.
- `geometry.dfy`: the depth search, paths, chunk ranges and chunk lists.
- `chunknames.dfy`: `os.path.basename` and `str.split`, and the fingerprint token of a
  chunk file name.
- `tilestore.dfy`: the destination directory as a tree value `Dir`, and a `FileSystem`
  class whose methods are the `os` calls the code makes.
- `render.dfy`: `render_innertile` and `render_worldtile`.
- `resize.dfy`: what one level of growing or shrinking does to `tiles/`.
- `quadtree.dfy`: the `QuadtreeGen` class, and the schedule of tasks `go` performs.
- `rerun.dfy`: why a second `go` at the same depth changes nothing: which tile each task
  writes and reads, and the cache argument over the whole schedule.

A tile is a pair of files `<stem>.png` and `<stem>.hash` in one directory (a `Slot`). An
image is a recipe rather than pixels: a canvas size, a fill colour and an ordered list of
pastes. md5 is a parameter, an arbitrary function from the bytes fed to it to a digest. As
with `hashlib`, feeding several pieces hashes their concatenation. Every property below
therefore holds for every hash function.

The stored depth that `_get_cur_depth` reads from `index.html` is an input integer, where
-1 means unknown. `go` is modelled as one sequential run. Its contract says that the new
tree and the outcome are those of `Replay` applied to `Schedule(p, curdepth)`, one task
after another, stopping at the first failure.

Where this model departs from a plain reading of the program's design, it follows the code:

- Shrinking one level leaves a quadrant directory `k` untouched when `k/(3-k)` does not
  exist. It does not empty it (`quadtree.py:146-164`).
- Growing and then shrinking restores every quadrant directory that existed. A quadrant
  directory that did not exist comes back as a new directory holding the moved files. The
  top-level files `k.png` and `k.hash` are not restored (`Resize.ShrinkAfterGrow`). The code's
  own comment says those files are cheap to re-render.
- With `p = 0` the one deepest tile, path `[]`, is written as `tiles.png` in the
  destination directory, and `base` is then built from `tiles/` (`Quadtree.ZeroDepth`).
- For the top tile `base`, `render_innertile` reads its children from `dest` itself. For
  every other tile it reads them from `dest/name` (`quadtree.py:292-310`).

## Model

| member | source | states |
|---|---|---|
| Geometry.SearchDepth | quadtree.py:48-63 | Ok(p) is the least depth below 15 whose radii 2^p (columns) and 2·2^p (rows) reach all four chunk extents; Err(MapTooBig) exactly when no depth below 15 does |
| Geometry.CoversMonotone | quadtree.py:50-60 | once a depth covers the world, every deeper depth covers it too, so the depths that cover form an unbroken range upward from the least one |
| Quadtree.NewQuadtreeGen | quadtree.py:38-78 | a depth override is taken as it is; otherwise the depth is the least covering one and lies below the depth limit, and the error MapTooBig is raised exactly when no depth below that limit covers the world; the bounding box is ±2^p columns and ±2·2^p rows in both cases |
| Quadtree.QuadtreeGen.constructor | quadtree.py:65-78 | the builder keeps its world, store, depth and hash, and its bounds are those of depth p |
| Geometry.Base4Paths | quadtree.py:17-19 | there are 4^d paths, each of length d, and the i-th one is i written in base 4 with the most significant digit first (the order of itertools.product) |
| Geometry.Base4PathsExactlyOnce | quadtree.py:17-19 | every path of length d is enumerated, and no path twice |
| Geometry.RangeByPath | quadtree.py:256-271 | the halving loop returns mincol + 2^(p-\|path\|+1)·c and minrow + 2^(p-\|path\|+2)·r, where c collects the digits 1 and 3 and r the digits 2 and 3 of the path as binary numbers |
| Geometry.IndexInjective | quadtree.py:256-271 | two paths of the same length with the same column and row index are the same path |
| Geometry.PathAt | quadtree.py:256-271 | every column and row index pair below 2^n is the position of some path of length n |
| Geometry.LeafInBounds | quadtree.py:192-197 | the 2-column by 4-row rectangle of every deepest tile lies inside the bounding box, at an even column offset and a row offset divisible by 4 |
| Geometry.LeavesDisjoint | quadtree.py:192-197 | a grid cell lies in the rectangle of at most one deepest tile |
| Geometry.LeafGrid | quadtree.py:17-19 | iterate_base4(p) yields as many paths as the 2^p by 2^p leaf grid has cells, and the path of every cell among them |
| Geometry.LeafContaining | quadtree.py:192-197 | every grid cell of the bounding box lies in the rectangle of some deepest tile |
| Geometry.ChunksInRange | quadtree.py:273-282 | the two nested loops build the row-by-row window list over rows rowstart-16 .. rowend and columns colstart .. colend, skipping cells without a chunk or with an empty name |
| Geometry.ChunkListSpec | quadtree.py:273-282 | a chunk is in the list exactly when the map holds it, its name is not empty and it lies in the window; the list is sorted by row, then column |
| Geometry.EveryChunkGathered | quadtree.py:192-212 | when the depth covers the world, every chunk inside the world's extents falls in the window of at least one deepest tile |
| ChunkNames.Basename | quadtree.py:454 | the result is the longest suffix without '/', and the character before it is '/' |
| ChunkNames.Split | quadtree.py:454 | split gives at least one field, and no field contains the separator |
| ChunkNames.JoinSplit | quadtree.py:454 | joining the fields of a split with the separator gives the string back |
| ChunkNames.SplitJoin | quadtree.py:454 | splitting a join of separator-free fields gives the fields back |
| ChunkNames.BasenameOf | quadtree.py:454 | the basename of a directory path ending in '/' followed by a slash-free name is that name |
| ChunkNames.ChunkTokenOfName | quadtree.py:453-455 | a chunk file named f0.f1.f2.f3.f4[...] in any directory contributes its fifth field f4 to the tile's fingerprint |
| ChunkNames.ChunkTokenShortName | quadtree.py:453-455 | a chunk file name with fewer than five dot-separated fields has no fifth field, where the source raises IndexError |
| TileStore.MakeDirsSpec | quadtree.py:438-448 | os.makedirs leaves the path existing, touches no file, keeps every existing directory and changes nothing when the path exists |
| TileStore.MakeDirsOnlyPrefixes | quadtree.py:441 | os.makedirs creates no directory other than prefixes of its path |
| TileStore.DeleteTileSpec | quadtree.py:327-332 | deleting a tile removes its .png and .hash and changes no other file and no directory |
| TileStore.WriteTileSpec | quadtree.py:371-373 | saving a tile sets its .png and .hash and changes no other file and no directory |
| TileStore.FileSystem.MkDir | quadtree.py:128 | os.mkdir creates an empty directory, or fails with NoSuchDirectory and changes nothing when the parent is missing |
| TileStore.FileSystem.RenameDir | quadtree.py:133 | os.rename of a directory moves its whole subtree to the new name |
| TileStore.FileSystem.OpenImage | quadtree.py:473 | Image.open of an existing .png gives its image, of a missing one the MissingImage error |
| Resize.GrownUpToSpec | quadtree.py:119-133 | after the first k iterations of the increase loop, quadrant j < k is a directory holding only the former j.png, j.hash and j/ under the name 3-j; later quadrants and every other entry of tiles/ are unchanged |
| Resize.GrowMovesQuadrant | quadtree.py:109-133 | after an increase, quadrant n of tiles/ is a directory that holds exactly the former n.png, n.hash and n/ renamed to 3-n, and no file n.png or n.hash is left |
| Resize.GrowKeepsRest | quadtree.py:109-133 | an increase changes no entry of tiles/ other than the four quadrants |
| Resize.ShrinkPromotes | quadtree.py:135-164 | after a decrease, quadrant directory k is its former subdirectory 3-k when that existed, and is unchanged otherwise; the files of tiles/ are unchanged |
| Resize.ShrinkKeepsRest | quadtree.py:135-164 | a decrease changes no entry of tiles/ other than the four quadrant directories |
| Resize.ShrinkAfterGrow | quadtree.py:109-164 | a decrease right after an increase restores every quadrant directory that existed; one that did not exist becomes a directory holding the moved files; the top-level k.png and k.hash are gone |
| Resize.ShrinkAfterGrowKeepsRest | quadtree.py:109-164 | an increase followed by a decrease leaves every non-quadrant entry of tiles/ as it was |
| Quadtree.QuadtreeGen.GrowQuadrant | quadtree.py:120-133 | one iteration of the increase loop fails with NoSuchDirectory and changes nothing when tiles/ is missing; otherwise it nests quadrant k under new name 3-k |
| Quadtree.QuadtreeGen.IncreaseDepth | quadtree.py:109-133 | _increase_depth performs the four nestings, fails only when tiles/ is missing, and leaves no temporary new<k> directory |
| Quadtree.QuadtreeGen.PromoteQuadrant | quadtree.py:146-164 | one block of _decrease_depth replaces quadrant directory k by its subdirectory 3-k when that exists, and changes nothing otherwise |
| Quadtree.QuadtreeGen.DecreaseDepth | quadtree.py:135-164 | _decrease_depth is the four promotions, never fails, and leaves no temporary new<k> directory |
| Quadtree.QuadtreeGen.Resize | quadtree.py:173-183 | the resize phase has the effect and outcome of the Grow or Shrink tasks that begin the schedule |
| Quadtree.ScheduleResizes | quadtree.py:173-183 | the schedule begins with p-curdepth Grow tasks when the tree got deeper, curdepth-p Shrink tasks when it got shallower, none when the depth is unknown (-1) or equal, followed by the rendering tasks |
| Quadtree.QuadtreeGen.RenderLeaf | quadtree.py:192-212 | one deepest tile is render_worldtile over the path's range (2 columns, 4 rows) with the chunks of that range |
| Quadtree.QuadtreeGen.RenderLeaves | quadtree.py:192-222 | the first loop has the effect of the leaf tasks in iterate_base4 order, stopping at the first failure |
| Quadtree.QuadtreeGen.RenderLevel | quadtree.py:231-248 | one zoom level is render_innertile(tiles/path[:-1], path[-1]) for every path of that length, in iterate_base4 order |
| Quadtree.QuadtreeGen.RenderInnerLevels | quadtree.py:227-248 | the inner levels are rendered from depth p-1 up to depth 1 |
| Quadtree.QuadtreeGen.RenderTop | quadtree.py:251 | the last task is render_innertile(tiles, "base") |
| Quadtree.QuadtreeGen.Go | quadtree.py:166-254 | go has the outcome and the final tree of replaying the schedule: resizes, deepest tiles, inner levels bottom-up, then base |
| Quadtree.ChildrenFirst | quadtree.py:192-251 | in the schedule, every child tile is rendered before its parent |
| Rerun.ChildSlotLink | quadtree.py:192-251 | the file the task of child j of tile q writes is exactly the file render_innertile reads as quadrant j of q (dest/name/j, or tiles/j for base), so with ChildrenFirst an inner tile reads its children's new fingerprints |
| Rerun.WrittenInjective | quadtree.py:192-251 | distinct tiles of a tree of depth p >= 1 are written to distinct .png/.hash pairs |
| Rerun.ReadsChild | quadtree.py:285-310 | a file an inner tile reads is written only by the task of one of that tile's children |
| Rerun.CacheSafeRender | quadtree.py:192-251 | in go()'s rendering schedule each tile is written once and never after a task that reads it |
| Rerun.StepFrame | quadtree.py:285-498 | a rendering task changes no file outside its own tile and removes no directory |
| Rerun.ReplayFrame | quadtree.py:192-251 | a run of rendering tasks none of which writes a tile leaves that tile's files as they were and removes no directory |
| Rerun.StepStable | quadtree.py:344-352 | a task that succeeded passes again and changes nothing on any later tree that still holds its own tile, the children it read and the directories it left |
| Rerun.RerunStable | quadtree.py:192-251 | after a successful run of a cache-safe schedule, each of its tasks passes on the final tree and changes nothing |
| Rerun.ReplayFixed | quadtree.py:192-251 | tasks that each leave a tree unchanged leave it unchanged when run in sequence |
| Rerun.RerunUnchanged | quadtree.py:166-254 | once go() has succeeded, a second go() at the same depth (curdepth = p, so no resize) succeeds and changes no file and no directory |
| Quadtree.RenderTasksDistinct | quadtree.py:192-251 | no tile is rendered twice in one run |
| Quadtree.EveryTileScheduled | quadtree.py:192-251 | every tile of depth at most p, and base, is rendered in one run |
| Quadtree.EveryTaskATile | quadtree.py:192-251 | every rendering task of a run of depth p >= 1 is the task of a tile of depth at most p |
| Quadtree.ZeroDepth | quadtree.py:192-199 | with depth 0 the only deepest tile is written as tiles.png in the destination directory, then base is rendered |
| Render.RenderInnertile | quadtree.py:285-373 | render_innertile changes the tree and reports exactly as the specification function InnerTile, whose properties are the lemmas below |
| Render.PresentSpec | quadtree.py:312-324 | a quadrant is among the present children exactly when its .hash file exists, and the present quadrants are in increasing order |
| Render.ChildHashesSpec | quadtree.py:335-343 | the fingerprints fed to md5 are the stored .hash contents of the present children, one per present child, in quadrant order |
| Render.FeedChildHashes | quadtree.py:335-343 | the four hasher.update calls feed the concatenation of the present children's fingerprints |
| Render.ChildThumbnails | quadtree.py:355-368 | the four pastes are the present children's thumbnails at (0,0), (192,0), (0,192), (192,192), or MissingImage when a present child has no .png |
| Render.InnerTileEffect | quadtree.py:285-373 | no present child deletes the tile; otherwise the tile's .hash becomes md5 of the children's fingerprints, a stored fingerprint that differed gets the image redrawn from the children's thumbnails, a stored fingerprint equal to the new one leaves the whole tree as it was, a missing child image fails and changes nothing, and no other file or directory changes |
| Render.InnerTileIdempotent | quadtree.py:335-352 | running render_innertile again on its own result changes nothing and succeeds: the fingerprint cache makes it a no-op |
| Render.WorldTileImage | quadtree.py:403-405 | the canvas is 192 pixels per column step and 96 per row step, 384 x 384 for a standard tile, with one paste per chunk |
| Render.FeedTokens | quadtree.py:450-455 | the hashing loop feeds the chunks' fifth name fields in list order, or stops when a chunk name has none |
| Render.PasteChunks | quadtree.py:472-493 | the painting loop pastes each chunk at x = -192 + 192·(col - colstart), y = -96 + 96·(row - rowstart), masked by its own alpha, in list order |
| Render.PaintOrder | quadtree.py:472-493 | for a row-major chunk list, a later paste is lower down, or on the same line and further right, so lower chunks overlap higher ones |
| Render.RenderWorldtile | quadtree.py:377-498 | render_worldtile changes the tree and reports exactly as the specification function WorldTile, whose properties are the lemmas below |
| Render.WorldTileEffect | quadtree.py:377-498 | no chunks deletes the tile; otherwise the directory is made, a bad chunk name fails, the .hash becomes md5 of the tokens, a stored fingerprint that differed gets the image redrawn from the chunks, an equal stored fingerprint leaves the tile's image as it was with only its directories made, no other file changes, and the only new directories are the tile's parents |
| Render.WorldTileIdempotent | quadtree.py:450-465 | running render_worldtile again with the same chunks changes nothing and succeeds |

## Left out

- Pixel work (PIL): images are recipes (canvas, fill colour, ordered pastes, thumbnails and alpha masks by name); resampling and compositing are not computed.
- md5 itself: it is an arbitrary function parameter, so no collision property is assumed or used.
- Worker processes (`multiprocessing.Pool`): tasks run one after another in submission order, which is the order in which `go` waits for them. On a failure the model stops at the failed task; the pool has already queued the whole wave, so its workers may still render later tasks of that wave and write their tiles before the error is re-raised, and the model does not capture those writes.
- `catch_keyboardinterrupt` and progress printing: they do not change the tree.
- `write_html`: it produces the viewer page and is not part of this model.
- `_get_cur_depth`'s reading of `index.html`: the stored depth is an input, with -1 for unknown.
- The `os.mkdir` of the destination directory at the start of `go`: the store's root always exists.
- The EEXIST race in `render_worldtile`'s `os.makedirs`: with one sequential run it cannot happen.
- Regenerating a chunk image that fails to open (`chunk.render_and_save`): chunk images are assumed readable.
- A negative depth override: the depth is a natural number.
- Quadtree.QuadtreeGen.Go: requires that no temporary `tiles/new<k>` directory is left from an interrupted resize, where the source has no such precondition (an existing `new<k>` makes its `os.mkdir` raise).
- Quadtree.QuadtreeGen.Resize: requires the same absence of temporary `tiles/new<k>` directories.
- Quadtree.QuadtreeGen.IncreaseDepth: requires the same absence of temporary `tiles/new<k>` directories.
- Quadtree.QuadtreeGen.GrowQuadrant: requires the same absence of temporary `tiles/new<k>` directories.
- Quadtree.QuadtreeGen.DecreaseDepth: requires the same absence of temporary `tiles/new<k>` directories.
- Quadtree.QuadtreeGen.PromoteQuadrant: requires the same absence of temporary `tiles/new<k>` directories.
- Exceptions other than the modelled ones (a missing child image, a chunk name with fewer than five fields, `os.mkdir` without a parent) are not modelled: reading and writing files always succeeds otherwise.
