/**
 * Chunk image file names. render_worldtile fingerprints a tile by the fifth dot-separated
 * field of each chunk image's base name (os.path.basename(f).split(".")[4]), which is where
 * the chunk renderer puts the chunk's own content hash.
 */
module ChunkNames {
  import opened Common

  /** os.path.basename: the part of a path after its last '/'. */
  function Basename(s: string): (r: string)
    ensures |r| <= |s| && r == s[|s| - |r|..]
    ensures '/' !in r
    ensures |r| < |s| ==> s[|s| - |r| - 1] == '/'
  {
    if s == [] then []
    else if s[|s| - 1] == '/' then []
    else
      var r := Basename(s[..|s| - 1]) + [s[|s| - 1]];
      assert s[..|s| - 1][|s| - |r|..] + [s[|s| - 1]] == s[|s| - |r|..];
      r
  }

  /** str.split(sep): the fields between separators; always at least one. */
  function Split(s: string, sep: char): (r: seq<string>)
    ensures |r| >= 1
    ensures forall i :: 0 <= i < |r| ==> sep !in r[i]
  {
    if s == [] then [""]
    else
      var parts := Split(s[..|s| - 1], sep);
      if s[|s| - 1] == sep then parts + [""]
      else parts[..|parts| - 1] + [parts[|parts| - 1] + [s[|s| - 1]]]
  }

  /** sep.join(parts). */
  function Join(parts: seq<string>, sep: char): string
    requires |parts| >= 1
  {
    if |parts| == 1 then parts[0] else Join(parts[..|parts| - 1], sep) + [sep] + parts[|parts| - 1]
  }

  /** The fingerprint token of a chunk image file: the fifth field of its base name, or
      nothing when the name has fewer than five fields (an IndexError in the source). */
  function ChunkToken(file: string): Option<string> {
    var fields := Split(Basename(file), '.');
    if |fields| >= 5 then Some(fields[4]) else None
  }

  /** Splitting and joining back gives the original string. */
  lemma {:induction false} JoinSplit(s: string, sep: char)
    ensures Join(Split(s, sep), sep) == s
    decreases |s|
  {
    if s != [] {
      var init, c := s[..|s| - 1], s[|s| - 1];
      var parts := Split(init, sep);
      JoinSplit(init, sep);
      assert s == init + [c];
      SplitSnoc(init, c, sep);
      if c == sep {
        JoinEmptyLast(parts, sep);
      } else {
        JoinExtendLast(parts, sep, c);
      }
    }
  }

  /** A new empty last field adds one separator. */
  lemma JoinEmptyLast(parts: seq<string>, sep: char)
    requires |parts| >= 1
    ensures Join(parts + [""], sep) == Join(parts, sep) + [sep]
  {
    var q := parts + [""];
    assert q[..|q| - 1] == parts;
  }

  /** A character added to the last field ends the joined string. */
  lemma JoinExtendLast(parts: seq<string>, sep: char, c: char)
    requires |parts| >= 1
    ensures Join(parts[..|parts| - 1] + [parts[|parts| - 1] + [c]], sep) == Join(parts, sep) + [c]
  {
    var front, last := parts[..|parts| - 1], parts[|parts| - 1];
    var q := front + [last + [c]];
    assert q[..|q| - 1] == front && q[|q| - 1] == last + [c];
  }

  /** A string without the separator is a single field. */
  lemma {:induction false} SplitSingle(w: string, sep: char)
    requires sep !in w
    ensures Split(w, sep) == [w]
    decreases |w|
  {
    if w != [] {
      SplitSingle(w[..|w| - 1], sep);
      assert w[..|w| - 1] + [w[|w| - 1]] == w;
    }
  }

  /** Split unfolded on a string with one more character. */
  lemma SplitSnoc(s: string, c: char, sep: char)
    ensures var parts := Split(s, sep);
      Split(s + [c], sep) ==
        if c == sep then parts + [""] else parts[..|parts| - 1] + [parts[|parts| - 1] + [c]]
  {
    assert (s + [c])[..|s|] == s;
  }

  /** Extending the last field of a + b extends the last field of b. */
  lemma ExtendLast(a: seq<string>, b: seq<string>, c: char)
    requires |b| >= 1
    ensures var ab := a + b;
      ab[..|ab| - 1] + [ab[|ab| - 1] + [c]] == a + (b[..|b| - 1] + [b[|b| - 1] + [c]])
  {
    var ab := a + b;
    assert ab[..|ab| - 1] == a + b[..|b| - 1];
  }

  /** Splitting at a separator splits the two sides independently. */
  lemma {:induction false} SplitAt(x: string, y: string, sep: char)
    ensures Split(x + [sep] + y, sep) == Split(x, sep) + Split(y, sep)
    decreases |y|
  {
    if y == [] {
      SplitSnoc(x, sep, sep);
      assert x + [sep] + y == x + [sep];
    } else {
      var y', c := y[..|y| - 1], y[|y| - 1];
      var s' := x + [sep] + y';
      SplitAt(x, y', sep);
      assert x + [sep] + y == s' + [c];
      assert y == y' + [c];
      SplitSnoc(s', c, sep);
      SplitSnoc(y', c, sep);
      var a, b := Split(x, sep), Split(y', sep);
      if c != sep {
        ExtendLast(a, b, c);
      } else {
        AppendAssoc(a, b, [""]);
      }
    }
  }

  /** Joining separator-free fields and splitting again gives the fields back. */
  lemma {:induction false} SplitJoin(parts: seq<string>, sep: char)
    requires |parts| >= 1
    requires forall i :: 0 <= i < |parts| ==> sep !in parts[i]
    ensures Split(Join(parts, sep), sep) == parts
    decreases |parts|
  {
    var last := parts[|parts| - 1];
    SplitSingle(last, sep);
    if |parts| == 1 {
      assert Join(parts, sep) == last && parts == [last];
    } else {
      var init := parts[..|parts| - 1];
      assert forall i :: 0 <= i < |init| ==> init[i] == parts[i];
      SplitJoin(init, sep);
      var j := Join(init, sep);
      assert Join(parts, sep) == j + [sep] + last;
      SplitAt(j, last, sep);
      InitLast(parts);
    }
  }

  /** The base name of a path in a directory is the name itself. */
  lemma {:induction false} BasenameOf(dir: string, name: string)
    requires dir == [] || dir[|dir| - 1] == '/'
    requires '/' !in name
    ensures Basename(dir + name) == name
    decreases |name|
  {
    if name == [] {
      assert dir + name == dir;
    } else {
      var init, last := name[..|name| - 1], name[|name| - 1];
      BasenameOf(dir, init);
      DropLast(dir, name);
      InitLast(name);
      assert last != '/';
      assert Basename(dir + name) == Basename(dir + init) + [last];
    }
  }

  /** Joining slash-free fields with a dot gives a slash-free name. */
  lemma {:induction false} JoinFree(parts: seq<string>)
    requires |parts| >= 1
    requires forall i :: 0 <= i < |parts| ==> '/' !in parts[i]
    ensures '/' !in Join(parts, '.')
    decreases |parts|
  {
    if |parts| > 1 {
      JoinFree(parts[..|parts| - 1]);
    }
  }

  /** A chunk image named dir/f0.f1.f2.f3.f4[...] yields f4 as its token: the hash field
      the chunk renderer wrote into the name is read back. */
  lemma ChunkTokenOfName(dir: string, fields: seq<string>)
    requires dir == [] || dir[|dir| - 1] == '/'
    requires |fields| >= 5
    requires forall i :: 0 <= i < |fields| ==> '.' !in fields[i] && '/' !in fields[i]
    ensures ChunkToken(dir + Join(fields, '.')) == Some(fields[4])
  {
    JoinFree(fields);
    BasenameOf(dir, Join(fields, '.'));
    SplitJoin(fields, '.');
  }

  /** Names with fewer than five fields have no token. */
  lemma ChunkTokenShortName(dir: string, fields: seq<string>)
    requires dir == [] || dir[|dir| - 1] == '/'
    requires 1 <= |fields| < 5
    requires forall i :: 0 <= i < |fields| ==> '.' !in fields[i] && '/' !in fields[i]
    ensures ChunkToken(dir + Join(fields, '.')) == None
  {
    JoinFree(fields);
    BasenameOf(dir, Join(fields, '.'));
    SplitJoin(fields, '.');
  }
}
