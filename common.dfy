/** Shared vocabulary: optional values, the errors the builder can raise, and powers of two and four. */
module Common {

  datatype Option<+T> = None | Some(value: T)

  /** The exceptions quadtree.py can raise on the paths modelled here. */
  datatype Error =
    | MapTooBig          // ValueError from the depth search
    | NoSuchDirectory    // OSError ENOENT from os.mkdir under a missing parent
    | MissingImage       // IOError from Image.open on a child tile whose .png is gone
    | BadChunkName       // IndexError: a chunk file name with fewer than five dot-separated fields

  datatype Outcome = Pass | Fail(error: Error)

  datatype Result<+T> = Ok(value: T) | Err(error: Error)

  function Pow2(n: nat): (r: int)
    ensures r >= 1
  {
    if n == 0 then 1 else 2 * Pow2(n - 1)
  }

  function Pow4(n: nat): (r: int)
    ensures r >= 1
  {
    if n == 0 then 1 else 4 * Pow4(n - 1)
  }

  /** Doubling the exponent is monotone: a larger radius is never smaller. */
  lemma {:induction false} Pow2Monotone(m: nat, n: nat)
    requires m <= n
    ensures Pow2(m) <= Pow2(n)
  {
    if m < n {
      Pow2Monotone(m, n - 1);
    }
  }

  /** Sequence concatenation regroups freely. */
  lemma AppendAssoc<T>(a: seq<T>, b: seq<T>, c: seq<T>)
    ensures a + (b + c) == a + b + c
  {
  }

  /** A non-empty sequence is its front followed by its last element. */
  lemma InitLast<T>(s: seq<T>)
    requires |s| >= 1
    ensures s[..|s| - 1] + [s[|s| - 1]] == s
  {
  }

  /** Dropping the last element of a + b, for a non-empty b, drops it from b. */
  lemma DropLast<T>(a: seq<T>, b: seq<T>)
    requires |b| >= 1
    ensures (a + b)[..|a + b| - 1] == a + b[..|b| - 1] && (a + b)[|a + b| - 1] == b[|b| - 1]
  {
  }

  lemma {:induction false} Pow4IsSquare(n: nat)
    ensures Pow4(n) == Pow2(n) * Pow2(n)
  {
    if n > 0 {
      Pow4IsSquare(n - 1);
    }
  }
}
