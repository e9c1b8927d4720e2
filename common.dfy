/** Small value types shared by every part of the model. */
module Common {

  /** A value that may be absent (Rust `Option`, a JavaScript `undefined`/`null` result). */
  datatype Option<+T> = None | Some(value: T)

  /** The outcome of a fallible operation; errors are carried as their display strings,
      as the Rust code does with `map_err(|e| e.to_string())`. */
  datatype Result<+T> = Ok(value: T) | Err(error: string)

  /** One byte of file content or of a digest. */
  type Byte = b: int | 0 <= b < 256

  /** Concatenation of a sequence of sequences, in order (Rust buffers joined end to end,
      JavaScript `Array.prototype.flat()` one level deep). */
  function Concat<T>(chunks: seq<seq<T>>): seq<T>
  {
    if chunks == [] then [] else Concat(chunks[..|chunks| - 1]) + chunks[|chunks| - 1]
  }

  /** An element occurs in the concatenation exactly when it occurs in one of the parts. */
  lemma {:induction false} InConcat<T>(chunks: seq<seq<T>>, x: T)
    ensures x in Concat(chunks) <==> exists i :: 0 <= i < |chunks| && x in chunks[i]
  {
    if chunks != [] {
      var init, last := chunks[..|chunks| - 1], chunks[|chunks| - 1];
      InConcat(init, x);
      if x in Concat(chunks) && x !in last {
        var i :| 0 <= i < |init| && x in init[i];
        assert chunks[i] == init[i];
      }
      if exists i :: 0 <= i < |chunks| && x in chunks[i] {
        var i :| 0 <= i < |chunks| && x in chunks[i];
        if i < |init| {
          assert init[i] == chunks[i];
        }
      }
    }
  }

  /** The elements of `xs` that satisfy `p`, in their original order (a SQL `WHERE`, an
      iterator `filter`). */
  function Filter<T>(xs: seq<T>, p: T -> bool): (ys: seq<T>)
    ensures |ys| <= |xs|
    ensures forall k :: 0 <= k < |ys| ==> ys[k] in xs && p(ys[k])
    ensures forall k :: 0 <= k < |xs| && p(xs[k]) ==> xs[k] in ys
  {
    if xs == [] then []
    else
      var last := xs[|xs| - 1];
      assert xs == xs[..|xs| - 1] + [last];
      Filter(xs[..|xs| - 1], p) + (if p(last) then [last] else [])
  }

  /** Filtering a longer prefix adds the next element if it qualifies. */
  lemma FilterSnoc<T>(xs: seq<T>, i: nat, p: T -> bool)
    requires i < |xs|
    ensures Filter(xs[..i + 1], p) == Filter(xs[..i], p) + (if p(xs[i]) then [xs[i]] else [])
  {
    assert xs[..i + 1][..i] == xs[..i];
  }

  /** Nothing qualifies, nothing is kept. */
  lemma {:induction false} FilterNone<T>(xs: seq<T>, p: T -> bool)
    requires forall k :: 0 <= k < |xs| ==> !p(xs[k])
    ensures Filter(xs, p) == []
  {
    if xs != [] {
      FilterNone(xs[..|xs| - 1], p);
    }
  }

  /** No element occurs twice. */
  predicate NoDuplicates<T(==)>(xs: seq<T>)
  {
    forall i, j :: 0 <= i < j < |xs| ==> xs[i] != xs[j]
  }

  /** Filtering keeps a duplicate-free sequence duplicate-free. */
  lemma {:induction false} FilterKeepsNoDuplicates<T>(xs: seq<T>, p: T -> bool)
    requires NoDuplicates(xs)
    ensures NoDuplicates(Filter(xs, p))
  {
    if xs != [] {
      var init, last := xs[..|xs| - 1], xs[|xs| - 1];
      FilterKeepsNoDuplicates(init, p);
      var f := Filter(init, p);
      forall k | 0 <= k < |f|
        ensures f[k] != last
      {
        var m :| 0 <= m < |init| && init[m] == f[k];
        assert xs[m] == init[m];
      }
    }
  }
}
