/** Python list idioms used throughout the pipeline: `next(x for x in s if p(x))`,
    slicing with `s[start:stop]`, and `sub in s` on strings. */
module Sequences {
  import opened Wrappers

  function Min(a: int, b: int): int {
    if a <= b then a else b
  }

  function Max(a: int, b: int): int {
    if a >= b then a else b
  }

  /** The index of the first element of `s` satisfying `p`, or None: what a generator
      expression handed to `next(..., None)` finds. */
  function FirstMatch<T>(s: seq<T>, p: T -> bool): (r: Option<nat>)
    ensures r.Some? ==> r.value < |s| && p(s[r.value])
    ensures r.Some? ==> forall j :: 0 <= j < r.value ==> !p(s[j])
    ensures r.None? <==> forall j :: 0 <= j < |s| ==> !p(s[j])
  {
    if s == [] then None
    else if p(s[0]) then Some(0)
    else
      match FirstMatch(s[1..], p)
      case None => None
      case Some(k) => Some(k + 1)
  }

  /** Python's normalisation of one slice bound against a sequence of length n:
      a negative bound counts from the end, and the result is clamped to [0, n]. */
  function SliceBound(i: int, n: nat): (r: nat)
    ensures r <= n
  {
    if i < 0 then (if n + i < 0 then 0 else n + i)
    else if i > n then n
    else i
  }

  /** `s[start:stop]` with Python semantics for arbitrary integers. */
  function PySlice<T>(s: seq<T>, start: int, stop: int): (r: seq<T>)
    ensures |r| <= |s|
  {
    var i, j := SliceBound(start, |s|), SliceBound(stop, |s|);
    if i < j then s[i..j] else []
  }

  /** For non-negative bounds, `s[offset:offset+limit]` holds the
      max(0, min(limit, len - offset)) elements from `offset` on, in order. */
  lemma PySliceWindow<T>(s: seq<T>, offset: nat, limit: nat)
    ensures var r := PySlice(s, offset, offset + limit);
      |r| == Max(0, Min(limit, |s| - offset)) &&
      forall k :: 0 <= k < |r| ==> r[k] == s[offset + k]
  {
  }

  /** A negative start counts from the end: `s[-k:]` is the last k elements. */
  lemma PySliceNegativeStart<T>(s: seq<T>, k: int)
    requires 0 < k <= |s|
    ensures PySlice(s, -k, |s|) == s[|s| - k..]
  {
  }

  predicate OccursAt<T(==)>(s: seq<T>, sub: seq<T>, i: int) {
    0 <= i && i + |sub| <= |s| && s[i..i + |sub|] == sub
  }

  /** Python's `sub in s` for strings. */
  predicate Contains<T(==)>(s: seq<T>, sub: seq<T>) {
    exists i | 0 <= i <= |s| :: OccursAt(s, sub, i)
  }

  /** Containment is transitive: an occurrence of `t` in `s` carries every occurrence
      of `u` in `t` along with it. */
  lemma ContainsTransitive<T>(s: seq<T>, t: seq<T>, u: seq<T>)
    requires Contains(s, t) && Contains(t, u)
    ensures Contains(s, u)
  {
    var i :| 0 <= i <= |s| && OccursAt(s, t, i);
    var j :| 0 <= j <= |t| && OccursAt(t, u, j);
    assert 0 <= i + j && i + j + |u| <= |s|;
    forall k | 0 <= k < |u|
      ensures s[i + j + k] == u[k]
    {
      assert t[j + k] == s[i..i + |t|][j + k];
    }
    assert s[i + j..i + j + |u|] == u;
    assert OccursAt(s, u, i + j);
  }
}
