/** The pieces of JavaScript's runtime semantics the sketches depend on. */
module Js {
  import opened Wrappers

  /** ToIntegerOrInfinity on a finite number: truncation toward zero. */
  function Truncate(r: real): (k: int)
    ensures 0.0 <= r ==> 0 <= k && k as real <= r < k as real + 1.0
    ensures r < 0.0 ==> k <= 0 && k as real - 1.0 < r <= k as real
  {
    if 0.0 <= r then r.Floor else -((-r).Floor)
  }

  /** How Array.prototype.slice turns a (possibly negative) index into a position in [0, len]:
      negative indices count from the end, and both ends are clamped. */
  function RelativeIndex(k: int, len: nat): (i: nat)
    ensures i <= len
    ensures 0 <= k <= len ==> i == k
    ensures len < k ==> i == len
    ensures -(len as int) <= k < 0 ==> i == len + k
    ensures k < -(len as int) ==> i == 0
  {
    if k < 0 then (if len + k < 0 then 0 else len + k)
    else if k < len then k else len
  }

  /** `s.slice(start)`. */
  function Slice<T>(s: seq<T>, start: int): seq<T>
  {
    s[RelativeIndex(start, |s|)..]
  }

  /** `s.slice(start, end)`. */
  function SliceRange<T>(s: seq<T>, start: int, end: int): seq<T>
  {
    var from, to := RelativeIndex(start, |s|), RelativeIndex(end, |s|);
    if from < to then s[from..to] else []
  }

  /** Slicing at the same index splits a sequence into a head and a tail that add up to it,
      whatever the index, because both calls resolve it the same way. */
  lemma SliceSplits<T>(s: seq<T>, k: int)
    ensures SliceRange(s, 0, k) + Slice(s, k) == s
    ensures |SliceRange(s, 0, k)| == RelativeIndex(k, |s|)
  {
    var i := RelativeIndex(k, |s|);
    assert SliceRange(s, 0, k) == s[..i];
    assert s[..i] + s[i..] == s;
  }

  /** `Math.max(...vals)`: `None` is the `-Infinity` that Math.max returns for no arguments. */
  function Max(vals: seq<real>): (m: Option<real>)
    ensures m == None <==> vals == []
    ensures m.Some? ==> m.value in vals
    ensures m.Some? ==> forall v :: v in vals ==> v <= m.value
  {
    if vals == [] then None
    else
      assert vals == [vals[0]] + vals[1..];
      match Max(vals[1..])
      case None => Some(vals[0])
      case Some(rest) => Some(if vals[0] >= rest then vals[0] else rest)
  }
}
