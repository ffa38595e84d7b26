/** What both sketches' history buffers keep: the most recent entries up to a capacity. */
module History {

  /** The most recent `cap` entries of `s`, in order (all of `s` when it is shorter). */
  function Latest<T>(s: seq<T>, cap: nat): (r: seq<T>)
    ensures |r| == if |s| > cap then cap else |s|
    ensures r == s[|s| - |r|..]
  {
    if |s| > cap then s[|s| - cap..] else s
  }

  /** Dropping the oldest entry of a sequence over capacity keeps the same latest entries. */
  lemma LatestDropsFirst<T>(s: seq<T>, cap: nat)
    requires |s| > cap
    ensures Latest(s[1..], cap) == Latest(s, cap)
  {
  }
}
