/**
 * `collections.deque(maxlen=cap)`: appending to a full deque discards the
 * oldest element, so the deque always holds the most recent `cap` items in
 * arrival order.
 */
module Bounded {

  /** The deque after `append(x)`. */
  function Append<T>(s: seq<T>, x: T, cap: nat): (r: seq<T>)
    ensures |r| <= cap
    ensures |r| == if |s| + 1 <= cap then |s| + 1 else cap
    ensures forall i :: 0 <= i < |r| ==> r[i] == (s + [x])[|s| + 1 - |r| + i]
    ensures cap > 0 ==> r[|r| - 1] == x
  {
    var t := s + [x];
    if |t| <= cap then t else t[|t| - cap..]
  }

  /** Below capacity nothing is dropped; at capacity exactly the oldest item is. */
  lemma AppendDropsOnlyOldest<T>(s: seq<T>, x: T, cap: nat)
    requires |s| <= cap
    ensures |s| < cap ==> Append(s, x, cap) == s + [x]
    ensures 0 < cap == |s| ==> Append(s, x, cap) == s[1..] + [x]
  {
    if 0 < cap == |s| {
      assert (s + [x])[1..] == s[1..] + [x];
    }
  }
}
