/** JavaScript array reads and `Array.prototype.slice`. */
module JsArray {
  import opened Wrappers

  /** `a[i]`: an index outside the array reads `undefined`. */
  function At<T>(a: seq<T>, i: int): (r: Option<T>)
    ensures r.Some? <==> 0 <= i < |a|
    ensures r.Some? ==> r.value == a[i]
  {
    if 0 <= i < |a| then Some(a[i]) else None
  }

  /** `a.slice(start, end)` for non-negative bounds: both bounds are clamped to the
    * length, and an end before the start gives the empty array. */
  function Slice<T>(a: seq<T>, start: nat, end: nat): (r: seq<T>)
    ensures start >= |a| || end <= start ==> r == []
    ensures start < |a| && start < end ==> |r| == (if end <= |a| then end else |a|) - start
    ensures forall k :: 0 <= k < |r| ==> r[k] == a[start + k]
  {
    var lo := if start <= |a| then start else |a|;
    var hi := if end <= |a| then end else |a|;
    if hi <= lo then [] else a[lo..hi]
  }
}
