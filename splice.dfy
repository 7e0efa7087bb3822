/**
 * The two uses of JavaScript's `Array.prototype.splice` that the reorder
 * scripts make: `splice(i, 1)` removes one element, `splice(start, 0, x)`
 * inserts one. `splice` normalises its start argument: a negative start
 * counts from the end (and stops at 0), a start past the end is the end.
 */
module Splice {

  /** The position `splice` actually uses for a start argument on an array of length `len`. */
  function ClampStart(start: int, len: nat): (r: nat)
    ensures r <= len
    ensures 0 <= start <= len ==> r == start
    ensures start > len ==> r == len
    ensures start < 0 && len + start >= 0 ==> r == len + start
    ensures len + start < 0 ==> r == 0
  {
    if start < 0 then (if len + start < 0 then 0 else len + start)
    else if start > len then len
    else start
  }

  /** `s.splice(i, 1)`: the elements before `i` stay, those after shift left by one. */
  function SpliceOut<T>(s: seq<T>, i: nat): (r: seq<T>)
    requires i < |s|
    ensures |r| == |s| - 1
    ensures forall k :: 0 <= k < i ==> r[k] == s[k]
    ensures forall k :: i <= k < |r| ==> r[k] == s[k + 1]
    ensures multiset(r) + multiset{s[i]} == multiset(s)
  {
    assert s == s[..i] + [s[i]] + s[i + 1..];
    s[..i] + s[i + 1..]
  }

  /** `s.splice(start, 0, x)`: `x` lands at the normalised start, later elements shift right. */
  function SpliceIn<T>(s: seq<T>, start: int, x: T): (r: seq<T>)
    ensures |r| == |s| + 1
    ensures r[ClampStart(start, |s|)] == x
    ensures forall k :: 0 <= k < ClampStart(start, |s|) ==> r[k] == s[k]
    ensures forall k :: ClampStart(start, |s|) <= k < |s| ==> r[k + 1] == s[k]
    ensures multiset(r) == multiset(s) + multiset{x}
  {
    var p := ClampStart(start, |s|);
    assert s == s[..p] + s[p..];
    s[..p] + [x] + s[p..]
  }
}
