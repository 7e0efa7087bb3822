/**
 * Drag-and-drop reordering of a list: the dragged element is spliced out,
 * the drop index is corrected for the shift that removal caused, and the
 * element is spliced back in before or after the drop target.
 *
 * `Reordered` is the specification, stated without splicing: the element
 * at `dragged` moves to a final slot and every other element keeps its
 * relative order (`MoveTo`). `Move` and `MoveBefore` follow the two
 * scripts step by step and are proved to compute it.
 */
module Reorder {
  import opened Splice

  /** Where the dragged element lands relative to the drop target. */
  datatype Placement = Before | After

  /**
   * The splice index into the reduced list: one less than the target when
   * the dragged element came from in front of it, one more for `After`.
   * Slot `j` of the reduced list holds the original element `j` when
   * `j < dragged` and `j + 1` otherwise, so for a target other than the
   * dragged element the index is the target's own slot (`Before`) or the
   * slot just behind it (`After`).
   */
  function InsertionIndex(dragged: nat, target: nat, placement: Placement): (i: nat)
    ensures dragged != target && placement == Before ==> (if i < dragged then i else i + 1) == target
    ensures dragged != target && placement == After ==> 0 < i && (if i - 1 < dragged then i - 1 else i) == target
    ensures dragged == target ==> i == if placement == After then target + 1 else target
  {
    (if dragged < target then target - 1 else target) + (if placement == After then 1 else 0)
  }

  /**
   * The slot the dragged element ends up in once `splice` has clamped the
   * insertion index to the reduced list of length `n - 1`.
   */
  function FinalIndex(n: nat, dragged: nat, target: nat, placement: Placement): (q: nat)
    requires dragged < n && target < n
    ensures q < n
  {
    ClampStart(InsertionIndex(dragged, target, placement), n - 1)
  }

  /**
   * After moving the element at `from` to slot `to` of a list of length
   * `n`, the original index of the element found at slot `k`.
   */
  function Origin(n: nat, from: nat, to: nat, k: nat): (i: nat)
    requires from < n && to < n && k < n
    ensures i < n
  {
    if k == to then from
    else if from <= k < to then k + 1
    else if to < k <= from then k - 1
    else k
  }

  /** `s` with the element at `from` taken out and put back at slot `to`. */
  function MoveTo<T>(s: seq<T>, from: nat, to: nat): seq<T>
    requires from < |s| && to < |s|
  {
    seq(|s|, k requires 0 <= k < |s| => s[Origin(|s|, from, to, k)])
  }

  /** The list a drop of `dragged` onto `target` with `placement` produces. */
  function Reordered<T>(s: seq<T>, dragged: nat, target: nat, placement: Placement): seq<T>
    requires dragged < |s| && target < |s|
  {
    MoveTo(s, dragged, FinalIndex(|s|, dragged, target, placement))
  }

  // ----- the two scripts -----

  /**
   * The general algorithm with an `insertAfter` flag: splice out, adjust
   * the index step by step, splice in.
   */
  method Move<T>(items: seq<T>, dragged: nat, target: nat, placement: Placement) returns (r: seq<T>)
    requires dragged < |items| && target < |items|
    ensures r == Reordered(items, dragged, target, placement)
    ensures |r| == |items| && multiset(r) == multiset(items)
  {
    var arr := items;
    var draggedItem := arr[dragged];
    arr := SpliceOut(arr, dragged);
    var adjusted: int := target;
    if dragged < target {
      adjusted := target - 1;
    }
    if placement == After {
      adjusted := adjusted + 1;
    }
    arr := SpliceIn(arr, adjusted, draggedItem);
    SpliceMatchesMoveTo(items, dragged, adjusted);
    r := arr;
  }

  /** The insert-before-only algorithm, whose index correction is one conditional expression. */
  method MoveBefore<T>(items: seq<T>, dragged: nat, target: nat) returns (r: seq<T>)
    requires dragged < |items| && target < |items|
    ensures r == Reordered(items, dragged, target, Before)
    ensures |r| == |items| && multiset(r) == multiset(items)
  {
    var arr := items;
    var draggedItem := arr[dragged];
    arr := SpliceOut(arr, dragged);
    var adjusted := if dragged < target then target - 1 else target;
    arr := SpliceIn(arr, adjusted, draggedItem);
    SpliceMatchesMoveTo(items, dragged, adjusted);
    r := arr;
  }

  // ----- properties -----

  /**
   * Splicing an element out and back in at any start is `MoveTo` the slot
   * `splice` clamps that start to, and keeps the multiset.
   */
  lemma SpliceMatchesMoveTo<T>(s: seq<T>, from: nat, start: int)
    requires from < |s|
    ensures var to := ClampStart(start, |s| - 1);
            && SpliceIn(SpliceOut(s, from), start, s[from]) == MoveTo(s, from, to)
            && multiset(MoveTo(s, from, to)) == multiset(s)
  {
    var reduced := SpliceOut(s, from);
    var r := SpliceIn(reduced, start, s[from]);
    var to := ClampStart(start, |reduced|);
    forall k | 0 <= k < |s|
      ensures r[k] == MoveTo(s, from, to)[k]
    {
      if k < to {
        assert r[k] == reduced[k];
      } else if k > to {
        assert r[k] == reduced[k - 1];
      }
    }
  }

  /** The reorder never duplicates or drops an element. */
  lemma ReorderedIsPermutation<T>(s: seq<T>, dragged: nat, target: nat, placement: Placement)
    requires dragged < |s| && target < |s|
    ensures |Reordered(s, dragged, target, placement)| == |s|
    ensures multiset(Reordered(s, dragged, target, placement)) == multiset(s)
  {
    SpliceMatchesMoveTo(s, dragged, InsertionIndex(dragged, target, placement));
  }

  /**
   * The insertion index overshoots the reduced list only when the last
   * element is dropped after itself; there `splice` clamps it to the end.
   */
  lemma InsertionIndexOvershoot(n: nat, dragged: nat, target: nat, placement: Placement)
    requires dragged < n && target < n
    ensures InsertionIndex(dragged, target, placement) <= n
    ensures InsertionIndex(dragged, target, placement) > n - 1
            <==> dragged == target == n - 1 && placement == After
    ensures FinalIndex(n, dragged, target, placement)
            == if dragged == target == n - 1 && placement == After then n - 1
               else InsertionIndex(dragged, target, placement)
  {
  }

  /**
   * The dragged element lands at the final index, and removing it from the
   * result gives the list with it removed from its old slot: every other
   * element keeps its relative order.
   */
  lemma ReorderedMovesOnlyDragged<T>(s: seq<T>, dragged: nat, target: nat, placement: Placement)
    requires dragged < |s| && target < |s|
    ensures var q := FinalIndex(|s|, dragged, target, placement);
            var r := Reordered(s, dragged, target, placement);
            |r| == |s| && r[q] == s[dragged] && SpliceOut(r, q) == SpliceOut(s, dragged)
  {
  }

  /**
   * For a target other than the dragged element, `Before` puts the dragged
   * element immediately in front of the target element, `After`
   * immediately behind it.
   */
  lemma ReorderedLandsBesideTarget<T>(s: seq<T>, dragged: nat, target: nat, placement: Placement)
    requires dragged < |s| && target < |s| && dragged != target
    ensures var q := FinalIndex(|s|, dragged, target, placement);
            var r := Reordered(s, dragged, target, placement);
            && (placement == Before ==> q + 1 < |s| && Origin(|s|, dragged, q, q + 1) == target && r[q + 1] == s[target])
            && (placement == After ==> 0 < q && Origin(|s|, dragged, q, q - 1) == target && r[q - 1] == s[target])
  {
  }

  /** Dropping `After` a target equals dropping `Before` the next one, unless the target is the dragged element. */
  lemma AfterIsBeforeNext<T>(s: seq<T>, dragged: nat, target: nat)
    requires dragged < |s| && target + 1 < |s| && dragged != target
    ensures Reordered(s, dragged, target, After) == Reordered(s, dragged, target + 1, Before)
  {
  }

  /**
   * Dropping an element before itself, before its successor, or after its
   * predecessor leaves the list unchanged.
   */
  lemma AdjacentDropsAreNoOps<T>(s: seq<T>, i: nat)
    requires i < |s|
    ensures Reordered(s, i, i, Before) == s
    ensures i + 1 < |s| ==> Reordered(s, i, i + 1, Before) == s
    ensures 0 < i ==> Reordered(s, i, i - 1, After) == s
  {
  }

  /** Moving an element to its own slot changes nothing. */
  lemma MoveToSameSlot<T>(s: seq<T>, i: nat)
    requires i < |s|
    ensures MoveTo(s, i, i) == s
  {
  }

  /**
   * Dropping an element after itself is not a no-op: it trades places with
   * its successor. Only the last element stays, because the index is clamped.
   */
  lemma DropAfterSelfSwapsWithNext<T>(s: seq<T>, i: nat)
    requires i < |s|
    ensures i + 1 < |s| ==> Reordered(s, i, i, After) == s[..i] + [s[i + 1], s[i]] + s[i + 2..]
    ensures i + 1 == |s| ==> Reordered(s, i, i, After) == s
  {
  }

  /** `['A','B','C']` with index 1 dropped after index 1 becomes `['A','C','B']`. */
  lemma DropAfterSelfExample()
    ensures Reordered(['A', 'B', 'C'], 1, 1, After) == ['A', 'C', 'B']
  {
  }

  /** The general script's two test cases and their expected results. */
  lemma TestLogicCases()
    ensures Reordered(['A', 'B', 'C', 'D', 'E'], 2, 0, Before) == ['C', 'A', 'B', 'D', 'E']
    ensures Reordered(['A', 'B', 'C', 'D', 'E'], 0, 2, After) == ['B', 'C', 'A', 'D', 'E']
  {
  }

  /** The insert-before-only script's two test cases and their expected results. */
  lemma DebugInsertCases()
    ensures Reordered(['A', 'B', 'C', 'D', 'E'], 2, 0, Before) == ['C', 'A', 'B', 'D', 'E']
    ensures Reordered(['A', 'B', 'C', 'D', 'E'], 0, 3, Before) == ['B', 'C', 'A', 'D', 'E']
  {
  }
}
