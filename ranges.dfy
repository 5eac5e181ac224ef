/** Python's `range(start, stop, step)` for a positive step. */
module Ranges {

  /**
   * The arithmetic sequence start, start + step, ... of every value below
   * `stop`: each element is `start + i * step` and lies below `stop`, and
   * one more step would reach `stop`.
   */
  function Range(start: int, stop: int, step: int): (s: seq<int>)
    requires step > 0
    decreases stop - start
    ensures forall i :: 0 <= i < |s| ==> s[i] == start + i * step && s[i] < stop
    ensures start + |s| * step >= stop
  {
    if start >= stop then []
    else
      var rest := Range(start + step, stop, step);
      assert forall i :: 0 < i <= |rest| ==> ([start] + rest)[i] == start + i * step by {
        forall i | 0 < i <= |rest|
          ensures ([start] + rest)[i] == start + i * step
        {
          assert ([start] + rest)[i] == rest[i - 1] == start + step + (i - 1) * step;
        }
      }
      assert start + (|rest| + 1) * step == start + step + |rest| * step;
      [start] + rest
  }

  /** The length is the number of whole steps that fit: `n` steps stay below `stop` exactly when `n < |Range|`. */
  lemma RangeLength(start: int, stop: int, step: int, n: nat)
    requires step > 0
    ensures start + n * step < stop <==> n < |Range(start, stop, step)|
  {
    var s := Range(start, stop, step);
    if n < |s| {
      assert s[n] == start + n * step;
    } else {
      assert n * step >= |s| * step by {
        var k := n - |s|;
        assert n * step == |s| * step + k * step;
      }
    }
  }

  /** Consecutive elements are one step apart, and one step past the last element reaches `stop`. */
  lemma RangeStep(start: int, stop: int, step: int, i: nat)
    requires step > 0 && i < |Range(start, stop, step)|
    ensures var r := Range(start, stop, step);
      (i + 1 < |r| ==> r[i + 1] == r[i] + step) && (i + 1 == |r| ==> r[i] + step >= stop)
  {
    var r := Range(start, stop, step);
    assert start + (i + 1) * step == start + i * step + step;
  }
}
