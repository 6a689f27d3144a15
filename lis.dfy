/*
 * Increasing contiguous runs ("substrings") of a sequence, as src/lis.py
 * computes them. Elements are of any type T; the source's duck-typed
 * `Comparable` protocol becomes a comparison `less` passed in, and only
 * `less` is ever applied to elements (no order axioms are assumed).
 */
module Lis {

  /** A half-open pair of indices (start, end), the source's `tuple[int, int]`. */
  type Substring = (int, int)

  /** Every adjacent pair of `x` is ordered by `less`. */
  predicate Increasing<T>(x: seq<T>, less: (T, T) -> bool)
  {
    forall k :: 0 <= k < |x| - 1 ==> less(x[k], x[k + 1])
  }

  /** x[k], x[k + 1] is the leftmost adjacent pair of `x` that `less` does not order. */
  predicate FirstUnordered<T>(x: seq<T>, less: (T, T) -> bool, k: int)
  {
    && 0 <= k < |x| - 1
    && !less(x[k], x[k + 1])
    && forall m :: 0 <= m < k ==> less(x[m], x[m + 1])
  }

  /** `is_increasing`: scan the adjacent pairs left to right, stop at the first unordered one. */
  method IsIncreasing<T>(x: seq<T>, less: (T, T) -> bool) returns (b: bool)
    ensures b <==> Increasing(x, less)
    ensures !b ==> exists k :: FirstUnordered(x, less, k)
  {
    var i := 0;
    while i < |x| - 1
      invariant 0 <= i && (i <= |x| - 1 || i == 0)
      invariant forall k :: 0 <= k < i ==> less(x[k], x[k + 1])
    {
      if !less(x[i], x[i + 1]) {
        assert FirstUnordered(x, less, i);
        return false;
      }
      i := i + 1;
    }
    return true;
  }

  /** `substring_length`: end minus start of a pair. */
  function SubstringLength(substring: Substring): int
  {
    substring.1 - substring.0
  }

  /** On a pair that lies inside `x`, the length is the length of the slice it denotes. */
  lemma SubstringLengthIsSliceLength<T>(x: seq<T>, substring: Substring)
    requires 0 <= substring.0 <= substring.1 <= |x|
    ensures SubstringLength(substring) == |x[substring.0..substring.1]|
    ensures SubstringLength(substring) >= 0
  {
  }

  /*
   * The scan of `longest_increasing_substring`, one loop iteration per call.
   * `i` is the loop index: the prefix x[..i] has been scanned, `best` is the
   * pair found so far and `lower` the start of the current window.
   */
  function ScanFrom<T>(x: seq<T>, less: (T, T) -> bool, i: nat, best: Substring, lower: nat): Substring
    requires lower <= i <= |x|
    decreases |x| - i
  {
    if i == |x| then best
    else
      var j := i + 1;
      var (best', lower') :=
        if Increasing(x[lower..j], less) then ((lower, j), lower) else (best, j - 1);
      if SubstringLength(best') >= SubstringLength((lower', |x|)) then best'
      else ScanFrom(x, less, j, best', lower')
  }

  /** What `longest_increasing_substring` returns: the scan from best = (0, 0), lower = 0. */
  function Scan<T>(x: seq<T>, less: (T, T) -> bool): Substring
  {
    ScanFrom(x, less, 0, (0, 0), 0)
  }

  /** The state the loop keeps after each iteration that does not break. */
  predicate ScanState<T>(x: seq<T>, less: (T, T) -> bool, i: int, best: Substring, lower: int)
  {
    && 0 <= lower <= i <= |x|
    && (i > 0 ==> lower < i)
    && Increasing(x[lower..i], less)
    && 0 <= best.0 <= best.1 <= i
    && Increasing(x[best.0..best.1], less)
    && (i > 0 ==> SubstringLength(best) >= 1)
  }

  /** One iteration keeps ScanState, in both branches of the window test. */
  lemma StepPreserves<T>(x: seq<T>, less: (T, T) -> bool, i: nat, best: Substring, lower: nat)
    requires ScanState(x, less, i, best, lower) && i < |x|
    ensures Increasing(x[lower..i + 1], less) ==> ScanState(x, less, i + 1, (lower, i + 1), lower)
    ensures !Increasing(x[lower..i + 1], less) ==> ScanState(x, less, i + 1, best, i)
  {
  }

  /**
   * The window test of iteration i fails exactly when the newly added pair
   * x[i-1], x[i] is unordered: the first iteration never resets, and a reset
   * moves `lower` to the element that broke the run.
   */
  lemma WindowExtendsIff<T>(x: seq<T>, less: (T, T) -> bool, i: nat, best: Substring, lower: nat)
    requires ScanState(x, less, i, best, lower) && i < |x|
    ensures Increasing(x[lower..i + 1], less) <==> (i == 0 || less(x[i - 1], x[i]))
  {
    if i > 0 && Increasing(x[lower..i + 1], less) {
      assert x[lower..i + 1][i - 1 - lower] == x[i - 1];
      assert x[lower..i + 1][i - lower] == x[i];
    }
    if i > 0 && less(x[i - 1], x[i]) {
      forall k | lower <= k < i
        ensures less(x[k], x[k + 1])
      {
        if k < i - 1 {
          assert x[lower..i][k - lower] == x[k];
        }
      }
    }
  }

  /** Whatever state the scan resumes from, its result is an increasing run inside x. */
  lemma {:induction false} ScanFromResult<T>(x: seq<T>, less: (T, T) -> bool, i: nat, best: Substring, lower: nat)
    requires ScanState(x, less, i, best, lower)
    decreases |x| - i
    ensures var r := ScanFrom(x, less, i, best, lower);
      && 0 <= r.0 <= r.1 <= |x|
      && Increasing(x[r.0..r.1], less)
      && (|x| > 0 ==> SubstringLength(r) >= 1)
  {
    if i < |x| {
      StepPreserves(x, less, i, best, lower);
      if Increasing(x[lower..i + 1], less) {
        ScanFromResult(x, less, i + 1, (lower, i + 1), lower);
      } else {
        ScanFromResult(x, less, i + 1, best, i);
      }
    }
  }

  /**
   * The result of the scan: (0, 0) on the empty sequence; otherwise a
   * non-empty pair inside x whose slice is increasing.
   */
  lemma ScanResult<T>(x: seq<T>, less: (T, T) -> bool)
    ensures var r := Scan(x, less);
      && 0 <= r.0 <= r.1 <= |x|
      && Increasing(x[r.0..r.1], less)
      && (|x| == 0 <==> r == (0, 0))
      && (|x| > 0 ==> SubstringLength(r) >= 1)
  {
    ScanFromResult(x, less, 0, (0, 0), 0);
  }

  /** `longest_increasing_substring`: the loop with its unconditional update and early exit. */
  method LongestIncreasingSubstring<T>(x: seq<T>, less: (T, T) -> bool) returns (best: Substring)
    ensures best == Scan(x, less)
    ensures 0 <= best.0 <= best.1 <= |x|
    ensures Increasing(x[best.0..best.1], less)
    ensures |x| == 0 ==> best == (0, 0)
    ensures |x| > 0 ==> SubstringLength(best) >= 1
  {
    best := (0, 0);
    var lower := 0;
    var i := 0;
    while i < |x|
      invariant ScanState(x, less, i, best, lower)
      invariant ScanFrom(x, less, i, best, lower) == Scan(x, less)
    {
      StepPreserves(x, less, i, best, lower);
      var j := i + 1;
      var increasing := IsIncreasing(x[lower..j], less);
      if increasing {
        best := (lower, j);
      } else {
        lower := j - 1;
      }
      if SubstringLength(best) >= SubstringLength((lower, |x|)) {
        break;
      }
      i := j;
    }
  }

  /** `find_increasing_upper_limit`: the first i whose prefix x[..i] is not increasing, else |x|. */
  method FindIncreasingUpperLimit<T>(x: seq<T>, less: (T, T) -> bool) returns (r: nat)
    requires |x| >= 1
    ensures r <= |x|
    ensures forall i :: 0 <= i < r && i < |x| ==> Increasing(x[..i], less)
    ensures r < |x| ==> !Increasing(x[..r], less)
    ensures r == |x| <==> Increasing(x[..|x| - 1], less)
  {
    var i := 0;
    while i < |x|
      invariant 0 <= i <= |x|
      invariant forall k :: 0 <= k < i ==> Increasing(x[..k], less)
    {
      var increasing := IsIncreasing(x[..i], less);
      if !increasing {
        return i;
      }
      i := i + 1;
    }
    // the source returns its last index plus one, which is |x|
    return i;
  }

  /** A sequence with no ordered adjacent pair (decreasing, or all equal) scans to (0, 1). */
  lemma ScanOfNonIncreasing<T>(x: seq<T>, less: (T, T) -> bool)
    requires |x| > 0
    requires forall k :: 0 <= k < |x| - 1 ==> !less(x[k], x[k + 1])
    ensures Scan(x, less) == (0, 1)
  {
    if |x| > 1 {
      ScanFromNonIncreasing(x, less, 1);
    }
  }

  /** From iteration i on, every window breaks: best stays (0, 1) and lower follows i - 1. */
  lemma {:induction false} ScanFromNonIncreasing<T>(x: seq<T>, less: (T, T) -> bool, i: nat)
    requires 1 <= i <= |x|
    requires forall k :: 0 <= k < |x| - 1 ==> !less(x[k], x[k + 1])
    decreases |x| - i
    ensures ScanFrom(x, less, i, (0, 1), i - 1) == (0, 1)
  {
    if i < |x| {
      assert !Increasing(x[i - 1..i + 1], less) by {
        assert x[i - 1..i + 1][0] == x[i - 1] && x[i - 1..i + 1][1] == x[i];
      }
      if i + 1 < |x| {
        ScanFromNonIncreasing(x, less, i + 1);
      }
    }
  }

  /** The scan with the early exit of the source removed: it runs to the end of x. */
  function ScanToEnd<T>(x: seq<T>, less: (T, T) -> bool, i: nat, best: Substring, lower: nat): Substring
    requires lower <= i <= |x|
    decreases |x| - i
  {
    if i == |x| then best
    else if Increasing(x[lower..i + 1], less) then ScanToEnd(x, less, i + 1, (lower, i + 1), lower)
    else ScanToEnd(x, less, i + 1, best, i)
  }

  /** A window is increasing exactly when every adjacent pair inside it in x is ordered. */
  lemma IncreasingSlice<T>(x: seq<T>, less: (T, T) -> bool, lo: nat, hi: nat)
    requires lo <= hi <= |x|
    ensures Increasing(x[lo..hi], less) <==> forall k :: lo <= k < hi - 1 ==> less(x[k], x[k + 1])
  {
  }

  /** The strict order on integer elements, the source's `<` on `int`. */
  function IntLess(a: int, b: int): bool
  {
    a < b
  }

  /** The strict order on character elements, the source's `<` on one-character `str`. */
  function CharLess(a: char, b: char): bool
  {
    a < b
  }
}
