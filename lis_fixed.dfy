/*
 * The promise of the docstring of `longest_increasing_substring` (the
 * leftmost longest increasing substring), the inputs on which the scan as
 * written breaks it, and a scan that keeps it.
 */
module LisFixed {
  import opened Lis

  /** x[s..e] is an increasing substring of x. */
  predicate IsRun<T>(x: seq<T>, less: (T, T) -> bool, s: int, e: int)
  {
    0 <= s <= e <= |x| && Increasing(x[s..e], less)
  }

  /**
   * r is the leftmost longest increasing substring of x: no increasing
   * substring is longer, and every one as long starts no further left.
   */
  ghost predicate LeftmostLongest<T>(x: seq<T>, less: (T, T) -> bool, r: Substring)
  {
    && IsRun(x, less, r.0, r.1)
    && forall s, e :: IsRun(x, less, s, e) ==>
         e - s <= SubstringLength(r) && (e - s == SubstringLength(r) ==> r.0 <= s)
  }

  /** There is at most one leftmost longest increasing substring. */
  lemma LeftmostLongestUnique<T>(x: seq<T>, less: (T, T) -> bool, r1: Substring, r2: Substring)
    requires LeftmostLongest(x, less, r1) && LeftmostLongest(x, less, r2)
    ensures r1 == r2
  {
  }

  /** No increasing substring contains an unordered adjacent pair. */
  lemma NoRunAcrossBreak<T>(x: seq<T>, less: (T, T) -> bool, s: int, e: int, k: int)
    requires 0 <= s <= k && k + 1 < e <= |x|
    requires !less(x[k], x[k + 1])
    ensures !IsRun(x, less, s, e)
  {
  }

  /**
   * The state of the corrected scan after i iterations: the window x[lower..i]
   * is the longest increasing substring ending at i, and best is the leftmost
   * longest among those ending at or before i.
   */
  ghost predicate FixedState<T>(x: seq<T>, less: (T, T) -> bool, i: int, best: Substring, lower: int)
  {
    && 0 <= lower <= i <= |x|
    && (i > 0 ==> lower < i)
    && Increasing(x[lower..i], less)
    && (0 < lower ==> !less(x[lower - 1], x[lower]))
    && IsRun(x, less, best.0, best.1) && best.1 <= i
    && forall s, e :: IsRun(x, less, s, e) && e <= i ==>
         e - s <= SubstringLength(best) && (e - s == SubstringLength(best) ==> best.0 <= s)
  }

  /** The increasing substrings that end at i + 1 when the window x[lower..i+1] is increasing. */
  lemma RunsEndingInWindow<T>(x: seq<T>, less: (T, T) -> bool, i: nat, best: Substring, lower: nat, s: int)
    requires FixedState(x, less, i, best, lower) && i < |x|
    requires IsRun(x, less, s, i + 1)
    ensures lower <= s
  {
    if s < lower {
      NoRunAcrossBreak(x, less, s, i + 1, lower - 1);
    }
  }

  /** One iteration of the corrected scan keeps FixedState, in each of its three outcomes. */
  lemma FixedStep<T>(x: seq<T>, less: (T, T) -> bool, i: nat, best: Substring, lower: nat)
    requires FixedState(x, less, i, best, lower) && i < |x|
    ensures Increasing(x[lower..i + 1], less) && i + 1 - lower > SubstringLength(best) ==>
              FixedState(x, less, i + 1, (lower, i + 1), lower)
    ensures Increasing(x[lower..i + 1], less) && i + 1 - lower <= SubstringLength(best) ==>
              FixedState(x, less, i + 1, best, lower)
    ensures !Increasing(x[lower..i + 1], less) ==> FixedState(x, less, i + 1, best, i)
  {
    var j := i + 1;
    if Increasing(x[lower..j], less) {
      var best' := if j - lower > SubstringLength(best) then (lower, j) else best;
      forall s, e | IsRun(x, less, s, e) && e <= j
        ensures e - s <= SubstringLength(best') && (e - s == SubstringLength(best') ==> best'.0 <= s)
      {
        if e == j {
          RunsEndingInWindow(x, less, i, best, lower, s);
        }
      }
    } else {
      IncreasingSlice(x, less, lower, i);
      IncreasingSlice(x, less, lower, j);
      assert 0 < i && !less(x[i - 1], x[i]);
      assert IsRun(x, less, 0, 1);
      forall s, e | IsRun(x, less, s, e) && e <= j
        ensures e - s <= SubstringLength(best) && (e - s == SubstringLength(best) ==> best.0 <= s)
      {
        if e == j && s < i {
          NoRunAcrossBreak(x, less, s, e, i - 1);
        }
      }
    }
  }

  /**
   * Once the scan is at the end of x, or best is at least as long as any
   * window starting at lower, best is the leftmost longest: no increasing
   * substring crosses the break before lower.
   */
  lemma FixedExit<T>(x: seq<T>, less: (T, T) -> bool, i: nat, best: Substring, lower: nat)
    requires FixedState(x, less, i, best, lower)
    requires i == |x| || SubstringLength(best) >= |x| - lower
    ensures LeftmostLongest(x, less, best)
  {
    forall s, e | IsRun(x, less, s, e)
      ensures e - s <= SubstringLength(best) && (e - s == SubstringLength(best) ==> best.0 <= s)
    {
      if e > i && s < lower {
        NoRunAcrossBreak(x, less, s, e, lower - 1);
      }
    }
  }

  /**
   * The scan of `longest_increasing_substring` with `best` replaced only by
   * a strictly longer window; the early exit is kept.
   */
  method LeftmostLongestIncreasingSubstring<T>(x: seq<T>, less: (T, T) -> bool) returns (best: Substring)
    ensures LeftmostLongest(x, less, best)
  {
    best := (0, 0);
    var lower := 0;
    var i := 0;
    while i < |x|
      invariant FixedState(x, less, i, best, lower)
    {
      FixedStep(x, less, i, best, lower);
      var j := i + 1;
      var increasing := IsIncreasing(x[lower..j], less);
      if increasing {
        if SubstringLength((lower, j)) > SubstringLength(best) {
          best := (lower, j);
        }
      } else {
        lower := j - 1;
      }
      if SubstringLength(best) >= SubstringLength((lower, |x|)) {
        FixedExit(x, less, j, best, lower);
        return;
      }
      i := j;
    }
    FixedExit(x, less, i, best, lower);
  }

  /** On [1, 2, 3, 0, 1, 0, 0] the scan as written returns (3, 5), though (0, 3) is longer. */
  lemma ScanNotLongest()
    ensures Scan([1, 2, 3, 0, 1, 0, 0], IntLess) == (3, 5)
    ensures IsRun([1, 2, 3, 0, 1, 0, 0], IntLess, 0, 3)
    ensures !LeftmostLongest([1, 2, 3, 0, 1, 0, 0], IntLess, Scan([1, 2, 3, 0, 1, 0, 0], IntLess))
  {
    var x := [1, 2, 3, 0, 1, 0, 0];
    assert Increasing(x[0..3], IntLess) by {
      IncreasingSlice(x, IntLess, 0, 3);
    }
    assert Increasing(x[0..2], IntLess);
    assert !Increasing(x[0..4], IntLess) by {
      IncreasingSlice(x, IntLess, 0, 4);
      assert !IntLess(x[2], x[3]);
    }
    assert Increasing(x[3..5], IntLess) by {
      IncreasingSlice(x, IntLess, 3, 5);
    }
    assert !Increasing(x[3..6], IntLess) by {
      IncreasingSlice(x, IntLess, 3, 6);
      assert !IntLess(x[4], x[5]);
    }
    assert ScanFrom(x, IntLess, 5, (3, 5), 3) == (3, 5);
    assert ScanFrom(x, IntLess, 4, (0, 3), 3) == (3, 5);
    assert ScanFrom(x, IntLess, 3, (0, 3), 0) == (3, 5);
    assert ScanFrom(x, IntLess, 2, (0, 2), 0) == (3, 5);
    assert ScanFrom(x, IntLess, 1, (0, 1), 0) == (3, 5);
    assert !LeftmostLongest(x, IntLess, (3, 5)) by {
      assert IsRun(x, IntLess, 0, 3);
    }
  }

  lemma ScanNotLeftmostTail(x: seq<int>)
    requires x == [1, 2, 3, 0, 1, 2, 0]
    ensures ScanFrom(x, IntLess, 4, (0, 3), 3) == (3, 6)
  {
    assert Increasing(x[3..6], IntLess) by {
      IncreasingSlice(x, IntLess, 3, 6);
    }
    assert Increasing(x[3..5], IntLess);
    assert !Increasing(x[3..7], IntLess) by {
      IncreasingSlice(x, IntLess, 3, 7);
      assert !IntLess(x[5], x[6]);
    }
    assert ScanFrom(x, IntLess, 6, (3, 6), 3) == (3, 6);
    assert ScanFrom(x, IntLess, 5, (3, 5), 3) == (3, 6);
  }

  /** On [1, 2, 3, 0, 1, 2, 0] the scan as written returns (3, 6), though (0, 3) is as long and further left. */
  lemma ScanNotLeftmost()
    ensures Scan([1, 2, 3, 0, 1, 2, 0], IntLess) == (3, 6)
    ensures IsRun([1, 2, 3, 0, 1, 2, 0], IntLess, 0, 3)
    ensures !LeftmostLongest([1, 2, 3, 0, 1, 2, 0], IntLess, Scan([1, 2, 3, 0, 1, 2, 0], IntLess))
  {
    var x := [1, 2, 3, 0, 1, 2, 0];
    ScanNotLeftmostTail(x);
    assert Increasing(x[0..3], IntLess) by {
      IncreasingSlice(x, IntLess, 0, 3);
    }
    assert Increasing(x[0..2], IntLess);
    assert !Increasing(x[0..4], IntLess) by {
      IncreasingSlice(x, IntLess, 0, 4);
      assert !IntLess(x[2], x[3]);
    }
    assert ScanFrom(x, IntLess, 3, (0, 3), 0) == (3, 6);
    assert ScanFrom(x, IntLess, 2, (0, 2), 0) == (3, 6);
    assert ScanFrom(x, IntLess, 1, (0, 1), 0) == (3, 6);
    assert !LeftmostLongest(x, IntLess, (3, 6)) by {
      assert IsRun(x, IntLess, 0, 3);
    }
  }
}
