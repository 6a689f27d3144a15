/*
 * The documented examples of src/lis.py, evaluated on the model.
 */
module LisExamples {
  import opened Lis

  /** The documented results of `is_increasing`. */
  lemma IsIncreasingExamples()
    ensures Increasing([], IntLess) && Increasing([42], IntLess) && Increasing([1, 4, 6], IntLess)
    ensures Increasing("abc", CharLess)
    ensures !Increasing("cba", CharLess)
  {
    assert !CharLess("cba"[0], "cba"[1]);
  }

  lemma AbcabcScan()
    ensures Scan("abcabc", CharLess) == (0, 3)
  {
    var x := "abcabc";
    IncreasingSlice(x, CharLess, 0, 3);
    IncreasingSlice(x, CharLess, 0, 4);
    assert !CharLess(x[2], x[3]);
    assert ScanFrom(x, CharLess, 3, (0, 3), 0) == (0, 3);
    assert ScanFrom(x, CharLess, 2, (0, 2), 0) == (0, 3);
    assert ScanFrom(x, CharLess, 1, (0, 1), 0) == (0, 3);
  }

  lemma AbabcScan()
    ensures Scan("ababc", CharLess) == (2, 5)
  {
    var x := "ababc";
    IncreasingSlice(x, CharLess, 0, 2);
    IncreasingSlice(x, CharLess, 0, 3);
    IncreasingSlice(x, CharLess, 2, 5);
    assert !CharLess(x[1], x[2]);
    assert ScanFrom(x, CharLess, 4, (2, 4), 2) == (2, 5);
    assert ScanFrom(x, CharLess, 3, (0, 2), 2) == (2, 5);
    assert ScanFrom(x, CharLess, 2, (0, 2), 0) == (2, 5);
    assert ScanFrom(x, CharLess, 1, (0, 1), 0) == (2, 5);
  }

  lemma NumbersScanTail(x: seq<int>)
    requires x == [12, 45, 32, 65, 78, 23, 35, 45, 57]
    ensures ScanFrom(x, IntLess, 5, (2, 5), 2) == (5, 9)
  {
    assert !Increasing(x[2..6], IntLess) by {
      IncreasingSlice(x, IntLess, 2, 6);
      assert !IntLess(x[4], x[5]);
    }
    assert Increasing(x[5..9], IntLess) by {
      IncreasingSlice(x, IntLess, 5, 9);
    }
    assert Increasing(x[5..8], IntLess) && Increasing(x[5..7], IntLess);
    assert ScanFrom(x, IntLess, 8, (5, 8), 5) == (5, 9);
    assert ScanFrom(x, IntLess, 7, (5, 7), 5) == (5, 9);
    assert ScanFrom(x, IntLess, 6, (2, 5), 5) == (5, 9);
  }

  lemma NumbersScan()
    ensures Scan([12, 45, 32, 65, 78, 23, 35, 45, 57], IntLess) == (5, 9)
  {
    var x := [12, 45, 32, 65, 78, 23, 35, 45, 57];
    NumbersScanTail(x);
    assert Increasing(x[0..2], IntLess) by {
      IncreasingSlice(x, IntLess, 0, 2);
    }
    assert !Increasing(x[0..3], IntLess) by {
      IncreasingSlice(x, IntLess, 0, 3);
      assert !IntLess(x[1], x[2]);
    }
    assert Increasing(x[2..5], IntLess) by {
      IncreasingSlice(x, IntLess, 2, 5);
    }
    assert Increasing(x[2..4], IntLess);
    assert ScanFrom(x, IntLess, 4, (2, 4), 2) == (5, 9);
    assert ScanFrom(x, IntLess, 3, (0, 2), 2) == (5, 9);
    assert ScanFrom(x, IntLess, 2, (0, 2), 0) == (5, 9);
    assert ScanFrom(x, IntLess, 1, (0, 1), 0) == (5, 9);
  }

  /** The documented results of `longest_increasing_substring`. */
  lemma ScanExamples()
    ensures Scan("abcabc", CharLess) == (0, 3)
    ensures Scan("ababc", CharLess) == (2, 5)
    ensures Scan([12, 45, 32, 65, 78, 23, 35, 45, 57], IntLess) == (5, 9)
  {
    AbcabcScan();
    AbabcScan();
    NumbersScan();
  }

  /** The boundary cases: empty, singleton, strictly decreasing. */
  lemma ScanBoundaryExamples()
    ensures Scan([], IntLess) == (0, 0)
    ensures Scan([42], IntLess) == (0, 1)
    ensures Scan("cba", CharLess) == (0, 1)
  {
    ScanResult([], IntLess);
    ScanOfNonIncreasing([42], IntLess);
    ScanOfNonIncreasing("cba", CharLess);
  }

  /** Without the early exit, 'abcabc' would give (3, 6) instead of (0, 3): the exit decides the result. */
  lemma EarlyExitDecidesResult()
    ensures Scan("abcabc", CharLess) == (0, 3)
    ensures ScanToEnd("abcabc", CharLess, 0, (0, 0), 0) == (3, 6)
  {
    AbcabcScan();
    var x := "abcabc";
    IncreasingSlice(x, CharLess, 0, 3);
    IncreasingSlice(x, CharLess, 0, 4);
    IncreasingSlice(x, CharLess, 3, 6);
    assert !CharLess(x[2], x[3]);
    assert ScanToEnd(x, CharLess, 5, (3, 5), 3) == (3, 6);
    assert ScanToEnd(x, CharLess, 4, (0, 3), 3) == (3, 6);
    assert ScanToEnd(x, CharLess, 3, (0, 3), 0) == (3, 6);
    assert ScanToEnd(x, CharLess, 2, (0, 2), 0) == (3, 6);
    assert ScanToEnd(x, CharLess, 1, (0, 1), 0) == (3, 6);
  }
}
