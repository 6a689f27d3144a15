# Longest increasing substring — Dafny model

This project models `src/lis.py`. That module locates an increasing
contiguous run ("substring") in a sequence of comparable values. It has
three parts:

- `is_increasing` checks every adjacent pair.
- `substring_length` gives `end - start` of a half-open pair.
- `longest_increasing_substring` makes one left-to-right scan. It keeps the
  pair `best` and the window start `lower`. At each step it either moves
  `best` to the grown window or resets `lower`. It stops early once `best`
  is at least as long as the rest of the sequence from `lower`.

Elements have any type `T`. The source's `Comparable` protocol becomes a
comparison `less: (T, T) -> bool` passed to every operation. No order laws
are assumed of `less`: the code only ever applies `<` to adjacent elements.
The string examples use `<` on `char`, the list examples `<` on `int`.

Files:

- `lis.dfy` (module `Lis`): the code as written. The loop of
  `longest_increasing_substring` is the method `LongestIncreasingSubstring`.
  It is proved equal to the recursive function `Scan`, which performs the
  same iterations one call each. The lemmas about `Scan` state what the
  result is.
- `lis_examples.dfy` (module `LisExamples`): the documented examples,
  evaluated on the model.
- `lis_fixed.dfy` (module `LisFixed`): the docstring's promise, "the
  (leftmost) longest increasing substring", as the predicate
  `LeftmostLongest`. It holds inputs on which the code as written breaks
  the promise, and a corrected scan proved to keep it (see Findings).

## Model

| member | source | states |
|---|---|---|
| `Lis.IsIncreasing` | src/lis.py:43-46 | returns true exactly when every adjacent pair of the sequence is ordered by `less`; a false result means there is a first unordered adjacent pair (every pair before it ordered), the pair at which the source returns `False` |
| `Lis.IncreasingSlice` | src/lis.py:43-46 | the window `x[lo..hi]` is increasing exactly when every adjacent pair of `x` inside `[lo, hi)` is ordered |
| `Lis.SubstringLengthIsSliceLength` | src/lis.py:49-51 | for a pair lying inside `x`, `end - start` is the length of the slice it denotes, and so is not negative |
| `Lis.StepPreserves` | src/lis.py:78-82 | one iteration keeps the loop invariant in both branches: `lower < j <= len(x)`, `x[lower:j]` increasing, `best` inside `x[:j]`, increasing and non-empty |
| `Lis.WindowExtendsIff` | src/lis.py:79-82 | the window test fails exactly when the newly added pair `x[j-2], x[j-1]` is unordered; the first iteration never resets, and a reset puts `lower` on the element that broke the run |
| `Lis.ScanFromResult` | src/lis.py:77-85 | from any state satisfying the loop invariant, the scan returns a pair inside `x` whose slice is increasing, of length at least 1 when `x` is not empty |
| `Lis.ScanResult` | src/lis.py:75-85 | the result is `(0, 0)` exactly when `x` is empty; otherwise it is a pair inside `x` of length at least 1 whose slice is increasing |
| `Lis.LongestIncreasingSubstring` | src/lis.py:61-85 | the loop, with its unconditional update of `best` and its early exit, returns exactly `Scan(x)`: a pair inside `x` with an increasing slice, `(0, 0)` on empty input and non-empty otherwise |
| `Lis.ScanOfNonIncreasing` | src/lis.py:77-84 | when no adjacent pair is ordered (a decreasing or all-equal sequence), the result is `(0, 1)` |
| `Lis.ScanFromNonIncreasing` | src/lis.py:77-84 | on such a sequence every later window breaks, so `best` stays `(0, 1)` until the scan ends |
| `Lis.FindIncreasingUpperLimit` | src/lis.py:54-58 | returns the first index `i` whose prefix `x[:i]` is not increasing; otherwise `len(x)`, which happens exactly when `x[:len(x)-1]` is increasing |
| `LisExamples.IsIncreasingExamples` | src/lis.py:32-41 | `[]`, `[42]`, `[1, 4, 6]` and `"abc"` are increasing and `"cba"` is not |
| `LisExamples.AbcabcScan` | src/lis.py:67-68 | `'abcabc'` gives `(0, 3)` |
| `LisExamples.AbabcScan` | src/lis.py:69-70 | `'ababc'` gives `(2, 5)` |
| `LisExamples.NumbersScanTail` | src/lis.py:71-72 | on `[12, 45, 32, 65, 78, 23, 35, 45, 57]` the scan from iteration 5 on (window reset at 23) ends with `(5, 9)` |
| `LisExamples.NumbersScan` | src/lis.py:71-72 | `[12, 45, 32, 65, 78, 23, 35, 45, 57]` gives `(5, 9)` |
| `LisExamples.ScanExamples` | src/lis.py:67-72 | the three documented results together |
| `LisExamples.ScanBoundaryExamples` | src/lis.py:75-84 | `[]` gives `(0, 0)`, `[42]` gives `(0, 1)`, `"cba"` gives `(0, 1)` |
| `LisExamples.EarlyExitDecidesResult` | src/lis.py:83-84 | the early exit is not only an optimisation: with it `'abcabc'` gives `(0, 3)`, without it the same loop would give `(3, 6)` |
| `LisFixed.LeftmostLongestUnique` | src/lis.py:63-65 | at most one pair is the leftmost longest increasing substring of a sequence |
| `LisFixed.NoRunAcrossBreak` | src/lis.py:79-82 | no increasing substring contains an unordered adjacent pair, so none crosses a window reset |
| `LisFixed.RunsEndingInWindow` | src/lis.py:79-82 | every increasing substring that ends at the current step starts at or after `lower` |
| `LisFixed.FixedStep` | src/lis.py:77-84 | in the corrected scan, each iteration keeps its invariant: the window is the longest increasing substring ending at `j`, and `best` is the leftmost longest ending at or before `j` |
| `LisFixed.FixedExit` | src/lis.py:83-85 | the early-exit test (or reaching the end) is sound for the corrected scan: `best` is then the leftmost longest increasing substring of the whole sequence |
| `LisFixed.LeftmostLongestIncreasingSubstring` | src/lis.py:61-85 | the scan with `best` replaced only by a strictly longer window returns the leftmost longest increasing substring, as the docstring promises |
| `LisFixed.ScanNotLongest` | src/lis.py:79-80 | on `[1, 2, 3, 0, 1, 0, 0]` the code as written returns `(3, 5)` although `(0, 3)` is a longer increasing substring |
| `LisFixed.ScanNotLeftmostTail` | src/lis.py:79-80 | on `[1, 2, 3, 0, 1, 2, 0]`, after the reset at index 3 the window replaces `(0, 3)` and the scan ends with `(3, 6)` |
| `LisFixed.ScanNotLeftmost` | src/lis.py:79-80 | on `[1, 2, 3, 0, 1, 2, 0]` the code as written returns `(3, 6)` although `(0, 3)` is as long and further left |

## Left out

- The `Comparable` protocol, `runtime_checkable`, the `TypeVar` bound and the unused `re.sub` import (src/lis.py:9-25) are Python typing machinery. They become the `less` parameter. `less` is a total function, so a comparison that raises (Python's `TypeError` on values that cannot be ordered, which lines 44 and 79 let propagate) is not modelled.
- `Lis.FindIncreasingUpperLimit`: requires a non-empty sequence. On an empty one the source raises, because its loop variable is never bound (src/lis.py:58). The function is never called, so no intent beyond what the loop computes is stated.
- Running time and the amount of comparison work are not modelled; nothing in the source states or checks them.
- The leftmost-longest promise of the docstring (src/lis.py:63-65) is not claimed for the code as written, which breaks it (see Findings).
- The early exit (src/lis.py:83-84) is part of what the code computes, not only a speed-up: with it `'abcabc'` gives `(0, 3)`, without it the same loop would give `(3, 6)` (`LisExamples.EarlyExitDecidesResult`). And `best` can get shorter: on `[1, 2, 3, 0, 1, 0, 0]` it goes from `(0, 3)` to `(3, 5)` (`LisFixed.ScanNotLongest`).

## Findings

| source | as written | input that shows it | evidently intended | confidence | as-written member | corrected member |
|---|---|---|---|---|---|---|
| src/lis.py:79-80 | `best` becomes the current window whenever the window is increasing, even when the window is shorter than `best` | `[1, 2, 3, 0, 1, 0, 0]` returns `(3, 5)`; `(0, 3)` is longer | return the longest increasing substring (src/lis.py:63-65) | not executed | `LisFixed.ScanNotLongest` | `LisFixed.LeftmostLongestIncreasingSubstring` |
| src/lis.py:79-80 | the same unconditional update lets a later window of equal length replace an earlier `best` | `[1, 2, 3, 0, 1, 2, 0]` returns `(3, 6)`; `(0, 3)` is as long and further left | return the leftmost of the longest (src/lis.py:63) | not executed | `LisFixed.ScanNotLeftmost` | `LisFixed.LeftmostLongestIncreasingSubstring` |

The corrected scan keeps the source's loop, window reset and early exit.
It only guards the update with `substring_length((lower, j)) >
substring_length(best)`. With that guard the early exit is sound:
`LisFixed.FixedExit` proves that no increasing substring reaching past the
current step can be longer than the rest of the sequence from `lower`.
