/**
 * Detection of runs of digits that step by one, as the two digit-run
 * validators of `advanced_password_validation.py` do it: for every digit
 * character `c` of the password, look at the `m` positions after
 * `password.index(c)` (the FIRST occurrence of `c`, not the current position)
 * and reject when each of them holds the next digit of the run.
 *
 * `AnchoredRunRejects` is that search as a specification, and `ScanDigitRuns`
 * is the source's nested loop proved against it. `HasDigitRun` is the
 * property the validators are named after; `AnchoredRunIsSound` shows that a
 * rejection always exhibits such a run, and `AnchoredRunMissesLaterRun` that
 * the converse fails. `StreakScan` is a one-pass scan that decides
 * `HasDigitRun` exactly.
 */
module DigitRuns {
  import opened Text

  /** Ascending runs (1, 2, 3, ...) or descending runs (9, 8, 7, ...). */
  datatype Direction = Increasing | Decreasing

  /** The digit value `k` steps after `d` in direction `dir`. */
  function Offset(d: int, k: int, dir: Direction): int {
    if dir == Increasing then d + k else d - k
  }

  /**
   * The `m` positions after `q` exist and hold the digits that continue the
   * digit at `q` one step at a time: `s[q + i]` is `Offset(s[q], i)` for
   * `i` in 1..m.
   */
  ghost predicate ContinuesFor(s: string, q: nat, m: int, dir: Direction)
    requires q < |s| && IsDigit(s[q])
  {
    && q + m < |s|
    && forall j :: q < j <= q + m ==>
         IsDigit(s[j]) && DigitValue(s[j]) == Offset(DigitValue(s[q]), j - q, dir)
  }

  /**
   * What the source's search rejects: some digit character `c` of `s` whose
   * first occurrence is followed by `m` digits continuing it. With `m < 1`
   * the inner `range(1, m + 1)` is empty and nothing is rejected.
   */
  ghost predicate AnchoredRunRejects(s: string, m: int, dir: Direction)
    ensures AnchoredRunRejects(s, m, dir) ==> 1 <= m < |s|
  {
    && m >= 1
    && exists k :: 0 <= k < |s| && IsDigit(s[k]) && ContinuesFor(s, FirstIndex(s, s[k]), m, dir)
  }

  /** Extending a window by one position: the window of `i` is the window of `i - 1` plus the next digit. */
  lemma ContinuesForStep(s: string, q: nat, i: nat, dir: Direction)
    requires q < |s| && IsDigit(s[q]) && 1 <= i && q + i < |s|
    ensures ContinuesFor(s, q, i, dir) <==>
              && ContinuesFor(s, q, i - 1, dir)
              && IsDigit(s[q + i])
              && DigitValue(s[q + i]) == Offset(DigitValue(s[q]), i, dir)
  {
  }

  /**
   * One pass of the inner loop for the digit at `q`: walk `i` through
   * 1..m, counting the positions `q + i` that hold the next expected digit.
   * A position past the end of `s` raises IndexError, which the source
   * catches and treats as "no run here".
   */
  method ScanWindow(s: string, q: nat, m: int, dir: Direction) returns (hit: bool)
    requires q < |s| && IsDigit(s[q])
    ensures hit <==> m >= 1 && ContinuesFor(s, q, m, dir)
  {
    var d0 := DigitValue(s[q]);
    var count := 0;
    var digit := d0;
    var i := 1;
    while i <= m
      invariant 1 <= i && (m >= 1 ==> i <= m + 1)
      invariant 0 <= count <= i - 1
      invariant m >= 1 ==> count < m
      invariant digit == Offset(d0, count, dir)
      invariant q + i - 1 < |s|
      invariant count == i - 1 <==> ContinuesFor(s, q, i - 1, dir)
    {
      if q + i >= |s| {
        // password[index + i] raises IndexError; the handler ends this window
        return false;
      }
      ContinuesForStep(s, q, i, dir);
      if IsDigit(s[q + i]) {
        if DigitValue(s[q + i]) == Offset(digit, 1, dir) {
          count := count + 1;
          digit := Offset(digit, 1, dir);
          if count >= m {
            return true;
          }
        }
      }
      i := i + 1;
    }
    return false;
  }

  /**
   * The outer loop `for c in password: if c.isdigit(): ...` with the window
   * anchored at `password.index(c)`; `found` says a ValidationError is raised.
   */
  method ScanDigitRuns(s: string, m: int, dir: Direction) returns (found: bool)
    ensures found <==> AnchoredRunRejects(s, m, dir)
  {
    for k := 0 to |s|
      invariant forall j :: 0 <= j < k && IsDigit(s[j]) ==>
                  !(m >= 1 && ContinuesFor(s, FirstIndex(s, s[j]), m, dir))
    {
      var c := s[k];
      if IsDigit(c) {
        var index := FirstIndex(s, c);
        var hit := ScanWindow(s, index, m, dir);
        if hit {
          return true;
        }
      }
    }
    return false;
  }

  /** The `n` positions from `lo` are digits, each one step after the one before. */
  ghost predicate StepRun(s: string, lo: nat, n: nat, dir: Direction) {
    && 1 <= n && lo + n <= |s|
    && (forall j :: lo <= j < lo + n ==> IsDigit(s[j]))
    && (forall j :: lo < j < lo + n ==> DigitValue(s[j]) == Offset(DigitValue(s[j - 1]), 1, dir))
  }

  /** `s` contains `n` adjacent digits stepping by one in direction `dir`. */
  ghost predicate HasDigitRun(s: string, n: nat, dir: Direction) {
    exists lo :: 0 <= lo <= |s| - n && StepRun(s, lo, n, dir)
  }

  /** A window the source accepts as a run is a run of `m + 1` adjacent positions. */
  lemma ContinuesForIsRun(s: string, q: nat, m: nat, dir: Direction)
    requires q < |s| && IsDigit(s[q])
    requires ContinuesFor(s, q, m, dir)
    ensures StepRun(s, q, m + 1, dir)
  {
    forall j | q < j < q + m + 1
      ensures DigitValue(s[j]) == Offset(DigitValue(s[j - 1]), 1, dir)
    {
      if j - 1 > q {
        assert DigitValue(s[j - 1]) == Offset(DigitValue(s[q]), j - 1 - q, dir);
      }
    }
  }

  /**
   * Soundness: whenever the source rejects, the password really contains
   * `m + 1` adjacent digits stepping by one.
   */
  lemma AnchoredRunIsSound(s: string, m: int, dir: Direction)
    requires AnchoredRunRejects(s, m, dir)
    ensures m >= 1 && HasDigitRun(s, m + 1, dir)
  {
    var k :| 0 <= k < |s| && IsDigit(s[k]) && ContinuesFor(s, FirstIndex(s, s[k]), m, dir);
    var q := FirstIndex(s, s[k]);
    ContinuesForIsRun(s, q, m, dir);
  }

  /**
   * Runs do not wrap around: a '9' is never continued upwards (it would need
   * the digit 10) and a '0' never downwards, whatever the window length.
   */
  lemma NoWrapAround(s: string, q: nat, m: int, dir: Direction)
    requires q < |s| && IsDigit(s[q]) && m >= 1
    requires if dir == Increasing then s[q] == '9' else s[q] == '0'
    ensures !ContinuesFor(s, q, m, dir)
  {
    if q + 1 < |s| && IsDigit(s[q + 1]) {
      assert DigitValue(s[q + 1]) != Offset(DigitValue(s[q]), 1, dir);
    }
  }

  /** `str.index` finds the position of a character no earlier position holds. */
  lemma FirstIndexAt(s: string, c: char, r: nat)
    requires r < |s| && s[r] == c
    requires forall j :: 0 <= j < r ==> s[j] != c
    ensures FirstIndex(s, c) == r
  {
  }

  /**
   * The converse fails: in "1231234" the run "1234" starts at the SECOND '1',
   * but the search only ever looks after the first '1', '2' and '3', so a
   * limit of 3 accepts it.
   */
  lemma AnchoredRunMissesLaterRun(s: string)
    requires s == "1231234"
    ensures HasDigitRun(s, 4, Increasing)
    ensures !AnchoredRunRejects(s, 3, Increasing)
  {
    assert StepRun(s, 3, 4, Increasing);
    forall k | 0 <= k < |s| && IsDigit(s[k])
      ensures !ContinuesFor(s, FirstIndex(s, s[k]), 3, Increasing)
    {
      if s[k] == '1' {
        FirstIndexAt(s, '1', 0);
        assert DigitValue(s[3]) != Offset(DigitValue(s[0]), 3, Increasing);
      } else if s[k] == '2' {
        FirstIndexAt(s, '2', 1);
        assert DigitValue(s[3]) != Offset(DigitValue(s[1]), 2, Increasing);
      } else if s[k] == '3' {
        FirstIndexAt(s, '3', 2);
        assert DigitValue(s[3]) != Offset(DigitValue(s[2]), 1, Increasing);
      } else {
        assert s[k] == '4';
        FirstIndexAt(s, '4', 6);
      }
    }
  }

  /**
   * The length of the step run that ends just before position `k` (0 when
   * `s[k - 1]` is not a digit).
   */
  ghost function RunEndingAt(s: string, k: nat, dir: Direction): (n: nat)
    requires k <= |s|
    ensures n <= k
  {
    if k == 0 || !IsDigit(s[k - 1]) then 0
    else if k >= 2 && IsDigit(s[k - 2]) && DigitValue(s[k - 1]) == Offset(DigitValue(s[k - 2]), 1, dir)
    then RunEndingAt(s, k - 1, dir) + 1
    else 1
  }

  /** The `RunEndingAt(s, k)` positions before `k` form a step run. */
  lemma {:induction false} RunEndingAtIsRun(s: string, k: nat, dir: Direction)
    requires k <= |s| && RunEndingAt(s, k, dir) >= 1
    ensures StepRun(s, k - RunEndingAt(s, k, dir), RunEndingAt(s, k, dir), dir)
  {
    if k >= 2 && IsDigit(s[k - 1]) && IsDigit(s[k - 2])
       && DigitValue(s[k - 1]) == Offset(DigitValue(s[k - 2]), 1, dir) {
      if RunEndingAt(s, k - 1, dir) >= 1 {
        RunEndingAtIsRun(s, k - 1, dir);
      }
    }
  }

  /** A step run of `n` positions ending before `lo + n` makes `RunEndingAt(s, lo + n)` at least `n`. */
  lemma {:induction false} StepRunBoundsRunEndingAt(s: string, lo: nat, n: nat, dir: Direction)
    requires StepRun(s, lo, n, dir)
    ensures RunEndingAt(s, lo + n, dir) >= n
  {
    if n > 1 {
      assert StepRun(s, lo, n - 1, dir);
      StepRunBoundsRunEndingAt(s, lo, n - 1, dir);
    }
  }

  /** Any stretch of a step run that ends where it ends is a step run. */
  lemma StepRunSuffix(s: string, lo: nat, n: nat, k: nat, dir: Direction)
    requires StepRun(s, lo, n, dir) && 1 <= k <= n
    ensures StepRun(s, lo + n - k, k, dir)
  {
  }

  /**
   * The scan the digit-run rules evidently intend: walk the password once,
   * keeping the length of the current step run, and reject as soon as it
   * reaches `m + 1`. With `m < 1` it never rejects, as the source does not.
   */
  method StreakScan(s: string, m: int, dir: Direction) returns (found: bool)
    ensures found <==> m >= 1 && HasDigitRun(s, m + 1, dir)
  {
    if m < 1 {
      return false;
    }
    var streak := 0;
    for k := 0 to |s|
      invariant streak == RunEndingAt(s, k, dir)
      invariant forall j :: 0 <= j <= k ==> RunEndingAt(s, j, dir) <= m
    {
      if !IsDigit(s[k]) {
        streak := 0;
      } else if streak > 0 && DigitValue(s[k]) == Offset(DigitValue(s[k - 1]), 1, dir) {
        streak := streak + 1;
      } else {
        streak := 1;
      }
      if streak >= m + 1 {
        RunEndingAtIsRun(s, k + 1, dir);
        StepRunSuffix(s, k + 1 - streak, streak, m + 1, dir);
        return true;
      }
    }
    if HasDigitRun(s, m + 1, dir) {
      var lo :| 0 <= lo <= |s| - (m + 1) && StepRun(s, lo, m + 1, dir);
      StepRunBoundsRunEndingAt(s, lo, m + 1, dir);
      assert false;
    }
    return false;
  }
}
