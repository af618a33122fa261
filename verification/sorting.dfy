/**
 * The natural-order comparator of sorting.go: two cursors walk both strings in
 * step; where both stand on a digit the whole digit runs are compared by value,
 * elsewhere single characters are compared; when one string runs out the
 * shorter string is the smaller.
 */
module Sorting {
  import opened GoStrings

  /** The end of the run of digits that starts at `i` (or `i` itself when `s[i]` is no digit). */
  function RunEnd(s: string, i: nat): (j: nat)
    requires i <= |s|
    ensures i <= j <= |s|
    ensures i < |s| && IsDigit(s[i]) ==> i < j
    ensures forall k :: i <= k < j ==> IsDigit(s[k])
    ensures j == |s| || !IsDigit(s[j])
    decreases |s| - i
  {
    if i < |s| && IsDigit(s[i]) then RunEnd(s, i + 1) else i
  }

  /** The outcome of the comparison loop once its cursors stand at `i` in `s1` and `j` in `s2`. */
  function NaturalFrom(s1: string, s2: string, i: nat, j: nat): bool
    requires i <= |s1| && j <= |s2|
    decreases |s1| - i
  {
    if i < |s1| && j < |s2| then
      if IsDigit(s1[i]) && IsDigit(s2[j]) then
        var e1, e2 := RunEnd(s1, i), RunEnd(s2, j);
        var n1, n2 := DecimalValue(s1[i..e1]), DecimalValue(s2[j..e2]);
        if n1 != n2 then n1 < n2 else NaturalFrom(s1, s2, e1, e2)
      else if s1[i] != s2[j] then s1[i] < s2[j]
      else NaturalFrom(s1, s2, i + 1, j + 1)
    else |s1| < |s2|
  }

  /** `NaturalSort(s1, s2)`: whether `s1` sorts strictly before `s2`. */
  predicate NaturalLess(s1: string, s2: string) {
    NaturalFrom(s1, s2, 0, 0)
  }

  /** extractNumber: the value of the digit run at `i` and the position just after it. */
  method ExtractNumber(s: string, i: nat) returns (num: int, j: nat)
    requires i <= |s|
    ensures i <= j <= |s|
    ensures i < |s| && IsDigit(s[i]) ==> i < j
    ensures forall k :: i <= k < j ==> IsDigit(s[k])
    ensures j == |s| || !IsDigit(s[j])
    ensures num == DecimalValue(s[i..j])
  {
    j := i;
    while j < |s| && IsDigit(s[j])
      invariant i <= j <= |s|
      invariant forall k :: i <= k < j ==> IsDigit(s[k])
    {
      j := j + 1;
    }
    var parsed := Atoi(s[i..j]);
    assert AllDigits(s[i..j]);
    num := if parsed.Some? then parsed.value else 0;
  }

  /** NaturalSort, with the loop of sorting.go:10-28; both cursors advance on every iteration. */
  method NaturalSort(s1: string, s2: string) returns (less: bool)
    ensures less == NaturalLess(s1, s2)
  {
    var i, j := 0, 0;
    while i < |s1| && j < |s2|
      invariant i <= |s1| && j <= |s2|
      invariant NaturalFrom(s1, s2, i, j) == NaturalLess(s1, s2)
      decreases |s1| - i
    {
      var c1, c2 := s1[i], s2[j];
      if IsDigit(c1) && IsDigit(c2) {
        var num1, nextI := ExtractNumber(s1, i);
        var num2, nextJ := ExtractNumber(s2, j);
        assert nextI == RunEnd(s1, i) && nextJ == RunEnd(s2, j);
        if num1 != num2 {
          return num1 < num2;
        }
        i, j := nextI, nextJ;
      } else {
        if c1 != c2 {
          return c1 < c2;
        }
        i, j := i + 1, j + 1;
      }
    }
    return |s1| < |s2|;
  }

  lemma {:induction false} NaturalFromSame(s: string, i: nat)
    requires i <= |s|
    ensures !NaturalFrom(s, s, i, i)
    decreases |s| - i
  {
    if i < |s| {
      if IsDigit(s[i]) {
        NaturalFromSame(s, RunEnd(s, i));
      } else {
        NaturalFromSame(s, i + 1);
      }
    }
  }

  /** No string sorts before itself. */
  lemma NaturalIrreflexive(s: string)
    ensures !NaturalLess(s, s)
  {
    NaturalFromSame(s, 0);
  }

  lemma {:induction false} NaturalFromAsymmetric(a: string, b: string, i: nat, j: nat)
    requires i <= |a| && j <= |b|
    ensures !(NaturalFrom(a, b, i, j) && NaturalFrom(b, a, j, i))
    decreases |a| - i
  {
    if i < |a| && j < |b| {
      if IsDigit(a[i]) && IsDigit(b[j]) {
        NaturalFromAsymmetric(a, b, RunEnd(a, i), RunEnd(b, j));
      } else if a[i] == b[j] {
        NaturalFromAsymmetric(a, b, i + 1, j + 1);
      }
    }
  }

  /** Two strings never sort before each other. */
  lemma NaturalAsymmetric(a: string, b: string)
    ensures !(NaturalLess(a, b) && NaturalLess(b, a))
  {
    NaturalFromAsymmetric(a, b, 0, 0);
  }

  /** A leading part common to both strings and ending in a non-digit is stepped over without deciding anything. */
  lemma {:induction false} NaturalSharedPrefix(s1: string, s2: string, m: nat, i: nat)
    requires m <= |s1| && m <= |s2| && s1[..m] == s2[..m]
    requires m == 0 || !IsDigit(s1[m - 1])
    requires i <= m
    ensures NaturalFrom(s1, s2, i, i) == NaturalFrom(s1, s2, m, m)
    decreases m - i
  {
    if i < m {
      assert s1[i] == s1[..m][i] == s2[i];
      if IsDigit(s1[i]) {
        RunEndInPrefix(s1, s2, m, i);
        var e := RunEnd(s1, i);
        forall k | i <= k < e
          ensures s1[k] == s2[k]
        {
          assert s1[k] == s1[..m][k];
        }
        assert s1[i..e] == s2[i..e];
        NaturalSharedPrefix(s1, s2, m, e);
      } else {
        NaturalSharedPrefix(s1, s2, m, i + 1);
      }
    }
  }

  lemma {:induction false} RunEndInPrefix(s1: string, s2: string, m: nat, i: nat)
    requires m <= |s1| && m <= |s2| && s1[..m] == s2[..m]
    requires m == 0 || !IsDigit(s1[m - 1])
    requires i < m
    ensures RunEnd(s1, i) == RunEnd(s2, i) < m
    decreases m - i
  {
    assert s1[i] == s1[..m][i] == s2[i];
    if IsDigit(s1[i]) {
      RunEndInPrefix(s1, s2, m, i + 1);
    }
  }

  /** A digit run of length `n` at `i` followed by the end or by a non-digit ends exactly at `i + n`. */
  lemma {:induction false} RunEndOfRun(s: string, i: nat, n: nat)
    requires i + n <= |s|
    requires forall k :: i <= k < i + n ==> IsDigit(s[k])
    requires i + n == |s| || !IsDigit(s[i + n])
    ensures RunEnd(s, i) == i + n
  {
  }

  /** Both strings share a leading part up to `m`; behind it stand digit runs of lengths `a` and `b`. */
  lemma {:induction false} NaturalAtRuns(s1: string, s2: string, m: nat, a: nat, b: nat)
    requires m <= |s1| && m <= |s2| && s1[..m] == s2[..m]
    requires m == 0 || !IsDigit(s1[m - 1])
    requires 0 < a && m + a <= |s1| && 0 < b && m + b <= |s2|
    requires forall k :: m <= k < m + a ==> IsDigit(s1[k])
    requires forall k :: m <= k < m + b ==> IsDigit(s2[k])
    requires m + a == |s1| || !IsDigit(s1[m + a])
    requires m + b == |s2| || !IsDigit(s2[m + b])
    ensures var n1, n2 := DecimalValue(s1[m..m + a]), DecimalValue(s2[m..m + b]);
      NaturalLess(s1, s2) == if n1 != n2 then n1 < n2 else NaturalFrom(s1, s2, m + a, m + b)
  {
    assert NaturalLess(s1, s2) == NaturalFrom(s1, s2, m, m) by {
      NaturalSharedPrefix(s1, s2, m, 0);
    }
    assert RunEnd(s1, m) == m + a by { RunEndOfRun(s1, m, a); }
    assert RunEnd(s2, m) == m + b by { RunEndOfRun(s2, m, b); }
  }

  /** Splits `p + x + u` into its parts for NaturalAtRuns. */
  lemma {:induction false} ConcatFacts(p: string, x: string, u: string)
    requires p == [] || !IsDigit(p[|p| - 1])
    requires AllDigits(x)
    requires u == [] || !IsDigit(u[0])
    ensures var s := p + x + u;
      && s[..|p|] == p
      && (p == [] || !IsDigit(s[|p| - 1]))
      && s[|p|..|p| + |x|] == x
      && (forall k :: |p| <= k < |p| + |x| ==> IsDigit(s[k]))
      && (|p| + |x| == |s| || !IsDigit(s[|p| + |x|]))
  {
    var s := p + x + u;
    assert forall k :: |p| <= k < |p| + |x| ==> s[k] == x[k - |p|];
    assert |p| + |x| < |s| ==> s[|p| + |x|] == u[0];
  }

  /**
   * Digit runs at the same place behind a common leading part are compared by
   * numeric value: with different values, the smaller value sorts first,
   * whatever follows.
   */
  lemma {:induction false} NaturalNumericRun(p: string, x: string, y: string, u: string, v: string)
    requires p == [] || !IsDigit(p[|p| - 1])
    requires |x| > 0 && |y| > 0 && AllDigits(x) && AllDigits(y)
    requires u == [] || !IsDigit(u[0])
    requires v == [] || !IsDigit(v[0])
    requires DecimalValue(x) != DecimalValue(y)
    ensures NaturalLess(p + x + u, p + y + v) == (DecimalValue(x) < DecimalValue(y))
  {
    var s1, s2 := p + x + u, p + y + v;
    ConcatFacts(p, x, u);
    ConcatFacts(p, y, v);
    NaturalAtRuns(s1, s2, |p|, |x|, |y|);
  }

  /**
   * With equal numeric values the comparison goes on behind both runs,
   * whatever their lengths: both strings share a leading part up to `m`, and
   * behind it stand maximal digit runs of lengths `a` and `b`.
   */
  lemma NaturalEqualRuns(s1: string, s2: string, m: nat, a: nat, b: nat)
    requires m <= |s1| && m <= |s2| && s1[..m] == s2[..m]
    requires m == 0 || !IsDigit(s1[m - 1])
    requires 0 < a && m + a <= |s1| && 0 < b && m + b <= |s2|
    requires forall k :: m <= k < m + a ==> IsDigit(s1[k])
    requires forall k :: m <= k < m + b ==> IsDigit(s2[k])
    requires m + a == |s1| || !IsDigit(s1[m + a])
    requires m + b == |s2| || !IsDigit(s2[m + b])
    requires DecimalValue(s1[m..m + a]) == DecimalValue(s2[m..m + b])
    ensures NaturalLess(s1, s2) == NaturalFrom(s1, s2, m + a, m + b)
  {
    NaturalAtRuns(s1, s2, m, a, b);
  }

  /** "item2" sorts before "item10", and not the other way round. */
  lemma NaturalItemExample()
    ensures NaturalLess("item2", "item10") && !NaturalLess("item10", "item2")
  {
    assert DecimalValue("2") == 2;
    assert DecimalValue("10") == 10 by {
      assert "10"[..1] == "1";
    }
    assert "item2" == "item" + "2" + "";
    assert "item10" == "item" + "10" + "";
    NaturalNumericRun("item", "2", "10", "", "");
    NaturalNumericRun("item", "10", "2", "", "");
  }

  /** Equal values, then the total lengths decide: "1" sorts before "01". */
  lemma NaturalLeadingZeroExample()
    ensures NaturalLess("1", "01") && !NaturalLess("01", "1")
  {
    assert DecimalValue("01") == 1 by {
      assert "01"[..1] == "0";
    }
    assert "1"[0..1] == "1" && "01"[0..2] == "01";
    NaturalEqualRuns("1", "01", 0, 1, 2);
    NaturalEqualRuns("01", "1", 0, 2, 1);
  }

  predicate NoDigits(s: string) {
    forall k :: 0 <= k < |s| ==> !IsDigit(s[k])
  }

  /** Lexicographic order on characters, a proper prefix first: the reference order for digit-free strings. */
  predicate LexLess(a: string, b: string)
    decreases |a|
  {
    if a == [] then b != []
    else if b == [] then false
    else if a[0] != b[0] then a[0] < b[0]
    else LexLess(a[1..], b[1..])
  }

  lemma {:induction false} NaturalFromLex(a: string, b: string, i: nat)
    requires NoDigits(a) || NoDigits(b)
    requires i <= |a| && i <= |b|
    ensures NaturalFrom(a, b, i, i) == LexLess(a[i..], b[i..])
    decreases |a| - i
  {
    if i < |a| && i < |b| {
      assert a[i..][0] == a[i] && b[i..][0] == b[i];
      assert a[i..][1..] == a[i + 1..] && b[i..][1..] == b[i + 1..];
      NaturalFromLex(a, b, i + 1);
    }
  }

  /** When either string has no digit, NaturalSort is plain lexicographic order with a proper prefix first. */
  lemma NaturalLexicographic(a: string, b: string)
    requires NoDigits(a) || NoDigits(b)
    ensures NaturalLess(a, b) == LexLess(a, b)
  {
    NaturalFromLex(a, b, 0);
    assert a[0..] == a && b[0..] == b;
  }

  /**
   * NaturalSort is not transitive, so it is not the strict weak order that Go's
   * sort.Slice expects: "1b" < "0001" < "0001a" < "1b".
   */
  lemma NaturalNotTransitive()
    ensures NaturalLess("1b", "0001")
    ensures NaturalLess("0001", "0001a")
    ensures NaturalLess("0001a", "1b")
  {
    PaddedOne();
    assert NaturalLess("1b", "0001") by {
      assert "1b"[0..1] == "1" && "0001"[0..4] == "0001";
      NaturalEqualRuns("1b", "0001", 0, 1, 4);
    }
    assert NaturalLess("0001", "0001a") by {
      assert "0001"[0..4] == "0001" && "0001a"[0..4] == "0001";
      NaturalEqualRuns("0001", "0001a", 0, 4, 4);
    }
    assert "0001a"[0..4] == "0001" && "1b"[0..1] == "1";
    NaturalEqualRuns("0001a", "1b", 0, 4, 1);
  }

  lemma PaddedOne()
    ensures DecimalValue("0001") == 1
  {
    assert "0001"[..3] == "000" && "000"[..2] == "00" && "00"[..1] == "0";
  }
}
