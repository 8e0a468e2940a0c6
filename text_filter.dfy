/**
 * Keeping the characters of a string that satisfy a predicate, in order.
 * Both currency clean-ups of the system are instances: the server's
 * replace(/[^0-9.-]+/g, "") and the client's loop that drops '$' and ','.
 */
module TextFilter {

  function Filter(s: string, keep: char -> bool): string
    decreases |s|
  {
    if s == [] then [] else (if keep(s[0]) then [s[0]] else []) + Filter(s[1..], keep)
  }

  /** Filtering a concatenation filters each part: kept characters stay in order. */
  lemma {:induction false} FilterAppend(a: string, b: string, keep: char -> bool)
    ensures Filter(a + b, keep) == Filter(a, keep) + Filter(b, keep)
    decreases |a|
  {
    if a != [] {
      assert (a + b)[1..] == a[1..] + b;
      FilterAppend(a[1..], b, keep);
    } else {
      assert a + b == b;
    }
  }

  /** Every character of the result is one the predicate keeps. */
  lemma {:induction false} FilterOnlyKept(s: string, keep: char -> bool)
    ensures forall i :: 0 <= i < |Filter(s, keep)| ==> keep(Filter(s, keep)[i])
    decreases |s|
  {
    if s != [] {
      FilterOnlyKept(s[1..], keep);
    }
  }

  /** A string whose characters are all kept is its own filtering. */
  lemma {:induction false} FilterKeepsAll(s: string, keep: char -> bool)
    requires forall i :: 0 <= i < |s| ==> keep(s[i])
    ensures Filter(s, keep) == s
    decreases |s|
  {
    if s != [] {
      FilterKeepsAll(s[1..], keep);
      assert [s[0]] + s[1..] == s;
    }
  }

  /** Filtering twice is filtering once. */
  lemma FilterIdempotent(s: string, keep: char -> bool)
    ensures Filter(Filter(s, keep), keep) == Filter(s, keep)
  {
    FilterOnlyKept(s, keep);
    FilterKeepsAll(Filter(s, keep), keep);
  }

  /**
   * A kept character occurs as often in the result as in the input, a
   * dropped one not at all.
   */
  lemma {:induction false} FilterCounts(s: string, keep: char -> bool, c: char)
    ensures multiset(Filter(s, keep))[c] == if keep(c) then multiset(s)[c] else 0
    decreases |s|
  {
    if s != [] {
      FilterCounts(s[1..], keep, c);
      assert s == [s[0]] + s[1..];
      assert multiset(s) == multiset([s[0]]) + multiset(s[1..]);
    }
  }
}
