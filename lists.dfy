/**
 * Sequence operations the pages apply to their state: `Array.prototype.filter`,
 * `slice(0, n)`, and the "toggle membership" idiom used for saved
 * opportunities and favourite businesses
 * (`xs.includes(x) ? xs.filter(y => y !== x) : [...xs, x]`).
 */
module Lists {

  /** `r` is obtained from `s` by deleting elements: order is preserved. */
  predicate IsSubsequence<T(==)>(r: seq<T>, s: seq<T>)
    decreases |s|
  {
    r == [] ||
    (s != [] &&
     ((r[0] == s[0] && IsSubsequence(r[1..], s[1..])) || IsSubsequence(r, s[1..])))
  }

  /** No value occurs twice. */
  predicate NoDuplicates<T(==)>(s: seq<T>) {
    forall i, j :: 0 <= i < j < |s| ==> s[i] != s[j]
  }

  /** `s.filter(p)`: the elements of `s` that satisfy `p`, in their original order. */
  function Filter<T>(s: seq<T>, p: T -> bool): (r: seq<T>)
    ensures |r| <= |s|
    ensures forall i :: 0 <= i < |r| ==> r[i] in s && p(r[i])
    ensures forall i :: 0 <= i < |s| ==> (s[i] in r <==> p(s[i]))
  {
    if s == [] then [] else (if p(s[0]) then [s[0]] else []) + Filter(s[1..], p)
  }

  /** `s.slice(0, n)`. */
  function Take<T>(s: seq<T>, n: nat): (r: seq<T>)
    ensures |r| == if |s| <= n then |s| else n
    ensures |s| <= n ==> r == s
    ensures r <= s
  {
    if |s| <= n then s else s[..n]
  }

  /** `s.filter(y => y !== x)`: every occurrence of `x` removed. */
  function Without<T(==)>(s: seq<T>, x: T): (r: seq<T>)
    ensures x !in r
    ensures forall i :: 0 <= i < |r| ==> r[i] in s
    ensures forall i :: 0 <= i < |s| && s[i] != x ==> s[i] in r
  {
    Filter(s, y => y != x)
  }

  /** `s.includes(x) ? s.filter(y => y !== x) : [...s, x]`. */
  function Toggle<T(==)>(s: seq<T>, x: T): (r: seq<T>)
    ensures x in s ==> r == Without(s, x)
    ensures x !in s ==> r == s + [x]
    ensures x in r <==> x !in s
  {
    if x in s then Without(s, x) else s + [x]
  }

  /** Filtering distributes over concatenation: the result is built element by element, in order. */
  lemma {:induction false} FilterAppend<T>(a: seq<T>, b: seq<T>, p: T -> bool)
    ensures Filter(a + b, p) == Filter(a, p) + Filter(b, p)
  {
    if a == [] {
      assert a + b == b;
    } else {
      assert (a + b)[0] == a[0];
      assert (a + b)[1..] == a[1..] + b;
      FilterAppend(a[1..], b, p);
    }
  }

  /** The filtered list keeps the relative order of the original. */
  lemma {:induction false} FilterIsSubsequence<T>(s: seq<T>, p: T -> bool)
    ensures IsSubsequence(Filter(s, p), s)
  {
    if s != [] {
      FilterIsSubsequence(s[1..], p);
      var r := Filter(s, p);
      if p(s[0]) {
        assert r[0] == s[0] && r[1..] == Filter(s[1..], p);
      } else {
        assert r == Filter(s[1..], p);
      }
    }
  }

  /** Each value occurs in the filtered list exactly as often as in the original if it passes, else never. */
  lemma {:induction false} FilterCount<T>(s: seq<T>, p: T -> bool, x: T)
    ensures multiset(Filter(s, p))[x] == if p(x) then multiset(s)[x] else 0
  {
    if s != [] {
      FilterCount(s[1..], p, x);
      assert s == [s[0]] + s[1..];
      assert multiset(s) == multiset([s[0]]) + multiset(s[1..]);
    }
  }

  /**
   * Two filters in a row are one filter by both predicates. This is the law
   * behind chained `.filter` calls such as the business list's. Proofs about
   * one such chain reason through `FilterCount` instead, which does not need
   * the combined predicate to be equal to a given lambda.
   */
  lemma {:induction false} FilterFilter<T>(s: seq<T>, p: T -> bool, q: T -> bool)
    ensures Filter(Filter(s, p), q) == Filter(s, x => p(x) && q(x))
  {
    if s != [] {
      FilterFilter(s[1..], p, q);
      FilterAppend(if p(s[0]) then [s[0]] else [], Filter(s[1..], p), q);
    }
  }

  /** A prefix of a subsequence is still a subsequence. */
  lemma {:induction false} PrefixIsSubsequence<T>(t: seq<T>, r: seq<T>, s: seq<T>)
    requires t <= r && IsSubsequence(r, s)
    ensures IsSubsequence(t, s)
    decreases |s|
  {
    if t != [] {
      assert r != [] && s != [];
      if r[0] == s[0] && IsSubsequence(r[1..], s[1..]) {
        assert t[0] == s[0] && t[1..] <= r[1..];
        PrefixIsSubsequence(t[1..], r[1..], s[1..]);
      } else {
        PrefixIsSubsequence(t, r, s[1..]);
      }
    }
  }

  /** A predicate that holds everywhere keeps the list as it is. */
  lemma {:induction false} FilterAll<T>(s: seq<T>, p: T -> bool)
    requires forall i :: 0 <= i < |s| ==> p(s[i])
    ensures Filter(s, p) == s
  {
    if s != [] {
      FilterAll(s[1..], p);
    }
  }

  /** Filtering a second time with the same predicate changes nothing. */
  lemma FilterIdempotent<T>(s: seq<T>, p: T -> bool)
    ensures Filter(Filter(s, p), p) == Filter(s, p)
  {
    FilterAll(Filter(s, p), p);
  }

  /** Filtering a list without duplicates gives a list without duplicates. */
  lemma {:induction false} FilterNoDuplicates<T>(s: seq<T>, p: T -> bool)
    requires NoDuplicates(s)
    ensures NoDuplicates(Filter(s, p))
  {
    if s != [] {
      assert NoDuplicates(s[1..]) by {
        forall i, j | 0 <= i < j < |s[1..]| ensures s[1..][i] != s[1..][j] {
          assert s[1..][i] == s[i + 1] && s[1..][j] == s[j + 1];
        }
      }
      FilterNoDuplicates(s[1..], p);
      assert s[0] !in s[1..] by {
        forall k | 0 <= k < |s[1..]| ensures s[1..][k] != s[0] {
          assert s[1..][k] == s[k + 1];
        }
      }
    }
  }

  /** Removing a value that does not occur leaves the list unchanged. */
  lemma WithoutAbsent<T>(s: seq<T>, x: T)
    requires x !in s
    ensures Without(s, x) == s
  {
    FilterAll(s, y => y != x);
  }

  /** Removal keeps every other value with its multiplicity: it deletes `x` and nothing else. */
  lemma WithoutCount<T>(s: seq<T>, x: T, y: T)
    ensures multiset(Without(s, x))[y] == if y == x then 0 else multiset(s)[y]
  {
    FilterCount(s, z => z != x, y);
  }

  /** Removal preserves order. */
  lemma WithoutIsSubsequence<T>(s: seq<T>, x: T)
    ensures IsSubsequence(Without(s, x), s)
  {
    FilterIsSubsequence(s, y => y != x);
  }

  /** Toggling an absent value twice restores the list exactly. */
  lemma ToggleTwiceAbsent<T>(s: seq<T>, x: T)
    requires x !in s
    ensures Toggle(Toggle(s, x), x) == s
  {
    var p := y => y != x;
    FilterAppend(s, [x], p);
    WithoutAbsent(s, x);
    assert Filter([x], p) == [];
  }

  /** Toggling a present value twice keeps the same members, with `x` moved to the end. */
  lemma ToggleTwicePresent<T>(s: seq<T>, x: T)
    requires x in s
    ensures Toggle(Toggle(s, x), x) == Without(s, x) + [x]
    ensures forall i :: 0 <= i < |s| ==> s[i] in Toggle(Toggle(s, x), x)
    ensures forall y :: y in Toggle(Toggle(s, x), x) ==> y in s
  {
  }

  /** A toggle keeps a list free of duplicates. */
  lemma ToggleNoDuplicates<T>(s: seq<T>, x: T)
    requires NoDuplicates(s)
    ensures NoDuplicates(Toggle(s, x))
  {
    if x in s {
      FilterNoDuplicates(s, y => y != x);
    }
  }

  /** Removing a value keeps a list free of duplicates. */
  lemma WithoutNoDuplicates<T>(s: seq<T>, x: T)
    requires NoDuplicates(s)
    ensures NoDuplicates(Without(s, x))
  {
    FilterNoDuplicates(s, y => y != x);
  }

  /** Deleting elements twice is deleting elements once. */
  lemma {:induction false} SubsequenceTransitive<T>(a: seq<T>, b: seq<T>, c: seq<T>)
    requires IsSubsequence(a, b) && IsSubsequence(b, c)
    ensures IsSubsequence(a, c)
    decreases |c|
  {
    if a != [] {
      if IsSubsequence(b, c[1..]) {
        SubsequenceTransitive(a, b, c[1..]);
      } else if a[0] == b[0] && IsSubsequence(a[1..], b[1..]) {
        SubsequenceTransitive(a[1..], b[1..], c[1..]);
      } else {
        SubsequenceTransitive(a, b[1..], c[1..]);
      }
    }
  }

  /** A subsequence is never longer than its source, and one as long as it is the source itself. */
  lemma {:induction false} SubsequenceLength<T>(r: seq<T>, s: seq<T>)
    requires IsSubsequence(r, s)
    ensures |r| <= |s|
    ensures |r| == |s| ==> r == s
    decreases |s|
  {
    if r != [] {
      if r[0] == s[0] && IsSubsequence(r[1..], s[1..]) {
        SubsequenceLength(r[1..], s[1..]);
        if |r| == |s| {
          assert r == [r[0]] + r[1..];
          assert s == [s[0]] + s[1..];
        }
      } else {
        SubsequenceLength(r, s[1..]);
      }
    }
  }
}
