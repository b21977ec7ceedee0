/** List comprehensions with a condition, and Python's `sorted` on lists of strings. */
module Lists {

  /** `[x for x in s if p(x)]`. */
  function Filter(s: seq<string>, p: string -> bool): seq<string>
  {
    if s == [] then []
    else (if p(s[0]) then [s[0]] else []) + Filter(s[1..], p)
  }

  /** The comprehension keeps exactly the elements satisfying the condition, each at most as
      often as it occurs. */
  lemma {:induction false} FilterMembers(s: seq<string>, p: string -> bool)
    ensures |Filter(s, p)| <= |s|
    ensures forall x :: x in Filter(s, p) <==> x in s && p(x)
    ensures multiset(Filter(s, p)) <= multiset(s)
  {
    if s != [] {
      FilterMembers(s[1..], p);
      assert s == [s[0]] + s[1..];
      assert multiset(s) == multiset{s[0]} + multiset(s[1..]);
    }
  }

  /** The first element kept is the first element of the list satisfying the condition. */
  lemma {:induction false} FilterFirst(s: seq<string>, p: string -> bool)
    ensures Filter(s, p) != [] ==>
      exists k :: 0 <= k < |s| && s[k] == Filter(s, p)[0] && p(s[k]) && forall j :: 0 <= j < k ==> !p(s[j])
  {
    if s != [] && !p(s[0]) {
      var rest := Filter(s[1..], p);
      FilterFirst(s[1..], p);
      if rest != [] {
        var k :| 0 <= k < |s[1..]| && s[1..][k] == rest[0] && p(s[1..][k]) && forall j :: 0 <= j < k ==> !p(s[1..][j]);
        forall j | 0 <= j < k + 1 ensures !p(s[j]) {
          if j > 0 { assert s[j] == s[1..][j - 1]; }
        }
        assert s[k + 1] == s[1..][k];
      }
    }
  }

  /** Filtering a list that grew by one element at the end. */
  lemma {:induction false} FilterSnoc(s: seq<string>, x: string, p: string -> bool)
    ensures Filter(s + [x], p) == Filter(s, p) + (if p(x) then [x] else [])
  {
    if s != [] {
      assert (s + [x])[1..] == s[1..] + [x];
      FilterSnoc(s[1..], x, p);
    }
  }

  /** Python's `a <= b` on strings: code points compared left to right, a proper prefix first. */
  predicate Le(a: string, b: string)
    decreases |a|
  {
    |a| == 0 || (|b| > 0 && (a[0] < b[0] || (a[0] == b[0] && Le(a[1..], b[1..]))))
  }

  lemma {:induction false} LeTotal(a: string, b: string)
    ensures Le(a, b) || Le(b, a)
    decreases |a|
  {
    if |a| > 0 && |b| > 0 && a[0] == b[0] {
      LeTotal(a[1..], b[1..]);
    }
  }

  lemma {:induction false} LeTransitive(a: string, b: string, c: string)
    requires Le(a, b) && Le(b, c)
    ensures Le(a, c)
    decreases |a|
  {
    if |a| > 0 && a[0] == b[0] && b[0] == c[0] {
      LeTransitive(a[1..], b[1..], c[1..]);
    }
  }

  lemma {:induction false} LeAntisymmetric(a: string, b: string)
    requires Le(a, b) && Le(b, a)
    ensures a == b
    decreases |a|
  {
    if |a| > 0 {
      LeAntisymmetric(a[1..], b[1..]);
      assert a == [a[0]] + a[1..] && b == [b[0]] + b[1..];
    }
  }

  predicate Sorted(s: seq<string>)
  {
    forall i, j :: 0 <= i < j < |s| ==> Le(s[i], s[j])
  }

  /** Inserts `x` into a sorted list before the first element it is `<=` to. */
  function Insert(x: string, s: seq<string>): seq<string>
  {
    if s == [] then [x]
    else if Le(x, s[0]) then [x] + s
    else [s[0]] + Insert(x, s[1..])
  }

  lemma {:induction false} InsertPermutes(x: string, s: seq<string>)
    ensures multiset(Insert(x, s)) == multiset(s) + multiset{x}
  {
    if s != [] && !Le(x, s[0]) {
      InsertPermutes(x, s[1..]);
      assert s == [s[0]] + s[1..];
    }
  }

  lemma {:induction false} InsertSorted(x: string, s: seq<string>)
    requires Sorted(s)
    ensures Sorted(Insert(x, s))
  {
    if s == [] {
    } else if Le(x, s[0]) {
      forall j | 0 <= j < |s| ensures Le(x, s[j]) {
        if j > 0 { LeTransitive(x, s[0], s[j]); }
      }
    } else {
      var tail := s[1..];
      assert Sorted(tail);
      InsertSorted(x, tail);
      InsertPermutes(x, tail);
      LeTotal(x, s[0]);
      var r := Insert(x, tail);
      forall k | 0 <= k < |r| ensures Le(s[0], r[k]) {
        assert r[k] in multiset(tail) + multiset{x};
        if r[k] != x {
          var m :| 0 <= m < |tail| && tail[m] == r[k];
          assert s[m + 1] == r[k];
        }
      }
      assert Insert(x, s) == [s[0]] + r;
    }
  }

  /** Python's `sorted(s)` on strings (insertion sort; equal strings are indistinguishable, so
      stability is not observable). */
  function Sort(s: seq<string>): seq<string>
  {
    if s == [] then [] else Insert(s[0], Sort(s[1..]))
  }

  /** `sorted` returns an ordered permutation of its argument. */
  lemma {:induction false} SortCorrect(s: seq<string>)
    ensures Sorted(Sort(s))
    ensures multiset(Sort(s)) == multiset(s)
  {
    if s != [] {
      SortCorrect(s[1..]);
      InsertSorted(s[0], Sort(s[1..]));
      InsertPermutes(s[0], Sort(s[1..]));
      assert s == [s[0]] + s[1..];
    }
  }
}
