/** `Array.prototype.filter` and `Array.prototype.find`, and what they guarantee. */
module Lists {
  import opened JsValues

  /** `s.filter(keep)`: the elements that pass, in their original order. */
  function Filter<T(!new)>(s: seq<T>, keep: T -> bool): (r: seq<T>)
    ensures |r| <= |s|
    ensures forall x :: x in r <==> x in s && keep(x)
    ensures forall i :: 0 <= i < |r| ==> keep(r[i])
  {
    if s == [] then []
    else if keep(s[0]) then [s[0]] + Filter(s[1..], keep)
    else Filter(s[1..], keep)
  }

  /** The number of elements that pass `keep`: `s.filter(keep).length`. */
  function Count<T(!new)>(s: seq<T>, keep: T -> bool): nat {
    |Filter(s, keep)|
  }

  /** `a` is `b` with some elements left out and the rest in their order. */
  predicate IsSubsequence<T(==)>(a: seq<T>, b: seq<T>)
    decreases |b|
  {
    if a == [] then true
    else if b == [] then false
    else if a[0] == b[0] then IsSubsequence(a[1..], b[1..])
    else IsSubsequence(a, b[1..])
  }

  /** Filtering keeps the order of what it keeps. */
  lemma {:induction false} FilterIsSubsequence<T(!new)>(s: seq<T>, keep: T -> bool)
    ensures IsSubsequence(Filter(s, keep), s)
  {
    if s != [] {
      FilterIsSubsequence(s[1..], keep);
    }
  }

  /** Filtering keeps distinct keys distinct: what is kept has pairwise different keys when the input has. */
  lemma {:induction false} FilterKeepsDistinctKeys<T(!new), K>(s: seq<T>, keep: T -> bool, key: T -> K)
    requires forall i, j :: 0 <= i < j < |s| ==> key(s[i]) != key(s[j])
    ensures forall i, j :: 0 <= i < j < |Filter(s, keep)| ==> key(Filter(s, keep)[i]) != key(Filter(s, keep)[j])
  {
    if s != [] {
      FilterKeepsDistinctKeys(s[1..], keep, key);
      var rest := Filter(s[1..], keep);
      if keep(s[0]) {
        forall j | 0 <= j < |rest| ensures key(s[0]) != key(rest[j]) {
          assert rest[j] in s[1..];
          var m :| 0 <= m < |s[1..]| && s[1..][m] == rest[j];
          assert s[m + 1] == rest[j];
        }
        var r := [s[0]] + rest;
        forall i, j | 0 <= i < j < |r| ensures key(r[i]) != key(r[j]) {
          if i > 0 {
            assert r[i] == rest[i - 1] && r[j] == rest[j - 1];
          } else {
            assert r[i] == s[0] && r[j] == rest[j - 1];
          }
        }
        assert Filter(s, keep) == r;
      }
    }
  }

  /** Filtering twice with the same test is filtering once. */
  lemma {:induction false} FilterIdempotent<T(!new)>(s: seq<T>, keep: T -> bool)
    ensures Filter(Filter(s, keep), keep) == Filter(s, keep)
  {
    if s != [] {
      FilterIdempotent(s[1..], keep);
      if keep(s[0]) {
        assert ([s[0]] + Filter(s[1..], keep))[1..] == Filter(s[1..], keep);
      }
    }
  }

  /** A test that every element passes keeps the whole sequence. */
  lemma {:induction false} FilterAll<T(!new)>(s: seq<T>, keep: T -> bool)
    requires forall x :: x in s ==> keep(x)
    ensures Filter(s, keep) == s
  {
    if s != [] {
      FilterAll(s[1..], keep);
    }
  }

  /** A test that no element passes keeps nothing. */
  lemma {:induction false} FilterNone<T(!new)>(s: seq<T>, keep: T -> bool)
    requires forall x :: x in s ==> !keep(x)
    ensures Filter(s, keep) == []
  {
    if s != [] {
      FilterNone(s[1..], keep);
    }
  }

  /** Filtering a concatenation filters each part. */
  lemma {:induction false} FilterAppend<T(!new)>(a: seq<T>, b: seq<T>, keep: T -> bool)
    ensures Filter(a + b, keep) == Filter(a, keep) + Filter(b, keep)
  {
    if a != [] {
      var ab := a + b;
      assert ab[0] == a[0] && ab[1..] == a[1..] + b;
      FilterAppend(a[1..], b, keep);
      if keep(a[0]) {
        assert Filter(ab, keep) == [a[0]] + Filter(a[1..] + b, keep);
        assert [a[0]] + (Filter(a[1..], keep) + Filter(b, keep))
            == ([a[0]] + Filter(a[1..], keep)) + Filter(b, keep);
      } else {
        assert Filter(ab, keep) == Filter(a[1..] + b, keep);
      }
    } else {
      assert a + b == b;
    }
  }

  /** Two tests that agree on every element filter alike. */
  lemma {:induction false} FilterSameTest<T(!new)>(s: seq<T>, f: T -> bool, g: T -> bool)
    requires forall x :: x in s ==> f(x) == g(x)
    ensures Filter(s, f) == Filter(s, g)
  {
    if s != [] {
      FilterSameTest(s[1..], f, g);
    }
  }

  /** Counting one more element adds one exactly when it passes. */
  lemma CountSnoc<T(!new)>(s: seq<T>, x: T, keep: T -> bool)
    ensures Count(s + [x], keep) == Count(s, keep) + (if keep(x) then 1 else 0)
  {
    FilterAppend(s, [x], keep);
    assert [x][1..] == [];
  }

  /** When every element passes exactly one of three tests, the three counts add up to the length. */
  lemma {:induction false} CountPartition<T(!new)>(s: seq<T>, p: T -> bool, q: T -> bool, r: T -> bool)
    requires forall x :: x in s ==> (p(x) || q(x) || r(x))
    requires forall x :: x in s ==> !(p(x) && q(x)) && !(p(x) && r(x)) && !(q(x) && r(x))
    ensures Count(s, p) + Count(s, q) + Count(s, r) == |s|
  {
    if s != [] {
      CountPartition(s[1..], p, q, r);
    }
  }

  /** `s.find(test)`: the first element that passes, or `undefined`. */
  function Find<T(!new)>(s: seq<T>, test: T -> bool): (r: Option<T>)
    ensures r.Some? <==> exists x :: x in s && test(x)
    ensures r.Some? ==> r.value in s && test(r.value)
  {
    if s == [] then None
    else if test(s[0]) then Some(s[0])
    else Find(s[1..], test)
  }

  /** `find` returns the element at the first position that passes. */
  lemma {:induction false} FindFirst<T(!new)>(s: seq<T>, test: T -> bool, k: nat)
    requires k < |s| && test(s[k])
    requires forall i :: 0 <= i < k ==> !test(s[i])
    ensures Find(s, test) == Some(s[k])
  {
    if k > 0 {
      FindFirst(s[1..], test, k - 1);
    }
  }
}
