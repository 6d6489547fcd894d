/**
 * `Array.prototype.sort` with a comparator, and `filter`.  JavaScript only promises that
 * the sort is stable; `StableSortIsUnique` shows that this promise has a single answer, so
 * nothing is lost by computing it with insertion sort.
 */
module StableSort {

  ghost predicate TotalPreorder<T(!new)>(leq: (T, T) -> bool) {
    && (forall x, y :: leq(x, y) || leq(y, x))
    && (forall x, y, z :: leq(x, y) && leq(y, z) ==> leq(x, z))
  }

  ghost predicate Sorted<T(!new)>(s: seq<T>, leq: (T, T) -> bool) {
    forall i, j :: 0 <= i < j < |s| ==> leq(s[i], s[j])
  }

  function Filter<T(!new)>(s: seq<T>, p: T -> bool): (r: seq<T>)
    ensures |r| <= |s|
    ensures forall x :: x in r <==> x in s && p(x)
  {
    if s == [] then []
    else if p(s[0]) then [s[0]] + Filter(s[1..], p)
    else Filter(s[1..], p)
  }

  /** The elements that tie with `x`. */
  function Ties<T(!new)>(leq: (T, T) -> bool, x: T): T -> bool {
    y => leq(x, y) && leq(y, x)
  }

  function Insert<T(!new)>(x: T, s: seq<T>, leq: (T, T) -> bool): (r: seq<T>)
    ensures |r| == |s| + 1
    ensures multiset(r) == multiset{x} + multiset(s)
  {
    if s == [] || leq(x, s[0]) then
      assert multiset([x] + s) == multiset{x} + multiset(s);
      [x] + s
    else
      assert s == [s[0]] + s[1..];
      [s[0]] + Insert(x, s[1..], leq)
  }

  function Sort<T(!new)>(s: seq<T>, leq: (T, T) -> bool): (r: seq<T>)
    ensures |r| == |s|
    ensures multiset(r) == multiset(s)
    ensures forall x :: x in r <==> x in s
  {
    if s == [] then []
    else
      var r := Insert(s[0], Sort(s[1..], leq), leq);
      assert s == [s[0]] + s[1..];
      assert multiset(r) == multiset(s);
      assert forall x :: x in r <==> x in multiset(r);
      r
  }

  // ---------------------------------------------------------------- filters

  lemma {:induction false} FilterAppend<T(!new)>(a: seq<T>, b: seq<T>, p: T -> bool)
    ensures Filter(a + b, p) == Filter(a, p) + Filter(b, p)
  {
    if a == [] {
      assert a + b == b;
    } else {
      assert (a + b)[1..] == a[1..] + b;
      FilterAppend(a[1..], b, p);
    }
  }

  function Both<T(!new)>(p: T -> bool, q: T -> bool): T -> bool {
    x => p(x) && q(x)
  }

  lemma {:induction false} FilterTwice<T(!new)>(s: seq<T>, p: T -> bool, q: T -> bool)
    ensures Filter(Filter(s, p), q) == Filter(s, Both(p, q))
  {
    if s != [] {
      FilterTwice(s[1..], p, q);
      if p(s[0]) {
        assert Filter(s, p)[1..] == Filter(s[1..], p);
      }
    }
  }

  /** Filters that agree on the elements of the sequence agree. */
  lemma {:induction false} FilterCongruence<T(!new)>(s: seq<T>, p: T -> bool, q: T -> bool)
    requires forall x :: x in s ==> p(x) == q(x)
    ensures Filter(s, p) == Filter(s, q)
  {
    if s != [] {
      FilterCongruence(s[1..], p, q);
    }
  }

  lemma {:induction false} FilterAll<T(!new)>(s: seq<T>, p: T -> bool)
    requires forall x :: x in s ==> p(x)
    ensures Filter(s, p) == s
  {
    if s != [] {
      FilterAll(s[1..], p);
    }
  }

  lemma {:induction false} FilterNone<T(!new)>(s: seq<T>, p: T -> bool)
    requires forall x :: x in s ==> !p(x)
    ensures Filter(s, p) == []
  {
    if s != [] {
      FilterNone(s[1..], p);
    }
  }

  lemma {:induction false} FilterKeepsSorted<T(!new)>(s: seq<T>, leq: (T, T) -> bool, p: T -> bool)
    requires Sorted(s, leq)
    ensures Sorted(Filter(s, p), leq)
  {
    if s != [] {
      FilterKeepsSorted(s[1..], leq, p);
      assert forall x :: x in s[1..] ==> leq(s[0], x);
    }
  }

  // ---------------------------------------------------------------- the sort

  lemma {:induction false} InsertSorted<T(!new)>(x: T, s: seq<T>, leq: (T, T) -> bool)
    requires TotalPreorder(leq) && Sorted(s, leq)
    ensures Sorted(Insert(x, s, leq), leq)
  {
    if s != [] && !leq(x, s[0]) {
      InsertSorted(x, s[1..], leq);
      var r := Insert(x, s[1..], leq);
      forall y | y in r ensures leq(s[0], y) {
        assert y in multiset(r);
      }
    }
  }

  lemma {:induction false} SortSorted<T(!new)>(s: seq<T>, leq: (T, T) -> bool)
    requires TotalPreorder(leq)
    ensures Sorted(Sort(s, leq), leq)
  {
    if s != [] {
      SortSorted(s[1..], leq);
      InsertSorted(s[0], Sort(s[1..], leq), leq);
    }
  }

  lemma {:induction false} FilterInsert<T(!new)>(x: T, s: seq<T>, leq: (T, T) -> bool, p: T -> bool)
    requires TotalPreorder(leq) && Sorted(s, leq)
    ensures Filter(Insert(x, s, leq), p) == if p(x) then Insert(x, Filter(s, p), leq) else Filter(s, p)
  {
    if s == [] {
    } else if leq(x, s[0]) {
      assert ([x] + s)[1..] == s;
      var f := Filter(s, p);
      if f != [] {
        assert f[0] in s;
        assert leq(s[0], f[0]);
      }
    } else {
      FilterInsert(x, s[1..], leq, p);
      FilterPastHead(s[0], Insert(x, s[1..], leq), p);
      if p(s[0]) {
        InsertPastHead(x, s[0], Filter(s[1..], p), leq);
      }
    }
  }

  lemma FilterPastHead<T(!new)>(h: T, r: seq<T>, p: T -> bool)
    ensures Filter([h] + r, p) == (if p(h) then [h] else []) + Filter(r, p)
  {
    assert ([h] + r)[1..] == r;
  }

  lemma InsertPastHead<T(!new)>(x: T, h: T, r: seq<T>, leq: (T, T) -> bool)
    requires !leq(x, h)
    ensures Insert(x, [h] + r, leq) == [h] + Insert(x, r, leq)
  {
    assert ([h] + r)[1..] == r;
  }

  /** Dropping elements before or after sorting is the same. */
  lemma {:induction false} SortFilterCommute<T(!new)>(s: seq<T>, leq: (T, T) -> bool, p: T -> bool)
    requires TotalPreorder(leq)
    ensures Filter(Sort(s, leq), p) == Sort(Filter(s, p), leq)
  {
    if s != [] {
      SortSorted(s[1..], leq);
      SortFilterCommute(s[1..], leq, p);
      FilterInsert(s[0], Sort(s[1..], leq), leq, p);
      if p(s[0]) {
        assert Filter(s, p)[1..] == Filter(s[1..], p);
      }
    }
  }

  lemma {:induction false} SortSame<T(!new)>(s: seq<T>, leq: (T, T) -> bool)
    requires forall x, y :: x in s && y in s ==> leq(x, y)
    ensures Sort(s, leq) == s
  {
    if s != [] {
      SortSame(s[1..], leq);
    }
  }

  /** Stability: elements that tie keep their order. */
  lemma SortStable<T(!new)>(s: seq<T>, leq: (T, T) -> bool, x: T)
    requires TotalPreorder(leq)
    ensures Filter(Sort(s, leq), Ties(leq, x)) == Filter(s, Ties(leq, x))
  {
    SortFilterCommute(s, leq, Ties(leq, x));
    SortSame(Filter(s, Ties(leq, x)), leq);
  }

  /** What JavaScript promises of `xs.sort(cmp)`. */
  ghost predicate IsStableSortOf<T(!new)>(r: seq<T>, s: seq<T>, leq: (T, T) -> bool) {
    && Sorted(r, leq)
    && forall x :: Filter(r, Ties(leq, x)) == Filter(s, Ties(leq, x))
  }

  lemma {:induction false} SameTiesSameSequence<T(!new)>(r: seq<T>, s: seq<T>, leq: (T, T) -> bool)
    requires TotalPreorder(leq) && Sorted(r, leq) && Sorted(s, leq)
    requires forall x :: Filter(r, Ties(leq, x)) == Filter(s, Ties(leq, x))
    ensures r == s
  {
    if r == [] {
    } else {
      assert r[0] in Filter(r, Ties(leq, r[0]));
      assert s != [];
      assert s[0] in Filter(s, Ties(leq, s[0]));
      assert s[0] in Filter(r, Ties(leq, s[0]));
      assert r[0] in s && s[0] in r;
      assert leq(r[0], s[0]) && leq(s[0], r[0]);
      assert Filter(r, Ties(leq, r[0]))[0] == r[0];
      assert Filter(s, Ties(leq, r[0]))[0] == s[0];
      forall x ensures Filter(r[1..], Ties(leq, x)) == Filter(s[1..], Ties(leq, x)) {
        var p := Ties(leq, x);
        assert Filter(r, p) == Filter(s, p);
        if p(r[0]) {
          assert Filter(r, p)[1..] == Filter(r[1..], p);
          assert Filter(s, p)[1..] == Filter(s[1..], p);
        }
      }
      SameTiesSameSequence(r[1..], s[1..], leq);
    }
  }

  /** Being a stable sort of `s` pins the result down completely. */
  lemma StableSortIsUnique<T(!new)>(s: seq<T>, r: seq<T>, leq: (T, T) -> bool)
    requires TotalPreorder(leq)
    ensures IsStableSortOf(r, s, leq) <==> r == Sort(s, leq)
  {
    SortSorted(s, leq);
    forall x ensures Filter(Sort(s, leq), Ties(leq, x)) == Filter(s, Ties(leq, x)) {
      SortStable(s, leq, x);
    }
    if IsStableSortOf(r, s, leq) {
      SameTiesSameSequence(r, Sort(s, leq), leq);
    }
  }
}
