/** The java.util behaviour the recommendation engine relies on: order-preserving
    filtering, sums over a list, the stable descending `Collections.sort` used with
    `o2.key - o1.key` comparators, and concatenation of lists of lists.
    Specifications are written "prefix plus last element", the shape a forward
    loop builds. */
module Collections {

  /** The elements of `s` that satisfy `keep`, in their original order. */
  function Filter<T(!new)>(s: seq<T>, keep: T -> bool): (r: seq<T>)
    ensures |r| <= |s|
    ensures forall x :: x in r <==> x in s && keep(x)
  {
    if s == [] then []
    else
      assert s == s[..|s| - 1] + [s[|s| - 1]];
      Filter(s[..|s| - 1], keep) + (if keep(s[|s| - 1]) then [s[|s| - 1]] else [])
  }

  /** Filtering by a predicate and by its negation splits `s` without loss. */
  lemma {:induction false} FilterPartition<T(!new)>(s: seq<T>, keep: T -> bool, drop: T -> bool)
    requires forall x :: drop(x) == !keep(x)
    ensures multiset(Filter(s, keep)) + multiset(Filter(s, drop)) == multiset(s)
  {
    if s != [] {
      FilterPartition(s[..|s| - 1], keep, drop);
      assert s == s[..|s| - 1] + [s[|s| - 1]];
    }
  }

  /** The sum of `f` over the elements of `s`. */
  function SumOf<T>(s: seq<T>, f: T -> int): int
  {
    if s == [] then 0 else SumOf(s[..|s| - 1], f) + f(s[|s| - 1])
  }

  lemma {:induction false} SumOfAppend<T>(a: seq<T>, b: seq<T>, f: T -> int)
    ensures SumOf(a + b, f) == SumOf(a, f) + SumOf(b, f)
    decreases |b|
  {
    if b == [] {
      assert a + b == a;
    } else {
      SumOfAppend(a, b[..|b| - 1], f);
      assert (a + b)[..|a + b| - 1] == a + b[..|b| - 1];
      assert (a + b)[|a + b| - 1] == b[|b| - 1];
    }
  }

  /** A sum does not depend on the order of the elements. */
  lemma {:induction false} SumOfPermutation<T>(a: seq<T>, b: seq<T>, f: T -> int)
    requires multiset(a) == multiset(b)
    ensures SumOf(a, f) == SumOf(b, f)
    decreases |a|
  {
    if a != [] {
      var x := a[|a| - 1];
      assert x in multiset(b);
      var i :| 0 <= i < |b| && b[i] == x;
      var rest := b[..i] + b[i + 1..];
      assert b == b[..i] + [x] + b[i + 1..];
      SumOfAppend(b[..i] + [x], b[i + 1..], f);
      SumOfAppend(b[..i], [x], f);
      SumOfAppend(b[..i], b[i + 1..], f);
      assert a == a[..|a| - 1] + [x];
      assert multiset(a[..|a| - 1]) == multiset(a) - multiset{x};
      assert multiset(b) == multiset(b[..i]) + multiset{x} + multiset(b[i + 1..]);
      assert multiset(rest) == multiset(b) - multiset{x};
      SumOfPermutation(a[..|a| - 1], rest, f);
    }
  }

  /** With no negative term, the sum is at least any single term. */
  lemma {:induction false} SumOfAtLeastTerm<T>(s: seq<T>, f: T -> int, x: T)
    requires forall y :: y in s ==> f(y) >= 0
    requires x in s
    ensures SumOf(s, f) >= f(x)
    decreases |s|
  {
    var last := s[|s| - 1];
    assert s == s[..|s| - 1] + [last];
    SumOfNonNegative(s[..|s| - 1], f);
    if x != last {
      SumOfAtLeastTerm(s[..|s| - 1], f, x);
    }
  }

  lemma {:induction false} SumOfNonNegative<T>(s: seq<T>, f: T -> int)
    requires forall y :: y in s ==> f(y) >= 0
    ensures SumOf(s, f) >= 0
    decreases |s|
  {
    if s != [] {
      assert s == s[..|s| - 1] + [s[|s| - 1]];
      SumOfNonNegative(s[..|s| - 1], f);
    }
  }

  lemma {:induction false} SumOfNonPositive<T>(s: seq<T>, f: T -> int)
    requires forall y :: y in s ==> f(y) <= 0
    ensures SumOf(s, f) <= 0
    decreases |s|
  {
    if s != [] {
      assert s == s[..|s| - 1] + [s[|s| - 1]];
      SumOfNonPositive(s[..|s| - 1], f);
    }
  }

  /** Non-increasing by `key`: the order `Collections.sort` produces with a
      comparator `o2.key - o1.key`. */
  predicate SortedDesc<T>(s: seq<T>, key: T -> int)
  {
    forall i, j :: 0 <= i < j < |s| ==> key(s[i]) >= key(s[j])
  }

  /** Inserts `x` in front of the first element whose key is not larger, so an
      element inserted before its equals keeps its original place among them. */
  function InsertDesc<T>(x: T, s: seq<T>, key: T -> int): (r: seq<T>)
    ensures multiset(r) == multiset(s) + multiset{x}
  {
    if s == [] || key(s[0]) <= key(x) then [x] + s
    else
      assert s == [s[0]] + s[1..];
      [s[0]] + InsertDesc(x, s[1..], key)
  }

  lemma {:induction false} InsertDescSorted<T>(x: T, s: seq<T>, key: T -> int)
    requires SortedDesc(s, key)
    ensures SortedDesc(InsertDesc(x, s, key), key)
  {
    if s != [] && key(s[0]) > key(x) {
      var tail := InsertDesc(x, s[1..], key);
      InsertDescSorted(x, s[1..], key);
      forall j | 0 <= j < |tail| ensures key(s[0]) >= key(tail[j]) {
        assert tail[j] in multiset(tail);
        if tail[j] != x {
          assert tail[j] in multiset(s[1..]);
          var m :| 0 <= m < |s[1..]| && s[1..][m] == tail[j];
          assert s[m + 1] == tail[j];
        }
      }
    }
  }

  /** A stable sort into non-increasing key order (Collections.sort is a stable
      merge sort; stability fixes the order of items with equal keys). */
  function SortDesc<T>(s: seq<T>, key: T -> int): (r: seq<T>)
    ensures multiset(r) == multiset(s)
    ensures |r| == |s|
    ensures SortedDesc(r, key)
  {
    if s == [] then []
    else
      assert s == [s[0]] + s[1..];
      var r := InsertDesc(s[0], SortDesc(s[1..], key), key);
      InsertDescSorted(s[0], SortDesc(s[1..], key), key);
      assert |r| == |multiset(r)|;
      r
  }

  /** Stability: the elements of any one key keep their input order. */
  lemma {:induction false} SortDescStable<T(!new)>(s: seq<T>, key: T -> int, v: int, keep: T -> bool)
    requires forall x :: keep(x) <==> key(x) == v
    ensures Filter(SortDesc(s, key), keep) == Filter(s, keep)
  {
    if s != [] {
      var rest := SortDesc(s[1..], key);
      SortDescStable(s[1..], key, v, keep);
      InsertDescFilter(s[0], rest, key, v, keep);
      FilterCons(s[0], s[1..], keep);
      assert s == [s[0]] + s[1..];
    }
  }

  /** `InsertDesc` puts `x` after larger keys only, so among its equals it comes first. */
  lemma {:induction false} InsertDescFilter<T(!new)>(x: T, t: seq<T>, key: T -> int, v: int, keep: T -> bool)
    requires forall y :: keep(y) <==> key(y) == v
    ensures Filter(InsertDesc(x, t, key), keep) == (if keep(x) then [x] else []) + Filter(t, keep)
  {
    if t == [] || key(t[0]) <= key(x) {
      FilterCons(x, t, keep);
    } else {
      var tail := InsertDesc(x, t[1..], key);
      assert InsertDesc(x, t, key) == [t[0]] + tail;
      FilterCons(t[0], tail, keep);
      InsertDescFilter(x, t[1..], key, v, keep);
      FilterHead(t, keep);
      assert !(keep(t[0]) && keep(x));
      SwapFronts(if keep(t[0]) then [t[0]] else [], if keep(x) then [x] else [], Filter(t[1..], keep));
    }
  }

  lemma SwapFronts<T>(a: seq<T>, b: seq<T>, c: seq<T>)
    requires a == [] || b == []
    ensures a + (b + c) == b + (a + c)
  {
    if a == [] {
      assert a + (b + c) == b + c;
      assert a + c == c;
    } else {
      assert b + c == c;
      assert b + (a + c) == a + c;
    }
  }

  lemma FilterHead<T(!new)>(t: seq<T>, keep: T -> bool)
    requires t != []
    ensures Filter(t, keep) == (if keep(t[0]) then [t[0]] else []) + Filter(t[1..], keep)
  {
    assert t == [t[0]] + t[1..];
    FilterCons(t[0], t[1..], keep);
  }

  lemma {:induction false} FilterCons<T(!new)>(a: T, t: seq<T>, keep: T -> bool)
    ensures Filter([a] + t, keep) == (if keep(a) then [a] else []) + Filter(t, keep)
    decreases |t|
  {
    if t != [] {
      var init, last := t[..|t| - 1], t[|t| - 1];
      var kl := if keep(last) then [last] else [];
      assert Filter([a] + t, keep) == Filter([a] + init, keep) + kl by {
        assert ([a] + t)[..|[a] + t| - 1] == [a] + init;
        assert ([a] + t)[|[a] + t| - 1] == last;
      }
      assert Filter([a] + init, keep) == (if keep(a) then [a] else []) + Filter(init, keep) by {
        FilterCons(a, init, keep);
      }
      assert Filter(t, keep) == Filter(init, keep) + kl;
    } else {
      assert [a] + t == [a];
      assert [a][..0] == [];
    }
  }

  /** A filter that keeps every element is the identity. */
  lemma {:induction false} FilterAll<T(!new)>(s: seq<T>, keep: T -> bool)
    requires forall i :: 0 <= i < |s| ==> keep(s[i])
    ensures Filter(s, keep) == s
  {
    if s != [] {
      var init, last := s[..|s| - 1], s[|s| - 1];
      assert Filter(init, keep) == init by {
        FilterAll(init, keep);
      }
      assert keep(last);
      assert Filter(s, keep) == Filter(init, keep) + [last];
      assert init + [last] == s;
    }
  }

  /** The concatenation of a list of lists, in order. */
  function Flatten<T>(ss: seq<seq<T>>): seq<T>
  {
    if ss == [] then [] else Flatten(ss[..|ss| - 1]) + ss[|ss| - 1]
  }

  lemma {:induction false} FlattenAppend<T>(a: seq<seq<T>>, b: seq<seq<T>>)
    ensures Flatten(a + b) == Flatten(a) + Flatten(b)
    decreases |b|
  {
    if b == [] {
      assert a + b == a;
    } else {
      FlattenAppend(a, b[..|b| - 1]);
      assert (a + b)[..|a + b| - 1] == a + b[..|b| - 1];
      assert (a + b)[|a + b| - 1] == b[|b| - 1];
    }
  }

  /** `n` copies of `x`. */
  function Repeat<T>(x: T, n: nat): seq<T>
  {
    if n == 0 then [] else Repeat(x, n - 1) + [x]
  }

  lemma {:induction false} RepeatCount<T>(x: T, n: nat, y: T)
    ensures multiset(Repeat(x, n))[y] == if x == y then n else 0
  {
    if n > 0 {
      RepeatCount(x, n - 1, y);
    }
  }
}
