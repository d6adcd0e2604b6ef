/** Strict orders, sorted lists and sorting.

    Every listing in the backend is "filter, sort, take a prefix".  This module says
    what the sort step means: for a set of rows that an order distinguishes pairwise
    there is exactly one strictly increasing list, and insertion sort finds it whatever
    the order of its input. */
module Ordering {

  datatype Option<+T> = None | Some(value: T)

  function Elems<T>(xs: seq<T>): set<T> {
    set x | x in xs
  }

  ghost predicate Distinct<T>(xs: seq<T>) {
    forall i, j :: 0 <= i < j < |xs| ==> xs[i] != xs[j]
  }

  /** `less` is a strict total order on the members of `s`. */
  ghost predicate StrictTotalOn<T>(less: (T, T) -> bool, s: set<T>) {
    && (forall a | a in s :: !less(a, a))
    && (forall a, b, c | a in s && b in s && c in s && less(a, b) && less(b, c) :: less(a, c))
    && (forall a, b | a in s && b in s && a != b :: less(a, b) || less(b, a))
  }

  ghost predicate Increasing<T>(xs: seq<T>, less: (T, T) -> bool) {
    forall i, j :: 0 <= i < j < |xs| ==> less(xs[i], xs[j])
  }

  /** `xs` lists exactly the members of `s`, each once, in increasing order. */
  ghost predicate IsSortOf<T>(xs: seq<T>, s: set<T>, less: (T, T) -> bool) {
    Increasing(xs, less) && Elems(xs) == s
  }

  lemma StrictTotalOnSubset<T>(less: (T, T) -> bool, s: set<T>, t: set<T>)
    requires StrictTotalOn(less, s) && t <= s
    ensures StrictTotalOn(less, t)
  {
  }

  lemma IncreasingIsDistinct<T>(xs: seq<T>, less: (T, T) -> bool)
    requires StrictTotalOn(less, Elems(xs)) && Increasing(xs, less)
    ensures Distinct(xs)
  {
  }

  lemma HeadIsElem<T>(xs: seq<T>)
    ensures xs != [] ==> xs[0] in Elems(xs)
  {
  }

  /** A set has at most one sorted listing. */
  lemma {:induction false} SortIsUnique<T>(xs: seq<T>, ys: seq<T>, s: set<T>, less: (T, T) -> bool)
    requires StrictTotalOn(less, s)
    requires IsSortOf(xs, s, less) && IsSortOf(ys, s, less)
    ensures xs == ys
    decreases |xs|
  {
    if xs == [] {
      HeadIsElem(ys);
    } else {
      assert xs[0] in s && xs[0] in ys;
      assert ys[0] in s && ys[0] in xs;
      assert xs[0] == ys[0];
      var rest := s - {xs[0]};
      TailIsSort(xs, s, less);
      TailIsSort(ys, s, less);
      SortIsUnique(xs[1..], ys[1..], rest, less);
      assert xs == [xs[0]] + xs[1..] && ys == [ys[0]] + ys[1..];
    }
  }

  lemma TailIsSort<T>(xs: seq<T>, s: set<T>, less: (T, T) -> bool)
    requires StrictTotalOn(less, s) && IsSortOf(xs, s, less) && xs != []
    ensures IsSortOf(xs[1..], s - {xs[0]}, less)
  {
    forall x ensures x in xs[1..] <==> x in s - {xs[0]} {
      if x in s - {xs[0]} {
        assert x in xs;
        var i :| 0 <= i < |xs| && xs[i] == x;
        assert xs[1..][i - 1] == x;
      }
      if x in xs[1..] {
        var i :| 0 <= i < |xs[1..]| && xs[1..][i] == x;
        assert xs[i + 1] == x && less(xs[0], xs[i + 1]);
      }
    }
    assert Elems(xs[1..]) == s - {xs[0]};
  }

  function Insert<T>(x: T, xs: seq<T>, less: (T, T) -> bool): seq<T> {
    if xs == [] then [x]
    else if less(x, xs[0]) then [x] + xs
    else [xs[0]] + Insert(x, xs[1..], less)
  }

  /** Array.sort and ORDER BY on rows the order tells apart. */
  function Sort<T>(xs: seq<T>, less: (T, T) -> bool): seq<T> {
    if xs == [] then [] else Insert(xs[0], Sort(xs[1..], less), less)
  }

  lemma {:induction false} InsertSorts<T>(x: T, xs: seq<T>, s: set<T>, less: (T, T) -> bool)
    requires StrictTotalOn(less, s + {x}) && x !in s && IsSortOf(xs, s, less)
    ensures IsSortOf(Insert(x, xs, less), s + {x}, less)
    ensures |Insert(x, xs, less)| == |xs| + 1
    decreases |xs|
  {
    var ys := Insert(x, xs, less);
    if xs == [] {
      assert Elems(ys) == s + {x};
    } else if less(x, xs[0]) {
      assert xs[0] in s;
      forall j | 0 <= j < |xs| ensures less(x, xs[j]) { assert xs[j] in s; }
      assert Elems(ys) == s + {x} by {
        forall y ensures y in ys <==> y in s + {x} { assert y in ys <==> y == x || y in xs; }
      }
    } else {
      var t := s - {xs[0]};
      assert xs[0] in s;
      StrictTotalOnSubset(less, s + {x}, s);
      TailIsSort(xs, s, less);
      StrictTotalOnSubset(less, s + {x}, t + {x});
      InsertSorts(x, xs[1..], t, less);
      var zs := Insert(x, xs[1..], less);
      assert ys == [xs[0]] + zs;
      forall j | 0 <= j < |zs| ensures less(xs[0], zs[j]) {
        assert zs[j] in t + {x};
        if zs[j] != x {
          assert zs[j] in xs[1..];
          var i :| 0 <= i < |xs[1..]| && xs[1..][i] == zs[j];
          assert xs[i + 1] == zs[j];
        }
      }
      assert Elems(ys) == s + {x} by {
        forall y ensures y in ys <==> y in s + {x} { assert y in ys <==> y == xs[0] || y in zs; }
      }
    }
  }

  /** Sorting rows that the order tells apart gives their one sorted listing. */
  lemma {:induction false} SortSorts<T>(xs: seq<T>, less: (T, T) -> bool)
    requires Distinct(xs) && StrictTotalOn(less, Elems(xs))
    ensures IsSortOf(Sort(xs, less), Elems(xs), less)
    ensures |Sort(xs, less)| == |xs|
    decreases |xs|
  {
    if xs != [] {
      var s := Elems(xs[1..]);
      assert Elems(xs) == s + {xs[0]} by {
        forall y ensures y in xs <==> y in s + {xs[0]} {
          assert xs == [xs[0]] + xs[1..];
        }
      }
      StrictTotalOnSubset(less, Elems(xs), s);
      SortSorts(xs[1..], less);
      InsertSorts(xs[0], Sort(xs[1..], less), s, less);
    }
  }

  /** The order in which the rows arrive does not matter. */
  lemma SortIgnoresArrivalOrder<T>(xs: seq<T>, ys: seq<T>, less: (T, T) -> bool)
    requires Distinct(xs) && Distinct(ys) && Elems(xs) == Elems(ys)
    requires StrictTotalOn(less, Elems(xs))
    ensures Sort(xs, less) == Sort(ys, less)
  {
    SortSorts(xs, less);
    SortSorts(ys, less);
    SortIsUnique(Sort(xs, less), Sort(ys, less), Elems(xs), less);
  }

  function Filter<T>(xs: seq<T>, keep: T -> bool): seq<T> {
    if xs == [] then []
    else if keep(xs[0]) then [xs[0]] + Filter(xs[1..], keep)
    else Filter(xs[1..], keep)
  }

  lemma {:induction false} FilterKeeps<T>(xs: seq<T>, keep: T -> bool)
    ensures forall x :: x in Filter(xs, keep) <==> x in xs && keep(x)
    decreases |xs|
  {
    if xs != [] {
      assert xs == [xs[0]] + xs[1..];
      FilterKeeps(xs[1..], keep);
    }
  }

  lemma {:induction false} FilterKeepsDistinct<T>(xs: seq<T>, keep: T -> bool)
    requires Distinct(xs)
    ensures Distinct(Filter(xs, keep))
    decreases |xs|
  {
    if xs != [] {
      FilterKeepsDistinct(xs[1..], keep);
      FilterKeeps(xs[1..], keep);
      var rest := Filter(xs[1..], keep);
      forall j | 0 <= j < |rest| ensures xs[0] != rest[j] {
        var x := rest[j];
        assert x in Filter(xs[1..], keep);
      }
    }
  }

  lemma {:induction false} FilterSnoc<T>(xs: seq<T>, x: T, keep: T -> bool)
    ensures Filter(xs + [x], keep) == Filter(xs, keep) + if keep(x) then [x] else []
    decreases |xs|
  {
    if xs != [] {
      assert (xs + [x])[1..] == xs[1..] + [x];
      FilterSnoc(xs[1..], x, keep);
    } else {
      assert (xs + [x])[1..] == [];
    }
  }

  lemma {:induction false} FilterCongruence<T>(xs: seq<T>, p: T -> bool, q: T -> bool)
    requires forall x | x in xs :: p(x) == q(x)
    ensures Filter(xs, p) == Filter(xs, q)
    decreases |xs|
  {
    if xs != [] {
      assert xs[0] in xs;
      FilterCongruence(xs[1..], p, q);
    }
  }

  lemma {:induction false} FilterAll<T>(xs: seq<T>, keep: T -> bool)
    requires forall x | x in xs :: keep(x)
    ensures Filter(xs, keep) == xs
    decreases |xs|
  {
    if xs != [] {
      assert xs[0] in xs && xs == [xs[0]] + xs[1..];
      FilterAll(xs[1..], keep);
    }
  }

  lemma PrefixOfPrefix<T>(xs: seq<T>, m: nat, n: nat)
    requires m <= n <= |xs|
    ensures xs[..n][..m] == xs[..m]
  {
  }

  function TakeUpTo<T>(xs: seq<T>, n: nat): seq<T> {
    if |xs| > n then xs[..n] else xs
  }

  /** Byte-wise string order, used for ids, slugs and titles. */
  predicate TextLess(a: string, b: string) {
    if b == [] then false
    else if a == [] then true
    else if a[0] != b[0] then a[0] < b[0]
    else TextLess(a[1..], b[1..])
  }

  lemma TextLessIrreflexive(a: string)
    ensures !TextLess(a, a)
  {
  }

  lemma {:induction false} TextLessTransitive(a: string, b: string, c: string)
    requires TextLess(a, b) && TextLess(b, c)
    ensures TextLess(a, c)
    decreases |a|
  {
    if a != [] && a[0] == b[0] && b[0] == c[0] { TextLessTransitive(a[1..], b[1..], c[1..]); }
  }

  lemma {:induction false} TextLessTotal(a: string, b: string)
    requires a != b
    ensures TextLess(a, b) || TextLess(b, a)
    decreases |a|
  {
    if a != [] && b != [] && a[0] == b[0] {
      assert a == [a[0]] + a[1..] && b == [b[0]] + b[1..];
      TextLessTotal(a[1..], b[1..]);
    }
  }
}
