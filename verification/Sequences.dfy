/** Sums, filters and sorting over finite sequences, shared by the other modules. */
module Sequences {

  datatype Option<+T> = None | Some(value: T)

  function Min(a: int, b: int): int { if a <= b then a else b }

  // ---------------------------------------------------------------- sums

  function Sum<T>(xs: seq<T>, f: T -> int): int
  {
    if xs == [] then 0 else Sum(xs[..|xs| - 1], f) + f(xs[|xs| - 1])
  }

  lemma SumAppend<T>(xs: seq<T>, x: T, f: T -> int)
    ensures Sum(xs + [x], f) == Sum(xs, f) + f(x)
  {
    assert (xs + [x])[..|xs|] == xs;
  }

  lemma {:induction false} SumConcat<T>(xs: seq<T>, ys: seq<T>, f: T -> int)
    ensures Sum(xs + ys, f) == Sum(xs, f) + Sum(ys, f)
  {
    if ys == [] {
      assert xs + ys == xs;
    } else {
      var n := |ys| - 1;
      assert (xs + ys)[..|xs| + n] == xs + ys[..n];
      SumConcat(xs, ys[..n], f);
    }
  }

  lemma {:induction false} SumUpdate<T>(xs: seq<T>, i: nat, x: T, f: T -> int)
    requires i < |xs|
    ensures Sum(xs[i := x], f) == Sum(xs, f) - f(xs[i]) + f(x)
  {
    var n := |xs| - 1;
    if i == n {
      assert xs[i := x][..n] == xs[..n];
    } else {
      assert xs[i := x][..n] == xs[..n][i := x];
      SumUpdate(xs[..n], i, x, f);
    }
  }

  /** Pointwise comparison of two summands, which may range over different element types. */
  lemma {:induction false} SumPointwise<T, U>(xs: seq<T>, ys: seq<U>, f: T -> int, g: U -> int)
    requires |xs| == |ys|
    requires forall i :: 0 <= i < |xs| ==> f(xs[i]) <= g(ys[i])
    ensures Sum(xs, f) <= Sum(ys, g)
  {
    if xs != [] {
      SumPointwise(xs[..|xs| - 1], ys[..|ys| - 1], f, g);
    }
  }

  lemma {:induction false} SumAtMost<T>(xs: seq<T>, f: T -> int, bound: int)
    requires forall x :: x in xs ==> 0 <= f(x) <= bound
    ensures 0 <= Sum(xs, f) <= |xs| * bound
  {
    if xs != [] {
      SumAtMost(xs[..|xs| - 1], f, bound);
      assert |xs| * bound == (|xs| - 1) * bound + bound;
    }
  }

  lemma {:induction false} SumNonNegative<T>(xs: seq<T>, f: T -> int)
    requires forall x :: x in xs ==> 0 <= f(x)
    ensures 0 <= Sum(xs, f)
    ensures forall i :: 0 <= i < |xs| ==> f(xs[i]) <= Sum(xs, f)
  {
    if xs != [] {
      SumNonNegative(xs[..|xs| - 1], f);
    }
  }

  ghost predicate All<T>(xs: seq<T>, p: T -> bool) { forall x :: x in xs ==> p(x) }

  /** One more element of a sequence that is summed and checked from the left. */
  lemma PrefixStep<T>(xs: seq<T>, i: nat, p: T -> bool, f: T -> int)
    requires i < |xs|
    ensures All(xs[..i + 1], p) <==> All(xs[..i], p) && p(xs[i])
    ensures !p(xs[i]) ==> !All(xs, p)
    ensures Sum(xs[..i + 1], f) == Sum(xs[..i], f) + f(xs[i])
  {
    assert xs[..i + 1] == xs[..i] + [xs[i]];
    SumAppend(xs[..i], xs[i], f);
    assert xs[i] in xs && xs[i] in xs[..i + 1];
  }

  /** What every step keeps in a reflexive and transitive relation, a run of steps does. */
  lemma {:induction false} Chained<T(!new)>(xs: seq<T>, rel: (T, T) -> bool, i: nat, j: nat)
    requires i <= j < |xs| && forall x :: rel(x, x)
    requires forall x, y, z :: rel(x, y) && rel(y, z) ==> rel(x, z)
    requires forall k :: i <= k < j ==> rel(xs[k], xs[k + 1])
    ensures rel(xs[i], xs[j])
  {
    if i < j {
      Chained(xs, rel, i, j - 1);
      assert rel(xs[j - 1], xs[j - 1 + 1]);
    }
  }

  function Without<T>(xs: seq<T>, i: nat): seq<T>
    requires i < |xs|
  {
    xs[..i] + xs[i + 1..]
  }

  lemma WithoutMultiset<T>(xs: seq<T>, i: nat)
    requires i < |xs|
    ensures multiset(Without(xs, i)) == multiset(xs) - multiset{xs[i]}
  {
    assert xs == xs[..i] + [xs[i]] + xs[i + 1..];
  }

  lemma {:induction false} SumWithout<T>(xs: seq<T>, i: nat, f: T -> int)
    requires i < |xs|
    ensures Sum(xs, f) == Sum(Without(xs, i), f) + f(xs[i])
  {
    var n := |xs| - 1;
    if i == n {
      assert Without(xs, i) == xs[..n];
    } else {
      assert Without(xs, i)[..n - 1] == Without(xs[..n], i);
      SumWithout(xs[..n], i, f);
    }
  }

  /** A sum only sees how often each element occurs. */
  lemma {:induction false} SumPermutation<T>(xs: seq<T>, ys: seq<T>, f: T -> int)
    requires multiset(xs) == multiset(ys)
    ensures Sum(xs, f) == Sum(ys, f)
    decreases |xs|
  {
    if xs == [] {
      assert |multiset(ys)| == 0;
    } else {
      assert xs[0] in multiset(ys);
      var j :| 0 <= j < |ys| && ys[j] == xs[0];
      WithoutMultiset(xs, 0);
      WithoutMultiset(ys, j);
      SumPermutation(Without(xs, 0), Without(ys, j), f);
      SumWithout(xs, 0, f);
      SumWithout(ys, j, f);
    }
  }

  // ------------------------------------------------------------- filters

  function Filter<T>(xs: seq<T>, p: T -> bool): (ys: seq<T>)
    ensures forall x :: x in ys ==> x in xs && p(x)
    ensures forall x :: x in xs && p(x) ==> x in ys
  {
    if xs == [] then []
    else
      var last := xs[|xs| - 1];
      assert xs == xs[..|xs| - 1] + [last];
      var front := Filter(xs[..|xs| - 1], p);
      if p(last) then front + [last] else front
  }

  lemma FilterAppend<T>(xs: seq<T>, x: T, p: T -> bool)
    ensures Filter(xs + [x], p) == Filter(xs, p) + if p(x) then [x] else []
  {
    assert (xs + [x])[..|xs|] == xs;
  }

  lemma {:induction false} FilterConcat<T>(xs: seq<T>, ys: seq<T>, p: T -> bool)
    ensures Filter(xs + ys, p) == Filter(xs, p) + Filter(ys, p)
  {
    if ys == [] {
      assert xs + ys == xs;
    } else {
      var n := |ys| - 1;
      assert (xs + ys)[..|xs| + n] == xs + ys[..n];
      FilterConcat(xs, ys[..n], p);
    }
  }

  lemma {:induction false} FilterCounts<T>(xs: seq<T>, p: T -> bool, x: T)
    ensures multiset(Filter(xs, p))[x] == if p(x) then multiset(xs)[x] else 0
  {
    if xs != [] {
      FilterCounts(xs[..|xs| - 1], p, x);
      assert xs == xs[..|xs| - 1] + [xs[|xs| - 1]];
    }
  }

  lemma FilterPermutation<T>(xs: seq<T>, ys: seq<T>, p: T -> bool)
    requires multiset(xs) == multiset(ys)
    ensures multiset(Filter(xs, p)) == multiset(Filter(ys, p))
    ensures |Filter(xs, p)| == |Filter(ys, p)|
  {
    var a, b := multiset(Filter(xs, p)), multiset(Filter(ys, p));
    forall x ensures a[x] == b[x] {
      FilterCounts(xs, p, x);
      FilterCounts(ys, p, x);
    }
    SameCounts(a, b);
    assert |a| == |Filter(xs, p)| && |b| == |Filter(ys, p)|;
  }

  lemma SameCounts<T>(a: multiset<T>, b: multiset<T>)
    requires forall x :: a[x] == b[x]
    ensures a == b
  {}

  lemma {:induction false} FilterAll<T>(xs: seq<T>, p: T -> bool)
    requires forall x :: x in xs ==> p(x)
    ensures Filter(xs, p) == xs
  {
    if xs != [] {
      FilterAll(xs[..|xs| - 1], p);
      assert xs == xs[..|xs| - 1] + [xs[|xs| - 1]];
    }
  }

  lemma {:induction false} FilterNone<T>(xs: seq<T>, p: T -> bool)
    requires forall x :: x in xs ==> !p(x)
    ensures Filter(xs, p) == []
  {
    if xs != [] {
      FilterNone(xs[..|xs| - 1], p);
    }
  }

  function Mapped<T, U>(xs: seq<T>, f: T -> U): seq<U>
  {
    seq(|xs|, i requires 0 <= i < |xs| => f(xs[i]))
  }

  lemma MappedAppend<T, U>(xs: seq<T>, x: T, f: T -> U)
    ensures Mapped(xs + [x], f) == Mapped(xs, f) + [f(x)]
  {}

  lemma {:induction false} MappedCounts<T, U>(xs: seq<T>, f: T -> U, y: U)
    ensures multiset(Mapped(xs, f))[y] == |Filter(xs, x => f(x) == y)|
  {
    if xs != [] {
      var n := |xs| - 1;
      MappedCounts(xs[..n], f, y);
      assert xs == xs[..n] + [xs[n]];
      MappedAppend(xs[..n], xs[n], f);
    }
  }

  lemma MappedPermutation<T, U>(xs: seq<T>, ys: seq<T>, f: T -> U)
    requires multiset(xs) == multiset(ys)
    ensures multiset(Mapped(xs, f)) == multiset(Mapped(ys, f))
  {
    var a, b := multiset(Mapped(xs, f)), multiset(Mapped(ys, f));
    forall y ensures a[y] == b[y] {
      MappedCounts(xs, f, y);
      MappedCounts(ys, f, y);
      FilterPermutation(xs, ys, x => f(x) == y);
    }
    SameCounts(a, b);
  }

  predicate Distinct<T(==)>(xs: seq<T>)
  {
    forall i, j :: 0 <= i < j < |xs| ==> xs[i] != xs[j]
  }

  lemma DistinctConcat<T>(a: seq<T>, b: seq<T>)
    ensures Distinct(a + b) <==> Distinct(a) && Distinct(b) && forall x :: x in a ==> x !in b
  {
    var c := a + b;
    if Distinct(c) {
      forall i, j | 0 <= i < j < |b| ensures b[i] != b[j] {
        assert c[|a| + i] != c[|a| + j];
      }
      forall i, j | 0 <= i < j < |a| ensures a[i] != a[j] {
        assert c[i] != c[j];
      }
      forall x | x in a ensures x !in b {
        var i :| 0 <= i < |a| && a[i] == x;
        forall j | 0 <= j < |b| ensures b[j] != x {
          assert c[i] != c[|a| + j];
        }
      }
    }
    if Distinct(a) && Distinct(b) && forall x :: x in a ==> x !in b {
      forall i, j | 0 <= i < j < |c| ensures c[i] != c[j] {
        if i < |a| <= j {
          assert a[i] in a && b[j - |a|] in b;
        }
      }
    }
  }

  lemma {:induction false} DistinctCounts<T>(xs: seq<T>)
    requires Distinct(xs)
    ensures forall x :: multiset(xs)[x] <= 1
  {
    if xs != [] {
      var n := |xs| - 1;
      DistinctCounts(xs[..n]);
      assert xs == xs[..n] + [xs[n]];
      assert xs[n] !in xs[..n];
    }
  }

  lemma CountsDistinct<T>(xs: seq<T>)
    requires forall x :: multiset(xs)[x] <= 1
    ensures Distinct(xs)
  {
    forall i, j | 0 <= i < j < |xs| ensures xs[i] != xs[j] {
      assert xs == xs[..j] + xs[j..];
      assert xs[i] in xs[..j] && xs[j] in xs[j..];
      assert multiset(xs)[xs[i]] == multiset(xs[..j])[xs[i]] + multiset(xs[j..])[xs[i]];
    }
  }

  lemma PermutedDistinct<T>(xs: seq<T>, ys: seq<T>)
    requires multiset(xs) == multiset(ys)
    ensures Distinct(xs) <==> Distinct(ys)
    ensures forall x :: x in xs <==> x in ys
  {
    forall x ensures x in xs <==> x in ys {
      assert x in multiset(xs) <==> x in multiset(ys);
    }
    if Distinct(xs) {
      DistinctCounts(xs);
      CountsDistinct(ys);
    }
    if Distinct(ys) {
      DistinctCounts(ys);
      CountsDistinct(xs);
    }
  }

  /** Filtering keeps values distinct, and adds none. */
  lemma {:induction false} FilterMappedDistinct<T, U>(xs: seq<T>, f: T -> U, p: T -> bool)
    requires Distinct(Mapped(xs, f))
    ensures Distinct(Mapped(Filter(xs, p), f))
    ensures forall y :: y in Mapped(Filter(xs, p), f) ==> y in Mapped(xs, f)
  {
    if xs != [] {
      var n := |xs| - 1;
      assert xs == xs[..n] + [xs[n]];
      MappedAppend(xs[..n], xs[n], f);
      DistinctConcat(Mapped(xs[..n], f), [f(xs[n])]);
      FilterMappedDistinct(xs[..n], f, p);
      var front := Filter(xs[..n], p);
      MappedAppend(front, xs[n], f);
      DistinctConcat(Mapped(front, f), [f(xs[n])]);
    }
  }

  lemma FilterDistinct<T>(xs: seq<T>, p: T -> bool)
    requires Distinct(xs)
    ensures Distinct(Filter(xs, p))
  {
    assert Mapped(xs, (x: T) => x) == xs;
    FilterMappedDistinct(xs, (x: T) => x, p);
    assert Mapped(Filter(xs, p), (x: T) => x) == Filter(xs, p);
  }

  function Elements<T>(xs: seq<T>): set<T>
  {
    set x | x in xs
  }

  /** A sequence has as many elements as positions exactly when none repeats. */
  lemma {:induction false} DistinctSize<T>(xs: seq<T>)
    ensures |Elements(xs)| <= |xs|
    ensures |Elements(xs)| == |xs| <==> Distinct(xs)
  {
    if xs != [] {
      var n := |xs| - 1;
      DistinctSize(xs[..n]);
      assert xs == xs[..n] + [xs[n]];
      assert Elements(xs) == Elements(xs[..n]) + {xs[n]};
      DistinctConcat(xs[..n], [xs[n]]);
      if xs[n] in xs[..n] {
        assert Elements(xs) == Elements(xs[..n]);
      }
    }
  }

  // ------------------------------------------------------------- sorting

  ghost predicate TotalPreorder<T(!new)>(le: (T, T) -> bool)
  {
    && (forall x, y :: le(x, y) || le(y, x))
    && (forall x, y, z :: le(x, y) && le(y, z) ==> le(x, z))
  }

  ghost predicate Antisymmetric<T(!new)>(le: (T, T) -> bool)
  {
    forall x, y :: le(x, y) && le(y, x) ==> x == y
  }

  ghost predicate Sorted<T>(xs: seq<T>, le: (T, T) -> bool)
  {
    forall i, j :: 0 <= i < j < |xs| ==> le(xs[i], xs[j])
  }

  /** Inserts after every element that is `le` to it, so equal keys keep their order. */
  function Insert<T>(xs: seq<T>, x: T, le: (T, T) -> bool): seq<T>
  {
    if xs == [] || le(xs[|xs| - 1], x) then xs + [x]
    else Insert(xs[..|xs| - 1], x, le) + [xs[|xs| - 1]]
  }

  function Sort<T>(xs: seq<T>, le: (T, T) -> bool): seq<T>
  {
    if xs == [] then [] else Insert(Sort(xs[..|xs| - 1], le), xs[|xs| - 1], le)
  }

  lemma {:induction false} InsertElements<T>(xs: seq<T>, x: T, le: (T, T) -> bool)
    ensures multiset(Insert(xs, x, le)) == multiset(xs) + multiset{x}
    ensures forall y :: y in Insert(xs, x, le) ==> y in xs || y == x
  {
    if xs != [] && !le(xs[|xs| - 1], x) {
      var n := |xs| - 1;
      InsertElements(xs[..n], x, le);
      assert xs == xs[..n] + [xs[n]];
    }
  }

  lemma SortedAppend<T>(xs: seq<T>, x: T, le: (T, T) -> bool)
    requires Sorted(xs, le) && forall y :: y in xs ==> le(y, x)
    ensures Sorted(xs + [x], le)
  {}

  lemma {:induction false} InsertSorted<T(!new)>(xs: seq<T>, x: T, le: (T, T) -> bool)
    requires TotalPreorder(le) && Sorted(xs, le)
    ensures Sorted(Insert(xs, x, le), le)
  {
    if xs == [] {
    } else if le(xs[|xs| - 1], x) {
      forall y | y in xs ensures le(y, x) {
        var i :| 0 <= i < |xs| && xs[i] == y;
        assert i < |xs| - 1 ==> le(xs[i], xs[|xs| - 1]);
      }
      SortedAppend(xs, x, le);
    } else {
      var n := |xs| - 1;
      InsertSorted(xs[..n], x, le);
      InsertElements(xs[..n], x, le);
      forall y | y in Insert(xs[..n], x, le) ensures le(y, xs[n]) {
        assert y != x ==> y in xs[..n];
      }
      SortedAppend(Insert(xs[..n], x, le), xs[n], le);
    }
  }

  lemma {:induction false} SortSorts<T(!new)>(xs: seq<T>, le: (T, T) -> bool)
    requires TotalPreorder(le)
    ensures Sorted(Sort(xs, le), le)
    ensures multiset(Sort(xs, le)) == multiset(xs)
    ensures |Sort(xs, le)| == |xs|
  {
    if xs != [] {
      var n := |xs| - 1;
      SortSorts(xs[..n], le);
      InsertSorted(Sort(xs[..n], le), xs[n], le);
      InsertElements(Sort(xs[..n], le), xs[n], le);
      assert xs == xs[..n] + [xs[n]];
    }
    assert |multiset(Sort(xs, le))| == |multiset(xs)|;
  }

  lemma DropLast<T>(xs: seq<T>)
    requires xs != []
    ensures xs == xs[..|xs| - 1] + [xs[|xs| - 1]]
    ensures multiset(xs[..|xs| - 1]) == multiset(xs) - multiset{xs[|xs| - 1]}
  {}

  lemma SortedLast<T(!new)>(xs: seq<T>, x: T, le: (T, T) -> bool)
    requires TotalPreorder(le) && Sorted(xs, le) && x in multiset(xs)
    ensures xs != [] && le(x, xs[|xs| - 1])
  {
    var i :| 0 <= i < |xs| && xs[i] == x;
    assert i < |xs| - 1 ==> le(xs[i], xs[|xs| - 1]);
  }

  lemma {:induction false} SortedUnique<T(!new)>(xs: seq<T>, ys: seq<T>, le: (T, T) -> bool)
    requires TotalPreorder(le) && Antisymmetric(le)
    requires Sorted(xs, le) && Sorted(ys, le)
    requires multiset(xs) == multiset(ys)
    ensures xs == ys
  {
    assert |multiset(xs)| == |xs| && |multiset(ys)| == |ys|;
    if xs != [] {
      var n := |xs| - 1;
      SortedLast(xs, ys[n], le);
      SortedLast(ys, xs[n], le);
      DropLast(xs);
      DropLast(ys);
      assert Sorted(xs[..n], le) && Sorted(ys[..n], le);
      SortedUnique(xs[..n], ys[..n], le);
    }
  }

  /** Sorting by a total order is blind to the order of its input. */
  lemma SortPermutation<T(!new)>(xs: seq<T>, ys: seq<T>, le: (T, T) -> bool)
    requires TotalPreorder(le) && Antisymmetric(le)
    requires multiset(xs) == multiset(ys)
    ensures Sort(xs, le) == Sort(ys, le)
  {
    SortSorts(xs, le);
    SortSorts(ys, le);
    SortedUnique(Sort(xs, le), Sort(ys, le), le);
  }
}
