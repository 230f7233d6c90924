/**
 The stable library sorts (`list.sort`, `Array.prototype.sort`) and the filters
 that surround them, as functions with the facts the other modules need.
 */
module Sorting {

  ghost predicate TotalPreorder<T(!new)>(le: (T, T) -> bool) {
    && (forall a, b :: le(a, b) || le(b, a))
    && (forall a, b, c :: le(a, b) && le(b, c) ==> le(a, c))
  }

  ghost predicate Sorted<T>(s: seq<T>, le: (T, T) -> bool) {
    forall i, j :: 0 <= i < j < |s| ==> le(s[i], s[j])
  }

  function Filter<T>(s: seq<T>, keep: T -> bool): seq<T> {
    if s == [] then []
    else if keep(s[0]) then [s[0]] + Filter(s[1..], keep)
    else Filter(s[1..], keep)
  }

  /** Puts `x` in front of the first element it does not have to follow. */
  function Insert<T>(x: T, s: seq<T>, le: (T, T) -> bool): seq<T> {
    if s == [] then [x]
    else if le(x, s[0]) then [x] + s
    else [s[0]] + Insert(x, s[1..], le)
  }

  /** A stable sort: equal elements keep their input order. */
  function StableSort<T>(s: seq<T>, le: (T, T) -> bool): seq<T> {
    if s == [] then [] else Insert(s[0], StableSort(s[1..], le), le)
  }

  function Map<A, B>(s: seq<A>, f: A -> B): seq<B> {
    if s == [] then [] else [f(s[0])] + Map(s[1..], f)
  }

  // ---- filtering ----

  lemma {:induction false} FilterMember<T>(s: seq<T>, keep: T -> bool)
    ensures |Filter(s, keep)| <= |s|
    ensures forall x :: x in Filter(s, keep) <==> x in s && keep(x)
  {
    if s != [] {
      FilterMember(s[1..], keep);
      assert s == [s[0]] + s[1..];
    }
  }

  lemma {:induction false} FilterConcat<T>(a: seq<T>, b: seq<T>, keep: T -> bool)
    ensures Filter(a + b, keep) == Filter(a, keep) + Filter(b, keep)
  {
    if a == [] {
      assert a + b == b;
    } else {
      FilterConcat(a[1..], b, keep);
      assert (a + b)[0] == a[0] && (a + b)[1..] == a[1..] + b;
      if keep(a[0]) {
        assert [a[0]] + (Filter(a[1..], keep) + Filter(b, keep)) == ([a[0]] + Filter(a[1..], keep)) + Filter(b, keep);
      }
    }
  }

  lemma {:induction false} FilterAll<T>(s: seq<T>, keep: T -> bool)
    requires forall x :: x in s ==> keep(x)
    ensures Filter(s, keep) == s
  {
    if s != [] {
      FilterAll(s[1..], keep);
    }
  }

  lemma {:induction false} FilterNone<T>(s: seq<T>, keep: T -> bool)
    requires forall x :: x in s ==> !keep(x)
    ensures Filter(s, keep) == []
  {
    if s != [] {
      FilterNone(s[1..], keep);
    }
  }

  /** Filtering by a stronger condition makes an earlier, weaker filter superfluous. */
  lemma {:induction false} FilterStronger<T>(s: seq<T>, weak: T -> bool, strong: T -> bool)
    requires forall x :: x in s && strong(x) ==> weak(x)
    ensures Filter(Filter(s, weak), strong) == Filter(s, strong)
  {
    if s != [] {
      assert s[0] in s;
      FilterStronger(s[1..], weak, strong);
      FilterCons(s[0], Filter(s[1..], weak), strong);
    }
  }

  /** The number of leading elements that satisfy `keep`. */
  function Leading<T>(s: seq<T>, keep: T -> bool): (n: nat)
    ensures n <= |s|
    ensures forall i :: 0 <= i < n ==> keep(s[i])
    ensures n < |s| ==> !keep(s[n])
  {
    if s == [] || !keep(s[0]) then 0 else 1 + Leading(s[1..], keep)
  }

  /** A filter that keeps exactly the first `n` elements is the prefix of length `n`. */
  lemma FilterPrefix<T>(s: seq<T>, keep: T -> bool, n: nat)
    requires n <= |s|
    requires forall i :: 0 <= i < n ==> keep(s[i])
    requires forall i :: n <= i < |s| ==> !keep(s[i])
    ensures Filter(s, keep) == s[..n]
  {
    assert s == s[..n] + s[n..];
    FilterConcat(s[..n], s[n..], keep);
    FilterAll(s[..n], keep);
    FilterNone(s[n..], keep);
  }

  // ---- sorting ----

  lemma {:induction false} InsertKeeps<T>(x: T, s: seq<T>, le: (T, T) -> bool)
    ensures multiset(Insert(x, s, le)) == multiset{x} + multiset(s)
  {
    if s != [] && !le(x, s[0]) {
      InsertKeeps(x, s[1..], le);
      assert s == [s[0]] + s[1..];
    }
  }

  lemma {:induction false} SortPermutes<T>(s: seq<T>, le: (T, T) -> bool)
    ensures multiset(StableSort(s, le)) == multiset(s)
  {
    if s != [] {
      SortPermutes(s[1..], le);
      InsertKeeps(s[0], StableSort(s[1..], le), le);
      assert s == [s[0]] + s[1..];
    }
  }

  lemma SortMember<T>(s: seq<T>, le: (T, T) -> bool, x: T)
    ensures x in StableSort(s, le) <==> x in s
  {
    SortPermutes(s, le);
    assert x in multiset(s) <==> x in s;
    assert x in multiset(StableSort(s, le)) <==> x in StableSort(s, le);
  }

  lemma {:induction false} InsertSorts<T(!new)>(x: T, s: seq<T>, le: (T, T) -> bool)
    requires TotalPreorder(le) && Sorted(s, le)
    ensures Sorted(Insert(x, s, le), le)
  {
    if s != [] {
      if le(x, s[0]) {
        forall j | 0 <= j < |s| ensures le(x, s[j]) {
          assert j == 0 || le(s[0], s[j]);
        }
      } else {
        var rest := Insert(x, s[1..], le);
        InsertSorts(x, s[1..], le);
        InsertKeeps(x, s[1..], le);
        forall y | y in rest ensures le(s[0], y) {
          assert y in multiset(rest);
          if y != x {
            var j :| 0 <= j < |s[1..]| && s[1..][j] == y;
            assert s[1 + j] == y;
          }
        }
      }
    }
  }

  lemma {:induction false} SortSorts<T(!new)>(s: seq<T>, le: (T, T) -> bool)
    requires TotalPreorder(le)
    ensures Sorted(StableSort(s, le), le)
  {
    if s != [] {
      SortSorts(s[1..], le);
      InsertSorts(s[0], StableSort(s[1..], le), le);
    }
  }

  /** Sorting a list that is in order already changes nothing. */
  lemma {:induction false} SortIdentity<T>(s: seq<T>, le: (T, T) -> bool)
    requires Sorted(s, le)
    ensures StableSort(s, le) == s
  {
    if s != [] {
      SortIdentity(s[1..], le);
      if |s| > 1 {
        assert le(s[0], s[1]);
      }
    }
  }

  /** One step of a filter over a list given by its head and tail. */
  lemma FilterCons<T>(x: T, s: seq<T>, keep: T -> bool)
    ensures Filter([x] + s, keep) == if keep(x) then [x] + Filter(s, keep) else Filter(s, keep)
  {
    assert ([x] + s)[1..] == s;
  }

  lemma InsertFront<T>(x: T, s: seq<T>, le: (T, T) -> bool)
    requires forall y :: y in s ==> le(x, y)
    ensures Insert(x, s, le) == [x] + s
  {
  }

  lemma InsertBehind<T>(x: T, y: T, s: seq<T>, le: (T, T) -> bool)
    requires !le(x, y)
    ensures Insert(x, [y] + s, le) == [y] + Insert(x, s, le)
  {
    assert ([y] + s)[1..] == s;
  }

  lemma {:induction false} InsertFilter<T(!new)>(x: T, s: seq<T>, le: (T, T) -> bool, keep: T -> bool)
    requires TotalPreorder(le) && Sorted(s, le)
    ensures Filter(Insert(x, s, le), keep)
         == if keep(x) then Insert(x, Filter(s, keep), le) else Filter(s, keep)
  {
    if s == [] {
    } else if le(x, s[0]) {
      forall y | y in s ensures le(x, y) {
        var j :| 0 <= j < |s| && s[j] == y;
        assert j == 0 || le(s[0], s[j]);
      }
      FilterCons(x, s, keep);
      FilterMember(s, keep);
      InsertFront(x, Filter(s, keep), le);
    } else {
      InsertFilter(x, s[1..], le, keep);
      FilterCons(s[0], Insert(x, s[1..], le), keep);
      InsertBehind(x, s[0], Filter(s[1..], keep), le);
    }
  }

  /** Filtering before or after a stable sort gives the same list. */
  lemma {:induction false} SortFilter<T(!new)>(s: seq<T>, le: (T, T) -> bool, keep: T -> bool)
    requires TotalPreorder(le)
    ensures Filter(StableSort(s, le), keep) == StableSort(Filter(s, keep), le)
  {
    if s != [] {
      SortFilter(s[1..], le, keep);
      SortSorts(s[1..], le);
      InsertFilter(s[0], StableSort(s[1..], le), le, keep);
      if keep(s[0]) {
        assert ([s[0]] + Filter(s[1..], keep))[1..] == Filter(s[1..], keep);
      }
    }
  }

  lemma LeastFirst<T>(a: seq<T>, le: (T, T) -> bool, x: T)
    requires Sorted(a, le) && x in a
    ensures a[0] == x || le(a[0], x)
  {
    var j :| 0 <= j < |a| && a[j] == x;
  }

  lemma MultisetRest<T>(s: seq<T>)
    requires s != []
    ensures multiset(s[1..]) == multiset(s) - multiset{s[0]}
  {
    assert s == [s[0]] + s[1..];
  }

  lemma SameHead<T(!new)>(a: seq<T>, b: seq<T>, le: (T, T) -> bool)
    requires Sorted(a, le) && Sorted(b, le) && multiset(a) == multiset(b) && a != [] && NoTies(a, le)
    ensures b != [] && a[0] == b[0]
  {
    var x := a[0];
    assert x in multiset(b);
    var y := b[0];
    assert y in multiset(a);
    LeastFirst(b, le, x);
    LeastFirst(a, le, y);
  }

  ghost predicate NoTies<T(!new)>(s: seq<T>, le: (T, T) -> bool) {
    forall x, y :: x in s && y in s && le(x, y) && le(y, x) ==> x == y
  }

  /** A sorted list is determined by its elements when no two of them tie. */
  lemma {:induction false} SortedUnique<T(!new)>(a: seq<T>, b: seq<T>, le: (T, T) -> bool)
    requires Sorted(a, le) && Sorted(b, le)
    requires multiset(a) == multiset(b)
    requires NoTies(a, le)
    ensures a == b
  {
    hide Sorted, NoTies;
    if a == [] {
      assert |multiset(b)| == |b|;
    } else {
      SameHead(a, b, le);
      RestIsSorted(a, le);
      RestIsSorted(b, le);
      RestHasNoTies(a, le);
      RestsMatch(a, b);
      SortedUnique(a[1..], b[1..], le);
      SameWhole(a, b);
    }
  }

  lemma RestsMatch<T>(a: seq<T>, b: seq<T>)
    requires a != [] && b != [] && a[0] == b[0] && multiset(a) == multiset(b)
    ensures multiset(a[1..]) == multiset(b[1..])
  {
    MultisetRest(a);
    MultisetRest(b);
  }

  lemma SameWhole<T>(a: seq<T>, b: seq<T>)
    requires a != [] && b != [] && a[0] == b[0] && a[1..] == b[1..]
    ensures a == b
  {
    assert a == [a[0]] + a[1..] && b == [b[0]] + b[1..];
  }

  lemma RestHasNoTies<T(!new)>(s: seq<T>, le: (T, T) -> bool)
    requires NoTies(s, le) && s != []
    ensures NoTies(s[1..], le)
  {
    forall x | x in s[1..] ensures x in s {
    }
  }

  lemma RestIsSorted<T>(s: seq<T>, le: (T, T) -> bool)
    requires Sorted(s, le) && s != []
    ensures Sorted(s[1..], le)
  {
  }

  // ---- mapping ----

  lemma {:induction false} MapConcat<A, B>(a: seq<A>, b: seq<A>, f: A -> B)
    ensures Map(a + b, f) == Map(a, f) + Map(b, f)
  {
    if a == [] {
      assert a + b == b;
    } else {
      MapConcat(a[1..], b, f);
      assert (a + b)[0] == a[0] && (a + b)[1..] == a[1..] + b;
    }
  }

  lemma {:induction false} MapMember<A, B>(s: seq<A>, f: A -> B, y: B)
    ensures |Map(s, f)| == |s|
    ensures y in Map(s, f) <==> exists x :: x in s && f(x) == y
  {
    if s != [] {
      MapMember(s[1..], f, y);
      assert s == [s[0]] + s[1..];
    }
  }

  lemma {:induction false} MapSame<A, B>(s: seq<A>, f: A -> B, g: A -> B)
    requires forall x :: x in s ==> f(x) == g(x)
    ensures Map(s, f) == Map(s, g)
  {
    if s != [] {
      assert s[0] in s;
      MapSame(s[1..], f, g);
    }
  }

  function Without<A>(s: seq<A>, j: nat): (r: seq<A>)
    requires j < |s|
    ensures |r| == |s| - 1
  {
    s[..j] + s[j + 1..]
  }

  lemma MultisetWithout<A>(s: seq<A>, j: nat)
    requires j < |s|
    ensures multiset(Without(s, j)) == multiset(s) - multiset{s[j]}
  {
    assert s == s[..j] + [s[j]] + s[j + 1..];
  }

  lemma MapCons<A, B>(x: A, s: seq<A>, f: A -> B)
    ensures Map([x] + s, f) == [f(x)] + Map(s, f)
  {
    assert ([x] + s)[1..] == s;
  }

  lemma WithoutCons<A>(s: seq<A>, j: nat)
    requires j < |s|
    ensures Without(s, j) == if j == 0 then s[1..] else [s[0]] + Without(s[1..], j - 1)
  {
  }

  lemma {:induction false} MapWithout<A, B>(s: seq<A>, j: nat, f: A -> B)
    requires j < |s|
    ensures multiset(Map(s, f)) == multiset{f(s[j])} + multiset(Map(Without(s, j), f))
  {
    hide Map, Without;
    assert s == [s[0]] + s[1..];
    MapCons(s[0], s[1..], f);
    WithoutCons(s, j);
    if j > 0 {
      MapWithout(s[1..], j - 1, f);
      MapCons(s[0], Without(s[1..], j - 1), f);
    }
  }

  /** Mapping two orders of the same elements gives two orders of the same results. */
  lemma {:induction false} MapPermutes<A, B>(a: seq<A>, b: seq<A>, f: A -> B)
    requires multiset(a) == multiset(b)
    ensures multiset(Map(a, f)) == multiset(Map(b, f))
    decreases |a|
  {
    hide Map, Without;
    assert |multiset(a)| == |a| && |multiset(b)| == |b|;
    if a == [] {
      assert b == [];
    } else {
      assert a[0] in multiset(b);
      var j :| 0 <= j < |b| && b[j] == a[0];
      MultisetWithout(a, 0);
      MultisetWithout(b, j);
      MapPermutes(Without(a, 0), Without(b, j), f);
      MapWithout(a, 0, f);
      MapWithout(b, j, f);
    }
  }

  /** A filter and its complement split the mapped elements. */
  lemma {:induction false} MapSplits<A, B>(s: seq<A>, keep: A -> bool, drop: A -> bool, f: A -> B)
    requires forall x :: x in s ==> keep(x) != drop(x)
    ensures multiset(Map(Filter(s, keep), f)) + multiset(Map(Filter(s, drop), f)) == multiset(Map(s, f))
  {
    if s != [] {
      assert s[0] in s;
      MapSplits(s[1..], keep, drop, f);
    }
  }

  lemma {:induction false} FilterWithout<A>(s: seq<A>, j: nat, keep: A -> bool)
    requires j < |s|
    ensures multiset(Filter(s, keep))
         == (if keep(s[j]) then multiset{s[j]} else multiset{}) + multiset(Filter(Without(s, j), keep))
  {
    if j == 0 {
      assert Without(s, 0) == s[1..];
    } else {
      FilterWithout(s[1..], j - 1, keep);
      assert Without(s, j)[0] == s[0] && Without(s, j)[1..] == Without(s[1..], j - 1);
    }
  }

  lemma {:induction false} FilterPermutes<A>(a: seq<A>, b: seq<A>, keep: A -> bool)
    requires multiset(a) == multiset(b)
    ensures multiset(Filter(a, keep)) == multiset(Filter(b, keep))
    decreases |a|
  {
    hide Filter, Without;
    assert |multiset(a)| == |a| && |multiset(b)| == |b|;
    if a == [] {
      assert b == [];
    } else {
      assert a[0] in multiset(b);
      var j :| 0 <= j < |b| && b[j] == a[0];
      MultisetWithout(a, 0);
      MultisetWithout(b, j);
      FilterPermutes(Without(a, 0), Without(b, j), keep);
      FilterWithout(a, 0, keep);
      FilterWithout(b, j, keep);
    }
  }

  // ---- first elements ----

  /** A stable sort begins with the first of the least elements. */
  lemma {:induction false} SortHead<T(!new)>(s: seq<T>, le: (T, T) -> bool) returns (j: nat)
    requires TotalPreorder(le) && s != []
    ensures j < |s| && StableSort(s, le) != [] && StableSort(s, le)[0] == s[j]
    ensures forall i :: 0 <= i < |s| ==> le(s[j], s[i])
    ensures forall i :: 0 <= i < j ==> !le(s[i], s[j])
  {
    if |s| == 1 {
      j := 0;
    } else {
      var k := SortHead(s[1..], le);
      assert s[1..][k] == s[k + 1];
      j := if le(s[0], s[k + 1]) then 0 else k + 1;
      assert forall i :: 1 <= i < |s| ==> s[1..][i - 1] == s[i];
    }
  }

  /** A filter begins with the first element that it keeps. */
  lemma {:induction false} FilterHead<T>(s: seq<T>, keep: T -> bool) returns (j: nat)
    requires exists x :: x in s && keep(x)
    ensures j < |s| && keep(s[j]) && Filter(s, keep) != [] && Filter(s, keep)[0] == s[j]
    ensures forall i :: 0 <= i < j ==> !keep(s[i])
  {
    if keep(s[0]) {
      j := 0;
    } else {
      var x :| x in s && keep(x);
      assert x in s[1..];
      var k := FilterHead(s[1..], keep);
      j := k + 1;
    }
  }
}
