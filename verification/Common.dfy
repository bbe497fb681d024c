/** Shared vocabulary: outcomes of a validating builder, and a few facts about finite sequences. */
module Common {

  datatype Option<+T> = None | Some(value: T)

  /** A Python call that either returns a value or raises ValueError. */
  datatype Result<+T> = Ok(value: T) | Rejected(reason: string)

  ghost predicate Distinct<T>(s: seq<T>) {
    forall i, j :: 0 <= i < j < |s| ==> s[i] != s[j]
  }

  lemma FirstIn<T>(s: seq<T>)
    requires s != []
    ensures s[0] in s
  {
  }

  predicate StartsWith(s: string, prefix: string) {
    |prefix| <= |s| && s[..|prefix|] == prefix
  }

  function ToSet<T>(s: seq<T>): set<T> {
    set x | x in s
  }

  /** A list of the elements of a set, in some order. */
  method ListOf<T(==)>(values: set<T>) returns (list: seq<T>)
    ensures list == [] <==> values == {}
    ensures forall x :: x in list <==> x in values
  {
    list := [];
    var rest := values;
    while rest != {}
      invariant rest <= values && forall x :: x in list <==> x in values - rest
      invariant list == [] ==> rest == values
      decreases |rest|
    {
      var x :| x in rest;
      list, rest := list + [x], rest - {x};
    }
    if list != [] {
      FirstIn(list);
    }
  }

  lemma {:induction false} DistinctIffNoRepeats<T(!new)>(s: seq<T>)
    ensures Distinct(s) <==> forall x :: multiset(s)[x] <= 1
  {
    if s == [] {
    } else {
      var init, last := s[..|s| - 1], s[|s| - 1];
      DistinctIffNoRepeats(init);
      assert s == init + [last];
      assert multiset(s)[last] == multiset(init)[last] + 1;
      assert last in init <==> multiset(init)[last] > 0;
      if Distinct(s) {
        assert forall i :: 0 <= i < |init| ==> init[i] == s[i] != last;
      } else if Distinct(init) {
        var i, j :| 0 <= i < j < |s| && s[i] == s[j];
        assert init[i] == s[i];
        assert multiset(s)[last] > 1;
      } else {
        var x :| multiset(init)[x] > 1;
        assert multiset(s)[x] > 1;
      }
    }
  }

  /** len(s) == len(set(s)) exactly when s has no duplicates. */
  lemma {:induction false} DistinctIffFullSet<T>(s: seq<T>)
    ensures |ToSet(s)| <= |s|
    ensures Distinct(s) <==> |ToSet(s)| == |s|
  {
    if s == [] {
    } else {
      var init, last := s[..|s| - 1], s[|s| - 1];
      DistinctIffFullSet(init);
      assert s == init + [last];
      assert ToSet(s) == ToSet(init) + {last};
      assert forall i :: 0 <= i < |init| ==> init[i] == s[i];
      if last in ToSet(init) {
        var i :| 0 <= i < |init| && init[i] == last;
        assert s[i] == s[|init|];
      }
    }
  }

  /** [x for x in s if x in keep] */
  function Keep<T(==)>(s: seq<T>, keep: set<T>): seq<T> {
    if s == [] then [] else Keep(s[..|s| - 1], keep) + (if s[|s| - 1] in keep then [s[|s| - 1]] else [])
  }

  lemma {:induction false} KeepElements<T>(s: seq<T>, keep: set<T>)
    ensures forall x :: x in Keep(s, keep) <==> x in s && x in keep
    ensures Distinct(s) ==> Distinct(Keep(s, keep))
  {
    if s == [] {
    } else {
      var init, last := s[..|s| - 1], s[|s| - 1];
      KeepElements(init, keep);
      assert s == init + [last];
      if Distinct(s) {
        assert forall i :: 0 <= i < |init| ==> init[i] == s[i] != last;
        assert last !in init;
        assert forall i :: 0 <= i < |Keep(init, keep)| ==> Keep(init, keep)[i] in Keep(init, keep);
      }
    }
  }

  /** All that the elements of a list have. */
  ghost function Union<P(!new), X>(s: seq<P>, f: P -> set<X>): set<X> {
    set p, x | p in s && x in f(p) :: x
  }

  lemma UnionNext<P(!new), X>(s: seq<P>, i: nat, f: P -> set<X>)
    requires i < |s|
    ensures Union(s[..i + 1], f) == Union(s[..i], f) + f(s[i])
  {
    assert forall p :: p in s[..i + 1] <==> p in s[..i] || p == s[i] by {
      PrefixNext(s, i);
    }
  }

  /** [x for x in s if keep(x)] */
  function Filter<T>(s: seq<T>, keep: T -> bool): seq<T> {
    if s == [] then [] else Filter(s[..|s| - 1], keep) + (if keep(s[|s| - 1]) then [s[|s| - 1]] else [])
  }

  lemma {:induction false} FilterConcat<T>(a: seq<T>, b: seq<T>, keep: T -> bool)
    ensures Filter(a + b, keep) == Filter(a, keep) + Filter(b, keep)
  {
    if b == [] {
      assert a + b == a;
    } else {
      FilterConcat(a, b[..|b| - 1], keep);
      assert (a + b)[..|a + b| - 1] == a + b[..|b| - 1];
    }
  }

  lemma {:induction false} FilterAllOrNone<T>(s: seq<T>, keep: T -> bool, kept: bool)
    requires forall i :: 0 <= i < |s| ==> keep(s[i]) == kept
    ensures Filter(s, keep) == if kept then s else []
  {
    if s == [] {
    } else {
      FilterAllOrNone(s[..|s| - 1], keep, kept);
      assert s == s[..|s| - 1] + [s[|s| - 1]];
    }
  }

  lemma {:induction false} FilterHas<T>(s: seq<T>, keep: T -> bool, x: T)
    ensures x in Filter(s, keep) <==> x in s && keep(x)
  {
    if s == [] {
    } else {
      FilterHas(s[..|s| - 1], keep, x);
      assert s == s[..|s| - 1] + [s[|s| - 1]];
    }
  }

  lemma FilterAppend<T>(s: seq<T>, x: T, keep: T -> bool)
    ensures Filter(s + [x], keep) == Filter(s, keep) + if keep(x) then [x] else []
  {
    assert (s + [x])[..|s|] == s;
  }

  /** Replacing an element adds and removes at most one. */
  lemma {:induction false} FilterUpdate<T>(s: seq<T>, i: nat, x: T, keep: T -> bool)
    requires i < |s|
    ensures |Filter(s[i := x], keep)| + (if keep(s[i]) then 1 else 0) == |Filter(s, keep)| + (if keep(x) then 1 else 0)
  {
    var n := |s| - 1;
    if i == n {
      assert s[i := x][..n] == s[..n];
    } else {
      FilterUpdate(s[..n], i, x, keep);
      assert s[i := x][..n] == s[..n][i := x];
    }
  }

  lemma {:induction false} FilterSame<T>(s: seq<T>, keep: T -> bool, other: T -> bool)
    requires forall x :: x in s ==> keep(x) == other(x)
    ensures Filter(s, keep) == Filter(s, other)
  {
    if s == [] {
    } else {
      FilterSame(s[..|s| - 1], keep, other);
      assert s[|s| - 1] in s;
    }
  }

  function Not<T>(p: T -> bool): T -> bool {
    x => !p(x)
  }

  /** A list of different elements, split by a test. */
  lemma {:induction false} SplitExact<T(!new)>(s: seq<T>, keep: T -> bool)
    ensures forall x :: x in Filter(s, Not(keep)) + Filter(s, keep) <==> x in s
    ensures Distinct(s) ==> Distinct(Filter(s, Not(keep)) + Filter(s, keep))
  {
    forall x
      ensures x in Filter(s, keep) <==> x in s && keep(x)
      ensures x in Filter(s, Not(keep)) <==> x in s && !keep(x)
    {
      FilterHas(s, keep, x);
      FilterHas(s, Not(keep), x);
    }
    if Distinct(s) {
      FilterDistinct(s, keep);
      FilterDistinct(s, Not(keep));
      assert forall i :: 0 <= i < |Filter(s, keep)| ==> Filter(s, keep)[i] in Filter(s, keep);
      assert forall i :: 0 <= i < |Filter(s, Not(keep))| ==> Filter(s, Not(keep))[i] in Filter(s, Not(keep));
    }
  }

  lemma {:induction false} FilterDistinct<T(!new)>(s: seq<T>, keep: T -> bool)
    requires Distinct(s)
    ensures Distinct(Filter(s, keep))
  {
    if s == [] {
    } else {
      var init, last := s[..|s| - 1], s[|s| - 1];
      FilterDistinct(init, keep);
      assert forall i :: 0 <= i < |init| ==> init[i] == s[i] != last;
      FilterHas(init, keep, last);
      assert last !in Filter(init, keep);
    }
  }

  /** Lists kept from one list are equal exactly when the kept sets are. */
  lemma KeepEqual<T>(s: seq<T>, a: set<T>, b: set<T>)
    requires forall x :: x in a || x in b ==> x in s
    ensures Keep(s, a) == Keep(s, b) <==> a == b
  {
    KeepElements(s, a);
    KeepElements(s, b);
    if Keep(s, a) == Keep(s, b) {
      assert forall x :: x in a <==> x in Keep(s, a);
      assert forall x :: x in b <==> x in Keep(s, b);
    }
  }

  /** Any two elements of a list stand in a relation, the earlier one first. */
  ghost predicate Pairwise<T>(s: seq<T>, r: (T, T) -> bool) {
    forall i, j :: 0 <= i < j < |s| ==> r(s[i], s[j])
  }

  lemma {:induction false} KeepNothing<T>(s: seq<T>)
    ensures Keep(s, {}) == []
  {
    if s != [] {
      KeepNothing(s[..|s| - 1]);
    }
  }

  lemma {:induction false} KeepIndex<T>(s: seq<T>, keep: set<T>, i: nat) returns (k: nat)
    requires i < |Keep(s, keep)|
    ensures k < |s| && s[k] == Keep(s, keep)[i]
  {
    var n := |s| - 1;
    if i < |Keep(s[..n], keep)| {
      k := KeepIndex(s[..n], keep, i);
    } else {
      k := n;
    }
  }

  /** What is kept of a list keeps its order. */
  lemma {:induction false} KeepPairwise<T>(s: seq<T>, keep: set<T>, r: (T, T) -> bool)
    requires Pairwise(s, r)
    ensures Pairwise(Keep(s, keep), r)
  {
    if s == [] {
    } else {
      var init, last := s[..|s| - 1], s[|s| - 1];
      KeepPairwise(init, keep, r);
      forall i | 0 <= i < |Keep(init, keep)|
        ensures r(Keep(init, keep)[i], last)
      {
        var k := KeepIndex(init, keep, i);
        assert r(s[k], s[|s| - 1]);
      }
    }
  }

  /** [(x, y) for y in b] */
  function Beside<A, B>(x: A, b: seq<B>): seq<(A, B)> {
    seq(|b|, i requires 0 <= i < |b| => (x, b[i]))
  }

  /** [(x, y) for x in a for y in b] */
  function Product<A, B>(a: seq<A>, b: seq<B>): seq<(A, B)> {
    if a == [] then [] else Product(a[..|a| - 1], b) + Beside(a[|a| - 1], b)
  }

  lemma {:induction false} ProductElements<A, B>(a: seq<A>, b: seq<B>)
    ensures forall x, y :: (x, y) in Product(a, b) <==> x in a && y in b
    ensures Distinct(a) && Distinct(b) ==> Distinct(Product(a, b))
  {
    if a == [] {
    } else {
      var init, last := a[..|a| - 1], a[|a| - 1];
      ProductElements(init, b);
      assert a == init + [last];
      forall x, y
        ensures (x, y) in Beside(last, b) <==> x == last && y in b
      {
        if y in b {
          var i :| 0 <= i < |b| && b[i] == y;
          assert Beside(last, b)[i] == (last, y);
        }
      }
      if Distinct(a) && Distinct(b) {
        assert forall i :: 0 <= i < |init| ==> init[i] == a[i] != last;
        var rest := Product(init, b);
        assert forall i :: 0 <= i < |rest| ==> (rest[i].0, rest[i].1) in rest;
        assert forall i, j :: 0 <= i < j < |b| ==> Beside(last, b)[i] != Beside(last, b)[j];
      }
    }
  }

  /** Row k of the product of a with b is item k / |b| of a with item k % |b| of b. */
  lemma {:induction false} ProductAt<A, B>(a: seq<A>, b: seq<B>, i: nat, j: nat)
    requires i < |a| && j < |b|
    ensures |Product(a, b)| == |a| * |b| && i * |b| + j < |a| * |b|
    ensures Product(a, b)[i * |b| + j] == (a[i], b[j])
  {
    var n := |a| - 1;
    ProductLength(a, b);
    ProductLength(a[..n], b);
    assert |a| * |b| == n * |b| + |b|;
    if i == n {
    } else {
      ProductAt(a[..n], b, i, j);
    }
  }

  lemma {:induction false} ProductLength<A, B>(a: seq<A>, b: seq<B>)
    ensures |Product(a, b)| == |a| * |b|
  {
    if a == [] {
    } else {
      ProductLength(a[..|a| - 1], b);
      assert |a| * |b| == (|a| - 1) * |b| + |b|;
    }
  }

  ghost predicate Ranked<T>(s: seq<T>, rank: T -> int) {
    forall i, j :: 0 <= i < j < |s| ==> rank(s[i]) < rank(s[j])
  }

  ghost predicate SameElements<T(!new)>(a: seq<T>, b: seq<T>) {
    forall x :: x in a <==> x in b
  }

  /** Two lists in strictly increasing rank with the same elements are the same list. */
  lemma {:induction false} RankedListUnique<T(!new)>(a: seq<T>, b: seq<T>, rank: T -> int)
    requires Ranked(a, rank) && Ranked(b, rank) && |a| == |b| && SameElements(a, b)
    ensures a == b
  {
    if |a| == 0 {
    } else {
      assert a[|a| - 1] in b;
      var x, y := a[|a| - 1], b[|b| - 1];
      assert y in a && x == y;
      LastOut(a, rank);
      LastOut(b, rank);
      var restA, restB := a[..|a| - 1], b[..|b| - 1];
      forall z | z in restA
        ensures z in restB
      {
        assert z in a && z in b;
      }
      forall z | z in restB
        ensures z in restA
      {
        assert z in b && z in a;
      }
      RankedListUnique(restA, restB, rank);
      assert a == restA + [x] && b == restB + [x];
    }
  }

  lemma LastOut<T>(s: seq<T>, rank: T -> int)
    requires s != [] && Ranked(s, rank)
    ensures Ranked(s[..|s| - 1], rank)
    ensures forall x :: x in s[..|s| - 1] <==> x in s && x != s[|s| - 1]
  {
    var init, last := s[..|s| - 1], s[|s| - 1];
    assert s == init + [last];
    assert forall i :: 0 <= i < |init| ==> init[i] == s[i] && rank(init[i]) < rank(last);
  }

  lemma PrefixNext<T>(s: seq<T>, i: nat)
    requires i < |s|
    ensures multiset(s[..i + 1]) == multiset(s[..i]) + multiset{s[i]}
    ensures multiset(s[..i + 1]) <= multiset(s)
    ensures forall x :: x in s[..i + 1] <==> x in s[..i] || x == s[i]
  {
    assert s[..i + 1] == s[..i] + [s[i]] && s == s[..i + 1] + s[i + 1..];
  }

  lemma RepeatCountsTwice<T>(s: seq<T>, i: nat)
    requires i < |s| && s[i] in s[..i]
    ensures multiset(s)[s[i]] >= 2
  {
    PrefixNext(s, i);
    assert s[i] in multiset(s[..i]);
  }

  lemma DistinctNext<T>(s: seq<T>, i: nat)
    requires i < |s| && Distinct(s[..i]) && s[i] !in s[..i]
    ensures Distinct(s[..i + 1])
  {
    assert forall j :: 0 <= j < i ==> s[..i][j] == s[j] && s[j] in s[..i];
    assert forall j :: 0 <= j <= i ==> s[..i + 1][j] == s[j];
  }

  ghost predicate SortedBy<T>(s: seq<T>, rank: T -> int) {
    forall i, j :: 0 <= i < j < |s| ==> rank(s[i]) <= rank(s[j])
  }

  /** x goes after everything that does not rank above it, so the sort is stable. */
  function Insert<T>(x: T, s: seq<T>, rank: T -> int): seq<T> {
    if s == [] || rank(s[|s| - 1]) <= rank(x) then s + [x]
    else Insert(x, s[..|s| - 1], rank) + [s[|s| - 1]]
  }

  lemma {:induction false} InsertKeepsElements<T>(x: T, s: seq<T>, rank: T -> int)
    ensures multiset(Insert(x, s, rank)) == multiset(s) + multiset{x}
  {
    if s == [] {
    } else {
      assert s == s[..|s| - 1] + [s[|s| - 1]];
      InsertKeepsElements(x, s[..|s| - 1], rank);
    }
  }

  lemma {:induction false} InsertKeepsOrder<T>(x: T, s: seq<T>, rank: T -> int)
    requires SortedBy(s, rank)
    ensures SortedBy(Insert(x, s, rank), rank)
  {
    if s != [] && rank(x) < rank(s[|s| - 1]) {
      var init := s[..|s| - 1];
      InsertKeepsOrder(x, init, rank);
      InsertKeepsElements(x, init, rank);
      var inner := Insert(x, init, rank);
      forall i | 0 <= i < |inner|
        ensures rank(inner[i]) <= rank(s[|s| - 1])
      {
        assert inner[i] in multiset(inner);
        assert inner[i] == x || inner[i] in init;
      }
    }
  }

  /** list.sort(key=rank). */
  method SortBy<T>(items: seq<T>, rank: T -> int) returns (sorted: seq<T>)
    ensures multiset(sorted) == multiset(items)
    ensures SortedBy(sorted, rank)
  {
    sorted := [];
    for i := 0 to |items|
      invariant multiset(sorted) == multiset(items[..i])
      invariant SortedBy(sorted, rank)
    {
      assert items[..i + 1] == items[..i] + [items[i]];
      InsertKeepsElements(items[i], sorted, rank);
      InsertKeepsOrder(items[i], sorted, rank);
      sorted := Insert(items[i], sorted, rank);
    }
    assert items[..|items|] == items;
  }
}
