/** Sorting and adding up, on sequences of anything. */
module Sequences {

  lemma {:induction false} Associative<T>(a: seq<T>, b: seq<T>, c: seq<T>)
    ensures a + b + c == a + (b + c)
  {}

  lemma {:induction false} SameElements<T>(xs: seq<T>, ys: seq<T>)
    requires multiset(xs) == multiset(ys)
    ensures |xs| == |ys| && forall x :: x in xs <==> x in ys
  {
    assert |multiset(xs)| == |xs| && |multiset(ys)| == |ys|;
    forall x ensures x in xs <==> x in ys {
      assert x in xs <==> x in multiset(xs);
      assert x in ys <==> x in multiset(ys);
    }
  }

  lemma {:induction false} WithoutOne<T>(xs: seq<T>, i: nat)
    requires i < |xs|
    ensures multiset(xs[..i] + xs[i + 1..]) == multiset(xs) - multiset{xs[i]}
  {
    assert xs == xs[..i] + [xs[i]] + xs[i + 1..];
  }

  // ---- Stable sorting ----

  /** `x` goes in front of the first element that is not before it. */
  function InsertSorted<T>(x: T, sorted: seq<T>, before: (T, T) -> bool): seq<T> {
    if sorted == [] || !before(sorted[0], x) then [x] + sorted
    else [sorted[0]] + InsertSorted(x, sorted[1..], before)
  }

  function StableSort<T>(xs: seq<T>, before: (T, T) -> bool): seq<T> {
    if xs == [] then [] else InsertSorted(xs[0], StableSort(xs[1..], before), before)
  }

  lemma {:induction false} InsertKeeps<T>(x: T, sorted: seq<T>, before: (T, T) -> bool)
    ensures multiset(InsertSorted(x, sorted, before)) == multiset{x} + multiset(sorted)
  {
    if sorted != [] && before(sorted[0], x) {
      InsertKeeps(x, sorted[1..], before);
      assert sorted == [sorted[0]] + sorted[1..];
    }
  }

  lemma {:induction false} SortPermutes<T>(xs: seq<T>, before: (T, T) -> bool)
    ensures multiset(StableSort(xs, before)) == multiset(xs)
  {
    if xs != [] {
      SortPermutes(xs[1..], before);
      InsertKeeps(xs[0], StableSort(xs[1..], before), before);
      assert xs == [xs[0]] + xs[1..];
    }
  }

  /** `before` is a strict order whose ties are transitive. */
  ghost predicate StrictWeak<T(!new)>(before: (T, T) -> bool) {
    && (forall a, b :: before(a, b) ==> !before(b, a))
    && (forall a, b, c :: !before(b, a) && !before(c, b) ==> !before(c, a))
  }

  predicate Ordered<T>(xs: seq<T>, before: (T, T) -> bool) {
    forall i, j :: 0 <= i < j < |xs| ==> !before(xs[j], xs[i])
  }

  lemma {:induction false} InsertOrders<T(!new)>(x: T, sorted: seq<T>, before: (T, T) -> bool)
    requires StrictWeak(before) && Ordered(sorted, before)
    ensures Ordered(InsertSorted(x, sorted, before), before)
  {
    if sorted != [] {
      if before(sorted[0], x) {
        var rest := InsertSorted(x, sorted[1..], before);
        InsertOrders(x, sorted[1..], before);
        InsertKeeps(x, sorted[1..], before);
        forall r | r in rest ensures !before(r, sorted[0]) {
          assert r in multiset(rest);
          assert r == x || r in sorted[1..];
        }
      } else {
        forall j | 0 <= j < |sorted| ensures !before(sorted[j], x) {
          assert !before(sorted[0], x) && (j > 0 ==> !before(sorted[j], sorted[0]));
        }
      }
    }
  }

  lemma {:induction false} SortOrders<T(!new)>(xs: seq<T>, before: (T, T) -> bool)
    requires StrictWeak(before)
    ensures Ordered(StableSort(xs, before), before)
  {
    if xs != [] {
      SortOrders(xs[1..], before);
      InsertOrders(xs[0], StableSort(xs[1..], before), before);
    }
  }

  /** Nothing comes before the first element of a sorted sequence. */
  lemma {:induction false} SortedFirst<T(!new)>(xs: seq<T>, before: (T, T) -> bool)
    requires xs != [] && StrictWeak(before)
    ensures StableSort(xs, before) != [] && StableSort(xs, before)[0] in xs
    ensures forall x :: x in xs ==> !before(x, StableSort(xs, before)[0])
  {
    var sorted := StableSort(xs, before);
    SortPermutes(xs, before);
    SortOrders(xs, before);
    SameElements(sorted, xs);
    forall x | x in xs ensures !before(x, sorted[0]) {
      var j :| 0 <= j < |sorted| && sorted[j] == x;
    }
  }

  predicate Strict<T>(xs: seq<T>, before: (T, T) -> bool) {
    forall i, j :: 0 <= i < j < |xs| ==> before(xs[i], xs[j])
  }

  predicate NoTies<T>(xs: seq<T>, before: (T, T) -> bool) {
    forall i, j :: 0 <= i < j < |xs| ==> before(xs[i], xs[j]) || before(xs[j], xs[i])
  }

  lemma {:induction false} InsertStrict<T(!new)>(x: T, sorted: seq<T>, before: (T, T) -> bool)
    requires StrictWeak(before) && Strict(sorted, before)
    requires forall y :: y in sorted ==> before(x, y) || before(y, x)
    ensures Strict(InsertSorted(x, sorted, before), before)
  {
    if sorted != [] {
      if before(sorted[0], x) {
        var rest := InsertSorted(x, sorted[1..], before);
        InsertStrict(x, sorted[1..], before);
        InsertKeeps(x, sorted[1..], before);
        forall r | r in rest ensures before(sorted[0], r) {
          assert r in multiset(rest);
          assert r == x || r in sorted[1..];
        }
      } else {
        assert before(x, sorted[0]);
        forall j | 0 <= j < |sorted| ensures before(x, sorted[j]) {
          assert sorted[j] in sorted;
        }
      }
    }
  }

  /** Without ties the result is strictly ordered. */
  lemma {:induction false} SortStrict<T(!new)>(xs: seq<T>, before: (T, T) -> bool)
    requires StrictWeak(before) && NoTies(xs, before)
    ensures Strict(StableSort(xs, before), before)
  {
    if xs != [] {
      var rest := StableSort(xs[1..], before);
      SortStrict(xs[1..], before);
      SortPermutes(xs[1..], before);
      SameElements(rest, xs[1..]);
      forall y | y in rest ensures before(xs[0], y) || before(y, xs[0]) {
        var j :| 0 <= j < |xs[1..]| && xs[1..][j] == y;
        assert xs[j + 1] == y;
      }
      InsertStrict(xs[0], rest, before);
    }
  }

  // ---- The first few of a set ----

  /** The `n` elements nothing of the set comes before, in order; all of the set if it has fewer. */
  ghost predicate FirstOf<T(!new)>(few: seq<T>, all: set<T>, before: (T, T) -> bool, n: nat) {
    && Strict(few, before) && |few| <= n
    && (forall x :: x in few ==> x in all)
    && (forall x :: x in all && x !in few ==> |few| == n && forall y :: y in few ==> before(y, x))
  }

  ghost predicate StrictTotal<T(!new)>(before: (T, T) -> bool) {
    && StrictWeak(before)
    && (forall a, b :: a == b || before(a, b) || before(b, a))
  }

  lemma {:induction false} LeastOf<T(!new)>(all: set<T>, before: (T, T) -> bool) returns (least: T)
    requires all != {} && StrictTotal(before)
    ensures least in all && forall x :: x in all && x != least ==> before(least, x)
  {
    var x :| x in all;
    if all == {x} {
      least := x;
    } else {
      var other := LeastOf(all - {x}, before);
      least := if before(x, other) then x else other;
    }
  }

  /** There always are such elements. */
  lemma {:induction false} FirstFew<T(!new)>(all: set<T>, before: (T, T) -> bool, n: nat) returns (few: seq<T>)
    requires StrictTotal(before)
    ensures FirstOf(few, all, before, n)
  {
    if all == {} || n == 0 {
      few := [];
    } else {
      var least := LeastOf(all, before);
      var rest := FirstFew(all - {least}, before, n - 1);
      few := [least] + rest;
      forall x | x in all && x !in few ensures |few| == n && forall y :: y in few ==> before(y, x) {
        assert x in all - {least};
      }
    }
  }

  // ---- Sums ----

  function SumOf<T>(xs: seq<T>, f: T -> int): int {
    if xs == [] then 0 else f(xs[0]) + SumOf(xs[1..], f)
  }

  lemma {:induction false} SumConcat<T>(a: seq<T>, b: seq<T>, f: T -> int)
    ensures SumOf(a + b, f) == SumOf(a, f) + SumOf(b, f)
  {
    if a == [] {
      assert a + b == b;
    } else {
      assert (a + b)[1..] == a[1..] + b;
      SumConcat(a[1..], b, f);
    }
  }

  lemma {:induction false} SumPermutes<T>(xs: seq<T>, ys: seq<T>, f: T -> int)
    requires multiset(xs) == multiset(ys)
    ensures SumOf(xs, f) == SumOf(ys, f)
    decreases |xs|
  {
    if xs == [] {
      assert |multiset(ys)| == 0;
    } else {
      assert xs[0] in multiset(ys);
      var j :| 0 <= j < |ys| && ys[j] == xs[0];
      assert ys == ys[..j] + ([ys[j]] + ys[j + 1..]);
      WithoutOne(xs, 0);
      WithoutOne(ys, j);
      assert xs[..0] + xs[1..] == xs[1..];
      SumPermutes(xs[1..], ys[..j] + ys[j + 1..], f);
      SumConcat(ys[..j], [ys[j]] + ys[j + 1..], f);
      SumConcat(ys[..j], ys[j + 1..], f);
    }
  }
}
