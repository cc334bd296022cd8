/** Sums over sequences, counts and the exchange of double sums, as the ledger needs them. */
module Sums {

  function Sum<T>(xs: seq<T>, f: T -> nat): nat {
    if xs == [] then 0 else Sum(xs[..|xs| - 1], f) + f(xs[|xs| - 1])
  }

  ghost predicate NoDuplicates<T>(xs: seq<T>) {
    forall i, j :: 0 <= i < j < |xs| ==> xs[i] != xs[j]
  }

  lemma SumAppend<T>(xs: seq<T>, x: T, f: T -> nat)
    ensures Sum(xs + [x], f) == Sum(xs, f) + f(x)
  {
  }

  lemma {:induction false} SumSame<T>(xs: seq<T>, f: T -> nat, g: T -> nat)
    requires forall x :: x in xs ==> f(x) == g(x)
    ensures Sum(xs, f) == Sum(xs, g)
  {
    if xs == [] {
    } else {
      SumSame(xs[..|xs| - 1], f, g);
    }
  }

  lemma {:induction false} SumZero<T>(xs: seq<T>, f: T -> nat)
    ensures Sum(xs, f) == 0 <==> forall x :: x in xs ==> f(x) == 0
  {
    if xs == [] {
    } else {
      var front := xs[..|xs| - 1];
      SumZero(front, f);
      assert xs == front + [xs[|xs| - 1]];
    }
  }

  lemma {:induction false} SumAdd<T>(xs: seq<T>, f: T -> nat, g: T -> nat, h: T -> nat)
    requires forall x :: x in xs ==> h(x) == f(x) + g(x)
    ensures Sum(xs, h) == Sum(xs, f) + Sum(xs, g)
  {
    if xs == [] {
    } else {
      SumAdd(xs[..|xs| - 1], f, g, h);
    }
  }

  /** A function that is zero away from one element sums to its value there. */
  lemma {:induction false} SumSingle<T>(xs: seq<T>, f: T -> nat, at: T)
    requires NoDuplicates(xs)
    requires forall x :: x in xs && x != at ==> f(x) == 0
    ensures Sum(xs, f) == if at in xs then f(at) else 0
  {
    if xs == [] {
    } else {
      var front, last := xs[..|xs| - 1], xs[|xs| - 1];
      assert xs == front + [last];
      SumSingle(front, f, at);
    }
  }

  /** The share of one element in a sum over all its occurrences. */
  ghost function Share<T>(xs: seq<T>, f: T -> nat, x: T): nat {
    multiset(xs)[x] * f(x)
  }

  lemma ShareAppend<T>(xs: seq<T>, last: T, f: T -> nat, x: T)
    ensures Share(xs + [last], f, x) == Share(xs, f, x) + if x == last then f(x) else 0
  {
  }

  /** Sum by occurrence equals sum by distinct element times its count. */
  lemma {:induction false} SumByCount<T>(xs: seq<T>, ids: seq<T>, f: T -> nat)
    requires NoDuplicates(ids)
    requires forall x :: x in xs ==> x in ids
    ensures Sum(xs, f) == Sum(ids, x => Share(xs, f, x))
  {
    if xs == [] {
      SumZero(ids, x => Share(xs, f, x));
    } else {
      var front, last := xs[..|xs| - 1], xs[|xs| - 1];
      assert xs == front + [last];
      SumByCount(front, ids, f);
      var step := x => if x == last then f(x) else 0;
      forall x | x in ids ensures Share(xs, f, x) == Share(front, f, x) + step(x) {
        ShareAppend(front, last, f, x);
      }
      SumAdd(ids, x => Share(front, f, x), step, x => Share(xs, f, x));
      SumSingle(ids, step, last);
    }
  }

  function Row<T, U>(f: (T, U) -> nat, t: T): U -> nat {
    u => f(t, u)
  }

  function Column<T, U>(f: (T, U) -> nat, u: U): T -> nat {
    t => f(t, u)
  }

  function RowSums<T, U>(us: seq<U>, f: (T, U) -> nat): T -> nat {
    t => Sum(us, Row(f, t))
  }

  function ColumnSums<T, U>(ts: seq<T>, f: (T, U) -> nat): U -> nat {
    u => Sum(ts, Column(f, u))
  }

  /** Adding up rows of a table gives what adding up its columns gives. */
  lemma {:induction false} SumExchange<T, U>(ts: seq<T>, us: seq<U>, f: (T, U) -> nat)
    ensures Sum(ts, RowSums(us, f)) == Sum(us, ColumnSums(ts, f))
  {
    if us == [] {
      SumZero(ts, RowSums(us, f));
    } else {
      var front, last := us[..|us| - 1], us[|us| - 1];
      SumExchange(ts, front, f);
      forall t | t in ts ensures RowSums(us, f)(t) == RowSums(front, f)(t) + Column(f, last)(t) {
      }
      SumAdd(ts, RowSums(front, f), Column(f, last), RowSums(us, f));
    }
  }

  // ---- First occurrences ----

  function Distinct<T(==)>(xs: seq<T>): seq<T> {
    if xs == [] then []
    else
      var front, last := Distinct(xs[..|xs| - 1]), xs[|xs| - 1];
      if last in front then front else front + [last]
  }

  lemma {:induction false} DistinctKeeps<T>(xs: seq<T>)
    ensures NoDuplicates(Distinct(xs))
    ensures forall x :: x in Distinct(xs) <==> x in xs
  {
    if xs == [] {
    } else {
      assert xs == xs[..|xs| - 1] + [xs[|xs| - 1]];
      DistinctKeeps(xs[..|xs| - 1]);
    }
  }

  lemma DistinctAppend<T>(xs: seq<T>, x: T)
    ensures Distinct(xs + [x]) == if x in xs then Distinct(xs) else Distinct(xs) + [x]
  {
    assert (xs + [x])[..|xs|] == xs;
    DistinctKeeps(xs);
  }

  /** What the repeats of one element add to counting it once. */
  ghost function Extra<T>(xs: seq<T>, f: T -> nat, x: T): nat {
    if multiset(xs)[x] == 0 then 0 else (multiset(xs)[x] - 1) * f(x)
  }

  lemma ShareSplit<T>(xs: seq<T>, f: T -> nat, x: T)
    requires x in xs
    ensures Share(xs, f, x) == f(x) + Extra(xs, f, x)
  {
  }

  lemma SumByCountExtra<T>(xs: seq<T>, ids: seq<T>, f: T -> nat)
    requires NoDuplicates(ids)
    requires forall x :: x in ids <==> x in xs
    ensures Sum(xs, f) == Sum(ids, f) + Sum(ids, x => Extra(xs, f, x))
  {
    SumByCount(xs, ids, f);
    forall x | x in ids ensures Share(xs, f, x) == f(x) + Extra(xs, f, x) {
      ShareSplit(xs, f, x);
    }
    SumAdd(ids, f, x => Extra(xs, f, x), x => Share(xs, f, x));
  }

  /** What counting every occurrence adds to counting each element once. */
  lemma SumExcess<T>(xs: seq<T>, f: T -> nat)
    ensures Sum(xs, f) == Sum(Distinct(xs), f) + Sum(Distinct(xs), x => Extra(xs, f, x))
  {
    DistinctKeeps(xs);
    SumByCountExtra(xs, Distinct(xs), f);
  }

  lemma {:induction false} SubsetSize<T>(a: set<T>, b: set<T>)
    requires a <= b
    ensures |a| <= |b|
  {
    assert b == a + (b - a);
  }
}
