/** Sums of a map's values over a finite set of keys, and of weights along a sequence. */
module Sums {

  lemma NonEmpty(ids: set<int>)
    ensures ids == {} || exists id :: id in ids
  {
    if forall id :: id !in ids {
      assert ids == {};
    }
  }

  ghost function Sum(ids: set<int>, m: map<int, int>): int
    requires ids <= m.Keys
  {
    if ids == {} then 0
    else
      NonEmpty(ids);
      var id :| id in ids;
      m[id] + Sum(ids - {id}, m)
  }

  lemma SumTake(ids: set<int>, m: map<int, int>, id: int)
    requires ids <= m.Keys && id in ids
    ensures Sum(ids, m) == m[id] + Sum(ids - {id}, m)
  {
    var pick :| pick in ids && Sum(ids, m) == m[pick] + Sum(ids - {pick}, m);
    if pick != id {
      SumTake(ids - {pick}, m, id);
      SumTake(ids - {id}, m, pick);
      assert ids - {pick} - {id} == ids - {id} - {pick};
    }
  }

  lemma {:induction false} SumSame(ids: set<int>, m: map<int, int>, m': map<int, int>)
    requires ids <= m.Keys && ids <= m'.Keys
    requires forall id :: id in ids ==> m[id] == m'[id]
    ensures Sum(ids, m) == Sum(ids, m')
  {
    if ids != {} {
      NonEmpty(ids);
      var id :| id in ids;
      SumTake(ids, m, id);
      SumTake(ids, m', id);
      SumSame(ids - {id}, m, m');
    }
  }

  lemma {:induction false} SumZero(ids: set<int>, m: map<int, int>)
    requires ids <= m.Keys
    requires forall id :: id in ids ==> m[id] == 0
    ensures Sum(ids, m) == 0
  {
    if ids != {} {
      NonEmpty(ids);
      var id :| id in ids;
      SumTake(ids, m, id);
      SumZero(ids - {id}, m);
    }
  }

  lemma {:induction false} SumNonNegative(ids: set<int>, m: map<int, int>)
    requires ids <= m.Keys
    requires forall id :: id in ids ==> m[id] >= 0
    ensures Sum(ids, m) >= 0
  {
    if ids != {} {
      NonEmpty(ids);
      var id :| id in ids;
      SumTake(ids, m, id);
      SumNonNegative(ids - {id}, m);
    }
  }

  lemma SumBump(ids: set<int>, m: map<int, int>, id: int, d: int)
    requires ids <= m.Keys && id in m
    ensures Sum(ids, m[id := m[id] + d]) == Sum(ids, m) + if id in ids then d else 0
  {
    var m' := m[id := m[id] + d];
    if id in ids {
      SumTake(ids, m, id);
      SumTake(ids, m', id);
      SumSame(ids - {id}, m, m');
    } else {
      SumSame(ids, m, m');
    }
  }

  // ---------------------------------------------------------------- unused ids

  lemma {:induction false} FreshIdExists(ids: set<int>)
    ensures exists id :: id !in ids
  {
    var bound := Bounded(ids);
    assert bound !in ids;
  }

  lemma {:induction false} Bounded(ids: set<int>) returns (bound: int)
    ensures forall id :: id in ids ==> id < bound
    decreases ids
  {
    if ids == {} {
      bound := 0;
    } else {
      NonEmpty(ids);
      var id :| id in ids;
      var rest := Bounded(ids - {id});
      bound := if rest > id then rest else id + 1;
      forall x | x in ids ensures x < bound {
        assert x == id || x in ids - {id};
      }
    }
  }

  // ---------------------------------------------------------------- along a sequence

  function Total<T>(xs: seq<T>, weight: T -> nat): nat {
    if xs == [] then 0 else Total(xs[..|xs| - 1], weight) + weight(xs[|xs| - 1])
  }

  /** Replacing one element changes the total by the difference of the two weights. */
  lemma {:induction false} TotalUpdate<T>(xs: seq<T>, weight: T -> nat, i: nat, x: T)
    requires i < |xs|
    ensures Total(xs[i := x], weight) == Total(xs, weight) - weight(xs[i]) + weight(x)
  {
    var k := |xs| - 1;
    if i < k {
      assert xs[i := x][..k] == xs[..k][i := x];
      TotalUpdate(xs[..k], weight, i, x);
    } else {
      assert xs[i := x][..k] == xs[..k];
    }
  }

  lemma {:induction false} TotalEven<T>(xs: seq<T>, weight: T -> nat, w: nat)
    requires forall i :: 0 <= i < |xs| ==> weight(xs[i]) == w
    ensures Total(xs, weight) == w * |xs|
  {
    if xs != [] {
      TotalEven(xs[..|xs| - 1], weight, w);
    }
  }

  lemma {:induction false} TotalAtLeast<T>(xs: seq<T>, weight: T -> nat, i: nat)
    requires i < |xs|
    ensures Total(xs, weight) >= weight(xs[i])
  {
    if i < |xs| - 1 {
      TotalAtLeast(xs[..|xs| - 1], weight, i);
    }
  }

  /** Of two sequences side by side, if the first weighs more it does so somewhere. */
  lemma {:induction false} TotalGap<T, U>(xs: seq<T>, v: T -> nat, ys: seq<U>, w: U -> nat) returns (i: nat)
    requires |xs| == |ys| && Total(xs, v) > Total(ys, w)
    ensures i < |xs| && v(xs[i]) > w(ys[i])
  {
    var k := |xs| - 1;
    if v(xs[k]) > w(ys[k]) {
      i := k;
    } else {
      i := TotalGap(xs[..k], v, ys[..k], w);
    }
  }
}
