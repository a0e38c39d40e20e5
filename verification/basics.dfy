/** Small shared definitions. */
module Basics {

  datatype Option<+T> = None | Some(value: T)

  predicate IsLeast(s: set<int>, k: int) {
    k in s && forall j :: j in s ==> k <= j
  }

  /** The smallest element of a non-empty set: `std::map` is walked in ascending key order. */
  function MinKey(s: set<int>): (k: int)
    requires s != {}
    ensures k in s
    ensures forall j :: j in s ==> k <= j
  {
    assert IsLeast(s, Least(s));
    var k :| IsLeast(s, k);
    k
  }

  ghost function Least(s: set<int>): (k: int)
    requires s != {}
    ensures IsLeast(s, k)
  {
    var x := Pick(s);
    var rest := s - {x};
    if rest == {} then
      assert s == {x};
      x
    else
      var m := Least(rest);
      assert forall j :: j in s ==> j == x || j in rest;
      if x <= m then x else m
  }

  ghost function Pick<T>(s: set<T>): (x: T)
    requires s != {}
    ensures x in s
  {
    var x :| x in s;
    x
  }

  /** Every finite set of integers misses some positive integer. */
  lemma {:induction false} SomeIntOutside(s: set<int>)
    ensures exists h :: h != 0 && h !in s
  {
    var bound := UpperBound(s);
    assert bound != 0 && bound !in s;
  }

  ghost function UpperBound(s: set<int>): (b: int)
    ensures b > 0
    ensures forall x :: x in s ==> x < b
  {
    if s == {} then 1
    else
      var x := Pick(s);
      var b := UpperBound(s - {x});
      assert forall y :: y in s ==> y == x || y in s - {x};
      if x < b then b else x + 1
  }
}
