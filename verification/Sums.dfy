/** Sums of an integer weight over a finite set: the one notion of "total" that positions, cash,
    commissions, filled quantities and reserved notional are stated with. */
module Sums {

  /** The total weight of the elements of s, whatever order they are visited in. */
  ghost function Sum<T(!new)>(s: set<T>, f: T -> int): int
  {
    if s == {} then 0
    else
      var x :| x in s;
      f(x) + Sum(s - {x}, f)
  }

  /** Any element can be taken out first, so the choice inside Sum does not matter. */
  lemma {:induction false} SumExtract<T(!new)>(s: set<T>, f: T -> int, x: T)
    requires x in s
    ensures Sum(s, f) == f(x) + Sum(s - {x}, f)
    decreases |s|
  {
    var y :| y in s && Sum(s, f) == f(y) + Sum(s - {y}, f);
    if y != x {
      SumExtract(s - {y}, f, x);
      SumExtract(s - {x}, f, y);
      assert s - {y} - {x} == s - {x} - {y};
    }
  }

  lemma SumInsert<T(!new)>(s: set<T>, f: T -> int, x: T)
    requires x !in s
    ensures Sum(s + {x}, f) == Sum(s, f) + f(x)
  {
    SumExtract(s + {x}, f, x);
    assert s + {x} - {x} == s;
  }

  /** Weights that agree on s give the same total. */
  lemma {:induction false} SumCongruence<T(!new)>(s: set<T>, f: T -> int, g: T -> int)
    requires forall x :: x in s ==> f(x) == g(x)
    ensures Sum(s, f) == Sum(s, g)
    decreases |s|
  {
    if s != {} {
      var x :| x in s;
      SumExtract(s, f, x);
      SumExtract(s, g, x);
      SumCongruence(s - {x}, f, g);
    }
  }

  /** Smaller weights give a smaller total. */
  lemma {:induction false} SumMonotone<T(!new)>(s: set<T>, f: T -> int, g: T -> int)
    requires forall x :: x in s ==> f(x) <= g(x)
    ensures Sum(s, f) <= Sum(s, g)
    decreases |s|
  {
    if s != {} {
      var x :| x in s;
      SumExtract(s, f, x);
      SumExtract(s, g, x);
      SumMonotone(s - {x}, f, g);
    }
  }

  lemma {:induction false} SumZero<T(!new)>(s: set<T>, f: T -> int)
    requires forall x :: x in s ==> f(x) == 0
    ensures Sum(s, f) == 0
    decreases |s|
  {
    if s != {} {
      var x :| x in s;
      SumExtract(s, f, x);
      SumZero(s - {x}, f);
    }
  }

  /** Changing the weight of one element moves the total by that change. */
  lemma SumShift<T(!new)>(s: set<T>, f: T -> int, g: T -> int, x: T)
    requires x in s
    requires forall y :: y in s && y != x ==> f(y) == g(y)
    ensures Sum(s, g) == Sum(s, f) + g(x) - f(x)
  {
    SumExtract(s, f, x);
    SumExtract(s, g, x);
    SumCongruence(s - {x}, f, g);
  }
}
