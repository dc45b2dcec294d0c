/** Sorting and canonical listings: a sorted sequence without repetitions is determined by its elements. */
module Sorting {

  /** leq compares any two elements of s, but may leave different ones in a tie. */
  ghost predicate Ranks<T(!new)>(leq: (T, T) -> bool, s: set<T>) {
    && (forall x, y :: x in s && y in s ==> leq(x, y) || leq(y, x))
    && (forall x, y, z :: x in s && y in s && z in s && leq(x, y) && leq(y, z) ==> leq(x, z))
  }

  /** leq is a total order on the elements of s. */
  ghost predicate Orders<T(!new)>(leq: (T, T) -> bool, s: set<T>) {
    Ranks(leq, s) && forall x, y :: x in s && y in s && leq(x, y) && leq(y, x) ==> x == y
  }

  function Elements<T>(s: seq<T>): set<T> { set x | x in s }

  predicate Sorted<T(!new)>(s: seq<T>, leq: (T, T) -> bool) {
    forall i, j :: 0 <= i < j < |s| ==> leq(s[i], s[j])
  }

  predicate Distinct<T(==)>(s: seq<T>) { forall i, j :: 0 <= i < j < |s| ==> s[i] != s[j] }

  /** Puts x behind the last element it does not precede strictly, which keeps equal elements in order. */
  function Insert<T(!new)>(s: seq<T>, x: T, leq: (T, T) -> bool): seq<T> {
    if s == [] then [x]
    else if leq(s[|s| - 1], x) then s + [x]
    else Insert(s[..|s| - 1], x, leq) + [s[|s| - 1]]
  }

  /** A stable sort. */
  function Sort<T(!new)>(s: seq<T>, leq: (T, T) -> bool): seq<T> {
    if s == [] then [] else Insert(Sort(s[..|s| - 1], leq), s[|s| - 1], leq)
  }

  lemma {:induction false} InsertElements<T(!new)>(s: seq<T>, x: T, leq: (T, T) -> bool)
    ensures Elements(Insert(s, x, leq)) == Elements(s) + {x}
    ensures |Insert(s, x, leq)| == |s| + 1
  {
    if s == [] {
    } else if leq(s[|s| - 1], x) {
    } else {
      InsertElements(s[..|s| - 1], x, leq);
      assert Elements(s) == Elements(s[..|s| - 1]) + {s[|s| - 1]};
      var front := Insert(s[..|s| - 1], x, leq);
      assert Elements(front + [s[|s| - 1]]) == Elements(front) + {s[|s| - 1]};
    }
  }

  lemma {:induction false} InsertSorted<T(!new)>(s: seq<T>, x: T, leq: (T, T) -> bool)
    requires Sorted(s, leq) && Ranks(leq, Elements(s) + {x})
    ensures Sorted(Insert(s, x, leq), leq)
  {
    if s != [] {
      var n := |s| - 1;
      var last := s[n];
      assert last in Elements(s);
      if leq(last, x) {
        forall i | 0 <= i < |s|
          ensures leq(s[i], x)
        {
          assert s[i] in Elements(s);
        }
      } else {
        assert Elements(s[..n]) + {x} <= Elements(s) + {x};
        InsertSorted(s[..n], x, leq);
        InsertElements(s[..n], x, leq);
        var front := Insert(s[..n], x, leq);
        forall i | 0 <= i < |front|
          ensures leq(front[i], last)
        {
          assert front[i] in Elements(front);
          if front[i] != x {
            var j :| 0 <= j < n && s[j] == front[i];
          }
        }
      }
    }
  }

  lemma {:induction false} SortElements<T(!new)>(s: seq<T>, leq: (T, T) -> bool)
    ensures Elements(Sort(s, leq)) == Elements(s)
  {
    if s != [] {
      var n := |s| - 1;
      SortElements(s[..n], leq);
      InsertElements(Sort(s[..n], leq), s[n], leq);
      assert Elements(s) == Elements(s[..n]) + {s[n]};
    }
  }

  lemma {:induction false} SortSorts<T(!new)>(s: seq<T>, leq: (T, T) -> bool)
    requires Ranks(leq, Elements(s))
    ensures Sorted(Sort(s, leq), leq) && Elements(Sort(s, leq)) == Elements(s) && |Sort(s, leq)| == |s|
  {
    if s != [] {
      var n := |s| - 1;
      assert Elements(s) == Elements(s[..n]) + {s[n]};
      SortSorts(s[..n], leq);
      InsertSorted(Sort(s[..n], leq), s[n], leq);
      InsertElements(Sort(s[..n], leq), s[n], leq);
    }
  }

  /** Drops repetitions of the element before. */
  function Squeeze<T(==)>(s: seq<T>): seq<T> {
    if |s| <= 1 then s
    else if s[|s| - 1] == s[|s| - 2] then Squeeze(s[..|s| - 1])
    else Squeeze(s[..|s| - 1]) + [s[|s| - 1]]
  }

  lemma {:induction false} SqueezeElements<T>(s: seq<T>)
    ensures Elements(Squeeze(s)) == Elements(s)
    ensures s != [] ==> Squeeze(s) != [] && Squeeze(s)[|Squeeze(s)| - 1] == s[|s| - 1]
  {
    if |s| > 1 {
      var rest := s[..|s| - 1];
      SqueezeElements(rest);
      assert Elements(s) == Elements(rest) + {s[|s| - 1]};
      if s[|s| - 1] == s[|s| - 2] {
        assert rest[|rest| - 1] == s[|s| - 1];
      } else {
        assert Elements(Squeeze(rest) + [s[|s| - 1]]) == Elements(Squeeze(rest)) + {s[|s| - 1]};
      }
    }
  }

  lemma LastIsGreatest<T(!new)>(s: seq<T>, leq: (T, T) -> bool, x: T)
    requires Sorted(s, leq) && Orders(leq, Elements(s)) && x in Elements(s)
    ensures leq(x, s[|s| - 1])
  {
    var i :| 0 <= i < |s| && s[i] == x;
    assert s[|s| - 1] in Elements(s);
  }

  /** What stands before two different last elements stands strictly before the last. */
  lemma StrictlyBelowLast<T(!new)>(s: seq<T>, leq: (T, T) -> bool, x: T)
    requires Sorted(s, leq) && Orders(leq, Elements(s)) && |s| > 1 && s[|s| - 1] != s[|s| - 2] && x in Elements(s[..|s| - 1])
    ensures leq(x, s[|s| - 1]) && x != s[|s| - 1]
  {
    var n := |s| - 1;
    ElementsOfPrefix(s);
    OrdersSubset(leq, Elements(s[..n]), Elements(s));
    SortedPrefix(s, leq);
    LastIsGreatest(s, leq, x);
    LastIsGreatest(s[..n], leq, x);
    assert leq(s[n - 1], s[n]) && s[n - 1] in Elements(s) && s[n] in Elements(s);
  }

  lemma ElementsOfPrefix<T>(s: seq<T>)
    requires s != []
    ensures Elements(s) == Elements(s[..|s| - 1]) + {s[|s| - 1]}
  {
    assert s == s[..|s| - 1] + [s[|s| - 1]];
  }

  lemma AppendSorted<T(!new)>(s: seq<T>, x: T, leq: (T, T) -> bool)
    requires Sorted(s, leq) && Distinct(s)
    requires forall y :: y in Elements(s) ==> leq(y, x) && y != x
    ensures Sorted(s + [x], leq) && Distinct(s + [x])
  {
    forall i | 0 <= i < |s|
      ensures leq(s[i], x) && s[i] != x
    {
      assert s[i] in Elements(s);
    }
  }

  /** Sorting brings repetitions together, so squeezing removes them all. */
  lemma {:induction false} SqueezeDistinct<T(!new)>(s: seq<T>, leq: (T, T) -> bool)
    requires Sorted(s, leq) && Orders(leq, Elements(s))
    ensures Sorted(Squeeze(s), leq) && Distinct(Squeeze(s))
  {
    if |s| > 1 {
      hide Orders, Sorted, Distinct, Elements;
      var n := |s| - 1;
      var rest := s[..n];
      ElementsOfPrefix(s);
      OrdersSubset(leq, Elements(rest), Elements(s));
      SortedPrefix(s, leq);
      SqueezeDistinct(rest, leq);
      SqueezeElements(rest);
      if s[n] != s[n - 1] {
        forall x | x in Elements(Squeeze(rest))
          ensures leq(x, s[n]) && x != s[n]
        {
          StrictlyBelowLast(s, leq, x);
        }
        AppendSorted(Squeeze(rest), s[n], leq);
      }
    }
  }

  lemma HasElement<T>(s: seq<T>)
    requires s != []
    ensures Elements(s) != {}
  {
    assert s[0] in Elements(s);
  }

  /** A sorted listing without repetitions is determined by its elements. */
  lemma {:induction false} ListingUnique<T(!new)>(s: seq<T>, t: seq<T>, leq: (T, T) -> bool)
    requires Sorted(s, leq) && Sorted(t, leq) && Distinct(s) && Distinct(t)
    requires Elements(s) == Elements(t) && Orders(leq, Elements(s))
    ensures s == t
  {
    hide Orders, Sorted, Elements;
    EmptyTogether(s, t);
    if s != [] {
      var n, m := |s| - 1, |t| - 1;
      LastAgrees(s, t, leq);
      LastRemoved(s);
      LastRemoved(t);
      OrdersSubset(leq, Elements(s[..n]), Elements(s));
      SortedPrefix(s, leq);
      SortedPrefix(t, leq);
      ListingUnique(s[..n], t[..m], leq);
      assert s == s[..n] + [s[n]] && t == t[..m] + [t[m]];
    }
  }

  lemma EmptyTogether<T>(s: seq<T>, t: seq<T>)
    requires Elements(s) == Elements(t)
    ensures s == [] <==> t == []
  {
    if s != [] { HasElement(s); }
    if t != [] { HasElement(t); }
  }

  lemma LastRemoved<T>(s: seq<T>)
    requires s != [] && Distinct(s)
    ensures Elements(s[..|s| - 1]) == Elements(s) - {s[|s| - 1]}
  {
    var n := |s| - 1;
    forall x | x in Elements(s) - {s[n]}
      ensures x in Elements(s[..n])
    {
      var i :| 0 <= i < |s| && s[i] == x;
      assert s[..n][i] == x;
    }
  }

  /** Two sequences with the same elements, in any order and multiplicity, have the same squeezed sort. */
  lemma SameElementsSameListing<T(!new)>(s: seq<T>, t: seq<T>, leq: (T, T) -> bool)
    requires Elements(s) == Elements(t) && Orders(leq, Elements(s))
    ensures Squeeze(Sort(s, leq)) == Squeeze(Sort(t, leq))
  {
    SortSorts(s, leq);
    SortSorts(t, leq);
    SqueezeDistinct(Sort(s, leq), leq);
    SqueezeDistinct(Sort(t, leq), leq);
    SqueezeElements(Sort(s, leq));
    SqueezeElements(Sort(t, leq));
    ListingUnique(Squeeze(Sort(s, leq)), Squeeze(Sort(t, leq)), leq);
  }

  /* ---------- Permutations ---------- */

  lemma {:induction false} InsertPermutes<T(!new)>(s: seq<T>, x: T, leq: (T, T) -> bool)
    ensures multiset(Insert(s, x, leq)) == multiset(s) + multiset{x}
  {
    if s != [] {
      var n := |s| - 1;
      assert s == s[..n] + [s[n]];
      if !leq(s[n], x) { InsertPermutes(s[..n], x, leq); }
    }
  }

  lemma {:induction false} SortPermutes<T(!new)>(s: seq<T>, leq: (T, T) -> bool)
    ensures multiset(Sort(s, leq)) == multiset(s)
  {
    if s != [] {
      var n := |s| - 1;
      assert s == s[..n] + [s[n]];
      SortPermutes(s[..n], leq);
      InsertPermutes(Sort(s[..n], leq), s[n], leq);
    }
  }

  /** The greatest element comes last. */
  lemma LastAgrees<T(!new)>(s: seq<T>, t: seq<T>, leq: (T, T) -> bool)
    requires Sorted(s, leq) && Sorted(t, leq) && s != [] && t != []
    requires Elements(s) == Elements(t) && Orders(leq, Elements(s))
    ensures s[|s| - 1] == t[|t| - 1]
  {
    var x, y := s[|s| - 1], t[|t| - 1];
    assert x in Elements(t) && y in Elements(s);
    var i :| 0 <= i < |t| && t[i] == x;
    var j :| 0 <= j < |s| && s[j] == y;
  }

  lemma SameBag<T>(s: seq<T>, t: seq<T>)
    requires multiset(s) == multiset(t)
    ensures Elements(s) == Elements(t)
  {
    forall x: T
      ensures x in Elements(s) <==> x in Elements(t)
    {
      assert x in Elements(s) <==> x in multiset(s);
      assert x in Elements(t) <==> x in multiset(t);
    }
  }

  lemma DropLast<T>(s: seq<T>)
    requires s != []
    ensures multiset(s[..|s| - 1]) == multiset(s) - multiset{s[|s| - 1]}
    ensures Elements(s[..|s| - 1]) <= Elements(s)
  {
    assert s == s[..|s| - 1] + [s[|s| - 1]];
  }

  lemma SameLast<T>(s: seq<T>, t: seq<T>)
    requires |s| == |t| != 0 && s[..|s| - 1] == t[..|t| - 1] && s[|s| - 1] == t[|t| - 1]
    ensures s == t
  {
    assert s == s[..|s| - 1] + [s[|s| - 1]] && t == t[..|t| - 1] + [t[|t| - 1]];
  }

  /** A sorted sequence is determined by its multiset of elements. */
  lemma {:induction false} SortedUnique<T(!new)>(s: seq<T>, t: seq<T>, leq: (T, T) -> bool)
    requires Sorted(s, leq) && Sorted(t, leq) && multiset(s) == multiset(t) && Orders(leq, Elements(s))
    ensures s == t
  {
    hide Orders, Sorted, Elements;
    SameLength(s, t);
    if s != [] {
      var n := |s| - 1;
      SameBag(s, t);
      LastAgrees(s, t, leq);
      var front, back := s[..n], t[..n];
      assert multiset(front) == multiset(back) && Elements(front) <= Elements(s) by { DropLast(s); DropLast(t); }
      OrdersSubset(leq, Elements(front), Elements(s));
      SortedPrefix(s, leq);
      SortedPrefix(t, leq);
      SortedUnique(front, back, leq);
      SameLast(s, t);
    }
  }

  lemma SortedPrefix<T(!new)>(s: seq<T>, leq: (T, T) -> bool)
    requires Sorted(s, leq) && s != []
    ensures Sorted(s[..|s| - 1], leq)
  {
  }

  lemma OrdersSubset<T(!new)>(leq: (T, T) -> bool, s: set<T>, t: set<T>)
    requires Orders(leq, t) && s <= t
    ensures Orders(leq, s)
  {
  }

  lemma SameLength<T>(s: seq<T>, t: seq<T>)
    requires multiset(s) == multiset(t)
    ensures |s| == |t|
  {
    assert |multiset(s)| == |s| && |multiset(t)| == |t|;
  }

  /** The order of the input does not show in the sorted output. */
  lemma SortIgnoresOrder<T(!new)>(s: seq<T>, t: seq<T>, leq: (T, T) -> bool)
    requires multiset(s) == multiset(t) && Orders(leq, Elements(s))
    ensures Sort(s, leq) == Sort(t, leq)
  {
    SameBag(s, t);
    SortPermutes(s, leq);
    SortPermutes(t, leq);
    SortSorts(s, leq);
    SortSorts(t, leq);
    SortedUnique(Sort(s, leq), Sort(t, leq), leq);
  }

  /* ---------- The sorted listing of a set ---------- */

  ghost predicate Lists<T(!new)>(t: seq<T>, s: set<T>, leq: (T, T) -> bool) {
    Sorted(t, leq) && Distinct(t) && Elements(t) == s
  }

  lemma {:induction false} ListingExists<T(!new)>(s: set<T>, leq: (T, T) -> bool) returns (t: seq<T>)
    requires Orders(leq, s)
    ensures Lists(t, s, leq)
    decreases |s|
  {
    if s == {} {
      t := [];
    } else {
      var x :| x in s;
      var rest := ListingExists(s - {x}, leq);
      InsertElements(rest, x, leq);
      InsertSorted(rest, x, leq);
      SqueezeDistinct(Insert(rest, x, leq), leq);
      SqueezeElements(Insert(rest, x, leq));
      t := Squeeze(Insert(rest, x, leq));
    }
  }

  /** What sorting the elements of a set gives, whatever order they are enumerated in. */
  ghost function Listing<T(!new)>(s: set<T>, leq: (T, T) -> bool): (t: seq<T>)
    requires Orders(leq, s)
    ensures Lists(t, s, leq)
  {
    assert exists t :: Lists(t, s, leq) by {
      var t := ListingExists(s, leq);
    }
    var t :| Lists(t, s, leq);
    t
  }

  lemma ListingIs<T(!new)>(t: seq<T>, s: set<T>, leq: (T, T) -> bool)
    requires Orders(leq, s) && Lists(t, s, leq)
    ensures t == Listing(s, leq)
  {
    ListingUnique(t, Listing(s, leq), leq);
  }

  /** Sorting an enumeration without repetitions gives the listing. */
  lemma SortLists<T(!new)>(t: seq<T>, s: set<T>, leq: (T, T) -> bool)
    requires Orders(leq, s) && Elements(t) == s && |t| == |s|
    ensures Sort(t, leq) == Listing(s, leq)
  {
    SortSorts(t, leq);
    SizesAgree(Sort(t, leq));
    ListingIs(Sort(t, leq), s, leq);
  }

  /** As many positions as elements leave no room for repetitions. */
  lemma {:induction false} SizesAgree<T>(t: seq<T>)
    ensures |Elements(t)| <= |t|
    ensures |Elements(t)| == |t| ==> Distinct(t)
  {
    if t != [] {
      var rest, last := t[..|t| - 1], t[|t| - 1];
      SizesAgree(rest);
      assert Elements(t) == Elements(rest) + {last};
      if last in rest { assert Elements(t) == Elements(rest); }
    }
  }

  lemma {:induction false} DistinctSize<T>(s: seq<T>)
    requires Distinct(s)
    ensures |Elements(s)| == |s|
  {
    if s != [] {
      var rest, last := s[..|s| - 1], s[|s| - 1];
      DistinctSize(rest);
      assert Elements(s) == Elements(rest) + {last};
    }
  }

  /* ---------- Strings ---------- */

  /** Lexicographic order by code point. */
  predicate StringLeq(a: string, b: string) {
    if a == [] then true
    else if b == [] then false
    else if a[0] == b[0] then StringLeq(a[1..], b[1..])
    else a[0] < b[0]
  }

  lemma {:induction false} StringTotal(a: string, b: string)
    ensures StringLeq(a, b) || StringLeq(b, a)
    ensures StringLeq(a, b) && StringLeq(b, a) ==> a == b
  {
    if a != [] && b != [] && a[0] == b[0] {
      StringTotal(a[1..], b[1..]);
      assert a == [a[0]] + a[1..] && b == [b[0]] + b[1..];
    }
  }

  lemma {:induction false} StringTransitive(a: string, b: string, c: string)
    requires StringLeq(a, b) && StringLeq(b, c)
    ensures StringLeq(a, c)
  {
    if a != [] && b != [] && c != [] && a[0] == b[0] && b[0] == c[0] {
      StringTransitive(a[1..], b[1..], c[1..]);
    }
  }

  lemma StringsOrdered(s: set<string>)
    ensures Orders(StringLeq, s)
  {
    forall x: string, y: string
      ensures StringLeq(x, y) || StringLeq(y, x)
      ensures StringLeq(x, y) && StringLeq(y, x) ==> x == y
    {
      StringTotal(x, y);
    }
    forall x: string, y: string, z: string | StringLeq(x, y) && StringLeq(y, z)
      ensures StringLeq(x, z)
    {
      StringTransitive(x, y, z);
    }
  }
}
