/** Largest and second-largest element of a finite set of sequence numbers. */
module IntSets {

  lemma NoElementNoSet(s: set<int>)
    ensures (forall x :: x !in s) ==> s == {}
  {
    if forall x :: x !in s {
      assert s == {};
    }
  }

  ghost function MaxOf(s: set<int>): (m: int)
    requires s != {}
    ensures m in s
    ensures forall x | x in s :: x <= m
  {
    NoElementNoSet(s);
    var x :| x in s;
    if s == {x} then x else
      var m := MaxOf(s - {x});
      assert s == (s - {x}) + {x};
      if x <= m then m else x
  }

  /** The element of rank two, which `ROW_NUMBER() ... ORDER BY seq DESC` numbers 2. */
  ghost function SecondOf(s: set<int>): (m: int)
    requires |s| >= 2
    ensures m in s && m < MaxOf(s)
    ensures forall x | x in s && x != MaxOf(s) :: x <= m
  {
    var rest := s - {MaxOf(s)};
    assert |rest| == |s| - 1;
    assert forall x | x in s && x != MaxOf(s) :: x in rest;
    MaxOf(rest)
  }

  lemma MaxIs(s: set<int>, m: int)
    requires m in s && forall x | x in s :: x <= m
    ensures MaxOf(s) == m
  {
  }

  /** Two distinct elements of `s` that both exceed `bound` are what it takes for the
      second-largest element to exceed `bound`. */
  lemma SecondAboveNeedsTwo(s: set<int>, known: set<int>, bound: int)
    requires |s| >= 2 && known <= s
    requires forall k | k in known :: k <= bound
    requires |s - known| <= 1
    ensures SecondOf(s) <= bound
  {
    var a, b := MaxOf(s), SecondOf(s);
    if b > bound {
      assert {a, b} <= s - known;
      SubsetSize({a, b}, s - known);
    }
  }

  lemma SubsetSize(a: set<int>, b: set<int>)
    requires a <= b
    ensures |a| <= |b|
  {
    if a != {} {
      NoElementNoSet(a);
      var x :| x in a;
      SubsetSize(a - {x}, b - {x});
    }
  }

  /** Adding an element never lowers the second-largest one. */
  lemma SecondGrows(s: set<int>, x: int)
    requires |s| >= 2
    ensures |s + {x}| >= 2 && SecondOf(s) <= SecondOf(s + {x})
  {
    SubsetSize(s, s + {x});
    assert MaxOf(s) in s + {x} && SecondOf(s) in s + {x};
  }
}
