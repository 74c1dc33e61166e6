/** Finite sums over sets, and order-preserving subsequences. */
module Sums {

  /** The sum of f over s; independent of the order in which elements are drawn (SumRemove). */
  ghost function SumOver<T>(s: set<T>, f: T -> int): int
  {
    if s == {} then 0
    else
      var x :| x in s;
      f(x) + SumOver(s - {x}, f)
  }

  lemma {:induction false} SumRemove<T>(s: set<T>, f: T -> int, x: T)
    requires x in s
    ensures SumOver(s, f) == f(x) + SumOver(s - {x}, f)
    decreases |s|
  {
    var y :| y in s && SumOver(s, f) == f(y) + SumOver(s - {y}, f);
    if y != x {
      SumRemove(s - {y}, f, x);
      SumRemove(s - {x}, f, y);
      assert s - {y} - {x} == s - {x} - {y};
    }
  }

  lemma {:induction false} SumCongruent<T>(s: set<T>, f: T -> int, g: T -> int)
    requires forall x :: x in s ==> f(x) == g(x)
    ensures SumOver(s, f) == SumOver(s, g)
    decreases |s|
  {
    if s != {} {
      var x :| x in s;
      SumRemove(s, f, x);
      SumRemove(s, g, x);
      SumCongruent(s - {x}, f, g);
    }
  }

  /** Changing f at one point of s changes the sum by the difference at that point. */
  lemma SumUpdate<T>(s: set<T>, f: T -> int, g: T -> int, x: T)
    requires x in s
    requires forall y :: y in s && y != x ==> f(y) == g(y)
    ensures SumOver(s, g) == SumOver(s, f) - f(x) + g(x)
  {
    SumRemove(s, f, x);
    SumRemove(s, g, x);
    SumCongruent(s - {x}, f, g);
  }

  /** Adding one element to the index set. */
  lemma SumInsert<T>(s: set<T>, f: T -> int, g: T -> int, x: T)
    requires x !in s
    requires forall y :: y in s ==> f(y) == g(y)
    ensures SumOver(s + {x}, g) == SumOver(s, f) + g(x)
  {
    SumRemove(s + {x}, g, x);
    assert s + {x} - {x} == s;
    SumCongruent(s, f, g);
  }

  lemma {:induction false} SumMonotone<T>(s: set<T>, f: T -> int, g: T -> int)
    requires forall x :: x in s ==> f(x) <= g(x)
    ensures SumOver(s, f) <= SumOver(s, g)
    decreases |s|
  {
    if s != {} {
      var x :| x in s;
      SumRemove(s, f, x);
      SumRemove(s, g, x);
      SumMonotone(s - {x}, f, g);
    }
  }

  lemma SumNonNegative<T>(s: set<T>, f: T -> int)
    requires forall x :: x in s ==> 0 <= f(x)
    ensures 0 <= SumOver(s, f)
  {
    var zero := (x: T) => 0;
    SumMonotone(s, zero, f);
    SumOfZero(s, zero);
  }

  lemma {:induction false} SumOfZero<T>(s: set<T>, f: T -> int)
    requires forall x :: x in s ==> f(x) == 0
    ensures SumOver(s, f) == 0
    decreases |s|
  {
    if s != {} {
      var x :| x in s;
      SumRemove(s, f, x);
      SumOfZero(s - {x}, f);
    }
  }

  lemma {:induction false} SubsetCardinality<T>(a: set<T>, b: set<T>)
    requires a <= b
    ensures |a| <= |b|
    decreases |a|
  {
    if a != {} {
      var x :| x in a;
      SubsetCardinality(a - {x}, b - {x});
    }
  }

  lemma MinusNothing<T>(s: set<T>, none: set<T>)
    requires none == {}
    ensures s - none == s
  {
  }

  /** Visiting x moves it, if it belongs to s, into the visited part of s. */
  lemma Visit<T>(s: set<T>, todo: set<T>, x: T)
    requires x in todo
    ensures x in s ==> s - (todo - {x}) == (s - todo) + {x} && |s - (todo - {x})| == |s - todo| + 1
    ensures x !in s ==> s - (todo - {x}) == s - todo
  {
    if x in s {
      assert s - (todo - {x}) == (s - todo) + {x};
    } else {
      assert s - (todo - {x}) == s - todo;
    }
  }

  /** a is obtained from b by deleting elements. */
  ghost predicate Subseq<T>(a: seq<T>, b: seq<T>)
  {
    || a == []
    || (b != [] && a[0] == b[0] && Subseq(a[1..], b[1..]))
    || (b != [] && Subseq(a, b[1..]))
  }

  lemma {:induction false} SubseqReflexive<T>(a: seq<T>)
    ensures Subseq(a, a)
  {
    if a != [] { SubseqReflexive(a[1..]); }
  }

  lemma {:induction false} SubseqTransitive<T>(a: seq<T>, b: seq<T>, c: seq<T>)
    requires Subseq(a, b) && Subseq(b, c)
    ensures Subseq(a, c)
    decreases |a| + |b| + |c|
  {
    if a != [] && b != [] {
      if b[0] == c[0] && Subseq(b[1..], c[1..]) {
        if a[0] == b[0] && Subseq(a[1..], b[1..]) {
          SubseqTransitive(a[1..], b[1..], c[1..]);
        } else {
          SubseqTransitive(a, b[1..], c[1..]);
        }
      } else {
        SubseqTransitive(a, b, c[1..]);
      }
    }
  }

  lemma {:induction false} SubseqMember<T>(a: seq<T>, b: seq<T>, x: T)
    requires Subseq(a, b) && x in a
    ensures x in b
    decreases |b|
  {
    if b != [] && a[0] == b[0] && Subseq(a[1..], b[1..]) {
      if x != a[0] {
        SubseqMember(a[1..], b[1..], x);
      }
    } else {
      SubseqMember(a, b[1..], x);
    }
  }

  lemma {:induction false} SubseqLength<T>(a: seq<T>, b: seq<T>)
    requires Subseq(a, b)
    ensures |a| <= |b|
    decreases |b|
  {
    if a != [] {
      if a[0] == b[0] && Subseq(a[1..], b[1..]) {
        SubseqLength(a[1..], b[1..]);
      } else {
        SubseqLength(a, b[1..]);
      }
    }
  }

  /** Appending the same to both, or something to the longer one, keeps a subsequence. */
  lemma {:induction false} SubseqSnoc<T>(a: seq<T>, b: seq<T>, x: T)
    requires Subseq(a, b)
    ensures Subseq(a + [x], b + [x]) && Subseq(a, b + [x])
    decreases |b|
  {
    if b == [] {
      assert a + [x] == [x] == b + [x];
    } else {
      assert (b + [x])[1..] == b[1..] + [x];
      if a != [] && a[0] == b[0] && Subseq(a[1..], b[1..]) {
        assert (a + [x])[1..] == a[1..] + [x];
        SubseqSnoc(a[1..], b[1..], x);
      } else if a == [] {
        SubseqSnoc(a, b[1..], x);
      } else {
        SubseqSnoc(a, b[1..], x);
      }
    }
  }

  /** Deleting a block from the middle leaves a subsequence. */
  lemma {:induction false} SubseqDrop<T>(x: seq<T>, y: seq<T>, z: seq<T>)
    ensures Subseq(x + z, x + y + z)
    decreases |x| + |y|
  {
    if x != [] {
      SubseqDrop(x[1..], y, z);
      assert (x + z)[1..] == x[1..] + z;
      assert (x + y + z)[1..] == x[1..] + y + z;
    } else if y != [] {
      SubseqDrop(x, y[1..], z);
      assert x + z == z && x + y[1..] + z == y[1..] + z;
      assert (x + y + z)[1..] == y[1..] + z;
    } else {
      assert x + z == z && x + y + z == z;
      SubseqReflexive(z);
    }
  }
}
