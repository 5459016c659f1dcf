/** Sums over finite sets and sequences. */
module Sums {
  ghost function Sum<T>(s: set<T>, f: T -> int): int
    decreases |s|
  {
    if s == {} then 0
    else var x :| x in s; f(x) + Sum(s - {x}, f)
  }

  lemma {:induction false} SumSplit<T>(s: set<T>, f: T -> int, x: T)
    requires x in s
    ensures Sum(s, f) == f(x) + Sum(s - {x}, f)
    decreases |s|
  {
    var y :| y in s && Sum(s, f) == f(y) + Sum(s - {y}, f);
    if y != x {
      SumSplit(s - {y}, f, x);
      SumSplit(s - {x}, f, y);
      assert s - {y} - {x} == s - {x} - {y};
    }
  }

  lemma {:induction false} SumBetween<T>(s: set<T>, f: T -> int, g: T -> int)
    requires forall x | x in s :: f(x) <= g(x)
    ensures Sum(s, f) <= Sum(s, g)
    decreases |s|
  {
    if s != {} {
      var x :| x in s;
      SumSplit(s, f, x);
      SumSplit(s, g, x);
      SumBetween(s - {x}, f, g);
    }
  }

  lemma SumSame<T>(s: set<T>, f: T -> int, g: T -> int)
    requires forall x | x in s :: f(x) == g(x)
    ensures Sum(s, f) == Sum(s, g)
  {
    SumBetween(s, f, g);
    SumBetween(s, g, f);
  }

  lemma {:induction false} SumConstant<T>(s: set<T>, f: T -> int, c: int)
    requires forall x | x in s :: f(x) == c
    ensures Sum(s, f) == c * |s|
    decreases |s|
  {
    if s != {} {
      var x :| x in s;
      SumSplit(s, f, x);
      SumConstant(s - {x}, f, c);
    }
  }

  lemma {:induction false} SumPlus<T>(s: set<T>, f: T -> int, g: T -> int, h: T -> int)
    requires forall x | x in s :: h(x) == f(x) + g(x)
    ensures Sum(s, h) == Sum(s, f) + Sum(s, g)
    decreases |s|
  {
    if s != {} {
      var x :| x in s;
      SumSplit(s, f, x);
      SumSplit(s, g, x);
      SumSplit(s, h, x);
      SumPlus(s - {x}, f, g, h);
    }
  }

  lemma {:induction false} SumNonNegative<T>(s: set<T>, f: T -> int)
    requires forall x | x in s :: f(x) >= 0
    ensures Sum(s, f) >= 0
    decreases |s|
  {
    if s != {} {
      var x :| x in s;
      SumSplit(s, f, x);
      SumNonNegative(s - {x}, f);
    }
  }

  lemma {:induction false} SumUnion<T>(a: set<T>, b: set<T>, f: T -> int)
    requires a !! b
    ensures Sum(a + b, f) == Sum(a, f) + Sum(b, f)
    decreases |a|
  {
    if a == {} {
      assert a + b == b;
    } else {
      var x :| x in a;
      SumSplit(a, f, x);
      SumSplit(a + b, f, x);
      assert a + b - {x} == (a - {x}) + b;
      SumUnion(a - {x}, b, f);
    }
  }
}
