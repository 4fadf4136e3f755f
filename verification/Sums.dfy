/** Sums over sequences, and what leaves them unchanged. */
module Sums {
  import opened Ordering

  function Sum<T>(f: T -> real, s: seq<T>): real {
    if s == [] then 0.0 else Sum(f, s[..|s| - 1]) + f(s[|s| - 1])
  }

  lemma SumSnoc<T>(f: T -> real, s: seq<T>, x: T)
    ensures Sum(f, s + [x]) == Sum(f, s) + f(x)
  {
    assert (s + [x])[..|s|] == s;
  }

  lemma {:induction false} SumConcat<T>(f: T -> real, s: seq<T>, t: seq<T>)
    ensures Sum(f, s + t) == Sum(f, s) + Sum(f, t)
  {
    if t == [] {
      assert s + t == s;
    } else {
      assert (s + t)[..|s + t| - 1] == s + t[..|t| - 1];
      SumConcat(f, s, t[..|t| - 1]);
    }
  }

  lemma {:induction false} SumNonNegative<T>(f: T -> real, s: seq<T>)
    requires forall i :: 0 <= i < |s| ==> f(s[i]) >= 0.0
    ensures Sum(f, s) >= 0.0
  {
    if s != [] {
      SumNonNegative(f, s[..|s| - 1]);
    }
  }

  /** Termwise comparison. */
  lemma {:induction false} SumLe<T>(f: T -> real, g: T -> real, s: seq<T>)
    requires forall i :: 0 <= i < |s| ==> f(s[i]) <= g(s[i])
    ensures Sum(f, s) <= Sum(g, s)
  {
    if s != [] {
      SumLe(f, g, s[..|s| - 1]);
    }
  }

  lemma {:induction false} SumSame<T>(f: T -> real, g: T -> real, s: seq<T>)
    requires forall i :: 0 <= i < |s| ==> f(s[i]) == g(s[i])
    ensures Sum(f, s) == Sum(g, s)
  {
    if s != [] {
      SumSame(f, g, s[..|s| - 1]);
    }
  }

  /** Take one occurrence of `x` out of a sequence. */
  lemma TakeOut<T>(f: T -> real, t: seq<T>, x: T) returns (rest: seq<T>)
    requires x in t
    ensures multiset(t) == multiset(rest) + multiset{x}
    ensures Sum(f, t) == Sum(f, rest) + f(x)
    ensures |t| == |rest| + 1
  {
    var k :| 0 <= k < |t| && t[k] == x;
    var a, b := t[..k], t[k + 1..];
    rest := a + b;
    assert t == a + [x] + b;
    SumConcat(f, a + [x], b);
    SumSnoc(f, a, x);
    SumConcat(f, a, b);
  }

  /** A sum does not depend on the order of its terms. */
  lemma {:induction false} SumPermuted<T>(f: T -> real, s: seq<T>, t: seq<T>)
    requires multiset(s) == multiset(t)
    ensures Sum(f, s) == Sum(f, t) && |s| == |t|
    decreases |s|
  {
    SameMembers(s, t);
    if s != [] {
      var init, x := s[..|s| - 1], s[|s| - 1];
      assert s == init + [x];
      assert x in s && x in t;
      var rest := TakeOut(f, t, x);
      assert multiset(init) == multiset(s) - multiset{x};
      SumPermuted(f, init, rest);
    }
  }

  function Absolute(x: real): real { if x < 0.0 then -x else x }

  function Magnitude<T>(f: T -> real): T -> real { x => Absolute(f(x)) }

  function Square<T>(f: T -> real): T -> real { x => f(x) * f(x) }

  lemma {:induction false} TriangleInequality<T>(f: T -> real, s: seq<T>)
    ensures Absolute(Sum(f, s)) <= Sum(Magnitude(f), s)
  {
    if s != [] {
      TriangleInequality(f, s[..|s| - 1]);
    }
  }

  /** The sum of squared deviations from `t`, written out, is never negative. */
  lemma {:induction false} SquaredDeviations<T>(f: T -> real, s: seq<T>, t: real)
    ensures Sum(Square(f), s) - 2.0 * t * Sum(f, s) + |s| as real * (t * t) >= 0.0
  {
    if s != [] {
      var init, y := s[..|s| - 1], f(s[|s| - 1]);
      SquaredDeviations(f, init, t);
      assert (y - t) * (y - t) == y * y - 2.0 * t * y + t * t;
      assert (y - t) * (y - t) >= 0.0;
      assert |s| as real * (t * t) == |init| as real * (t * t) + t * t;
      assert 2.0 * t * (Sum(f, init) + y) == 2.0 * t * Sum(f, init) + 2.0 * t * y;
    }
  }

  /** The square of a mean `t` is at most the mean of the squares. */
  lemma MeanSquare<T>(f: T -> real, s: seq<T>, t: real)
    requires t * |s| as real == Sum(f, s)
    ensures (t * t) * |s| as real <= Sum(Square(f), s)
  {
    SquaredDeviations(f, s, t);
    AtTheMean(|s| as real, Sum(f, s), Sum(Square(f), s), t);
  }

  lemma AtTheMean(n: real, a: real, q: real, t: real)
    requires t * n == a && q - 2.0 * t * a + n * (t * t) >= 0.0
    ensures (t * t) * n <= q
  {
    assert t * a == (t * t) * n;
  }

  lemma Quotient(x: real, n: real)
    requires n > 0.0
    ensures x / n * n == x
  {
  }

  lemma DivideBoth(x: real, y: real, n: real)
    requires n > 0.0 && x * n <= y
    ensures x <= y / n
  {
    Quotient(y, n);
    CancelFactor(x, y / n, n);
  }

  lemma CancelFactor(x: real, y: real, n: real)
    requires n > 0.0 && x * n <= y * n
    ensures x <= y
  {
  }

  lemma DivideMonotone(x: real, y: real, n: real)
    requires n > 0.0 && x <= y
    ensures x / n <= y / n
  {
    Quotient(x, n);
    DivideBoth(x / n, y, n);
  }

  lemma AddDivided(x: real, y: real, n: real)
    requires n > 0.0
    ensures (x + y) / n == x / n + y / n
  {
  }

  lemma AbsoluteQuotient(x: real, n: real)
    requires n > 0.0
    ensures Absolute(x / n) == Absolute(x) / n
    ensures 0.0 <= Absolute(x) / n
  {
    if x < 0.0 {
      assert (-x) / n == -(x / n);
      DivideMonotone(0.0, -x, n);
    } else {
      DivideMonotone(0.0, x, n);
    }
  }

  lemma ProductOrder(x: real, y: real)
    requires 0.0 <= x <= y
    ensures x * x <= y * y
  {
    assert x * x <= x * y;
    assert x * y <= y * y;
  }
}
