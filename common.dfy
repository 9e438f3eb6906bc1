/** Stock optional and error-carrying values, used where the simulator passes `None` or raises. */
module Wrappers {

  datatype Option<+T> = None | Some(value: T)

  datatype Result<+T, +E> = Success(value: T) | Failure(error: E)
}

/** Sums and arithmetic means of real sequences, and the incremental-mean identity
    that every averaging update of the simulator relies on. */
module Averages {

  /** The sum of `s`, folded from the left. */
  function Sum(s: seq<real>): real
  {
    if s == [] then 0.0 else Sum(s[..|s| - 1]) + s[|s| - 1]
  }

  /** The arithmetic mean of a non-empty sequence. */
  function Mean(s: seq<real>): real
    requires |s| > 0
  {
    Sum(s) / (|s| as real)
  }

  lemma {:induction false} SumAppend(s: seq<real>, x: real)
    ensures Sum(s + [x]) == Sum(s) + x
  {
    assert (s + [x])[..|s|] == s;
  }

  /** Folding `x` into the running mean `a` of `s` with weight 1/(|s|+1) gives the
      arithmetic mean of `s + [x]`; for an empty `s` the old value `a` is irrelevant. */
  lemma {:induction false} IncrementalMean(a: real, s: seq<real>, x: real)
    requires |s| == 0 || a == Mean(s)
    ensures a + 1.0 / ((|s| + 1) as real) * (x - a) == Mean(s + [x])
  {
    SumAppend(s, x);
    var n := |s| as real;
    if |s| == 0 {
      assert s + [x] == [x];
      assert Sum([x]) == x by { assert [x][..0] == []; }
    } else {
      assert Sum(s) == a * n;
      calc {
        a + 1.0 / (n + 1.0) * (x - a);
        (a * (n + 1.0) + x - a) / (n + 1.0);
        (a * n + x) / (n + 1.0);
        (Sum(s) + x) / (n + 1.0);
      }
    }
  }

  /** The sum of positive numbers is positive. */
  lemma {:induction false} SumPositive(s: seq<real>)
    requires |s| > 0
    requires forall i :: 0 <= i < |s| ==> 0.0 < s[i]
    ensures 0.0 < Sum(s)
    decreases |s|
  {
    if |s| > 1 {
      SumPositive(s[..|s| - 1]);
    } else {
      assert s[..0] == [];
    }
  }

  /** Dividing every term by `t` divides the sum by `t`. */
  lemma {:induction false} SumDivided(s: seq<real>, d: seq<real>, t: real)
    requires t != 0.0
    requires |d| == |s|
    requires forall i :: 0 <= i < |s| ==> d[i] == s[i] / t
    ensures Sum(d) == Sum(s) / t
    decreases |s|
  {
    if |s| > 0 {
      var k := |s| - 1;
      assert forall i :: 0 <= i < k ==> d[..k][i] == s[..k][i] / t;
      SumDivided(s[..k], d[..k], t);
      DivideSum(Sum(d), Sum(d[..k]), d[k], Sum(s), Sum(s[..k]), s[k], t);
    }
  }

  /** The algebra of one step of SumDivided, over plain reals. */
  lemma {:induction false} DivideSum(sd: real, sdk: real, dk: real, ss: real, ssk: real, sk: real, t: real)
    requires t != 0.0
    requires sd == sdk + dk && ss == ssk + sk
    requires sdk == ssk / t && dk == sk / t
    ensures sd == ss / t
  {
    var qa, qb := ssk / t, sk / t;
    assert qa * t == ssk && qb * t == sk;
    assert (qa + qb) * t == ssk + sk;
  }

  /** A sequence of k copies of c sums to k * c. */
  lemma {:induction false} SumConstant(s: seq<real>, c: real)
    requires forall i :: 0 <= i < |s| ==> s[i] == c
    ensures Sum(s) == (|s| as real) * c
    decreases |s|
  {
    if |s| > 0 {
      var k := |s| - 1;
      SumConstant(s[..k], c);
      assert (k as real) * c + c == ((k + 1) as real) * c;
    }
  }

  /** Replacing one term changes the sum by the difference. */
  lemma {:induction false} SumUpdate(s: seq<real>, i: nat, v: real)
    requires i < |s|
    ensures Sum(s[i := v]) == Sum(s) - s[i] + v
    decreases |s|
  {
    var k := |s| - 1;
    if i < k {
      SumUpdate(s[..k], i, v);
      assert s[i := v][..k] == s[..k][i := v];
    } else {
      assert s[i := v][..k] == s[..k];
    }
  }

  /** `a - m * b`, term by term. */
  function ScaledDifference(a: seq<real>, m: real, b: seq<real>): (r: seq<real>)
    requires |a| == |b|
    ensures |r| == |a|
    decreases |a|
  {
    if a == [] then [] else ScaledDifference(a[..|a| - 1], m, b[..|a| - 1]) + [a[|a| - 1] - m * b[|a| - 1]]
  }

  lemma {:induction false} ScaledDifferenceAt(a: seq<real>, m: real, b: seq<real>, j: nat)
    requires |a| == |b| && j < |a|
    ensures ScaledDifference(a, m, b)[j] == a[j] - m * b[j]
    decreases |a|
  {
    var k := |a| - 1;
    if j < k {
      ScaledDifferenceAt(a[..k], m, b[..k], j);
    }
  }

  /** Sum(a - m * b) == Sum(a) - m * Sum(b). */
  lemma {:induction false} SumScaledDifference(a: seq<real>, m: real, b: seq<real>)
    requires |a| == |b|
    ensures Sum(ScaledDifference(a, m, b)) == Sum(a) - m * Sum(b)
  {
    var r := ScaledDifference(a, m, b);
    var scaled := seq(|b|, i requires 0 <= i < |b| => m * b[i]);
    forall j | 0 <= j < |a|
      ensures r[j] == a[j] - scaled[j]
    {
      ScaledDifferenceAt(a, m, b, j);
    }
    SumDifference(r, a, scaled);
    SumScaled(scaled, m, b);
  }

  /** Sum(a - c) == Sum(a) - Sum(c), for `r` the term-by-term difference. */
  lemma {:induction false} SumDifference(r: seq<real>, a: seq<real>, c: seq<real>)
    requires |r| == |a| == |c|
    requires forall i :: 0 <= i < |r| ==> r[i] == a[i] - c[i]
    ensures Sum(r) == Sum(a) - Sum(c)
    decreases |r|
  {
    if r != [] {
      var k := |r| - 1;
      SumDifference(r[..k], a[..k], c[..k]);
    }
  }

  /** Sum(m * b) == m * Sum(b), for `c` the term-by-term product. */
  lemma {:induction false} SumScaled(c: seq<real>, m: real, b: seq<real>)
    requires |c| == |b|
    requires forall i :: 0 <= i < |c| ==> c[i] == m * b[i]
    ensures Sum(c) == m * Sum(b)
    decreases |c|
  {
    if c != [] {
      var k := |c| - 1;
      SumScaled(c[..k], m, b[..k]);
      Distribute(m, Sum(b[..k]), b[k], Sum(b));
    }
  }

  /** Multiplication distributes over a sum of two reals. */
  lemma {:induction false} Distribute(m: real, x: real, y: real, z: real)
    requires z == x + y
    ensures m * x + m * y == m * z
  {
  }
}
