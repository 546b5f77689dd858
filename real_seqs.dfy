/** Sequences of reals: sums, element-wise scaling and the lemmas that the
    normalisation steps of the distribution pipeline rest on; and a few facts
    about products of reals. */
module RealSeqs {

  function Max(a: real, b: real): real { if a >= b then a else b }

  function Min(a: real, b: real): real { if a <= b then a else b }

  /** Python's `sum` over a list of floats. */
  function Sum(s: seq<real>): real
  {
    if s == [] then 0.0 else s[0] + Sum(s[1..])
  }

  ghost predicate AllNonNegative(s: seq<real>)
  {
    forall i :: 0 <= i < |s| ==> 0.0 <= s[i]
  }

  ghost predicate AllWithin(s: seq<real>, lo: real, hi: real)
  {
    forall i :: 0 <= i < |s| ==> lo <= s[i] <= hi
  }

  /** `[c] * n` */
  function Constant(n: nat, c: real): seq<real>
  {
    seq(n, _ => c)
  }

  /** `[c * x for x in s]` */
  function Scale(s: seq<real>, c: real): (r: seq<real>)
    ensures |r| == |s| && forall i :: 0 <= i < |s| ==> r[i] == c * s[i]
  {
    seq(|s|, i requires 0 <= i < |s| => c * s[i])
  }

  /** `[x / t for x in s]` */
  function Divide(s: seq<real>, t: real): seq<real>
    requires t != 0.0
  {
    seq(|s|, i requires 0 <= i < |s| => s[i] / t)
  }

  /** `[max(0.0, x) for x in s]` */
  function ClampNonNegative(s: seq<real>): seq<real>
  {
    seq(|s|, i requires 0 <= i < |s| => Max(0.0, s[i]))
  }

  /** `[a * b for a, b in zip(xs, ys)]`: as long as the shorter input. */
  function ZipMultiply(xs: seq<real>, ys: seq<real>): seq<real>
  {
    seq(if |xs| <= |ys| then |xs| else |ys|, i requires 0 <= i < |xs| && i < |ys| => xs[i] * ys[i])
  }

  lemma {:induction false} SumNonNegative(s: seq<real>)
    requires AllNonNegative(s)
    ensures Sum(s) >= 0.0
  {
    if s != [] {
      SumNonNegative(s[1..]);
    }
  }

  lemma {:induction false} SumConstant(n: nat, c: real)
    ensures Sum(Constant(n, c)) == n as real * c
  {
    if n > 0 {
      assert Constant(n, c)[1..] == Constant(n - 1, c);
      SumConstant(n - 1, c);
    }
  }

  lemma {:induction false} SumScale(s: seq<real>, c: real)
    ensures Sum(Scale(s, c)) == c * Sum(s)
  {
    if s != [] {
      var t := Scale(s, c);
      assert forall i :: 0 <= i < |s| - 1 ==> t[1..][i] == Scale(s[1..], c)[i];
      assert t[1..] == Scale(s[1..], c);
      SumScale(s[1..], c);
      assert Sum(t) == t[0] + Sum(t[1..]);
      Distribute(c, s[0], Sum(s[1..]));
    }
  }

  lemma Distribute(c: real, x: real, y: real)
    ensures c * (x + y) == c * x + c * y
  {
  }

  lemma {:induction false} SumDivide(s: seq<real>, t: real)
    requires t != 0.0
    ensures Sum(Divide(s, t)) == Sum(s) / t
  {
    if s != [] {
      assert Divide(s, t)[1..] == Divide(s[1..], t);
      SumDivide(s[1..], t);
    }
  }

  /** Element-wise error bound: sums of close sequences are close. */
  lemma {:induction false} SumCloseness(a: seq<real>, b: seq<real>, e: real)
    requires |a| == |b|
    requires forall i :: 0 <= i < |a| ==> -e <= a[i] - b[i] <= e
    ensures -(|a| as real) * e <= Sum(a) - Sum(b) <= |a| as real * e
  {
    if a != [] {
      SumCloseness(a[1..], b[1..], e);
      var n := |a[1..]| as real;
      assert |a| as real * e == n * e + e;
    }
  }

  /** Dividing weights by their non-zero total gives shares that sum to 1. */
  lemma DivideByTotalSumsToOne(w: seq<real>)
    requires Sum(w) != 0.0
    ensures Sum(Divide(w, Sum(w))) == 1.0
  {
    var total := Sum(w);
    SumDivide(w, total);
    DivideSelf(total);
  }

  /** Dividing non-negative weights by their non-zero total keeps them non-negative. */
  lemma DivideByTotalNonNegative(w: seq<real>)
    requires Sum(w) != 0.0
    ensures AllNonNegative(w) ==> AllNonNegative(Divide(w, Sum(w)))
  {
    if AllNonNegative(w) {
      var total := Sum(w);
      SumNonNegative(w);
      forall i | 0 <= i < |w| ensures 0.0 <= Divide(w, total)[i] {
        DivideNonNegative(w[i], total);
      }
    }
  }

  /** Each share times the total gives back the weight. */
  lemma DivideByTotalProportional(w: seq<real>)
    requires Sum(w) != 0.0
    ensures forall i :: 0 <= i < |w| ==> Divide(w, Sum(w))[i] * Sum(w) == w[i]
  {
    var total := Sum(w);
    forall i | 0 <= i < |w| ensures Divide(w, total)[i] * total == w[i] {
      TimesBack(w[i], total);
    }
  }

  lemma DivideSelf(t: real)
    requires t != 0.0
    ensures t / t == 1.0
  {
  }

  lemma TimesBack(x: real, t: real)
    requires t != 0.0
    ensures (x / t) * t == x
  {
  }

  lemma DivideNonNegative(x: real, t: real)
    requires 0.0 <= x && 0.0 < t
    ensures 0.0 <= x / t
  {
  }

  lemma ScaleNonNegative(s: seq<real>, c: real)
    ensures AllNonNegative(s) && 0.0 <= c ==> AllNonNegative(Scale(s, c))
  {
    if AllNonNegative(s) && 0.0 <= c {
      forall i | 0 <= i < |s| ensures 0.0 <= Scale(s, c)[i] {
        ProductNonNegative(c, s[i]);
      }
    }
  }

  lemma ProductNonNegative(a: real, b: real)
    requires 0.0 <= a && 0.0 <= b
    ensures 0.0 <= a * b
  {
  }

  /** `[1.0 / 12] * 12`: the even twelve-month split. */
  function Uniform(): seq<real>
  {
    Constant(12, 1.0 / 12.0)
  }

  lemma UniformSumsToOne()
    ensures Sum(Uniform()) == 1.0
  {
    SumConstant(12, 1.0 / 12.0);
  }

  /** `r` is `w` normalised to sum 1, or 1/12 per month when `w` sums to zero. */
  ghost predicate NormalisationOf(r: seq<real>, w: seq<real>)
  {
    && (Sum(w) == 0.0 ==> r == Uniform())
    && (Sum(w) != 0.0 ==> |r| == |w| && forall i :: 0 <= i < |r| ==> r[i] * Sum(w) == w[i])
  }

  /** Divide each weight by the total, or fall back to 1/12 per month when the
      total is zero. */
  function Normalise(w: seq<real>): (r: seq<real>)
    ensures Sum(r) == 1.0
    ensures NormalisationOf(r, w)
    ensures AllNonNegative(w) ==> AllNonNegative(r)
  {
    var total := Sum(w);
    if total == 0.0 then
      UniformSumsToOne();
      Uniform()
    else
      DivideByTotalSumsToOne(w);
      DivideByTotalNonNegative(w);
      DivideByTotalProportional(w);
      Divide(w, total)
  }

  /** `a * b`, kept behind a function so that the solver sees squares as
      products of two arguments. */
  function Mul(a: real, b: real): real { a * b }

  lemma MulPositive(a: real, b: real)
    requires (0.0 < a && 0.0 < b) || (a < 0.0 && b < 0.0)
    ensures 0.0 < Mul(a, b)
  {
  }

  lemma MulNonNegative(a: real, b: real)
    requires (0.0 <= a && 0.0 <= b) || (a <= 0.0 && b <= 0.0)
    ensures 0.0 <= Mul(a, b)
  {
  }

  lemma MulZero(a: real)
    ensures Mul(0.0, a) == 0.0
  {
  }

  lemma MulNegated(a: real, b: real)
    ensures Mul(-a, -b) == Mul(a, b)
  {
  }

  lemma MulMonotone(x: real, y: real)
    requires 0.0 <= x <= y
    ensures Mul(x, x) <= Mul(y, y)
  {
    assert x * x <= x * y;
    assert x * y <= y * y;
  }
}
