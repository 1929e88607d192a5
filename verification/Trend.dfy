/** analyzer/analysis.go, GetTrands: is the least-squares slope of the recent samples positive? Samples arrive
    newest first, and arithmetic is over the reals. */
module Trend {

  /** The samples in chronological order. */
  function Chronological(data: seq<real>): (y: seq<real>)
    ensures |y| == |data|
    ensures forall i :: 0 <= i < |data| ==> y[i] == data[|data| - 1 - i]
  {
    if data == [] then [] else Chronological(data[1..]) + [data[0]]
  }

  // ----- running sums over the first k samples, numbered 0, 1, 2, ...

  /** The sums of i, of i * i, of y[i], of i * y[i] and of y[i] * y[i]. */
  datatype Sums = Sums(x: real, q: real, s: real, w: real, c: real)

  ghost function Push(t: Sums, i: real, v: real): Sums { Sums(t.x + i, t.q + i * i, t.s + v, t.w + i * v, t.c + v * v) }

  ghost function SumsOf(y: seq<real>, k: nat): Sums
    requires k <= |y|
  { if k == 0 then Sums(0.0, 0.0, 0.0, 0.0, 0.0) else Push(SumsOf(y, k - 1), (k - 1) as real, y[k - 1]) }

  /** The first loop of the code. */
  ghost function SumIndex(k: nat): real { if k == 0 then 0.0 else SumIndex(k - 1) + (k - 1) as real }

  /** The mean of the indexes 0 .. n-1. */
  ghost function MidIndex(n: nat): real { (n as real - 1.0) / 2.0 }

  /** What one sample contributes to the covariance of samples and indexes. */
  ghost function Cross(v: real, average: real, i: real, mid: real): real { (v - average) * (i - mid) }

  /** What the second loop accumulates: covariance and index variance, up to a common factor. */
  ghost function Numerator(y: seq<real>, average: real, mid: real, k: nat): real
    requires k <= |y|
  { if k == 0 then 0.0 else Numerator(y, average, mid, k - 1) + Cross(y[k - 1], average, (k - 1) as real, mid) }

  ghost function Denominator(mid: real, k: nat): real
  { if k == 0 then 0.0 else Denominator(mid, k - 1) + ((k - 1) as real - mid) * ((k - 1) as real - mid) }

  // ----- closed forms

  ghost predicate IndexForm(n: nat, t: Sums) { t.x == n as real * (n as real - 1.0) / 2.0 }

  ghost predicate SquaresForm(n: nat, t: Sums) { t.q == n as real * (n as real - 1.0) * (2.0 * n as real - 1.0) / 6.0 }

  lemma IndexStep(n: nat, t: Sums, v: real)
    ensures IndexForm(n, t) ==> IndexForm(n + 1, Push(t, n as real, v))
    ensures SquaresForm(n, t) ==> SquaresForm(n + 1, Push(t, n as real, v))
  {
  }

  lemma {:induction false} IndexClosed(y: seq<real>, k: nat)
    requires k <= |y|
    ensures IndexForm(k, SumsOf(y, k)) && SquaresForm(k, SumsOf(y, k))
  {
    if k != 0 {
      IndexClosed(y, k - 1);
      IndexStep(k - 1, SumsOf(y, k - 1), y[k - 1]);
    }
  }

  ghost predicate DenominatorForm(den: real, mid: real, n: nat, t: Sums) {
    den == t.q - 2.0 * mid * t.x + n as real * mid * mid
  }

  lemma DenominatorStep(den: real, mid: real, n: nat, t: Sums, v: real)
    ensures DenominatorForm(den, mid, n, t)
        ==> DenominatorForm(den + (n as real - mid) * (n as real - mid), mid, n + 1, Push(t, n as real, v))
  {
  }

  lemma {:induction false} DenominatorPrefix(y: seq<real>, mid: real, k: nat)
    requires k <= |y|
    ensures DenominatorForm(Denominator(mid, k), mid, k, SumsOf(y, k))
  {
    if k != 0 {
      DenominatorPrefix(y, mid, k - 1);
      DenominatorStep(Denominator(mid, k - 1), mid, k - 1, SumsOf(y, k - 1), y[k - 1]);
    }
  }

  /** The denominator is n(n^2 - 1)/12, positive from two samples on. */
  lemma DenominatorClosed(n: nat)
    ensures Denominator(MidIndex(n), n) == n as real * (n as real * n as real - 1.0) / 12.0
    ensures n >= 2 ==> Denominator(MidIndex(n), n) > 0.0
  {
    var y := seq(n, _ => 0.0);
    DenominatorPrefix(y, MidIndex(n), n);
    IndexClosed(y, n);
    DenominatorAlgebra(Denominator(MidIndex(n), n), n, SumsOf(y, n));
  }

  lemma DenominatorPositive(n: nat)
    requires n >= 2
    ensures Denominator(MidIndex(n), n) > 0.0
  {
    DenominatorClosed(n);
  }

  lemma DenominatorAlgebra(den: real, n: nat, t: Sums)
    requires DenominatorForm(den, MidIndex(n), n, t) && IndexForm(n, t) && SquaresForm(n, t)
    ensures den == n as real * (n as real * n as real - 1.0) / 12.0
    ensures n >= 2 ==> den > 0.0
  {
    var r := n as real;
    if n >= 2 {
      assert r * r > 1.0;
      assert r * (r * r - 1.0) > 0.0;
    }
  }

  /** The numerator by plain sums; the average only enters through the index sum. */
  ghost predicate NumeratorForm(num: real, average: real, mid: real, n: nat, t: Sums) {
    num == t.w - mid * t.s - average * (t.x - n as real * mid)
  }

  lemma NumeratorStep(num: real, average: real, mid: real, n: nat, t: Sums, v: real)
    ensures NumeratorForm(num, average, mid, n, t)
        ==> NumeratorForm(num + Cross(v, average, n as real, mid), average, mid, n + 1, Push(t, n as real, v))
  {
  }

  lemma {:induction false} NumeratorPrefix(y: seq<real>, average: real, mid: real, k: nat)
    requires k <= |y|
    ensures NumeratorForm(Numerator(y, average, mid, k), average, mid, k, SumsOf(y, k))
  {
    if k != 0 {
      NumeratorPrefix(y, average, mid, k - 1);
      NumeratorStep(Numerator(y, average, mid, k - 1), average, mid, k - 1, SumsOf(y, k - 1), y[k - 1]);
    }
  }

  /** The whole series' numerator, as the code computes it with any average. */
  ghost function TrendNumerator(y: seq<real>, average: real): real {
    Numerator(y, average, MidIndex(|y|), |y|)
  }

  lemma TrendNumeratorClosed(y: seq<real>, average: real)
    ensures CenteredForm(TrendNumerator(y, average), |y|, SumsOf(y, |y|))
  {
    NumeratorPrefix(y, average, MidIndex(|y|), |y|);
    IndexClosed(y, |y|);
    AverageCancels(TrendNumerator(y, average), average, |y|, SumsOf(y, |y|));
  }

  lemma AverageCancels(num: real, average: real, n: nat, t: Sums)
    ensures IndexForm(n, t) && NumeratorForm(num, average, MidIndex(n), n, t) ==> CenteredForm(num, n, t)
  {
  }

  /** The `average` argument has no influence: the truncated integer mean that the threshold functions pass
      gives the same numerator as the exact mean. */
  lemma AverageIsIrrelevant(y: seq<real>, average: real, other: real)
    ensures TrendNumerator(y, average) == TrendNumerator(y, other)
  {
    TrendNumeratorClosed(y, average);
    TrendNumeratorClosed(y, other);
  }

  // ----- the numerator as a sum over pairs of samples

  /** What a pair of samples i < j contributes: their distance times the rise from one to the other. */
  ghost function PairTerm(j: real, i: real, v: real, u: real): real { (j - i) * (v - u) }

  /** The sum of (j - i) * (y[j] - y[i]) over all i below k. */
  ghost function PairsWith(y: seq<real>, j: nat, k: nat): real
    requires k <= j < |y|
  { if k == 0 then 0.0 else PairsWith(y, j, k - 1) + PairTerm(j as real, (k - 1) as real, y[j], y[k - 1]) }

  /** The sum of (j - i) * (y[j] - y[i]) over all pairs i < j below k. */
  ghost function Pairs(y: seq<real>, k: nat): real
    requires k <= |y|
  { if k == 0 then 0.0 else Pairs(y, k - 1) + PairsWith(y, k - 1, k - 1) }

  ghost predicate PairsWithForm(p: real, v: real, j: nat, n: nat, t: Sums) {
    p == v * (j as real * n as real - t.x) - j as real * t.s + t.w
  }

  lemma PairsWithStep(p: real, v: real, j: nat, n: nat, t: Sums, u: real)
    ensures PairsWithForm(p, v, j, n, t)
        ==> PairsWithForm(p + PairTerm(j as real, n as real, v, u), v, j, n + 1, Push(t, n as real, u))
  {
  }

  lemma {:induction false} PairsWithClosed(y: seq<real>, j: nat, k: nat)
    requires k <= j < |y|
    ensures PairsWithForm(PairsWith(y, j, k), y[j], j, k, SumsOf(y, k))
  {
    if k != 0 {
      PairsWithClosed(y, j, k - 1);
      PairsWithStep(PairsWith(y, j, k - 1), y[j], j, k - 1, SumsOf(y, k - 1), y[k - 1]);
    }
  }

  ghost predicate PairsForm(p: real, n: nat, t: Sums) { p == n as real * t.w - t.x * t.s }

  lemma PairsStep(p: real, q: real, n: nat, t: Sums, v: real)
    ensures IndexForm(n, t) && PairsForm(p, n, t) && PairsWithForm(q, v, n, n, t)
        ==> PairsForm(p + q, n + 1, Push(t, n as real, v))
  {
    if IndexForm(n, t) {
      var i := n as real;
      assert v * (i * i - t.x) == v * (i + t.x) by { assert i * i - t.x == i + t.x; }
    }
  }

  lemma {:induction false} PairsClosed(y: seq<real>, k: nat)
    requires k <= |y|
    ensures PairsForm(Pairs(y, k), k, SumsOf(y, k))
  {
    if k != 0 {
      PairsClosed(y, k - 1);
      PairsWithClosed(y, k - 1, k - 1);
      IndexClosed(y, k - 1);
      PairsStep(Pairs(y, k - 1), PairsWith(y, k - 1, k - 1), k - 1, SumsOf(y, k - 1), y[k - 1]);
    }
  }

  /** n times the numerator is the sum of (j - i) * (y[j] - y[i]) over all pairs i < j. */
  lemma NumeratorIsPairSum(y: seq<real>, average: real)
    ensures |y| as real * TrendNumerator(y, average) == Pairs(y, |y|)
  {
    TrendNumeratorClosed(y, average);
    PairsClosed(y, |y|);
    IndexClosed(y, |y|);
    PairSumAlgebra(Pairs(y, |y|), TrendNumerator(y, average), |y|, SumsOf(y, |y|));
  }

  ghost predicate CenteredForm(num: real, n: nat, t: Sums) { num == t.w - MidIndex(n) * t.s }

  lemma PairSumAlgebra(p: real, num: real, n: nat, t: Sums)
    ensures PairsForm(p, n, t) && IndexForm(n, t) && CenteredForm(num, n, t) ==> n as real * num == p
  {
    if IndexForm(n, t) { assert t.x == n as real * MidIndex(n); }
  }

  // ----- the verdict

  /** The verdict of GetTrands on a chronological series. */
  ghost predicate Rising(y: seq<real>) {
    |y| >= 2 && Pairs(y, |y|) > 0.0
  }

  lemma {:induction false} SumIndexIs(y: seq<real>, k: nat)
    requires k <= |y|
    ensures SumIndex(k) == SumsOf(y, k).x
  {
    if k != 0 { SumIndexIs(y, k - 1); }
  }

  lemma MeanIndex(n: nat)
    requires n > 0
    ensures SumIndex(n) / n as real == MidIndex(n)
  {
    var y := seq(n, _ => 0.0);
    SumIndexIs(y, n);
    IndexClosed(y, n);
    QuotientOfProduct(n as real, MidIndex(n), SumIndex(n));
  }

  lemma QuotientOfProduct(n: real, m: real, x: real)
    requires n > 0.0 && x == n * (n - 1.0) / 2.0 && m == (n - 1.0) / 2.0
    ensures x / n == m
  {
    assert x == n * m;
  }

  lemma SignOfProduct(a: real, b: real)
    requires a > 0.0
    ensures (b >= 0.0 ==> a * b >= 0.0) && (b > 0.0 ==> a * b > 0.0) && (b <= 0.0 ==> a * b <= 0.0)
  {
  }

  lemma SignOfQuotient(num: real, den: real, n: real)
    requires den > 0.0 && n > 0.0
    ensures num / den > 0.0 <==> n * num > 0.0
  {
    var q := num / den;
    assert den * q == num;
    SignOfProduct(den, q);
    SignOfProduct(n, num);
  }

  /** With two samples or more the sign of the quotient is that of the pair sum. */
  lemma QuotientIsVerdict(y: seq<real>, average: real)
    requires |y| >= 2
    ensures var den := Denominator(MidIndex(|y|), |y|);
            den > 0.0 && (Rising(y) <==> TrendNumerator(y, average) / den > 0.0)
  {
    DenominatorPositive(|y|);
    NumeratorIsPairSum(y, average);
    SignOfQuotient(TrendNumerator(y, average), Denominator(MidIndex(|y|), |y|), |y| as real);
  }

  /** The second loop of GetTrands: the samples are read backwards. */
  method TrendSums(data: seq<real>, average: real, datalenaver: real) returns (numerator: real, denominator: real)
    ensures numerator == Numerator(Chronological(data), average, datalenaver, |data|)
    ensures denominator == Denominator(datalenaver, |data|)
  {
    numerator, denominator := 0.0, 0.0;
    ghost var y := Chronological(data);
    for i := 0 to |data|
      invariant numerator == Numerator(y, average, datalenaver, i)
      invariant denominator == Denominator(datalenaver, i)
    {
      assert y[i] == data[|data| - i - 1];
      numerator := numerator + (data[|data| - i - 1] - average) * (i as real - datalenaver);
      denominator := denominator + (i as real - datalenaver) * (i as real - datalenaver);
    }
  }

  /** GetTrands. With fewer than two samples Go divides 0 by 0, and NaN is not above zero. */
  method GetTrands(data: seq<real>, average: real) returns (up: bool)
    ensures up <==> Rising(Chronological(data))
  {
    var n := |data|;
    var datalenaver := 0.0;
    for i := 0 to n
      invariant datalenaver == SumIndex(i)
    {
      datalenaver := datalenaver + i as real;
    }
    if n < 2 {
      return false;
    }
    MeanIndex(n);
    datalenaver := datalenaver / n as real;
    var numerator, denominator := TrendSums(data, average, datalenaver);
    QuotientIsVerdict(Chronological(data), average);
    up := numerator / denominator > 0.0;
  }

  ghost predicate NonDecreasing(y: seq<real>) { forall i, j :: 0 <= i < j < |y| ==> y[i] <= y[j] }
  ghost predicate NonIncreasing(y: seq<real>) { forall i, j :: 0 <= i < j < |y| ==> y[i] >= y[j] }

  lemma {:induction false} PairsWithAbove(y: seq<real>, j: nat, k: nat)
    requires k <= j < |y| && forall i :: 0 <= i < k ==> y[i] <= y[j]
    ensures PairsWith(y, j, k) >= 0.0
    ensures k > 0 && y[0] < y[j] ==> PairsWith(y, j, k) > 0.0
  {
    if k != 0 {
      PairsWithAbove(y, j, k - 1);
      PairTermSign(y, j, k);
    }
  }

  lemma {:induction false} PairsWithBelow(y: seq<real>, j: nat, k: nat)
    requires k <= j < |y| && forall i :: 0 <= i < k ==> y[i] >= y[j]
    ensures PairsWith(y, j, k) <= 0.0
  {
    if k != 0 {
      PairsWithBelow(y, j, k - 1);
      PairTermSign(y, j, k);
    }
  }

  /** What the last sample before j adds has the sign of its rise to y[j]. */
  lemma PairTermSign(y: seq<real>, j: nat, k: nat)
    requires 0 < k <= j < |y|
    ensures var p, q := PairsWith(y, j, k - 1), PairsWith(y, j, k);
            (y[k - 1] <= y[j] ==> q >= p) && (y[k - 1] < y[j] ==> q > p) && (y[k - 1] >= y[j] ==> q <= p)
    ensures PairsWith(y, j, 0) == 0.0
  {
    SignOfProduct(j as real - (k - 1) as real, y[j] - y[k - 1]);
  }

  lemma {:induction false} PairsSign(y: seq<real>, k: nat)
    requires k <= |y|
    ensures NonDecreasing(y) ==> Pairs(y, k) >= 0.0
    ensures NonDecreasing(y) && k > 0 && y[0] < y[k - 1] ==> Pairs(y, k) > 0.0
    ensures NonIncreasing(y) ==> Pairs(y, k) <= 0.0
  {
    if k != 0 {
      PairsSign(y, k - 1);
      if NonDecreasing(y) { PairsWithAbove(y, k - 1, k - 1); }
      if NonIncreasing(y) { PairsWithBelow(y, k - 1, k - 1); }
    }
  }

  /** Samples that never fall and do not all agree are judged rising; samples that never rise are not. */
  lemma MonotoneVerdict(y: seq<real>)
    ensures NonDecreasing(y) && (exists i, j :: 0 <= i < j < |y| && y[i] != y[j]) ==> Rising(y)
    ensures NonIncreasing(y) ==> !Rising(y)
  {
    PairsSign(y, |y|);
    if NonDecreasing(y) && exists i, j :: 0 <= i < j < |y| && y[i] != y[j] {
      var i, j :| 0 <= i < j < |y| && y[i] != y[j];
      assert y[0] <= y[i] && y[j] <= y[|y| - 1];
    }
  }

  // ----- reversal

  /** The sums of a series of n samples and of its reversal. */
  ghost predicate ReversedForm(n: nat, t: Sums, t': Sums) { t'.s == t.s && t'.w == (n as real - 1.0) * t.s - t.w }

  lemma {:induction false} ReversedSums(data: seq<real>)
    ensures ReversedForm(|data|, SumsOf(data, |data|), SumsOf(Chronological(data), |data|))
  {
    if data != [] {
      var rest, y, n := data[1..], Chronological(data), |data|;
      ReversedSums(rest);
      PrefixSums(Chronological(rest), y, n - 1);
      ShiftedSums(data, n);
      ReversalStep(n - 1, SumsOf(rest, n - 1), SumsOf(y, n - 1), SumsOf(data, n), data[0]);
    }
  }

  /** `u` are the sums of a sample put in front of samples whose sums are `t`. */
  ghost predicate Shifted(t: Sums, u: Sums, v: real) { u.s == v + t.s && u.w == t.w + t.s }

  lemma ReversalStep(i: nat, t: Sums, t': Sums, u: Sums, v: real)
    requires Shifted(t, u, v)
    ensures ReversedForm(i, t, t') ==> ReversedForm(i + 1, u, Push(t', i as real, v))
  {
    assert i as real * (v + t.s) == i as real * v + i as real * t.s;
  }

  /** Sums over a prefix only see the prefix. */
  lemma {:induction false} PrefixSums(a: seq<real>, b: seq<real>, k: nat)
    requires k <= |a| && k <= |b| && a[..k] == b[..k]
    ensures SumsOf(a, k) == SumsOf(b, k)
  {
    if k != 0 {
      assert a[k - 1] == a[..k][k - 1] == b[..k][k - 1] == b[k - 1];
      assert a[..k - 1] == a[..k][..k - 1] == b[..k][..k - 1] == b[..k - 1];
      PrefixSums(a, b, k - 1);
    }
  }

  lemma {:induction false} ShiftedSums(data: seq<real>, k: nat)
    requires 0 < k <= |data|
    ensures Shifted(SumsOf(data[1..], k - 1), SumsOf(data, k), data[0])
  {
    if k > 1 {
      ShiftedSums(data, k - 1);
      assert data[1..][k - 2] == data[k - 1];
      ShiftStep(SumsOf(data[1..], k - 2), SumsOf(data, k - 1), data[0], k - 2, data[k - 1]);
    }
  }

  lemma ShiftStep(t: Sums, u: Sums, v: real, i: nat, z: real)
    ensures Shifted(t, u, v) ==> Shifted(Push(t, i as real, z), Push(u, (i + 1) as real, z), v)
  {
  }

  /** Reading a series backwards negates its pair sum, so a series and its reversal are never both rising. */
  lemma ReversalNegates(y: seq<real>)
    ensures Pairs(Chronological(y), |y|) == -Pairs(y, |y|)
    ensures !(Rising(y) && Rising(Chronological(y)))
  {
    var n, back := |y|, Chronological(y);
    ReversedSums(y);
    PairsClosed(y, n);
    PairsClosed(back, n);
    IndexClosed(y, n);
    IndexClosed(back, n);
    NegationStep(Pairs(y, n), Pairs(back, n), n, SumsOf(y, n), SumsOf(back, n));
  }

  lemma NegationStep(p: real, p': real, n: nat, t: Sums, t': Sums)
    ensures IndexForm(n, t) && IndexForm(n, t') && PairsForm(p, n, t) && PairsForm(p', n, t') && ReversedForm(n, t, t')
        ==> p' == -p
  {
    if IndexForm(n, t) {
      assert n as real * ((n as real - 1.0) * t.s) == n as real * (n as real - 1.0) * t.s == 2.0 * t.x * t.s;
    }
  }

  // ----- numerator over denominator is the least-squares slope

  /** The squared residual of the line with the given intercept and slope. */
  ghost function Residual(y: seq<real>, a: real, b: real, k: nat): real
    requires k <= |y|
  {
    if k == 0 then 0.0
    else Residual(y, a, b, k - 1) + SquaredError(y[k - 1], a, b, (k - 1) as real)
  }

  ghost function SquaredError(v: real, a: real, b: real, i: real): real { (v - a - b * i) * (v - a - b * i) }

  ghost function ResidualValue(a: real, b: real, n: nat, t: Sums): real {
    t.c - 2.0 * a * t.s - 2.0 * b * t.w + n as real * a * a + 2.0 * a * b * t.x + b * b * t.q
  }

  ghost predicate ResidualForm(e: real, a: real, b: real, n: nat, t: Sums) { e == ResidualValue(a, b, n, t) }

  lemma ResidualStep(e: real, a: real, b: real, n: nat, t: Sums, v: real)
    ensures ResidualForm(e, a, b, n, t)
        ==> ResidualForm(e + SquaredError(v, a, b, n as real), a, b, n + 1, Push(t, n as real, v))
  {
  }

  lemma {:induction false} ResidualExpanded(y: seq<real>, a: real, b: real, k: nat)
    requires k <= |y|
    ensures ResidualForm(Residual(y, a, b, k), a, b, k, SumsOf(y, k))
  {
    if k != 0 {
      ResidualExpanded(y, a, b, k - 1);
      ResidualStep(Residual(y, a, b, k - 1), a, b, k - 1, SumsOf(y, k - 1), y[k - 1]);
    }
  }

  /** The slope the code computes, and the intercept that goes with it. */
  ghost function Slope(y: seq<real>): real
    requires |y| >= 2
  {
    DenominatorPositive(|y|);
    TrendNumerator(y, 0.0) / Denominator(MidIndex(|y|), |y|)
  }

  ghost function Mean(y: seq<real>): real
    requires |y| >= 2
  { SumsOf(y, |y|).s / |y| as real }

  ghost function Intercept(y: seq<real>): real
    requires |y| >= 2
  { Mean(y) - Slope(y) * MidIndex(|y|) }

  /** The sums of a series in terms of its means and its slope. */
  ghost function MomentSums(n: nat, mid: real, den: real, mean: real, slope: real, c: real): Sums {
    Sums(n as real * mid, den + n as real * mid * mid, n as real * mean, den * slope + mid * (n as real * mean), c)
  }

  ghost predicate Moments(n: nat, mid: real, den: real, mean: real, slope: real, t: Sums) {
    t == MomentSums(n, mid, den, mean, slope, t.c)
  }

  lemma MomentsHold(y: seq<real>)
    requires |y| >= 2
    ensures Moments(|y|, MidIndex(|y|), Denominator(MidIndex(|y|), |y|), Mean(y), Slope(y), SumsOf(y, |y|))
  {
    var n := |y|;
    TrendNumeratorClosed(y, 0.0);
    DenominatorPositive(n);
    DenominatorPrefix(y, MidIndex(n), n);
    IndexClosed(y, n);
    MomentsStep(n, MidIndex(n), Denominator(MidIndex(n), n), TrendNumerator(y, 0.0), SumsOf(y, n));
  }

  lemma MomentsStep(n: nat, mid: real, den: real, num: real, t: Sums)
    requires n > 0 && den > 0.0 && mid == (n as real - 1.0) / 2.0 && num == t.w - mid * t.s && IndexForm(n, t)
    requires DenominatorForm(den, mid, n, t)
    ensures Moments(n, mid, den, t.s / n as real, num / den, t)
  {
    var r := n as real;
    assert den * (num / den) == num && r * (t.s / r) == t.s;
    assert t.x == r * mid;
    assert mid * t.x == r * mid * mid;
  }

  /** The residual of a line as a constant plus its offset and its tilt, squared. */
  ghost function GapValue(c: real, r: real, den: real, mean: real, slope: real, offset: real, tilt: real): real {
    c + r * offset * offset + den * tilt * tilt - r * mean * mean - den * slope * slope
  }

  lemma CompleteSquare(a: real, b: real, n: nat, mid: real, den: real, mean: real, slope: real, c: real)
    ensures ResidualValue(a, b, n, MomentSums(n, mid, den, mean, slope, c))
         == GapValue(c, n as real, den, mean, slope, a + b * mid - mean, b - slope)
  {
  }

  ghost predicate GapIs(e: real, e0: real, r: real, den: real, offset: real, tilt: real) {
    e - e0 == r * offset * offset + den * tilt * tilt
  }

  lemma GapDifference(c: real, r: real, den: real, mean: real, slope: real, offset: real, tilt: real)
    ensures GapIs(GapValue(c, r, den, mean, slope, offset, tilt), GapValue(c, r, den, mean, slope, 0.0, 0.0), r, den,
        offset, tilt)
  {
  }

  lemma GapSign(e: real, e0: real, r: real, den: real, offset: real, tilt: real)
    requires r > 0.0 && den > 0.0
    ensures GapIs(e, e0, r, den, offset, tilt) ==> e0 <= e && (e0 == e ==> offset == 0.0 && tilt == 0.0)
  {
    WeightedSquare(r, offset);
    WeightedSquare(den, tilt);
  }

  /** Completing the square: how far any line's residual lies above that of the line through the means. */
  lemma ResidualGap(y: seq<real>, mid: real, den: real, mean: real, slope: real, best: real, a: real, b: real)
    requires Moments(|y|, mid, den, mean, slope, SumsOf(y, |y|)) && best == mean - slope * mid
    ensures GapIs(Residual(y, a, b, |y|), Residual(y, best, slope, |y|), |y| as real, den,
                  a + b * mid - mean, b - slope)
  {
    var n, t := |y|, SumsOf(y, |y|);
    ResidualExpanded(y, a, b, n);
    ResidualExpanded(y, best, slope, n);
    GapBetween(Residual(y, a, b, n), Residual(y, best, slope, n), n, mid, den, mean, slope, best, a, b, t);
  }

  lemma GapBetween(e: real, e0: real, n: nat, mid: real, den: real, mean: real, slope: real, best: real, a: real,
      b: real, t: Sums)
    requires Moments(n, mid, den, mean, slope, t) && best == mean - slope * mid
    requires ResidualForm(e, a, b, n, t) && ResidualForm(e0, best, slope, n, t)
    ensures GapIs(e, e0, n as real, den, a + b * mid - mean, b - slope)
  {
    CompleteSquare(a, b, n, mid, den, mean, slope, t.c);
    CompleteSquare(best, slope, n, mid, den, mean, slope, t.c);
    assert best + slope * mid - mean == 0.0;
    GapDifference(t.c, n as real, den, mean, slope, a + b * mid - mean, b - slope);
  }

  /** The line with this intercept and slope fits at least as well as the other, and equally well only if it is the
      other. */
  ghost predicate UniquelyBest(y: seq<real>, best: real, slope: real, a: real, b: real) {
    && Residual(y, best, slope, |y|) <= Residual(y, a, b, |y|)
    && (Residual(y, best, slope, |y|) == Residual(y, a, b, |y|) ==> a == best && b == slope)
  }

  lemma BestFromGap(e: real, e0: real, r: real, den: real, mid: real, mean: real, slope: real, best: real, a: real,
      b: real)
    requires r > 0.0 && den > 0.0 && best == mean - slope * mid
    ensures GapIs(e, e0, r, den, a + b * mid - mean, b - slope) ==> e0 <= e && (e0 == e ==> a == best && b == slope)
  {
    GapSign(e, e0, r, den, a + b * mid - mean, b - slope);
  }

  lemma BestLine(y: seq<real>, mid: real, den: real, mean: real, slope: real, best: real, a: real, b: real)
    requires |y| > 0 && den > 0.0 && Moments(|y|, mid, den, mean, slope, SumsOf(y, |y|)) && best == mean - slope * mid
    ensures UniquelyBest(y, best, slope, a, b)
  {
    ResidualGap(y, mid, den, mean, slope, best, a, b);
    BestFromGap(Residual(y, a, b, |y|), Residual(y, best, slope, |y|), |y| as real, den, mid, mean, slope, best, a, b);
  }

  /** No line fits better than the one with slope numerator/denominator, and only that line fits as well. */
  lemma LeastSquares(y: seq<real>, a: real, b: real)
    requires |y| >= 2
    ensures UniquelyBest(y, Intercept(y), Slope(y), a, b)
  {
    MomentsHold(y);
    DenominatorPositive(|y|);
    BestLine(y, MidIndex(|y|), Denominator(MidIndex(|y|), |y|), Mean(y), Slope(y), Intercept(y), a, b);
  }

  lemma WeightedSquare(weight: real, x: real)
    requires weight > 0.0
    ensures weight * x * x >= 0.0 && (weight * x * x == 0.0 ==> x == 0.0)
  {
    if x > 0.0 {
      PositiveProduct(weight, x);
      PositiveProduct(weight * x, x);
    } else if x < 0.0 {
      PositiveProduct(weight, -x);
      PositiveProduct(weight * -x, -x);
      assert weight * x * x == weight * -x * -x;
    }
  }

  lemma PositiveProduct(a: real, b: real)
    requires a > 0.0 && b > 0.0
    ensures a * b > 0.0
  {
  }

  /** The verdict is the sign of the least-squares slope. */
  lemma RisingIsPositiveSlope(y: seq<real>)
    requires |y| >= 2
    ensures Rising(y) <==> Slope(y) > 0.0
  {
    QuotientIsVerdict(y, 0.0);
  }
}
