/** analyzer/analysis.go, the mean and dispersion loops of GetNodeMetric, GetGPUMetrics and GetPodMetric.
    Go's `^` is exclusive or, so `(x - mean) ^ 2` does not square; int64 sums are taken not to overflow. */
module Dispersion {

  // ----- exclusive or on two's complement numbers of any width

  /** Bit by bit from the lowest; -1 is all ones and 0 all zeros from some bit on. */
  function Xor(a: int, b: int): int
    decreases (if a < 0 then -a else a) + (if b < 0 then -b else b)
  {
    if (a == 0 || a == -1) && (b == 0 || b == -1) then (if a == b then 0 else -1)
    else 2 * Xor(a / 2, b / 2) + (if a % 2 == b % 2 then 0 else 1)
  }

  lemma {:induction false} XorZero(a: int)
    ensures Xor(a, 0) == a
    decreases if a < 0 then -a else a
  {
    if a != 0 && a != -1 { XorZero(a / 2); }
  }

  /** Exclusive or with 2 flips bit 1: it adds 2 or takes 2 away, for negative numbers as well. */
  lemma XorTwo(a: int)
    ensures Xor(a, 2) == if a % 4 < 2 then a + 2 else a - 2
  {
    var h := a / 2;
    assert Xor(a, 2) == 2 * Xor(h, 1) + a % 2;
    if h == 0 || h == -1 {
      assert Xor(0, 0) == 0 && Xor(-1, 0) == -1;
    }
    assert Xor(h, 1) == 2 * Xor(h / 2, 0) + (1 - h % 2);
    XorZero(h / 2);
  }

  /** The written expression is never the square that the name StDev asks for. */
  lemma NeverTheSquare(d: int)
    ensures Xor(d, 2) != d * d
  {
    XorTwo(d);
    SquareMisses(d);
  }

  lemma SquareMisses(d: int)
    ensures d * d != d - 2
    ensures d % 4 < 2 ==> d * d != d + 2
  {
  }

  // ----- one metric

  /** Go's integer division truncates toward zero. */
  function Truncated(a: int, n: int): int
    requires n > 0
  {
    if a >= 0 then a / n else -((-a) / n)
  }

  function Sum(xs: seq<int>): int {
    if xs == [] then 0 else Sum(xs[..|xs| - 1]) + xs[|xs| - 1]
  }

  function Mean(xs: seq<int>): int
    requires xs != []
  {
    Truncated(Sum(xs), |xs|)
  }

  /** The accumulated deviations from a given mean. */
  function Deviations(xs: seq<int>, mean: int): int {
    if xs == [] then 0 else Deviations(xs[..|xs| - 1], mean) + Xor(xs[|xs| - 1] - mean, 2)
  }

  /** What ends up in a singly accumulated StDev field. */
  function StDev(xs: seq<int>): real
    requires |xs| >= 2
  {
    Deviations(xs, Mean(xs)) as real / (|xs| - 1) as real
  }

  lemma {:induction false} DeviationsNearSum(xs: seq<int>, mean: int)
    ensures Sum(xs) - |xs| * mean - 2 * |xs| <= Deviations(xs, mean) <= Sum(xs) - |xs| * mean + 2 * |xs|
  {
    if xs != [] {
      var front, last := xs[..|xs| - 1], xs[|xs| - 1];
      DeviationsNearSum(front, mean);
      XorNear(last - mean);
      OneMoreTime(|front|, mean);
    }
  }

  lemma XorNear(a: int)
    ensures a - 2 <= Xor(a, 2) <= a + 2
  {
    XorTwo(a);
  }

  lemma OneMoreTime(n: int, m: int)
    ensures (n + 1) * m == n * m + m
  {
  }

  lemma TruncationError(a: int, n: int)
    requires n > 0
    ensures -(n - 1) <= a - n * Truncated(a, n) <= n - 1
  {
  }

  /** The quotient of a non-negative number is the largest integer not above it, and that of a negative number the
      opposite: rounding is toward zero. */
  lemma TruncatedIs(a: int, n: int)
    requires n > 0
    ensures a >= 0 ==> n * Truncated(a, n) <= a < n * Truncated(a, n) + n
    ensures a <= 0 ==> n * Truncated(a, n) - n < a <= n * Truncated(a, n)
    ensures Truncated(-a, n) == -Truncated(a, n)
  {
  }

  /** q is the quotient a / n rounded toward zero. */
  ghost predicate TowardZero(a: int, n: int, q: int) {
    && (a >= 0 ==> n * q <= a < n * q + n)
    && (a <= 0 ==> n * q - n < a <= n * q)
  }

  /** There is only one such integer. */
  lemma TowardZeroUnique(a: int, n: int, q: int)
    requires n > 0 && TowardZero(a, n, q)
    ensures q == Truncated(a, n)
  {
    var t := Truncated(a, n);
    TruncatedIs(a, n);
    if q < t {
      Scaled(n, q + 1, t);
    } else if q > t {
      Scaled(n, t + 1, q);
    }
  }

  lemma Scaled(n: int, low: int, high: int)
    requires n > 0 && low <= high
    ensures n * (low - 1) + n <= n * high
  {
    assert n * (low - 1) + n == n * low;
    assert n * (high - low) >= 0;
  }

  lemma MeanIs(xs: seq<int>)
    requires xs != []
    ensures TowardZero(Sum(xs), |xs|, Mean(xs))
  {
    TruncatedIs(Sum(xs), |xs|);
  }

  lemma {:induction false} SumConcat(xs: seq<int>, ys: seq<int>)
    ensures Sum(xs + ys) == Sum(xs) + Sum(ys)
  {
    if ys == [] {
      assert xs + ys == xs;
    } else {
      var front, last := ys[..|ys| - 1], ys[|ys| - 1];
      SumConcat(xs, front);
      assert xs + ys == (xs + front) + [last];
      SumPush(xs + front, last);
    }
  }

  /** A sample counts for the field with its deviation from the mean, 2 more or 2 less by the bit flipped. */
  lemma DeviationOf(xs: seq<int>, x: int, mean: int)
    ensures Deviations(xs + [x], mean)
         == Deviations(xs, mean) + (x - mean) + (if (x - mean) % 4 < 2 then 2 else -2)
  {
    DeviationsPush(xs, x, mean);
    XorTwo(x - mean);
  }

  /** n times q is d. */
  ghost predicate Quotient(q: real, d: real, n: real) { n * q == d }

  /** The field is the sum of these, divided by one less than the number of samples. */
  lemma StDevIs(xs: seq<int>)
    requires |xs| >= 2
    ensures Quotient(StDev(xs), Deviations(xs, Mean(xs)) as real, (|xs| - 1) as real)
  {
    Divided(Deviations(xs, Mean(xs)) as real, (|xs| - 1) as real);
  }

  lemma Divided(d: real, n: real)
    requires n > 0.0
    ensures Quotient(d / n, d, n)
  {
  }

  /** n times x lies between -bound and bound. */
  predicate Within(n: real, x: real, bound: real) { -bound <= n * x <= bound }

  lemma DeviationsBounded(xs: seq<int>)
    requires xs != []
    ensures -(3 * |xs| - 1) <= Deviations(xs, Mean(xs)) <= 3 * |xs| - 1
  {
    DeviationsNearSum(xs, Mean(xs));
    TruncationError(Sum(xs), |xs|);
  }

  /** Whatever the data, (n-1) times the field stays within 3n - 1: the spread of the samples does not reach it. */
  lemma StDevBounded(xs: seq<int>)
    requires |xs| >= 2
    ensures -(3 * |xs| - 1) <= Deviations(xs, Mean(xs)) <= 3 * |xs| - 1
    ensures Within((|xs| - 1) as real, StDev(xs), (3 * |xs| - 1) as real)
  {
    DeviationsBounded(xs);
    WithinQuotient(Deviations(xs, Mean(xs)) as real, (|xs| - 1) as real, (3 * |xs| - 1) as real);
  }

  lemma WithinQuotient(d: real, n: real, bound: real)
    requires n > 0.0 && -bound <= d <= bound
    ensures Within(n, d / n, bound)
  {
    assert n * (d / n) == d;
  }

  /** The squared deviations of 0 and 8k + 4 grow without bound, yet their field is -4 for every k. */
  lemma SpreadIsLost(k: nat)
    ensures Mean([0, 8 * k + 4]) == 4 * k + 2
    ensures StDev([0, 8 * k + 4]) == -4.0
  {
    MeanOfTwo(k);
    DeviationsCancel(k);
  }

  lemma MeanOfTwo(k: nat)
    ensures Mean([0, 8 * k + 4]) == 4 * k + 2
  {
    TwoSamples(0, 8 * k + 4, 0);
  }

  lemma DeviationsCancel(k: nat)
    ensures Deviations([0, 8 * k + 4], 4 * k + 2) == -4
  {
    var x, mean := 8 * k + 4, 4 * k + 2;
    TwoSamples(0, x, mean);
    TwoModFour(0 - mean, -1 - k);
    TwoModFour(x - mean, k);
  }

  /** The flipped bit is set. */
  lemma TwoModFour(a: int, q: int)
    requires a == 4 * q + 2
    ensures Xor(a, 2) == a - 2
  {
    RemainderTwo(a, q);
    XorTwo(a);
  }

  lemma RemainderTwo(a: int, q: int)
    requires a == 4 * q + 2
    ensures a % 4 == 2
  {
  }

  lemma TwoSamples(x: int, y: int, mean: int)
    ensures Sum([x, y]) == x + y
    ensures Deviations([x, y], mean) == Xor(x - mean, 2) + Xor(y - mean, 2)
  {
    assert [x, y] == [] + [x] + [y];
    SumPush([], x);
    SumPush([] + [x], y);
    DeviationsPush([], x, mean);
    DeviationsPush([] + [x], y, mean);
  }

  lemma SumPush(xs: seq<int>, x: int)
    ensures Sum(xs + [x]) == Sum(xs) + x
  {
    assert (xs + [x])[..|xs|] == xs;
  }

  lemma DeviationsPush(xs: seq<int>, x: int, mean: int)
    ensures Deviations(xs + [x], mean) == Deviations(xs, mean) + Xor(x - mean, 2)
  {
    assert (xs + [x])[..|xs|] == xs;
  }

  /** The two loops for one integer metric of GetGPUMetrics or GetPodMetric, each with its own StDev field. */
  method MetricStatistics(xs: seq<int>, countNumber: nat) returns (aver: int, stDev: real)
    requires |xs| == countNumber && countNumber >= 2
    ensures aver == Mean(xs) && stDev == StDev(xs)
    ensures TowardZero(Sum(xs), countNumber, aver)
    ensures Quotient(stDev, Deviations(xs, aver) as real, (countNumber - 1) as real)
    ensures Within((countNumber - 1) as real, stDev, (3 * countNumber - 1) as real)
  {
    aver := 0;
    for i := 0 to |xs|
      invariant aver == Sum(xs[..i])
    {
      assert xs[..i + 1] == xs[..i] + [xs[i]];
      SumPush(xs[..i], xs[i]);
      aver := xs[i] + aver;
    }
    assert xs[..|xs|] == xs;
    aver := Truncated(aver, countNumber);
    stDev := AddDeviations(xs, aver);
    stDev := stDev / (countNumber as real - 1.0);
    StDevBounded(xs);
    StDevIs(xs);
    MeanIs(xs);
  }

  method AddDeviations(xs: seq<int>, aver: int) returns (stDev: real)
    ensures stDev == Deviations(xs, aver) as real
  {
    stDev := 0.0;
    for i := 0 to |xs|
      invariant stDev == Deviations(xs[..i], aver) as real
    {
      assert xs[..i + 1] == xs[..i] + [xs[i]];
      DeviationsPush(xs[..i], xs[i], aver);
      stDev := stDev + Xor(xs[i] - aver, 2) as real;
    }
    assert xs[..|xs|] == xs;
  }

  // ----- the node query: five metrics in one pass, with the storage deviations added to the TX field

  datatype NodeSample = NodeSample(cpu: int, memory: int, tx: int, rx: int, storage: int)

  datatype NodeMetric = NodeMetric(
    averCpu: int, averMemory: int, averStorage: int, averRx: int, averTx: int,
    stDevCpu: real, stDevMemory: real, stDevStorage: real, stDevRx: real, stDevTx: real)

  function Cpu(s: seq<NodeSample>): (r: seq<int>)
    ensures |r| == |s|
  {
    if s == [] then [] else Cpu(s[..|s| - 1]) + [s[|s| - 1].cpu]
  }
  function Memory(s: seq<NodeSample>): (r: seq<int>)
    ensures |r| == |s|
  {
    if s == [] then [] else Memory(s[..|s| - 1]) + [s[|s| - 1].memory]
  }
  function Tx(s: seq<NodeSample>): (r: seq<int>)
    ensures |r| == |s|
  {
    if s == [] then [] else Tx(s[..|s| - 1]) + [s[|s| - 1].tx]
  }
  function Rx(s: seq<NodeSample>): (r: seq<int>)
    ensures |r| == |s|
  {
    if s == [] then [] else Rx(s[..|s| - 1]) + [s[|s| - 1].rx]
  }
  function Storage(s: seq<NodeSample>): (r: seq<int>)
    ensures |r| == |s|
  {
    if s == [] then [] else Storage(s[..|s| - 1]) + [s[|s| - 1].storage]
  }

  /** Row i of each column is the sample's value of that name. */
  lemma {:induction false} ColumnsAre(s: seq<NodeSample>, i: nat)
    requires i < |s|
    ensures Cpu(s)[i] == s[i].cpu && Memory(s)[i] == s[i].memory && Storage(s)[i] == s[i].storage
    ensures Tx(s)[i] == s[i].tx && Rx(s)[i] == s[i].rx
  {
    if i < |s| - 1 { ColumnsAre(s[..|s| - 1], i); }
  }

  /** What the accumulating loops have summed after the samples seen so far. */
  lemma SumsStep(s: seq<NodeSample>, i: nat)
    requires i < |s|
    ensures Sum(Cpu(s[..i + 1])) == Sum(Cpu(s[..i])) + s[i].cpu
    ensures Sum(Memory(s[..i + 1])) == Sum(Memory(s[..i])) + s[i].memory
    ensures Sum(Tx(s[..i + 1])) == Sum(Tx(s[..i])) + s[i].tx
    ensures Sum(Rx(s[..i + 1])) == Sum(Rx(s[..i])) + s[i].rx
    ensures Sum(Storage(s[..i + 1])) == Sum(Storage(s[..i])) + s[i].storage
  {
    assert s[..i + 1][..i] == s[..i];
  }

  lemma ColumnsStep(s: seq<NodeSample>, i: nat)
    requires i < |s|
    ensures Cpu(s[..i + 1]) == Cpu(s[..i]) + [s[i].cpu] && Memory(s[..i + 1]) == Memory(s[..i]) + [s[i].memory]
    ensures Tx(s[..i + 1]) == Tx(s[..i]) + [s[i].tx] && Rx(s[..i + 1]) == Rx(s[..i]) + [s[i].rx]
    ensures Storage(s[..i + 1]) == Storage(s[..i]) + [s[i].storage]
  {
    assert s[..i + 1][..i] == s[..i];
  }

  lemma DeviationsStep(s: seq<NodeSample>, i: nat, m: NodeMetric)
    requires i < |s|
    ensures Deviations(Cpu(s[..i + 1]), m.averCpu) == Deviations(Cpu(s[..i]), m.averCpu) + Xor(s[i].cpu - m.averCpu, 2)
    ensures Deviations(Memory(s[..i + 1]), m.averMemory)
        == Deviations(Memory(s[..i]), m.averMemory) + Xor(s[i].memory - m.averMemory, 2)
    ensures Deviations(Tx(s[..i + 1]), m.averTx) == Deviations(Tx(s[..i]), m.averTx) + Xor(s[i].tx - m.averTx, 2)
    ensures Deviations(Rx(s[..i + 1]), m.averRx) == Deviations(Rx(s[..i]), m.averRx) + Xor(s[i].rx - m.averRx, 2)
    ensures Deviations(Storage(s[..i + 1]), m.averStorage)
        == Deviations(Storage(s[..i]), m.averStorage) + Xor(s[i].storage - m.averStorage, 2)
  {
    ColumnsStep(s, i);
    DeviationsPush(Cpu(s[..i]), s[i].cpu, m.averCpu);
    DeviationsPush(Memory(s[..i]), s[i].memory, m.averMemory);
    DeviationsPush(Tx(s[..i]), s[i].tx, m.averTx);
    DeviationsPush(Rx(s[..i]), s[i].rx, m.averRx);
    DeviationsPush(Storage(s[..i]), s[i].storage, m.averStorage);
  }

  /** Each mean is that of its own column, rounded toward zero. */
  ghost predicate MeansOf(samples: seq<NodeSample>, m: NodeMetric) {
    && TowardZero(Sum(Cpu(samples)), |samples|, m.averCpu) && TowardZero(Sum(Memory(samples)), |samples|, m.averMemory)
    && TowardZero(Sum(Tx(samples)), |samples|, m.averTx) && TowardZero(Sum(Rx(samples)), |samples|, m.averRx)
    && TowardZero(Sum(Storage(samples)), |samples|, m.averStorage)
  }

  lemma MeansAre(samples: seq<NodeSample>, m: NodeMetric)
    requires samples != []
    requires m.averCpu == Mean(Cpu(samples)) && m.averMemory == Mean(Memory(samples)) && m.averTx == Mean(Tx(samples))
    requires m.averRx == Mean(Rx(samples)) && m.averStorage == Mean(Storage(samples))
    ensures MeansOf(samples, m)
  {
    MeanIs(Cpu(samples));
    MeanIs(Memory(samples));
    MeanIs(Tx(samples));
    MeanIs(Rx(samples));
    MeanIs(Storage(samples));
  }

  /** The first loop of GetNodeMetric, once the query has returned exactly `countNumber` rows: five sums in one pass. */
  method NodeSums(samples: seq<NodeSample>) returns (m: NodeMetric)
    ensures m == NodeMetric(Sum(Cpu(samples)), Sum(Memory(samples)), Sum(Storage(samples)), Sum(Rx(samples)),
        Sum(Tx(samples)),
                            0.0, 0.0, 0.0, 0.0, 0.0)
  {
    m := NodeMetric(0, 0, 0, 0, 0, 0.0, 0.0, 0.0, 0.0, 0.0);
    for i := 0 to |samples|
      invariant m == NodeMetric(Sum(Cpu(samples[..i])), Sum(Memory(samples[..i])), Sum(Storage(samples[..i])),
                                Sum(Rx(samples[..i])), Sum(Tx(samples[..i])), 0.0, 0.0, 0.0, 0.0, 0.0)
    {
      var row := samples[i];
      SumsStep(samples, i);
      m := m.(averCpu := m.averCpu + row.cpu, averMemory := m.averMemory + row.memory, averRx := m.averRx + row.rx,
              averTx := m.averTx + row.tx, averStorage := m.averStorage + row.storage);
    }
    assert samples[..|samples|] == samples;
  }

  /** The sums, divided: the five means. */
  method NodeMeans(samples: seq<NodeSample>, countNumber: nat) returns (m: NodeMetric)
    requires |samples| == countNumber && countNumber >= 2
    ensures m == NodeMetric(Mean(Cpu(samples)), Mean(Memory(samples)), Mean(Storage(samples)), Mean(Rx(samples)),
        Mean(Tx(samples)),
                            0.0, 0.0, 0.0, 0.0, 0.0)
    ensures MeansOf(samples, m)
  {
    m := NodeSums(samples);
    m := m.(averCpu := Truncated(m.averCpu, countNumber), averMemory := Truncated(m.averMemory, countNumber),
            averRx := Truncated(m.averRx, countNumber), averTx := Truncated(m.averTx, countNumber),
            averStorage := Truncated(m.averStorage, countNumber));
    MeansAre(samples, m);
  }

  /** The second loop: the deviations, undivided. The storage deviations are added to the TX field. */
  method NodeDeviations(samples: seq<NodeSample>, means: NodeMetric) returns (m: NodeMetric)
    requires means.stDevCpu == means.stDevMemory == means.stDevRx == means.stDevTx == 0.0
    ensures m == means.(
      stDevCpu := Deviations(Cpu(samples), means.averCpu) as real,
      stDevMemory := Deviations(Memory(samples), means.averMemory) as real,
      stDevRx := Deviations(Rx(samples), means.averRx) as real,
      stDevTx := Deviations(Tx(samples), means.averTx) as real
          + Deviations(Storage(samples), means.averStorage) as real)
  {
    m := means;
    for i := 0 to |samples|
      invariant m == means.(
        stDevCpu := Deviations(Cpu(samples[..i]), means.averCpu) as real,
        stDevMemory := Deviations(Memory(samples[..i]), means.averMemory) as real,
        stDevRx := Deviations(Rx(samples[..i]), means.averRx) as real,
        stDevTx := Deviations(Tx(samples[..i]), means.averTx) as real
            + Deviations(Storage(samples[..i]), means.averStorage) as real)
    {
      var row := samples[i];
      DeviationsStep(samples, i, means);
      m := m.(stDevCpu := m.stDevCpu + Xor(row.cpu - m.averCpu, 2) as real);
      m := m.(stDevMemory := m.stDevMemory + Xor(row.memory - m.averMemory, 2) as real);
      m := m.(stDevRx := m.stDevRx + Xor(row.rx - m.averRx, 2) as real);
      m := m.(stDevTx := m.stDevTx + Xor(row.tx - m.averTx, 2) as real);
      m := m.(stDevTx := m.stDevTx + Xor(row.storage - m.averStorage, 2) as real);
    }
    assert samples[..|samples|] == samples;
  }

  method NodeStatistics(samples: seq<NodeSample>, countNumber: nat) returns (m: NodeMetric)
    requires |samples| == countNumber && countNumber >= 2
    ensures m == NodeMetric(
      Mean(Cpu(samples)), Mean(Memory(samples)), Mean(Storage(samples)), Mean(Rx(samples)), Mean(Tx(samples)),
      StDev(Cpu(samples)), StDev(Memory(samples)), 0.0, StDev(Rx(samples)), StDev(Tx(samples))
          + StDev(Storage(samples)))
    ensures MeansOf(samples, m)
  {
    var means := NodeMeans(samples, countNumber);
    m := NodeDeviations(samples, means);
    var d := countNumber as real - 1.0;
    assert d == (|samples| - 1) as real;
    QuotientOfSum(Deviations(Tx(samples), means.averTx) as real,
        Deviations(Storage(samples), means.averStorage) as real, d);
    m := m.(stDevCpu := m.stDevCpu / d, stDevMemory := m.stDevMemory / d, stDevRx := m.stDevRx / d,
            stDevTx := m.stDevTx / d, stDevStorage := m.stDevStorage / d);
  }

  lemma QuotientOfSum(a: real, b: real, d: real)
    requires d > 0.0
    ensures (a + b) / d == a / d + b / d
  {
  }

  /** Two fields of n samples each, added up, stay within twice the bound of one. */
  ghost predicate SumWithin(xs: seq<int>, ys: seq<int>)
    requires |xs| >= 2 && |ys| >= 2
  {
    Within((|xs| - 1) as real, StDev(xs) + StDev(ys), 2.0 * (3 * |xs| - 1) as real)
  }

  /** So does the node's TX field. */
  lemma NodeTxBounded(samples: seq<NodeSample>)
    requires |samples| >= 2
    ensures SumWithin(Tx(samples), Storage(samples))
  {
    BothBounded(Tx(samples), Storage(samples));
  }

  lemma BothBounded(xs: seq<int>, ys: seq<int>)
    requires |xs| == |ys| >= 2
    ensures SumWithin(xs, ys)
  {
    StDevBounded(xs);
    StDevBounded(ys);
    BothWithin((|xs| - 1) as real, StDev(xs), StDev(ys), (3 * |xs| - 1) as real);
  }

  lemma BothWithin(n: real, a: real, b: real, bound: real)
    requires Within(n, a, bound) && Within(n, b, bound)
    ensures Within(n, a + b, 2.0 * bound)
  {
  }
}
