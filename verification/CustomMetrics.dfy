/** customMetrics/customMetrics.go: network counters turned into differences, one previous reading and one last
    difference per pod and direction, kept in four maps for the life of the process. */
module CustomMetrics {
  import opened Wrappers

  /** A map lookup in Go: a missing key reads as zero. */
  function Get(m: map<string, int>, k: string): int { if k in m then m[k] else 0 }

  datatype Reading = Reading(name: string, rx: int, tx: int)
  datatype Counters = Counters(prevRx: map<string, int>, prevTx: map<string, int>, diffRx: map<string, int>,
      diffTx: map<string, int>)

  /** The difference reported for a reading: 0 for the first, the last one again for an unchanged or zero reading. */
  function Difference(prev: int, diff: int, reading: int): int {
    if prev == 0 then 0 else if reading == 0 || reading - prev == 0 then diff else reading - prev
  }

  /** The update one would write down: both directions, this pod only. */
  function Recorded(c: Counters, r: Reading): Counters {
    Counters(c.prevRx[r.name := r.rx], c.prevTx[r.name := r.tx],
             c.diffRx[r.name := Difference(Get(c.prevRx, r.name), Get(c.diffRx, r.name), r.rx)],
             c.diffTx[r.name := Difference(Get(c.prevTx, r.name), Get(c.diffTx, r.name), r.tx)])
  }

  ghost predicate SameKeys(c: Counters) {
    c.prevRx.Keys == c.prevTx.Keys == c.diffRx.Keys == c.diffTx.Keys
  }

  /** The four initialisers, all of which write the RX map. */
  function Initialised(c: Counters, name: string): Counters {
    var c1 := if name !in c.prevRx then c.(prevRx := c.prevRx[name := 0]) else c;
    var c2 := if name !in c1.prevTx then c1.(prevRx := c1.prevRx[name := 0]) else c1;
    var c3 := if name !in c2.diffRx then c2.(prevRx := c2.prevRx[name := 0]) else c2;
    if name !in c3.diffTx then c3.(prevRx := c3.prevRx[name := 0]) else c3
  }

  /** They erase no RX reading exactly when the pod is missing from no other map or its RX reading reads as zero;
      with equal key sets that is always so. */
  lemma InitialisersErase(c: Counters, name: string)
    ensures Get(Initialised(c, name).prevRx, name) == Get(c.prevRx, name)
            <==> Get(c.prevRx, name) == 0 || (name in c.prevTx && name in c.diffRx && name in c.diffTx)
    ensures SameKeys(c) ==> Get(Initialised(c, name).prevRx, name) == Get(c.prevRx, name)
  {
    if SameKeys(c) { assert name in c.prevRx ==> name in c.prevTx && name in c.diffRx && name in c.diffTx; }
  }

  class NetworkUsage {
    var prevRx: map<string, int>
    var prevTx: map<string, int>
    var diffRx: map<string, int>
    var diffTx: map<string, int>

    ghost function View(): Counters
      reads this
    {
      Counters(prevRx, prevTx, diffRx, diffTx)
    }

    /** What holds between pods. */
    ghost predicate Valid()
      reads this
    {
      SameKeys(View())
    }

    constructor ()
      ensures Valid() && View() == Counters(map[], map[], map[], map[])
    {
      prevRx, prevTx, diffRx, diffTx := map[], map[], map[], map[];
    }

    /** The body of the pod loop, for one matching pod. */
    method Record(value: Reading) returns (diffNetworkRx: int, diffNetworkTx: int)
      requires Valid()
      modifies this
      ensures Valid() && View() == Recorded(old(View()), value)
      ensures diffNetworkRx == Get(diffRx, value.name) && diffNetworkTx == Get(diffTx, value.name)
    {
      Initialise(value.name);
      diffNetworkRx := RecordRx(value);
      diffNetworkTx := RecordTx(value);
    }

    method RecordRx(value: Reading) returns (diffNetworkRx: int)
      modifies this`prevRx, this`diffRx
      ensures diffNetworkRx == Difference(Get(old(prevRx), value.name), Get(old(diffRx), value.name), value.rx)
      ensures prevRx == old(prevRx)[value.name := value.rx] && diffRx == old(diffRx)[value.name := diffNetworkRx]
    {
      diffNetworkRx := Change(Get(prevRx, value.name), Get(diffRx, value.name), value.rx);
      prevRx := prevRx[value.name := value.rx];
      diffRx := diffRx[value.name := diffNetworkRx];
    }

    method RecordTx(value: Reading) returns (diffNetworkTx: int)
      modifies this`prevTx, this`diffTx
      ensures diffNetworkTx == Difference(Get(old(prevTx), value.name), Get(old(diffTx), value.name), value.tx)
      ensures prevTx == old(prevTx)[value.name := value.tx] && diffTx == old(diffTx)[value.name := diffNetworkTx]
    {
      diffNetworkTx := Change(Get(prevTx, value.name), Get(diffTx, value.name), value.tx);
      prevTx := prevTx[value.name := value.tx];
      diffTx := diffTx[value.name := diffNetworkTx];
    }

    /** The four initialisers. Between pods the RX reading survives them. */
    method Initialise(name: string)
      requires Valid()
      modifies this`prevRx
      ensures View() == Initialised(old(View()), name)
      ensures prevRx == if name in old(prevRx) then old(prevRx) else old(prevRx)[name := 0]
    {
      if name !in prevRx { prevRx := prevRx[name := 0]; }
      if name !in prevTx { prevRx := prevRx[name := 0]; }
      if name !in diffRx { prevRx := prevRx[name := 0]; }
      if name !in diffTx { prevRx := prevRx[name := 0]; }
    }

    /** The choice of the difference, made in the same way for both directions. */
    static method Change(prev: int, lastDiff: int, reading: int) returns (diff: int)
      ensures diff == Difference(prev, lastDiff, reading)
    {
      diff := reading - prev;
      if prev == 0 {
        diff := 0;
      } else if reading == 0 || diff == 0 {
        diff := lastDiff;
      }
    }

    /** The pod loop for one replica set: named pods whose name starts with the replica set's are recorded and
        their differences summed. */
    method RecordPods(podList: seq<Reading>, replicaset: string) returns (checkExist: nat, sumRx: int, sumTx: int)
      requires Valid()
      modifies this
      ensures Valid() && View() == After(old(View()), Selected(podList, replicaset))
      ensures checkExist == |Selected(podList, replicaset)|
      ensures sumRx == TotalRx(old(View()), Selected(podList, replicaset))
      ensures sumTx == TotalTx(old(View()), Selected(podList, replicaset))
    {
      checkExist, sumRx, sumTx := 0, 0, 0;
      ghost var before := View();
      for i := 0 to |podList|
        invariant Valid() && View() == After(before, Selected(podList[..i], replicaset))
        invariant checkExist == |Selected(podList[..i], replicaset)|
        invariant sumRx == TotalRx(before, Selected(podList[..i], replicaset))
        invariant sumTx == TotalTx(before, Selected(podList[..i], replicaset))
      {
        PodStep(before, podList, replicaset, i);
        var value := podList[i];
        if value.name != "" {
          if replicaset <= value.name {
            checkExist := checkExist + 1;
            var diffNetworkRx, diffNetworkTx := Record(value);
            sumRx := sumRx + diffNetworkRx;
            sumTx := sumTx + diffNetworkTx;
          }
        }
      }
      assert podList[..|podList|] == podList;
    }

    /** One pass over all replica sets. */
    method RecordPass(podList: seq<Reading>, replicasets: seq<string>)
      requires Valid()
      modifies this
      ensures Valid() && View() == After(old(View()), SelectedByAll(podList, replicasets))
    {
      ghost var before := View();
      for i := 0 to |replicasets|
        invariant Valid() && View() == After(before, SelectedByAll(podList, replicasets[..i]))
      {
        assert replicasets[..i + 1][..i] == replicasets[..i];
        AfterConcat(before, SelectedByAll(podList, replicasets[..i]), Selected(podList, replicasets[i]));
        var checkExist, sumRx, sumTx := RecordPods(podList, replicasets[i]);
      }
      assert replicasets[..|replicasets|] == replicasets;
    }
  }

  /** One round of the pod loop. */
  lemma PodStep(c: Counters, podList: seq<Reading>, replicaset: string, i: nat)
    requires i < |podList|
    ensures var value := podList[i];
            var before, after := Selected(podList[..i], replicaset), Selected(podList[..i + 1], replicaset);
            if value.name != "" && replicaset <= value.name
            then && |after| == |before| + 1 && After(c, after) == Recorded(After(c, before), value)
                 && TotalRx(c, after) == TotalRx(c, before) + Get(Recorded(After(c, before), value).diffRx, value.name)
                 && TotalTx(c, after) == TotalTx(c, before) + Get(Recorded(After(c, before), value).diffTx, value.name)
            else after == before
  {
    SelectedStep(podList, replicaset, i);
    AfterPush(c, Selected(podList[..i], replicaset), podList[i]);
  }

  /** What one pass records: for each replica set in turn, the pods that match it. */
  function SelectedByAll(podList: seq<Reading>, replicasets: seq<string>): seq<Reading> {
    if replicasets == [] then []
    else SelectedByAll(podList, replicasets[..|replicasets| - 1]) + Selected(podList, replicasets[|replicasets| - 1])
  }

  // ----- runs of readings

  function Selected(podList: seq<Reading>, replicaset: string): seq<Reading> {
    if podList == [] then []
    else
      var last := podList[|podList| - 1];
      Selected(podList[..|podList| - 1], replicaset)
          + (if last.name != "" && replicaset <= last.name then [last] else [])
  }

  lemma SelectedStep(podList: seq<Reading>, replicaset: string, i: nat)
    requires i < |podList|
    ensures var next := podList[i]; var before := Selected(podList[..i], replicaset);
            Selected(podList[..i + 1], replicaset) == if next.name != "" && replicaset <= next.name then before + [next]
                else before
  {
    assert podList[..i + 1][..i] == podList[..i];
  }

  ghost function After(c: Counters, rs: seq<Reading>): Counters {
    if rs == [] then c else Recorded(After(c, rs[..|rs| - 1]), rs[|rs| - 1])
  }

  ghost function TotalRx(c: Counters, rs: seq<Reading>): int {
    if rs == [] then 0 else TotalRx(c, rs[..|rs| - 1]) + Get(After(c, rs).diffRx, rs[|rs| - 1].name)
  }

  ghost function TotalTx(c: Counters, rs: seq<Reading>): int {
    if rs == [] then 0 else TotalTx(c, rs[..|rs| - 1]) + Get(After(c, rs).diffTx, rs[|rs| - 1].name)
  }

  lemma AfterPush(c: Counters, rs: seq<Reading>, r: Reading)
    ensures After(c, rs + [r]) == Recorded(After(c, rs), r)
    ensures TotalRx(c, rs + [r]) == TotalRx(c, rs) + Get(After(c, rs + [r]).diffRx, r.name)
    ensures TotalTx(c, rs + [r]) == TotalTx(c, rs) + Get(After(c, rs + [r]).diffTx, r.name)
  {
    assert (rs + [r])[..|rs|] == rs;
  }

  lemma AfterLast(c: Counters, rs: seq<Reading>, r: Reading)
    ensures After(c, rs + [r]) == Recorded(After(c, rs), r)
  {
    assert (rs + [r])[..|rs|] == rs;
  }

  lemma AfterConcatNext(c: Counters, a: seq<Reading>, b: seq<Reading>, r: Reading)
    requires After(c, a + b) == After(After(c, a), b)
    ensures After(c, a + (b + [r])) == After(After(c, a), b + [r])
  {
    assert a + (b + [r]) == (a + b) + [r];
    AfterLast(c, a + b, r);
    AfterLast(After(c, a), b, r);
  }

  lemma {:induction false} AfterConcat(c: Counters, a: seq<Reading>, b: seq<Reading>)
    ensures After(c, a + b) == After(After(c, a), b)
  {
    if b == [] {
      assert a + b == a;
    } else {
      var front, last := b[..|b| - 1], b[|b| - 1];
      AfterConcat(c, a, front);
      assert b == front + [last];
      AfterConcatNext(c, a, front, last);
    }
  }

  const EMPTY := Counters(map[], map[], map[], map[])

  /** The counter of one pod and one direction on its own. */
  datatype Meter = Meter(prev: int, diff: int)

  function Next(m: Meter, reading: int): Meter { Meter(reading, Difference(m.prev, m.diff, reading)) }

  function RxMeter(c: Counters, name: string): Meter { Meter(Get(c.prevRx, name), Get(c.diffRx, name)) }
  function TxMeter(c: Counters, name: string): Meter { Meter(Get(c.prevTx, name), Get(c.diffTx, name)) }

  /** A reading moves the two meters of its own pod and no others. */
  lemma RecordedMeters(c: Counters, r: Reading, name: string)
    ensures RxMeter(Recorded(c, r), name) == if r.name == name then Next(RxMeter(c, name), r.rx) else RxMeter(c, name)
    ensures TxMeter(Recorded(c, r), name) == if r.name == name then Next(TxMeter(c, name), r.tx) else TxMeter(c, name)
    ensures SameKeys(c) ==> SameKeys(Recorded(c, r))
  {
  }

  ghost function MeterAfter(readings: seq<int>): Meter {
    if readings == [] then Meter(0, 0) else Next(MeterAfter(readings[..|readings| - 1]), readings[|readings| - 1])
  }

  lemma MeterPush(readings: seq<int>, r: int)
    ensures MeterAfter(readings + [r]) == Next(MeterAfter(readings), r)
    ensures Reported(readings + [r]) == Reported(readings) + MeterAfter(readings + [r]).diff
  {
    assert (readings + [r])[..|readings|] == readings;
  }

  ghost function RxOf(rs: seq<Reading>, name: string): seq<int> {
    if rs == [] then []
    else if rs[|rs| - 1].name == name then RxOf(rs[..|rs| - 1], name) + [rs[|rs| - 1].rx]
    else RxOf(rs[..|rs| - 1], name)
  }

  ghost function TxOf(rs: seq<Reading>, name: string): seq<int> {
    if rs == [] then []
    else if rs[|rs| - 1].name == name then TxOf(rs[..|rs| - 1], name) + [rs[|rs| - 1].tx]
    else TxOf(rs[..|rs| - 1], name)
  }

  /** After any readings of any pods: the key sets agree, and each pod's entries are those of its own two meters,
      untouched by the readings of other pods; so the previous reading is its own last one. */
  lemma {:induction false} PodsAreIndependent(rs: seq<Reading>, name: string)
    ensures SameKeys(After(EMPTY, rs))
    ensures RxMeter(After(EMPTY, rs), name) == MeterAfter(RxOf(rs, name))
    ensures TxMeter(After(EMPTY, rs), name) == MeterAfter(TxOf(rs, name))
  {
    if rs != [] {
      var front, last := rs[..|rs| - 1], rs[|rs| - 1];
      PodsAreIndependent(front, name);
      RecordedMeters(After(EMPTY, front), last, name);
      MeterPush(RxOf(front, name), last.rx);
      MeterPush(TxOf(front, name), last.tx);
    }
  }

  lemma {:induction false} PreviousIsLast(rs: seq<Reading>, name: string)
    requires RxOf(rs, name) != [] && TxOf(rs, name) != []
    ensures Get(After(EMPTY, rs).prevRx, name) == RxOf(rs, name)[|RxOf(rs, name)| - 1]
    ensures Get(After(EMPTY, rs).prevTx, name) == TxOf(rs, name)[|TxOf(rs, name)| - 1]
  {
    PodsAreIndependent(rs, name);
  }

  /** What is reported for each reading, whatever came before: a reading after a change by the last two of a run, again
      for as long as it is unchanged, and once more if it then falls to zero. */
  lemma ChangeIsReported(before: seq<int>, a: int, b: int, times: nat)
    requires a != 0 && b != 0 && a != b
    ensures var readings := before + [a] + Repeat(b, times + 1);
            MeterAfter(readings) == Meter(b, b - a) && MeterAfter(readings + [0]) == Meter(0, b - a)
  {
    MeterPush(before, a);
    MeterPush(before + [a], b);
    Unchanged(before + [a] + [b], b, b - a, times);
    RepeatsBehind(before + [a], b, times);
  }

  /** The first reading, and the first after a zero, report no difference, nor do their repetitions. */
  lemma StartReportsNothing(before: seq<int>, b: int, times: nat)
    requires before == [] || before[|before| - 1] == 0
    ensures var readings := before + Repeat(b, times + 1);
            MeterAfter(readings) == Meter(b, 0) && MeterAfter(readings + [0]) == Meter(0, 0)
  {
    assert MeterAfter(before).prev == 0;
    MeterPush(before, b);
    Unchanged(before + [b], b, 0, times);
    RepeatsBehind(before, b, times);
  }

  lemma RepeatsBehind(before: seq<int>, b: int, times: nat)
    ensures before + Repeat(b, times + 1) == before + [b] + Repeat(b, times)
  {
    assert Repeat(b, times + 1) == [b] + Repeat(b, times);
  }

  /** A meter whose reading does not change, or falls to zero, keeps its difference; so does one at zero without any. */
  lemma {:induction false} Unchanged(before: seq<int>, b: int, diff: int, times: nat)
    requires MeterAfter(before) == Meter(b, diff) && (b == 0 ==> diff == 0)
    ensures MeterAfter(before + Repeat(b, times)) == Meter(b, diff)
    ensures MeterAfter(before + Repeat(b, times) + [0]) == Meter(0, diff)
  {
    if times == 0 {
      assert before + Repeat(b, times) == before;
    } else {
      Unchanged(before, b, diff, times - 1);
      assert before + Repeat(b, times) == before + Repeat(b, times - 1) + [b];
      MeterPush(before + Repeat(b, times - 1), b);
    }
    MeterPush(before + Repeat(b, times), 0);
  }

  /** The sum of the differences that one meter reports. */
  ghost function Reported(readings: seq<int>): int {
    if readings == [] then 0 else Reported(readings[..|readings| - 1]) + MeterAfter(readings).diff
  }

  /** The differences of one pod reported over a run of readings of any pods. */
  ghost function ReportedRx(rs: seq<Reading>, name: string): int {
    if rs == [] then 0
    else
      ReportedRx(rs[..|rs| - 1], name)
      + (if rs[|rs| - 1].name == name then Get(After(EMPTY, rs).diffRx, name) else 0)
  }

  ghost function ReportedTx(rs: seq<Reading>, name: string): int {
    if rs == [] then 0
    else
      ReportedTx(rs[..|rs| - 1], name)
      + (if rs[|rs| - 1].name == name then Get(After(EMPTY, rs).diffTx, name) else 0)
  }

  lemma {:induction false} ReportedPerPod(rs: seq<Reading>, name: string)
    ensures ReportedRx(rs, name) == Reported(RxOf(rs, name))
    ensures ReportedTx(rs, name) == Reported(TxOf(rs, name))
  {
    if rs != [] {
      var front, last := rs[..|rs| - 1], rs[|rs| - 1];
      ReportedPerPod(front, name);
      PodsAreIndependent(rs, name);
      MeterPush(RxOf(front, name), last.rx);
      MeterPush(TxOf(front, name), last.tx);
      assert Get(After(EMPTY, rs).diffRx, name) == RxMeter(After(EMPTY, rs), name).diff;
      assert Get(After(EMPTY, rs).diffTx, name) == TxMeter(After(EMPTY, rs), name).diff;
    }
  }

  // ----- what the differences add up to

  ghost predicate Positive(readings: seq<int>) { forall i :: 0 <= i < |readings| ==> readings[i] > 0 }
  ghost predicate NonDecreasing(readings: seq<int>) {
    forall i, j :: 0 <= i <= j < |readings| ==> readings[i] <= readings[j]
  }

  ghost predicate NonZero(readings: seq<int>) { forall i :: 0 <= i < |readings| ==> readings[i] != 0 }

  /** The growth of the counter within its runs of non-zero readings. */
  ghost function Growth(readings: seq<int>): int {
    if |readings| <= 1 then 0
    else
      var last, before := readings[|readings| - 1], readings[|readings| - 2];
      Growth(readings[..|readings| - 1]) + (if last != 0 && before != 0 then last - before else 0)
  }

  /** Over a run of non-zero readings it is the last less the first. */
  lemma {:induction false} GrowthOfRun(readings: seq<int>)
    requires NonZero(readings) && readings != []
    ensures Growth(readings) == readings[|readings| - 1] - readings[0]
  {
    if |readings| > 1 { GrowthOfRun(readings[..|readings| - 1]); }
  }

  /** A zero reading ends a run, and the next reading starts one. */
  lemma {:induction false} GrowthSplits(a: seq<int>, b: seq<int>)
    ensures Growth(a + [0] + b) == Growth(a) + Growth(b)
  {
    var all := a + [0] + b;
    if b == [] {
      assert all[..|all| - 1] == a;
    } else {
      assert all[..|all| - 1] == a + [0] + b[..|b| - 1];
      GrowthSplits(a, b[..|b| - 1]);
    }
  }

  /** The differences reported again, for readings that are unchanged or fall to zero. */
  ghost function Repeated(readings: seq<int>): int {
    if |readings| <= 1 then 0
    else
      var last, before := readings[|readings| - 1], readings[|readings| - 2];
      Repeated(readings[..|readings| - 1])
          + (if before != 0 && (last == 0 || last == before) then MeterAfter(readings).diff else 0)
  }

  /** Whatever the readings, the sum is the growth plus what was reported again. */
  lemma {:induction false} ReportedTotal(readings: seq<int>)
    ensures Reported(readings) == Growth(readings) + Repeated(readings)
  {
    if readings != [] {
      var front := readings[..|readings| - 1];
      ReportedTotal(front);
      if front != [] {
        assert MeterAfter(front).prev == front[|front| - 1] == readings[|readings| - 2];
      } else {
        assert MeterAfter(front) == Meter(0, 0);
      }
    }
  }

  /** Strictly increasing readings, and more generally any without two equal neighbours, add up to the growth. */
  lemma {:induction false} NoEqualNeighbours(readings: seq<int>)
    requires NonZero(readings) && readings != []
    requires forall i :: 0 < i < |readings| ==> readings[i] != readings[i - 1]
    ensures Reported(readings) == readings[|readings| - 1] - readings[0]
  {
    ReportedTotal(readings);
    GrowthOfRun(readings);
    NothingRepeated(readings);
  }

  lemma {:induction false} NothingRepeated(readings: seq<int>)
    requires NonZero(readings) && forall i :: 0 < i < |readings| ==> readings[i] != readings[i - 1]
    ensures Repeated(readings) == 0
  {
    if |readings| > 1 {
      assert readings[|readings| - 1] != readings[|readings| - 1 - 1];
      NothingRepeated(readings[..|readings| - 1]);
    }
  }

  /** The counter stood still after it had grown. */
  ghost predicate PausesAfterGrowth(readings: seq<int>) {
    exists i :: 0 < i < |readings| && readings[i] == readings[i - 1] && readings[i] != readings[0]
  }

  lemma {:induction false} GrowthShows(readings: seq<int>)
    requires Positive(readings) && NonDecreasing(readings) && readings != []
    ensures MeterAfter(readings).diff >= 0
    ensures MeterAfter(readings).diff > 0 <==> readings[|readings| - 1] > readings[0]
  {
    var front := readings[..|readings| - 1];
    if front != [] {
      GrowthShows(front);
      assert MeterAfter(front).prev == front[|front| - 1] == readings[|readings| - 2];
    }
  }

  lemma {:induction false} RepeatedSign(readings: seq<int>)
    requires Positive(readings) && NonDecreasing(readings)
    ensures Repeated(readings) >= 0
    ensures Repeated(readings) > 0 <==> PausesAfterGrowth(readings)
  {
    if |readings| > 1 {
      var n := |readings| - 1;
      var front := readings[..n];
      RepeatedSign(front);
      GrowthShows(readings);
      if PausesAfterGrowth(front) {
        var i :| 0 < i < |front| && front[i] == front[i - 1] && front[i] != front[0];
        assert readings[i] == readings[i - 1] && readings[i] != readings[0];
      }
      if PausesAfterGrowth(readings) {
        var i :| 0 < i < |readings| && readings[i] == readings[i - 1] && readings[i] != readings[0];
        if i < n {
          assert front[i] == front[i - 1] && front[i] != front[0];
        }
      }
    }
  }

  /** For the readings of a growing counter the reported differences add up to its growth if and only if it never
      pauses once it has grown: every pause reports the last difference once more. */
  lemma SumIsGrowthIff(readings: seq<int>)
    requires Positive(readings) && NonDecreasing(readings) && readings != []
    ensures Reported(readings) == readings[|readings| - 1] - readings[0] <==> !PausesAfterGrowth(readings)
  {
    ReportedTotal(readings);
    GrowthOfRun(readings);
    RepeatedSign(readings);
  }

  // ----- the sums of a replica set

  /** The sums of two lists, one recorded after the other. */
  lemma {:induction false} TotalConcat(c: Counters, a: seq<Reading>, b: seq<Reading>)
    ensures TotalRx(c, a + b) == TotalRx(c, a) + TotalRx(After(c, a), b)
    ensures TotalTx(c, a + b) == TotalTx(c, a) + TotalTx(After(c, a), b)
  {
    if b == [] {
      assert a + b == a;
    } else {
      var front, last := b[..|b| - 1], b[|b| - 1];
      TotalConcat(c, a, front);
      AfterConcat(c, a, front);
      assert b == front + [last] && a + b == (a + front) + [last];
      AfterPush(c, a + front, last);
      AfterPush(After(c, a), front, last);
    }
  }

  ghost function PodsRx(rs: seq<Reading>, names: seq<string>): int {
    if names == [] then 0 else PodsRx(rs, names[..|names| - 1]) + ReportedRx(rs, names[|names| - 1])
  }

  ghost function PodsTx(rs: seq<Reading>, names: seq<string>): int {
    if names == [] then 0 else PodsTx(rs, names[..|names| - 1]) + ReportedTx(rs, names[|names| - 1])
  }

  /** The sums are those of what is reported for each pod, over a list of all pods. */
  lemma {:induction false} TotalIsOfPods(rs: seq<Reading>, names: seq<string>)
    requires NoRepeats(names) && forall k :: 0 <= k < |rs| ==> rs[k].name in names
    ensures TotalRx(EMPTY, rs) == PodsRx(rs, names) && TotalTx(EMPTY, rs) == PodsTx(rs, names)
  {
    if rs == [] {
      NothingReported(names);
    } else {
      TotalIsOfPods(rs[..|rs| - 1], names);
      OneMoreReport(rs, names);
    }
  }

  lemma {:induction false} NothingReported(names: seq<string>)
    ensures PodsRx([], names) == 0 && PodsTx([], names) == 0
  {
    if names != [] { NothingReported(names[..|names| - 1]); }
  }

  /** The last reading counts for its own pod, which is listed once or not at all. */
  lemma {:induction false} OneMoreReport(rs: seq<Reading>, names: seq<string>)
    requires rs != [] && NoRepeats(names)
    ensures var front, last, c := rs[..|rs| - 1], rs[|rs| - 1], After(EMPTY, rs);
            && PodsRx(rs, names) == PodsRx(front, names) + (if last.name in names then Get(c.diffRx, last.name) else 0)
            && PodsTx(rs, names) == PodsTx(front, names) + (if last.name in names then Get(c.diffTx, last.name) else 0)
  {
    if names != [] {
      var others := names[..|names| - 1];
      OneMoreReport(rs, others);
      assert names == others + [names[|names| - 1]];
    }
  }
}
