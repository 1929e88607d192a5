/** customMetrics/customMetrics.go over many passes: what is reported for a pod whose name starts with the names of
    k replica sets. Each pass records such a pod k times. */
module ReplicaSets {
  import opened Wrappers
  import opened CustomMetrics

  /** One call of AddToDeployCustomMetricServer. */
  datatype Pass = Pass(podList: seq<Reading>, replicasets: seq<string>)

  /** The number of replica sets that a pod matches. */
  function Matches(replicasets: seq<string>, name: string): nat {
    if replicasets == [] then 0
    else Matches(replicasets[..|replicasets| - 1], name) + (if replicasets[|replicasets| - 1] <= name then 1 else 0)
  }

  /** All that the passes record, in order. */
  ghost function History(passes: seq<Pass>): seq<Reading> {
    if passes == [] then []
    else
      var last := passes[|passes| - 1];
      History(passes[..|passes| - 1]) + SelectedByAll(last.podList, last.replicasets)
  }

  method RecordPasses(usage: NetworkUsage, passes: seq<Pass>)
    requires usage.Valid()
    modifies usage
    ensures usage.Valid() && usage.View() == After(old(usage.View()), History(passes))
  {
    ghost var before := usage.View();
    for i := 0 to |passes|
      invariant usage.Valid() && usage.View() == After(before, History(passes[..i]))
    {
      assert passes[..i + 1][..i] == passes[..i];
      AfterConcat(before, History(passes[..i]), SelectedByAll(passes[i].podList, passes[i].replicasets));
      usage.RecordPass(passes[i].podList, passes[i].replicasets);
    }
    assert passes[..|passes|] == passes;
  }

  // ----- the readings recorded of one pod

  lemma {:induction false} OfConcat(a: seq<Reading>, b: seq<Reading>, name: string)
    ensures RxOf(a + b, name) == RxOf(a, name) + RxOf(b, name)
    ensures TxOf(a + b, name) == TxOf(a, name) + TxOf(b, name)
  {
    if b == [] {
      assert a + b == a;
    } else {
      var front := b[..|b| - 1];
      OfConcat(a, front, name);
      assert (a + b)[..|a + b| - 1] == a + front;
    }
  }

  lemma {:induction false} OfSelected(podList: seq<Reading>, replicaset: string, name: string)
    requires name != ""
    ensures RxOf(Selected(podList, replicaset), name) == if replicaset <= name then RxOf(podList, name) else []
    ensures TxOf(Selected(podList, replicaset), name) == if replicaset <= name then TxOf(podList, name) else []
  {
    if podList != [] {
      var front, last := podList[..|podList| - 1], podList[|podList| - 1];
      OfSelected(front, replicaset, name);
      var kept := if last.name != "" && replicaset <= last.name then [last] else [];
      assert Selected(podList, replicaset) == Selected(front, replicaset) + kept;
      OfConcat(Selected(front, replicaset), kept, name);
      OfSingle(last, name);
    }
  }

  lemma OfSingle(r: Reading, name: string)
    ensures RxOf([r], name) == if r.name == name then [r.rx] else []
    ensures TxOf([r], name) == if r.name == name then [r.tx] else []
  {
    assert [r][..0] == [];
  }

  /** One more replica set. */
  lemma OfNextSet(podList: seq<Reading>, replicasets: seq<string>, name: string)
    requires name != "" && replicasets != []
    ensures var front, last := replicasets[..|replicasets| - 1], replicasets[|replicasets| - 1];
            && RxOf(SelectedByAll(podList, replicasets), name)
               == RxOf(SelectedByAll(podList, front), name) + (if last <= name then RxOf(podList, name) else [])
            && TxOf(SelectedByAll(podList, replicasets), name)
               == TxOf(SelectedByAll(podList, front), name) + (if last <= name then TxOf(podList, name) else [])
  {
    var front, last := replicasets[..|replicasets| - 1], replicasets[|replicasets| - 1];
    OfConcat(SelectedByAll(podList, front), Selected(podList, last), name);
    OfSelected(podList, last, name);
  }

  /** A pod listed once in a pass is recorded once for each replica set it matches. */
  lemma {:induction false} OfPass(podList: seq<Reading>, replicasets: seq<string>, name: string, rx: int, tx: int)
    requires name != "" && RxOf(podList, name) == [rx] && TxOf(podList, name) == [tx]
    ensures RxOf(SelectedByAll(podList, replicasets), name) == Repeat(rx, Matches(replicasets, name))
    ensures TxOf(SelectedByAll(podList, replicasets), name) == Repeat(tx, Matches(replicasets, name))
  {
    if replicasets != [] {
      OfPass(podList, replicasets[..|replicasets| - 1], name, rx, tx);
      OfNextSet(podList, replicasets, name);
    }
  }

  /** A reading and the number of times it is recorded. */
  datatype Recording = Recording(reading: int, times: nat)

  ghost function Times(recs: seq<Recording>): seq<int> {
    if recs == [] then []
    else Times(recs[..|recs| - 1]) + Repeat(recs[|recs| - 1].reading, recs[|recs| - 1].times)
  }

  /** The readings that are recorded at all. */
  ghost function Seen(recs: seq<Recording>): seq<int> {
    if recs == [] then []
    else if recs[|recs| - 1].times == 0 then Seen(recs[..|recs| - 1])
    else Seen(recs[..|recs| - 1]) + [recs[|recs| - 1].reading]
  }

  /** In each pass the pod is listed once, with these readings, and matches so many replica sets. */
  ghost predicate ListedOnce(passes: seq<Pass>, name: string, rx: seq<Recording>, tx: seq<Recording>) {
    && name != "" && |rx| == |tx| == |passes|
    && forall t :: 0 <= t < |passes| ==> ListedIn(passes[t], name, rx[t], tx[t])
  }

  ghost predicate ListedIn(pass: Pass, name: string, rx: Recording, tx: Recording) {
    && RxOf(pass.podList, name) == [rx.reading] && TxOf(pass.podList, name) == [tx.reading]
    && rx.times == tx.times == Matches(pass.replicasets, name)
  }

  lemma {:induction false} OfHistory(passes: seq<Pass>, name: string, rx: seq<Recording>, tx: seq<Recording>)
    requires ListedOnce(passes, name, rx, tx)
    ensures RxOf(History(passes), name) == Times(rx)
    ensures TxOf(History(passes), name) == Times(tx)
  {
    if passes != [] {
      var n := |passes| - 1;
      var front, last := passes[..n], passes[n];
      assert ListedOnce(front, name, rx[..n], tx[..n]);
      OfHistory(front, name, rx[..n], tx[..n]);
      assert ListedIn(last, name, rx[n], tx[n]);
      OfPass(last.podList, last.replicasets, name, rx[n].reading, tx[n].reading);
      OfConcat(History(front), SelectedByAll(last.podList, last.replicasets), name);
    }
  }

  // ----- what several recordings of each reading report

  /** The k recordings of one reading: a non-zero one reports its difference k times, a zero one only once. */
  lemma {:induction false} ReportedCopies(before: seq<int>, r: int, k: nat)
    requires k >= 1
    ensures var d := Next(MeterAfter(before), r).diff;
            && Reported(before + Repeat(r, k)) == Reported(before) + (if r == 0 then d else k * d)
            && MeterAfter(before + Repeat(r, k)) == Meter(r, if r == 0 && k >= 2 then 0 else d)
  {
    if k == 1 {
      assert Repeat(r, 1) == [r];
      MeterPush(before, r);
    } else {
      ReportedCopies(before, r, k - 1);
      MeterPush(before + Repeat(r, k - 1), r);
      assert before + Repeat(r, k) == before + Repeat(r, k - 1) + [r];
      OneMore(k, Next(MeterAfter(before), r).diff);
    }
  }

  lemma OneMore(k: int, d: int)
    ensures k * d == (k - 1) * d + d
  {
  }

  /** What the recordings of one reading with difference d report. */
  function Share(rec: Recording, d: int): int {
    if rec.times == 0 then 0 else if rec.reading == 0 then d else rec.times * d
  }

  /** The differences of a meter that sees each recorded reading once, each as often as its reading is recorded, but
      once at a zero. */
  ghost function Weighted(recs: seq<Recording>): int {
    if recs == [] then 0
    else Weighted(recs[..|recs| - 1]) + Share(recs[|recs| - 1], MeterAfter(Seen(recs)).diff)
  }

  /** The two meters differ at most after a zero. */
  ghost predicate Alike(m: Meter, w: Meter) { m.prev == w.prev && (m.prev != 0 ==> m.diff == w.diff) }

  lemma AlikeNext(m: Meter, w: Meter, r: int)
    requires Alike(m, w)
    ensures Next(m, r) == Next(w, r)
  {
  }

  /** Whatever the readings and however often each is recorded. */
  lemma {:induction false} ReportedTimes(recs: seq<Recording>)
    ensures Reported(Times(recs)) == Weighted(recs)
    ensures Alike(MeterAfter(Seen(recs)), MeterAfter(Times(recs)))
  {
    if recs != [] {
      var front, last := recs[..|recs| - 1], recs[|recs| - 1];
      ReportedTimes(front);
      if last.times == 0 {
        assert Times(recs) == Times(front);
      } else {
        AlikeNext(MeterAfter(Seen(front)), MeterAfter(Times(front)), last.reading);
        MeterPush(Seen(front), last.reading);
        ReportedCopies(Times(front), last.reading, last.times);
      }
    }
  }

  /** Beyond what one recording of each reading reports. */
  ghost function Excess(recs: seq<Recording>): int {
    if recs == [] then 0
    else
      var last, d := recs[|recs| - 1], MeterAfter(Seen(recs)).diff;
      Excess(recs[..|recs| - 1]) + (if last.times == 0 then 0 else Share(last, d) - d)
  }

  lemma {:induction false} WeightedIsExcess(recs: seq<Recording>)
    ensures Weighted(recs) == Reported(Seen(recs)) + Excess(recs)
  {
    if recs != [] {
      var front, last := recs[..|recs| - 1], recs[|recs| - 1];
      WeightedIsExcess(front);
      if last.times != 0 { MeterPush(Seen(front), last.reading); }
    }
  }

  /** Passes report each difference of a pod once for each replica set that the pod matches in that pass, but for those
      at zeros, which are reported once. */
  lemma ReportedPerReplicaSet(passes: seq<Pass>, name: string, rx: seq<Recording>, tx: seq<Recording>)
    requires ListedOnce(passes, name, rx, tx)
    ensures ReportedRx(History(passes), name) == Weighted(rx) == Reported(Seen(rx)) + Excess(rx)
    ensures ReportedTx(History(passes), name) == Weighted(tx) == Reported(Seen(tx)) + Excess(tx)
  {
    ReportedPerPod(History(passes), name);
    OfHistory(passes, name, rx, tx);
    ReportedTimes(rx);
    ReportedTimes(tx);
    WeightedIsExcess(rx);
    WeightedIsExcess(tx);
  }

  // ----- a growing counter

  /** Every reading recorded more than once equals the first recorded one: the counter has not grown yet. */
  ghost predicate RepeatedBeforeGrowth(recs: seq<Recording>) {
    forall t :: 0 <= t < |recs| && recs[t].times >= 2 ==> Seen(recs) != [] && recs[t].reading == Seen(recs)[0]
  }

  lemma {:induction false} SeenIfRecorded(recs: seq<Recording>, t: nat)
    requires t < |recs| && recs[t].times > 0
    ensures Seen(recs) != []
  {
    if t < |recs| - 1 { SeenIfRecorded(recs[..|recs| - 1], t); }
  }

  lemma RepeatedPush(front: seq<Recording>, last: Recording)
    ensures var recs := front + [last];
            RepeatedBeforeGrowth(recs)
            <==> RepeatedBeforeGrowth(front) && (last.times >= 2 ==> last.reading == Seen(recs)[0])
    ensures last.times >= 2 ==> Seen(front + [last]) != []
  {
    var recs := front + [last];
    assert recs[..|recs| - 1] == front;
    assert Seen(recs) == if last.times == 0 then Seen(front) else Seen(front) + [last.reading];
    forall t | 0 <= t < |front| && front[t].times >= 2 ensures Seen(front) != [] && Seen(recs)[0] == Seen(front)[0] {
      SeenIfRecorded(front, t);
    }
    if RepeatedBeforeGrowth(recs) {
      forall t | 0 <= t < |front| && front[t].times >= 2 ensures front[t].reading == Seen(front)[0] {
        assert recs[t] == front[t];
      }
    }
    assert recs[|front|] == last;
  }

  lemma {:induction false} ExcessSign(recs: seq<Recording>)
    requires Positive(Seen(recs)) && NonDecreasing(Seen(recs))
    ensures Excess(recs) >= 0
    ensures Excess(recs) == 0 <==> RepeatedBeforeGrowth(recs)
  {
    if recs != [] {
      var front, last := recs[..|recs| - 1], recs[|recs| - 1];
      assert recs == front + [last];
      assert Seen(front) == Seen(recs)[..|Seen(front)|];
      ExcessSign(front);
      RepeatedPush(front, last);
      if last.times >= 1 {
        GrowthShows(Seen(recs));
        ExtraShare(last.times, MeterAfter(Seen(recs)).diff);
      }
    }
  }

  lemma ExtraShare(times: nat, d: int)
    requires times >= 1 && d >= 0
    ensures times * d - d >= 0
    ensures times * d - d == 0 <==> times == 1 || d == 0
  {
    if times >= 2 && d > 0 { assert (times - 1) * d > 0; }
  }

  /** Of a growing counter the passes report what one recording of each reading would report if and only if the pod
      matches more than one replica set in no pass after the counter has grown. */
  lemma ReportedOnceIff(passes: seq<Pass>, name: string, rx: seq<Recording>, tx: seq<Recording>)
    requires ListedOnce(passes, name, rx, tx)
    ensures Positive(Seen(rx)) && NonDecreasing(Seen(rx))
        ==> (ReportedRx(History(passes), name) == Reported(Seen(rx)) <==> RepeatedBeforeGrowth(rx))
    ensures Positive(Seen(tx)) && NonDecreasing(Seen(tx))
        ==> (ReportedTx(History(passes), name) == Reported(Seen(tx)) <==> RepeatedBeforeGrowth(tx))
  {
    ReportedPerReplicaSet(passes, name, rx, tx);
    if Positive(Seen(rx)) && NonDecreasing(Seen(rx)) { ExcessSign(rx); }
    if Positive(Seen(tx)) && NonDecreasing(Seen(tx)) { ExcessSign(tx); }
  }

  // ----- the same number of replica sets in every pass

  ghost predicate Uniform(recs: seq<Recording>, k: nat) { forall t :: 0 <= t < |recs| ==> recs[t].times == k }

  function ReadingsOf(recs: seq<Recording>): (r: seq<int>)
    ensures |r| == |recs| && forall t :: 0 <= t < |r| ==> r[t] == recs[t].reading
  {
    if recs == [] then [] else ReadingsOf(recs[..|recs| - 1]) + [recs[|recs| - 1].reading]
  }

  /** The differences reported at zero readings. */
  ghost function AtZeros(readings: seq<int>): int {
    if readings == [] then 0
    else AtZeros(readings[..|readings| - 1]) + (if readings[|readings| - 1] == 0 then MeterAfter(readings).diff else 0)
  }

  lemma AtZerosPush(readings: seq<int>, r: int)
    ensures AtZeros(readings + [r]) == AtZeros(readings) + (if r == 0 then MeterAfter(readings + [r]).diff else 0)
  {
    assert (readings + [r])[..|readings|] == readings;
  }

  /** All of a total k times, but for the part that is reported at zeros. */
  function Scaled(k: nat, total: int, atZeros: int): int {
    if k == 0 then 0 else k * (total - atZeros) + atZeros
  }

  lemma ScaledStep(k: nat, total: int, atZeros: int, d: int, zero: bool)
    requires k >= 1
    ensures Scaled(k, 0, 0) == 0
    ensures Scaled(k, total + d, if zero then atZeros + d else atZeros)
         == Scaled(k, total, atZeros) + (if zero then d else k * d)
  {
    var rest := total - atZeros;
    assert k * (rest + d) == k * rest + k * d;
  }

  lemma {:induction false} SeenUniform(recs: seq<Recording>, k: nat)
    requires Uniform(recs, k)
    ensures Seen(recs) == if k == 0 then [] else ReadingsOf(recs)
  {
    if recs != [] { SeenUniform(recs[..|recs| - 1], k); }
  }

  lemma {:induction false} WeightedUniform(recs: seq<Recording>, k: nat)
    requires Uniform(recs, k)
    ensures Weighted(recs) == Scaled(k, Reported(ReadingsOf(recs)), AtZeros(ReadingsOf(recs)))
  {
    SeenUniform(recs, k);
    if recs == [] {
      if k > 0 { ScaledStep(k, 0, 0, 0, true); }
    } else {
      var front, last := recs[..|recs| - 1], recs[|recs| - 1];
      WeightedUniform(front, k);
      if k > 0 {
        assert recs == front + [last];
        WeightedUniformNext(front, last, k);
      }
    }
  }

  lemma WeightedUniformNext(front: seq<Recording>, last: Recording, k: nat)
    requires k >= 1 && last.times == k && Seen(front + [last]) == ReadingsOf(front + [last])
    requires Weighted(front) == Scaled(k, Reported(ReadingsOf(front)), AtZeros(ReadingsOf(front)))
    ensures var y := ReadingsOf(front + [last]); Weighted(front + [last]) == Scaled(k, Reported(y), AtZeros(y))
  {
    var before := ReadingsOf(front);
    assert (front + [last])[..|front|] == front;
    var d := MeterAfter(before + [last.reading]).diff;
    MeterPush(before, last.reading);
    AtZerosPush(before, last.reading);
    assert Weighted(front + [last]) == Weighted(front) + Share(last, d);
    ScaledStep(k, Reported(before), AtZeros(before), d, last.reading == 0);
  }

  /** With k replica sets in every pass, all is reported k times but for what is reported at zeros; that is what one
      replica set would report if and only if k is 1 or there is nothing else to report. */
  lemma ReportedTimesK(recs: seq<Recording>, k: nat)
    requires Uniform(recs, k)
    ensures var all, zeros := Reported(ReadingsOf(recs)), AtZeros(ReadingsOf(recs));
            && Weighted(recs) == Scaled(k, all, zeros)
            && (k >= 1 ==> (Weighted(recs) == all <==> k == 1 || all == zeros))
  {
    WeightedUniform(recs, k);
    ScaledOnce(k, Reported(ReadingsOf(recs)), AtZeros(ReadingsOf(recs)));
  }

  lemma ScaledOnce(k: nat, all: int, zeros: int)
    ensures k >= 1 ==> (Scaled(k, all, zeros) == all <==> k == 1 || all == zeros)
    ensures zeros == 0 ==> Scaled(k, all, zeros) == k * all
    ensures zeros == 0 ==> (Scaled(k, all, zeros) == all <==> k == 1 || all == 0)
  {
    SameProduct(k, all - zeros);
  }

  lemma SameProduct(k: int, a: int)
    ensures k * a == a <==> k == 1 || a == 0
  {
    if k * a == a { assert (k - 1) * a == 0; }
  }

  lemma UniformReplicaSets(passes: seq<Pass>, name: string, rx: seq<Recording>, tx: seq<Recording>, k: nat)
    requires ListedOnce(passes, name, rx, tx) && Uniform(rx, k)
    ensures Uniform(tx, k)
    ensures var all, zeros := Reported(ReadingsOf(rx)), AtZeros(ReadingsOf(rx));
            && ReportedRx(History(passes), name) == Scaled(k, all, zeros)
            && (k >= 1 ==> (ReportedRx(History(passes), name) == all <==> k == 1 || all == zeros))
    ensures var all, zeros := Reported(ReadingsOf(tx)), AtZeros(ReadingsOf(tx));
            && ReportedTx(History(passes), name) == Scaled(k, all, zeros)
            && (k >= 1 ==> (ReportedTx(History(passes), name) == all <==> k == 1 || all == zeros))
  {
    ReportedPerReplicaSet(passes, name, rx, tx);
    forall t | 0 <= t < |tx| ensures tx[t].times == k { assert ListedIn(passes[t], name, rx[t], tx[t]); }
    ReportedTimesK(rx, k);
    ReportedTimesK(tx, k);
  }

  /** A counter without zeros and without equal neighbouring readings. */
  ghost predicate Moving(readings: seq<int>) {
    readings != [] && NonZero(readings) && forall i :: 0 < i < |readings| ==> readings[i] != readings[i - 1]
  }

  /** Its growth is reported k times: once if and only if k is 1 or the counter ends where it began. */
  lemma GrowthTimesK(recs: seq<Recording>, k: nat)
    requires Uniform(recs, k) && Moving(ReadingsOf(recs))
    ensures var y := ReadingsOf(recs); var growth := y[|y| - 1] - y[0];
            Weighted(recs) == k * growth && (Weighted(recs) == growth <==> k == 1 || growth == 0)
  {
    var y := ReadingsOf(recs);
    WeightedUniform(recs, k);
    NoEqualNeighbours(y);
    NothingAtZeros(y);
    ScaledOnce(k, y[|y| - 1] - y[0], 0);
  }

  lemma GrowthPerReplicaSet(passes: seq<Pass>, name: string, rx: seq<Recording>, tx: seq<Recording>, k: nat)
    requires ListedOnce(passes, name, rx, tx) && Uniform(rx, k) && Uniform(tx, k)
    ensures Moving(ReadingsOf(rx)) ==> TimesGrowth(ReportedRx(History(passes), name), ReadingsOf(rx), k)
    ensures Moving(ReadingsOf(tx)) ==> TimesGrowth(ReportedTx(History(passes), name), ReadingsOf(tx), k)
  {
    ReportedPerReplicaSet(passes, name, rx, tx);
    if Moving(ReadingsOf(rx)) { GrowthTimesK(rx, k); }
    if Moving(ReadingsOf(tx)) { GrowthTimesK(tx, k); }
  }

  /** The total is k times the growth of these readings, and the growth itself only if k is 1 or there is none. */
  ghost predicate TimesGrowth(total: int, y: seq<int>, k: nat)
    requires y != []
  {
    var growth := y[|y| - 1] - y[0];
    total == k * growth && (total == growth <==> k == 1 || growth == 0)
  }

  lemma {:induction false} NothingAtZeros(readings: seq<int>)
    requires NonZero(readings)
    ensures AtZeros(readings) == 0
  {
    if readings != [] { NothingAtZeros(readings[..|readings| - 1]); }
  }
}
