/** Why the positional join of gpumpsmetric/gpumpsmetric.go stays in bounds: as many pods as counted processes,
    and every counted process in the container of some pod. */
module Pigeonhole {
  import opened Wrappers
  import opened Processes
  import opened MpsJoin
  import Decode

  ghost function Elements(s: seq<string>): set<string> { set x | x in s }

  lemma {:induction false} ElementsSize(s: seq<string>)
    ensures |Elements(s)| <= |s|
    ensures NoRepeats(s) <==> |Elements(s)| == |s|
  {
    if s != [] {
      var front, last := s[..|s| - 1], s[|s| - 1];
      ElementsSize(front);
      assert s == front + [last];
      assert Elements(s) == Elements(front) + {last};
      if last in front {
        assert Elements(s) == Elements(front);
      } else {
        assert |Elements(s)| == |Elements(front)| + 1;
        assert NoRepeats(front) ==> NoRepeats(s);
      }
      assert NoRepeats(s) ==> NoRepeats(front) && last !in front;
    }
  }

  lemma SubsetOfSameSize(a: set<string>, b: set<string>)
    requires a <= b && |b| <= |a|
    ensures a == b
  {
    assert b == a + (b - a);
    assert |b| == |a| + |b - a|;
  }

  /** Distinct items, all found in a list no longer than theirs, fill that list without repeats. */
  lemma DistinctItemsFill(items: seq<string>, holes: seq<string>)
    requires NoRepeats(items) && |items| == |holes|
    requires forall x :: x in items ==> x in holes
    ensures NoRepeats(holes) && forall x :: x in holes ==> x in items
  {
    ElementsSize(items);
    ElementsSize(holes);
    SubsetOfSameSize(Elements(items), Elements(holes));
    forall x | x in holes ensures x in items {
      assert x in Elements(holes);
    }
  }

  // ----- the counted processes

  /** The container ids of the counted processes, in order. */
  ghost function CountedIds(procs: seq<Process>): seq<string>
    requires Readable(procs)
  {
    if procs == [] then []
    else
      var last := procs[|procs| - 1];
      var entries := Entries(last.cgroup);
      CountedIds(procs[..|procs| - 1])
      + (if Counted(last.cgroup) && entries != [] then [entries[|entries| - 1]] else [])
  }

  /** With one entry per process, a counted process has its id as that entry, and an uncounted one an empty entry. */
  lemma {:induction false} EntryOfScan(lines: seq<string>)
    requires Scannable(lines)
    ensures Counted(lines) ==> Entries(lines) != []
    ensures !Counted(lines) ==> forall i :: 0 <= i < |Entries(lines)| ==> Entries(lines)[i] == ""
  {
    if lines != [] && !Classify(lines[0]).Usable? { EntryOfScan(lines[1..]); }
  }

  /** What the last process adds to the two lists: its only entry, which names it if it is counted. */
  lemma LastProcess(procs: seq<Process>)
    requires Readable(procs) && OneEntryEach(procs) && procs != []
    ensures var front, last := procs[..|procs| - 1], procs[|procs| - 1];
            && OneEntryEach(front) && Entries(last.cgroup) != []
            && var e := Entries(last.cgroup)[0];
               && AllEntries(procs) == AllEntries(front) + [e]
               && CountedIds(procs) == (if Counted(last.cgroup) then CountedIds(front) + [e] else CountedIds(front))
               && (!Counted(last.cgroup) ==> e == "")
  {
    var n := |procs| - 1;
    forall k | 0 <= k < n ensures |Entries(procs[..n][k].cgroup)| == 1 { assert procs[..n][k] == procs[k]; }
    EntryOfScan(procs[n].cgroup);
    assert |Entries(procs[n].cgroup)| == 1;
    assert Entries(procs[n].cgroup) == [Entries(procs[n].cgroup)[0]];
  }

  /** The non-empty entries of the list are the ids of the counted processes, if those are not empty. */
  lemma {:induction false} CountedIdsAreEntries(procs: seq<Process>)
    requires Readable(procs) && OneEntryEach(procs)
    requires "" !in CountedIds(procs)
    ensures |CountedIds(procs)| == CountedProcesses(procs)
    ensures forall x :: x in CountedIds(procs) <==> x in AllEntries(procs) && x != ""
  {
    if procs != [] {
      var front, last := procs[..|procs| - 1], procs[|procs| - 1];
      LastProcess(procs);
      CountedIdsAreEntries(front);
      var e := Entries(last.cgroup)[0];
      assert Counted(last.cgroup) ==> e in CountedIds(procs);
    }
  }

  // ----- the pods

  ghost function PodIds(entries: seq<GpuMpsMap>): (r: seq<string>)
    requires forall i :: 0 <= i < |entries| ==> ShortId(entries[i]).Some?
    ensures |r| == |entries| && forall i :: 0 <= i < |r| ==> r[i] == ShortId(entries[i]).value
  {
    if entries == [] then [] else PodIds(entries[..|entries| - 1]) + [ShortId(entries[|entries| - 1]).value]
  }

  /** What the pods and processes of a node normally satisfy: each process shows one container entry, counted
      containers are named, run one process each, and belong to some counted pod. */
  ghost predicate OnePodPerProcess(entries: seq<GpuMpsMap>, procs: seq<Process>) {
    && Readable(procs) && OneEntryEach(procs)
    && (forall i :: 0 <= i < |entries| ==> ShortId(entries[i]).Some?)
    && "" !in CountedIds(procs) && NoRepeats(CountedIds(procs))
    && forall x :: x in CountedIds(procs) ==> x in PodIds(entries)
  }

  /** Process k runs in the container of pod i. */
  ghost predicate Runs(entries: seq<GpuMpsMap>, procs: seq<Process>, i: nat, k: nat)
    requires Readable(procs) && i < |entries| && k < |procs|
  {
    && ShortId(entries[i]).Some? && |Entries(procs[k].cgroup)| == 1
    && Entries(procs[k].cgroup)[0] == ShortId(entries[i]).value && ShortId(entries[i]).value != ""
  }

  /** The line of a container in a cgroup file: its id, or <driver>-<id>.scope, behind two directories under one of the
      two roots. */
  ghost predicate NamesContainer(line: string, id: string) {
    exists x, root, a, b, driver ::
      && '/' !in x && '/' !in a && '/' !in b && '/' !in driver && '-' !in driver
      && (root == "kubepods" || root == "kubepods.slice")
      && IsLine(line, x, root, a, b, driver, id)
  }

  ghost predicate IsLine(line: string, x: string, root: string, a: string, b: string, driver: string, id: string) {
    var path := x + "/" + root + "/" + a + "/" + b + "/";
    line == path + id || line == path + driver + "-" + id + ".scope"
  }

  /** From the texts: a process whose cgroup file shows, behind lines that neither end the scan nor are too short for an
      id, the line of the container that the pod's status names, runs in the container of that pod. */
  lemma TextsMeet(entries: seq<GpuMpsMap>, procs: seq<Process>, i: nat, k: nat, runtime: string, id: string,
      lines: seq<string>, line: string, rest: seq<string>)
    requires Readable(procs) && i < |entries| && k < |procs|
    requires '/' !in runtime && '/' !in id && '-' !in id && '.' !in id && id != ""
    requires entries[i].containerId == runtime + "://" + id && NamesContainer(line, id)
    requires procs[k].cgroup == lines + [line] + rest && Passed(lines) && Short !in Classes(lines)
    ensures Runs(entries, procs, i, k) && Counted(procs[k].cgroup)
  {
    IdOfStatus(entries[i], runtime, id);
    NamedLine(line, id);
    ScanYields(lines, line, rest);
    CountZero(Classes(lines), Short);
  }

  lemma NamedLine(line: string, id: string)
    requires NamesContainer(line, id) && '/' !in id && '-' !in id && '.' !in id
    ensures WellFormed(line) && Classify(line) == Usable(id)
  {
    var x, root, a, b, driver :|
      && '/' !in x && '/' !in a && '/' !in b && '/' !in driver && '-' !in driver
      && (root == "kubepods" || root == "kubepods.slice")
      && IsLine(line, x, root, a, b, driver, id);
    LineOfContainer(x, root, a, b, driver, id);
  }

  /** The pigeonhole: with as many pods as counted processes every pod is joined, no two pods share a container,
      and the entry of pod i holds the data of the one process that runs in it. */
  lemma EveryPodJoined(entries: seq<GpuMpsMap>, procs: seq<Process>, data: seq<Decode.MetricsBatch>)
    requires OnePodPerProcess(entries, procs) && data != []
    requires |entries| == CountedProcesses(procs)
    ensures AllJoined(entries, procs, AllEntries(procs), data)
    ensures NoRepeats(PodIds(entries))
    ensures forall i :: 0 <= i < |entries| ==> HasOnlyProcess(entries, procs, data, i)
  {
    CountedIdsAreEntries(procs);
    DistinctItemsFill(CountedIds(procs), PodIds(entries));
    AlignedIffOneEntryEach(procs);
    CountedOnce(procs);
    forall i | 0 <= i < |entries|
      ensures Joined(entries[i], procs, AllEntries(procs), data).Some? && HasOnlyProcess(entries, procs, data, i)
    {
      assert PodIds(entries)[i] in CountedIds(procs);
      PodJoined(entries, procs, data, i);
    }
  }

  lemma PodJoined(entries: seq<GpuMpsMap>, procs: seq<Process>, data: seq<Decode.MetricsBatch>, i: nat)
    requires Readable(procs) && OneEntryEach(procs) && |AllEntries(procs)| == |procs| && data != []
    requires forall k :: 0 <= k < |procs| ==> AllEntries(procs)[k] == Entries(procs[k].cgroup)[0]
    requires NamedOnce(AllEntries(procs))
    requires i < |entries| && ShortId(entries[i]).Some?
    requires ShortId(entries[i]).value in AllEntries(procs) && ShortId(entries[i]).value != ""
    ensures Joined(entries[i], procs, AllEntries(procs), data).Some? && HasOnlyProcess(entries, procs, data, i)
  {
    var ids, id := AllEntries(procs), ShortId(entries[i]).value;
    var k := FirstMatch(ids, id).value;
    assert ids[k] == id && Runs(entries, procs, i, k);
    forall m: nat | m < |procs| && Runs(entries, procs, i, m) ensures m == k {
      assert ids[m] == id;
    }
    assert OnlyProcess(entries, procs, data, i, k);
  }

  ghost predicate HasOnlyProcess(entries: seq<GpuMpsMap>, procs: seq<Process>, data: seq<Decode.MetricsBatch>, i: nat)
    requires Readable(procs) && i < |entries| && data != []
  {
    exists k: nat :: k < |procs| && OnlyProcess(entries, procs, data, i, k)
  }

  /** Process k is the only one in the container of pod i, and the join records its data for the pod. */
  ghost predicate OnlyProcess(entries: seq<GpuMpsMap>, procs: seq<Process>, data: seq<Decode.MetricsBatch>, i: nat,
      k: nat)
    requires Readable(procs) && i < |entries| && k < |procs| && data != []
  {
    && Runs(entries, procs, i, k)
    && (forall m: nat :: m < |procs| && Runs(entries, procs, i, m) ==> m == k)
    && Joined(entries[i], procs, AllEntries(procs), data)
       == Some(MetricOf(entries[i], procs[k], ShortId(entries[i]).value, data[0].pods))
  }

  /** Distinct counted ids appear once among the entries. */
  lemma {:induction false} CountedOnce(procs: seq<Process>)
    requires Readable(procs) && OneEntryEach(procs)
    requires "" !in CountedIds(procs) && NoRepeats(CountedIds(procs))
    ensures |AllEntries(procs)| == |procs|
    ensures NamedOnce(AllEntries(procs))
  {
    if procs != [] {
      var front, last := procs[..|procs| - 1], procs[|procs| - 1];
      LastProcess(procs);
      var e := Entries(last.cgroup)[0];
      if Counted(last.cgroup) { RepeatsShow(CountedIds(front), e); }
      CountedOnce(front);
      CountedIdsAreEntries(front);
      PushOnce(AllEntries(front), e);
    }
  }

  lemma RepeatsShow(s: seq<string>, e: string)
    requires NoRepeats(s + [e])
    ensures NoRepeats(s) && e !in s
  {
    assert forall j :: 0 <= j < |s| ==> (s + [e])[j] == s[j];
    assert (s + [e])[|s|] == e;
  }

  ghost predicate NamedOnce(ids: seq<string>) {
    forall m, k :: 0 <= m < k < |ids| && ids[m] != "" ==> ids[m] != ids[k]
  }

  lemma PushOnce(ids: seq<string>, e: string)
    requires NamedOnce(ids) && (e == "" || e !in ids)
    ensures NamedOnce(ids + [e])
  {
  }

  /** A tick on such a node: whatever round the polling ended with, the join completes. */
  lemma TickCompletes(data: seq<Decode.MetricsBatch>, polls: seq<Poll>, uuid: string)
    requires data != [] && Pollable(polls) && Readable(polls[FinalRound(polls, uuid)].procs)
    requires Agreed(polls[FinalRound(polls, uuid)], uuid)
             ==> OnePodPerProcess(FinalEntries(polls, uuid), polls[FinalRound(polls, uuid)].procs)
    ensures var procs := polls[FinalRound(polls, uuid)].procs;
            AllJoined(FinalEntries(polls, uuid), procs, AllEntries(procs), data)
  {
    var last := polls[FinalRound(polls, uuid)];
    if Agreed(last, uuid) {
      EveryPodJoined(FinalEntries(polls, uuid), last.procs, data);
    }
  }

  // ----- when the join is right

  /** The process that an entry of the container list came from. */
  ghost function Owner(procs: seq<Process>, k: nat): Process
    requires Readable(procs) && k < |AllEntries(procs)|
  {
    procs[Origins(procs)[k]]
  }

  /** The entries contributed by the first m processes. */
  ghost function EntriesBefore(procs: seq<Process>, m: nat): nat
    requires Readable(procs) && m <= |procs|
  {
    |AllEntries(procs[..m])|
  }

  /** Entry k falls among the entries that process m contributes. */
  ghost predicate Among(procs: seq<Process>, k: nat, m: nat)
    requires Readable(procs) && m < |procs|
  {
    EntriesBefore(procs, m) <= k < EntriesBefore(procs, m + 1)
  }

  lemma AmongFront(procs: seq<Process>, k: nat, m: nat)
    requires Readable(procs) && procs != [] && m < |procs|
    ensures var n := |procs| - 1; var front := procs[..n];
            && (m < n ==> (Among(procs, k, m) <==> Among(front, k, m)))
            && (m == n ==> (Among(procs, k, m) <==> |AllEntries(front)| <= k < |AllEntries(procs)|))
            && (m < n && Among(procs, k, m) ==> k < |AllEntries(front)|)
  {
    var n := |procs| - 1;
    var front := procs[..n];
    if m < n {
      assert front[..m] == procs[..m] && front[..m + 1] == procs[..m + 1];
      EntriesGrow(front, m + 1);
    } else {
      assert procs[..n + 1] == procs;
    }
  }

  /** Entry k comes from process m exactly when it falls among those that m contributes. */
  lemma {:induction false} OriginIs(procs: seq<Process>, k: nat, m: nat)
    requires Readable(procs) && k < |AllEntries(procs)| && m < |procs|
    ensures Origins(procs)[k] == m <==> Among(procs, k, m)
  {
    var n := |procs| - 1;
    LastOrigins(procs, k);
    if m < n && k < |AllEntries(procs[..n])| { OriginIs(procs[..n], k, m); }
    OriginStep(procs, k, m);
  }

  /** If that holds before the last process, then also with it. */
  lemma OriginStep(procs: seq<Process>, k: nat, m: nat)
    requires Readable(procs) && k < |AllEntries(procs)| && m < |procs|
    requires var front := procs[..|procs| - 1];
             m < |front| && k < |AllEntries(front)| ==> (Origins(front)[k] == m <==> Among(front, k, m))
    ensures Origins(procs)[k] == m <==> Among(procs, k, m)
  {
    LastOrigins(procs, k);
    AmongFront(procs, k, m);
  }

  /** It is one of the entries of its owner's cgroup file. */
  lemma {:induction false} OwnerHolds(procs: seq<Process>, k: nat)
    requires Readable(procs) && k < |AllEntries(procs)|
    ensures AllEntries(procs)[k] in Entries(Owner(procs, k).cgroup)
  {
    var n := |procs| - 1;
    LastOrigins(procs, k);
    if k < |AllEntries(procs[..n])| { OwnerHolds(procs[..n], k); }
  }

  lemma LastOrigins(procs: seq<Process>, k: nat)
    requires Readable(procs) && k < |AllEntries(procs)| && procs != []
    ensures var n := |procs| - 1; var front := procs[..n];
            if k < |AllEntries(front)|
            then front != [] && Origins(procs)[k] == Origins(front)[k] && AllEntries(procs)[k] == AllEntries(front)[k]
            else Origins(procs)[k] == n && AllEntries(procs)[k] in Entries(procs[n].cgroup)
  {
    var n := |procs| - 1;
    var j := k - |AllEntries(procs[..n])|;
    if j >= 0 {
      assert AllEntries(procs)[k] == Entries(procs[n].cgroup)[j];
      assert Origins(procs)[k] == Repeat(n, |Entries(procs[n].cgroup)|)[j];
    }
  }

  lemma {:induction false} EntriesGrow(procs: seq<Process>, m: nat)
    requires Readable(procs) && m <= |procs|
    ensures EntriesBefore(procs, m) <= |AllEntries(procs)|
    decreases |procs| - m
  {
    if m < |procs| {
      assert procs[..m + 1][..m] == procs[..m];
      EntriesGrow(procs, m + 1);
    } else {
      assert procs[..m] == procs;
    }
  }

  ghost predicate DistinctPids(procs: seq<Process>) {
    forall i, j :: 0 <= i < j < |procs| ==> procs[i].pid != procs[j].pid
  }

  /** The position of the pod's container in the list also lies among the entries of the process at that position. */
  ghost predicate InPlace(procs: seq<Process>, k: nat)
    requires Readable(procs)
  {
    k < |procs| && Among(procs, k, k)
  }

  /** Whatever the processes: a pod whose container is in the list gets the data of the process running in it if and
      only if the position is in place; otherwise it gets those of another process or the join panics. */
  lemma JoinIsRightIff(entry: GpuMpsMap, procs: seq<Process>, data: seq<Decode.MetricsBatch>)
    requires Readable(procs) && DistinctPids(procs) && data != []
    requires ShortId(entry).Some? && FirstMatch(AllEntries(procs), ShortId(entry).value).Some?
    ensures var id := ShortId(entry).value; var k := FirstMatch(AllEntries(procs), id).value;
            var joined := Joined(entry, procs, AllEntries(procs), data);
            && id in Entries(Owner(procs, k).cgroup)
            && (InPlace(procs, k) <==> joined == Some(MetricOf(entry, Owner(procs, k), id, data[0].pods)))
            && (InPlace(procs, k) <==> joined.Some? && joined.value.podPid == Owner(procs, k).pid)
  {
    var k := FirstMatch(AllEntries(procs), ShortId(entry).value).value;
    OwnerHolds(procs, k);
    InPlaceIff(procs, k);
  }

  lemma InPlaceIff(procs: seq<Process>, k: nat)
    requires Readable(procs) && DistinctPids(procs) && k < |AllEntries(procs)|
    ensures InPlace(procs, k) <==> k < |procs| && procs[k].pid == Owner(procs, k).pid
    ensures InPlace(procs, k) ==> procs[k] == Owner(procs, k)
  {
    if k < |procs| { OriginIs(procs, k, k); }
  }

  /** A process outside the pods, listed ahead of a container's process, makes the join record its own pid,
      memory and name for the pod: the process contributes no entry, so the container list is shifted. */
  lemma MisalignedJoin(entry: GpuMpsMap, host: Process, worker: Process, data: seq<Decode.MetricsBatch>)
    requires Scannable(host.cgroup) && Scannable(worker.cgroup) && data != []
    requires ShortId(entry).Some? && ShortId(entry).value != ""
    requires Entries(host.cgroup) == [] && Entries(worker.cgroup) == [ShortId(entry).value]
    ensures var procs := [host, worker];
            && !Aligned(procs) && !InPlace(procs, 0)
            && Joined(entry, procs, AllEntries(procs), data)
                == Some(MetricOf(entry, host, ShortId(entry).value, data[0].pods))
  {
    var procs := [host, worker];
    assert procs[..1] == [host] && [host][..0] == [];
    assert AllEntries([host]) == AllEntries([]) + Entries(host.cgroup) == [];
    assert AllEntries(procs) == [ShortId(entry).value];
  }
}
