/** gpumpsmetric/gpumpsmetric.go: polling until pods and processes agree in number, joining them by container
    id, and the tick of the container ledger. */
module MpsJoin {
  import opened Wrappers
  import opened Strings
  import opened Processes
  import opened Ledger
  import Decode

  /** `containerId` has the form <runtime>://<id>. */
  datatype ContainerStatus = ContainerStatus(running: bool, containerId: string)
  /** `annotation` is the UUID annotation. */
  datatype Pod = Pod(uid: string, name: string, containers: seq<string>, statuses: seq<ContainerStatus>,
      annotation: string)
  datatype GpuMpsMap = GpuMpsMap(uid: string, container: string, pod: string, containerId: string)
  /** `usage` is the measurement whose CPU, storage, network and memory values are copied, if there is one. */
  datatype PodMetric = PodMetric(
    podUid: string, podName: string, processName: string, podPid: nat, podGpuMemory: nat, containerId: string,
    usage: Option<Decode.MetricsPoint>)
  /** A point of the podmetric series. */
  datatype Point = Point(
    uuid: string, process: string, memory: nat, pid: nat, pod: string, uid: string, usage: Option<Decode.MetricsPoint>)

  /** The processes and pods seen in one round of polling. */
  datatype Poll = Poll(procs: seq<Process>, pods: seq<Pod>)

  const SLOTS := 48
  const ROUNDS := 20

  // ----- the two counting passes

  /** How often a pod counts for a GPU: the multiplicity of the GPU's UUID in the annotation. */
  function Multiplicity(pod: Pod, uuid: string): nat { Count(Split(pod.annotation, ','), uuid) }

  /** The pods of a GPU, each as often as it counts. */
  function Matching(pods: seq<Pod>, uuid: string): seq<Pod> {
    if pods == [] then []
    else Matching(pods[..|pods| - 1], uuid) + Repeat(pods[|pods| - 1], Multiplicity(pods[|pods| - 1], uuid))
  }

  /** The branch for an annotation without a comma compares the whole annotation; it counts the same. */
  lemma WholeAnnotation(pod: Pod, uuid: string)
    requires |Split(pod.annotation, ',')| <= 1
    ensures Multiplicity(pod, uuid) == if pod.annotation == uuid then 1 else 0
  {
    SplitSingle(pod.annotation, ',');
    CountPush([], pod.annotation, uuid);
    assert [] + [pod.annotation] == [pod.annotation];
  }

  /** An annotation that joins UUIDs by commas counts for a GPU as often as it names its UUID. */
  lemma AnnotationNames(pod: Pod, uuids: seq<string>, uuid: string)
    requires uuids != [] && forall i :: 0 <= i < |uuids| ==> ',' !in uuids[i]
    requires pod.annotation == Join(uuids, ',')
    ensures Multiplicity(pod, uuid) == Count(uuids, uuid)
  {
    JoinSplit(uuids, ',');
  }

  /** A pod at the end of the list is matched after all others, as often as it counts. */
  lemma MatchingPush(pods: seq<Pod>, pod: Pod, uuid: string)
    ensures Matching(pods + [pod], uuid) == Matching(pods, uuid) + Repeat(pod, Multiplicity(pod, uuid))
  {
    assert (pods + [pod])[..|pods|] == pods;
  }

  /** The pods of two lists, one after the other, are matched in that order. */
  lemma {:induction false} MatchingConcat(a: seq<Pod>, b: seq<Pod>, uuid: string)
    ensures Matching(a + b, uuid) == Matching(a, uuid) + Matching(b, uuid)
  {
    if b == [] {
      assert a + b == a;
    } else {
      var front, last := b[..|b| - 1], b[|b| - 1];
      MatchingConcat(a, front, uuid);
      assert b == front + [last] && a + b == (a + front) + [last];
      MatchingNext(a + front, front, last, uuid, Matching(a, uuid), Matching(front, uuid));
    }
  }

  lemma MatchingNext(both: seq<Pod>, b: seq<Pod>, pod: Pod, uuid: string, first: seq<Pod>, second: seq<Pod>)
    requires Matching(both, uuid) == first + second && Matching(b, uuid) == second
    ensures Matching(both + [pod], uuid) == first + Matching(b + [pod], uuid)
  {
    MatchingPush(both, pod, uuid);
    MatchingPush(b, pod, uuid);
    PodsAssociate(first, second, Repeat(pod, Multiplicity(pod, uuid)));
  }

  lemma PodsAssociate(a: seq<Pod>, b: seq<Pod>, c: seq<Pod>)
    ensures (a + b) + c == a + (b + c)
  {
  }

  method CountPods(pods: seq<Pod>, uuid: string) returns (podnum: nat)
    ensures podnum == |Matching(pods, uuid)|
  {
    podnum := 0;
    for i := 0 to |pods|
      invariant podnum == |Matching(pods[..i], uuid)|
    {
      assert pods[..i + 1][..i] == pods[..i];
      var annotationUuid := Split(pods[i].annotation, ',');
      if |annotationUuid| > 1 {
        var before := podnum;
        for j := 0 to |annotationUuid|
          invariant podnum == before + Count(annotationUuid[..j], uuid)
        {
          assert annotationUuid[..j + 1][..j] == annotationUuid[..j];
          if annotationUuid[j] == uuid {
            podnum := podnum + 1;
          }
        }
        assert annotationUuid[..|annotationUuid|] == annotationUuid;
      } else {
        WholeAnnotation(pods[i], uuid);
        if pods[i].annotation == uuid {
          podnum := podnum + 1;
        }
      }
    }
    assert pods[..|pods|] == pods;
  }

  /** The second pass reads the first container and the start time of the first status, which must be running. */
  predicate Started(pod: Pod) { pod.containers != [] && pod.statuses != [] && pod.statuses[0].running }

  ghost predicate AllStarted(pods: seq<Pod>) { forall i :: 0 <= i < |pods| ==> Started(pods[i]) }

  function Entry(pod: Pod): GpuMpsMap {
    GpuMpsMap(pod.uid, if pod.containers != [] then pod.containers[0] else "", pod.name,
              if pod.statuses != [] then pod.statuses[0].containerId else "")
  }

  function EntriesOf(pods: seq<Pod>): (r: seq<GpuMpsMap>)
    ensures |r| == |pods| && forall i :: 0 <= i < |r| ==> r[i] == Entry(pods[i])
  {
    if pods == [] then [] else EntriesOf(pods[..|pods| - 1]) + [Entry(pods[|pods| - 1])]
  }

  /** The second pass fills the fixed array; None stands for the index panic on the 49th match, or for a matching
      pod that has not started. */
  method FillMap(pods: seq<Pod>, uuid: string, gpumpsmap: array<GpuMpsMap>) returns (podnum: Option<nat>)
    requires gpumpsmap.Length == SLOTS
    modifies gpumpsmap
    ensures podnum.Some? <==> Fits(Matching(pods, uuid))
    ensures podnum.Some? ==> podnum.value <= 48
    ensures podnum.Some?
        ==> podnum.value == |Matching(pods, uuid)| && gpumpsmap[..podnum.value] == EntriesOf(Matching(pods, uuid))
  {
    var n: nat := 0;
    for i := 0 to |pods|
      invariant n == |Matching(pods[..i], uuid)| && Fits(Matching(pods[..i], uuid))
      invariant gpumpsmap[..n] == EntriesOf(Matching(pods[..i], uuid))
    {
      MatchingStep(pods, uuid, i);
      FitsPrefix(pods, uuid, i + 1);
      var m := FillPod(pods[i], uuid, gpumpsmap, n);
      if m.None? {
        return None;
      }
      n := m.value;
    }
    assert pods[..|pods|] == pods;
    podnum := Some(n);
  }

  /** What the second pass can handle: at most 48 pods, all started. */
  ghost predicate Fits(matching: seq<Pod>) { |matching| <= SLOTS && AllStarted(matching) }

  /** In terms of the pods: the array has 48 slots, and the first container and the first status, which must be
      running, are read of each match. */
  lemma FitsIff(matching: seq<Pod>)
    ensures Fits(matching)
            <==> |matching| <= 48 && forall i :: 0 <= i < |matching| ==>
                     && matching[i].containers != []
                     && matching[i].statuses != [] && matching[i].statuses[0].running
  {
    if Fits(matching) {
      forall i | 0 <= i < |matching|
        ensures matching[i].containers != [] && matching[i].statuses != [] && matching[i].statuses[0].running
      {
        assert Started(matching[i]);
      }
    }
  }

  lemma FitsStep(pods: seq<Pod>, uuid: string, i: nat)
    requires i < |pods|
    ensures var before, times := Matching(pods[..i], uuid), Multiplicity(pods[i], uuid);
            Fits(Matching(pods[..i + 1], uuid))
            <==> (Fits(before) && |before| + times <= SLOTS && (times == 0 || Started(pods[i])))
  {
    assert pods[..i + 1][..i] == pods[..i];
    StartedConcat(Matching(pods[..i], uuid), pods[i], Multiplicity(pods[i], uuid));
  }

  /** One more pod. */
  lemma MatchingStep(pods: seq<Pod>, uuid: string, i: nat)
    requires i < |pods|
    ensures var before, after, times := Matching(pods[..i], uuid), Matching(pods[..i + 1], uuid),
            Multiplicity(pods[i], uuid);
            && |after| == |before| + times
            && EntriesOf(after) == EntriesOf(before) + EntriesOf(Repeat(pods[i], times))
            && (Fits(after) <==> Fits(before) && |before| + times <= SLOTS && (times == 0 || Started(pods[i])))
  {
    assert pods[..i + 1][..i] == pods[..i];
    EntriesConcat(Matching(pods[..i], uuid), Repeat(pods[i], Multiplicity(pods[i], uuid)));
    FitsStep(pods, uuid, i);
  }

  lemma EntriesConcat(a: seq<Pod>, b: seq<Pod>)
    ensures EntriesOf(a + b) == EntriesOf(a) + EntriesOf(b)
  {
  }

  lemma StartedConcat(a: seq<Pod>, pod: Pod, times: nat)
    ensures AllStarted(a + Repeat(pod, times)) <==> AllStarted(a) && (times == 0 || Started(pod))
  {
    var all := a + Repeat(pod, times);
    assert forall i :: 0 <= i < |a| ==> all[i] == a[i];
    assert times > 0 ==> all[|a|] == pod;
  }

  /** One match of the second pass; false stands for a panic. */
  method FillSlot(pod: Pod, gpumpsmap: array<GpuMpsMap>, next: nat) returns (ok: bool)
    modifies gpumpsmap
    ensures ok <==> && next < gpumpsmap.Length && pod.containers != []
                    && pod.statuses != [] && pod.statuses[0].running
    ensures ok ==> gpumpsmap[..]
                   == old(gpumpsmap[..])[next := GpuMpsMap(pod.uid, pod.containers[0], pod.name,
                                                           pod.statuses[0].containerId)]
  {
    ok := next < gpumpsmap.Length && Started(pod);
    if ok {
      gpumpsmap[next] := Entry(pod);
    }
  }

  /** One pod of the second pass, from slot n on. */
  method FillPod(pod: Pod, uuid: string, gpumpsmap: array<GpuMpsMap>, n: nat) returns (m: Option<nat>)
    requires gpumpsmap.Length == SLOTS && n <= SLOTS
    modifies gpumpsmap
    ensures m.Some? <==> n + Multiplicity(pod, uuid) <= SLOTS && (Multiplicity(pod, uuid) == 0 || Started(pod))
    ensures m.Some? ==> m.value == n + Multiplicity(pod, uuid)
                        && gpumpsmap[..m.value] == old(gpumpsmap[..n]) + EntriesOf(Repeat(pod, Multiplicity(pod, uuid)))
  {
    var annotationUuid := Split(pod.annotation, ',');
    if |annotationUuid| > 1 {
      m := FillPieces(annotationUuid, pod, uuid, gpumpsmap, n);
      if m.None? {
        return;
      }
    } else {
      WholeAnnotation(pod, uuid);
      m := Some(n);
      if pod.annotation == uuid {
        var ok := FillSlot(pod, gpumpsmap, n);
        if !ok {
          return None;
        }
        m := Some(n + 1);
      }
    }
    Filled(gpumpsmap[..], pod, n, Multiplicity(pod, uuid));
  }

  /** The loop over the pieces of an annotation. */
  method FillPieces(pieces: seq<string>, pod: Pod, uuid: string, gpumpsmap: array<GpuMpsMap>, n: nat)
      returns (m: Option<nat>)
    requires gpumpsmap.Length == SLOTS && n <= SLOTS
    modifies gpumpsmap
    ensures m.Some? <==> n + Count(pieces, uuid) <= SLOTS && (Count(pieces, uuid) == 0 || Started(pod))
    ensures m.Some? ==> m.value == n + Count(pieces, uuid) && gpumpsmap[..n] == old(gpumpsmap[..n])
    ensures m.Some? ==> forall k :: n <= k < m.value ==> gpumpsmap[k] == Entry(pod)
  {
    var next := n;
    for j := 0 to |pieces|
      invariant next == n + Count(pieces[..j], uuid) <= SLOTS && (next == n || Started(pod))
      invariant gpumpsmap[..n] == old(gpumpsmap[..n]) && forall k :: n <= k < next ==> gpumpsmap[k] == Entry(pod)
    {
      CountStep(pieces, uuid, j);
      if pieces[j] == uuid {
        var ok := FillSlot(pod, gpumpsmap, next);
        if !ok {
          return None;
        }
        next := next + 1;
      }
    }
    assert pieces[..|pieces|] == pieces;
    m := Some(next);
  }

  /** Slots n onwards that all hold the entry of one pod. */
  lemma Filled(slots: seq<GpuMpsMap>, pod: Pod, n: nat, times: nat)
    requires n + times <= |slots| && forall k :: n <= k < n + times ==> slots[k] == Entry(pod)
    ensures slots[..n + times] == slots[..n] + EntriesOf(Repeat(pod, times))
  {
    var filled := EntriesOf(Repeat(pod, times));
    assert |filled| == times && forall k :: 0 <= k < times ==> filled[k] == Entry(pod);
    assert slots[n..n + times] == filled;
    assert slots[..n + times] == slots[..n] + slots[n..n + times];
  }

  /** One more piece of the annotation; the pieces seen so far count no more than all of them. */
  lemma CountStep(s: seq<string>, x: string, j: nat)
    requires j < |s|
    ensures Count(s[..j + 1], x) == Count(s[..j], x) + (if s[j] == x then 1 else 0)
    ensures Count(s[..j + 1], x) <= Count(s, x)
  {
    assert s[..j + 1][..j] == s[..j];
    CountMonotone(s, x, j + 1);
  }

  lemma {:induction false} FitsPrefix(pods: seq<Pod>, uuid: string, i: nat)
    requires i <= |pods|
    ensures Fits(Matching(pods, uuid)) ==> Fits(Matching(pods[..i], uuid))
    decreases |pods| - i
  {
    if i < |pods| {
      FitsStep(pods, uuid, i);
      FitsPrefix(pods, uuid, i + 1);
    } else {
      assert pods[..i] == pods;
    }
  }

  lemma {:induction false} CountMonotone(s: seq<string>, x: string, j: nat)
    requires j <= |s|
    ensures Count(s[..j], x) <= Count(s, x)
    decreases |s| - j
  {
    if j < |s| {
      assert s[..j + 1][..j] == s[..j];
      CountMonotone(s, x, j + 1);
    } else {
      assert s[..j] == s;
    }
  }

  // ----- polling

  predicate Pollable(polls: seq<Poll>) { |polls| == 20 }

  /** Pods and processes agree in number. */
  predicate Agreed(poll: Poll, uuid: string) {
    Readable(poll.procs) && |Matching(poll.pods, uuid)| == CountedProcesses(poll.procs)
  }

  /** A round that ends the polling: by agreement, or by an index panic in the process scan. */
  predicate Ends(poll: Poll, uuid: string) { Agreed(poll, uuid) || !Readable(poll.procs) }

  /** The round the polling ends with: the first that ends it, or else the last. */
  ghost function FinalRound(polls: seq<Poll>, uuid: string): (i: nat)
    requires Pollable(polls)
    ensures i < |polls|
    ensures forall j :: 0 <= j < i ==> !Ends(polls[j], uuid)
    ensures i < 19 ==> Ends(polls[i], uuid)
  {
    FirstEnding(polls, uuid, 0)
  }

  ghost function FirstEnding(polls: seq<Poll>, uuid: string, from: nat): (i: nat)
    requires Pollable(polls) && from < |polls|
    ensures from <= i < |polls|
    ensures forall j :: from <= j < i ==> !Ends(polls[j], uuid)
    ensures i < 19 ==> Ends(polls[i], uuid)
    decreases |polls| - from
  {
    if Ends(polls[from], uuid) || from == |polls| - 1 then from else FirstEnding(polls, uuid, from + 1)
  }

  /** The pods counted in the end. Their number is 0 or the number of processes counted in the same round. */
  ghost function FinalPods(polls: seq<Poll>, uuid: string): (r: seq<Pod>)
    requires Pollable(polls)
    ensures var last := polls[FinalRound(polls, uuid)];
            |r| == 0 || (Agreed(last, uuid) && |r| == CountedProcesses(last.procs))
  {
    var last := polls[FinalRound(polls, uuid)];
    if Agreed(last, uuid) then Matching(last.pods, uuid) else []
  }

  ghost function FinalEntries(polls: seq<Poll>, uuid: string): (r: seq<GpuMpsMap>)
    requires Pollable(polls)
    ensures var last := polls[FinalRound(polls, uuid)];
            |r| == 0 || (Agreed(last, uuid) && |r| == CountedProcesses(last.procs))
  {
    EntriesOf(FinalPods(polls, uuid))
  }

  lemma FinalRoundIs(polls: seq<Poll>, uuid: string, i: nat)
    requires Pollable(polls) && i < |polls|
    requires forall j :: 0 <= j < i ==> !Ends(polls[j], uuid)
    requires Ends(polls[i], uuid) || i == ROUNDS - 1
    ensures FinalRound(polls, uuid) == i
  {
  }

  /** In terms of what each round sees: before the last round taken, all scans were readable and all counts differed; if
      it is not the twentieth, its scan panicked or its counts agree. */
  lemma FinalRoundMeans(polls: seq<Poll>, uuid: string)
    requires Pollable(polls)
    ensures var i := FinalRound(polls, uuid);
            && i < 20
            && (forall j :: 0 <= j < i ==>
                    (Readable(polls[j].procs) && |Matching(polls[j].pods, uuid)| != CountedProcesses(polls[j].procs)))
            && (i < 19 && Readable(polls[i].procs)
                ==> |Matching(polls[i].pods, uuid)| == CountedProcesses(polls[i].procs))
    ensures var last := polls[FinalRound(polls, uuid)];
            FinalPods(polls, uuid)
              == if Readable(last.procs) && |Matching(last.pods, uuid)| == CountedProcesses(last.procs)
                 then Matching(last.pods, uuid) else []
  {
    var i := FinalRound(polls, uuid);
    forall j | 0 <= j < i
      ensures Readable(polls[j].procs) && |Matching(polls[j].pods, uuid)| != CountedProcesses(polls[j].procs)
    {
      assert !Ends(polls[j], uuid);
    }
  }

  /** The three lists of a process scan. */
  ghost predicate Holds(mps: ProcessInfo, procs: seq<Process>)
    reads mps
  {
    Readable(procs) && mps.nvmlprocess == procs && mps.name == Names(procs) && mps.containerId == AllEntries(procs)
  }

  /** The counts of one round. */
  method CountBoth(poll: Poll, uuid: string, mps: ProcessInfo) returns (mpscount: Option<nat>, podnum: nat)
    modifies mps
    ensures mpscount.Some? <==> Readable(poll.procs)
    ensures mpscount.Some? ==> Holds(mps, poll.procs) && mpscount.value == CountedProcesses(poll.procs)
    ensures podnum == |Matching(poll.pods, uuid)|
  {
    mpscount := mps.GetGpuProcess(poll.procs);
    podnum := CountPods(poll.pods, uuid);
  }

  /** What is left of a round that ended the polling. */
  ghost predicate Retained(last: Poll, uuid: string, mps: ProcessInfo, runpodlist: Option<seq<Pod>>)
    reads mps
  {
    && (runpodlist.Some? <==> Readable(last.procs))
    && (runpodlist.Some? ==> Holds(mps, last.procs))
    && (runpodlist.Some?
        ==> Matching(runpodlist.value, uuid) == if Agreed(last, uuid) then Matching(last.pods, uuid) else [])
  }

  /** One round: whether it ends the polling, and the pod list kept from it. */
  method PollOnce(poll: Poll, uuid: string, mps: ProcessInfo) returns (ended: bool, runpodlist: Option<seq<Pod>>)
    modifies mps
    ensures ended <==> Ends(poll, uuid)
    ensures Retained(poll, uuid, mps, runpodlist)
    ensures !ended ==> runpodlist == Some([])
  {
    var mpscount, podnum := CountBoth(poll, uuid, mps);
    if mpscount.None? {
      return true, None;
    }
    if podnum == mpscount.value && podnum != 0 {
      return true, Some(poll.pods);
    } else if podnum == 0 && mpscount.value == 0 {
      return true, Some([]);
    }
    return false, Some([]);
  }

  /** The process list is that of the last round taken; the pod list is kept only from a round that agreed. None
      stands for an index panic in the process scan. */
  method PollUntilAgreed(polls: seq<Poll>, uuid: string, mps: ProcessInfo) returns (runpodlist: Option<seq<Pod>>)
    requires Pollable(polls)
    modifies mps
    ensures Retained(polls[FinalRound(polls, uuid)], uuid, mps, runpodlist)
  {
    var loopnum := 0;
    while true
      invariant loopnum < ROUNDS
      invariant forall j :: 0 <= j < loopnum ==> !Ends(polls[j], uuid)
      decreases ROUNDS - loopnum
    {
      var ended;
      ended, runpodlist := PollOnce(polls[loopnum], uuid, mps);
      if ended || loopnum == ROUNDS - 1 {
        FinalRoundIs(polls, uuid, loopnum);
        return;
      }
      loopnum := loopnum + 1;
    }
  }

  // ----- the join

  /** The first non-empty entry of the container list that equals the id. */
  function FirstMatch(ids: seq<string>, id: string): (r: Option<nat>)
    ensures r.Some? ==> r.value < |ids| && ids[r.value] == id && ids[r.value] != "" && id !in ids[..r.value]
    ensures r.None? <==> id == "" || id !in ids
  {
    if ids == [] || id == "" then None
    else if ids[0] == id then Some(0)
    else
      var rest := FirstMatch(ids[1..], id);
      if rest.Some? then Some(rest.value + 1) else None
  }

  /** The container id proper: what follows the two slashes. */
  function ShortId(entry: GpuMpsMap): Option<string> {
    var parts := Split(entry.containerId, '/');
    if |parts| > 2 then Some(parts[2]) else None
  }

  /** The id of a status <runtime>://<id>. */
  lemma IdOfStatus(entry: GpuMpsMap, runtime: string, id: string)
    requires '/' !in runtime && '/' !in id && entry.containerId == runtime + "://" + id
    ensures ShortId(entry) == Some(id)
  {
    var pieces := [runtime + ":", "", id];
    assert Join(pieces, '/') == runtime + "://" + id by {
      assert pieces[1..] == ["", id] && ["", id][1..] == [id];
      assert Join(["", id], '/') == "/" + id;
      assert runtime + ":" + "/" + ("/" + id) == runtime + "://" + id;
    }
    JoinSplit(pieces, '/');
  }

  ghost predicate IsLastNamed(pods: seq<Decode.PodMetricsPoint>, name: string, j: int) {
    0 <= j < |pods| && pods[j].name == name && forall m :: j < m < |pods| ==> pods[m].name != name
  }

  /** Of the measurements under a pod name, the last one. */
  function LastNamed(pods: seq<Decode.PodMetricsPoint>, name: string): (r: Option<Decode.MetricsPoint>)
    ensures r.None? <==> forall j :: 0 <= j < |pods| ==> pods[j].name != name
    ensures r.Some? ==> exists j :: IsLastNamed(pods, name, j) && r == Some(pods[j].point)
  {
    if pods == [] then None
    else if pods[|pods| - 1].name == name then
      assert IsLastNamed(pods, name, |pods| - 1);
      Some(pods[|pods| - 1].point)
    else
      var front := LastNamed(pods[..|pods| - 1], name);
      assert forall j :: IsLastNamed(pods[..|pods| - 1], name, j) ==> IsLastNamed(pods, name, j);
      front
  }

  /** What the join records for one pod, if it finds its process in the lists and a batch to copy from. */
  function Joined(
    entry: GpuMpsMap, procs: seq<Process>, ids: seq<string>, data: seq<Decode.MetricsBatch>
  ): Option<PodMetric> {
    var id := ShortId(entry);
    if id.None? || data == [] then None
    else
      var k := FirstMatch(ids, id.value);
      if k.None? || k.value >= |procs| then None else Some(MetricOf(entry, procs[k.value], id.value, data[0].pods))
  }

  /** A pod is joined exactly when there is a batch, its status has an id behind two slashes, this is not empty, and its
      first position in the container list is one of the process list. */
  lemma JoinedIff(entry: GpuMpsMap, procs: seq<Process>, ids: seq<string>, data: seq<Decode.MetricsBatch>)
    ensures var parts := Split(entry.containerId, '/');
            Joined(entry, procs, ids, data).Some?
            <==> && data != [] && |parts| > 2 && parts[2] != ""
                 && exists k :: 0 <= k < |ids| && k < |procs| && ids[k] == parts[2] && parts[2] !in ids[..k]
  {
    var parts := Split(entry.containerId, '/');
    if |parts| > 2 && parts[2] != "" {
      forall k | 0 <= k < |ids| && ids[k] == parts[2] && parts[2] !in ids[..k]
        ensures FirstMatch(ids, parts[2]) == Some(k)
      {
        FirstMatchAt(ids, k);
      }
    }
  }

  /** The data of one pod and one process. */
  function MetricOf(entry: GpuMpsMap, p: Process, id: string, pods: seq<Decode.PodMetricsPoint>): PodMetric {
    PodMetric(entry.uid, entry.pod, p.name, p.pid, p.usedGpuMemory, id, LastNamed(pods, entry.pod))
  }

  ghost predicate AllJoined(
    entries: seq<GpuMpsMap>, procs: seq<Process>, ids: seq<string>, data: seq<Decode.MetricsBatch>
  ) {
    forall i :: 0 <= i < |entries| ==> Joined(entries[i], procs, ids, data).Some?
  }

  /** `pods` is what joining exactly these entries yields. */
  ghost predicate JoinedTo(
    entries: seq<GpuMpsMap>, procs: seq<Process>, ids: seq<string>, data: seq<Decode.MetricsBatch>, pods: seq<PodMetric>
  ) {
    |pods| == |entries| && forall i :: 0 <= i < |entries| ==> Joined(entries[i], procs, ids, data) == Some(pods[i])
  }

  function PointOf(uuid: string, m: PodMetric): Point {
    Point(uuid, m.processName, m.podGpuMemory, m.podPid, m.podName, m.podUid, m.usage)
  }

  function PointsOf(uuid: string, pods: seq<PodMetric>): (r: seq<Point>)
    ensures |r| == |pods| && forall i :: 0 <= i < |r| ==> r[i] == PointOf(uuid, pods[i])
  {
    if pods == [] then [] else PointsOf(uuid, pods[..|pods| - 1]) + [PointOf(uuid, pods[|pods| - 1])]
  }

  function ContainersOf(pods: seq<PodMetric>): (r: seq<string>)
    ensures |r| == |pods| && forall i :: 0 <= i < |r| ==> r[i] == pods[i].containerId
  {
    if pods == [] then [] else ContainersOf(pods[..|pods| - 1]) + [pods[|pods| - 1].containerId]
  }

  /** The state kept for one GPU: the GPUPod list and counters of GrpcGPU, and its podmap. */
  class Gpu {
    var gpuPod: seq<PodMetric>
    var gpuAssignment: int
    var gpuReturn: int
    var podmap: seq<PodGpu>

    constructor ()
      ensures gpuPod == [] && gpuAssignment == 0 && gpuReturn == 0 && podmap == []
    {
      gpuPod, gpuAssignment, gpuReturn, podmap := [], 0, 0, [];
    }

    /** The ledger and its counters are those after one tick with the joined containers. */
    ghost predicate Ticked(before: Account)
      reads this
    {
      Account(podmap, gpuAssignment, gpuReturn) == TickAccount(before, ContainersOf(gpuPod))
    }

    /** The loop that copies the measurements of the pod with the same name. */
    method CopyUsage(i: nat, pods: seq<Decode.PodMetricsPoint>)
      requires i < |gpuPod| && gpuPod[i].usage == None
      modifies this`gpuPod
      ensures gpuPod == old(gpuPod)[i := old(gpuPod)[i].(usage := LastNamed(pods, old(gpuPod)[i].podName))]
    {
      for j := 0 to |pods|
        invariant gpuPod == old(gpuPod)[i := old(gpuPod)[i].(usage := LastNamed(pods[..j], old(gpuPod)[i].podName))]
      {
        assert pods[..j + 1][..j] == pods[..j];
        if gpuPod[i].podName == pods[j].name {
          gpuPod := gpuPod[i := gpuPod[i].(usage := Some(pods[j].point))];
        }
      }
      assert pods[..|pods|] == pods;
    }

    /** The inner loop over the container list for pod i. The element appended lands at index i only while every
        earlier pod has been joined; false stands for an index panic. */
    method JoinPod(i: nat, entry: GpuMpsMap, mps: ProcessInfo, data: seq<Decode.MetricsBatch>) returns (ok: bool)
      requires |gpuPod| <= i && mps.name == Names(mps.nvmlprocess)
      modifies this`gpuPod
      ensures var joined := Joined(entry, mps.nvmlprocess, mps.containerId, data);
              && (joined.Some? && |old(gpuPod)| == i ==> ok && gpuPod == old(gpuPod) + [joined.value])
              && (joined.Some? && |old(gpuPod)| < i ==> !ok)
              && (joined.None? && ok ==> gpuPod == old(gpuPod))
    {
      ok := true;
      for k := 0 to |mps.containerId|
        invariant ok && gpuPod == old(gpuPod)
        invariant ShortId(entry).Some? ==> ShortId(entry).value == "" || ShortId(entry).value !in mps.containerId[..k]
        invariant ShortId(entry).None? ==> forall j :: 0 <= j < k ==> mps.containerId[j] == ""
      {
        if mps.containerId[k] == "" {
          continue;
        }
        var parts := Split(entry.containerId, '/');
        if |parts| <= 2 {
          return false;
        }
        if mps.containerId[k] == parts[2] {
          FirstMatchAt(mps.containerId, k);
          ok := Record(i, k, entry, mps, data, parts[2]);
          return;
        }
      }
    }

    /** The body of the match: every field of the new element is written at index i. */
    method Record(i: nat, k: nat, entry: GpuMpsMap, mps: ProcessInfo, data: seq<Decode.MetricsBatch>,
        containerid: string)
        returns (ok: bool)
      requires |gpuPod| <= i && mps.name == Names(mps.nvmlprocess)
      modifies this`gpuPod
      ensures ok <==> |old(gpuPod)| == i && k < |mps.nvmlprocess| && data != []
      ensures ok ==> gpuPod == old(gpuPod) + [MetricOf(entry, mps.nvmlprocess[k], containerid, data[0].pods)]
    {
      gpuPod := gpuPod + [PodMetric("", "", "", 0, 0, "", None)];
      if i >= |gpuPod| || k >= |mps.nvmlprocess| {
        return false;
      }
      gpuPod := gpuPod[i := gpuPod[i].(podGpuMemory := mps.nvmlprocess[k].usedGpuMemory)];
      gpuPod := gpuPod[i := gpuPod[i].(podPid := mps.nvmlprocess[k].pid)];
      gpuPod := gpuPod[i := gpuPod[i].(podName := entry.pod)];
      gpuPod := gpuPod[i := gpuPod[i].(processName := mps.name[k])];
      gpuPod := gpuPod[i := gpuPod[i].(podUid := entry.uid)];
      gpuPod := gpuPod[i := gpuPod[i].(containerId := containerid)];
      if |data| == 0 {
        return false;
      }
      CopyUsage(i, data[0].pods);
      ok := true;
    }

    /** The positional join, from an empty list. It completes for certain when every pod has a process; when some
        pod has none it either runs into a panic or leaves the list too short for the write loop that follows. */
    method JoinAll(entries: seq<GpuMpsMap>, mps: ProcessInfo, data: seq<Decode.MetricsBatch>) returns (ok: bool)
      requires gpuPod == [] && mps.name == Names(mps.nvmlprocess)
      modifies this`gpuPod
      ensures var procs, ids := mps.nvmlprocess, mps.containerId;
              && (AllJoined(entries, procs, ids, data) ==> ok && JoinedTo(entries, procs, ids, data, gpuPod))
              && (!AllJoined(entries, procs, ids, data) ==> !ok || |gpuPod| < |entries|)
    {
      ok := true;
      for i := 0 to |entries|
        invariant ok && |gpuPod| <= i
        invariant |gpuPod| == i ==> JoinedTo(entries[..i], mps.nvmlprocess, mps.containerId, data, gpuPod)
        invariant |gpuPod| < i ==> !AllJoined(entries, mps.nvmlprocess, mps.containerId, data)
      {
        ok := JoinPod(i, entries[i], mps, data);
        if !ok {
          return;
        }
      }
      assert entries[..|entries|] == entries;
    }

    /** The ledger part: clear, mark or add, and count the returned. */
    method UpdateLedger()
      modifies this
      ensures gpuPod == old(gpuPod)
      ensures Ticked(Account(old(podmap), old(gpuAssignment), old(gpuReturn)))
    {
      ClearRunning();
      MarkPods();
      CountReturned();
    }

    method ClearRunning()
      modifies this`podmap
      ensures podmap == Cleared(old(podmap))
    {
      for i := 0 to |podmap|
        invariant |podmap| == |old(podmap)|
        invariant forall j :: 0 <= j < i ==> podmap[j] == old(podmap)[j].(runningCheck := false)
        invariant forall j :: i <= j < |podmap| ==> podmap[j] == old(podmap)[j]
      {
        podmap := podmap[i := podmap[i].(runningCheck := false)];
      }
    }

    method CountReturned()
      modifies this`gpuReturn
      ensures gpuReturn == old(gpuReturn) + Returned(podmap)
    {
      for i := 0 to |podmap|
        invariant gpuReturn == old(gpuReturn) + Returned(podmap[..i])
      {
        assert podmap[..i + 1][..i] == podmap[..i];
        if !podmap[i].runningCheck {
          if podmap[i].healthCheck {
            gpuReturn := gpuReturn + 1;
          }
        }
      }
      assert podmap[..|podmap|] == podmap;
    }

    /** The middle loop: find each joined container, or append it and count an assignment. */
    method MarkPods()
      modifies this`podmap, this`gpuAssignment
      ensures podmap == MarkAll(old(podmap), ContainersOf(gpuPod))
      ensures gpuAssignment == old(gpuAssignment) + |podmap| - |old(podmap)|
    {
      ghost var ids := ContainersOf(gpuPod);
      for i := 0 to |gpuPod|
        invariant podmap == MarkAll(old(podmap), ids[..i])
        invariant gpuAssignment == old(gpuAssignment) + |podmap| - |old(podmap)|
      {
        assert ids[..i + 1][..i] == ids[..i];
        var newflag := true;
        ghost var before := podmap;
        for j := 0 to |podmap|
          invariant newflag && podmap == before
          invariant forall m :: 0 <= m < j ==> podmap[m].containerId != gpuPod[i].containerId
        {
          if gpuPod[i].containerId == podmap[j].containerId {
            podmap := podmap[j := podmap[j].(runningCheck := true)];
            newflag := false;
            break;
          }
        }
        if newflag {
          gpuAssignment := gpuAssignment + 1;
          podmap := podmap + [PodGpu(gpuPod[i].containerId, false, false)];
        }
      }
      assert ids[..|ids|] == ids;
    }

    /** Join, ledger and write loop for the counted pods, from an empty list: all indexes stay in range exactly
        when every pod finds its process, and then a point is written for each of them. */
    method JoinAndRecord(entries: seq<GpuMpsMap>, mps: ProcessInfo, data: seq<Decode.MetricsBatch>, uuid: string)
        returns (ok: bool, points: seq<Point>)
      requires gpuPod == [] && mps.name == Names(mps.nvmlprocess)
      modifies this
      ensures ok <==> AllJoined(entries, mps.nvmlprocess, mps.containerId, data)
      ensures ok ==> JoinedTo(entries, mps.nvmlprocess, mps.containerId, data, gpuPod)
      ensures ok ==> points == PointsOf(uuid, gpuPod)
      ensures ok ==> Ticked(Account(old(podmap), old(gpuAssignment), old(gpuReturn)))
    {
      points := [];
      ok := JoinAll(entries, mps, data);
      if !ok {
        return;
      }
      UpdateLedger();
      ok, points := WritePoints(|entries|, uuid);
      assert gpuPod[..|gpuPod|] == gpuPod;
    }

    /** One tick for this GPU; None stands for an index panic or nil dereference. It returns a number exactly when
        the last scan was readable, at most 48 matches were counted, all of them started, and each of them has its
        process in the lists and a batch to copy from. */
    method Gpumpsmetric(data: seq<Decode.MetricsBatch>, polls: seq<Poll>, uuid: string)
        returns (podnum: Option<nat>, points: seq<Point>)
      requires Pollable(polls)
      modifies this
      ensures var procs, entries := polls[FinalRound(polls, uuid)].procs, FinalEntries(polls, uuid);
              && (podnum.Some? <==> && Readable(procs) && Fits(FinalPods(polls, uuid))
                                    && AllJoined(entries, procs, AllEntries(procs), data))
              && (podnum.Some?
                  ==> && podnum.value == |entries| && JoinedTo(entries, procs, AllEntries(procs), data, gpuPod)
                                   && points == PointsOf(uuid, gpuPod))
      ensures podnum.Some? ==> Ticked(Account(old(podmap), old(gpuAssignment), old(gpuReturn)))
    {
      gpuPod, points := [], [];
      var blank := GpuMpsMap("", "", "", "");
      var gpumpsmap := new GpuMpsMap[SLOTS](_ => blank);
      var mps := new ProcessInfo();
      var runpodlist := PollUntilAgreed(polls, uuid, mps);
      if runpodlist.None? {
        podnum := None;
        return;
      }
      podnum := FillMap(runpodlist.value, uuid, gpumpsmap);
      if podnum.None? {
        return;
      }
      var ok;
      ok, points := JoinAndRecord(gpumpsmap[..podnum.value], mps, data, uuid);
      if !ok {
        podnum := None;
      }
    }

    /** The write loop reads GPUPod[i] for every counted pod and writes a point for it. */
    method WritePoints(podnum: nat, uuid: string) returns (ok: bool, points: seq<Point>)
      ensures ok <==> podnum <= |gpuPod|
      ensures points == PointsOf(uuid, gpuPod[..if podnum <= |gpuPod| then podnum else |gpuPod|])
    {
      points := [];
      for i := 0 to podnum
        invariant i <= |gpuPod| && points == PointsOf(uuid, gpuPod[..i])
      {
        if i >= |gpuPod| {
          return false, points;
        }
        assert gpuPod[..i + 1][..i] == gpuPod[..i];
        points := points + [PointOf(uuid, gpuPod[i])];
      }
      ok := true;
    }
  }

  // ----- what a written point carries

  /** After a tick that completed with these elements, the i-th point written carries the GPU's UUID, the name and uid
      of the i-th counted pod itself, and name, memory and pid of the process k at the first position of the pod's
      container in the list; its usage is the last measurement under the pod's name in the first batch. */
  lemma WrittenPoint(
    data: seq<Decode.MetricsBatch>, polls: seq<Poll>, uuid: string, pods: seq<PodMetric>, i: nat
  ) returns (k: nat)
    requires Pollable(polls) && Readable(polls[FinalRound(polls, uuid)].procs)
    requires i < |pods| && Fits(FinalPods(polls, uuid))
    requires var procs := polls[FinalRound(polls, uuid)].procs;
             JoinedTo(FinalEntries(polls, uuid), procs, AllEntries(procs), data, pods)
    ensures var procs := polls[FinalRound(polls, uuid)].procs;
            && |FinalPods(polls, uuid)| == |pods| && data != []
            && k < |procs| && k < |AllEntries(procs)|
            && var pod, point := FinalPods(polls, uuid)[i], PointsOf(uuid, pods)[i];
               && pod.statuses != []
               && var parts, ids := Split(pod.statuses[0].containerId, '/'), AllEntries(procs);
                  && |parts| > 2 && ids[k] == parts[2] != "" && (forall m :: 0 <= m < k ==> ids[m] != ids[k])
                  && point.uuid == uuid && point.pod == pod.name && point.uid == pod.uid
                  && point.process == procs[k].name && point.memory == procs[k].usedGpuMemory
                  && point.pid == procs[k].pid
                  && UsageIs(data[0].pods, pod.name, point.usage)
  {
    var procs, pod := polls[FinalRound(polls, uuid)].procs, FinalPods(polls, uuid)[i];
    var entry := FinalEntries(polls, uuid)[i];
    assert Started(pod) && entry == Entry(pod);
    assert Joined(entry, procs, AllEntries(procs), data) == Some(pods[i]);
    k := FirstMatch(AllEntries(procs), ShortId(entry).value).value;
  }

  /** The last measurement under a name, or none when there is none under it. */
  ghost predicate UsageIs(pods: seq<Decode.PodMetricsPoint>, name: string, usage: Option<Decode.MetricsPoint>) {
    && (usage.None? <==> forall j :: 0 <= j < |pods| ==> pods[j].name != name)
    && (usage.Some? ==> exists j :: IsLastNamed(pods, name, j) && usage == Some(pods[j].point))
  }

  lemma FirstMatchAt(ids: seq<string>, k: nat)
    requires k < |ids| && ids[k] != "" && ids[k] !in ids[..k]
    ensures FirstMatch(ids, ids[k]) == Some(k)
  {
  }
}
