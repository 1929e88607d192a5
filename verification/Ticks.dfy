/** The collection loop of cmd/main.go as one GPU sees it: a tick of gpumpsmetric/gpumpsmetric.go after another, on
    the same GPU record and podmap. */
module Ticks {
  import opened Wrappers
  import opened Processes
  import opened Ledger
  import opened MpsJoin
  import opened Pigeonhole
  import Decode

  /** What one tick is given: the collected batches and the rounds of polling. */
  datatype Input = Input(data: seq<Decode.MetricsBatch>, polls: seq<Poll>)

  /** A tick runs to its end: a batch, a readable scan, at most 48 matches, and each counted pod is running and has its
      process. */
  ghost predicate Completes(tick: Input, uuid: string)
    requires Pollable(tick.polls)
  {
    var procs, entries := tick.polls[FinalRound(tick.polls, uuid)].procs, FinalEntries(tick.polls, uuid);
    && tick.data != [] && Readable(procs) && Fits(FinalPods(tick.polls, uuid))
    && AllJoined(entries, procs, AllEntries(procs), tick.data)
  }

  /** The container ids of counted pods. */
  ghost function IdsOf(entries: seq<GpuMpsMap>): (r: seq<string>)
    ensures |r| == |entries|
    ensures forall i :: 0 <= i < |r| ==> r[i] == if ShortId(entries[i]).Some? then ShortId(entries[i]).value else ""
  {
    if entries == [] then []
    else
      var id := ShortId(entries[|entries| - 1]);
      IdsOf(entries[..|entries| - 1]) + [if id.Some? then id.value else ""]
  }

  /** A joined list carries the containers of its entries. */
  lemma JoinedContainers(entries: seq<GpuMpsMap>, procs: seq<Process>, ids: seq<string>, data: seq<Decode.MetricsBatch>,
                         pods: seq<PodMetric>)
    requires JoinedTo(entries, procs, ids, data, pods)
    ensures ContainersOf(pods) == IdsOf(entries)
  {
  }

  /** The containers joined in a tick, or None for a panic. */
  ghost function Outcome(tick: Input, uuid: string): Option<seq<string>>
    requires Pollable(tick.polls)
  {
    if Completes(tick, uuid) then Some(IdsOf(FinalEntries(tick.polls, uuid))) else None
  }

  ghost predicate AllPollable(ticks: seq<Input>) { forall t :: 0 <= t < |ticks| ==> Pollable(ticks[t].polls) }

  ghost function Outcomes(ticks: seq<Input>, uuid: string): (r: seq<Option<seq<string>>>)
    requires AllPollable(ticks)
    ensures |r| == |ticks| && forall t :: 0 <= t < |r| ==> r[t] == Outcome(ticks[t], uuid)
  {
    seq(|ticks|, t requires 0 <= t < |ticks| => Outcome(ticks[t], uuid))
  }

  lemma OutcomeAt(ticks: seq<Input>, uuid: string, t: nat)
    requires AllPollable(ticks) && t < |ticks|
    ensures Pollable(ticks[t].polls) && Outcomes(ticks, uuid)[t] == Outcome(ticks[t], uuid)
  {
  }

  /** One round of the collection loop: it reads the first batch, and then the tick reads it too. */
  method OneTick(gpu: Gpu, tick: Input, uuid: string) returns (ok: bool, points: seq<Point>)
    requires Pollable(tick.polls)
    modifies gpu
    ensures ok <==> Outcome(tick, uuid).Some?
    ensures ok ==> Account(gpu.podmap, gpu.gpuAssignment, gpu.gpuReturn)
                   == TickAccount(old(Account(gpu.podmap, gpu.gpuAssignment, gpu.gpuReturn)), Outcome(tick, uuid).value)
    ensures ok ==> points == PointsOf(uuid, gpu.gpuPod)
  {
    if |tick.data| == 0 {
      return false, [];
    }
    var podnum;
    podnum, points := gpu.Gpumpsmetric(tick.data, tick.polls, uuid);
    ok := podnum.Some?;
    if ok {
      var procs := tick.polls[FinalRound(tick.polls, uuid)].procs;
      JoinedContainers(FinalEntries(tick.polls, uuid), procs, AllEntries(procs), tick.data, gpu.gpuPod);
    }
  }

  /** What the ticks leave behind: each container ever joined is listed once, the assignment counter is the length
      of the list, and the return counter never moves. */
  ghost predicate Balanced(gpu: Gpu, joined: seq<seq<string>>)
    reads gpu
  {
    && Distinct(gpu.podmap) && Known(gpu.podmap) == EverJoined(joined)
    && gpu.gpuAssignment == |gpu.podmap| && gpu.gpuReturn == 0
  }

  ghost predicate NoPanic(outcomes: seq<Option<seq<string>>>, n: nat)
    requires n <= |outcomes|
  {
    forall t :: 0 <= t < n ==> outcomes[t].Some?
  }

  /** All ticks of one GPU up to the first, if any, whose index panic ends the program. */
  method Collect(ticks: seq<Input>, uuid: string) returns (gpu: Gpu, completed: nat)
    requires AllPollable(ticks)
    ensures fresh(gpu) && completed <= |ticks|
    ensures NoPanic(Outcomes(ticks, uuid), completed)
    ensures completed < |ticks| ==> Outcomes(ticks, uuid)[completed].None?
    ensures completed == |ticks| ==> Balanced(gpu, Present(Outcomes(ticks, uuid)))
  {
    gpu := new Gpu();
    ghost var outcomes := Outcomes(ticks, uuid);
    completed := 0;
    while completed < |ticks|
      invariant fresh(gpu) && completed <= |ticks|
      invariant NoPanic(outcomes, completed)
      invariant Account(gpu.podmap, gpu.gpuAssignment, gpu.gpuReturn) == AfterTicks(Present(outcomes[..completed]))
    {
      OutcomeAt(ticks, uuid, completed);
      var ok, points := OneTick(gpu, ticks[completed], uuid);
      if !ok {
        return;
      }
      AfterOneMore(outcomes, completed);
      completed := completed + 1;
    }
    assert outcomes[..|ticks|] == outcomes;
    EveryTick(Present(outcomes));
  }

  lemma AfterOneMore(outcomes: seq<Option<seq<string>>>, t: nat)
    requires t < |outcomes| && outcomes[t].Some?
    ensures NoPanic(outcomes, t) ==> NoPanic(outcomes, t + 1)
    ensures AfterTicks(Present(outcomes[..t + 1])) == TickAccount(AfterTicks(Present(outcomes[..t])), outcomes[t].value)
  {
    PresentPush(outcomes, t);
    AfterPush(Present(outcomes[..t]), outcomes[t].value);
  }

  /** On a node with one process per pod and container, the tick completes and an entry of the ledger is running
      after it exactly if its container was known before the tick and joined in it. */
  lemma RunningAfterTick(podmap: seq<PodGpu>, tick: Input, uuid: string)
    requires Pollable(tick.polls) && Distinct(podmap) && tick.data != []
    requires var polls := tick.polls; var last := polls[FinalRound(polls, uuid)];
             && Fits(FinalPods(polls, uuid)) && Agreed(last, uuid)
             && OnePodPerProcess(FinalEntries(polls, uuid), last.procs)
    ensures Completes(tick, uuid)
    ensures var ids := IdsOf(FinalEntries(tick.polls, uuid));
            forall e :: e in Tick(podmap, ids)
                ==> (e.runningCheck <==> e.containerId in Known(podmap) && e.containerId in ids)
  {
    RunningAfterJoin(podmap, FinalEntries(tick.polls, uuid), tick.polls[FinalRound(tick.polls, uuid)].procs, tick.data);
  }

  lemma RunningAfterJoin(podmap: seq<PodGpu>, entries: seq<GpuMpsMap>, procs: seq<Process>,
      data: seq<Decode.MetricsBatch>)
    requires Distinct(podmap) && OnePodPerProcess(entries, procs) && |entries| == CountedProcesses(procs) && data != []
    ensures AllJoined(entries, procs, AllEntries(procs), data)
    ensures forall e :: e in Tick(podmap, IdsOf(entries))
              ==> (e.runningCheck <==> e.containerId in Known(podmap) && e.containerId in IdsOf(entries))
  {
    EveryPodJoined(entries, procs, data);
    assert IdsOf(entries) == PodIds(entries);
    RunningMeansKnownAndJoined(podmap, IdsOf(entries));
  }
}
