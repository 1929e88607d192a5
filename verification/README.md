# A model of the node metric collector

The collector runs on every GPU node of a Kubernetes cluster. It scrapes the kubelet of each node, decodes the
summaries, maps GPU processes to pods, keeps a ledger of the containers that have used each GPU, watches DCGM policy
violations, judges from stored samples whether a metric is degrading, and serves the current values over gRPC. This
project models its stateful algorithms and protocols and proves what holds in every run of them.

| file | models |
|---|---|
| `Decode.dfy` | one kubelet summary becomes one batch; a compacting loop reuses the slots of pods that failed |
| `Scrape.dfy` | the fan-out of one goroutine per node and the fan-in over two buffered channels, in every interleaving |
| `Strings.dfy`, `Processes.dfy` | splitting of text; the processes on a GPU and the container each runs in |
| `MpsJoin.dfy`, `Pigeonhole.dfy` | polling until pods and processes agree, the positional join, and why it stays in bounds |
| `Ledger.dfy`, `Ticks.dfy` | the container ledger of one GPU over all ticks, as a specification and as it results from the object |
| `Policy.dfy`, `Broadcast.dfy`, `Routing.dfy`, `Serving.dfy` | which policies a registration selects, the publisher, the way of a violation through channels and competing goroutines, and how a registration is served to its end |
| `Trend.dfy`, `Dispersion.dfy` | the trend test and the mean and dispersion loops of the analyzer |
| `CustomMetrics.dfy`, `ReplicaSets.dfy` | network counters turned into differences, in four maps that live as long as the process; what many passes over many replica sets report |
| `Nvlink.dfy`, `StorageDelta.dfy`, `Dcgm.dfy` | lane counting, the delta-encoded storage reply, reference-counted Init and Shutdown |
| `Wrappers.dfy` | Option, and counting in lists |

Concurrent parts are step systems: a state with buffers and program counters, a predicate that says when an
instruction can complete, and a step function. Theorems quantify over every executable schedule. Objects that the
code updates in place are classes whose methods are proved against functions on values; the properties of those
functions are the lemmas. An index panic or nil dereference of the original is an outcome of the model (`None`, or
`ok == false`), and the contracts say when it occurs.

Where the code and what its names or comments promise disagree, the model follows the code:

- `^ 2` in the dispersion loops is exclusive or, not a square; the field depends on the spread of the samples only
  within a small bound (`Dispersion.StDevBounded`, `Dispersion.SpreadIsLost`).
- `GetNodeMetric` adds the storage deviations to the network TX field and leaves the storage field at zero.
- Three of the four initialisers in `customMetrics.go` write the RX map instead of their own; with equal key sets this
  does no harm (`CustomMetrics.InitialisersErase`). A pause of a growing counter reports the last difference again
  (`CustomMetrics.SumIsGrowthIff`), and a pod that matches k replica sets has its growth reported k times
  (`ReplicaSets.GrowthPerReplicaSet`). The call at `cmd/main.go:359` is commented out, so this code does not run now; and
  since `decodeNetwork` is never called, the network readings it would be given are all zero.
- `GetNodeMetric` and `GetGPUMetrics` compare a value decoded from JSON, held in an interface, with an int
  (`analyzer/analysis.go:187` and `analyzer/analysis.go:259`). The two are never equal, so as the code stands both
  functions return before the loops that `Dispersion.NodeStatistics` and `Dispersion.MetricStatistics` model; the loops
  of `GetPodMetric` are reached.
- The NVLink scan compares the index of the peer with the number of the lane, which hides some peers
  (`Nvlink.HiddenPeer`) and lists some pairs never or twice (`Nvlink.PairListed`).
- The join reads three lists in parallel, but the container list has no entry for a process outside the pods. A pod
  gets the data of its own process exactly when the entry of its container stands at the position of that process
  (`Pigeonhole.JoinIsRightIff`, `Pigeonhole.MisalignedJoin`, `Processes.AlignedIffOneEntryEach`).
- Of a systemd scope the text between the first dash and the next dash or dot is taken for the container id. That is the id
  behind a runtime without a dash in its name; behind `cri-containerd-` it is `containerd` (`Processes.DashedRuntime`).
- A DCGM start whose library does not load leaves the stop mode as it was; each stop undoes the start before it exactly
  when every stopped start loaded or repeated the mode last loaded (`Dcgm.StopsMatchStartsIff`).
- A second client of the delta-encoded reply, or a total that returns to zero, is not served; exactly when a call leaves
  its caller with the current total is `StorageDelta.EveryCallIff`.

## Model

| member | source | states |
|---|---|---|
| Decode.Uint64Quantity | decode/decode.go:257-268 | the quantity fits an int64, never exceeds the raw value, loses less than one unit of its own scale, and is exact up to the largest int64 |
| Decode.Earliest | decode/decode.go:210-223 | the earliest of the present non-zero times; none exactly when there is no such time |
| Decode.GetScrapeTimePod | decode/decode.go:205-224 | the timestamp of a pod is the earliest non-zero one of its CPU and memory times |
| Decode.GetScrapeTimeNode | decode/decode.go:225-252 | the same over the four sources of a node |
| Decode.DecodeNodeStats | decode/decode.go:67-96 | the point holds exactly the measurements present, which are those of `MeasuredIs`, one error per missing group; without a time the target is untouched; a nil dereference occurs exactly when a pointer read without a check is nil |
| Decode.DecodePodStats | decode/decode.go:98-132 | whatever a slot held before, a pod with a timestamp leaves in it a function of that pod alone; without one the slot is untouched; no other slot changes; nil dereferences as for nodes |
| Decode.CompactPods | decode/decode.go:45-60 | in spite of dirty slots the first `num` slots are the filter-map of the pods, and the write index stays in bounds; it completes exactly when no pod runs into a nil dereference |
| Decode.CompactStep | decode/decode.go:46-59 | one round keeps the filter-map in the first slots, whether or not the pod decodes |
| Decode.DecodeBatch | decode/decode.go:29-65 | the node with its name, earliest time and statistics, and the complete pods in order, entry k with the name, namespace, earlier time and statistics of the k-th complete pod, field by field; node errors before pod errors |
| Decode.KeptPodsInOrder | decode/decode.go:46-60 | exactly the complete pods are kept, each once, in order, each the decoding of its own statistics |
| Decode.PodErrors | decode/decode.go:101-131 | a pod decodes without error exactly when it has a timestamp, CPU, memory and storage |
| Decode.KeptFields | decode/decode.go:104-158 | every kept pod has all its statistics, and its entry has its name and namespace, the earlier of its two times, and in each field the raw statistic of that name: exact up to the largest int64, else within 9, in its own unit and format; network fields zero |
| Decode.NodeFields | decode/decode.go:69-96 | the same for a node with any of its four times; without one the node of the batch is blank |
| Decode.MeasuredIs | decode/decode.go:134-204 | the three field decoders together: each field stands for the statistic of its own name, an absent one is zero, used bytes absent count as zero bytes |
| Decode.PodOutcome | decode/decode.go:98-132 | in terms of the raw statistics: when a pod is kept, when decoding it runs into a nil dereference, and which errors it reports |
| Decode.NodeOutcome | decode/decode.go:67-96 | the same for a node |
| Decode.PartsMissing | decode/decode.go:85-94 | each group has its error exactly when it, or the pointer it is judged by, is missing; no error twice |
| Decode.PodTimed | decode/decode.go:205-224 | a pod has a timestamp exactly when its CPU or memory time is set, and it is the earlier of those set |
| Decode.NodeTimed | decode/decode.go:225-252 | the same over the four sources of a node |
| Scrape.InitInv | scrap/scrap.go:18-41 | the state before any goroutine has run satisfies the invariant |
| Scrape.StepInv | scrap/scrap.go:25-57 | every instruction of every worker and of the collector keeps the invariant: values sent are buffered, held or kept, and the buffer lengths match the program counters |
| Scrape.StepBatches | scrap/scrap.go:32-53 | batches are conserved by every step, counted value by value |
| Scrape.StepErrors | scrap/scrap.go:33-46 | errors are conserved by every step, the one held between the two receives included |
| Scrape.NeverBlocks | scrap/scrap.go:18-19 | no send blocks or meets a closed channel, and after an error has been received the receive of a batch never blocks |
| Scrape.EnabledIff | scrap/scrap.go:25-57 | from the state alone: a worker can always send its batch and then its error, whatever the others do; the collector can receive an error as soon as one is there, its batch at once, and return after n rounds |
| Scrape.SomethingEnabled | scrap/scrap.go:25-57 | some instruction can complete in every state before the return |
| Scrape.EveryStepCounts | scrap/scrap.go:25-57 | each step lowers the number of remaining sends, receives and returns by exactly one |
| Scrape.StuckIffReturned | scrap/scrap.go:25-62 | a reachable state has no next step exactly when the collector has returned |
| Scrape.ReturnedIsComplete | scrap/scrap.go:42-62 | at the return all workers are finished, both channels are empty, and batches and errors are permutations of all non-nil ones |
| Scrape.EveryRun | scrap/scrap.go:15-63 | every schedule has at most 4n + 1 steps, has returned exactly when it has taken them all, and then lost and doubled nothing |
| Scrape.EveryRunInOrder | scrap/scrap.go:25-57 | in every schedule batches and errors are kept in the order in which they were sent, and the results at the return are what was sent in that order, without the nil ones |
| Scrape.BatchLineStep | scrap/scrap.go:25-57 | kept and buffered batches together change only by a send, at the end |
| Scrape.ErrorLineStep | scrap/scrap.go:25-57 | the same for errors, with the one held between the two receives |
| Scrape.RoundsMayMix | scrap/scrap.go:43-44 | a schedule in which the error and the batch of one round come from different workers |
| Scrape.ExecuteOneMore | scrap/scrap.go:25-57 | a schedule extended by an enabled event is a schedule, and ends one step later |
| Scrape.Advance | scrap/scrap.go:25-57 | any instruction a process is at, other than a receive from the empty error channel, extends a run |
| Scrape.Scrap | scrap/scrap.go:15-63 | under an arbitrary scheduler the function terminates with permutations of the non-nil batches and of the non-nil errors |
| Strings.SplitJoin | gpumpsmetric/gpumpsmetric.go:102 | splitting and joining is the identity, and no piece contains the separator |
| Strings.SplitSingle | gpumpsmetric/gpumpsmetric.go:166-176 | a text that is one piece is that piece |
| Strings.JoinSplit | gpumpsmetric/gpumpsmetric.go:102 | joining pieces without separators and splitting again is the identity: with SplitJoin, texts and lists of pieces correspond one to one |
| Strings.FirstPieceExtends | gpumpsmetric/gpumpsmetric.go:107 | a beginning without separators is the beginning of the first piece |
| Processes.ProcessInfo.ScanCgroup | gpumpsmetric/gpumpsmetric.go:100-123 | one cgroup file appends one empty entry per short line met and then the container id, and counts at most one; it panics exactly when a line met is too short for the indexes used |
| Processes.ProcessInfo.GetGpuProcess | gpumpsmetric/gpumpsmetric.go:88-130 | the three lists of the scan and the number of processes with a usable line, or a panic exactly when one of the scans panics |
| Processes.LineClass | gpumpsmetric/gpumpsmetric.go:102-120 | for every list of pieces: the line panics with one piece, or with four under a kubepods root; it is passed over under any other root, too short with three pieces, and otherwise names its container in the fifth piece |
| Processes.NameBehindDash | gpumpsmetric/gpumpsmetric.go:105-108 | the name taken is what stands between the first dash and the next dash or dot, for every such segment |
| Processes.BareName | gpumpsmetric/gpumpsmetric.go:111-113 | a segment without dashes is the name |
| Processes.DashedRuntime | gpumpsmetric/gpumpsmetric.go:105-108 | a runtime whose name has a dash: the part behind it is taken for the container, so the id is found iff it is that part |
| Processes.LineOfContainer | gpumpsmetric/gpumpsmetric.go:102-113 | end to end: both forms of a container's line, under either root, yield the container's id |
| Processes.ScanPasses | gpumpsmetric/gpumpsmetric.go:101-122 | lines that do not end the scan leave one empty entry for each short one, whatever follows them |
| Processes.ScanYields | gpumpsmetric/gpumpsmetric.go:100-123 | the scan ends at the first usable line, with that line's container as the last entry, and counts the process; without one there are empty entries only |
| Processes.CountedIs | gpumpsmetric/gpumpsmetric.go:92-124 | the number returned is that of the processes with a usable line |
| Processes.AlignedIffOneEntryEach | gpumpsmetric/gpumpsmetric.go:94-126 | entry k of the container list belongs to process k, for all k, exactly when every process contributes one entry |
| MpsJoin.WholeAnnotation | gpumpsmetric/gpumpsmetric.go:166-185 | the branch for an annotation without a comma counts what the other branch would |
| MpsJoin.AnnotationNames | gpumpsmetric/gpumpsmetric.go:165-176 | an annotation of UUIDs joined by commas counts as often as it names the GPU |
| MpsJoin.MatchingConcat | gpumpsmetric/gpumpsmetric.go:164-187 | pods are matched in the order of the list |
| MpsJoin.CountPods | gpumpsmetric/gpumpsmetric.go:164-187 | the first pass counts the multiplicity of the UUID in all annotations |
| MpsJoin.FillPod | gpumpsmetric/gpumpsmetric.go:211-241 | one pod fills as many consecutive slots as it counts, and panics exactly when they exceed 48, or it counts and its first container or first running status is missing |
| MpsJoin.FillMap | gpumpsmetric/gpumpsmetric.go:209-241 | the second pass counts what the first counts, lists the matching pods in order, and panics exactly at the 49th match or at a matching pod that has not started |
| MpsJoin.FillSlot | gpumpsmetric/gpumpsmetric.go:217-223 | one match writes uid, first container, name and first container id of the pod into the next slot; it panics exactly when the slots are used up, or a container or a running first status is missing |
| MpsJoin.FitsIff | gpumpsmetric/gpumpsmetric.go:209-241 | the second pass completes exactly with at most 48 matches, each with a container and a running first status |
| MpsJoin.FinalRound | gpumpsmetric/gpumpsmetric.go:152-199 | polling ends with the first of twenty rounds in which pods and processes agree in number or the scan panics, or else with the last |
| MpsJoin.FinalRoundMeans | gpumpsmetric/gpumpsmetric.go:152-199 | in terms of the counts: the rounds before the last all had readable scans and different counts; the last is the twentieth, panicked, or agreed; pods are kept from a round whose counts agree only |
| MpsJoin.FinalEntries | gpumpsmetric/gpumpsmetric.go:191-241 | the pods counted in the end number 0 or as many as the processes counted in the same round |
| MpsJoin.CountBoth | gpumpsmetric/gpumpsmetric.go:156-187 | the two counts of a round, or a panic of the scan |
| MpsJoin.PollOnce | gpumpsmetric/gpumpsmetric.go:156-198 | a round ends the polling exactly when the counts agree or the scan panics; its process list is kept, its pod list only if the counts agree |
| MpsJoin.PollUntilAgreed | gpumpsmetric/gpumpsmetric.go:149-199 | the process lists retained are those of the last round taken, the pod list that of the same round if it agreed |
| MpsJoin.FirstMatch | gpumpsmetric/gpumpsmetric.go:291-317 | the first non-empty entry of the container list equal to the id; none exactly when there is none |
| MpsJoin.FirstMatchAt | gpumpsmetric/gpumpsmetric.go:291-317 | a first occurrence is what the inner loop finds |
| MpsJoin.LastNamed | gpumpsmetric/gpumpsmetric.go:307-315 | there is a measurement to copy exactly when a pod of that name was measured |
| MpsJoin.IdOfStatus | gpumpsmetric/gpumpsmetric.go:298 | the id of a container status with a runtime in front is what is compared |
| MpsJoin.JoinedIff | gpumpsmetric/gpumpsmetric.go:290-318 | a pod is joined exactly when there is a batch and the first position of its container in the list is one of the process list |
| MpsJoin.WrittenPoint | gpumpsmetric/gpumpsmetric.go:291-468 | point i of a completed tick carries the GPU's UUID, name and uid of the i-th counted pod, name, memory and pid of the process at the first position of its container, and the last measurement under its name in the first batch |
| MpsJoin.Gpu.CopyUsage | gpumpsmetric/gpumpsmetric.go:307-315 | the values copied are those of the last measured pod of the same name, into the element at the index and no other |
| MpsJoin.Gpu.Record | gpumpsmetric/gpumpsmetric.go:300-315 | the element appended holds the data of this pod, of the process at this position and of the first batch; it panics exactly when an earlier pod was not joined, the position is beyond the process list, or there is no batch |
| MpsJoin.Gpu.JoinPod | gpumpsmetric/gpumpsmetric.go:291-318 | one pod is joined with the process at the position of its container and its measurement, at its own index only if all earlier pods were joined, with a panic otherwise |
| MpsJoin.Gpu.JoinAll | gpumpsmetric/gpumpsmetric.go:290-321 | with a process for every pod the join completes and entry i holds the data of pod i's process; otherwise it panics or leaves the list short |
| MpsJoin.Gpu.ClearRunning | gpumpsmetric/gpumpsmetric.go:323-325 | every running check is cleared and nothing else |
| MpsJoin.Gpu.MarkPods | gpumpsmetric/gpumpsmetric.go:327-342 | known containers are marked running, unknown ones appended, and the assignment counter grows with the list |
| MpsJoin.Gpu.CountReturned | gpumpsmetric/gpumpsmetric.go:344-352 | the return counter grows by the entries that do not run and were found healthy |
| MpsJoin.Gpu.UpdateLedger | gpumpsmetric/gpumpsmetric.go:323-352 | the three loops make one tick of the ledger specification |
| MpsJoin.Gpu.WritePoints | gpumpsmetric/gpumpsmetric.go:446-468 | one point per counted pod, with the data of its element, stays in range exactly when the list has an entry per counted pod; before a panic the points of the elements there are have been written |
| MpsJoin.Gpu.JoinAndRecord | gpumpsmetric/gpumpsmetric.go:290-468 | join, ledger and write loop stay in range exactly when every pod finds its process and there is a batch; then one point per pod is written |
| MpsJoin.Gpu.Gpumpsmetric | gpumpsmetric/gpumpsmetric.go:134-468 | a tick returns a number exactly when the last scan did not panic, at most 48 matches were counted, all of them have started, and each has its process and a batch to copy from; then the pod list, the points and the ledger are those specified |
| Pigeonhole.DistinctItemsFill | gpumpsmetric/gpumpsmetric.go:191-192 | distinct items, all found in a list of their own number, fill it without repeats |
| Pigeonhole.CountedIdsAreEntries | gpumpsmetric/gpumpsmetric.go:94-126 | with one entry per process the non-empty entries are the ids of the counted processes |
| Pigeonhole.CountedOnce | gpumpsmetric/gpumpsmetric.go:94-126 | distinct ids of counted processes occur once among the entries |
| Pigeonhole.PodJoined | gpumpsmetric/gpumpsmetric.go:290-306 | a pod whose container is listed is joined with the only process in it |
| Pigeonhole.TextsMeet | gpumpsmetric/gpumpsmetric.go:100-118 | from the texts of a status and of a cgroup file: a process whose file shows the container that the pod's status names runs in that pod |
| Pigeonhole.EveryPodJoined | gpumpsmetric/gpumpsmetric.go:191-321 | with as many pods as counted processes, each in the container of a pod, every pod is joined, containers do not repeat, and pid, memory, process name and container of an entry come from the one process and pod |
| Pigeonhole.TickCompletes | gpumpsmetric/gpumpsmetric.go:152-321 | on such a node the join completes, whatever the polling ended with |
| Pigeonhole.OriginIs | gpumpsmetric/gpumpsmetric.go:94-126 | entry k of the container list comes from process m exactly when it falls among the entries that m contributes |
| Pigeonhole.OwnerHolds | gpumpsmetric/gpumpsmetric.go:94-126 | each entry is one of the cgroup file of the process it comes from |
| Pigeonhole.JoinIsRightIff | gpumpsmetric/gpumpsmetric.go:299-306 | whatever the processes, with distinct pids: a pod whose container is listed gets pid, memory and name of the process in it if and only if the position of the entry lies among the entries of the process at that position |
| Pigeonhole.MisalignedJoin | gpumpsmetric/gpumpsmetric.go:120-126 | a process outside the pods, listed first, has its own pid, memory and name recorded for the pod of the next process |
| Ledger.MarkAllKnown | gpumpsmetric/gpumpsmetric.go:327-342 | the containers listed afterwards are those listed before and those joined |
| Ledger.MarkAllRunning | gpumpsmetric/gpumpsmetric.go:323-342 | an entry runs after a tick iff its container was known and joined, or joined twice in the tick |
| Ledger.TickKeeps | gpumpsmetric/gpumpsmetric.go:323-352 | a tick keeps containers distinct, forgets none, adds exactly the joined ones, and sets no health check |
| Ledger.RunningMeansKnownAndJoined | gpumpsmetric/gpumpsmetric.go:323-342 | with distinct containers in the tick, running means known before and joined now |
| Ledger.EveryTick | gpumpsmetric/gpumpsmetric.go:323-352 | after any ticks each container ever joined is listed once, the assignment counter is the length of the list and the return counter is zero |
| Ledger.ReturnedConcat | gpumpsmetric/gpumpsmetric.go:344-352 | the entries counted as returned are counted one by one |
| Ledger.ReturnedOne | gpumpsmetric/gpumpsmetric.go:345-347 | an entry counts exactly when it was found healthy and does not run |
| Ticks.OneTick | gpumetric/gpumetric.go:126-130 | the call made in each tick, seen from the ledger: it completes exactly as specified, then advances the account by the containers of the counted pods and has written a point for each |
| Ticks.Collect | cmd/main.go:177-199 | the collection loop on one GPU record ends at the first tick that panics or finds no batch; without one the record lists each container ever joined once and its counters agree with the list |
| Ticks.RunningAfterTick | gpumpsmetric/gpumpsmetric.go:290-342 | on a node with one process per pod and container a tick completes, and running means known before and joined in it |
| Policy.SelectCondition | pkg/dcgm/policy.go:306-335 | each case of the switch adds the index, the flag and the channel of one condition; any other string adds nothing |
| Policy.SelectConditions | pkg/dcgm/policy.go:300-336 | keys, mask and channels are those of the recognised requests in order; bit c is set iff index c is a key iff channel c is listed iff the name of c was requested |
| Policy.NamesTable | pkg/dcgm/policy.go:23-49 | the seven names, indexes and flags; the names are distinct |
| Policy.RecogniseIsName | pkg/dcgm/policy.go:307-335 | a request selects a condition exactly when it is the name of it, and none when it is no name |
| Policy.RequestedIff | pkg/dcgm/policy.go:306-335 | a condition is selected exactly when its name was requested |
| Policy.RecognisedNames | pkg/dcgm/policy.go:306-335 | requests that are all names are selected one by one, in order and with repetitions |
| Policy.FlagIsBit | internal/include/dcgm_structs.h:1330-1337 | the flag of a condition is the bit with the number of its index |
| Policy.MaskHas | pkg/dcgm/policy.go:304-333 | or-ing flags into the mask sets exactly the bits of the listed conditions |
| Policy.MaskMembership | internal/include/dcgm_structs.h:1330-1340 | in a mask of single-bit flags a bit is set exactly for the listed conditions, duplicates included |
| Policy.ReportedIsFlag | pkg/dcgm/policy.go:171-224 | the callback recognises a condition exactly by its own flag |
| Policy.ParamMap | pkg/dcgm/policy.go:113-160 | there is an entry for each condition and every key is below the array length 7 |
| Policy.ParamTable | pkg/dcgm/policy.go:113-160 | tag and value of each condition's parameter: 10, 100 and 250 for the three thresholds, and a boolean 1 for the others |
| Policy.SetParameters | pkg/dcgm/policy.go:260-275 | the key loop fails exactly when a key has no entry; otherwise it writes the parameters of the listed keys and no others |
| Policy.ConfigurePolicy | pkg/dcgm/policy.go:251-338 | whatever was requested, no key is missing or out of range; a parameter is set exactly when its bit is in the mask, and that exactly when its name was requested |
| Broadcast.Publisher.constructor | pkg/dcgm/bcast.go:20-26 | a new publisher has no subscribers |
| Broadcast.Publisher.Add | pkg/dcgm/bcast.go:34-43 | a subscriber not seen before is appended |
| Broadcast.Publisher.Remove | pkg/dcgm/bcast.go:45-61 | the subscriber leaves and the others keep their order; an unknown one changes nothing and is reported |
| Broadcast.Publisher.Publish | pkg/dcgm/bcast.go:67-80 | one delivery per current subscriber, in order |
| Broadcast.Publisher.AddThenRemove | pkg/dcgm/bcast.go:34-61 | removing undoes adding |
| Broadcast.DeliveriesStep | pkg/dcgm/bcast.go:71-75 | one more subscriber gets one more delivery |
| Broadcast.WithoutAt | pkg/dcgm/bcast.go:59 | cutting at the first occurrence removes exactly that element |
| Routing.StepConserves | pkg/dcgm/policy.go:232-386 | every step conserves violations: each one put is buffered, or with one merger or one forwarder |
| Routing.StepKeepsOrder | pkg/dcgm/policy.go:102-109 | every step keeps the order of each condition's violations: taken and then buffered is what was put |
| Routing.StepRegistrationInv | pkg/dcgm/policy.go:350-386 | every step of a goroutine keeps the merged output in the order of the requests and the deliveries complete |
| Routing.StepInv | pkg/dcgm/policy.go:164-389 | the whole invariant is kept by callbacks, registrations, mergers, forwarders, publishers and clients |
| Routing.NeverBlocks | pkg/dcgm/policy.go:379-386 | the merger's send finds room and its send and its close an output that is not closed |
| Routing.ForwarderWaits | pkg/dcgm/bcast.go:63-80 | the hand-over on the unbuffered channel can happen exactly when the publisher has started all deliveries of the value before, and until then the publisher can go on |
| Routing.WaitStep | pkg/dcgm/bcast.go:67-80 | only the publisher's steps bring the hand-over nearer, each by one, and nothing puts it off |
| Routing.ForwarderWaitIsBounded | pkg/dcgm/policy.go:357-376 | in every schedule a forwarder waits for at most as many publisher steps as there are subscribers, and one more |
| Routing.CallbackReleased | pkg/dcgm/policy.go:232-376 | a callback blocked on a full channel can be released: from any state of a run the forwarder and publisher of any registration have a schedule of their own, of at most three steps more than there are subscribers, that empties the channel |
| Routing.EveryRun | pkg/dcgm/policy.go:164-389 | the invariant holds after every schedule with any number of registrations |
| Routing.EveryRunInOrder | pkg/dcgm/policy.go:232-386 | in every schedule, for each condition: the takes of all mergers and forwarders, followed by what is buffered, are the puts in the same order |
| Routing.MoveBalanced | pkg/dcgm/policy.go:357-386 | a goroutine's step keeps the count of each condition |
| Routing.EveryRunBalances | pkg/dcgm/policy.go:232-386 | for each condition and schedule: violations put = buffered + taken by mergers + taken by forwarders |
| Routing.ChannelsAreRequests | pkg/dcgm/policy.go:300-336 | in every schedule the r-th registration made has the channels of its recognised requests and two subscribers |
| Routing.ClientView | pkg/dcgm/policy.go:379-386 | of the r-th request list: the k-th merged value carries its k-th recognised condition, a closed output has carried one per condition, and each broadcast has started one delivery for each of two subscribers, but for the one being spawned |
| Serving.MergerEnabledIff | pkg/dcgm/policy.go:379-386 | from any state of a run: exactly when the merger can take, send and close, and the client receive |
| Serving.ForwarderEnabledIff | pkg/dcgm/policy.go:357-376 | exactly when the forwarder can take and hand over, and the publisher go on |
| Serving.CallbackPuts | pkg/dcgm/policy.go:171-249 | a callback waits exactly while the channel of its condition is full and puts its own timestamp and data there; one that reports no condition changes nothing |
| Serving.ReportedToRequesters | pkg/dcgm/policy.go:171-336 | in every run: a callback for a condition puts into a channel of the r-th registration exactly when that one requested the condition by its name |
| Serving.MergerDelivers | pkg/dcgm/policy.go:380-383 | what the merger waits for, once buffered, is merged by its next two steps, and nothing else changes |
| Serving.MergerCloses | pkg/dcgm/policy.go:384 | after the last one the next step closes the output |
| Serving.ClientReceives | pkg/dcgm/policy.go:379 | what has been merged can be received at once |
| Serving.ServeStep | pkg/dcgm/policy.go:379-386 | from every state of a run some event of the callbacks, the merger or the client brings an unfinished registration nearer to its end |
| Serving.CanBeServed | pkg/dcgm/policy.go:232-386 | from every state of every run any registration can be completed: at most 4n + 1 events of callbacks, its merger and its client merge and deliver one violation for each of its n conditions and close the output |
| Serving.ServeRound | pkg/dcgm/policy.go:232-386 | callback, take, send and receive bring one violation to the client |
| Serving.WholeRegistration | pkg/dcgm/policy.go:251-386 | for any request list and any violations of its conditions, whatever other registrations there are: the schedule from the registration to the close delivers exactly these violations, in order |
| Routing.DeliveryTotal | pkg/dcgm/bcast.go:67-75 | deliveries number subscribers times broadcasts |
| Routing.ForwarderMayWin | pkg/dcgm/policy.go:357-383 | a schedule in which the forwarder takes the violation the client waits for |
| Trend.TrendSums | analyzer/analysis.go:769-772 | the loop over the reversed samples accumulates the numerator and denominator of the chronological series |
| Trend.GetTrands | analyzer/analysis.go:760-778 | for any average the verdict is that the pair sum of the chronological series is positive; with fewer than two samples it is false |
| Trend.DenominatorClosed | analyzer/analysis.go:765-772 | the denominator is n(n^2 - 1)/12, positive from two samples on |
| Trend.AverageIsIrrelevant | analyzer/analysis.go:770 | the average passed has no influence on the numerator, so a truncated mean serves as well as the exact one |
| Trend.NumeratorIsPairSum | analyzer/analysis.go:769-772 | n times the numerator is the sum of (j - i)(y[j] - y[i]) over all pairs |
| Trend.RisingIsPositiveSlope | analyzer/analysis.go:773-777 | the verdict is the sign of numerator over denominator |
| Trend.LeastSquares | analyzer/analysis.go:765-773 | numerator over denominator is the slope of the least-squares line: no line has a smaller squared residual and only this one has as small a residual |
| Trend.ResidualGap | analyzer/analysis.go:765-773 | how far the residual of any line lies above the smallest |
| Trend.MonotoneVerdict | analyzer/analysis.go:760-778 | samples that never fall and do not all agree are rising; samples that never rise are not |
| Trend.ReversalNegates | analyzer/analysis.go:770 | reading the series backwards negates the pair sum, so a series and its reversal are never both rising |
| Dispersion.XorTwo | analyzer/analysis.go:226 | exclusive or with 2 adds or takes away 2, for negative numbers as well |
| Dispersion.NeverTheSquare | analyzer/analysis.go:226 | what is accumulated is never the square of the deviation |
| Dispersion.DeviationsNearSum | analyzer/analysis.go:226-230 | the accumulated value differs from the sum of the plain deviations by at most 2n |
| Dispersion.TruncatedIs | analyzer/analysis.go:212-216 | the quotient of the sum is rounded toward zero: below by less than one unit for sums from zero on, and with the sign taken out for negative ones |
| Dispersion.TowardZeroUnique | analyzer/analysis.go:212-216 | no other integer is that quotient |
| Dispersion.SumConcat | analyzer/analysis.go:206-210 | the samples are added up, whatever their order of arrival in parts |
| Dispersion.DeviationOf | analyzer/analysis.go:226-230 | each sample adds its deviation from the mean, two more or two less by the bit flipped |
| Dispersion.StDevIs | analyzer/analysis.go:232-236 | n - 1 times the field is the sum of these |
| Dispersion.ColumnsAre | analyzer/analysis.go:195-204 | each column holds the samples' values of its own name |
| Dispersion.StDevBounded | analyzer/analysis.go:218-236 | for all data (n - 1) times the field lies within 3n - 1 |
| Dispersion.SpreadIsLost | analyzer/analysis.go:387-410 | samples of unbounded spread give the field the same value |
| Dispersion.MetricStatistics | analyzer/analysis.go:264-321 | the mean is the sum over the count rounded toward zero, n - 1 times the field is the sum of the deviations from it, and the field is bounded |
| Dispersion.NodeMeans | analyzer/analysis.go:191-216 | five means from one pass, each the sum of its own column over the count, rounded toward zero |
| Dispersion.NodeDeviations | analyzer/analysis.go:218-231 | the storage deviations are added to the TX field |
| Dispersion.NodeStatistics | analyzer/analysis.go:191-236 | the node's means, rounded toward zero, and fields; the storage field is zero |
| Dispersion.NodeTxBounded | analyzer/analysis.go:229-235 | the node's TX field lies within twice the bound of one metric |
| CustomMetrics.InitialisersErase | customMetrics/customMetrics.go:57-72 | the initialisers keep a reading exactly when the pod is missing from no other map or reads as zero; with equal key sets always |
| CustomMetrics.NetworkUsage.Initialise | customMetrics/customMetrics.go:57-72 | between pods they only add a missing RX entry |
| CustomMetrics.NetworkUsage.Record | customMetrics/customMetrics.go:57-100 | both directions of one pod are updated, equal key sets are kept, and the differences stored are the ones returned |
| CustomMetrics.NetworkUsage.RecordPods | customMetrics/customMetrics.go:43-111 | the matching pods are recorded in order, and the sums are those of their differences |
| CustomMetrics.NetworkUsage.RecordPass | customMetrics/customMetrics.go:34-111 | one pass over all replica sets records the pods of each in turn |
| CustomMetrics.RecordedMeters | customMetrics/customMetrics.go:74-100 | a reading moves the two meters of its own pod only |
| CustomMetrics.PodsAreIndependent | customMetrics/customMetrics.go:57-100 | after any readings of any pods the key sets agree and each pod's entries depend on its own readings alone |
| CustomMetrics.PreviousIsLast | customMetrics/customMetrics.go:85-99 | the previous reading kept is the pod's last one |
| CustomMetrics.ReportedPerPod | customMetrics/customMetrics.go:84-100 | in both directions, what is reported for a pod among others is what its readings alone would report |
| CustomMetrics.ChangeIsReported | customMetrics/customMetrics.go:74-86 | whatever came before, a change between two non-zero readings is reported, again while the reading stays, and once more if it falls to zero |
| CustomMetrics.StartReportsNothing | customMetrics/customMetrics.go:74-86 | the first reading, and the first after a zero, report nothing, nor do their repetitions |
| CustomMetrics.TotalConcat | customMetrics/customMetrics.go:84-100 | the sums of a replica set go on where earlier recordings left off |
| CustomMetrics.TotalIsOfPods | customMetrics/customMetrics.go:84-100 | the sums are, in both directions, those of what is reported for each pod |
| CustomMetrics.ReportedTotal | customMetrics/customMetrics.go:74-99 | whatever the readings, the reported differences add up to the growth within runs of non-zero readings plus what was reported again |
| CustomMetrics.GrowthOfRun | customMetrics/customMetrics.go:74-99 | the growth of one run of non-zero readings is the last less the first |
| CustomMetrics.GrowthSplits | customMetrics/customMetrics.go:77-83 | a zero reading ends a run and the next reading starts over |
| CustomMetrics.NoEqualNeighbours | customMetrics/customMetrics.go:74-86 | strictly increasing positive readings, and any non-zero ones without equal neighbours, add up to last minus first |
| CustomMetrics.SumIsGrowthIff | customMetrics/customMetrics.go:80-83 | the differences of a growing counter add up to its growth iff it never pauses after it has grown |
| ReplicaSets.RecordPasses | customMetrics/customMetrics.go:24-111 | a sequence of calls records, on one set of maps, the pods of all replica sets of each call in turn |
| ReplicaSets.OfPass | customMetrics/customMetrics.go:34-46 | a pod listed once is recorded once for each replica set whose name its own starts with |
| ReplicaSets.OfHistory | customMetrics/customMetrics.go:34-46 | over passes, the readings recorded of it are its own, each as often as it matches replica sets in that pass |
| ReplicaSets.ReportedTimes | customMetrics/customMetrics.go:74-100 | whatever the readings and however often each is recorded, each difference of a meter that sees every recorded reading once is reported once for each recording, but once at a zero |
| ReplicaSets.ReportedPerReplicaSet | customMetrics/customMetrics.go:34-100 | so do the passes, in both directions, with the number of matching replica sets changing from pass to pass |
| ReplicaSets.ReportedOnceIff | customMetrics/customMetrics.go:34-100 | of a growing counter they report what one recording of each reading would if and only if the pod matches more than one replica set in no pass after the counter has grown |
| ReplicaSets.UniformReplicaSets | customMetrics/customMetrics.go:34-100 | with k replica sets in every pass and any readings all is reported k times but for what is reported at zeros; once if and only if k is 1 or there is nothing else |
| ReplicaSets.GrowthPerReplicaSet | customMetrics/customMetrics.go:34-100 | in both directions, of non-zero readings without equal neighbours the growth is reported k times: once if and only if k is 1 or the last reading is the first |
| Nvlink.Scanned | cmd/main.go:572-576 | the lanes before the first error, at most sixteen |
| Nvlink.ScannedTo | cmd/main.go:572-576 | exactly the lanes up to the first error, or sixteen, are scanned |
| Nvlink.VisitLane | cmd/main.go:582-606 | one lane raises a registered count, registers a new peer, or changes nothing |
| Nvlink.ScanLanes | cmd/main.go:570-607 | the lane loop computes the status of the scanned lanes |
| Nvlink.ScanIsRight | cmd/main.go:572-607 | a bus is registered iff its lookup succeeds and its index exceeds its first lane; its count is the number of lanes reaching it; the lists are parallel, name exactly the registered buses, in the order of first lanes |
| Nvlink.LinksAddUp | cmd/main.go:582-606 | listed buses are distinct, counts are positive and add up to the lanes that reach registered buses |
| Nvlink.HiddenPeer | cmd/main.go:588-589 | the device with index i is registered iff one of the lanes 0 .. i-1 reaches it |
| Nvlink.NodeCounts | cmd/main.go:559-615 | in the list of the whole node a device lists a peer once if one of its lanes below the peer's index reaches it, and otherwise not |
| Nvlink.PairListed | cmd/main.go:588-614 | exactly when a pair of devices appears in the list never, once, or from both ends |
| Nvlink.ListLinks | cmd/main.go:608-614 | one link per peer in list order, with the count read from the map |
| Nvlink.GetNvlinkInfo | cmd/main.go:553-618 | the links of all devices in order |
| Nvlink.LinksInOrder | cmd/main.go:559-615 | the links of each device stand in one piece behind those of the devices before it |
| Nvlink.LinkMeaning | cmd/main.go:608-614 | each reported link names a registered peer and counts the lanes that reach it |
| StorageDelta.Server.GetNode | cmd/main.go:396-399 | the total is sent only when it differs from the last one sent, and then counts as sent |
| StorageDelta.Server.GetInitData | cmd/main.go:467-493 | the total is always sent and counts as sent |
| StorageDelta.EveryCallIff | cmd/main.go:396-493 | in every run of any clients and totals: a call leaves its caller with the current total exactly when the caller holds it already, or it is not zero and the call is initial or the total has changed since the last call of anyone |
| StorageDelta.ClientHoldsLastSent | cmd/main.go:396-493 | with positive totals and one client, what was last sent is what the client holds |
| StorageDelta.EveryReplyIsEnough | cmd/main.go:396-493 | such a client holds the current total after every reply, in every mix of calls and collections |
| StorageDelta.SecondClientMisses | cmd/main.go:396-399 | of two clients the second one is told nothing |
| StorageDelta.ZeroTotalIsLost | cmd/main.go:396-399 | a total that returns to zero does not reach the client |
| Dcgm.Engine.Init | pkg/dcgm/api.go:20-37 | new counter, stop mode, log and error, negative counters included |
| Dcgm.Engine.InitDcgm | pkg/dcgm/admin.go:61-86 | the stop mode changes only after the library has loaded |
| Dcgm.Engine.Shutdown | pkg/dcgm/api.go:40-52 | the engine is stopped exactly at counter 1, with the stop mode; the counter falls in any case |
| Dcgm.StartsAndStopsAlternate | pkg/dcgm/api.go:20-52 | for every sequence of calls starts and stops alternate, starts first, and a start is outstanding iff the counter is at least 1 |
| Dcgm.CounterIsBalance | pkg/dcgm/api.go:29-48 | the counter is the number of Inits less the number of Shutdowns |
| Dcgm.StopModeIsLastLoaded | pkg/dcgm/admin.go:73-96 | for every sequence of calls the stop mode is that of the last start that loaded, and each stop used the one before it |
| Dcgm.StopsMatchStartsIff | pkg/dcgm/admin.go:68-96 | for every sequence of calls: each stop undoes the start before it if and only if every stopped start loaded its library or had the mode last loaded |
| Dcgm.StopModeIsOutstandingMode | pkg/dcgm/admin.go:73-96 | the stop mode is that of the outstanding start, given that its library loaded; with all libraries loaded each stop undoes the start before it |
| Dcgm.FailedLoadStopsWrongMode | pkg/dcgm/admin.go:68-96 | a run in which a start whose library did not load is stopped in the mode of the start before it |
| Dcgm.OnlyLastCleanupStops | pkg/dcgm/api.go:32-51 | with cleanups run once each, a call stops the engine exactly when it ends the last reference |
| Dcgm.ShutdownErrorIff | pkg/dcgm/api.go:40-52 | after any calls a Shutdown reports that Init is needed iff there were no more Inits than Shutdowns, and an engine error iff it stops the engine and this fails |
| Dcgm.InitErrorIff | pkg/dcgm/api.go:20-37 | after any calls an Init reports the Shutdowns in excess iff there are some, nothing while a reference is held, and else what the start reports |
| Dcgm.SinglePeriod | pkg/dcgm/api.go:20-52 | from the first Init to the last cleanup the engine is started once and stopped once, in the mode of the first Init |
| Wrappers.SameCounts | scrap/scrap.go:46-53 | lists in which every value occurs equally often are permutations of each other |

## Left out

- DecodeBatch: `decodeNetwork` is never called, so the network fields stay zero and it is not modelled; after a nil dereference nothing is said of the batch.
- Scrap: what a worker returns is an arbitrary batch and error; the kubelet request, the cluster name and the text of errors are not modelled.
- GetGpuProcess: reading the cgroup files and the process names; they are inputs.
- Gpumpsmetric: start times and the concatenated names are not modelled; of the measurement copied (lines 307-315) the conversions of its quantities to numbers are not, nor are the timestamps of the points and errors of the database.
- EveryTick: the fields of `PodGPU` that nothing writes are left out; ticks of one GPU do not overlap.
- FillMap: after a panic the contract says nothing of the array, since the program ends.
- GetTrands: arithmetic is over the reals; rounding and NaN other than 0/0 are not modelled.
- NodeStatistics: int64 sums do not overflow, the query has returned exactly as many rows as configured, at least two; parsing of values is not modelled. The pod CPU metric, the only one that squares a float, is not modelled.
- Publish: the method starts all deliveries of a value at once; `Routing` models the publisher step by step. `closePublisher` is not modelled, nor is the array shared between `subscriberList` and a concurrent `remove`.
- ForwarderWaitIsBounded: the goroutines that deliver to subscribers block for good, since nothing reads from these; they are counted and otherwise not modelled.
- Collect: the loop as one GPU sees it; panics on behalf of other GPUs are not modelled.
- EveryRun: in `Routing`, registrations that fail before their goroutines start are not modelled.
- SetParameters: the byte encoding of a parameter value.
- RecordPods: CPU, memory and storage sums of a replica set, and the posting of the sums, are not modelled; readings are parsed integers.
- GetNvlinkInfo: a deterministic lookup from bus ids to devices is assumed; the conversion of the device's own bus id, which is not used afterwards, is not modelled.
- GetNode: only the total storage field of the reply is modelled, and handlers are atomic.
- Init: argument handling of the three modes and the name of the library are not modelled; the mutex makes calls atomic.
- Threshold ladders, the temperature test and `GetPodPattern` (which always answers false): they branch on the values above and add no state.
- Unsynchronised sharing of the GPU and node records between goroutines: the code decides no order, so no property is stated.
- InfluxDB, Kubernetes, gRPC, NVML and DCGM calls: their results are inputs.
