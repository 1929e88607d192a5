/** decode/decode.go: turning one kubelet summary into a batch of metric points. */
module Decode {
  import opened Wrappers

  type Uint64 = x: int | 0 <= x < 0x1_0000_0000_0000_0000
  type Int64 = x: int | -0x8000_0000_0000_0000 <= x < 0x8000_0000_0000_0000
  const MAX_INT64 := 0x7FFF_FFFF_FFFF_FFFF

  // ----- data model (stats/types.go and storage/types.go)

  /** A time is its distance from Go's zero time; 0 is the zero time itself. */
  type Time = int

  datatype CpuStats = CpuStats(time: Time, usageNanoCores: Option<Uint64>)
  datatype MemoryStats = MemoryStats(time: Time, availableBytes: Option<Uint64>, usageBytes: Option<Uint64>,
                                     workingSetBytes: Option<Uint64>)
  datatype NetworkStats = NetworkStats(time: Time)
  datatype FsStats = FsStats(time: Time, availableBytes: Option<Uint64>, capacityBytes: Option<Uint64>,
                             usedBytes: Option<Uint64>)
  datatype NodeStats = NodeStats(name: string, cpu: Option<CpuStats>, memory: Option<MemoryStats>,
                                 network: Option<NetworkStats>, fs: Option<FsStats>)
  datatype PodStats = PodStats(name: string, namespace: string, cpu: Option<CpuStats>,
                               memory: Option<MemoryStats>, ephemeralStorage: Option<FsStats>)
  datatype Summary = Summary(ip: string, node: NodeStats, pods: seq<PodStats>)

  datatype Format = Unset | DecimalSI | BinarySI
  /** A quantity stands for value * 10^scale. */
  datatype Quantity = Quantity(value: Int64, scale: int, format: Format)
  const ZERO_QUANTITY := Quantity(0, 0, Unset)

  datatype MetricsPoint = MetricsPoint(
    timestamp: Time,
    cpuUsageNanoCores: Quantity,
    memoryUsageBytes: Quantity, memoryAvailableBytes: Quantity, memoryWorkingSetBytes: Quantity,
    networkRxBytes: Quantity, networkTxBytes: Quantity,
    fsAvailableBytes: Quantity, fsCapacityBytes: Quantity, fsUsedBytes: Quantity)
  datatype NodeMetricsPoint = NodeMetricsPoint(name: string, point: MetricsPoint)
  datatype PodMetricsPoint = PodMetricsPoint(name: string, namespace: string, point: MetricsPoint)
  datatype MetricsBatch = MetricsBatch(ip: string, node: NodeMetricsPoint, pods: seq<PodMetricsPoint>)

  datatype DecodeError = NoTimestamp(name: string) | MissingCpu(name: string) | MissingMemory(name: string)
      | MissingFs(name: string)

  function BlankPoint(timestamp: Time): MetricsPoint {
    MetricsPoint(timestamp, ZERO_QUANTITY, ZERO_QUANTITY, ZERO_QUANTITY, ZERO_QUANTITY, ZERO_QUANTITY, ZERO_QUANTITY,
                 ZERO_QUANTITY, ZERO_QUANTITY, ZERO_QUANTITY)
  }

  // ----- quantities

  /** Whatever the raw value, the quantity fits an int64, never exceeds the raw value, and loses less than
      one unit of its own scale; up to the largest int64 it is exact. */
  function Uint64Quantity(val: Uint64, scale: int): (q: Quantity)
    ensures q.format == DecimalSI && (q.scale == scale || q.scale == scale + 1)
    ensures var unit := if q.scale == scale then 1 else 10;
            0 <= q.value && q.value * unit <= val <= q.value * unit + (unit - 1)
    ensures q.scale == scale <==> val <= MAX_INT64
  {
    if val <= MAX_INT64 then Quantity(val, scale, DecimalSI)
    else Quantity(val / 10, 1 + scale, DecimalSI)
  }

  function Bytes(val: Uint64): Quantity {
    Uint64Quantity(val, 0).(format := BinarySI)
  }

  // ----- timestamps

  /** One comparison of the search for the earliest source. */
  function Sooner(earliest: Option<Time>, source: Option<Time>): Option<Time> {
    if source.Some? && source.value != 0 && (earliest.None? || earliest.value > source.value) then source else earliest
  }

  /** Of the sources that are present and not the zero time, the earliest. */
  function Earliest(times: seq<Option<Time>>): (r: Option<Time>)
    ensures r.None? <==> forall k :: 0 <= k < |times| ==> times[k] == None || times[k] == Some(0)
    ensures r.Some? ==> r in times && r.value != 0
    ensures r.Some? ==>
              forall k :: 0 <= k < |times| && times[k].Some? && times[k].value != 0 ==> r.value <= times[k].value
  {
    if times == [] then None else Sooner(Earliest(times[..|times| - 1]), times[|times| - 1])
  }

  function CpuTime(cpu: Option<CpuStats>): Option<Time> { if cpu.Some? then Some(cpu.value.time) else None }
  function MemoryTime(m: Option<MemoryStats>): Option<Time> { if m.Some? then Some(m.value.time) else None }
  function NetworkTime(n: Option<NetworkStats>): Option<Time> { if n.Some? then Some(n.value.time) else None }
  function FsTime(f: Option<FsStats>): Option<Time> { if f.Some? then Some(f.value.time) else None }

  function PodTime(pod: PodStats): Option<Time> {
    Earliest([CpuTime(pod.cpu), MemoryTime(pod.memory)])
  }

  function NodeTime(node: NodeStats): Option<Time> {
    Earliest([CpuTime(node.cpu), MemoryTime(node.memory), NetworkTime(node.network), FsTime(node.fs)])
  }

  method GetScrapeTimePod(pod: PodStats) returns (timestamp: Option<Time>)
    ensures timestamp == PodTime(pod)
  {
    var cpu, memory := CpuTime(pod.cpu), MemoryTime(pod.memory);
    var earliest := Sooner(None, cpu);
    earliest := Sooner(earliest, memory);
    assert Earliest([cpu]) == Sooner(None, cpu) by { assert [cpu][..0] == []; }
    assert [cpu, memory][..1] == [cpu];
    return earliest;
  }

  method GetScrapeTimeNode(node: NodeStats) returns (timestamp: Option<Time>)
    ensures timestamp == NodeTime(node)
  {
    var c, m, n, f := CpuTime(node.cpu), MemoryTime(node.memory), NetworkTime(node.network), FsTime(node.fs);
    var earliest := Sooner(None, c);
    earliest := Sooner(earliest, m);
    earliest := Sooner(earliest, n);
    earliest := Sooner(earliest, f);
    assert Earliest([c]) == Sooner(None, c) by { assert [c][..0] == []; }
    assert Earliest([c, m]) == Sooner(Earliest([c]), m) by { assert [c, m][..1] == [c]; }
    assert Earliest([c, m, n]) == Sooner(Earliest([c, m]), n) by { assert [c, m, n][..2] == [c, m]; }
    assert [c, m, n, f][..3] == [c, m, n];
    return earliest;
  }

  // ----- the three field decoders: each overwrites its own fields of the target, or reports an error

  predicate HasCpu(cpu: Option<CpuStats>) { cpu.Some? && cpu.value.usageNanoCores.Some? }
  predicate HasMemory(memory: Option<MemoryStats>) { memory.Some? && memory.value.workingSetBytes.Some? }
  predicate HasFs(fs: Option<FsStats>) { fs.Some? }

  /** The pointers that decodeMemory and decodeFs dereference without a nil check are set. */
  predicate Dereferenceable(memory: Option<MemoryStats>, fs: Option<FsStats>) {
    && (HasMemory(memory) ==> memory.value.usageBytes.Some?)
    && (HasFs(fs) ==> fs.value.availableBytes.Some? && fs.value.capacityBytes.Some?)
  }

  /** Panic stands for the dereference of a nil pointer. */
  datatype Field = Missing | Panic | Filled(point: MetricsPoint)

  function DecodeCpu(target: MetricsPoint, cpu: Option<CpuStats>): Field {
    if cpu.None? || cpu.value.usageNanoCores.None? then Missing
    else Filled(target.(cpuUsageNanoCores := Uint64Quantity(cpu.value.usageNanoCores.value, -9)))
  }

  function DecodeMemory(target: MetricsPoint, memory: Option<MemoryStats>): Field {
    if memory.None? || memory.value.workingSetBytes.None? then Missing
    else
      var t := if memory.value.availableBytes.Some?
               then target.(memoryAvailableBytes := Bytes(memory.value.availableBytes.value)) else target;
      if memory.value.usageBytes.None? then Panic
      else Filled(t.(memoryUsageBytes := Bytes(memory.value.usageBytes.value),
                     memoryWorkingSetBytes := Bytes(memory.value.workingSetBytes.value)))
  }

  function DecodeFs(target: MetricsPoint, fs: Option<FsStats>): Field {
    if fs.None? then Missing
    else if fs.value.availableBytes.None? || fs.value.capacityBytes.None? then Panic
    else
      Filled(target.(fsAvailableBytes := Bytes(fs.value.availableBytes.value),
                     fsCapacityBytes := Bytes(fs.value.capacityBytes.value),
                     fsUsedBytes := Bytes(if fs.value.usedBytes.None? then 0 else fs.value.usedBytes.value)))
  }

  // ----- specification: what one pod or node decodes to, written from its own statistics alone

  /** The point that holds exactly the measurements present; absent ones stay at the zero quantity, and so
      do the two network fields, whose decoder is never called. */
  function Measured(t: Time, cpu: Option<CpuStats>, memory: Option<MemoryStats>, fs: Option<FsStats>): MetricsPoint
    requires Dereferenceable(memory, fs)
  {
    MetricsPoint(t,
      if HasCpu(cpu) then Uint64Quantity(cpu.value.usageNanoCores.value, -9) else ZERO_QUANTITY,
      if HasMemory(memory) then Bytes(memory.value.usageBytes.value) else ZERO_QUANTITY,
      if HasMemory(memory) && memory.value.availableBytes.Some?
      then Bytes(memory.value.availableBytes.value) else ZERO_QUANTITY,
      if HasMemory(memory) then Bytes(memory.value.workingSetBytes.value) else ZERO_QUANTITY,
      ZERO_QUANTITY, ZERO_QUANTITY,
      if HasFs(fs) then Bytes(fs.value.availableBytes.value) else ZERO_QUANTITY,
      if HasFs(fs) then Bytes(fs.value.capacityBytes.value) else ZERO_QUANTITY,
      if !HasFs(fs) then ZERO_QUANTITY else Bytes(if fs.value.usedBytes.Some? then fs.value.usedBytes.value else 0))
  }

  /** One error for each missing group. */
  function MissingParts(name: string, cpu: Option<CpuStats>, memory: Option<MemoryStats>,
      fs: Option<FsStats>): (errs: seq<DecodeError>)
    ensures errs == [] <==> HasCpu(cpu) && HasMemory(memory) && HasFs(fs)
  {
    (if HasCpu(cpu) then [] else [MissingCpu(name)])
    + (if HasMemory(memory) then [] else [MissingMemory(name)])
    + (if HasFs(fs) then [] else [MissingFs(name)])
  }

  predicate PodDecodable(pod: PodStats) {
    PodTime(pod).Some? ==> Dereferenceable(pod.memory, pod.ephemeralStorage)
  }

  predicate NodeDecodable(node: NodeStats) {
    NodeTime(node).Some? ==> Dereferenceable(node.memory, node.fs)
  }

  /** A pod is complete when it has a timestamp and all three groups of measurements. */
  predicate Complete(pod: PodStats) {
    PodTime(pod).Some? && HasCpu(pod.cpu) && HasMemory(pod.memory) && HasFs(pod.ephemeralStorage)
  }

  function DecodedPod(pod: PodStats): PodMetricsPoint
    requires PodDecodable(pod) && PodTime(pod).Some?
  {
    PodMetricsPoint(pod.name, pod.namespace, Measured(PodTime(pod).value, pod.cpu, pod.memory, pod.ephemeralStorage))
  }

  function PodErrors(pod: PodStats): (errs: seq<DecodeError>)
    ensures errs == [] <==> Complete(pod)
  {
    if PodTime(pod).None? then [NoTimestamp(pod.name)]
    else MissingParts(pod.name, pod.cpu, pod.memory, pod.ephemeralStorage)
  }

  function DecodedNode(node: NodeStats): NodeMetricsPoint
    requires NodeDecodable(node)
  {
    if NodeTime(node).None? then NodeMetricsPoint("", BlankPoint(0))
    else NodeMetricsPoint(node.name, Measured(NodeTime(node).value, node.cpu, node.memory, node.fs))
  }

  function NodeErrors(node: NodeStats): seq<DecodeError> {
    if NodeTime(node).None? then [NoTimestamp(node.name)]
    else MissingParts(node.name, node.cpu, node.memory, node.fs)
  }

  ghost predicate AllDecodable(pods: seq<PodStats>) {
    forall i :: 0 <= i < |pods| ==> PodDecodable(pods[i])
  }

  /** Filter-map: the complete pods, decoded, in order. */
  ghost function KeptPods(pods: seq<PodStats>): seq<PodMetricsPoint>
    requires AllDecodable(pods)
  {
    if pods == [] then []
    else
      var last := pods[|pods| - 1];
      KeptPods(pods[..|pods| - 1]) + (if Complete(last) then [DecodedPod(last)] else [])
  }

  ghost function AllPodErrors(pods: seq<PodStats>): seq<DecodeError> {
    if pods == [] then [] else AllPodErrors(pods[..|pods| - 1]) + PodErrors(pods[|pods| - 1])
  }

  /** One round of the compacting loop, on the contents of the slots before and after decoding pod i. */
  lemma CompactStep(pods: seq<PodStats>, i: nat, before: seq<PodMetricsPoint>, after: seq<PodMetricsPoint>, num: nat)
    requires i < |pods| && num < |before| && AllDecodable(pods[..i]) && PodDecodable(pods[i])
    requires before[..num] == KeptPods(pods[..i])
    requires after == before[num := if PodTime(pods[i]).Some? then DecodedPod(pods[i]) else before[num]]
    ensures AllDecodable(pods[..i + 1])
    ensures after[..if Complete(pods[i]) then num + 1 else num] == KeptPods(pods[..i + 1])
    ensures AllPodErrors(pods[..i + 1]) == AllPodErrors(pods[..i]) + PodErrors(pods[i])
  {
    DecodablePush(pods[..i], pods[i]);
    assert pods[..i + 1] == pods[..i] + [pods[i]];
    KeptPush(pods[..i], pods[i]);
    assert after[..num] == before[..num];
  }

  lemma DecodablePush(pods: seq<PodStats>, pod: PodStats)
    requires AllDecodable(pods) && PodDecodable(pod)
    ensures AllDecodable(pods + [pod])
  {
  }

  lemma KeptPush(pods: seq<PodStats>, pod: PodStats)
    requires AllDecodable(pods) && PodDecodable(pod) && AllDecodable(pods + [pod])
    ensures KeptPods(pods + [pod]) == KeptPods(pods) + (if Complete(pod) then [DecodedPod(pod)] else [])
    ensures AllPodErrors(pods + [pod]) == AllPodErrors(pods) + PodErrors(pod)
  {
    assert (pods + [pod])[..|pods|] == pods;
  }

  // ----- the decoders

  /** The errors are None for a nil dereference. */
  method DecodeNodeStats(node: NodeStats, oldTarget: NodeMetricsPoint)
      returns (target: NodeMetricsPoint, errs: Option<seq<DecodeError>>)
    ensures errs.Some? <==> NodeDecodable(node)
    ensures errs.Some?
        ==> target == (if NodeTime(node).None? then oldTarget else DecodedNode(node)) && errs.value == NodeErrors(node)
  {
    target := oldTarget;
    var timestamp := GetScrapeTimeNode(node);
    if timestamp.None? {
      return target, Some([NoTimestamp(node.name)]);
    }
    target := NodeMetricsPoint(node.name, BlankPoint(timestamp.value));
    var es: seq<DecodeError> := [];
    match DecodeCpu(target.point, node.cpu) {
      case Missing => es := es + [MissingCpu(node.name)];
      case Filled(point) => target := target.(point := point);
    }
    match DecodeMemory(target.point, node.memory) {
      case Missing => es := es + [MissingMemory(node.name)];
      case Filled(point) => target := target.(point := point);
      case Panic => return target, None;
    }
    match DecodeFs(target.point, node.fs) {
      case Missing => es := es + [MissingFs(node.name)];
      case Filled(point) => target := target.(point := point);
      case Panic => return target, None;
    }
    errs := Some(es);
  }

  /** Decodes one pod into a slot of the result array. The slot may hold the leftovers of an earlier pod that
      failed; when this pod has a timestamp nothing of them survives, and without one the slot is not touched. */
  method DecodePodStats(pod: PodStats, slots: array<PodMetricsPoint>, num: nat) returns (errs: Option<seq<DecodeError>>)
    requires num < slots.Length
    modifies slots
    ensures errs.Some? <==> PodDecodable(pod)
    ensures errs.Some? ==> errs.value == PodErrors(pod)
    ensures errs.Some?
        ==> slots[..] == old(slots[..])[num := if PodTime(pod).Some? then DecodedPod(pod) else old(slots[num])]
  {
    var timestamp := GetScrapeTimePod(pod);
    if timestamp.None? {
      return Some([NoTimestamp(pod.name)]);
    }
    slots[num] := PodMetricsPoint(pod.name, pod.namespace, BlankPoint(timestamp.value));
    var es: seq<DecodeError> := [];
    match DecodeCpu(slots[num].point, pod.cpu) {
      case Missing => es := es + [MissingCpu(pod.name)];
      case Filled(point) => slots[num] := slots[num].(point := point);
    }
    match DecodeMemory(slots[num].point, pod.memory) {
      case Missing => es := es + [MissingMemory(pod.name)];
      case Filled(point) => slots[num] := slots[num].(point := point);
      case Panic => return None;
    }
    match DecodeFs(slots[num].point, pod.ephemeralStorage) {
      case Missing => es := es + [MissingFs(pod.name)];
      case Filled(point) => slots[num] := slots[num].(point := point);
      case Panic => return None;
    }
    errs := Some(es);
  }

  /** The body of the compacting loop: decode pod i into slot num, and move on only if it had no errors. */
  method CompactOne(pods: seq<PodStats>, i: nat, slots: array<PodMetricsPoint>, num: nat)
      returns (next: nat, errs: Option<seq<DecodeError>>)
    requires i < |pods| && num <= i < slots.Length && AllDecodable(pods[..i]) && slots[..num] == KeptPods(pods[..i])
    modifies slots
    ensures errs.Some? <==> PodDecodable(pods[i])
    ensures errs.Some? ==> AllDecodable(pods[..i + 1]) && next <= i + 1 && slots[..next] == KeptPods(pods[..i + 1])
    ensures errs.Some? ==> AllPodErrors(pods[..i + 1]) == AllPodErrors(pods[..i]) + errs.value
  {
    ghost var before := slots[..];
    next := num;
    errs := DecodePodStats(pods[i], slots, num);
    if errs.None? {
      return;
    }
    CompactStep(pods, i, before, slots[..], num);
    if errs.value == [] {
      next := num + 1;
    }
  }

  /** The compacting loop refines filter-map, although a failed pod leaves its slot dirty for the next one.
      `slots` is the freshly made result array; the batch keeps its first `num` slots. */
  method CompactPods(pods: seq<PodStats>, slots: array<PodMetricsPoint>)
      returns (num: nat, errs: Option<seq<DecodeError>>)
    requires slots.Length == |pods|
    modifies slots
    ensures errs.Some? <==> AllDecodable(pods)
    ensures errs.Some? ==> num <= slots.Length && slots[..num] == KeptPods(pods) && errs.value == AllPodErrors(pods)
  {
    num := 0;
    var es: seq<DecodeError> := [];
    for i := 0 to |pods|
      invariant num <= i && AllDecodable(pods[..i])
      invariant slots[..num] == KeptPods(pods[..i])
      invariant es == AllPodErrors(pods[..i])
    {
      var podErrs;
      num, podErrs := CompactOne(pods, i, slots, num);
      if podErrs.None? {
        return num, None;
      }
      es := es + podErrs.value;
    }
    assert pods[..|pods|] == pods;
    errs := Some(es);
  }

  /** None stands for a nil dereference. */
  method DecodeBatch(summary: Summary) returns (batch: Option<MetricsBatch>, errs: seq<DecodeError>)
    ensures batch.Some? <==> NodeDecodable(summary.node) && AllDecodable(summary.pods)
    ensures batch.Some? ==> batch.value == MetricsBatch(summary.ip, DecodedNode(summary.node), KeptPods(summary.pods))
    ensures batch.Some? ==> errs == NodeErrors(summary.node) + AllPodErrors(summary.pods)
    ensures batch.Some? && NodeTime(summary.node).Some? ==> NodeEntryOf(batch.value.node, summary.node)
    ensures batch.Some? ==> forall k :: 0 <= k < |batch.value.pods| ==> KeptFrom(summary.pods, batch.value.pods, k)
  {
    var blank := PodMetricsPoint("", "", BlankPoint(0));
    var slots := new PodMetricsPoint[|summary.pods|](_ => blank);
    var node, nodeErrs := DecodeNodeStats(summary.node, NodeMetricsPoint("", BlankPoint(0)));
    if nodeErrs.None? {
      return None, [];
    }
    var num, podErrs := CompactPods(summary.pods, slots);
    if podErrs.None? {
      return None, [];
    }
    batch := Some(MetricsBatch(summary.ip, node, slots[..num]));
    NodeFields(summary.node);
    forall k | 0 <= k < num ensures KeptFrom(summary.pods, slots[..num], k) { KeptFields(summary.pods, k); }
    errs := nodeErrs.value + podErrs.value;
  }

  // ----- what the filter-map keeps

  /** The positions of the complete pods. */
  ghost function KeptIndexes(pods: seq<PodStats>): seq<nat> {
    if pods == [] then []
    else KeptIndexes(pods[..|pods| - 1]) + (if Complete(pods[|pods| - 1]) then [|pods| - 1] else [])
  }

  lemma {:induction false} IndexesInOrder(pods: seq<PodStats>)
    ensures forall k :: 0 <= k < |KeptIndexes(pods)| ==> KeptIndexes(pods)[k] < |pods|
    ensures forall a, b :: 0 <= a < b < |KeptIndexes(pods)| ==> KeptIndexes(pods)[a] < KeptIndexes(pods)[b]
  {
    if pods != [] { IndexesInOrder(pods[..|pods| - 1]); }
  }

  lemma {:induction false} IndexKept(pods: seq<PodStats>, i: nat)
    ensures i in KeptIndexes(pods) <==> i < |pods| && Complete(pods[i])
  {
    if pods != [] {
      var n := |pods| - 1;
      IndexKept(pods[..n], i);
      var own := if Complete(pods[n]) then [n] else [];
      assert KeptIndexes(pods) == KeptIndexes(pods[..n]) + own;
      assert i in own <==> Complete(pods[n]) && i == n;
    }
  }

  lemma {:induction false} KeptAreDecoded(pods: seq<PodStats>)
    requires AllDecodable(pods)
    ensures |KeptIndexes(pods)| == |KeptPods(pods)|
    ensures forall k :: 0 <= k < |KeptIndexes(pods)| ==> KeptAt(pods, k)
  {
    if pods != [] {
      var n := |pods| - 1;
      var front := pods[..n];
      KeptAreDecoded(front);
      forall k | 0 <= k < |KeptIndexes(pods)| ensures KeptAt(pods, k) {
        if k < |KeptIndexes(front)| { assert KeptAt(front, k); }
      }
    }
  }

  /** Entry k of the batch is the decoding of the pod at the k-th position. */
  ghost predicate KeptAt(pods: seq<PodStats>, k: nat)
    requires AllDecodable(pods) && k < |KeptIndexes(pods)|
  {
    var i := KeptIndexes(pods)[k];
    i < |pods| && PodTime(pods[i]).Some? && k < |KeptPods(pods)| && KeptPods(pods)[k] == DecodedPod(pods[i])
  }

  /** Every complete pod is kept once and in its place, nothing else is kept, and each entry is the decoding
      of its own pod. */
  lemma {:induction false} KeptPodsInOrder(pods: seq<PodStats>)
    requires AllDecodable(pods)
    ensures var ix := KeptIndexes(pods);
            && |ix| == |KeptPods(pods)|
            && (forall a, b :: 0 <= a < b < |ix| ==> ix[a] < ix[b])
            && (forall i: nat :: i in ix <==> i < |pods| && Complete(pods[i]))
            && (forall k :: 0 <= k < |ix| ==> KeptAt(pods, k))
  {
    IndexesInOrder(pods);
    forall i: nat ensures i in KeptIndexes(pods) <==> i < |pods| && Complete(pods[i]) { IndexKept(pods, i); }
    KeptAreDecoded(pods);
  }

  // ----- field by field: what a decoded point says of the raw statistics

  /** The quantity stands for this raw value in its unit 10^scale: for the value itself, or, beyond the largest int64,
      for its tens; in this format. */
  ghost predicate StandsFor(q: Quantity, raw: Uint64, scale: int, format: Format) {
    && q.format == format
    && (if raw <= 0x7FFF_FFFF_FFFF_FFFF then q.scale == scale && q.value == raw
        else q.scale == scale + 1 && 10 * q.value <= raw <= 10 * q.value + 9)
  }

  /** A statistic that is absent leaves its field at the zero quantity. */
  ghost predicate FieldIs(q: Quantity, raw: Option<Uint64>, scale: int, format: Format) {
    if raw.Some? then StandsFor(q, raw.value, scale, format) else q == Quantity(0, 0, Unset)
  }

  /** Each field stands for the statistic of its own name; the CPU usage counts in units of 10^-9. All memory fields are
      absent without a working set. */
  ghost predicate PointIs(p: MetricsPoint, cpu: Option<CpuStats>, memory: Option<MemoryStats>, fs: Option<FsStats>) {
    && FieldIs(p.cpuUsageNanoCores, if cpu.Some? then cpu.value.usageNanoCores else None, -9, DecimalSI)
    && (if memory.Some? && memory.value.workingSetBytes.Some?
        then && FieldIs(p.memoryUsageBytes, memory.value.usageBytes, 0, BinarySI)
             && FieldIs(p.memoryAvailableBytes, memory.value.availableBytes, 0, BinarySI)
             && FieldIs(p.memoryWorkingSetBytes, memory.value.workingSetBytes, 0, BinarySI)
        else p.memoryUsageBytes == p.memoryAvailableBytes == p.memoryWorkingSetBytes == Quantity(0, 0, Unset))
    && FieldIs(p.fsAvailableBytes, if fs.Some? then fs.value.availableBytes else None, 0, BinarySI)
    && FieldIs(p.fsCapacityBytes, if fs.Some? then fs.value.capacityBytes else None, 0, BinarySI)
    && FieldIs(p.fsUsedBytes,
               if fs.None? then None else if fs.value.usedBytes.Some? then fs.value.usedBytes else Some(0), 0, BinarySI)
    && p.networkRxBytes == p.networkTxBytes == Quantity(0, 0, Unset)
  }

  lemma BytesStandFor(raw: Uint64)
    ensures StandsFor(Bytes(raw), raw, 0, BinarySI)
    ensures StandsFor(Uint64Quantity(raw, -9), raw, -9, DecimalSI)
  {
  }

  lemma MeasuredIs(t: Time, cpu: Option<CpuStats>, memory: Option<MemoryStats>, fs: Option<FsStats>)
    requires Dereferenceable(memory, fs)
    ensures PointIs(Measured(t, cpu, memory, fs), cpu, memory, fs) && Measured(t, cpu, memory, fs).timestamp == t
  {
    if HasCpu(cpu) { BytesStandFor(cpu.value.usageNanoCores.value); }
    if HasMemory(memory) {
      BytesStandFor(memory.value.usageBytes.value);
      BytesStandFor(memory.value.workingSetBytes.value);
      if memory.value.availableBytes.Some? { BytesStandFor(memory.value.availableBytes.value); }
    }
    if HasFs(fs) {
      BytesStandFor(fs.value.availableBytes.value);
      BytesStandFor(fs.value.capacityBytes.value);
      BytesStandFor(if fs.value.usedBytes.Some? then fs.value.usedBytes.value else 0);
    }
  }

  /** The source of a time is present and it is not the zero time. */
  predicate Timed(t: Option<Time>) { t.Some? && t.value != 0 }

  /** t is a time of one of the sources, and none of them has an earlier one. */
  ghost predicate EarliestOf(t: Time, sources: seq<Option<Time>>) {
    && t != 0 && Some(t) in sources
    && forall k :: 0 <= k < |sources| && Timed(sources[k]) ==> t <= sources[k].value
  }

  /** A decoded pod is kept exactly when CPU or memory has a time and usage, working set and storage are there; it
      runs into a nil dereference exactly when it has a time and a pointer read without a check is nil. */
  lemma PodOutcome(pod: PodStats)
    ensures var timed := (pod.cpu.Some? && pod.cpu.value.time != 0) || (pod.memory.Some? && pod.memory.value.time != 0);
            var cpu := pod.cpu.Some? && pod.cpu.value.usageNanoCores.Some?;
            var memory := pod.memory.Some? && pod.memory.value.workingSetBytes.Some?;
            var fs := pod.ephemeralStorage;
            && (Complete(pod) <==> timed && cpu && memory && fs.Some?)
            && (PodDecodable(pod) <==> !timed || ((memory ==> pod.memory.value.usageBytes.Some?) && (fs.Some? ==>
                                                  fs.value.availableBytes.Some? && fs.value.capacityBytes.Some?)))
            && PodErrors(pod) == (if timed then MissingParts(pod.name, pod.cpu, pod.memory, fs)
                                  else [NoTimestamp(pod.name)])
  {
    PodTimed(pod);
  }

  lemma NodeOutcome(node: NodeStats)
    ensures var timed := || (node.cpu.Some? && node.cpu.value.time != 0)
                         || (node.memory.Some? && node.memory.value.time != 0)
                         || (node.network.Some? && node.network.value.time != 0)
                         || (node.fs.Some? && node.fs.value.time != 0);
            var memory := node.memory.Some? && node.memory.value.workingSetBytes.Some?;
            && (NodeDecodable(node) <==> !timed || ((memory ==> node.memory.value.usageBytes.Some?)
                                                    && (node.fs.Some? ==> node.fs.value.availableBytes.Some?
                                                                          && node.fs.value.capacityBytes.Some?)))
            && NodeErrors(node) == (if timed then MissingParts(node.name, node.cpu, node.memory, node.fs)
                                    else [NoTimestamp(node.name)])
  {
    NodeTimed(node);
  }

  lemma PartsMissing(name: string, cpu: Option<CpuStats>, memory: Option<MemoryStats>, fs: Option<FsStats>)
    ensures var errs := MissingParts(name, cpu, memory, fs);
            && (MissingCpu(name) in errs <==> cpu.None? || cpu.value.usageNanoCores.None?)
            && (MissingMemory(name) in errs <==> memory.None? || memory.value.workingSetBytes.None?)
            && (MissingFs(name) in errs <==> fs.None?)
            && (forall e :: e in errs ==> e in [MissingCpu(name), MissingMemory(name), MissingFs(name)])
            && (forall i, j :: 0 <= i < j < |errs| ==> errs[i] != errs[j])
  {
  }

  lemma PodTimed(pod: PodStats)
    ensures PodTime(pod).Some? <==> Timed(CpuTime(pod.cpu)) || Timed(MemoryTime(pod.memory))
    ensures PodTime(pod).Some? ==> EarliestOf(PodTime(pod).value, [CpuTime(pod.cpu), MemoryTime(pod.memory)])
  {
    var times := [CpuTime(pod.cpu), MemoryTime(pod.memory)];
    assert times[0] == CpuTime(pod.cpu) && times[1] == MemoryTime(pod.memory);
    assert forall k :: 0 <= k < |times| ==> (Timed(times[k]) <==> times[k] != None && times[k] != Some(0));
  }

  lemma NodeTimed(node: NodeStats)
    ensures NodeTime(node).Some?
            <==> || Timed(CpuTime(node.cpu)) || Timed(MemoryTime(node.memory))
                 || Timed(NetworkTime(node.network)) || Timed(FsTime(node.fs))
    ensures NodeTime(node).Some?
            ==> EarliestOf(NodeTime(node).value, [CpuTime(node.cpu), MemoryTime(node.memory), NetworkTime(node.network),
                                                  FsTime(node.fs)])
  {
    var times := [CpuTime(node.cpu), MemoryTime(node.memory), NetworkTime(node.network), FsTime(node.fs)];
    assert times[0] == CpuTime(node.cpu) && times[1] == MemoryTime(node.memory);
    assert times[2] == NetworkTime(node.network) && times[3] == FsTime(node.fs);
    assert forall k :: 0 <= k < |times| ==> (Timed(times[k]) <==> times[k] != None && times[k] != Some(0));
  }

  /** The entry carries the name and namespace of its pod, the earlier of the two times, and in each field the statistic
      of that name. */
  ghost predicate EntryOf(entry: PodMetricsPoint, pod: PodStats) {
    && entry.name == pod.name && entry.namespace == pod.namespace
    && EarliestOf(entry.point.timestamp, [CpuTime(pod.cpu), MemoryTime(pod.memory)])
    && PointIs(entry.point, pod.cpu, pod.memory, pod.ephemeralStorage)
  }

  /** Entry k of the batch is that of the k-th complete pod. */
  ghost predicate KeptFrom(pods: seq<PodStats>, entries: seq<PodMetricsPoint>, k: nat) {
    && k < |entries| && k < |KeptIndexes(pods)| && KeptIndexes(pods)[k] < |pods|
    && EntryOf(entries[k], pods[KeptIndexes(pods)[k]])
  }

  lemma DecodedPodIs(pod: PodStats)
    requires PodDecodable(pod) && PodTime(pod).Some?
    ensures EntryOf(DecodedPod(pod), pod)
  {
    MeasuredIs(PodTime(pod).value, pod.cpu, pod.memory, pod.ephemeralStorage);
    PodTimed(pod);
  }

  /** Entry k of the batch, field by field; the statistics of its pod are all there. */
  lemma KeptFields(pods: seq<PodStats>, k: nat)
    requires AllDecodable(pods) && k < |KeptPods(pods)|
    ensures k < |KeptIndexes(pods)| && KeptIndexes(pods)[k] < |pods|
    ensures var pod, entry := pods[KeptIndexes(pods)[k]], KeptPods(pods)[k];
            && EntryOf(entry, pod)
            && pod.cpu.Some? && pod.cpu.value.usageNanoCores.Some?
            && pod.memory.Some? && pod.memory.value.workingSetBytes.Some? && pod.memory.value.usageBytes.Some?
            && pod.ephemeralStorage.Some? && pod.ephemeralStorage.value.availableBytes.Some?
            && pod.ephemeralStorage.value.capacityBytes.Some?
  {
    KeptPodsInOrder(pods);
    assert KeptAt(pods, k);
    var i := KeptIndexes(pods)[k];
    assert i in KeptIndexes(pods);
    DecodedPodIs(pods[i]);
  }

  /** The same for a node, with its four times. */
  ghost predicate NodeEntryOf(entry: NodeMetricsPoint, node: NodeStats) {
    && entry.name == node.name
    && EarliestOf(entry.point.timestamp,
                  [CpuTime(node.cpu), MemoryTime(node.memory), NetworkTime(node.network), FsTime(node.fs)])
    && PointIs(entry.point, node.cpu, node.memory, node.fs)
  }

  /** The node of the batch; without any time it is the blank point. */
  lemma NodeFields(node: NodeStats)
    requires NodeDecodable(node)
    ensures var entry := DecodedNode(node);
            if || Timed(CpuTime(node.cpu)) || Timed(MemoryTime(node.memory))
               || Timed(NetworkTime(node.network)) || Timed(FsTime(node.fs))
            then NodeEntryOf(entry, node)
            else entry.name == "" && entry.point.timestamp == 0 && PointIs(entry.point, None, None, None)
  {
    NodeTimed(node);
    if NodeTime(node).Some? { MeasuredIs(NodeTime(node).value, node.cpu, node.memory, node.fs); }
  }
}
