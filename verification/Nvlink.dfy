/** cmd/main.go, GetNvlinkInfo: counting the NVLink lanes between a device and its peers. */
module Nvlink {
  import opened Wrappers

  const MAX_LANES := 16

  /** What one lane reports: the bus id of the remote end and its device type. */
  datatype Lane = Lane(busId: string, deviceType: int)
  /** A device found under a bus id. */
  datatype Peer = Peer(index: int, uuid: string)
  datatype Device = Device(uuid: string, lanes: seq<Option<Lane>>)
  datatype NvLink = NvLink(gpu1: string, gpu2: string, countLink: nat)

  /** NvlinkStatus: a lane count per registered bus id, and three lists filled in parallel. */
  datatype Status = Status(lanes: map<string, nat>, p2pUuid: seq<string>, p2pDeviceType: seq<int>,
      p2pBusId: seq<string>)

  /** The lanes scanned: those before the first that reports an error, and at most sixteen. */
  function Scanned(lanes: seq<Option<Lane>>, limit: nat): (r: seq<Lane>)
    ensures |r| <= limit && |r| <= |lanes|
    ensures forall j :: 0 <= j < |r| ==> lanes[j] == Some(r[j])
    ensures |r| < limit && |r| < |lanes| ==> lanes[|r|].None?
  {
    if limit == 0 || lanes == [] || lanes[0].None? then [] else [lanes[0].value] + Scanned(lanes[1..], limit - 1)
  }

  /** The lanes scanned are all up to the first error, but at most sixteen. */
  lemma ScannedTo(lanes: seq<Option<Lane>>, n: nat)
    requires n <= |lanes| && n <= 16 && forall j :: 0 <= j < n ==> lanes[j].Some?
    requires n == 16 || n == |lanes| || lanes[n].None?
    ensures |Scanned(lanes, MAX_LANES)| == n
    ensures forall j :: 0 <= j < n ==> Scanned(lanes, MAX_LANES)[j] == lanes[j].value
  {
    ScannedPrefix(lanes, 16, n);
  }

  lemma {:induction false} ScannedPrefix(lanes: seq<Option<Lane>>, limit: nat, n: nat)
    requires n <= |lanes| && n <= limit && forall j :: 0 <= j < n ==> lanes[j].Some?
    requires n == limit || n == |lanes| || lanes[n].None?
    ensures |Scanned(lanes, limit)| == n
    ensures forall j :: 0 <= j < n ==> Scanned(lanes, limit)[j] == lanes[j].value
  {
    if n > 0 { ScannedPrefix(lanes[1..], limit - 1, n - 1); }
  }

  function Buses(scan: seq<Lane>): (r: seq<string>)
    ensures |r| == |scan| && forall j :: 0 <= j < |r| ==> r[j] == scan[j].busId
  {
    if scan == [] then [] else Buses(scan[..|scan| - 1]) + [scan[|scan| - 1].busId]
  }

  /** One lane: only a remote end not yet registered is looked up, and `P2PIndex > j` compares the index of the
      device found with the number of the lane. */
  function LaneUpdate(st: Status, lane: Lane, j: nat, lookup: map<string, Peer>): Status {
    if lane.busId in st.lanes then st.(lanes := st.lanes[lane.busId := st.lanes[lane.busId] + 1])
    else if lane.busId in lookup && lookup[lane.busId].index > j
    then Status(st.lanes[lane.busId := 1], st.p2pUuid + [lookup[lane.busId].uuid],
                st.p2pDeviceType + [lane.deviceType], st.p2pBusId + [lane.busId])
    else st
  }

  function ScanStatus(scan: seq<Lane>, lookup: map<string, Peer>): Status {
    if scan == [] then Status(map[], [], [], [])
    else LaneUpdate(ScanStatus(scan[..|scan| - 1], lookup), scan[|scan| - 1], |scan| - 1, lookup)
  }

  lemma StatusStep(scan: seq<Lane>, j: nat, lookup: map<string, Peer>)
    requires j < |scan|
    ensures ScanStatus(scan[..j + 1], lookup) == LaneUpdate(ScanStatus(scan[..j], lookup), scan[j], j, lookup)
  {
    assert scan[..j + 1][..j] == scan[..j];
  }

  /** The body of the lane loop after a lane has reported its remote end. */
  method VisitLane(before: Status, lane: Lane, j: nat, lookup: map<string, Peer>) returns (st: Status)
    ensures st == LaneUpdate(before, lane, j, lookup)
  {
    st := before;
    if lane.busId !in st.lanes {
      if lane.busId in lookup {
        var peer := lookup[lane.busId];
        if peer.index > j {
          st := st.(lanes := st.lanes[lane.busId := 1]);
          st := st.(p2pDeviceType := st.p2pDeviceType + [lane.deviceType]);
          st := st.(p2pUuid := st.p2pUuid + [peer.uuid]);
          st := st.(p2pBusId := st.p2pBusId + [lane.busId]);
        }
      }
    } else {
      st := st.(lanes := st.lanes[lane.busId := st.lanes[lane.busId] + 1]);
    }
  }

  method ScanLanes(lanes: seq<Option<Lane>>, lookup: map<string, Peer>) returns (st: Status)
    ensures st == ScanStatus(Scanned(lanes, MAX_LANES), lookup)
  {
    st := Status(map[], [], [], []);
    ghost var scan := Scanned(lanes, MAX_LANES);
    var j := 0;
    while j < MAX_LANES
      invariant j <= |scan|
      invariant st == ScanStatus(scan[..j], lookup)
    {
      if j >= |lanes| || lanes[j].None? {
        break;
      }
      StatusStep(scan, j, lookup);
      st := VisitLane(st, lanes[j].value, j, lookup);
      j := j + 1;
    }
    assert scan[..|scan|] == scan;
  }

  // ----- what the loop establishes

  /** The first lane that reaches a bus. */
  function FirstLane(scan: seq<Lane>, bus: string): (r: nat)
    ensures r <= |scan|
    ensures r < |scan| ==> scan[r].busId == bus
    ensures forall j :: 0 <= j < r ==> scan[j].busId != bus
  {
    if scan == [] || scan[0].busId == bus then 0 else 1 + FirstLane(scan[1..], bus)
  }

  /** A bus is registered iff some lane reaches it, its lookup succeeds, and its device index exceeds the number
      of the first lane reaching it. */
  predicate Registered(scan: seq<Lane>, lookup: map<string, Peer>, bus: string) {
    FirstLane(scan, bus) < |scan| && bus in lookup && lookup[bus].index > FirstLane(scan, bus)
  }

  /** The map holds the registered buses, each with the number of lanes that reach it. */
  ghost predicate CountsRight(scan: seq<Lane>, lookup: map<string, Peer>, st: Status) {
    forall bus :: (bus in st.lanes <==> Registered(scan, lookup, bus))
                  && (bus in st.lanes ==> st.lanes[bus] == Count(Buses(scan), bus))
  }

  /** The same for one bus. */
  ghost predicate CountRight(scan: seq<Lane>, lookup: map<string, Peer>, st: Status, bus: string) {
    (bus in st.lanes <==> Registered(scan, lookup, bus))
        && (bus in st.lanes ==> st.lanes[bus] == Count(Buses(scan), bus))
  }

  /** The lists are parallel and name the registered buses in the order of their first lanes. */
  ghost predicate ListsRight(scan: seq<Lane>, lookup: map<string, Peer>, st: Status) {
    && Parallel(st)
    && (forall k: nat :: k < |st.p2pBusId| ==> EntryRight(scan, lookup, st, k))
    && InOrder(scan, st.p2pBusId)
  }

  ghost predicate Parallel(st: Status) {
    |st.p2pUuid| == |st.p2pDeviceType| == |st.p2pBusId| && forall bus :: bus in st.lanes <==> bus in st.p2pBusId
  }

  /** Buses listed in the order of their first lanes; so none is listed twice. */
  ghost predicate InOrder(scan: seq<Lane>, buses: seq<string>) {
    forall k, m :: 0 <= k < m < |buses| ==> FirstLane(scan, buses[k]) < FirstLane(scan, buses[m])
  }

  /** The k-th entries of the three lists describe one peer. */
  ghost predicate EntryRight(scan: seq<Lane>, lookup: map<string, Peer>, st: Status, k: nat)
    requires |st.p2pUuid| == |st.p2pDeviceType| == |st.p2pBusId| && k < |st.p2pBusId|
  {
    var bus := st.p2pBusId[k];
    && Registered(scan, lookup, bus)
    && st.p2pUuid[k] == lookup[bus].uuid
    && st.p2pDeviceType[k] == scan[FirstLane(scan, bus)].deviceType
  }

  lemma FirstLaneIs(scan: seq<Lane>, bus: string, j: nat)
    requires j <= |scan| && (j < |scan| ==> scan[j].busId == bus)
    requires forall i :: 0 <= i < j ==> scan[i].busId != bus
    ensures FirstLane(scan, bus) == j
  {
  }

  /** One more lane changes the first lane of no bus but, perhaps, its own. */
  lemma FirstLaneStep(scan: seq<Lane>, j: nat, bus: string)
    requires j < |scan|
    ensures var oldFirst := FirstLane(scan[..j], bus);
            FirstLane(scan[..j + 1], bus) == if oldFirst < j || scan[j].busId == bus then oldFirst else j + 1
  {
    var f := FirstLane(scan[..j], bus);
    if f < j || scan[j].busId == bus {
      FirstLaneIs(scan[..j + 1], bus, f);
    } else {
      FirstLaneIs(scan[..j + 1], bus, j + 1);
    }
  }

  lemma BusesStep(scan: seq<Lane>, j: nat, bus: string)
    requires j < |scan|
    ensures Count(Buses(scan[..j + 1]), bus) == Count(Buses(scan[..j]), bus) + (if scan[j].busId == bus then 1 else 0)
    ensures FirstLane(scan[..j], bus) == j ==> Count(Buses(scan[..j]), bus) == 0
  {
    assert scan[..j + 1][..j] == scan[..j];
    CountPush(Buses(scan[..j]), scan[j].busId, bus);
    CountZero(Buses(scan[..j]), bus);
  }

  /** Every scan, whatever its lanes and lookups, ends with the right counts and the right lists. */
  lemma {:induction false} ScanIsRight(scan: seq<Lane>, lookup: map<string, Peer>)
    ensures CountsRight(scan, lookup, ScanStatus(scan, lookup))
    ensures ListsRight(scan, lookup, ScanStatus(scan, lookup))
  {
    if scan != [] {
      var j := |scan| - 1;
      ScanIsRight(scan[..j], lookup);
      assert scan[..j + 1] == scan;
      CountsStep(scan, j, lookup, ScanStatus(scan[..j], lookup));
      var st := ScanStatus(scan[..j], lookup);
      if LaneUpdate(st, scan[j], j, lookup).p2pBusId != st.p2pBusId { ListedAtFirstLane(scan, j, lookup, st); }
      ListsStep(scan, j, lookup, st);
    }
  }

  lemma CountsStep(scan: seq<Lane>, j: nat, lookup: map<string, Peer>, st: Status)
    requires j < |scan| && CountsRight(scan[..j], lookup, st)
    ensures CountsRight(scan[..j + 1], lookup, LaneUpdate(st, scan[j], j, lookup))
  {
    var t := LaneUpdate(st, scan[j], j, lookup);
    forall b ensures (b in t.lanes <==> Registered(scan[..j + 1], lookup, b))
                     && (b in t.lanes ==> t.lanes[b] == Count(Buses(scan[..j + 1]), b))
    {
      assert (b in st.lanes <==> Registered(scan[..j], lookup, b))
          && (b in st.lanes ==> st.lanes[b] == Count(Buses(scan[..j]), b));
      CountStep(scan, j, lookup, st, b);
    }
  }

  lemma CountStep(scan: seq<Lane>, j: nat, lookup: map<string, Peer>, st: Status, bus: string)
    requires j < |scan| && CountRight(scan[..j], lookup, st, bus)
    ensures CountRight(scan[..j + 1], lookup, LaneUpdate(st, scan[j], j, lookup), bus)
  {
    FirstLaneStep(scan, j, bus);
    BusesStep(scan, j, bus);
    LaneCounted(st, scan[j], j, lookup, bus, FirstLane(scan[..j], bus), Count(Buses(scan[..j]), bus));
  }

  /** Of the lanes before lane j, `first` is the first that reaches the bus, or j, and `count` lanes reach it. */
  lemma LaneCounted(st: Status, lane: Lane, j: nat, lookup: map<string, Peer>, bus: string, first: nat, count: nat)
    requires first <= j && (first == j ==> count == 0)
    requires bus in st.lanes <==> first < j && bus in lookup && lookup[bus].index > first
    requires bus in st.lanes ==> st.lanes[bus] == count
    ensures var t := LaneUpdate(st, lane, j, lookup);
            var first' := if first < j || lane.busId == bus then first else j + 1;
            && (bus in t.lanes <==> first' < j + 1 && bus in lookup && lookup[bus].index > first')
            && (bus in t.lanes ==> t.lanes[bus] == count + (if lane.busId == bus then 1 else 0))
  {
  }

  /** A peer is listed when the first lane reaching it is scanned. */
  lemma ListedAtFirstLane(scan: seq<Lane>, j: nat, lookup: map<string, Peer>, st: Status)
    requires j < |scan| && CountsRight(scan[..j], lookup, st)
    requires LaneUpdate(st, scan[j], j, lookup).p2pBusId != st.p2pBusId
    ensures FirstLane(scan[..j + 1], scan[j].busId) == j
  {
    FirstLaneStep(scan, j, scan[j].busId);
  }

  lemma ListsStep(scan: seq<Lane>, j: nat, lookup: map<string, Peer>, st: Status)
    requires j < |scan| && ListsRight(scan[..j], lookup, st)
    requires LaneUpdate(st, scan[j], j, lookup).p2pBusId != st.p2pBusId ==> FirstLane(scan[..j + 1], scan[j].busId) == j
    ensures ListsRight(scan[..j + 1], lookup, LaneUpdate(st, scan[j], j, lookup))
  {
    var t, bus := LaneUpdate(st, scan[j], j, lookup), scan[j].busId;
    ParallelStep(st, scan[j], j, lookup);
    OrderStays(scan, j, lookup, st);
    forall k: nat | k < |st.p2pBusId|
        ensures t.p2pBusId[k] == st.p2pBusId[k] && EntryRight(scan[..j + 1], lookup, t, k) {
      EntryStays(scan, j, lookup, st, k);
    }
    if t.p2pBusId != st.p2pBusId {
      assert t.p2pBusId == st.p2pBusId + [bus];
      OrderPush(scan[..j + 1], st.p2pBusId, bus);
      assert EntryRight(scan[..j + 1], lookup, t, |st.p2pBusId|);
    }
  }

  lemma ParallelStep(st: Status, lane: Lane, j: nat, lookup: map<string, Peer>)
    requires Parallel(st)
    ensures Parallel(LaneUpdate(st, lane, j, lookup))
  {
  }

  lemma OrderPush(scan: seq<Lane>, buses: seq<string>, bus: string)
    requires InOrder(scan, buses) && forall k :: 0 <= k < |buses| ==> FirstLane(scan, buses[k]) < FirstLane(scan, bus)
    ensures InOrder(scan, buses + [bus])
  {
  }

  /** The peers listed so far keep their first lanes, all before lane j. */
  lemma OrderStays(scan: seq<Lane>, j: nat, lookup: map<string, Peer>, st: Status)
    requires j < |scan| && ListsRight(scan[..j], lookup, st)
    ensures InOrder(scan[..j + 1], st.p2pBusId)
    ensures forall k :: 0 <= k < |st.p2pBusId| ==> FirstLane(scan[..j + 1], st.p2pBusId[k]) < j
  {
    forall k | 0 <= k < |st.p2pBusId|
      ensures FirstLane(scan[..j + 1], st.p2pBusId[k]) < j
          && FirstLane(scan[..j], st.p2pBusId[k]) == FirstLane(scan[..j + 1], st.p2pBusId[k])
    {
      EntryStays(scan, j, lookup, st, k);
    }
  }

  lemma EntryStays(scan: seq<Lane>, j: nat, lookup: map<string, Peer>, st: Status, k: nat)
    requires j < |scan| && ListsRight(scan[..j], lookup, st) && k < |st.p2pBusId|
    ensures FirstLane(scan[..j + 1], st.p2pBusId[k]) == FirstLane(scan[..j], st.p2pBusId[k]) < j
    ensures EntryRight(scan[..j + 1], lookup, LaneUpdate(st, scan[j], j, lookup), k)
  {
    FirstLaneStep(scan, j, st.p2pBusId[k]);
    assert EntryRight(scan[..j], lookup, st, k);
  }

  // ----- conservation of lanes

  /** The lanes that reach a registered bus. */
  ghost function LanesToRegistered(scan: seq<Lane>, st: Status): nat {
    if scan == [] then 0
    else LanesToRegistered(scan[..|scan| - 1], st) + (if scan[|scan| - 1].busId in st.p2pBusId then 1 else 0)
  }

  /** The link counts of the listed peers, added up. */
  ghost function TotalLinks(scan: seq<Lane>, buses: seq<string>): nat {
    if buses == [] then 0 else TotalLinks(scan, buses[..|buses| - 1]) + Count(Buses(scan), buses[|buses| - 1])
  }

  lemma {:induction false} TotalLinksPush(scan: seq<Lane>, buses: seq<string>)
    requires scan != []
    ensures TotalLinks(scan, buses) == TotalLinks(scan[..|scan| - 1], buses) + Count(buses, scan[|scan| - 1].busId)
  {
    if buses != [] {
      TotalLinksPush(scan, buses[..|buses| - 1]);
      CountPush(Buses(scan[..|scan| - 1]), scan[|scan| - 1].busId, buses[|buses| - 1]);
    }
  }

  lemma {:induction false} TotalLinksEmpty(buses: seq<string>)
    ensures TotalLinks([], buses) == 0
  {
    if buses != [] { TotalLinksEmpty(buses[..|buses| - 1]); }
  }

  lemma {:induction false} DistinctOnce(buses: seq<string>, b: string)
    requires forall k, m :: 0 <= k < m < |buses| ==> buses[k] != buses[m]
    ensures Count(buses, b) == if b in buses then 1 else 0
  {
    if buses != [] {
      var front := buses[..|buses| - 1];
      DistinctOnce(front, b);
      assert buses == front + [buses[|buses| - 1]];
    }
  }

  lemma {:induction false} TotalIsLanes(scan: seq<Lane>, st: Status)
    requires forall k, m :: 0 <= k < m < |st.p2pBusId| ==> st.p2pBusId[k] != st.p2pBusId[m]
    ensures TotalLinks(scan, st.p2pBusId) == LanesToRegistered(scan, st)
  {
    if scan == [] {
      TotalLinksEmpty(st.p2pBusId);
    } else {
      TotalIsLanes(scan[..|scan| - 1], st);
      TotalLinksPush(scan, st.p2pBusId);
      DistinctOnce(st.p2pBusId, scan[|scan| - 1].busId);
    }
  }

  /** The counts of a scan: positive, of distinct peers, and together the lanes that reach registered peers. */
  lemma LinksAddUp(scan: seq<Lane>, lookup: map<string, Peer>, st: Status)
    requires ListsRight(scan, lookup, st) && CountsRight(scan, lookup, st)
    ensures forall k, m :: 0 <= k < m < |st.p2pBusId| ==> st.p2pBusId[k] != st.p2pBusId[m]
    ensures TotalLinks(scan, st.p2pBusId) == LanesToRegistered(scan, st)
    ensures forall bus :: bus in st.lanes ==> st.lanes[bus] >= 1
  {
    forall k, m | 0 <= k < m < |st.p2pBusId| ensures st.p2pBusId[k] != st.p2pBusId[m] {
      assert FirstLane(scan, st.p2pBusId[k]) < FirstLane(scan, st.p2pBusId[m]);
    }
    TotalIsLanes(scan, st);
    forall bus | bus in st.lanes ensures st.lanes[bus] >= 1 {
      CountZero(Buses(scan), bus);
      assert Buses(scan)[FirstLane(scan, bus)] == bus;
    }
  }

  /** The lane test can hide a peer for good: the device with index i is registered only if one of the lanes
      0 .. i-1 reaches it, so the one with index 0 never is. */
  lemma HiddenPeer(scan: seq<Lane>, lookup: map<string, Peer>, st: Status, bus: string)
    requires CountsRight(scan, lookup, st) && bus in lookup
    ensures bus in st.lanes <==> exists j :: 0 <= j < |scan| && j < lookup[bus].index && scan[j].busId == bus
  {
  }

  // ----- all devices

  /** The links of one device: its peers in order, each with the count read from the map. */
  function LinkList(uuid: string, st: Status, n: nat): (r: seq<NvLink>)
    requires n <= |st.p2pUuid| && n <= |st.p2pBusId|
    ensures |r| == n
    ensures forall k :: 0 <= k < n ==>
              r[k] == NvLink(uuid, st.p2pUuid[k], if st.p2pBusId[k] in st.lanes then st.lanes[st.p2pBusId[k]] else 0)
  {
    if n == 0 then []
    else
      var bus := st.p2pBusId[n - 1];
      LinkList(uuid, st, n - 1) + [NvLink(uuid, st.p2pUuid[n - 1], if bus in st.lanes then st.lanes[bus] else 0)]
  }

  ghost function DeviceLinks(device: Device, lookup: map<string, Peer>): seq<NvLink> {
    var scan := Scanned(device.lanes, MAX_LANES);
    var st := ScanStatus(scan, lookup);
    ScanIsRight(scan, lookup);
    LinkList(device.uuid, st, |st.p2pUuid|)
  }

  ghost function AllLinks(devices: seq<Device>, lookup: map<string, Peer>): seq<NvLink> {
    if devices == [] then []
    else AllLinks(devices[..|devices| - 1], lookup) + DeviceLinks(devices[|devices| - 1], lookup)
  }

  method GetNvlinkInfo(devices: seq<Device>, lookup: map<string, Peer>) returns (info: seq<NvLink>)
    ensures info == AllLinks(devices, lookup)
  {
    info := [];
    for i := 0 to |devices|
      invariant info == AllLinks(devices[..i], lookup)
    {
      assert devices[..i + 1][..i] == devices[..i];
      var st := ScanLanes(devices[i].lanes, lookup);
      ScanIsRight(Scanned(devices[i].lanes, MAX_LANES), lookup);
      var links := ListLinks(devices[i].uuid, st);
      info := info + links;
    }
    assert devices[..|devices|] == devices;
  }

  lemma LinksStep(devices: seq<Device>, lookup: map<string, Peer>, i: nat)
    requires i < |devices|
    ensures AllLinks(devices[..i + 1], lookup) == AllLinks(devices[..i], lookup) + DeviceLinks(devices[i], lookup)
  {
    assert devices[..i + 1][..i] == devices[..i];
  }

  lemma {:induction false} LinksPrefix(devices: seq<Device>, lookup: map<string, Peer>, i: nat)
    requires i <= |devices|
    ensures AllLinks(devices[..i], lookup) <= AllLinks(devices, lookup)
    decreases |devices| - i
  {
    if i < |devices| {
      LinksStep(devices, lookup, i);
      LinksPrefix(devices, lookup, i + 1);
    } else {
      assert devices[..i] == devices;
    }
  }

  /** Device after device: the links of the i-th stand in one piece behind those of the devices before it. */
  lemma LinksInOrder(devices: seq<Device>, lookup: map<string, Peer>, i: nat)
    requires i < |devices|
    ensures AllLinks(devices[..i], lookup) + DeviceLinks(devices[i], lookup) <= AllLinks(devices, lookup)
  {
    LinksStep(devices, lookup, i);
    LinksPrefix(devices, lookup, i + 1);
  }

  method ListLinks(uuid: string, st: Status) returns (links: seq<NvLink>)
    requires |st.p2pUuid| == |st.p2pBusId|
    ensures links == LinkList(uuid, st, |st.p2pUuid|)
  {
    links := [];
    for j := 0 to |st.p2pUuid|
      invariant links == LinkList(uuid, st, j)
    {
      var bus := st.p2pBusId[j];
      links := links + [NvLink(uuid, st.p2pUuid[j], if bus in st.lanes then st.lanes[bus] else 0)];
    }
  }

  /** What a reported link says: the k-th link of a device goes to the k-th registered peer, and counts the lanes
      of the scan that reach it. */
  lemma LinkMeaning(device: Device, lookup: map<string, Peer>, k: nat)
    requires k < |DeviceLinks(device, lookup)|
    ensures var scan := Scanned(device.lanes, MAX_LANES); var link := DeviceLinks(device, lookup)[k];
            exists bus :: Registered(scan, lookup, bus)
                          && link == NvLink(device.uuid, lookup[bus].uuid, Count(Buses(scan), bus))
                          && link.countLink >= 1
  {
    var scan := Scanned(device.lanes, MAX_LANES);
    var st := ScanStatus(scan, lookup);
    ScanIsRight(scan, lookup);
    LinksAddUp(scan, lookup, st);
    var bus := st.p2pBusId[k];
    assert EntryRight(scan, lookup, st, k);
    assert Registered(scan, lookup, bus);
  }

  // ----- how often a pair is listed

  /** The number of links from one device to another. */
  function LinksBetween(links: seq<NvLink>, u: string, v: string): nat {
    if links == [] then 0
    else
      var last := links[|links| - 1];
      LinksBetween(links[..|links| - 1], u, v) + (if last.gpu1 == u && last.gpu2 == v then 1 else 0)
  }

  lemma {:induction false} LinksConcat(a: seq<NvLink>, b: seq<NvLink>, u: string, v: string)
    ensures LinksBetween(a + b, u, v) == LinksBetween(a, u, v) + LinksBetween(b, u, v)
  {
    if b == [] {
      assert a + b == a;
    } else {
      LinksConcat(a, b[..|b| - 1], u, v);
      assert (a + b)[..|a + b| - 1] == a + b[..|b| - 1];
    }
  }

  /** The bus is the only one under which a device with this UUID is found. */
  ghost predicate OnlyBus(lookup: map<string, Peer>, bus: string, uuid: string) {
    bus in lookup && lookup[bus].uuid == uuid && forall b :: b in lookup && lookup[b].uuid == uuid ==> b == bus
  }

  /** Links of the first n peers. */
  lemma {:induction false} ListCounts(
    uuid: string, st: Status, n: nat, lookup: map<string, Peer>, bus: string, v: string)
    requires n <= |st.p2pUuid| == |st.p2pBusId| && OnlyBus(lookup, bus, v)
    requires forall k :: 0 <= k < |st.p2pBusId| ==>
               st.p2pBusId[k] in lookup && st.p2pUuid[k] == lookup[st.p2pBusId[k]].uuid
    ensures LinksBetween(LinkList(uuid, st, n), uuid, v) == Count(st.p2pBusId[..n], bus)
  {
    if n > 0 {
      ListCounts(uuid, st, n - 1, lookup, bus, v);
      assert st.p2pBusId[..n][..n - 1] == st.p2pBusId[..n - 1];
      assert LinkList(uuid, st, n)[..n - 1] == LinkList(uuid, st, n - 1);
    }
  }

  lemma {:induction false} OthersCountNothing(uuid: string, st: Status, n: nat, u: string, v: string)
    requires n <= |st.p2pUuid| && n <= |st.p2pBusId| && uuid != u
    ensures LinksBetween(LinkList(uuid, st, n), u, v) == 0
  {
    if n > 0 {
      OthersCountNothing(uuid, st, n - 1, u, v);
      assert LinkList(uuid, st, n)[..n - 1] == LinkList(uuid, st, n - 1);
    }
  }

  /** One of the lanes below n reaches the bus. */
  ghost predicate ReachedBefore(device: Device, bus: string, n: int) {
    var scan := Scanned(device.lanes, MAX_LANES);
    exists j :: 0 <= j < |scan| && j < n && scan[j].busId == bus
  }

  /** A device lists a peer once if one of the lanes below the peer's index reaches it, and not at all otherwise. */
  lemma DeviceCounts(device: Device, lookup: map<string, Peer>, bus: string, v: string)
    requires OnlyBus(lookup, bus, v)
    ensures LinksBetween(DeviceLinks(device, lookup), device.uuid, v)
         == if ReachedBefore(device, bus, lookup[bus].index) then 1 else 0
  {
    var scan := Scanned(device.lanes, MAX_LANES);
    var st := ScanStatus(scan, lookup);
    ScanIsRight(scan, lookup);
    CountsOnce(scan, lookup, st, device.uuid, bus, v);
    HiddenPeer(scan, lookup, st, bus);
  }

  /** A peer is listed as often as it is registered. */
  lemma CountsOnce(scan: seq<Lane>, lookup: map<string, Peer>, st: Status, uuid: string, bus: string, v: string)
    requires ListsRight(scan, lookup, st) && CountsRight(scan, lookup, st) && OnlyBus(lookup, bus, v)
    ensures LinksBetween(LinkList(uuid, st, |st.p2pUuid|), uuid, v) == if bus in st.lanes then 1 else 0
  {
    LinksAddUp(scan, lookup, st);
    forall k | 0 <= k < |st.p2pBusId| ensures st.p2pBusId[k] in lookup && st.p2pUuid[k] == lookup[st.p2pBusId[k]].uuid {
      assert EntryRight(scan, lookup, st, k);
    }
    ListCounts(uuid, st, |st.p2pUuid|, lookup, bus, v);
    assert st.p2pBusId[..|st.p2pUuid|] == st.p2pBusId;
    DistinctOnce(st.p2pBusId, bus);
  }

  ghost predicate DistinctUuids(devices: seq<Device>) {
    forall i, j :: 0 <= i < j < |devices| ==> devices[i].uuid != devices[j].uuid
  }

  lemma {:induction false} NodeCounts(devices: seq<Device>, lookup: map<string, Peer>, i: nat, bus: string, v: string)
    requires i < |devices| && DistinctUuids(devices) && OnlyBus(lookup, bus, v)
    ensures LinksBetween(AllLinks(devices, lookup), devices[i].uuid, v)
         == if ReachedBefore(devices[i], bus, lookup[bus].index) then 1 else 0
  {
    var n, u := |devices| - 1, devices[i].uuid;
    var front, last := devices[..n], devices[n];
    LinksConcat(AllLinks(front, lookup), DeviceLinks(last, lookup), u, v);
    if i < n {
      NodeCounts(front, lookup, i, bus, v);
      OtherDevice(last, lookup, u, v);
    } else {
      DeviceCounts(last, lookup, bus, v);
      OtherDevices(front, lookup, u, v);
    }
  }

  lemma OtherDevice(device: Device, lookup: map<string, Peer>, u: string, v: string)
    requires device.uuid != u
    ensures LinksBetween(DeviceLinks(device, lookup), u, v) == 0
  {
    var scan := Scanned(device.lanes, MAX_LANES);
    ScanIsRight(scan, lookup);
    var st := ScanStatus(scan, lookup);
    OthersCountNothing(device.uuid, st, |st.p2pUuid|, u, v);
  }

  lemma {:induction false} OtherDevices(devices: seq<Device>, lookup: map<string, Peer>, u: string, v: string)
    requires forall i :: 0 <= i < |devices| ==> devices[i].uuid != u
    ensures LinksBetween(AllLinks(devices, lookup), u, v) == 0
  {
    if devices != [] {
      var n := |devices| - 1;
      OtherDevices(devices[..n], lookup, u, v);
      OtherDevice(devices[n], lookup, u, v);
      LinksConcat(AllLinks(devices[..n], lookup), DeviceLinks(devices[n], lookup), u, v);
    }
  }

  /** How often a pair of devices appears in the list, counted from both ends: once for each of them that reaches the
      other by a lane below the other's index. The test is evidently meant to list each pair once; that is so exactly
      when one of the two reaches the other in this way and not both. */
  lemma PairListed(devices: seq<Device>, lookup: map<string, Peer>, i: nat, j: nat, busI: string, busJ: string)
    requires i < |devices| && j < |devices| && i != j && DistinctUuids(devices)
    requires OnlyBus(lookup, busI, devices[i].uuid) && OnlyBus(lookup, busJ, devices[j].uuid)
    requires lookup[busI].index == i && lookup[busJ].index == j
    ensures var links, u, v := AllLinks(devices, lookup), devices[i].uuid, devices[j].uuid;
            var times := LinksBetween(links, u, v) + LinksBetween(links, v, u);
            && (times == 0 <==> !ReachedBefore(devices[i], busJ, j) && !ReachedBefore(devices[j], busI, i))
            && (times == 1 <==> (ReachedBefore(devices[i], busJ, j) <==> !ReachedBefore(devices[j], busI, i)))
            && (times == 2 <==> ReachedBefore(devices[i], busJ, j) && ReachedBefore(devices[j], busI, i))
  {
    NodeCounts(devices, lookup, i, busJ, devices[j].uuid);
    NodeCounts(devices, lookup, j, busI, devices[i].uuid);
  }
}
