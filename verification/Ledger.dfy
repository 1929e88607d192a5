/** gpumpsmetric/gpumpsmetric.go, the container ledger: `podmap` persists over the ticks of one GPU. */
module Ledger {
  import opened Wrappers

  /** One entry; the fields of storage.PodGPU that nothing here writes are left out. */
  datatype PodGpu = PodGpu(containerId: string, runningCheck: bool, healthCheck: bool)

  /** The position of a container in the ledger. */
  function Find(podmap: seq<PodGpu>, id: string): (r: Option<nat>)
    ensures r.None? <==> forall j :: 0 <= j < |podmap| ==> podmap[j].containerId != id
    ensures r.Some? ==> r.value < |podmap| && podmap[r.value].containerId == id
    ensures r.Some? ==> forall j :: 0 <= j < r.value ==> podmap[j].containerId != id
  {
    if podmap == [] then None
    else
      var front := Find(podmap[..|podmap| - 1], id);
      if front.Some? then front
      else if podmap[|podmap| - 1].containerId == id then Some(|podmap| - 1)
      else None
  }

  function Cleared(podmap: seq<PodGpu>): (r: seq<PodGpu>)
    ensures |r| == |podmap|
    ensures forall j :: 0 <= j < |r| ==> r[j] == podmap[j].(runningCheck := false)
  {
    if podmap == [] then [] else Cleared(podmap[..|podmap| - 1]) + [podmap[|podmap| - 1].(runningCheck := false)]
  }

  /** One joined container: a known one is running, an unknown one is added at the end. */
  function Mark(podmap: seq<PodGpu>, id: string): seq<PodGpu> {
    var j := Find(podmap, id);
    if j.Some? then podmap[j.value := podmap[j.value].(runningCheck := true)]
    else podmap + [PodGpu(id, false, false)]
  }

  function MarkAll(podmap: seq<PodGpu>, ids: seq<string>): seq<PodGpu> {
    if ids == [] then podmap else Mark(MarkAll(podmap, ids[..|ids| - 1]), ids[|ids| - 1])
  }

  /** The ledger after one tick in which these containers were joined, in this order. */
  function Tick(podmap: seq<PodGpu>, ids: seq<string>): seq<PodGpu> {
    MarkAll(Cleared(podmap), ids)
  }

  /** The entries counted as returned: not running, but once found healthy. */
  function Returned(podmap: seq<PodGpu>): nat {
    if podmap == [] then 0
    else
      Returned(podmap[..|podmap| - 1])
      + (if !podmap[|podmap| - 1].runningCheck && podmap[|podmap| - 1].healthCheck then 1 else 0)
  }

  /** So an entry counts once if it was found healthy and is not running, wherever it stands, and otherwise not. */
  lemma {:induction false} ReturnedConcat(a: seq<PodGpu>, b: seq<PodGpu>)
    ensures Returned(a + b) == Returned(a) + Returned(b)
  {
    if b == [] {
      assert a + b == a;
    } else {
      ReturnedConcat(a, b[..|b| - 1]);
      assert (a + b)[..|a + b| - 1] == a + b[..|b| - 1];
    }
  }

  lemma ReturnedOne(e: PodGpu)
    ensures Returned([e]) == if e.healthCheck && !e.runningCheck then 1 else 0
  {
    assert [e][..0] == [];
  }

  // ----- what a tick does

  ghost function Known(podmap: seq<PodGpu>): set<string> { set j | 0 <= j < |podmap| :: podmap[j].containerId }

  ghost predicate Distinct(podmap: seq<PodGpu>) {
    forall i, j :: 0 <= i < j < |podmap| ==> podmap[i].containerId != podmap[j].containerId
  }

  ghost predicate NeverHealthy(podmap: seq<PodGpu>) {
    forall j :: 0 <= j < |podmap| ==> !podmap[j].healthCheck
  }

  lemma MarkKeeps(podmap: seq<PodGpu>, id: string)
    requires Distinct(podmap)
    ensures Distinct(Mark(podmap, id))
    ensures NeverHealthy(podmap) ==> NeverHealthy(Mark(podmap, id))
    ensures |podmap| <= |Mark(podmap, id)|
    ensures forall j :: 0 <= j < |podmap| ==> Mark(podmap, id)[j].containerId == podmap[j].containerId
  {
  }

  lemma {:induction false} MarkAllKeeps(podmap: seq<PodGpu>, ids: seq<string>)
    requires Distinct(podmap)
    ensures Distinct(MarkAll(podmap, ids))
    ensures NeverHealthy(podmap) ==> NeverHealthy(MarkAll(podmap, ids))
    ensures |podmap| <= |MarkAll(podmap, ids)|
    ensures forall j :: 0 <= j < |podmap| ==> MarkAll(podmap, ids)[j].containerId == podmap[j].containerId
  {
    if ids != [] {
      var front, last := ids[..|ids| - 1], ids[|ids| - 1];
      MarkAllKeeps(podmap, front);
      MarkKeeps(MarkAll(podmap, front), last);
    }
  }

  lemma {:induction false} MarkAllKnown(podmap: seq<PodGpu>, ids: seq<string>)
    ensures forall id :: id in Known(MarkAll(podmap, ids)) <==> id in Known(podmap) || id in ids
  {
    if ids != [] {
      var front, last := ids[..|ids| - 1], ids[|ids| - 1];
      MarkAllKnown(podmap, front);
      MarkKnown(MarkAll(podmap, front), last);
      assert ids == front + [last];
    }
  }

  lemma MarkKnown(podmap: seq<PodGpu>, id: string)
    ensures Known(Mark(podmap, id)) == Known(podmap) + {id}
  {
    var after := Mark(podmap, id);
    forall x | x in Known(podmap) + {id} ensures x in Known(after) {
      if x in Known(podmap) {
        var j :| 0 <= j < |podmap| && podmap[j].containerId == x;
        assert after[j].containerId == x;
      } else {
        assert after[|podmap|].containerId == id;
      }
    }
  }

  /** An entry is running after a tick iff its container was known before and joined in the tick, or was joined
      at least twice in it. */
  lemma {:induction false} MarkAllRunning(podmap: seq<PodGpu>, ids: seq<string>)
    requires Distinct(podmap) && forall j :: 0 <= j < |podmap| ==> !podmap[j].runningCheck
    ensures var after := MarkAll(podmap, ids);
            forall j :: 0 <= j < |after| ==>
              var times := Count(ids, after[j].containerId);
              (after[j].runningCheck <==> (j < |podmap| && times >= 1) || times >= 2)
    ensures var after := MarkAll(podmap, ids);
            forall j :: |podmap| <= j < |after| ==> Count(ids, after[j].containerId) >= 1
  {
    if ids != [] {
      var front, last := ids[..|ids| - 1], ids[|ids| - 1];
      MarkAllRunning(podmap, front);
      MarkAllKeeps(podmap, front);
      MarkAllKnown(podmap, front);
      var before := MarkAll(podmap, front);
      forall x ensures Count(ids, x) == Count(front, x) + (if last == x then 1 else 0) { }
      if Find(before, last).None? {
        CountZero(front, last);
        assert last !in Known(before);
      }
    }
  }

  /** One tick on a ledger of distinct containers. */
  lemma TickKeeps(podmap: seq<PodGpu>, ids: seq<string>)
    requires Distinct(podmap)
    ensures var after := Tick(podmap, ids);
            && Distinct(after) && |podmap| <= |after|
            && (forall id :: id in Known(after) <==> id in Known(podmap) || id in ids)
            && (NeverHealthy(podmap) ==> NeverHealthy(after))
  {
    MarkAllKeeps(Cleared(podmap), ids);
    MarkAllKnown(Cleared(podmap), ids);
    assert Known(Cleared(podmap)) == Known(podmap) by {
      forall x | x in Known(podmap) ensures x in Known(Cleared(podmap)) {
        var j :| 0 <= j < |podmap| && podmap[j].containerId == x;
        assert Cleared(podmap)[j].containerId == x;
      }
      forall x | x in Known(Cleared(podmap)) ensures x in Known(podmap) {
        var j :| 0 <= j < |podmap| && Cleared(podmap)[j].containerId == x;
        assert podmap[j].containerId == x;
      }
    }
  }

  /** With distinct containers in the tick, running means exactly: known before and joined now. */
  lemma RunningMeansKnownAndJoined(podmap: seq<PodGpu>, ids: seq<string>)
    requires Distinct(podmap) && forall i, j :: 0 <= i < j < |ids| ==> ids[i] != ids[j]
    ensures forall e :: e in Tick(podmap, ids) ==>
              (e.runningCheck <==> e.containerId in Known(podmap) && e.containerId in ids)
  {
    var after := Tick(podmap, ids);
    MarkAllRunning(Cleared(podmap), ids);
    MarkAllKeeps(Cleared(podmap), ids);
    TickKeeps(podmap, ids);
    forall j | 0 <= j < |after|
      ensures after[j].runningCheck <==> after[j].containerId in Known(podmap) && after[j].containerId in ids
    {
      var id := after[j].containerId;
      CountDistinct(ids, id);
      CountZero(ids, id);
      if j < |podmap| {
        assert podmap[j].containerId == id;
      } else {
        assert forall i :: 0 <= i < |podmap| ==> podmap[i].containerId == after[i].containerId;
        assert id !in Known(podmap);
      }
    }
  }

  lemma {:induction false} CountDistinct(ids: seq<string>, x: string)
    requires forall i, j :: 0 <= i < j < |ids| ==> ids[i] != ids[j]
    ensures Count(ids, x) <= 1
  {
    if ids != [] {
      CountDistinct(ids[..|ids| - 1], x);
      CountZero(ids[..|ids| - 1], x);
    }
  }

  // ----- all ticks

  datatype Account = Account(podmap: seq<PodGpu>, assignment: int, returned: int)

  const START := Account([], 0, 0)

  function TickAccount(a: Account, ids: seq<string>): Account {
    var podmap := Tick(a.podmap, ids);
    Account(podmap, a.assignment + |podmap| - |a.podmap|, a.returned + Returned(podmap))
  }

  function AfterTicks(ticks: seq<seq<string>>): Account {
    if ticks == [] then START else TickAccount(AfterTicks(ticks[..|ticks| - 1]), ticks[|ticks| - 1])
  }

  lemma AfterPush(ticks: seq<seq<string>>, ids: seq<string>)
    ensures AfterTicks(ticks + [ids]) == TickAccount(AfterTicks(ticks), ids)
  {
    assert (ticks + [ids])[..|ticks|] == ticks;
  }

  ghost function EverJoined(ticks: seq<seq<string>>): set<string> {
    set t, k | 0 <= t < |ticks| && 0 <= k < |ticks[t]| :: ticks[t][k]
  }

  lemma {:induction false} NoneReturned(podmap: seq<PodGpu>)
    requires NeverHealthy(podmap)
    ensures Returned(podmap) == 0
  {
    if podmap != [] { NoneReturned(podmap[..|podmap| - 1]); }
  }

  /** After any ticks: the ledger lists each container ever joined once, the assignment counter is its length,
      and the return counter has not moved, since nothing ever sets the health check. */
  lemma {:induction false} EveryTick(ticks: seq<seq<string>>)
    ensures var a := AfterTicks(ticks);
            && Distinct(a.podmap) && NeverHealthy(a.podmap)
            && Known(a.podmap) == EverJoined(ticks)
            && a.assignment == |a.podmap|
            && a.returned == 0
  {
    if ticks == [] {
      assert EverJoined(ticks) == {};
    } else {
      var front, last := ticks[..|ticks| - 1], ticks[|ticks| - 1];
      EveryTick(front);
      TickKeeps(AfterTicks(front).podmap, last);
      NoneReturned(AfterTicks(ticks).podmap);
      JoinedStep(ticks);
      assert forall id :: id in Known(AfterTicks(ticks).podmap) <==> id in EverJoined(front) || id in last;
    }
  }

  lemma JoinedStep(ticks: seq<seq<string>>)
    requires ticks != []
    ensures forall id :: id in EverJoined(ticks) <==> id in EverJoined(ticks[..|ticks| - 1]) || id in ticks[|ticks| - 1]
  {
  }
}
