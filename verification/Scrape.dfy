/** scrap/scrap.go: one goroutine per node sends a batch and then an error, each on its own buffered channel;
    one collector receives an error and then a batch, once per node. */
module Scrape {
  import opened Wrappers
  import opened Decode

  datatype ScrapeError = Unreachable(node: string) | Incomplete(node: string, causes: seq<DecodeError>)

  /** What CollectNode returned for one node: any combination of a batch (or nil) and an error (or nil). */
  datatype Outcome = Outcome(batch: Option<MetricsBatch>, error: Option<ScrapeError>)

  // ----- the protocol as a step system

  datatype WorkerPc = Collecting | BatchSent | Finished
  datatype CollectorPc = AwaitError | AwaitBatch(error: Option<ScrapeError>) | Returned

  datatype State = State(
    workers: seq<WorkerPc>,
    responseChannel: seq<Option<MetricsBatch>>,
    errChannel: seq<Option<ScrapeError>>,
    collector: CollectorPc,
    rounds: nat,
    batches: seq<MetricsBatch>,
    errs: seq<ScrapeError>,
    nodeNum: nat,
    podNum: nat)

  datatype Event = SendBatch(worker: nat) | SendError(worker: nat) | ReceiveError | ReceiveBatch | Return

  /** Both channels are made with this capacity. They are closed by the collector's return. */
  function Capacity(outcomes: seq<Outcome>): nat { |outcomes| }

  predicate Closed(s: State) { s.collector.Returned? }

  /** The goroutine concerned is at this instruction. */
  predicate Ready(s: State, e: Event) {
    match e
    case SendBatch(w) => w < |s.workers| && s.workers[w] == Collecting
    case SendError(w) => w < |s.workers| && s.workers[w] == BatchSent
    case ReceiveError => s.collector == AwaitError && s.rounds < |s.workers|
    case ReceiveBatch => s.collector.AwaitBatch?
    case Return => s.collector == AwaitError && s.rounds == |s.workers|
  }

  /** The instruction can complete now: a send needs room in the buffer, a receive needs a value. */
  predicate Enabled(outcomes: seq<Outcome>, s: State, e: Event) {
    && Ready(s, e)
    && (e.SendBatch? ==> |s.responseChannel| < Capacity(outcomes))
    && (e.SendError? ==> |s.errChannel| < Capacity(outcomes))
    && (e.ReceiveError? ==> s.errChannel != [])
    && (e.ReceiveBatch? ==> s.responseChannel != [])
  }

  function Step(outcomes: seq<Outcome>, s: State, e: Event): State
    requires |s.workers| == |outcomes| && Enabled(outcomes, s, e)
  {
    match e
    case SendBatch(w) =>
      s.(workers := s.workers[w := BatchSent], responseChannel := s.responseChannel + [outcomes[w].batch])
    case SendError(w) =>
      s.(workers := s.workers[w := Finished], errChannel := s.errChannel + [outcomes[w].error])
    case ReceiveError =>
      s.(collector := AwaitBatch(s.errChannel[0]), errChannel := s.errChannel[1..])
    case ReceiveBatch =>
      var batch := s.responseChannel[0];
      s.(collector := AwaitError, rounds := s.rounds + 1, responseChannel := s.responseChannel[1..],
         errs := if s.collector.error.Some? then s.errs + [s.collector.error.value] else s.errs,
         batches := if batch.Some? then s.batches + [batch.value] else s.batches,
         nodeNum := if batch.Some? then s.nodeNum + 1 else s.nodeNum,
         podNum := if batch.Some? then s.podNum + |batch.value.pods| else s.podNum)
    case Return => s.(collector := Returned)
  }

  function Init(outcomes: seq<Outcome>): State {
    State(seq(|outcomes|, _ => Collecting), [], [], AwaitError, 0, [], [], 0, 0)
  }

  // ----- what has been sent so far

  lemma {:induction false} CountAll(workers: seq<WorkerPc>)
    ensures Count(workers, Collecting) + Count(workers, BatchSent) + Count(workers, Finished) == |workers|
  {
    if workers != [] {
      var front, last := workers[..|workers| - 1], workers[|workers| - 1];
      CountAll(front);
      assert last == Collecting || last == BatchSent || last == Finished;
      assert Count(workers, Collecting) == Count(front, Collecting) + (if last == Collecting then 1 else 0);
      assert Count(workers, BatchSent) == Count(front, BatchSent) + (if last == BatchSent then 1 else 0);
      assert Count(workers, Finished) == Count(front, Finished) + (if last == Finished then 1 else 0);
    }
  }

  ghost function SentBatches(outcomes: seq<Outcome>, workers: seq<WorkerPc>): (r: seq<Option<MetricsBatch>>)
    requires |workers| == |outcomes|
    ensures |r| == |workers|
    ensures forall w :: 0 <= w < |r| ==> r[w] == if workers[w] == Collecting then None else outcomes[w].batch
  {
    seq(|workers|, w requires 0 <= w < |workers| => if workers[w] == Collecting then None else outcomes[w].batch)
  }

  ghost function SentErrors(outcomes: seq<Outcome>, workers: seq<WorkerPc>): (r: seq<Option<ScrapeError>>)
    requires |workers| == |outcomes|
    ensures |r| == |workers|
    ensures forall w :: 0 <= w < |r| ==> r[w] == if workers[w] == Finished then outcomes[w].error else None
  {
    seq(|workers|, w requires 0 <= w < |workers| => if workers[w] == Finished then outcomes[w].error else None)
  }

  ghost function PodTotal(batches: seq<MetricsBatch>): nat {
    if batches == [] then 0 else PodTotal(batches[..|batches| - 1]) + |batches[|batches| - 1].pods|
  }

  // ----- the invariant of every run

  /** Of the values sent on a channel, those not nil are the ones still buffered, the ones received and kept,
      and the one held; counted for each value. */
  ghost predicate Conserved<T(!new)>(sent: seq<Option<T>>, channel: seq<Option<T>>, kept: seq<T>, held: Option<T>) {
    forall x :: Count(sent, Some(x)) == Count(channel, Some(x)) + Count(kept, x) + (if held == Some(x) then 1 else 0)
  }

  lemma ConservedSend<T(!new)>(sent: seq<Option<T>>, channel: seq<Option<T>>, kept: seq<T>, held: Option<T>, w: nat,
      y: Option<T>)
    requires Conserved(sent, channel, kept, held) && w < |sent| && sent[w].None?
    ensures Conserved(sent[w := y], channel + [y], kept, held)
  {
    forall x ensures Count(sent[w := y], Some(x))
        == Count(channel + [y], Some(x)) + Count(kept, x) + (if held == Some(x) then 1 else 0) {
      CountUpdate(sent, w, y, Some(x));
      CountPush(channel, y, Some(x));
    }
  }

  /** Receiving into the hand, which was empty. */
  lemma ConservedHold<T(!new)>(sent: seq<Option<T>>, channel: seq<Option<T>>, kept: seq<T>)
    requires Conserved(sent, channel, kept, None) && channel != []
    ensures Conserved(sent, channel[1..], kept, channel[0])
  {
    forall x ensures Count(sent, Some(x))
        == Count(channel[1..], Some(x)) + Count(kept, x) + (if channel[0] == Some(x) then 1 else 0) {
      CountPop(channel, Some(x));
    }
  }

  /** Appending the value in the hand, if there is one, to the values kept. */
  lemma ConservedKeep<T(!new)>(sent: seq<Option<T>>, channel: seq<Option<T>>, kept: seq<T>, held: Option<T>)
    requires Conserved(sent, channel, kept, held)
    ensures Conserved(sent, channel, if held.Some? then kept + [held.value] else kept, None)
  {
  }

  /** The error received in this round and not yet appended. */
  function HeldError(c: CollectorPc): Option<ScrapeError> {
    if c.AwaitBatch? then c.error else None
  }

  ghost predicate BatchesConserved(outcomes: seq<Outcome>, s: State)
    requires |s.workers| == |outcomes|
  {
    Conserved(SentBatches(outcomes, s.workers), s.responseChannel, s.batches, None)
  }

  ghost predicate ErrorsConserved(outcomes: seq<Outcome>, s: State)
    requires |s.workers| == |outcomes|
  {
    Conserved(SentErrors(outcomes, s.workers), s.errChannel, s.errs, HeldError(s.collector))
  }

  ghost predicate Balanced(s: State) {
    && |s.responseChannel| + s.rounds == |s.workers| - Count(s.workers, Collecting)
    && |s.errChannel| + s.rounds + (if s.collector.AwaitBatch? then 1 else 0) == Count(s.workers, Finished)
    && s.rounds <= |s.workers|
    && (Closed(s) ==> s.rounds == |s.workers|)
    && s.nodeNum == |s.batches| && s.podNum == PodTotal(s.batches)
  }

  ghost predicate Inv(outcomes: seq<Outcome>, s: State) {
    |s.workers| == |outcomes| && BatchesConserved(outcomes, s) && ErrorsConserved(outcomes, s) && Balanced(s)
  }

  lemma InitInv(outcomes: seq<Outcome>)
    ensures Inv(outcomes, Init(outcomes))
  {
    var s := Init(outcomes);
    var batches, errors := SentBatches(outcomes, s.workers), SentErrors(outcomes, s.workers);
    assert Conserved(batches, [], [], None) by {
      forall x ensures Count(batches, Some(x)) == 0 { CountZero(batches, Some(x)); }
    }
    assert Conserved(errors, [], [], None) by {
      forall x ensures Count(errors, Some(x)) == 0 { CountZero(errors, Some(x)); }
    }
    InitCounts(outcomes);
  }

  lemma InitCounts(outcomes: seq<Outcome>)
    ensures var workers := Init(outcomes).workers;
            Count(workers, Collecting) == |outcomes| && Count(workers, BatchSent) == 0 && Count(workers, Finished) == 0
  {
    var workers := Init(outcomes).workers;
    CountAll(workers);
    CountZero(workers, BatchSent);
    CountZero(workers, Finished);
  }

  lemma StepInv(outcomes: seq<Outcome>, s: State, e: Event)
    requires Inv(outcomes, s) && Enabled(outcomes, s, e)
    ensures Inv(outcomes, Step(outcomes, s, e))
  {
    StepBatches(outcomes, s, e);
    StepErrors(outcomes, s, e);
    StepBalanced(outcomes, s, e);
  }

  lemma SentAfterBatch(outcomes: seq<Outcome>, workers: seq<WorkerPc>, w: nat)
    requires |workers| == |outcomes| && w < |workers| && workers[w] == Collecting
    ensures SentBatches(outcomes, workers[w := BatchSent]) == SentBatches(outcomes, workers)[w := outcomes[w].batch]
    ensures SentErrors(outcomes, workers[w := BatchSent]) == SentErrors(outcomes, workers)
  {
  }

  lemma SentAfterError(outcomes: seq<Outcome>, workers: seq<WorkerPc>, w: nat)
    requires |workers| == |outcomes| && w < |workers| && workers[w] == BatchSent
    ensures SentBatches(outcomes, workers[w := Finished]) == SentBatches(outcomes, workers)
    ensures SentErrors(outcomes, workers[w := Finished]) == SentErrors(outcomes, workers)[w := outcomes[w].error]
  {
  }

  lemma StepBatches(outcomes: seq<Outcome>, s: State, e: Event)
    requires |s.workers| == |outcomes| && BatchesConserved(outcomes, s) && Enabled(outcomes, s, e)
    ensures BatchesConserved(outcomes, Step(outcomes, s, e))
  {
    var sent := SentBatches(outcomes, s.workers);
    if e.SendError? {
      SentAfterError(outcomes, s.workers, e.worker);
    } else if e.SendBatch? {
      SentAfterBatch(outcomes, s.workers, e.worker);
      ConservedSend(sent, s.responseChannel, s.batches, None, e.worker, outcomes[e.worker].batch);
    } else if e.ReceiveBatch? {
      ConservedHold(sent, s.responseChannel, s.batches);
      ConservedKeep(sent, s.responseChannel[1..], s.batches, s.responseChannel[0]);
    }
  }

  lemma StepErrors(outcomes: seq<Outcome>, s: State, e: Event)
    requires |s.workers| == |outcomes| && ErrorsConserved(outcomes, s) && Enabled(outcomes, s, e)
    ensures ErrorsConserved(outcomes, Step(outcomes, s, e))
  {
    var sent, t := SentErrors(outcomes, s.workers), Step(outcomes, s, e);
    assert !e.SendError? && !e.ReceiveError? ==> t.errChannel == s.errChannel;
    assert !e.ReceiveError? && !e.ReceiveBatch?
        ==> HeldError(t.collector) == HeldError(s.collector) && t.errs == s.errs;
    if e.SendBatch? {
      SentAfterBatch(outcomes, s.workers, e.worker);
    } else if e.SendError? {
      SentAfterError(outcomes, s.workers, e.worker);
      ConservedSend(sent, s.errChannel, s.errs, HeldError(s.collector), e.worker, outcomes[e.worker].error);
    } else if e.ReceiveError? {
      ConservedHold(sent, s.errChannel, s.errs);
    } else if e.ReceiveBatch? {
      ConservedKeep(sent, s.errChannel, s.errs, s.collector.error);
    }
  }

  lemma StepBalanced(outcomes: seq<Outcome>, s: State, e: Event)
    requires |s.workers| == |outcomes| && Balanced(s) && Enabled(outcomes, s, e)
    ensures Balanced(Step(outcomes, s, e))
  {
    var t := Step(outcomes, s, e);
    CountAll(s.workers);
    if e.SendBatch? {
      CountUpdate(s.workers, e.worker, BatchSent, Collecting);
      CountUpdate(s.workers, e.worker, BatchSent, Finished);
    } else if e.SendError? {
      CountUpdate(s.workers, e.worker, Finished, Collecting);
      CountUpdate(s.workers, e.worker, Finished, Finished);
    } else if e.ReceiveBatch? && s.responseChannel[0].Some? {
      assert t.batches[..|s.batches|] == s.batches;
    }
  }

  // ----- progress

  /** No send ever blocks or meets a closed channel, and once an error has been received the receive of a
      batch does not block: each worker sends its batch first. */
  lemma NeverBlocks(outcomes: seq<Outcome>, s: State, e: Event)
    requires |s.workers| == |outcomes| && Balanced(s) && Ready(s, e) && !e.ReceiveError?
    ensures Enabled(outcomes, s, e) && !Closed(s)
  {
    CountAll(s.workers);
    CountZero(s.workers, Collecting);
    CountZero(s.workers, BatchSent);
  }

  /** When each instruction can complete in a run, from the state alone: a worker can always send its batch and then its
      error, in any order with the others, and the collector can receive an error as soon as one is there, the batch of
      the round at once, and return after n rounds. */
  lemma EnabledIff(outcomes: seq<Outcome>, s: State, w: nat)
    requires |s.workers| == |outcomes| && Balanced(s)
    ensures Enabled(outcomes, s, SendBatch(w)) <==> w < |outcomes| && s.workers[w] == Collecting
    ensures Enabled(outcomes, s, SendError(w)) <==> w < |outcomes| && s.workers[w] == BatchSent
    ensures Enabled(outcomes, s, ReceiveError) <==> s.collector == AwaitError && s.errChannel != []
    ensures Enabled(outcomes, s, ReceiveBatch) <==> s.collector.AwaitBatch?
    ensures Enabled(outcomes, s, Return) <==> s.collector == AwaitError && s.rounds == |outcomes|
  {
    CountAll(s.workers);
    CountZero(s.workers, Collecting);
    CountZero(s.workers, BatchSent);
  }

  /** A step is possible in every state before the return, so no run is stuck. */
  lemma SomethingEnabled(outcomes: seq<Outcome>, s: State) returns (e: Event)
    requires |s.workers| == |outcomes| && Balanced(s) && !Closed(s)
    ensures Enabled(outcomes, s, e)
  {
    CountAll(s.workers);
    CountZero(s.workers, Collecting);
    CountZero(s.workers, BatchSent);
    if s.collector.AwaitBatch? {
      e := ReceiveBatch;
    } else if s.rounds == |s.workers| {
      e := Return;
    } else if Collecting in s.workers {
      var w :| 0 <= w < |s.workers| && s.workers[w] == Collecting;
      e := SendBatch(w);
    } else if BatchSent in s.workers {
      var w :| 0 <= w < |s.workers| && s.workers[w] == BatchSent;
      e := SendError(w);
    } else {
      e := ReceiveError;
    }
  }

  /** Sends, receives and the return that are still to come. */
  ghost function Remaining(s: State): int {
    2 * Count(s.workers, Collecting) + Count(s.workers, BatchSent)
    + 2 * (|s.workers| - s.rounds) - (if s.collector.AwaitBatch? then 1 else 0) + (if Closed(s) then 0 else 1)
  }

  lemma EveryStepCounts(outcomes: seq<Outcome>, s: State, e: Event)
    requires |s.workers| == |outcomes| && Balanced(s) && Enabled(outcomes, s, e)
    ensures 0 <= Remaining(Step(outcomes, s, e)) == Remaining(s) - 1
  {
    StepBalanced(outcomes, s, e);
    CountAll(s.workers);
    if e.SendBatch? {
      CountUpdate(s.workers, e.worker, BatchSent, Collecting);
      CountUpdate(s.workers, e.worker, BatchSent, BatchSent);
    } else if e.SendError? {
      CountUpdate(s.workers, e.worker, Finished, Collecting);
      CountUpdate(s.workers, e.worker, Finished, BatchSent);
    }
  }

  // ----- whole runs

  /** `events` is a schedule that can be executed from s. */
  ghost predicate Executable(outcomes: seq<Outcome>, s: State, events: seq<Event>)
    requires |s.workers| == |outcomes|
    decreases |events|
  {
    events != [] ==>
      && Enabled(outcomes, s, events[0])
      && Executable(outcomes, Step(outcomes, s, events[0]), events[1..])
  }

  ghost function Execute(outcomes: seq<Outcome>, s: State, events: seq<Event>): (t: State)
    requires |s.workers| == |outcomes| && Executable(outcomes, s, events)
    ensures |t.workers| == |outcomes|
    decreases |events|
  {
    if events == [] then s else Execute(outcomes, Step(outcomes, s, events[0]), events[1..])
  }

  lemma {:induction false} RunFrom(outcomes: seq<Outcome>, s: State, events: seq<Event>)
    requires Inv(outcomes, s) && Executable(outcomes, s, events)
    ensures Inv(outcomes, Execute(outcomes, s, events))
    ensures Remaining(Execute(outcomes, s, events)) == Remaining(s) - |events|
    decreases |events|
  {
    if events != [] {
      StepInv(outcomes, s, events[0]);
      EveryStepCounts(outcomes, s, events[0]);
      RunFrom(outcomes, Step(outcomes, s, events[0]), events[1..]);
    }
  }

  function AllBatches(outcomes: seq<Outcome>): seq<MetricsBatch> {
    Present(seq(|outcomes|, w requires 0 <= w < |outcomes| => outcomes[w].batch))
  }

  function AllErrors(outcomes: seq<Outcome>): seq<ScrapeError> {
    Present(seq(|outcomes|, w requires 0 <= w < |outcomes| => outcomes[w].error))
  }

  /** A returned state holds everything: all sends are over, the channels are empty, and the results are
      permutations of the non-nil batches and of the non-nil errors. */
  ghost predicate Complete(outcomes: seq<Outcome>, s: State) {
    && |s.workers| == |outcomes|
    && (forall w :: 0 <= w < |s.workers| ==> s.workers[w] == Finished)
    && s.responseChannel == [] && s.errChannel == []
    && multiset(s.batches) == multiset(AllBatches(outcomes))
    && multiset(s.errs) == multiset(AllErrors(outcomes))
    && s.nodeNum == |s.batches| && s.podNum == PodTotal(s.batches)
  }

  lemma ReturnedIsComplete(outcomes: seq<Outcome>, s: State)
    requires Inv(outcomes, s) && Closed(s)
    ensures Complete(outcomes, s)
  {
    CountAll(s.workers);
    CountZero(s.workers, Collecting);
    CountZero(s.workers, BatchSent);
    forall w | 0 <= w < |s.workers| ensures s.workers[w] == Finished {
      assert s.workers[w] in s.workers;
    }
    ReturnedBatches(outcomes, s);
    ReturnedErrors(outcomes, s);
  }

  lemma ReturnedBatches(outcomes: seq<Outcome>, s: State)
    requires |s.workers| == |outcomes| && BatchesConserved(outcomes, s)
    requires s.responseChannel == [] && forall w :: 0 <= w < |s.workers| ==> s.workers[w] == Finished
    ensures multiset(s.batches) == multiset(AllBatches(outcomes))
  {
    var sent := SentBatches(outcomes, s.workers);
    assert sent == seq(|outcomes|, w requires 0 <= w < |outcomes| => outcomes[w].batch);
    forall x ensures Count(s.batches, x) == Count(AllBatches(outcomes), x) { CountPresent(sent, x); }
    SameCounts(s.batches, AllBatches(outcomes));
  }

  lemma ReturnedErrors(outcomes: seq<Outcome>, s: State)
    requires |s.workers| == |outcomes| && ErrorsConserved(outcomes, s) && Closed(s)
    requires s.errChannel == [] && forall w :: 0 <= w < |s.workers| ==> s.workers[w] == Finished
    ensures multiset(s.errs) == multiset(AllErrors(outcomes))
  {
    var sent := SentErrors(outcomes, s.workers);
    assert sent == seq(|outcomes|, w requires 0 <= w < |outcomes| => outcomes[w].error);
    forall x ensures Count(s.errs, x) == Count(AllErrors(outcomes), x) { CountPresent(sent, x); }
    SameCounts(s.errs, AllErrors(outcomes));
  }

  /** A state of a run can go on exactly until the collector has returned. */
  lemma StuckIffReturned(outcomes: seq<Outcome>, s: State)
    requires Inv(outcomes, s)
    ensures Closed(s) <==> forall e :: !Enabled(outcomes, s, e)
  {
    if Closed(s) {
      ReturnedIsComplete(outcomes, s);
    } else {
      var e := SomethingEnabled(outcomes, s);
    }
  }

  lemma InitRemaining(outcomes: seq<Outcome>)
    ensures Remaining(Init(outcomes)) == 4 * |outcomes| + 1
  {
    InitCounts(outcomes);
  }

  lemma RemainingEnd(outcomes: seq<Outcome>, s: State)
    requires |s.workers| == |outcomes| && Balanced(s)
    ensures 0 <= Remaining(s) && (Closed(s) <==> Remaining(s) == 0)
  {
    CountAll(s.workers);
  }

  /** Every interleaving takes at most 4n + 1 steps, can go on until it has taken them all, and has then
      returned every batch and every error, whichever workers they came from. */
  lemma EveryRun(outcomes: seq<Outcome>, events: seq<Event>)
    requires Executable(outcomes, Init(outcomes), events)
    ensures var s := Execute(outcomes, Init(outcomes), events);
            && |events| <= 4 * |outcomes| + 1
            && (Closed(s) <==> |events| == 4 * |outcomes| + 1)
            && (Closed(s) <==> forall e :: !Enabled(outcomes, s, e))
            && (Closed(s) ==> Complete(outcomes, s))
  {
    var start := Init(outcomes);
    var s := Execute(outcomes, start, events);
    InitInv(outcomes);
    InitRemaining(outcomes);
    RunFrom(outcomes, start, events);
    RemainingEnd(outcomes, s);
    StuckIffReturned(outcomes, s);
    if Closed(s) {
      ReturnedIsComplete(outcomes, s);
    }
  }

  // ----- order

  /** The batches, and the errors, in the order in which a schedule sends them. */
  function BatchesSent(outcomes: seq<Outcome>, events: seq<Event>): seq<Option<MetricsBatch>> {
    if events == [] then []
    else BatchSentBy(outcomes, events[0]) + BatchesSent(outcomes, events[1..])
  }

  function ErrorsSent(outcomes: seq<Outcome>, events: seq<Event>): seq<Option<ScrapeError>> {
    if events == [] then []
    else ErrorSentBy(outcomes, events[0]) + ErrorsSent(outcomes, events[1..])
  }

  function BatchSentBy(outcomes: seq<Outcome>, e: Event): seq<Option<MetricsBatch>> {
    if e.SendBatch? && e.worker < |outcomes| then [outcomes[e.worker].batch] else []
  }

  function ErrorSentBy(outcomes: seq<Outcome>, e: Event): seq<Option<ScrapeError>> {
    if e.SendError? && e.worker < |outcomes| then [outcomes[e.worker].error] else []
  }

  /** What has been kept, is held, and is still in the channel, in this order. */
  function Line<T>(kept: seq<T>, held: Option<T>, channel: seq<Option<T>>): seq<T> {
    kept + Present([held]) + Present(channel)
  }

  lemma LineSend<T>(kept: seq<T>, held: Option<T>, channel: seq<Option<T>>, sent: seq<Option<T>>)
    ensures Line(kept, held, channel + sent) == Line(kept, held, channel) + Present(sent)
  {
    PresentConcat(channel, sent);
  }

  lemma LineHold<T>(kept: seq<T>, channel: seq<Option<T>>)
    requires channel != []
    ensures Line(kept, channel[0], channel[1..]) == Line(kept, None, channel)
  {
    PresentConcat([channel[0]], channel[1..]);
    assert channel == [channel[0]] + channel[1..];
    PresentOne<T>(None);
  }

  lemma LineKeep<T>(kept: seq<T>, held: Option<T>, channel: seq<Option<T>>)
    ensures Line(if held.Some? then kept + [held.value] else kept, None, channel) == Line(kept, held, channel)
  {
    PresentOne(held);
    PresentOne<T>(None);
  }

  function BatchLine(s: State): seq<MetricsBatch> { Line(s.batches, None, s.responseChannel) }
  function ErrorLine(s: State): seq<ScrapeError> { Line(s.errs, HeldError(s.collector), s.errChannel) }

  /** A send appends to its line, and no other step changes it. */
  lemma BatchLineStep(outcomes: seq<Outcome>, s: State, e: Event)
    requires |s.workers| == |outcomes| && Enabled(outcomes, s, e)
    ensures BatchLine(Step(outcomes, s, e)) == BatchLine(s) + Present(BatchSentBy(outcomes, e))
  {
    if e.SendBatch? {
      LineSend(s.batches, None, s.responseChannel, [outcomes[e.worker].batch]);
    } else if e.ReceiveBatch? {
      LineHold(s.batches, s.responseChannel);
      LineKeep(s.batches, s.responseChannel[0], s.responseChannel[1..]);
    }
  }

  lemma ErrorLineStep(outcomes: seq<Outcome>, s: State, e: Event)
    requires |s.workers| == |outcomes| && Enabled(outcomes, s, e)
    ensures ErrorLine(Step(outcomes, s, e)) == ErrorLine(s) + Present(ErrorSentBy(outcomes, e))
  {
    if e.SendError? {
      LineSend(s.errs, HeldError(s.collector), s.errChannel, [outcomes[e.worker].error]);
    } else if e.ReceiveError? {
      LineHold(s.errs, s.errChannel);
    } else if e.ReceiveBatch? {
      LineKeep(s.errs, s.collector.error, s.errChannel);
    }
  }

  lemma Chained<T>(start: seq<T>, sent: seq<Option<T>>, rest: seq<Option<T>>)
    ensures start + Present(sent) + Present(rest) == start + Present(sent + rest)
  {
    PresentConcat(sent, rest);
  }

  lemma {:induction false} BatchLineFrom(outcomes: seq<Outcome>, s: State, events: seq<Event>)
    requires |s.workers| == |outcomes| && Executable(outcomes, s, events)
    ensures BatchLine(Execute(outcomes, s, events)) == BatchLine(s) + Present(BatchesSent(outcomes, events))
    decreases |events|
  {
    if events != [] {
      BatchLineStep(outcomes, s, events[0]);
      BatchLineFrom(outcomes, Step(outcomes, s, events[0]), events[1..]);
      Chained(BatchLine(s), BatchSentBy(outcomes, events[0]), BatchesSent(outcomes, events[1..]));
    }
  }

  lemma {:induction false} ErrorLineFrom(outcomes: seq<Outcome>, s: State, events: seq<Event>)
    requires |s.workers| == |outcomes| && Executable(outcomes, s, events)
    ensures ErrorLine(Execute(outcomes, s, events)) == ErrorLine(s) + Present(ErrorsSent(outcomes, events))
    decreases |events|
  {
    if events != [] {
      ErrorLineStep(outcomes, s, events[0]);
      ErrorLineFrom(outcomes, Step(outcomes, s, events[0]), events[1..]);
      Chained(ErrorLine(s), ErrorSentBy(outcomes, events[0]), ErrorsSent(outcomes, events[1..]));
    }
  }

  lemma LineStarts<T>()
    ensures Line<T>([], None, []) == []
  {
    PresentOne<T>(None);
  }

  lemma LineEnds<T>(kept: seq<T>, held: Option<T>, channel: seq<Option<T>>)
    ensures kept <= Line(kept, held, channel)
    ensures held.None? && channel == [] ==> Line(kept, held, channel) == kept
  {
    PresentOne<T>(None);
  }

  /** In every interleaving, batches and errors are kept in the order in which they were sent; at the return the results
      are exactly what was sent, in that order, without the nil ones. */
  lemma EveryRunInOrder(outcomes: seq<Outcome>, events: seq<Event>)
    requires Executable(outcomes, Init(outcomes), events)
    ensures var s := Execute(outcomes, Init(outcomes), events);
            && s.batches <= Present(BatchesSent(outcomes, events))
            && s.errs <= Present(ErrorsSent(outcomes, events))
            && (Closed(s) ==> s.batches == Present(BatchesSent(outcomes, events))
                              && s.errs == Present(ErrorsSent(outcomes, events)))
  {
    var s := Execute(outcomes, Init(outcomes), events);
    EveryRun(outcomes, events);
    LinesOfRun(outcomes, events);
    LineEnds(s.batches, None, s.responseChannel);
    LineEnds(s.errs, HeldError(s.collector), s.errChannel);
  }

  lemma LinesOfRun(outcomes: seq<Outcome>, events: seq<Event>)
    requires Executable(outcomes, Init(outcomes), events)
    ensures BatchLine(Execute(outcomes, Init(outcomes), events)) == Present(BatchesSent(outcomes, events))
    ensures ErrorLine(Execute(outcomes, Init(outcomes), events)) == Present(ErrorsSent(outcomes, events))
  {
    BatchLineFrom(outcomes, Init(outcomes), events);
    ErrorLineFrom(outcomes, Init(outcomes), events);
    LineStarts<MetricsBatch>();
    LineStarts<ScrapeError>();
  }

  /** The error and the batch of one round need not come from one worker: here the collector holds the error
      of worker 1 and is about to receive the batch of worker 0. */
  lemma RoundsMayMix(b: MetricsBatch, x: ScrapeError)
    ensures var outcomes := [Outcome(Some(b), None), Outcome(None, Some(x))];
            var schedule := [SendBatch(0), SendBatch(1), SendError(1), ReceiveError];
            && Executable(outcomes, Init(outcomes), schedule)
            && Execute(outcomes, Init(outcomes), schedule).collector == AwaitBatch(Some(x))
            && Execute(outcomes, Init(outcomes), schedule).responseChannel[0] == Some(b)
  {
  }

  // ----- the function itself, under an arbitrary scheduler

  lemma {:induction false} ExecuteOneMore(outcomes: seq<Outcome>, s: State, events: seq<Event>, e: Event)
    requires |s.workers| == |outcomes| && Executable(outcomes, s, events)
    requires Enabled(outcomes, Execute(outcomes, s, events), e)
    ensures Executable(outcomes, s, events + [e])
    ensures Execute(outcomes, s, events + [e]) == Step(outcomes, Execute(outcomes, s, events), e)
    decreases |events|
  {
    if events == [] {
      assert ([] + [e])[1..] == [];
      var t := Step(outcomes, s, e);
      assert Executable(outcomes, t, []) && Execute(outcomes, t, []) == t;
    } else {
      ExecuteOneMore(outcomes, Step(outcomes, s, events[0]), events[1..], e);
      assert (events + [e])[1..] == events[1..] + [e];
    }
  }

  /** A run may take any instruction a process is at, except a receive from the empty error channel. */
  lemma Advance(outcomes: seq<Outcome>, run: seq<Event>, s: State, e: Event)
    requires Executable(outcomes, Init(outcomes), run) && s == Execute(outcomes, Init(outcomes), run)
    requires Ready(s, e) && (e.ReceiveError? ==> s.errChannel != [])
    ensures Enabled(outcomes, s, e) && Executable(outcomes, Init(outcomes), run + [e])
    ensures Execute(outcomes, Init(outcomes), run + [e]) == Step(outcomes, s, e)
    ensures |run + [e]| <= 4 * |outcomes| + 1
  {
    InitInv(outcomes);
    RunFrom(outcomes, Init(outcomes), run);
    if !e.ReceiveError? { NeverBlocks(outcomes, s, e); }
    ExecuteOneMore(outcomes, Init(outcomes), run, e);
    EveryRun(outcomes, run + [e]);
  }

  /** What the collector and the goroutines leave to the scheduler before the return. */
  lemma SomethingReady(outcomes: seq<Outcome>, run: seq<Event>, s: State)
    requires Executable(outcomes, Init(outcomes), run) && s == Execute(outcomes, Init(outcomes), run)
    requires !Closed(s)
    ensures || Collecting in s.workers || BatchSent in s.workers || s.collector.AwaitBatch?
            || s.rounds == |outcomes| || (s.rounds < |outcomes| && s.errChannel != [])
  {
    InitInv(outcomes);
    RunFrom(outcomes, Init(outcomes), run);
    var e := SomethingEnabled(outcomes, s);
  }

  /** Scrap: the goroutines and the collector run interleaved in whatever order the alternatives are taken.
      That one alternative is always open is what rules out a deadlock. */
  method Scrap(outcomes: seq<Outcome>) returns (batches: seq<MetricsBatch>, errs: seq<ScrapeError>)
    ensures multiset(batches) == multiset(AllBatches(outcomes))
    ensures multiset(errs) == multiset(AllErrors(outcomes))
  {
    var workers := seq(|outcomes|, _ => Collecting);
    var responseChannel: seq<Option<MetricsBatch>>, errChannel: seq<Option<ScrapeError>> := [], [];
    var collector := AwaitError;
    var rounds: nat, nodeNum: nat, podNum: nat := 0, 0, 0;
    batches, errs := [], [];
    ghost var s := Init(outcomes);
    ghost var run: seq<Event> := [];
    while !collector.Returned?
      invariant s == State(workers, responseChannel, errChannel, collector, rounds, batches, errs, nodeNum, podNum)
      invariant Executable(outcomes, Init(outcomes), run) && Execute(outcomes, Init(outcomes), run) == s
      decreases 4 * |outcomes| + 1 - |run|
    {
      SomethingReady(outcomes, run, s);
      ghost var e: Event;
      if {
        case Collecting in workers =>
          var w :| 0 <= w < |workers| && workers[w] == Collecting;
          e := SendBatch(w);
          responseChannel := responseChannel + [outcomes[w].batch];
          workers := workers[w := BatchSent];
        case BatchSent in workers =>
          var w :| 0 <= w < |workers| && workers[w] == BatchSent;
          e := SendError(w);
          errChannel := errChannel + [outcomes[w].error];
          workers := workers[w := Finished];
        case collector == AwaitError && rounds < |outcomes| && errChannel != [] =>
          e := ReceiveError;
          collector, errChannel := AwaitBatch(errChannel[0]), errChannel[1..];
        case collector.AwaitBatch? =>
          e := ReceiveBatch;
          Advance(outcomes, run, s, e);
          var err, srcBatch := collector.error, responseChannel[0];
          collector, responseChannel, rounds := AwaitError, responseChannel[1..], rounds + 1;
          if err.Some? {
            errs := errs + [err.value];
          }
          if srcBatch.Some? {
            batches := batches + [srcBatch.value];
            nodeNum := nodeNum + 1;
            podNum := podNum + |srcBatch.value.pods|;
          }
        case collector == AwaitError && rounds == |outcomes| =>
          e := Return;
          collector := Returned;
      }
      Advance(outcomes, run, s, e);
      s, run := Step(outcomes, s, e), run + [e];
    }
    EveryRun(outcomes, run);
  }
}
