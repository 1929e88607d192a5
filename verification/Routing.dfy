/** pkg/dcgm/policy.go and bcast.go: the way of a policy violation. A callback puts it into the channel of its
    condition; for each registration a forwarder and a merger compete for the channels, and a publisher takes what
    the forwarder has over an unbuffered channel. */
module Routing {
  import opened Wrappers
  import opened Policy
  import opened Broadcast

  datatype Violation = Violation(condition: Condition, timestamp: int, data: nat)

  /** The publisher waits for a value, or starts the delivery to subscriber `next` of the value it has taken. */
  datatype Publishing = Waiting | Spawning(value: Violation, next: nat)

  /** One call of registerPolicy that succeeded.
      - channels, hand, merged, closed, finished: the merger, the value it has taken and not yet passed on, and all it
        has ever sent to the output channel, of which the client has received the first `received`;
      - holding, publisher, broadcasts, subscribers, spawned: the forwarder's value waiting for the publisher, the
        publisher, all that it has taken, and the deliveries it has started. */
  datatype Registration = Registration(
    channels: seq<Condition>, hand: Option<Violation>, merged: seq<Violation>, received: nat, closed: bool,
        finished: bool,
    holding: Option<Violation>, publisher: Publishing, broadcasts: seq<Violation>, subscribers: seq<nat>,
    spawned: seq<Delivery<Violation>>)

  /** `buffer[c]` is the one-place channel of condition c; `put` and `taken` are all violations that were ever sent to
      and received from these channels, in order. */
  datatype State = State(buffer: map<Condition, Violation>, put: seq<Violation>, taken: seq<Violation>,
      registrations: seq<Registration>)

  datatype Event =
    | Callback(condition: bv32, timestamp: int, data: nat)
    | Register(typ: seq<string>)
    | MergerTake(r: nat)
    | MergerSend(r: nat)
    | MergerClose(r: nat)
    | ClientReceive(r: nat)
    | ForwarderTake(r: nat, c: Condition)
    | HandOver(r: nat)
    | PublisherStep(r: nat)

  function NewRegistration(typ: seq<string>): Registration {
    Registration(Recognised(typ), None, [], 0, false, false, None, Waiting, [], [0, 1], [])
  }

  /** The number of violations waiting in the output channel; its capacity is the number of channels. */
  function Occupied(g: Registration): int { |g.merged| - g.received }
  function Capacity(g: Registration): nat { |g.channels| }

  /** The goroutine concerned is at this instruction. */
  predicate ReadyIn(g: Registration, e: Event) {
    match e
    case MergerTake(_) => g.hand.None? && !g.finished && |g.merged| < |g.channels|
    case MergerSend(_) => g.hand.Some?
    case MergerClose(_) => g.hand.None? && !g.finished && |g.merged| == |g.channels|
    case ForwarderTake(_, _) => g.holding.None?
    case HandOver(_) => g.holding.Some?
    case PublisherStep(_) => g.publisher.Spawning?
    case _ => true
  }

  predicate Ready(s: State, e: Event) {
    e.Callback? || e.Register? || (e.r < |s.registrations| && ReadyIn(s.registrations[e.r], e))
  }

  /** The instruction can complete: a send needs room, a receive a value, a hand-over on the unbuffered channel a
      waiting publisher; a closed channel is neither sent to nor closed again. */
  predicate EnabledIn(buffer: map<Condition, Violation>, g: Registration, e: Event) {
    && ReadyIn(g, e)
    && (e.MergerTake? ==> g.channels[|g.merged|] in buffer)
    && (e.MergerSend? ==> Occupied(g) < Capacity(g) && !g.closed)
    && (e.MergerClose? ==> !g.closed)
    && (e.ClientReceive? ==> Occupied(g) > 0)
    && (e.ForwarderTake? ==> e.c in buffer)
    && (e.HandOver? ==> g.publisher.Waiting?)
  }

  predicate Enabled(s: State, e: Event) {
    match e
    case Callback(condition, _, _) => Reported(condition).Some? ==> Reported(condition).value !in s.buffer
    case Register(_) => true
    case _ => e.r < |s.registrations| && EnabledIn(s.buffer, s.registrations[e.r], e)
  }

  function StepRegistration(g: Registration, e: Event, v: Option<Violation>): Registration {
    match e
    case MergerTake(_) => g.(hand := v)
    case MergerSend(_) => if g.hand.Some? then g.(hand := None, merged := g.merged + [g.hand.value]) else g
    case MergerClose(_) => g.(closed := true, finished := true)
    case ClientReceive(_) => g.(received := g.received + 1)
    case ForwarderTake(_, _) => g.(holding := v)
    case HandOver(_) =>
      if g.holding.Some?
      then g.(holding := None, publisher := Spawning(g.holding.value, 0),
              broadcasts := g.broadcasts + [g.holding.value])
      else g
    case PublisherStep(_) =>
      if g.publisher.Waiting? then g
      else if g.publisher.next < |g.subscribers|
      then g.(publisher := Spawning(g.publisher.value, g.publisher.next + 1),
              spawned := g.spawned + [Delivery(g.subscribers[g.publisher.next], g.publisher.value)])
      else g.(publisher := Waiting)
    case _ => g
  }

  /** The channel an event takes a value from. */
  function Source(s: State, e: Event): Option<Condition>
    requires Enabled(s, e)
  {
    match e
    case MergerTake(r) => Some(s.registrations[r].channels[|s.registrations[r].merged|])
    case ForwarderTake(_, c) => Some(c)
    case _ => None
  }

  /** What an event takes out of a channel. */
  function Taken(s: State, e: Event): Option<Violation>
    requires Enabled(s, e)
  {
    var c := Source(s, e);
    if c.Some? && c.value in s.buffer then Some(s.buffer[c.value]) else None
  }

  function Step(s: State, e: Event): State
    requires Enabled(s, e)
  {
    match e
    case Callback(condition, timestamp, data) =>
      if Reported(condition).None? then s
      else
        var v := Violation(Reported(condition).value, timestamp, data);
        s.(buffer := s.buffer[v.condition := v], put := s.put + [v])
    case Register(typ) => s.(registrations := s.registrations + [NewRegistration(typ)])
    case _ =>
      var c, v := Source(s, e), Taken(s, e);
      s.(buffer := if c.Some? then s.buffer - {c.value} else s.buffer,
         taken := if v.Some? then s.taken + [v.value] else s.taken,
         registrations := s.registrations[e.r := StepRegistration(s.registrations[e.r], e, v)])
  }

  const START := State(map[], [], [], [])

  // ----- the invariant

  /** The k-th value merged carries the k-th condition asked for, the value in hand the next one, and the
      output is closed only after the last. */
  ghost predicate MergesInOrder(g: Registration) {
    && |g.merged| <= |g.channels|
    && (forall k :: 0 <= k < |g.merged| ==> g.merged[k].condition == g.channels[k])
    && (g.hand.Some? ==> |g.merged| < |g.channels| && g.hand.value.condition == g.channels[|g.merged|] && !g.closed)
    && (g.closed <==> g.finished)
    && (g.closed ==> |g.merged| == |g.channels|)
    && g.received <= |g.merged|
  }

  /** Each broadcast value has started exactly one delivery per subscriber, but for the one being spawned. */
  ghost predicate DeliversOnce(g: Registration) {
    match g.publisher
    case Waiting => g.spawned == AllDeliveries(g.subscribers, g.broadcasts)
    case Spawning(v, next) =>
      && next <= |g.subscribers| && g.broadcasts != [] && g.broadcasts[|g.broadcasts| - 1] == v
      && g.spawned == AllDeliveries(g.subscribers, g.broadcasts[..|g.broadcasts| - 1])
          + Deliveries(g.subscribers[..next], v)
  }

  /** How often v is with the merger and with the forwarder of a registration. */
  function Merged(g: Registration, v: Violation): nat { Count(g.merged, v) + (if g.hand == Some(v) then 1 else 0) }
  function Forwarded(g: Registration, v: Violation): nat {
    Count(g.broadcasts, v) + (if g.holding == Some(v) then 1 else 0)
  }

  function Held(gs: seq<Registration>, v: Violation): nat {
    if gs == [] then 0 else Held(gs[..|gs| - 1], v) + Merged(gs[|gs| - 1], v) + Forwarded(gs[|gs| - 1], v)
  }

  function Buffered(s: State, v: Violation): nat {
    if v.condition in s.buffer && s.buffer[v.condition] == v then 1 else 0
  }

  /** Nothing is lost or doubled: each violation put is buffered, or with one merger or forwarder. */
  ghost predicate Conserved(s: State) {
    forall v :: Count(s.put, v) == Buffered(s, v) + Held(s.registrations, v)
  }

  /** The violations of one condition in a history, in order. */
  function Of(vs: seq<Violation>, c: Condition): seq<Violation> {
    if vs == [] then []
    else if vs[|vs| - 1].condition == c then Of(vs[..|vs| - 1], c) + [vs[|vs| - 1]]
    else Of(vs[..|vs| - 1], c)
  }

  lemma OfPush(vs: seq<Violation>, v: Violation, c: Condition)
    ensures Of(vs + [v], c) == if v.condition == c then Of(vs, c) + [v] else Of(vs, c)
  {
    assert (vs + [v])[..|vs|] == vs;
  }

  /** Of each condition, what was taken and then what is buffered is what was put, in the same order. */
  ghost predicate OrderKept(s: State, c: Condition) {
    Of(s.put, c) == if c in s.buffer then Of(s.taken, c) + [s.buffer[c]] else Of(s.taken, c)
  }

  ghost predicate Keyed(s: State) { forall c :: c in s.buffer ==> s.buffer[c].condition == c }

  ghost predicate RegistrationsFine(s: State) {
    forall r :: 0 <= r < |s.registrations| ==> MergesInOrder(s.registrations[r]) && DeliversOnce(s.registrations[r])
  }

  ghost predicate Inv(s: State) {
    Keyed(s) && RegistrationsFine(s) && Conserved(s) && forall c: Condition :: OrderKept(s, c)
  }

  lemma {:induction false} HeldUpdate(gs: seq<Registration>, r: nat, g: Registration, v: Violation)
    requires r < |gs|
    ensures Held(gs[r := g], v) == Held(gs, v) - Merged(gs[r], v) - Forwarded(gs[r], v) + Merged(g, v) + Forwarded(g, v)
  {
    var last := |gs| - 1;
    if r == last {
      assert gs[r := g][..last] == gs[..last];
    } else {
      HeldUpdate(gs[..last], r, g, v);
      assert gs[r := g][..last] == gs[..last][r := g];
    }
  }

  /** What a step of a goroutine or a client does to the state. */
  lemma MoveShape(s: State, e: Event)
    requires Keyed(s) && Enabled(s, e) && !e.Callback? && !e.Register?
    ensures var taken, t := Taken(s, e), Step(s, e);
            && (taken.Some? <==> e.MergerTake? || e.ForwarderTake?)
            && t.put == s.put && Keyed(t)
            && t.taken == (if taken.Some? then s.taken + [taken.value] else s.taken)
            && t.registrations == s.registrations[e.r := StepRegistration(s.registrations[e.r], e, taken)]
            && (taken.Some? ==> taken.value.condition in s.buffer && s.buffer[taken.value.condition] == taken.value)
            && (forall c :: c in t.buffer <==> c in s.buffer && !(taken.Some? && taken.value.condition == c))
            && (forall c :: c in t.buffer ==> t.buffer[c] == s.buffer[c])
  {
  }

  // ----- conservation

  /** A registration gains exactly the value taken from a channel by its merger or its forwarder. */
  lemma RegistrationGains(g: Registration, e: Event, taken: Option<Violation>, v: Violation)
    requires e.MergerTake? ==> g.hand.None? && taken.Some?
    requires e.ForwarderTake? ==> g.holding.None? && taken.Some?
    requires !e.MergerTake? && !e.ForwarderTake? ==> taken.None?
    ensures var h := StepRegistration(g, e, taken);
            Merged(h, v) + Forwarded(h, v) == Merged(g, v) + Forwarded(g, v) + (if taken == Some(v) then 1 else 0)
  {
    if e.MergerSend? && g.hand.Some? { CountPush(g.merged, g.hand.value, v); }
    if e.HandOver? && g.holding.Some? { CountPush(g.broadcasts, g.holding.value, v); }
  }

  /** One value is conserved. */
  ghost predicate ConservedFor(s: State, v: Violation) {
    Count(s.put, v) == Buffered(s, v) + Held(s.registrations, v)
  }

  lemma StepConserves(s: State, e: Event)
    requires Keyed(s) && Conserved(s) && Enabled(s, e)
    ensures Conserved(Step(s, e))
  {
    forall v ensures Count(Step(s, e).put, v) == Buffered(Step(s, e), v) + Held(Step(s, e).registrations, v) {
      assert Count(s.put, v) == Buffered(s, v) + Held(s.registrations, v);
      if e.Callback? {
        CallbackConserves(s, e, v);
      } else if e.Register? {
        RegisterConserves(s, e, v);
      } else {
        MoveConserves(s, e, v);
      }
    }
  }

  lemma CallbackConserves(s: State, e: Event, v: Violation)
    requires ConservedFor(s, v) && Enabled(s, e) && e.Callback?
    ensures ConservedFor(Step(s, e), v)
  {
    if Reported(e.condition).Some? {
      CountPush(s.put, Violation(Reported(e.condition).value, e.timestamp, e.data), v);
    }
  }

  lemma RegisterConserves(s: State, e: Event, v: Violation)
    requires ConservedFor(s, v) && Enabled(s, e) && e.Register?
    ensures ConservedFor(Step(s, e), v)
  {
    assert Step(s, e).registrations[..|s.registrations|] == s.registrations;
  }

  lemma MoveConserves(s: State, e: Event, v: Violation)
    requires Keyed(s) && ConservedFor(s, v) && Enabled(s, e) && !e.Callback? && !e.Register?
    ensures ConservedFor(Step(s, e), v)
  {
    var g, taken := s.registrations[e.r], Taken(s, e);
    MoveShape(s, e);
    RegistrationGains(g, e, taken, v);
    HeldUpdate(s.registrations, e.r, StepRegistration(g, e, taken), v);
    MoveBuffered(s, e, v);
  }

  /** The value taken is no longer buffered, and the others still are. */
  lemma MoveBuffered(s: State, e: Event, v: Violation)
    requires Keyed(s) && Enabled(s, e) && !e.Callback? && !e.Register?
    ensures Buffered(s, v) == Buffered(Step(s, e), v) + (if Taken(s, e) == Some(v) then 1 else 0)
  {
    MoveShape(s, e);
  }

  // ----- order

  /** Each condition's channel has one place, so its violations leave it in the order in which they came. */
  lemma StepKeepsOrder(s: State, e: Event, c: Condition)
    requires Keyed(s) && OrderKept(s, c) && Enabled(s, e)
    ensures OrderKept(Step(s, e), c)
  {
    if e.Callback? {
      if Reported(e.condition).Some? {
        OfPush(s.put, Violation(Reported(e.condition).value, e.timestamp, e.data), c);
      }
    } else if !e.Register? {
      MoveShape(s, e);
      if Taken(s, e).Some? { OfPush(s.taken, Taken(s, e).value, c); }
    }
  }

  // ----- the registrations

  lemma MergeStep(g: Registration, e: Event, taken: Option<Violation>, buffer: map<Condition, Violation>)
    requires MergesInOrder(g) && EnabledIn(buffer, g, e)
    requires e.MergerTake? ==> taken.Some? && taken.value.condition == g.channels[|g.merged|]
    ensures MergesInOrder(StepRegistration(g, e, taken))
  {
  }

  lemma DeliveryStep(g: Registration, e: Event, taken: Option<Violation>, buffer: map<Condition, Violation>)
    requires DeliversOnce(g) && EnabledIn(buffer, g, e)
    ensures DeliversOnce(StepRegistration(g, e, taken))
  {
    if e.HandOver? {
      HandOverDelivers(g, g.holding.value);
    } else if e.PublisherStep? {
      SpawnDelivers(g, g.publisher.value, g.publisher.next);
    }
  }

  lemma HandOverDelivers(g: Registration, v: Violation)
    requires g.publisher.Waiting? && DeliversOnce(g)
    ensures DeliversOnce(g.(holding := None, publisher := Spawning(v, 0), broadcasts := g.broadcasts + [v]))
  {
    assert (g.broadcasts + [v])[..|g.broadcasts|] == g.broadcasts;
    assert g.subscribers[..0] == [] && Deliveries(g.subscribers[..0], v) == [];
  }

  lemma SpawnDelivers(g: Registration, v: Violation, i: nat)
    requires g.publisher == Spawning(v, i) && DeliversOnce(g)
    ensures i < |g.subscribers|
            ==> DeliversOnce(g.(publisher := Spawning(v, i + 1),
                                spawned := g.spawned + [Delivery(g.subscribers[i], v)]))
    ensures i >= |g.subscribers| ==> DeliversOnce(g.(publisher := Waiting))
  {
    if i < |g.subscribers| {
      DeliveriesStep(g.subscribers, i, v);
    } else {
      assert g.subscribers[..i] == g.subscribers;
    }
  }

  lemma StepRegistrationInv(s: State, e: Event)
    requires Keyed(s) && RegistrationsFine(s) && Enabled(s, e) && !e.Callback? && !e.Register?
    ensures MergesInOrder(Step(s, e).registrations[e.r]) && DeliversOnce(Step(s, e).registrations[e.r])
  {
    MoveShape(s, e);
    MergeStep(s.registrations[e.r], e, Taken(s, e), s.buffer);
    DeliveryStep(s.registrations[e.r], e, Taken(s, e), s.buffer);
  }

  lemma StepRegistrations(s: State, e: Event)
    requires Keyed(s) && RegistrationsFine(s) && Enabled(s, e)
    ensures Keyed(Step(s, e)) && RegistrationsFine(Step(s, e))
  {
    if !e.Callback? && !e.Register? {
      MoveShape(s, e);
      StepRegistrationInv(s, e);
    }
  }

  lemma StepInv(s: State, e: Event)
    requires Inv(s) && Enabled(s, e)
    ensures Inv(Step(s, e))
  {
    StepConserves(s, e);
    StepRegistrations(s, e);
    forall c: Condition ensures OrderKept(Step(s, e), c) {
      assert OrderKept(s, c);
      StepKeepsOrder(s, e, c);
    }
  }

  // ----- who waits for whom

  /** Neither the merger's send nor its close ever blocks, meets a full output channel, or finds it closed. */
  lemma NeverBlocks(s: State, e: Event)
    requires RegistrationsFine(s) && Ready(s, e) && (e.MergerSend? || e.MergerClose?)
    ensures Enabled(s, e)
  {
    assert MergesInOrder(s.registrations[e.r]);
  }

  /** The publisher's steps until it waits for a value again. */
  function PublisherRemaining(g: Registration): int {
    if g.publisher.Waiting? then 0 else |g.subscribers| - g.publisher.next + 1
  }

  /** A forwarder that has a value can hand it over exactly when the publisher has no steps left, and as long as it
      has some, it can take the next. */
  lemma ForwarderWaits(s: State, r: nat)
    requires RegistrationsFine(s) && r < |s.registrations| && s.registrations[r].holding.Some?
    ensures 0 <= PublisherRemaining(s.registrations[r]) <= |s.registrations[r].subscribers| + 1
    ensures Enabled(s, HandOver(r)) <==> PublisherRemaining(s.registrations[r]) == 0
    ensures PublisherRemaining(s.registrations[r]) > 0 ==> Enabled(s, PublisherStep(r))
  {
    assert DeliversOnce(s.registrations[r]);
  }

  /** Of all the steps of other goroutines only the publisher's own bring the hand-over nearer, each by one, and none
      puts it off. */
  lemma WaitStep(s: State, e: Event, r: nat)
    requires r < |s.registrations| && s.registrations[r].holding.Some? && DeliversOnce(s.registrations[r])
    requires Enabled(s, e) && e != HandOver(r)
    ensures var g, t := s.registrations[r], Step(s, e);
            && r < |t.registrations| && t.registrations[r].holding == g.holding
            && t.registrations[r].subscribers == g.subscribers
            && PublisherRemaining(t.registrations[r])
                == PublisherRemaining(g) - (if e == PublisherStep(r) then 1 else 0)
  {
  }

  // ----- whole runs

  ghost predicate Executable(s: State, events: seq<Event>)
    decreases |events|
  {
    events != [] ==> Enabled(s, events[0]) && Executable(Step(s, events[0]), events[1..])
  }

  ghost function Execute(s: State, events: seq<Event>): State
    requires Executable(s, events)
    decreases |events|
  {
    if events == [] then s else Execute(Step(s, events[0]), events[1..])
  }

  lemma {:induction false} RunFrom(s: State, events: seq<Event>)
    requires Inv(s) && Executable(s, events)
    ensures Inv(Execute(s, events))
    decreases |events|
  {
    if events != [] {
      StepInv(s, events[0]);
      RunFrom(Step(s, events[0]), events[1..]);
    }
  }

  /** Every schedule of any number of registrations, callbacks, goroutines and clients keeps the invariant. */
  lemma EveryRun(events: seq<Event>)
    requires Executable(START, events)
    ensures Inv(Execute(START, events))
  {
    RunFrom(START, events);
  }

  /** Of each condition, in every schedule: the takes of all mergers and forwarders, followed by what is buffered, are
      the puts of the callbacks in the same order. */
  lemma EveryRunInOrder(events: seq<Event>, c: Condition)
    requires Executable(START, events)
    ensures var s := Execute(START, events);
            Of(s.put, c) == if c in s.buffer then Of(s.taken, c) + [s.buffer[c]] else Of(s.taken, c)
  {
    EveryRun(events);
    assert OrderKept(Execute(START, events), c);
  }

  /** A forwarder that has a value waits, in every schedule, for at most one publisher step per subscriber and one
      more, whatever the others do; after these the hand-over is enabled. */
  lemma {:induction false} ForwarderWaitIsBounded(s: State, events: seq<Event>, r: nat)
    requires Inv(s) && Executable(s, events)
    requires r < |s.registrations| && s.registrations[r].holding.Some? && HandOver(r) !in events
    ensures var t := Execute(s, events);
            && r < |t.registrations| && t.registrations[r].holding == s.registrations[r].holding
            && Count(events, PublisherStep(r))
                == PublisherRemaining(s.registrations[r]) - PublisherRemaining(t.registrations[r])
            && Count(events, PublisherStep(r)) <= |s.registrations[r].subscribers| + 1
            && (Enabled(t, HandOver(r)) <==> Count(events, PublisherStep(r)) == PublisherRemaining(s.registrations[r]))
    decreases |events|
  {
    ForwarderWaits(s, r);
    if events != [] {
      var e, rest := events[0], events[1..];
      StepInv(s, e);
      assert DeliversOnce(s.registrations[r]);
      WaitStep(s, e, r);
      ForwarderWaitIsBounded(Step(s, e), rest, r);
      CountPop(events, PublisherStep(r));
      RunFrom(s, events);
      ForwarderWaits(Execute(s, events), r);
    }
  }

  // ----- what releases a callback

  /** An event of registration r's forwarder, taking from condition c, or of its publisher. */
  predicate OwnStep(e: Event, r: nat, c: Condition) {
    e == PublisherStep(r) || e == HandOver(r) || e == ForwarderTake(r, c)
  }

  /** The steps of r's publisher and forwarder until the forwarder has taken what is buffered. */
  function StepsToTake(g: Registration): int {
    if g.holding.None? then 1 else PublisherRemaining(g) + 2
  }

  /** A callback blocked on a full channel can always be released: from any state of a run, the forwarder and the
      publisher of any one registration have a schedule of their own that empties the channel. */
  lemma {:induction false} CallbackReleased(s: State, r: nat, c: Condition) returns (events: seq<Event>)
    requires Inv(s) && r < |s.registrations| && c in s.buffer
    ensures Executable(s, events) && c !in Execute(s, events).buffer
    ensures forall k :: 0 <= k < |events| ==> OwnStep(events[k], r, c)
    ensures |events| == StepsToTake(s.registrations[r]) <= |s.registrations[r].subscribers| + 3
    decreases StepsToTake(s.registrations[r])
  {
    var g := s.registrations[r];
    assert DeliversOnce(g);
    var e := if g.holding.None? then ForwarderTake(r, c)
             else if g.publisher.Spawning? then PublisherStep(r)
             else HandOver(r);
    ReleaseStep(s, r, c, e);
    var t := Step(s, e);
    var rest: seq<Event> := [];
    if !e.ForwarderTake? {
      StepInv(s, e);
      rest := CallbackReleased(t, r, c);
    } else {
      assert Executable(t, []) && Execute(t, []) == t;
    }
    events := [e] + rest;
    assert events[1..] == rest;
  }

  lemma ReleaseStep(s: State, r: nat, c: Condition, e: Event)
    requires r < |s.registrations| && c in s.buffer && DeliversOnce(s.registrations[r])
    requires var g := s.registrations[r];
             e == if g.holding.None? then ForwarderTake(r, c)
                  else if g.publisher.Spawning? then PublisherStep(r)
                  else HandOver(r)
    ensures Enabled(s, e)
    ensures var t := Step(s, e);
            && r < |t.registrations| && t.registrations[r].subscribers == s.registrations[r].subscribers
            && (if e.ForwarderTake? then c !in t.buffer
                else c in t.buffer && StepsToTake(t.registrations[r]) == StepsToTake(s.registrations[r]) - 1)
  {
  }

  // ----- what was asked for

  /** The arguments of the registrations made in a schedule. */
  function Requests(events: seq<Event>): seq<seq<string>> {
    if events == [] then []
    else if events[0].Register? then [events[0].typ] + Requests(events[1..])
    else Requests(events[1..])
  }

  /** Channels and subscribers of a registration never change. */
  lemma StepKeepsChannels(s: State, e: Event, r: nat)
    requires Enabled(s, e) && r < |s.registrations|
    ensures var t := Step(s, e);
            && r < |t.registrations| && t.registrations[r].channels == s.registrations[r].channels
            && t.registrations[r].subscribers == s.registrations[r].subscribers
  {
  }

  lemma StepCounts(s: State, e: Event)
    requires Enabled(s, e)
    ensures var t := Step(s, e);
            if e.Register? then t.registrations == s.registrations + [NewRegistration(e.typ)]
            else |t.registrations| == |s.registrations|
  {
  }

  /** The channels and subscribers given with a registration. */
  ghost predicate Asked(g: Registration, typ: seq<string>) { g.channels == Recognised(typ) && g.subscribers == [0, 1] }

  lemma {:induction false} KeptFrom(s: State, events: seq<Event>, r: nat)
    requires Executable(s, events) && r < |s.registrations|
    ensures var t := Execute(s, events);
            && r < |t.registrations| && t.registrations[r].channels == s.registrations[r].channels
            && t.registrations[r].subscribers == s.registrations[r].subscribers
    decreases |events|
  {
    if events != [] {
      StepKeepsChannels(s, events[0], r);
      KeptFrom(Step(s, events[0]), events[1..], r);
    }
  }

  lemma {:induction false} CountFrom(s: State, events: seq<Event>)
    requires Executable(s, events)
    ensures |Execute(s, events).registrations| == |s.registrations| + |Requests(events)|
    decreases |events|
  {
    if events != [] {
      StepCounts(s, events[0]);
      CountFrom(Step(s, events[0]), events[1..]);
    }
  }

  /** The registration made by the first event. */
  lemma RegisteredNow(s: State, events: seq<Event>)
    requires Executable(s, events) && events != [] && events[0].Register?
    ensures var t := Execute(s, events);
            |s.registrations| < |t.registrations| && Asked(t.registrations[|s.registrations|], events[0].typ)
  {
    StepCounts(s, events[0]);
    KeptFrom(Step(s, events[0]), events[1..], |s.registrations|);
  }

  lemma {:induction false} ChannelsFrom(s: State, events: seq<Event>, k: nat)
    requires Executable(s, events) && k < |Requests(events)|
    ensures var r := |s.registrations| + k; var t := Execute(s, events);
            r < |t.registrations| && Asked(t.registrations[r], Requests(events)[k])
    decreases |events|
  {
    var e := events[0];
    var t := Step(s, e);
    StepCounts(s, e);
    if e.Register? {
      assert Requests(events) == [e.typ] + Requests(events[1..]);
      if k == 0 {
        RegisteredNow(s, events);
      } else {
        ChannelsFrom(t, events[1..], k - 1);
      }
    } else {
      ChannelsFrom(t, events[1..], k);
    }
  }

  /** Registration r of a reached state is the r-th that was made, and has the channels of its recognised requests. */
  lemma ChannelsAreRequests(events: seq<Event>, r: nat)
    requires Executable(START, events)
    ensures |Execute(START, events).registrations| == |Requests(events)|
    ensures r < |Requests(events)| ==> Asked(Execute(START, events).registrations[r], Requests(events)[r])
  {
    CountFrom(START, events);
    if r < |Requests(events)| { ChannelsFrom(START, events, r); }
  }

  // ----- counting by condition

  /** The violations of one condition in a history. */
  function OfCondition(vs: seq<Violation>, c: Condition): (n: nat)
    ensures n <= |vs|
  {
    if vs == [] then 0 else OfCondition(vs[..|vs| - 1], c) + (if vs[|vs| - 1].condition == c then 1 else 0)
  }

  function InHand(x: Option<Violation>, c: Condition): nat { if x.Some? && x.value.condition == c then 1 else 0 }

  function TakenByMergers(gs: seq<Registration>, c: Condition): nat {
    if gs == [] then 0
    else TakenByMergers(gs[..|gs| - 1], c) + OfCondition(gs[|gs| - 1].merged, c) + InHand(gs[|gs| - 1].hand, c)
  }

  function TakenByForwarders(gs: seq<Registration>, c: Condition): nat {
    if gs == [] then 0
    else
      var last := gs[|gs| - 1];
      TakenByForwarders(gs[..|gs| - 1], c) + OfCondition(last.broadcasts, c) + InHand(last.holding, c)
  }

  /** For every condition: put == buffered + taken by mergers + taken by forwarders. */
  ghost predicate Balanced(s: State, c: Condition) {
    OfCondition(s.put, c)
        == (if c in s.buffer then 1 else 0) + TakenByMergers(s.registrations, c) + TakenByForwarders(s.registrations, c)
  }

  lemma OfConditionPush(vs: seq<Violation>, v: Violation, c: Condition)
    ensures OfCondition(vs + [v], c) == OfCondition(vs, c) + (if v.condition == c then 1 else 0)
  {
    assert (vs + [v])[..|vs|] == vs;
  }

  lemma {:induction false} TakenUpdate(gs: seq<Registration>, r: nat, g: Registration, c: Condition)
    requires r < |gs|
    ensures TakenByMergers(gs[r := g], c)
        == TakenByMergers(gs, c) - OfCondition(gs[r].merged, c) - InHand(gs[r].hand, c)
                                             + OfCondition(g.merged, c) + InHand(g.hand, c)
    ensures TakenByForwarders(gs[r := g], c)
        == TakenByForwarders(gs, c) - OfCondition(gs[r].broadcasts, c) - InHand(gs[r].holding, c)
                                                + OfCondition(g.broadcasts, c) + InHand(g.holding, c)
  {
    var last := |gs| - 1;
    if r == last {
      assert gs[r := g][..last] == gs[..last];
    } else {
      TakenUpdate(gs[..last], r, g, c);
      assert gs[r := g][..last] == gs[..last][r := g];
    }
  }

  /** By condition, a merger or a forwarder gains exactly what it takes from a channel. */
  lemma MergerTakes(g: Registration, e: Event, taken: Option<Violation>, c: Condition)
    requires e.MergerTake? ==> g.hand.None? && taken.Some?
    ensures var h := StepRegistration(g, e, taken);
            OfCondition(h.merged, c) + InHand(h.hand, c)
            == OfCondition(g.merged, c) + InHand(g.hand, c) + (if e.MergerTake? then InHand(taken, c) else 0)
  {
    if e.MergerSend? && g.hand.Some? { OfConditionPush(g.merged, g.hand.value, c); }
  }

  lemma ForwarderTakes(g: Registration, e: Event, taken: Option<Violation>, c: Condition)
    requires e.ForwarderTake? ==> g.holding.None? && taken.Some?
    ensures var h := StepRegistration(g, e, taken);
            OfCondition(h.broadcasts, c) + InHand(h.holding, c)
            == OfCondition(g.broadcasts, c) + InHand(g.holding, c) + (if e.ForwarderTake? then InHand(taken, c) else 0)
  {
    if e.HandOver? && g.holding.Some? { OfConditionPush(g.broadcasts, g.holding.value, c); }
  }

  lemma MoveBalanced(s: State, e: Event, c: Condition)
    requires Keyed(s) && Balanced(s, c) && Enabled(s, e) && !e.Callback? && !e.Register?
    ensures Balanced(Step(s, e), c)
  {
    var g, taken := s.registrations[e.r], Taken(s, e);
    MoveShape(s, e);
    MergerTakes(g, e, taken, c);
    ForwarderTakes(g, e, taken, c);
    TakenUpdate(s.registrations, e.r, StepRegistration(g, e, taken), c);
  }

  lemma StepBalanced(s: State, e: Event, c: Condition)
    requires Keyed(s) && Balanced(s, c) && Enabled(s, e)
    ensures Balanced(Step(s, e), c)
  {
    if e.Callback? {
      if Reported(e.condition).Some? {
        OfConditionPush(s.put, Violation(Reported(e.condition).value, e.timestamp, e.data), c);
      }
    } else if e.Register? {
      assert Step(s, e).registrations[..|s.registrations|] == s.registrations;
    } else {
      MoveBalanced(s, e, c);
    }
  }

  lemma {:induction false} BalancedFrom(s: State, events: seq<Event>, c: Condition)
    requires Inv(s) && Balanced(s, c) && Executable(s, events)
    ensures Balanced(Execute(s, events), c)
    decreases |events|
  {
    if events != [] {
      StepInv(s, events[0]);
      StepBalanced(s, events[0], c);
      BalancedFrom(Step(s, events[0]), events[1..], c);
    }
  }

  lemma EveryRunBalances(events: seq<Event>, c: Condition)
    requires Executable(START, events)
    ensures Balanced(Execute(START, events), c)
  {
    BalancedFrom(START, events, c);
  }

  // ----- what a client sees

  /** For the r-th registration of any schedule: the output has carried, in order, violations of a prefix of its
      recognised requests, and of all of them once it is closed; each broadcast has started one delivery for each of
      the two subscribers, but for the one being spawned. */
  lemma ClientView(events: seq<Event>, r: nat)
    requires Executable(START, events) && r < |Requests(events)|
    ensures r < |Execute(START, events).registrations|
    ensures var g, asked := Execute(START, events).registrations[r], Recognised(Requests(events)[r]);
            && |g.merged| <= |asked|
            && (forall k :: 0 <= k < |g.merged| ==> g.merged[k].condition == asked[k])
            && (g.closed ==> |g.merged| == |asked| && g.hand.None?)
            && (g.publisher.Waiting? ==> |g.spawned| == 2 * |g.broadcasts|)
            && (g.publisher.Spawning? ==> |g.spawned| == 2 * (|g.broadcasts| - 1) + g.publisher.next)
  {
    EveryRun(events);
    ChannelsAreRequests(events, r);
    SeenBy(Execute(START, events).registrations[r], Requests(events)[r]);
  }

  lemma SeenBy(g: Registration, typ: seq<string>)
    requires MergesInOrder(g) && DeliversOnce(g) && Asked(g, typ)
    ensures |g.merged| <= |Recognised(typ)|
    ensures forall k :: 0 <= k < |g.merged| ==> g.merged[k].condition == Recognised(typ)[k]
    ensures g.closed ==> |g.merged| == |Recognised(typ)| && g.hand.None?
    ensures g.publisher.Waiting? ==> |g.spawned| == 2 * |g.broadcasts|
    ensures g.publisher.Spawning? ==> |g.spawned| == 2 * (|g.broadcasts| - 1) + g.publisher.next
  {
    if g.publisher.Waiting? {
      DeliveryTotal(g.subscribers, g.broadcasts);
    } else {
      DeliveryTotal(g.subscribers, g.broadcasts[..|g.broadcasts| - 1]);
    }
  }

  lemma {:induction false} DeliveryTotal(subscribers: seq<nat>, history: seq<Violation>)
    ensures |AllDeliveries(subscribers, history)| == |subscribers| * |history|
  {
    if history != [] {
      DeliveryTotal(subscribers, history[..|history| - 1]);
      assert |subscribers| * |history| == |subscribers| * (|history| - 1) + |subscribers|;
    }
  }

  /** The competition is real: a forwarder may take the violation that the merger, and so the client, waits for. */
  lemma ForwarderMayWin(timestamp: int, data: nat)
    ensures var events := [Register(["XID Error"]), Callback(0x40, timestamp, data), ForwarderTake(0, Xid)];
            && Executable(START, events)
            && var t := Execute(START, events);
               && |t.registrations| == 1 && t.buffer == map[] && t.registrations[0].merged == []
               && t.registrations[0].holding == Some(Violation(Xid, timestamp, data))
  {
    var e1, e2, e3 := Register(["XID Error"]), Callback(0x40, timestamp, data), ForwarderTake(0, Xid);
    var events := [e1, e2, e3];
    assert ["XID Error"][..0] == [];
    assert NewRegistration(["XID Error"]).channels == [Xid];
    var s1 := Step(START, e1);
    var s2 := Step(s1, e2);
    var s3 := Step(s2, e3);
    assert s3.buffer == map[];
    assert events[1..] == [e2, e3] && [e2, e3][1..] == [e3] && [e3][1..] == [];
    assert Executable(s3, []) && Execute(s3, []) == s3;
    assert Executable(s2, [e3]) && Execute(s2, [e3]) == s3;
    assert Executable(s1, [e2, e3]) && Execute(s1, [e2, e3]) == s3;
  }
}
