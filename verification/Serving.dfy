/** pkg/dcgm/policy.go: what the goroutines of a registration can do from any state of a run, and schedules that serve a
    whole registration, from the callbacks of its conditions to the closed output. */
module Serving {
  import opened Wrappers
  import opened Policy
  import opened Routing

  // ----- when each instruction can complete

  /** The state of one registration in a run. */
  ghost predicate Registered(s: State, r: nat) { Inv(s) && r < |s.registrations| }

  /** The merger waits for the channel of the next condition asked for, passes on what it has, and closes the output
      after the last; the client can receive whatever has been merged. From the state alone. */
  lemma MergerEnabledIff(s: State, r: nat)
    requires Registered(s, r)
    ensures var g := s.registrations[r];
            && (Enabled(s, MergerTake(r))
                <==> g.hand.None? && |g.merged| < |g.channels| && g.channels[|g.merged|] in s.buffer)
            && (Enabled(s, MergerSend(r)) <==> g.hand.Some?)
            && (Enabled(s, MergerClose(r)) <==> g.hand.None? && |g.merged| == |g.channels| && !g.closed)
            && (Enabled(s, ClientReceive(r)) <==> g.received < |g.merged|)
  {
    assert MergesInOrder(s.registrations[r]);
  }

  /** The forwarder takes from any full channel when it has no value, hands it over when the publisher waits, and the
      publisher goes on whenever it has a value. */
  lemma ForwarderEnabledIff(s: State, r: nat, c: Condition)
    requires Registered(s, r)
    ensures var g := s.registrations[r];
            && (Enabled(s, ForwarderTake(r, c)) <==> g.holding.None? && c in s.buffer)
            && (Enabled(s, HandOver(r)) <==> g.holding.Some? && g.publisher.Waiting?)
            && (Enabled(s, PublisherStep(r)) <==> g.publisher.Spawning?)
  {
  }

  /** A callback that reports a condition waits exactly while the condition's channel is full, and puts there what it
      reports; any other callback changes nothing. A registration is never held up. */
  lemma CallbackPuts(s: State, c: Condition, condition: bv32, timestamp: int, data: nat, typ: seq<string>)
    ensures Enabled(s, Callback(Flag(c), timestamp, data)) <==> c !in s.buffer
    ensures c !in s.buffer ==>
              var v := Violation(c, timestamp, data);
              Step(s, Callback(Flag(c), timestamp, data))
                == State(s.buffer[c := v], s.put + [v], s.taken, s.registrations)
    ensures (forall d: Condition :: condition != Flag(d))
            ==> Enabled(s, Callback(condition, timestamp, data)) && Step(s, Callback(condition, timestamp, data)) == s
    ensures Enabled(s, Register(typ))
  {
    ReportedIsFlag(Flag(c), c);
    forall d: Condition ensures Reported(condition) == Some(d) <==> condition == Flag(d) {
      ReportedIsFlag(condition, d);
    }
  }

  /** A callback for condition c serves the r-th registration made exactly if that one requested c by its name. */
  lemma ReportedToRequesters(events: seq<Event>, r: nat, c: Condition, timestamp: int, data: nat)
    requires Executable(START, events) && r < |Requests(events)|
    requires c !in Execute(START, events).buffer
    ensures var s, e := Execute(START, events), Callback(Flag(c), timestamp, data);
            && Enabled(s, e) && c in Step(s, e).buffer && Step(s, e).buffer[c] == Violation(c, timestamp, data)
            && r < |s.registrations| && (c in s.registrations[r].channels <==> Name(c) in Requests(events)[r])
  {
    CallbackPuts(Execute(START, events), c, 0, timestamp, data, []);
    ChannelsAreRequests(events, r);
    RequestedIff(Requests(events)[r], c);
  }

  // ----- runs of a few steps

  /** The schedule can be executed from s and ends in t. */
  ghost predicate Leads(s: State, events: seq<Event>, t: State) { Executable(s, events) && Execute(s, events) == t }

  lemma OneEvent(s: State, e: Event)
    requires Enabled(s, e)
    ensures Leads(s, [e], Step(s, e))
  {
    var t := Step(s, e);
    assert [e][1..] == [];
    assert Executable(t, []) && Execute(t, []) == t;
  }

  lemma EventFirst(s: State, e: Event, rest: seq<Event>, t: State)
    requires Enabled(s, e) && Leads(Step(s, e), rest, t)
    ensures Leads(s, [e] + rest, t)
  {
    assert ([e] + rest)[1..] == rest;
  }

  lemma AfterFirst(s: State, events: seq<Event>, t: State)
    requires Leads(s, events, t) && events != []
    ensures Enabled(s, events[0]) && Leads(Step(s, events[0]), events[1..], t)
  {
  }

  lemma {:induction false} Followed(s: State, first: seq<Event>, middle: State, second: seq<Event>, t: State)
    requires Leads(s, first, middle) && Leads(middle, second, t)
    ensures Leads(s, first + second, t)
    decreases |first|
  {
    if first == [] {
      assert first + second == second;
    } else {
      AfterFirst(s, first, middle);
      Followed(Step(s, first[0]), first[1..], middle, second, t);
      EventFirst(s, first[0], first[1..] + second, t);
      assert first + second == [first[0]] + (first[1..] + second);
    }
  }

  lemma LeadsInv(s: State, events: seq<Event>, t: State)
    requires Inv(s) && Leads(s, events, t)
    ensures Inv(t)
  {
    RunFrom(s, events);
  }

  // ----- one violation on its way

  function Delivered(s: State, r: nat): State
    requires r < |s.registrations| && |s.registrations[r].merged| < |s.registrations[r].channels|
    requires s.registrations[r].channels[|s.registrations[r].merged|] in s.buffer
  {
    var g := s.registrations[r];
    var c := g.channels[|g.merged|];
    State(s.buffer - {c}, s.put, s.taken + [s.buffer[c]],
          s.registrations[r := g.(merged := g.merged + [s.buffer[c]])])
  }

  /** The merger takes the violation it waits for and passes it on, and nothing else changes. */
  lemma MergerDelivers(s: State, r: nat)
    requires Registered(s, r)
    requires var g := s.registrations[r];
             g.hand.None? && |g.merged| < |g.channels| && g.channels[|g.merged|] in s.buffer
    ensures Leads(s, [MergerTake(r), MergerSend(r)], Delivered(s, r))
  {
    var g := s.registrations[r];
    var take, send := MergerTake(r), MergerSend(r);
    MergerEnabledIff(s, r);
    var t := Step(s, take);
    StepInv(s, take);
    MergerEnabledIff(t, r);
    assert t.registrations[r] == g.(hand := Some(s.buffer[g.channels[|g.merged|]]));
    var u := Step(t, send);
    assert u.registrations == Delivered(s, r).registrations;
    OneEvent(t, send);
    EventFirst(s, take, [send], u);
  }

  function Closed(s: State, r: nat): State
    requires r < |s.registrations|
  {
    s.(registrations := s.registrations[r := s.registrations[r].(closed := true, finished := true)])
  }

  /** After the last one it closes the output. */
  lemma MergerCloses(s: State, r: nat)
    requires Registered(s, r)
    requires var g := s.registrations[r]; g.hand.None? && |g.merged| == |g.channels| && !g.closed
    ensures Leads(s, [MergerClose(r)], Closed(s, r))
  {
    MergerEnabledIff(s, r);
    OneEvent(s, MergerClose(r));
  }

  function Received(s: State, r: nat): State
    requires r < |s.registrations|
  {
    var g := s.registrations[r];
    s.(registrations := s.registrations[r := g.(received := g.received + 1)])
  }

  /** The client receives what has been merged. */
  lemma ClientReceives(s: State, r: nat)
    requires Registered(s, r) && s.registrations[r].received < |s.registrations[r].merged|
    ensures Leads(s, [ClientReceive(r)], Received(s, r))
  {
    assert Step(s, ClientReceive(r)).registrations == Received(s, r).registrations;
    OneEvent(s, ClientReceive(r));
  }

  // ----- any registration, from any state of a run

  /** Events of the callbacks, of r's merger and of its client: the forwarders need not move. */
  predicate ServesOnly(e: Event, r: nat) {
    e.Callback? || ((e.MergerTake? || e.MergerSend? || e.MergerClose? || e.ClientReceive?) && e.r == r)
  }

  predicate Served(g: Registration) { g.closed && g.received == |g.merged| == |g.channels| }

  /** The next event that brings registration r nearer to its end. */
  function NextEvent(s: State, r: nat): Event
    requires r < |s.registrations| && |s.registrations[r].merged| <= |s.registrations[r].channels|
  {
    var g := s.registrations[r];
    if g.hand.Some? then MergerSend(r)
    else if |g.merged| < |g.channels| then
      var c := g.channels[|g.merged|];
      if c in s.buffer then MergerTake(r) else Callback(Flag(c), 0, 0)
    else if !g.closed then MergerClose(r)
    else ClientReceive(r)
  }

  /** A bound on the events it takes. */
  function StepsToServe(buffer: map<Condition, Violation>, g: Registration): int {
    3 * (|g.channels| - |g.merged|) + |g.channels| - g.received + (if g.closed then 0 else 1)
    - (if g.hand.Some? then 2 else if |g.merged| < |g.channels| && g.channels[|g.merged|] in buffer then 1 else 0)
  }

  lemma ServeStep(s: State, r: nat)
    requires Registered(s, r) && !Served(s.registrations[r])
    ensures |s.registrations[r].merged| <= |s.registrations[r].channels|
    ensures Enabled(s, NextEvent(s, r)) && ServesOnly(NextEvent(s, r), r)
    ensures var g, t := s.registrations[r], Step(s, NextEvent(s, r));
            && Registered(t, r) && t.registrations[r].channels == g.channels && g.merged <= t.registrations[r].merged
            && StepsToServe(t.buffer, t.registrations[r]) < StepsToServe(s.buffer, g)
  {
    var g := s.registrations[r];
    assert MergesInOrder(g);
    MergerEnabledIff(s, r);
    if g.hand.None? && |g.merged| < |g.channels| { CallbackPuts(s, g.channels[|g.merged|], 0, 0, 0, []); }
    StepInv(s, NextEvent(s, r));
  }

  lemma StepsRemain(s: State, r: nat)
    requires Registered(s, r)
    ensures var g := s.registrations[r];
            0 <= StepsToServe(s.buffer, g) <= 4 * |g.channels| + 1
  {
    assert MergesInOrder(s.registrations[r]);
  }

  /** Every registration can be served to its end from every state of every run: given callbacks for the conditions it
      still waits for, its merger and its client have a schedule of at most 4n + 1 events in all, for n conditions,
      after which one violation for each has been merged and received and the output is closed. */
  lemma {:induction false} CanBeServed(s: State, r: nat) returns (events: seq<Event>, t: State)
    requires Registered(s, r)
    ensures Leads(s, events, t) && forall k :: 0 <= k < |events| ==> ServesOnly(events[k], r)
    ensures r < |t.registrations| && Served(t.registrations[r])
    ensures var g := s.registrations[r];
            && t.registrations[r].channels == g.channels && g.merged <= t.registrations[r].merged
            && |events| <= StepsToServe(s.buffer, g) <= 4 * |g.channels| + 1
    decreases StepsToServe(s.buffer, s.registrations[r])
  {
    StepsRemain(s, r);
    if Served(s.registrations[r]) {
      events, t := [], s;
    } else {
      ServeStep(s, r);
      var e := NextEvent(s, r);
      StepsRemain(Step(s, e), r);
      var rest;
      rest, t := CanBeServed(Step(s, e), r);
      EventFirst(s, e, rest, t);
      events := [e] + rest;
    }
  }

  // ----- a registration from beginning to end

  /** A callback for condition c, the merger's two steps and the client's receive. */
  function Round(r: nat, c: Condition, timestamp: int, data: nat): seq<Event> {
    [Callback(Flag(c), timestamp, data)] + [MergerTake(r), MergerSend(r)] + [ClientReceive(r)]
  }

  function Rounds(r: nat, vs: seq<Violation>): seq<Event> {
    if vs == [] then []
    else
      var v := vs[|vs| - 1];
      Rounds(r, vs[..|vs| - 1]) + Round(r, v.condition, v.timestamp, v.data)
  }

  function AfterRound(g: Registration, v: Violation): Registration {
    g.(merged := g.merged + [v], received := g.received + 1)
  }

  /** With empty channels a round brings one violation to the client. */
  lemma ServeRound(s: State, r: nat, v: Violation) returns (t: State)
    requires Registered(s, r) && s.buffer == map[]
    requires var g := s.registrations[r];
             && g.hand.None? && g.received == |g.merged| < |g.channels| && v.condition == g.channels[|g.merged|]
    ensures Leads(s, Round(r, v.condition, v.timestamp, v.data), t)
    ensures Registered(t, r) && t.buffer == map[]
    ensures t.registrations == s.registrations[r := AfterRound(s.registrations[r], v)]
  {
    var c, call := v.condition, Callback(Flag(v.condition), v.timestamp, v.data);
    CallbackPuts(s, c, 0, v.timestamp, v.data, []);
    OneEvent(s, call);
    StepInv(s, call);
    var t1 := Step(s, call);
    MergerDelivers(t1, r);
    var deliver, t2 := [MergerTake(r), MergerSend(r)], Delivered(t1, r);
    LeadsInv(t1, deliver, t2);
    assert t2.buffer == map[];
    ClientReceives(t2, r);
    t := Received(t2, r);
    LeadsInv(t2, [ClientReceive(r)], t);
    Followed(s, [call], t1, deliver, t2);
    Followed(s, [call] + deliver, t2, [ClientReceive(r)], t);
  }

  /** A registration whose merger has passed on these violations and whose client has received them. */
  function Progress(typ: seq<string>, vs: seq<Violation>, closed: bool): Registration {
    NewRegistration(typ).(merged := vs, received := |vs|, closed := closed, finished := closed)
  }

  /** Violations of the first conditions asked for, in that order. */
  ghost predicate InOrderOf(vs: seq<Violation>, cs: seq<Condition>) {
    |vs| <= |cs| && forall k :: 0 <= k < |vs| ==> vs[k].condition == cs[k]
  }

  lemma {:induction false} ServeRounds(s: State, r: nat, typ: seq<string>, vs: seq<Violation>) returns (t: State)
    requires Registered(s, r) && s.buffer == map[] && s.registrations[r] == Progress(typ, [], false)
    requires InOrderOf(vs, Recognised(typ))
    ensures Leads(s, Rounds(r, vs), t)
    ensures Registered(t, r) && t.buffer == map[]
    ensures t.registrations == s.registrations[r := Progress(typ, vs, false)]
  {
    if vs == [] {
      t := s;
    } else {
      var front, v := vs[..|vs| - 1], vs[|vs| - 1];
      var m := ServeRounds(s, r, typ, front);
      t := ServeRound(m, r, v);
      Followed(s, Rounds(r, front), m, Round(r, v.condition, v.timestamp, v.data), t);
      assert front + [v] == vs;
    }
  }

  /** A whole registration, for any request list and any violations of its recognised conditions in their order: the
      schedule from the registration over one round for each to the close brings the client exactly these violations
      and closes the output, whatever other registrations there are. */
  lemma WholeRegistration(s: State, typ: seq<string>, vs: seq<Violation>) returns (t: State)
    requires Inv(s) && s.buffer == map[]
    requires InOrderOf(vs, Recognised(typ)) && |vs| == |Recognised(typ)|
    ensures var r := |s.registrations|; Leads(s, [Register(typ)] + Rounds(r, vs) + [MergerClose(r)], t)
    ensures t.buffer == map[] && t.registrations == s.registrations + [Progress(typ, vs, true)]
  {
    var r, register := |s.registrations|, Register(typ);
    OneEvent(s, register);
    StepInv(s, register);
    var t1 := Step(s, register);
    assert t1.registrations[r] == Progress(typ, [], false);
    var t2 := ServeRounds(t1, r, typ, vs);
    MergerCloses(t2, r);
    t := Closed(t2, r);
    Followed(s, [register], t1, Rounds(r, vs), t2);
    Followed(s, [register] + Rounds(r, vs), t2, [MergerClose(r)], t);
  }
}
