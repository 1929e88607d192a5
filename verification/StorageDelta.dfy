/** cmd/main.go, GetNode and GetInitData: the total storage is sent only when it differs from the last reply,
    zero meaning unchanged; a client keeps the last non-zero value it was sent. */
module StorageDelta {

  /** The two globals involved. */
  class Server {
    var total: int
    var prevNodeStorage: int

    constructor ()
      ensures total == 0 && prevNodeStorage == 0
    {
      total, prevNodeStorage := 0, 0;
    }

    /** The collection loop stores a newly measured total. */
    method Collect(measured: int)
      modifies this`total
      ensures total == measured
    {
      total := measured;
    }

    method GetNode() returns (nodeTotalStorage: int)
      modifies this`prevNodeStorage
      ensures nodeTotalStorage == Reply(old(View()), Node) && View() == Served(old(View()))
    {
      nodeTotalStorage := 0;
      if prevNodeStorage != total {
        nodeTotalStorage := total;
      }
      prevNodeStorage := total;
    }

    method GetInitData() returns (nodeTotalStorage: int)
      modifies this`prevNodeStorage
      ensures nodeTotalStorage == Reply(old(View()), InitData) && View() == Served(old(View()))
    {
      nodeTotalStorage := total;
      prevNodeStorage := total;
    }

    ghost function View(): Shared
      reads this
    {
      Shared(total, prevNodeStorage)
    }
  }

  datatype Shared = Shared(total: int, prev: int)
  datatype Call = InitData | Node

  function Reply(s: Shared, call: Call): int {
    match call
    case InitData => s.total
    case Node => if s.prev != s.total then s.total else 0
  }

  function Served(s: Shared): Shared { s.(prev := s.total) }

  /** A client keeps its value when the reply is zero. */
  function Keep(held: int, reply: int): int { if reply != 0 then reply else held }

  // ----- any mix of collections and calls by any number of clients

  datatype Event = Measured(total: int) | Called(client: nat, call: Call)

  /** The values held by the clients; a client that never called holds zero. */
  datatype World = World(server: Shared, held: map<nat, int>)

  const START := World(Shared(0, 0), map[])

  function Held(w: World, client: nat): int { if client in w.held then w.held[client] else 0 }

  function Step(w: World, e: Event): World {
    match e
    case Measured(total) => w.(server := w.server.(total := total))
    case Called(client, call) => World(Served(w.server), w.held[client := Keep(Held(w, client), Reply(w.server, call))])
  }

  function After(events: seq<Event>): World {
    if events == [] then START else Step(After(events[..|events| - 1]), events[|events| - 1])
  }

  ghost predicate PositiveTotals(events: seq<Event>) {
    forall i :: 0 <= i < |events| && events[i].Measured? ==> events[i].total > 0
  }

  ghost predicate OneClient(events: seq<Event>, client: nat) {
    forall i :: 0 <= i < |events| && events[i].Called? ==> events[i].client == client
  }

  /** When exactly a call leaves the caller with the current total: an initial call needs it to be positive or
      already held; an incremental call needs the client to hold it already or the server not to have sent it in
      its last reply to anyone. */
  lemma CallerIsCurrentIff(w: World, client: nat, call: Call)
    ensures Held(Step(w, Called(client, call)), client) == w.server.total
            <==> Held(w, client) == w.server.total
                 || (w.server.total != 0 && (call == InitData || w.server.prev != w.server.total))
  {
  }

  /** The total last measured, and what it was at the last call of anyone; zero before the first. */
  function LastTotal(events: seq<Event>): int {
    if events == [] then 0
    else if events[|events| - 1].Measured? then events[|events| - 1].total
    else LastTotal(events[..|events| - 1])
  }

  function TotalAtLastCall(events: seq<Event>): int {
    if events == [] then 0
    else if events[|events| - 1].Called? then LastTotal(events)
    else TotalAtLastCall(events[..|events| - 1])
  }

  lemma {:induction false} ServerIs(events: seq<Event>)
    ensures After(events).server == Shared(LastTotal(events), TotalAtLastCall(events))
  {
    if events != [] { ServerIs(events[..|events| - 1]); }
  }

  /** In every run of any number of clients and whatever the totals: a call leaves its caller with the current total if
      and only if the caller holds it already, or it is not zero and either the call is an initial one or the total has
      changed since the last call of anyone. */
  lemma EveryCallIff(events: seq<Event>, client: nat, call: Call)
    ensures var total := LastTotal(events);
            Held(After(events + [Called(client, call)]), client) == total
            <==> Held(After(events), client) == total
                 || (total != 0 && (call == InitData || TotalAtLastCall(events) != total))
  {
    var e := Called(client, call);
    assert (events + [e])[..|events|] == events;
    assert After(events + [e]) == Step(After(events), e);
    ServerIs(events);
    CallerIsCurrentIff(After(events), client, call);
  }

  /** With positive totals and a single client, what the server last sent is what the client holds. */
  lemma {:induction false} ClientHoldsLastSent(events: seq<Event>, client: nat)
    requires PositiveTotals(events) && OneClient(events, client)
    ensures Held(After(events), client) == After(events).server.prev
    ensures After(events).server.total >= 0
    ensures After(events).server.prev != 0 ==> After(events).server.total != 0
  {
    if events != [] {
      var front, last := events[..|events| - 1], events[|events| - 1];
      assert forall i :: 0 <= i < |front| ==> front[i] == events[i];
      assert events[|events| - 1] == last;
      ClientHoldsLastSent(front, client);
    }
  }

  /** So after every reply, to either call, in every mix of calls and collections, it holds the current total. */
  lemma EveryReplyIsEnough(events: seq<Event>, client: nat)
    requires PositiveTotals(events) && OneClient(events, client)
    requires events != [] && events[|events| - 1].Called?
    ensures Held(After(events), client) == After(events).server.total
  {
    ClientHoldsLastSent(events, client);
    assert events[|events| - 1].client == client;
  }

  /** A second client breaks this: the one that asks after the other gets nothing. */
  lemma SecondClientMisses(total: int)
    requires total > 0
    ensures var events := [Measured(total), Called(0, Node), Called(1, Node)];
            PositiveTotals(events) && Held(After(events), 0) == total && Held(After(events), 1) == 0
  {
    var e1, e2, e3 := Measured(total), Called(0, Node), Called(1, Node);
    assert [e1][..0] == [] && [e1, e2][..1] == [e1] && [e1, e2, e3][..2] == [e1, e2];
    assert After([e1]) == Step(START, e1);
    assert After([e1, e2]) == Step(After([e1]), e2);
  }

  /** So does a total that returns to zero: the client keeps the old one. */
  lemma ZeroTotalIsLost(total: int)
    requires total > 0
    ensures var events := [Measured(total), Called(0, Node), Measured(0), Called(0, Node)];
            After(events).server.total == 0 && Held(After(events), 0) == total
  {
    var e1, e2, e3 := Measured(total), Called(0, Node), Measured(0);
    assert [e1][..0] == [] && [e1, e2][..1] == [e1] && [e1, e2, e3][..2] == [e1, e2]
        && [e1, e2, e3, e2][..3] == [e1, e2, e3];
    assert After([e1]) == Step(START, e1);
    assert After([e1, e2]) == Step(After([e1]), e2);
    assert After([e1, e2, e3]) == Step(After([e1, e2]), e3);
  }
}
