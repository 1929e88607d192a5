/** pkg/dcgm/api.go and admin.go: Init and Shutdown count references; the engine is started by the first Init and
    stopped by the last Shutdown. */
module Dcgm {
  import opened Wrappers

  /** Any value of the Go type; the first three are the ones with their own start and stop. */
  datatype Mode = Embedded | Standalone | StartHostengine | OtherMode(value: int)

  /** What the engine is told, in order. A start whose library did not load leaves the stop mode as it was. */
  datatype Action = Start(mode: Mode, loaded: bool) | Stop(mode: Mode)

  datatype Error = ShutdownsBeforeInit(count: nat) | LibraryNotFound | EngineError | InitNeeded

  /** One call by a client: `loaded` says whether the library would load, `engine` whether the engine would
      report no error. */
  datatype Op = Init(mode: Mode, loaded: bool, engine: bool) | Shutdown(engine: bool)

  datatype State = State(counter: int, stopMode: Mode, log: seq<Action>)

  function Apply(s: State, op: Op): State {
    match op
    case Init(mode, loaded, _) =>
      if s.counter == 0
      then State(s.counter + 1, if loaded then mode else s.stopMode, s.log + [Start(mode, loaded)])
      else s.(counter := s.counter + 1)
    case Shutdown(_) =>
      if s.counter == 1
      then State(s.counter - 1, s.stopMode, s.log + [Stop(s.stopMode)])
      else s.(counter := s.counter - 1)
  }

  /** The error returned by a call. */
  function ErrorOf(s: State, op: Op): Option<Error> {
    match op
    case Init(mode, loaded, engine) =>
      if s.counter < 0 then Some(ShutdownsBeforeInit(-s.counter))
      else if s.counter > 0 then None
      else if !loaded then Some(LibraryNotFound)
      else if mode.OtherMode? || engine then None
      else Some(EngineError)
    case Shutdown(engine) =>
      if s.counter <= 0 then Some(InitNeeded)
      else if s.counter > 1 || s.stopMode.OtherMode? || engine then None
      else Some(EngineError)
  }

  /** The package-level variables; `log` records the calls of initDcgm and shutdown. */
  class Engine {
    var counter: int
    var stopMode: Mode
    ghost var log: seq<Action>

    constructor ()
      ensures View() == START
    {
      counter, stopMode, log := 0, Embedded, [];
    }

    ghost function View(): State
      reads this
    {
      State(counter, stopMode, log)
    }

    method Init(m: Mode, loaded: bool, engine: bool) returns (err: Option<Error>)
      modifies this
      ensures View() == Apply(old(View()), Op.Init(m, loaded, engine))
      ensures err == ErrorOf(old(View()), Op.Init(m, loaded, engine))
    {
      err := None;
      if counter < 0 {
        err := Some(ShutdownsBeforeInit(-counter));
      }
      if counter == 0 {
        err := InitDcgm(m, loaded, engine);
      }
      counter := counter + 1;
    }

    method InitDcgm(m: Mode, loaded: bool, engine: bool) returns (err: Option<Error>)
      modifies this
      ensures stopMode == if loaded then m else old(stopMode)
      ensures View() == old(View()).(stopMode := stopMode, log := old(log) + [Start(m, loaded)])
      ensures err == if !loaded then Some(LibraryNotFound) else if m.OtherMode? || engine then None
          else Some(EngineError)
    {
      log := log + [Start(m, loaded)];
      if !loaded {
        return Some(LibraryNotFound);
      }
      stopMode := m;
      match m
      case Embedded | Standalone | StartHostengine =>
        err := if engine then None else Some(EngineError);
      case OtherMode(_) =>
        err := None;
    }

    /** Shutdown, and the cleanup closure that Init returns. */
    method Shutdown(engine: bool) returns (err: Option<Error>)
      modifies this
      ensures View() == Apply(old(View()), Op.Shutdown(engine))
      ensures err == ErrorOf(old(View()), Op.Shutdown(engine))
    {
      err := None;
      if counter <= 0 {
        err := Some(InitNeeded);
      }
      if counter == 1 {
        log := log + [Stop(stopMode)];
        if !stopMode.OtherMode? && !engine {
          err := Some(EngineError);
        }
      }
      counter := counter - 1;
    }
  }

  const START := State(0, Embedded, [])

  // ----- any sequence of calls

  function After(ops: seq<Op>): State {
    if ops == [] then START else Apply(After(ops[..|ops| - 1]), ops[|ops| - 1])
  }

  /** Starts and stops alternate, beginning with a start. */
  ghost predicate Alternates(log: seq<Action>) {
    forall i :: 0 <= i < |log| ==> (log[i].Start? <==> i % 2 == 0)
  }

  /** A start that has not been stopped. */
  predicate Outstanding(log: seq<Action>) { log != [] && log[|log| - 1].Start? }

  /** Each stop uses the mode of the start before it. */
  ghost predicate StopsMatchStarts(log: seq<Action>) {
    forall i :: 0 <= i < |log| && log[i].Stop? ==> i > 0 && log[i - 1].Start? && log[i].mode == log[i - 1].mode
  }

  /** Whatever the calls, extra Shutdowns included: starts and stops alternate, and a start is outstanding exactly
      while the counter is positive. */
  lemma {:induction false} StartsAndStopsAlternate(ops: seq<Op>)
    ensures Alternates(After(ops).log)
    ensures Outstanding(After(ops).log) <==> After(ops).counter >= 1
  {
    if ops != [] { StartsAndStopsAlternate(ops[..|ops| - 1]); }
  }

  /** The counter is the number of Inits less the number of Shutdowns. */
  function Balance(ops: seq<Op>): int {
    if ops == [] then 0 else Balance(ops[..|ops| - 1]) + (if ops[|ops| - 1].Init? then 1 else -1)
  }

  lemma {:induction false} CounterIsBalance(ops: seq<Op>)
    ensures After(ops).counter == Balance(ops)
  {
    if ops != [] { CounterIsBalance(ops[..|ops| - 1]); }
  }

  /** What a Shutdown reports after any calls: that Init is needed, exactly when there have been no more Inits than
      Shutdowns; otherwise an engine error, exactly when it is the last one due, the engine refuses, and the stop mode
      has a stop of its own. */
  lemma ShutdownErrorIff(ops: seq<Op>, engine: bool)
    ensures var s, err := After(ops), ErrorOf(After(ops), Op.Shutdown(engine));
            && (err == Some(InitNeeded) <==> Balance(ops) <= 0)
            && (err == Some(EngineError) <==> Balance(ops) == 1 && !engine && !s.stopMode.OtherMode?)
            && (err.Some? ==> err.value in {InitNeeded, EngineError})
  {
    CounterIsBalance(ops);
  }

  /** What an Init reports after any calls: the number of Shutdowns in excess, exactly when there are some; nothing
      while a reference is held; and otherwise what loading the library and starting the engine report. */
  lemma InitErrorIff(ops: seq<Op>, mode: Mode, loaded: bool, engine: bool)
    ensures var err, n := ErrorOf(After(ops), Op.Init(mode, loaded, engine)), Balance(ops);
            && (n < 0 ==> err == Some(ShutdownsBeforeInit(-n)))
            && (n > 0 ==> err == None)
            && (n == 0 ==> (err == Some(LibraryNotFound) <==> !loaded)
                           && (err == Some(EngineError) <==> loaded && !engine && !mode.OtherMode?)
                           && (err == None <==> loaded && (engine || mode.OtherMode?)))
  {
    CounterIsBalance(ops);
  }

  /** The mode of the last start whose library loaded, or else the initial value of the stop mode. */
  function LastLoaded(log: seq<Action>): Mode {
    if log == [] then Embedded
    else if log[|log| - 1].Start? && log[|log| - 1].loaded then log[|log| - 1].mode
    else LastLoaded(log[..|log| - 1])
  }

  lemma LastLoadedPush(log: seq<Action>, a: Action)
    ensures LastLoaded(log + [a]) == if a.Start? && a.loaded then a.mode else LastLoaded(log)
  {
    assert (log + [a])[..|log|] == log;
  }

  /** Each stop uses the mode of the last loaded start before it. */
  ghost predicate StopsUseLastLoaded(log: seq<Action>) {
    forall i :: 0 <= i < |log| && log[i].Stop? ==> log[i].mode == LastLoaded(log[..i])
  }

  /** The stop mode is that of the last start that loaded, and never that of an Init that found the engine started. */
  lemma {:induction false} StopModeIsLastLoaded(ops: seq<Op>)
    ensures After(ops).stopMode == LastLoaded(After(ops).log)
    ensures StopsUseLastLoaded(After(ops).log)
  {
    if ops != [] {
      var front, last := ops[..|ops| - 1], ops[|ops| - 1];
      StopModeIsLastLoaded(front);
      var s, t := After(front), After(ops);
      if t.log != s.log {
        var a := t.log[|s.log|];
        assert t.log == s.log + [a];
        LastLoadedPush(s.log, a);
        StopsPush(s.log, a);
      }
    }
  }

  lemma StopsPush(log: seq<Action>, a: Action)
    requires StopsUseLastLoaded(log) && (a.Stop? ==> a.mode == LastLoaded(log))
    ensures StopsUseLastLoaded(log + [a])
  {
    forall i | 0 <= i < |log + [a]| && (log + [a])[i].Stop?
        ensures (log + [a])[i].mode == LastLoaded((log + [a])[..i]) {
      assert (log + [a])[..i] == log[..i];
    }
  }

  /** A start does no harm to the stop after it: its library loads, or its mode is the one last loaded. */
  ghost predicate HarmlessStart(log: seq<Action>, i: nat)
    requires i < |log| && log[i].Start?
  {
    log[i].loaded || log[i].mode == LastLoaded(log[..i])
  }

  /** So is every start that is followed by a stop. */
  ghost predicate StoppedStartsHarmless(log: seq<Action>) {
    forall i: nat :: i + 1 < |log| && log[i].Start? ==> HarmlessStart(log, i)
  }

  /** For every sequence of calls: each stop undoes the start before it if and only if every start that is stopped
      is harmless. */
  lemma StopsMatchStartsIff(ops: seq<Op>)
    ensures StopsMatchStarts(After(ops).log) <==> StoppedStartsHarmless(After(ops).log)
  {
    var log := After(ops).log;
    StartsAndStopsAlternate(ops);
    StopModeIsLastLoaded(ops);
    if StopsMatchStarts(log) { MatchingMeansHarmless(log); }
    if StoppedStartsHarmless(log) { HarmlessMeansMatching(log); }
  }

  lemma MatchingMeansHarmless(log: seq<Action>)
    requires Alternates(log) && StopsUseLastLoaded(log) && StopsMatchStarts(log)
    ensures StoppedStartsHarmless(log)
  {
    forall i: nat | i + 1 < |log| && log[i].Start? ensures HarmlessStart(log, i) {
      StopMode(log, i, i + 1);
    }
  }

  lemma HarmlessMeansMatching(log: seq<Action>)
    requires Alternates(log) && StopsUseLastLoaded(log) && StoppedStartsHarmless(log)
    ensures StopsMatchStarts(log)
  {
    forall i | 0 <= i < |log| && log[i].Stop? ensures i > 0 && log[i - 1].Start? && log[i].mode == log[i - 1].mode {
      StartBefore(log, i);
      assert HarmlessStart(log, i - 1);
      StopMode(log, i - 1, i);
    }
  }

  lemma StartBefore(log: seq<Action>, j: nat)
    requires Alternates(log) && j < |log| && log[j].Stop?
    ensures j > 0 && log[j - 1].Start?
  {
    assert j % 2 == 1;
  }

  /** The stop j after a start i. */
  lemma StopMode(log: seq<Action>, i: nat, j: nat)
    requires Alternates(log) && StopsUseLastLoaded(log) && i + 1 == j < |log| && log[i].Start?
    ensures log[j].Stop?
    ensures log[j].mode == if log[i].loaded then log[i].mode else LastLoaded(log[..i])
  {
    assert j % 2 == 1;
    assert log[..j] == log[..i] + [log[i]];
    LoadedBefore(log, i, j);
  }

  lemma LoadedBefore(log: seq<Action>, i: nat, j: nat)
    requires i < j <= |log| && log[..j] == log[..i] + [log[i]]
    ensures LastLoaded(log[..j]) == if log[i].Start? && log[i].loaded then log[i].mode else LastLoaded(log[..i])
  {
    LastLoadedPush(log[..i], log[i]);
  }

  ghost predicate AllLoaded(log: seq<Action>) {
    forall i :: 0 <= i < |log| && log[i].Start? ==> log[i].loaded
  }

  /** While a start is outstanding, the stop mode is its mode, given that its library loaded; when every library
      loads, each stop undoes the start before it. */
  lemma StopModeIsOutstandingMode(ops: seq<Op>)
    ensures var s := After(ops);
            Outstanding(s.log) && s.log[|s.log| - 1].loaded ==> s.stopMode == s.log[|s.log| - 1].mode
    ensures AllLoaded(After(ops).log) ==> StopsMatchStarts(After(ops).log)
  {
    StopModeIsLastLoaded(ops);
    StopsMatchStartsIff(ops);
  }

  /** A failing run: the second start finds no library, and its stop uses the mode of the first. */
  lemma FailedLoadStopsWrongMode(ok: bool)
    ensures var ops := [Init(StartHostengine, true, ok), Shutdown(ok), Init(Standalone, false, ok), Shutdown(ok)];
            After(ops).log
                == [Start(StartHostengine, true), Stop(StartHostengine), Start(Standalone, false),
                    Stop(StartHostengine)]
  {
    var e1, e2, e3, e4 := Init(StartHostengine, true, ok), Shutdown(ok), Init(Standalone, false, ok), Shutdown(ok);
    assert [e1][..0] == [] && [e1, e2][..1] == [e1] && [e1, e2, e3][..2] == [e1, e2]
        && [e1, e2, e3, e4][..3] == [e1, e2, e3];
    assert After([e1]) == Apply(START, e1);
    assert After([e1, e2]) == Apply(After([e1]), e2);
    assert After([e1, e2, e3]) == Apply(After([e1, e2]), e3);
  }

  // ----- every cleanup runs once

  /** Clients that run each cleanup once and after its Init: no prefix has more Shutdowns than Inits. */
  ghost predicate WellBracketed(ops: seq<Op>) {
    forall i :: 0 <= i <= |ops| ==> Balance(ops[..i]) >= 0
  }

  /** Among them no call is told to wait or to call Init first, and a Shutdown stops the engine exactly when it
      ends the last reference; the other calls leave the engine alone. */
  lemma OnlyLastCleanupStops(ops: seq<Op>, i: nat)
    requires WellBracketed(ops) && i < |ops|
    ensures var s, t := After(ops[..i]), After(ops[..i + 1]);
            && s.counter >= 0
            && (ops[i].Shutdown? ==> s.counter >= 1)
            && ErrorOf(s, ops[i]) != Some(InitNeeded)
            && !(ErrorOf(s, ops[i]).Some? && ErrorOf(s, ops[i]).value.ShutdownsBeforeInit?)
            && (ops[i].Shutdown? ==> (t.log == s.log + [Stop(s.stopMode)] <==> Balance(ops[..i + 1]) == 0)
                                     && (t.log == s.log <==> Balance(ops[..i + 1]) > 0))
            && (ops[i].Init? ==> (t.log == s.log <==> s.counter > 0))
  {
    CounterIsBalance(ops[..i]);
    CounterIsBalance(ops[..i + 1]);
    assert ops[..i + 1][..i] == ops[..i];
    assert Balance(ops[..i + 1]) >= 0 && Balance(ops[..i]) >= 0;
    LogsDiffer(After(ops[..i]).log, After(ops[..i + 1]).log);
  }

  lemma LogsDiffer(a: seq<Action>, b: seq<Action>)
    ensures |a| != |b| ==> a != b
  {
  }

  /** With a single period of use, from the first Init to the last cleanup, the engine is started once in the mode
      of the first Init and stopped once, by the last cleanup, in that same mode. */
  lemma {:induction false} SinglePeriod(ops: seq<Op>, n: nat)
    requires 0 < n <= |ops| && ops[0].Init?
    requires forall i :: 0 < i < n ==> Balance(ops[..i]) > 0
    requires Balance(ops[..n]) >= 0
    ensures var log := After(ops[..n]).log; var first := Start(ops[0].mode, ops[0].loaded);
            log == if Balance(ops[..n]) > 0 then [first]
                else [first, Stop(if ops[0].loaded then ops[0].mode else Embedded)]
    ensures After(ops[..n]).stopMode == if ops[0].loaded then ops[0].mode else Embedded
  {
    assert ops[..n][..n - 1] == ops[..n - 1] && ops[..n][n - 1] == ops[n - 1];
    CounterIsBalance(ops[..n - 1]);
    CounterIsBalance(ops[..n]);
    if n == 1 {
      assert ops[..0] == [];
    } else {
      SinglePeriod(ops, n - 1);
    }
  }
}
