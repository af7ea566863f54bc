/** What a debug session promises, for every interleaving of its two threads. */
module RendezvousTheorems {
  import opened Prelude
  import opened Step
  import opened Session
  import opened Rendezvous

  // ----- The stop token

  lemma {:induction false} OutputsAreNoStops(events: seq<RunEvent>)
    requires OnlyOutputs(events)
    ensures QueuedStops(events) == 0
    decreases |events|
  {
    if events != [] {
      OutputsAreNoStops(events[..|events| - 1]);
    }
  }

  /** Until teardown begins a parked run has exactly one token, queued as a stop, held as the stop
      the client sees, staged as a resume or queued as one, and a run that is not parked has none;
      but a run that died answering a query at a stop leaves the one it had behind. */
  lemma StopTokenIsConserved(states: seq<System>, actions: seq<Action>, n: nat)
    requires IsRun(states, actions) && n < |states|
    requires states[n].stage == Idle || states[n].stage.Awaiting?
    ensures Tokens(states[n]) == One(IsParked(states[n]) || states[n].phase.Lost?)
    ensures states[n].phase.Lost? <==> DiedAtAStop(states[n])
  {
    EveryReachableStateIsGood(states, actions, n);
    TokenCountOfGoodState(states[n]);
  }

  /** The run's channel is closed although the client still sees a stop or has just left one. */
  predicate DiedAtAStop(s: System) {
    s.link.ended.Some? && (s.proto.stoppedAt.Some? || s.proto.pendingResume.Some?)
  }

  lemma OneMoreStep(states: seq<System>, actions: seq<Action>, a: Action, next: System)
    requires IsRun(states, actions) && Enabled(states[|actions|], a) && next == Do(states[|actions|], a)
    ensures IsRun(states + [next], actions + [a])
  {
  }

  lemma RunToAStop(stop: StopInfo, parked: System) returns (states: seq<System>, actions: seq<Action>)
    requires stop == StopInfo(Entry, 0)
    requires parked == System(Parked, Continue, true, true, Link([], [Stopped(stop)], false, false, None, false),
                              Proto(true, None, None, false, false, []), Idle, [], 0, 0)
    ensures IsRun(states, actions) && states[|actions|] == parked
  {
    var announcing := parked.(phase := Announcing(stop), link := parked.link.(events := []));
    var hooked := announcing.(phase := Hooked(0, false, 0), entered := false);
    var executing := hooked.(phase := Executing);
    states, actions := [executing.(phase := Unborn, proto := executing.proto.(live := false), stage := Unlaunched)], [];
    OneMoreStep(states, actions, Launch, executing);
    states, actions := states + [executing], actions + [Launch];
    OneMoreStep(states, actions, EnterHook(0, false, 0), hooked);
    states, actions := states + [hooked], actions + [EnterHook(0, false, 0)];
    OneMoreStep(states, actions, ChooseStop, announcing);
    states, actions := states + [announcing], actions + [ChooseStop];
    OneMoreStep(states, actions, Announce, parked);
    states, actions := states + [parked], actions + [Announce];
  }

  /** A run that stops on entry and is asked something. */
  lemma RunToAQuery() returns (states: seq<System>, actions: seq<Action>)
    ensures IsRun(states, actions)
    ensures var s := states[|actions|];
            && s.stage == Awaiting(0) && s.phase == Parked && s.link == Link([Query(0)], [], false, false, None, false)
            && s.proto.stoppedAt.Some? && s.proto.pendingResume.None?
  {
    var stop := StopInfo(Entry, 0);
    var parked := System(Parked, Continue, true, true, Link([], [Stopped(stop)], false, false, None, false),
                         Proto(true, None, None, false, false, []), Idle, [], 0, 0);
    states, actions := RunToAStop(stop, parked);
    var stopped := parked.(link := parked.link.(events := []),
                           proto := parked.proto.(stoppedAt := Some(stop), log := [SentStopped(stop)]));
    OneMoreStep(states, actions, PumpEvent, stopped);
    states, actions := states + [stopped], actions + [PumpEvent];
    var asked := stopped.(link := stopped.link.(control := [Query(0)]), stage := Awaiting(0));
    OneMoreStep(states, actions, Ask(0), asked);
    states, actions := states + [asked], actions + [Ask(0)];
  }

  /** A run that dies over the first query keeps a token although it is parked no more. */
  lemma RunsCanDieAtAStop() returns (states: seq<System>, actions: seq<Action>)
    ensures IsRun(states, actions) && states[|actions|].stage.Awaiting?
    ensures Tokens(states[|actions|]) == 1 && !IsParked(states[|actions|])
  {
    states, actions := RunToAQuery();
    var asked := states[|actions|];
    var taken := asked.(phase := Answering(0), link := asked.link.(control := []));
    OneMoreStep(states, actions, TakeControl, taken);
    states, actions := states + [taken], actions + [TakeControl];
    var lost := taken.(phase := Lost, link := taken.link.(ended := Some(Panicked)));
    OneMoreStep(states, actions, EndRun(Panicked), lost);
    states, actions := states + [lost], actions + [EndRun(Panicked)];
  }

  lemma TokenCountOfGoodState(s: System)
    requires Invariant(s) && (s.stage == Idle || s.stage.Awaiting?)
    ensures Tokens(s) == One(IsParked(s) || s.phase.Lost?)
  {
    var control, events := s.link.control, s.link.events;
    assert forall c :: QueuedWakes([c]) == One(c.Wake?) by { assert forall c: Control :: [c][..0] == []; }
    assert forall e :: QueuedStops([e]) == One(e.Stopped?) by { assert forall e: RunEvent :: [e][..0] == []; }
    if !IsParked(s) && !s.phase.Lost? {
      OutputsAreNoStops(events);
    } else if events != [] && events[|events| - 1].Stopped? {
      OutputsAreNoStops(events[..|events| - 1]);
    } else {
      assert events == [] || events == [events[0]];
      assert control == [] || control == [control[0]];
    }
  }

  /** Every query that has returned got its own answer, or nothing at all from a run that is gone:
      never a stop, never log output, never the answer to another query. */
  lemma QueriesReceiveTheirOwnAnswers(states: seq<System>, actions: seq<Action>, n: nat, i: nat)
    requires IsRun(states, actions) && n < |states| && i < |states[n].answers|
    ensures var (id, got) := states[n].answers[i]; got == Some(id) || (got.None? && states[n].link.ended.Some?)
  {
    EveryReachableStateIsGood(states, actions, n);
  }

  /** At the moment a query returns, it fails exactly when the run has ended. */
  lemma QueryFailsIffTheRunIsGone(states: seq<System>, actions: seq<Action>, n: nat)
    requires IsRun(states, actions) && n < |actions|
    requires states[n + 1].answers != states[n].answers
    ensures var id := if actions[n].Ask? then actions[n].id else states[n].stage.id;
            states[n + 1].answers == states[n].answers + [(id, if states[n].link.ended.Some? then None else Some(id))]
  {
    EveryReachableStateIsGood(states, actions, n);
    if !actions[n].Ask? && !actions[n].ReceiveAnswer? {
      OnlyQueriesAnswer(states[n], actions[n]);
    }
  }

  lemma OnlyQueriesAnswer(s: System, a: Action)
    requires Enabled(s, a) && !a.Ask? && !a.ReceiveAnswer?
    ensures Do(s, a).answers == s.answers
  {
  }

  /** A query in flight is never stuck: its answer is there, or the run thread is about to take it
      or to answer it, or the run has died over it and the query learns so. */
  lemma QueriesAreNeverStuck(states: seq<System>, actions: seq<Action>, n: nat)
    requires IsRun(states, actions) && n < |states| && states[n].stage.Awaiting?
    ensures var s := states[n];
            || (Enabled(s, ReceiveAnswer) && s.link.events == [Answer(s.stage.id)] && s.link.ended.None?)
            || (Enabled(s, TakeControl) && s.link.control == [Query(s.stage.id)])
            || (Enabled(s, SendAnswer) && s.phase == Answering(s.stage.id))
            || (Enabled(s, ReceiveAnswer) && s.link.events == [] && s.phase == Lost)
  {
    EveryReachableStateIsGood(states, actions, n);
  }

  // ----- Stops and resumes

  function Resumes(log: seq<ClientEvent>): nat {
    if log == [] then 0 else Resumes(log[..|log| - 1]) + One(log[|log| - 1].AcceptedResume?)
  }

  lemma {:induction false} PrefixesAlternate(log: seq<ClientEvent>, n: nat)
    requires Alternates(log) && n <= |log|
    ensures Alternates(log[..n])
    decreases |log|
  {
    if n < |log| {
      assert log[..|log| - 1][..n] == log[..n];
      PrefixesAlternate(log[..|log| - 1], n);
    } else {
      assert log[..n] == log;
    }
  }

  /** Behind a stop and before the next one, the turn is open while no resume was accepted. */
  lemma {:induction false} OneResumeClosesTheTurn(log: seq<ClientEvent>, i: nat, m: nat)
    requires Alternates(log) && i < m <= |log| && log[i].SentStopped?
    requires forall k :: i < k < m ==> !log[k].SentStopped?
    ensures Resumes(log[i + 1..m]) == One(!Open(log[..m]))
    decreases m
  {
    assert log[..m][..m - 1] == log[..m - 1] && log[..m][m - 1] == log[m - 1];
    if m == i + 1 {
      assert log[i + 1..m] == [];
    } else {
      OneResumeClosesTheTurn(log, i, m - 1);
      assert log[i + 1..m][..m - i - 2] == log[i + 1..m - 1];
      PrefixesAlternate(log, m);
    }
  }

  /** Between two consecutive `stopped` events the client had exactly one resume accepted. */
  lemma OneResumeBetweenStops(states: seq<System>, actions: seq<Action>, n: nat, i: nat, j: nat)
    requires IsRun(states, actions) && n < |states|
    requires i < j < |states[n].proto.log|
    requires states[n].proto.log[i].SentStopped? && states[n].proto.log[j].SentStopped?
    requires forall k :: i < k < j ==> !states[n].proto.log[k].SentStopped?
    ensures Resumes(states[n].proto.log[i + 1..j]) == 1
  {
    EveryReachableStateIsGood(states, actions, n);
    var log := states[n].proto.log;
    OneResumeClosesTheTurn(log, i, j);
    PrefixesAlternate(log, j + 1);
    assert log[..j + 1][..j] == log[..j];
  }

  // ----- Termination

  function Stops(log: seq<ClientEvent>): nat {
    if log == [] then 0 else Stops(log[..|log| - 1]) + One(log[|log| - 1].SentStopped?)
  }

  lemma QuietEntryIsNoStop(log: seq<ClientEvent>, e: ClientEvent)
    requires !e.SentStopped?
    ensures Stops(log + [e]) == Stops(log)
  {
    Appended(log, e);
  }

  lemma {:induction false} QuietEntriesAreNoStops(log: seq<ClientEvent>, words: seq<ClientEvent>)
    requires forall e :: e in words ==> !e.SentStopped?
    ensures Stops(log + words) == Stops(log)
    decreases |words|
  {
    if words == [] {
      assert log + words == log;
    } else {
      var rest := words[1..];
      QuietEntryIsNoStop(log, words[0]);
      QuietEntriesAreNoStops(log + [words[0]], rest);
      assert log + words == log + [words[0]] + rest;
    }
  }

  lemma CollectingIsNoStop(log: seq<ClientEvent>, outcome: Outcome)
    ensures Stops(log + LastOutput(outcome) + Farewell(ExitCode(outcome))) == Stops(log)
  {
    QuietEntriesAreNoStops(log, LastOutput(outcome));
    QuietEntriesAreNoStops(log + LastOutput(outcome), Farewell(ExitCode(outcome)));
  }

  predicate OfRunThread(a: Action) {
    || a.EnterHook? || a.EmitOutput? || a.ChooseStop? || a.Announce? || a.TakeControl? || a.SendAnswer? || a.EndRun?
  }

  lemma RunThreadLeavesTheSessionAlone(s: System, a: Action)
    requires Enabled(s, a) && OfRunThread(a)
    ensures var s' := Do(s, a);
            s'.link.terminate == s.link.terminate && s'.wakes == s.wakes && s'.proto == s.proto
  {
    match a
    case ChooseStop => assert Chosen(s).proto == s.proto;
    case TakeControl => assert s.link.control != [] ==> Taken(s).proto == s.proto;
    case _ =>
  }

  lemma CollectedLog(s: System)
    requires TearingDown(s) && s.link.events == [] && s.link.ended.Some?
    ensures Stops(AfterPump(s).proto.log) == Stops(s.proto.log)
  {
    CollectingIsNoStop(s.proto.log, s.link.ended.value);
  }

  lemma DrainedLog(s: System)
    requires TearingDown(s) && s.link.events != []
    ensures Stops(AfterPump(s).proto.log) == Stops(s.proto.log)
  {
    QuietEntryIsNoStop(s.proto.log, SentOutput);
  }

  lemma DrainingIsQuiet(s: System)
    requires TearingDown(s)
    ensures var s' := AfterPump(s);
            s'.link.terminate && s'.wakes == s.wakes && Stops(s'.proto.log) == Stops(s.proto.log)
  {
    if s.link.events != [] {
      DrainedLog(s);
    } else if s.link.ended.Some? {
      CollectedLog(s);
    }
  }

  lemma TerminatingStepIsQuiet(s: System, a: Action)
    requires Invariant(s) && Enabled(s, a) && s.link.terminate
    ensures var s' := Do(s, a);
            s'.link.terminate && s'.wakes == s.wakes && Stops(s'.proto.log) == Stops(s.proto.log)
  {
    if OfRunThread(a) {
      RunThreadLeavesTheSessionAlone(s, a);
    } else if a.DrainEvent? {
      DrainingIsQuiet(s);
    } else if a.GiveUp? {
      QuietEntriesAreNoStops(s.proto.log, Farewell(None));
    }
  }

  lemma {:induction false} TerminatingRunIsQuiet(states: seq<System>, actions: seq<Action>, i: nat, n: nat)
    requires IsRun(states, actions) && i <= n < |states| && states[i].link.terminate
    ensures states[n].link.terminate && states[n].wakes == states[i].wakes
    ensures Stops(states[n].proto.log) == Stops(states[i].proto.log)
    decreases n
  {
    if i < n {
      TerminatingRunIsQuiet(states, actions, i, n - 1);
      EveryReachableStateIsGood(states, actions, n - 1);
      TerminatingStepIsQuiet(states[n - 1], actions[n - 1]);
    }
  }

  /** Once the terminate flag is up no resume is sent, no stop is announced, and at most one more
      statement is let through. */
  lemma TerminateIsFinal(states: seq<System>, actions: seq<Action>, i: nat, n: nat)
    requires IsRun(states, actions) && i <= n < |states| && states[i].link.terminate
    ensures states[n].wakes == states[i].wakes
    ensures Stops(states[n].proto.log) == Stops(states[i].proto.log)
    ensures states[n].passes <= 1
  {
    TerminatingRunIsQuiet(states, actions, i, n);
    EveryReachableStateIsGood(states, actions, n);
  }

  /** The run stays parked until it unwinds. */
  ghost predicate NeverWakes(s: System) {
    && s.link.terminate
    && (s.phase == Parked || s.phase == Unwinding || IsDead(s))
    && forall i :: 0 <= i < |s.link.control| ==> s.link.control[i].Terminate?
  }

  lemma {:induction false} StaysAsleep(states: seq<System>, actions: seq<Action>, i: nat, n: nat)
    requires IsRun(states, actions) && i <= n < |states| && NeverWakes(states[i])
    ensures NeverWakes(states[n])
    decreases n
  {
    if i < n {
      StaysAsleep(states, actions, i, n - 1);
      EveryReachableStateIsGood(states, actions, n - 1);
      SleepingStepStaysAsleep(states[n - 1], actions[n - 1]);
    }
  }

  lemma SleepingStepStaysAsleep(s: System, a: Action)
    requires Invariant(s) && Enabled(s, a) && NeverWakes(s)
    ensures NeverWakes(Do(s, a))
  {
  }

  /** A resume still staged when teardown begins never wakes the run: it executes no further
      statement. */
  lemma StagedResumeNeverWakesTheRun(states: seq<System>, actions: seq<Action>, i: nat, n: nat)
    requires IsRun(states, actions) && i < n < |states|
    requires states[i].proto.pendingResume.Some? && actions[i] == BeginTerminate
    ensures states[n].phase == Parked || states[n].phase == Unwinding || IsDead(states[n])
  {
    EveryReachableStateIsGood(states, actions, i);
    assert NeverWakes(states[i + 1]);
    StaysAsleep(states, actions, i + 1, n);
  }

  // ----- The end of the session

  /** A launched session that is over emitted exactly one `terminated`, as its last event, and at
      most one `exited`, right before it; one that is not over has emitted neither. */
  lemma EachRunEndsOnce(states: seq<System>, actions: seq<Action>, n: nat, k: nat)
    requires IsRun(states, actions) && n < |states| && k < |states[n].proto.log|
    ensures var s := states[n];
            && (s.proto.log[k].SentTerminated? <==> s.stage == Gone && k == |s.proto.log| - 1)
            && (s.proto.log[k].SentExited? ==> s.stage == Gone && k == |s.proto.log| - 2)
  {
    EveryReachableStateIsGood(states, actions, n);
    var log := states[n].proto.log;
    if states[n].stage == Gone {
      if k < |log| - 1 {
        assert log[k] == log[..|log| - 1][k];
      }
      if k < |log| - 2 {
        assert log[k] == log[..|log| - 2][k];
      }
    }
  }

  /** The code an ended run exits with: zero for a clean end, one for a fault, 101 for a panic. */
  function CodeOf(ended: Option<Outcome>): Option<nat> {
    match ended
    case Some(Clean(_, _)) => Some(0)
    case Some(Fault(_)) => Some(1)
    case Some(Panicked) => Some(101)
    case _ => None
  }

  /** An exit tells how the run ended, and one that is no success is preceded by some output. */
  ghost predicate ExitsTell(s: System) {
    forall k :: 0 <= k < |s.proto.log| && s.proto.log[k].SentExited? ==>
      && CodeOf(s.link.ended) == Some(s.proto.log[k].code)
      && (s.proto.log[k].code != 0 ==> k > 0 && s.proto.log[k - 1].SentOutput?)
  }

  lemma CollectingTells(log: seq<ClientEvent>, outcome: Outcome)
    requires StillOpen(log)
    ensures var log' := log + LastOutput(outcome) + Farewell(ExitCode(outcome));
            forall k :: 0 <= k < |log'| && log'[k].SentExited? ==>
              && CodeOf(Some(outcome)) == Some(log'[k].code)
              && (log'[k].code != 0 ==> k > 0 && log'[k - 1].SentOutput?)
  {
    var shown := log + LastOutput(outcome);
    var log' := shown + Farewell(ExitCode(outcome));
    assert forall k :: 0 <= k < |shown| ==> log'[k] == shown[k] && !shown[k].SentExited?;
    if outcome.Fault? || outcome.Panicked? {
      assert shown[|shown| - 1] == SentOutput;
    }
  }

  lemma OpenTellsNothing(s: System)
    requires StillOpen(s.proto.log)
    ensures ExitsTell(s)
  {
  }

  lemma EndingTells(s: System, a: Action)
    requires Invariant(s) && Enabled(s, a) && s.stage != Gone && Do(s, a).stage == Gone
    ensures ExitsTell(Do(s, a))
  {
    if a.FlushResume? || a.PumpEvent? || a.DrainEvent? {
      CollectedBy(s, a);
      CollectingTells(s.proto.log, s.link.ended.value);
    } else if a.GiveUp? {
      assert StillOpen(s.proto.log);
    }
  }

  lemma CollectedBy(s: System, a: Action)
    requires Invariant(s) && Enabled(s, a) && s.stage != Gone && Do(s, a).stage == Gone
    requires a.FlushResume? || a.PumpEvent? || a.DrainEvent?
    ensures s.link.ended.Some? && StillOpen(s.proto.log) && Do(s, a).link.ended == s.link.ended
    ensures Do(s, a).proto.log == s.proto.log + LastOutput(s.link.ended.value) + Farewell(ExitCode(s.link.ended.value))
  {
  }

  lemma GoneStaysSo(s: System, a: Action)
    requires Invariant(s) && Enabled(s, a) && s.stage == Gone && ExitsTell(s)
    ensures ExitsTell(Do(s, a))
  {
    OverStepIsSilent(s, a);
    if s.link.ended.Some? {
      EndsAtMostOnce(s, a);
    }
  }

  lemma EndsAtMostOnce(s: System, a: Action)
    requires Invariant(s) && Enabled(s, a) && s.link.ended.Some? && s.stage == Gone
    ensures Do(s, a).link.ended == s.link.ended
  {
  }

  /** The client is told how the run ended, and never only that it did when something went wrong. */
  lemma {:induction false} ExitTellsHowItEnded(states: seq<System>, actions: seq<Action>, n: nat)
    requires IsRun(states, actions) && n < |states|
    ensures var tells := ExitsTell(states[n]); tells
  {
    if n > 0 {
      ExitTellsHowItEnded(states, actions, n - 1);
      EveryReachableStateIsGood(states, actions, n - 1);
      EveryReachableStateIsGood(states, actions, n);
      if states[n].stage != Gone {
        OpenTellsNothing(states[n]);
      } else if states[n - 1].stage != Gone {
        EndingTells(states[n - 1], actions[n - 1]);
      } else {
        GoneStaysSo(states[n - 1], actions[n - 1]);
      }
    }
  }

  /** Once the protocol thread has hung up, a run that has something to say or waits for a word ends. */
  lemma NobodyListens(s: System, a: Action)
    requires Enabled(s, a) && s.link.hungUp
    requires a.EmitOutput? || a.Announce? || a.SendAnswer? || (a.TakeControl? && s.link.control == [])
    ensures Do(s, a) == s.(phase := Unwinding)
  {
  }

  function Outputs(log: seq<ClientEvent>): nat { multiset(log)[SentOutput] }

  /** What an ended run still has to say: what it printed, its value, and what went wrong. */
  function LeftToSay(outcome: Outcome): nat {
    match outcome
    case Clean(printed, value) => One(printed) + One(value)
    case Fault(printed) => One(printed) + 1
    case Panicked => 1
    case Unreported => 0
  }

  lemma FinishingSaysIt(p: Proto, outcome: Outcome)
    requires p.live
    ensures Outputs(Finished(p, outcome).log) == Outputs(p.log) + LeftToSay(outcome)
  {
    assert multiset(Finished(p, outcome).log)
        == multiset(p.log) + multiset(LastOutput(outcome)) + multiset(Farewell(ExitCode(outcome)));
    LastOutputSaysIt(outcome);
    assert Outputs(Farewell(ExitCode(outcome))) == 0;
  }

  lemma LastOutputSaysIt(outcome: Outcome)
    ensures Outputs(LastOutput(outcome)) == LeftToSay(outcome)
  {
  }

  /** Unless it gives up on it, the protocol thread lets go of a run only once it has ended, and says
      all of it. */
  lemma EndedRunsSayEverything(s: System, a: Action)
    requires Enabled(s, a) && s.proto.live && !Do(s, a).proto.live && a != GiveUp
    ensures s.link.ended.Some? && Outputs(Do(s, a).proto.log) == Outputs(s.proto.log) + LeftToSay(s.link.ended.value)
  {
    assert s.link.ended.Some? && Do(s, a).proto == Finished(s.proto, s.link.ended.value);
    FinishingSaysIt(s.proto, s.link.ended.value);
  }

  lemma LaunchedSessionsEndWithAnEvent(states: seq<System>, actions: seq<Action>, n: nat)
    requires IsRun(states, actions) && n < |states|
    requires states[n].stage == Gone && states[n].phase != Unborn
    ensures states[n].proto.log != []
  {
    EveryReachableStateIsGood(states, actions, n);
  }

  lemma OverStepIsSilent(s: System, a: Action)
    requires Invariant(s) && Enabled(s, a) && s.stage == Gone
    ensures Do(s, a).stage == Gone && Do(s, a).proto.log == s.proto.log
  {
  }

  /** Repeating the teardown of a session that is over, as dropping it does, emits nothing. */
  lemma {:induction false} RepeatedTeardownIsSilent(states: seq<System>, actions: seq<Action>, i: nat, n: nat)
    requires IsRun(states, actions) && i <= n < |states| && states[i].stage == Gone
    ensures states[n].stage == Gone && states[n].proto.log == states[i].proto.log
    decreases n
  {
    if i < n {
      RepeatedTeardownIsSilent(states, actions, i, n - 1);
      EveryReachableStateIsGood(states, actions, n - 1);
      OverStepIsSilent(states[n - 1], actions[n - 1]);
    }
  }
}
