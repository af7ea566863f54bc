/** The run does what the client asked for: it resumes in the mode of the last request accepted, and
    stops where and for the reason that mode says. */
module RendezvousModes {
  import opened Prelude
  import opened Step
  import opened Session
  import opened Rendezvous
  import opened RendezvousTheorems

  // ----- What the client last asked for

  /** To continue, or to step relative to the stop it was asked at; to continue before anything is. */
  function LastAsked(log: seq<ClientEvent>): Resume {
    if log == [] then Continue
    else match log[|log| - 1]
      case AcceptedResume(ToContinue, _) => Continue
      case AcceptedResume(Next, depth) => Over(depth)
      case AcceptedResume(StepIn, _) => Into
      case AcceptedResume(StepOut, depth) => Out(depth)
      case AcceptedResume(ToPause, _) => Pause
      case _ => LastAsked(log[..|log| - 1])
  }

  /** The last stop the client was shown. */
  function LastStop(log: seq<ClientEvent>): Option<StopInfo> {
    if log == [] then None
    else match log[|log| - 1]
      case SentStopped(info) => Some(info)
      case _ => LastStop(log[..|log| - 1])
  }

  /** Every request was taken at the depth of the stop the client saw. */
  predicate DepthsMatch(log: seq<ClientEvent>) {
    log != [] ==>
      var before, last := log[..|log| - 1], log[|log| - 1];
      && DepthsMatch(before)
      && (last.AcceptedResume? ==> LastStop(before).Some? && LastStop(before).value.depth == last.depth)
  }

  // ----- It is heard

  predicate WakeQueued(s: System) {
    exists i :: 0 <= i < |s.link.control| && s.link.control[i].Wake?
  }

  /** What the client asked for last is staged, or queued, or the mode the run is in. */
  ghost predicate AsksAreHeard(s: System) {
    var asked := LastAsked(s.proto.log);
    && (s.proto.pendingResume.Some? ==> s.proto.pendingResume == Some(asked))
    && (forall i :: 0 <= i < |s.link.control| && s.link.control[i].Wake? ==> s.link.control[i].mode == asked)
    && (s.proto.pendingResume.None? && !WakeQueued(s) ==> s.mode == asked)
  }

  ghost predicate Heard(s: System) {
    && (s.stage == Idle || s.stage.Awaiting? ==> AsksAreHeard(s))
    && DepthsMatch(s.proto.log)
    && (s.proto.stoppedAt.Some? ==> LastStop(s.proto.log) == s.proto.stoppedAt)
  }

  lemma {:induction false} QuietWords(log: seq<ClientEvent>, words: seq<ClientEvent>)
    requires forall e :: e in words ==> !e.SentStopped? && !e.AcceptedResume?
    ensures LastAsked(log + words) == LastAsked(log) && LastStop(log + words) == LastStop(log)
    ensures DepthsMatch(log) ==> DepthsMatch(log + words)
    decreases |words|
  {
    if words == [] {
      assert log + words == log;
    } else {
      var longer := log + words;
      QuietWords(log, words[..|words| - 1]);
      assert longer[..|longer| - 1] == log + words[..|words| - 1];
      assert longer[|longer| - 1] == words[|words| - 1];
    }
  }

  lemma RunThreadIsHeard(s: System, a: Action)
    requires Invariant(s) && Heard(s) && Enabled(s, a) && OfRunThread(a) && !a.TakeControl?
    ensures Heard(Do(s, a))
  {
    RunThreadLeavesTheSessionAlone(s, a);
    RunThreadLeavesTheQueueAlone(s, a);
  }

  lemma RunThreadLeavesTheQueueAlone(s: System, a: Action)
    requires Enabled(s, a) && OfRunThread(a) && !a.TakeControl?
    ensures Do(s, a).link.control == s.link.control && Do(s, a).mode == s.mode && Do(s, a).stage == s.stage
  {
  }

  lemma TakenIsHeard(s: System)
    requires Invariant(s) && Heard(s) && s.phase == Parked && s.link.control != []
    ensures Heard(Taken(s))
  {
  }

  lemma AskIsHeard(s: System, id: nat)
    requires Heard(s) && s.stage == Idle
    ensures Heard(Asked(s, id))
  {
    var control := s.link.control + [Query(id)];
    assert forall i :: 0 <= i < |control| && control[i].Wake? ==> i < |s.link.control| && s.link.control[i] == control[i];
    assert forall i :: 0 <= i < |s.link.control| ==> control[i] == s.link.control[i];
  }

  lemma ResumeIsHeard(s: System, request: Request)
    requires Invariant(s) && Heard(s) && s.stage == Idle && s.proto.stoppedAt.Some?
    ensures Heard(s.(proto := Resumed(s.proto, request)))
  {
    Appended(s.proto.log, AcceptedResume(request, s.proto.stoppedAt.value.depth));
  }

  lemma FlushIsHeard(s: System)
    requires Invariant(s) && Heard(s) && s.stage == Idle
    ensures Heard(AfterFlush(s))
  {
    if s.link.ended.Some? {
      CollectingIsHeard(s.proto.log, s.link.ended.value);
    } else if s.proto.pendingResume.Some? {
      assert s.link.control == [];
      assert AfterFlush(s).link.control[0] == Wake(s.proto.pendingResume.value);
      assert WakeQueued(AfterFlush(s));
    }
  }

  lemma LastWordsAreQuiet(outcome: Outcome)
    ensures forall e :: e in LastOutput(outcome) ==> !e.SentStopped? && !e.AcceptedResume?
    ensures forall e :: e in Farewell(ExitCode(outcome)) ==> !e.SentStopped? && !e.AcceptedResume?
  {
  }

  lemma CollectingIsHeard(log: seq<ClientEvent>, outcome: Outcome)
    requires DepthsMatch(log)
    ensures DepthsMatch(log + LastOutput(outcome) + Farewell(ExitCode(outcome)))
  {
    LastWordsAreQuiet(outcome);
    QuietWords(log, LastOutput(outcome));
    QuietWords(log + LastOutput(outcome), Farewell(ExitCode(outcome)));
  }

  lemma StaysHeard(s: System, s': System)
    requires Heard(s) && s'.link.control == s.link.control && s'.mode == s.mode && s'.stage == s.stage
    requires s'.proto.pendingResume == s.proto.pendingResume && LastAsked(s'.proto.log) == LastAsked(s.proto.log)
    requires DepthsMatch(s'.proto.log)
    requires s'.proto.stoppedAt.Some? ==> LastStop(s'.proto.log) == s'.proto.stoppedAt
    ensures Heard(s')
  {
  }

  lemma StopIsLogged(log: seq<ClientEvent>, info: StopInfo)
    requires DepthsMatch(log)
    ensures var log' := log + [SentStopped(info)];
            LastAsked(log') == LastAsked(log) && LastStop(log') == Some(info) && DepthsMatch(log')
  {
    Appended(log, SentStopped(info));
  }

  lemma PumpedEventIsHeard(s: System)
    requires Invariant(s) && Heard(s) && (s.stage == Idle || s.stage == Draining) && s.link.events != []
    ensures var heard := Heard(AfterPump(s)); heard
  {
    if s.link.events[0].Stopped? {
      StopIsLogged(s.proto.log, s.link.events[0].info);
    } else {
      QuietWords(s.proto.log, [SentOutput]);
    }
    PumpOnlyLogs(s);
    StaysHeard(s, AfterPump(s));
  }

  lemma PumpOnlyLogs(s: System)
    requires s.proto.live && !s.proto.done && s.link.events != []
    ensures var s' := AfterPump(s);
            s'.link.control == s.link.control && s'.mode == s.mode && s'.stage == s.stage
            && s'.proto.pendingResume == s.proto.pendingResume
  {
  }

  lemma PumpedDryIsHeard(s: System)
    requires Heard(s) && (s.stage == Idle || s.stage == Draining) && s.link.events == []
    ensures Heard(AfterPump(s))
  {
    if s.link.ended.Some? {
      CollectingIsHeard(s.proto.log, s.link.ended.value);
    }
  }

  lemma PumpIsHeard(s: System)
    requires Invariant(s) && Heard(s) && (s.stage == Idle || s.stage == Draining)
    ensures var heard := Heard(AfterPump(s)); heard
  {
    if s.link.events == [] {
      PumpedDryIsHeard(s);
    } else {
      PumpedEventIsHeard(s);
    }
  }

  lemma GiveUpIsHeard(s: System)
    requires Invariant(s) && Heard(s) && s.stage == Draining
    ensures Heard(s.(proto := Detached(s.proto), link := s.link.(hungUp := true), stage := Gone))
  {
    QuietWords(s.proto.log, Farewell(None));
  }

  lemma StepIsHeard(s: System, a: Action)
    requires Invariant(s) && Heard(s) && Enabled(s, a)
    ensures var heard := Heard(Do(s, a)); heard
  {
    match a
    case TakeControl => if s.link.control != [] { TakenIsHeard(s); }
    case Ask(id) => AskIsHeard(s, id);
    case AcceptResume(request) => ResumeIsHeard(s, request);
    case FlushResume => FlushIsHeard(s);
    case PumpEvent => PumpIsHeard(s);
    case DrainEvent => PumpIsHeard(s);
    case GiveUp => GiveUpIsHeard(s);
    case Launch =>
    case ReceiveAnswer =>
    case AcceptPause =>
    case BeginTerminate =>
    case SendTerminate =>
    case _ => RunThreadIsHeard(s, a);
  }

  lemma {:induction false} EveryAskIsHeard(states: seq<System>, actions: seq<Action>, n: nat)
    requires IsRun(states, actions) && n < |states|
    ensures var heard := Heard(states[n]); heard
  {
    if n > 0 {
      EveryAskIsHeard(states, actions, n - 1);
      EveryReachableStateIsGood(states, actions, n - 1);
      StepIsHeard(states[n - 1], actions[n - 1]);
    }
  }

  // ----- The mode is the client's

  /** Until teardown begins a run that is not parked is in the mode of the last request the client had
      accepted, taken at the depth of the stop it was shown then. */
  lemma ModeIsTheClients(states: seq<System>, actions: seq<Action>, n: nat)
    requires IsRun(states, actions) && n < |states| && (states[n].stage == Idle || states[n].stage.Awaiting?)
    requires states[n].phase.Executing? || states[n].phase.Hooked? || states[n].phase.Announcing?
    ensures states[n].mode == LastAsked(states[n].proto.log) && DepthsMatch(states[n].proto.log)
  {
    EveryReachableStateIsGood(states, actions, n);
    EveryAskIsHeard(states, actions, n);
  }

  // ----- Where and why the hook stops

  /** Whether a run in this mode stops before a statement at this depth. */
  predicate StopsUnder(mode: Resume, depth: nat) {
    match mode
    case Continue => false
    case Over(from) => depth <= from
    case Into => true
    case Out(from) => depth < from
    case Pause => true
  }

  /** The hook stops for the entry, for a pause, because the mode says so, or for a breakpoint, in this
      order of precedence; it stops at its statement, and a pause asked for is spent. */
  predicate StopsAsAsked(entry: bool, pause: bool, asked: Resume, depth: nat, hit: bool, s': System) {
    && s'.link.pause == false
    && (s'.phase.Announcing? <==> entry || pause || StopsUnder(asked, depth) || hit)
    && (s'.phase.Announcing? ==>
          s'.phase.info == StopInfo(if entry then Entry
                                    else if pause || asked == Pause then Paused
                                    else if StopsUnder(asked, depth) then Stepped
                                    else Breakpoint, depth))
    && (!s'.phase.Announcing? ==> s'.phase.Executing?)
  }

  /** How many log points were sent after step `i` and before step `n`. */
  function Emitted(actions: seq<Action>, i: nat, n: nat): nat
    requires i < n <= |actions|
    decreases n
  {
    if n == i + 1 then 0 else Emitted(actions, i, n - 1) + if actions[n - 1].EmitOutput? then 1 else 0
  }

  /** From `i` up to `n` no other statement is entered. */
  predicate SinceEntering(actions: seq<Action>, i: nat, n: nat) {
    i < n <= |actions| && actions[i].EnterHook? && forall k :: i < k < n ==> !actions[k].EnterHook?
  }

  lemma StaysInHook(s: System, a: Action)
    requires Enabled(s, a) && !a.EnterHook? && Do(s, a).phase.Hooked?
    ensures s.phase.Hooked?
    ensures var left := if a.EmitOutput? then 1 else 0;
            s.phase == Do(s, a).phase.(outputs := Do(s, a).phase.outputs + left)
  {
  }

  /** A run in a hook is at the statement it entered last, and owes the log output not yet sent. */
  lemma {:induction false} HookIsOfItsStatement(states: seq<System>, actions: seq<Action>, i: nat, n: nat)
    requires IsRun(states, actions) && n < |states| && SinceEntering(actions, i, n) && states[n].phase.Hooked?
    ensures states[n].phase.depth == actions[i].depth && states[n].phase.hit == actions[i].hit
    ensures Emitted(actions, i, n) + states[n].phase.outputs == actions[i].outputs
    decreases n
  {
    assert states[n] == Do(states[n - 1], actions[n - 1]);
    if i + 1 < n {
      StaysInHook(states[n - 1], actions[n - 1]);
      HookIsOfItsStatement(states, actions, i, n - 1);
    }
  }

  predicate NoneDecided(actions: seq<Action>, n: nat) {
    n <= |actions| && forall k :: 0 <= k < n ==> actions[k] != ChooseStop
  }

  lemma EntryStepIs(s: System, a: Action)
    requires Enabled(s, a)
    ensures Do(s, a).stopOnEntry == s.stopOnEntry
    ensures Do(s, a).entered <==> s.entered || (s.stopOnEntry && a == ChooseStop)
  {
  }

  lemma {:induction false} EnteredIff(states: seq<System>, actions: seq<Action>, n: nat)
    requires IsRun(states, actions) && n < |states|
    ensures states[n].stopOnEntry == states[0].stopOnEntry
    ensures states[n].entered <==> states[0].stopOnEntry && !NoneDecided(actions, n)
  {
    if n > 0 {
      EnteredIff(states, actions, n - 1);
      EntryStepIs(states[n - 1], actions[n - 1]);
    }
  }

  /** The statement entered at `i` is decided on at `n`, once all its log output is sent: the very first
      decision of a run that is to stop on entry does. */
  lemma HookStopsAsAsked(states: seq<System>, actions: seq<Action>, i: nat, n: nat)
    requires IsRun(states, actions) && n < |actions| && actions[n] == ChooseStop && SinceEntering(actions, i, n)
    requires states[n].stage == Idle || states[n].stage.Awaiting?
    ensures StopsAsAsked(states[0].stopOnEntry && NoneDecided(actions, n), states[n].link.pause,
                         LastAsked(states[n].proto.log), actions[i].depth, actions[i].hit, states[n + 1])
    ensures Emitted(actions, i, n) == actions[i].outputs
  {
    HookIsOfItsStatement(states, actions, i, n);
    EnteredIff(states, actions, n);
    ModeIsTheClients(states, actions, n);
  }

  /** Only a decision spends the pause asked for. */
  lemma PauseStands(s: System, a: Action)
    requires Enabled(s, a) && s.link.pause && a != ChooseStop
    ensures Do(s, a).link.pause
  {
  }

  lemma {:induction false} PauseIsUp(states: seq<System>, actions: seq<Action>, i: nat, n: nat)
    requires IsRun(states, actions) && i < n < |states| && actions[i] == AcceptPause
    requires forall k {:trigger actions[k]} :: i < k < n ==> actions[k] != ChooseStop
    ensures states[n].link.pause
    decreases n
  {
    if i + 1 < n {
      PauseIsUp(states, actions, i, n - 1);
      PauseStands(states[n - 1], actions[n - 1]);
    } else {
      assert states[n] == Do(states[i], actions[i]);
    }
  }

  /** A pause stops the run at the first statement that decides after it. */
  lemma PauseStopsTheRun(states: seq<System>, actions: seq<Action>, i: nat, n: nat)
    requires IsRun(states, actions) && i < n < |actions| && actions[i] == AcceptPause && actions[n] == ChooseStop
    requires forall k {:trigger actions[k]} :: i < k < n ==> actions[k] != ChooseStop
    ensures states[n + 1].phase.Announcing? && states[n + 1].phase.info.depth == states[n].phase.depth
    ensures states[n + 1].phase.info.reason == Paused || states[n + 1].phase.info.reason == Entry
  {
    PauseIsUp(states, actions, i, n);
    assert states[n + 1] == Do(states[n], actions[n]);
  }

  // ----- A resumed run

  /** The statements whose hooks were entered, in order. */
  function Visited(actions: seq<Action>): seq<Visit> {
    if actions == [] then []
    else
      var visited := Visited(actions[..|actions| - 1]);
      match actions[|actions| - 1]
      case EnterHook(depth, _, _) => visited + [Visit(0, depth)]
      case _ => visited
  }

  /** From `i` up to `n` the run goes on, between hooks or in one; the entry is behind it, and neither a
      pause nor a breakpoint comes up. */
  predicate GoesOn(states: seq<System>, actions: seq<Action>, i: nat, n: nat) {
    && i <= n < |states| && n <= |actions|
    && states[i].phase.Executing? && !states[i].link.pause && (states[i].stopOnEntry ==> states[i].entered)
    && (forall k :: i <= k < n ==> states[k].phase.Executing? || states[k].phase.Hooked?)
    && (forall k {:trigger actions[k]} :: i <= k < n ==> actions[k] != AcceptPause && (actions[k].EnterHook? ==> !actions[k].hit))
  }

  /** How far a run in this mode has come: past every statement visited, or at the last one, undecided
      or about to stop. */
  ghost predicate HasCome(visited: seq<Visit>, mode: Resume, s: System) {
    match s.phase
    case Executing => NextStop(visited, 0, mode) == None
    case Hooked(depth, hit, _) =>
      && visited != [] && visited[|visited| - 1].depth == depth && !hit
      && NextStop(visited[..|visited| - 1], 0, mode) == None
    case Announcing(_) => visited != [] && NextStop(visited, 0, mode) == Some(|visited| - 1)
    case _ => true
  }

  lemma {:induction false} OneMoreVisit(visited: seq<Visit>, mode: Resume, from: nat)
    requires visited != [] && from < |visited|
    requires NextStop(visited[..|visited| - 1], from, mode) == None
    ensures NextStop(visited, from, mode) ==
              if Decide(mode, visited[|visited| - 1].depth).Some? then Some(|visited| - 1) else None
    decreases |visited| - from
  {
    if from < |visited| - 1 {
      OneMoreVisit(visited, mode, from + 1);
    }
  }

  ghost predicate OnCourse(s: System, i: System) {
    s.mode == i.mode && !s.link.pause && (s.stopOnEntry ==> s.entered)
  }

  lemma StepOnCourse(s: System, a: Action, start: System)
    requires Invariant(s) && Enabled(s, a) && OnCourse(s, start) && (s.phase.Executing? || s.phase.Hooked?) && a != AcceptPause
    ensures OnCourse(Do(s, a), start)
    ensures !OfRunThread(a) ==> Do(s, a).phase == s.phase
  {
  }

  lemma HookComes(s: System, a: Action, start: System, visited: seq<Visit>)
    requires Enabled(s, a) && OfRunThread(a) && OnCourse(s, start) && (s.phase.Executing? || s.phase.Hooked?)
    requires a.EnterHook? ==> !a.hit
    requires HasCome(visited, start.mode, s)
    ensures HasCome(if a.EnterHook? then visited + [Visit(0, a.depth)] else visited, start.mode, Do(s, a))
  {
    if a.EnterHook? {
      var longer := visited + [Visit(0, a.depth)];
      assert longer[..|longer| - 1] == visited;
    } else if a.ChooseStop? {
      OneMoreVisit(visited, start.mode, 0);
    }
  }

  /** A resumed run visits statements and stops at the first at which its mode says so, and nowhere
      else: where the statement trace says. */
  lemma StepFollows(s: System, a: Action, start: System, visited: seq<Visit>)
    requires Invariant(s) && Enabled(s, a) && OnCourse(s, start) && (s.phase.Executing? || s.phase.Hooked?)
    requires a != AcceptPause && (a.EnterHook? ==> !a.hit) && HasCome(visited, start.mode, s)
    ensures OnCourse(Do(s, a), start)
    ensures HasCome(if a.EnterHook? then visited + [Visit(0, a.depth)] else visited, start.mode, Do(s, a))
  {
    StepOnCourse(s, a, start);
    if OfRunThread(a) {
      HookComes(s, a, start, visited);
    }
  }

  lemma VisitedStep(actions: seq<Action>, i: nat, n: nat)
    requires i < n <= |actions|
    ensures var (before, a) := (Visited(actions[i..n - 1]), actions[n - 1]);
            Visited(actions[i..n]) == if a.EnterHook? then before + [Visit(0, a.depth)] else before
  {
    assert actions[i..n][..n - i - 1] == actions[i..n - 1] && actions[i..n][n - i - 1] == actions[n - 1];
  }

  lemma {:induction false} ResumedRunFollowsItsTrace(states: seq<System>, actions: seq<Action>, i: nat, n: nat)
    requires IsRun(states, actions) && GoesOn(states, actions, i, n)
    ensures OnCourse(states[n], states[i]) && HasCome(Visited(actions[i..n]), states[i].mode, states[n])
    decreases n
  {
    if i < n {
      ResumedRunFollowsItsTrace(states, actions, i, n - 1);
      EveryReachableStateIsGood(states, actions, n - 1);
      StepFollows(states[n - 1], actions[n - 1], states[i], Visited(actions[i..n - 1]));
      VisitedStep(actions, i, n);
    } else {
      assert actions[i..n] == [];
    }
  }

  /** So a stop announced after a request is the first the request asks for. */
  lemma RequestStopsAtItsNextStop(states: seq<System>, actions: seq<Action>, i: nat, n: nat)
    requires IsRun(states, actions) && GoesOn(states, actions, i, n)
    requires states[i].stage == Idle || states[i].stage.Awaiting?
    requires states[n].phase.Announcing?
    ensures var visited := Visited(actions[i..n]);
            visited != [] && NextStop(visited, 0, LastAsked(states[i].proto.log)) == Some(|visited| - 1)
  {
    ModeIsTheClients(states, actions, i);
    ResumedRunFollowsItsTrace(states, actions, i, n);
  }

  // ----- Everything the run says reaches the client

  /** What the client learns of what the run says: its stops and its output. */
  function Shows(e: ClientEvent): seq<RunEvent> {
    match e
    case SentStopped(info) => [Stopped(info)]
    case SentOutput => [Output]
    case _ => []
  }

  function Queues(e: RunEvent): seq<RunEvent> {
    if e.Answer? then [] else [e]
  }

  function EventsShown(log: seq<ClientEvent>): seq<RunEvent> {
    if log == [] then [] else EventsShown(log[..|log| - 1]) + Shows(log[|log| - 1])
  }

  function EventsQueued(events: seq<RunEvent>): seq<RunEvent> {
    if events == [] then [] else Queues(events[0]) + EventsQueued(events[1..])
  }

  /** What one step of a run that stands at `phase` says: a stop it decided on, or the output of a log
      point. */
  function Says(phase: Phase, a: Action): seq<RunEvent> {
    if a.Announce? && phase.Announcing? then [Stopped(phase.info)]
    else if a.EmitOutput? then [Output]
    else []
  }

  /** What the hook has said so far. */
  function Said(states: seq<System>, actions: seq<Action>, n: nat): seq<RunEvent>
    requires n <= |actions| && n < |states|
  {
    if n == 0 then [] else Said(states, actions, n - 1) + Says(states[n - 1].phase, actions[n - 1])
  }

  lemma {:induction false} OneMoreQueued(events: seq<RunEvent>, e: RunEvent)
    ensures EventsQueued(events + [e]) == EventsQueued(events) + Queues(e)
    decreases |events|
  {
    var longer := events + [e];
    if events != [] {
      OneMoreQueued(events[1..], e);
      assert longer[1..] == events[1..] + [e];
    } else {
      assert longer[1..] == [];
    }
  }

  lemma OneMoreShown(log: seq<ClientEvent>, e: ClientEvent)
    ensures EventsShown(log + [e]) == EventsShown(log) + Shows(e)
  {
    Appended(log, e);
  }

  function InFlight(s: System): seq<RunEvent> {
    EventsShown(s.proto.log) + EventsQueued(s.link.events)
  }

  lemma MoveOne(log: seq<ClientEvent>, log': seq<ClientEvent>, events: seq<RunEvent>)
    requires events != [] && EventsShown(log') == EventsShown(log) + Queues(events[0])
    ensures EventsShown(log') + EventsQueued(events[1..]) == EventsShown(log) + EventsQueued(events)
  {
  }

  function LogOf(e: RunEvent): seq<ClientEvent> {
    match e
    case Stopped(info) => [SentStopped(info)]
    case Output => [SentOutput]
    case Answer(_) => []
  }

  lemma LogShows(log: seq<ClientEvent>, e: RunEvent)
    ensures EventsShown(log + LogOf(e)) == EventsShown(log) + Queues(e)
  {
    if e.Answer? {
      assert log + LogOf(e) == log;
    } else {
      OneMoreShown(log, LogOf(e)[0]);
    }
  }

  lemma PumpTakesOne(s: System)
    requires s.proto.live && !s.proto.terminating && s.link.events != []
    ensures AfterPump(s).link.events == s.link.events[1..]
    ensures AfterPump(s).proto.log == s.proto.log + LogOf(s.link.events[0])
  {
  }

  lemma PumpMovesEvents(s: System)
    requires Invariant(s) && s.stage == Idle && s.link.events != []
    ensures InFlight(AfterPump(s)) == InFlight(s)
  {
    PumpTakesOne(s);
    LogShows(s.proto.log, s.link.events[0]);
    MoveOne(s.proto.log, AfterPump(s).proto.log, s.link.events);
  }

  /** The event one step of the run thread sends, if it sends one. */
  function Sends(phase: Phase, a: Action): Option<RunEvent> {
    match a
    case EmitOutput => Some(Output)
    case Announce => if phase.Announcing? then Some(Stopped(phase.info)) else None
    case SendAnswer => if phase.Answering? then Some(Answer(phase.id)) else None
    case _ => None
  }

  lemma RunThreadSends(s: System, a: Action)
    requires Enabled(s, a) && OfRunThread(a) && !s.link.hungUp
    ensures var sends := Sends(s.phase, a);
            Do(s, a).link.events == if sends.Some? then s.link.events + [sends.value] else s.link.events
  {
  }

  lemma RunThreadQueuesWhatItSays(s: System, a: Action)
    requires Invariant(s) && Enabled(s, a) && OfRunThread(a) && (s.stage == Idle || s.stage.Awaiting?)
    ensures var queued := InFlight(Do(s, a)) == InFlight(s) + Says(s.phase, a); queued
  {
    RunThreadLeavesTheSessionAlone(s, a);
    RunThreadSends(s, a);
    var sends := Sends(s.phase, a);
    if sends.Some? {
      OneMoreQueued(s.link.events, sends.value);
    }
  }

  lemma ProtocolKeepsEvents(s: System, a: Action)
    requires Invariant(s) && Enabled(s, a) && !OfRunThread(a) && !a.PumpEvent?
    requires s.stage == Idle || s.stage.Awaiting? || s.stage == Unlaunched
    requires Do(s, a).stage == Idle || Do(s, a).stage.Awaiting?
    ensures InFlight(Do(s, a)) == InFlight(s)
  {
    match a
    case AcceptResume(request) => Appended(s.proto.log, AcceptedResume(request, s.proto.stoppedAt.value.depth));
    case _ =>
  }

  /** Until teardown begins, the stops and outputs the client has been shown and those on their way to it
      are exactly what the run said, in order and unchanged. */
  lemma {:induction false} WhatTheRunSaysReachesTheClient(states: seq<System>, actions: seq<Action>, n: nat)
    requires IsRun(states, actions) && n < |states|
    requires states[n].stage == Idle || states[n].stage.Awaiting? || states[n].stage == Unlaunched
    ensures InFlight(states[n]) == Said(states, actions, n)
    decreases n
  {
    if n > 0 {
      var s, a := states[n - 1], actions[n - 1];
      EveryReachableStateIsGood(states, actions, n - 1);
      StageComesFrom(s, a);
      WhatTheRunSaysReachesTheClient(states, actions, n - 1);
      EventsStay(s, a);
    }
  }

  lemma StageComesFrom(s: System, a: Action)
    requires Enabled(s, a) && (Do(s, a).stage == Idle || Do(s, a).stage.Awaiting? || Do(s, a).stage == Unlaunched)
    ensures s.stage == Idle || s.stage.Awaiting? || s.stage == Unlaunched
  {
  }

  lemma EventsStay(s: System, a: Action)
    requires Invariant(s) && Enabled(s, a)
    requires s.stage == Idle || s.stage.Awaiting? || s.stage == Unlaunched
    requires Do(s, a).stage == Idle || Do(s, a).stage.Awaiting? || Do(s, a).stage == Unlaunched
    ensures InFlight(Do(s, a)) == InFlight(s) + Says(s.phase, a)
  {
    if OfRunThread(a) {
      RunThreadQueuesWhatItSays(s, a);
    } else if a.PumpEvent? {
      if s.link.events != [] {
        PumpMovesEvents(s);
      }
    } else {
      ProtocolKeepsEvents(s, a);
    }
  }
}
