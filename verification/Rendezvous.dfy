/** The two threads of a debug session meeting at the statement hook, as a state machine whose
    steps may interleave in any order, and what every run of it keeps.

    An `ensures` that names its one claim in a `var` first is proved whole and not conjunct by
    conjunct. */
module Rendezvous {
  import opened Prelude
  import opened Step
  import opened Session

  /** Where the run thread stands. It is `Unborn` until launch; `Hooked` is past the terminate check of one statement,
      `Announcing` has decided to stop there, `Lost` died answering a query. */
  datatype Phase =
    | Unborn
    | Executing
    | Hooked(depth: nat, hit: bool, outputs: nat)
    | Announcing(info: StopInfo)
    | Parked
    | Answering(id: nat)
    | Unwinding
    | Exited
    | Lost

  /** Where the protocol thread stands: between requests, blocked on a query's answer, or in one of
      the stages of tearing the session down. */
  datatype Stage = Unlaunched | Idle | Awaiting(id: nat) | Telling | Draining | Gone

  /** `answers` pairs each finished query with what it got; `wakes` counts resumes sent; `passes`
      counts hooks that let a statement run although the terminate flag was up. */
  datatype System = System(
    phase: Phase, mode: Resume, stopOnEntry: bool, entered: bool,
    link: Link, proto: Proto, stage: Stage,
    answers: seq<(nat, Option<nat>)>, wakes: nat, passes: nat)

  predicate Starts(s: System) {
    && s.phase == Unborn && s.mode == Continue && !s.entered
    && s.link == Link([], [], false, false, None, false)
    && s.proto == Proto(false, None, None, false, false, [])
    && s.stage == Unlaunched
    && s.answers == [] && s.wakes == 0 && s.passes == 0
  }

  datatype Action =
    // Run thread.
    | EnterHook(depth: nat, hit: bool, outputs: nat)
    | EmitOutput
    | ChooseStop
    | Announce
    | TakeControl
    | SendAnswer
    | EndRun(outcome: Outcome)
    // Protocol thread.
    | Launch
    | Ask(id: nat)
    | ReceiveAnswer
    | AcceptResume(request: Request)
    | AcceptPause
    | FlushResume
    | PumpEvent
    | BeginTerminate
    | SendTerminate
    | DrainEvent
    | GiveUp

  // ----- Run thread

  /** A hook that returns `Ok` once more, counted when the flag was already up. */
  function Passed(s: System): System {
    s.(phase := Executing, passes := if s.link.terminate then s.passes + 1 else s.passes)
  }

  /** Send one event, or unwind when nobody is left to receive it. */
  function Sent(s: System, event: RunEvent, next: Phase): System {
    if s.link.hungUp then s.(phase := Unwinding)
    else s.(link := s.link.(events := s.link.events + [event]), phase := next)
  }

  function Chosen(s: System): System
    requires s.phase.Hooked?
  {
    var entry := s.stopOnEntry && !s.entered;
    var reason := HookReason(entry, s.link.pause, s.mode, s.phase.depth, s.phase.hit);
    var s' := s.(entered := s.entered || entry, link := s.link.(pause := false));
    if reason.None? then Passed(s')
    else s'.(phase := Announcing(StopInfo(reason.value, s.phase.depth)))
  }

  function Taken(s: System): System
    requires s.link.control != []
  {
    var s' := s.(link := s.link.(control := s.link.control[1..]));
    match s.link.control[0]
    case Query(id) => s'.(phase := Answering(id))
    case Wake(mode) => Passed(s'.(mode := mode))
    case Terminate => s'.(phase := Unwinding)
  }

  // ----- Protocol thread

  /** A query to a run that is gone fails at once. */
  function Asked(s: System, id: nat): System {
    if s.link.ended.Some? then s.(answers := s.answers + [(id, None)])
    else s.(link := s.link.(control := s.link.control + [Query(id)]), stage := Awaiting(id))
  }

  /** The blocked query takes whatever event comes next; anything but an answer fails it, and so does
      the end of the run. */
  function Received(s: System): System
    requires s.stage.Awaiting?
  {
    var events := s.link.events;
    var got := if events != [] && events[0].Answer? then Some(events[0].id) else None;
    s.(link := s.link.(events := if events == [] then [] else events[1..]),
       stage := Idle,
       answers := s.answers + [(s.stage.id, got)])
  }

  /** The stage after the protocol thread may have collected the run. */
  function StageOf(p: Proto, stage: Stage): Stage {
    if p.done then Gone else stage
  }

  function AfterFlush(s: System): System {
    var (p, link, acted) := Flushed(s.proto, s.link);
    s.(proto := p, link := link, stage := StageOf(p, s.stage), wakes := s.wakes + |link.control| - |s.link.control|)
  }

  function AfterPump(s: System): System {
    var (p, link, acted) := Pumped(s.proto, s.link);
    s.(proto := p, link := link, stage := StageOf(p, s.stage))
  }

  function AfterBegin(s: System): System {
    var (p, link) := Flagged(s.proto, s.link);
    s.(proto := p, link := link, stage := if s.proto.live then Telling else Gone)
  }

  predicate Enabled(s: System, a: Action) {
    match a
    case EnterHook(_, _, _) => s.phase == Executing
    case EmitOutput => s.phase.Hooked? && 0 < s.phase.outputs
    case ChooseStop => s.phase.Hooked? && s.phase.outputs == 0
    case Announce => s.phase.Announcing?
    case TakeControl => s.phase == Parked && (s.link.control != [] || s.link.hungUp)
    case SendAnswer => s.phase.Answering?
    case EndRun(outcome) =>
      || s.phase == Executing || s.phase == Unwinding
      || (outcome.Panicked? && (s.phase.Hooked? || s.phase.Announcing? || s.phase.Answering?))
    case Launch => s.stage == Unlaunched
    case Ask(_) => s.stage == Idle && s.proto.stoppedAt.Some?
    case ReceiveAnswer => s.stage.Awaiting? && (s.link.events != [] || s.link.ended.Some?)
    case AcceptResume(_) => s.stage == Idle && s.proto.stoppedAt.Some?
    case AcceptPause => s.stage == Idle && s.proto.stoppedAt.None?
    case FlushResume => s.stage == Idle
    case PumpEvent => s.stage == Idle
    case BeginTerminate => s.stage == Idle || s.stage == Unlaunched || s.stage == Gone
    case SendTerminate => s.stage == Telling
    case DrainEvent => s.stage == Draining
    case GiveUp => s.stage == Draining
  }

  function Do(s: System, a: Action): System
    requires Enabled(s, a)
  {
    match a
    case EnterHook(depth, hit, outputs) =>
      s.(phase := if s.link.terminate then Unwinding else Hooked(depth, hit, outputs))
    case EmitOutput => Sent(s, Output, s.phase.(outputs := s.phase.outputs - 1))
    case ChooseStop => Chosen(s)
    case Announce => Sent(s, Stopped(s.phase.info), Parked)
    case TakeControl => if s.link.control != [] then Taken(s) else s.(phase := Unwinding)
    case SendAnswer => Sent(s, Answer(s.phase.id), Parked)
    case EndRun(outcome) => s.(phase := if s.phase.Answering? then Lost else Exited, link := s.link.(ended := Some(outcome)))
    case Launch => s.(phase := Executing, stage := Idle, proto := s.proto.(live := true))
    case Ask(id) => Asked(s, id)
    case ReceiveAnswer => Received(s)
    case AcceptResume(request) => s.(proto := Resumed(s.proto, request))
    case AcceptPause => s.(link := s.link.(pause := true))
    case FlushResume => AfterFlush(s)
    case PumpEvent => AfterPump(s)
    case BeginTerminate => AfterBegin(s)
    case SendTerminate => s.(link := Told(s.link), stage := Draining)
    case DrainEvent => AfterPump(s)
    case GiveUp => s.(proto := Detached(s.proto), link := s.link.(hungUp := true), stage := Gone)
  }

  predicate IsRun(states: seq<System>, actions: seq<Action>) {
    && |states| == |actions| + 1
    && Starts(states[0])
    && forall i {:trigger actions[i]} ::
         0 <= i < |actions| ==> Enabled(states[i], actions[i]) && states[i + 1] == Do(states[i], actions[i])
  }

  // ----- The stop token

  function One(b: bool): nat { if b then 1 else 0 }

  function QueuedStops(events: seq<RunEvent>): nat {
    if events == [] then 0
    else QueuedStops(events[..|events| - 1]) + One(events[|events| - 1].Stopped?)
  }

  function QueuedWakes(control: seq<Control>): nat {
    if control == [] then 0
    else QueuedWakes(control[..|control| - 1]) + One(control[|control| - 1].Wake?)
  }

  predicate IsParked(s: System) { s.phase.Parked? || s.phase.Answering? }

  predicate IsDead(s: System) { s.phase.Exited? || s.phase.Lost? }

  function Tokens(s: System): nat {
    QueuedStops(s.link.events) + One(s.proto.stoppedAt.Some?) + One(s.proto.pendingResume.Some?) + QueuedWakes(s.link.control)
  }

  ghost predicate OnlyOutputs(events: seq<RunEvent>) {
    forall i :: 0 <= i < |events| ==> events[i].Output?
  }

  /** Where the one token of a parked run lies: in the last queued event, at the stop the client
      sees, in the staged resume, or in the control queue. */
  ghost predicate ParkedShape(s: System) {
    var p, control, events := s.proto, s.link.control, s.link.events;
    if events != [] && events[|events| - 1].Stopped? then
      s.stage == Idle && s.phase == Parked && p.stoppedAt.None? && p.pendingResume.None?
      && control == [] && OnlyOutputs(events[..|events| - 1])
    else if p.stoppedAt.Some? then
      p.pendingResume.None? && QueryShape(s)
    else
      s.stage == Idle && s.phase == Parked && events == []
      && if p.pendingResume.Some? then control == [] else |control| == 1 && control[0].Wake?
  }

  /** At a stop both queues are empty but for the one query in flight or its answer. */
  ghost predicate QueryShape(s: System) {
    var control, events := s.link.control, s.link.events;
    match s.stage
    case Awaiting(id) =>
      || (s.phase == Parked && control == [Query(id)] && events == [])
      || (s.phase == Answering(id) && control == [] && events == [])
      || (s.phase == Parked && control == [] && events == [Answer(id)])
    case _ => s.stage == Idle && s.phase == Parked && control == [] && events == []
  }

  /** A run that died at a stop leaves its token behind: at the stop the client still sees, or in the
      staged resume. */
  ghost predicate LostShape(s: System) {
    && s.link.control == [] && s.link.events == []
    && (s.proto.stoppedAt.Some? <==> s.proto.pendingResume.None?)
    && (s.stage == Idle || (s.stage.Awaiting? && s.proto.stoppedAt.Some?))
  }

  /** A run that is not parked holds no token anywhere. */
  ghost predicate FreeShape(s: System) {
    && s.proto.stoppedAt.None? && s.proto.pendingResume.None?
    && s.link.control == [] && OnlyOutputs(s.link.events)
    && s.stage == Idle && s.phase != Unwinding && s.phase != Unborn
  }

  // ----- The client's log

  /** Whether the last stop or resume in the log is a stop. */
  function Open(log: seq<ClientEvent>): bool {
    if log == [] then false
    else match log[|log| - 1]
      case SentStopped(_) => true
      case AcceptedResume(_, _) => false
      case _ => Open(log[..|log| - 1])
  }

  /** Stops and accepted resumes take turns, a stop first. */
  predicate Alternates(log: seq<ClientEvent>) {
    log != [] ==>
      var before, last := log[..|log| - 1], log[|log| - 1];
      && Alternates(before)
      && (last.SentStopped? ==> !Open(before))
      && (last.AcceptedResume? ==> Open(before))
  }

  ghost predicate StillOpen(log: seq<ClientEvent>) {
    forall i :: 0 <= i < |log| ==> !log[i].SentExited? && !log[i].SentTerminated?
  }

  /** The log of a session that ended: one `terminated` at its very end, and at most one `exited`,
      right before it. */
  ghost predicate Closed(log: seq<ClientEvent>) {
    && log != [] && log[|log| - 1].SentTerminated?
    && (StillOpen(log[..|log| - 1]) ||
        (2 <= |log| && log[|log| - 2].SentExited? && StillOpen(log[..|log| - 2])))
  }

  // ----- The invariant

  ghost predicate Conversing(s: System) {
    && s.proto.live && !s.proto.terminating && !s.proto.done && !s.link.terminate && !s.link.hungUp
    && (s.link.ended.Some? <==> IsDead(s))
    && (if IsParked(s) then ParkedShape(s) else if s.phase.Lost? then LostShape(s) else FreeShape(s))
    && (Open(s.proto.log) <==> s.proto.stoppedAt.Some?)
    && StillOpen(s.proto.log) && s.passes == 0
  }

  /** How many more hooks may still return `Ok` once the flag is up. */
  function MayPass(s: System): nat {
    match s.phase
    case Hooked(_, _, _) => 1
    case Announcing(_) => 1
    case Parked => One(s.link.control != [] && s.link.control[0].Wake?)
    case _ => 0
  }

  /** Once teardown has begun the control queue holds at most the resume already sent to a parked
      run, and terminates behind it. */
  ghost predicate TeardownQueue(s: System) {
    && !s.phase.Answering?
    && forall i :: 0 <= i < |s.link.control| ==>
         s.link.control[i].Terminate? || (i == 0 && s.link.control[i].Wake? && s.phase == Parked)
  }

  ghost predicate TearingDown(s: System) {
    && s.proto.live && s.proto.terminating && !s.proto.done && s.link.terminate && !s.link.hungUp
    && s.proto.stoppedAt.None? && s.proto.pendingResume.None?
    && (s.link.ended.Some? <==> IsDead(s))
    && s.passes + MayPass(s) <= 1 && TeardownQueue(s)
    && StillOpen(s.proto.log)
  }

  ghost predicate Ended(s: System) {
    && !s.proto.live && s.proto.done && s.link.hungUp && s.proto.pendingResume.None?
    && (s.link.ended.Some? <==> IsDead(s))
    && (!s.link.terminate ==> IsDead(s))
    && s.passes + MayPass(s) <= 1 && TeardownQueue(s)
    && Closed(s.proto.log)
  }

  ghost predicate NeverLaunched(s: System) {
    && !s.proto.live && s.proto.log == [] && s.link == Link([], [], false, false, None, false)
    && s.phase == Unborn && s.mode == Continue && s.passes == 0
    && s.proto.stoppedAt.None? && s.proto.pendingResume.None? && !s.proto.terminating
    && (s.stage == Unlaunched ==> !s.proto.done)
  }

  /** Each query got its own answer, or failed because the run is gone. */
  ghost predicate AnswersMatch(s: System) {
    forall i :: 0 <= i < |s.answers| ==>
      s.answers[i].1 == Some(s.answers[i].0) || (s.answers[i].1.None? && s.link.ended.Some?)
  }

  ghost predicate Invariant(s: System) {
    && Alternates(s.proto.log) && AnswersMatch(s)
    && match s.stage
       case Unlaunched => NeverLaunched(s)
       case Idle => Conversing(s)
       case Awaiting(_) => Conversing(s) && s.proto.stoppedAt.Some?
       case Telling => TearingDown(s)
       case Draining => TearingDown(s)
       case Gone => NeverLaunched(s) || Ended(s)
  }

  // ----- Each step keeps it

  lemma Appended<T>(queue: seq<T>, x: T)
    ensures (queue + [x])[..|queue|] == queue && (queue + [x])[|queue|] == x
  {
  }

  /** Output, exit and termination entries leave the turn where it was. */
  lemma QuietEntry(log: seq<ClientEvent>, e: ClientEvent)
    requires Alternates(log) && !e.SentStopped? && !e.AcceptedResume?
    ensures Alternates(log + [e]) && Open(log + [e]) == Open(log)
  {
  }

  lemma {:induction false} QuietEntries(log: seq<ClientEvent>, words: seq<ClientEvent>)
    requires Alternates(log)
    requires forall e :: e in words ==> !e.SentStopped? && !e.AcceptedResume?
    ensures Alternates(log + words) && Open(log + words) == Open(log)
    decreases |words|
  {
    if words == [] {
      assert log + words == log;
    } else {
      var front, last := words[..|words| - 1], words[|words| - 1];
      QuietEntries(log, front);
      QuietEntry(log + front, last);
      assert log + words == log + front + [last];
    }
  }

  lemma FarewellClosesTheLog(log: seq<ClientEvent>, code: Option<nat>)
    requires Alternates(log) && StillOpen(log)
    ensures Alternates(log + Farewell(code)) && Closed(log + Farewell(code))
  {
    var log' := log + Farewell(code);
    if code.None? {
      QuietEntry(log, SentTerminated);
      assert log'[..|log'| - 1] == log;
    } else {
      var exited := log + [SentExited(code.value)];
      QuietEntry(log, SentExited(code.value));
      QuietEntry(exited, SentTerminated);
      assert log' == exited + [SentTerminated];
      assert log'[..|log'| - 2] == log;
    }
  }

  /** Collecting an ended run closes the log. */
  lemma FinishingClosesTheLog(log: seq<ClientEvent>, outcome: Outcome)
    requires Alternates(log) && StillOpen(log)
    ensures var log' := log + LastOutput(outcome) + Farewell(ExitCode(outcome)); Alternates(log') && Closed(log')
  {
    QuietEntries(log, LastOutput(outcome));
    FarewellClosesTheLog(log + LastOutput(outcome), ExitCode(outcome));
  }

  lemma EnterHookKeepsInvariant(s: System, a: Action)
    requires Invariant(s) && Enabled(s, a) && a.EnterHook?
    ensures Invariant(Do(s, a))
  {
  }

  lemma EmitOutputKeepsInvariant(s: System, a: Action)
    requires Invariant(s) && Enabled(s, a) && a.EmitOutput?
    ensures Invariant(Do(s, a))
  {
  }

  lemma ChooseStopKeepsInvariant(s: System, a: Action)
    requires Invariant(s) && Enabled(s, a) && a.ChooseStop?
    ensures var good := Invariant(Do(s, a)); good
  {
  }

  lemma AnnounceKeepsInvariant(s: System, a: Action)
    requires Invariant(s) && Enabled(s, a) && a.Announce?
    ensures Invariant(Do(s, a))
  {
  }

  lemma TakeControlKeepsInvariant(s: System, a: Action)
    requires Invariant(s) && Enabled(s, a) && a.TakeControl?
    ensures var good := Invariant(Do(s, a)); good
  {
  }

  lemma SendAnswerKeepsInvariant(s: System, a: Action)
    requires Invariant(s) && Enabled(s, a) && a.SendAnswer?
    ensures Invariant(Do(s, a))
  {
  }

  lemma EndRunKeepsInvariant(s: System, a: Action)
    requires Invariant(s) && Enabled(s, a) && a.EndRun?
    ensures Invariant(Do(s, a))
  {
  }

  lemma LaunchKeepsInvariant(s: System, a: Action)
    requires Invariant(s) && Enabled(s, a) && a.Launch?
    ensures Invariant(Do(s, a))
  {
  }

  lemma AskKeepsInvariant(s: System, a: Action)
    requires Invariant(s) && Enabled(s, a) && a.Ask?
    ensures Invariant(Do(s, a))
  {
  }

  lemma ReceiveAnswerKeepsInvariant(s: System, a: Action)
    requires Invariant(s) && Enabled(s, a) && a.ReceiveAnswer?
    ensures Invariant(Do(s, a))
  {
  }

  lemma AcceptResumeKeepsInvariant(s: System, a: Action)
    requires Invariant(s) && Enabled(s, a) && a.AcceptResume?
    ensures Invariant(Do(s, a))
  {
  }

  lemma AcceptPauseKeepsInvariant(s: System, a: Action)
    requires Invariant(s) && Enabled(s, a) && a.AcceptPause?
    ensures Invariant(Do(s, a))
  {
  }

  lemma FlushedWakeKeepsInvariant(s: System)
    requires Invariant(s) && s.stage == Idle && s.link.ended.None?
    ensures Invariant(AfterFlush(s))
  {
  }

  lemma FlushedToNobodyKeepsInvariant(s: System)
    requires Invariant(s) && s.stage == Idle && s.link.ended.Some?
    ensures Invariant(AfterFlush(s))
  {
    FinishingClosesTheLog(s.proto.log, s.link.ended.value);
  }

  lemma FlushResumeKeepsInvariant(s: System, a: Action)
    requires Invariant(s) && Enabled(s, a) && a.FlushResume?
    ensures var good := Invariant(Do(s, a)); good
  {
    if s.link.ended.Some? {
      FlushedToNobodyKeepsInvariant(s);
    } else {
      FlushedWakeKeepsInvariant(s);
    }
  }

  lemma CollectingClosesTheLog(s: System)
    requires Alternates(s.proto.log) && StillOpen(s.proto.log)
    requires s.proto.live && s.link.events == [] && s.link.ended.Some?
    ensures Alternates(Pumped(s.proto, s.link).0.log) && Closed(Pumped(s.proto, s.link).0.log)
  {
    FinishingClosesTheLog(s.proto.log, s.link.ended.value);
  }

  lemma QuietEventsKeepTheLog(s: System)
    requires Alternates(s.proto.log) && StillOpen(s.proto.log)
    requires s.link.events != [] && !s.link.events[0].Stopped?
    ensures var log := Pumped(s.proto, s.link).0.log;
            Alternates(log) && StillOpen(log) && Open(log) == Open(s.proto.log)
  {
    QuietEntry(s.proto.log, SentOutput);
  }

  lemma PumpedStopKeepsInvariant(s: System)
    requires Invariant(s) && s.stage == Idle && s.link.events != [] && s.link.events[0].Stopped?
    ensures Invariant(AfterPump(s))
  {
  }

  lemma PumpedOutputKeepsInvariant(s: System)
    requires Invariant(s) && s.stage == Idle && s.link.events != [] && !s.link.events[0].Stopped?
    ensures Invariant(AfterPump(s))
  {
    QuietEventsKeepTheLog(s);
    var events, rest := s.link.events, s.link.events[1..];
    if events[|events| - 1].Stopped? {
      assert rest[|rest| - 1] == events[|events| - 1];
      assert rest[..|rest| - 1] == events[..|events| - 1][1..];
    }
  }

  lemma PumpedDryKeepsInvariant(s: System)
    requires Invariant(s) && s.stage == Idle && s.link.events == []
    ensures Invariant(AfterPump(s))
  {
    if s.link.ended.Some? {
      CollectingClosesTheLog(s);
    }
  }

  lemma PumpEventKeepsInvariant(s: System, a: Action)
    requires Invariant(s) && Enabled(s, a) && a.PumpEvent?
    ensures var good := Invariant(Do(s, a)); good
  {
    if s.link.events != [] {
      if s.link.events[0].Stopped? {
        PumpedStopKeepsInvariant(s);
      } else {
        PumpedOutputKeepsInvariant(s);
      }
    } else {
      PumpedDryKeepsInvariant(s);
    }
  }

  /** A stop that arrives during teardown is swallowed; anything else is quiet. */
  lemma DrainedEventKeepsInvariant(s: System)
    requires TearingDown(s) && Alternates(s.proto.log) && s.link.events != []
    ensures var s' := AfterPump(s); TearingDown(s') && Alternates(s'.proto.log) && s'.stage == s.stage
  {
    if !s.link.events[0].Stopped? {
      QuietEventsKeepTheLog(s);
    }
  }

  lemma DrainedDryKeepsInvariant(s: System)
    requires Invariant(s) && s.stage == Draining && s.link.events == []
    ensures Invariant(AfterPump(s))
  {
    if s.link.ended.Some? {
      CollectingClosesTheLog(s);
    }
  }

  lemma DrainEventKeepsInvariant(s: System, a: Action)
    requires Invariant(s) && Enabled(s, a) && a.DrainEvent?
    ensures var good := Invariant(Do(s, a)); good
  {
    if s.link.events == [] {
      DrainedDryKeepsInvariant(s);
    } else {
      DrainedEventKeepsInvariant(s);
      assert AfterPump(s).answers == s.answers;
    }
  }

  lemma BeginTerminateKeepsInvariant(s: System, a: Action)
    requires Invariant(s) && Enabled(s, a) && a.BeginTerminate?
    ensures Invariant(Do(s, a))
  {
  }

  lemma SendTerminateKeepsInvariant(s: System, a: Action)
    requires Invariant(s) && Enabled(s, a) && a.SendTerminate?
    ensures Invariant(Do(s, a))
  {
  }

  lemma GiveUpKeepsInvariant(s: System, a: Action)
    requires Invariant(s) && Enabled(s, a) && a.GiveUp?
    ensures Invariant(Do(s, a))
  {
    FarewellClosesTheLog(s.proto.log, None);
  }

  lemma StepKeepsInvariant(s: System, a: Action)
    requires Invariant(s) && Enabled(s, a)
    ensures var good := Invariant(Do(s, a)); good
  {
    match a
    case EnterHook(_, _, _) => EnterHookKeepsInvariant(s, a);
    case EmitOutput => EmitOutputKeepsInvariant(s, a);
    case ChooseStop => ChooseStopKeepsInvariant(s, a);
    case Announce => AnnounceKeepsInvariant(s, a);
    case TakeControl => TakeControlKeepsInvariant(s, a);
    case SendAnswer => SendAnswerKeepsInvariant(s, a);
    case EndRun(_) => EndRunKeepsInvariant(s, a);
    case Launch => LaunchKeepsInvariant(s, a);
    case Ask(_) => AskKeepsInvariant(s, a);
    case ReceiveAnswer => ReceiveAnswerKeepsInvariant(s, a);
    case AcceptResume(_) => AcceptResumeKeepsInvariant(s, a);
    case AcceptPause => AcceptPauseKeepsInvariant(s, a);
    case FlushResume => FlushResumeKeepsInvariant(s, a);
    case PumpEvent => PumpEventKeepsInvariant(s, a);
    case BeginTerminate => BeginTerminateKeepsInvariant(s, a);
    case SendTerminate => SendTerminateKeepsInvariant(s, a);
    case DrainEvent => DrainEventKeepsInvariant(s, a);
    case GiveUp => GiveUpKeepsInvariant(s, a);
  }

  lemma {:induction false} EveryReachableStateIsGood(states: seq<System>, actions: seq<Action>, n: nat)
    requires IsRun(states, actions) && n < |states|
    ensures var good := Invariant(states[n]); good
  {
    if n > 0 {
      EveryReachableStateIsGood(states, actions, n - 1);
      StepKeepsInvariant(states[n - 1], actions[n - 1]);
    }
  }
}
