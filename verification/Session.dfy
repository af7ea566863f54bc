/** The two sides of a debug session: the protocol thread's run control and the run thread's stop
    decision, each as an object over what it owns and the channels and flags both share. */
module Session {
  import opened Prelude
  import opened Step

  datatype StopInfo = StopInfo(reason: StopReason, depth: nat)

  datatype Control = Query(id: nat) | Wake(mode: Resume) | Terminate

  datatype RunEvent = Stopped(info: StopInfo) | Output | Answer(id: nat)

  /** How a run thread ended: a clean end or a debugger terminate, a runtime fault, a panic, or
      without an outcome to report; and whether it printed or returned something to show. */
  datatype Outcome = Clean(printed: bool, value: bool) | Fault(printed: bool) | Panicked | Unreported

  const EXIT_FAULT := 1
  const RUN_PANIC_EXIT_CODE := 101

  /** What the client may ask of a stopped run; a pause may be asked of a running one as well. */
  datatype Request = ToContinue | Next | StepIn | StepOut | ToPause

  /** What the client sees, and the moments it had a continue, step or pause accepted at a stop, with the
      depth of that stop. */
  datatype ClientEvent =
    | SentStopped(info: StopInfo)
    | AcceptedResume(request: Request, depth: nat)
    | SentOutput
    | SentExited(code: nat)
    | SentTerminated

  /** The channels and flags between the two threads. `ended` once the run thread has dropped its
      channel ends; `hungUp` once the protocol thread has. */
  datatype Link = Link(
    control: seq<Control>, events: seq<RunEvent>, terminate: bool, pause: bool,
    ended: Option<Outcome>, hungUp: bool)

  /** The protocol thread's run-control fields; `live` while it holds a run. */
  datatype Proto = Proto(
    live: bool, stoppedAt: Option<StopInfo>, pendingResume: Option<Resume>, terminating: bool,
    done: bool, log: seq<ClientEvent>)

  // ----- Protocol thread

  /** The mode a request made at a stop of this depth resumes in. */
  function ModeFor(request: Request, depth: nat): Resume {
    match request
    case ToContinue => Continue
    case Next => Over(depth)
    case StepIn => Into
    case StepOut => Out(depth)
    case ToPause => Pause
  }

  /** A resume is accepted only at a stop; it is staged, not sent. */
  function Resumed(p: Proto, request: Request): Proto {
    if !p.live || p.stoppedAt.None? then p
    else
      var depth := p.stoppedAt.value.depth;
      p.(stoppedAt := None, pendingResume := Some(ModeFor(request, depth)), log := p.log + [AcceptedResume(request, depth)])
  }

  /** One event from the run thread: a stop is announced unless the run is being torn down. */
  function Handled(p: Proto, event: RunEvent): Proto {
    match event
    case Stopped(info) =>
      if p.terminating then p
      else p.(stoppedAt := Some(info), log := p.log + [SentStopped(info)])
    case Output => p.(log := p.log + [SentOutput])
    case Answer(_) => p
  }

  function Shown(anything: bool): seq<ClientEvent> {
    if anything then [SentOutput] else []
  }

  /** What a collected run still has to show: what it printed, and its value or error. */
  function LastOutput(outcome: Outcome): seq<ClientEvent> {
    match outcome
    case Clean(printed, value) => Shown(printed) + Shown(value)
    case Fault(printed) => Shown(printed) + [SentOutput]
    case Panicked => [SentOutput]
    case Unreported => []
  }

  function ExitCode(outcome: Outcome): Option<nat> {
    match outcome
    case Clean(_, _) => Some(0)
    case Fault(_) => Some(EXIT_FAULT)
    case Panicked => Some(RUN_PANIC_EXIT_CODE)
    case Unreported => None
  }

  /** Its exit code, if it has one, and the end. */
  function Farewell(code: Option<nat>): seq<ClientEvent> {
    Exit(code) + [SentTerminated]
  }

  function Exit(code: Option<nat>): seq<ClientEvent> {
    if code.Some? then [SentExited(code.value)] else []
  }

  /** Collect an ended run: its output and exit, then the end of the session. */
  function Finished(p: Proto, outcome: Outcome): Proto {
    Proto(false, None, None, false, true, if p.live then p.log + LastOutput(outcome) + Farewell(ExitCode(outcome)) else p.log)
  }

  function Detached(p: Proto): Proto {
    Proto(false, None, None, false, true, if p.live then p.log + Farewell(None) else p.log)
  }

  /** Send the staged resume, if there is one and the run is not being torn down. */
  function Flushed(p: Proto, link: Link): (Proto, Link, bool) {
    if !p.live || p.pendingResume.None? then (p, link, false)
    else if p.terminating then (p.(pendingResume := None), link, false)
    else if link.ended.Some? then (Finished(p, link.ended.value), link.(hungUp := true), true)
    else (p.(pendingResume := None), link.(control := link.control + [Wake(p.pendingResume.value)]), true)
  }

  /** Take one event without blocking, or collect the run once it has ended and the queue is dry. */
  function Pumped(p: Proto, link: Link): (Proto, Link, bool) {
    if !p.live then (p, link, false)
    else if link.events != [] then (Handled(p, link.events[0]), link.(events := link.events[1..]), true)
    else if link.ended.Some? then (Finished(p, link.ended.value), link.(hungUp := true), true)
    else (p, link, false)
  }

  /** Raise the flag and forget the stop and any staged resume. */
  function Flagged(p: Proto, link: Link): (Proto, Link) {
    if p.live then (p.(stoppedAt := None, pendingResume := None, terminating := true), link.(terminate := true))
    else (p.(done := true), link)
  }

  /** The terminate message reaches the queue unless the run thread is gone. */
  function Told(link: Link): Link {
    if link.ended.Some? then link else link.(control := link.control + [Terminate])
  }

  // ----- Run thread

  /** Which stop, if any, the hook takes: the entry stop, then a pause, then the step mode, then a
      breakpoint. */
  function HookReason(entry: bool, pause: bool, mode: Resume, depth: nat, hit: bool): Option<StopReason> {
    if entry then Some(Entry)
    else if pause then Some(Paused)
    else if Decide(mode, depth).Some? then Decide(mode, depth)
    else if hit then Some(Breakpoint)
    else None
  }

  // ----- The objects

  /** The shared end points. */
  class Wire {
    var control: seq<Control>
    var events: seq<RunEvent>
    var terminate: bool
    var pause: bool
    var ended: Option<Outcome>
    var hungUp: bool

    ghost function View(): Link
      reads this
    {
      Link(control, events, terminate, pause, ended, hungUp)
    }

    constructor ()
      ensures View() == Link([], [], false, false, None, false)
    {
      control, events, terminate, pause, ended, hungUp := [], [], false, false, None, false;
    }
  }

  class Session {
    const wire: Wire
    var live: bool
    var stoppedAt: Option<StopInfo>
    var pendingResume: Option<Resume>
    var terminating: bool
    var done: bool
    var log: seq<ClientEvent>

    ghost function View(): Proto
      reads this
    {
      Proto(live, stoppedAt, pendingResume, terminating, done, log)
    }

    /** The session just after `configurationDone` handed it a run. */
    constructor (wire: Wire)
      ensures View() == Proto(true, None, None, false, false, []) && this.wire == wire
    {
      this.wire := wire;
      live, stoppedAt, pendingResume, terminating, done, log := true, None, None, false, false, [];
    }

    method Emit(event: ClientEvent)
      modifies this
      ensures View() == old(View()).(log := old(log) + [event])
    {
      log := log + [event];
    }

    /** `continue`: refused unless the run is stopped. */
    method OnContinue() returns (accepted: bool)
      modifies this
      ensures View() == Resumed(old(View()), ToContinue) && accepted == (old(live) && old(stoppedAt).Some?)
    {
      accepted := live && stoppedAt.Some?;
      if accepted {
        Emit(AcceptedResume(ToContinue, stoppedAt.value.depth));
        ResumeRun(Continue);
      }
    }

    /** `next`, `stepIn` and `stepOut`: relative to the depth of the stop. */
    method OnStep(kind: Request) returns (accepted: bool)
      requires kind.Next? || kind.StepIn? || kind.StepOut?
      modifies this
      ensures View() == Resumed(old(View()), kind) && accepted == (old(live) && old(stoppedAt).Some?)
    {
      if !live || stoppedAt.None? {
        return false;
      }
      var depth := stoppedAt.value.depth;
      var mode := if kind.Next? then Over(depth) else if kind.StepIn? then Into else Out(depth);
      Emit(AcceptedResume(kind, depth));
      ResumeRun(mode);
      accepted := true;
    }

    /** `pause`: a stopped run is resumed to its next statement, a running one is flagged. */
    method OnPause() returns (accepted: bool)
      modifies this, wire
      ensures View() == Resumed(old(View()), ToPause) && accepted == old(live)
      ensures wire.View() == old(wire.View()).(pause := old(wire.pause) || (old(live) && old(stoppedAt).None?))
    {
      if !live {
        return false;
      }
      if stoppedAt.Some? {
        Emit(AcceptedResume(ToPause, stoppedAt.value.depth));
        ResumeRun(Pause);
      } else {
        wire.pause := true;
      }
      accepted := true;
    }

    /** Stage a resume and forget the stop. */
    method ResumeRun(mode: Resume)
      modifies this
      ensures View() == if old(live) then old(View()).(stoppedAt := None, pendingResume := Some(mode)) else old(View())
    {
      if live {
        stoppedAt := None;
        pendingResume := Some(mode);
      }
    }

    method FlushResume() returns (acted: bool)
      modifies this, wire
      ensures (View(), wire.View(), acted) == Flushed(old(View()), old(wire.View()))
    {
      if live && terminating {
        pendingResume := None;
        return false;
      }
      if !live || pendingResume.None? {
        return false;
      }
      var mode := pendingResume.value;
      pendingResume := None;
      if wire.ended.Some? {
        FinishRun();
      } else {
        wire.control := wire.control + [Wake(mode)];
      }
      acted := true;
    }

    method PumpRunEvent() returns (acted: bool)
      modifies this, wire
      ensures (View(), wire.View(), acted) == Pumped(old(View()), old(wire.View()))
    {
      if !live {
        return false;
      }
      if wire.events != [] {
        var event := wire.events[0];
        wire.events := wire.events[1..];
        HandleRunEvent(event);
        return true;
      }
      if wire.ended.Some? {
        FinishRun();
        return true;
      }
      acted := false;
    }

    method HandleRunEvent(event: RunEvent)
      modifies this
      ensures View() == Handled(old(View()), event)
    {
      match event
      case Stopped(info) =>
        if terminating {
          return;
        }
        stoppedAt := Some(info);
        Emit(SentStopped(info));
      case Output => Emit(SentOutput);
      case Answer(_) =>
    }

    method FinishRun()
      requires wire.ended.Some?
      modifies this, wire
      ensures View() == Finished(old(View()), old(wire.ended).value)
      ensures wire.View() == old(wire.View()).(hungUp := old(live) || old(wire.hungUp))
    {
      if live {
        TakeRun();
        EmitOutcome(wire.ended.value);
        Emit(SentTerminated);
      } else {
        stoppedAt, pendingResume, terminating := None, None, false;
      }
      done := true;
    }

    method EmitOutput(anything: bool)
      modifies this
      ensures View() == old(View()).(log := old(log) + Shown(anything))
    {
      if anything {
        Emit(SentOutput);
      }
    }

    method EmitOutcome(outcome: Outcome)
      modifies this
      ensures View() == old(View()).(log := old(log) + LastOutput(outcome) + Exit(ExitCode(outcome)))
    {
      match outcome {
        case Clean(printed, value) =>
          EmitOutput(printed);
          EmitOutput(value);
          Emit(SentExited(0));
        case Fault(printed) =>
          EmitOutput(printed);
          Emit(SentOutput);
          Emit(SentExited(EXIT_FAULT));
        case Panicked =>
          Emit(SentOutput);
          Emit(SentExited(RUN_PANIC_EXIT_CODE));
        case Unreported =>
      }
    }

    method DetachRun()
      modifies this, wire
      ensures View() == Detached(old(View()))
      ensures wire.View() == old(wire.View()).(hungUp := old(live) || old(wire.hungUp))
    {
      if live {
        TakeRun();
        Emit(SentTerminated);
      } else {
        stoppedAt, pendingResume, terminating := None, None, false;
      }
      done := true;
    }

    /** Let go of the run, and with it of this side's channel ends. */
    method TakeRun()
      modifies this, wire
      ensures View() == Proto(false, None, None, false, old(done), old(log))
      ensures wire.View() == old(wire.View()).(hungUp := true)
    {
      live, stoppedAt, pendingResume, terminating := false, None, None, false;
      wire.hungUp := true;
    }

    method RaiseTerminate()
      modifies this, wire
      ensures (View(), wire.View()) == Flagged(old(View()), old(wire.View()))
    {
      if live {
        wire.terminate := true;
        stoppedAt := None;
        pendingResume := None;
        terminating := true;
      } else {
        done := true;
      }
    }
  }

  class Debugger {
    const wire: Wire
    const stopOnEntry: bool
    var mode: Resume
    var entered: bool

    constructor (wire: Wire, stopOnEntry: bool)
      ensures mode == Continue && !entered && this.wire == wire && this.stopOnEntry == stopOnEntry
    {
      this.wire, this.stopOnEntry := wire, stopOnEntry;
      mode, entered := Continue, false;
    }

    method IsEntryStop() returns (entry: bool)
      modifies this
      ensures entry == (stopOnEntry && !old(entered))
      ensures entered == (old(entered) || entry) && mode == old(mode)
    {
      if stopOnEntry && !entered {
        entered := true;
        return true;
      }
      entry := false;
    }

    /** The decision at one statement; whichever stop is taken for an entry or a pause lowers the
        pause flag. */
    method ChooseStop(depth: nat, hit: bool) returns (reason: Option<StopReason>)
      modifies this, wire
      ensures reason == HookReason(stopOnEntry && !old(entered), old(wire.pause), mode, depth, hit)
      ensures wire.View() == old(wire.View()).(pause := false)
      ensures entered == (old(entered) || stopOnEntry) && mode == old(mode)
    {
      var entry := IsEntryStop();
      if entry {
        wire.pause := false;
        return Some(Entry);
      }
      if wire.pause {
        wire.pause := false;
        return Some(Paused);
      }
      reason := Decide(mode, depth);
      if reason.None? && hit {
        reason := Some(Breakpoint);
      }
    }

    /** The run consults the hook at each statement until it stops: with the entry stop behind it, no
        pause and no breakpoint, it stops where the statement trace says. */
    method RunToStop(trace: seq<Visit>, from: nat) returns (stop: Option<nat>)
      requires from <= |trace| && !wire.pause && (stopOnEntry ==> entered)
      modifies this, wire
      ensures stop == NextStop(trace, from, mode)
      ensures wire.View() == old(wire.View()) && mode == old(mode) && entered == old(entered)
    {
      for i := from to |trace|
        invariant NextStop(trace, from, mode) == NextStop(trace, i, mode)
        invariant wire.View() == old(wire.View()) && mode == old(mode) && entered == old(entered)
      {
        var reason := ChooseStop(trace[i].depth, false);
        if reason.Some? {
          return Some(i);
        }
      }
      stop := None;
    }
  }
}
