/** What a batch of watched-file changes does, and that none of it is lost.

    An `ensures` that names its one claim in a `var` first is proved whole and not conjunct by
    conjunct. */
module ServerWatching {
  import opened Prelude
  import opened Paths
  import W = Workspace
  import T = Diagnostics
  import opened Server
  import opened ServerInvariant
  import opened ServerTheorems
  import opened ServerProgress

  // ----- The open files a batch goes by

  function OpenOf(task: Task): Option<set<Url>> {
    match task
    case Watching(_, open) => Some(open)
    case Marking(_, open) => Some(open)
    case WantEffects(open, _) => Some(open)
    case Affecting(open, _) => Some(open)
    case _ => None
  }

  ghost predicate Captures(s: State, tid: Tid, open: set<Url>) {
    && tid in s.tasks && s.tasks[tid].Versioning?
    && forall url :: url in open <==> url.FileUrl? && url in s.data.store.documents
  }

  ghost predicate Carries(s: State, tid: Tid, open: set<Url>) {
    tid in s.tasks && OpenOf(s.tasks[tid]) == Some(open)
  }

  /** A task that goes by `open` has just captured it or did so before. */
  ghost predicate CarriesOn(s: State, s': State, tid: Tid, open: set<Url>) {
    Carries(s', tid, open) ==> Captures(s, tid, open) || Carries(s, tid, open)
  }

  lemma LookingCarriesOn(task: Task, d: Data, c: Choice, analysisFree: bool)
    requires IsWatch(task)
    ensures var o := WatchStep(task, d, c, analysisFree);
            && (o.next.Some? && OpenOf(o.next.value).Some? && !task.Versioning? ==> OpenOf(task) == OpenOf(o.next.value))
            && (o.next.Some? && OpenOf(o.next.value).Some? && task.Versioning? ==>
                  forall url :: url in OpenOf(o.next.value).value <==> url.FileUrl? && url in d.store.documents)
            && (o.spawned.Some? ==> OpenOf(o.spawned.value).None?)
  {
  }

  predicate CarryNone(o: Outcome) {
    (o.next.Some? ==> OpenOf(o.next.value).None?) && (o.spawned.Some? ==> OpenOf(o.spawned.value).None?)
  }

  lemma EditsCarryNone(task: Task, d: Data, analysisFree: bool)
    ensures CarryNone(EditStep(task, d, analysisFree))
  {
  }

  lemma ReadsCarryNone(task: Task, d: Data, c: Choice, analysisFree: bool)
    ensures CarryNone(ReadStep(task, d, c, analysisFree))
  {
  }

  lemma NewRunsCarryNone(task: Task, d: Data, c: Choice)
    requires BeforeCommit(task)
    ensures CarryNone(RecomputeStep(task, d, c))
  {
  }

  lemma RecomputesCarryNone(task: Task, d: Data, c: Choice)
    ensures CarryNone(RecomputeStep(task, d, c))
  {
    if BeforeCommit(task) {
      NewRunsCarryNone(task, d, c);
    } else {
      RunsCarryNone(task, d, c);
    }
  }

  lemma RunsCarryNone(task: Task, d: Data, c: Choice)
    requires !BeforeCommit(task)
    ensures CarryNone(RecomputeStep(task, d, c))
  {
  }

  lemma OthersCarryNone(task: Task, d: Data, c: Choice, analysisFree: bool)
    requires !IsWatch(task)
    ensures var none := CarryNone(Body(task, d, c, analysisFree)); none
  {
    EditsCarryNone(task, d, analysisFree);
    ReadsCarryNone(task, d, c, analysisFree);
    RecomputesCarryNone(task, d, c);
  }

  lemma GrantCarriesOn(task: Task)
    requires Wants(task).Some?
    ensures OpenOf(Granted(task)) == OpenOf(task)
  {
  }

  lemma OutcomeCarriesOn(s: State, tid: Tid, c: Choice, open: set<Url>)
    requires tid in s.tasks
    ensures var o := OutcomeAt(s, tid, c);
            && (o.next.Some? && OpenOf(o.next.value) == Some(open) ==> Captures(s, tid, open) || Carries(s, tid, open))
            && (o.spawned.Some? ==> OpenOf(o.spawned.value).None?)
  {
    var task := s.tasks[tid];
    if Wants(task).Some? {
      GrantCarriesOn(task);
    } else if IsWatch(task) {
      LookingCarriesOn(task, s.data, c, Analysis !in s.locks);
    } else {
      OthersCarryNone(task, s.data, c, Analysis !in s.locks);
    }
  }

  lemma MoveCarriesOn(s: State, s': State, mover: Tid, o: Outcome, child: Tid, tid: Tid, open: set<Url>)
    requires mover in s.tasks && s'.tasks == NewTasks(s.tasks, mover, o, child)
    requires o.next.Some? && OpenOf(o.next.value) == Some(open) ==> Captures(s, mover, open) || Carries(s, mover, open)
    requires o.spawned.Some? ==> OpenOf(o.spawned.value).None?
    ensures CarriesOn(s, s', tid, open)
  {
  }

  lemma StepCarriesOn(s: State, a: Action, tid: Tid, open: set<Url>)
    requires Enabled(s, a)
    ensures var carries := CarriesOn(s, Do(s, a), tid, open); carries
  {
    match a
    case Arrive(_, _) =>
    case Act(mover, c, child) =>
      OutcomeCarriesOn(s, mover, c, open);
      MoveCarriesOn(s, Do(s, a), mover, OutcomeAt(s, mover, c), child, tid, open);
  }

  /** The files a batch takes for open are those open at the step at which it looked. */
  lemma {:induction false} OpenWasCaptured(states: seq<State>, actions: seq<Action>, n: nat, tid: Tid) returns (k: nat)
    requires IsRun(states, actions) && n < |states| && tid in states[n].tasks && OpenOf(states[n].tasks[tid]).Some?
    ensures k < n && Captures(states[k], tid, OpenOf(states[n].tasks[tid]).value)
  {
    assert n > 0;
    var open := OpenOf(states[n].tasks[tid]).value;
    StepCarriesOn(states[n - 1], actions[n - 1], tid, open);
    assert CarriesOn(states[n - 1], states[n], tid, open);
    if Captures(states[n - 1], tid, open) {
      k := n - 1;
    } else {
      k := OpenWasCaptured(states, actions, n - 1, tid);
    }
  }

  // ----- One batch

  /** Which recomputes a batch asks for, read off its events and the epochs it leaves. */
  ghost predicate Due(s: T.Scheduled, events: seq<T.Event>, after: T.Tracker, locked: bool) {
    && T.PathOf(events, s.root, s.path)
    && s.epoch == T.At(after, s.root).epoch
    && (!locked || !T.Unconfigured(events, s.root))
  }

  /** Whether a root keeps tracking a URL it tracks: not when its configuration is deleted, nor when the
      file is and no buffer holds it open. */
  ghost predicate Keeps(events: seq<T.Event>, open: set<Url>, root: Path, url: Url) {
    !T.Unconfigured(events, root) && (url in open || !T.Deletes(events, root, url))
  }

  ghost predicate Tracks(tracker: T.Tracker, root: Path, url: Url) {
    url in T.At(tracker, root).nonEmpty
  }

  /** Every root named gets the next epoch; URLs are dropped with their configuration, or with their file
      unless a buffer holds it open, and exactly those are cleared; exactly the recomputes due are
      scheduled. */
  lemma BatchHasItsEffects(d: Data, events: seq<T.Event>, open: set<Url>, locked: bool)
    requires !locked || events != []
    ensures var o := AffectStep(d, events, open, locked);
      && o.next.Some? && o.next.value.Clearing?
      && (forall root :: T.At(o.data.tracker, root).epoch == T.At(d.tracker, root).epoch + if T.Named(events, root) then 1 else 0)
      && (forall root, url :: Tracks(o.data.tracker, root, url) <==> Tracks(d.tracker, root, url) && Keeps(events, open, root, url))
      && (forall url :: url in o.next.value.clears <==>
            exists root :: Tracks(d.tracker, root, url) && !Tracks(o.data.tracker, root, url))
      && (forall s :: s in o.next.value.schedules <==> Due(s, events, o.data.tracker, locked))
  {
    var o := AffectStep(d, events, open, locked);
    assert o.data.tracker == T.TrackerAfter(d.tracker, T.PendingOf(events), open);
    forall root
      ensures T.At(o.data.tracker, root).epoch == T.At(d.tracker, root).epoch + if T.Named(events, root) then 1 else 0
    {
      T.BatchEpochs(d.tracker, events, open, root);
    }
    forall root, url
      ensures Tracks(o.data.tracker, root, url) <==> Tracks(d.tracker, root, url) && Keeps(events, open, root, url)
    {
      T.BatchTracks(d.tracker, events, open, root, url);
    }
    forall url
      ensures url in o.next.value.clears <==> exists root :: Tracks(d.tracker, root, url) && !Tracks(o.data.tracker, root, url)
    {
      T.BatchClears(d.tracker, events, open, url);
      if root :| url in T.At(d.tracker, root).nonEmpty && url !in T.At(o.data.tracker, root).nonEmpty {
        assert Tracks(d.tracker, root, url) && !Tracks(o.data.tracker, root, url);
      }
    }
    forall s
      ensures s in o.next.value.schedules <==> Due(s, events, o.data.tracker, locked)
    {
      T.BatchSchedulesIff(d.tracker, events, open, if locked then T.DrainSkips else T.DrainSchedules, s);
    }
  }

  /** With the workspace busy every event leaves its bit pending; with it in hand, events on its own root
      invalidate it at once, the project if any is on the configuration. */
  lemma BatchInvalidatesNow(d: Data, events: seq<T.Event>, open: set<Url>, locked: bool)
    requires !locked || events != []
    ensures var d' := AffectStep(d, events, open, locked).data;
      if !locked then
        && d'.ws == d.ws
        && (d'.pending.project <==> d.pending.project || exists i :: 0 <= i < |events| && events[i].ConfigChanged?)
        && (d'.pending.analysis <==> d.pending.analysis || exists i :: 0 <= i < |events| && events[i].FileChanged?)
      else
        && d'.pending == d.pending
        && d'.ws ==
             if d.ws.project.Some? && exists i :: 0 <= i < |events| && T.ConfigOf(events[i], d.ws.project.value.root)
             then W.InvalidateProject(d.ws)
             else if d.ws.project.Some? && exists i :: 0 <= i < |events| && T.FileOf(events[i], d.ws.project.value.root)
             then W.InvalidateAnalysis(d.ws)
             else d.ws
  {
    T.BusyBatchInvalidates(events);
    T.BatchInvalidates(events, if d.ws.project.Some? then Some(d.ws.project.value.root) else None);
  }

  // ----- No invalidation is outlived

  /** Pending bits are only ever taken by a step that applies them. */
  ghost predicate Applies(d: Data, d': Data) {
    d.pending != W.NO_BITS ==> d'.pending != W.NO_BITS || d.ws.epoch < d'.ws.epoch
  }

  lemma UncommittedApplies(task: Task, d: Data, c: Choice)
    requires BeforeCommit(task)
    ensures Applies(d, RecomputeStep(task, d, c).data)
  {
  }

  lemma InstallingApplies(task: Task, d: Data, c: Choice)
    requires task.Committing? || task.Rechecking? || task.Matching?
    ensures Applies(d, RecomputeStep(task, d, c).data)
  {
  }

  lemma TellingApplies(task: Task, d: Data, c: Choice)
    requires !BeforeCommit(task) && !task.Committing? && !task.Rechecking? && !task.Matching?
    ensures Applies(d, RecomputeStep(task, d, c).data)
  {
  }

  lemma EditingApplies(task: Task, d: Data, analysisFree: bool)
    ensures Applies(d, EditStep(task, d, analysisFree).data)
  {
  }

  lemma LookingApplies(task: Task, d: Data, c: Choice, analysisFree: bool)
    requires !task.Affecting?
    ensures Applies(d, WatchStep(task, d, c, analysisFree).data)
  {
  }

  lemma AffectingApplies(d: Data, events: seq<T.Event>, open: set<Url>, locked: bool)
    ensures Applies(d, AffectStep(d, events, open, locked).data)
  {
  }

  lemma ReadingApplies(task: Task, d: Data, c: Choice, analysisFree: bool)
    ensures Applies(d, ReadStep(task, d, c, analysisFree).data)
  {
  }

  lemma OutcomeApplies(s: State, tid: Tid, c: Choice)
    requires tid in s.tasks
    ensures Applies(s.data, OutcomeAt(s, tid, c).data)
  {
    var task, d, free := s.tasks[tid], s.data, Analysis !in s.locks;
    if Wants(task).None? {
      if IsEdit(task) {
        EditingApplies(task, d, free);
      } else if task.Affecting? {
        AffectingApplies(d, c.events, task.open, task.locked);
      } else if IsWatch(task) {
        LookingApplies(task, d, c, free);
      } else if IsRead(task) {
        ReadingApplies(task, d, c, free);
      } else {
        RecomputeApplies(task, d, c);
      }
    }
  }

  lemma RecomputeApplies(task: Task, d: Data, c: Choice)
    ensures Applies(d, RecomputeStep(task, d, c).data)
  {
    if BeforeCommit(task) {
      UncommittedApplies(task, d, c);
    } else if task.Committing? || task.Rechecking? || task.Matching? {
      InstallingApplies(task, d, c);
    } else {
      TellingApplies(task, d, c);
    }
  }

  /** And the epoch never falls back. */
  ghost predicate AppliesOnly(s: State, s': State) {
    Applies(s.data, s'.data) && s.data.ws.epoch <= s'.data.ws.epoch
  }

  lemma StepApplies(states: seq<State>, actions: seq<Action>, k: nat)
    requires IsRun(states, actions) && k < |actions|
    ensures var applies := AppliesOnly(states[k], states[k + 1]); applies
  {
    EveryReachableStateIsGood(states, actions, k);
    StepGrows(states[k], actions[k]);
    if actions[k].Act? {
      OutcomeApplies(states[k], actions[k].tid, actions[k].choice);
    }
  }

  lemma {:induction false} PendingIsApplied(states: seq<State>, j: nat, n: nat)
    requires j <= n < |states| && states[j].data.pending != W.NO_BITS && states[n].data.pending == W.NO_BITS
    requires forall k :: j < k <= n ==> AppliesOnly(states[k - 1], states[k])
    ensures states[j].data.ws.epoch < states[n].data.ws.epoch
    decreases n - j
  {
    assert j < n;
    var next := states[j + 1];
    assert AppliesOnly(states[j + 1 - 1], next);
    if next.data.pending != W.NO_BITS {
      PendingIsApplied(states, j + 1, n);
    } else {
      EpochOnlyGrows(states, j + 1, n);
    }
  }

  lemma {:induction false} EpochOnlyGrows(states: seq<State>, j: nat, n: nat)
    requires j <= n < |states|
    requires forall k :: j < k <= n ==> AppliesOnly(states[k - 1], states[k])
    ensures states[j].data.ws.epoch <= states[n].data.ws.epoch
    decreases n
  {
    if j < n {
      EpochOnlyGrows(states, j, n - 1);
      assert AppliesOnly(states[n - 1], states[n]);
    }
  }

  /** This step leaves an invalidation pending, or applies one. */
  predicate InvalidatesAt(states: seq<State>, k: nat) {
    k + 1 < |states| &&
    (states[k + 1].data.pending != W.NO_BITS || states[k].data.ws.epoch < states[k + 1].data.ws.epoch)
  }

  lemma RunApplies(states: seq<State>, actions: seq<Action>, j: nat, n: nat)
    requires IsRun(states, actions) && j <= n < |states|
    ensures forall k :: j < k <= n ==> AppliesOnly(states[k - 1], states[k])
  {
    forall k | j < k <= n
      ensures AppliesOnly(states[k - 1], states[k])
    {
      StepApplies(states, actions, k - 1);
    }
  }

  lemma EpochMoves(states: seq<State>, k: nat, n: nat)
    requires k < n < |states| && InvalidatesAt(states, k) && states[n].data.pending == W.NO_BITS
    requires forall j :: k < j <= n ==> AppliesOnly(states[j - 1], states[j])
    ensures states[k].data.ws.epoch < states[n].data.ws.epoch
  {
    assert AppliesOnly(states[k + 1 - 1], states[k + 1]);
    if states[k + 1].data.pending != W.NO_BITS {
      PendingIsApplied(states, k + 1, n);
    } else {
      EpochOnlyGrows(states, k + 1, n);
    }
  }

  /** Whatever is published after an invalidation was prepared after it. */
  lemma NothingOutlivesAnInvalidation(states: seq<State>, actions: seq<Action>, k: nat, n: nat, tid: Tid) returns (i: nat)
    requires IsRun(states, actions) && k < n < |states| && InvalidatesAt(states, k)
    requires tid in states[n].tasks && states[n].tasks[tid].Sending?
    ensures k < i <= n && PreparesNow(states[i - 1], states[i], tid, states[n].tasks[tid].publication.snapshot.inputs)
  {
    i := PublishedDiagnosticsAreOfThePresent(states, actions, n, tid);
    RunApplies(states, actions, k, n);
    EpochMoves(states, k, n);
  }

  /** A batch with the workspace busy, or with an event on the workspace's own root. */
  predicate Concerns(d: Data, events: seq<T.Event>, locked: bool) {
    exists i :: 0 <= i < |events| && (locked ==> d.ws.project.Some? && events[i].root == d.ws.project.value.root)
  }

  lemma BatchInvalidatesAt(states: seq<State>, actions: seq<Action>, k: nat, tid: Tid)
    requires IsRun(states, actions) && k < |actions| && actions[k].Act? && actions[k].tid == tid
    requires tid in states[k].tasks && states[k].tasks[tid].Affecting?
    requires Concerns(states[k].data, actions[k].choice.events, states[k].tasks[tid].locked)
    ensures InvalidatesAt(states, k)
  {
    BatchLeavesItsMark(states[k].data, actions[k].choice.events, states[k].tasks[tid].open, states[k].tasks[tid].locked);
    AffectingRuns(states[k], actions[k]);
  }

  lemma AffectingRuns(s: State, a: Action)
    requires Enabled(s, a) && a.Act? && s.tasks[a.tid].Affecting?
    ensures Do(s, a).data == AffectStep(s.data, a.choice.events, s.tasks[a.tid].open, s.tasks[a.tid].locked).data
  {
  }

  lemma BatchLeavesItsMark(d: Data, events: seq<T.Event>, open: set<Url>, locked: bool)
    requires Concerns(d, events, locked)
    ensures var d' := AffectStep(d, events, open, locked).data; d'.pending != W.NO_BITS || d.ws.epoch < d'.ws.epoch
  {
    BatchInvalidatesNow(d, events, open, locked);
    var i :| 0 <= i < |events| && (locked ==> d.ws.project.Some? && events[i].root == d.ws.project.value.root);
    if locked {
      assert T.ConfigOf(events[i], d.ws.project.value.root) || T.FileOf(events[i], d.ws.project.value.root);
    } else {
      assert events[i].ConfigChanged? || events[i].FileChanged?;
    }
  }

  /** Before it looks at its events a batch takes what is pending, if the workspace is free; with it busy
      it leaves its own bits pending, and does so again once the holder may have taken them. */
  lemma LookingMarks(s: State, a: Action)
    requires Enabled(s, a) && a.Act? && (s.tasks[a.tid].Watching? || s.tasks[a.tid].Marking?)
    ensures var (d, d') := (s.data, Do(s, a).data);
      if s.tasks[a.tid].Watching? && Analysis !in s.locks then
        && d'.pending == W.NO_BITS
        && d'.ws == if d.pending.project then W.InvalidateProject(d.ws)
                    else if d.pending.analysis then W.InvalidateAnalysis(d.ws) else d.ws
      else
        && (d'.pending.project <==> d.pending.project || s.tasks[a.tid].preBits.project)
        && (d'.pending.analysis <==> d.pending.analysis || s.tasks[a.tid].preBits.analysis)
  {
  }

  /** A run that finds bits pending when it is about to install or to publish applies them, the project's
      before the analysis's, and ends. */
  lemma PendingEndsARun(s: State, a: Action)
    requires Enabled(s, a) && a.Act? && (s.tasks[a.tid].Committing? || s.tasks[a.tid].Rechecking?)
    requires s.data.pending != W.NO_BITS
    ensures var (d, s') := (s.data, Do(s, a));
      && s'.data == d.(pending := W.NO_BITS,
                       ws := if d.pending.project then W.InvalidateProject(d.ws) else W.InvalidateAnalysis(d.ws))
      && s'.tasks == s.tasks - {a.tid}
  {
  }

  /** So a batch of changes invalidates as soon as it finds the workspace busy. */
  lemma LookInvalidatesAt(states: seq<State>, actions: seq<Action>, k: nat, tid: Tid)
    requires IsRun(states, actions) && k < |actions| && actions[k].Act? && actions[k].tid == tid && tid in states[k].tasks
    requires states[k].tasks[tid].Marking? || (states[k].tasks[tid].Watching? && Analysis in states[k].locks)
    requires states[k].tasks[tid].preBits != W.NO_BITS
    ensures InvalidatesAt(states, k)
  {
    LookingMarks(states[k], actions[k]);
  }

  // ----- Every recompute a batch asks for is made

  /** Nothing arrives but reads, and nobody disturbs or fails. */
  predicate Calm(s: State, a: Action) {
    match a
    case Arrive(_, task) => task.WantDocument?
    case Act(t, c, _) => t in s.tasks && !Disturbs(s.tasks[t]) && !Fails(s.tasks[t], s.data, c)
  }

  ghost predicate CalmStretch(states: seq<State>, actions: seq<Action>, i: nat, n: nat) {
    && n < |states| && n <= |actions|
    && forall j {:trigger actions[j]} :: i < j < n ==> Calm(states[j], actions[j])
  }

  lemma CalmIsQuiet(states: seq<State>, actions: seq<Action>, i: nat, n: nat, m: nat, tid: Tid)
    requires CalmStretch(states, actions, i, n) && i <= m
    ensures QuietStretch(states, actions, m, n, tid)
  {
  }

  /** The batch still has this recompute to schedule. */
  predicate StillOwes(s: State, tid: Tid, due: T.Scheduled) {
    tid in s.tasks && s.tasks[tid].Clearing? && due in s.tasks[tid].schedules
  }

  predicate Scheduled(s: State, child: Tid, due: T.Scheduled) {
    && child in s.tasks
    && s.tasks[child] == Debouncing(Job(due.path, Some(RootEpoch(due.root, due.epoch)), W.Full), 0)
  }

  /** One calm step: root epochs stand, and a recompute owed is still owed or now scheduled. */
  ghost predicate GoesOn(s: State, s': State, tid: Tid, due: T.Scheduled) {
    && SameRootEpochs(s.data.tracker, s'.data.tracker)
    && (StillOwes(s, tid, due) ==> StillOwes(s', tid, due) || exists child :: Scheduled(s', child, due))
  }

  lemma ClearingSchedules(s: State, tid: Tid, o: Outcome, child: Tid, due: T.Scheduled, url: Url, scheduled: T.Scheduled)
    requires StillOwes(s, tid, due) && child !in s.tasks
    requires o == ClearStep(s.data, s.tasks[tid].clears, s.tasks[tid].schedules, url, scheduled)
    requires s.tasks[tid].clears == {} ==> scheduled in s.tasks[tid].schedules
    requires s.tasks[tid].clears != {} ==> url in s.tasks[tid].clears
    ensures var s' := s.(data := o.data, tasks := NewTasks(s.tasks, tid, o, child));
            StillOwes(s', tid, due) || Scheduled(s', child, due)
  {
  }

  lemma OwnStepGoesOn(s: State, tid: Tid, c: Choice, child: Tid, due: T.Scheduled)
    requires StillOwes(s, tid, due) && Enabled(s, Act(tid, c, child))
    ensures var s' := Do(s, Act(tid, c, child)); StillOwes(s', tid, due) || Scheduled(s', child, due)
  {
    var o := OutcomeAt(s, tid, c);
    assert o == ClearStep(s.data, s.tasks[tid].clears, s.tasks[tid].schedules, c.url, c.scheduled);
    ClearingSchedules(s, tid, o, child, due, c.url, c.scheduled);
  }

  lemma StepGoesOn(s: State, a: Action, tid: Tid, due: T.Scheduled)
    requires Enabled(s, a) && Calm(s, a)
    ensures var goes := GoesOn(s, Do(s, a), tid, due); goes
  {
    match a
    case Arrive(_, _) =>
    case Act(mover, c, child) =>
      OthersAreQuiet(s, mover, c);
      if mover == tid && StillOwes(s, tid, due) {
        OwnStepGoesOn(s, tid, c, child, due);
      }
  }

  lemma CalmStepGoesOn(states: seq<State>, actions: seq<Action>, i: nat, n: nat, m: nat, tid: Tid, due: T.Scheduled)
    requires IsRun(states, actions) && CalmStretch(states, actions, i, n) && i < m < n
    ensures var goes := GoesOn(states[m], states[m + 1], tid, due); goes
  {
    StepGoesOn(states[m], actions[m], tid, due);
  }

  lemma CalmRunGoesOn(states: seq<State>, actions: seq<Action>, i: nat, n: nat, tid: Tid, due: T.Scheduled)
    requires IsRun(states, actions) && CalmStretch(states, actions, i, n)
    ensures forall m :: i + 1 < m <= n ==> GoesOn(states[m - 1], states[m], tid, due)
  {
    forall m | i + 1 < m <= n
      ensures GoesOn(states[m - 1], states[m], tid, due)
    {
      CalmStepGoesOn(states, actions, i, n, m - 1, tid, due);
    }
  }

  lemma {:induction false} OwedIsScheduled(states: seq<State>, j: nat, n: nat, tid: Tid, due: T.Scheduled)
    returns (m: nat, child: Tid)
    requires j <= n < |states| && StillOwes(states[j], tid, due) && tid !in states[n].tasks
    requires forall k :: j < k <= n ==> GoesOn(states[k - 1], states[k], tid, due)
    ensures j < m <= n && Scheduled(states[m], child, due)
    ensures SameRootEpochs(states[j].data.tracker, states[m].data.tracker)
    decreases n - j
  {
    assert GoesOn(states[j + 1 - 1], states[j + 1], tid, due);
    if StillOwes(states[j + 1], tid, due) {
      m, child := OwedIsScheduled(states, j + 1, n, tid, due);
    } else {
      m := j + 1;
      child :| Scheduled(states[m], child, due);
    }
  }

  /** A recompute scheduled under its root's present epoch reaches the client. */
  lemma ScheduledIsPublished(states: seq<State>, actions: seq<Action>, m: nat, n: nat, child: Tid, due: T.Scheduled)
    returns (k: nat)
    requires IsRun(states, actions) && QuietStretch(states, actions, m, n, child) && m < n
    requires Scheduled(states[m + 1], child, due) && child !in states[n].tasks
    requires due.epoch == T.At(states[m + 1].data.tracker, due.root).epoch
    ensures m < k < n && HasPublished(states[k], child, Goal(due.path, W.Full), states[n].data.store.documents)
  {
    var goal := Goal(due.path, W.Full);
    RunAdvances(states, actions, m, n, child, goal);
    k := WayEndsAtTheClient(states, m + 1, n, child, goal);
    StoreStands(states, k, n, child, goal);
    EveryReachableStateIsGood(states, actions, k);
    ArrivalIsPublished(states[k], child, goal);
  }

  /** Task `tid` applies a batch of events at step `i`; the stretch up to `n` is calm, and by then no
      task is left. */
  ghost predicate LastBatch(states: seq<State>, actions: seq<Action>, i: nat, n: nat, tid: Tid) {
    && IsRun(states, actions) && i < n < |states|
    && actions[i].Act? && actions[i].tid == tid && tid in states[i].tasks && states[i].tasks[tid].Affecting?
    && CalmStretch(states, actions, i, n)
    && states[n].tasks == map[]
  }

  lemma EffectsOwe(d: Data, events: seq<T.Event>, open: set<Url>, locked: bool, root: Path) returns (due: T.Scheduled)
    requires T.Named(events, root) && (!locked || !T.Unconfigured(events, root))
    ensures T.PathOf(events, root, due.path) && due.root == root
    ensures var o := AffectStep(d, events, open, locked);
            && due.epoch == T.At(o.data.tracker, root).epoch
            && o.next.Some? && o.next.value.Clearing? && due in o.next.value.schedules
  {
    BatchHasItsEffects(d, events, open, locked);
    var o := AffectStep(d, events, open, locked);
    var path := T.SomePath(events, root);
    due := T.Scheduled(path, root, T.At(o.data.tracker, root).epoch);
    assert Due(due, events, o.data.tracker, locked);
  }

  lemma AffectingMoves(s: State, a: Action, o: Outcome)
    requires Enabled(s, a) && a.Act? && s.tasks[a.tid].Affecting?
    requires o == AffectStep(s.data, a.choice.events, s.tasks[a.tid].open, s.tasks[a.tid].locked) && o.next.Some?
    ensures Do(s, a).data == o.data && a.tid in Do(s, a).tasks && Do(s, a).tasks[a.tid] == o.next.value
  {
    assert OutcomeAt(s, a.tid, a.choice) == o;
    assert o.spawned.None?;
  }

  lemma BatchOwes(s: State, a: Action, root: Path) returns (due: T.Scheduled)
    requires Enabled(s, a) && a.Act? && s.tasks[a.tid].Affecting? && T.Named(a.choice.events, root)
    requires !s.tasks[a.tid].locked || !T.Unconfigured(a.choice.events, root)
    ensures T.PathOf(a.choice.events, root, due.path) && due.root == root
    ensures StillOwes(Do(s, a), a.tid, due) && due.epoch == T.At(Do(s, a).data.tracker, root).epoch
  {
    var task := s.tasks[a.tid];
    due := EffectsOwe(s.data, a.choice.events, task.open, task.locked, root);
    AffectingMoves(s, a, AffectStep(s.data, a.choice.events, task.open, task.locked));
  }

  lemma LastBatchOwes(states: seq<State>, actions: seq<Action>, i: nat, n: nat, tid: Tid, root: Path) returns (due: T.Scheduled)
    requires LastBatch(states, actions, i, n, tid) && T.Named(actions[i].choice.events, root)
    requires !states[i].tasks[tid].locked || !T.Unconfigured(actions[i].choice.events, root)
    ensures T.PathOf(actions[i].choice.events, root, due.path)
    ensures StillOwes(states[i + 1], tid, due) && due.epoch == T.At(states[i + 1].data.tracker, due.root).epoch
  {
    due := BatchOwes(states[i], actions[i], root);
  }

  lemma OwedIsPublished(states: seq<State>, actions: seq<Action>, i: nat, n: nat, tid: Tid, due: T.Scheduled)
    returns (k: nat, child: Tid)
    requires IsRun(states, actions) && CalmStretch(states, actions, i, n) && i < n && states[n].tasks == map[]
    requires StillOwes(states[i + 1], tid, due) && due.epoch == T.At(states[i + 1].data.tracker, due.root).epoch
    ensures i < k < n && HasPublished(states[k], child, Goal(due.path, W.Full), states[n].data.store.documents)
  {
    CalmRunGoesOn(states, actions, i, n, tid, due);
    var m;
    m, child := OwedIsScheduled(states, i + 1, n, tid, due);
    CalmIsQuiet(states, actions, i, n, m - 1, child);
    assert m < n;
    k := ScheduledIsPublished(states, actions, m - 1, n, child, due);
  }

  /** No event is lost: for every root a batch names, unless its configuration was deleted while the
      workspace was in hand, some run tells the client everything about a project around the root's
      path, from the buffers open to this day, before the server is at rest. */
  lemma WatchedRootIsPublished(states: seq<State>, actions: seq<Action>, i: nat, n: nat, tid: Tid, root: Path)
    returns (k: nat, child: Tid, path: Path)
    requires LastBatch(states, actions, i, n, tid) && T.Named(actions[i].choice.events, root)
    requires !states[i].tasks[tid].locked || !T.Unconfigured(actions[i].choice.events, root)
    ensures T.PathOf(actions[i].choice.events, root, path)
    ensures i < k < n && HasPublished(states[k], child, Goal(path, W.Full), states[n].data.store.documents)
  {
    var due := LastBatchOwes(states, actions, i, n, tid, root);
    path := due.path;
    k, child := OwedIsPublished(states, actions, i, n, tid, due);
  }
}
