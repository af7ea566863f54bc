/** No edit is lost: once the server has come to rest, the last edit of a file has been published, and
    exactly the edits that name no file have not.

    An `ensures` that names its one claim in a `var` first is proved whole and not conjunct by
    conjunct. */
module ServerProgress {
  import opened Prelude
  import opened Paths
  import D = Documents
  import W = Workspace
  import T = Diagnostics
  import opened Server
  import opened ServerInvariant
  import opened ServerTheorems

  // ----- A quiet stretch of a run

  /** Edit handlers, watcher batches that have not had their effect yet, and recomputes about to take a
      number from the edit counter. */
  predicate Disturbs(task: Task) {
    match task
    case WantEdit(_) => true
    case WantEditDocs(_) => true
    case WantForget(_) => true
    case WantBump(_, _) => true
    case WantWatch(_) => true
    case WantVersions(_) => true
    case WantEffects(_, _) => true
    case Scheduling(job) => job.rootEpoch.None?
    case Clearing(_, _) => false
    case _ => IsEdit(task) || IsWatch(task)
  }

  /** The project is not found, by walking up from the file, its catalog cannot be bound, or the
      checker fails. */
  predicate Fails(task: Task, d: Data, c: Choice) {
    match task
    case Preparing(job, capture) =>
      || W.Prepare(Drained(d).ws, job.file, capture, job.scope, c.resolved, c.disk, c.attempt).1.Err?
      || (c.resolved.Ok? && !Under(job.file, c.resolved.value.root))
    case Analyzing(_, _, _) => c.checked.None?
    case _ => false
  }

  /** Nothing arrives but reads, `tid` neither fails nor edits again, and nobody else disturbs it. */
  predicate Quiet(s: State, a: Action, tid: Tid) {
    match a
    case Arrive(_, task) => task.WantDocument?
    case Act(t, c, _) => t in s.tasks && if t == tid then !Fails(s.tasks[t], s.data, c) && !s.tasks[t].Editing? else !Disturbs(s.tasks[t])
  }

  /** Quiet after step `i` and up to `n`. */
  ghost predicate QuietStretch(states: seq<State>, actions: seq<Action>, i: nat, n: nat, tid: Tid) {
    && n < |states| && n <= |actions|
    && forall j {:trigger actions[j]} :: i < j < n ==> Quiet(states[j], actions[j], tid)
  }

  // ----- The way of an edit to the client

  /** What a scheduled run is for. */
  datatype Goal = Goal(path: Path, scope: W.Scope)

  predicate CurrentEpoch(rootEpoch: Option<RootEpoch>, d: Data) {
    rootEpoch.Some? ==> rootEpoch.value.epoch == T.At(d.tracker, rootEpoch.value.root).epoch
  }

  /** A keystroke asks for no tests, anything else for the whole project. */
  predicate Asks(edit: D.Edit, goal: Goal) {
    edit.url == FileUrl(goal.path) && goal.scope == if edit.Changed? then W.Interactive else W.Full
  }

  /** The inputs are of a project around the path, and leave tests out only if that was asked for and
      no test module was open. */
  predicate Serves(inputs: W.Prepared, capture: D.Capture, goal: Goal) {
    && Under(goal.path, inputs.root)
    && (inputs.sourceOnly <==>
          goal.scope.Interactive? && !W.AnyOpenTestModule(W.Project(inputs.root, inputs.config), capture))
  }

  predicate ServedBy(p: Publication, goal: Goal) {
    p.root == p.snapshot.inputs.root && Serves(p.snapshot.inputs, p.capture, goal)
  }

  predicate JobFor(job: Job, goal: Goal, d: Data) {
    job.file == goal.path && job.scope == goal.scope && CurrentEpoch(job.rootEpoch, d)
  }

  predicate CapturedNow(job: Job, capture: D.Capture, goal: Goal, d: Data) {
    JobFor(job, goal, d) && capture.generation == d.store.generation
  }

  /** The inputs are of the present, and nothing is pending that could discard what they give. */
  predicate PreparedNow(job: Job, capture: D.Capture, inputs: W.Prepared, goal: Goal, d: Data) {
    && CapturedNow(job, capture, goal, d)
    && inputs.epoch == d.ws.epoch && d.pending == W.NO_BITS && Serves(inputs, capture, goal)
  }

  /** Where the handler of an edit, or the recompute it scheduled, may stand. */
  predicate OnTheWay(task: Task, d: Data, goal: Goal) {
    match task
    case WantForget(edit) => Asks(edit, goal)
    case Forgetting(edit) => Asks(edit, goal)
    case Locating(edit) => Asks(edit, goal)
    case WantBump(edit, _) => Asks(edit, goal)
    case Bumping(edit, _) => Asks(edit, goal)
    case Retracting(url, rootEpoch) => goal == Goal(goal.path, W.Full) && url == FileUrl(goal.path) && CurrentEpoch(rootEpoch, d)
    case Scheduling(job) => JobFor(job, goal, d)
    case Debouncing(job, seqNo) => JobFor(job, goal, d) && (job.rootEpoch.None? ==> seqNo == d.editSeq)
    case WantPreflight(job) => JobFor(job, goal, d)
    case Preflight(job) => JobFor(job, goal, d)
    case WantCapture(job) => JobFor(job, goal, d)
    case Capturing(job) => JobFor(job, goal, d)
    case WantRun(job, capture) => CapturedNow(job, capture, goal, d)
    case WantPrepare(job, capture) => CapturedNow(job, capture, goal, d)
    case Preparing(job, capture) => CapturedNow(job, capture, goal, d)
    case Analyzing(job, capture, prepared) => PreparedNow(job, capture, prepared, goal, d)
    case WantCommit(job, capture, snapshot) => PreparedNow(job, capture, snapshot.inputs, goal, d)
    case Committing(job, capture, snapshot) => PreparedNow(job, capture, snapshot.inputs, goal, d)
    case WantPublish(job, capture, snapshot) => PreparedNow(job, capture, snapshot.inputs, goal, d)
    case Rechecking(job, capture, snapshot) => PreparedNow(job, capture, snapshot.inputs, goal, d)
    case WantMatch(job, capture, snapshot) => PreparedNow(job, capture, snapshot.inputs, goal, d)
    case Matching(job, capture, snapshot) => PreparedNow(job, capture, snapshot.inputs, goal, d)
    case Confirming(job, p) => JobFor(job, goal, d) && ServedBy(p, goal)
    case WantReconcile(job, p) => JobFor(job, goal, d) && ServedBy(p, goal)
    case Reconciling(job, p) => JobFor(job, goal, d) && ServedBy(p, goal)
    case Sending(p, _) => ServedBy(p, goal)
    case _ => false
  }

  /** All sets are sent. */
  predicate Arrived(task: Task) {
    task.Sending? && task.remaining == map[]
  }

  /** One step further on the way, or at its end. */
  predicate Onwards(task: Task, o: Outcome, goal: Goal) {
    Arrived(task) || (o.next.Some? && OnTheWay(o.next.value, o.data, goal))
  }

  // ----- Its own steps

  lemma GrantLeadsOn(task: Task, d: Data, goal: Goal)
    requires Wants(task).Some? && OnTheWay(task, d, goal)
    ensures OnTheWay(Granted(task), d, goal)
  {
  }

  lemma EditLeadsOn(task: Task, d: Data, goal: Goal, analysisFree: bool)
    requires IsEdit(task) && (OnTheWay(task, d, goal) || (task.Editing? && Asks(task.edit, goal)))
    ensures Onwards(task, EditStep(task, d, analysisFree), goal)
  {
  }

  lemma ScheduleLeadsOn(task: Task, d: Data, c: Choice, goal: Goal)
    requires task.Scheduling? || task.Debouncing? || task.Preflight? || task.Capturing?
    requires OnTheWay(task, d, goal)
    ensures Onwards(task, RecomputeStep(task, d, c), goal)
  {
  }

  lemma PrepareLeadsOn(job: Job, capture: D.Capture, d: Data, c: Choice, goal: Goal)
    requires CapturedNow(job, capture, goal, d) && !Fails(Preparing(job, capture), d, c)
    ensures Onwards(Preparing(job, capture), PrepareStep(d, job, capture, c), goal)
  {
  }

  /** Nothing newer can be installed, so the analysis is. */
  lemma CommitLeadsOn(job: Job, capture: D.Capture, snapshot: W.Snapshot, d: Data, goal: Goal)
    requires DataOk(d) && InputsOk(snapshot.inputs, capture, d) && PreparedNow(job, capture, snapshot.inputs, goal, d)
    ensures Onwards(Committing(job, capture, snapshot), CommitStep(d, job, capture, snapshot), goal)
  {
    assert W.Accepts(d.ws, snapshot.inputs.generation, snapshot.inputs.epoch);
  }

  lemma MatchLeadsOn(job: Job, capture: D.Capture, snapshot: W.Snapshot, d: Data, goal: Goal)
    requires InputsOk(snapshot.inputs, capture, d) && Installed(snapshot, d)
    requires PreparedNow(job, capture, snapshot.inputs, goal, d)
    ensures Onwards(Matching(job, capture, snapshot), MatchStep(d, job, capture), goal)
  {
  }

  lemma AnalysisLeadsOn(task: Task, d: Data, c: Choice, goal: Goal)
    requires DataOk(d) && TaskOk(task, d) && OnTheWay(task, d, goal) && !Fails(task, d, c)
    requires task.Preparing? || task.Analyzing? || task.Committing? || task.Rechecking? || task.Matching?
    ensures Onwards(task, RecomputeStep(task, d, c), goal)
  {
    match task
    case Preparing(job, capture) => PrepareLeadsOn(job, capture, d, c, goal);
    case Committing(job, capture, snapshot) => CommitLeadsOn(job, capture, snapshot, d, goal);
    case Matching(job, capture, snapshot) => MatchLeadsOn(job, capture, snapshot, d, goal);
    case _ =>
  }

  lemma ReconcileLeadsOn(job: Job, p: Publication, d: Data, goal: Goal)
    requires JobFor(job, goal, d) && ServedBy(p, goal)
    ensures Onwards(Reconciling(job, p), ReconcileStep(d, job, p), goal)
  {
  }

  lemma SendLeadsOn(p: Publication, remaining: T.Report, d: Data, url: Url, goal: Goal)
    requires ServedBy(p, goal) && (remaining == map[] || url in remaining)
    ensures Onwards(Sending(p, remaining), SendStep(d, p, remaining, url), goal)
  {
  }

  lemma PublicationLeadsOn(task: Task, d: Data, c: Choice, goal: Goal)
    requires TaskOk(task, d) && OnTheWay(task, d, goal) && Offers(task, c)
    requires task.Confirming? || task.Reconciling? || task.Sending?
    ensures Onwards(task, RecomputeStep(task, d, c), goal)
  {
    match task
    case Reconciling(job, p) => ReconcileLeadsOn(job, p, d, goal);
    case Sending(p, remaining) => SendLeadsOn(p, remaining, d, c.url, goal);
    case Confirming(job, p) => assert ConfirmStep(d, job, p) == Go(d, WantReconcile(job, p));
  }

  lemma RunLeadsOn(task: Task, d: Data, c: Choice, goal: Goal)
    requires DataOk(d) && TaskOk(task, d) && OnTheWay(task, d, goal) && !Fails(task, d, c) && Offers(task, c)
    requires Wants(task).None? && !IsEdit(task)
    ensures Onwards(task, RecomputeStep(task, d, c), goal)
  {
    if task.Scheduling? || task.Debouncing? || task.Preflight? || task.Capturing? {
      ScheduleLeadsOn(task, d, c, goal);
    } else if task.Confirming? || task.Reconciling? || task.Sending? {
      PublicationLeadsOn(task, d, c, goal);
    } else {
      AnalysisLeadsOn(task, d, c, goal);
    }
  }

  lemma BodyLeadsOn(task: Task, d: Data, c: Choice, goal: Goal, analysisFree: bool)
    requires DataOk(d) && TaskOk(task, d) && OnTheWay(task, d, goal) && !Fails(task, d, c) && Offers(task, c)
    requires Wants(task).None?
    ensures var onwards := Onwards(task, Body(task, d, c, analysisFree), goal); onwards
  {
    if IsEdit(task) {
      EditLeadsOn(task, d, goal, analysisFree);
    } else {
      NoWatcherOrReader(task, d, goal);
      RunLeadsOn(task, d, c, goal);
    }
  }

  lemma NoWatcherOrReader(task: Task, d: Data, goal: Goal)
    requires OnTheWay(task, d, goal)
    ensures !IsWatch(task) && !IsRead(task)
  {
  }

  /** Whatever stage it is in, its own next step leads on. */
  lemma OwnStepLeadsOn(s: State, tid: Tid, c: Choice, goal: Goal)
    requires DataOk(s.data) && tid in s.tasks && TaskOk(s.tasks[tid], s.data) && Offers(s.tasks[tid], c)
    requires OnTheWay(s.tasks[tid], s.data, goal) && !Fails(s.tasks[tid], s.data, c)
    ensures var onwards := Onwards(s.tasks[tid], OutcomeAt(s, tid, c), goal); onwards
  {
    var task := s.tasks[tid];
    if Wants(task).Some? {
      GrantLeadsOn(task, s.data, goal);
    } else {
      BodyLeadsOn(task, s.data, c, goal, Analysis !in s.locks);
    }
  }

  // ----- Everyone else's

  ghost predicate SameRootEpochs(tracker: T.Tracker, tracker': T.Tracker) {
    forall root :: T.At(tracker', root).epoch == T.At(tracker, root).epoch
  }

  /** What a step that disturbs nothing leaves as it was. */
  ghost predicate QuietData(d: Data, d': Data) {
    && d'.store == d.store && d'.editSeq == d.editSeq && SameRootEpochs(d.tracker, d'.tracker)
    && (d'.pending == d.pending || d'.pending == W.NO_BITS)
    && (d.pending == W.NO_BITS ==> d'.ws.epoch == d.ws.epoch)
  }

  lemma RestOfTheWayIsQuiet(task: Task, d: Data, d': Data, goal: Goal)
    requires QuietData(d, d') && OnTheWay(task, d, goal)
    ensures OnTheWay(task, d', goal)
  {
  }

  lemma UncommittedIsQuiet(task: Task, d: Data, c: Choice)
    requires BeforeCommit(task) && !Disturbs(task)
    ensures QuietData(d, RecomputeStep(task, d, c).data)
  {
  }

  lemma InstallingIsQuiet(task: Task, d: Data, c: Choice)
    requires task.Committing? || task.Rechecking? || task.Matching?
    ensures QuietData(d, RecomputeStep(task, d, c).data)
  {
  }

  lemma TellingIsQuiet(task: Task, d: Data, c: Choice)
    requires !BeforeCommit(task) && !task.Committing? && !task.Rechecking? && !task.Matching?
    ensures QuietData(d, RecomputeStep(task, d, c).data)
  {
    if task.Reconciling? {
      ReconcilingIsQuiet(task.job, task.publication, d);
    } else {
      SendingIsQuiet(task, d, c);
    }
  }

  lemma ReconcilingIsQuiet(job: Job, p: Publication, d: Data)
    ensures QuietData(d, ReconcileStep(d, job, p).data)
  {
  }

  lemma SendingIsQuiet(task: Task, d: Data, c: Choice)
    requires !BeforeCommit(task) && !task.Committing? && !task.Rechecking? && !task.Matching? && !task.Reconciling?
    ensures QuietData(d, RecomputeStep(task, d, c).data)
  {
  }

  lemma ReadingIsQuiet(task: Task, d: Data, c: Choice, analysisFree: bool)
    ensures QuietData(d, ReadStep(task, d, c, analysisFree).data)
  {
  }

  lemma ClearingIsQuiet(task: Task, d: Data, c: Choice, analysisFree: bool)
    requires task.Clearing?
    ensures QuietData(d, WatchStep(task, d, c, analysisFree).data)
  {
  }

  lemma OthersAreQuiet(s: State, tid: Tid, c: Choice)
    requires tid in s.tasks && !Disturbs(s.tasks[tid])
    ensures QuietData(s.data, OutcomeAt(s, tid, c).data)
  {
    var task := s.tasks[tid];
    if Wants(task).None? {
      if IsRead(task) {
        ReadingIsQuiet(task, s.data, c, Analysis !in s.locks);
      } else if task.Clearing? {
        ClearingIsQuiet(task, s.data, c, Analysis !in s.locks);
      } else if BeforeCommit(task) {
        UncommittedIsQuiet(task, s.data, c);
      } else if task.Committing? || task.Rechecking? || task.Matching? {
        InstallingIsQuiet(task, s.data, c);
      } else {
        TellingIsQuiet(task, s.data, c);
      }
    }
  }

  // ----- Only edits move the buffers

  lemma HandlersKeepTheStore(task: Task, d: Data, c: Choice, analysisFree: bool)
    requires !task.Editing?
    ensures EditStep(task, d, analysisFree).data.store == d.store
    ensures ReadStep(task, d, c, analysisFree).data.store == d.store
  {
  }

  lemma WatchersKeepTheStore(task: Task, d: Data, c: Choice, analysisFree: bool)
    ensures WatchStep(task, d, c, analysisFree).data.store == d.store
  {
  }

  lemma RunsKeepTheStore(task: Task, d: Data, c: Choice)
    ensures RecomputeStep(task, d, c).data.store == d.store
  {
    if BeforeCommit(task) {
      NewRunsKeepTheStore(task, d, c);
    } else if task.Committing? || task.Rechecking? || task.Matching? {
      InstallingIsQuiet(task, d, c);
    } else {
      TellingIsQuiet(task, d, c);
    }
  }

  lemma NewRunsKeepTheStore(task: Task, d: Data, c: Choice)
    requires BeforeCommit(task)
    ensures RecomputeStep(task, d, c).data.store == d.store
  {
  }

  lemma OutcomeKeepsTheStore(s: State, tid: Tid, c: Choice)
    requires tid in s.tasks && !s.tasks[tid].Editing?
    ensures OutcomeAt(s, tid, c).data.store == s.data.store
  {
    var free := Analysis !in s.locks;
    HandlersKeepTheStore(s.tasks[tid], s.data, c, free);
    WatchersKeepTheStore(s.tasks[tid], s.data, c, free);
    RunsKeepTheStore(s.tasks[tid], s.data, c);
  }

  // ----- The whole way

  /** One quiet step, for a task on the way. */
  ghost predicate Advances(s: State, s': State, tid: Tid, goal: Goal) {
    && s'.data.store == s.data.store
    && (tid in s.tasks && OnTheWay(s.tasks[tid], s.data, goal) && !Arrived(s.tasks[tid]) ==>
          tid in s'.tasks && OnTheWay(s'.tasks[tid], s'.data, goal))
  }

  lemma OwnMoveAdvances(s: State, s': State, tid: Tid, o: Outcome, child: Tid, goal: Goal)
    requires tid in s.tasks && child !in s.tasks && s'.data == o.data && s'.tasks == NewTasks(s.tasks, tid, o, child)
    requires o.data.store == s.data.store && (OnTheWay(s.tasks[tid], s.data, goal) ==> Onwards(s.tasks[tid], o, goal))
    ensures Advances(s, s', tid, goal)
  {
  }

  lemma OtherMoveAdvances(s: State, s': State, mover: Tid, o: Outcome, child: Tid, tid: Tid, goal: Goal)
    requires mover in s.tasks && child !in s.tasks && s'.data == o.data && s'.tasks == NewTasks(s.tasks, mover, o, child)
    requires mover != tid && QuietData(s.data, o.data)
    ensures Advances(s, s', tid, goal)
  {
    if tid in s.tasks && OnTheWay(s.tasks[tid], s.data, goal) {
      RestOfTheWayIsQuiet(s.tasks[tid], s.data, o.data, goal);
    }
  }

  lemma StepAdvances(s: State, a: Action, tid: Tid, goal: Goal)
    requires Invariant(s) && Enabled(s, a) && Quiet(s, a, tid)
    ensures var advances := Advances(s, Do(s, a), tid, goal); advances
  {
    match a
    case Arrive(_, _) =>
    case Act(mover, c, child) =>
      OutcomeKeepsTheStore(s, mover, c);
      if mover == tid {
        assert TaskOk(s.tasks[tid], s.data);
        if OnTheWay(s.tasks[tid], s.data, goal) {
          OwnStepLeadsOn(s, tid, c, goal);
        }
        OwnMoveAdvances(s, Do(s, a), tid, OutcomeAt(s, tid, c), child, goal);
      } else {
        OthersAreQuiet(s, mover, c);
        OtherMoveAdvances(s, Do(s, a), mover, OutcomeAt(s, mover, c), child, tid, goal);
      }
  }

  /** A task on the way can only leave at the end of it. */
  lemma {:induction false} WayEndsAtTheClient(states: seq<State>, j: nat, n: nat, tid: Tid, goal: Goal) returns (k: nat)
    requires j <= n < |states| && tid in states[j].tasks && OnTheWay(states[j].tasks[tid], states[j].data, goal)
    requires tid !in states[n].tasks
    requires forall m :: j < m <= n ==> Advances(states[m - 1], states[m], tid, goal)
    ensures j <= k < n && tid in states[k].tasks && Arrived(states[k].tasks[tid])
    ensures OnTheWay(states[k].tasks[tid], states[k].data, goal)
    decreases n - j
  {
    if Arrived(states[j].tasks[tid]) {
      k := j;
    } else {
      assert Advances(states[j + 1 - 1], states[j + 1], tid, goal);
      k := WayEndsAtTheClient(states, j + 1, n, tid, goal);
    }
  }

  lemma {:induction false} StoreStands(states: seq<State>, j: nat, n: nat, tid: Tid, goal: Goal)
    requires j <= n < |states|
    requires forall m :: j < m <= n ==> Advances(states[m - 1], states[m], tid, goal)
    ensures states[n].data.store == states[j].data.store
    decreases n
  {
    if j < n {
      StoreStands(states, j, n - 1, tid, goal);
      assert Advances(states[n - 1], states[n], tid, goal);
    }
  }

  lemma EditSetsOut(s: State, a: Action, goal: Goal)
    requires Enabled(s, a) && a.Act? && s.tasks[a.tid].Editing? && Asks(s.tasks[a.tid].edit, goal)
    ensures var s' := Do(s, a); a.tid in s'.tasks && OnTheWay(s'.tasks[a.tid], s'.data, goal)
  {
    EditLeadsOn(s.tasks[a.tid], s.data, goal, Analysis !in s.locks);
  }

  lemma QuietStepAdvances(states: seq<State>, actions: seq<Action>, i: nat, n: nat, m: nat, tid: Tid, goal: Goal)
    requires IsRun(states, actions) && QuietStretch(states, actions, i, n, tid) && i < m < n
    ensures var advances := Advances(states[m], states[m + 1], tid, goal); advances
  {
    EveryReachableStateIsGood(states, actions, m);
    StepAdvances(states[m], actions[m], tid, goal);
  }

  /** In a quiet stretch every step of a run advances. */
  lemma RunAdvances(states: seq<State>, actions: seq<Action>, i: nat, n: nat, tid: Tid, goal: Goal)
    requires IsRun(states, actions) && QuietStretch(states, actions, i, n, tid)
    ensures forall m :: i + 1 < m <= n ==> Advances(states[m - 1], states[m], tid, goal)
  {
    forall m | i + 1 < m <= n
      ensures Advances(states[m - 1], states[m], tid, goal)
    {
      QuietStepAdvances(states, actions, i, n, m - 1, tid, goal);
    }
  }

  /** At this state the run has told the client all it has to say: what the checker reported in every
      file, and nothing for the open ones without a problem. Its analysis is of a project around the
      path and of the texts `documents` holds, without tests only after a keystroke that left no test
      module open. */
  ghost predicate HasPublished(s: State, tid: Tid, goal: Goal, documents: D.Buffers) {
    && tid in s.tasks && Arrived(s.tasks[tid])
    && var p := s.tasks[tid].publication;
       var inputs := p.snapshot.inputs;
       && p.root == inputs.root && Under(goal.path, inputs.root)
       && W.OfBuffers(inputs.sources, inputs.root, documents)
       && (inputs.sourceOnly <==>
             (goal.scope.Interactive? &&
              forall file :: FileUrl(file) in documents ==> !W.BelowTests(file, W.Project(inputs.root, inputs.config))))
       && p.capture.buffers == D.FileBuffers(documents)
       && forall file :: SpokenOf(p, file) ==> ShowsReport(s.data.client, p, file)
  }

  lemma ArrivalIsPublished(s: State, tid: Tid, goal: Goal)
    requires Invariant(s) && tid in s.tasks && Arrived(s.tasks[tid]) && OnTheWay(s.tasks[tid], s.data, goal)
    ensures HasPublished(s, tid, goal, s.data.store.documents)
  {
    var p := s.tasks[tid].publication;
    PublicationIsPresent(s, tid);
    SendingFacts(s, tid);
    SentIsReported(p, map[], s.data);
    OpenTests(W.Project(p.snapshot.inputs.root, p.snapshot.inputs.config), p.capture, s.data.store.documents);
  }

  lemma OpenTests(project: W.Project, capture: D.Capture, documents: D.Buffers)
    requires capture.buffers == D.FileBuffers(documents)
    ensures W.AnyOpenTestModule(project, capture) <==>
            exists file :: FileUrl(file) in documents && W.BelowTests(file, project)
  {
    W.OpenTestsIff(project, capture);
  }

  /** The buffers at `n` are those the edit at `i` left, and hold what it brought. */
  ghost predicate Holds(edit: D.Edit, before: D.Buffers, after: D.Buffers) {
    && (edit.Closed? ==> edit.url !in after)
    && (!edit.Closed? && (edit.Opened? || edit.url in before) ==>
          edit.url in after && after[edit.url].text == edit.text)
  }

  lemma EditIsStored(s: State, a: Action)
    requires Enabled(s, a) && a.Act? && s.tasks[a.tid].Editing?
    ensures Holds(s.tasks[a.tid].edit, s.data.store.documents, Do(s, a).data.store.documents)
  {
    var edit := s.tasks[a.tid].edit;
    assert Do(s, a).data.store == ApplyEditStep(s.data, edit).data.store == D.Apply(s.data.store, edit);
  }

  /** An edit at `i` of a buffer that names a file, and a quiet stretch after it at whose end its task
      is gone. */
  ghost predicate LastEdit(states: seq<State>, actions: seq<Action>, i: nat, n: nat, tid: Tid, goal: Goal) {
    && IsRun(states, actions) && i < n < |states|
    && actions[i].Act? && actions[i].tid == tid && tid in states[i].tasks
    && states[i].tasks[tid].Editing? && Asks(states[i].tasks[tid].edit, goal)
    && QuietStretch(states, actions, i, n, tid)
    && tid !in states[n].tasks
  }

  lemma LastEditStands(states: seq<State>, actions: seq<Action>, i: nat, n: nat, tid: Tid, goal: Goal)
    requires LastEdit(states, actions, i, n, tid, goal)
    ensures Holds(states[i].tasks[tid].edit, states[i].data.store.documents, states[n].data.store.documents)
  {
    EditIsStored(states[i], actions[i]);
    RunAdvances(states, actions, i, n, tid, goal);
    StoreStands(states, i + 1, n, tid, goal);
  }

  lemma LastEditArrives(states: seq<State>, actions: seq<Action>, i: nat, n: nat, tid: Tid, goal: Goal) returns (k: nat)
    requires LastEdit(states, actions, i, n, tid, goal)
    ensures i < k < n && tid in states[k].tasks && Arrived(states[k].tasks[tid])
    ensures OnTheWay(states[k].tasks[tid], states[k].data, goal) && states[n].data.store == states[k].data.store
  {
    EditSetsOut(states[i], actions[i], goal);
    RunAdvances(states, actions, i, n, tid, goal);
    k := WayEndsAtTheClient(states, i + 1, n, tid, goal);
    StoreStands(states, k, n, tid, goal);
  }

  /** The last edit of a file is never lost: if the stretch after it is quiet, the run it scheduled
      has told the client everything, from the texts open to this day, before it is gone; and those
      hold what the edit brought. */
  lemma LastEditIsPublished(states: seq<State>, actions: seq<Action>, i: nat, n: nat, tid: Tid, goal: Goal) returns (k: nat)
    requires LastEdit(states, actions, i, n, tid, goal)
    ensures i < k < n && HasPublished(states[k], tid, goal, states[n].data.store.documents)
    ensures Holds(states[i].tasks[tid].edit, states[i].data.store.documents, states[n].data.store.documents)
  {
    LastEditStands(states, actions, i, n, tid, goal);
    k := LastEditArrives(states, actions, i, n, tid, goal);
    EveryReachableStateIsGood(states, actions, k);
    ArrivalIsPublished(states[k], tid, goal);
  }

  // ----- Exactly which edits are published

  /** The buffers a run has captured and not yet matched. */
  function CaptureHeld(task: Task): Option<D.Capture> {
    match task
    case WantRun(_, capture) => Some(capture)
    case WantPrepare(_, capture) => Some(capture)
    case Preparing(_, capture) => Some(capture)
    case Analyzing(_, capture, _) => Some(capture)
    case WantCommit(_, capture, _) => Some(capture)
    case Committing(_, capture, _) => Some(capture)
    case WantPublish(_, capture, _) => Some(capture)
    case Rechecking(_, capture, _) => Some(capture)
    case WantMatch(_, capture, _) => Some(capture)
    case Matching(_, capture, _) => Some(capture)
    case _ => None
  }

  predicate Reads(task: Task) {
    task.WantDocument? || task.WantTokens? || IsRead(task)
  }

  /** A read, or a run whose buffers are not the present ones. */
  predicate Bystands(task: Task, d: Data) {
    Reads(task) || (CaptureHeld(task).Some? && CaptureHeld(task).value.generation != d.store.generation)
  }

  /** Where the handler of an edit that names no file may stand: only closing one takes any steps. */
  predicate Ending(task: Task, url: Url) {
    match task
    case WantForget(edit) => edit.url == url
    case Forgetting(edit) => edit.url == url
    case Locating(edit) => edit.url == url
    case WantBump(edit, _) => edit.url == url
    case Bumping(edit, _) => edit.url == url
    case Retracting(retracted, _) => retracted == url
    case _ => false
  }

  predicate Followed(task: Task, d: Data, url: Url) {
    match url
    case FileUrl(path) => OnTheWay(task, d, Goal(path, W.Full)) || OnTheWay(task, d, Goal(path, W.Interactive))
    case OtherUrl(_) => Ending(task, url)
  }

  /** Nobody is left but bystanders and the edit's own task. */
  ghost predicate Alone(s: State, tid: Tid, url: Url) {
    forall t :: t in s.tasks ==> Bystands(s.tasks[t], s.data) || (t == tid && Followed(s.tasks[t], s.data, url))
  }

  /** Still a bystander, or gone. */
  predicate StillBystands(o: Outcome) {
    o.next.Some? ==> Bystands(o.next.value, o.data)
  }

  predicate StillFollowed(o: Outcome, url: Url) {
    o.next.Some? ==> Followed(o.next.value, o.data, url)
  }

  lemma GrantStaysBystander(task: Task, d: Data)
    requires Bystands(task, d) && Wants(task).Some?
    ensures Bystands(Granted(task), d)
  {
  }

  lemma ReaderStaysBystander(task: Task, d: Data, c: Choice, analysisFree: bool)
    requires IsRead(task)
    ensures StillBystands(ReadStep(task, d, c, analysisFree))
  {
  }

  lemma PreparingStaysBystander(task: Task, d: Data, c: Choice)
    requires Bystands(task, d) && (task.Preparing? || task.Analyzing?)
    ensures StillBystands(RecomputeStep(task, d, c))
  {
  }

  /** A run of older buffers is dropped when it matches them. */
  lemma InstallingStaysBystander(task: Task, d: Data, c: Choice)
    requires Bystands(task, d) && (task.Committing? || task.Rechecking? || task.Matching?)
    ensures StillBystands(RecomputeStep(task, d, c))
  {
  }

  lemma BystanderStays(s: State, tid: Tid, c: Choice)
    requires tid in s.tasks && Bystands(s.tasks[tid], s.data)
    ensures StillBystands(OutcomeAt(s, tid, c))
  {
    var task := s.tasks[tid];
    if Wants(task).Some? {
      GrantStaysBystander(task, s.data);
    } else if IsRead(task) {
      ReaderStaysBystander(task, s.data, c, Analysis !in s.locks);
    } else if task.Preparing? || task.Analyzing? {
      PreparingStaysBystander(task, s.data, c);
    } else {
      InstallingStaysBystander(task, s.data, c);
    }
  }

  lemma EndingGoesOn(s: State, tid: Tid, c: Choice, url: Url)
    requires tid in s.tasks && Ending(s.tasks[tid], url) && url.OtherUrl?
    ensures StillFollowed(OutcomeAt(s, tid, c), url)
  {
  }

  lemma FollowedStays(s: State, tid: Tid, c: Choice, url: Url)
    requires DataOk(s.data) && tid in s.tasks && TaskOk(s.tasks[tid], s.data) && Offers(s.tasks[tid], c)
    requires Followed(s.tasks[tid], s.data, url) && !Fails(s.tasks[tid], s.data, c)
    ensures StillFollowed(OutcomeAt(s, tid, c), url)
  {
    match url
    case FileUrl(path) =>
      var goal := if OnTheWay(s.tasks[tid], s.data, Goal(path, W.Full)) then Goal(path, W.Full) else Goal(path, W.Interactive);
      OwnStepLeadsOn(s, tid, c, goal);
      if Arrived(s.tasks[tid]) {
        NothingLeftToSend(s, tid, c);
      }
    case OtherUrl(_) => EndingGoesOn(s, tid, c, url);
  }

  lemma NothingLeftToSend(s: State, tid: Tid, c: Choice)
    requires tid in s.tasks && Arrived(s.tasks[tid])
    ensures OutcomeAt(s, tid, c).next.None?
  {
    assert SendStep(s.data, s.tasks[tid].publication, map[], c.url) == Done(s.data);
  }

  lemma NothingSpawned(s: State, tid: Tid, c: Choice)
    requires tid in s.tasks && !IsWatch(s.tasks[tid])
    ensures OutcomeAt(s, tid, c).spawned.None?
  {
  }

  lemma MoveKeepsAlone(s: State, s': State, mover: Tid, o: Outcome, child: Tid, tid: Tid, url: Url)
    requires Alone(s, tid, url) && mover in s.tasks && child !in s.tasks
    requires s'.data == o.data && s'.tasks == NewTasks(s.tasks, mover, o, child)
    requires o.data.store == s.data.store && o.spawned.None?
    requires Bystands(s.tasks[mover], s.data) ==> StillBystands(o)
    requires mover == tid && Followed(s.tasks[mover], s.data, url) ==> StillFollowed(o, url)
    requires mover != tid ==> QuietData(s.data, o.data)
    ensures Alone(s', tid, url)
  {
    forall t | t in s'.tasks
      ensures Bystands(s'.tasks[t], s'.data) || (t == tid && Followed(s'.tasks[t], s'.data, url))
    {
      if t == tid && t != mover && url.FileUrl? && Followed(s.tasks[t], s.data, url) {
        var goal := if OnTheWay(s.tasks[t], s.data, Goal(url.path, W.Full)) then Goal(url.path, W.Full) else Goal(url.path, W.Interactive);
        RestOfTheWayIsQuiet(s.tasks[t], s.data, o.data, goal);
      }
    }
  }

  lemma StepKeepsAlone(s: State, a: Action, tid: Tid, url: Url)
    requires Invariant(s) && Enabled(s, a) && Quiet(s, a, tid) && Alone(s, tid, url)
    ensures var alone := Alone(Do(s, a), tid, url); alone
  {
    match a
    case Arrive(_, _) =>
    case Act(mover, c, child) =>
      assert TaskOk(s.tasks[mover], s.data);
      ActKeepsAlone(s, mover, c, child, tid, url);
  }

  lemma ActKeepsAlone(s: State, mover: Tid, c: Choice, child: Tid, tid: Tid, url: Url)
    requires DataOk(s.data) && Enabled(s, Act(mover, c, child)) && TaskOk(s.tasks[mover], s.data)
    requires Quiet(s, Act(mover, c, child), tid) && Alone(s, tid, url)
    ensures var alone := Alone(Do(s, Act(mover, c, child)), tid, url); alone
  {
    var o := OutcomeAt(s, mover, c);
    OutcomeKeepsTheStore(s, mover, c);
    NotWatching(s.tasks[mover], s.data, url);
    NothingSpawned(s, mover, c);
    if Bystands(s.tasks[mover], s.data) {
      BystanderStays(s, mover, c);
    }
    if mover != tid {
      OthersAreQuiet(s, mover, c);
    } else if Followed(s.tasks[mover], s.data, url) {
      FollowedStays(s, mover, c, url);
    }
    MoveKeepsAlone(s, Do(s, Act(mover, c, child)), mover, o, child, tid, url);
  }

  lemma NotWatching(task: Task, d: Data, url: Url)
    requires Bystands(task, d) || Followed(task, d, url)
    ensures !IsWatch(task)
  {
  }

  /** At the edit: every run that has captured its buffers has captured older ones. */
  lemma EditLeavesBystanders(s: State, a: Action, edit: D.Edit)
    requires Invariant(s) && Enabled(s, a) && a.Act? && s.tasks[a.tid] == Editing(edit)
    requires D.Effective(s.data.store, edit)
    requires forall t :: t in s.tasks && t != a.tid ==> Reads(s.tasks[t]) || CaptureHeld(s.tasks[t]).Some?
    ensures var alone := Alone(Do(s, a), a.tid, edit.url); alone
  {
    var s', o := Do(s, a), ApplyEditStep(s.data, edit);
    assert s'.data == o.data && s'.tasks == NewTasks(s.tasks, a.tid, o, a.child);
    forall t | t in s'.tasks
      ensures Bystands(s'.tasks[t], s'.data) || (t == a.tid && Followed(s'.tasks[t], s'.data, edit.url))
    {
      if t == a.tid {
        EditIsFollowed(s.data, edit);
      } else {
        assert TaskOk(s.tasks[t], s.data);
        CapturesAgeByEdits(s.tasks[t], s.data, edit);
      }
    }
  }

  lemma EditIsFollowed(d: Data, edit: D.Edit)
    ensures StillFollowed(ApplyEditStep(d, edit), edit.url)
  {
  }

  lemma CapturesAgeByEdits(task: Task, d: Data, edit: D.Edit)
    requires StoreMatchesLog(d) && TaskOk(task, d) && D.Effective(d.store, edit)
    requires Reads(task) || CaptureHeld(task).Some?
    ensures Bystands(task, ApplyEditStep(d, edit).data)
  {
  }

  ghost predicate KeepsAlone(s: State, s': State, tid: Tid, url: Url) {
    Alone(s, tid, url) ==> Alone(s', tid, url)
  }

  lemma {:induction false} AloneThroughout(states: seq<State>, j: nat, n: nat, tid: Tid, url: Url)
    requires j <= n < |states| && Alone(states[j], tid, url)
    requires forall m :: j < m <= n ==> KeepsAlone(states[m - 1], states[m], tid, url)
    ensures var alone := Alone(states[n], tid, url); alone
    decreases n
  {
    if j < n {
      AloneThroughout(states, j, n - 1, tid, url);
      assert KeepsAlone(states[n - 1], states[n], tid, url);
    }
  }

  lemma QuietStepKeepsAlone(states: seq<State>, actions: seq<Action>, i: nat, n: nat, m: nat, tid: Tid, url: Url)
    requires IsRun(states, actions) && QuietStretch(states, actions, i, n, tid) && i < m < n
    ensures var keeps := KeepsAlone(states[m], states[m + 1], tid, url); keeps
  {
    EveryReachableStateIsGood(states, actions, m);
    if Alone(states[m], tid, url) {
      StepKeepsAlone(states[m], actions[m], tid, url);
    }
  }

  lemma RunKeepsAlone(states: seq<State>, actions: seq<Action>, i: nat, n: nat, tid: Tid, url: Url)
    requires IsRun(states, actions) && QuietStretch(states, actions, i, n, tid)
    ensures forall m :: i + 1 < m <= n ==> KeepsAlone(states[m - 1], states[m], tid, url)
  {
    forall m | i + 1 < m <= n
      ensures KeepsAlone(states[m - 1], states[m], tid, url)
    {
      QuietStepKeepsAlone(states, actions, i, n, m - 1, tid, url);
    }
  }

  /** At step `i` task `tid` applies an edit that takes effect, while every other task is a read or a
      run that has captured its buffers already; and the stretch up to `n` is quiet. */
  ghost predicate MadeAlone(states: seq<State>, actions: seq<Action>, i: nat, n: nat, tid: Tid, edit: D.Edit) {
    && IsRun(states, actions) && i < n < |states|
    && actions[i].Act? && actions[i].tid == tid && tid in states[i].tasks && states[i].tasks[tid] == Editing(edit)
    && D.Effective(states[i].data.store, edit)
    && (forall t :: t in states[i].tasks && t != tid ==> Reads(states[i].tasks[t]) || CaptureHeld(states[i].tasks[t]).Some?)
    && QuietStretch(states, actions, i, n, tid)
  }

  lemma SetsOutAlone(states: seq<State>, actions: seq<Action>, i: nat, n: nat, tid: Tid, edit: D.Edit)
    requires MadeAlone(states, actions, i, n, tid, edit)
    ensures var alone := Alone(states[i + 1], tid, edit.url); alone
  {
    EveryReachableStateIsGood(states, actions, i);
    EditLeavesBystanders(states[i], actions[i], edit);
  }

  lemma OnlyFollowedTasksSend(s: State, t: Tid, tid: Tid, url: Url)
    requires Alone(s, tid, url) && t in s.tasks && s.tasks[t].Sending?
    ensures t == tid && url.FileUrl? && Under(url.path, s.tasks[t].publication.root)
  {
  }

  predicate SendsAt(states: seq<State>, k: nat, t: Tid) {
    k < |states| && t in states[k].tasks && states[k].tasks[t].Sending?
  }

  /** Whatever is published from such an edit on is published by its own run, and only for a file. */
  lemma OnlyItsRunPublishes(states: seq<State>, actions: seq<Action>, i: nat, n: nat, tid: Tid, edit: D.Edit, k: nat, t: Tid)
    requires MadeAlone(states, actions, i, n, tid, edit) && i < k <= n && SendsAt(states, k, t)
    ensures t == tid && edit.url.FileUrl? && Under(edit.url.path, states[k].tasks[t].publication.root)
  {
    SetsOutAlone(states, actions, i, n, tid, edit);
    RunKeepsAlone(states, actions, i, n, tid, edit.url);
    AloneThroughout(states, i + 1, k, tid, edit.url);
    OnlyFollowedTasksSend(states[k], t, tid, edit.url);
  }

  /** An edit made while the only other tasks are reads and runs that have captured their buffers
      already: by the time the server is at rest again something has been published if and only if the
      edit names a file, and then only by its own run and for a project around that file. The runs in
      flight, of whatever project, publish nothing. */
  lemma LoneEditIsPublishedIff(states: seq<State>, actions: seq<Action>, i: nat, n: nat, tid: Tid, edit: D.Edit)
    requires MadeAlone(states, actions, i, n, tid, edit) && states[n].tasks == map[]
    ensures (exists k, t :: i < k <= n && SendsAt(states, k, t)) <==> edit.url.FileUrl?
    ensures forall k, t :: i < k <= n && SendsAt(states, k, t) ==>
              t == tid && Under(edit.url.path, states[k].tasks[t].publication.root)
  {
    forall k, t | i < k <= n && SendsAt(states, k, t)
      ensures t == tid && edit.url.FileUrl? && Under(edit.url.path, states[k].tasks[t].publication.root)
    {
      OnlyItsRunPublishes(states, actions, i, n, tid, edit, k, t);
    }
    if edit.url.FileUrl? {
      var k := LastEditIsPublished(states, actions, i, n, tid, Goal(edit.url.path, if edit.Changed? then W.Interactive else W.Full));
      assert SendsAt(states, k, tid);
    }
  }

  /** How a run in flight is lost: opening a buffer that names no file moves the one generation all
      buffers share and schedules nothing, and the run finds its buffers changed. */
  lemma UntitledEditsDropRunsInFlight(d: Data, edit: D.Edit, job: Job, capture: D.Capture)
    requires edit.Opened? && edit.url.OtherUrl? && capture.generation <= d.store.generation
    ensures var o := ApplyEditStep(d, edit);
            o.next.None? && o.spawned.None? && MatchStep(o.data, job, capture).next.None?
  {
  }

  /** Why a run about to take a number disturbs: as long as its root is unknown a run yields to any
      later one, of whatever file and project. */
  lemma LaterUnknownRootsDropEarlierRuns(d: Data, later: Data, job: Job, other: Job)
    requires job.rootEpoch.None? && other.rootEpoch.None?
    requires Schedule(d, job).data.editSeq <= later.editSeq
    ensures var seqNo := Schedule(d, job).next.value.seqNo;
            DebounceStep(Schedule(later, other).data, job, seqNo).next.None?
  {
  }
}
