/** What an edit supersedes and what a close retracts.

    An `ensures` that names its one claim in a `var` first is proved whole and not conjunct by
    conjunct. */
module ServerEdits {
  import opened Prelude
  import opened Paths
  import D = Documents
  import T = Diagnostics
  import opened Server
  import opened ServerInvariant
  import opened ServerTheorems

  // ----- Every root epoch a task carries was issued

  /** The root and epoch a task's run was scheduled under. */
  function ScheduledUnder(task: Task): Option<RootEpoch> {
    match task
    case Retracting(_, rootEpoch) => rootEpoch
    case Scheduling(job) => job.rootEpoch
    case Debouncing(job, _) => job.rootEpoch
    case WantPreflight(job) => job.rootEpoch
    case Preflight(job) => job.rootEpoch
    case WantCapture(job) => job.rootEpoch
    case Capturing(job) => job.rootEpoch
    case WantRun(job, _) => job.rootEpoch
    case WantPrepare(job, _) => job.rootEpoch
    case Preparing(job, _) => job.rootEpoch
    case Analyzing(job, _, _) => job.rootEpoch
    case WantCommit(job, _, _) => job.rootEpoch
    case Committing(job, _, _) => job.rootEpoch
    case WantPublish(job, _, _) => job.rootEpoch
    case Rechecking(job, _, _) => job.rootEpoch
    case WantMatch(job, _, _) => job.rootEpoch
    case Matching(job, _, _) => job.rootEpoch
    case Confirming(job, _) => job.rootEpoch
    case WantReconcile(job, _) => job.rootEpoch
    case Reconciling(job, _) => job.rootEpoch
    case _ => None
  }

  ghost predicate Issued(task: Task, tracker: T.Tracker) {
    && (ScheduledUnder(task).Some? ==>
          ScheduledUnder(task).value.epoch <= T.At(tracker, ScheduledUnder(task).value.root).epoch)
    && (task.Clearing? ==> forall s :: s in task.schedules ==> s.epoch <= T.At(tracker, s.root).epoch)
  }

  /** The task and any it spawns carry what was issued by then. */
  ghost predicate IssuesOnly(o: Outcome) {
    && (o.next.Some? ==> Issued(o.next.value, o.data.tracker))
    && (o.spawned.Some? ==> Issued(o.spawned.value, o.data.tracker))
  }

  lemma GrantIssues(task: Task, tracker: T.Tracker)
    requires Wants(task).Some? && Issued(task, tracker)
    ensures Issued(Granted(task), tracker)
  {
  }

  lemma NewRunIssues(task: Task, d: Data, c: Choice)
    requires Issued(task, d.tracker) && BeforeCommit(task)
    ensures IssuesOnly(RecomputeStep(task, d, c))
  {
  }

  lemma InstallingIssues(task: Task, d: Data, c: Choice)
    requires Issued(task, d.tracker) && Installs(task)
    ensures IssuesOnly(RecomputeStep(task, d, c))
  {
  }

  ghost predicate Tells(task: Task) {
    task.Confirming? || task.Reconciling? || task.Sending?
  }

  ghost predicate Installs(task: Task) {
    task.Committing? || task.Rechecking? || task.Matching?
  }

  lemma TheRestRecomputes(task: Task)
    requires Wants(task).None? && !IsEdit(task) && !IsWatch(task) && !IsRead(task)
    ensures BeforeCommit(task) || Installs(task) || Tells(task) || task.Draining?
  {
  }

  lemma TellingIssues(task: Task, d: Data, c: Choice)
    requires Issued(task, d.tracker) && Tells(task)
    ensures IssuesOnly(RecomputeStep(task, d, c))
  {
    match task
    case Confirming(job, publication) => ConfirmIssues(d, job, publication);
    case Reconciling(job, publication) => ReconcileIssues(d, job, publication);
    case Sending(publication, remaining) => SendIssues(d, publication, remaining, c.url);
  }

  lemma DrainIssues(task: Task, d: Data, c: Choice)
    requires task.Draining?
    ensures IssuesOnly(RecomputeStep(task, d, c))
  {
  }

  lemma ConfirmIssues(d: Data, job: Job, publication: Publication)
    requires Issued(Confirming(job, publication), d.tracker)
    ensures IssuesOnly(ConfirmStep(d, job, publication))
  {
  }

  lemma ReconcileIssues(d: Data, job: Job, publication: Publication)
    ensures IssuesOnly(ReconcileStep(d, job, publication))
  {
  }

  lemma SendIssues(d: Data, publication: Publication, remaining: T.Report, url: Url)
    ensures IssuesOnly(SendStep(d, publication, remaining, url))
  {
  }

  lemma BumpIssues(d: Data, edit: D.Edit, locked: bool)
    ensures IssuesOnly(BumpStep(d, edit, locked))
  {
  }

  lemma RetractIssues(d: Data, url: Url, rootEpoch: Option<RootEpoch>)
    requires Issued(Retracting(url, rootEpoch), d.tracker)
    ensures IssuesOnly(RetractStep(d, url, rootEpoch))
  {
  }

  lemma OtherEditsIssue(task: Task, d: Data, analysisFree: bool)
    requires !task.Bumping? && !task.Retracting?
    ensures IssuesOnly(EditStep(task, d, analysisFree))
  {
  }

  lemma EditIssues(task: Task, d: Data, analysisFree: bool)
    requires Issued(task, d.tracker)
    ensures IssuesOnly(EditStep(task, d, analysisFree))
  {
    if task.Bumping? {
      BumpIssues(d, task.edit, task.locked);
    } else if task.Retracting? {
      RetractIssues(d, task.url, task.rootEpoch);
    } else {
      OtherEditsIssue(task, d, analysisFree);
    }
  }

  lemma AffectIssues(d: Data, events: seq<T.Event>, open: set<Url>, locked: bool)
    ensures IssuesOnly(AffectStep(d, events, open, locked))
  {
    var pending, drain := T.PendingOf(events), if locked then T.DrainSkips else T.DrainSchedules;
    forall s | s in T.Schedules(d.tracker, pending, drain)
      ensures s.epoch <= T.At(T.TrackerAfter(d.tracker, pending, open), s.root).epoch
    {
      T.BatchSchedulesIff(d.tracker, events, open, drain, s);
    }
  }

  lemma LookIssues(task: Task, d: Data, c: Choice, analysisFree: bool)
    requires Issued(task, d.tracker) && Offers(task, c) && !task.Affecting?
    ensures IssuesOnly(WatchStep(task, d, c, analysisFree))
  {
    if task.Clearing? {
      ClearIssues(task, d, c);
    } else {
      OpenIssues(task, d, c, analysisFree);
    }
  }

  lemma ClearIssues(task: Task, d: Data, c: Choice)
    requires task.Clearing? && Issued(task, d.tracker) && Offers(task, c)
    ensures IssuesOnly(ClearStep(d, task.clears, task.schedules, c.url, c.scheduled))
  {
  }

  lemma OpenIssues(task: Task, d: Data, c: Choice, analysisFree: bool)
    requires !task.Affecting? && !task.Clearing?
    ensures IssuesOnly(WatchStep(task, d, c, analysisFree))
  {
  }

  lemma ReadIssues(task: Task, d: Data, c: Choice, analysisFree: bool)
    ensures IssuesOnly(ReadStep(task, d, c, analysisFree))
  {
  }

  lemma RecomputeIssues(task: Task, d: Data, c: Choice)
    requires Issued(task, d.tracker) && (BeforeCommit(task) || Installs(task) || Tells(task) || task.Draining?)
    ensures IssuesOnly(RecomputeStep(task, d, c))
  {
    if BeforeCommit(task) {
      NewRunIssues(task, d, c);
    } else if Installs(task) {
      InstallingIssues(task, d, c);
    } else if Tells(task) {
      TellingIssues(task, d, c);
    } else {
      DrainIssues(task, d, c);
    }
  }

  lemma OutcomeIssues(s: State, tid: Tid, c: Choice)
    requires tid in s.tasks && Issued(s.tasks[tid], s.data.tracker) && Offers(s.tasks[tid], c)
    ensures var issues := IssuesOnly(OutcomeAt(s, tid, c)); issues
  {
    var task, free := s.tasks[tid], Analysis !in s.locks;
    if Wants(task).Some? {
      GrantIssues(task, s.data.tracker);
    } else if IsEdit(task) {
      EditIssues(task, s.data, free);
    } else if task.Affecting? {
      AffectIssues(s.data, c.events, task.open, task.locked);
    } else if IsWatch(task) {
      LookIssues(task, s.data, c, free);
    } else if IsRead(task) {
      ReadIssues(task, s.data, c, free);
    } else {
      TheRestRecomputes(task);
      RecomputeIssues(task, s.data, c);
    }
  }

  ghost predicate AllIssued(s: State) {
    forall t :: t in s.tasks ==> Issued(s.tasks[t], s.data.tracker)
  }

  lemma MoveKeepsIssued(s: State, s': State, tid: Tid, o: Outcome, child: Tid)
    requires AllIssued(s) && tid in s.tasks && child !in s.tasks && IssuesOnly(o)
    requires s'.data == o.data && s'.tasks == NewTasks(s.tasks, tid, o, child)
    requires RootEpochsGrow(s.data.tracker, o.data.tracker)
    ensures AllIssued(s')
  {
    forall t | t in s'.tasks && t in s.tasks && t != tid
      ensures Issued(s.tasks[t], s'.data.tracker)
    {
      IssuedStays(s.tasks[t], s.data.tracker, o.data.tracker);
    }
  }

  lemma IssuedStays(task: Task, tracker: T.Tracker, tracker': T.Tracker)
    requires Issued(task, tracker) && RootEpochsGrow(tracker, tracker')
    ensures Issued(task, tracker')
  {
  }

  lemma StepKeepsIssued(s: State, a: Action)
    requires AllIssued(s) && Invariant(s) && Enabled(s, a)
    ensures var issued := AllIssued(Do(s, a)); issued
  {
    match a
    case Arrive(_, task) => assert ScheduledUnder(task).None? && !task.Clearing?;
    case Act(tid, c, child) =>
      OutcomeIssues(s, tid, c);
      StepGrows(s, a);
      MoveKeepsIssued(s, Do(s, a), tid, OutcomeAt(s, tid, c), child);
  }

  lemma {:induction false} EveryEpochWasIssued(states: seq<State>, actions: seq<Action>, n: nat)
    requires IsRun(states, actions) && n < |states|
    ensures var issued := AllIssued(states[n]); issued
  {
    if n > 0 {
      EveryEpochWasIssued(states, actions, n - 1);
      EveryReachableStateIsGood(states, actions, n - 1);
      StepKeepsIssued(states[n - 1], actions[n - 1]);
    }
  }

  // ----- What an edit supersedes

  /** The root an edited path lies under: the project's, with the workspace in hand and the path inside,
      otherwise the deepest tracked one above it. */
  ghost predicate IsRootOf(root: Option<Path>, d: Data, path: Path, locked: bool) {
    if locked && d.ws.project.Some? && Under(path, d.ws.project.value.root)
    then root == Some(d.ws.project.value.root)
    else T.IsDeepestRoot(d.tracker, path, root)
  }

  lemma EditRootIs(d: Data, edit: D.Edit, locked: bool, path: Path)
    requires edit.url == FileUrl(path)
    ensures IsRootOf(EditRoot(d, edit, locked), d, path, locked)
  {
    T.DeepestRootIsDeepest(d.tracker, path, |path|);
  }

  /** The edit gives its root, and no other, the next epoch, and its own run carries that; a run of
      unknown root carries none. A close also stops tracking the URL under that root, and nothing else. */
  lemma EditBumpsItsRoot(d: Data, edit: D.Edit, locked: bool, path: Path, root: Option<Path>)
    requires edit.url == FileUrl(path) && IsRootOf(root, d, path, locked)
    ensures root == EditRoot(d, edit, locked)
    ensures var o := BumpStep(d, edit, locked);
      && (forall r :: T.At(o.data.tracker, r).epoch == T.At(d.tracker, r).epoch + if root == Some(r) then 1 else 0)
      && (forall r :: T.At(o.data.tracker, r).nonEmpty ==
            T.At(d.tracker, r).nonEmpty - if edit.Closed? && root == Some(r) then {edit.url} else {})
      && o.data == d.(tracker := o.data.tracker)
      && o.next.Some?
      && ScheduledUnder(o.next.value) ==
           if root.Some? then Some(RootEpoch(root.value, T.At(o.data.tracker, root.value).epoch)) else None
  {
    RootIs(d, edit, locked, path, root);
  }

  lemma RootIs(d: Data, edit: D.Edit, locked: bool, path: Path, root: Option<Path>)
    requires edit.url == FileUrl(path) && IsRootOf(root, d, path, locked)
    ensures root == EditRoot(d, edit, locked)
  {
    EditRootIs(d, edit, locked, path);
    if !(locked && d.ws.project.Some? && Under(path, d.ws.project.value.root)) {
      T.DeepestRootIsUnique(d.tracker, path, root, EditRoot(d, edit, locked));
    }
  }

  lemma BumpingRuns(s: State, a: Action)
    requires Enabled(s, a) && a.Act? && s.tasks[a.tid].Bumping?
    ensures Do(s, a).data == BumpStep(s.data, s.tasks[a.tid].edit, s.tasks[a.tid].locked).data
  {
  }

  /** An edit supersedes every run scheduled for its root before: each carries an epoch the root has now
      left, and so publishes nothing if it is of that root. */
  lemma EditSupersedesEarlierRuns(states: seq<State>, actions: seq<Action>, i: nat, tid: Tid, path: Path, root: Path, t: Tid)
    requires IsRun(states, actions) && i < |actions| && actions[i].Act? && actions[i].tid == tid
    requires tid in states[i].tasks && states[i].tasks[tid].Bumping? && states[i].tasks[tid].edit.url == FileUrl(path)
    requires IsRootOf(Some(root), states[i].data, path, states[i].tasks[tid].locked)
    requires t in states[i].tasks && t != tid
    requires ScheduledUnder(states[i].tasks[t]).Some? && ScheduledUnder(states[i].tasks[t]).value.root == root
    ensures ScheduledUnder(states[i].tasks[t]).value.epoch < T.At(states[i + 1].data.tracker, root).epoch
  {
    EveryEpochWasIssued(states, actions, i);
    EditBumpsItsRoot(states[i].data, states[i].tasks[tid].edit, states[i].tasks[tid].locked, path, Some(root));
    BumpingRuns(states[i], actions[i]);
    assert Issued(states[i].tasks[t], states[i].data.tracker);
  }

  /** A run superseded before it starts ends there and then; one that is not goes on. */
  lemma SupersededRunsNeverStart(s: State, a: Action)
    requires Enabled(s, a) && a.Act? && s.tasks[a.tid].Preflight? && s.tasks[a.tid].job.rootEpoch.Some?
    ensures var (job, s') := (s.tasks[a.tid].job, Do(s, a));
      && s'.data == s.data
      && s'.tasks == if job.rootEpoch.value.epoch == T.At(s.data.tracker, job.rootEpoch.value.root).epoch
                     then s.tasks[a.tid := WantCapture(job)] else s.tasks - {a.tid}
  {
  }

  lemma ScheduledRunsCheckFirst(s: State, a: Action)
    requires Enabled(s, a) && a.Act? && s.tasks[a.tid].Debouncing? && s.tasks[a.tid].job.rootEpoch.Some?
    ensures Do(s, a).tasks == s.tasks[a.tid := WantPreflight(s.tasks[a.tid].job)] && Do(s, a).data == s.data
  {
  }

  // ----- What a close retracts

  /** Once a closed document's handler lets go of the publish lock the client shows no problem for it, and
      for other URLs what it showed before. */
  lemma CloseRetracts(d: Data, url: Url, rootEpoch: Option<RootEpoch>)
    ensures var d' := RetractStep(d, url, rootEpoch).data;
      && url in d'.client && d'.client[url] == []
      && (forall other :: other != url ==>
            (other in d'.client <==> other in d.client) && (other in d.client ==> d'.client[other] == d.client[other]))
      && d'.tracker == d.tracker
  {
  }
}
