/** What the server promises, for every interleaving of edits, closes, watcher events, recomputes
    and reads.

    An `ensures` that names its one claim in a `var` first is proved whole and not conjunct by
    conjunct. */
module ServerTheorems {
  import opened Prelude
  import opened Paths
  import D = Documents
  import C = CatalogBinding
  import W = Workspace
  import T = Diagnostics
  import opened Server
  import opened ServerInvariant

  // ----- What only grows along a run

  ghost predicate Grows(d: Data, d': Data) {
    && d.log <= d'.log
    && d.ws.epoch <= d'.ws.epoch
    && RootEpochsGrow(d.tracker, d'.tracker)
  }

  /** No root is ever taken back to an older epoch. */
  ghost predicate RootEpochsGrow(tracker: T.Tracker, tracker': T.Tracker) {
    forall root :: T.At(tracker, root).epoch <= T.At(tracker', root).epoch
  }

  lemma RecomputeKeepsRootEpochs(task: Task, d: Data, c: Choice)
    ensures RootEpochsGrow(d.tracker, RecomputeStep(task, d, c).data.tracker)
  {
    if BeforeCommit(task) {
      NothingTrackedBeforeCommit(task, d, c);
    } else if !task.Reconciling? {
      OnlyReconcilingTracks(task, d, c);
    }
  }

  lemma NothingTrackedBeforeCommit(task: Task, d: Data, c: Choice)
    requires BeforeCommit(task)
    ensures RecomputeStep(task, d, c).data.tracker == d.tracker
  {
  }

  lemma OnlyReconcilingTracks(task: Task, d: Data, c: Choice)
    requires !BeforeCommit(task) && !task.Reconciling?
    ensures RecomputeStep(task, d, c).data.tracker == d.tracker
  {
    if task.Committing? || task.Rechecking? || task.Matching? {
      InstallingTracksNothing(task, d, c);
    } else {
      TellingTracksNothing(task, d, c);
    }
  }

  lemma InstallingTracksNothing(task: Task, d: Data, c: Choice)
    requires task.Committing? || task.Rechecking? || task.Matching?
    ensures RecomputeStep(task, d, c).data.tracker == d.tracker
  {
  }

  lemma TellingTracksNothing(task: Task, d: Data, c: Choice)
    requires !BeforeCommit(task) && !task.Reconciling?
    requires !task.Committing? && !task.Rechecking? && !task.Matching?
    ensures RecomputeStep(task, d, c).data.tracker == d.tracker
  {
  }

  lemma EditKeepsRootEpochs(task: Task, d: Data, analysisFree: bool)
    ensures RootEpochsGrow(d.tracker, EditStep(task, d, analysisFree).data.tracker)
  {
  }

  lemma WatchKeepsRootEpochs(task: Task, d: Data, c: Choice, analysisFree: bool)
    ensures RootEpochsGrow(d.tracker, WatchStep(task, d, c, analysisFree).data.tracker)
  {
  }

  lemma ReadKeepsRootEpochs(task: Task, d: Data, c: Choice, analysisFree: bool)
    ensures ReadStep(task, d, c, analysisFree).data.tracker == d.tracker
  {
  }

  lemma BodyKeepsRootEpochs(task: Task, d: Data, c: Choice, analysisFree: bool)
    ensures var grow := RootEpochsGrow(d.tracker, Body(task, d, c, analysisFree).data.tracker); grow
  {
    RecomputeKeepsRootEpochs(task, d, c);
    EditKeepsRootEpochs(task, d, analysisFree);
    WatchKeepsRootEpochs(task, d, c, analysisFree);
    ReadKeepsRootEpochs(task, d, c, analysisFree);
  }

  lemma StepGrows(s: State, a: Action)
    requires Invariant(s) && Enabled(s, a)
    ensures var grows := Grows(s.data, Do(s, a).data); grows
  {
    match a
    case Arrive(_, _) =>
    case Act(tid, c, _) =>
      OutcomeIsSound(s, tid, c);
      if Wants(s.tasks[tid]).None? {
        BodyKeepsRootEpochs(s.tasks[tid], s.data, c, Analysis !in s.locks);
      }
  }

  lemma {:induction false} RunGrows(states: seq<State>, actions: seq<Action>, i: nat, n: nat)
    requires IsRun(states, actions) && i <= n < |states|
    ensures Grows(states[i].data, states[n].data)
    decreases n
  {
    if i < n {
      RunGrows(states, actions, i, n - 1);
      EveryReachableStateIsGood(states, actions, n - 1);
      StepGrows(states[n - 1], actions[n - 1]);
    }
  }

  // ----- Publication

  /** What overlaying the buffers gives is their very texts. */
  lemma PresentSources(root: Path, documents: D.Buffers)
    ensures W.OfBuffers(W.Overlay(root, D.FileBuffers(documents)), root, documents)
  {
    W.OverlayIsOfBuffers(root, D.FileBuffers(documents));
  }

  /** The inputs of the analysis a task stands on. */
  function InputsOf(task: Task): Option<W.Prepared> {
    match task
    case Analyzing(_, _, prepared) => Some(prepared)
    case WantCommit(_, _, snapshot) => Some(snapshot.inputs)
    case Committing(_, _, snapshot) => Some(snapshot.inputs)
    case WantPublish(_, _, snapshot) => Some(snapshot.inputs)
    case Rechecking(_, _, snapshot) => Some(snapshot.inputs)
    case WantMatch(_, _, snapshot) => Some(snapshot.inputs)
    case Matching(_, _, snapshot) => Some(snapshot.inputs)
    case Confirming(_, publication) => Some(publication.snapshot.inputs)
    case WantReconcile(_, publication) => Some(publication.snapshot.inputs)
    case Reconciling(_, publication) => Some(publication.snapshot.inputs)
    case Sending(publication, _) => Some(publication.snapshot.inputs)
    case _ => None
  }

  predicate SameInputs(task: Task, next: Option<Task>) {
    next.Some? && InputsOf(next.value).Some? ==>
      InputsOf(next.value) == InputsOf(task) || (task.Preparing? && next.value.Analyzing?)
  }

  lemma GrantKeepsInputs(task: Task)
    requires Wants(task).Some?
    ensures SameInputs(task, Some(Granted(task)))
  {
  }

  lemma RecomputeKeepsInputs(task: Task, d: Data, c: Choice)
    requires TaskOk(task, d)
    ensures SameInputs(task, RecomputeStep(task, d, c).next)
  {
    if task.Analyzing? || task.Committing? || task.Rechecking? {
      AnalysisKeepsInputs(task, d, c);
    } else if task.Matching? {
      MatchKeepsInputs(task.job, task.capture, task.snapshot, d);
    } else {
      PublicationKeepsInputs(task, d, c);
    }
  }

  lemma AnalysisKeepsInputs(task: Task, d: Data, c: Choice)
    requires task.Analyzing? || task.Committing? || task.Rechecking?
    ensures SameInputs(task, RecomputeStep(task, d, c).next)
  {
  }

  lemma MatchKeepsInputs(job: Job, capture: D.Capture, snapshot: W.Snapshot, d: Data)
    requires Installed(snapshot, d)
    ensures SameInputs(Matching(job, capture, snapshot), MatchStep(d, job, capture).next)
  {
  }

  lemma PublicationKeepsInputs(task: Task, d: Data, c: Choice)
    requires !task.Analyzing? && !task.Committing? && !task.Rechecking? && !task.Matching?
    ensures SameInputs(task, RecomputeStep(task, d, c).next)
  {
  }

  lemma EditsHaveNoInputs(task: Task, d: Data, analysisFree: bool)
    ensures SameInputs(task, EditStep(task, d, analysisFree).next)
  {
  }

  lemma WatchersHaveNoInputs(task: Task, d: Data, c: Choice, analysisFree: bool)
    ensures SameInputs(task, WatchStep(task, d, c, analysisFree).next)
  {
  }

  lemma ReadersHaveNoInputs(task: Task, d: Data, c: Choice, analysisFree: bool)
    ensures SameInputs(task, ReadStep(task, d, c, analysisFree).next)
  {
  }

  lemma OutcomeKeepsInputs(s: State, tid: Tid, c: Choice)
    requires tid in s.tasks && TaskOk(s.tasks[tid], s.data)
    ensures SameInputs(s.tasks[tid], OutcomeAt(s, tid, c).next)
  {
    var task, free := s.tasks[tid], Analysis !in s.locks;
    if Wants(task).Some? {
      GrantKeepsInputs(task);
    } else {
      RecomputeKeepsInputs(task, s.data, c);
      EditsHaveNoInputs(task, s.data, free);
      WatchersHaveNoInputs(task, s.data, c, free);
      ReadersHaveNoInputs(task, s.data, c, free);
    }
  }

  predicate StandsOn(s: State, tid: Tid, inputs: W.Prepared) {
    tid in s.tasks && InputsOf(s.tasks[tid]) == Some(inputs)
  }

  /** The task's preparation step. */
  predicate PreparesNow(s: State, s': State, tid: Tid, inputs: W.Prepared) {
    && tid in s.tasks && s.tasks[tid].Preparing?
    && tid in s'.tasks && s'.tasks[tid].Analyzing? && s'.tasks[tid].prepared == inputs
  }

  /** One step as far as inputs go: a newcomer without any, or a task that keeps its own and may spawn
      a run without any. */
  ghost predicate KeepsInputs(s: State, s': State) {
    || (exists tid: Tid, task :: tid !in s.tasks && InputsOf(task).None? && s'.tasks == s.tasks[tid := task])
    || (exists tid, o, child :: MovesWithInputs(s, s', tid, o, child))
  }

  ghost predicate MovesWithInputs(s: State, s': State, tid: Tid, o: Outcome, child: Tid) {
    && tid in s.tasks && child !in s.tasks && s'.tasks == NewTasks(s.tasks, tid, o, child)
    && SameInputs(s.tasks[tid], o.next)
    && (o.spawned.Some? ==> InputsOf(o.spawned.value).None?)
  }

  lemma InputsComeFrom(s: State, s': State, tid: Tid, inputs: W.Prepared)
    requires KeepsInputs(s, s') && StandsOn(s', tid, inputs)
    ensures StandsOn(s, tid, inputs) || PreparesNow(s, s', tid, inputs)
  {
  }

  lemma StepKeepsInputs(states: seq<State>, actions: seq<Action>, n: nat)
    requires IsRun(states, actions) && n < |actions|
    ensures KeepsInputs(states[n], states[n + 1])
  {
    var s, a := states[n], actions[n];
    match a
    case Arrive(tid, task) => assert InputsOf(task).None?;
    case Act(tid, c, child) =>
      EveryReachableStateIsGood(states, actions, n);
      assert TaskOk(s.tasks[tid], s.data);
      OutcomeKeepsInputs(s, tid, c);
      SpawnsOnlyRuns(s, tid, c);
      assert MovesWithInputs(s, states[n + 1], tid, OutcomeAt(s, tid, c), child);
  }

  lemma SpawnsOnlyRuns(s: State, tid: Tid, c: Choice)
    requires tid in s.tasks
    ensures var spawned := OutcomeAt(s, tid, c).spawned; spawned.Some? ==> spawned.value.Debouncing?
  {
    BodyAddsOnlyAnalysis(s.tasks[tid], s.data, c, Analysis !in s.locks);
  }

  /** Follow a task's inputs back to the step that prepared them. */
  lemma {:induction false} InputsTraceBack(states: seq<State>, n: nat, tid: Tid, inputs: W.Prepared) returns (i: nat)
    requires n < |states| && states[0].tasks == map[] && StandsOn(states[n], tid, inputs)
    requires forall k :: 0 < k <= n ==> KeepsInputs(states[k - 1], states[k])
    ensures 0 < i <= n && PreparesNow(states[i - 1], states[i], tid, inputs)
    decreases n
  {
    InputsComeFrom(states[n - 1], states[n], tid, inputs);
    if StandsOn(states[n - 1], tid, inputs) {
      i := InputsTraceBack(states, n - 1, tid, inputs);
    } else {
      i := n;
    }
  }

  /** Every analysis a task stands on was prepared by that task, in one step of this run. */
  lemma WasPrepared(states: seq<State>, actions: seq<Action>, n: nat, tid: Tid, inputs: W.Prepared) returns (i: nat)
    requires IsRun(states, actions) && n < |states| && StandsOn(states[n], tid, inputs)
    ensures 0 < i <= n && PreparesNow(states[i - 1], states[i], tid, inputs)
  {
    forall k | 0 < k <= n
      ensures KeepsInputs(states[k - 1], states[k])
    {
      StepKeepsInputs(states, actions, k - 1);
    }
    i := InputsTraceBack(states, n, tid, inputs);
  }

  /** Whatever is being published was analysed from exactly the buffers open at this moment; no
      invalidation is pending, and none was applied since the run prepared its inputs at `i`. */
  lemma PublishedDiagnosticsAreOfThePresent(states: seq<State>, actions: seq<Action>, n: nat, tid: Tid) returns (i: nat)
    requires IsRun(states, actions) && n < |states| && tid in states[n].tasks && states[n].tasks[tid].Sending?
    ensures var now, p := states[n].data, states[n].tasks[tid].publication;
            && W.OfBuffers(p.snapshot.inputs.sources, p.root, now.store.documents)
            && now.pending == W.NO_BITS
    ensures 0 < i <= n && PreparesNow(states[i - 1], states[i], tid, states[n].tasks[tid].publication.snapshot.inputs)
    ensures forall j :: i <= j <= n ==>
              states[j].data.ws.epoch == states[n].tasks[tid].publication.snapshot.inputs.epoch
  {
    var inputs := states[n].tasks[tid].publication.snapshot.inputs;
    EveryReachableStateIsGood(states, actions, n);
    PublicationIsPresent(states[n], tid);
    i := WasPrepared(states, actions, n, tid, inputs);
    EveryReachableStateIsGood(states, actions, i);
    AnalyzingFacts(states[i], tid);
    EpochStands(states, actions, i, n);
  }

  lemma PublicationIsPresent(s: State, tid: Tid)
    requires Invariant(s) && tid in s.tasks && s.tasks[tid].Sending?
    ensures var p := s.tasks[tid].publication;
            && W.OfBuffers(p.snapshot.inputs.sources, p.root, s.data.store.documents)
            && p.snapshot.inputs.epoch == s.data.ws.epoch && s.data.pending == W.NO_BITS
  {
    SendingFacts(s, tid);
    PresentSources(s.tasks[tid].publication.root, s.data.store.documents);
  }

  lemma EpochStands(states: seq<State>, actions: seq<Action>, i: nat, n: nat)
    requires IsRun(states, actions) && i <= n < |states| && states[n].data.ws.epoch <= states[i].data.ws.epoch
    ensures forall j :: i <= j <= n ==> states[j].data.ws.epoch == states[n].data.ws.epoch
  {
    forall j | i <= j <= n
      ensures states[j].data.ws.epoch == states[n].data.ws.epoch
    {
      RunGrows(states, actions, i, j);
      RunGrows(states, actions, j, n);
    }
  }

  lemma SendingFacts(s: State, tid: Tid)
    requires Invariant(s) && tid in s.tasks && s.tasks[tid].Sending?
    ensures SendingOk(s.tasks[tid].publication, s.tasks[tid].remaining, s.data) && StoreMatchesLog(s.data)
  {
    assert TaskOk(s.tasks[tid], s.data);
  }

  lemma AnalyzingFacts(s: State, tid: Tid)
    requires Invariant(s) && tid in s.tasks && s.tasks[tid].Analyzing?
    ensures InputsOk(s.tasks[tid].prepared, s.tasks[tid].capture, s.data)
  {
    assert TaskOk(s.tasks[tid], s.data);
  }

  /** A file the run has something to say about: one the checker reported on, or an open one that
      belongs to the project. */
  ghost predicate SpokenOf(p: Publication, path: Path) {
    || T.Reported(p.snapshot.report, path)
    || (FileUrl(path) in p.capture.buffers
        && var project := W.Project(p.root, p.snapshot.inputs.config);
           W.BelowSources(path, project) || W.BelowTests(path, project))
  }

  lemma ReportSpeaks(p: Publication, d: Data)
    requires PublicationOk(p, d)
    ensures forall url :: url in p.report ==> url.FileUrl? && p.report[url] == T.MessagesFor(p.snapshot.report, url.path)
    ensures forall path :: FileUrl(path) in p.report <==> SpokenOf(p, path)
  {
    forall url | url in p.report
      ensures url.FileUrl? && p.report[url] == T.MessagesFor(p.snapshot.report, url.path)
    {
      T.NoProblemsNoMessages(p.snapshot.report, []);
    }
    forall path
      ensures FileUrl(path) in p.report <==> SpokenOf(p, path)
    {
      T.NoProblemsNoMessages(p.snapshot.report, path);
      W.BelongsIff(W.Project(p.root, p.snapshot.inputs.config), path);
      assert FileUrl(path).path == path;
    }
  }

  /** What the client shows for a file is what the checker reported in it. */
  ghost predicate ShowsReport(client: T.Report, p: Publication, path: Path) {
    FileUrl(path) in client && client[FileUrl(path)] == T.MessagesFor(p.snapshot.report, path)
  }

  /** Every set still to be sent is what the checker reported in that file, and so it is for every file
      the run speaks of that has been sent: every one reported on, and every open one that belongs to
      the project. */
  lemma ClientReceivesExactlyTheReport(states: seq<State>, actions: seq<Action>, n: nat, tid: Tid)
    requires IsRun(states, actions) && n < |states|
    requires tid in states[n].tasks && states[n].tasks[tid].Sending?
    ensures var d, p, remaining := states[n].data, states[n].tasks[tid].publication, states[n].tasks[tid].remaining;
            && (forall url :: url in remaining ==>
                  remaining[url] == if url.FileUrl? then T.MessagesFor(p.snapshot.report, url.path) else [])
            && (forall path :: SpokenOf(p, path) && FileUrl(path) !in remaining ==> ShowsReport(d.client, p, path))
            && p.capture.buffers == D.FileBuffers(d.store.documents)
  {
    EveryReachableStateIsGood(states, actions, n);
    SendingFacts(states[n], tid);
    SentIsReported(states[n].tasks[tid].publication, states[n].tasks[tid].remaining, states[n].data);
  }

  /** And a publishing run changes nothing the client shows but to what the checker reported there. */
  lemma EachSetSentIsTheReport(states: seq<State>, actions: seq<Action>, n: nat, tid: Tid, url: Url)
    requires IsRun(states, actions) && n < |actions| && actions[n].Act? && actions[n].tid == tid
    requires tid in states[n].tasks && states[n].tasks[tid].Sending?
    ensures var client, client' := states[n].data.client, states[n + 1].data.client;
            && (url in client ==> url in client')
            && (url in client' && !(url in client && client'[url] == client[url]) ==>
                  client'[url] == if url.FileUrl?
                                  then T.MessagesFor(states[n].tasks[tid].publication.snapshot.report, url.path) else [])
  {
    ClientReceivesExactlyTheReport(states, actions, n, tid);
    SendingSends(states[n], actions[n]);
  }

  lemma SendingSends(s: State, a: Action)
    requires Enabled(s, a) && a.Act? && s.tasks[a.tid].Sending?
    ensures var (task, url) := (s.tasks[a.tid], a.choice.url);
            Do(s, a).data.client ==
              if url in task.remaining then s.data.client[url := task.remaining[url]] else s.data.client
  {
  }

  lemma SentIsReported(p: Publication, remaining: T.Report, d: Data)
    requires SendingOk(p, remaining, d) && StoreMatchesLog(d)
    ensures forall url :: url in remaining ==>
              remaining[url] == if url.FileUrl? then T.MessagesFor(p.snapshot.report, url.path) else []
    ensures forall path :: SpokenOf(p, path) && FileUrl(path) !in remaining ==> ShowsReport(d.client, p, path)
    ensures p.capture.buffers == D.FileBuffers(d.store.documents)
  {
    ReportSpeaks(p, d);
    forall url | url in remaining && url !in p.report && url.FileUrl?
      ensures T.MessagesFor(p.snapshot.report, url.path) == []
    {
      T.NoProblemsNoMessages(p.snapshot.report, url.path);
      assert FileUrl(url.path) == url;
    }
  }

  /** A file the run was to check: any, unless tests were left out and it is none of those analysed. */
  predicate Covered(p: Publication, path: Path) {
    p.snapshot.inputs.sourceOnly ==> exists i :: 0 <= i < |p.snapshot.files| && p.snapshot.files[i].path == path
  }

  lemma ScopeCovers(p: Publication, d: Data, path: Path)
    requires PublicationOk(p, d)
    ensures p.scope.Covers(FileUrl(path)) <==> Covered(p, path)
  {
    assert FileUrl(path).path == path;
  }

  /** While a run publishes, its root tracks every file with a problem, and of the files it was to check
      no other. */
  lemma TrackerHoldsExactlyTheReport(states: seq<State>, actions: seq<Action>, n: nat, tid: Tid, path: Path)
    requires IsRun(states, actions) && n < |states|
    requires tid in states[n].tasks && states[n].tasks[tid].Sending?
    ensures var p := states[n].tasks[tid].publication;
            var tracked := FileUrl(path) in T.At(states[n].data.tracker, p.root).nonEmpty;
            && (T.Reported(p.snapshot.report, path) ==> tracked)
            && (Covered(p, path) && tracked ==> T.Reported(p.snapshot.report, path))
  {
    EveryReachableStateIsGood(states, actions, n);
    SendingFacts(states[n], tid);
    var p := states[n].tasks[tid].publication;
    ReportSpeaks(p, states[n].data);
    ScopeCovers(p, states[n].data, path);
    T.NoProblemsNoMessages(p.snapshot.report, path);
  }

  /** The pending check made after the analysis lock is released can never find anything: its
      branch is dead. */
  lemma LateInvalidationIsNeverFound(states: seq<State>, actions: seq<Action>, n: nat, tid: Tid)
    requires IsRun(states, actions) && n < |states| && tid in states[n].tasks
    ensures states[n].tasks[tid].Confirming? ==> states[n].data.pending == W.NO_BITS
    ensures !states[n].tasks[tid].WantDrain? && !states[n].tasks[tid].Draining?
  {
    EveryReachableStateIsGood(states, actions, n);
    assert TaskOk(states[n].tasks[tid], states[n].data);
  }

  /** The project and snapshot a publishing run takes for granted are there: they are the ones it
      has just installed. */
  lemma PublishingRunFindsItsOwnAnalysis(states: seq<State>, actions: seq<Action>, n: nat, tid: Tid)
    requires IsRun(states, actions) && n < |states| && tid in states[n].tasks
    requires states[n].tasks[tid].Matching?
    ensures var d, snapshot := states[n].data, states[n].tasks[tid].snapshot;
            && d.ws.latest == Some(snapshot)
            && d.ws.project == Some(W.Project(snapshot.inputs.root, snapshot.inputs.config))
  {
    EveryReachableStateIsGood(states, actions, n);
    assert TaskOk(states[n].tasks[tid], states[n].data);
  }

  // ----- Tracker and client

  /** With the publish lock free, every URL the client shows problems for is tracked by a root. */
  lemma ShownDiagnosticsAreTracked(states: seq<State>, actions: seq<Action>, n: nat, url: Url)
    requires IsRun(states, actions) && n < |states|
    requires Publish !in states[n].locks && T.Shows(states[n].data.client, url)
    ensures T.Tracked(states[n].data.tracker, url)
  {
    EveryReachableStateIsGood(states, actions, n);
  }

  /** A run scheduled under an epoch its own root has since left publishes nothing and changes
      nothing. */
  lemma SupersededRunsChangeNothing(states: seq<State>, actions: seq<Action>, i: nat, n: nat, tid: Tid, c: Choice, child: Tid)
    requires IsRun(states, actions) && i <= n < |states|
    requires Enabled(states[n], Act(tid, c, child)) && states[n].tasks[tid].Reconciling?
    requires var task := states[n].tasks[tid];
             && task.job.rootEpoch.Some? && task.job.rootEpoch.value.root == task.publication.root
             && task.job.rootEpoch.value.epoch < T.At(states[i].data.tracker, task.publication.root).epoch
    ensures var s' := Do(states[n], Act(tid, c, child));
            s'.data == states[n].data && s'.tasks == states[n].tasks - {tid}
  {
    RunGrows(states, actions, i, n);
  }

  /** A run that is publishing, and what. */
  predicate Publishes(task: Task, p: Publication) {
    (task.Reconciling? || task.Sending?) && task.publication == p
  }

  /** The same for the client and under every root. */
  ghost predicate Untouched(d: Data, d': Data, url: Url) {
    && (url in d.client <==> url in d'.client)
    && (url in d.client ==> d'.client[url] == d.client[url])
    && SameTracking(d.tracker, d'.tracker, url)
  }

  ghost predicate SameTracking(tracker: T.Tracker, tracker': T.Tracker, url: Url) {
    forall root :: url in T.At(tracker, root).nonEmpty <==> url in T.At(tracker', root).nonEmpty
  }

  lemma ReconcileLeavesTheRest(d: Data, job: Job, p: Publication, url: Url)
    requires url !in p.report && !p.scope.Covers(url)
    ensures Untouched(d, ReconcileStep(d, job, p).data, url)
  {
    T.SourceOnlyLeavesTheRestUntouched(d.tracker, d.client, p.root, p.scope.analyzed, p.report, url);
  }

  lemma SendLeavesTheRest(d: Data, p: Publication, remaining: T.Report, sent: Url, url: Url)
    requires sent in remaining ==> sent != url
    ensures Untouched(d, SendStep(d, p, remaining, sent).data, url)
  {
  }

  lemma PublisherLeavesTheRest(task: Task, d: Data, c: Choice, p: Publication, url: Url)
    requires TaskOk(task, d) && Publishes(task, p)
    requires url !in p.report && !p.scope.Covers(url)
    ensures Untouched(d, RecomputeStep(task, d, c).data, url)
  {
    match task
    case Reconciling(job, _) => ReconcileLeavesTheRest(d, job, p, url);
    case Sending(_, remaining) => SendLeavesTheRest(d, p, remaining, c.url, url);
  }

  /** While one run holds the publish lock, no other task touches tracker or client. */
  lemma OthersLeaveEverything(s: State, tid: Tid, a: Action)
    requires Invariant(s) && Enabled(s, a) && tid in s.tasks && Publish in Held(s.tasks[tid])
    requires a.Act? ==> a.tid != tid
    ensures Do(s, a).data.tracker == s.data.tracker && Do(s, a).data.client == s.data.client
  {
    if a.Act? {
      StepTakesOnlyFree(s, a.tid, a.choice);
      OutcomeIsSound(s, a.tid, a.choice);
      OthersAreDisjoint(s, a.tid, tid, OutcomeAt(s, a.tid, a.choice));
    }
  }

  /** One step of a publishing run, or of anyone else meanwhile. */
  lemma StepLeavesTheRest(s: State, a: Action, tid: Tid, p: Publication, url: Url)
    requires Invariant(s) && Enabled(s, a) && tid in s.tasks && Publishes(s.tasks[tid], p)
    requires url !in p.report && !p.scope.Covers(url)
    ensures var untouched := Untouched(s.data, Do(s, a).data, url); untouched
  {
    if a.Act? && a.tid == tid {
      assert TaskOk(s.tasks[tid], s.data);
      OwnStepLeavesTheRest(s, a, p, url);
    } else {
      OthersLeaveEverything(s, tid, a);
      SameIsUntouched(s.data, Do(s, a).data, url);
    }
  }

  lemma SameIsUntouched(d: Data, d': Data, url: Url)
    requires d'.tracker == d.tracker && d'.client == d.client
    ensures Untouched(d, d', url)
  {
  }

  lemma OwnStepLeavesTheRest(s: State, a: Action, p: Publication, url: Url)
    requires Enabled(s, a) && a.Act? && Publishes(s.tasks[a.tid], p) && TaskOk(s.tasks[a.tid], s.data)
    requires url !in p.report && !p.scope.Covers(url)
    ensures Untouched(s.data, Do(s, a).data, url)
  {
    PublisherLeavesTheRest(s.tasks[a.tid], s.data, a.choice, p, url);
    RunsRecompute(s, a, p);
  }

  lemma RunsRecompute(s: State, a: Action, p: Publication)
    requires Enabled(s, a) && a.Act? && Publishes(s.tasks[a.tid], p)
    ensures Do(s, a).data == RecomputeStep(s.tasks[a.tid], s.data, a.choice).data
  {
  }

  lemma {:induction false} UntouchedThroughout(states: seq<State>, i: nat, n: nat, url: Url)
    requires i <= n < |states|
    requires forall k :: i < k <= n ==> Untouched(states[k - 1].data, states[k].data, url)
    ensures Untouched(states[i].data, states[n].data, url)
    decreases n
  {
    if i < n {
      UntouchedThroughout(states, i, n - 1, url);
    }
  }

  lemma AsideOfReport(p: Publication, d: Data, url: Url)
    requires PublicationOk(p, d)
    requires url.FileUrl? ==> !SpokenOf(p, url.path) && !Covered(p, url.path)
    requires url.OtherUrl? ==> p.snapshot.inputs.sourceOnly
    ensures url !in p.report && !p.scope.Covers(url)
  {
    ReportSpeaks(p, d);
    if url.FileUrl? {
      ScopeCovers(p, d, url.path);
      assert FileUrl(url.path) == url;
    }
  }

  /** From the moment a source-only run reconciles, through every set it sends and at its end, a file
      it neither analysed nor reported keeps its place in the tracker under every root and what the
      client shows for it, whatever else happens meanwhile. */
  lemma SourceOnlyRunsLeaveTheRestUntouched(
    states: seq<State>, actions: seq<Action>, i: nat, n: nat, tid: Tid, p: Publication, path: Path)
    requires IsRun(states, actions) && i < n < |states|
    requires forall k :: i <= k < n ==> tid in states[k].tasks && Publishes(states[k].tasks[tid], p)
    requires !SpokenOf(p, path) && !Covered(p, path)
    ensures Untouched(states[i].data, states[n].data, FileUrl(path))
  {
    PublisherIsOk(states, actions, i, tid, p);
    AsideOfReport(p, states[i].data, FileUrl(path));
    RestIsUntouched(states, actions, i, n, tid, p, FileUrl(path));
  }

  lemma PublisherIsOk(states: seq<State>, actions: seq<Action>, i: nat, tid: Tid, p: Publication)
    requires IsRun(states, actions) && i < |states| && tid in states[i].tasks && Publishes(states[i].tasks[tid], p)
    ensures PublicationOk(p, states[i].data)
  {
    EveryReachableStateIsGood(states, actions, i);
    assert TaskOk(states[i].tasks[tid], states[i].data);
  }

  lemma RunLeavesTheRest(states: seq<State>, actions: seq<Action>, k: nat, tid: Tid, p: Publication, url: Url)
    requires IsRun(states, actions) && k < |actions| && tid in states[k].tasks && Publishes(states[k].tasks[tid], p)
    requires url !in p.report && !p.scope.Covers(url)
    ensures var untouched := Untouched(states[k].data, states[k + 1].data, url); untouched
  {
    EveryReachableStateIsGood(states, actions, k);
    StepLeavesTheRest(states[k], actions[k], tid, p, url);
  }

  lemma RestIsUntouched(states: seq<State>, actions: seq<Action>, i: nat, n: nat, tid: Tid, p: Publication, url: Url)
    requires IsRun(states, actions) && i <= n < |states|
    requires forall k :: i <= k < n ==> tid in states[k].tasks && Publishes(states[k].tasks[tid], p)
    requires url !in p.report && !p.scope.Covers(url)
    ensures Untouched(states[i].data, states[n].data, url)
  {
    forall k | i < k <= n
      ensures Untouched(states[k - 1].data, states[k].data, url)
    {
      RunLeavesTheRest(states, actions, k - 1, tid, p, url);
    }
    UntouchedThroughout(states, i, n, url);
  }

  // ----- Reads

  /** The analysis a read treats as current is of exactly the buffers it captured, whenever in the
      run it captured them. */
  lemma FreshAnalysisIsOfTheCapturedBuffers(states: seq<State>, actions: seq<Action>, i: nat, n: nat)
    requires IsRun(states, actions) && i <= n < |states|
    ensures var capture := D.CaptureOf(states[i].data.store);
            var current := W.FreshLatest(states[n].data.ws, capture);
            current.Some? ==>
              && W.OfBuffers(current.value.inputs.sources, current.value.inputs.root, states[i].data.store.documents)
              && current.value.inputs.epoch == states[n].data.ws.epoch
  {
    EveryReachableStateIsGood(states, actions, i);
    EveryReachableStateIsGood(states, actions, n);
    RunGrows(states, actions, i, n);
    var latest := states[n].data.ws.latest;
    if latest.Some? {
      PresentSources(latest.value.inputs.root, states[i].data.store.documents);
    }
  }

  /** A read that takes the latest analysis builds its index if there is none, and no read changes anything
      else. */
  lemma ReadsOnlyBuildTheIndex(task: Task, d: Data, c: Choice, analysisFree: bool)
    requires IsRead(task)
    ensures var d', ws := ReadStep(task, d, c, analysisFree).data, d.ws;
            d' == if task.ReadingAnalysis? && c.readsLatest && ws.index.None? && ws.project.Some? && ws.latest.Some?
                  then d.(ws := ws.(index := Some(W.BindingIndex(ws.latest.value.facts)),
                                    indexKey := Some(W.IndexKey(ws.project.value.root, ws.latest.value.generation))))
                  else d
  {
  }

  /** A read never waits for the workspace: it reads it if it is free, and goes on without it otherwise. */
  lemma ReadsTakeTheAnalysisIfFree(s: State, a: Action)
    requires Enabled(s, a) && a.Act? && s.tasks[a.tid].TryingAnalysis?
    ensures var s' := Do(s, a);
      && s'.data == s.data && a.tid in s'.tasks
      && (Analysis in s.locks ==> s'.tasks[a.tid].WantTokens?)
      && (Analysis !in s.locks ==>
            s'.tasks[a.tid].ReadingAnalysis? && Analysis in s'.locks && s'.locks[Analysis] == a.tid)
  {
  }

  // ----- Locks

  lemma WaitsOnlyUpwards(task: Task)
    requires Wants(task).Some?
    ensures forall l :: l in Held(task) ==> l.Rank() < Wants(task).value.Rank()
  {
  }

  /** Follow the holders: each waits for a lock ranked above the one it holds, so the chain ends at
      a task that can run. */
  lemma {:induction false} SomeHolderRuns(s: State, tid: Tid) returns (runner: Tid)
    requires LocksAreHeld(s) && tid in s.tasks
    ensures runner in s.tasks && !Blocked(s, runner)
    decreases 6 - if Wants(s.tasks[tid]).Some? then Wants(s.tasks[tid]).value.Rank() else 6
  {
    runner := tid;
    if Blocked(s, tid) {
      var wanted := Wants(s.tasks[tid]).value;
      var holder := s.locks[wanted];
      assert holder in Holdings(s.tasks) && wanted in Held(s.tasks[holder]);
      if Wants(s.tasks[holder]).Some? {
        WaitsOnlyUpwards(s.tasks[holder]);
      }
      runner := SomeHolderRuns(s, holder);
    }
  }

  lemma {:induction false} SomeTidIsFree(tasks: map<Tid, Task>) returns (tid: Tid)
    ensures tid !in tasks
  {
    tid := 0;
    var below: set<Tid> := {};
    while tid in tasks
      invariant below <= tasks.Keys && forall t: Tid :: t in below <==> t < tid
      invariant |below| == tid
      decreases |tasks.Keys| - tid
    {
      below := below + {tid};
      AreFewer(below, tasks.Keys);
      tid := tid + 1;
    }
  }

  lemma {:induction false} AreFewer(some: set<Tid>, all: set<Tid>)
    requires some <= all
    ensures |some| <= |all|
    decreases |some|
  {
    if some != {} {
      var t :| t in some;
      AreFewer(some - {t}, all - {t});
    }
  }

  /** The choice a running task is offered always exists. */
  lemma SomeChoiceIsOffered(task: Task) returns (c: Choice)
    ensures Offers(task, c)
  {
    var nothing: C.History := _ => C.Disk(None, None, Ok(None));
    var attempt := C.Attempt(0, 0, 0, 0, Ok(false), false, None, None);
    c := Choice(Err(W.NoProject), nothing, attempt, None, [], OtherUrl(""), T.Scheduled([], [], 0), false);
    match task
    case Sending(_, remaining) =>
      if remaining != map[] {
        var url :| url in remaining;
        c := c.(url := url);
      }
    case Clearing(clears, schedules) =>
      if clears != {} {
        var url :| url in clears;
        c := c.(url := url);
      } else if schedules != {} {
        var scheduled :| scheduled in schedules;
        c := c.(scheduled := scheduled);
      }
    case _ =>
  }

  /** The server never deadlocks: while any task is left, some task can take its next step. */
  lemma NeverDeadlocked(states: seq<State>, actions: seq<Action>, n: nat)
    requires IsRun(states, actions) && n < |states| && states[n].tasks != map[]
    ensures exists tid, c, child :: Enabled(states[n], Act(tid, c, child))
  {
    EveryReachableStateIsGood(states, actions, n);
    var any :| any in states[n].tasks;
    var tid := SomeHolderRuns(states[n], any);
    var c := SomeChoiceIsOffered(states[n].tasks[tid]);
    var child := SomeTidIsFree(states[n].tasks);
    assert Enabled(states[n], Act(tid, c, child));
  }
}
