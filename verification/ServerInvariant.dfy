/** What every reachable state of the server keeps.

    An `ensures` that names its one claim in a `var` first is proved whole and not conjunct by
    conjunct. */
module ServerInvariant {
  import opened Prelude
  import opened Paths
  import D = Documents
  import W = Workspace
  import T = Diagnostics
  import opened Server

  // ----- The invariant

  ghost function Holdings(tasks: map<Tid, Task>): map<Tid, set<Lock>> {
    map tid | tid in tasks :: Held(tasks[tid])
  }

  ghost predicate Agrees(locks: map<Lock, Tid>, holdings: map<Tid, set<Lock>>) {
    && (forall tid, l :: tid in holdings && l in holdings[tid] ==> l in locks && locks[l] == tid)
    && (forall l :: l in locks ==> locks[l] in holdings && l in holdings[locks[l]])
  }

  /** Each lock is held by exactly the task that stands where its holder stands. */
  ghost predicate LocksAreHeld(s: State) {
    Agrees(s.locks, Holdings(s.tasks))
  }

  ghost predicate StoreMatchesLog(d: Data) {
    && |d.log| == d.store.generation + 1
    && d.log[d.store.generation] == d.store.documents
  }

  /** The capture is of the buffers at its generation. */
  ghost predicate CaptureOk(capture: D.Capture, d: Data) {
    capture.generation < |d.log| && capture.buffers == D.FileBuffers(d.log[capture.generation])
  }

  ghost predicate LatestOk(d: Data) {
    && W.Current(d.ws)
    && (d.ws.latest.Some? ==>
          var inputs := d.ws.latest.value.inputs;
          && inputs.generation < |d.log|
          && inputs.sources == W.Overlay(inputs.root, D.FileBuffers(d.log[inputs.generation])))
  }

  ghost predicate DataOk(d: Data) {
    StoreMatchesLog(d) && LatestOk(d)
  }

  /** The inputs are the captured buffers under their root; unless an invalidation came since, the
      workspace still stands on that project. */
  ghost predicate InputsOk(p: W.Prepared, capture: D.Capture, d: Data) {
    && CaptureOk(capture, d)
    && p.generation == capture.generation
    && p.sources == W.Overlay(p.root, capture.buffers)
    && p.epoch <= d.ws.epoch
    && (p.epoch == d.ws.epoch ==> d.ws.project == Some(W.Project(p.root, p.config)))
  }

  ghost predicate Installed(snapshot: W.Snapshot, d: Data) {
    d.ws.latest == Some(snapshot) && d.ws.epoch == snapshot.inputs.epoch
  }

  /** The publication describes exactly the present: nothing is pending, nothing was invalidated
      since its inputs were prepared, and the buffers have not moved. */
  ghost predicate PublicationOk(p: Publication, d: Data) {
    && InputsOk(p.snapshot.inputs, p.capture, d)
    && p.snapshot.inputs.epoch == d.ws.epoch
    && d.pending == W.NO_BITS
    && p.capture.generation == d.store.generation
    && p == PublicationOf(W.Project(p.snapshot.inputs.root, p.snapshot.inputs.config), p.snapshot, p.capture)
  }

  /** The root tracks every URL reported with problems, and of those the run covers no other. */
  ghost predicate TracksTheReport(p: Publication, tracker: T.Tracker) {
    forall url ::
      && (url in p.report && p.report[url] != [] ==> url in T.At(tracker, p.root).nonEmpty)
      && (p.scope.Covers(url) && url in T.At(tracker, p.root).nonEmpty ==> url in p.report && p.report[url] != [])
  }

  /** What is left to send is the report, or an empty set for a covered URL the report does not name; what
      is no longer left has reached the client. */
  ghost predicate SendingOk(p: Publication, remaining: T.Report, d: Data) {
    && PublicationOk(p, d)
    && (forall url :: url in remaining ==> remaining[url] == if url in p.report then p.report[url] else [])
    && (forall url :: url in remaining ==> url in p.report || p.scope.Covers(url))
    && (forall url :: T.Shows(remaining, url) ==> T.Tracked(d.tracker, url))
    && TracksTheReport(p, d.tracker)
    && (forall url :: url in p.report && url !in remaining ==> url in d.client && d.client[url] == p.report[url])
  }

  ghost predicate TaskOk(task: Task, d: Data) {
    match task
    case WantRun(_, capture) => CaptureOk(capture, d)
    case WantPrepare(_, capture) => CaptureOk(capture, d)
    case Preparing(_, capture) => CaptureOk(capture, d)
    case Analyzing(_, capture, prepared) => InputsOk(prepared, capture, d)
    case WantCommit(_, capture, snapshot) => InputsOk(snapshot.inputs, capture, d)
    case Committing(_, capture, snapshot) => InputsOk(snapshot.inputs, capture, d)
    case WantPublish(_, capture, snapshot) => InputsOk(snapshot.inputs, capture, d) && Installed(snapshot, d)
    case Rechecking(_, capture, snapshot) => InputsOk(snapshot.inputs, capture, d) && Installed(snapshot, d)
    case WantMatch(_, capture, snapshot) =>
      InputsOk(snapshot.inputs, capture, d) && Installed(snapshot, d) && d.pending == W.NO_BITS
    case Matching(_, capture, snapshot) =>
      InputsOk(snapshot.inputs, capture, d) && Installed(snapshot, d) && d.pending == W.NO_BITS
    case Confirming(_, publication) => PublicationOk(publication, d)
    case WantDrain => false
    case Draining => false
    case WantReconcile(_, publication) => PublicationOk(publication, d)
    case Reconciling(_, publication) => PublicationOk(publication, d)
    case Sending(publication, remaining) => SendingOk(publication, remaining, d)
    case _ => true
  }

  /** The URLs a task has stopped tracking, or is about to publish, and still owes the client. */
  ghost function Owed(task: Task): set<Url> {
    match task
    case Sending(_, remaining) => remaining.Keys
    case Clearing(clears, _) => clears
    case Retracting(url, _) => {url}
    case _ => {}
  }

  ghost function OwedNow(s: State): set<Url> {
    if Publish in s.locks && s.locks[Publish] in s.tasks then Owed(s.tasks[s.locks[Publish]]) else {}
  }

  ghost predicate MirroredBut(d: Data, owed: set<Url>) {
    forall url :: T.Shows(d.client, url) ==> T.Tracked(d.tracker, url) || url in owed
  }

  ghost predicate Invariant(s: State) {
    && LocksAreHeld(s)
    && DataOk(s.data)
    && (forall tid :: tid in s.tasks ==> TaskOk(s.tasks[tid], s.data))
    && MirroredBut(s.data, OwedNow(s))
  }

  // ----- What a step may change, given the locks it holds

  ghost predicate Within(d: Data, d': Data, held: set<Lock>) {
    && d.log <= d'.log
    && (d'.store != d.store ==> Publish in held)
    && (d'.ws != d.ws ==> Analysis in held)
    && d.ws.epoch <= d'.ws.epoch
    && (d'.ws.epoch != d.ws.epoch ==> Run in held || Publish in held)
    && (d'.ws.epoch == d.ws.epoch && d'.ws.project != d.ws.project ==> Run in held)
    && (d'.tracker != d.tracker || d'.client != d.client ==> Publish in held)
    && (d'.pending == d.pending || d'.pending == W.NO_BITS || Publish in held)
  }

  /** A task's facts survive any step taken with none of its locks. */
  lemma OthersKeepTheirFacts(task: Task, d: Data, d': Data, held: set<Lock>)
    requires TaskOk(task, d) && Within(d, d', held) && Held(task) !! held
    ensures TaskOk(task, d')
  {
  }

  // ----- One task's step

  ghost function OwedBy(task: Option<Task>): set<Url> {
    if task.Some? then Owed(task.value) else {}
  }

  /** The step respects its locks, keeps the data's facts, establishes the facts of the task it
      becomes and of any it spawns, and leaves the client no further from the tracker. */
  ghost predicate Sound(task: Task, d: Data, o: Outcome) {
    && Within(d, o.data, Held(task) + HeldBy(o.next))
    && DataOk(o.data)
    && (o.next.Some? ==> TaskOk(o.next.value, o.data))
    && (o.spawned.Some? ==> TaskOk(o.spawned.value, o.data) && Held(o.spawned.value) == {})
    && (MirroredBut(d, Owed(task)) ==> MirroredBut(o.data, OwedBy(o.next)))
  }

  /** A step on the workspace alone, by a task that may touch it. */
  lemma WorkspaceStepIsSound(task: Task, d: Data, ws: W.State, pending: W.Bits, next: Option<Task>)
    requires DataOk(d) && Owed(task) == {} && (pending == d.pending || pending == W.NO_BITS)
    requires var held := Held(task) + HeldBy(next);
             Analysis in held && (Run in held || Publish in held)
             && (ws.epoch == d.ws.epoch && ws.project != d.ws.project ==> Run in held)
    requires d.ws.epoch <= ws.epoch && LatestOk(d.(ws := ws, pending := pending))
    requires next.Some? ==> TaskOk(next.value, d.(ws := ws, pending := pending))
    ensures var sound := Sound(task, d, Outcome(d.(ws := ws, pending := pending), next, None)); sound
  {
  }

  lemma DrainingIsOk(d: Data)
    requires DataOk(d)
    ensures LatestOk(Drained(d)) && d.ws.epoch <= Drained(d).ws.epoch
    ensures Drained(d).ws.epoch == d.ws.epoch ==> Drained(d).ws == d.ws
  {
  }

  /** Preparing keeps the latest analysis as it is, and its inputs are what was captured. */
  lemma PreparingIsOk(d: Data, job: Job, capture: D.Capture, c: Choice)
    requires DataOk(d) && CaptureOk(capture, d)
    ensures var (ws, prepared) := W.Prepare(d.ws, job.file, capture, job.scope, c.resolved, c.disk, c.attempt);
            && LatestOk(d.(ws := ws)) && ws.epoch == d.ws.epoch
            && (prepared.Ok? ==> InputsOk(prepared.value, capture, d.(ws := ws)))
  {
  }

  lemma PrepareIsSound(d: Data, job: Job, capture: D.Capture, c: Choice)
    requires DataOk(d) && CaptureOk(capture, d)
    ensures var sound := Sound(Preparing(job, capture), d, PrepareStep(d, job, capture, c)); sound
  {
    var o := PrepareStep(d, job, capture, c);
    DrainingIsOk(d);
    PreparingIsOk(Drained(d), job, capture, c);
    WorkspaceStepIsSound(Preparing(job, capture), d, o.data.ws, W.NO_BITS, o.next);
  }

  lemma InstallIsSound(d: Data, ws: W.State, job: Job, capture: D.Capture, snapshot: W.Snapshot)
    requires DataOk(d) && InputsOk(snapshot.inputs, capture, d) && d.ws.epoch == snapshot.inputs.epoch
    requires ws.project == d.ws.project && ws.epoch == d.ws.epoch
    requires ws.latest == Some(snapshot) && ws.installed == Some(snapshot.inputs.generation)
    ensures var sound := Sound(Committing(job, capture, snapshot), d, Go(d.(ws := ws), WantPublish(job, capture, snapshot))); sound
  {
  }

  lemma CommitIsSound(d: Data, job: Job, capture: D.Capture, snapshot: W.Snapshot)
    requires DataOk(d) && InputsOk(snapshot.inputs, capture, d)
    ensures var sound := Sound(Committing(job, capture, snapshot), d, CommitStep(d, job, capture, snapshot)); sound
  {
    if d.pending == W.NO_BITS && W.Accepts(d.ws, snapshot.inputs.generation, snapshot.inputs.epoch) {
      var ws := W.Commit(d.ws, snapshot.inputs.generation, snapshot.inputs.epoch, snapshot);
      InstallIsSound(d, ws, job, capture, snapshot);
    }
  }

  lemma RecheckIsSound(d: Data, job: Job, capture: D.Capture, snapshot: W.Snapshot)
    requires DataOk(d) && TaskOk(Rechecking(job, capture, snapshot), d)
    ensures var sound := Sound(Rechecking(job, capture, snapshot), d, RecheckStep(d, job, capture, snapshot)); sound
  {
  }

  lemma MatchIsSound(d: Data, job: Job, capture: D.Capture, snapshot: W.Snapshot)
    requires DataOk(d) && TaskOk(Matching(job, capture, snapshot), d)
    ensures var sound := Sound(Matching(job, capture, snapshot), d, MatchStep(d, job, capture)); sound
  {
  }

  lemma StillTrackedOrSent(tracker: T.Tracker, root: Path, scope: T.ReconcileScope, report: T.Report, url: Url)
    requires T.Tracked(tracker, url)
    ensures T.Tracked(T.Reconciled(tracker, root, scope, report), url) || url in T.Outgoing(tracker, root, scope, report)
  {
    var r :| r in tracker && url in tracker[r].nonEmpty;
    var after := T.Reconciled(tracker, root, scope, report);
    assert r in after;
    if r == root && !scope.Covers(url) {
      assert url in T.Uncovered(tracker[root].nonEmpty, scope);
    }
  }

  lemma ReconcilingTracksTheReport(tracker: T.Tracker, p: Publication)
    ensures TracksTheReport(p, T.Reconciled(tracker, p.root, p.scope, p.report))
  {
  }

  lemma StartSendingIsSound(d: Data, tracker: T.Tracker, remaining: T.Report, job: Job, p: Publication)
    requires DataOk(d) && PublicationOk(p, d)
    requires forall url :: T.Tracked(d.tracker, url) ==> T.Tracked(tracker, url) || url in remaining
    requires forall url :: url in remaining ==> remaining[url] == if url in p.report then p.report[url] else []
    requires forall url :: url in remaining ==> url in p.report || p.scope.Covers(url)
    requires forall url :: T.Shows(remaining, url) ==> T.Tracked(tracker, url)
    requires p.report.Keys <= remaining.Keys && TracksTheReport(p, tracker)
    ensures var sound := Sound(Reconciling(job, p), d, Go(d.(tracker := tracker), Sending(p, remaining))); sound
  {
    TrackerDoesNotDatePublications(d, tracker, p);
  }

  lemma TrackerDoesNotDatePublications(d: Data, tracker: T.Tracker, p: Publication)
    requires DataOk(d) && PublicationOk(p, d)
    ensures DataOk(d.(tracker := tracker)) && PublicationOk(p, d.(tracker := tracker))
  {
  }

  lemma OutgoingIsTracked(tracker: T.Tracker, root: Path, scope: T.ReconcileScope, report: T.Report, url: Url)
    requires T.Shows(T.Outgoing(tracker, root, scope, report), url)
    ensures T.Tracked(T.Reconciled(tracker, root, scope, report), url)
  {
    var after := T.Reconciled(tracker, root, scope, report);
    assert root in after && url in after[root].nonEmpty;
  }

  lemma ReconcileIsSound(d: Data, job: Job, p: Publication)
    requires DataOk(d) && PublicationOk(p, d)
    ensures var sound := Sound(Reconciling(job, p), d, ReconcileStep(d, job, p)); sound
  {
    var tracker := T.Reconciled(d.tracker, p.root, p.scope, p.report);
    var remaining := T.Outgoing(d.tracker, p.root, p.scope, p.report);
    forall url | T.Tracked(d.tracker, url)
      ensures T.Tracked(tracker, url) || url in remaining
    {
      StillTrackedOrSent(d.tracker, p.root, p.scope, p.report, url);
    }
    forall url | T.Shows(remaining, url)
      ensures T.Tracked(tracker, url)
    {
      OutgoingIsTracked(d.tracker, p.root, p.scope, p.report, url);
    }
    ReconcilingTracksTheReport(d.tracker, p);
    StartSendingIsSound(d, tracker, remaining, job, p);
    QuietStepIsSound(Reconciling(job, p), d, d.editSeq, None);
  }

  lemma SendOneKeepsFacts(d: Data, client: T.Report, p: Publication, remaining: T.Report, url: Url)
    requires SendingOk(p, remaining, d) && url in remaining && client == d.client[url := remaining[url]]
    ensures SendingOk(p, remaining - {url}, d.(client := client))
  {
    var rest := remaining - {url};
    forall u | u in p.report && u !in rest
      ensures u in client && client[u] == p.report[u]
    {
      if u != url {
        assert u in d.client && d.client[u] == p.report[u];
      }
    }
    forall u | T.Shows(rest, u)
      ensures T.Tracked(d.tracker, u)
    {
      assert T.Shows(remaining, u);
    }
    RestIsSending(d, client, p, rest);
  }

  lemma RestIsSending(d: Data, client: T.Report, p: Publication, rest: T.Report)
    requires PublicationOk(p, d) && TracksTheReport(p, d.tracker)
    requires forall url :: url in rest ==> rest[url] == if url in p.report then p.report[url] else []
    requires forall url :: url in rest ==> url in p.report || p.scope.Covers(url)
    requires forall url :: T.Shows(rest, url) ==> T.Tracked(d.tracker, url)
    requires forall url :: url in p.report && url !in rest ==> url in client && client[url] == p.report[url]
    ensures SendingOk(p, rest, d.(client := client))
  {
  }

  lemma SendOneKeepsMirror(d: Data, client: T.Report, remaining: T.Report, rest: T.Report, url: Url)
    requires url in remaining && client == d.client[url := remaining[url]] && rest == remaining - {url}
    requires T.Shows(remaining, url) ==> T.Tracked(d.tracker, url)
    ensures MirroredBut(d, remaining.Keys) ==> MirroredBut(d.(client := client), rest.Keys)
  {
    if MirroredBut(d, remaining.Keys) {
      forall u | T.Shows(client, u)
        ensures T.Tracked(d.tracker, u) || u in rest.Keys
      {
        if u == url {
          assert T.Shows(remaining, url);
        } else {
          assert T.Shows(d.client, u);
        }
      }
    }
  }

  lemma ClientOnlyIsSound(d: Data, client: T.Report, p: Publication, remaining: T.Report, rest: T.Report)
    requires DataOk(d) && SendingOk(p, rest, d.(client := client))
    requires MirroredBut(d, remaining.Keys) ==> MirroredBut(d.(client := client), rest.Keys)
    ensures var sound := Sound(Sending(p, remaining), d, Go(d.(client := client), Sending(p, rest))); sound
  {
    ClientDoesNotMatter(d, client);
  }

  lemma ClientDoesNotMatter(d: Data, client: T.Report)
    requires DataOk(d)
    ensures DataOk(d.(client := client))
  {
  }

  lemma SendIsSound(d: Data, p: Publication, remaining: T.Report, url: Url)
    requires DataOk(d) && SendingOk(p, remaining, d) && url in remaining
    ensures var sound := Sound(Sending(p, remaining), d, SendStep(d, p, remaining, url)); sound
  {
    var client, rest := d.client[url := remaining[url]], remaining - {url};
    SendOneKeepsFacts(d, client, p, remaining, url);
    SendOneKeepsMirror(d, client, remaining, rest, url);
    ClientOnlyIsSound(d, client, p, remaining, rest);
    assert SendStep(d, p, remaining, url) == Go(d.(client := client), Sending(p, rest));
  }

  lemma ApplyEditIsSound(d: Data, edit: D.Edit)
    requires DataOk(d)
    ensures var sound := Sound(Editing(edit), d, ApplyEditStep(d, edit)); sound
  {
    var store := D.Apply(d.store, edit);
    var log := if D.Effective(d.store, edit) then d.log + [store.documents] else d.log;
    EditedStoreIsSound(d, store, log, edit, ApplyEditStep(d, edit).next);
  }

  lemma EditedStoreIsSound(d: Data, store: D.Store, log: seq<D.Buffers>, edit: D.Edit, next: Option<Task>)
    requires DataOk(d) && d.log <= log
    requires |log| == store.generation + 1 && log[store.generation] == store.documents
    requires next.Some? ==> next.value.WantForget? || next.value.Locating?
    ensures var sound := Sound(Editing(edit), d, Outcome(d.(store := store, log := log), next, None)); sound
  {
  }

  lemma BumpIsSound(d: Data, edit: D.Edit, locked: bool)
    requires DataOk(d)
    ensures var sound := Sound(Bumping(edit, locked), d, BumpStep(d, edit, locked)); sound
  {
    var o := BumpStep(d, edit, locked);
    forall url | T.Tracked(d.tracker, url) && url !in OwedBy(o.next)
      ensures T.Tracked(o.data.tracker, url)
    {
      var r :| r in d.tracker && url in d.tracker[r].nonEmpty;
      assert r in o.data.tracker && url in o.data.tracker[r].nonEmpty;
    }
    BumpedTrackerIsSound(d, o.data.tracker, edit, locked, o.next);
  }

  lemma BumpedTrackerIsSound(d: Data, tracker: T.Tracker, edit: D.Edit, locked: bool, next: Option<Task>)
    requires DataOk(d)
    requires next.Some? ==> next.value.Retracting? || next.value.Scheduling?
    requires forall url :: T.Tracked(d.tracker, url) && url !in OwedBy(next) ==> T.Tracked(tracker, url)
    ensures var sound := Sound(Bumping(edit, locked), d, Outcome(d.(tracker := tracker), next, None)); sound
  {
  }

  lemma RetractIsSound(d: Data, url: Url, rootEpoch: Option<RootEpoch>)
    requires DataOk(d)
    ensures var sound := Sound(Retracting(url, rootEpoch), d, RetractStep(d, url, rootEpoch)); sound
  {
  }

  lemma WatchingIsSound(d: Data, preBits: W.Bits, open: set<Url>, analysisFree: bool)
    requires DataOk(d)
    ensures var sound := Sound(Watching(preBits, open), d, WatchingStep(d, preBits, open, analysisFree)); sound
  {
    if analysisFree {
      DrainingIsOk(d);
      WorkspaceStepIsSound(Watching(preBits, open), d, Drained(d).ws, W.NO_BITS, Some(WantEffects(open, true)));
    } else {
      RaisingIsSound(Watching(preBits, open), d, preBits, Marking(preBits, open));
    }
  }

  /** Raising pending bits under the publish lock. */
  lemma RaisingIsSound(task: Task, d: Data, bits: W.Bits, next: Task)
    requires DataOk(d) && Publish in Held(task) && Owed(task) == {} && TaskOk(next, Marked(d, bits))
    ensures var sound := Sound(task, d, Go(Marked(d, bits), next)); sound
  {
  }

  lemma EffectsAreSound(d: Data, d': Data, open: set<Url>, locked: bool, clears: set<Url>, schedules: set<T.Scheduled>)
    requires DataOk(d)
    requires d' == d.(tracker := d'.tracker, ws := d'.ws, pending := d'.pending)
    requires forall url :: T.Tracked(d.tracker, url) ==> T.Tracked(d'.tracker, url) || url in clears
    requires d'.ws == d.ws || (locked && (d'.ws == W.InvalidateAnalysis(d.ws) || d'.ws == W.InvalidateProject(d.ws)))
    ensures var sound := Sound(Affecting(open, locked), d, Go(d', Clearing(clears, schedules))); sound
  {
  }

  lemma AffectIsSound(d: Data, events: seq<T.Event>, open: set<Url>, locked: bool)
    requires DataOk(d)
    ensures var sound := Sound(Affecting(open, locked), d, AffectStep(d, events, open, locked)); sound
  {
    if !locked || events != [] {
      var pending := T.PendingOf(events);
      var effects := EffectsAt(d, pending, open, locked);
      var d' := Affected(d, pending, effects, open, locked);
      forall url | T.Tracked(d.tracker, url)
        ensures T.Tracked(d'.tracker, url) || url in effects.clears
      {
        if !T.Tracked(d'.tracker, url) {
          T.DroppedUrlsAreCleared(d.tracker, pending, open, url);
        }
      }
      EffectsAreSound(d, d', open, locked, effects.clears, effects.schedules);
    }
  }

  lemma ClearIsSound(d: Data, clears: set<Url>, schedules: set<T.Scheduled>, c: Choice)
    requires DataOk(d) && Offers(Clearing(clears, schedules), c)
    ensures var sound := Sound(Clearing(clears, schedules), d, ClearStep(d, clears, schedules, c.url, c.scheduled)); sound
  {
  }

  /** A step that leaves the guarded data alone. */
  lemma QuietStepIsSound(task: Task, d: Data, editSeq: nat, next: Option<Task>)
    requires DataOk(d) && Owed(task) == {}
    requires next.Some? ==> TaskOk(next.value, d)
    ensures var sound := Sound(task, d, Outcome(d.(editSeq := editSeq), next, None)); sound
  {
  }

  lemma RecomputeIsSound(task: Task, d: Data, c: Choice)
    requires DataOk(d) && TaskOk(task, d) && Offers(task, c)
    requires Wants(task).None? && !IsEdit(task) && !IsWatch(task) && !IsRead(task)
    ensures var sound := Sound(task, d, RecomputeStep(task, d, c)); sound
  {
    if BeforeCommit(task) {
      UncommittedIsSound(task, d, c);
    } else {
      PublishingIsSound(task, d, c);
    }
  }

  lemma UncommittedIsSound(task: Task, d: Data, c: Choice)
    requires DataOk(d) && TaskOk(task, d) && BeforeCommit(task)
    ensures var sound := Sound(task, d, RecomputeStep(task, d, c)); sound
  {
    match task
    case Preparing(job, capture) => PrepareIsSound(d, job, capture, c);
    case Scheduling(job) => QuietStepIsSound(task, d, Schedule(d, job).data.editSeq, Schedule(d, job).next);
    case Debouncing(job, seqNo) => QuietStepIsSound(task, d, d.editSeq, DebounceStep(d, job, seqNo).next);
    case Preflight(job) => QuietStepIsSound(task, d, d.editSeq, PreflightStep(d, job).next);
    case Capturing(job) => QuietStepIsSound(task, d, d.editSeq, Some(WantRun(job, D.CaptureOf(d.store))));
    case Analyzing(job, capture, prepared) =>
      QuietStepIsSound(task, d, d.editSeq, AnalyzeStep(d, job, capture, prepared, c).next);
  }

  lemma PublishingIsSound(task: Task, d: Data, c: Choice)
    requires DataOk(d) && TaskOk(task, d) && Offers(task, c)
    requires Wants(task).None? && !BeforeCommit(task) && !IsEdit(task) && !IsWatch(task) && !IsRead(task)
    ensures var sound := Sound(task, d, RecomputeStep(task, d, c)); sound
  {
    match task
    case Committing(job, capture, snapshot) => CommitIsSound(d, job, capture, snapshot);
    case Rechecking(job, capture, snapshot) => RecheckIsSound(d, job, capture, snapshot);
    case Matching(job, capture, snapshot) => MatchIsSound(d, job, capture, snapshot);
    case Confirming(job, publication) => QuietStepIsSound(task, d, d.editSeq, ConfirmStep(d, job, publication).next);
    case Reconciling(job, publication) => ReconcileIsSound(d, job, publication);
    case Sending(publication, remaining) =>
      if c.url in remaining {
        SendIsSound(d, publication, remaining, c.url);
      } else {
        QuietStepIsSound(task, d, d.editSeq, None);
      }
    case _ =>
  }

  lemma EditIsSound(task: Task, d: Data, analysisFree: bool)
    requires DataOk(d) && IsEdit(task)
    ensures var sound := Sound(task, d, EditStep(task, d, analysisFree)); sound
  {
    match task
    case Editing(edit) => EditingIsSound(d, edit, analysisFree);
    case Bumping(edit, locked) => BumpingIsSound(d, edit, locked, analysisFree);
    case Retracting(url, rootEpoch) => RetractingIsSound(d, url, rootEpoch, analysisFree);
    case _ => LocateIsSound(task, d, analysisFree);
  }

  lemma EditingIsSound(d: Data, edit: D.Edit, analysisFree: bool)
    requires DataOk(d)
    ensures var sound := Sound(Editing(edit), d, EditStep(Editing(edit), d, analysisFree)); sound
  {
    ApplyEditIsSound(d, edit);
  }

  lemma BumpingIsSound(d: Data, edit: D.Edit, locked: bool, analysisFree: bool)
    requires DataOk(d)
    ensures var sound := Sound(Bumping(edit, locked), d, EditStep(Bumping(edit, locked), d, analysisFree)); sound
  {
    BumpIsSound(d, edit, locked);
  }

  lemma RetractingIsSound(d: Data, url: Url, rootEpoch: Option<RootEpoch>, analysisFree: bool)
    requires DataOk(d)
    ensures var sound := Sound(Retracting(url, rootEpoch), d, EditStep(Retracting(url, rootEpoch), d, analysisFree)); sound
  {
    RetractIsSound(d, url, rootEpoch);
  }

  lemma LocateIsSound(task: Task, d: Data, analysisFree: bool)
    requires DataOk(d) && (task.Forgetting? || task.Locating?)
    ensures var sound := Sound(task, d, EditStep(task, d, analysisFree)); sound
  {
    QuietStepIsSound(task, d, d.editSeq, EditStep(task, d, analysisFree).next);
  }

  lemma WatchIsSound(task: Task, d: Data, c: Choice, analysisFree: bool)
    requires DataOk(d) && IsWatch(task) && Offers(task, c)
    ensures var sound := Sound(task, d, WatchStep(task, d, c, analysisFree)); sound
  {
    match task
    case Clearing(clears, schedules) => ClearingIsSound(d, clears, schedules, c, analysisFree);
    case Affecting(open, locked) => AffectingIsSound(d, open, locked, c, analysisFree);
    case _ => LookingIsSound(task, d, c, analysisFree);
  }

  lemma ClearingIsSound(d: Data, clears: set<Url>, schedules: set<T.Scheduled>, c: Choice, analysisFree: bool)
    requires DataOk(d) && Offers(Clearing(clears, schedules), c)
    ensures var sound := Sound(Clearing(clears, schedules), d, WatchStep(Clearing(clears, schedules), d, c, analysisFree)); sound
  {
    ClearIsSound(d, clears, schedules, c);
  }

  lemma AffectingIsSound(d: Data, open: set<Url>, locked: bool, c: Choice, analysisFree: bool)
    requires DataOk(d)
    ensures var sound := Sound(Affecting(open, locked), d, WatchStep(Affecting(open, locked), d, c, analysisFree)); sound
  {
    AffectIsSound(d, c.events, open, locked);
  }

  lemma LookingIsSound(task: Task, d: Data, c: Choice, analysisFree: bool)
    requires DataOk(d) && (task.Versioning? || task.Watching? || task.Marking?)
    ensures var sound := Sound(task, d, WatchStep(task, d, c, analysisFree)); sound
  {
    if task.Watching? {
      WatchingIsSound(d, task.preBits, task.open, analysisFree);
    } else {
      OpeningIsSound(task, d, c, analysisFree);
    }
  }

  lemma OpeningIsSound(task: Task, d: Data, c: Choice, analysisFree: bool)
    requires DataOk(d) && (task.Versioning? || task.Marking?)
    ensures var sound := Sound(task, d, WatchStep(task, d, c, analysisFree)); sound
  {
    if task.Versioning? {
      QuietStepIsSound(task, d, d.editSeq, WatchStep(task, d, c, analysisFree).next);
    } else {
      RaisingIsSound(task, d, task.preBits, WantEffects(task.open, false));
    }
  }

  lemma ReadIsSound(task: Task, d: Data, c: Choice, analysisFree: bool)
    requires DataOk(d) && IsRead(task)
    ensures var sound := Sound(task, d, ReadStep(task, d, c, analysisFree)); sound
  {
  }

  lemma BodyIsSound(task: Task, d: Data, c: Choice, analysisFree: bool)
    requires DataOk(d) && TaskOk(task, d) && Offers(task, c) && Wants(task).None?
    ensures var sound := Sound(task, d, Body(task, d, c, analysisFree)); sound
  {
    if IsEdit(task) {
      EditIsSound(task, d, analysisFree);
    } else if IsWatch(task) {
      WatchIsSound(task, d, c, analysisFree);
    } else if IsRead(task) {
      ReadIsSound(task, d, c, analysisFree);
    } else {
      RecomputeIsSound(task, d, c);
    }
  }

  // ----- The whole step

  /** A step keeps some of its locks and takes none but free ones. */
  ghost predicate TakesOnlyFree(s: State, task: Task, o: Outcome) {
    && (forall l :: l in HeldBy(o.next) ==> l in Held(task) || l !in s.locks)
    && (o.spawned.Some? ==> Held(o.spawned.value) == {} && Owed(o.spawned.value) == {})
  }

  lemma StepTakesOnlyFree(s: State, tid: Tid, c: Choice)
    requires tid in s.tasks && !Blocked(s, tid)
    ensures TakesOnlyFree(s, s.tasks[tid], OutcomeAt(s, tid, c))
  {
    var task := s.tasks[tid];
    if Wants(task).Some? {
      GrantAddsOneLock(task);
    } else {
      BodyAddsOnlyAnalysis(task, s.data, c, Analysis !in s.locks);
    }
  }

  lemma GrantAddsOneLock(task: Task)
    requires Wants(task).Some?
    ensures Held(Granted(task)) == Held(task) + {Wants(task).value} && Wants(task).value !in Held(task)
  {
  }

  ghost predicate AddsOnlyAnalysis(task: Task, o: Outcome, analysisFree: bool) {
    && (forall l :: l in HeldBy(o.next) ==> l in Held(task) || (l == Analysis && analysisFree))
    && (o.spawned.Some? ==> o.spawned.value.Debouncing?)
  }

  lemma RecomputeAddsNoLock(task: Task, d: Data, c: Choice)
    ensures AddsOnlyAnalysis(task, RecomputeStep(task, d, c), false)
  {
    if BeforeCommit(task) {
      UncommittedAddsNoLock(task, d, c);
    } else {
      PublishingAddsNoLock(task, d, c);
    }
  }

  lemma UncommittedAddsNoLock(task: Task, d: Data, c: Choice)
    requires BeforeCommit(task)
    ensures AddsOnlyAnalysis(task, RecomputeStep(task, d, c), false)
  {
  }

  lemma PublishingAddsNoLock(task: Task, d: Data, c: Choice)
    requires !BeforeCommit(task)
    ensures AddsOnlyAnalysis(task, RecomputeStep(task, d, c), false)
  {
    if task.Committing? || task.Rechecking? || task.Matching? {
      InstallingAddsNoLock(task, d, c);
    } else {
      TellingAddsNoLock(task, d, c);
    }
  }

  lemma InstallingAddsNoLock(task: Task, d: Data, c: Choice)
    requires task.Committing? || task.Rechecking? || task.Matching?
    ensures AddsOnlyAnalysis(task, RecomputeStep(task, d, c), false)
  {
  }

  lemma TellingAddsNoLock(task: Task, d: Data, c: Choice)
    requires !BeforeCommit(task) && !task.Committing? && !task.Rechecking? && !task.Matching?
    ensures AddsOnlyAnalysis(task, RecomputeStep(task, d, c), false)
  {
  }

  lemma EditAddsOnlyAnalysis(task: Task, d: Data, analysisFree: bool)
    ensures AddsOnlyAnalysis(task, EditStep(task, d, analysisFree), analysisFree)
  {
  }

  lemma WatchAddsOnlyAnalysis(task: Task, d: Data, c: Choice, analysisFree: bool)
    ensures AddsOnlyAnalysis(task, WatchStep(task, d, c, analysisFree), analysisFree)
  {
    if task.Affecting? {
      AffectAddsNoLock(d, c.events, task.open, task.locked);
    } else {
      LookingAddsOnlyAnalysis(task, d, c, analysisFree);
    }
  }

  lemma AffectAddsNoLock(d: Data, events: seq<T.Event>, open: set<Url>, locked: bool)
    ensures AddsOnlyAnalysis(Affecting(open, locked), AffectStep(d, events, open, locked), false)
  {
  }

  lemma LookingAddsOnlyAnalysis(task: Task, d: Data, c: Choice, analysisFree: bool)
    requires !task.Affecting?
    ensures AddsOnlyAnalysis(task, WatchStep(task, d, c, analysisFree), analysisFree)
  {
    if task.Clearing? {
      ClearAddsNoLock(d, task.clears, task.schedules, c);
    } else {
      OpeningAddsOnlyAnalysis(task, d, c, analysisFree);
    }
  }

  lemma ClearAddsNoLock(d: Data, clears: set<Url>, schedules: set<T.Scheduled>, c: Choice)
    ensures AddsOnlyAnalysis(Clearing(clears, schedules), ClearStep(d, clears, schedules, c.url, c.scheduled), false)
  {
  }

  lemma OpeningAddsOnlyAnalysis(task: Task, d: Data, c: Choice, analysisFree: bool)
    requires !task.Affecting? && !task.Clearing?
    ensures AddsOnlyAnalysis(task, WatchStep(task, d, c, analysisFree), analysisFree)
  {
  }

  lemma ReadAddsOnlyAnalysis(task: Task, d: Data, c: Choice, analysisFree: bool)
    ensures AddsOnlyAnalysis(task, ReadStep(task, d, c, analysisFree), analysisFree)
  {
  }

  lemma BodyAddsOnlyAnalysis(task: Task, d: Data, c: Choice, analysisFree: bool)
    ensures AddsOnlyAnalysis(task, Body(task, d, c, analysisFree), analysisFree)
  {
    RecomputeAddsNoLock(task, d, c);
    EditAddsOnlyAnalysis(task, d, analysisFree);
    WatchAddsOnlyAnalysis(task, d, c, analysisFree);
    ReadAddsOnlyAnalysis(task, d, c, analysisFree);
  }

  lemma AgreementFollows(locks: map<Lock, Tid>, holdings: map<Tid, set<Lock>>, holdings': map<Tid, set<Lock>>,
                         tid: Tid, held: set<Lock>)
    requires Agrees(locks, holdings) && tid in holdings
    requires forall l :: l in held ==> l in holdings[tid] || l !in locks
    requires if tid in holdings' then holdings'[tid] == held else held == {}
    requires forall t :: t != tid && t in holdings ==> t in holdings' && holdings'[t] == holdings[t]
    requires forall t :: t != tid && t in holdings' && t !in holdings ==> holdings'[t] == {}
    ensures Agrees(NewLocks(locks, tid, held), holdings')
  {
  }

  lemma LocksFollowTheStep(s: State, tid: Tid, o: Outcome, child: Tid)
    requires LocksAreHeld(s) && tid in s.tasks && child !in s.tasks
    requires TakesOnlyFree(s, s.tasks[tid], o)
    ensures LocksAreHeld(State(o.data, NewLocks(s.locks, tid, HeldBy(o.next)), NewTasks(s.tasks, tid, o, child)))
  {
    AgreementFollows(s.locks, Holdings(s.tasks), Holdings(NewTasks(s.tasks, tid, o, child)), tid, HeldBy(o.next));
  }

  /** The step's own task is sound, whether it is granted a lock or runs to its next one. */
  lemma OutcomeIsSound(s: State, tid: Tid, c: Choice)
    requires Invariant(s) && tid in s.tasks && !Blocked(s, tid) && Offers(s.tasks[tid], c)
    ensures var sound := Sound(s.tasks[tid], s.data, OutcomeAt(s, tid, c)); sound
  {
    var task := s.tasks[tid];
    if Wants(task).Some? {
      GrantKeepsFacts(task, s.data);
      QuietStepIsSound(task, s.data, s.data.editSeq, Some(Granted(task)));
    } else {
      BodyIsSound(task, s.data, c, Analysis !in s.locks);
    }
  }

  lemma GrantKeepsFacts(task: Task, d: Data)
    requires Wants(task).Some? && TaskOk(task, d)
    ensures TaskOk(Granted(task), d) && Owed(task) == {} == Owed(Granted(task))
  {
  }

  /** Two tasks never hold the same lock, not even one the step has just taken. */
  lemma OthersAreDisjoint(s: State, tid: Tid, other: Tid, o: Outcome)
    requires LocksAreHeld(s) && tid in s.tasks && other in s.tasks && other != tid
    requires TakesOnlyFree(s, s.tasks[tid], o)
    ensures Held(s.tasks[other]) !! (Held(s.tasks[tid]) + HeldBy(o.next))
  {
    HoldingsAreDisjoint(s.locks, Holdings(s.tasks), tid, other, HeldBy(o.next));
  }

  lemma HoldingsAreDisjoint(locks: map<Lock, Tid>, holdings: map<Tid, set<Lock>>, tid: Tid, other: Tid, held: set<Lock>)
    requires Agrees(locks, holdings) && tid in holdings && other in holdings && other != tid
    requires forall l :: l in held ==> l in holdings[tid] || l !in locks
    ensures holdings[other] !! (holdings[tid] + held)
  {
    forall l | l in holdings[other]
      ensures l !in holdings[tid] + held
    {
      assert locks[l] == other;
    }
  }

  /** After the step the owing task is this one if it publishes, otherwise whoever it was. */
  lemma OwedFollowsTheHolder(s: State, tid: Tid, o: Outcome, child: Tid)
    requires LocksAreHeld(s) && tid in s.tasks && child !in s.tasks
    requires TakesOnlyFree(s, s.tasks[tid], o)
    ensures var s' := State(o.data, NewLocks(s.locks, tid, HeldBy(o.next)), NewTasks(s.tasks, tid, o, child));
            OwedNow(s') == if Publish in HeldBy(o.next) then OwedBy(o.next)
                           else if Publish in Held(s.tasks[tid]) then {}
                           else OwedNow(s)
  {
    var holdings := Holdings(s.tasks);
    assert holdings[tid] == Held(s.tasks[tid]);
    if Publish in s.locks {
      assert s.locks[Publish] in holdings;
    }
  }

  lemma OwedFollowsTheStep(s: State, tid: Tid, o: Outcome, child: Tid)
    requires Invariant(s) && tid in s.tasks && child !in s.tasks
    requires TakesOnlyFree(s, s.tasks[tid], o)
    requires Within(s.data, o.data, Held(s.tasks[tid]) + HeldBy(o.next))
    requires MirroredBut(s.data, Owed(s.tasks[tid])) ==> MirroredBut(o.data, OwedBy(o.next))
    ensures var s' := State(o.data, NewLocks(s.locks, tid, HeldBy(o.next)), NewTasks(s.tasks, tid, o, child));
            MirroredBut(s'.data, OwedNow(s'))
  {
    var task := s.tasks[tid];
    OwedFollowsTheHolder(s, tid, o, child);
    OnlyPublishersOwe(task);
    if o.next.Some? {
      OnlyPublishersOwe(o.next.value);
    }
    assert Holdings(s.tasks)[tid] == Held(task);
    if Publish in Held(task) {
      assert OwedNow(s) == Owed(task);
    } else if Publish in HeldBy(o.next) {
      assert OwedNow(s) == {};
    }
  }

  lemma OnlyPublishersOwe(task: Task)
    ensures Publish !in Held(task) ==> Owed(task) == {}
  {
  }

  lemma NewcomersHoldAndOweNothing(task: Task, d: Data)
    requires StartsHandler(task)
    ensures Held(task) == {} && Owed(task) == {} && TaskOk(task, d)
  {
  }

  lemma ArrivalKeepsLocks(s: State, tid: Tid, task: Task)
    requires LocksAreHeld(s) && tid !in s.tasks && Held(task) == {} && Owed(task) == {}
    ensures var s' := s.(tasks := s.tasks[tid := task]);
            LocksAreHeld(s') && OwedNow(s') == OwedNow(s)
  {
    var before, after := Holdings(s.tasks), Holdings(s.tasks[tid := task]);
    assert after == before[tid := {}];
    NewcomerKeepsAgreement(s.locks, before, tid);
    assert Publish in s.locks ==> s.locks[Publish] in before;
  }

  lemma NewcomerKeepsAgreement(locks: map<Lock, Tid>, holdings: map<Tid, set<Lock>>, tid: Tid)
    requires Agrees(locks, holdings) && tid !in holdings
    ensures Agrees(locks, holdings[tid := {}])
  {
  }

  lemma ArrivalKeepsInvariant(s: State, tid: Tid, task: Task)
    requires Invariant(s) && tid !in s.tasks && StartsHandler(task)
    ensures var good := Invariant(s.(tasks := s.tasks[tid := task])); good
  {
    NewcomersHoldAndOweNothing(task, s.data);
    ArrivalKeepsLocks(s, tid, task);
  }

  lemma TasksKeepTheirFacts(s: State, tid: Tid, o: Outcome, child: Tid)
    requires Invariant(s) && tid in s.tasks && child !in s.tasks
    requires TakesOnlyFree(s, s.tasks[tid], o)
    requires Within(s.data, o.data, Held(s.tasks[tid]) + HeldBy(o.next))
    requires o.next.Some? ==> TaskOk(o.next.value, o.data)
    requires o.spawned.Some? ==> TaskOk(o.spawned.value, o.data)
    ensures var tasks' := NewTasks(s.tasks, tid, o, child);
            forall t :: t in tasks' ==> TaskOk(tasks'[t], o.data)
  {
    var tasks' := NewTasks(s.tasks, tid, o, child);
    forall t | t in tasks'
      ensures var ok := TaskOk(tasks'[t], o.data); ok
    {
      if t != tid && t in s.tasks {
        OthersAreDisjoint(s, tid, t, o);
        OthersKeepTheirFacts(s.tasks[t], s.data, o.data, Held(s.tasks[tid]) + HeldBy(o.next));
      }
    }
  }

  lemma StepKeepsInvariant(s: State, a: Action)
    requires Invariant(s) && Enabled(s, a)
    ensures var good := Invariant(Do(s, a)); good
  {
    match a
    case Arrive(tid, task) => ArrivalKeepsInvariant(s, tid, task);
    case Act(tid, c, child) =>
      var o := OutcomeAt(s, tid, c);
      StepTakesOnlyFree(s, tid, c);
      OutcomeIsSound(s, tid, c);
      LocksFollowTheStep(s, tid, o, child);
      OwedFollowsTheStep(s, tid, o, child);
      TasksKeepTheirFacts(s, tid, o, child);
  }

  lemma {:induction false} EveryReachableStateIsGood(states: seq<State>, actions: seq<Action>, n: nat)
    requires IsRun(states, actions) && n < |states|
    ensures var good := Invariant(states[n]); good
  {
    if n > 0 {
      EveryReachableStateIsGood(states, actions, n - 1);
      StepKeepsInvariant(states[n - 1], actions[n - 1]);
    }
  }
}
