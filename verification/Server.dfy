/** The language server's tasks as a state machine: every handler and every recompute is a task
    whose steps run between lock operations, and any two tasks may interleave. */
module Server {
  import opened Prelude
  import opened Paths
  import D = Documents
  import C = CatalogBinding
  import W = Workspace
  import T = Diagnostics

  type Tid = nat

  /** In the order a task may wait for them. */
  datatype Lock = Run | Analysis | Publish | Docs | Diags | Tokens {
    function Rank(): nat {
      match this
      case Run => 0
      case Analysis => 1
      case Publish => 2
      case Docs => 3
      case Diags => 4
      case Tokens => 5
    }
  }

  /** What the locks and atomics guard, what the client shows, and `log`, the buffers the store
      held at each generation so far. */
  datatype Data = Data(
    store: D.Store, log: seq<D.Buffers>, ws: W.State, tracker: T.Tracker,
    pending: W.Bits, client: T.Report, editSeq: nat)

  datatype RootEpoch = RootEpoch(root: Path, epoch: nat)

  datatype Job = Job(file: Path, rootEpoch: Option<RootEpoch>, scope: W.Scope)

  /** What a recompute is about to publish, and the analysis and buffers it came from. */
  datatype Publication = Publication(
    root: Path, scope: T.ReconcileScope, report: T.Report, snapshot: W.Snapshot, capture: D.Capture)

  datatype Task =
    // A scheduled recompute.
    | Scheduling(job: Job)
    | Debouncing(job: Job, seqNo: nat)
    | WantPreflight(job: Job)
    | Preflight(job: Job)
    | WantCapture(job: Job)
    | Capturing(job: Job)
    | WantRun(job: Job, capture: D.Capture)
    | WantPrepare(job: Job, capture: D.Capture)
    | Preparing(job: Job, capture: D.Capture)
    | Analyzing(job: Job, capture: D.Capture, prepared: W.Prepared)
    | WantCommit(job: Job, capture: D.Capture, snapshot: W.Snapshot)
    | Committing(job: Job, capture: D.Capture, snapshot: W.Snapshot)
    | WantPublish(job: Job, capture: D.Capture, snapshot: W.Snapshot)
    | Rechecking(job: Job, capture: D.Capture, snapshot: W.Snapshot)
    | WantMatch(job: Job, capture: D.Capture, snapshot: W.Snapshot)
    | Matching(job: Job, capture: D.Capture, snapshot: W.Snapshot)
    | Confirming(job: Job, publication: Publication)
    | WantDrain
    | Draining
    | WantReconcile(job: Job, publication: Publication)
    | Reconciling(job: Job, publication: Publication)
    | Sending(publication: Publication, remaining: T.Report)
    // An open, change or close notification.
    | WantEdit(edit: D.Edit)
    | WantEditDocs(edit: D.Edit)
    | Editing(edit: D.Edit)
    | WantForget(edit: D.Edit)
    | Forgetting(edit: D.Edit)
    | Locating(edit: D.Edit)
    | WantBump(edit: D.Edit, locked: bool)
    | Bumping(edit: D.Edit, locked: bool)
    | Retracting(url: Url, rootEpoch: Option<RootEpoch>)
    // A batch of watched-file changes.
    | WantWatch(preBits: W.Bits)
    | WantVersions(preBits: W.Bits)
    | Versioning(preBits: W.Bits)
    | Watching(preBits: W.Bits, open: set<Url>)
    | Marking(preBits: W.Bits, open: set<Url>)
    | WantEffects(open: set<Url>, locked: bool)
    | Affecting(open: set<Url>, locked: bool)
    | Clearing(clears: set<Url>, schedules: set<T.Scheduled>)
    // A read request.
    | WantDocument
    | ReadingDocument
    | TryingAnalysis
    | ReadingAnalysis
    | WantTokens
    | StoringTokens

  function Wants(task: Task): Option<Lock> {
    match task
    case WantPreflight(_) => Some(Diags)
    case WantCapture(_) => Some(Docs)
    case WantRun(_, _) => Some(Run)
    case WantPrepare(_, _) => Some(Analysis)
    case WantCommit(_, _, _) => Some(Analysis)
    case WantPublish(_, _, _) => Some(Publish)
    case WantMatch(_, _, _) => Some(Docs)
    case WantDrain => Some(Analysis)
    case WantReconcile(_, _) => Some(Diags)
    case WantEdit(_) => Some(Publish)
    case WantEditDocs(_) => Some(Docs)
    case WantForget(_) => Some(Tokens)
    case WantBump(_, _) => Some(Diags)
    case WantWatch(_) => Some(Publish)
    case WantVersions(_) => Some(Docs)
    case WantEffects(_, _) => Some(Diags)
    case WantDocument => Some(Docs)
    case WantTokens => Some(Tokens)
    case _ => None
  }

  /** Where a waiting task stands once it has the lock. */
  function Granted(task: Task): Task {
    match task
    case WantPreflight(job) => Preflight(job)
    case WantCapture(job) => Capturing(job)
    case WantRun(job, capture) => WantPrepare(job, capture)
    case WantPrepare(job, capture) => Preparing(job, capture)
    case WantCommit(job, capture, snapshot) => Committing(job, capture, snapshot)
    case WantPublish(job, capture, snapshot) => Rechecking(job, capture, snapshot)
    case WantMatch(job, capture, snapshot) => Matching(job, capture, snapshot)
    case WantDrain => Draining
    case WantReconcile(job, publication) => Reconciling(job, publication)
    case WantEdit(edit) => WantEditDocs(edit)
    case WantEditDocs(edit) => Editing(edit)
    case WantForget(edit) => Forgetting(edit)
    case WantBump(edit, locked) => Bumping(edit, locked)
    case WantWatch(preBits) => WantVersions(preBits)
    case WantVersions(preBits) => Versioning(preBits)
    case WantEffects(open, locked) => Affecting(open, locked)
    case WantDocument => ReadingDocument
    case WantTokens => StoringTokens
    case _ => task
  }

  function Held(task: Task): set<Lock> {
    match task
    case Preflight(_) => {Diags}
    case Capturing(_) => {Docs}
    case WantPrepare(_, _) => {Run}
    case Preparing(_, _) => {Run, Analysis}
    case Analyzing(_, _, _) => {Run}
    case WantCommit(_, _, _) => {Run}
    case Committing(_, _, _) => {Run, Analysis}
    case WantPublish(_, _, _) => {Run, Analysis}
    case Rechecking(_, _, _) => {Run, Analysis, Publish}
    case WantMatch(_, _, _) => {Run, Analysis, Publish}
    case Matching(_, _, _) => {Run, Analysis, Publish, Docs}
    case Confirming(_, _) => {Run, Publish}
    case WantDrain => {Run}
    case Draining => {Run, Analysis}
    case WantReconcile(_, _) => {Run, Publish}
    case Reconciling(_, _) => {Run, Publish, Diags}
    case Sending(_, _) => {Run, Publish}
    case WantEditDocs(_) => {Publish}
    case Editing(_) => {Publish, Docs}
    case WantForget(_) => {Publish}
    case Forgetting(_) => {Publish, Tokens}
    case Locating(_) => {Publish}
    case WantBump(_, locked) => if locked then {Publish, Analysis} else {Publish}
    case Bumping(_, locked) => {Publish, Diags} + if locked then {Analysis} else {}
    case Retracting(_, _) => {Publish}
    case WantVersions(_) => {Publish}
    case Versioning(_) => {Publish, Docs}
    case Watching(_, _) => {Publish}
    case Marking(_, _) => {Publish}
    case WantEffects(_, locked) => if locked then {Publish, Analysis} else {Publish}
    case Affecting(_, locked) => {Publish, Diags} + if locked then {Analysis} else {}
    case Clearing(_, _) => {Publish}
    case ReadingDocument => {Docs}
    case ReadingAnalysis => {Analysis}
    case StoringTokens => {Tokens}
    case _ => {}
  }

  // ----- One step between lock operations

  /** What the checker returned, beside the inputs it was given. */
  datatype Checked = Checked(program: W.Program, files: seq<W.SourceFile>, generation: nat, facts: string,
                             report: seq<W.Problem>)

  /** What a step takes from outside: the file system, the checker, the events the watcher
      classified, and the order in which a hash map yields its entries. */
  datatype Choice = Choice(
    resolved: Result<W.Project, W.Failure>, disk: C.History, attempt: C.Attempt, checked: Option<Checked>,
    events: seq<T.Event>, url: Url, scheduled: T.Scheduled, readsLatest: bool)

  datatype Outcome = Outcome(data: Data, next: Option<Task>, spawned: Option<Task>)

  function Done(data: Data): Outcome { Outcome(data, None, None) }

  function Go(data: Data, next: Task): Outcome { Outcome(data, Some(next), None) }

  /** Take the pending bits and apply them, as every swap-and-apply does. */
  function Drained(d: Data): Data {
    d.(ws := W.ApplyBits(d.ws, d.pending), pending := W.NO_BITS)
  }

  function OpenAnalyzed(project: W.Project, capture: D.Capture): set<Url> {
    set url | url in capture.buffers && url.FileUrl? && project.AnalyzesFile(url.path)
  }

  /** An entry for every open project file, and for every file the checker reported on. */
  function DiagnosticsOf(snapshot: W.Snapshot, open: set<Url>): T.Report {
    T.Grouped(snapshot.report, open)
  }

  function ScopeOf(snapshot: W.Snapshot): T.ReconcileScope {
    if snapshot.inputs.sourceOnly
    then T.SourceOnly(set i | 0 <= i < |snapshot.files| :: FileUrl(snapshot.files[i].path))
    else T.Whole
  }

  function PublicationOf(project: W.Project, snapshot: W.Snapshot, capture: D.Capture): Publication {
    Publication(project.root, ScopeOf(snapshot),
                DiagnosticsOf(snapshot, OpenAnalyzed(project, capture)), snapshot, capture)
  }

  /** The epoch a run reconciles under: the one it was scheduled with when that was for this very
      root, otherwise the root's current one. */
  function ReconcileEpoch(d: Data, job: Job, root: Path): nat {
    if job.rootEpoch.Some? && job.rootEpoch.value.root == root then job.rootEpoch.value.epoch
    else T.At(d.tracker, root).epoch
  }

  /** A recompute with no known root takes its number from the edit counter. */
  function Schedule(d: Data, job: Job): Outcome {
    if job.rootEpoch.None? then Go(d.(editSeq := d.editSeq + 1), Debouncing(job, d.editSeq + 1))
    else Go(d, Debouncing(job, 0))
  }

  function EditScope(edit: D.Edit): W.Scope {
    if edit.Changed? then W.Interactive else W.Full
  }

  function Bumped(tracker: T.Tracker, root: Option<Path>): (T.Tracker, Option<RootEpoch>) {
    if root.None? then (tracker, None)
    else
      var tracker := T.Bump(tracker, root.value);
      (tracker, Some(RootEpoch(root.value, T.At(tracker, root.value).epoch)))
  }

  /** Drop the run when a newer edit was scheduled for its root, or, while the root is unknown,
      when any newer edit was. */
  function DebounceStep(d: Data, job: Job, seqNo: nat): Outcome {
    if job.rootEpoch.Some? then Go(d, WantPreflight(job))
    else if d.editSeq != seqNo then Done(d)
    else Go(d, WantCapture(job))
  }

  function PreflightStep(d: Data, job: Job): Outcome {
    if job.rootEpoch.Some? && T.IsStale(d.tracker, job.rootEpoch.value.root, job.rootEpoch.value.epoch)
    then Done(d)
    else Go(d, WantCapture(job))
  }

  function PrepareStep(d: Data, job: Job, capture: D.Capture, c: Choice): Outcome {
    var drained := Drained(d);
    var (ws, prepared) := W.Prepare(drained.ws, job.file, capture, job.scope, c.resolved, c.disk, c.attempt);
    var d' := drained.(ws := ws);
    if prepared.Ok? then Go(d', Analyzing(job, capture, prepared.value)) else Done(d')
  }

  function AnalyzeStep(d: Data, job: Job, capture: D.Capture, prepared: W.Prepared, c: Choice): Outcome {
    if c.checked.None? then Done(d)
    else
      var r := c.checked.value;
      Go(d, WantCommit(job, capture, W.Snapshot(r.program, r.files, r.generation, r.facts, r.report, prepared)))
  }

  function CommitStep(d: Data, job: Job, capture: D.Capture, snapshot: W.Snapshot): Outcome {
    if d.pending != W.NO_BITS then Done(Drained(d))
    else if !W.Accepts(d.ws, snapshot.inputs.generation, snapshot.inputs.epoch) then Done(d)
    else Go(d.(ws := W.Commit(d.ws, snapshot.inputs.generation, snapshot.inputs.epoch, snapshot)),
            WantPublish(job, capture, snapshot))
  }

  function RecheckStep(d: Data, job: Job, capture: D.Capture, snapshot: W.Snapshot): Outcome {
    if d.pending != W.NO_BITS then Done(Drained(d)) else Go(d, WantMatch(job, capture, snapshot))
  }

  function MatchStep(d: Data, job: Job, capture: D.Capture): Outcome {
    if d.store.generation != capture.generation then Done(d)
    else if d.ws.project.None? || d.ws.latest.None? then Done(d)
    else Go(d, Confirming(job, PublicationOf(d.ws.project.value, d.ws.latest.value, capture)))
  }

  function ConfirmStep(d: Data, job: Job, publication: Publication): Outcome {
    if d.pending != W.NO_BITS then Go(d, WantDrain) else Go(d, WantReconcile(job, publication))
  }

  function ReconcileStep(d: Data, job: Job, p: Publication): Outcome {
    if T.IsStale(d.tracker, p.root, ReconcileEpoch(d, job, p.root)) then Done(d)
    else Go(d.(tracker := T.Reconciled(d.tracker, p.root, p.scope, p.report)),
            Sending(p, T.Outgoing(d.tracker, p.root, p.scope, p.report)))
  }

  function SendStep(d: Data, p: Publication, remaining: T.Report, url: Url): Outcome {
    if url in remaining then Go(d.(client := d.client[url := remaining[url]]), Sending(p, remaining - {url}))
    else Done(d)
  }

  function RecomputeStep(task: Task, d: Data, c: Choice): Outcome {
    match task
    case Scheduling(job) => Schedule(d, job)
    case Debouncing(job, seqNo) => DebounceStep(d, job, seqNo)
    case Preflight(job) => PreflightStep(d, job)
    case Capturing(job) => Go(d, WantRun(job, D.CaptureOf(d.store)))
    case Preparing(job, capture) => PrepareStep(d, job, capture, c)
    case Analyzing(job, capture, prepared) => AnalyzeStep(d, job, capture, prepared, c)
    case Committing(job, capture, snapshot) => CommitStep(d, job, capture, snapshot)
    case Rechecking(job, capture, snapshot) => RecheckStep(d, job, capture, snapshot)
    case Matching(job, capture, snapshot) => MatchStep(d, job, capture)
    case Confirming(job, publication) => ConfirmStep(d, job, publication)
    case Draining => Done(Drained(d))
    case Reconciling(job, publication) => ReconcileStep(d, job, publication)
    case Sending(publication, remaining) => SendStep(d, publication, remaining, c.url)
    case _ => Done(d)
  }

  predicate BeforeCommit(task: Task) {
    task.Scheduling? || task.Debouncing? || task.Preflight? || task.Capturing? || task.Preparing? || task.Analyzing?
  }

  function ApplyEditStep(d: Data, edit: D.Edit): Outcome {
    var store := D.Apply(d.store, edit);
    var log := if D.Effective(d.store, edit) then d.log + [store.documents] else d.log;
    var d' := d.(store := store, log := log);
    if edit.Closed? then Go(d', WantForget(edit))
    else if edit.url.FileUrl? then Go(d', Locating(edit))
    else Done(d')
  }

  /** The root the edited path is known to lie under, if the URL names a path. */
  function EditRoot(d: Data, edit: D.Edit, locked: bool): Option<Path> {
    if edit.url.FileUrl? then T.KnownRoot(if locked then d.ws.project else None, d.tracker, edit.url.path) else None
  }

  function BumpStep(d: Data, edit: D.Edit, locked: bool): Outcome {
    var root := EditRoot(d, edit, locked);
    var kept := if edit.Closed? && root.Some? then T.WithoutUrls(d.tracker, root.value, {edit.url}) else d.tracker;
    var (tracker, rootEpoch) := Bumped(kept, root);
    var d' := d.(tracker := tracker);
    if edit.Closed? then Go(d', Retracting(edit.url, rootEpoch))
    else if edit.url.FileUrl? then Go(d', Scheduling(Job(edit.url.path, rootEpoch, EditScope(edit))))
    else Done(d')
  }

  function RetractStep(d: Data, url: Url, rootEpoch: Option<RootEpoch>): Outcome {
    var d' := d.(client := d.client[url := []]);
    if url.FileUrl? then Schedule(d', Job(url.path, rootEpoch, W.Full)) else Done(d')
  }

  function EditStep(task: Task, d: Data, analysisFree: bool): Outcome {
    match task
    case Editing(edit) => ApplyEditStep(d, edit)
    case Forgetting(edit) => Go(d, Locating(edit))
    case Locating(edit) => Go(d, WantBump(edit, analysisFree))
    case Bumping(edit, locked) => BumpStep(d, edit, locked)
    case Retracting(url, rootEpoch) => RetractStep(d, url, rootEpoch)
    case _ => Done(d)
  }

  function Marked(d: Data, bits: W.Bits): Data {
    d.(pending := W.Or(d.pending, bits))
  }

  /** With the workspace free the pending bits are applied now; with it busy this batch's own bits
      are left pending for whoever holds it, twice, as whoever holds it may take them in between. */
  function WatchingStep(d: Data, preBits: W.Bits, open: set<Url>, analysisFree: bool): Outcome {
    if analysisFree then Go(Drained(d), WantEffects(open, true)) else Go(Marked(d, preBits), Marking(preBits, open))
  }

  /** With the workspace in hand only events on its own root invalidate it; without, every root's
      bits are left pending, and a cleared root is rechecked. */
  function EffectsAt(d: Data, pending: map<Path, T.PendingRoot>, open: set<Url>, locked: bool): T.Effects {
    var current := if locked && d.ws.project.Some? then Some(d.ws.project.value.root) else None;
    T.EffectsOf(d.tracker, pending, open, current, if locked then T.DrainSkips else T.DrainSchedules)
  }

  function Affected(d: Data, pending: map<Path, T.PendingRoot>, effects: T.Effects, open: set<Url>, locked: bool): Data {
    d.(tracker := T.TrackerAfter(d.tracker, pending, open),
       ws := if locked then W.ApplyBits(d.ws, effects.invalidate) else d.ws,
       pending := if locked then d.pending else W.Or(d.pending, effects.bits))
  }

  function AffectStep(d: Data, events: seq<T.Event>, open: set<Url>, locked: bool): Outcome {
    if locked && events == [] then Done(d)
    else
      var pending := T.PendingOf(events);
      var effects := EffectsAt(d, pending, open, locked);
      Go(Affected(d, pending, effects, open, locked), Clearing(effects.clears, effects.schedules))
  }

  function ClearStep(d: Data, clears: set<Url>, schedules: set<T.Scheduled>, url: Url, s: T.Scheduled): Outcome {
    if url in clears then Go(d.(client := d.client[url := []]), Clearing(clears - {url}, schedules))
    else if s in schedules then
      Outcome(d, Some(Clearing(clears, schedules - {s})),
              Some(Debouncing(Job(s.path, Some(RootEpoch(s.root, s.epoch)), W.Full), 0)))
    else Done(d)
  }

  function WatchStep(task: Task, d: Data, c: Choice, analysisFree: bool): Outcome {
    match task
    case Versioning(preBits) => Go(d, Watching(preBits, D.FileBuffers(d.store.documents).Keys))
    case Watching(preBits, open) => WatchingStep(d, preBits, open, analysisFree)
    case Marking(preBits, open) => Go(Marked(d, preBits), WantEffects(open, false))
    case Affecting(open, locked) => AffectStep(d, c.events, open, locked)
    case Clearing(clears, schedules) => ClearStep(d, clears, schedules, c.url, c.scheduled)
    case _ => Done(d)
  }

  function ReadStep(task: Task, d: Data, c: Choice, analysisFree: bool): Outcome {
    match task
    case ReadingDocument => Go(d, TryingAnalysis)
    case TryingAnalysis => Go(d, if analysisFree then ReadingAnalysis else WantTokens)
    case ReadingAnalysis => Go(d.(ws := if c.readsLatest then W.EnsureIndex(d.ws) else d.ws), WantTokens)
    case _ => Done(d)
  }

  predicate IsEdit(task: Task) {
    task.Editing? || task.Forgetting? || task.Locating? || task.Bumping? || task.Retracting?
  }

  predicate IsWatch(task: Task) {
    task.Versioning? || task.Watching? || task.Marking? || task.Affecting? || task.Clearing?
  }

  predicate IsRead(task: Task) {
    task.ReadingDocument? || task.TryingAnalysis? || task.ReadingAnalysis? || task.StoringTokens?
  }

  function Body(task: Task, d: Data, c: Choice, analysisFree: bool): Outcome {
    if IsEdit(task) then EditStep(task, d, analysisFree)
    else if IsWatch(task) then WatchStep(task, d, c, analysisFree)
    else if IsRead(task) then ReadStep(task, d, c, analysisFree)
    else RecomputeStep(task, d, c)
  }

  /** The choice names an entry that is still there to be taken. */
  predicate Offers(task: Task, c: Choice) {
    match task
    case Sending(_, remaining) => remaining == map[] || c.url in remaining
    case Clearing(clears, schedules) =>
      if clears != {} then c.url in clears else (schedules == {} || c.scheduled in schedules)
    case _ => true
  }

  // ----- The whole server

  datatype State = State(data: Data, locks: map<Lock, Tid>, tasks: map<Tid, Task>)

  const START := State(
    Data(D.EMPTY, [map[]], W.NEW, map[], W.NO_BITS, map[], 0), map[], map[])

  /** A running task takes its next step, or the client sends something that starts a new one. */
  datatype Action = Act(tid: Tid, choice: Choice, child: Tid) | Arrive(tid: Tid, task: Task)

  predicate StartsHandler(task: Task) {
    task.WantEdit? || task.WantWatch? || task.WantDocument?
  }

  predicate Blocked(s: State, tid: Tid)
    requires tid in s.tasks
  {
    Wants(s.tasks[tid]).Some? && Wants(s.tasks[tid]).value in s.locks
  }

  predicate Enabled(s: State, a: Action) {
    match a
    case Arrive(tid, task) => tid !in s.tasks && StartsHandler(task)
    case Act(tid, choice, child) =>
      && tid in s.tasks && child !in s.tasks
      && !Blocked(s, tid)
      && Offers(s.tasks[tid], choice)
  }

  function HeldBy(task: Option<Task>): set<Lock> {
    if task.Some? then Held(task.value) else {}
  }

  function NewLocks(locks: map<Lock, Tid>, tid: Tid, held: set<Lock>): map<Lock, Tid> {
    (map l | l in locks && locks[l] != tid :: locks[l]) + (map l | l in held :: tid)
  }

  function NewTasks(tasks: map<Tid, Task>, tid: Tid, o: Outcome, child: Tid): map<Tid, Task> {
    var moved := if o.next.Some? then tasks[tid := o.next.value] else tasks - {tid};
    if o.spawned.Some? then moved[child := o.spawned.value] else moved
  }

  /** What the chosen task does now: take the lock it waits for, or run to its next lock. */
  function OutcomeAt(s: State, tid: Tid, c: Choice): Outcome
    requires tid in s.tasks
  {
    var task := s.tasks[tid];
    if Wants(task).Some? then Go(s.data, Granted(task))
    else Body(task, s.data, c, Analysis !in s.locks)
  }

  function Do(s: State, a: Action): State
    requires Enabled(s, a)
  {
    match a
    case Arrive(tid, task) => s.(tasks := s.tasks[tid := task])
    case Act(tid, choice, child) =>
      var o := OutcomeAt(s, tid, choice);
      State(o.data, NewLocks(s.locks, tid, HeldBy(o.next)), NewTasks(s.tasks, tid, o, child))
  }

  /** A run: any interleaving of enabled actions from the start. */
  predicate IsRun(states: seq<State>, actions: seq<Action>) {
    && |states| == |actions| + 1
    && states[0] == START
    && forall i {:trigger actions[i]} ::
         0 <= i < |actions| ==> Enabled(states[i], actions[i]) && states[i + 1] == Do(states[i], actions[i])
  }
}
