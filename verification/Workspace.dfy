/** The project workspace: the value its fields hold, what each operation does to that value,
    and what every run of operations keeps. The checker itself is not modelled: a `Snapshot`
    is whatever it returned, together with the inputs it was given. */
module Workspace {
  import opened Prelude
  import opened Paths
  import Documents
  import CatalogBinding

  datatype Config = Config(sourceRoots: seq<Path>, tests: seq<Path>)

  datatype Project = Project(root: Path, config: Config) {
    predicate InOneOf(roots: seq<Path>, path: Path) {
      IsMarrowSource(path) && exists i :: 0 <= i < |roots| && Under(path, root + roots[i])
    }

    predicate TestModule(path: Path) { InOneOf(config.tests, path) }

    predicate AnalyzesFile(path: Path) { InOneOf(config.sourceRoots, path) || TestModule(path) }
  }

  datatype Scope = Interactive | Full

  type Sources = map<Path, string>

  datatype Prepared = Prepared(
    root: Path, config: Config, sources: Sources, binding: CatalogBinding.Binding,
    generation: nat, epoch: nat, sourceOnly: bool)

  datatype SourceFile = SourceFile(path: Path, hasErrors: bool)

  type Program = seq<string>

  /** One problem the checker reports, in the file it is reported for. */
  datatype Problem = Problem(file: Path, message: string)

  /** One analysis: the checked program, its files and report, the facts a binding index is
      built from, and the inputs the checker was given. */
  datatype Snapshot = Snapshot(
    program: Program, files: seq<SourceFile>, generation: nat, facts: string,
    report: seq<Problem>, inputs: Prepared)
  {
    predicate Good() {
      program != [] && forall i :: 0 <= i < |files| ==> !files[i].hasErrors
    }

    predicate Contains(file: Path) {
      exists i :: 0 <= i < |files| && files[i].path == file
    }
  }

  datatype BindingIndex = BindingIndex(facts: string)

  datatype IndexKey = IndexKey(root: Path, generation: nat)

  datatype LastGood = LastGood(snapshot: Snapshot, index: BindingIndex)

  datatype ReadSource = FromLatest | FromLastGood

  datatype Failure = NoProject | BadConfig | ContextFailed(error: CatalogBinding.Failure)

  /** The value of the workspace's fields. */
  datatype State = State(
    project: Option<Project>,
    latest: Option<Snapshot>,
    lastProgram: Option<Program>,
    lastGood: Option<LastGood>,
    index: Option<BindingIndex>,
    indexKey: Option<IndexKey>,
    installed: Option<nat>,
    cache: CatalogBinding.Cache,
    epoch: nat)

  const NEW := State(None, None, None, None, None, None, None, CatalogBinding.EMPTY, 0)

  function BuildIndex(snapshot: Snapshot): BindingIndex {
    BindingIndex(snapshot.facts)
  }

  function KeyFor(project: Project, snapshot: Snapshot): IndexKey {
    IndexKey(project.root, snapshot.generation)
  }

  /** The texts of the open buffers under `root`; a buffer outside cannot reach the checker. */
  function Overlay(root: Path, buffers: Documents.Buffers): Sources {
    map url | url in buffers && url.FileUrl? && Under(url.path, root) :: url.path := buffers[url].text
  }

  predicate AnyOpenTestModule(project: Project, capture: Documents.Capture) {
    exists url :: url in capture.buffers && url.FileUrl? && project.TestModule(url.path)
  }

  // ----- What each operation does to the value

  /** Whether the current project serves the file, so that none is resolved. */
  predicate Serves(w: State, file: Path) {
    w.project.Some? && Under(file, w.project.value.root)
  }

  /** The workspace once the file's project stands: a newly resolved one starts with an empty
      catalog cache, but leaves the old project's analysis in place. */
  function Switched(w: State, file: Path, resolved: Project): State {
    if Serves(w, file) then w else w.(project := Some(resolved), cache := CatalogBinding.EMPTY)
  }

  /** `resolved` is what walking up from the file and parsing the configuration yields; the catalog
      is bound from the project's store as `disk` and `attempt` let it be read. */
  function Prepare(w: State, file: Path, capture: Documents.Capture, scope: Scope,
                   resolved: Result<Project, Failure>,
                   disk: CatalogBinding.History, attempt: CatalogBinding.Attempt): (State, Result<Prepared, Failure>)
  {
    if !Serves(w, file) && resolved.Err? then (w, Err(resolved.error))
    else
      var project := if Serves(w, file) then w.project.value else resolved.value;
      var switched := Switched(w, file, project);
      var (cache, binding) := CatalogBinding.Bound(disk, attempt, switched.cache);
      (switched.(cache := cache),
       if binding.Err? then Err(ContextFailed(binding.error))
       else Ok(PreparedFor(project, capture, scope, binding.value, w.epoch)))
  }

  function PreparedFor(project: Project, capture: Documents.Capture, scope: Scope,
                       binding: CatalogBinding.Binding, epoch: nat): Prepared
  {
    Prepared(project.root, project.config, Overlay(project.root, capture.buffers), binding,
             capture.generation, epoch, scope == Interactive && !AnyOpenTestModule(project, capture))
  }

  predicate Accepts(w: State, generation: nat, epoch: nat) {
    && w.epoch == epoch
    && w.project.Some?
    && (w.installed.Some? ==> w.installed.value <= generation)
  }

  /** The analysis a read can still fall back on once `latest` is gone. */
  function Retained(w: State): Option<LastGood> {
    if w.latest.Some? && w.latest.value.Good()
    then Some(LastGood(w.latest.value, if w.index.Some? then w.index.value else BuildIndex(w.latest.value)))
    else w.lastGood
  }

  /** Whether a commit keeps the cached index: it was built under the new snapshot's key, and it
      was not moved into the retained analysis. */
  predicate KeepsIndex(w: State, snapshot: Snapshot)
    requires w.project.Some?
  {
    && w.index.Some?
    && w.indexKey == Some(KeyFor(w.project.value, snapshot))
    && (snapshot.Good() || w.latest.None? || !w.latest.value.Good())
  }

  function Commit(w: State, generation: nat, epoch: nat, snapshot: Snapshot): State {
    if !Accepts(w, generation, epoch) then w
    else
      var sameKey := w.indexKey == Some(KeyFor(w.project.value, snapshot));
      State(
        w.project,
        Some(snapshot),
        if snapshot.program != [] then Some(snapshot.program) else w.lastProgram,
        if snapshot.Good() then None else Retained(w),
        if KeepsIndex(w, snapshot) then w.index else None,
        if sameKey then w.indexKey else None,
        Some(generation),
        w.cache,
        w.epoch)
  }

  function EnsureIndex(w: State): State {
    if w.index.Some? || w.latest.None? || w.project.None? then w
    else w.(indexKey := Some(KeyFor(w.project.value, w.latest.value)),
            index := Some(BuildIndex(w.latest.value)))
  }

  predicate LatestAnswers(w: State, file: Path) {
    w.latest.Some? && w.latest.value.Good() && w.latest.value.Contains(file)
  }

  function Chosen(w: State, file: Path): Option<ReadSource> {
    if LatestAnswers(w, file) then Some(FromLatest)
    else if w.lastGood.Some? && w.lastGood.value.snapshot.Contains(file) then Some(FromLastGood)
    else None
  }

  function Choose(w: State, file: Path): State {
    if LatestAnswers(w, file) then EnsureIndex(w) else w
  }

  function InvalidateAnalysis(w: State): State {
    State(w.project, None, None, Retained(w), None, None, None, w.cache, w.epoch + 1)
  }

  function InvalidateProject(w: State): State {
    State(None, None, None, None, None, None, None, w.cache, w.epoch + 1)
  }

  /** The snapshot a request holding `capture` may treat as current facts. */
  function FreshLatest(w: State, capture: Documents.Capture): Option<Snapshot> {
    if w.latest.Some? && w.installed == Some(capture.generation) then w.latest else None
  }

  // ----- What a preparation hands to the checker

  /** The sources are the texts of the open files under the root, and nothing else. */
  ghost predicate OfBuffers(sources: Sources, root: Path, documents: Documents.Buffers) {
    && (forall path :: FileUrl(path) in documents && Under(path, root) ==>
          path in sources && sources[path] == documents[FileUrl(path)].text)
    && (forall path :: path in sources ==> FileUrl(path) in documents && Under(path, root))
  }

  lemma OverlayIsOfBuffers(root: Path, documents: Documents.Buffers)
    ensures OfBuffers(Overlay(root, documents), root, documents)
  {
    forall path | FileUrl(path) in documents && Under(path, root)
      ensures path in Overlay(root, documents)
    {
      assert FileUrl(path).path == path;
    }
  }

  /** A file is a test module of a project if it is a Marrow source below one of its test roots. */
  ghost predicate BelowTests(path: Path, project: Project) {
    IsMarrowSource(path) && exists tests :: tests in project.config.tests && Under(path, project.root + tests)
  }

  /** A preparation fails only for want of a project or of its catalog. What it hands to the checker
      otherwise is of the project that serves the file, or of the one just resolved, at the present
      epoch and the captured generation; and tests are left out exactly for a keystroke while no test
      module is open. */
  lemma PreparationIs(w: State, file: Path, capture: Documents.Capture, scope: Scope, resolved: Result<Project, Failure>,
                      disk: CatalogBinding.History, attempt: CatalogBinding.Attempt)
    ensures var (w', prepared) := Prepare(w, file, capture, scope, resolved, disk, attempt);
            var served := w.project.Some? && Under(file, w.project.value.root);
            if !served && resolved.Err? then w' == w && prepared == Err(resolved.error)
            else
              var project := if served then w.project.value else resolved.value;
              var cache := if served then w.cache else CatalogBinding.EMPTY;
              var binding := CatalogBinding.Bound(disk, attempt, cache).1;
              && w' == w.(project := Some(project), cache := CatalogBinding.Bound(disk, attempt, cache).0)
              && (binding.Err? ==> prepared == Err(ContextFailed(binding.error)))
              && (binding.Ok? ==>
                    && prepared.Ok?
                    && var p := prepared.value;
                       && p.root == project.root && p.config == project.config && p.binding == binding.value
                       && p.generation == capture.generation && p.epoch == w.epoch
                       && OfBuffers(p.sources, p.root, capture.buffers)
                       && (p.sourceOnly <==>
                             (scope.Interactive? && forall path :: FileUrl(path) in capture.buffers ==> !BelowTests(path, project))))
  {
    var served := w.project.Some? && Under(file, w.project.value.root);
    if served || resolved.Ok? {
      var project := if served then w.project.value else resolved.value;
      OverlayIsOfBuffers(project.root, capture.buffers);
      OpenTestsIff(project, capture);
    }
  }

  ghost predicate BelowSources(path: Path, project: Project) {
    IsMarrowSource(path) && exists sources :: sources in project.config.sourceRoots && Under(path, project.root + sources)
  }

  /** The files that belong to a project are those below its source and its test roots. */
  lemma BelongsIff(project: Project, path: Path)
    ensures project.AnalyzesFile(path) <==> BelowSources(path, project) || BelowTests(path, project)
  {
  }

  lemma OpenTestsIff(project: Project, capture: Documents.Capture)
    ensures AnyOpenTestModule(project, capture) <==>
            exists path :: FileUrl(path) in capture.buffers && BelowTests(path, project)
  {
    if url :| url in capture.buffers && url.FileUrl? && project.TestModule(url.path) {
      assert FileUrl(url.path) == url;
      assert BelowTests(url.path, project);
    }
    if path :| FileUrl(path) in capture.buffers && BelowTests(path, project) {
      var tests :| tests in project.config.tests && Under(path, project.root + tests);
      assert FileUrl(path).FileUrl? && FileUrl(path).path == path;
      assert project.TestModule(path);
    }
  }

  // ----- Runs

  datatype Op =
    | OpPrepare(file: Path, capture: Documents.Capture, scope: Scope,
                resolved: Result<Project, Failure>,
                disk: CatalogBinding.History, attempt: CatalogBinding.Attempt)
    | OpCommit(snapshot: Snapshot)
    | OpIndex
    | OpChoose(file: Path)
    | OpInvalidateAnalysis
    | OpInvalidateProject

  /** One operation. A commit presents the generation and epoch its inputs were captured at. */
  function Apply(w: State, op: Op): State {
    match op
    case OpPrepare(file, capture, scope, resolved, disk, attempt) =>
      Prepare(w, file, capture, scope, resolved, disk, attempt).0
    case OpCommit(snapshot) => Commit(w, snapshot.inputs.generation, snapshot.inputs.epoch, snapshot)
    case OpIndex => EnsureIndex(w)
    case OpChoose(file) => Choose(w, file)
    case OpInvalidateAnalysis => InvalidateAnalysis(w)
    case OpInvalidateProject => InvalidateProject(w)
  }

  /** The states a run passes through, oldest operation first. */
  function After(ops: seq<Op>): State {
    if ops == [] then NEW else Apply(After(ops[..|ops| - 1]), ops[|ops| - 1])
  }

  predicate Invalidates(op: Op) {
    op.OpInvalidateAnalysis? || op.OpInvalidateProject?
  }

  predicate AcceptedAt(w: State, op: Op) {
    op.OpCommit? && Accepts(w, op.snapshot.inputs.generation, op.snapshot.inputs.epoch)
  }

  /** The last good analysis a run accepted since its last project invalidation, read off the
      operations alone. */
  function LastAcceptedGood(ops: seq<Op>): Option<Snapshot> {
    if ops == [] then None
    else
      var before, op := ops[..|ops| - 1], ops[|ops| - 1];
      if op.OpInvalidateProject? then None
      else if AcceptedAt(After(before), op) && op.snapshot.Good() then Some(op.snapshot)
      else LastAcceptedGood(before)
  }

  /** The last analysis a run accepted since its last invalidation. */
  function LastAccepted(ops: seq<Op>): Option<Snapshot> {
    if ops == [] then None
    else
      var before, op := ops[..|ops| - 1], ops[|ops| - 1];
      if Invalidates(op) then None
      else if AcceptedAt(After(before), op) then Some(op.snapshot)
      else LastAccepted(before)
  }

  /** The last one's program that had any modules. */
  function LastProgramAccepted(ops: seq<Op>): Option<Program> {
    if ops == [] then None
    else
      var before, op := ops[..|ops| - 1], ops[|ops| - 1];
      if Invalidates(op) then None
      else if AcceptedAt(After(before), op) && op.snapshot.program != [] then Some(op.snapshot.program)
      else LastProgramAccepted(before)
  }

  /** Nothing but an invalidation or a newer commit displaces the latest analysis, and nothing but an
      invalidation the last program with modules. */
  lemma {:induction false} LatestIsTheLastAccepted(ops: seq<Op>)
    ensures After(ops).latest == LastAccepted(ops)
    ensures After(ops).lastProgram == LastProgramAccepted(ops)
    decreases |ops|
  {
    if ops != [] {
      LatestIsTheLastAccepted(ops[..|ops| - 1]);
    }
  }

  /** A read takes an analysis for current exactly if it is the last one accepted and of the
      generation the read captured. */
  lemma FreshIff(ops: seq<Op>, capture: Documents.Capture)
    ensures var last := LastAccepted(ops);
            FreshLatest(After(ops), capture) ==
              if last.Some? && last.value.inputs.generation == capture.generation then last else None
  {
    LatestIsTheLastAccepted(ops);
    LatestIsOfTheCurrentEpoch(ops);
  }

  /** The project last taken up, because no other held the file, since the last project invalidation. */
  function ProjectTaken(ops: seq<Op>): Option<Project> {
    if ops == [] then None
    else
      var taken, op := ProjectTaken(ops[..|ops| - 1]), ops[|ops| - 1];
      if op.OpInvalidateProject? then None
      else if !op.OpPrepare? || op.resolved.Err? || (taken.Some? && Under(op.file, taken.value.root)) then taken
      else Some(op.resolved.value)
  }

  /** A project stands until a preparation for a file it does not hold, or a project invalidation. */
  lemma {:induction false} ProjectIsTheLastTaken(ops: seq<Op>)
    ensures After(ops).project == ProjectTaken(ops)
    decreases |ops|
  {
    if ops != [] {
      ProjectIsTheLastTaken(ops[..|ops| - 1]);
    }
  }

  // ----- Where the index comes from and goes to

  /** A read that takes the latest analysis builds and keys its index if there is none; nothing else
      changes, and no other read changes anything. */
  lemma ReadBuildsTheIndex(w: State, file: Path)
    ensures var latest := w.latest;
      Apply(w, OpChoose(file)) ==
        if latest.Some? && latest.value.Good() && latest.value.Contains(file) && w.index.None? && w.project.Some?
        then w.(index := Some(BindingIndex(latest.value.facts)),
                indexKey := Some(IndexKey(w.project.value.root, latest.value.generation)))
        else w
  {
  }

  /** A good analysis that is displaced, by an invalidation or by one that is not good, is retained with
      the index it had, or else with its own. */
  lemma DisplacedIsRetained(w: State, op: Op)
    requires w.latest.Some? && w.latest.value.Good()
    requires op.OpInvalidateAnalysis? || (AcceptedAt(w, op) && !op.snapshot.Good())
    ensures var retained := Apply(w, op).lastGood;
      && retained.Some? && retained.value.snapshot == w.latest.value
      && (w.index.Some? ==> retained.value.index == w.index.value)
      && (w.index.None? ==> retained.value.index.facts == w.latest.value.facts)
  {
  }

  // ----- Exactly which commits are accepted

  /** No invalidation from step `i` on. */
  predicate UndisturbedFrom(ops: seq<Op>, i: nat) {
    forall k :: i <= k < |ops| ==> !Invalidates(ops[k])
  }

  lemma {:induction false} EpochCountsInvalidations(ops: seq<Op>, i: nat)
    requires i <= |ops|
    ensures After(ops[..i]).epoch <= After(ops).epoch
    ensures After(ops[..i]).epoch == After(ops).epoch <==> UndisturbedFrom(ops, i)
    ensures UndisturbedFrom(ops, i) && After(ops[..i]).project.Some? ==> After(ops).project.Some?
    decreases |ops|
  {
    if i < |ops| {
      var before := ops[..|ops| - 1];
      assert before[..i] == ops[..i];
      EpochCountsInvalidations(before, i);
      assert UndisturbedFrom(ops, i) <==> UndisturbedFrom(before, i) && !Invalidates(ops[|ops| - 1]) by {
        assert forall k :: i <= k < |before| ==> before[k] == ops[k];
      }
    } else {
      assert ops[..i] == ops;
    }
  }

  /** Step `k` installs an analysis that no later step invalidates. */
  predicate InstallsAt(ops: seq<Op>, k: nat) {
    k < |ops| && AcceptedAt(After(ops[..k]), ops[k]) && UndisturbedFrom(ops, k)
  }

  /** What is installed came from an installing step. */
  lemma {:induction false} InstalledComesFrom(ops: seq<Op>) returns (k: nat)
    requires After(ops).installed.Some?
    ensures InstallsAt(ops, k) && ops[k].snapshot.inputs.generation == After(ops).installed.value
    decreases |ops|
  {
    var n := |ops| - 1;
    if AcceptedAt(After(ops[..n]), ops[n]) {
      k := n;
    } else {
      k := InstalledComesFrom(ops[..n]);
    }
    InstallsOneLonger(ops, k);
  }

  /** And nothing installed before it and since the last invalidation is newer. */
  lemma {:induction false} InstalledIsTheNewest(ops: seq<Op>, k: nat)
    requires InstallsAt(ops, k)
    ensures var installed := After(ops).installed;
            installed.Some? && ops[k].snapshot.inputs.generation <= installed.value
    decreases |ops|
  {
    InstallsOneLonger(ops, k);
    if k + 1 < |ops| {
      InstalledIsTheNewest(ops[..|ops| - 1], k);
    }
  }

  lemma InstallsOneLonger(ops: seq<Op>, k: nat)
    requires ops != []
    ensures var n := |ops| - 1;
            InstallsAt(ops, k) <==>
              (InstallsAt(ops[..n], k) && !Invalidates(ops[n])) || (k == n && AcceptedAt(After(ops[..n]), ops[n]))
  {
    var n := |ops| - 1;
    if k < n {
      assert ops[..n][..k] == ops[..k];
      assert forall m :: k <= m < n ==> ops[..n][m] == ops[m];
      assert UndisturbedFrom(ops, k) <==> UndisturbedFrom(ops[..n], k) && !Invalidates(ops[n]);
    }
  }

  /** An analysis prepared at step `i` is accepted exactly if nothing was invalidated since, and nothing
      newer installed since the last invalidation. */
  lemma CommitIsAcceptedIff(ops: seq<Op>, i: nat, snapshot: Snapshot)
    requires i < |ops| && ops[i].OpPrepare?
    requires var op := ops[i];
             Prepare(After(ops[..i]), op.file, op.capture, op.scope, op.resolved, op.disk, op.attempt).1 == Ok(snapshot.inputs)
    ensures AcceptedAt(After(ops), OpCommit(snapshot)) <==>
      && UndisturbedFrom(ops, i)
      && forall k: nat :: InstallsAt(ops, k) ==> ops[k].snapshot.inputs.generation <= snapshot.inputs.generation
  {
    PreparedEpochStandsIff(ops, i);
    InstalledAtMostIff(ops, snapshot.inputs.generation);
  }

  lemma InstalledAtMostIff(ops: seq<Op>, generation: nat)
    ensures (After(ops).installed.Some? ==> After(ops).installed.value <= generation) <==>
            forall k: nat :: InstallsAt(ops, k) ==> ops[k].snapshot.inputs.generation <= generation
  {
    if After(ops).installed.Some? {
      var k := InstalledComesFrom(ops);
    }
    forall k: nat | InstallsAt(ops, k)
      ensures After(ops).installed.Some? && ops[k].snapshot.inputs.generation <= After(ops).installed.value
    {
      InstalledIsTheNewest(ops, k);
    }
  }

  lemma PreparedEpochStandsIff(ops: seq<Op>, i: nat)
    requires i < |ops| && ops[i].OpPrepare?
    ensures var (w, op) := (After(ops[..i]), ops[i]);
            var prepared := Prepare(w, op.file, op.capture, op.scope, op.resolved, op.disk, op.attempt).1;
            prepared.Ok? ==>
              && (After(ops).epoch == prepared.value.epoch <==> UndisturbedFrom(ops, i))
              && (UndisturbedFrom(ops, i) ==> After(ops).project.Some?)
  {
    PreparedAtStep(ops, i);
    EpochCountsInvalidations(ops, i + 1);
    assert UndisturbedFrom(ops, i) <==> UndisturbedFrom(ops, i + 1);
  }

  lemma PreparedAtStep(ops: seq<Op>, i: nat)
    requires i < |ops| && ops[i].OpPrepare?
    ensures var (w, op) := (After(ops[..i]), ops[i]);
            var prepared := Prepare(w, op.file, op.capture, op.scope, op.resolved, op.disk, op.attempt).1;
            prepared.Ok? ==> prepared.value.epoch == After(ops[..i + 1]).epoch && After(ops[..i + 1]).project.Some?
  {
    assert ops[..i + 1][..i] == ops[..i];
    assert After(ops[..i + 1]) == Apply(After(ops[..i]), ops[i]);
  }

  /** `good` lives in exactly one place: in `latest`, or else in `lastGood`. */
  predicate Houses(w: State, good: Option<Snapshot>) {
    match good
    case None => w.lastGood.None? && (w.latest.Some? ==> !w.latest.value.Good())
    case Some(snapshot) =>
      snapshot.Good() &&
      if w.latest == good then w.lastGood.None?
      else
        && (w.latest.Some? ==> !w.latest.value.Good())
        && w.lastGood.Some? && w.lastGood.value.snapshot == snapshot
  }

  lemma {:induction false} GoodAnalysisIsNeverLost(ops: seq<Op>)
    ensures Houses(After(ops), LastAcceptedGood(ops))
    decreases |ops|
  {
    if ops != [] {
      GoodAnalysisIsNeverLost(ops[..|ops| - 1]);
    }
  }

  /** A read is answered exactly when the last accepted good analysis covers the file, and it is
      answered from that very analysis. */
  lemma ReadAnswersFromLastAcceptedGood(ops: seq<Op>, file: Path)
    ensures var good := LastAcceptedGood(ops);
            var w := After(ops);
            && (Chosen(w, file).Some? <==> good.Some? && good.value.Contains(file))
            && (Chosen(w, file) == Some(FromLatest) ==> w.latest == good)
            && (Chosen(w, file) == Some(FromLastGood) ==> Some(w.lastGood.value.snapshot) == good)
  {
    GoodAnalysisIsNeverLost(ops);
  }

  /** `latest` was prepared in the current epoch, at the generation recorded for it. */
  predicate Current(w: State) {
    match w.latest
    case None => w.installed.None?
    case Some(snapshot) =>
      snapshot.inputs.epoch == w.epoch && w.installed == Some(snapshot.inputs.generation)
  }

  lemma {:induction false} LatestIsOfTheCurrentEpoch(ops: seq<Op>)
    ensures Current(After(ops))
    decreases |ops|
  {
    if ops != [] {
      LatestIsOfTheCurrentEpoch(ops[..|ops| - 1]);
    }
  }

  /** Between invalidations an installed generation is never replaced by an older one. */
  lemma {:induction false} InstalledGenerationNeverDecreases(ops: seq<Op>, i: nat)
    requires i <= |ops|
    requires forall k :: i <= k < |ops| ==> !Invalidates(ops[k])
    requires After(ops[..i]).installed.Some?
    ensures var last := After(ops).installed;
            last.Some? && After(ops[..i]).installed.value <= last.value
    decreases |ops|
  {
    if i < |ops| {
      var before := ops[..|ops| - 1];
      assert before[..i] == ops[..i];
      InstalledGenerationNeverDecreases(before, i);
    } else {
      assert ops[..i] == ops;
    }
  }

  // ----- The cached binding index

  /** Analyses of one root with one generation carry the same facts. */
  predicate Agree(a: Snapshot, b: Snapshot) {
    a.inputs.root == b.inputs.root && a.generation == b.generation ==> a.facts == b.facts
  }

  /** Every snapshot the run committed agrees with `snapshot`. */
  predicate AgreesWithAll(ops: seq<Op>, snapshot: Snapshot) {
    forall i :: 0 <= i < |ops| && ops[i].OpCommit? ==> Agree(ops[i].snapshot, snapshot)
  }

  /** Root and generation determine the facts of everything the run commits. */
  predicate FactsDetermined(ops: seq<Op>) {
    forall i :: 0 <= i < |ops| && ops[i].OpCommit? ==> AgreesWithAll(ops, ops[i].snapshot)
  }

  /** Whether the operation builds the cached index now. */
  predicate Builds(w: State, op: Op) {
    && (op.OpIndex? || (op.OpChoose? && LatestAnswers(w, op.file)))
    && w.index.None? && w.latest.Some? && w.project.Some?
  }

  /** An index is built, and an analysis accepted, only while the project is the one it is of. */
  predicate OnOwnRoot(w: State, op: Op) {
    && (Builds(w, op) ==> w.latest.value.inputs.root == w.project.value.root)
    && (AcceptedAt(w, op) ==> op.snapshot.inputs.root == w.project.value.root)
  }

  predicate StaysOnOwnRoot(ops: seq<Op>) {
    ops != [] ==> StaysOnOwnRoot(ops[..|ops| - 1]) && OnOwnRoot(After(ops[..|ops| - 1]), ops[|ops| - 1])
  }

  predicate IndexOfLatest(w: State) {
    w.index.Some? ==> w.latest.Some? && w.index.value == BuildIndex(w.latest.value)
  }

  predicate IndexesCoherent(w: State) {
    && IndexOfLatest(w)
    && (w.lastGood.Some? ==> w.lastGood.value.index == BuildIndex(w.lastGood.value.snapshot))
  }

  predicate KeyNamesLatest(w: State) {
    w.index.Some? ==>
      w.latest.Some? && w.indexKey == Some(IndexKey(w.latest.value.inputs.root, w.latest.value.generation))
  }

  /** Over any roots, as long as no index is built while the latest analysis is of another root than
      the project's, both indices are always those of the snapshots beside them. */
  lemma {:induction false} OwnRootIndexesAreCoherent(ops: seq<Op>, n: nat)
    requires n <= |ops| && FactsDetermined(ops) && StaysOnOwnRoot(ops[..n])
    ensures var w := After(ops[..n]);
            IndexesCoherent(w) && KeyNamesLatest(w) && (w.latest.Some? ==> AgreesWithAll(ops, w.latest.value))
    decreases n
  {
    if n > 0 {
      assert ops[..n][..n - 1] == ops[..n - 1];
      OwnRootIndexesAreCoherent(ops, n - 1);
      var w, op := After(ops[..n - 1]), ops[n - 1];
      assert After(ops[..n]) == Apply(w, op);
      if AcceptedAt(w, op) && KeepsIndex(w, op.snapshot) {
        assert Agree(op.snapshot, w.latest.value);
      }
    }
  }

  /** The run stays on one root. */
  predicate SingleRoot(ops: seq<Op>, root: Path) {
    && (forall i :: 0 <= i < |ops| && ops[i].OpPrepare? && ops[i].resolved.Ok? ==>
          ops[i].resolved.value.root == root)
    && (forall i :: 0 <= i < |ops| && ops[i].OpCommit? ==> ops[i].snapshot.inputs.root == root)
  }

  lemma {:induction false} SingleRootStaysOnIt(ops: seq<Op>, n: nat, root: Path)
    requires n <= |ops| && SingleRoot(ops, root)
    ensures StaysOnOwnRoot(ops[..n])
    ensures var w := After(ops[..n]);
            && (w.project.Some? ==> w.project.value.root == root)
            && (w.latest.Some? ==> w.latest.value.inputs.root == root)
    decreases n
  {
    if n > 0 {
      assert ops[..n][..n - 1] == ops[..n - 1];
      SingleRootStaysOnIt(ops, n - 1, root);
      assert After(ops[..n]) == Apply(After(ops[..n - 1]), ops[n - 1]);
    }
  }

  /** In a single-root run both indices are always those of the snapshots beside them. */
  lemma SingleRootIndexesAreCoherent(ops: seq<Op>, n: nat, root: Path)
    requires n <= |ops| && SingleRoot(ops, root) && FactsDetermined(ops)
    ensures IndexesCoherent(After(ops[..n]))
  {
    SingleRootStaysOnIt(ops, n, root);
    OwnRootIndexesAreCoherent(ops, n);
  }

  /** The cached index is absent, or keyed under another root than the project's, or keyed as
      the index of `latest` under the project's own root. */
  predicate KeyIsHonest(w: State)
    requires w.project.Some?
  {
    w.index.Some? && w.latest.Some? && w.indexKey.Some? && w.indexKey.value.root == w.project.value.root ==>
      w.indexKey.value == IndexKey(w.latest.value.inputs.root, w.latest.value.generation)
  }

  /** A snapshot of the current project that may be committed next. */
  predicate MayFollow(w: State, snapshot: Snapshot)
    requires w.project.Some?
  {
    && snapshot.inputs.root == w.project.value.root
    && Accepts(w, snapshot.inputs.generation, snapshot.inputs.epoch)
    && (w.latest.Some? ==> Agree(w.latest.value, snapshot))
  }

  /** Whatever roots the run visits, the key decides: every next commit leaves the index of its
      own snapshot cached exactly when the key is honest beforehand. */
  lemma HonestKeyIsExactlyWhatCommitsNeed(w: State)
    requires w.project.Some? && IndexOfLatest(w)
    ensures KeyIsHonest(w) <==>
            forall snapshot :: MayFollow(w, snapshot) ==> IndexOfLatest(Apply(w, OpCommit(snapshot)))
  {
    if !KeyIsHonest(w) {
      var project, latest := w.project.value, w.latest.value;
      var generation := if w.installed.Some? then w.installed.value else 0;
      var inputs := PreparedFor(project, Documents.Capture(generation, map[]), Full, CatalogBinding.Binding(None, None), w.epoch);
      var facts := latest.facts + "x";
      assert |facts| != |latest.facts|;
      var bad := Snapshot(["m"], [], w.indexKey.value.generation, facts, [], inputs);
      assert MayFollow(w, bad) && !IndexOfLatest(Apply(w, OpCommit(bad)));
    }
  }

  /** Building the index across roots always leaves a commit that would keep it beside an analysis it
      is not of. */
  lemma CrossRootIndexCanBeMisfiled(w: State) returns (snapshot: Snapshot)
    requires w.project.Some? && w.latest.Some? && w.index.None?
    requires w.latest.value.inputs.root != w.project.value.root
    ensures MayFollow(EnsureIndex(w), snapshot)
    ensures !IndexOfLatest(Apply(EnsureIndex(w), OpCommit(snapshot)))
  {
    HonestKeyIsExactlyWhatCommitsNeed(EnsureIndex(w));
    snapshot :| MayFollow(EnsureIndex(w), snapshot) && !IndexOfLatest(Apply(EnsureIndex(w), OpCommit(snapshot)));
  }

  /** Preparing for a file of another root keys the old analysis under the new root, so an index
      built in between survives the new root's first commit when the generations collide. */
  lemma RootSwitchCanMisfileTheIndex() returns (ops: seq<Op>)
    ensures !IndexOfLatest(After(ops))
    ensures FactsDetermined(ops)
  {
    var none := Documents.Capture(0, map[]);
    var config := Config([], []);
    var a, b := Project(["a"], config), Project(["b"], config);
    var free := CatalogBinding.Binding(None, None);
    var memory := CatalogBinding.Attempt(0, 0, 0, 0, Ok(false), false, None, None);
    var bare: CatalogBinding.History := _ => CatalogBinding.Disk(None, None, Ok(None));
    var inA := Snapshot(["m"], [], 7, "facts of a", [], PreparedFor(a, none, Full, free, 0));
    var inB := Snapshot(["m"], [], 7, "facts of b", [], PreparedFor(b, none, Full, free, 0));
    var toA := OpPrepare(["a", "f"], none, Full, Ok(a), bare, memory);
    var toB := OpPrepare(["b", "f"], none, Full, Ok(b), bare, memory);
    ops := [toA, OpCommit(inA), toB, OpIndex, OpCommit(inB)];
    assert ops[..4] == [toA, OpCommit(inA), toB, OpIndex];
    assert ops[..4][..3] == [toA, OpCommit(inA), toB];
    assert ops[..4][..3][..2] == [toA, OpCommit(inA)];
    assert ops[..4][..3][..2][..1] == [toA];
    assert After([toA]) == NEW.(project := Some(a), cache := CatalogBinding.Cache(None, None, None, true)) by { assert [toA][..0] == []; }
    assert After(ops[..4][..3][..2]).latest == Some(inA);
    assert "a"[0] != "b"[0];
    assert !Under(["b", "f"], ["a"]) by { assert ["b", "f"][0] != ["a"][0]; }
    assert After(ops[..4][..3]).project == Some(b);
    assert After(ops[..4]).index == Some(BuildIndex(inA));
  }

  // ----- The catalog bound for a check

  /** Every project's store, over all time. */
  type Stores = Project -> CatalogBinding.History

  /** The project a preparation that finds one works for. */
  function ProjectFor(w: State, op: Op): Option<Project>
    requires op.OpPrepare?
  {
    if Serves(w, op.file) then w.project else if op.resolved.Ok? then Some(op.resolved.value) else None
  }

  /** Each preparation reads the store of the project it works for. */
  ghost predicate ReadsOwnStores(ops: seq<Op>, stores: Stores) {
    ops != [] ==>
      var before, op := ops[..|ops| - 1], ops[|ops| - 1];
      && ReadsOwnStores(before, stores)
      && (op.OpPrepare? && ProjectFor(After(before), op).Some? ==> op.disk == stores(ProjectFor(After(before), op).value))
  }

  /** The binds made since the workspace last took up a project. */
  function BindsSince(ops: seq<Op>): seq<CatalogBinding.Attempt> {
    if ops == [] then []
    else
      var before, op := ops[..|ops| - 1], ops[|ops| - 1];
      if !op.OpPrepare? || ProjectFor(After(before), op).None? then BindsSince(before)
      else (if Serves(After(before), op.file) then BindsSince(before) else []) + [op.attempt]
  }

  /** The cache has never seen another project's store. */
  lemma {:induction false} CacheIsOfTheProject(ops: seq<Op>, stores: Stores)
    requires ReadsOwnStores(ops, stores)
    ensures var w := After(ops);
            w.project.Some? ==> w.cache == CatalogBinding.CacheAfter(stores(w.project.value), BindsSince(ops))
    decreases |ops|
  {
    if ops != [] {
      var before, op := ops[..|ops| - 1], ops[|ops| - 1];
      CacheIsOfTheProject(before, stores);
      if op.OpPrepare? && ProjectFor(After(before), op).Some? {
        var binds := BindsSince(ops);
        assert binds[..|binds| - 1] == if Serves(After(before), op.file) then BindsSince(before) else [];
      }
    }
  }

  /** Whatever projects the run visited before, the catalog a check is given is a direct read of its
      own project's store: at an instant of this preparation, or while the store is locked the last
      one confirmed since the project was taken up, or else the first run. */
  lemma PreparedCatalogIsOfItsOwnProject(ops: seq<Op>, op: Op, stores: Stores)
    requires op.OpPrepare? && ReadsOwnStores(ops + [op], stores)
    requires forall project :: CatalogBinding.StorePromises(stores(project))
    requires CatalogBinding.Ordered(BindsSince(ops + [op]))
    ensures var w := After(ops);
            var prepared := Prepare(w, op.file, op.capture, op.scope, op.resolved, op.disk, op.attempt).1;
            prepared.Ok? ==>
              var project := ProjectFor(w, op).value;
              var disk := stores(project);
              var binds := if Serves(w, op.file) then BindsSince(ops) else [];
              var onDisk := op.attempt.onDisk.Ok? && op.attempt.onDisk.value;
              var at := CatalogBinding.ConfirmedAt(disk, op.attempt, CatalogBinding.CacheAfter(disk, binds));
              var accepted := prepared.value.binding.accepted;
              && prepared.value.root == project.root
              && (at.Some? ==> op.attempt.looked <= at.value <= op.attempt.openedAt
                               && accepted == CatalogBinding.DirectRead(disk, onDisk, at.value))
              && (at.None? ==> accepted == CatalogBinding.OrFirstRun(CatalogBinding.LastConfirmed(disk, binds)))
  {
    var all, w := ops + [op], After(ops);
    assert all[..|all| - 1] == ops;
    if ProjectFor(w, op).Some? {
      CacheIsOfTheProject(ops, stores);
      var binds := if Serves(w, op.file) then BindsSince(ops) else [];
      assert BindsSince(all) == binds + [op.attempt];
      CatalogBinding.BindRefinesADirectRead(stores(ProjectFor(w, op).value), binds, op.attempt);
    }
  }

  // ----- Merged invalidations

  datatype Bits = Bits(analysis: bool, project: bool)

  const NO_BITS := Bits(false, false)

  function Or(a: Bits, b: Bits): Bits {
    Bits(a.analysis || b.analysis, a.project || b.project)
  }

  function ApplyBits(w: State, bits: Bits): State {
    if bits.project then InvalidateProject(w)
    else if bits.analysis then InvalidateAnalysis(w)
    else w
  }

  function OrAll(all: seq<Bits>): Bits {
    if all == [] then NO_BITS else Or(OrAll(all[..|all| - 1]), all[|all| - 1])
  }

  function ApplyEach(w: State, all: seq<Bits>): State {
    if all == [] then w else ApplyBits(ApplyEach(w, all[..|all| - 1]), all[|all| - 1])
  }

  /** Equal but for how many invalidations were counted, and agreeing on whether any was. */
  predicate SameUpToEpoch(base: State, a: State, b: State) {
    a.(epoch := 0) == b.(epoch := 0) && (a.epoch == base.epoch <==> b.epoch == base.epoch)
  }

  /** Invalidations recorded as OR-ed bits and applied once leave the state that applying each on
      its own, in the order they came, would have left. */
  lemma {:induction false} MergedInvalidationsApplyOnce(w: State, all: seq<Bits>)
    ensures SameUpToEpoch(w, ApplyBits(w, OrAll(all)), ApplyEach(w, all))
    ensures w.epoch <= ApplyEach(w, all).epoch
    decreases |all|
  {
    if all != [] {
      MergedInvalidationsApplyOnce(w, all[..|all| - 1]);
    }
  }

  lemma {:induction false} OrAllIsEither(all: seq<Bits>)
    ensures OrAll(all).analysis <==> exists b :: b in all && b.analysis
    ensures OrAll(all).project <==> exists b :: b in all && b.project
    decreases |all|
  {
    if all != [] {
      var before := all[..|all| - 1];
      assert all == before + [all[|all| - 1]];
      OrAllIsEither(before);
    }
  }

  /** So the order does not matter, nor how often a bit was raised. */
  lemma InvalidationOrderIsIrrelevant(w: State, some: seq<Bits>, other: seq<Bits>)
    requires forall b :: b in some <==> b in other
    ensures SameUpToEpoch(w, ApplyEach(w, some), ApplyEach(w, other))
  {
    OrAllIsEither(some);
    OrAllIsEither(other);
    MergedInvalidationsApplyOnce(w, some);
    MergedInvalidationsApplyOnce(w, other);
  }

  // ----- The workspace object

  class Workspace {
    var project: Option<Project>
    var latest: Option<Snapshot>
    var lastProgram: Option<Program>
    var lastGood: Option<LastGood>
    var bindingIndex: Option<BindingIndex>
    var bindingIndexKey: Option<IndexKey>
    var latestDocumentsGeneration: Option<nat>
    var catalogBinding: CatalogBinding.CatalogBindingCache
    var invalidationEpoch: nat

    ghost function View(): State
      reads this, catalogBinding
    {
      State(project, latest, lastProgram, lastGood, bindingIndex, bindingIndexKey,
            latestDocumentsGeneration, catalogBinding.View(), invalidationEpoch)
    }

    constructor ()
      ensures View() == NEW && fresh(catalogBinding)
    {
      project, latest, lastProgram, lastGood := None, None, None, None;
      bindingIndex, bindingIndexKey, latestDocumentsGeneration := None, None, None;
      invalidationEpoch := 0;
      catalogBinding := new CatalogBinding.CatalogBindingCache();
    }

    method PrepareRecompute(file: Path, capture: Documents.Capture, scope: Scope,
                            resolved: Result<Project, Failure>,
                            disk: CatalogBinding.History, attempt: CatalogBinding.Attempt)
      returns (r: Result<Prepared, Failure>)
      modifies this, catalogBinding
      ensures (View(), r) == Prepare(old(View()), file, capture, scope, resolved, disk, attempt)
      ensures catalogBinding == old(catalogBinding) || fresh(catalogBinding)
    {
      if !(project.Some? && Under(file, project.value.root)) {
        if resolved.Err? {
          return Err(resolved.error);
        }
        project := Some(resolved.value);
        catalogBinding := new CatalogBinding.CatalogBindingCache();
      }
      var current := project.value;
      var sourceOnly := scope == Interactive && !AnyOpenTestModule(current, capture);
      var sources := Overlay(current.root, capture.buffers);
      var binding := catalogBinding.Bind(disk, attempt);
      if binding.Err? {
        return Err(ContextFailed(binding.error));
      }
      r := Ok(Prepared(current.root, current.config, sources, binding.value,
                       capture.generation, invalidationEpoch, sourceOnly));
    }

    method CommitRecompute(generation: nat, capturedEpoch: nat, snapshot: Snapshot) returns (stored: bool)
      modifies this
      ensures catalogBinding == old(catalogBinding)
      ensures stored == Accepts(old(View()), generation, capturedEpoch)
      ensures View() == Commit(old(View()), generation, capturedEpoch, snapshot)
    {
      if invalidationEpoch != capturedEpoch {
        return false;
      }
      if project.None? {
        return false;
      }
      if latestDocumentsGeneration.Some? && generation < latestDocumentsGeneration.value {
        return false;
      }
      var key := KeyFor(project.value, snapshot);
      if snapshot.program != [] {
        lastProgram := Some(snapshot.program);
      }
      if snapshot.Good() {
        lastGood := None;
      } else if latest.Some? {
        var previous := latest.value;
        latest := None;
        if previous.Good() {
          var index := if bindingIndex.Some? then bindingIndex.value else BuildIndex(previous);
          bindingIndex := None;
          lastGood := Some(LastGood(previous, index));
        }
      }
      var keep := bindingIndexKey == Some(key);
      latest := Some(snapshot);
      if !keep {
        bindingIndex, bindingIndexKey := None, None;
      }
      latestDocumentsGeneration := Some(generation);
      stored := true;
    }

    method BindingIndexOfLatest() returns (index: Option<BindingIndex>)
      modifies this
      ensures catalogBinding == old(catalogBinding)
      ensures View() == EnsureIndex(old(View())) && index == bindingIndex
    {
      if bindingIndex.None? {
        if latest.None? || project.None? {
          return None;
        }
        bindingIndexKey := Some(KeyFor(project.value, latest.value));
        bindingIndex := Some(BuildIndex(latest.value));
      }
      index := bindingIndex;
    }

    method ChooseReadSource(file: Path) returns (source: Option<ReadSource>)
      modifies this
      ensures catalogBinding == old(catalogBinding)
      ensures View() == Choose(old(View()), file) && source == Chosen(old(View()), file)
    {
      if latest.Some? && latest.value.Good() && latest.value.Contains(file) {
        var _ := BindingIndexOfLatest();
        return Some(FromLatest);
      }
      if lastGood.Some? && lastGood.value.snapshot.Contains(file) {
        return Some(FromLastGood);
      }
      source := None;
    }

    method FreshLatestFromSnapshot(capture: Documents.Capture) returns (current: Option<Snapshot>)
      ensures current == FreshLatest(View(), capture)
    {
      current := if latest.Some? && latestDocumentsGeneration == Some(capture.generation) then latest else None;
    }

    method ClearLatest()
      modifies this
      ensures catalogBinding == old(catalogBinding)
      ensures View() == State(old(project), None, None, old(lastGood), None, None, None, old(catalogBinding.View()), old(invalidationEpoch))
    {
      latest, lastProgram := None, None;
      bindingIndex, bindingIndexKey, latestDocumentsGeneration := None, None, None;
    }

    method DemoteLatestToLastGood()
      modifies this
      ensures catalogBinding == old(catalogBinding)
      ensures View() == if old(latest).Some? && old(latest).value.Good()
                        then old(View()).(latest := None, index := None, lastGood := Retained(old(View())))
                        else old(View())
    {
      if latest.None? || !latest.value.Good() {
        return;
      }
      var snapshot := latest.value;
      latest := None;
      var index := if bindingIndex.Some? then bindingIndex.value else BuildIndex(snapshot);
      bindingIndex := None;
      lastGood := Some(LastGood(snapshot, index));
    }

    method InvalidateAnalysisFacts()
      modifies this
      ensures catalogBinding == old(catalogBinding)
      ensures View() == InvalidateAnalysis(old(View()))
    {
      invalidationEpoch := invalidationEpoch + 1;
      DemoteLatestToLastGood();
      ClearLatest();
    }

    method InvalidateProjectFacts()
      modifies this
      ensures catalogBinding == old(catalogBinding)
      ensures View() == InvalidateProject(old(View()))
    {
      invalidationEpoch := invalidationEpoch + 1;
      project := None;
      lastGood := None;
      ClearLatest();
    }

    method ApplyPendingInvalidation(bits: Bits)
      modifies this
      ensures catalogBinding == old(catalogBinding)
      ensures View() == ApplyBits(old(View()), bits)
    {
      if bits.project {
        InvalidateProjectFacts();
      } else if bits.analysis {
        InvalidateAnalysisFacts();
      }
    }
  }
}
