/** Which URLs each project root has non-empty diagnostics published for, and how recomputes,
    closes and file-watcher events change that together with what the client shows. */
module Diagnostics {
  import opened Prelude
  import opened Paths
  import opened Workspace

  type Report = map<Url, seq<string>>

  datatype RootDiagnostics = RootDiagnostics(epoch: nat, nonEmpty: set<Url>)

  type Tracker = map<Path, RootDiagnostics>

  /** Which tracked URLs a run may speak for. */
  datatype ReconcileScope = Whole | SourceOnly(analyzed: set<Url>) {
    predicate Covers(url: Url) { Whole? || url in analyzed }
  }

  function At(tracker: Tracker, root: Path): RootDiagnostics {
    if root in tracker then tracker[root] else RootDiagnostics(0, {})
  }

  predicate Tracked(tracker: Tracker, url: Url) {
    exists root :: root in tracker && url in tracker[root].nonEmpty
  }

  /** Whether the last set the client received for `url` has entries. */
  predicate Shows(client: Report, url: Url) {
    url in client && client[url] != []
  }

  predicate IsStale(tracker: Tracker, root: Path, epoch: nat) {
    At(tracker, root).epoch != epoch
  }

  function Bump(tracker: Tracker, root: Path): Tracker {
    tracker[root := At(tracker, root).(epoch := At(tracker, root).epoch + 1)]
  }

  function ClearedRoot(tracker: Tracker, root: Path): Tracker {
    if root in tracker then tracker[root := tracker[root].(nonEmpty := {})] else tracker
  }

  /** Stop tracking `urls` under `root`; a root without an entry gets none. */
  function WithoutUrls(tracker: Tracker, root: Path, urls: set<Url>): Tracker {
    if root in tracker then tracker[root := tracker[root].(nonEmpty := tracker[root].nonEmpty - urls)] else tracker
  }

  // ----- Grouping a report by file

  /** The messages of the problems in one file, in the order they were reported. */
  function MessagesFor(problems: seq<Problem>, path: Path): seq<string> {
    if problems == [] then []
    else
      var last := problems[|problems| - 1];
      MessagesFor(problems[..|problems| - 1], path) + if last.file == path then [last.message] else []
  }

  function MessagesAt(problems: seq<Problem>, url: Url): seq<string> {
    if url.FileUrl? then MessagesFor(problems, url.path) else []
  }

  predicate Reported(problems: seq<Problem>, path: Path) {
    exists i :: 0 <= i < |problems| && problems[i].file == path
  }

  function Files(problems: seq<Problem>): set<Url> {
    if problems == [] then {} else Files(problems[..|problems| - 1]) + {FileUrl(problems[|problems| - 1].file)}
  }

  /** A set for every open file, and for every file reported on. */
  function Grouped(problems: seq<Problem>, open: set<Url>): Report {
    map url | url in open + Files(problems) :: MessagesAt(problems, url)
  }

  lemma {:induction false} NoProblemsNoMessages(problems: seq<Problem>, path: Path)
    ensures MessagesFor(problems, path) != [] <==> Reported(problems, path)
    ensures FileUrl(path) in Files(problems) <==> Reported(problems, path)
    ensures forall url :: url in Files(problems) ==> url.FileUrl?
    decreases |problems|
  {
    if problems != [] {
      NoProblemsNoMessages(problems[..|problems| - 1], path);
      assert problems[|problems| - 1].file == path ==> Reported(problems, path);
      if i :| 0 <= i < |problems| && problems[i].file == path {
        assert i < |problems| - 1 ==> problems[..|problems| - 1][i].file == path;
      }
    }
  }

  lemma OneMoreMessage(problems: seq<Problem>, url: Url)
    requires problems != []
    ensures var before, last := problems[..|problems| - 1], problems[|problems| - 1];
            MessagesAt(problems, url) == MessagesAt(before, url) + if url == FileUrl(last.file) then [last.message] else []
  {
  }

  lemma OneMoreProblem(before: seq<Problem>, problems: seq<Problem>, open: set<Url>, last: Problem)
    requires problems != [] && before == problems[..|problems| - 1] && last == problems[|problems| - 1]
    ensures var url, grouped := FileUrl(last.file), Grouped(before, open);
            Grouped(problems, open) == grouped[url := (if url in grouped then grouped[url] else []) + [last.message]]
  {
    var url, grouped, now := FileUrl(last.file), Grouped(before, open), Grouped(problems, open);
    NoProblemsNoMessages(before, last.file);
    forall other | other in now
      ensures now[other] == if other == url then MessagesAt(before, url) + [last.message] else MessagesAt(before, other)
    {
      OneMoreMessage(problems, other);
      assert MessagesAt(before, other) + [] == MessagesAt(before, other);
    }
    assert now.Keys == grouped.Keys + {url};
  }

  /** Every open file gets a set; then each problem goes to its own file's. */
  method ReportToDiagnostics(problems: seq<Problem>, open: set<Url>) returns (result: Report)
    requires forall url :: url in open ==> url.FileUrl?
    ensures result == Grouped(problems, open)
  {
    result := map url | url in open :: [];
    for i := 0 to |problems|
      invariant result == Grouped(problems[..i], open)
    {
      assert problems[..i + 1][..i] == problems[..i];
      OneMoreProblem(problems[..i], problems[..i + 1], open, problems[i]);
      var url := FileUrl(problems[i].file);
      var messages := if url in result then result[url] else [];
      result := result[url := messages + [problems[i].message]];
    }
    assert problems[..|problems|] == problems;
  }

  // ----- Reconciling one successful run

  /** The sets the run publishes: its own, and an empty one for each tracked URL it covers. */
  function Outgoing(tracker: Tracker, root: Path, scope: ReconcileScope, report: Report): Report {
    Emptied(report, At(tracker, root).nonEmpty, scope)
  }

  function Emptied(report: Report, urls: set<Url>, scope: ReconcileScope): Report {
    report + map url | url in urls && scope.Covers(url) && url !in report :: []
  }

  function Uncovered(urls: set<Url>, scope: ReconcileScope): set<Url> {
    set url | url in urls && !scope.Covers(url)
  }

  function NonEmpty(report: Report): set<Url> {
    set url | url in report && report[url] != []
  }

  lemma EmptiedOneByOne(report: Report, urls: set<Url>, scope: ReconcileScope, url: Url)
    ensures var now := Emptied(report, urls, scope);
            && Emptied(report, urls + {url}, scope) == (if scope.Covers(url) && url !in now then now[url := []] else now)
            && NonEmpty(now) == NonEmpty(report)
    ensures Uncovered(urls + {url}, scope) == Uncovered(urls, scope) + (if scope.Covers(url) then {} else {url})
  {
  }

  function Reconciled(tracker: Tracker, root: Path, scope: ReconcileScope, report: Report): Tracker {
    tracker[root := At(tracker, root).(nonEmpty :=
      NonEmpty(report) + Uncovered(At(tracker, root).nonEmpty, scope))]
  }

  /** A file a source-only run neither analysed nor reported keeps its place in the tracker and
      what the client shows for it. */
  lemma SourceOnlyLeavesTheRestUntouched(tracker: Tracker, client: Report, root: Path,
                                         analyzed: set<Url>, report: Report, url: Url)
    requires url !in analyzed && url !in report
    ensures var scope := SourceOnly(analyzed);
            var tracker' := Reconciled(tracker, root, scope, report);
            var client' := client + Outgoing(tracker, root, scope, report);
            && (forall r :: url in At(tracker', r).nonEmpty <==> url in At(tracker, r).nonEmpty)
            && (url in client' <==> url in client)
            && (url in client ==> client'[url] == client[url])
  {
  }

  // ----- Watched-file events

  datatype Event =
    | ConfigChanged(root: Path, path: Path, deleted: bool)
    | FileChanged(root: Path, path: Path, deletedUrl: Option<Url>)

  datatype PendingRoot = PendingRoot(
    recompute: Option<Path>, project: bool, analysis: bool, clearRoot: bool, deleted: set<Url>)

  datatype Scheduled = Scheduled(path: Path, root: Path, epoch: nat)

  datatype ClearRootDrain = DrainSchedules | DrainSkips

  const NOTHING_PENDING := PendingRoot(None, false, false, false, {})

  function LastConfigPath(events: seq<Event>, root: Path): Option<Path> {
    if events == [] then None
    else
      var last := events[|events| - 1];
      if last.ConfigChanged? && last.root == root then Some(last.path)
      else LastConfigPath(events[..|events| - 1], root)
  }

  function FirstFilePath(events: seq<Event>, root: Path): Option<Path> {
    if events == [] then None
    else
      var earlier := FirstFilePath(events[..|events| - 1], root);
      var last := events[|events| - 1];
      if earlier.None? && last.FileChanged? && last.root == root then Some(last.path) else earlier
  }

  predicate ConfigDeleted(events: seq<Event>, root: Path) {
    exists e :: e in events && e.ConfigChanged? && e.root == root && e.deleted
  }

  /** What a batch of events amounts to for one root: a deleted configuration clears the whole
      root and makes single deletions moot; a configuration path wins over any file path. */
  function PendingFor(events: seq<Event>, root: Path): PendingRoot {
    var config, file := LastConfigPath(events, root), FirstFilePath(events, root);
    PendingRoot(
      if config.Some? then config else file,
      config.Some?,
      file.Some?,
      ConfigDeleted(events, root),
      if ConfigDeleted(events, root) then {}
      else set e | e in events && e.FileChanged? && e.root == root && e.deletedUrl.Some? :: e.deletedUrl.value)
  }

  /** One more event folded into the root it names, as the accumulating loop does. */
  function Folded(pending: PendingRoot, event: Event): PendingRoot {
    match event
    case ConfigChanged(_, path, deleted) =>
      PendingRoot(Some(path), true, pending.analysis, pending.clearRoot || deleted,
                  if deleted then {} else pending.deleted)
    case FileChanged(_, path, url) =>
      PendingRoot(if !pending.clearRoot && pending.recompute.None? then Some(path) else pending.recompute,
                  pending.project, true, pending.clearRoot,
                  if url.Some? && !pending.clearRoot then pending.deleted + {url.value} else pending.deleted)
  }

  lemma {:induction false} PathsComeFromEvents(events: seq<Event>, root: Path)
    ensures LastConfigPath(events, root).Some? <==> exists e :: e in events && e.ConfigChanged? && e.root == root
    ensures FirstFilePath(events, root).Some? <==> exists e :: e in events && e.FileChanged? && e.root == root
    decreases |events|
  {
    if events != [] {
      PathsComeFromEvents(events[..|events| - 1], root);
      assert events == events[..|events| - 1] + [events[|events| - 1]];
    }
  }

  lemma OneMoreEvent(events: seq<Event>, event: Event)
    ensures PendingFor(events + [event], event.root) == Folded(PendingFor(events, event.root), event)
    ensures forall root :: root != event.root ==> PendingFor(events + [event], root) == PendingFor(events, root)
  {
    var more := events + [event];
    assert more[..|more| - 1] == events;
    PathsComeFromEvents(events, event.root);
    forall root
      ensures ConfigDeleted(more, root) <==>
              ConfigDeleted(events, root) || (event.ConfigChanged? && event.root == root && event.deleted)
    {
      if ConfigDeleted(events, root) {
        var e :| e in events && e.ConfigChanged? && e.root == root && e.deleted;
        assert e in more;
      }
      if event.ConfigChanged? && event.root == root && event.deleted {
        assert event in more;
      }
    }
    forall root | root != event.root
      ensures PendingFor(more, root) == PendingFor(events, root)
    {
    }
  }

  /** What a whole batch amounts to, root by root. */
  function PendingOf(events: seq<Event>): map<Path, PendingRoot> {
    map e | e in events :: e.root := PendingFor(events, e.root)
  }

  method PendingWatchedRoots(events: seq<Event>) returns (pending: map<Path, PendingRoot>)
    ensures pending == PendingOf(events)
  {
    pending := map[];
    for i := 0 to |events|
      invariant forall root :: root in pending <==> exists e :: e in events[..i] && e.root == root
      invariant forall root :: (if root in pending then pending[root] else NOTHING_PENDING) == PendingFor(events[..i], root)
    {
      var event := events[i];
      var root := event.root;
      assert events[..i + 1] == events[..i] + [event];
      OneMoreEvent(events[..i], event);
      var p := if root in pending then pending[root] else NOTHING_PENDING;
      p := Fold(p, event);
      pending := pending[root := p];
    }
    assert events[..|events|] == events;
    assert pending.Keys == PendingOf(events).Keys;
  }

  method Fold(before: PendingRoot, event: Event) returns (p: PendingRoot)
    ensures p == Folded(before, event)
  {
    p := before;
    match event {
      case ConfigChanged(_, path, deleted) =>
        p := p.(project := true, recompute := Some(path));
        if deleted {
          p := p.(clearRoot := true, deleted := {});
        }
      case FileChanged(_, path, deletedUrl) =>
        p := p.(analysis := true);
        if !p.clearRoot && p.recompute.None? {
          p := p.(recompute := Some(path));
        }
        if deletedUrl.Some? && !p.clearRoot {
          p := p.(deleted := p.deleted + {deletedUrl.value});
        }
    }
  }

  /** What one root's diagnostics become. An open buffer's deletion is not a deletion. */
  function RootAfter(before: RootDiagnostics, p: PendingRoot, open: set<Url>): RootDiagnostics {
    if p.clearRoot then RootDiagnostics(before.epoch + 1, {})
    else RootDiagnostics(before.epoch + (if p.recompute.Some? then 1 else 0), before.nonEmpty - (p.deleted - open))
  }

  function TrackerAfter(tracker: Tracker, pending: map<Path, PendingRoot>, open: set<Url>): Tracker {
    tracker + map root |
      root in pending && (root in tracker || pending[root].clearRoot || pending[root].recompute.Some?)
      :: RootAfter(At(tracker, root), pending[root], open)
  }

  function ClearsAt(tracker: Tracker, root: Path, p: PendingRoot, open: set<Url>): set<Url> {
    if p.clearRoot then At(tracker, root).nonEmpty else At(tracker, root).nonEmpty * (p.deleted - open)
  }

  function Clears(tracker: Tracker, pending: map<Path, PendingRoot>, open: set<Url>): set<Url> {
    set root, url | root in pending && url in ClearsAt(tracker, root, pending[root], open) :: url
  }

  predicate Reschedules(p: PendingRoot, drain: ClearRootDrain) {
    p.recompute.Some? && (!p.clearRoot || drain == DrainSchedules)
  }

  function Schedules(tracker: Tracker, pending: map<Path, PendingRoot>, drain: ClearRootDrain): set<Scheduled> {
    set root | root in pending && Reschedules(pending[root], drain)
      :: Scheduled(pending[root].recompute.value, root, At(tracker, root).epoch + 1)
  }

  /** Everything one batch of events asks for beside the tracker update. */
  datatype Effects = Effects(bits: Bits, schedules: set<Scheduled>, clears: set<Url>, invalidate: Bits)

  function EffectsOf(tracker: Tracker, pending: map<Path, PendingRoot>, open: set<Url>,
                     current: Option<Path>, drain: ClearRootDrain): Effects
  {
    Effects(PendingBits(pending), Schedules(tracker, pending, drain), Clears(tracker, pending, open),
            CurrentRootBits(pending, current))
  }

  function PendingBits(pending: map<Path, PendingRoot>): Bits {
    Bits(exists root :: root in pending && pending[root].analysis,
         exists root :: root in pending && pending[root].project)
  }

  /** Only events on the workspace's own root invalidate it directly. */
  function CurrentRootBits(pending: map<Path, PendingRoot>, current: Option<Path>): Bits {
    if current.Some? && current.value in pending
    then Bits(pending[current.value].analysis, pending[current.value].project)
    else NO_BITS
  }

  /** Every URL a batch stops tracking altogether is among those it clears on the client. */
  lemma DroppedUrlsAreCleared(tracker: Tracker, pending: map<Path, PendingRoot>, open: set<Url>, url: Url)
    requires Tracked(tracker, url) && !Tracked(TrackerAfter(tracker, pending, open), url)
    ensures url in Clears(tracker, pending, open)
  {
    var root :| root in tracker && url in tracker[root].nonEmpty;
    var after := TrackerAfter(tracker, pending, open);
    assert root in after && url !in after[root].nonEmpty;
    assert root in pending && url in ClearsAt(tracker, root, pending[root], open);
  }

  // ----- What a batch does, read off its events

  predicate ConfigOf(e: Event, root: Path) { e.ConfigChanged? && e.root == root }

  predicate FileOf(e: Event, root: Path) { e.FileChanged? && e.root == root }

  predicate Named(events: seq<Event>, root: Path) {
    exists i :: 0 <= i < |events| && events[i].root == root
  }

  /** The configuration of the root was deleted. */
  predicate Unconfigured(events: seq<Event>, root: Path) {
    exists i :: 0 <= i < |events| && ConfigOf(events[i], root) && events[i].deleted
  }

  predicate LastConfigAt(events: seq<Event>, root: Path, i: nat) {
    i < |events| && ConfigOf(events[i], root) && forall j :: i < j < |events| ==> !ConfigOf(events[j], root)
  }

  predicate FirstFileAt(events: seq<Event>, root: Path, i: nat) {
    && i < |events| && FileOf(events[i], root)
    && (forall j :: 0 <= j < i ==> !FileOf(events[j], root))
    && (forall j :: 0 <= j < |events| ==> !ConfigOf(events[j], root))
  }

  /** The path to recompute the root for: its last configuration event's, or without any its first
      file event's. */
  ghost predicate PathOf(events: seq<Event>, root: Path, path: Path) {
    exists i: nat :: (LastConfigAt(events, root, i) || FirstFileAt(events, root, i)) && events[i].path == path
  }

  lemma {:induction false} LastConfigIs(events: seq<Event>, root: Path, i: nat)
    requires LastConfigAt(events, root, i)
    ensures LastConfigPath(events, root) == Some(events[i].path)
    decreases |events|
  {
    if i + 1 < |events| {
      LastConfigIs(events[..|events| - 1], root, i);
    }
  }

  lemma {:induction false} FirstFileIs(events: seq<Event>, root: Path, i: nat)
    requires i < |events| && FileOf(events[i], root) && forall j :: 0 <= j < i ==> !FileOf(events[j], root)
    ensures FirstFilePath(events, root) == Some(events[i].path)
    decreases |events|
  {
    if i + 1 < |events| {
      FirstFileIs(events[..|events| - 1], root, i);
    } else {
      NoFileYet(events[..i], root);
    }
  }

  lemma {:induction false} NoFileYet(events: seq<Event>, root: Path)
    requires forall j :: 0 <= j < |events| ==> !FileOf(events[j], root)
    ensures FirstFilePath(events, root) == None
    decreases |events|
  {
    if events != [] {
      NoFileYet(events[..|events| - 1], root);
    }
  }

  lemma {:induction false} SomeLastConfig(events: seq<Event>, root: Path) returns (i: nat)
    requires exists j :: 0 <= j < |events| && ConfigOf(events[j], root)
    ensures LastConfigAt(events, root, i)
    decreases |events|
  {
    i := |events| - 1;
    if !ConfigOf(events[i], root) {
      i := SomeLastConfig(events[..|events| - 1], root);
    }
  }

  lemma {:induction false} SomeFirstFile(events: seq<Event>, root: Path, k: nat) returns (i: nat)
    requires k < |events| && FileOf(events[k], root)
    ensures i < |events| && FileOf(events[i], root) && forall j :: 0 <= j < i ==> !FileOf(events[j], root)
    decreases k
  {
    i := k;
    if j :| 0 <= j < k && FileOf(events[j], root) {
      i := SomeFirstFile(events, root, j);
    }
  }

  /** Every root an event names has a path to recompute it for. */
  lemma SomePath(events: seq<Event>, root: Path) returns (path: Path)
    requires Named(events, root)
    ensures PathOf(events, root, path)
  {
    if j :| 0 <= j < |events| && ConfigOf(events[j], root) {
      var i := SomeLastConfig(events, root);
      path := events[i].path;
    } else {
      var k :| 0 <= k < |events| && events[k].root == root;
      var i := SomeFirstFile(events, root, k);
      path := events[i].path;
      assert FirstFileAt(events, root, i);
    }
  }

  lemma PathIs(events: seq<Event>, root: Path, path: Path)
    requires PathOf(events, root, path)
    ensures Named(events, root) && PendingFor(events, root).recompute == Some(path)
  {
    var i: nat :| (LastConfigAt(events, root, i) || FirstFileAt(events, root, i)) && events[i].path == path;
    if LastConfigAt(events, root, i) {
      LastConfigIs(events, root, i);
    } else {
      FirstFileIs(events, root, i);
      PathsComeFromEvents(events, root);
    }
  }

  lemma UnconfiguredIs(events: seq<Event>, root: Path)
    ensures ConfigDeleted(events, root) <==> Unconfigured(events, root)
    ensures root in PendingOf(events) <==> Named(events, root)
  {
  }

  /** Each root an event names is given the next epoch, and no other root any. */
  lemma BatchEpochs(tracker: Tracker, events: seq<Event>, open: set<Url>, root: Path)
    ensures At(TrackerAfter(tracker, PendingOf(events), open), root).epoch ==
            At(tracker, root).epoch + if Named(events, root) then 1 else 0
  {
    UnconfiguredIs(events, root);
    if Named(events, root) {
      var path := SomePath(events, root);
      PathIs(events, root, path);
    }
  }

  /** Some event on the root says that the file behind the URL is gone. */
  predicate Deletes(events: seq<Event>, root: Path, url: Url) {
    exists i :: 0 <= i < |events| && FileOf(events[i], root) && events[i].deletedUrl == Some(url)
  }

  /** A root stops tracking a URL if its configuration was deleted, or the file was and no buffer holds
      it open; it starts tracking none. */
  lemma BatchTracks(tracker: Tracker, events: seq<Event>, open: set<Url>, root: Path, url: Url)
    ensures url in At(TrackerAfter(tracker, PendingOf(events), open), root).nonEmpty <==>
      && url in At(tracker, root).nonEmpty
      && !Unconfigured(events, root) && (url in open || !Deletes(events, root, url))
  {
    UnconfiguredIs(events, root);
    var p := PendingFor(events, root);
    if Named(events, root) {
      var path := SomePath(events, root);
      PathIs(events, root, path);
    }
    if !Unconfigured(events, root) {
      assert url in p.deleted <==> Deletes(events, root, url);
    }
  }

  /** The client is told to drop exactly what some root stops tracking. */
  lemma BatchClears(tracker: Tracker, events: seq<Event>, open: set<Url>, url: Url)
    ensures url in Clears(tracker, PendingOf(events), open) <==>
      exists root :: url in At(tracker, root).nonEmpty
                     && url !in At(TrackerAfter(tracker, PendingOf(events), open), root).nonEmpty
  {
    var pending := PendingOf(events);
    var after := TrackerAfter(tracker, pending, open);
    forall root | root in pending
      ensures url in ClearsAt(tracker, root, pending[root], open) <==>
              url in At(tracker, root).nonEmpty && url !in At(after, root).nonEmpty
    {
      UnconfiguredIs(events, root);
      var path := SomePath(events, root);
      PathIs(events, root, path);
    }
    forall root | root !in pending
      ensures At(after, root) == At(tracker, root)
    {
    }
  }

  lemma InSchedules(tracker: Tracker, pending: map<Path, PendingRoot>, drain: ClearRootDrain, s: Scheduled)
    ensures s in Schedules(tracker, pending, drain) <==>
      && s.root in pending && Reschedules(pending[s.root], drain)
      && s.path == pending[s.root].recompute.value && s.epoch == At(tracker, s.root).epoch + 1
  {
  }

  lemma PathIff(events: seq<Event>, root: Path, path: Path)
    ensures PathOf(events, root, path) <==> root in PendingOf(events) && PendingOf(events)[root].recompute == Some(path)
  {
    UnconfiguredIs(events, root);
    if PathOf(events, root, path) {
      PathIs(events, root, path);
    } else if Named(events, root) {
      var some := SomePath(events, root);
      PathIs(events, root, some);
    }
  }

  /** The recomputes a batch asks for: one for each root named, for its path and under the epoch the
      root has after the batch; but none for a root whose configuration was deleted, unless the
      workspace was busy, and none for any other root. */
  lemma BatchSchedulesIff(tracker: Tracker, events: seq<Event>, open: set<Url>, drain: ClearRootDrain, s: Scheduled)
    ensures s in Schedules(tracker, PendingOf(events), drain) <==>
      && PathOf(events, s.root, s.path)
      && s.epoch == At(TrackerAfter(tracker, PendingOf(events), open), s.root).epoch
      && (drain.DrainSchedules? || !Unconfigured(events, s.root))
  {
    InSchedules(tracker, PendingOf(events), drain, s);
    PathIff(events, s.root, s.path);
    UnconfiguredIs(events, s.root);
    BatchEpochs(tracker, events, open, s.root);
  }

  /** So each root gets at most one recompute, and each it should gets one. */
  lemma BatchSchedulesOnce(tracker: Tracker, events: seq<Event>, open: set<Url>, drain: ClearRootDrain, root: Path)
    returns (path: Path)
    requires Named(events, root)
    ensures PathOf(events, root, path)
    ensures var schedules := Schedules(tracker, PendingOf(events), drain);
            var due := Scheduled(path, root, At(TrackerAfter(tracker, PendingOf(events), open), root).epoch);
            && (drain.DrainSchedules? || !Unconfigured(events, root) ==> due in schedules)
            && forall s :: s in schedules && s.root == root ==> s == due
  {
    path := SomePath(events, root);
    PathIs(events, root, path);
    BatchSchedulesIff(tracker, events, open, drain, Scheduled(path, root, At(TrackerAfter(tracker, PendingOf(events), open), root).epoch));
    BatchEpochs(tracker, events, open, root);
  }

  lemma EventKinds(events: seq<Event>, root: Path)
    requires root in PendingOf(events)
    ensures PendingOf(events)[root].project <==> exists i :: 0 <= i < |events| && ConfigOf(events[i], root)
    ensures PendingOf(events)[root].analysis <==> exists i :: 0 <= i < |events| && FileOf(events[i], root)
  {
    PathsComeFromEvents(events, root);
  }

  /** A configuration event invalidates the project, a file event the analysis, whatever its root, when
      the workspace is busy. */
  lemma BusyBatchInvalidates(events: seq<Event>)
    ensures PendingBits(PendingOf(events)).project <==> exists i :: 0 <= i < |events| && events[i].ConfigChanged?
    ensures PendingBits(PendingOf(events)).analysis <==> exists i :: 0 <= i < |events| && events[i].FileChanged?
  {
    var pending := PendingOf(events);
    forall root | root in pending
      ensures pending[root].project <==> exists i :: 0 <= i < |events| && ConfigOf(events[i], root)
      ensures pending[root].analysis <==> exists i :: 0 <= i < |events| && FileOf(events[i], root)
    {
      EventKinds(events, root);
    }
    forall i | 0 <= i < |events|
      ensures events[i].root in pending
      ensures if events[i].ConfigChanged? then pending[events[i].root].project else pending[events[i].root].analysis
    {
      assert ConfigOf(events[i], events[i].root) || FileOf(events[i], events[i].root);
    }
  }

  /** And otherwise only events on the workspace's own root do. */
  lemma BatchInvalidates(events: seq<Event>, current: Option<Path>)
    ensures var bits := CurrentRootBits(PendingOf(events), current);
            && (bits.project <==> current.Some? && exists i :: 0 <= i < |events| && ConfigOf(events[i], current.value))
            && (bits.analysis <==> current.Some? && exists i :: 0 <= i < |events| && FileOf(events[i], current.value))
  {
    if current.Some? {
      UnconfiguredIs(events, current.value);
      if current.value in PendingOf(events) {
        EventKinds(events, current.value);
      } else {
        assert forall i :: 0 <= i < |events| ==> events[i].root != current.value;
      }
    }
  }

  // ----- Resolving the root of a path

  /** The deepest tracked root above `path`, looking no deeper than its first `depth` components. */
  function DeepestRoot(tracker: Tracker, path: Path, depth: nat): Option<Path>
    requires depth <= |path|
  {
    if path[..depth] in tracker then Some(path[..depth])
    else if depth == 0 then None
    else DeepestRoot(tracker, path, depth - 1)
  }

  predicate IsDeepestRoot(tracker: Tracker, path: Path, root: Option<Path>) {
    match root
    case None => forall r :: r in tracker ==> !Under(path, r)
    case Some(root) => root in tracker && Under(path, root) &&
                       forall r :: r in tracker && Under(path, r) ==> |r| <= |root|
  }

  lemma {:induction false} DeepestRootIsDeepest(tracker: Tracker, path: Path, depth: nat)
    requires depth <= |path|
    requires forall r :: r in tracker && Under(path, r) ==> |r| <= depth
    ensures IsDeepestRoot(tracker, path, DeepestRoot(tracker, path, depth))
  {
    if path[..depth] !in tracker {
      forall r | r in tracker && Under(path, r)
        ensures |r| < depth
      {
        assert r == path[..|r|];
      }
      if depth > 0 {
        DeepestRootIsDeepest(tracker, path, depth - 1);
      }
    }
  }

  lemma DeepestRootIsUnique(tracker: Tracker, path: Path, a: Option<Path>, b: Option<Path>)
    requires IsDeepestRoot(tracker, path, a) && IsDeepestRoot(tracker, path, b)
    ensures a == b
  {
    if a.Some? && b.Some? {
      assert a.value == path[..|a.value|] && b.value == path[..|b.value|];
    }
  }

  /** The project's root when the workspace is readable and its project holds the path, otherwise
      the deepest tracked root. */
  function KnownRoot(project: Option<Project>, tracker: Tracker, path: Path): Option<Path> {
    if project.Some? && Under(path, project.value.root) then Some(project.value.root)
    else DeepestRoot(tracker, path, |path|)
  }

  lemma OneFewerToDo(all: set<Url>, todo: set<Url>, url: Url)
    requires url in todo && todo <= all
    ensures all - (todo - {url}) == all - todo + {url}
  {
  }

  /** Sort a root's tracked URLs into those the run empties and those it carries forward. */
  method SortByScope(tracked: set<Url>, scope: ReconcileScope, report: Report)
    returns (outgoing: Report, carried: set<Url>)
    ensures outgoing == Emptied(report, tracked, scope) && carried == Uncovered(tracked, scope)
  {
    outgoing, carried := report, {};
    var todo := tracked;
    while todo != {}
      invariant todo <= tracked
      invariant carried == Uncovered(tracked - todo, scope)
      invariant outgoing == Emptied(report, tracked - todo, scope)
      decreases |todo|
    {
      var url :| url in todo;
      EmptiedOneByOne(report, tracked - todo, scope, url);
      OneFewerToDo(tracked, todo, url);
      if scope.Covers(url) {
        if url !in outgoing {
          outgoing := outgoing[url := []];
        }
      } else {
        carried := carried + {url};
      }
      todo := todo - {url};
    }
    assert tracked - todo == tracked;
  }

  // ----- The tracker object

  class DiagnosticsTracker {
    var roots: Tracker

    constructor ()
      ensures roots == map[]
    {
      roots := map[];
    }

    method BumpRootEpoch(root: Path) returns (epoch: nat)
      modifies this
      ensures roots == Bump(old(roots), root) && epoch == At(roots, root).epoch
    {
      var entry := At(roots, root);
      entry := entry.(epoch := entry.epoch + 1);
      roots := roots[root := entry];
      epoch := entry.epoch;
    }

    method ClearRoot(root: Path) returns (urls: set<Url>)
      modifies this
      ensures roots == ClearedRoot(old(roots), root) && urls == At(old(roots), root).nonEmpty
    {
      if root !in roots {
        return {};
      }
      urls := roots[root].nonEmpty;
      roots := roots[root := roots[root].(nonEmpty := {})];
    }

    method ClearUrl(root: Path, url: Url) returns (removed: bool)
      modifies this
      ensures roots == WithoutUrls(old(roots), root, {url})
      ensures removed <==> url in At(old(roots), root).nonEmpty
    {
      if root !in roots {
        return false;
      }
      removed := url in roots[root].nonEmpty;
      roots := roots[root := roots[root].(nonEmpty := roots[root].nonEmpty - {url})];
    }

    method ReconcileSuccess(root: Path, epoch: nat, scope: ReconcileScope, report: Report)
      returns (accepted: bool, outgoing: Report)
      modifies this
      ensures accepted <==> !IsStale(old(roots), root, epoch)
      ensures accepted ==> (roots == Reconciled(old(roots), root, scope, report)
                            && outgoing == Outgoing(old(roots), root, scope, report))
      ensures !accepted ==> roots == old(roots) && outgoing == report
    {
      if IsStale(roots, root, epoch) {
        return false, report;
      }
      var carried;
      outgoing, carried := SortByScope(At(roots, root).nonEmpty, scope, report);
      EmptiedOneByOne(report, At(roots, root).nonEmpty, scope, OtherUrl(""));
      roots := roots[root := At(roots, root).(nonEmpty := NonEmpty(outgoing) + carried)];
      accepted := true;
    }

    method TrackedRootForPath(path: Path) returns (root: Option<Path>)
      ensures root == DeepestRoot(roots, path, |path|)
    {
      root := None;
      var todo := roots.Keys;
      while todo != {}
        invariant todo <= roots.Keys
        invariant root.None? ==> forall r :: r in roots.Keys - todo ==> !Under(path, r)
        invariant root.Some? ==> root.value in roots && Under(path, root.value)
        invariant root.Some? ==> forall r :: r in roots.Keys - todo && Under(path, r) ==> |r| <= |root.value|
        decreases |todo|
      {
        var r :| r in todo;
        if Under(path, r) && (root.None? || |root.value| <= |r|) {
          root := Some(r);
        }
        todo := todo - {r};
      }
      DeepestRootIsDeepest(roots, path, |path|);
      DeepestRootIsUnique(roots, path, root, DeepestRoot(roots, path, |path|));
    }

    /** Apply one batch of events root by root, in whatever order the map yields them. */
    method WatchedRootEffects(open: set<Url>, pending: map<Path, PendingRoot>, current: Option<Path>,
                              drain: ClearRootDrain)
      returns (effects: Effects)
      modifies this
      ensures roots == TrackerAfter(old(roots), pending, open)
      ensures effects == EffectsOf(old(roots), pending, open, current, drain)
    {
      effects := Effects(NO_BITS, {}, {}, NO_BITS);
      var todo := pending.Keys;
      NoRootsYet(roots, pending, open, current, drain);
      while todo != {}
        invariant todo <= pending.Keys
        invariant roots == TrackerAfter(old(roots), pending - todo, open)
        invariant effects == EffectsOf(old(roots), pending - todo, open, current, drain)
        decreases |todo|
      {
        var root :| root in todo;
        var p := pending[root];
        OneMoreRoot(old(roots), pending, todo, root, open, current, drain);
        var clears, schedules := ApplyRoot(root, p, open, drain);
        effects := WithRootEffects(effects, p, schedules, clears, current == Some(root));
        todo := todo - {root};
      }
    }

    method ApplyRoot(root: Path, p: PendingRoot, open: set<Url>, drain: ClearRootDrain)
      returns (clears: set<Url>, schedules: set<Scheduled>)
      modifies this
      ensures roots == WithRoot(old(roots), root, p, open)
      ensures clears == ClearsAt(old(roots), root, p, open)
      ensures schedules == SchedulesAt(old(roots), root, p, drain)
    {
      schedules := {};
      RootAfterSteps(roots, root, p, open);
      if p.clearRoot {
        var epoch := BumpRootEpoch(root);
        clears := ClearRoot(root);
        if drain == DrainSchedules && p.recompute.Some? {
          schedules := {Scheduled(p.recompute.value, root, epoch)};
        }
        return;
      }
      clears := ClearDeleted(root, p.deleted, open);
      if p.recompute.Some? {
        var epoch := BumpRootEpoch(root);
        schedules := {Scheduled(p.recompute.value, root, epoch)};
      }
    }

    /** Stop tracking the deleted URLs that no open buffer holds. */
    method ClearDeleted(root: Path, deleted: set<Url>, open: set<Url>) returns (clears: set<Url>)
      modifies this
      ensures clears == At(old(roots), root).nonEmpty * (deleted - open)
      ensures roots == WithoutUrls(old(roots), root, deleted - open)
    {
      clears := {};
      var todo := deleted;
      WithoutUrlsTwice(roots, root, {}, {});
      assert deleted - todo - open == {};
      while todo != {}
        invariant todo <= deleted
        invariant clears == At(old(roots), root).nonEmpty * (deleted - todo - open)
        invariant roots == WithoutUrls(old(roots), root, deleted - todo - open)
        decreases |todo|
      {
        var url :| url in todo;
        OneMoreDeletion(old(roots), root, deleted, todo, open, url);
        if url !in open {
          var removed := ClearUrl(root, url);
          if removed {
            clears := clears + {url};
          }
        }
        todo := todo - {url};
      }
      assert deleted - todo == deleted;
    }
  }

  // ----- The closed forms after one more root

  lemma WithoutUrlsTwice(tracker: Tracker, root: Path, first: set<Url>, second: set<Url>)
    ensures WithoutUrls(WithoutUrls(tracker, root, first), root, second) == WithoutUrls(tracker, root, first + second)
    ensures At(WithoutUrls(tracker, root, first), root).nonEmpty == At(tracker, root).nonEmpty - first
    ensures WithoutUrls(tracker, root, {}) == tracker
  {
    if root in tracker {
      var some := tracker[root].nonEmpty;
      assert some - first - second == some - (first + second);
      assert some - {} == some;
    }
  }

  lemma OneMoreDeletion(before: Tracker, root: Path, deleted: set<Url>, todo: set<Url>, open: set<Url>, url: Url)
    requires url in todo && todo <= deleted
    ensures var now := WithoutUrls(before, root, deleted - todo - open);
            && WithoutUrls(before, root, deleted - (todo - {url}) - open) ==
                 (if url in open then now else WithoutUrls(now, root, {url}))
            && At(before, root).nonEmpty * (deleted - (todo - {url}) - open) ==
                 At(before, root).nonEmpty * (deleted - todo - open) +
                 (if url !in open && url in At(now, root).nonEmpty then {url} else {})
  {
    var done := deleted - todo - open;
    WithoutUrlsTwice(before, root, done, {url});
    assert deleted - (todo - {url}) - open == if url in open then done else done + {url};
  }

  lemma RootAfterSteps(tracker: Tracker, root: Path, p: PendingRoot, open: set<Url>)
    ensures p.clearRoot ==> ClearedRoot(Bump(tracker, root), root) == WithRoot(tracker, root, p, open)
    ensures !p.clearRoot ==>
              var dropped := WithoutUrls(tracker, root, p.deleted - open);
              (if p.recompute.Some? then Bump(dropped, root) else dropped) == WithRoot(tracker, root, p, open)
  {
    if !p.clearRoot && root !in tracker {
      assert {} - (p.deleted - open) == {};
    }
  }

  /** The effects record after one more root's share is merged in. */
  function WithRootEffects(effects: Effects, p: PendingRoot, schedules: set<Scheduled>, clears: set<Url>,
                           isCurrent: bool): Effects
  {
    var bits := Bits(p.analysis, p.project);
    Effects(Or(effects.bits, bits), effects.schedules + schedules, effects.clears + clears,
            if isCurrent then Or(effects.invalidate, bits) else effects.invalidate)
  }

  lemma NoRootsYet(before: Tracker, pending: map<Path, PendingRoot>, open: set<Url>, current: Option<Path>,
                   drain: ClearRootDrain)
    ensures TrackerAfter(before, pending - pending.Keys, open) == before
    ensures EffectsOf(before, pending - pending.Keys, open, current, drain) == Effects(NO_BITS, {}, {}, NO_BITS)
    ensures pending - {} == pending
  {
  }

  lemma OneMoreRoot(before: Tracker, pending: map<Path, PendingRoot>, todo: set<Path>, root: Path,
                    open: set<Url>, current: Option<Path>, drain: ClearRootDrain)
    requires root in todo && todo <= pending.Keys
    ensures var seen, more := pending - todo, pending - (todo - {root});
            var now := TrackerAfter(before, seen, open);
            && TrackerAfter(before, more, open) == WithRoot(now, root, pending[root], open)
            && EffectsOf(before, more, open, current, drain) ==
                 WithRootEffects(EffectsOf(before, seen, open, current, drain), pending[root],
                                 SchedulesAt(now, root, pending[root], drain),
                                 ClearsAt(now, root, pending[root], open), current == Some(root))
  {
    var seen, p := pending - todo, pending[root];
    assert pending - (todo - {root}) == seen[root := p];
    TrackerGrows(before, seen, root, p, open);
    ClearsGrow(before, seen, root, p, open);
    SchedulesGrow(before, seen, root, p, drain);
    BitsGrow(seen, root, p, current);
  }

  function WithRoot(tracker: Tracker, root: Path, p: PendingRoot, open: set<Url>): Tracker {
    if root in tracker || p.clearRoot || p.recompute.Some?
    then tracker[root := RootAfter(At(tracker, root), p, open)]
    else tracker
  }

  function SchedulesAt(tracker: Tracker, root: Path, p: PendingRoot, drain: ClearRootDrain): set<Scheduled> {
    if Reschedules(p, drain) then {Scheduled(p.recompute.value, root, At(tracker, root).epoch + 1)} else {}
  }

  lemma TrackerGrows(before: Tracker, seen: map<Path, PendingRoot>, root: Path, p: PendingRoot, open: set<Url>)
    requires root !in seen
    ensures var now := TrackerAfter(before, seen, open);
            && At(now, root) == At(before, root)
            && TrackerAfter(before, seen[root := p], open) == WithRoot(now, root, p, open)
  {
    var now, more := TrackerAfter(before, seen, open), seen[root := p];
    var a, b := TrackerAfter(before, more, open), WithRoot(now, root, p, open);
    forall r
      ensures r in a <==> r in b
      ensures r in a ==> a[r] == b[r]
    {
    }
  }

  lemma ClearsGrow(before: Tracker, seen: map<Path, PendingRoot>, root: Path, p: PendingRoot, open: set<Url>)
    requires root !in seen
    ensures Clears(before, seen[root := p], open) == Clears(before, seen, open) + ClearsAt(before, root, p, open)
  {
    var more := seen[root := p];
    forall url | url in Clears(before, seen, open)
      ensures url in Clears(before, more, open)
    {
      var r :| r in seen && url in ClearsAt(before, r, seen[r], open);
      assert r in more && more[r] == seen[r];
    }
    assert root in more;
  }

  lemma SchedulesGrow(before: Tracker, seen: map<Path, PendingRoot>, root: Path, p: PendingRoot, drain: ClearRootDrain)
    requires root !in seen
    ensures Schedules(before, seen[root := p], drain) == Schedules(before, seen, drain) + SchedulesAt(before, root, p, drain)
  {
  }

  lemma BitsGrow(seen: map<Path, PendingRoot>, root: Path, p: PendingRoot, current: Option<Path>)
    requires root !in seen
    ensures var more, bits := seen[root := p], Bits(p.analysis, p.project);
            && PendingBits(more) == Or(PendingBits(seen), bits)
            && CurrentRootBits(more, current) ==
                 Or(CurrentRootBits(seen, current), if current == Some(root) then bits else NO_BITS)
  {
    var more := seen[root := p];
    assert more[root] == p;
    assert forall r :: r in seen ==> r in more && more[r] == seen[r];
  }
}
