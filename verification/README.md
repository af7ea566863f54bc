# Verification of the Marrow editor services

The Marrow editor tooling is a language server (`marrow-lsp`), the core it shares with other front
ends (`marrow-lsp-core`) and a debug adapter (`marrow-dap`). What is hard about them is not any single
handler: it is that edits, file-watcher events, background analyses, reads, a protocol thread and a
running program all race, while the client must be shown diagnostics of the present, stops that
match its resumes, and offsets that mean the same on both sides. This project models those parts and
proves what they promise for every interleaving, every input and every run.

`dafny verify dfyconfig.toml` checks everything.

## What is modelled

**The recompute-and-publish protocol.** `Documents`, `Workspace` and `Diagnostics` hold the three
stateful objects the server shares: the open buffers with their generation counter, the workspace
with its latest and last-good analyses, and the tracker of what each project root shows. Each is a
class whose methods follow the code statement by statement and are proved against a specification
function. `Server` then turns every notification handler, recompute task, watcher batch and read
request into a task of a state machine over those same functions. A step runs from one lock
operation to the next; a blocking acquisition is a state of its own, and any two tasks may
interleave. The invariant is in `ServerInvariant`, and what follows for whole runs is in
`ServerTheorems`; `ServerProgress` adds that no edit is lost, `ServerWatching` that no watched change
is, and `ServerEdits` says which runs an edit supersedes. The publish step is one message per URL, in
an order nobody controls, so the theorems also cover the states in between. What is published is
stated from the buffers' texts and the problems the checker reported.

**The debug session.** `Step` gives the decision at one statement and the statement trace of a call
tree, with arbitrary recursion and any number of calls per statement. `Session` has the two objects
on either side of the channels. `Rendezvous` is the state machine of both threads: two FIFO queues,
a terminate flag, a pause flag, a staged resume. Its invariant says where the one *stop token* of a
parked run lies. `RendezvousTheorems` draws the consequences, and `RendezvousModes` shows that the run
does what the client last asked for and that the client hears all it says. `Breakpoints` and `LogMessage` cover
hit counts and log points, `Paging` the offset paging over cursor pages.

**The catalog cache.** `CatalogBinding` models the store as a history over time and a bind as an
attempt that looks at four different instants of it, so that a writer may commit between any two.

**Exact algorithms.** `Utf8`, `Utf16` and `Positions` (byte offsets against UTF-16 positions, LSP 3.17
"Position", section 3 of RFC 3629, section 2.1 of RFC 2781), `SemanticTokens` (LSP 3.17 "Semantic
Tokens"), `Framing` with `FramingTheorems` (LSP 3.17 "Base Protocol", Header Part) and
`CappedOutput`. `Prelude`, `Text` and `Decimal` hold what these share.

## What is assumed

- The checker, the runtime and the store are uninterpreted: an analysis is whatever the checker
  returned together with the inputs it was given, and its binding index is a function of it.
- The store keeps two promises, named `StorePromises`: equal fingerprints at two instants mean no
  commit in between, and a commit identity names one catalog.
- A fetch of saved data walks one fixed sequence in full pages (`Walks`), and JSON decoding undoes
  encoding for the messages exchanged.
- Atomics are sequentially consistent, and channels are FIFO.
- The text behind an `offset` request has fewer than 2^32 bytes. Token streams have no such bound: for
  them the exact condition is proved (`DeltaIsCorrectIff`), and streams of fewer than 2^32 / 5 tokens
  always meet it.
- The progress theorems speak of stretches in which nothing fails and nobody else edits (`Quiet`), or
  no further batch arrives (`Calm`).
- A problem names the file it is in by a path that has a `file://` URL.
- The project a path resolves to, what a bind can read of the store, what the checker returns, the watcher events
  a batch is classified into, the order a hash map yields its entries, debounce and teardown
  timeouts are free choices of the environment at the step that uses them.

## Where the code and its description disagree

- **A failing bind may change the cache.** The committed lock is read only after the cache was
  updated, so a first bind of a storeless checkout with a corrupt lock fails *and* marks the cache
  bound (`CorruptLockFailsAfterAdoption`). With a readable lock no failure changes it
  (`ReadableLockMakesFailureHarmless`), and `FailsAndChangesTheCacheIff` gives the exact condition.
- **The binding index can be misfiled across roots.** Preparing for a file of another root replaces
  the project but not the latest analysis, so an index built in between is keyed under the wrong root
  and survives a commit with a colliding generation (`RootSwitchCanMisfileTheIndex`). Runs that build
  no index in between are coherent over any roots (`OwnRootIndexesAreCoherent`), building one always
  invites a misfiling commit (`CrossRootIndexCanBeMisfiled`), and `HonestKeyIsExactlyWhatCommitsNeed`
  gives the condition on the key that a caller could check.
- **An edit can cost another its diagnostics.** A run whose buffers changed is dropped because the
  newer edit's run will publish; but an edit of a buffer that names no file schedules no run, and a run
  publishes its own project only. `LoneEditIsPublishedIff` says which edits are published, and that the
  runs in flight never are. Runs of unknown roots yield to each other across projects
  (`LaterUnknownRootsDropEarlierRuns`).
- **A run that panics while it answers a query leaves its stop behind**, so the stop token outlives the
  parked run (`RunsCanDieAtAStop`); `StopTokenIsConserved` says exactly when.
- **A delta between streams too long to address can be wrong** (`LongStreamsCanGoWrong`).
- **The last pending check before publishing is dead.** Bits are raised only under the publish lock,
  which the run holds by then (`LateInvalidationIsNeverFound`).
- **An exit notification may be dropped unparsed.** The guard before the parse looks for the literal
  bytes `exit`, but JSON may escape any of them (`EscapedExitIsDropped`); `GuardDropsIff` says exactly
  when.
- **A pause can be reported as an entry stop.** If it arrives before the first statement of a run that
  is to stop on entry, the entry takes precedence and the pause is spent (`PauseStopsTheRun`).
- **A hit target at the counter's ceiling repeats**, since the counter saturates there
  (`CeilingTargetRepeats`); any smaller target is met exactly once.

## Model

| member | source | states |
|---|---|---|
| `ServerTheorems.PublishedDiagnosticsAreOfThePresent` | crates/marrow-lsp/src/backend.rs:743-937 | whenever a run publishes, in every interleaving: the sources analysed are, path by path, the texts of the files open now under its root and no others, no invalidation is pending, and none was applied at any state since the step of this run in which the task prepared its inputs, which is exhibited |
| `ServerTheorems.WasPrepared` | crates/marrow-lsp/src/backend.rs:761-815 | whatever analysis a task stands on at any later stage was made from inputs that very task prepared, in one step of this run |
| `ServerTheorems.SourceOnlyRunsLeaveTheRestUntouched` | crates/marrow-lsp/src/backend.rs:296-335 | from the reconcile of a run without tests through every set it sends and at its end, whatever else interleaves: a file it neither analysed, nor reported, nor holds open as the project's keeps its tracking under every root and what the client shows |
| `ServerProgress.LastEditIsPublished` | crates/marrow-lsp/src/backend.rs:684-937 | after the last edit of a file, if nobody else edits and nothing fails, its run does not end before the client shows, for every file reported on and every open file of the project, what the checker reported there, from an analysis of a project around the file and of exactly the texts still open, without tests only after a keystroke with no test module open; and those texts hold what the edit brought |
| `ServerWatching.WatchedRootIsPublished` | crates/marrow-lsp/src/backend.rs:1282-1377 | after the last batch of watched changes, if nothing fails: for every root it names, unless its configuration was deleted while the workspace was in hand, some run shows the client everything reported, for a project around the path of the root's last configuration event or else its first file event, from exactly the texts still open |
| `ServerWatching.BatchHasItsEffects` | crates/marrow-lsp/src/backend.rs:1304-1365 | read off the events: every root named gets the next epoch and no other; a URL is dropped with its configuration or with its file unless it is open, and exactly the dropped ones are cleared; exactly the recomputes due are scheduled, under the epochs the batch leaves |
| `ServerWatching.OpenWasCaptured` | crates/marrow-lsp/src/backend.rs:1298-1303 | the files a batch takes for open are those open at the step at which this very task looked |
| `ServerWatching.LookingMarks` | crates/marrow-lsp/src/backend.rs:1304-1337 | before it looks at its events a batch applies what is pending if the workspace is free, and otherwise leaves its own bits pending, twice |
| `ServerWatching.BatchInvalidatesNow` | crates/marrow-lsp/src/backend.rs:1310-1365 | with the workspace busy every event leaves its bit pending; with it in hand the events on its own root invalidate it at once, the project before the analysis |
| `ServerWatching.NothingOutlivesAnInvalidation` | crates/marrow-lsp/src/backend.rs:743-937 | whatever is published after a step that leaves an invalidation pending or applies one was prepared after that step |
| `ServerWatching.BatchInvalidatesAt` | crates/marrow-lsp/src/backend.rs:1304-1365 | a batch that finds the workspace busy, or has an event on the workspace's root, is such a step |
| `ServerWatching.LookInvalidatesAt` | crates/marrow-lsp/src/backend.rs:1304-1316 | and so is a batch that finds the workspace busy, before it has looked at its events |
| `ServerWatching.PendingEndsARun` | crates/marrow-lsp/src/backend.rs:818-857 | a run that finds bits pending when about to install or publish applies them, clears them and ends, changing nothing else |
| `ServerEdits.EditSupersedesEarlierRuns` | crates/marrow-lsp/src/backend.rs:684-737 | an edit leaves every run scheduled for its root before it, at whatever stage, with an epoch the root no longer has |
| `ServerEdits.EditBumpsItsRoot` | crates/marrow-lsp/src/backend.rs:1184-1280 | an edit gives the next epoch to the project's root when the path is inside and the workspace at hand, otherwise to the deepest tracked root above it, and to no other; a close stops tracking its URL there; its run carries that epoch |
| `ServerEdits.EveryEpochWasIssued` | crates/marrow-lsp/src/backend.rs:259-263 | in every reachable state no task carries an epoch its root has not reached |
| `ServerEdits.SupersededRunsNeverStart` | crates/marrow-lsp/src/backend.rs:705-714 | after its debounce a run goes on if and only if its root still has its epoch |
| `ServerEdits.ScheduledRunsCheckFirst` | crates/marrow-lsp/src/backend.rs:705-714 | a run scheduled for a known root always makes that check before it captures anything |
| `ServerEdits.CloseRetracts` | crates/marrow-lsp/src/backend.rs:1247-1280 | a close leaves the client showing no problem for its URL and every other URL as it was |
| `ServerProgress.LoneEditIsPublishedIff` | crates/marrow-lsp/src/backend.rs:858-863 | an edit made while only reads and runs with captured buffers are about: once the server is at rest something has been published if and only if the edit names a file, and then only by its own run and for a project around that file |
| `ServerProgress.UntitledEditsDropRunsInFlight` | crates/marrow-lsp/src/backend.rs:1190-1195 | opening a buffer that names no file schedules nothing, and any run in flight drops what it has at its match step |
| `ServerProgress.LaterUnknownRootsDropEarlierRuns` | crates/marrow-lsp/src/backend.rs:715-717 | a run whose root is unknown is dropped by any later run of unknown root, of whatever file |
| `ServerTheorems.ClientReceivesExactlyTheReport` | crates/marrow-lsp/src/backend.rs:864-936 | each set still to be sent is the problems the checker reported in that file, in order; and every file reported on, and every open file below the project's source or test roots, that is not still to be sent shows exactly those |
| `ServerTheorems.EachSetSentIsTheReport` | crates/marrow-lsp/src/backend.rs:925-936 | a publishing run changes what the client shows for a URL only to what the checker reported there, or to nothing for a URL that is no file |
| `ServerTheorems.TrackerHoldsExactlyTheReport` | crates/marrow-lsp/src/backend.rs:296-335 | while a run publishes, its root tracks every file reported on, and of the files it was to check no other |
| `ServerTheorems.LateInvalidationIsNeverFound` | crates/marrow-lsp/src/backend.rs:888-901 | no pending invalidation is ever seen after the workspace lock is released, and the branch that would handle one is unreachable |
| `ServerTheorems.PublishingRunFindsItsOwnAnalysis` | crates/marrow-lsp/src/backend.rs:850-873 | the project and the latest analysis the publishing run unwraps are present and are the ones it has just installed |
| `ServerTheorems.ShownDiagnosticsAreTracked` | crates/marrow-lsp/src/backend.rs:1247-1280 | whenever the publish lock is free, every URL the client shows problems for is tracked by some root |
| `ServerTheorems.SupersededRunsChangeNothing` | crates/marrow-lsp/src/backend.rs:902-935 | a run reconciling under an epoch its own root had already left at any earlier state changes neither tracker, client nor anything else, and ends |
| `ServerTheorems.FreshAnalysisIsOfTheCapturedBuffers` | crates/marrow-lsp-core/src/workspace.rs:340-356 | an analysis a read takes for fresh was made from exactly the texts of the files the read captured under its root, however long ago in the run, and in the present invalidation epoch |
| `ServerTheorems.ReadsOnlyBuildTheIndex` | crates/marrow-lsp-core/src/workspace.rs:310-318 | a read that takes the latest analysis builds and keys its index if there is none; no read changes anything else |
| `ServerTheorems.ReadsTakeTheAnalysisIfFree` | crates/marrow-lsp/src/backend.rs:1400-1420 | a read takes the workspace if it is free, and otherwise goes on at once without it |
| `ServerTheorems.WaitsOnlyUpwards` | crates/marrow-lsp/src/backend.rs:755-903 | every blocking acquisition is of a lock ranked above all locks the task holds |
| `ServerTheorems.SomeHolderRuns` | crates/marrow-lsp/src/backend.rs:1188-1338 | from any task the chain of lock holders ends at one that is not blocked |
| `ServerTheorems.NeverDeadlocked` | crates/marrow-lsp/src/backend.rs:1184-1377 | in every reachable state with a task left, some task can take its next step |
| `ServerInvariant.EveryReachableStateIsGood` | crates/marrow-lsp/src/backend.rs:684-937 | every reachable state keeps: each lock is held by exactly the task standing where its holder stands; captures and installed analyses are of the buffers at their generation; each task's own facts; client and tracker mirror each other but for what the publish holder still owes |
| `ServerInvariant.StepKeepsInvariant` | crates/marrow-lsp/src/backend.rs:1184-1377 | every single step of every task, and every arrival, keeps that invariant |
| `ServerInvariant.OthersKeepTheirFacts` | crates/marrow-lsp/src/backend.rs:743-937 | a step that changes only what its locks guard leaves true what every task holding other locks relies on |
| `ServerInvariant.ReconcileIsSound` | crates/marrow-lsp/src/backend.rs:902-928 | reconciling keeps the mirror between tracker and client, owing exactly the entries it is about to send |
| `ServerInvariant.AffectIsSound` | crates/marrow-lsp/src/backend.rs:1304-1365 | a watcher batch keeps the server's facts, owing exactly the URLs it stopped tracking, with the workspace locked or busy |
| `Documents.GenerationIdentifiesBuffers` | crates/marrow-lsp-core/src/documents.rs:102-127 | an equal generation at two moments of an editing history means equal buffers, so the constant-time compare is a full compare |
| `Documents.OpenBuffersIff` | crates/marrow-lsp-core/src/documents.rs:102-127 | over every editing history a buffer is open if and only if some edit opened it that no later one closed |
| `Documents.StoreHoldsTheLastEdit` | crates/marrow-lsp-core/src/documents.rs:102-127 | an open buffer holds the text and version of the last edit that spoke of it |
| `Documents.Documents.OpenWithVersion` | crates/marrow-lsp-core/src/documents.rs:102-105 | the whole new store: the buffer replaced or added and the generation advanced |
| `Documents.Documents.ChangeWithVersion` | crates/marrow-lsp-core/src/documents.rs:115-120 | an open buffer is replaced and the generation advanced; an unopened URL changes nothing |
| `Documents.Documents.Close` | crates/marrow-lsp-core/src/documents.rs:123-127 | the buffer is gone and the generation advanced only if it was open |
| `Documents.Documents.AnalysisSnapshot` | crates/marrow-lsp-core/src/documents.rs:160-179 | the capture has the present generation and exactly the buffers whose URL names a file |
| `Documents.Documents.MatchesGeneration` | crates/marrow-lsp-core/src/documents.rs:181-183 | a capture taken from this store at any time that matches is what capturing now would give; one that does not is older than an edit that took effect |
| `Workspace.GoodAnalysisIsNeverLost` | crates/marrow-lsp-core/src/workspace.rs:467-607 | over all runs the last accepted good analysis since the last project invalidation is the latest one, or else exactly the retained one, never both |
| `Workspace.ReadAnswersFromLastAcceptedGood` | crates/marrow-lsp-core/src/workspace.rs:538-553 | a read is answered if and only if that analysis contains the file, and from that very analysis |
| `Workspace.PreparationIs` | crates/marrow-lsp-core/src/workspace.rs:426-458 | a preparation fails only for want of a project or of its catalog; what it hands over otherwise is the project around the file or the one just resolved, the open texts under its root and no others, the captured generation and present epoch; tests are left out if and only if a keystroke asked and no open file is below a test root |
| `Workspace.OverlayIsOfBuffers` | crates/marrow-lsp-core/src/workspace.rs:640-650 | the overlay holds, path by path, the text of each open file under the root, and nothing else |
| `Workspace.CommitIsAcceptedIff` | crates/marrow-lsp-core/src/workspace.rs:467-491 | an analysis prepared earlier in a run is accepted if and only if nothing was invalidated since and nothing of a newer generation installed since the last invalidation |
| `Workspace.LatestIsTheLastAccepted` | crates/marrow-lsp-core/src/workspace.rs:467-529 | over all runs the latest analysis, and the last program with modules, are the last ones accepted since the last invalidation |
| `Workspace.FreshIff` | crates/marrow-lsp-core/src/workspace.rs:340-356 | a capture finds an analysis current if and only if the last one accepted is of its generation |
| `Workspace.ProjectIsTheLastTaken` | crates/marrow-lsp-core/src/workspace.rs:426-439 | over all runs the project is the last one taken up for a file the one before did not hold, since the last project invalidation |
| `Workspace.ReadBuildsTheIndex` | crates/marrow-lsp-core/src/workspace.rs:538-553 | a read of the latest analysis builds and keys its index if there is none, and no read changes anything else |
| `Workspace.DisplacedIsRetained` | crates/marrow-lsp-core/src/workspace.rs:577-586 | a good analysis displaced by an invalidation or by one that is not good is retained with the index it had, or else with its own |
| `Workspace.LatestIsOfTheCurrentEpoch` | crates/marrow-lsp-core/src/workspace.rs:467-529 | the latest analysis, when present, was prepared in the current invalidation epoch at the recorded generation |
| `Workspace.InstalledGenerationNeverDecreases` | crates/marrow-lsp-core/src/workspace.rs:485-491 | between invalidations an installed generation is kept or replaced by one at least as new |
| `Workspace.OwnRootIndexesAreCoherent` | crates/marrow-lsp-core/src/workspace.rs:310-318 | over any roots: as long as no index is built while the latest analysis is of another root than the project, both indices are at every state those of the analyses beside them |
| `Workspace.CrossRootIndexCanBeMisfiled` | crates/marrow-lsp-core/src/workspace.rs:310-318 | otherwise, whatever the state: after building an index across roots there is a commit that keeps it beside an analysis it is not of |
| `Workspace.SingleRootIndexesAreCoherent` | crates/marrow-lsp-core/src/workspace.rs:492-527 | so in a single-root run both indices are at every state those of the analyses beside them |
| `Workspace.HonestKeyIsExactlyWhatCommitsNeed` | crates/marrow-lsp-core/src/workspace.rs:492-527 | over any roots, every next commit leaves its own index cached if and only if the cached key is honest beforehand |
| `Workspace.RootSwitchCanMisfileTheIndex` | crates/marrow-lsp-core/src/workspace.rs:432-439 | a concrete run over two roots that leaves another root's index cached beside the latest analysis |
| `Workspace.MergedInvalidationsApplyOnce` | crates/marrow-lsp/src/backend.rs:459-465 | invalidations OR-ed into bits and applied once leave, up to the epoch count, what applying each in turn leaves |
| `Workspace.InvalidationOrderIsIrrelevant` | crates/marrow-lsp/src/backend.rs:459-465 | two sequences of the same invalidations, in any order and multiplicity, leave the same workspace up to the epoch count |
| `Workspace.OrAllIsEither` | crates/marrow-lsp/src/backend.rs:1305-1328 | the merged bits have a bit exactly when some recorded set has it |
| `Workspace.PreparedCatalogIsOfItsOwnProject` | crates/marrow-lsp-core/src/workspace.rs:432-448 | whatever projects a run visited before, the catalog a check is given is a direct read of its own project's store, or the last one confirmed since the project was taken up, or the first run: never another project's |
| `Workspace.CacheIsOfTheProject` | crates/marrow-lsp-core/src/workspace.rs:432-448 | at every state the catalog cache is what the binds since the project was taken up leave, from an empty cache |
| `Workspace.Workspace.PrepareRecompute` | crates/marrow-lsp-core/src/workspace.rs:426-458 | the whole new workspace, catalog cache included, and the prepared inputs or error that PreparationIs describes, including a failed binding after the project was already replaced |
| `Workspace.Workspace.CommitRecompute` | crates/marrow-lsp-core/src/workspace.rs:467-529 | whether the analysis is accepted, and the whole new workspace in either case |
| `Workspace.Workspace.BindingIndexOfLatest` | crates/marrow-lsp-core/src/workspace.rs:310-318 | builds and keys the index at most once and changes nothing else |
| `Workspace.Workspace.ChooseReadSource` | crates/marrow-lsp-core/src/workspace.rs:538-553 | the source the run theorem above speaks of, and what caching its index leaves |
| `Workspace.Workspace.FreshLatestFromSnapshot` | crates/marrow-lsp-core/src/workspace.rs:340-356 | the analysis the freshness theorem above speaks of |
| `Workspace.Workspace.ClearLatest` | crates/marrow-lsp-core/src/workspace.rs:566-572 | exactly the latest analysis and everything derived from it is dropped; project, retained analysis and epoch stay |
| `Workspace.Workspace.DemoteLatestToLastGood` | crates/marrow-lsp-core/src/workspace.rs:577-586 | a good latest analysis is moved, with its index, into the retained slot; anything else is left alone |
| `Workspace.Workspace.InvalidateAnalysisFacts` | crates/marrow-lsp-core/src/workspace.rs:593-597 | the whole new workspace after an analysis invalidation |
| `Workspace.Workspace.InvalidateProjectFacts` | crates/marrow-lsp-core/src/workspace.rs:601-606 | the whole new workspace after a project invalidation |
| `Workspace.Workspace.ApplyPendingInvalidation` | crates/marrow-lsp/src/backend.rs:459-465 | the project bit wins over the analysis bit; without either nothing changes |
| `Diagnostics.DroppedUrlsAreCleared` | crates/marrow-lsp/src/backend.rs:2001-2055 | every URL a watcher batch stops tracking altogether is among those it clears on the client |
| `Diagnostics.OneMoreEvent` | crates/marrow-lsp/src/backend.rs:1961-1999 | folding one more event into the root it names gives the closed form of the longer batch, and other roots stay as they were |
| `Diagnostics.ReportToDiagnostics` | crates/marrow-lsp-core/src/diagnostics.rs:66-96 | the loop gives every open file a set and every problem, in order, to the set of its own file |
| `Diagnostics.NoProblemsNoMessages` | crates/marrow-lsp-core/src/diagnostics.rs:66-96 | a file's set has entries if and only if some problem is reported in it |
| `Diagnostics.BatchSchedulesIff` | crates/marrow-lsp/src/backend.rs:2001-2055 | a recompute is scheduled if and only if its path is the root's last configuration path or else its first file path, its epoch the one the batch leaves the root, and the configuration was not deleted or the workspace was busy |
| `Diagnostics.BatchSchedulesOnce` | crates/marrow-lsp/src/backend.rs:2001-2055 | every root named that should be rechecked gets one recompute and no root two |
| `Diagnostics.BatchEpochs` | crates/marrow-lsp/src/backend.rs:2010-2052 | a root gets the next epoch if and only if an event names it |
| `Diagnostics.BatchTracks` | crates/marrow-lsp/src/backend.rs:2010-2052 | a root tracks afterwards what it tracked and neither its configuration's deletion nor the deletion of a file that is not open drops |
| `Diagnostics.BatchClears` | crates/marrow-lsp/src/backend.rs:2001-2055 | the client is told to clear exactly what some root stops tracking |
| `Diagnostics.BusyBatchInvalidates` | crates/marrow-lsp/src/backend.rs:1961-1999 | the merged bits have the project bit if and only if some event is on a configuration, and the analysis bit if and only if one is on a file |
| `Diagnostics.BatchInvalidates` | crates/marrow-lsp/src/backend.rs:1340-1352 | the workspace is invalidated directly exactly by the events on its own root |
| `Diagnostics.PendingWatchedRoots` | crates/marrow-lsp/src/backend.rs:1961-1999 | the loop over a batch computes the closed form the batch theorems below read off its events |
| `Diagnostics.DeepestRootIsDeepest` | crates/marrow-lsp/src/backend.rs:337-343 | the root found lies above the path and is the deepest tracked one that does, or none does |
| `Diagnostics.SortByScope` | crates/marrow-lsp/src/backend.rs:306-323 | tracked URLs the run covers get an empty entry unless reported; those it does not cover are carried forward |
| `Diagnostics.DiagnosticsTracker.BumpRootEpoch` | crates/marrow-lsp/src/backend.rs:259-263 | the root's epoch is one higher, its URLs and all other roots unchanged, and the new epoch is returned |
| `Diagnostics.DiagnosticsTracker.ClearRoot` | crates/marrow-lsp/src/backend.rs:276-281 | the root's URLs are returned and dropped, its epoch kept |
| `Diagnostics.DiagnosticsTracker.ClearUrl` | crates/marrow-lsp/src/backend.rs:283-287 | one URL is dropped under one root, and whether it was tracked there is told |
| `Diagnostics.DiagnosticsTracker.ReconcileSuccess` | crates/marrow-lsp/src/backend.rs:296-335 | accepted if and only if the epoch is the root's current one; then the whole new tracker and what is to be sent, otherwise no change |
| `Diagnostics.DiagnosticsTracker.TrackedRootForPath` | crates/marrow-lsp/src/backend.rs:337-343 | the deepest tracked root, whatever order the map yields its keys in |
| `Diagnostics.DiagnosticsTracker.WatchedRootEffects` | crates/marrow-lsp/src/backend.rs:2001-2055 | whatever order the roots are drained in, the loop leaves the tracker, bits, schedules and clears the batch theorems above read off the events |
| `Diagnostics.DiagnosticsTracker.ApplyRoot` | crates/marrow-lsp/src/backend.rs:2010-2052 | one root's share of them: its clears, its recompute and its new epoch |
| `Diagnostics.DiagnosticsTracker.ClearDeleted` | crates/marrow-lsp/src/backend.rs:2038-2045 | deleted URLs no open buffer holds are dropped, and exactly the tracked ones among them are cleared |
| `RendezvousTheorems.StopTokenIsConserved` | crates/marrow-dap/src/session.rs:1536-1640 | until teardown begins, queued stops, the stop held, the staged resume and queued resumes sum to one if the run is parked or died at its stop, and to zero otherwise; and it died there if and only if its channel is closed while a stop is held or a resume staged |
| `RendezvousTheorems.RunsCanDieAtAStop` | crates/marrow-dap/src/session.rs:1691-1700 | a concrete run that panics over a query, with a token left although nothing is parked |
| `RendezvousTheorems.QueriesReceiveTheirOwnAnswers` | crates/marrow-dap/src/session.rs:1536-1547 | every finished query got the answer to itself, or nothing from a run that is gone: never a stop, log output or another query's answer |
| `RendezvousTheorems.QueryFailsIffTheRunIsGone` | crates/marrow-dap/src/session.rs:1536-1547 | at the moment a query returns it fails if and only if the run has ended, and otherwise returns its own answer |
| `RendezvousTheorems.QueriesAreNeverStuck` | crates/marrow-dap/src/debugger.rs:480-502 | a query in flight is alone in its queue and the step that brings its answer closer is enabled, or the run died over it and the failure can be received |
| `RendezvousTheorems.OneResumeBetweenStops` | crates/marrow-dap/src/session.rs:1553-1640 | between two consecutive stopped events exactly one resume was accepted |
| `RendezvousModes.ModeIsTheClients` | crates/marrow-dap/src/debugger.rs:480-502 | until teardown begins a run that is not parked is in the mode of the last request the client had accepted, taken at the depth of the stop it was shown; in continue mode before any |
| `RendezvousModes.HookStopsAsAsked` | crates/marrow-dap/src/debugger.rs:607-651 | the statement entered last is decided on once all its log output is sent; the run stops there if and only if it is the first decision of a run to stop on entry, a pause is up, the client's request says so, or a breakpoint fires, with the first of these as its reason and the pause spent |
| `RendezvousModes.RequestStopsAtItsNextStop` | crates/marrow-dap/src/debugger.rs:607-651 | a stop announced after a request, with no pause or breakpoint in between, is at the first statement visited at which the request asks to stop |
| `RendezvousModes.PauseStopsTheRun` | crates/marrow-dap/src/session.rs:1384-1406 | after a pause of a running program the first statement decided on stops it |
| `RendezvousModes.WhatTheRunSaysReachesTheClient` | crates/marrow-dap/src/session.rs:1587-1640 | until teardown begins, the stops and outputs the client has seen, followed by those on their way, are exactly what the run said, in order |
| `RendezvousTheorems.TerminateIsFinal` | crates/marrow-dap/src/session.rs:1705-1752 | once the terminate flag is up no resume is sent, no stopped event is emitted and at most one more statement hook lets the program run |
| `RendezvousTheorems.StagedResumeNeverWakesTheRun` | crates/marrow-dap/src/session.rs:1563-1583 | a resume still staged when teardown begins never lets the program execute another statement |
| `RendezvousTheorems.NobodyListens` | crates/marrow-dap/src/debugger.rs:480-502 | once the protocol thread has hung up, a run that sends anything or waits for a control unwinds |
| `RendezvousTheorems.EachRunEndsOnce` | crates/marrow-dap/src/session.rs:1645-1654 | the terminated event is emitted exactly when the session is over, once and last; an exited event at most once, right before it |
| `RendezvousTheorems.ExitTellsHowItEnded` | crates/marrow-dap/src/session.rs:1645-1700 | an exit code is zero only for a clean end, one only for a fault and 101 only for a panic, and one that is not zero comes right after some output |
| `RendezvousTheorems.EndedRunsSayEverything` | crates/marrow-dap/src/session.rs:1645-1700 | the protocol thread lets go of a run, unless it gives up on it, only once it has ended, and with one output each for what it printed, its value and what went wrong |
| `RendezvousTheorems.LaunchedSessionsEndWithAnEvent` | crates/marrow-dap/src/session.rs:1747-1752 | a session whose run was launched cannot be over without having emitted something, hence its terminated event |
| `RendezvousTheorems.RepeatedTeardownIsSilent` | crates/marrow-dap/src/session.rs:1771-1775 | tearing down again a session that is over emits nothing, whatever the detached run still does |
| `Rendezvous.EveryReachableStateIsGood` | crates/marrow-dap/src/debugger.rs:607-651 | where the token lies, what both queues may hold, and that stops and resumes take turns, in every reachable state of the two threads |
| `Rendezvous.StepKeepsInvariant` | crates/marrow-dap/src/main.rs:70-101 | every step of either thread, in any order, keeps that invariant |
| `Session.Session.OnContinue` | crates/marrow-dap/src/session.rs:1337-1351 | a continue is accepted exactly at a stop of a live run and stages that mode |
| `Session.Session.OnStep` | crates/marrow-dap/src/session.rs:1355-1376 | a step is accepted exactly at a stop, and stages over, into or out relative to that stop's depth |
| `Session.Session.OnPause` | crates/marrow-dap/src/session.rs:1384-1406 | a pause of a stopped run resumes it to stop at the next statement, one of a running run raises the flag |
| `Session.Session.ResumeRun` | crates/marrow-dap/src/session.rs:1553-1559 | the resume is staged and the stop forgotten, and nothing is sent |
| `Session.Session.FlushResume` | crates/marrow-dap/src/session.rs:1563-1583 | sends the staged resume, drops it while terminating, or collects the run when the send fails: whole new state on both sides |
| `Session.Session.PumpRunEvent` | crates/marrow-dap/src/session.rs:1587-1603 | takes one event in order, or collects the ended run only once the queue is dry |
| `Session.Session.HandleRunEvent` | crates/marrow-dap/src/session.rs:1609-1640 | a stop is announced and held unless the run is being torn down; output is forwarded |
| `Session.Session.FinishRun` | crates/marrow-dap/src/session.rs:1645-1654 | for a live run only: what it has to show, its exit code if it has one, then terminated |
| `Session.Session.EmitOutcome` | crates/marrow-dap/src/session.rs:1659-1700 | the output events and exit code of a clean end, a fault, a panic and an end without outcome, in order |
| `Session.Session.DetachRun` | crates/marrow-dap/src/session.rs:1747-1752 | terminated without an exit code, for a live run only |
| `Session.Session.RaiseTerminate` | crates/marrow-dap/src/session.rs:1705-1715 | the flag goes up, and the stop and any staged resume are forgotten, before anything is sent |
| `Session.Debugger.IsEntryStop` | crates/marrow-dap/src/debugger.rs:362-368 | true at most once per session |
| `Session.Debugger.ChooseStop` | crates/marrow-dap/src/debugger.rs:623-637 | entry before pause before step mode before breakpoint; a pause request is spent at the first statement that looks, whichever stop is taken |
| `Session.Debugger.RunToStop` | crates/marrow-dap/src/debugger.rs:607-651 | consulting the hook statement by statement, with no breakpoint, pause or entry stop, stops at the statement the trace theorems speak of |
| `Step.StepOverStopsAtTheNextStatement` | crates/marrow-dap/src/step.rs:60-70 | in any call tree, step-over never stops inside a call its statement makes, and stops at the activation's next statement when one remains |
| `Step.StepOutStopsInTheCaller` | crates/marrow-dap/src/step.rs:60-70 | in any call tree, step-out passes the rest of the activation, its callees and its later siblings, and stops at the caller's next statement when one remains |
| `Step.StepOutOfTheTopNeverStops` | crates/marrow-dap/src/step.rs:60-70 | stepping out of the outermost activation runs to the end |
| `Step.OtherModesStop` | crates/marrow-dap/src/step.rs:60-70 | stepping in and pausing stop at the very next statement, for their own reasons, and continuing at none |
| `Step.TraceAround` | crates/marrow-dap/src/session.rs:1355-1376 | where an activation's own statements lie in the trace of the whole program |
| `Breakpoints.FiresIff` | crates/marrow-dap/src/debugger.rs:153-178 | fires exactly on qualifying visits, and with a target exactly when the saturating count of qualifying visits is the target |
| `Breakpoints.TargetFiresOnce` | crates/marrow-dap/src/debugger.rs:153-178 | a target below the ceiling never fires a second time |
| `Breakpoints.TargetIsMet` | crates/marrow-dap/src/debugger.rs:153-178 | enough qualifying visits do fire it, at the visit whose count is the target |
| `Breakpoints.CeilingTargetRepeats` | crates/marrow-dap/src/debugger.rs:164-167 | a target at the counter's ceiling fires again on every later qualifying visit |
| `Breakpoints.StopsIff` | crates/marrow-dap/src/debugger.rs:227-240 | among all breakpoints of a file each counts on its own, and the program stops if and only if one without a log message fires |
| `Breakpoints.OutputsAreLogged` | crates/marrow-dap/src/debugger.rs:227-240 | a visit outputs exactly the rendered messages of the log points that fire on it, in the order they were armed |
| `Breakpoints.ArmedBreakpoints.Insert` | crates/marrow-dap/src/debugger.rs:105-110 | an equal breakpoint is armed once, a new one is appended, other files are untouched |
| `Breakpoints.ArmedBreakpoints.Evaluate` | crates/marrow-dap/src/debugger.rs:112-123 | only the visited file's breakpoints count, and the merged action is theirs |
| `Paging.DataPageBounds` | crates/marrow-dap/src/debugger.rs:505-513 | the limit is at least one and at most the preview ceiling |
| `Paging.DataChildrenAtOffset` | crates/marrow-dap/src/debugger.rs:533-580 | against a fetch that walks one sequence: the answer is the slice asked for, truncated if and only if more follows; at most ceil((start + limit) / page size) fetches are made; it fails only if a fetch does |
| `Paging.TakePage` | crates/marrow-dap/src/debugger.rs:552-564 | one page extends the window by exactly its share and tells whether children were left over |
| `Paging.WindowIsTheSlice` | crates/marrow-dap/src/debugger.rs:533-580 | the answer's elements are those from the start on, in order, as many as were asked for or are there |
| `Paging.WindowsTile` | crates/marrow-dap/src/debugger.rs:533-580 | consecutive windows concatenate to the larger one, losing and repeating nothing |
| `CatalogBinding.BindRefinesADirectRead` | crates/marrow-lsp-core/src/catalog_binding.rs:225-258 | every successful bind serves a direct read at an instant inside the call if the store is readable, even when a commit lands between fingerprint and open; while it is locked, the last confirmed read; before any, the first run |
| `CatalogBinding.CacheHoldsTheLastConfirmed` | crates/marrow-lsp-core/src/catalog_binding.rs:193-213 | after any run of binds the cache holds the direct read at the last confirmed instant, and is bound exactly when there was one |
| `CatalogBinding.BindKeepsCoherence` | crates/marrow-lsp-core/src/catalog_binding.rs:143-184 | one bind keeps identity, catalog and fingerprint of one pinned instant together, with the fingerprint seen no later |
| `CatalogBinding.QuietBindServesTheCurrentCatalog` | crates/marrow-lsp-core/src/catalog_binding.rs:186-192 | with no commit during the call and the store readable, and the lock where it holds no catalog, a bind succeeds and serves exactly what the store holds |
| `CatalogBinding.BindFailsIff` | crates/marrow-lsp-core/src/catalog_binding.rs:143-258 | after any binds the next fails if and only if the store's presence cannot be told, it cannot be pinned, its new catalog cannot be read, or there is no catalog to serve and the lock cannot be read, with that error; otherwise which catalog it serves, by the store, its fingerprint and the cache held before |
| `CatalogBinding.ConfirmedIff` | crates/marrow-lsp-core/src/catalog_binding.rs:143-184 | a bind confirms an instant if and only if there is no store, its fingerprint is recognised, or it can be opened and read |
| `CatalogBinding.LockOnlyWithoutACatalog` | crates/marrow-lsp-core/src/catalog_binding.rs:49-57 | a binding never has both a catalog and a lock, and without a catalog the lock is the one on disk when it is read |
| `CatalogBinding.ReadableLockMakesFailureHarmless` | crates/marrow-lsp-core/src/catalog_binding.rs:225-258 | while the committed lock can be read, a failing bind leaves the cache as it was |
| `CatalogBinding.FailsAndChangesTheCacheIff` | crates/marrow-lsp-core/src/catalog_binding.rs:225-284 | a bind fails and yet changes the cache if and only if the committed lock cannot be read and, by what the store, its fingerprint and the cache held beforehand, there was something to write without an accepted catalog |
| `CatalogBinding.CorruptLockFailsAfterAdoption` | crates/marrow-lsp-core/src/catalog_binding.rs:280-284 | a concrete failing bind that did change the cache |
| `CatalogBinding.CatalogBindingCache.Bind` | crates/marrow-lsp-core/src/catalog_binding.rs:225-258 | the whole new cache and the binding or error, for each of the five probe outcomes |
| `Positions.OffsetUndoesPosition` | crates/marrow-lsp-core/src/positions.rs:54-95 | going to a position and back is the identity on every character boundary |
| `Positions.OffsetIsAStableBoundary` | crates/marrow-lsp-core/src/positions.rs:71-95 | every position maps to a character boundary, and mapping that there and back stays |
| `Positions.PositionIsStrictlyIncreasing` | crates/marrow-lsp-core/src/positions.rs:54-69 | later boundaries have later positions |
| `Positions.PositionFloors` | crates/marrow-lsp-core/src/positions.rs:50-55 | any byte has the position of the largest boundary at or below it |
| `Positions.PositionCounts` | crates/marrow-lsp-core/src/positions.rs:54-69 | a position is the number of newlines before it and the number of UTF-16 units of its line before it |
| `Positions.SeekClamps` | crates/marrow-lsp-core/src/positions.rs:71-95 | a column past its line clamps before the newline, a line past the text to the end, and otherwise the first boundary at or past the column |
| `Positions.PositionsFit` | crates/marrow-lsp-core/src/positions.rs:61-68 | below 2^32 bytes no 32-bit cast changes a position |
| `Positions.NewlineBytesAreLines` | crates/marrow-lsp-core/src/positions.rs:41-46 | the newline bytes found in the encoded text are exactly the starts of lines, never part of another character |
| `Positions.LineIndex.constructor` | crates/marrow-lsp-core/src/positions.rs:39-48 | the index built from raw bytes holds the line starts of the text |
| `Positions.LineIndex.LineOf` | crates/marrow-lsp-core/src/positions.rs:56-59 | the one line that starts at or before the byte and whose successor starts after it |
| `Positions.LineIndex.PositionOfByte` | crates/marrow-lsp-core/src/positions.rs:54-69 | the position the theorems above speak of, through floor, line search and UTF-16 count, cast to 32 bits |
| `Positions.LineIndex.OffsetOfPosition` | crates/marrow-lsp-core/src/positions.rs:74-95 | the offset the theorems above speak of, for every 32-bit line and column |
| `Positions.LineIndex.Walk` | crates/marrow-lsp-core/src/positions.rs:85-94 | walking one line's characters finds the same boundary as seeking through the whole text |
| `Utf8.CharBoundaryIff` | crates/marrow-lsp-core/src/positions.rs:114-119 | a byte of the encoding starts a character if and only if it is not a continuation byte |
| `Utf8.FloorCharBoundary` | crates/marrow-lsp-core/src/positions.rs:114-119 | stepping back over continuation bytes finds the largest boundary at or below |
| `Utf8.DecodeIff` | crates/marrow-dap/src/protocol.rs:13-24 | bytes decode to a text if and only if they are its encoding |
| `Utf16.DecodeOfEncode` | crates/marrow-lsp-core/src/positions.rs:61-68 | decoding the UTF-16 units columns are counted in gives back the text |
| `SemanticTokens.DeltaIsCorrectIff` | crates/marrow-lsp-core/src/semantic_tokens.rs:140-157 | for all streams: splicing the edits into the flattened previous stream gives the flattened current one if and only if the edit's offsets survive 32-bit arithmetic, or only the start does not and the stretch it is off by repeats itself |
| `SemanticTokens.LongStreamsCanGoWrong` | crates/marrow-lsp-core/src/semantic_tokens.rs:152-156 | two concrete streams, of 858,993,460 tokens and one more, whose delta is wrong |
| `SemanticTokens.DeltaIsMinimal` | crates/marrow-lsp-core/src/semantic_tokens.rs:132-175 | no other single splice over whole tokens deletes fewer or inserts fewer |
| `SemanticTokens.FlattenAt` | crates/marrow-lsp-core/src/semantic_tokens.rs:148-156 | the five numbers of each token of a flattened stream, in the protocol's order |
| `SemanticTokens.ClientHoldsEveryStreamIff` | crates/marrow-lsp/src/backend.rs:1788-1833 | over every history of full, delta and close requests, a client that splices what it gets holds under each id exactly the stream computed for that answer if and only if every delta answered fits |
| `SemanticTokens.DeltaLands` | crates/marrow-lsp/src/backend.rs:143-150 | a delta is computed against the very stream the client got under the id it names, and turns it into the new one if and only if it fits |
| `SemanticTokens.NextIdIsNew` | crates/marrow-lsp/src/backend.rs:124-135 | no result id is ever handed out twice |
| `SemanticTokens.ClosedDocumentsGetFullAnswers` | crates/marrow-lsp/src/backend.rs:139-141 | after a close a delta request gets a full answer |
| `SemanticTokens.SemanticTokensCache.Store` | crates/marrow-lsp/src/backend.rs:124-135 | the new cache entry and counter, and the id under which the stream is now held |
| `SemanticTokens.SemanticTokensCache.Forget` | crates/marrow-lsp/src/backend.rs:139-141 | one URL's stream is dropped and ids go on from where they were |
| `SemanticTokens.SemanticTokensCache.Previous` | crates/marrow-lsp/src/backend.rs:145-150 | the stream held for the URL, only under its own id |
| `SemanticTokens.SemanticTokensCache.FullDelta` | crates/marrow-lsp/src/backend.rs:1819-1833 | the answer and the cache of the client theorem above |
| `LogMessage.ParseLogMessage` | crates/marrow-dap/src/session.rs:2118-2153 | the loop computes the parse the two theorems below characterise |
| `LogMessage.ParseIff` | crates/marrow-dap/src/session.rs:2118-2153 | a message parses to some parts if and only if they are canonical and the message is their print, up to white space trimmed inside braces |
| `LogMessage.ParseOfPrint` | crates/marrow-dap/src/session.rs:2118-2153 | printing canonical parts and parsing them is the identity |
| `Framing.ChunkingIsInvisible` | crates/marrow-lsp/src/main.rs:92-107 | however the input is split into reads, the same frames are inspected, the same leftover is kept and the process ends at the same frame |
| `Framing.ExitWatcher.Read` | crates/marrow-lsp/src/main.rs:134-153 | one more chunk continues the scan of everything received so far |
| `Framing.ExitWatcher.ScanBuffer` | crates/marrow-lsp/src/main.rs:92-107 | the drain loop inspects exactly the whole frames in the buffer, in order, up to the first exit notification |
| `Framing.FindIsFirst` | crates/marrow-lsp/src/main.rs:197-201 | the index found is that of the first occurrence |
| `Framing.GuardDropsIff` | crates/marrow-lsp/src/main.rs:172-195 | a notification the parser would accept is dropped by the guard if and only if its token is not in its bytes |
| `Framing.EscapedExitIsDropped` | crates/marrow-lsp/src/main.rs:186-195 | a concrete exit notification, with one letter escaped, that the guard drops |
| `Framing.Stream.WriteMessage` | crates/marrow-dap/src/protocol.rs:38-43 | one frame, header and body, is appended |
| `Framing.Stream.ReadMessage` | crates/marrow-dap/src/protocol.rs:13-34 | the last declared length before the blank line decides the body; end of input, bad UTF-8, a missing length or a short body give no message |
| `FramingTheorems.ReaderAndWatcherAgree` | crates/marrow-lsp/src/main.rs:159-170 | both sides cut the same next message out of a written stream, at the same place |
| `FramingTheorems.LastLengthDecides` | crates/marrow-dap/src/protocol.rs:13-34 | of the length lines of any header the reader takes the last, even one that does not parse, and ignores all other lines |
| `FramingTheorems.FirstLengthDecides` | crates/marrow-lsp/src/main.rs:159-170 | of the length lines of a header the watcher takes the first |
| `FramingTheorems.WatcherSeesWhatWasWritten` | crates/marrow-lsp/src/main.rs:92-107 | over any written stream the watcher inspects exactly the bodies written, in order, up to the first exit notification |
| `FramingTheorems.WatcherFindsExitInAnyChunking` | crates/marrow-lsp/src/main.rs:134-153 | whatever reads deliver a written stream, the process ends if and only if an exit notification was written |
| `FramingTheorems.Exchange` | crates/marrow-dap/src/protocol.rs:13-43 | messages written one after another read back in order, and then the stream is at its end |
| `Decimal.ParseOfPrint` | crates/marrow-dap/src/protocol.rs:40-41 | a printed length parses back to itself |
| `CappedOutput.Capture` | crates/marrow-lsp-core/src/mcp.rs:1588-1624 | what is kept, and whether it was cut, depends only on the concatenation of all writes |
| `CappedOutput.CappedOutput.Write` | crates/marrow-lsp-core/src/mcp.rs:1607-1624 | after every write the text is what is kept of everything written so far |
| `CappedOutput.KeptIsLongest` | crates/marrow-lsp-core/src/mcp.rs:1585-1591 | the kept text is a prefix of at most 65536 bytes, and no longer whole-character prefix fits |
| `CappedOutput.CutTextIsNearlyFull` | crates/marrow-lsp-core/src/mcp.rs:1617-1623 | a cut text has at least 65533 bytes |

## Left out

- Framing.ExitWatcher.ScanBuffer: does not model a header length plus declared length past the machine word, on which the program panics.
- Framing.Stream.ReadMessage: does not model a failing allocation for a huge declared length; such a body counts as short.
- ServerTheorems.SourceOnlyRunsLeaveTheRestUntouched: does not say which files a checker that leaves tests out analyses, which is the checker's own choice.
- Diagnostics.ReportToDiagnostics: does not model the conversion of a problem's span to a range, nor a problem in a path that has no URL, which the program drops.
- RendezvousTheorems.StopTokenIsConserved: says nothing about a pause requested while a stop event is still queued, which may cause one more stop later.
- ServerTheorems.PublishedDiagnosticsAreOfThePresent: does not carry the document version attached to each set, which is read from the same capture as its buffers.
- Real time: debounce, the adaptive file count behind it, and the teardown budget are steps that may happen at any moment.
- Overflow of 64-bit generations, epochs and result ids.
- File system and URL handling: paths are component sequences and a URL either names a path or none; walking, canonicalizing and classifying watched paths are choices of the environment.
- The parts of a buffer derived from its text: line index, tokens and parse.
- The session cache, which repeats the fingerprint-then-open pattern of the catalog cache; a catalog cache keeps one store path, since taking up a project starts a new one.
- Replacing the armed breakpoints of a running program, and the expandable references of the variables view.
- Completion, hover, navigation, symbols, formatting and diagnostics mapping, JSON shaping and error codes: thin layers that would add only easy members.
- The encoding of tokens into relative positions, which would add only easy members; the deltas start from the encoded stream.
