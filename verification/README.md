# Verification of the shell's update and exit machinery and its companion protocols

This project models the parts of the repository whose behaviour depends on order: what happens when threads, tasks,
requests, timers and failing uploads meet. Each part is a set of Dafny modules that state what the code does step by
step and prove what holds over every call, every interleaving and every run.

| part | files |
|---|---|
| Exit, restart and cleanup of the desktop shell | `ExitProtocol`, `ExitCoordinator`, `AtomicExit`, `BackendProtocol`, `RestartHandoff`, `RuntimeRetention`, `RuntimeHolder` |
| Downloaded-update cache and its progress reports | `UpdateCache`, `Progress` |
| Memory panel and completion toast | `MemoryPanel`, `Toast` |
| Release URLs, publishing and rollback | `UrlCodec`, `ReleaseUrls`, `Mirrors`, `ReleaseManifest`, `ReleasePublish`, `ReleaseRegistry` |
| App Server reference model | `HistoryPaging`, `Conversations`, `ConversationRuns`, `ConversationEvents`, `ConversationTurns`, `ConversationBusy`, `ConversationRequests`, `ConversationServer`, `Runs`, `RunServer`, `Workspaces` |
| Voice-model installer | `ResumableDownload`, `VoiceModels` |

How the models are built:

- What the source updates in place is a class with the same fields (`ExitCoordinator`, `DownloadedUpdateCache`,
  `MemoryPanelWindowState`, `Server`, `Registry`, `Setup`, ...). Each method is proved equal to a function of the old
  state; the theorems over runs are lemmas about those functions.
- Concurrent code is a state machine whose runs are sequences of steps chosen freely among any number of threads or
  tasks. The exit coordinator is modelled twice: one step per method (`ExitProtocol`), and one step per atomic load,
  store, swap and compare-exchange (`AtomicExit`). `AtomicExit.UninterruptedIsTheMethod` connects the two.
- Whatever the code cannot control is a parameter: the outcome of every cleanup attempt, upload attempt and HTTP
  exchange, the moments at which threads run, the state other threads leave behind, clocks, and hash functions.

Some properties that the code suggests do not hold. For these the exact condition is proved, or a concrete run:

- Fatal is final between calls of coordinator methods, but not between their atomic operations: it is final from a
  moment on exactly when no thread has already decided to store a phase (`AtomicExit.FatalIsForEverExactly`,
  `AtomicExit.FatalCanBeLeft`). A verified cleanup can end up next to a failed phase, so that exit is refused
  (`AtomicExit.VerifiedAndFailedCanMeet`); this happens exactly by a failed cleanup's late phase store
  (`AtomicExit.AlwaysSettledExactly`, `AtomicExit.ExitAllowedIsCleanupVerified`).
- Each assumption under which the memory panel is safe is needed (`MemoryPanel.EveryLapseMatters`).
- An older toast can displace a newer one, because numbering and storing are two steps
  (`Toast.OlderToastCanDisplaceNewer`); toasts are stored in order exactly when no store overtakes a waiting show
  (`Toast.StoredInOrderExactly`).
- The uploader adds a `v` only when it is missing while the client strips all of them, so they disagree exactly on
  versions that start with two (`Mirrors.TagsAgreeExactly`); a release whose version starts with `v` cannot be rolled
  back to (`ReleaseRegistry.RollbackReachesExactly`).
- History paging is complete for every page size exactly when the time order is strict in (time, id), because the sort
  ignores the id that the cursor compares (`HistoryPaging.PagingIsCompleteExactly`); with a fractional page size
  `has_more` can be true of a page that left nothing out (`HistoryPaging.HasMoreIsTrueExactly`).
- Sends without an idempotency key share the empty key, so only the first one is kept
  (`ConversationRuns.OnlyOneKeylessSend`).
- A conversation can be idle by its flag while a turn goes on: after a cancellation
  (`ConversationTurns.CancelledTurnGoesOn`), or when one of two overlapping turns ends
  (`ConversationBusy.OverlappingTurnsPart`). Flag and turns agree throughout a run exactly when neither happens
  (`ConversationBusy.AlwaysInStepExactly`).
- A completed run can be cancelled (`Runs.CompletedCanBeCancelled`, exactly by `Runs.CompletedStaysExactly`), and a change of status reaches each follower under a
  different number (`Runs.AnnouncedNumbersDiffer`).
- A body that ends early without an exception is renamed over the target (`ResumableDownload.EarlyEndReplacesFile`,
  exactly by `ResumableDownload.BodyGivesContentExactly`). After a 416 the alternate voice-detector hash is accepted for
  any file (`ResumableDownload.AlternateAcceptedForAnyFile`); exactly where this differs from the installer's own check
  is `VoiceModels.ResumeDisagreesExactly`, and that check ends the script there (`VoiceModels.AlternateElsewhereExits`).

## Model

| member | source | states |
|---|---|---|
| `ExitProtocol.ReachableExactly` | apps/desktop/src/main.rs:1719-1814 | the states that sequences of coordinator calls reach are exactly those where a verified cleanup means Complete or Fatal, Restarting means a requested restart, Fatal means a started dialog, and Running means untouched |
| `ExitProtocol.RunIsConsistent` | apps/desktop/src/main.rs:1719-1814 | every call keeps that invariant |
| `ExitProtocol.ExitAllowedIsCleanupVerified` | apps/desktop/src/main.rs:1808-1814 | between calls, an exit is allowed exactly when a cleanup is verified |
| `ExitProtocol.FatalIsNeverLeft` | apps/desktop/src/main.rs:1775-1806 | a fatal coordinator stays fatal through any later calls |
| `ExitProtocol.OriginalCodeIsLastAccepted` | apps/desktop/src/main.rs:1720-1745 | the stored exit code is the one of the newest accepted normal exit |
| `ExitProtocol.QuitStartsShutdown` | apps/desktop/src/main.rs:1770-1773 | exactly when a quit that is not yet allowed gets to start the shutdown |
| `ExitProtocol.RestartRequestIsForEver` | apps/desktop/src/main.rs:1720-1757 | a restart is requested exactly if some call requested it; a normal exit is accepted exactly if none did and the phase is Running or CleanupFailed |
| `ExitProtocol.RestartStartsExactly` | apps/desktop/src/main.rs:1747-1757 | a restart request is told to start the restart exactly when no exit, restart or cleanup report came before it |
| `ExitProtocol.FatalIsClaimedOnce` | apps/desktop/src/main.rs:1794-1806 | of all fatal claims exactly one is answered yes if the coordinator is fatal and none if it is not; the next is answered yes exactly when it is complete and no restart was requested |
| `ExitCoordination.ExitCoordinator.RequestNormalExit` | apps/desktop/src/main.rs:1720-1745 | refused during a restart or outside Running and CleanupFailed; accepted, it stores phase and code |
| `ExitCoordination.ExitCoordinator.RequestRestart` | apps/desktop/src/main.rs:1747-1757 | always records the request; starts a restart only from Running |
| `ExitCoordination.ExitCoordinator.ClaimShutdownStart` | apps/desktop/src/main.rs:1759-1773 | one claim per shutdown, and none without a shutdown mode |
| `ExitCoordination.ExitCoordinator.MarkCleanupVerified` | apps/desktop/src/main.rs:1775-1780 | verified, and Complete unless fatal |
| `ExitCoordination.ExitCoordinator.MarkCleanupFailed` | apps/desktop/src/main.rs:1782-1792 | not verified, claim released, phase kept while shutting down, restarting or fatal |
| `ExitCoordination.ExitCoordinator.ClaimFatalExit` | apps/desktop/src/main.rs:1794-1806 | claimed only once, after a verified cleanup and without a restart |
| `ExitCoordination.ExitCoordinator.UpdateBackend` | apps/desktop/src/main.rs:1849-1982 | each registration update as one step under the lock |
| `ExitCoordination.ExitCoordinator.RegisterBackend` | apps/desktop/src/main.rs:1863-1875 | registers and answers true exactly while the backend is starting |
| `ExitCoordination.ExitCoordinator.ReleaseStartupCleanupAuthority` | apps/desktop/src/main.rs:1915-1929 | only the authority that was cleaned up is released |
| `AtomicExit.UninterruptedIsTheMethod` | apps/desktop/src/main.rs:1719-1814 | the atomic operations of a method, uninterrupted, have the effect of the one-step method, report its answer and nothing else, and are at most four |
| `AtomicExit.UninterruptedReads` | apps/desktop/src/main.rs:1759-1814 | a shutdown mode or a permission to exit read without interruption is that of the state it was read in, and reading changes nothing |
| `AtomicExit.ClaimsAreBounded` | apps/desktop/src/main.rs:1719-1814 | under every interleaving of any number of threads: at most one fatal claim and one started restart; shutdown claims and accepted exits each at most one more than the failed-cleanup reports |
| `AtomicExit.EventsAreOrdered` | apps/desktop/src/main.rs:1747-1814 | no shutdown mode read after a restart request is Normal; a restart starts only after it was requested; an allowed exit and a fatal claim come only after some verified cleanup |
| `AtomicExit.FatalIsLeftExactlyByStaleStores` | apps/desktop/src/main.rs:1775-1806 | a step leaves the fatal phase exactly when it is a phase store of a cleanup report |
| `AtomicExit.FatalIsForEverExactly` | apps/desktop/src/main.rs:1775-1806 | a fatal coordinator stays fatal through every continuation exactly when no thread inside a cleanup report has already decided to store a phase |
| `AtomicExit.FatalCanBeLeft` | apps/desktop/src/main.rs:1775-1806 | such a step is reachable |
| `AtomicExit.VerifiedAndFailedCanMeet` | apps/desktop/src/main.rs:1775-1814 | such a run exists: with nobody inside a method, cleanup is verified while the phase says it failed and exit is refused |
| `AtomicExit.UnsettledExactlyByOverwriting` | apps/desktop/src/main.rs:1775-1792 | a step parts a verified cleanup from its phase exactly when it is the late phase store of a failed cleanup while no verified report is under way |
| `AtomicExit.AlwaysSettledExactly` | apps/desktop/src/main.rs:1775-1792 | a verified cleanup is settled at every moment of a run exactly when no such step is taken |
| `AtomicExit.ExitAllowedIsCleanupVerified` | apps/desktop/src/main.rs:1775-1814 | in such a run, whenever no verified report is under way, an exit is allowed exactly when a cleanup is verified |
| `AtomicExit.WholeCall` | apps/desktop/src/main.rs:1719-1814 | among any number of threads one more can carry out a whole method, with the effect and the answer of the one-step protocol |
| `BackendProtocol.ChangesAreBounded` | apps/desktop/src/main.rs:1849-1982 | every change of the registration uses up rank, so a run changes it at most three times |
| `BackendProtocol.ThreeChangesHappen` | apps/desktop/src/main.rs:1849-1982 | three changes do happen |
| `BackendProtocol.NoReturn` | apps/desktop/src/main.rs:1849-1982 | Starting and Ready are never re-entered; the verified states are final |
| `BackendProtocol.GoneServerStaysGone` | apps/desktop/src/main.rs:1984-1998 | once a decided registration shows no server, none is shown again |
| `BackendProtocol.RetainedServerIsHiddenExactlyByVerifiedFailure` | apps/desktop/src/main.rs:1931-1968 | a retained server disappears exactly when a verified failure is reported |
| `BackendProtocol.FirstRegistrationCounts` | apps/desktop/src/main.rs:1863-1875 | while there are only registrations the first one counts |
| `BackendProtocol.FirstReportDecides` | apps/desktop/src/main.rs:1849-1982 | of all reports the first one decides for ever, except that a verified failure overrules everything but a verified stop |
| `BackendProtocol.WaitForBackend` | apps/desktop/src/main.rs:2000-2029 | the wait returns the server of the first decided registration it sees, none if that has none, and none at the deadline |
| `BackendProtocol.NoServerIsFinal` | apps/desktop/src/main.rs:2000-2029 | a wait that saw a decided registration without a server is right for ever |
| `RestartHandoff.Shell.CleanupUntilVerifiedBounded` | apps/desktop/src/main.rs:1111-1135 | between one and the maximum of attempts, all but the last failed, each failure reported before others are let on; unverified only after all of them |
| `RestartHandoff.Shell.AllowHandoffWithoutVerifiedCleanup` | apps/desktop/src/main.rs:2120-2124 | the exit becomes allowed and the registration closed, with the original code |
| `RestartHandoff.Shell.RestartCleanupBounded` | apps/desktop/src/main.rs:2079-2110 | four failures in a row before the handoff is allowed unverified |
| `RestartHandoff.Shell.CleanupForRestartUntilVerified` | apps/desktop/src/main.rs:2042-2054 | ends with exit allowed; on success no runtime is retained |
| `RestartHandoff.Shell.CleanupStartupForRestartUntilVerified` | apps/desktop/src/main.rs:2056-2066 | ends with exit allowed; on success the authority is released |
| `RestartHandoff.Shell.HoldRestartWithoutCleanupAuthority` | apps/desktop/src/main.rs:2162-2185 | gives up without an attempt only when neither server nor authority is there |
| `RestartHandoff.Shell.AbortRestart` | apps/desktop/src/main.rs:2133-2154 | ends with exit allowed after at most four attempts |
| `RestartHandoff.Shell.FindServer` | apps/desktop/src/main.rs:2749-2775 | the managed server, else the registered one, and only without either a wait that lets the other threads on |
| `RestartHandoff.Shell.HandleRestart` | apps/desktop/src/main.rs:2749-2788 | for every outcome of the attempts and everything, consistent or not, that other threads make of the shared state: at most 1 + 4 attempts, at least one when an authority is found, exit always allowed, the registration closed and the restart still requested at the end, and unverified only after four failures or without an authority |
| `RestartHandoff.Shell.StartShutdownIfNeeded` | apps/desktop/src/main.rs:2267-2328 | a claimed shutdown, which the others see claimed, ends after at most 2 + 4 attempts with an allowed exit and a closed registration, under the original code or left to a restart |
| `RestartHandoff.Shell.RetryShutdown` | apps/desktop/src/main.rs:2290-2326 | after a first failed attempt the quit still ends, after at most 1 + 4 more, with an allowed exit and a closed registration; a second failure leaves the failure and the retained server for the others to see |
| `RestartHandoff.Shell.RetryShutdownUntilVerified` | apps/desktop/src/main.rs:2340-2385 | at most four attempts, then the exit anyway; a verified attempt releases the retained runtimes and an unverified end keeps whatever the other threads left |
| `RestartHandoff.Shell.DeferredExitShutdown` | apps/desktop/src/main.rs:2200-2232 | one deferred wait at a time; it ends in a shutdown or an exit, except exactly when a server has appeared whose shutdown is already claimed or out of place |
| `RestartHandoff.Shell.HandleQuit` | apps/desktop/src/main.rs:2790-2815 | a quit that is not let through starts a shutdown or waits; with a server known, and without one, exactly when it does neither; and what its request leaves for the others to see |
| `RuntimeRetention.BackendThread.Cleanup` | apps/desktop/src/main.rs:3327-3341 | the cleanup succeeds without doing anything if startup was not entered or already failed verified, fails if it was entered without an authority, and otherwise is what the owner's own shutdown comes to |
| `RuntimeRetention.BackendThread.Retain` | apps/desktop/src/main.rs:3347-3377 | a runtime that cannot be dropped gets exactly one owner: the server's retry, the startup authority's retry, or the held restart |
| `RuntimeRetention.BackendThread.Finish` | apps/desktop/src/main.rs:2533-2567 | the runtime is dropped exactly after a clean run, a startup that was not entered or failed verified, or a successful shutdown by its owner; otherwise it has exactly one owner, with the follow-up of each case |
| `RuntimeHolder.RuntimesAreHeldUntilCleaned` | apps/desktop/src/main.rs:1877-1893 | over every run of any number of threads, retained runtimes are held or released in full count, and none is released before some cleanup succeeded |
| `RuntimeHolder.AuthorityIsHeldUntilCleaned` | apps/desktop/src/main.rs:1895-1929 | a retained startup authority is held until it was itself cleaned up or a later one took its place |
| `RuntimeHolder.StepKeepsOrder` | apps/desktop/src/main.rs:2042-2066 | every release follows a successful cleanup of what it releases |
| `RuntimeHolder.ServerCleanupReleasesAll` | apps/desktop/src/main.rs:2042-2054 | whatever other threads do in between, a thread whose server cleanup succeeded then releases every runtime held |
| `RuntimeHolder.AuthorityCleanupReleasesIt` | apps/desktop/src/main.rs:2056-2066 | and one that cleaned up a startup authority lets go of that one and of no other |
| `StartupAuthority.ShutdownSucceedsAtMostOnce` | apps/desktop/src/main.rs:1546-1580 | for any number of concurrent callers: at most one successful shutdown, every Ok after it, no attempt after it |
| `StartupAuthority.GateStep` | apps/desktop/src/main.rs:1563-1580 | the gate has exactly one caller inside, which knows the truth about `verified` |
| `StartupAuthority.CallEnds` | apps/desktop/src/main.rs:1546-1580 | a caller that meets nobody inside ends within six steps, Ok without an attempt once a shutdown succeeded and otherwise as its own attempt does, and leaves the gate free |
| `UpdateSlot.Conservation` | apps/desktop/src/main.rs:516-661 | over any calls: begins = cancels + finishes + Downloading; finishes + restores = takes + replaced + Ready; takes = restores + installs + Installing |
| `UpdateSlot.ReadyLeavesExactly` | apps/desktop/src/main.rs:516-661 | a call changes a slot with a finished package exactly when it takes that version or begins the download of another |
| `UpdateCache.DownloadedUpdateCache.BeginDownload` | apps/desktop/src/main.rs:516-552 | refused while claimed; a finished package of the same version is kept, reported as there and measured; one of another version makes room; counters restart with the download |
| `UpdateCache.DownloadedUpdateCache.FinishDownload` | apps/desktop/src/main.rs:590-603 | succeeds exactly for the version that owns the download, and otherwise leaves the slot alone |
| `UpdateCache.DownloadedUpdateCache.TakeReady` | apps/desktop/src/main.rs:605-638 | gives out the package of that version and nothing else; every refused take tells why and leaves the slot as it was despite emptying it in between |
| `UpdateCache.DownloadedUpdateCache.RestoreReady` | apps/desktop/src/main.rs:640-653 | a package returns to the slot only while that version is being installed |
| `UpdateTasks.TasksOwnTheSlot` | apps/desktop/src/main.rs:859-1060 | over every interleaving of any number of download and install tasks: the slot is claimed exactly by one live task with its version, no finish is refused, nothing restored or installed is dropped, and a taken package is the newest finished of its version |
| `UpdateTasks.StepKeeps` | apps/desktop/src/main.rs:859-1060 | every critical section keeps that invariant |
| `UpdateTasks.NeverWedged` | apps/desktop/src/main.rs:516-661 | with no live task every download is accepted or already there; Downloading and Installing exactly while such a task lives |
| `UpdateTasks.TasksFreeTheSlot` | apps/desktop/src/main.rs:859-1060 | however a live task ends it frees the slot: what it finished or could not install is there, and anything else is gone |
| `UpdateTasks.PackageStaysExactly` | apps/desktop/src/main.rs:516-661 | over any interleaving of tasks a finished package is in the slot at every later moment exactly if no task installs it and none downloads another version |
| `Progress.CoalesceChunk` | apps/desktop/src/main.rs:687-705 | publishes everything buffered exactly when the interval has passed |
| `Progress.ReportDownload` | apps/desktop/src/main.rs:957-1008 | published plus flushed bytes equal the total, exactly below 2^64 and modulo 2^64 always; k messages take at least k intervals |
| `MemoryPanel.PanelIsSafe` | apps/desktop/src/memory_panel_window.rs:54-211 | under every interleaving of any number of commands without a lapse, a visible panel belongs to the current request or is about to be taken down, and with nothing pending it belongs to the current request |
| `MemoryPanel.StepKeeps` | apps/desktop/src/memory_panel_window.rs:77-211 | every command, queued task and follow-up keeps the invariant |
| `MemoryPanel.EveryLapseMatters` | apps/desktop/src/memory_panel_window.rs:149-211 | dropping any one of the five assumptions leaves, in some run, a panel up for nobody |
| `MemoryPanel.SyncEndsDisabled` | apps/desktop/src/main.rs:2837-2858 | a sync leaves everything alone if the session's owner is enabled, and otherwise ends the session and has the window hidden |
| `MemoryPanel.OwnersAfterSync` | apps/desktop/src/main.rs:2837-2858 | over any run after a sync the session is of an owner it left enabled, or was placed by one of the commands that followed |
| `MemoryPanel.NoPanelOfDisabledOwner` | apps/desktop/src/memory_panel_window.rs:109-211 | once nothing is pending after a sync, in every run without a lapse, no panel is visible of an owner it found disabled unless a later command placed it |
| `MemoryPanel.SessionEndsExactly` | apps/desktop/src/memory_panel_window.rs:54-211 | a session is left exactly by a hide or a failed place of its own request, a sync without its owner, or the valid place of another |
| `MemoryPanel.WindowChangesExactly` | apps/desktop/src/memory_panel_window.rs:127-211 | the window is shown exactly for the current request of the current owner, and taken down exactly by a hide without a session or by the current place |
| `MemoryPanel.PanelStaysExactly` | apps/desktop/src/memory_panel_window.rs:54-211 | over any interleaving a panel that is up stays up for its session exactly until one of these happens |
| `MemoryPanelSession.MemoryPanelWindowState.PlaceAt` | apps/desktop/src/memory_panel_window.rs:54-66 | a valid place replaces the session, an invalid one changes nothing |
| `MemoryPanelSession.MemoryPanelWindowState.CanShow` | apps/desktop/src/memory_panel_window.rs:68-71 | only the current request of the current owner may show |
| `MemoryPanelSession.MemoryPanelWindowState.Hide` | apps/desktop/src/memory_panel_window.rs:102-107 | only the current request ends the session |
| `MemoryPanelSession.MemoryPanelWindowState.Invalidate` | apps/desktop/src/memory_panel_window.rs:109-115 | the session ends exactly when its owner is not enabled |
| `Toast.ObtainedAtMostOnce` | apps/desktop/src/completion_toast.rs:41-57 | per generation at most one of click, dismissal, timer and rollback obtains the payload, and only a stored one that was not displaced |
| `Toast.ObtainsOwnGenerationExactly` | apps/desktop/src/completion_toast.rs:51-57 | a step obtains the payload in the slot exactly when it asks for its generation; the slot changes only so, or by the store of another payload |
| `Toast.ThreadKeepsGeneration` | apps/desktop/src/completion_toast.rs:100-143 | a show, its rollback and its timer act for the one generation the show was given |
| `Toast.ToastStaysExactly` | apps/desktop/src/completion_toast.rs:100-143 | over any run a toast is there at every moment exactly until somebody asks for its own generation or another toast is stored |
| `Toast.StepKeeps` | apps/desktop/src/completion_toast.rs:100-143 | every step keeps payloads accounted for and generations distinct |
| `Toast.OlderToastCanDisplaceNewer` | apps/desktop/src/completion_toast.rs:100-143 | there is a run in which an older toast displaces a newer one and stays |
| `Toast.DisplacesNewerExactly` | apps/desktop/src/completion_toast.rs:100-143 | a step displaces a newer toast by an older one exactly when it is the store of a show whose generation is below the one in the slot |
| `Toast.OnlyNewerDisplaces` | apps/desktop/src/completion_toast.rs:100-143 | in every run whose stores overtake no waiting show, stored generations increase and only newer toasts displace older ones |
| `Toast.StoredInOrderExactly` | apps/desktop/src/completion_toast.rs:100-143 | once every numbered show has stored, the order is right exactly when no store overtook a waiting show |
| `ToastState.CompletionToastState.Take` | apps/desktop/src/completion_toast.rs:51-57 | the payload is given out only for its own generation, once; otherwise it stays |
| `ToastState.CompletionToastState.NextGeneration` | apps/desktop/src/completion_toast.rs:42-44 | the counter advances and wraps at 64 bits |
| `UrlCodec.PercentDecodeLoop` | apps/desktop/src/ota_mirrors.rs:273-290 | the index loop computes the decoding |
| `UrlCodec.DecodeUndoesQuote` | apps/desktop/src/ota_mirrors.rs:273-290 | the client's decoder undoes percent-encoding for every byte string (section 2.1 of RFC 3986) |
| `UrlCodec.DecodeRecoversExactlyAscii` | apps/desktop/src/ota_mirrors.rs:273-290 | a Unicode text comes back exactly when it is ASCII |
| `UrlCodec.QuoteIsIdentityExactly` | scripts/upload-modelscope-release.py:118-124 | quoting changes nothing exactly when every character is safe |
| `UrlCodec.UnquoteUndoesQuote` | scripts/upload-modelscope-release.py:152-159 | the uploader's decoder undoes quoting |
| `UrlCodec.PlainExactly` | scripts/upload-modelscope-release.py:152-159 | a second unquoting leaves a name alone exactly when no index holds a percent sign and two hexadecimal digits |
| `ReleaseUrls.FilePathOfFileUrl` | scripts/upload-modelscope-release.py:118-159 | the path in a published URL is read back from its query |
| `ReleaseUrls.BasenameOfFileUrlExactly` | scripts/upload-modelscope-release.py:152-159 | the name in a published URL is read back exactly when it is plain: when it has no percent sign before two hexadecimal digits, by `UrlCodec.PlainExactly` |
| `Mirrors.UploadedNameIsRecovered` | apps/desktop/src/ota_mirrors.rs:179-194 | the client recovers every non-empty slash-free name from the uploader's URL, as text exactly when it is ASCII, for every host and repository that does not itself contain the parameter's key |
| `Mirrors.TagsAgreeExactly` | apps/desktop/src/ota_mirrors.rs:155-158 | client and uploader tags agree exactly when the version does not start with two v's |
| `Mirrors.CandidateName` | apps/desktop/src/ota_mirrors.rs:223-238 | the name is read back from the URL of every mirror |
| `Mirrors.CandidatesAreStable` | apps/desktop/src/ota_mirrors.rs:240-253 | re-reading the name from any candidate regenerates the same candidates, for unreserved names and versions (section 2.3 of RFC 3986) |
| `Mirrors.GithubIsLast` | apps/desktop/src/ota_mirrors.rs:150-153 | the two mirrors come first and the release on GitHub last |
| `Mirrors.ClientAsksForThePublishedUrlExactly` | apps/desktop/src/ota_mirrors.rs:223-238 | on each ModelScope mirror the client asks for the URL under which the uploader publishes to that host and repository exactly when the path needs no quoting and the tags agree |
| `ReleaseManifest.FilterManifestToChannel` | scripts/upload-modelscope-release.py:229-242 | keeps the entries of the channel and names the keys of the others, both in order |
| `ReleaseManifest.FilterManifestToLocalPlatforms` | scripts/upload-modelscope-release.py:213-226 | keeps exactly the entries built here and names the keys of the others, both in order |
| `ReleaseManifest.MergeRemoteSameChannel` | scripts/upload-modelscope-release.py:245-259 | a remote manifest of another version changes nothing; one of the same version adds its entries of the channel behind the local ones |
| `ReleaseManifest.MergeKeepsKeysDistinct` | scripts/upload-modelscope-release.py:245-259 | merging loses and doubles no platform |
| `ReleaseManifest.MergeBringsRemote` | scripts/upload-modelscope-release.py:245-259 | every remote entry of the channel with URL and signature has its platform in the merged manifest, and is there itself unless that platform was built here |
| `ReleaseManifest.MergeAddsOnlyRemote` | scripts/upload-modelscope-release.py:245-259 | what is added comes from the remote manifest, for platforms not built here |
| `ReleaseManifest.FolderByUrlInChannel` | scripts/upload-modelscope-release.py:196-210 | an artifact named by an entry goes to the channel's folder |
| `ReleaseManifest.UpdaterArtifactsAlwaysMap` | scripts/upload-modelscope-release.py:183-210 | every updater package has a folder and its signature the same one, by its suffix if no entry names it |
| `ReleaseManifest.UpdaterNameHasFolder` | scripts/upload-modelscope-release.py:183-193 | an updater package that no entry names goes to the folder of its suffix |
| `ReleasePublish.CollectArtifacts` | scripts/upload-modelscope-release.py:315-329 | the loop collects packages with their signatures or fails |
| `ReleasePublish.CollectedExactly` | scripts/upload-modelscope-release.py:315-329 | it succeeds exactly when no package lacks its signature, and then holds every package and signature and nothing else |
| `ReleasePublish.BackoffIsExponential` | scripts/upload-modelscope-release.py:414-433 | the wait after the k-th failed attempt is the base delay times two to the k |
| `ReleaseRegistry.CollectionExactly` | scripts/upload-modelscope-release.py:585-590 | a run has something to upload exactly when there is a package and none lacks its signature |
| `ReleaseRegistry.LocalBuildsExactly` | scripts/upload-modelscope-release.py:577-596 | the local builds are the manifest's entries of the channel whose package is in the build directory |
| `ReleaseRegistry.MergeCarriesOver` | scripts/upload-modelscope-release.py:600-608 | merging carries every usable published entry over, unchanged unless its platform was built here, and adds nothing else |
| `ReleaseRegistry.RewritingCarriesOver` | scripts/upload-modelscope-release.py:623-625 | rewriting the URLs keeps that |
| `ReleaseRegistry.Registry.MergeFetched` | scripts/upload-modelscope-release.py:600-621 | the local builds together with the published entries they are to be merged with, if these can be read |
| `ReleasePublish.RewritingPoints` | scripts/upload-modelscope-release.py:127-149 | a rewritten entry points at the path of its package in this release |
| `ReleasePublish.ArtifactGoesWhereItsUrlPoints` | scripts/upload-modelscope-release.py:196-210 | the upload path of a package is the one its rewritten entry points at |
| `ReleasePublish.InvMeansNothingDangles` | scripts/upload-modelscope-release.py:577-738 | when every manifest is held, every published URL names a path that holds an artifact |
| `ReleaseRegistry.EverythingHeld` | scripts/upload-modelscope-release.py:577-738 | once the artifacts are up, every entry of the new manifest is held, built here or merged |
| `ReleaseRegistry.Registry.UploadFileWithRetry` | scripts/upload-modelscope-release.py:396-435 | at most the given attempts, all but the last failed, with exponential delays; a skip changes nothing and needs a file of the same size |
| `ReleaseRegistry.Registry.UploadArtifacts` | scripts/upload-modelscope-release.py:691-714 | a failure is reported exactly when some file's attempts all failed in a row; without one every artifact is where it goes, and no published document changes |
| `ReleaseRegistry.Registry.PublishPointers` | scripts/upload-modelscope-release.py:716-738 | each pointer has its own attempts whatever became of the others, those that were stored are there, and the count is of those that were not |
| `ReleaseRegistry.Registry.SelectEntries` | scripts/upload-modelscope-release.py:577-621 | the local builds first, then exactly the usable published entries of the same release for platforms not built here, all of them held; refused exactly when a needed remote manifest cannot be read or nothing remains |
| `ReleaseRegistry.Registry.Prepare` | scripts/upload-modelscope-release.py:560-640 | refused exactly when the version is empty, there is no package or one without signature, or nothing is selected; otherwise it plans to publish its own builds first and only held entries besides |
| `ReleaseRegistry.Registry.Publish` | scripts/upload-modelscope-release.py:560-743 | everything is published exactly when the run is not refused and no file runs out of attempts; then latest, its snapshot and every package are in place, and a merging run's latest has every platform that was published for this version; a failed artifact leaves every document as it was, a failed pointer leaves the others |
| `ReleaseRegistry.CountsNext` | scripts/upload-modelscope-release.py:396-435 | one more file: somebody has run out of attempts exactly if somebody had before, or this file does |
| `ReleaseRegistry.Registry.RollBack` | scripts/rollback-modelscope-release.py:127-190 | it succeeds exactly when the snapshot is read, is of the requested version, and both uploads are stored; then exactly the two pointers change; otherwise a refused one changes nothing |
| `ReleaseRegistry.RollbackReachesExactly` | scripts/rollback-modelscope-release.py:127-151 | a published release can be rolled back to exactly when its version does not start with a v |
| `ReleaseRegistry.Registry.RunAll` | scripts/upload-modelscope-release.py:560-743 | over any sequence of uploads and rollbacks, with any attempts failing, every run does what `Publish` and `RollBack` promise, after each no published URL dangles, and no artifact disappears |
| `HistoryPaging.SortIsStable` | web/scripts/mock-server.ts:486-488 | sorting keeps the messages, orders them by time and keeps the arrival order within an instant |
| `HistoryPaging.PagingReturnsEverything` | web/scripts/mock-server.ts:482-514 | paging back returns every message once, in order, in the least number of requests, with `has_more` false at the end, whatever newer messages arrive |
| `HistoryPaging.PagesIsLeast` | web/scripts/mock-server.ts:482-514 | the number of requests is max(1, ceil(n / page size)) |
| `HistoryPaging.PageDefaults` | web/scripts/mock-server.ts:482-514 | a missing or non-positive page size stands for sixty, and a malformed cursor is answered with an empty last page |
| `HistoryPaging.DefaultPagingReturnsEverything` | web/scripts/mock-server.ts:482-514 | paging back without a page size returns everything, by sixty |
| `HistoryPaging.PagingIsCompleteExactly` | web/scripts/mock-server.ts:482-514 | paging is complete with every page size exactly when the sorted history is strictly increasing in (time, id) |
| `HistoryPaging.HasMoreIsTrueExactly` | web/scripts/mock-server.ts:489-512 | `has_more` tells whether messages were left out exactly when the page size does not cut one in two |
| `Conversations.StoreKeeps` | web/scripts/mock-server.ts:727-730 | storing a message with its receipt keeps events numbered, deliveries in order and receipts one-to-one with user messages |
| `Conversations.EmitKeeps` | web/scripts/mock-server.ts:451-464 | numbering and sending an event keeps the same |
| `ConversationRuns.ApplyKeeps` | web/scripts/mock-server.ts:607-745 | every request and timer keeps the invariant |
| `ConversationRuns.ReceiptIsForever` | web/scripts/mock-server.ts:723-730 | a key keeps its receipt through any run |
| `ConversationRuns.OneKeyOneReceipt` | web/scripts/mock-server.ts:691-734 | all sends with one key that are not refused get one receipt, and only the first makes a message, an event or a turn |
| `ConversationRuns.OneKeyOneMessage` | web/scripts/mock-server.ts:727-730 | in every run each key made exactly one user message, in the conversation on its receipt and in no other |
| `ConversationRuns.EveryMessageHasItsKey` | web/scripts/mock-server.ts:727-730 | every user message was made by exactly one key |
| `ConversationRuns.OnlyOneKeylessSend` | web/scripts/mock-server.ts:723-725 | after one send without a key every other one, in any conversation, is answered with its receipt and dropped |
| `ConversationEvents.EventsAreNumbered` | web/scripts/mock-server.ts:451-457 | the events of a conversation are numbered 1, 2, ... up to its counter |
| `ConversationEvents.SubscriberHearsEverything` | web/scripts/mock-server.ts:451-464 | a continuously subscribed socket receives exactly the events added meanwhile, in order |
| `ConversationEvents.DeletedIsSilent` | web/scripts/mock-server.ts:627-636 | a deleted conversation is never heard of again although its timers go on |
| `ConversationEvents.SocketsAgree` | web/scripts/mock-server.ts:451-464 | two sockets that received the same number received the same event |
| `ConversationTurns.TurnsAccountForEverything` | web/scripts/mock-server.ts:516-588 | every event and every message of a conversation is accounted for by its turns and how many of their timers fired |
| `ConversationTurns.ProcessingMeansTurn` | web/scripts/mock-server.ts:516-518 | both flags agree and are set only while a turn is unfinished |
| `ConversationTurns.ConflictMeansTurn` | web/scripts/mock-server.ts:706-722 | a model switch is refused as busy only while a turn is unfinished |
| `ConversationTurns.CancelledTurnGoesOn` | web/scripts/mock-server.ts:735 | a cancelled turn still sends events while the model may be switched |
| `ConversationBusy.OverlappingTurnsPart` | web/scripts/mock-server.ts:516-518 | of two overlapping turns the first to end clears the flag while the other goes on |
| `ConversationBusy.ProcessingExactly` | web/scripts/mock-server.ts:691-735 | after a step a conversation is processing exactly when the step is an accepted send on it, or it was and the step is neither its cancellation nor the last timer of a turn of it |
| `ConversationBusy.ProcessingIsLastSwitch` | web/scripts/mock-server.ts:691-735 | over every run it is processing exactly when the last of those events was an accepted send |
| `ConversationBusy.PartedExactlyByAbandoning` | web/scripts/mock-server.ts:516-588 | a step parts the flag from the turns exactly when it cancels during a turn or ends one while another goes on |
| `ConversationBusy.AlwaysInStepExactly` | web/scripts/mock-server.ts:516-588 | a conversation is busy exactly while a turn of it is unfinished, at every moment of a run, if and only if the run takes no such step |
| `ConversationBusy.ConflictExactlyInStep` | web/scripts/mock-server.ts:706-722 | then a model switch is refused as busy exactly while a turn is unfinished |
| `ConversationRequests.DeletionRemoves` | web/scripts/mock-server.ts:627-636 | a deletion is answered Done exactly for a registered conversation, which then is unregistered and followed by nobody; everything else is as before |
| `ConversationRequests.DeletionIsForEver` | web/scripts/mock-server.ts:627-636 | from a deletion that is answered Done on, over every later run, no socket receives anything more about the conversation and every send, cancel, subscribe or delete that names it is answered NotFound and changes nothing |
| `ConversationRequests.CreationStartsEmpty` | web/scripts/mock-server.ts:607-626 | a new conversation is registered, empty, idle and followed by nobody |
| `ConversationRequests.SubscriptionFollows` | web/scripts/mock-server.ts:736-745 | a subscription makes this socket follow this conversation, an unsubscription ends that, and nothing else changes |
| `ConversationRequests.SocketStartsAfresh` | web/scripts/mock-server.ts:1078-1088 | opening or closing a socket ends what it followed and touches no other |
| `ConversationRequests.CancellationSettles` | web/scripts/mock-server.ts:735 | a cancellation clears the flags of a registered conversation and nothing else |
| `ConversationRequests.SendAnswers` | web/scripts/mock-server.ts:691-734 | which answer a send gets, and that a refused one changes nothing |
| `ConversationRequests.ModelIsLastAsked` | web/scripts/mock-server.ts:706-722 | over every run the model of a conversation is the one the newest send that was not refused asked for |
| `ConversationRequests.EventsInOrder` | web/scripts/mock-server.ts:516-588 | over every run the events of a conversation are, in this order, those of its accepted sends and due timers, a turn ending with its answer, the context usage and its completion side by side |
| `ConversationRequests.MessagesInOrder` | web/scripts/mock-server.ts:516-588 | over every run its messages only grow at the end, by the user's, the activity and the answer of its turns |
| `ConversationServer.Server.Broadcast` | web/scripts/mock-server.ts:459-463 | the loop sends the event to exactly the followers |
| `ConversationServer.Server.SendConversationEvent` | web/scripts/mock-server.ts:451-464 | the counter, the log and every follower's deliveries move together by this one event; no one else's do |
| `ConversationServer.Server.SendMessage` | web/scripts/mock-server.ts:691-734 | refusals in the source's order change nothing; a seen key changes at most the model; a new key makes exactly the message, the receipt, two events and one scheduled turn that `OneKeyOneReceipt` speaks of |
| `ConversationServer.Server.FireTimer` | web/scripts/mock-server.ts:521-587 | a due timer makes exactly the events and messages that `TurnsAccountForEverything` accounts for; others do nothing |
| `ConversationServer.Server.DeleteConversation` | web/scripts/mock-server.ts:627-636 | an unknown conversation is refused; a known one is unregistered and taken from every socket, whose other subscriptions stay, while its record stays for its timers |
| `ConversationServer.Server.Handle` | web/scripts/mock-server.ts:590-745 | every handler refines the step the run theorems are about, and keeps their invariant |
| `Runs.OneKeyOneRun` | web/scripts/mock-server.ts:797-816 | a key starts one run for ever; a later start gets the first receipt and changes nothing |
| `Runs.NoKeyNewRun` | web/scripts/mock-server.ts:797-816 | without a key every start makes a run of its own |
| `Runs.CancelledIsForever` | web/scripts/mock-server.ts:370-394 | a cancelled run stays cancelled and its history is frozen |
| `Runs.CancelNeedsCurrentVersion` | web/scripts/mock-server.ts:857-868 | a cancellation is accepted exactly with the current version and otherwise changes nothing |
| `Runs.OneCancelPerVersion` | web/scripts/mock-server.ts:857-868 | of all cancellations that name one version at most one is accepted |
| `Runs.ReachableRuns` | web/scripts/mock-server.ts:370-423 | received numbers and histories increase strictly, a history is an initial piece of the stages, and status, version and timers agree |
| `Runs.CompletedCanBeCancelled` | web/scripts/mock-server.ts:857-868 | completion is not final: version two cancels it for ever |
| `Runs.CompletedStaysExactly` | web/scripts/mock-server.ts:857-868 | over any run a completed run stays completed exactly while nobody cancels it at version two |
| `Runs.AnnounceReaches` | web/scripts/mock-server.ts:406-421 | a change of status reaches every follower once, the n-th under the n-th next number |
| `Runs.AnnouncedNumbersDiffer` | web/scripts/mock-server.ts:406-421 | no two followers see it under one number |
| `Runs.StartMakes` | web/scripts/mock-server.ts:782-816 | an invalid start and a seen key change nothing; any other start makes one planned run without history, told to nobody |
| `Runs.StepTells` | web/scripts/mock-server.ts:370-423 | a step tells a socket about a run exactly its next stage, its completion or its cancellation if the socket follows the run, and nothing otherwise |
| `Runs.FollowerHearsEverything` | web/scripts/mock-server.ts:370-423 | a socket that follows a run throughout receives every one of its changes, once and in order |
| `Runs.UncancelledRunsFollowScript` | web/scripts/mock-server.ts:370-423 | a run that nobody names in a cancellation announces an initial piece of the same six changes, and all of them once its timers are through |
| `Runs.ChangesShow` | web/scripts/mock-server.ts:370-423 | every announced change has its effect on the run itself, and only progress is recorded in its history |
| `Runs.SubscriptionsFollow` | web/scripts/mock-server.ts:889-906 | a subscription makes the socket follow the run, an unsubscription ends that, and nothing else changes |
| `Runs.PageJoinsExactly` | web/scripts/mock-server.ts:840-855 | the answer to a history request joins what the client has exactly when nothing is missing, or the limit is zero, or positive and not below what is missing |
| `Runs.DefaultLimitIsEnough` | web/scripts/mock-server.ts:840-855 | with the default limit a history is always read whole |
| `RunServer.Server.AgentRun` | web/scripts/mock-server.ts:782-816 | an invalid start changes nothing; a seen key changes nothing and gets its first receipt; anything else makes one new run |
| `RunServer.Server.Broadcast` | web/scripts/mock-server.ts:379-383 | the loop sends one event to exactly the followers |
| `RunServer.Server.BroadcastStatus` | web/scripts/mock-server.ts:406-421 | the loop gives each follower, in the order of opening, its own next number and leaves the counter after the last |
| `RunServer.Server.RunCancel` | web/scripts/mock-server.ts:857-887 | an unknown run or a stale version changes nothing; otherwise status, version and announcement change together |
| `RunServer.Server.FireTimer` | web/scripts/mock-server.ts:370-423 | on a cancelled run only the timer is used up; otherwise the run's next stage is recorded and sent, or its completion announced but not recorded |
| `RunServer.Server.Handle` | web/scripts/mock-server.ts:746-906 | every handler refines the step the run theorems are about, and keeps their invariant |
| `Workspaces.Registry.EnsureWorkspace` | web/scripts/mock-server.ts:78-95 | the loop re-activates the first workspace with the path, keeping its identity, or adds one at the end |
| `Workspaces.Registry.CreateWorkspace` | web/scripts/mock-server.ts:643-655 | empty and relative paths are refused |
| `Workspaces.Registry.RevokeWorkspace` | web/scripts/mock-server.ts:656-669 | an unknown workspace is reported as not revoked; a known one is marked and stays registered, and the others stay as they are |
| `Workspaces.PathKeepsWorkspace` | web/scripts/mock-server.ts:78-95 | a created path keeps its identifier and its creation time through anything, and creating it again re-activates it |
| `Workspaces.RevokedStays` | web/scripts/mock-server.ts:656-669 | a step re-activates a revoked workspace exactly when it creates, with an absolute path, the path of which this workspace is the first |
| `Workspaces.RevokedIsRefused` | web/scripts/mock-server.ts:611-620 | until then every conversation that names it is refused |
| `Workspaces.CreateKeepsPathsDistinct` | web/scripts/mock-server.ts:78-95 | creating a path never doubles it |
| `Workspaces.BindsExactly` | web/scripts/mock-server.ts:611-620 | a conversation is bound exactly to a known workspace that is not revoked, which changes nothing |
| `Workspaces.ActiveStays` | web/scripts/mock-server.ts:656-669 | an active workspace is revoked by its own revocation and by nothing else |
| `Workspaces.CreatedBinds` | web/scripts/mock-server.ts:78-95 | a path that was created, or created again, gives a workspace that conversations bind to, over every run until it is revoked |
| `Workspaces.TrimDropsOnlyBlanks` | web/scripts/mock-server.ts:643-655 | trimming takes blanks from both ends of a path and nothing else |
| `ResumableDownload.Installer.WriteBody` | scripts/prepare-voice-models.py:293-305 | what arrives is on disk chunk by chunk: after a 206 behind what was there, otherwise in its place |
| `ResumableDownload.Installer.DownloadFileWithResume` | scripts/prepare-voice-models.py:262-371 | part file, target and result after 200, 206, 416 and failures, with an exception after any chunk, are those of the function the run theorems are about |
| `ResumableDownload.PartIsAlwaysPrefix` | scripts/prepare-voice-models.py:262-371 | against a server with fixed content, the part file is a prefix of the content after any sequence of downloads broken off anywhere |
| `ResumableDownload.TargetIsOnlyContent` | scripts/prepare-voice-models.py:262-371 | and if no body ends early, the target is only ever replaced by the content |
| `ResumableDownload.DownloadKeeps` | scripts/prepare-voice-models.py:262-371 | one download: success means the target is the content, also after a 416 (section 15.5.17 of RFC 9110) |
| `ResumableDownload.FailureKeepsProgress` | scripts/prepare-voice-models.py:262-371 | a failed download never changes the target; without an answer it changes nothing, and a broken body is appended after a 206 and replaces the part file otherwise |
| `ResumableDownload.WrongPartIsDiscarded` | scripts/prepare-voice-models.py:336-371 | a part file that a 416 shows to be of no use is discarded, and everything is asked for again |
| `ResumableDownload.NothingArrivedIsLost` | scripts/prepare-voice-models.py:262-371 | however often resumed downloads break off, everything that arrived is on disk in order |
| `ResumableDownload.BodyGivesContentExactly` | scripts/prepare-voice-models.py:293-333 | a finished body gives the content exactly when it was whole |
| `ResumableDownload.EarlyEndReplacesFile` | scripts/prepare-voice-models.py:300-333 | an early end of file is reported as success and replaces the target |
| `ResumableDownload.AlternateAcceptedForAnyFile` | scripts/prepare-voice-models.py:336-347 | after a 416 any pinned file accepts the alternate hash without asking again |
| `VoiceModels.ResumeDisagreesExactly` | scripts/prepare-voice-models.py:336-347 | what is accepted after a 416 and what the installer accepts differ exactly for unpinned items and for the alternate hash in the part file of an item that is not the voice detector and is not pinned to it |
| `VoiceModels.AlternateElsewhereExits` | scripts/prepare-voice-models.py:460-498 | in that last case the script exits with both files gone, instead of downloading again |
| `VoiceModels.EntryIsAcceptable` | scripts/prepare-voice-models.py:437-498 | whatever the network does, an item is recorded only with its pinned hash or, for the voice detector alone, the alternate; a mismatch removes the file |
| `VoiceModels.EntryIsContent` | scripts/prepare-voice-models.py:437-498 | with injective hashes a recorded item is on disk byte for byte |
| `VoiceModels.GoodMirrorSucceeds` | scripts/prepare-voice-models.py:460-498 | a mirror that serves the rest of a prefix, or everything, or a 416, completes the item |
| `VoiceModels.OfficialHostRescues` | scripts/prepare-voice-models.py:460-468 | when the mirror is down and the official host serves the content, the item is completed |
| `VoiceModels.ValidFileSurvives` | scripts/prepare-voice-models.py:437-458 | a file that is there with an acceptable hash, or needing none, is recorded as it is whatever the network does |
| `VoiceModels.DeadNetworkExactly` | scripts/prepare-voice-models.py:437-481 | without a network the script goes on past an item exactly if its file is valid or it is the keyword list, which is then generated; nothing else changes |
| `VoiceModels.KeywordsNeverExit` | scripts/prepare-voice-models.py:469-481 | the keyword list never ends the script |
| `VoiceModels.AddressesTried` | scripts/prepare-voice-models.py:245-252 | the ModelScope address if wanted and there is one, else the mirror and behind it the official host |
| `VoiceModels.Setup.Fetch` | scripts/prepare-voice-models.py:460-468 | the loop tries the mirror and then the official host and stops at the first success; no other file changes |
| `VoiceModels.Setup.Process` | scripts/prepare-voice-models.py:437-498 | the item ends as `EntryIsAcceptable` and `GoodMirrorSucceeds` say; no other file or entry changes, and an exit records nothing |
| `VoiceModels.Setup.Install` | scripts/prepare-voice-models.py:417-498 | on success everything is recorded, acceptable and on disk; on exit everything before the failed item is and later files are untouched |

## Left out

- Weak memory: `AtomicExit` and `RuntimeRetention` interleave atomic operations sequentially consistently; Acquire and Release are not modelled.
- Lock poisoning, process crashes, panics other than those the backend thread catches, and futures dropped half way.
- Tauri, webview, tray, menu, notification and native window calls: only their success or failure and whether a window is visible remain.
- The unbounded retry loops of the fatal path (apps/desktop/src/main.rs:2387-2412, 2486-2512), the fatal dialog, the final-exit watchdog and `updater_before_exit_until_verified`.
- ExitCoordination.ExitCoordinator.RequestNormalExit: one step per method leaves the compare-exchange no competitor, so its retry loop is a single pass here; `AtomicExit` has the loop.
- RestartHandoff.Shell.Interfere: `left` records what a handler leaves behind when it sleeps or waits; what other threads then do leaves any state at all, which allows more than the other threads can do; between two of these points the handler runs alone.
- `mark_no_cleanup_needed`, `mark_backend_not_started`, `has_pending_shutdown` and the startup marks before the backend thread ends: one assignment or one comparison each.
- The update plugin, signature checks, endpoint order, mirror probing, rollout percentage and the cached package's bytes; the update tasks run to completion.
- Window geometry, toast placement and the toast's 64-bit counter after it wraps: `Toast.ObtainedAtMostOnce` speaks of fewer than 2^64 shows.
- Blank request identifiers are those of space, tab, line feed and carriage return; Unicode white space, lower case and UTF-8 error replacement are not modelled. The client's decoder is modelled on code units.
- JSON, HTTP and the ModelScope API; the notes and dates of a manifest; `release-metadata.json`; the artifacts-only, manifest-only and dry-run phases; path separators other than the slash.
- ReleaseRegistry.Registry.Publish: with `skip-existing`, the default, an artifact counts as there when a file of its size is, so only the size is stated for it; without it the very content is.
- ReleaseRegistry.Registry.RunAll: speaks of runs that are given updater packages with names free of percent escapes and versions without percent signs (`ReleasePublish.Sound`), and of one place for all runs.
- The textual form of a history cursor, message contents, workspace views and list notifications of the mock server; catalog, connector and authentication methods.
- In `Conversations` identifiers come from a counter instead of random UUIDs; the reasoning effort is treated as part of the model a send may switch; `conversation/update` is left out.
- In `Runs` the sequence numbers of concurrent deliveries follow the order in which sockets were opened, as the server's map does; sockets are never re-used.
- Workspaces.Registry.CreateWorkspace: trims space, tab, carriage return and line feed only.
- The order of lines in `checksums.sha256`, progress printing and the choice of the models directory.
- VoiceModels.Setup.Install: a keyword list that cannot be downloaded is generated and recorded without a check, as in the script; the claim about pinned hashes is for the other items.
