# A verified model of docpreview

docpreview is a daemon that builds a documentation preview for every pull request, publishes it
at a URL, and takes it down again. This project models the parts of it that are hard to get right
and proves what they keep, in Dafny 4.11. `dafny verify dfyconfig.toml` checks all of it.

What it covers, hardest first:

- **The build, commit and teardown protocol** (`Protocol`, `PublishOrder`, `RecordOrder`,
  `Changes`, `Sections`, `Agreement`, `Failures`, `NoLostPush`, `LostPushes`, `NewestIsServed`,
  `Withdrawals`, `Locks`, `CounterTraces`, `RecordTraces`, `Startup`, `Daemon`). Webhook deliveries, workers,
  cancellations, teardowns and the per-preview commit mutexes are a transition system in which every critical
  section of the daemon's mutex, and every call that leaves the process, is one step. A mutex is
  an identity in a map; a teardown deletes the entry of the mutex it holds. Results are about
  every run of any length over any number of builds, teardowns and previews. Class `Daemon.Maps`
  performs the critical sections in place and is proved to do what the steps say.
- **The sweep** (`Sweep`, `LocalSweep`): what the exposers' reaps delete while previews are being
  published, served and withdrawn.
- **The report coalescer and the report guard** (`Publisher`, `Reports`): a debounced
  last-write-wins queue with timers, late senders and concurrent `Close`, behind a guard that
  drops what a commit has moved past.
- **The build log** (`LineCutter`, `LineReader`, `BuildLog`, `LogHistory`, `LogTail`, `LogStore`):
  cutting bytes into lines, storing and replaying them, fanning them out to subscribers, and the
  hand-over of a preview's log from one build to the next.
- **Printers and their parsers** (`EventStream`, `Tokens`, `Base64`, `Decimal`): the event stream
  against the interpreter of sections 9.2.5 and 9.2.6 of the WHATWG HTML standard; the signed
  state and session tokens, with section 5 of RFC 4648.
- **Refinements** (`Recovery`, `Retention`, `Keys`, `ShareAudit`, `BaseUrl`, `EventRing`).

## What the code relies on

Several promises hold only under a hypothesis about the interleaving which nothing in the code
enforces. `Protocol.Discipline` names the hypotheses, each theorem says which it uses, and there is,
for each, a run that breaks the promise and keeps all the others (in `CounterTraces` unless named):

| hypothesis | without it |
|---|---|
| `ownSection`: the section of a teardown deletes the mutex the teardown holds, or none; it always does while teardowns of one preview do not overlap before their sections (`Sections.WithoutOverlapSectionsOwn`) | an older build replaces a newer one (`OlderReplacesNewer`); from any state in which a build relies on the mutex deleted, two builds can be past their checks (`Sections.DeletedMutexLetsTwoIn`) |
| `quietTail`: no build registers while a teardown of its preview cleans up | a published preview loses its row and files to the teardown, contrary to the comment at `internal/daemon/daemon.go:2236-2240` (`TeardownTakesARecordedPreview`) |
| `atomicRecord`: the rows a failed or skipped build listed are those it writes over | the row of a live preview is overwritten as failed (`FailureOverwritesReady`) |
| `atomicEnqueue`: nothing is claimed between a delivery's enqueue and its clear | the replacement itself is cleared (`ReplacementIsCleared`) |
| `atomicClaim`: nothing is claimed between a claim and its registration | the older of two pushes wins (`OlderClaimWins`) |
| `noShutdown` | a build stopped at its check loses its push (`ShutdownLosesThePush`) |
| recovery recorded what it published (`Astray` is empty); without it the exception is until the next publication | a publication whose URL moved and could not be saved is live and recorded as failed (`Startup.RecoveryStartsARun`) |
| `guardedRecord`: outcomes are recorded by the registered build, while nobody is in the commit phase; not part of the full discipline, since the code records outside every lock | the row of a build that is cleared, or torn down, or behind, replaces another (`RecordTraces`); only what commit phases put in place is ordered |

Where code and documentation differ the model follows the code:

- The line-length cap of `internal/buildlog/buildlog.go:29-40` does not bound a terminated line,
  which is emitted whole (`LineCutter.BoundIsTight`); writes of up to 4097 bytes keep every line
  readable, one of 4098 need not (`LogHistory.SafeWritesReadBack`,
  `LogHistory.LongerWritesMayNotReadBack`).
- `Subscribe` says it drops the oldest lines of a replay that does not fit; it drops the newest
  (`LogTail.ShortBufferLosesTheNewestReplay`).
- A second, concurrent `Close` of the coalescer can return before the first has handed over its
  own entries (`Publisher.SecondCloseMayReturnEarly`).
- A report accepted first can be sent last (`Reports.ReadyIsOvertakenByBuilding`), and two reports
  of one preview in flight can land in either order (`Publisher.CallsMayLandOutOfOrder`).
- `build` says that everything with a lasting effect is guarded in the commit phase; the rows of
  failed and skipped builds are not (`internal/daemon/daemon.go:249-329`), so a cleared build can
  still write one (`RecordTraces.StaleBuildReplacesNewerRow`).
- A restored preview whose URL moved and could not be saved is served and recorded as failed
  (`Startup.RecoveryStartsARun`); the progress bar can end short of its total with
  every round trip done (`Recovery.BarMayEndShort`), and can pass it when a read that failed
  succeeds later (`Recovery.ReadsMustAgree`).

## Model

| member | source | states |
|---|---|---|
| PublishOrder.CommitPhasesAreDisjoint | internal/daemon/daemon.go:2803-2912 | In every run whose teardown sections delete only the mutex they hold: two builds of one preview are never both past the check of the commit phase; the one that is holds exactly the mutex in the map, and was registered after every other build that ever passed it. |
| PublishOrder.CommitsFollowRegistration | internal/daemon/daemon.go:2820-2876 | What commit phases put in place for a preview (artifact directories, shares, live publications, ready rows) comes in strictly increasing registration order over a whole run, and in the commit phase's order within one build. |
| PublishOrder.StaleBuildsCommitNothing | internal/daemon/daemon.go:2807-2809 | A build cleared from `running` before its check puts nothing in place in any commit phase, however the run goes on; at most its failure or skip is recorded. |
| PublishOrder.StaleBuildsChangeNoPublication | internal/daemon/daemon.go:2807-2809 | Whatever such a build does next leaves publications and artifact directories as they are, and the rows too unless it records its outcome. |
| RecordOrder.RecordOverwritesExactly | internal/daemon/daemon.go:249-329 | A row is overwritten by a failure or a skip if and only if that outcome is saved, was not blocked when the rows were listed, and is not what the row says already; if the listing still held, it was a skip and the row was neither ready nor had a URL. |
| Changes.RowsChangeExactly | internal/daemon/daemon.go:2866-2889 | For every step of the protocol: a preview has a row after it if and only if the step saved one, or there was one and the step did not delete it; and the row is the one saved, or the one that was there. |
| Changes.DirectoriesChangeExactly | internal/daemon/daemon.go:2811-2850 | An artifact directory is on disk after a step if and only if the step installed it, or it was there and the step did not prune, give up or tear it down. |
| Changes.PublicationsChangeExactly | internal/daemon/daemon.go:2853-2858 | A preview is live after a step if and only if the step published it, or it was and the step did not withdraw it or tear it down; and at the URL of the build that published it. |
| RecordOrder.RecordedAtOnceReplacesExactly | internal/daemon/daemon.go:249-329 | With listing and saving in one step, a row of another build is replaced if and only if the build was skipped and the row is neither ready nor has a URL. |
| RecordOrder.ReadyRowsStayReady | internal/daemon/daemon.go:256-266 | Over any stretch of a run in which listings hold, a ready row is followed by ready rows only, for as long as there is a row. |
| RecordOrder.GuardedRowsFollowRegistration | internal/daemon/daemon.go:249-329 | If outcomes were recorded by the registered build, while nobody is in the commit phase, everything builds put in place, all rows included, would come in registration order. |
| RecordTraces.StaleBuildReplacesNewerRow | internal/daemon/daemon.go:302-329 | A run of the full discipline in which a cleared build replaces the row of a newer one that is done. |
| RecordTraces.OlderCommitReplacesNewerRecord | internal/daemon/daemon.go:2866-2876 | Being registered is not enough: a run in which the row of a build in its commit phase replaces what the newer, registered build recorded. |
| RecordTraces.TornDownPreviewIsRecorded | internal/daemon/daemon.go:249-280 | A run in which a preview has a row again after its teardown has returned. |
| PublishOrder.RunKeeps | internal/daemon/daemon.go:457-473 | The invariant behind these results holds in every state of every run whose sections own what they delete: among others, a build past the check holds the mutex the map names. |
| Sections.WithoutOverlapSectionsOwn | internal/daemon/daemon.go:2192-2221 | In any run in which teardowns of one preview never overlap before their sections, every section deletes the mutex its teardown holds, or none. |
| Sections.DeletedMutexLetsTwoIn | internal/daemon/daemon.go:2192-2221 | From any reachable state in which a section is about to delete a mutex its teardown does not hold, while a build past its check relies on that one, there is a continuation with two builds of the preview past their checks. |
| Agreement.LiveIsRecorded | internal/daemon/daemon.go:2853-2912 | Whenever no commit phase of a preview is in progress, what is live for it has a ready row with its URL and an artifact directory that exists; the one exception is what recovery itself published and left unrecorded, until the preview is published again. |
| Agreement.FailedSaveLeavesNothing | internal/daemon/daemon.go:2876-2889 | Right after the withdrawal that follows a failed save there is neither a publication nor a row of the preview, when the row could be deleted. |
| Failures.WhoGaveUpLeavesItsRowAtMost | internal/daemon/daemon.go:2467-2469 | In any run, from the moment a build has given up, a failed save included, until and after it is done: nothing live is its doing, and a row that names it says failed or skipped as it ended and has no URL. |
| Agreement.TeardownLeavesNothingLive | internal/daemon/daemon.go:2192-2221 | From a teardown's section until it returns nothing of its preview is live, registered or inside a commit phase. |
| Withdrawals.DequeuedIsNotClaimed | internal/daemon/daemon.go:2223-2243 | Right after a teardown's dequeue, or the cancel button's, no worker can claim a job of that preview, and of every other preview exactly what could be claimed before. |
| Withdrawals.OnlyLaterPushesAreBuilt | internal/daemon/daemon.go:2223-2243 | Over every run: whatever is built of a preview from a claim after such a dequeue comes from a push delivered after it. |
| Withdrawals.WorkIsDelivered | internal/daemon/daemon.go:2157-2182 | In every run each job that appears, and each new build, stems from a delivery of its own push. |
| Withdrawals.TakenAwayCommitsNothing | internal/daemon/daemon.go:2161-2178 | A build that was registered, and not past its check, when a newer delivery, the cancel button or a teardown's section cleared its preview is current no more and puts nothing in place in any commit phase, however the run goes on. |
| Withdrawals.ReplacedRecordsNothing | internal/daemon/daemon.go:2450-2465 | The registered build that a newer delivery or a teardown clears ends superseded and records neither a failure nor a skip, unless its pipeline was settled by then or the daemon is stopping. |
| Locks.HeldExactly | internal/daemon/daemon.go:2794-2912 | In every run, with no hypothesis: a commit mutex is held by exactly the build or teardown that is between taking it and giving it back, and by at most one. |
| Locks.WaiterProceedsExactly | internal/daemon/daemon.go:2192-2197 | So whoever waits for a mutex can take it if and only if nobody is inside; none stays locked behind. |
| Agreement.RunAgrees | internal/daemon/daemon.go:249-329 | The agreement invariant holds in every state of every disciplined run, whatever recovery left, with the rows written by failed and skipped builds included. |
| Recovery.ServedExactly | internal/daemon/daemon.go:1550-1604 | Republishing succeeds, so that the preview's build shares are tried as well, if and only if the preview is both live and recorded with the URL it is live at. |
| Startup.RecoveryStartsARun | internal/daemon/daemon.go:930-971 | A run may start from whatever recovery leaves, pending jobs included. The publications it leaves unrecorded are exactly those whose URL moved and could not be saved; the ready rows it leaves naming nothing live are exactly those that could not be corrected. |
| Startup.RecoveryLeavesRows | internal/daemon/daemon.go:930-971 | A restored preview has no row afterwards if and only if its artifacts could not be used and the row could be deleted, and a failed one if and only if it did not come back as recorded and that could be saved; other rows and the queue are untouched. |
| Startup.LiveIsRecordedAfterRestart | internal/daemon/daemon.go:1550-1604 | In every disciplined run of a restarted daemon what is live is recorded, except for such a publication while it is still the one recovery made. |
| Sweep.SweepSparesTheRecorded | internal/daemon/daemon.go:3549-3588 | In every disciplined run: the share of a preview that was live and recorded, with no commit phase in progress, when the sweep listed the rows is still on the controller when the reap is through, unless it was withdrawn, and whether it was served then or created or adopted later. |
| Sweep.ReapsBelongToSweeps | internal/daemon/daemon.go:3549-3588 | Every reap under way in a run works off one listing of rows, then one of shares, then one snapshot, whatever was published or withdrawn in between. |
| Sweep.NextSweepWaits | internal/daemon/daemon.go:3549-3588 | The next sweep starts only when everything this one meant to delete is deleted or has failed to be. |
| Sweep.FailedListingEndsTheSweep | internal/expose/zrok.go:624-627 | A sweep whose listing of the shares fails deletes nothing. |
| Sweep.GoneExactly | internal/expose/zrok.go:553-589 | A share is gone from the controller if and only if its publication gave it back or a reap deleted it. |
| Sweep.RowsFollowSteps | internal/daemon/daemon.go:3549-3580 | A key has a row from the step that saves it to the step that deletes it, and nothing else changes that. |
| Sweep.WithdrawnExactly | internal/expose/zrok.go:553-569 | A share counts as withdrawn if and only if its publication withdrew it, for good. |
| Sweep.ReapedExactly | internal/expose/zrok.go:612-647 | A reap deletes a share if and only if it was on the controller when the shares were listed, was not served when the snapshot was taken, had no row when the rows were listed, and deleting it did not fail. |
| Sweep.LostExactly | internal/expose/frontdoor.go:715-747 | A publication that is not withdrawn has lost its share to a sweep if and only if the share was created before the shares were listed, entered the served set after the snapshot or has yet to, had no row when the rows were listed, and the deletion did not fail. |
| Sweep.ServedKeepTheirShares | internal/expose/zrok.go:628-647 | What was served when the rows were listed keeps its share, with or without a row. |
| Sweep.FreshShareMayBeReaped | internal/expose/zrok.go:612-660 | A run in which a preview published during a sweep is served and recorded and has no share. |
| LocalSweep.DroppedExactly | internal/expose/local.go:270-282 | Over any interleaving a mount that is neither closed nor replaced is gone if and only if there was a reap whose sweep found no row of its key when it listed the rows. |
| LocalSweep.ClosedIsGone | internal/expose/local.go:214-220 | Closing a publication takes its own mount away at once, and never the one that replaced it. |
| LocalSweep.RecordedExactly | internal/daemon/daemon.go:3549-3580 | A key has a row if and only if one was saved and not deleted since. |
| LocalSweep.FreshMountMayBeDropped | internal/expose/local.go:270-282 | A run in which a preview mounted and recorded between the listing and the reap is dropped. |
| NoLostPush.NewestPushIsNotLost | internal/daemon/daemon.go:2385-2500 | With the two windows shut, the newest push of a preview that was not cancelled or torn down is always pending, with its registered build, or finished by its own build. |
| LostPushes.PushIsLostExactly | internal/daemon/daemon.go:2161-2182 | In any run, with no hypothesis: a preview's newest push, while it is the newest, stops being accounted for if and only if a delivery clears the registered build that claimed it, another build registers over that one, or that one ends superseded while registered. |
| LostPushes.NewestUntilWithdrawnExactly | internal/daemon/daemon.go:1719-1768 | In any run, with no hypothesis: a push is its preview's newest until another is delivered, or its queued job is taken out, its running build is cancelled or the preview is torn down, and nothing else ends that. |
| NoLostPush.RegistrationFollowsPushes | internal/daemon/daemon.go:2417-2426 | In the same runs builds of one preview register in the order of their pushes. |
| NewestIsServed.TheNewestPushIsServed | internal/daemon/daemon.go:2094-2182 | In every run of the full discipline, once the build of the newest push has ended ready it is what is live, recorded and on disk, wherever older builds are in the protocol. |
| CounterTraces.OlderReplacesNewer | internal/daemon/daemon.go:2216 | With overlapping teardowns a run lets an older build replace a newer one's publication. |
| CounterTraces.TeardownTakesARecordedPreview | internal/daemon/daemon.go:2236-2240 | A build registered after a teardown's section publishes before the teardown returns, and loses its row and artifacts to it. |
| CounterTraces.FailureOverwritesReady | internal/daemon/daemon.go:256-276 | Listing and saving apart, a failed build overwrites the ready row of a live preview. |
| CounterTraces.ReplacementIsCleared | internal/daemon/daemon.go:2161-2178 | With enqueue and clear apart, a delivery clears the very build it asked for. |
| CounterTraces.OlderClaimWins | internal/daemon/daemon.go:2386-2426 | With claim and registration apart, the older push keeps the preview. |
| CounterTraces.ShutdownLosesThePush | internal/daemon/daemon.go:2807-2809 | A build stopped by shutdown at its check is discarded together with its push. |
| Daemon.Maps.CommitLock | internal/daemon/daemon.go:457-466 | Gives the mutex of the map, creating it when absent, as the protocol's step does. |
| Daemon.Maps.IsCurrent | internal/daemon/daemon.go:469-473 | True exactly when the build is the registered one. |
| Daemon.Maps.Abandon | internal/daemon/daemon.go:2172-2178 | Takes the running build out of the map and hands it back to be cancelled; nothing else changes. |
| Daemon.Maps.Register | internal/daemon/daemon.go:2424-2426 | Makes the build the registered one, whatever was; nothing else changes. |
| Daemon.Maps.Deregister | internal/daemon/daemon.go:2428-2439 | A build that ends removes only its own entry. |
| Daemon.Maps.Install | internal/daemon/daemon.go:2853-2858 | Replaces the live publication, handing back the one to close. |
| Daemon.Maps.Unpublish | internal/daemon/daemon.go:3193-3197 | Forgets the live publication, handing it back to be closed. |
| Daemon.Maps.PutBuildShare | internal/daemon/daemon.go:2986-2994 | Puts a build's share under its key, handing back the one it replaces to be closed. |
| Daemon.Maps.TearDown | internal/daemon/daemon.go:2200-2221 | The whole section: running build, publication, mutex and report mark go, and of the build shares exactly those of this preview, which are handed back. |
| Daemon.PrefixTellsThePreview | internal/daemon/daemon.go:2210-2215 | A build share's key starts with a preview's id and a slash exactly when it is one of that preview's. |
| Daemon.Maps.StaleReport | internal/daemon/daemon.go:1519-1535 | Says whether a report is late and records it otherwise, as the guard's specification does. |
| Publisher.EverySendIsKept | internal/daemon/publisher.go:75-105 | At every moment of every run a send is waiting, or overtaken by a later send of its preview and never handed over, or taken once and handed over at most once. |
| Publisher.TakenInSendOrder | internal/daemon/publisher.go:108-122 | Sends of one preview leave the queue in the order they were sent. |
| Publisher.FlushHandsOver | internal/daemon/publisher.go:108-122 | In every run a flush takes what its preview had waiting: that is taken for the first time, is in flight then, and nothing of the preview waits any more; a flush with nothing waiting changes nothing. |
| Publisher.TakenForGood | internal/daemon/publisher.go:108-153 | What was taken is never waiting again, so no later flush and no Close takes it a second time. |
| Publisher.DeadlinesAreSetByTheFirst | internal/daemon/publisher.go:91-104 | In every run the deadline of what waits is the debounce after the send that opened its window, and every send of the window but the newest was overtaken. |
| Publisher.NothingWaitsPastTheDebounce | internal/daemon/publisher.go:91-104 | With timers on time and a clock that does not go back, every send is taken or overtaken within the debounce. |
| Publisher.NothingIsLostAfterClose | internal/daemon/publisher.go:130-153 | Once stopped with nothing in flight, nothing waits, every send was handed over exactly once or overtaken, and the last of each preview was handed over, timers and late senders included. |
| Publisher.SerialCallsLandInOrder | internal/daemon/publisher.go:108-122 | When a preview never has two reports in flight, its calls land in send order. |
| Publisher.TwoInFlightMayLandEitherWay | internal/daemon/publisher.go:108-122 | From every reachable queue with two calls of one preview in flight there is a continuation in which the newer lands first, with only calls for other previews before and between, though Close makes its own in turn: the converse of the row above. |
| Publisher.CallsMayLandOutOfOrder | internal/daemon/publisher.go:108-122 | A queue with two calls of one preview in flight is reached, and the older one lands last. |
| Publisher.SecondCloseReturnsLateEnoughExactly | internal/daemon/publisher.go:130-153 | When a second Close may return, every send was handed over once or overtaken if and only if the first Close is through its own entries. |
| Publisher.SecondCloseMayReturnEarly | internal/daemon/publisher.go:130-153 | A run in which it may return before the only report is handed over. |
| Publisher.Coalescer.Send | internal/daemon/publisher.go:75-105 | Replaces a waiting report in place, schedules a new one, or writes through once stopped, as the queue's specification does. |
| Publisher.Coalescer.Flush | internal/daemon/publisher.go:108-122 | Takes the waiting report, if there still is one: it is counted then, was not taken before, and is not waiting any more. |
| Publisher.Coalescer.Close | internal/daemon/publisher.go:130-153 | Stops the queue and takes every waiting entry, in whatever order the map is gone through; a second call takes nothing. |
| Reports.AcceptedNeverGoesBack | internal/daemon/daemon.go:1478-1535 | Between teardowns, the reports accepted for an unbroken run of one commit never go from building to queued, from an end to queued or building, or from a state not recognised to one that is. |
| Reports.DroppedExactlyWhenItGoesBack | internal/daemon/daemon.go:1519-1535 | A report is dropped if and only if it goes back in that sense behind the newest one accepted for its commit in this life; otherwise it is accepted. |
| Reports.LifecycleIsAccepted | internal/daemon/daemon.go:1478-1502 | Queued, building and ready, failed or skipped of a commit, reported in that order, are all accepted. |
| Reports.TeardownStartsAfresh | internal/daemon/daemon.go:2217-2220 | After a teardown the next report of the preview is accepted, whatever it is. |
| Reports.HandedOverInAcceptedOrder | internal/daemon/daemon.go:3298-3362 | With sends in acceptance order, what is handed over is a subsequence of what was accepted. |
| Reports.LastAcceptedIsHandedOver | internal/daemon/daemon.go:3298-3362 | And after Close, with nothing in flight, the last report accepted and sent was handed over. |
| Reports.PlatformEndsOnTheLastSent | internal/daemon/daemon.go:3298-3362 | In every run, ordered or not: once closed with nothing in flight, the report of a preview handed over last is the one sent last, and so is the one that landed last if calls landed in order. |
| Reports.NewestIsFinalExactly | internal/daemon/daemon.go:3303-3361 | So the platform ends on the newest report that was accepted and sent if and only if no older one was sent after it. |
| Reports.ReadyIsOvertakenByBuilding | internal/daemon/daemon.go:3303-3361 | Guard and send are apart: a run leaves the platform at "building" for a build that is ready. |
| LineCutter.CutConserves | internal/buildlog/buildlog.go:139-173 | The segments, rejoined with a newline only where one was consumed, and what is left are the bytes written. |
| LineCutter.CutIsWellCut | internal/buildlog/buildlog.go:149-170 | Lines hold no newline, an unterminated piece has exactly the split length, and what is left is shorter than that and holds no newline. |
| LineCutter.CutIsTheOnlyCut | internal/buildlog/buildlog.go:149-170 | No other segments and remainder of the same bytes are cut that way. |
| LineCutter.ComposesExactly | internal/buildlog/buildlog.go:139-173 | Two writes emit what one write of both emits if and only if the unfinished line between them is below the split length or the second write does not finish it. |
| LineCutter.SegmentsAreBounded | internal/buildlog/buildlog.go:29-50 | A segment emitted by a write of n bytes has at most max(split, split + n - 2) bytes. |
| LineCutter.BoundIsTight | internal/buildlog/buildlog.go:167-169 | A terminated line meets that bound, for writes of every length. |
| LineReader.Tail | internal/buildlog/buildlog.go:369-390 | The window over the scanned lines is the last n of them, and the read fails when a line does not fit. |
| LineReader.StoredReadsBack | internal/buildlog/buildlog.go:369-390 | A file of lines reads back as those lines, each without one trailing carriage return, if and only if all of them fit the reader. |
| LineReader.CutFileReadsBack | internal/buildlog/buildlog.go:369-390 | A file that ends inside a line reads back with what there is of it as the last line, if and only if all fit. |
| LineReader.OneReturnIsDropped | internal/buildlog/buildlog.go:369-390 | A reader drops one carriage return at the end of a line and nothing else. |
| LineReader.TailReadsBack | internal/buildlog/buildlog.go:369-390 | Asking for n lines then gives the last n. |
| BuildLog.Writer.Write | internal/buildlog/buildlog.go:139-173 | Consumes every byte, emits exactly the cut of what was held and what came, and holds the remainder; after Close nothing changes. |
| BuildLog.Writer.EmitLine | internal/buildlog/buildlog.go:201-232 | Scrubs, stamps, stores until the first write failure, counts, and offers the line to every subscriber, dropping those that are full. |
| BuildLog.Writer.Subscribe | internal/buildlog/buildlog.go:251-290 | Replays as much of the backlog as fits and registers, or closes at once after Close; a file that cannot be opened or read gives no replay. |
| BuildLog.Writer.Cancel | internal/buildlog/buildlog.go:296-308 | Closes and forgets one subscriber; again it does nothing. |
| BuildLog.Writer.Close | internal/buildlog/buildlog.go:315-345 | Emits what is held, closes every subscriber and the file, and reports a write failure before any other; a second Close changes nothing and reports none. |
| LogHistory.EveryByteIsAccountedFor | internal/buildlog/buildlog.go:139-173 | In every run the segments and what is held are exactly the bytes accepted; after Close nothing is held. |
| LogHistory.OnlyScrubbedTextLeaves | internal/buildlog/buildlog.go:197-232 | Over any two runs that differ only in the bytes written, and of whose lines the scrubber makes the same, the file, every channel and every counter are the same: what the scrubber hides is nowhere outside the writer. |
| LogHistory.DivisionDoesNotMatter | internal/buildlog/buildlog.go:139-173 | While no line reaches the split length, what was emitted depends on the bytes and not on how they were divided into writes. |
| LogHistory.FileHoldsTheHistory | internal/buildlog/buildlog.go:201-218 | In every run the file is a prefix of the emitted history, which is the stamp and the scrubbed text of each segment, all of it unless a write failed, and the failure is remembered. |
| LogHistory.FileStopsAtTheFailure | internal/buildlog/buildlog.go:205-218 | In every run in which a line could not be stored, the file is the lines before the first such line and the part of it that got there; nothing follows. |
| LogHistory.SafeWritesReadBack | internal/buildlog/buildlog.go:52-60 | With a scrubber that never lengthens, writes of at most 4097 bytes keep the whole file readable. |
| LogHistory.LongerWritesMayNotReadBack | internal/buildlog/buildlog.go:52-60 | With writes of 4098 bytes there is a run after which a reader gets nothing of the log. |
| LogTail.TailIsTheHistory | internal/buildlog/buildlog.go:251-309 | If no write failed before it attached: at every moment of every run what was put on a channel is its replay and then every line emitted since, up to the end of the history while it is open. |
| LogTail.HoleExactly | internal/buildlog/buildlog.go:281-288 | In every run the positions a channel has carried are consecutive if and only if all it was offered fitted, or it has not been given a later line; otherwise exactly the newest of the replay are missing. If no write failed before it attached, they are the positions of the lines it carried. |
| LogTail.OpenTailIsGapFreeExactly | internal/buildlog/buildlog.go:251-290 | In every run the positions of an open tail are a contiguous piece of the history reaching its end if and only if all it was offered fitted. If no write failed before it attached, they are those of the lines it carried. |
| LogTail.AttachingDecides | internal/buildlog/buildlog.go:251-290 | If no write failed so far: all a new subscriber is offered fits if and only if the existing lines of its backlog fit its buffer, or it is offered none because the file does not open or the reader rejects it. |
| LogTail.ClosedIsFinal | internal/buildlog/buildlog.go:222-231 | A closed channel is sent nothing more, whatever happens next. |
| LogTail.ClosedExactlyBy | internal/buildlog/buildlog.go:222-232 | In every run an open channel is closed by exactly three things: its own Cancel, Close, and a write with more lines than there is room for. |
| LogTail.AttachedOpenExactly | internal/buildlog/buildlog.go:259-275 | A channel handed out is open if and only if the log is not closed. |
| LogTail.CloseEndsEveryTail | internal/buildlog/buildlog.go:329-332 | After Close there is no subscriber and every channel is closed. |
| LogTail.ShortBufferLosesTheNewestReplay | internal/buildlog/buildlog.go:281-288 | A run in which a tail with room for one line is given the first line and the third. |
| LogStore.NoWriterIsForgotten | internal/buildlog/store.go:65-116 | In every run an open writer is the registered one of its preview or one that an unfinished Begin or Finish still owes; a registered writer is open. |
| LogStore.SettledMeansOneWriterEach | internal/buildlog/store.go:65-116 | Once every Begin and Finish has returned, a preview has at most one open writer, and it is registered. |
| LogStore.BeginAlone | internal/buildlog/store.go:65-97 | From every reachable store a Begin that runs undisturbed leaves its new writer open and registered, has closed the one it displaced, and touches nothing else. |
| LogStore.FinishAlone | internal/buildlog/store.go:100-116 | A Finish that runs undisturbed closes its writer, takes it out if it is the registered one, and touches nothing else. |
| LogStore.RemoveAlone | internal/buildlog/store.go:217-226 | Removing a preview takes its writer out and closes it at once, and touches nothing else. |
| LogStore.NeverRegisteredAgain | internal/buildlog/store.go:100-116 | A writer displaced, finished or removed is never registered again, over any continuation of the run. |
| LogStore.LateFinishSparesTheSuccessor | internal/buildlog/store.go:104-110 | Its late Finish leaves whichever writer is registered in place. |
| LogStore.Registry.Begin | internal/buildlog/store.go:87-90 | Registers the new writer and hands back the one it displaces. |
| LogStore.Registry.Finish | internal/buildlog/store.go:104-111 | Unregisters the writer only if it is still registered. |
| EventStream.StreamReadsBack | internal/daemon/stream.go:89-149 | The standard's interpreter, run on any sequence of line, event and heartbeat frames, dispatches exactly the events they stand for; names and encoded payloads are on one line. |
| EventStream.LineReadsBack | internal/daemon/stream.go:122-141 | For every text one frame is one event named "line" whose data is the text with CR and CRLF turned into LF. |
| EventStream.BrokenStreamDispatchesAPrefix | internal/daemon/stream.go:89-149 | A stream that breaks off anywhere dispatches the first of its events, whole, and no part of the next. |
| EventStream.TerminatorsDoNotMatter | internal/daemon/stream.go:122-141 | Whichever of CR, LF and CRLF ends its lines, a stream says the same to the standard's interpreter. |
| EventStream.LinesAre | internal/daemon/stream.go:89-149 | That interpreter, by kinds of line, as section 9.2.6 of the standard has it: comments, ids, unknown fields, fields without a value or without a space. |
| EventStream.MarkIsSkipped | internal/daemon/stream.go:89-149 | A byte order mark at the start is skipped, as section 9.2.5 has it. |
| EventStream.FrameLine | internal/daemon/stream.go:122-141 | What the loop builds reads back as that event. |
| EventStream.CrAlone | internal/daemon/stream.go:123-124 | The two replacements together are one pass that treats CR, LF and CRLF alike. |
| Base64.RoundTrip | internal/daemon/oauth.go:158-167 | Decoding gives back whatever was encoded in unpadded URL-safe base64. |
| Base64.DecodesExactly | internal/daemon/oauth.go:179-182 | Line breaks make no difference; without them a text decodes if and only if it is of the alphabet and no last symbol stands alone. |
| Base64.KnownEncodings | internal/daemon/oauth.go:166-167 | Test vectors of section 10 of RFC 4648, without padding, and the two symbols of its section 5. |
| Base64.EncodeUsesTheAlphabet | internal/daemon/oauth.go:166-167 | Nothing outside the alphabet is written, so neither separator. |
| Decimal.RoundTrip | internal/daemon/oauth.go:158-195 | A printed integer parses back exactly when it fits 64 bits. |
| Decimal.ParsesExactly | internal/daemon/oauth.go:195-198 | A text parses to n if and only if it is an optional sign, any zeros and the digits of n, and n is a signed integer of 64 bits. |
| Tokens.StateRoundTrip | internal/daemon/oauth.go:153-200 | A state gives back its target, whatever bytes that is made of, exactly until its written expiry, and nothing afterwards. |
| Tokens.StateAcceptedExactly | internal/daemon/oauth.go:171-200 | A state is accepted, and gives back a target, if and only if it is an encoded body, a dot and the encoded code of that body, and the body is an expiry not yet reached, a nonce and that target. |
| Tokens.SignatureFixesTheTarget | internal/daemon/oauth.go:183-189 | With a code that never collides, an accepted state carrying the signature of an issued one leads where that does, and before that expires. |
| Tokens.StateLivesTenMinutes | internal/daemon/oauth.go:153-170 | A state is good for ten minutes from its issue, less at most a second. |
| Tokens.SessionRoundTrip | internal/daemon/console.go:377-422 | A session gives back the role it was issued for exactly until its written expiry. |
| Tokens.SessionAcceptedExactly | internal/daemon/console.go:389-422 | A token gives a role if and only if it is an expiry not yet reached, the name of that role, and the encoded code of the two. |
| Tokens.SessionLivesTwelveHours | internal/daemon/console.go:377-387 | A session is good for twelve hours from its issue, less at most a second. |
| Tokens.LifetimeIsNearlyTheTtl | internal/daemon/console.go:378 | The written expiry is less than a second short of the lifetime, and exact on whole seconds. |
| Tokens.SignatureFixesTheSession | internal/daemon/console.go:389-412 | With a code that never collides, an accepted token carrying an issued signature is the issued token. |
| Recovery.SelectEligible | internal/daemon/daemon.go:849-862 | Keeps exactly the ready rows whose artifacts are on disk, and drops those whose artifacts are gone. |
| Recovery.CountAndKeep | internal/daemon/daemon.go:871-881 | One pass computes both the keep-set and the total of the progress bar. |
| Recovery.RestoreStaysInsideKeepExactly | internal/daemon/daemon.go:984-1022 | The builds are read twice. Every key a restore tries is spared by the reap if and only if no preview that came back has a build to restore that the first reading did not show. |
| Recovery.KeptExactly | internal/daemon/daemon.go:849-881 | The reap at startup spares exactly the previews recorded as ready whose artifacts are on disk, and, when build shares are on, those of their builds that have a URL and artifacts. |
| Recovery.CountOrphans | internal/daemon/daemon.go:912-925 | The orphans reported are as many as a reap of the same listing deletes. |
| Recovery.RestoreBuildShares | internal/daemon/daemon.go:1101-1161 | Tries exactly the shares that were counted, and forgets exactly the URLs of the others. |
| Recovery.BarCountsPublications | internal/daemon/daemon.go:930-971 | The total is the number of publications kept by the first reading, and the progress the number tried by the second, so the bar passes its total exactly when more are tried than kept. |
| Recovery.BarReachesItsTotalExactly | internal/daemon/daemon.go:930-971 | When the restore stays inside what was kept, the bar does not pass its total, and reaches it if and only if every preview with build shares counted came back and each of them was still there to try. |
| Recovery.ReadsMustAgree | internal/daemon/daemon.go:1001-1022 | When the first read of the builds fails and the second does not, a share is tried that was not spared and the bar passes its total. |
| Recovery.ShownIsDone | internal/daemon/daemon.go:3777-3780 | However bumps interleave, the number shown never exceeds the round trips done. |
| Recovery.BarEndsFullExactly | internal/daemon/daemon.go:3777-3780 | Once every bump was shown, the bar stands at the round trips done if and only if the last number shown is the largest. |
| Recovery.BarMayEndShort | internal/daemon/daemon.go:3777-3780 | A run in which two are done, both are shown, and the bar ends at one. |
| Recovery.SweepKeep | internal/daemon/daemon.go:3549-3588 | The hourly sweep spares exactly the listed previews and their builds with a URL, and reaps nothing if and only if some preview's builds could not be read. |
| Retention.Prune | internal/daemon/daemon.go:3087-3121 | Leaves exactly the build's own directory, the limit - 1 others that sort highest, and what could not be removed. |
| Retention.AtMostLimitAreLeft | internal/daemon/daemon.go:3104-3108 | If removals succeed, at most the limit is left, the build's own included. |
| Retention.AsManyAsAllowedAreLeft | internal/daemon/daemon.go:3104-3108 | And no fewer: as many as the limit, or all when there are not that many. |
| Retention.StuckOnesOnlyStay | internal/daemon/daemon.go:3109-3113 | A directory that cannot be removed stays and saves no other; a limit below one removes nothing. |
| Retention.SurvivorsAreNewest | internal/daemon/daemon.go:3104-3108 | Every other survivor sorts above everything removed. |
| Retention.LeftOverRunExactly | internal/daemon/daemon.go:3087-3121 | Over any run of builds, in whatever order their names sort, what is left is the last build, whose directory the row names, and the limit - 1 highest of all the others there ever were: pruning after every build is pruning once. |
| Retention.NamedExactly | internal/daemon/daemon.go:2866-2889 | Over any run the row names the last build that was recorded, unless a failed save deleted it since. |
| Retention.InstalledUntilPruned | internal/daemon/daemon.go:2881-2886 | What a build installed is on disk until some later build prunes, recorded or not. |
| Retention.StuckDirectoriesAreCaughtUp | internal/daemon/daemon.go:3084-3086 | Over any run with failed builds and removals the directory the row names stays on disk, and the next prune that can remove everything is within the limit again. |
| Keys.KeyReadsBack | internal/expose/expose.go:106-122 | The preview and the build of a key are recovered from it, for ids without a slash. |
| Keys.KeyIsInjective | internal/expose/expose.go:106-111 | So no two publications share a key. |
| Keys.SlashesConfuseKeys | internal/expose/expose.go:106-111 | With a slash in an id two do. |
| Keys.CollidesAcrossPreviewsOnly | internal/expose/expose.go:140-142 | Two publications collide if and only if they belong to different previews. |
| Keys.OwnKeyNeverCollides | internal/expose/expose.go:140-142 | No publication collides with itself, whatever its ids are made of. |
| Keys.Publication.Close | internal/expose/expose.go:206-213 | However often it is called the publication is withdrawn once. |
| ShareAudit.Audit | cmd/docpreview/shares.go:262-316 | The rows are one per claim and one per unclaimed share, sorted and stable, and the tally counts them by kind. |
| ShareAudit.ClaimIsReported | cmd/docpreview/shares.go:268-294 | Every claim has a row that says ok if and only if its share is held, missing if and only if it is not and was published, and never otherwise, with that share and its URL. |
| ShareAudit.RowIsExplained | cmd/docpreview/shares.go:296-304 | Every other row is an orphan: a share held that nobody claims. |
| ShareAudit.ProblemsComeFirst | cmd/docpreview/shares.go:306-313 | Orphans come first, then missing ones, then those in order, then what was never published, each by key. |
| ShareAudit.RootEndsInOneSlash | internal/expose/expose.go:348-354 | The URL of a share's root is its origin with exactly one slash at the end. |
| Sorting.LessExactly | cmd/docpreview/shares.go:306-313 | A key is below another if and only if it is a proper prefix of it or smaller at the first difference. |
| ShareAudit.EveryKeyHasOneRow | cmd/docpreview/shares.go:255-261 | When nothing is recorded twice, every key of either side has exactly one row. |
| ShareAudit.ReportIsUnique | cmd/docpreview/shares.go:306-313 | Whatever is recorded, a share claimed twice included, there is one report: its rows do not depend on the order in which the account's map is gone through. |
| ShareAudit.HeldIsPartitionedExactly | cmd/docpreview/shares.go:262-304 | Held shares are matched plus orphaned if and only if no held share is claimed twice, and fewer than that otherwise. |
| ShareAudit.DistinctClaimsAddUp | cmd/docpreview/shares.go:255-261 | So the counts add up for claims that name no publication twice, as the database's do not. |
| ShareAudit.RecordedIsPartitioned | cmd/docpreview/shares.go:268-294 | Recorded publications are matched plus missing plus never published. |
| ShareAudit.DoubleClaimCountsTwice | cmd/docpreview/shares.go:268-280 | One share recorded twice is counted as matched twice. |
| ShareAudit.RecordedShares | cmd/docpreview/shares.go:213-252 | Lists every preview and every named build, or fails when some builds cannot be read. |
| ShareAudit.ClaimsExactly | cmd/docpreview/shares.go:213-252 | The claims are one for every preview, published if it has a name, and one for every build that has a name, and nothing else. |
| ShareAudit.ClaimsAreDistinct | cmd/docpreview/shares.go:213-252 | With distinct preview ids without a slash, and distinct named builds, the database's claims name no publication twice. |
| BaseUrl.NormalizeConfig | internal/config/config.go:1174-1195 | Terminates, and what it accepts is canonical: slashes at both ends, nowhere two in a row. |
| BaseUrl.NormalizeProject | internal/daemon/projects.go:1596-1623 | Terminates, is blank exactly on blank input, and otherwise canonical. |
| BaseUrl.Collapse | internal/config/config.go:1191-1193 | Repeating the replacement until nothing is left makes every run of slashes one. |
| BaseUrl.ConfigIsIdempotent | internal/config/config.go:1174-1195 | Normalizing an accepted result gives it back. |
| BaseUrl.ConfigKeepsThePieces | internal/config/config.go:1174-1195 | What is accepted comes out as its own pieces between slashes, in their order, each behind one slash and one at the end. |
| BaseUrl.ProjectKeepsThePieces | internal/daemon/projects.go:1596-1623 | So does the other normalizer, of the path of what it is given. |
| BaseUrl.PathPartExactly | internal/daemon/projects.go:1601-1612 | The path of an address is what follows its host, "/" when nothing does; of anything else it is all of it. |
| BaseUrl.SpacesAre | internal/daemon/projects.go:1597 | Space is what Unicode gives the property White_Space, as Go has it. |
| BaseUrl.TrimmedExactly | internal/daemon/projects.go:1597 | Trimming takes away exactly the space at both ends. |
| BaseUrl.ProjectIsIdempotent | internal/daemon/projects.go:1596-1623 | So does the other normalizer, on every input. |
| BaseUrl.NormalizersAgreeExactly | internal/daemon/projects.go:1596-1623 | The two give the same if and only if the input is not blank and holds neither "://" nor "..". |
| EventRing.EventLog.Add | internal/daemon/events.go:67-80 | The ring holds the last 200 of all events ever added. |
| EventRing.EventLog.Recent | internal/daemon/events.go:83-102 | Gives the reverse of the last min(n, 200, total) events added. |
| EventRing.EventLog.Backfill | internal/daemon/events.go:113-144 | Adds the history oldest first. |
| EventRing.Restart | internal/daemon/events.go:105-144 | A new feed, backfilled, shows the first min(n, 200) builds of the history as it was listed, newest first: each with its preview, state and reason, at the time it ended, or else started. |

## Left out

- LogTail.TailIsTheHistory: says nothing of the replay of a tail that attached after a write to the file had failed; the file may then end inside a line, and the positions of which `LogTail.HoleExactly` and `LogTail.OpenTailIsGapFreeExactly` speak are not those of lines carried.
- Tokens.StateRoundTrip: an expiry outside 64 bits, which the printed token could not carry, is excluded; so it is for sessions.
- LogHistory.SafeWritesReadBack: assumes a scrubber that never lengthens a line, which the real one may.
- Agreement.FailedSaveLeavesNothing: a row that could not be deleted after a failed save stays until the next build; and the build whose save failed then records a failed row of its own (`Failures.WhoGaveUpLeavesItsRowAtMost`).
- Sweep.LostExactly: a deletion that reports a failure is taken to have deleted nothing, the rows of a preview and of its builds are listed at once, and a share leaves the served set before it is deleted. The reap of the ziti exposer deletes nothing (`internal/expose/ziti.go:410-420`) and is not modelled.
- HTTP handlers, the dashboard, OAuth and webhook I/O, the zrok, ziti and Frontdoor clients, git, docker and the build itself: calls out of the process are steps that may succeed or fail.
- The scrubber is any function that adds no newline; that it never lengthens a line is a hypothesis where it is used. The real one can lengthen a secret shorter than its mask.
- The message authentication code is any function; passwords, the vault and constant-time comparison are not modelled.
- Time is integers; scheduling, retries and timeouts are not modelled. A save's own timeout is a failed save.
- The queue is a map from previews to their newest push, as `internal/store/store.go:284-331` keeps it; that Claim takes the oldest job first, and what happens to jobs claimed before a crash, are not modelled.
- Build shares appear in the teardown section, in the keys, in recovery and in the audit, but not in the transition system; nor do the withdrawals of shares from the exposer, retries of them, and reserved names.
- Two builds of one commit started in the same second share a build id and so a directory and a log; builds are distinct in the model.
- publishOrAdopt: which of adopting and creating is tried is not modelled, only whether the preview comes back.
- The reaper's choice of expired previews, and that it goes on at once when that query fails.
- Strings are sequences of characters or bytes: UTF-8 decoding of an event stream, and invalid UTF-8, are not modelled; JSON encoding is a payload without line terminators.
- A reader receives between two operations of the writer and not between two lines of one write; so which of several lines in one write finds a channel full is decided by the room there was before it.
- Log retention (`prune`, `Sweep`) and the listing of stored logs.
- Subscribers are identified by the position of their channel rather than by a counter of their own.
- Begin's name checks and its failure to create a file change nothing in the store and are not steps.
