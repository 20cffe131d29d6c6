# Verified model of junco's queueing core

junco runs coding tickets: GitHub issues and submitted files become tickets, a
daemon claims and runs them, and what has to be said on GitHub is said at once
or, when the network is away, put into an outbox and replayed later. This
project models the parts of it that have to survive crashes, lost answers,
concurrent processes and hostile text, and proves what they promise.

- **Outbox** (`OutboxModel`, `OutboxLaws`, `OutboxFlush`, `OutboxRuns`,
  `Filing`, `FlushRace`, `OpIds`). Class `Outbox` is the directory of op files,
  the dead letters, the done tickets, the filed stamps and GitHub; its methods are the steps
  of `flushLocked`. Two functions from step numbers to outcomes stand for the
  network and the disk: any call may succeed, fail with or without effect, lose
  its answer, or be the machine's last. `OutboxModel.Apply` says what an op amounts to
  when it is carried out once on a perfect network, `Fold` what a queue amounts
  to. The main results: whatever happens, a flush adds no second comment, issue
  or pull request, checkpoints tell the truth, and every queued stamp has its op
  unless a failed access of the disk stranded it; if all
  failures are network-shaped, the world plus what is still queued always
  amounts to the fold of everything ever queued, so an empty outbox means
  exactly-once effect; six flushes empty the outbox once the network answers. What the
  fold amounts to is said field by field: labels, comments, issues and their labels, pull
  requests, branches, labels of repositories, finished tickets.
- **Migration** (`FileTree`, `Mover`, `Migration`, `RootPlan`, `MigrateLaws`,
  `MigrateRoutes`, `MigrateRuns`). Class `Disk` is a tree with the set of files not
  yet synced; every file-system call may fail, report another device, or be the last
  before a power loss that tears unsynced files. Moving a pair, a pass over the
  pairs, the queue phase, the old names of the state tree, and any number of whole
  migrations with all three phases, each resolved and planned anew, are proved to keep
  every regular file whole, to move whatever no failing call hinders, and to record in the
  journal what happened, read off the trees before and after; planning is proved to drop
  nothing and to resume after any interruption.
- **Plans and fences** (`Text`, `Fences`, `PlanComment`, `CommentSize`,
  `PlanRoundTrip`, `ParkedTicket`, `PlanSets`, `Approval`, `ApprovalHistory`). The plan
  printer and the two fence-aware readers, with round trips over arbitrary text and the
  exact size at which there is no comment, and the approval gate over histories of edited
  comments, from the planner to the queue.
- **Queue** (`Placement`, `BridgeSweep`, `Scheduler`). Ticket placement and the
  bridge sweep as state machines over all interleavings; the scheduler as a class
  whose waits let the environment do anything and whose books account for every
  claim, every sleep, and the repository each ticket runs under.
- **Small machines** (`LogTailer`, `CachedProbe`).

`Wrappers` and `Numbers` hold an option type and two facts about quotients.

What the code does not do, as proved here, each with the exact condition or a
concrete run:

- A plan with a lone carriage return can close its own fence early, and is then
  read back cut short (`PlanRoundTrip.OuterFenceIsFoundIff`,
  `LoneReturnBreaksTheFence`).
- With plan sets enabled, a plan with a line that opens a set is scanned as holding
  one, although the line lies in the plan's own fence and whether or not the set is
  closed: the fence of the plan closes it. What is then found, unless it is empty,
  runs in place of the plan (`PlanSets.QuotedSetIsFound`,
  `ApprovalHistory.CommentQueues`, `PlanSets.QuotedSetRuns`).
- A later plan comment that is edited away lets an approval fall on the plan
  before it; from the listing this can be excluded exactly while no own comment
  behind the plan was edited since the approval
  (`ApprovalHistory.LatestUnlessRetracted`, `VouchedForIff`,
  `RetractedPlanRunsTheOther`).
- When the directory or the batch of a stamp cannot be read or the write that
  upgrades the stamp fails, the op is deleted all the same and the stamp says
  "queued" for good (`OutboxFlush.Outbox.UpgradeRecords`,
  `OutboxRuns.StrandedStamp`).
- Op files stop sorting in the order of enqueueing when a process's counter
  grows past four digits within a millisecond (`OpIds.NamesSortIff`,
  `OrderBreaksAtTenThousand`).
- The queue phase of a migration, when it has to copy across devices, overwrites
  files of the destination that have the source's names
  (`Mover.Disk.MoveQueueDir`, `Mover.QueueMoveOverwrites`).
- The directories synced after a copy are not all that have new entries
  (`Mover.EntriesSyncedIff`, `EntriesMissed`).
- Once resolution has moved to the canonical root, entries with flat names in
  that root are planned too (`RootPlan.OnlyLegacyPendingIff`, `LeftoverIsPlanned`).
- Submitters that use hard links and submitters that use the slot file can
  clobber each other (`Placement.MixedModesClobber`); a slot file left by an owner
  that crashes or cannot remove it blocks its name (`Placement.OwnerLeavesSlot`,
  `StaleSlotIsReached`, `StaleSlotBlocks`).
- A health probe whose call throws synchronously is never started again
  (`CachedProbe.WedgedIff`, `WedgedForever`, `OneThrowWedges`); a probe that
  rejects, however early, does not do that.
- Asked for no lines, the log tail returns all (`LogTailer.ReadTailGivesLast`).

## Model

| member | source | states |
|---|---|---|
| `OutboxRuns.Run` | src/githubOutbox.ts:467-497 | for any number of flushes over any network and disk: no comment, issue or pull request is added twice, the checkpoints stay true, every queued stamp has its op or is stranded, and none is stranded unless an access of the disk failed in between; if all failures are network-shaped, the world plus the queue amounts to the fold of everything ever queued, so an empty outbox is exactly-once effect in enqueue order |
| `OutboxRuns.Drain` | src/githubOutbox.ts:869-914 | with no arrivals and a network that answers, be it no, the outbox is empty after six flushes |
| `OutboxRuns.FlushLowers` | src/githubOutbox.ts:893-912 | one such flush lowers the highest rank in the outbox: 3 minus attempts, plus 3 for a pull-request op that is no tail |
| `OutboxRuns.RanksDrop` | src/githubOutbox.ts:904-912 | every retried op returns with a smaller rank |
| `OutboxRuns.TailsRankLower` | src/githubOutbox.ts:565-584 | the finalize tail ranks below the op that left it |
| `OutboxRuns.LabelsAreFolded` | src/githubOutbox.ts:633-640 | exactly-once delivery leaves each issue with the in-order fold of the label edits queued for it, pull-request label flips included: done for the four statuses that end well, else failed |
| `OutboxRuns.CommentsAppearOnce` | src/githubOutbox.ts:532-555 | each queued comment is there exactly once, and no plain comment that was neither there nor queued |
| `OutboxRuns.IssuesAppearOnce` | src/githubOutbox.ts:790-820 | each finding asked for has exactly one issue, unless it had some before |
| `OutboxRuns.PullRequestsAppearOnce` | src/githubOutbox.ts:660-725 | exactly the wanted heads have a pull request, known ones keep their URL, and as many were opened as heads were added |
| `OutboxRuns.BranchesArePushed` | src/githubOutbox.ts:644-660 | exactly the branches that were on the remote or that some queued push or pull-request op names are there afterwards |
| `OutboxRuns.UrlsStayDistinct` | src/githubOutbox.ts:660-725 | no two heads ever come to share the URL of a pull request |
| `OutboxRuns.RepoLabelsAppear` | src/githubOutbox.ts:811-814 | a repository has a label afterwards exactly if it had it or a finding queued for it needs it |
| `OutboxRuns.IssueIsLabelled` | src/githubOutbox.ts:811-845 | a finding that had no issue gets one with the labels of the first op that asks for it, whatever is queued behind |
| `OutboxRuns.TicketIsLinked` | src/githubOutbox.ts:736-759 | a finished ticket ends up with the URL of the pull request of the last op that names it |
| `OutboxRuns.FinalizeCommentAppears` | src/githubOutbox.ts:760-770 | every issue with a queued pull request is told the URL of that pull request |
| `OutboxRuns.StrandedStamp` | src/githubOutbox.ts:794-807 | a run in which one access of the upgrade fails, be it the read of the directory, the read of the batch or the write: the issue is created, the op is gone, the stamp still says queued |
| `OutboxModel.ApplyIsIdempotent` | src/githubOutbox.ts:630-860 | delivering any op a second time changes nothing |
| `OutboxModel.PrIsIdempotent` | src/githubOutbox.ts:651-789 | so does repeating the whole composite op, through push, open, write-back, comment and label flip |
| `OutboxModel.PrEffects` | src/githubOutbox.ts:651-789 | what the composite op does to pull requests, branches, finished tickets, comments and labels, and that it touches no issue and no label of a repository |
| `OutboxModel.FoldAppend` | src/githubOutbox.ts:869-871 | delivering two queues in turn is delivering their concatenation |
| `OutboxFlush.Outbox.Enqueue` | src/githubOutbox.ts:126-155 | a new file goes behind all others with no attempts, and promises its op on top of what was promised, although its push may have gone through already |
| `OutboxFlush.Outbox.List` | src/githubOutbox.ts:157-174 | a listing holds what was left, what appeared since and what arrived, in enqueue order |
| `OutboxFlush.Outbox.Flush` | src/githubOutbox.ts:467-500 | listed ops are sent, dead or still queued, and the three counts add up; skipped exactly when another flusher holds the lock and something is listed; fold and safety are kept; unless an access of the disk fails, the finished ticket of an op that died without a pull request waits no longer |
| `OutboxFlush.Outbox.FlushLocked` | src/githubOutbox.ts:869-914 | the replay of one listing: every listed op meets one fate in order, none after the first network failure; all are sent when nothing fails |
| `OutboxFlush.Outbox.ReplayNext` | src/githubOutbox.ts:869-878 | one turn of the loop keeps the books of the replay |
| `OutboxFlush.Outbox.FlushOne` | src/githubOutbox.ts:874-912 | one op: sent and deleted, left for a network failure, retried with one attempt more, or dead after the third, with at most one tail and, unless an access of the disk fails, with its ticket released; stamps are stranded only by an access of the disk that fails meanwhile |
| `OutboxFlush.Outbox.Fail` | src/githubOutbox.ts:893-912 | attempts below three are rewritten, the third goes to dead with its tail and the release of its ticket; no stamp loses its op, whatever the disk does |
| `OutboxFlush.Outbox.AfterDeath` | src/githubOutbox.ts:565-628 | a dead op whose pull request exists leaves exactly one finalize tail, a tail leaves none; a finished ticket that waits for the pull request of an op that has none waits no longer unless an access of the disk fails, and nothing else changes |
| `OutboxFlush.Outbox.Execute` | src/githubOutbox.ts:630-867 | any execution, however it is cut short, leaves what the op amounts to unchanged; a complete one leaves nothing to do; unknown kinds fail |
| `OutboxFlush.Outbox.ExecutePr` | src/githubOutbox.ts:651-789 | the composite op over both checkpoints, the write-back and the finalize |
| `OutboxFlush.Outbox.EnsurePushed` | src/githubOutbox.ts:652-660 | `pushed` is written only when the branch is on the remote |
| `OutboxFlush.Outbox.EnsureOpened` | src/githubOutbox.ts:661-725 | `prUrl` is written only for the one open pull request of the head, found or opened |
| `OutboxFlush.Outbox.PostComment` | src/githubOutbox.ts:532-561 | posts unless the scan of own comments finds the key, asking for the own login once in a flush; success means that there is one and that every call was answered |
| `OutboxFlush.Outbox.CreatePr` | src/githubOutbox.ts:661-723 | opens the pull request or finds the open one, which takes a second call whose answer decides; a head that was never pushed is refused |
| `OutboxFlush.Outbox.CreateIssue` | src/githubOutbox.ts:790-855 | labels, fresh scan, then create: never a second issue for a fingerprint; stamps learn "deduped" where there was an issue and "created" where there was none; on success they have all learned it exactly if the batches that hold them could be read and no write of that part failed |
| `OutboxFlush.Outbox.UpgradeRecords` | src/assessReview.ts:106-119 | only queued stamps of the finding change, to the outcome given, and none stays queued exactly if the directory and the batches that hold them could be read and no write failed; those that do are recorded as stranded |
| `OutboxLaws.SettledCounts` | src/githubOutbox.ts:869-914 | deleted, dead and remaining add up to the listed ops |
| `OutboxLaws.TailAmountsToOp` | src/githubOutbox.ts:565-584 | a finalize tail amounts to what the dead op does, keeps its URL, and leaves no tail itself |
| `OutboxLaws.EnqueuedPromise` | src/prFlow.ts:821-863 | an op queued after its live push promises what it promises anyway |
| `OutboxLaws.PushFoldsThrough` | src/githubOutbox.ts:644-650 | a push commutes with any queue |
| `Filing.FileFindings` | src/assessFiling.ts:90-229 | each selected finding comes out as the answers to its calls say, is counted under that outcome and stamped with it once the one write of the batch is kept, which is made exactly if there is something to stamp; the ops of those put off are in the outbox, in order; however it ends, nothing is stamped queued that has no op; with a successful scan no finding is filed twice |
| `Filing.FileAll` | src/assessFiling.ts:124-206 | the labels and then the findings one after the other, with the counts, the stamps and the new op files that follow from the answers alone; each posted finding has its issue with its labels, or none where the pass goes without |
| `Filing.StampIsItsOwn` | src/assessFiling.ts:161-204 | with no fingerprint twice, the stamp of each finding is that of its own outcome: left as it was if not filed, and a known finding keeps the stamp it has |
| `Filing.PostponedAre` | src/assessFiling.ts:157-202 | the ops put into the outbox are exactly those of the findings put off, with their labels unless the pass goes without |
| `Filing.SelectedAre` | src/assessFiling.ts:105 | exactly the findings asked for are filed, in the order of the batch |
| `Filing.FileOne` | src/assessFiling.ts:165-202 | one finding: known, posted, put off or missed exactly as the scan, the answer and the write of the op file say, with the matching counter, stamp, issue and op |
| `Filing.TryOrEnqueue` | src/githubOutbox.ts:218-236 | exactly a network-shaped failure of the live call writes the op file; the result is that of the write, else of the call |
| `Filing.PrepareLabels` | src/assessFiling.ts:128-157 | labels are ensured for owned repositories, and then every finding has the labels it needs; findings go without exactly in external repositories and where a label is refused; no issue is touched |
| `FlushRace.LockedFilesOnce` | src/githubOutbox.ts:464-485 | under the lock, in every interleaving of any number of flushers, a finding that has an issue gets no other |
| `FlushRace.OverMeansServed` | src/githubOutbox.ts:815-850 | with the lock or without, no op file goes before the finding has an issue, and issues never go |
| `FlushRace.OneTurnIsEnough` | src/githubOutbox.ts:815-850 | a flusher whose calls succeed is done with an op in one turn, whether it finds an issue or creates it |
| `FlushRace.StepStaysExclusive` | src/githubOutbox.ts:484-491 | one step under the lock: the holder is alone and its scan still holds |
| `FlushRace.UnlockedFilesTwice` | src/githubOutbox.ts:448-454 | without the lock two scans before two creations file the finding twice |
| `OpIds.NamesSortIff` | src/githubOutbox.ts:138-140 | two names of one process sort in order exactly if the clock has moved on or, within a millisecond, the earlier counter is at most the leading digits of the later |
| `OpIds.NamesSortInOrder` | src/githubOutbox.ts:138-140 | with a clock of equal width, later ops have later names, within a millisecond while the counter is below 10000 |
| `OpIds.CountersSortIff` | src/githubOutbox.ts:140 | two counters in one millisecond sort in order exactly if the earlier is at most the leading digits of the later |
| `OpIds.OrderBreaksAtTenThousand` | src/githubOutbox.ts:140 | 9999 sorts after 10000 |
| `Fences.LongestBacktickRun` | src/fences.ts:15-22 | the loop computes the longest run of backticks at the start of a line |
| `Fences.LastFencedBlockRange` | src/fences.ts:30-55 | the last complete block of the tag; none exactly if no opening line has a closing line after it; nothing complete starts behind it |
| `Fences.BlocksCover` | src/fences.ts:35-54 | no complete block escapes the scan: it is found or starts inside one that is |
| `Fences.BlocksAreComplete` | src/fences.ts:35-54 | blocks found are complete, in order and disjoint |
| `PlanComment.StripChangesIffFrontmatter` | src/githubInbox.ts:193 | the frontmatter pattern strips something exactly if the text begins with a frontmatter block |
| `PlanComment.StripLeaves` | src/githubInbox.ts:193 | what remains is the text behind the first closing dashes after the latest opening of a block, without the white space there |
| `PlanComment.WrittenFrontmatterGoes` | src/githubInbox.ts:193 | frontmatter as it is written, between two lines of dashes, is stripped with the white space behind it, and nothing else |
| `Text.SpacesAre` | src/githubInbox.ts:193 | white space is that of ECMAScript, code point by code point |
| `PlanComment.ExtractFencedBlock` | src/githubInbox.ts:229-245 | the reader of fenced blocks, against the block specification |
| `PlanComment.MarkTopLevel` | src/githubInbox.ts:300-316 | the array filled by the first pass tells for each line whether it is outside every fence |
| `PlanComment.NonceIs` | src/githubInbox.ts:267 | a nonce is eight hexadecimal digits in lower case |
| `PlanComment.LastPair` | src/githubInbox.ts:318-339 | the second pass finds the last complete marker pair among the lines that count |
| `PlanComment.ExtractMarkedBlock` | src/githubInbox.ts:294-343 | both passes together |
| `PlanComment.ExtractPlanBody` | src/githubInbox.ts:350-352 | marker pair first, fenced block otherwise |
| `PlanRoundTrip.PlanCommentRoundTrip` | src/githubInbox.ts:376-398 | a trimmed, non-empty plan without carriage returns and leading frontmatter is read back from its comment, also after a CRLF edit, whatever fences, ticket blocks or marker pairs it holds |
| `PlanRoundTrip.PlanSetCommentRoundTrip` | src/githubInbox.ts:357-359 | the same for plan sets |
| `CommentSize.CommentFitsIff` | src/githubInbox.ts:386-397 | there is a comment exactly if the plan, its two fences, the wording and the marker come to at most 60,000 code units, below the 65,536 that GitHub takes |
| `CommentSize.WideLength` | src/githubInbox.ts:397 | the limit counts UTF-16 code units: characters beyond the basic plane are two each |
| `PlanRoundTrip.OuterFenceIsFoundIff` | src/githubInbox.ts:386-397 | for any body, the wrapper is the block found exactly if no line of the normalized body closes its fence |
| `PlanRoundTrip.LongerFenceNeverCloses` | src/fences.ts:10-14 | the fence outruns every line of a body without carriage returns |
| `PlanRoundTrip.ClosedEarlyIsCut` | src/githubInbox.ts:229-245 | a plan whose line q closes the fence, with no opener and no marker after it, is read back as its lines before q |
| `PlanRoundTrip.LoneReturnBreaksTheFence` | src/fences.ts:17 | a lone carriage return hides a run of backticks from the count: such a plan of two lines is read back as its first |
| `ParkedTicket.ParkedTicketRoundTrip` | src/submitAsIssue.ts:61-64 | a fence-balanced ticket without an own end marker outside its fences is read back, trimmed and stripped |
| `ParkedTicket.OwnMarkersAreChosenIff` | src/githubInbox.ts:294-339 | the markers put around a ticket delimit it exactly if it leaves no fence open and holds no end marker of the nonce outside a fence |
| `ParkedTicket.ChosenMarkersAreTopLevel` | src/githubInbox.ts:319-330 | a marker inside a fence never delimits |
| `Approval.FindOwnPlanComment` | src/githubInbox.ts:679-714 | the last plan comment of the own login wins |
| `Approval.Gate` | src/githubInbox.ts:857-899 | the comment that may run, or none: where approval is asked for, exactly the last own plan comment under a label that is on the issue, put there by a verified hand later than the creation and the last edit of the comment; else the last own plan comment |
| `Approval.PlanReadyDoor` | src/githubInbox.ts:857-1012 | the body queued is the set or the plan of that comment, a set only where sets are enabled and one is found; nothing where approval is asked for and the label is off |
| `PlanSets.NoSetIsFound` | src/githubInbox.ts:357-359 | in the comment of a plan none of whose lines opens a set no set is found |
| `PlanSets.QuotedSetIsFound` | src/githubInbox.ts:229-245 | in the comment of a plan the scan finds a set exactly if some line of the plan opens one, closed or not, and what it finds is the last set among the lines of the plan and the line that closes its fence |
| `PlanSets.SetIffOpened` | src/fences.ts:35-54 | the lines of a plan and the one that closes its fence hold a set exactly if some line of the plan opens one |
| `PlanSets.QuotedSetRuns` | src/githubInbox.ts:904-906 | a plan of three lines, one of which opens a set that nothing in the plan closes, is taken for a set |
| `ApprovalHistory.ApprovedIsRead` | src/githubInbox.ts:865-899 | the comment the door reads is, word for word, what it was at the approving label |
| `ApprovalHistory.UneditedSince` | src/githubInbox.ts:672-678 | a comment no event has edited is as it was; an edited one is dated by the edit |
| `ApprovalHistory.LatestUnlessRetracted` | src/githubInbox.ts:697-711 | the comment read was the latest plan at the label exactly unless an edit after it made a later plan none |
| `ApprovalHistory.TimesTell` | src/githubInbox.ts:671-678 | own comments behind it posted after the label or last updated before it were not edited since; one posted before and updated after was |
| `ApprovalHistory.TimesDecide` | src/githubInbox.ts:671-678 | with all times there and none of them that of the label, this is exact: a caller can tell from the listing whether any was edited since |
| `ApprovalHistory.VouchedForIff` | src/githubInbox.ts:671-678 | it was the latest plan in every history the listing may show, exactly if no own comment behind it was edited after the label |
| `ApprovalHistory.Sweep` | src/githubInbox.ts:857-1024 | over any history of posts, edits and labels: what is queued is what the approved comment said at a verified label that is still on the issue, and from the listed times a caller can tell that it was the latest plan |
| `ApprovalHistory.CommentQueues` | src/githubInbox.ts:904-1012 | the comment of a plan, posted or saved again by a web editor, queues what can be read off the plan: the plan itself, or, with sets enabled, the set found in it; the plan itself whenever no line of it opens a set |
| `ApprovalHistory.ThePlanRuns` | src/githubInbox.ts:857-1016 | from the planner to the queue: with a plan's comment the latest at the label, the door queues what that plan amounts to or nothing, nothing once the label is off, unless a later plan was edited away; a plan no line of which opens a set amounts to itself |
| `ApprovalHistory.RetractedPlanRunsTheOther` | src/githubInbox.ts:705-711 | a history in which the door may run the first plan although the second was the latest at the label |
| `Mover.Disk.MovePair` | src/dataMigrateCmd.ts:608-645 | every regular file is whole at the source or the destination at every exit, nothing else changes; a conflict is exactly a destination with a file in it; a rename that is done has moved the pair, one that meets another device has it copied unless a later call fails or a file does not arrive in full, and only other failures are errors; moved and copied pairs have arrived in full and are gone from their place; interrupted copies leave the source as it was |
| `Mover.VerifiedIsFull` | src/dataMigrateCmd.ts:447-460 | prefixes that pass the size check are full copies |
| `Mover.Disk.VerifyCopy` | src/dataMigrateCmd.ts:447-460 | the check passes only if every source file has a copy of its size |
| `Mover.Disk.SyncCopy` | src/dataMigrateCmd.ts:469-477 | afterwards no copied file can be torn by a power loss, and the destination and the directories that directly hold a file are synced |
| `Mover.EntriesSyncedIff` | src/dataMigrateCmd.ts:469-477 | all entries inside a copied directory are synced exactly if every directory in it that leads to a file also holds one; the entry of the copy itself never is |
| `Mover.EntriesMissed` | src/dataMigrateCmd.ts:472-476 | a tree with an entry that is not synced |
| `Mover.Disk.CopySynced` | src/dataMigrateCmd.ts:633-638 | copy, verify and sync leave every file safe at both places, or the source untouched |
| `Mover.Disk.CopyOver` | src/dataMigrateCmd.ts:624-642 | across devices: the source is deleted only after a copy that is verified and synced, which comes about unless a call fails or a file does not arrive in full |
| `Mover.Disk.CopyTree` | src/dataMigrateCmd.ts:634 | success means everything was written, if perhaps short; files and directories never replace each other |
| `Mover.Disk.RemoveScaffold` | src/dataMigrateCmd.ts:613-616 | only directories go, and the one that holds them stays |
| `Mover.Disk.MoveQueueDir` | src/dataMigrateCmd.ts:1183-1204 | the queue phase conserves the source and all files but those of the destination with names of the source; a completed copy keeps those exactly if the source has nothing else of that name; a rename moves it unless the call fails, the place is taken or its directory is missing; across devices it completes unless a call fails, a directory meets a file, or a file does not arrive in full |
| `Mover.QueueMoveOverwrites` | src/dataMigrateCmd.ts:1190-1197 | a move over devices in which nothing fails and the file of the destination is gone |
| `Mover.DeleteConserves` | src/dataMigrateCmd.ts:642 | after a safe copy the source may go, even in part |
| `Mover.RenameConserves` | src/dataMigrateCmd.ts:619-622 | a rename to a free place carries every file over |
| `Migration.Run` | src/dataMigrateCmd.ts:1229-1371 | one run: whether the pass completes or throws, the journal gains exactly the receipts of what happened if its write lands, conflicts on record not repeated, and only a loss of power in the pass leaves it as it was; the receipts tell, on the trees before and after, which pairs moved, were refused or were cut short; no two sources land on one destination; the run goes well unless the write of the journal fails or the calls for its last pair do |
| `Migration.MovePairs` | src/dataMigrateCmd.ts:1230-1320 | the loop: receipts are honest, absent, claimed, contended and journal pairs are left alone, everything else is tried, and each ends as its calls say |
| `Migration.ReceiptsTell` | src/dataMigrateCmd.ts:1253-1319 | but for a pair at which an error stopped the pass, "renamed" is recorded exactly for those whose source was there, is gone and has arrived; "skipped-conflict" exactly for those claimed, contended or with a file at the destination, and nothing for the pairs without a source |
| `Migration.CutIsTold` | src/dataMigrateCmd.ts:1288-1302 | the pair at which an error stopped the pass is recorded as a partial copy only if its rename met another device and its source is all there, and whenever its rename did and its files have not all arrived |
| `Migration.HonestNext` | src/dataMigrateCmd.ts:1297-1319 | dealing with a pair keeps all earlier receipts true |
| `Migration.PassedDoesNotMerge` | src/dataMigrateCmd.ts:1253-1283 | no two pairs acted on have one destination |
| `Migration.Journal.Append` | src/dataMigrate.ts:396-439 | the journal is extended by exactly the fresh steps, in one step or not at all |
| `Migration.ConflictsOnce` | src/dataMigrate.ts:404-417 | recorded conflicts are not recorded again |
| `Migration.DestinationHoldsPartialCopy` | src/dataMigrateCmd.ts:566-574 | true exactly if an interrupted copy of the pair was recorded and no move since |
| `Migration.HintSurvivesConflicts` | src/dataMigrateCmd.ts:560-565 | repeated conflicts do not erase the hint |
| `Migration.HintFollows` | src/dataMigrateCmd.ts:560-574 | after a run the hint is there if this run was interrupted copying the pair, gone if it moved the pair, and else as it was |
| `Migration.HintTells` | src/dataMigrateCmd.ts:560-574 | for every pair a run has dealt with, the hint after it is there exactly if it was there before and the source was not taken to its destination, read off the trees |
| `Migration.HintOfCut` | src/dataMigrateCmd.ts:1288-1302 | for the pair that stopped the run, an interrupted copy over devices leaves the hint |
| `Migration.MigrateStateTree` | src/dataMigrate.ts:461-527 | a completed run leaves only absent sources and journaled conflicts; on its own result it changes neither tree nor journal; the receipts are those of the first pairs, read off the tree before, up to an error, which has its cause in a call or in the journal |
| `Migration.StatePairsAreSeparate` | src/dataMigrate.ts:98-112 | the old names and their places do not get in each other's way, in either layout |
| `Migration.OldNamesGo` | src/dataMigrate.ts:98-112 | which old name goes to which place, in either layout |
| `Migration.OldNamesMove` | src/dataMigrate.ts:98-112 | which old names of a root are moved: five, and clones of external repositories where they are its own |
| `Migration.StatePair` | src/dataMigrate.ts:484-503 | one pair: absent, renamed, scaffolding replaced, or a conflict |
| `RootPlan.DataRootPairs` | src/dataMigrate.ts:227-257 | the planner, against winners and losers |
| `RootPlan.DataIsFound` | src/configPaths.ts:258-279 | whatever data there is, resolution looks where it is: the canonical root if it has a tree, else the legacy root if that is there; a root that is set is taken as it is |
| `RootPlan.FlatNamesGo` | src/dataMigrate.ts:119-149 | four names of the flat layout stay, five go to the cache, one to the logs, the rest to the data |
| `RootPlan.NothingDropped` | src/dataMigrate.ts:203-210 | every source that exists is planned as pending |
| `RootPlan.PlannedOnce` | src/dataMigrate.ts:227-257 | no source is planned twice, and of the pairs for one destination only the first is unmarked |
| `RootPlan.WinnerIsFirst` | src/dataMigrate.ts:244-254 | the winner of a destination is its first pending source |
| `RootPlan.LosersAre` | src/dataMigrate.ts:252-254 | exactly the other pending sources are marked, with the winner |
| `RootPlan.PlanIsSafe` | src/dataMigrate.ts:119-149 | planned pairs do not get in each other's way |
| `RootPlan.PendingIs` | src/configPaths.ts:258-279 | whichever root is resolved, pending are the legacy entries and, under the canonical root, flat names left in it |
| `RootPlan.OnlyLegacyPendingIff` | src/dataMigrate.ts:288-299 | exactly the legacy entries are pending, exactly unless the canonical root is in use and has flat names in it |
| `RootPlan.LeftoverIsPlanned` | src/dataMigrate.ts:227-257 | a tree with an outbox beside the queue of the canonical root, which is planned |
| `RootPlan.ResumeIsComplete` | src/dataMigrate.ts:182-227 | after any of the pairs have moved, in any order, the plan has of the legacy root exactly the rest, although resolution may have flipped; nothing else if the canonical root had no flat names in it |
| `MigrateRuns.Migrations` | src/dataMigrateCmd.ts:804-1375 | any number of migrations, each resolved and planned on what the last one left, in whatever layout, each failing or losing power anywhere, with the queue phase until the configuration drops the vault, then the old names, then the pairs: every regular file is whole where it was or where a route takes it, unless it was in the queue and the vault has a file of its name; the journals only grow |
| `MigrateRuns.MigrateData` | src/dataMigrateCmd.ts:1164-1371 | one migration: the plan is made before the queue phase and carried out after it and the renaming of old names; no pair acts on anything the queue phase may have filled; the journal has the receipts of the pairs, which tell what the pass did on the trees; it goes well unless a call fails, a journal write fails, a file does not arrive in full, or, for the queue, a place is taken; old names are never copied |
| `MigrateRuns.QueuePhase` | src/dataMigrateCmd.ts:1170-1209 | the four queue directories move, in order, up to the first error; the queue is claimed exactly if there was one to move; success leaves none; without a failing call an error means that a place was taken or that a copy over devices could not succeed |
| `MigrateRuns.RunPairs` | src/dataMigrateCmd.ts:1229-1371 | the pairs on the disk the other phases left: all are dealt with and nothing fails unless a call for the last of them or the write of the journal does; the receipts tell what happened; every file is kept |
| `MigrateRuns.StatePhase` | src/dataMigrateCmd.ts:1206-1217 | the old names of the root in use: success leaves only absent sources and recorded conflicts, an error has its cause in a call or in the write of the journal; every file is kept |
| `MigrateLaws.KeptTwice` | src/dataMigrateCmd.ts:1170-1371 | what one run keeps and the next keeps, both together keep |
| `MigrateRoutes.RoutesAreClean` | src/dataMigrate.ts:98-149 | the moves of the queue stay out of the way of all others, except that a queue directory may lie in the destination of another move; two moves in a row, such as an old name and then a pair, are a route again |
| `MigrateRoutes.OldNamesMeet` | src/dataMigrate.ts:98-149 | an old name brought up to date in the flat layout goes on from there to the place the current layout has for it |
| `MigrateRuns.PlannedAmong` | src/dataMigrate.ts:227-257 | whichever root is resolved, the plan is drawn from the same moves, without interference and with one winner each |
| `Placement.PlacementIsSafe` | src/dispatch.ts:91-148 | for all interleavings of submitters in one mode and a claiming daemon: each success has its complete ticket exactly once, refusals have none, nothing partial is visible, successes are at most claims plus one |
| `Placement.StepStaysGood` | src/dispatch.ts:91-148 | each step keeps this |
| `Placement.SuccessesAreFew` | src/dispatch.ts:93-99 | successes never outnumber claims by more than one |
| `Placement.LinkSucceeds` | src/dispatch.ts:91-110 | where no ticket of the name is in the inbox, a submitter by hard link places its complete ticket and reports success |
| `Placement.SlotSucceeds` | src/dispatch.ts:111-139 | so does one by the slot file where that is free, and it leaves the slot free |
| `Placement.StaleSlotBlocks` | src/dispatch.ts:111-121 | after an owner died no submission of that name succeeds |
| `Placement.OwnerLeavesSlot` | src/dispatch.ts:122-139 | in any run an action leaves a slot file behind exactly if its owner crashes or fails to remove it |
| `Placement.StaleSlotIsReached` | src/dispatch.ts:111-121 | such a run from an empty inbox |
| `Placement.MixedModesClobber` | src/dispatch.ts:126-132 | with links and slots mixed, a reported ticket can be overwritten |
| `BridgeSweep.AtMostOneInFlight` | src/githubInbox.ts:1014-1039 | in any run of sweeps, crashes, lost labels, claims, requeues and recycled issues at most one ticket is in flight, and all other submissions have ended |
| `BridgeSweep.NeverTwoInFlight` | src/githubInbox.ts:1014-1039 | the same from an issue that has had no ticket |
| `BridgeSweep.AtMostOneUnlessClaimed` | src/githubInbox.ts:729-743 | requeues between the scans do no harm by themselves: it takes a claim behind the second scan as well, as the name is refused while it is in the inbox |
| `BridgeSweep.NeverTwoUnlessClaimed` | src/githubInbox.ts:729-743 | the same from an issue that has had no ticket |
| `BridgeSweep.LabelledIsLeftAlone` | src/githubInbox.ts:69-78 | a labelled issue is submitted no more until its label is removed |
| `BridgeSweep.LabelledHasTicket` | src/githubInbox.ts:1014-1039 | an issue is labelled only if a ticket of it was submitted, in any run |
| `BridgeSweep.RecycledIsResubmitted` | src/githubInbox.ts:69-78 | an issue whose label was removed and that has no ticket left is submitted once more |
| `BridgeSweep.SweepAfterCrashOnlyMarks` | src/githubInbox.ts:1018-1022 | the sweep after a crash marks and does not submit |
| `BridgeSweep.RequeueBetweenScans` | src/githubInbox.ts:729-743 | a requeue between the two scans and a claim slip past both |
| `Scheduler.Scheduler.Run` | src/daemon.ts:439-505 | at every instant of any run the slots are respected, each ticket in flight runs under the repository its claim brought, these repositories are distinct and are the busy ones, a claim starts only with a free slot and no stop, and a sleep only when there is nothing to claim, no free slot or a stop; claims and answers agree one to one, each answer is what the queue offered given the busy repositories at an instant it was looked up, in order; every ticket claimed is started, at most one in once mode, nothing is in flight on return, and it ends only by an error, a stop, the one ticket or the end of the part considered |
| `Scheduler.Scheduler.TopUp` | src/daemon.ts:455-474 | claiming goes on until the slots are full, a stop, an error or a claim that brings nothing |
| `Scheduler.Scheduler.Claim` | src/daemon.ts:456 | the answer is what the queue offers at the instant the claim looks, nothing only if nothing is there or its repository is busy then; the busy set only shrinks until the claim returns, so its ticket is of a free repository |
| `Scheduler.Scheduler.Settle` | src/daemon.ts:466-469 | a settled ticket frees its slot and its repository |
| `Scheduler.SettleFreesItsRepo` | src/daemon.ts:466-469 | removing one repository key is right because keys in flight are distinct |
| `LogTailer.Follow` | src/logReader.ts:109-140 | for any appends and polls the outputs are the non-empty complete lines of everything appended up to the last poll, the carry is the rest |
| `LogTailer.FollowRotated` | src/logReader.ts:119-123 | the same from the start of a new file, if and only if it is smaller than what was read |
| `LogTailer.Tailer.Poll` | src/logReader.ts:113-140 | one poll |
| `LogTailer.LinesContinue` | src/logReader.ts:131-135 | carrying the unfinished line is as good as reading at once |
| `LogTailer.NonEmptyIs` | src/logReader.ts:131-135 | exactly the empty lines are left out, and the others keep their order |
| `LogTailer.ReadTailGivesLast` | src/logReader.ts:58-80 | the last lines, as many as asked for or there are; all of them if asked for none |
| `CachedProbe.Serve` | src/health.ts:178-207 | any callers and answers: starts are a time to live apart, state and starts are those of the events, and the probe ends up wedged exactly if it was or some started probe threw synchronously |
| `CachedProbe.WedgedIff` | src/health.ts:193-207 | a flight that is over and still recorded comes about exactly by a probe that is due, starts and throws synchronously |
| `CachedProbe.WedgedForever` | src/health.ts:191 | from then on nothing starts and the answer stays |
| `CachedProbe.OneThrowWedges` | src/health.ts:193-207 | two calls that show it |
| `CachedProbe.Probe.Call` | src/health.ts:188-191 | served values are younger than the time to live or come from the probe in flight; a probe starts exactly if neither is there |
| `CachedProbe.Probe.Settle` | src/health.ts:193-204 | an answer ends the flight and is cached, a rejection as no |
| `CachedProbe.WindowBound` | src/health.ts:170-177 | a window of length W sees at most W / ttl + 1 starts |

## Left out

What a line says of a member is what its contract leaves open.

- OutboxRuns.Run: the fold speaks of one bridge as the only writer of the issues, comments and labels concerned; edits by people are not part of the model.
- OutboxFlush.Outbox.List: ops queued during a flush are modelled as arriving before the next listing, which reads them for the first time too; op files that do not parse and files taken by another flusher despite the lock are not modelled.
- OutboxFlush.Outbox.PostComment: the scan looks for the content key itself, not for a substring of the body; content hashes are injective; the shortening of long texts is not modelled.
- OutboxFlush.Outbox.CreateIssue: the scan sees all issues of the repository (the code lists the latest 500); the title and the text of an issue are not modelled, nor are labels that are added to it later.
- OutboxFlush.Outbox.ExecutePr: base, title, draft flag, labels and requested reviews of a pull request, the last error and the creation time of an op file.
- OutboxFlush.Outbox.UpgradeRecords: a batch that does not parse or lacks fields counts as one that cannot be read; the listing is of the batches that have stamps.
- OutboxRuns.Drain: no crash, no arrival, no lock held by another flusher, as stated in its requirements.
- Filing.FileFindings: titles, texts, URLs and warnings are not modelled; assumes no overlap with a flush or another filing of the batch (the code accepts that race); an offline scan followed by a live creation can file a finding twice, so uniqueness is claimed for a successful scan only.
- FlushRace.LockedFilesOnce: the lock file is taken to give mutual exclusion and to fall with its holder; src/pidfileLock.ts is not part of this model.
- OpIds.NamesSortInOrder: the random part is never compared, as counters of one process differ; two processes in the same millisecond are not ordered.
- PlanRoundTrip.PlanCommentRoundTrip: a lone surrogate counts as one code unit in the length check, which only decides whether there is a comment.
- ParkedTicket.ParkedTicketRoundTrip: the header and the markers behind the ticket are any text without start markers; `src/submitAsIssue.ts` composes them.
- ApprovalHistory.Sweep: label permissions are a verdict of the timeline; deletion of comments, the compilation of a plan set and the edited-after-label guard of issue bodies are not modelled. The times of a listing are compared as whole units, so that events of one unit are not told apart.
- Mover.Disk.VerifyCopy: only regular files are verified and conserved, as in the code; symbolic links, modes and times are not. A dangling link at the destination counts as existing.
- Mover.Disk.MovePair: a power loss tears or takes unsynced files only; directory entries are assumed to be durable. The code syncs the destination and the directories that directly hold a file, not the directories between them nor the one that holds the destination, before it deletes the source; `Mover.EntriesSyncedIff` says when that misses an entry, and what is lost then is not modelled.
- Mover.Disk.Rename: a path below a regular file counts as a directory that can be made; a directory that loses its last entry to a rename is not told apart from one that is gone.
- Migration.MovePairs: the pair of the journal itself is merged by the code and left alone here; so are the stale-claim sweep, the config rewrite, the path rewrite, the removal of empty legacy roots and the skills link.
- MigrateRuns.MigrateData: the vault lies apart from the data roots. A file that was in the queue and shares its name with one of the vault is exempt from conservation, also where the queue phase could rename.
- Migration.Run: the gh-credentials pair goes through the same mover and journal and can be appended to the pairs; a failed journal write after a failed move is only printed by the code, and only leaves the journal as it was here.
- RootPlan.PendingIs: the layout marker of a root, home expansion and the state-tree part of the pending list, which is a plain filter.
- Placement.PlacementIsSafe: all submitters are on one kind of file system; the hidden file of a submitter that dies stays behind.
- BridgeSweep.AtMostOneInFlight: nothing but the bridge submits tickets of the issue, and no requeue falls between the two directory scans, which one process runs without a pause (`BridgeSweep.AtMostOneUnlessClaimed` gets by with less); lifecycle labels are told apart from no label only.
- Scheduler.Scheduler.Run: time, logging, the sweep of the bridge and live configuration; the budget bounds the awaits considered, so that every finite part of a run is covered.
- LogTailer.Tailer.Poll: text of one byte per character, whole reads, and no parsing of lines; a replaced file at least as long as what was read goes unnoticed, as in the code.
- CachedProbe.Serve: values are told apart by the flight they come from, not by promise identity.
- The scanners named `allFencedBlocks`, `replaceFencedBlock` and the rendering of findings: no harder than the readers modelled.
- Spawning git and gh, HTTP, the terminal interface, doctor, configuration tables, prompts: plumbing without deep properties.
