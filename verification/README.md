# Orchestrator models

Models of the issue orchestrator, and proofs of what it promises across crashes. The orchestrator takes
graphed issues through implementation, QA, adversarial review and landing. It keeps its authority in a
table of issue rows, works on a jj repository whose `main` bookmark is trunk, posts to a tracker, and may
be killed between any two durable writes.

| module | models |
|---|---|
| `State` | phases, substates and the places an issue can be in |
| `CommitGraph` | the commit graph, ancestry, revsets, visible commits and rebase |
| `Landing`, `LandingEnds` | local landing: the code, and where it comes to |
| `CrashSchedules`, `Trunk`, `TrunkMerges` | one landing under crashes, and many landings on one trunk |
| `Branch`, `RemoteLanding`, `RemoteEnds` | branch names, landing by pull request, and where that comes to |
| `Recovery`, `RecoveryTable` | the recovery pass, and what it makes of each place an issue can be in |
| `History`, `Drive`, `DriveEnds`, `Pump` | what happens to issues, what may happen to one, how its turn ends, and the drive loop |
| `InboundGate`, `GateRuns` | the approval gate for issues submitted by peers, and single turns through it |
| `Answers`, `AnswerTimes` | answering those peers, and when |
| `Findings`, `FindingLines`, `Artifacts`, `PlanTable`, `Ledger` | worker artifacts, the comments planned from them line by line, and posting them |
| `Mirror`, `Utf8` | the event log beside the event table |
| `QaCapture` | QA output capture, the sandbox handshake and the verdict |
| `Text`, `Words`, `WorkspaceNames` | text primitives and the workspace name codec |

Where the code changes state step by step the model does too: a class holds the state, and its methods are
proved against a function or a step relation that says which durable states are passed through. The crash
theorems are then about that function: a crash keeps the durable part of any intermediate state and
loses the rest. What an operation comes to is stated a second time without its steps (`LandingEnds`,
`RemoteEnds`, `RecoveryTable`, `DriveEnds`, `GateRuns`, `AnswerTimes`, `PlanTable`). Runs of several actors are sequences of events, each of which one actor can take alone.

## Results that differ from the plain reading

- Landing is not the same under every crash schedule. `CrashIndependence` says exactly when it is. The pump
  lands by commit id although comments in `landing.rs` speak of a change id; by commit id a resume after
  a real rebase rebases again.
- `main` can be moved to a conflicted commit, in exactly the case `BookmarkResumeConflicts` names: a resume
  at the bookmark move does not look for conflicts again.
- One recovery pass is not always enough. Two are, and `OnePassSufficesUnlessConflicted` says when one is.
- An error in a landing can come after its rebase has committed; recovery then quarantines the issue over a
  rewritten change (`RewrittenThenFailed`), which `FailedTurnIsSafe` shows to be harmless to `main`.
- Recovery lands converged issues without consulting the approval gate. `RecoveryIsUngatedExactly` says
  when that lets an unapproved change through, and `StepIsVettedExactly` when it lets an unreviewed one
  through, for any issue.
- An ended inbound issue can be left neither answered nor owed an answer, by a crash before it is armed or
  armed again (`AnsweredAcrossCrashes`).
- A comment can be posted more than once: exactly once more for every crash between post and record.
- Arming an answer again allows one attempt beyond the bound of twelve (`RearmPassesTheBound`).
- A torn last line of the event log is said to be invisible to readers; if the tear splits a multi-byte
  character the whole file is unreadable until it is rebuilt (`TornMirror`).
- An issue can be at pr-open with no event announcing its pull request, if the process stops between the two
  writes, and only then (`OnePullRequestPerHead`, `UnannouncedPullRequest`).
- The QA and adversary budgets share the round column, so a QA failure after two adversary rounds is final
  (`OnQaFail`).
- A passing script whose output does not fit the 512 KiB capture together with the handshake line is poison,
  unless what is kept of it begins like a handshake line (`SandboxIsAtFaultExactly`).
- The cut of a branch slug is described as at or before the cap, but a dash exactly at the cap is not used
  (`CutDiffersExactly`).
- A replay in recovery posts follow-up notes without raising the follow-up label (`LabelIsRaisedExactly`).
- Workspace names are documented as always safe path components. Generated ones are; parsed ones are exactly
  when their issue segment is (`SafeExactly`).

## Assumptions

- SHA-256 (FIPS 180-4, section 6.2) is taken to be injective, so a ledger key holds the content.
- JSON is a parameter: decoding undoes encoding, an encoding holds no line break, is well-formed UTF-8, and
  no proper prefix of it decodes.
- Each write of a row is atomic. Bytes in a file or a stream are characters of the same code.
- Workers, QA, adversaries, the network and the clock answer anything; the clock does not run backwards.
- How a rebase merges contents is a function of the commit and its new parents. A commit that `main` already
  stands on is rebased onto `main` like any other: it is copied onto it, its descendants are copied after
  it, and the old commits that the copies descend from stay visible.
- In recovery, operations of a local landing can fail; row writes outside a landing, forgetting a workspace
  and dropping a worker row do not.

## Model

| member | source | states |
|---|---|---|
| `CommitGraph.AncestryStable` | `crates/jj_api/src/revset.rs:120-135` | commits are only ever added, and adding them never changes which older commit is an ancestor of which |
| `CommitGraph.Resolve` | `crates/jj_api/src/revset.rs:91-103` | a revset resolves to a commit exactly when it names that one commit; otherwise it resolves to nothing |
| `CommitGraph.MoveMain` | `crates/jj_api/src/bookmark.rs:57-77` | moving `main` makes its target and all its history visible and touches no commit and no working copy |
| `CommitGraph.RewriteCopies` | `crates/jj_api/src/rebase.rs:21-59` | every rewritten commit keeps its change id, is in conflict iff its contents are on the new parents, and every descendant hangs from the copies of its parents |
| `CommitGraph.RewriteAbove` | `crates/jj_api/src/rebase.rs:21-59` | every rewritten commit stands on the rewritten source |
| `CommitGraph.RebaseOntoMainAdvances` | `crates/jj_api/src/rebase.rs:21-59` | rebasing anything onto `main`, even history of `main` itself, only carries `main` forward |
| `CommitGraph.RebaseLeavesMain` | `crates/jj_api/src/rebase.rs:21-59` | `main` stays where it is iff the rebased commit is not in its history |
| `CommitGraph.RebaseHidesSource` | `crates/jj_api/src/rebase.rs:21-59` | after a rebase exactly the untouched visible commits and the rewritten copies are visible |
| `CommitGraph.RebaseMovesChange` | `crates/jj_api/src/rebase.rs:21-59` | a change id that named the source names the rewritten commit afterwards |
| `CommitGraph.RebaseCarries` | `crates/jj_api/src/rebase.rs:21-59` | `main` and every working copy on the rewritten work end on a copy of the same change above the rewritten source; all others stay |
| `Landing.StepTerminates` | `crates/orchestrator/src/landing.rs:210-413` | no operation of the landing code leads back to an earlier one |
| `Landing.StepAdvancesMain` | `crates/orchestrator/src/landing.rs:210-413` | every single operation, with any revset, only adds commits and moves `main` forward or not at all |
| `Landing.TryAdvancesMain` | `crates/orchestrator/src/landing.rs:210-413` | so does a landing any of whose operations fails: what it leaves has commits added and `main` moved forward or not at all |
| `Landing.TryIsRun` | `crates/orchestrator/src/landing.rs:210-413` | a landing that reports no error is the undisturbed one |
| `Landing.RunAdvancesMain` | `crates/orchestrator/src/landing.rs:210-413` | a whole landing from any point does the same |
| `Landing.Lander.LandLocal` | `crates/orchestrator/src/landing.rs:145-160` | starts the substate machine at its top and passes through exactly its durable states, in order, up to the first operation that fails |
| `Landing.Lander.RetryLandAfterMerge` | `crates/orchestrator/src/landing.rs:177-194` | records the bookmark step first, then makes the guarded move to the merged commit |
| `Landing.Lander.ResumeFrom` | `crates/orchestrator/src/landing.rs:210-255` | re-enters at the persisted substate; a crash while merging parks; any other substate is an error |
| `Landing.Lander.RebaseStep` | `crates/orchestrator/src/landing.rs:270-327` | records the rebase before doing anything |
| `Landing.Lander.RebaseUnlessDescendant` | `crates/orchestrator/src/landing.rs:287-291` | a change already on or above `main` is not rewritten again |
| `Landing.Lander.RebaseOntoMain` | `crates/orchestrator/src/landing.rs:287-291` | otherwise it is rebased and the rewritten commit is the target |
| `Landing.Lander.AfterRebase` | `crates/orchestrator/src/landing.rs:292-327` | a conflicted result waits for a Merger, a clean one goes to the bookmark move by commit id |
| `Landing.Lander.BookmarkStep` | `crates/orchestrator/src/landing.rs:333-342` | re-derives the target from the revset without looking for conflicts again |
| `Landing.Lander.MoveStep` | `crates/orchestrator/src/landing.rs:351-395` | moves `main` only forward, is a no-op when it is there already, and parks otherwise |
| `Landing.Lander.MergedStep` | `crates/orchestrator/src/landing.rs:398-413` | ends at merged |
| `LandingEnds.MoveEndsExactly` | `crates/orchestrator/src/landing.rs:351-395` | with no failing call the move ends merged with `main` at the target iff `main` is an ancestor of the target, and otherwise at awaiting-human-merge with the repository untouched; what is reported says which |
| `LandingEnds.LandingEndsExactly` | `crates/orchestrator/src/landing.rs:270-395` | a whole landing ends, for every repository: in an error when the change does not resolve; waiting for a Merger on the conflicted commit; merged with `main` at the change or its rewrite; or parked when that is no fast-forward |
| `LandingEnds.BookmarkEndsExactly` | `crates/orchestrator/src/landing.rs:333-395` | a resume past the rebase moves to whatever the revset names, conflicted or not, merged or parked by the same test |
| `LandingEnds.OtherResumesEndExactly` | `crates/orchestrator/src/landing.rs:210-255` | a moved bookmark is only recorded merged, a crash while merging parks, and any other substate is an error that changes nothing |
| `CrashSchedules.CrashIndependence` | `crates/orchestrator/src/landing.rs:210-395` | landing ends with the same phase, `main` and repository under every schedule of crashes and resumes iff the change does not resolve, or it lands without conflict and the revset still finds it after the rewrite |
| `CrashSchedules.FailureIsACrash` | `crates/orchestrator/src/landing.rs:210-413` | a failing operation leaves exactly what a crash before it would leave |
| `CrashSchedules.ConflictsExactly` | `crates/orchestrator/src/landing.rs:270-327` | a landing ends waiting for a Merger iff its change conflicts on `main` and nothing fails before that is recorded; a resume past the rebase never does |
| `CrashSchedules.OnTrackRecovers` | `crates/orchestrator/src/landing.rs:210-255` | completing from memory and completing after a crash at the same point come to the same end |
| `CrashSchedules.OnTrackMerges` | `crates/orchestrator/src/landing.rs:210-395` | such a landing ends merged, with `main` at the commit the revset names |
| `CrashSchedules.CommitIdLandingRests` | `crates/orchestrator/src/landing.rs:210-395` | landing by commit id under any crashes ends merged, parked for a human or waiting for its Merger, and never rewinds `main` |
| `CrashSchedules.CrashAfterRebase` | `crates/orchestrator/src/landing.rs:287-291` | a crash right after a rebase changes the end when the revset is a commit id, or when `main` already stood on the change |
| `CrashSchedules.RebasesAgain` | `crates/orchestrator/src/landing.rs:287-291` | a resume by commit id after a real rebase rebases a second time |
| `CrashSchedules.RebaseSplitsChange` | `crates/orchestrator/src/landing.rs:287-291` | rebasing a change `main` already stands on leaves its change id naming two commits |
| `CrashSchedules.ConflictIsParked` | `crates/orchestrator/src/landing.rs:232-250` | a restart parks a conflicted landing that the crash-free run leaves to its Merger |
| `Trunk.MainOnlyAdvances` | `crates/orchestrator/src/landing.rs:210-395` | for any number of issues and any interleaving of landings, failing operations, Merger retries, worker commits, phase writes and crashes, the successive values of `main` form an ancestor chain |
| `Trunk.MainIsNeverConflicted` | `crates/orchestrator/src/pump.rs:1679-1894` | when issues land their own commits by commit id and a resumed bookmark move names a clean one, `main` never names a conflicted commit and holds no work of an issue that has not passed its rebase |
| `Trunk.DescendantsAreOwn` | `crates/orchestrator/src/pump.rs:982` | outside trunk, whatever stands on an issue's work is that issue's work |
| `Trunk.RebaseKeepsApart` | `crates/orchestrator/src/landing.rs:270-327` | rebasing one issue's work keeps the issues apart and leaves `main` alone |
| `Trunk.AdvanceTakesOwn` | `crates/orchestrator/src/workspace.rs:516-566` | moving `main` to an issue's commit takes in that issue's work and nobody else's |
| `Trunk.OrderIsKept` | `crates/orchestrator/src/pump.rs:1492-1586` | every step of every actor keeps the separation of issues |
| `TrunkMerges.MergedIsInTrunk` | `crates/orchestrator/src/landing.rs:351-413` | over every run, an issue that a landing, a retry or a restart recorded as merged has made a guarded move to some commit, and that commit is in the history of `main` |
| `TrunkMerges.MergedIsOwn` | `crates/orchestrator/src/pump.rs:1679-1894` | and under the orchestrator's discipline that commit is the issue's own work and not conflicted |
| `Trunk.BookmarkResumeConflicts` | `crates/orchestrator/src/landing.rs:333-342` | a resumed bookmark move puts `main` on a conflicted commit iff the revset names a conflicted commit that stands on `main` |
| `Trunk.ChangeIdResumeLandsConflict` | `crates/orchestrator/src/landing.rs:177-194` | landing by change id, the whole run: start, conflict, the clean commit of a Merger, its recorded retry, a crash before the move, and a resume that puts `main` on the conflicted rebase |
| `RemoteLanding.FindPr` | `crates/orchestrator/src/landing.rs:934-956` | an open pull request for the head is found iff there is one |
| `RemoteLanding.RemoteLander.ResumeRemoteFrom` | `crates/orchestrator/src/landing.rs:588-620` | re-enters at the persisted substate, re-deriving the url when the pull request was already recorded |
| `RemoteLanding.RemoteLander.PushStep` | `crates/orchestrator/src/landing.rs:625-650` | records, points the branch, pushes, records, in that order |
| `RemoteLanding.RemoteLander.PrStep` | `crates/orchestrator/src/landing.rs:664-687` | adopts an open pull request and creates one only when there is none |
| `RemoteLanding.RemoteLander.CompletePrOpen` | `crates/orchestrator/src/landing.rs:699-711` | records pr-open, then writes the event, then reaps the local bookmark |
| `RemoteLanding.OnePullRequestPerHead` | `crates/orchestrator/src/landing.rs:588-711` | over every run of any issues with failing calls, lost replies, crashes, resumes and changed titles: at most one pull request per branch; an issue past its push has its branch on the remote, at the reviewed commit; at pr-open a pull request exists, and it was announced iff the process is not between the two writes and did not stop there; every announced url is a real one |
| `RemoteLanding.UnannouncedPullRequest` | `crates/orchestrator/src/landing.rs:699-711` | the run on which an issue is at pr-open for good and no event says so |
| `RemoteLanding.OperateLeavesMain` | `crates/orchestrator/src/landing.rs:588-711` | no operation writes `main`, here or on the remote |
| `RemoteLanding.OrderIsKept` | `crates/orchestrator/src/recovery.rs:984-1051` | every landing operation, resume and outside event keeps those facts |
| `RemoteEnds.PathEnds` | `crates/orchestrator/src/landing.rs:588-711` | what the class leaves is where the undisturbed machine ends |
| `RemoteEnds.LandsExactly` | `crates/orchestrator/src/landing.rs:555-687` | from the top: pr-open, the remote branch at the reviewed commit, the pull request listed first for the branch adopted or one opened if there was none, one event naming it, the bookmark gone; without a commit it pushes the branch as it stands or stops |
| `RemoteEnds.ResumesExactly` | `crates/orchestrator/src/landing.rs:588-711` | the later substates push nothing again and open nothing when a pull request is there; one recorded and no longer found is an error, and so is any other substate |
| `RemoteEnds.SchedulesEndTheSame` | `crates/orchestrator/src/landing.rs:588-711` | from any position past the pointed branch every schedule of crashes and restarts ends at pr-open with the same pull requests and remote branches |
| `RemoteEnds.CrashesMatterExactly` | `crates/orchestrator/src/landing.rs:588-687` | from the top the same holds iff the first crash does not fall between recording the start and pointing the branch, or the branch was at the reviewed commit already |
| `Recovery.ScanFrom` | `crates/orchestrator/src/recovery.rs:930-960` | the landing change found is the working copy of a registered implementing workspace of this issue and round |
| `Recovery.WritesOnlyItsOwn` | `crates/orchestrator/src/recovery.rs:513-687` | one issue's turn, quarantine included, writes no other issue's row, worker rows or tracker state |
| `Recovery.OneTurnSettles` | `crates/orchestrator/src/recovery.rs:250-393` | after its turn every issue, from every pairing of phase and substate, has nothing left to do or has just started waiting for a Merger |
| `Recovery.TwoPassesSuffice` | `crates/orchestrator/src/recovery.rs:466-506` | a third pass changes no row, no worker row, no workspace and no commit |
| `Recovery.TurnConflictsExactly` | `crates/orchestrator/src/recovery.rs:513-687` | a turn leaves its issue waiting for a Merger iff it starts or resumes, before the rebase, the landing of a change that conflicts |
| `Recovery.OnePassSufficesUnlessConflicted` | `crates/orchestrator/src/recovery.rs:466-506` | a second pass changes nothing iff no turn of the first, at the node it starts from, lands a change that conflicts on `main` |
| `Recovery.OnePassCanFallShort` | `crates/orchestrator/src/recovery.rs:466-506` | a node that one pass does not settle |
| `Recovery.FailedTurnIsSafe` | `crates/orchestrator/src/recovery.rs:484-500` | a turn that stops at an error leaves its issue quarantined and at rest, its workers and every other row alone, commits only added and `main` forward; the repository differs only if an operation of a landing failed |
| `Recovery.RewrittenThenFailed` | `crates/orchestrator/src/landing.rs:287-327` | when the write after a rebase fails the change stays rewritten under the quarantined issue |
| `Recovery.TurnAdvancesMain` | `crates/orchestrator/src/recovery.rs:513-687` | a turn, failing or not, moves `main` only forward, and only under the three plans that land locally |
| `Recovery.PassAdvancesMain` | `crates/orchestrator/src/recovery.rs:466-506` | a whole pass only moves `main` forward |
| `Recovery.Recoverer.RecoverWith` | `crates/orchestrator/src/recovery.rs:466-506` | the pass over listed issues and workers, with quarantine on error, is one turn after another |
| `Recovery.Recoverer.RecoverIssue` | `crates/orchestrator/src/recovery.rs:513-687` | carries out the table's plan, or stops at an error with exactly what the plan had done by then |
| `Recovery.Recoverer.Resume` | `crates/orchestrator/src/recovery.rs:573-637` | merging reaps the Merger and parks; a moved bookmark completes; otherwise the stored change, or the scanned one, is landed |
| `Recovery.Recoverer.CleanCrashed` | `crates/orchestrator/src/recovery.rs:749-787` | forgets the workspaces, drops the worker rows and rolls the issue back to implementing |
| `Recovery.Recoverer.ReapBeyond` | `crates/orchestrator/src/recovery.rs:679-684` | extra worker rows and their workspaces go, the first stays |
| `Recovery.Recoverer.LandingChangeRevset` | `crates/orchestrator/src/recovery.rs:930-960` | scans the workspaces in listing order for the first match |
| `Recovery.TurnClearsFlight` | `crates/orchestrator/src/recovery.rs:513-687` | no turn leaves a worker, a QA run, a review, a convergence or a half-done landing behind |
| `Recovery.TurnReenters` | `crates/orchestrator/src/recovery.rs:573-656` | resuming or starting a local landing comes to the place, `main` and commits that the crash schedules say a re-entry comes to |
| `Recovery.FaultLeavesRepo` | `crates/orchestrator/src/recovery.rs:466-506` | a landing that reports an error has left the repository as it was, unless an operation failed |
| `RecoveryTable.RestIsLeftAlone` | `crates/orchestrator/src/recovery.rs:250-393` | graphed issues, implementing issues nobody works on and ended issues keep their row; at most stray workers after the first go |
| `RecoveryTable.InterruptedStartsOver` | `crates/orchestrator/src/recovery.rs:749-787` | a worker without DONE, a QA run and a review go back to implementing with every worker gone, exactly their workspaces forgotten and nothing replayed, whatever a replay would answer |
| `RecoveryTable.FinishedIsReplayed` | `crates/orchestrator/src/recovery.rs:811-875` | a worker with DONE has its artifacts posted first; if that fails the issue is quarantined as it stands |
| `RecoveryTable.LandingIsTakenUp` | `crates/orchestrator/src/recovery.rs:573-656` | a landing goes on from the stored change or the scanned one at the substate it had; without either it is quarantined; its workers after the first go iff it reports no error |
| `RecoveryTable.PastLandingIsFinished` | `crates/orchestrator/src/recovery.rs:573-637` | a moved bookmark is recorded merged; what waited for a Merger is parked and its workers go |
| `RecoveryTable.RemoteLandingIsResumed` | `crates/orchestrator/src/recovery.rs:984-1051` | a remote landing ends at pr-open or quarantined |
| `RecoveryTable.SentAnswerIsClosed` | `crates/orchestrator/src/recovery.rs:513-687` | an answer that was sent has its issue closed, as far as the tracker answers |
| `RecoveryTable.ForeignIsQuarantined` | `crates/orchestrator/src/recovery.rs:250-393` | every other pairing is quarantined with nothing else touched |
| `RecoveryTable.QuarantinedExactly` | `crates/orchestrator/src/recovery.rs:484-500` | a turn ends at orchestrator-error iff it began there, or its pairing is none the orchestrator writes, or a call its recovery needs failed |
| `RecoveryTable.LandingWorkspaceExactly` | `crates/orchestrator/src/recovery.rs:930-960` | the workspaces that qualify are exactly those whose names were generated for an implementer of this issue and round |
| `RecoveryTable.ScanFindsFirst` | `crates/orchestrator/src/recovery.rs:930-960` | the scan finds the first listed one that is registered, and nothing only if there is none |
| `RecoveryTable.OnlyItsOwnRoundFits` | `crates/orchestrator/src/recovery.rs:930-960` | a name generated for another phase, another round or another decimal id never qualifies |
| `Drive.PlayIsProper` | `crates/orchestrator/src/pump.rs:905-1355` | driving or resuming an issue, from any row and cut off anywhere: from review a change reaches landing only right after QA passed on it and exactly `n_rounds` adversaries each left a verified sentinel with no findings, all on that change; every other landing was approved; a landing of a peer's issue is tried only if the reading just before found the approval; a Merger is charged before it is spawned and its commit retried only after QA passed on it |
| `Drive.GroundedNext` | `crates/orchestrator/src/pump.rs:1445-1482` | at every point the streak counts exactly the clean rounds on the change in hand since QA passed on it |
| `Drive.PlayKeepsBooks` | `crates/orchestrator/src/pump.rs:905-947` | one drive spawns one implementer for each round it advances, and one more if it ends the issue; at most `n_rounds` adversaries for each; one Merger at most; a requeue leaves fewer than three rounds used |
| `Drive.ResumeKeepsBooks` | `crates/orchestrator/src/pump.rs:798-873` | resuming a parked issue spawns no implementer or adversary and at most its one Merger, and leaves it terminal |
| `Drive.CrashesKeepOrder` | `crates/orchestrator/src/pump.rs:962-981` | across any number of crashes, in processes that find any rows, all of the above still holds, and no issue ever gets more Mergers than the cap |
| `Drive.CrashLeavesStretch` | `crates/orchestrator/src/pump.rs:962-981` | a drive cut anywhere is still one of the drives this covers |
| `Drive.PlayedPrefix` | `crates/orchestrator/src/pump.rs:905-947` | whatever has happened to an issue, every part of it up to then could happen |
| `DriveEnds.EndsExactly` | `crates/orchestrator/src/pump.rs:905-1586` | where a turn ends: merged iff a landing merged or a Merger's retry moved `main`; at pr-open iff a pull request was opened; left to a human iff landing was refused or its one Merger was spent, failed, was rejected by QA or was refused; parked, on the change handed over, iff a peer's issue was looked at and not approved; requeued iff QA failed with rounds to spare; given up in the listed cases; and what else is in the row |
| `DriveEnds.StopsExactly` | `crates/orchestrator/src/pump.rs:905-1894` | and it ends there iff its last event is one of those: a first conflict goes to a Merger, a passed change to review, findings back to the next round |
| `DriveEnds.SentBackExactly` | `crates/orchestrator/src/pump.rs:1363-1415` | within a turn an issue is sent back to implementing iff a review had findings and rounds were left, with the next round and no streak |
| `DriveEnds.PlayIsPlaced` | `crates/orchestrator/src/pump.rs:905-1894` | at every point between two events the row is at the phase the code has written |
| `History.ConcatKeepsProper` | `crates/orchestrator/src/pump.rs:905-947` | what justifies an event is not lost when histories are strung together |
| `History.MergersWithinCharges` | `crates/orchestrator/src/pump.rs:1686-1706` | at every point of every history an issue has had no more Mergers than charges |
| `Pump.DriveKeepsOrder` | `crates/orchestrator/src/pump.rs:905-947` | driving one issue keeps every issue within its budgets and leaves it one turn fewer |
| `Pump.ResumeKeepsOrder` | `crates/orchestrator/src/pump.rs:798-873` | so does looking at a parked one |
| `Pump.BuildPump.RunUntilIdle` | `crates/orchestrator/src/pump.rs:607-626` | always stops, with every issue terminal; from fresh rows each issue has had at most 6 implementers, 6 times `n_rounds` adversaries and 1 Merger, every landing was earned or approved, and no peer's issue was landed unapproved |
| `Pump.BuildPump.Tick` | `crates/orchestrator/src/pump.rs:518-562` | every tick makes progress or leaves nothing drivable; the first `budget` drivable issues are driven and no other, in ascending order; every parked issue gets its look and no other terminal issue is touched |
| `Pump.BuildPump.DriveSome` | `crates/orchestrator/src/pump.rs:523-543` | drives the first `budget` drivable issues in ascending order, each to the end of its turn, and no other |
| `Pump.BuildPump.DriveIssue` | `crates/orchestrator/src/pump.rs:905-947` | loops over implementer and review rounds until the turn ends, always within its budgets |
| `Pump.BuildPump.RunImplementerRound` | `crates/orchestrator/src/pump.rs:962-1152` | forgets any old streak before the implementer is spawned; only a committed change that QA passes goes on to review |
| `Pump.BuildPump.ReviewOnce` | `crates/orchestrator/src/pump.rs:1213-1320` | the verdict is read strictly from the sentinel |
| `Pump.BuildPump.RunAdversaryReview` | `crates/orchestrator/src/pump.rs:1172-1355` | reviews one change until it converges, is sent back or is given up; the exit after the loop is never reached when 1 <= n_rounds <= 6 |
| `Pump.BuildPump.OnAdversaryFindings` | `crates/orchestrator/src/pump.rs:1363-1415` | findings go back to implementing with the next round and no streak, unless that would be the seventh round |
| `Pump.BuildPump.OnCleanRound` | `crates/orchestrator/src/pump.rs:1445-1465` | the streak grows by one and decides convergence |
| `Pump.BuildPump.OnQaFail` | `crates/orchestrator/src/pump.rs:2032-2079` | requeues iff fewer than three rounds are used up, whoever used them |
| `Pump.BuildPump.Land` | `crates/orchestrator/src/pump.rs:1492-1586` | an issue is parked, on exactly the change it was handed, iff it is inbound and its labels show no approval; otherwise it ends as landing does, or with its Merger |
| `Pump.BuildPump.ResolveConflictWithMerger` | `crates/orchestrator/src/pump.rs:1679-1894` | with the budget spent it parks and does nothing; otherwise one Merger is charged for and spawned, and merges only what QA passes and still fast-forwards |
| `Pump.BuildPump.ResumeApprovedInbound` | `crates/orchestrator/src/pump.rs:798-873` | every parked issue is looked at and no other; an approved one lands the change stored at parking |
| `Pump.BuildPump.ResumeOne` | `crates/orchestrator/src/pump.rs:801-847` | approval and a stored change are both needed, and landing asks for the approval again |
| `Pump.BuildPump.Ingest` | `crates/orchestrator/src/pump.rs:639-664` | new issues enter at graphed with nothing spent, each once; known issues are untouched |
| `Pump.BuildPump.DrivableIssueIds` | `crates/orchestrator/src/pump.rs:733-743` | exactly the drivable issues, in ascending order |
| `InboundGate.Labels.SanitizeInbound` | `crates/orchestrator/src/pump.rs:697-724` | removes exactly the labels a peer must not set |
| `InboundGate.TrustedLabelsStay` | `crates/orchestrator/src/pump.rs:242-247` | the two reserved labels the orchestrator itself relies on are never stripped |
| `InboundGate.OnlyApprovedLands` | `crates/orchestrator/src/pump.rs:1492-1524` | with no forgotten workspace left behind, a peer's issue reaches landing, merged or pr-open only after a human's approval label, whatever labels it was created with and wherever crashes fall; once parked, what lands is what was stored |
| `InboundGate.StepIsGuarded` | `crates/orchestrator/src/pump.rs:1980-2015` | every durable step of adoption, driving, discarding failed work, parking, approval and recovery keeps the gate shut |
| `InboundGate.RecoveryIsUngatedExactly` | `crates/orchestrator/src/recovery.rs:647-656` | a restart hands an unapproved issue to landing iff it finds a forgotten implementing workspace of its round |
| `InboundGate.UnregisteredCrashLands` | `crates/orchestrator/src/pump.rs:982-1005` | a crash between preparing a workspace and registering its worker leads to an unapproved landing |
| `InboundGate.TestedCrashLands` | `crates/orchestrator/src/pump.rs:1030-1200` | so does a crash between dropping the worker row and forgetting the workspace after QA answered, so that work that failed QA can be what lands |
| `InboundGate.StepIsVettedExactly` | `crates/orchestrator/src/recovery.rs:647-656` | for any issue, local or not: a step hands an unreviewed change to landing iff it is a restart that finds one in a forgotten workspace of the round |
| `InboundGate.OnlyReviewedLands` | `crates/orchestrator/src/recovery.rs:647-656` | otherwise every change handed to landing is one review found good, wherever crashes fall |
| `GateRuns.TurnEndsExactly` | `crates/orchestrator/src/pump.rs:962-1586` | one undisturbed turn of any issue, whatever QA and review say: its workspace is forgotten, and the change is handed to landing iff both are satisfied and a peer's issue carries the approval label; without the label that change is parked |
| `GateRuns.StalledTurnEnds` | `crates/orchestrator/src/pump.rs:962-1030` | a worker that stalls leaves an issue given up, nothing handed over and no workspace |
| `GateRuns.AdoptedExactly` | `crates/orchestrator/src/pump.rs:639-724` | adoption takes from a peer's issue exactly the listed labels its peer must not set, and does not look at a local issue's |
| `GateRuns.ParkedStaysParked` | `crates/orchestrator/src/pump.rs:798-873` | without a human's label no run, crashes and restarts included, moves a parked issue |
| `GateRuns.ApprovedLands` | `crates/orchestrator/src/pump.rs:798-873` | with it the issue lands, and what lands is the stored change |
| `GateRuns.RestartEndsExactly` | `crates/orchestrator/src/recovery.rs:573-787` | a restart starts interrupted work over, hands over what had converged or was landing, or gives it up when there is nothing to land, and leaves every other issue alone |
| `GateRuns.CutRestartsEndTheSame` | `crates/orchestrator/src/recovery.rs:749-787` | a restart that dies in its cleaning up is made up for by the next |
| `Answers.Jitter` | `crates/orchestrator/src/answer.rs:152-159` | the jitter is never negative and below a quarter of the interval |
| `Answers.JitterIsBounded` | `crates/orchestrator/src/answer.rs:152-159` | four jitters fit in an interval |
| `Answers.Machine.OnIssueTerminal` | `crates/orchestrator/src/answer.rs:290-345` | arms an inbound issue at its first terminal phase and leaves everything else alone |
| `Answers.Machine.LandApproved` | `crates/orchestrator/src/pump.rs:829-870` | an answer still owed is armed again after the landing cleared it |
| `Answers.Machine.DeliverPending` | `crates/orchestrator/src/answer.rs:392-484` | the sweep loop, with its cap, bound and rate limit, contacts and updates exactly the rows its specification says |
| `Answers.Machine.AttemptDelivery` | `crates/orchestrator/src/answer.rs:488-558` | each way an attempt can go updates the row its own way |
| `Answers.Machine.RecordSuccess` | `crates/orchestrator/src/answer.rs:563-595` | an accepted answer is recorded as sent, then labelled and closed |
| `Answers.Machine.RecordFailure` | `crates/orchestrator/src/answer.rs:601-643` | a failed one counts one attempt, with a blocker the first time |
| `Answers.Machine.RecordInvalidSlug` | `crates/orchestrator/src/answer.rs:655-697` | an unroutable one is retired at the bound, with a blocker the first time |
| `Answers.RetiredIsNeverDue` | `crates/orchestrator/src/answer.rs:655-697` | an unroutable answer is due to no later sweep, whatever the time, and no count of attempts is lost |
| `Answers.SweepIsPointwise` | `crates/orchestrator/src/answer.rs:392-484` | a sweep changes only due rows, each as its own attempt does |
| `Answers.FanOutIsCapped` | `crates/orchestrator/src/answer.rs:402-484` | a sweep puts at most two issues on the wire, plus one for every attempt whose bookkeeping failed |
| `Answers.AnsweredExactlyOnce` | `crates/orchestrator/src/pump.rs:518-562` | over every crash-free run of drives, approvals and sweeps no peer takes two answers for one issue, and an inbound issue that has ended is either answered or still owed |
| `Answers.AnsweredAcrossCrashes` | `crates/orchestrator/src/pump.rs:518-562` | across crashes answers and debts balance: one answer more for each crash between acceptance and record, one debt less for each crash before arming or re-arming; an ended inbound issue is left with neither iff those losses were not made up for |
| `Answers.CrashWindows` | `crates/orchestrator/src/pump.rs:829-870` | both windows do lose an answer, and the third repeats one |
| `Answers.NoticesAreExact` | `crates/orchestrator/src/answer.rs:563-697` | a sweep closes an issue iff its answer was sent and posts its one blocker iff it leaves pending unanswered, as far as that bookkeeping went through |
| `Answers.ApprovalRearms` | `crates/orchestrator/src/pump.rs:829-870` | landing an approved issue owes the answer again iff it had not been delivered |
| `Answers.AttemptsAreBounded` | `crates/orchestrator/src/answer.rs:432-452` | failed attempts never exceed 12, plus one for each re-arm |
| `Answers.RearmPassesTheBound` | `crates/orchestrator/src/pump.rs:847-870` | a re-arm does allow a thirteenth attempt |
| `Answers.RetriesAreSpaced` | `crates/orchestrator/src/answer.rs:432-452` | consecutive contacts, the later one a retry, are at least interval plus jitter apart |
| `Answers.PendingIsServed` | `crates/orchestrator/src/answer.rs:402-484` | as many fault-free sweeps as half the waiting issues, inside one interval, leave no issue unattempted |
| `AnswerTimes.RetriesWaitTheirTime` | `crates/orchestrator/src/answer.rs:152-159` | over every run two contacts with one peer, the later a retry, are at least the interval plus the magnitude of the id modulo a quarter of the interval apart, in seconds, saturated as 64-bit integers, with no spread for intervals below 4 |
| `AnswerTimes.SweepReachesExactly` | `crates/orchestrator/src/answer.rs:402-484` | a sweep gets to the wire for exactly the rows that are pending, or degraded with fewer than 12 attempts and that much time gone by, before which fewer than two attempts of the sweep went through |
| `AnswerTimes.SweepLeavesExactly` | `crates/orchestrator/src/answer.rs:488-697` | and leaves exactly those rows changed: sent, one failure more, retired at 12, or unread |
| `AnswerTimes.ContactsGoDown` | `crates/orchestrator/src/answer.rs:402-484` | contacts go down the table, each row at most once |
| `AnswerTimes.ContactsAreTrue` | `crates/orchestrator/src/answer.rs:402-484` | a contact records when it was made, whether as a retry, and whether the peer took the answer |
| `Artifacts.ParseIsAllOrNothing` | `crates/orchestrator/src/artifacts.rs:520-561` | a line file parses iff it is within its count cap and every written line decodes, and then to all of them in order |
| `Artifacts.ParseArtifact` | `crates/orchestrator/src/artifacts.rs:520-561` | the reading loop computes that, after the size check |
| `Artifacts.TranslationPlan` | `crates/orchestrator/src/artifacts.rs:1125-1193` | the plan is the artifacts' items in order, or nothing if one file fails |
| `Artifacts.ReadersAgree` | `crates/orchestrator/src/artifacts.rs:493-509` | the convergence reader sees exactly the findings whose bodies the plan posts as blockers; undeclared is not the same as empty |
| `Artifacts.PlanKinds` | `crates/orchestrator/src/artifacts.rs:1125-1193` | each file yields one kind of comment, and a failed worker no result |
| `PlanTable.PlanIsExact` | `crates/orchestrator/src/artifacts.rs:1125-1193` | a plan exists iff every declared findings file holds at most 256 written lines in 1 MiB and every follow-up file 32 in 512 KiB, all of which decode; it is then as long as what they contribute |
| `PlanTable.PlanHoldsEach` | `crates/orchestrator/src/artifacts.rs:1125-1193` | each artifact's contribution stands at its place in the plan: the result whole unless the worker failed, one blocker a finding, one note a follow-up, keyed by path, content and line |
| `PlanTable.FileNameIs` | `crates/orchestrator/src/artifacts.rs:1034-1036` | an artifact is told by the last component of its path |
| `PlanTable.ReviewIsExact` | `crates/orchestrator/src/artifacts.rs:493-509` | the review is read from the first declared findings file and no other |
| `PlanTable.VerdictIsExact` | `crates/orchestrator/src/pump.rs:1213-1320` | a round is clean iff a finished adversary declared a findings file that is taken and says nothing; an undeclared or malformed one poisons the round |
| `Ledger.Translator.PostAll` | `crates/orchestrator/src/pump.rs:2366-2418` | writes each unrecorded comment and then records it, and skips the recorded |
| `Ledger.Translator.TranslateArtifacts` | `crates/orchestrator/src/pump.rs:2366-2418` | a plan that does not parse writes nothing; the label is raised last |
| `Ledger.Translator.ReplayDone` | `crates/orchestrator/src/recovery.rs:811-875` | the same posting, without the label |
| `Ledger.LabelIsRaisedExactly` | `crates/orchestrator/src/recovery.rs:811-875` | the follow-up label is up iff some attempt of the pump itself that planned a note ran to its end; no replay raises it |
| `Ledger.ReplayLosesLabel` | `crates/orchestrator/src/recovery.rs:811-875` | a note that is posted and recorded and never announced by the label |
| `Ledger.PostsAreConserved` | `crates/orchestrator/src/pump.rs:2392-2410` | a key's comments are its ledger entry plus one for every attempt that died between posting and recording it |
| `Ledger.PostedOnce` | `crates/orchestrator/src/pump.rs:2366-2418` | over any attempts, uuids and crashes a planned comment is posted at least once after a completed attempt and at most 1 + crashes times |
| `Ledger.LostIsACrash` | `crates/orchestrator/src/pump.rs:2392-2410` | only a crash can lose a record |
| `Ledger.KeyDeterminesBody` | `crates/orchestrator/src/artifacts.rs:1125-1193` | equal ledger keys carry equal comments |
| `Mirror.EventLog.Emit` | `crates/orchestrator/src/events.rs:369-392` | the table first, then one line of the mirror |
| `Mirror.EventLog.AppendLine` | `crates/orchestrator/src/events.rs:203-227` | appends one whole line and nothing else |
| `Mirror.EventLog.RebuildFrom` | `crates/orchestrator/src/events.rs:252-275` | rewrites the mirror as the whole table |
| `Mirror.ReadAll` | `crates/orchestrator/src/events.rs:295-334` | the reading loop skips a bad last line and a line of a kind it does not know, and reports a bad interior one |
| `Mirror.Tail` | `crates/orchestrator/src/events.rs:339-345` | the last rows that were read |
| `Mirror.ReadIsExact` | `crates/orchestrator/src/events.rs:295-334` | corruption is reported exactly for the first line that does not decode and is not the last; otherwise the decoded lines of known kinds are returned in order |
| `Utf8.TextIsExact` | `crates/orchestrator/src/events.rs:295-334` | the test for text accepts exactly the encodings of sequences of Unicode scalar values |
| `Utf8.WidthIsExact` | `crates/orchestrator/src/events.rs:295-334` | a character is recognised, with its width, exactly when the encoding of a scalar value stands there |
| `Mirror.TornMirror` | `crates/orchestrator/src/events.rs:295-334` | a mirror cut at any byte reads as the events whole before the cut, as far as their kinds are known, or not at all iff the cut splits a character |
| `Mirror.MirrorAgrees` | `crates/orchestrator/src/events.rs:203-275` | over every run of emits, crashes inside any write and rebuilds, reading never reports corruption and yields first events of the table, those of a known kind, all of them while a process is up |
| `Mirror.EmitLosesAtMostOne` | `crates/orchestrator/src/events.rs:369-392` | a crash inside `emit` costs the mirror at most the event in flight |
| `Mirror.SplitCharacterIsUnreadable` | `crates/orchestrator/src/events.rs:295-334` | a process that dies anywhere inside a multi-byte character leaves a mirror that cannot be read until it is rebuilt |
| `QaCapture.DrainBounded` | `crates/orchestrator/src/qa.rs:766-783` | keeps exactly the last min(total, 512 KiB) bytes, however the stream is cut into reads |
| `QaCapture.SplitLines` | `crates/orchestrator/src/qa.rs:302-334` | the index loop splits at line feed, carriage return, and the two together |
| `QaCapture.SplitLosesOnlyBreaks` | `crates/orchestrator/src/qa.rs:302-334` | splitting drops the line breaks and nothing else |
| `QaCapture.SplitHasNoBreaks` | `crates/orchestrator/src/qa.rs:302-334` | no line keeps a line break |
| `QaCapture.SplitWithoutCr` | `crates/orchestrator/src/qa.rs:302-334` | without carriage returns it is the ordinary line reader |
| `QaCapture.FromOutput` | `crates/orchestrator/src/qa.rs:268-272` | the tail is the last min(50, n) lines |
| `QaCapture.LineCountIsExact` | `crates/orchestrator/src/qa.rs:280-287` | the reported count is the number of lines kept, except that a lone empty line counts as none |
| `QaCapture.CombineKeepsLines` | `crates/orchestrator/src/qa.rs:747-757` | joining the streams runs no two lines together: it splits into the lines of the one, then those of the other |
| `QaCapture.HandshakeFits` | `crates/orchestrator/src/qa.rs:682-693` | the script's output is read back whole behind the handshake iff both fit the capture |
| `QaCapture.SandboxIsTransparent` | `crates/orchestrator/src/qa.rs:636-670` | within that bound the sandboxed verdict is the bare one |
| `QaCapture.SandboxIsAtFaultExactly` | `crates/orchestrator/src/qa.rs:636-670` | a sandboxed run is blamed on the sandbox iff its handshake does not show: it and the output overflow the capture, and the kept bytes are not all script output that begins like a handshake line; a passing script passes iff it does show |
| `QaCapture.LoudScriptIsPoison` | `crates/orchestrator/src/qa.rs:636-670` | a passing script whose output pushes the handshake out is poison |
| `QaCapture.PassMeansExitZero` | `crates/orchestrator/src/qa.rs:697-728` | a pass is exactly exit zero after a handshake |
| `QaCapture.FailIsAToolsVerdict` | `crates/orchestrator/src/qa.rs:697-728` | a blocker is exactly a tool's exit code with at most fifty lines |
| `QaCapture.RunGate` | `crates/orchestrator/src/qa.rs:505-670` | the gate computes that verdict from the captured streams |
| `QaCapture.VerdictIsExact` | `crates/orchestrator/src/qa.rs:505-728` | every verdict iff its cause: who is blamed for a run that says nothing, what each exit code of one that does means, and which fifty lines a blocker carries |
| `QaCapture.HandshakeExactly` | `crates/orchestrator/src/qa.rs:682-693` | the handshake is the whole first line, whether or not anything follows |
| `WorkspaceNames.NoTokenStartsAnother` | `crates/orchestrator/src/workspace.rs:179-193` | no phase token is a dash-boundary prefix of another |
| `WorkspaceNames.MatchFindsBoundary` | `crates/orchestrator/src/workspace.rs:186-193` | the scan stops at the boundary the printer wrote |
| `WorkspaceNames.MatchPhase` | `crates/orchestrator/src/workspace.rs:186-193` | the scanning loop computes that match |
| `WorkspaceNames.ParseRendered` | `crates/orchestrator/src/workspace.rs:115-149` | parsing undoes rendering exactly on the well-formed names |
| `WorkspaceNames.ParseIsCanonical` | `crates/orchestrator/src/workspace.rs:115-149` | whatever parses renders back to the same string |
| `WorkspaceNames.ParseIsExact` | `crates/orchestrator/src/workspace.rs:115-149` | what `parse` accepts, written out: token, segment, round below 2^32 in plain digits, and eight hexadecimal digits |
| `WorkspaceNames.SegmentIsExact` | `crates/orchestrator/src/workspace.rs:80-105` | the segment is the sanitized id, or `issue` for an id without a letter or digit |
| `WorkspaceNames.GenerateRoundTrip` | `crates/orchestrator/src/workspace.rs:80-105` | every generated name is read back whole, even for an id with no letter |
| `WorkspaceNames.SafeExactly` | `crates/orchestrator/src/workspace.rs:59-62` | a name that reads back is safe as one directory component iff its issue segment is |
| `WorkspaceNames.GeneratedExactly` | `crates/orchestrator/src/workspace.rs:80-105` | a name can have been generated iff its issue segment is a slug, and then it is safe |
| `WorkspaceNames.UnsafeNameParses` | `crates/orchestrator/src/workspace.rs:115-149` | `parse` accepts a name with path separators |
| `WorkspaceNames.MatchIsSegmentEquality` | `crates/orchestrator/src/recovery.rs:1058-1063` | a workspace matches an issue iff their sanitized ids agree |
| `WorkspaceNames.MatchIsIdEquality` | `crates/orchestrator/src/recovery.rs:1058-1063` | for decimal ids that is equality |
| `Text.FoldLoop` | `crates/orchestrator/src/workspace.rs:199-212` | the folding loop with its two variables |
| `Text.SanitizeFixesSlugs` | `crates/orchestrator/src/workspace.rs:199-212` | sanitizing is the identity exactly on slugs |
| `Text.SanitizeIsSlug` | `crates/orchestrator/src/workspace.rs:199-212` | only [a-z0-9-], with no doubled, leading or trailing dash |
| `Text.SanitizeKeepsLetters` | `crates/orchestrator/src/workspace.rs:199-212` | no letter or digit is lost or reordered |
| `Words.SanitizeJoinsWords` | `crates/orchestrator/src/workspace.rs:199-212` | a sanitized text is exactly its words, lowered and joined with single dashes |
| `Text.ParseU32Exactly` | `crates/orchestrator/src/artifacts.rs:304-314` | a line number is the digits of a number below 2^32 with leading zeros and one plus sign allowed, and nothing else |
| `Branch.Slugify` | `crates/orchestrator/src/landing.rs:524-545` | the loop, trim and cut compute the capped slug |
| `Branch.SlugIsCapped` | `crates/orchestrator/src/landing.rs:524-545` | a slug within its cap that is a prefix of the uncapped one, cut at the last dash inside the cap if there is one |
| `Branch.CutDiffersExactly` | `crates/orchestrator/src/landing.rs:539-544` | the cut is not the documented one iff a dash stands at the cap and another before it |
| `Branch.CutAtCapDiffers` | `crates/orchestrator/src/landing.rs:539-544` | a slug on which they differ |
| `Branch.SlugIsIdempotent` | `crates/orchestrator/src/landing.rs:524-545` | slugging a slug changes nothing |
| `Branch.NamesAreDistinct` | `crates/orchestrator/src/landing.rs:506-519` | different decimal ids never share a branch, whatever the titles |
| `Branch.NameIsSafe` | `crates/orchestrator/src/landing.rs:506-519` | for every id and title a branch name is `vdd/` and one bounded slug that spells the id, or `issue` if it has no letter, and then the slug of the title capped at 40 |
| `Branch.NameIsNotMain` | `crates/orchestrator/src/landing.rs:506-519` | no issue branch is `main` |
| `Findings.LocationRoundTrip` | `crates/orchestrator/src/artifacts.rs:304-329` | a location reads back iff its path is not empty and its line is a u32 |
| `Findings.CommentBody` | `crates/orchestrator/src/artifacts.rs:367-384` | the rendering loop writes one evidence file per line |
| `Findings.ParseFindingFromBody` | `crates/orchestrator/src/pump.rs:2458-2488` | the reading loop with its three variables |
| `Findings.BodyRoundTrip` | `crates/orchestrator/src/pump.rs:2458-2488` | a posted finding reads back whole iff its location is real, no string in it holds a line feed, and neither the claim nor an evidence file before the last ends in a carriage return |
| `Findings.BodyKeepsFindings` | `crates/orchestrator/src/pump.rs:2458-2488` | in particular every finding without line breaks survives |
| `Findings.ParsedHasNoLineFeed` | `crates/orchestrator/src/pump.rs:2458-2488` | whatever reads back has no line feed and a real location |
| `FindingLines.ReadsExactly` | `crates/orchestrator/src/pump.rs:2458-2488` | a comment reads as a finding iff its first line is the finding's heading, its last location line the location, and the dashed lines after the first evidence heading the files; no other line matters |

## Left out

- `InboundGate` and `Trunk` are transition systems over values, not classes: they interleave code from several
  files with outside actors. Every landing step in `Trunk` is the step that `Landing.Lander` carries out.
- The pump's own landing, QA and worker calls are oracles inside `Pump`; their behaviour is in `Landing`,
  `RemoteLanding`, `QaCapture` and `Artifacts`.
- The findings of earlier rounds that the pump renders for later workers are inputs to oracles and are left out
  of `Drive`.
- Faults that abort a whole tick (the tracker or the database unreachable) are not modelled in `Pump`; a crash
  stands for them in `Drive`, `InboundGate`, `Ledger` and the landing modules.
- `Recovery` treats resuming a remote landing as one oracle step that opens a pull request or fails, and keeps
  worker rows grouped by issue; the machine itself is in `RemoteLanding`.
- `RemoteLanding` keeps opened pull requests open, and no other actor moves an issue's branch.
- `Answers` counts what the transport accepts; that a receiving peer discards a repeated answer is not part of
  it.
- Heartbeats are not part of `Mirror`.
- Decoding bytes lossily to text, the JSON schemas, field caps of follow-up proposals and peer slug validation
  are parameters or left out: each is settled by reading one predicate.
- Confinement of declared artifact paths to the workspace is left out for the same reason.
- Workspaces' preparation and removal on disk, mutual exclusion on the repository, panes, sandboxes, sockets
  and configuration beyond the checked ranges are left out.
- Presentation labels and the texts of blockers, events and pull requests are left out, except where a label
  decides (`InboundGate`) or a text is read back (`Findings`).
