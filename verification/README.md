# Verified model of the NexusCode session and agent core

This project models the parts of NexusCode that must not go wrong when several
runtimes share one conversation file, when writes are cut short, and when a long
conversation is rewritten under way: saving and loading sessions, forking and
reclaiming recovery branches, compacting and pruning the conversation, the agent's
turn loop with its tool batches and task list, session leases, the ACP session
protocol, and the backward reader of append-only JSONL files.

`dafny verify dfyconfig.toml` checks the whole project.

## How the files fit together

* `Transcripts`, `EventLogs`, `SessionStore`: messages, prefix relations, the event
  log, and one save as a pure function of disk, session, mode and the point at which
  the disk stops accepting writes. `SessionSave` carries the same save out step by step
  on mutable files and a mutable session, and is proved equal to that function.
  `SaveTheorems`, `SaveConflicts` and `SaveWrites` are about one save: what a reader gets,
  which save is refused, and what exactly is written. `SessionRuns` is about every
  interleaving of any number of sessions, saves, loads and sidecar writers.
* `Recovery`, `RecoveryGc`: forks out of a conflict, and deleting forks again.
* `Pairing`, `Compaction`, `Maintenance`, `CompactionTheorems`, `CompactionPlans`,
  `CompactTrigger`: tool-call pairing, one compaction or pruning pass on a mutable agent, what
  holds over every run of passes, where a pass cuts, and when it fires.
* `ToolBatch`, `AgentRun`, `RunExits`, `TodoState`, `TodoTheorems`: one turn of the agent.
* `Leases` with `LeaseTheorems`, `LeaseEntries` and `LeaseOutcomes`, and `AcpSession` with
  `AcpLedger`: two lock protocols, as state machines that any number of operations advance
  one access to shared state at a time, beside the mutable objects those accesses are made
  on.
* `TailReader`: the chunked reader against the plain scan. `Texts` trims.

Lemmas carry `{:induction false}` throughout: where a proof is by induction, its body
says so.

## What the model takes for granted

* A message stands for its redacted image; redaction works message by message and twice
  is the same as once. Messages are compared by equality, and the transcript digest is
  injective.
* Load-time normalization is any function from transcripts to an optional new one; none
  means it left the history alone. `SoleWriterNeverConflicts` further takes it to leave
  the empty history alone; `SnapshotsNeverShorten` and `AppendOnlyNeverConflicts` take it
  never to shorten what is stored. Both hold of the program's own: it keeps every message
  and inserts placeholder results (`internal/provider/provider.go:161-206`).
* Which item a sign-off cites depends on the wording of the items, not on their status
  (`internal/evidence/evidence.go:947-974`).
* Replacing a file is atomic; a failing append leaves some of its bytes behind, which do not
  decode (were only the newline missing, they would, and a reader would get the new
  transcript, as after a save whose ledger record was lost); after one failed mutation a
  save makes no other. The event index is written at best effort. A
  missing log and an empty one are the same thing, and so are a missing index and an
  empty one. Reading and writing the sidecar ledger in one record is one step.
* Each locked section of a save is one step. Opening and locking a lock file is one step;
  on Unix these are two calls without a re-check of the inode
  (`internal/agent/session_lock_unix.go:37-67`).
* Token estimates use one fixed ratio per configuration, so a message has one cost; the
  pinning budget, the predicates on message text and the economics of a fold are parameters.
* The revision counter does not overflow.

## Where the code and its own comments differ

* A rewrite by the only writer "is always accepted", with two exceptions. One is a save
  whose append reached the log and whose ledger record did not: `LostRecordRefusesRewrite`;
  the results on sole writers ask that earlier saves completed. The other is a ledger that
  was moved behind the writer's back: `RestampedLedgerRefusesRewrite`.
  `SoleRewriteRefusedExactly` says which moves do that, and `SoleWriterNeverConflicts` that
  there are no others. A rewind (`internal/control/controller.go:2440-2442`) and the clean-up after
  a cancel (3388-3404) replace the history without counting it as a compaction; until their
  rewrite save is done the writer owes it, and a snapshot in between may be refused:
  `SoleSnapshotRefusedExactly`.
* A tool result that arrives with the text of the snip marker in front is taken for one
  already archived, and a prune drops it for good: `LostExactly`, `MarkedResultIsLost`.
* The comment on the compaction latch says that a turn under the trigger clears it; a
  prompt between the snip threshold and the trigger returns before that
  (`internal/agent/compact.go:100-115`). `PauseLiftedExactly` has the condition.
* `SaveRecoveryBranch` rewrites a file it finds at the recovery path with other content;
  `ForkPreservesExactly` says when the snapshot is then stored, and
  `ForkBehindBreakIsLost` gives a file for which it is not.
* The grace round may end with tool calls nobody answered: `AgentRun.Run`.
* A rebuilt task list also takes sign-offs made ahead of the `todo_write` in its own
  message: `RebuildAgainstLive`. `RebuiltIsLiveExactly` says when that shows.
* A live lease may lack its registry entry: `OvertakenAcquirerLosesItsEntry`, and
  `RegisteredExactly` says when.
* A configuration queued during a direct rebuild that fails stays queued and blocks
  prompts: `StrandedExactly`. The comment in `begin` says that whoever queued it applies it.
* Recovery branches that name each other as parent would both be reclaimed:
  `CyclicLineageLosesBoth`. `BulkReclaimExactly` says which branches survive.

## Model

| member | source | states |
|---|---|---|
| `Transcripts.MessagesHavePrefix` | internal/agent/save.go:964-974 | decides list prefix |
| `Transcripts.MessagesHavePrefixWithCompatibleSystem` | internal/agent/save.go:1019-1030 | decides prefix up to a leading system message on either side |
| `Transcripts.CompatiblePrefixTransitive` | internal/agent/save.go:1019-1030 | that relation is transitive, which bulk reclamation and growth over runs rest on |
| `Transcripts.PrefixIsCompatible` | internal/agent/save.go:1019-1030 | an exact prefix is one up to the system message |
| `Transcripts.MessagesPrefixDigestDepth` | internal/agent/save.go:980-996 | the running-digest loop finds the target at its own length exactly when it is a non-empty prefix, else -1 |
| `Transcripts.AppendCoversPersistedBaseline` | internal/agent/save.go:1005-1017 | decides coverage of the baseline, including the re-anchoring on the system message still on disk |
| `Transcripts.RewoundIsNotCovered` | internal/agent/save.go:998-1017 | a disk cut below the baseline is never covered, whatever is being saved |
| `Transcripts.CoveredExactly` | internal/agent/save.go:998-1017 | when the snapshot extends what is stored up to a leading system message, covered if and only if the baseline is non-empty, no longer than what is stored, and a prefix of the snapshot or, under two system messages, of what is stored |
| `EventLogs.ReplaySessionEventLog` | internal/agent/session_events.go:187-230 | the replay loop yields the transcript, the number of applied records and the damage flag of the recursive definition, in which a misplaced append stops and an unsupported record refuses |
| `EventLogs.StoppedStays` | internal/agent/session_events.go:187-230 | what stops a replay decides it, whatever follows |
| `EventLogs.TruncationKeepsTranscript` | internal/agent/session_events.go:290-332 | truncation at the last applied record keeps the transcript and leaves a log that replays to the end |
| `SessionSave.SessionFiles.RepairSessionEventLogTail` | internal/agent/session_events.go:290-332 | on the files, exactly the repair step: nothing when the index vouches for the size, else truncation and a second write for the newline it takes along, each of which the disk may refuse |
| `SessionSave.SessionFiles.AppendSessionEvent` | internal/agent/session_events.go:334-369 | appends one record, or leaves some of its bytes as a torn tail when the disk fails |
| `SessionSave.SessionFiles.CompactSessionEventLog` | internal/agent/session_events.go:403-425 | replaces the log by one full record, or fails without a trace |
| `SessionSave.SessionFiles.WriteSessionMessages` | internal/agent/save.go:370-401 | replaces the checkpoint, or fails without a trace |
| `SessionSave.SessionFiles.RecordSessionContentRevision` | internal/agent/save.go:875-905 | raises the revision above both ledger and base, keeps a newer record, and reports success only after reading back |
| `SessionSave.SessionFiles.SaveBranchMeta` | internal/agent/branch.go:175-240 | a stale copy saved back keeps the newer revision and digest on disk |
| `SessionSave.LoadSessionMessages` | internal/agent/session_events.go:238-261 | event log when native and non-empty after replay, else checkpoint; a newer format refuses to load |
| `SessionSave.LoadSession` | internal/agent/save.go:1119-1163 | normalizes, keeps the raw transcript when the repair changed it, anchors the baseline on the ledger if it reads |
| `SessionSave.Session.Add` | internal/agent/session.go:58-63 | appends one message and bumps the version |
| `SessionSave.Session.Replace` | internal/agent/session.go:67-72 | swaps the messages and bumps the version |
| `SessionSave.Session.IncrementRewrite` | internal/agent/session.go:174-179 | bumps rewrite version and version |
| `SessionSave.Session.CloneWithMessages` | internal/agent/session.go:97-116 | a fresh session with other messages and the same persistence baseline |
| `SessionSave.Session.CloneWithMessagesIfCompatible` | internal/agent/session.go:122-144 | clones exactly when the histories agree up to the leading system message |
| `SessionSave.Session.SetPersistedBaseline` | internal/agent/save.go:828-857 | records the baseline and never lowers the persisted rewrite version |
| `SessionSave.Session.OwnsPersistedState` | internal/agent/save.go:789-816 | decides whether the disk is what this session last persisted or loaded |
| `SessionSave.Session.CheckSnapshotWrite` | internal/agent/save.go:405-533 | the step-by-step decision equals the pure one the theorems are about |
| `SessionSave.DecideAppend` | internal/agent/save.go:456-501 | the append-shaped half: revision check with coverage, no-op, ledger drift, append index |
| `SessionSave.Session.DecideRewrite` | internal/agent/save.go:502-533 | the other half: owned rewrite on either view, else stale prefix or divergence |
| `SessionSave.ChooseView` | internal/agent/save.go:423-455 | which view an append is judged on, and when a normalization repair stays pending |
| `SessionSave.Session.Save` | internal/agent/save.go:185-368 | the whole save on mutable files and session equals the function all save theorems speak of: disk, baseline and status, for every mode and every cut |
| `SessionStore.Save` | internal/agent/save.go:185-368 | a save reported done leaves the session anchored on the ledger as it stands, any other leaves it alone; the ledger is kept or moved strictly forward onto the snapshot |
| `SaveTheorems.RepairKeepsTranscript` | internal/agent/session_events.go:290-332 | tail repair never changes what a reader gets |
| `SaveTheorems.LoadAfterAppend` | internal/agent/session_events.go:187-230 | an append at the index the log replays to loads as the extended transcript |
| `SaveTheorems.LoadAfterTorn` | internal/agent/session_events.go:187-261 | bytes of a failed append change nothing a reader gets |
| `SaveTheorems.SaveIsAtomic` | internal/agent/save.go:185-368 | cut anywhere, a load yields exactly the old or exactly the new transcript; done yields exactly the snapshot; a conflict changes nothing |
| `SaveTheorems.SaveHeals` | internal/agent/save.go:226-355 | after a save reported done a native log is whole and begins with a full record, whatever damage it found; no save ever makes the first native record an append |
| `SaveTheorems.SaveKeepsBound` | internal/agent/session_events.go:76-82 | every save, cut or not, keeps the decodable log within the limit of its transcript plus one record |
| `SaveTheorems.SaveStaysWithinBound` | internal/agent/session_events.go:76-82 | after a save reported done the log file is at most max(256 KiB, 4 x content) plus its last record |
| `SaveConflicts.NoLostUpdate` | internal/agent/save.go:403-533 | a snapshot or rewrite replaces a transcript only by its own snapshot, and only one that the snapshot extends or, for a rewrite, the saver's own baseline |
| `SaveConflicts.DecisionIsReached` | internal/agent/save.go:220-239 | with a loadable disk and two writes left, a save conflicts if and only if the decision on the repaired disk rejects |
| `SaveConflicts.RewoundSaverIsRefused` | internal/agent/save.go:456-471 | a saver of another known revision is refused when the disk was cut below its baseline, and nothing changes |
| `SaveConflicts.AppendRefusedExactly` | internal/agent/save.go:456-501 | an append is refused if and only if the saver knows a revision that is not the ledger's, the disk lacks the new messages, and the baseline is no longer reached; on either view of the disk |
| `SaveConflicts.JudgedAsAppendExactly` | internal/agent/save.go:423-455 | a save is judged as an append if and only if it extends what is stored up to a leading system message, as a load normalizes it or as stored |
| `SaveConflicts.RewriteAcceptedExactly` | internal/agent/save.go:502-533 | a rewrite that is no append is accepted if and only if the disk holds the saver's baseline, as stored or normalized, at a version no later, and the ledger does not give it to someone else's content |
| `SaveConflicts.SaveRefusedExactly` | internal/agent/save.go:405-533 | on any disk that takes two more writes, a snapshot or rewrite is refused if and only if something is stored, the ledger reads, and either it appends under a moved ledger with its baseline no longer reached, or it does not append and is no rewrite of a stored baseline that the ledger still gives to the saver |
| `SaveConflicts.LedgerDescribesSave` | internal/agent/save.go:875-905 | after a save reported done the ledger digest is absent or that of the stored transcript, also on a same-content retry |
| `SaveConflicts.ChangeMovesLedger` | internal/agent/save.go:875-905 | a save that changes the stored transcript and is reported done has raised the revision |
| `SaveConflicts.SaveCompletesExactly` | internal/agent/save.go:185-368 | with six writes left a save is reported done if and only if the disk is saveable and, unless forced, the decision accepts |
| `SaveConflicts.RecordIsLost` | internal/agent/save.go:260-300 | an append cut between log and ledger leaves the snapshot on disk and ledger and session as they were |
| `SaveConflicts.LoadAnchors` | internal/agent/save.go:1119-1163 | a load hands out what is stored, normalized, anchored on the revision it reads; under an unreadable ledger it knows none |
| `SaveConflicts.BlindAppendIsNotRefused` | internal/agent/save.go:456-471 | what was loaded under an unreadable ledger is never refused as an append, whatever the ledger says by then |
| `SaveWrites.UnchangedSaveWritesNothing` | internal/agent/save.go:240-263 | a snapshot or rewrite of exactly what an undamaged disk holds, with nothing to normalize and a ledger that names it or nothing, is done without any write and anchors the session at the revision there |
| `SaveWrites.UnchangedCheckpointIsKept` | internal/agent/save.go:240-263 | so does a save of exactly what the checkpoint holds, where there is no log or a foreign one |
| `SaveWrites.UnchangedSaveHealsLedger` | internal/agent/save.go:246-260 | the same where the ledger names other content: only ledger and index are written, the revision goes up by one |
| `SaveWrites.OnlyTheNewIsAppended` | internal/agent/save.go:264-305 | with six writes left, a log that replays to a proper prefix of the snapshot, torn or not, is cut behind its last good record and grows by exactly Append(|stored|, the new messages); the checkpoint stays; a log past its bound is replaced by one full record and the checkpoint rewritten; refused only when the ledger moved and the baseline is gone |
| `SaveWrites.SaveWritesExactly` | internal/agent/save.go:220-355 | with six writes left, every save that is not refused on a saveable disk writes nothing, the ledger alone, the new messages alone, or everything, by what the repaired disk holds; and log, checkpoint, ledger, index and session then are |
| `SaveWrites.ForcedSaveWrites` | internal/agent/save.go:307-355 | a forced save rewrites the checkpoint and an existing log of ours in full, whatever is stored |
| `SaveWrites.ConflictKindExactly` | internal/agent/save.go:466-533 | a refusal is a stale prefix if and only if what is stored extends the snapshot up to a leading system message |
| `SaveWrites.AppendCutExactly` | internal/agent/save.go:290-305 | where each cut of an append leaves log, ledger and session: torn bytes; the record without the ledger; the ledger without the session; done with three writes |
| `SaveWrites.RepairTakesTwoWrites` | internal/agent/session_events.go:290-332 | a log that has to be cut back takes two writes; with fewer left every save fails and a reader still gets what was stored |
| `SaveWrites.NewerLogIsLeftAlone` | internal/agent/session_events.go:134-185 | on a log a newer build began nothing loads and every save fails without a write |
| `SaveWrites.ForeignLogIsPassedOver` | internal/agent/session_events.go:134-185 | on a log this layer never wrote the checkpoint is what loads, and no save touches the log |
| `SessionRuns.LedgerNeverGoesBack` | internal/agent/branch.go:222-240 | through any mix of saves, loads and stale listing writes the revision never decreases and a revision keeps its digest |
| `SessionRuns.BaselineIsOwn` | internal/agent/save.go:818-857 | a session's baseline is what the run says it, or the session it was cloned from, last loaded or saved, and its version is the session's own only while the messages are the same |
| `SessionRuns.NoLostUpdateInAnyRun` | internal/agent/save.go:403-533 | no lost update over every interleaving of any number of sessions, told in terms of the run alone |
| `SessionRuns.RewriteOnlyAfterCompaction` | internal/agent/session.go:163-179 | over every run, a session asks for a rewrite save if and only if its history, or that of the session it was cloned from, was compacted since it last started, loaded or completed a save |
| `SessionRuns.SnapshotsOnlyGrow` | internal/agent/save.go:171-176 | with snapshot saves only, by any number of sessions and cut anywhere, what is stored goes through snapshots that each extend the one before, as stored or as a load normalizes it |
| `SessionRuns.SnapshotsNeverShorten` | internal/agent/save.go:425-455 | and as long as normalization only adds messages, it never gets shorter |
| `SessionRuns.QuietSnapshotsExtend` | internal/agent/save.go:171-176 | and as long as it leaves them alone, the end extends the start up to a leading system message |
| `SessionRuns.NoResurrection` | internal/agent/save.go:456-471 | over every run in which others completed a change while a session waited, that session's save is refused if and only if it appends with its baseline no longer reached, or does not append and is no rewrite of a baseline still stored and still given to it; also over transcripts that a load pads; and a refusal changes nothing |
| `SessionRuns.CutSaverIsRefused` | internal/agent/save.go:456-471 | in particular whenever what is stored was cut below its baseline and its snapshot was not |
| `SessionRuns.LogAlongRuns` | internal/agent/session_events.go:76-230 | over every run the log keeps its full first record and its bound, and holds the first transcript or the exact snapshot of some save |
| `SessionRuns.SoleWriterNeverConflicts` | internal/agent/save.go:425-513 | as long as the ledger is where a sole writer knows it, and whatever it does to its history (append, compact, rewind, cancel clean-up, resume a clone), its rewrite save is never refused, nor its snapshot when it owes and needs no rewrite; also over invented placeholder results |
| `SessionRuns.UntamperedLedgerIsKnown` | internal/agent/save.go:818-857 | and that is where the ledger stays, unless someone tampers with it |
| `SessionRuns.SoleRewriteRefusedExactly` | internal/agent/save.go:405-533 | over every run in which only one session saves and its saves complete, whatever happens to the ledger (reset, re-stamped, unreadable), its rewrite is refused if and only if the ledger reads at another revision than it knows and either the rewrite appends with its baseline no longer reached, or it does not and the ledger has a revision and other content |
| `SessionRuns.MisledPlainly` | internal/agent/save.go:456-513 | the same condition in plain terms where normalization leaves the stored transcript alone |
| `SessionRuns.RestampedLedgerRefusesRewrite` | internal/agent/save.go:456-471 | witness, from an empty disk: a ledger re-stamped for the very content stored refuses the only writer's rewrite that puts a system message in front |
| `SessionRuns.SoleSnapshotRefusedExactly` | internal/control/controller.go:3388-3404 | why a rewind must not go out as a snapshot: with the ledger where it knows it, a sole writer's snapshot is refused if and only if its messages do not extend what is stored |
| `SessionRuns.SoleWriterStarts` | internal/agent/save.go:1113-1163 | a loaded file, or no file and a new session, is the start of such a run, and with a readable ledger one that knows it |
| `SessionRuns.AppendOnlyNeverConflicts` | internal/agent/save.go:423-501 | an append-only writer is never refused whatever happens to its ledger and wherever its saves are cut, as long as normalization takes nothing away |
| `SessionRuns.LostRecordRefusesRewrite` | internal/agent/save.go:502-533 | witness, from an empty disk: a sole writer whose append reached the log but not the ledger has its next rewrite refused |
| `Recovery.ForkRecoveryBranch` | internal/agent/save.go:550-685 | the step-by-step fork on mutable files equals the function the theorems are about |
| `Recovery.WriteFork` | internal/agent/save.go:636-685 | its writes in order: log, checkpoint, meta with its read-back, index |
| `Recovery.NotNeededExactly` | internal/agent/save.go:571-610 | not needed if and only if the snapshot has no user turn or a load of the original shows it, as normalized or as stored, up to its system message |
| `Recovery.ForkPreservesExactly` | internal/agent/save.go:636-685 | over an existing file the fork stores the snapshot if and only if that file's log does not replay something and break off, or held it already |
| `Recovery.ForkBehindBreakIsLost` | internal/agent/save.go:636-685 | witness: there a fork is reported done and its snapshot cannot be read |
| `Recovery.RecoveryLosesNothing` | internal/agent/save.go:550-685 | on a fresh path a fork stores exactly the snapshot, a cut one nothing or all of it; refused for depth exactly at the cap |
| `Recovery.ForksExactly` | internal/agent/save.go:550-685 | on a fresh path with four writes left, a snapshot is forked if and only if it has a user turn, the original loads and does not show it, and the parent is not a fork at depth 3; the new fork is one deeper, and a recorded fork without a depth counts as the first |
| `Recovery.ForkIsRecorded` | internal/agent/save.go:611-685 | what a fork done on a fresh path leaves: log, checkpoint, and the carried listing under a revision of at least 1 and the carried digest or that of the snapshot, which the session goes on from |
| `Recovery.ForkTakesFourWrites` | internal/agent/save.go:636-685 | a fork on a fresh path is reported done if and only if four writes are left |
| `Recovery.ForkChainsAreShort` | internal/agent/save.go:611-626 | a chain of forks records its own length as depth and is never longer than 3 |
| `RecoveryGc.ReclaimableRecoveryBranches` | internal/agent/recovery_gc.go:142-190 | exactly the reclaimable entries, in directory order |
| `RecoveryGc.ReclaimedExactly` | internal/agent/recovery_gc.go:89-190 | the scan in plain terms: visible recovery branches, idle and not leased, whose digest is still theirs and whose visible recorded parent still holds their messages up to a leading system message |
| `RecoveryGc.ReclaimedInOrder` | internal/agent/recovery_gc.go:142-190 | the scan of a joined listing is the scans of its parts, joined |
| `RecoveryGc.BulkReclaimExactly` | internal/agent/recovery_gc.go:89-190 | delete any set of reclaimable branches at once: a deleted one is still covered by a surviving ancestor if and only if its parent chain leaves the deleted set |
| `RecoveryGc.BulkReclaimIsSafe` | internal/agent/recovery_gc.go:89-190 | which it does whenever the parents of deleted branches do not go round in a circle |
| `RecoveryGc.CyclicLineageLosesBoth` | internal/agent/recovery_gc.go:89-124 | witness: two branches naming each other are both reclaimable |
| `RecoveryGc.GuardedDeletionIsSafe` | internal/agent/recovery_gc.go:56-87 | deleting one by one under the parent guard is safe without that assumption |
| `Pairing.PairedMeans` | internal/agent/compact.go:451-517 | a transcript is a sequence of answered blocks if and only if every result has its caller at the head of its run and every call a result there |
| `Pairing.FilterKeepsPairing` | internal/agent/compact.go:408-418 | dropping whole call groups keeps pairing |
| `Pairing.ShapeDecidesPairing` | internal/agent/prune.go:134-149 | rewriting contents only keeps pairing |
| `Compaction.PinnedPrefixLen` | internal/agent/compact.go:377-402 | the loop finds exactly the pinned prefix: a system prompt, a small first user turn, and the whole run of digests after them |
| `Compaction.TailCut` | internal/agent/compact.go:562-580 | the accumulating loop finds the longest tail that fits |
| `Compaction.CutIsLongestFit` | internal/agent/compact.go:556-580 | before alignment the tail has at most minKeep messages or fits the budget, and one more message would break both |
| `Compaction.AlignOffTools` | internal/agent/compact.go:525-580 | alignment backs off exactly the results in front of the cut, no further than the prefix |
| `Compaction.PlanCompaction` | internal/agent/compact.go:525-548 | the plan, with and without a known window, and whether it covers enough |
| `Compaction.PlanIsSound` | internal/agent/compact.go:519-548 | a plan that goes through never starts its tail on a result nor pins anything but system and user messages |
| `Compaction.FindToolCaller` | internal/agent/compact.go:497-509 | the nearest earlier assistant message with a call of that id |
| `Compaction.KeepToolCallGroup` | internal/agent/compact.go:451-466 | in place, marks exactly the call group |
| `Compaction.KeepIndexes` | internal/agent/compact.go:420-449 | the in-place marking, in source order, equals the spreading function |
| `Compaction.PartitionFold` | internal/agent/compact.go:408-418 | kept and folded parts are the two filters of the region |
| `Compaction.Agent.Compact` | internal/agent/compact.go:201-284 | folds exactly when the plan covers something foldable that pays or is forced and the archive can be written; then the folded part is archived and replaced by one digest, else nothing changes |
| `CompactionTheorems.KeepPolicyExactly` | internal/agent/compact.go:420-476 | on paired regions the order-dependent marking keeps a message if and only if one of its own call group, since the latest digest, is an error result or marked turn |
| `CompactionTheorems.FoldKeepsPairing` | internal/agent/compact.go:201-284 | compaction keeps pairing, for any policy, budget and sound plan |
| `CompactionTheorems.FoldConserves` | internal/agent/compact.go:201-284 | order-preserving split; session plus archive hold every old message as often as before, plus the digest |
| `CompactionTheorems.ProtectedForever` | internal/agent/compact.go:358-418 | small user turns and digests stay verbatim and in order through every run of turns, folds, snips and prunes |
| `CompactionTheorems.PairedForever` | internal/agent/compact.go:201-284 | pairing holds after every such run |
| `CompactionTheorems.NothingLost` | internal/agent/compact.go:201-284 | over every run with an archive, every message ever held is in the session or archived whole, unless it is a result that arrived carrying the snip marker |
| `CompactionTheorems.LostExactly` | internal/agent/prune.go:49-132 | a step drops a message from session and archive if and only if it is a prune over every copy of a marked result that is neither archived nor a kept error |
| `CompactionTheorems.HeldExactly` | internal/agent/prune.go:49-132 | after a step, session and archive hold exactly what they held and the step does not forget, and what it brings |
| `CompactionTheorems.GoneExactly` | internal/agent/prune.go:49-132 | over every run, what was once held is gone at the end if and only if some later step forgets it and none after that brings it again |
| `CompactionTheorems.MarkedResultIsLost` | internal/agent/prune.go:118-149 | witness: any result that arrives with the marker in a complete turn, and is no kept error, is lost to one prune |
| `CompactionTheorems.SummarizeUpToExactly` | internal/agent/compact.go:327-356 | keeps pairing if and only if it does not cut in front of a tool result |
| `CompactionTheorems.SummarizeFromKeepsPairing` | internal/agent/compact.go:298-322 | what it keeps stays paired when it starts at a non-result |
| `CompactionPlans.FrontExactly` | internal/agent/compact.go:377-402 | what is pinned is the longest front made of a leading system prompt, a small first user turn behind it, and digests |
| `CompactionPlans.CompactKeepsEnds` | internal/agent/compact.go:201-284 | a pass that folds leaves that front in place, then what is kept, then the digest, then the longest tail verbatim: the configured floor, or with a window as much as costs no more than half of it and 16384, drawn back off the results in front of it; at least the floor or all but one of what lies behind the front |
| `CompactionPlans.PlanExactly` | internal/agent/compact.go:525-580 | there is no other plan of that shape, so a pass that finds none has none |
| `CompactionPlans.KeptExactly` | internal/agent/compact.go:404-449 | between front and digest survive exactly digests, small user turns, and call groups in which an error or marked turn since the latest digest is to be kept |
| `CompactionPlans.FoldsExactly` | internal/agent/compact.go:201-250 | where there is a plan, a pass folds exactly when something in it does not survive and folding that is forced or pays |
| `CompactionPlans.DigestExactly` | internal/agent/compact.go:365-369 | a digest is a user message that opens with the summary tag behind blanks and line breaks |
| `CompactionPlans.BoundariesExactly` | internal/agent/prune.go:49-75 | a snip or prune looks inside the plan when the window is known and there is one; without one only a prune does, between the first and the recent messages |
| `CompactionPlans.FrontForever` | internal/agent/compact.go:377-402 | over every run of turns, planned folds and maintenance passes the front stays in place verbatim |
| `CompactionPlans.SystemPromptForever` | internal/agent/compact.go:377-388 | in particular a leading system prompt stays first |
| `Maintenance.MaintainStaleToolResults` | internal/agent/prune.go:49-116 | acts exactly when something between the boundaries is stale and its originals can be archived; then rewrites exactly the stale results and archives exactly the originals not archived before |
| `Maintenance.MaintenanceKeepsPairing` | internal/agent/prune.go:49-139 | snip and prune keep pairing |
| `Maintenance.MaintenanceIsIdempotent` | internal/agent/prune.go:118-149 | a second pass finds nothing to do |
| `Maintenance.PruneSeesThroughSnip` | internal/agent/prune.go:118-132 | a snip in between does not change what a prune elides, under either keep policy |
| `Maintenance.MaintainsExactly` | internal/agent/prune.go:118-149 | which messages a pass rewrites, in terms of role, size from 1024 bytes on, markers and boundaries, and that what it writes begins with its own marker |
| `CompactTrigger.Trigger.MaybeCompact` | internal/agent/compact.go:85-147 | action and latch after each turn |
| `CompactTrigger.AtMostTwoCompactions` | internal/agent/compact.go:125-147 | turns that never clear the latch run at most two compactions, however many |
| `CompactTrigger.PauseLiftedExactly` | internal/agent/compact.go:100-118 | the pause is lifted if and only if the prompt is under the snip threshold and does not spend the soft notice |
| `CompactTrigger.DropUnderTriggerMayNotLift` | internal/agent/compact.go:100-115 | witness: a prompt back under the trigger need not lift the pause |
| `CompactTrigger.TriggerFiresExactly` | internal/agent/compact.go:116-147 | at or over the trigger a prompt is compacted until that has happened twice since the latch was cleared, unless pruning alone brings it back; then never |
| `CompactTrigger.UnderTriggerExactly` | internal/agent/compact.go:85-115 | under it results are snipped from the snip threshold on, the soft notice is given exactly once, and nothing is compacted |
| `ToolBatch.PartitionToolCalls` | internal/agent/agent.go:2127-2157 | tiles the calls in order; writers, unknown tools, complete_step and todo_write alone; parallel runs maximal |
| `ToolBatch.RunParallel` | internal/agent/agent.go:2159-2189 | launches in order, at most eight at a time, waits for all launched, and fills exactly their results |
| `ToolBatch.ExecuteBatch` | internal/agent/agent.go:1988-2064 | whenever cancelled, the executed calls are a prefix, each other call has the one cancelled result, and no non-parallel call starts before all earlier ones finished |
| `ToolBatch.SerialCallsRunAlone` | internal/agent/agent.go:1988-2064 | a call whose tool is unknown, not read-only, complete_step or todo_write starts after every earlier call has finished, and finishes before any later one starts |
| `ToolBatch.OverlapNeedsReads` | internal/agent/agent.go:2127-2157 | calls that overlap, and all between them, are known read-only tools and neither of those two |
| `ToolBatch.PartitionExactly` | internal/agent/agent.go:2127-2157 | a call that runs alone is a batch of its own, and neighbours share a batch if and only if neither runs alone |
| `AgentRun.JudgeAnswer` | internal/agent/agent.go:1180-1224 | what an answer without calls leads to, in the order of the checks |
| `AgentRun.ExecuteCalls` | internal/agent/agent.go:1234-1247 | each call of the stored assistant message gets its one result, cancelled or not |
| `AgentRun.CallTools` | internal/agent/agent.go:1225-1261 | grace pause, cancellation, or another round with the grace round begun exactly when the budget is spent |
| `AgentRun.OpenCallBreaksPairing` | internal/agent/agent.go:1228-1232 | an assistant message left with open calls is never paired |
| `AgentRun.Run` | internal/agent/agent.go:1103-1266 | round by round the loop follows the course of its script and ends only as that says; the conversation stays paired on every exit but the grace-round pause, which leaves exactly one open request |
| `AgentRun.GoRound` | internal/agent/agent.go:1110-1260 | one pass through the loop body equals one round of the course, or is cut by a cancellation |
| `AgentRun.RunIsBounded` | internal/agent/agent.go:1103-1266 | with a positive budget at most 4 (maxSteps + 5 + steers) requests, for every provider behaviour; a final answer leaves no steer unread; a pause comes no sooner than the budget allows |
| `AgentRun.RunTerminates` | internal/agent/agent.go:1110 | with a positive budget and at most s steers queued, every course of rounds is at most 4 (maxSteps + 5 + s) long, so the loop ends |
| `RunExits.TraceIsOfScript` | internal/agent/agent.go:1103-1266 | the counters of the loop are what the script says: completions, unready answers, empty answers since the last tools, failures in a row, tools used, nudged, in grace, unread steers |
| `RunExits.RunEndsExactly` | internal/agent/agent.go:1110-1266 | no round before the last one is a way out, and the last one decides the exit: final on a good answer with nothing unread that is no evasion still to be nudged, given up at the third unready and the third empty answer since the last tools, failed on a plain failure or the fourth in a row, paused on calls after a round that called tools and spent the budget, or out of budget without one |
| `RunExits.SteersInOrder` | internal/agent/agent.go:1111-1118 | steers are delivered each once and in the order queued |
| `RunExits.FinalReadsEverySteer` | internal/agent/agent.go:1212-1224 | a final answer comes when all of them were |
| `TodoState.TaskList.AdvanceCanonicalTodo` | internal/agent/agent.go:1491-1508 | one sign-off on the live list |
| `TodoState.TaskList.SetTodoState` | internal/agent/agent.go:1448-1452 | replaces the list |
| `TodoState.TaskList.PromoteNextPendingTodo` | internal/agent/agent.go:1526-1538 | the first pending item, if nothing is in progress |
| `TodoState.SuccessfulToolCallIDs` | internal/agent/agent.go:1610-1629 | ids with a result that does not read as failed |
| `TodoState.FailedExactly` | internal/agent/agent.go:1623-1629 | a result reads as failed if and only if behind white space it opens with error:, blocked:, Error: or [error |
| `TodoState.TaskList.RebuildTodoState` | internal/agent/agent.go:1575-1608 | the two passes over a transcript equal the recursive definition |
| `TodoState.AdvanceMovesForward` | internal/agent/agent.go:1491-1538 | a sign-off never un-completes, keeps at most one item in progress, completes what it cites and leaves work in progress or nothing pending |
| `TodoState.AdvanceExactly` | internal/agent/agent.go:1491-1538 | item by item: the cited unfinished item is completed, then the first other pending one is promoted if no other is in progress; all else stays |
| `TodoState.AdvanceAllIsSet` | internal/agent/agent.go:1491-1538 | what a series of sign-offs comes to depends only on the set of unfinished items it cites: all completed, and one promotion |
| `TodoState.SignOffsAgreeExactly` | internal/agent/agent.go:1491-1538 | two series come to the same list if and only if they cite the same unfinished items |
| `TodoState.AdvanceAllIdleExactly` | internal/agent/agent.go:1491-1508 | sign-offs leave a list alone if and only if none cites an unfinished item |
| `TodoTheorems.RebuildAgainstLive` | internal/agent/agent.go:1491-1608 | over every run, live and rebuilt list start from the same written list and differ only by the sign-offs made before the todo_write in its own message |
| `TodoTheorems.RebuiltIsLive` | internal/agent/agent.go:1570-1608 | they are equal when there is no such sign-off |
| `TodoTheorems.RebuiltIsLiveExactly` | internal/agent/agent.go:1595-1605 | over every run, equal if and only if every unfinished item cited ahead of the last todo_write in its own message is cited again after it |
| `TodoTheorems.EarlySignOffIsRevived` | internal/agent/agent.go:1595-1605 | witness: an early sign-off lost live is revived by a rebuild |
| `TodoTheorems.NeitherListGoesBack` | internal/agent/agent.go:1491-1608 | neither list ever un-completes an item of the written list |
| `LeaseTheorems.AtMostOneOwner` | internal/agent/session_lease.go:66-227 | over every interleaving with crashes and dropped leases: at most one unreleased lease or guard per path, no save under a guard, a lease at rest announced by its info file |
| `LeaseTheorems.OnlyItsOwnerDeletesAnEntry` | internal/agent/session_lease.go:20-31 | no other operation deletes an entry; one may overwrite it only with the lock in hand and the owner not holding it |
| `LeaseEntries.RegisteredExactly` | internal/agent/session_lease.go:66-146 | over every run, what entered the registry is there if and only if no other operation has since stored over it in reclaiming the same session |
| `LeaseEntries.LeaseKeepsItsEntry` | internal/agent/session_lease.go:110-146 | nobody stores over a lease that holds its lock |
| `LeaseTheorems.OvertakenAcquirerLosesItsEntry` | internal/agent/session_lease.go:66-146 | a whole reclaim and release between an acquirer's registration and its lock leaves it live without an entry |
| `LeaseTheorems.LiveLeaseWithoutEntry` | internal/agent/session_lease.go:66-146 | witness: such a run from the start |
| `LeaseTheorems.ReclaimRecovers` | internal/agent/session_lease.go:96-146 | an orphaned entry never wedges its process: with a free lock and no foreign info a reclaim succeeds |
| `LeaseTheorems.FreeSessionIsAcquired` | internal/agent/session_lease.go:66-94 | a session nobody has is acquired, with its registry entry |
| `Leases.OwnerRegistry.Register` | internal/agent/session_lease.go:74-78 | a fresh id, stored only under a free key |
| `Leases.OwnerRegistry.Reclaim` | internal/agent/session_lease.go:134-140 | a fresh id, stored over whatever is there |
| `Leases.OwnerRegistry.CompareAndDelete` | internal/agent/session_lease.go:204-214 | deletes only one's own entry |
| `LeaseTheorems.ReleaseClears` | internal/agent/session_lease.go:204-227 | releasing a registered lease removes its entry and frees its lock |
| `LeaseTheorems.GuardKeepsSavesOut` | internal/agent/session_removal.go:31-55 | while a removal guard is held nobody is saving |
| `LeaseOutcomes.AcquireExactly` | internal/agent/session_lease.go:66-94 | left alone, acquired with entry, lock and info if and only if the process has no entry and nobody holds the lock; else nothing is left behind |
| `LeaseOutcomes.ReclaimExactly` | internal/agent/session_lease.go:104-146 | left alone, reclaimed if and only if the info names no other process and nobody holds the lock |
| `LeaseOutcomes.GuardExactly` | internal/agent/session_removal.go:31-58 | left alone, granted with both locks if and only if the process has no entry and neither lock is held; else nothing is left behind |
| `LeaseOutcomes.GuardIsUsedUp` | internal/agent/session_removal.go:60-98 | a used guard removes the info and gives both locks back |
| `LeaseOutcomes.ProbeExactly` | internal/agent/session_lease.go:156-195 | removes exactly an info file of somebody else behind which nobody holds the lock |
| `LeaseOutcomes.RetireExactly` | internal/agent/save.go:1417-1430 | retiring the lock file behind a release reaches for the lock exactly when the process has not registered the session again, and takes and gives it back exactly when it is free |
| `LeaseOutcomes.SweepExactly` | internal/agent/save.go:1396-1416 | the sweep behind a release stops where the process has taken the session again or somebody else has it |
| `LeaseOutcomes.SaveExactly` | internal/agent/save.go:185-199 | a save runs if and only if nobody holds the save lock |
| `AcpSession.TurnsAndRebuildsExclude` | internal/acp/service.go:234-322 | over every interleaving: one turn at most, never beside a rebuild, on the current controller; a rebuild finds the controller it started from; a held lease guards the current transcript; no channel closed twice |
| `AcpSession.SwapsAndStarts` | internal/acp/service.go:234-250 | the controller changes only outside turns; a turn starts only with nothing queued, nothing in maintenance and no delete |
| `AcpSession.RecoverKeepsInv` | internal/acp/service.go:388-450 | moving transcript and lease to a recovery file keeps all of this |
| `AcpSession.DeleteWaitsForAll` | internal/acp/service.go:290-306 | when a delete has waited, no turn and no rebuild is in flight |
| `AcpSession.QuietForever` | internal/acp/service.go:234-306 | and none ever starts again, nor does the controller change |
| `AcpSession.StrandedExactly` | internal/acp/service.go:1047-1155 | a queued configuration becomes stranded if and only if a direct rebuild ends in failure with one queued behind it, or one is queued on a busy report nothing in flight accounts for, and nobody else is on the way to the queue |
| `AcpSession.StrandedStays` | internal/acp/service.go:234-250 | a stranded session refuses prompts until the next switch or a delete |
| `AcpSession.FailedRebuildStrands` | internal/acp/service.go:1047-1052 | witness: such a run from every opened session |
| `AcpSession.PromptIsServedExactly` | internal/acp/service.go:234-262 | left alone, a prompt on an idle session runs its turn on the current controller and leaves the session as it found it; on any other it is turned away and changes nothing |
| `AcpSession.QueuedConfigIsApplied` | internal/acp/service.go:1014-1155 | left alone on an idle session, the request that drains the queue installs the queued configuration and takes queue and maintenance back |
| `AcpSession.AcpSessionObject.Begin` | internal/acp/service.go:234-250 | one critical section: refuse, or mark the turn running |
| `AcpSession.AcpSessionObject.Finish` | internal/acp/service.go:252-262 | the turn is over, and whose waiters to wake |
| `AcpSession.AcpSessionObject.EnterRebuild` | internal/acp/service.go:1014-1062 | refuse, queue behind what is in flight, or claim the queue together with raising maintenance |
| `AcpSession.AcpSessionObject.SwapController` | internal/acp/service.go:1103-1122 | installs the new controller unless deleted or changed meanwhile |
| `AcpSession.AcpSessionObject.FinishMaintenance` | internal/acp/service.go:308-322 | lowers only one's own maintenance |
| `AcpSession.AcpSessionObject.DropPendingConfig` | internal/acp/service.go:1143-1152 | drops the queue unless something in flight will see to it |
| `AcpSession.AcpSessionObject.MarkDeleted` | internal/acp/service.go:290-306 | marks the delete and says what to wait for |
| `AcpSession.AcpSessionObject.CommitRecovery` | internal/acp/service.go:408-424 | moves transcript and lease together, or leaves both to a delete |
| `AcpSession.AcpSessionObject.ReleaseSessionLease` | internal/acp/service.go:355-363 | takes the lease out once |
| `AcpLedger.RebuildEntryExactly` | internal/acp/service.go:1014-1062 | a switch at its first critical section, told by session and report: it raises maintenance and takes the queue exactly when nothing is in flight and no prompt, activity or job is reported; it is queued exactly behind a turn, activity, or a rebuild without jobs, when no prompt waits; else session and queue stay and it ends, or goes to drop the queue it came from |
| `AcpLedger.MaintenanceRaisedExactly` | internal/acp/service.go:1014-1048 | nothing else ever raises maintenance |
| `AcpLedger.QueueChangesExactly` | internal/acp/service.go:1014-1155 | what every event does to the queued configuration |
| `AcpLedger.QueueIsLookedAtExactly` | internal/acp/service.go:1126-1142 | the queued configuration is taken to a rebuild exactly when the session is still listed, undeleted, and has one |
| `AcpLedger.RequestsNeedListedSession` | internal/acp/service.go:1347-1360 | requests reach a session only as long as it is listed, and a delete ends that |
| `AcpLedger.HeldExactly` | internal/acp/service.go:355-450 | over every run, a session lease is held if and only if others had it from the start, the session has it, or one of its recovery handlers does; none is ever both |
| `AcpLedger.DeleteIsServed` | internal/acp/service.go:273-306 | left alone, a delete of an idle session is done in four steps and gives back the session's lease and no other |
| `AcpLedger.RecoveryMovesLease` | internal/acp/service.go:388-450 | a recovery on an undeleted session moves transcript and lease and gives the old lease back; on a deleted one it gives back the new one |
| `TailReader.ReadJSONL` | internal/autoresearch/store.go:618-638 | the scan yields all trimmed non-blank lines, or fails exactly on a line of 64 KiB or more |
| `TailReader.CountCompleteTailLines` | internal/autoresearch/store.go:707-719 | counts the non-blank segments, without the first unless at the start |
| `TailReader.SplitCut` | internal/autoresearch/store.go:676-692 | cutting a file anywhere leaves, after the first segment of the rest, whole segments of the file |
| `TailReader.TailDecides` | internal/autoresearch/store.go:680-704 | whole segments that hold limit lines decide the tail |
| `TailReader.SplitJoins` | internal/autoresearch/store.go:680-692 | the segments hold no newline and joined by newlines are the file |
| `TailReader.LastIsTail` | internal/autoresearch/store.go:700-705 | the last lines: as many as there are, at most the limit, and a tail of all |
| `Texts.TrimsExactly` | internal/autoresearch/store.go:686-690 | exactly the white space around the text goes |
| `TailReader.TailJSONLLines` | internal/autoresearch/store.go:644-705 | for every file, chunk size and positive limit, exactly the last lines of the full scan |

## Left out

- Real files, fsync, rename, flock and Windows sharing rules: atomic replace, append with a
  torn tail, and exclusive locks are assumed as above.
- SHA-256, JSON encoding, secrets redaction and `provider.NormalizeSessionMessages`:
  uninterpreted, as above.
- SessionSave.SessionFiles.RepairSessionEventLogTail: a repair cut between its truncation and
  the newline it puts back leaves a log one byte short; the model does not count that byte.
- `evidence.MatchStep`: any function that names an item of the list, by the items' wording,
  or none.
- Trimming of Unicode white space beyond ASCII in `TailReader` and `TodoState`.
- Streaming, prompts, phrase lists, the readiness gate's own rules, guard streaks and
  evidence receipts of the turn loop: the verdict of each is an input of `AgentRun.Run`.
- AgentRun.Run: with no step budget the source loop has no bound; the model watches any
  given number of its rounds, and what it states holds for each number. A cancellation is
  noticed where tools are executed; one that ends a stream is a failed stream.
- AgentRun.MaybeCompact: which pass fires is chosen freely there, and follows the token
  count in `CompactTrigger` alone.
- CompactTrigger.Trigger.MaybeCompact: whether pruning or compaction succeeds, and the tokens
  it saves, are inputs.
- Leases and AcpSession run their interleavings on values: an object is its actor or task id.
  The mutable registry and the mutable session are there as classes whose methods are single
  critical sections, stated by the same functions the interleavings use.
- AcpSession: closing a session, the mode picker, and the sidecars a recovery writes.
- Leases: lock files of different inodes, and info files changed from outside.
- `SaveRecoveryBranch`'s naming of the recovery file and the listing fields of its meta.
- The age and listing rules of `ReclaimableRecoveryBranches` beyond one idle flag.
- Legacy migration, filename reconciliation, session listing, boot wiring, the ACP wire
  format, billing, media, CLI rendering, permission and sandbox gates.
- Message contents written by a fold (the summary text) and by a snip or prune beyond their
  markers.
