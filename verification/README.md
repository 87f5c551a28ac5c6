# FlowDocs: verified models of its protocols

This project models the protocols and algorithms of FlowDocs on which its data depend, and
proves their promises over all inputs, interleavings, crash points and runs.

- **Runtime activation** (`Activation.dfy`, `RollbackAuthority.dfy`, `ActivationResults.dfy`,
  `ActivationRuns.dfy`, `Coherence.dfy`, `RestartHazard.dfy`). A web and a maintenance supervisor switch the active
  runtime generation through files: intents, acknowledgements, results, `active.json`,
  `previous.json` and a lock. The model is a labelled transition system with two program
  counters in which every file write, child operation and deciding read is one step, every
  guarded write may raise before or after its effect, and either supervisor may crash between
  any two steps. There is no class here: what matters is every interleaving of two processes,
  and a method body would show one at a time.
- **Fenced publication** (`Publication.dfy`, `PublicationClient.dfy`). Any number of clients
  put `writer.json` and `authoritative.json` conditionally. Histories of atomic events carry
  the theorems; the client operations are methods of a shared store that other clients change
  between any two operations, and each is proved to perform only events that the histories allow.
- **Double-collect snapshot** (`SourceTree.dfy`, `Snapshot.dfy`). Two scans around a database
  backup and a copy, with mutators between all reads.
- **Clone and rebind** (`Json.dfy`, `Text.dfy`, `Manifest.dfy`, `Rebind.dfy`, `Clone.dfy`). A
  manifest is validated, rewritten for another dataset and published there after its objects,
  in a way that can stop anywhere and be run again.
- **Custody audit** (`Tar.dfy`, `ArchiveReader.dfy`, `ArchiveScan.dfy`, `Evidence.dfy`,
  `Custody.dfy`). A streaming tar scan under byte budgets, and evidence under caps that the
  vault phase and the archive phase share.
- **Retention and attestations** (`LegacyCleanup.dfy`, `RecoveryPrune.dfy`,
  `CanonicalRows.dfy`, `Attestation.dfy`).

`Common.dfy` holds the shared option, result and byte types. `dafny verify dfyconfig.toml`
checks everything.

## Assumptions

- Activation: faults are crash-stop. Digests are ideal: a digest is the document it was
  computed from. Writes of a result, and acknowledgements written after it, do not raise once
  they have taken effect. Two intents never share both the previous pointer and the target
  generation, because the restart recovery compares only these two. `Coherence` in addition
  takes runs in which the maintenance supervisor does not restart while a handshake is open;
  `RestartHazard` shows why.
- Publication: owner tokens are fresh. An entity tag identifies the content, an empty one matches
  nothing, and the replies to puts and to reads of the pointer bring a tag.
- Snapshot: every mutation of a file gives its path a stamp (size, modification time, inode)
  that the path never had before. A walk may miss only what was absent at some moment of it.
- Clone: the source does not change during one run. Encoding and decoding JSON is lossless and
  SHA-256 prints 64 hexadecimal digits; nothing is assumed about collisions.
- Custody: decoding, case folding and hashing are arbitrary functions. A read returns fewer
  bytes than asked for only at the end of the stream.
- Attestations: a text is any sequence of code points, lone surrogates included. Identifiers and
  sizes that are no integers are not told apart, since no record with one is accepted.

## What turned out not to hold as promised

- A manifest that validates for the source need not validate, or need not keep its paths, when
  rebound. `_safe_path` trims blanks before it trims slashes, so `/ a` is read as ` a`, and ` a`,
  which is what the rebound manifest carries, is read as `a`. `Rebind.RebaseValidates` gives the
  exact condition, `Rebind.BlankInFrontHappens` the path and `Rebind.ValidNeedNotRebind` a whole
  manifest, for every plain source.
- Coherence of children and pointer fails when the maintenance supervisor restarts after it has
  acknowledged that it is quiet: from every initial state there is such a run
  (`RestartHazard.RestartBreaksCoherence`), and every run whose last state lets the web supervisor
  alone still replace `active.json` can go on like that (`RestartHazard.RestartIsHazard`). Without
  an open handshake no state of a calm run does (`RestartHazard.DangerMeansOpen`).
- A snapshot need not contain a file that came and went while it was taken, even if it was there
  with the database image (`Snapshot.VisitorEscapes`); without such a file the set is exact
  (`Snapshot.CaptureIsExact`).
- After an applied cleanup batch a deferred backup may no longer be eligible, because the batch
  has freed space: `LegacyCleanup.DeferredNeedNotStay` has five files that show it,
  `LegacyCleanup.ReplanAllDeferred` the exact condition. Nothing else becomes eligible
  (`LegacyCleanup.ReplanOnlyDeferred`).
- The digest of an attestation of missing files does not determine their lifecycles: U+1F600 and
  its two surrogates are hashed alike (`Attestation.LifecyclesCollide`). Two lists are hashed alike
  exactly when they agree once surrogate pairs are joined (`Attestation.MissingTextTells`).

## Model

| member | source | states |
|---|---|---|
| RollbackAuthority.StepKeepsInv | flowdocs/runtime_supervisor.py:829-1106 | any step of either supervisor, a crash, a restart or a new intent keeps the invariant on active.json, previous.json, lock and acknowledgements |
| RollbackAuthority.RunKeepsInv | flowdocs/runtime_supervisor.py:829-1161 | the invariant holds in every state of every run, with restarts of both supervisors at any step |
| RollbackAuthority.RecoversOwnCutover | flowdocs/runtime_supervisor.py:829-845 | an intent that the restart recovery matches by previous digest and target generation is the one that did the last cutover and wrote previous.json |
| RollbackAuthority.TargetIsNew | flowdocs/runtime_supervisor.py:983-1000 | a freshly written target pointer is never the previous pointer its own intent names |
| ActivationResults.RollbackAuthorityKept | flowdocs/runtime_supervisor.py:892-1106 | from the write of T until another cutover writes previous.json, active.json is P or T and previous.json is P |
| ActivationResults.CutsOnce | flowdocs/runtime_supervisor.py:892-1000 | no intent puts its target into active.json twice in a run |
| ActivationResults.OneResultEach | flowdocs/runtime_supervisor.py:600-647 | a result is final, and it names the pointer that is active when it is written |
| ActivationResults.CommittedIsSound | flowdocs/runtime_supervisor.py:1022-1042 | committed is written only under the intent's own lock, with T active and P in previous.json |
| ActivationResults.RolledBackIsSound | flowdocs/runtime_supervisor.py:1060-1088 | rolled_back is written only under the lock and when active.json is P byte for byte |
| ActivationResults.PassedBefore | flowdocs/runtime_supervisor.py:962-1042 | whoever stands at a stage of the cutover has completed every earlier stage in the same process and for the same intent |
| ActivationResults.CommitIsEarned | flowdocs/runtime_supervisor.py:906-1042 | a committed result rests on one process that saw P active, then target_started, readiness bound to the target and both verifications, in this order |
| ActivationResults.InterruptedNeverCommits | flowdocs/runtime_supervisor.py:829-890 | a cutover whose process has ended before a result never becomes committed |
| ActivationRuns.SomeRunCommits | flowdocs/runtime_supervisor.py:892-1042 | for every initial state and every intent that applies to it some run ends with a committed result |
| ActivationRuns.SomeRunRollsBack | flowdocs/runtime_supervisor.py:1043-1088 | and some run, in which a step after the switch raises, ends with a rolled_back result |
| Coherence.StepKeepsRest | flowdocs/runtime_supervisor.py:289-330 | the handshake, children and workspace invariant is kept by every step of a calm run |
| Coherence.RunKeepsRest | flowdocs/runtime_supervisor.py:289-1161 | it holds in every state of every calm run |
| Coherence.ChildrenFollowThePointer | flowdocs/runtime_supervisor.py:172-199 | every running child of either role is bound to the very pointer in active.json |
| Coherence.OneWritableWorkspace | flowdocs/runtime_supervisor.py:979-1067 | a writable workspace is the one active.json names, so there is at most one |
| Coherence.ReplacedWhileNobodyRuns | flowdocs/runtime_supervisor.py:978-1072 | at the instant active.json is replaced no child runs or is being started |
| Coherence.OwnExitIsCalm | flowdocs/runtime_supervisor.py:1150-1161 | the maintenance supervisor ends by itself only with no open handshake |
| RestartHazard.RestartBreaksCoherence | flowdocs/runtime_supervisor.py:1128-1147 | from every initial state a run with a maintenance restart in the middle of a handshake leaves a child on a pointer that is no longer active |
| RestartHazard.RestartIsHazard | flowdocs/runtime_supervisor.py:1128-1147 | every run whose last state lets the web supervisor alone still replace active.json can go on with a maintenance restart to a child on a pointer that is no longer active |
| RestartHazard.CutoverInDanger | flowdocs/runtime_supervisor.py:962-1000 | every point of the cutover before the write of the target is such a state |
| RestartHazard.RollbackInDanger | flowdocs/runtime_supervisor.py:1049-1067 | so is a rollback that has the target still to replace |
| RestartHazard.DangerMeansOpen | flowdocs/runtime_supervisor.py:948-960 | in a calm run only a state with an open handshake is |
| Publication.StepKeepsInv | flowdocs/core/global_writer.py:80-233 | the writer record is the last grant and every pointer was granted, after each event of any client |
| Publication.HistoryKeepsInv | flowdocs/core/global_writer.py:80-233 | the same in every state of every history |
| Publication.OthersAreRelied | flowdocs/core/global_writer.py:80-233 | what any number of steps of others can have changed, as one client sees it |
| Publication.WriterEpochsRise | flowdocs/core/global_writer.py:80-144 | writer epochs never decrease and rise strictly at each acquisition |
| Publication.OneTokenPerEpoch | flowdocs/core/global_writer.py:80-144 | an epoch belongs to one owner token and a token to one epoch |
| Publication.NoKeepAfterTakeover | flowdocs/core/global_writer.py:147-233 | after a takeover no renewal or release by an earlier holder ever takes effect |
| Publication.PointerEpochsRise | flowdocs/core/registration.py:197-260 | pointer epochs never decrease |
| Publication.PublishedWasGranted | flowdocs/core/registration.py:197-308 | a published epoch and token were granted, and the epoch is at most the writer's |
| Publication.SameEpochSameToken | flowdocs/core/registration.py:197-308 | two pointers of one epoch carry one token |
| PublicationClient.AcquireGlobalWriter | flowdocs/core/global_writer.py:44-144 | at most one acquisition takes effect, over the very record that was read and only if its tag came with it, and never over an unexpired lease unless forced |
| PublicationClient.RenewGlobalWriter | flowdocs/core/global_writer.py:147-187 | a renewal keeps the tenure and succeeds only against the tagged record |
| PublicationClient.ReleaseGlobalWriter | flowdocs/core/global_writer.py:190-233 | a release only ever ends the caller's own tenure |
| PublicationClient.ValidateWriterForPublication | flowdocs/core/global_writer.py:243-283 | success means that the caller's tenure was current, unexpired and its own; failure names a check that did fail |
| PublicationClient.UpdateAuthoritativePointer | flowdocs/core/registration.py:171-259 | although the epoch check and the conditional put use two reads, the publication replaces exactly the expected pointer and lowers no epoch |
| PublicationClient.UpdateAuthoritativePointerCas | flowdocs/core/registration.py:262-308 | at most one publication, with the epoch and token of the lease |
| PublicationClient.SyncActiveGeneration | flowdocs/core/maintenance.py:873-1102 | a run that succeeds drew its token, was granted an epoch and published that epoch and token, in this order; a cancelled run publishes nothing, nor does a failed one unless the swap of the pointer failed, whose reply may have been lost |
| SourceTree.FreshStampsPin | flowdocs/core/recovery_snapshot.py:92-99 | a stamp seen twice on a path means the file kept its bytes in between, and they number its size |
| Snapshot.ScanSources | flowdocs/core/recovery_snapshot.py:60-89 | every record was seen during the scan, and every path without one was no file at some moment of it |
| Snapshot.CopyFile | flowdocs/core/recovery_snapshot.py:102-164 | a successful copy holds the bytes the file had, under the record's stamp, at one moment of the copy |
| Snapshot.CopyScannedFiles | flowdocs/core/recovery_snapshot.py:102-164 | one copy for each record, in order, each at its own place and none over another file, below one or above one |
| Snapshot.TwoScansAgree | flowdocs/core/recovery_snapshot.py:313-345 | two equal scans pin every captured file throughout the window between them |
| Snapshot.Attempt | flowdocs/core/recovery_snapshot.py:306-384 | an attempt that gets through is consistent with one instant, the one of the database backup |
| Snapshot.Capture | flowdocs/core/recovery_snapshot.py:285-401 | an existing snapshot is only verified; a new one is consistent, and success is reported exactly when its own verification passes |
| Snapshot.CaptureIsExact | flowdocs/core/recovery_snapshot.py:313-345 | for a path that does not come and go between the start and the end of the capture, captured means present with the database image |
| Snapshot.VisitorEscapes | flowdocs/core/recovery_snapshot.py:313-345 | a path that comes and goes can be present with the database image and not be captured |
| Snapshot.VerifySnapshot | flowdocs/core/recovery_snapshot.py:235-282 | verification succeeds exactly for an intact workspace: every listed path, split as pathlib does, stays inside and leads to a file as described |
| Snapshot.DigestDeterminesFiles | flowdocs/core/recovery_snapshot.py:268-282 | under injective digests the evidence digest determines the evidence and every listed file |
| Snapshot.PublishedIsIntact | flowdocs/core/recovery_snapshot.py:346-389 | a freshly published workspace verifies exactly when no copied path leaves it |
| Json.SameTransitive | flowdocs/dataops/clone.py:189-206 | Python's equality of JSON values, in which True, 1 and 1.0 agree, is transitive |
| Json.RewriteUndone | flowdocs/dataops/clone.py:210-217 | the reverse rewrite restores a value exactly when no string carries only the destination prefix |
| Json.RewriteLeavesNone | flowdocs/dataops/clone.py:210-217 | no string with the source prefix is left exactly when none that is rewritten comes out with it again |
| Rebind.NothingOfTheSource | flowdocs/dataops/clone.py:210-217 | a value rewritten for another dataset has no string with the source prefix left, for names without a slash |
| Json.RewriteKeepsShape | flowdocs/dataops/clone.py:210-217 | lists, mappings, field names and all values but strings stay as they are |
| Json.RewriteFixes | flowdocs/dataops/clone.py:210-217 | the rewrite leaves a value equal exactly when no string carries the source prefix |
| Text.TrimmedFixes | flowdocs/dataops/clone.py:135-147 | which texts the trimming leaves alone |
| Text.PlainJoined | flowdocs/dataops/clone.py:135-147 | a joined path is plain exactly when both parts are, and its last component is the one of the second |
| Manifest.ReadFiles | flowdocs/dataops/clone.py:169-186 | the loop over files with its set and map accepts exactly lists of readable entries with distinct paths and agreeing keys, and returns them normalised |
| Manifest.ValidateManifest | flowdocs/dataops/clone.py:161-207 | validation succeeds exactly on valid manifests and returns their normalised entries |
| Rebind.RewrittenIsRebound | flowdocs/dataops/clone.py:423-432 | rewriting an entry agrees with rebinding it exactly when only its keys carry the source prefix |
| Rebind.SafeKeyMoves | flowdocs/dataops/clone.py:135-158 | a key moved to another dataset keeps its content address and is safe exactly when that dataset is a plain path |
| Rebind.EntryMoves | flowdocs/dataops/clone.py:404-465 | an entry reads at the destination with the same path, size and digest and the moved key, exactly under the stated condition |
| Rebind.NoKeyCollision | flowdocs/dataops/clone.py:411-414 | distinct source keys stay distinct, so the collision branch is never taken |
| Rebind.RebaseValidates | flowdocs/dataops/clone.py:404-465 | the exact condition under which the rebound manifest validates with its entries unchanged but for their keys |
| Rebind.BlankInFront | flowdocs/dataops/clone.py:135-147 | every path with a slash and a blank in front is read differently the second time |
| Rebind.BlankInFrontHappens | flowdocs/dataops/clone.py:135-147 | the path "/ a" is read as " a", and that as "a" |
| Rebind.ValidNeedNotRebind | flowdocs/dataops/clone.py:404-465 | every plain source has a valid manifest that does not rebind unchanged for any other dataset |
| Rebind.EntryKeepsObject | flowdocs/dataops/clone.py:404-465 | a rebound entry, if it can be read, names the same size and digest under the moved key in any case |
| Clone.NewObjectKeeps | flowdocs/dataops/clone.py:96-132 | a write-once object never takes anything from under a pointer |
| Clone.NewPointerKeeps | flowdocs/dataops/clone.py:305-356 | a pointer to a vouched manifest leaves no dangling authority |
| Clone.Bucket.PutNew | flowdocs/dataops/clone.py:96-132 | put-if-absent whose reply may be lost: no dangling authority before, none after |
| Clone.Bucket.PutPointer | flowdocs/dataops/clone.py:305-356 | put-if-match of a backed pointer whose reply may be lost: no dangling authority before, none after |
| Clone.ImmutablePut | flowdocs/dataops/clone.py:96-132 | success means exactly this content is stored; a conflict means other content is |
| Clone.CopyObject | flowdocs/dataops/clone.py:409-434 | a copied object is stored with the listed size and digest |
| Clone.CopyObjects | flowdocs/dataops/clone.py:409-434 | all listed objects are stored, none conflicts with an earlier run of the same clone |
| Clone.RebasedBacked | flowdocs/dataops/clone.py:434-472 | everything the rebound manifest lists is stored |
| Clone.EnsureRegistration | flowdocs/dataops/clone.py:238-282 | an accepted registration is there in the end, and one that was there is never replaced |
| Clone.NewPointerReads | flowdocs/dataops/clone.py:285-302 | the pointer a clone writes is one it reads back, naming its generation and digest |
| Clone.PublishPointer | flowdocs/dataops/clone.py:305-356 | success returns a pointer to this generation and digest; one that is current already is left alone |
| Clone.MovePointer | flowdocs/dataops/clone.py:480-496 | a clone alone writes exactly the pointer to its manifest, with the epoch after the one it replaces |
| Clone.PublishGeneration | flowdocs/dataops/clone.py:434-496 | manifest, registration and pointer in this order keep the destination free of dangling authority at every crash point |
| Clone.EmptyIsCompatible | flowdocs/dataops/clone.py:359-513 | an empty destination is one a clone can start from |
| Clone.CompleteIsCompatible | flowdocs/dataops/clone.py:359-513 | a completed clone is one it can be run on again |
| Clone.CloneRebind | flowdocs/dataops/clone.py:359-513 | no dangling authority at any crash point of any number of runs; a rerun never conflicts with its own writes and completes; once complete it changes nothing and returns the same pointer |
| Tar.OctalRoundTrip | flowdocs/core/custody_audit.py:860-868 | a number written in octal digits and terminators is read back |
| Tar.HeaderRoundTrip | flowdocs/core/custody_audit.py:871-891 | a written ustar header is read back as its name, size and type, whatever its other fields hold |
| Tar.ArchiveRoundTrip | flowdocs/core/custody_audit.py:1018-1123 | reading a written archive gives exactly its members in order and ends at the two zero blocks |
| Tar.SerialisedInBlocks | flowdocs/core/custody_audit.py:1121-1123 | members end on block boundaries |
| ArchiveReader.BoundedArchiveReader.Read | flowdocs/core/custody_audit.py:792-805 | a read returns the next bytes within all limits, and only the clock stops one that can be served |
| ArchiveReader.BoundedArchiveReader.ReadExact | flowdocs/core/custody_audit.py:807-816 | exactly the next bytes, or a failure at most one chunk past the limit |
| ArchiveReader.BoundedArchiveReader.Discard | flowdocs/core/custody_audit.py:818-824 | exactly so many bytes passed over, or a failure at most one chunk past the limit |
| ArchiveReader.BoundedArchiveReader.HashMember | flowdocs/core/custody_audit.py:894-906 | the hashed bytes are the member's, and the flag says whether they begin as a PDF |
| ArchiveScan.Lookup | flowdocs/core/custody_audit.py:763-768 | a path below media/ is looked up as it is, any other from its last media marker on, and one without a marker as it is |
| ArchiveScan.Admit | flowdocs/core/custody_audit.py:1042-1071 | a member is refused exactly when the list of members with it is not admissible |
| ArchiveScan.ReadData | flowdocs/core/custody_audit.py:1084-1123 | the data and padding are consumed exactly, and the finding is the one the member deserves |
| ArchiveScan.ReadEnd | flowdocs/core/custody_audit.py:1021-1034 | the end is accepted exactly when a zero block and nothing but zeros follow |
| ArchiveScan.ScanStream | flowdocs/core/custody_audit.py:1015-1123 | the streaming scan completes on exactly those archives that, read at one go, parse and are admissible, with a sound stream within every limit, the clock aside; what it records is what their members say |
| ArchiveScan.SerialisedScanned | flowdocs/core/custody_audit.py:1015-1123 | a written archive is scanned to its end exactly when its members pass the checks |
| Evidence.CollectKeepsCaps | flowdocs/core/custody_audit.py:681-738 | the cap for each row and the total cap hold for a source together with everything before it |
| Evidence.UnlimitedIsEverything | flowdocs/core/custody_audit.py:1072-1118 | when nothing was refused the caps have made no difference |
| Evidence.RoomMeansUnlimited | flowdocs/core/custody_audit.py:1072-1083 | nothing is refused while the caps leave room for all hits |
| Custody.ScanEntries | flowdocs/core/custody_audit.py:681-735 | the loop over manifest entries takes them in order and loses none unless the clock runs out |
| Custody.NoteAllEnters | flowdocs/core/custody_audit.py:681-735 | what the loop body makes of the entries is their hits entered under the caps, and every stated digest is expected unless something was refused |
| Custody.ScanVault | flowdocs/core/custody_audit.py:564-754 | unless the listing fails or the clock runs out, the evidence is that of all listed generations, and the scan is completed exactly when the listing is complete, all of them verify and nothing was refused |
| Custody.GatherKeepsCaps | flowdocs/core/custody_audit.py:1072-1132 | the caps hold over vault and archives together |
| Custody.FailedAddNothing | flowdocs/core/custody_audit.py:1125-1141 | an archive that fails leaves the evidence as if it had never been named |
| Custody.CompleteIsUncapped | flowdocs/core/custody_audit.py:1143-1149 | with all archives completed and nothing refused the evidence is the uncapped evidence |
| Custody.ScanOpened | flowdocs/core/custody_audit.py:994-1134 | one archive completes exactly when it is readable within what is left of the budget and has not changed, the clock aside; it overruns what is left by at most a chunk, and a spent total by at most a block |
| Custody.ScanArchive | flowdocs/core/custody_audit.py:952-1142 | an archive is refused unread for exactly the stated reasons; the running read total stays within the budget |
| Custody.ScanArchives | flowdocs/core/custody_audit.py:909-1149 | evidence is exactly that of the archives with posture completed, under the caps; no file is counted under two names; all reads together stay within the budget |
| Custody.Audit | flowdocs/core/custody_audit.py:1227-1350 | the caps hold for the report, and a complete report equals the audit with no caps |
| LegacyCleanup.SelectEligible | flowdocs/core/artifact_cleanup.py:128-137 | a file beyond the newest three may go exactly when it is older than seven days or more than 5 GiB would be left after the newer ones that may go |
| LegacyCleanup.EligibleIsPolicy | flowdocs/core/artifact_cleanup.py:128-137 | the same for the pass with its running remainder, from any remainder on |
| LegacyCleanup.NothingEligibleIn | flowdocs/core/artifact_cleanup.py:128-137 | nothing may go exactly when beyond the newest three nothing has expired and all files together have at most 5 GiB |
| LegacyCleanup.FitIsBatch | flowdocs/core/artifact_cleanup.py:139-153 | a batch stays within 20 GiB and nothing left out would still fit |
| LegacyCleanup.MakePlan | flowdocs/core/artifact_cleanup.py:118-193 | candidates and deferred files part the eligible ones; it fails exactly for an insufficient or unsound retained set |
| LegacyCleanup.NothingNewEligible | flowdocs/core/artifact_cleanup.py:128-137 | after part of the eligible files has gone nothing else becomes eligible |
| LegacyCleanup.ReplanOnlyDeferred | flowdocs/core/artifact_cleanup.py:118-159 | a new plan at the same clock makes eligible only what was eligible and is left, and the newest three stay |
| LegacyCleanup.ReplanAllDeferred | flowdocs/core/artifact_cleanup.py:128-159 | the new plan makes all of that eligible exactly when each of these files has expired or has more than 5 GiB left in front of it |
| LegacyCleanup.DeferredNeedNotStay | flowdocs/core/artifact_cleanup.py:128-159 | a deferred file of 3 GiB that is not eligible any more after the batch with 18 GiB |
| LegacyCleanup.BackupDirectory.Apply | flowdocs/core/artifact_cleanup.py:196-258 | exactly a prefix of the approved batch goes, all of it on success |
| LegacyCleanup.BatchApplied | flowdocs/core/artifact_cleanup.py:196-258 | any applied part of a batch keeps all of these promises |
| LegacyCleanup.BatchesConverge | flowdocs/core/artifact_cleanup.py:118-258 | planning and applying over and over ends with the newest three kept and nothing eligible but files too big for any batch |
| LegacyCleanup.BatchesReachPolicy | flowdocs/core/artifact_cleanup.py:118-258 | without a file over 20 GiB they end with at most 5 GiB in all and nothing expired beyond the newest three |
| RecoveryPrune.PlanPrune | flowdocs/core/emergency_recovery.py:300-340 | remaining plus candidate bytes are the total; blocked exactly when what remains is over the limit |
| RecoveryPrune.JudgeSplits | flowdocs/core/emergency_recovery.py:311-322 | every set is a candidate, protected or kept, and so are all the bytes |
| RecoveryPrune.GuardedStay | flowdocs/core/emergency_recovery.py:316-319 | held sets and the newest ones are never candidates |
| RecoveryPrune.PruneSettles | flowdocs/core/emergency_recovery.py:300-354 | after pruning the bytes left are those planned, and a new plan at the same clock has no candidates |
| RecoveryPrune.SetDirectory.ApplyPrune | flowdocs/core/emergency_recovery.py:343-354 | exactly a prefix of the approved candidates goes, all of it on success |
| CanonicalRows.EscapeRead | flowdocs/core/media_quarantine.py:293-299 | a 16-bit unit can be read back from its escaped form |
| CanonicalRows.StreamTells | flowdocs/core/media_quarantine.py:235-308 | different lists of rows, with texts as units, never give the same hashed text |
| CanonicalRows.SameUnits | flowdocs/core/media_quarantine.py:293-299 | two texts are escaped alike exactly when they agree once every high surrogate is joined with a low one after it |
| CanonicalRows.SurrogatesCollide | flowdocs/core/media_quarantine.py:293-299 | two texts that are escaped alike |
| Attestation.HashRecords | flowdocs/core/media_quarantine.py:240-308 | the pieces fed to the digest are the text of all records, and the preview is the first identifiers |
| Attestation.BuildUnavailable | flowdocs/core/media_quarantine.py:231-315 | it builds exactly for valid rising records within the bound, and what it then states |
| Attestation.UnavailableTextTells | flowdocs/core/media_quarantine.py:231-315 | the hashed text determines all seven fields of every record |
| Attestation.UnavailableAccepted | flowdocs/core/media_quarantine.py:367-405 | every built attestation validates and comes back unchanged, for every limit from 0 to 100 |
| Attestation.BuildMissing | flowdocs/core/media_quarantine.py:318-364 | the same for missing files, with no bound on their number |
| Attestation.MissingTextTells | flowdocs/core/media_quarantine.py:318-364 | two lists are hashed alike exactly when they agree in all four fields of every record once surrogate pairs of the lifecycles are joined |
| Attestation.PlainMissingTold | flowdocs/core/media_quarantine.py:318-364 | the hashed text determines all records in which no high surrogate stands directly before a low one |
| Attestation.LifecyclesCollide | flowdocs/core/media_quarantine.py:318-364 | two lists that are accepted and hashed alike |
| Attestation.MissingAccepted | flowdocs/core/media_quarantine.py:318-405 | every attestation of missing files validates and comes back unchanged |

## Left out

- The first activation of a deployment (`_apply_initial_intent`), the disabled and production branches of the supervisors, signal handling and process environments.
- Signatures, MACs and intent expiry: a read returns what was written, and an expired intent is one that no tick picks. The order in which a tick goes through the intents is any order.
- Progress of the supervisors: some crash points leave an intent waiting for its expiry, so only safety is stated.
- Freezing a workspace either raises or freezes it; a workspace is identified with its generation.
- PublicationClient.SyncActiveGeneration: covers the control steps only; uploads, the manifest and the database rows are not modelled, and transport or malformed-record errors on reads are not told apart from the modelled failures.
- Snapshot.CopyFile: cuts a read loop off after a given number of chunks, because a file that grows for ever would keep the original reading for ever.
- Snapshot.CopyScannedFiles: keeps a component ".." of a category as it is, where a file system would resolve it; no such snapshot verifies.
- Snapshot.Capture: leaves out the workspace root checks, the inventory of the database image, progress callbacks and other processes publishing under the same snapshot id; the sorted order of a walk is any order.
- Clone.CloneRebind: starts after the confirmation and role checks, and leaves out object size limits, stores without conditional writes and the byte counts of its receipt; a failed read of the source counts as Transport. Monotone writer epochs under concurrent clones are not claimed: the epoch comes from an earlier read than the swap.
- Manifest.ValidateManifest: may name another error than the original when an entry has several faults; it fails for exactly the same manifests. NaN and integers written as floats beyond real arithmetic are not modelled.
- Rebind.RebaseValidates: takes a source section that is a mapping or empty; the list forms that Python's dict also accepts make the model fail with an error.
- ArchiveScan.ScanStream: takes the decompressed payload as a stream of bytes that may break; gzip itself, file descriptors and no-follow opening are not modelled.
- Custody.ScanVault: takes matched manifest entries as given; the path checks and limits of a manifest, which end the whole audit with an error, are not modelled.
- Custody.Audit: leaves out the search for missing references, the report's tokens and counts, and the limits on its parameters.
- LegacyCleanup.BackupDirectory.Apply: nobody else changes the directory during the call; the checks of paths and stats before the first removal are not modelled.
- RecoveryPrune.SetDirectory.ApplyPrune: nobody else changes the directory during the call; the names of published sets are distinct.
- Attestation.HashRecords: one loop stands for the two alike loops of the source.
- Locks with a lease epoch (`core/lease.py`), the older activation journal, environment policies, restore workspaces, search artifact health, the web interface and all database code: finite tables, plumbing or code whose own comments promise more than it does.
