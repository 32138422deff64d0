# Open Playlist Sync: a verified model

Open Playlist Sync keeps two playlists on different services in step. This project models the parts of
it that decide what is written to a playlist, and proves what they guarantee, in Dafny 4.11. Check it
with `dafny verify dfyconfig.toml`.

## What is modelled

**Reconciliation.** `Playlists`, `Reconciliation`, `PlanCounts`, `PlanContents` and `ReconciliationTheorems`
model the three-way merge over occurrence counts: grouping, first-sync policies, follow-source mode, two-way
mode with ISRC and count conflicts, and the order of a plan. The methods are the program's loops, each proved
equal to a specification per key (`PlanFor`). `PlanContents` says what such a plan holds in terms of the
playlists alone: its conflicts, the keys it leaves alone, its numbers, its order, and which occurrence each
action names; these determine every plan and every list of conflicts.

**Identity.** `TrackIdentity`, `IdentityTheorems`, `LinkPasses`, `LinkChoice` and `ReviewPasses` model the
mapping table that re-keys occurrences, the greedy linking of recordings already on both sides, the re-planning
passes, the preflight, and the saves and invalidations of an apply. `Overlay` is the repair of a lagging re-read
before the baseline is saved. `SyncCycle` puts review, apply, re-read, saved baseline and next review together,
and `RefusalExample` is a cycle that a refused addition misleads.

**Applying a plan.** `Executor` is one call of the executor with its callbacks, in every environment of
providers, lease and database, `ApplyEvents` what it does in each, exactly, and `ApplyResult` what it leaves of
a plan. `ApplyProtocol` is the protocol
around it as a step machine: any number of workers, one lease row, the run rows with their journals, a
clock, crashes between any two steps, and workers that keep running after their lease expired.
`ApplySafety` holds its invariants, `ApplyJournals` what the journals say, `ApplyFencing` the fate of
interrupted runs, `ApplyHold` and `ApplyAfterWrites` the hold on automatic evaluations, and `ApplyExamples`
the runs that show which conditions cannot be dropped. `ApplyPaths` shows what one undisturbed worker can make of a
review, an apply, its failure and a recovery; `ApplyMoves` is a helper for building runs.
`ExecutorInProtocol` proves that the executor refines the protocol, step by step. `Leases` and `LeaseHistory`
model the lease statements themselves, and `Scheduling` and `AutomaticSync` the recovery loop and the automatic
evaluation.

**Smaller protocols.** `Credentials` (renewal by compare-and-swap), `ProviderHealth` (incident recovery),
`LoginRateLimit` (fixed-window limiter), `Pagination` (snapshot reads against an arbitrary server) and
`MatchedRows` (row alignment of saved matches).

`Prelude` and `StableSort` are helpers.

## How it is modelled

- Track keys, provider ids, ISRCs, snapshot ids and cursors are opaque names; only equality and, for
  keys, the sort order matter. Both ISRC normalisers are taken to have been applied already, so one value
  stands for the results of both.
- A committed conditional UPDATE is one atomic step. The check of the lease and the commit that follow
  each other at the end of a review (src/ops/sync/coordinator.py:1496-1497) are one step: there is a
  single writer, as with SQLite.
- Lease tokens, refresh locks and ciphertexts are never handed out twice.
- A clock reading may lag true time by any amount but never leads it. `started_at` and `synchronized_at`
  come from one clock; in the program one is a database default and the other Python time.
- Within one snapshot equal provider ids carry equal keys (`IdentityTheorems.OneKeyPerId`), which the
  theorems that need it say.
- The coordinator's `prepare_review`, `_consume_review` and `apply` are steps of one state machine rather
  than methods of one class, because other workers act between any two of their commits.
- Login attempts and successes of one source come at times that do not go backwards.
- A provider call may renew its token, and the renewal commits the coordinator's own session
  (src/ops/auth/credentials.py:84-150, src/ops/sync/coordinator.py:382-391). So whatever was flushed before such
  a call may be committed by it: the links of earlier passes of a review (`ReviewPasses.Searches`), and the
  skipped marks of an apply while the playlists are read again (`ApplyProtocol.CommitSkips`).
- The two accounts of a pair differ (src/ops/api/routes.py:1170, 1186), so a side names an account.
- A worker that consumed an approval may act in its failure handler on what it remembers of the run and its
  journal, because a rollback without an open transaction does not re-read them; any other worker reads the
  rows. The handler's look at the status, its look at the journal, and its write are three steps.
- At apply time an addition has a persisted resolution or is skipped. The executor's fallback search is
  in `Executor`, but the identity theorems are about persisted resolutions, because the guards before the
  writes do not see what a late search returns.

## What was found

Seven things the program's own words or its design suggest do not hold as they stand. Each is stated
exactly.

- *A run marked `interrupted` has no writes* ("automatic retry is safe", src/ops/sync/scheduling.py:48).
  Recovery neither renews nor checks its lease after acquiring it. If it stalls past that lease, a run it
  then marks interrupted can still be written, and an automatic evaluation may start right after that write
  (`ApplyExamples.StalledRecoveryMisleads`). It holds whenever recovery decides while its token is on the
  lease row (`InterruptedNeverWrites`). Whether any run can still be written is decided by the rows and
  workers of the moment: `WriteStillPossibleIff`.
- *The hold after an uncertain apply.* An automatic evaluation is refused while a failed or applying run is
  at least as new as the newest baseline (src/ops/sync/automatic.py:60-70). `ApplyHold.HoldLastsIff` says
  exactly when a run holds until a newer baseline is saved, `AutomaticHoldIff` and `AutomaticSync.PairHeldIff`
  when the pair is held at all, and `ApplyAfterWrites.WriteIsHeldIff` what a caller can check when a write is
  sent. There are two ways out:
  - a baseline newer than the start of the run already exists when the write is sent, because the writer
    stalled between its renewal and its write (`ApplyExamples.LateSend`) or another worker saved a baseline
    after losing its lease, which nothing checks (`LateSave`);
  - the status is overwritten by somebody who read it earlier: a stalled recovery (`OverwriterIsReachable`,
    `StalledRecoveryMisleads`) or a failed preflight (`RejectionAfterWrite`, `RejectionBeforeWrite`).
- *The journal of an apply is its consumer's.* The failure handler of `apply` runs for every worker whose
  apply raised while the run's status reads `applying`, whoever consumed the approval
  (src/ops/sync/coordinator.py:1949-1963), and it writes its failure mark by primary key. So a worker that
  stalled before consuming can call an entry failed that the lease's owner has completed meanwhile: then two
  acknowledged writes are without a completed entry (`ApplyExamples.RivalSpoilsJournal`), or the journal of a
  run whose baseline was saved is not split into completed and skipped entries (`RivalAtFinish`). No action is
  ever sent twice for it, and what the consumer itself committed stays exact (`ApplyJournals.JournalsAreExact`).
  When a token renewal commits the skipped marks ahead of the baseline, the failure mark may also fall between the
  two (`RivalAfterSkips`). `JournalStaysTightIff` decides the first at the moment a run is consumed,
  `JournalStaysPartitionedIff` the second at the moment its baseline is saved, and `PartitionLastsIff` at any
  time after.
- *Saving the plan's mappings re-keys nothing that is already there.* In follow-source mode it can:
  `LinkPasses.FollowSourceCanRekey` is an example that passes every guard. `IdentityTheorems.RekeysNothingOnIff`
  gives the exact condition for each playlist, and `LinkPasses.OnlyTheFallbackRekeys` says where it comes from:
  the fallback to baseline occurrences in src/ops/sync/domain.py:304. Two-way plans and first syncs are free of
  it.
- *The baseline saved after an apply is what the playlists hold.* A refused addition drops the mapping of the
  recording it was resolved to (src/ops/sync/coordinator.py:1085-1099), even when that recording is on the
  playlist already. Its occurrence then no longer reads as the song, the shortfall looks like a delayed copy,
  and the baseline counts one copy too many: `RefusalExample.RefusalMisleads`, where the next two-way review
  would remove a copy from the source. `SyncCycle.NextReviewIsEmpty` shows that nothing goes wrong when
  dropping the mappings of the refused additions removes no row, and `NextReviewWhenKept` that nothing does
  for any refusals that leave each playlist's keys as they were. `Overlay.OverlayIsExactIff` says exactly when
  the repaired count of a key is the true one.
- *Delivery order of health events* matters for an authentication failure exactly when some success of the
  account started at the very same time and none started later (`ProviderHealth.OrderDoesNotMatterIff`).
- *The rate limiter* lets at most nine attempts through in any 15 minutes, where two windows of five would
  suggest ten, and nine is reached. Each success of the source inside the interval allows at most five more,
  and fourteen with one success are reached (`LoginRateLimit.FourteenAreReached`).

## Model

| member | source | states |
|---|---|---|
| Playlists.GroupedByKey | src/ops/sync/domain.py:110-114 | the grouping loop: every key present maps to exactly its occurrences in playlist order, and no other key is present |
| Reconciliation.Reconcile | src/ops/sync/domain.py:342-445 | the whole of reconcile, with its loops, computes the per-key specification PlanFor in all modes and policies |
| Reconciliation.MetadataConflictKeys | src/ops/sync/domain.py:207-246 | the ISRC loop finds exactly the clashing re-keyings, in ISRC order, and suppresses exactly their keys |
| Reconciliation.BuildInitialActions | src/ops/sync/domain.py:249-282 | the first-sync loop yields, key by key in order, the surplus of one side for the other |
| Reconciliation.BuildFollowActions | src/ops/sync/domain.py:285-325 | the follow-source loop yields, key by key, rotated source copies to add and distinct live target occurrences to remove |
| Reconciliation.BuildTwoWay | src/ops/sync/domain.py:372-445 | the two-way loop yields, for every changed unsuppressed key, its conflict or the net adds and removes |
| PlanContents.IsrcConflictIff | src/ops/sync/domain.py:207-246 | a two-way plan reports an ISRC if and only if the last occurrences that carry it, before and now, changed their key on both sides, to different keys |
| PlanContents.RenamedIsUntouched | src/ops/sync/domain.py:228-235 | then no action and no other conflict of the plan is about any of the four keys involved |
| PlanContents.CountConflictIff | src/ops/sync/domain.py:387-396 | it reports a key with given changes if and only if the key's count went up on one side and down on the other in just that way, and no such recording has or had that key |
| PlanContents.ConflictFreeIff | src/ops/sync/domain.py:376-396 | a two-way plan has no conflicts if and only if no recording was renamed differently on both sides and no count went up on one side and down on the other |
| PlanContents.ConflictsInOrder | src/ops/sync/domain.py:223-246 | ISRC conflicts come first, by ISRC, then count conflicts, by key, none twice; first syncs and follow-source plans have none |
| PlanContents.TwoWayMoves | src/ops/sync/domain.py:383-443 | how many copies of a key a two-way plan adds and removes on each side, from the changes of its two counts |
| PlanContents.PlanIsInOrder | src/ops/sync/domain.py:328-339 | every plan: source before target, additions before removals, then keys, then positions with missing ones as 0 |
| PlanContents.PlanIsDetermined | src/ops/sync/domain.py:328-339 | nothing is left open: two lists of actions in plan order that name the same occurrences for every side, kind, key and position are equal, ties included |
| PlanContents.InitialTakes | src/ops/sync/domain.py:262-281 | the additions of a first sync for a key name the first occurrences of the other side, in playlist order among equal positions, and say why |
| PlanContents.TwoWayTakes | src/ops/sync/domain.py:398-443 | two-way additions name the first occurrences of the other side and two-way removals the first of their own, in the same sense |
| PlanContents.FollowCopies | src/ops/sync/domain.py:304-315 | follow-source additions name, in rotation, the occurrences the source shows of the key, or those of the baseline if it shows none |
| PlanContents.FollowDropsFirst | src/ops/sync/domain.py:316-324 | follow-source removals name the first occurrences the target shows |
| StableSort.SortFilter | src/ops/sync/domain.py:328-339 | the plan order is stable: selecting and sorting commute for every selection |
| PlanCounts.PlanNum | src/ops/sync/domain.py:249-443 | for every baseline, pair of playlists, mode, policy and key, exactly how many additions and removals the plan holds on each side |
| PlanCounts.PlanRemovesLive | src/ops/sync/domain.py:316-324 | every removal of every plan names a live occurrence of its side and none is named twice |
| ApplyResult.AcknowledgedCounts | src/ops/sync/executor.py:105-137 | whatever is skipped, refused, lost or cut short: a playlist changed by exactly the acknowledged writes has, for every key, its count before plus the acknowledged adds minus the acknowledged removals |
| PlanCounts.PlanResult | src/ops/sync/domain.py:342-445 | the exact count of every key on either side after a whole plan |
| ReconciliationTheorems.TwoWayClosedForm | src/ops/sync/domain.py:372-445 | a conflict-free two-way plan leaves each key on each side at max(0, that side's baseline count + the larger of the two changes) |
| ReconciliationTheorems.FollowSourceClosedForm | src/ops/sync/domain.py:285-325 | follow-source never touches the source; the target ends at baseline plus the source's change, or at min(now, baseline) for keys the source never had |
| ReconciliationTheorems.FirstSyncClosedForm | src/ops/sync/domain.py:249-282 | a first sync only adds, and lifts each side it may write to up to the larger count |
| ReconciliationTheorems.Convergence | src/ops/sync/domain.py:342-445 | reconciling again with the same baseline after a conflict-free plan gives no action and no count conflict, in both modes, under every policy, for unequal baselines too |
| ReconciliationTheorems.UnchangedNeedsNothing | src/ops/sync/domain.py:372-378 | playlists whose counts equal the baseline's need no action |
| ReconciliationTheorems.OneDirectionPerKey | src/ops/sync/domain.py:298-324 | no plan both adds and removes one key, even on different sides |
| ReconciliationTheorems.Mirrored | src/ops/sync/domain.py:342-445 | swapping source and target in all inputs gives the mirrored plan, action by action within each side, and the mirrored conflicts |
| Overlay.WithAcknowledgedAdditions | src/ops/sync/coordinator.py:853-882 | the overlay keeps every visible occurrence and appends, in order and under their actions' keys, exactly the acknowledged additions of that side that its copies of the key, with the earlier ones, still fall short of; so it ends at visible + min(adds, max(0, before + adds - visible)) per key |
| Overlay.NeverRestores | src/ops/sync/coordinator.py:870-882 | a key the plan removes anywhere keeps its visible count |
| Overlay.OverlayIsExact | src/ops/sync/coordinator.py:1914-1925 | if the listing hides only acknowledged additions, the overlay restores the true counts |
| Overlay.OverlayIsExactIff | src/ops/sync/coordinator.py:870-882 | whatever changed the playlist meanwhile: the repaired count of a key is the true one if and only if it has no acknowledged addition, or the true count is the one before plus these, or it is more and none is hidden, or less and all are |
| Overlay.CaughtUpReviewIsEmpty | src/ops/sync/coordinator.py:1919-1925 | then the first reconciliation against the saved baseline, once the listings have caught up, is empty, in every mode and for any accepted subset |
| SyncCycle.CompletedExactly | src/ops/sync/executor.py:90-141 | an apply that returned has completed, after an acknowledgement, exactly the removals and the resolved additions that were not refused, in plan order |
| SyncCycle.KeysStayIff | src/ops/sync/coordinator.py:482-507 | guards passed, apply returned, and no refused addition had a mapping to drop: a playlist reads its old occurrences as before and its new ones under the plan's keys if and only if no accepted addition names as its origin a recording this playlist showed under another key |
| SyncCycle.ApplyingHolds | src/ops/sync/coordinator.py:1845-1925 | what the overlay assumes of a playlist follows in that case: each re-keyed count is the one before plus the acknowledged additions minus the removals |
| SyncCycle.NextReviewIsEmpty | src/ops/sync/coordinator.py:1829-1925 | the whole cycle, in every mode and under every policy: guards, apply, mappings saved, lagging re-read repaired, baseline saved and re-keyed; the first review of the caught-up playlists has no action and no count conflict, if no refused addition had a mapping to drop and, for two-way plans and first syncs, equal provider ids carry equal keys |
| SyncCycle.NextReviewWhenKept | src/ops/sync/coordinator.py:1829-1925 | the same for any refusals, if each playlist kept its keys or was sent no addition |
| RefusalExample.RefusalMisleads | src/ops/sync/coordinator.py:1085-1099 | a cycle in which every guard passes, nothing lags, and a refused addition drops the mapping of a recording the target shows: the saved baseline counts one copy too many, and the next review removes a copy from the source in two-way mode or adds one more in follow-source mode |
| TrackIdentity.ExistingDestinationEquivalences | src/ops/sync/coordinator.py:591-665 | the edge collection, the sort by evidence, and the greedy loop with its two id sets compute the specified matching |
| LinkChoice.StrongestFirst | src/ops/sync/coordinator.py:629-665 | for every addition whose resolved recording is already on its destination under another key, a link is taken that shares a recording with that pair and is not weaker: the same id before the same ISRC, then plan order, then position, then playlist order |
| LinkChoice.LinksAreCandidates | src/ops/sync/coordinator.py:609-665 | every link taken names the two recordings of such a pair by side, under the addition's key towards the target and else under the key the source shows |
| TrackIdentity.RekeyedAs | src/ops/sync/coordinator.py:482-507 | re-keying keeps every occurrence in place and changes nothing but its key, to that of its recording's row if there is one of the current identity version |
| TrackIdentity.TrackMappings.SaveTrackMapping | src/ops/sync/coordinator.py:509-548 | one row save: creates, refreshes or raises; the row's key, counterpart, ISRC, version and provenance afterwards, and every other row as before |
| TrackIdentity.TrackMappings.SaveResolvedTrackMappings | src/ops/sync/coordinator.py:550-578 | both rows of an accepted addition are written, each naming the other recording, if and only if neither had another key |
| TrackIdentity.TrackMappings.InvalidateStaleResolution | src/ops/sync/coordinator.py:1085-1099 | after a rejection the refused recording has no row, the origin recording has none if its row pointed at the refused one, and every other row is what it was |
| TrackIdentity.RefusalUndoesAcceptance | src/ops/sync/coordinator.py:1085-1099 | refusing a choice whose acceptance was saved leaves neither recording of the addition a row, and the others as they were before the save |
| TrackIdentity.TrackMappings.SaveEquivalentTrackMappings | src/ops/sync/coordinator.py:667-710 | the loop writes both rows of every link in turn, under a key one of them had, the source's first, or else the link's own, or raises at the first link whose recordings have different keys |
| TrackIdentity.TrackMappings.ResolvedMappingsCompatible | src/ops/sync/coordinator.py:712-763 | the preflight loop accepts if and only if the resolutions agree with the table and with each other, in whatever order it visits them |
| IdentityTheorems.PreflightIsSound | src/ops/sync/coordinator.py:712-763 | resolutions that pass the preflight never raise a mapping conflict while they are saved, for every pattern of accepted, rejected and untried additions with invalidations in between |
| IdentityTheorems.SavedMeansAgreed | src/ops/sync/coordinator.py:745-763 | conversely, if saving every resolved addition succeeds, the resolutions agreed: the preflight rejects no more than it must |
| IdentityTheorems.GuardMeansNoEquivalents | src/ops/sync/coordinator.py:1829-1835 | apply's guard passes if and only if no resolved addition is already on its destination under another key |
| IdentityTheorems.RekeysNothingOnIff | src/ops/sync/coordinator.py:482-507 | with the guards passed and nothing rejected, the saves re-key no occurrence present before on a playlist if and only if no addition names as its origin a recording that this playlist shows under another key |
| IdentityTheorems.RekeysNothingIff | src/ops/sync/coordinator.py:482-507 | the same for both playlists together |
| IdentityTheorems.FollowAddsOrigin | src/ops/sync/domain.py:304-315 | a follow-source addition copies a live source occurrence, or one of the baseline only when the source shows the key nowhere |
| IdentityTheorems.TwoWayRekeysNothing | src/ops/sync/domain.py:398-417 | in two-way mode and on a first sync the saves never re-key an occurrence that is already there |
| IdentityTheorems.CountsAfterWrites | src/ops/sync/coordinator.py:1900-1925 | with the guards passed, nothing rejected, and no addition naming as its origin a recording this playlist shows under another key: after the writes, every key's count on the re-read playlist is the pre-write count plus that side's adds minus its removals |
| LinkPasses.MaximalMatching | src/ops/sync/coordinator.py:629-665 | links use no provider id twice per side, all come from the plan's edges, and no further edge could be added |
| LinkPasses.SavedLinks | src/ops/sync/coordinator.py:667-710 | a pass that does not raise leaves both recordings of every link current under one key |
| LinkPasses.OneKeyPerLink | src/ops/sync/coordinator.py:1432-1435 | after re-reading, all occurrences of a linked pair on both playlists carry one common key |
| LinkPasses.PassProgresses | src/ops/sync/coordinator.py:1418-1438 | a pass that finds links raises or strictly reduces the entries of both playlists and the baseline without a current mapping |
| ReviewPasses.StabilizeReview | src/ops/sync/coordinator.py:1413-1439 | the pass loop with its guard: a review without baseline upgrade or conflict ends with nothing left to link and passes the preflight; no saved key ever changes; a review that raises keeps exactly the links that were there when the last token renewal committed them, none if no pass after the first renewed a token; giving up means at least four entries had no current mapping |
| LinkPasses.OnlyTheFallbackRekeys | src/ops/sync/domain.py:304 | in follow-source mode only additions taken from the baseline can re-key a live occurrence |
| LinkPasses.FollowSourceCanRekey | src/ops/sync/coordinator.py:571-578 | a concrete pair on which every guard passes and an accepted follow-source addition re-keys a recording the source shows |
| Executor.RunPreflight | src/ops/sync/executor.py:90-103 | the preflight loop splits the plan into prepared and skipped ordinals, or raises at the first addition that is unresolved or whose search raises |
| Executor.Apply | src/ops/sync/executor.py:62-141 | the executor's loops and callbacks produce exactly the specified event log and result in every environment |
| ApplyEvents.LogIs | src/ops/sync/executor.py:81-141 | in every environment: an action is sent, acknowledged, refused or completed if and only if the apply is approved, no addition stops the preflight, no earlier write ends the apply, and the environment answers so |
| ApplyEvents.LogIsWellOrdered | src/ops/sync/executor.py:105-137 | every log is a sequence of turns in plan order, the last of which may be cut short: a renewal, directly after it the send, and directly after that its refusal or its acknowledgement and then its completion |
| ApplyEvents.RaisedIff | src/ops/sync/executor.py:81-141 | an apply raises if and only if it is not approved, some addition stops its preflight, or the write of some action ends it |
| ApplyEvents.ResultIs | src/ops/sync/executor.py:99-141 | a returned apply lists as skipped, in plan order, first the additions without a recording and then the refused ones, and exactly the latter as rejected |
| Executor.EveryApplyIsSound | src/ops/sync/executor.py:105-137 | at every moment of every apply: sends in plan order and none twice, each directly after a successful renewal, acknowledged writes at most one ahead of completed entries |
| Executor.ReturnsAccountForAll | src/ops/sync/executor.py:90-141 | an apply that returns has completed or skipped each ordinal, never both |
| Executor.SendsAreReviewed | src/ops/sync/executor.py:93-135 | each removal sent names the whole reviewed occurrence, field by field, and the newest snapshot of its side; each addition the recording reviewed for it, whatever a search would find, or else what the search found |
| Executor.NothingBeforePreflight | src/ops/sync/executor.py:81-103 | without a valid approval, with a search that raises, or with an unresolved addition that may not be skipped, nothing is sent |
| ExecutorInProtocol.EveryApplyIsARun | src/ops/sync/executor.py:105-141 | in every environment, from every reachable state with the journal committed, and with arbitrary steps of other workers after each step of its own: the executor's log is what its worker shows in that run of the protocol, with the renewals answered by the lease row; an apply that returns leaves the worker at the end of the plan, one that a refused renewal ended leaves it at a renewal the lease row refused, any other in its failure handler |
| ApplyPaths.ReviewIsPlanned | src/ops/sync/coordinator.py:1360-1500 | a worker that finds the pair free can carry a review of any number of actions through: it leaves a planned run over the newest baseline and frees the pair |
| ApplyPaths.ApplyCompletes | src/ops/sync/coordinator.py:1727-1940 | a worker that finds the pair free can apply a planned run over the newest baseline to its end, whichever actions are skipped, taken and refused: the run is applied, its journal tells what became of each action and how often it was sent, a baseline is saved, and the pair is free |
| ApplyPaths.ApplyFails | src/ops/sync/coordinator.py:1949-1965 | an apply can end in an exception at any stage: its run and the first action still planned have failed, nothing else changes, and the lease is given back if it is still there |
| ApplyPaths.RecoverySettles | src/ops/sync/scheduling.py:15-54 | a worker that finds the pair free can carry a recovery through in the protocol, and it leaves exactly the rows that the sequential loop leaves |
| ApplySafety.InvRun | src/ops/sync/coordinator.py:1755-1965 | what every step of every worker keeps: one author, then one consumer per run; journals written by their consumer alone but for failure marks; entries settled before and untouched after the consumer's position; status columns that never claim a completion or a skip that did not happen; tokens never shared |
| ApplyJournals.JournalsAreExact | src/ops/sync/coordinator.py:1845-1934 | over all workers, retries and crashes: each ordinal sent at most once; a status column that says completed, skipped or planned is right; at most one acknowledged write whose completion the consumer did not commit; and a saved baseline means that the consumer completed or listed each ordinal, never both |
| ApplyJournals.JournalStaysTightIff | src/ops/sync/coordinator.py:1729-1753 | when a run is consumed: in every continuation at most one acknowledged write lacks a completed entry, if and only if the plan has fewer than two actions, or the consumer has lost the lease, or no other worker is inside an apply of the run |
| ApplyJournals.JournalStaysPartitionedIff | src/ops/sync/coordinator.py:1887-1939 | when the baseline is saved: the journal splits the plan into completed and skipped actions in every continuation, if and only if no completion was overwritten, no skipped mark either if a token renewal committed these ahead of the baseline, and no failure handler has picked an entry |
| ApplyJournals.PartitionLastsIff | src/ops/sync/coordinator.py:1949-1962 | the same in every later reachable state, for every run whose baseline was saved |
| ApplyExamples.RivalSpoilsJournal | src/ops/sync/coordinator.py:1949-1962 | a run in which the failure handler of a worker that stalled before consuming makes two acknowledged writes look uncompleted, while the consumer has the lease all along |
| ApplyExamples.RivalAtFinish | src/ops/sync/coordinator.py:1949-1962 | a run in which such a handler spoils a journal after the lease's owner saved the baseline |
| ApplyExamples.RivalAfterSkips | src/ops/sync/coordinator.py:1887-1900 | a run in which the skipped marks are committed early and such a handler marks one failed before the baseline is saved: the journal is never right again |
| ApplyFencing.InterruptedNeverWrites | src/ops/sync/scheduling.py:26-52 | with timely recovery, a run ever marked interrupted has no provider write, before or after, in any continuation |
| ApplyFencing.WriteStillPossibleIff | src/ops/sync/scheduling.py:32-41 | in every reachable state, for every run: it can have or get a provider write if and only if it was written already, or it awaits approval with something to write and no baseline saved since, or some worker on it has writes left and has just renewed or has its token on the lease row |
| ApplyExamples.StalledRecoveryMisleads | src/ops/sync/scheduling.py:26-54 | a run of the protocol in which recovery outlives its lease and marks a run interrupted that the lease's owner then writes, after which an automatic evaluation may start |
| ApplyHold.HoldLastsIff | src/ops/sync/automatic.py:60-70 | in every reachable state, for every run: it stands in the way of automatic evaluations in every continuation without a new baseline if and only if it failed or is applying with a journal, is at least as new as every baseline, and nobody is about to overwrite its status unseen |
| ApplyHold.AutomaticHoldIff | src/ops/sync/automatic.py:57-70 | in every reachable state: no automatic evaluation may start in any continuation without a new baseline if and only if there is no baseline yet or some run meets that condition |
| ApplyAfterWrites.WriteIsHeldIff | src/ops/sync/executor.py:105-137 | when a provider write is sent: its run blocks automatic evaluations until a newer baseline is saved if and only if no baseline is newer than the run's start, its status still says failed or applying, and nobody is about to overwrite it |
| ApplyAfterWrites.NoNewerBaselineAtSend | src/ops/sync/coordinator.py:1776-1787 | if baselines were saved only by workers whose token was on the lease row, a worker that sends while its own is there writes for a run no baseline is newer than |
| ApplyAfterWrites.NoAutomaticStartAfterWrite | src/ops/sync/automatic.py:57-70 | after a provider write for a run no baseline is newer than, no automatic evaluation starts until a newer baseline is saved, and none that begins later gets to write, provided recovery decided and failed preflights file under their leases |
| ApplyExamples.LateSend | src/ops/sync/executor.py:105-113 | a run in which a writer stalls between renewal and write, another worker saves a baseline under its lease, and an automatic evaluation may start right after the write |
| ApplyExamples.LateSave | src/ops/sync/coordinator.py:1688-1712 | the same with a writer that owns the lease and a baseline saved by a worker that had lost its own |
| ApplyExamples.OverwriterIsReachable | src/ops/sync/scheduling.py:26-54 | a reachable uncertain run with a journal and a recovery worker about to mark it interrupted: it blocks, but not for good |
| ApplyExamples.RejectionAfterWrite | src/ops/sync/coordinator.py:1942-1948 | after a write that is held, a failed preflight that lost its lease files its failure and lifts the hold |
| ApplyExamples.RejectionBeforeWrite | src/ops/sync/coordinator.py:1942-1948 | the same failure filed just before the write leaves it unheld |
| Leases.PairRow.AcquirePairLease | src/ops/sync/leases.py:72-105 | the conditional update of acquire, what it writes, and that it leaves the other kind alone |
| Leases.PairRow.Renew | src/ops/sync/leases.py:41-56 | renew succeeds exactly for the unexpired owner and moves only the expiry |
| Leases.PairRow.Release | src/ops/sync/leases.py:58-69 | release clears the row only for the token that is on it |
| Leases.PairRow.AssertOwned | src/ops/sync/leases.py:30-39 | the ownership check |
| LeaseHistory.HeldIff | src/ops/sync/leases.py:30-56 | in every run: a worker passes the ownership check, and renews, if and only if the last statement that recorded its lease gave it an end after the time it reads, and nobody took or gave back the lease since |
| LeaseHistory.GrantedIff | src/ops/sync/leases.py:88-105 | in every run: a lease is granted if and only if any lease of its kind still on record ends by the time the caller reads |
| Leases.NoGrantBeforeExpiry | src/ops/sync/leases.py:88-103 | in every run, while a lease is recorded nobody is granted one of its kind before its recorded expiry |
| Leases.SupersededForever | src/ops/sync/leases.py:30-69 | once a later lease is granted, an earlier one never again renews, passes the check, or clears the row |
| Leases.KindsAreIndependent | src/ops/sync/leases.py:82-99 | deleting every statement of one kind from any run changes nothing for the other |
| Scheduling.RunTable.RecoverListed | src/ops/sync/scheduling.py:23-54 | from the listed runs on, whatever other workers committed in between: exactly the listed runs that are still unfinished get their verdict, a busy pair changes nothing, the lease is released |
| Scheduling.RunTable.RecoverInterruptedRuns | src/ops/sync/scheduling.py:15-54 | a whole recovery with nobody else at work: nothing stays unfinished, finished runs are untouched, and exactly the applies with a journal stay uncertain beside the failures there were; it raises exactly if the pair is busy and something is unfinished |
| AutomaticSync.Evaluation.RunAutomaticPair | src/ops/sync/automatic.py:42-104 | the cascade of holds: a review is prepared exactly when the pair is enabled, nothing asks to wait, there is a baseline and no run since that failed or is applying; it is applied exactly when its removals are within bounds, it is free of conflicts, not a first sync and not empty; every outcome means one case |
| AutomaticSync.PairHeldIff | src/ops/sync/automatic.py:57-70 | in every reachable state of the protocol: no evaluation of the pair prepares a review before a new baseline is saved if and only if there is no baseline yet or some run blocks permanently |
| AutomaticSync.Evaluation.BulkRemovals | src/ops/sync/automatic.py:79-84 | the loop over sides stops if and only if some side has too many removals |
| AutomaticSync.AutomaticRemovalsAreModest | src/ops/sync/automatic.py:78-97 | whatever happens during an automatic apply, no action is sent twice, and per side with n baseline tracks at most ten removals are sent, at most n/4 unless it is one, and fewer than n if any |
| Credentials.ProviderAccount.TakeLock | src/ops/auth/credentials.py:67-83 | the lock is taken exactly over the credential that was read, while no lock is recorded or the recorded one has ended, and then for two minutes |
| Credentials.ProviderAccount.Replace | src/ops/auth/credentials.py:113-126 | the compare-and-swap of the ciphertext: it commits exactly over the credential that was read, under the own unexpired lock |
| Credentials.LockGrantedIff | src/ops/auth/credentials.py:67-83 | in every world of workers: a worker is granted the lock exactly in that case, and otherwise its call ends and nothing changes |
| Credentials.LockExcludes | src/ops/auth/credentials.py:67-83 | from a grant to the end of its two minutes, whatever else happens, no second worker is granted the lock unless the holder gave it back |
| Credentials.CommittedIff | src/ops/auth/credentials.py:113-126 | a renewal is committed exactly over the credential its worker read, under its own unexpired lock |
| Credentials.AnsweredWith | src/ops/auth/credentials.py:127-142 | what a call answers after its attempt, and that it clears exactly its own lock |
| Credentials.RenewalsReplaceWhatTheyRead | src/ops/auth/credentials.py:113-126 | in every interleaving each committed renewal directly replaces the very credential its worker read |
| Credentials.OneRenewalPerCredential | src/ops/auth/credentials.py:65-83 | two renewals never both commit from one credential |
| Credentials.OperatorWriteSurvives | src/ops/auth/credentials.py:116-121 | a reconnect or disconnect during the network call survives the pending renewal at any later time |
| Credentials.NeverTheOldToken | src/ops/auth/credentials.py:127-132 | a call that set out to renew returns a different credential or raises, never the old one |
| ProviderHealth.AccountHealth.Verify | src/ops/providers/health.py:16-50 | what a success updates: the timestamp only forwards, and exactly the older incidents in its scope |
| ProviderHealth.AccountHealth.RecordFailure | src/ops/providers/health.py:53-102 | a failure files one incident with its retry time, resolved at once exactly if a later-started success is already recorded |
| ProviderHealth.StampsAreNewest | src/ops/providers/health.py:23-32 | after any history the account's two timestamps are the latest starts of its token renewals and of its other authenticated successes |
| ProviderHealth.WaitsDouble | src/ops/providers/health.py:62-77 | after any history of the account: a failure that backs off waits one minute, doubled for each earlier failure of the same pair and category that no success has answered by then, up to an hour, and nothing delivered later changes that |
| ProviderHealth.OpenFailures | src/ops/providers/health.py:33-49 | for every sequence of events, exactly which authentication failures stay open |
| ProviderHealth.OpenIffNewest | src/ops/providers/health.py:80-98 | a failure that no success tied stays open if and only if it started after every success |
| ProviderHealth.OrderDoesNotMatterIff | src/ops/providers/health.py:16-98 | for every sequence of events: all delivery orders treat a failure alike if and only if some success started later or none started at the same moment |
| ProviderHealth.OrderDoesNotMatter | src/ops/providers/health.py:16-98 | so any two such orders leave the same of these failures open |
| ProviderHealth.TiesDependOnOrder | src/ops/providers/health.py:46 | equal start times: the order decides |
| Pagination.Paged | src/ops/providers/youtube_music.py:204-244 | against every server: at most 1000 requests, no continuation repeated, success exactly with the in-order concatenation of all pages and every checked total equal to its length, refusal exactly when no complete read exists |
| Pagination.Pages | src/ops/providers/spotify.py:132-181 | the same for the generator, with every reported offset equal to the items before that page, and what it has yielded when it stops |
| Pagination.NothingLost | src/ops/providers/youtube_music.py:233-240 | each item of each page stands in the result at the place its page begins plus its index |
| LoginRateLimit.RateLimits.ReserveLoginAttempt | src/ops/security/local_auth.py:160-211 | one attempt: the window and counter afterwards, and whether it is allowed |
| LoginRateLimit.SuccessStartsOver | src/ops/security/local_auth.py:214-223 | after a success the attempts of a source fare exactly as in a history of their own |
| LoginRateLimit.WindowsApart | src/ops/security/local_auth.py:169-183 | successive windows of one source start at least 15 minutes apart |
| LoginRateLimit.CounterIsExact | src/ops/security/local_auth.py:180-204 | the counter is the number of attempts of its window, and the window granted min(attempts, 5) |
| LoginRateLimit.EachWindowGrantsFive | src/ops/security/local_auth.py:206-211 | every window grants exactly min(attempts, 5) |
| LoginRateLimit.AtMostNinePerInterval | src/ops/security/local_auth.py:169-209 | any half-open 15 minutes lets at most nine attempts of one source through |
| LoginRateLimit.NineIsReached | src/ops/security/local_auth.py:169-209 | a schedule that reaches nine |
| LoginRateLimit.FiveMorePerSuccess | src/ops/security/local_auth.py:160-223 | with successes in between: at most nine attempts and five more for each success inside the interval |
| LoginRateLimit.FourteenAreReached | src/ops/security/local_auth.py:160-223 | a schedule with one success that reaches fourteen |
| MatchedRows.MatchedTrackRows | src/ops/api/routes.py:1270-1290 | the queues, the pops and the used set produce exactly the specified rows |
| MatchedRows.EveryLeftOnce | src/ops/api/routes.py:1281-1285 | each left occurrence is in exactly one row, beside the right occurrence of the same key and rank if there is one |
| MatchedRows.EveryRightOnce | src/ops/api/routes.py:1277-1289 | each right occurrence is in exactly one row |
| MatchedRows.RestInOrder | src/ops/api/routes.py:1286-1289 | after the rows of the left occurrences come right occurrences alone, in order |
| MatchedRows.PairedInOrder | src/ops/api/routes.py:1281-1285 | same-key occurrences are paired in order on both sides |
| MatchedRows.PairedCount | src/ops/api/routes.py:1281-1285 | each key has exactly min(left count, right count) paired rows |

## Left out

- ApplyFencing.InterruptedNeverWrites: assumes that recovery decides while its token is on the lease row, because without it the statement is false (`ApplyExamples.StalledRecoveryMisleads`); `WriteStillPossibleIff` is exact.
- ApplyAfterWrites.NoNewerBaselineAtSend: assumes that baselines are saved, and the write is sent, by a worker whose token is on the lease row; without the first it is false (`ApplyExamples.LateSave`), without the second too (`LateSend`). The program checks the lease before a write, not at it, and does not check it when it saves a baseline.
- ApplyAfterWrites.NoAutomaticStartAfterWrite: assumes, of the past, that recovery decides and failed preflights file while their tokens are on the lease row, and of the future only the latter, each because without it the statement is false (`ApplyExamples.StalledRecoveryMisleads`, `RejectionBeforeWrite`, `RejectionAfterWrite`); `WriteIsHeldIff` is exact without any of them.
- IdentityTheorems.RekeysNothingIff: about additions that are all accepted, as is RekeysNothingOnIff; after a rejection the deleted rows may change the keys of other occurrences. `SyncCycle.KeysStayIff` is about every rejection that has no row to delete.
- SyncCycle.NextReviewIsEmpty: assumes that no refused addition has a mapping to drop, because without that it is false (`RefusalExample.RefusalMisleads`); `SyncCycle.NextReviewWhenKept` is about any refusals. That the condition is necessary in every single case is not claimed: dropped rows may happen to change no key.
- ApplyProtocol commits the verdicts of one recovery one by one, in any order, after all decisions; the program commits them together, which is one of the modelled behaviours.
- Reviews that end as `conflict` or `baseline_upgrade` do not appear in `ApplyProtocol`: they can never be applied. `Invalidate` stands for every update that makes planned reviews stale.
- The approval's own content (fingerprint, token hash, expiry) and the state hashes compared before an apply: they only refuse, which `GiveUp` covers.
- The manual replacement (`prepare_replacement`): its plan adds and removes on one side in that order and skips the overlay; `Executor` covers how it is sent.
- Scheduling.RunTable.RecoverListed: does not let other workers act between its verdicts; `ApplyProtocol` does.
- The run status `partially_applied`, which the automatic check still counts as uncertain: nothing in the program writes it any more.
- Whether ISRC metadata conflicts are gone after an apply: several tracks sharing one ISRC can create one, though no action.
- The lifetime bookkeeping of approvals and previews (pruning, reuse within two minutes).
- Playlist names, snapshot ids of playlists in baselines, and other metadata that reconciliation does not read; `info` stands for a track's display fields.
- The catalogue search, its cache, and the scoring of titles and artists in both adapters: their answers are arbitrary inputs.
- HTTP, OAuth, SQLAlchemy sessions, APScheduler, FastAPI handlers, templates, migrations, SHA-256, Fernet, scrypt, JSON and Unicode normalisation.
- The floored `retry_after_seconds` of a refused login attempt: it is computed as in the program, and nothing is claimed about waiting that long.
- The caller of `_pages` makes the first Spotify request itself, so up to 1001 requests are made in all.
