# Verified model of the Nezumo board server

Nezumo is a collaborative whiteboard server. The authority over a board is a Yrs document kept as
an immutable base, a journal of updates and a series of immutable checkpoints. This project models
that canonical journal and the parts of the server that live around it, and proves what they
guarantee together. `dafny verify dfyconfig.toml` checks everything.

## What is modelled

**The canonical journal** (`Replay`, `CanonicalTables`, `CanonicalStore`, `Journal*`, `Retention`).
One board's tables and everything in flight on it: owners that activate, catch up and commit,
compactions, retention transactions, and HTTP clients that page the tail. Every database call is one
step, so commits, takeovers, compactions and prunes fall between any two queries of any job.
`CanonicalTables` says what each call does to the tables; `CanonicalStore` is the same calls as
methods that update stored tables in place, each proved equal to that function; `JournalProtocol`
is the step system; `JournalInvariant` to `JournalClients` prove one invariant for every step and
every run; `JournalTheorems`, `JournalQuiescence`, `JournalActivation`, `JournalRaces` and
`Retention` hold the results. The CRDT library is a parameter (`Engine`): nothing is assumed of
`apply`, so nothing depends on commutativity. The step system has a ghost component, the full
history of updates, that no retention touches.

**Binary framing** (`WireFormat`): the update stream of catch-up responses and the client's binary
commit.

**Export and import** (`BoardJson`, `KeyMapping`, `Archive`, `Inventory`): the reference walks over
the JSON state, the rewriting, the key mapping of an import, the archive, and the inventory check,
ending in one theorem about exporting a board and importing it again.

**Realtime delivery** (`Delivery`, `Hub`): the websocket send task over a broadcast ring that drops
what a slow receiver left too long, and the hub's map of channels under its lock.

**Voting** (`Voting`, `VotingBudget`, `VotingStatus`, `VotingStore`, `VotingRaces`), **quotas**
(`Quotas`) and the **preview renderer** (`RenderActor`): each a step system over concurrent requests, transactions or processes, with the
stored state's operations and loops as methods.

Some properties one would expect do not hold of the code. For each there is a run that breaks it and
a theorem that says exactly when it does hold:

- A catch-up request that overlaps two publications can miss an update without being told to
  rebootstrap (`JournalRaces.TwoPublicationsLoseAnUpdate`; exactly: `JournalRaces.PageSurvivesExactly`).
- The voting frame with the highest revision can show an ended session as open
  (`VotingRaces.LateVoteShowsOpenSession`; exactly: `VotingStatus.TopStatusExact`).
- One voter can spend more than the budget (`VotingRaces.OverlappingCastsOverspend`; exactly:
  `VotingBudget.BudgetExceededExactly`).
- A websocket connection that looks its channels up and then subscribes can end on channels nobody
  publishes to (`Hub.SplitConnectCanMissBroadcasts`; exactly: `Hub.AgreementUnlessLostWhileHeld`).
- At the very top of the 64-bit range the storage check accepts everything
  (`Quotas.TopLimitOverflows`; exactly: `Quotas.StorageCheckExact`).
- An imported board can refer to objects that were never uploaded (`KeyMapping.EmptyAssetDangles`;
  exactly: `KeyMapping.NothingDanglesExactly`).

## Model

| member | source | states |
|---|---|---|
| JournalClients.RunKeeps | src/state/coordinator_registry.rs:193-307 | one invariant holds in every run from every initial board, however owners, commits, compactions, prunes and clients interleave |
| JournalTheorems.Recoverability | src/database/yrs_snapshots.rs:42-68 | for a ready head, the selected checkpoint (or base) plus the surviving rows replays to the full never-pruned history, and so does the second-newest checkpoint |
| JournalTheorems.HistoryOnlyGrows | src/state/coordinator_registry.rs:562-642 | only an accepted commit adds to the history, at the reserved sequence, with its event and its row |
| JournalTheorems.CatchUpSafety | src/handlers/events.rs:309-347 | over every run a client not told to rebootstrap, whose requests saw at most one publication each, holds exactly the history up to its cursor |
| JournalTheorems.AtomicRequestIsExact | src/handlers/events.rs:290-347 | an uninterrupted request either rebootstraps the client or moves it forward along the history |
| JournalTheorems.PageAdvances | src/handlers/events.rs:322-347 | a page is the journal between its two cursors; announcing more strictly raises the cursor, announcing no more reaches the head |
| JournalTheorems.PagingIsOneQuery | src/handlers/events.rs:339-347 | against a fixed head paging ends, and the pages add up to the one unlimited answer for every page limit |
| JournalTheorems.OnePublicationLosesNothing | src/database/yrs_updates.rs:172-180 | the second-newest barrier: with at most one publication since the head was read, no history row is missing from the page, whatever was pruned |
| JournalTheorems.SafeFromRetention | src/database/yrs_updates.rs:190-216 | an interval survives every possible prune if and only if all its history rows lie above the second-newest checkpoint |
| JournalRaces.PageSurvivesExactly | src/handlers/events.rs:322-347 | whatever retention runs before a serving board answers a request, its page is complete if and only if every history row of its interval lies above the second-newest checkpoint |
| JournalRaces.TwoPublicationsLoseAnUpdate | src/handlers/events.rs:309-347 | a run in which a request overlaps two publications and its client ends, answered, with a document that was never the board's |
| JournalTheorems.SupersededJobsAreInert | src/database/yrs_heads.rs:132-179 | a commit, activation or publication under an older epoch writes nothing |
| JournalTheorems.CommitChain | src/database/yrs_heads.rs:154-179 | successful advances of a run form one strictly increasing chain, each expecting its predecessor's value, and every epoch is made ready at most once |
| JournalTheorems.WatermarkMovesAreLogged | src/database/yrs_heads.rs:108-179 | the watermark of a board with history moves only by a commit under the current epoch, and no step lowers the epoch |
| JournalTheorems.CommitsExtendTheNewestDocument | src/state/coordinator_registry.rs:505-624 | an accepted commit was prepared against the document of the full history |
| JournalTheorems.ActivationIsExact | src/state/coordinator_registry.rs:193-307 | an activation that makes the board ready holds the full history at the watermark it published; one that is not overtaken meets no journal gap |
| JournalActivation.ActivationSucceeds | src/state/coordinator_registry.rs:193-307 | from every reachable state of a live, unquarantined board an undisturbed activation ends ready at the newest revision, holding the full history |
| JournalTheorems.CheckpointsAreImmutable | src/database/yrs_snapshots.rs:70-106 | no step changes or removes a stored checkpoint |
| JournalTheorems.CheckpointsAreSound | src/jobs/yrs_compaction.rs:57-137 | every checkpoint of a run replays the full history to its revision; a compaction of the newest revision fails only if that document does not load again, and never collides |
| JournalTheorems.PairsStayComplete | src/database/yrs_updates.rs:177-180 | in every reachable state each linked journal row has its event |
| JournalTheorems.EventsLeaveOnlyBelowTheBarrier | src/database/yrs_updates.rs:223-259 | an event disappears only by retention, at or below the second-newest checkpoint, with no journal row left at its sequence |
| JournalTheorems.FreshProjectionIsCurrent | src/database/yrs_assets.rs:76-118 | a fresh projection is the projection of the full history; with commits it is refused exactly when the board is not ready or the document has an unstable reference |
| JournalTheorems.RefsRoundTrip | src/database/yrs_assets.rs:28-48 | the stored reference rows separate again into the two kinds they came from |
| JournalCompaction.CompactedIsDoc | src/state/yrs_compaction.rs:73-137 | a compaction whose head is still the watermark rebuilds the newest document although its pages interleaved with prunes and publications, and gives it if and only if it loads again |
| JournalCompaction.PublishNeverCollides | src/database/yrs_snapshots.rs:198-209 | in every reachable state a publication that passes the head check finds no different bytes under its key |
| JournalQuiescence.SettledIsNoCandidate | src/database/yrs_snapshots.rs:135-176 | a board with a checkpoint at its watermark is not selected at any thresholds |
| JournalQuiescence.UnsettledIsCandidate | src/database/yrs_snapshots.rs:135-176 | a serving board without one is selected at the smallest thresholds |
| JournalQuiescence.SettledUntilNewCommit | src/database/yrs_snapshots.rs:178-212 | after a publication the board is selected again only once a new update was committed |
| JournalQuiescence.OneRoundSettles | src/jobs/yrs_compaction.rs:57-137 | one undisturbed round of a selected board whose newest document loads again adds exactly the checkpoint of the newest revision |
| JournalQuiescence.CycleTakesListed | src/jobs/yrs_compaction.rs:36-55 | one cycle takes exactly the boards it listed off the candidate list, in any order |
| JournalQuiescence.CyclesEmptyList | src/jobs/yrs_compaction.rs:25-55 | with commits paused, cycles bounded by the batch limit empty the candidate list in exactly the number of candidates over the limit, rounded up, whatever the query's order |
| JournalQuiescence.CyclesForRoundsUp | src/database/yrs_snapshots.rs:168-173 | that number of cycles is the quotient rounded up |
| Retention.ScheduleBounded | src/database/yrs_updates.rs:181-266 | bounded batches delete in total at most the eligible rows, so only finitely many are not empty, and leave the one-shot result where it was |
| Retention.BatchesRefineOneShot | src/database/yrs_updates.rs:190-265 | once a full batch finds nothing, the tables equal those of one unbounded retention, whatever the limits and victim order |
| Retention.EmptyMeansDone | src/database/yrs_updates.rs:21-25 | a full batch is empty if and only if nothing eligible remains |
| CanonicalStore.Store.UpsertBaseCas | src/database/yrs_canonical_bases.rs:71-133 | the base is written only under the lock and against the expected revision, clearing its abandonment |
| CanonicalStore.Store.BeginActivation | src/database/yrs_heads.rs:108-130 | the first activation creates epoch 1, every later one bumps the epoch and keeps the watermark |
| CanonicalStore.Store.MarkReady | src/database/yrs_heads.rs:135-152 | ready only from activating under the expected epoch |
| CanonicalStore.Store.AdvanceProcessedSeq | src/database/yrs_heads.rs:159-179 | the watermark moves only under the expected epoch and value of a ready head |
| CanonicalStore.Store.ActivationHead | src/state/coordinator_registry.rs:236-243 | the newest event sequence, or the base's |
| CanonicalStore.Store.ActivateTx | src/state/coordinator_registry.rs:199-246 | refuses missing, abandoned and quarantined boards, reuses an equivalent ready revision, else begins a new epoch |
| CanonicalStore.Store.ReserveNextEventSeq | src/database/boards.rs:106-122 | returns the counter and increments it |
| CanonicalStore.Store.InsertEvent | src/database/events.rs:11-38 | inserts unless sequence or id is taken |
| CanonicalStore.Store.InsertUpdate | src/database/yrs_updates.rs:52-78 | inserts unless sequence or client event id is taken |
| CanonicalStore.Store.ReplaceProjection | src/database/yrs_assets.rs:19-73 | the row-by-row loops end in exactly the projection's rows, none if it is blocked |
| CanonicalStore.Store.CommitTx | src/state/coordinator_registry.rs:562-642 | all writes of a commit or, after any refusal, none |
| CanonicalStore.Store.ReadIfFresh | src/database/yrs_assets.rs:76-118 | the two sets of a fresh projection, nothing for a stale, blocked or unknown one |
| CanonicalStore.Store.ListUpdatesPage | src/database/yrs_updates.rs:144-168 | the first rows of one generation in the interval, in order, up to the limit |
| CanonicalStore.Store.ReadLatestAtOrBefore | src/database/yrs_snapshots.rs:45-68 | the largest checkpoint of the lineage at or before the bound |
| CanonicalStore.Store.ReadTail | src/jobs/yrs_compaction.rs:103-130 | the paging loop reads what one unlimited query would |
| CanonicalStore.Store.GetYrsUpdates | src/handlers/events.rs:290-347 | exactly when a request is unavailable, invalid, told to rebootstrap or answered, and with which page |
| CanonicalStore.Store.ListEventsSince | src/database/events.rs:41-64 | the first events after the cursor, in order, up to the limit |
| CanonicalStore.Store.CatchUp | src/state/coordinator_registry.rs:252-271 | the batches of at most 512 events apply what one listing of the interval would, and stop at a gap or a failing update |
| CanonicalStore.Store.Activate | src/state/coordinator_registry.rs:193-307 | the whole activation: which error, or which owner and head, from which tables |
| CanonicalStore.Store.PublishSnapshotCas | src/database/yrs_snapshots.rs:179-212 | a checkpoint is added only against the unchanged head; equal bytes are a no-op, different bytes an error |
| CanonicalStore.Store.Barrier | src/database/yrs_updates.rs:191-207 | the second-newest checkpoint of a ready board on its live base |
| CanonicalStore.Store.PruneBatch | src/database/yrs_updates.rs:181-266 | deletes only eligible unlocked rows, journal first, within the limit, and all of them if the limit was not reached |
| CanonicalStore.CompactBinarySnapshot | src/state/yrs_compaction.rs:73-119 | rejects a target before the base or a tail out of order, applies the tail in order, and rejects a result that does not load again |
| WireFormat.StreamRoundTrip | src/state/yrs_wire.rs:34-89 | every stream the encoder accepts decodes to the same envelopes in order |
| WireFormat.StreamCanonical | src/state/yrs_wire.rs:68-125 | the decoder accepts nothing but encodings: what decodes re-encodes to the same bytes |
| WireFormat.EncodeRows | src/state/yrs_wire.rs:34-66 | appending frame after frame gives the stream, or fails exactly when a frame is too large |
| WireFormat.DecodeRows | src/state/yrs_wire.rs:73-89 | the consuming loop decodes the stream or reports its first error |
| WireFormat.ClientCommitExact | src/realtime.rs:103-126 | a frame decodes to a commit if and only if it is a length-prefixed header of that commit and an update, both non-empty and within limits |
| BoardJson.CollectObjectKeys | src/handlers/events.rs:709-736 | inserts exactly the object keys of the tree |
| BoardJson.CollectPdfPageKeys | src/handlers/import.rs:615-637 | inserts exactly the page keys of the tree for the given board |
| BoardJson.RewriteObjectKeys | src/handlers/import.rs:681-707 | the walk renames mapped values of key fields and nothing else |
| BoardJson.RewritePdfUrls | src/handlers/import.rs:711-730 | the walk replaces the board id in the two URL fields and nothing else |
| BoardJson.RewrittenKeys | src/handlers/import.rs:678-707 | over all trees the object keys after rewriting are the renamed object keys |
| BoardJson.UrlsKeepKeys | src/handlers/import.rs:709-730 | rewriting PDF URLs changes no object key |
| BoardJson.KeysKeepPages | src/handlers/import.rs:615-707 | renaming object keys changes no PDF page |
| BoardJson.UrlsKeepPages | src/handlers/import.rs:615-730 | rewriting PDF URLs changes no PDF page |
| BoardJson.ReplaceOnce | src/handlers/import.rs:715-719 | a URL naming the old board once names the new one and is otherwise unchanged |
| KeyMapping.ImportAssets | src/handlers/import.rs:219-260 | on success the storage gained exactly the new keys; on a failed upload it is as before but for keys whose deletion failed too; the preview key is the mapped one |
| KeyMapping.KeyMapExact | src/handlers/import.rs:226-260 | exactly the non-empty assets are mapped, each by its own rule |
| KeyMapping.MappingIsInjective | src/handlers/import.rs:230-244 | no two assets share a new key and all new keys lie under the new board |
| KeyMapping.ImportPreservesReferences | src/handlers/import.rs:219-286 | object keys, PDF pages and preview of the rewritten state are exactly the image of the original ones, all of it uploaded |
| KeyMapping.EmptyAssetDangles | src/handlers/import.rs:226-229 | an asset archived empty matches the references, is not uploaded and is still referred to after rewriting |
| KeyMapping.NothingDanglesExactly | src/handlers/import.rs:226-243 | for validated archives: all pages are stored if and only if none was empty or the preview, all object keys if and only if none was empty |
| Archive.ReadZip | src/handlers/import.rs:362-433 | the reading loop accepts and rejects entry by entry with the source's checks and errors |
| Archive.BuildZip | src/handlers/export.rs:329-363 | manifest, both blobs, then the assets in order |
| Archive.RoundTrip | src/handlers/import.rs:362-433 | reading back what was built returns it unchanged if and only if it is within the limits with safe distinct keys |
| Archive.AcceptedArchivesAreSane | src/handlers/import.rs:376-424 | any accepted archive has distinct safe asset keys of bounded size |
| Inventory.ValidateV2Assets | src/handlers/import.rs:542-613 | accepts if and only if declared, referenced and archived keys agree, nothing is declared twice and all sizes and digests match; the last check never fails |
| Inventory.GatherAssets | src/handlers/export.rs:80-110 | every reference once, in sorted order, with its stored bytes, or nothing if one is missing |
| Inventory.ExportIsExact | src/handlers/export.rs:112-146 | the inventory export writes passes import's check |
| Inventory.ExportedBoardImportsWhole | src/handlers/export.rs:80-156 | exported, read back, checked and imported, a board with safe non-empty objects keeps all its references |
| Delivery.SendTask | src/handlers/realtime.rs:665-851 | batched or not, the frames flatten to a prefix of what one frame per message sends, and to all of it unless a send failed; batches hold between two messages and the cap |
| Delivery.EveryRunDelivers | src/handlers/realtime.rs:677-795 | every position is received or in a recorded skip, the durable stream is in publication order, every skip is covered by a resync at detection or less than 1000 ms before, resyncs keep that distance |
| Delivery.NoLagIsComplete | src/handlers/realtime.rs:690-740 | without lag the durable stream is every deliverable message since the subscription |
| Hub.HubAgreement | src/realtime.rs:326-362 | a broadcast reaches all connections of its board if and only if each subscribed while its channels were the map's |
| Hub.AgreementUnlessLostWhileHeld | src/realtime.rs:326-410 | over every run, broadcasts to a board reach all its connections if and only if none had its channels removed between its lookup and its subscription |
| Hub.WhatRemoves | src/realtime.rs:339-410 | channels leave the map only by the eviction of their board or the sweep of a lookup creating another board, and only when nobody listens |
| Hub.OneGeneration | src/realtime.rs:326-362 | such connections of one board share one channel generation |
| Hub.AtomicConnectIsMapped | src/handlers/realtime.rs:575-583 | a lookup and subscription with nothing between them is always on the map's channels |
| Hub.ListenedBoardStays | src/realtime.rs:339-410 | no sweep and no eviction touches a board with a live receiver |
| Hub.SplitConnectCanMissBroadcasts | src/handlers/realtime.rs:575-583 | a run with an eviction between lookup and subscription leaves a connection unreachable |
| Hub.RealtimeHub.ChannelsFor | src/realtime.rs:334-361 | re-check, sweep of dead boards and creation in one critical section |
| Hub.RealtimeHub.EvictLocked | src/realtime.rs:402-409 | removes the board only if still idle under the write lock |
| Voting.FramesCountAcknowledgedVotes | src/handlers/voting.rs:366-382 | a frame with revision r counts every vote whose own bump returned at most r, and only cast votes |
| Voting.TallyExact | src/database/voting.rs:250-262 | one row per voted candidate with exactly its votes, adding up to all votes |
| Voting.TallyMatchesParticipants | src/database/voting.rs:167-193 | in every reachable state the tally total equals the participants' used votes |
| VotingBudget.BudgetExceededExactly | src/handlers/voting.rs:358-376 | once all checked casts of a voter were inserted, it holds more votes than the budget if and only if one of its checks passed while votes cast and checks passed already filled the budget |
| VotingBudget.StepClaims | src/handlers/voting.rs:358-376 | votes cast and checks passed grow by one exactly at a passing check and shrink only where one is abandoned |
| VotingBudget.BudgetHoldsUnlessChecksOverlap | src/handlers/voting.rs:358-376 | a voter whose checks are readable and never overlap stays within the budget |
| Voting.LastFrameIsFinal | src/handlers/voting.rs:184-200 | when all requests completed without failing, the frame with the highest revision is the exact final tally |
| VotingStatus.TopStatusExact | src/handlers/voting.rs:377-458 | in every run a frame with the current revision shows whether the session is ended if and only if no request that had loaded the session before it was last ended has bumped since |
| Voting.CompactCounts | src/handlers/voting.rs:58-62 | the map holds every voted candidate with its count |
| Voting.CompactCompletion | src/handlers/voting.rs:63-70 | counts the joined participants and those of them who finished or spent their votes |
| VotingStore.Session.ProceedRequest | src/handlers/voting.rs:283-463 | the next query of any request in flight changes the stored session exactly as the step system says |
| VotingStore.Session.ArriveRequest | src/handlers/voting.rs:296-342 | a request is admitted only to a session that is not ended, a cast only before its deadline, and loads the current revision |
| VotingStore.Session.FailRequest | src/handlers/voting.rs:304-319 | an error drops the request and nothing else |
| VotingStore.Session.IsJoinedRow | src/database/voting.rs:139-154 | whether the user has a joined row |
| VotingStore.Session.SetParticipation | src/database/voting.rs:118-136 | updates the user's row or appends one |
| VotingStore.Session.SetFinished | src/database/voting.rs:197-211 | marks the user's row and no other |
| VotingStore.Session.VoterUsed | src/database/voting.rs:214-227 | the voter's number of votes |
| VotingStore.Session.TallyRows | src/database/voting.rs:250-262 | the grouped counts, adding up to all votes |
| VotingRaces.OverlappingCastsOverspend | src/handlers/voting.rs:358-376 | a run in which one voter holds two votes under a budget of one |
| VotingRaces.LateVoteShowsOpenSession | src/handlers/voting.rs:335-382 | a run in which the highest revision shows an ended session as open |
| Quotas.StorageCheckExact | src/database/quotas.rs:245-254 | the saturating check accepts exactly what fits, and everything when the limit is the top of the range |
| Quotas.LimitsHold | src/database/quotas.rs:119-215 | over every interleaving of checks, writes and deletions each owner stays within board count and storage, the latter for limits below the top of the range |
| Quotas.WriteCharged | src/database/quotas.rs:200-213 | each write charges its owner at most what was evaluated and nobody else; an import overwrites |
| Quotas.TopLimitOverflows | src/database/quotas.rs:245-254 | with the limit at the top of the range a run exceeds it and the usage becomes unreadable |
| Quotas.TransactIsRun | src/database/quotas.rs:176-215 | one undisturbed transaction is the run of its steps and releases its lock |
| Quotas.BoardTable.MeasureUsage | src/database/quotas.rs:85-117 | board count and byte sum of an owner, or failure beyond 64 bits |
| Quotas.BoardTable.Apply | src/database/board_files.rs:14-45 | an accepted operation is written, a refused one leaves the tables unchanged with its error; an upload needs only that its board still exists |
| RenderActor.EveryReplyIsOwn | src/jobs/preview_service.rs:93-144 | jobs are answered in order, each with an error or its own picture, over every run of timeouts, deaths, respawns and late child writes |
| RenderActor.KeptChildIsQuiet | src/jobs/preview_service.rs:125-140 | a child kept between jobs has no outstanding request and no unread line |
| RenderActor.RenderJob | src/jobs/preview_service.rs:237-300 | one exchange with all its failure exits leaves the actor idle and consistent |
| RenderActor.Actor | src/jobs/preview_service.rs:93-144 | the loop answers every job exactly once |

## Left out

- The Yrs library, schema checks and the validator process: documents are byte strings and `apply` and reloading may fail. State vectors, protocol versions and the loading of a base row are not part of this model.
- Row versions, isolation levels and advisory locks of the journal: a transaction is one atomic step. Row locks taken by SKIP LOCKED are an arbitrary subset of rows.
- The idempotent retry that finds its client event id already stored (src/state/coordinator_registry.rs:441-467) and the second attempt after a stale revision: a retry is another step.
- Re-seeding a base: the repository only ever inserts a board's first base, so the base of a run is fixed. Quarantine and abandonment are operator actions; quarantine is a step.
- A step takes a board over even when its head is ready. The code begins a new epoch only for a head that is not, so the runs here include all of the code's and more.
- Board rows without an event link (backfill) are exempt from the pairing result, as in the code.
- JournalTheorems.CatchUpSafety: covers clients whose requests saw at most one publication each; for the others the guarantee is false (JournalRaces.TwoPublicationsLoseAnUpdate) and JournalRaces.PageSurvivesExactly says exactly when their page is complete.
- JournalQuiescence.CyclesEmptyList: boards whose newest document does not load again are excluded; the code skips them and lists them again.
- CanonicalStore.CompactBinarySnapshot: a tail or document of more than 2^63 bytes.
- CanonicalStore.Store.GetYrsUpdates: the protocol version of a checkpoint, which is a constant, and failing queries.
- The fan-out poller, Redis and the cursor aggregator. Sending takes no time: a skip's time is that of its resync decision.
- Delivery.SendTask: acks, previews and pings between durable frames, and binary connections.
- JSON text, Deflate, SHA-256 and UUID syntax: parameters. The zip container's own duplicate-name and CRC checks, and read errors of an entry, are not part of this model.
- Archive.ReadZip: an entry's bytes are those the decompressor yields; sizes are mathematical integers below the source's 64-bit overflow check, which is modelled.
- `validate_archive`'s canonical metadata and binary state comparison, v1 archives, and the regeneration of presigned URLs.
- Voting sessions of other boards, replacing an active session, presentation of names and avatars, and revision overflow.
- Quotas.LimitsHold: tiers do not change during a run; board ownership never changes, as in the code.
- RenderActor.EveryReplyIsOwn: one actor per temp directory, and a child that answers each request with one line, in order, `ok` only after writing its file. The actor's state is a value that its loop reassigns, not an object.
- Access control, users, projects, tags, settings, API keys, mail, OAuth, health checks, favicon and iframe probing: single-branch or outside the repository.
