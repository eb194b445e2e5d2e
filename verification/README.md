# Emumet in Dafny

Emumet keeps accounts, profiles and profile fields ("metadata") as event streams and serves them from
read-model tables. This project models the parts of it whose correctness spans many steps, and proves
what they promise.

- **Projection pipeline.** Three projectors tail three event logs. Each poll re-reads a trailing window
  of sequence numbers, groups and sorts the events per aggregate, drops what the stored row already
  reflects, folds the rest, writes through version-gated writers under savepoints, and advances a
  checkpoint. Commits may become visible out of sequence order, any write may fail, use cases write some
  rows themselves in the committing transaction, and the account projector deletes rows that the other
  two own. `EventLog`, `RowProjection`, `ChildProjector`, `AccountProjector` and `ReadModelStore` model one
  poll; `Views`, `Pipeline`, `AccountRows`, `Convergence`, `LostRows` and `Quiescence` prove what holds over
  whole runs.
- **Account commands.** `AccountCommands` interleaves the load, guard and save steps of any number of
  clients under optimistic concurrency.
- **Account details.** `FieldDiff` and `AccountDetail` model the positional field diff, the update whose
  response is built without re-reading, and the read that composes details.
- **Companions.** `Pagination`, `Blocks` and `JwksCache` model cursor pagination, the block and unblock
  transactions with their outbox, and the key set cache with its refresh lock.

`Kernel`, `Accounts`, `Profiles` and `Metadatas` hold the aggregates and how streams are folded. The
profile and metadata projectors share one protocol, so `ChildProjector` models it once for both.
`dafny verify dfyconfig.toml` checks the whole project.

## Conventions

A log is the sequence of its committed rows by sequence number; a commit inserts its row at its number,
which may lie before rows already there. A poll is one atomic step. What can go wrong in it is a
parameter: the aggregates whose writes are rolled back, and the accounts whose lookup fails. Ids,
versions, sequence numbers and times are unbounded integers, random ids and clock readings are
parameters, and a deactivation time is a flag.

A use case that also writes its row (account creation, the account-detail update, the field operations) is
a commit and a row write in one step. Such a row runs ahead of the checkpoint; `reach` is the newest
number written that way. So after a poll a row is the fold of at least everything up to the checkpoint,
and of exactly that once the checkpoint has passed `reach`.

A row *tracks* its stream if everything it does not reflect yet can still be re-read. That is the
invariant behind convergence, and it is weaker than "nothing ever fails": a group may be skipped any
number of times while its events stay inside the window. The `Plain...` theorems state the special case
of in-order commits without failures.

## Findings

- A reactivated account is projected only while its creation event is inside the window
  (`AccountRows.ReactivationBoundary`): a deactivated row reads back as absent, so the later events are
  refused. `AccountRows.ReactivationLost` is a log on which that happens, and by `LostRows.LostForGood` no
  run repairs such a row.
- A suspension past its expiry reads back as active. A poll then gives the wrong row unless nothing is
  pending or the next moderation event is a ban (`AccountRows.ExpiredPollExact`). A pending change of the
  bot flag writes the row back as active, and a poll that reads the lifting of such a suspension refuses it
  (`AccountRows.LapsedSuspensionDiverges` shows both). The row then stays suspended until a poll reads a later
  event of the account without the lifting, or a use case rewrites the row (`LostRows.LapsedLiftStays`); a
  poll that reads all later events without it brings the row up to date (`AccountRows.LiftPolled`).
- A deactivation cascade removes approved followers only. `AccountProjector.SurvivingFollows` says which
  follows of a deactivated account survive; `AccountRows.PendingFollowerStays` is an example.
- A failed lookup of the parent account counts as "not deactivated" and can bring back a child row that a
  cascade removed (`Pipeline.ChildPollNoOrphans` gives the exact condition). An error that the database
  reports also aborts the transaction, so in practice this takes an error on the client's side, such as a
  row that cannot be decoded.
- A field that a use case deletes together with its row comes back if a poll reads the creation and not
  yet the deletion (`Views.DirectDeletionComesBack` gives the exact condition,
  `Convergence.DirectDeletionExample` such a log), and stays until a poll reads the deletion.
- The account projector logs that the window re-read will retry a skipped group. That holds exactly
  while what the group left behind stays inside the window (`RowProjection.SkipTracks`).
  `LostRows.SkippedGroupLost` is a group that is lost, and by `LostRows.LostForGood` no run recovers
  an absent child row whose creation has left the window.
- Deactivation is not guarded by the loaded account. A second deactivation that slips past the read model
  makes the stream unreplayable for good (`AccountCommands.ReplaysExactly`, `AccountCommands.BrokenForGood`).
- No isolation level is set, and at PostgreSQL's default one a conditional insert does not see an insert that
  has not committed yet, so both can go through. The stream is still what the requests produce one at a time
  exactly if every save decides the same on the stream it is appended to (`AccountCommands.SerialExactly`),
  and it loads exactly if every save fits the account before it (`AccountCommands.ReplaysWhateverSeen`). Two
  overlapping suspensions break it (`AccountCommands.OverlappingSuspensions`), two overlapping settings of
  the bot flag do not (`AccountCommands.OverlappingUpdates`).
- The account listing shows moderated accounts, but resolves its cursor with a query that hides them. A
  walk ends exactly if no page ends on such an account, and otherwise goes round the same pages for ever
  (`Pagination.HiddenCursorRestarts`, `Pagination.HiddenWalk`).
- A use case that checks an account and then writes a child row leaves an orphan exactly if it creates the
  child and the account is deactivated by then (`Pipeline.WriteOrphansExactly`).
- The response of an account update reports a lapsed suspension, while the listing shows the account as
  active (`AccountDetail.ListingAgrees`).
- The key set cache limits key set requests, but not discoveries: two lookups in a row can both ask the
  issuer at once (`JwksCache.DiscoveryNotLimited`). Every discovery but the last one is a failed one
  (`JwksCache.DiscoveryDiscipline`).

## Model

| member | source | states |
|---|---|---|
| Kernel.FromEvents | kernel/src/repository/aggregate.rs:42-60 | Loads a stream by folding it event by event: absent for an empty stream, the first refusal as it is, an internal error if it folds to nothing, else the aggregate at the last event's version |
| Kernel.FromEventsAllowDeletion | kernel/src/repository/aggregate.rs:66-81 | The same loop for streams that may end deleted: folding to nothing loads as absent |
| Kernel.FoldLast | kernel/src/repository/aggregate.rs:42-60 | An accepted fold carries the last event's version, and its row is gone or unreadable exactly after a terminal event |
| Accounts.AccountLawful | kernel/src/entity/account.rs:219-352 | Every accepted account event stamps its version, and an account becomes deactivated only by a deactivation |
| Profiles.ProfileLawful | kernel/src/entity/profile.rs:130-190 | Every accepted profile event stamps its version and never removes the profile |
| Metadatas.MetadataLawful | kernel/src/entity/metadata.rs:119-165 | Every accepted metadata event stamps its version; only a deletion removes the entity |
| Accounts.FoldDecomposition | kernel/src/entity/account.rs:219-352 | Which event of an accepted stream fixed each part of the account: bot flag, status and deactivation by the last event of their kind, version by the last event, everything else by the creation for good; deactivations exceed reactivations by one exactly when the account is deactivated |
| Accounts.ReplaysWhenWellFormed | kernel/src/entity/account.rs:219-352 | Exactly the streams replay that begin with their only creation and in which every later event may follow, judged by the last moderation event and the last deactivation or reactivation before it |
| Accounts.CreationTimeRead | kernel/src/id.rs:47-51 | An id made of a time and 22 further bits tells that time |
| Profiles.ProfileDecomposition | kernel/src/entity/profile.rs:130-190 | Exactly the streams of one creation followed by updates replay; each of the four parts is what the last event that does not leave it unchanged put there, owner, id and nanoid are the creation's, and the version is the last event's |
| Metadatas.MetadataDecomposition | kernel/src/entity/metadata.rs:119-165 | Exactly the streams replay in which creations stand at the start or behind a deletion and nothing else does; they fold to nothing at a deletion, and otherwise to the last event's label and content and the last creation's origin |
| EventLog.WindowCovers | kernel/src/projection.rs:25-33 | A non-empty window holds exactly the committed rows above checkpoint - 100 up to its last row, which is not below the checkpoint, and is the newest row or at least 900 ahead |
| EventLog.WindowMargins | kernel/src/projection.rs:25-33 | A poll reads the lowest 1000 of the rows whose numbers are above the checkpoint minus 100, and no other |
| EventLog.WindowHoldsCheckpoint | application/src/projection/account_projector.rs:64-77 | On a non-empty log a sound checkpoint never reads an empty window |
| EventLog.GroupByAggregate | application/src/projection/account_projector.rs:80-87 | The grouping loop: each aggregate's group is its envelopes in log order, and there is a group for exactly the aggregates in the batch |
| EventLog.SortSorts | application/src/projection/account_projector.rs:90-90 | Sorting a group by version orders it and keeps exactly its envelopes |
| EventLog.SortIgnoresOrder | application/src/projection/account_projector.rs:90-90 | The fold order depends only on which envelopes were read, not on the order they were read in |
| RowProjection.PollConverges | application/src/projection/metadata_projector.rs:69-171 | A tracked row whose group is not skipped becomes the fold of at least all its committed events up to the new checkpoint, and keeps tracking |
| RowProjection.ClosedStays | application/src/projection/metadata_projector.rs:44-88 | A row whose terminal event is behind the checkpoint is not changed or resurrected by re-reading any part of its stream |
| RowProjection.SkipTracks | application/src/projection/account_projector.rs:120-134 | A skipped group keeps tracking its stream exactly when what it has not projected is still inside the window of the advanced checkpoint |
| RowProjection.CommitTracks | application/src/projection/account_projector.rs:24-33 | A commit, even below rows already read, keeps the row tracking if it is still inside the window and newer than the row |
| RowProjection.WriteTracks | application/src/service/account_detail/fields.rs:74-102 | A row that a use case refolds and writes in the committing transaction tracks its stream, wherever the checkpoint is |
| RowProjection.ClosedAhead | application/src/projection/metadata_projector.rs:69-171 | A row that was closed before the projector read its terminal event changes exactly if it is absent, the batch holds its creation and ends before that event; then it becomes the fold of what was read |
| ChildProjector.CheckpointAdvances | application/src/projection/account_projector.rs:57-78 | A poll leaves a checkpoint that names a committed row and never moves back; the value returned is the value stored; on a quiet log it is the newest number or at least 900 further |
| ChildProjector.FoldPending | application/src/projection/metadata_projector.rs:118-133 | The fold loop: stops at the first refused event, and otherwise yields the fold of the pending events |
| ChildProjector.GuardedExactly | application/src/projection/metadata_projector.rs:89-116 | A group is stopped exactly if it has no row and the first creation among its events names an account that a successful lookup shows deactivated |
| ChildProjector.ProjectGroup | application/src/projection/metadata_projector.rs:69-170 | One group under a savepoint: version filter, parent guard, fold, gated write or delete; rolled back only if a write fails or the constraint refuses the table that the write would give; no other row changes |
| ChildProjector.ProjectGroups | application/src/projection/metadata_projector.rs:69-171 | All groups of a batch in any order give the closed-form table; a group is rolled back only by a fault, or because the constraint refuses it beside other rows of the batch |
| ChildProjector.ProjectChildBatch | application/src/projection/metadata_projector.rs:31-180 | One whole poll: the table, the stored checkpoint, the returned checkpoint, and which groups may have been rolled back |
| ChildProjector.FailureIsolation | application/src/projection/metadata_projector.rs:135-171 | A poll in which some writes fail is the poll of the batch without those groups |
| ChildProjector.OrderIndependence | application/src/projection/metadata_projector.rs:60-70 | The order of the same envelopes inside a batch does not change the resulting table |
| AccountProjector.OrderFree | application/src/projection/account_projector.rs:89-240 | Writing the account groups one after the other, in any order, equals an order-free description of rows, cascades and links |
| AccountProjector.OrderIndependence | application/src/projection/account_projector.rs:80-90 | Neither the order of the groups nor the order of envelopes inside them changes accounts, children, follows or links, even when two cascades delete the same follow |
| AccountProjector.FailureIsolation | application/src/projection/account_projector.rs:136-239 | A poll in which the writes of some accounts fail is the poll of the batch without those accounts |
| AccountProjector.CascadeAtomic | application/src/projection/account_projector.rs:136-186 | A newly deactivated row comes with its whole cascade: no profile, no metadata, no own follow and no approved follower is left |
| AccountProjector.SurvivingFollows | driver/src/database/postgres/follow.rs:105-135 | Of the follows naming an account that a poll deactivates exactly the pending requests to follow it survive, unless another account deactivated in the same poll takes them |
| AccountProjector.LinksExactly | application/src/projection/account_projector.rs:91-100 | After a poll an auth link exists exactly if it did before, or its account's group was written and left it live and the first creation among the group's events names that auth account; deactivations keep every link |
| AccountProjector.RemovedExactly | application/src/projection/account_projector.rs:147-183 | A poll removes exactly the profiles and metadata of the accounts it deactivates, the follows by them and the approved follows of them |
| ReadModelStore.DeleteEach | application/src/projection/account_projector.rs:160-164 | The deletion loops: exactly the listed rows are gone, unless a delete fails part-way |
| ReadModelStore.Database.DeleteProfileOf | application/src/projection/account_projector.rs:147-155 | The profile part of the cascade, on the profile table only |
| ReadModelStore.Database.DeleteMetadataOf | application/src/projection/account_projector.rs:156-164 | The metadata part of the cascade, on the metadata table only |
| ReadModelStore.Database.DeleteFollowsOf | application/src/projection/account_projector.rs:165-183 | The follow part of the cascade: the account's own follows and its approved followers |
| ReadModelStore.Database.WriteGroup | application/src/projection/account_projector.rs:138-224 | The writes of one group, statement by statement, reach the tables of the group's outcome if none fails |
| ReadModelStore.Database.ProjectAccountGroup | application/src/projection/account_projector.rs:89-239 | One account group under a savepoint: its outcome, or the tables as they were |
| ReadModelStore.Database.ProjectAccountGroups | application/src/projection/account_projector.rs:89-240 | All account groups in any order, except those rolled back |
| ReadModelStore.Database.ProjectBatch | application/src/projection/account_projector.rs:51-249 | One whole account poll: tables, stored checkpoint and returned checkpoint |
| ReadModelStore.Database.ProjectProfileBatch | application/src/projection/profile_projector.rs:31-180 | One whole profile poll on the database, under the one-profile-per-account constraint; a rolled-back group has a failed write or another profile of the same account beside it |
| ReadModelStore.Database.ProjectMetadataBatch | application/src/projection/metadata_projector.rs:31-180 | One whole metadata poll on the database; only groups with a failed write are rolled back |
| ReadModelStore.RefusedIsContested | migrations/20230707210300_init.sql:33-42 | The unique key refuses a profile only in favour of another profile of the same account, stored or written by the same batch |
| ReadModelStore.WrittenKeepsUnique | application/src/projection/account_projector.rs:136-239 | Account writes keep the one-profile-per-account constraint |
| AccountRows.AccountRowPolled | application/src/projection/account_projector.rs:102-134 | A poll moves an account row by the same protocol as child rows, unless the row is a lapsed suspension with something pending that is not next moderated by a ban |
| AccountRows.ReactivationBoundary | application/src/projection/account_projector.rs:102-114 | For a deactivated row with newer committed events, a poll brings the row up to date exactly when the creation event is still inside the window; otherwise the row stays deactivated |
| AccountRows.ReactivationLost | application/src/projection/account_projector.rs:102-134 | A log with a creation, a deactivation, another row far ahead and a reactivation: the poll that reads the reactivation leaves the row deactivated |
| AccountRows.ExpiredReadAgrees | driver/src/database/postgres/account/mod.rs:310-330 | Folding from a lapsed suspension read as active agrees with folding from the stored row exactly when the next moderation event is a ban |
| AccountRows.ExpiredPollExact | application/src/projection/account_projector.rs:102-134 | A poll of a lapsed suspension gives what the pending events make of the stored row exactly when nothing is pending or the next moderation event is a ban |
| AccountRows.LapsedLiftRefused | application/src/projection/account_projector.rs:115-134 | A poll whose first pending event lifts a lapsed suspension leaves the row as it is, and the suspension is lapsed at every later time |
| AccountRows.LiftPolled | application/src/projection/account_projector.rs:102-134 | After a lapsed suspension was lifted, a poll leaves the row suspended if it reads the lifting or nothing of the account, and brings it up to date if it reads all that came after the lifting without it |
| AccountRows.LapsedSuspensionDiverges | driver/src/database/postgres/account/row.rs:28-70 | One poll after which a lifted suspension is still in the row, or a suspension that stands is gone from it; the checkpoint moves past the event |
| AccountRows.PendingFollowerStays | driver/src/database/postgres/follow.rs:105-135 | A poll that deactivates an account removes an approved follower and keeps a pending one |
| Pipeline.CheckpointSoundness | application/src/projection/account_projector.rs:57-78 | In every reachable state of the three logs and projectors, with or without direct row writes, each checkpoint is absent or the number of a committed row |
| Pipeline.LinksNameCreators | application/src/service/account/create.rs:82-89 | In every reachable state each auth link is one that a committed creation of its account names |
| Pipeline.StepKeepsLinks | application/src/service/account/create.rs:82-89 | No step removes an auth link, and creating an account with its row links it to its creator |
| Pipeline.ChildPollNoOrphans | application/src/projection/metadata_projector.rs:89-133 | Whatever writes fail, a child poll leaves no row under a deactivated account exactly when no failed parent lookup let through a group that would materialize one |
| Pipeline.AccountPollNoOrphans | application/src/projection/account_projector.rs:136-186 | An account poll leaves no child row under any deactivated account |
| Pipeline.WriteNoOrphans | application/src/service/account_detail/fields.rs:57-125 | A use case that writes a child row while the account is live leaves no row under a deactivated account |
| Pipeline.WriteOrphansExactly | application/src/service/account_detail/fields.rs:57-125 | Whatever was checked before, a direct write leaves an orphan exactly if it materializes a new child and the account it names is deactivated by then |
| Pipeline.CascadeSafety | application/src/projection/profile_projector.rs:89-133 | In every interleaving of commits, direct row writes and polls, with any write failures, no profile or metadata row of a deactivated account exists |
| Pipeline.LookupFaultResurrects | application/src/projection/metadata_projector.rs:99-116 | For every deactivated account and every absent metadata id: one failed parent lookup is enough to leave a row under the deactivated account |
| Views.SkipsExactly | application/src/projection/metadata_projector.rs:118-133 | A tracked, open row is skipped by a poll exactly when the stream up to the new checkpoint is refused |
| Views.PollKeepsUp | application/src/projection/metadata_projector.rs:69-178 | After a poll that writes the row, the row is the fold of at least everything up to the checkpoint exactly when that stream is accepted, and of exactly that once the checkpoint has passed every direct write |
| Views.InOrderDelivers | application/src/projection/account_projector.rs:24-33 | A commit in version and sequence order, inside the window, is always deliverable |
| Views.ClosedForGood | application/src/projection/metadata_projector.rs:44-88 | A closed row never changes again under commits of other aggregates and polls, skipped or not |
| Views.DirectDeletionComesBack | application/src/service/account_detail/fields.rs:91-102 | After a deletion whose use case removed the row itself, the next poll brings the row back exactly if it reads the creation but not yet the deletion |
| Views.ServedPath | application/src/projection/account_projector.rs:57-247 | Over every sequence of commits, direct writes and polls, skipped or not, in which nothing unprojected leaves the window, the row keeps up and each poll that writes it settles it |
| Views.PlainPath | application/src/projection/account_projector.rs:57-247 | The same for in-order events without failures, where every poll settles the row |
| Views.Progress | application/src/projection/account_projector.rs:29-33 | On a log that stands still every poll converges an accepted row, and n polls reach the newest committed number or cover 900 n numbers |
| Views.Quiescence | application/src/projection/account_projector.rs:242-247 | After enough polls the row is the fold of the whole stream, the checkpoint is the newest number, and a further poll changes neither |
| Convergence.AccountsConverge | application/src/projection/account_projector.rs:57-247 | In every run whose commits to an account are deliverable and whose skipped groups stay in the window, each poll that writes the account leaves its row the fold of at least its events up to the checkpoint, exactly when they replay, and of exactly those once the checkpoint has passed the newest direct write |
| Convergence.ProfilesConverge | application/src/projection/profile_projector.rs:37-178 | The same for a profile whose parent account is never deactivated |
| Convergence.MetadataConverges | application/src/projection/metadata_projector.rs:37-178 | The same for metadata whose parent account is never deactivated; absent when the fold is absent |
| Convergence.PlainAccountsConverge | application/src/projection/account_projector.rs:57-247 | In every run with in-order commits, no failed write and a replayable stream that ends at its first deactivation, each poll leaves the row the fold of at least what the checkpoint covers, and of exactly that once the checkpoint has passed the newest direct write |
| Convergence.PlainProfilesConverge | application/src/projection/profile_projector.rs:37-178 | The same for profiles of accounts that are never deactivated |
| Convergence.PlainMetadataConverge | application/src/projection/metadata_projector.rs:37-178 | The same for metadata of accounts that are never deactivated |
| Convergence.NoResurrection | application/src/projection/metadata_projector.rs:44-88 | Once a metadata deletion has been projected, no run brings the row back, whatever else commits, fails or is re-read |
| Convergence.DeactivationStands | application/src/projection/account_projector.rs:102-114 | A projected deactivation stands through every run that commits nothing more for the account |
| Convergence.DirectDeletionExample | application/src/service/account_detail/fields.rs:91-102 | A log with more rows than one poll reads between creation and deletion, on which a directly deleted field comes back |
| LostRows.LostForGood | application/src/projection/metadata_projector.rs:44-58 | In every run that does not create it anew, an absent profile or metadata row whose creation has left the window stays absent, and a deactivated account row whose creation has left the window stays as it is, a committed reactivation included |
| LostRows.SkippedGroupLost | application/src/projection/metadata_projector.rs:135-178 | A poll whose write of a new field fails while it reads a row more than the window ahead: the stream folds to a row that no later poll writes |
| LostRows.LapsedLiftStays | application/src/projection/account_projector.rs:102-134 | A lapsed suspension that was lifted stays in the row through every run, until a poll reads a later event of the account without the lifting or a use case rewrites the row |
| Quiescence.DeactivationLands | application/src/projection/account_projector.rs:143-146 | A group that deactivates its account leaves a deactivated row, whatever the stored row was |
| Quiescence.OrphanStaysAbsent | application/src/projection/metadata_projector.rs:89-116 | A child that is absent under deactivated accounts stays absent in every child poll without a blind lookup |
| Quiescence.QuietPoll | application/src/projection/account_projector.rs:242-247 | With every projector at the tail, every account up to date, and every child up to date or absent under deactivated accounts, a poll of any projector changes no checkpoint and no account, profile or metadata row, even if writes fail |
| Quiescence.SettledPoll | application/src/projection/account_projector.rs:242-247 | On a quiet pipeline, after one account poll without failures, no poll of any projector changes anything at all, follows and links included, whatever writes fail in it |
| Quiescence.QuietReached | application/src/projection/account_projector.rs:57-247 | From every state whose accounts keep up with streams that replay and whose children keep up or are absent under deactivated accounts, polls without faults, in any order and at any times, reach a quiet pipeline as soon as each projector has polled often enough to cover its log at 900 numbers a poll |
| Quiescence.PlainRunSettles | application/src/projection/account_projector.rs:57-247 | Every run from the start with in-order events, no failures, no deactivation and no suspension that lapses ends in such a state |
| AccountCommands.GuardsMatchAggregate | application/src/service/account/moderation.rs:57-84 | A use case's guard passes only what the aggregate accepts, except for deactivation, which is refused by the aggregate exactly when the account is already deactivated |
| AccountCommands.SucceedsExactly | application/src/service/account/moderation.rs:57-84 | A creation succeeds exactly on an empty stream and any other request exactly if the stream loads to an account that permits it: active and not deactivated for an update or a suspension, and so on; otherwise the result is a conflict, not found, the stream's refusal, or rejected |
| AccountCommands.RequestChanges | application/src/service/account/moderation.rs:57-84 | After a successful request the account loads as before with exactly the change asked for and the new version: flag, reason, times and expiry as submitted; only a second deactivation leaves a stream that does not load |
| AccountCommands.CreationMakes | application/src/service/account/create.rs:59-76 | A creation makes the active account that it describes, and its event names the auth account |
| AccountCommands.EventStore.LoadAccount | driver/src/database/postgres/account_repository.rs:17-29 | Loading: the folded aggregate, a refusal, or not found |
| AccountCommands.EventStore.Save | kernel/src/repository/aggregate.rs:83-107 | Saving: appends on the expected version; otherwise reports a conflict, or an internal error for a version the aggregate already has, and changes nothing; other streams never change |
| AccountCommands.SaveOutcome | driver/src/database/postgres/account_event_store.rs:106-184 | A save is a conflict exactly if the expected version is not the newest, an internal error exactly if its own version is taken, and otherwise keeps all rows, adds one, and keeps them in version order |
| AccountCommands.EventStore.Run | application/src/service/account/moderation.rs:57-84 | One use case from load to save equals the atomic execution of its request on the stream, returns the event it saved, and touches no other stream |
| AccountCommands.SavedOnSame | kernel/src/repository/aggregate.rs:83-107 | A save succeeds only on the very stream that its request was decided on |
| AccountCommands.Serializable | application/src/service/account/moderation.rs:57-84 | However loads and saves of concurrent clients interleave, if each sees every save before it, the stream is what the successful requests produce one at a time, in the order of their saves |
| AccountCommands.ReplaysExactly | application/src/service/account/deactivate.rs:52-70 | A serial stream replays exactly when no deactivation was saved on a load that already showed the account deactivated |
| AccountCommands.EveryStreamReplays | application/src/service/account/reactivate.rs:57-78 | In every interleaving of create, update, suspend, unsuspend, ban, unban, reactivate and deactivate in which each sees every save before it, the stream replays, unless a deactivation was saved on a deactivated load |
| AccountCommands.BrokenForGood | application/src/service/account/deactivate.rs:52-70 | A stream that no longer replays is frozen: no client that sees every save before it changes it any more |
| AccountCommands.DeactivatingAgainBreaks | application/src/service/account/deactivate.rs:52-70 | On every account whose load shows it deactivated, one more deactivation is saved and makes the stream unreplayable |
| AccountCommands.DeactivatedTwiceExample | application/src/service/account/deactivate.rs:52-70 | A concrete stream with two deactivations that no longer loads |
| AccountCommands.StaleVersionBreaks | driver/src/database/postgres/account_event_store.rs:60-68 | If a version is handed out below the creation's, the saved event sorts first and the stream no longer replays |
| AccountCommands.SerialExactly | driver/src/database/postgres/account_event_store.rs:106-184 | Whatever rows the loads and the inserts see, the stream is what the requests produce one at a time exactly if every save that went through decides the same on the stream it was appended to |
| AccountCommands.ReplaysWhateverSeen | driver/src/database/postgres/account_event_store.rs:106-184 | Whatever rows the loads and the inserts see, the stream loads exactly if every save that went through fits the account that the stream before it gives |
| AccountCommands.SaveExact | driver/src/database/postgres/account_event_store.rs:106-184 | One save keeps the stream serial exactly if its request decides the same event on the newest stream |
| AccountCommands.OverlappingSuspensions | driver/src/database/postgres/account_event_store.rs:137-154 | Two clients that suspend the same account without seeing each other both succeed, and the stream no longer loads |
| AccountCommands.OverlappingUpdates | driver/src/database/postgres/account_event_store.rs:137-154 | Two clients that set the bot flag without seeing each other both succeed, and the stream is what running them in turn gives |
| FieldDiff.PlanFieldUpdates | application/src/service/account_detail/fields.rs:30-55 | The index loop and the two tails build the pairwise plan |
| FieldDiff.PlanShape | application/src/service/account_detail/fields.rs:30-55 | A plan never both deletes and creates, and has one operation per changed pair plus one per field in excess |
| FieldDiff.FieldTables.Rehydrate | application/src/service/account_detail/fields.rs:127-140 | Loading a metadata stream: the entity, a refusal, or not found |
| FieldDiff.FieldTables.ApplyOne | application/src/service/account_detail/fields.rs:67-122 | One operation on the stream and on the row, with each of its errors |
| FieldDiff.OperationOutcome | application/src/service/account_detail/fields.rs:67-140 | An update or deletion succeeds exactly if the stream replays to a field that has a row, a creation exactly if its id is unused, and each failure has its own error |
| FieldDiff.FieldTables.ApplyFieldUpdates | application/src/service/account_detail/fields.rs:57-125 | Planning and applying in the transaction: the state after all operations, or the state before with the first error |
| FieldDiff.FieldDiffRoundTrip | application/src/service/account_detail/fields.rs:30-125 | Applying the plan never fails, and reading back in id order gives exactly the submitted fields; rows that stay keep id and nanoid, every row is the fold of its stream, the streams of deleted rows fold to nothing, and every row and stream that the submitted list does not change is as before, those of other accounts and of fields deleted earlier included |
| FieldDiff.StreamsGrow | application/src/service/account_detail/fields.rs:57-125 | Applying a plan appends to each stream exactly the events planned for it, leaves the rows of all other aggregates alone, and leaves no row behind a deletion |
| FieldDiff.ExcessPlanned | application/src/service/account_detail/fields.rs:30-55 | A row in excess of the submitted list gets exactly one event, its deletion |
| AccountDetail.FoundShows | application/src/service/account_detail/update.rs:298-318 | The image found for a submitted URL shows that URL |
| AccountDetail.FoundExactly | application/src/service/account_detail/update.rs:298-318 | A URL resolves exactly if some image has it |
| AccountDetail.ShowsExactly | application/src/service/account_detail/update.rs:217-232 | An image id shows a URL exactly if the image with that id has it |
| AccountDetail.SortAscends | application/src/service/account_detail/update.rs:156-160 | Sorting fetched rows lists the same rows in strictly ascending order |
| AccountDetail.ProfileMoves | application/src/service/account_detail/update.rs:130-154 | The rewritten profile row is the old row with the four actions applied, and is still the fold of its stream |
| AccountDetail.ProfileRewritten | application/src/service/account_detail/update.rs:130-154 | A touched profile row gets the parts of its stream with the actions applied, whatever it held before |
| AccountDetail.BotWritten | application/src/service/account_detail/update.rs:94-117 | If the account row agrees with its stream, the row gets the flag that the request leaves and nothing else but a version, is the fold of the new stream, an event is saved exactly if the flag changes, and no other account is touched |
| AccountDetail.FlagFollows | application/src/service/account_detail/update.rs:91-240 | After a successful update the account row is the fold of its new stream, and row and response show the submitted flag, false if it was cleared, and the old one if it was left unchanged |
| AccountDetail.ResponseShows | application/src/service/account_detail/update.rs:176-240 | Every part of the response: the account row's own parts, and for name, summary, icon and banner the submitted value, none if cleared, and the old one if unchanged |
| AccountDetail.UpdateSucceeds | application/src/service/account_detail/update.rs:62-240 | On consistent tables an update succeeds exactly if the account is not deactivated, banned or still suspended, has a profile, and every submitted image URL is known; a moderated account is rejected, the rest is not found |
| AccountDetail.ReadAfterWrite | application/src/service/account_detail/update.rs:91-240 | For every combination of field actions the response equals what a detail read composes from the committed tables, at any time at which the account is found, and the media flag tells whether icon or banner changed |
| AccountDetail.ListingAgrees | driver/src/database/postgres/account/mod.rs:20-69 | At any later time the listing shows the response of a successful update with moderation set to active, so the two agree exactly when the row carried no suspension |
| AccountDetail.LaggingProfile | application/src/service/account_detail/update.rs:130-240 | If the profile row lags behind its stream, the response equals what a later read composes exactly when the request touches no part of the profile, or every part left unchanged shows the same in the row and in the fold |
| AccountDetail.DetailStore.UpdateBot | application/src/service/account_detail/update.rs:94-117 | The bot flag: saved and written only if it changes |
| AccountDetail.DetailStore.UpdateProfile | application/src/service/account_detail/update.rs:119-154 | The profile event, saved without an expected version, and the row rewritten from the reloaded stream |
| AccountDetail.DetailStore.UpdateFields | application/src/service/account_detail/update.rs:156-170 | The field updates, if any were submitted |
| AccountDetail.DetailStore.UpdateAccountDetail | application/src/service/account_detail/update.rs:62-255 | The whole transaction: response and committed tables, or the error and the tables as before |
| AccountDetail.GroupFields | application/src/service/account_detail/read.rs:161-170 | The grouping loop gives each account its own fields in sorted order |
| AccountDetail.ComposeDetails | application/src/service/account_detail/read.rs:113-196 | Details in the order of the accounts, an error exactly if some account has no profile, and no fields for a repeated account |
| AccountDetail.ReadShows | application/src/service/account_detail/read.rs:171-196 | Every part of a composed detail, from the account, its profile row, the images and its own fields |
| AccountDetail.BatchReadIsSingleReads | application/src/service/account_detail/read.rs:113-196 | In a batch read every account listed once gets exactly what reading it alone gives |
| Pagination.ApplyPagination | application/src/dto/pagination.rs:40-77 | The loop returns the sorted, filtered, limited page, in ascending order in both directions |
| Pagination.NextPage | application/src/dto/pagination.rs:48-60 | NEXT returns the limit elements right behind the cursor, for any cursor |
| Pagination.PrevPage | application/src/dto/pagination.rs:61-74 | PREV returns the limit elements right before the cursor, ascending, for any cursor |
| Pagination.FirstAndLastPage | application/src/dto/pagination.rs:40-77 | Without a cursor NEXT shows the first elements and PREV the last ones, both ascending |
| Pagination.PageBeyond | application/src/dto/pagination.rs:40-77 | A page holds at most the limit, only elements of the collection above the cursor for NEXT and below it for PREV, and all of those if they are fewer than the limit |
| Pagination.WalkNext | application/src/dto/pagination.rs:40-77 | Walking NEXT from the last element of each page lists the sorted collection exactly once, in consecutive pages, and stops |
| Pagination.PrevUndoesNext | application/src/dto/pagination.rs:61-74 | PREV from the first element of any later page returns exactly the page before it |
| Pagination.HiddenCursorRestarts | application/src/service/account_detail/read.rs:53-72 | From a listed account the next page is the one behind it exactly when the account is not hidden from the cursor query; from a hidden one the listing starts over |
| Pagination.HiddenWalk | application/src/service/account_detail/read.rs:45-74 | Walking NEXT through the listing reaches an empty page exactly when no page ends on a hidden account; then it lists the sorted collection once, and otherwise it goes round the pages up to the first such one for ever |
| Blocks.RelationStore.RemoveFollows | application/src/service/block.rs:513-519 | One deletion loop: exactly the follows from one party to the other are gone |
| Blocks.RelationStore.RemoveFollowsBetween | application/src/service/block.rs:503-528 | Exactly the follows between the two parties are gone, in both directions |
| Blocks.RelationStore.BlockAccount | application/src/service/block.rs:122-178 | The block transaction: row, follow removal and outbox entry together, or nothing |
| Blocks.RelationStore.UnblockAccount | application/src/service/block.rs:291-355 | The unblock transaction: row removal and outbox entry together, or nothing |
| Blocks.OutboxConserved | application/src/service/activitypub/outbound_block.rs:9-55 | After every run each remote pair has at most one block row, the outbox holds exactly that many more Blocks than Undos for it, every Undo embeds an earlier Block of the same account with that Block's id and actor, as section 6.10 of W3C ActivityPub requires, no Block is undone twice, and every activity speaks for its own account and is addressed to exactly the party concerned |
| Blocks.FollowRemovalExact | application/src/service/block.rs:122-178 | A block changes something exactly when it is not to oneself, the account does not block the party yet, its ids are unused and nothing fails; then exactly the follows between the two parties are gone |
| Blocks.BlockSends | application/src/service/activitypub/outbound_block.rs:9-31 | A successful block adds the one row and, for a remote party, one Block by the local actor, addressed to that party |
| Blocks.UnblockSends | application/src/service/activitypub/outbound_block.rs:33-55 | A successful unblock removes the one row and no follow and, for a remote party, sends one Undo that repeats the whole Block, to that party |
| Blocks.UnblockSucceeds | application/src/service/block.rs:291-355 | An unblock is not found exactly if the account does not block the party, and otherwise succeeds unless the activity id of a remote Undo is used |
| Blocks.UnblockUndoesBlock | application/src/service/block.rs:291-355 | Unblocking right after blocking restores the block rows, but not the follows |
| JwksCache.KeyCache.constructor | server/src/auth.rs:133-149 | A new cache is empty and due for a refresh, unless the clock cannot be set back far enough |
| JwksCache.KeyCache.FetchKeys | server/src/auth.rs:200-219 | A fetch notes its completion time; only a successful one replaces the keys |
| JwksCache.KeyCache.TryInit | server/src/auth.rs:173-197 | A failed discovery changes nothing; a successful one fetches and then records the address |
| JwksCache.KeyCache.GetKey | server/src/auth.rs:226-259 | One lookup: cache hit, refusal within the interval, or one refresh and a second lookup |
| JwksCache.ServedExactly | server/src/auth.rs:226-259 | A lookup without interference asks the endpoint exactly if the key is not cached, the interval has passed and the address is known or discovered; what it then leaves cached is what it answers |
| JwksCache.RefreshDiscipline | server/src/auth.rs:226-259 | In every interleaving of lookups after start-up, requests to the key set endpoint are at least the minimum interval apart, each call sends at most one, and the refresh lock has one holder |
| JwksCache.EveryAnswerIsCached | server/src/auth.rs:226-259 | In every interleaving of lookups after start-up, the step that ended a call answered what the key set cached after that step held for the key id that the call asked for: the key if it was there, none if it was not |
| JwksCache.WaitingCallIsServed | server/src/auth.rs:233-238 | A call that waited while its key was fetched gets it at the re-check, without a request or a discovery of its own |
| JwksCache.KeysNeverLost | server/src/auth.rs:200-219 | A cached key set is never lost: at every later time there is one, the original or a successfully fetched one |
| JwksCache.DiscoveryDiscipline | server/src/auth.rs:173-197 | In every interleaving of lookups after start-up every discovery but the last one failed, so no discovery follows a successful one |
| JwksCache.DiscoveryNotLimited | server/src/auth.rs:173-190 | Whatever the minimum interval, two lookups in a row whose discoveries fail both ask the issuer, at the same instant |
| JwksCache.AloneIsServed | server/src/auth.rs:226-259 | A call whose steps are not interleaved does exactly what the plain lookup does, and asks the endpoint exactly when that does |

## Left out

- RowProjection.CommitTracks: assumes that a commit is newer than the row and inside the window. The code
  does not enforce either; profile updates are saved without an expected version, so their order rests on
  the id generator.
- Pipeline.CascadeSafety: assumes that no parent lookup fails on a group it would have to stop, and that
  all creation events of one child name the same account; Pipeline.ChildPollNoOrphans shows that the first
  is necessary.
- Pipeline.WriteNoOrphans: takes a use case's check of the account and its row writes as one step; for the race
  with an account poll that commits between them Pipeline.WriteOrphansExactly gives the exact condition. The
  account and the profile of a new account are written in two steps, and a rewritten row is the whole fold,
  although the update statements leave the ids, the owner and the creation time alone.
- Convergence.AccountsConverge: covers streams up to their first deactivation, and polls that read a lapsed
  suspension only if that does no harm; AccountRows.ReactivationBoundary and AccountRows.ExpiredPollExact
  say exactly what happens beyond.
- AccountCommands.Serializable: assumes what the repository promises, that a load or a save sees every save
  before it; AccountCommands.SerialExactly says what holds without that.
- AccountCommands.SerialExactly: assumes that versions are handed out in increasing order;
  AccountCommands.StaleVersionBreaks shows that this is needed. A transaction that is rolled back leaves no
  step, and clock skew between workers is not modelled.
- Quiescence.PlainRunSettles: covers runs without a deactivation; Quiescence.QuietReached itself does not need
  that.
- AccountDetail.ReadAfterWrite: takes the projection read before the transaction and the rows read inside
  it from one state.
- Blocks.OutboxConserved: takes actor URLs as fixed; remote accounts that change their URL, and rows that
  vanish by foreign-key cascade, are not modelled.
- JwksCache.RefreshDiscipline: starts after start-up; the initialization at start-up does not take the
  refresh lock.
- Permission checks and the relation writes of create, deactivate and reactivate: external and
  best-effort, no effect on the tables modelled here.
- Validation of names, reasons, URLs and field lengths, and the check that a suspension ends in the future:
  they only add easy members.
- Delivery of outbox activities and of profile updates to remote servers: network effects after commit.
- A database error that fails a whole poll: it leaves no step behind.
- Foreign keys and the unique keys on names and public ids: a write refused by one is a failed write.
- Signing keys, media upload, mutes, relations, inbox handling, HTTP routes and serialization.
- Activity ids are represented by the number at the end of their URL, and elements of a paginated
  collection by their ordering keys.
